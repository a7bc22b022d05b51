/**
 * `heuristic_punctuate` of the daemon: whitespace normalisation, a space
 * between CJK ideographs and ASCII letters or digits, and, for CJK text
 * without any punctuation, commas before connective words and a final 。.
 */
module Punctuation {
  import opened PyText
  import opened Seqs

  /** `[一-鿿]`. */
  predicate IsCjk(c: char)
  {
    '一' <= c <= '鿿'
  }

  /** `[A-Za-z0-9]`. */
  predicate IsAsciiAlnum(c: char)
  {
    ('A' <= c <= 'Z') || ('a' <= c <= 'z') || ('0' <= c <= '9')
  }

  /** `[，。！？；：,.!?;:]`: the marks whose presence means "already punctuated". */
  predicate IsPunctMark(c: char)
  {
    c == '，' || c == '。' || c == '！' || c == '？' || c == '；' || c == '：'
    || c == ',' || c == '.' || c == '!' || c == '?' || c == ';' || c == ':'
  }

  /** `[，。！？；：]`: a connective right after one of these gets no comma. */
  predicate IsClauseMark(c: char)
  {
    c == '，' || c == '。' || c == '！' || c == '？' || c == '；' || c == '：'
  }

  predicate HasCjk(s: string)
  {
    exists i | 0 <= i < |s| :: IsCjk(s[i])
  }

  predicate HasPunct(s: string)
  {
    exists i | 0 <= i < |s| :: IsPunctMark(s[i])
  }

  const CONNECTORS: seq<string> :=
    ["然後", "但是", "可是", "所以", "而且", "因為", "如果", "另外", "最後", "不過"]

  /* ---------------- the steps ---------------- */

  /** A CJK ideograph next to an ASCII letter or digit, in the order the substitution looks for. */
  predicate Pair(a: char, b: char, cjkFirst: bool)
  {
    if cjkFirst then IsCjk(a) && IsAsciiAlnum(b) else IsAsciiAlnum(a) && IsCjk(b)
  }

  /**
   * `re.sub(r"([一-鿿])([A-Za-z0-9])", r"\1 \2", s)` when `cjkFirst`,
   * and the mirror substitution otherwise: a left-to-right scan that resumes
   * after each two-character match.
   */
  function SpacePairs(s: string, cjkFirst: bool): string
    decreases |s|
  {
    if |s| < 2 then s
    else if Pair(s[0], s[1], cjkFirst) then [s[0], ' ', s[1]] + SpacePairs(s[2..], cjkFirst)
    else [s[0]] + SpacePairs(s[1..], cjkFirst)
  }

  /**
   * One connector substitution, `(?<!^)(?<![，。！？；：])c` → `，c`, from
   * position `i` on: the lookbehind reads the string the pass started from.
   */
  function ConnectorFrom(t: string, c: string, i: nat): string
    decreases |t| - i
  {
    if i >= |t| then []
    else if c != [] && i > 0 && !IsClauseMark(t[i - 1]) && OccursAt(t, c, i) then "，" + c + ConnectorFrom(t, c, i + |c|)
    else [t[i]] + ConnectorFrom(t, c, i + 1)
  }

  /** The connector passes, in list order, from the `k`-th connector on. */
  function ApplyConnectors(t: string, k: nat): string
    decreases |CONNECTORS| - k
  {
    if k >= |CONNECTORS| then t else ApplyConnectors(ConnectorFrom(t, CONNECTORS[k], 0), k + 1)
  }

  /** Length of the run of `，` at the front of `s`. */
  function CommaRun(s: string): (n: nat)
    ensures n <= |s| && (forall i :: 0 <= i < n ==> s[i] == '，') && (n < |s| ==> s[n] != '，')
  {
    if s == [] || s[0] != '，' then 0 else 1 + CommaRun(s[1..])
  }

  /** `re.sub(r"，{2,}", "，", s)`: every run of full-width commas becomes one. */
  function CollapseCommas(s: string): string
    decreases |s|
  {
    if s == [] then []
    else if s[0] == '，' then "，" + CollapseCommas(s[CommaRun(s)..])
    else [s[0]] + CollapseCommas(s[1..])
  }

  /** The spacing steps shared by every branch. */
  function Spaced(text: string): string
  {
    SpacePairs(SpacePairs(CollapseSpaces(Strip(text)), true), false)
  }

  /** `heuristic_punctuate(text)`. */
  function HeuristicPunctuate(text: string): string
  {
    var t := CollapseSpaces(Strip(text));
    if t == [] then t
    else
      var u := SpacePairs(SpacePairs(t, true), false);
      if !HasCjk(u) then
        if !HasPunct(u) && !(EndsWith(u, ".") || EndsWith(u, "!") || EndsWith(u, "?")) then u + "." else u
      else if !HasPunct(u) then
        var v := CollapseCommas(ApplyConnectors(u, 0));
        if EndsWith(v, "。") || EndsWith(v, "！") || EndsWith(v, "？") then v else v + "。"
      else u
  }

  /* ---------------- content: only whitespace changes ---------------- */

  /** The text with every whitespace character removed. */
  function Unspaced(s: string): string
  {
    if s == [] then [] else (if IsSpace(s[0]) then [] else [s[0]]) + Unspaced(s[1..])
  }

  lemma {:induction false} UnspacedConcat(a: string, b: string)
    ensures Unspaced(a + b) == Unspaced(a) + Unspaced(b)
    decreases |a|
  {
    if a != [] {
      assert (a + b)[0] == a[0];
      assert (a + b)[1..] == a[1..] + b;
      UnspacedConcat(a[1..], b);
    } else {
      assert a + b == b;
    }
  }

  lemma {:induction false} UnspacedAllSpace(s: string)
    requires forall i :: 0 <= i < |s| ==> IsSpace(s[i])
    ensures Unspaced(s) == []
    decreases |s|
  {
    if s != [] {
      UnspacedAllSpace(s[1..]);
    }
  }

  lemma {:induction false} UnspacedStrip(s: string)
    ensures Unspaced(Strip(s)) == Unspaced(s)
  {
    var a := LeadSpaces(s);
    if a == |s| {
      UnspacedAllSpace(s);
    } else {
      var b := |s| - TrailSpaces(s);
      StripBounds(s);
      UnspacedAround(s, a, b);
    }
  }

  lemma {:induction false} StripBounds(s: string)
    requires LeadSpaces(s) < |s|
    ensures LeadSpaces(s) <= |s| - TrailSpaces(s) && Strip(s) == s[LeadSpaces(s)..|s| - TrailSpaces(s)]
  {
  }

  /** Whitespace on both sides of a slice contributes nothing. */
  lemma {:induction false} UnspacedAround(s: string, a: nat, b: nat)
    requires a <= b <= |s|
    requires forall i :: 0 <= i < a ==> IsSpace(s[i])
    requires forall i :: b <= i < |s| ==> IsSpace(s[i])
    ensures Unspaced(s) == Unspaced(s[a..b])
  {
    SplitThree(s, a, b);
    UnspacedConcat(s[..a] + s[a..b], s[b..]);
    UnspacedConcat(s[..a], s[a..b]);
    UnspacedAllSpace(s[..a]);
    UnspacedAllSpace(s[b..]);
  }

  lemma {:induction false} UnspacedCollapse(s: string)
    ensures Unspaced(CollapseSpaces(s)) == Unspaced(s)
    decreases |s|
  {
    if s != [] {
      if IsSpace(s[0]) {
        var n := LeadSpaces(s);
        assert s == s[..n] + s[n..];
        UnspacedConcat(s[..n], s[n..]);
        UnspacedAllSpace(s[..n]);
        UnspacedConcat(" ", CollapseSpaces(s[n..]));
        UnspacedCollapse(s[n..]);
      } else {
        UnspacedConcat([s[0]], CollapseSpaces(s[1..]));
        UnspacedCollapse(s[1..]);
      }
    }
  }

  lemma {:induction false} UnspacedSpacePairs(s: string, cjkFirst: bool)
    ensures Unspaced(SpacePairs(s, cjkFirst)) == Unspaced(s)
    decreases |s|
  {
    if |s| >= 2 {
      if Pair(s[0], s[1], cjkFirst) {
        UnspacedSpacePairs(s[2..], cjkFirst);
        UnspacedInsertSpace(s, SpacePairs(s[2..], cjkFirst));
      } else {
        UnspacedConcat([s[0]], SpacePairs(s[1..], cjkFirst));
        UnspacedSpacePairs(s[1..], cjkFirst);
      }
    }
  }

  /** A space put between the first two characters is dropped again. */
  lemma {:induction false} UnspacedInsertSpace(s: string, r: string)
    requires |s| >= 2 && Unspaced(r) == Unspaced(s[2..])
    ensures Unspaced([s[0], ' ', s[1]] + r) == Unspaced(s)
  {
    UnspacedConcat([s[0], ' ', s[1]], r);
    assert [s[0], ' ', s[1]][1..] == [' ', s[1]];
    assert [' ', s[1]][1..] == [s[1]];
    assert Unspaced([s[0], ' ', s[1]]) == Unspaced([s[0], s[1]]);
    assert s == [s[0], s[1]] + s[2..];
    UnspacedConcat([s[0], s[1]], s[2..]);
  }

  /** The spacing steps change whitespace only. */
  lemma {:induction false} UnspacedSpaced(text: string)
    ensures Unspaced(Spaced(text)) == Unspaced(text)
  {
    UnspacedStrip(text);
    UnspacedCollapse(Strip(text));
    UnspacedSpacePairs(CollapseSpaces(Strip(text)), true);
    UnspacedSpacePairs(SpacePairs(CollapseSpaces(Strip(text)), true), false);
  }

  /* ---------------- which characters survive ---------------- */

  /** Every non-space character of the text survives the spacing steps, and nothing else appears but spaces. */
  lemma {:induction false} UnspacedMembers(s: string, c: char)
    requires !IsSpace(c)
    ensures c in Unspaced(s) <==> c in s
    decreases |s|
  {
    if s != [] {
      UnspacedMembers(s[1..], c);
      assert s == [s[0]] + s[1..];
    }
  }

  lemma {:induction false} SpacedMembers(text: string, c: char)
    requires !IsSpace(c)
    ensures c in Spaced(text) <==> c in text
  {
    UnspacedSpaced(text);
    UnspacedMembers(text, c);
    UnspacedMembers(Spaced(text), c);
  }

  lemma {:induction false} SpacedHas(text: string)
    ensures HasCjk(Spaced(text)) <==> HasCjk(text)
    ensures HasPunct(Spaced(text)) <==> HasPunct(text)
  {
    SpacedCjk(text);
    SpacedPunct(text);
  }

  lemma {:induction false} SpacedCjk(text: string)
    ensures HasCjk(Spaced(text)) <==> HasCjk(text)
  {
    var u := Spaced(text);
    if HasCjk(text) {
      var i :| 0 <= i < |text| && IsCjk(text[i]);
      SpacedMembers(text, text[i]);
    }
    if HasCjk(u) {
      var i :| 0 <= i < |u| && IsCjk(u[i]);
      SpacedMembers(text, u[i]);
    }
  }

  lemma {:induction false} SpacedPunct(text: string)
    ensures HasPunct(Spaced(text)) <==> HasPunct(text)
  {
    var u := Spaced(text);
    if HasPunct(text) {
      var i :| 0 <= i < |text| && IsPunctMark(text[i]);
      SpacedMembers(text, text[i]);
    }
    if HasPunct(u) {
      var i :| 0 <= i < |u| && IsPunctMark(u[i]);
      SpacedMembers(text, u[i]);
    }
  }

  /* ---------------- no CJK next to ASCII letters or digits ---------------- */

  predicate BadPair(a: char, b: char)
  {
    Pair(a, b, true) || Pair(a, b, false)
  }

  /** No ideograph touches an ASCII letter or digit. */
  predicate Separated(s: string)
  {
    forall i :: 0 <= i < |s| - 1 ==> !BadPair(s[i], s[i + 1])
  }

  /** No ideograph is directly followed by an ASCII letter or digit. */
  predicate NoCjkThenAlnum(s: string)
  {
    forall i :: 0 <= i < |s| - 1 ==> !Pair(s[i], s[i + 1], true)
  }

  lemma {:induction false} SpacePairsFirst(s: string, cjkFirst: bool)
    ensures |SpacePairs(s, cjkFirst)| >= |s|
    ensures s != [] ==> SpacePairs(s, cjkFirst)[0] == s[0]
    decreases |s|
  {
    if |s| >= 2 {
      if Pair(s[0], s[1], cjkFirst) {
        SpacePairsFirst(s[2..], cjkFirst);
      } else {
        SpacePairsFirst(s[1..], cjkFirst);
      }
    }
  }

  /** The first substitution leaves no ideograph directly before a letter or digit. */
  lemma {:induction false} SpacePairsCjkFirst(s: string)
    ensures NoCjkThenAlnum(SpacePairs(s, true))
    decreases |s|
  {
    if |s| >= 2 {
      if Pair(s[0], s[1], true) {
        var r := SpacePairs(s[2..], true);
        SpacePairsCjkFirst(s[2..]);
        SpacePairsFirst(s[2..], true);
        var w := [s[0], ' ', s[1]] + r;
        forall i | 0 <= i < |w| - 1
          ensures !Pair(w[i], w[i + 1], true)
        {
          if i >= 3 {
            assert w[i] == r[i - 3] && w[i + 1] == r[i - 2];
          }
        }
      } else {
        var r := SpacePairs(s[1..], true);
        SpacePairsCjkFirst(s[1..]);
        SpacePairsFirst(s[1..], true);
        var w := [s[0]] + r;
        forall i | 0 <= i < |w| - 1
          ensures !Pair(w[i], w[i + 1], true)
        {
          if i >= 1 {
            assert w[i] == r[i - 1] && w[i + 1] == r[i];
          }
        }
      }
    }
  }

  /** The second substitution removes the mirror pairs and creates no new ones. */
  lemma {:induction false} SpacePairsAlnumFirst(s: string)
    requires NoCjkThenAlnum(s)
    ensures Separated(SpacePairs(s, false))
    decreases |s|
  {
    if |s| >= 2 {
      if Pair(s[0], s[1], false) {
        var r := SpacePairs(s[2..], false);
        SpacePairsAlnumFirst(s[2..]);
        SpacePairsFirst(s[2..], false);
        var w := [s[0], ' ', s[1]] + r;
        forall i | 0 <= i < |w| - 1
          ensures !BadPair(w[i], w[i + 1])
        {
          if i >= 3 {
            assert w[i] == r[i - 3] && w[i + 1] == r[i - 2];
          }
        }
      } else {
        var r := SpacePairs(s[1..], false);
        SpacePairsAlnumFirst(s[1..]);
        SpacePairsFirst(s[1..], false);
        var w := [s[0]] + r;
        forall i | 0 <= i < |w| - 1
          ensures !BadPair(w[i], w[i + 1])
        {
          if i >= 1 {
            assert w[i] == r[i - 1] && w[i + 1] == r[i];
          }
        }
      }
    }
  }

  lemma {:induction false} SpacedSeparated(text: string)
    ensures Separated(Spaced(text))
  {
    var t := CollapseSpaces(Strip(text));
    SpacePairsCjkFirst(t);
    SpacePairsAlnumFirst(SpacePairs(t, true));
  }

  /** Gluing two separated strings keeps them separated when the seam is harmless. */
  lemma {:induction false} SeparatedAppend(a: string, b: string)
    requires Separated(a) && Separated(b)
    requires a != [] && b != [] ==> !BadPair(a[|a| - 1], b[0])
    ensures Separated(a + b)
  {
    var w := a + b;
    forall i | 0 <= i < |w| - 1
      ensures !BadPair(w[i], w[i + 1])
    {
      if i >= |a| {
        assert w[i] == b[i - |a|] && w[i + 1] == b[i + 1 - |a|];
      } else if i + 1 < |a| {
        assert w[i] == a[i] && w[i + 1] == a[i + 1];
      }
    }
  }

  /** A piece of a separated text is separated. */
  lemma {:induction false} SeparatedSlice(t: string, i: nat, j: nat)
    requires Separated(t) && i <= j <= |t|
    ensures Separated(t[i..j])
  {
    var c := t[i..j];
    forall k | 0 <= k < |c| - 1
      ensures !BadPair(c[k], c[k + 1])
    {
      assert c[k] == t[i + k] && c[k + 1] == t[i + k + 1];
    }
  }

  /** The connector branch of `ConnectorSeparated`: a comma, then the connector as found in `t`, then the rest. */
  lemma {:induction false} ConnectorHitSeparated(t: string, c: string, i: nat, r: string)
    requires Separated(t) && Separated(r)
    requires c != [] && OccursAt(t, c, i)
    requires r == [] || (i + |c| < |t| && (r[0] == t[i + |c|] || r[0] == '，'))
    ensures Separated("，" + c + r)
  {
    assert c == t[i..i + |c|];
    SeparatedSlice(t, i, i + |c|);
    if r != [] {
      assert c[|c| - 1] == t[i + |c| - 1];
      assert !BadPair(t[i + |c| - 1], t[i + |c|]);
    }
    SeparatedAppend(c, r);
    SeparatedAppend("，", c + r);
    assert "，" + c + r == "，" + (c + r);
  }

  lemma {:induction false} ConnectorSeparated(t: string, c: string, i: nat)
    requires Separated(t)
    ensures Separated(ConnectorFrom(t, c, i))
    ensures i < |t| ==> ConnectorFrom(t, c, i) != [] && (ConnectorFrom(t, c, i)[0] == t[i] || ConnectorFrom(t, c, i)[0] == '，')
    decreases |t| - i
  {
    if i < |t| {
      if c != [] && i > 0 && !IsClauseMark(t[i - 1]) && OccursAt(t, c, i) {
        ConnectorSeparated(t, c, i + |c|);
        ConnectorHitSeparated(t, c, i, ConnectorFrom(t, c, i + |c|));
      } else {
        var r := ConnectorFrom(t, c, i + 1);
        ConnectorSeparated(t, c, i + 1);
        SeparatedAppend([t[i]], r);
      }
    }
  }

  lemma {:induction false} ApplyConnectorsSeparated(t: string, k: nat)
    requires Separated(t)
    ensures Separated(ApplyConnectors(t, k))
    decreases |CONNECTORS| - k
  {
    if k < |CONNECTORS| {
      ConnectorSeparated(t, CONNECTORS[k], 0);
      ApplyConnectorsSeparated(ConnectorFrom(t, CONNECTORS[k], 0), k + 1);
    }
  }

  /** No two full-width commas are adjacent. */
  predicate NoDoubleComma(s: string)
  {
    forall i :: 0 <= i < |s| - 1 ==> !(s[i] == '，' && s[i + 1] == '，')
  }

  lemma {:induction false} CollapseCommasSpec(s: string)
    ensures NoDoubleComma(CollapseCommas(s))
    ensures Separated(s) ==> Separated(CollapseCommas(s))
    ensures s != [] ==> CollapseCommas(s) != [] && CollapseCommas(s)[0] == s[0]
    decreases |s|
  {
    if s != [] {
      var n := if s[0] == '，' then CommaRun(s) else 1;
      var r := CollapseCommas(s[n..]);
      CollapseCommasSpec(s[n..]);
      assert CollapseCommas(s) == [s[0]] + r;
      NoDoubleCons(s[0], r);
      if Separated(s) {
        SeparatedSlice(s, n, |s|);
        assert s[n..|s|] == s[n..];
        SeparatedAppend([s[0]], r);
      }
    }
  }

  /** A character in front of comma-free-paired text keeps it free of doubled commas, unless both are commas. */
  lemma {:induction false} NoDoubleCons(x: char, r: string)
    requires NoDoubleComma(r) && (x == '，' && r != [] ==> r[0] != '，')
    ensures NoDoubleComma([x] + r)
  {
    var w := [x] + r;
    forall i | 0 <= i < |w| - 1
      ensures !(w[i] == '，' && w[i + 1] == '，')
    {
      if i >= 1 {
        assert w[i] == r[i - 1] && w[i + 1] == r[i];
      }
    }
  }

  /* ---------------- the promises of heuristic_punctuate ---------------- */

  /** Blank input gives the empty string, and only blank input does. */
  lemma {:induction false} PunctuateBlank(text: string)
    ensures HeuristicPunctuate(text) == [] <==> AllSpace(text)
  {
    var t := CollapseSpaces(Strip(text));
    CollapseNoDouble(Strip(text));
    if t != [] {
      SpacePairsFirst(t, true);
      SpacePairsFirst(SpacePairs(t, true), false);
      CollapseCommasSpec(ApplyConnectors(SpacePairs(SpacePairs(t, true), false), 0));
    }
  }

  /** The output never has an ideograph next to an ASCII letter or digit. */
  lemma {:induction false} PunctuateSeparated(text: string)
    ensures Separated(HeuristicPunctuate(text))
  {
    var t := CollapseSpaces(Strip(text));
    var u := Spaced(text);
    SpacedSeparated(text);
    if t != [] {
      if !HasCjk(u) {
        SeparatedAppend(u, ".");
      } else if !HasPunct(u) {
        var v := CollapseCommas(ApplyConnectors(u, 0));
        assert Separated(v) by {
          ApplyConnectorsSeparated(u, 0);
          CollapseCommasSpec(ApplyConnectors(u, 0));
        }
        SeparatedAppend(v, "。");
        assert HeuristicPunctuate(text) == v || HeuristicPunctuate(text) == v + "。";
      }
    }
  }

  /** Text without ideographs and without punctuation gains a final full stop and nothing else. */
  lemma {:induction false} PunctuateLatin(text: string)
    requires !AllSpace(text) && !HasCjk(text) && !HasPunct(text)
    ensures HeuristicPunctuate(text) == Spaced(text) + "."
    ensures Unspaced(HeuristicPunctuate(text)) == Unspaced(text) + "."
  {
    var t := CollapseSpaces(Strip(text));
    CollapseNoDouble(Strip(text));
    SpacedHas(text);
    var u := Spaced(text);
    SpacePairsFirst(t, true);
    SpacePairsFirst(SpacePairs(t, true), false);
    assert !EndsWith(u, ".") && !EndsWith(u, "!") && !EndsWith(u, "?") by {
      assert !IsPunctMark(u[|u| - 1]);
    }
    UnspacedSpaced(text);
    UnspacedConcat(u, ".");
  }

  /** CJK text without punctuation ends in 。, ！ or ？ and never holds two commas in a row. */
  lemma {:induction false} PunctuateCjk(text: string)
    requires HasCjk(text) && !HasPunct(text)
    ensures var r := HeuristicPunctuate(text);
      r != [] && (r[|r| - 1] == '。' || r[|r| - 1] == '！' || r[|r| - 1] == '？') && NoDoubleComma(r)
  {
    var t := CollapseSpaces(Strip(text));
    SpacedHas(text);
    var u := Spaced(text);
    var i :| 0 <= i < |u| && IsCjk(u[i]);
    assert t != [];
    var v := CollapseCommas(ApplyConnectors(u, 0));
    CollapseCommasSpec(ApplyConnectors(u, 0));
    if !(EndsWith(v, "。") || EndsWith(v, "！") || EndsWith(v, "？")) {
      var w := v + "。";
      forall k | 0 <= k < |w| - 1
        ensures !(w[k] == '，' && w[k + 1] == '，')
      {
        if k < |v| - 1 {
          assert w[k] == v[k] && w[k + 1] == v[k + 1];
        }
      }
    } else {
      assert v[|v| - 1] == '。' || v[|v| - 1] == '！' || v[|v| - 1] == '？';
    }
  }

  /** Text that already holds punctuation is only re-spaced. */
  lemma {:induction false} PunctuatePunctuated(text: string)
    requires HasPunct(text)
    ensures HeuristicPunctuate(text) == Spaced(text)
    ensures Unspaced(HeuristicPunctuate(text)) == Unspaced(text)
  {
    SpacedHas(text);
    UnspacedSpaced(text);
    var i :| 0 <= i < |text| && IsPunctMark(text[i]);
    assert !IsSpace(text[i]);
    assert !AllSpace(text);
    CollapseNoDouble(Strip(text));
  }
}
