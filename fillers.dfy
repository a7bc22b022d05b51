/**
 * Filler-word removal (`filter_filler_words` in the daemon and in the helper
 * module). A pass of `re.sub(pattern, "", s)` over an alternation of filler
 * words is modelled as a left-to-right scan of the ORIGINAL string: at each
 * position the first listed alternative that matches there is deleted and the
 * scan resumes after it, otherwise one character is kept. Lookarounds and
 * `\b` are evaluated on the original string, as `re.sub` does. The pass is
 * followed by the whitespace normalisation shared by both copies.
 */
module Fillers {
  import opened PyText
  import opened Languages

  /** How the alternatives of a filler pattern are matched. */
  datatype Matcher =
    | Literal(words: seq<string>)            // (?:w1|w2|...)
    | WordBounded(words: seq<string>)        // \b(?:w1|w2|...)\b, IGNORECASE
    | EscapedLookaround(words: seq<string>)  // (?<!\\w)(?:w1|w2|...)(?!\\w), IGNORECASE

  /**
   * Characters of Python's Unicode `\w` that the model recognises: ASCII
   * letters, digits and `_`, the Latin-1 and Latin Extended letters, the
   * superscript digits and vulgar fractions of Latin-1, CJK unified
   * ideographs, kana with the prolonged sound mark, Hangul syllables and the
   * full-width ASCII letters and digits.
   */
  predicate IsWordChar(c: char)
  {
    ('0' <= c <= '9') || ('A' <= c <= 'Z') || ('a' <= c <= 'z') || c == '_'
    || c == '\U{aa}' || c == '\U{b2}' || c == '\U{b3}' || c == '\U{b5}' || c == '\U{b9}' || c == '\U{ba}'
    || ('\U{bc}' <= c <= '\U{be}') || ('\U{c0}' <= c <= '\U{d6}') || ('\U{d8}' <= c <= '\U{f6}')
    || ('\U{f8}' <= c <= '\U{24f}')
    || ('\U{3041}' <= c <= '\U{3096}') || ('\U{309d}' <= c <= '\U{309f}')
    || ('\U{30a1}' <= c <= '\U{30fa}') || ('\U{30fc}' <= c <= '\U{30ff}')
    || c == '\U{3005}' || ('\U{4e00}' <= c <= '\U{9fff}') || ('\U{ac00}' <= c <= '\U{d7a3}')
    || ('\U{ff10}' <= c <= '\U{ff19}') || ('\U{ff21}' <= c <= '\U{ff3a}') || ('\U{ff41}' <= c <= '\U{ff5a}')
  }

  /** `\b` at position `p`: exactly one of the two neighbours is a word character. */
  predicate Boundary(s: string, p: nat)
    requires p <= |s|
  {
    (p > 0 && IsWordChar(s[p - 1])) != (p < |s| && IsWordChar(s[p]))
  }

  /**
   * Characters `j..` of `w` agree with `s` from position `i + j`, exactly or
   * (when `fold`) after ASCII case folding.
   */
  predicate AgreeFrom(s: string, w: string, i: nat, j: nat, fold: bool)
    decreases |w| - j
  {
    j >= |w|
    || (i + j < |s|
        && (if fold then LowerChar(s[i + j]) == LowerChar(w[j]) else s[i + j] == w[j])
        && AgreeFrom(s, w, i, j + 1, fold))
  }

  lemma {:induction false} AgreeFromSpec(s: string, w: string, i: nat, j: nat, fold: bool)
    requires j <= |w|
    ensures AgreeFrom(s, w, i, j, fold) <==>
      (j < |w| ==> i + |w| <= |s|)
      && forall t :: j <= t < |w| ==> (if fold then LowerChar(s[i + t]) == LowerChar(w[t]) else s[i + t] == w[t])
    decreases |w| - j
  {
    if j < |w| {
      AgreeFromSpec(s, w, i, j + 1, fold);
    }
  }

  /** Exact agreement is an occurrence; folded agreement is equality after lower-casing. */
  lemma {:induction false} AgreeMeaning(s: string, w: string, i: nat)
    requires i <= |s|
    ensures AgreeFrom(s, w, i, 0, false) <==> OccursAt(s, w, i)
    ensures AgreeFrom(s, w, i, 0, true) <==> i + |w| <= |s| && Lower(s[i..i + |w|]) == Lower(w)
  {
    AgreeFromSpec(s, w, i, 0, false);
    AgreeFromSpec(s, w, i, 0, true);
    if i + |w| <= |s| {
      var seg := s[i..i + |w|];
      assert forall t :: 0 <= t < |w| ==> seg[t] == s[i + t];
      if AgreeFrom(s, w, i, 0, true) {
        assert Lower(seg) == Lower(w);
      }
      if Lower(seg) == Lower(w) {
        forall t | 0 <= t < |w|
          ensures LowerChar(s[i + t]) == LowerChar(w[t])
        {
          assert Lower(seg)[t] == Lower(w)[t];
        }
      }
    }
  }

  /** The two characters `\` and `w` (either case) end at position `i`. */
  predicate EscapedWordBefore(s: string, i: nat)
    requires i <= |s|
  {
    i >= 2 && s[i - 2] == '\\' && LowerChar(s[i - 1]) == 'w'
  }

  /** The two characters `\` and `w` (either case) start at position `i`. */
  predicate EscapedWordAt(s: string, i: nat)
  {
    i + 2 <= |s| && s[i] == '\\' && LowerChar(s[i + 1]) == 'w'
  }

  /** The alternative `w` of matcher `mt` matches the original string at `i`. */
  predicate AltMatches(mt: Matcher, w: string, s: string, i: nat)
  {
    match mt
    case Literal(_) => AgreeFrom(s, w, i, 0, false)
    case WordBounded(_) =>
      AgreeFrom(s, w, i, 0, true) && i + |w| <= |s| && Boundary(s, i) && Boundary(s, i + |w|)
    case EscapedLookaround(_) =>
      AgreeFrom(s, w, i, 0, true) && i + |w| <= |s| && !EscapedWordBefore(s, i) && !EscapedWordAt(s, i + |w|)
  }

  /** Index of the first alternative, from the `k`-th on, that matches at `i`. */
  function FirstAlt(mt: Matcher, s: string, i: nat, k: nat): Option<nat>
    decreases |mt.words| - k
  {
    if k >= |mt.words| then None
    else if AltMatches(mt, mt.words[k], s, i) then Some(k)
    else FirstAlt(mt, s, i, k + 1)
  }

  /** `re` tries the alternatives in the order they are listed and takes the first that matches. */
  lemma {:induction false} FirstAltSpec(mt: Matcher, s: string, i: nat, k: nat)
    ensures var r := FirstAlt(mt, s, i, k);
      (r.Some? ==> k <= r.value < |mt.words| && AltMatches(mt, mt.words[r.value], s, i)
                   && forall j :: k <= j < r.value ==> !AltMatches(mt, mt.words[j], s, i))
      && (r.None? ==> forall j :: k <= j < |mt.words| ==> !AltMatches(mt, mt.words[j], s, i))
    decreases |mt.words| - k
  {
    if k < |mt.words| {
      FirstAltSpec(mt, s, i, k + 1);
    }
  }

  /** Length deleted at `i`: that of the first matching alternative, or 0. */
  function MatchLen(mt: Matcher, s: string, i: nat): nat
  {
    match FirstAlt(mt, s, i, 0)
    case None => 0
    case Some(k) => if k < |mt.words| then |mt.words[k]| else 0
  }

  /** Every list the program uses has only non-empty alternatives. */
  predicate NonEmptyWords(mt: Matcher)
  {
    forall k :: 0 <= k < |mt.words| ==> mt.words[k] != []
  }

  /** What the match at `i` is: a listed word (up to case), with the matcher's side conditions. */
  lemma {:induction false} MatchLenSpec(mt: Matcher, s: string, i: nat)
    requires i <= |s|
    ensures var n := MatchLen(mt, s, i);
      i + n <= |s|
      && (n > 0 && mt.Literal? ==> s[i..i + n] in mt.words)
      && (n > 0 && !mt.Literal? ==> exists k :: 0 <= k < |mt.words| && Lower(mt.words[k]) == Lower(s[i..i + n]))
      && (n > 0 && mt.WordBounded? ==> Boundary(s, i) && Boundary(s, i + n))
      && (n > 0 && mt.EscapedLookaround? ==> !EscapedWordBefore(s, i) && !EscapedWordAt(s, i + n))
      && (n == 0 && NonEmptyWords(mt) ==> forall k :: 0 <= k < |mt.words| ==> !AltMatches(mt, mt.words[k], s, i))
  {
    FirstAltSpec(mt, s, i, 0);
    var r := FirstAlt(mt, s, i, 0);
    if r.Some? {
      var w := mt.words[r.value];
      AgreeMeaning(s, w, i);
      AgreeFromSpec(s, w, i, 0, mt.Literal?);
      if mt.Literal? && w != [] {
        assert s[i..i + |w|] == w;
      }
    }
  }

  /** One step of the scan: a kept character or a deleted span. */
  datatype Piece = Kept(at: nat) | Dropped(at: nat, len: nat)

  function End(p: Piece): nat
  {
    if p.Kept? then p.at + 1 else p.at + p.len
  }

  /**
   * `ps` is a left-to-right scan of `s[i..]`: consecutive pieces tile it,
   * each deleted span is what matches at its start, and each kept character
   * starts no match.
   */
  predicate ScanOf(mt: Matcher, s: string, i: nat, ps: seq<Piece>)
  {
    (ps == [] <==> i >= |s|)
    && (ps != [] ==> ps[0].at == i && End(ps[|ps| - 1]) == |s|)
    && (forall k :: 0 <= k < |ps| - 1 ==> End(ps[k]) == ps[k + 1].at)
    && (forall k :: 0 <= k < |ps| ==>
          ps[k].at < |s|
          && (ps[k].Kept? ==> MatchLen(mt, s, ps[k].at) == 0)
          && (ps[k].Dropped? ==> ps[k].len > 0 && MatchLen(mt, s, ps[k].at) == ps[k].len))
  }

  /** The scan `re.sub` performs from position `i`. */
  function Scan(mt: Matcher, s: string, i: nat): seq<Piece>
    decreases |s| - i
  {
    if i >= |s| then []
    else
      var n := MatchLen(mt, s, i);
      if n > 0 then [Dropped(i, n)] + Scan(mt, s, i + n)
      else [Kept(i)] + Scan(mt, s, i + 1)
  }

  lemma {:induction false} ScanSpec(mt: Matcher, s: string, i: nat)
    requires i <= |s|
    ensures ScanOf(mt, s, i, Scan(mt, s, i))
    decreases |s| - i
  {
    if i < |s| {
      MatchLenSpec(mt, s, i);
      var n := MatchLen(mt, s, i);
      var p := if n > 0 then Dropped(i, n) else Kept(i);
      ScanSpec(mt, s, End(p));
      ScanCons(mt, s, p, Scan(mt, s, End(p)));
      assert Scan(mt, s, i) == [p] + Scan(mt, s, End(p));
    }
  }

  /** A piece that starts at `p.at` as the scan demands, followed by a scan from its end, is a scan. */
  lemma {:induction false} ScanCons(mt: Matcher, s: string, p: Piece, tail: seq<Piece>)
    requires p.at < End(p) <= |s| && ScanOf(mt, s, End(p), tail)
    requires p.Kept? ==> MatchLen(mt, s, p.at) == 0
    requires p.Dropped? ==> p.len > 0 && MatchLen(mt, s, p.at) == p.len
    ensures ScanOf(mt, s, p.at, [p] + tail)
  {
    var ps := [p] + tail;
    assert ps[0] == p && ps[1..] == tail;
    if tail == [] {
      assert End(ps[|ps| - 1]) == |s|;
    } else {
      assert ps[|ps| - 1] == tail[|tail| - 1];
    }
    forall k | 0 <= k < |ps| - 1
      ensures End(ps[k]) == ps[k + 1].at
    {
      if k > 0 {
        assert ps[k] == tail[k - 1] && ps[k + 1] == tail[k];
      }
    }
    forall k | 0 <= k < |ps|
      ensures ps[k].at < |s|
        && (ps[k].Kept? ==> MatchLen(mt, s, ps[k].at) == 0)
        && (ps[k].Dropped? ==> ps[k].len > 0 && MatchLen(mt, s, ps[k].at) == ps[k].len)
    {
      if k > 0 {
        assert ps[k] == tail[k - 1];
      }
    }
  }

  /** The characters of the kept pieces, in order. */
  function KeptText(s: string, ps: seq<Piece>): string
  {
    if ps == [] then []
    else (if ps[0].Kept? && ps[0].at < |s| then [s[ps[0].at]] else []) + KeptText(s, ps[1..])
  }

  /** `re.sub(pattern, "", s[i..])` read against the whole of `s`: the characters the scan keeps. */
  function DeleteFrom(mt: Matcher, s: string, i: nat): string
    decreases |s| - i
  {
    if i >= |s| then []
    else
      var n := MatchLen(mt, s, i);
      if n > 0 then DeleteFrom(mt, s, i + n)
      else [s[i]] + DeleteFrom(mt, s, i + 1)
  }

  /** `re.sub(pattern, "", s)` for the filler pattern `mt`. */
  function Delete(mt: Matcher, s: string): string
  {
    DeleteFrom(mt, s, 0)
  }

  lemma {:induction false} DeleteFromScan(mt: Matcher, s: string, i: nat)
    ensures DeleteFrom(mt, s, i) == KeptText(s, Scan(mt, s, i))
    decreases |s| - i
  {
    if i < |s| {
      var n := MatchLen(mt, s, i);
      var j := if n > 0 then i + n else i + 1;
      DeleteFromScan(mt, s, j);
      var ps := Scan(mt, s, i);
      assert ps[1..] == Scan(mt, s, j);
    }
  }

  /** The scan is determined by its specification: there is exactly one. */
  lemma {:induction false} ScanUnique(mt: Matcher, s: string, i: nat, ps: seq<Piece>, qs: seq<Piece>)
    requires i <= |s| && ScanOf(mt, s, i, ps) && ScanOf(mt, s, i, qs)
    ensures ps == qs
    decreases |s| - i
  {
    if ps != [] {
      ScanHead(mt, s, i, ps, qs);
      var e := End(ps[0]);
      ScanRest(mt, s, i, ps);
      ScanRest(mt, s, i, qs);
      ScanUnique(mt, s, e, ps[1..], qs[1..]);
      assert ps == [ps[0]] + ps[1..];
      assert qs == [qs[0]] + qs[1..];
    }
  }

  /** Two scans from the same position start with the same piece. */
  lemma {:induction false} ScanHead(mt: Matcher, s: string, i: nat, ps: seq<Piece>, qs: seq<Piece>)
    requires ScanOf(mt, s, i, ps) && ScanOf(mt, s, i, qs) && ps != []
    ensures qs != [] && ps[0] == qs[0] && i < End(ps[0])
  {
    assert ps[0].at < |s|;
    assert qs[0].at == i;
  }

  /** After its first piece a scan goes on as a scan from that piece's end. */
  lemma {:induction false} ScanRest(mt: Matcher, s: string, i: nat, ps: seq<Piece>)
    requires ScanOf(mt, s, i, ps) && ps != []
    ensures ScanOf(mt, s, End(ps[0]), ps[1..])
  {
    var t := ps[1..];
    if |ps| == 1 {
      assert End(ps[|ps| - 1]) == |s|;
    } else {
      assert End(ps[0]) == ps[1].at && ps[1].at < |s|;
      assert t[0] == ps[1] && t[|t| - 1] == ps[|ps| - 1];
    }
    forall k | 0 <= k < |t| - 1
      ensures End(t[k]) == t[k + 1].at
    {
      assert t[k] == ps[k + 1] && t[k + 1] == ps[k + 2];
    }
    forall k | 0 <= k < |t|
      ensures t[k].at < |s|
        && (t[k].Kept? ==> MatchLen(mt, s, t[k].at) == 0)
        && (t[k].Dropped? ==> t[k].len > 0 && MatchLen(mt, s, t[k].at) == t[k].len)
    {
      assert t[k] == ps[k + 1];
    }
  }

  /**
   * A filler pass keeps exactly the characters that a left-to-right scan
   * (first listed alternative wins, matches never overlap) leaves outside
   * the deleted spans.
   */
  lemma {:induction false} DeleteCharacterized(mt: Matcher, s: string, ps: seq<Piece>)
    requires ScanOf(mt, s, 0, ps)
    ensures Delete(mt, s) == KeptText(s, ps)
  {
    DeleteFromScan(mt, s, 0);
    ScanSpec(mt, s, 0);
    ScanUnique(mt, s, 0, ps, Scan(mt, s, 0));
  }

  lemma {:induction false} DeleteFromNoMatch(mt: Matcher, s: string, i: nat)
    requires i <= |s|
    requires forall p :: i <= p < |s| ==> MatchLen(mt, s, p) == 0
    ensures DeleteFrom(mt, s, i) == s[i..]
    decreases |s| - i
  {
    if i < |s| {
      DeleteFromNoMatch(mt, s, i + 1);
      assert s[i..] == [s[i]] + s[i + 1..];
    }
  }

  /** Where nothing matches from `i` up to `j`, the pass keeps those characters and goes on from `j`. */
  lemma {:induction false} DeleteFromKeeps(mt: Matcher, s: string, i: nat, j: nat)
    requires i <= j <= |s|
    requires forall p :: i <= p < j ==> MatchLen(mt, s, p) == 0
    ensures DeleteFrom(mt, s, i) == s[i..j] + DeleteFrom(mt, s, j)
    decreases j - i
  {
    if i < j {
      assert MatchLen(mt, s, i) == 0;
      calc {
        DeleteFrom(mt, s, i);
        [s[i]] + DeleteFrom(mt, s, i + 1);
        { DeleteFromKeeps(mt, s, i + 1, j); }
        [s[i]] + (s[i + 1..j] + DeleteFrom(mt, s, j));
        { assert s[i..j] == [s[i]] + s[i + 1..j]; }
        s[i..j] + DeleteFrom(mt, s, j);
      }
    }
  }

  /** `cs` holds the first character, lower-cased, of every alternative of `mt`. */
  predicate InitialsIn(mt: Matcher, cs: set<char>)
  {
    forall k :: 0 <= k < |mt.words| ==> mt.words[k] != [] && LowerChar(mt.words[k][0]) in cs
  }

  /** No match starts at a character whose lower-case form begins no alternative. */
  lemma {:induction false} NoInitialNoMatch(mt: Matcher, cs: set<char>, s: string, i: nat, j: nat)
    requires InitialsIn(mt, cs) && j <= |s|
    requires forall p :: i <= p < j ==> LowerChar(s[p]) !in cs
    ensures forall p :: i <= p < j ==> MatchLen(mt, s, p) == 0
  {
    forall p | i <= p < j
      ensures MatchLen(mt, s, p) == 0
    {
      FirstAltSpec(mt, s, p, 0);
      var r := FirstAlt(mt, s, p, 0);
      if r.Some? {
        var w := mt.words[r.value];
        assert AgreeFrom(s, w, p, 0, !mt.Literal?);
      }
    }
  }

  /** No character of `t`, lower-cased, is in `cs`. */
  predicate NoInitialIn(cs: set<char>, t: string)
  {
    forall p :: 0 <= p < |t| ==> LowerChar(t[p]) !in cs
  }

  lemma {:induction false} NoInitialAppend(cs: set<char>, a: string, b: string)
    requires NoInitialIn(cs, a) && NoInitialIn(cs, b)
    ensures NoInitialIn(cs, a + b)
  {
    forall p | 0 <= p < |a + b|
      ensures LowerChar((a + b)[p]) !in cs
    {
      if p >= |a| {
        assert (a + b)[p] == b[p - |a|];
      }
    }
  }

  /** A piece of the text none of whose characters can begin a filler is kept as it is. */
  lemma {:induction false} KeepsPiece(mt: Matcher, cs: set<char>, s: string, i: nat, t: string)
    requires InitialsIn(mt, cs) && i + |t| <= |s| && s[i..i + |t|] == t
    requires NoInitialIn(cs, t)
    ensures DeleteFrom(mt, s, i) == t + DeleteFrom(mt, s, i + |t|)
  {
    forall p | i <= p < i + |t|
      ensures LowerChar(s[p]) !in cs
    {
      assert s[p] == t[p - i];
    }
    NoInitialNoMatch(mt, cs, s, i, i + |t|);
    DeleteFromKeeps(mt, s, i, i + |t|);
  }

  /** Where no filler matches anywhere, the pass keeps the text as it is. */
  lemma {:induction false} DeleteNoMatch(mt: Matcher, s: string)
    requires forall p :: 0 <= p < |s| ==> MatchLen(mt, s, p) == 0
    ensures Delete(mt, s) == s
  {
    DeleteFromNoMatch(mt, s, 0);
  }

  /** With word boundaries, every deleted span starts and ends at a `\b` of the original text. */
  lemma {:induction false} WordBoundedSpans(ws: seq<string>, s: string)
    ensures forall k :: 0 <= k < |Scan(WordBounded(ws), s, 0)| && Scan(WordBounded(ws), s, 0)[k].Dropped? ==>
      Scan(WordBounded(ws), s, 0)[k].at + Scan(WordBounded(ws), s, 0)[k].len <= |s|
      && Boundary(s, Scan(WordBounded(ws), s, 0)[k].at)
      && Boundary(s, Scan(WordBounded(ws), s, 0)[k].at + Scan(WordBounded(ws), s, 0)[k].len)
  {
    var ps := Scan(WordBounded(ws), s, 0);
    ScanSpec(WordBounded(ws), s, 0);
    forall k | 0 <= k < |ps| && ps[k].Dropped?
      ensures ps[k].at + ps[k].len <= |s| && Boundary(s, ps[k].at) && Boundary(s, ps[k].at + ps[k].len)
    {
      MatchLenSpec(WordBounded(ws), s, ps[k].at);
    }
  }

  /** So no deletion starts strictly inside a run of word characters. */
  lemma {:induction false} WordBoundedKeepsWordInterior(ws: seq<string>, s: string, p: nat)
    requires 0 < p < |s| && IsWordChar(s[p - 1]) && IsWordChar(s[p])
    ensures MatchLen(WordBounded(ws), s, p) == 0
  {
    MatchLenSpec(WordBounded(ws), s, p);
  }

  /* ---------------- whitespace and punctuation normal form ---------------- */

  /** The punctuation that `\s+([,\.，。!?！？:：;；])` pulls whitespace onto. */
  predicate IsPunct(c: char)
  {
    c == ',' || c == '.' || c == '，' || c == '。' || c == '!' || c == '?' || c == '！' || c == '？'
    || c == ':' || c == '：' || c == ';' || c == '；'
  }

  /** `re.sub(r"\s+([,\.，。!?！？:：;；])", r"\1", s)`: a whitespace run before punctuation goes. */
  function DropSpaceBeforePunct(s: string): (r: string)
    ensures |r| <= |s|
    decreases |s|
  {
    if s == [] then []
    else if IsSpace(s[0]) then
      var n := LeadSpaces(s);
      if n < |s| && IsPunct(s[n]) then DropSpaceBeforePunct(s[n..])
      else s[..n] + DropSpaceBeforePunct(s[n..])
    else [s[0]] + DropSpaceBeforePunct(s[1..])
  }

  predicate NoSpaceBeforePunct(s: string)
  {
    forall k :: 0 <= k < |s| - 1 ==> !(IsSpace(s[k]) && IsPunct(s[k + 1]))
  }

  predicate OnlyPlainSpaces(s: string)
  {
    forall k :: 0 <= k < |s| ==> IsSpace(s[k]) ==> s[k] == ' '
  }

  /** No whitespace at either end, none doubled, none before the listed punctuation, all of it ' '. */
  predicate NormalForm(s: string)
  {
    (s == [] || (!IsSpace(s[0]) && !IsSpace(s[|s| - 1])))
    && NoDoubleSpace(s) && NoSpaceBeforePunct(s) && OnlyPlainSpaces(s)
  }

  /** Letters: ASCII ones and CJK unified ideographs. */
  predicate IsLetter(c: char)
  {
    'A' <= c <= 'Z' || 'a' <= c <= 'z' || '\U{4e00}' <= c <= '\U{9fff}'
  }

  /** Text made only of letters, plain spaces and commas. */
  predicate SimpleText(s: string)
  {
    forall k :: 0 <= k < |s| ==> s[k] == ' ' || s[k] == ',' || IsLetter(s[k])
  }

  lemma {:induction false} SimpleTextAppend(a: string, b: string)
    requires SimpleText(a) && SimpleText(b)
    ensures SimpleText(a + b)
  {
    forall k | 0 <= k < |a + b|
      ensures (a + b)[k] == ' ' || (a + b)[k] == ',' || IsLetter((a + b)[k])
    {
      if k >= |a| {
        assert (a + b)[k] == b[k - |a|];
      }
    }
  }

  /**
   * In simple text every whitespace character is a plain space, so doubled
   * whitespace can be read off the spaces alone, and the only punctuation is
   * the comma.
   */
  lemma {:induction false} SimpleTextLayout(s: string)
    requires SimpleText(s)
    ensures OnlyPlainSpaces(s)
    ensures (forall k :: 0 <= k < |s| - 1 ==> !(s[k] == ' ' && s[k + 1] == ' ')) ==> NoDoubleSpace(s)
    ensures ',' !in s ==> NoSpaceBeforePunct(s)
  {
  }

  /** Gluing two strings creates whitespace before punctuation only at the seam. */
  lemma {:induction false} NoSpaceBeforePunctAppend(a: string, b: string)
    requires NoSpaceBeforePunct(a) && NoSpaceBeforePunct(b)
    requires a != [] && b != [] ==> !(IsSpace(a[|a| - 1]) && IsPunct(b[0]))
    ensures NoSpaceBeforePunct(a + b)
  {
    forall k | 0 <= k < |a + b| - 1
      ensures !(IsSpace((a + b)[k]) && IsPunct((a + b)[k + 1]))
    {
      if k + 1 < |a| {
        assert (a + b)[k] == a[k] && (a + b)[k + 1] == a[k + 1];
      } else if k >= |a| {
        assert (a + b)[k] == b[k - |a|] && (a + b)[k + 1] == b[k + 1 - |a|];
      }
    }
  }

  /** What the result of dropping starts with. */
  lemma {:induction false} DropSpaceHead(s: string)
    ensures s != [] && !IsSpace(s[0]) ==> DropSpaceBeforePunct(s) != [] && DropSpaceBeforePunct(s)[0] == s[0]
    ensures s != [] && IsSpace(s[0]) && DropSpaceBeforePunct(s) != [] ==>
      IsSpace(DropSpaceBeforePunct(s)[0]) || IsPunct(DropSpaceBeforePunct(s)[0])
  {
    if s != [] && IsSpace(s[0]) {
      var n := LeadSpaces(s);
      if n < |s| && IsPunct(s[n]) {
        DropSpaceHead(s[n..]);
      }
    }
  }

  lemma {:induction false} DropSpaceNoPunct(s: string)
    ensures NoSpaceBeforePunct(DropSpaceBeforePunct(s))
    decreases |s|
  {
    var r := DropSpaceBeforePunct(s);
    if s == [] {
    } else if IsSpace(s[0]) {
      var n := LeadSpaces(s);
      var rest := s[n..];
      DropSpaceNoPunct(rest);
      var t := DropSpaceBeforePunct(rest);
      if !(n < |s| && IsPunct(s[n])) {
        assert r == s[..n] + t;
        DropSpaceHead(rest);
        forall k | 0 <= k < |r| - 1
          ensures !(IsSpace(r[k]) && IsPunct(r[k + 1]))
        {
          if k + 1 < n {
            assert IsSpace(r[k + 1]) && r[k + 1] == s[k + 1];
          } else if k + 1 == n {
            assert r[k + 1] == t[0] == rest[0];
          } else {
            assert r[k] == t[k - n] && r[k + 1] == t[k + 1 - n];
          }
        }
      }
    } else {
      var rest := s[1..];
      DropSpaceNoPunct(rest);
      var t := DropSpaceBeforePunct(rest);
      assert r == [s[0]] + t;
      forall k | 0 <= k < |r| - 1
        ensures !(IsSpace(r[k]) && IsPunct(r[k + 1]))
      {
        if k > 0 {
          assert r[k] == t[k - 1] && r[k + 1] == t[k];
        }
      }
    }
  }

  lemma {:induction false} DropSpaceNoDouble(s: string)
    requires NoDoubleSpace(s)
    ensures NoDoubleSpace(DropSpaceBeforePunct(s))
    decreases |s|
  {
    var r := DropSpaceBeforePunct(s);
    if s == [] {
    } else if IsSpace(s[0]) {
      var n := LeadSpaces(s);
      var rest := s[n..];
      NoDoubleSuffix(s, n);
      DropSpaceNoDouble(rest);
      var t := DropSpaceBeforePunct(rest);
      if !(n < |s| && IsPunct(s[n])) {
        if |s| > 1 {
          assert !IsSpace(s[1]);
        }
        assert n == 1;
        assert r == [s[0]] + t;
        DropSpaceHead(rest);
        forall k | 0 <= k < |r| - 1
          ensures !(IsSpace(r[k]) && IsSpace(r[k + 1]))
        {
          if k == 0 {
            assert r[1] == t[0] == rest[0];
          } else {
            assert r[k] == t[k - 1] && r[k + 1] == t[k];
          }
        }
      }
    } else {
      var rest := s[1..];
      NoDoubleSuffix(s, 1);
      DropSpaceNoDouble(rest);
      var t := DropSpaceBeforePunct(rest);
      assert r == [s[0]] + t;
      forall k | 0 <= k < |r| - 1
        ensures !(IsSpace(r[k]) && IsSpace(r[k + 1]))
      {
        if k > 0 {
          assert r[k] == t[k - 1] && r[k + 1] == t[k];
        }
      }
    }
  }

  lemma {:induction false} DropSpacePlain(s: string)
    requires OnlyPlainSpaces(s)
    ensures OnlyPlainSpaces(DropSpaceBeforePunct(s))
    decreases |s|
  {
    var r := DropSpaceBeforePunct(s);
    if s != [] {
      var n := if IsSpace(s[0]) then LeadSpaces(s) else 1;
      var rest := s[n..];
      assert OnlyPlainSpaces(rest) by {
        forall k | 0 <= k < |rest| ensures IsSpace(rest[k]) ==> rest[k] == ' ' {
          assert rest[k] == s[n + k];
        }
      }
      DropSpacePlain(rest);
      var t := DropSpaceBeforePunct(rest);
      if !(IsSpace(s[0]) && n < |s| && IsPunct(s[n])) {
        assert r == s[..n] + t;
        forall k | 0 <= k < |r| ensures IsSpace(r[k]) ==> r[k] == ' ' {
          if k >= n {
            assert r[k] == t[k - n];
          }
        }
      }
    }
  }

  lemma {:induction false} NoDoubleSuffix(s: string, n: nat)
    requires n <= |s|
    ensures NoDoubleSpace(s) ==> NoDoubleSpace(s[n..])
  {
    if NoDoubleSpace(s) {
      forall k | 0 <= k < |s[n..]| - 1
        ensures !(IsSpace(s[n..][k]) && IsSpace(s[n..][k + 1]))
      {
        assert s[n..][k] == s[n + k] && s[n..][k + 1] == s[n + k + 1];
      }
    }
  }

  /** The three-step normalisation that ends both copies of `filter_filler_words`. */
  function Normalize(s: string): string
  {
    Strip(DropSpaceBeforePunct(CollapseSpaces(s)))
  }

  /** Whatever the input, the normalised text is in normal form. */
  lemma {:induction false} NormalizeNormalForm(s: string)
    ensures NormalForm(Normalize(s))
  {
    var c := CollapseSpaces(s);
    var d := DropSpaceBeforePunct(c);
    CollapseNoDouble(s);
    DropSpaceNoPunct(c);
    DropSpaceNoDouble(c);
    DropSpacePlain(c);
    StripKeeps(d);
  }

  /** Stripping keeps the inner layout of a string. */
  lemma {:induction false} StripKeeps(d: string)
    ensures NoDoubleSpace(d) ==> NoDoubleSpace(Strip(d))
    ensures NoSpaceBeforePunct(d) ==> NoSpaceBeforePunct(Strip(d))
    ensures OnlyPlainSpaces(d) ==> OnlyPlainSpaces(Strip(d))
  {
    StripSlice(d);
    var a := LeadSpaces(d);
    var r := Strip(d);
    assert forall k :: 0 <= k < |r| ==> r[k] == d[a + k];
  }

  lemma {:induction false} CollapseFixed(s: string)
    requires NoDoubleSpace(s) && OnlyPlainSpaces(s)
    ensures CollapseSpaces(s) == s
    decreases |s|
  {
    if s != [] {
      var n := if IsSpace(s[0]) then LeadSpaces(s) else 1;
      if IsSpace(s[0]) && |s| > 1 {
        assert !IsSpace(s[1]);
      }
      assert n == 1;
      NoDoubleSuffix(s, 1);
      assert OnlyPlainSpaces(s[1..]) by {
        forall k | 0 <= k < |s[1..]| ensures IsSpace(s[1..][k]) ==> s[1..][k] == ' ' {
          assert s[1..][k] == s[k + 1];
        }
      }
      CollapseFixed(s[1..]);
      assert s == [s[0]] + s[1..];
    }
  }

  lemma {:induction false} NoSpaceBeforePunctSuffix(s: string, n: nat)
    requires NoSpaceBeforePunct(s) && n <= |s|
    ensures NoSpaceBeforePunct(s[n..])
  {
    forall k | 0 <= k < |s[n..]| - 1
      ensures !(IsSpace(s[n..][k]) && IsPunct(s[n..][k + 1]))
    {
      assert s[n..][k] == s[n + k] && s[n..][k + 1] == s[n + k + 1];
    }
  }

  lemma {:induction false} DropSpaceFixed(s: string)
    requires NoSpaceBeforePunct(s)
    ensures DropSpaceBeforePunct(s) == s
    decreases |s|
  {
    if s != [] {
      var n := if IsSpace(s[0]) then LeadSpaces(s) else 1;
      if IsSpace(s[0]) && n < |s| {
        assert IsSpace(s[n - 1]);
        assert !IsPunct(s[n]);
      }
      NoSpaceBeforePunctSuffix(s, n);
      DropSpaceFixed(s[n..]);
      assert s == s[..n] + s[n..];
    }
  }

  /** Text already in normal form is left as it is: normalising twice is normalising once. */
  lemma {:induction false} NormalizeFixed(s: string)
    requires NormalForm(s)
    ensures Normalize(s) == s
  {
    CollapseFixed(s);
    DropSpaceFixed(s);
    StripIdentity(s);
  }

  lemma {:induction false} NormalizeIdempotent(s: string)
    ensures Normalize(Normalize(s)) == Normalize(s)
  {
    NormalizeNormalForm(s);
    NormalizeFixed(Normalize(s));
  }

  /* ---------------- the two copies of filter_filler_words ---------------- */

  /**
   * The token pass of the daemon's `filter_filler_words(text, language)`:
   * a configured language uses its own list (word-bounded and case-insensitive
   * for en-US, literal otherwise); `None`, "" or an unknown language removes
   * the Chinese list and then the word-bounded English list.
   */
  function DaemonTokenPass(s: string, language: Option<string>): string
  {
    if language.Some? && language.value != [] && IsKnown(language.value) then
      if language.value == "en-US" then Delete(WordBounded(FillerWords(language.value)), s)
      else Delete(Literal(FillerWords(language.value)), s)
    else Delete(WordBounded(ENGLISH_FILLERS), Delete(Literal(CHINESE_FILLERS), s))
  }

  /** The daemon's `filter_filler_words`. */
  function FilterFillerWords(text: string, language: Option<string>): string
  {
    Normalize(DaemonTokenPass(text, language))
  }

  /** The daemon's filter always returns text in normal form. */
  lemma {:induction false} FilterNormalForm(text: string, language: Option<string>)
    ensures NormalForm(FilterFillerWords(text, language))
  {
    NormalizeNormalForm(DaemonTokenPass(text, language));
  }

  /** The helper module's `filter_filler_words`, with its escaped lookarounds as written. */
  function HelperFilterFillerWords(text: string): string
  {
    Normalize(Delete(EscapedLookaround(ENGLISH_FILLERS), Delete(Literal(CHINESE_FILLERS), text)))
  }

  /** The helper's filter always returns text in normal form. */
  lemma {:induction false} HelperNormalForm(text: string)
    ensures NormalForm(HelperFilterFillerWords(text))
  {
    NormalizeNormalForm(Delete(EscapedLookaround(ENGLISH_FILLERS), Delete(Literal(CHINESE_FILLERS), text)));
  }

  /**
   * The helper's filter with the word boundaries its English pattern evidently
   * meant (`(?<!\w)` and `(?!\w)`): the daemon's legacy behaviour.
   */
  function HelperFilterIntended(text: string): string
  {
    Normalize(Delete(WordBounded(ENGLISH_FILLERS), Delete(Literal(CHINESE_FILLERS), text)))
  }

  /** The intended helper filter is the daemon's legacy filter, and keeps the normal form. */
  lemma {:induction false} IntendedIsLegacy(text: string)
    ensures HelperFilterIntended(text) == FilterFillerWords(text, None)
    ensures NormalForm(HelperFilterIntended(text))
  {
    NormalizeNormalForm(Delete(WordBounded(ENGLISH_FILLERS), Delete(Literal(CHINESE_FILLERS), text)));
  }
}
