/**
 * Python `str` operations that the daemon, the helper module and the
 * settings panel rely on: whitespace as Python's `str.isspace` and the `\s`
 * class of `re` see it, `strip`, ASCII lower-casing, `split`/`join`/`replace`
 * with a non-empty separator, `splitlines`, and the `re.sub(r"\s+", " ", s)`
 * idiom.
 */
module PyText {

  /** Python's `str.isspace()` and the `\s` class of `re` on `str` patterns. */
  predicate IsSpace(c: char)
  {
    c == ' ' || ('\t' <= c <= '\r') || ('\U{1c}' <= c <= '\U{1f}') || c == '\U{85}' || c == '\U{a0}'
    || c == '\U{1680}' || ('\U{2000}' <= c <= '\U{200a}') || c == '\U{2028}' || c == '\U{2029}'
    || c == '\U{202f}' || c == '\U{205f}' || c == '\U{3000}'
  }

  predicate AllSpace(s: string)
  {
    forall i :: 0 <= i < |s| ==> IsSpace(s[i])
  }

  predicate IsBlank(s: string)
  {
    AllSpace(s)
  }

  /** Length of the maximal run of whitespace at the front of `s`. */
  function LeadSpaces(s: string): (n: nat)
    ensures n <= |s|
    ensures forall i :: 0 <= i < n ==> IsSpace(s[i])
    ensures n < |s| ==> !IsSpace(s[n])
  {
    if s == [] || !IsSpace(s[0]) then 0 else 1 + LeadSpaces(s[1..])
  }

  /** Length of the maximal run of whitespace at the back of `s`. */
  function TrailSpaces(s: string): (n: nat)
    ensures n <= |s|
    ensures forall i :: |s| - n <= i < |s| ==> IsSpace(s[i])
    ensures n < |s| ==> !IsSpace(s[|s| - n - 1])
  {
    if s == [] || !IsSpace(s[|s| - 1]) then 0 else 1 + TrailSpaces(s[..|s| - 1])
  }

  /** Python `s.strip()`: drops exactly the maximal leading and trailing whitespace runs. */
  function Strip(s: string): (r: string)
    ensures r == [] || (!IsSpace(r[0]) && !IsSpace(r[|r| - 1]))
    ensures r == [] <==> AllSpace(s)
    ensures |r| <= |s|
  {
    var a := LeadSpaces(s);
    if a == |s| then []
    else
      var b := |s| - TrailSpaces(s);
      s[a..b]
  }

  lemma {:induction false} StripSlice(s: string)
    ensures Strip(s) == s[LeadSpaces(s)..LeadSpaces(s) + |Strip(s)|]
  {
  }

  /** A string without whitespace at either end is its own strip. */
  lemma {:induction false} StripIdentity(s: string)
    requires s == [] || (!IsSpace(s[0]) && !IsSpace(s[|s| - 1]))
    ensures Strip(s) == s
  {
    if s != [] {
      assert LeadSpaces(s) == 0;
      assert TrailSpaces(s) == 0;
    }
  }

  /** Whitespace in the middle of a string survives strip unchanged. */
  lemma {:induction false} StripConcat(a: string, b: string)
    requires a != [] && !IsSpace(a[0]) && !IsSpace(a[|a| - 1])
    requires b == [] || (!IsSpace(b[0]) && !IsSpace(b[|b| - 1]))
    ensures Strip(a + b) == a + b
  {
    StripIdentity(a + b);
  }

  /** Stripping a padded string gives back its core. */
  lemma {:induction false} StripPadded(pre: string, core: string, post: string)
    requires AllSpace(pre) && AllSpace(post)
    requires core != [] && !IsSpace(core[0]) && !IsSpace(core[|core| - 1])
    ensures Strip(pre + core + post) == core
  {
    var s := pre + core + post;
    var a := LeadSpaces(s);
    assert s[|pre|] == core[0];
    assert a == |pre|;
    var t := TrailSpaces(s);
    assert s[|pre| + |core| - 1] == core[|core| - 1];
    assert t == |post|;
    assert s[a..|s| - t] == core;
  }

  /** ASCII lower-casing of one character (Python's `str.lower` on ASCII). */
  function LowerChar(c: char): char
  {
    if 'A' <= c <= 'Z' then (c as int + 32) as char else c
  }

  function Lower(s: string): (r: string)
    ensures |r| == |s|
    ensures forall i :: 0 <= i < |s| ==> r[i] == LowerChar(s[i])
  {
    seq(|s|, i requires 0 <= i < |s| => LowerChar(s[i]))
  }

  /** Lower-casing a literal, character by character. */
  lemma {:induction false} LowerEach(s: string, t: string)
    requires |s| == |t| && forall i :: 0 <= i < |s| ==> LowerChar(s[i]) == t[i]
    ensures Lower(s) == t
  {
  }

  predicate StartsWith(s: string, p: string)
  {
    |p| <= |s| && s[..|p|] == p
  }

  predicate EndsWith(s: string, p: string)
  {
    |p| <= |s| && s[|s| - |p|..] == p
  }

  /** `p` occurs in `s` starting at index `i`. */
  predicate OccursAt(s: string, p: string, i: nat)
  {
    i + |p| <= |s| && s[i..i + |p|] == p
  }

  /** Python `p in s`. */
  predicate Contains(s: string, p: string)
  {
    exists i: nat | i <= |s| :: OccursAt(s, p, i)
  }

  /** Smallest index at which `p` occurs in `s`, if any. */
  function Find(s: string, p: string): (r: Option<nat>)
    ensures r.Some? ==> OccursAt(s, p, r.value)
    ensures r.Some? ==> forall j: nat :: j < r.value ==> !OccursAt(s, p, j)
    ensures r.None? ==> forall j: nat :: !OccursAt(s, p, j)
  {
    FindFrom(s, p, 0)
  }

  function FindFrom(s: string, p: string, k: nat): (r: Option<nat>)
    requires forall j: nat :: j < k ==> !OccursAt(s, p, j)
    ensures r.Some? ==> k <= r.value && OccursAt(s, p, r.value)
    ensures r.Some? ==> forall j: nat :: j < r.value ==> !OccursAt(s, p, j)
    ensures r.None? ==> forall j: nat :: !OccursAt(s, p, j)
    decreases |s| - k
  {
    if k + |p| > |s| then
      assert forall j: nat :: j >= k ==> !OccursAt(s, p, j);
      None
    else if s[k..k + |p|] == p then Some(k)
    else FindFrom(s, p, k + 1)
  }

  lemma {:induction false} ContainsFind(s: string, p: string)
    ensures Contains(s, p) <==> Find(s, p).Some?
  {
  }

  /** Python `s.split(sep)` for a non-empty separator. */
  function Split(s: string, sep: string): (parts: seq<string>)
    requires sep != []
    ensures |parts| >= 1
    decreases |s|
  {
    match Find(s, sep)
    case None => [s]
    case Some(k) => [s[..k]] + Split(s[k + |sep|..], sep)
  }

  /** Python `sep.join(parts)`. */
  function Join(parts: seq<string>, sep: string): string
  {
    if parts == [] then []
    else if |parts| == 1 then parts[0]
    else parts[0] + sep + Join(parts[1..], sep)
  }

  /** Python `s.replace(old, new)` for a non-empty `old`: `new.join(s.split(old))`. */
  function Replace(s: string, target: string, repl: string): string
    requires target != []
  {
    Join(Split(s, target), repl)
  }

  /** Joining the pieces of a split with the same separator gives the text back. */
  lemma {:induction false} SplitJoin(s: string, sep: string)
    requires sep != []
    ensures Join(Split(s, sep), sep) == s
    decreases |s|
  {
    var f := Find(s, sep);
    if f.Some? {
      var k := f.value;
      assert OccursAt(s, sep, k);
      var rest := s[k + |sep|..];
      var tail := Split(rest, sep);
      assert Split(s, sep) == [s[..k]] + tail;
      SplitJoin(rest, sep);
      JoinCons(s[..k], tail, sep);
      assert s == s[..k] + s[k..k + |sep|] + rest;
    } else {
      assert Split(s, sep) == [s];
    }
  }

  lemma {:induction false} JoinCons(head: string, tail: seq<string>, sep: string)
    requires tail != []
    ensures Join([head] + tail, sep) == head + sep + Join(tail, sep)
  {
    assert ([head] + tail)[1..] == tail;
  }

  /** No piece of a split contains the separator. */
  lemma {:induction false} SplitPiecesFree(s: string, sep: string)
    requires sep != []
    ensures forall k :: 0 <= k < |Split(s, sep)| ==> !Contains(Split(s, sep)[k], sep)
    decreases |s|
  {
    match Find(s, sep)
    case None =>
    case Some(k) =>
      var rest := s[k + |sep|..];
      SplitPiecesFree(rest, sep);
      var head := s[..k];
      forall j: nat | OccursAt(head, sep, j)
        ensures false
      {
        assert s[j..j + |sep|] == head[j..j + |sep|];
        assert OccursAt(s, sep, j);
      }
  }

  /** A text has more than one piece exactly when it contains the separator. */
  lemma {:induction false} SplitCount(s: string, sep: string)
    requires sep != []
    ensures |Split(s, sep)| > 1 <==> Contains(s, sep)
  {
    ContainsFind(s, sep);
  }

  /** Replacing a separator by itself gives back the text unchanged. */
  lemma {:induction false} ReplaceIdentity(s: string, sep: string)
    requires sep != []
    ensures Replace(s, sep, sep) == s
  {
    SplitJoin(s, sep);
  }

  /** Python's `re.sub(r"\s+", " ", s)`: every maximal whitespace run becomes one space. */
  function CollapseSpaces(s: string): (r: string)
    ensures forall i :: 0 <= i < |r| && IsSpace(r[i]) ==> r[i] == ' '
    ensures |r| <= |s|
    decreases |s|
  {
    if s == [] then []
    else if IsSpace(s[0]) then
      var n := LeadSpaces(s);
      " " + CollapseSpaces(s[n..])
    else [s[0]] + CollapseSpaces(s[1..])
  }

  /** No two whitespace characters are adjacent. */
  predicate NoDoubleSpace(s: string)
  {
    forall i :: 0 <= i < |s| - 1 ==> !(IsSpace(s[i]) && IsSpace(s[i + 1]))
  }

  /** A whitespace run that stops inside `a` is not lengthened by what follows `a`. */
  lemma {:induction false} LeadSpacesAppend(a: string, b: string)
    requires LeadSpaces(a) < |a|
    ensures LeadSpaces(a + b) == LeadSpaces(a)
    decreases |a|
  {
    if IsSpace(a[0]) {
      assert (a + b)[1..] == a[1..] + b;
      LeadSpacesAppend(a[1..], b);
    }
  }

  /** Collapsing distributes over a junction after a non-space character: no run spans it. */
  lemma {:induction false} CollapseAppend(a: string, b: string)
    requires a != [] && !IsSpace(a[|a| - 1])
    ensures CollapseSpaces(a + b) == CollapseSpaces(a) + CollapseSpaces(b)
    decreases |a|, 1
  {
    var ab := a + b;
    assert ab[0] == a[0];
    if IsSpace(a[0]) {
      CollapseAppendRun(a, b);
    } else if |a| == 1 {
      calc {
        CollapseSpaces(ab);
        { assert ab[1..] == b; }
        [a[0]] + CollapseSpaces(b);
        CollapseSpaces(a) + CollapseSpaces(b);
      }
    } else {
      calc {
        CollapseSpaces(ab);
        [a[0]] + CollapseSpaces(ab[1..]);
        { assert ab[1..] == a[1..] + b; CollapseAppend(a[1..], b); }
        [a[0]] + (CollapseSpaces(a[1..]) + CollapseSpaces(b));
        CollapseSpaces(a) + CollapseSpaces(b);
      }
    }
  }

  /** The case of `CollapseAppend` where `a` opens with a whitespace run. */
  lemma {:induction false} CollapseAppendRun(a: string, b: string)
    requires a != [] && IsSpace(a[0]) && !IsSpace(a[|a| - 1])
    ensures CollapseSpaces(a + b) == CollapseSpaces(a) + CollapseSpaces(b)
    decreases |a|, 0
  {
    var ab := a + b;
    var n := LeadSpaces(a);
    LeadSpacesAppend(a, b);
    assert ab[0] == a[0];
    calc {
      CollapseSpaces(ab);
      " " + CollapseSpaces(ab[n..]);
      { assert ab[n..] == a[n..] + b; CollapseAppend(a[n..], b); }
      " " + (CollapseSpaces(a[n..]) + CollapseSpaces(b));
      CollapseSpaces(a) + CollapseSpaces(b);
    }
  }

  lemma {:induction false} CollapseNoDouble(s: string)
    ensures NoDoubleSpace(CollapseSpaces(s))
    ensures s != [] && !IsSpace(s[0]) ==> CollapseSpaces(s) != [] && CollapseSpaces(s)[0] == s[0]
    ensures s != [] && IsSpace(s[0]) ==> CollapseSpaces(s) != [] && CollapseSpaces(s)[0] == ' '
    decreases |s|
  {
    if s == [] {
    } else if IsSpace(s[0]) {
      var n := LeadSpaces(s);
      var rest := s[n..];
      CollapseNoDouble(rest);
      if rest != [] {
        assert !IsSpace(rest[0]);
      }
    } else {
      CollapseNoDouble(s[1..]);
    }
  }

  /** Text without whitespace is left alone by collapsing. */
  lemma {:induction false} CollapseIdentity(s: string)
    requires forall i :: 0 <= i < |s| ==> !IsSpace(s[i])
    ensures CollapseSpaces(s) == s
    decreases |s|
  {
    if s != [] {
      CollapseIdentity(s[1..]);
    }
  }

  /** Python line boundaries of `str.splitlines`. */
  predicate IsLineBreak(c: char)
  {
    c == '\n' || c == '\r' || c == '\U{0b}' || c == '\U{0c}' || ('\U{1c}' <= c <= '\U{1e}')
    || c == '\U{85}' || c == '\U{2028}' || c == '\U{2029}'
  }

  function FirstLineBreak(s: string): (k: nat)
    ensures k <= |s|
    ensures forall i :: 0 <= i < k ==> !IsLineBreak(s[i])
    ensures k < |s| ==> IsLineBreak(s[k])
  {
    if s == [] || IsLineBreak(s[0]) then 0 else 1 + FirstLineBreak(s[1..])
  }

  /** Python `s.splitlines()`: "\r\n" is one boundary and a final boundary adds no empty line. */
  function SplitLines(s: string): (lines: seq<string>)
    ensures forall k, i :: 0 <= k < |lines| && 0 <= i < |lines[k]| ==> !IsLineBreak(lines[k][i])
    decreases |s|
  {
    if s == [] then []
    else
      var k := FirstLineBreak(s);
      if k == |s| then [s]
      else
        var skip := if s[k] == '\r' && k + 1 < |s| && s[k + 1] == '\n' then 2 else 1;
        [s[..k]] + SplitLines(s[k + skip..])
  }

  function Concat(parts: seq<string>): string
  {
    if parts == [] then [] else parts[0] + Concat(parts[1..])
  }

  /** Each part followed by "\n": the text `"\n".join(parts) + "\n"` for a non-empty list. */
  function Terminated(parts: seq<string>): string
  {
    if parts == [] then [] else parts[0] + "\n" + Terminated(parts[1..])
  }

  predicate NoLineBreak(line: string)
  {
    forall i :: 0 <= i < |line| ==> !IsLineBreak(line[i])
  }

  /** Lines written one per "\n" are read back by `splitlines` unchanged. */
  lemma {:induction false} SplitLinesTerminated(parts: seq<string>)
    requires forall k :: 0 <= k < |parts| ==> NoLineBreak(parts[k])
    ensures SplitLines(Terminated(parts)) == parts
    decreases |parts|
  {
    if parts != [] {
      SplitLinesTerminated(parts[1..]);
      SplitLinesCons(parts[0], Terminated(parts[1..]));
    }
  }

  lemma {:induction false} SplitLinesCons(line: string, rest: string)
    requires NoLineBreak(line)
    ensures SplitLines(line + "\n" + rest) == [line] + SplitLines(rest)
  {
    var s := line + "\n" + rest;
    assert s[|line|] == '\n';
    FirstBreakAt(s, |line|);
    assert s[..|line|] == line;
    assert s[|line| + 1..] == rest;
  }

  lemma {:induction false} FirstBreakAt(s: string, k: nat)
    requires k < |s| && IsLineBreak(s[k])
    requires forall i :: 0 <= i < k ==> !IsLineBreak(s[i])
    ensures FirstLineBreak(s) == k
  {
  }

  lemma {:induction false} JoinTerminated(parts: seq<string>)
    requires parts != []
    ensures Join(parts, "\n") + "\n" == Terminated(parts)
    decreases |parts|
  {
    if |parts| > 1 {
      JoinTerminated(parts[1..]);
    }
  }

  datatype Option<+T> = None | Some(value: T)
}
