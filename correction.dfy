/**
 * `detect_self_correction` in the daemon and in the helper module. The four
 * patterns are modelled as index functions over the stripped text `t` that
 * reproduce what Python's backtracking `re.search` finds:
 *
 *   1. `(?P<prefix>.*?)不是\s*(?P<A>[^而是,，。.?!？]+?)\s*(?:而是|是)\s*(?P<B>.+)$`
 *   2. `(?:我是說|我說)\s*(?P<X>.+)$`
 *   3. `(?:應該是|更正)<sep>*?(?P<X>.+)$`
 *   4. `不對<sep>*?(?P<X>.+)$`
 *
 * where `<sep>` is `[：:\s,，]` in the daemon and, because the helper's raw
 * string doubles the backslash, the characters `：:\s,，` with a literal
 * backslash and `s` in the helper.
 */
module SelfCorrection {
  import opened PyText

  datatype Variant = Daemon | Helper

  /* ---------------- character classes and runs ---------------- */

  /** Characters the `A` group may not contain. */
  predicate IsAStop(c: char)
  {
    c == '而' || c == '是' || c == ',' || c == '，' || c == '。' || c == '.' || c == '?' || c == '!' || c == '？'
  }

  /** The separator class of the lazy `<sep>*?` in rules 3 and 4. */
  predicate IsSep(v: Variant, c: char)
  {
    c == '：' || c == ':' || c == ',' || c == '，'
    || (if v.Daemon? then IsSpace(c) else c == '\\' || c == 's')
  }

  /** End of the maximal whitespace run starting at `p`. */
  function SpacesEnd(t: string, p: nat): nat
    decreases |t| - p
  {
    if p < |t| && IsSpace(t[p]) then SpacesEnd(t, p + 1) else p
  }

  /** End of the maximal run of `A`-class characters starting at `p`. */
  function ARunEnd(t: string, p: nat): nat
    decreases |t| - p
  {
    if p < |t| && !IsAStop(t[p]) then ARunEnd(t, p + 1) else p
  }

  lemma {:induction false} SpacesEndSpec(t: string, p: nat)
    requires p <= |t|
    ensures var e := SpacesEnd(t, p);
      p <= e <= |t| && (forall k :: p <= k < e ==> IsSpace(t[k])) && (e < |t| ==> !IsSpace(t[e]))
    decreases |t| - p
  {
    if p < |t| && IsSpace(t[p]) {
      SpacesEndSpec(t, p + 1);
    }
  }

  lemma {:induction false} ARunEndSpec(t: string, p: nat)
    requires p <= |t|
    ensures var e := ARunEnd(t, p);
      p <= e <= |t| && (forall k :: p <= k < e ==> !IsAStop(t[k])) && (e < |t| ==> IsAStop(t[e]))
    decreases |t| - p
  {
    if p < |t| && !IsAStop(t[p]) {
      ARunEndSpec(t, p + 1);
    }
  }

  /** No line break from `p` to the end. */
  predicate NoNewlineFrom(t: string, p: nat)
    decreases |t| - p
  {
    p >= |t| || (t[p] != '\n' && NoNewlineFrom(t, p + 1))
  }

  lemma {:induction false} NoNewlineFromSpec(t: string, p: nat)
    ensures NoNewlineFrom(t, p) <==> forall k :: p <= k < |t| ==> t[k] != '\n'
    decreases |t| - p
  {
    if p < |t| {
      NoNewlineFromSpec(t, p + 1);
    }
  }

  /** `(?P<X>.+)$` can start at `p`: a non-empty rest of the text without a line break. */
  predicate TailFrom(t: string, p: nat)
  {
    p < |t| && NoNewlineFrom(t, p)
  }

  /**
   * `\s*(?P<X>.+)$` after position `e`, whose whitespace run ends at `x`: the
   * greedy `\s*` gives back one character at a time, so the tail starts at
   * the largest position in `e..x` from which `.+$` matches.
   */
  function GreedyTail(t: string, e: nat, x: nat): Option<nat>
    decreases x
  {
    if TailFrom(t, x) then Some(x)
    else if x > e then GreedyTail(t, e, x - 1)
    else None
  }

  lemma {:induction false} GreedyTailSpec(t: string, e: nat, x: nat)
    requires e <= x
    ensures var r := GreedyTail(t, e, x);
      (r.Some? ==> e <= r.value <= x && TailFrom(t, r.value) && forall y :: r.value < y <= x ==> !TailFrom(t, y))
      && (r.None? ==> forall y :: e <= y <= x ==> !TailFrom(t, y))
    decreases x
  {
    if !TailFrom(t, x) && x > e {
      GreedyTailSpec(t, e, x - 1);
    }
  }

  /**
   * `<sep>*?(?P<X>.+)$` after position `j`: the lazy separator run grows one
   * character at a time until `.+$` matches.
   */
  function LazyTail(v: Variant, t: string, j: nat): Option<nat>
    decreases |t| - j
  {
    if TailFrom(t, j) then Some(j)
    else if j < |t| && IsSep(v, t[j]) then LazyTail(v, t, j + 1)
    else None
  }

  lemma {:induction false} LazyTailSpec(v: Variant, t: string, j: nat)
    ensures var r := LazyTail(v, t, j);
      (r.Some? ==> j <= r.value && TailFrom(t, r.value)
                   && (forall k :: j <= k < r.value ==> k < |t| && IsSep(v, t[k]) && !TailFrom(t, k)))
    decreases |t| - j
  {
    if !TailFrom(t, j) && j < |t| && IsSep(v, t[j]) {
      LazyTailSpec(v, t, j + 1);
    }
  }

  /** A tail never needs a separator when the rest of the text is one line. */
  lemma {:induction false} LazyTailImmediate(v: Variant, t: string, j: nat)
    requires j < |t| && forall k :: j <= k < |t| ==> t[k] != '\n'
    ensures LazyTail(v, t, j) == Some(j)
  {
    NoNewlineFromSpec(t, j);
  }

  /* ---------------- rule 1: 不是 A (而是|是) B ---------------- */

  predicate At(t: string, q: nat, w: string)
  {
    q + |w| <= |t| && t[q..q + |w|] == w
  }

  /** 不是 at `q`, read character by character. */
  predicate NotAt(t: string, q: nat)
  {
    q + 2 <= |t| && t[q] == '不' && t[q + 1] == '是'
  }

  lemma {:induction false} NotAtIsAt(t: string, q: nat)
    ensures NotAt(t, q) <==> At(t, q, "不是")
  {
    if q + 2 <= |t| {
      assert t[q..q + 2][0] == t[q] && t[q..q + 2][1] == t[q + 1];
    }
  }

  /**
   * Position of the `(?:而是|是)` marker when 不是 sits at `q`: right after the
   * `A`-class run that follows the whitespace, or right after the whitespace
   * itself when no `A`-class character follows it (then `A` is whitespace).
   */
  function NotMarker(t: string, q: nat): Option<nat>
  {
    var p0 := q + 2;
    var p1 := SpacesEnd(t, p0);
    var r := ARunEnd(t, p1);
    if r > p1 then Some(r)
    else if p1 > p0 then Some(p1)
    else None
  }

  /** End of the marker `而是` or `是` at `m`. */
  function MarkerEnd(t: string, m: nat): Option<nat>
  {
    if m + 2 <= |t| && t[m] == '而' && t[m + 1] == '是' then Some(m + 2)
    else if m < |t| && t[m] == '是' then Some(m + 1)
    else None
  }

  /** Start of `B` when the rule-1 pattern matches with 不是 at `q`. */
  function NotTail(t: string, q: nat): Option<nat>
  {
    if !NotAt(t, q) then None
    else match NotMarker(t, q)
      case None => None
      case Some(m) =>
        match MarkerEnd(t, m)
        case None => None
        case Some(e) => GreedyTail(t, e, SpacesEnd(t, e))
  }

  /** The first 不是 position, from `q` on, where rule 1 matches, and the start of `B`. */
  function FirstNot(t: string, q: nat): Option<(nat, nat)>
    decreases |t| - q
  {
    if q >= |t| then None
    else match NotTail(t, q)
      case Some(b) => Some((q, b))
      case None => FirstNot(t, q + 1)
  }

  lemma {:induction false} FirstNotSpec(t: string, q: nat)
    ensures var r := FirstNot(t, q);
      (r.Some? ==> q <= r.value.0 < |t| && NotTail(t, r.value.0) == Some(r.value.1)
                   && forall y :: q <= y < r.value.0 ==> NotTail(t, y).None?)
      && (r.None? ==> forall y :: q <= y < |t| ==> NotTail(t, y).None?)
    decreases |t| - q
  {
    if q < |t| {
      var here := NotTail(t, q);
      if here.None? {
        assert FirstNot(t, q) == FirstNot(t, q + 1);
        FirstNotSpec(t, q + 1);
      } else {
        assert FirstNot(t, q) == Some((q, here.value));
      }
    }
  }

  /** Start of the line holding position `q`: `.*?` cannot cross a line break. */
  function LineStart(t: string, q: nat): (s: nat)
    requires q <= |t|
    ensures s <= q && (forall k :: s <= k < q ==> t[k] != '\n') && (s > 0 ==> t[s - 1] == '\n')
  {
    if q == 0 || t[q - 1] == '\n' then q else LineStart(t, q - 1)
  }

  /** Rule 1: the stripped prefix followed by the stripped `B`. */
  function NotRule(t: string): Option<string>
  {
    match FirstNot(t, 0)
    case None => None
    case Some(qb) =>
      if qb.0 <= qb.1 <= |t| then
        var prefix := Strip(t[LineStart(t, qb.0)..qb.0]);
        var rest := Strip(t[qb.1..]);
        Some(if prefix != [] then Strip(prefix + rest) else rest)
      else None
  }

  /* ---------------- rules 2 to 4: marker, then the corrected text ---------------- */

  /** End of one of `markers` found at `st`, trying them in order. */
  function MarkerAt(t: string, st: nat, markers: seq<string>): Option<nat>
    decreases |markers|
  {
    if markers == [] then None
    else if At(t, st, markers[0]) then Some(st + |markers[0]|)
    else MarkerAt(t, st, markers[1..])
  }

  /** Start of `X` for a marker rule at `st`: greedy whitespace (rule 2) or a lazy separator run (rules 3 and 4). */
  function MarkerTail(v: Variant, t: string, st: nat, markers: seq<string>, lazy: bool): Option<nat>
  {
    match MarkerAt(t, st, markers)
    case None => None
    case Some(e) => if lazy then LazyTail(v, t, e) else GreedyTail(t, e, SpacesEnd(t, e))
  }

  /** The leftmost start position, from `st` on, where a marker rule matches, and where `X` starts. */
  function FirstMarker(v: Variant, t: string, st: nat, markers: seq<string>, lazy: bool): Option<(nat, nat)>
    decreases |t| - st
  {
    if st >= |t| then None
    else match MarkerTail(v, t, st, markers, lazy)
      case Some(x) => Some((st, x))
      case None => FirstMarker(v, t, st + 1, markers, lazy)
  }

  lemma {:induction false} FirstMarkerSpec(v: Variant, t: string, st: nat, markers: seq<string>, lazy: bool)
    ensures var r := FirstMarker(v, t, st, markers, lazy);
      (r.Some? ==> st <= r.value.0 < |t| && MarkerTail(v, t, r.value.0, markers, lazy) == Some(r.value.1)
                   && forall y :: st <= y < r.value.0 ==> MarkerTail(v, t, y, markers, lazy).None?)
      && (r.None? ==> forall y :: st <= y < |t| ==> MarkerTail(v, t, y, markers, lazy).None?)
    decreases |t| - st
  {
    if st < |t| {
      var here := MarkerTail(v, t, st, markers, lazy);
      if here.None? {
        assert FirstMarker(v, t, st, markers, lazy) == FirstMarker(v, t, st + 1, markers, lazy);
        FirstMarkerSpec(v, t, st + 1, markers, lazy);
      } else {
        assert FirstMarker(v, t, st, markers, lazy) == Some((st, here.value));
      }
    }
  }

  const I_MEANT: seq<string> := ["我是說", "我說"]
  const SHOULD_BE: seq<string> := ["應該是", "更正"]
  const WRONG: seq<string> := ["不對"]

  /** Rules 2 to 4: the stripped `X`. */
  function MarkerRule(v: Variant, t: string, markers: seq<string>, lazy: bool): Option<string>
  {
    match FirstMarker(v, t, 0, markers, lazy)
    case None => None
    case Some(sx) => if sx.1 <= |t| then Some(Strip(t[sx.1..])) else None
  }

  /** `detect_self_correction(text)`: the first rule that matches decides; otherwise the stripped text. */
  function Detect(v: Variant, text: string): string
  {
    var t := Strip(text);
    match NotRule(t)
    case Some(r) => r
    case None =>
      match MarkerRule(v, t, I_MEANT, false)
      case Some(x) => x
      case None =>
        match MarkerRule(v, t, SHOULD_BE, true)
        case Some(x) => x
        case None =>
          match MarkerRule(v, t, WRONG, true)
          case Some(x) => x
          case None => t
  }

  /* ---------------- properties ---------------- */

  /** Rule 1 never fires without a 不是 in the text. */
  lemma {:induction false} NotRuleNeedsMarker(t: string)
    requires forall q :: 0 <= q < |t| ==> !At(t, q, "不是")
    ensures NotRule(t).None?
  {
    forall q | 0 <= q < |t| ensures !NotAt(t, q) { NotAtIsAt(t, q); }
    FirstNotSpec(t, 0);
  }

  /** A marker rule never fires without one of its markers in the text. */
  lemma {:induction false} MarkerRuleNeedsMarker(v: Variant, t: string, markers: seq<string>, lazy: bool)
    requires forall q, k :: 0 <= q < |t| && 0 <= k < |markers| ==> !At(t, q, markers[k])
    ensures MarkerRule(v, t, markers, lazy).None?
  {
    FirstMarkerSpec(v, t, 0, markers, lazy);
    forall y | 0 <= y < |t|
      ensures MarkerTail(v, t, y, markers, lazy).None?
    {
      MarkerAtNone(t, y, markers);
    }
  }

  lemma {:induction false} MarkerAtNone(t: string, st: nat, markers: seq<string>)
    requires forall k :: 0 <= k < |markers| ==> !At(t, st, markers[k])
    ensures MarkerAt(t, st, markers).None?
    decreases |markers|
  {
    if markers != [] {
      MarkerAtNone(t, st, markers[1..]);
    }
  }

  predicate Free(t: string, markers: seq<string>)
  {
    forall q, k :: 0 <= q < |t| && 0 <= k < |markers| ==> !At(t, q, markers[k])
  }

  /** Without any correction marker the result is the stripped input. */
  lemma {:induction false} NoMarkerKeepsText(v: Variant, text: string)
    requires Free(Strip(text), ["不是"] + I_MEANT + SHOULD_BE + WRONG)
    ensures Detect(v, text) == Strip(text)
  {
    var t := Strip(text);
    var all := ["不是"] + I_MEANT + SHOULD_BE + WRONG;
    assert forall q :: 0 <= q < |t| ==> !At(t, q, "不是") by {
      forall q | 0 <= q < |t| ensures !At(t, q, "不是") { assert all[0] == "不是"; }
    }
    NotRuleNeedsMarker(t);
    forall q, k | 0 <= q < |t| && 0 <= k < |I_MEANT| ensures !At(t, q, I_MEANT[k]) { assert all[1 + k] == I_MEANT[k]; }
    forall q, k | 0 <= q < |t| && 0 <= k < |SHOULD_BE| ensures !At(t, q, SHOULD_BE[k]) { assert all[3 + k] == SHOULD_BE[k]; }
    forall q, k | 0 <= q < |t| && 0 <= k < |WRONG| ensures !At(t, q, WRONG[k]) { assert all[5 + k] == WRONG[k]; }
    MarkerRuleNeedsMarker(v, t, I_MEANT, false);
    MarkerRuleNeedsMarker(v, t, SHOULD_BE, true);
    MarkerRuleNeedsMarker(v, t, WRONG, true);
  }

  /** A text without surrounding whitespace, as `strip()` leaves it. */
  predicate Trimmed(s: string)
  {
    s == [] || (!IsSpace(s[0]) && !IsSpace(s[|s| - 1]))
  }

  /** On trimmed text the greedy tail starts after the whole whitespace run and needs no stripping. */
  lemma {:induction false} GreedyTailTrimmed(t: string, e: nat, b: nat)
    requires Trimmed(t) && e <= |t| && GreedyTail(t, e, SpacesEnd(t, e)) == Some(b)
    ensures e <= b == SpacesEnd(t, e) && b < |t| && !IsSpace(t[b])
    ensures forall k :: b <= k < |t| ==> t[k] != '\n'
    ensures Strip(t[b..]) == t[b..]
  {
    var x := SpacesEnd(t, e);
    SpacesEndSpec(t, e);
    GreedyTailSpec(t, e, x);
    NoNewlineFromSpec(t, b);
    NoNewlineFromSpec(t, x);
    if b < x {
      assert false;
    }
    StripIdentity(t[b..]);
  }

  /** Where rule 1 matches at `q` in trimmed text, `B` runs from a non-space character to the end. */
  lemma {:induction false} NotTailForm(t: string, q: nat, b: nat)
    requires Trimmed(t) && NotTail(t, q) == Some(b)
    ensures q + 3 <= b < |t| && At(t, q, "不是")
    ensures forall k :: b <= k < |t| ==> t[k] != '\n'
    ensures Strip(t[b..]) == t[b..]
  {
    NotAtIsAt(t, q);
    var m := NotMarker(t, q).value;
    var e := MarkerEnd(t, m).value;
    SpacesEndSpec(t, q + 2);
    ARunEndSpec(t, SpacesEnd(t, q + 2));
    GreedyTailTrimmed(t, e, b);
  }

  lemma {:induction false} NotRuleUnfold(t: string, q: nat, b: nat)
    requires FirstNot(t, 0) == Some((q, b)) && q <= b <= |t|
    ensures NotRule(t) == Some(var prefix := Strip(t[LineStart(t, q)..q]);
        if prefix != [] then Strip(prefix + Strip(t[b..])) else Strip(t[b..]))
  {
  }

  /** `(strip(prefix) + strip(B)).strip()`, with `B` already stripped and non-empty, is plain concatenation. */
  lemma {:induction false} JoinStripped(x: string, rest: string)
    requires rest != [] && Strip(rest) == rest
    ensures (var prefix := Strip(x); if prefix != [] then Strip(prefix + Strip(rest)) else Strip(rest)) == Strip(x) + rest
  {
    var prefix := Strip(x);
    if prefix != [] {
      StripConcat(prefix, rest);
    }
  }

  /** Rule 1 on trimmed text: the stripped line prefix before 不是, then everything from the start of `B`. */
  lemma {:induction false} NotRuleForm(t: string, q: nat, b: nat)
    requires Trimmed(t) && FirstNot(t, 0) == Some((q, b))
    ensures q + 3 <= b < |t| && At(t, q, "不是")
    ensures forall k :: b <= k < |t| ==> t[k] != '\n'
    ensures NotRule(t) == Some(Strip(t[LineStart(t, q)..q]) + t[b..])
  {
    assert NotTail(t, q) == Some(b) by { FirstNotSpec(t, 0); }
    NotTailForm(t, q, b);
    NotRuleUnfold(t, q, b);
    JoinStripped(t[LineStart(t, q)..q], t[b..]);
  }

  /** End of a marker found at `st` lies after one of the markers, read at `st`. */
  lemma {:induction false} MarkerAtSpec(t: string, st: nat, markers: seq<string>)
    ensures MarkerAt(t, st, markers).Some? ==>
      exists k :: 0 <= k < |markers| && At(t, st, markers[k]) && MarkerAt(t, st, markers).value == st + |markers[k]|
    decreases |markers|
  {
    if markers != [] && !At(t, st, markers[0]) {
      MarkerAtSpec(t, st, markers[1..]);
      if MarkerAt(t, st, markers[1..]).Some? {
        var k :| 0 <= k < |markers[1..]| && At(t, st, markers[1..][k])
          && MarkerAt(t, st, markers[1..]).value == st + |markers[1..][k]|;
        assert markers[1 + k] == markers[1..][k];
      }
    }
  }

  /** `X` starts strictly after the (non-empty) marker and inside the text. */
  lemma {:induction false} MarkerTailAfter(v: Variant, t: string, st: nat, markers: seq<string>, lazy: bool, x: nat)
    requires forall k :: 0 <= k < |markers| ==> markers[k] != []
    requires MarkerTail(v, t, st, markers, lazy) == Some(x)
    ensures st < x < |t|
  {
    MarkerAtSpec(t, st, markers);
    var e := MarkerAt(t, st, markers).value;
    if lazy {
      LazyTailSpec(v, t, e);
    } else {
      SpacesEndSpec(t, e);
      GreedyTailSpec(t, e, SpacesEnd(t, e));
    }
  }

  lemma {:induction false} MarkerRuleShorter(v: Variant, t: string, markers: seq<string>, lazy: bool)
    requires forall k :: 0 <= k < |markers| ==> markers[k] != []
    ensures MarkerRule(v, t, markers, lazy).Some? ==> |MarkerRule(v, t, markers, lazy).value| < |t|
  {
    FirstMarkerSpec(v, t, 0, markers, lazy);
    match FirstMarker(v, t, 0, markers, lazy)
    case None =>
    case Some(sx) =>
      MarkerTailAfter(v, t, sx.0, markers, lazy, sx.1);
  }

  /** A correction always drops something: the result is the stripped input or strictly shorter. */
  lemma {:induction false} DetectShortens(v: Variant, text: string)
    ensures Detect(v, text) == Strip(text) || |Detect(v, text)| < |Strip(text)|
  {
    var t := Strip(text);
    match FirstNot(t, 0)
    case Some(qb) =>
      NotRuleForm(t, qb.0, qb.1);
    case None =>
      MarkerRuleShorter(v, t, I_MEANT, false);
      MarkerRuleShorter(v, t, SHOULD_BE, true);
      MarkerRuleShorter(v, t, WRONG, true);
  }

  predicate SingleLine(t: string)
  {
    forall k :: 0 <= k < |t| ==> t[k] != '\n'
  }

  lemma {:induction false} LazyTailOneLine(t: string, j: nat)
    requires SingleLine(t)
    ensures LazyTail(Daemon, t, j) == LazyTail(Helper, t, j) == if j < |t| then Some(j) else None
  {
    NoNewlineFromSpec(t, j);
  }

  lemma {:induction false} FirstMarkerOneLine(t: string, st: nat, markers: seq<string>, lazy: bool)
    requires SingleLine(t)
    ensures FirstMarker(Daemon, t, st, markers, lazy) == FirstMarker(Helper, t, st, markers, lazy)
    decreases |t| - st
  {
    if st < |t| {
      if MarkerAt(t, st, markers).Some? {
        LazyTailOneLine(t, MarkerAt(t, st, markers).value);
      }
      FirstMarkerOneLine(t, st + 1, markers, lazy);
    }
  }

  /**
   * On a single line the helper's literal `\\s` in the separator class makes no
   * difference: the lazy separator never has to grow, so both variants agree.
   */
  lemma {:induction false} VariantsAgreeOnOneLine(text: string)
    requires SingleLine(Strip(text))
    ensures Detect(Daemon, text) == Detect(Helper, text)
  {
    var t := Strip(text);
    FirstMarkerOneLine(t, 0, I_MEANT, false);
    FirstMarkerOneLine(t, 0, SHOULD_BE, true);
    FirstMarkerOneLine(t, 0, WRONG, true);
  }
}
