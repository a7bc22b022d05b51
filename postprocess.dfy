/**
 * The post-processing helpers of the daemon: the tone instruction injected
 * into a command's argument string, and the logic of
 * `run_postprocess_command` around the external program. The program run
 * itself is an oracle from the invocation to its outcome, and `shlex.split`
 * is a function handed in by the caller.
 */
module Postprocess {
  import opened PyText

  /* ---------------- tone prompts ---------------- */

  /** `TONE_PROMPTS.get(tone, "")` as an option. */
  function TonePrompt(tone: string): (instr: Option<string>)
    ensures instr.Some? <==> tone in ["casual", "formal", "professional", "creative"]
    ensures instr.Some? ==> instr.value != [] && '{' !in instr.value && instr.value[0] !in PLACEHOLDER
  {
    if tone == "casual" then Some("請以輕鬆自然的語氣回應：")
    else if tone == "formal" then Some("請以正式且禮貌的語氣回應：")
    else if tone == "professional" then Some("請以專業且精準的語氣回應：")
    else if tone == "creative" then Some("請以創意且生動的語氣回應：")
    else None
  }

  const PLACEHOLDER := "{text}"

  /**
   * `build_tone_aware_prompt(base_prompt, tone)`: the tone instruction goes
   * in front of every `{text}`, or in front of the whole prompt when it has
   * none; an unknown tone leaves the prompt alone.
   */
  function BuildToneAwarePrompt(base: string, tone: string): (r: string)
    ensures TonePrompt(tone).None? ==> r == base
    ensures TonePrompt(tone).Some? && !Contains(base, PLACEHOLDER) ==> r == TonePrompt(tone).value + base
    ensures TonePrompt(tone).Some? && Contains(base, PLACEHOLDER) ==> Contains(r, TonePrompt(tone).value + PLACEHOLDER)
    ensures TonePrompt(tone).Some? && Contains(base, PLACEHOLDER) ==>
      Split(r, TonePrompt(tone).value + PLACEHOLDER) == Split(base, PLACEHOLDER)
    ensures TonePrompt(tone).Some? && Contains(base, PLACEHOLDER) ==>
      Replace(r, TonePrompt(tone).value + PLACEHOLDER, PLACEHOLDER) == base
  {
    match TonePrompt(tone)
    case None => base
    case Some(instr) =>
      if Contains(base, PLACEHOLDER) then
        var r := Replace(base, PLACEHOLDER, instr + PLACEHOLDER);
        JoinedContainsSeparator(Split(base, PLACEHOLDER), instr + PLACEHOLDER, base);
        SplitPiecesFree(base, PLACEHOLDER);
        SplitInserted(Split(base, PLACEHOLDER), instr);
        SplitJoin(base, PLACEHOLDER);
        r
      else instr + base
  }

  /**
   * Where the separator is an instruction followed by `{text}`, the first
   * occurrence in `p + sep + rest` is the one after `p`, provided `p` holds
   * no `{text}` and the instruction holds no `{` and does not begin with a
   * character of `{text}`.
   */
  lemma {:induction false} NoEarlierInsertion(p: string, instr: string, rest: string)
    requires instr != [] && '{' !in instr && instr[0] !in PLACEHOLDER && !Contains(p, PLACEHOLDER)
    ensures Find(p + (instr + PLACEHOLDER) + rest, instr + PLACEHOLDER) == Some(|p|)
  {
    var sep := instr + PLACEHOLDER;
    var s := p + sep + rest;
    assert s[|p|..|p| + |sep|] == sep;
    forall j: nat | j < |p|
      ensures !OccursAt(s, sep, j)
    {
      NotInsertedBefore(p, instr, rest, j);
    }
    var f := Find(s, sep);
    assert OccursAt(s, sep, |p|);
  }

  /** No occurrence of the separator starts inside `p`. */
  lemma {:induction false} NotInsertedBefore(p: string, instr: string, rest: string, j: nat)
    requires instr != [] && '{' !in instr && instr[0] !in PLACEHOLDER && !Contains(p, PLACEHOLDER)
    requires j < |p|
    ensures !OccursAt(p + (instr + PLACEHOLDER) + rest, instr + PLACEHOLDER, j)
  {
    var sep := instr + PLACEHOLDER;
    var s := p + sep + rest;
    var m := j + |instr|;
    if j + |sep| <= |s| {
      // an index `d` where the text and the separator disagree
      var d: nat;
      if m >= |p| {
        // the `{` of the separator would fall inside the instruction
        d := |instr|;
        assert s[m] == instr[m - |p|];
      } else if m + |PLACEHOLDER| <= |p| {
        // the `{text}` of the separator would fall inside `p`
        assert !OccursAt(p, PLACEHOLDER, m);
        assert p[m..m + |PLACEHOLDER|] != PLACEHOLDER;
        var t :| 0 <= t < |PLACEHOLDER| && p[m..m + |PLACEHOLDER|][t] != PLACEHOLDER[t];
        d := |instr| + t;
        assert s[j + d] == p[m + t];
      } else {
        // the instruction's first character would fall inside `{text}`
        d := |p| - j;
        assert s[j + d] == instr[0];
        assert sep[d] == PLACEHOLDER[|p| - m];
      }
      assert s[j..j + |sep|][d] != sep[d];
    }
  }

  /** A text that holds the whole separator holds its `{text}`. */
  lemma {:induction false} InsertionHoldsPlaceholder(s: string, instr: string)
    requires Contains(s, instr + PLACEHOLDER)
    ensures Contains(s, PLACEHOLDER)
  {
    assert (instr + PLACEHOLDER)[|instr|..|instr| + |PLACEHOLDER|] == PLACEHOLDER;
    assert OccursAt(instr + PLACEHOLDER, PLACEHOLDER, |instr|);
    ContainsInside(s, instr + PLACEHOLDER, PLACEHOLDER);
  }

  /**
   * Splitting at the inserted instruction and `{text}` gives back the pieces
   * that were joined: the insertion can be undone.
   */
  lemma {:induction false} SplitInserted(parts: seq<string>, instr: string)
    requires instr != [] && '{' !in instr && instr[0] !in PLACEHOLDER
    requires |parts| >= 1 && forall k :: 0 <= k < |parts| ==> !Contains(parts[k], PLACEHOLDER)
    ensures Split(Join(parts, instr + PLACEHOLDER), instr + PLACEHOLDER) == parts
    decreases |parts|
  {
    var sep := instr + PLACEHOLDER;
    if |parts| == 1 {
      if Contains(parts[0], sep) {
        InsertionHoldsPlaceholder(parts[0], instr);
      }
      ContainsFind(parts[0], sep);
    } else {
      var tail := Join(parts[1..], sep);
      assert Join(parts, sep) == parts[0] + sep + tail;
      SplitAfterInsertion(parts[0], instr, tail);
      SplitInserted(parts[1..], instr);
      assert parts == [parts[0]] + parts[1..];
    }
  }

  /** Splitting `p + sep + rest` cuts off `p` first. */
  lemma {:induction false} SplitAfterInsertion(p: string, instr: string, rest: string)
    requires instr != [] && '{' !in instr && instr[0] !in PLACEHOLDER && !Contains(p, PLACEHOLDER)
    ensures Split(p + (instr + PLACEHOLDER) + rest, instr + PLACEHOLDER) == [p] + Split(rest, instr + PLACEHOLDER)
  {
    var sep := instr + PLACEHOLDER;
    var s := p + sep + rest;
    NoEarlierInsertion(p, instr, rest);
    assert s[..|p|] == p;
    assert s[|p| + |sep|..] == rest;
  }

  /** Joining at least two pieces puts the separator into the result. */
  lemma {:induction false} JoinedContainsSeparator(parts: seq<string>, sep: string, base: string)
    requires sep != [] && PLACEHOLDER != [] && parts == Split(base, PLACEHOLDER) && Contains(base, PLACEHOLDER)
    ensures Contains(Join(parts, sep), sep)
  {
    SplitCount(base, PLACEHOLDER);
    var j := Join(parts, sep);
    assert j == parts[0] + sep + Join(parts[1..], sep);
    assert j[|parts[0]|..|parts[0]| + |sep|] == sep;
    assert OccursAt(j, sep, |parts[0]|);
  }

  /** An occurrence of a word inside a longer word that holds it. */
  lemma {:induction false} ContainsInside(s: string, w: string, p: string)
    requires Contains(s, w) && Contains(w, p)
    ensures Contains(s, p)
  {
    var i: nat :| i <= |s| && OccursAt(s, w, i);
    var k: nat :| k <= |w| && OccursAt(w, p, k);
    forall j | 0 <= j < |p|
      ensures s[i + k + j] == p[j]
    {
      assert s[i..i + |w|][k + j] == w[k + j];
      assert w[k..k + |p|][j] == p[j];
    }
    assert s[i + k..i + k + |p|] == p;
    assert OccursAt(s, p, i + k);
  }

  lemma {:induction false} PlaceholderStartsWithBrace(s: string, i: nat)
    ensures OccursAt(s, PLACEHOLDER, i) ==> s[i] == '{'
  {
    if OccursAt(s, PLACEHOLDER, i) {
      assert s[i..i + |PLACEHOLDER|][0] == s[i];
    }
  }

  /** Prepending text without a `{` neither creates nor hides a placeholder. */
  lemma {:induction false} PrependKeepsPlaceholder(instr: string, base: string)
    requires '{' !in instr
    ensures Contains(instr + base, PLACEHOLDER) <==> Contains(base, PLACEHOLDER)
  {
    var s := instr + base;
    if Contains(s, PLACEHOLDER) {
      var i: nat :| i <= |s| && OccursAt(s, PLACEHOLDER, i);
      PlaceholderStartsWithBrace(s, i);
      if i >= |instr| {
        assert base[i - |instr|..i - |instr| + |PLACEHOLDER|] == s[i..i + |PLACEHOLDER|];
        assert OccursAt(base, PLACEHOLDER, i - |instr|);
      }
    }
    if Contains(base, PLACEHOLDER) {
      var i: nat :| i <= |base| && OccursAt(base, PLACEHOLDER, i);
      assert s[|instr| + i..|instr| + i + |PLACEHOLDER|] == base[i..i + |PLACEHOLDER|];
      assert OccursAt(s, PLACEHOLDER, |instr| + i);
    }
  }

  /** The tone instruction never adds or removes the `{text}` placeholder. */
  lemma {:induction false} ToneKeepsPlaceholder(base: string, tone: string)
    ensures Contains(BuildToneAwarePrompt(base, tone), PLACEHOLDER) <==> Contains(base, PLACEHOLDER)
  {
    match TonePrompt(tone)
    case None =>
    case Some(instr) =>
      if Contains(base, PLACEHOLDER) {
        assert OccursAt(instr + PLACEHOLDER, PLACEHOLDER, |instr|);
        ContainsInside(BuildToneAwarePrompt(base, tone), instr + PLACEHOLDER, PLACEHOLDER);
      } else {
        PrependKeepsPlaceholder(instr, base);
      }
  }

  /* ---------------- the helper module's tone examples ---------------- */

  const CASUAL_EXAMPLE := "請用口語、自然且親切的語氣回寫。範例：『嗯 我今天去超市 買蘋果』->『我今天去超市買了蘋果。』"
  const FORMAL_EXAMPLE := "請用正式且禮貌的書面語回寫。範例：『我今天去超市』->『我今天前往超市購物。』"
  const PROFESSIONAL_EXAMPLE := "請用專業且簡潔的語氣回寫，適合工作/報告。範例：『完成了任務』->『該任務已完成。』"
  const CREATIVE_EXAMPLE := "請用較有創意或活潑的語氣回寫，可適度延展表達。範例：『今天天氣好』->『陽光燦爛，今天正是出門散步的好日子！』"

  /** The helper's `tone_prompt(tone)`: unknown tones fall back to the casual example. */
  function HelperTonePrompt(tone: string): (p: string)
    ensures tone !in ["formal", "professional", "creative"] ==> p == CASUAL_EXAMPLE
  {
    if tone == "formal" then FORMAL_EXAMPLE
    else if tone == "professional" then PROFESSIONAL_EXAMPLE
    else if tone == "creative" then CREATIVE_EXAMPLE
    else CASUAL_EXAMPLE
  }

  lemma {:induction false} TwoCharsAt(s: string, p: string, i: nat)
    requires |p| == 2 && i + 2 <= |s| && s[i] == p[0] && s[i + 1] == p[1]
    ensures Contains(s, p)
  {
    assert s[i..i + 2] == p;
    assert OccursAt(s, p, i);
  }

  lemma {:induction false} CasualHasExample()
    ensures Contains(CASUAL_EXAMPLE, "範例")
  {
    TwoCharsAt(CASUAL_EXAMPLE, "範例", 16);
  }

  lemma {:induction false} FormalHasExample()
    ensures Contains(FORMAL_EXAMPLE, "範例") && Contains(FORMAL_EXAMPLE, "正式")
  {
    TwoCharsAt(FORMAL_EXAMPLE, "範例", 14);
    TwoCharsAt(FORMAL_EXAMPLE, "正式", 2);
  }

  lemma {:induction false} ProfessionalHasExample()
    ensures Contains(PROFESSIONAL_EXAMPLE, "範例")
  {
    TwoCharsAt(PROFESSIONAL_EXAMPLE, "範例", 21);
  }

  lemma {:induction false} CreativeHasExample()
    ensures Contains(CREATIVE_EXAMPLE, "範例")
  {
    TwoCharsAt(CREATIVE_EXAMPLE, "範例", 23);
  }

  /** Every tone prompt carries an example (範例), and the formal one asks for formal (正式) writing. */
  lemma {:induction false} HelperTonePromptsHaveExamples(tone: string)
    ensures Contains(HelperTonePrompt(tone), "範例")
    ensures tone == "formal" ==> Contains(HelperTonePrompt(tone), "正式")
  {
    CasualHasExample();
    FormalHasExample();
    ProfessionalHasExample();
    CreativeHasExample();
  }

  /* ---------------- run_postprocess_command ---------------- */

  /** What happened when the program was run. */
  datatype Outcome =
    | NotFound                                               // FileNotFoundError
    | Raised(message: string)                                // any other exception, as `str(e)`
    | Exited(code: int, stdout: string, stderr: string)      // the process ran to completion

  /** The argument vector and the standard input handed to the program. */
  datatype Invocation = Invocation(argv: seq<string>, stdin: string)

  /** `(output_text, error_message)`. */
  datatype Reply = Reply(text: string, error: string)

  /** The context-aware text: the context, a line break, then the text, or just the text. */
  function Payload(text: string, context: string): (p: string)
    ensures context == [] ==> p == text
    ensures context != [] ==> |p| == |context| + 1 + |text| && p[|context|] == '\n'
    ensures EndsWith(p, text)
  {
    if context != [] then context + "\n" + text else text
  }

  predicate UsesPlaceholder(parts: seq<string>)
  {
    exists i | 0 <= i < |parts| :: Contains(parts[i], PLACEHOLDER)
  }

  /** Every argument holding `{text}` has each occurrence replaced by the payload. */
  function SubstituteArgs(parts: seq<string>, payload: string): (args: seq<string>)
    ensures |args| == |parts|
    ensures forall i :: 0 <= i < |parts| && !Contains(parts[i], PLACEHOLDER) ==> args[i] == parts[i]
    ensures forall i :: 0 <= i < |parts| && Contains(parts[i], PLACEHOLDER) ==> args[i] == Replace(parts[i], PLACEHOLDER, payload)
  {
    if parts == [] then []
    else
      [if Contains(parts[0], PLACEHOLDER) then Replace(parts[0], PLACEHOLDER, payload) else parts[0]]
      + SubstituteArgs(parts[1..], payload)
  }

  /** The command line and the standard input of `subprocess.run`. */
  function BuildInvocation(text: string, program: string, args: string, split: string -> seq<string>, context: string): (inv: Invocation)
    ensures |inv.argv| >= 1 && inv.argv[0] == program
  {
    var parts := if args != [] then split(args) else [];
    var payload := Payload(text, context);
    Invocation([program] + SubstituteArgs(parts, payload), if UsesPlaceholder(parts) then "" else payload)
  }

  /** Decimal digits of a natural number. */
  function NatToString(n: nat): (s: string)
    ensures s != [] && forall i :: 0 <= i < |s| ==> '0' <= s[i] <= '9'
    decreases n
  {
    var d := ['0' + (n % 10) as char];
    if n < 10 then d else NatToString(n / 10) + d
  }

  /** The value a string of decimal digits denotes. */
  function DecimalValue(s: string): int
  {
    if s == [] then 0 else DecimalValue(s[..|s| - 1]) * 10 + (s[|s| - 1] as int - '0' as int)
  }

  lemma {:induction false} NatToStringValue(n: nat)
    ensures DecimalValue(NatToString(n)) == n
    decreases n
  {
    var d := ['0' + (n % 10) as char];
    if n >= 10 {
      NatToStringValue(n / 10);
      var s := NatToString(n / 10) + d;
      assert s[..|s| - 1] == NatToString(n / 10);
    }
  }

  /** Python `str(code)` for an integer. */
  function IntToString(i: int): (s: string)
    ensures s != [] && (i < 0 <==> s[0] == '-')
    ensures i >= 0 ==> DecimalValue(s) == i
    ensures i < 0 ==> DecimalValue(s[1..]) == -i
  {
    NatToStringValue(if i < 0 then -i else i);
    if i < 0 then "-" + NatToString(-i) else NatToString(i)
  }

  /**
   * `run_postprocess_command(text, program, args, timeout, context_text)`,
   * with the program run given as `run`.
   */
  function RunPostprocessCommand(text: string, program: string, args: string, split: string -> seq<string>,
                                 context: string, run: Invocation -> Outcome): (r: Reply)
  {
    if program == [] then Reply(text, "")
    else
      match run(BuildInvocation(text, program, args, split, context))
      case NotFound => Reply(text, "找不到後處理程式：" + program)
      case Raised(message) => Reply(text, "後處理執行失敗：" + message)
      case Exited(code, stdout, stderr) =>
        if code != 0 then
          var err := if Strip(stderr) != [] then Strip(stderr) else "exit " + IntToString(code);
          Reply(text, "後處理失敗：" + err)
        else
          var out := Strip(stdout);
          Reply(if out != [] then out else text, "")
  }

  /* ---------------- what the caller can rely on ---------------- */

  /** The text goes to the program on standard input unless an argument carries the placeholder. */
  lemma {:induction false} InvocationShape(text: string, program: string, args: string, split: string -> seq<string>, context: string)
    ensures var inv := BuildInvocation(text, program, args, split, context);
      var parts := if args != [] then split(args) else [];
      |inv.argv| == 1 + |parts|
      && (UsesPlaceholder(parts) ==> inv.stdin == [])
      && (!UsesPlaceholder(parts) ==> inv.stdin == Payload(text, context) && inv.argv == [program] + parts)
  {
    var parts := if args != [] then split(args) else [];
    var inv := BuildInvocation(text, program, args, split, context);
    if !UsesPlaceholder(parts) {
      assert inv.argv[1..] == parts;
    }
  }

  /** The call fails exactly when the program was given and did not exit with status 0. */
  lemma {:induction false} ReplyErrorIff(text: string, program: string, args: string, split: string -> seq<string>,
                      context: string, run: Invocation -> Outcome)
    ensures var r := RunPostprocessCommand(text, program, args, split, context, run);
      var o := run(BuildInvocation(text, program, args, split, context));
      (r.error == [] <==> program == [] || (o.Exited? && o.code == 0))
      && (r.error != [] ==> r.text == text)
  {
    var r := RunPostprocessCommand(text, program, args, split, context, run);
    if program != [] {
      var o := run(BuildInvocation(text, program, args, split, context));
      match o
      case NotFound =>
        assert r.error == "找不到後處理程式：" + program;
        assert r.error[0] == '找';
      case Raised(m) =>
        assert r.error == "後處理執行失敗：" + m;
        assert r.error[0] == '後';
      case Exited(code, out, err) =>
        if code != 0 {
          var e := if Strip(err) != [] then Strip(err) else "exit " + IntToString(code);
          assert r.error == "後處理失敗：" + e;
          assert r.error[0] == '後';
        }
    }
  }

  /** On success the reply is the stripped output, or the original text when the output is blank. */
  lemma {:induction false} ReplyOnSuccess(text: string, program: string, args: string, split: string -> seq<string>,
                       context: string, run: Invocation -> Outcome)
    requires program != []
    requires var o := run(BuildInvocation(text, program, args, split, context)); o.Exited? && o.code == 0
    ensures var r := RunPostprocessCommand(text, program, args, split, context, run);
      var o := run(BuildInvocation(text, program, args, split, context));
      r.error == [] && (AllSpace(o.stdout) ==> r.text == text) && (!AllSpace(o.stdout) ==> r.text == Strip(o.stdout))
  {
  }

  /** A failing exit reports the stripped standard error, or the exit code when that is blank. */
  lemma {:induction false} ReplyOnFailure(text: string, program: string, args: string, split: string -> seq<string>,
                       context: string, run: Invocation -> Outcome)
    requires program != []
    requires var o := run(BuildInvocation(text, program, args, split, context)); o.Exited? && o.code != 0
    ensures var r := RunPostprocessCommand(text, program, args, split, context, run);
      var o := run(BuildInvocation(text, program, args, split, context));
      r.text == text
      && (!AllSpace(o.stderr) ==> r.error == "後處理失敗：" + Strip(o.stderr))
      && (AllSpace(o.stderr) ==> r.error == "後處理失敗：exit " + IntToString(o.code))
  {
  }
}
