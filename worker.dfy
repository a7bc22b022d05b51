/**
 * The daemon's recognition worker (`OnlineRecognizerWorker` in
 * daemon_asr.py), as far as it is sequential logic: the job queue filled
 * by the audio loop, the context memory of recent results, and the
 * dispatch of `postprocess_text` over the post-processing modes.
 * Recognition itself, the commit FIFO and the worker thread's polling are
 * not part of this model.
 */
module Worker {
  import opened PyText
  import opened Buffers
  import opened Fillers
  import opened SelfCorrection
  import opened Punctuation
  import opened Postprocess
  import opened Config

  /** A queued job: the audio to recognise and the seconds of speech it holds. */
  datatype Job = Job(audio: seq<int>, speechSeconds: real)

  /* ---------------- context memory ---------------- */

  /** The rendered lines of the context memory: `- ` and the stripped entry, for each non-blank entry, oldest first. */
  function Bullets(entries: seq<string>): (lines: seq<string>)
    ensures |lines| <= |entries|
    ensures forall k :: 0 <= k < |lines| ==> |lines[k]| > 2 && lines[k][0] == '-' && lines[k][1] == ' '
    decreases |entries|
  {
    if entries == [] then []
    else
      var rest := Bullets(entries[..|entries| - 1]);
      var t := Strip(entries[|entries| - 1]);
      if t != [] then rest + ["- " + t] else rest
  }

  /** What `get_context_text` renders for the given entries: the bullet lines joined by line breaks. */
  function ContextText(entries: seq<string>): (text: string)
  {
    Join(Bullets(entries), "\n")
  }

  /** Appending a part to a joined list. */
  lemma {:induction false} JoinSnoc(parts: seq<string>, x: string, sep: string)
    ensures parts == [] ==> Join(parts + [x], sep) == x
    ensures parts != [] ==> Join(parts + [x], sep) == Join(parts, sep) + sep + x
    decreases |parts|
  {
    if |parts| == 1 {
      assert parts + [x] == [parts[0]] + [x];
      JoinCons(parts[0], [x], sep);
    } else if |parts| > 1 {
      assert (parts + [x])[1..] == parts[1..] + [x];
      JoinSnoc(parts[1..], x, sep);
      JoinCons(parts[0], parts[1..] + [x], sep);
      JoinCons(parts[0], parts[1..], sep);
      assert [parts[0]] + parts[1..] == parts;
      assert [parts[0]] + (parts[1..] + [x]) == parts + [x];
    }
  }

  /** Rendering one more entry: a blank entry changes nothing, any other adds its bullet line. */
  lemma {:induction false} ContextTextAppend(entries: seq<string>, t: string)
    ensures AllSpace(t) ==> ContextText(entries + [t]) == ContextText(entries)
    ensures !AllSpace(t) && Bullets(entries) == [] ==> ContextText(entries + [t]) == "- " + Strip(t)
    ensures !AllSpace(t) && Bullets(entries) != [] ==>
      ContextText(entries + [t]) == ContextText(entries) + "\n" + "- " + Strip(t)
  {
    var all := entries + [t];
    assert all[..|all| - 1] == entries;
    if !AllSpace(t) {
      JoinSnoc(Bullets(entries), "- " + Strip(t), "\n");
    }
  }

  /** No bullet line exactly when every entry is blank. */
  lemma {:induction false} BulletsEmpty(entries: seq<string>)
    ensures Bullets(entries) == [] <==> forall i :: 0 <= i < |entries| ==> AllSpace(entries[i])
    decreases |entries|
  {
    if entries != [] {
      var init := entries[..|entries| - 1];
      BulletsEmpty(init);
      assert forall i :: 0 <= i < |init| ==> init[i] == entries[i];
    }
  }

  /** The rendering is empty exactly when every remembered entry is blank. */
  lemma {:induction false} ContextTextEmpty(entries: seq<string>)
    ensures ContextText(entries) == [] <==> forall i :: 0 <= i < |entries| ==> AllSpace(entries[i])
  {
    BulletsEmpty(entries);
    var b := Bullets(entries);
    if b != [] {
      if |b| == 1 {
        assert ContextText(entries) == b[0];
      } else {
        JoinCons(b[0], b[1..], "\n");
        assert [b[0]] + b[1..] == b;
      }
    }
  }

  /** Entries that need no stripping render one bullet each. */
  lemma {:induction false} BulletsOfWords(ws: seq<string>)
    requires forall i :: 0 <= i < |ws| ==> ws[i] != [] && !IsSpace(ws[i][0]) && !IsSpace(ws[i][|ws[i]| - 1])
    ensures Bullets(ws) == seq(|ws|, i requires 0 <= i < |ws| => "- " + ws[i])
    decreases |ws|
  {
    if ws != [] {
      var init := ws[..|ws| - 1];
      BulletsOfWords(init);
      StripIdentity(ws[|ws| - 1]);
    }
  }

  /** Two entries that need no stripping render as two bullet lines. */
  lemma {:induction false} ContextOfTwo(a: string, b: string)
    requires a != [] && !IsSpace(a[0]) && !IsSpace(a[|a| - 1])
    requires b != [] && !IsSpace(b[0]) && !IsSpace(b[|b| - 1])
    ensures ContextText([a, b]) == "- " + a + "\n" + "- " + b
  {
    BulletsOfWords([a, b]);
    assert Bullets([a, b]) == ["- " + a] + ["- " + b];
    JoinCons("- " + a, ["- " + b], "\n");
  }

  /* ---------------- post-processing ---------------- */

  /** `bool(cfg.get(key, True))` for a smart-edit switch. */
  predicate Switch(cfg: map<string, Value>, key: string)
  {
    Truthy(Get(cfg, key, VBool(true)))
  }

  /** The smart-edit steps: filler filtering, then self-correction, each when switched on. */
  function SmartEdit(text: string, cfg: map<string, Value>): (r: string)
    ensures !Switch(cfg, "enable_filler_filter") && !Switch(cfg, "enable_self_correction") ==> r == text
  {
    var a := if Switch(cfg, "enable_filler_filter") then FilterFillerWords(text, None) else text;
    if Switch(cfg, "enable_self_correction") then Detect(Daemon, a) else a
  }

  /** With only the filler filter on, the smart edit yields the filter's normal form. */
  lemma {:induction false} SmartEditFillerOnly(text: string, cfg: map<string, Value>)
    requires Switch(cfg, "enable_filler_filter") && !Switch(cfg, "enable_self_correction")
    ensures SmartEdit(text, cfg) == FilterFillerWords(text, None)
    ensures NormalForm(SmartEdit(text, cfg))
  {
    FilterNormalForm(text, None);
  }

  /** The argument template handed to the program: tone-aware when it carries the placeholder. */
  function EffectiveArgs(args: string, tone: string): (r: string)
    ensures !Contains(args, PLACEHOLDER) || tone == [] ==> r == args
    ensures Contains(args, PLACEHOLDER) ==> Contains(r, PLACEHOLDER)
    ensures Contains(args, PLACEHOLDER) && tone != [] ==> r == BuildToneAwarePrompt(args, tone)
  {
    if args != [] && Contains(args, PLACEHOLDER) && tone != [] then
      ToneKeepsPlaceholder(args, tone);
      BuildToneAwarePrompt(args, tone)
    else args
  }

  /**
   * What `postprocess_text` returns for the given settings, the rendered
   * context (empty when context memory is off), and the configuration the
   * smart mode reads.
   */
  function Postprocessed(mode: string, program: string, args: string, tone: string, context: string,
                         text: string, cfg: map<string, Value>, split: string -> seq<string>,
                         run: Invocation -> Outcome): (r: Reply)
  {
    if mode == "none" then Reply(text, "")
    else if mode == "heuristic" then Reply(HeuristicPunctuate(text), "")
    else if mode == "smart" then
      var edited := SmartEdit(text, cfg);
      if program != [] then RunPostprocessCommand(edited, program, EffectiveArgs(args, tone), split, context, run)
      else Reply(edited, "")
    else RunPostprocessCommand(text, program, EffectiveArgs(args, tone), split, context, run)
  }

  /** Only a program that fails can produce an error, and a failure keeps the text handed to the program. */
  lemma {:induction false} PostprocessErrors(mode: string, program: string, args: string, tone: string, context: string,
                          text: string, cfg: map<string, Value>, split: string -> seq<string>,
                          run: Invocation -> Outcome)
    ensures var r := Postprocessed(mode, program, args, tone, context, text, cfg, split, run);
      (mode == "none" || mode == "heuristic" || program == [] ==> r.error == [])
      && (r.error != [] && mode == "smart" ==> r.text == SmartEdit(text, cfg))
      && (r.error != [] && mode != "smart" ==> r.text == text)
  {
    var r := Postprocessed(mode, program, args, tone, context, text, cfg, split, run);
    if mode != "none" && mode != "heuristic" {
      var input := if mode == "smart" then SmartEdit(text, cfg) else text;
      ReplyErrorIff(input, program, EffectiveArgs(args, tone), split, context, run);
    }
  }

  /** The local modes never run a program: `none` returns the text, `heuristic` its punctuated form. */
  lemma {:induction false} LocalModes(program: string, args: string, tone: string, context: string, text: string,
                   cfg: map<string, Value>, split: string -> seq<string>, run: Invocation -> Outcome)
    ensures Postprocessed("none", program, args, tone, context, text, cfg, split, run) == Reply(text, "")
    ensures Postprocessed("heuristic", program, args, tone, context, text, cfg, split, run)
      == Reply(HeuristicPunctuate(text), "")
    ensures program == [] ==>
      Postprocessed("smart", program, args, tone, context, text, cfg, split, run) == Reply(SmartEdit(text, cfg), "")
  {
  }

  /** The `cat` program: it echoes its standard input and exits with status 0. */
  function Cat(inv: Invocation): Outcome
  {
    Exited(0, inv.stdin, "")
  }

  /** A `command`-mode run of `cat` without arguments returns the context-aware text it was given. */
  lemma {:induction false} CatEchoesPayload(tone: string, context: string, text: string, cfg: map<string, Value>, split: string -> seq<string>)
    requires text != [] && !IsSpace(text[0]) && !IsSpace(text[|text| - 1])
    requires context == [] || (!IsSpace(context[0]) && !IsSpace(context[|context| - 1]))
    ensures Postprocessed("command", "cat", "", tone, context, text, cfg, split, Cat) == Reply(Payload(text, context), "")
  {
    assert EffectiveArgs("", tone) == "";
    var inv := BuildInvocation(text, "cat", "", split, context);
    assert !UsesPlaceholder([]);
    assert inv.stdin == Payload(text, context);
    var p := Payload(text, context);
    assert p[|p| - 1] == text[|text| - 1];
    StripIdentity(p);
  }

  /** Splits an argument string at nothing (the scenarios pass no arguments). */
  function Whole(s: string): seq<string>
  {
    [s]
  }

  /* ---------------- the worker ---------------- */

  class RecognizerWorker {
    const jobs: BoundedQueue<Job>
    const tone: string
    const postprocessMode: string
    const postprocessProgram: string
    const postprocessArgs: string
    const enableContextMemory: bool
    const contextLength: int
    /** The context memory, `deque(maxlen=context_length)`, oldest entry first. */
    var context: seq<string>

    ghost predicate Valid()
      reads this, jobs
    {
      jobs.Valid() && contextLength >= 1 && Within(context, contextLength)
    }

    /** The queue, post-processing and context-memory part of `__init__`. */
    constructor (queueSize: int, mode: string, program: string, args: string,
                 enableContextMemory: bool, contextLength: int)
      ensures Valid() && fresh(jobs)
      ensures jobs.maxsize == queueSize && jobs.items == []
      ensures tone == "casual" && context == []
      ensures postprocessMode == mode && postprocessProgram == program && postprocessArgs == args
      ensures this.enableContextMemory == enableContextMemory
      ensures this.contextLength == if contextLength < 1 then 1 else contextLength
    {
      jobs := new BoundedQueue(queueSize);
      tone := "casual";
      postprocessMode := mode;
      postprocessProgram := program;
      postprocessArgs := args;
      this.enableContextMemory := enableContextMemory;
      this.contextLength := if contextLength < 1 then 1 else contextLength;
      context := [];
    }

    /**
     * `enqueue(audio, speech_seconds)`: never blocks; on a full queue exactly
     * the oldest job gives way, and the new job is always last.
     */
    method Enqueue(job: Job)
      requires Valid()
      modifies jobs
      ensures Valid() && jobs.items == Offer(old(jobs.items), jobs.maxsize, job)
      ensures old(jobs.Full()) ==> jobs.items == old(jobs.items)[1..] + [job]
      ensures !old(jobs.Full()) ==> jobs.items == old(jobs.items) + [job]
    {
      var _ := jobs.PutNewest(job);
    }

    /** `add_to_context(text)`: remembered only with context memory on, the oldest entry dropping out when full. */
    method AddToContext(text: string)
      requires Valid()
      modifies this
      ensures Valid()
      ensures !enableContextMemory ==> context == old(context)
      ensures enableContextMemory ==> context == Offer(old(context), contextLength, text)
    {
      if !enableContextMemory {
        return;
      }
      context := Offer(context, contextLength, text);
    }

    /** `get_context_text()`: the rendered context memory, or "" with context memory off. */
    method GetContextText() returns (text: string)
      requires Valid()
      ensures text == if enableContextMemory then ContextText(context) else ""
    {
      if !enableContextMemory {
        return "";
      }
      var parts: seq<string> := [];
      var i := 0;
      while i < |context|
        invariant 0 <= i <= |context|
        invariant parts == Bullets(context[..i])
      {
        var t := Strip(context[i]);
        assert context[..i + 1][..i] == context[..i];
        if t != [] {
          parts := parts + ["- " + t];
        }
        i := i + 1;
      }
      assert context[..i] == context;
      text := if parts != [] then Join(parts, "\n") else "";
    }

    /** `postprocess_text(text)`; `cfg` is what `load_user_config` returns at that moment. */
    method PostprocessText(text: string, cfg: map<string, Value>, split: string -> seq<string>,
                           run: Invocation -> Outcome) returns (r: Reply)
      requires Valid()
      ensures r == Postprocessed(postprocessMode, postprocessProgram, postprocessArgs, tone,
                                 if enableContextMemory then ContextText(context) else "", text, cfg, split, run)
    {
      if postprocessMode == "none" {
        return Reply(text, "");
      }
      if postprocessMode == "heuristic" {
        return Reply(HeuristicPunctuate(text), "");
      }
      var input := text;
      if postprocessMode == "smart" {
        if Switch(cfg, "enable_filler_filter") {
          input := FilterFillerWords(input, None);
        }
        if Switch(cfg, "enable_self_correction") {
          input := Detect(Daemon, input);
        }
        if postprocessProgram == [] {
          return Reply(input, "");
        }
      }
      var contextText := "";
      if enableContextMemory {
        contextText := GetContextText();
      }
      var argsLocal := postprocessArgs;
      if argsLocal != [] && Contains(argsLocal, PLACEHOLDER) && tone != [] {
        argsLocal := BuildToneAwarePrompt(argsLocal, tone);
      }
      r := RunPostprocessCommand(input, postprocessProgram, argsLocal, split, contextText, run);
    }
  }

  /** After any run of additions the memory holds the last `contextLength` of them, in order. */
  lemma {:induction false} ContextKeepsLatest(entries: seq<string>, contextLength: int)
    requires contextLength >= 1
    ensures OfferAll([], contextLength, entries) == entries[|entries| - Buffers.Kept(|entries|, contextLength)..]
  {
    OfferAllKeepsLatest([], contextLength, entries);
    assert [] + entries == entries;
  }

  /* ---------------- the context-memory scenarios ---------------- */

  /** Two entries render as two bullet lines. */
  method ScenarioBasic() returns (text: string)
    ensures text == "- first\n- second"
  {
    var w := new RecognizerWorker(1, "command", "", "", true, 5);
    w.AddToContext("first");
    w.AddToContext("second");
    assert w.context == ["first", "second"];
    ContextOfTwo("first", "second");
    text := w.GetContextText();
  }

  /** With room for two, the third entry pushes out the first. */
  method ScenarioMaxlen() returns (text: string)
    ensures text == "- b\n- c"
  {
    var w := new RecognizerWorker(1, "command", "", "", true, 2);
    w.AddToContext("a");
    w.AddToContext("b");
    w.AddToContext("c");
    assert w.context == ["b", "c"];
    ContextOfTwo("b", "c");
    text := w.GetContextText();
  }

  /** Blank entries take room but are not rendered. */
  method ScenarioBlanks() returns (empty: string, text: string)
    ensures empty == "" && text == "- ok"
  {
    var w := new RecognizerWorker(1, "command", "", "", true, 3);
    empty := w.GetContextText();
    w.AddToContext("");
    w.AddToContext("   ");
    w.AddToContext("ok");
    assert w.context == ["", "   ", "ok"];
    BlanksThenOk();
    text := w.GetContextText();
  }

  lemma {:induction false} BlanksThenOk()
    ensures ContextText(["", "   ", "ok"]) == "- ok"
  {
    assert AllSpace("   ");
    BulletsEmpty(["", "   "]);
    assert ["", "   "] + ["ok"] == ["", "   ", "ok"];
    ContextTextAppend(["", "   "], "ok");
    StripIdentity("ok");
  }

  /** The remembered context goes ahead of the text on the program's standard input. */
  method ScenarioContextPrompt() returns (r: Reply)
    ensures r == Reply("- hello\n- world" + "\n" + "current", "")
  {
    var w := new RecognizerWorker(1, "command", "cat", "", true, 5);
    w.AddToContext("hello");
    w.AddToContext("world");
    assert w.context == ["hello", "world"];
    ContextOfTwo("hello", "world");
    var context := "- hello\n- world";
    assert ContextText(w.context) == context;
    CatEchoesPayload(w.tone, context, "current", map[], Whole);
    r := w.PostprocessText("current", map[], Whole, Cat);
    assert r == Reply(Payload("current", context), "");
  }

  /** With context memory off nothing is remembered and the text goes alone. */
  method ScenarioContextDisabled() returns (text: string, r: Reply)
    ensures text == "" && r == Reply("cur", "")
  {
    var w := new RecognizerWorker(1, "command", "cat", "", false, 5);
    w.AddToContext("should_not_be_added");
    text := w.GetContextText();
    CatEchoesPayload(w.tone, "", "cur", map[], Whole);
    r := w.PostprocessText("cur", map[], Whole, Cat);
  }
}
