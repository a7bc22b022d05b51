/**
 * The daemon's control state: the `ToggleState` shared by the command thread
 * and the audio loop, and `command_loop`, which reads command lines from the
 * command FIFO and dispatches them.
 */
module Control {
  import opened PyText
  import opened Languages

  /** `ToggleState`: whether the daemon listens, and whether it is shutting down. */
  class ToggleState {
    var listening: bool
    var stopped: bool

    constructor ()
      ensures !listening && !stopped
    {
      listening := false;
      stopped := false;
    }

    /** `toggle()`: flips listening and returns the new value. */
    method Toggle() returns (now: bool)
      modifies this
      ensures listening == !old(listening) && now == listening && stopped == old(stopped)
    {
      listening := !listening;
      now := listening;
    }

    /** `set_listening(value)`. */
    method SetListening(value: bool)
      modifies this
      ensures listening == value && stopped == old(stopped)
    {
      listening := value;
    }

    /** `stop()`: shutting down also stops listening. */
    method Stop()
      modifies this
      ensures stopped && !listening
    {
      stopped := true;
      listening := false;
    }
  }

  /** What a command line asks for. */
  datatype Command = ToggleCmd | StartCmd | StopCmd | QuitCmd | SwitchLanguageCmd | Ignored

  /**
   * `line.strip().lower()` matched against the known commands. Lower-casing is
   * modelled on ASCII letters; no other character lower-cases into a letter
   * of a command word, so the match is the same.
   */
  function ParseCommand(line: string): (c: Command)
    ensures c == ToggleCmd <==> Lower(Strip(line)) == "toggle"
    ensures c == QuitCmd <==> Lower(Strip(line)) in ["quit", "exit"]
    ensures c == Ignored <==> Lower(Strip(line)) !in ["toggle", "start", "stop", "quit", "exit", "switch_language"]
  {
    var cmd := Lower(Strip(line));
    if cmd == "toggle" then ToggleCmd
    else if cmd == "start" then StartCmd
    else if cmd == "stop" then StopCmd
    else if cmd == "quit" || cmd == "exit" then QuitCmd
    else if cmd == "switch_language" then SwitchLanguageCmd
    else Ignored
  }

  /**
   * `load_current_language`: the language recorded in the state file when it
   * is a non-empty string (`None` stands for a missing file, key or string),
   * otherwise the default zh-TW.
   */
  function CurrentLanguage(stored: Option<string>): (lang: string)
    ensures lang != []
    ensures stored.Some? && stored.value != [] ==> lang == stored.value
  {
    if stored.Some? && stored.value != [] then stored.value else "zh-TW"
  }

  /** The daemon's control state and the language recorded in the state file. */
  datatype Control = Control(listening: bool, stopped: bool, language: Option<string>)

  /** The effect of one command line. */
  function Dispatch(c: Control, line: string): (d: Control)
    ensures ParseCommand(line) == Ignored ==> d == c
    ensures ParseCommand(line) == ToggleCmd ==> d == c.(listening := !c.listening)
    ensures ParseCommand(line) == StartCmd ==> d == c.(listening := true)
    ensures ParseCommand(line) == StopCmd ==> d == c.(listening := false)
    ensures ParseCommand(line) == QuitCmd ==> d.stopped && !d.listening && d.language == c.language
    ensures ParseCommand(line) == SwitchLanguageCmd ==>
      d.listening == c.listening && d.stopped == c.stopped && d.language.Some? && d.language.value in LANGUAGES
  {
    match ParseCommand(line)
    case ToggleCmd => c.(listening := !c.listening)
    case StartCmd => c.(listening := true)
    case StopCmd => c.(listening := false)
    case QuitCmd => c.(stopped := true, listening := false)
    case SwitchLanguageCmd => c.(language := Some(DaemonNextLanguage(CurrentLanguage(c.language))))
    case Ignored => c
  }

  /**
   * The lines the loop reads, in order, until a quit line: the resulting
   * control state and the number of lines consumed. Nothing is read once the
   * daemon is stopped.
   */
  function Replay(c: Control, lines: seq<string>): (r: (Control, nat))
    ensures r.1 <= |lines|
    decreases |lines|
  {
    if c.stopped || lines == [] then (c, 0)
    else if ParseCommand(lines[0]) == QuitCmd then (Dispatch(c, lines[0]), 1)
    else
      var rest := Replay(Dispatch(c, lines[0]), lines[1..]);
      (rest.0, rest.1 + 1)
  }

  /**
   * `command_loop` over the lines read from the command FIFO (the FIFO's
   * reopening after end of file is not modelled): dispatches each line on the
   * shared state and the recorded language, and returns at `quit` or `exit`.
   */
  method CommandLoop(state: ToggleState, lines: seq<string>, stored: Option<string>)
      returns (language: Option<string>, consumed: nat)
    modifies state
    ensures var r := Replay(Control(old(state.listening), old(state.stopped), stored), lines);
      Control(state.listening, state.stopped, language) == r.0 && consumed == r.1
  {
    language := stored;
    consumed := 0;
    if state.stopped {
      return;
    }
    while consumed < |lines|
      invariant consumed <= |lines| && !state.stopped
      invariant Replay(Control(old(state.listening), old(state.stopped), stored), lines).0
        == Replay(Control(state.listening, state.stopped, language), lines[consumed..]).0
      invariant Replay(Control(old(state.listening), old(state.stopped), stored), lines).1
        == Replay(Control(state.listening, state.stopped, language), lines[consumed..]).1 + consumed
    {
      var line := lines[consumed];
      ghost var before := Control(state.listening, state.stopped, language);
      ReplayStep(before, lines[consumed..]);
      assert lines[consumed..][1..] == lines[consumed + 1..];
      var cmd := ParseCommand(line);
      consumed := consumed + 1;
      match cmd {
        case ToggleCmd =>
          var _ := state.Toggle();
        case StartCmd =>
          state.SetListening(true);
        case StopCmd =>
          state.SetListening(false);
        case QuitCmd =>
          state.Stop();
          assert Control(state.listening, state.stopped, language) == Dispatch(before, line);
          return;
        case SwitchLanguageCmd =>
          var cur := CurrentLanguage(language);
          language := Some(DaemonNextLanguage(cur));
        case Ignored =>
      }
      assert Control(state.listening, state.stopped, language) == Dispatch(before, line);
    }
  }

  /** One line of the replay. */
  lemma {:induction false} ReplayStep(c: Control, lines: seq<string>)
    requires !c.stopped && lines != []
    ensures ParseCommand(lines[0]) == QuitCmd ==> Replay(c, lines) == (Dispatch(c, lines[0]), 1)
    ensures ParseCommand(lines[0]) != QuitCmd ==>
      !Dispatch(c, lines[0]).stopped
      && Replay(c, lines).0 == Replay(Dispatch(c, lines[0]), lines[1..]).0
      && Replay(c, lines).1 == Replay(Dispatch(c, lines[0]), lines[1..]).1 + 1
  {
  }

  /** Reading stops right after the first quit line; every earlier line was dispatched. */
  lemma {:induction false} ReplayStopsAtQuit(c: Control, lines: seq<string>, k: nat)
    requires !c.stopped && k < |lines| && ParseCommand(lines[k]) == QuitCmd
    requires forall j :: 0 <= j < k ==> ParseCommand(lines[j]) != QuitCmd
    ensures Replay(c, lines).1 == k + 1 && Replay(c, lines).0.stopped && !Replay(c, lines).0.listening
    decreases k
  {
    if k == 0 {
      ReplayQuitFirst(c, lines);
    } else {
      QuitLater(c, lines, k);
      ReplayStopsAtQuit(Dispatch(c, lines[0]), lines[1..], k - 1);
      ReplayThrough(c, lines, Replay(Dispatch(c, lines[0]), lines[1..]));
    }
  }

  /** With the quit line further on, the first line keeps the daemon running and the rest still holds the quit line. */
  lemma {:induction false} QuitLater(c: Control, lines: seq<string>, k: nat)
    requires !c.stopped && 0 < k < |lines| && ParseCommand(lines[k]) == QuitCmd
    requires forall j :: 0 <= j < k ==> ParseCommand(lines[j]) != QuitCmd
    ensures ParseCommand(lines[0]) != QuitCmd && !Dispatch(c, lines[0]).stopped
    ensures ParseCommand(lines[1..][k - 1]) == QuitCmd
    ensures forall j :: 0 <= j < k - 1 ==> ParseCommand(lines[1..][j]) != QuitCmd
  {
    assert ParseCommand(lines[0]) != QuitCmd;
    assert lines[1..][k - 1] == lines[k];
    forall j | 0 <= j < k - 1
      ensures ParseCommand(lines[1..][j]) != QuitCmd
    {
      assert lines[1..][j] == lines[j + 1];
    }
  }

  lemma {:induction false} ReplayQuitFirst(c: Control, lines: seq<string>)
    requires !c.stopped && lines != [] && ParseCommand(lines[0]) == QuitCmd
    ensures Replay(c, lines).1 == 1 && Replay(c, lines).0.stopped && !Replay(c, lines).0.listening
  {
  }

  lemma {:induction false} ReplayThrough(c: Control, lines: seq<string>, rest: (Control, nat))
    requires !c.stopped && lines != [] && ParseCommand(lines[0]) != QuitCmd
    requires rest == Replay(Dispatch(c, lines[0]), lines[1..])
    ensures Replay(c, lines) == (rest.0, rest.1 + 1)
  {
  }

  /** Without a quit line every line is read and the daemon keeps running. */
  lemma {:induction false} ReplayWithoutQuit(c: Control, lines: seq<string>)
    requires !c.stopped
    requires forall j :: 0 <= j < |lines| ==> ParseCommand(lines[j]) != QuitCmd
    ensures Replay(c, lines).1 == |lines| && !Replay(c, lines).0.stopped
    decreases |lines|
  {
    if lines != [] {
      ReplayWithoutQuit(Dispatch(c, lines[0]), lines[1..]);
    }
  }

  /** Commands are matched after stripping surrounding white space and lower-casing the line. */
  lemma {:induction false} ToggleSpelling(pre: string, post: string)
    requires AllSpace(pre) && AllSpace(post)
    ensures ParseCommand(pre + "TOGGLE" + post) == ToggleCmd
  {
    StripPadded(pre, "TOGGLE", post);
    LowerEach("TOGGLE", "toggle");
  }

  lemma {:induction false} ExitSpelling(pre: string, post: string)
    requires AllSpace(pre) && AllSpace(post)
    ensures ParseCommand(pre + "Exit" + post) == QuitCmd
  {
    StripPadded(pre, "Exit", post);
    LowerEach("Exit", "exit");
  }

  lemma {:induction false} UnknownLine()
    ensures ParseCommand("hello") == Ignored
  {
    StripIdentity("hello");
    LowerEach("hello", "hello");
  }

  /** The add-on's Shift+F8 line, `command`, is not a command the daemon knows: it changes nothing. */
  lemma {:induction false} CommandLineIgnored(c: Control)
    ensures ParseCommand("command\n") == Ignored
    ensures Dispatch(c, "command\n") == c
  {
    CommandLineWord();
  }

  lemma {:induction false} CommandLineWord()
    ensures Lower(Strip("command\n")) == "command"
  {
    CommandLineStrip();
    LowerEach("command", "command");
  }

  lemma {:induction false} CommandLineStrip()
    ensures Strip("command\n") == "command"
  {
    StripPadded([], "command", "\n");
    assert [] + "command" + "\n" == "command\n";
  }

  lemma {:induction false} SwitchSpelling()
    ensures ParseCommand("switch_language") == SwitchLanguageCmd
  {
    StripIdentity("switch_language");
    LowerEach("switch_language", "switch_language");
  }

  /** A `switch_language` line records the successor of the current language. */
  lemma {:induction false} SwitchRecords(c: Control)
    ensures Dispatch(c, "switch_language")
      == c.(language := Some(DaemonNextLanguage(CurrentLanguage(c.language))))
  {
    SwitchSpelling();
  }

  /** Switching language from the state file's value: zh-TW, en-US and ja-JP follow each other. */
  lemma {:induction false} SwitchFromStored(c: Control)
    ensures Dispatch(c.(language := Some("zh-TW")), "switch_language").language == Some("en-US")
    ensures Dispatch(c.(language := Some("en-US")), "switch_language").language == Some("ja-JP")
    ensures Dispatch(c.(language := Some("ja-JP")), "switch_language").language == Some("zh-TW")
  {
    DaemonCycle();
    SwitchFromTo(c, Some("zh-TW"), "en-US");
    SwitchFromTo(c, Some("en-US"), "ja-JP");
    SwitchFromTo(c, Some("ja-JP"), "zh-TW");
  }

  /**
   * An unknown recorded language goes to zh-TW, and a missing one counts as
   * the default zh-TW and so goes to en-US.
   */
  lemma {:induction false} SwitchFromUnknown(c: Control)
    ensures Dispatch(c.(language := Some("ko-KR")), "switch_language").language == Some("zh-TW")
    ensures Dispatch(c.(language := None), "switch_language").language == Some("en-US")
  {
    DaemonCycle();
    UnknownGoesFirst();
    assert DaemonNextLanguage("ko-KR") == "zh-TW";
    SwitchFromTo(c, Some("ko-KR"), "zh-TW");
    SwitchFromTo(c, None, "en-US");
  }

  lemma {:induction false} SwitchFromTo(c: Control, stored: Option<string>, next: string)
    requires DaemonNextLanguage(CurrentLanguage(stored)) == next
    ensures Dispatch(c.(language := stored), "switch_language").language == Some(next)
  {
    SwitchRecords(c.(language := stored));
  }
}
