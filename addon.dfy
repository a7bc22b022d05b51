/**
 * The Fcitx5 add-on (`ASRNativeEngine` in src/asrime.cpp): it loads the
 * toggle hotkeys, tracks the active input context, writes `toggle` and
 * `command` lines to the daemon's command FIFO, and commits every complete
 * line that the daemon writes to the commit FIFO.
 *
 * C++ `std::string` holds bytes; here a string holds one byte per character.
 * An input context is identified by a number. Fcitx key parsing
 * (`fcitx::Key(name)`, `isValid`, `normalize`) is a parameter of the model.
 */
module Addon {
  import opened PyText
  import opened Seqs

  /** `std::isspace` in the C locale: space, tab, newline, vertical tab, form feed, carriage return. */
  predicate IsCSpace(c: char)
  {
    c == ' ' || ('\t' <= c <= '\r')
  }

  predicate AllCSpace(s: string)
  {
    forall i :: 0 <= i < |s| ==> IsCSpace(s[i])
  }

  /** The number of white-space bytes at the front of `s`. */
  function LeadingSpaces(s: string): (n: nat)
    ensures n <= |s|
    ensures forall i :: 0 <= i < n ==> IsCSpace(s[i])
    ensures n < |s| ==> !IsCSpace(s[n])
  {
    if s == [] || !IsCSpace(s[0]) then 0 else 1 + LeadingSpaces(s[1..])
  }

  /** The number of white-space bytes at the back of `s`. */
  function TrailingSpaces(s: string): (n: nat)
    ensures n <= |s|
    ensures forall i :: |s| - n <= i < |s| ==> IsCSpace(s[i])
    ensures n < |s| ==> !IsCSpace(s[|s| - n - 1])
  {
    if s == [] || !IsCSpace(s[|s| - 1]) then 0 else 1 + TrailingSpaces(s[..|s| - 1])
  }

  /**
   * What `trim` returns: `s` without its leading and trailing white space.
   * It is empty exactly when `s` is all white space; otherwise it starts and
   * ends with a non-space byte, and it is the slice of `s` that begins at the
   * first non-space byte and is followed only by white space.
   */
  function Trimmed(s: string): (r: string)
    ensures r == [] <==> AllCSpace(s)
    ensures r != [] ==> !IsCSpace(r[0]) && !IsCSpace(r[|r| - 1])
    ensures LeadingSpaces(s) + |r| <= |s| && r == s[LeadingSpaces(s)..LeadingSpaces(s) + |r|]
    ensures forall i :: LeadingSpaces(s) + |r| <= i < |s| ==> IsCSpace(s[i])
  {
    var t := s[LeadingSpaces(s)..];
    t[..|t| - TrailingSpaces(t)]
  }

  /** `trim`: erases the leading white space, then the trailing white space. */
  method Trim(s: string) returns (r: string)
    ensures r == Trimmed(s)
  {
    var lo := 0;
    while lo < |s| && IsCSpace(s[lo])
      invariant 0 <= lo <= |s|
      invariant forall i :: 0 <= i < lo ==> IsCSpace(s[i])
    {
      lo := lo + 1;
    }
    assert lo == LeadingSpaces(s);
    r := s[lo..];
    var hi := |r|;
    while hi > 0 && IsCSpace(r[hi - 1])
      invariant 0 <= hi <= |r|
      invariant forall i :: hi <= i < |r| ==> IsCSpace(r[i])
    {
      hi := hi - 1;
    }
    assert |r| - hi == TrailingSpaces(r);
    r := r[..hi];
  }

  /** White space around a word that starts and ends with a non-space byte is trimmed away. */
  lemma {:induction false} TrimmedPadded(pre: string, word: string, post: string)
    requires AllCSpace(pre) && AllCSpace(post)
    requires word != [] && !IsCSpace(word[0]) && !IsCSpace(word[|word| - 1])
    ensures Trimmed(pre + word + post) == word
  {
    var s := pre + word + post;
    assert s[|pre|] == word[0];
    assert LeadingSpaces(s) == |pre|;
    var t := s[|pre|..];
    assert t == word + post;
    assert t[|word| - 1] == word[|word| - 1];
    assert TrailingSpaces(t) == |post|;
    assert t[..|word|] == word;
  }

  predicate NoNewline(s: string)
  {
    forall i :: 0 <= i < |s| ==> s[i] != '\n'
  }

  /** `find('\n')`: the index of the first newline, or the length when there is none. */
  function NewlineAt(s: string): (k: nat)
    ensures k <= |s|
    ensures forall i :: 0 <= i < k ==> s[i] != '\n'
    ensures k < |s| ==> s[k] == '\n'
  {
    if s == [] || s[0] == '\n' then 0 else 1 + NewlineAt(s[1..])
  }

  /**
   * Line framing of the commit stream: the complete lines of `buf`, each
   * without its newline, and the unterminated rest that stays pending. The
   * two together give back `buf` exactly.
   */
  function Frame(buf: string): (r: (seq<string>, string))
    ensures NoNewline(r.1)
    ensures forall k :: 0 <= k < |r.0| ==> NoNewline(r.0[k])
    decreases |buf|
  {
    var k := NewlineAt(buf);
    if k == |buf| then ([], buf)
    else
      var rest := Frame(buf[k + 1..]);
      ([buf[..k]] + rest.0, rest.1)
  }

  /** The framed lines, each followed by its newline, and the pending rest give back the buffer exactly. */
  lemma {:induction false} FrameRebuilds(buf: string)
    ensures buf == Terminated(Frame(buf).0) + Frame(buf).1
    decreases |buf|
  {
    var k := NewlineAt(buf);
    if k == |buf| {
      assert Frame(buf) == ([], buf);
      assert Terminated([]) == [];
    } else {
      var head := buf[..k];
      var tail := buf[k + 1..];
      var rest := Frame(tail);
      assert Frame(buf) == ([head] + rest.0, rest.1);
      FrameRebuilds(tail);
      TerminatedCons(head, rest.0);
      SplitAtNewline(buf, k);
      AppendAssoc(head + "\n", Terminated(rest.0), rest.1);
    }
  }

  lemma {:induction false} TerminatedCons(line: string, lines: seq<string>)
    ensures Terminated([line] + lines) == line + "\n" + Terminated(lines)
  {
    assert ([line] + lines)[0] == line && ([line] + lines)[1..] == lines;
  }

  lemma {:induction false} SplitAtNewline(buf: string, k: nat)
    requires k < |buf| && buf[k] == '\n'
    ensures buf == buf[..k] + "\n" + buf[k + 1..]
  {
  }

  lemma {:induction false} AppendAssoc(a: string, b: string, c: string)
    ensures a + (b + c) == a + b + c
  {
  }

  /** Framing reads back exactly the lines that were written, one per newline. */
  lemma {:induction false} FrameUnique(lines: seq<string>, rest: string)
    requires forall k :: 0 <= k < |lines| ==> NoNewline(lines[k])
    requires NoNewline(rest)
    ensures Frame(Terminated(lines) + rest) == (lines, rest)
    decreases |lines|
  {
    var buf := Terminated(lines) + rest;
    if lines == [] {
      assert Terminated(lines) == [] && buf == rest;
      assert NewlineAt(buf) == |buf|;
    } else {
      var tail := Terminated(lines[1..]) + rest;
      assert buf == lines[0] + "\n" + tail;
      assert buf[|lines[0]|] == '\n';
      assert NewlineAt(buf) == |lines[0]|;
      assert buf[..|lines[0]|] == lines[0];
      assert buf[|lines[0]| + 1..] == tail;
      FrameUnique(lines[1..], rest);
      assert [lines[0]] + lines[1..] == lines;
    }
  }

  lemma {:induction false} TerminatedConcat(xs: seq<string>, ys: seq<string>)
    ensures Terminated(xs + ys) == Terminated(xs) + Terminated(ys)
    decreases |xs|
  {
    if xs == [] {
      assert xs + ys == ys;
    } else {
      TerminatedConcat(xs[1..], ys);
      assert (xs + ys)[0] == xs[0] && (xs + ys)[1..] == xs[1..] + ys;
    }
  }

  /**
   * Data arriving in two reads is framed as if it had arrived in one: the
   * lines of the first read, then the lines of its pending rest followed by
   * the second read.
   */
  lemma {:induction false} FrameAcrossReads(a: string, b: string)
    ensures var first := Frame(a);
      var second := Frame(first.1 + b);
      Frame(a + b) == (first.0 + second.0, second.1)
  {
    var first := Frame(a);
    var second := Frame(first.1 + b);
    FrameRebuilds(a);
    FrameRebuilds(first.1 + b);
    TerminatedConcat(first.0, second.0);
    AppendAssoc(Terminated(first.0), first.1, b);
    AppendAssoc(Terminated(first.0), Terminated(second.0), second.1);
    LinesConcat(first.0, second.0);
    FrameUnique(first.0 + second.0, second.1);
  }

  lemma {:induction false} LinesConcat(xs: seq<string>, ys: seq<string>)
    requires forall k :: 0 <= k < |xs| ==> NoNewline(xs[k])
    requires forall k :: 0 <= k < |ys| ==> NoNewline(ys[k])
    ensures forall k :: 0 <= k < |xs + ys| ==> NoNewline((xs + ys)[k])
  {
    forall k | 0 <= k < |xs + ys|
      ensures NoNewline((xs + ys)[k])
    {
      if k >= |xs| {
        assert (xs + ys)[k] == ys[k - |xs|];
      }
    }
  }

  /** One `\r` before the newline is dropped, so CRLF lines commit their text. */
  function Chomp(line: string): (r: string)
    ensures line == r || line == r + "\r"
    ensures line != [] && line[|line| - 1] == '\r' ==> line == r + "\r"
  {
    if line != [] && line[|line| - 1] == '\r' then line[..|line| - 1] else line
  }

  /**
   * What `commitLine` does for each framed line, in order: the chomped text
   * is committed to the active input context, unless it is empty or there is
   * no active context.
   */
  function Commits(ic: Option<nat>, lines: seq<string>): (r: seq<(nat, string)>)
    ensures |r| <= |lines|
    ensures ic.None? ==> r == []
    ensures forall k :: 0 <= k < |r| ==> ic == Some(r[k].0) && r[k].1 != []
    decreases |lines|
  {
    if lines == [] then []
    else
      var text := Chomp(lines[|lines| - 1]);
      Commits(ic, lines[..|lines| - 1]) + (if text != [] && ic.Some? then [(ic.value, text)] else [])
  }

  lemma {:induction false} CommitsConcat(ic: Option<nat>, xs: seq<string>, ys: seq<string>)
    ensures Commits(ic, xs + ys) == Commits(ic, xs) + Commits(ic, ys)
    decreases |ys|
  {
    if ys == [] {
      assert xs + ys == xs;
    } else {
      var init, y := ys[..|ys| - 1], ys[|ys| - 1];
      assert ys == init + [y] && xs + ys == (xs + init) + [y];
      var t := if Chomp(y) != [] && ic.Some? then [(ic.value, Chomp(y))] else [];
      CommitsSnoc(ic, xs + init, y);
      CommitsSnoc(ic, init, y);
      CommitsConcat(ic, xs, init);
      SeqAssoc(Commits(ic, xs), Commits(ic, init), t);
    }
  }

  /** A line the daemon writes with a CRLF ending commits its text alone. */
  lemma {:induction false} CrlfLine(ic: nat, text: string)
    requires NoNewline(text) && text != []
    ensures Frame(text + "\r\n") == ([text + "\r"], [])
    ensures Commits(Some(ic), Frame(text + "\r\n").0) == [(ic, text)]
  {
    assert NoNewline(text + "\r");
    FrameUnique([text + "\r"], []);
    assert Terminated([text + "\r"]) + [] == text + "\r\n";
    assert (text + "\r")[..|text + "\r"| - 1] == text;
  }

  /** `std::getline` over a whole file: its newline-terminated lines, then an unterminated last line if any. */
  function GetLines(content: string): (lines: seq<string>)
    ensures forall k :: 0 <= k < |lines| ==> NoNewline(lines[k])
  {
    var f := Frame(content);
    f.0 + (if f.1 != [] then [f.1] else [])
  }

  /** Whether a trimmed line names a key rather than being blank or a `#` comment. */
  predicate KeyLine(line: string)
  {
    var t := Trimmed(line);
    t != [] && t[0] != '#'
  }

  /** The keys that `loadHotkeys` collects from the lines, in file order: key lines whose key is valid. */
  function FileKeys<K>(lines: seq<string>, parse: string -> K, valid: K -> bool): (keys: seq<K>)
    ensures |keys| <= |lines|
    ensures forall k :: 0 <= k < |keys| ==> valid(keys[k])
    decreases |lines|
  {
    if lines == [] then []
    else
      var line := lines[|lines| - 1];
      FileKeys(lines[..|lines| - 1], parse, valid)
        + (if KeyLine(line) && valid(parse(Trimmed(line))) then [parse(Trimmed(line))] else [])
  }

  lemma {:induction false} FileKeysConcat<K>(xs: seq<string>, ys: seq<string>, parse: string -> K, valid: K -> bool)
    ensures FileKeys(xs + ys, parse, valid) == FileKeys(xs, parse, valid) + FileKeys(ys, parse, valid)
    decreases |ys|
  {
    if ys == [] {
      assert xs + ys == xs;
    } else {
      var init, y := ys[..|ys| - 1], ys[|ys| - 1];
      assert ys == init + [y] && xs + ys == (xs + init) + [y];
      var t := if KeyLine(y) && valid(parse(Trimmed(y))) then [parse(Trimmed(y))] else [];
      FileKeysStep(xs + init, y, parse, valid);
      FileKeysStep(init, y, parse, valid);
      FileKeysConcat(xs, init, parse, valid);
      SeqAssoc(FileKeys(xs, parse, valid), FileKeys(init, parse, valid), t);
    }
  }

  /** Blank lines, comments and keys that do not parse contribute nothing. */
  lemma {:induction false} FileKeysNone<K>(lines: seq<string>, parse: string -> K, valid: K -> bool)
    requires forall k :: 0 <= k < |lines| ==> !KeyLine(lines[k]) || !valid(parse(Trimmed(lines[k])))
    ensures FileKeys(lines, parse, valid) == []
    decreases |lines|
  {
    if lines != [] {
      FileKeysNone(lines[..|lines| - 1], parse, valid);
    }
  }

  const DEFAULT_HOTKEY_NAMES: seq<string> := ["Control+Alt+v", "Control+Alt+r", "F8", "Shift+F8"]

  /** `defaultHotkeys`. */
  function Defaults<K>(parse: string -> K): (keys: seq<K>)
    ensures |keys| == 4
    ensures forall k :: 0 <= k < 4 ==> keys[k] == parse(DEFAULT_HOTKEY_NAMES[k])
  {
    [parse("Control+Alt+v"), parse("Control+Alt+r"), parse("F8"), parse("Shift+F8")]
  }

  /**
   * The toggle keys: the valid keys of the hotkey file, or the defaults when
   * there is no file (`None`: no configuration path, or the file does not
   * open) or when it yields no valid key.
   */
  function Hotkeys<K>(file: Option<string>, parse: string -> K, valid: K -> bool): (keys: seq<K>)
    ensures keys != []
    ensures file.None? ==> keys == Defaults(parse)
  {
    if file.None? then Defaults(parse)
    else
      var keys := FileKeys(GetLines(file.value), parse, valid);
      if keys == [] then Defaults(parse) else keys
  }

  /** A hotkey file without a valid key line leaves the defaults in force. */
  lemma {:induction false} NoKeysFallBack<K>(content: string, parse: string -> K, valid: K -> bool)
    requires forall k :: 0 <= k < |GetLines(content)| ==>
      !KeyLine(GetLines(content)[k]) || !valid(parse(Trimmed(GetLines(content)[k])))
    ensures Hotkeys(Some(content), parse, valid) == Defaults(parse)
  {
    FileKeysNone(GetLines(content), parse, valid);
  }

  /** When the file has valid keys they replace the defaults, all of them valid. */
  lemma {:induction false} FileKeysWin<K>(content: string, parse: string -> K, valid: K -> bool)
    requires FileKeys(GetLines(content), parse, valid) != []
    ensures Hotkeys(Some(content), parse, valid) == FileKeys(GetLines(content), parse, valid)
    ensures forall k :: 0 <= k < |Hotkeys(Some(content), parse, valid)| ==> valid(Hotkeys(Some(content), parse, valid)[k])
  {
  }

  /** The lines of a hotkey file whose last line has no newline. */
  lemma {:induction false} ExampleLines()
    ensures GetLines("# toggles\n" + "  F8 \n" + "\n" + "Control+space") == ["# toggles", "  F8 ", "", "Control+space"]
  {
    var lines := ["# toggles", "  F8 ", ""];
    assert NoNewline("# toggles") && NoNewline("  F8 ") && NoNewline("Control+space");
    FrameUnique(lines, "Control+space");
    assert Terminated(lines[2..]) == "\n";
    assert Terminated(lines[1..]) == "  F8 \n" + "\n";
    assert Terminated(lines) == "# toggles\n" + "  F8 \n" + "\n";
  }

  /** A comment line and a blank line are not key lines. */
  lemma {:induction false} ExampleSkipped()
    ensures !KeyLine("# toggles") && !KeyLine("")
  {
    TrimmedPadded([], "# toggles", []);
    assert [] + "# toggles" + [] == "# toggles";
  }

  /** A padded key line holds its key once trimmed. */
  lemma {:induction false} ExamplePadded()
    ensures KeyLine("  F8 ") && Trimmed("  F8 ") == "F8"
  {
    TrimmedPadded("  ", "F8", " ");
    assert "  " + "F8" + " " == "  F8 ";
  }

  lemma {:induction false} ExamplePlain()
    ensures KeyLine("Control+space") && Trimmed("Control+space") == "Control+space"
  {
    TrimmedPadded([], "Control+space", []);
    assert [] + "Control+space" + [] == "Control+space";
  }

  /** A comment, a padded key, a blank line and an unterminated last key: the two keys, in file order. */
  lemma {:induction false} HotkeyFileExample<K>(parse: string -> K, valid: K -> bool)
    requires valid(parse("F8")) && valid(parse("Control+space"))
    ensures Hotkeys(Some("# toggles\n" + "  F8 \n" + "\n" + "Control+space"), parse, valid) == [parse("F8"), parse("Control+space")]
  {
    ExampleLines();
    ExampleKeys(parse, valid);
  }

  lemma {:induction false} FileKeysStep<K>(lines: seq<string>, line: string, parse: string -> K, valid: K -> bool)
    ensures FileKeys(lines + [line], parse, valid)
      == FileKeys(lines, parse, valid) + (if KeyLine(line) && valid(parse(Trimmed(line))) then [parse(Trimmed(line))] else [])
  {
    assert (lines + [line])[..|lines|] == lines;
  }

  lemma {:induction false} ExampleKeys<K>(parse: string -> K, valid: K -> bool)
    requires valid(parse("F8")) && valid(parse("Control+space"))
    ensures FileKeys(["# toggles", "  F8 ", "", "Control+space"], parse, valid) == [parse("F8"), parse("Control+space")]
  {
    ExampleKeysBefore(parse, valid);
    ExamplePlain();
    SnocLines("# toggles", "  F8 ", "", "Control+space");
    FileKeysStep(["# toggles", "  F8 ", ""], "Control+space", parse, valid);
  }

  lemma {:induction false} ExampleKeysBefore<K>(parse: string -> K, valid: K -> bool)
    requires valid(parse("F8"))
    ensures FileKeys(["# toggles", "  F8 ", ""], parse, valid) == [parse("F8")]
  {
    ExampleSkipped();
    ExamplePadded();
    SnocLines("# toggles", "  F8 ", "", "Control+space");
    assert FileKeys(["# toggles"], parse, valid) == [] by {
      FileKeysStep([], "# toggles", parse, valid);
    }
    assert FileKeys(["# toggles", "  F8 "], parse, valid) == [parse("F8")] by {
      FileKeysStep(["# toggles"], "  F8 ", parse, valid);
    }
    FileKeysStep(["# toggles", "  F8 "], "", parse, valid);
  }

  lemma {:induction false} SnocLines(a: string, b: string, c: string, d: string)
    ensures [] + [a] == [a] && [a] + [b] == [a, b] && [a, b] + [c] == [a, b, c] && [a, b, c] + [d] == [a, b, c, d]
  {
  }

  /** `loadHotkeys`: reads the file line by line, keeping each valid key; falls back to the defaults. */
  method LoadHotkeys<K>(file: Option<string>, parse: string -> K, valid: K -> bool) returns (keys: seq<K>)
    ensures keys == Hotkeys(file, parse, valid)
  {
    var defaults := [parse("Control+Alt+v"), parse("Control+Alt+r"), parse("F8"), parse("Shift+F8")];
    if file.None? {
      return defaults;
    }
    var lines := GetLines(file.value);
    keys := [];
    var i := 0;
    while i < |lines|
      invariant 0 <= i <= |lines|
      invariant keys == FileKeys(lines[..i], parse, valid)
    {
      var line := Trim(lines[i]);
      assert lines[..i + 1][..i] == lines[..i];
      i := i + 1;
      if line == [] || line[0] == '#' {
        continue;
      }
      var key := parse(line);
      if valid(key) {
        keys := keys + [key];
      }
    }
    assert lines[..i] == lines;
    if keys == [] {
      return defaults;
    }
  }

  /** The add-on engine's state: the active input context, the pending commit bytes, and its loaded keys. */
  class AddonEngine<K(==)> {
    var activeIC: Option<nat>
    var pending: string
    const toggleKeys: seq<K>
    /** The key `Shift+F8`, checked before the toggle keys. */
    const commandKey: K
    /** The texts committed so far, each with the input context it went to. */
    var committed: seq<(nat, string)>
    /** The lines written to the daemon's command FIFO so far. */
    var sent: seq<string>

    /** The constructor's hotkey loading; the FIFO set-up is not modelled. */
    constructor (file: Option<string>, parse: string -> K, valid: K -> bool)
      ensures toggleKeys == Hotkeys(file, parse, valid) && commandKey == parse("Shift+F8")
      ensures activeIC == None && pending == [] && committed == [] && sent == []
    {
      var keys := LoadHotkeys(file, parse, valid);
      toggleKeys := keys;
      commandKey := parse("Shift+F8");
      activeIC := None;
      pending := [];
      committed := [];
      sent := [];
    }

    /** `activate`: the context becomes the active one. */
    method Activate(ic: nat)
      modifies this
      ensures activeIC == Some(ic)
      ensures pending == old(pending) && committed == old(committed) && sent == old(sent)
    {
      activeIC := Some(ic);
    }

    /** `deactivate`: forgets the active context only if it is the one deactivated. */
    method Deactivate(ic: nat)
      modifies this
      ensures old(activeIC) == Some(ic) ==> activeIC == None
      ensures old(activeIC) != Some(ic) ==> activeIC == old(activeIC)
      ensures pending == old(pending) && committed == old(committed) && sent == old(sent)
    {
      if activeIC == Some(ic) {
        activeIC := None;
      }
    }

    /** `sendCommand`: the line reaches the daemon only when its command FIFO opens for writing. */
    method SendCommand(cmd: string, fifoReady: bool)
      modifies this
      ensures sent == old(sent) + (if fifoReady then [cmd] else [])
      ensures activeIC == old(activeIC) && pending == old(pending) && committed == old(committed)
    {
      if !fifoReady {
        return;
      }
      sent := sent + [cmd];
    }

    /**
     * `keyEvent` on a normalised key: releases are ignored; a press makes
     * its context the active one, then `Shift+F8` sends `command` and a
     * toggle key sends `toggle`, either being accepted. Other keys pass
     * through.
     */
    method KeyEvent(release: bool, key: K, ic: nat, fifoReady: bool) returns (accepted: bool)
      modifies this
      ensures release ==> !accepted && activeIC == old(activeIC) && sent == old(sent)
      ensures !release ==> activeIC == Some(ic)
      ensures !release && key == commandKey ==>
        accepted && sent == old(sent) + (if fifoReady then ["command\n"] else [])
      ensures !release && key != commandKey && key in toggleKeys ==>
        accepted && sent == old(sent) + (if fifoReady then ["toggle\n"] else [])
      ensures !release && key != commandKey && key !in toggleKeys ==> !accepted && sent == old(sent)
      ensures pending == old(pending) && committed == old(committed)
    {
      accepted := false;
      if release {
        return;
      }
      activeIC := Some(ic);
      if key == commandKey {
        SendCommand("command\n", fifoReady);
        accepted := true;
        return;
      }
      if key in toggleKeys {
        SendCommand("toggle\n", fifoReady);
        accepted := true;
      }
    }

    /** `commitLine`: commits a non-empty text to the active context, if any. */
    method CommitLine(text: string)
      modifies this
      ensures committed == old(committed) + (if text != [] && activeIC.Some? then [(activeIC.value, text)] else [])
      ensures activeIC == old(activeIC) && pending == old(pending) && sent == old(sent)
    {
      if text == [] {
        return;
      }
      var ic := activeIC;
      if ic.None? {
        return;
      }
      committed := committed + [(ic.value, text)];
    }

    /**
     * `onCommitReadable`: appends every chunk read from the commit FIFO to
     * the pending bytes, then commits each complete line, keeping the
     * unterminated rest pending.
     */
    method OnCommitReadable(chunks: seq<string>)
      modifies this
      ensures var f := Frame(old(pending) + Concat(chunks));
        pending == f.1 && committed == old(committed) + Commits(activeIC, f.0)
      ensures activeIC == old(activeIC) && sent == old(sent)
    {
      ReadChunks(chunks);
      CommitPending();
    }

    /** The read loop: every chunk is appended to the pending bytes, in order. */
    method ReadChunks(chunks: seq<string>)
      modifies this
      ensures pending == old(pending) + Concat(chunks)
      ensures activeIC == old(activeIC) && committed == old(committed) && sent == old(sent)
    {
      var i := 0;
      while i < |chunks|
        invariant 0 <= i <= |chunks|
        invariant pending + Concat(chunks[i..]) == old(pending) + Concat(chunks)
        invariant activeIC == old(activeIC) && committed == old(committed) && sent == old(sent)
      {
        assert Concat(chunks[i..]) == chunks[i] + Concat(chunks[i + 1..]);
        pending := pending + chunks[i];
        i := i + 1;
      }
      assert chunks[i..] == [] && Concat(chunks[i..]) == [];
    }

    /** The framing loop: each complete pending line is cut off, chomped and committed. */
    method CommitPending()
      modifies this
      ensures var f := Frame(old(pending));
        pending == f.1 && committed == old(committed) + Commits(activeIC, f.0)
      ensures activeIC == old(activeIC) && sent == old(sent)
    {
      var buf := pending;
      ghost var done: seq<string> := [];
      assert done + Frame(buf).0 == Frame(buf).0;
      while '\n' in buf
        invariant Frame(old(pending)) == (done + Frame(buf).0, Frame(buf).1)
        invariant committed == old(committed) + Commits(activeIC, done)
        invariant activeIC == old(activeIC) && sent == old(sent)
        decreases |buf|
      {
        var line;
        line, buf := CommitFirst(buf);
        ghost var later := Frame(buf).0;
        SnocAssoc(done, line, later);
        CommitsSnoc(activeIC, done, line);
        done := done + [line];
      }
      assert NewlineAt(buf) == |buf|;
      assert done + [] == done;
      pending := buf;
    }

    /** One turn of the framing loop: the first line is cut off at its newline and its chomped text committed. */
    method CommitFirst(buf: string) returns (line: string, rest: string)
      requires '\n' in buf
      modifies this
      ensures |rest| < |buf|
      ensures Frame(buf) == ([line] + Frame(rest).0, Frame(rest).1)
      ensures committed == old(committed) + (if Chomp(line) != [] && activeIC.Some? then [(activeIC.value, Chomp(line))] else [])
      ensures activeIC == old(activeIC) && pending == old(pending) && sent == old(sent)
    {
      var pos := NewlineAt(buf);
      FrameStep(buf, pos);
      line := buf[..pos];
      rest := buf[pos + 1..];
      var text := line;
      if text != [] && text[|text| - 1] == '\r' {
        text := text[..|text| - 1];
      }
      CommitLine(text);
    }
  }

  lemma {:induction false} CommitsSnoc(ic: Option<nat>, done: seq<string>, line: string)
    ensures Commits(ic, done + [line])
      == Commits(ic, done) + (if Chomp(line) != [] && ic.Some? then [(ic.value, Chomp(line))] else [])
  {
    assert (done + [line])[..|done + [line]| - 1] == done;
  }

  lemma {:induction false} SnocAssoc(done: seq<string>, line: string, later: seq<string>)
    ensures (done + [line])[..|done + [line]| - 1] == done
    ensures done + ([line] + later) == (done + [line]) + later
  {
  }

  lemma {:induction false} FrameStep(buf: string, pos: nat)
    requires '\n' in buf && pos == NewlineAt(buf)
    ensures pos < |buf|
    ensures Frame(buf) == ([buf[..pos]] + Frame(buf[pos + 1..]).0, Frame(buf[pos + 1..]).1)
  {
    NewlineFound(buf);
    FrameUnfold(buf);
  }

  lemma {:induction false} FrameUnfold(buf: string)
    requires NewlineAt(buf) < |buf|
    ensures Frame(buf).0 == [buf[..NewlineAt(buf)]] + Frame(buf[NewlineAt(buf) + 1..]).0
    ensures Frame(buf).1 == Frame(buf[NewlineAt(buf) + 1..]).1
  {
  }

  /** A buffer holding a newline has its first newline inside it. */
  lemma {:induction false} NewlineFound(buf: string)
    requires '\n' in buf
    ensures NewlineAt(buf) < |buf|
  {
    var i :| 0 <= i < |buf| && buf[i] == '\n';
    assert NewlineAt(buf) <= i;
  }

  /**
   * Splitting the commit stream between two readiness events does not change
   * what is committed: the second event picks up the first one's pending
   * rest, so the commits and the pending rest are those of one event that
   * read everything.
   */
  lemma {:induction false} SplitReadsCommitSame(ic: Option<nat>, pending: string, a: string, b: string)
    ensures var first := Frame(pending + a);
      var second := Frame(first.1 + b);
      Commits(ic, first.0) + Commits(ic, second.0) == Commits(ic, Frame(pending + a + b).0)
      && second.1 == Frame(pending + a + b).1
  {
    var first := Frame(pending + a);
    var second := Frame(first.1 + b);
    FrameAcrossReads(pending + a, b);
    CommitsConcat(ic, first.0, second.0);
  }
}
