/**
 * Configuration normalisation shared by the daemon (`load_user_config`,
 * `apply_config`) and the settings panel (`to_bool`, `load_config`,
 * `load_hotkeys`, `on_provider_change`, the checks of `on_save`).
 *
 * JSON values are modelled by `Value`; reading a file is replaced by its
 * outcome (`Raw`), and the conversions Python leaves to `float()` on a
 * string and to `str()` on floats and containers are parameters.
 */
module Config {
  import opened PyText
  import opened Postprocess

  /** A value `json.load` can produce; arrays and objects only matter by their size. */
  datatype Value =
    | VBool(b: bool)
    | VInt(i: int)
    | VFloat(f: real)
    | VStr(s: string)
    | VNone
    | VCollection(size: nat)

  /** Python's `bool(v)`. */
  predicate Truthy(v: Value)
  {
    match v
    case VBool(b) => b
    case VInt(i) => i != 0
    case VFloat(f) => f != 0.0
    case VStr(s) => s != []
    case VNone => false
    case VCollection(n) => n > 0
  }

  /** Python's `cfg.get(key, default)`. */
  function Get(cfg: map<string, Value>, key: string, default: Value): (v: Value)
    ensures key !in cfg ==> v == default
  {
    if key in cfg then cfg[key] else default
  }

  /** `{"1", "true", "yes", "on"}`. */
  predicate IsTrueWord(w: string)
  {
    w == "1" || w == "true" || w == "yes" || w == "on"
  }

  /** `{"0", "false", "no", "off"}`. */
  predicate IsFalseWord(w: string)
  {
    w == "0" || w == "false" || w == "no" || w == "off"
  }

  /**
   * `to_bool(value, default)`, the same in the settings panel and inside
   * `apply_config`: booleans as they are, numbers by truthiness, the listed
   * words after stripping and lower-casing, anything else the default.
   */
  function ToBool(v: Value, default: Value): (r: Value)
  {
    match v
    case VBool(_) => v
    case VInt(_) => VBool(Truthy(v))
    case VFloat(_) => VBool(Truthy(v))
    case VStr(s) => FromWord(Lower(Strip(s)), default)
    case _ => default
  }

  /** The boolean a stripped, lower-cased word names, or the default. */
  function FromWord(w: string, default: Value): (r: Value)
  {
    if IsTrueWord(w) then VBool(true)
    else if IsFalseWord(w) then VBool(false)
    else default
  }

  /** The result is a boolean or the default, and never anything else. */
  lemma {:induction false} ToBoolShape(v: Value, default: Value)
    ensures var r := ToBool(v, default);
      (r.VBool? || r == default)
      && (v.VBool? ==> r == v)
      && (v.VInt? || v.VFloat? ==> r == VBool(Truthy(v)))
      && (v.VNone? || v.VCollection? ==> r == default)
  {
  }

  /** A string names a boolean when, stripped and lower-cased, it is one of the listed words. */
  lemma {:induction false} ToBoolWord(pre: string, word: string, post: string, default: Value)
    requires AllSpace(pre) && AllSpace(post)
    requires word != [] && !IsSpace(word[0]) && !IsSpace(word[|word| - 1])
    ensures ToBool(VStr(pre + word + post), default) == FromWord(Lower(word), default)
  {
    StripPadded(pre, word, post);
  }

  /** The cases of the settings panel's `to_bool` test, one lemma per spelling. */
  lemma {:induction false} ToBoolPlainValues()
    ensures ToBool(VBool(true), VBool(false)) == VBool(true)
    ensures ToBool(VBool(false), VBool(true)) == VBool(false)
    ensures ToBool(VInt(1), VBool(false)) == VBool(true)
    ensures ToBool(VInt(0), VBool(true)) == VBool(false)
  {
  }

  lemma {:induction false} ToBoolYes()
    ensures ToBool(VStr("yes"), VBool(false)) == VBool(true)
  {
    LowerEach("yes", "yes");
    ToBoolWord("", "yes", "", VBool(false));
    assert "" + "yes" + "" == "yes";
  }

  lemma {:induction false} ToBoolNo()
    ensures ToBool(VStr("No"), VBool(true)) == VBool(false)
  {
    LowerEach("No", "no");
    ToBoolWord("", "No", "", VBool(true));
    assert "" + "No" + "" == "No";
  }

  lemma {:induction false} ToBoolPaddedTrue()
    ensures ToBool(VStr("  " + "true" + "  "), VBool(false)) == VBool(true)
  {
    ToBoolWord("  ", "true", "  ", VBool(false));
    TrueWord();
  }

  lemma {:induction false} TrueWord()
    ensures FromWord(Lower("true"), VBool(false)) == VBool(true)
  {
    LowerEach("true", "true");
  }

  lemma {:induction false} ToBoolUnknown()
    ensures ToBool(VStr("unknown"), VStr("fallback")) == VStr("fallback")
  {
    LowerEach("unknown", "unknown");
    ToBoolWord("", "unknown", "", VStr("fallback"));
    assert "" + "unknown" + "" == "unknown";
  }

  /** `to_bool(value, default)` with a boolean default, as every caller uses it. */
  function ToFlag(v: Value, default: bool): (b: bool)
    ensures v.VBool? ==> b == v.b
    ensures !v.VBool? && !v.VInt? && !v.VFloat? && !v.VStr? ==> b == default
  {
    ToBool(v, VBool(default)).b
  }

  /* ---------------- reading a configuration file ---------------- */

  /** What reading `config.json` gave: an unreadable or malformed file, a non-object, or an object. */
  datatype Raw = Unreadable | NotADict | Dict(entries: map<string, Value>)

  /** The keys of a dictionary literal, in order. */
  function Keys(pairs: seq<(string, Value)>): (ks: set<string>)
  {
    set p | p in pairs :: p.0
  }

  /** A dictionary literal: later entries win. */
  function ToMap(pairs: seq<(string, Value)>): (m: map<string, Value>)
    ensures m.Keys == Keys(pairs)
  {
    if pairs == [] then map[]
    else
      var init := pairs[..|pairs| - 1];
      assert Keys(pairs) == Keys(init) + {pairs[|pairs| - 1].0} by {
        assert pairs == init + [pairs[|pairs| - 1]];
      }
      ToMap(init)[pairs[|pairs| - 1].0 := pairs[|pairs| - 1].1]
  }

  /** The defaults with the value of every key the raw object also has replaced by that value. */
  function Merged(defaults: map<string, Value>, raw: map<string, Value>): (cfg: map<string, Value>)
  {
    map k | k in defaults :: if k in raw then raw[k] else defaults[k]
  }

  /** Exactly the known keys, each from the file when the file has it; unknown keys of the file are dropped. */
  lemma {:induction false} MergedKnownOnly(defaults: map<string, Value>, raw: map<string, Value>)
    ensures var cfg := Merged(defaults, raw);
      cfg.Keys == defaults.Keys
      && (forall k :: k in cfg && k in raw ==> cfg[k] == raw[k])
      && (forall k :: k in cfg && k !in raw ==> cfg[k] == defaults[k])
  {
  }

  lemma {:induction false} KeysPrefix(pairs: seq<(string, Value)>, i: nat)
    requires i < |pairs|
    ensures Keys(pairs[..i + 1]) == Keys(pairs[..i]) + {pairs[i].0}
  {
    assert pairs[..i + 1] == pairs[..i] + [pairs[i]];
  }

  /**
   * `cfg = dict(DEFAULT_CONFIG)` followed by `for key in cfg: if key in raw:
   * cfg[key] = raw[key]`.
   */
  method MergeKnown(defaults: seq<(string, Value)>, raw: map<string, Value>) returns (cfg: map<string, Value>)
    ensures cfg == Merged(ToMap(defaults), raw)
  {
    var base := ToMap(defaults);
    cfg := base;
    var i := 0;
    assert defaults[..0] == [];
    while i < |defaults|
      invariant 0 <= i <= |defaults|
      invariant MergedOver(cfg, base, raw, Keys(defaults[..i]))
    {
      var key := defaults[i].0;
      KeysPrefix(defaults, i);
      MergeStep(cfg, base, raw, Keys(defaults[..i]), key);
      if key in raw {
        cfg := cfg[key := raw[key]];
      }
      i := i + 1;
    }
    assert defaults[..i] == defaults;
    MergedOverAll(cfg, base, raw);
  }

  /** `cfg` is `base` with the keys in `done` taken from `raw` where it has them. */
  predicate MergedOver(cfg: map<string, Value>, base: map<string, Value>, raw: map<string, Value>, done: set<string>)
  {
    cfg.Keys == base.Keys
    && forall k :: k in cfg ==> cfg[k] == if k in done && k in raw then raw[k] else base[k]
  }

  lemma {:induction false} MergeStep(cfg: map<string, Value>, base: map<string, Value>, raw: map<string, Value>, done: set<string>, key: string)
    requires MergedOver(cfg, base, raw, done) && key in base
    ensures MergedOver(if key in raw then cfg[key := raw[key]] else cfg, base, raw, done + {key})
  {
  }

  lemma {:induction false} MergedOverAll(cfg: map<string, Value>, base: map<string, Value>, raw: map<string, Value>)
    requires MergedOver(cfg, base, raw, base.Keys)
    ensures cfg == Merged(base, raw)
  {
  }

  /** The daemon's `DEFAULT_CONFIG`. */
  const DAEMON_DEFAULTS: seq<(string, Value)> := [
    ("backend", VStr("google")),
    ("language", VStr("zh-TW")),
    ("force_traditional", VBool(true)),
    ("input_device", VStr("auto")),
    ("auto_start_listening", VBool(true)),
    ("process_on_stop", VBool(true)),
    ("local_model", VStr("small")),
    ("local_device", VStr("auto")),
    ("local_compute_type", VStr("auto")),
    ("postprocess_mode", VStr("command")),
    ("postprocess_provider", VStr("copilot")),
    ("postprocess_program", VStr("copilot")),
    ("postprocess_args", VStr("-s --model gpt-5-mini -p \"請快速處理以下語音辨識結果：轉成繁體中文、補上自然標點與斷句、整理成短段落；不要新增內容，不要解釋，只回傳結果：{text}\" --allow-all")),
    ("postprocess_timeout_sec", VInt(12)),
    ("enable_filler_filter", VBool(true)),
    ("enable_self_correction", VBool(true))
  ]

  /** A dictionary literal written as its keys and, separately, their values. */
  function Zip(ks: seq<string>, vs: seq<Value>): (pairs: seq<(string, Value)>)
    requires |ks| == |vs|
    ensures Names(pairs) == ks
    ensures |pairs| == |ks| && forall i :: 0 <= i < |ks| ==> pairs[i] == (ks[i], vs[i])
  {
    var pairs := seq(|ks|, i requires 0 <= i < |ks| => (ks[i], vs[i]));
    assert Names(pairs) == ks;
    pairs
  }

  /** The keys of the settings panel's `DEFAULT_CONFIG`, in order; `on_save` writes the same keys. */
  const PANEL_KEYS: seq<string> := [
    "backend", "language", "force_traditional", "process_on_stop", "local_model", "local_device",
    "local_compute_type", "postprocess_mode", "postprocess_provider", "postprocess_program",
    "postprocess_args", "postprocess_timeout_sec", "auto_apply_on_save"
  ]

  /** The settings panel's `DEFAULT_CONFIG`. */
  const PANEL_DEFAULTS: seq<(string, Value)> := Zip(PANEL_KEYS, [
    VStr("google"),
    VStr("zh-TW"),
    VBool(true),
    VBool(true),
    VStr("small"),
    VStr("auto"),
    VStr("auto"),
    VStr("command"),
    VStr("copilot"),
    VStr("copilot"),
    VStr("-s --model gpt-5-mini -p \"請將以下語音辨識結果改寫為繁體中文，補上自然標點、斷句與段落；不要新增內容，只回傳結果：{text}\" --allow-all"),
    VInt(12),
    VBool(true)
  ])

  /** What `load_user_config` returns for a given file outcome. */
  function UserConfig(raw: Raw): (cfg: map<string, Value>)
  {
    if raw.Dict? then Merged(ToMap(DAEMON_DEFAULTS), raw.entries) else ToMap(DAEMON_DEFAULTS)
  }

  /** `load_user_config(path)`: the defaults, overridden by the known keys of a readable JSON object. */
  method LoadUserConfig(raw: Raw) returns (cfg: map<string, Value>)
    ensures cfg == UserConfig(raw)
  {
    cfg := ToMap(DAEMON_DEFAULTS);
    if !raw.Dict? {
      return;
    }
    cfg := MergeKnown(DAEMON_DEFAULTS, raw.entries);
  }

  /** What the settings panel's `load_config` returns for a given file outcome. */
  function PanelConfig(raw: Raw): (cfg: map<string, Value>)
  {
    if raw.Dict? then Merged(ToMap(PANEL_DEFAULTS), raw.entries) else ToMap(PANEL_DEFAULTS)
  }

  /** The settings panel's `load_config()`. */
  method LoadConfig(raw: Raw) returns (cfg: map<string, Value>)
    ensures cfg == PanelConfig(raw)
  {
    cfg := ToMap(PANEL_DEFAULTS);
    if raw.Dict? {
      cfg := MergeKnown(PANEL_DEFAULTS, raw.entries);
    }
  }

  /** Whatever the file holds, a loaded configuration has exactly the default keys. */
  lemma {:induction false} LoadedKeys(raw: Raw)
    ensures UserConfig(raw).Keys == Keys(DAEMON_DEFAULTS)
    ensures PanelConfig(raw).Keys == Keys(PANEL_DEFAULTS)
  {
  }

  /** A missing file gives the defaults themselves. */
  lemma {:induction false} MissingFileGivesDefaults()
    ensures PanelConfig(Unreadable) == ToMap(PANEL_DEFAULTS)
    ensures UserConfig(Unreadable) == ToMap(DAEMON_DEFAULTS)
    ensures "postprocess_mode" in PanelConfig(Unreadable)
  {
    assert PANEL_DEFAULTS[7].0 == "postprocess_mode";
  }

  /* ---------------- apply_config ---------------- */

  /** The command-line options `apply_config` fills in; `None` is an option not given. */
  datatype Args = Args(
    backend: Option<string>,
    language: Option<string>,
    forceTraditional: Option<bool>,
    device: Option<string>,
    processOnStop: Option<bool>,
    localModel: Option<string>,
    localDevice: Option<string>,
    localComputeType: Option<string>,
    postprocessMode: Option<string>,
    postprocessProgram: Option<string>,
    postprocessArgs: Option<string>,
    postprocessTimeout: Option<real>,
    enableContextMemory: Option<bool>,
    contextLength: Option<int>)

  /** The options once `apply_config` has run. */
  datatype Settings = Settings(
    backend: string,
    language: string,
    forceTraditional: bool,
    device: Option<string>,
    processOnStop: bool,
    localModel: string,
    localDevice: string,
    localComputeType: string,
    postprocessMode: string,
    postprocessProgram: string,
    postprocessArgs: string,
    postprocessTimeout: real,
    enableContextMemory: bool,
    contextLength: int)

  const BACKENDS: set<string> := {"google", "local"}
  const MODES: set<string> := {"none", "heuristic", "command", "smart"}

  /** Python's `str(v)`; floats and containers are rendered by `repr`. */
  function Str(v: Value, repr: Value -> string): (s: string)
    ensures v.VStr? ==> s == v.s
  {
    match v
    case VStr(s) => s
    case VBool(b) => if b then "True" else "False"
    case VInt(i) => IntToString(i)
    case VNone => "None"
    case _ => repr(v)
  }

  /** Python's `float(v)`; `None` where it raises. Strings are parsed by `parseFloat`. */
  function PyFloat(v: Value, parseFloat: string -> Option<real>): (r: Option<real>)
    ensures v.VInt? ==> r == Some(v.i as real)
    ensures v.VFloat? ==> r == Some(v.f)
    ensures v.VNone? || v.VCollection? ==> r == None
  {
    match v
    case VBool(b) => Some(if b then 1.0 else 0.0)
    case VInt(i) => Some(i as real)
    case VFloat(f) => Some(f)
    case VStr(s) => parseFloat(s)
    case _ => None
  }

  predicate AllDigits(s: string)
  {
    forall i :: 0 <= i < |s| ==> '0' <= s[i] <= '9'
  }

  /** `int(s)` on a string: optional surrounding white space, an optional sign, decimal digits. */
  function ParseInt(s: string): (r: Option<int>)
    ensures var t := Strip(s); t != [] && AllDigits(t) ==> r == Some(DecimalValue(t))
    ensures Strip(s) == [] ==> r == None
  {
    var t := Strip(s);
    if t == [] then None
    else if t[0] == '-' || t[0] == '+' then
      var d := t[1..];
      if d != [] && AllDigits(d) then Some(if t[0] == '-' then -DecimalValue(d) else DecimalValue(d)) else None
    else if AllDigits(t) then Some(DecimalValue(t))
    else None
  }

  /** Python's `int(v)`; floats truncate toward zero; `None` where it raises. */
  function PyInt(v: Value): (r: Option<int>)
    ensures v.VInt? ==> r == Some(v.i)
    ensures v.VFloat? ==> r.Some? && (v.f >= 0.0 ==> r.value == v.f.Floor)
    ensures v.VNone? || v.VCollection? ==> r == None
  {
    match v
    case VBool(b) => Some(if b then 1 else 0)
    case VInt(i) => Some(i)
    case VFloat(f) => Some(if f >= 0.0 then f.Floor else -((-f).Floor))
    case VStr(s) => ParseInt(s)
    case _ => None
  }

  /** `max(1, min(10, cl))`. */
  function ClampContextLength(cl: int): (n: int)
    ensures 1 <= n <= 10
    ensures 1 <= cl <= 10 ==> n == cl
    ensures cl < 1 ==> n == 1
    ensures cl > 10 ==> n == 10
  {
    if cl < 1 then 1 else if cl > 10 then 10 else cl
  }

  /** The value of an option: the command line wins, otherwise the configuration. */
  function Pick<T>(given: Option<T>, fromConfig: T): (r: T)
    ensures given.Some? ==> r == given.value
    ensures given.None? ==> r == fromConfig
  {
    if given.Some? then given.value else fromConfig
  }

  /** `str(cfg.get(key, default))`. */
  function StrOf(cfg: map<string, Value>, key: string, default: string, repr: Value -> string): (s: string)
    ensures key !in cfg ==> s == default
  {
    Str(Get(cfg, key, VStr(default)), repr)
  }

  /** The backend: the option or the lower-cased configured name, then `google` unless known. */
  function ChosenBackend(given: Option<string>, cfg: map<string, Value>, repr: Value -> string): (b: string)
    ensures b in BACKENDS
    ensures given.Some? && given.value in BACKENDS ==> b == given.value
    ensures given.Some? && given.value !in BACKENDS ==> b == "google"
    ensures given.None? && "backend" !in cfg ==> b == "google"
  {
    var name := Pick(given, Lower(StrOf(cfg, "backend", "google", repr)));
    LowerEach("google", "google");
    if name in BACKENDS then name else "google"
  }

  /** The post-processing mode: the option or the lower-cased configured mode, then `heuristic` unless known. */
  function ChosenMode(given: Option<string>, cfg: map<string, Value>, repr: Value -> string): (m: string)
    ensures m in MODES
    ensures given.Some? && given.value in MODES ==> m == given.value
    ensures given.Some? && given.value !in MODES ==> m == "heuristic"
    ensures given.None? && "postprocess_mode" !in cfg ==> m == "heuristic"
  {
    var name := Pick(given, Lower(StrOf(cfg, "postprocess_mode", "heuristic", repr)));
    LowerEach("heuristic", "heuristic");
    if name in MODES then name else "heuristic"
  }

  /** `max(1.0, float(timeout))`, or 12.0 when `float` raises. */
  function ChosenTimeout(given: Option<real>, cfg: map<string, Value>, parseFloat: string -> Option<real>): (t: real)
    ensures given.Some? ==> t == given.value
    ensures given.None? ==> t >= 1.0
    ensures given.None? && "postprocess_timeout_sec" !in cfg ==> t == 12.0
  {
    if given.Some? then given.value
    else
      var f := PyFloat(Get(cfg, "postprocess_timeout_sec", VInt(12)), parseFloat);
      if f.None? then 12.0 else if f.value < 1.0 then 1.0 else f.value
  }

  /** `max(1, min(10, int(...)))` with 5 when `int` raises; a length given on the command line is kept as it is. */
  function ChosenContextLength(given: Option<int>, cfg: map<string, Value>): (n: int)
    ensures given.Some? ==> n == given.value
    ensures given.None? ==> 1 <= n <= 10
    ensures given.None? && "context_length" !in cfg ==> n == 5
  {
    if given.Some? then given.value
    else
      var c := PyInt(Get(cfg, "context_length", VInt(5)));
      ClampContextLength(if c.Some? then c.value else 5)
  }

  /** The input device: the option, or the stripped configured name unless it is blank or `auto`. */
  function ChosenDevice(given: Option<string>, cfg: map<string, Value>, repr: Value -> string): (d: Option<string>)
    ensures given.Some? ==> d == given
    ensures given.None? && d.Some? ==> d.value != [] && Lower(d.value) != "auto"
  {
    if given.Some? then given
    else
      var name := Strip(StrOf(cfg, "input_device", "auto", repr));
      if name != [] && Lower(name) != "auto" then Some(name) else None
  }

  /**
   * `apply_config(args, cfg)`: every option left unset on the command line
   * comes from the configuration, then the backend and the post-processing
   * mode fall back to their defaults when unknown, and the context length
   * read from the configuration is clamped to 1..10.
   */
  function ApplyConfig(args: Args, cfg: map<string, Value>, repr: Value -> string,
                       parseFloat: string -> Option<real>): (s: Settings)
    ensures s.backend in BACKENDS && s.postprocessMode in MODES
    ensures args.postprocessTimeout.None? ==> s.postprocessTimeout >= 1.0
    ensures args.contextLength.None? ==> 1 <= s.contextLength <= 10
    ensures args.contextLength.Some? ==> s.contextLength == args.contextLength.value
    ensures args.enableContextMemory.Some? ==> s.enableContextMemory == args.enableContextMemory.value
    ensures args.processOnStop.Some? ==> s.processOnStop == args.processOnStop.value
    ensures args.language.Some? ==> s.language == args.language.value
    ensures args.postprocessProgram.Some? ==> s.postprocessProgram == args.postprocessProgram.value
  {
    Settings(
      backend := ChosenBackend(args.backend, cfg, repr),
      language := Pick(args.language, StrOf(cfg, "language", "zh-TW", repr)),
      forceTraditional := Pick(args.forceTraditional, ToFlag(Get(cfg, "force_traditional", VBool(true)), true)),
      device := ChosenDevice(args.device, cfg, repr),
      processOnStop := Pick(args.processOnStop, ToFlag(Get(cfg, "process_on_stop", VBool(true)), true)),
      localModel := Pick(args.localModel, StrOf(cfg, "local_model", "small", repr)),
      localDevice := Pick(args.localDevice, StrOf(cfg, "local_device", "auto", repr)),
      localComputeType := Pick(args.localComputeType, StrOf(cfg, "local_compute_type", "auto", repr)),
      postprocessMode := ChosenMode(args.postprocessMode, cfg, repr),
      postprocessProgram := Pick(args.postprocessProgram, StrOf(cfg, "postprocess_program", "", repr)),
      postprocessArgs := Pick(args.postprocessArgs, StrOf(cfg, "postprocess_args", "", repr)),
      postprocessTimeout := ChosenTimeout(args.postprocessTimeout, cfg, parseFloat),
      enableContextMemory := Pick(args.enableContextMemory, ToFlag(Get(cfg, "enable_context_memory", VBool(false)), false)),
      contextLength := ChosenContextLength(args.contextLength, cfg))
  }

  /** An option given on the command line is never overridden by the file. */
  lemma {:induction false} CommandLineWins(args: Args, cfg: map<string, Value>, cfg2: map<string, Value>, repr: Value -> string,
                        parseFloat: string -> Option<real>)
    requires args.backend.Some? && args.language.Some? && args.forceTraditional.Some? && args.device.Some?
    requires args.processOnStop.Some? && args.localModel.Some? && args.localDevice.Some?
    requires args.localComputeType.Some? && args.postprocessMode.Some? && args.postprocessProgram.Some?
    requires args.postprocessArgs.Some? && args.postprocessTimeout.Some?
    requires args.enableContextMemory.Some? && args.contextLength.Some?
    ensures ApplyConfig(args, cfg, repr, parseFloat) == ApplyConfig(args, cfg2, repr, parseFloat)
  {
  }

  /**
   * An option left off the command line takes the configured value as it is
   * when the file gives a string (or, for the switches, a boolean), and the
   * built-in default when the key is missing.
   */
  lemma {:induction false} OmittedFromConfig(args: Args, cfg: map<string, Value>, repr: Value -> string,
                                             parseFloat: string -> Option<real>)
    ensures var s := ApplyConfig(args, cfg, repr, parseFloat);
      (args.language.None? && "language" in cfg && cfg["language"].VStr? ==> s.language == cfg["language"].s)
      && (args.language.None? && "language" !in cfg ==> s.language == "zh-TW")
      && (args.localModel.None? && "local_model" in cfg && cfg["local_model"].VStr? ==> s.localModel == cfg["local_model"].s)
      && (args.localModel.None? && "local_model" !in cfg ==> s.localModel == "small")
      && (args.postprocessProgram.None? && "postprocess_program" in cfg && cfg["postprocess_program"].VStr? ==>
            s.postprocessProgram == cfg["postprocess_program"].s)
      && (args.postprocessProgram.None? && "postprocess_program" !in cfg ==> s.postprocessProgram == [])
      && (args.postprocessArgs.None? && "postprocess_args" in cfg && cfg["postprocess_args"].VStr? ==>
            s.postprocessArgs == cfg["postprocess_args"].s)
      && (args.forceTraditional.None? && "force_traditional" in cfg && cfg["force_traditional"].VBool? ==>
            s.forceTraditional == cfg["force_traditional"].b)
      && (args.forceTraditional.None? && "force_traditional" !in cfg ==> s.forceTraditional)
      && (args.processOnStop.None? && "process_on_stop" in cfg && cfg["process_on_stop"].VBool? ==>
            s.processOnStop == cfg["process_on_stop"].b)
      && (args.processOnStop.None? && "process_on_stop" !in cfg ==> s.processOnStop)
      && (args.enableContextMemory.None? && "enable_context_memory" in cfg && cfg["enable_context_memory"].VBool? ==>
            s.enableContextMemory == cfg["enable_context_memory"].b)
      && (args.enableContextMemory.None? && "enable_context_memory" !in cfg ==> !s.enableContextMemory)
  {
  }

  /** Options neither given nor configured take the built-in fallbacks. */
  lemma {:induction false} EmptyConfigFallbacks(args: Args, repr: Value -> string, parseFloat: string -> Option<real>)
    requires args == Args(None, None, None, None, None, None, None, None, None, None, None, None, None, None)
    ensures var s := ApplyConfig(args, map[], repr, parseFloat);
      s.backend == "google" && s.language == "zh-TW" && s.forceTraditional && s.device == None
      && s.processOnStop && s.postprocessMode == "heuristic" && s.postprocessProgram == []
      && s.postprocessTimeout == 12.0 && !s.enableContextMemory && s.contextLength == 5
  {
    LowerEach("auto", "auto");
    StripIdentity("auto");
  }

  /** A name whose length no key has is not a key. */
  lemma {:induction false} AbsentByLength(pairs: seq<(string, Value)>, k: string)
    requires forall i :: 0 <= i < |pairs| ==> |pairs[i].0| != |k|
    ensures k !in Keys(pairs)
  {
  }

  /** Neither context option is a key of the daemon's `DEFAULT_CONFIG`. */
  lemma {:induction false} DaemonDefaultsLackContext()
    ensures "enable_context_memory" !in Keys(DAEMON_DEFAULTS)
    ensures "context_length" !in Keys(DAEMON_DEFAULTS)
  {
    DaemonDefaultsLackFlag();
    DaemonDefaultsLackLength();
  }

  lemma {:induction false} DaemonDefaultsLackFlag()
    ensures "enable_context_memory" !in Keys(DAEMON_DEFAULTS)
  {
    AbsentByLength(DAEMON_DEFAULTS, "enable_context_memory");
  }

  lemma {:induction false} DaemonDefaultsLackLength()
    ensures "context_length" !in Keys(DAEMON_DEFAULTS)
  {
    AbsentByLength(DAEMON_DEFAULTS, "context_length");
  }

  /**
   * As written, `load_user_config` keeps only the keys of `DEFAULT_CONFIG`,
   * which has neither `enable_context_memory` nor `context_length`: whatever
   * the file says, the daemon started without the command-line options runs
   * without context memory and with the default length 5.
   */
  lemma {:induction false} ContextMemoryIgnoredFromFile(raw: Raw, repr: Value -> string, parseFloat: string -> Option<real>, args: Args)
    requires args.enableContextMemory.None? && args.contextLength.None?
    ensures var s := ApplyConfig(args, UserConfig(raw), repr, parseFloat);
      !s.enableContextMemory && s.contextLength == 5
  {
    DaemonDefaultsLackContext();
    var cfg := UserConfig(raw);
    assert "enable_context_memory" !in cfg && "context_length" !in cfg;
    var s := ApplyConfig(args, cfg, repr, parseFloat);
    assert s.enableContextMemory == ToFlag(VBool(false), false);
  }

  /** The defaults the context options were evidently meant to be loaded with. */
  const CONTEXT_DEFAULTS: seq<(string, Value)> := [
    ("enable_context_memory", VBool(false)),
    ("context_length", VInt(5))
  ]

  /** `load_user_config` with the context options among the known keys. */
  function UserConfigIntended(raw: Raw): (cfg: map<string, Value>)
    ensures cfg.Keys == Keys(DAEMON_DEFAULTS + CONTEXT_DEFAULTS)
  {
    if raw.Dict? then Merged(ToMap(DAEMON_DEFAULTS + CONTEXT_DEFAULTS), raw.entries)
    else ToMap(DAEMON_DEFAULTS + CONTEXT_DEFAULTS)
  }

  /** With the corrected key list the file's context options take effect, the length clamped to 1..10. */
  lemma {:induction false} ContextMemoryFromFileIntended(entries: map<string, Value>, repr: Value -> string,
                                      parseFloat: string -> Option<real>, args: Args)
    requires args.enableContextMemory.None? && args.contextLength.None?
    ensures var s := ApplyConfig(args, UserConfigIntended(Dict(entries)), repr, parseFloat);
      ("enable_context_memory" in entries ==> s.enableContextMemory == ToFlag(entries["enable_context_memory"], false))
      && ("context_length" in entries && entries["context_length"].VInt? ==>
            s.contextLength == ClampContextLength(entries["context_length"].i))
  {
    ContextKeysKnown();
  }

  /** The corrected key list has both context options. */
  lemma {:induction false} ContextKeysKnown()
    ensures "enable_context_memory" in Keys(DAEMON_DEFAULTS + CONTEXT_DEFAULTS)
    ensures "context_length" in Keys(DAEMON_DEFAULTS + CONTEXT_DEFAULTS)
  {
    assert ("enable_context_memory", VBool(false)) in DAEMON_DEFAULTS + CONTEXT_DEFAULTS;
    assert ("context_length", VInt(5)) in DAEMON_DEFAULTS + CONTEXT_DEFAULTS;
  }

  /* ---------------- settings panel ---------------- */

  /** `DEFAULT_HOTKEYS`. */
  const DEFAULT_HOTKEYS: seq<string> := ["Control+Alt+v", "Control+Alt+r", "F8", "Shift+F8"]

  /** A stripped hotkey line that names a key: neither blank nor a `#` comment. */
  predicate IsKeyLine(t: string)
  {
    t != [] && t[0] != '#'
  }

  /** `[l.strip() for l in lines]` filtered by `IsKeyLine`, in order. */
  function KeyLines(lines: seq<string>): (keys: seq<string>)
    ensures |keys| <= |lines|
    ensures forall k :: 0 <= k < |keys| ==> IsKeyLine(keys[k]) && keys[k] == Strip(keys[k])
  {
    if lines == [] then []
    else
      var t := Strip(lines[0]);
      if IsKeyLine(t) then
        StripIdentity(t);
        [t] + KeyLines(lines[1..])
      else KeyLines(lines[1..])
  }

  /** Filtering respects file order: the keys of two blocks of lines are the keys of each, in turn. */
  lemma {:induction false} KeyLinesConcat(a: seq<string>, b: seq<string>)
    ensures KeyLines(a + b) == KeyLines(a) + KeyLines(b)
    decreases |a|
  {
    if a == [] {
      assert a + b == b;
    } else {
      assert (a + b)[0] == a[0];
      assert (a + b)[1..] == a[1..] + b;
      KeyLinesConcat(a[1..], b);
    }
  }

  /** A line is kept exactly when its stripped form names a key. */
  lemma {:induction false} KeyLinesSingle(line: string)
    ensures IsKeyLine(Strip(line)) ==> KeyLines([line]) == [Strip(line)]
    ensures !IsKeyLine(Strip(line)) ==> KeyLines([line]) == []
  {
    assert [line][1..] == [];
  }

  /**
   * `load_hotkeys()`: the key lines of the hotkey file, or `DEFAULT_HOTKEYS`
   * when the file cannot be read (`None`) or has no key line.
   */
  function PanelHotkeys(file: Option<string>): (keys: seq<string>)
    ensures keys != []
    ensures file.None? ==> keys == DEFAULT_HOTKEYS
    ensures file.Some? && KeyLines(SplitLines(file.value)) != [] ==> keys == KeyLines(SplitLines(file.value))
    ensures file.Some? && KeyLines(SplitLines(file.value)) == [] ==> keys == DEFAULT_HOTKEYS
  {
    if file.Some? && KeyLines(SplitLines(file.value)) != [] then KeyLines(SplitLines(file.value))
    else DEFAULT_HOTKEYS
  }

  /** `PROVIDER_PRESETS`: the program and the argument template of each provider. */
  function ProviderPreset(provider: string): (r: Option<(string, string)>)
    ensures provider == "custom" ==> r == Some(("", ""))
    ensures r.Some? && provider != "custom" ==> r.value.0 != [] && Contains(r.value.1, PLACEHOLDER)
  {
    if provider == "custom" then Some(("", ""))
    else if provider == "copilot" then
      Some(("copilot", Around("-s --model gpt-5-mini -p \"請將以下語音辨識結果改寫為繁體中文，補上自然標點、斷句與段落；不要新增內容，只回傳結果：",
                              "\" --allow-all")))
    else if provider == "gemini" then
      Some(("gemini", Around("--output-format text -p 請幫以下語句加入自然中文標點與斷句，只回傳處理後文字：", "")))
    else if provider == "claude-code" then
      Some(("claude", Around("-p --output-format text --permission-mode dontAsk 請幫以下語句加入自然中文標點與斷句，只回傳處理後文字：", "")))
    else None
  }

  /** An argument template: the text before and after the placeholder. */
  function Around(before: string, after: string): (a: string)
    ensures Contains(a, PLACEHOLDER)
  {
    var a := before + PLACEHOLDER + after;
    assert OccursAt(a, PLACEHOLDER, |before|) by {
      assert a[|before|..|before| + |PLACEHOLDER|] == PLACEHOLDER;
    }
    a
  }

  /** The post-processing fields of the settings form. */
  datatype PostFields = PostFields(mode: string, program: string, args: string)

  /**
   * `on_provider_change`: a preset provider fills in its program and
   * arguments and turns the mode `none` into `command`; `custom` and unknown
   * providers change nothing.
   */
  function OnProviderChange(provider: string, f: PostFields): (g: PostFields)
    ensures Strip(provider) == "custom" || ProviderPreset(Strip(provider)).None? ==> g == f
    ensures Strip(provider) != "custom" && ProviderPreset(Strip(provider)).Some? ==>
      g.program == ProviderPreset(Strip(provider)).value.0
      && g.args == ProviderPreset(Strip(provider)).value.1
      && Contains(g.args, PLACEHOLDER)
      && (f.mode == "none" ==> g.mode == "command")
      && (f.mode != "none" ==> g.mode == f.mode)
  {
    var p := Strip(provider);
    var preset := ProviderPreset(p);
    if preset.None? || p == "custom" then f
    else PostFields(if f.mode == "none" then "command" else f.mode, preset.value.0, preset.value.1)
  }

  /** The settings form as `on_save` reads it. */
  datatype Form = Form(
    backend: string,
    language: string,
    forceTraditional: bool,
    processOnStop: bool,
    localModel: string,
    localDevice: string,
    localComputeType: string,
    mode: string,
    provider: string,
    program: string,
    args: string,
    timeout: string,
    hotkeyText: string,
    autoApply: bool)

  /** The configuration `on_save` writes, field by field. */
  datatype PanelSettings = PanelSettings(
    backend: string,
    language: string,
    forceTraditional: bool,
    processOnStop: bool,
    localModel: string,
    localDevice: string,
    localComputeType: string,
    mode: string,
    provider: string,
    program: string,
    args: string,
    timeout: real,
    autoApply: bool)

  /** What pressing save does: an error dialog, or the configuration and hotkeys to write. */
  datatype SaveResult = Refused(message: string) | Saved(cfg: PanelSettings, hotkeys: seq<string>)

  /**
   * `field.get().strip() or default`: a field with visible text is kept
   * without its surrounding whitespace, and stripping it again changes
   * nothing; a blank field gives the default.
   */
  function OrDefault(s: string, default: string): (r: string)
    ensures r == if Strip(s) != [] then Strip(s) else default
    ensures AllSpace(s) ==> r == default
    ensures !AllSpace(s) ==> r != [] && !IsSpace(r[0]) && !IsSpace(r[|r| - 1]) && Strip(r) == r
  {
    if Strip(s) != [] then StripIdentity(Strip(s)); Strip(s) else default
  }

  /** The key names of a dictionary literal, in order: exactly its keys. */
  function Names(pairs: seq<(string, Value)>): (ns: seq<string>)
    ensures |ns| == |pairs|
    ensures forall i :: 0 <= i < |pairs| ==> ns[i] == pairs[i].0
    ensures forall k :: k in ns <==> k in Keys(pairs)
  {
    seq(|pairs|, i requires 0 <= i < |pairs| => pairs[i].0)
  }

  lemma {:induction false} KeysByNames(a: seq<(string, Value)>, b: seq<(string, Value)>)
    requires Names(a) == Names(b)
    ensures Keys(a) == Keys(b)
  {
    forall k | k in Keys(a)
      ensures k in Keys(b)
    {
      var p :| p in a && p.0 == k;
      var i :| 0 <= i < |a| && a[i] == p;
      assert Names(b)[i] == k;
      assert b[i] in b;
    }
    forall k | k in Keys(b)
      ensures k in Keys(a)
    {
      var p :| p in b && p.0 == k;
      var i :| 0 <= i < |b| && b[i] == p;
      assert Names(a)[i] == k;
      assert a[i] in a;
    }
  }

  /** The `new_cfg` literal of `on_save` as JSON key/value pairs, in the order of `DEFAULT_CONFIG`. */
  function SavedPairs(c: PanelSettings): (cfg: seq<(string, Value)>)
    ensures Names(cfg) == PANEL_KEYS
  {
    Zip(PANEL_KEYS, [
      VStr(c.backend), VStr(c.language), VBool(c.forceTraditional), VBool(c.processOnStop),
      VStr(c.localModel), VStr(c.localDevice), VStr(c.localComputeType), VStr(c.mode),
      VStr(c.provider), VStr(c.program), VStr(c.args), VFloat(c.timeout), VBool(c.autoApply)
    ])
  }

  /**
   * The checks and the new configuration of `on_save`: the language must not
   * be blank, at least one key line must remain, and the timeout must parse;
   * an accepted timeout is at least 1.0.
   */
  function OnSave(form: Form, parseFloat: string -> Option<real>): (r: SaveResult)
    ensures Strip(form.language) == [] ==> r == Refused("語言不可空白")
    ensures Strip(form.language) != [] && KeyLines(SplitLines(form.hotkeyText)) == [] ==> r == Refused("至少要一個熱鍵")
    ensures r.Saved? ==>
      && r.hotkeys != [] && r.hotkeys == KeyLines(SplitLines(form.hotkeyText))
      && r.cfg.language == Strip(form.language) && r.cfg.language != []
      && r.cfg.timeout >= 1.0
      && r.cfg.backend == OrDefault(form.backend, "google")
      && r.cfg.mode == OrDefault(form.mode, "heuristic")
      && r.cfg.provider == OrDefault(form.provider, "custom")
      && r.cfg.program == Strip(form.program) && r.cfg.args == Strip(form.args)
  {
    var language := Strip(form.language);
    var hotkeys := KeyLines(SplitLines(form.hotkeyText));
    var t := parseFloat(OrDefault(form.timeout, "12"));
    if language == [] then Refused("語言不可空白")
    else if hotkeys == [] then Refused("至少要一個熱鍵")
    else if t.None? then Refused("逾時秒數格式錯誤")
    else
      Saved(PanelSettings(
        backend := OrDefault(form.backend, "google"),
        language := language,
        forceTraditional := form.forceTraditional,
        processOnStop := form.processOnStop,
        localModel := OrDefault(form.localModel, "small"),
        localDevice := OrDefault(form.localDevice, "auto"),
        localComputeType := OrDefault(form.localComputeType, "auto"),
        mode := OrDefault(form.mode, "heuristic"),
        provider := OrDefault(form.provider, "custom"),
        program := Strip(form.program),
        args := Strip(form.args),
        timeout := if t.value < 1.0 then 1.0 else t.value,
        autoApply := form.autoApply), hotkeys)
  }

  /** A saved configuration is read back by the panel exactly as it was saved. */
  lemma {:induction false} SaveThenLoad(form: Form, parseFloat: string -> Option<real>)
    requires OnSave(form, parseFloat).Saved?
    ensures var saved := ToMap(SavedPairs(OnSave(form, parseFloat).cfg));
      PanelConfig(Dict(saved)) == saved
  {
    var pairs := SavedPairs(OnSave(form, parseFloat).cfg);
    KeysByNames(pairs, PANEL_DEFAULTS);
  }
}
