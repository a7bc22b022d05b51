/**
 * The language table shared by the daemon and the helper module, and the
 * language rotation used by the switch-language command: the daemon's
 * `get_next_language(current)` over its fixed table and the helper's
 * `get_next_language(langs, current)` over any list.
 */
module Languages {
  import opened PyText

  /** Keys of the daemon's language table, in declaration order. */
  const LANGUAGES: seq<string> := ["zh-TW", "en-US", "ja-JP"]

  const CHINESE_FILLERS: seq<string> :=
    ["嗯", "啊", "那個", "這個", "就是", "然後", "對啊", "其實", "說實在", "呃", "欸"]

  const ENGLISH_FILLERS: seq<string> :=
    ["um", "uh", "like", "you know", "well", "so", "actually"]

  const JAPANESE_FILLERS: seq<string> :=
    ["えーと", "あの", "まあ", "その", "えっと"]

  predicate IsKnown(lang: string)
  {
    lang in LANGUAGES
  }

  /** Filler list of a configured language. */
  function FillerWords(lang: string): (ws: seq<string>)
    requires IsKnown(lang)
    ensures ws != [] && forall k :: 0 <= k < |ws| ==> ws[k] != []
  {
    if lang == "zh-TW" then CHINESE_FILLERS
    else if lang == "en-US" then ENGLISH_FILLERS
    else JAPANESE_FILLERS
  }

  /** Each configured language hands its own code to the recognition backend. */
  function BackendLanguage(lang: string): (code: string)
    requires IsKnown(lang)
    ensures code == lang
  {
    if lang == "zh-TW" then "zh-TW"
    else if lang == "en-US" then "en-US"
    else "ja-JP"
  }

  /** Python `xs.index(x)`: the first position holding `x`. */
  function IndexOf(xs: seq<string>, x: string): (r: Option<nat>)
    ensures r.Some? ==> r.value < |xs| && xs[r.value] == x
    ensures r.Some? ==> forall j :: 0 <= j < r.value ==> xs[j] != x
    ensures r.None? <==> x !in xs
  {
    if xs == [] then None
    else if xs[0] == x then Some(0)
    else match IndexOf(xs[1..], x)
      case None => None
      case Some(i) => Some(i + 1)
  }

  /** The helper's `get_next_language(langs, current)`. */
  function NextIn(langs: seq<string>, current: string): (next: string)
    ensures langs == [] ==> next == current
    ensures langs != [] ==> next in langs
    ensures langs != [] && current !in langs ==> next == langs[0]
  {
    if langs == [] then current
    else match IndexOf(langs, current)
      case None => langs[0]
      case Some(i) => langs[(i + 1) % |langs|]
  }

  /**
   * The helper's `switch_language(current, langs)`: one press of the hotkey
   * moves to the entry after the first occurrence of the current language,
   * wrapping around at the end of the list.
   */
  function SwitchLanguage(current: string, langs: seq<string>): (next: string)
    ensures next == NextIn(langs, current)
    ensures langs == [] ==> next == current
    ensures langs != [] ==> next in langs
    ensures langs != [] && current !in langs ==> next == langs[0]
    ensures forall i :: 0 <= i < |langs| && langs[i] == current && current !in langs[..i] ==>
      next == langs[(i + 1) % |langs|]
  {
    FirstIndex(langs, current);
    NextIn(langs, current)
  }

  /** The position `list.index` reports is the first one holding the value. */
  lemma {:induction false} FirstIndex(xs: seq<string>, x: string)
    ensures forall i :: 0 <= i < |xs| && xs[i] == x && x !in xs[..i] ==> IndexOf(xs, x) == Some(i)
  {
    forall i | 0 <= i < |xs| && xs[i] == x && x !in xs[..i]
      ensures IndexOf(xs, x) == Some(i)
    {
      assert x in xs;
    }
  }

  /** The daemon's `get_next_language(current)`: falls back to the first language. */
  function DaemonNextLanguage(current: string): (next: string)
    ensures next in LANGUAGES
    ensures current !in LANGUAGES ==> next == "zh-TW"
  {
    if current == "" || current !in LANGUAGES then LANGUAGES[0]
    else
      var i := IndexOf(LANGUAGES, current).value;
      LANGUAGES[(i + 1) % |LANGUAGES|]
  }

  /** The daemon's rotation is the helper's rotation over the daemon's table. */
  lemma {:induction false} DaemonNextAgrees(current: string)
    ensures DaemonNextLanguage(current) == NextIn(LANGUAGES, current)
  {
  }

  /** zh-TW, en-US and ja-JP follow each other in a cycle. */
  lemma {:induction false} DaemonCycle()
    ensures DaemonNextLanguage("zh-TW") == "en-US"
    ensures DaemonNextLanguage("en-US") == "ja-JP"
    ensures DaemonNextLanguage("ja-JP") == "zh-TW"
  {
    assert IndexOf(LANGUAGES, "en-US") == Some(1);
    assert IndexOf(LANGUAGES, "ja-JP") == Some(2);
  }

  predicate Distinct(xs: seq<string>)
  {
    forall i, j :: 0 <= i < j < |xs| ==> xs[i] != xs[j]
  }

  /** `k` presses of the switch-language hotkey. */
  function SwitchTimes(current: string, langs: seq<string>, k: nat): string
  {
    if k == 0 then current else SwitchLanguage(SwitchTimes(current, langs, k - 1), langs)
  }

  lemma {:induction false} IndexOfDistinct(xs: seq<string>, i: nat)
    requires Distinct(xs) && i < |xs|
    ensures IndexOf(xs, xs[i]) == Some(i)
  {
  }

  /** Position after `i` in a cycle of length `n`. */
  function Succ(i: nat, n: nat): (j: nat)
    requires i < n
    ensures j < n && j == (i + 1) % n
  {
    if i + 1 == n then 0 else i + 1
  }

  /** Position `k` steps after `i` in a cycle of length `n`. */
  function Advance(i: nat, k: nat, n: nat): (j: nat)
    requires i < n
    ensures j < n
  {
    if k == 0 then i else Succ(Advance(i, k - 1, n), n)
  }

  /** Within one lap, advancing is adding and wrapping once. */
  lemma {:induction false} AdvanceWithinLap(i: nat, k: nat, n: nat)
    requires i < n && k <= n
    ensures Advance(i, k, n) == if i + k < n then i + k else i + k - n
  {
    if k > 0 {
      AdvanceWithinLap(i, k - 1, n);
    }
  }

  /** From the i-th language of a list without repeats, k presses reach position Advance(i, k). */
  lemma {:induction false} SwitchTimesIndex(langs: seq<string>, i: nat, k: nat)
    requires Distinct(langs) && i < |langs|
    ensures SwitchTimes(langs[i], langs, k) == langs[Advance(i, k, |langs|)]
  {
    if k > 0 {
      SwitchTimesIndex(langs, i, k - 1);
      IndexOfDistinct(langs, Advance(i, k - 1, |langs|));
    }
  }

  /** Pressing the hotkey once per listed language comes back to the start. */
  lemma {:induction false} SwitchFullCycle(langs: seq<string>, current: string)
    requires Distinct(langs) && current in langs
    ensures SwitchTimes(current, langs, |langs|) == current
  {
    var i := IndexOf(langs, current).value;
    SwitchTimesIndex(langs, i, |langs|);
    AdvanceWithinLap(i, |langs|, |langs|);
  }

  /** From zh-TW, five presses visit en-US, ja-JP, zh-TW, en-US, ja-JP. */
  lemma {:induction false} FivePresses()
    ensures SwitchTimes("zh-TW", LANGUAGES, 1) == "en-US"
    ensures SwitchTimes("zh-TW", LANGUAGES, 2) == "ja-JP"
    ensures SwitchTimes("zh-TW", LANGUAGES, 3) == "zh-TW"
    ensures SwitchTimes("zh-TW", LANGUAGES, 4) == "en-US"
    ensures SwitchTimes("zh-TW", LANGUAGES, 5) == "ja-JP"
  {
    DaemonCycle();
    DaemonNextAgrees("zh-TW");
    DaemonNextAgrees("en-US");
    DaemonNextAgrees("ja-JP");
    assert SwitchTimes("zh-TW", LANGUAGES, 1) == "en-US";
    assert SwitchTimes("zh-TW", LANGUAGES, 2) == "ja-JP";
    assert SwitchTimes("zh-TW", LANGUAGES, 3) == "zh-TW";
    assert SwitchTimes("zh-TW", LANGUAGES, 4) == "en-US";
  }

  /** An unknown current language goes to the first listed one. */
  lemma {:induction false} UnknownGoesFirst()
    ensures NextIn(LANGUAGES, "ko-KR") == "zh-TW"
    ensures DaemonNextLanguage("") == "zh-TW"
  {
  }
}
