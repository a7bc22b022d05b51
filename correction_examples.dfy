/**
 * Worked examples of `detect_self_correction`, one per rule, and the one
 * place where the two variants part ways.
 */
module CorrectionExamples {
  import opened PyText
  import opened SelfCorrection

  /** A word none of whose characters occur in `t` occurs nowhere in `t`. */
  lemma {:induction false} Absent(t: string, w: string, i: nat)
    requires i < |w| && w[i] !in t
    ensures forall q: nat :: !At(t, q, w)
  {
    forall q: nat
      ensures !At(t, q, w)
    {
      if q + |w| <= |t| {
        assert t[q..q + |w|][i] == t[q + i];
      }
    }
  }

  /** A rule whose markers all start with characters absent from `t` does not fire. */
  lemma {:induction false} MarkersAbsent(v: Variant, t: string, markers: seq<string>, lazy: bool)
    requires forall k :: 0 <= k < |markers| ==> markers[k] != [] && markers[k][0] !in t
    ensures MarkerRule(v, t, markers, lazy).None?
  {
    forall k | 0 <= k < |markers|
      ensures forall q: nat :: !At(t, q, markers[k])
    {
      Absent(t, markers[k], 0);
    }
    MarkerRuleNeedsMarker(v, t, markers, lazy);
  }

  lemma {:induction false} NoNot(t: string)
    requires '不' !in t
    ensures NotRule(t).None?
  {
    Absent(t, "不是", 0);
    NotRuleNeedsMarker(t);
  }

  lemma {:induction false} OneLineTail(t: string, p: nat)
    requires p < |t| && '\n' !in t
    ensures TailFrom(t, p)
  {
    NoNewlineFromSpec(t, p);
  }

  lemma {:induction false} IMeantDaemon()
    ensures Detect(Daemon, "我是說 明天早上見") == "明天早上見"
  {
    var t := "我是說 明天早上見";
    StripIdentity(t);
    NoNot(t);
    IMeantFires();
  }

  lemma {:induction false} IMeantOneLine()
    ensures SingleLine(Strip("我是說 明天早上見"))
  {
    StripIdentity("我是說 明天早上見");
  }

  /** "I mean": everything after 我是說 and the whitespace, in both variants. */
  lemma {:induction false} IMeantExample()
    ensures Detect(Daemon, "我是說 明天早上見") == "明天早上見"
    ensures Detect(Helper, "我是說 明天早上見") == "明天早上見"
  {
    IMeantDaemon();
    IMeantOneLine();
    VariantsAgreeOnOneLine("我是說 明天早上見");
  }

  lemma {:induction false} IMeantFires()
    ensures MarkerRule(Daemon, "我是說 明天早上見", I_MEANT, false) == Some("明天早上見")
  {
    var t := "我是說 明天早上見";
    assert t[0..3] == "我是說";
    assert MarkerAt(t, 0, I_MEANT) == Some(3);
    assert SpacesEnd(t, 3) == 4;
    OneLineTail(t, 4);
    assert FirstMarker(Daemon, t, 0, I_MEANT, false) == Some((0, 4));
    assert t[4..] == "明天早上見";
    StripIdentity(t[4..]);
  }

  const NOT_BUT := "我不是要去吃飯 而是要去睡覺"

  lemma {:induction false} NotButRuns()
    ensures SpacesEnd(NOT_BUT, 3) == 3 && ARunEnd(NOT_BUT, 3) == 8
    ensures MarkerEnd(NOT_BUT, 8) == Some(10) && SpacesEnd(NOT_BUT, 10) == 10
  {
  }

  lemma {:induction false} NotButTail()
    ensures NotTail(NOT_BUT, 1) == Some(10)
  {
    var t := NOT_BUT;
    assert t[1..3] == "不是";
    NotButRuns();
    OneLineTail(t, 10);
  }

  lemma {:induction false} NotButSearch()
    ensures FirstNot(NOT_BUT, 0) == Some((1, 10))
  {
    var t := NOT_BUT;
    assert t[0..2][0] == '我';
    NotButTail();
  }

  lemma {:induction false} NotButPieces()
    ensures Trimmed(NOT_BUT) && LineStart(NOT_BUT, 1) == 0
    ensures NOT_BUT[0..1] == "我" && NOT_BUT[10..] == "要去睡覺"
  {
  }

  lemma {:induction false} NotButRule()
    ensures NotRule(NOT_BUT) == Some("我要去睡覺")
  {
    NotButSearch();
    NotButPieces();
    NotRuleForm(NOT_BUT, 1, 10);
    StripIdentity("我");
    NotButJoin();
  }

  lemma {:induction false} NotButJoin()
    ensures "我" + "要去睡覺" == "我要去睡覺"
  {
  }

  lemma {:induction false} NotButDaemon()
    ensures Detect(Daemon, NOT_BUT) == "我要去睡覺"
  {
    StripIdentity(NOT_BUT);
    NotButRule();
  }

  lemma {:induction false} NotButOneLine()
    ensures SingleLine(Strip(NOT_BUT))
  {
    StripIdentity(NOT_BUT);
  }

  /** "Not A but B": the words before 不是 are kept and B replaces A, in both variants. */
  lemma {:induction false} NotButExample()
    ensures Detect(Daemon, NOT_BUT) == "我要去睡覺"
    ensures Detect(Helper, NOT_BUT) == "我要去睡覺"
  {
    NotButDaemon();
    NotButOneLine();
    VariantsAgreeOnOneLine(NOT_BUT);
  }

  /** The lazy separator class leaves the colon on the corrected text. */
  lemma {:induction false} ShouldBeKeepsColon(v: Variant)
    ensures Detect(v, "應該是：明天") == "：明天"
  {
    var t := "應該是：明天";
    StripIdentity(t);
    NoNot(t);
    ShouldBeNoIMean(v);
    ShouldBeFires(v);
  }

  lemma {:induction false} ShouldBeNoIMean(v: Variant)
    ensures MarkerRule(v, "應該是：明天", I_MEANT, false).None?
  {
    MarkersAbsent(v, "應該是：明天", I_MEANT, false);
  }

  lemma {:induction false} ShouldBeFires(v: Variant)
    ensures MarkerRule(v, "應該是：明天", SHOULD_BE, true) == Some("：明天")
  {
    var t := "應該是：明天";
    assert t[0..3] == "應該是";
    assert MarkerAt(t, 0, SHOULD_BE) == Some(3);
    OneLineTail(t, 3);
    assert FirstMarker(v, t, 0, SHOULD_BE, true) == Some((0, 3));
    assert t[3..] == "：明天";
    StripIdentity(t[3..]);
  }

  lemma {:induction false} WrongExample(v: Variant)
    ensures Detect(v, "不對，明天") == "，明天"
  {
    StripIdentity("不對，明天");
    WrongNoNot();
    WrongNoIMean(v);
    WrongNoShouldBe(v);
    WrongFires(v);
  }

  lemma {:induction false} WrongNoNot()
    ensures NotRule("不對，明天").None?
  {
    Absent("不對，明天", "不是", 1);
    NotRuleNeedsMarker("不對，明天");
  }

  lemma {:induction false} WrongNoIMean(v: Variant)
    ensures MarkerRule(v, "不對，明天", I_MEANT, false).None?
  {
    MarkersAbsent(v, "不對，明天", I_MEANT, false);
  }

  lemma {:induction false} WrongNoShouldBe(v: Variant)
    ensures MarkerRule(v, "不對，明天", SHOULD_BE, true).None?
  {
    MarkersAbsent(v, "不對，明天", SHOULD_BE, true);
  }

  lemma {:induction false} WrongFires(v: Variant)
    ensures MarkerRule(v, "不對，明天", WRONG, true) == Some("，明天")
  {
    var t := "不對，明天";
    assert t[0..2] == "不對";
    assert MarkerAt(t, 0, WRONG) == Some(2);
    OneLineTail(t, 2);
    assert FirstMarker(v, t, 0, WRONG, true) == Some((0, 2));
    assert t[2..] == "，明天";
    StripIdentity(t[2..]);
  }

  const ACROSS := "更正：\n明天"

  lemma {:induction false} AcrossTails()
    ensures !TailFrom(ACROSS, 2) && !TailFrom(ACROSS, 3) && TailFrom(ACROSS, 4)
    ensures MarkerAt(ACROSS, 0, SHOULD_BE) == Some(2)
  {
    var t := ACROSS;
    assert t[0..3] != "應該是" by { assert t[0..3][0] != "應該是"[0]; }
    assert t[0..2] == "更正";
  }

  lemma {:induction false} AcrossCommon(v: Variant)
    ensures Strip(ACROSS) == ACROSS && NotRule(ACROSS).None?
    ensures MarkerRule(v, ACROSS, I_MEANT, false).None?
  {
    StripIdentity(ACROSS);
    NoNot(ACROSS);
    MarkersAbsent(v, ACROSS, I_MEANT, false);
  }

  /** The daemon's separator run takes the line break and the corrected text is the next line. */
  lemma {:induction false} AcrossDaemon()
    ensures Detect(Daemon, ACROSS) == "明天"
  {
    var t := ACROSS;
    AcrossCommon(Daemon);
    AcrossTails();
    assert LazyTail(Daemon, t, 2) == Some(4);
    assert FirstMarker(Daemon, t, 0, SHOULD_BE, true) == Some((0, 4));
    assert t[4..] == "明天";
    StripIdentity(t[4..]);
  }

  /** 更正 appears only at the very start of the text. */
  lemma {:induction false} AcrossOneMarker()
    ensures forall q: nat :: 1 <= q ==> MarkerAt(ACROSS, q, SHOULD_BE).None?
  {
    var t := ACROSS;
    Absent(t, "應該是", 0);
    forall q: nat | 1 <= q
      ensures MarkerAt(t, q, SHOULD_BE).None?
    {
      if q + 2 <= |t| {
        assert t[q..q + 2][0] == t[q];
      }
    }
  }

  /** The helper's separator class has no line break, so no rule matches and the text comes back whole. */
  lemma {:induction false} AcrossHelper()
    ensures Detect(Helper, ACROSS) == ACROSS
  {
    AcrossCommon(Helper);
    AcrossHelperNoCorrection();
    AcrossNoWrong(Helper);
  }

  lemma {:induction false} AcrossNoWrong(v: Variant)
    ensures MarkerRule(v, ACROSS, WRONG, true).None?
  {
    MarkersAbsent(v, ACROSS, WRONG, true);
  }

  /** For the helper, 更正 followed by a colon and a line break is no correction marker. */
  lemma {:induction false} AcrossHelperNoCorrection()
    ensures MarkerRule(Helper, ACROSS, SHOULD_BE, true).None?
  {
    var t := ACROSS;
    AcrossTails();
    assert LazyTail(Helper, t, 2) == None;
    AcrossOneMarker();
    FirstMarkerSpec(Helper, t, 0, SHOULD_BE, true);
  }
}
