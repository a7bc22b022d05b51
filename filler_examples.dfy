/**
 * The filler filters on short concrete inputs: the scan positions where a
 * filler matches, and what the passes leave.
 */
module FillerExamples {
  import opened PyText
  import opened Languages
  import opened Fillers

  lemma {:induction false} MatchesInNaEnGe()
    ensures MatchLen(Literal(CHINESE_FILLERS), "那嗯個", 0) == 0
    ensures MatchLen(Literal(CHINESE_FILLERS), "那嗯個", 1) == 1
    ensures MatchLen(Literal(CHINESE_FILLERS), "那嗯個", 2) == 0
    ensures MatchLen(Literal(CHINESE_FILLERS), "那個", 0) == 2
  {
  }

  /** Words without whitespace are in normal form. */
  lemma {:induction false} NormalizeSpaceFree(s: string)
    requires forall k :: 0 <= k < |s| ==> !IsSpace(s[k])
    ensures Normalize(s) == s
  {
    NormalizeFixed(s);
  }

  lemma {:induction false} NormalizeNaGe()
    ensures Normalize("那個") == "那個"
  {
    var a := "那個";
    assert !IsSpace(a[0]) && !IsSpace(a[1]);
    NormalizeSpaceFree(a);
  }

  lemma {:induction false} NormalizeAlso()
    ensures Normalize("also") == "also"
  {
    var b := "also";
    assert !IsSpace(b[0]) && !IsSpace(b[1]) && !IsSpace(b[2]) && !IsSpace(b[3]);
    NormalizeSpaceFree(b);
  }

  lemma {:induction false} NormalizeAl()
    ensures Normalize("al") == "al"
  {
    var b := "al";
    assert !IsSpace(b[0]) && !IsSpace(b[1]);
    NormalizeSpaceFree(b);
  }

  lemma {:induction false} ChinesePassNaEnGe()
    ensures Delete(Literal(CHINESE_FILLERS), "那嗯個") == "那個"
    ensures Delete(Literal(CHINESE_FILLERS), "那個") == ""
  {
    MatchesInNaEnGe();
  }

  /** Removing 嗯 from 那嗯個 leaves the filler 那個: a second pass removes more. */
  lemma {:induction false} NotIdempotent()
    ensures FilterFillerWords("那嗯個", Some("zh-TW")) == "那個"
    ensures FilterFillerWords("那個", Some("zh-TW")) == ""
  {
    ChinesePassNaEnGe();
    NormalizeNaGe();
    assert Normalize("") == "";
    assert FillerWords("zh-TW") == CHINESE_FILLERS;
    assert DaemonTokenPass("那嗯個", Some("zh-TW")) == "那個";
    assert DaemonTokenPass("那個", Some("zh-TW")) == "";
  }

  lemma {:induction false} ChineseMatchesInAlso()
    ensures MatchLen(Literal(CHINESE_FILLERS), "also", 0) == 0
    ensures MatchLen(Literal(CHINESE_FILLERS), "also", 1) == 0
    ensures MatchLen(Literal(CHINESE_FILLERS), "also", 2) == 0
    ensures MatchLen(Literal(CHINESE_FILLERS), "also", 3) == 0
  {
  }

  lemma {:induction false} EscapedMatchesInAlso()
    ensures MatchLen(EscapedLookaround(ENGLISH_FILLERS), "also", 0) == 0
    ensures MatchLen(EscapedLookaround(ENGLISH_FILLERS), "also", 1) == 0
    ensures MatchLen(EscapedLookaround(ENGLISH_FILLERS), "also", 2) == 2
  {
  }

  lemma {:induction false} BoundedMatchesInAlso()
    ensures MatchLen(WordBounded(ENGLISH_FILLERS), "also", 0) == 0
    ensures MatchLen(WordBounded(ENGLISH_FILLERS), "also", 1) == 0
    ensures MatchLen(WordBounded(ENGLISH_FILLERS), "also", 2) == 0
    ensures MatchLen(WordBounded(ENGLISH_FILLERS), "also", 3) == 0
  {
  }

  lemma {:induction false} ChinesePassKeepsAlso()
    ensures Delete(Literal(CHINESE_FILLERS), "also") == "also"
  {
    ChineseMatchesInAlso();
    DeleteNoMatch(Literal(CHINESE_FILLERS), "also");
  }

  /** As written, the helper deletes "so" from the middle of "also". */
  lemma {:induction false} HelperDeletesInsideWords()
    ensures HelperFilterFillerWords("also") == "al"
  {
    ChinesePassKeepsAlso();
    EscapedMatchesInAlso();
    assert Delete(EscapedLookaround(ENGLISH_FILLERS), "also") == "al";
    NormalizeAl();
  }

  /** With word boundaries, "also" is left alone. */
  lemma {:induction false} IntendedKeepsWords()
    ensures HelperFilterIntended("also") == "also"
  {
    ChinesePassKeepsAlso();
    BoundedMatchesInAlso();
    DeleteNoMatch(WordBounded(ENGLISH_FILLERS), "also");
    NormalizeAlso();
  }

  lemma {:induction false} MatchesInUmYouKnow()
    ensures MatchLen(EscapedLookaround(ENGLISH_FILLERS), "Um, you KNOW", 0) == 2
    ensures MatchLen(EscapedLookaround(ENGLISH_FILLERS), "Um, you KNOW", 2) == 0
    ensures MatchLen(EscapedLookaround(ENGLISH_FILLERS), "Um, you KNOW", 3) == 0
    ensures MatchLen(EscapedLookaround(ENGLISH_FILLERS), "Um, you KNOW", 4) == 8
  {
    UmMatches();
    CommaSpaceNoMatch();
    YouKnowMatches();
  }

  lemma {:induction false} UmMatches()
    ensures MatchLen(EscapedLookaround(ENGLISH_FILLERS), "Um, you KNOW", 0) == 2
  {
  }

  lemma {:induction false} CommaSpaceNoMatch()
    ensures MatchLen(EscapedLookaround(ENGLISH_FILLERS), "Um, you KNOW", 2) == 0
    ensures MatchLen(EscapedLookaround(ENGLISH_FILLERS), "Um, you KNOW", 3) == 0
  {
  }

  lemma {:induction false} YouKnowMatches()
    ensures MatchLen(EscapedLookaround(ENGLISH_FILLERS), "Um, you KNOW", 4) == 8
  {
  }

  /** English fillers match regardless of case, "you know" included. */
  lemma {:induction false} HelperEnglishCaseInsensitive()
    ensures Delete(EscapedLookaround(ENGLISH_FILLERS), "Um, you KNOW") == ", "
  {
    MatchesInUmYouKnow();
  }

  /* ---------------- the two sentences of the language-specific filler test ---------------- */

  const CHINESE_INITIALS: set<char> := {'嗯', '啊', '那', '這', '就', '然', '對', '其', '說', '呃', '欸'}
  const ENGLISH_INITIALS: set<char> := {'u', 'l', 'y', 'w', 's', 'a'}

  lemma {:induction false} Initials()
    ensures InitialsIn(Literal(CHINESE_FILLERS), CHINESE_INITIALS)
    ensures InitialsIn(EscapedLookaround(ENGLISH_FILLERS), ENGLISH_INITIALS)
  {
  }

  /** The test's Chinese sentence, cut around its two fillers 嗯 and 然後. */
  const ZH_WORDS := "我今天 去 超市 買 了 蘋果"
  const ZH_HEAD := " " + ZH_WORDS + " "
  const ZH_TAIL := " 回家"
  const ZH_SENTENCE := "嗯" + ZH_HEAD + "然後" + ZH_TAIL
  const ZH_AFTER_PASS := ZH_HEAD + ZH_TAIL

  lemma {:induction false} ZhSentenceMatches()
    ensures MatchLen(Literal(CHINESE_FILLERS), ZH_SENTENCE, 0) == 1
    ensures MatchLen(Literal(CHINESE_FILLERS), ZH_SENTENCE, 18) == 2
  {
  }

  lemma {:induction false} ZhWordsNoInitial()
    ensures NoInitialIn(CHINESE_INITIALS, ZH_WORDS)
    ensures NoInitialIn(ENGLISH_INITIALS, ZH_WORDS)
  {
  }

  lemma {:induction false} ZhPiecesNoInitial()
    ensures NoInitialIn(CHINESE_INITIALS, ZH_HEAD) && NoInitialIn(CHINESE_INITIALS, ZH_TAIL)
    ensures NoInitialIn(ENGLISH_INITIALS, ZH_HEAD) && NoInitialIn(ENGLISH_INITIALS, ZH_TAIL)
  {
    ZhWordsNoInitial();
    assert NoInitialIn(CHINESE_INITIALS, " ") && NoInitialIn(ENGLISH_INITIALS, " ");
    NoInitialAppend(CHINESE_INITIALS, " ", ZH_WORDS);
    NoInitialAppend(CHINESE_INITIALS, " " + ZH_WORDS, " ");
    NoInitialAppend(ENGLISH_INITIALS, " ", ZH_WORDS);
    NoInitialAppend(ENGLISH_INITIALS, " " + ZH_WORDS, " ");
  }

  lemma {:induction false} ZhPiecesAt()
    ensures |ZH_HEAD| == 17 && ZH_SENTENCE[1..18] == ZH_HEAD && ZH_SENTENCE[20..23] == ZH_TAIL
  {
  }

  lemma {:induction false} ZhKeptHead()
    ensures DeleteFrom(Literal(CHINESE_FILLERS), ZH_SENTENCE, 1) == ZH_HEAD + DeleteFrom(Literal(CHINESE_FILLERS), ZH_SENTENCE, 18)
  {
    Initials();
    ZhPiecesNoInitial();
    ZhPiecesAt();
    KeepsPiece(Literal(CHINESE_FILLERS), CHINESE_INITIALS, ZH_SENTENCE, 1, ZH_HEAD);
  }

  lemma {:induction false} ZhKeptTail()
    ensures DeleteFrom(Literal(CHINESE_FILLERS), ZH_SENTENCE, 20) == ZH_TAIL
  {
    Initials();
    ZhPiecesNoInitial();
    ZhPiecesAt();
    KeepsPiece(Literal(CHINESE_FILLERS), CHINESE_INITIALS, ZH_SENTENCE, 20, ZH_TAIL);
  }

  /** The Chinese pass removes 嗯 and 然後 and nothing else. */
  lemma {:induction false} ZhSentenceChinesePass()
    ensures Delete(Literal(CHINESE_FILLERS), ZH_SENTENCE) == ZH_AFTER_PASS
  {
    ZhSentenceMatches();
    ZhKeptHead();
    ZhKeptTail();
  }

  lemma {:induction false} ZhHeadOverEnglish()
    ensures DeleteFrom(EscapedLookaround(ENGLISH_FILLERS), ZH_AFTER_PASS, 0)
      == ZH_HEAD + DeleteFrom(EscapedLookaround(ENGLISH_FILLERS), ZH_AFTER_PASS, |ZH_HEAD|)
  {
    Initials();
    ZhPiecesNoInitial();
    KeepsPiece(EscapedLookaround(ENGLISH_FILLERS), ENGLISH_INITIALS, ZH_AFTER_PASS, 0, ZH_HEAD);
  }

  lemma {:induction false} ZhTailOverEnglish()
    ensures DeleteFrom(EscapedLookaround(ENGLISH_FILLERS), ZH_AFTER_PASS, |ZH_HEAD|) == ZH_TAIL
  {
    Initials();
    ZhPiecesNoInitial();
    KeepsPiece(EscapedLookaround(ENGLISH_FILLERS), ENGLISH_INITIALS, ZH_AFTER_PASS, |ZH_HEAD|, ZH_TAIL);
  }

  /** The English pass finds nothing in Chinese text. */
  lemma {:induction false} ZhSentenceEnglishPass()
    ensures Delete(EscapedLookaround(ENGLISH_FILLERS), ZH_AFTER_PASS) == ZH_AFTER_PASS
  {
    ZhHeadOverEnglish();
    ZhTailOverEnglish();
  }

  lemma {:induction false} ZhSimple()
    ensures SimpleText(" ") && SimpleText(ZH_WORDS) && SimpleText(ZH_TAIL)
  {
  }

  lemma {:induction false} ZhWordsSpacing()
    ensures NoDoubleSpace(" " + ZH_WORDS) && OnlyPlainSpaces(" " + ZH_WORDS)
  {
    ZhSimple();
    SimpleTextAppend(" ", ZH_WORDS);
    SimpleTextLayout(" " + ZH_WORDS);
  }

  lemma {:induction false} ZhTailCollapse()
    ensures CollapseSpaces("  回家") == ZH_TAIL
  {
    assert LeadSpaces("  回家") == 2;
    assert "  回家"[2..] == "回家";
    CollapseFixed("回家");
  }

  /** The doubled space left where 然後 was collapses to one. */
  lemma {:induction false} ZhCollapse()
    ensures CollapseSpaces(ZH_AFTER_PASS) == " " + ZH_WORDS + ZH_TAIL
  {
    var a := " " + ZH_WORDS;
    assert ZH_AFTER_PASS == a + "  回家";
    CollapseAppend(a, "  回家");
    ZhWordsSpacing();
    CollapseFixed(a);
    ZhTailCollapse();
  }

  lemma {:induction false} ZhNoPunct()
    ensures NoSpaceBeforePunct(" " + ZH_WORDS + ZH_TAIL)
  {
    ZhSimple();
    SimpleTextAppend(" ", ZH_WORDS);
    SimpleTextAppend(" " + ZH_WORDS, ZH_TAIL);
    SimpleTextLayout(" " + ZH_WORDS + ZH_TAIL);
    assert ',' !in " " + ZH_WORDS + ZH_TAIL;
  }

  /** Nothing stands before punctuation. */
  lemma {:induction false} ZhDrop()
    ensures DropSpaceBeforePunct(" " + ZH_WORDS + ZH_TAIL) == " " + ZH_WORDS + ZH_TAIL
  {
    ZhNoPunct();
    DropSpaceFixed(" " + ZH_WORDS + ZH_TAIL);
  }

  lemma {:induction false} ZhJoined()
    ensures ZH_WORDS + ZH_TAIL == "我今天 去 超市 買 了 蘋果 回家"
  {
  }

  /** The leading space goes. */
  lemma {:induction false} ZhStrip()
    ensures Strip(" " + ZH_WORDS + ZH_TAIL) == "我今天 去 超市 買 了 蘋果 回家"
  {
    assert " " + ZH_WORDS + ZH_TAIL == " " + (ZH_WORDS + ZH_TAIL) + "";
    ZhJoined();
    StripPadded(" ", ZH_WORDS + ZH_TAIL, "");
  }

  /**
   * The helper's filter on the test's Chinese sentence: 嗯 and 然後 go,
   * 我今天 stays, and the spacing is normalised.
   */
  lemma {:induction false} HelperChineseSentence()
    ensures HelperFilterFillerWords("嗯 我今天 去 超市 買 了 蘋果 然後 回家") == "我今天 去 超市 買 了 蘋果 回家"
  {
    assert ZH_SENTENCE == "嗯 我今天 去 超市 買 了 蘋果 然後 回家";
    ZhSentenceChinesePass();
    ZhSentenceEnglishPass();
    ZhCollapse();
    ZhDrop();
    ZhStrip();
  }

  /** The test's English sentence, cut at its fillers and at the two letters s that begin no filler here. */
  const EN_A := ", I think "
  const EN_B1 := " thi"
  const EN_B2 := " i"
  const EN_B3 := " good, "
  const EN_SENTENCE := "Well" + EN_A + "um" + EN_B1 + "s" + EN_B2 + "s" + EN_B3 + "you know"
  const EN_AFTER_PASS := EN_A + EN_B1 + "s" + EN_B2 + "s" + EN_B3

  lemma {:induction false} EnHeadNoChineseInitial()
    ensures NoInitialIn(CHINESE_INITIALS, "Well") && NoInitialIn(CHINESE_INITIALS, EN_A)
    ensures NoInitialIn(CHINESE_INITIALS, "um") && NoInitialIn(CHINESE_INITIALS, EN_B1)
  {
  }

  lemma {:induction false} EnTailNoChineseInitial()
    ensures NoInitialIn(CHINESE_INITIALS, "s") && NoInitialIn(CHINESE_INITIALS, EN_B2)
    ensures NoInitialIn(CHINESE_INITIALS, EN_B3) && NoInitialIn(CHINESE_INITIALS, "you know")
  {
  }

  lemma {:induction false} EnNoChineseInitial()
    ensures NoInitialIn(CHINESE_INITIALS, EN_SENTENCE)
  {
    var cs := CHINESE_INITIALS;
    EnHeadNoChineseInitial();
    EnTailNoChineseInitial();
    NoInitialAppend(cs, "Well", EN_A);
    NoInitialAppend(cs, "Well" + EN_A, "um");
    NoInitialAppend(cs, "Well" + EN_A + "um", EN_B1);
    NoInitialAppend(cs, "Well" + EN_A + "um" + EN_B1, "s");
    NoInitialAppend(cs, "Well" + EN_A + "um" + EN_B1 + "s", EN_B2);
    NoInitialAppend(cs, "Well" + EN_A + "um" + EN_B1 + "s" + EN_B2, "s");
    NoInitialAppend(cs, "Well" + EN_A + "um" + EN_B1 + "s" + EN_B2 + "s", EN_B3);
    NoInitialAppend(cs, "Well" + EN_A + "um" + EN_B1 + "s" + EN_B2 + "s" + EN_B3, "you know");
  }

  /** The Chinese pass finds nothing in English text. */
  lemma {:induction false} EnSentenceChinesePass()
    ensures Delete(Literal(CHINESE_FILLERS), EN_SENTENCE) == EN_SENTENCE
  {
    Initials();
    EnNoChineseInitial();
    assert EN_SENTENCE[0..|EN_SENTENCE|] == EN_SENTENCE;
    KeepsPiece(Literal(CHINESE_FILLERS), CHINESE_INITIALS, EN_SENTENCE, 0, EN_SENTENCE);
  }

  lemma {:induction false} EnWellMatches()
    ensures MatchLen(EscapedLookaround(ENGLISH_FILLERS), EN_SENTENCE, 0) == 4
  {
  }

  lemma {:induction false} EnUmMatches()
    ensures MatchLen(EscapedLookaround(ENGLISH_FILLERS), EN_SENTENCE, 14) == 2
  {
  }

  lemma {:induction false} EnYouKnowMatches()
    ensures MatchLen(EscapedLookaround(ENGLISH_FILLERS), EN_SENTENCE, 31) == 8
  {
  }

  /** The s of "this" and of "is" begin no filler: "so" needs an o after it. */
  lemma {:induction false} EnLettersS()
    ensures MatchLen(EscapedLookaround(ENGLISH_FILLERS), EN_SENTENCE, 20) == 0
    ensures MatchLen(EscapedLookaround(ENGLISH_FILLERS), EN_SENTENCE, 23) == 0
  {
  }

  lemma {:induction false} EnLength()
    ensures |EN_SENTENCE| == 39 && EN_SENTENCE[20] == 's' && EN_SENTENCE[23] == 's'
  {
  }

  lemma {:induction false} EnAAt()
    ensures EN_SENTENCE[4..14] == EN_A
  {
  }

  lemma {:induction false} EnB1At()
    ensures EN_SENTENCE[16..20] == EN_B1
  {
  }

  lemma {:induction false} EnB2At()
    ensures EN_SENTENCE[21..23] == EN_B2
  {
  }

  lemma {:induction false} EnB3At()
    ensures EN_SENTENCE[24..31] == EN_B3
  {
  }

  lemma {:induction false} EnPiecesNoInitial()
    ensures NoInitialIn(ENGLISH_INITIALS, EN_A) && NoInitialIn(ENGLISH_INITIALS, EN_B1)
    ensures NoInitialIn(ENGLISH_INITIALS, EN_B2) && NoInitialIn(ENGLISH_INITIALS, EN_B3)
  {
  }

  /** From "good" on, the English pass keeps everything up to "you know" and drops that. */
  lemma {:induction false} EnEnglishEnd()
    ensures DeleteFrom(EscapedLookaround(ENGLISH_FILLERS), EN_SENTENCE, 24) == EN_B3
  {
    var mt := EscapedLookaround(ENGLISH_FILLERS);
    Initials();
    EnLength();
    EnB3At();
    EnPiecesNoInitial();
    EnYouKnowMatches();
    KeepsPiece(mt, ENGLISH_INITIALS, EN_SENTENCE, 24, EN_B3);
    assert DeleteFrom(mt, EN_SENTENCE, 39) == [];
  }

  /** From the s of "this" on, nothing is dropped before "you know". */
  lemma {:induction false} EnEnglishMiddle()
    ensures DeleteFrom(EscapedLookaround(ENGLISH_FILLERS), EN_SENTENCE, 20) == "s" + EN_B2 + "s" + EN_B3
  {
    var mt := EscapedLookaround(ENGLISH_FILLERS);
    Initials();
    EnLength();
    EnB2At();
    EnPiecesNoInitial();
    EnLettersS();
    KeepsPiece(mt, ENGLISH_INITIALS, EN_SENTENCE, 21, EN_B2);
    EnEnglishEnd();
  }

  lemma {:induction false} EnEnglishTail()
    ensures DeleteFrom(EscapedLookaround(ENGLISH_FILLERS), EN_SENTENCE, 16) == EN_B1 + "s" + EN_B2 + "s" + EN_B3
  {
    var mt := EscapedLookaround(ENGLISH_FILLERS);
    Initials();
    EnLength();
    EnB1At();
    EnPiecesNoInitial();
    KeepsPiece(mt, ENGLISH_INITIALS, EN_SENTENCE, 16, EN_B1);
    EnEnglishMiddle();
  }

  /** The English pass drops Well, um and you know, whatever their case, and nothing else. */
  lemma {:induction false} EnSentenceEnglishPass()
    ensures Delete(EscapedLookaround(ENGLISH_FILLERS), EN_SENTENCE) == EN_AFTER_PASS
  {
    var mt := EscapedLookaround(ENGLISH_FILLERS);
    Initials();
    EnLength();
    EnAAt();
    EnPiecesNoInitial();
    EnWellMatches();
    EnUmMatches();
    KeepsPiece(mt, ENGLISH_INITIALS, EN_SENTENCE, 4, EN_A);
    EnEnglishTail();
  }

  /** The kept text, cut where the doubled space is. */
  const EN_KEPT := ", I think"
  const EN_REST := "this is good, "

  lemma {:induction false} EnSimple()
    ensures SimpleText(EN_KEPT) && SimpleText(" ") && SimpleText(EN_REST)
  {
  }

  lemma {:induction false} EnPiecesSpacing()
    ensures NoDoubleSpace(EN_KEPT) && OnlyPlainSpaces(EN_KEPT)
    ensures NoDoubleSpace(EN_REST) && OnlyPlainSpaces(EN_REST)
  {
    EnSimple();
    SimpleTextLayout(EN_KEPT);
    SimpleTextLayout(EN_REST);
  }

  lemma {:induction false} EnAfterPassCut()
    ensures EN_AFTER_PASS == EN_KEPT + ("  " + EN_REST)
  {
  }

  lemma {:induction false} EnRestCollapse()
    ensures CollapseSpaces("  " + EN_REST) == " " + EN_REST
  {
    assert !IsSpace(EN_REST[0]);
    assert ("  " + EN_REST)[1..] == " " + EN_REST;
    assert (" " + EN_REST)[1..] == EN_REST;
    assert LeadSpaces("  " + EN_REST) == 2;
    assert ("  " + EN_REST)[2..] == EN_REST;
    EnPiecesSpacing();
    CollapseFixed(EN_REST);
  }

  /** The doubled space left where um was collapses to one. */
  lemma {:induction false} EnCollapse()
    ensures CollapseSpaces(EN_AFTER_PASS) == EN_KEPT + " " + EN_REST
  {
    EnAfterPassCut();
    CollapseAppend(EN_KEPT, "  " + EN_REST);
    EnPiecesSpacing();
    CollapseFixed(EN_KEPT);
    EnRestCollapse();
  }

  /** The collapsed text, cut at its two commas. */
  const EN_MID := " I think this is good"

  lemma {:induction false} EnCommaCut()
    ensures EN_KEPT + " " + EN_REST == "," + EN_MID + "," + " "
  {
  }

  lemma {:induction false} EnMidNoPunct()
    ensures NoSpaceBeforePunct(EN_MID)
  {
    assert SimpleText(EN_MID) && ',' !in EN_MID;
    SimpleTextLayout(EN_MID);
  }

  /** No space stands before a comma. */
  lemma {:induction false} EnNoPunct()
    ensures NoSpaceBeforePunct(EN_KEPT + " " + EN_REST)
  {
    EnCommaCut();
    EnMidNoPunct();
    NoSpaceBeforePunctAppend(",", EN_MID);
    NoSpaceBeforePunctAppend("," + EN_MID, ",");
    NoSpaceBeforePunctAppend("," + EN_MID + ",", " ");
  }

  lemma {:induction false} EnDrop()
    ensures DropSpaceBeforePunct(EN_KEPT + " " + EN_REST) == EN_KEPT + " " + EN_REST
  {
    EnNoPunct();
    DropSpaceFixed(EN_KEPT + " " + EN_REST);
  }

  /** The trailing space goes. */
  lemma {:induction false} EnStrip()
    ensures Strip(EN_KEPT + " " + EN_REST) == ", I think this is good,"
  {
    assert EN_KEPT + " " + EN_REST == "" + ", I think this is good," + " ";
    StripPadded("", ", I think this is good,", " ");
  }

  lemma {:induction false} EnSentenceText()
    ensures EN_SENTENCE == "Well, I think um this is good, you know"
  {
  }

  /**
   * The helper's filter on the test's English sentence: Well, um and you know
   * go whatever their case, think stays, and the spacing is normalised.
   */
  lemma {:induction false} HelperEnglishSentence()
    ensures HelperFilterFillerWords("Well, I think um this is good, you know") == ", I think this is good,"
  {
    EnSentenceText();
    EnSentenceChinesePass();
    EnSentenceEnglishPass();
    EnCollapse();
    EnDrop();
    EnStrip();
  }
}
