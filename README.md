# ASR IME core, modelled in Dafny

This project models the logic of a speech-to-text input method made of four
parts:

- **Recognition daemon** (`daemon_asr.py`):
  - removes filler words and applies spoken self-corrections;
  - punctuates recognised text heuristically;
  - runs an external post-processing command, with tone instructions and a
    "context memory" of recent sentences;
  - cuts the microphone stream into phrases (the stream loop);
  - obeys command lines from a FIFO (`toggle`, `start`, `stop`, `quit`,
    `switch_language`);
  - merges the user's config file into the command-line arguments.
- **IBus engine** (`fcitx_asr_engine.py`): its own phrase segmenter, a
  newest-wins job queue and a running flag.
- **Helper module** (`asr_helper.py`): a second filler filter and
  self-correction detector, language cycling and tone prompts.
- **Fcitx5 add-on** (`src/asrime.cpp`):
  - trims and loads the hotkey file;
  - frames the commit FIFO's bytes into lines and commits each line to the
    active input context;
  - maps key presses to FIFO commands;
  - tracks activation of the input context.

It also models the settings panel's config helpers (`settings_panel.py`).

Where the code works on values, the model is functions and lemmas:
- `PyText`: Python's `strip`, `lower`, `find`, `split`/`join`, `splitlines`
  and `re.sub(r"\s+", " ")`.
- `Seqs`: a few generic facts about sequence concatenation and slicing that
  the other modules' proofs share.
- `Languages`, `Fillers`, `SelfCorrection`, `Punctuation`, `Postprocess`.
- `Segmenter`: one step of the phrase cutter as a function on its local
  state.
- The pure parts of `Config`, `Worker`, `DaemonStream` and `Addon`.

Where the code changes state, the model is imperative Dafny:
- classes whose methods carry `modifies` clauses (`BoundedQueue`,
  `OnlineEngine`, `ToggleState`, `RecognizerWorker`, `AddonEngine`);
- loops with invariants (`Trim`, `LoadHotkeys`, `OnCommitReadable`,
  `SegmentLoop`, `StreamLoop`, `CommandLoop`, `MergeKnown`).

Each method's postcondition ties its result or new state to a specification
function. Lemmas prove that function's properties.

The Python regular expressions are modelled by their matching semantics:
- the leftmost-first alternation of `re.sub`;
- `\b` word boundaries;
- the lazy and greedy quantifiers of the correction patterns;
- the escaped lookarounds as `asr_helper.py` actually writes them.

Integers are unbounded. Every count in the model is a non-negative block or
sample count.

## Model

| member | source | states |
|---|---|---|
| PyText.LeadSpaces | daemon_asr.py:161 | counts exactly the leading Python whitespace characters |
| PyText.TrailSpaces | daemon_asr.py:161 | counts exactly the trailing Python whitespace characters |
| PyText.Strip | daemon_asr.py:161 | `str.strip()`: empty exactly when the input is all whitespace; otherwise begins and ends with a non-space; never longer than the input |
| PyText.StripSlice | daemon_asr.py:161 | the stripped text is the slice of the input that starts at its first non-space character |
| PyText.StripIdentity | daemon_asr.py:161 | text that already begins and ends with non-space is left unchanged |
| PyText.StripConcat | daemon_asr.py:168 | joining two stripped pieces gives a stripped string |
| PyText.StripPadded | daemon_asr.py:373 | whitespace padding around a word is removed exactly |
| PyText.Lower | daemon_asr.py:373 | `str.lower()` keeps the length and lower-cases each character |
| PyText.Find | daemon_asr.py:593 | the first position of the pattern, or none when it occurs nowhere |
| PyText.FindFrom | daemon_asr.py:593 | a search resumed past positions known to fail still finds the first occurrence |
| PyText.ContainsFind | daemon_asr.py:593 | `p in s` holds exactly when the search succeeds |
| PyText.Split | daemon_asr.py:594 | `str.split(sep)` always yields at least one piece |
| PyText.SplitJoin | daemon_asr.py:594 | joining the pieces of a split with the same separator gives back the text |
| PyText.JoinCons | daemon_asr.py:594 | joining puts the separator between the head and the joined tail |
| PyText.SplitPiecesFree | daemon_asr.py:594 | no piece of a split contains the separator |
| PyText.SplitCount | daemon_asr.py:593-594 | a split has more than one piece exactly when the separator occurs |
| PyText.ReplaceIdentity | daemon_asr.py:594 | replacing a string by itself leaves the text unchanged |
| PyText.CollapseSpaces | daemon_asr.py:141 | `re.sub(r"\s+", " ")`: every remaining whitespace character is a plain space; never longer |
| PyText.CollapseNoDouble | daemon_asr.py:141 | no two adjacent spaces remain; the first character is kept, or becomes a space |
| PyText.CollapseIdentity | daemon_asr.py:141 | text without whitespace is unchanged |
| PyText.LeadSpacesAppend | daemon_asr.py:141 | a leading whitespace run that ends inside a text is not lengthened by what follows |
| PyText.CollapseAppend | daemon_asr.py:141 | collapsing distributes over a seam that follows a non-space character |
| PyText.FirstLineBreak | settings_panel.py:82 | the first line-break position of `splitlines` |
| PyText.SplitLines | settings_panel.py:82 | `str.splitlines()`: no line holds a line-break character |
| PyText.SplitLinesTerminated | settings_panel.py:91-94 | lines written one per newline are read back unchanged by `splitlines` |
| PyText.SplitLinesCons | settings_panel.py:82 | a newline-terminated first line is the first element of `splitlines` |
| PyText.FirstBreakAt | settings_panel.py:82 | characterises the first line break by position |
| PyText.JoinTerminated | settings_panel.py:94 | `"\n".join(lines) + "\n"` is each line followed by a newline |
| Languages.FillerWords | daemon_asr.py:84-97 | every configured language has a non-empty list of non-empty filler words |
| Languages.BackendLanguage | daemon_asr.py:84-97 | each language's backend code is the language key itself |
| Languages.IndexOf | asr_helper.py:74 | `list.index`: the first position holding the value, or none exactly when it is absent |
| Languages.NextIn | asr_helper.py:69-77 | an empty list returns the current language; otherwise the result is in the list, and an unknown current language gives the first entry |
| Languages.SwitchLanguage | asr_helper.py:69-82 | a press moves to the entry after the first occurrence of the current language, wrapping from the last entry to the first; an unknown language goes to the first entry and an empty list keeps the current one |
| Languages.DaemonNextLanguage | daemon_asr.py:655-670 | the daemon's successor is a configured language; an unknown one goes to zh-TW |
| Languages.DaemonNextAgrees | daemon_asr.py:655-670 | the daemon's rotation equals the helper's rotation over the configured order |
| Languages.DaemonCycle | daemon_asr.py:655-670 | zh-TW, en-US and ja-JP follow each other in a cycle |
| Languages.FirstIndex | asr_helper.py:74 | the index `list.index` reports is the first position holding the value |
| Languages.IndexOfDistinct | asr_helper.py:74 | in a list without repeats, the index of the i-th entry is i |
| Languages.Succ | asr_helper.py:77 | `(i + 1) % len(langs)` stays within the list |
| Languages.AdvanceWithinLap | asr_helper.py:77 | k steps of at most one lap wrap around the end once |
| Languages.SwitchTimesIndex | asr_helper.py:80-82 | k presses from entry i land on entry (i + k) mod n |
| Languages.SwitchFullCycle | asr_helper.py:80-82 | as many presses as there are languages return to the start |
| Languages.FivePresses | tests/test_tone_multilang.py:20-28 | five presses from zh-TW give en-US, ja-JP, zh-TW, en-US, ja-JP |
| Languages.UnknownGoesFirst | tests/test_tone_multilang.py:11-17 | ko-KR and the empty language go to zh-TW |
| Fillers.AgreeFromSpec | daemon_asr.py:132 | matching a word at a position compares its characters, case-folded when asked |
| Fillers.AgreeMeaning | daemon_asr.py:132-134 | a literal match is an occurrence; an IGNORECASE match is equality after lower-casing |
| Fillers.FirstAltSpec | daemon_asr.py:134 | the alternation takes the first listed filler that matches at a position |
| Fillers.MatchLenSpec | daemon_asr.py:100-102 | a match lies within the text and is one of the fillers; `\b` patterns sit between word boundaries; the helper's escaped lookarounds hold; no match means no filler matches there |
| Fillers.ScanSpec | daemon_asr.py:135 | the left-to-right scan of `re.sub` is a valid sequence of kept characters and non-overlapping matches |
| Fillers.DeleteFromScan | daemon_asr.py:135 | deleting the matches keeps exactly the scan's kept characters |
| Fillers.ScanUnique | daemon_asr.py:135 | there is only one valid scan of a text |
| Fillers.DeleteCharacterized | daemon_asr.py:135 | any valid scan determines the result of the deletion |
| Fillers.DeleteFromNoMatch | daemon_asr.py:135 | from a position onwards, no match means no change |
| Fillers.DeleteNoMatch | daemon_asr.py:135 | a text without matches is unchanged |
| Fillers.DeleteFromKeeps | daemon_asr.py:135 | a stretch where no match starts is kept as it is, and deletion resumes after it |
| Fillers.NoInitialNoMatch | asr_helper.py:26-27 | no match starts at a character that, lower-cased, begins no alternative |
| Fillers.KeepsPiece | asr_helper.py:26-27 | a piece of the text none of whose characters begins an alternative survives the pass unchanged |
| Fillers.WordBoundedSpans | daemon_asr.py:131-132 | every English filler deleted by the daemon ends at a word boundary |
| Fillers.WordBoundedKeepsWordInterior | daemon_asr.py:102 | no `\b` match starts between two word characters |
| Fillers.DropSpaceBeforePunct | daemon_asr.py:143 | removing spaces before punctuation never lengthens the text |
| Fillers.DropSpaceHead | daemon_asr.py:143 | the first character survives unless it is a space before punctuation |
| Fillers.DropSpaceNoPunct | daemon_asr.py:143 | no whitespace remains before the listed punctuation |
| Fillers.DropSpaceNoDouble | daemon_asr.py:141-143 | the step keeps the absence of double spaces |
| Fillers.DropSpacePlain | daemon_asr.py:141-143 | the step keeps "only plain spaces" |
| Fillers.NoDoubleSuffix | daemon_asr.py:141 | a suffix of text without double spaces has none either |
| Fillers.NormalizeNormalForm | daemon_asr.py:141-144 | the clean-up ending the filter yields normal form: stripped, single plain spaces, no space before punctuation |
| Fillers.StripKeeps | daemon_asr.py:144 | stripping keeps each normal-form property |
| Fillers.CollapseFixed | daemon_asr.py:141 | text with single plain spaces is unchanged by collapsing |
| Fillers.DropSpaceFixed | daemon_asr.py:143 | text without space before punctuation is unchanged by that step |
| Fillers.NoSpaceBeforePunctAppend | daemon_asr.py:143 | joining two texts without space before punctuation creates one only at the seam |
| Fillers.NormalizeFixed | daemon_asr.py:141-144 | normal-form text is unchanged by the clean-up |
| Fillers.NormalizeIdempotent | daemon_asr.py:141-144 | the clean-up is idempotent |
| Fillers.FilterNormalForm | daemon_asr.py:117-146 | the daemon's filter returns normal-form text for every language, known or not |
| Fillers.HelperNormalForm | asr_helper.py:30-39 | the helper's filter returns normal-form text |
| Fillers.IntendedIsLegacy | asr_helper.py:27 | the corrected helper filter is the daemon's legacy combined filter, and its output is in normal form |
| FillerExamples.MatchesInNaEnGe | daemon_asr.py:134 | in 那嗯個 only 嗯 matches; 那個 then matches as a whole |
| FillerExamples.NormalizeSpaceFree | daemon_asr.py:141-144 | text without whitespace is unchanged by the clean-up |
| FillerExamples.ChinesePassNaEnGe | daemon_asr.py:134-135 | one pass turns 那嗯個 into 那個, and 那個 into the empty text |
| FillerExamples.NotIdempotent | daemon_asr.py:117-146 | filtering is not idempotent: 那嗯個 gives 那個, which filters to the empty text |
| FillerExamples.ChineseMatchesInAlso | asr_helper.py:26 | no Chinese filler matches in "also" |
| FillerExamples.EscapedMatchesInAlso | asr_helper.py:27 | the helper's English pattern matches "so" inside "also" |
| FillerExamples.BoundedMatchesInAlso | daemon_asr.py:102 | the daemon's `\b` pattern matches nothing in "also" |
| FillerExamples.ChinesePassKeepsAlso | asr_helper.py:33 | the Chinese pass leaves "also" alone |
| FillerExamples.HelperDeletesInsideWords | asr_helper.py:27 | the helper filter turns "also" into "al" |
| FillerExamples.IntendedKeepsWords | asr_helper.py:27 | the corrected helper filter keeps "also" |
| FillerExamples.MatchesInUmYouKnow | asr_helper.py:27 | "Um" and "you KNOW" match regardless of case |
| FillerExamples.HelperEnglishCaseInsensitive | asr_helper.py:27 | the English pass removes upper-case fillers: "Um, you KNOW" becomes ", " |
| FillerExamples.ZhSentenceChinesePass | asr_helper.py:33 | on the test's Chinese sentence the Chinese pass removes 嗯 and 然後 and nothing else |
| FillerExamples.ZhSentenceEnglishPass | asr_helper.py:34 | the English pass then changes nothing |
| FillerExamples.ZhCollapse | asr_helper.py:35 | the doubled space left where 然後 was collapses to one |
| FillerExamples.HelperChineseSentence | tests/test_tone_multilang.py:31-37 | the helper turns "嗯 我今天 去 超市 買 了 蘋果 然後 回家" into "我今天 去 超市 買 了 蘋果 回家": no 嗯, no 然後, 我今天 kept |
| FillerExamples.EnSentenceChinesePass | asr_helper.py:33 | on the test's English sentence the Chinese pass changes nothing |
| FillerExamples.EnSentenceEnglishPass | asr_helper.py:34 | the English pass removes "Well", "um" and "you know", whatever their case, and nothing else |
| FillerExamples.EnCollapse | asr_helper.py:35 | the doubled space left where "um" was collapses to one |
| FillerExamples.EnNoPunct | asr_helper.py:36 | no space stands before either comma, so that step changes nothing |
| FillerExamples.HelperEnglishSentence | tests/test_tone_multilang.py:39-44 | the helper turns "Well, I think um this is good, you know" into ", I think this is good,": no "um", no "you know", "think" kept |
| SelfCorrection.SpacesEndSpec | daemon_asr.py:110 | `\s*` consumes exactly the maximal whitespace run |
| SelfCorrection.ARunEndSpec | daemon_asr.py:110 | the class `[^而是,，。.?!？]` consumes exactly the maximal run outside it |
| SelfCorrection.NoNewlineFromSpec | daemon_asr.py:110 | `.+$` can only match when no newline follows |
| SelfCorrection.GreedyTailSpec | daemon_asr.py:110 | the backtracking greedy tail picks the last admissible start |
| SelfCorrection.LazyTailSpec | daemon_asr.py:113-114 | the lazy separator class stops at the first position where `.+$` matches |
| SelfCorrection.LazyTailImmediate | daemon_asr.py:113-114 | on the last line the lazy separator matches nothing |
| SelfCorrection.FirstNotSpec | daemon_asr.py:163 | `search` finds the leftmost 不是 whose pattern matches |
| SelfCorrection.LineStart | daemon_asr.py:110 | the lazy `.*?` prefix starts at the start of the marker's line |
| SelfCorrection.FirstMarkerSpec | daemon_asr.py:172-176 | `search` finds the leftmost marker whose pattern matches |
| SelfCorrection.NotRuleNeedsMarker | daemon_asr.py:163-169 | without 不是 the first rule does not fire |
| SelfCorrection.MarkerRuleNeedsMarker | daemon_asr.py:172-176 | without one of its markers a pattern does not fire |
| SelfCorrection.MarkerAtNone | daemon_asr.py:112-114 | no marker at a position gives no marker match there |
| SelfCorrection.NoMarkerKeepsText | daemon_asr.py:178 | text with no correction marker comes back stripped and otherwise unchanged |
| SelfCorrection.GreedyTailTrimmed | daemon_asr.py:166 | in stripped text, B starts at the first non-space after the separator and reaches the end of the line |
| SelfCorrection.NotTailForm | daemon_asr.py:110 | a 不是 match has its marker and a one-line, stripped B |
| SelfCorrection.NotRuleUnfold | daemon_asr.py:163-169 | the rule's result is stripped prefix plus stripped B, or B alone |
| SelfCorrection.JoinStripped | daemon_asr.py:165-169 | stripping prefix plus a stripped B is the stripped prefix followed by B |
| SelfCorrection.NotRuleForm | daemon_asr.py:163-169 | the 不是 rule returns the stripped text before 不是 on its line, followed by B |
| SelfCorrection.MarkerAtSpec | daemon_asr.py:112-114 | a marker match means a listed marker occurs there |
| SelfCorrection.MarkerTailAfter | daemon_asr.py:172-176 | the kept fragment starts after the marker |
| SelfCorrection.MarkerRuleShorter | daemon_asr.py:172-176 | a marker rule returns something shorter than its input |
| SelfCorrection.DetectShortens | daemon_asr.py:160-178 | the result is the stripped input or strictly shorter than it |
| SelfCorrection.LazyTailOneLine | asr_helper.py:45-46 | on one-line text both escapings of the separator class behave alike |
| SelfCorrection.FirstMarkerOneLine | asr_helper.py:45-46 | on one-line text both variants find the same marker match |
| SelfCorrection.VariantsAgreeOnOneLine | asr_helper.py:49-66 | on one-line text the helper detector equals the daemon's |
| CorrectionExamples.Absent | daemon_asr.py:163 | a word with a character absent from the text occurs nowhere |
| CorrectionExamples.MarkersAbsent | daemon_asr.py:172-176 | markers whose first characters are absent never fire |
| CorrectionExamples.NoNot | daemon_asr.py:163 | text without 不 never triggers the 不是 rule |
| CorrectionExamples.OneLineTail | daemon_asr.py:110 | on one-line text `.+$` matches from every position |
| CorrectionExamples.IMeantExample | tests/test_tone_multilang.py:51-52 | 我是說 明天早上見 becomes 明天早上見, in the helper's detector as in the daemon's |
| CorrectionExamples.NotButRuns | daemon_asr.py:110 | the runs of the 不是 pattern on the test sentence |
| CorrectionExamples.NotButTail | daemon_asr.py:110 | the 不是 pattern's B begins at 要去睡覺 |
| CorrectionExamples.NotButSearch | daemon_asr.py:163 | the search finds that match first |
| CorrectionExamples.NotButPieces | daemon_asr.py:165-166 | the prefix is 我 and B is 要去睡覺 |
| CorrectionExamples.NotButRule | daemon_asr.py:163-169 | the rule yields 我要去睡覺 |
| CorrectionExamples.NotButExample | tests/test_tone_multilang.py:47-49 | 我不是要去吃飯 而是要去睡覺 becomes 我要去睡覺, which holds 睡覺, in the helper's detector as in the daemon's |
| CorrectionExamples.ShouldBeKeepsColon | daemon_asr.py:113 | in both variants 應該是：明天 becomes ：明天, because the lazy separator gives way to `.+` |
| CorrectionExamples.WrongExample | daemon_asr.py:114 | in both variants 不對，明天 becomes ，明天 |
| CorrectionExamples.AcrossTails | daemon_asr.py:113 | `.+$` matches only after the newline of 更正：\n明天 |
| CorrectionExamples.AcrossCommon | daemon_asr.py:160-172 | that text is stripped and triggers neither earlier rule |
| CorrectionExamples.AcrossDaemon | daemon_asr.py:113 | the daemon's `\s` crosses the newline: 更正：\n明天 becomes 明天 |
| CorrectionExamples.AcrossOneMarker | daemon_asr.py:113 | 更正 occurs only at the start |
| CorrectionExamples.AcrossHelper | asr_helper.py:45 | the helper's escaped `\\s` cannot cross the newline, so the text comes back unchanged |
| Punctuation.CommaRun | daemon_asr.py:575 | counts the maximal run of full-width commas |
| Punctuation.UnspacedConcat | daemon_asr.py:545-551 | dropping whitespace distributes over concatenation |
| Punctuation.UnspacedAllSpace | daemon_asr.py:545 | all-whitespace text has no visible characters |
| Punctuation.UnspacedStrip | daemon_asr.py:545 | stripping changes only whitespace |
| Punctuation.UnspacedCollapse | daemon_asr.py:545 | collapsing changes only whitespace |
| Punctuation.UnspacedSpacePairs | daemon_asr.py:550-551 | inserting spaces between CJK and ASCII letters or digits changes only whitespace |
| Punctuation.UnspacedSpaced | daemon_asr.py:545-551 | the normalisation step keeps every visible character, in order |
| Punctuation.UnspacedMembers | daemon_asr.py:553-554 | a visible character occurs after dropping whitespace exactly when it occurred before |
| Punctuation.SpacedMembers | daemon_asr.py:553-554 | the same holds for the normalised text |
| Punctuation.SpacedHas | daemon_asr.py:553-554 | `has_cjk` and `has_punct` are the same before and after normalisation |
| Punctuation.SpacePairsFirst | daemon_asr.py:550-551 | inserting spaces never shortens and keeps the first character |
| Punctuation.SpacePairsCjkFirst | daemon_asr.py:550 | after the first substitution no CJK character is directly followed by an ASCII letter or digit |
| Punctuation.SpacePairsAlnumFirst | daemon_asr.py:551 | after the second no CJK character touches an ASCII letter or digit |
| Punctuation.SpacedSeparated | daemon_asr.py:545-551 | normalised text is separated |
| Punctuation.SeparatedAppend | daemon_asr.py:576-577 | appending keeps separation when the junction is not a CJK-alphanumeric pair |
| Punctuation.ConnectorSeparated | daemon_asr.py:574 | inserting a full-width comma before a connector keeps separation |
| Punctuation.ApplyConnectorsSeparated | daemon_asr.py:573-574 | the connector pass keeps separation |
| Punctuation.CollapseCommasSpec | daemon_asr.py:575 | no doubled full-width comma remains; separation and the first character are kept |
| Punctuation.PunctuateBlank | daemon_asr.py:545-547 | the result is empty exactly when the input is blank |
| Punctuation.PunctuateSeparated | daemon_asr.py:544-578 | the result never puts a CJK character next to an ASCII letter or digit |
| Punctuation.PunctuateLatin | daemon_asr.py:555-557 | non-CJK text without punctuation gets a final period, and its visible characters are otherwise kept |
| Punctuation.PunctuateCjk | daemon_asr.py:560-577 | CJK text without punctuation ends in 。, ！ or ？ and has no doubled comma |
| Punctuation.PunctuatePunctuated | daemon_asr.py:553-558 | text that already has punctuation is only re-spaced |
| PunctuationExamples.SpacePairsNoAlnum | daemon_asr.py:550-551 | without ASCII letters or digits the spacing step changes nothing |
| PunctuationExamples.ConnectorAbsent | daemon_asr.py:574 | an absent connector changes nothing |
| PunctuationExamples.RainSpaced | daemon_asr.py:545-551 | 下雨然後回家 needs no re-spacing |
| PunctuationExamples.RainFirstPass | daemon_asr.py:574 | the 然後 pass inserts a comma before it |
| PunctuationExamples.RainOtherPasses | daemon_asr.py:573-574 | the remaining connectors change nothing |
| PunctuationExamples.CollapseSingleCommas | daemon_asr.py:575 | text without doubled commas is unchanged by the collapse |
| PunctuationExamples.RainConnectors | daemon_asr.py:573-575 | the connector stage gives 下雨，然後回家 |
| PunctuationExamples.RainKind | daemon_asr.py:553-554 | the example is CJK text without punctuation |
| PunctuationExamples.RainExample | daemon_asr.py:544-578 | 下雨然後回家 is punctuated as 下雨，然後回家。 |
| Postprocess.TonePrompt | daemon_asr.py:76-81 | an instruction exists exactly for the four tones; each is non-empty, holds no `{` and does not begin with a character of `{text}` |
| Postprocess.BuildToneAwarePrompt | daemon_asr.py:581-598 | an unknown tone returns the base prompt; with no placeholder the instruction goes before the whole prompt; with placeholders, splitting the result at instruction+`{text}` gives the same pieces as splitting the base at `{text}` (the instruction precedes every `{text}` and nothing else changes), so replacing instruction+`{text}` by `{text}` gives back the base |
| Postprocess.JoinedContainsSeparator | daemon_asr.py:594 | replacing a present placeholder inserts the replacement |
| Postprocess.ContainsInside | daemon_asr.py:594 | containment is transitive |
| Postprocess.PlaceholderStartsWithBrace | daemon_asr.py:593 | the placeholder begins with `{` |
| Postprocess.PrependKeepsPlaceholder | daemon_asr.py:596 | prepending a brace-free instruction neither adds nor removes the placeholder |
| Postprocess.SplitInserted | daemon_asr.py:593-594 | joining `{text}`-free pieces with instruction+`{text}` and splitting again at that separator gives back the pieces |
| Postprocess.SplitAfterInsertion | daemon_asr.py:593-594 | splitting `p` + instruction+`{text}` + rest cuts off exactly `p` first |
| Postprocess.NoEarlierInsertion | daemon_asr.py:593-594 | in `p` + instruction+`{text}` + rest, the first separator starts right after `p` |
| Postprocess.NotInsertedBefore | daemon_asr.py:593-594 | no separator starts inside a `{text}`-free `p`, because the instruction holds no `{` and begins with no character of `{text}` |
| Postprocess.InsertionHoldsPlaceholder | daemon_asr.py:593-594 | a text holding instruction+`{text}` holds `{text}` |
| Postprocess.ToneKeepsPlaceholder | daemon_asr.py:581-598 | the prompt has `{text}` after tone injection exactly when it had it before |
| Postprocess.HelperTonePrompt | asr_helper.py:85-93 | an unknown tone falls back to the casual prompt |
| Postprocess.TwoCharsAt | tests/test_tone_multilang.py:7-8 | two matching characters make a containment |
| Postprocess.CasualHasExample | asr_helper.py:88 | the casual prompt holds 範例 |
| Postprocess.FormalHasExample | asr_helper.py:89 | the formal prompt holds 範例 and 正式 |
| Postprocess.ProfessionalHasExample | asr_helper.py:90 | the professional prompt holds 範例 |
| Postprocess.CreativeHasExample | asr_helper.py:91 | the creative prompt holds 範例 |
| Postprocess.HelperTonePromptsHaveExamples | tests/test_tone_multilang.py:4-8 | every tone prompt holds 範例, and the formal one holds 正式 |
| Postprocess.Payload | daemon_asr.py:617 | without context the payload is the text; with context it is context, newline, text |
| Postprocess.SubstituteArgs | daemon_asr.py:621-631 | an argument with `{text}` has the payload substituted; every other argument is kept |
| Postprocess.BuildInvocation | daemon_asr.py:613-633 | the program is always argv[0] |
| Postprocess.NatToString | daemon_asr.py:648 | the decimal rendering is a non-empty string of digits |
| Postprocess.NatToStringValue | daemon_asr.py:648 | reading the rendering back gives the number |
| Postprocess.IntToString | daemon_asr.py:648 | a negative exit code renders with a leading minus and its magnitude |
| Postprocess.InvocationShape | daemon_asr.py:621-633 | with a placeholder argument stdin is empty; otherwise stdin carries the payload and argv is program plus arguments |
| Postprocess.ReplyErrorIff | daemon_asr.py:611-652 | an error is reported exactly when a program is set and it does not exit with status 0; on error the original text is returned |
| Postprocess.ReplyOnSuccess | daemon_asr.py:651-652 | on success the reply is the stripped output, or the original text when the output is blank |
| Postprocess.ReplyOnFailure | daemon_asr.py:647-649 | a failing exit reports stripped stderr, or `exit <code>` when stderr is blank |
| Buffers.Kept | daemon_asr.py:794 | how many items a bounded buffer keeps: at most the count offered and at most the bound |
| Buffers.Offer | daemon_asr.py:822-831 | a newest-wins put stays within the bound, ends with the new item and holds min(old + 1, bound) items |
| Buffers.OfferSuffix | daemon_asr.py:822-831 | the new contents are a suffix of old contents plus the item: only the oldest items are dropped |
| Buffers.OfferAll | daemon_asr.py:794 | repeated puts stay within the bound |
| Buffers.KeptStep | daemon_asr.py:794 | sizes after successive puts compose |
| Buffers.SuffixOfSuffix | daemon_asr.py:794 | a suffix of a suffix is a suffix |
| Buffers.OfferAllKeepsLatest | daemon_asr.py:794 | after any puts the buffer holds exactly the latest items, as many as the bound allows |
| Buffers.OfferAllConcat | daemon_asr.py:822-831 | putting two batches is putting their concatenation |
| Buffers.BoundedQueue.constructor | daemon_asr.py:749 | an empty queue with the given `maxsize` |
| Buffers.BoundedQueue.PutNowait | daemon_asr.py:825 | `put_nowait` appends unless the queue is full, and reports which |
| Buffers.BoundedQueue.GetNowait | daemon_asr.py:828 | `get_nowait` removes and returns the oldest item, or nothing when empty |
| Buffers.BoundedQueue.PutNewest | daemon_asr.py:822-831 | drop the oldest when full, then put: the new contents are `Offer` of the old, and the dropped item is the old head |
| Buffers.BoundedQueue.Clear | fcitx_asr_engine.py:361-366 | `_clear_queue` leaves the queue empty |
| Buffers.BoundedQueue.Drain | daemon_asr.py:1188-1192 | draining returns every queued item, in order, and empties the queue |
| Segmenter.CutSilence | fcitx_asr_engine.py:343-346 | the segment is a prefix of the phrase, never empty when the phrase is not; it is shorter by exactly `silence_run` blocks or not at all, and the blocks it drops are unvoiced when `silence_run` is the phrase's trailing silence |
| Segmenter.TrailingUnvoiced | fcitx_asr_engine.py:335 | every block counted by the trailing silence is unvoiced |
| Segmenter.EmissionInOrder | fcitx_asr_engine.py:348-353 | a segment shorter than `min_emit_samples` is dropped; one handed on has at least that many samples and holds each block's samples in place, after those of the blocks before it and before those of the blocks after it |
| Segmenter.TrailingSilence | fcitx_asr_engine.py:335 | the trailing unvoiced run is no longer than the phrase |
| Segmenter.IdleInv | fcitx_asr_engine.py:309-313 | the initial locals satisfy the segmenter invariant |
| Segmenter.TrailingSilenceSnoc | fcitx_asr_engine.py:335 | `silence_run` resets on a voiced block and grows on an unvoiced one |
| Segmenter.StepOpensPhrase | fcitx_asr_engine.py:324-331 | a voiced block while idle opens a phrase made of the pre-roll, the block included |
| Segmenter.StepWhileQuiet | fcitx_asr_engine.py:324-331 | an unvoiced block while idle only feeds the bounded pre-roll |
| Segmenter.StepInSpeech | fcitx_asr_engine.py:333-359 | in speech the block is appended; a flush emits the phrase without its trailing silence and returns to idle |
| Segmenter.StepKeepsInv | fcitx_asr_engine.py:324-359 | the invariant is preserved: idle means an empty phrase; in speech `speech_blocks` is the phrase length and `silence_run` its trailing unvoiced run |
| Segmenter.SamplesConcat | fcitx_asr_engine.py:349 | concatenating blocks concatenates their samples |
| Segmenter.StepEmission | fcitx_asr_engine.py:343-353 | an emission happens only in speech, drops only unvoiced blocks and holds at least `min_emit_samples` samples |
| Segmenter.TrailingSuffix | fcitx_asr_engine.py:343-344 | the cut keeps a final voiced block and drops only unvoiced ones |
| Segmenter.Emitted | fcitx_asr_engine.py:353 | each step emits at most one job |
| Segmenter.Run | fcitx_asr_engine.py:315-359 | the invariant holds after any sequence of blocks |
| Segmenter.RunStep | fcitx_asr_engine.py:315-359 | a run is its prefix run followed by one step |
| Segmenter.RunEmissions | fcitx_asr_engine.py:350 | every emitted phrase has at least `min_emit_samples` samples |
| Segmenter.QuietRun | fcitx_asr_engine.py:324-331 | silence alone never opens a phrase or emits |
| Engine.OnlineEngine.constructor | fcitx_asr_engine.py:166-175 | not running, both queues empty and bounded by their sizes |
| Engine.OnlineEngine.StartListening | fcitx_asr_engine.py:368-379 | starting sets running and clears the block queue; a second start changes nothing |
| Engine.OnlineEngine.StopListening | fcitx_asr_engine.py:381-391 | stopping clears running |
| Engine.OnlineEngine.ToggleListening | fcitx_asr_engine.py:393-397 | toggling flips running; starting clears the block queue |
| Engine.OnlineEngine.Capture | fcitx_asr_engine.py:270-284 | the audio callback puts each block newest-wins |
| Engine.OnlineEngine.EnqueueJob | fcitx_asr_engine.py:220-229 | a job is put newest-wins |
| Engine.OnlineEngine.SegmentOnce | fcitx_asr_engine.py:321-359 | one pass of the body moves the locals as the segmenter `Step` says and enqueues exactly the audio `Step` emits |
| Engine.OnlineEngine.SegmentLoop | fcitx_asr_engine.py:301-359 | after the loop the job queue is the newest-wins queue of the segmenter's emissions |
| Engine.SegmentLoopJobs | fcitx_asr_engine.py:301-359 | from an empty job queue, the queue holds the latest emitted phrases, each at least the minimum length |
| Engine.LatestFromEmpty | fcitx_asr_engine.py:220-229 | a queue filled from empty keeps the latest items |
| Control.ToggleState.constructor | daemon_asr.py:696-699 | neither listening nor stopped |
| Control.ToggleState.Toggle | daemon_asr.py:701-704 | flips listening and returns the new value |
| Control.ToggleState.SetListening | daemon_asr.py:706-708 | sets listening, leaves stopped alone |
| Control.ToggleState.Stop | daemon_asr.py:714-717 | stopped and not listening |
| Control.ParseCommand | daemon_asr.py:1083-1116 | a line is matched after `strip().lower()`; `quit` and `exit` both quit; anything else is ignored |
| Control.CurrentLanguage | daemon_asr.py:673-692 | the stored language when it is a non-empty string, otherwise zh-TW |
| Control.Dispatch | daemon_asr.py:1084-1116 | each command's effect on listening, stopped and the recorded language; an ignored line changes nothing |
| Control.Replay | daemon_asr.py:1078-1116 | never consumes more lines than it was given |
| Control.CommandLoop | daemon_asr.py:1078-1116 | the loop's final state and the number of lines consumed are those of the replay |
| Control.ReplayStep | daemon_asr.py:1082-1116 | one line of the replay is dispatched, then reading continues unless it quits |
| Control.ReplayStopsAtQuit | daemon_asr.py:1099-1102 | reading stops right after the first quit line, leaving the daemon stopped and not listening |
| Control.ReplayWithoutQuit | daemon_asr.py:1082-1116 | without a quit line every line is read and the daemon keeps running |
| Control.ToggleSpelling | daemon_asr.py:1083 | ` TOGGLE ` with any surrounding whitespace is a toggle |
| Control.ExitSpelling | daemon_asr.py:1083 | `Exit` is a quit |
| Control.UnknownLine | daemon_asr.py:1083-1116 | an unknown word is ignored |
| Control.CommandLineIgnored | src/asrime.cpp:167-172 | the add-on's Shift+F8 line `command` is not a daemon command and changes nothing |
| Control.SwitchSpelling | daemon_asr.py:1103 | `switch_language` is recognised |
| Control.SwitchRecords | daemon_asr.py:1103-1111 | switching records the successor of the current language |
| Control.SwitchFromStored | daemon_asr.py:1103-1111 | from zh-TW, en-US and ja-JP the recorded values are en-US, ja-JP and zh-TW |
| Control.SwitchFromUnknown | daemon_asr.py:1103-1111 | from an unknown language the recorded value is zh-TW; from a missing one (default zh-TW) it is en-US |
| Config.Get | daemon_asr.py:381 | `dict.get` gives the default for a missing key |
| Config.ToBoolShape | settings_panel.py:53-64 | the result is a bool or the default; numbers map to truthiness; other types give the default |
| Config.ToBoolWord | settings_panel.py:58-63 | a string is decided by its stripped, lower-cased word |
| Config.ToBoolPlainValues | tests/test_smart_edit.py:12-15 | True, False, 1 and 0 map to their truth values |
| Config.ToBoolYes | tests/test_smart_edit.py:16 | "yes" is true |
| Config.ToBoolNo | tests/test_smart_edit.py:17 | "No" is false |
| Config.ToBoolPaddedTrue | tests/test_smart_edit.py:18 | "  true  " is true |
| Config.ToBoolUnknown | tests/test_smart_edit.py:19 | "unknown" gives the default |
| Config.ToFlag | daemon_asr.py:367-378 | a bool value is itself; a non-scalar gives the default |
| Config.ToMap | settings_panel.py:68 | `dict(pairs)` has exactly the pairs' keys |
| Config.MergedKnownOnly | settings_panel.py:73-76 | the merged config has exactly the default keys; keys absent from the file keep their defaults |
| Config.KeysPrefix | daemon_asr.py:360 | the key set grows one key at a time |
| Config.MergeKnown | daemon_asr.py:358-363 | the copying loop computes the merge |
| Config.Zip | settings_panel.py:315-329 | a dictionary literal pairs names with values in order |
| Config.LoadUserConfig | daemon_asr.py:348-363 | `load_user_config` returns defaults overridden by the file's known keys, or defaults on any failure |
| Config.LoadConfig | settings_panel.py:67-77 | `load_config` likewise |
| Config.LoadedKeys | settings_panel.py:67-77 | both loaders return exactly their defaults' keys |
| Config.MissingFileGivesDefaults | tests/test_smart_edit.py:22-31 | a missing file gives the defaults; the panel's defaults include `postprocess_mode` |
| Config.Str | daemon_asr.py:383 | `str` of a string is the string |
| Config.PyFloat | daemon_asr.py:407 | `float` of a number is that number; of None or a collection it fails |
| Config.ParseInt | daemon_asr.py:421 | `int` of a stripped decimal string is its value; a blank string fails |
| Config.PyInt | daemon_asr.py:421 | `int` keeps integers, truncates non-negative floats and fails on None or collections |
| Config.ClampContextLength | daemon_asr.py:425 | the length is clamped into 1..10 and kept when already inside |
| Config.OmittedFromConfig | daemon_asr.py:382-417 | an option left off the command line takes the file's string or boolean value unchanged, and its built-in default when the key is missing |
| Config.StrOf | daemon_asr.py:383 | a missing key gives the default |
| Config.ChosenBackend | daemon_asr.py:380-412 | the backend is google or local; an unsupported value, or no value at all, gives google |
| Config.ChosenMode | daemon_asr.py:398-414 | the mode is one of none, heuristic, command or smart; an unsupported value, or no value at all, gives heuristic |
| Config.ChosenTimeout | daemon_asr.py:404-409 | a timeout read from the config is at least 1 second; without one it is 12 |
| Config.ChosenContextLength | daemon_asr.py:419-425 | a length read from the config is in 1..10; without one it is 5 |
| Config.ChosenDevice | daemon_asr.py:386-389 | a configured device is non-empty and not `auto` |
| Config.ApplyConfig | daemon_asr.py:366-425 | `apply_config`: command-line values are kept; backend and mode are supported values; a configured timeout is at least 1; a configured context length is in 1..10 |
| Config.CommandLineWins | daemon_asr.py:380-425 | with every option given on the command line the config file has no effect |
| Config.EmptyConfigFallbacks | daemon_asr.py:380-425 | with no options and an empty config the built-in fallbacks apply |
| Config.AbsentByLength | daemon_asr.py:273-291 | a key whose length no default key has is absent |
| Config.DaemonDefaultsLackContext | daemon_asr.py:273-291 | the daemon's defaults hold neither `enable_context_memory` nor `context_length` |
| Config.DaemonDefaultsLackFlag | daemon_asr.py:273-291 | no `enable_context_memory` default |
| Config.DaemonDefaultsLackLength | daemon_asr.py:273-291 | no `context_length` default |
| Config.ContextMemoryIgnoredFromFile | daemon_asr.py:348-363 | whatever the config file says, context memory stays off with length 5 unless given on the command line |
| Config.UserConfigIntended | daemon_asr.py:348-363 | the corrected loader also knows the two context keys |
| Config.ContextMemoryFromFileIntended | daemon_asr.py:416-425 | with the corrected loader the file's context flag and clamped length take effect |
| Config.KeyLines | settings_panel.py:80-83 | the kept lines are stripped, non-empty and not comments |
| Config.KeyLinesConcat | settings_panel.py:83 | filtering keeps the lines' order |
| Config.KeyLinesSingle | settings_panel.py:82-83 | one line is kept, stripped, exactly when it is a key line |
| Config.PanelHotkeys | settings_panel.py:80-88 | the file's key lines, or the default hotkeys when there are none or the file is unreadable; never empty |
| Config.ProviderPreset | settings_panel.py:36-50 | custom has empty fields; every other preset names a program and has args with `{text}` |
| Config.Around | settings_panel.py:40-48 | a preset's args hold the placeholder |
| Config.OnProviderChange | settings_panel.py:285-293 | choosing a known non-custom provider fills in its program and args and turns mode `none` into `command`; any other choice changes nothing |
| Config.OrDefault | settings_panel.py:316-324 | a blank field gives its default; a field with visible text is saved without surrounding whitespace, non-empty and unchanged by a second strip |
| Config.Names | settings_panel.py:315-329 | one name per entry, in order, and the names are exactly the dictionary's keys |
| Config.KeysByNames | settings_panel.py:315-329 | the same names give the same key set |
| Config.SavedPairs | settings_panel.py:315-329 | the saved config has exactly the panel's keys |
| Config.OnSave | settings_panel.py:297-331 | a blank language or no hotkey line refuses with the panel's messages; a save keeps the stripped language, the hotkey lines, a timeout of at least 1 and the defaulted fields |
| Config.SaveThenLoad | settings_panel.py:67-94 | loading a saved config gives back exactly what was saved |
| Worker.Bullets | daemon_asr.py:959-964 | each context line is "- " followed by a non-empty entry; at most one line per entry |
| Worker.JoinSnoc | daemon_asr.py:965 | joining after appending adds one separator and the new line |
| Worker.ContextTextAppend | daemon_asr.py:950-965 | appending a blank entry leaves the context text unchanged; a non-blank one adds a line `- <stripped entry>` |
| Worker.BulletsEmpty | daemon_asr.py:959-965 | no bullet lines exactly when every entry is blank |
| Worker.ContextTextEmpty | daemon_asr.py:963-965 | the context text is empty exactly when every entry is blank |
| Worker.BulletsOfWords | daemon_asr.py:959-964 | stripped entries become their bullet lines one by one |
| Worker.ContextOfTwo | tests/test_context_memory.py:53-58 | two entries give "- a\n- b" |
| Worker.SmartEdit | daemon_asr.py:879-895 | with both switches off the text is unchanged |
| Worker.SmartEditFillerOnly | daemon_asr.py:886-895 | with only the filler switch on the result is the legacy filter's, in normal form |
| Worker.EffectiveArgs | daemon_asr.py:898-903 | args with `{text}` and a set tone are exactly the tone-aware prompt built from them; otherwise the args are passed unchanged; the placeholder survives |
| Worker.PostprocessErrors | daemon_asr.py:867-925 | modes none and heuristic, and a missing program, never report an error; an error outside smart mode returns the original text |
| Worker.LocalModes | daemon_asr.py:875-911 | `none` returns the text, `heuristic` its punctuation, and `smart` without a program its smart edit |
| Worker.CatEchoesPayload | tests/test_context_memory.py:81-87 | with `cat` as the command the reply is the payload: context, newline, text |
| Worker.RecognizerWorker.constructor | daemon_asr.py:724-796 | empty queue and context, casual tone; the context length is at least 1 |
| Worker.RecognizerWorker.Enqueue | daemon_asr.py:822-831 | a job is put newest-wins: when full the oldest job is dropped |
| Worker.RecognizerWorker.AddToContext | daemon_asr.py:935-948 | with context memory on, the entry is put into the bounded context; with it off nothing changes |
| Worker.RecognizerWorker.GetContextText | daemon_asr.py:950-967 | the context text of the stored entries, or "" when context memory is off |
| Worker.RecognizerWorker.PostprocessText | daemon_asr.py:867-925 | the reply is the mode's post-processing with the current context |
| Worker.ContextKeepsLatest | daemon_asr.py:794 | the context holds the latest `context_length` entries |
| Worker.ScenarioBasic | tests/test_context_memory.py:53-58 | first, second give "- first\n- second" |
| Worker.ScenarioMaxlen | tests/test_context_memory.py:61-67 | with length 2, a, b, c give "- b\n- c" |
| Worker.ScenarioBlanks | tests/test_context_memory.py:70-78 | an empty context gives ""; blank entries are skipped, leaving "- ok" |
| Worker.BlanksThenOk | tests/test_context_memory.py:74-78 | "", "   ", "ok" give "- ok" |
| Worker.ScenarioContextPrompt | tests/test_context_memory.py:81-87 | `cat` receives the context before the current text |
| Worker.ScenarioContextDisabled | tests/test_context_memory.py:90-96 | with context memory off nothing is remembered and `cat` echoes the text alone |
| DaemonStream.StopFlush | daemon_asr.py:1186-1206 | at most one effect; "too short" is reported exactly when stop-processing is on and the collected session is non-empty but below the minimum |
| DaemonStream.Edge | daemon_asr.py:1184-1218 | a listening change records the new state; a flush also empties the block queue |
| DaemonStream.Take | daemon_asr.py:1220-1266 | taking from an empty queue changes nothing; a taken block never reports "too short" |
| DaemonStream.Tick | daemon_asr.py:1155-1266 | one callback or loop pass keeps the buffers bounded |
| DaemonStream.Loop | daemon_asr.py:1182-1266 | the loop keeps the buffers bounded over any events |
| DaemonStream.LoopStep | daemon_asr.py:1182-1266 | a loop is its prefix followed by one tick |
| DaemonStream.Jobs | daemon_asr.py:1151-1152 | at most one job per effect |
| DaemonStream.JobsConcat | daemon_asr.py:1152 | jobs of concatenated effects are concatenated jobs |
| DaemonStream.JobsProgress | daemon_asr.py:1152 | enqueueing two batches is enqueueing their concatenation |
| DaemonStream.EnqueueBlocks | daemon_asr.py:1145-1153 | enqueues exactly when the blocks make an emission, and reports whether it did |
| DaemonStream.FlushAtStop | daemon_asr.py:1186-1206 | the stop flush enqueues exactly the jobs of `StopFlush` |
| DaemonStream.SegmentBlock | daemon_asr.py:1232-1266 | one block takes the segmenter step and enqueues its emission |
| DaemonStream.TakeBlock | daemon_asr.py:1220-1266 | taking one block has the effect of `Take` |
| DaemonStream.PassOnce | daemon_asr.py:1182-1266 | one pass of the loop has the effect of `Tick`, and reports "too short" exactly when `Tick` does |
| DaemonStream.EventOnce | daemon_asr.py:1159-1174 | a captured block is queued newest-wins and a pass of the loop acts as `PassOnce`; either way the new state and jobs are those of `Tick` |
| DaemonStream.StreamLoop | daemon_asr.py:1125-1266 | the worker's job queue ends as the newest-wins queue of the loop's jobs |
| DaemonStream.LongEnoughConcat | daemon_asr.py:1149-1150 | jobs that are long enough stay so under concatenation |
| DaemonStream.TickKeepsInv | daemon_asr.py:1155-1266 | each tick keeps the stream invariant and enqueues only audio of at least the minimum length |
| DaemonStream.LoopInvariant | daemon_asr.py:1125-1266 | after any events the invariant holds and every job is long enough |
| DaemonStream.Pairs | daemon_asr.py:1155-1226 | each block is one callback and one pass |
| DaemonStream.StartListening | daemon_asr.py:1184-1185 | the first listening pass only records the state |
| DaemonStream.LoopSnoc2 | daemon_asr.py:1182-1266 | two more events are two more ticks |
| DaemonStream.PairStep | daemon_asr.py:1220-1266 | while listening, a captured block is queued, and the next pass takes it through one segmenter step |
| DaemonStream.SplitModeIsSegmenter | daemon_asr.py:1232-1266 | without stop-processing the daemon segments a block stream exactly like the engine's segmenter |
| DaemonStream.SplitModeStep | daemon_asr.py:1232-1266 | the inductive step of that correspondence |
| DaemonStream.RunSnoc | fcitx_asr_engine.py:315-359 | a segmenter run extended by one block |
| DaemonStream.PairsSnoc | daemon_asr.py:1155-1226 | events for one more block |
| DaemonStream.EmitAllSnoc | daemon_asr.py:1259-1260 | effects for one more emission |
| DaemonStream.SessionCollects | daemon_asr.py:1228-1230 | with stop-processing every block goes to the session, and nothing is emitted while listening |
| DaemonStream.SessionFlushAtStop | daemon_asr.py:1187-1198 | at stop an empty session emits nothing, and a session below the minimum reports "too short" |
| DaemonStream.StopFlushIgnoresMinSpeech | daemon_asr.py:1201-1206 | without stop-processing a stop flushes the open phrase without its trailing silence, without checking the minimum speech length |
| DaemonStream.NothingWhileStopped | daemon_asr.py:1155-1226 | while not listening a callback does nothing and a pass only discards a queued block |
| Addon.LeadingSpaces | src/asrime.cpp:37 | counts exactly the leading C whitespace characters |
| Addon.TrailingSpaces | src/asrime.cpp:38 | counts exactly the trailing C whitespace characters |
| Addon.Trimmed | src/asrime.cpp:35-40 | `trim`: empty exactly when the line is all C whitespace; otherwise the slice between the whitespace runs, beginning and ending with non-space |
| Addon.Trim | src/asrime.cpp:35-40 | the two erasing loops compute `Trimmed` |
| Addon.TrimmedPadded | src/asrime.cpp:35-40 | padding around a word is removed exactly |
| Addon.NewlineAt | src/asrime.cpp:200 | `pending_.find('\n')`: the first newline, or the length when there is none |
| Addon.Frame | src/asrime.cpp:199-207 | framing yields newline-free lines and a newline-free remainder |
| Addon.FrameRebuilds | src/asrime.cpp:199-207 | no byte is lost: the lines, each with its newline, followed by the remainder are the buffer |
| Addon.TerminatedCons | src/asrime.cpp:201-202 | one line and its newline come first |
| Addon.SplitAtNewline | src/asrime.cpp:201-202 | the buffer splits around its newline |
| Addon.AppendAssoc | src/asrime.cpp:186 | appending is associative |
| Addon.FrameUnique | src/asrime.cpp:199-207 | framing newline-terminated lines and a remainder gives back those lines and that remainder |
| Addon.TerminatedConcat | src/asrime.cpp:199-207 | terminated lines concatenate |
| Addon.FrameAcrossReads | src/asrime.cpp:181-209 | framing two reads one after the other gives the same lines and remainder as framing them at once |
| Addon.LinesConcat | src/asrime.cpp:199-207 | concatenated newline-free lines stay newline-free |
| Addon.Chomp | src/asrime.cpp:203-205 | exactly one trailing `\r` is removed, when present |
| Addon.Commits | src/asrime.cpp:199-224 | without an active context nothing is committed; every commit goes to the active context and is non-empty |
| Addon.CommitsConcat | src/asrime.cpp:199-207 | lines are committed in arrival order |
| Addon.CrlfLine | src/asrime.cpp:199-206 | a CRLF-terminated line commits its text without the `\r` |
| Addon.GetLines | src/asrime.cpp:75 | `getline` yields newline-free lines |
| Addon.FileKeys | src/asrime.cpp:75-84 | the file's keys are all valid, at most one per line |
| Addon.FileKeysConcat | src/asrime.cpp:75-84 | keys keep the file's order |
| Addon.FileKeysNone | src/asrime.cpp:77-83 | blank lines, comments and invalid keys contribute nothing |
| Addon.Defaults | src/asrime.cpp:52-59 | the four default hotkeys, in order |
| Addon.Hotkeys | src/asrime.cpp:61-89 | never empty; an unreadable file gives the defaults |
| Addon.NoKeysFallBack | src/asrime.cpp:85-88 | a file without valid key lines gives the defaults |
| Addon.FileKeysWin | src/asrime.cpp:85-87 | a file with valid keys gives exactly those keys, all valid |
| Addon.ExampleLines | src/asrime.cpp:75 | the example file's four lines |
| Addon.ExampleSkipped | src/asrime.cpp:77-78 | the comment and the blank line are skipped |
| Addon.ExamplePadded | src/asrime.cpp:76 | "  F8 " trims to F8 |
| Addon.ExamplePlain | src/asrime.cpp:76 | "Control+space" trims to itself |
| Addon.HotkeyFileExample | src/asrime.cpp:61-89 | a file with a comment, a padded F8, a blank line and Control+space gives those two keys |
| Addon.LoadHotkeys | src/asrime.cpp:61-89 | the reading loop computes `Hotkeys` |
| Addon.AddonEngine.constructor | src/asrime.cpp:107-112 | hotkeys loaded from the file; no active context, no pending bytes, nothing committed or sent |
| Addon.AddonEngine.Activate | src/asrime.cpp:137-142 | the context becomes active |
| Addon.AddonEngine.Deactivate | src/asrime.cpp:144-151 | the active context is cleared only when it is the one deactivated |
| Addon.AddonEngine.SendCommand | src/asrime.cpp:226-238 | the command is written when the FIFO opens, and dropped otherwise |
| Addon.AddonEngine.KeyEvent | src/asrime.cpp:155-178 | releases are ignored; a press makes its context active; Shift+F8 sends `command`; a toggle key sends `toggle`; only those two are accepted |
| Addon.AddonEngine.CommitLine | src/asrime.cpp:211-224 | a non-empty line is committed to the active context, when there is one |
| Addon.AddonEngine.OnCommitReadable | src/asrime.cpp:181-209 | the unframed remainder of everything read stays pending; the framed lines are committed, CR-stripped, in order |
| Addon.AddonEngine.ReadChunks | src/asrime.cpp:183-197 | every chunk read is appended to the pending bytes |
| Addon.AddonEngine.CommitPending | src/asrime.cpp:199-207 | the framing loop commits the pending lines and keeps the remainder |
| Addon.AddonEngine.CommitFirst | src/asrime.cpp:200-206 | one iteration takes the first line and commits it |
| Addon.CommitsSnoc | src/asrime.cpp:203-206 | one more line commits its chomped text when non-empty and a context is active |
| Addon.SnocAssoc | src/asrime.cpp:200-206 | bookkeeping for the framing loop |
| Addon.FrameStep | src/asrime.cpp:200-202 | framing is the first line followed by the framing of what follows it |
| Addon.SplitReadsCommitSame | src/asrime.cpp:181-209 | a line split across two reads commits exactly as if it arrived in one read |

## Left out

- Audio capture and signal processing are left out:
  - the RMS voicing decision (each block carries its `voiced` flag);
  - resampling to 16 kHz;
  - `pick_capture_rate`, device enumeration and probing;
  - the seconds-to-blocks conversions (block counts are parameters).
- Recognition backends are left out: Google, faster-whisper and Vosk (`transcribe_once`). The daemon's jobs carry the audio and its speech seconds, the latter as an exact real rather than a float; the engine's jobs carry the audio only. The `perf_counter` timestamp is omitted.
- File and FIFO I/O are parameters:
  - `update_state` and the commit-FIFO write;
  - `ensureFifo` and the FIFO reopening after end of file in `command_loop`;
  - the open in `sendCommand`, modelled as a `fifoReady` flag;
  - the state-file read of `load_current_language` and the JSON reads of both loaders, modelled as an `Option` or `Raw` input;
  - `save_config`'s write.
- Threads, locks, events and the worker's `run` polling loop are left out. Each method runs atomically; the stream loop's stop is the end of its event list.
- The 4096-byte read chunking in `onCommitReadable` is left out: only the concatenation of the chunks matters.
- Foreign code becomes a parameter: `shlex.split`, `float()` of strings, `str()` of non-strings, fcitx key parsing and validity, and `subprocess.run`. OpenCC `normalize_text` is left out. The `split` parameter is total, so the `ValueError` that `shlex.split` raises on an unbalanced quote is not modelled; neither `run_postprocess_command` nor `postprocess_text` catches it, so in the program it escapes to the caller.
- The worker's `switch_language` and the per-instance filler regex are left out. So are `apply_runtime`, `notify` and the Tk interface.
- PyText.Lower: lower-cases ASCII letters only; every word the model compares with is ASCII.
- Fillers.IsWordChar: recognises only part of Python's Unicode `\w` (ASCII, Latin-1 and Latin Extended letters, kana, CJK unified ideographs, Hangul syllables, full-width letters and digits). Cyrillic, Greek, CJK Extension A and other scripts are not word characters here. So in "сum" (Cyrillic с) Python finds no `\b` before "um" and keeps the text, while the model sees a boundary and deletes "um".
- Fillers.AgreeFrom: IGNORECASE is modelled as ASCII case folding (`LowerChar`) of both the pattern and the filtered text. Python also folds non-ASCII characters that equal an ASCII letter under case folding, so "li\u212Ae" (KELVIN SIGN) matches "like" in Python but not in the model.
- Fillers.AgreeFromSpec: states agreement under ASCII case folding only, for the reason given under `Fillers.AgreeFrom`.
- Fillers.AgreeMeaning: "a case-insensitive match is equality after lower-casing" holds for ASCII folding only, for the reason given under `Fillers.AgreeFrom`.
- Fillers.MatchLenSpec: its `\b` conditions use the partial `\w` of `Fillers.IsWordChar` and its case-insensitive match the ASCII folding of `Fillers.AgreeFrom`; on text outside those ranges Python's matches can differ.
- Config.PyInt: `int()` of a negative float truncates toward zero in Python; the contract states only the non-negative case.
- Config.ParseInt: underscores in `int()` strings are not accepted, and only ASCII digits are read: Python's `int()` also accepts other Unicode decimal digits such as the full-width "１２", which the model rejects.
- Filtering is not idempotent: 那嗯個 filters to 那個, which filters to the empty text (`FillerExamples.NotIdempotent`).
- The add-on's Shift+F8 sends `command`, which the daemon ignores (`Control.CommandLineIgnored`).

## Findings

| source | as written | input that shows it | evidently intended | confidence | as-written member | corrected member |
|---|---|---|---|---|---|---|
| asr_helper.py:27 | the English filler lookarounds are written `(?<!\\w)` and `(?!\\w)` inside a raw string. They test for a literal backslash followed by `w`, not for a word character. | "also" is filtered to "al" | fillers are removed only as whole words, as in the daemon's `\b` pattern | high, not executed | FillerExamples.HelperDeletesInsideWords | Fillers.IntendedIsLegacy |
| daemon_asr.py:348-363 | `load_user_config` copies only the keys of `DEFAULT_CONFIG` (273-291), which lacks `enable_context_memory` and `context_length` | a config file with `"enable_context_memory": true` and no command-line option leaves context memory off with length 5 | the file's context settings reach `apply_config` (416-425) | medium, not executed | Config.ContextMemoryIgnoredFromFile | Config.ContextMemoryFromFileIntended |
