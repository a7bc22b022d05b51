/**
 * The silence-based segmenter shared by the daemon's `stream_loop` (split
 * mode) and the IBus engine's `_segment_loop`: audio blocks arrive one at a
 * time, a pre-roll ring remembers the last few quiet blocks, a voiced block
 * opens a phrase, and the phrase is cut either when it reaches the hard
 * length limit or when enough trailing silence follows enough speech.
 *
 * This module holds the loop body as a function of the loop's local
 * variables; the loops themselves are methods of the engine and the daemon.
 */
module Segmenter {
  import opened PyText
  import opened Buffers

  /** One captured block: its samples, and whether its RMS reached the speech threshold. */
  datatype Block = Block(samples: seq<int>, voiced: bool)

  /**
   * The block-count settings after the `max(1, ...)` conversions of the
   * source. `maxPhrase` is absent when the daemon's hard cut is switched off
   * (`max_phrase_sec` of 0); the engine always has one.
   */
  datatype Params = Params(preRoll: nat, silence: nat, minSpeech: nat, maxPhrase: Option<nat>, minEmit: nat)

  predicate ValidParams(p: Params)
  {
    p.preRoll >= 1 && p.silence >= 1 && p.minSpeech >= 1 && p.minEmit >= 1
    && (p.maxPhrase.Some? ==> p.maxPhrase.value >= 1)
  }

  /** `np.concatenate(blocks)`: the samples of the blocks, in order. */
  function Samples(blocks: seq<Block>): seq<int>
    decreases |blocks|
  {
    if blocks == [] then [] else Samples(blocks[..|blocks| - 1]) + blocks[|blocks| - 1].samples
  }

  /** The loop's locals: `in_speech`, `pre_roll`, `phrase_blocks`, `speech_blocks`, `silence_run`. */
  datatype Seg = Seg(inSpeech: bool, preRoll: seq<Block>, phrase: seq<Block>, speechBlocks: nat, silenceRun: nat)

  /** The state at the start of the loop and after every cut. */
  const Idle: Seg := Seg(false, [], [], 0, 0)

  /** The cut condition of a phrase in progress. */
  predicate Flush(p: Params, speechBlocks: nat, silenceRun: nat)
  {
    (p.maxPhrase.Some? && speechBlocks >= p.maxPhrase.value)
    || (speechBlocks >= p.minSpeech && silenceRun >= p.silence)
  }

  /**
   * `emit_blocks`: the phrase without its trailing silent blocks, unless
   * nothing would be left. The segment is a prefix of the phrase, never empty
   * when the phrase is not, and when `silenceRun` counts no more than the
   * phrase's trailing silence, only unvoiced blocks are dropped.
   */
  function CutSilence(phrase: seq<Block>, silenceRun: nat): (emit: seq<Block>)
    ensures silenceRun > 0 && |phrase| > silenceRun ==> emit == phrase[..|phrase| - silenceRun]
    ensures !(silenceRun > 0 && |phrase| > silenceRun) ==> emit == phrase
    ensures emit <= phrase
    ensures phrase != [] ==> emit != []
    ensures |emit| < |phrase| ==> |phrase| - |emit| == silenceRun
    ensures silenceRun <= TrailingSilence(phrase) ==> forall k :: |emit| <= k < |phrase| ==> !phrase[k].voiced
  {
    TrailingUnvoiced(phrase);
    if silenceRun > 0 && |phrase| > silenceRun then phrase[..|phrase| - silenceRun] else phrase
  }

  /** The blocks counted by `TrailingSilence` are all unvoiced. */
  lemma {:induction false} TrailingUnvoiced(blocks: seq<Block>)
    ensures forall k :: |blocks| - TrailingSilence(blocks) <= k < |blocks| ==> !blocks[k].voiced
    decreases |blocks|
  {
    if blocks != [] && !blocks[|blocks| - 1].voiced {
      var init := blocks[..|blocks| - 1];
      TrailingUnvoiced(init);
      assert forall k :: 0 <= k < |init| ==> init[k] == blocks[k];
    }
  }

  /**
   * What reaches the job queue for a segment: nothing for an empty segment or
   * one shorter than `minEmit` capture-rate samples, otherwise its samples.
   */
  function Emission(p: Params, blocks: seq<Block>): (e: Option<seq<int>>)
    ensures e.Some? <==> blocks != [] && |Samples(blocks)| >= p.minEmit
    ensures e.Some? ==> e.value == Samples(blocks)
  {
    if blocks != [] && |Samples(blocks)| >= p.minEmit then Some(Samples(blocks)) else None
  }

  /**
   * A segment handed on is long enough and holds the audio of every block in
   * block order: block `i`'s samples sit between those of the blocks before
   * it and those of the blocks after it. Short segments are dropped.
   */
  lemma {:induction false} EmissionInOrder(p: Params, blocks: seq<Block>, i: nat)
    requires i < |blocks|
    ensures |Samples(blocks)| < p.minEmit ==> Emission(p, blocks).None?
    ensures var e := Emission(p, blocks);
      e.Some? ==>
        |e.value| >= p.minEmit && e.value == Samples(blocks[..i]) + blocks[i].samples + Samples(blocks[i + 1..])
  {
    assert blocks == blocks[..i] + ([blocks[i]] + blocks[i + 1..]);
    SamplesConcat(blocks[..i], [blocks[i]] + blocks[i + 1..]);
    SamplesConcat([blocks[i]], blocks[i + 1..]);
    assert [blocks[i]][..0] == [];
  }

  /** One pass of the loop body for block `b`; the second component is the audio enqueued, if any. */
  function Step(p: Params, s: Seg, b: Block): (Seg, Option<seq<int>>)
    requires Within(s.preRoll, p.preRoll)
  {
    if !s.inSpeech then
      var pre := Offer(s.preRoll, p.preRoll, b);
      if b.voiced then (Seg(true, pre, pre, |pre|, 0), None)
      else (s.(preRoll := pre), None)
    else
      var phrase := s.phrase + [b];
      var speech := s.speechBlocks + 1;
      var silence := if b.voiced then 0 else s.silenceRun + 1;
      if !Flush(p, speech, silence) then (Seg(true, s.preRoll, phrase, speech, silence), None)
      else (Idle, Emission(p, CutSilence(phrase, silence)))
  }

  /** The number of silent blocks at the end of `blocks`. */
  function TrailingSilence(blocks: seq<Block>): (n: nat)
    ensures n <= |blocks|
    decreases |blocks|
  {
    if blocks == [] || blocks[|blocks| - 1].voiced then 0
    else TrailingSilence(blocks[..|blocks| - 1]) + 1
  }

  /**
   * What holds of the locals between two blocks: the pre-roll respects its
   * capacity; while idle the pre-roll holds only quiet blocks and the phrase
   * is empty; while in speech `speech_blocks` counts the phrase and
   * `silence_run` is the phrase's trailing silence, which never covers the
   * whole phrase.
   */
  ghost predicate Inv(p: Params, s: Seg)
  {
    Within(s.preRoll, p.preRoll)
    && (!s.inSpeech ==>
          s.phrase == [] && s.speechBlocks == 0 && s.silenceRun == 0
          && forall k :: 0 <= k < |s.preRoll| ==> !s.preRoll[k].voiced)
    && (s.inSpeech ==>
          s.speechBlocks == |s.phrase| && s.silenceRun == TrailingSilence(s.phrase)
          && s.silenceRun < |s.phrase|)
  }

  lemma {:induction false} IdleInv(p: Params)
    requires ValidParams(p)
    ensures Inv(p, Idle)
  {
  }

  lemma {:induction false} TrailingSilenceSnoc(blocks: seq<Block>, b: Block)
    ensures TrailingSilence(blocks + [b]) == if b.voiced then 0 else TrailingSilence(blocks) + 1
  {
    assert (blocks + [b])[..|blocks + [b]| - 1] == blocks;
  }

  /** A voiced block closes the pre-roll into a new phrase, ending in that block. */
  lemma {:induction false} StepOpensPhrase(p: Params, s: Seg, b: Block)
    requires ValidParams(p) && Inv(p, s) && !s.inSpeech && b.voiced
    ensures var (t, e) := Step(p, s, b);
      e.None? && t.inSpeech && t.phrase == Offer(s.preRoll, p.preRoll, b)
      && t.phrase[|t.phrase| - 1] == b && t.speechBlocks == |t.phrase| && t.silenceRun == 0
  {
  }

  /** A quiet block while idle only enters the pre-roll, which keeps the most recent blocks. */
  lemma {:induction false} StepWhileQuiet(p: Params, s: Seg, b: Block)
    requires ValidParams(p) && Inv(p, s) && !s.inSpeech && !b.voiced
    ensures var (t, e) := Step(p, s, b);
      e.None? && !t.inSpeech && t.preRoll == Offer(s.preRoll, p.preRoll, b)
      && |t.preRoll| <= p.preRoll && t.phrase == []
  {
  }

  /** In speech, the phrase is cut exactly when the flush condition holds for the updated counters. */
  lemma {:induction false} StepInSpeech(p: Params, s: Seg, b: Block)
    requires ValidParams(p) && Inv(p, s) && s.inSpeech
    ensures var (t, e) := Step(p, s, b);
      var speech := |s.phrase| + 1;
      var silence := if b.voiced then 0 else s.silenceRun + 1;
      (t.inSpeech <==> !Flush(p, speech, silence))
      && (t.inSpeech ==> e.None? && t.phrase == s.phrase + [b] && t.speechBlocks == speech && t.silenceRun == silence)
      && (!t.inSpeech ==> t == Idle && e == Emission(p, (s.phrase + [b])[..speech - silence]))
  {
    var phrase := s.phrase + [b];
    assert phrase[..|phrase|] == phrase;
  }

  /** Every step keeps the invariant of the locals. */
  lemma {:induction false} StepKeepsInv(p: Params, s: Seg, b: Block)
    requires ValidParams(p) && Inv(p, s)
    ensures Inv(p, Step(p, s, b).0)
  {
    if s.inSpeech {
      TrailingSilenceSnoc(s.phrase, b);
    } else if b.voiced {
      var pre := Offer(s.preRoll, p.preRoll, b);
      assert pre[|pre| - 1].voiced;
      assert pre[..|pre| - 1] + [b] == pre;
      TrailingSilenceSnoc(pre[..|pre| - 1], b);
    } else {
      var pre := Offer(s.preRoll, p.preRoll, b);
      OfferSuffix(s.preRoll, p.preRoll, b);
      forall k | 0 <= k < |pre|
        ensures !pre[k].voiced
      {
        var h := s.preRoll + [b];
        assert pre[k] == h[|h| - |pre| + k];
      }
    }
  }

  lemma {:induction false} SamplesConcat(a: seq<Block>, b: seq<Block>)
    ensures Samples(a + b) == Samples(a) + Samples(b)
    decreases |b|
  {
    if b == [] {
      assert a + b == a;
    } else {
      assert (a + b)[..|a + b| - 1] == a + b[..|b| - 1];
      SamplesConcat(a, b[..|b| - 1]);
    }
  }

  /**
   * A cut segment is the phrase up to and including its last voiced block:
   * its final block is voiced and everything after it in the phrase is
   * silent. Only segments of at least `minEmit` samples are handed on.
   */
  lemma {:induction false} StepEmission(p: Params, s: Seg, b: Block)
    requires ValidParams(p) && Inv(p, s)
    requires Step(p, s, b).1.Some?
    ensures s.inSpeech
    ensures var phrase := s.phrase + [b];
      var cut := |phrase| - TrailingSilence(phrase);
      0 < cut && phrase[cut - 1].voiced
      && Step(p, s, b).1.value == Samples(phrase[..cut])
      && (forall k :: cut <= k < |phrase| ==> !phrase[k].voiced)
      && |Step(p, s, b).1.value| >= p.minEmit
  {
    var phrase := s.phrase + [b];
    TrailingSilenceSnoc(s.phrase, b);
    TrailingSuffix(phrase);
    assert phrase[..|phrase|] == phrase;
  }

  /** The trailing silence of a sequence with a voiced block is preceded by a voiced block. */
  lemma {:induction false} TrailingSuffix(blocks: seq<Block>)
    requires TrailingSilence(blocks) < |blocks|
    ensures blocks[|blocks| - TrailingSilence(blocks) - 1].voiced
    ensures forall k :: |blocks| - TrailingSilence(blocks) <= k < |blocks| ==> !blocks[k].voiced
    decreases |blocks|
  {
    if !blocks[|blocks| - 1].voiced {
      var init := blocks[..|blocks| - 1];
      TrailingSuffix(init);
    }
  }

  /** The segments a step hands on: none or one. */
  function Emitted(e: Option<seq<int>>): (out: seq<seq<int>>)
    ensures |out| <= 1
  {
    if e.Some? then [e.value] else []
  }

  /** The whole loop over `blocks`, from the idle state: the final locals and the audio enqueued, in order. */
  function Run(p: Params, blocks: seq<Block>): (r: (Seg, seq<seq<int>>))
    requires ValidParams(p)
    ensures Inv(p, r.0)
    decreases |blocks|
  {
    if blocks == [] then
      IdleInv(p);
      (Idle, [])
    else
      var prev := Run(p, blocks[..|blocks| - 1]);
      var b := blocks[|blocks| - 1];
      StepKeepsInv(p, prev.0, b);
      var (s, e) := Step(p, prev.0, b);
      (s, prev.1 + Emitted(e))
  }

  /** One more block is one more step of the loop. */
  lemma {:induction false} RunStep(p: Params, blocks: seq<Block>, i: nat)
    requires ValidParams(p) && i < |blocks|
    ensures var prev := Run(p, blocks[..i]);
      var (s, e) := Step(p, prev.0, blocks[i]);
      Run(p, blocks[..i + 1]) == (s, prev.1 + Emitted(e))
  {
    assert blocks[..i + 1][..i] == blocks[..i];
  }

  /** Every segment the loop hands on is non-empty and long enough. */
  lemma {:induction false} RunEmissions(p: Params, blocks: seq<Block>)
    requires ValidParams(p)
    ensures forall k :: 0 <= k < |Run(p, blocks).1| ==> |Run(p, blocks).1[k]| >= p.minEmit >= 1
    decreases |blocks|
  {
    if blocks != [] {
      var prev := Run(p, blocks[..|blocks| - 1]);
      RunEmissions(p, blocks[..|blocks| - 1]);
      var b := blocks[|blocks| - 1];
      if Step(p, prev.0, b).1.Some? {
        StepEmission(p, prev.0, b);
      }
    }
  }

  /** Without a voiced block nothing is ever emitted and the loop never leaves the idle state. */
  lemma {:induction false} QuietRun(p: Params, blocks: seq<Block>)
    requires ValidParams(p)
    requires forall k :: 0 <= k < |blocks| ==> !blocks[k].voiced
    ensures Run(p, blocks).1 == [] && !Run(p, blocks).0.inSpeech
    decreases |blocks|
  {
    if blocks != [] {
      QuietRun(p, blocks[..|blocks| - 1]);
    }
  }
}
