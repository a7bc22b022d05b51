/**
 * The IBus engine's listening machinery (`OnlineASREngine` in
 * fcitx_asr_engine.py): the `running` flag switched by the hotkey, the audio
 * block queue filled by the capture callback, the job queue filled by the
 * segmenter thread, and the segmenter loop itself.
 */
module Engine {
  import opened PyText
  import opened Buffers
  import opened Segmenter

  class OnlineEngine {
    var running: bool
    const blockQueue: BoundedQueue<Block>
    const jobs: BoundedQueue<seq<int>>
    /** The segmenter settings; the engine's hard cut is always on. */
    const params: Params

    ghost predicate Valid()
      reads this, blockQueue, jobs
    {
      blockQueue.Valid() && jobs.Valid() && ValidParams(params) && params.maxPhrase.Some?
    }

    /** The listening-related part of `__init__`: both queues empty, not running. */
    constructor (audioQueue: int, queueSize: int, params: Params)
      requires ValidParams(params) && params.maxPhrase.Some?
      ensures Valid() && fresh(blockQueue) && fresh(jobs)
      ensures !running && blockQueue.items == [] && jobs.items == []
      ensures blockQueue.maxsize == audioQueue && jobs.maxsize == queueSize && this.params == params
    {
      running := false;
      blockQueue := new BoundedQueue(audioQueue);
      jobs := new BoundedQueue(queueSize);
      this.params := params;
    }

    /** `start_listening`: a no-op while running; otherwise set the flag and drop stale audio. */
    method StartListening()
      requires Valid()
      modifies this, blockQueue
      ensures Valid()
      ensures old(running) ==> running && blockQueue.items == old(blockQueue.items)
      ensures !old(running) ==> running && blockQueue.items == []
    {
      if running {
        return;
      }
      running := true;
      blockQueue.Clear();
    }

    /** `stop_listening`: a no-op while stopped; otherwise clear the flag. */
    method StopListening()
      requires Valid()
      modifies this
      ensures Valid() && !running
    {
      if !running {
        return;
      }
      running := false;
    }

    /** `toggle_listening`: flips the flag. */
    method ToggleListening()
      requires Valid()
      modifies this, blockQueue
      ensures Valid() && running == !old(running)
      ensures old(running) ==> blockQueue.items == old(blockQueue.items)
      ensures !old(running) ==> blockQueue.items == []
    {
      if running {
        StopListening();
      } else {
        StartListening();
      }
    }

    /** The capture callback: never blocks, the oldest block gives way when the queue is full. */
    method Capture(block: Block)
      requires Valid()
      modifies blockQueue
      ensures Valid() && blockQueue.items == Offer(old(blockQueue.items), blockQueue.maxsize, block)
    {
      var _ := blockQueue.PutNewest(block);
    }

    /** `_enqueue_job`: never blocks, the oldest job gives way when the queue is full. */
    method EnqueueJob(audio: seq<int>)
      requires Valid()
      modifies jobs
      ensures Valid() && jobs.items == Offer(old(jobs.items), jobs.maxsize, audio)
    {
      var _ := jobs.PutNewest(audio);
    }

    /**
     * One pass of `_segment_loop`'s body for `block`: the locals move as
     * `Step` says, and the audio it emits, if any, goes to the job queue.
     */
    method SegmentOnce(block: Block, inSpeech: bool, preRoll: seq<Block>, phrase: seq<Block>,
                       speechBlocks: nat, silenceRun: nat)
        returns (inSpeech': bool, preRoll': seq<Block>, phrase': seq<Block>, speechBlocks': nat, silenceRun': nat)
      requires Valid() && Within(preRoll, params.preRoll)
      modifies jobs
      ensures Valid()
      ensures var step := Step(params, Seg(inSpeech, preRoll, phrase, speechBlocks, silenceRun), block);
        Seg(inSpeech', preRoll', phrase', speechBlocks', silenceRun') == step.0
        && jobs.items == OfferAll(old(jobs.items), jobs.maxsize, Emitted(step.1))
    {
      var voiced := block.voiced;
      ghost var step := Step(params, Seg(inSpeech, preRoll, phrase, speechBlocks, silenceRun), block);
      inSpeech', preRoll', phrase', speechBlocks', silenceRun' := inSpeech, preRoll, phrase, speechBlocks, silenceRun;
      if !inSpeech {
        preRoll' := Offer(preRoll, params.preRoll, block);
        if voiced {
          inSpeech' := true;
          phrase' := preRoll';
          speechBlocks' := |phrase'|;
          silenceRun' := 0;
        }
        return;
      }
      phrase' := phrase + [block];
      speechBlocks' := speechBlocks + 1;
      silenceRun' := if voiced then 0 else silenceRun + 1;
      var flush := (params.maxPhrase.Some? && speechBlocks' >= params.maxPhrase.value)
        || (speechBlocks' >= params.minSpeech && silenceRun' >= params.silence);
      if !flush {
        return;
      }
      var emitBlocks := if silenceRun' > 0 && |phrase'| > silenceRun' then phrase'[..|phrase'| - silenceRun'] else phrase';
      assert step.1 == Emission(params, emitBlocks);
      if emitBlocks != [] {
        var audio := Samples(emitBlocks);
        if |audio| >= params.minEmit {
          EnqueueJob(audio);
          assert [audio][..0] == [];
        }
      }
      inSpeech' := false;
      phrase' := [];
      speechBlocks' := 0;
      silenceRun' := 0;
      preRoll' := [];
    }

    /**
     * `_segment_loop` over the blocks it takes from the block queue, in
     * order: the job queue receives exactly the segments the segmenter
     * emits, each through the newest-wins insertion.
     */
    method SegmentLoop(blocks: seq<Block>)
      requires Valid()
      modifies jobs
      ensures Valid()
      ensures jobs.items == OfferAll(old(jobs.items), jobs.maxsize, Run(params, blocks).1)
    {
      var inSpeech := false;
      var preRoll: seq<Block> := [];
      var phrase: seq<Block> := [];
      var speechBlocks: nat := 0;
      var silenceRun: nat := 0;
      ghost var emitted: seq<seq<int>> := [];
      var i := 0;
      while i < |blocks|
        invariant 0 <= i <= |blocks| && Valid()
        invariant Run(params, blocks[..i]).0 == Seg(inSpeech, preRoll, phrase, speechBlocks, silenceRun)
        invariant Run(params, blocks[..i]).1 == emitted
        invariant jobs.items == OfferAll(old(jobs.items), jobs.maxsize, emitted)
      {
        ghost var step := Step(params, Seg(inSpeech, preRoll, phrase, speechBlocks, silenceRun), blocks[i]);
        RunStep(params, blocks, i);
        OfferAllConcat(old(jobs.items), jobs.maxsize, emitted, Emitted(step.1));
        inSpeech, preRoll, phrase, speechBlocks, silenceRun :=
          SegmentOnce(blocks[i], inSpeech, preRoll, phrase, speechBlocks, silenceRun);
        emitted := emitted + Emitted(step.1);
        i := i + 1;
      }
      assert blocks[..i] == blocks;
    }
  }

  /** The segments the engine hands on are each long enough, and the job queue keeps the latest of them. */
  lemma {:induction false} SegmentLoopJobs(p: Params, maxsize: int, blocks: seq<Block>)
    requires ValidParams(p)
    ensures var out := Run(p, blocks).1;
      var q := OfferAll([], maxsize, out);
      q == out[|out| - Kept(|out|, maxsize)..]
      && forall k :: 0 <= k < |q| ==> |q[k]| >= p.minEmit
  {
    var out := Run(p, blocks).1;
    RunEmissions(p, blocks);
    LatestFromEmpty(maxsize, out);
    var q := OfferAll([], maxsize, out);
    forall k | 0 <= k < |q|
      ensures |q[k]| >= p.minEmit
    {
      assert q[k] == out[|out| - |q| + k];
    }
  }

  lemma {:induction false} LatestFromEmpty(maxsize: int, out: seq<seq<int>>)
    ensures OfferAll([], maxsize, out) == out[|out| - Kept(|out|, maxsize)..]
  {
    OfferAllKeepsLatest([], maxsize, out);
    assert [] + out == out;
  }
}
