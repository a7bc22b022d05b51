/**
 * The daemon's audio loop (`stream_loop` in daemon_asr.py). The capture
 * callback offers blocks to a bounded block queue while listening; the main
 * loop watches the listening flag, flushes at the edge where listening
 * stops, and takes one block per pass. In split mode each block goes
 * through the segmenter; with `process_on_stop` the blocks of a session
 * are collected and handed on as one job when listening stops.
 *
 * Interleaving is made explicit as a sequence of events: `Capture` is one
 * run of the callback, `Pass` one pass of the main loop, each with the
 * listening flag it reads. The loop's end at `state.stopped()` is the end of
 * the event sequence.
 */
module DaemonStream {
  import opened PyText
  import opened Seqs
  import opened Buffers
  import opened Segmenter
  import opened Worker

  /** The block counts of the segmenter, `audio_queue`, and `process_on_stop`. */
  datatype StreamParams = StreamParams(seg: Params, audioQueue: int, processOnStop: bool)

  /** The error recorded when a session stops with too little audio. */
  const TOO_SHORT: string := "錄音片段太短，請多說一點再按停止"

  datatype Event = Capture(listening: bool, block: Block) | Pass(listening: bool)

  /** What the loop does to the outside: hand audio to the worker, or record the too-short error. */
  datatype Effect = Emit(audio: seq<int>) | TooShort

  /** The loop's state: `last_state`, the segmenter's locals, `session_blocks`, and the block queue. */
  datatype Stream = Stream(lastState: bool, seg: Seg, session: seq<Block>, queue: seq<Block>)

  const Start: Stream := Stream(false, Idle, [], [])

  /** The capacities of the pre-roll ring and of the block queue are respected. */
  predicate Bounded(p: StreamParams, s: Stream)
  {
    Within(s.seg.preRoll, p.seg.preRoll) && Within(s.queue, p.audioQueue)
  }

  /** Besides the bounds: the segmenter invariant, and in session mode the segmenter is never used. */
  ghost predicate StreamInv(p: StreamParams, s: Stream)
  {
    Bounded(p, s) && Inv(p.seg, s.seg) && (p.processOnStop ==> s.seg == Idle)
  }

  /** Every audio effect carries at least `min_emit_samples` samples. */
  predicate LongEnough(p: StreamParams, out: seq<Effect>)
  {
    forall k :: 0 <= k < |out| && out[k].Emit? ==> |out[k].audio| >= p.seg.minEmit
  }

  function Emits(e: Option<seq<int>>): seq<Effect>
  {
    if e.Some? then [Emit(e.value)] else []
  }

  /**
   * The flush where listening stops. In session mode the whole session,
   * with the blocks still queued, goes out when long enough, and otherwise
   * a non-empty session records the too-short error. In split mode the
   * phrase in progress goes out without its trailing silence, whatever its
   * number of speech blocks.
   */
  function StopFlush(p: StreamParams, phrase: seq<Block>, silenceRun: nat, pending: seq<Block>): (out: seq<Effect>)
    ensures |out| <= 1 && LongEnough(p, out)
    ensures TooShort in out <==> p.processOnStop && pending != [] && |Samples(pending)| < p.seg.minEmit
  {
    if p.processOnStop then
      var e := Emission(p.seg, pending);
      Emits(e) + (if pending != [] && e.None? then [TooShort] else [])
    else if phrase != [] then Emits(Emission(p.seg, CutSilence(phrase, silenceRun)))
    else []
  }

  /** The check of the listening flag at the top of a pass. */
  function Edge(p: StreamParams, s: Stream, listening: bool): (r: (Stream, seq<Effect>))
    requires Bounded(p, s)
    ensures Bounded(p, r.0) && r.0.lastState == listening
    ensures r.1 != [] ==> r.0.queue == []
  {
    if listening == s.lastState then (s, [])
    else if listening then (s.(lastState := true), [])
    else
      (Stream(false, Idle, [], []), StopFlush(p, s.seg.phrase, s.seg.silenceRun, s.session + s.queue))
  }

  /** The rest of a pass: take the oldest queued block, if any, and use it while listening. */
  function Take(p: StreamParams, s: Stream, listening: bool): (r: (Stream, seq<Effect>))
    requires Bounded(p, s)
    ensures Bounded(p, r.0) && r.0.lastState == s.lastState
    ensures s.queue == [] ==> r == (s, [])
    ensures TooShort !in r.1
  {
    if s.queue == [] then (s, [])
    else
      var b := s.queue[0];
      var rest := s.(queue := s.queue[1..]);
      if !listening then (rest, [])
      else if p.processOnStop then (rest.(session := rest.session + [b]), [])
      else
        var (t, e) := Step(p.seg, s.seg, b);
        (rest.(seg := t), Emits(e))
  }

  /** One event. */
  function Tick(p: StreamParams, s: Stream, e: Event): (r: (Stream, seq<Effect>))
    requires Bounded(p, s)
    ensures Bounded(p, r.0)
  {
    match e
    case Capture(listening, b) =>
      if listening then (s.(queue := Offer(s.queue, p.audioQueue, b)), []) else (s, [])
    case Pass(listening) =>
      var edge := Edge(p, s, listening);
      var take := Take(p, edge.0, listening);
      (take.0, edge.1 + take.1)
  }

  /** The loop over `events` from the start: the final state and every effect, in order. */
  function Loop(p: StreamParams, events: seq<Event>): (r: (Stream, seq<Effect>))
    ensures Bounded(p, r.0)
    decreases |events|
  {
    if events == [] then (Start, [])
    else
      var prev := Loop(p, events[..|events| - 1]);
      var t := Tick(p, prev.0, events[|events| - 1]);
      (t.0, prev.1 + t.1)
  }

  lemma {:induction false} LoopStep(p: StreamParams, events: seq<Event>, i: nat)
    requires i < |events|
    ensures var prev := Loop(p, events[..i]);
      var t := Tick(p, prev.0, events[i]);
      Loop(p, events[..i + 1]) == (t.0, prev.1 + t.1)
  {
    assert events[..i + 1][..i] == events[..i];
  }

  /* ---------------- the jobs handed to the worker ---------------- */

  /** The worker jobs for the audio effects: the samples and `audio.size / capture_rate` seconds. */
  function Jobs(out: seq<Effect>, rate: nat): (jobs: seq<Job>)
    requires rate >= 1
    ensures |jobs| <= |out|
    decreases |out|
  {
    if out == [] then []
    else
      var last := out[|out| - 1];
      Jobs(out[..|out| - 1], rate)
        + (if last.Emit? then [Job(last.audio, |last.audio| as real / rate as real)] else [])
  }

  lemma {:induction false} JobsConcat(a: seq<Effect>, b: seq<Effect>, rate: nat)
    requires rate >= 1
    ensures Jobs(a + b, rate) == Jobs(a, rate) + Jobs(b, rate)
    decreases |b|
  {
    if b == [] {
      assert a + b == a;
    } else {
      var last := b[|b| - 1];
      var t := if last.Emit? then [Job(last.audio, |last.audio| as real / rate as real)] else [];
      JobsConcat(a, b[..|b| - 1], rate);
      ConcatInit(a, b);
      SeqAssoc(Jobs(a, rate), Jobs(b[..|b| - 1], rate), t);
    }
  }

  lemma {:induction false} JobsProgress(items: seq<Job>, maxsize: int, a: seq<Effect>, b: seq<Effect>, rate: nat)
    requires rate >= 1 && Within(items, maxsize)
    ensures OfferAll(items, maxsize, Jobs(a + b, rate))
      == OfferAll(OfferAll(items, maxsize, Jobs(a, rate)), maxsize, Jobs(b, rate))
  {
    JobsConcat(a, b, rate);
    OfferAllConcat(items, maxsize, Jobs(a, rate), Jobs(b, rate));
  }

  /** `enqueue_blocks`: hands the blocks to the worker when they make a long enough segment. */
  method EnqueueBlocks(p: Params, rate: nat, worker: RecognizerWorker, blocks: seq<Block>) returns (queued: bool)
    requires worker.Valid() && rate >= 1
    modifies worker.jobs
    ensures worker.Valid()
    ensures queued == Emission(p, blocks).Some?
    ensures worker.jobs.items
      == OfferAll(old(worker.jobs.items), worker.jobs.maxsize, Jobs(Emits(Emission(p, blocks)), rate))
  {
    if blocks == [] {
      return false;
    }
    var audio := Samples(blocks);
    if |audio| < p.minEmit {
      return false;
    }
    var speechSeconds := |audio| as real / rate as real;
    worker.Enqueue(Job(audio, speechSeconds));
    queued := true;
    assert Jobs(Emits(Emission(p, blocks)), rate) == [Job(audio, speechSeconds)];
  }

  /** The flush where listening stops; `pending` is the session with the drained block queue. */
  method FlushAtStop(p: StreamParams, rate: nat, worker: RecognizerWorker, phrase: seq<Block>, silenceRun: nat,
                     pending: seq<Block>) returns (tooShort: bool)
    requires worker.Valid() && rate >= 1
    modifies worker.jobs
    ensures worker.Valid()
    ensures var out := StopFlush(p, phrase, silenceRun, pending);
      worker.jobs.items == OfferAll(old(worker.jobs.items), worker.jobs.maxsize, Jobs(out, rate))
      && tooShort == (TooShort in out)
  {
    tooShort := false;
    if p.processOnStop {
      var queued := EnqueueBlocks(p.seg, rate, worker, pending);
      if pending != [] && !queued {
        tooShort := true;
        assert Jobs(StopFlush(p, phrase, silenceRun, pending), rate) == [];
      }
    } else if phrase != [] {
      var emitBlocks := if silenceRun > 0 && |phrase| > silenceRun then phrase[..|phrase| - silenceRun] else phrase;
      var _ := EnqueueBlocks(p.seg, rate, worker, emitBlocks);
    }
  }

  /** The split-mode handling of one block: the segmenter step, with the cut segment handed to the worker. */
  method SegmentBlock(p: Params, rate: nat, worker: RecognizerWorker, inSpeech: bool, preRoll: seq<Block>,
                      phrase: seq<Block>, speechBlocks: nat, silenceRun: nat, block: Block)
      returns (inSpeech': bool, preRoll': seq<Block>, phrase': seq<Block>, speechBlocks': nat, silenceRun': nat)
    requires Within(preRoll, p.preRoll) && worker.Valid() && rate >= 1
    modifies worker.jobs
    ensures worker.Valid()
    ensures Seg(inSpeech', preRoll', phrase', speechBlocks', silenceRun')
      == Step(p, Seg(inSpeech, preRoll, phrase, speechBlocks, silenceRun), block).0
    ensures worker.jobs.items == OfferAll(old(worker.jobs.items), worker.jobs.maxsize,
      Jobs(Emits(Step(p, Seg(inSpeech, preRoll, phrase, speechBlocks, silenceRun), block).1), rate))
  {
    ghost var step := Step(p, Seg(inSpeech, preRoll, phrase, speechBlocks, silenceRun), block);
    inSpeech', preRoll', phrase', speechBlocks', silenceRun' := inSpeech, preRoll, phrase, speechBlocks, silenceRun;
    if !inSpeech {
      preRoll' := Offer(preRoll, p.preRoll, block);
      if block.voiced {
        inSpeech' := true;
        phrase' := preRoll';
        speechBlocks' := |phrase'|;
        silenceRun' := 0;
      }
      assert step.1 == None && Jobs(Emits(step.1), rate) == [];
      return;
    }
    phrase' := phrase + [block];
    speechBlocks' := speechBlocks + 1;
    silenceRun' := if block.voiced then 0 else silenceRun + 1;
    var flush := (p.maxPhrase.Some? && speechBlocks' >= p.maxPhrase.value)
      || (speechBlocks' >= p.minSpeech && silenceRun' >= p.silence);
    if !flush {
      assert step.1 == None && Jobs(Emits(step.1), rate) == [];
      return;
    }
    var emitBlocks := if silenceRun' > 0 && |phrase'| > silenceRun' then phrase'[..|phrase'| - silenceRun'] else phrase';
    assert step.1 == Emission(p, emitBlocks);
    if emitBlocks != [] {
      var _ := EnqueueBlocks(p, rate, worker, emitBlocks);
    }
    inSpeech', phrase', speechBlocks', silenceRun', preRoll' := false, [], 0, 0, [];
  }

  /**
   * The part of a pass after the flag check: `block_queue.get`, then the
   * block joins the session or goes through the segmenter, while listening.
   */
  method TakeBlock(p: StreamParams, rate: nat, worker: RecognizerWorker, blockQueue: BoundedQueue<Block>,
                   listening: bool, lastState: bool, inSpeech: bool, preRoll: seq<Block>, phrase: seq<Block>,
                   speechBlocks: nat, silenceRun: nat, session: seq<Block>)
      returns (inSpeech': bool, preRoll': seq<Block>, phrase': seq<Block>, speechBlocks': nat, silenceRun': nat,
               session': seq<Block>)
    requires Bounded(p, Stream(lastState, Seg(inSpeech, preRoll, phrase, speechBlocks, silenceRun), session, blockQueue.items))
    requires blockQueue.Valid() && blockQueue.maxsize == p.audioQueue
    requires worker.Valid() && rate >= 1
    modifies blockQueue, worker.jobs
    ensures blockQueue.Valid() && worker.Valid()
    ensures var t := Take(p, Stream(lastState, Seg(inSpeech, preRoll, phrase, speechBlocks, silenceRun), session,
                                    old(blockQueue.items)), listening);
      t.0 == Stream(lastState, Seg(inSpeech', preRoll', phrase', speechBlocks', silenceRun'), session', blockQueue.items)
      && worker.jobs.items == OfferAll(old(worker.jobs.items), worker.jobs.maxsize, Jobs(t.1, rate))
  {
    inSpeech', preRoll', phrase', speechBlocks', silenceRun', session' := inSpeech, preRoll, phrase, speechBlocks, silenceRun, session;
    var got := blockQueue.GetNowait();
    if got.None? || !listening {
      return;
    }
    var block := got.value;
    if p.processOnStop {
      session' := session + [block];
      return;
    }
    inSpeech', preRoll', phrase', speechBlocks', silenceRun' :=
      SegmentBlock(p.seg, rate, worker, inSpeech, preRoll, phrase, speechBlocks, silenceRun, block);
  }

  /** One pass of the main loop: the check of the listening flag, then the block taken. */
  method PassOnce(p: StreamParams, rate: nat, worker: RecognizerWorker, blockQueue: BoundedQueue<Block>,
                  listening: bool, lastState: bool, inSpeech: bool, preRoll: seq<Block>, phrase: seq<Block>,
                  speechBlocks: nat, silenceRun: nat, session: seq<Block>)
      returns (lastState': bool, inSpeech': bool, preRoll': seq<Block>, phrase': seq<Block>, speechBlocks': nat,
               silenceRun': nat, session': seq<Block>, tooShort: bool)
    requires Bounded(p, Stream(lastState, Seg(inSpeech, preRoll, phrase, speechBlocks, silenceRun), session, blockQueue.items))
    requires blockQueue.Valid() && blockQueue.maxsize == p.audioQueue
    requires worker.Valid() && rate >= 1
    modifies blockQueue, worker.jobs
    ensures blockQueue.Valid() && worker.Valid()
    ensures var t := Tick(p, Stream(lastState, Seg(inSpeech, preRoll, phrase, speechBlocks, silenceRun), session,
                                    old(blockQueue.items)), Pass(listening));
      t.0 == Stream(lastState', Seg(inSpeech', preRoll', phrase', speechBlocks', silenceRun'), session', blockQueue.items)
      && worker.jobs.items == OfferAll(old(worker.jobs.items), worker.jobs.maxsize, Jobs(t.1, rate))
      && tooShort == (TooShort in t.1)
  {
    ghost var s := Stream(lastState, Seg(inSpeech, preRoll, phrase, speechBlocks, silenceRun), session, blockQueue.items);
    ghost var edge := Edge(p, s, listening);
    lastState', inSpeech', preRoll', phrase', speechBlocks', silenceRun', session' :=
      lastState, inSpeech, preRoll, phrase, speechBlocks, silenceRun, session;
    tooShort := false;
    if listening != lastState {
      lastState' := listening;
      if !listening {
        var rest := blockQueue.Drain();
        tooShort := FlushAtStop(p, rate, worker, phrase, silenceRun, session + rest);
        inSpeech', phrase', session', speechBlocks', silenceRun', preRoll' := false, [], [], 0, 0, [];
        blockQueue.Clear();
      }
    }
    assert edge.0 == Stream(lastState', Seg(inSpeech', preRoll', phrase', speechBlocks', silenceRun'), session', blockQueue.items);
    ghost var jobsMid := worker.jobs.items;
    assert jobsMid == OfferAll(old(worker.jobs.items), worker.jobs.maxsize, Jobs(edge.1, rate));
    ghost var take := Take(p, edge.0, listening);
    inSpeech', preRoll', phrase', speechBlocks', silenceRun', session' :=
      TakeBlock(p, rate, worker, blockQueue, listening, lastState', inSpeech', preRoll', phrase', speechBlocks', silenceRun', session');
    JobsProgress(old(worker.jobs.items), worker.jobs.maxsize, edge.1, take.1, rate);
    assert edge.1 != [] ==> take.1 == [];
  }

  /** One event of `stream_loop`: a captured block is queued, a pass of the loop consumes the queue. */
  method EventOnce(p: StreamParams, rate: nat, worker: RecognizerWorker, blockQueue: BoundedQueue<Block>, e: Event,
                   lastState: bool, inSpeech: bool, preRoll: seq<Block>, phrase: seq<Block>,
                   speechBlocks: nat, silenceRun: nat, session: seq<Block>)
      returns (lastState': bool, inSpeech': bool, preRoll': seq<Block>, phrase': seq<Block>, speechBlocks': nat,
               silenceRun': nat, session': seq<Block>, tooShort: bool)
    requires Bounded(p, Stream(lastState, Seg(inSpeech, preRoll, phrase, speechBlocks, silenceRun), session, blockQueue.items))
    requires blockQueue.Valid() && blockQueue.maxsize == p.audioQueue
    requires worker.Valid() && rate >= 1
    modifies blockQueue, worker.jobs
    ensures blockQueue.Valid() && worker.Valid()
    ensures var t := Tick(p, Stream(lastState, Seg(inSpeech, preRoll, phrase, speechBlocks, silenceRun), session,
                                    old(blockQueue.items)), e);
      t.0 == Stream(lastState', Seg(inSpeech', preRoll', phrase', speechBlocks', silenceRun'), session', blockQueue.items)
      && worker.jobs.items == OfferAll(old(worker.jobs.items), worker.jobs.maxsize, Jobs(t.1, rate))
      && tooShort == (TooShort in t.1)
  {
    match e {
      case Capture(listening, block) =>
        lastState', inSpeech', preRoll', phrase', speechBlocks', silenceRun', session', tooShort :=
          lastState, inSpeech, preRoll, phrase, speechBlocks, silenceRun, session, false;
        if listening {
          var _ := blockQueue.PutNewest(block);
        }
      case Pass(listening) =>
        lastState', inSpeech', preRoll', phrase', speechBlocks', silenceRun', session', tooShort :=
          PassOnce(p, rate, worker, blockQueue, listening, lastState, inSpeech, preRoll, phrase, speechBlocks, silenceRun, session);
    }
  }

  /**
   * `stream_loop` over the events, feeding `worker`: the worker's job queue
   * receives the audio effects of the loop in order, and the too-short error
   * is recorded exactly when a session stopped with too little audio.
   */
  method StreamLoop(p: StreamParams, rate: nat, events: seq<Event>, worker: RecognizerWorker)
      returns (lastError: Option<string>)
    requires rate >= 1 && worker.Valid()
    modifies worker.jobs
    ensures worker.Valid()
    ensures var out := Loop(p, events).1;
      worker.jobs.items == OfferAll(old(worker.jobs.items), worker.jobs.maxsize, Jobs(out, rate))
      && lastError == (if TooShort in out then Some(TOO_SHORT) else None)
  {
    var blockQueue := new BoundedQueue<Block>(p.audioQueue);
    var lastState := false;
    var inSpeech := false;
    var preRoll: seq<Block> := [];
    var phrase: seq<Block> := [];
    var speechBlocks: nat := 0;
    var silenceRun: nat := 0;
    var session: seq<Block> := [];
    lastError := None;
    ghost var out: seq<Effect> := [];
    var i := 0;
    while i < |events|
      invariant 0 <= i <= |events|
      invariant fresh(blockQueue) && blockQueue.Valid() && blockQueue.maxsize == p.audioQueue
      invariant worker.Valid()
      invariant Loop(p, events[..i]).0
        == Stream(lastState, Seg(inSpeech, preRoll, phrase, speechBlocks, silenceRun), session, blockQueue.items)
      invariant Loop(p, events[..i]).1 == out
      invariant worker.jobs.items == OfferAll(old(worker.jobs.items), worker.jobs.maxsize, Jobs(out, rate))
      invariant lastError == if TooShort in out then Some(TOO_SHORT) else None
    {
      ghost var tick := Tick(p, Loop(p, events[..i]).0, events[i]);
      LoopStep(p, events, i);
      JobsProgress(old(worker.jobs.items), worker.jobs.maxsize, out, tick.1, rate);
      var tooShort;
      lastState, inSpeech, preRoll, phrase, speechBlocks, silenceRun, session, tooShort :=
        EventOnce(p, rate, worker, blockQueue, events[i], lastState, inSpeech, preRoll, phrase, speechBlocks, silenceRun, session);
      if tooShort {
        lastError := Some(TOO_SHORT);
      }
      out := out + tick.1;
      i := i + 1;
    }
    assert events[..i] == events;
  }

  /* ---------------- what the loop guarantees ---------------- */

  lemma {:induction false} LongEnoughConcat(p: StreamParams, a: seq<Effect>, b: seq<Effect>)
    requires LongEnough(p, a) && LongEnough(p, b)
    ensures LongEnough(p, a + b)
  {
    forall k | 0 <= k < |a + b| && (a + b)[k].Emit?
      ensures |(a + b)[k].audio| >= p.seg.minEmit
    {
      if k >= |a| {
        assert (a + b)[k] == b[k - |a|];
      }
    }
  }

  /** One event keeps the invariant, and whatever audio it hands on is long enough. */
  lemma {:induction false} TickKeepsInv(p: StreamParams, s: Stream, e: Event)
    requires StreamInv(p, s) && ValidParams(p.seg)
    ensures StreamInv(p, Tick(p, s, e).0) && LongEnough(p, Tick(p, s, e).1)
  {
    match e
    case Capture(_, _) =>
    case Pass(listening) =>
      IdleInv(p.seg);
      var edge := Edge(p, s, listening);
      assert StreamInv(p, edge.0);
      var take := Take(p, edge.0, listening);
      if edge.0.queue != [] && listening && !p.processOnStop {
        StepKeepsInv(p.seg, edge.0.seg, edge.0.queue[0]);
      }
      LongEnoughConcat(p, edge.1, take.1);
  }

  /**
   * Between any two events the segmenter invariant holds and the block
   * queue respects its capacity, and every segment the loop hands on has at
   * least `min_emit_samples` samples, in either mode.
   */
  lemma {:induction false} LoopInvariant(p: StreamParams, events: seq<Event>)
    requires ValidParams(p.seg)
    ensures StreamInv(p, Loop(p, events).0) && LongEnough(p, Loop(p, events).1)
    decreases |events|
  {
    if events == [] {
      IdleInv(p.seg);
    } else {
      var init := events[..|events| - 1];
      LoopInvariant(p, init);
      var prev := Loop(p, init);
      TickKeepsInv(p, prev.0, events[|events| - 1]);
      LongEnoughConcat(p, prev.1, Tick(p, prev.0, events[|events| - 1]).1);
    }
  }

  /** Every captured block followed by one pass of the main loop, while listening. */
  function Pairs(blocks: seq<Block>): (events: seq<Event>)
    ensures |events| == 2 * |blocks|
    decreases |blocks|
  {
    if blocks == [] then []
    else Pairs(blocks[..|blocks| - 1]) + [Capture(true, blocks[|blocks| - 1]), Pass(true)]
  }

  function EmitAll(audios: seq<seq<int>>): (out: seq<Effect>)
  {
    seq(|audios|, k requires 0 <= k < |audios| => Emit(audios[k]))
  }

  /** The first pass with listening on only records the new flag. */
  lemma {:induction false} StartListening(p: StreamParams)
    ensures Loop(p, [Pass(true)]) == (Stream(true, Idle, [], []), [])
    ensures Loop(p, [Pass(true)] + Pairs([])) == (Stream(true, Idle, [], []), [])
  {
    assert [Pass(true)][..0] == [];
    assert [Pass(true)] + Pairs([]) == [Pass(true)];
    var on := Stream(true, Idle, [], []);
    assert Edge(p, Start, true) == (on, []);
    assert Take(p, on, true) == (on, []);
    var t := Tick(p, Start, Pass(true));
    assert t.1 == Edge(p, Start, true).1 + Take(p, on, true).1;
    assert t.0 == on;
    assert t.1 == [];
  }

  /** Two more events at the end of the loop. */
  lemma {:induction false} LoopSnoc2(p: StreamParams, events: seq<Event>, a: Event, b: Event)
    ensures var prev := Loop(p, events);
      var t1 := Tick(p, prev.0, a);
      var t2 := Tick(p, t1.0, b);
      Loop(p, events + [a, b]) == (t2.0, prev.1 + t1.1 + t2.1)
  {
    var all := events + [a, b];
    assert all[..|all| - 1] == events + [a];
    assert (events + [a])[..|events|] == events;
  }

  /** A block captured while listening, then taken by the next pass, from an empty block queue. */
  lemma {:induction false} PairStep(p: StreamParams, s: Stream, b: Block)
    requires Bounded(p, s) && s.lastState && s.queue == []
    ensures var c := Tick(p, s, Capture(true, b));
      c == (s.(queue := [b]), [])
      && (p.processOnStop ==> Tick(p, c.0, Pass(true)) == (s.(session := s.session + [b]), []))
      && (!p.processOnStop ==> Tick(p, c.0, Pass(true)) == (s.(seg := Step(p.seg, s.seg, b).0), Emits(Step(p.seg, s.seg, b).1)))
  {
    var q := s.(queue := [b]);
    assert Offer([], p.audioQueue, b) == [b];
    assert Edge(p, q, true) == (q, []);
    assert [b][1..] == [] && q.(queue := []) == s;
    var t := Tick(p, q, Pass(true));
    assert t.1 == [] + Take(p, q, true).1;
    if !p.processOnStop {
      var step := Step(p.seg, s.seg, b);
      assert Take(p, q, true) == (s.(seg := step.0), Emits(step.1));
      assert [] + Emits(step.1) == Emits(step.1);
    }
  }

  /**
   * In split mode, with each captured block taken by the next pass, the
   * daemon's loop is exactly the segmenter: its state is the segmenter's and
   * it hands on exactly the segments the segmenter emits.
   */
  lemma {:induction false} SplitModeIsSegmenter(p: StreamParams, blocks: seq<Block>)
    requires ValidParams(p.seg) && !p.processOnStop
    ensures Loop(p, [Pass(true)] + Pairs(blocks)) == (Stream(true, Run(p.seg, blocks).0, [], []), EmitAll(Run(p.seg, blocks).1))
    decreases |blocks|
  {
    if blocks == [] {
      StartListening(p);
      assert Run(p.seg, blocks) == (Idle, []);
      assert EmitAll([]) == [];
    } else {
      var init := blocks[..|blocks| - 1];
      SplitModeIsSegmenter(p, init);
      SplitModeStep(p, init, blocks[|blocks| - 1]);
      InitLast(blocks);
    }
  }

  lemma {:induction false} SplitModeStep(p: StreamParams, init: seq<Block>, b: Block)
    requires ValidParams(p.seg) && !p.processOnStop
    requires Loop(p, [Pass(true)] + Pairs(init)) == (Stream(true, Run(p.seg, init).0, [], []), EmitAll(Run(p.seg, init).1))
    ensures Loop(p, [Pass(true)] + Pairs(init + [b]))
      == (Stream(true, Run(p.seg, init + [b]).0, [], []), EmitAll(Run(p.seg, init + [b]).1))
  {
    SplitModeLoop(p, init, b);
    RunSnoc(p.seg, init, b);
  }

  /** The loop's side of one more block in split mode. */
  lemma {:induction false} SplitModeLoop(p: StreamParams, init: seq<Block>, b: Block)
    requires ValidParams(p.seg) && !p.processOnStop
    requires Loop(p, [Pass(true)] + Pairs(init)) == (Stream(true, Run(p.seg, init).0, [], []), EmitAll(Run(p.seg, init).1))
    ensures var prev := Run(p.seg, init);
      var step := Step(p.seg, prev.0, b);
      Loop(p, [Pass(true)] + Pairs(init + [b])) == (Stream(true, step.0, [], []), EmitAll(prev.1) + Emits(step.1))
  {
    var events := [Pass(true)] + Pairs(init);
    PairsSnoc(init, b);
    LoopSnoc2(p, events, Capture(true, b), Pass(true));
    var prev := Run(p.seg, init);
    var step := Step(p.seg, prev.0, b);
    var s := Stream(true, prev.0, [], []);
    PairStep(p, s, b);
    var t1 := Tick(p, s, Capture(true, b));
    var t2 := Tick(p, t1.0, Pass(true));
    assert t1.1 == [] && t2 == (Stream(true, step.0, [], []), Emits(step.1));
    DropEmpty(EmitAll(prev.1), t1.1, t2.1);
  }

  /** One more block for the segmenter, with its emission as effects. */
  lemma {:induction false} RunSnoc(p: Params, init: seq<Block>, b: Block)
    requires ValidParams(p)
    ensures var prev := Run(p, init);
      var step := Step(p, prev.0, b);
      Run(p, init + [b]).0 == step.0 && EmitAll(Run(p, init + [b]).1) == EmitAll(prev.1) + Emits(step.1)
  {
    var blocks := init + [b];
    RunStep(p, blocks, |init|);
    assert blocks[..|init|] == init && blocks[..|init| + 1] == blocks;
    var prev := Run(p, init);
    EmitAllSnoc(prev.1, Step(p, prev.0, b).1);
  }

  lemma {:induction false} PairsSnoc(init: seq<Block>, b: Block)
    ensures [Pass(true)] + Pairs(init + [b]) == ([Pass(true)] + Pairs(init)) + [Capture(true, b), Pass(true)]
  {
    var blocks := init + [b];
    assert blocks[..|blocks| - 1] == init;
  }

  lemma {:induction false} EmitAllSnoc(audios: seq<seq<int>>, e: Option<seq<int>>)
    ensures EmitAll(audios + Emitted(e)) == EmitAll(audios) + Emits(e)
  {
  }

  /** In session mode, while listening, every captured block taken by the loop joins the session. */
  lemma {:induction false} SessionCollects(p: StreamParams, blocks: seq<Block>)
    requires p.processOnStop
    ensures Loop(p, [Pass(true)] + Pairs(blocks)) == (Stream(true, Idle, blocks, []), [])
    decreases |blocks|
  {
    if blocks == [] {
      StartListening(p);
    } else {
      var init := blocks[..|blocks| - 1];
      var b := blocks[|blocks| - 1];
      SessionCollects(p, init);
      var events := [Pass(true)] + Pairs(init);
      assert init + [b] == blocks;
      PairsSnoc(init, b);
      LoopSnoc2(p, events, Capture(true, b), Pass(true));
      PairStep(p, Stream(true, Idle, init, []), b);
    }
  }

  /**
   * A session ended by a stop is handed on whole when it has enough
   * samples; a non-empty session with too few records the too-short error
   * instead; an empty one does nothing.
   */
  lemma {:induction false} SessionFlushAtStop(p: StreamParams, blocks: seq<Block>)
    requires p.processOnStop
    ensures var out := Loop(p, [Pass(true)] + Pairs(blocks) + [Pass(false)]).1;
      (blocks == [] ==> out == [])
      && (blocks != [] && |Samples(blocks)| >= p.seg.minEmit ==> out == [Emit(Samples(blocks))])
      && (blocks != [] && |Samples(blocks)| < p.seg.minEmit ==> out == [TooShort])
  {
    SessionStop(p, blocks);
    SessionFlushOutcome(p, blocks);
  }

  /** The stop that ends a collected session flushes exactly that session. */
  lemma {:induction false} SessionStop(p: StreamParams, blocks: seq<Block>)
    requires p.processOnStop
    ensures Loop(p, [Pass(true)] + Pairs(blocks) + [Pass(false)]).1 == StopFlush(p, [], 0, blocks)
  {
    var events := [Pass(true)] + Pairs(blocks);
    SessionCollects(p, blocks);
    var all := events + [Pass(false)];
    assert all[..|all| - 1] == events;
    var s := Stream(true, Idle, blocks, []);
    assert s.session + s.queue == blocks;
    var edge := Edge(p, s, false);
    assert edge == (Stream(false, Idle, [], []), StopFlush(p, [], 0, blocks));
    assert Take(p, edge.0, false) == (edge.0, []);
    EmptyAround(edge.1);
  }

  lemma {:induction false} SessionFlushOutcome(p: StreamParams, blocks: seq<Block>)
    requires p.processOnStop
    ensures var out := StopFlush(p, [], 0, blocks);
      (blocks == [] ==> out == [])
      && (blocks != [] && |Samples(blocks)| >= p.seg.minEmit ==> out == [Emit(Samples(blocks))])
      && (blocks != [] && |Samples(blocks)| < p.seg.minEmit ==> out == [TooShort])
  {
  }

  /**
   * In split mode, when listening stops in the middle of a phrase, the
   * phrase up to its last voiced block goes out if it has enough samples,
   * however few speech blocks it has; the loop returns to the start state.
   */
  lemma {:induction false} StopFlushIgnoresMinSpeech(p: StreamParams, s: Stream)
    requires StreamInv(p, s) && !p.processOnStop && s.lastState && s.seg.inSpeech
    ensures var phrase := s.seg.phrase;
      var cut := phrase[..|phrase| - TrailingSilence(phrase)];
      Tick(p, s, Pass(false)) == (Stream(false, Idle, [], []), if |Samples(cut)| >= p.seg.minEmit then [Emit(Samples(cut))] else [])
  {
    var phrase := s.seg.phrase;
    var cut := phrase[..|phrase| - TrailingSilence(phrase)];
    assert phrase[..|phrase|] == phrase;
    assert CutSilence(phrase, s.seg.silenceRun) == cut && cut != [];
    var flush := StopFlush(p, phrase, s.seg.silenceRun, s.session + s.queue);
    assert flush == if |Samples(cut)| >= p.seg.minEmit then [Emit(Samples(cut))] else [];
    assert Edge(p, s, false) == (Stream(false, Idle, [], []), flush);
    assert flush + [] == flush;
  }

  /** While not listening nothing is captured, and a pass only discards a stale block. */
  lemma {:induction false} NothingWhileStopped(p: StreamParams, s: Stream, b: Block)
    requires Bounded(p, s) && !s.lastState
    ensures Tick(p, s, Capture(false, b)) == (s, [])
    ensures Tick(p, s, Pass(false)) == (s.(queue := if s.queue == [] then [] else s.queue[1..]), [])
  {
    assert Edge(p, s, false) == (s, []);
    assert Take(p, s, false) == (s.(queue := if s.queue == [] then [] else s.queue[1..]), []);
    var t := Tick(p, s, Pass(false));
    assert t.1 == Edge(p, s, false).1 + Take(p, s, false).1;
    assert t.0 == Take(p, s, false).0;
    assert t.1 == [];
  }
}
