/**
 * The bounded buffers shared by the daemon and the IBus engine: Python's
 * `queue.Queue(maxsize)` used without blocking (the job queue and the audio
 * block queue), its newest-wins insertion, and the `deque(maxlen)` append
 * behind the pre-roll ring and the context memory.
 */
module Buffers {
  import opened PyText

  /** A queue of at most `maxsize` items; a `maxsize` of zero or less is unbounded. */
  predicate Within<T>(items: seq<T>, maxsize: int)
  {
    maxsize > 0 ==> |items| <= maxsize
  }

  /** How many of `n` offered items a buffer of this size retains. */
  function Kept(n: nat, maxsize: int): (k: nat)
    ensures k <= n
    ensures maxsize > 0 ==> k <= maxsize
  {
    if maxsize > 0 && n > maxsize then maxsize else n
  }

  /**
   * Offering `x`: when the buffer is full the oldest item goes, and `x`
   * always becomes the newest. This is the newest-wins `enqueue` of a
   * bounded queue and the `append` of a `deque(maxlen)`.
   */
  function Offer<T>(items: seq<T>, maxsize: int, x: T): (r: seq<T>)
    requires Within(items, maxsize)
    ensures Within(r, maxsize)
    ensures r != [] && r[|r| - 1] == x
    ensures |r| == Kept(|items| + 1, maxsize)
  {
    if maxsize > 0 && |items| >= maxsize then items[1..] + [x] else items + [x]
  }

  /** Only the oldest item can be lost: the buffer is the newest part of its history. */
  lemma {:induction false} OfferSuffix<T>(items: seq<T>, maxsize: int, x: T)
    requires Within(items, maxsize)
    ensures var r := Offer(items, maxsize, x);
      r == (items + [x])[|items| + 1 - |r|..]
  {
  }

  /** Offering the items of `xs` one by one, oldest first. */
  function OfferAll<T>(items: seq<T>, maxsize: int, xs: seq<T>): (r: seq<T>)
    requires Within(items, maxsize)
    ensures Within(r, maxsize)
    decreases |xs|
  {
    if xs == [] then items
    else Offer(OfferAll(items, maxsize, xs[..|xs| - 1]), maxsize, xs[|xs| - 1])
  }

  lemma {:induction false} KeptStep(n: nat, maxsize: int)
    ensures Kept(Kept(n, maxsize) + 1, maxsize) == Kept(n + 1, maxsize)
  {
  }

  lemma {:induction false} SuffixOfSuffix<T>(h: seq<T>, a: nat, b: nat)
    requires a <= |h| && b <= |h| - a
    ensures h[a..][b..] == h[a + b..]
  {
  }

  /** Appending one item to a suffix of a history and keeping a suffix of that gives a suffix of the longer history. */
  lemma {:induction false} SuffixStep<T>(g: seq<T>, x: T, prev: seq<T>, r: seq<T>)
    requires |prev| <= |g| && prev == g[|g| - |prev|..]
    requires |r| <= |prev| + 1 && r == (prev + [x])[|prev| + 1 - |r|..]
    ensures r == (g + [x])[|g| + 1 - |r|..]
  {
    var h := g + [x];
    assert prev + [x] == h[|g| - |prev|..];
    SuffixOfSuffix(h, |g| - |prev|, |prev| + 1 - |r|);
  }

  /** The step of `OfferAllKeepsLatest`: one more offer keeps the buffer the newest part of its history. */
  lemma {:induction false} KeepsLatestStep<T>(items: seq<T>, maxsize: int, xs: seq<T>)
    requires Within(items, maxsize) && xs != []
    requires var g := items + xs[..|xs| - 1];
      OfferAll(items, maxsize, xs[..|xs| - 1]) == g[|g| - Kept(|g|, maxsize)..]
    ensures var h := items + xs;
      OfferAll(items, maxsize, xs) == h[|h| - Kept(|h|, maxsize)..]
  {
    var x := xs[|xs| - 1];
    var init := xs[..|xs| - 1];
    var g := items + init;
    var prev := OfferAll(items, maxsize, init);
    var r := Offer(prev, maxsize, x);
    assert OfferAll(items, maxsize, xs) == r;
    assert items + xs == g + [x] by { assert xs == init + [x]; }
    KeptStep(|g|, maxsize);
    OfferSuffix(prev, maxsize, x);
    SuffixStep(g, x, prev, r);
  }

  /** After any run of offers the buffer holds exactly the most recent items of its history, in order. */
  lemma {:induction false} OfferAllKeepsLatest<T>(items: seq<T>, maxsize: int, xs: seq<T>)
    requires Within(items, maxsize)
    ensures var h := items + xs;
      OfferAll(items, maxsize, xs) == h[|h| - Kept(|h|, maxsize)..]
    decreases |xs|
  {
    if xs == [] {
      assert items + xs == items;
    } else {
      OfferAllKeepsLatest(items, maxsize, xs[..|xs| - 1]);
      KeepsLatestStep(items, maxsize, xs);
    }
  }

  /** Offering two runs of items one after the other. */
  lemma {:induction false} OfferAllConcat<T>(items: seq<T>, maxsize: int, xs: seq<T>, ys: seq<T>)
    requires Within(items, maxsize)
    ensures OfferAll(items, maxsize, xs + ys) == OfferAll(OfferAll(items, maxsize, xs), maxsize, ys)
    decreases |ys|
  {
    if ys == [] {
      assert xs + ys == xs;
    } else {
      OfferAllConcat(items, maxsize, xs, ys[..|ys| - 1]);
      assert (xs + ys)[..|xs + ys| - 1] == xs + ys[..|ys| - 1];
    }
  }

  /**
   * A `queue.Queue` as used by the daemon and the engine: only the
   * non-blocking operations, one thread at a time.
   */
  class BoundedQueue<T> {
    var items: seq<T>
    const maxsize: int

    ghost predicate Valid()
      reads this
    {
      Within(items, maxsize)
    }

    /** `queue.Queue(maxsize=maxsize)`. */
    constructor (maxsize: int)
      ensures Valid() && this.maxsize == maxsize && items == []
    {
      this.maxsize := maxsize;
      items := [];
    }

    /** `q.full()`. */
    predicate Full()
      reads this
    {
      maxsize > 0 && |items| >= maxsize
    }

    /** `q.empty()`. */
    predicate Empty()
      reads this
    {
      items == []
    }

    /** `q.put_nowait(x)`; `accepted` is false where Python raises `queue.Full`. */
    method PutNowait(x: T) returns (accepted: bool)
      requires Valid()
      modifies this
      ensures Valid()
      ensures accepted == !old(Full())
      ensures items == if accepted then old(items) + [x] else old(items)
    {
      if Full() {
        accepted := false;
      } else {
        items := items + [x];
        accepted := true;
      }
    }

    /** `q.get_nowait()`; `None` where Python raises `queue.Empty`. */
    method GetNowait() returns (r: Option<T>)
      requires Valid()
      modifies this
      ensures Valid()
      ensures old(items) == [] ==> r == None && items == []
      ensures old(items) != [] ==> r == Some(old(items)[0]) && items == old(items)[1..]
    {
      if items == [] {
        r := None;
      } else {
        r := Some(items[0]);
        items := items[1..];
      }
    }

    /**
     * The never-blocking insertion of `enqueue`, `_enqueue_job` and the audio
     * callbacks: try to put; on `queue.Full` take the oldest item out and put
     * again, which then always succeeds. `dropped` is the job that was lost.
     */
    method PutNewest(x: T) returns (dropped: Option<T>)
      requires Valid()
      modifies this
      ensures Valid()
      ensures items == Offer(old(items), maxsize, x)
      ensures old(Full()) ==> dropped == Some(old(items)[0])
      ensures !old(Full()) ==> dropped == None
    {
      var accepted := PutNowait(x);
      dropped := None;
      if !accepted {
        dropped := GetNowait();
        accepted := PutNowait(x);
      }
    }

    /** `_clear_queue(q)`: take items out until the queue reports empty. */
    method Clear()
      requires Valid()
      modifies this
      ensures Valid() && items == []
    {
      while !Empty()
        invariant Valid()
        decreases |items|
      {
        var _ := GetNowait();
      }
    }

    /** The daemon's drain loop at a stop edge: take every queued item out, oldest first. */
    method Drain() returns (taken: seq<T>)
      requires Valid()
      modifies this
      ensures Valid() && items == [] && taken == old(items)
    {
      taken := [];
      while true
        invariant Valid() && taken + items == old(items)
        decreases |items|
      {
        var r := GetNowait();
        if r.None? {
          break;
        }
        taken := taken + [r.value];
      }
    }
  }
}
