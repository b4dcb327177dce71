/** The thread-safe FIFO between the processing unit and the client interface. */
module QueueBuffers {
  /** `recent` (pushWaitNew) is a counter of pushes, deliberately not the queue length. */
  datatype Buffer<T> = Buffer(queue: seq<T>, enabled: bool, recent: nat, threshold: nat)

  function Pushed<T>(b: Buffer<T>, x: T): Buffer<T> {
    b.(queue := b.queue + [x], recent := if b.enabled then b.recent + 1 else b.recent)
  }

  function PushedAll<T>(b: Buffer<T>, xs: seq<T>): Buffer<T>
    decreases |xs|
  {
    if xs == [] then b else PushedAll(Pushed(b, xs[0]), xs[1..])
  }

  predicate Full<T>(b: Buffer<T>) { |b.queue| >= b.threshold }

  predicate Enough<T>(b: Buffer<T>) { b.recent >= b.threshold }

  /** A wake-up of a waiting thread without a signal, `delay` milliseconds after the last
      one; meanwhile other threads pushed items. */
  datatype Wake<T> = Wake(delay: nat, pushes: seq<T>)

  ghost function TotalDelay<T>(wakes: seq<Wake<T>>): nat {
    if wakes == [] then 0 else wakes[0].delay + TotalDelay(wakes[1..])
  }

  /** The end of a wait and the number of wake-ups it took: it succeeds at the first wake-up
      that finds enough recent pushes, or else at the timeout if `last` makes them enough. */
  function Waited<T>(b: Buffer<T>, wakes: seq<Wake<T>>, last: seq<T>): (r: (Buffer<T>, bool))
    decreases |wakes|
  {
    if Enough(b) then (b.(recent := 0), true)
    else if wakes != [] then Waited(PushedAll(b, wakes[0].pushes), wakes[1..], last)
    else
      var b' := PushedAll(b, last);
      if Enough(b') then (b'.(recent := 0), true) else (b', false)
  }

  /** The buffer and the verdict after `push_wait`. */
  function AfterWait<T>(b: Buffer<T>, wakes: seq<Wake<T>>, last: seq<T>): (r: (Buffer<T>, bool)) {
    if Full(b) then (b.(recent := 0), true) else Waited(b, wakes, last)
  }

  /** What is pushed up to the n-th look at the counter: none before the first, what `wakes`
      bring up to the n-th wake-up, and `last` by the timeout. */
  function PushedBy<T>(wakes: seq<Wake<T>>, last: seq<T>, n: nat): seq<T>
    requires n <= |wakes| + 1
  {
    if n == 0 then []
    else PushedBy(wakes, last, n - 1) + if n <= |wakes| then wakes[n - 1].pushes else last
  }

  /** The counter after those pushes. */
  function CounterBy<T>(b: Buffer<T>, wakes: seq<Wake<T>>, last: seq<T>, n: nat): nat
    requires n <= |wakes| + 1
  {
    b.recent + if b.enabled then |PushedBy(wakes, last, n)| else 0
  }

  class QueueBuffer<T> {
    var queue: seq<T>
    var pushWaitEnabled: bool
    var pushWaitNew: nat
    var pushWaitThreshold: nat

    constructor ()
      ensures View() == Buffer([], false, 0, 0)
    {
      queue, pushWaitEnabled, pushWaitNew, pushWaitThreshold := [], false, 0, 0;
    }

    ghost function View(): Buffer<T>
      reads this
    {
      Buffer(queue, pushWaitEnabled, pushWaitNew, pushWaitThreshold)
    }

    method SetPushWaitThreshold(threshold: nat)
      modifies this
      ensures View() == old(View()).(enabled := true, threshold := threshold)
    {
      pushWaitEnabled := true;
      pushWaitThreshold := threshold;
    }

    method Push(item: T)
      modifies this
      ensures View() == Pushed(old(View()), item)
    {
      queue := queue + [item];
      if pushWaitEnabled {
        pushWaitNew := pushWaitNew + 1;
      }
    }

    /** Items pushed by other threads. */
    method PushOthers(items: seq<T>)
      modifies this
      ensures View() == PushedAll(old(View()), items)
    {
      var i := 0;
      while i < |items|
        invariant 0 <= i <= |items|
        invariant PushedAll(View(), items[i..]) == PushedAll(old(View()), items)
      {
        Push(items[i]);
        assert items[i..][1..] == items[i + 1..];
        i := i + 1;
      }
    }

    method PopAll() returns (items: seq<T>)
      modifies this
      ensures items == old(queue) && View() == old(View()).(queue := [])
    {
      items := [];
      queue, items := items, queue;
    }

    /** Wait at most `milliseconds` for enough recent pushes.  Waiting releases the lock:
        `wakes` are the wake-ups before the timeout, `last` what is pushed after them. */
    method PushWait(milliseconds: nat, wakes: seq<Wake<T>>, last: seq<T>) returns (ok: bool)
      requires TotalDelay(wakes) <= milliseconds
      modifies this
      ensures (View(), ok) == AfterWait(old(View()), wakes, last)
      ensures pushWaitEnabled == old(pushWaitEnabled) && pushWaitThreshold == old(pushWaitThreshold)
      ensures old(|queue|) >= pushWaitThreshold ==> ok && queue == old(queue) && pushWaitNew == 0
      ensures old(|queue|) < pushWaitThreshold ==>
                && (ok <==> CounterBy(old(View()), wakes, last, |wakes| + 1) >= pushWaitThreshold)
                && exists n :: 0 <= n <= |wakes| + 1
                     && queue == old(queue) + PushedBy(wakes, last, n)
                     && (forall m :: 0 <= m < n ==> CounterBy(old(View()), wakes, last, m) < pushWaitThreshold)
                     && if ok then pushWaitNew == 0 && CounterBy(old(View()), wakes, last, n) >= pushWaitThreshold
                        else pushWaitNew == CounterBy(old(View()), wakes, last, n) && n == |wakes| + 1
    {
      ghost var n := WaitIs(View(), wakes, last);
      ok := |queue| >= pushWaitThreshold;
      if !ok {
        var i := 0;
        while pushWaitNew < pushWaitThreshold && i < |wakes|
          invariant 0 <= i <= |wakes|
          invariant Waited(View(), wakes[i..], last) == Waited(old(View()), wakes, last)
          decreases |wakes| - i
        {
          PushOthers(wakes[i].pushes);
          assert wakes[i..][1..] == wakes[i + 1..];
          i := i + 1;
        }
        if pushWaitNew < pushWaitThreshold {
          PushOthers(last);
        }
        ok := pushWaitNew >= pushWaitThreshold;
      }
      if ok {
        pushWaitNew := 0;
      }
    }
  }

  lemma {:induction false} PushedAllIs<T>(b: Buffer<T>, xs: seq<T>)
    ensures PushedAll(b, xs) ==
            b.(queue := b.queue + xs, recent := if b.enabled then b.recent + |xs| else b.recent)
    decreases |xs|
  {
    if xs == [] {
      assert b.queue + xs == b.queue;
    } else {
      PushedAllIs(Pushed(b, xs[0]), xs[1..]);
      assert b.queue + [xs[0]] + xs[1..] == b.queue + xs;
    }
  }

  lemma {:induction false} PushedByCons<T>(w: Wake<T>, wakes: seq<Wake<T>>, last: seq<T>, n: nat)
    requires n <= |wakes| + 1
    ensures PushedBy([w] + wakes, last, n + 1) == w.pushes + PushedBy(wakes, last, n)
  {
    var all := [w] + wakes;
    if n == 0 {
      assert PushedBy(all, last, 0) == [];
    } else {
      PushedByCons(w, wakes, last, n - 1);
      var item := if n <= |wakes| then wakes[n - 1].pushes else last;
      assert PushedBy(all, last, n + 1) == PushedBy(all, last, n) + item;
      var before := PushedBy(wakes, last, n - 1);
      hide PushedBy;
      assert w.pushes + before + item == w.pushes + (before + item);
    }
  }

  lemma {:induction false} CounterGrows<T>(b: Buffer<T>, wakes: seq<Wake<T>>, last: seq<T>, m: nat, n: nat)
    requires m <= n <= |wakes| + 1
    ensures CounterBy(b, wakes, last, m) <= CounterBy(b, wakes, last, n)
  {
    if m < n {
      CounterGrows(b, wakes, last, m, n - 1);
    }
  }

  /** A wait ends at the first look that finds the counter at the threshold, or at the timeout. */
  ghost predicate EndsAt<T>(b: Buffer<T>, wakes: seq<Wake<T>>, last: seq<T>, n: nat, end: Buffer<T>, ok: bool) {
    && n <= |wakes| + 1
    && end.queue == b.queue + PushedBy(wakes, last, n)
    && (forall m :: 0 <= m < n ==> CounterBy(b, wakes, last, m) < b.threshold)
    && (ok <==> CounterBy(b, wakes, last, n) >= b.threshold)
    && (!ok ==> n == |wakes| + 1)
    && end.recent == (if ok then 0 else CounterBy(b, wakes, last, n))
    && end.enabled == b.enabled && end.threshold == b.threshold
  }

  lemma CounterByCons<T>(b: Buffer<T>, w: Wake<T>, wakes: seq<Wake<T>>, last: seq<T>, m: nat)
    requires m <= |wakes| + 1
    ensures CounterBy(b, [w] + wakes, last, m + 1) == CounterBy(PushedAll(b, w.pushes), wakes, last, m)
  {
    PushedByCons(w, wakes, last, m);
    PushedAllIs(b, w.pushes);
    hide PushedBy, PushedAll;
  }

  lemma EndsAtCons<T>(
      b: Buffer<T>, w: Wake<T>, wakes: seq<Wake<T>>, last: seq<T>, n: nat, end: Buffer<T>, ok: bool)
    requires !Enough(b) && EndsAt(PushedAll(b, w.pushes), wakes, last, n, end, ok)
    ensures EndsAt(b, [w] + wakes, last, n + 1, end, ok)
  {
    var all, b' := [w] + wakes, PushedAll(b, w.pushes);
    assert CounterBy(b, all, last, 0) == b.recent;
    PushedByCons(w, wakes, last, n);
    CounterByCons(b, w, wakes, last, n);
    PushedAllIs(b, w.pushes);
    hide PushedBy, PushedAll, CounterBy;
    forall m | 0 <= m < n + 1 ensures CounterBy(b, all, last, m) < b.threshold {
      if m > 0 {
        CounterByCons(b, w, wakes, last, m - 1);
        assert CounterBy(b', wakes, last, m - 1) < b'.threshold;
      }
    }
    assert b'.queue + PushedBy(wakes, last, n) == b.queue + (w.pushes + PushedBy(wakes, last, n));
  }

  lemma {:induction false} WaitedIs<T>(b: Buffer<T>, wakes: seq<Wake<T>>, last: seq<T>) returns (n: nat)
    ensures EndsAt(b, wakes, last, n, Waited(b, wakes, last).0, Waited(b, wakes, last).1)
    decreases |wakes|
  {
    if Enough(b) {
      n := 0;
      assert b.queue + [] == b.queue;
    } else if wakes == [] {
      n := 1;
      PushedAllIs(b, last);
      assert PushedBy(wakes, last, 1) == last;
    } else {
      var w, rest := wakes[0], wakes[1..];
      var b' := PushedAll(b, w.pushes);
      assert Waited(b, wakes, last) == Waited(b', rest, last);
      hide EndsAt, Waited, PushedAll;
      n := WaitedIs(b', rest, last);
      EndsAtCons(b, w, rest, last, n, Waited(b', rest, last).0, Waited(b', rest, last).1);
      assert wakes == [w] + rest;
      n := n + 1;
    }
  }

  lemma WaitIs<T>(b: Buffer<T>, wakes: seq<Wake<T>>, last: seq<T>) returns (n: nat)
    ensures |b.queue| >= b.threshold ==> AfterWait(b, wakes, last) == (b.(recent := 0), true)
    ensures |b.queue| < b.threshold ==>
              var (end, ok) := AfterWait(b, wakes, last);
              EndsAt(b, wakes, last, n, end, ok)
              && (ok <==> CounterBy(b, wakes, last, |wakes| + 1) >= b.threshold)
  {
    n := WaitedIs(b, wakes, last);
    CounterGrows(b, wakes, last, n, |wakes| + 1);
  }

  // ---------- What the verdict of a wait says ----------

  /** What is documented as the verdict: how many items other threads push while the thread
      waits, none if it returns at once. */
  ghost function PushedMeanwhile<T>(b: Buffer<T>, wakes: seq<Wake<T>>, last: seq<T>): nat
    decreases |wakes|
  {
    if |b.queue| >= b.threshold || b.recent >= b.threshold then 0 else PushedAsleep(b, wakes, last)
  }

  ghost function PushedAsleep<T>(b: Buffer<T>, wakes: seq<Wake<T>>, last: seq<T>): nat
    decreases |wakes|
  {
    if wakes == [] then |last|
    else
      var b' := PushedAll(b, wakes[0].pushes);
      |wakes[0].pushes| + if Enough(b') then 0 else PushedAsleep(b', wakes[1..], last)
  }

  ghost predicate VerdictIsPushed<T>(b: Buffer<T>, wakes: seq<Wake<T>>, last: seq<T>) {
    AfterWait(b, wakes, last).1 <==> PushedMeanwhile(b, wakes, last) > 0
  }

  lemma {:induction false} OneMissing<T>(b: Buffer<T>, wakes: seq<Wake<T>>, last: seq<T>)
    requires b.enabled && b.recent + 1 == b.threshold
    ensures Waited(b, wakes, last).1 <==> PushedAsleep(b, wakes, last) > 0
    decreases |wakes|
  {
    var items := if wakes == [] then last else wakes[0].pushes;
    PushedAllIs(b, items);
    if wakes != [] && items == [] {
      OneMissing(b, wakes[1..], last);
    }
  }

  /** The verdict tells in every case whether an item was pushed if and only if, when the wait
      begins, the queue is below the threshold and the counter one below it. */
  lemma VerdictIff<T(!new)>(b: Buffer<T>, x: T, milliseconds: nat)
    ensures (forall wakes, last :: TotalDelay<T>(wakes) <= milliseconds ==> VerdictIsPushed(b, wakes, last))
            <==> b.enabled && |b.queue| < b.threshold && b.recent + 1 == b.threshold
  {
    if b.enabled && !Full(b) && b.recent + 1 == b.threshold {
      forall wakes, last | TotalDelay<T>(wakes) <= milliseconds ensures VerdictIsPushed(b, wakes, last) {
        OneMissing(b, wakes, last);
      }
    } else {
      PushedAllIs(b, [x]);
      assert TotalDelay<T>([]) <= milliseconds && !VerdictIsPushed(b, [], [x]);
    }
  }

  /** The flush thread finds a hundred items at once, and is told that an item was pushed; it
      sees one item pushed into an empty queue, and is told that none was. */
  lemma VerdictCanFail(xs: seq<int>)
    requires |xs| == 100
    ensures var full := Buffer(xs, true, 0, 100);
            PushedMeanwhile(full, [], []) == 0 && AfterWait(full, [], []).1
    ensures var empty := Buffer([], true, 0, 100);
            PushedMeanwhile(empty, [], xs[..1]) == 1 && !AfterWait(empty, [], xs[..1]).1
  {
    PushedAllIs(Buffer([], true, 0, 100), xs[..1]);
  }
}
