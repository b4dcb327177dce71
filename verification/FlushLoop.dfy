/** The thread that flushes the buffer to the client, interleaved with any number of threads
    that push items and with the request to exit. */
module FlushLoop {
  import opened Systems
  import opened QueueBuffers

  const WAIT_MS := 300
  const WAIT_COUNT := 100
  const WAIT_FAIL := 4

  datatype Pc =
    | Boot
    | Head
    | BeforeWait
    | Sleeping(elapsed: nat)
    | BeforePop
    | Draining
    | Done

  /** What happened, for reference: pushes with and without counting, ends of `push_wait`
      and calls of `pop_all`. */
  datatype Event = Counted | Uncounted | WaitOk | WaitFailed | PoppedAll

  /** `sent` is what was handed to the client socket, `pushed` the push history and `clock`
      the time spent waiting. */
  datatype State<T> = State(
    buffer: Buffer<T>, exiting: bool, pc: Pc, failCount: nat, local: seq<T>, sent: seq<T>,
    pushed: seq<T>, log: seq<Event>, clock: nat)

  datatype Label<T> =
    // any other thread
    | Push(item: T)
    | RequestExit
    // the flush thread
    | Configure
    | Check
    | StartWait
    | WakeUp(delay: nat)
    | Timeout
    | PopAll
    | Send
    | Drained

  /** A buffer that may already hold items pushed before the thread was started. */
  function Start<T>(queue: seq<T>): State<T> {
    State(Buffer(queue, false, 0, 0), false, Boot, 0, [], [], queue, seq(|queue|, _ => Uncounted), 0)
  }

  /** `push_wait` returns, and the loop condition around it is evaluated. */
  function EndWait<T>(s: State<T>, ok: bool): State<T> {
    if ok then
      s.(buffer := s.buffer.(recent := 0), failCount := 0, pc := BeforePop, log := s.log + [WaitOk])
    else if s.failCount + 1 == WAIT_FAIL then
      s.(failCount := 0, pc := BeforePop, log := s.log + [WaitFailed])
    else
      s.(failCount := s.failCount + 1, pc := Head, log := s.log + [WaitFailed])
  }

  function Next<T>(s: State<T>, l: Label<T>): Option<State<T>> {
    match l
    case Push(x) =>
      Some(s.(buffer := Pushed(s.buffer, x), pushed := s.pushed + [x],
              log := s.log + [if s.buffer.enabled then Counted else Uncounted]))
    case RequestExit => Some(s.(exiting := true))
    case Configure =>
      if s.pc == Boot
      then Some(s.(pc := Head, buffer := s.buffer.(enabled := true, threshold := WAIT_COUNT)))
      else None
    case Check =>
      if s.pc == Head then Some(s.(pc := if s.exiting then Done else BeforeWait)) else None
    case StartWait =>
      if s.pc != BeforeWait then None
      else if Full(s.buffer) || Enough(s.buffer) then Some(EndWait(s, true))
      else Some(s.(pc := Sleeping(0)))
    case WakeUp(delay) =>
      if s.pc.Sleeping? && s.pc.elapsed + delay <= WAIT_MS then
        var s' := s.(clock := s.clock + delay);
        Some(if Enough(s.buffer) then EndWait(s', true) else s'.(pc := Sleeping(s.pc.elapsed + delay)))
      else None
    case Timeout =>
      if s.pc.Sleeping? && s.pc.elapsed <= WAIT_MS
      then Some(EndWait(s.(clock := s.clock + WAIT_MS - s.pc.elapsed), Enough(s.buffer)))
      else None
    case PopAll =>
      if s.pc == BeforePop
      then Some(s.(pc := Draining, local := s.buffer.queue, buffer := s.buffer.(queue := []),
                   log := s.log + [PoppedAll]))
      else None
    case Send =>
      if s.pc == Draining && s.local != []
      then Some(s.(sent := s.sent + [s.local[0]], local := s.local[1..]))
      else None
    case Drained =>
      if s.pc == Draining && s.local == [] then Some(s.(pc := Head)) else None
  }

  // ---------- Reference counts over the log ----------

  /** Counted pushes since the last successful wait. */
  ghost function SinceOk(log: seq<Event>): nat {
    if log == [] then 0
    else
      var n := |log| - 1;
      match log[n]
      case WaitOk => 0
      case Counted => 1 + SinceOk(log[..n])
      case _ => SinceOk(log[..n])
  }

  /** Pushes made before counting was enabled that no `pop_all` has taken. */
  ghost function Backlog(log: seq<Event>): nat {
    if log == [] then 0
    else
      var n := |log| - 1;
      match log[n]
      case PoppedAll => 0
      case Uncounted => 1 + Backlog(log[..n])
      case _ => Backlog(log[..n])
  }

  /** Completed calls of `push_wait`. */
  ghost function Waits(log: seq<Event>): nat {
    if log == [] then 0
    else
      var n := |log| - 1;
      Waits(log[..n]) + if log[n] == WaitOk || log[n] == WaitFailed then 1 else 0
  }

  lemma LogSnoc(log: seq<Event>, e: Event)
    ensures SinceOk(log + [e]) ==
            if e == WaitOk then 0 else if e == Counted then 1 + SinceOk(log) else SinceOk(log)
    ensures Backlog(log + [e]) ==
            if e == PoppedAll then 0 else if e == Uncounted then 1 + Backlog(log) else Backlog(log)
    ensures Waits(log + [e]) == Waits(log) + if e == WaitOk || e == WaitFailed then 1 else 0
  {
    assert (log + [e])[..|log|] == log;
  }

  // ---------- What every step keeps ----------

  /** Exactly once and in order: what was handed on, then the local batch, then the shared
      queue are together the push history. */
  ghost predicate Fifo<T>(s: State<T>) {
    && s.sent + s.local + s.buffer.queue == s.pushed
    && (s.pc != Draining ==> s.local == [])
  }

  ghost predicate Bounded<T>(s: State<T>) { |s.buffer.queue| <= s.buffer.recent + Backlog(s.log) }

  /** The counter is the number of counted pushes since the last successful wait, and bounds
      the queue except between the end of a wait and the following `pop_all`. */
  ghost predicate CounterOk<T>(s: State<T>) {
    && s.buffer.recent == SinceOk(s.log)
    && s.buffer.enabled == (s.pc != Boot)
    && s.buffer.threshold == (if s.pc == Boot then 0 else WAIT_COUNT)
    && (s.pc != BeforePop ==> Bounded(s))
    && s.failCount < WAIT_FAIL
    && (s.pc.Sleeping? ==> s.pc.elapsed <= WAIT_MS)
  }

  ghost predicate Good<T>(s: State<T>) { Fifo(s) && CounterOk(s) }

  lemma {:induction false} StartLog(n: nat)
    ensures var log := seq(n, _ => Uncounted);
            SinceOk(log) == 0 && Backlog(log) == n && Waits(log) == 0
  {
    if n > 0 {
      StartLog(n - 1);
      var log: seq<Event> := seq(n, _ => Uncounted);
      assert log[..n - 1] == seq(n - 1, _ => Uncounted);
    }
  }

  lemma StartIsGood<T>(queue: seq<T>)
    ensures Good(Start(queue))
  {
    StartLog(|queue|);
  }

  lemma StepKeepsFifo<T>(s: State<T>, l: Label<T>)
    requires Fifo(s) && Next(s, l).Some?
    ensures Fifo(Next(s, l).value)
  {
    if l.Send? {
      assert s.local == [s.local[0]] + s.local[1..];
    }
  }

  lemma PushKeepsCounter<T>(s: State<T>, item: T)
    requires CounterOk(s)
    ensures CounterOk(Next(s, Push(item)).value)
  {
    LogSnoc(s.log, if s.buffer.enabled then Counted else Uncounted);
  }

  lemma EndWaitKeepsCounter<T>(s: State<T>, ok: bool)
    requires CounterOk(s) && s.pc != Boot && s.pc != BeforePop
    ensures CounterOk(EndWait(s, ok))
  {
    LogSnoc(s.log, if ok then WaitOk else WaitFailed);
    hide SinceOk, Backlog, Waits;
  }

  lemma StepKeepsCounter<T>(s: State<T>, l: Label<T>)
    requires CounterOk(s) && Next(s, l).Some?
    ensures CounterOk(Next(s, l).value)
  {
    hide SinceOk, Backlog, Waits;
    match l
    case Push(item) => PushKeepsCounter(s, item);
    case StartWait => EndWaitKeepsCounter(s, true);
    case WakeUp(delay) => EndWaitKeepsCounter(s.(clock := s.clock + delay), true);
    case Timeout => EndWaitKeepsCounter(s.(clock := s.clock + WAIT_MS - s.pc.elapsed), Enough(s.buffer));
    case PopAll => LogSnoc(s.log, PoppedAll);
    case _ =>
  }

  lemma GoodIsInductive<T(!new)>()
    ensures Inductive<State<T>, Label<T>>(Next, Good)
  {
    forall s: State<T>, l: Label<T> | Good(s) && Next(s, l).Some? ensures Good(Next(s, l).value) {
      StepKeepsFifo(s, l);
      StepKeepsCounter(s, l);
    }
  }

  /** In every reachable state, whatever the threads do. */
  lemma ReachableGood<T(!new)>(queue: seq<T>, ls: seq<Label<T>>, s: State<T>)
    requires Run(Next, Start(queue), ls) == Some(s)
    ensures Good(s)
  {
    StartIsGood(queue);
    GoodIsInductive<T>();
    RunKeeps(Next, Good, Start(queue), ls);
  }

  /** The push history is what the labels of the run pushed. */
  function PushesIn<T>(ls: seq<Label<T>>): seq<T> {
    if ls == [] then [] else (if ls[0].Push? then [ls[0].item] else []) + PushesIn(ls[1..])
  }

  lemma {:induction false} PushedIsHistory<T>(s: State<T>, ls: seq<Label<T>>)
    requires Run(Next, s, ls).Some?
    ensures Run(Next, s, ls).value.pushed == s.pushed + PushesIn(ls)
    decreases |ls|
  {
    if ls != [] {
      PushedIsHistory(Next(s, ls[0]).value, ls[1..]);
    }
  }

  // ---------- The flush bound ----------

  ghost function Taken<T>(s: State<T>): nat { |s.sent| + |s.local| }

  ghost function Elapsed<T>(s: State<T>): nat { if s.pc.Sleeping? then s.pc.elapsed else 0 }

  /** Since s0, either everything queued then has been taken, or every wait has failed. */
  ghost predicate Tracks<T>(s0: State<T>, s: State<T>) {
    var waits := Waits(s.log) - Waits(s0.log);
    && s0.pushed <= s.pushed
    && waits >= 0
    && s.clock - s0.clock <= WAIT_MS * waits + Elapsed(s)
    && (|| Taken(s) >= |s0.pushed|
        || (s.pc == BeforePop && waits <= WAIT_FAIL - s0.failCount)
        || ((s.pc in {Head, BeforeWait, Done} || s.pc.Sleeping?) && waits == s.failCount - s0.failCount))
  }

  /** A wait that ends, `dt` milliseconds after the last look at the clock. */
  lemma EndWaitKeepsTracks<T>(s0: State<T>, s: State<T>, dt: nat, ok: bool)
    requires Good(s0) && Good(s) && Tracks(s0, s) && (s.pc == BeforeWait || s.pc.Sleeping?)
    requires Elapsed(s) + dt <= WAIT_MS
    ensures Tracks(s0, EndWait(s.(clock := s.clock + dt), ok))
  {
    LogSnoc(s.log, if ok then WaitOk else WaitFailed);
    hide SinceOk, Backlog, Waits, Pushed;
  }

  lemma PopAllKeepsTracks<T>(s0: State<T>, s: State<T>)
    requires Good(s0) && Good(s) && Tracks(s0, s) && s.pc == BeforePop
    ensures Tracks(s0, Next(s, PopAll).value)
  {
    LogSnoc(s.log, PoppedAll);
    hide SinceOk, Backlog, Waits;
  }

  lemma PushKeepsTracks<T>(s0: State<T>, s: State<T>, item: T)
    requires Tracks(s0, s)
    ensures Tracks(s0, Next(s, Push(item)).value)
  {
    LogSnoc(s.log, if s.buffer.enabled then Counted else Uncounted);
    hide SinceOk, Backlog, Waits;
  }

  lemma StepKeepsTracks<T>(s0: State<T>, s: State<T>, l: Label<T>)
    requires Good(s0) && Good(s) && Tracks(s0, s) && Next(s, l).Some?
    ensures Tracks(s0, Next(s, l).value)
  {
    hide SinceOk, Backlog, Waits;
    match l
    case Push(item) => PushKeepsTracks(s0, s, item);
    case StartWait =>
      if Full(s.buffer) || Enough(s.buffer) {
        EndWaitKeepsTracks(s0, s, 0, true);
      }
    case WakeUp(delay) =>
      if Enough(s.buffer) {
        EndWaitKeepsTracks(s0, s, delay, true);
      }
    case Timeout => EndWaitKeepsTracks(s0, s, WAIT_MS - s.pc.elapsed, Enough(s.buffer));
    case PopAll => PopAllKeepsTracks(s0, s);
    case _ =>
  }

  lemma RunTracks<T(!new)>(s0: State<T>, ls: seq<Label<T>>, s: State<T>)
    requires Good(s0) && s0.pc in {Head, BeforeWait}
    requires Run(Next, s0, ls) == Some(s)
    ensures Good(s) && Tracks(s0, s)
  {
    var inv := s => Good(s) && Tracks(s0, s);
    forall s, l: Label<T> | inv(s) && Next(s, l).Some? ensures inv(Next(s, l).value) {
      StepKeepsFifo(s, l);
      StepKeepsCounter(s, l);
      StepKeepsTracks(s0, s, l);
    }
    RunKeeps(Next, inv, s0, ls);
  }

  /** The flush bound: whatever is queued when a wait is about to start has been taken by a
      `pop_all` once four waits have ended and the loop has moved on, hence after more than
      1200 ms of waiting -- whatever the other threads push meanwhile. */
  lemma FlushBound<T(!new)>(s0: State<T>, ls: seq<Label<T>>, s: State<T>)
    requires Good(s0) && s0.pc in {Head, BeforeWait}
    requires Run(Next, s0, ls) == Some(s)
    requires || (Waits(s.log) >= Waits(s0.log) + 4 && s.pc != BeforePop)
             || s.clock > s0.clock + 1200
    ensures s0.pushed <= s.sent + s.local
  {
    RunTracks(s0, ls, s);
  }

  // ---------- Where the counter does not bound the queue ----------

  /** Counted pushes that no `pop_all` has taken. */
  ghost function StillCounted(log: seq<Event>): nat {
    if log == [] then 0
    else
      var n := |log| - 1;
      match log[n]
      case PoppedAll => 0
      case Counted => 1 + StillCounted(log[..n])
      case _ => StillCounted(log[..n])
  }

  ghost predicate LastWaitOk(log: seq<Event>) {
    log != []
    && (log[|log| - 1] == WaitOk || (log[|log| - 1] != WaitFailed && LastWaitOk(log[..|log| - 1])))
  }

  /** Counted pushes before the end of the last wait that no `pop_all` has taken. */
  ghost function BeforeLastWait(log: seq<Event>): nat {
    if log == [] then 0
    else
      var n := |log| - 1;
      match log[n]
      case PoppedAll => 0
      case WaitOk => StillCounted(log[..n])
      case WaitFailed => StillCounted(log[..n])
      case _ => BeforeLastWait(log[..n])
  }

  lemma WindowSnoc(log: seq<Event>, e: Event)
    ensures StillCounted(log + [e]) ==
            if e == PoppedAll then 0 else if e == Counted then 1 + StillCounted(log) else StillCounted(log)
    ensures LastWaitOk(log + [e]) <==> e == WaitOk || (e != WaitFailed && LastWaitOk(log))
    ensures BeforeLastWait(log + [e]) ==
            if e == PoppedAll then 0
            else if e == WaitOk || e == WaitFailed then StillCounted(log)
            else BeforeLastWait(log)
  {
    assert (log + [e])[..|log|] == log;
  }

  /** What the queue holds, and how much of it the counter has forgotten. */
  ghost predicate Accounted<T>(s: State<T>) {
    && |s.buffer.queue| == Backlog(s.log) + StillCounted(s.log)
    && (s.pc == BeforePop ==>
          if LastWaitOk(s.log)
          then StillCounted(s.log) == BeforeLastWait(s.log) + SinceOk(s.log)
          else Bounded(s))
  }

  lemma EndWaitKeepsAccounted<T>(s: State<T>, ok: bool)
    requires CounterOk(s) && Accounted(s) && s.pc != Boot && s.pc != BeforePop
    ensures Accounted(EndWait(s, ok))
  {
    LogSnoc(s.log, if ok then WaitOk else WaitFailed);
    WindowSnoc(s.log, if ok then WaitOk else WaitFailed);
    hide SinceOk, Backlog, Waits, StillCounted, LastWaitOk, BeforeLastWait;
  }

  lemma PushKeepsAccounted<T>(s: State<T>, item: T)
    requires CounterOk(s) && Accounted(s)
    ensures Accounted(Next(s, Push(item)).value)
  {
    LogSnoc(s.log, if s.buffer.enabled then Counted else Uncounted);
    WindowSnoc(s.log, if s.buffer.enabled then Counted else Uncounted);
    hide SinceOk, Backlog, Waits, StillCounted, LastWaitOk, BeforeLastWait;
  }

  lemma StepKeepsAccounted<T>(s: State<T>, l: Label<T>)
    requires CounterOk(s) && Accounted(s) && Next(s, l).Some?
    ensures Accounted(Next(s, l).value)
  {
    hide SinceOk, Backlog, Waits, StillCounted, LastWaitOk, BeforeLastWait;
    match l
    case Push(item) => PushKeepsAccounted(s, item);
    case StartWait => EndWaitKeepsAccounted(s, true);
    case WakeUp(delay) => EndWaitKeepsAccounted(s.(clock := s.clock + delay), true);
    case Timeout => EndWaitKeepsAccounted(s.(clock := s.clock + WAIT_MS - s.pc.elapsed), Enough(s.buffer));
    case PopAll =>
      LogSnoc(s.log, PoppedAll);
      WindowSnoc(s.log, PoppedAll);
    case _ =>
  }

  lemma {:induction false} StartAccounted(n: nat)
    ensures StillCounted(seq(n, _ => Uncounted)) == 0
  {
    if n > 0 {
      StartAccounted(n - 1);
      var log: seq<Event> := seq(n, _ => Uncounted);
      assert log[..n - 1] == seq(n - 1, _ => Uncounted);
    }
  }

  lemma ReachableAccounted<T(!new)>(queue: seq<T>, ls: seq<Label<T>>, s: State<T>)
    requires Run(Next, Start(queue), ls) == Some(s)
    ensures CounterOk(s) && Accounted(s)
  {
    var inv := (s: State<T>) => CounterOk(s) && Accounted(s);
    forall s, l: Label<T> | inv(s) && Next(s, l).Some? ensures inv(Next(s, l).value) {
      StepKeepsCounter(s, l);
      StepKeepsAccounted(s, l);
    }
    StartLog(|queue|);
    StartAccounted(|queue|);
    RunKeeps(Next, inv, Start(queue), ls);
  }

  /** In every reachable state the counter and the backlog bound the queue, if and only if it is
      not the case that the last wait succeeded, its `pop_all` is still to come, and a
      counted item pushed before that wait ended is queued. */
  lemma BoundedIff<T(!new)>(queue: seq<T>, ls: seq<Label<T>>, s: State<T>)
    requires Run(Next, Start(queue), ls) == Some(s)
    ensures Bounded(s) <==> !(s.pc == BeforePop && LastWaitOk(s.log) && BeforeLastWait(s.log) > 0)
  {
    ReachableAccounted(queue, ls, s);
  }

  lemma {:induction false} RunPushes<T>(s: State<T>, xs: seq<T>)
    ensures var ls := seq(|xs|, i requires 0 <= i < |xs| => Push(xs[i]));
            var r := Run(Next, s, ls);
            r.Some?
            && r.value.buffer == PushedAll(s.buffer, xs)
            && r.value == s.(buffer := r.value.buffer, pushed := s.pushed + xs, log := r.value.log)
            && (s.buffer.enabled ==> Backlog(r.value.log) == Backlog(s.log))
            && Waits(r.value.log) == Waits(s.log)
    decreases |xs|
  {
    var ls := seq(|xs|, i requires 0 <= i < |xs| => Push(xs[i]));
    if xs != [] {
      var s1 := Next(s, ls[0]).value;
      assert ls[1..] == seq(|xs| - 1, i requires 0 <= i < |xs| - 1 => Push(xs[1..][i]));
      RunPushes(s1, xs[1..]);
      assert s.pushed + [xs[0]] + xs[1..] == s.pushed + xs;
      LogSnoc(s.log, if s.buffer.enabled then Counted else Uncounted);
    } else {
      assert s.pushed + xs == s.pushed;
    }
  }

  /** A reachable state in which a hundred items are queued and the counter is zero. */
  lemma BoundCanFail(xs: seq<int>) returns (ls: seq<Label<int>>, s: State<int>)
    requires |xs| == 100
    ensures Run(Next, Start([]), ls) == Some(s)
    ensures |s.buffer.queue| == 100 && s.buffer.recent == 0 && Backlog(s.log) == 0 && !Bounded(s)
  {
    var s0: State<int> := Start([]);
    var s1 := Next(s0, Configure).value;
    var s2 := Next(s1, Check).value;
    RunOne(Next, s0, Configure);
    RunSnoc(Next, s0, [Configure], Check);
    var ps := seq(|xs|, i requires 0 <= i < |xs| => Push(xs[i]));
    RunPushes(s2, xs);
    PushedAllIs(s2.buffer, xs);
    RunAppend(Next, s0, [Configure] + [Check], ps);
    RunSnoc(Next, s0, [Configure] + [Check] + ps, StartWait);
    ls := [Configure] + [Check] + ps + [StartWait];
    s := Run(Next, s0, ls).value;
    LogSnoc(Run(Next, s2, ps).value.log, WaitOk);
  }
}
