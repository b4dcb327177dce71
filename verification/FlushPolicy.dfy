/** When the flush thread takes the queue, in terms of what has happened and in the numbers of
    the program: a hundred items, three hundred milliseconds, four waits. */
module FlushPolicy {
  import opened Systems
  import opened QueueBuffers
  import opened FlushLoop

  /** Waits that failed since the last `pop_all`. */
  ghost function FailsSincePop(log: seq<Event>): nat {
    if log == [] then 0
    else
      var n := |log| - 1;
      match log[n]
      case PoppedAll => 0
      case WaitFailed => 1 + FailsSincePop(log[..n])
      case _ => FailsSincePop(log[..n])
  }

  /** A wait succeeded since the last `pop_all`. */
  ghost predicate OkSincePop(log: seq<Event>) {
    log != []
    && (log[|log| - 1] == WaitOk || (log[|log| - 1] != PoppedAll && OkSincePop(log[..|log| - 1])))
  }

  ghost function FailedWaits(log: seq<Event>): nat {
    if log == [] then 0
    else
      var n := |log| - 1;
      FailedWaits(log[..n]) + if log[n] == WaitFailed then 1 else 0
  }

  lemma PolicySnoc(log: seq<Event>, e: Event)
    ensures FailsSincePop(log + [e]) ==
            if e == PoppedAll then 0 else if e == WaitFailed then 1 + FailsSincePop(log) else FailsSincePop(log)
    ensures OkSincePop(log + [e]) <==> e == WaitOk || (e != PoppedAll && OkSincePop(log))
    ensures FailedWaits(log + [e]) == FailedWaits(log) + if e == WaitFailed then 1 else 0
    ensures Waits(log + [e]) == Waits(log) + if e == WaitOk || e == WaitFailed then 1 else 0
  {
    assert (log + [e])[..|log|] == log;
  }

  ghost predicate Policy<T>(s: State<T>) {
    && (s.pc == BeforePop <==> OkSincePop(s.log) || FailsSincePop(s.log) == 4)
    && (s.pc != BeforePop ==> FailsSincePop(s.log) == s.failCount < 4)
    && (s.pc == BeforePop || s.pc == Draining ==> s.failCount == 0)
    && 300 * FailedWaits(s.log) + Elapsed(s) <= s.clock <= 300 * Waits(s.log) + Elapsed(s)
    && Elapsed(s) <= 300
  }

  lemma EndWaitKeepsPolicy<T>(s: State<T>, dt: nat, ok: bool)
    requires Policy(s) && (s.pc == BeforeWait || s.pc.Sleeping?)
    requires Elapsed(s) + dt <= 300 && (!ok ==> Elapsed(s) + dt == 300)
    ensures Policy(EndWait(s.(clock := s.clock + dt), ok))
  {
    PolicySnoc(s.log, if ok then WaitOk else WaitFailed);
    hide FailsSincePop, OkSincePop, FailedWaits, Waits;
  }

  lemma StepKeepsPolicy<T>(s: State<T>, l: Label<T>)
    requires Policy(s) && Next(s, l).Some?
    ensures Policy(Next(s, l).value)
  {
    hide FailsSincePop, OkSincePop, FailedWaits, Waits, Pushed;
    match l
    case Push(item) => PolicySnoc(s.log, if s.buffer.enabled then Counted else Uncounted);
    case StartWait =>
      if Full(s.buffer) || Enough(s.buffer) {
        EndWaitKeepsPolicy(s, 0, true);
      }
    case WakeUp(delay) =>
      if Enough(s.buffer) {
        EndWaitKeepsPolicy(s, delay, true);
      }
    case Timeout => EndWaitKeepsPolicy(s, 300 - s.pc.elapsed, Enough(s.buffer));
    case PopAll => PolicySnoc(s.log, PoppedAll);
    case _ =>
  }

  lemma {:induction false} StartPolicy(n: nat)
    ensures var log := seq(n, _ => Uncounted);
            FailsSincePop(log) == 0 && !OkSincePop(log) && FailedWaits(log) == 0 && Waits(log) == 0
  {
    if n > 0 {
      StartPolicy(n - 1);
      var log: seq<Event> := seq(n, _ => Uncounted);
      assert log[..n - 1] == seq(n - 1, _ => Uncounted);
    }
  }

  /** In every reachable state: `pop_all` is next if and only if a wait has succeeded since the
      last one, or the fourth in a row has failed; a failed wait took 300 ms, and none took
      longer. */
  lemma PopsWhen<T(!new)>(queue: seq<T>, ls: seq<Label<T>>, s: State<T>)
    requires Run(Next, Start(queue), ls) == Some(s)
    ensures s.pc == BeforePop <==> OkSincePop(s.log) || FailsSincePop(s.log) == 4
    ensures FailsSincePop(s.log) <= 4
    ensures 300 * FailedWaits(s.log) <= s.clock <= 300 * Waits(s.log) + Elapsed(s) && Elapsed(s) <= 300
  {
    StartPolicy(|queue|);
    assert Policy(Start(queue));
    var inv := (s: State<T>) => Policy(s) && (s.pc == BeforePop ==> FailsSincePop(s.log) <= 4);
    hide FailsSincePop, OkSincePop, FailedWaits, Waits;
    forall s, l: Label<T> | inv(s) && Next(s, l).Some? ensures inv(Next(s, l).value) {
      StepKeepsPolicy(s, l);
      FailsGrow(s, l);
    }
    RunKeeps(Next, inv, Start(queue), ls);
  }

  lemma FailsGrow<T>(s: State<T>, l: Label<T>)
    requires Policy(s) && Next(s, l).Some? && (s.pc == BeforePop ==> FailsSincePop(s.log) <= 4)
    ensures FailsSincePop(Next(s, l).value.log) <= 4
  {
    var s' := Next(s, l).value;
    if s'.log != s.log {
      var e := s'.log[|s.log|];
      assert s'.log == s.log + [e];
      PolicySnoc(s.log, e);
    }
  }

  /** In every reachable state a wait succeeds at once if a hundred items are queued, or else at
      its start, a wake-up or its timeout as soon as a hundred have been pushed since the last
      success; and it fails at its timeout otherwise. */
  lemma WaitEndsWhen<T(!new)>(queue: seq<T>, ls: seq<Label<T>>, s: State<T>, l: Label<T>)
    requires Run(Next, Start(queue), ls) == Some(s) && Next(s, l).Some?
    requires l.StartWait? || l.WakeUp? || l.Timeout?
    ensures var s' := Next(s, l).value;
            var ok := SinceOk(s.log) >= 100 || (l.StartWait? && |s.buffer.queue| >= 100);
            s'.log == s.log + if ok then [WaitOk] else if l.Timeout? then [WaitFailed] else []
  {
    ReachableGood(queue, ls, s);
    hide SinceOk, Backlog, Waits;
  }
}
