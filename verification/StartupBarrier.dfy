/** The startup barrier of the client server: `notify` launches the work threads and returns
    when each of them has signalled that it is ready.

    The step system is one activation: a second one ends the program (`Server.LaunchThreads`).
    Launching a thread and counting it in the target are two evaluations in either order, and a
    launched thread may signal before it is counted. */
module StartupBarrier {
  import opened Systems
  import opened Actions
  import opened Activations

  /** A work thread: not launched, not yet ready, ready with the duty to wake the waiter or
      without it. */
  datatype ThreadPc = Unlaunched | Starting | Ready(mustNotify: bool)

  /** `notify`: filling slot n of the work threads, asleep on the condition variable, or
      returned. */
  datatype NotifyPc = Launching(n: nat, launched: bool, counted: bool) | Asleep(woken: bool) | Returned

  datatype State = State(threads: seq<ThreadPc>, startupState: nat, target: nat, notify: NotifyPc)

  datatype Label =
    | Launch
    | Count
    | Evaluate
    | Wake
    | SpuriousWake
    | Signal(i: nat)
    | NotifyAll(i: nat)

  function Start(wanted: nat): State {
    State(seq(wanted, _ => Unlaunched), 0, 0, Launching(0, false, false))
  }

  /** The slot is filled once its thread is launched and counted. */
  function Filled(pc: NotifyPc): NotifyPc
    requires pc.Launching?
  {
    if pc.launched && pc.counted then Launching(pc.n + 1, false, false) else pc
  }

  /** The waiting predicate, under the lock. */
  function Recheck(s: State): State {
    s.(notify := if s.startupState == s.target then Returned else Asleep(false))
  }

  function Next(s: State, l: Label): Option<State> {
    match l
    case Launch =>
      if s.notify.Launching? && s.notify.n < |s.threads| && !s.notify.launched
      then Some(s.(threads := s.threads[s.notify.n := Starting], notify := Filled(s.notify.(launched := true))))
      else None
    case Count =>
      if s.notify.Launching? && s.notify.n < |s.threads| && !s.notify.counted
      then Some(s.(target := s.target + 1, notify := Filled(s.notify.(counted := true))))
      else None
    case Evaluate =>
      if s.notify.Launching? && s.notify.n == |s.threads| then Some(Recheck(s)) else None
    case Wake =>
      if s.notify.Asleep? && s.notify.woken then Some(Recheck(s)) else None
    case SpuriousWake =>
      // otherwise the thread only goes back to sleep
      if s.notify.Asleep? && s.startupState == s.target then Some(Recheck(s)) else None
    case Signal(i) =>
      if i < |s.threads| && s.threads[i] == Starting
      then Some(s.(threads := s.threads[i := Ready(s.startupState + 1 == s.target)],
                   startupState := s.startupState + 1))
      else None
    case NotifyAll(i) =>
      if i < |s.threads| && s.threads[i] == Ready(true)
      then Some(s.(threads := s.threads[i := Ready(false)],
                   notify := if s.notify.Asleep? then Asleep(true) else s.notify))
      else None
  }

  ghost function IsReady(t: ThreadPc): nat { if t.Ready? then 1 else 0 }

  /** The state counts the signals, the target the launched threads counted so far, and a
      sleeper that should return is about to be woken. */
  ghost predicate Safe(s: State) {
    && s.startupState == Sum(IsReady, s.threads)
    && match s.notify
       case Launching(n, launched, counted) =>
         && n <= |s.threads|
         && s.target == n + (if counted then 1 else 0)
         && (n == |s.threads| ==> !launched && !counted)
         && !(launched && counted)
         && forall i :: 0 <= i < |s.threads| ==> (s.threads[i] == Unlaunched <==> i > n || (i == n && !launched))
       case Asleep(woken) =>
         && s.target == |s.threads|
         && (forall i :: 0 <= i < |s.threads| ==> s.threads[i] != Unlaunched)
         && (s.startupState == s.target && !woken ==> exists i :: 0 <= i < |s.threads| && s.threads[i] == Ready(true))
       case Returned =>
         && s.target == |s.threads|
         && forall i :: 0 <= i < |s.threads| ==> s.threads[i].Ready?
  }

  /** The count is full if and only if every thread is ready. */
  lemma {:induction false} FullCount(threads: seq<ThreadPc>)
    ensures Sum(IsReady, threads) <= |threads|
    ensures Sum(IsReady, threads) == |threads| <==> forall i :: 0 <= i < |threads| ==> threads[i].Ready?
  {
    if threads != [] {
      FullCount(threads[1..]);
      assert forall i :: 1 <= i < |threads| ==> threads[i] == threads[1..][i - 1];
      assert forall i :: 0 <= i < |threads| - 1 ==> threads[1..][i] == threads[i + 1];
    }
  }

  lemma {:induction false} NoneReady(threads: seq<ThreadPc>)
    requires forall i :: 0 <= i < |threads| ==> threads[i] == Unlaunched
    ensures Sum(IsReady, threads) == 0
  {
    if threads != [] {
      NoneReady(threads[1..]);
    }
  }

  lemma LaunchKeepsSafe(s: State)
    requires Safe(s) && Next(s, Launch).Some?
    ensures Safe(Next(s, Launch).value)
  {
    SumUpdate(IsReady, s.threads, s.notify.n, Starting);
    hide Sum;
  }

  lemma SignalKeepsSafe(s: State, i: nat)
    requires Safe(s) && Next(s, Signal(i)).Some?
    ensures Safe(Next(s, Signal(i)).value)
  {
    var s' := Next(s, Signal(i)).value;
    SumUpdate(IsReady, s.threads, i, s'.threads[i]);
    FullCount(s.threads);
    hide Sum;
    assert s'.threads[i] == Ready(s.startupState + 1 == s.target);
  }

  lemma NotifyAllKeepsSafe(s: State, i: nat)
    requires Safe(s) && Next(s, NotifyAll(i)).Some?
    ensures Safe(Next(s, NotifyAll(i)).value)
  {
    SumUpdate(IsReady, s.threads, i, Ready(false));
    hide Sum;
  }

  lemma StepKeepsSafe(s: State, l: Label)
    requires Safe(s) && Next(s, l).Some?
    ensures Safe(Next(s, l).value)
  {
    match l
    case Launch => LaunchKeepsSafe(s);
    case Signal(i) => SignalKeepsSafe(s, i);
    case NotifyAll(i) => NotifyAllKeepsSafe(s, i);
    case _ =>
      FullCount(s.threads);
      hide Sum;
  }

  lemma ReachableSafe(wanted: nat, ls: seq<Label>, s: State)
    requires Run(Next, Start(wanted), ls) == Some(s)
    ensures Safe(s)
  {
    NoneReady(Start(wanted).threads);
    forall s, l | Safe(s) && Next(s, l).Some? ensures Safe(Next(s, l).value) {
      StepKeepsSafe(s, l);
    }
    RunKeeps(Next, Safe, Start(wanted), ls);
  }

  lemma {:induction false} ThreadsKept(s: State, ls: seq<Label>)
    requires Run(Next, s, ls).Some?
    ensures |Run(Next, s, ls).value.threads| == |s.threads|
    decreases |ls|
  {
    if ls != [] {
      ThreadsKept(Next(s, ls[0]).value, ls[1..]);
    }
  }

  /** `notify` returns only when every wanted thread has been launched and has signalled. */
  lemma ReturnsWhenReady(wanted: nat, ls: seq<Label>, s: State)
    requires Run(Next, Start(wanted), ls) == Some(s) && s.notify == Returned
    ensures |s.threads| == wanted && s.startupState == wanted
    ensures forall i :: 0 <= i < wanted ==> s.threads[i].Ready?
  {
    ReachableSafe(wanted, ls, s);
    ThreadsKept(Start(wanted), ls);
    FullCount(s.threads);
  }

  /** No lost wake-up: if all signals have been given and `notify` sleeps, it has been woken
      or some thread is about to wake it. */
  lemma NoLostWakeUp(wanted: nat, ls: seq<Label>, s: State)
    requires Run(Next, Start(wanted), ls) == Some(s) && s.notify == Asleep(false)
    requires forall i :: 0 <= i < |s.threads| ==> s.threads[i].Ready?
    ensures exists i :: 0 <= i < |s.threads| && s.threads[i] == Ready(true)
  {
    ReachableSafe(wanted, ls, s);
    FullCount(s.threads);
  }

  // ---------- Progress ----------

  ghost function ThreadRank(t: ThreadPc): nat {
    match t
    case Unlaunched => 5
    case Starting => 4
    case Ready(mustNotify) => if mustNotify then 2 else 0
  }

  ghost function Rank(s: State): nat {
    Sum(ThreadRank, s.threads)
    + (if s.target <= |s.threads| then |s.threads| - s.target else 0)
    + match s.notify
      case Launching(_, _, _) => 3
      case Asleep(woken) => if woken then 2 else 1
      case Returned => 0
  }

  lemma StepLowersRank(s: State, l: Label)
    requires Safe(s) && Next(s, l).Some?
    ensures Rank(Next(s, l).value) < Rank(s)
  {
    var s' := Next(s, l).value;
    match l
    case Launch => SumUpdate(ThreadRank, s.threads, s.notify.n, Starting);
    case Signal(i) => SumUpdate(ThreadRank, s.threads, i, s'.threads[i]);
    case NotifyAll(i) => SumUpdate(ThreadRank, s.threads, i, s'.threads[i]);
    case _ =>
  }

  /** Until `notify` returns, some step other than a spurious wake-up is enabled. */
  lemma Progress(s: State) returns (l: Label)
    requires Safe(s) && s.notify != Returned
    ensures Next(s, l).Some? && !l.SpuriousWake?
  {
    FullCount(s.threads);
    match s.notify
    case Launching(n, launched, _) => l := if n == |s.threads| then Evaluate else if launched then Count else Launch;
    case Asleep(woken) =>
      if woken {
        l := Wake;
      } else if s.startupState == s.target {
        var i: nat :| i < |s.threads| && s.threads[i] == Ready(true);
        l := NotifyAll(i);
      } else {
        var i: nat :| i < |s.threads| && !s.threads[i].Ready?;
        l := Signal(i);
      }
  }

  lemma {:induction false} RankOfStart(threads: seq<ThreadPc>)
    requires forall i :: 0 <= i < |threads| ==> threads[i] == Unlaunched
    ensures Sum(ThreadRank, threads) == 5 * |threads|
  {
    if threads != [] {
      RankOfStart(threads[1..]);
    }
  }

  /** Whatever the order of launches, counts, signals and wake-ups, a run takes at most six
      steps per thread and three more; with `Progress`, `notify` always returns. */
  lemma BarrierTerminates(wanted: nat, ls: seq<Label>)
    requires Run(Next, Start(wanted), ls).Some?
    ensures |ls| <= 6 * wanted + 3
  {
    NoneReady(Start(wanted).threads);
    RankOfStart(Start(wanted).threads);
    forall s, l | Safe(s) && Next(s, l).Some?
      ensures Safe(Next(s, l).value) && Rank(Next(s, l).value) < Rank(s)
    {
      StepKeepsSafe(s, l);
      StepLowersRank(s, l);
    }
    RunBound(Next, Safe, Rank, Start(wanted), ls);
  }

  // ---------- The server ----------

  /** The number of threads a set of actions asks for. */
  function Wanted(supActs: bv64): nat {
    (if IsSync(supActs) then 1 else 0) + (if IsAsync(supActs) then 1 else 0)
  }

  lemma WantedIs(list: seq<Action>)
    requires list != [] && NoDuplicates(list)
    ensures Wanted(Pack(list)) ==
            (if REQUEST in list || PUSH in list then 1 else 0) + (if REPLY in list || WAIT in list then 1 else 0)
  {
    AsksFor(list);
    hide IsSync, IsAsync;
  }

  ghost function Total(wakes: seq<nat>): nat {
    if wakes == [] then 0 else wakes[0] + Total(wakes[1..])
  }

  datatype NotifyResult = NoEndpoint | Terminated | StillAsleep | AllReady

  class Server {
    var startupState: nat
    var startupStateTarget: nat
    var launched: nat
    const hasInput: bool
    const hasOutput: bool

    constructor (hasInput: bool, hasOutput: bool)
      ensures startupState == 0 && startupStateTarget == 0 && launched == 0
      ensures this.hasInput == hasInput && this.hasOutput == hasOutput
    {
      startupState, startupStateTarget, launched := 0, 0, 0;
      this.hasInput, this.hasOutput := hasInput, hasOutput;
    }

    /** A work thread is ready; `wakes` says whether it has to wake the waiter. */
    method NotifyThreadStarted() returns (wakes: bool)
      modifies this`startupState
      ensures startupState == old(startupState) + 1
      ensures wakes == (startupState == startupStateTarget)
    {
      startupState := startupState + 1;
      wakes := startupState == startupStateTarget;
    }

    method ThreadsStart(n: nat)
      modifies this`startupState
      ensures startupState == old(startupState) + n
    {
      for i := 0 to n
        invariant startupState == old(startupState) + i
      {
        var wakes := NotifyThreadStarted();
      }
    }

    /** Launch a thread and count it; `signals` threads signal in between. */
    method LaunchThread(signals: nat)
      modifies this`launched, this`startupState, this`startupStateTarget
      ensures launched == old(launched) + 1 && startupStateTarget == old(startupStateTarget) + 1
      ensures startupState == old(startupState) + signals
    {
      launched := launched + 1;
      ThreadsStart(signals);
      startupStateTarget := startupStateTarget + 1;
    }

    /** Launch and count the threads; an endpoint that is needed and missing is an exception,
        possibly after the first thread has been launched, and a slot that is already filled
        ends the program.  `first` and `second` threads signal before the input and the output
        thread have been counted. */
    method LaunchThreads(sync: bool, async: bool, first: nat, second: nat) returns (ending: Ending)
      modifies this`launched, this`startupState, this`startupStateTarget
      ensures ending == Notified(Registered(hasInput, hasOutput, old(launched) > 0), sync, async).0
      ensures ending != Crashed ==>
                (launched > 0) == Notified(Registered(hasInput, hasOutput, old(launched) > 0), sync, async).1.launched
      ensures launched == old(launched) + startupStateTarget
      ensures startupStateTarget == match ending
                                    case Succeeded => (if sync then 1 else 0) + (if async then 1 else 0)
                                    case Threw => if sync && hasInput then 1 else 0
                                    case Crashed => 0
      ensures startupState == old(startupState) + (if startupStateTarget > 0 && sync then first else 0)
                              + (if async && ending == Succeeded then second else 0)
    {
      startupStateTarget := 0;
      if sync {
        if !hasInput {
          return Threw;
        }
        if startupStateTarget < launched {
          return Crashed;
        }
        LaunchThread(first);
      }
      if async {
        if !hasOutput {
          return Threw;
        }
        if startupStateTarget < launched {
          return Crashed;
        }
        LaunchThread(second);
      }
      ending := Succeeded;
    }

    /** Wait until the launched threads have signalled: `wakes[i]` of them signal before the
        i-th wake-up. */
    method AwaitThreads(wakes: seq<nat>) returns (ready: bool)
      requires Total(wakes) == 0 || startupState + Total(wakes) <= startupStateTarget
      modifies this`startupState
      ensures ready <==> startupState == startupStateTarget
      ensures startupState == old(startupState) + Total(wakes)
    {
      var i := 0;
      while startupState != startupStateTarget && i < |wakes|
        invariant 0 <= i <= |wakes|
        invariant startupState + Total(wakes[i..]) == old(startupState) + Total(wakes)
        invariant startupState >= old(startupState)
        decreases |wakes| - i
      {
        ThreadsStart(wakes[i]);
        assert wakes[i..][1..] == wakes[i + 1..];
        i := i + 1;
      }
      ready := startupState == startupStateTarget;
    }

    /** An activation.  Threads signal while they are launched, `early` ones before the wait
        begins and `wakes[i]` before the i-th wake-up of the waiter: at most one when one has been
        launched, and each once. */
    method Notify(supActs: bv64, first: nat, second: nat, early: nat, wakes: seq<nat>)
      returns (result: NotifyResult)
      requires startupState <= launched
      requires first <= (if IsSync(supActs) then 1 else 0)
      requires first + second + early + Total(wakes) <= Wanted(supActs) && (!IsAsync(supActs) ==> second == 0)
      modifies this
      ensures var server := Registered(hasInput, hasOutput, old(launched) > 0);
              var ending := Notified(server, IsSync(supActs), IsAsync(supActs)).0;
              (result == NoEndpoint <==> ending == Threw) && (result == Terminated <==> ending == Crashed)
      ensures result == NoEndpoint ==> startupStateTarget == if IsSync(supActs) && hasInput then 1 else 0
      ensures launched == old(launched) + startupStateTarget
      ensures result == StillAsleep || result == AllReady ==>
                && startupStateTarget == Wanted(supActs)
                && startupState == old(startupState) + first + second + early + Total(wakes)
                && (result == AllReady <==> startupState == startupStateTarget)
    {
      hide IsSync, IsAsync;
      var ending := LaunchThreads(IsSync(supActs), IsAsync(supActs), first, second);
      match ending
      case Threw => return NoEndpoint;
      case Crashed => return Terminated;
      case Succeeded =>
        ThreadsStart(early);
        var ready := AwaitThreads(wakes);
        result := if ready then AllReady else StillAsleep;
    }
  }
}
