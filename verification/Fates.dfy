/** Whether operations come to their end.  All do but two.  A load ends the program if the
    server has launched its work threads for an earlier unit.  An unload that deletes a
    transceiver joins its request thread, which was never started if the initialization threw,
    and which sleeps for ever in the close request of a session whose measurement the stopped
    worker can no longer deliver. */
module Fates {
  import opened Systems
  import opened Actions
  import opened Lifecycle
  import opened Operations

  /** The worker has tested the stop flag before it was set: it makes one more call of
      `async_work`. */
  ghost predicate InTurn(s: State) {
    && s.handle.Some? && s.handle.value in s.workers
    && (s.workers[s.handle.value] == Entering || s.workers[s.handle.value].Calling?)
  }

  /** The server will not put a work thread over a running one; the request thread to be joined
      was started, and no session is left without its measurement when the worker has stopped. */
  ghost predicate CanComplete(s: State) {
    match s.holder
    case Starting => !Crashing(s)
    case Marking => !Crashing(s)
    case Notifying => !Crashing(s)
    case Stopping(_) => s.listener != NotStarted
    case Joining(_) => Unmeasured(s.listener) ==> InTurn(s)
    case ClearingExit(_) => !Unmeasured(s.listener)
    case ClearingRunning(_) => !Unmeasured(s.listener)
    case Deleting(_) => s.listener != NotStarted && !Unmeasured(s.listener)
    case JoiningListener(_) => s.listener != NotStarted && !Unmeasured(s.listener)
    case _ => true
  }

  /** The request thread sleeps until the measurement arrives, and the operation that would
      have to start a worker waits for the request thread. */
  predicate Deadlocked(s: State) { s.holder.JoiningListener? && s.listener == Blocked }

  // ---------- From every other state an operation can be completed ----------

  ghost function HolderRank(h: Holder): nat {
    match h
    case Free => 0
    case Constructing => 8
    case Initializing => 7
    case Starting => 4
    case Marking => 3
    case Notifying => 2
    case Stopping(_) => 8
    case Joining(_) => 7
    case ClearingExit(_) => 6
    case ClearingRunning(_) => 5
    case Deleting(_) => 4
    case JoiningListener(_) => 3
    case Forgetting(_) => 2
    case DeletingModule => 1
    case Serving(_) => 1
  }

  /** The steps of a worker until it returns, once the stop flag is set. */
  function TurnRank(pc: WorkerPc): nat {
    match pc
    case Top => 1
    case Entering => 3
    case Calling(_) => 2
    case Exited => 0
  }

  ghost function TurnsLeft(s: State): nat {
    if s.handle.None? || s.handle.value !in s.workers then 0
    else if s.holder.Stopping? && s.workers[s.handle.value] == Top then 4
    else TurnRank(s.workers[s.handle.value])
  }

  function ServesLeft(l: Listener): nat {
    match l
    case Connected => 6
    case Opened => 5
    case Blocked => 4
    case Signalled => 3
    case Closed => 2
    case Waiting => 1
    case _ => 0
  }

  ghost function StepsLeft(s: State): nat {
    HolderRank(s.holder) + (if s.holder.Stopping? || s.holder.Joining? then TurnsLeft(s) else 0)
    + ServesLeft(s.listener) + (if s.terminated then 0 else 1)
  }

  /** The step is of the operation under way, its worker or the request thread, and brings
      the end nearer. */
  ghost predicate Advances(s: State, l: Label) {
    !Begins(l) && Next(s, l).Some? && StepsLeft(Next(s, l).value) < StepsLeft(s)
  }

  lemma AdvanceMake(s: State) returns (l: Label)
    requires Safe(s) && (s.holder.Constructing? || s.holder.Initializing?)
    ensures Advances(s, l) && CanComplete(Next(s, l).value)
  {
    assert !s.terminated && s.listener != Ended && (s.holder.Initializing? ==> !Started(s.listener));
    hide NeedsWorker, Notification, Safe;
    hide NextUnload, NextRequest, NextWorker, NextMeasure, NextServe;
    l := if s.holder.Constructing? then Construct(true, true) else Initialize(!Crashing(s));
  }

  lemma StartsModule(s: State)
    requires Safe(s) && (s.holder.Starting? || s.holder.Marking?)
    ensures !s.terminated && s.loadedModule.Some?
  {}

  lemma AdvanceStart(s: State) returns (l: Label)
    requires Safe(s) && (s.holder.Starting? || s.holder.Marking?)
    ensures Advances(s, l) && (CanComplete(s) ==> CanComplete(Next(s, l).value))
  {
    StartsModule(s);
    hide NeedsWorker, Notification, Safe, TurnsLeft, ServesLeft, Crashing, Next;
    NextIsLoad(s, StartThread);
    NextIsLoad(s, MarkRunning);
    if s.holder.Starting? {
      l := StartThread;
    } else {
      l := MarkRunning;
    }
  }

  lemma AdvanceEnd(s: State) returns (l: Label)
    requires Safe(s) && (CanComplete(s) || !s.terminated) && (s.holder.Notifying? || s.holder.Serving?)
    ensures Advances(s, l) && (CanComplete(s) ==> CanComplete(Next(s, l).value))
  {
    assert !s.terminated && s.loadedModule.Some?;
    hide Safe, Notification;
    if s.holder.Notifying? {
      l := Callback;
      CallbackIs(s);
      hide Next;
    } else {
      hide NextLoad, NextUnload, NextWorker, NextMeasure, NextServe;
      l := EndRequest;
    }
  }

  lemma AdvanceStopping(s: State) returns (l: Label)
    requires Safe(s) && CanComplete(s) && s.holder.Stopping?
    ensures Advances(s, l) && CanComplete(Next(s, l).value)
  {
    AsyncKinds();
    hide SupportedActions, IsSync, IsAsync, NeedsWorker;
    hide NextLoad, NextRequest, NextMeasure, NextServe;
    if Unmeasured(s.listener) && s.workers[s.handle.value] == Top {
      l := Work(s.handle.value);
    } else {
      assert s.loadedModule.value == Brazil || s.loadedModule.value == Trabea;
      l := SetExit;
    }
  }

  lemma AdvanceJoining(s: State) returns (l: Label)
    requires Safe(s) && CanComplete(s) && s.holder.Joining?
    ensures Advances(s, l) && CanComplete(Next(s, l).value)
  {
    hide NextLoad, NextRequest;
    var w := s.handle.value;
    assert w in s.workers && s.doExit && s.loadedModule == Some(Brazil) && HasUnit(s);
    hide Safe;
    l := if s.listener == Connected then Serve
         else if s.workers[w] == Exited then Join
         else if s.workers[w].Calling? && Unmeasured(s.listener) then Measure(w)
         else Work(w);
  }

  lemma AdvanceClearing(s: State) returns (l: Label)
    requires Safe(s)
    requires s.holder.ClearingExit? || s.holder.ClearingRunning? || s.holder.Forgetting? || s.holder.DeletingModule?
    ensures Advances(s, l) && (CanComplete(s) ==> CanComplete(Next(s, l).value))
  {
    assert !s.terminated && (s.holder.ClearingRunning? ==> s.listener != NotStarted);
    hide Safe;
    hide NextLoad, NextRequest, NextWorker, NextMeasure, NextServe;
    l := match s.holder
         case ClearingExit(_) => ClearExit
         case ClearingRunning(_) => ClearRunning
         case Forgetting(_) => Forget
         case _ => DeleteModule;
  }

  lemma AdvanceDeleting(s: State) returns (l: Label)
    requires Safe(s) && (CanComplete(s) || !(s.terminated || Deadlocked(s)))
    requires s.holder.Deleting? || s.holder.JoiningListener?
    ensures Advances(s, l) && (CanComplete(s) ==> CanComplete(Next(s, l).value))
  {
    assert !s.terminated && s.loadedUnit.Some?;
    assert s.holder.JoiningListener? ==> s.stopped && s.listener != NoListener;
    hide Safe;
    hide NextLoad, NextRequest, NextWorker, NextMeasure;
    l := if s.holder.Deleting? then Delete
         else if s.listener == Ended || s.listener == NotStarted then JoinListener
         else Serve;
  }

  /** No operation that can complete is stuck: some step of its own, of its worker or of the
      request thread brings its end nearer and leaves it able to complete. */
  lemma OperationAdvances(s: State) returns (l: Label)
    requires Safe(s) && CanComplete(s) && s.holder != Free
    ensures Advances(s, l) && CanComplete(Next(s, l).value)
  {
    hide Safe, Next, CanComplete, Advances;
    match s.holder
    case Stopping(_) => l := AdvanceStopping(s);
    case Joining(_) => l := AdvanceJoining(s);
    case ClearingExit(_) => l := AdvanceClearing(s);
    case ClearingRunning(_) => l := AdvanceClearing(s);
    case Deleting(_) => l := AdvanceDeleting(s);
    case JoiningListener(_) => l := AdvanceDeleting(s);
    case Forgetting(_) => l := AdvanceClearing(s);
    case DeletingModule => l := AdvanceClearing(s);
    case Notifying => l := AdvanceEnd(s);
    case Serving(_) => l := AdvanceEnd(s);
    case Starting => l := AdvanceStart(s);
    case Marking => l := AdvanceStart(s);
    case _ => l := AdvanceMake(s);
  }

  /** The operation under way has come to its end. */
  ghost predicate Completes(s: State, ls: seq<Label>, s': State) {
    Run(Next, s, ls) == Some(s') && s'.holder == Free && forall l :: l in ls ==> !Begins(l)
  }

  lemma {:induction false} OperationCompletes(s: State) returns (ls: seq<Label>, s': State)
    requires Safe(s) && CanComplete(s)
    ensures Completes(s, ls, s')
    decreases StepsLeft(s)
  {
    hide Safe, Next, CanComplete, StepsLeft;
    if s.holder == Free {
      ls, s' := [], s;
    } else {
      var l := OperationAdvances(s);
      StepKeepsSafe(s, l);
      var s1 := Next(s, l).value;
      var ks;
      ks, s' := OperationCompletes(s1);
      RunCons(s, l, s1, ks);
      ls := [l] + ks;
    }
  }

  // ---------- From the remaining states no run completes it ----------

  lemma HopelessThreads(s: State, l: Label)
    requires Safe(s) && !CanComplete(s) && Next(s, l).Some?
    requires l.Work? || l.Measure? || l.Serve?
    ensures !CanComplete(Next(s, l).value)
  {
    hide NextLoad, NextRequest, NextUnload;
    var s' := Next(s, l).value;
    assert s'.server == s.server;
    assert s'.holder == s.holder && s'.handle == s.handle;
    assert s.workers.Keys <= if s.handle.Some? then {s.handle.value} else {};
    assert s.holder.Joining? ==> s.doExit;
  }

  lemma HopelessUnload(s: State, l: Label)
    requires Safe(s) && !CanComplete(s) && Next(s, l).Some? && IsUnload(l)
    ensures !CanComplete(Next(s, l).value)
  {
    AsyncKinds();
    hide SupportedActions, IsSync, IsAsync, NeedsWorker;
    hide NextLoad, NextRequest, NextWorker, NextMeasure, NextServe;
    assert s.loadedModule == Some(Brazil) || s.loadedModule == Some(Trabea);
  }

  lemma HopelessLoad(s: State, l: Label)
    requires Safe(s) && !CanComplete(s) && Next(s, l).Some? && (IsLoad(l) || IsRequest(l))
    ensures !CanComplete(Next(s, l).value)
  {
    if l == Callback {
      assert s.loadedModule.Some?;
      CallbackIs(s);
      hide Safe, Next, Notification;
    } else {
      hide Safe, NeedsWorker;
      hide NextUnload, NextWorker, NextMeasure, NextServe;
    }
  }

  lemma {:induction false} HopelessRuns(s: State, ls: seq<Label>, s': State)
    requires Safe(s) && !CanComplete(s) && Run(Next, s, ls) == Some(s')
    ensures Safe(s') && !CanComplete(s')
    decreases |ls|
  {
    if ls != [] {
      hide Safe, Next, CanComplete;
      var l := ls[0];
      if l.Work? || l.Measure? || l.Serve? {
        HopelessThreads(s, l);
      } else if IsUnload(l) {
        HopelessUnload(s, l);
      } else {
        HopelessLoad(s, l);
      }
      StepKeepsSafe(s, l);
      HopelessRuns(Next(s, l).value, ls[1..], s');
    }
  }

  /** An operation can be completed if and only if it is neither a load that has initialized its
      unit with the server's threads launched before, nor an unload whose request thread was
      never started, or whose worker has stopped with a session unmeasured. */
  lemma CompletesIff(s: State)
    requires Safe(s)
    ensures CanComplete(s) <==> exists ls, s' :: Completes(s, ls, s')
  {
    if CanComplete(s) {
      var ls, s' := OperationCompletes(s);
    } else {
      forall ls, s' ensures !Completes(s, ls, s') {
        if Completes(s, ls, s') {
          HopelessRuns(s, ls, s');
          assert false;
        }
      }
    }
  }

  // ---------- How an operation that cannot be completed ends ----------

  lemma DeadlockIsForEver(s: State, l: Label)
    requires Safe(s) && Deadlocked(s)
    ensures Next(s, l).None?
  {
    hide SupportedActions, IsSync, IsAsync, NeedsWorker;
  }

  lemma AdvanceHopeless(s: State) returns (l: Label)
    requires Safe(s) && !CanComplete(s) && (s.holder.Stopping? || s.holder.Joining?)
    ensures Advances(s, l)
  {
    hide SupportedActions, IsSync, IsAsync, NeedsWorker;
    hide NextLoad, NextRequest, NextMeasure;
    l := if s.holder.Stopping? then SetExit
         else if s.workers[s.handle.value] == Exited then Join
         else Work(s.handle.value);
  }

  lemma HopelessOperations(s: State)
    requires !CanComplete(s)
    ensures s.holder.Starting? || s.holder.Marking? || s.holder.Notifying?
            || s.holder.Stopping? || s.holder.Joining? || s.holder.ClearingExit? || s.holder.ClearingRunning?
            || s.holder.Deleting? || s.holder.JoiningListener?
  {}

  /** The operation has not ended, one way or the other. */
  ghost predicate Pending(s: State) { s.holder != Free && !s.terminated && !Deadlocked(s) }

  lemma HopelessAdvances(s: State) returns (l: Label)
    requires Safe(s) && !CanComplete(s) && Pending(s)
    ensures Advances(s, l)
  {
    HopelessOperations(s);
    hide Safe, Next, CanComplete, Advances;
    if s.holder.Stopping? || s.holder.Joining? {
      l := AdvanceHopeless(s);
    } else if s.holder.Starting? || s.holder.Marking? {
      l := AdvanceStart(s);
    } else if s.holder.Notifying? {
      l := AdvanceEnd(s);
    } else if s.holder.Deleting? || s.holder.JoiningListener? {
      l := AdvanceDeleting(s);
    } else {
      l := AdvanceClearing(s);
    }
  }

  lemma {:induction false} HopelessEnds(s: State) returns (ls: seq<Label>, s': State)
    requires Safe(s) && !CanComplete(s)
    ensures Run(Next, s, ls) == Some(s') && (s'.terminated || Deadlocked(s'))
    ensures forall l :: l in ls ==> !Begins(l)
    decreases StepsLeft(s)
  {
    HopelessOperations(s);
    hide Safe, Next, CanComplete, StepsLeft, Deadlocked;
    if s.terminated || Deadlocked(s) {
      ls, s' := [], s;
    } else {
      var l := HopelessAdvances(s);
      var s1 := Next(s, l).value;
      RunOne(Next, s, l);
      HopelessRuns(s, [l], s1);
      var ks;
      ks, s' := HopelessEnds(s1);
      RunCons(s, l, s1, ks);
      ls := [l] + ks;
    }
  }

  // ---------- What a load can come to ----------

  /** The run of a load whose unit is found and initialized; no other thread has a step before. */
  ghost predicate Initializes(s: State, transceiver: bool, ls: seq<Label>, s': State) {
    && Run(Next, s, [BeginLoad] + ([Construct(true, transceiver)] + ([Initialize(true)] + ls))) == Some(s')
    && forall l :: l in ls ==> !Begins(l)
  }

  lemma InitializedUnit(s: State, transceiver: bool) returns (s3: State)
    requires Safe(s) && s.holder == Free && s.loadedModule.Some? && s.loadedUnit.None?
    ensures Safe(s3) && s3.holder == Starting && s3.server == s.server
    ensures forall ls :: Run(Next, s, [BeginLoad] + ([Construct(true, transceiver)] + ([Initialize(true)] + ls)))
                         == Run(Next, s3, ls)
  {
    var s1, k := s.(holder := Constructing), Construct(true, transceiver);
    assert !s.terminated && Next(s, BeginLoad) == Some(s1);
    StepKeepsSafe(s, BeginLoad);
    var s2 := Next(s1, k).value;
    StepKeepsSafe(s1, k);
    s3 := Next(s2, Initialize(true)).value;
    StepKeepsSafe(s2, Initialize(true));
    assert s3.holder == Starting && s3.server == s.server;
    assert Next(s1, k) == Some(s2) && Next(s2, Initialize(true)) == Some(s3);
    hide Safe, Next, Run;
    forall ls
      ensures Run(Next, s, [BeginLoad] + ([k] + ([Initialize(true)] + ls))) == Run(Next, s3, ls)
    {
      RunCons(s2, Initialize(true), s3, ls);
      RunCons(s1, k, s2, [Initialize(true)] + ls);
      RunCons(s, BeginLoad, s1, [k] + ([Initialize(true)] + ls));
    }
  }

  /** A load that has initialized its unit can return to its caller, by a return or an exception,
      if and only if the server does not have an input endpoint and running work threads: else
      it ends the program. */
  lemma LoadCompletesIff(s: State, transceiver: bool)
    requires Safe(s) && s.holder == Free && s.loadedModule.Some? && s.loadedUnit.None?
    ensures !Crashing(s) <==> exists ls, s' :: Initializes(s, transceiver, ls, s') && s'.holder == Free
  {
    var s3 := InitializedUnit(s, transceiver);
    assert CanComplete(s3) <==> !Crashing(s);
    hide Safe, Next, Run, CanComplete;
    CompletesIff(s3);
    if CanComplete(s3) {
      var ls, s' :| Completes(s3, ls, s');
      assert Initializes(s, transceiver, ls, s');
    }
    forall ls, s' | Initializes(s, transceiver, ls, s') && s'.holder == Free ensures CanComplete(s3) {
      assert Completes(s3, ls, s');
    }
  }

  // ---------- What an unload can come to ----------

  datatype Fate = Finishes | Blocks | Terminates

  ghost predicate Meets(s: State, fate: Fate) {
    match fate
    case Finishes => s.holder == Free
    case Blocks => Deadlocked(s)
    case Terminates => s.terminated
  }

  /** An unload blocks in some run whenever there is a request thread: a client may connect
      after the worker has stopped. */
  predicate Possible(l: Listener, fate: Fate) {
    match fate
    case Finishes => l != NotStarted
    case Blocks => Started(l)
    case Terminates => l == NotStarted
  }

  ghost function ConnectsLeft(s: State): nat {
    (match s.listener
     case Signalled => 3
     case Closed => 2
     case Waiting => 1
     case _ => 0)
    + (if s.holder.Stopping? then 1 else 0)
    + (if s.handle.None? || s.handle.value !in s.workers then 0
       else
         match s.workers[s.handle.value]
         case Entering => 2
         case Calling(_) => 1
         case _ => 0)
  }

  ghost predicate MayConnect(s: State) { (s.holder.Stopping? || s.holder.Joining?) && Started(s.listener) }

  lemma StepToHopeless(s: State) returns (l: Label)
    requires Safe(s) && MayConnect(s) && CanComplete(s)
    ensures !Begins(l) && Next(s, l).Some?
    ensures MayConnect(Next(s, l).value) && ConnectsLeft(Next(s, l).value) < ConnectsLeft(s)
  {
    AsyncKinds();
    hide SupportedActions, IsSync, IsAsync, NeedsWorker;
    hide NextLoad, NextRequest, NextMeasure;
    l := if !Unmeasured(s.listener) then Serve
         else if s.holder.Stopping? then SetExit
         else Work(s.handle.value);
  }

  lemma {:induction false} ReachHopeless(s: State) returns (ls: seq<Label>, s': State)
    requires Safe(s) && MayConnect(s)
    ensures Run(Next, s, ls) == Some(s') && Safe(s') && !CanComplete(s')
    ensures forall l :: l in ls ==> !Begins(l)
    decreases ConnectsLeft(s)
  {
    hide Safe, Next, CanComplete, MayConnect, ConnectsLeft;
    if !CanComplete(s) {
      ls, s' := [], s;
    } else {
      var l := StepToHopeless(s);
      StepKeepsSafe(s, l);
      var s1 := Next(s, l).value;
      var ks;
      ks, s' := ReachHopeless(s1);
      RunCons(s, l, s1, ks);
      ls := [l] + ks;
    }
  }

  lemma FateIsPossible(s: State, all: bool, fate: Fate, ls: seq<Label>, s': State)
    requires Safe(s) && s.holder == Free && Unloads(s, all, ls, s') && Meets(s', fate)
    ensures Possible(s.listener, fate)
  {
    if s.loadedModule.None? {
      UnloadsNothing(s, all, ls, s');
    } else {
      UnloadsIsUnderWay(s, all, ls, s');
      if s.listener == NotStarted && s'.holder == Free {
        BeginHopeless(s, all);
        hide Safe, Next, CanComplete, UnderWay;
        var s1 := Next(s, BeginUnload(all)).value;
        RunCons(s, BeginUnload(all), s1, ls);
        HopelessRuns(s1, ls, s');
        HopelessOperations(s');
        assert false;
      }
    }
  }

  lemma BeginHopeless(s: State, all: bool)
    requires Safe(s) && s.holder == Free && s.loadedModule.Some? && s.listener == NotStarted
    ensures Next(s, BeginUnload(all)).Some?
    ensures Safe(Next(s, BeginUnload(all)).value) && !CanComplete(Next(s, BeginUnload(all)).value)
  {
    StepKeepsSafe(s, BeginUnload(all));
  }

  lemma FateOccurs(s: State, all: bool, fate: Fate) returns (ls: seq<Label>, s': State)
    requires Safe(s) && s.holder == Free && Possible(s.listener, fate)
    ensures Unloads(s, all, ls, s') && Meets(s', fate)
  {
    var s1 := BeginPossible(s, all, fate);
    if fate == Finishes {
      ls, s' := OperationCompletes(s1);
    } else {
      var js, s2 := [], s1;
      if fate == Blocks {
        js, s2 := ReachHopeless(s1);
      }
      var ks;
      ks, s' := HopelessEnds(s2);
      hide Safe, Next;
      RunAppend(Next, s1, js, ks);
      ls := js + ks;
    }
    hide Safe, Next;
    RunCons(s, BeginUnload(all), s1, ls);
    if fate != Finishes {
      EndMeets(s, all, fate, ls, s');
    }
  }

  lemma BeginPossible(s: State, all: bool, fate: Fate) returns (s1: State)
    requires Safe(s) && s.holder == Free && Possible(s.listener, fate)
    ensures Next(s, BeginUnload(all)) == Some(s1) && Safe(s1)
    ensures fate == Finishes ==> CanComplete(s1)
    ensures fate == Blocks ==> MayConnect(s1)
    ensures fate == Terminates ==> !CanComplete(s1)
  {
    s1 := Next(s, BeginUnload(all)).value;
    StepKeepsSafe(s, BeginUnload(all));
  }

  lemma EndMeets(s: State, all: bool, fate: Fate, ls: seq<Label>, s': State)
    requires Safe(s) && s.holder == Free && Possible(s.listener, fate) && fate != Finishes
    requires Unloads(s, all, ls, s') && (s'.terminated || Deadlocked(s'))
    ensures Meets(s', fate)
  {
    assert s.loadedModule.Some?;
    UnloadsIsUnderWay(s, all, ls, s');
  }

  /** What unloading can come to, for every state outside the manager's mutex: it finishes in
      some run unless the initialization of a transceiver threw, which ends the program; and
      with a request thread it blocks for ever in some run. */
  lemma UnloadMeets(s: State, all: bool, fate: Fate)
    requires Safe(s) && s.holder == Free
    ensures Possible(s.listener, fate) <==> exists ls, s' :: Unloads(s, all, ls, s') && Meets(s', fate)
  {
    hide Safe, Next, Meets, Possible, Unloads;
    if Possible(s.listener, fate) {
      var ls, s' := FateOccurs(s, all, fate);
    }
    forall ls, s' | Unloads(s, all, ls, s') && Meets(s', fate) ensures Possible(s.listener, fate) {
      FateIsPossible(s, all, fate, ls, s');
    }
  }
}
