/** Whole loads and unloads: what they leave behind, however the other threads are interleaved
    with them. */
module Operations {
  import opened Systems
  import opened Actions
  import opened Activations
  import opened Lifecycle

  // ---------- Loading ----------

  /** What the search for a unit and its initialization come to. */
  datatype LoadOutcome = NoUnit | InitializationFails(transceiver: bool) | Loads(transceiver: bool)

  /** How `load_proc_unit` ends. */
  function LoadEnding(s: State, outcome: LoadOutcome): Ending {
    if s.loadedModule.None? || s.loadedUnit.Some? then Succeeded
    else if !outcome.Loads? then Threw
    else Notification(s.server, s.loadedModule.value).0
  }

  /** The effect of `load_proc_unit`; a crash leaves it in the server's callback. */
  function AfterLoad(s: State, outcome: LoadOutcome): State {
    if s.loadedModule.None? || s.loadedUnit.Some? || outcome == NoUnit then s.(holder := Free)
    else
      var listens := outcome.transceiver && s.loadedModule == Some(Brazil);
      var t := s.(loadedUnit := Some(s.nextUnit), live := s.live + {s.nextUnit}, nextUnit := s.nextUnit + 1,
                  listener := if !listens then NoListener else if outcome.Loads? then Waiting else NotStarted);
      if outcome.Loads? then AfterNotice(AfterStart(t)) else t.(holder := Free)
  }

  /** The worker has been started, if the module asks for one. */
  function AfterStart(s: State): State
    requires s.loadedModule.Some?
  {
    if !NeedsWorker(s.loadedModule.value) then s
    else
      s.(isRunning := true, handle := Some(s.nextThread), workers := s.workers[s.nextThread := Top],
         nextThread := s.nextThread + 1)
  }

  /** The server's callback has ended. */
  function AfterNotice(s: State): State
    requires s.loadedModule.Some?
  {
    var (ending, server) := Notification(s.server, s.loadedModule.value);
    if ending == Crashed then s.(holder := Notifying, terminated := true) else s.(holder := Free, server := server)
  }

  lemma RunCons(s: State, l: Label, s1: State, ls: seq<Label>)
    requires Next(s, l) == Some(s1)
    ensures Run(Next, s, [l] + ls) == Run(Next, s1, ls)
  {
    assert ([l] + ls)[1..] == ls;
  }

  lemma RunKeepsSafe(s: State, ls: seq<Label>, s': State)
    requires Safe(s) && Run(Next, s, ls) == Some(s')
    ensures Safe(s')
  {
    hide Safe, Next;
    forall s, l | Safe(s) && Next(s, l).Some? ensures Safe(Next(s, l).value) {
      StepKeepsSafe(s, l);
    }
    RunKeeps(Next, Safe, s, ls);
  }

  lemma BeginLoadEffect(s: State, outcome: LoadOutcome)
    requires Safe(s) && s.holder == Free
    ensures Next(s, BeginLoad).Some?
    ensures var s1 := Next(s, BeginLoad).value;
            if s.loadedModule.None? || s.loadedUnit.Some? then s1 == s == AfterLoad(s, outcome)
            else
              && s1 == s.(holder := Constructing)
              && !s.terminated && !s.isRunning && s.handle.None?
  {
    hide SupportedActions, IsSync, IsAsync, NeedsWorker;
    hide NextUnload, NextRequest, NextWorker, NextMeasure, NextServe, ListenerOk;
  }

  /** The effect of a load is that of a run of the step system. */
  lemma LoadRuns(s: State, outcome: LoadOutcome) returns (ls: seq<Label>)
    requires Safe(s) && s.holder == Free
    ensures Run(Next, s, ls) == Some(AfterLoad(s, outcome)) && Safe(AfterLoad(s, outcome))
  {
    BeginLoadEffect(s, outcome);
    hide Safe, Next, NeedsWorker;
    var s1 := Next(s, BeginLoad).value;
    var ks := [];
    if s1.holder == Constructing {
      ks := ConstructRuns(s1, outcome);
      assert AfterLoad(s1, outcome) == AfterLoad(s, outcome);
    }
    ls := [BeginLoad] + ks;
    RunCons(s, BeginLoad, s1, ks);
    RunKeepsSafe(s, ls, AfterLoad(s, outcome));
  }

  lemma ConstructRuns(s: State, outcome: LoadOutcome) returns (ls: seq<Label>)
    requires s.holder == Constructing && s.loadedModule.Some? && s.loadedUnit.None?
    requires !s.terminated && !s.isRunning && s.handle.None?
    ensures Run(Next, s, ls) == Some(AfterLoad(s, outcome))
  {
    hide NeedsWorker, Notification;
    hide Next;
    match outcome
    case NoUnit =>
      NextIsLoad(s, Construct(false, false));
      RunOne(Next, s, Construct(false, false));
      ls := [Construct(false, false)];
    case InitializationFails(transceiver) =>
      var l, k := Construct(true, transceiver), Initialize(false);
      NextIsLoad(s, l);
      var s1 := Next(s, l).value;
      NextIsLoad(s1, k);
      RunOne(Next, s1, k);
      RunCons(s, l, s1, [k]);
      ls := [l] + [k];
    case Loads(transceiver) =>
      var l, k := Construct(true, transceiver), Initialize(true);
      NextIsLoad(s, l);
      var s1 := Next(s, l).value;
      NextIsLoad(s1, k);
      var s2 := Next(s1, k).value;
      assert Next(s1, k) == Some(s2) && AfterNotice(AfterStart(s2)) == AfterLoad(s, outcome);
      hide Run, AfterLoad, AfterStart, AfterNotice;
      var ks := StartRuns(s2);
      RunCons(s1, k, s2, ks);
      RunCons(s, l, s1, [k] + ks);
      ls := [l] + ([k] + ks);
  }

  lemma StartRuns(s: State) returns (ls: seq<Label>)
    requires s.holder == Starting && s.loadedModule.Some? && !s.terminated && !s.isRunning && s.handle.None?
    ensures Run(Next, s, ls) == Some(AfterNotice(AfterStart(s)))
  {
    hide Notification, NeedsWorker;
    hide NextUnload, NextRequest, NextWorker, NextMeasure, NextServe;
    var s1 := Next(s, StartThread).value;
    var s', k := AfterNotice(AfterStart(s)), Callback;
    if s1.holder == Marking {
      var s2 := Next(s1, MarkRunning).value;
      RunOne(Next, s2, k);
      assert Next(s2, k) == Some(s');
      RunCons(s1, MarkRunning, s2, [k]);
      RunCons(s, StartThread, s1, [MarkRunning] + [k]);
      ls := [StartThread] + ([MarkRunning] + [k]);
    } else {
      RunOne(Next, s1, k);
      assert Next(s1, k) == Some(s');
      RunCons(s, StartThread, s1, [k]);
      ls := [StartThread] + [k];
    }
  }

  // ---------- Unloading is atomic ----------

  /** The effect of `unload_proc_unit`, and of `unload_module` if `all`. */
  function Unloaded(s: State, all: bool): State {
    var t := if s.loadedModule.None? || s.loadedUnit.None? then s
             else s.(loadedUnit := None, live := s.live - {s.loadedUnit.value}, isRunning := false,
                     handle := None, workers := map[], listener := NoListener, stopped := false);
    if all then t.(loadedModule := None) else t
  }

  predicate Begins(l: Label) {
    l.SetUp? || l.LoadModule? || l.BeginLoad? || l.BeginUnload? || l.BeginRequest?
  }

  /** What of the request thread an unload cannot change. */
  predicate SameThread(l: Listener, k: Listener) {
    (l == NoListener <==> k == NoListener) && (l == NotStarted <==> k == NotStarted)
  }

  /** The memory of an unload under way since s0: every field but the positions of the worker
      and of the request thread is determined by the position of the holder. */
  ghost predicate Partly(s0: State, all: bool, s: State) {
    var t := s0.(holder := s.holder, listener := s.listener);
    match s.holder
    case Free => s == Unloaded(s0, all)
    case Stopping(a) => a == all && s == t.(workers := s.workers)
    case Joining(a) => a == all && s == t.(workers := s.workers, doExit := true)
    case ClearingExit(a) => a == all && s == t.(workers := map[], handle := None, doExit := true)
    case ClearingRunning(a) => a == all && s == t.(workers := map[], handle := None)
    case Deleting(a) => a == all && s == t.(workers := map[], handle := None, isRunning := false)
    case JoiningListener(a) =>
      a == all && s == t.(workers := map[], handle := None, isRunning := false, stopped := true,
                          terminated := s.terminated)
    case Forgetting(a) =>
      a == all && s0.loadedUnit.Some?
      && s == Unloaded(s0, false).(holder := s.holder, loadedUnit := s0.loadedUnit)
    case DeletingModule => all && s == Unloaded(s0, false).(holder := s.holder)
    case _ => false
  }

  ghost predicate UnderWay(s0: State, all: bool, s: State) {
    && Safe(s)
    && (HasUnit(s) ==> SameThread(s.listener, s0.listener))
    && Partly(s0, all, s)
  }

  lemma WorkerChanges(s: State, w: nat)
    requires NextWorker(s, w).Some? && !s.fault && !NextWorker(s, w).value.fault
    ensures var s' := NextWorker(s, w).value;
            s' == s.(workers := s'.workers) && s.workers != map[]
  {}

  /** The worker and the request thread change nothing but their own positions. */
  lemma ThreadsChange(s: State, l: Label)
    requires Next(s, l).Some? && (l.Work? || l.Measure? || l.Serve?) && !s.fault && !Next(s, l).value.fault
    ensures var s' := Next(s, l).value;
            && s' == s.(workers := s'.workers, listener := s'.listener)
            && (s.workers == map[] ==> s'.workers == map[])
            && SameThread(s'.listener, s.listener)
  {
    hide NextLoad, NextUnload, NextRequest;
    if l.Serve? {
      hide NextWorker, NextMeasure;
    } else {
      WorkerChanges(s, l.w);
      hide NextWorker, NextServe;
    }
  }

  lemma ThreadsKeepPartly(s0: State, all: bool, s: State, l: Label)
    requires Partly(s0, all, s) && s.holder != Free && Next(s, l).Some?
    requires l.Work? || l.Measure? || l.Serve?
    requires HolderOk(s) && (s.listener != NoListener ==> HasUnit(s)) && !s.fault && !Next(s, l).value.fault
    ensures Partly(s0, all, Next(s, l).value)
    ensures HasUnit(Next(s, l).value) ==> HasUnit(s) && SameThread(Next(s, l).value.listener, s.listener)
  {
    ThreadsChange(s, l);
    hide Next;
  }

  lemma SetExitKeepsPartly(s0: State, all: bool, s: State)
    requires Partly(s0, all, s) && Next(s, SetExit).Some? && HolderOk(s)
    ensures Partly(s0, all, Next(s, SetExit).value) && Next(s, SetExit).value.listener == s.listener
  {
    AsyncKinds();
    hide SupportedActions, IsSync, IsAsync, NeedsWorker;
    hide NextLoad, NextRequest, NextWorker, NextMeasure, NextServe;
    assert s.loadedModule.value == Brazil || s.loadedModule.value == Trabea;
  }

  /** The steps that delete the unit. */
  lemma DeletionKeepsPartly(s0: State, all: bool, s: State, l: Label)
    requires !s0.isRunning ==> s0.handle.None? && s0.workers == map[]
    requires !s0.doExit && !s0.stopped && !s0.terminated && s0.holder == Free && s0.loadedModule.Some?
    requires Partly(s0, all, s) && Next(s, l).Some? && (l == Delete || l == JoinListener)
    requires HolderOk(s) && !Next(s, l).value.fault
    ensures Partly(s0, all, Next(s, l).value)
    ensures HasUnit(Next(s, l).value) ==> HasUnit(s) && Next(s, l).value.listener == s.listener
  {
    hide NextLoad, NextRequest, NextWorker, NextMeasure, NextServe;
  }

  lemma HolderKeepsPartly(s0: State, all: bool, s: State, l: Label)
    requires !s0.isRunning ==> s0.handle.None? && s0.workers == map[]
    requires !s0.doExit && !s0.stopped && !s0.terminated && s0.holder == Free && s0.loadedModule.Some?
    requires Partly(s0, all, s) && s.holder != Free && Next(s, l).Some? && IsUnload(l)
    requires l != SetExit && l != Delete && l != JoinListener
    requires HolderOk(s) && !Next(s, l).value.fault
    ensures Partly(s0, all, Next(s, l).value)
    ensures HasUnit(Next(s, l).value) ==> HasUnit(s) && Next(s, l).value.listener == s.listener
  {
    hide NextLoad, NextRequest, NextWorker, NextMeasure, NextServe;
    if l == Forget || l == DeleteModule {
      assert Partly(s0, all, Next(s, l).value);
    } else {
      assert l == Join || l == ClearExit || l == ClearRunning;
    }
  }

  lemma OthersNotUnderWay(s0: State, all: bool, s: State, l: Label)
    requires UnderWay(s0, all, s) && s.holder != Free && (IsLoad(l) || IsRequest(l))
    ensures Next(s, l).None?
  {}

  lemma StepKeepsUnderWay(s0: State, all: bool, s: State, l: Label)
    requires Safe(s0) && s0.holder == Free && s0.loadedModule.Some?
    requires UnderWay(s0, all, s) && s.holder != Free && Next(s, l).Some?
    ensures UnderWay(s0, all, Next(s, l).value)
  {
    assert s.listener != NoListener ==> HasUnit(s);
    assert !s0.doExit && !s0.stopped && !s0.terminated && WorkerIfRunning(s0);
    StepKeepsSafe(s, l);
    hide Partly, Next, HolderOk, ListenerOk;
    if l.Work? || l.Measure? || l.Serve? {
      ThreadsKeepPartly(s0, all, s, l);
    } else if l == SetExit {
      SetExitKeepsPartly(s0, all, s);
    } else if l == Delete || l == JoinListener {
      DeletionKeepsPartly(s0, all, s, l);
    } else if IsUnload(l) {
      HolderKeepsPartly(s0, all, s, l);
    } else {
      OthersNotUnderWay(s0, all, s, l);
    }
  }

  lemma NothingUnderWay(s: State, l: Label)
    requires s.holder == Free && s.workers == map[] && s.listener == NoListener && !Begins(l)
    ensures Next(s, l).None?
  {}

  lemma UnderWayIsOver(s0: State, all: bool, s: State)
    requires Safe(s0) && s0.holder == Free && s0.loadedModule.Some? && UnderWay(s0, all, s) && s.holder == Free
    ensures s.workers == map[] && s.listener == NoListener
  {}

  lemma {:induction false} UnderWayRuns(s0: State, all: bool, s: State, ls: seq<Label>, s': State)
    requires Safe(s0) && s0.holder == Free && s0.loadedModule.Some?
    requires UnderWay(s0, all, s) && Run(Next, s, ls) == Some(s')
    requires forall l :: l in ls ==> !Begins(l)
    ensures UnderWay(s0, all, s')
    decreases |ls|
  {
    if ls != [] {
      hide UnderWay, Safe, Next;
      assert ls[0] in ls;
      if s.holder == Free {
        UnderWayIsOver(s0, all, s);
        NothingUnderWay(s, ls[0]);
        assert false;
      } else {
        StepKeepsUnderWay(s0, all, s, ls[0]);
        UnderWayRuns(s0, all, Next(s, ls[0]).value, ls[1..], s');
      }
    }
  }

  /** The run of an unload that began in s: the steps after its begin are of the unload, the
      worker and the request thread. */
  ghost predicate Unloads(s: State, all: bool, ls: seq<Label>, s': State) {
    Run(Next, s, [BeginUnload(all)] + ls) == Some(s') && forall l :: l in ls ==> !Begins(l)
  }

  lemma BeginIsUnderWay(s: State, all: bool)
    requires Safe(s) && s.holder == Free && s.loadedModule.Some?
    ensures Next(s, BeginUnload(all)).Some? && UnderWay(s, all, Next(s, BeginUnload(all)).value)
  {
    StepKeepsSafe(s, BeginUnload(all));
  }

  lemma UnloadsIsUnderWay(s: State, all: bool, ls: seq<Label>, s': State)
    requires Safe(s) && s.holder == Free && s.loadedModule.Some? && Unloads(s, all, ls, s')
    ensures UnderWay(s, all, s')
  {
    BeginIsUnderWay(s, all);
    hide Next, UnderWay, Safe;
    var s1 := Next(s, BeginUnload(all)).value;
    RunCons(s, BeginUnload(all), s1, ls);
    UnderWayRuns(s, all, s1, ls, s');
  }

  lemma UnloadsNothing(s: State, all: bool, ls: seq<Label>, s': State)
    requires Safe(s) && s.holder == Free && s.loadedModule.None? && Unloads(s, all, ls, s')
    ensures s' == s
  {
    RunCons(s, BeginUnload(all), s, ls);
    if ls != [] {
      assert ls[0] in ls;
      NothingUnderWay(s, ls[0]);
      assert false;
    }
  }

  /** Unloading is atomic: however the worker and the request thread are interleaved with it,
      an unload that has come to its end has joined both and left exactly the state its
      specification gives. */
  lemma UnloadIsAtomic(s: State, all: bool, ls: seq<Label>, s': State)
    requires Safe(s) && s.holder == Free && Unloads(s, all, ls, s') && s'.holder == Free
    ensures s' == Unloaded(s, all)
  {
    if s.loadedModule.Some? {
      UnloadsIsUnderWay(s, all, ls, s');
    } else {
      UnloadsNothing(s, all, ls, s');
    }
  }
}
