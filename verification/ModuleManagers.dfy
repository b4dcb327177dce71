/** The module manager and its modules as objects.  Each operation has the effect the step
    system gives it, and is a run of the step system; an unload that never returns says so in
    its result. */
module ModuleManagers {
  import opened Systems
  import opened Actions
  import opened Activations
  import opened Lifecycle
  import opened Operations
  import opened Fates

  /** What an unload comes to: `delivered` says that the worker takes the measurement of an
      open session before it finds the stop flag set, `late` that a client connects between
      the end of the worker and the end of the I/O service. */
  function FateOf(l: Listener, delivered: bool, late: bool): Fate {
    if l == NoListener then Finishes
    else if l == NotStarted then Terminates
    else if late || (Unmeasured(l) && !delivered) then Blocks
    else Finishes
  }

  /** Those are the fates of the runs of the step system. */
  lemma FatesOfRuns(s: State, all: bool, fate: Fate)
    requires Safe(s) && s.holder == Free
    ensures (exists delivered, late :: FateOf(s.listener, delivered, late) == fate)
            <==> (exists ls, s' :: Unloads(s, all, ls, s') && Meets(s', fate))
  {
    UnloadMeets(s, all, fate);
    assert FateOf(s.listener, true, true) == fate || FateOf(s.listener, true, false) == fate
           <==> Possible(s.listener, fate);
  }

  /** What lies outside the two objects: the heap of processing units and the threads, also
      the request thread and the I/O service of the loaded unit. */
  class Machine {
    var live: set<nat>
    var nextUnit: nat
    var workers: map<nat, WorkerPc>
    var nextThread: nat
    var listener: Listener
    var stopped: bool

    constructor ()
      ensures live == {} && nextUnit == 0 && workers == map[] && nextThread == 0
      ensures listener == NoListener && !stopped
    {
      live, nextUnit, workers, nextThread, listener, stopped := {}, 0, map[], 0, NoListener, false;
    }

    method NewUnit(listens: bool) returns (unit: nat)
      modifies this`live, this`nextUnit, this`listener
      ensures unit == old(nextUnit) && nextUnit == old(nextUnit) + 1 && live == old(live) + {unit}
      ensures listener == if listens then NotStarted else NoListener
    {
      unit := nextUnit;
      live, nextUnit := live + {unit}, nextUnit + 1;
      listener := if listens then NotStarted else NoListener;
    }

    /** The destructor of a unit.  Unless it finishes, the unit still exists. */
    method DeleteUnit(unit: nat, late: bool) returns (fate: Fate)
      requires !stopped && listener != Ended
      modifies this`live, this`listener, this`stopped
      ensures fate == FateOf(old(listener), false, late)
      ensures fate == Finishes ==> live == old(live) - {unit} && listener == NoListener && !stopped
      ensures fate == Blocks ==> live == old(live) && listener == Blocked && stopped
      ensures fate == Terminates ==> live == old(live) && listener == NotStarted && stopped
    {
      if listener != NoListener {
        if late {
          ServeUntilConnected();
        }
        stopped := true;
        fate := JoinRequestThread();
        if fate != Finishes {
          return;
        }
      }
      live, listener, stopped := live - {unit}, NoListener, false;
      return Finishes;
    }

    method ServeUntilConnected()
      requires !stopped && listener != Ended
      modifies this`listener
      ensures if Started(old(listener)) then Unmeasured(listener) else listener == old(listener)
    {
      while listener == Signalled || listener == Closed || listener == Waiting
        invariant Started(listener) <==> Started(old(listener))
        invariant !Started(listener) ==> listener == old(listener)
        invariant listener != Ended
        decreases if Unmeasured(listener) then 0 else ServesLeft(listener)
      {
        listener := match listener
                    case Signalled => Closed
                    case Closed => Waiting
                    case _ => Connected;
      }
    }

    method JoinRequestThread() returns (fate: Fate)
      requires stopped && listener != NoListener
      modifies this`listener
      ensures fate == if old(listener) == NotStarted then Terminates
                      else if Unmeasured(old(listener)) then Blocks
                      else Finishes
      ensures listener == match fate
                          case Finishes => Ended
                          case Blocks => Blocked
                          case Terminates => NotStarted
    {
      if listener == NotStarted {
        return Terminates;
      }
      while listener != Ended && listener != Blocked
        invariant Started(listener) && (Unmeasured(listener) <==> Unmeasured(old(listener)))
        decreases ServesLeft(listener)
      {
        listener := match listener
                    case Connected => Opened
                    case Opened => Blocked
                    case Signalled => Closed
                    case Closed => Waiting
                    case _ => Ended;
      }
      return if listener == Ended then Finishes else Blocks;
    }

    method NewThread() returns (w: nat)
      modifies this`workers, this`nextThread
      ensures w == old(nextThread) && nextThread == old(nextThread) + 1 && workers == old(workers)[w := Top]
    {
      w := nextThread;
      workers, nextThread := workers[w := Top], nextThread + 1;
    }

    /** Wait for a worker that will find the stop flag set: it finishes the turn it is in,
        which may take the measurement of an open session. */
    method JoinThread(w: nat, unit: nat, delivered: bool)
      requires w in workers
      modifies this`workers, this`listener
      ensures workers == old(workers) - {w}
      ensures listener == if delivered && Unmeasured(old(listener)) then Signalled else old(listener)
    {
      if delivered && Unmeasured(listener) {
        listener := Signalled;
      }
      while workers[w] != Exited
        invariant workers.Keys == old(workers.Keys)
        invariant forall v :: v in workers && v != w ==> workers[v] == old(workers[v])
        invariant listener == if delivered && Unmeasured(old(listener)) then Signalled else old(listener)
        decreases TurnRank(workers[w])
      {
        workers := workers[w := match workers[w]
                                case Top => Exited
                                case Entering => Calling(unit)
                                case Calling(_) => Top
                                case Exited => Exited];
      }
      workers := workers - {w};
    }
  }

  class Module {
    const kind: Kind
    var loadedProcUnit: Option<nat>
    var isRunning: bool
    var doExit: bool
    var asyncProcThread: Option<nat>

    constructor (kind: Kind)
      ensures this.kind == kind && loadedProcUnit.None? && !isRunning && !doExit && asyncProcThread.None?
    {
      this.kind := kind;
      loadedProcUnit, isRunning, doExit, asyncProcThread := None, false, false, None;
    }

    method StartAsyncProc(machine: Machine)
      modifies this`isRunning, this`asyncProcThread, machine`workers, machine`nextThread
      ensures var starts := old(loadedProcUnit.Some? && !isRunning);
              && isRunning == (old(isRunning) || starts)
              && asyncProcThread == (if starts then Some(old(machine.nextThread)) else old(asyncProcThread))
              && machine.nextThread == old(machine.nextThread) + (if starts then 1 else 0)
              && machine.workers ==
                 if starts then old(machine.workers)[old(machine.nextThread) := Top] else old(machine.workers)
    {
      if loadedProcUnit.None? {
        return;
      }
      if !isRunning {
        var w := machine.NewThread();
        asyncProcThread := Some(w);
        isRunning := true;
      }
    }

    method StopAsyncProc(machine: Machine, delivered: bool)
      requires isRunning ==> asyncProcThread.Some? && asyncProcThread.value in machine.workers
      modifies this`isRunning, this`doExit, this`asyncProcThread, machine`workers, machine`listener
      ensures var stops := old(loadedProcUnit.Some? && isRunning);
              && isRunning == (old(isRunning) && !stops)
              && doExit == (old(doExit) && !stops)
              && asyncProcThread == (if stops then None else old(asyncProcThread))
              && machine.workers ==
                 (if stops then old(machine.workers) - {old(asyncProcThread).value} else old(machine.workers))
              && machine.listener ==
                 if stops && delivered && Unmeasured(old(machine.listener)) then Signalled else old(machine.listener)
    {
      if loadedProcUnit.None? {
        return;
      }
      if isRunning {
        doExit := true;
        machine.JoinThread(asyncProcThread.value, loadedProcUnit.value, delivered);
        asyncProcThread := None;
        doExit := false;
        isRunning := false;
      }
    }

    /** `outcome` is what the search for the unit and its initialization come to. */
    method LoadProcUnit(machine: Machine, outcome: LoadOutcome) returns (threw: bool)
      requires loadedProcUnit.None? ==> !isRunning
      modifies this`loadedProcUnit, this`isRunning, this`asyncProcThread, machine
      ensures threw == (old(loadedProcUnit).None? && !outcome.Loads?)
      ensures var loads := old(loadedProcUnit).None? && outcome != NoUnit;
              var starts := loads && outcome.Loads? && NeedsWorker(kind);
              && loadedProcUnit == (if loads then Some(old(machine.nextUnit)) else old(loadedProcUnit))
              && machine.live == (if loads then old(machine.live) + {old(machine.nextUnit)} else old(machine.live))
              && machine.nextUnit == old(machine.nextUnit) + (if loads then 1 else 0)
              && machine.stopped == old(machine.stopped)
              && machine.listener == (if !loads then old(machine.listener)
                                      else if !outcome.transceiver || kind != Brazil then NoListener
                                      else if outcome.Loads? then Waiting
                                      else NotStarted)
              && isRunning == (old(isRunning) || starts)
              && asyncProcThread == (if starts then Some(old(machine.nextThread)) else old(asyncProcThread))
              && machine.nextThread == old(machine.nextThread) + (if starts then 1 else 0)
              && machine.workers ==
                 if starts then old(machine.workers)[old(machine.nextThread) := Top] else old(machine.workers)
    {
      hide Check, SupportedActions;
      if loadedProcUnit.Some? {
        return false;
      }
      if outcome == NoUnit {
        return true;
      }
      var unit := machine.NewUnit(outcome.transceiver && kind == Brazil);
      loadedProcUnit := Some(unit);
      if outcome.InitializationFails? {
        return true;
      }
      if machine.listener == NotStarted {
        machine.listener := Waiting;
      }
      if Check(REPLY, SupportedActions(kind)) || Check(WAIT, SupportedActions(kind)) {
        StartAsyncProc(machine);
      }
      return false;
    }

    method UnloadProcUnit(machine: Machine, delivered: bool, late: bool) returns (fate: Fate)
      requires isRunning ==> asyncProcThread.Some? && machine.workers.Keys == {asyncProcThread.value}
      requires isRunning ==> NeedsWorker(kind)
      requires !isRunning ==> asyncProcThread.None? && machine.workers == map[]
      requires !doExit && (isRunning ==> loadedProcUnit.Some?)
      requires !machine.stopped && machine.listener != Ended && (Started(machine.listener) ==> isRunning)
      requires machine.listener != NoListener ==> loadedProcUnit.Some?
      modifies this`loadedProcUnit, this`isRunning, this`doExit, this`asyncProcThread
      modifies machine`live, machine`workers, machine`listener, machine`stopped
      ensures fate == FateOf(old(machine.listener), delivered, late)
      ensures !isRunning && !doExit && asyncProcThread.None? && machine.workers == map[]
      ensures fate == Finishes ==>
                && loadedProcUnit.None? && machine.listener == NoListener && !machine.stopped
                && machine.live ==
                   old(machine.live) - if old(loadedProcUnit).Some? then {old(loadedProcUnit).value} else {}
      ensures fate != Finishes ==>
                && loadedProcUnit == old(loadedProcUnit) && machine.live == old(machine.live) && machine.stopped
                && machine.listener == if fate == Blocks then Blocked else NotStarted
    {
      if loadedProcUnit.None? {
        return Finishes;
      }
      if Check(REPLY, SupportedActions(kind)) || Check(WAIT, SupportedActions(kind)) {
        StopAsyncProc(machine, delivered);
      }
      assert machine.workers.Keys == {};
      fate := machine.DeleteUnit(loadedProcUnit.value, late);
      if fate == Finishes {
        loadedProcUnit := None;
      }
    }
  }

  class ModuleManager {
    const machine: Machine
    var loadedModule: Module?
    var serverCallback: Registration

    constructor ()
      ensures loadedModule == null && fresh(machine) && View() == INITIAL
    {
      machine := new Machine();
      loadedModule, serverCallback := null, Unregistered;
    }

    /** The state of the step system while no operation is under way. */
    ghost function View(): State
      reads this, machine, loadedModule
    {
      if loadedModule == null then
        INITIAL.(live := machine.live, nextUnit := machine.nextUnit, workers := machine.workers,
                 nextThread := machine.nextThread, listener := machine.listener, stopped := machine.stopped,
                 server := serverCallback)
      else
        State(Some(loadedModule.kind), loadedModule.loadedProcUnit, machine.live, machine.nextUnit,
              loadedModule.isRunning, loadedModule.doExit, loadedModule.asyncProcThread,
              machine.workers, machine.nextThread, machine.listener, machine.stopped,
              serverCallback, Free, false, false)
    }

    /** The server registers its callback, or is given its endpoints. */
    method RegisterCallback(input: bool, output: bool)
      requires Safe(View())
      modifies this
      ensures Safe(View()) && Next(old(View()), SetUp(input, output)) == Some(View())
      ensures serverCallback ==
              Registered(input, output, old(serverCallback).Registered? && old(serverCallback).launched)
    {
      ghost var before := View();
      serverCallback := Registered(input, output, serverCallback.Registered? && serverCallback.launched);
      StepKeepsSafe(before, SetUp(input, output));
    }

    /** `name` is the module of that name, if there is one. */
    method LoadModule(name: Option<Kind>) returns (threw: bool)
      requires Safe(View())
      modifies this
      ensures threw == (old(View()).loadedModule.None? && name.None?)
      ensures Safe(View()) && Next(old(View()), Lifecycle.LoadModule(name)) == Some(View())
      ensures old(loadedModule) == null && name.Some? ==>
                loadedModule != null && loadedModule.kind == name.value && loadedModule.loadedProcUnit.None?
      ensures old(loadedModule) != null || name.None? ==> loadedModule == old(loadedModule)
      ensures View() == old(View()).(loadedModule := View().loadedModule)
    {
      ghost var before := View();
      threw := false;
      if loadedModule == null {
        if name.None? {
          return true;
        }
        loadedModule := new Module(name.value);
      }
      StepKeepsSafe(before, Lifecycle.LoadModule(name));
    }

    /** The server's reaction to a loaded unit of a module. */
    method Notify(kind: Kind) returns (ending: Ending)
      modifies this`serverCallback
      ensures (ending, serverCallback) == Notification(old(serverCallback), kind)
      ensures ending == Crashed ==> serverCallback == old(serverCallback)
    {
      hide Check, SupportedActions;
      var supported := SupportedActions(kind);
      if serverCallback.Unregistered? {
        return Threw;
      }
      var launched := 0;
      if Check(REQUEST, supported) || Check(PUSH, supported) {
        if !serverCallback.input {
          return Threw;
        }
        if serverCallback.launched {
          return Crashed;
        }
        launched := 1;
      }
      if Check(REPLY, supported) || Check(WAIT, supported) {
        if !serverCallback.output {
          serverCallback := serverCallback.(launched := serverCallback.launched || launched > 0);
          return Threw;
        }
        if launched == 0 && serverCallback.launched {
          return Crashed;
        }
        launched := launched + 1;
      }
      serverCallback := serverCallback.(launched := serverCallback.launched || launched > 0);
      return Succeeded;
    }

    /** A load that crashes does not return: the program has ended in the server's callback. */
    method LoadProcUnit(outcome: LoadOutcome) returns (ending: Ending)
      requires Safe(View())
      modifies this`serverCallback, machine, loadedModule
      ensures ending == LoadEnding(old(View()), outcome)
      ensures ending == Threw <==>
                && old(View()).loadedModule.Some? && old(View()).loadedUnit.None?
                && (!outcome.Loads? || ServerThrows(old(serverCallback), old(View()).loadedModule.value))
      ensures ending == Crashed <==>
                && old(View()).loadedModule.Some? && old(View()).loadedUnit.None? && outcome.Loads?
                && Crashing(old(View()))
      ensures ending != Crashed ==> View() == AfterLoad(old(View()), outcome) && Safe(View())
      ensures ending == Crashed ==>
                View().(holder := Notifying, terminated := true) == AfterLoad(old(View()), outcome)
      ensures exists ls :: Run(Next, old(View()), ls) == Some(AfterLoad(old(View()), outcome))
    {
      hide NeedsWorker, Notification, HolderOk, ListenerOk;
      LoadIsReady(View());
      LoadEndingIs(View(), outcome);
      ghost var trace := LoadRuns(View(), outcome);
      hide Safe, Run;
      if loadedModule == null || loadedModule.loadedProcUnit.Some? {
        return Succeeded;
      }
      var threw := loadedModule.LoadProcUnit(machine, outcome);
      if threw {
        return Threw;
      }
      ending := Notify(loadedModule.kind);
    }

    /** The call returns if and only if it finishes. */
    method UnloadProcUnit(delivered: bool, late: bool) returns (fate: Fate)
      requires Safe(View())
      modifies machine, loadedModule
      ensures fate == FateOf(old(View()).listener, delivered, late)
      ensures fate == Terminates <==> old(View()).listener == NotStarted
      ensures fate == Blocks <==> Started(old(View()).listener)
                                  && (late || (Unmeasured(old(View()).listener) && !delivered))
      ensures fate == Finishes ==> View() == Unloaded(old(View()), false) && Safe(View())
      ensures fate == Finishes ==> loadedModule == old(loadedModule)
      ensures fate == Finishes ==> View().loadedUnit.None? && machine.workers == map[] && machine.listener == NoListener
      ensures fate == Finishes ==>
                forall u :: u in machine.live <==> u in old(machine.live) && old(View()).loadedUnit != Some(u)
      ensures fate != Finishes ==>
                && machine.workers == map[] && machine.stopped
                && machine.listener == (if fate == Blocks then Blocked else NotStarted)
                && View().loadedUnit == old(View()).loadedUnit && View().live == old(View()).live
      ensures exists ls, s' :: Unloads(old(View()), false, ls, s') && Meets(s', fate)
    {
      AsyncKinds();
      ghost var before := View();
      fate := Finishes;
      if loadedModule != null {
        fate := loadedModule.UnloadProcUnit(machine, delivered, late);
      }
      UnloadedSafe(before, false, fate, delivered, late);
    }

    method UnloadModule(delivered: bool, late: bool) returns (fate: Fate)
      requires Safe(View())
      modifies this, machine, loadedModule
      ensures fate == FateOf(old(View()).listener, delivered, late)
      ensures fate == Terminates <==> old(View()).listener == NotStarted
      ensures fate == Blocks <==> Started(old(View()).listener)
                                  && (late || (Unmeasured(old(View()).listener) && !delivered))
      ensures fate == Finishes ==> View() == Unloaded(old(View()), true) && Safe(View())
      ensures fate == Finishes ==> loadedModule == null && machine.workers == map[] && machine.listener == NoListener
      ensures fate == Finishes ==>
                forall u :: u in machine.live <==> u in old(machine.live) && old(View()).loadedUnit != Some(u)
      ensures fate != Finishes ==>
                && machine.workers == map[] && machine.stopped
                && machine.listener == (if fate == Blocks then Blocked else NotStarted)
                && View().loadedUnit == old(View()).loadedUnit && View().live == old(View()).live
      ensures exists ls, s' :: Unloads(old(View()), true, ls, s') && Meets(s', fate)
    {
      AsyncKinds();
      ghost var before := View();
      fate := Finishes;
      if loadedModule != null {
        fate := loadedModule.UnloadProcUnit(machine, delivered, late);
        if fate == Finishes {
          loadedModule := null;
        }
      }
      UnloadedSafe(before, true, fate, delivered, late);
    }

    /** A request or a push is forwarded to the loaded unit, which exists; without one it
        throws. */
    method ProcAct<R>(process: nat -> R) returns (result: Option<R>)
      requires Safe(View())
      ensures match View().loadedUnit
              case None => result.None?
              case Some(unit) => unit in machine.live && result == Some(process(unit))
    {
      if loadedModule == null || loadedModule.loadedProcUnit.None? {
        return None;
      }
      return Some(process(loadedModule.loadedProcUnit.value));
    }
  }

  /** A missing server or endpoint. */
  predicate ServerThrows(server: Registration, kind: Kind) {
    server.Unregistered? || !server.input || (kind == Brazil && !server.output && !server.launched)
  }

  /** The callback for each kind of module. */
  lemma NoticeIs(server: Registration, kind: Kind)
    ensures var (ending, after) := Notification(server, kind);
            && (ending == Threw <==> ServerThrows(server, kind))
            && (ending == Crashed <==> server.Registered? && server.input && server.launched)
            && (server.Registered? <==> after.Registered?)
            && (server.Registered? ==>
                  && after.input == server.input && after.output == server.output
                  && (after.launched <==> server.launched || server.input))
  {
    hide IsSync, NeedsWorker, SupportedActions, Notified;
    AsyncKinds();
    var sync, async := IsSync(SupportedActions(kind)), NeedsWorker(kind);
    assert sync && (async <==> kind == Brazil) by {
      assert kind == Brazil || kind == Trabea;
    }
    NotifiedIff(server, sync, async);
  }

  lemma LoadEndingIs(s: State, outcome: LoadOutcome)
    ensures LoadEnding(s, outcome) == Threw <==>
            s.loadedModule.Some? && s.loadedUnit.None?
            && (!outcome.Loads? || ServerThrows(s.server, s.loadedModule.value))
    ensures LoadEnding(s, outcome) == Crashed <==>
            s.loadedModule.Some? && s.loadedUnit.None? && outcome.Loads? && Crashing(s)
  {
    if s.loadedModule.Some? {
      NoticeIs(s.server, s.loadedModule.value);
      hide Notification;
    }
  }

  lemma LoadIsReady(s: State)
    requires Safe(s) && s.holder == Free
    ensures s.loadedUnit.None? ==> !s.isRunning && s.listener == NoListener
  {}

  /** The effect of an unload is that of a run of the step system. */
  lemma UnloadedSafe(s: State, all: bool, fate: Fate, delivered: bool, late: bool)
    requires Safe(s) && s.holder == Free && fate == FateOf(s.listener, delivered, late)
    ensures exists ls, s' :: Unloads(s, all, ls, s') && Meets(s', fate)
    ensures fate == Finishes ==> Safe(Unloaded(s, all))
  {
    hide Next, Safe;
    FatesOfRuns(s, all, fate);
    var ls, s' :| Unloads(s, all, ls, s') && Meets(s', fate);
    if fate == Finishes {
      UnloadIsAtomic(s, all, ls, s');
      RunKeepsSafe(s, [BeginUnload(all)] + ls, s');
    }
  }
}
