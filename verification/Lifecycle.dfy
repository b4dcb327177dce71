/** Loading and unloading modules and processing units while a worker thread runs the
    asynchronous work of the current unit, the unit's own request thread serves peers, and
    clients have requests processed.

    All operations of the manager run under its mutex, so at most one of them, the holder, is
    under way; the worker takes no lock.  Every step is one access to shared memory, one
    request of a peer, or a call into code of a processing unit. */
module Lifecycle {
  import opened Systems
  import opened Actions
  import opened Activations

  datatype Kind = Brazil | Trabea

  function SupportedActions(kind: Kind): bv64 {
    match kind
    case Brazil => Pack([PUSH, WAIT])
    case Trabea => Pack([REQUEST, PUSH])
  }

  /** The module asks for an asynchronous worker. */
  predicate NeedsWorker(kind: Kind) { IsAsync(SupportedActions(kind)) }

  /** The worker: about to test the stop flag, about to follow the pointer to the unit, in
      `async_work` of a unit, or returned. */
  datatype WorkerPc = Top | Entering | Calling(unit: nat) | Exited

  /** The request thread of the loaded unit.  Switches and the hardware receiver have none; a
      transceiver starts its own at the end of its initialization.  It waits for a client or
      serves a session: connected, opened, asleep in the close request without a measurement,
      with the measurement signalled, or closed but not yet disconnected. */
  datatype Listener =
    | NoListener
    | NotStarted
    | Waiting
    | Connected
    | Opened
    | Blocked
    | Signalled
    | Closed
    | Ended

  predicate Started(l: Listener) { l != NoListener && l != NotStarted }

  /** A session is under way whose measurement has not arrived. */
  predicate Unmeasured(l: Listener) { l == Connected || l == Opened || l == Blocked }

  /** What the operation that holds the manager's mutex does next. */
  datatype Holder =
    | Free
    // load_proc_unit
    | Constructing
    | Initializing
    | Starting
    | Marking
    | Notifying
    // unload_proc_unit, and unload_module if `all`
    | Stopping(all: bool)
    | Joining(all: bool)
    | ClearingExit(all: bool)
    | ClearingRunning(all: bool)
    | Deleting(all: bool)
    | JoiningListener(all: bool)
    | Forgetting(all: bool)
    | DeletingModule
    // proc_act_request and proc_act_push
    | Serving(unit: nat)

  /** `live` are the units that exist, `workers` the threads that have not been joined and
      `handle` the thread the thread object stands for.  `stopped` says that the unit's
      destructor has stopped its I/O service, and `server` is the client server.  `terminated` is
      the end of the program, by an exception in a destructor or by a thread put over a running
      one.  `fault` records a dangling unit pointer in use, a thread object overwritten, a module
      deleted under its worker, and an exception in a worker. */
  datatype State = State(
    loadedModule: Option<Kind>, loadedUnit: Option<nat>, live: set<nat>, nextUnit: nat,
    isRunning: bool, doExit: bool, handle: Option<nat>, workers: map<nat, WorkerPc>, nextThread: nat,
    listener: Listener, stopped: bool, server: Registration, holder: Holder, terminated: bool, fault: bool)

  datatype Label =
    // the server is registered or given its endpoints
    | SetUp(input: bool, output: bool)
    // the holder of the mutex
    | LoadModule(name: Option<Kind>)
    | BeginLoad
    | Construct(ok: bool, transceiver: bool)
    | Initialize(ok: bool)
    | StartThread
    | MarkRunning
    | Callback
    | BeginUnload(all: bool)
    | SetExit
    | Join
    | ClearExit
    | ClearRunning
    | Delete
    | JoinListener
    | Forget
    | DeleteModule
    | BeginRequest
    | EndRequest
    // the worker
    | Work(w: nat)
    | Measure(w: nat)
    // the request thread of the unit
    | Serve

  const INITIAL :=
    State(None, None, {}, 0, false, false, None, map[], 0, NoListener, false, Unregistered, Free, false, false)

  /** What follows once the unit is gone. */
  function AfterUnload(all: bool): Holder { if all then DeletingModule else Free }

  predicate HasLaunched(server: Registration) { server.Registered? && server.launched }

  /** What the server does about a unit of a module. */
  function Notification(server: Registration, kind: Kind): (Ending, Registration) {
    Notified(server, IsSync(SupportedActions(kind)), NeedsWorker(kind))
  }

  /** `load_module` and `load_proc_unit`.  The failure of a step is the exception it throws:
      an unknown name or a failing constructor leave no unit, a failing initialization leaves
      it loaded, and so does a failing callback. */
  function NextLoad(s: State, l: Label): Option<State> {
    match l
    case SetUp(input, output) =>
      if s.holder != Free then None else Some(s.(server := Registered(input, output, HasLaunched(s.server))))
    case LoadModule(name) =>
      if s.holder != Free then None
      else if s.loadedModule.Some? || name.None? then Some(s)
      else
        Some(s.(loadedModule := name, loadedUnit := None, isRunning := false, doExit := false, handle := None,
                fault := s.fault || s.workers != map[]))
    case BeginLoad =>
      if s.holder != Free then None
      else if s.loadedModule.None? || s.loadedUnit.Some? then Some(s)
      else Some(s.(holder := Constructing))
    case Construct(ok, transceiver) =>
      if s.holder != Constructing then None
      else if !ok then Some(s.(holder := Free))
      else Some(s.(holder := Initializing, loadedUnit := Some(s.nextUnit), live := s.live + {s.nextUnit},
                   nextUnit := s.nextUnit + 1,
                   listener := if transceiver && s.loadedModule == Some(Brazil) then NotStarted else NoListener))
    case Initialize(ok) =>
      if s.holder != Initializing then None
      else if !ok then Some(s.(holder := Free))
      else Some(s.(holder := Starting, listener := if s.listener == NotStarted then Waiting else s.listener))
    case StartThread =>
      if s.holder != Starting || s.loadedModule.None? then None
      else if !NeedsWorker(s.loadedModule.value) || s.isRunning then Some(s.(holder := Notifying))
      else Some(s.(holder := Marking, handle := Some(s.nextThread), workers := s.workers[s.nextThread := Top],
                   nextThread := s.nextThread + 1, fault := s.fault || s.handle.Some?))
    case MarkRunning =>
      if s.holder != Marking then None else Some(s.(holder := Notifying, isRunning := true))
    case Callback =>
      if s.holder != Notifying || s.loadedModule.None? then None
      else
        var (ending, server) := Notification(s.server, s.loadedModule.value);
        Some(if ending == Crashed then s.(terminated := true) else s.(holder := Free, server := server))
    case _ => None
  }

  /** `unload_proc_unit` and `unload_module`.  The destructor of a unit with a request thread
      stops its I/O service and joins the thread: a thread that was never started cannot be
      joined, and the exception ends the program. */
  function NextUnload(s: State, l: Label): Option<State> {
    match l
    case BeginUnload(all) =>
      if s.holder != Free then None
      else if s.loadedModule.None? then Some(s)
      else Some(s.(holder := if s.loadedUnit.None? then AfterUnload(all) else Stopping(all)))
    case SetExit =>
      if !s.holder.Stopping? || s.loadedModule.None? then None
      else if NeedsWorker(s.loadedModule.value) && s.isRunning
      then Some(s.(holder := Joining(s.holder.all), doExit := true))
      else Some(s.(holder := Deleting(s.holder.all)))
    case Join =>
      if s.holder.Joining? && s.handle.Some? && s.handle.value in s.workers && s.workers[s.handle.value] == Exited
      then Some(s.(holder := ClearingExit(s.holder.all), workers := s.workers - {s.handle.value}, handle := None))
      else None
    case ClearExit =>
      if s.holder.ClearingExit? then Some(s.(holder := ClearingRunning(s.holder.all), doExit := false)) else None
    case ClearRunning =>
      if s.holder.ClearingRunning? then Some(s.(holder := Deleting(s.holder.all), isRunning := false)) else None
    case Delete =>
      if !s.holder.Deleting? || s.loadedUnit.None? then None
      else if s.listener == NoListener then Some(Deleted(s))
      else Some(s.(holder := JoiningListener(s.holder.all), stopped := true))
    case JoinListener =>
      if !s.holder.JoiningListener? || s.loadedUnit.None? then None
      else if s.listener == NotStarted then Some(s.(terminated := true))
      else if s.listener == Ended then Some(Deleted(s))
      else None
    case Forget =>
      if s.holder.Forgetting? then Some(s.(holder := AfterUnload(s.holder.all), loadedUnit := None)) else None
    case DeleteModule =>
      if s.holder == DeletingModule
      then Some(s.(holder := Free, loadedModule := None,
                   fault := s.fault || s.workers != map[] || s.loadedUnit.Some?))
      else None
    case _ => None
  }

  /** The unit's memory is gone, and with it its request thread. */
  function Deleted(s: State): State
    requires s.loadedUnit.Some? && (s.holder.Deleting? || s.holder.JoiningListener?)
  {
    s.(holder := Forgetting(s.holder.all), live := s.live - {s.loadedUnit.value},
       listener := NoListener, stopped := false, fault := s.fault || s.loadedUnit.value !in s.live)
  }

  /** `proc_act_request` and `proc_act_push`. */
  function NextRequest(s: State, l: Label): Option<State> {
    match l
    case BeginRequest =>
      if s.holder != Free then None
      else if s.loadedModule.None? || s.loadedUnit.None? then Some(s)
      else Some(s.(holder := Serving(s.loadedUnit.value), fault := s.fault || s.loadedUnit.value !in s.live))
    case EndRequest =>
      if s.holder.Serving?
      then Some(s.(holder := Free, fault := s.fault || s.holder.unit !in s.live))
      else None
    case _ => None
  }

  /** A worker.  `async_work` of a switch unit throws. */
  function NextWorker(s: State, w: nat): Option<State> {
    if w !in s.workers then None
    else
      match s.workers[w]
      case Top => Some(s.(workers := s.workers[w := if s.doExit then Exited else Entering]))
      case Entering =>
        if s.loadedUnit.None? || s.loadedUnit.value !in s.live || s.loadedModule != Some(Brazil)
        then Some(s.(fault := true, workers := s.workers[w := Exited]))
        else Some(s.(workers := s.workers[w := Calling(s.loadedUnit.value)]))
      case Calling(u) =>
        Some(s.(workers := s.workers[w := Top], fault := s.fault || u !in s.live || s.loadedUnit != Some(u)))
      case Exited => None
  }

  /** A call of `async_work` that takes the measurement of the open session: at most one a
      call, and nobody else takes measurements. */
  function NextMeasure(s: State, w: nat): Option<State> {
    if w in s.workers && s.workers[w].Calling? && (s.listener == Opened || s.listener == Blocked)
    then Some(NextWorker(s, w).value.(listener := Signalled))
    else None
  }

  /** The request thread: a client connects, its open is processed, its close is read, the
      close is answered, the client disconnects; a stopped service accepts nobody and ends. */
  function NextServe(s: State): Option<State> {
    match s.listener
    case Waiting => Some(s.(listener := if s.stopped then Ended else Connected))
    case Connected => Some(s.(listener := Opened))
    case Opened => Some(s.(listener := Blocked))
    case Signalled => Some(s.(listener := Closed))
    case Closed => Some(s.(listener := Waiting))
    case _ => None
  }

  predicate IsLoad(l: Label) {
    l.SetUp? || l.LoadModule? || l.BeginLoad? || l.Construct? || l.Initialize? || l.StartThread? || l.MarkRunning?
    || l.Callback?
  }

  predicate IsRequest(l: Label) { l.BeginRequest? || l.EndRequest? }

  predicate IsUnload(l: Label) {
    !IsLoad(l) && !IsRequest(l) && !l.Work? && !l.Measure? && !l.Serve?
  }

  function Next(s: State, l: Label): Option<State> {
    if s.terminated then None
    else if l.Work? then NextWorker(s, l.w)
    else if l.Measure? then NextMeasure(s, l.w)
    else if l.Serve? then NextServe(s)
    else if IsLoad(l) then NextLoad(s, l)
    else if IsRequest(l) then NextRequest(s, l)
    else NextUnload(s, l)
  }

  // ---------- What every step keeps ----------

  /** Between its start and its join there is exactly one worker, the one of the thread
      object. */
  ghost predicate WorkerOf(s: State) {
    s.handle.Some? && s.workers.Keys == {s.handle.value} && s.loadedModule == Some(Brazil) && s.loadedUnit.Some?
  }

  ghost predicate NoWorker(s: State) { s.handle.None? && s.workers == map[] }

  ghost predicate WorkerIfRunning(s: State) { if s.isRunning then WorkerOf(s) else NoWorker(s) }

  ghost predicate HasUnit(s: State) {
    s.loadedModule.Some? && s.loadedUnit.Some? && s.loadedUnit.value in s.live
  }

  /** A transceiver has a request thread exactly if its initialization came to its end; it is
      then served by a worker, and works on a unit that exists until it has been joined. */
  ghost predicate ListenerOk(s: State) {
    && (s.listener != NoListener ==> HasUnit(s) && s.loadedModule == Some(Brazil))
    && (s.stopped ==> s.holder.JoiningListener?)
    && (s.listener == Ended ==> s.stopped)
    && (s.listener == NotStarted && !s.holder.Initializing? ==> !s.isRunning)
    && match s.holder
       case Free => Started(s.listener) ==> s.isRunning
       case Constructing => s.listener == NoListener
       case Initializing => !Started(s.listener)
       case Starting => s.listener != NotStarted
       case Marking => s.listener != NotStarted
       case Notifying => s.listener != NotStarted && (Started(s.listener) ==> s.isRunning)
       case Stopping(_) => Started(s.listener) ==> s.isRunning
       case Joining(_) => s.listener != NotStarted
       case ClearingExit(_) => s.listener != NotStarted
       case ClearingRunning(_) => s.listener != NotStarted
       case Deleting(_) => true
       case JoiningListener(_) => s.stopped && s.listener != NoListener
       case Forgetting(_) => s.listener == NoListener
       case DeletingModule => s.listener == NoListener
       case Serving(_) => Started(s.listener) ==> s.isRunning
  }

  ghost predicate HolderOk(s: State) {
    match s.holder
    case Free => WorkerIfRunning(s)
    case Constructing => NoWorker(s) && !s.isRunning && s.loadedModule.Some? && s.loadedUnit.None?
    case Initializing => NoWorker(s) && !s.isRunning && HasUnit(s)
    case Starting => NoWorker(s) && !s.isRunning && HasUnit(s)
    case Marking => WorkerOf(s) && !s.isRunning && HasUnit(s)
    case Notifying => HasUnit(s) && WorkerIfRunning(s)
    case Stopping(_) => HasUnit(s) && WorkerIfRunning(s)
    case Joining(_) => HasUnit(s) && s.isRunning && WorkerOf(s)
    case ClearingExit(_) => HasUnit(s) && s.isRunning && NoWorker(s)
    case ClearingRunning(_) => HasUnit(s) && s.isRunning && NoWorker(s)
    case Deleting(_) => HasUnit(s) && !s.isRunning && NoWorker(s)
    case JoiningListener(_) => HasUnit(s) && !s.isRunning && NoWorker(s)
    case Forgetting(_) => s.loadedUnit.Some? && !s.isRunning && NoWorker(s)
    case DeletingModule => s.loadedModule.Some? && s.loadedUnit.None? && !s.isRunning && NoWorker(s)
    case Serving(u) => s.loadedUnit == Some(u) && HasUnit(s) && WorkerIfRunning(s)
  }

  /** The server would put a work thread over a running one. */
  predicate Crashing(s: State) { s.server.Registered? && s.server.input && s.server.launched }

  ghost predicate Safe(s: State) {
    && !s.fault
    && (s.terminated ==> (s.holder.JoiningListener? && s.listener == NotStarted)
                         || (s.holder == Notifying && Crashing(s)))
    && (forall u :: u in s.live ==> u < s.nextUnit)
    && (s.handle.Some? ==> s.handle.value < s.nextThread)
    && (s.loadedUnit.Some? ==> s.loadedModule.Some?)
    && (s.loadedUnit.Some? && !s.holder.Forgetting? ==> s.loadedUnit.value in s.live)
    && (forall w :: w in s.workers && s.workers[w].Calling? ==> Some(s.workers[w].unit) == s.loadedUnit)
    && (forall w :: w in s.workers && s.workers[w] == Exited ==> s.doExit)
    && s.doExit == (s.holder.Joining? || s.holder.ClearingExit?)
    && HolderOk(s)
    && ListenerOk(s)
  }

  /** Which modules get a worker: the xor-packed lists have no duplicates.  All of them have the
      server launch an input thread. */
  lemma AsyncKinds()
    ensures NeedsWorker(Brazil) && !NeedsWorker(Trabea)
    ensures IsSync(SupportedActions(Brazil)) && IsSync(SupportedActions(Trabea))
  {
    var brazil, trabea := [PUSH, WAIT], [REQUEST, PUSH];
    assert brazil[0] == PUSH && brazil[1] == WAIT && trabea[1] == PUSH;
    assert NoDuplicates(brazil) && NoDuplicates(trabea);
    CheckMember(WAIT, brazil);
    CheckMember(PUSH, brazil);
    CheckMember(REPLY, trabea);
    CheckMember(WAIT, trabea);
    CheckMember(PUSH, trabea);
  }

  /** The callback ends the program if and only if the server has launched its threads before
      and still has an input endpoint. */
  lemma CrashIff(s: State)
    requires s.loadedModule.Some?
    ensures Notification(s.server, s.loadedModule.value).0 == Crashed <==> Crashing(s)
  {
    AsyncKinds();
    hide SupportedActions, IsSync, NeedsWorker;
    assert s.loadedModule.value == Brazil || s.loadedModule.value == Trabea;
  }

  lemma NextIsLoad(s: State, l: Label)
    requires IsLoad(l) && !s.terminated
    ensures Next(s, l) == NextLoad(s, l)
  {}

  lemma CallbackIs(s: State)
    requires s.holder == Notifying && s.loadedModule.Some? && !s.terminated
    ensures Next(s, Callback) ==
            Some(if Crashing(s) then s.(terminated := true)
                 else s.(holder := Free, server := Notification(s.server, s.loadedModule.value).1))
  {
    CrashIff(s);
    hide Notification, NextUnload, NextRequest, NextWorker, NextMeasure, NextServe;
  }

  lemma WorkerStepKeepsSafe(s: State, w: nat)
    requires Safe(s) && Next(s, Work(w)).Some?
    ensures Safe(Next(s, Work(w)).value)
    ensures Next(s, Work(w)).value == s.(workers := Next(s, Work(w)).value.workers)
    ensures Next(s, Work(w)).value.workers.Keys == s.workers.Keys
  {
    hide NextLoad, NextUnload, NextRequest, NextServe;
    assert Next(s, Work(w)).value.workers.Keys == s.workers.Keys;
  }

  lemma ServeKeepsSafe(s: State)
    requires Safe(s) && Next(s, Serve).Some?
    ensures Safe(Next(s, Serve).value)
  {
    hide NextLoad, NextUnload, NextRequest, NextWorker, NextMeasure;
    var s' := Next(s, Serve).value;
    assert s' == s.(listener := s'.listener);
    assert HolderOk(s');
  }

  lemma MeasureKeepsSafe(s: State, w: nat)
    requires Safe(s) && Next(s, Measure(w)).Some?
    ensures Safe(Next(s, Measure(w)).value)
  {
    WorkerStepKeepsSafe(s, w);
  }

  lemma StartThreadKeepsSafe(s: State)
    requires Safe(s) && Next(s, StartThread).Some?
    ensures Safe(Next(s, StartThread).value)
  {
    AsyncKinds();
    hide SupportedActions, IsSync, IsAsync, NeedsWorker;
    assert s.loadedModule.value == Brazil || s.loadedModule.value == Trabea;
    var s' := Next(s, StartThread).value;
    if s'.handle.Some? {
      assert s'.workers.Keys == {s.nextThread};
    }
  }

  lemma LoadStepKeepsSafe(s: State, l: Label)
    requires Safe(s) && Next(s, l).Some? && IsLoad(l) && !l.StartThread? && !l.Callback?
    ensures Safe(Next(s, l).value)
  {
    hide SupportedActions, IsSync, IsAsync, NeedsWorker;
  }

  lemma CrashKeepsSafe(s: State)
    requires Safe(s) && s.holder == Notifying && Crashing(s)
    ensures Safe(s.(terminated := true))
  {}

  lemma ReturnKeepsSafe(s: State, server: Registration)
    requires Safe(s) && s.holder == Notifying && !s.terminated
    ensures Safe(s.(holder := Free, server := server))
  {}

  lemma CallbackKeepsSafe(s: State)
    requires Safe(s) && Next(s, Callback).Some?
    ensures Safe(Next(s, Callback).value)
  {
    assert s.holder == Notifying && s.loadedModule.Some? && !s.terminated;
    CallbackIs(s);
    hide Safe, Next, Notification;
    if Crashing(s) {
      CrashKeepsSafe(s);
    } else {
      ReturnKeepsSafe(s, Notification(s.server, s.loadedModule.value).1);
    }
  }

  lemma JoinKeepsSafe(s: State)
    requires Safe(s) && Next(s, Join).Some?
    ensures Safe(Next(s, Join).value)
  {
    assert Next(s, Join).value.workers.Keys == {};
  }

  lemma SetExitKeepsSafe(s: State)
    requires Safe(s) && Next(s, SetExit).Some?
    ensures Safe(Next(s, SetExit).value)
  {
    AsyncKinds();
    hide SupportedActions, IsSync, IsAsync, NeedsWorker;
  }

  lemma UnloadStepKeepsSafe(s: State, l: Label)
    requires Safe(s) && Next(s, l).Some? && IsUnload(l) && !l.Join? && !l.SetExit?
    ensures Safe(Next(s, l).value)
  {
    hide SupportedActions, IsSync, IsAsync, NeedsWorker;
  }

  lemma RequestStepKeepsSafe(s: State, l: Label)
    requires Safe(s) && Next(s, l).Some? && IsRequest(l)
    ensures Safe(Next(s, l).value)
  {}

  lemma StepKeepsSafe(s: State, l: Label)
    requires Safe(s) && Next(s, l).Some?
    ensures Safe(Next(s, l).value)
  {
    hide Safe, Next;
    match l
    case Work(w) => WorkerStepKeepsSafe(s, w);
    case Measure(w) => MeasureKeepsSafe(s, w);
    case Serve => ServeKeepsSafe(s);
    case StartThread => StartThreadKeepsSafe(s);
    case Callback => CallbackKeepsSafe(s);
    case Join => JoinKeepsSafe(s);
    case SetExit => SetExitKeepsSafe(s);
    case _ =>
      if IsLoad(l) {
        LoadStepKeepsSafe(s, l);
      } else if IsRequest(l) {
        RequestStepKeepsSafe(s, l);
      } else {
        UnloadStepKeepsSafe(s, l);
      }
  }

  lemma ReachableSafe(ls: seq<Label>, s: State)
    requires Run(Next, INITIAL, ls) == Some(s)
    ensures Safe(s)
  {
    assert Safe(INITIAL);
    hide Safe, Next;
    forall s, l | Safe(s) && Next(s, l).Some? ensures Safe(Next(s, l).value) {
      StepKeepsSafe(s, l);
    }
    RunKeeps(Next, Safe, INITIAL, ls);
  }

  /** The lifecycle guarantees, in every reachable state: no dangling pointer has been used,
      at most one worker exists, it works for the unit that is loaded and exists, and outside
      the mutex `isRunning` says exactly whether there is one. */
  lemma WorkerLifecycle(ls: seq<Label>, s: State)
    requires Run(Next, INITIAL, ls) == Some(s)
    ensures !s.fault
    ensures forall v, w :: v in s.workers && w in s.workers ==> v == w
    ensures forall w :: w in s.workers && s.workers[w].Calling? ==>
              s.loadedUnit == Some(s.workers[w].unit) && s.workers[w].unit in s.live
    ensures s.holder == Free ==> (s.isRunning <==> s.workers != map[])
  {
    ReachableSafe(ls, s);
  }

  /** The request thread never outlives its unit, and serves peers only while a worker can
      deliver their measurements, or after the unload has begun. */
  lemma ListenerLifecycle(ls: seq<Label>, s: State)
    requires Run(Next, INITIAL, ls) == Some(s)
    ensures s.listener != NoListener ==> s.loadedUnit.Some? && s.loadedUnit.value in s.live
    ensures s.holder == Free ==> (Started(s.listener) ==> s.isRunning) && s.listener != Ended
  {
    ReachableSafe(ls, s);
  }

  /** The stop flag is cleared only after the worker has seen it and has been joined. */
  lemma StopFlagIsSeen(ls: seq<Label>, s: State)
    requires Run(Next, INITIAL, ls) == Some(s)
    ensures Next(s, ClearExit).Some? ==> s.doExit && s.workers == map[]
    ensures forall w :: w in s.workers && s.workers[w] == Exited ==> s.doExit
  {
    ReachableSafe(ls, s);
  }

  /** Capability gating: no worker ever exists for a switch module, so its throwing
      `async_work` is never called. */
  lemma SwitchHasNoWorker(ls: seq<Label>, s: State)
    requires Run(Next, INITIAL, ls) == Some(s) && s.loadedModule != Some(Brazil)
    ensures s.workers == map[] && s.handle.None?
  {
    ReachableSafe(ls, s);
  }

  /** A request or push finds no unit and throws, or is served by the loaded unit. */
  lemma DispatchFindsUnit(ls: seq<Label>, s: State)
    requires Run(Next, INITIAL, ls) == Some(s) && s.holder == Free
    ensures Next(s, BeginRequest).Some?
    ensures var s' := Next(s, BeginRequest).value;
            if s.loadedUnit.None? then s' == s
            else s.loadedModule.Some? && s'.holder == Serving(s.loadedUnit.value) && !s'.fault
  {
    ReachableSafe(ls, s);
  }

  lemma ServingKeepsServing(s: State, l: Label)
    requires Safe(s) && s.holder.Serving? && l != EndRequest && Next(s, l).Some?
    ensures Next(s, l).value.holder == s.holder
  {
    assert !s.terminated;
    hide Safe, Notification, NeedsWorker;
  }

  /** Dispatch safety: until the request returns, the unit that serves it stays loaded and
      exists, whatever the other threads do. */
  lemma {:induction false} ServedUntilReturn(s: State, ls: seq<Label>, s': State)
    requires Safe(s) && s.holder.Serving? && EndRequest !in ls
    requires Run(Next, s, ls) == Some(s')
    ensures s'.holder == s.holder && s'.loadedUnit == Some(s.holder.unit) && s.holder.unit in s'.live
    decreases |ls|
  {
    if ls != [] {
      StepKeepsSafe(s, ls[0]);
      ServingKeepsServing(s, ls[0]);
      hide Next, Safe;
      ServedUntilReturn(Next(s, ls[0]).value, ls[1..], s');
    }
  }
}
