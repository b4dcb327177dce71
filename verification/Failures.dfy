/** The inputs on which loading and unloading fail. */
module Failures {
  import opened Systems
  import opened Actions
  import opened Activations
  import opened Lifecycle
  import opened Operations
  import opened Fates

  /** The states a list of steps goes through. */
  ghost predicate Chain(ss: seq<State>, ls: seq<Label>) {
    |ss| == |ls| + 1 && forall i :: 0 <= i < |ls| ==> Next(ss[i], ls[i]) == Some(ss[i + 1])
  }

  lemma {:induction false} ChainRuns(ss: seq<State>, ls: seq<Label>)
    requires Chain(ss, ls)
    ensures Run(Next, ss[0], ls) == Some(ss[|ls|])
    decreases |ls|
  {
    hide Next;
    if ls != [] {
      assert Next(ss[0], ls[0]) == Some(ss[1]);
      ChainRuns(ss[1..], ls[1..]);
    }
  }

  /** The end of a load of a transceiver. */
  function Loaded(ok: bool): State {
    var s := INITIAL.(server := Registered(true, true, ok), loadedModule := Some(Brazil), loadedUnit := Some(0),
                      live := {0}, nextUnit := 1);
    if ok
    then s.(isRunning := true, handle := Some(0), workers := map[0 := Top], nextThread := 1, listener := Waiting)
    else s.(listener := NotStarted)
  }

  lemma LoadTransceiver(ok: bool) returns (ls: seq<Label>)
    ensures Run(Next, INITIAL, ls) == Some(Loaded(ok)) && Safe(Loaded(ok))
  {
    var outcome := if ok then Loads(true) else InitializationFails(true);
    AsyncKinds();
    hide SupportedActions, IsSync, IsAsync, NeedsWorker;
    var k, l := SetUp(true, true), LoadModule(Some(Brazil));
    StepKeepsSafe(INITIAL, k);
    var r := Next(INITIAL, k).value;
    StepKeepsSafe(r, l);
    var m := Next(r, l).value;
    ls := LoadRuns(m, outcome);
    assert AfterLoad(m, outcome) == Loaded(ok);
    RunCons(r, l, m, ls);
    RunCons(INITIAL, k, r, [l] + ls);
    ls := [k] + ([l] + ls);
  }

  /** A load whose initialization throws leaves the unit loaded and its request thread not
      started: the next unload ends the program. */
  lemma FailedLoadTerminates(all: bool) returns (ls: seq<Label>, s: State, ks: seq<Label>, s': State)
    ensures Run(Next, INITIAL, ls) == Some(s) && s.listener == NotStarted && s.holder == Free
    ensures Unloads(s, all, ks, s') && s'.terminated
  {
    ls := LoadTransceiver(false);
    s := Loaded(false);
    ks, s' := FateOccurs(s, all, Terminates);
  }

  /** The worker tests the stop flag, finds it set and is joined. */
  lemma WorkerStops(s: State, w: nat)
    requires s.holder.Joining? && s.doExit && s.handle == Some(w) && s.workers.Keys == {w} && s.workers[w] == Top
    requires !s.terminated
    ensures var s' := s.(holder := ClearingExit(s.holder.all), workers := map[], handle := None);
            Run(Next, s, [Work(w), Join]) == Some(s')
  {
    hide NextLoad, NextRequest, NextMeasure, NextServe;
    var s1 := s.(workers := s.workers[w := Exited]);
    var s' := s.(holder := ClearingExit(s.holder.all), workers := map[], handle := None);
    assert s1.workers - {w} == map[];
    assert Next(s, Work(w)) == Some(s1) && Next(s1, Join) == Some(s');
    ChainRuns([s, s1, s'], [Work(w), Join]);
  }

  /** The unit is deleted while its request thread is about to read the close of a session. */
  lemma DeletionBlocks(s: State)
    requires s.holder.ClearingExit? && s.listener == Opened && s.loadedUnit.Some? && !s.terminated
    ensures var s' := s.(holder := JoiningListener(s.holder.all), doExit := false, isRunning := false,
                         stopped := true, listener := Blocked);
            Run(Next, s, [ClearExit, ClearRunning, Delete, Serve]) == Some(s')
  {
    hide NextLoad, NextRequest, NextMeasure, NextWorker;
    var s1 := s.(holder := ClearingRunning(s.holder.all), doExit := false);
    var s2 := s1.(holder := Deleting(s.holder.all), isRunning := false);
    var s3 := s2.(holder := JoiningListener(s.holder.all), stopped := true);
    var s' := s3.(listener := Blocked);
    assert Next(s, ClearExit) == Some(s1) && Next(s1, ClearRunning) == Some(s2);
    assert Next(s2, Delete) == Some(s3) && Next(s3, Serve) == Some(s');
    ChainRuns([s, s1, s2, s3, s'], [ClearExit, ClearRunning, Delete, Serve]);
  }

  lemma BeginAndStop(s: State, all: bool)
    requires Safe(s) && s.holder == Free && s.listener == Opened
    ensures var s1 := s.(holder := Stopping(all));
            Next(s, BeginUnload(all)) == Some(s1)
            && Next(s1, SetExit) == Some(s.(holder := Joining(all), doExit := true))
  {
    AsyncKinds();
    hide SupportedActions, IsSync, IsAsync, NeedsWorker;
    hide NextLoad, NextRequest, NextMeasure, NextServe, NextWorker;
  }

  /** A peer's session is open and the worker is about to test the stop flag: the unload
      blocks. */
  lemma OpenSessionBlocks(s: State, all: bool, w: nat) returns (ks: seq<Label>, s': State)
    requires Safe(s) && s.holder == Free && s.listener == Opened && s.handle == Some(w) && s.workers[w] == Top
    ensures ks == [SetExit] + ([Work(w), Join] + [ClearExit, ClearRunning, Delete, Serve])
    ensures Unloads(s, all, ks, s') && Deadlocked(s')
  {
    BeginAndStop(s, all);
    assert !s.terminated && s.workers.Keys == {w} && s.loadedUnit.Some?;
    hide Safe, Next;
    var s1 := s.(holder := Stopping(all));
    var s2 := s1.(holder := Joining(all), doExit := true);
    var s3 := s2.(holder := ClearingExit(all), workers := map[], handle := None);
    var js := [ClearExit, ClearRunning, Delete, Serve];
    WorkerStops(s2, w);
    DeletionBlocks(s3);
    s' := Run(Next, s3, js).value;
    ks := [SetExit] + ([Work(w), Join] + js);
    assert forall l :: l in ks ==> !Begins(l);
    hide Run, Begins;
    RunAppend(Next, s2, [Work(w), Join], js);
    RunCons(s1, SetExit, s2, [Work(w), Join] + js);
    RunCons(s, BeginUnload(all), s1, ks);
  }

  /** Such a state is reached as soon as a peer has opened a session. */
  lemma OpenSessionOccurs() returns (ls: seq<Label>, s: State)
    ensures Run(Next, INITIAL, ls) == Some(s) && Safe(s)
    ensures s.holder == Free && s.listener == Opened && s.handle == Some(0) && s.workers == map[0 := Top]
  {
    var t, ks := Loaded(true), [Serve, Serve];
    ls := LoadTransceiver(true);
    s := t.(listener := Opened);
    ChainRuns([t, t.(listener := Connected), s], ks);
    RunKeepsSafe(t, ks, s);
    RunAppend(Next, INITIAL, ls, ks);
    ls := ls + ks;
  }

  /** A unit is loaded, unloaded and loaded again: the second load ends the program. */
  lemma ReloadCrashes() returns (ls: seq<Label>, s: State, ks: seq<Label>, s': State, js: seq<Label>, s'': State)
    ensures Run(Next, INITIAL, ls) == Some(s) && s.holder == Free && s.loadedUnit == Some(0)
    ensures Unloads(s, false, ks, s') && s'.holder == Free && s'.loadedUnit.None? && !s'.terminated
    ensures Run(Next, s', js) == Some(s'') && s''.terminated && s''.loadedUnit == Some(1)
    ensures s' == Unloaded(s, false) && s'' == AfterLoad(s', Loads(true))
  {
    ls := LoadTransceiver(true);
    s := Loaded(true);
    ks, s' := FateOccurs(s, false, Finishes);
    UnloadIsAtomic(s, false, ks, s');
    RunKeepsSafe(s, [BeginUnload(false)] + ks, s');
    CrashIff(s');
    js := LoadRuns(s', Loads(true));
    s'' := AfterLoad(s', Loads(true));
  }
}
