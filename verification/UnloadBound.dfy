/** An unload that has set the stop flag ends, whatever the other threads do. */
module UnloadBound {
  import opened Systems
  import opened Lifecycle
  import opened Operations
  import opened Fates

  /** The stop flag has been set, or there is no worker to stop. */
  predicate StopBegun(s: State) {
    s.holder.Joining? || s.holder.ClearingExit? || s.holder.ClearingRunning? || s.holder.Deleting?
    || s.holder.JoiningListener? || s.holder.Forgetting? || s.holder.DeletingModule?
  }

  /** The unload has returned: no thread is left. */
  predicate Over(s: State) { s.holder == Free && s.workers == map[] && s.listener == NoListener }

  /** The steps of the request thread until it sleeps or ends, if no measurement arrives. */
  ghost function SessionRank(l: Listener): nat {
    match l
    case Signalled => 6
    case Closed => 5
    case Waiting => 4
    case Connected => 3
    case Opened => 2
    case Blocked => 1
    case _ => 0
  }

  /** A call of `async_work` still to come may take a measurement and so prolong a session; after
      the flag has been set there is at most one. */
  ghost function EndRank(s: State): nat {
    HolderRank(s.holder) + TurnsLeft(s) + (if InTurn(s) then 6 else 0) + SessionRank(s.listener)
    + (if s.terminated then 0 else 1)
  }

  const END_STEPS := 23

  lemma EndRankIsSmall(s: State)
    requires StopBegun(s)
    ensures EndRank(s) <= END_STEPS
  {}

  ghost predicate Lowers(s: State, s': State) { (StopBegun(s') || Over(s')) && EndRank(s') < EndRank(s) }

  lemma WorkerLowers(s: State, l: Label)
    requires Safe(s) && StopBegun(s) && Next(s, l).Some? && (l.Work? || l.Measure?)
    ensures Lowers(s, Next(s, l).value)
  {
    assert s.holder.Joining? && s.doExit && s.handle == Some(l.w) && HasUnit(s) && s.loadedModule == Some(Brazil);
    assert s.workers[l.w].Calling? ==> s.workers[l.w].unit == s.loadedUnit.value;
    hide Safe, NextLoad, NextUnload, NextRequest, NextServe;
  }

  lemma ServeLowers(s: State)
    requires Safe(s) && StopBegun(s) && Next(s, Serve).Some?
    ensures Lowers(s, Next(s, Serve).value)
  {
    hide Safe, NextLoad, NextUnload, NextRequest, NextWorker, NextMeasure;
    var s' := Next(s, Serve).value;
    assert s' == s.(listener := s'.listener) && SessionRank(s'.listener) < SessionRank(s.listener);
    hide Next, NextServe, SessionRank;
  }

  lemma HolderLowers(s: State, l: Label)
    requires Safe(s) && StopBegun(s) && Next(s, l).Some? && IsUnload(l)
    ensures Lowers(s, Next(s, l).value)
  {
    assert s.holder.Forgetting? || s.holder.DeletingModule? ==> s.workers == map[] && s.listener == NoListener;
    assert s.holder.Joining? || s.handle.None?;
    hide Safe, NextLoad, NextRequest, NextWorker, NextMeasure, NextServe;
  }

  /** Once the stop flag has been set, every step of every thread brings the end nearer. */
  lemma StepLowers(s: State, l: Label)
    requires Safe(s) && StopBegun(s) && Next(s, l).Some?
    ensures Lowers(s, Next(s, l).value)
  {
    if l.Work? || l.Measure? {
      WorkerLowers(s, l);
    } else if l.Serve? {
      ServeLowers(s);
    } else if IsUnload(l) {
      HolderLowers(s, l);
    } else {
      assert false;
    }
  }

  lemma {:induction false} StopRuns(s: State, ls: seq<Label>, s': State)
    requires Safe(s) && (StopBegun(s) || Over(s)) && Run(Next, s, ls) == Some(s')
    requires forall l :: l in ls ==> !Begins(l)
    ensures Safe(s') && (StopBegun(s') || Over(s')) && |ls| + EndRank(s') <= EndRank(s)
    decreases |ls|
  {
    if ls != [] {
      assert ls[0] in ls;
      hide Safe, Next, StopBegun, EndRank;
      if Over(s) {
        NothingUnderWay(s, ls[0]);
        assert false;
      } else {
        StepLowers(s, ls[0]);
        StepKeepsSafe(s, ls[0]);
        StopRuns(Next(s, ls[0]).value, ls[1..], s');
      }
    }
  }

  /** No thread has a step left, unless another operation begins. */
  ghost predicate Stuck(s: State) { forall l :: Next(s, l).Some? ==> Begins(l) }

  ghost predicate HasOneFate(s: State) {
    && (exists fate :: Meets(s, fate))
    && forall fate, other :: Meets(s, fate) && Meets(s, other) ==> fate == other
  }

  lemma StuckHasFate(s: State)
    requires Safe(s) && StopBegun(s) && Stuck(s)
    ensures HasOneFate(s)
  {
    if Pending(s) {
      hide Safe, Next, CanComplete;
      if CanComplete(s) {
        var l := OperationAdvances(s);
        assert false;
      } else {
        var l := HopelessAdvances(s);
        assert false;
      }
    } else {
      assert Meets(s, if s.terminated then Terminates else Blocks);
    }
  }

  /** Before that, setting the stop flag is the holder's next step, and nobody disables it. */
  lemma StopStaysPossible(s: State, l: Label)
    requires Safe(s) && s.holder.Stopping?
    ensures Next(s, SetExit).Some?
    ensures l != SetExit && Next(s, l).Some? ==> Next(s, l).value.holder == s.holder
  {
    assert !s.terminated && s.loadedModule.Some?;
    hide Safe, Notification, NeedsWorker;
  }

  /** Every unload ends: after the step that sets the stop flag there are at most 23 more, over
      all threads, and when none is left it has finished, blocks for ever, or has ended the
      program, and only one of these. */
  lemma UnloadEnds(s: State, all: bool, ls: seq<Label>, i: nat, s': State)
    requires Safe(s) && s.holder == Free && Unloads(s, all, ls, s')
    requires i < |ls| && ls[i] == SetExit
    ensures |ls| <= i + 1 + END_STEPS
    ensures Stuck(s') ==> HasOneFate(s')
  {
    var before, after := [BeginUnload(all)] + ls[..i], ls[i + 1..];
    assert [BeginUnload(all)] + ls == before + ([SetExit] + after);
    RunSplit(Next, s, before, [SetExit] + after);
    var t := Run(Next, s, before).value;
    RunKeepsSafe(s, before, t);
    var t' := Next(t, SetExit).value;
    RunCons(t, SetExit, t', after);
    StepKeepsSafe(t, SetExit);
    assert StopBegun(t');
    hide Safe, Next, StopBegun;
    StopRuns(t', after, s');
    EndRankIsSmall(t');
    if Stuck(s') {
      if Over(s') {
        assert Meets(s', Finishes);
        OverIsFinished(s');
      } else {
        StuckHasFate(s');
      }
    }
  }

  lemma OverIsFinished(s: State)
    requires Safe(s) && Over(s)
    ensures HasOneFate(s)
  {
    assert Meets(s, Finishes);
  }
}
