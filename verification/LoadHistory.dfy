/** What is loaded after a run, read off its labels alone. */
module LoadHistory {
  import opened Systems
  import opened Actions
  import opened Lifecycle

  /** The module named by the last load that found none, unless it has been deleted since. */
  function ModuleAfter(ls: seq<Label>): Option<Kind> {
    if ls == [] then None
    else
      var n := |ls| - 1;
      match ls[n]
      case LoadModule(name) => if ModuleAfter(ls[..n]).Some? then ModuleAfter(ls[..n]) else name
      case DeleteModule => None
      case _ => ModuleAfter(ls[..n])
  }

  /** The units constructed. */
  function UnitsIn(ls: seq<Label>): nat {
    if ls == [] then 0
    else
      var n := |ls| - 1;
      UnitsIn(ls[..n]) + if ls[n].Construct? && ls[n].ok then 1 else 0
  }

  /** The unit constructed last, unless it has been forgotten since. */
  function UnitAfter(ls: seq<Label>): Option<nat> {
    if ls == [] then None
    else
      var n := |ls| - 1;
      if ls[n].Construct? && ls[n].ok then Some(UnitsIn(ls[..n]))
      else if ls[n].Forget? then None
      else UnitAfter(ls[..n])
  }

  /** The endpoints set last, if the server has been registered. */
  function EndpointsAfter(ls: seq<Label>): Option<(bool, bool)> {
    if ls == [] then None
    else
      var n := |ls| - 1;
      if ls[n].SetUp? then Some((ls[n].input, ls[n].output)) else EndpointsAfter(ls[..n])
  }

  ghost predicate Follows(ls: seq<Label>, s: State) {
    && s.loadedModule == ModuleAfter(ls)
    && s.loadedUnit == UnitAfter(ls) && s.nextUnit == UnitsIn(ls)
    && match EndpointsAfter(ls)
       case None => s.server.Unregistered?
       case Some((input, output)) => s.server.Registered? && s.server.input == input && s.server.output == output
  }

  lemma HistorySnoc(ls: seq<Label>, l: Label)
    ensures ModuleAfter(ls + [l]) == match l
                                     case LoadModule(name) => if ModuleAfter(ls).Some? then ModuleAfter(ls) else name
                                     case DeleteModule => None
                                     case _ => ModuleAfter(ls)
    ensures UnitsIn(ls + [l]) == UnitsIn(ls) + if l.Construct? && l.ok then 1 else 0
    ensures UnitAfter(ls + [l]) == if l.Construct? && l.ok then Some(UnitsIn(ls))
                                   else if l.Forget? then None
                                   else UnitAfter(ls)
    ensures EndpointsAfter(ls + [l]) == if l.SetUp? then Some((l.input, l.output)) else EndpointsAfter(ls)
  {
    assert (ls + [l])[..|ls|] == ls;
  }

  lemma LoadFollows(s: State, l: Label)
    requires Safe(s) && Next(s, l).Some? && IsLoad(l)
    ensures var s' := Next(s, l).value;
            && s'.loadedModule == (if l.LoadModule? && s.loadedModule.None? then l.name else s.loadedModule)
            && s'.loadedUnit == (if l.Construct? && l.ok then Some(s.nextUnit) else s.loadedUnit)
            && s'.nextUnit == s.nextUnit + (if l.Construct? && l.ok then 1 else 0)
            && (l.SetUp? ==> s'.server.Registered? && s'.server.input == l.input && s'.server.output == l.output)
            && (!l.SetUp? ==> s'.server.Registered? == s.server.Registered?
                              && (s.server.Registered? ==>
                                    s'.server.input == s.server.input && s'.server.output == s.server.output))
  {
    hide NextUnload, NextRequest, NextWorker, NextMeasure, NextServe, IsSync, NeedsWorker, SupportedActions;
  }

  lemma OthersFollow(s: State, l: Label)
    requires Safe(s) && Next(s, l).Some? && !IsLoad(l)
    ensures var s' := Next(s, l).value;
            && s'.loadedModule == (if l.DeleteModule? then None else s.loadedModule)
            && s'.loadedUnit == (if l.Forget? then None else s.loadedUnit)
            && s'.nextUnit == s.nextUnit && s'.server == s.server
  {
    hide NextLoad, NeedsWorker, SupportedActions, Safe;
  }

  /** In every reachable state the module, the unit and the endpoints are those of the run's
      labels. */
  lemma {:induction false} HistoryHolds(ls: seq<Label>, s: State)
    requires Run(Next, INITIAL, ls) == Some(s)
    ensures Follows(ls, s)
    decreases |ls|
  {
    if ls != [] {
      var n := |ls| - 1;
      var before, l := ls[..n], ls[n];
      assert ls == before + [l];
      hide Next, Safe;
      RunSplit(Next, INITIAL, before, [l]);
      var t := Run(Next, INITIAL, before).value;
      RunOne(Next, t, l);
      HistoryHolds(before, t);
      ReachableSafe(before, t);
      HistorySnoc(before, l);
      if IsLoad(l) {
        LoadFollows(t, l);
      } else {
        OthersFollow(t, l);
      }
    }
  }
}
