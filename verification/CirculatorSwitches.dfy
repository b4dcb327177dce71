/** The circulator switch: a stream of configurations sent to the dispatcher, one whenever the
    requested direction differs from the current one. */
module CirculatorSwitches {

  datatype Chirality = Cw | Ccw

  const SIZE_LIMIT := 0x1_0000_0000_0000_0000

  type Size = x: int | 0 <= x < SIZE_LIMIT

  /** The direction that connects two ports; the addition wraps around. */
  function Direction(inPort: Size, outPort: Size, portCount: Size): Chirality {
    var next := (inPort + 1) % SIZE_LIMIT;
    if next == outPort || next == portCount then Cw else Ccw
  }

  predicate InRange(inPort: Size, outPort: Size, portCount: Size) {
    inPort < portCount && outPort < portCount
  }

  datatype Switch = Switch(portCount: Size, state: Chirality, emitted: seq<Chirality>)

  datatype Call = Set(inPort: Size, outPort: Size)

  /** The effect of one request to connect two ports. */
  function AfterSet(w: Switch, c: Call): Switch {
    var d := Direction(c.inPort, c.outPort, w.portCount);
    if !InRange(c.inPort, c.outPort, w.portCount) || d == w.state then w
    else w.(state := d, emitted := w.emitted + [d])
  }

  /** The switch connects the two ports. */
  predicate Connects(w: Switch, c: Call) { w.state == Direction(c.inPort, c.outPort, w.portCount) }

  class CirculatorSwitch {
    const portCount: Size
    var state: Chirality
    var emitted: seq<Chirality>

    constructor (portCount: Size)
      ensures this.portCount == portCount && emitted == []
    {
      this.portCount := portCount;
      emitted := [];
      state := Cw;
    }

    ghost function View(): Switch
      reads this
    {
      Switch(portCount, state, emitted)
    }

    /** Send the initial configuration; `error` is the dispatcher's answer. */
    method Initialize(error: bool) returns (threw: bool)
      modifies this
      ensures View() == Switch(portCount, Ccw, old(emitted) + [Ccw]) && threw == error
    {
      state := Ccw;
      emitted := emitted + [state];
      threw := error;
    }

    method GetSwitchState(inPort: Size, outPort: Size) returns (connected: bool)
      ensures connected <==> Connects(View(), Set(inPort, outPort))
      ensures var next := (inPort + 1) % 0x1_0000_0000_0000_0000;
              connected <==> (state == Cw <==> outPort == next || portCount == next)
    {
      if (inPort + 1) % SIZE_LIMIT == outPort || (inPort + 1) % SIZE_LIMIT == portCount {
        return state == Cw;
      } else {
        return state == Ccw;
      }
    }

    /** `error` is the dispatcher's answer, if it is called. */
    method SetSwitchState(inPort: Size, outPort: Size, error: bool) returns (ok: bool)
      modifies this
      ensures View() == AfterSet(old(View()), Set(inPort, outPort))
      ensures ok <==> inPort < portCount && outPort < portCount && (emitted == old(emitted) || !error)
      ensures inPort < portCount && outPort < portCount ==>
                && (state == Cw <==> outPort == inPort + 1 || inPort + 1 == portCount)
                && emitted == old(emitted) + if state == old(state) then [] else [state]
      ensures inPort >= portCount || outPort >= portCount ==> state == old(state) && emitted == old(emitted)
    {
      if inPort >= portCount || outPort >= portCount {
        return false;
      }
      var newState: Chirality;
      if (inPort + 1) % SIZE_LIMIT == outPort || (inPort + 1) % SIZE_LIMIT == portCount {
        newState := Cw;
      } else {
        newState := Ccw;
      }
      if newState != state {
        state := newState;
        emitted := emitted + [state];
        return !error;
      }
      return true;
    }
  }

  /** Any sequence of requests after initialization. */
  function AfterSets(portCount: Size, calls: seq<Call>): Switch {
    if calls == [] then Switch(portCount, Ccw, [Ccw])
    else
      var n := |calls| - 1;
      AfterSet(AfterSets(portCount, calls[..n]), calls[n])
  }

  /** The direction of the last request for existing ports; counter-clockwise without one. */
  function LastRequested(portCount: Size, calls: seq<Call>): Chirality {
    if calls == [] then Ccw
    else
      var n := |calls| - 1;
      if InRange(calls[n].inPort, calls[n].outPort, portCount)
      then Direction(calls[n].inPort, calls[n].outPort, portCount)
      else LastRequested(portCount, calls[..n])
  }

  /** The stream starts counter-clockwise and strictly alternates. */
  ghost predicate AlternatesFromCcw(emitted: seq<Chirality>) {
    forall i :: 0 <= i < |emitted| ==> emitted[i] == if i % 2 == 0 then Ccw else Cw
  }

  /** Over every sequence of requests: the stream alternates from ccw, the state is its last
      configuration, and is the direction last requested. */
  lemma {:induction false} CommandStream(portCount: Size, calls: seq<Call>)
    ensures var w := AfterSets(portCount, calls);
            && w.portCount == portCount && w.emitted != []
            && AlternatesFromCcw(w.emitted)
            && w.state == w.emitted[|w.emitted| - 1]
            && w.state == LastRequested(portCount, calls)
  {
    if calls != [] {
      CommandStream(portCount, calls[..|calls| - 1]);
    }
  }

  /** Right after a request for existing ports they are connected. */
  lemma SetConnects(w: Switch, c: Call)
    requires c.inPort < w.portCount && c.outPort < w.portCount
    ensures Connects(AfterSet(w, c), c)
  {}

  /** The last configuration sent is clockwise if and only if the last request for existing ports
      goes to the next port, or from the last port; without such a request it is the first. */
  lemma {:induction false} LastConfiguration(portCount: Size, calls: seq<Call>, k: nat)
    requires k <= |calls|
    requires forall i :: k <= i < |calls| ==> calls[i].inPort >= portCount || calls[i].outPort >= portCount
    requires k > 0 ==> calls[k - 1].inPort < portCount && calls[k - 1].outPort < portCount
    ensures var w := AfterSets(portCount, calls);
            w.emitted != [] && w.state == w.emitted[|w.emitted| - 1]
            && (w.state == Cw <==>
                  k > 0 && (calls[k - 1].outPort == calls[k - 1].inPort + 1 || calls[k - 1].inPort + 1 == portCount))
            && (k == 0 ==> w.emitted == [Ccw])
    decreases |calls|
  {
    if calls != [] {
      var n := |calls| - 1;
      CommandStream(portCount, calls);
      assert AfterSets(portCount, calls[..n]).portCount == portCount by {
        CommandStream(portCount, calls[..n]);
      }
      if k <= n {
        LastConfiguration(portCount, calls[..n], k);
      }
    }
  }

  /** The number of configurations sent is one more than the number of changes of direction
      among the requests for existing ports. */
  function Changes(portCount: Size, calls: seq<Call>): nat {
    if calls == [] then 0
    else
      var n := |calls| - 1;
      Changes(portCount, calls[..n])
      + if LastRequested(portCount, calls) != LastRequested(portCount, calls[..n]) then 1 else 0
  }

  lemma {:induction false} EmitsOnlyChanges(portCount: Size, calls: seq<Call>)
    ensures |AfterSets(portCount, calls).emitted| == 1 + Changes(portCount, calls)
  {
    if calls != [] {
      var n := |calls| - 1;
      EmitsOnlyChanges(portCount, calls[..n]);
      CommandStream(portCount, calls[..n]);
      CommandStream(portCount, calls);
    }
  }
}
