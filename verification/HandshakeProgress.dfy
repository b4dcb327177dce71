/** The protocol cannot get stuck and cannot run for ever. */
module HandshakeProgress {
  import opened Systems
  import opened Handshake
  import opened HandshakeSafety

  ghost predicate Enabled(s: State, l: Label) { Next(s, l).Some? }

  /** The server waits for a request or for the end of the connection. */
  lemma ReadingCanMove(s: State, r: nat) returns (l: Label)
    requires Safe(s) && r < |s.rx| && s.rx[r].server.Reading?
    ensures Enabled(s, l) && !l.SpuriousWake?
  {
    var q := s.rx[r].server.session;
    assert RxOk(s, r) && TxOk(s, q.t);
    var x := s.tx[q.t];
    if !Connects(x, q) {
      l := HangUp(r);
    } else if x.request {
      l := ReadRequest(r);
    } else {
      match x.pc
      case Connected => l := WriteOpen(q.t);
      case OpenSent => l := ReadReply(q.t);
      case Opened => l := Call(q.t);
      case Called => l := Answer(q.t, false);
      case Answered(_) => l := WriteClose(q.t);
      case CloseSent(_) => l := ReadReply(q.t);
      case Closed(_) => l := Disconnect(q.t);
    }
  }

  /** The server sleeps until a measurement arrives. */
  lemma AsleepCanMove(s: State, r: nat) returns (l: Label)
    requires Safe(s) && r < |s.rx| && s.rx[r].server.Asleep?
    ensures Enabled(s, l) && !l.SpuriousWake?
  {
    var y := s.rx[r];
    assert RxOk(s, r) && TxOk(s, y.server.session.t);
    l := if y.server.woken then Wake(r)
         else if y.async == Notifying then Notify(r)
         else if y.async.Holding? then Critical(r)
         else if y.socket != [] then Receive(r)
         else Publish(y.server.session.t, Symbols.Outcome(false, false));
  }

  /** While r serves a session, the server, its asynchronous thread, the dispatcher or the
      transmitter of that session can take a step. */
  lemma SessionCanMove(s: State, r: nat) returns (l: Label)
    requires Safe(s) && r < |s.rx| && s.rx[r].server != Accepting
    ensures Enabled(s, l) && !l.SpuriousWake?
  {
    match s.rx[r].server
    case Processing(_) => l := Enter(r);
    case Replying(_) =>
      assert RxOk(s, r);
      l := Reply(r);
    case Reading(_) => l := ReadingCanMove(s, r);
    case Asleep(_, _) => l := AsleepCanMove(s, r);
  }

  /** Deadlock freedom: as long as some transmit has not returned, some step other than a
      spurious wake-up is enabled. */
  lemma Progress(s: State) returns (l: Label)
    requires Safe(s) && !Finished(s)
    ensures Enabled(s, l) && !l.SpuriousWake?
  {
    var t: nat :| t < |s.tx| && s.tx[t].jobs != [];
    var x := s.tx[t];
    assert TxOk(s, t);
    if x.pc == Ready {
      l := if HasByte(x) then Connect(t) else Return(t);
    } else {
      var r := x.jobs[0].dest;
      assert RxOk(s, r);
      if s.rx[r].server != Accepting {
        l := SessionCanMove(s, r);
      } else {
        l := if x.pc == Connected then WriteOpen(t) else Accept(r, t);
      }
    }
  }

  /** An upper bound on the steps one byte can cause, over all threads. */
  const STEPS_PER_BYTE := 23

  /** The steps that calls not yet begun can cause: one for the return of each call. */
  ghost function Work(jobs: seq<Job>): nat {
    if jobs == [] then 0 else 1 + STEPS_PER_BYTE * |jobs[0].buf| + Work(jobs[1..])
  }

  ghost function Begun(x: Tx): nat {
    if x.pc == Ready then x.i else x.i + 1
  }

  ghost function WorkLeft(x: Tx): nat {
    if x.jobs == [] then 0
    else if Begun(x) > |x.jobs[0].buf| then 0
    else 1 + STEPS_PER_BYTE * (|x.jobs[0].buf| - Begun(x)) + Work(x.jobs[1..])
  }

  ghost function PcRank(pc: TxPc): nat {
    match pc
    case Ready => 0
    case Connected => 20
    case OpenSent => 14
    case Opened => 14
    case Called => 8
    case Answered(_) => 7
    case CloseSent(_) => 1
    case Closed(_) => 1
  }

  ghost function TxRank(x: Tx): nat {
    WorkLeft(x) + PcRank(x.pc) + (if x.pc != Ready && !x.accepted then 2 else 0)
    + 5 * Bit(x.request) + Bit(x.reply) + 5 * Bit(x.owed)
  }

  ghost function RxRank(y: Rx): nat {
    (match y.server
     case Accepting => 0
     case Reading(_) => 1
     case Processing(_) => 5
     case Asleep(_, woken) => 4 + Bit(woken)
     case Replying(_) => 3)
    + (match y.async
       case Idle => 0
       case Holding(_) => 3
       case Notifying => 2
       case Thrown => 0)
    + 4 * |y.socket|
  }

  ghost function Rank(s: State): nat {
    Sum(TxRank, s.tx) + Sum(RxRank, s.rx)
  }

  lemma RankOfTx(s: State, t: nat, x: Tx)
    requires t < |s.tx|
    ensures Rank(SetTx(s, t, x)) + TxRank(s.tx[t]) == Rank(s) + TxRank(x)
  {
    SumUpdate(TxRank, s.tx, t, x);
  }

  lemma RankOfRx(s: State, r: nat, y: Rx)
    requires r < |s.rx|
    ensures Rank(SetRx(s, r, y)) + RxRank(s.rx[r]) == Rank(s) + RxRank(y)
  {
    SumUpdate(RxRank, s.rx, r, y);
  }

  /** Finishing a call takes its remaining work away. */
  lemma ReturnLowersRank(x: Tx, l: Label)
    requires NextTx(x, l).Some? && (l.Return? || l.Disconnect?)
    requires x.pc == Ready ==> !x.accepted
    requires x.pc != Ready ==> HasByte(x)
    requires x.pc.Closed? ==> x.accepted
    requires x.jobs != [] ==> x.i <= |x.jobs[0].buf|
    ensures TxRank(NextTx(x, l).value) < TxRank(x)
  {
    var x' := NextTx(x, l).value;
    if l.Return? || x.pc.error {
      assert x'.jobs != [] ==> WorkLeft(x') == Work(x'.jobs);
    }
  }

  lemma TxStepLowersRank(x: Tx, l: Label)
    requires NextTx(x, l).Some? && !l.Return? && !l.Disconnect?
    requires x.pc == Ready ==> !x.accepted
    requires x.pc != Ready ==> HasByte(x)
    ensures TxRank(NextTx(x, l).value) < TxRank(x)
  {
    var x' := NextTx(x, l).value;
    assert WorkLeft(x') == WorkLeft(x) - if l.Connect? then STEPS_PER_BYTE else 0;
  }

  lemma RxStepLowersRank(y: Rx, l: Label)
    requires NextRx(y, l).Some?
    requires y.async != Thrown
    ensures RxRank(NextRx(y, l).value) < RxRank(y)
  {}

  lemma TransmitterStepLowersRank(s: State, l: Label)
    requires Safe(s) && Next(s, l).Some? && IsTxStep(l)
    ensures Rank(Next(s, l).value) < Rank(s)
  {
    assert TxOk(s, l.t);
    var x := s.tx[l.t];
    RankOfTx(s, l.t, NextTx(x, l).value);
    hide Rank, TxRank, Safe, TxOk;
    if l.Return? || l.Disconnect? {
      ReturnLowersRank(x, l);
    } else {
      TxStepLowersRank(x, l);
    }
  }

  lemma PublishLowersRank(s: State, t: nat, l: Label)
    requires Safe(s) && Next(s, l).Some? && l.Publish? && t == l.t
    ensures Rank(Next(s, l).value) < Rank(s)
  {
    var d := s.tx[t].jobs[0].dest;
    var x := s.tx[t].(owed := false);
    var y := Next(s, l).value.rx[d];
    RankOfTx(s, t, x);
    RankOfRx(SetTx(s, t, x), d, y);
    hide Rank;
    assert TxRank(x) == TxRank(s.tx[t]) - 5;
    assert RxRank(y) == RxRank(s.rx[d]) + 4;
  }

  /** Two parts of the state change: the flags of t, and the server of r. */
  lemma RankOfBoth(s: State, t: nat, x: Tx, r: nat, y: Rx)
    requires t < |s.tx| && r < |s.rx|
    ensures Rank(SetRx(SetTx(s, t, x), r, y)) + TxRank(s.tx[t]) + RxRank(s.rx[r]) == Rank(s) + TxRank(x) + RxRank(y)
  {
    RankOfTx(s, t, x);
    RankOfRx(SetTx(s, t, x), r, y);
  }

  lemma AcceptLowersRank(s: State, r: nat, t: nat)
    requires Next(s, Accept(r, t)).Some?
    ensures Rank(Next(s, Accept(r, t)).value) < Rank(s)
  {
    var x, y := s.tx[t].(accepted := true), s.rx[r].(server := Reading(Current(s.tx[t], t)));
    RankOfBoth(s, t, x, r, y);
    FlagsRank(s.tx[t], x);
    hide Rank, TxRank, WorkLeft;
  }

  lemma ReadRequestLowersRank(s: State, r: nat)
    requires Next(s, ReadRequest(r)).Some?
    ensures Rank(Next(s, ReadRequest(r)).value) < Rank(s)
  {
    var q := s.rx[r].server.session;
    var x, y := s.tx[q.t].(request := false), s.rx[r].(server := Processing(q));
    RankOfBoth(s, q.t, x, r, y);
    FlagsRank(s.tx[q.t], x);
    hide Rank, TxRank, WorkLeft;
  }

  lemma ReplyLowersRank(s: State, r: nat)
    requires Next(s, Reply(r)).Some?
    ensures Rank(Next(s, Reply(r)).value) < Rank(s)
  {
    var q := s.rx[r].server.session;
    var x, y := s.tx[q.t].(reply := true), s.rx[r].(server := Reading(q));
    RankOfBoth(s, q.t, x, r, y);
    FlagsRank(s.tx[q.t], x);
    hide Rank, TxRank, WorkLeft;
  }

  /** A change of the flags of a transmitter alone. */
  lemma FlagsRank(x: Tx, x': Tx)
    requires x' == x.(accepted := x'.accepted, request := x'.request, reply := x'.reply)
    ensures TxRank(x') + 5 * Bit(x.request) + Bit(x.reply) + (if x.pc != Ready && !x.accepted then 2 else 0)
         == TxRank(x) + 5 * Bit(x'.request) + Bit(x'.reply) + (if x.pc != Ready && !x'.accepted then 2 else 0)
  {
    assert WorkLeft(x') == WorkLeft(x);
  }

  lemma LocalStepLowersRank(s: State, r: nat, l: Label)
    requires Safe(s) && Next(s, l).Some? && r < |s.rx|
    requires l == HangUp(r) || ((IsProceed(l) || IsAsyncStep(l)) && l.r == r)
    ensures Rank(Next(s, l).value) < Rank(s)
  {
    assert RxOk(s, r);
    var y := Next(s, l).value.rx[r];
    RankOfRx(s, r, y);
    hide Rank, Safe, RxOk;
    if l.HangUp? {
      assert RxRank(y) < RxRank(s.rx[r]);
    } else {
      RxStepLowersRank(s.rx[r], l);
    }
  }

  /** Every step lowers the rank. */
  lemma StepLowersRank(s: State, l: Label)
    requires Safe(s) && Next(s, l).Some?
    ensures Rank(Next(s, l).value) < Rank(s)
  {
    hide Rank, Safe;
    if IsTxStep(l) {
      TransmitterStepLowersRank(s, l);
    } else if l.Publish? {
      PublishLowersRank(s, l.t, l);
    } else if l.Accept? {
      AcceptLowersRank(s, l.r, l.t);
    } else if l.ReadRequest? {
      ReadRequestLowersRank(s, l.r);
    } else if l.Reply? {
      ReplyLowersRank(s, l.r);
    } else {
      LocalStepLowersRank(s, l.r, l);
    }
  }

  ghost function TotalWork(plans: seq<seq<Job>>): nat {
    Sum(Work, plans)
  }

  lemma {:induction false} SumOfStart(plans: seq<seq<Job>>, xs: seq<Tx>)
    requires |xs| == |plans| && forall t :: 0 <= t < |plans| ==> xs[t] == Start(plans[t])
    ensures Sum(TxRank, xs) == TotalWork(plans)
    decreases |xs|
  {
    if xs != [] {
      SumOfStart(plans[1..], xs[1..]);
    }
  }

  lemma {:induction false} SumOfIdle(ys: seq<Rx>)
    requires forall r :: 0 <= r < |ys| ==> ys[r] == IDLE_RECEIVER
    ensures Sum(RxRank, ys) == 0
    decreases |ys|
  {
    if ys != [] {
      SumOfIdle(ys[1..]);
    }
  }

  lemma InitialRank(plans: seq<seq<Job>>)
    ensures Rank(Initial(plans)) == TotalWork(plans)
  {
    SumOfStart(plans, Initial(plans).tx);
    SumOfIdle(Initial(plans).rx);
  }

  /** Termination: over all interleavings, nodes and plans (cycles and self-sends included),
      a run takes at most 23 steps per byte and one per call. */
  lemma RunsAreBounded(plans: seq<seq<Job>>, ls: seq<Label>, s: State)
    requires Reaches(plans, ls, s)
    ensures |ls| <= TotalWork(plans)
  {
    InitialIsSafe(plans);
    InitialRank(plans);
    hide Next, Safe, Rank, Initial;
    forall s, l | Safe(s) && Next(s, l).Some?
      ensures Safe(Next(s, l).value) && Rank(Next(s, l).value) < Rank(s)
    {
      StepKeepsSafe(s, l);
      StepLowersRank(s, l);
    }
    RunBound(Next, Safe, Rank, Initial(plans), ls);
  }

  lemma ReachesOneMore(plans: seq<seq<Job>>, ls: seq<Label>, s: State, l: Label, s': State)
    requires Reaches(plans, ls, s) && Next(s, l) == Some(s')
    ensures Reaches(plans, ls + [l], s')
  {
    RunSnoc(Next, Initial(plans), ls, l);
  }

  /** A reachable state with an unfinished transmit has an enabled step: with the bound,
      every run can be extended to one in which all calls have returned. */
  lemma {:induction false} RunsCanFinish(plans: seq<seq<Job>>, ls: seq<Label>, s: State)
    returns (ks: seq<Label>, s': State)
    requires Reaches(plans, ls, s)
    ensures Reaches(plans, ls + ks, s') && Finished(s')
    decreases TotalWork(plans) - |ls|
  {
    hide Reaches, Inv, Safe, Finished, TotalWork;
    if Finished(s) {
      ks, s' := [], s;
      assert ls + ks == ls;
    } else {
      ReachableInv(plans, ls, s);
      InvIsSafe(s);
      var l := Progress(s);
      var s1 := Next(s, l).value;
      ReachesOneMore(plans, ls, s, l, s1);
      RunsAreBounded(plans, ls + [l], s1);
      ks, s' := RunsCanFinish(plans, ls + [l], s1);
      ks := [l] + ks;
      assert ls + ks == ls + [l] + ks[1..];
    }
  }

  /** A run that nothing but spurious wake-ups can extend has finished. */
  lemma StuckIsFinished(plans: seq<seq<Job>>, ls: seq<Label>, s: State)
    requires Reaches(plans, ls, s)
    requires forall l :: Enabled(s, l) ==> l.SpuriousWake?
    ensures Finished(s)
  {
    hide Reaches, Inv, Safe, Finished;
    ReachableInv(plans, ls, s);
    InvIsSafe(s);
    if !Finished(s) {
      var l := Progress(s);
    }
  }
}
