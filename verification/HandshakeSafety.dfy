/** What every step of the protocol keeps. */
module HandshakeSafety {
  import opened Systems
  import opened Symbols
  import opened Handshake

  function Bit(b: bool): nat { if b then 1 else 0 }

  function Held(y: Rx): seq<Entry> {
    if y.async.Holding? then [y.async.entry] else []
  }

  /** The number of traces a call to the dispatcher has left at its receiver. */
  function InFlight(y: Rx): nat {
    |y.socket| + |Held(y)| + Bit(y.shared.hasReceived)
  }

  /** The state of an accepted connection: what the transmitter's position says about the
      receiver, and that a call stays owed, in flight or signalled until it is consumed. */
  ghost predicate Linked(x: Tx, y: Rx, q: Session) {
    && y.server != Accepting
    && y.server.session == q
    && var quiet := !x.request && !x.reply;
       var receiving := y.shared.isReceiving;
       match x.pc
       case Ready => false
       case Connected => quiet && y.server.Reading? && !receiving && !x.owed
       case OpenSent =>
         && !x.owed
         && InFlight(y) == 0
         && (if y.server.Reading? then x.request == !receiving && x.reply == receiving
             else if y.server.Processing? then quiet && !receiving
             else quiet && y.server.Replying? && receiving)
       case Opened => quiet && y.server.Reading? && receiving && !x.owed && InFlight(y) == 0
       case Called => quiet && y.server.Reading? && receiving && Bit(x.owed) + InFlight(y) == 1
       case Answered(_) => quiet && y.server.Reading? && receiving && Bit(x.owed) + InFlight(y) == 1
       case CloseSent(_) =>
         && Bit(x.owed) + InFlight(y) == Bit(receiving)
         && (if y.server.Reading? then x.request == receiving && x.reply == !receiving
             else if y.server.Replying? then quiet && !receiving
             else quiet && receiving)
       case Closed(_) => quiet && y.server.Reading? && !receiving && !x.owed
  }

  ghost predicate TxOk(s: State, t: nat)
    requires t < |s.tx|
  {
    var x := s.tx[t];
    && (forall j :: 0 <= j < |x.jobs| ==> x.jobs[j].dest < |s.rx|)
    && (x.jobs != [] ==> x.i <= |x.jobs[0].buf|)
    && (x.pc == Ready ==> !x.accepted && !x.request && !x.reply && !x.owed)
    && (x.pc != Ready ==> HasByte(x))
    && (x.pc != Ready && !x.accepted ==>
          && (x.pc == Connected || x.pc == OpenSent)
          && x.request == (x.pc == OpenSent) && !x.reply && !x.owed)
    && (x.pc != Ready && x.accepted ==> Linked(x, s.rx[x.jobs[0].dest], Current(x, t)))
  }

  ghost predicate RxOk(s: State, r: nat)
    requires r < |s.rx|
  {
    var y := s.rx[r];
    && (y.server == Accepting ==> !y.shared.isReceiving)
    && (y.server != Accepting ==>
          && y.server.session.t < |s.tx|
          && var x := s.tx[y.server.session.t];
             && y.server.session.k <= x.k
             && (Connects(x, y.server.session) ==>
                   && x.accepted && HasByte(x) && x.jobs[0].dest == r
                   && Current(x, y.server.session.t) == y.server.session)
             && (!Connects(x, y.server.session) ==> y.server.Reading? && !y.shared.isReceiving))
    && (!y.shared.isReceiving ==> InFlight(y) == 0)
    && (y.server.Asleep? && y.shared.hasReceived && !y.server.woken ==> y.async == Notifying)
    && (y.server.Asleep? ==> y.shared.isReceiving)
    && y.async != Thrown
  }

  ghost predicate Safe(s: State) {
    && |s.tx| == |s.rx|
    && (forall t :: 0 <= t < |s.tx| ==> TxOk(s, t))
    && (forall r :: 0 <= r < |s.rx| ==> RxOk(s, r))
  }

  lemma InitialIsSafe(plans: seq<seq<Job>>)
    requires Addressed(plans)
    ensures Safe(Initial(plans))
  {}

  predicate IsTxStep(l: Label) {
    l.Connect? || l.WriteOpen? || l.ReadReply? || l.Call? || l.WriteClose? || l.Disconnect? || l.Return? || l.Answer?
  }

  lemma TxStepKeepsTx(s: State, l: Label)
    requires Safe(s) && Next(s, l).Some? && IsTxStep(l)
    ensures TxOk(Next(s, l).value, l.t)
  {
    assert TxOk(s, l.t);
    if s.tx[l.t].pc != Ready {
      assert RxOk(s, s.tx[l.t].jobs[0].dest);
    }
  }

  lemma TxStepKeepsRx(s: State, l: Label, r: nat)
    requires Safe(s) && Next(s, l).Some? && IsTxStep(l) && r < |s.rx|
    ensures RxOk(Next(s, l).value, r)
  {
    assert TxOk(s, l.t) && RxOk(s, r);
  }

  /** A step that changes only transmitter t keeps what is known of everybody else. */
  lemma TxStepKeeps(s: State, l: Label)
    requires Safe(s) && Next(s, l).Some? && IsTxStep(l)
    ensures Safe(Next(s, l).value)
  {
    var s' := Next(s, l).value;
    forall t | 0 <= t < |s'.tx| ensures TxOk(s', t) {
      assert TxOk(s, t);
      if t == l.t {
        TxStepKeepsTx(s, l);
      }
    }
    forall r | 0 <= r < |s'.rx| ensures RxOk(s', r) {
      TxStepKeepsRx(s, l, r);
    }
  }

  lemma PublishKeeps(s: State, t: nat, outcome: Outcome)
    requires Safe(s) && Next(s, Publish(t, outcome)).Some?
    ensures Safe(Next(s, Publish(t, outcome)).value)
  {
    var s' := Next(s, Publish(t, outcome)).value;
    assert TxOk(s, t) && RxOk(s, s.tx[t].jobs[0].dest);
    forall t' | 0 <= t' < |s'.tx| ensures TxOk(s', t') {
      assert TxOk(s, t');
    }
    forall r | 0 <= r < |s'.rx| ensures RxOk(s', r) {
      assert RxOk(s, r);
    }
  }

  lemma AcceptKeeps(s: State, r: nat, t: nat)
    requires Safe(s) && Next(s, Accept(r, t)).Some?
    ensures Safe(Next(s, Accept(r, t)).value)
  {
    var s' := Next(s, Accept(r, t)).value;
    assert RxOk(s, r) && TxOk(s, t);
    forall t' | 0 <= t' < |s'.tx| ensures TxOk(s', t') {
      assert TxOk(s, t');
    }
    forall r' | 0 <= r' < |s'.rx| ensures RxOk(s', r') {
      assert RxOk(s, r');
    }
  }

  lemma ReadRequestKeeps(s: State, r: nat)
    requires Safe(s) && Next(s, ReadRequest(r)).Some?
    ensures Safe(Next(s, ReadRequest(r)).value)
  {
    var s' := Next(s, ReadRequest(r)).value;
    assert RxOk(s, r) && TxOk(s, s.rx[r].server.session.t);
    forall t' | 0 <= t' < |s'.tx| ensures TxOk(s', t') {
      assert TxOk(s, t');
    }
    forall r' | 0 <= r' < |s'.rx| ensures RxOk(s', r') {
      assert RxOk(s, r');
    }
  }

  lemma HangUpKeeps(s: State, r: nat)
    requires Safe(s) && Next(s, HangUp(r)).Some?
    ensures Safe(Next(s, HangUp(r)).value)
  {
    var s' := Next(s, HangUp(r)).value;
    assert RxOk(s, r) && TxOk(s, s.rx[r].server.session.t);
    forall t' | 0 <= t' < |s'.tx| ensures TxOk(s', t') {
      assert TxOk(s, t');
    }
    forall r' | 0 <= r' < |s'.rx| ensures RxOk(s', r') {
      assert RxOk(s, r');
    }
  }

  lemma ReplyKeeps(s: State, r: nat)
    requires Safe(s) && Next(s, Reply(r)).Some?
    ensures Safe(Next(s, Reply(r)).value)
  {
    var s' := Next(s, Reply(r)).value;
    assert RxOk(s, r) && TxOk(s, s.rx[r].server.session.t);
    forall t' | 0 <= t' < |s'.tx| ensures TxOk(s', t') {
      assert TxOk(s, t');
    }
    forall r' | 0 <= r' < |s'.rx| ensures RxOk(s', r') {
      assert RxOk(s, r');
    }
  }

  predicate IsProceed(l: Label) { l.Enter? || l.Wake? || l.SpuriousWake? }

  predicate IsAsyncStep(l: Label) { l.Receive? || l.Critical? || l.Notify? }

  /** A step of receiver r does not concern a transmitter that is not in session with it. */
  lemma LocalStepKeepsOthers(s: State, l: Label, t: nat)
    requires Safe(s) && Next(s, l).Some? && (IsProceed(l) || IsAsyncStep(l)) && t < |s.tx|
    requires s.rx[l.r].server == Accepting || t != s.rx[l.r].server.session.t
    ensures TxOk(Next(s, l).value, t)
  {
    assert TxOk(s, t) && RxOk(s, l.r);
  }

  lemma ProceedKeepsHolder(s: State, l: Label)
    requires Safe(s) && Next(s, l).Some? && IsProceed(l) && s.rx[l.r].server.session.t < |s.tx|
    ensures TxOk(Next(s, l).value, s.rx[l.r].server.session.t)
    ensures RxOk(Next(s, l).value, l.r)
  {
    assert RxOk(s, l.r) && TxOk(s, s.rx[l.r].server.session.t);
  }

  lemma AsyncStepKeepsHolder(s: State, l: Label)
    requires Safe(s) && Next(s, l).Some? && IsAsyncStep(l)
    requires s.rx[l.r].server != Accepting && s.rx[l.r].server.session.t < |s.tx|
    ensures TxOk(Next(s, l).value, s.rx[l.r].server.session.t)
  {
    assert RxOk(s, l.r) && TxOk(s, s.rx[l.r].server.session.t);
  }

  lemma AsyncStepKeepsRx(s: State, l: Label)
    requires Safe(s) && Next(s, l).Some? && IsAsyncStep(l)
    ensures RxOk(Next(s, l).value, l.r)
  {
    assert RxOk(s, l.r);
    if s.rx[l.r].server != Accepting {
      assert TxOk(s, s.rx[l.r].server.session.t);
    }
  }

  lemma LocalStepKeeps(s: State, l: Label)
    requires Safe(s) && Next(s, l).Some? && (IsProceed(l) || IsAsyncStep(l))
    ensures Safe(Next(s, l).value)
  {
    var s' := Next(s, l).value;
    var y := s.rx[l.r];
    assert RxOk(s, l.r);
    forall t | 0 <= t < |s'.tx| ensures TxOk(s', t) {
      if y.server == Accepting || t != y.server.session.t {
        LocalStepKeepsOthers(s, l, t);
      } else if IsProceed(l) {
        ProceedKeepsHolder(s, l);
      } else {
        AsyncStepKeepsHolder(s, l);
      }
    }
    forall r | 0 <= r < |s'.rx| ensures RxOk(s', r) {
      assert RxOk(s, r);
      if r == l.r {
        if IsProceed(l) {
          ProceedKeepsHolder(s, l);
        } else {
          AsyncStepKeepsRx(s, l);
        }
      }
    }
  }

  lemma StepKeepsSafe(s: State, l: Label)
    requires Safe(s) && Next(s, l).Some?
    ensures Safe(Next(s, l).value)
  {
    match l
    case Publish(t, outcome) => PublishKeeps(s, t, outcome);
    case Accept(r, t) => AcceptKeeps(s, r, t);
    case ReadRequest(r) => ReadRequestKeeps(s, r);
    case HangUp(r) => HangUpKeeps(s, r);
    case Reply(r) => ReplyKeeps(s, r);
    case _ =>
      if IsTxStep(l) {
        TxStepKeeps(s, l);
      } else {
        LocalStepKeeps(s, l);
      }
  }

  /** What a receiver has recorded: its sessions alternate strictly between open and closed,
      each has at most one publication, made in session order, and a publication is in the
      buffer, held by the asynchronous thread or in the socket, in that order. */
  ghost predicate Logged(y: Rx) {
    && |y.sessions| == y.closed + Bit(y.shared.isReceiving)
    && (y.shared.isReceiving ==> y.server != Accepting && y.sessions[y.closed] == y.server.session)
    && y.published == y.shared.buffer + Held(y) + y.socket
    && |y.shared.buffer| == y.closed + Bit(y.shared.hasReceived)
    && |y.published| <= |y.sessions|
    && forall i :: 0 <= i < |y.published| ==> y.published[i].session == y.sessions[i]
  }

  ghost predicate Inv(s: State) {
    Safe(s) && forall r :: 0 <= r < |s.rx| ==> Logged(s.rx[r])
  }

  lemma InvIsSafe(s: State)
    requires Inv(s)
    ensures Safe(s)
  {}

  lemma ProceedKeepsLogged(s: State, l: Label)
    requires Inv(s) && Next(s, l).Some? && IsProceed(l)
    ensures Logged(Next(s, l).value.rx[l.r])
  {
    assert RxOk(s, l.r) && Logged(s.rx[l.r]);
    assert TxOk(s, s.rx[l.r].server.session.t);
  }

  lemma SignalKeepsLogged(s: State, l: Label)
    requires Inv(s) && Next(s, l).Some? && (l.Critical? || l.Notify?)
    ensures Logged(Next(s, l).value.rx[l.r])
  {
    var y := s.rx[l.r];
    assert RxOk(s, l.r) && Logged(y);
    if l.Critical? && y.server != Accepting {
      assert TxOk(s, y.server.session.t);
    }
  }

  lemma ReceiveKeepsLogged(s: State, r: nat)
    requires Inv(s) && Next(s, Receive(r)).Some?
    ensures Logged(Next(s, Receive(r)).value.rx[r])
  {
    var y := s.rx[r];
    assert Logged(y);
    assert y.socket == [y.socket[0]] + y.socket[1..];
  }

  lemma PublishKeepsLogged(s: State, t: nat, outcome: Outcome)
    requires Inv(s) && Next(s, Publish(t, outcome)).Some?
    ensures Logged(Next(s, Publish(t, outcome)).value.rx[s.tx[t].jobs[0].dest])
  {
    var d := s.tx[t].jobs[0].dest;
    var y := s.rx[d];
    var y' := Next(s, Publish(t, outcome)).value.rx[d];
    assert TxOk(s, t) && RxOk(s, d) && Logged(y);
    assert y'.published == y'.shared.buffer + Held(y') + y'.socket;
  }

  lemma OtherStepKeepsLogged(s: State, l: Label, r: nat)
    requires Inv(s) && Next(s, l).Some? && r < |s.rx|
    requires l.Accept? || l.ReadRequest? || l.HangUp? || l.Reply? || IsTxStep(l)
    ensures Logged(Next(s, l).value.rx[r])
  {
    assert Logged(s.rx[r]) && RxOk(s, r);
    if s.rx[r].server != Accepting {
      assert TxOk(s, s.rx[r].server.session.t);
    }
  }

  lemma StepKeepsLogged(s: State, l: Label, r: nat)
    requires Inv(s) && Next(s, l).Some? && r < |s.rx|
    ensures Logged(Next(s, l).value.rx[r])
  {
    if l.Publish? {
      assert Logged(s.rx[r]);
      if r == s.tx[l.t].jobs[0].dest {
        PublishKeepsLogged(s, l.t, l.outcome);
      }
    } else if IsProceed(l) || IsAsyncStep(l) {
      assert Logged(s.rx[r]);
      if r == l.r && l.Receive? {
        ReceiveKeepsLogged(s, r);
      } else if r == l.r && IsProceed(l) {
        ProceedKeepsLogged(s, l);
      } else if r == l.r {
        SignalKeepsLogged(s, l);
      }
    } else {
      OtherStepKeepsLogged(s, l, r);
    }
  }

  lemma StepKeepsInv(s: State, l: Label)
    requires Inv(s) && Next(s, l).Some?
    ensures Inv(Next(s, l).value)
  {
    InvIsSafe(s);
    StepKeepsSafe(s, l);
    SafeSizes(s, l);
    hide Next, Safe, Logged;
    forall r | 0 <= r < |Next(s, l).value.rx| ensures Logged(Next(s, l).value.rx[r]) {
      StepKeepsLogged(s, l, r);
    }
  }

  lemma SafeSizes(s: State, l: Label)
    requires Next(s, l).Some?
    ensures |Next(s, l).value.rx| == |s.rx|
  {}

  /** The invariant holds after every run of every set of nodes. */
  lemma ReachableInv(plans: seq<seq<Job>>, ls: seq<Label>, s: State)
    requires Reaches(plans, ls, s)
    ensures Inv(s)
  {
    InitialIsInv(plans);
    hide Next, Inv, Initial;
    forall s, l | Inv(s) && Next(s, l).Some? ensures Inv(Next(s, l).value) {
      StepKeepsInv(s, l);
    }
    RunKeeps(Next, Inv, Initial(plans), ls);
  }

  lemma InitialIsInv(plans: seq<seq<Job>>)
    requires Addressed(plans)
    ensures Inv(Initial(plans))
  {
    InitialIsSafe(plans);
  }

  /** The dispatcher owes the session's transmitter the publication of its last call. */
  ghost predicate Owes(s: State, q: Session) {
    q.t < |s.tx| && Connects(s.tx[q.t], q) && s.tx[q.t].owed
  }

  /** Handshake safety at receiver r.  `isReceiving` holds exactly while one session is opened
      and not yet closed, and that is the session being served.  A signal is pending only then,
      with no publication for that session owed, in the socket or in hand; a publication in the
      asynchronous thread's hands finds the receiver receiving and no signal to overwrite; and
      the throw has not happened. */
  ghost predicate Handshaking(s: State, r: nat)
    requires r < |s.rx|
  {
    var y := s.rx[r];
    && |y.sessions| == y.closed + Bit(y.shared.isReceiving)
    && (y.shared.isReceiving ==> y.server != Accepting && y.sessions[y.closed] == y.server.session)
    && (y.shared.hasReceived ==>
          && y.shared.isReceiving && y.socket == [] && !y.async.Holding?
          && !Owes(s, y.server.session))
    && (y.async.Holding? ==>
          && y.shared.isReceiving && !y.shared.hasReceived && y.socket == []
          && y.async.entry.session == y.server.session && !Owes(s, y.server.session))
    && y.async != Thrown
  }

  /** Exactly one buffered measurement per session: the buffer is the beginning of what the
      dispatcher published, its i-th item belongs to the i-th session, and it has one item per
      closed session and one more if a signal is pending. */
  ghost predicate BufferedOnce(y: Rx) {
    && y.shared.buffer <= y.published
    && |y.shared.buffer| == y.closed + Bit(y.shared.hasReceived)
    && |y.shared.buffer| <= |y.sessions|
    && forall i :: 0 <= i < |y.shared.buffer| ==> y.shared.buffer[i].session == y.sessions[i]
  }

  lemma InvGivesHandshake(s: State, r: nat)
    requires Inv(s) && r < |s.rx|
    ensures Handshaking(s, r) && BufferedOnce(s.rx[r])
  {
    assert RxOk(s, r) && Logged(s.rx[r]);
    if s.rx[r].shared.isReceiving {
      assert TxOk(s, s.rx[r].server.session.t);
    }
  }

  /** In every reachable state of every set of nodes. */
  lemma HandshakeSafe(plans: seq<seq<Job>>, ls: seq<Label>, s: State, r: nat)
    requires Reaches(plans, ls, s) && r < |s.rx|
    ensures Handshaking(s, r) && BufferedOnce(s.rx[r])
  {
    hide Reaches, Inv;
    ReachableInv(plans, ls, s);
    InvGivesHandshake(s, r);
  }

  /** Transmitter t has been told that its session with r is open and has not asked to close
      it. */
  ghost predicate InSession(s: State, t: nat, r: nat) {
    t < |s.tx| && HasByte(s.tx[t]) && s.tx[t].jobs[0].dest == r
    && (s.tx[t].pc == Opened || s.tx[t].pc == Called || s.tx[t].pc.Answered?)
  }

  lemma InvGivesSession(s: State, t: nat, r: nat)
    requires Inv(s) && InSession(s, t, r)
    ensures r < |s.rx|
    ensures var y := s.rx[r];
            && y.shared.isReceiving && y.sessions != []
            && y.sessions[|y.sessions| - 1] == Current(s.tx[t], t)
            && (y.shared.hasReceived ==> !s.tx[t].owed)
  {
    assert TxOk(s, t);
    assert Logged(s.rx[r]);
  }

  /** Mutual exclusion: at most one transmitter is in session with a receiver; it is the one
      whose session was opened last, and a pending signal means nothing is owed to it. */
  lemma MutualExclusion(plans: seq<seq<Job>>, ls: seq<Label>, s: State, r: nat, t1: nat, t2: nat)
    requires Reaches(plans, ls, s)
    requires InSession(s, t1, r) && InSession(s, t2, r)
    ensures t1 == t2
    ensures r < |s.rx| && s.rx[r].shared.isReceiving && s.rx[r].sessions != []
    ensures s.rx[r].sessions[|s.rx[r].sessions| - 1] == Current(s.tx[t1], t1)
    ensures s.rx[r].shared.hasReceived ==> !s.tx[t1].owed
  {
    hide Reaches, Inv;
    ReachableInv(plans, ls, s);
    InvGivesSession(s, t1, r);
    InvGivesSession(s, t2, r);
  }
}
