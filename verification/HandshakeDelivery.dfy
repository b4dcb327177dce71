/** Which bytes arrive where: every dispatched byte is received exactly once, by the node it
    was sent to, in the order its transmitter sent it. */
module HandshakeDelivery {
  import opened Systems
  import opened Symbols
  import opened Handshake
  import opened HandshakeSafety
  import opened HandshakeProgress

  /** The sessions of transmitter t, in order. */
  ghost function From(sessions: seq<Session>, t: nat): seq<Session> {
    if sessions == [] then []
    else
      var n := |sessions| - 1;
      From(sessions[..n], t) + if sessions[n].t == t then [sessions[n]] else []
  }

  /** The sessions transmitter t makes for the bytes of `history` addressed to r. */
  ghost function To(history: seq<(nat, Byte)>, t: nat, r: nat): seq<Session> {
    if history == [] then []
    else
      var n := |history| - 1;
      To(history[..n], t, r) + if history[n].0 == r then [Session(t, n + 1, history[n].1)] else []
  }

  lemma FromSnoc(sessions: seq<Session>, q: Session, t: nat)
    ensures From(sessions + [q], t) == From(sessions, t) + if q.t == t then [q] else []
  {
    assert (sessions + [q])[..|sessions|] == sessions;
  }

  lemma ToSnoc(history: seq<(nat, Byte)>, d: (nat, Byte), t: nat, r: nat)
    ensures To(history + [d], t, r) ==
            To(history, t, r) + if d.0 == r then [Session(t, |history| + 1, d.1)] else []
  {
    assert (history + [d])[..|history|] == history;
  }

  /** The current connection exists but its open request has not been processed. */
  ghost predicate Unopened(x: Tx, rx: seq<Rx>) {
    x.pc == Connected
    || (x.pc == OpenSent && x.jobs != [] && x.jobs[0].dest < |rx|
        && !(x.accepted && rx[x.jobs[0].dest].shared.isReceiving))
  }

  /** The bytes for which a session has been opened. */
  ghost function OpenedFor(x: Tx, rx: seq<Rx>): seq<(nat, Byte)> {
    if Unopened(x, rx) && x.history != [] then x.history[..|x.history| - 1] else x.history
  }

  /** The last entry of the history is the byte of the current connection. */
  ghost predicate Recorded(x: Tx) {
    && |x.history| == x.k
    && (x.pc != Ready && HasByte(x) ==>
          x.history != [] && x.history[x.k - 1] == (x.jobs[0].dest, x.jobs[0].buf[x.i]))
  }

  ghost predicate RoutedTo(s: State, t: nat, r: nat)
    requires t < |s.tx| && r < |s.rx|
  {
    From(s.rx[r].sessions, t) == To(OpenedFor(s.tx[t], s.rx), t, r)
  }

  ghost predicate Routed(s: State) {
    && (forall t :: 0 <= t < |s.tx| ==> Recorded(s.tx[t]))
    && (forall t, r :: 0 <= t < |s.tx| && 0 <= r < |s.rx| ==> RoutedTo(s, t, r))
  }

  lemma OthersKeepOpened(s: State, l: Label, t: nat)
    requires Safe(s) && Next(s, l).Some? && IsProceed(l) && t < |s.tx|
    requires t != s.rx[l.r].server.session.t
    ensures OpenedFor(s.tx[t], Next(s, l).value.rx) == OpenedFor(s.tx[t], s.rx)
  {
    assert TxOk(s, t) && RxOk(s, l.r);
  }

  /** A close request, processed or put to sleep, opens nothing. */
  lemma CloseKeepsOpened(s: State, l: Label)
    requires Safe(s) && Next(s, l).Some? && IsProceed(l) && s.rx[l.r].shared.isReceiving
    ensures Next(s, l).value.rx[l.r].sessions == s.rx[l.r].sessions
    ensures s.rx[l.r].server.session.t < |s.tx|
    ensures OpenedFor(s.tx[s.rx[l.r].server.session.t], Next(s, l).value.rx) ==
            OpenedFor(s.tx[s.rx[l.r].server.session.t], s.rx)
  {
    assert RxOk(s, l.r) && TxOk(s, s.rx[l.r].server.session.t);
  }

  /** An open request processed at r records the session of the byte it was sent for. */
  lemma ProceedOpens(s: State, l: Label)
    requires Safe(s) && Routed(s) && Next(s, l).Some? && IsProceed(l) && !s.rx[l.r].shared.isReceiving
    ensures s.rx[l.r].server.session.t < |s.tx|
    ensures var s' := Next(s, l).value;
            var q := s.rx[l.r].server.session;
            var x := s.tx[q.t];
            && s'.rx[l.r].sessions == s.rx[l.r].sessions + [q]
            && |x.history| == q.k
            && x.history == OpenedFor(x, s.rx) + [(l.r, q.symbol)]
            && OpenedFor(x, s'.rx) == x.history
  {
    var q := s.rx[l.r].server.session;
    assert RxOk(s, l.r) && TxOk(s, q.t) && Recorded(s.tx[q.t]);
    var h := s.tx[q.t].history;
    assert h == h[..|h| - 1] + [h[|h| - 1]];
  }

  lemma ProceedSizes(s: State, l: Label)
    requires Safe(s) && Next(s, l).Some? && IsProceed(l)
    ensures var s' := Next(s, l).value;
            && l.r < |s.rx| == |s'.rx| && s'.tx == s.tx && s.rx[l.r].server != Accepting
            && (forall r :: 0 <= r < |s.rx| && r != l.r ==> s'.rx[r] == s.rx[r])
            && (s'.rx[l.r].sessions == s.rx[l.r].sessions
                || s'.rx[l.r].sessions == s.rx[l.r].sessions + [s.rx[l.r].server.session])
  {
    assert RxOk(s, l.r);
  }

  lemma OthersKeepRouted(s: State, l: Label, t: nat, r: nat)
    requires Safe(s) && Routed(s) && Next(s, l).Some? && IsProceed(l)
    requires t < |s.tx| && r < |s.rx| == |Next(s, l).value.rx| && t != s.rx[l.r].server.session.t
    ensures Next(s, l).value.tx == s.tx && RoutedTo(Next(s, l).value, t, r)
  {
    assert RoutedTo(s, t, r);
    ProceedSizes(s, l);
    OthersKeepOpened(s, l, t);
    FromSnoc(s.rx[l.r].sessions, s.rx[l.r].server.session, t);
    hide Next, Safe, Routed, From, To, OpenedFor;
  }

  lemma HolderKeepsRouted(s: State, l: Label, r: nat)
    requires Safe(s) && Routed(s) && Next(s, l).Some? && IsProceed(l)
    requires r < |s.rx| == |Next(s, l).value.rx| && s.rx[l.r].server.session.t < |s.tx|
    ensures Next(s, l).value.tx == s.tx && RoutedTo(Next(s, l).value, s.rx[l.r].server.session.t, r)
  {
    var q := s.rx[l.r].server.session;
    assert RoutedTo(s, q.t, r);
    ProceedSizes(s, l);
    if s.rx[l.r].shared.isReceiving {
      CloseKeepsOpened(s, l);
      hide Next, Safe, Routed, From, To, OpenedFor;
    } else {
      ProceedOpens(s, l);
      FromSnoc(s.rx[l.r].sessions, q, q.t);
      ToSnoc(OpenedFor(s.tx[q.t], s.rx), (l.r, q.symbol), q.t, r);
      hide Next, Safe, Routed, From, To, OpenedFor;
    }
  }

  lemma ProceedKeepsRouted(s: State, l: Label)
    requires Safe(s) && Routed(s) && Next(s, l).Some? && IsProceed(l)
    ensures Routed(Next(s, l).value)
  {
    var s' := Next(s, l).value;
    ProceedSizes(s, l);
    hide Next, Safe, RoutedTo;
    forall t, r | 0 <= t < |s'.tx| && 0 <= r < |s'.rx| ensures RoutedTo(s', t, r) {
      if t == s.rx[l.r].server.session.t {
        HolderKeepsRouted(s, l, r);
      } else {
        OthersKeepRouted(s, l, t, r);
      }
    }
  }

  lemma ConnectKeepsRouted(s: State, t: nat)
    requires Safe(s) && Routed(s) && Next(s, Connect(t)).Some?
    ensures Routed(Next(s, Connect(t)).value)
  {
    var s' := Next(s, Connect(t)).value;
    assert Recorded(s.tx[t]);
    assert s'.tx[t].history[..|s.tx[t].history|] == s.tx[t].history;
    forall t', r | 0 <= t' < |s'.tx| && 0 <= r < |s'.rx| ensures RoutedTo(s', t', r) {
      assert RoutedTo(s, t', r);
    }
  }

  /** The other steps neither open nor close a session. */
  lemma KeepsReceiving(s: State, l: Label)
    requires Next(s, l).Some? && !IsProceed(l)
    ensures var s' := Next(s, l).value;
            |s'.rx| == |s.rx|
            && forall r :: 0 <= r < |s.rx| ==>
                 s'.rx[r].shared.isReceiving == s.rx[r].shared.isReceiving && s'.rx[r].sessions == s.rx[r].sessions
  {}

  lemma TxStepKeepsOpened(s: State, l: Label)
    requires Safe(s) && Next(s, l).Some? && IsTxStep(l) && !l.Connect?
    ensures OpenedFor(Next(s, l).value.tx[l.t], s.rx) == OpenedFor(s.tx[l.t], s.rx)
  {
    assert TxOk(s, l.t);
  }

  /** Being accepted opens nothing either: the receiver is still free. */
  lemma OtherStepKeepsOpened(s: State, l: Label, t: nat)
    requires Safe(s) && Next(s, l).Some? && t < |s.tx| && (!IsTxStep(l) || l.t != t)
    ensures OpenedFor(Next(s, l).value.tx[t], s.rx) == OpenedFor(s.tx[t], s.rx)
  {
    hide NextTx, NextRx;
    var x, x' := s.tx[t], Next(s, l).value.tx[t];
    assert x'.jobs == x.jobs && x'.pc == x.pc && x'.history == x.history && (l.Accept? || x'.accepted == x.accepted);
    if l.Accept? {
      assert RxOk(s, l.r);
    }
  }

  lemma SameReceiving(x: Tx, rx: seq<Rx>, rx': seq<Rx>)
    requires |rx'| == |rx| && forall r :: 0 <= r < |rx| ==> rx'[r].shared.isReceiving == rx[r].shared.isReceiving
    ensures OpenedFor(x, rx') == OpenedFor(x, rx)
  {}

  lemma KeepsOpened(s: State, l: Label, t: nat)
    requires Safe(s) && Next(s, l).Some? && !IsProceed(l) && !l.Connect? && t < |s.tx|
    ensures OpenedFor(Next(s, l).value.tx[t], Next(s, l).value.rx) == OpenedFor(s.tx[t], s.rx)
  {
    var s' := Next(s, l).value;
    KeepsReceiving(s, l);
    if IsTxStep(l) && l.t == t {
      TxStepKeepsOpened(s, l);
    } else {
      OtherStepKeepsOpened(s, l, t);
    }
    hide Next, OpenedFor, Safe;
    SameReceiving(s'.tx[t], s.rx, s'.rx);
  }

  lemma KeepsRecorded(s: State, l: Label, t: nat)
    requires Safe(s) && Next(s, l).Some? && t < |s.tx| && Recorded(s.tx[t])
    ensures Recorded(Next(s, l).value.tx[t])
  {
    assert TxOk(s, t);
    hide NextRx, TxOk, Safe;
  }

  lemma StepKeepsRouted(s: State, l: Label)
    requires Safe(s) && Routed(s) && Next(s, l).Some?
    ensures Routed(Next(s, l).value)
  {
    if IsProceed(l) {
      ProceedKeepsRouted(s, l);
    } else if l.Connect? {
      ConnectKeepsRouted(s, l.t);
    } else {
      var s' := Next(s, l).value;
      assert |s'.tx| == |s.tx| && |s'.rx| == |s.rx|;
      hide Next, Safe, Recorded, RoutedTo;
      forall t | 0 <= t < |s'.tx| ensures Recorded(s'.tx[t]) {
        KeepsRecorded(s, l, t);
      }
      forall t, r | 0 <= t < |s'.tx| && 0 <= r < |s'.rx| ensures RoutedTo(s', t, r) {
        UnopenedKeepsRouted(s, l, t, r);
      }
    }
  }

  lemma UnopenedKeepsRouted(s: State, l: Label, t: nat, r: nat)
    requires Safe(s) && Routed(s) && Next(s, l).Some? && !IsProceed(l) && !l.Connect?
    requires t < |Next(s, l).value.tx| == |s.tx| && r < |Next(s, l).value.rx| == |s.rx|
    ensures RoutedTo(Next(s, l).value, t, r)
  {
    assert RoutedTo(s, t, r);
    KeepsReceiving(s, l);
    KeepsOpened(s, l, t);
    hide Next, Safe, Routed, From, To, OpenedFor;
  }

  /** The first n bytes of a call. */
  ghost function Bytes(job: Job, n: nat): seq<(nat, Byte)>
    requires n <= |job.buf|
  {
    seq(n, i requires 0 <= i < n => (job.dest, job.buf[i]))
  }

  /** A call that returned true dispatched its whole buffer without an error; one that returned
      false dispatched a part of it, and the last answer was the only error. */
  ghost predicate Results(jobs: seq<Job>, results: seq<Result>) {
    |results| <= |jobs|
    && forall j :: 0 <= j < |results| ==>
         var n := |results[j].errors|;
         && (if results[j].ok then n == |jobs[j].buf| else 0 < n <= |jobs[j].buf|)
         && forall i :: 0 <= i < n ==> (results[j].errors[i] <==> !results[j].ok && i == n - 1)
  }

  /** What the finished calls dispatched, in order. */
  ghost function Sent(jobs: seq<Job>, results: seq<Result>): seq<(nat, Byte)>
    requires Results(jobs, results)
  {
    if results == [] then []
    else
      var n := |results| - 1;
      Sent(jobs, results[..n]) + Bytes(jobs[n], |results[n].errors|)
  }

  /** In the current call no answer but the last can have been an error, and then the call is
      about to end. */
  ghost predicate Answers(x: Tx) {
    && |x.errors| == x.i + Bit(x.pc.Answered? || x.pc.CloseSent? || x.pc.Closed?)
    && (forall i :: 0 <= i < x.i ==> !x.errors[i])
    && (x.pc.Answered? || x.pc.CloseSent? || x.pc.Closed? ==> x.errors[x.i] == x.pc.error)
  }

  /** Every transmitter has worked off a prefix of its plan, and the history is what the
      finished calls and the current one have dispatched. */
  ghost predicate Balanced(x: Tx, plan: seq<Job>) {
    && |x.returned| <= |plan|
    && x.jobs == plan[|x.returned|..]
    && Results(plan, x.returned)
    && Answers(x)
    && (x.jobs != [] ==> Begun(x) <= |x.jobs[0].buf|)
    && x.history == Sent(plan, x.returned) + if x.jobs != [] then Bytes(x.jobs[0], Begun(x)) else []
  }

  lemma ConnectKeepsBalanced(x: Tx, l: Label, plan: seq<Job>)
    requires Balanced(x, plan) && NextTx(x, l).Some? && l.Connect?
    ensures Balanced(NextTx(x, l).value, plan)
  {
    var job := x.jobs[0];
    assert Bytes(job, x.i + 1) == Bytes(job, x.i) + [(job.dest, job.buf[x.i])];
  }

  lemma ReturnKeepsBalanced(x: Tx, l: Label, plan: seq<Job>)
    requires Balanced(x, plan) && NextTx(x, l).Some? && (l.Return? || (l.Disconnect? && x.pc.error))
    requires x.pc != Ready ==> HasByte(x)
    ensures Balanced(NextTx(x, l).value, plan)
  {
    var x' := NextTx(x, l).value;
    assert |x.errors| == Begun(x);
    assert x'.returned[..|x.returned|] == x.returned;
    if x'.jobs != [] {
      assert Bytes(x'.jobs[0], 0) == [];
    }
  }

  lemma AnswerKeepsAnswers(x: Tx, l: Label)
    requires Answers(x) && NextTx(x, l).Some? && !l.Return? && !(l.Disconnect? && x.pc.error)
    requires x.pc != Ready ==> HasByte(x)
    ensures Answers(NextTx(x, l).value)
  {}

  lemma TxStepKeepsBalanced(x: Tx, l: Label, plan: seq<Job>)
    requires Balanced(x, plan) && NextTx(x, l).Some?
    requires x.pc != Ready ==> HasByte(x)
    ensures Balanced(NextTx(x, l).value, plan)
  {
    if l.Connect? {
      ConnectKeepsBalanced(x, l, plan);
    } else if l.Return? || (l.Disconnect? && x.pc.error) {
      ReturnKeepsBalanced(x, l, plan);
    } else {
      AnswerKeepsAnswers(x, l);
      hide Sent, Results, Bytes, Answers;
      var x' := NextTx(x, l).value;
      assert x'.jobs == x.jobs && x'.returned == x.returned && x'.history == x.history && Begun(x') == Begun(x);
    }
  }

  ghost predicate AllBalanced(s: State, plans: seq<seq<Job>>) {
    |s.tx| == |plans| && forall t :: 0 <= t < |plans| ==> Balanced(s.tx[t], plans[t])
  }

  /** A step of somebody else changes at most the flags of t. */
  lemma OtherStepKeepsBalanced(s: State, l: Label, t: nat, plan: seq<Job>)
    requires Next(s, l).Some? && t < |s.tx| && Balanced(s.tx[t], plan)
    requires !IsTxStep(l) || l.t != t
    ensures Balanced(Next(s, l).value.tx[t], plan)
  {
    hide Sent, Results, Bytes, NextTx, NextRx;
    var x, x' := s.tx[t], Next(s, l).value.tx[t];
    assert x'.jobs == x.jobs && x'.returned == x.returned && x'.history == x.history && Begun(x') == Begun(x);
    assert x'.errors == x.errors && x'.pc == x.pc;
  }

  lemma ActsInsideByte(s: State, t: nat)
    requires Safe(s) && t < |s.tx|
    ensures s.tx[t].pc != Ready ==> HasByte(s.tx[t])
  {
    assert TxOk(s, t);
  }

  lemma TxStepIs(s: State, l: Label)
    requires Next(s, l).Some? && IsTxStep(l)
    ensures l.t < |s.tx| && NextTx(s.tx[l.t], l).Some?
    ensures Next(s, l).value.tx[l.t] == NextTx(s.tx[l.t], l).value
  {
    hide NextTx, NextRx;
  }

  lemma StepKeepsBalanced(s: State, l: Label, plans: seq<seq<Job>>)
    requires Safe(s) && AllBalanced(s, plans) && Next(s, l).Some?
    ensures AllBalanced(Next(s, l).value, plans)
  {
    var s' := Next(s, l).value;
    assert |s'.tx| == |s.tx|;
    hide Next, Safe, Balanced;
    forall t | 0 <= t < |plans| ensures Balanced(s'.tx[t], plans[t]) {
      ActsInsideByte(s, t);
      if IsTxStep(l) && l.t == t {
        TxStepIs(s, l);
        TxStepKeepsBalanced(s.tx[t], l, plans[t]);
      } else {
        OtherStepKeepsBalanced(s, l, t, plans[t]);
      }
    }
  }

  ghost predicate Delivering(s: State, plans: seq<seq<Job>>) {
    Inv(s) && Routed(s) && AllBalanced(s, plans)
  }

  lemma InitialDelivers(plans: seq<seq<Job>>)
    requires Addressed(plans)
    ensures Delivering(Initial(plans), plans)
  {
    InitialIsInv(plans);
    InitialIsRouted(plans);
    InitialIsBalanced(plans);
  }

  lemma InitialIsRouted(plans: seq<seq<Job>>)
    ensures Routed(Initial(plans))
  {
    var s := Initial(plans);
    forall t, r | 0 <= t < |s.tx| && 0 <= r < |s.rx| ensures RoutedTo(s, t, r) {
      assert s.tx[t] == Start(plans[t]) && s.rx[r] == IDLE_RECEIVER;
    }
  }

  lemma InitialIsBalanced(plans: seq<seq<Job>>)
    ensures AllBalanced(Initial(plans), plans)
  {
    var s := Initial(plans);
    hide Balanced;
    forall t | 0 <= t < |plans| ensures Balanced(s.tx[t], plans[t]) {
      assert s.tx[t] == Start(plans[t]);
      StartIsBalanced(plans[t]);
    }
  }

  lemma StartIsBalanced(plan: seq<Job>)
    ensures Balanced(Start(plan), plan)
  {
    hide Bytes, Sent, Results, Answers;
    NothingAnswered(plan);
    NothingSent(plan);
    assert plan[0..] == plan;
    if plan != [] {
      NoBytes(plan[0]);
    }
  }

  lemma NothingAnswered(plan: seq<Job>)
    ensures Answers(Start(plan))
  {}

  lemma NoBytes(job: Job)
    ensures Bytes(job, 0) == []
  {}

  lemma NothingSent(jobs: seq<Job>)
    ensures Results(jobs, []) && Sent(jobs, []) == []
  {}

  lemma ReachableDelivering(plans: seq<seq<Job>>, ls: seq<Label>, s: State)
    requires Reaches(plans, ls, s)
    ensures Delivering(s, plans)
  {
    InitialDelivers(plans);
    hide Inv, Routed, AllBalanced, Safe, Next, Initial;
    var inv := s => Delivering(s, plans);
    forall s, l | inv(s) && Next(s, l).Some? ensures inv(Next(s, l).value) {
      assert Safe(s) by {
        InvIsSafe(s);
      }
      StepKeepsInv(s, l);
      StepKeepsRouted(s, l);
      StepKeepsBalanced(s, l, plans);
    }
    RunKeeps(Next, inv, Initial(plans), ls);
  }

  /** The symbols a receiver has been sent by transmitter t, read off its buffer. */
  ghost function Received(buffer: seq<Entry>, t: nat): seq<Symbol> {
    if buffer == [] then []
    else
      var n := |buffer| - 1;
      Received(buffer[..n], t) + if buffer[n].session.t == t then [Decoded(buffer[n].outcome)] else []
  }

  /** The symbols of the bytes addressed to r. */
  ghost function SymbolsTo(bytes: seq<(nat, Byte)>, r: nat): seq<Symbol> {
    if bytes == [] then []
    else
      var n := |bytes| - 1;
      SymbolsTo(bytes[..n], r) + if bytes[n].0 == r then [SymbolOf(bytes[n].1)] else []
  }

  /** Every publication is a faithful measurement of its session's circuit. */
  ghost predicate Faithful(published: seq<Entry>) {
    forall e :: e in published ==> Decoded(e.outcome) == SymbolOf(e.session.symbol)
  }

  ghost function SymbolsIn(sessions: seq<Session>): seq<Symbol> {
    seq(|sessions|, i requires 0 <= i < |sessions| => SymbolOf(sessions[i].symbol))
  }

  lemma {:induction false} ReceivedIsFrom(buffer: seq<Entry>, sessions: seq<Session>, t: nat)
    requires |buffer| == |sessions| && Faithful(buffer)
    requires forall i :: 0 <= i < |buffer| ==> buffer[i].session == sessions[i]
    ensures Received(buffer, t) == SymbolsIn(From(sessions, t))
  {
    if buffer != [] {
      var n := |buffer| - 1;
      ReceivedIsFrom(buffer[..n], sessions[..n], t);
      assert buffer[n] in buffer;
    }
  }

  lemma {:induction false} SymbolsOfTo(history: seq<(nat, Byte)>, t: nat, r: nat)
    ensures SymbolsIn(To(history, t, r)) == SymbolsTo(history, r)
  {
    if history != [] {
      SymbolsOfTo(history[..|history| - 1], t, r);
    }
  }

  lemma FinishedIsQuiet(s: State, r: nat)
    requires Inv(s) && Finished(s) && r < |s.rx|
    ensures !s.rx[r].shared.isReceiving && InFlight(s.rx[r]) == 0
    ensures s.rx[r].shared.buffer == s.rx[r].published && |s.rx[r].published| == |s.rx[r].sessions|
  {
    var y := s.rx[r];
    assert RxOk(s, r) && Logged(y);
    if y.server != Accepting {
      assert TxOk(s, y.server.session.t);
    }
  }

  lemma FinishedReceives(s: State, t: nat, r: nat)
    requires Inv(s) && Routed(s) && Finished(s) && t < |s.tx| && r < |s.rx|
    requires Faithful(s.rx[r].published)
    ensures Received(s.rx[r].shared.buffer, t) == SymbolsTo(s.tx[t].history, r)
  {
    FinishedIsQuiet(s, r);
    assert TxOk(s, t) && RoutedTo(s, t, r) && Logged(s.rx[r]);
    ReceivedIsFrom(s.rx[r].shared.buffer, s.rx[r].sessions, t);
    SymbolsOfTo(s.tx[t].history, t, r);
  }

  ghost predicate DeliveredAll(s: State, plans: seq<seq<Job>>, t: nat, r: nat) {
    && |s.tx| == |s.rx| == |plans| && t < |plans| && r < |plans|
    && Results(plans[t], s.tx[t].returned) && |s.tx[t].returned| == |plans[t]|
    && (Faithful(s.rx[r].published) ==>
          Received(s.rx[r].shared.buffer, t) == SymbolsTo(Sent(plans[t], s.tx[t].returned), r))
  }

  lemma FinishedDelivers(s: State, plans: seq<seq<Job>>, t: nat, r: nat)
    requires Delivering(s, plans) && Finished(s) && t < |plans| && r < |plans|
    ensures DeliveredAll(s, plans, t, r)
  {
    assert Balanced(s.tx[t], plans[t]);
    assert s.tx[t].history == Sent(plans[t], s.tx[t].returned);
    if Faithful(s.rx[r].published) {
      FinishedReceives(s, t, r);
    }
  }

  /** End to end: once all calls have returned, what receiver r holds from transmitter t
      decodes to exactly the symbols of the bytes t dispatched to r, in order -- whatever
      the interleaving, the plans and the dispatcher's errors, as long as the publications
      are faithful measurements. */
  lemma EndToEnd(plans: seq<seq<Job>>, ls: seq<Label>, s: State, t: nat, r: nat)
    requires Reaches(plans, ls, s) && Finished(s)
    requires t < |plans| && r < |plans|
    ensures DeliveredAll(s, plans, t, r)
  {
    ReachableDelivering(plans, ls, s);
    FinishedDelivers(s, plans, t, r);
  }

  /** The bytes of all calls. */
  ghost function AllBytes(jobs: seq<Job>): seq<(nat, Byte)> {
    if jobs == [] then []
    else
      var n := |jobs| - 1;
      AllBytes(jobs[..n]) + Bytes(jobs[n], |jobs[n].buf|)
  }

  /** If every call returned true, everything that was planned has been sent. */
  lemma {:induction false} SentAll(jobs: seq<Job>, results: seq<Result>)
    requires Results(jobs, results) && forall j :: 0 <= j < |results| ==> results[j].ok
    ensures Sent(jobs, results) == AllBytes(jobs[..|results|])
    decreases |results|
  {
    if results != [] {
      var n := |results| - 1;
      SentAll(jobs, results[..n]);
      assert jobs[..n + 1][..n] == jobs[..n];
    }
  }

  lemma {:induction false} OccurrencesFrom(sessions: seq<Session>, q: Session)
    ensures Occurrences(From(sessions, q.t), q) == Occurrences(sessions, q)
  {
    if sessions != [] {
      var n := |sessions| - 1;
      OccurrencesFrom(sessions[..n], q);
      var before := From(sessions[..n], q.t);
      if sessions[n].t == q.t {
        assert From(sessions, q.t) == before + [sessions[n]];
        OccurrencesSnoc(before, sessions[n], q);
      } else {
        assert From(sessions, q.t) == before;
      }
    }
  }

  lemma {:induction false} OccurrencesTo(history: seq<(nat, Byte)>, t: nat, r: nat, q: Session)
    ensures Occurrences(To(history, t, r), q) <= if q.k <= |history| then 1 else 0
  {
    if history != [] {
      var n := |history| - 1;
      OccurrencesTo(history[..n], t, r, q);
      var before := To(history[..n], t, r);
      OccurrencesSnoc(before, Session(t, n + 1, history[n].1), q);
      assert before + [] == before;
    }
  }

  /** No session is opened twice: with `BufferedOnce`, no session is measured twice. */
  lemma OpenedOnce(plans: seq<seq<Job>>, ls: seq<Label>, s: State, r: nat, q: Session)
    requires Reaches(plans, ls, s) && r < |s.rx| && q.t < |s.tx|
    ensures Occurrences(s.rx[r].sessions, q) <= 1
  {
    ReachableDelivering(plans, ls, s);
    assert RoutedTo(s, q.t, r);
    OccurrencesFrom(s.rx[r].sessions, q);
    OccurrencesTo(OpenedFor(s.tx[q.t], s.rx), q.t, r, q);
  }
}
