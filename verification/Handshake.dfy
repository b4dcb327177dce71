/** The communication protocol of the transceivers.

    Every node is a transmitter (the thread that runs `transmit`), a request server (one
    thread that accepts one session at a time and calls `process` per request) and a
    receiver (the asynchronous thread that takes publications off its subscription).  A
    dispatcher answers each "tx" call once and owes it one publication, delivered to the
    node the caller has its session open with.

    A step is one atomic action of one thread: a message read or written, or one critical
    section of `requestMutex`. */
module Handshake {
  import opened Systems
  import opened Symbols
  import opened Receiver

  /** One call of `transmit`. */
  datatype Job = Job(dest: nat, buf: seq<Byte>)

  /** What a call of `transmit` returned, and for every circuit it dispatched whether the
      dispatcher's answer was an error. */
  datatype Result = Result(ok: bool, errors: seq<bool>)

  /** The k-th connection of transmitter t; `symbol` is the byte it is opened for. */
  datatype Session = Session(t: nat, k: nat, symbol: Byte)

  /** A published measurement, tagged with the session whose circuit was measured. */
  datatype Entry = Entry(session: Session, outcome: Outcome)

  /** Where a transmitter is in the body of its symbol loop. */
  datatype TxPc =
    | Ready
    | Connected
    | OpenSent
    | Opened
    | Called
    | Answered(error: bool)
    | CloseSent(error: bool)
    | Closed(error: bool)

  /** A transmitter: remaining calls, position in the first one, number of connections made,
      whether the current one has been accepted, a request or reply in the connection, and
      whether the dispatcher still owes the publication of the last call.  `errors`, `returned`
      and `history` only record: the dispatcher's answers to the current call, the results of
      finished calls, and the destination of every byte a connection was made for. */
  datatype Tx = Tx(
    jobs: seq<Job>, i: nat, pc: TxPc, k: nat, accepted: bool,
    request: bool, reply: bool, owed: bool,
    errors: seq<bool>, returned: seq<Result>, history: seq<(nat, Byte)>)

  datatype ServerPc =
    | Accepting
    | Reading(session: Session)
    | Processing(session: Session)
    | Asleep(session: Session, woken: bool)
    | Replying(session: Session)

  datatype AsyncPc = Idle | Holding(entry: Entry) | Notifying | Thrown

  /** A receiver: its request server, its asynchronous thread, the state they share and the
      publications waiting in the subscription socket.  `sessions`, `closed` and `published`
      only record: the sessions opened, the number of sessions closed, and the publications
      made to this node. */
  datatype Rx = Rx(
    server: ServerPc, async: AsyncPc, shared: Shared<Entry>, socket: seq<Entry>,
    sessions: seq<Session>, closed: nat, published: seq<Entry>)

  datatype State = State(tx: seq<Tx>, rx: seq<Rx>)

  datatype Label =
    // the transmitting thread of node t
    | Connect(t: nat)
    | WriteOpen(t: nat)
    | ReadReply(t: nat)
    | Call(t: nat)
    | WriteClose(t: nat)
    | Disconnect(t: nat)
    | Return(t: nat)
    // the dispatcher
    | Answer(t: nat, error: bool)
    | Publish(t: nat, outcome: Outcome)
    // the request server of node r
    | Accept(r: nat, t: nat)
    | ReadRequest(r: nat)
    | HangUp(r: nat)
    | Enter(r: nat)
    | Wake(r: nat)
    | SpuriousWake(r: nat)
    | Reply(r: nat)
    // the asynchronous thread of node r
    | Receive(r: nat)
    | Critical(r: nat)
    | Notify(r: nat)

  function Start(jobs: seq<Job>): Tx {
    Tx(jobs, 0, Ready, 0, false, false, false, false, [], [], [])
  }

  const IDLE_RECEIVER := Rx(Accepting, Idle, Shared(false, false, []), [], [], 0, [])

  /** One transmitter and one receiver per node. */
  function Initial(plans: seq<seq<Job>>): State {
    State(seq(|plans|, t requires 0 <= t < |plans| => Start(plans[t])), seq(|plans|, _ => IDLE_RECEIVER))
  }

  /** Every call of `transmit` addresses an existing node. */
  predicate Addressed(plans: seq<seq<Job>>) {
    forall t, j :: 0 <= t < |plans| && 0 <= j < |plans[t]| ==> plans[t][j].dest < |plans|
  }

  /** There is a byte left in the current call. */
  predicate HasByte(x: Tx) {
    x.jobs != [] && x.i < |x.jobs[0].buf|
  }

  function Current(x: Tx, t: nat): Session
    requires HasByte(x)
  {
    Session(t, x.k, x.jobs[0].buf[x.i])
  }

  /** The transmitter of session q still holds that connection. */
  predicate Connects(x: Tx, q: Session) {
    x.pc != Ready && x.k == q.k
  }

  function SetTx(s: State, t: nat, x: Tx): State
    requires t < |s.tx|
  {
    s.(tx := s.tx[t := x])
  }

  function SetRx(s: State, r: nat, y: Rx): State
    requires r < |s.rx|
  {
    s.(rx := s.rx[r := y])
  }

  /** After a session: go on with the next byte, or return false after an error. */
  function AfterSession(x: Tx, error: bool): Tx
    requires x.jobs != []
  {
    var y := x.(pc := Ready, accepted := false);
    if error
    then y.(jobs := x.jobs[1..], i := 0, errors := [], returned := x.returned + [Result(false, x.errors)])
    else y.(i := x.i + 1)
  }

  /** The steps of a transmitting thread. */
  function NextTx(x: Tx, l: Label): Option<Tx> {
    match l
    case Connect(_) =>
      if x.pc == Ready && HasByte(x)
      then Some(x.(pc := Connected, k := x.k + 1, accepted := false,
                   history := x.history + [(x.jobs[0].dest, x.jobs[0].buf[x.i])]))
      else None
    case WriteOpen(_) =>
      if x.pc == Connected then Some(x.(pc := OpenSent, request := true)) else None
    case ReadReply(_) =>
      if !x.reply then None
      else if x.pc == OpenSent then Some(x.(pc := Opened, reply := false))
      else if x.pc.CloseSent? then Some(x.(pc := Closed(x.pc.error), reply := false))
      else None
    case Call(_) =>
      if x.pc == Opened then Some(x.(pc := Called, owed := true)) else None
    case Answer(_, error) =>
      if x.pc == Called then Some(x.(pc := Answered(error), errors := x.errors + [error])) else None
    case WriteClose(_) =>
      if x.pc.Answered? then Some(x.(pc := CloseSent(x.pc.error), request := true)) else None
    case Disconnect(_) =>
      if x.pc.Closed? && x.jobs != [] then Some(AfterSession(x, x.pc.error)) else None
    case Return(_) =>
      if x.pc == Ready && x.jobs != [] && !HasByte(x)
      then Some(x.(jobs := x.jobs[1..], i := 0, errors := [], returned := x.returned + [Result(true, x.errors)]))
      else None
    case _ => None
  }

  /** `process` from the point where it holds the mutex: it runs to its end, or sleeps. */
  function Proceed(y: Rx, q: Session): Rx {
    if !MayFinish(y.shared) then y.(server := Asleep(q, false))
    else if y.shared.isReceiving then
      y.(server := Replying(q), shared := Finish(y.shared), closed := y.closed + 1)
    else y.(server := Replying(q), shared := Finish(y.shared), sessions := y.sessions + [q])
  }

  /** The steps of a receiver that touch nothing outside its node. */
  function NextRx(y: Rx, l: Label): Option<Rx> {
    match l
    case Enter(_) =>
      if y.server.Processing? then Some(Proceed(y, y.server.session)) else None
    case Wake(_) =>
      if y.server.Asleep? && y.server.woken then Some(Proceed(y, y.server.session)) else None
    case SpuriousWake(_) =>
      // a wake-up without a signal to find only puts the thread back to sleep
      if y.server.Asleep? && MayFinish(y.shared) then Some(Proceed(y, y.server.session)) else None
    case Receive(_) =>
      if y.async == Idle && y.socket != []
      then Some(y.(async := Holding(y.socket[0]), socket := y.socket[1..])) else None
    case Critical(_) =>
      if !y.async.Holding? then None
      else
        (match Deliver(y.shared, y.async.entry)
         case None => Some(y.(async := Thrown))
         case Some(sh) => Some(y.(async := Notifying, shared := sh)))
    case Notify(_) =>
      if y.async == Notifying
      then Some(y.(async := Idle, server := if y.server.Asleep? then y.server.(woken := true) else y.server))
      else None
    case _ => None
  }

  /** The request server of r and the connection of its session. */
  function NextSession(s: State, r: nat, l: Label): Option<State>
    requires r < |s.rx|
  {
    var y := s.rx[r];
    match l
    case Accept(_, t) =>
      if y.server == Accepting && t < |s.tx| && s.tx[t].pc != Ready && !s.tx[t].accepted
         && HasByte(s.tx[t]) && s.tx[t].jobs[0].dest == r
      then Some(SetRx(SetTx(s, t, s.tx[t].(accepted := true)), r,
                      y.(server := Reading(Current(s.tx[t], t)))))
      else None
    case ReadRequest(_) =>
      if y.server.Reading? && y.server.session.t < |s.tx|
         && Connects(s.tx[y.server.session.t], y.server.session) && s.tx[y.server.session.t].request
      then Some(SetRx(SetTx(s, y.server.session.t, s.tx[y.server.session.t].(request := false)), r,
                      y.(server := Processing(y.server.session))))
      else None
    case HangUp(_) =>
      if y.server.Reading? && y.server.session.t < |s.tx|
         && !Connects(s.tx[y.server.session.t], y.server.session)
      then Some(SetRx(s, r, y.(server := Accepting)))
      else None
    case Reply(_) =>
      if y.server.Replying? && y.server.session.t < |s.tx|
      then Some(SetRx(SetTx(s, y.server.session.t, s.tx[y.server.session.t].(reply := true)), r,
                      y.(server := Reading(y.server.session))))
      else None
    case _ => None
  }

  /** The dispatcher makes the publication it owes the last call of t. */
  function NextPublish(s: State, t: nat, outcome: Outcome): Option<State>
    requires t < |s.tx|
  {
    var x := s.tx[t];
    if x.owed && HasByte(x) && x.jobs[0].dest < |s.rx| then
      var y := s.rx[x.jobs[0].dest];
      var e := Entry(Current(x, t), outcome);
      Some(SetRx(SetTx(s, t, x.(owed := false)), x.jobs[0].dest,
                 y.(socket := y.socket + [e], published := y.published + [e])))
    else None
  }

  function Next(s: State, l: Label): Option<State> {
    match l
    case Publish(t, outcome) =>
      if t < |s.tx| then NextPublish(s, t, outcome) else None
    case Accept(r, _) => if r < |s.rx| then NextSession(s, r, l) else None
    case ReadRequest(r) => if r < |s.rx| then NextSession(s, r, l) else None
    case HangUp(r) => if r < |s.rx| then NextSession(s, r, l) else None
    case Reply(r) => if r < |s.rx| then NextSession(s, r, l) else None
    case Enter(r) => NextLocal(s, r, l)
    case Wake(r) => NextLocal(s, r, l)
    case SpuriousWake(r) => NextLocal(s, r, l)
    case Receive(r) => NextLocal(s, r, l)
    case Critical(r) => NextLocal(s, r, l)
    case Notify(r) => NextLocal(s, r, l)
    case _ =>
      if l.t < |s.tx| then
        (match NextTx(s.tx[l.t], l)
         case None => None
         case Some(x) => Some(SetTx(s, l.t, x)))
      else None
  }

  function NextLocal(s: State, r: nat, l: Label): Option<State> {
    if r < |s.rx| then
      (match NextRx(s.rx[r], l)
       case None => None
       case Some(y) => Some(SetRx(s, r, y)))
    else None
  }

  /** The state after a run of nodes with these plans. */
  ghost predicate Reaches(plans: seq<seq<Job>>, ls: seq<Label>, s: State) {
    Addressed(plans) && Run(Next, Initial(plans), ls) == Some(s)
  }

  /** All calls of `transmit` have returned. */
  predicate Finished(s: State) {
    forall t :: 0 <= t < |s.tx| ==> s.tx[t].jobs == []
  }
}
