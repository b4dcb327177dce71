/** The receiving half of a transceiver: the two flags its request thread and its
    asynchronous thread share under `requestMutex`, and the buffer the latter pushes to. */
module Receiver {
  import opened Systems

  /** What the mutex protects. */
  datatype Shared<M> = Shared(isReceiving: bool, hasReceived: bool, buffer: seq<M>)

  /** The request thread need not sleep: either the request opens a session, or the
      measurement of the open session has arrived. */
  predicate MayFinish<M>(sh: Shared<M>) {
    sh.isReceiving ==> sh.hasReceived
  }

  /** The rest of `process` once it need not sleep: an open marks the unit as receiving, a
      close consumes the signal and marks it as free. */
  function Finish<M>(sh: Shared<M>): Shared<M> {
    if sh.isReceiving then sh.(hasReceived := false, isReceiving := false) else sh.(isReceiving := true)
  }

  /** The critical section of `async_work`; `None` is the exception that "should never
      happen". */
  function Deliver<M>(sh: Shared<M>, m: M): Option<Shared<M>> {
    if sh.isReceiving then Some(Shared(true, true, sh.buffer + [m])) else None
  }

  /** The first measurement among the wake-ups of a sleeping request thread. */
  function FirstArrival<M>(wakes: seq<Option<M>>): Option<M> {
    if wakes == [] then None else if wakes[0].Some? then wakes[0] else FirstArrival(wakes[1..])
  }

  /** The i-th wake-up is the first that brings a measurement. */
  ghost predicate IsFirstArrival<M>(wakes: seq<Option<M>>, i: nat) {
    i < |wakes| && wakes[i].Some? && forall j :: 0 <= j < i ==> wakes[j].None?
  }

  lemma {:induction false} FirstArrivalIs<M>(wakes: seq<Option<M>>)
    ensures if FirstArrival(wakes).Some?
            then exists i :: 0 <= i < |wakes| && IsFirstArrival(wakes, i) && wakes[i] == FirstArrival(wakes)
            else forall i :: 0 <= i < |wakes| ==> wakes[i].None?
  {
    if wakes != [] {
      FirstArrivalIs(wakes[1..]);
      if wakes[0].Some? {
        assert IsFirstArrival(wakes, 0);
      } else if FirstArrival(wakes).Some? {
        var i :| 0 <= i < |wakes| - 1 && IsFirstArrival(wakes[1..], i) && wakes[1..][i] == FirstArrival(wakes);
        assert forall j :: 1 <= j < i + 1 ==> wakes[j] == wakes[1..][j - 1];
        assert IsFirstArrival(wakes, i + 1);
      } else {
        assert forall j :: 1 <= j < |wakes| ==> wakes[j] == wakes[1..][j - 1];
      }
    }
  }

  /** What one request comes to: the state when it is answered, or `None` if the thread is
      still asleep after the given wake-ups. */
  function Served<M>(sh: Shared<M>, wakes: seq<Option<M>>): Option<Shared<M>> {
    var arrival := FirstArrival(wakes);
    if MayFinish(sh) then Some(Finish(sh))
    else if arrival.Some? then Some(Shared(false, false, sh.buffer + [arrival.value]))
    else None
  }

  class Transceiver<M> {
    var isReceiving: bool
    var hasReceived: bool
    var buffer: seq<M>

    constructor ()
      ensures View() == Shared(false, false, [])
    {
      isReceiving, hasReceived, buffer := false, false, [];
    }

    ghost function View(): Shared<M>
      reads this
    {
      Shared(isReceiving, hasReceived, buffer)
    }

    /** One call by the asynchronous thread: `received` is what the socket gave within its
        timeout, if anything. */
    method AsyncWork(received: Option<M>) returns (thrown: bool)
      modifies this
      ensures received.None? ==> !thrown && View() == old(View())
      ensures received.Some? ==>
                var after := Deliver(old(View()), received.value);
                thrown == after.None? && View() == if thrown then old(View()) else after.value
      ensures thrown <==> received.Some? && !old(isReceiving)
      ensures received.Some? && !thrown ==> isReceiving && hasReceived && buffer == old(buffer) + [received.value]
    {
      thrown := false;
      if received.Some? {
        if !isReceiving {
          return true;
        }
        buffer := buffer + [received.value];
        hasReceived := true;
      }
    }

    /** One request.  While the thread sleeps on the condition variable the mutex is free;
        `wakes` lists its wake-ups, each with the measurement the other thread delivered
        before it, if any.  `answered` is false if the thread is still asleep afterwards. */
    method Process(wakes: seq<Option<M>>) returns (answered: bool)
      modifies this
      ensures var served := Served(old(View()), wakes);
              answered == served.Some? && View() == if answered then served.value else old(View())
      ensures !old(isReceiving) ==>
                answered && isReceiving && hasReceived == old(hasReceived) && buffer == old(buffer)
      ensures old(isReceiving) && answered ==> !isReceiving && !hasReceived
      ensures old(isReceiving && hasReceived) ==> answered && buffer == old(buffer)
      ensures old(isReceiving && !hasReceived) ==>
                if answered
                then exists i :: 0 <= i < |wakes| && IsFirstArrival(wakes, i)
                                 && buffer == old(buffer) + [wakes[i].value]
                else forall i :: 0 <= i < |wakes| ==> wakes[i].None?
    {
      FirstArrivalIs(wakes);
      if isReceiving {
        var i := 0;
        while !hasReceived && i < |wakes|
          invariant 0 <= i <= |wakes| && isReceiving
          invariant old(hasReceived) ==> View() == old(View()) && i == 0
          invariant !hasReceived ==>
                      View() == old(View()) && FirstArrival(wakes) == FirstArrival(wakes[i..])
          invariant hasReceived && !old(hasReceived) ==>
                      var arrival := FirstArrival(wakes);
                      arrival.Some? && View() == Shared(true, true, old(buffer) + [arrival.value])
        {
          var thrown := AsyncWork(wakes[i]);
          assert wakes[i..][1..] == wakes[i + 1..];
          i := i + 1;
        }
        if !hasReceived {
          return false;
        }
        hasReceived := false;
      }
      isReceiving := !isReceiving;
      answered := true;
    }
  }

  // ---------- The request server ----------

  /** A request: what the asynchronous thread delivers before it is processed, if anything, and
      the wake-ups of its wait. */
  datatype Request<M> = Request(before: Option<M>, wakes: seq<Option<M>>)

  /** After one call of `async_work`; a refused measurement changes nothing. */
  function Arrived<M>(sh: Shared<M>, received: Option<M>): Shared<M> {
    if received.Some? && Deliver(sh, received.value).Some? then Deliver(sh, received.value).value else sh
  }

  /** A list of requests: the state after those that are answered, and their number.  A request
      that is not answered blocks the thread. */
  function ServedAll<M>(sh: Shared<M>, requests: seq<Request<M>>): (Shared<M>, nat)
    decreases |requests|
  {
    if requests == [] then (sh, 0)
    else
      var arrived := Arrived(sh, requests[0].before);
      match Served(arrived, requests[0].wakes)
      case None => (arrived, 0)
      case Some(sh') =>
        var (end, n) := ServedAll(sh', requests[1..]);
        (end, n + 1)
  }

  /** One request more: it is processed if and only if all before it were answered. */
  lemma {:induction false} ServedAllSnoc<M>(sh: Shared<M>, requests: seq<Request<M>>, r: Request<M>)
    ensures var (end, n) := ServedAll(sh, requests);
            var arrived := Arrived(end, r.before);
            var served := Served(arrived, r.wakes);
            n <= |requests|
            && ServedAll(sh, requests + [r]) ==
               if n < |requests| then (end, n)
               else if served.None? then (arrived, n)
               else (served.value, n + 1)
    decreases |requests|
  {
    hide FirstArrival, Served, Arrived;
    if requests == [] {
      assert ([r] + [])[1..] == [] && requests + [r] == [r] + [];
      assert forall sh' :: ServedAll<M>(sh', []) == (sh', 0);
    } else {
      assert (requests + [r])[1..] == requests[1..] + [r];
      var served := Served(Arrived(sh, requests[0].before), requests[0].wakes);
      if served.Some? {
        ServedAllSnoc(served.value, requests[1..], r);
      }
    }
  }

  /** The server: one session object waits for the next client, and is deleted when the
      client it has served disconnects. */
  class RequestServer<M> {
    const receiver: Transceiver<M>
    var lastUnusedSession: Option<nat>
    var sessions: set<nat>
    var nextSession: nat
    var replies: nat

    ghost predicate Valid()
      reads this
    {
      lastUnusedSession.Some? && lastUnusedSession.value < nextSession && sessions == {lastUnusedSession.value}
    }

    constructor (receiver: Transceiver<M>)
      ensures Valid() && this.receiver == receiver && replies == 0
    {
      this.receiver := receiver;
      lastUnusedSession, sessions, nextSession, replies := Some(0), {0}, 1, 0;
    }

    method Accept()
      modifies this
      ensures lastUnusedSession == Some(old(nextSession)) && sessions == old(sessions) + {old(nextSession)}
      ensures nextSession == old(nextSession) + 1 && replies == old(replies)
    {
      sessions := sessions + {nextSession};
      lastUnusedSession := Some(nextSession);
      nextSession := nextSession + 1;
    }

    /** Read a request, process it, write the reply, and repeat until the client disconnects
        after the given requests; the asynchronous thread works in between.  `blocked`: a request was never answered. */
    method RunSession(session: nat, requests: seq<Request<M>>) returns (blocked: bool)
      modifies this, receiver
      ensures var (end, n) := ServedAll(old(receiver.View()), requests);
              receiver.View() == end && replies == old(replies) + n && blocked == (n < |requests|)
      ensures lastUnusedSession == old(lastUnusedSession) && nextSession == old(nextSession)
      ensures sessions == if blocked then old(sessions) else old(sessions) - {session}
    {
      var i := 0;
      while i < |requests|
        invariant 0 <= i <= |requests| && replies == old(replies) + i
        invariant var (end, n) := ServedAll(old(receiver.View()), requests);
                  var (end', n') := ServedAll(receiver.View(), requests[i..]);
                  end == end' && n == n' + i
        invariant lastUnusedSession == old(lastUnusedSession) && nextSession == old(nextSession)
        invariant sessions == old(sessions)
      {
        var thrown := receiver.AsyncWork(requests[i].before);
        var answered := receiver.Process(requests[i].wakes);
        assert requests[i..][1..] == requests[i + 1..];
        if !answered {
          return true;
        }
        replies := replies + 1;
        i := i + 1;
      }
      sessions := sessions - {session};
      blocked := false;
    }

    /** The handler of an accepted client: the next one is accepted only after its session. */
    method Handle(requests: seq<Request<M>>) returns (blocked: bool)
      requires Valid()
      modifies this, receiver
      ensures var (end, n) := ServedAll(old(receiver.View()), requests);
              receiver.View() == end && replies == old(replies) + n && blocked == (n < |requests|)
      ensures blocked ==> lastUnusedSession.None? && nextSession == old(nextSession) && sessions == old(sessions)
      ensures !blocked ==> Valid() && lastUnusedSession == Some(old(nextSession)) && nextSession == old(nextSession) + 1
    {
      var session := lastUnusedSession.value;
      lastUnusedSession := None;
      blocked := RunSession(session, requests);
      if !blocked {
        assert sessions == {};
        Accept();
      }
    }
  }

  /** A session whose measurement is delivered between the open and the close request, or to
      the sleeping close request. */
  datatype Visit<M> = Visit(between: Option<M>, close: seq<Option<M>>)

  predicate Measured<M>(v: Visit<M>) { v.between.Some? || FirstArrival(v.close).Some? }

  function Measurement<M>(v: Visit<M>): M
    requires Measured(v)
  {
    if v.between.Some? then v.between.value else FirstArrival(v.close).value
  }

  /** The clients of a list of sessions: an open and a close request each. */
  function Requests<M>(visits: seq<Visit<M>>): seq<Request<M>> {
    if visits == [] then []
    else [Request(None, []), Request(visits[0].between, visits[0].close)] + Requests(visits[1..])
  }

  function Measurements<M>(visits: seq<Visit<M>>): seq<M>
    requires forall v :: v in visits ==> Measured(v)
  {
    if visits == [] then [] else [Measurement(visits[0])] + Measurements(visits[1..])
  }

  lemma VisitMeasures<M>(sh: Shared<M>, v: Visit<M>, rest: seq<Request<M>>)
    requires !sh.isReceiving && !sh.hasReceived && Measured(v)
    ensures var sh' := Shared(false, false, sh.buffer + [Measurement(v)]);
            var (end, n) := ServedAll(sh', rest);
            ServedAll(sh, [Request(None, []), Request(v.between, v.close)] + rest) == (end, n + 2)
  {
    var open: Request<M> := Request(None, []);
    var close := Request(v.between, v.close);
    var requests := [open, close] + rest;
    assert requests[1..] == [close] + rest && ([close] + rest)[1..] == rest;
    hide FirstArrival;
    var sh1 := Finish(sh);
    assert Served(Arrived(sh, None), []) == Some(sh1);
    var sh2 := Served(Arrived(sh1, v.between), v.close).value;
    assert sh2 == Shared(false, false, sh.buffer + [Measurement(v)]);
    var (end, n) := ServedAll(sh2, rest);
    assert ServedAll(sh1, [close] + rest) == (end, n + 1);
  }

  /** A free receiver that serves sessions one after the other, each with one measurement that
      arrives before or during its close, is free and without a signal at the end, has answered
      every request, and has buffered the measurement of each session, in order. */
  lemma {:induction false} SessionsMeasure<M>(sh: Shared<M>, visits: seq<Visit<M>>)
    requires !sh.isReceiving && !sh.hasReceived
    requires forall v :: v in visits ==> Measured(v)
    ensures ServedAll(sh, Requests(visits)) ==
            (Shared(false, false, sh.buffer + Measurements(visits)), 2 * |visits|)
    decreases |visits|
  {
    if visits == [] {
      assert sh.buffer + [] == sh.buffer;
    } else {
      hide ServedAll, FirstArrival, Served, Measured, Measurement;
      var m := Measurement(visits[0]);
      VisitMeasures(sh, visits[0], Requests(visits[1..]));
      SessionsMeasure(Shared(false, false, sh.buffer + [m]), visits[1..]);
      assert sh.buffer + [m] + Measurements(visits[1..]) == sh.buffer + Measurements(visits);
    }
  }
}
