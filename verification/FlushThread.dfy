/** The flush thread as the program it is, and the run of the step system it makes. */
module FlushThread {
  import opened Systems
  import opened QueueBuffers
  import opened FlushLoop

  /** What the other threads do between two steps: push items, and perhaps request the exit. */
  datatype Others<T> = Others(items: seq<T>, exit: bool)

  /** What they do during one turn of the loop: before the wait, at wake-ups during it and
      before its timeout, before `pop_all`, before each send and before the end of the turn. */
  datatype Turn<T> = Turn(
    before: Others<T>, wakes: seq<Wake<T>>, last: seq<T>, late: Others<T>, sends: seq<Others<T>>, after: Others<T>)

  /** The exit is requested during the turn. */
  predicate Exits<T>(turn: Turn<T>) {
    turn.before.exit || turn.late.exit || turn.after.exit || exists i :: 0 <= i < |turn.sends| && turn.sends[i].exit
  }

  /** The run `trace` ends in `end`, which is where the program is after `waits` waits. */
  ghost predicate Mirrors<T>(
      start: State<T>, trace: seq<Label<T>>, end: State<T>,
      view: Buffer<T>, pc: Pc, failCount: nat, local: seq<T>, sent: seq<T>, doExit: bool, waits: nat)
  {
    && Run(Next, start, trace) == Some(end)
    && end.buffer == view && view.threshold == WAIT_COUNT
    && end.pc == pc && end.failCount == failCount && end.local == local && end.sent == sent && end.exiting == doExit
    && Waits(end.log) == waits
  }

  /** `asyncBuffer` is already set up by the module; the exit is requested after the given
      turns, if not during one of them.  `trace` and `end` are the run of the step system.
      The loop takes one turn after the other until the exit is requested, each with one
      wait; what has been sent and what is still queued is everything that was ever pushed,
      once, in order. */
  method AsyncWork<T(!new)>(asyncBuffer: QueueBuffer<T>, turns: seq<Turn<T>>)
    returns (sent: seq<T>, n: nat, ghost trace: seq<Label<T>>, ghost end: State<T>)
    requires asyncBuffer.View() == Buffer(asyncBuffer.queue, false, 0, 0)
    requires forall i :: 0 <= i < |turns| ==> TotalDelay(turns[i].wakes) <= WAIT_MS
    modifies asyncBuffer
    ensures Run(Next, Start(old(asyncBuffer.queue)), trace) == Some(end)
    ensures end.pc == Done && end.sent == sent && end.local == [] && end.buffer == asyncBuffer.View()
    ensures sent + asyncBuffer.queue == old(asyncBuffer.queue) + PushesIn(trace)
    ensures n <= |turns| && Waits(end.log) == n && (n < |turns| ==> n > 0 && Exits(turns[n - 1]))
    ensures n < |turns| ==>
              var turn := turns[n - 1];
              turn.before.exit || turn.late.exit || turn.after.exit
              || exists i :: 0 <= i < |turn.sends| && turn.sends[i].exit
    ensures asyncBuffer.pushWaitEnabled && asyncBuffer.pushWaitThreshold == 100
  {
    sent := [];
    ghost var start := Start(asyncBuffer.queue);
    asyncBuffer.SetPushWaitThreshold(WAIT_COUNT);
    var failCount, doExit := 0, false;
    n := 0;
    StartLog(|asyncBuffer.queue|);
    RunOne(Next, start, Configure);
    trace, end := [Configure], Next(start, Configure).value;
    hide SinceOk, Backlog, Waits, PushedAll, PushesIn, Run, Next, Exits, TotalDelay;

    while !doExit && n < |turns|
      invariant 0 <= n <= |turns| && failCount < WAIT_FAIL
      invariant Mirrors(start, trace, end, asyncBuffer.View(), Head, failCount, [], sent, doExit, n)
      invariant doExit ==> n > 0 && Exits(turns[n - 1])
    {
      var ok: bool;
      ok, doExit, trace, end := Wait(start, trace, end, asyncBuffer, turns[n], failCount, sent, n);
      if !ok {
        failCount := failCount + 1;
      }
      if ok || failCount == WAIT_FAIL {
        failCount := 0;
        sent, doExit, trace, end := Flush(start, trace, end, asyncBuffer, turns[n], sent, doExit, n + 1);
      }
      n := n + 1;
    }
    trace, end := Finish(start, trace, end);
    EverythingOnce(old(asyncBuffer.queue), trace, end);
    if n < |turns| {
      ExitIs(turns[n - 1]);
    }
  }

  lemma ExitIs<T>(turn: Turn<T>)
    requires Exits(turn)
    ensures turn.before.exit || turn.late.exit || turn.after.exit
            || exists i :: 0 <= i < |turn.sends| && turn.sends[i].exit
  {}

  /** The loop condition finds the request to exit. */
  ghost method Finish<T>(start: State<T>, trace: seq<Label<T>>, end: State<T>)
    returns (trace': seq<Label<T>>, end': State<T>)
    requires Run(Next, start, trace) == Some(end) && end.pc == Head
    ensures Run(Next, start, trace') == Some(end') && end' == end.(exiting := true, pc := Done)
  {
    trace', end' := Step(start, trace, end, RequestExit);
    trace', end' := Step(start, trace', end', Check);
  }

  lemma EverythingOnce<T(!new)>(queue: seq<T>, trace: seq<Label<T>>, end: State<T>)
    requires Run(Next, Start(queue), trace) == Some(end) && end.pc == Done
    ensures end.sent + end.buffer.queue == queue + PushesIn(trace)
    ensures end.buffer.enabled && end.buffer.threshold == 100
  {
    ReachableGood(queue, trace, end);
    PushedIsHistory(Start(queue), trace);
    assert end.sent + end.local == end.sent;
  }

  /** The wait at the head of the loop. */
  method Wait<T>(ghost start: State<T>, ghost trace: seq<Label<T>>, ghost end: State<T>,
                 asyncBuffer: QueueBuffer<T>, turn: Turn<T>, ghost failCount: nat, ghost sent: seq<T>,
                 ghost waits: nat)
    returns (ok: bool, doExit: bool, ghost trace': seq<Label<T>>, ghost end': State<T>)
    requires TotalDelay(turn.wakes) <= WAIT_MS && failCount < WAIT_FAIL
    requires Mirrors(start, trace, end, asyncBuffer.View(), Head, failCount, [], sent, false, waits)
    modifies asyncBuffer
    ensures var pop := ok || failCount + 1 == WAIT_FAIL;
            Mirrors(start, trace', end', asyncBuffer.View(), if pop then BeforePop else Head,
                    if pop then 0 else failCount + 1, [], sent, doExit, waits + 1)
    ensures doExit ==> turn.before.exit
  {
    trace', end' := Step(start, trace, end, Check);
    doExit, trace', end' := StepOthers(start, trace', end', asyncBuffer, turn.before, false);
    ghost var ls, s := WaitRun(end', turn.wakes, turn.last);
    trace', end' := Steps(start, trace', end', ls, s);
    ok := asyncBuffer.PushWait(WAIT_MS, turn.wakes, turn.last);
  }

  /** Take everything that is queued and hand it on. */
  method Flush<T>(ghost start: State<T>, ghost trace: seq<Label<T>>, ghost end: State<T>,
                  asyncBuffer: QueueBuffer<T>, turn: Turn<T>, sent: seq<T>, exit: bool, ghost waits: nat)
    returns (sent': seq<T>, doExit: bool, ghost trace': seq<Label<T>>, ghost end': State<T>)
    requires Mirrors(start, trace, end, asyncBuffer.View(), BeforePop, 0, [], sent, exit, waits)
    modifies asyncBuffer
    ensures Mirrors(start, trace', end', asyncBuffer.View(), Head, 0, [], sent', doExit, waits)
    ensures sent + old(asyncBuffer.queue) + turn.late.items == sent'
    ensures doExit ==> exit || Exits(turn)
  {
    hide SinceOk, Backlog, Waits, Run;
    doExit, trace', end' := StepOthers(start, trace, end, asyncBuffer, turn.late, exit);
    PushedAllIs(end.buffer, turn.late.items);
    LogSnoc(end'.log, PoppedAll);
    var localBuffer := asyncBuffer.PopAll();
    trace', end' := Step(start, trace', end', PopAll);
    sent', doExit, trace', end' := Drain(start, trace', end', asyncBuffer, turn, localBuffer, sent, doExit, waits);
  }

  /** Hand on the local batch, front first. */
  method Drain<T>(ghost start: State<T>, ghost trace: seq<Label<T>>, ghost end: State<T>,
                  asyncBuffer: QueueBuffer<T>, turn: Turn<T>, batch: seq<T>, sent: seq<T>, exit: bool,
                  ghost waits: nat)
    returns (sent': seq<T>, doExit: bool, ghost trace': seq<Label<T>>, ghost end': State<T>)
    requires Mirrors(start, trace, end, asyncBuffer.View(), Draining, 0, batch, sent, exit, waits)
    modifies asyncBuffer
    ensures sent' == sent + batch
    ensures Mirrors(start, trace', end', asyncBuffer.View(), Head, 0, [], sent', doExit, waits)
    ensures doExit ==> exit || Exits(turn)
  {
    var localBuffer := batch;
    sent', doExit, trace', end' := sent, exit, trace, end;
    while |localBuffer| != 0
      invariant |localBuffer| <= |batch|
      invariant sent' + localBuffer == sent + batch
      invariant Mirrors(start, trace', end', asyncBuffer.View(), Draining, 0, localBuffer, sent', doExit, waits)
      invariant doExit ==> exit || Exits(turn)
    {
      var i := |batch| - |localBuffer|;
      if i < |turn.sends| {
        doExit, trace', end' := StepOthers(start, trace', end', asyncBuffer, turn.sends[i], doExit);
      }
      var rspns := localBuffer[0];
      localBuffer := localBuffer[1..];
      sent' := sent' + [rspns];
      trace', end' := Step(start, trace', end', Send);
    }
    doExit, trace', end' := StepOthers(start, trace', end', asyncBuffer, turn.after, doExit);
    trace', end' := Step(start, trace', end', Drained);
  }

  ghost method Step<T>(start: State<T>, trace: seq<Label<T>>, end: State<T>, l: Label<T>)
    returns (trace': seq<Label<T>>, end': State<T>)
    requires Run(Next, start, trace) == Some(end) && Next(end, l).Some?
    ensures trace' == trace + [l] && Some(end') == Next(end, l)
    ensures Run(Next, start, trace') == Some(end')
  {
    RunSnoc(Next, start, trace, l);
    trace', end' := trace + [l], Next(end, l).value;
  }

  ghost method Steps<T>(start: State<T>, trace: seq<Label<T>>, end: State<T>, ls: seq<Label<T>>, s: State<T>)
    returns (trace': seq<Label<T>>, end': State<T>)
    requires Run(Next, start, trace) == Some(end) && Run(Next, end, ls) == Some(s)
    ensures trace' == trace + ls && end' == s && Run(Next, start, trace') == Some(s)
  {
    RunAppend(Next, start, trace, ls);
    trace', end' := trace + ls, s;
  }

  /** Other threads push and request the exit, in the program and in the step system. */
  method StepOthers<T>(ghost start: State<T>, ghost trace: seq<Label<T>>, ghost end: State<T>,
                       asyncBuffer: QueueBuffer<T>, others: Others<T>, exit: bool)
    returns (doExit: bool, ghost trace': seq<Label<T>>, ghost end': State<T>)
    requires Run(Next, start, trace) == Some(end) && end.buffer == asyncBuffer.View() && end.exiting == exit
    modifies asyncBuffer
    ensures doExit == (exit || others.exit)
    ensures Run(Next, start, trace') == Some(end') && end'.buffer == asyncBuffer.View()
    ensures end'.buffer == PushedAll(end.buffer, others.items)
    ensures end' == end.(buffer := end'.buffer, pushed := end'.pushed, log := end'.log, exiting := doExit)
    ensures end'.buffer.threshold == end.buffer.threshold && Waits(end'.log) == Waits(end.log)
  {
    asyncBuffer.PushOthers(others.items);
    ghost var ls, s := PushesRun(end, others.items);
    trace', end' := Steps(start, trace, end, ls, s);
    doExit := exit;
    if others.exit {
      doExit := true;
      trace', end' := Step(start, trace', end', RequestExit);
    }
  }

  /** The steps of one call of `push_wait` end with the buffer and the verdict its
      specification gives. */
  lemma WaitRun<T>(s: State<T>, wakes: seq<Wake<T>>, last: seq<T>)
    returns (ls: seq<Label<T>>, s': State<T>)
    requires s.pc == BeforeWait && TotalDelay(wakes) <= WAIT_MS
    ensures Run(Next, s, ls) == Some(s')
    ensures var r := AfterWait(s.buffer, wakes, last);
            s'.buffer == r.0 && Ended(s, s', r.1)
    ensures s'.buffer.threshold == s.buffer.threshold
  {
    hide SinceOk, Backlog, Waits, PushedAll;
    RunOne(Next, s, StartWait);
    s' := Next(s, StartWait).value;
    ls := [StartWait];
    if Full(s.buffer) || Enough(s.buffer) {
      LogSnoc(s.log, WaitOk);
    } else {
      var ks, s'' := SleepRun(s', wakes, last);
      hide Waited;
      RunAppend(Next, s, ls, ks);
      ls, s' := ls + ks, s'';
    }
  }

  ghost predicate Ended<T>(s: State<T>, s': State<T>, ok: bool) {
    && Waits(s'.log) == Waits(s.log) + 1
    && s'.exiting == s.exiting && s'.local == s.local && s'.sent == s.sent
    && s'.failCount == (if ok || s.failCount + 1 == WAIT_FAIL then 0 else s.failCount + 1)
    && s'.pc == (if ok || s.failCount + 1 == WAIT_FAIL then BeforePop else Head)
  }

  lemma {:induction false} SleepRun<T>(s: State<T>, wakes: seq<Wake<T>>, last: seq<T>)
    returns (ls: seq<Label<T>>, s': State<T>)
    requires s.pc.Sleeping? && !Enough(s.buffer) && s.pc.elapsed + TotalDelay(wakes) <= WAIT_MS
    ensures Run(Next, s, ls) == Some(s')
    ensures var r := Waited(s.buffer, wakes, last); s'.buffer == r.0 && Ended(s, s', r.1)
    ensures s'.buffer.threshold == s.buffer.threshold
    decreases |wakes|
  {
    var l, s1;
    if wakes == [] {
      l := Timeout;
      ls, s1 := PushesRun(s, last);
    } else {
      l := WakeUp(wakes[0].delay);
      ls, s1 := PushesRun(s, wakes[0].pushes);
    }
    RunSnoc(Next, s, ls, l);
    ls, s' := ls + [l], Next(s1, l).value;
    if wakes == [] || Enough(s1.buffer) {
      LogSnoc(s1.log, if Enough(s1.buffer) then WaitOk else WaitFailed);
    } else {
      var ks, s'' := SleepRun(s', wakes[1..], last);
      RunAppend(Next, s, ls, ks);
      ls, s' := ls + ks, s'';
    }
  }

  lemma PushesRun<T>(s: State<T>, items: seq<T>) returns (ls: seq<Label<T>>, s': State<T>)
    ensures Run(Next, s, ls) == Some(s')
    ensures s'.buffer == PushedAll(s.buffer, items) && s'.buffer.threshold == s.buffer.threshold
    ensures s' == s.(buffer := s'.buffer, pushed := s'.pushed, log := s'.log) && Waits(s'.log) == Waits(s.log)
  {
    ls := seq(|items|, i requires 0 <= i < |items| => Push(items[i]));
    RunPushes(s, items);
    PushedAllIs(s.buffer, items);
    s' := Run(Next, s, ls).value;
  }
}
