# A verified model of armish-fireplace

armish-fireplace is a middleware container for quantum links: a client hands it requests and
pushes, a module with one loaded processing unit carries them out, and what the link measures
flows back to the client through a multithreaded buffer. This project models its concurrent
components, states what each promises, and proves it for every input, every run and every
interleaving.

## How the model is built

* **Step systems.** A concurrent component is a partial function `Next(state, label)`; the label
  says which thread takes which atomic step, and a run is a sequence of labels (`Systems`).
  "In every interleaving" is "for every sequence of labels that can be taken". A step is one
  message read or written, one access to shared memory, or one whole critical section of a mutex.
  A sleeping thread carries a flag that a notification sets; a wake-up without a notification is a
  step of its own wherever it can change anything.
* **Objects.** What the program does with objects, fields, arrays and loops is modelled by classes
  and methods whose contracts tie the new state to the functions the step systems use. What other
  threads, the dispatcher, the clock or a socket contribute is a parameter.
* **Constants** are the program's: 100 items, 300 ms and 4 failures for the flush loop, 4 header
  bytes, the action codes 1, 2, 4 and 8, the circuit texts.

| module | models |
|---|---|
| `Handshake`, `HandshakeSafety`, `HandshakeProgress`, `HandshakeDelivery` | N nodes, each transmitter, request server and receiver, and the dispatcher; what every step keeps, deadlock freedom and termination, end-to-end delivery |
| `Receiver` | the flags, `process` and `async_work` of a transceiver, and the request server around them |
| `Circuits`, `Superdense`, `SuperdenseMeaning`, `Symbols`, `Digits` | circuit texts, their meaning on two qubits, `transmit`, the two kinds of measurement |
| `QueueBuffers`, `FlushLoop`, `FlushPolicy`, `FlushThread` | the shared queue, the thread that flushes it, and when it does |
| `Lifecycle`, `LoadHistory`, `Operations`, `ModuleManagers`, `Actions` | loading and unloading under a running worker and a unit's own request thread: what every step keeps, and whole operations; packed action sets |
| `Fates`, `UnloadBound`, `Failures` | which operations come to an end and which cannot, how long an unload can take, and the inputs on which loads and unloads fail |
| `Activations`, `StartupBarrier` | what the server does about a loaded unit, and the start of its work threads |
| `DataBlocks` | who owns the memory of a buffer item |
| `Majority` | length-prefixed frames and the most frequent symbol |
| `CirculatorSwitches`, `DottedQuad` | the switch's command stream and the address reader |

## Assumptions

* The dispatcher answers every "tx" call once and makes exactly one publication for it, also when
  the answer is an error; the publication reaches the node the caller has its session open with.
  `HandshakeSafety.BufferedOnce`, which holds in every reachable state, shows that this is needed: no
  more sessions can have closed than publications were made, and the program waits for them without
  a timeout.
* TCP connections to the nodes and calls to the dispatcher succeed. A call that throws leaves
  `transmit` without closing its session, which the model does not follow.
* The two frames of a publication arrive together, as multipart messages do, so taking the second
  one inside the critical section does not wait.
* The server may accept waiting clients in any order; first come, first served is one of them.
* In `Lifecycle` a peer of the request thread keeps to the protocol of `transmit`: it opens, closes
  and disconnects. A request the manager serves returns, constructors and initializations return
  or throw, and a worker's `async_work` returns; that `transmit` returns is the subject of
  `HandshakeProgress`.
* There is one server for the whole life of the program, its endpoints are not changed while a load
  is under way, and its work threads can bind their sockets; that its callback then returns when
  threads are launched for the first time is the subject of `StartupBarrier`.
* The meaning of the gates is the usual one; the program fixes only the texts.
* Lengths and addresses are stored little-endian, as on the machines the code is written for.

## Where the code and its documentation differ

* `push_wait` is documented to report whether an item was pushed while it waited. It reports
  whether the queue or the counter has reached the threshold. The two agree, whatever other threads
  do, exactly if at the start of the wait the queue is below the threshold and the counter one
  below it (`QueueBuffers.VerdictIff`); a full queue and an empty one are inputs on which they do
  not (`QueueBuffers.VerdictCanFail`).
* The counter it resets is not the queue length. `FlushLoop.BoundedIff` says in which reachable
  states the counter still bounds the queue, `FlushLoop.BoundCanFail` gives a run after which it
  does not.
* Processing units are advertised as unloadable at run time. Deleting a transceiver joins its request
  thread. That thread was never started if the initialization threw, which ends the program; and
  it sleeps for ever, while the manager's mutex is held, in the close request of a session whose
  measurement the worker, already joined, can no longer take. `Fates.CompletesIff` gives the
  exact condition under which an unload can complete and `Fates.UnloadMeets` what an unload
  can come to from each state; `Failures.FailedLoadTerminates`,
  `Failures.OpenSessionBlocks` and `Failures.OpenSessionOccurs` are the inputs.
* After a first successful load, another one ends the program: `stop` returns at once because
  `isRunning` is never set, and the server puts a new work thread over one that has not been
  joined. `Fates.LoadCompletesIff` gives the exact condition, and `Failures.ReloadCrashes` a load,
  an unload and a load that ends the program.
* A check of a packed action list is described as containment. It is containment exactly if no
  action of the list occurs an even number of times (`Actions.CheckIsMembership`), and fails for an
  action listed twice (`Actions.PushTwice`). The lists of the program's modules, PUSH and WAIT for
  the transceivers and REQUEST and PUSH for the switch, have no duplicates.
* Move assignment of a buffer item drops the block of its target. It keeps every block owned
  exactly if the target owned none (`DataBlocks.AssignmentLeaks`, and `DataBlocks.BlockIsLost` for
  a block that is lost); the pipeline does not use it.

## Model

| member | source | states |
|---|---|---|
| `HandshakeSafety.StepKeepsInv` | module/brazil/itrx_proc_unit.hpp:310-329 | every step of every thread keeps the coupling between a transmitter's position, its connection, the receiver's flags and the one trace each dispatched call leaves |
| `HandshakeSafety.HandshakeSafe` | module/brazil/proc_unit/trx_circuit.cpp:158-184 | in every reachable state `isReceiving` holds exactly while one session is opened and not closed, and it is the session being served; a pending signal implies it and that no publication for that session is owed, in the socket or in hand; a publication in hand belongs to that session and finds no signal to overwrite; the "should never happen" exception has not occurred; and the buffer holds the dispatcher's results in session order, one per closed session plus one for a pending signal |
| `HandshakeSafety.MutualExclusion` | net/server.hpp:256-269 | at most one transmitter is between the reply to its open and its close request at a receiver, and it is the one whose session was opened last |
| `HandshakeProgress.SessionCanMove` | net/server.hpp:88-130 | a server that is serving a session is never stuck: it, its asynchronous thread, the dispatcher or its client has a step |
| `HandshakeProgress.Progress` | module/brazil/itrx_proc_unit.hpp:202-233 | deadlock freedom: while some `transmit` has not returned, a step other than a spurious wake-up is enabled, for any cycle of nodes and for self-sends |
| `HandshakeProgress.StepLowersRank` | module/brazil/itrx_proc_unit.hpp:310-329 | a well-founded measure goes down with every step of every thread |
| `HandshakeProgress.RunsAreBounded` | module/brazil/proc_unit/trx_circuit.cpp:106-184 | termination: a run takes at most 23 steps per byte and one per call, over all threads |
| `HandshakeProgress.RunsCanFinish` | module/brazil/proc_unit/trx_circuit.cpp:106-156 | every run can be continued until all calls have returned |
| `HandshakeProgress.StuckIsFinished` | module/brazil/proc_unit/trx_circuit.cpp:106-156 | a run that cannot be continued has finished |
| `HandshakeDelivery.StepKeepsRouted` | module/brazil/itrx_proc_unit.hpp:310-329 | the sessions a receiver opened for a transmitter are those the transmitter made for it, in order, at every step |
| `HandshakeDelivery.StepKeepsBalanced` | module/brazil/proc_unit/trx_circuit.cpp:111-155 | at every step each finished call that returned true has dispatched its whole buffer without an error answer, and each that returned false a nonempty prefix of it whose last byte alone was answered with an error |
| `HandshakeDelivery.EndToEnd` | module/brazil/proc_unit/trx_circuit.cpp:106-184 | once all calls have returned, what a receiver holds from a transmitter decodes to the symbols dispatched to it, in order, whatever the interleaving, the plans and the errors |
| `HandshakeDelivery.SentAll` | module/brazil/proc_unit/trx_circuit.cpp:149-155 | if every call returned true, every byte of every buffer has been dispatched |
| `HandshakeDelivery.OpenedOnce` | module/brazil/itrx_proc_unit.hpp:325-328 | no session is opened twice, so no session is measured twice |
| `Receiver.Transceiver.constructor` | module/brazil/itrx_proc_unit.hpp:62-65 | a new receiver is free and has no signal |
| `Receiver.Transceiver.AsyncWork` | module/brazil/proc_unit/trx_circuit.cpp:158-184 | exactly inside a session a received measurement is appended to the buffer and signalled; outside one it is refused with an exception and nothing changes |
| `Receiver.Transceiver.Process` | module/brazil/itrx_proc_unit.hpp:310-329 | an open marks the receiver busy and changes nothing else; an answered close leaves the receiver free and without a signal; it takes nothing more if a measurement was there before it, and otherwise returns at the first wake-up that brings one; without any it still sleeps and nothing has changed |
| `Receiver.RequestServer.RunSession` | net/server.hpp:88-130 | the requests of a client are answered in order until it disconnects or one is never answered; the session object is then deleted |
| `Receiver.RequestServer.Handle` | net/server.hpp:256-269 | the next session object is made only after the session of the accepted client has ended, and it is then the only one; while a request is unanswered none is made |
| `Receiver.ServedAllSnoc` | net/server.hpp:88-130 | a further request is processed, in the state the others left, if and only if all of them were answered |
| `Receiver.SessionsMeasure` | net/server.hpp:88-130 | any number of sessions served one after the other, each measured once before or during its close, leave the receiver free and without a signal and one measurement per session in the buffer, in order |
| `Superdense.BuildCircuit` | module/brazil/proc_unit/trx_circuit.cpp:112-132 | the text built for a byte is the text of a Bell pair and the Pauli gate of its symbol, without a gate for bytes that select none |
| `Superdense.EncodingText` | module/brazil/proc_unit/trx_circuit.cpp:112-132 | the text for each byte: the lines "i 0", "x 0", "z 0" and "y 0" for 0 to 3 and '0' to '3', no line for others |
| `Superdense.Transmitter.Transmit` | module/brazil/proc_unit/trx_circuit.cpp:106-156 | the log grows by one session per byte up to and including the first error; the result is true exactly if there is none |
| `Superdense.TranscriptBalanced` | module/brazil/proc_unit/trx_circuit.cpp:111-155 | in that log every session is closed before the next is opened, circuits are dispatched only inside sessions, and they are those of the first n bytes in order |
| `Superdense.TranscriptIs` | module/brazil/proc_unit/trx_circuit.cpp:134-155 | the log of n bytes is n sessions of three events each, every one with the given address and port and with the circuit of its byte |
| `Superdense.BasisReceiver.Process` | module/brazil/proc_unit/bobwire_circuit.hpp:153-184 | a measurement in the next basis, with its text, is configured for every open and for no close; the handshake is otherwise the same |
| `SuperdenseMeaning.SuperdenseExact` | module/brazil/proc_unit/trx_circuit.hpp:12 | for every byte a pair of bits can be read if and only if it decodes to the byte's symbol: the outcome is certain and correct |
| `SuperdenseMeaning.MessageExact` | module/brazil/proc_unit/trx_circuit.cpp:111-147 | the readings possible for a buffer are exactly those that decode to its symbols |
| `SuperdenseMeaning.BytesAreRead` | module/brazil/proc_unit/trx_circuit.cpp:111-147 | in the bytes themselves: a reading is possible if and only if, as binary numbers, its pairs of bits are the bytes 0 to 3, or the digits '0' to '3', and 0 for every other byte |
| `SuperdenseMeaning.ReceiversDecode` | module/brazil/proc_unit/trx_circuit.cpp:106-184 | protocol and coding together: if publications are possible outcomes of their circuits, every receiver can decode from its buffer what each transmitter dispatched to it |
| `SuperdenseMeaning.CallIsRead` | module/brazil/proc_unit/trx_circuit.cpp:106-184 | what a receiver reads from a node whose one call returned true are the bytes of its buffer, whatever the other nodes do |
| `SuperdenseMeaning.BasisParity` | module/brazil/proc_unit/bobwire_circuit.hpp:170-181 | two bits can be read if and only if their parity is the high bit of the symbol in the rotated basis and the low bit in the other |
| `SuperdenseMeaning.BasisIsRandom` | module/brazil/proc_unit/bobwire_circuit.hpp:170-181 | each single bit is random: readings of equal parity are equally likely |
| `SuperdenseMeaning.BasisMessage` | module/brazil/proc_unit/bobwire_circuit.cpp:113-134 | the same for every buffer and every list of bases |
| `SuperdenseMeaning.BasisReadsBytes` | module/brazil/proc_unit/bobwire_circuit.cpp:113-134 | in the bytes themselves: the parities are the high or the low bits of 0 to 3 and '0' to '3', by basis, and 0 for every other byte |
| `Circuits.ParseRender` | module/brazil/proc_unit/trx_circuit.cpp:139-144 | reading a circuit text line by line inverts writing it, for every circuit, with or without a final newline |
| `QueueBuffers.QueueBuffer.constructor` | buffer/queue_buffer.cpp:4-8 | a new buffer is empty and does not count |
| `QueueBuffers.QueueBuffer.SetPushWaitThreshold` | buffer/queue_buffer.cpp:10-15 | counting is enabled and the threshold set; queue and counter stay |
| `QueueBuffers.QueueBuffer.Push` | buffer/queue_buffer.cpp:23-31 | the item is appended and counted if counting is enabled |
| `QueueBuffers.QueueBuffer.PopAll` | buffer/queue_buffer.cpp:33-40 | the whole queue is handed over and an empty one left; the counter stays |
| `QueueBuffers.QueueBuffer.PushWait` | buffer/queue_buffer.cpp:42-54 | success at once, with nothing taken in, if the queue has the threshold's length; else success if and only if the counter plus the counted pushes up to the timeout reach the threshold; the wait ends at the first look that finds them; success resets the counter, failure keeps it with what was counted; what others pushed is kept in order |
| `QueueBuffers.WaitIs` | buffer/queue_buffer.cpp:42-54 | the same for the function the step system uses |
| `QueueBuffers.VerdictIff` | buffer/queue_buffer.hpp:89-99 | the verdict of a wait tells, for all interleaved pushes and wake-ups, whether an item was pushed while it lasted, if and only if the wait begins with counting enabled, the queue below the threshold and the counter one below it |
| `QueueBuffers.VerdictCanFail` | buffer/queue_buffer.cpp:45-53 | a full queue is reported as a push although nothing is pushed, and a push into an empty queue is not reported |
| `FlushLoop.StepKeepsFifo` | net/middleware/zmq_server.cpp:120-160 | exactly once and in order: items handed to the socket, the local batch and the shared queue are together the push history, at every step of every thread |
| `FlushLoop.PushedIsHistory` | buffer/queue_buffer.cpp:23-31 | the push history is what the producers pushed in the run |
| `FlushLoop.StepKeepsCounter` | buffer/queue_buffer.cpp:10-54 | the counter is the number of counted pushes since the last successful wait, bounds the queue together with the unpopped earlier backlog except between a wait and its `pop_all`, and the fail counter is below 4 |
| `FlushLoop.ReachableGood` | net/middleware/zmq_server.cpp:106-160 | both hold in every reachable state, also after exit has been requested |
| `FlushLoop.BoundedIff` | buffer/queue_buffer.cpp:45-50 | in every reachable state the counter and the unpopped backlog bound the queue if and only if it is not the case that the last wait succeeded, its `pop_all` is still to come, and a counted item pushed before that wait ended is still queued |
| `FlushLoop.BoundCanFail` | buffer/queue_buffer.cpp:45-50 | a run after which a hundred items are queued and the counter is zero |
| `FlushLoop.FlushBound` | net/middleware/zmq_server.cpp:116-125 | what is queued when a wait is about to start has been popped after four waits, hence after more than 1200 ms of waiting, whatever the producers do |
| `FlushPolicy.PopsWhen` | net/middleware/zmq_server.cpp:116-122 | in every reachable state `pop_all` is next if and only if a wait has succeeded since the last one or four have failed in a row; failed waits take 300 ms and no wait takes longer |
| `FlushPolicy.WaitEndsWhen` | buffer/queue_buffer.cpp:42-54 | in every reachable state a wait succeeds at once with a hundred items queued, else as soon as it looks and a hundred have been pushed since the last success, and fails at its timeout otherwise |
| `FlushThread.AsyncWork` | net/middleware/zmq_server.cpp:106-160 | the loop, with pushes of other threads and the request to exit between any two of its steps, is a run of the step system with one wait per turn, and ends only after all given turns or one in which the exit is requested; what it sent and what is still queued is everything pushed, once and in order |
| `FlushThread.Flush` | net/middleware/zmq_server.cpp:121-158 | what is queued when `pop_all` is called is sent, completely and in order |
| `FlushThread.Drain` | net/middleware/zmq_server.cpp:127-158 | the batch is handed on front first, completely |
| `FlushThread.WaitRun` | buffer/queue_buffer.cpp:42-54 | the steps of a wait end with the buffer and the verdict the contract of `push_wait` gives |
| `Lifecycle.StepKeepsSafe` | module/imodule.cpp:15-100 | every step of an operation, of the worker, of the request thread of the unit and of its peers keeps the lifecycle invariant |
| `Lifecycle.WorkerLifecycle` | module/imodule.cpp:60-100 | in every reachable state at most one worker exists, it is in the loaded, existing unit, no dangling pointer has been used, and outside the mutex `isRunning` says exactly whether a worker exists |
| `Lifecycle.StopFlagIsSeen` | module/imodule.cpp:83-90 | the stop flag is cleared only when the worker has seen it and has been joined |
| `Lifecycle.SwitchHasNoWorker` | module/trabea/trabea.cpp:7-11 | no worker exists unless the transceiver module is loaded, so the throwing `async_work` of switch units is never called |
| `Lifecycle.AsyncKinds` | module/imodule.cpp:28-31 | the transceiver module asks for a worker, the switch module does not, and both have the server launch an input thread |
| `Lifecycle.CrashIff` | net/middleware/server.cpp:91-121 | the callback at the end of a load puts a thread over a running one if and only if work threads have been launched before and the input endpoint is set |
| `Activations.NotifiedIff` | net/middleware/server.cpp:91-121 | when the callback throws, ends the program or returns, and whether work threads have been launched afterwards, for every combination of endpoints, earlier launches and wanted threads |
| `Lifecycle.DispatchFindsUnit` | module/module_manager.cpp:67-90 | a request or push throws if no unit is loaded, else it is served by the loaded unit, which exists |
| `Lifecycle.ServedUntilReturn` | module/module_manager.cpp:67-90 | until it returns that unit stays loaded and exists, whatever the other threads do |
| `LoadHistory.HistoryHolds` | module/module_manager.cpp:13-65 | in every reachable state the module is the one named by the last load that found none, the unit the one constructed last, unless deleted since, and the endpoints those set last |
| `Lifecycle.ListenerLifecycle` | module/brazil/itrx_proc_unit.hpp:90-94 | the request thread never outlives its unit, and outside the mutex it serves peers only while a worker runs that can take their measurements |
| `Operations.UnloadIsAtomic` | module/imodule.cpp:40-52 | however the worker and the request thread are interleaved, a completed unload leaves exactly one state: no worker, no request thread, no unit, flags cleared |
| `Operations.LoadRuns` | module/module_manager.cpp:25-43 | the effect of a load, for each outcome and also when the callback throws or ends the program, is the end of a run of the step system |
| `Fates.OperationAdvances` | module/module_manager.cpp:13-90 | an operation that can complete always has a step, its own, of its worker or of the request thread, that brings its end nearer and leaves it able to complete |
| `Fates.CompletesIff` | module/module_manager.cpp:13-90 | an operation under way can be brought to its end if and only if it is neither a load that has initialized its unit while the server, its input endpoint set, already has work threads, nor an unload whose request thread was never started, or whose worker has stopped, or will stop without another call of `async_work`, while a session lacks its measurement |
| `Fates.LoadCompletesIff` | net/middleware/server.cpp:91-121 | from every state before a load that finds and initializes its unit, the load can return to its caller if and only if the server does not have both an input endpoint and running work threads |
| `Fates.DeadlockIsForEver` | module/brazil/itrx_proc_unit.hpp:310-329 | an unload that joins a request thread asleep in a close request has no step left, of any thread |
| `Fates.HopelessEnds` | module/module_manager.cpp:13-90 | an operation that cannot complete can be continued to that deadlock or to the end of the program |
| `Fates.UnloadMeets` | module/imodule.cpp:40-52 | what an unload can come to from each state: it can finish unless the request thread was never started, which ends the program, and it can deadlock exactly if there is a started request thread |
| `UnloadBound.StepLowers` | module/imodule.cpp:75-100 | once an unload has set the stop flag, every step of every thread lowers a rank |
| `UnloadBound.StopStaysPossible` | module/imodule.cpp:83-84 | before that, setting the flag is enabled and no other thread's step disables it |
| `UnloadBound.UnloadEnds` | module/imodule.cpp:40-52 | every unload, however interleaved, takes at most 23 steps over all threads after the one that sets the flag, and when none is left it has come to exactly one of finishing, blocking for ever and ending the program |
| `Failures.FailedLoadTerminates` | module/brazil/proc_unit/trx_circuit.cpp:63-66 | a load that throws midway through the initialization leaves the unit loaded, and the next unload ends the program |
| `Failures.OpenSessionBlocks` | module/imodule.cpp:40-52 | with a peer's session open and the worker about to test the stop flag, the named steps of the unload end in the deadlock |
| `Failures.OpenSessionOccurs` | module/brazil/itrx_proc_unit.hpp:310-329 | such a state is reached once a peer has opened a session with a loaded unit |
| `Failures.ReloadCrashes` | net/middleware/server.cpp:54-59 | a unit is loaded, unloaded and loaded again, and the second load ends the program |
| `ModuleManagers.Module.StartAsyncProc` | module/imodule.cpp:60-73 | a thread is started exactly if a unit is loaded and none is running |
| `ModuleManagers.Module.StopAsyncProc` | module/imodule.cpp:75-91 | a running worker is stopped and joined, and both flags are clear; before it stops it may take the measurement of an open session |
| `ModuleManagers.Module.LoadProcUnit` | module/imodule.cpp:15-38 | what is loaded and started, also the request thread of a transceiver, for each outcome: unknown unit, failing initialization, success |
| `ModuleManagers.Module.UnloadProcUnit` | module/imodule.cpp:40-52 | the worker is gone in any case; the unit is deleted and forgotten exactly if the join of its request thread returns, which is determined by that thread's position and by what peers and worker still do |
| `ModuleManagers.ModuleManager.LoadModule` | module/module_manager.cpp:13-23 | a second load and an unknown name change nothing, the latter with an exception; else a fresh module of exactly that name without a unit is loaded; as one step of the step system |
| `ModuleManagers.ModuleManager.RegisterCallback` | module/module_manager.hpp:194-198 | the server and its endpoints are known from then on, as one step of the step system; threads it has launched stay |
| `ModuleManagers.ModuleManager.Notify` | net/middleware/server.cpp:91-121 | what the callback does for each module kind: exception, end of the program, or threads launched |
| `ModuleManagers.NoticeIs` | net/middleware/server.cpp:91-121 | the same in terms of the endpoints: the transceiver module needs both, the switch module the input |
| `ModuleManagers.ModuleManager.LoadProcUnit` | module/module_manager.cpp:25-43 | the effect of a load for every outcome; it throws exactly if the unit is not found or not initialized or the server or an endpoint is missing, and ends the program exactly if the server has launched its threads before; and it is the end of a run of the step system |
| `ModuleManagers.ModuleManager.UnloadProcUnit` | module/module_manager.cpp:57-65 | it ends the program exactly if the request thread was never started, and blocks exactly if a session is left or made that the worker cannot measure; else unit, worker and request thread are gone and nothing else is; and each is the end of a run of the step system |
| `ModuleManagers.ModuleManager.UnloadModule` | module/module_manager.cpp:45-55 | the same for unloading the module and its unit |
| `ModuleManagers.ModuleManager.ProcAct` | module/module_manager.cpp:67-90 | the request is forwarded to the loaded unit, which exists, and its result returned; without one there is an exception |
| `ModuleManagers.FatesOfRuns` | module/imodule.cpp:40-52 | what the sequential unload can come to is exactly what the runs of the step system can come to, for every state |
| `Actions.CheckPack` | actions.hpp:43-74 | checking a packed list finds exactly the actions that occur an odd number of times |
| `Actions.CheckMember` | actions.hpp:58-74 | for a list without duplicates, checking is membership |
| `Actions.AsksFor` | net/middleware/server.cpp:99-121 | a list without duplicates asks for an input thread if it has a request or push, and for an output thread if it has a reply or wait |
| `Actions.PackedWords` | actions.hpp:21-41 | the words of the single actions are 1, 2, 4 and 8, of the modules' lists 3 and 5 |
| `Actions.CheckIsMembership` | actions.hpp:48-74 | checking is membership if and only if no listed action occurs an even number of times |
| `Actions.PushTwice` | actions.hpp:43-74 | an action listed twice is not found |
| `StartupBarrier.StepKeepsSafe` | net/middleware/server.cpp:97-137 | every order of launches, counts, signals and wake-ups keeps the barrier's invariant |
| `StartupBarrier.ReturnsWhenReady` | net/middleware/server.cpp:122-128 | `notify` returns only when every wanted thread has been launched and has signalled |
| `StartupBarrier.NoLostWakeUp` | net/middleware/server.cpp:130-137 | with all signals given, a sleeping `notify` has been woken or is about to be |
| `StartupBarrier.Progress` | net/middleware/server.cpp:97-137 | until `notify` returns some step other than a spurious wake-up is enabled |
| `StartupBarrier.BarrierTerminates` | net/middleware/server.cpp:97-137 | at most six steps per thread and three more |
| `StartupBarrier.Server.NotifyThreadStarted` | net/middleware/server.cpp:130-137 | the signal is counted, and the waiter is to be woken exactly if the target is reached |
| `StartupBarrier.Server.LaunchThreads` | net/middleware/server.cpp:97-120 | which threads have been launched and counted, also when a missing endpoint is an exception after the first launch, when an earlier activation has filled the slot, and with signals that arrive before their thread is counted |
| `StartupBarrier.Server.Notify` | net/middleware/server.cpp:91-128 | for every activation, also after earlier ones: it throws without a needed endpoint, ends the program if the first slot is filled, and otherwise launches all wanted threads and returns exactly if all of them have signalled, whenever they do |
| `StartupBarrier.WantedIs` | net/middleware/server.cpp:99-121 | the number of threads a list of actions asks for |
| `DataBlocks.BufferItem.constructor` | buffer/buffer_item.cpp:4-17 | a new block of the given size with a copy of the bytes, or none for no data |
| `DataBlocks.BufferItem.Move` | buffer/buffer_item.cpp:19-25 | the block changes hands and the source is empty |
| `DataBlocks.BufferItem.Assign` | buffer/buffer_item.cpp:27-34 | the target takes the block of the source, without releasing its own |
| `DataBlocks.BufferItem.Release` | buffer/buffer_item.cpp:36-40 | the block is released if the item still has one |
| `DataBlocks.StepKeepsSafe` | buffer/buffer_item.cpp:4-40 | every step keeps exactly one owner per allocated block and releases none twice |
| `DataBlocks.StepKeepsIntact` | net/middleware/zmq_server.cpp:125-156 | every step keeps the bytes handed on, outgoing, in the batch and in the queue equal to the bytes pushed, in order |
| `DataBlocks.OwnershipHolds` | net/middleware/zmq_server.cpp:125-156 | both hold in every reachable state, with any number of producers and callbacks in any order |
| `DataBlocks.SizesHold` | net/middleware/zmq_server.cpp:133-156 | in every reachable state the size of an item with a block is the length of the block, also when pointer and size are handed to the client library |
| `DataBlocks.NothingLeaks` | net/middleware/zmq_server.cpp:149-156 | when nothing is under way and all callbacks have been made, every block ever allocated has been released |
| `DataBlocks.AssignmentLeaks` | buffer/buffer_item.cpp:27-34 | move assignment keeps all blocks owned if and only if the target owned none |
| `DataBlocks.BlockIsLost` | buffer/buffer_item.cpp:27-34 | after an assignment between two items that own a block, nobody owns the first block |
| `Majority.ReadFrameInverts` | net/tcp_client.hpp:116-155 | reading inverts framing for every payload shorter than 2^32 bytes and leaves the rest of the stream |
| `Majority.ReadFrameIs` | net/tcp_client.hpp:116-155 | what is read in terms of the stream's bytes: four of them, least significant first, are the size of what follows |
| `Majority.ThreeBytesAreRead` | net/tcp_client.hpp:116-155 | the stream 3 0 0 0 7 8 9 5 is read as 7 8 9 |
| `Majority.TcpClient.Read` | net/tcp_client.hpp:116-155 | one frame is taken off the stream, or an exception reports that the stream ends too early, and then all of it has been read |
| `Majority.MostFrequent` | module/brazil/proc_unit/lcc_and_fpga.cpp:260-290 | the result is the least of 0..3 that no other outnumbers, 0 if none occurs; the final exception is unreachable |
| `Majority.ModeIsMostOften` | module/brazil/proc_unit/lcc_and_fpga.cpp:260-290 | the same by multiplicities in the multiset of the data |
| `Majority.ModeIsUnique` | module/brazil/proc_unit/lcc_and_fpga.cpp:278-290 | that symbol is determined by the data |
| `Majority.HardwareReceiver.Process` | module/brazil/proc_unit/lcc_and_fpga.cpp:250-298 | every second call reads one frame, whose size is in its first four bytes, and buffers its most frequent symbol; it throws exactly if the stream is too short, leaving buffer and phase as they were, with the board stopped and the stream at its end |
| `Majority.ModesOfStream` | module/brazil/proc_unit/lcc_and_fpga.cpp:250-298 | after n calls on a stream of frames the buffer has the most frequent symbols of the first n/2 frames in order, the board was told to start and stop in turn, and the rest of the stream waits |
| `CirculatorSwitches.CirculatorSwitch.Initialize` | module/trabea/proc_unit/circulator_switch.cpp:83-94 | the switch starts counter-clockwise and says so; an error answer is an exception |
| `CirculatorSwitches.CirculatorSwitch.GetSwitchState` | module/trabea/proc_unit/circulator_switch.cpp:97-106 | the answer is true exactly if the state is clockwise for ports of which the second is next to the first, or the first the last, and counter-clockwise for others; the addition wraps around |
| `CirculatorSwitches.CirculatorSwitch.SetSwitchState` | module/trabea/proc_unit/circulator_switch.cpp:108-134 | after a request for existing ports the switch is clockwise exactly if the second is next to the first, or the first the last, and a change has been sent; other requests change nothing; and when the answer is true |
| `CirculatorSwitches.CommandStream` | module/trabea/proc_unit/circulator_switch.cpp:83-134 | over every sequence of requests the stream starts with ccw and strictly alternates, the state is its last entry and the direction last requested for existing ports |
| `CirculatorSwitches.LastConfiguration` | module/trabea/proc_unit/circulator_switch.cpp:83-134 | over every sequence of requests, the configuration sent last is the one the last request for existing ports asks for, in terms of its ports |
| `CirculatorSwitches.SetConnects` | module/trabea/proc_unit/circulator_switch.cpp:97-134 | right after a request for existing ports they are reported as connected |
| `CirculatorSwitches.EmitsOnlyChanges` | module/trabea/proc_unit/circulator_switch.cpp:121-133 | a configuration is sent for the start and for every change of direction, and for nothing else |
| `DottedQuad.StrtoulReadsPrint` | module/trabea/proc_unit/circulator_switch.cpp:70-79 | a printed number that no digit follows is read back, and reading stops right after it |
| `DottedQuad.StrtoulIs` | module/trabea/proc_unit/circulator_switch.cpp:70-79 | white space, a sign and digits are read as the value of the digits, negated modulo 2^64 or saturated, and reading stops behind them |
| `DottedQuad.StrtoulReadsNothing` | module/trabea/proc_unit/circulator_switch.cpp:70-79 | without a digit the value is zero and the position stays |
| `DottedQuad.WordIs` | module/trabea/proc_unit/circulator_switch.cpp:69-79 | the first of the four numbers is the most significant byte |
| `DottedQuad.ReadsPrinted` | module/trabea/proc_unit/circulator_switch.cpp:68-79 | wherever they start in a text, printed bytes separated by dots are read back, however many there are |
| `DottedQuad.ReadAddress` | module/trabea/proc_unit/circulator_switch.cpp:68-79 | the bytes stored, from the most significant down, are the numbers read; all four are there exactly if the text does not end before a separator |
| `DottedQuad.WordOfBytes` | module/trabea/proc_unit/circulator_switch.cpp:69-79 | the four bytes of a 32-bit address, stored that way, are the address |
| `DottedQuad.ReadsPrintedAddress` | module/brazil/proc_unit/lcc_and_fpga.cpp:114-126 | reading inverts decimal dotted-quad printing for every 32-bit address |

## Left out

- Sockets, ZeroMQ, Boost.Asio, RapidJSON, serial ports, command lines and parameter strings: library input and output; they appear as steps, parameters or sequences. Handing an item to `socket.send` is the last event the flush loop can observe.
- Request and response wrappers (net/middleware/request.hpp, net/middleware/response.hpp, net/simulation): they would only add easy members.
- Exceptions that leave `transmit` between open and close, failing connections and reordered or lost publications: excluded by the assumptions above.
- The prompt wake-up of `push_wait`: a push notifies a condition variable nobody waits on (buffer/queue_buffer.cpp:29 and 46), so a wait is modelled as ending by timeout or by a spurious wake-up, and nothing faster is claimed.
- Stopping and destroying the server (net/middleware/server.cpp:24-33 and 54-89): `stop` never gets past its first test, and the destructor ends the program if work threads have been launched.
- Lock order during shutdown and `module_manager::supported_actions`, which locks its own mutex again.
- `get_next_basis` (module/brazil/proc_unit/bobwire_circuit.hpp:101-119): bases are arbitrary sequences of bits; its byte position is never reset.
- Concurrent use of one dispatcher socket by `process` and `transmit` of the two-basis unit: the protocol results are about the unit with the fixed measurement.
- The wrap-around of the push counter at 2^64: between two successful waits every counted push but the first hundred or so is still in memory.
- The factor i of the Y gate: a common factor changes no outcome.
- Recovery of the switch after an error answer: the state has changed and the next identical request sends nothing.
- `FlushBound`: bounds the time spent waiting, not the time other threads hold the processor between steps.
- Reading an address text beyond its end, as the code does if a separator is missing: the reader of the model stops there.
- Peers that stay connected without sending, at a unit that is being deleted: they would delay the join of the request thread in one more way.
- The order inside the destructor of a unit: what the derived class owns is gone before the request thread has been joined. The model deletes the unit in one piece, after the join.
- The server's threads after a module has been unloaded: the flush thread keeps its reference to the module's buffer.
