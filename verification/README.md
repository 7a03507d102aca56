# ZeroMQ core: a verified model

This project models the message engine of ZeroMQ 3.2.3 (`nginx/program/zeromq-3.2.3/src`) and one
wildcard matcher (`nginx/program/page-speed-1.9/base/string_util.cc`), and proves what they promise.

* **Lock-free pipes.** `QueueSpec` is the queue its two users see, `YPipeModel` the pipe with reader and
  writer interleaved at every access to the shared cursor, and `YPipeMemory` the pipe on its chunked queue
  interleaved at every access to shared memory, which `YPipeMemoryTheorems` proves to behave like both;
  `Cells` and `Cursors` tie addresses to positions. `YQueue` and `YPipe` are queue and pipe as objects.
  `MailboxModel` adds senders, receiver and signals; `Mailbox` is the object between calls.
* **Message pipes.** `PipeModel` is the two-ended pipe: six states, a delimiter in the data, commands in
  two FIFO channels and credit-based flow control. `PipeInvariant` and `PipeSteps` prove its invariant,
  `PipeTheorems` draws the conclusions, `PipeAnswers` says what each call tells its caller, and `Pipe` gives an endpoint as an object on two lock-free pipes.
* **Shutdown.** `OwnModel` is the ownership forest with its counters and commands; `OwnInvariant`,
  `OwnSteps` and `OwnTheorems` prove it safe and complete, `OwnShutdown` also for parts of it; `Own` has the objects themselves, with their
  pointers and mailboxes.
* **Subscriptions.** `TrieSpec`, `TrieTheorems` and `MtrieSpec` treat tries as values, `TrieNodes`, `Trie`
  and `Mtrie` as linked nodes and `PathBuffer` as the buffer of a walk; `XPub` and
  `XPubNotes` follow the notifications, `Publisher` is the socket.
* **Multicast.** `PipeArray` is the self-indexing array; `DistSpec` says what a distributor is for, in plain
  groups of pipes, `DistArray` what it does to one array cut into regions by counters, `DistRuns` what all
  its runs keep, and `Dist` is the object.
* **Scheduling.** `RoundRobin`, `TurnOrder`, `Fairness`, `Schedulers` and `FairRuns` are the fair queue, `LoadBalancer` its sending twin.
* **Framing.** `Wire`, `Framing`, `CodecTheorems`, `EncoderSpec`, `BatchOffset` and `Codec` cover ZMTP 1.0 and ZMTP 2.0 framing;
  `StreamParser` and `StreamLimits` hold the decoders against a grammar of arbitrary bytes.
* **Messages.** `MsgModel` accounts for shared content across concurrent multicasts, `Messages` has the objects.
* **Wildcards.** `GlobSpec` is what a pattern means, `Glob` and `GlobLimit` the matcher and its depth limit.

Protocols are step functions over explicit states with a fault for every failed assertion; a run is
any list of actions, so a theorem about runs is about every interleaving. Objects are proved against the
same step functions. Whether a pipe has room or something to read, what a sink answers and when a
wait runs out are parameters, universally quantified.

Where code and comments differ the code is followed. The comment on the low watermark (pipe.cpp:388)
asks for it to be less than the high one; with a limit of one message it equals it, and `LowWatermark`
states exactly when it is less. The comment on get_data (encoder.hpp:70-72) asks for an offset of -1 if no
message begins in the batch; `OffsetIsFirstMessage` states when it is not. The comment on ignored requests
(own.cpp:98-99) takes an unknown child for one already asked to terminate; `EarlyRequestIsIgnored` shows
one that was not.

What the code does not do is stated as an if-and-only-if lemma over all inputs, next to a lemma at an input
or a run that shows it:

* the 32-bit command counter: `CountersTellTheTruthBelowRange`; `WrappedCounterDestroysEarly`;
* the request to terminate that comes before own: `RequestIsHeardIff`; `EarlyRequestIsIgnored`;
* the withdrawal of a topic never announced: `WithdrawalIsNewsIff`; `WithdrawalOfNothing`;
* the unsubscription that fails an assertion: `EveryRunIsTruthful`; `ForeignUnsubscriptionFails`;
* the silent subscription to everything: `EveryRunIsTruthful`, `SubscribeToAllTruthfulIff`; `SilentSubscription`;
* the pipe termination that moves a message sent to another pipe: `TerminationMovesTheTurn`, `MovedTurnTears`;
  `TornMessage`, reached by `PreludeHappens`;
* the pipe termination that moves a message received to another pipe: `TurnAfterTermination`; `LossTearsAMessage`;
* the pipe termination that moves a pipe away from its turn: `WaitAfterTermination`; `TerminationDelays`;
* the pipe termination that spoils the multicast regions (`EraseKeepsRegionIff`, `TerminatedActsIff`) and so
  tears a message (`TerminationTearsMatchingIff`, `TerminationTearsAllIff`) or serves a pipe that has refused
  (`TerminationReadmitsIff`): `TerminationTearsAMessage`, reached by `BeginningHappens`, and `TerminationReadmitsARefuser`;
* the calls in mid-message that tear a multicast message, which no socket makes: `MatchIsGoodIff`, `SendIsGoodIff`;
  `MixedSendTears`; and the one that spoils its regions: `MatchKeepsRegionsIffActive`; `LateMatchSpoilsRegions`;
* the offset of a batch where the source runs dry: `OffsetIsFirstMessage`; `DryOffset`;
* the patterns the depth limit breaks: `CompleteIffFewWildcards`; `HardIsRejected`, for each of them.

`dafny verify dfyconfig.toml` checks everything.

## Model

| member | source | states |
|---|---|---|
| `YQueue.Queue.constructor` | nginx/program/zeromq-3.2.3/src/yqueue.hpp:52-61 | a new queue is one empty chunk |
| `YQueue.Queue.Front` | nginx/program/zeromq-3.2.3/src/yqueue.hpp:83-86 | the value in the first cell is the first element of the deque |
| `YQueue.Queue.Back` | nginx/program/zeromq-3.2.3/src/yqueue.hpp:90-93 | the value in the back cell is the last element of the deque |
| `YQueue.Queue.SetBack` | nginx/program/zeromq-3.2.3/src/yqueue.hpp:90-93 | assigning through the reference changes the last element and no other, and moves no cell |
| `YQueue.Queue.Push` | nginx/program/zeromq-3.2.3/src/yqueue.hpp:96-115 | one more element at the back, in a cell no other element uses; all others keep value and address, whether the chunk is full or not and whether the spare chunk or a new one is linked in |
| `YQueue.Queue.Unpush` | nginx/program/zeromq-3.2.3/src/yqueue.hpp:124-146 | takes back exactly the last push, also across a chunk edge |
| `YQueue.Queue.Pop` | nginx/program/zeromq-3.2.3/src/yqueue.hpp:149-164 | removes exactly the first element; a chunk used up becomes the spare and holds no element any more |
| `YQueue.Queue.AddressesDiffer` | nginx/program/zeromq-3.2.3/src/yqueue.hpp:96-164 | no two places of the queue have the same address |
| `YPipeMemoryTheorems.StepFollows` | nginx/program/zeromq-3.2.3/src/yqueue.hpp:83-164 | one access of either side to the shared memory (a value, a link, the spare chunk, an allocation or free, the cursor c) from a good state: nothing freed, null or unwritten is touched, and a call that takes effect is answered as by the pipe whose cursors are positions |
| `YPipeMemoryTheorems.EveryInterleavingOfAccessesRefinesTheQueue` | nginx/program/zeromq-3.2.3/src/ypipe.hpp:44-165 | pipe and chunked queue together, with reader and writer interleaved at every single access, cursors compared as addresses, chunks reused and the allocator free to return whatever is not allocated: no run faults, and every value read and every reply are those of the abstract queue for the calls in the order in which they took effect |
| `YPipeMemoryTheorems.EveryChunkIsInOnePlace` | nginx/program/zeromq-3.2.3/src/yqueue.hpp:96-164 | in every such interleaving each allocated chunk is in exactly one place: in the queue, spare, or in the hands of one side; so none is lost, freed twice or reused while it holds a cell of the queue |
| `YPipeMemoryTheorems.CallsAreDue` | nginx/program/zeromq-3.2.3/src/ypipe.hpp:74-165 | a call of the writer takes effect at once, with its own arguments, or is due; a read that finds a value goes on to take it, and one that does not has taken effect |
| `YPipeMemoryTheorems.StepsAdvance` | nginx/program/zeromq-3.2.3/src/yqueue.hpp:96-164 | each further step of a call brings it nearer to its end: the call of the writer takes effect with its last step, a read when the value is taken |
| `YPipeMemoryTheorems.EveryCallOfTheWriterFinishes` | nginx/program/zeromq-3.2.3/src/ypipe.hpp:74-126 | from any state a run leads to, at most five steps of the writer finish its call, which takes effect then, once and with its own arguments |
| `YPipeModel.StepRefines` | nginx/program/zeromq-3.2.3/src/ypipe.hpp:74-165 | one atomic access from a good state: no fault (the plain store never overwrites a reader's update), front <= w <= f <= back, c is w or NULL, and caller and state see what the abstract queue prescribes |
| `YPipeModel.EveryInterleavingRefinesTheQueue` | nginx/program/zeromq-3.2.3/src/ypipe.hpp:74-165 | in every interleaving of writer and reader at every access to c, all replies and the state agree with the abstract queue |
| `YPipeModel.NothingIsTakenBack` | nginx/program/zeromq-3.2.3/src/ypipe.hpp:74-165 | what was read, flushed or completed is only ever extended, however a run continues |
| `YPipeModel.ReaderCannotMoveBeforePublish` | nginx/program/zeromq-3.2.3/src/ypipe.hpp:110-120 | between the failed compare-and-swap and the plain store the reader finds nothing and changes nothing shared |
| `Cursors.TiedWrite` | nginx/program/zeromq-3.2.3/src/ypipe.hpp:74-83 | comparing addresses is comparing stream positions, kept by a write |
| `Cursors.TiedUnwrite` | nginx/program/zeromq-3.2.3/src/ypipe.hpp:91-98 | f equals the back address exactly if nothing is incomplete; kept by taking back a value |
| `Cursors.TiedFlush` | nginx/program/zeromq-3.2.3/src/ypipe.hpp:103-126 | the pointer tests of flush decide exactly as the positions do |
| `Cursors.TiedCheckRead` | nginx/program/zeromq-3.2.3/src/ypipe.hpp:129-150 | the pointer tests of check_read decide exactly as the positions do |
| `Cursors.TiedPop` | nginx/program/zeromq-3.2.3/src/ypipe.hpp:154-165 | the front address moves with the front position |
| `YPipe.Pipe.constructor` | nginx/program/zeromq-3.2.3/src/ypipe.hpp:44-53 | a new pipe is the empty queue with its reader awake |
| `YPipe.Pipe.Write` | nginx/program/zeromq-3.2.3/src/ypipe.hpp:74-83 | the object, with cursors as cell addresses, does the write step of the interleaved model and of the abstract queue |
| `YPipe.Pipe.Unwrite` | nginx/program/zeromq-3.2.3/src/ypipe.hpp:91-98 | returns the newest incomplete value and removes it, or nothing if all values are complete |
| `YPipe.Pipe.Flush` | nginx/program/zeromq-3.2.3/src/ypipe.hpp:103-126 | hands all complete values to the reader; false exactly if the reader sleeps |
| `YPipe.Pipe.CheckRead` | nginx/program/zeromq-3.2.3/src/ypipe.hpp:129-150 | true exactly if a flushed value is unread; otherwise the reader is put to sleep |
| `YPipe.Pipe.Read` | nginx/program/zeromq-3.2.3/src/ypipe.hpp:154-165 | returns the oldest flushed unread value and removes it, or nothing |
| `YPipe.Pipe.Probe` | nginx/program/zeromq-3.2.3/src/ypipe.hpp:170-176 | shows the oldest flushed unread value and leaves the queue alone; the assertion holds |
| `MailboxModel.EveryRunIsGood` | nginx/program/zeromq-3.2.3/src/mailbox.cpp:25-86 | with any number of senders and one receiver, in every interleaving, no assertion fails: signaler.recv always finds a signal and the read after a successful wait succeeds |
| `MailboxModel.AtMostTwoSignals` | nginx/program/zeromq-3.2.3/src/signaler.cpp:192-209 | the signal counter never exceeds two |
| `MailboxModel.DeliveredInOrder` | nginx/program/zeromq-3.2.3/src/mailbox.cpp:50-86 | commands are delivered once each, in the order the lock admitted them |
| `MailboxModel.NoLostWakeUp` | nginx/program/zeromq-3.2.3/src/mailbox.cpp:50-86 | a passive receiver with an unread flushed command has a signal pending or a sender about to send it |
| `MailboxModel.QuietMailboxIsEmpty` | nginx/program/zeromq-3.2.3/src/mailbox.cpp:50-86 | when all senders are done and the receiver waits on an empty counter, everything sent has been received |
| `MailboxModel.NextRecvDelivers` | nginx/program/zeromq-3.2.3/src/mailbox.cpp:60-86 | between the calls of senders, a call of recv, active or passive, yields the oldest command not received if there is one |
| `Mailbox.Signaler.Send` | nginx/program/zeromq-3.2.3/src/signaler.cpp:115-120 | one more signal |
| `Mailbox.Signaler.Recv` | nginx/program/zeromq-3.2.3/src/signaler.cpp:192-209 | takes exactly one of one or two signals, giving a merged one back |
| `Mailbox.Mailbox.constructor` | nginx/program/zeromq-3.2.3/src/mailbox.cpp:25-33 | the first read finds nothing and leaves the receiver passive |
| `Mailbox.Mailbox.Send` | nginx/program/zeromq-3.2.3/src/mailbox.cpp:50-58 | between calls: the command is appended to the unread ones and a sleeping receiver gets its signal |
| `Mailbox.Mailbox.Recv` | nginx/program/zeromq-3.2.3/src/mailbox.cpp:60-86 | between calls: returns the oldest unread command if there is one, in active and in passive state; the assertions hold |
| `PipeSteps.EveryRunIsGood` | nginx/program/zeromq-3.2.3/src/pipe.cpp:100-427 | in every interleaving of two endpoints over FIFO command channels no assertion in the handlers fails and no command reaches a deleted endpoint; the whole invariant holds |
| `PipeTheorems.EveryCallSucceeds` | nginx/program/zeromq-3.2.3/src/pipe.cpp:100-427 | after any history every further call or delivery at either endpoint succeeds, so the preconditions of the endpoint's methods hold |
| `PipeTheorems.EveryRunTerminatesOnce` | nginx/program/zeromq-3.2.3/src/pipe.cpp:242-376 | each endpoint sends at most one pipe_term and exactly one pipe_term_ack before it is deleted; nothing is in flight to a deleted endpoint; each queue is freed once, by its reader, after its writer let go of it |
| `PipeTheorems.TerminationNeverStuck` | nginx/program/zeromq-3.2.3/src/pipe.cpp:242-427 | with no command in flight either nobody has started, both ends are gone, or one end waits for the other to finish reading, and the next read of that one hands over a part or meets the delimiter and acknowledges |
| `PipeTheorems.EveryRunDeliversInOrder` | nginx/program/zeromq-3.2.3/src/pipe.cpp:124-188 | the reader has always got a prefix of the complete messages written; with delay set and no terminate of its own it has got exactly all of them, without the unfinished tail, once it is terminating |
| `PipeTheorems.AcceptedIsFinal` | nginx/program/zeromq-3.2.3/src/pipe.cpp:164-175 | the list of accepted parts only grows, and not at all outside the active state |
| `PipeTheorems.EveryRunKeepsWakeUps` | nginx/program/zeromq-3.2.3/src/pipe.cpp:100-138 | an endpoint in active or pending state has in_active false exactly if its reader sleeps or one activate_read is due, so flushed items at a sleeping endpoint have exactly one on the way |
| `PipeTheorems.LowWatermark` | nginx/program/zeromq-3.2.3/src/pipe.cpp:383-409 | the low watermark is half the limit, rounded up, for limits up to twice max_wm_delta, and max_wm_delta below the limit beyond; so it is positive, at most the limit, and below it exactly for limits of two or more |
| `PipeTheorems.EveryRunIsBounded` | nginx/program/zeromq-3.2.3/src/pipe.cpp:140-217 | outstanding messages never exceed hwm; a writer is blocked only with exactly hwm outstanding in its view; with everything read and no credit in flight fewer than lwm <= hwm are outstanding and it is not blocked |
| `PipeTheorems.LaterPartsAreNeverRefused` | nginx/program/zeromq-3.2.3/src/pipe.cpp:149-175 | once the first part of a message is accepted the next one is not refused while the pipe is active |
| `PipeTheorems.LaterPartsAreReady` | nginx/program/zeromq-3.2.3/src/pipe.cpp:124-147 | once a part announcing more has been read the next read yields the next part while the pipe is active or pending |
| `PipeAnswers.EveryReadIsAnswered` | nginx/program/zeromq-3.2.3/src/pipe.cpp:100-147 | in every run check_read says yes exactly if a read would yield a part, which is exactly if the endpoint listens, is active, and a part comes next; the read then yields the part behind those delivered so far |
| `PipeAnswers.SettledReaderGetsEverything` | nginx/program/zeromq-3.2.3/src/pipe.cpp:100-147 | once everything is flushed and the wake-ups have arrived, check_read says yes exactly until all that the peer has accepted is delivered |
| `PipeAnswers.EveryWriteIsAnswered` | nginx/program/zeromq-3.2.3/src/pipe.cpp:149-175 | in every run check_write and write say yes exactly if the endpoint is active and fewer messages than the limit are outstanding as far as it knows; an accepted part is appended to those before it, a refused one changes nothing |
| `PipeAnswers.EveryFlushPublishes` | nginx/program/zeromq-3.2.3/src/pipe.cpp:177-198 | in every run a flush of an active endpoint publishes all it has accepted and nothing of the unfinished message, and a rollback drops exactly the unfinished message |
| `PipeAnswers.EveryTermIsAnswered` | nginx/program/zeromq-3.2.3/src/pipe.cpp:242-281 | in every run an endpoint that processes pipe_term keeps reading exactly if it is active with delay set; any other acknowledges at once, so without delay a listening one is terminating right away |
| `PipeAnswers.EveryTerminateIsAnswered` | nginx/program/zeromq-3.2.3/src/pipe.cpp:316-376 | in every run terminate announces itself from an end that has not heard of termination, acknowledges at a pending end that is not to wait, and changes nothing else at an end already terminating |
| `PipeAnswers.TerminationFinishes` | nginx/program/zeromq-3.2.3/src/pipe.cpp:242-427 | once an end has called terminate, then however the run goes on, in every quiet state both ends are gone, or one with delay set is about to read on; without delay both are gone |
| `Pipe.Endpoint.constructor` | nginx/program/zeromq-3.2.3/src/pipe.cpp:53-70 | a new endpoint is the initial endpoint of the protocol model |
| `Pipe.Endpoint.CheckRead` | nginx/program/zeromq-3.2.3/src/pipe.cpp:100-122 | does the check_read step of the protocol model and says yes exactly if the endpoint may read and a part comes next; the assertion after probe holds |
| `Pipe.Endpoint.Read` | nginx/program/zeromq-3.2.3/src/pipe.cpp:124-147 | does the read step of the protocol model: whole messages are counted and the credit sent at every multiple of the low watermark |
| `Pipe.Endpoint.CheckWrite` | nginx/program/zeromq-3.2.3/src/pipe.cpp:149-162 | does the check_write step of the protocol model |
| `Pipe.Endpoint.Write` | nginx/program/zeromq-3.2.3/src/pipe.cpp:164-175 | does the write step of the protocol model |
| `Pipe.Endpoint.Rollback` | nginx/program/zeromq-3.2.3/src/pipe.cpp:177-188 | the loop removes exactly the unfinished message, and every part it removes announces more |
| `Pipe.Endpoint.Flush` | nginx/program/zeromq-3.2.3/src/pipe.cpp:190-198 | publishes, and wakes the peer exactly if its reader sleeps |
| `Pipe.Endpoint.Delimit` | nginx/program/zeromq-3.2.3/src/pipe.cpp:411-427 | does the delimiter step of the protocol model in the two states that allow it |
| `Pipe.Endpoint.Terminate` | nginx/program/zeromq-3.2.3/src/pipe.cpp:316-376 | does the three steps of terminate one after the other |
| `Pipe.Endpoint.ProcessActivateRead` | nginx/program/zeromq-3.2.3/src/pipe.cpp:200-206 | does the activate_read step of the protocol model |
| `Pipe.Endpoint.ProcessActivateWrite` | nginx/program/zeromq-3.2.3/src/pipe.cpp:208-217 | does the activate_write step of the protocol model |
| `Pipe.Endpoint.ProcessPipeTerm` | nginx/program/zeromq-3.2.3/src/pipe.cpp:242-281 | does the pipe_term step of the protocol model; the final assertion is not reached |
| `Pipe.Endpoint.ProcessPipeTermAck` | nginx/program/zeromq-3.2.3/src/pipe.cpp:283-314 | does the pipe_term_ack step of the protocol model; the state assertion holds |
| `Pipe.Endpoint.EmptyInbound` | nginx/program/zeromq-3.2.3/src/pipe.cpp:305-310 | the loop reads everything that was flushed |
| `OwnTheorems.EveryRunIsGood` | nginx/program/zeromq-3.2.3/src/own.cpp:56-200 | the invariant of the ownership forest holds in every run with fewer than 2^32 counted commands per object |
| `OwnTheorems.EveryRunShutsDownSafely` | nginx/program/zeromq-3.2.3/src/own.cpp:56-200 | no assertion fails, so nothing is terminated twice; an object that destroys itself leaves no live child and no command pending or announced; term_acks is always the children asked and not heard from plus registered events |
| `OwnTheorems.ShutdownCompletes` | nginx/program/zeromq-3.2.3/src/own.cpp:148-200 | once nothing is under way, no object below a terminated root is left alive |
| `OwnTheorems.CountersTellTheTruthBelowRange` | nginx/program/zeromq-3.2.3/src/own.cpp:184-187 | the guard that compares the 64-bit with the 32-bit counter tells whether all commands were processed, however many were, if and only if fewer than 2^32 were sent |
| `OwnTheorems.WrappedCounterDestroysEarly` | nginx/program/zeromq-3.2.3/src/own.cpp:184-200 | a run: an object terminated with n > 0 announced commands pending is deleted at once, and the first of them reaches a deleted object, if and only if n is a multiple of 2^32 |
| `OwnShutdown.TerminateCompletes` | nginx/program/zeromq-3.2.3/src/own.cpp:88-141 | partial shutdown: once a root, or an object whose owner has sent itself own for it, has called terminate, then however the run goes on nothing at it or below it is alive in any quiet state |
| `OwnShutdown.TermChildCompletes` | nginx/program/zeromq-3.2.3/src/own.cpp:83-109 | the same once an owner terminates an object it owns |
| `OwnShutdown.RequestIsHeardIff` | nginx/program/zeromq-3.2.3/src/own.cpp:88-109 | a request the owner processes makes it send term and await one more acknowledgement if and only if the child is owned then; before own, and after term was sent, it is ignored and nothing changes |
| `OwnShutdown.EarlyRequestIsIgnored` | nginx/program/zeromq-3.2.3/src/own.cpp:71-109 | a run: a child that asks to terminate between plug and own is ignored, and lives on in the quiet state that follows |
| `OwnShutdown.HeldObjectLives` | nginx/program/zeromq-3.2.3/src/own.cpp:165-200 | an object is not deleted while fewer events were unregistered than registered, nor before the commands announced for it have been delivered, whatever else happens |
| `OwnShutdown.RegisteringCounts` | nginx/program/zeromq-3.2.3/src/own.cpp:165-177 | registering and announcing add to what an object waits for, unregistering and delivering take away from it, one by one |
| `OwnShutdown.LaunchedIsOwned` | nginx/program/zeromq-3.2.3/src/own.cpp:71-81 | in every quiet state each live object that was launched is in the owned set of its live owner |
| `OwnShutdown.LaunchMakesAChild` | nginx/program/zeromq-3.2.3/src/own.cpp:71-81 | a launch makes a live child with plug in its inbox, and ends with own for it in the inbox of the owner |
| `Own.TermsInAnyOrder` | nginx/program/zeromq-3.2.3/src/own.cpp:153-155 | the order in which owned objects are asked to terminate does not matter |
| `Own.IdsCount` | nginx/program/zeromq-3.2.3/src/own.cpp:156 | the size of a set of objects is the number of places in the forest it stands for, so the acknowledgements registered are those awaited |
| `Own.OwnObject.constructor` | nginx/program/zeromq-3.2.3/src/own.cpp:25-33 | a new object is a root of the forest |
| `Own.OwnObject.LaunchChild` | nginx/program/zeromq-3.2.3/src/own.cpp:71-81 | objects and pointers before and after are the forest before and after the two steps of a launch |
| `Own.OwnObject.CheckTermAcks` | nginx/program/zeromq-3.2.3/src/own.cpp:184-200 | on separate objects tied to the forest, the call leads to the forest's next state; the owned set is empty when it is asserted to be |
| `Own.OwnObject.ProcessSeqnum` | nginx/program/zeromq-3.2.3/src/own.cpp:62-69 | the same for a counted command processed |
| `Own.OwnObject.ProcessTermReq` | nginx/program/zeromq-3.2.3/src/own.cpp:88-109 | the same for a child's request: set and pointer operations on objects act as those on their places; what the step brings about is stated by RequestIsHeardIff and TerminateCompletes |
| `Own.OwnObject.ProcessOwn` | nginx/program/zeromq-3.2.3/src/own.cpp:111-123 | the same for a child announced, before and during shutdown |
| `Own.OwnObject.TermOwned` | nginx/program/zeromq-3.2.3/src/own.cpp:153-155 | the loop over the set of objects sends one term to each of them and to nobody else, whatever the order |
| `Own.OwnObject.ProcessTerm` | nginx/program/zeromq-3.2.3/src/own.cpp:148-163 | the loop, the count and the check lead to the forest's single step; the double-termination assertion holds |
| `Own.OwnObject.UnregisterTermAck` | nginx/program/zeromq-3.2.3/src/own.cpp:170-177 | the same for an acknowledgement; the assertion holds |
| `Own.OwnObject.Terminate` | nginx/program/zeromq-3.2.3/src/own.cpp:125-141 | a root terminates itself, anyone else asks its owner, as the forest's step says |
| `Own.OwnObject.ProcessCommand` | nginx/program/zeromq-3.2.3/src/object.cpp:59-93 | the oldest command of the object's own mailbox is dispatched as the forest's step says, moving the counter exactly for the counted ones |
| `TrieNodes.TrieNode.ExtendTable` | nginx/program/zeromq-3.2.3/src/trie.cpp:67-117 | gives a character its slot in any of the three table forms, keeping every child |
| `TrieNodes.TrieNode.PrepareChild` | nginx/program/zeromq-3.2.3/src/trie.cpp:67-134 | finds or creates the child for a character, as the value-level operation does |
| `TrieNodes.TrieNode.Prune` | nginx/program/zeromq-3.2.3/src/trie.cpp:152-252 | drops a redundant child and compacts the table at whichever end it lost, down to the single-child form |
| `Trie.Add` | nginx/program/zeromq-3.2.3/src/trie.cpp:59-135 | raises the count of the topic; true exactly from 0 to 1 |
| `Trie.Rm` | nginx/program/zeromq-3.2.3/src/trie.cpp:137-254 | lowers the count of the topic; true exactly from 1 to 0; absent topics change nothing |
| `Trie.Check` | nginx/program/zeromq-3.2.3/src/trie.cpp:256-288 | the loop answers as the nodes along the data do |
| `Trie.HoldsPrefix` | nginx/program/zeromq-3.2.3/src/trie.cpp:256-288 | that answer is true exactly if some stored topic is a prefix of the data |
| `PathBuffer.PathBuffer.Adjust` | nginx/program/zeromq-3.2.3/src/trie.cpp:306-311 | after adjusting there is room for one more byte, never less than the caller knew of, and the path is kept |
| `Trie.Apply` | nginx/program/zeromq-3.2.3/src/trie.cpp:298-332 | walking with one shared buffer, reallocated on the way down and its capacity passed by value: every write is within capacity, deeper calls leave the path alone, and what each callback finds in the buffer are exactly the topics of the visit |
| `Trie.ApplyAll` | nginx/program/zeromq-3.2.3/src/trie.cpp:290-296 | the same from an empty buffer, for the whole trie |
| `TrieTheorems.VisitsEveryTopicOnce` | nginx/program/zeromq-3.2.3/src/trie.cpp:298-332 | a visit meets every stored topic exactly once and no other |
| `Trie.AddCounts` | nginx/program/zeromq-3.2.3/src/trie.cpp:59-135 | adding changes the count of that topic alone and keeps every node compact |
| `Trie.RmCounts` | nginx/program/zeromq-3.2.3/src/trie.cpp:137-254 | removing changes the count of that topic alone and keeps every node compact |
| `Trie.RmUndoesAdd` | nginx/program/zeromq-3.2.3/src/trie.cpp:59-254 | a removal after an addition restores the shape |
| `TrieTheorems.ShapeIsDetermined` | nginx/program/zeromq-3.2.3/src/trie.cpp:59-254 | tries with equal contents have equal shape whatever their history, apart from min in childless nodes |
| `Mtrie.Add` | nginx/program/zeromq-3.2.3/src/mtrie.cpp:69-149 | adds the pipe; true exactly if the topic had no subscriber |
| `Mtrie.Rm` | nginx/program/zeromq-3.2.3/src/mtrie.cpp:286-380 | does the removal on nodes |
| `Mtrie.RmAll` | nginx/program/zeromq-3.2.3/src/mtrie.cpp:161-279 | removes the pipe everywhere, compacting on the way back; with one shared buffer as above, what each callback finds in it are exactly the topics of the visit |
| `Mtrie.RmEverywhere` | nginx/program/zeromq-3.2.3/src/mtrie.cpp:152-159 | the same from an empty buffer: the topics reported are those that lose their last subscriber |
| `Mtrie.Match` | nginx/program/zeromq-3.2.3/src/mtrie.cpp:382-423 | signals the pipe sets of the nodes along the data |
| `MtrieSpec.SubscribeActsOnTheMap` | nginx/program/zeromq-3.2.3/src/mtrie.cpp:69-149 | adding acts as on a map from topics to sets of pipes and keeps every node compact |
| `MtrieSpec.UnsubscribeActsOnTheMap` | nginx/program/zeromq-3.2.3/src/mtrie.cpp:286-380 | removing acts as on the map; it fails exactly if others hold the topic and the pipe does not; for a held subscription it reports exactly the last one |
| `MtrieSpec.NodesLeadToSubscribers` | nginx/program/zeromq-3.2.3/src/mtrie.cpp:286-310 | a node exists for a topic exactly if it is empty or a prefix of a topic with subscribers: the cases in which removing an unheld topic is reported as the last one |
| `MtrieSpec.WithoutPipeGets` | nginx/program/zeromq-3.2.3/src/mtrie.cpp:161-279 | removing a pipe everywhere acts as on the map |
| `MtrieSpec.WithoutPipeCompact` | nginx/program/zeromq-3.2.3/src/mtrie.cpp:161-279 | removing a pipe everywhere leaves live_nodes right, table ends non-null and no redundant child |
| `MtrieSpec.EmptiedOnce` | nginx/program/zeromq-3.2.3/src/mtrie.cpp:161-175 | the callback is called exactly once for each topic that loses its last subscriber |
| `XPub.StepTruthful` | nginx/program/zeromq-3.2.3/src/xpub.cpp:41-80 | one attachment, message, terminated pipe or delivery from a state whose notifications are true: it fails exactly on unsubscribing from a topic that only others hold, and they stay true exactly if it does not attach the first subscriber of the empty topic as wanting everything |
| `XPub.EveryRunIsTruthful` | nginx/program/zeromq-3.2.3/src/xpub.cpp:41-188 | after any run, pipes that want everything included, replaying all notifications delivered and pending gives exactly the topics with a subscriber, but for the empty topic from the moment its first subscriber was attached silently until it has none or a verbose socket repeats it; a run fails exactly if it meets such an unsubscription |
| `XPub.ForeignUnsubscriptionFails` | nginx/program/zeromq-3.2.3/src/mtrie.cpp:290-292 | a run of two peers that fails the assertion |
| `XPub.SubscribeToAllTruthfulIff` | nginx/program/zeromq-3.2.3/src/xpub.cpp:46-49 | attaching a pipe that wants everything keeps the notifications true, if and only if the empty topic has a subscriber already |
| `XPub.SilentSubscription` | nginx/program/zeromq-3.2.3/src/xpub.cpp:46-49 | a run: the first pipe of a new socket, attached as wanting everything, is a subscriber no notification tells of |
| `XPubNotes.EveryStepAddsWhatIsOwed` | nginx/program/zeromq-3.2.3/src/xpub.cpp:56-167 | in every run each step adds, behind the notifications there are, exactly those it owes, told by the subscribers alone: a subscription if the socket is verbose or nobody held the topic, an unsubscription if it takes the last subscriber or names an unheld beginning of a held topic, and one withdrawal for each topic a lost peer held alone; the user takes the oldest first |
| `XPubNotes.EveryAnnouncementIsNews` | nginx/program/zeromq-3.2.3/src/xpub.cpp:56-80 | in every run of a socket that is never verbose no topic is announced twice without having been withdrawn in between |
| `XPubNotes.WithdrawalIsNewsIff` | nginx/program/zeromq-3.2.3/src/mtrie.cpp:286-310 | an unsubscription passed on withdraws a topic the user knows of, if and only if its peer holds it and it is not the untold empty topic |
| `XPubNotes.WithdrawalOfNothing` | nginx/program/zeromq-3.2.3/src/mtrie.cpp:286-300 | a run: the first message of a new socket withdraws the empty topic, which was never announced |
| `XPub.MatchesPrefixSubscribers` | nginx/program/zeromq-3.2.3/src/mtrie.cpp:382-423 | a message matches exactly the pipes that subscribe to a prefix of it |
| `Publisher.Socket.AttachPipe` | nginx/program/zeromq-3.2.3/src/xpub.cpp:41-49 | the pipe joins the distributor; one that wants everything is subscribed to the empty topic without a notification |
| `Publisher.Socket.ReadMessage` | nginx/program/zeromq-3.2.3/src/xpub.cpp:62-76 | applies one subscription message to trie and pending queue as the bookkeeping prescribes, which EveryStepAddsWhatIsOwed pins to the subscribers; subscribers stay attached pipes |
| `Publisher.Socket.ReadActivated` | nginx/program/zeromq-3.2.3/src/xpub.cpp:56-80 | the loop applies all waiting messages in order |
| `Publisher.Socket.PipeTerminated` | nginx/program/zeromq-3.2.3/src/xpub.cpp:102-110 | one notification for each topic left without subscribers; the pipe leaves the distributor by the termination of the array model, whose regions lose exactly that pipe if and only if all three boundaries are kept |
| `Publisher.Socket.Recv` | nginx/program/zeromq-3.2.3/src/xpub.cpp:148-167 | hands over the oldest pending notification |
| `Publisher.Socket.Send` | nginx/program/zeromq-3.2.3/src/xpub.cpp:118-141 | the first part goes, once each, to exactly the eligible pipes with room that subscribe to a prefix of it; a later part to exactly those still matching that have room |
| `PipeArray.Pipes.PushBack` | nginx/program/zeromq-3.2.3/src/array.hpp:106-111 | appends and keeps every stored index right |
| `PipeArray.Pipes.Erase` | nginx/program/zeromq-3.2.3/src/array.hpp:113-122 | the last item takes the place of the erased one; every stored index stays right |
| `PipeArray.Pipes.Exchange` | nginx/program/zeromq-3.2.3/src/array.hpp:124-131 | swaps two items together with their stored indices |
| `PipeArray.Pipes.Index` | nginx/program/zeromq-3.2.3/src/array.hpp:138-141 | the stored index is the position |
| `PipeArray.ErasedKeeps` | nginx/program/zeromq-3.2.3/src/array.hpp:117-122 | erasing loses that item alone |
| `DistRuns.StepIsGoodIff` | nginx/program/zeromq-3.2.3/src/dist.cpp:41-172 | any call at any time on the array with its counters, terminations included, keeps counters in order and messages whole if and only if: a pipe marked is ignored, or took every part so far with an active pipe left to mark; a part goes to pipes that took the part before; a pipe that goes away does so between messages, or with the matching boundary kept, or the pipe moved into its place took every part so far |
| `DistRuns.EveryRunIsWhole` | nginx/program/zeromq-3.2.3/src/dist.cpp:41-172 | over every run of such calls matching <= active <= eligible <= all, all eligible pipes are active between messages, and a pipe takes a part only if it took all earlier parts of that message |
| `DistRuns.OneWayOfSendingIsWhole` | nginx/program/zeromq-3.2.3/src/xpub.cpp:118-141 | a socket that sends to matching pipes, matched between messages, or one that sends to all (xsub.cpp:99-103), tears no message, as long as every pipe that goes away in mid-message leaves the boundary its parts go up to in place, or is replaced by a pipe that took every part |
| `DistRuns.EveryRegionHoldsTheRightPipes` | nginx/program/zeromq-3.2.3/src/dist.cpp:41-172 | in every run whose terminations keep all three boundaries and whose marked pipes are active or ignored, each region holds exactly the pipes that the plain grouping of pipes says |
| `DistRuns.MatchIsGoodIff` | nginx/program/zeromq-3.2.3/src/dist.cpp:59-72 | marking a pipe at any time keeps counters and wholeness, if and only if the pipe is ignored, or has taken every part so far and is marked already or an active pipe is left to mark |
| `DistRuns.SendIsGoodIff` | nginx/program/zeromq-3.2.3/src/dist.cpp:106-127 | sending a part to all or to matching pipes keeps counters and wholeness, if and only if its takers took the part before |
| `DistRuns.ContinuingForAllIff` | nginx/program/zeromq-3.2.3/src/dist.cpp:106-110 | continuing a message for all pipes keeps it whole whoever refuses, if and only if all active pipes took the last part |
| `DistRuns.TerminationIsGoodIff` | nginx/program/zeromq-3.2.3/src/dist.cpp:79-90 | a pipe that goes away keeps counters and wholeness, if and only if no message is being sent, or the boundary of the matching pipes is kept, or the last pipe, which takes the free place, has taken every part so far |
| `DistRuns.TerminationTearsMatchingIff` | nginx/program/zeromq-3.2.3/src/dist.cpp:79-90 | after a pipe has gone away in mid-message, the next part to the matching pipes keeps the message whole whoever refuses, if and only if the boundary of the matching pipes is kept or the last pipe has taken every part so far |
| `DistRuns.TerminationTearsAllIff` | nginx/program/zeromq-3.2.3/src/dist.cpp:79-90 | the same for the next part to all pipes, at the boundary of the active pipes |
| `DistRuns.TerminationReadmitsIff` | nginx/program/zeromq-3.2.3/src/dist.cpp:79-90 | a pipe that goes away makes no passive pipe eligible, and no other eligible one passive, if and only if the boundary of the eligible pipes is kept; otherwise it makes exactly the last pipe eligible |
| `DistRuns.RefusersWait` | nginx/program/zeromq-3.2.3/src/dist.cpp:179-189 | a pipe that is not eligible stays so, and takes no part of any message sent, finished or begun, until it is activated again or moved by the termination of another pipe |
| `DistRuns.ReadmittedPipeIsServed` | nginx/program/zeromq-3.2.3/src/dist.cpp:41-127 | a pipe attached, or activated again after a refusal, in mid-message or not, takes the next message sent to all for which it has room, however many calls come before that do not take it out of the eligible ones |
| `DistRuns.EligibleStays` | nginx/program/zeromq-3.2.3/src/dist.cpp:41-172 | an eligible pipe stays so through a step if and only if it does not refuse a part, does not go away, and is not pushed out by the termination of another pipe |
| `DistRuns.FirstPartGoesToTheEligible` | nginx/program/zeromq-3.2.3/src/dist.cpp:106-127 | between messages a part to all is taken by exactly the eligible pipes with room, and one to the matching pipes by exactly those of them with room |
| `DistRuns.MarkedIsMatching` | nginx/program/zeromq-3.2.3/src/dist.cpp:59-72 | between messages a pipe that is marked is one of the matching ones if and only if it is eligible |
| `DistRuns.BeginningHappens` | nginx/program/zeromq-3.2.3/src/dist.cpp:41-127 | a run from the start: three pipes are attached, two matched, and these have taken the first part of a message |
| `DistRuns.TerminationTearsAMessage` | nginx/program/zeromq-3.2.3/src/dist.cpp:79-90 | from there the first pipe goes away: the last part goes to the third pipe alone, which did not get the first, and not to the second, which did |
| `DistRuns.TerminationReadmitsARefuser` | nginx/program/zeromq-3.2.3/src/dist.cpp:79-90 | a run from the start: the third of three pipes refuses a message, the first goes away, and the next message goes to the third alone, which was not activated, and not to the second, which refused nothing |
| `DistRuns.MixedSendTears` | nginx/program/zeromq-3.2.3/src/dist.cpp:59-127 | from the same beginning, continuing for all pipes, or marking the third, gives the third the second part alone; no socket of the library makes these calls |
| `DistRuns.LateMatchSpoilsRegions` | nginx/program/zeromq-3.2.3/src/dist.cpp:65-71 | from the same beginning, a fourth pipe attached in mid-message and then marked pushes the third out of the active region |
| `DistArray.PushedOutGroups` | nginx/program/zeromq-3.2.3/src/dist.cpp:181-188 | the three swaps of a failed write take that pipe alone out of all three regions and leave the part already scanned alone |
| `DistArray.DistributeActs` | nginx/program/zeromq-3.2.3/src/dist.cpp:129-172 | the retry loop tries every matching pipe once: those with room, and only those, are written to, once each and in order, and exactly the others leave the three regions |
| `DistArray.SendActs` | nginx/program/zeromq-3.2.3/src/dist.cpp:106-127 | sending to matching or to all pipes acts on the groups as it should, and exactly the takers are written to, once each |
| `DistArray.MatchKeepsRegionsIffActive` | nginx/program/zeromq-3.2.3/src/dist.cpp:65-71 | of the pipes match does not ignore, marking one keeps counters ordered and the active region the same if and only if it is active; an eligible inactive one, which exists only in mid-message, breaks them |
| `DistArray.EraseKeepsRegionIff` | nginx/program/zeromq-3.2.3/src/array.hpp:117-122 | erasing an item takes exactly that item out of a region, if and only if it is outside, or the last of it, or the region is the whole array |
| `DistArray.RegionAfter` | nginx/program/zeromq-3.2.3/src/array.hpp:117-122 | what a region holds after an erase: it has lost that item, and if its boundary is not kept also its last one, for which it has got the last item of the array |
| `DistArray.TerminatedActsIff` | nginx/program/zeromq-3.2.3/src/dist.cpp:79-90 | after a termination the counters are in order and the pipe is gone; the regions lose exactly that pipe if and only if all three boundaries are kept |
| `Dist.Distributor.Attach` | nginx/program/zeromq-3.2.3/src/dist.cpp:41-57 | the regions change as the groups of pipes do |
| `Dist.Distributor.Match` | nginx/program/zeromq-3.2.3/src/dist.cpp:59-72 | the regions change as the groups of pipes do, unless the pipe is eligible and not active; it is then swapped all the same, and array and counters are as stated |
| `Dist.Distributor.Unmatch` | nginx/program/zeromq-3.2.3/src/dist.cpp:74-77 | no pipe is matching any more |
| `Dist.Distributor.Activated` | nginx/program/zeromq-3.2.3/src/dist.cpp:92-104 | the regions change as the groups of pipes do |
| `Dist.Distributor.Terminated` | nginx/program/zeromq-3.2.3/src/dist.cpp:79-90 | does the termination of the array model; the regions lose exactly that pipe if and only if each boundary is at or below it, just above it, or at the end |
| `Dist.Distributor.Write` | nginx/program/zeromq-3.2.3/src/dist.cpp:179-193 | a refusal moves that pipe alone out of the regions |
| `Dist.Distributor.Distribute` | nginx/program/zeromq-3.2.3/src/dist.cpp:129-172 | the retry loop on the array ends as in the array model, having tried every matching pipe once |
| `Dist.Distributor.SendToMatching` | nginx/program/zeromq-3.2.3/src/dist.cpp:112-127 | distributes to the matching pipes, exactly those with room getting the part once each, and readmits the eligible ones after the last part |
| `Dist.Distributor.SendToAll` | nginx/program/zeromq-3.2.3/src/dist.cpp:106-110 | the same for all active pipes |
| `RoundRobin.DeactivateWaits` | nginx/program/zeromq-3.2.3/src/fq.cpp:104-106 | swapping out the pipe that has the turn drops that pipe alone and brings no other further away |
| `RoundRobin.SettleWaits` | nginx/program/zeromq-3.2.3/src/fq.cpp:81-108 | skipping idle pipes loses no ready pipe and brings none further away |
| `RoundRobin.SettleSkips` | nginx/program/zeromq-3.2.3/src/fq.cpp:81-108 | the loop stops at a ready pipe, or with no active pipe left, having only permuted the pipes |
| `TurnOrder.DeactivateAdvances` | nginx/program/zeromq-3.2.3/src/fq.cpp:104-107 | the pipes are tried in a fixed order: the one that has the turn, those above it from the last active one down, the first, and those between from the last down; swapping out an idle pipe moves on to the next in that order |
| `TurnOrder.CallServesFirstReady` | nginx/program/zeromq-3.2.3/src/fq.cpp:74-116 | a call serves the first pipe in that order that is ready, and nobody exactly if no active pipe is; it fails exactly in mid-message with the pipe that has the turn not ready |
| `TurnOrder.PollTellsTheTruth` | nginx/program/zeromq-3.2.3/src/fq.cpp:118-140 | between messages has_in and has_out say yes exactly if an active pipe is ready, which is exactly if the call that follows serves somebody; having asked does not change whom it serves |
| `FairRuns.BoundedWaiting` | nginx/program/zeromq-3.2.3/src/fq.cpp:40-140 | in every run, pipes that go away included: while a ready active pipe is not served, every call that does not fail serves someone, and whole messages served to others plus turns still to wait never exceed the turns at first plus pipes that joined plus what terminations cost it; the load balancer (lb.cpp:93-147) skips and advances in the same way, with pipes that have room as the ready ones |
| `FairRuns.ServedWithinARound` | nginx/program/zeromq-3.2.3/src/fq.cpp:40-140 | a ready pipe is served after at most active - 1 whole messages on others, plus one for each pipe that joins and what terminations cost it |
| `FairRuns.MessagesAreReadWhole` | nginx/program/zeromq-3.2.3/src/fq.cpp:47-116 | in every run, pipes that go away included, the parts of a message are read from one pipe, unless a pipe goes away in mid-message that has the turn or moves it |
| `FairRuns.TurnAfterTermination` | nginx/program/zeromq-3.2.3/src/fq.cpp:47-60 | who has the turn after a pipe has gone away: the same pipe, unless that one is gone or is the last active pipe and the other stood between the first and it; then the first pipe if the turn was at the last active one, and else the last active one |
| `FairRuns.NextPartAfterTermination` | nginx/program/zeromq-3.2.3/src/fq.cpp:74-140 | in mid-message the next part is then read from that pipe, and the assertion on whole messages fails exactly if it has nothing; with no active pipe left nothing is received, although has_in says there is |
| `FairRuns.LossTearsAMessage` | nginx/program/zeromq-3.2.3/src/fq.cpp:47-116 | a run from the start: the first part is read from one pipe, which goes away, and the second part from another |
| `Schedulers.FairQueue.Attach` | nginx/program/zeromq-3.2.3/src/fq.cpp:40-45 | the pipe joins behind the active ones |
| `Schedulers.FairQueue.Activated` | nginx/program/zeromq-3.2.3/src/fq.cpp:62-67 | the pipe rejoins behind the active ones |
| `Schedulers.FairQueue.Terminate` | nginx/program/zeromq-3.2.3/src/fq.cpp:47-60 | the pipe leaves, as the value-level operation says |
| `Schedulers.FairQueue.RecvPipe` | nginx/program/zeromq-3.2.3/src/fq.cpp:74-116 | the loop serves the first ready pipe in the order of the turn, the last active pipe taking the place of each idle one; its assertion fails exactly if the pipe in mid-message is not ready |
| `Schedulers.FairQueue.HasIn` | nginx/program/zeromq-3.2.3/src/fq.cpp:118-140 | true exactly in mid-message or if an active pipe is ready; only idle pipes are swapped out |
| `Schedulers.TerminatedKeepsActive` | nginx/program/zeromq-3.2.3/src/fq.cpp:47-60 | a pipe that goes away leaves every other pipe active or idle as it was |
| `Schedulers.TerminationMovesTheTurn` | nginx/program/zeromq-3.2.3/src/lb.cpp:47-65 | when another pipe goes away in mid-message the turn stays with the pipe in mid-message, unless that one is the last active pipe and the other stands between the first and it: then, and only then, the turn moves to the first pipe |
| `Schedulers.WaitAfterTermination` | nginx/program/zeromq-3.2.3/src/fq.cpp:47-60 | a pipe that goes away brings another further from its turn exactly if that is the last active pipe and the other stood between the first pipe and the turn, and then by as many turns as its place says |
| `Schedulers.TerminationDelays` | nginx/program/zeromq-3.2.3/src/fq.cpp:47-60 | four active pipes with the third at its turn: the second goes away, and the fourth is two turns away instead of one |
| `LoadBalancer.EveryMessageIsCutOrWhole` | nginx/program/zeromq-3.2.3/src/lb.cpp:47-124 | in every run from any good state, pipes leaving included, the first part of a message is sent, and its parts go to one pipe up to some point and nowhere after it, unless a termination has moved the turn |
| `LoadBalancer.NothingIsDroppedNeedlessly` | nginx/program/zeromq-3.2.3/src/lb.cpp:47-124 | in every run in which no pipe leaves in the middle of the message it carries, and no turn moves, no part is dropped |
| `LoadBalancer.SendPicksFirstReady` | nginx/program/zeromq-3.2.3/src/lb.cpp:74-124 | between messages a part is sent to the first pipe with room in the order of the turn, and to nobody exactly if none has room |
| `LoadBalancer.MovedTurnTears` | nginx/program/zeromq-3.2.3/src/lb.cpp:47-124 | after a pipe has left in mid-message, and if the pipe that then has the turn has room, the next part goes to another pipe if and only if the turn has moved |
| `LoadBalancer.TornMessage` | nginx/program/zeromq-3.2.3/src/lb.cpp:47-124 | three pipes, the third in mid-message: the second leaves and the last part goes to the first |
| `LoadBalancer.PreludeHappens` | nginx/program/zeromq-3.2.3/src/lb.cpp:41-124 | a run from the start that leads there |
| `LoadBalancer.Balancer.Attach` | nginx/program/zeromq-3.2.3/src/lb.cpp:41-45 | the pipe joins behind the active ones |
| `LoadBalancer.Balancer.Activated` | nginx/program/zeromq-3.2.3/src/lb.cpp:67-72 | the pipe rejoins behind the active ones |
| `LoadBalancer.Balancer.Terminate` | nginx/program/zeromq-3.2.3/src/lb.cpp:47-65 | the pipe leaves; the rest of a message it was in the middle of will be dropped |
| `LoadBalancer.Balancer.Send` | nginx/program/zeromq-3.2.3/src/lb.cpp:74-124 | sends to the first pipe with room in the order of the turn, by the same skipping as the fair queue, or drops the part in dropping mode |
| `LoadBalancer.Balancer.HasOut` | nginx/program/zeromq-3.2.3/src/lb.cpp:126-147 | true exactly in mid-message or if an active pipe has room; only pipes without room are swapped out |
| `Wire.GetAfterPut` | nginx/program/zeromq-3.2.3/src/wire.hpp:72-94 | reading back eight bytes in network order gives the number written |
| `CodecTheorems.EveryReceptionIsFaithful` | nginx/program/zeromq-3.2.3/src/decoder.hpp:97-164 | for either framing, any messages within the limits, any cutting into calls and any finite pattern of refusals: no failure, the bytes reported are those of the messages handed over plus what is consumed of the next frame, the messages handed over are exactly the originals whose frames are used up, but for one the sink holds up, and all of them exactly if the stream is used up and none is held up |
| `CodecTheorems.EverythingArrives` | nginx/program/zeromq-3.2.3/src/decoder.hpp:97-164 | after any such history, offering the rest of the stream to an accepting sink hands over every message |
| `CodecTheorems.WillingSinkTakesAll` | nginx/program/zeromq-3.2.3/src/decoder.hpp:97-146 | while the sink accepts, a call takes every byte it is given |
| `CodecTheorems.SplittingDoesNotMatter` | nginx/program/zeromq-3.2.3/src/decoder.hpp:97-146 | for any bytes, valid or not, a buffer fed in two calls has the effect of one |
| `StreamParser.EveryStreamIsParsed` | nginx/program/zeromq-3.2.3/src/decoder.hpp:97-146 | for any bytes, valid or not, any cutting and any answers of the sink: the messages handed over are those that a grammar of frames finds in the bytes taken, but for one held up or refused for good; none is over the limit (decoder.cpp:79, 111; v1_decoder.cpp:83, 118); and unless the sink refuses for good the decoder is dead exactly if those bytes announce an impossible size or one over the limit |
| `StreamParser.HeldMessageIsPutToTheSink` | nginx/program/zeromq-3.2.3/src/decoder.cpp:151-166 | a call that finds a message held up puts it to the sink first: taken, it goes on with a new frame; put off, no byte is taken; refused for good, the decoder is dead |
| `StreamLimits.WillingSinkGetsTheParse` | nginx/program/zeromq-3.2.3/src/decoder.hpp:97-146 | for any stream and after any history, once the sink accepts and the rest is offered, exactly the messages the grammar finds in the stream have been handed over, and the decoder is dead exactly if the stream is in error |
| `StreamLimits.TheLimitStops` | nginx/program/zeromq-3.2.3/src/decoder.cpp:79-115 | of a stream of encoded messages, an accepting sink gets exactly those before the first one over the limit, however the bytes are cut, and the decoder is dead exactly if there is one |
| `StreamLimits.LengthZeroKills` | nginx/program/zeromq-3.2.3/src/decoder.cpp:61-106 | a ZMTP 1.0 frame announcing length 0, in either form of the size, ends the stream whatever follows |
| `StreamLimits.OverTheLimitByOne` | nginx/program/zeromq-3.2.3/src/v1_decoder.cpp:77-106 | an input: a ZMTP 2.0 frame of eleven bytes at a limit of ten ends the stream |
| `StreamLimits.FrameOf300` | nginx/program/zeromq-3.2.3/src/encoder.cpp:82-100 | the very bytes of a frame with 300 bytes of body and more to come, in either framing |
| `StreamLimits.PutIsBigEndian` | nginx/program/zeromq-3.2.3/src/wire.hpp:72-94 | the eight bytes written stand for the number with the most significant byte first |
| `Codec.Decoder.GetBuffer` | nginx/program/zeromq-3.2.3/src/decoder.hpp:73-95 | in place exactly if the field missing is at least as large as the buffer, and then of its size |
| `Codec.Decoder.ProcessBuffer` | nginx/program/zeromq-3.2.3/src/decoder.hpp:97-146 | filled in place or copied, the nested loops, with the actions of ZMTP 1.0 (decoder.cpp:60-166) or ZMTP 2.0 (v1_decoder.cpp:61-159), their limits and errors, have the effect of feeding byte by byte and report the bytes taken |
| `Codec.Decoder.IsStalled` | nginx/program/zeromq-3.2.3/src/decoder.hpp:149-164 | true exactly if the machine is alive and its actions cannot go on without the sink |
| `EncoderSpec.EverySendingIsTheStream` | nginx/program/zeromq-3.2.3/src/encoder.hpp:73-127 | whatever the buffer sizes, and whenever the source is empty, the bytes sent are the stream of the messages pulled up to what is still owed |
| `EncoderSpec.EverySendingPullsInOrder` | nginx/program/zeromq-3.2.3/src/encoder.hpp:73-127 | messages are sent in the order in which the source yields them and none is left out; a batch is smaller than its buffer only if the last pull yielded nothing, and then nothing is owed |
| `EncoderSpec.EndToEnd` | nginx/program/zeromq-3.2.3/src/encoder.hpp:73-127 | for any buffers, cutting and refusals, and also with output still owed: what one side pulled the other side hands over in order, every message whose bytes were sent and taken, and all of them if and only if nothing is owed, left behind or held up |
| `BatchOffset.OffsetIsFirstMessage` | nginx/program/zeromq-3.2.3/src/encoder.hpp:69-91 | the offset reported with a batch is where the first message begins in it, and none is reported exactly if no message begins in it; but if the source runs dry where one was to begin, the size of the batch is reported |
| `BatchOffset.EveryOffsetIsFirstMessage` | nginx/program/zeromq-3.2.3/src/encoder.hpp:69-127 | this holds of every batch in every sequence of requests |
| `BatchOffset.DryOffset` | nginx/program/zeromq-3.2.3/src/encoder.hpp:66-91 | an input at which it differs from its description: a new encoder without a message reports 0 for an empty batch |
| `Codec.Encoder.GetData` | nginx/program/zeromq-3.2.3/src/encoder.hpp:73-127 | the loop, with the actions that pull a message and write its header in either framing (encoder.cpp:50-102), fills the buffer and reports the offset as the machine does, or hands out the message body itself when it is at least as large |
| `MsgModel.StepConserves` | nginx/program/zeromq-3.2.3/src/msg.cpp:104-298 | each init, close, move, copy and multicast step keeps the accounts of every content block |
| `MsgModel.EveryRunConserves` | nginx/program/zeromq-3.2.3/src/msg.cpp:104-298 | in every run a shared content's counter equals the messages that refer to it plus writes still owed or failed and not yet removed; an unshared content has exactly one |
| `MsgModel.FreedExactlyOnce` | nginx/program/zeromq-3.2.3/src/dist.cpp:129-172 | from the start, receivers closing at any time and writes refused at will: content is freed at most once, exactly when no reference is left, no message refers to freed content, and with every message closed everything has been freed |
| `MsgModel.MessagesKeepTheirText` | nginx/program/zeromq-3.2.3/src/msg.cpp:137-186 | a message moved, copied or multicast reads the same where it arrives, and every other message reads as before |
| `Messages.Message.Close` | nginx/program/zeromq-3.2.3/src/msg.cpp:104-135 | fails exactly on an invalid message; otherwise gives up one reference and frees the content exactly if it was the last |
| `Messages.Message.Move` | nginx/program/zeromq-3.2.3/src/msg.cpp:137-156 | takes over content, flags and inline bytes, releases its own content, and leaves an empty message behind |
| `Messages.Message.Copy` | nginx/program/zeromq-3.2.3/src/msg.cpp:158-186 | both messages refer to the content afterwards, with one more reference, also if they shared it before |
| `Messages.Message.AddRefs` | nginx/program/zeromq-3.2.3/src/msg.cpp:250-268 | adds references, turning an unshared message into a shared one |
| `Messages.Message.RmRefs` | nginx/program/zeromq-3.2.3/src/msg.cpp:270-298 | removes references and frees the content exactly if none is left; a message that is not shared is closed; otherwise the message stays as it was |
| `GlobSpec.MatchesIsDenotes` | nginx/program/page-speed-1.9/base/string_util.cc:1289-1339 | token by token matching is cutting the text into pieces that fit: any string for `*`, at most one character for `?`, the character itself otherwise |
| `Glob.CodeIsLimited` | nginx/program/page-speed-1.9/base/string_util.cc:1289-1339 | the matcher computes that meaning with a budget of one wildcard per level of depth left |
| `Glob.MatcherIsSound` | nginx/program/page-speed-1.9/base/string_util.cc:1289-1339 | whatever it accepts, the pattern means, at any depth and for any input |
| `Glob.MatcherIsExact` | nginx/program/page-speed-1.9/base/string_util.cc:1289-1339 | with at most 16 unescaped wildcards it accepts exactly what the pattern means |
| `GlobLimit.CompleteIffFewWildcards` | nginx/program/page-speed-1.9/base/string_util.cc:1291-1293 | it accepts everything the pattern means if and only if the pattern has at most 16 unescaped wildcards, not counting a run of wildcards at its end that starts with `*` |
| `GlobLimit.HardIsRejected` | nginx/program/page-speed-1.9/base/string_util.cc:1291-1293 | the text that shows it for every pattern beyond the limit |
| `GlobLimit.EatSameChars` | nginx/program/page-speed-1.9/base/string_util.cc:1242-1278 | the loop eats exactly the literals in common, escapes included, stepping back over an escape that does not match |
| `GlobLimit.EatWildcard` | nginx/program/page-speed-1.9/base/string_util.cc:1280-1287 | the loop eats exactly the leading wildcards |
| `GlobLimit.MatchPattern` | nginx/program/page-speed-1.9/base/string_util.cc:1289-1339 | the recursion and its loop end and compute the matcher's value |
| `GlobLimit.MatchPatternWide` | nginx/program/page-speed-1.9/base/string_util.cc:1341-1343 | sound for every pattern, exact within the limit |

## Left out

- hiccup: replacing the data pipe of a live endpoint (pipe.cpp:219-240, 429-446) drops messages without resetting the counters, so drain, wake-up and flow-control claims do not cover it.
- LoadBalancer.EveryMessageIsCutOrWhole: says nothing after a termination that moves the turn, because the code then continues the message on another pipe (`MovedTurnTears`).
- OwnTheorems.EveryRunShutsDownSafely: assumes fewer than 2^32 counted commands per object; `CountersTellTheTruthBelowRange` shows what the guard does beyond.
- Own.OwnObject.ProcessTerm: an object is required not to own itself, which no launch brings about.
- Mailbox.Mailbox.Send: describes calls that do not overlap; overlapping ones are the subject of `MailboxModel`.
- Mailbox.Mailbox.Recv: describes calls that do not overlap; overlapping ones are the subject of `MailboxModel`.
- Pipe.Endpoint.Terminate: describes the call without its peer acting in between; the interleaved steps are the subject of `PipeModel`.
- CodecTheorems.EveryReceptionIsFaithful: buffers are values, so pointers into them and failed allocations are not modelled.
- TrieNodes.TrieNode.ExtendTable: a table of one child and the single-child pointer are the same one-element sequence, so the conversions between the two layouts are not modelled.
- MsgModel.EveryRunConserves: counters are unbounded, multicasts of messages without shared content are plain copies, and moving or copying a message onto itself is excluded.
- Other counters: message counters of 64 bits and reference counts of 32 bits in tries and messages are unbounded.
- Memory: nodes, message pipes and the chunks of queue objects are forgotten or counted rather than returned to an allocator, and failed allocations do not occur.
- Weak memory: compare-and-swap, exchange, add and subtract are atomic and sequentially consistent.
- GlobLimit.CompleteIffFewWildcards: asks for some character that is no literal of the pattern; texts and patterns are taken up to their first NUL.
- Sockets, pollers, transports, threads, clocks and random numbers: operating-system plumbing.
- stream_engine_t, session_base_t, ctx_t and reaper_t: dominated by I/O, timers and thread start-up.
- ROUTER, DEALER, REQ and REP sockets, options, addresses and monitor events: thin wrappers and option tables.
- The rest of page-speed and the thumbnail server: logging, URL handling and network proxies.
