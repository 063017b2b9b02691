# A verified model of the ASFvOLT16 driver's indication path

The driver turns asynchronous BAL indications into messages, keeps them in a bounded circular list,
and hands them out one by one to an RPC client that polls.  BAL callbacks and RPC handlers run on
different threads and share the list under one mutex.  This project models

* the circular list itself, updated in place (`IndicationQueue.dfy`), and what it is for: a bounded
  first-in first-out queue that drops its oldest entry when it is full (`Fifo.dfy`, `Ring.dfy`);
* the heap blocks of each message, as the callbacks allocate them and the release routine frees them
  (`Indications.dfy`, `Callbacks.dfy`);
* the whole driver as interleaved threads, with every allocation, lock operation, pointer or counter
  write, free and reply as a step of its own (`CriticalSection.dfy`, `Driver.dfy`), and an invariant
  of all reachable states (`DriverInvariant.dfy`, `DriverFrame.dfy`, `QueueSteps.dfy`,
  `DriverSteps.dfy`, `DriverSectionSteps.dfy`), from which the theorems about runs follow
  (`DriverTheorems.dfy`, `DriverOwnership.dfy`, `DriverHeartbeats.dfy`, `DriverOverlap.dfy`,
  `DriverProgress.dfy`, `DriverCompletion.dfy`);
* the text conversions: ONU serial numbers, the OMCI hex decoder, the hex dump in the log, and the
  SFP presence bitmap (`CText.dfy`, `SerialNumbers.dfy`, `SubscriberTerminal.dfy`, `OmciPacket.dfy`,
  `HexLog.dfy`, `SfpPresence.dfy`).

## Main results

* **No run crashes.** For every sequence of events, with any number of threads, no step dereferences
  a null or freed pointer or frees a block that is not allocated (`DriverTheorems.NoRunCrashes`).
  The allocator may hand out any node address that has no live block, including one used before.
* **Linearizability.** Whenever the mutex is free, the list, the messages in it and both counters are
  those of the same operations run one after the other in lock order (`DriverTheorems.Linearizable`).
* **Single ownership and heap balance.** After every run, inside critical sections too, each node
  address with live blocks belongs to exactly one of a pending indication, the operation that is taking
  it out of the queue, one thread, or one released loss-of-signal message; the last kind is the key that
  `bal_get_ind__free_mem_interface_los` does not free, and it is all that is ever left
  (`DriverOwnership.SingleOwner`, `DriverOwnership.HeapAccount`, `Indications.HeapBalance`).
* **Everything that starts comes to its end.**  Whatever the other threads do, a callback for a
  subscribed object puts exactly its own indication into the queue, once
  (`DriverCompletion.CallbackCompletes`); a poll replies with the message that is oldest when it takes
  the lock and frees it, or replies that there is none (`DriverCompletion.PollCompletes`); a heartbeat
  replies what it has read (`DriverCompletion.HeartbeatCompletes`).  They need at most 25, 17 and 2
  steps of their own, not counting those in which they wait for the mutex.
* **Every message is the right one.**  A delivered message has the kind and the destination of the
  callback that made it (`DriverTheorems.MessagesAreRight`), and each callback is subscribed for exactly
  the objects that its guard accepts (`Callbacks.GuardIsSubscription`).
* **Exact loss condition.** Accepted indication `i` is dropped if and only if indication `i + bound`
  is accepted before `i` is polled (`Fifo.ExactLoss`).
* **The size limit has to be at least two.** The add routine keeps its limit if and only if the limit
  is at least two, because the branch for one node comes before the test for a full list
  (`QueueBound.BoundKeptIff`).  The model's type `Bound` holds exactly those limits; the driver's is
  1000.
* **Exact round trip of serial numbers.** Activation stays within its buffers and recovers a
  discovered serial number if and only if the first three vendor bytes are in 1..127 and the fourth is
  below 128 or is 255 (`SerialNumbers.RoundTripIff`; `SerialNumbers.LastByteLost` is a serial number
  that comes back wrong); through the queue and a poll this is `DriverTheorems.DiscoveryEndToEnd`.
* **Heartbeats, exactly.** A heartbeat reports the up-after-activation state if and only if a callback
  for a state change of the access terminal had ended before the heartbeat read the state
  (`DriverHeartbeats.HeartbeatReplyIff`).  Reading and replying are separate steps, so overlapping
  heartbeats can reply out of order (`DriverOverlap.OverlappingHeartbeatsGoBack`); a reply that comes
  after one with the later state has the earlier state if and only if its heartbeat had read it before
  (`DriverHeartbeats.LaterHeartbeatsIff`).
* **The mutex is always released.**  Whatever the other threads do meanwhile, once the holder has made
  16 steps of its own the mutex has been free (`DriverProgress.LockIsReleased`).

How the interleaving proof works: the invariant for the thread inside the critical section says that
running the rest of its writes without interruption, on the part of memory that belongs to the queue,
would give the specified queue.  One write of the holder keeps this by definition; writes of other
threads do not touch that part of memory.

Where a comment and the code disagree, the model follows the code: the comment at
`src/bal_subscriber_terminal_hdlr.c:65` speaks of a vendor id of 16 bytes, while the code converts
eight characters into four bytes.

## Model

| member | source | states |
|---|---|---|
| Fifo.Conservation | src/bal_indications_queue.c:30-96 | Over any run of adds and polls, the retired entries followed by the pending ones are the accepted ones in order, and the queue never exceeds its bound |
| Fifo.PendingCount | src/bal_indications_queue.c:20-95 | The number of pending entries is accepted minus delivered minus dropped |
| Fifo.RepliesAreDeliveries | src/voltha_bal_driver.c:1051-1068 | Polls return exactly the delivered entries, each once and in order of acceptance |
| Fifo.ExactLoss | src/bal_indications_queue.c:74-95 | An entry is dropped if and only if the entry `bound` places later is accepted while it has not been polled |
| Fifo.Trichotomy | src/bal_indications_queue.c:30-96 | Every accepted entry is delivered, dropped or still pending at its place, and only one of these |
| Fifo.Progress | src/bal_indications_queue.c:30-50 | An entry never moves back, and has left the queue after one poll more than there are entries before it, whatever is added meanwhile |
| Fifo.DrainEmpties | src/bal_indications_queue.c:35-47 | With no adds, n polls remove the first n pending entries |
| Fifo.DrainDelivers | src/voltha_bal_driver.c:1055-1068 | With no adds, the polls deliver the whole content in order and after that report that nothing is present |
| Ring.RingShapeIffWalk | src/bal_indications_queue.c:22-28 | The ring shape holds exactly when the count's number of steps from head visits distinct nodes, the last one is tail, tail leads to head, and both are null exactly when the count is 0 |
| Ring.RingDetermined | src/bal_indications_queue.c:22-28 | The pointers determine the sequence of nodes |
| IndicationQueue.Queue.Get | src/bal_indications_queue.c:30-50 | Takes the oldest node out of the ring, keeps the ring, leaves the node's stale next pointer as it was |
| IndicationQueue.Queue.Link | src/bal_indications_queue.c:52-92 | Some branch always accepts the node; the ring becomes that of the bounded queue; a full list gives up and counts its oldest node |
| IndicationQueue.Queue.Add | src/bal_indications_queue.c:52-96 | As Link, and exactly the displaced node and its message are freed, once |
| IndicationQueue.Queue.LinkedIffRing | src/bal_indications_queue.c:52-82 | The object structure is linked if and only if its pointers have the ring shape within the size limit |
| IndicationQueue.Release | src/bal_indications_queue.c:93-94 | The message is released before the node is freed |
| IndicationQueue.AddIndication | src/bal_indications_hdlr.c:645-650 | The end of a callback puts exactly its message into the queue |
| IndicationQueue.HandleIndication | src/bal_indications_hdlr.c:548-654 | A callback queues a message of its kind for exactly the objects it is subscribed for, and gives up the oldest message exactly when the queue is full |
| Callbacks.GuardIsSubscription | src/asfvolt16_driver.c:59-210 | The guard of each callback accepts exactly the objects for which the callback is subscribed |
| Callbacks.SubscriptionsDisjoint | src/asfvolt16_driver.c:278-282 | No two subscriptions name the same callback or the same kind of object |
| IndicationQueue.PollIndication | src/voltha_bal_driver.c:1051-1097 | Replies with the oldest message marked present and frees message and node, or replies with not present |
| Indications.HeapBalance | src/voltha_bal_driver.c:720-1031 | For every registered case the release frees exactly the blocks the callback allocated, each once, children first, except the key of loss of signal |
| Indications.BlockOwners | src/bal_indications_hdlr.c:673-735 | Which kinds of messages have which blocks |
| Indications.FreesSafelyIff | src/voltha_bal_driver.c:773-782 | A free sequence is safe if and only if its blocks are there and distinct and no block goes before one that is reached through it |
| Indications.AllocatesSafelyIff | src/bal_indications_hdlr.c:562-642 | An allocation sequence is safe if and only if each block is new and its parents come before it |
| Callbacks.BuildProcessingError | src/bal_indications_hdlr.c:121-160 | The callback builds a complete message, with the blocks in the order of the allocation table |
| Callbacks.BuildKeyAndData | src/bal_indications_hdlr.c:407-457 | The callback builds a complete message, with the blocks in the order of the allocation table |
| Callbacks.BuildDiscovery | src/bal_indications_hdlr.c:558-651 | The callback builds a complete discovery message that holds the two texts of the ONU's serial number |
| Callbacks.BuildAlarm | src/bal_indications_hdlr.c:673-735 | The callback builds a complete alarm message |
| Callbacks.BuildPacket | src/bal_indications_hdlr.c:1472-1605 | The callback builds a complete packet message, with a detail block for three destination types |
| Callbacks.BuildOmciResponse | src/bal_indications_hdlr.c:1627-1723 | The callback builds a complete OMCI response |
| Indications.FreeInterfaceLos | src/voltha_bal_driver.c:758-763 | Leaves exactly the key |
| Indications.FreePacket | src/voltha_bal_driver.c:872-895 | Frees the blocks of a packet message in the order of the release table, never through a freed block |
| Indications.FreeOmciResponse | src/voltha_bal_driver.c:897-914 | Frees the blocks of an OMCI response in the order of the release table |
| Indications.FreeMem | src/voltha_bal_driver.c:935-1031 | Dispatches to a routine that releases the whole message according to the table |
| QueueBound.BoundKeptIff | src/bal_indications_queue.c:66-85 | Adding nodes one by one keeps the size limit and never faults if and only if the limit is at least two |
| QueueBound.SmallLimitsFail | src/bal_indications_queue.c:66-73 | With a limit of 0 or 1, one node more than the limit is stored |
| CriticalSection.AddEffect | src/bal_indications_queue.c:52-96 | The single writes of the add routine, in order, turn a ring into the ring of the bounded queue, count a drop exactly when full, and leave of a displaced message what the release table leaves |
| CriticalSection.GetEffect | src/bal_indications_queue.c:30-50 | The single writes of the get routine remove the head node and change no block or message |
| CriticalSection.ReleaseEffect | src/voltha_bal_driver.c:935-1031 | The frees of the release routine run without fault on a whole message and leave its node and what the table leaves |
| CriticalSection.ExecFrame | src/bal_indications_queue.c:52-95 | A write that succeeds on the queue's part of memory does the same on all of memory and touches no other node |
| DriverTheorems.StepKeepsInv | src/bal_indications_queue.c:52-96 | Every step from a state of the invariant succeeds and leads to such a state |
| DriverTheorems.NoRunCrashes | src/voltha_bal_driver.c:1051-1097 | In every interleaving, no step faults: no null or freed pointer is dereferenced and no block is freed twice |
| DriverTheorems.Linearizable | src/bal_indications_hdlr.c:92-97 | Whenever the lock is free, the ring, the messages and the counters are those of a sequential run in lock order |
| DriverOwnership.SingleOwner | src/bal_indications_queue.c:83-95 | After every run, every node address with live blocks has exactly one owner: a pending indication, the operation that is taking it out of the queue, one thread, or one left-over key |
| DriverOwnership.HeapAccount | src/voltha_bal_driver.c:720-1031 | After every run, the live blocks are those of pending messages, what is left of the one that an add is about to free, those that threads have in hand, and one key per released loss of signal |
| DriverTheorems.RepliesAreRight | src/voltha_bal_driver.c:1051-1074 | Each poll writes back the message that its place in the lock order calls for, and every poll is answered or under way |
| DriverTheorems.MessagesAreRight | src/bal_indications_hdlr.c:1028-1050 | Every delivered message has the kind and the destination of the accepted callback that made it, and serial number texts exactly if it is a discovery |
| DriverTheorems.DiscoveryEndToEnd | src/bal_indications_hdlr.c:601-650 | A delivered discovery message comes from an accepted callback, and activation recovers that ONU's serial number exactly when its vendor bytes survive printing, and then does not skip it |
| DriverHeartbeats.HeartbeatReplyIff | src/voltha_bal_driver.c:93-99 | A heartbeat reports the up-after-activation state if and only if a callback for a state change of the access terminal had ended when the heartbeat read the state; the queue had accepted that indication |
| DriverHeartbeats.LaterHeartbeatsIff | src/voltha_bal_driver.c:93-99 | After a reply with the later state, a reply has the earlier state if and only if its heartbeat had read it before |
| DriverHeartbeats.HeartbeatsInReadOrder | src/voltha_bal_driver.c:93-99 | In the order in which heartbeats read the state, no reply goes back from the later state to the earlier one |
| DriverHeartbeats.ActivatedIff | src/bal_indications_hdlr.c:92-98 | The reboot state is up exactly when a callback for a state change of the access terminal has ended |
| DriverOverlap.OverlappingHeartbeatsGoBack | src/voltha_bal_driver.c:93-99 | A run of two overlapping heartbeats and one callback in which the second reply has the earlier state |
| DriverSectionSteps.EvictedKeeps | src/bal_indications_queue.c:86-94 | Freeing the evicted node succeeds in every reachable state and keeps the invariant |
| DriverSteps.ReleaseKeeps | src/voltha_bal_driver.c:1088-1093 | Each free by the poller, outside the lock, succeeds in every reachable state and keeps the invariant |
| DriverSteps.BeginCallbackKeeps | src/bal_indications_hdlr.c:551-580 | The first step of a callback keeps the invariant, at any address without live blocks |
| DriverCompletion.CallbackCompletes | src/bal_indications_hdlr.c:35-100 | A callback for a subscribed object, after 25 steps of its own that do not wait for the lock, has ended and has put exactly its indication into the queue, once, whatever the other threads do |
| DriverCompletion.CallbackAlone | src/bal_indications_hdlr.c:662-735 | A callback that runs alone while the lock is free appends its indication to the history, releases the lock and ends |
| DriverCompletion.CallbackRejected | src/bal_indications_hdlr.c:35-41 | A callback for any other object changes nothing |
| DriverCompletion.PollCompletes | src/voltha_bal_driver.c:1051-1097 | A poll, after 17 steps of its own that do not wait for the lock, has ended; it took the lock once, and has replied with the message that was the oldest then and freed it but for the key of a loss of signal, or has replied that there was none |
| DriverCompletion.PollAlone | src/voltha_bal_driver.c:1051-1097 | The same for a poll that runs alone while the lock is free, with the queue as it was at the start |
| DriverCompletion.HeartbeatCompletes | src/voltha_bal_driver.c:93-99 | A heartbeat reads the state in its first step and replies what it has read in its second |
| QueueSteps.DecideAddQueue | src/bal_indications_queue.c:56-85 | After the tests, the chosen writes run alone would give the queue of the sequential history |
| QueueSteps.ExecAddQueue | src/bal_indications_queue.c:60-93 | Each write of the lock holder succeeds and leaves the remaining writes with the same outcome |
| DriverProgress.OthersWait | src/bal_indications_hdlr.c:95-97 | No event of another thread takes the lock from its holder or changes where the holder is |
| DriverProgress.LockIsReleased | src/voltha_bal_driver.c:1051-1053 | In every continuation of a run that has 16 steps of the lock holder, the lock becomes free, whatever the other threads do |
| DriverProgress.GuardsHold | src/bal_indications_hdlr.c:551-557 | Every accepted indication, and every one under way, passed the guard of its callback |
| DriverProgress.OnlySubscribed | src/asfvolt16_driver.c:59-210 | Every accepted indication is one that its callback is subscribed for |
| DriverProgress.GuardsDisjoint | src/bal_indications_hdlr.c:35-36 | No object passes the guards of two callbacks |
| CText.FormatX2Small | src/bal_indications_hdlr.c:633-641 | `%2X` of a byte below 256 prints two characters that read back as the byte, also when the first is a space |
| CText.FormatX2Negative | src/bal_subscriber_terminal_hdlr.c:59-63 | `%2X` of a negative char prints eight characters: six times F and the two digits of the byte |
| CText.PairOfDigits | src/bal_subscriber_terminal_hdlr.c:69-70 | A buffer of two hexadecimal digits converts to their value |
| CText.PairByteIs | src/bal_subscriber_terminal_hdlr.c:69-70 | The byte that any two characters convert to, digits or not |
| SerialNumbers.RoundTripIff | src/bal_subscriber_terminal_hdlr.c:57-77 | Activation reads within its buffers and recovers the printed serial number if and only if the first three vendor bytes are in 1..127 and the last is below 128 or is 255 |
| SerialNumbers.ReadableIff | src/bal_subscriber_terminal_hdlr.c:57-77 | Activation stays within its buffers if and only if the texts are long enough and at most one of the four vendor characters is negative |
| SerialNumbers.SpecificRoundTrip | src/bal_indications_hdlr.c:631-642 | Every vendor-specific part survives printing and parsing |
| SerialNumbers.LastByteLost | src/bal_subscriber_terminal_hdlr.c:57-77 | A serial number whose fourth vendor byte is 200 is read back with 255 in its place |
| SubscriberTerminal.ConvertPairs | src/bal_subscriber_terminal_hdlr.c:67-77 | The loop converts four pairs of characters |
| SubscriberTerminal.CfgSet | src/bal_subscriber_terminal_hdlr.c:49-91 | BAL receives the parsed serial number and admin state, unless the serial number is all zero, in which case nothing is sent |
| SubscriberTerminal.StoredBytes | src/bal_subscriber_terminal_hdlr.c:57-77 | The stored vendor bytes are the codes of the vendor characters, and each other byte is the value of its two digits |
| SubscriberTerminal.NotSkipped | src/bal_subscriber_terminal_hdlr.c:59-84 | A terminal whose vendor text does not begin with a null character is never skipped as all-zero |
| SubscriberTerminal.SetAndGet | src/bal_subscriber_terminal_hdlr.c:49-91 | A set followed by a get, through BAL's store: four vendor characters with codes 1..127 and the admin state come back unchanged, the eight other characters in upper case if and only if all are hexadecimal digits; other terminals keep their configuration |
| SubscriberTerminal.SetAndGetTwice | src/bal_subscriber_terminal_hdlr.c:314-335 | A second set, of what the get reported, leaves the store as it is, and the second get reports the same |
| SubscriberTerminal.GetAndSetBack | src/bal_subscriber_terminal_hdlr.c:314-335 | Setting what a get reports leaves the store as it is if and only if the stored vendor bytes survive printing |
| OmciPacket.Decode | src/bal_packet_hdlr.c:102-113 | Sends min(44, n/2) bytes, byte j from characters 2j and 2j+1 |
| OmciPacket.DecodeUndoesPrint | src/bal_packet_hdlr.c:98-113 | Decoding the printed form of a message of at most 44 bytes, in either case of the digits, gives the message; of a longer one, its first 44 bytes |
| OmciPacket.PrintUndoesDecodeIff | src/bal_packet_hdlr.c:102-113 | Printing the decoded bytes gives the decoded characters in lower case if and only if all are digits |
| OmciPacket.RequestLogged | src/bal_packet_hdlr.c:114-116 | The log line of a request is never truncated and shows the decoded characters in lower case exactly when they are digits |
| OmciPacket.SendOmci | src/bal_packet_hdlr.c:92-126 | The bytes sent and the log line agree |
| HexLog.Snprintf | src/voltha_bal_driver.c:1195-1198 | Bounded printing: what is written, what is left alone, and the length that is returned |
| HexLog.HexLog2 | src/voltha_bal_driver.c:1188-1201 | For every header and data, the buffer ends as a null-terminated string: the first 1023 characters of header and dump, or 1022 characters of a longer header; no write leaves the buffer although the index may pass its end |
| SfpPresence.PresenceBitmap | src/voltha_bal_driver.c:277-283 | Bit k of the bitmap is set if and only if some token of the text converts to k |
| SfpPresence.ListedPorts | src/voltha_bal_driver.c:264-283 | For any list of ports below 32, in any order and with duplicates, the bitmap of its text has bit k set if and only if k is in the list |
| SfpPresence.TokensSplit | src/voltha_bal_driver.c:277-281 | A space ends a token, and further spaces make no difference |
| SfpPresence.TokensOfWord | src/voltha_bal_driver.c:277-281 | A text without spaces is one token, or none if it is empty |
| CText.AtoiSigned | src/voltha_bal_driver.c:279-279 | The conversion of a decimal number with or without a sign, whatever follows it |
| SfpPresence.SetBit | src/voltha_bal_driver.c:279-279 | Marking one port sets its bit and leaves the others |

## Left out

- Nothing was executed; all results are about this model.
- gRPC streams, status replies, sleeps on pending writes, reboot and shutdown, `popen` and syslog: I/O without state of interest here. A poll's write is one step that records the reply.
- The BAL library is not visible. It appears as a key-value store in `SubscriberTerminal`, and as arbitrary callbacks in `Driver`; the subgroup numbers of its objects are names here, and BCMBAL and BAL destination types are taken to agree.
- The flow, group, interface, TM queue, TM scheduler, access terminal and statistics handlers copy fields one by one and would add only easy members.
- The OAM response callback (src/bal_indications_hdlr.c:1734-1839) is not registered (src/asfvolt16_driver.c:116-124).
- Blocks are named by the address of their list node. A node whose message has left its key behind keeps its address, so the model's allocator does not hand it out again.
- Message fields other than the kind, the destination type and the two serial number texts are copies of what BAL passes in and do not influence control flow.
- Allocation is taken to succeed, as the callbacks do. The payload of an empty packet is treated as a block like any other.
- The drop counter and the node counter do not wrap around; the first would need 2^64 drops, the second is bounded by the size limit. The drop counter is counted up once per drop, as in the build without the stdout log.
- Callbacks for OMCI responses: a response for a destination other than the OMCI channel does not occur, because the log statement at src/bal_indications_hdlr.c:1714 dereferences the channel block without a test.
- Granularity of a step: a heartbeat reads the reboot state in one step and replies in another; a poll marks its message in one step and writes it in another; the tests at the start of the add and get routines are one step, which reads only; each write after them is a step of its own.
- IndicationQueue.Queue.Link: frees of the full case are left to the caller Add, directly after it; their order is the one of the source.
- SerialNumbers.ParseSerial: defined where activation reads and writes inside its buffers; outside, the C program has no defined result. VOLTHA is taken to return the discovery texts unchanged.
- CText.StrTol16: the clamping to the range of a long is not modelled, because only two characters are ever converted.
- OmciPacket.Decode: the text is taken to be null-terminated, as the call of strlen at src/bal_packet_hdlr.c:98 does. A text of fewer than two characters gives an array of length 0.
- SfpPresence.PresenceBitmap: the tokens are taken to convert to numbers from 0 to 31, because other shifts are not defined in C; the text read from the command is taken to be a null-terminated string.
- Fairness is not modelled: a callback or poll that waits for the mutex may be overtaken any number of times, and the completion theorems do not count the steps in which it waits.
