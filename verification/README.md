# The EFA data path, modelled and verified

The user-space driver for Amazon's Elastic Fabric Adapter moves work requests and completions between an
application, several threads and a device through queues in shared memory. This project models that data
path, as the Windows build compiles it, and proves properties of it with Dafny 4.11:
`dafny verify dfyconfig.toml`.

## How it is laid out

Each part has specification functions on values. Where the driver changes fields and arrays in place there
is a class whose methods are proved equal to those functions; what the driver promises is proved about the
functions and about state machines built from them.

- `Words` - 16- and 32-bit counters that wrap, bitwise masking, ring slots and laps.
- `WridPool` - the request-id allocator; class `WorkQueue`.
- `CompletionRing` - one sub completion queue and its phase bit.
- `QueueMachine` - one work queue shared by posting threads, the device and a poller, one step at a time:
  list posts, sessions, aborts, doorbells, the device's fetches and completions, releases.
- `Fabric` - any number of such queues, sub completion queues and pollers with one device. Queue 2k is the
  send queue and 2k+1 the receive queue of queue pair k. Its main results are about every reachable state.
- `ReportOrder` - which requests are reported, in which order. `Overrun` - how large completion queues have to be.
- `DeviceRing`, `SendRing`, `SendTheorems`, `SendQueue` - building and posting sends, by list and by
  session; class `SendQueue`.
- `ReceiveRing`, `RecvQueue` - posting receives and reading them back; class `RecvQueue`.
- `Acceptance` - which requests the posting calls accept, in the requests' own fields, and with which error.
- `Polling`, `ExtendedPolling`, `CompletionQueue` - the round-robin scan, plain and extended polling;
  class `CompletionQueue`.
- `Refinement`, `PollRefinement`, `CallRuns` - what the posting and polling functions do is a run of the state
  machines, alone and among the steps of everybody else, so what holds in every reachable state holds of them.
- `Draining` - what a poll that finds nothing says, and where polling leads.
- `QpRegistry` - the queue-pair table and the sub-queue reference counts; class `Context`.
- `LockOrder` - who takes which spin lock in which order.
- `Sizing` - power-of-two rounding, completion-queue depths, queue-pair set-up.
- `Reset` - what a move to RESET restores.

The device is a nondeterministic machine: it fetches descriptors in order up to the last doorbell,
completes any fetched request once, in any order, and writes each completion with its own phase bit into
the next slot of a sub completion queue, never asking for room.

## Results that need a condition

- Every reachable state of `Fabric` assumes that the `wqe_cnt`s of the queues attached to a sub completion
  queue sum to at most its depth, which the application must arrange. That is exact: if they do not, the run
  that posts and completes one request more than there are entries, and polls nothing, leaves a poll that
  finds nothing (`Overrun.SizesExact`, `Overrun.TooSmallLosesCompletions`).
- A send descriptor has room for 32 inline bytes, two buffers or one RDMA buffer. The inline limit is the
  application's own and nothing checks it: with `max_inline_data` 64 a send of 64 inline bytes is accepted,
  32 reach the ring and the rest is copied past the descriptor (`SendTheorems.OversizedInlineAccepted`).
  Every accepted request fits if and only if the queue pair was created with at most 32 inline bytes and two
  send scatter entries (`SendTheorems.AcceptedRequestsFit`), and for session calls one RDMA scatter entry
  (`SendTheorems.AcceptedSettersFit`). A device finds the whole payload exactly when the request fits
  (`SendTheorems.DescriptorMeans`).
- A receive without a scatter entry takes an index and writes no descriptor. All accepted receives reach
  the device if and only if each has one (`ReceiveRing.AllReceivesReachDevice`); `Fabric` assumes it.
- A completion whose queue-pair number is not live makes a poll return EINVAL with the entry still current
  and the queue stale; the extended poll then gives the index to the wrong queue.
  `ExtendedPolling.ExtendedPollReleasesOnce` says it goes to the right one if and only if the number is
  live. A start_poll or a plain poll that meets such an entry never gives its index back
  (`ExtendedPolling.FailedStartLoses`, `ExtendedPolling.PlainPollReleasesOnce`). `Fabric` assumes it is live.
- A move to RESET leaves a sound system if and only if no completion of the queue is still to be given back,
  the stale part of the index pool lists the indices in flight, and a send queue has gone an even number of
  laps: pool and phase are not reset, and the device is taken to start over (`Reset.ResetRestores`). The
  caller meets the first two by draining the queue, polling included. Without polling, one completion that
  is given back after the RESET moves the pool position from 0 to 65535 and writes outside the pool
  (`Reset.ResetUnpolledUnderflows`). A drained send queue on an odd lap fails too
  (`Draining.DrainedOddLapFails`). RESET of a queue pair needs all this of both its queues
  (`Reset.PairResetRestores`).
- The calls of any threads never block for good if each thread makes no other calls inside a send session
  and only posts while its extended poll is open (`LockOrder.DeadlockFree`). A second start_poll, a create
  or a destroy inside an open poll can block, as can polling inside a session.
- `efa_setup_qp` divides by `max_recv_sge`: with 0, as a queue pair that only sends may ask for, it divides
  by zero, and `efa_check_qp_limits` lets it through. A caller asks for at least 1 (`Sizing.RecvSizeMeans`).
- `roundup_pow_of_two` loops forever on more than 2^31; `efa_setup_qp` gives the receives asked for if and
  only if their descriptors fit 32768 (`Sizing.RoundingEnds`, `Sizing.RecvSizeMeans`).
- Two live queue pairs whose numbers agree modulo the table size hide one another
  (`QpRegistry.PublishAgrees`, `QpRegistry.CollisionLosesQp`).
- Where code and comment disagree the code is followed: the comment on `max_batch_wr` (efawin/verbs.c:887)
  says "at least" the queue size less one, the code takes at most that.

## Model

| member | source | states |
|---|---|---|
| Words.Slot | efawin/verbs.c:1511-1511 | masking the 16-bit producer or consumer counter selects the ring slot of the unbounded position, across its wrap |
| WridPool.WorkQueue.constructor | efawin/verbs.c:779-812 | the pool starts with every index once, none in flight |
| WridPool.WorkQueue.GetNextWridIdx | efawin/verbs.c:247-261 | hands out the index at the pool position, records the wr_id under it, moves the 16-bit position |
| WridPool.WorkQueue.PutWridIdx | efawin/verbs.c:263-270 | puts the index back on the pool and counts a completion; the invariant holds for whatever set was in flight, less this index |
| WridPool.WorkQueue.StepProducer | efawin/verbs.c:1389-1392 | advances the 16-bit producer counter, changing the phase exactly when a lap ends |
| WridPool.WorkQueue.CountPostedRequest | efawin/verbs.c:1388-1388 | counts one posted request in 32 bits |
| WridPool.WorkQueue.RollBackRequests | efawin/verbs.c:1763-1771 | takes a number of requests back from posted, pc and pool position, and restores the phase |
| WridPool.WorkQueue.ResetIndices | efawin/verbs.c:953-964 | clears four counters and nothing else |
| WridPool.PoolPartition | include/efa.h:98-103 | free and in-flight indices together are exactly 0..wqe_cnt-1, each once |
| WridPool.FullMeansNoneFree | efawin/verbs.c:1431-1433 | the test on the wrapped 32-bit counters refuses a request if and only if no index is free |
| WridPool.ReserveKeeps | efawin/verbs.c:247-261 | posting keeps the pool invariant; the index was free and no in-flight record changes |
| WridPool.PutKeeps | efawin/verbs.c:263-270 | releasing any in-flight index, in any order, keeps the pool invariant and all wr_id records |
| WridPool.PutInBounds | efawin/verbs.c:266-267 | a release writes inside the pool if and only if some index is out |
| WridPool.RollBackKeeps | efawin/verbs.c:1763-1771 | rolling back the latest requests frees exactly their indices |
| CompletionRing.Start | efawin/verbs.c:634-643 | an initialised sub queue over a zeroed buffer is in step with a device that wrote nothing |
| CompletionRing.PhaseProtocol | efawin/verbs.c:272-310 | at most a lap behind, a probe succeeds exactly when an entry is unconsumed, and reads the oldest |
| CompletionRing.OverrunHidesEntries | efawin/verbs.c:298-306 | between one and two laps behind, a probe finds something if and only if the device is at most one lap ahead |
| CompletionRing.ConsumeKeeps | efawin/verbs.c:304-306 | counter and expected phase stay in step with the unbounded count, across lap ends and the 16-bit wrap |
| CompletionRing.ConsumedInOrder | efawin/verbs.c:291-310 | over every run that stays within a lap, the n-th entry consumed is the n-th produced |
| QueueMachine.BeginKeeps | efawin/verbs.c:1504-1508 | accepting a request keeps the whole queue invariant and does not disturb fetched requests |
| QueueMachine.EmitKeeps | efawin/verbs.c:1510-1517 | writing or staging a descriptor keeps it: no unfetched slot is overwritten |
| QueueMachine.CommitKeeps | efawin/verbs.c:1789-1794 | starting to publish a session keeps it |
| QueueMachine.CopyKeeps | efawin/verbs.c:1797-1812 | copying a staged descriptor to the ring keeps it |
| QueueMachine.DoorbellKeeps | efawin/verbs.c:1401-1404 | ringing the doorbell keeps it |
| QueueMachine.UnlockKeeps | efawin/verbs.c:1536-1541 | ending a post keeps it |
| QueueMachine.AbortKeeps | efawin/verbs.c:1836-1842 | rolling a session back at any wraparound point keeps it |
| QueueMachine.FetchKeeps | efawin/verbs.c:1401-1404 | the device's fetch up to the doorbell keeps it |
| QueueMachine.FetchReads | efawin/verbs.c:1510-1524 | what the device reads is the next descriptor, with the phase of its lap, of the oldest request not fetched completely |
| QueueMachine.FinishKeeps | include/efa.h:98-103 | completing any outstanding request, in any order, keeps it |
| QueueMachine.GiveBackKeeps | efawin/verbs.c:263-270 | releasing a completed request's index keeps it |
| QueueMachine.SessionIndices | efawin/verbs.c:1561-1572 | the indices an open session took are the last of the pool's used part, in posting order |
| QueueMachine.WindowFits | efawin/verbs.c:1431-1433 | flow control alone keeps unfetched and staged descriptors within one ring |
| Fabric.ApplyKeeps | efawin/verbs.c:403-436 | every step of every thread and of the device keeps the system invariant |
| Fabric.InitInv | efawin/verbs.c:1084-1160 | fresh queues that fit their completion queues satisfy it |
| Fabric.RunKeeps | efawin/verbs.c:403-436 | so does every state of every run |
| Fabric.NeverOverrun | efawin/verbs.c:263-270 | entries produced and not given back never exceed a sub completion queue's depth, if the attached queues fit it |
| Overrun.SizesExact | efawin/verbs.c:298-306 | however requests are posted and completed, a sub completion queue holds all completions not polled if and only if the attached wqe_cnts sum to at most its depth |
| Overrun.TooSmallLosesCompletions | efawin/verbs.c:298-306 | otherwise a run exists after which more completions wait than the ring has entries and a poll finds none |
| Fabric.CompletionsAreExact | efawin/verbs.c:376-381 | in every reachable state each report carries the wr_id its request was posted with, none is reported twice, and every released index had been reported |
| ReportOrder.ReportsFollowEntries | efawin/verbs.c:376-381 | in every reachable state the reports of a sub completion queue are, in order and without gap, the requests of the entries consumed from it |
| Fabric.HeldUntouched | efawin/verbs.c:376-381 | between consuming an entry and giving it back, no step changes that entry or the wr_id record read without the lock |
| Fabric.CompletionOverwritesNothing | efawin/verbs.c:502-521 | the next completion never lands on an entry whose index has not been released |
| Fabric.PollFindsOldest | efawin/verbs.c:291-310 | in every reachable state a probe finds an entry exactly when one is unconsumed, and it is the oldest |
| Fabric.RingsAreSafe | efawin/verbs.c:1510-1534 | in every reachable state the doorbell covers only slots holding this lap's descriptor and phase, and the next write hits none the device has yet to fetch, for send and receive rings |
| DeviceRing.MmioMemcpyX64 | include/win-mmio.h:22-60 | copies exactly the 64-byte blocks asked for and leaves the rest of the destination |
| DeviceRing.MmioMemcpyX64Words | include/win-mmio.h:33-50 | the loop of eight word writes a round, run at least once, copies exactly the words asked for |
| DeviceRing.BlocksAreWords | include/win-mmio.h:33-50 | copying words and copying blocks of eight words are the same |
| DeviceRing.WriteChunk | efawin/verbs.c:1798-1805 | a chunk that stops at the ring's end, copied at once, is the same as writing one descriptor at a time |
| DeviceRing.WriteAllMeans | efawin/verbs.c:1797-1812 | up to a lap of writes puts each descriptor in its own slot and changes no other |
| DeviceRing.ReadsBack | efawin/verbs.c:1797-1812 | up to a lap of descriptors reads back around the ring as it was written |
| DeviceRing.WriteAllWraps | efawin/verbs.c:1793-1794 | counters equal in 16 bits write the same slots |
| DeviceRing.DoorbellChunk | efawin/verbs.c:1807-1819 | chunked copying rings the same doorbells as writing one at a time |
| DeviceRing.DoorbellsAdvance | efawin/verbs.c:1518-1534 | successive doorbells advance by 1 to max_batch_wr and the last announces everything |
| SendRing.FlagsDecode | include/efa_io_defs.h:61-89 | op type, phase and the mandatory bits read back as set, leaving the other bits |
| SendRing.FlagsCommute | include/efa.h:36-41 | control bits may be set in either order |
| SendRing.AddressSurvives | efawin/verbs.c:1318-1326 | the split address rejoins to the 64-bit address |
| SendTheorems.DescriptorMeans | efawin/verbs.c:1484-1508 | every field of a send request decodes from its descriptor: ids, addressing, flags, phase, immediate; inline bytes or buffers are all there if and only if they fit |
| SendTheorems.AcceptedRequestsFit | efawin/verbs.c:1451-1458 | every request that passes the checks fits its descriptor if and only if max_inline_data is at most 32 and max_sge at most 2 |
| SendTheorems.OversizedInlineAccepted | efawin/verbs.c:864-864 | with max_inline_data 64, 64 inline bytes are accepted and 32 reach the descriptor |
| SendTheorems.AcceptedSettersFit | efawin/verbs.c:1646-1734 | likewise every setter's payload, with at most one RDMA buffer |
| SendTheorems.TakeAllCounters | efawin/verbs.c:1384-1393 | posted and pc after n requests, in closed form across every wrap |
| SendTheorems.TakeAllRecords | efawin/verbs.c:247-261 | each request finds its wr_id under its own index and no other record changes |
| SendTheorems.PostListPostsPrefix | efawin/verbs.c:1463-1542 | the accepted requests are written in order, with the batched doorbells, and nothing else changes; within the size limits each fits its descriptor |
| SendTheorems.PostListStops | efawin/verbs.c:1478-1482 | posting stops at the first request that does not validate, names it and returns its error; success means all were posted |
| Acceptance.PostSendAccepts | efawin/verbs.c:1418-1461 | a list post returns 0 if and only if the list is empty, or the state is RTS or SQD, indices are free for all requests, and each is a SEND or SEND_WITH_IMM, signalled where it has to be, with no other flag but INLINE, within the inline or scatter limit; else it names the first request that breaks this, with ENOMEM exactly when state and flags are good and the indices have run out, and EINVAL otherwise |
| SendTheorems.RollBackUndoes | efawin/verbs.c:1763-1771 | rolling back restores posted, pc, pool position, phase and pool at any wraparound point |
| SendTheorems.SessionIsAtomic | efawin/verbs.c:1752-1842 | after any sequence of session calls, complete publishes the request of every send call in order, or, with the error of the first call that failed, changes no slot, doorbell, counter or free index; abort always does the latter |
| SendTheorems.SessionErrorIsFirst | efawin/verbs.c:1552-1559 | the session's error is that of the first call to fail, and without one no send call was left out |
| Acceptance.SessionAccepts | efawin/verbs.c:1773-1834 | a session returns 0 if and only if every send call has good flags in RTS or SQD, every setter keeps the limit of its request's kind, and indices are free for all send calls; its error follows from the calls' fields, and a failed session publishes nothing |
| Acceptance.RefusedCallFailsSession | efawin/verbs.c:1555-1559 | a send call in the wrong state or with bad flags, if no earlier call failed, makes the session return EINVAL and publish nothing |
| Acceptance.WrongStateFailsSession | efawin/verbs.c:1421-1423 | in a state other than RTS and SQD every session with a call fails with EINVAL and publishes nothing |
| SendTheorems.AbortedSessionSparesInFlight | efawin/verbs.c:1763-1771 | a rolled-back session keeps the pool sound and the records of requests in flight |
| SendTheorems.SetterKeeps | efawin/verbs.c:1616-1750 | setters change at most the current descriptor and the session error, never a request id or phase |
| SendTheorems.SameDescriptor | efawin/verbs.c:1544-1595 | built in the session's order, a descriptor equals the list form's |
| SendTheorems.ScriptAllStages | efawin/verbs.c:1544-1575 | the session calls for a list of valid requests stage exactly the list's descriptors |
| SendTheorems.ListEqualsSession | efawin/verbs.c:1773-1834 | posting a list and posting it as a session leave the same ring, counters, phase, pool and records, and ring the same doorbells; within the size limits every payload fits |
| SendTheorems.OneSgeIsList | efawin/verbs.c:1616-1683 | setting one buffer is setting a list of one, for sends and RDMA reads |
| SendTheorems.InlineListIsInline | efawin/verbs.c:1685-1734 | inline data given in pieces is the pieces joined |
| SendTheorems.RdmaReadMeans | efawin/verbs.c:1597-1614 | the descriptor of an RDMA read decodes to its id, op type, phase, key, remote address and total length, and to all its buffers if and only if there is at most one |
| SendTheorems.PostListKeepsRung | efawin/verbs.c:1518-1534 | after any list post every doorbell so far advanced by 1 to max_batch_wr and the last equals pc |
| SendTheorems.SessionKeepsRung | efawin/verbs.c:1814-1825 | so after any session, completed or rolled back |
| SendQueues.SendQueue.constructor | efawin/verbs.c:835-893 | a fresh send queue is valid, with every index free |
| SendQueues.SendQueue.PostSend | efawin/verbs.c:1463-1542 | the loop leaves the state, error and rejected position that the specification of list posting gives |
| SendQueues.SendQueue.PostOneRequest | efawin/verbs.c:1484-1517 | one pass builds the request's descriptor, writes it at pc and advances |
| SendQueues.SendQueue.WrStart | efawin/verbs.c:1752-1761 | opens a session remembering the phase |
| SendQueues.SendQueue.WrCommon | efawin/verbs.c:1544-1575 | stages a cleared descriptor under the next index, or records the first error |
| SendQueues.SendQueue.WrSend | efawin/verbs.c:1577-1580 | as specified for a send |
| SendQueues.SendQueue.WrSendImm | efawin/verbs.c:1582-1595 | as specified for a send with immediate data |
| SendQueues.SendQueue.WrRdmaRead | efawin/verbs.c:1597-1614 | as specified for an RDMA read |
| SendQueues.SendQueue.WrSetSge | efawin/verbs.c:1616-1644 | sets the one buffer the op type calls for |
| SendQueues.SendQueue.WrSetSgeList | efawin/verbs.c:1646-1683 | sets the buffers, or fails the session if there are more than the op type's limit |
| SendQueues.SendQueue.WrSetInlineData | efawin/verbs.c:1685-1702 | sets inline data, or fails the session if it is too long |
| SendQueues.SendQueue.WrSetInlineDataList | efawin/verbs.c:1704-1734 | sets the joined inline data, or fails the session if it is too long |
| SendQueues.SendQueue.JoinBuffers | efawin/verbs.c:1724-1730 | the copy loop puts the buffers behind one another |
| SendQueues.SendQueue.WrSetAddr | efawin/verbs.c:1736-1750 | sets the destination unless the session failed |
| SendQueues.SendQueue.CopyStaged | efawin/verbs.c:1793-1825 | the chunked copy terminates and equals writing the staged descriptors one at a time with their doorbells |
| SendQueues.SendQueue.WrComplete | efawin/verbs.c:1773-1834 | publishes or rolls back, and returns the session's error |
| SendQueues.SendQueue.WrAbort | efawin/verbs.c:1836-1842 | rolls back |
| Refinement.PostSendRefines | efawin/verbs.c:1463-1542 | a list post, whatever prefix it accepts and wherever the device fetches in between, is a run of the queue's state machine under its lock: same counters, pool, records, ring contents and doorbell |
| Refinement.WholeSessionRefines | efawin/verbs.c:1752-1842 | so is a whole session with any calls, completed, failed or aborted, with any fetches in between |
| Refinement.CopyRefines | efawin/verbs.c:1797-1825 | publishing a session is a sequence of the machine's single copies and doorbells |
| Refinement.PostRecvRefines | efawin/verbs.c:1883-1947 | so is a receive post, when each request has a scatter entry, with any fetches in between |
| Refinement.FreshShows | efawin/verbs.c:835-893 | a newly created send queue is shown by an initial queue of the machine |
| Refinement.FreshRecvShows | efawin/verbs.c:916-937 | a newly created receive queue is shown by an initial queue of the machine |
| Refinement.FetchesInterleave | efawin/verbs.c:1401-1404 | device fetches between the steps of a call change nothing the host sees |
| CallRuns.HostRunIsRun | efawin/verbs.c:1476-1541 | a call's run on its queue is a run of the system, which stays sound |
| CallRuns.CallInterleaves | efawin/verbs.c:1476-1541 | a call's steps mixed with any steps of the device, of pollers and of threads on other queues leave on its queue what they leave alone, but for what was fetched and completed |
| CallRuns.PostSendInSystem | efawin/verbs.c:1463-1542 | a list post in a sound system is a run, ends sound, and among any other steps leaves its queue as specified |
| CallRuns.SessionInSystem | efawin/verbs.c:1752-1842 | likewise a whole session |
| CallRuns.PostRecvInSystem | efawin/verbs.c:1883-1947 | likewise a receive post whose requests have scatter entries |
| CallRuns.QueuePairStarts | efawin/verbs.c:1084-1160 | a created queue pair with two sub completion queues is an initial system |
| ReceiveRing.ControlDecodes | include/efa_io_defs.h:194-201 | FIRST, LAST and 24 bits of lkey read back from the control word |
| ReceiveRing.DescReads | efawin/verbs.c:1907-1924 | the i-th entry's descriptor reads back its address, lkey mod 2^24 and length mod 2^16, FIRST only on the first, LAST only on the last |
| ReceiveRing.RecordAllMeans | efawin/verbs.c:1904-1905 | each receive finds its wr_id under its own index and no other record changes |
| ReceiveRing.PostRecvPostsPrefix | efawin/verbs.c:1883-1947 | exactly the requests before the first invalid one are posted, in order; that one is named, and the doorbell is rung in every case |
| Acceptance.PostRecvAccepts | efawin/verbs.c:1867-1881 | a receive post returns 0 if and only if the list is empty, or the state is neither RESET nor ERR, indices are free for all requests, and none has more entries than the limit; else it names the first request that breaks this, with ENOMEM exactly when only the indices have run out, and EINVAL otherwise |
| ReceiveRing.DecodeRoundTrip | efawin/verbs.c:1907-1938 | splitting the written descriptors at FIRST and LAST gives back the requests' indices and entries |
| ReceiveRing.RingRoundTrip | efawin/verbs.c:1883-1947 | what a receive post wrote, read around the ring and split at FIRST and LAST, is the accepted prefix |
| ReceiveRing.AllReceivesReachDevice | efawin/verbs.c:1904-1911 | every accepted receive is seen by the device if and only if each has a scatter entry |
| RecvQueues.RecvQueue.constructor | efawin/verbs.c:916-937 | a fresh receive queue is valid, with every index free |
| RecvQueues.RecvQueue.PostRecv | efawin/verbs.c:1883-1947 | the loop leaves the state, error and rejected position that the specification of receive posting gives |
| RecvQueues.RecvQueue.PostRequest | efawin/verbs.c:1902-1938 | one pass takes an index and writes one descriptor per scatter entry |
| Polling.HeadInBounds | efawin/verbs.c:283-288 | the entry a sub queue reads is within its own stretch of the buffer |
| Polling.ScanServesFirst | efawin/verbs.c:438-462 | one scan serves the first referenced sub queue in turn with a pending entry and goes on after it next time; it finds nothing exactly when there is none |
| Polling.NothingMeansEmpty | efawin/verbs.c:438-462 | ENOENT is returned if and only if no referenced sub queue had a pending entry, and consumes nothing |
| Polling.CloserOrServed | efawin/verbs.c:450-451 | a pending sub queue is served by a scan or moves strictly closer to its turn |
| Polling.ServedWithinOneRound | efawin/verbs.c:440-482 | a sub queue that stays pending is served by one of any num_sub_cqs consecutive polls |
| ExtendedPolling.ShortPollMeansEmpty | interface/infiniband/verbs.h:2842-2846 | a poll returning fewer than it had room for saw every referenced sub queue empty, or an unknown queue pair |
| ExtendedPolling.PlainPollReleasesOnce | efawin/verbs.c:464-482 | a plain poll releases as many indices as it reports, each to the queue its entry names if and only if that queue pair is live; only an entry of an unknown queue pair is consumed and not released |
| ExtendedPolling.StartPollLock | efawin/verbs.c:484-500 | start_poll returns holding the lock if and only if it found an entry; it refuses a compatibility mask and changes nothing |
| ExtendedPolling.EmptyPollClears | efawin/verbs.c:413-415 | a next_poll that finds nothing leaves no current entry, because some sub queue is referenced |
| ExtendedPolling.ExtendedPollReleasesOnce | efawin/verbs.c:484-521 | over start, any next polls and end, with entries and queue-pair table changing in between, as many indices are released as entries consumed, each to the queue its entry names if and only if that queue pair was live; the lock is free again, and earlier losses do not matter |
| ExtendedPolling.FailedStartLoses | efawin/verbs.c:484-500 | a start_poll that fails leaves the lock free and either consumed nothing or consumed an entry of a queue pair that is not live, which is never released |
| CompletionQueues.CompletionQueue.constructor | efawin/verbs.c:665-694 | sub queues tile one zeroed buffer, all counters at their start |
| CompletionQueues.CompletionQueue.NextSubCqe | efawin/verbs.c:291-310 | consumes the next entry exactly when its phase bit is the expected one |
| CompletionQueues.CompletionQueue.PollSubCq | efawin/verbs.c:403-436 | probes one sub queue as specified, with the remembered queue pair finding the same one as the table |
| CompletionQueues.CompletionQueue.PollSubQueues | efawin/verbs.c:438-462 | the loop is the specified round-robin scan |
| CompletionQueues.CompletionQueue.Poll | efawin/verbs.c:464-482 | reports exactly the indices it gives back, each with the wr_id recorded under it; returns their number if there are any, -EINVAL exactly if there are none and an entry of an unknown queue pair was consumed, and else 0; a short poll without such an entry saw every referenced sub queue empty |
| CompletionQueues.CompletionQueue.Start | efawin/verbs.c:484-500 | as specified, the lock kept exactly on success |
| CompletionQueues.CompletionQueue.Next | efawin/verbs.c:502-511 | releases the current entry, then scans |
| CompletionQueues.CompletionQueue.End | efawin/verbs.c:513-521 | releases the current entry if there is one, and the lock |
| PollRefinement.ProbeIsEnabled | efawin/verbs.c:291-310 | a probe succeeds if and only if the system's consuming step is enabled |
| PollRefinement.ProbeRefines | efawin/verbs.c:403-436 | a successful probe is the consuming and reporting step: same counters, same entry in hand, cur_wq the queue it names, and the wr_id recorded under its index reported |
| PollRefinement.ReleaseRefines | efawin/verbs.c:263-270 | releasing the current entry is the system's releasing step and frees exactly the index polling read from the buffer, of the queue the entry names |
| PollRefinement.ScanRuns | efawin/verbs.c:438-462 | one scan is the consuming and reporting step, the report carrying the wr_id of the request that holds the entry's index, or no step; it never meets an unknown queue pair |
| PollRefinement.PlainPollRefines | efawin/verbs.c:464-482 | a plain poll is a run of exactly one consuming, reporting and releasing step for each completion it returns; the k-th report names the request that holds the k-th index released, with the wr_id recorded there and posted with it |
| PollRefinement.ReturnedIds | efawin/verbs.c:376-381 | reading the queues' records for the released indices gives the reported wr_ids |
| PollRefinement.OthersRun | efawin/verbs.c:376-381 | steps of others change at most entries of the buffer, and not the one in hand |
| PollRefinement.NextsRuns | efawin/verbs.c:502-511 | at each turn others take exactly their steps, then next_poll is the releasing step and those of a scan of what the system then shows; the turns stop early only when one finds nothing |
| PollRefinement.ExtendedPollRefines | efawin/verbs.c:484-521 | an extended poll is exactly: the start's steps; the turns; the steps others take last; and the release of an entry still in hand; with whatever others do at each point, over any number of next polls |
| Draining.NothingMeansDrained | efawin/verbs.c:438-462 | a poll that finds nothing means every completion written for a queue attached to a referenced sub queue has been consumed and given back |
| Draining.Drain | efawin/verbs.c:464-482 | polling alone gives back every entry of a sub queue, from every sound state at rest |
| QpRegistry.PublishAgrees | efawin/verbs.c:1142-1144 | the table goes on agreeing with the live queue pairs if and only if the new number's slot was free |
| QpRegistry.WithdrawAgrees | efawin/verbs.c:1302-1302 | destroying keeps the agreement |
| QpRegistry.PublishCounts | efawin/verbs.c:1146-1154 | each reference count stays the number of live queues attached, also when both queues share a sub queue |
| QpRegistry.CountsTheSubQueue | efawin/verbs.c:755-763 | of up to 256 sub queues exactly the one meant is counted, although its index passes through 8 bits |
| QpRegistry.WithdrawCounts | efawin/verbs.c:1299-1300 | likewise for destroying |
| QpRegistry.RegistryRuns | efawin/verbs.c:1084-1172 | after any run of creates, failed creates and destroys the table is the map of live queue pairs and the counts are right |
| QpRegistry.RegistryFromEmpty | efawin/verbs.c:128-132 | so after any run from a newly allocated table |
| QpRegistry.NumbersBelowSizeDiffer | efawin/verbs.c:128-131 | numbers below the power-of-two table size never collide |
| QpRegistry.CollisionLosesQp | efawin/verbs.c:1302-1302 | two numbers with one slot: the newer hides the older, and its destroy leaves the older unreachable |
| QpRegistry.PollingFindsLive | efawin/verbs.c:417-426 | the record of a consumed entry says live if and only if its queue pair is |
| QpRegistry.ReferencedWhenAttached | efawin/verbs.c:453-454 | a sub queue is skipped exactly when nothing is attached to it |
| QpRegistry.Context.CreateQp | efawin/verbs.c:1084-1172 | publishes the queue pair in the table and both counts; a failed create changes nothing |
| QpRegistry.Context.DestroyQp | efawin/verbs.c:1290-1316 | takes it out of the table and both counts |
| QpRegistry.Context.AddRefCnt | efawin/verbs.c:755-763 | changes one 32-bit count, the index cut to 8 bits |
| LockOrder.ProgramsOrderly | efawin/verbs.c:988-1012 | calls that keep to the discipline take the table lock, completion-queue locks and queue locks in that order, two completion queues only under the table |
| LockOrder.ProgramOrderly | efawin/verbs.c:484-521 | a call, with the calls made inside it, takes locks in order if and only if nothing is called inside a session and only posts inside an open poll |
| LockOrder.OrderlyIsDeadlockFree | efawin/verbs.c:1296-1305 | for any threads whose programs take locks in order, in every state they reach with work left, some thread can step |
| LockOrder.DeadlockFree | efawin/verbs.c:1296-1305 | so for any threads making disciplined calls, on any queue pairs and completion queues |
| LockOrder.RunsEndFinished | efawin/verbs.c:1296-1305 | every run of such programs that cannot be continued has finished every call and freed every lock |
| LockOrder.GateNeeded | efawin/verbs.c:988-999 | without the table lock two destroys with swapped completion queues can block |
| LockOrder.PollInsideSessionBlocks | efawin/verbs.c:1752-1761 | polling inside a send session can block the thread on itself |
| LockOrder.NestedPollsBlock | efawin/verbs.c:484-500 | two threads that open a second extended poll inside their first, in opposite orders, can block |
| LockOrder.DestroyInsidePollBlocks | efawin/verbs.c:1296-1297 | so can two that destroy queue pairs inside an open poll |
| LockOrder.CreateInsidePollBlocks | efawin/verbs.c:1142-1149 | a thread that creates a queue pair inside an open poll of its completion queue blocks on itself |
| Sizing.RoundUpPow2 | util/util.h:80-95 | the loop on a 32-bit word ends with the specified power of two |
| Sizing.RoundUpMeans | util/util.h:80-95 | it is the least power of two that is large enough, except that 1 gives 2 |
| Sizing.RoundingEnds | util/util.h:85-93 | the loop ends if and only if n is at most 2^31 |
| Sizing.RoundTwice | efawin/ibv_win_cmd.c:196-196 | rounding twice changes nothing if and only if n is not 0 |
| Sizing.CqDepthAccepted | efawin/ibv_win_cmd.c:196-201 | a depth is accepted if and only if at most 32768 is asked for, and is then the least power of two that is large enough, but at least 2 |
| Sizing.CreateCq | efawin/verbs.c:668-677 | computes that depth with both roundings |
| Sizing.EntriesTile | efawin/verbs.c:686-694 | entries lie where one array over all sub queues would put them, inside the buffer |
| Sizing.EntriesApart | efawin/verbs.c:686-694 | different entries share no byte |
| Sizing.EveryByteCovered | efawin/ibv_win_cmd.c:227-227 | every byte of the buffer belongs to an entry |
| Sizing.SendSizeMeans | efawin/verbs.c:975-978 | the send queue is the least power of two that holds max_send_wr and min_sq_wr (2 for 1), its mask fits up to 65536, and max_batch_wr is the device's batch, at least 1, cut to wqe_cnt - 1 when min_sq_wr is set |
| Sizing.RecvSizeMeans | efawin/verbs.c:980-983 | sizing divides by zero if and only if max_recv_sge is 0; otherwise the ring is the least power of two that holds the descriptors, wqe_cnt is as many requests as it has room for, and reaches max_recv_wr if and only if the descriptors fit 32768 |
| Sizing.SetupQp | efawin/verbs.c:966-986 | computes those sizes in the source's widths |
| Sizing.SendQueueFits | efawin/verbs.c:975-978 | such a send queue meets what the ring safety results assume |
| Sizing.RecvQueueFits | efawin/verbs.c:980-983 | so does such a receive queue, with max_sge entries in every request |
| Reset.StalePrefix | efawin/verbs.c:263-270 | the pool lists no index twice if and only if its used part lists the indices in flight |
| Reset.ResetPool | efawin/verbs.c:953-964 | clearing the counters restores the pool invariant if and only if that holds, so whenever the queue is drained |
| Reset.ResetQueueInv | efawin/verbs.c:953-964 | a queue alone is sound after RESET if and only if its stale pool entries are the indices in flight and, for a send queue, its lap is even |
| Reset.UnreleasedCount | efawin/verbs.c:263-270 | how many completions of a queue are still to be given back |
| Reset.ResetRestores | efawin/verbs.c:1271-1276 | RESET leaves a sound system if and only if no completion of the queue is still to be given back, the stale pool entries are the indices in flight, and a send queue's lap is even; a drained queue meets the first two |
| Reset.PairResetRestores | efawin/verbs.c:953-964 | RESET of a queue pair leaves a sound system if and only if that holds of both its queues |
| Reset.ReleaseAfterResetUnderflows | efawin/verbs.c:266-267 | a release after RESET moves the pool position to 65535 and writes outside the pool |
| Reset.ResetUnpolledUnderflows | efawin/verbs.c:1271-1276 | post one, complete it, reset without polling: reachable from any initial system, meeting the other two conditions, and not sound |
| Draining.DrainedOddLapFails | efawin/verbs.c:1389-1392 | reachable from any initial system: a send queue drained after one lap is not sound after RESET |
| Reset.ResetUndrainedDuplicates | efawin/verbs.c:953-964 | post three, complete the oldest, reset: the same index is then handed out twice |

## Left out

- I/O-control calls, memory mapping and device limits: creating a queue takes a flag saying whether the checks, the device and the allocations succeeded, and sizes are parameters.
- WridPool.WorkQueue.constructor: queues and rings above 32768 entries are not modelled; `wrid_idx_pool_next`, `desc_mask` and `pc` have 16 bits. `Sizing` says which requests stay within that.
- Memory barriers and write combining: steps are sequentially consistent.
- `int phase` of a work queue is unbounded here; only its lowest bit is ever used.
- What the bytes of a payload that does not fit its descriptor overwrite: the part that fits is kept, and `SendTheorems.AcceptedRequestsFit` says when all of it does.
- The bytes of a descriptor's data union: setters of different kinds on one request replace the payload instead of overlaying its bytes. Entry lengths are taken as given, without the 32-bit width of `length` in a scatter entry.
- Negative `num_sge` and `nwc`, and byte order of immediates: counts are natural numbers and immediates uninterpreted words.
- Setters before any send call of a session: the source would write through a null or stale pointer, so `SendRing.RunOps` asks that a setter follows a send call.
- A second `next_poll` after one that found nothing: the source would read through a null pointer, so `ExtendedPolling.Nexts` stops there.
- The order of stores within one descriptor, and the device seeing half of one.
- CompletionQueues.CompletionQueue.Poll: what the queues' records hold is a parameter, which `PollRefinement.ReturnedIds` ties to the system's records, and the buffer does not change during one call; `Fabric` is where the device writes between any two steps, and `ExtendedPolling.Nexts` and `PollRefinement.ExtendedPollRefines` let it write between calls.
- CompletionQueues.CompletionQueue.PutCurrent: records the queue and index it gives back; the release itself is `WridPool.WorkQueue.PutWridIdx`, the unlocked read of `wrid` is a step of `Fabric`, and `PollRefinement` joins them.
- SendQueues.SendQueue.WrComplete: the source reads the returned error after unlocking (efawin/verbs.c:1831-1833), so this assumes no other session starts on the queue in between.
- SendQueues.SendQueue: locks are not fields; `QueueMachine` models holding the queue's lock as a mode, `LockOrder` the order of all locks. Calls other than the session's own inside a session are not modelled.
- Fabric.CompletionsAreExact: creating, destroying and resetting queue pairs are not steps of `Fabric`; `QpRegistry` and `Reset` treat them apart.
- Fabric.ApplyKeeps: descriptors carry one number for everything but request id, phase, FIRST and LAST; the fields are in `SendRing` and `ReceiveRing`, and `Refinement` lets that number be any function of a whole descriptor.
- CallRuns.CallInterleaves: other threads' steps on the call's own queue are left out while it holds the lock, which is what the lock is for.
- PollRefinement.PlainPollRefines: others do not move within one call, and every queue's lock is free when it starts; a release that finds a lock taken would spin until it is free. In `PollRefinement.ExtendedPollRefines` others move between calls and leave the locks free.
- WridPool.WorkQueue.PutWridIdx: asks for an index that is out; what happens otherwise is `Reset.ReleaseAfterResetUnderflows`.
- Sizing.RoundUpPow2: asks for an argument on which the source's loop ends, as do `Sizing.CreateCq` and `Sizing.SetupQp`; `Sizing.RoundingEnds` says which those are.
- Liveness of the device and fairness of the scheduler: fairness of polling is in numbers of polls.
- Reset.ResetRestores: the device is assumed to begin again at lap 0 with nothing fetched and to drop what it had not completed; the source does not say.
- Completion fields other than queue pair, queue type, request id and phase, the status translation and the read accessors: one-branch members.
- Attribute checks of queue-pair creation, protection domains, memory regions, address handles and the query calls: one-branch members or pass-through to the device.
