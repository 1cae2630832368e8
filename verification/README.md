# easyss: a verified model of its concurrent cores

easyss is a proxy: a client multiplexes TCP, UDP and TUN traffic over a few HTTP/2 connections to a server, inside
encrypted records. This project models the parts of it whose correctness depends on whole runs rather than on single
calls, and proves what they promise.

| files | what they model |
|---|---|
| `Protocol`, `Records`, `RecordFormat` | frames, handshake, counter nonces, length-prefixed AEAD records, the frame reader that reuses one array, and what exactly it lets through |
| `Shaper`, `ShaperRuns`, `ShaperTheorems`, `ShaperBounds`, `ShaperLoss`, `ShaperOverlap`, `ShaperFlush`, `Pipeline` | the batch shaper: its critical sections as a class, every interleaving of pushes, flushes, timer, cover injection and Close, what is lost and when, what a finished flush has handed over, and the way from a push to the far reader |
| `UdpPool`, `UdpRuns`, `UdpTheorems`, `UdpKeys` | the UDP session pool: tables, eviction, singleflight creation, idle cleanup, close, and whom its answers are for |
| `Scheduler`, `SchedulerExact`, `SlotPools`, `SlotRuns`, `SlotStreams` | connection slots: tiers, pressure levels, selection, growth, borrowing, swap-deletion |
| `Generations`, `GenerationCalls`, `Rotation`, `StreamAccounting` | connection generations by compare-and-swap, the rotation deadline they share, and the per-slot counts of active and heavy streams |
| `Tun`, `TunRuns`, `TunOutcome` | the TUN session: one Start against any number of Stops, and when it succeeds |
| `RouteCache` | the generation-tagged cache of routing answers |
| `BytesPool`, `NetBuf`, `ShaperBuffer` | the power-of-two allocator, the growing read buffer, the shaper over pooled buffers |
| `Cover`, `Bootstrap`, `Dialing` | the cover-traffic budget, the first record of a stream, ordering and dialling of candidates |
| `Options`, `Powers` | shared helpers |

How the model is built. Code that updates fields in place is a class whose methods are proved against functions or
relations on values (a section under a lock is one method). Where goroutines interleave, a second module gives a step
machine: a state, labels, `Enabled`, `Step`; a step is one critical section, one atomic operation, one side effect or one
wait. A `Run` is a finite sequence of such steps from the initial state, and the main results hold at every point of every
run. Random choices, clocks, the outcome of I/O and the answers of peers are parameters or label arguments, so a theorem
over all runs is also a theorem over all of them. Integers are unbounded except where the source's width matters
(`Wrap32`, the uint16 frame length, the 64-bit nonce counter, the 3-byte record length).

## Results that differ from what one might expect

- **Overlapping pushes can lose an accepted frame** (shaper/batch.go:107-123). The pre-flush releases `mu` and the size is not
  tested again, so the buffer can outgrow the record ceiling, and the record writer refuses the record (crypto/record.go:44-46)
  although no I/O failed. `ShaperOverlap.OverlapLosesAcceptedFrame` is such a run: pushes of 10000, 60000 and 50000 bytes, a small
  one after them, healthy I/O, and Close. The 50000-byte push has returned nil; its frame is in no record on the wire, while
  the small frame behind it is. So with healthy I/O neither completeness nor the prefix property holds of every run.
  `ShaperLoss.NoLossExactlyWhenGuarded` is the exact condition: when Close has returned, everything appended is on the wire if
  and only if every push that resumed after its pre-flush still found room for its frame. Calls that append nothing in each
  other's window, in particular calls that do not overlap, meet it: `ShaperLoss.UndisturbedIsWritten`. Only the order of what is
  written needs no condition at all: `ShaperLoss.WireKeepsOrder`. It speaks of the records whose WriteRecord returned nil; after
  an I/O failure the stream also holds the part of a record that the underlying writer took.
- **The drop branch is dead** (shaper/batch.go:282-287). The comment at shaper/batch.go:204-206 expects records that arrive after
  `writeClosed` to be dropped; `ShaperTheorems.NothingIsDropped` shows that there are none, even with a failing writer.
- **The empty key** (client/proxy/udp_pool.go:206-222). The eviction scan uses the empty string for "none yet". Whatever order
  it visits the table in, it finds an oldest entry if and only if no entry is hidden: `UdpPool.ScanExactly`, where hidden means
  that the entry under the empty key is older than all others. It finds nothing exactly when that entry is visited last, and
  then a creation on a full table passes the cap: `UdpPool.NothingFoundExactly`, `UdpPool.CapIsPassedExactly`, and with 128 entries
  `UdpPool.EmptyKeyHidesTheTable`. All callers build non-empty keys, which the machine takes as its entry condition.
- **The two severity orders differ** (transport/http2/scheduler.go:77-83). The comment wants the multiplied weights and the added
  scores to order slots alike. `SchedulerExact.SeverityAgreesExactly`: they do, except that a slot that is only degraded weighs less
  than one that is heavy and expiring (16 against 32) but scores worse (16 against 12).
- **Grow and pick are two sections** (transport/http2/client.go:274-302). A shrink between them lets pick count a stream on a slot
  outside the live prefix: `SlotRuns.ShrinkBetweenGrowAndPick`. `SlotRuns.PickIsLive` is the exact condition for one pick, and
  `SlotRuns.IdleExactlyWhenGuarded` for whole runs; with Open as one step `SlotRuns.OpenIsLive` shows that it always holds.
- **A new generation can lose its rotation deadline** (transport/http2/slot.go:203-205, transport/http2/client.go:217-219). Both places
  compare generations and write the rotation state afterwards, although the comment at transport/http2/client.go:217 wants the state of
  a new generation safe from late dials. `Rotation.DeadlineCanBeLost` is a run in which a late retirement clears the deadline of
  the generation after it; `Rotation.DeadlineKeptExactlyWhenGuarded` says when that cannot happen: exactly when every such write
  finds its generation still current, or no deadline of the current one to lose.
- **The cache generation moves backwards** (client/proxy/udp_route_cache.go:30-35): `RouteCache.CacheMovesBackwards`. It never does if and
  only if lookups check in the order of the generations they read: `RouteCache.ForwardExactlyWhenInOrder`. It does not hurt:
  `RouteCache.NeverStale`.

## Model

| member | source | states |
|---|---|---|
| `Protocol.EncodeFramesLoop` | protocol/frame.go:242-261 | the append loop computes the recursive wire form |
| `Protocol.FrameRoundTrip` | protocol/frame.go:167-183 | a frame survives encoding, whatever follows it, if and only if its payload fits the uint16 length |
| `Protocol.DecodeFrameIsEncoding` | protocol/frame.go:167-183 | a decoded frame is well formed and re-encodes to the bytes it was read from |
| `Protocol.FramesRoundTrip` | protocol/frame.go:167-261 | a plaintext decodes to a list of frames if and only if it is the encoding of that well-formed list |
| `Protocol.HandshakeRoundTrip` | protocol/frame.go:116-140 | bytes decode to a handshake if and only if they encode it and its version is 3 |
| `Protocol.EncodedLenIsLength` | protocol/frame.go:161-163 | for well-formed frames EncodedLen adds up to the length of the encoding |
| `Protocol.NewFrame` | protocol/frame.go:186-199 | a frame is built exactly when the payload fits uint16, and is then well formed |
| `RecordFormat.FrameLayout` | protocol/frame.go:242-248 | a frame on the wire is its type, the two bytes of its length, most significant first, and its payload |
| `RecordFormat.HandshakeLayout` | protocol/frame.go:116-124 | a handshake is version, protocol, cipher and target, in this order |
| `Records.NonceRepeats` | crypto/counter.go:17-22 | two records of a direction share a nonce if and only if their numbers agree modulo 2^64 |
| `RecordFormat.NonceLayout` | crypto/counter.go:17-22 | a nonce is the prefix and the eight bytes of the counter, most significant first |
| `Records.CounterNonce.Next` | crypto/counter.go:17-22 | each call issues the nonce of the next number |
| `Records.RecordWriter.WriteRecord` | crypto/record.go:43-92 | an over-long plaintext uses no nonce; otherwise the sealed record, or as much as the writer took, is appended; until a failure the stream is the records in order |
| `Records.ReadRecord` | crypto/record.go:118-151 | one read against the specification of all its results, including end of file, short input, an input cut right after a length (still matching io.EOF) and refused ciphertext; `RecordFormat.ReadRecordExactly` says what that specification lets through |
| `Records.RecordRoundTrip` | crypto/record.go:43-151 | a reader with the same counter opens exactly the sealed record and leaves what follows |
| `RecordFormat.RecordLayout` | crypto/record.go:43-80 | a record is the three bytes of the ciphertext length, most significant first, and the ciphertext under its own nonce |
| `RecordFormat.ReadRecordExactly` | crypto/record.go:118-151 | for any bytes: a plaintext is delivered if and only if a whole record is there whose length is in range and whose ciphertext the cipher opens to it under the reader's number; end of file exactly on empty input |
| `Records.DecodeFramesIntoBuf` | crypto/session.go:233-244 | decoding into a reused array gives the frames of the plaintext, or fails exactly when a frame is cut short |
| `Records.DecryptedReader.ReadFrame` | crypto/session.go:204-229 | delivers frames in stream order; reuse of the array never changes an undelivered frame |
| `Records.DecryptedReader.SetLeftoverFrames` | crypto/session.go:200-202 | replaces what is delivered next and nothing else |
| `Records.StreamRoundTrip` | crypto/session.go:204-244 | the frames of a stream of sealed records come out in order, and both counters advance by the number of records |
| `RecordFormat.ReadFrameExactly` | crypto/session.go:204-229 | for any bytes: the next pending frame, or the first frame of a record that the cipher opened |
| `RecordFormat.DeliveredWasOpened` | crypto/session.go:204-244 | for any bytes: everything ever delivered comes from consecutive records that the cipher opened under consecutive numbers, in order |
| `Shaper.PadFits` | shaper/shaper.go:123-158 | padding is a well-formed PADDING frame that never exceeds the budget, and above 1500 bytes it is left out only for want of room |
| `Shaper.PadTargetsExactly` | shaper/shaper.go:139-158 | the sizes that a record may be padded towards, exactly |
| `Shaper.PadFrameExactly` | shaper/shaper.go:123-158 | some choice pads towards a size if and only if it is one of these and the frame with its header fits the budget |
| `Shaper.BatchShaper.Push` | shaper/batch.go:96-180 | a push up to the first release of `mu` |
| `Shaper.BatchShaper.Resume` | shaper/batch.go:107-139 | a push that comes back from its pre-flush |
| `Shaper.BatchShaper.Flush` | shaper/batch.go:230-259 | padding, buffer swap and sequence number in one section |
| `Shaper.BatchShaper.WriteRecordInOrder` | shaper/batch.go:275-295 | one turn of the writer with its three outcomes |
| `ShaperRuns.StepsAreSections` | shaper/batch.go:96-295 | the step machine changes the shaper by exactly the sections that the class implements |
| `ShaperRuns.StepKeepsInv` | shaper/batch.go:96-295 | every step keeps the invariant on log, tickets, I/O, wire, control and positions |
| `ShaperTheorems.WireIsAppendOrder` | shaper/batch.go:230-295 | as long as no WriteRecord has failed, the records written decode, each up to one trailing PADDING frame, to a prefix of the frames in append order |
| `ShaperTheorems.CloseLosesNothing` | shaper/batch.go:193-227 | when a Close has returned, with any writer, the buffer is empty and every accepted push is in a record handed to the writer |
| `ShaperTheorems.NothingIsDropped` | shaper/batch.go:275-295 | the drop branch is never taken and no write happens once writeClosed is set |
| `ShaperTheorems.NumbersMatchThreads` | shaper/batch.go:256-295 | the numbers in [writeNext, writeSeq) and the threads holding a record correspond one to one |
| `ShaperTheorems.TurnCanProceed` | shaper/batch.go:275-295 | the owner of writeNext can always move |
| `ShaperTheorems.CloseWaitEnds` | shaper/batch.go:207-218 | while Close waits no step adds work, every writer step removes some, and the wait can be left exactly when none is left |
| `ShaperTheorems.ProgramOrder` | shaper/batch.go:141-180 | a push that starts after another has returned nil is behind it in the log |
| `ShaperFlush.FlushHandsOver` | shaper/batch.go:189-315 | when Flush, Close or a timer tick on an open shaper has returned, everything appended before the call is in records; if it had a record of its own, that one and all before it are dealt with and hold all of it, and the call reports nil exactly when its record was written |
| `ShaperFlush.PushExactly` | shaper/batch.go:96-180 | which pushes are refused and how, which frames join the buffer, and which make it leave as a record, with literal sizes |
| `ShaperFlush.ResumeExactly` | shaper/batch.go:107-139 | a push that comes back appends exactly when its record was written and the shaper is open, and otherwise reports why not |
| `ShaperFlush.BufferStaysShort` | shaper/batch.go:133-135 | at every point of every run less than nine tenths of a record is buffered |
| `ShaperBounds.BoundStep` | shaper/batch.go:96-139 | a step keeps the size bound if and only if it is not a resumption without room |
| `ShaperBounds.BoundedExactlyWhenGuarded` | shaper/batch.go:107-123 | a run stays within the bound if and only if every resumption finds room |
| `ShaperBounds.UndisturbedIsBounded` | shaper/batch.go:107-123 | a run in which nobody appends in another push's window stays within the bound |
| `ShaperLoss.WireKeepsOrder` | shaper/batch.go:275-295 | in every run, whatever fails, the records whose WriteRecord returned nil are whole batches in append order; what a failed write left on the stream is not among them |
| `ShaperLoss.OnWireIsInARecord` | crypto/record.go:43-80 | a log position on the wire is in a record that decodes to frames containing its frame |
| `ShaperLoss.WrittenExactlyWhenShort` | crypto/record.go:43-46 | with healthy I/O no write has failed if and only if no record so far exceeds the limit |
| `ShaperLoss.WrittenExactlyWhenGuarded` | shaper/batch.go:107-123 | with healthy I/O and every record dealt with, all were written if and only if every resumption found room |
| `ShaperLoss.UndisturbedIsWritten` | shaper/batch.go:107-123 | with healthy I/O and nobody appending in another push's window no write fails |
| `ShaperLoss.WireIsPrefix` | shaper/batch.go:96-295 | with healthy I/O and every resumption finding room, the wire is at every moment a prefix of the log |
| `ShaperLoss.NoLossExactlyWhenGuarded` | shaper/batch.go:96-227 | with healthy I/O, when Close has returned all appended frames are on the wire if and only if every resumption found room |
| `ShaperLoss.AcceptedIsOnWire` | shaper/batch.go:141-227 | under that condition every push that returned nil is on the wire when Close returns |
| `ShaperOverlap.OverlapLosesAcceptedFrame` | shaper/batch.go:107-123 | a run with healthy I/O and Close returned in which an accepted frame is in no record while a later one is |
| `ShaperOverlap.OverlapExceedsBound` | shaper/batch.go:107-128 | a run with healthy I/O that exceeds the size bound |
| `Pipeline.RealExactly` | server/handler/session.go:40-41 | the frames that count leave out exactly PADDING and COVER, and keep every other as often as it was there |
| `Pipeline.EndToEnd` | crypto/session.go:204-244 | for every run with healthy I/O and every cipher that opens what it seals, the far reader delivers exactly the written batches in append order with counters in lockstep; if every resumption found room these are, without PADDING and COVER, a prefix of the pushed frames, and all of them once Close has returned |
| `Pipeline.UndisturbedEndToEnd` | crypto/session.go:204-244 | the same prefix and completeness for calls that append nothing in each other's window |
| `UdpPool.ScanExactly` | client/proxy/udp_pool.go:206-222 | in any visiting order the scan of a non-empty table finds an oldest entry if and only if the one under the empty key is not older than all others |
| `UdpPool.NothingFoundExactly` | client/proxy/udp_pool.go:206-222 | it finds nothing if and only if that entry exists and is visited last |
| `UdpPool.CapIsPassedExactly` | client/proxy/udp_pool.go:167-174 | a creation on a full table passes the cap in exactly that case |
| `UdpPool.EmptyKeyHidesTheTable` | client/proxy/udp_pool.go:167-174 | a table of 128 entries in which nothing is evicted and the next registration makes 129 |
| `UdpPool.FindOldest` | client/proxy/udp_pool.go:206-222 | the scan as a loop over any table: an oldest entry unless one is hidden |
| `UdpPool.EvictLoop` | client/proxy/udp_pool.go:167-173 | oldest entries go one per failed capacity test, until a test succeeds or nothing is left |
| `UdpPool.EvictionMakesRoom` | client/proxy/udp_pool.go:167-174 | after the loop, or after the single eviction of the direct table, the new entry fits the cap |
| `UdpPool.Pool.RegisterExchange` | client/proxy/udp_pool.go:149-175 | refuses a closed pool and a taken key, otherwise evicts and inserts |
| `UdpPool.Pool.RegisterDirect` | client/proxy/udp_pool.go:264-283 | the same for direct sockets, keeping an existing entry |
| `UdpPool.Pool.RemoveExchange` | client/proxy/udp_pool.go:192-202 | only an entry that still is the given exchange goes |
| `UdpPool.Pool.TakeStale` | client/proxy/udp_pool.go:383-391 | a cleanup tick takes out exactly the entries idle for longer than the limit |
| `UdpPool.Pool.TakeAll` | client/proxy/udp_pool.go:69-83 | the scan of close empties both tables and hands over every exchange |
| `UdpRuns.StepKeepsInv` | client/proxy/udp_pool.go:69-299 | every step keeps the invariant on threads, flights, sessions, makers, counts and table |
| `UdpTheorems.ExactlyOnePlace` | client/proxy/udp_pool.go:139-202 | every opened session is registered under one key, held by one thread bound to close or register it, or closed |
| `UdpTheorems.StepsAreSections` | client/proxy/udp_pool.go:69-202 | the step machine changes the table and the closed flag by exactly what the methods of the class promise |
| `UdpKeys.AnswerIsForTheKey` | client/proxy/udp_pool.go:92-134 | a call that asked for a key and got a session got one that was opened for this key, from the table, by its own flight or by another call's |
| `UdpKeys.FailureHasCause` | client/proxy/udp_pool.go:118-165 | a call is turned away only if the pool is closed or an attempt to open a session for its key failed |
| `UdpKeys.LookupReadsTheTable` | client/proxy/udp_pool.go:92-111 | a lookup returns what the table holds under its key, as not created, or goes on to create it |
| `UdpKeys.NoSessionAfterClose` | client/proxy/udp_pool.go:118-134 | once the pool is closed and scanned no call returns a session |
| `UdpTheorems.IdlePoolOwnsOrClosed` | client/proxy/udp_pool.go:69-90 | once all calls have returned, everything opened is registered or closed, and closed after close |
| `UdpTheorems.EmptyForever` | client/proxy/udp_pool.go:69-90 | after the scan of close the table stays empty |
| `UdpTheorems.NoEntryIsLost` | client/proxy/udp_pool.go:139-308 | no entry is overwritten; one that leaves is evicted, stale, scanned or removed by its own name, and the acting thread is bound to close it or, for a direct socket that was not evicted, it is closed by then |
| `UdpTheorems.CreatedAtMostOnce` | client/proxy/udp_pool.go:118-134 | at most one caller is told that it created a session |
| `UdpTheorems.CreatorIsTold` | client/proxy/udp_pool.go:118-188 | every session ever registered has one creator, and that call reports it unless the pool is closed by then, also if the session has left the table meanwhile |
| `UdpTheorems.CreatedExactlyTheMaker` | client/proxy/udp_pool.go:106-134 | a call that returned a session is told created if and only if it registered it, so every other caller must send its own payload |
| `UdpTheorems.RegisteredHasMaker` | client/proxy/udp_pool.go:166-175 | whatever is or was in the table has a creator on record from then on |
| `UdpTheorems.TableIsCapped` | client/proxy/udp_pool.go:139-175 | the table holds at most 128 entries and no empty key; inflight is the number of creations in progress |
| `UdpTheorems.RegistrationCountsCreations` | client/proxy/udp_pool.go:166-174 | right after a registration whose last test read the true count, table plus other creations fit the cap, or only the new entry is left |
| `UdpTheorems.EvictsOnlyTheOldestOfAFullTable` | client/proxy/udp_pool.go:166-222 | a registration evicts only when the capacity test fails, and never an entry used more recently than one that stays |
| `UdpTheorems.DefenceIsDead` | client/proxy/udp_pool.go:158-165 | the defensive branch of createExchange is never taken |
| `Scheduler.WeightedIsExact` | transport/http2/scheduler.go:117-139 | with active*512 in int32 the weighted load does not wrap and is at least the stream count |
| `Scheduler.LevelBrackets` | transport/http2/scheduler.go:249-268 | level k >= 1 puts the load in [2^(k-1) base, 2^k base), level 0 below base |
| `Scheduler.LevelIsUnique` | transport/http2/scheduler.go:249-268 | the bracket determines the level |
| `Scheduler.ShiftNeverOverflows` | transport/http2/scheduler.go:270-287 | on the selection path base << (level-1) stays in int32 |
| `Scheduler.LevelZeroHasRoom` | transport/http2/scheduler.go:219-224 | at level 0 the search of the active tier succeeds, so the fall-through is unreachable |
| `Scheduler.FloorLog2Loop` | transport/http2/scheduler.go:261-268 | the shift loop computes the floor of the binary logarithm |
| `Scheduler.MinActiveInTier` | transport/http2/scheduler.go:289-303 | the least stream count of the active tier, and whether there is one |
| `Scheduler.MinActiveInRange` | transport/http2/scheduler.go:305-316 | the least stream count of the live prefix |
| `Scheduler.MinActiveIsMin` | transport/http2/scheduler.go:289-316 | that count is a lower bound and is attained |
| `Scheduler.PressureLevel` | transport/http2/scheduler.go:249-259 | the code computes the level of the load |
| `Scheduler.Consider` | transport/http2/scheduler.go:194-217 | the lightest slot of a tier below its capacity, the first of equals, or none if there is none |
| `Scheduler.LeastActive` | transport/http2/scheduler.go:320-356 | the least (weighted load, negative score) among usable slots; a retiring or draining one only if all are |
| `Scheduler.TieredSelect` | transport/http2/scheduler.go:186-246 | selection against its declarative specification: first tier with room, else saturated and the fallback |
| `Scheduler.PressedTiers` | transport/http2/scheduler.go:270-287 | under pressure only expiring, heavy and degraded slots below 2^(k-1) base are under capacity |
| `SchedulerExact.LevelExactly` | transport/http2/scheduler.go:248-259 | the level is at least k if and only if every healthy slot has 2^(k-1) base streams; without healthy slots level 1 is certain and more takes that many on every live slot |
| `SchedulerExact.UnderCapExactly` | transport/http2/scheduler.go:117-145 | when a slot may take a stream, in terms of its own streams and marks, with the weights 4, 8 and 16 |
| `SchedulerExact.SelectedIsFirst` | transport/http2/scheduler.go:186-241 | a selection with room takes the slot with room that comes first by turn (healthy, expiring, heavy, degraded), streams, marks and position |
| `SchedulerExact.FallbackIsFirst` | transport/http2/scheduler.go:318-356 | a selection without room takes a slot due for eviction only if all are, and the first by load, marks, busy before idle among those that are due, and position |
| `SchedulerExact.SeverityAgreesExactly` | transport/http2/scheduler.go:77-130 | the multiplied weights and the added scores order two slots alike except for exactly one pair of mark sets |
| `SlotPools.NewScheduler` | transport/http2/scheduler.go:27-58 | the slots are split without loss; the bulk pool is non-empty as soon as there are two |
| `SlotPools.SlotScheduler.FindGrowTarget` | transport/http2/scheduler.go:389-407 | which pool may grow |
| `SlotPools.SlotScheduler.Grow` | transport/http2/scheduler.go:359-385 | the target pool gets one slot, or two from zero, with cleared flags |
| `SlotPools.SlotScheduler.Pick` | transport/http2/scheduler.go:147-166 | the home pool's choice, or the sibling's when home is saturated and the sibling is not, or is lighter |
| `SchedulerExact.GrowthIsNeeded` | transport/http2/scheduler.go:387-407 | the home pool grows if and only if it is not full and has no room; the sibling if and only if home is full and neither has room |
| `SchedulerExact.ActivatedExactly` | transport/http2/scheduler.go:372-384 | one more slot is live, two in an empty pool that has them, without marks of rotation; nothing else changes |
| `SchedulerExact.LeavesHomeOnlyWhenFull` | transport/http2/scheduler.go:147-166 | a stream leaves home only when that has no room, for a slot with room or one that carries strictly less than every usable slot at home |
| `SlotPools.SlotScheduler.ShrinkIdle` | transport/http2/scheduler.go:410-436 | exactly the busy slots stay live, the slots are only permuted |
| `SlotPools.SlotScheduler.Remove` | transport/http2/scheduler.go:439-456 | a slot goes only while idle and live |
| `SlotPools.BusyStaysLive` | transport/http2/scheduler.go:410-456 | shrinking and removing keep every busy live slot live |
| `SlotRuns.StepEvolves` | transport/http2/scheduler.go:359-456 | every step, with Open as one step or two, keeps each pool's slots and limits, and no busy slot leaves the live prefix |
| `SlotRuns.PoolsKeepTheirSlots` | transport/http2/scheduler.go:359-456 | over any run each pool has the same slots and 0 <= live <= max |
| `SlotRuns.RunKeepsInv` | transport/http2/client.go:274-302 | with Open as one step, slots outside the live prefix are idle at every point |
| `SlotRuns.PickIsLive` | transport/http2/scheduler.go:147-189 | pick returns a live slot if and only if its pool is live and it does not borrow from an empty sibling |
| `SlotRuns.StepKeepsInvExactly` | transport/http2/client.go:274-302 | a step, split or not, keeps slots outside the live prefix idle if and only if it is no pick without a live slot |
| `SlotRuns.IdleExactlyWhenGuarded` | transport/http2/client.go:274-302 | the same over whole runs |
| `SlotRuns.OpenIsLive` | transport/http2/client.go:274-302 | Open returns a live slot, and one over its tier's capacity if and only if both pools are at maximum size and saturated |
| `SlotRuns.OpenIsLeastLoaded` | transport/http2/scheduler.go:147-166 | in that case it carries no more weighted load than any usable slot of either pool |
| `SlotRuns.OpenOverRuns` | transport/http2/client.go:274-302 | the same at every point of every run |
| `SlotStreams.StreamsAreConserved` | transport/http2/client.go:274-328 | at every point of every run the slots count exactly the streams opened and not finished, and the heavy ones marked and not unmarked, however slots grow, shrink and move |
| `SlotRuns.ShrinkBetweenGrowAndPick` | transport/http2/client.go:274-302 | a run with split steps that counts a stream on a slot that is not live |
| `Generations.TransportSlot.TakeConn` | transport/http2/slot.go:136-150 | claims the given or the current identity, or nothing |
| `Generations.TransportSlot.AdvanceGeneration` | transport/http2/slot.go:127-132 | leaves the generation exactly if it is current, for a new one without connection |
| `Generations.TransportSlot.RetireConn` | transport/http2/slot.go:197-212 | a claim leaves the slot outside the generation and never moves a newer one |
| `Generations.TransportSlot.InvalidateConnIf` | transport/http2/slot.go:164-179 | closes the given identity and nothing else, exactly while the generation holds it |
| `Generations.TransportSlot.RetireIdleConn` | transport/http2/slot.go:184-193 | takes the identity away without closing the connection |
| `Generations.StepsAreOperations` | transport/http2/slot.go:127-150 | the step machine changes the slot by exactly the compare-and-swap operations that the class uses |
| `Generations.InvalidateAlone` | transport/http2/slot.go:164-212 | the steps of an undisturbed invalidation do what the method does, rotation state included |
| `Generations.StepKeepsInv` | transport/http2/slot.go:127-212 | every interleaved step keeps the invariant on generations, identities, threads and closes |
| `Generations.ClaimedAtMostOnce` | transport/http2/slot.go:134-150 | over a run each identity is claimed at most once |
| `Generations.NeverReturns` | transport/http2/slot.go:127-132 | the current generation never returns to an earlier one |
| `Generations.ClosesAreOwned` | transport/http2/slot.go:155-179 | invalidations and winning closes own the identity and happen after the slot has left its generation; a losing close finds it displaced or claimed by another |
| `Generations.ReplacementSurvives` | transport/http2/slot.go:161-179 | an identity that a generation holds has never been closed |
| `Generations.InvalidatesTheGiven` | transport/http2/stream.go:296-303 | an invalidation is about the identity it was given until it returns |
| `GenerationCalls.RetireIdleAlone` | transport/http2/slot.go:184-212 | the steps of an undisturbed idle retirement: identity gone, generation left if current, nothing closed |
| `GenerationCalls.NetCloseAlone` | transport/http2/client.go:249-254 | the steps of an undisturbed close by net/http: closed in any case, the generation left first if it still held the connection |
| `GenerationCalls.DialAlone` | transport/http2/client.go:217-235 | the steps of an undisturbed dial: its identity is held, the one before it displaced, and only a dial of the current generation sets the deadline |
| `GenerationCalls.InvalidateReturns` | transport/http2/slot.go:164-179 | in every run: an invalidation that returned true claimed and closed the given identity and nothing else and the slot has left the generation; one that returned false did nothing |
| `GenerationCalls.RetireReturns` | transport/http2/slot.go:184-193 | in every run: an idle retirement that returned true claimed one identity of its generation, which the slot has left; it closes nothing |
| `GenerationCalls.NetCloseReturns` | transport/http2/slot.go:155-159 | in every run: a close by net/http has closed its connection once, and left the generation if it won the claim |
| `Generations.TransportSlot.FinishDial` | transport/http2/client.go:217-235 | a dial sets the deadline if its generation is current and displaces the identity it finds |
| `Rotation.DeadlineStep` | transport/http2/slot.go:203-205 | a step keeps the deadline of the current generation if and only if it is no write on behalf of another generation |
| `Rotation.DeadlineKeptExactlyWhenGuarded` | transport/http2/client.go:217-219 | over a run that deadline is never lost if and only if every write finds its generation current or none to lose |
| `Rotation.DeadlineCanBeLost` | transport/http2/slot.go:197-212 | a run in which a late retirement clears the deadline of the next generation |
| `StreamAccounting.Http2Stream.Accumulate` | transport/http2/stream.go:100-119 | the first qualifying transfer, and no other, marks the slot |
| `StreamAccounting.Http2Stream.ReleaseHeavy` | transport/http2/stream.go:122-135 | takes the mark back once and seals the stream |
| `StreamAccounting.StepKeepsInv` | transport/http2/stream.go:100-135 | every interleaved step keeps both counts equal to the sets they count |
| `StreamAccounting.HeavyIsMarked` | transport/http2/stream.go:81-135 | 0 <= heavy <= active at every step, and outside the locks heavy is the number of marked streams |
| `StreamAccounting.IdleSlotIsNotHeavy` | transport/http2/client.go:292-328 | active is zero exactly when no stream is open, and then heavy is zero |
| `StreamAccounting.MarksFollowTraffic` | transport/http2/stream.go:100-119 | no stream is marked below the slow threshold; above the fast one a stream is marked or sealed once no thread is left in accumulate |
| `StreamAccounting.TransferredIsCarried` | transport/http2/stream.go:100-104 | the total of a stream is the sum of the bytes its reads and writes carried |
| `StreamAccounting.MarkedExactlyWhenFoundHeavy` | transport/http2/stream.go:104-118 | a stream is marked only after a read or write found 1 MiB carried, or 300 KiB on an old stream, and once one has it is marked, sealed or about to be |
| `Tun.PlanIsUndo` | client/tun/teardown.go:67-115 | what teardown reads off the flags is what undoes the attempts |
| `Tun.Manager.StartEngine` | client/tun/tun.go:387-401 | a failed engine start is stopped at once |
| `Tun.Manager.ConfigureLocalDevice` | client/tun/tun.go:404-422 | DNS first, the device flag before the script |
| `Tun.Manager.Teardown` | client/tun/teardown.go:67-115 | engine, close script, DNS, in this order, and only the first time |
| `Tun.Manager.Start` | client/tun/tun.go:266-356 | undisturbed: succeeds or undoes its attempts |
| `Tun.Manager.Stop` | client/tun/tun.go:426-458 | after Start: everything attempted has been undone |
| `TunRuns.StepKeepsInv` | client/tun/tun.go:266-465 | every interleaved step keeps the invariant on Start, Stops and the log |
| `TunRuns.UndoIsOrdered` | client/tun/teardown.go:67-115 | the system sees the attempts and then a prefix of their undoing, in order, nothing twice and nothing unattempted |
| `TunRuns.TeardownOnce` | client/tun/teardown.go:67-77 | the teardown body runs at most once |
| `TunRuns.NothingLeftBehind` | client/tun/tun.go:426-465 | once Start and a Stop have returned everything attempted is undone; a Stop before Start means that nothing is attempted |
| `TunRuns.StartCleansUp` | client/tun/tun.go:283-300 | a failed or cancelled Start has undone its attempts before it closes done |
| `TunOutcome.StartSucceedsExactly` | client/tun/tun.go:266-356 | in every run: a Start about to return succeeded if and only if no platform call failed and no check found it cancelled; success leaves the complete session running, failure leaves nothing behind |
| `TunOutcome.RunningIsComplete` | client/tun/tun.go:333-355 | a session that runs, or that nobody has torn down, has its engine up and, for a local owner, device and DNS |
| `TunOutcome.TroubleStopsStart` | client/tun/tun.go:302-356 | after the first trouble the session never runs, and what was attempted up to there, and nothing else, is undone |
| `TunOutcome.StopIsNotOvertaken` | client/tun/tun.go:426-441 | once a Stop is past its cancel and Start has not passed its last check, the session never runs |
| `TunRuns.HelperUndoesOnlyTheEngine` | client/tun/teardown.go:89-93 | a helper-owned session never touches device or DNS |
| `TunRuns.StartAdvances` | client/tun/tun.go:266-356 | Start never waits, and every step brings it nearer to its end |
| `TunRuns.StopLeavesStartAlone` | client/tun/tun.go:426-458 | no step of a Stop or of its caller sets Start back |
| `TunRuns.WaitIsForStart` | client/tun/tun.go:437-441 | a waiting Stop can go on or Start is under way |
| `RouteCache.UdpRouteCache.Lookup` | client/proxy/udp_route_cache.go:30-40 | another generation empties the cache before the lookup |
| `RouteCache.UdpRouteCache.Store` | client/proxy/udp_route_cache.go:45-55 | an answer is stored only under its own generation, and a full cache is emptied first |
| `RouteCache.NeverStale` | client/proxy/udp_route_cache.go:25-57 | a lookup's answer is about its host and misses no change whose bump completed before it read the generation |
| `RouteCache.StoredIsFound` | client/proxy/udp_route_cache.go:30-55 | a lookup returns the answer stored under its generation and host without classifying again, unless a check for another generation, a newer store for the host or a full table gave it up |
| `RouteCache.CacheIsCapped` | client/proxy/udp_route_cache.go:50-53 | at most 4096 entries at every step |
| `RouteCache.StepKeepsInv` | client/router/router.go:282-312 | lookups and mutators that apply before they bump keep cache and answers fresh for their generation |
| `RouteCache.BackwardStep` | client/proxy/udp_route_cache.go:30-35 | a step moves the generation back if and only if it checks for a lookup that read an earlier one |
| `RouteCache.ForwardExactlyWhenInOrder` | client/proxy/udp_route_cache.go:30-35 | over a run it never moves back if and only if lookups check in the order of the generations they read |
| `RouteCache.CacheMovesBackwards` | client/proxy/udp_route_cache.go:30-35 | a slow lookup moves the generation of the cache backwards |
| `BytesPool.ClassIsLeast` | util/bytespool/alloc.go:47-58 | Get's class is the least power of two that holds the request, less than twice its size |
| `BytesPool.AcceptsExactlyClasses` | util/bytespool/alloc.go:85-89 | Put accepts exactly the capacities that Get hands out |
| `BytesPool.Allocator.Get` | util/bytespool/alloc.go:47-81 | a buffer of the least class that nobody else holds, a stored one if its class has any, or nil exactly outside (0, MaxSize] |
| `BytesPool.Allocator.Put` | util/bytespool/alloc.go:85-100 | fails exactly on a capacity that is no class, whoever made the buffer, and keeps it exactly while its class has room; with a limit contents <= counter <= limit is kept, without one the counter stays at zero |
| `NetBuf.Normalized` | util/netbuf/netbuf.go:61-70 | the loop finds the least power of two |
| `NetBuf.Reader.constructor` | util/netbuf/netbuf.go:21-25 | the limit is the class of the given one capped at MaxSize, the first buffer of the class of the hint or of the limit if smaller |
| `NetBuf.Reader.Grow` | util/netbuf/netbuf.go:38-50 | one class up, at most to the limit; the old buffer returns to the pool |
| `NetBuf.Reader.SwapIn` | util/bytespool/pool.go:21-29 | the old buffer is returned before the new one takes its place; nil changes nothing |
| `NetBuf.Reader.Release` | util/netbuf/netbuf.go:53-58 | returns the buffer, and MustPut cannot panic |
| `ShaperBuffer.PushWholeIsSections` | shaper/batch.go:96-139 | a push without interference is its critical sections in order |
| `BytesPool.OneBitIsPow2` | shaper/batch.go:183-187 | the bit test of putPooledPayload agrees with the test of Put |
| `ShaperBuffer.PooledShaper.PutPooledPayload` | shaper/batch.go:183-187 | exactly a non-empty payload of a class capacity goes back, and MustPut cannot panic |
| `ShaperBuffer.PooledShaper.AppendFrameLocked` | shaper/batch.go:96-139 | same bytes as the sections; on every path a pooled payload goes back to the pool once |
| `ShaperBuffer.PooledShaper.InjectCover` | shaper/batch.go:328-341 | whatever becomes of a cover frame, its pooled payload is back in the pool |
| `ShaperBuffer.PooledShaper.Push` | shaper/batch.go:96-180 | over pooled buffers: same bytes as the sections, capacity a power of two in [4096, 65536], length at most 65517, no reallocation, one buffer in use |
| `ShaperBuffer.PooledShaper.FlushLocked` | shaper/batch.go:230-247 | the record leaves with its buffer and a fresh smallest buffer takes over |
| `ShaperBuffer.PooledShaper.Grow` | shaper/batch.go:83-92 | contents move, the old buffer returns to the pool |
| `ShaperBuffer.PooledShaper.Close` | shaper/batch.go:193-227 | writes what is pending and keeps no buffer |
| `Cover.NormalizeIsNormal` | shaper/shaper.go:60-96 | Normalize yields a usable configuration and changes exactly those that are not |
| `Cover.NormalizeExactly` | shaper/shaper.go:60-96 | field by field, whatever the others are: values in range stay, unset ones become their defaults, large ones their limits |
| `Cover.RangeIsOrdered` | shaper/covertraffic.go:127-147 | MinSize <= min <= max <= MaxSize however much was sent |
| `Cover.RangeSlides` | shaper/covertraffic.go:127-147 | the range starts at MinSize and 27.8% of the span above it, never moves down with traffic, and from 1 MiB on is 28% of the span above MinSize and MaxSize |
| `Cover.EmitExactly` | shaper/covertraffic.go:95-105 | the sizes that some draw yields: nothing exactly below the range, otherwise every size of the range that the budget pays for |
| `Cover.CoverInjector.AddBudget` | shaper/covertraffic.go:47-66 | credits at most ratio times the bytes, capped |
| `Cover.CoverInjector.OnIdle` | shaper/covertraffic.go:76-125 | takes a size within the range and the budget, or nothing |
| `Cover.CoverIsPaidFor` | shaper/covertraffic.go:47-125 | over any run the budget stays in [0, cap] and the payload emitted is at most ratio times the bytes credited |
| `Cover.CreditIsKeptExactly` | shaper/covertraffic.go:47-105 | credit is in the budget or spent, to the last byte, if and only if no booking met the cap and no stop found credit left |
| `Cover.CoverIsAccepted` | shaper/batch.go:96-103 | no cover frame is refused for its size |
| `Bootstrap.EncodedLenLoop` | client/proxy/stream.go:651-657 | the loop computes EncodedLen of the list |
| `Bootstrap.BuildBootstrapPlaintext` | client/proxy/stream.go:140-161 | the code builds the specified plaintext, refuses it, or panics; `Bootstrap.BootstrapRoundTrip` says what it holds |
| `Bootstrap.BuiltExactly` | client/proxy/stream.go:140-161 | a bootstrap is built if and only if handshake and extra frames fit one record |
| `Bootstrap.SplitFirstExactly` | crypto/session.go:258-283 | the server opens exactly the encodings of a version 3 handshake frame followed by whole frames |
| `Bootstrap.BootstrapRoundTrip` | client/proxy/stream.go:140-161 | what is built is accepted by WriteRecord, and the server reads back version 3, the protocol, cipher and target of the request and its frames, plus the PADDING frame that the choice yields, if any |
| `Bootstrap.ReadFirstExactly` | crypto/session.go:246-283 | for any bytes: the server opens a stream if and only if the cipher opens the first record to a version 3 handshake frame followed by whole frames |
| `Bootstrap.MergeFirst` | client/proxy/stream.go:690-701 | the merge decision and the request it leaves |
| `Bootstrap.MergeIsExact` | client/proxy/stream.go:679-694 | a datagram is merged if and only if handshake plus datagram fit, and then the bootstrap is built |
| `Dialing.OrderByFamily` | server/handler/session.go:173-196 | the loops compute the specified order |
| `Dialing.OrderIsFairPermutation` | server/handler/session.go:173-196 | for every list and preference: a permutation, as multisets, that keeps each family's order, and the list itself without a preference or with fewer than two addresses |
| `Dialing.OrderAlternates` | server/handler/session.go:173-196 | families alternate from the preferred one until one runs out |
| `Dialing.DeadlineIsShared` | server/handler/session.go:231-241 | no attempt outlasts the shared deadline, and the last may use all that is left |
| `Dialing.GrantExactly` | server/handler/session.go:231-241 | an even share, rounded down, if the time covers everybody's minimum, and otherwise the minimum as far as the time goes |
| `Dialing.GrantsAreEven` | server/handler/session.go:231-241 | candidates that use up their shares, with time for everybody's minimum, get shares that differ by at most one and add up to the time |
| `Dialing.EnoughForTheRest` | server/handler/session.go:231-241 | with n minimums left, the next candidate gets one and n-1 remain even if it uses its whole share |
| `Dialing.MinimumForAllExactly` | server/handler/session.go:231-241 | candidates that use up their shares all get the minimum if and only if the total covers n of them |
| `Dialing.DialAddrsFreely` | server/handler/session.go:245-282 | without any deadline: the first that connects, after failures only, or the caller is gone |
| `Dialing.DialAddrs` | server/handler/session.go:245-282 | tries in order within the deadline, returns the first that connects, and makes no attempt once the caller is gone or the deadline has passed; with enough time everybody has the minimum and nobody is left out |
| `Dialing.PromptCandidateConnects` | server/handler/session.go:245-282 | a first candidate that connects within an even share of the time is never given up |

## Left out

- Ciphers, key derivation and salts: AEAD is an abstract pair with Open(Seal(x)) = x and a 16-byte tag; nothing is claimed about secrecy.
- net/http, HTTP/2 flow control, uTLS: dials, closes and write outcomes are steps or parameters that may happen in any order.
- Floating point rounding: budgets, ratios and size ranges are reals.
- Timers and clocks: the timer is a step that may happen at any time; times in `Dialing` are integers, attempts follow each other without a gap and end by their deadline.
- The health loop, probing and suspend detection (transport/http2/lifecycle.go, transport/http2/probe.go): they only supply the expiring and degraded flags, which are arbitrary here.
- Slot flags and counters within one selection: a selection works on one snapshot, as if no stream finished meanwhile.
- `SlotRuns.Run`: assumes that every active count times 512 fits int32 in every state.
- sync.Pool: the garbage collector may drop stored buffers at any time, but Get takes a stored buffer when its class has one, and Get and Put do not overlap.
- PushFrame with a COVER frame from outside the shaper, whose payload is not returned when the shaper is closing; the bit operation of putPooledPayload is modelled by its arithmetic meaning.
- The rotation state is one deadline and its owner; the stores that resetConn and resetRotation consist of are one step each.
- `UdpRuns.StepKeepsInv`: one table per machine; values read from inflight during the capacity loop are arbitrary but at least 1; the test of closed before acquireDirect takes the lock is folded into the one under the lock.
- `RouteCache.NeverStale`: an answer is the set of rule changes it took into account, between those applied when the classification began and when it ended; the 64-bit generation does not wrap; a nil router is not modelled.
- `NetBuf.Normalized`: sizes above 2^62, for which the shift loop of the source would not end, are not modelled.
- File descriptors handed over by the TUN helper (client/tun/tun.go:211-220) and the ICMP handler.
- UDPExchange's own Send, Receive and graceful close; DNS, GeoIP, rule matching, SOCKS5 and HTTP front ends, configuration, statistics and logging.
