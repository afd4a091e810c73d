# Packet-to-cloud pipeline of the Hesai ROS 2 driver, verified

The driver receives LiDAR packets in one thread, hands them through a bounded
ring to a second thread that checks them and cuts them into point clouds, and
hands the clouds through a one-value mailbox to a third thread that publishes
them. The driver was rebuilt in this form because a ring of 36,000 slots had
once replayed packets about seven seconds old. This project models that
pipeline and proves that such a replay cannot happen in any interleaving of the
threads or on any input (a packet taken from the ring has fewer than 400 newer ones
behind it, less than 0.08 s at 5,000 packets a second: `PoppedPacketIsFresh`),
together with what every part promises on the way.

## How it is built

| file | content |
|---|---|
| `Common.dfy` | machine integers, subsequences, stamps in nanoseconds |
| `SpscQueue.dfy`, `SpscThreads.dfy` | the ring as an object, and as two threads whose acquire loads may return stale index values |
| `PacketDefenses.dfy` | the sequence tracker (modulo 2^32, idle restart) and the timestamp guard |
| `TrackerRefinement.dfy`, `TrackerIdempotence.dfy` | the tracker against unbounded numbers, with exact counts; filtering what was filtered |
| `XtPacket.dfy` | the PandarXT packet layout |
| `FrameSplitter.dfy`, `RevolutionCuts.dfy`, `Revolutions.dfy` | the cut at the start angle; conservation, revolutions and the buffer bound |
| `XtFrames.dfy`, `FrameRuns.dfy` | the frame builder with its point buffer and recorded scan, and its runs |
| `PacketProcessor.dfy` | the checks in front of the builder, with the diagnostic counters |
| `CloudStamps.dfy`, `CloudOrigins.dfy`, `SteadyOrigins.dfy` | how cloud stamps follow point stamps and reception times; in which packets clouds begin |
| `Mailbox.dfy`, `CloudPublisher.dfy` | the mailbox as a monitor; the cloud callback and the publishing loop |
| `Pipeline.dfy` | all three threads together; the main results |
| `SamplePackets.dfy`, `OffRingTurn.dfy` | packets built block by block; those on which the list form fails |
| `PointCloud2.dfy`, `CorrectionText.dfy` | the two serialized forms |
| `ScanReplay.dfy`, `ReplayedRuns.dfy`, `ReplayedClouds.dfy`, `ReplayedPipeline.dfy` | recorded scans played back: offered again, accepted again, cut into the same clouds; end to end |
| `Sessions.dfy` | queue counters over many starts and stops |

Objects whose methods change fields are classes; each method is tied to a step
function (`TrackerStep`, `GuardStep`, `Admit`, `OnBlock`, `OnCloud`, `PushSlot`,
`ReplayPacket`), and the results are lemmas about runs of those functions. The
concurrent models use the same functions.

Concurrency is a state machine of atomic steps. In `SpscThreads` each load, slot
access and store is one step; an index is the sequence of all values stored to
it, a load returns any entry no older than the last one this thread saw, and a
slot read may return any write that the reader does not know to be overwritten.
In `Pipeline`, work on thread-local state is joined to the shared access next to
it: a block and its callback form one step, whose only shared access is the
mailbox push under the mutex.

## What the results assume

- Doubles are exact reals; NaN and infinity are one separate value.
- Both transform frames are empty, as launched, so no transform fails; the cloud
  callback is set; points are stamped with the reception time (`realtime`).
- The time a packet's UTC fields denote is an input (`sensorTime`) that belongs to
  the packet's bytes: a replayed packet has the same one.
- Revolution results assume azimuths that advance by 0 to 3599 hundredths of a
  degree a block and a sensor clock that does not run backwards. The buffer bounds
  and the results on steady turning also assume no *unseen* crossing, that is, no
  wrapping step from an azimuth below the start angle. The driver's test misses
  exactly those (`FiresExactly`, `CutsAtEveryTurnIff`; `UnseenCrossing` is one), and
  start angle 0 has none.
- The write into the point buffer is not bounded by the driver at run time. The
  builder's methods therefore require that it fits; `BufferNeverOverflows`,
  `SystemBufferNeverOverflows` and, for the builder's own condition,
  `NextPacketFits` derive that from the azimuth spacing. The other results in
  `Pipeline` speak about the unbounded buffer, which is the driver's behaviour as
  long as it fits.
- Serialization throws on a cloud of more than 165,191,049 points, which ends the
  process: a run of `Pipeline` ends before such a block. A cloud that fits the
  flat buffer is never that long.

## Findings

- The boundary test does not see every completed revolution unless the start
  angle is 0 (or no crossing is unseen): an unseen one runs into the next.
  `CloudsAreRevolutionsIff` says exactly when the clouds are the revolutions.
- In list form the emission guard looks at ring 0 alone, so a revolution without a
  point on that ring runs into the next cloud (`ListCloudsDiffer`);
  `ListCloudsAreRevolutionsIff` says that, with no crossing unseen, this is the only
  way in which clouds differ from revolutions.
- Sequence filtering is idempotent for ascending stamps, but not for stamps that
  step back within the guard's tolerance, and that in two ways: the second pass can
  drop a packet (`TrackingNotIdempotentUnderJitter`), or accept all and count a gap
  that a restart hid in the first (`CountingNotIdempotentUnderJitter`). The exact
  condition is proved for the accepted packets (`TrackingIdempotentIff`) and, arrival
  by arrival, for the missing counts as well (`CountingIdempotentIff`).
- Two clouds can begin in one packet, also when the sensor turns steadily
  (`TwoCloudsBeginInOnePacket`): if the very first packet crosses the start angle,
  the partial cloud before the crossing and the one after it both do. So cloud
  stamps need not be a subsequence of the accepted packets' times.
  `CloudStampsFollowPacketsIff` says exactly when they are;
  `SteadyStampsFollowPacketsIff` that under steady turning the first packet is the
  only exception; `OneCutStampsFollowPackets` gives a condition on firing blocks.
- Recording rounds stamps down to nanoseconds. Because the tolerance (0.1 s) and
  the idle gap (2 s) are whole numbers of nanoseconds, this never makes the guard
  reject, nor loses an idle restart, on replay.
- Section 3.2 of RFC 1982 leaves the distance 2^31 undefined; the tracker decides
  it as backward, and the refinement window is closed on that side.

## Model

| member | source | states |
|---|---|---|
| `SpscQueue.BoundedSpscQueue.constructor` | src/HesaiLidar_General_SDK/src/PandarGeneralRaw/src/bounded_spsc_queue.h:30-35 | needs 0 < MaxDepth < StorageCapacity and starts empty |
| `SpscQueue.BoundedSpscQueue.TryPush` | src/HesaiLidar_General_SDK/src/PandarGeneralRaw/src/bounded_spsc_queue.h:40-54 | refuses exactly at MaxDepth queued values, else appends the value and reports the new size, across any wrap |
| `SpscQueue.BoundedSpscQueue.TryPop` | src/HesaiLidar_General_SDK/src/PandarGeneralRaw/src/bounded_spsc_queue.h:56-66 | fails exactly on an empty queue, else removes and returns the oldest value |
| `SpscQueue.BoundedSpscQueue.Reset` | src/HesaiLidar_General_SDK/src/PandarGeneralRaw/src/bounded_spsc_queue.h:69-72 | empties the queue whatever the storage holds |
| `SpscThreads.QueueIsFifo` | src/HesaiLidar_General_SDK/src/PandarGeneralRaw/src/bounded_spsc_queue.h:40-66 | two threads, stale acquire loads: R <= W <= R + MaxDepth and the popped values are a prefix of the pushed ones |
| `SpscThreads.SlotsAreRaceFree` | src/HesaiLidar_General_SDK/src/PandarGeneralRaw/src/bounded_spsc_queue.h:48-64 | the slot being written is never one the consumer may read; every conflicting access happens before |
| `SpscThreads.SlotReadDetermined` | src/HesaiLidar_General_SDK/src/PandarGeneralRaw/src/bounded_spsc_queue.h:57-63 | of all writes a slot read could return, only the oldest value not yet popped is possible |
| `SpscThreads.RefusalsAreJustified` | src/HesaiLidar_General_SDK/src/PandarGeneralRaw/src/bounded_spsc_queue.h:43-61 | a refused push (pop) is justified, in both directions, by the index values it loaded; with fresh loads the queue is full (empty) |
| `SpscThreads.ProducerNeverBlocked` | src/HesaiLidar_General_SDK/src/PandarGeneralRaw/src/bounded_spsc_queue.h:40-54 | the producer always has a step, and its acquire load may return every index value since the last one it saw, and no other |
| `SpscThreads.ConsumerNeverBlocked` | src/HesaiLidar_General_SDK/src/PandarGeneralRaw/src/bounded_spsc_queue.h:56-66 | the same for the consumer |
| `SpscThreads.RingRefinesFifo` | src/HesaiLidar_General_SDK/src/PandarGeneralRaw/src/bounded_spsc_queue.h:40-91 | every atomic step is invisible or one step of an abstract bounded FIFO |
| `SpscThreads.StepFromOffered` | src/HesaiLidar_General_SDK/src/PandarGeneralRaw/src/bounded_spsc_queue.h:40-54 | pushed values, then the one in hand, stay a subsequence of what the producer offered |
| `PacketDefenses.XtSequenceTracker.Observe` | src/HesaiLidar_General_SDK/src/PandarGeneralRaw/src/packet_defenses.h:82-118 | the branches of the tracker, tied to its step function |
| `PacketDefenses.XtSequenceTracker.Reset` | src/HesaiLidar_General_SDK/src/PandarGeneralRaw/src/packet_defenses.h:120-124 | back to the fresh state |
| `PacketDefenses.TimestampGuard.Observe` | src/HesaiLidar_General_SDK/src/PandarGeneralRaw/src/packet_defenses.h:153-175 | the branches of the guard, tied to its step function |
| `PacketDefenses.TimestampGuard.Reset` | src/HesaiLidar_General_SDK/src/PandarGeneralRaw/src/packet_defenses.h:177-180 | back to the fresh state |
| `TrackerRefinement.WrappedVerdictExact` | src/HesaiLidar_General_SDK/src/PandarGeneralRaw/src/packet_defenses.h:102-117 | one step without a restart: status, missing count and kept number are the true ones exactly when the number is ahead by less than 2^31, or behind by a distance whose residue modulo 2^32 falls in the upper half range |
| `TrackerRefinement.TrackerRefinesUnbounded` | src/HesaiLidar_General_SDK/src/PandarGeneralRaw/src/packet_defenses.h:82-118 | whole runs, any number of rollovers: same maximum modulo 2^32, same accepted numbers, same missing total as an unbounded tracker |
| `TrackerRefinement.TrackerStatusExact` | src/HesaiLidar_General_SDK/src/PandarGeneralRaw/src/packet_defenses.h:102-117 | the status of each arrival is how its true number compares with the accepted maximum |
| `TrackerRefinement.TrackerCountsMissingExactly` | src/HesaiLidar_General_SDK/src/PandarGeneralRaw/src/packet_defenses.h:102-117 | accepted + missing = M - first + 1, and missing is the number of numbers in between never accepted, late packets included |
| `TrackerRefinement.TrackerRefinesSegments` | src/HesaiLidar_General_SDK/src/PandarGeneralRaw/src/packet_defenses.h:90-118 | the same through idle restarts: each begins a new segment, accepted numbers and missing counts add up |
| `TrackerRefinement.TrackerCountsAcrossRestarts` | src/HesaiLidar_General_SDK/src/PandarGeneralRaw/src/packet_defenses.h:90-118 | across restarts: accepted + missing is the sum over the segments of M - first + 1, and missing is the number of numbers in them never accepted |
| `TrackerIdempotence.TrackingIsIdempotent` | src/HesaiLidar_General_SDK/src/PandarGeneralRaw/src/packet_defenses.h:82-118 | ascending stamps: a fresh tracker accepts all that a first one accepted, ends on the same number and reports no more missing |
| `TrackerIdempotence.TrackingIdempotentIff` | src/HesaiLidar_General_SDK/src/PandarGeneralRaw/src/packet_defenses.h:90-118 | any stamps, accepted arrivals: a second pass accepts the same ones if and only if those that only a restart admits are also idle-late after the last accepted one |
| `TrackerIdempotence.TrackingNotIdempotentUnderJitter` | src/HesaiLidar_General_SDK/src/PandarGeneralRaw/src/packet_defenses.h:90-118 | three arrivals whose stamps all pass the guard at 0.1 s, on which a second pass of the tracker drops a packet |
| `TrackerIdempotence.CountingIdempotentIff` | src/HesaiLidar_General_SDK/src/PandarGeneralRaw/src/packet_defenses.h:90-118 | any stamps, accepted arrivals and missing counts: arrival by arrival the second pass accepts too and reports no more missing, if and only if every restart whose number is not the next one is also idle-late after the last accepted arrival |
| `TrackerIdempotence.CountKeptTotal` | src/HesaiLidar_General_SDK/src/PandarGeneralRaw/src/packet_defenses.h:90-118 | under that condition the total that the second pass reports is at most the first |
| `TrackerIdempotence.SecondPassCounts` | src/HesaiLidar_General_SDK/src/PandarGeneralRaw/src/packet_defenses.h:90-118 | where the second pass accepts the same arrivals, its missing total exactly, told from the first pass |
| `TrackerIdempotence.AscendingKeepsCount` | src/HesaiLidar_General_SDK/src/PandarGeneralRaw/src/packet_defenses.h:90-118 | ascending stamps meet the condition |
| `TrackerIdempotence.CountingNotIdempotentUnderJitter` | src/HesaiLidar_General_SDK/src/PandarGeneralRaw/src/packet_defenses.h:90-118 | three arrivals whose stamps all pass the guard at 0.1 s: the second pass accepts the same ones and reports 12 missing after 0 |
| `TrackerIdempotence.AcceptedComesFromArrivals` | src/HesaiLidar_General_SDK/src/PandarGeneralRaw/src/packet_defenses.h:82-118 | what the tracker accepts is a subsequence of what arrived |
| `TrackerIdempotence.TakenWholeIff` | src/HesaiLidar_General_SDK/src/PandarGeneralRaw/src/packet_defenses.h:82-118 | a tracker takes a whole stream if and only if each arrival is ahead of, or idle-late after, the one before it |
| `PacketDefenses.GuardIsRunningMaximum` | src/HesaiLidar_General_SDK/src/PandarGeneralRaw/src/packet_defenses.h:153-175 | the kept stamp is the maximum of all finite stamps seen, rejected ones included |
| `PacketDefenses.GuardAcceptsExactly` | src/HesaiLidar_General_SDK/src/PandarGeneralRaw/src/packet_defenses.h:153-175 | a stamp passes if and only if it is finite and at least that maximum minus the tolerance |
| `PacketDefenses.FreshGuardPassesIff` | src/HesaiLidar_General_SDK/src/PandarGeneralRaw/src/packet_defenses.h:153-175 | a fresh guard passes a stream untouched if and only if no stamp lies further than the tolerance below an earlier one |
| `PacketDefenses.GuardingIsIdempotent` | src/HesaiLidar_General_SDK/src/PandarGeneralRaw/src/packet_defenses.h:153-175 | a second guard accepts every subsequence of what a first one accepted |
| `XtPacket.ParseXtUnits` | src/HesaiLidar_General_SDK/src/PandarGeneralRaw/src/pandarGeneral_internal.cc:1543-1553 | the inner walk reads the units at their fixed offsets |
| `XtPacket.ParseXtData` | src/HesaiLidar_General_SDK/src/PandarGeneralRaw/src/pandarGeneral_internal.cc:1487-1576 | the running index stays in bounds and visits exactly the fixed offsets; every check as in the code; the tail walk ends one factory byte before the sequence |
| `XtPacket.DecodeInvertsEncode` | src/HesaiLidar_General_SDK/src/PandarGeneralRaw/src/pandarGeneral_internal.cc:1487-1576 | decoding an encoded packet gives it back, whatever the ignored bytes |
| `XtPacket.EncodeInvertsDecode` | src/HesaiLidar_General_SDK/src/PandarGeneralRaw/src/pandarGeneral_internal.cc:1487-1576 | every accepted byte string is an encoding of what was decoded |
| `XtPacket.LayoutIsUnique` | src/HesaiLidar_General_SDK/src/PandarGeneralRaw/src/pandarGeneral_internal.cc:1513-1531 | a supported size passes the layout check for exactly one pair of block and laser counts |
| `FrameSplitter.SplitConserves` | src/HesaiLidar_General_SDK/src/PandarGeneralRaw/src/pandarGeneral_internal.cc:1069-1099 | one block, both buffer forms: an emitted cloud is exactly what was collected since the last one, never empty, and the rest stays |
| `FrameSplitter.RegroupingIsStable` | src/HesaiLidar_General_SDK/src/PandarGeneralRaw/src/pandarGeneral_internal.cc:2010-2016 | list form keeps each ring's points in their order |
| `FrameSplitter.RegroupingIsPermutation` | src/HesaiLidar_General_SDK/src/PandarGeneralRaw/src/pandarGeneral_internal.cc:2010-2016 | list form loses and repeats nothing |
| `FrameSplitter.FiresWhen` | src/HesaiLidar_General_SDK/src/PandarGeneralRaw/src/pandarGeneral_internal.cc:1072-1084 | the cut in figures, for any two azimuths on the circle and any clock: boundary test, and below 3,600,000 hundredths of a degree a second with a millisecond granted |
| `FrameSplitter.JitterNeverFires` | src/HesaiLidar_General_SDK/src/PandarGeneralRaw/src/pandarGeneral_internal.cc:1077-1079 | the rate gate closes on a backward step of up to 3599 hundredths of a degree in up to 8 ms |
| `Revolutions.JitterAddsNoCloud` | src/HesaiLidar_General_SDK/src/PandarGeneralRaw/src/pandarGeneral_internal.cc:1077-1098 | after any blocks, any number of small backward steps adds no cloud and only extends what is pending |
| `Revolutions.RunConserves` | src/HesaiLidar_General_SDK/src/PandarGeneralRaw/src/pandarGeneral_internal.cc:1069-1099 | any stream of blocks: batches plus pending points are the arrivals in order, and cloud k is batch k |
| `Revolutions.FiresExactly` | src/HesaiLidar_General_SDK/src/PandarGeneralRaw/src/pandarGeneral_internal.cc:1072-1084 | the boundary test fires if and only if a revolution from the start angle completes and the step is not an unseen crossing |
| `Revolutions.CutsAtEveryTurnIff` | src/HesaiLidar_General_SDK/src/PandarGeneralRaw/src/pandarGeneral_internal.cc:1072-1084 | over a run the cut falls exactly on the completed revolutions if and only if no crossing is unseen |
| `Revolutions.UnseenCrossing` | src/HesaiLidar_General_SDK/src/PandarGeneralRaw/src/pandarGeneral_internal.cc:1081-1084 | a step from 340 to 10 degrees, start angle 350: a revolution completes, the rate gate is open, and the test does not fire, whatever is buffered |
| `Revolutions.StartZeroSeesAll` | src/HesaiLidar_General_SDK/src/PandarGeneralRaw/src/pandarGeneral_internal.cc:1081-1084 | start angle 0 has no such step |
| `Revolutions.GateOpen` | src/HesaiLidar_General_SDK/src/PandarGeneralRaw/src/pandarGeneral_internal.cc:1077-1079 | the rate gate opens for every advance of at most 3599 hundredths of a degree, however little time has elapsed, and 3599 is the largest such advance |
| `Revolutions.BatchesAreRevolutions` | src/HesaiLidar_General_SDK/src/PandarGeneralRaw/src/pandarGeneral_internal.cc:1069-1099 | any steadily turning run, both buffer forms: clouds are cut at the revolutions; one whose end is unseen, or does not pass the emission guard, runs into the next |
| `Revolutions.CloudsAreRevolutionsIff` | src/HesaiLidar_General_SDK/src/PandarGeneralRaw/src/pandarGeneral_internal.cc:1069-1099 | both forms, unseen crossings included: the clouds are the completed non-empty revolutions if and only if each has a leading point and a seen end before the next non-empty one |
| `RevolutionCuts.WholeOrFewer` | src/HesaiLidar_General_SDK/src/PandarGeneralRaw/src/pandarGeneral_internal.cc:1081-1088 | otherwise there are fewer clouds than such revolutions |
| `Revolutions.ListCloudsAreRevolutionsIff` | src/HesaiLidar_General_SDK/src/PandarGeneralRaw/src/pandarGeneral_internal.cc:1085 | list form, no crossing unseen: the clouds are the completed non-empty revolutions, regrouped, if and only if each of them has a point on ring 0 |
| `OffRingTurn.ListCloudsDiffer` | src/HesaiLidar_General_SDK/src/PandarGeneralRaw/src/pandarGeneral_internal.cc:1085 | accepted packets of a steadily turning sensor whose second turn has its only point on ring 3: in list form the clouds are not the revolutions |
| `OffRingTurn.OffRingPacketsExist` | src/HesaiLidar_General_SDK/src/PandarGeneralRaw/src/pandarGeneral_internal.cc:1487-1576 | such packets exist, as bytes |
| `Revolutions.CloudsAreRevolutions` | src/HesaiLidar_General_SDK/src/PandarGeneralRaw/src/pandarGeneral_internal.cc:1069-1099 | flat form, steady turning, no crossing unseen: the emitted clouds are exactly the completed non-empty revolutions and the buffer is the current one |
| `Revolutions.PendingBounded` | src/HesaiLidar_General_SDK/src/PandarGeneralRaw/src/pandarGeneral_internal.cc:1933-2006 | points buffered in the current revolution are bounded by lasers, repeats and azimuth steps since the start angle |
| `Revolutions.BufferNeverOverflows` | src/HesaiLidar_General_SDK/src/PandarGeneralRaw/src/pandarGeneral_internal.h:147 | lasers * r * ceil(36000 / d) <= 1,000,000 keeps every write into the fixed buffer in range |
| `Revolutions.Xt16Fits` | src/HesaiLidar_General_SDK/src/PandarGeneralRaw/src/pandarGeneral_internal.h:147 | 16 lasers and one block an azimuth at the finest step need at most 576,000 points |
| `XtFrames.BlockPointsShape` | src/HesaiLidar_General_SDK/src/PandarGeneralRaw/src/pandarGeneral_internal.cc:1933-2006 | a block gives at most one point a laser, each on its own ring and stamped with the reception time |
| `XtFrames.PointsAreKeptUnits` | src/HesaiLidar_General_SDK/src/PandarGeneralRaw/src/pandarGeneral_internal.cc:1936-1999 | laser u gives a point if and only if its distance is above 0.1 m and at most 200 m, exactly one then, with the packet, block, reception time, azimuth, distance and intensity; in laser order, and no others |
| `XtFrames.XtFrameBuilder.constructor` | src/HesaiLidar_General_SDK/src/PandarGeneralRaw/src/pandarGeneral_internal.cc:704-709 | nothing buffered, no azimuth seen, a buffer of 1,000,000 points and 256 ring lists |
| `XtFrames.XtFrameBuilder.Restart` | src/HesaiLidar_General_SDK/src/PandarGeneralRaw/src/pandarGeneral_internal.cc:704-709 | a start clears the buffers, the last azimuth and the last sensor time |
| `XtFrames.XtFrameBuilder.StorePoint` | src/HesaiLidar_General_SDK/src/PandarGeneralRaw/src/pandarGeneral_internal.cc:1999-2005 | one point appended to the flat buffer or to its ring's list |
| `XtFrames.XtFrameBuilder.StoreUnit` | src/HesaiLidar_General_SDK/src/PandarGeneralRaw/src/pandarGeneral_internal.cc:1933-2005 | a unit is stored unless its distance is skipped; which are, and as what point, is PointsAreKeptUnits |
| `XtFrames.XtFrameBuilder.CalcXtPoints` | src/HesaiLidar_General_SDK/src/PandarGeneralRaw/src/pandarGeneral_internal.cc:1929-2007 | the loop adds exactly the block's kept points, in laser order |
| `XtFrames.XtFrameBuilder.GatherRings` | src/HesaiLidar_General_SDK/src/PandarGeneralRaw/src/pandarGeneral_internal.cc:2010-2016 | the cloud is the rings one after the other |
| `XtFrames.XtFrameBuilder.ClearRings` | src/HesaiLidar_General_SDK/src/PandarGeneralRaw/src/pandarGeneral_internal.cc:2037-2045 | the rings of the sensor are emptied and no other |
| `XtFrames.XtFrameBuilder.EmitBackMessage` | src/HesaiLidar_General_SDK/src/PandarGeneralRaw/src/pandarGeneral_internal.cc:2009-2046 | one callback with the buffered cloud, stamped by its first point, with the scan and its correction packet; or one empty drop; the buffer is cleared |
| `XtFrames.XtFrameBuilder.ProcessBlock` | src/HesaiLidar_General_SDK/src/PandarGeneralRaw/src/pandarGeneral_internal.cc:1069-1098 | the loop body is one step of the splitter and of the scan |
| `XtFrames.XtFrameBuilder.ProcessNext` | src/HesaiLidar_General_SDK/src/PandarGeneralRaw/src/pandarGeneral_internal.cc:1069-1099 | one turn of the loop over the blocks |
| `XtFrames.XtFrameBuilder.ProcessBlocks` | src/HesaiLidar_General_SDK/src/PandarGeneralRaw/src/pandarGeneral_internal.cc:1069-1099 | the loop over the blocks |
| `XtFrames.XtFrameBuilder.ProcessXtPacket` | src/HesaiLidar_General_SDK/src/PandarGeneralRaw/src/pandarGeneral_internal.cc:1068-1099 | the packet joins the scan, then its blocks in order |
| `FrameRuns.BlockKeepsInv` | src/HesaiLidar_General_SDK/src/PandarGeneralRaw/src/pandarGeneral_internal.cc:1068-1099 | over runs the builder's clouds are those of the block stream, and emitted scans plus the pending one hold what arrived |
| `PacketProcessor.PacketProcessor.constructor` | src/HesaiLidar_General_SDK/src/PandarGeneralRaw/src/packet_defenses.h:149-151 | the two filters fresh with 0.1 s and 2.0 s |
| `PacketProcessor.PacketProcessor.Start` | src/HesaiLidar_General_SDK/src/PandarGeneralRaw/src/pandarGeneral_internal.cc:698-709 | both filters and the frame begin anew, the counters go on |
| `PacketProcessor.PacketProcessor.CountSequence` | src/HesaiLidar_General_SDK/src/PandarGeneralRaw/src/pandarGeneral_internal.cc:1026-1067 | each sequence status moves its own counter |
| `PacketProcessor.PacketProcessor.Check` | src/HesaiLidar_General_SDK/src/PandarGeneralRaw/src/pandarGeneral_internal.cc:810-1067 | guard, size, layout and sequence in this order, each failure dropping the packet |
| `PacketProcessor.PacketProcessor.HandlePacket` | src/HesaiLidar_General_SDK/src/PandarGeneralRaw/src/pandarGeneral_internal.cc:810-1099 | a packet changes the frame only if all checks pass, and then as its blocks say |
| `PacketProcessor.ChecksFactor` | src/HesaiLidar_General_SDK/src/PandarGeneralRaw/src/pandarGeneral_internal.cc:812-1056 | the checks of any stream are one guard run followed by one tracker run over what the guard and layout let through; the gap counter is the tracker's missing total |
| `PacketProcessor.GapCounterIsExact` | src/HesaiLidar_General_SDK/src/PandarGeneralRaw/src/pandarGeneral_internal.cc:1026-1037 | idle restarts included, the driver's gap counter is the number of packets never accepted, and with the accepted ones it makes up the spans of the segments |
| `PacketProcessor.GapCounterOverSessions` | src/HesaiLidar_General_SDK/src/PandarGeneralRaw/src/pandarGeneral_internal.cc:698-712 | over any number of starts, which reset the filters and keep the counters, the gap counter goes on being that number |
| `PacketProcessor.AcceptedTimesNeverRegress` | src/HesaiLidar_General_SDK/src/PandarGeneralRaw/src/pandarGeneral_internal.cc:812-828 | accepted reception times never fall by more than 0.1 s below an earlier one |
| `PacketProcessor.OutcomesBalance` | src/HesaiLidar_General_SDK/src/PandarGeneralRaw/src/pandarGeneral_internal.cc:810-1056 | every processed packet is stopped by the guard, by its layout, as duplicate or backward, or accepted, in order |
| `PacketProcessor.AcceptedNextIff` | src/HesaiLidar_General_SDK/src/PandarGeneralRaw/src/pandarGeneral_internal.cc:812-1056 | the checks as one rule over the whole past: accepted if and only if within 0.1 s of every earlier finite stamp, of the right size and layout, and first, ahead in number of the last accepted one, or 2 s after the last packet that got to the tracker |
| `PacketProcessor.CountersByStatus` | src/HesaiLidar_General_SDK/src/PandarGeneralRaw/src/pandarGeneral_internal.cc:1038-1067 | the counters of duplicates, backward packets and restarts are the numbers of packets on which the tracker decides so |
| `Mailbox.LatestValueMailbox.constructor` | src/latest_value_mailbox.h:23 | empty and not stopped |
| `Mailbox.LatestValueMailbox.Push` | src/latest_value_mailbox.h:29-40 | stored, replacing, or refused after stop |
| `Mailbox.LatestValueMailbox.PopAfterWait` | src/latest_value_mailbox.h:43-51 | takes the pending value, or reports the stop |
| `Mailbox.LatestValueMailbox.Stop` | src/latest_value_mailbox.h:54-59 | drops the pending value and stays stopped |
| `Mailbox.DeliversNewestInOrder` | src/latest_value_mailbox.h:29-52 | all interleavings, spurious wake-ups included: deliveries are a subsequence of pushes and each is the newest at its pop |
| `Mailbox.ConsumerNeverSleepsOnWork` | src/latest_value_mailbox.h:29-59 | with a value pending or stop set the consumer is never asleep un-notified, and its next test returns, false exactly when stopped |
| `Mailbox.JoinedCountersBalance` | src/latest_value_mailbox.h:29-59 | after the final return: pushed = published + failed + overwritten + at most one discarded |
| `CloudPublisher.HesaiLidarClient.constructor` | src/main_ros2.cc:388-402 | fresh guard, empty mailbox, zero counters |
| `CloudPublisher.HesaiLidarClient.EnqueueCloud` | src/main_ros2.cc:210-264 | empty check, guard, the serializer's length error above 165,191,049 points, push and counters; what it enqueues has the cloud's points and stamp, and otherwise the slot stays as it was |
| `CloudPublisher.HesaiLidarClient.LidarCallback` | src/main_ros2.cc:208-279 | the callback for each publish type: clouds go out for points and both, raw scans for raw and both; an exception of the serializer leaves out the raw scan |
| `CloudPublisher.HesaiLidarClient.PublishNext` | src/main_ros2.cc:189-205 | one turn of the publishing loop: what goes out and which counter moves |
| `CloudPublisher.CallsBalance` | src/main_ros2.cc:208-279 | each call is accounted for once (empty, regressed, handed over or thrown out) and the guard decides over non-empty clouds alone |
| `CloudPublisher.TooLongIff` | src/compact_pointcloud2.h:86-89 | the callback's length error is the serializer's own verdict on a one-row cloud |
| `CloudPublisher.MessageStamp` | src/main_ros2.cc:243-246 | the message stamp is the cloud stamp, lower by less than a nanosecond |
| `CloudPublisher.MessageStandsForCloud` | src/main_ros2.cc:234-246 | a cloud's message has exactly its points, and its stamp rounded down to nanoseconds |
| `PointCloud2.CopyBytes` | src/compact_pointcloud2.h:111 | memcpy: the bytes land at their place and nowhere else |
| `PointCloud2.MakeCompactPointCloud2` | src/compact_pointcloud2.h:66-115 | the serializer, with both length errors and the dimension normalization |
| `PointCloud2.SizesAgree` | src/compact_pointcloud2.h:80-102 | width*height = N, row_step*height = data length = 26*N |
| `PointCloud2.FieldsReadBack` | src/compact_pointcloud2.h:91-112 | reading the declared offsets in the declared byte order returns every field of every point bit for bit |
| `PointCloud2.NamedFieldsReadBack` | src/compact_pointcloud2.h:76-112 | a subscriber that looks up x, y, z, intensity, timestamp or ring by name finds it declared once and reads that field of that point; frame, density and byte order are kept |
| `PointCloud2.SerializedWhen` | src/compact_pointcloud2.h:71-89 | exactly when a cloud is serialized, and its dimensions: the declared ones if they fit its points, else one row |
| `PointCloud2.BufferedCloudsSerialize` | src/compact_pointcloud2.h:71-89 | no cloud the point buffer can hold is too large |
| `Pipeline.PointsAreConserved` | src/HesaiLidar_General_SDK/src/PandarGeneralRaw/src/pandarGeneral_internal.cc:792-1107 | three threads, all interleavings: clouds (as batches) plus buffer equal, in order, the points of the accepted packets up to the block reached |
| `Pipeline.AcceptedComeFromOffered` | src/HesaiLidar_General_SDK/src/PandarGeneralRaw/src/pandarGeneral_internal.cc:804-1125 | accepted packets are a subsequence of those offered, none used twice |
| `Pipeline.PointTimesAreOrdered` | src/HesaiLidar_General_SDK/src/PandarGeneralRaw/src/pandarGeneral_internal.cc:812-828 | no point's reception time is more than 0.1 s below that of an earlier point |
| `Pipeline.CloudGuardNeverRejects` | src/main_ros2.cc:218-232 | within a session the cloud guard never rejects and no cloud is empty; the messages pushed are, one by one, the clouds emitted: their points, and their stamps rounded down |
| `Pipeline.CloudStampsFollowPacketsIff` | src/main_ros2.cc:218-232 | every run of the three threads: each cloud stamp is the time of the accepted packet the cloud begins in; the stamps are a subsequence of the accepted times if no two clouds in a row begin in one packet, and only then when the times differ; by packet position, exactly then |
| `Pipeline.OneCutStampsFollowPackets` | src/HesaiLidar_General_SDK/src/PandarGeneralRaw/src/pandarGeneral_internal.cc:1081-1088 | the sufficient condition on firing blocks, for every run |
| `Pipeline.SteadyStampsFollowPacketsIff` | src/HesaiLidar_General_SDK/src/PandarGeneralRaw/src/pandarGeneral_internal.cc:1081-1088 | steady turning, for every run: the first accepted packet is the only exception |
| `Pipeline.PublishedInOrder` | src/main_ros2.cc:186-206 | the point sequences published are a subsequence of the clouds emitted, and what a pop delivers has the points and the stamp of the newest one |
| `Pipeline.PoppedPacketIsRecent` | src/HesaiLidar_General_SDK/src/PandarGeneralRaw/src/pandarGeneral_internal.cc:804-810 | no stale replay: fewer than MaxDepth enqueued packets are newer than the popped one, and it is popped once |
| `Pipeline.PoppedPacketIsFresh` | src/HesaiLidar_General_SDK/src/PandarGeneralRaw/src/pandarGeneral_internal.h:282-283 | in time: with the driver's ring a popped packet is at most 399 times the largest rise of the stamps older than the newest enqueued, less than 0.08 s at 5,000 packets a second |
| `Pipeline.CloudCountersBalance` | src/main_ros2.cc:115-122 | after the destructor's joins: enqueued = published + failures + overwrites + at most one discarded |
| `Pipeline.CloudsOfSystemAreRevolutions` | src/HesaiLidar_General_SDK/src/PandarGeneralRaw/src/pandarGeneral_internal.cc:1069-1099 | for a steadily turning sensor the clouds of the whole system are the completed revolutions |
| `Pipeline.CloudsOfSystemAreRevolutionsIff` | src/HesaiLidar_General_SDK/src/PandarGeneralRaw/src/pandarGeneral_internal.cc:1069-1099 | for every run, both forms, unseen crossings included: exactly when the clouds are the completed non-empty revolutions |
| `Pipeline.JitterEmitsNothing` | src/HesaiLidar_General_SDK/src/PandarGeneralRaw/src/pandarGeneral_internal.cc:1077-1098 | two runs, one of which has looked at small backward steps more: the same clouds |
| `Pipeline.Xt16BufferNeverOverflows` | src/HesaiLidar_General_SDK/src/PandarGeneralRaw/src/pandarGeneral_internal.cc:2003-2004 | a PandarXT-16 in single return mode never overruns the point buffer |
| `Pipeline.SystemBufferNeverOverflows` | src/HesaiLidar_General_SDK/src/PandarGeneralRaw/src/pandarGeneral_internal.cc:2003-2004 | under the spacing hypotheses no state of any run overruns the point buffer |
| `Pipeline.NextPacketFits` | src/HesaiLidar_General_SDK/src/PandarGeneralRaw/src/pandarGeneral_internal.cc:2003-2004 | under the same hypotheses up to the packet's last block, the builder's condition on an accepted packet holds |
| `Pipeline.ScansRecordAccepted` | src/HesaiLidar_General_SDK/src/PandarGeneralRaw/src/pandarGeneral_internal.cc:1068-1088 | emitted scans without their correction packet, then the pending scan, are the accepted packets in order |
| `Pipeline.BlockStepsMakePacket` | src/HesaiLidar_General_SDK/src/PandarGeneralRaw/src/pandarGeneral_internal.cc:1069-1099 | the single block steps of the processing thread add up to handling the whole packet, as the builder's method does it |
| `Pipeline.WorkerNeverStuck` | src/HesaiLidar_General_SDK/src/PandarGeneralRaw/src/pandarGeneral_internal.cc:804-1107 | until it returns, the processing thread always has an enabled step, unless the serializer throws, which it does not while the flat buffer fits |
| `Pipeline.OthersNeverStuck` | src/HesaiLidar_General_SDK/src/PandarGeneralRaw/src/pandarGeneral_internal.cc:1109-1125 | the receiving thread can always begin or go on with a push; the publishing thread, until it has returned, has a step or nothing to do |
| `CloudStamps.StampsFollowPoints` | src/HesaiLidar_General_SDK/src/PandarGeneralRaw/src/pandarGeneral_internal.cc:2036 | cloud stamps are a subsequence of point stamps, in both buffer forms; which packets they come from is the matter of CloudOrigins |
| `CloudOrigins.CloudsBeginInBlocks` | src/HesaiLidar_General_SDK/src/PandarGeneralRaw/src/pandarGeneral_internal.cc:1069-1099 | the blocks in which the clouds begin, read off azimuths, times and leading points alone, are increasing |
| `CloudOrigins.StampsByPacket` | src/HesaiLidar_General_SDK/src/PandarGeneralRaw/src/pandarGeneral_internal.cc:2036 | each cloud is stamped with the time of the packet it begins in, and these packets never go back |
| `CloudOrigins.StampsFollowPacketsIff` | src/HesaiLidar_General_SDK/src/PandarGeneralRaw/src/pandarGeneral_internal.cc:2036 | cloud stamps are a subsequence of the packets' times if no two clouds in a row begin in one packet, and only then when the times differ; by packet position, exactly then |
| `CloudOrigins.OneCutBeginsApart` | src/HesaiLidar_General_SDK/src/PandarGeneralRaw/src/pandarGeneral_internal.cc:1081-1088 | they begin apart if firing blocks bring leading points, no packet fires twice, and the packet of the first leading point does not fire behind it |
| `SteadyOrigins.SteadyCloudsApartIff` | src/HesaiLidar_General_SDK/src/PandarGeneralRaw/src/pandarGeneral_internal.cc:1081-1088 | steady turning: two clouds begin in one packet if and only if the first packet crosses the start angle and a revolution follows |
| `SteadyOrigins.TwoCloudsBeginInOnePacket` | src/HesaiLidar_General_SDK/src/PandarGeneralRaw/src/pandarGeneral_internal.cc:2036 | two accepted packets of a steadily turning sensor on which the cloud stamps are no subsequence of the packets' times |
| `SteadyOrigins.TurningPacketsExist` | src/HesaiLidar_General_SDK/src/PandarGeneralRaw/src/pandarGeneral_internal.cc:1487-1576 | such packets exist, as bytes |
| `CloudStamps.PointTimesNeverRegress` | src/HesaiLidar_General_SDK/src/PandarGeneralRaw/src/pandarGeneral_internal.cc:1975-1977 | points inherit the order of their packets' reception times |
| `CorrectionText.AppendRows` | src/HesaiLidar_General_SDK/src/PandarGeneralRaw/src/pandarGeneral_internal.cc:2146-2148 | the printing loop writes the rows in order |
| `CorrectionText.SaveCorrectionFile` | src/HesaiLidar_General_SDK/src/PandarGeneralRaw/src/pandarGeneral_internal.cc:2142-2162 | the printed table in its 8-byte frame, with the text length as size |
| `CorrectionText.StoreLine` | src/HesaiLidar_General_SDK/src/PandarGeneralRaw/src/pandarGeneral_internal.cc:660-672 | a row is stored under its id, unless the id is not the line's number |
| `CorrectionText.LoadLine` | src/HesaiLidar_General_SDK/src/PandarGeneralRaw/src/pandarGeneral_internal.cc:651-673 | one turn of the reading loop: a line is counted before its id is checked |
| `CorrectionText.FieldsSeenAgain` | src/HesaiLidar_General_SDK/src/PandarGeneralRaw/src/pandarGeneral_internal.cc:655-668 | a field that a line lacks repeats the one before it; a missing id counts as 0 |
| `CorrectionText.SignedRoundTrip` | src/HesaiLidar_General_SDK/src/PandarGeneralRaw/src/pandarGeneral_internal.cc:663-668 | an id is read up to the first character that is no digit, with either sign |
| `CorrectionText.LoadCorrectionFile` | src/HesaiLidar_General_SDK/src/PandarGeneralRaw/src/pandarGeneral_internal.cc:637-688 | the rows of the text, a miscounted last row included |
| `CorrectionText.CopyRows` | src/HesaiLidar_General_SDK/src/PandarGeneralRaw/src/pandarGeneral_internal.cc:676-682 | the counted rows are copied out |
| `CorrectionText.NumberRoundTrip` | src/HesaiLidar_General_SDK/src/PandarGeneralRaw/src/pandarGeneral_internal.cc:666-668 | a printed angle reads back as exactly its value |
| `CorrectionText.FrameRoundTrip` | src/HesaiLidar_General_SDK/src/PandarGeneralRaw/src/pandarGeneral_internal.cc:2053-2059 | unframing gives the text back if and only if the two lengths agree |
| `CorrectionText.CorrectionRoundTrip` | src/HesaiLidar_General_SDK/src/PandarGeneralRaw/src/pandarGeneral_internal.cc:2142-2162 | printing, framing, unframing and parsing restore every row of a table of at most 64 rows below 1000 degrees exactly |
| `CorrectionText.TableIsShort` | src/HesaiLidar_General_SDK/src/PandarGeneralRaw/src/pandarGeneral_internal.cc:2149 | the text of up to 64 printable rows fits the 4-byte length |
| `ScanReplay.ScanReplayer.constructor` | src/HesaiLidar_General_SDK/src/PandarGeneralRaw/src/pandarGeneral_internal.cc:183 | no correction loaded |
| `ScanReplay.ScanReplayer.Load` | src/HesaiLidar_General_SDK/src/PandarGeneralRaw/src/pandarGeneral_internal.cc:674-682 | loaded rows replace the leading rows of the table |
| `ScanReplay.ScanReplayer.LoadCorrection` | src/HesaiLidar_General_SDK/src/PandarGeneralRaw/src/pandarGeneral_internal.cc:2050-2101 | own text if its length matches, else the configured file; either way done once |
| `ScanReplay.ScanReplayer.PushScanPacket` | src/HesaiLidar_General_SDK/src/PandarGeneralRaw/src/pandarGeneral_internal.cc:2048-2112 | the whole scan in order: data packets offered, correction packets handled |
| `ScanReplay.CorrectionCarriesTable` | src/HesaiLidar_General_SDK/src/PandarGeneralRaw/src/pandarGeneral_internal.cc:2142-2162 | the correction packet of a scan carries exactly the table it was printed from |
| `ScanReplay.ReplayOffersRecorded` | src/HesaiLidar_General_SDK/src/PandarGeneralRaw/src/pandarGeneral_internal.cc:2048-2112 | replaying scans offers exactly their data packets, byte for byte, and restores the recorded table once |
| `ScanReplay.CorrectionTextChosen` | src/HesaiLidar_General_SDK/src/PandarGeneralRaw/src/pandarGeneral_internal.cc:2050-2101 | the first correction packet loads its own text if that has the announced length, else the configured file; rows behind the loaded ones stay; later ones are ignored |
| `ReplayedRuns.ReplayOfRun` | src/HesaiLidar_General_SDK/src/PandarGeneralRaw/src/pandarGeneral_internal.cc:2048-2112 | for any run: its emitted scans replay to the accepted packets from the first on |
| `ReplayedRuns.OfferIsReplayed` | src/HesaiLidar_General_SDK/src/PandarGeneralRaw/src/pandarGeneral_internal.cc:2105-2109 | a replayed stamp is lower by less than a nanosecond, the bytes are the same |
| `ReplayedRuns.ReplayIsAcceptedIff` | src/HesaiLidar_General_SDK/src/PandarGeneralRaw/src/pandarGeneral_internal.cc:812-1056 | fresh checks take a whole replay again if and only if each packet's number is ahead of, or its rounded stamp 2 s after, the one before it |
| `ReplayedRuns.ReplayIsAccepted` | src/HesaiLidar_General_SDK/src/PandarGeneralRaw/src/pandarGeneral_internal.cc:812-1056 | they do when the restarts of the recording keep their gap: rounding to nanoseconds never costs a packet |
| `ReplayedRuns.AscendingRestartsKeepTheirGap` | src/HesaiLidar_General_SDK/src/PandarGeneralRaw/src/packet_defenses.h:90-100 | ascending stamps meet that condition |
| `ReplayedClouds.ReplayGivesSameClouds` | src/HesaiLidar_General_SDK/src/PandarGeneralRaw/src/pandarGeneral_internal.cc:1068-1099 | replayed packets are cut into the same clouds, point for point, stamps rounded down |
| `ReplayedPipeline.ReplayedRunGivesItsClouds` | src/HesaiLidar_General_SDK/src/PandarGeneralRaw/src/pandarGeneral_internal.cc:2048-2112 | any run up to a point between packets: what its scans offer is accepted whole by fresh checks and cut into the clouds of the run, stamps rounded down |
| `Sessions.PacketIntake.constructor` | src/HesaiLidar_General_SDK/src/PandarGeneralRaw/src/pandarGeneral_internal.cc:698-709 | empty queue of 36,000 slots with a backlog of 400, zero counters |
| `Sessions.PacketIntake.PushLiDARData` | src/HesaiLidar_General_SDK/src/PandarGeneralRaw/src/pandarGeneral_internal.cc:1109-1125 | one offered packet is enqueued below 400 queued, else dropped and counted; the maximum depth is kept |
| `Sessions.PacketIntake.TakePacket` | src/HesaiLidar_General_SDK/src/PandarGeneralRaw/src/pandarGeneral_internal.cc:804-810 | the oldest packet, counted as processed |
| `Sessions.PacketIntake.ResetQueue` | src/HesaiLidar_General_SDK/src/PandarGeneralRaw/src/pandarGeneral_internal.cc:743-745 | what is still queued is discarded |
| `Sessions.StalledBacklog` | src/HesaiLidar_General_SDK/src/PandarGeneralRaw/src/pandarGeneral_internal.cc:1109-1125 | while nothing is taken, an empty queue takes the first 400 packets offered and drops every later one, the 401st first |
| `Sessions.SessionCountersBalance` | src/HesaiLidar_General_SDK/src/PandarGeneralRaw/src/pandarGeneral_internal.cc:698-748 | any number of sessions, two threads: offered = enqueued + drops, enqueued = processed + queued + discarded, and the maximum depth is the largest one a completed push reported, within the limit |
| `Sessions.ReportedDepthCoversTrueDepth` | src/HesaiLidar_General_SDK/src/PandarGeneralRaw/src/pandarGeneral_internal.cc:1120-1123 | the reported maximum is at least every true depth a push leads to, however stale its load |
| `Sessions.SessionsDoNotLeak` | src/HesaiLidar_General_SDK/src/PandarGeneralRaw/src/pandarGeneral_internal.cc:698-709 | what is popped in a session was offered in that session |
| `Sessions.SessionsMayFollow` | src/HesaiLidar_General_SDK/src/PandarGeneralRaw/src/pandarGeneral_internal.cc:698-748 | stopping and starting are always possible, and a start begins with an empty queue and the counters as they were |

## Left out

- Sockets, polling, capture files, TCP commands, ROS publishers, QoS, parameters, logging and launch files: input and output around the pipeline. The environment is an arbitrary stream of packets.
- The branches for Pandar40P, L64, L20 and QT packets, which are near copies of the XT branch without its layout and sequence checks: a packet of another size than the configured XT model's is dropped here.
- Coordinates, intensity scaling, trigonometric tables and coordinate correction: a point carries its packet, block, ring, stamp, azimuth and distance, from which they follow. Float rounding is not modelled.
- Timestamp modes other than `realtime`, the time-zone setup and the conversion of the UTC fields.
- Transform lookup: the early returns of the processing thread when a target frame is missing.
- CloudPublisher.MessageStamp: not for negative cloud stamps, whose conversion to unsigned nanoseconds the driver does not define.
- CloudPublisher.MessageStandsForCloud: like `Pipeline.CloudGuardNeverRejects` and `Pipeline.PublishedInOrder`, says nothing of the two stamp fields of a negative cloud stamp, for the same reason; its points are always the cloud's.
- CloudPublisher.HesaiLidarClient.EnqueueCloud: converts to the compact layout only; so does `LidarCallback`.
- CloudPublisher.HesaiLidarClient.constructor: the checks of the node's parameters and the start of the publishing thread.
- PacketProcessor.PacketProcessor.Check: drops packets of the other sensor models, which the driver hands to their own branches.
- PacketProcessor.PacketProcessor.HandlePacket: requires that an admitted packet's blocks fit the point buffer, as `ProcessXtPacket` does.
- Negative receive sizes and packets beyond the receive buffer; stamps beyond 32-bit seconds; the signedness of `char` for the distance unit (a natural number here); overflow of the 64-bit counters.
- `approximate_size` read from a third thread, durations and their averages: diagnostics only.
- Reuse of the cloud object by `EmitBackMessege`, and sharing of the scan object with its subscribers: here each cloud and each scan is a value.
- XtFrames.XtFrameBuilder.ProcessXtPacket: requires, like the two methods of its loop, that the blocks fit the point buffer, because the driver does not check it.
- CorrectionText.CorrectionRoundTrip: angles are whole thousandths of a degree; the stream prints six significant digits, so this is the driver's text for magnitudes below 1000 degrees.
- CorrectionText.LoadCorrectionFile: reads signed decimal numbers without exponents or leading white space, and requires at most 64 counted rows, because the driver's arrays end there; a value the driver leaves uninitialised is None.
- ScanReplay.ScanReplayer.PushScanPacket: requires that each packet's bytes cover its size field and that loaded texts have at most 64 rows, which the driver relies on without checking; the replayed text is exactly `size` bytes, although the driver builds it from an unterminated buffer.
- The legacy PCL layout of published clouds: a library conversion.
- Sessions.SessionCountersBalance: the discarded packets are counted when a reset happens; which packets they were is only told by the queue contents.
- A restart while the cloud guard keeps its state: the guard belongs to the node and is not reset by a start, so `Pipeline.CloudGuardNeverRejects` is about one session.
