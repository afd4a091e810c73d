/**
 The packet queue over any number of Start / Stop sessions: the driver's queue
 object with its counters, then its two threads with the start and stop protocol
 around them.
 */
module Sessions {
  import opened Common
  import opened SpscQueue
  import SpscThreads

  const RING_CAPACITY := 36_000
  const MAX_PACKET_BACKLOG := 400

  const DRIVER_RING := SpscThreads.Config(RING_CAPACITY, MAX_PACKET_BACKLOG)

  // ------------------------------------------------------ the queue object

  /** What the receiving side knows: the queue, and what became of the packets offered to it. */
  datatype Intake<T> = Intake(queue: seq<T>, enqueued: nat, drops: nat, maxDepth: nat)

  function Enqueue<T>(s: Intake<T>, packet: T): Intake<T> {
    if |s.queue| >= MAX_PACKET_BACKLOG then s.(drops := s.drops + 1)
    else
      var queue := s.queue + [packet];
      Intake(queue, s.enqueued + 1, s.drops, if |queue| > s.maxDepth then |queue| else s.maxDepth)
  }

  /** Packets offered one after the other while nothing is taken. */
  function EnqueueAll<T>(s: Intake<T>, packets: seq<T>): Intake<T> {
    if packets == [] then s else Enqueue(EnqueueAll(s, Front(packets)), Last(packets))
  }

  /**
   While the processing thread stalls, a queue of fewer than 400 packets takes
   the oldest ones offered up to 400 and drops every later one; the 401st packet
   offered to an empty queue is the first one dropped.
   */
  lemma {:induction false} StalledBacklog<T>(s: Intake<T>, packets: seq<T>)
    requires |s.queue| <= 400
    ensures var free := 400 - |s.queue|;
            var taken := if |packets| <= free then |packets| else free;
            var next := EnqueueAll(s, packets);
            && next.queue == s.queue + packets[..taken]
            && next.enqueued == s.enqueued + taken && next.drops == s.drops + (|packets| - taken)
            && next.maxDepth == if taken > 0 && |next.queue| > s.maxDepth then |next.queue| else s.maxDepth
  {
    if packets == [] {
      assert s.queue + packets[..0] == s.queue;
    } else {
      StalledBacklog(s, Front(packets));
      var free := 400 - |s.queue|;
      if |packets| <= free {
        assert packets[..|packets|] == Front(packets)[..|packets| - 1] + [Last(packets)];
      } else {
        assert packets[..free] == Front(packets)[..free];
      }
    }
  }

  class PacketIntake<T(0)> {
    const packetsBuffer: BoundedSpscQueue<T>
    var enqueuedPackets: nat
    var queueOverloadDrops: nat
    var processedPackets: nat
    var maxQueueDepthObserved: nat
    ghost var offered: nat
    ghost var discarded: nat

    ghost predicate Valid()
      reads this, packetsBuffer, packetsBuffer.storage
    {
      && packetsBuffer.Valid() && packetsBuffer.maxDepth == MAX_PACKET_BACKLOG
      && offered == enqueuedPackets + queueOverloadDrops
      && enqueuedPackets == processedPackets + |packetsBuffer.Contents()| + discarded
      && |packetsBuffer.Contents()| <= maxQueueDepthObserved <= MAX_PACKET_BACKLOG
    }

    ghost function State(): Intake<T>
      requires Valid()
      reads this, packetsBuffer, packetsBuffer.storage
    {
      Intake(packetsBuffer.Contents(), enqueuedPackets, queueOverloadDrops, maxQueueDepthObserved)
    }

    constructor ()
      ensures Valid() && fresh(packetsBuffer) && fresh(packetsBuffer.storage)
      ensures packetsBuffer.capacity == 36_000 && packetsBuffer.maxDepth == 400
      ensures State() == Intake([], 0, 0, 0) && offered == 0
    {
      packetsBuffer := new BoundedSpscQueue(RING_CAPACITY, MAX_PACKET_BACKLOG);
      enqueuedPackets, queueOverloadDrops, processedPackets, maxQueueDepthObserved := 0, 0, 0, 0;
      offered, discarded := 0, 0;
    }

    method PushLiDARData(packet: T)
      requires Valid()
      modifies this, packetsBuffer, packetsBuffer.storage
      ensures Valid() && offered == old(offered) + 1
      ensures State() == Enqueue(old(State()), packet)
      ensures |old(packetsBuffer.Contents())| < 400 ==>
                packetsBuffer.Contents() == old(packetsBuffer.Contents()) + [packet] && queueOverloadDrops == old(queueOverloadDrops)
      ensures |old(packetsBuffer.Contents())| == 400 ==>
                packetsBuffer.Contents() == old(packetsBuffer.Contents()) && queueOverloadDrops == old(queueOverloadDrops) + 1
      ensures processedPackets == old(processedPackets) && discarded == old(discarded)
    {
      var ok, queueDepth := packetsBuffer.TryPush(packet);
      offered := offered + 1;
      if !ok {
        queueOverloadDrops := queueOverloadDrops + 1;
      } else {
        enqueuedPackets := enqueuedPackets + 1;
        if queueDepth > maxQueueDepthObserved {
          maxQueueDepthObserved := queueDepth;
        }
      }
    }

    method TakePacket() returns (packet: Option<T>)
      requires Valid()
      modifies this`processedPackets, packetsBuffer
      ensures Valid()
      ensures old(packetsBuffer.Contents()) == (if packet.Some? then [packet.value] else []) + packetsBuffer.Contents()
      ensures packet.None? <==> old(packetsBuffer.Contents()) == []
      ensures processedPackets == old(processedPackets) + (if packet.Some? then 1 else 0)
    {
      packet := packetsBuffer.TryPop();
      if packet.Some? {
        processedPackets := processedPackets + 1;
      }
    }

    /** What starting and stopping both do to the queue, with no thread left in it. */
    method ResetQueue()
      requires Valid()
      modifies this`discarded, packetsBuffer
      ensures Valid() && packetsBuffer.Contents() == []
      ensures discarded == old(discarded) + |old(packetsBuffer.Contents())|
    {
      discarded := discarded + |packetsBuffer.Contents()|;
      packetsBuffer.Reset();
    }
  }

  // ------------------------------------------- two threads, many sessions

  /** Whether each thread exists; `enabled` is what they read at the head of their loops. */
  datatype Driver<T> = Driver(
    ring: SpscThreads.Ring<T>,
    enabled: bool, receiving: bool, processing: bool,
    offeredNow: seq<T>,      // packets offered in this session
    offered: nat, enqueued: nat, drops: nat, processed: nat, discarded: nat,
    maxObserved: nat,
    reported: seq<nat>,      // the depths that completed pushes reported
    maxTrue: nat)            // the largest true depth a push has led to

  function Init<T>(base: seq<T>): Driver<T> {
    Driver(SpscThreads.Init(base), false, false, false, [], 0, 0, 0, 0, 0, 0, [], 0)
  }

  datatype Step<T> =
    | Receive(push: SpscThreads.Step<T>)
    | Process(pop: SpscThreads.Step<T>)
    | Disable
    | ReceiverReturns
    | ProcessorReturns
    | Reset(storage: seq<T>)  // the slots keep whatever they hold
    | Start(storage: seq<T>)

  ghost predicate Enabled<T>(c: SpscThreads.Config, d: Driver<T>, step: Step<T>) {
    match step
    case Receive(t) => d.receiving && SpscThreads.IsPush(t) && SpscThreads.Enabled(c, d.ring, t)
    case Process(t) => d.processing && !SpscThreads.IsPush(t) && SpscThreads.Enabled(c, d.ring, t)
    case Disable => d.enabled
    case ReceiverReturns => d.receiving && !d.enabled && d.ring.producer.PIdle?
    case ProcessorReturns => d.processing && !d.enabled && d.ring.consumer.CIdle?
    case Reset(storage) => !d.enabled && !d.receiving && !d.processing && |storage| == c.capacity
    case Start(storage) => !d.enabled && !d.receiving && !d.processing && |storage| == c.capacity
  }

  /** The true backlog. */
  ghost function Queued<T>(ring: SpscThreads.Ring<T>): nat {
    var depth := SpscThreads.WriteCount(ring) - SpscThreads.ReadCount(ring);
    if depth < 0 then 0 else depth
  }

  ghost function Discard<T>(d: Driver<T>, storage: seq<T>): Driver<T> {
    d.(ring := SpscThreads.Init(storage), discarded := d.discarded + Queued(d.ring), offeredNow := [])
  }

  ghost function AfterPush<T>(c: SpscThreads.Config, d: Driver<T>, t: SpscThreads.Step<T>): Driver<T>
    requires SpscThreads.Enabled(c, d.ring, t)
  {
    var next := d.(ring := SpscThreads.Apply(c, d.ring, t), offeredNow := d.offeredNow + SpscThreads.OfferedBy(t));
    if t.PushBegin? then next.(offered := d.offered + 1)
    else if t.PushRefuse? then next.(drops := d.drops + 1)
    else if t.PushPublish? then
      next.(enqueued := d.enqueued + 1, maxObserved := SpscThreads.Max(d.maxObserved, d.ring.producer.size),
            reported := d.reported + [d.ring.producer.size], maxTrue := SpscThreads.Max(d.maxTrue, Queued(next.ring)))
    else next
  }

  ghost function Apply<T>(c: SpscThreads.Config, d: Driver<T>, step: Step<T>): Driver<T>
    requires Enabled(c, d, step)
  {
    match step
    case Receive(t) => AfterPush(c, d, t)
    case Process(t) =>
      d.(ring := SpscThreads.Apply(c, d.ring, t), processed := d.processed + (if t.PopPublish? then 1 else 0))
    case Disable => d.(enabled := false)
    case ReceiverReturns => d.(receiving := false)
    case ProcessorReturns => d.(processing := false)
    case Reset(storage) => Discard(d, storage)
    case Start(storage) =>
      Discard(d, storage).(enabled := true, receiving := true, processing := true)
  }

  ghost predicate Run<T>(c: SpscThreads.Config, base: seq<T>, steps: seq<Step<T>>)
    decreases |steps|, 0
  {
    steps == [] || (Run(c, base, Front(steps)) && Enabled(c, After(c, base, Front(steps)), Last(steps)))
  }

  ghost function After<T>(c: SpscThreads.Config, base: seq<T>, steps: seq<Step<T>>): Driver<T>
    requires Run(c, base, steps)
    decreases |steps|, 1
  {
    if steps == [] then Init(base) else Apply(c, After(c, base, Front(steps)), Last(steps))
  }

  /** `m` is the largest of them, or zero. */
  ghost predicate IsLargest(m: nat, depths: seq<nat>) {
    (if depths == [] then m == 0 else m in depths) && forall i :: 0 <= i < |depths| ==> depths[i] <= m
  }

  ghost predicate Counted<T>(c: SpscThreads.Config, d: Driver<T>) {
    && d.offered == d.enqueued + d.drops + |SpscThreads.BeingPushed(d.ring.producer)|
    && d.enqueued == d.processed + Queued(d.ring) + d.discarded
    && d.maxTrue <= d.maxObserved <= c.maxDepth
    && |d.reported| == d.enqueued && IsLargest(d.maxObserved, d.reported)
  }

  ghost predicate Inv<T>(c: SpscThreads.Config, d: Driver<T>) {
    && SpscThreads.Inv(c, d.ring) && Counted(c, d)
    && SpscThreads.FromOffered(d.ring, d.offeredNow)
    && (!d.receiving ==> d.ring.producer.PIdle?) && (!d.processing ==> d.ring.consumer.CIdle?)
  }

  /** The depth a push reports never understates the true one, however stale its load. */
  lemma PushCounted<T>(c: SpscThreads.Config, d: Driver<T>, t: SpscThreads.Step<T>)
    requires Inv(c, d) && Enabled(c, d, Receive(t))
    ensures Counted(c, AfterPush(c, d, t))
  {
    SpscThreads.StepInv(c, d.ring, t);
    if t.PushPublish? {
      LargestSnoc(d.maxObserved, d.reported, d.ring.producer.size);
    }
  }

  lemma LargestSnoc(m: nat, depths: seq<nat>, depth: nat)
    requires IsLargest(m, depths)
    ensures IsLargest(SpscThreads.Max(m, depth), depths + [depth])
  {
    assert depth in depths + [depth];
    assert m in depths ==> m in depths + [depth];
  }

  lemma ProcessKeepsInv<T>(c: SpscThreads.Config, d: Driver<T>, t: SpscThreads.Step<T>)
    requires Inv(c, d) && Enabled(c, d, Process(t))
    ensures Inv(c, Apply(c, d, Process(t)))
  {
    SpscThreads.StepInv(c, d.ring, t);
    SpscThreads.StepFromOffered(c, d.ring, t, d.offeredNow);
    assert d.offeredNow + [] == d.offeredNow;
  }

  lemma DiscardKeepsInv<T>(c: SpscThreads.Config, d: Driver<T>, storage: seq<T>)
    requires Inv(c, d) && !d.receiving && !d.processing && |storage| == c.capacity
    ensures Inv(c, Discard(d, storage))
  {
    SpscThreads.InitInv(c, storage);
    SpscThreads.NothingOffered(storage);
  }

  lemma StepInv<T>(c: SpscThreads.Config, d: Driver<T>, step: Step<T>)
    requires Inv(c, d) && Enabled(c, d, step)
    ensures Inv(c, Apply(c, d, step))
  {
    match step
    case Receive(t) =>
      SpscThreads.StepInv(c, d.ring, t);
      SpscThreads.StepFromOffered(c, d.ring, t, d.offeredNow);
      PushCounted(c, d, t);
    case Process(t) => ProcessKeepsInv(c, d, t);
    case Reset(storage) => DiscardKeepsInv(c, d, storage);
    case Start(storage) => DiscardKeepsInv(c, d, storage);
    case _ =>
  }

  lemma {:induction false} RunInv<T>(c: SpscThreads.Config, base: seq<T>, steps: seq<Step<T>>)
    requires c.Valid() && |base| == c.capacity && Run(c, base, steps)
    ensures Inv(c, After(c, base, steps))
  {
    if steps == [] {
      SpscThreads.InitInv(c, base);
      SpscThreads.NothingOffered(base);
    } else {
      RunInv(c, base, Front(steps));
      StepInv(c, After(c, base, Front(steps)), Last(steps));
    }
  }

  /**
   Over any number of sessions: offered packets were enqueued or dropped on
   overload (but for one being pushed), enqueued ones were processed, are queued
   or were discarded by a reset, and the maximum depth is the largest one that a
   completed push reported, within the backlog limit and at least every true
   depth a push has led to.
   */
  lemma SessionCountersBalance<T>(c: SpscThreads.Config, base: seq<T>, steps: seq<Step<T>>)
    requires c.Valid() && |base| == c.capacity && Run(c, base, steps)
    ensures var d := After(c, base, steps);
            && d.offered == d.enqueued + d.drops + (if d.ring.producer.PIdle? then 0 else 1)
            && d.enqueued == d.processed + (|SpscThreads.Pushed(d.ring)| - |d.ring.popped|) + d.discarded
            && |d.reported| == d.enqueued && IsLargest(d.maxObserved, d.reported)
            && d.maxTrue <= d.maxObserved <= c.maxDepth
  {
    RunInv(c, base, steps);
  }

  /** A push just completed has not led to a depth beyond the reported maximum. */
  lemma ReportedDepthCoversTrueDepth<T>(c: SpscThreads.Config, base: seq<T>, steps: seq<Step<T>>)
    requires c.Valid() && |base| == c.capacity && Run(c, base, steps)
    requires Enabled(c, After(c, base, steps), Receive(SpscThreads.PushPublish))
    ensures var next := Apply(c, After(c, base, steps), Receive(SpscThreads.PushPublish));
            |SpscThreads.Pushed(next.ring)| - |next.ring.popped| <= next.maxObserved
  {
    RunInv(c, base, steps);
    StepInv(c, After(c, base, steps), Receive(SpscThreads.PushPublish));
  }

  /**
   Stopping and starting are always possible: a running driver may be disabled,
   each thread then returns between two operations and can always get there, and
   once both are gone a start begins with an empty queue and keeps the counters,
   but for what was still queued.
   */
  lemma SessionsMayFollow<T>(c: SpscThreads.Config, base: seq<T>, steps: seq<Step<T>>, storage: seq<T>)
    requires c.Valid() && |base| == |storage| == c.capacity && Run(c, base, steps)
    ensures var d := After(c, base, steps);
            && (d.enabled ==> Enabled(c, d, Disable))
            && (d.receiving && !d.ring.producer.PIdle? ==> exists t :: Enabled(c, d, Receive(t)))
            && (d.processing && !d.ring.consumer.CIdle? ==> exists t :: Enabled(c, d, Process(t)))
            && (!d.enabled && d.receiving && d.ring.producer.PIdle? ==> Enabled(c, d, ReceiverReturns))
            && (!d.enabled && d.processing && d.ring.consumer.CIdle? ==> Enabled(c, d, ProcessorReturns))
            && (!d.enabled && !d.receiving && !d.processing ==>
                  && Enabled(c, d, Start(storage))
                  && var next := Apply(c, d, Start(storage));
                     && next.enabled && next.receiving && next.processing
                     && SpscThreads.Pushed(next.ring) == [] == next.ring.popped && next.offeredNow == []
                     && next.offered == d.offered && next.drops == d.drops && next.processed == d.processed
                     && next.discarded == d.discarded + |SpscThreads.Pushed(d.ring)| - |d.ring.popped|)
  {
    RunInv(c, base, steps);
    var d := After(c, base, steps);
    ThreadsGoOn(c, d);
    if !d.enabled && !d.receiving && !d.processing {
      StartIsClean(c, d, storage);
    }
  }

  lemma ThreadsGoOn<T>(c: SpscThreads.Config, d: Driver<T>)
    requires Inv(c, d)
    ensures d.receiving && !d.ring.producer.PIdle? ==> exists t :: Enabled(c, d, Receive(t))
    ensures d.processing && !d.ring.consumer.CIdle? ==> exists t :: Enabled(c, d, Process(t))
  {
    var r := d.ring;
    SpscThreads.ProducerNeverBlocked(c, r);
    SpscThreads.ConsumerNeverBlocked(c, r);
    if d.receiving {
      match r.producer
      case PIdle =>
      case PLoadedWrite(_, _) => assert Enabled(c, d, Receive(SpscThreads.PushLoadRead(r.seenRead)));
      case PLoadedRead(_, _, _) =>
        assert Enabled(c, d, Receive(SpscThreads.PushRefuse)) || Enabled(c, d, Receive(SpscThreads.PushWriteSlot));
      case PWrote(_, _, _) => assert Enabled(c, d, Receive(SpscThreads.PushPublish));
    }
    if d.processing {
      match r.consumer
      case CIdle =>
      case CLoadedRead(_) => assert Enabled(c, d, Process(SpscThreads.PopLoadWrite(r.seenWrite)));
      case CLoadedWrite(_, _) =>
        if !SpscThreads.Enabled(c, r, SpscThreads.PopRefuse) {
          var j: nat :| SpscThreads.Enabled(c, r, SpscThreads.PopReadSlot(Some(j)));
          assert Enabled(c, d, Process(SpscThreads.PopReadSlot(Some(j))));
        } else {
          assert Enabled(c, d, Process(SpscThreads.PopRefuse));
        }
      case CTook(_, _) => assert Enabled(c, d, Process(SpscThreads.PopPublish));
    }
  }

  lemma StartIsClean<T>(c: SpscThreads.Config, d: Driver<T>, storage: seq<T>)
    requires Inv(c, d) && !d.enabled && !d.receiving && !d.processing && |storage| == c.capacity
    ensures Enabled(c, d, Start(storage))
    ensures var next := Apply(c, d, Start(storage));
            && next.enabled && next.receiving && next.processing
            && SpscThreads.Pushed(next.ring) == [] == next.ring.popped && next.offeredNow == []
            && next.offered == d.offered && next.drops == d.drops && next.processed == d.processed
            && next.discarded == d.discarded + |SpscThreads.Pushed(d.ring)| - |d.ring.popped|
  {
  }

  /** What is popped in a session was offered in that session: nothing crosses a restart. */
  lemma SessionsDoNotLeak<T>(c: SpscThreads.Config, base: seq<T>, steps: seq<Step<T>>)
    requires c.Valid() && |base| == c.capacity && Run(c, base, steps)
    ensures var d := After(c, base, steps);
            d.ring.popped <= SpscThreads.Pushed(d.ring) && Subsequence(d.ring.popped, d.offeredNow)
  {
    RunInv(c, base, steps);
    var d := After(c, base, steps);
    SpscThreads.PushedFromOffered(d.ring, d.offeredNow);
    SubsequencePrefix(d.ring.popped, SpscThreads.Pushed(d.ring));
    SubsequenceTransitive(d.ring.popped, SpscThreads.Pushed(d.ring), d.offeredNow);
  }
}
