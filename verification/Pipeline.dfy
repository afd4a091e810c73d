/**
 The three threads together: receiving into the ring, processing packets block
 by block into clouds, and publishing through the mailbox. A step is one atomic
 access of one thread; work on thread-local state is joined to the access next
 to it. The state carries the history the results speak about.
 */
module Pipeline {
  import opened Common
  import opened XtPacket
  import opened PacketDefenses
  import opened FrameSplitter
  import opened Revolutions
  import opened XtFrames
  import opened FrameRuns
  import opened PacketProcessor
  import opened CloudPublisher
  import opened CloudStamps
  import opened CloudOrigins
  import opened SteadyOrigins
  import Mailbox
  import SpscThreads
  import Sessions

  datatype Config = Config(ring: SpscThreads.Config, setup: Setup, publishType: PublishType) {
    ghost predicate Valid() {
      ring.Valid() && setup.Valid() && (publishType == PublishPoints || publishType == PublishBoth)
    }
  }

  /** The processing thread: about to pop, with a popped packet, inside an accepted one, or returned. */
  datatype Worker = Polling | Holding(p: Packet) | Working(p: Packet, xt: XtData, next: nat) | Exited

  datatype System = System(
    ring: SpscThreads.Ring<Packet>,
    offered: seq<Packet>,          // packets the receiving thread tried to push
    worker: Worker,
    handled: seq<Packet>,          // popped packets that went through the checks
    filters: Filters,
    accepted: seq<Packet>,
    frame: FrameState,
    blocks: seq<Block>,            // the blocks looked at
    emissions: seq<Emission>,
    cloudGuard: GuardState,
    counters: CloudCounters,
    mail: Mailbox.Monitor<Message>)

  function Init(c: Config, base: seq<Packet>): System {
    System(SpscThreads.Init(base), [], Polling, [], FRESH_FILTERS, [], FrameState(Fresh(c.setup.structured), []), [], [],
           FRESH_GUARD, NO_CLOUDS, Mailbox.InitialMonitor())
  }

  datatype Step =
    | Receive(push: SpscThreads.Step<Packet>)
    | Poll(pop: SpscThreads.Step<Packet>)
    | Check
    | NextBlock
    | EndPacket
    | ExitWorker
    | StopMailbox                  // after the processing thread is joined
    | Publisher(wait: Mailbox.Step<Message>)

  /** The next block hands over no cloud on which the serializer throws: a run ends at one, as the process does. */
  ghost predicate Serializable(c: Config, s: System)
    requires s.worker.Working? && FrameOk(c.setup, s.frame) && Decoded(s.worker.p, s.worker.xt)
    requires s.worker.next < |s.worker.xt.blocks|
  {
    forall e :: e in OnBlock(c.setup, s.frame, s.worker.p, s.worker.xt, s.worker.next).1 ==> !TooLong(e.cloud)
  }

  ghost predicate Enabled(c: Config, s: System, step: Step) {
    match step
    case Receive(t) => SpscThreads.IsPush(t) && SpscThreads.Enabled(c.ring, s.ring, t)
    case Poll(t) => s.worker.Polling? && !SpscThreads.IsPush(t) && SpscThreads.Enabled(c.ring, s.ring, t)
    case Check => s.worker.Holding?
    case NextBlock =>
      && s.worker.Working? && FrameOk(c.setup, s.frame) && Decoded(s.worker.p, s.worker.xt)
      && s.worker.next < |s.worker.xt.blocks| && Serializable(c, s)
    case EndPacket => s.worker.Working? && s.worker.next == |s.worker.xt.blocks|
    case ExitWorker => s.worker.Polling? && s.ring.consumer.CIdle?
    case StopMailbox => s.worker.Exited?
    case Publisher(t) => !t.Push? && !t.Stop? && Mailbox.Enabled(s.mail, t)
  }

  function CheckPacket(c: Config, s: System, p: Packet): System {
    var (filters, xt) := Admit(c.setup.packetSize, s.filters, p);
    var next := s.(handled := s.handled + [p], filters := filters);
    if xt.None? then next.(worker := Polling)
    else next.(worker := Working(p, xt.value, 0), accepted := s.accepted + [p], frame := OnArrival(s.frame, p))
  }

  function ClientOf(s: System): ClientState {
    ClientState(s.cloudGuard, s.mail.slot, s.counters)
  }

  /** The cloud callback, whose one shared access is the push. */
  function CallBack(c: Config, s: System, e: Emission): System {
    var client := OnCloud(c.publishType, ClientOf(s), e.cloud, Finite(e.stamp)).0;
    var pushes := WantsPoints(c.publishType) && e.cloud != [] && !TooLong(e.cloud)
                  && GuardStep(TIMESTAMP_REGRESSION_TOLERANCE_SEC, s.cloudGuard, Finite(e.stamp)).1.Accepted();
    s.(emissions := s.emissions + [e], cloudGuard := client.guard, counters := client.counters,
       mail := if pushes then Mailbox.Apply(s.mail, Mailbox.Push(MessageOf(e.cloud, e.stamp))) else s.mail)
  }

  function AddBlock(c: Config, s: System, p: Packet, xt: XtData, b: nat): System
    requires FrameOk(c.setup, s.frame) && Decoded(p, xt) && b < |xt.blocks|
  {
    var (frame, now) := OnBlock(c.setup, s.frame, p, xt, b);
    var next := s.(worker := Working(p, xt, b + 1), frame := frame, blocks := s.blocks + [SensorBlock(p, xt, b)]);
    if now == [] then next else CallBack(c, next, now[0])
  }

  function CountPublish(counters: CloudCounters, t: Mailbox.Step<Message>): CloudCounters {
    if !t.Publish? then counters
    else if t.ok then counters.(published := counters.published + 1)
    else counters.(failures := counters.failures + 1)
  }

  ghost function Apply(c: Config, s: System, step: Step): System
    requires Enabled(c, s, step)
  {
    match step
    case Receive(t) => s.(ring := SpscThreads.Apply(c.ring, s.ring, t), offered := s.offered + SpscThreads.OfferedBy(t))
    case Poll(t) =>
      s.(ring := SpscThreads.Apply(c.ring, s.ring, t), worker := if t.PopPublish? then Holding(s.ring.consumer.value) else Polling)
    case Check => CheckPacket(c, s, s.worker.p)
    case NextBlock => AddBlock(c, s, s.worker.p, s.worker.xt, s.worker.next)
    case EndPacket => s.(worker := Polling)
    case ExitWorker => s.(worker := Exited)
    case StopMailbox => s.(mail := Mailbox.Apply(s.mail, Mailbox.Stop))
    case Publisher(t) => s.(mail := Mailbox.Apply(s.mail, t), counters := CountPublish(s.counters, t))
  }

  ghost predicate Run(c: Config, base: seq<Packet>, steps: seq<Step>)
    decreases |steps|, 0
  {
    steps == [] || (Run(c, base, Front(steps)) && Enabled(c, After(c, base, Front(steps)), Last(steps)))
  }

  ghost function After(c: Config, base: seq<Packet>, steps: seq<Step>): System
    requires Run(c, base, steps)
    decreases |steps|, 1
  {
    if steps == [] then Init(c, base) else Apply(c, After(c, base, Front(steps)), Last(steps))
  }

  // -------------------------------------------------- the receiving side

  function InHand(w: Worker): seq<Packet> {
    if w.Holding? then [w.p] else []
  }

  ghost predicate RingPart(c: Config, s: System) {
    && SpscThreads.Inv(c.ring, s.ring)
    && SpscThreads.FromOffered(s.ring, s.offered)
    && s.ring.popped == s.handled + InHand(s.worker)
  }

  lemma ReceiveKeepsRing(c: Config, s: System, t: SpscThreads.Step<Packet>)
    requires RingPart(c, s) && Enabled(c, s, Receive(t))
    ensures RingPart(c, Apply(c, s, Receive(t)))
  {
    SpscThreads.StepInv(c.ring, s.ring, t);
    SpscThreads.RingRefinesFifo(c.ring, s.ring, t);
    SpscThreads.StepFromOffered(c.ring, s.ring, t, s.offered);
  }

  lemma PollKeepsRing(c: Config, s: System, t: SpscThreads.Step<Packet>)
    requires RingPart(c, s) && Enabled(c, s, Poll(t))
    ensures RingPart(c, Apply(c, s, Poll(t)))
  {
    SpscThreads.StepInv(c.ring, s.ring, t);
    SpscThreads.RingRefinesFifo(c.ring, s.ring, t);
    SpscThreads.StepFromOffered(c.ring, s.ring, t, s.offered);
    assert s.offered + [] == s.offered && s.handled + [] == s.handled;
  }

  // ----------------------------------------------------------- the checks

  ghost predicate FilterPart(c: Config, s: System) {
    && s.filters == RunAdmit(c.setup.packetSize, s.handled).filters
    && s.accepted == RunAdmit(c.setup.packetSize, s.handled).accepted
    && (s.worker.Working? ==>
          && s.accepted != [] && Last(s.accepted) == s.worker.p
          && Layout(c.setup.packetSize, s.worker.p) == Some(s.worker.xt) && Decoded(s.worker.p, s.worker.xt)
          && s.worker.next <= |s.worker.xt.blocks|)
  }

  lemma CheckKeepsFilters(c: Config, s: System)
    requires FilterPart(c, s) && s.worker.Holding?
    ensures FilterPart(c, CheckPacket(c, s, s.worker.p))
  {
    AdmitSnoc(c.setup.packetSize, s.handled, s.worker.p);
    assert Last(s.accepted + [s.worker.p]) == s.worker.p;
  }

  // ------------------------------------------------------------ the frames

  ghost predicate FramePart(c: Config, s: System) {
    && c.setup.Valid()
    && FrameInv(c.setup, s.frame, s.emissions, s.blocks, Raws(s.accepted))
    && (s.worker.Working? ==>
          && s.accepted != [] && s.worker.p.stamp.Finite? && s.worker.next <= |s.worker.xt.blocks|
          && s.blocks == BlocksOf(c.setup.packetSize, Front(s.accepted)) + PacketBlocks(s.worker.p, s.worker.xt, s.worker.next))
    && (!s.worker.Working? ==> s.blocks == BlocksOf(c.setup.packetSize, s.accepted))
  }

  lemma CheckKeepsFrames(c: Config, s: System)
    requires FramePart(c, s) && s.worker.Holding?
    ensures FramePart(c, CheckPacket(c, s, s.worker.p))
  {
    var p := s.worker.p;
    var xt := Admit(c.setup.packetSize, s.filters, p).1;
    if xt.Some? {
      AcceptKeepsFrames(c, s, CheckPacket(c, s, p), p, xt.value);
    }
  }

  lemma AcceptKeepsFrames(c: Config, s: System, t: System, p: Packet, xt: XtData)
    requires FramePart(c, s) && s.worker.Holding? && p.stamp.Finite?
    requires t.worker == Working(p, xt, 0) && t.accepted == s.accepted + [p] && t.frame == OnArrival(s.frame, p)
    requires t.blocks == s.blocks && t.emissions == s.emissions
    ensures FramePart(c, t)
  {
    PacketArrives(c.setup, s.frame, s.emissions, s.blocks, Raws(s.accepted), p);
    AcceptedSnoc(s.accepted, p);
    assert s.blocks + [] == s.blocks;
  }

  lemma AcceptedSnoc(accepted: seq<Packet>, p: Packet)
    requires p.stamp.Finite?
    ensures Raws(accepted + [p]) == Raws(accepted) + [Raw(p)]
    ensures Front(accepted + [p]) == accepted && Last(accepted + [p]) == p
  {
  }

  lemma EndKeepsFrames(c: Config, s: System)
    requires FramePart(c, s) && FilterPart(c, s) && Enabled(c, s, EndPacket)
    ensures FramePart(c, s.(worker := Polling))
  {
  }

  /** What a block changes besides the client side. */
  ghost predicate BlockEffect(s: System, t: System, g: FrameState, now: seq<Emission>, block: Block) {
    && s.worker.Working? && t.worker == s.worker.(next := s.worker.next + 1)
    && t.filters == s.filters && t.handled == s.handled && t.accepted == s.accepted
    && t.ring == s.ring && t.offered == s.offered
    && t.frame == g && t.blocks == s.blocks + [block] && t.emissions == s.emissions + now
  }

  lemma BlockChanges(c: Config, s: System, p: Packet, xt: XtData, b: nat)
    requires s.worker == Working(p, xt, b) && FrameOk(c.setup, s.frame) && Decoded(p, xt) && b < |xt.blocks|
    requires |OnBlock(c.setup, s.frame, p, xt, b).1| <= 1
    ensures var (g, now) := OnBlock(c.setup, s.frame, p, xt, b);
            BlockEffect(s, AddBlock(c, s, p, xt, b), g, now, SensorBlock(p, xt, b))
  {
    var now := OnBlock(c.setup, s.frame, p, xt, b).1;
    if now == [] {
      assert s.emissions + now == s.emissions;
    } else {
      assert now == [now[0]];
    }
  }

  /** One block, seen from the processing thread. */
  lemma BlockKeepsFrames(c: Config, s: System, p: Packet, xt: XtData, b: nat)
    requires FramePart(c, s) && FilterPart(c, s) && s.worker == Working(p, xt, b)
    requires Decoded(p, xt) && b < |xt.blocks|
    ensures FramePart(c, AddBlock(c, s, p, xt, b)) && FilterPart(c, AddBlock(c, s, p, xt, b))
    ensures var (g, now) := OnBlock(c.setup, s.frame, p, xt, b);
            |now| <= 1 && BlockEffect(s, AddBlock(c, s, p, xt, b), g, now, SensorBlock(p, xt, b))
  {
    LasersFixedBySize(p, xt, c.setup.packetSize);
    BlockKeepsInv(c.setup, s.frame, s.emissions, s.blocks, Raws(s.accepted), p, xt, b);
    BlockChanges(c, s, p, xt, b);
    var (g, now) := OnBlock(c.setup, s.frame, p, xt, b);
    EffectKeepsFrames(c, s, AddBlock(c, s, p, xt, b), g, now, SensorBlock(p, xt, b));
  }

  lemma EffectKeepsFrames(c: Config, s: System, t: System, g: FrameState, now: seq<Emission>, block: Block)
    requires FramePart(c, s) && FilterPart(c, s) && BlockEffect(s, t, g, now, block)
    requires s.worker.next < |s.worker.xt.blocks| && block == SensorBlock(s.worker.p, s.worker.xt, s.worker.next)
    requires FrameInv(c.setup, g, s.emissions + now, s.blocks + [block], Raws(s.accepted))
    ensures FramePart(c, t) && FilterPart(c, t)
  {
    BlocksGrowBy(BlocksOf(c.setup.packetSize, Front(s.accepted)), s.worker.p, s.worker.xt, s.worker.next);
  }

  lemma BlocksGrowBy(before: seq<Block>, p: Packet, xt: XtData, b: nat)
    requires p.stamp.Finite? && b < |xt.blocks|
    ensures before + PacketBlocks(p, xt, b) + [SensorBlock(p, xt, b)] == before + PacketBlocks(p, xt, b + 1)
  {
  }

  // -------------------------------------------------------- the client side

  function Messages(emissions: seq<Emission>): seq<Message> {
    seq(|emissions|, i requires 0 <= i < |emissions| => MessageOf(emissions[i].cloud, emissions[i].stamp))
  }

  /** The guard so far is the guard over all emission stamps, none of them rejected. */
  ghost predicate GuardPart(s: System) {
    RunGuard(TIMESTAMP_REGRESSION_TOLERANCE_SEC, Stamps(EmissionStamps(s.emissions)))
    == GuardRun(s.cloudGuard, EmissionStamps(s.emissions))
  }

  ghost predicate CountPart(s: System) {
    && s.counters.emptyDrops == 0 && s.counters.regressions == 0
    && s.counters.enqueued == |s.emissions|
    && s.counters.overwrites == s.mail.overwrites
    && s.counters.published == |s.mail.published|
    && s.counters.failures == s.mail.failures
  }

  ghost predicate CloudPart(s: System) {
    && GuardPart(s) && CountPart(s)
    && Mailbox.Inv(s.mail) && s.mail.pushed == Messages(s.emissions)
    && (s.mail.slot.stopped ==> s.worker.Exited?)
  }

  /** The cloud guard accepts the next stamp of a stream that does not regress. */
  lemma NextStampPasses(stamps: seq<real>, t: real, guard: GuardState)
    requires NonRegressing(TIMESTAMP_REGRESSION_TOLERANCE_SEC, stamps + [t])
    requires RunGuard(TIMESTAMP_REGRESSION_TOLERANCE_SEC, Stamps(stamps)) == GuardRun(guard, stamps)
    ensures var (after, d) := GuardStep(TIMESTAMP_REGRESSION_TOLERANCE_SEC, guard, Finite(t));
            && d.Accepted()
            && RunGuard(TIMESTAMP_REGRESSION_TOLERANCE_SEC, Stamps(stamps + [t])) == GuardRun(after, stamps + [t])
  {
    FreshGuardPassesIff(TIMESTAMP_REGRESSION_TOLERANCE_SEC, stamps + [t]);
    assert Front(Stamps(stamps + [t])) == Stamps(stamps) && Last(Stamps(stamps + [t])) == Finite(t);
    assert |stamps + [t]| != |stamps|;
  }

  lemma CallBackCounts(c: Config, s: System, e: Emission)
    requires WantsPoints(c.publishType) && CountPart(s) && !s.mail.slot.stopped && e.cloud != [] && !TooLong(e.cloud)
    requires GuardStep(TIMESTAMP_REGRESSION_TOLERANCE_SEC, s.cloudGuard, Finite(e.stamp)).1.Accepted()
    ensures CountPart(CallBack(c, s, e))
    ensures var t := CallBack(c, s, e);
            && t.cloudGuard == GuardStep(TIMESTAMP_REGRESSION_TOLERANCE_SEC, s.cloudGuard, Finite(e.stamp)).0
            && t.mail == Mailbox.Apply(s.mail, Mailbox.Push(MessageOf(e.cloud, e.stamp)))
            && t.mail.slot == OnCloud(c.publishType, ClientOf(s), e.cloud, Finite(e.stamp)).0.slot
            && t.mail.pushed == s.mail.pushed + [MessageOf(e.cloud, e.stamp)]
  {
  }

  lemma CallBackKeepsGuard(c: Config, s: System, e: Emission)
    requires WantsPoints(c.publishType) && GuardPart(s) && e.cloud != []
    requires NonRegressing(TIMESTAMP_REGRESSION_TOLERANCE_SEC, EmissionStamps(s.emissions + [e]))
    ensures GuardStep(TIMESTAMP_REGRESSION_TOLERANCE_SEC, s.cloudGuard, Finite(e.stamp)).1.Accepted()
    ensures GuardPart(CallBack(c, s, e))
  {
    assert EmissionStamps(s.emissions + [e]) == EmissionStamps(s.emissions) + [e.stamp];
    NextStampPasses(EmissionStamps(s.emissions), e.stamp, s.cloudGuard);
  }

  lemma MessagesSnoc(emissions: seq<Emission>, e: Emission)
    ensures Messages(emissions + [e]) == Messages(emissions) + [MessageOf(e.cloud, e.stamp)]
  {
  }

  lemma CallBackKeepsClouds(c: Config, s: System, e: Emission)
    requires WantsPoints(c.publishType) && CloudPart(s) && !s.mail.slot.stopped && e.cloud != [] && !TooLong(e.cloud)
    requires NonRegressing(TIMESTAMP_REGRESSION_TOLERANCE_SEC, EmissionStamps(s.emissions + [e]))
    ensures CloudPart(CallBack(c, s, e))
  {
    CallBackKeepsGuard(c, s, e);
    CallBackCounts(c, s, e);
    Mailbox.StepInv(s.mail, Mailbox.Push(MessageOf(e.cloud, e.stamp)));
    MessagesSnoc(s.emissions, e);
  }

  /** No point of a run is stamped more than the tolerance below an earlier one. */
  lemma PointsNeverRegress(c: Config, s: System)
    requires FilterPart(c, s) && FramePart(c, s)
    ensures NonRegressing(TIMESTAMP_REGRESSION_TOLERANCE_SEC, PointTimes(PointsOf(s.blocks)))
  {
    AcceptedTimesNeverRegress(c.setup.packetSize, s.handled);
    PointTimesNeverRegress(c.setup.packetSize, s.accepted, TIMESTAMP_REGRESSION_TOLERANCE_SEC);
    BlocksArePrefix(c, s);
    PointTimesPrefix(s.blocks, BlocksOf(c.setup.packetSize, s.accepted), TIMESTAMP_REGRESSION_TOLERANCE_SEC);
  }

  /** Nor is any emission. */
  lemma EmissionsNeverRegress(c: Config, s: System)
    requires FilterPart(c, s) && FramePart(c, s)
    ensures Subsequence(EmissionStamps(s.emissions), PointTimes(PointsOf(s.blocks)))
    ensures NonRegressing(TIMESTAMP_REGRESSION_TOLERANCE_SEC, EmissionStamps(s.emissions))
  {
    PointsNeverRegress(c, s);
    StampsFollowPoints(c.setup, s.frame, s.emissions, s.blocks, Raws(s.accepted));
    SubsequenceNonRegressing(TIMESTAMP_REGRESSION_TOLERANCE_SEC, EmissionStamps(s.emissions), PointTimes(PointsOf(s.blocks)));
  }

  /** The blocks looked at are those of the accepted packets, up to a part of the last one. */
  lemma BlocksArePrefix(c: Config, s: System)
    requires FilterPart(c, s) && FramePart(c, s)
    ensures s.blocks <= BlocksOf(c.setup.packetSize, s.accepted)
    ensures !s.worker.Working? ==> s.blocks == BlocksOf(c.setup.packetSize, s.accepted)
  {
    if s.worker.Working? {
      PartOfLast(c.setup.packetSize, s.accepted, s.worker.xt, s.worker.next);
    }
  }

  // -------------------------------------------------------- the invariant

  ghost predicate Inv(c: Config, s: System) {
    c.Valid() && RingPart(c, s) && FilterPart(c, s) && FramePart(c, s) && CloudPart(s)
  }

  lemma InitInv(c: Config, base: seq<Packet>)
    requires c.Valid() && |base| == c.ring.capacity
    ensures Inv(c, Init(c, base))
  {
    SpscThreads.InitInv(c.ring, base);
    FreshFrame(c.setup);
    SpscThreads.NothingOffered(base);
  }

  /** A block that ends no cloud leaves the client side alone. */
  lemma QuietBlockKeepsClouds(c: Config, s: System, p: Packet, xt: XtData, b: nat)
    requires CloudPart(s) && s.worker.Working? && FrameOk(c.setup, s.frame) && Decoded(p, xt) && b < |xt.blocks|
    requires OnBlock(c.setup, s.frame, p, xt, b).1 == []
    ensures CloudPart(AddBlock(c, s, p, xt, b))
  {
  }

  /** A block that ends one hands it over. */
  lemma EmittingBlockKeepsClouds(c: Config, s: System, p: Packet, xt: XtData, b: nat, e: Emission)
    requires WantsPoints(c.publishType) && CloudPart(s) && s.worker.Working?
    requires FrameOk(c.setup, s.frame) && Decoded(p, xt) && b < |xt.blocks|
    requires OnBlock(c.setup, s.frame, p, xt, b).1 == [e] && e.cloud != [] && !TooLong(e.cloud)
    requires NonRegressing(TIMESTAMP_REGRESSION_TOLERANCE_SEC, EmissionStamps(s.emissions + [e]))
    ensures CloudPart(AddBlock(c, s, p, xt, b))
  {
    var g := OnBlock(c.setup, s.frame, p, xt, b).0;
    var next := s.(worker := Working(p, xt, b + 1), frame := g, blocks := s.blocks + [SensorBlock(p, xt, b)]);
    CallBackKeepsClouds(c, next, e);
  }

  lemma BlockKeepsClouds(c: Config, s: System, p: Packet, xt: XtData, b: nat)
    requires c.Valid() && FramePart(c, s) && FilterPart(c, s) && CloudPart(s)
    requires s.worker == Working(p, xt, b) && Decoded(p, xt) && b < |xt.blocks| && Serializable(c, s)
    ensures CloudPart(AddBlock(c, s, p, xt, b))
  {
    BlockKeepsFrames(c, s, p, xt, b);
    var t, now := AddBlock(c, s, p, xt, b), OnBlock(c.setup, s.frame, p, xt, b).1;
    if now == [] {
      QuietBlockKeepsClouds(c, s, p, xt, b);
    } else {
      EmissionsNeverRegress(c, t);
      LastIsWellEmitted(c, t);
      EmittingBlockKeepsClouds(c, s, p, xt, b, now[0]);
    }
  }

  lemma LastIsWellEmitted(c: Config, s: System)
    requires FramePart(c, s) && s.emissions != []
    ensures WellEmitted(c.setup, Last(s.emissions))
  {
  }

  lemma BlockKeepsInvariant(c: Config, s: System, p: Packet, xt: XtData, b: nat)
    requires Inv(c, s) && s.worker == Working(p, xt, b) && Decoded(p, xt) && b < |xt.blocks| && Serializable(c, s)
    ensures Inv(c, AddBlock(c, s, p, xt, b))
  {
    BlockKeepsFrames(c, s, p, xt, b);
    BlockKeepsClouds(c, s, p, xt, b);
    BlockKeepsRing(c, s, AddBlock(c, s, p, xt, b));
  }

  lemma BlockKeepsRing(c: Config, s: System, t: System)
    requires RingPart(c, s) && s.worker.Working? && t.worker.Working?
    requires t.ring == s.ring && t.offered == s.offered && t.handled == s.handled
    ensures RingPart(c, t)
  {
  }

  lemma PublisherKeepsClouds(c: Config, s: System, t: Mailbox.Step<Message>)
    requires CloudPart(s) && Enabled(c, s, Publisher(t))
    ensures CloudPart(Apply(c, s, Publisher(t)))
  {
    Mailbox.StepInv(s.mail, t);
  }

  lemma StopKeepsClouds(c: Config, s: System)
    requires CloudPart(s) && Enabled(c, s, StopMailbox)
    ensures CloudPart(Apply(c, s, StopMailbox))
  {
    Mailbox.StepInv(s.mail, Mailbox.Stop);
  }

  lemma CheckKeepsRing(c: Config, s: System)
    requires RingPart(c, s) && s.worker.Holding?
    ensures RingPart(c, CheckPacket(c, s, s.worker.p))
  {
    assert s.handled + [s.worker.p] + [] == s.handled + [s.worker.p];
  }

  lemma CheckKeepsClouds(c: Config, s: System)
    requires CloudPart(s) && s.worker.Holding?
    ensures CloudPart(CheckPacket(c, s, s.worker.p))
  {
  }

  lemma CheckKeepsInvariant(c: Config, s: System)
    requires Inv(c, s) && s.worker.Holding?
    ensures Inv(c, CheckPacket(c, s, s.worker.p))
  {
    CheckKeepsRing(c, s);
    CheckKeepsFilters(c, s);
    CheckKeepsFrames(c, s);
    CheckKeepsClouds(c, s);
  }

  lemma StepInv(c: Config, s: System, step: Step)
    requires Inv(c, s) && Enabled(c, s, step)
    ensures Inv(c, Apply(c, s, step))
  {
    match step
    case Receive(t) => ReceiveKeepsRing(c, s, t);
    case Poll(t) => PollKeepsRing(c, s, t);
    case Check => CheckKeepsInvariant(c, s);
    case NextBlock => BlockKeepsInvariant(c, s, s.worker.p, s.worker.xt, s.worker.next);
    case EndPacket => EndKeepsFrames(c, s);
    case ExitWorker =>
    case StopMailbox => StopKeepsClouds(c, s);
    case Publisher(t) => PublisherKeepsClouds(c, s, t);
  }

  lemma {:induction false} RunInv(c: Config, base: seq<Packet>, steps: seq<Step>)
    requires c.Valid() && |base| == c.ring.capacity && Run(c, base, steps)
    ensures Inv(c, After(c, base, steps))
  {
    if steps == [] {
      InitInv(c, base);
    } else {
      RunInv(c, base, Front(steps));
      StepInv(c, After(c, base, Front(steps)), Last(steps));
    }
  }

  // -------------------------------------------------------- main results

  /**
   In every interleaving: the batches behind the clouds and the points still
   buffered are, in order, exactly the points of the blocks looked at; those are
   the blocks of the accepted packets, up to the part of the current packet not
   reached yet; in flat form the clouds themselves and the buffer join to them.
   */
  lemma PointsAreConserved(c: Config, base: seq<Packet>, steps: seq<Step>)
    requires c.Valid() && |base| == c.ring.capacity && Run(c, base, steps)
    ensures var s := After(c, base, steps);
            var lasers := LasersOf(c.setup.packetSize);
            && Lasers(s.blocks, lasers)
            && (exists run :: Conserves(c.setup.structured, lasers, run, PointsOf(s.blocks))
                  && run.clouds == Clouds(s.emissions) && run.splitter == s.frame.splitter)
            && (s.frame.splitter.buffer.Flat? ==>
                  Flatten(Clouds(s.emissions)) + s.frame.splitter.buffer.points == PointsOf(s.blocks))
            && s.blocks <= BlocksOf(c.setup.packetSize, s.accepted)
            && (!s.worker.Working? ==> s.blocks == BlocksOf(c.setup.packetSize, s.accepted))
  {
    RunInv(c, base, steps);
    var s := After(c, base, steps);
    var lasers := LasersOf(c.setup.packetSize);
    var run := RunBlocks(c.setup.structured, c.setup.startAngle, lasers, s.blocks);
    RunConserves(c.setup.structured, c.setup.startAngle, lasers, s.blocks);
    BlocksArePrefix(c, s);
    if s.frame.splitter.buffer.Flat? {
      assert run.clouds == run.batches;
    }
  }

  /** The accepted packets are a subsequence of the offered ones: in order, none used twice. */
  lemma AcceptedComeFromOffered(c: Config, base: seq<Packet>, steps: seq<Step>)
    requires c.Valid() && |base| == c.ring.capacity && Run(c, base, steps)
    ensures var s := After(c, base, steps);
            && Subsequence(s.accepted, s.handled) && s.handled <= SpscThreads.Pushed(s.ring)
            && Subsequence(SpscThreads.Pushed(s.ring), s.offered)
            && Subsequence(s.accepted, s.offered) && multiset(s.accepted) <= multiset(s.offered)
  {
    RunInv(c, base, steps);
    var s := After(c, base, steps);
    var pushed := SpscThreads.Pushed(s.ring);
    OutcomesBalance(c.setup.packetSize, s.handled);
    PoppedArePushed(c, s);
    SubsequencePrefix(s.handled, pushed);
    SpscThreads.PushedFromOffered(s.ring, s.offered);
    SubsequenceTransitive(s.accepted, s.handled, pushed);
    SubsequenceTransitive(s.accepted, pushed, s.offered);
    SubsequenceMultiset(s.accepted, s.offered);
  }

  lemma PoppedArePushed(c: Config, s: System)
    requires RingPart(c, s)
    ensures s.handled <= s.ring.popped <= SpscThreads.Pushed(s.ring)
    ensures |SpscThreads.Pushed(s.ring)| - |s.ring.popped| <= c.ring.maxDepth
  {
  }

  /** No point's reception time is more than 0.1 s below that of any earlier point. */
  lemma PointTimesAreOrdered(c: Config, base: seq<Packet>, steps: seq<Step>)
    requires c.Valid() && |base| == c.ring.capacity && Run(c, base, steps)
    ensures NonRegressing(0.1, PointTimes(PointsOf(After(c, base, steps).blocks)))
  {
    RunInv(c, base, steps);
    PointsNeverRegress(c, After(c, base, steps));
  }

  /** The packets in which the emitted clouds begin, by position among those accepted. */
  ghost function OriginsOf(c: Config, s: System): seq<nat> {
    Origins(c.setup.packetSize, Beginnings(c.setup.structured, c.setup.startAngle, s.blocks))
  }

  lemma BlocksFromAccepted(c: Config, s: System)
    requires FilterPart(c, s) && FramePart(c, s)
    ensures FromPackets(c.setup.packetSize, s.blocks, s.accepted) && Lasers(s.blocks, LasersOf(c.setup.packetSize))
  {
    BlocksArePrefix(c, s);
    AcceptedDecode(c.setup.packetSize, s.handled);
  }

  lemma StateStampsByPacket(c: Config, s: System)
    requires FilterPart(c, s) && FramePart(c, s)
    ensures NeverBack(OriginsOf(c, s), |s.accepted|)
    ensures EmissionStamps(s.emissions) == Picked(Times(s.accepted), OriginsOf(c, s))
    ensures BeginApart(OriginsOf(c, s)) ==> Subsequence(EmissionStamps(s.emissions), Times(s.accepted))
    ensures Distinct(Times(s.accepted)) ==>
              (Subsequence(EmissionStamps(s.emissions), Times(s.accepted)) <==> BeginApart(OriginsOf(c, s)))
    ensures Subsequence(OriginsOf(c, s), Positions(|s.accepted|)) <==> BeginApart(OriginsOf(c, s))
  {
    BlocksFromAccepted(c, s);
    StampsOfEmissions(c.setup, s.frame, s.emissions, s.blocks, Raws(s.accepted));
    StampsByPacket(c.setup.structured, c.setup.startAngle, c.setup.packetSize, s.blocks, s.accepted);
    StampsFollowPacketsIff(c.setup.structured, c.setup.startAngle, c.setup.packetSize, s.blocks, s.accepted);
  }

  /**
   Every cloud is stamped with the time of the accepted packet it begins in, and
   these packets never go back. The cloud stamps are a subsequence of the accepted
   times if no two clouds in a row begin in one packet; when the times differ,
   only then; and by position, whatever the times, exactly then.
   */
  lemma CloudStampsFollowPacketsIff(c: Config, base: seq<Packet>, steps: seq<Step>)
    requires c.Valid() && |base| == c.ring.capacity && Run(c, base, steps)
    ensures var s := After(c, base, steps);
            var (stamps, origins) := (EmissionStamps(s.emissions), OriginsOf(c, s));
            && NeverBack(origins, |s.accepted|) && stamps == Picked(Times(s.accepted), origins)
            && (BeginApart(origins) ==> Subsequence(stamps, Times(s.accepted)))
            && (Distinct(Times(s.accepted)) ==> (Subsequence(stamps, Times(s.accepted)) <==> BeginApart(origins)))
            && (Subsequence(origins, Positions(|s.accepted|)) <==> BeginApart(origins))
  {
    RunInv(c, base, steps);
    StateStampsByPacket(c, After(c, base, steps));
  }

  /**
   So it is when every firing block brings a leading point, no accepted packet
   fires twice, and the one that brings the first leading point does not fire
   behind it.
   */
  lemma OneCutStampsFollowPackets(c: Config, base: seq<Packet>, steps: seq<Step>)
    requires c.Valid() && |base| == c.ring.capacity && Run(c, base, steps)
    requires var s := After(c, base, steps);
             && FiringsLead(c.setup.structured, c.setup.startAngle, s.blocks)
             && OneCutAPacket(c.setup.structured, c.setup.startAngle, c.setup.packetSize, s.blocks)
    ensures var s := After(c, base, steps);
            Subsequence(EmissionStamps(s.emissions), Times(s.accepted))
  {
    RunInv(c, base, steps);
    OneCutState(c, After(c, base, steps));
  }

  lemma OneCutState(c: Config, s: System)
    requires FilterPart(c, s) && FramePart(c, s)
    requires FiringsLead(c.setup.structured, c.setup.startAngle, s.blocks)
    requires OneCutAPacket(c.setup.structured, c.setup.startAngle, c.setup.packetSize, s.blocks)
    ensures Subsequence(EmissionStamps(s.emissions), Times(s.accepted))
  {
    BlocksFromAccepted(c, s);
    OneCutBeginsApart(c.setup.structured, c.setup.startAngle, LasersOf(c.setup.packetSize), c.setup.packetSize, s.blocks);
    StateStampsByPacket(c, s);
  }

  /**
   For a steadily turning sensor whose every block brings a leading point, the
   cloud stamps are a subsequence of the accepted times unless the first accepted
   packet crosses the start angle and a revolution is completed after it; when
   the times differ, that is the only exception.
   */
  lemma SteadyStampsFollowPacketsIff(c: Config, base: seq<Packet>, steps: seq<Step>, at: seq<nat>)
    requires c.Valid() && |base| == c.ring.capacity && Run(c, base, steps) && c.setup.startAngle < CIRCLE
    requires var s := After(c, base, steps);
             && s.blocks != [] && Turning(s.blocks, at) && NothingUnseen(c.setup.startAngle, at)
             && AllLead(c.setup.structured, s.blocks)
    ensures var s := After(c, base, steps);
            var meet := FirstPacketCrosses(c.setup.startAngle, c.setup.packetSize, at)
                        && Revolution(c.setup.startAngle, Last(at)) >= Revolution(c.setup.startAngle, at[0]) + 2;
            && (!meet ==> Subsequence(EmissionStamps(s.emissions), Times(s.accepted)))
            && (Distinct(Times(s.accepted)) ==> (Subsequence(EmissionStamps(s.emissions), Times(s.accepted)) <==> !meet))
  {
    RunInv(c, base, steps);
    SteadyState(c, After(c, base, steps), at);
  }

  lemma SteadyState(c: Config, s: System, at: seq<nat>)
    requires FilterPart(c, s) && FramePart(c, s) && c.setup.startAngle < CIRCLE
    requires s.blocks != [] && Turning(s.blocks, at) && NothingUnseen(c.setup.startAngle, at) && AllLead(c.setup.structured, s.blocks)
    ensures BeginApart(OriginsOf(c, s))
       <==> !(FirstPacketCrosses(c.setup.startAngle, c.setup.packetSize, at)
              && Revolution(c.setup.startAngle, Last(at)) >= Revolution(c.setup.startAngle, at[0]) + 2)
    ensures BeginApart(OriginsOf(c, s)) ==> Subsequence(EmissionStamps(s.emissions), Times(s.accepted))
    ensures Distinct(Times(s.accepted)) ==>
              (Subsequence(EmissionStamps(s.emissions), Times(s.accepted)) <==> BeginApart(OriginsOf(c, s)))
  {
    BlocksFromAccepted(c, s);
    SteadyCloudsApartIff(c.setup.structured, c.setup.startAngle, LasersOf(c.setup.packetSize), c.setup.packetSize, s.blocks, at);
    StateStampsByPacket(c, s);
  }

  /**
   Within one session the cloud guard never rejects and no cloud is empty: every
   emitted cloud is pushed into the mailbox, in order, as a message with its points
   and its stamp.
   */
  lemma CloudGuardNeverRejects(c: Config, base: seq<Packet>, steps: seq<Step>)
    requires c.Valid() && |base| == c.ring.capacity && Run(c, base, steps)
    ensures var s := After(c, base, steps);
            && s.counters.regressions == 0 && s.counters.emptyDrops == 0
            && s.counters.enqueued == |s.emissions|
            && PointsIn(s.mail.pushed) == Clouds(s.emissions)
            && forall k :: 0 <= k < |s.emissions| ==>
                 IsMessageOf(s.mail.pushed[k], s.emissions[k].cloud, s.emissions[k].stamp)
                 && (EmissionStamps(s.emissions)[k] >= 0.0 ==>
                       Joined(s.mail.pushed[k].sec, s.mail.pushed[k].nanosec) == Rounded(EmissionStamps(s.emissions)[k]))
  {
    RunInv(c, base, steps);
    MessagesStandForClouds(After(c, base, steps).emissions);
  }

  /** The point sequences of some messages. */
  function PointsIn(messages: seq<Message>): seq<seq<Point>> {
    seq(|messages|, i requires 0 <= i < |messages| => messages[i].points)
  }

  lemma MessagesStandForClouds(emissions: seq<Emission>)
    ensures PointsIn(Messages(emissions)) == Clouds(emissions)
    ensures forall k :: 0 <= k < |emissions| ==>
              IsMessageOf(Messages(emissions)[k], emissions[k].cloud, emissions[k].stamp)
              && (EmissionStamps(emissions)[k] >= 0.0 ==>
                    Joined(Messages(emissions)[k].sec, Messages(emissions)[k].nanosec) == Rounded(EmissionStamps(emissions)[k]))
  {
    forall k | 0 <= k < |emissions|
      ensures IsMessageOf(Messages(emissions)[k], emissions[k].cloud, emissions[k].stamp)
      ensures EmissionStamps(emissions)[k] >= 0.0 ==>
                Joined(Messages(emissions)[k].sec, Messages(emissions)[k].nanosec) == Rounded(EmissionStamps(emissions)[k])
    {
      MessageStandsForCloud(emissions[k].cloud, emissions[k].stamp);
    }
  }

  lemma {:induction false} PointsInSubsequence(xs: seq<Message>, ys: seq<Message>)
    requires Subsequence(xs, ys)
    ensures Subsequence(PointsIn(xs), PointsIn(ys))
    decreases |ys|
  {
    if xs != [] {
      assert Front(PointsIn(ys)) == PointsIn(Front(ys)) && Front(PointsIn(xs)) == PointsIn(Front(xs));
      if Last(xs) == Last(ys) && Subsequence(Front(xs), Front(ys)) {
        PointsInSubsequence(Front(xs), Front(ys));
      } else {
        PointsInSubsequence(xs, Front(ys));
      }
    }
  }

  /**
   What is published are clouds that were emitted, in order, some of them left
   out; and the message a pop delivers has the points and the stamp of the newest
   cloud emitted.
   */
  lemma PublishedInOrder(c: Config, base: seq<Packet>, steps: seq<Step>)
    requires c.Valid() && |base| == c.ring.capacity && Run(c, base, steps)
    ensures var s := After(c, base, steps);
            && Subsequence(s.mail.published, s.mail.pushed)
            && Subsequence(PointsIn(s.mail.published), Clouds(s.emissions))
            && (Mailbox.Enabled(s.mail, Mailbox.CheckAndWait) ==>
                  var next := Mailbox.Apply(s.mail, Mailbox.CheckAndWait);
                  next.consumer.Publishing? ==>
                    s.emissions != [] && IsMessageOf(next.consumer.value, Last(s.emissions).cloud, Last(s.emissions).stamp))
  {
    RunInv(c, base, steps);
    PublisherDelivers(After(c, base, steps));
  }

  lemma PublisherDelivers(s: System)
    requires CloudPart(s)
    ensures Subsequence(s.mail.published, s.mail.pushed)
    ensures Subsequence(PointsIn(s.mail.published), Clouds(s.emissions))
    ensures Mailbox.Enabled(s.mail, Mailbox.CheckAndWait) ==>
              var next := Mailbox.Apply(s.mail, Mailbox.CheckAndWait);
              next.consumer.Publishing? ==>
                s.emissions != [] && IsMessageOf(next.consumer.value, Last(s.emissions).cloud, Last(s.emissions).stamp)
  {
    Mailbox.ChainIsOrdered(s.mail);
    PointsInSubsequence(s.mail.published, Messages(s.emissions));
    MessagesStandForClouds(s.emissions);
  }

  /**
   No stale replay: fewer than maxDepth of the packets enqueued are newer than
   the one a pop returns, and it has not been returned before.
   */
  lemma PoppedPacketIsRecent(c: Config, base: seq<Packet>, steps: seq<Step>)
    requires c.Valid() && |base| == c.ring.capacity && Run(c, base, steps)
    requires Enabled(c, After(c, base, steps), Poll(SpscThreads.PopPublish))
    ensures var s := After(c, base, steps);
            var pushed := SpscThreads.Pushed(s.ring);
            && |s.handled| < |pushed| && pushed[|s.handled|] == s.ring.consumer.value
            && |pushed| - (|s.handled| + 1) < c.ring.maxDepth
  {
    RunInv(c, base, steps);
    var s := After(c, base, steps);
    SpscThreads.RingRefinesFifo(c.ring, s.ring, SpscThreads.PopPublish);
    PoppedArePushed(c, s);
  }

  /** The stamps of enqueued packets, each finite and at most `rise` above the one before it. */
  ghost predicate RiseAtMost(packets: seq<Packet>, rise: real) {
    && (forall i :: 0 <= i < |packets| ==> packets[i].stamp.Finite?)
    && (forall i :: 0 < i < |packets| ==> packets[i].stamp.t - packets[i - 1].stamp.t <= rise)
  }

  lemma {:induction false} RisesAddUp(packets: seq<Packet>, rise: real, i: nat, j: nat)
    requires RiseAtMost(packets, rise) && i <= j < |packets|
    ensures packets[j].stamp.t - packets[i].stamp.t <= (j - i) as real * rise
  {
    if i < j {
      RisesAddUp(packets, rise, i, j - 1);
      assert (j - i) as real * rise == (j - 1 - i) as real * rise + rise;
    }
  }

  lemma RisesAtMost(rises: nat, rise: real)
    requires rises <= 399 && rise >= 0.0
    ensures rises as real * rise <= 399.0 * rise
  {
    var less := 399.0 - rises as real;
    assert less * rise >= 0.0;
    assert rises as real * rise == (399.0 - less) * rise == 399.0 * rise - less * rise;
  }

  lemma NewestIsNear(packets: seq<Packet>, rise: real, k: nat)
    requires k < |packets| <= k + 400 && rise >= 0.0 && RiseAtMost(packets, rise)
    ensures packets[k] in packets && Last(packets).stamp.Finite? && packets[k].stamp.Finite?
    ensures Last(packets).stamp.t - packets[k].stamp.t <= 399.0 * rise
    ensures rise <= 0.0002 ==> Last(packets).stamp.t - packets[k].stamp.t < 0.08
  {
    var newest: nat := |packets| - 1;
    RisesAddUp(packets, rise, k, newest);
    RisesAtMost(newest - k, rise);
    assert packets[newest].stamp.t - packets[k].stamp.t <= (newest - k) as real * rise <= 399.0 * rise;
  }

  /**
   In time, for the driver's own ring: the packet a pop returns lies at most 399
   times the largest rise below the newest packet enqueued; at 5,000 packets a
   second that is less than 0.08 s.
   */
  lemma PoppedPacketIsFresh(c: Config, base: seq<Packet>, steps: seq<Step>, rise: real)
    requires c.Valid() && |base| == c.ring.capacity && Run(c, base, steps) && c.ring == Sessions.DRIVER_RING
    requires Enabled(c, After(c, base, steps), Poll(SpscThreads.PopPublish))
    requires rise >= 0.0 && RiseAtMost(SpscThreads.Pushed(After(c, base, steps).ring), rise)
    ensures var (s, pushed) := (After(c, base, steps), SpscThreads.Pushed(After(c, base, steps).ring));
            && pushed != [] && s.ring.consumer.value in pushed
            && Last(pushed).stamp.t - s.ring.consumer.value.stamp.t <= 399.0 * rise
            && (rise <= 0.0002 ==> Last(pushed).stamp.t - s.ring.consumer.value.stamp.t < 0.08)
  {
    PoppedPacketIsRecent(c, base, steps);
    var s := After(c, base, steps);
    NewestIsNear(SpscThreads.Pushed(s.ring), rise, |s.handled|);
  }

  /**
   After the publishing thread has returned, every cloud enqueued was published,
   failed to publish, was overwritten, or is at most one discarded at the stop;
   nothing is emitted any more.
   */
  lemma CloudCountersBalance(c: Config, base: seq<Packet>, steps: seq<Step>)
    requires c.Valid() && |base| == c.ring.capacity && Run(c, base, steps)
    requires After(c, base, steps).mail.consumer.Finished?
    ensures var s := After(c, base, steps);
            && s.worker.Exited? && s.mail.discarded <= 1
            && s.counters.enqueued == s.counters.published + s.counters.failures + s.counters.overwrites + s.mail.discarded
  {
    RunInv(c, base, steps);
  }

  /**
   For a sensor that turns steadily, the clouds of the whole system are exactly
   the completed non-empty revolutions of the blocks it looked at.
   */
  lemma CloudsOfSystemAreRevolutions(c: Config, base: seq<Packet>, steps: seq<Step>, at: seq<nat>)
    requires c.Valid() && |base| == c.ring.capacity && Run(c, base, steps)
    requires !c.setup.structured && c.setup.startAngle < CIRCLE
    requires var s := After(c, base, steps);
             s.blocks != [] && Turning(s.blocks, at) && NothingUnseen(c.setup.startAngle, at)
    ensures var s := After(c, base, steps);
            var v := Revolution(c.setup.startAngle, Last(at));
            && s.frame.splitter.buffer == Flat(RevolutionPoints(c.setup.startAngle, s.blocks, at, v))
            && Clouds(s.emissions)
               == CompletedRevolutions(c.setup.startAngle, s.blocks, at, Revolution(c.setup.startAngle, at[0]), v)
  {
    RunInv(c, base, steps);
    var s := After(c, base, steps);
    var lasers := LasersOf(c.setup.packetSize);
    CloudsAreRevolutions(c.setup.startAngle, lasers, s.blocks, at);
    RunConserves(false, c.setup.startAngle, lasers, s.blocks);
  }

  /**
   Unseen crossings included, and in both buffer forms: the clouds of the system are
   its completed non-empty revolutions exactly when these are separated.
   */
  lemma CloudsOfSystemAreRevolutionsIff(c: Config, base: seq<Packet>, steps: seq<Step>, at: seq<nat>)
    requires c.Valid() && |base| == c.ring.capacity && Run(c, base, steps) && c.setup.startAngle < CIRCLE
    requires After(c, base, steps).blocks != [] && Turning(After(c, base, steps).blocks, at)
    ensures var (s, start) := (After(c, base, steps), c.setup.startAngle);
            var (lo, v) := (Revolution(start, at[0]), Revolution(start, Last(at)));
            Clouds(s.emissions)
            == AllEmitted(c.setup.structured, CompletedRevolutions(start, s.blocks, at, lo, v), LasersOf(c.setup.packetSize))
            <==> RevolutionsSeparated(c.setup.structured, start, s.blocks, at, lo, v)
  {
    RunInv(c, base, steps);
    RevolutionsOfState(c, After(c, base, steps), at);
  }

  lemma RevolutionsOfState(c: Config, s: System, at: seq<nat>)
    requires FramePart(c, s) && c.setup.startAngle < CIRCLE && s.blocks != [] && Turning(s.blocks, at)
    ensures var start := c.setup.startAngle;
            var (lo, v) := (Revolution(start, at[0]), Revolution(start, Last(at)));
            Clouds(s.emissions)
            == AllEmitted(c.setup.structured, CompletedRevolutions(start, s.blocks, at, lo, v), LasersOf(c.setup.packetSize))
            <==> RevolutionsSeparated(c.setup.structured, start, s.blocks, at, lo, v)
  {
    CloudsAreRevolutionsIff(c.setup.structured, c.setup.startAngle, LasersOf(c.setup.packetSize), s.blocks, at);
  }

  /**
   Backward jitter adds no cloud: two runs, however scheduled, one of which has
   looked at the same blocks and then at small backward steps only, have emitted
   the same clouds.
   */
  lemma JitterEmitsNothing(c: Config, base: seq<Packet>, steps: seq<Step>, base': seq<Packet>, steps': seq<Step>, more: seq<Block>)
    requires c.Valid() && |base| == |base'| == c.ring.capacity && Run(c, base, steps) && Run(c, base', steps')
    requires var blocks := After(c, base, steps).blocks;
             && blocks != [] && After(c, base', steps').blocks == blocks + more
             && AllStepBack(Last(blocks).azimuth, Last(blocks).time, more)
    ensures Clouds(After(c, base', steps').emissions) == Clouds(After(c, base, steps).emissions)
  {
    RunInv(c, base, steps);
    RunInv(c, base', steps');
    JitterAddsNoCloud(c.setup.structured, c.setup.startAngle, LasersOf(c.setup.packetSize), After(c, base, steps).blocks, more);
  }

  /**
   With at most `r` blocks an azimuth at least `d` apart, lasers * r * ceil(36000 / d)
   within the fixed point buffer means that no state of any run overruns it.
   */
  lemma SystemBufferNeverOverflows(c: Config, base: seq<Packet>, steps: seq<Step>, at: seq<nat>, d: nat, r: nat)
    requires c.Valid() && |base| == c.ring.capacity && Run(c, base, steps)
    requires !c.setup.structured && c.setup.startAngle < CIRCLE && d > 0
    requires var s := After(c, base, steps);
             s.blocks != [] && Turning(s.blocks, at) && NothingUnseen(c.setup.startAngle, at) && Spaced(at, d, r)
    requires LasersOf(c.setup.packetSize) * (r * MaxGroups(d)) <= MAX_POINT_CLOUD_NUM
    ensures BufferFits(After(c, base, steps).frame.splitter.buffer)
  {
    RunInv(c, base, steps);
    FrameBufferFits(c, After(c, base, steps), at, d, r);
  }

  /** A PandarXT-16 in single return mode never overruns the buffer, whatever the azimuth step. */
  lemma Xt16BufferNeverOverflows(c: Config, base: seq<Packet>, steps: seq<Step>, at: seq<nat>)
    requires c.Valid() && |base| == c.ring.capacity && Run(c, base, steps)
    requires !c.setup.structured && c.setup.startAngle < CIRCLE && c.setup.packetSize == XT16_PACKET_SIZE
    requires var s := After(c, base, steps);
             s.blocks != [] && Turning(s.blocks, at) && NothingUnseen(c.setup.startAngle, at) && Spaced(at, 1, 1)
    ensures BufferFits(After(c, base, steps).frame.splitter.buffer)
  {
    Xt16Fits();
    SystemBufferNeverOverflows(c, base, steps, at, 1, 1);
  }

  lemma FrameBufferFits(c: Config, s: System, at: seq<nat>, d: nat, r: nat)
    requires FilterPart(c, s) && FramePart(c, s) && !c.setup.structured && c.setup.startAngle < CIRCLE && d > 0
    requires s.blocks != [] && Turning(s.blocks, at) && NothingUnseen(c.setup.startAngle, at) && Spaced(at, d, r)
    requires LasersOf(c.setup.packetSize) * (r * MaxGroups(d)) <= MAX_POINT_CLOUD_NUM
    ensures BufferFits(s.frame.splitter.buffer)
  {
    BlocksArePrefix(c, s);
    BlocksSmall(c.setup.packetSize, s.accepted);
    BufferNeverOverflows(c.setup.startAngle, LasersOf(c.setup.packetSize), s.blocks, at, d, r);
  }

  /**
   The builder's condition on the next packet, derived: with the same spacing up to
   the packet's last block, none of its blocks overruns the point buffer.
   */
  lemma NextPacketFits(c: Config, base: seq<Packet>, steps: seq<Step>, p: Packet, xt: XtData, at: seq<nat>, d: nat, r: nat)
    requires c.Valid() && |base| == c.ring.capacity && Run(c, base, steps)
    requires After(c, base, steps).worker == Working(p, xt, 0)
    requires !c.setup.structured && c.setup.startAngle < CIRCLE && d > 0 && Decoded(p, xt)
    requires var blocks := After(c, base, steps).blocks + PacketBlocks(p, xt, |xt.blocks|);
             Turning(blocks, at) && NothingUnseen(c.setup.startAngle, at) && Spaced(at, d, r)
    requires LasersOf(c.setup.packetSize) * (r * MaxGroups(d)) <= MAX_POINT_CLOUD_NUM
    ensures FrameOk(c.setup, After(c, base, steps).frame)
    ensures FitsThroughout(c.setup, After(c, base, steps).frame, p, xt)
  {
    RunInv(c, base, steps);
    PacketFits(c, After(c, base, steps), p, xt, at, d, r);
  }

  lemma WholePacketBlocks(c: Config, s: System, p: Packet, xt: XtData)
    requires FilterPart(c, s) && FramePart(c, s) && s.worker == Working(p, xt, 0)
    ensures var all := s.blocks + PacketBlocks(p, xt, |xt.blocks|);
            Lasers(all, LasersOf(c.setup.packetSize)) && AtMost(all, LasersOf(c.setup.packetSize))
    ensures xt.laserNumber == LasersOf(c.setup.packetSize)
  {
    LasersFixedBySize(p, xt, c.setup.packetSize);
    WholeLastSmall(c.setup.packetSize, s.accepted, xt, s.blocks);
  }

  lemma PacketFits(c: Config, s: System, p: Packet, xt: XtData, at: seq<nat>, d: nat, r: nat)
    requires FilterPart(c, s) && FramePart(c, s) && s.worker == Working(p, xt, 0)
    requires !c.setup.structured && c.setup.startAngle < CIRCLE && d > 0 && Decoded(p, xt)
    requires var blocks := s.blocks + PacketBlocks(p, xt, |xt.blocks|);
             Turning(blocks, at) && NothingUnseen(c.setup.startAngle, at) && Spaced(at, d, r)
    requires LasersOf(c.setup.packetSize) * (r * MaxGroups(d)) <= MAX_POINT_CLOUD_NUM
    ensures FitsThroughout(c.setup, s.frame, p, xt)
  {
    WholePacketBlocks(c, s, p, xt);
    AllBlocksFit(c.setup, s.frame, s.emissions, s.blocks, Raws(s.accepted), p, xt, s.blocks + PacketBlocks(p, xt, |xt.blocks|), at, d, r);
  }

  lemma AllBlocksFit(setup: Setup, f: FrameState, emissions: seq<Emission>, blocks: seq<Block>, arrived: seq<RawPacket>,
                     p: Packet, xt: XtData, all: seq<Block>, at: seq<nat>, d: nat, r: nat)
    requires FrameInv(setup, f, emissions, blocks, arrived) && !setup.structured && setup.startAngle < CIRCLE && d > 0
    requires Decoded(p, xt) && xt.laserNumber == LasersOf(setup.packetSize)
    requires all == blocks + PacketBlocks(p, xt, |xt.blocks|)
    requires Lasers(all, LasersOf(setup.packetSize)) && AtMost(all, LasersOf(setup.packetSize))
    requires Turning(all, at) && NothingUnseen(setup.startAngle, at) && Spaced(at, d, r)
    requires LasersOf(setup.packetSize) * (r * MaxGroups(d)) <= MAX_POINT_CLOUD_NUM
    ensures FitsThroughout(setup, f, p, xt)
  {
    forall k | 0 <= k <= |xt.blocks|
      ensures BufferFits(OnBlocks(setup, f, p, xt, k).0.splitter.buffer)
    {
      BlocksFit(setup, f, emissions, blocks, arrived, p, xt, k, all, at, d, r);
    }
  }

  lemma BlocksFit(setup: Setup, f: FrameState, emissions: seq<Emission>, blocks: seq<Block>, arrived: seq<RawPacket>,
                  p: Packet, xt: XtData, k: nat, all: seq<Block>, at: seq<nat>, d: nat, r: nat)
    requires FrameInv(setup, f, emissions, blocks, arrived) && !setup.structured && setup.startAngle < CIRCLE && d > 0
    requires Decoded(p, xt) && k <= |xt.blocks| && xt.laserNumber == LasersOf(setup.packetSize)
    requires all == blocks + PacketBlocks(p, xt, |xt.blocks|)
    requires Lasers(all, LasersOf(setup.packetSize)) && AtMost(all, LasersOf(setup.packetSize))
    requires Turning(all, at) && NothingUnseen(setup.startAngle, at) && Spaced(at, d, r)
    requires LasersOf(setup.packetSize) * (r * MaxGroups(d)) <= MAX_POINT_CLOUD_NUM
    ensures BufferFits(OnBlocks(setup, f, p, xt, k).0.splitter.buffer)
  {
    BlocksKeepInv(setup, f, emissions, blocks, arrived, p, xt, k);
    PacketBlocksPrefix(p, xt, k, |xt.blocks|);
    PrefixFits(setup.startAngle, LasersOf(setup.packetSize), blocks + PacketBlocks(p, xt, k), all, at, d, r);
  }

  /** The emitted scans without their correction packets, then the pending scan, are the accepted packets in order. */
  lemma ScansRecordAccepted(c: Config, base: seq<Packet>, steps: seq<Step>)
    requires c.Valid() && |base| == c.ring.capacity && Run(c, base, steps)
    ensures var s := After(c, base, steps);
            && Flatten(Recorded(s.emissions)) + s.frame.scan == Raws(s.accepted)
            && forall i :: 0 <= i < |s.emissions| ==>
                 s.emissions[i].scan != []
                 && Last(s.emissions[i].scan) == CorrectionPacket(c.setup, LasersOf(c.setup.packetSize))
  {
    RunInv(c, base, steps);
    ScansOfState(c, After(c, base, steps));
  }

  lemma ScansOfState(c: Config, s: System)
    requires FramePart(c, s)
    ensures Flatten(Recorded(s.emissions)) + s.frame.scan == Raws(s.accepted)
    ensures forall i :: 0 <= i < |s.emissions| ==>
              s.emissions[i].scan != []
              && Last(s.emissions[i].scan) == CorrectionPacket(c.setup, LasersOf(c.setup.packetSize))
  {
    forall i | 0 <= i < |s.emissions|
      ensures WellEmitted(c.setup, s.emissions[i])
    {
    }
  }

  /**
   Until it returns, the processing thread always has a step: the typing guards of
   a block never block it, and the serializer never throws while the flat buffer
   fits its array.
   */
  lemma WorkerNeverStuck(c: Config, base: seq<Packet>, steps: seq<Step>)
    requires c.Valid() && |base| == c.ring.capacity && Run(c, base, steps)
    ensures var s := After(c, base, steps);
            && (s.worker.Working? ==>
                  && FrameOk(c.setup, s.frame) && Decoded(s.worker.p, s.worker.xt) && s.worker.next <= |s.worker.xt.blocks|
                  && (if s.worker.next == |s.worker.xt.blocks| then Enabled(c, s, EndPacket)
                      else (Enabled(c, s, NextBlock) <==> Serializable(c, s))
                           && (!c.setup.structured && BufferFits(s.frame.splitter.buffer) ==> Serializable(c, s))))
            && (s.worker.Holding? ==> Enabled(c, s, Check))
            && (s.worker.Polling? ==> exists t :: Enabled(c, s, Poll(t)))
  {
    RunInv(c, base, steps);
    var s := After(c, base, steps);
    if s.worker.Polling? {
      PollHasStep(c, s);
    } else if s.worker.Working? {
      BlockHasStep(c, s);
    }
  }

  /**
   Nor is either other thread ever stuck: whatever the state, the receiving thread
   may begin a push of any packet or go on with the one begun, and the publishing
   thread, until it has returned, tests the mailbox, publishes, or sleeps with
   nothing to do and may wake at any time.
   */
  lemma OthersNeverStuck(c: Config, base: seq<Packet>, steps: seq<Step>)
    requires c.Valid() && |base| == c.ring.capacity && Run(c, base, steps)
    ensures var s := After(c, base, steps);
            && (s.ring.producer.PIdle? ==> forall p :: Enabled(c, s, Receive(SpscThreads.PushBegin(p))))
            && (!s.ring.producer.PIdle? ==> exists t :: Enabled(c, s, Receive(t)))
            && (s.mail.consumer.Running? || s.mail.consumer.Woken? ==> Enabled(c, s, Publisher(Mailbox.CheckAndWait)))
            && (s.mail.consumer.Publishing? ==> forall ok :: Enabled(c, s, Publisher(Mailbox.Publish(ok))))
            && (s.mail.consumer.Asleep? ==>
                  s.mail.slot.pending.None? && !s.mail.slot.stopped && Enabled(c, s, Publisher(Mailbox.WakeSpuriously)))
            && (s.worker.Exited? ==> Enabled(c, s, StopMailbox))
            && (s.worker.Polling? && s.ring.consumer.CIdle? ==> Enabled(c, s, ExitWorker))
  {
    RunInv(c, base, steps);
    ReceiverHasStep(c, After(c, base, steps));
    EndingHasSteps(c, After(c, base, steps));
  }

  lemma EndingHasSteps(c: Config, s: System)
    requires CloudPart(s)
    ensures s.mail.consumer.Running? || s.mail.consumer.Woken? ==> Enabled(c, s, Publisher(Mailbox.CheckAndWait))
    ensures s.mail.consumer.Publishing? ==> forall ok :: Enabled(c, s, Publisher(Mailbox.Publish(ok)))
    ensures s.mail.consumer.Asleep? ==>
              s.mail.slot.pending.None? && !s.mail.slot.stopped && Enabled(c, s, Publisher(Mailbox.WakeSpuriously))
    ensures s.worker.Exited? ==> Enabled(c, s, StopMailbox)
    ensures s.worker.Polling? && s.ring.consumer.CIdle? ==> Enabled(c, s, ExitWorker)
  {
  }

  lemma ReceiverHasStep(c: Config, s: System)
    requires RingPart(c, s)
    ensures s.ring.producer.PIdle? ==> forall p :: Enabled(c, s, Receive(SpscThreads.PushBegin(p)))
    ensures !s.ring.producer.PIdle? ==> exists t :: Enabled(c, s, Receive(t))
  {
    SpscThreads.ProducerNeverBlocked(c.ring, s.ring);
    match s.ring.producer
    case PIdle =>
    case PLoadedWrite(_, _) => assert Enabled(c, s, Receive(SpscThreads.PushLoadRead(s.ring.seenRead)));
    case PLoadedRead(_, _, _) =>
      assert Enabled(c, s, Receive(SpscThreads.PushRefuse)) || Enabled(c, s, Receive(SpscThreads.PushWriteSlot));
    case PWrote(_, _, _) => assert Enabled(c, s, Receive(SpscThreads.PushPublish));
  }

  lemma BlockHasStep(c: Config, s: System)
    requires FilterPart(c, s) && FramePart(c, s) && s.worker.Working?
    ensures FrameOk(c.setup, s.frame) && Decoded(s.worker.p, s.worker.xt) && s.worker.next <= |s.worker.xt.blocks|
    ensures s.worker.next < |s.worker.xt.blocks| && !c.setup.structured && BufferFits(s.frame.splitter.buffer) ==> Serializable(c, s)
  {
    if s.worker.next < |s.worker.xt.blocks| && !c.setup.structured && BufferFits(s.frame.splitter.buffer) {
      FittingCloudIsShort(c.setup, s.frame, s.worker.p, s.worker.xt, s.worker.next);
    }
  }

  lemma FittingCloudIsShort(setup: Setup, f: FrameState, p: Packet, xt: XtData, b: nat)
    requires FrameOk(setup, f) && !setup.structured && BufferFits(f.splitter.buffer) && Decoded(p, xt) && b < |xt.blocks|
    ensures forall e :: e in OnBlock(setup, f, p, xt, b).1 ==> !TooLong(e.cloud)
  {
  }

  lemma PollHasStep(c: Config, s: System)
    requires RingPart(c, s) && s.worker.Polling?
    ensures exists t :: Enabled(c, s, Poll(t))
  {
    var r := s.ring;
    match r.consumer
    case CIdle => assert Enabled(c, s, Poll(SpscThreads.PopBegin));
    case CLoadedRead(_) => assert Enabled(c, s, Poll(SpscThreads.PopLoadWrite(r.seenWrite)));
    case CLoadedWrite(read, write) =>
      if read == write {
        assert Enabled(c, s, Poll(SpscThreads.PopRefuse));
      } else {
        SpscThreads.HeadMayBeRead(c.ring, r);
        assert Enabled(c, s, Poll(SpscThreads.PopReadSlot(Some(SpscThreads.ReadCount(r)))));
      }
    case CTook(_, _) => assert Enabled(c, s, Poll(SpscThreads.PopPublish));
  }

  // -------------------------------------- the steps of one packet, together

  /** What handling the first `k` blocks as a whole makes of the frame and of the emissions. */
  ghost predicate HandledBlocks(c: Config, s: System, t: System, p: Packet, xt: XtData, k: nat)
    requires FrameOk(c.setup, s.frame) && Decoded(p, xt) && k <= |xt.blocks|
  {
    && t.frame == OnBlocks(c.setup, s.frame, p, xt, k).0
    && t.emissions == s.emissions + OnBlocks(c.setup, s.frame, p, xt, k).1
  }

  lemma OneMoreHandled(c: Config, s: System, t: System, u: System, p: Packet, xt: XtData, k: nat)
    requires FrameOk(c.setup, s.frame) && FrameOk(c.setup, t.frame) && Decoded(p, xt) && k < |xt.blocks|
    requires HandledBlocks(c, s, t, p, xt, k)
    requires var (g, now) := OnBlock(c.setup, t.frame, p, xt, k); BlockEffect(t, u, g, now, SensorBlock(p, xt, k))
    ensures HandledBlocks(c, s, u, p, xt, k + 1)
  {
    Reassociate(s.emissions, OnBlocks(c.setup, s.frame, p, xt, k).1, OnBlock(c.setup, t.frame, p, xt, k).1);
  }

  /** Steps of any thread that do not end the packet in work. */
  ghost predicate Inside(c: Config, s: System, steps: seq<Step>)
    decreases |steps|, 0
  {
    steps == [] ||
    (Inside(c, s, Front(steps)) && Enabled(c, From(c, s, Front(steps)), Last(steps)) && !Last(steps).EndPacket?)
  }

  ghost function From(c: Config, s: System, steps: seq<Step>): System
    requires Inside(c, s, steps)
    decreases |steps|, 1
  {
    if steps == [] then s else Apply(c, From(c, s, Front(steps)), Last(steps))
  }

  /** At work on `p`, with the blocks so far handled as from `s`. */
  ghost predicate HandledSince(c: Config, s: System, t: System, p: Packet, xt: XtData)
    requires FrameOk(c.setup, s.frame) && Decoded(p, xt)
  {
    && t.worker.Working? && t.worker == Working(p, xt, t.worker.next) && t.worker.next <= |xt.blocks|
    && HandledBlocks(c, s, t, p, xt, t.worker.next)
  }

  lemma {:induction false} InsideInv(c: Config, s: System, steps: seq<Step>)
    requires Inv(c, s) && Inside(c, s, steps)
    ensures Inv(c, From(c, s, steps))
  {
    if steps != [] {
      InsideInv(c, s, Front(steps));
      StepInv(c, From(c, s, Front(steps)), Last(steps));
    }
  }

  lemma NothingHandled(c: Config, s: System, p: Packet, xt: XtData)
    requires FrameOk(c.setup, s.frame) && Decoded(p, xt) && s.worker == Working(p, xt, 0)
    ensures HandledSince(c, s, s, p, xt)
  {
    assert s.emissions + [] == s.emissions;
  }

  /** The other threads leave the frame, the emissions and the packet in work alone. */
  lemma OthersKeepOut(c: Config, t: System, step: Step)
    requires Enabled(c, t, step) && t.worker.Working? && !step.NextBlock? && !step.EndPacket?
    ensures var u := Apply(c, t, step);
            u.worker == t.worker && u.frame == t.frame && u.emissions == t.emissions
  {
  }

  lemma EffectInside(c: Config, s: System, t: System, u: System, p: Packet, xt: XtData, b: nat)
    requires FrameOk(c.setup, s.frame) && FrameOk(c.setup, t.frame) && Decoded(p, xt) && b < |xt.blocks|
    requires t.worker == Working(p, xt, b) && HandledBlocks(c, s, t, p, xt, b)
    requires var (g, now) := OnBlock(c.setup, t.frame, p, xt, b); BlockEffect(t, u, g, now, SensorBlock(p, xt, b))
    ensures HandledSince(c, s, u, p, xt)
  {
    OneMoreHandled(c, s, t, u, p, xt, b);
  }

  lemma BlockInside(c: Config, s: System, t: System, p: Packet, xt: XtData, b: nat)
    requires FramePart(c, t) && FilterPart(c, t) && FrameOk(c.setup, s.frame) && Decoded(p, xt)
    requires t.worker == Working(p, xt, b) && HandledBlocks(c, s, t, p, xt, b) && b < |xt.blocks|
    ensures HandledSince(c, s, AddBlock(c, t, p, xt, b), p, xt)
  {
    BlockKeepsFrames(c, t, p, xt, b);
    EffectInside(c, s, t, AddBlock(c, t, p, xt, b), p, xt, b);
  }

  lemma StepInside(c: Config, s: System, t: System, step: Step, p: Packet, xt: XtData)
    requires FramePart(c, t) && FilterPart(c, t) && Enabled(c, t, step) && !step.EndPacket?
    requires FrameOk(c.setup, s.frame) && Decoded(p, xt) && HandledSince(c, s, t, p, xt)
    ensures HandledSince(c, s, Apply(c, t, step), p, xt)
  {
    if step.NextBlock? {
      BlockInside(c, s, t, p, xt, t.worker.next);
    } else {
      OthersKeepOut(c, t, step);
    }
  }

  /**
   However the steps of the other threads fall between them, the block steps of
   an accepted packet do to the frame, and emit, what handling the packet as a
   whole does.
   */
  lemma {:induction false} BlockStepsMakePacket(c: Config, s: System, steps: seq<Step>, p: Packet, xt: XtData)
    requires Inv(c, s) && s.worker == Working(p, xt, 0) && Decoded(p, xt) && Inside(c, s, steps)
    ensures HandledSince(c, s, From(c, s, steps), p, xt)
  {
    if steps == [] {
      NothingHandled(c, s, p, xt);
    } else {
      BlockStepsMakePacket(c, s, Front(steps), p, xt);
      InsideInv(c, s, Front(steps));
      StepInside(c, s, From(c, s, Front(steps)), Last(steps), p, xt);
    }
  }
}
