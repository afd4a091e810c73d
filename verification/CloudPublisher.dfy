/**
 The node's side of the handoff: the cloud callback (empty check, timestamp
 guard, push), the publishing thread's bookkeeping, and their counters. A
 message stands for its stamp and its points; their serialization is in module
 PointCloud2.
 */
module CloudPublisher {
  import opened Common
  import opened PacketDefenses
  import opened FrameSplitter
  import opened XtFrames
  import opened Mailbox
  import PointCloud2

  datatype PublishType = PublishPoints | PublishRaw | PublishBoth | PublishNothing

  datatype Message = Message(sec: int, nanosec: int, points: seq<Point>)

  datatype CloudCounters = CloudCounters(
    emptyDrops: nat, regressions: nat, enqueued: nat, overwrites: nat, failures: nat, published: nat, rawScans: nat)

  datatype ClientState = ClientState(guard: GuardState, slot: Slot<Message>, counters: CloudCounters)

  const NO_CLOUDS := CloudCounters(0, 0, 0, 0, 0, 0, 0)
  const FRESH_CLIENT := ClientState(FRESH_GUARD, Slot(None, false), NO_CLOUDS)

  predicate WantsPoints(t: PublishType) {
    t == PublishPoints || t == PublishBoth
  }

  predicate WantsRaw(t: PublishType) {
    t == PublishRaw || t == PublishBoth
  }

  /** A conversion to an integer drops the fraction. */
  function Truncate(t: real): int {
    if t >= 0.0 then t.Floor else -((-t).Floor)
  }

  function MessageOf(cloud: seq<Point>, timestamp: real): Message {
    var sec := Truncate(timestamp);
    Message(sec, Truncate((timestamp - sec as real) * 1_000_000_000.0), cloud)
  }

  /** What a subscriber relies on: the cloud's own points, and its stamp in seconds and nanoseconds, rounded down. */
  predicate IsMessageOf(m: Message, cloud: seq<Point>, timestamp: real) {
    && m.points == cloud
    && (timestamp >= 0.0 ==>
          && 0 <= m.nanosec < 1_000_000_000
          && timestamp - 0.000_000_001 < m.sec as real + m.nanosec as real / 1_000_000_000.0 <= timestamp)
  }

  /** The message of a cloud is that. */
  lemma MessageStandsForCloud(cloud: seq<Point>, timestamp: real)
    ensures IsMessageOf(MessageOf(cloud, timestamp), cloud, timestamp)
    ensures timestamp >= 0.0 ==>
              Joined(MessageOf(cloud, timestamp).sec, MessageOf(cloud, timestamp).nanosec) == Rounded(timestamp)
  {
    if timestamp >= 0.0 {
      StampRoundsDown(timestamp);
    }
  }

  function CountPush(c: CloudCounters, r: PushResult): CloudCounters {
    c.(enqueued := c.enqueued + (if r != Stopped then 1 else 0), overwrites := c.overwrites + (if r == Replaced then 1 else 0))
  }

  /** The serializer refuses a row of more points, and a cloud comes to it as one row. */
  predicate TooLong(cloud: seq<Point>) {
    |cloud| > PointCloud2.MAX_UINT32 / PointCloud2.POINT_STEP
  }

  /** The half of the callback that hands the cloud over; a cloud too long throws before it is pushed. */
  function HandOver(s: ClientState, cloud: seq<Point>, timestamp: Stamp): (ClientState, bool) {
    if cloud == [] then (s.(counters := s.counters.(emptyDrops := s.counters.emptyDrops + 1)), false)
    else
      var (guard, verdict) := GuardStep(TIMESTAMP_REGRESSION_TOLERANCE_SEC, s.guard, timestamp);
      if !verdict.Accepted() then (ClientState(guard, s.slot, s.counters.(regressions := s.counters.regressions + 1)), false)
      else if TooLong(cloud) then (s.(guard := guard), true)
      else
        var (slot, r) := PushSlot(s.slot, MessageOf(cloud, timestamp.t));
        (ClientState(guard, slot, CountPush(s.counters, r)), false)
  }

  /** The callback; true if it throws, which leaves out the raw scan. */
  function OnCloud(t: PublishType, s: ClientState, cloud: seq<Point>, timestamp: Stamp): (ClientState, bool) {
    var (handed, threw) := if WantsPoints(t) then HandOver(s, cloud, timestamp) else (s, false);
    if WantsRaw(t) && !threw then (handed.(counters := handed.counters.(rawScans := handed.counters.rawScans + 1)), false)
    else (handed, threw)
  }

  /** The length test is the serializer's own verdict on a one-row cloud. */
  lemma TooLongIff(cloud: PointCloud2.Cloud, bigEndian: bool, points: seq<Point>)
    requires |cloud.points| == |points| && cloud.height == 1 && cloud.width == |points|
    ensures PointCloud2.Serialize(cloud, bigEndian).Serialized? <==> !TooLong(points)
  {
  }

  class HesaiLidarClient {
    const publishType: PublishType
    const cloudTimestampGuard: TimestampGuard
    const cloudPublishMailbox: LatestValueMailbox<Message>
    var emptyCloudDrops: nat
    var cloudTimestampRegressions: nat
    var cloudsEnqueued: nat
    var cloudQueueOverwrites: nat
    var cloudPublishFailures: nat
    var cloudsPublished: nat
    var rawScansPublished: nat
    var pointClouds: seq<Message>          // what went out on the point cloud topic
    var rawScans: seq<seq<RawPacket>>      // what went out on the packet topic

    ghost predicate Valid()
      reads this
    {
      cloudTimestampGuard.toleranceSec == TIMESTAMP_REGRESSION_TOLERANCE_SEC
    }

    function Counted(): CloudCounters
      reads this
    {
      CloudCounters(emptyCloudDrops, cloudTimestampRegressions, cloudsEnqueued, cloudQueueOverwrites,
                    cloudPublishFailures, cloudsPublished, rawScansPublished)
    }

    function State(): ClientState
      reads this, cloudTimestampGuard, cloudPublishMailbox
    {
      ClientState(cloudTimestampGuard.State(), cloudPublishMailbox.State(), Counted())
    }

    constructor (publishType: PublishType)
      ensures Valid() && fresh(cloudTimestampGuard) && fresh(cloudPublishMailbox)
      ensures this.publishType == publishType && State() == FRESH_CLIENT && pointClouds == [] && rawScans == []
    {
      this.publishType := publishType;
      cloudTimestampGuard := new TimestampGuard(TIMESTAMP_REGRESSION_TOLERANCE_SEC);
      cloudPublishMailbox := new LatestValueMailbox<Message>();
      emptyCloudDrops, cloudTimestampRegressions, cloudsEnqueued, cloudQueueOverwrites := 0, 0, 0, 0;
      cloudPublishFailures, cloudsPublished, rawScansPublished := 0, 0, 0;
      pointClouds, rawScans := [], [];
    }

    method EnqueueCloud(cloud: seq<Point>, timestamp: Stamp) returns (threw: bool)
      requires Valid()
      modifies this`emptyCloudDrops, this`cloudTimestampRegressions, this`cloudsEnqueued, this`cloudQueueOverwrites,
               cloudTimestampGuard, cloudPublishMailbox
      ensures Valid() && (State(), threw) == HandOver(old(State()), cloud, timestamp)
      ensures cloudsEnqueued == old(cloudsEnqueued) ==> cloudPublishMailbox.pending == old(cloudPublishMailbox.pending)
      ensures cloudsEnqueued != old(cloudsEnqueued) ==>
                cloudPublishMailbox.pending.Some? && timestamp.Finite? && IsMessageOf(cloudPublishMailbox.pending.value, cloud, timestamp.t)
      ensures threw <==> |cloud| > 165_191_049 && cloudTimestampRegressions == old(cloudTimestampRegressions)
    {
      if cloud == [] {
        emptyCloudDrops := emptyCloudDrops + 1;
        return false;
      }
      var verdict := cloudTimestampGuard.Observe(timestamp);
      if !verdict.Accepted() {
        cloudTimestampRegressions := cloudTimestampRegressions + 1;
        return false;
      }
      if TooLong(cloud) {
        return true;
      }
      MessageStandsForCloud(cloud, timestamp.t);
      var r := cloudPublishMailbox.Push(MessageOf(cloud, timestamp.t));
      if r != Stopped {
        cloudsEnqueued := cloudsEnqueued + 1;
      }
      if r == Replaced {
        cloudQueueOverwrites := cloudQueueOverwrites + 1;
      }
      return false;
    }

    method LidarCallback(cloud: seq<Point>, timestamp: Stamp, scan: seq<RawPacket>) returns (threw: bool)
      requires Valid()
      modifies this, cloudTimestampGuard, cloudPublishMailbox
      ensures Valid() && (State(), threw) == OnCloud(publishType, old(State()), cloud, timestamp)
      ensures publishType == PublishPoints ==> (State(), threw) == HandOver(old(State()), cloud, timestamp)
      ensures pointClouds == old(pointClouds)
      ensures rawScans == if (publishType == PublishRaw || publishType == PublishBoth) && !threw then old(rawScans) + [scan]
                          else old(rawScans)
      ensures publishType == PublishRaw || publishType == PublishNothing || cloudsEnqueued == old(cloudsEnqueued) ==>
                cloudPublishMailbox.pending == old(cloudPublishMailbox.pending)
      ensures cloudsEnqueued != old(cloudsEnqueued) ==>
                cloudPublishMailbox.pending.Some? && timestamp.Finite? && IsMessageOf(cloudPublishMailbox.pending.value, cloud, timestamp.t)
    {
      if WantsPoints(publishType) {
        threw := EnqueueCloud(cloud, timestamp);
        if threw {
          return;
        }
      }
      if WantsRaw(publishType) {
        rawScans := rawScans + [scan];
        rawScansPublished := rawScansPublished + 1;
      }
      return false;
    }

    /** One turn of the publishing loop once its wait is over; false ends the loop. */
    method PublishNext(succeeds: bool) returns (more: bool)
      requires Valid() && MayReturn(cloudPublishMailbox.State())
      modifies this`cloudsPublished, this`cloudPublishFailures, this`pointClouds, cloudPublishMailbox
      ensures Valid() && more == old(cloudPublishMailbox.pending.Some?)
      ensures cloudPublishMailbox.State() == PopSlot(old(cloudPublishMailbox.State())).0
      ensures pointClouds == old(pointClouds) + (if more && succeeds then [old(cloudPublishMailbox.pending).value] else [])
      ensures Counted() == old(Counted()).(published := old(cloudsPublished) + (if more && succeeds then 1 else 0),
                                           failures := old(cloudPublishFailures) + (if more && !succeeds then 1 else 0))
    {
      var output := cloudPublishMailbox.PopAfterWait();
      if output.None? {
        return false;
      }
      if succeeds {
        pointClouds := pointClouds + [output.value];
        cloudsPublished := cloudsPublished + 1;
      } else {
        cloudPublishFailures := cloudPublishFailures + 1;
      }
      return true;
    }
  }

  /** A published stamp is its cloud's stamp, lower by less than a nanosecond. */
  lemma MessageStamp(cloud: seq<Point>, timestamp: real)
    requires timestamp >= 0.0
    ensures var m := MessageOf(cloud, timestamp);
            && m.sec == Seconds(timestamp) && m.nanosec == Nanoseconds(timestamp)
            && timestamp - 0.000_000_001 < Joined(m.sec, m.nanosec) <= timestamp
  {
    StampRoundsDown(timestamp);
  }

  // ------------------------------------------------------ runs of callbacks

  datatype Call = Call(cloud: seq<Point>, timestamp: Stamp)

  function RunCalls(t: PublishType, calls: seq<Call>): (ClientState, nat) {
    if calls == [] then (FRESH_CLIENT, 0)
    else
      var (s, thrown) := RunCalls(t, Front(calls));
      var (next, threw) := OnCloud(t, s, Last(calls).cloud, Last(calls).timestamp);
      (next, if threw then thrown + 1 else thrown)
  }

  /** The stamps of the calls that bring points. */
  function StampsOf(calls: seq<Call>): seq<Stamp> {
    if calls == [] then []
    else if Last(calls).cloud == [] then StampsOf(Front(calls))
    else StampsOf(Front(calls)) + [Last(calls).timestamp]
  }

  /** Every call so far is accounted for once: empty, regressed, handed over, or thrown out. */
  ghost predicate Accounted(t: PublishType, s: ClientState, guard: GuardState, calls: nat, stamps: nat, accepted: nat, thrown: nat) {
    && s.guard == guard && !s.slot.stopped
    && s.counters.emptyDrops + stamps == calls
    && s.counters.regressions + accepted == stamps
    && s.counters.enqueued + thrown == accepted
    && s.counters.rawScans == (if t == PublishBoth then calls - thrown else 0)
  }

  lemma CallAccounted(t: PublishType, s: ClientState, guard: GuardState, calls: nat, stamps: nat, accepted: nat, thrown: nat,
                      cloud: seq<Point>, timestamp: Stamp)
    requires WantsPoints(t) && Accounted(t, s, guard, calls, stamps, accepted, thrown)
    ensures var (next, threw) := OnCloud(t, s, cloud, timestamp);
            var (after, verdict) := GuardStep(TIMESTAMP_REGRESSION_TOLERANCE_SEC, guard, timestamp);
            && (threw ==> TooLong(cloud))
            && (cloud == [] ==> !threw && Accounted(t, next, guard, calls + 1, stamps, accepted, thrown))
            && (cloud != [] ==> Accounted(t, next, after, calls + 1, stamps + 1, if verdict.Accepted() then accepted + 1 else accepted,
                                          if threw then thrown + 1 else thrown))
  {
  }

  /**
   With points wanted, every call is accounted for once, and the guard decides
   over the non-empty clouds alone: those handed over, or too long for it, are
   the ones one guard accepts of their stamps.
   */
  lemma {:induction false} CallsBalance(t: PublishType, calls: seq<Call>)
    requires WantsPoints(t)
    ensures var g := RunGuard(TIMESTAMP_REGRESSION_TOLERANCE_SEC, StampsOf(calls));
            var (s, thrown) := RunCalls(t, calls);
            Accounted(t, s, g.state, |calls|, |StampsOf(calls)|, |g.accepted|, thrown)
  {
    if calls != [] {
      var before, call := StampsOf(Front(calls)), Last(calls);
      CallsBalance(t, Front(calls));
      var g := RunGuard(TIMESTAMP_REGRESSION_TOLERANCE_SEC, before);
      var (s, thrown) := RunCalls(t, Front(calls));
      CallAccounted(t, s, g.state, |calls| - 1, |before|, |g.accepted|, thrown, call.cloud, call.timestamp);
      assert Front(before + [call.timestamp]) == before;
    }
  }
}
