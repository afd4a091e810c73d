/**
 The processing thread's work on one accepted packet: the points of each block,
 the frame cut and the recorded scan.
 */
module XtFrames {
  import opened Common
  import opened XtPacket
  import opened FrameSplitter
  import opened Revolutions
  import CorrectionText

  /** A received packet. `sensorTime` stands for the sensor clock value its UTC fields denote. */
  datatype Packet = Packet(id: nat, stamp: Stamp, data: seq<byte>, sensorTime: real)

  /** A packet of the recorded scan. */
  datatype RawPacket = RawPacket(sec: int, nanosec: int, data: seq<byte>, size: nat)

  /** One call of the cloud callback. */
  datatype Emission = Emission(cloud: seq<Point>, stamp: real, scan: seq<RawPacket>)

  /** Start angle, the packet size of the configured model, list form or not, and the correction table. */
  datatype Setup = Setup(startAngle: nat, packetSize: nat, structured: bool, table: seq<CorrectionText.Angles>) {
    ghost predicate Valid() {
      SupportedSize(packetSize) && |table| == MAX_LASER_NUM
    }
  }

  // ------------------------------------------------------------------ points

  /** The skip rule: distances up to 0.1 m and above 200 m give no point. */
  predicate Kept(u: XtUnit, disUnit: nat) {
    100 < u.range * disUnit <= 200_000
  }

  function UnitPoint(p: Packet, xt: XtData, b: nat, u: nat): Point
    requires p.stamp.Finite? && b < |xt.blocks| && u < |xt.blocks[b].units|
  {
    var unit := xt.blocks[b].units[u];
    Point(p.id, b, u, p.stamp.t, xt.blocks[b].azimuth, unit.range * xt.disUnit, unit.intensity)
  }

  /** The points of the first `n` units of a block. */
  function UnitPoints(p: Packet, xt: XtData, b: nat, n: nat): seq<Point>
    requires p.stamp.Finite? && b < |xt.blocks| && n <= |xt.blocks[b].units|
  {
    if n == 0 then []
    else UnitPoints(p, xt, b, n - 1) + (if Kept(xt.blocks[b].units[n - 1], xt.disUnit) then [UnitPoint(p, xt, b, n - 1)] else [])
  }

  function BlockPoints(p: Packet, xt: XtData, b: nat): seq<Point>
    requires p.stamp.Finite? && b < |xt.blocks|
  {
    UnitPoints(p, xt, b, |xt.blocks[b].units|)
  }

  /** Shape that the layout check guarantees. */
  ghost predicate Decoded(p: Packet, xt: XtData) {
    && p.stamp.Finite?
    && 0 < xt.laserNumber <= UNIT_NUM && |xt.blocks| == xt.blockNumber
    && forall b :: 0 <= b < |xt.blocks| ==> |xt.blocks[b].units| == xt.laserNumber
  }

  lemma {:induction false} UnitPointsShape(p: Packet, xt: XtData, b: nat, n: nat)
    requires p.stamp.Finite? && b < |xt.blocks| && n <= |xt.blocks[b].units|
    ensures |UnitPoints(p, xt, b, n)| <= n && RingsBelow(UnitPoints(p, xt, b, n), n)
    ensures forall i :: 0 <= i < |UnitPoints(p, xt, b, n)| ==> UnitPoints(p, xt, b, n)[i].timestamp == p.stamp.t
  {
    if n > 0 {
      UnitPointsShape(p, xt, b, n - 1);
    }
  }

  /** A block gives at most one point a laser, all stamped with the packet's reception time. */
  lemma BlockPointsShape(p: Packet, xt: XtData, b: nat)
    requires Decoded(p, xt) && b < |xt.blocks|
    ensures |BlockPoints(p, xt, b)| <= xt.laserNumber && RingsBelow(BlockPoints(p, xt, b), xt.laserNumber)
    ensures forall i :: 0 <= i < |BlockPoints(p, xt, b)| ==> BlockPoints(p, xt, b)[i].timestamp == p.stamp.t
  {
    UnitPointsShape(p, xt, b, |xt.blocks[b].units|);
  }

  /** `runs` collects the kept ones of `points` one by one, point `k` being on ring `k`. */
  ghost predicate Collects(runs: seq<seq<Point>>, points: seq<Point>, kept: seq<bool>) {
    && |runs| == |points| + 1 && |kept| == |points| && runs[0] == []
    && forall k :: 0 <= k < |points| ==>
         points[k].ring == k && runs[k + 1] == if kept[k] then runs[k] + [points[k]] else runs[k]
  }

  lemma {:induction false} CollectedByRing(runs: seq<seq<Point>>, points: seq<Point>, kept: seq<bool>, n: nat, u: nat)
    requires Collects(runs, points, kept) && n <= |points|
    ensures OfRing(runs[n], u) == if u < n && kept[u] then [points[u]] else []
  {
    if n > 0 {
      CollectedByRing(runs, points, kept, n - 1, u);
      OfRingSnoc(runs[n - 1], points[n - 1], u);
    }
  }

  lemma UnitPointsByRing(p: Packet, xt: XtData, b: nat, n: nat, u: nat)
    requires p.stamp.Finite? && b < |xt.blocks| && n <= |xt.blocks[b].units|
    ensures OfRing(UnitPoints(p, xt, b, n), u)
         == if u < n && Kept(xt.blocks[b].units[u], xt.disUnit) then [UnitPoint(p, xt, b, u)] else []
  {
    var units := xt.blocks[b].units;
    var runs := seq(n + 1, k requires 0 <= k <= n => UnitPoints(p, xt, b, k));
    var points := seq(n, k requires 0 <= k < n => UnitPoint(p, xt, b, k));
    var kept := seq(n, k requires 0 <= k < n => Kept(units[k], xt.disUnit));
    CollectedByRing(runs, points, kept, n, u);
  }

  lemma {:induction false} UnitPointsInLaserOrder(p: Packet, xt: XtData, b: nat, n: nat)
    requires p.stamp.Finite? && b < |xt.blocks| && n <= |xt.blocks[b].units|
    ensures forall i, j :: 0 <= i < j < |UnitPoints(p, xt, b, n)| ==> UnitPoints(p, xt, b, n)[i].ring < UnitPoints(p, xt, b, n)[j].ring
  {
    if n > 0 {
      UnitPointsInLaserOrder(p, xt, b, n - 1);
      UnitPointsShape(p, xt, b, n - 1);
    }
  }

  /**
   Which points a block gives: laser `u` gives one if and only if its distance is
   above 0.1 m and at most 200 m, and exactly one then, which names the packet,
   the block, the laser, the reception time, the block's azimuth, the distance
   and the intensity. They come in laser order and there are no others.
   */
  lemma PointsAreKeptUnits(p: Packet, xt: XtData, b: nat, u: nat)
    requires Decoded(p, xt) && b < |xt.blocks|
    ensures u < xt.laserNumber ==>
              var unit := xt.blocks[b].units[u];
              var mm := unit.range * xt.disUnit;
              OfRing(BlockPoints(p, xt, b), u)
              == if 100 < mm <= 200_000 then [Point(p.id, b, u, p.stamp.t, xt.blocks[b].azimuth, mm, unit.intensity)] else []
    ensures u >= xt.laserNumber ==> OfRing(BlockPoints(p, xt, b), u) == []
    ensures forall i, j :: 0 <= i < j < |BlockPoints(p, xt, b)| ==> BlockPoints(p, xt, b)[i].ring < BlockPoints(p, xt, b)[j].ring
  {
    UnitPointsByRing(p, xt, b, xt.laserNumber, u);
    UnitPointsInLaserOrder(p, xt, b, xt.laserNumber);
  }

  lemma DecodeGivesShape(p: Packet, xt: XtData)
    requires p.stamp.Finite? && DecodeXt(p.data) == Some(xt)
    ensures Decoded(p, xt)
    ensures LayoutOk(|p.data|, xt.blockNumber, xt.laserNumber)
  {
    TailFits(p.data[7], p.data[6]);
  }

  // ------------------------------------------------------------ frame and scan

  datatype FrameState = FrameState(splitter: Splitter, scan: seq<RawPacket>)

  function Raw(p: Packet): RawPacket
    requires p.stamp.Finite?
  {
    RawPacket(Seconds(p.stamp.t), Nanoseconds(p.stamp.t), p.data, |p.data|)
  }

  /** The correction packet that ends every emitted scan. */
  function CorrectionPacket(setup: Setup, lasers: nat): RawPacket
    requires lasers <= |setup.table|
  {
    var text := CorrectionText.PrintTable(setup.table[..lasers]);
    RawPacket(0, 0, CorrectionText.FrameBytes(text), |text|)
  }

  function SensorBlock(p: Packet, xt: XtData, b: nat): Block
    requires p.stamp.Finite? && b < |xt.blocks|
  {
    Block(xt.blocks[b].azimuth, p.sensorTime, BlockPoints(p, xt, b))
  }

  ghost predicate FrameOk(setup: Setup, f: FrameState) {
    setup.Valid() && Room(f.splitter.buffer) && f.splitter.buffer.Rings? == setup.structured
  }

  /** One block: the cut, and with it the scan handed out and started anew. */
  function OnBlock(setup: Setup, f: FrameState, p: Packet, xt: XtData, b: nat): (FrameState, seq<Emission>)
    requires FrameOk(setup, f) && Decoded(p, xt) && b < |xt.blocks|
  {
    BlockPointsShape(p, xt, b);
    var block, lasers := SensorBlock(p, xt, b), xt.laserNumber;
    var (s, cloud) := Split(setup.startAngle, lasers, f.splitter, block);
    if !(Fires(setup.startAngle, f.splitter, block) && GuardOpen(f.splitter.buffer)) then (FrameState(s, f.scan), [])
    else
      (FrameState(s, []),
       if cloud.None? || cloud.value == [] then []
       else [Emission(cloud.value, cloud.value[0].timestamp, f.scan + [CorrectionPacket(setup, lasers)])])
  }

  lemma OnBlockOk(setup: Setup, f: FrameState, p: Packet, xt: XtData, b: nat)
    requires FrameOk(setup, f) && Decoded(p, xt) && b < |xt.blocks|
    ensures FrameOk(setup, OnBlock(setup, f, p, xt, b).0)
  {
    BlockPointsShape(p, xt, b);
    AddPointsKind(f.splitter.buffer, BlockPoints(p, xt, b));
    AddPointsKind(Cleared(f.splitter.buffer, xt.laserNumber), BlockPoints(p, xt, b));
  }

  /** The first `k` blocks of a packet. */
  function OnBlocks(setup: Setup, f: FrameState, p: Packet, xt: XtData, k: nat): (r: (FrameState, seq<Emission>))
    requires FrameOk(setup, f) && Decoded(p, xt) && k <= |xt.blocks|
    ensures FrameOk(setup, r.0)
  {
    if k == 0 then (f, [])
    else
      var (g, before) := OnBlocks(setup, f, p, xt, k - 1);
      OnBlockOk(setup, g, p, xt, k - 1);
      var (h, now) := OnBlock(setup, g, p, xt, k - 1);
      (h, before + now)
  }

  /** The packet joins the scan before its blocks are looked at. */
  function OnArrival(f: FrameState, p: Packet): FrameState
    requires p.stamp.Finite?
  {
    f.(scan := f.scan + [Raw(p)])
  }

  function OnPacket(setup: Setup, f: FrameState, p: Packet, xt: XtData): (FrameState, seq<Emission>)
    requires FrameOk(setup, f) && Decoded(p, xt)
  {
    OnBlocks(setup, OnArrival(f, p), p, xt, |xt.blocks|)
  }

  lemma PacketKeepsOk(setup: Setup, f: FrameState, p: Packet, xt: XtData)
    requires FrameOk(setup, f) && Decoded(p, xt)
    ensures FrameOk(setup, OnPacket(setup, f, p, xt).0)
  {
  }

  ghost predicate BufferFits(b: Buffer) {
    b.Flat? ==> |b.points| <= MAX_POINT_CLOUD_NUM
  }

  /** No block of the packet overruns the fixed point buffer, which the source does not check. */
  ghost predicate FitsThroughout(setup: Setup, f: FrameState, p: Packet, xt: XtData)
    requires FrameOk(setup, f) && Decoded(p, xt)
  {
    forall k :: 0 <= k <= |xt.blocks| ==> BufferFits(OnBlocks(setup, f, p, xt, k).0.splitter.buffer)
  }

  // ------------------------------------------------------------ the builder

  class XtFrameBuilder {
    const setup: Setup
    const pointCloud: array<Point>
    var pointCount: nat
    var pointLists: seq<seq<Point>>
    var lastAzimuth: nat
    var lastTimestamp: real
    var scan: seq<RawPacket>
    var emitted: seq<Emission>      // the calls of the cloud callback so far
    var emptyCloudDrops: nat

    ghost predicate Valid()
      reads this
    {
      && setup.Valid() && pointCloud.Length == MAX_POINT_CLOUD_NUM
      && pointCount <= pointCloud.Length && |pointLists| == MAX_LASER_NUM
      && (setup.structured ==> pointCount == 0)
      && (!setup.structured ==> forall r :: 0 <= r < MAX_LASER_NUM ==> pointLists[r] == [])
    }

    ghost function Buffered(): (b: Buffer)
      requires Valid()
      reads this, pointCloud
      ensures Room(b)
    {
      if setup.structured then Rings(pointLists) else Flat(pointCloud[..pointCount])
    }

    ghost function State(): (f: FrameState)
      requires Valid()
      reads this, pointCloud
      ensures FrameOk(setup, f)
    {
      FrameState(Splitter(lastAzimuth, lastTimestamp, Buffered()), scan)
    }

    constructor (setup: Setup, blank: Point)
      requires setup.Valid()
      ensures this.setup == setup && Valid() && fresh(pointCloud)
      ensures pointCloud.Length == 1_000_000 && |pointLists| == 256
      ensures State() == FrameState(Fresh(setup.structured), []) && emitted == [] && emptyCloudDrops == 0
    {
      this.setup := setup;
      pointCloud := new Point[MAX_POINT_CLOUD_NUM](_ => blank);
      pointCount, pointLists := 0, seq(MAX_LASER_NUM, i requires 0 <= i < MAX_LASER_NUM => []);
      lastAzimuth, lastTimestamp, scan, emitted, emptyCloudDrops := 0, 0.0, [], [], 0;
    }

    /** A new session: nothing buffered, no azimuth or sensor time seen, a new scan. */
    method Restart()
      requires Valid()
      modifies this`pointCount, this`pointLists, this`lastAzimuth, this`lastTimestamp, this`scan
      ensures Valid() && State() == FrameState(Fresh(setup.structured), [])
    {
      for i := 0 to MAX_LASER_NUM
        invariant |pointLists| == MAX_LASER_NUM && forall r :: 0 <= r < i ==> pointLists[r] == []
      {
        pointLists := pointLists[i := []];
      }
      lastAzimuth, lastTimestamp, pointCount, scan := 0, 0.0, 0, [];
    }

    /** One point into the flat buffer or its ring's list. */
    method StorePoint(point: Point)
      requires Valid() && point.ring < MAX_LASER_NUM
      requires setup.structured || pointCount < MAX_POINT_CLOUD_NUM
      modifies this`pointCount, this`pointLists, pointCloud
      ensures Valid() && Buffered() == AddPoint(old(Buffered()), point)
      ensures pointCount == old(pointCount) + (if setup.structured then 0 else 1)
    {
      if setup.structured {
        pointLists := pointLists[point.ring := pointLists[point.ring] + [point]];
      } else {
        pointCloud[pointCount] := point;
        pointCount := pointCount + 1;
      }
    }

    /** The point of one unit, if its distance is kept. */
    method StoreUnit(p: Packet, xt: XtData, b: nat, u: nat)
      requires Valid() && Decoded(p, xt) && b < |xt.blocks| && u < xt.laserNumber
      requires setup.structured || !Kept(xt.blocks[b].units[u], xt.disUnit) || pointCount < MAX_POINT_CLOUD_NUM
      modifies this`pointCount, this`pointLists, pointCloud
      ensures Valid()
      ensures Buffered() == if Kept(xt.blocks[b].units[u], xt.disUnit) then AddPoint(old(Buffered()), UnitPoint(p, xt, b, u))
                            else old(Buffered())
      ensures pointCount == old(pointCount) + (if setup.structured || !Kept(xt.blocks[b].units[u], xt.disUnit) then 0 else 1)
    {
      if Kept(xt.blocks[b].units[u], xt.disUnit) {
        StorePoint(UnitPoint(p, xt, b, u));
      }
    }

    method CalcXtPoints(p: Packet, xt: XtData, b: nat)
      requires Valid() && Decoded(p, xt) && b < |xt.blocks|
      requires setup.structured || pointCount + |BlockPoints(p, xt, b)| <= MAX_POINT_CLOUD_NUM
      modifies this`pointCount, this`pointLists, pointCloud
      ensures Valid() && RingsBelow(BlockPoints(p, xt, b), MAX_LASER_NUM)
      ensures Buffered() == AddPoints(old(Buffered()), BlockPoints(p, xt, b))
    {
      ghost var before, start := Buffered(), pointCount;
      BlockPointsShape(p, xt, b);
      for i := 0 to xt.laserNumber
        invariant Valid() && RingsBelow(UnitPoints(p, xt, b, i), MAX_LASER_NUM)
        invariant Buffered() == AddPoints(before, UnitPoints(p, xt, b, i))
        invariant !setup.structured ==> pointCount == start + |UnitPoints(p, xt, b, i)|
      {
        OneMoreUnit(before, p, xt, b, i);
        StoreUnit(p, xt, b, i);
      }
    }

    /** The rings one after the other, as the list form hands them out. */
    method GatherRings(lasers: nat) returns (cloud: seq<Point>)
      requires Valid() && lasers <= UNIT_NUM
      ensures cloud == Flatten(pointLists[..lasers])
    {
      cloud := [];
      for i := 0 to lasers
        invariant cloud == Flatten(pointLists[..i])
      {
        assert Front(pointLists[..i + 1]) == pointLists[..i];
        cloud := cloud + pointLists[i];
      }
    }

    method ClearRings(lasers: nat)
      requires Valid() && lasers <= UNIT_NUM
      modifies this`pointLists
      ensures Valid()
      ensures Rings(pointLists) == Cleared(Rings(old(pointLists)), lasers)
    {
      ghost var before := pointLists;
      for i := 0 to lasers
        invariant |pointLists| == MAX_LASER_NUM
        invariant forall r :: 0 <= r < MAX_LASER_NUM ==> pointLists[r] == if r < i then [] else before[r]
      {
        pointLists := pointLists[i := []];
      }
    }

    /** Hands out what is buffered; the empty case drops it instead. */
    method EmitBackMessage(lasers: nat)
      requires Valid() && lasers <= UNIT_NUM
      modifies this`pointCount, this`pointLists, this`emitted, this`emptyCloudDrops
      ensures Valid() && Buffered() == Cleared(old(Buffered()), lasers)
      ensures var cloud := CloudOf(old(Buffered()), lasers);
              && emitted == old(emitted) + (if cloud == [] then []
                   else [Emission(cloud, cloud[0].timestamp, scan + [CorrectionPacket(setup, lasers)])])
              && emptyCloudDrops == old(emptyCloudDrops) + (if cloud == [] then 1 else 0)
    {
      var cloud: seq<Point>;
      if setup.structured {
        cloud := GatherRings(lasers);
        ClearRings(lasers);
      } else {
        cloud := pointCloud[..pointCount];
        pointCount := 0;
      }
      if cloud == [] {
        emptyCloudDrops := emptyCloudDrops + 1;
      } else {
        emitted := emitted + [Emission(cloud, cloud[0].timestamp, scan + [CorrectionPacket(setup, lasers)])];
      }
    }

    method ProcessBlock(p: Packet, xt: XtData, b: nat)
      requires Valid() && Decoded(p, xt) && b < |xt.blocks|
      requires BufferFits(OnBlock(setup, State(), p, xt, b).0.splitter.buffer)
      modifies this, pointCloud
      ensures Valid()
      ensures State() == OnBlock(setup, old(State()), p, xt, b).0
      ensures emitted == old(emitted) + OnBlock(setup, old(State()), p, xt, b).1
    {
      BlockPointsShape(p, xt, b);
      var azimuth, lasers := xt.blocks[b].azimuth as nat, xt.laserNumber;
      var azimuthGap := if lastAzimuth > azimuth then azimuth + (CIRCLE - lastAzimuth) else azimuth - lastAzimuth;
      var timestampGap := p.sensorTime - lastTimestamp + TIME_SLACK;
      if lastAzimuth != azimuth && RatePasses(azimuthGap, timestampGap) && Boundary(setup.startAngle, lastAzimuth, azimuth) {
        if pointCount > 0 || |pointLists[0]| > 0 {
          EmitBackMessage(lasers);
          scan := [];
        }
      }
      AddPointsSize(Buffered(), BlockPoints(p, xt, b));
      CalcXtPoints(p, xt, b);
      lastAzimuth, lastTimestamp := azimuth, p.sensorTime;
    }

    /** `i` blocks are done, with the frame `f` and the emissions `start` before the first. */
    ghost predicate AtBlock(f: FrameState, start: seq<Emission>, p: Packet, xt: XtData, i: nat)
      requires FrameOk(setup, f) && Decoded(p, xt) && i <= |xt.blocks|
      reads this, pointCloud
    {
      && Valid() && State() == OnBlocks(setup, f, p, xt, i).0
      && emitted == start + OnBlocks(setup, f, p, xt, i).1
    }

    /** One turn of the loop over the blocks. */
    method ProcessNext(ghost f: FrameState, ghost start: seq<Emission>, p: Packet, xt: XtData, i: nat)
      requires FrameOk(setup, f) && Decoded(p, xt) && i < |xt.blocks| && FitsThroughout(setup, f, p, xt)
      requires AtBlock(f, start, p, xt, i)
      modifies this, pointCloud
      ensures AtBlock(f, start, p, xt, i + 1)
    {
      NextBlock(setup, f, p, xt, i);
      ghost var g, before := State(), OnBlocks(setup, f, p, xt, i).1;
      ProcessBlock(p, xt, i);
      Reassociate(start, before, OnBlock(setup, g, p, xt, i).1);
    }

    method ProcessBlocks(ghost f: FrameState, ghost start: seq<Emission>, p: Packet, xt: XtData)
      requires FrameOk(setup, f) && Decoded(p, xt) && FitsThroughout(setup, f, p, xt) && AtBlock(f, start, p, xt, 0)
      modifies this, pointCloud
      ensures AtBlock(f, start, p, xt, |xt.blocks|)
    {
      for i := 0 to xt.blockNumber
        invariant AtBlock(f, start, p, xt, i)
      {
        ProcessNext(f, start, p, xt, i);
      }
    }

    method ProcessXtPacket(p: Packet, xt: XtData)
      requires Valid() && Decoded(p, xt)
      requires FitsThroughout(setup, OnArrival(State(), p), p, xt)
      modifies this, pointCloud
      ensures Valid()
      ensures State() == OnPacket(setup, old(State()), p, xt).0
      ensures emitted == old(emitted) + OnPacket(setup, old(State()), p, xt).1
    {
      scan := scan + [Raw(p)];
      assert emitted + [] == emitted;
      ProcessBlocks(State(), emitted, p, xt);
    }
  }

  lemma OneMoreUnit(buffer: Buffer, p: Packet, xt: XtData, b: nat, i: nat)
    requires Room(buffer) && Decoded(p, xt) && b < |xt.blocks| && i < xt.laserNumber
    requires RingsBelow(UnitPoints(p, xt, b, i), MAX_LASER_NUM)
    ensures var (now, next) := (UnitPoints(p, xt, b, i), UnitPoints(p, xt, b, i + 1));
            && RingsBelow(next, MAX_LASER_NUM) && |next| <= |BlockPoints(p, xt, b)|
            && (if Kept(xt.blocks[b].units[i], xt.disUnit)
                then |next| == |now| + 1
                  && AddPoints(buffer, next) == AddPoint(AddPoints(buffer, now), UnitPoint(p, xt, b, i))
                else next == now)
  {
    UnitPointsShape(p, xt, b, i + 1);
    UnitPointsGrow(p, xt, b, i + 1, xt.laserNumber);
    if Kept(xt.blocks[b].units[i], xt.disUnit) {
      assert Front(UnitPoints(p, xt, b, i + 1)) == UnitPoints(p, xt, b, i);
    }
  }

  lemma NextBlock(setup: Setup, f: FrameState, p: Packet, xt: XtData, i: nat)
    requires FrameOk(setup, f) && Decoded(p, xt) && i < |xt.blocks| && FitsThroughout(setup, f, p, xt)
    ensures var (g, before) := OnBlocks(setup, f, p, xt, i);
            var (h, now) := OnBlock(setup, g, p, xt, i);
            && OnBlocks(setup, f, p, xt, i + 1) == (h, before + now)
            && BufferFits(h.splitter.buffer)
  {
    assert BufferFits(OnBlocks(setup, f, p, xt, i + 1).0.splitter.buffer);
  }

  lemma {:induction false} UnitPointsGrow(p: Packet, xt: XtData, b: nat, i: nat, n: nat)
    requires p.stamp.Finite? && b < |xt.blocks| && i <= n <= |xt.blocks[b].units|
    ensures |UnitPoints(p, xt, b, i)| <= |UnitPoints(p, xt, b, n)|
  {
    if i < n {
      UnitPointsGrow(p, xt, b, i, n - 1);
    }
  }

  lemma {:induction false} AddPointsSize(b: Buffer, points: seq<Point>)
    requires Room(b) && RingsBelow(points, MAX_LASER_NUM)
    ensures b.Flat? ==> AddPoints(b, points) == Flat(b.points + points)
  {
    if points != [] {
      AddPointsSize(b, Front(points));
      if b.Flat? {
        assert b.points + points == b.points + Front(points) + [Last(points)];
      }
    }
  }
}
