/**
 Replaying packets gives the same clouds: the cut depends on azimuths, sensor
 times and which rings hold points, never on the reception stamps that the
 recording rounds.
 */
module ReplayedClouds {
  import opened Common
  import opened XtPacket
  import opened FrameSplitter
  import opened Revolutions
  import opened XtFrames
  import opened FrameRuns
  import opened PacketProcessor
  import opened CloudStamps
  import opened ReplayedRuns

  function RoundPoint(p: Point): Point {
    p.(timestamp := Rounded(p.timestamp))
  }

  function RoundPoints(points: seq<Point>): seq<Point> {
    seq(|points|, i requires 0 <= i < |points| => RoundPoint(points[i]))
  }

  function RoundLists(lists: seq<seq<Point>>): seq<seq<Point>> {
    seq(|lists|, i requires 0 <= i < |lists| => RoundPoints(lists[i]))
  }

  function RoundBlock(b: Block): Block {
    b.(points := RoundPoints(b.points))
  }

  function RoundBlocks(blocks: seq<Block>): seq<Block> {
    seq(|blocks|, i requires 0 <= i < |blocks| => RoundBlock(blocks[i]))
  }

  // ------------------------------------------- rounding and regrouping commute

  lemma RoundPointsSnoc(points: seq<Point>, p: Point)
    ensures RoundPoints(points + [p]) == RoundPoints(points) + [RoundPoint(p)]
  {
  }

  lemma RoundPointsJoin(a: seq<Point>, b: seq<Point>)
    ensures RoundPoints(a + b) == RoundPoints(a) + RoundPoints(b)
  {
  }

  lemma {:induction false} RingOfRounded(points: seq<Point>, ring: nat)
    ensures OfRing(RoundPoints(points), ring) == RoundPoints(OfRing(points, ring))
  {
    if points != [] {
      RingOfRounded(Front(points), ring);
      assert Front(RoundPoints(points)) == RoundPoints(Front(points));
      RoundPointsSnoc(OfRing(Front(points), ring), Last(points));
    }
  }

  lemma {:induction false} RegroupedOfRounded(points: seq<Point>, lasers: nat)
    ensures Regrouped(RoundPoints(points), lasers) == RoundPoints(Regrouped(points, lasers))
  {
    if lasers > 0 {
      RegroupedOfRounded(points, lasers - 1);
      RingOfRounded(points, lasers - 1);
      RoundPointsJoin(Regrouped(points, lasers - 1), OfRing(points, lasers - 1));
    }
  }

  lemma EmittedOfRounded(structured: bool, batch: seq<Point>, lasers: nat)
    ensures Emitted(structured, RoundPoints(batch), lasers) == RoundPoints(Emitted(structured, batch, lasers))
  {
    RegroupedOfRounded(batch, lasers);
  }

  // -------------------------------------------------- rounding and the cut

  /** Two runs that differ in the rounding of their stamps only. */
  ghost predicate Alike(run: Run, rounded: Run) {
    && rounded.splitter.lastAzimuth == run.splitter.lastAzimuth
    && rounded.splitter.lastTime == run.splitter.lastTime
    && rounded.pending == RoundPoints(run.pending)
    && rounded.batches == RoundLists(run.batches)
  }

  lemma CutsWhenOpen(structured: bool, start: nat, lasers: nat, run: Run, b: Block, points: seq<Point>)
    requires 0 < lasers <= MAX_LASER_NUM && RingsBelow(b.points, lasers) && Conserves(structured, lasers, run, points)
    ensures Split(start, lasers, run.splitter, b).1.Some? <==> Fires(start, run.splitter, b) && Open(structured, run.pending)
  {
    SplitConserves(start, lasers, run.splitter, b, run.pending);
    GuardSeesPending(run.splitter.buffer, run.pending, lasers);
  }

  lemma OpenOfRounded(structured: bool, points: seq<Point>)
    ensures Open(structured, RoundPoints(points)) <==> Open(structured, points)
  {
    RingOfRounded(points, 0);
  }

  lemma SameCut(structured: bool, start: nat, lasers: nat, run: Run, rounded: Run, b: Block, points: seq<Point>, points': seq<Point>)
    requires 0 < lasers <= MAX_LASER_NUM && RingsBelow(b.points, lasers) && Alike(run, rounded)
    requires Conserves(structured, lasers, run, points) && Conserves(structured, lasers, rounded, points')
    ensures RingsBelow(RoundBlock(b).points, lasers)
    ensures Split(start, lasers, run.splitter, b).1.Some? <==> Split(start, lasers, rounded.splitter, RoundBlock(b)).1.Some?
  {
    CutsWhenOpen(structured, start, lasers, run, b, points);
    CutsWhenOpen(structured, start, lasers, rounded, RoundBlock(b), points');
    OpenOfRounded(structured, run.pending);
  }

  lemma ExtendAlike(structured: bool, start: nat, lasers: nat, run: Run, rounded: Run, b: Block, points: seq<Point>, points': seq<Point>)
    requires 0 < lasers <= MAX_LASER_NUM && RingsBelow(b.points, lasers) && Alike(run, rounded)
    requires Conserves(structured, lasers, run, points) && Conserves(structured, lasers, rounded, points')
    ensures RingsBelow(RoundBlock(b).points, lasers)
    ensures Alike(Extend(start, lasers, run, b), Extend(start, lasers, rounded, RoundBlock(b)))
  {
    SameCut(structured, start, lasers, run, rounded, b, points, points');
    RoundPointsJoin(run.pending, b.points);
    assert RoundLists(run.batches + [run.pending]) == RoundLists(run.batches) + [RoundPoints(run.pending)];
  }

  lemma RoundedLasers(blocks: seq<Block>, lasers: nat)
    requires Lasers(blocks, lasers)
    ensures Lasers(RoundBlocks(blocks), lasers)
  {
    forall i | 0 <= i < |blocks|
      ensures RingsBelow(RoundBlocks(blocks)[i].points, lasers)
    {
      assert RingsBelow(blocks[i].points, lasers);
    }
  }

  lemma {:induction false} RunsAlike(structured: bool, start: nat, lasers: nat, blocks: seq<Block>)
    requires Lasers(blocks, lasers) && lasers > 0
    ensures Lasers(RoundBlocks(blocks), lasers)
    ensures Alike(RunBlocks(structured, start, lasers, blocks), RunBlocks(structured, start, lasers, RoundBlocks(blocks)))
  {
    RoundedLasers(blocks, lasers);
    if blocks != [] {
      var rest := Front(blocks);
      RunsAlike(structured, start, lasers, rest);
      RunConserves(structured, start, lasers, rest);
      RunConserves(structured, start, lasers, RoundBlocks(rest));
      ExtendAlike(structured, start, lasers, RunBlocks(structured, start, lasers, rest),
                  RunBlocks(structured, start, lasers, RoundBlocks(rest)), Last(blocks),
                  PointsOf(rest), PointsOf(RoundBlocks(rest)));
      assert Front(RoundBlocks(blocks)) == RoundBlocks(rest);
    }
  }

  /** Rounding the stamps of a block stream rounds the stamps of its clouds and changes nothing else. */
  lemma RoundedClouds(structured: bool, start: nat, lasers: nat, blocks: seq<Block>)
    requires Lasers(blocks, lasers) && lasers > 0
    ensures Lasers(RoundBlocks(blocks), lasers)
    ensures RunBlocks(structured, start, lasers, RoundBlocks(blocks)).clouds
         == RoundLists(RunBlocks(structured, start, lasers, blocks).clouds)
  {
    RunsAlike(structured, start, lasers, blocks);
    var run, rounded := RunBlocks(structured, start, lasers, blocks), RunBlocks(structured, start, lasers, RoundBlocks(blocks));
    RunConserves(structured, start, lasers, blocks);
    RunConserves(structured, start, lasers, RoundBlocks(blocks));
    CloudsFromBatches(structured, lasers, run, rounded);
  }

  lemma CloudsFromBatches(structured: bool, lasers: nat, run: Run, rounded: Run)
    requires rounded.batches == RoundLists(run.batches)
    requires |run.clouds| == |run.batches| && |rounded.clouds| == |rounded.batches|
    requires forall k :: 0 <= k < |run.clouds| ==> run.clouds[k] == Emitted(structured, run.batches[k], lasers)
    requires forall k :: 0 <= k < |rounded.clouds| ==> rounded.clouds[k] == Emitted(structured, rounded.batches[k], lasers)
    ensures rounded.clouds == RoundLists(run.clouds)
  {
    forall k | 0 <= k < |run.clouds|
      ensures rounded.clouds[k] == RoundPoints(run.clouds[k])
    {
      EmittedOfRounded(structured, run.batches[k], lasers);
    }
  }

  // ------------------------------------------------- from packets to blocks

  lemma {:induction false} ReplayedUnits(p: Packet, xt: XtData, b: nat, n: nat)
    requires p.stamp.Finite? && b < |xt.blocks| && n <= |xt.blocks[b].units|
    ensures UnitPoints(Replayed(p), xt, b, n) == RoundPoints(UnitPoints(p, xt, b, n))
  {
    if n > 0 {
      ReplayedUnits(p, xt, b, n - 1);
      RoundPointsSnoc(UnitPoints(p, xt, b, n - 1), UnitPoint(p, xt, b, n - 1));
    }
  }

  lemma {:induction false} ReplayedPacketBlocks(p: Packet, xt: XtData, k: nat)
    requires p.stamp.Finite? && k <= |xt.blocks|
    ensures PacketBlocks(Replayed(p), xt, k) == RoundBlocks(PacketBlocks(p, xt, k))
  {
    if k > 0 {
      ReplayedPacketBlocks(p, xt, k - 1);
      ReplayedUnits(p, xt, k - 1, |xt.blocks[k - 1].units|);
    }
  }

  lemma {:induction false} ReplayedBlocks(size: nat, packets: seq<Packet>)
    ensures BlocksOf(size, ReplayedAll(packets)) == RoundBlocks(BlocksOf(size, packets))
  {
    if packets != [] {
      ReplayedBlocks(size, Front(packets));
      assert Front(ReplayedAll(packets)) == ReplayedAll(Front(packets));
      var p := Last(packets);
      if p.stamp.Finite? && Layout(size, p).Some? {
        ReplayedPacketBlocks(p, Layout(size, p).value, |Layout(size, p).value.blocks|);
      }
      RoundBlocksJoin(BlocksOf(size, Front(packets)), BlocksOfOne(size, p));
    }
  }

  lemma RoundBlocksJoin(a: seq<Block>, b: seq<Block>)
    ensures RoundBlocks(a + b) == RoundBlocks(a) + RoundBlocks(b)
  {
  }

  /**
   A replayed recording is cut into the very clouds of the recording, in both
   buffer forms: same points in the same order, each stamp rounded down.
   */
  lemma ReplayGivesSameClouds(setup: Setup, packets: seq<Packet>)
    requires setup.Valid()
    ensures Lasers(BlocksOf(setup.packetSize, packets), LasersOf(setup.packetSize))
    ensures var lasers := LasersOf(setup.packetSize);
            var again := BlocksOf(setup.packetSize, ReplayedAll(packets));
            && Lasers(again, lasers)
            && RunBlocks(setup.structured, setup.startAngle, lasers, again).clouds
               == RoundLists(RunBlocks(setup.structured, setup.startAngle, lasers, BlocksOf(setup.packetSize, packets)).clouds)
  {
    BlocksSmall(setup.packetSize, packets);
    ReplayedBlocks(setup.packetSize, packets);
    RoundedClouds(setup.structured, setup.startAngle, LasersOf(setup.packetSize), BlocksOf(setup.packetSize, packets));
  }
}
