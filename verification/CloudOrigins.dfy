/**
 In which packets clouds begin. A cloud is stamped with the reception time of
 the packet that its first point comes from; this module says which packet that
 is and when no two clouds share it.
 */
module CloudOrigins {
  import opened Common
  import opened FrameSplitter
  import opened Revolutions
  import opened XtPacket
  import opened XtFrames
  import opened FrameRuns
  import opened PacketProcessor
  import opened CloudStamps

  // ------------------------------------------- the blocks that begin a cloud

  /** The blocks in which the emitted clouds begin, and the one in which the next begins. */
  datatype Begun = Begun(closed: seq<nat>, open: Option<nat>)

  /** Block `j`: it may close the cloud begun, and brings a point that leads a cloud or not. */
  function Begin(g: Begun, fires: bool, leads: bool, j: nat): Begun {
    var rest := if fires && g.open.Some? then Begun(g.closed + [g.open.value], None) else g;
    if leads && rest.open.None? then rest.(open := Some(j)) else rest
  }

  /** What the boundary test remembers of the first `j` blocks. */
  function Remembered(blocks: seq<Block>, j: nat): Splitter
    requires j <= |blocks|
  {
    if j == 0 then Splitter(0, 0.0, Flat([])) else Splitter(blocks[j - 1].azimuth, blocks[j - 1].time, Flat([]))
  }

  /** Block `j` fires, as far as azimuths and times decide. */
  predicate FiresAt(start: nat, blocks: seq<Block>, j: nat)
    requires j < |blocks|
  {
    Fires(start, Remembered(blocks, j), blocks[j])
  }

  /** Read off the blocks alone: a block leads if it brings a point, in list form one on ring 0. */
  function Beginnings(structured: bool, start: nat, blocks: seq<Block>): Begun {
    if blocks == [] then Begun([], None)
    else
      Begin(Beginnings(structured, start, Front(blocks)), FiresAt(start, blocks, |blocks| - 1), Open(structured, Last(blocks).points), |blocks| - 1)
  }

  /** The first point of the cloud that `points` make. */
  function Leader(structured: bool, points: seq<Point>): Point
    requires Open(structured, points)
  {
    if structured then OfRing(points, 0)[0] else points[0]
  }

  lemma LeaderJoin(structured: bool, a: seq<Point>, b: seq<Point>)
    ensures Open(structured, a + b) <==> Open(structured, a) || Open(structured, b)
    ensures Open(structured, a) ==> Leader(structured, a + b) == Leader(structured, a)
    ensures !Open(structured, a) && Open(structured, b) ==> Leader(structured, a + b) == Leader(structured, b)
  {
    OfRingConcat(a, b, 0);
    if !structured && a == [] {
      assert a + b == b;
    }
  }

  lemma {:induction false} RegroupedLeader(points: seq<Point>, lasers: nat)
    requires lasers > 0 && OfRing(points, 0) != []
    ensures Regrouped(points, lasers) != [] && Regrouped(points, lasers)[0] == OfRing(points, 0)[0]
  {
    if lasers > 1 {
      RegroupedLeader(points, lasers - 1);
    } else {
      assert Regrouped(points, 0) == [];
      assert Regrouped(points, 1) == [] + OfRing(points, 0);
    }
  }

  lemma CloudLeader(structured: bool, points: seq<Point>, lasers: nat)
    requires lasers > 0 && Open(structured, points)
    ensures Emitted(structured, points, lasers) != []
    ensures Emitted(structured, points, lasers)[0] == Leader(structured, points)
  {
    if structured {
      RegroupedLeader(points, lasers);
    }
  }

  /** Block `j` brings the leader of `points`. */
  ghost predicate LedBy(structured: bool, points: seq<Point>, blocks: seq<Block>, j: nat) {
    && j < |blocks| && Open(structured, blocks[j].points) && Open(structured, points)
    && Leader(structured, points) == Leader(structured, blocks[j].points)
  }

  predicate Below(xs: seq<nat>, bound: nat) {
    forall i :: 0 <= i < |xs| ==> xs[i] < bound
  }

  ghost predicate Increasing(xs: seq<nat>, bound: nat) {
    && Below(xs, bound)
    && (forall i, j :: 0 <= i < j < |xs| ==> xs[i] < xs[j])
  }

  /** The batches of a run begin in the blocks of `g`, and so does what is pending. */
  ghost predicate Begins(structured: bool, blocks: seq<Block>, run: Run, g: Begun) {
    && |g.closed| == |run.batches|
    && (forall k :: 0 <= k < |g.closed| ==> LedBy(structured, run.batches[k], blocks, g.closed[k]))
    && (g.open.Some? <==> Open(structured, run.pending))
    && (g.open.Some? ==> LedBy(structured, run.pending, blocks, g.open.value))
    && Increasing(g.closed, if g.open.Some? then g.open.value else |blocks|)
  }

  /** A block added to the run, whether it closes a cloud or not. */
  ghost predicate BlockJoins(structured: bool, run: Run, next: Run, points: seq<Point>, fires: bool) {
    var cut := fires && Open(structured, run.pending);
    && next.batches == run.batches + (if cut then [run.pending] else [])
    && next.pending == (if cut then [] else run.pending) + points
  }

  lemma LedByStays(structured: bool, points: seq<Point>, blocks: seq<Block>, b: Block, j: nat)
    requires LedBy(structured, points, blocks, j)
    ensures LedBy(structured, points, blocks + [b], j)
  {
  }

  lemma BatchesStayLed(structured: bool, blocks: seq<Block>, b: Block, run: Run, g: Begun)
    requires Begins(structured, blocks, run, g)
    ensures forall k :: 0 <= k < |g.closed| ==> LedBy(structured, run.batches[k], blocks + [b], g.closed[k])
  {
    forall k | 0 <= k < |g.closed|
      ensures LedBy(structured, run.batches[k], blocks + [b], g.closed[k])
    {
      LedByStays(structured, run.batches[k], blocks, b, g.closed[k]);
    }
  }

  /** A block that closes no cloud. */
  lemma JoinsPending(structured: bool, blocks: seq<Block>, b: Block, run: Run, g: Begun, next: Run)
    requires Begins(structured, blocks, run, g)
    requires next.batches == run.batches && next.pending == run.pending + b.points
    ensures Begins(structured, blocks + [b], next, Begin(g, false, Open(structured, b.points), |blocks|))
  {
    BatchesStayLed(structured, blocks, b, run, g);
    LeaderJoin(structured, run.pending, b.points);
    if g.open.Some? {
      LedByStays(structured, run.pending, blocks, b, g.open.value);
    }
  }

  /** The cloud begun is closed; nothing is pending. */
  lemma ClosesPending(structured: bool, blocks: seq<Block>, run: Run, g: Begun, closed: Run)
    requires Begins(structured, blocks, run, g) && g.open.Some?
    requires closed.batches == run.batches + [run.pending] && closed.pending == []
    ensures Begins(structured, blocks, closed, Begun(g.closed + [g.open.value], None))
  {
    assert OfRing([], 0) == [];
  }

  lemma BeginsStep(structured: bool, blocks: seq<Block>, b: Block, run: Run, g: Begun, next: Run, fires: bool)
    requires Begins(structured, blocks, run, g) && BlockJoins(structured, run, next, b.points, fires)
    ensures Begins(structured, blocks + [b], next, Begin(g, fires, Open(structured, b.points), |blocks|))
  {
    if fires && g.open.Some? {
      var closed := Run(run.splitter, run.clouds, run.batches + [run.pending], []);
      ClosesPending(structured, blocks, run, g, closed);
      JoinsPending(structured, blocks, b, closed, Begun(g.closed + [g.open.value], None), next);
    } else {
      JoinsPending(structured, blocks, b, run, g, next);
    }
  }

  lemma FiresByBlocks(structured: bool, start: nat, lasers: nat, blocks: seq<Block>)
    requires blocks != [] && Lasers(Front(blocks), lasers)
    ensures Fires(start, RunBlocks(structured, start, lasers, Front(blocks)).splitter, Last(blocks)) <==> FiresAt(start, blocks, |blocks| - 1)
  {
    if Front(blocks) != [] {
      LastSeen(structured, start, lasers, Front(blocks));
    }
  }

  lemma BeginningsSnoc(structured: bool, start: nat, blocks: seq<Block>, b: Block)
    ensures Beginnings(structured, start, blocks + [b])
         == Begin(Beginnings(structured, start, blocks), FiresAt(start, blocks + [b], |blocks|), Open(structured, b.points), |blocks|)
  {
    assert Front(blocks + [b]) == blocks && Last(blocks + [b]) == b;
  }

  lemma NextBeginsInBlock(structured: bool, start: nat, lasers: nat, rest: seq<Block>, b: Block, run: Run, g: Begun,
                          points: seq<Point>, fires: bool)
    requires 0 < lasers <= MAX_LASER_NUM && RingsBelow(b.points, lasers) && Conserves(structured, lasers, run, points)
    requires Begins(structured, rest, run, g) && (Fires(start, run.splitter, b) <==> fires)
    ensures Begins(structured, rest + [b], Extend(start, lasers, run, b), Begin(g, fires, Open(structured, b.points), |rest|))
  {
    NextJoins(structured, start, lasers, run, b, points, fires);
    BeginsStep(structured, rest, b, run, g, Extend(start, lasers, run, b), fires);
  }

  lemma NextJoins(structured: bool, start: nat, lasers: nat, run: Run, b: Block, points: seq<Point>, fires: bool)
    requires 0 < lasers <= MAX_LASER_NUM && RingsBelow(b.points, lasers) && Conserves(structured, lasers, run, points)
    requires Fires(start, run.splitter, b) <==> fires
    ensures BlockJoins(structured, run, Extend(start, lasers, run, b), b.points, fires)
  {
    NextRun(structured, start, lasers, run, b, fires);
    assert [] + b.points == b.points;
  }

  lemma OneMoreBegins(structured: bool, start: nat, lasers: nat, blocks: seq<Block>, b: Block)
    requires Lasers(blocks, lasers) && lasers > 0 && RingsBelow(b.points, lasers)
    requires Begins(structured, blocks, RunBlocks(structured, start, lasers, blocks), Beginnings(structured, start, blocks))
    ensures Lasers(blocks + [b], lasers)
    ensures Begins(structured, blocks + [b], RunBlocks(structured, start, lasers, blocks + [b]), Beginnings(structured, start, blocks + [b]))
  {
    assert Front(blocks + [b]) == blocks && Last(blocks + [b]) == b;
    var run, fires := RunBlocks(structured, start, lasers, blocks), FiresAt(start, blocks + [b], |blocks|);
    RunConserves(structured, start, lasers, blocks);
    FiresByBlocks(structured, start, lasers, blocks + [b]);
    NextBeginsInBlock(structured, start, lasers, blocks, b, run, Beginnings(structured, start, blocks), PointsOf(blocks), fires);
    BeginningsSnoc(structured, start, blocks, b);
    RunSnoc(structured, start, lasers, blocks, b);
  }

  /** For any blocks, in both buffer forms: the clouds of a run begin in just these blocks, in increasing order. */
  lemma {:induction false} CloudsBeginInBlocks(structured: bool, start: nat, lasers: nat, blocks: seq<Block>)
    requires Lasers(blocks, lasers) && lasers > 0
    ensures Begins(structured, blocks, RunBlocks(structured, start, lasers, blocks), Beginnings(structured, start, blocks))
  {
    if blocks == [] {
      assert OfRing([], 0) == [];
    } else {
      CloudsBeginInBlocks(structured, start, lasers, Front(blocks));
      OneMoreBegins(structured, start, lasers, Front(blocks), Last(blocks));
      assert blocks == Front(blocks) + [Last(blocks)];
    }
  }

  // ------------------------------------------------- from blocks to packets

  /** How many blocks a packet of the configured model has. */
  function BlocksPerPacket(size: nat): nat {
    if size == XTM_PACKET_SIZE then 6 else 8
  }

  /** The position of the packet that block `j` of a stream comes from. */
  function PacketOf(size: nat, j: nat): nat {
    j / BlocksPerPacket(size)
  }

  lemma BlockCountFixedBySize(size: nat, p: Packet)
    requires SupportedSize(size) && p.stamp.Finite? && Layout(size, p).Some?
    ensures |Layout(size, p).value.blocks| == BlocksPerPacket(size)
  {
    LayoutIsUnique(size, p.data[7], p.data[6]);
  }

  lemma {:induction false} PacketBlockAt(p: Packet, xt: XtData, k: nat, b: nat)
    requires p.stamp.Finite? && b < k <= |xt.blocks|
    ensures |PacketBlocks(p, xt, k)| == k && PacketBlocks(p, xt, k)[b] == SensorBlock(p, xt, b)
  {
    if k > 1 {
      PacketBlockAt(p, xt, k - 1, if b < k - 1 then b else 0);
    }
  }

  /** Every block of the stream, by the position of its packet: all its points carry that packet's time. */
  ghost predicate BlocksAt(size: nat, blocks: seq<Block>, packets: seq<Packet>) {
    && |blocks| == Strides(|packets|, BlocksPerPacket(size))
    && forall j :: 0 <= j < |blocks| ==> BlockAtPacket(size, blocks[j], packets, j)
  }

  ghost predicate BlockAtPacket(size: nat, b: Block, packets: seq<Packet>, j: nat) {
    PacketOf(size, j) < |packets| && AllAt(b.points, TimeOf(packets[PacketOf(size, j)]))
  }

  lemma DivOfStride(i: nat, n: nat, b: nat)
    requires b < n
    ensures (Strides(i, n) + b) / n == i
  {
    StridesIsProduct(i, n);
    LowestDigit(b, i, n);
    assert Strides(i, n) + b == b + n * i;
  }

  lemma OnePacketBlocks(size: nat, p: Packet, b: nat)
    requires SupportedSize(size) && p.stamp.Finite? && Layout(size, p).Some?
    ensures |BlocksOfOne(size, p)| == BlocksPerPacket(size)
    ensures b < BlocksPerPacket(size) ==> AllAt(BlocksOfOne(size, p)[b].points, TimeOf(p))
  {
    var xt, n := Layout(size, p).value, BlocksPerPacket(size);
    BlockCountFixedBySize(size, p);
    PacketBlockAt(p, xt, n, if b < n then b else 0);
    if b < n {
      DecodeGivesShape(p, xt);
      BlockPointsShape(p, xt, b);
    }
  }

  lemma AtLastPacket(size: nat, packets: seq<Packet>, p: Packet, block: Block, b: nat)
    requires b < BlocksPerPacket(size) && AllAt(block.points, TimeOf(p))
    ensures BlockAtPacket(size, block, packets + [p], Strides(|packets|, BlocksPerPacket(size)) + b)
  {
    DivOfStride(|packets|, BlocksPerPacket(size), b);
  }

  lemma BlocksJoin(size: nat, before: seq<Block>, rest: seq<Packet>, one: seq<Block>, p: Packet)
    requires BlocksAt(size, before, rest) && |one| == BlocksPerPacket(size)
    requires forall b :: 0 <= b < |one| ==> BlockAtPacket(size, one[b], rest + [p], |before| + b)
    ensures BlocksAt(size, before + one, rest + [p])
  {
    forall j | 0 <= j < |before + one|
      ensures BlockAtPacket(size, (before + one)[j], rest + [p], j)
    {
      if j < |before| {
        assert BlockAtPacket(size, before[j], rest, j);
      } else {
        assert BlockAtPacket(size, one[j - |before|], rest + [p], |before| + (j - |before|));
      }
    }
  }

  lemma OneMorePacket(size: nat, rest: seq<Packet>, p: Packet)
    requires SupportedSize(size) && p.stamp.Finite? && Layout(size, p).Some? && BlocksAt(size, BlocksOf(size, rest), rest)
    ensures BlocksAt(size, BlocksOf(size, rest + [p]), rest + [p])
  {
    OnePacketBlocks(size, p, 0);
    var before, one := BlocksOf(size, rest), BlocksOfOne(size, p);
    forall b | 0 <= b < |one|
      ensures BlockAtPacket(size, one[b], rest + [p], |before| + b)
    {
      OnePacketBlocks(size, p, b);
      AtLastPacket(size, rest, p, one[b], b);
    }
    BlocksJoin(size, before, rest, one, p);
    BlocksSnoc(size, rest, p);
  }

  lemma FrontDecodes(size: nat, packets: seq<Packet>)
    requires packets != [] && AllDecode(size, packets)
    ensures AllDecode(size, Front(packets)) && Last(packets).stamp.Finite? && Layout(size, Last(packets)).Some?
    ensures packets == Front(packets) + [Last(packets)]
  {
  }

  lemma {:induction false} BlocksComeFromPackets(size: nat, packets: seq<Packet>)
    requires SupportedSize(size) && AllDecode(size, packets)
    ensures BlocksAt(size, BlocksOf(size, packets), packets)
  {
    if packets != [] {
      FrontDecodes(size, packets);
      BlocksComeFromPackets(size, Front(packets));
      LastPacketJoins(size, packets, Front(packets), Last(packets));
    }
  }

  lemma LastPacketJoins(size: nat, packets: seq<Packet>, rest: seq<Packet>, p: Packet)
    requires SupportedSize(size) && packets == rest + [p] && p.stamp.Finite? && Layout(size, p).Some?
    requires BlocksAt(size, BlocksOf(size, rest), rest)
    ensures BlocksAt(size, BlocksOf(size, packets), packets)
  {
    OneMorePacket(size, rest, p);
  }

  /** The packet positions in which the clouds emitted so far begin. */
  function Origins(size: nat, g: Begun): seq<nat> {
    seq(|g.closed|, k requires 0 <= k < |g.closed| => PacketOf(size, g.closed[k]))
  }

  /** No two clouds in a row begin in one packet. */
  ghost predicate BeginApart(origins: seq<nat>) {
    forall k :: 0 < k < |origins| ==> origins[k - 1] != origins[k]
  }

  ghost predicate NeverBack(xs: seq<nat>, bound: nat) {
    && Below(xs, bound)
    && (forall i, j :: 0 <= i < j < |xs| ==> xs[i] <= xs[j])
  }

  lemma DivMonotone(a: nat, b: nat, n: nat)
    requires n > 0 && a <= b
    ensures a / n <= b / n
  {
    DivBounds(a, n);
    DivBounds(b, n);
    MulMonotone(b / n + 1, a / n, n);
  }

  lemma OriginsNeverBack(size: nat, g: Begun, bound: nat, packets: nat)
    requires Increasing(g.closed, bound) && bound <= Strides(packets, BlocksPerPacket(size))
    ensures NeverBack(Origins(size, g), packets)
  {
    var n, origins := BlocksPerPacket(size), Origins(size, g);
    forall i | 0 <= i < |origins|
      ensures origins[i] < packets
    {
      StridesIsProduct(packets, n);
      DivBounds(g.closed[i], n);
      MulMonotone(packets, g.closed[i] / n, n);
    }
    forall i, j | 0 <= i < j < |origins|
      ensures origins[i] <= origins[j]
    {
      DivMonotone(g.closed[i], g.closed[j], n);
    }
  }

  // ------------------------------------------ picking from a sequence

  function Picked<T>(xs: seq<T>, positions: seq<nat>): seq<T>
    requires Below(positions, |xs|)
  {
    seq(|positions|, k requires 0 <= k < |positions| => xs[positions[k]])
  }

  lemma PickedLast<T>(rest: seq<T>, x: T, positions: seq<nat>)
    requires Increasing(positions, |rest| + 1) && positions != [] && Last(positions) == |rest|
    ensures Increasing(Front(positions), |rest|)
    ensures Picked(rest + [x], positions) == Picked(rest, Front(positions)) + [x]
  {
    assert forall i :: 0 <= i < |positions| - 1 ==> positions[i] < Last(positions);
  }

  lemma PickedEarlier<T>(rest: seq<T>, x: T, positions: seq<nat>)
    requires Increasing(positions, |rest| + 1) && (positions != [] ==> Last(positions) < |rest|)
    ensures Increasing(positions, |rest|)
    ensures Picked(rest + [x], positions) == Picked(rest, positions)
  {
    assert forall i :: 0 <= i < |positions| ==> positions[i] <= Last(positions);
  }

  lemma {:induction false} PickedInOrder<T>(xs: seq<T>, positions: seq<nat>)
    requires Below(positions, |xs|) && Increasing(positions, |xs|)
    ensures Subsequence(Picked(xs, positions), xs)
    decreases |xs|
  {
    if positions != [] {
      assert positions[0] < |xs|;
      var rest, x := Front(xs), Last(xs);
      assert xs == rest + [x];
      if Last(positions) == |rest| {
        PickedLast(rest, x, positions);
        PickedInOrder(rest, Front(positions));
        SubsequenceTake(Picked(rest, Front(positions)), rest, x);
      } else {
        PickedEarlier(rest, x, positions);
        PickedInOrder(rest, positions);
        SubsequenceSkip(Picked(rest, positions), rest, x);
      }
    }
  }

  lemma {:induction false} ApartMeansIncreasing(xs: seq<nat>, bound: nat)
    requires NeverBack(xs, bound) && BeginApart(xs)
    ensures Increasing(xs, bound)
  {
    forall i, j | 0 <= i < j < |xs|
      ensures xs[i] < xs[j]
    {
      assert xs[i] <= xs[j - 1] && xs[j - 1] != xs[j];
    }
  }

  ghost predicate Distinct<T>(xs: seq<T>) {
    forall i, j :: 0 <= i < j < |xs| ==> xs[i] != xs[j]
  }

  lemma {:induction false} SubsequenceDistinct<T>(xs: seq<T>, ys: seq<T>)
    requires Subsequence(xs, ys) && Distinct(ys)
    ensures Distinct(xs)
    decreases |ys|
  {
    if xs != [] {
      if Last(xs) == Last(ys) && Subsequence(Front(xs), Front(ys)) {
        SubsequenceDistinct(Front(xs), Front(ys));
        LastIsNew(xs, ys);
      } else {
        SubsequenceDistinct(xs, Front(ys));
      }
    }
  }

  lemma LastIsNew<T>(xs: seq<T>, ys: seq<T>)
    requires xs != [] && ys != [] && Last(xs) == Last(ys) && Subsequence(Front(xs), Front(ys)) && Distinct(ys)
    requires Distinct(Front(xs))
    ensures Distinct(xs)
  {
    SubsequenceMultiset(Front(xs), Front(ys));
    forall i | 0 <= i < |xs| - 1
      ensures xs[i] != Last(xs)
    {
      assert Front(xs)[i] in multiset(Front(xs));
      assert xs[i] in Front(ys);
    }
  }

  /**
   What a never-falling choice of positions picks is a subsequence exactly when
   no position is picked twice in a row, if the values are distinct; if they are
   not, this direction of it still holds.
   */
  lemma PickedIff<T>(xs: seq<T>, positions: seq<nat>)
    requires NeverBack(positions, |xs|)
    ensures BeginApart(positions) ==> Subsequence(Picked(xs, positions), xs)
    ensures Distinct(xs) ==> (Subsequence(Picked(xs, positions), xs) <==> BeginApart(positions))
  {
    if BeginApart(positions) {
      ApartMeansIncreasing(positions, |xs|);
      PickedInOrder(xs, positions);
    }
    if Distinct(xs) && Subsequence(Picked(xs, positions), xs) {
      SubsequenceDistinct(Picked(xs, positions), xs);
      forall k | 0 < k < |positions|
        ensures positions[k - 1] != positions[k]
      {
        assert Picked(xs, positions)[k - 1] != Picked(xs, positions)[k];
      }
    }
  }

  // ------------------------------------------------------ stamps and packets

  /** The stamps that the callback gets for these clouds. */
  function CloudTimes(clouds: seq<seq<Point>>): seq<real> {
    seq(|clouds|, k requires 0 <= k < |clouds| => if clouds[k] == [] then 0.0 else clouds[k][0].timestamp)
  }

  lemma StampsOfEmissions(setup: Setup, f: FrameState, emissions: seq<Emission>, blocks: seq<Block>, arrived: seq<RawPacket>)
    requires FrameInv(setup, f, emissions, blocks, arrived)
    ensures EmissionStamps(emissions)
         == CloudTimes(RunBlocks(setup.structured, setup.startAngle, LasersOf(setup.packetSize), blocks).clouds)
  {
    forall k | 0 <= k < |emissions|
      ensures EmissionStamps(emissions)[k] == CloudTimes(Clouds(emissions))[k]
    {
      assert WellEmitted(setup, emissions[k]);
    }
  }

  /** The blocks are those of these packets, up to a part of the stream not reached yet. */
  ghost predicate FromPackets(size: nat, blocks: seq<Block>, packets: seq<Packet>) {
    SupportedSize(size) && AllDecode(size, packets) && blocks <= BlocksOf(size, packets)
  }

  lemma LeaderTime(structured: bool, points: seq<Point>, t: real)
    requires AllAt(points, t) && Open(structured, points)
    ensures Leader(structured, points).timestamp == t
  {
    OfRingMembers(points, 0);
    assert Leader(structured, points) in points;
  }

  /** Cloud `k` is stamped with the time of the packet that its first block comes from. */
  lemma CloudTimeIsPacketTime(structured: bool, start: nat, size: nat, blocks: seq<Block>, packets: seq<Packet>, k: nat)
    requires FromPackets(size, blocks, packets) && Lasers(blocks, LasersOf(size))
    requires k < |Beginnings(structured, start, blocks).closed|
    ensures var (run, g) := (RunBlocks(structured, start, LasersOf(size), blocks), Beginnings(structured, start, blocks));
            && k < |run.clouds| && run.clouds[k] != []
            && PacketOf(size, g.closed[k]) < |packets|
            && run.clouds[k][0].timestamp == TimeOf(packets[PacketOf(size, g.closed[k])])
  {
    var run, g := RunBlocks(structured, start, LasersOf(size), blocks), Beginnings(structured, start, blocks);
    CloudsBeginInBlocks(structured, start, LasersOf(size), blocks);
    RunConserves(structured, start, LasersOf(size), blocks);
    var j := g.closed[k];
    assert LedBy(structured, run.batches[k], blocks, j);
    CloudLeader(structured, run.batches[k], LasersOf(size));
    BlocksComeFromPackets(size, packets);
    assert BlockAtPacket(size, BlocksOf(size, packets)[j], packets, j);
    LeaderTime(structured, blocks[j].points, TimeOf(packets[PacketOf(size, j)]));
  }

  lemma OriginsInPackets(structured: bool, start: nat, size: nat, blocks: seq<Block>, packets: seq<Packet>)
    requires FromPackets(size, blocks, packets) && Lasers(blocks, LasersOf(size))
    ensures NeverBack(Origins(size, Beginnings(structured, start, blocks)), |packets|)
    ensures |Beginnings(structured, start, blocks).closed| == |RunBlocks(structured, start, LasersOf(size), blocks).clouds|
  {
    var g := Beginnings(structured, start, blocks);
    CloudsBeginInBlocks(structured, start, LasersOf(size), blocks);
    RunConserves(structured, start, LasersOf(size), blocks);
    BlocksComeFromPackets(size, packets);
    OriginsNeverBack(size, g, if g.open.Some? then g.open.value else |blocks|, |packets|);
  }

  /** The cloud stamps of any run pick, never going back, from the reception times of its packets. */
  lemma StampsByPacket(structured: bool, start: nat, size: nat, blocks: seq<Block>, packets: seq<Packet>)
    requires FromPackets(size, blocks, packets) && Lasers(blocks, LasersOf(size))
    ensures var origins := Origins(size, Beginnings(structured, start, blocks));
            && NeverBack(origins, |packets|)
            && CloudTimes(RunBlocks(structured, start, LasersOf(size), blocks).clouds) == Picked(Times(packets), origins)
  {
    var run, g := RunBlocks(structured, start, LasersOf(size), blocks), Beginnings(structured, start, blocks);
    OriginsInPackets(structured, start, size, blocks, packets);
    forall k | 0 <= k < |run.clouds|
      ensures CloudTimes(run.clouds)[k] == Picked(Times(packets), Origins(size, g))[k]
    {
      CloudTimeIsPacketTime(structured, start, size, blocks, packets, k);
    }
  }

  function Positions(n: nat): seq<nat> {
    seq(n, i requires 0 <= i < n => i)
  }

  /**
   The cloud stamps are a subsequence of the packets' reception times if no two
   clouds in a row begin in one packet, and only then when the times differ; by
   position, whatever the times, it holds exactly then.
   */
  lemma StampsFollowPacketsIff(structured: bool, start: nat, size: nat, blocks: seq<Block>, packets: seq<Packet>)
    requires FromPackets(size, blocks, packets) && Lasers(blocks, LasersOf(size))
    ensures var origins := Origins(size, Beginnings(structured, start, blocks));
            var stamps := CloudTimes(RunBlocks(structured, start, LasersOf(size), blocks).clouds);
            && (BeginApart(origins) ==> Subsequence(stamps, Times(packets)))
            && (Distinct(Times(packets)) ==> (Subsequence(stamps, Times(packets)) <==> BeginApart(origins)))
            && (Subsequence(origins, Positions(|packets|)) <==> BeginApart(origins))
  {
    var origins := Origins(size, Beginnings(structured, start, blocks));
    StampsByPacket(structured, start, size, blocks, packets);
    PickedIff(Times(packets), origins);
    PickedIff(Positions(|packets|), origins);
    assert Picked(Positions(|packets|), origins) == origins;
  }

  // ------------------------------------------- when clouds begin apart: cuts

  predicate Leads(structured: bool, blocks: seq<Block>, j: nat)
    requires j < |blocks|
  {
    Open(structured, blocks[j].points)
  }

  ghost predicate LeadsFirst(structured: bool, blocks: seq<Block>, j: nat)
    requires j < |blocks|
  {
    Leads(structured, blocks, j) && forall h :: 0 <= h < j ==> !Leads(structured, blocks, h)
  }

  ghost predicate FiringsLead(structured: bool, start: nat, blocks: seq<Block>) {
    forall j :: 0 <= j < |blocks| && FiresAt(start, blocks, j) ==> Leads(structured, blocks, j)
  }

  ghost predicate CanStart(structured: bool, start: nat, blocks: seq<Block>, j: nat)
    requires j < |blocks|
  {
    FiresAt(start, blocks, j) || LeadsFirst(structured, blocks, j)
  }

  /** Clouds begin in firing blocks, but for the first. */
  ghost predicate StartsAtFirings(structured: bool, start: nat, blocks: seq<Block>, g: Begun) {
    && (forall k :: 0 <= k < |g.closed| ==> g.closed[k] < |blocks| && CanStart(structured, start, blocks, g.closed[k]))
    && (g.open.Some? ==> g.open.value < |blocks| && CanStart(structured, start, blocks, g.open.value))
    && (g.open.None? ==> g.closed == [] && forall h :: 0 <= h < |blocks| ==> !Leads(structured, blocks, h))
  }

  lemma CanStartStays(structured: bool, start: nat, blocks: seq<Block>, b: Block, j: nat)
    requires j < |blocks|
    ensures CanStart(structured, start, blocks + [b], j) <==> CanStart(structured, start, blocks, j)
  {
    assert FiresAt(start, blocks + [b], j) <==> FiresAt(start, blocks, j);
    assert forall h :: 0 <= h <= j ==> (Leads(structured, blocks + [b], h) <==> Leads(structured, blocks, h));
  }

  lemma StartsStep(structured: bool, start: nat, blocks: seq<Block>, b: Block, g: Begun)
    requires StartsAtFirings(structured, start, blocks, g)
    requires FiresAt(start, blocks + [b], |blocks|) ==> Open(structured, b.points)
    ensures StartsAtFirings(structured, start, blocks + [b],
                            Begin(g, FiresAt(start, blocks + [b], |blocks|), Open(structured, b.points), |blocks|))
  {
    var n, all := |blocks|, blocks + [b];
    forall k | 0 <= k < |g.closed|
      ensures CanStart(structured, start, all, g.closed[k])
    {
      CanStartStays(structured, start, blocks, b, g.closed[k]);
    }
    if g.open.Some? {
      CanStartStays(structured, start, blocks, b, g.open.value);
    } else {
      assert forall h :: 0 <= h < n ==> (Leads(structured, all, h) <==> Leads(structured, blocks, h));
    }
    assert Leads(structured, all, n) <==> Open(structured, b.points);
  }

  lemma {:induction false} CloudsStartAtFirings(structured: bool, start: nat, blocks: seq<Block>)
    requires FiringsLead(structured, start, blocks)
    ensures StartsAtFirings(structured, start, blocks, Beginnings(structured, start, blocks))
  {
    if blocks != [] {
      var rest, n := Front(blocks), |blocks| - 1;
      assert blocks == rest + [Last(blocks)];
      assert FiresAt(start, blocks, n) ==> Leads(structured, blocks, n);
      forall j | 0 <= j < |rest| && FiresAt(start, rest, j)
        ensures Leads(structured, rest, j)
      {
        assert FiresAt(start, blocks, j) && Leads(structured, blocks, j);
      }
      CloudsStartAtFirings(structured, start, rest);
      StartsStep(structured, start, rest, Last(blocks), Beginnings(structured, start, rest));
    }
  }

  /** No packet fires twice, and the one that brings the first leading point does not fire behind it. */
  ghost predicate OneCutAPacket(structured: bool, start: nat, size: nat, blocks: seq<Block>) {
    forall i, j :: 0 <= i < j < |blocks| && CanStart(structured, start, blocks, i) && FiresAt(start, blocks, j) ==>
      PacketOf(size, i) != PacketOf(size, j)
  }

  /** If every firing block brings a leading point, one cut a packet keeps the clouds' beginnings apart. */
  lemma OneCutBeginsApart(structured: bool, start: nat, lasers: nat, size: nat, blocks: seq<Block>)
    requires Lasers(blocks, lasers) && lasers > 0
    requires FiringsLead(structured, start, blocks) && OneCutAPacket(structured, start, size, blocks)
    ensures BeginApart(Origins(size, Beginnings(structured, start, blocks)))
  {
    var g := Beginnings(structured, start, blocks);
    CloudsStartAtFirings(structured, start, blocks);
    CloudsBeginInBlocks(structured, start, lasers, blocks);
    forall k | 0 < k < |g.closed|
      ensures Origins(size, g)[k - 1] != Origins(size, g)[k]
    {
      var i, j := g.closed[k - 1], g.closed[k];
      assert i < j && CanStart(structured, start, blocks, i) && CanStart(structured, start, blocks, j);
      assert LedBy(structured, RunBlocks(structured, start, lasers, blocks).batches[k - 1], blocks, i);
      assert Leads(structured, blocks, i);
    }
  }
}
