/**
 Runs of the frame builder over the blocks of accepted packets: what it has
 emitted and what it holds, related to the block stream and to the packets.
 */
module FrameRuns {
  import opened Common
  import opened XtPacket
  import opened FrameSplitter
  import opened Revolutions
  import opened XtFrames

  /** The laser count of the configured model's layout. */
  function LasersOf(size: nat): nat {
    if size == XT16_PACKET_SIZE then 16 else 32
  }

  lemma LasersFixedBySize(p: Packet, xt: XtData, size: nat)
    requires SupportedSize(size) && |p.data| == size && DecodeXt(p.data) == Some(xt)
    ensures xt.laserNumber == LasersOf(size)
  {
    LayoutIsUnique(size, p.data[7], p.data[6]);
  }

  function Clouds(emissions: seq<Emission>): seq<seq<Point>> {
    seq(|emissions|, i requires 0 <= i < |emissions| => emissions[i].cloud)
  }

  /** The recorded packets of each emitted scan, its correction packet left off. */
  function Recorded(emissions: seq<Emission>): seq<seq<RawPacket>> {
    seq(|emissions|, i requires 0 <= i < |emissions| =>
      if emissions[i].scan == [] then [] else Front(emissions[i].scan))
  }

  ghost predicate WellEmitted(setup: Setup, e: Emission)
    requires setup.Valid()
  {
    && e.cloud != [] && e.stamp == e.cloud[0].timestamp
    && e.scan != [] && Last(e.scan) == CorrectionPacket(setup, LasersOf(setup.packetSize))
  }

  /** The splitter and the clouds are those of the block stream; the scans hold what arrived. */
  ghost predicate FrameInv(setup: Setup, f: FrameState, emissions: seq<Emission>, blocks: seq<Block>, arrived: seq<RawPacket>) {
    && FrameOk(setup, f) && Lasers(blocks, LasersOf(setup.packetSize))
    && f.splitter == RunBlocks(setup.structured, setup.startAngle, LasersOf(setup.packetSize), blocks).splitter
    && Clouds(emissions) == RunBlocks(setup.structured, setup.startAngle, LasersOf(setup.packetSize), blocks).clouds
    && Flatten(Recorded(emissions)) + f.scan == arrived
    && forall i :: 0 <= i < |emissions| ==> WellEmitted(setup, emissions[i])
  }

  lemma FreshFrame(setup: Setup)
    requires setup.Valid()
    ensures FrameInv(setup, FrameState(Fresh(setup.structured), []), [], [], [])
  {
  }

  lemma PacketArrives(setup: Setup, f: FrameState, emissions: seq<Emission>, blocks: seq<Block>, arrived: seq<RawPacket>, p: Packet)
    requires FrameInv(setup, f, emissions, blocks, arrived) && p.stamp.Finite?
    ensures FrameInv(setup, OnArrival(f, p), emissions, blocks, arrived + [Raw(p)])
  {
  }

  /** What one block adds: nothing, or one emission that carries the whole scan. */
  lemma BlockOutcome(setup: Setup, f: FrameState, p: Packet, xt: XtData, b: nat, pending: seq<Point>)
    requires FrameOk(setup, f) && Decoded(p, xt) && b < |xt.blocks|
    requires Holds(f.splitter.buffer, pending, xt.laserNumber)
    ensures RingsBelow(BlockPoints(p, xt, b), xt.laserNumber)
    ensures var (s, cloud) := Split(setup.startAngle, xt.laserNumber, f.splitter, SensorBlock(p, xt, b));
            && OnBlock(setup, f, p, xt, b).0 == FrameState(s, if cloud.Some? then [] else f.scan)
            && OnBlock(setup, f, p, xt, b).1
               == (if cloud.None? then []
                   else [Emission(cloud.value, cloud.value[0].timestamp, f.scan + [CorrectionPacket(setup, xt.laserNumber)])])
  {
    BlockPointsShape(p, xt, b);
    SplitConserves(setup.startAngle, xt.laserNumber, f.splitter, SensorBlock(p, xt, b), pending);
  }

  lemma EmissionJoins(setup: Setup, emissions: seq<Emission>, e: Emission, scan: seq<RawPacket>, correction: RawPacket)
    requires e.scan == scan + [correction]
    ensures Clouds(emissions + [e]) == Clouds(emissions) + [e.cloud]
    ensures Flatten(Recorded(emissions + [e])) == Flatten(Recorded(emissions)) + scan
  {
    assert Front(e.scan) == scan;
    assert Recorded(emissions + [e]) == Recorded(emissions) + [scan];
    FlattenSnoc(Recorded(emissions), scan);
  }

  lemma EmissionKeepsInv(setup: Setup, f: FrameState, emissions: seq<Emission>, blocks: seq<Block>, arrived: seq<RawPacket>,
                         block: Block, g: FrameState, e: Emission)
    requires FrameInv(setup, f, emissions, blocks, arrived)
    requires FrameOk(setup, g) && RingsBelow(block.points, LasersOf(setup.packetSize))
    requires var (s, cloud) := Split(setup.startAngle, LasersOf(setup.packetSize), f.splitter, block);
             g == FrameState(s, []) && cloud == Some(e.cloud)
    requires e.scan == f.scan + [CorrectionPacket(setup, LasersOf(setup.packetSize))] && WellEmitted(setup, e)
    ensures FrameInv(setup, g, emissions + [e], blocks + [block], arrived)
  {
    var lasers := LasersOf(setup.packetSize);
    RunSnoc(setup.structured, setup.startAngle, lasers, blocks, block);
    EmissionJoins(setup, emissions, e, f.scan, CorrectionPacket(setup, lasers));
    assert arrived + [] == arrived;
  }

  /** One block of an accepted packet. */
  lemma BlockKeepsInv(setup: Setup, f: FrameState, emissions: seq<Emission>, blocks: seq<Block>, arrived: seq<RawPacket>,
                      p: Packet, xt: XtData, b: nat)
    requires FrameInv(setup, f, emissions, blocks, arrived)
    requires Decoded(p, xt) && b < |xt.blocks| && xt.laserNumber == LasersOf(setup.packetSize)
    ensures var (g, now) := OnBlock(setup, f, p, xt, b);
            && FrameInv(setup, g, emissions + now, blocks + [SensorBlock(p, xt, b)], arrived)
            && |now| <= 1
  {
    var lasers, block := xt.laserNumber as nat, SensorBlock(p, xt, b);
    var run := RunBlocks(setup.structured, setup.startAngle, lasers, blocks);
    RunConserves(setup.structured, setup.startAngle, lasers, blocks);
    BlockOutcome(setup, f, p, xt, b, run.pending);
    OnBlockOk(setup, f, p, xt, b);
    var (g, now) := OnBlock(setup, f, p, xt, b);
    if now == [] {
      RunSnoc(setup.structured, setup.startAngle, lasers, blocks, block);
      assert emissions + now == emissions;
    } else {
      SplitConserves(setup.startAngle, lasers, f.splitter, block, run.pending);
      EmissionKeepsInv(setup, f, emissions, blocks, arrived, block, g, now[0]);
    }
  }

  lemma RunSnoc(structured: bool, start: nat, lasers: nat, blocks: seq<Block>, b: Block)
    requires Lasers(blocks, lasers) && RingsBelow(b.points, lasers)
    ensures Lasers(blocks + [b], lasers)
    ensures RunBlocks(structured, start, lasers, blocks + [b]) == Extend(start, lasers, RunBlocks(structured, start, lasers, blocks), b)
  {
    assert Front(blocks + [b]) == blocks && Last(blocks + [b]) == b;
  }
}
