/**
 Packets of a steadily turning sensor on which the list form of the clouds fails to
 give the revolutions: the only point of the second turn is not on ring 0.
 */
module OffRingTurn {
  import opened Common
  import opened XtPacket
  import opened FrameSplitter
  import opened Revolutions
  import opened XtFrames
  import opened FrameRuns
  import opened PacketProcessor
  import opened CloudStamps
  import opened SamplePackets

  /** Thirty degrees a block, from 1 degree on. */
  function SteadyTurn(n: nat): seq<nat> {
    seq(n, j requires 0 <= j < n => 100 + 3000 * j)
  }

  const POINT_BLOCK := 12      // in packet 1, block 4
  const POINT_RING := 3

  /** Units at no distance, but for one at four metres in one block. */
  function UnitsAt(j: nat): (r: seq<XtUnit>)
    ensures |r| == 16
  {
    seq(16, u requires 0 <= u < 16 => XtUnit(if j == POINT_BLOCK && u == POINT_RING then 1000 else 0, 1, 0))
  }

  function TurnBlocks(k: nat): seq<XtBlock> {
    seq(8, b requires 0 <= b < 8 => XtBlock((100 + 3000 * (8 * k + b)) % CIRCLE, UnitsAt(8 * k + b)))
  }

  function OffRingScript(): seq<seq<XtBlock>> {
    seq(4, k requires 0 <= k < 4 => TurnBlocks(k))
  }

  lemma OffRingPacketsExist()
    ensures exists packets :: AreSamples(packets, OffRingScript())
  {
    forall k | 0 <= k < 4
      ensures Fits16(OffRingScript()[k])
    {
      TurnBlocksFit(k);
    }
    SamplesExist(OffRingScript());
  }

  lemma TurnBlocksFit(k: nat)
    ensures Fits16(TurnBlocks(k))
  {
    forall b | 0 <= b < 8
      ensures |TurnBlocks(k)[b].units| == 16
    {
      assert TurnBlocks(k)[b].units == UnitsAt(8 * k + b);
    }
  }

  /** Block `j` of the stream: in place, without points, but for one block with one point off ring 0. */
  ghost predicate TurnBlock(b: Block, j: nat) {
    && b.azimuth == (100 + 3000 * j) % CIRCLE && b.time == 0.0 && OfRing(b.points, 0) == []
    && (j == POINT_BLOCK ==> b.points != [])
  }

  lemma UnitsOfBlock(p: Packet, xt: XtData, b: nat, j: nat)
    requires p.stamp.Finite? && b < |xt.blocks| && xt.blocks[b].units == UnitsAt(j) && xt.disUnit == SAMPLE_UNIT_SIZE
    ensures OfRing(BlockPoints(p, xt, b), 0) == [] && (j == POINT_BLOCK ==> BlockPoints(p, xt, b) != [])
  {
    var units := xt.blocks[b].units;
    assert forall u :: 0 <= u < 16 ==> (Kept(units[u], xt.disUnit) <==> j == POINT_BLOCK && u == POINT_RING);
    assert OfRing([], 0) == [];
    if j == POINT_BLOCK {
      OnePoint(p, xt, b, 16, POINT_RING);
      var only := UnitPoint(p, xt, b, POINT_RING);
      assert Front([only]) == [] && OfRing([only], 0) == [];
    } else {
      NoPoints(p, xt, b, 16);
    }
  }

  lemma BlockTurns(p: Packet, xt: XtData, k: nat, b: nat)
    requires p.stamp.Finite? && p.sensorTime == 0.0 && b < 8 && xt.blocks == TurnBlocks(k) && xt.disUnit == SAMPLE_UNIT_SIZE
    ensures TurnBlock(SensorBlock(p, xt, b), 8 * k + b)
  {
    UnitsOfBlock(p, xt, b, 8 * k + b);
  }

  lemma PacketTurnBlock(packets: seq<Packet>, k: nat, b: nat)
    requires AreSamples(packets, OffRingScript()) && k < 4 && b < 8
    ensures |BlocksOf(XT16_PACKET_SIZE, packets)| == 32
    ensures TurnBlock(BlocksOf(XT16_PACKET_SIZE, packets)[8 * k + b], 8 * k + b)
  {
    SampleBlockAt(packets, OffRingScript(), k, b);
    BlockTurns(packets[k], Layout(XT16_PACKET_SIZE, packets[k]).value, k, b);
  }

  lemma AllTurnBlocks(packets: seq<Packet>)
    requires AreSamples(packets, OffRingScript())
    ensures |BlocksOf(XT16_PACKET_SIZE, packets)| == 32
    ensures forall j :: 0 <= j < 32 ==> TurnBlock(BlocksOf(XT16_PACKET_SIZE, packets)[j], j)
  {
    PacketTurnBlock(packets, 0, 0);
    forall j | 0 <= j < 32
      ensures TurnBlock(BlocksOf(XT16_PACKET_SIZE, packets)[j], j)
    {
      PacketTurnBlock(packets, j / 8, j % 8);
      assert 8 * (j / 8) + j % 8 == j;
    }
  }

  lemma TurnIsSteady(blocks: seq<Block>)
    requires |blocks| == 32 && forall j :: 0 <= j < 32 ==> TurnBlock(blocks[j], j)
    ensures Turning(blocks, SteadyTurn(32)) && NothingUnseen(0, SteadyTurn(32))
    ensures RevolutionPoints(0, blocks, SteadyTurn(32), 1) != []
    ensures OfRing(RevolutionPoints(0, blocks, SteadyTurn(32), 1), 0) == []
  {
    var at := SteadyTurn(32);
    assert forall j :: 0 <= j < 32 ==> TurnBlock(blocks[j], j) && at[j] == 100 + 3000 * j;
    StartZeroSeesAll(at);
    NoRingZero(0, blocks, at, 1);
    HoldsItsBlocks(0, blocks, at, POINT_BLOCK);
  }

  lemma NotAllOpen(blocks: seq<Block>, at: seq<nat>)
    requires |at| == |blocks| && RevolutionPoints(0, blocks, at, 1) != [] && OfRing(RevolutionPoints(0, blocks, at, 1), 0) == []
    ensures !AllOpen(true, 0, blocks, at, 0, 2)
  {
  }

  /**
   Packets that the checks accept, of a steadily turning sensor: the second of two
   completed turns has one point, on ring 3, and in list form no cloud is that turn.
   */
  lemma ListCloudsDiffer(packets: seq<Packet>)
    requires AreSamples(packets, OffRingScript())
    ensures RunAdmit(XT16_PACKET_SIZE, packets).accepted == packets
    ensures var (blocks, at, lasers) := (BlocksOf(XT16_PACKET_SIZE, packets), SteadyTurn(32), LasersOf(XT16_PACKET_SIZE));
            && Lasers(blocks, lasers) && Turning(blocks, at) && NothingUnseen(0, at)
            && RevolutionPoints(0, blocks, at, 1) != []
            && RunBlocks(true, 0, lasers, blocks).clouds != AllEmitted(true, CompletedRevolutions(0, blocks, at, 0, 2), lasers)
  {
    var blocks, at := BlocksOf(XT16_PACKET_SIZE, packets), SteadyTurn(32);
    SamplesAccepted(packets, OffRingScript());
    BlocksSmall(XT16_PACKET_SIZE, packets);
    AllTurnBlocks(packets);
    TurnIsSteady(blocks);
    NotAllOpen(blocks, at);
    TurnDiffers(LasersOf(XT16_PACKET_SIZE), blocks, at);
  }

  lemma TurnDiffers(lasers: nat, blocks: seq<Block>, at: seq<nat>)
    requires 0 < lasers && Lasers(blocks, lasers) && |blocks| == 32 && at == SteadyTurn(32)
    requires Turning(blocks, at) && NothingUnseen(0, at) && !AllOpen(true, 0, blocks, at, 0, 2)
    ensures RunBlocks(true, 0, lasers, blocks).clouds != AllEmitted(true, CompletedRevolutions(0, blocks, at, 0, 2), lasers)
  {
    assert at[0] == 100 && Last(at) == 93100;
    ListCloudsAreRevolutionsIff(0, lasers, blocks, at);
  }
}
