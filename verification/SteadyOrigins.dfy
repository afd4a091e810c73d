/**
 Where clouds begin when the sensor turns steadily and every block leads: two of
 them share a packet only if the very first packet crosses the start angle; and
 two packets on which that happens.
 */
module SteadyOrigins {
  import opened Common
  import opened PacketDefenses
  import opened FrameSplitter
  import opened Revolutions
  import opened XtPacket
  import opened XtFrames
  import opened FrameRuns
  import opened PacketProcessor
  import opened CloudStamps
  import opened CloudOrigins
  import opened SamplePackets

  ghost predicate AllLead(structured: bool, blocks: seq<Block>) {
    forall j :: 0 <= j < |blocks| ==> Leads(structured, blocks, j)
  }

  /** Cloud `k` of those begun: emitted, or pending as the last. */
  function StartOf(g: Begun, k: nat): nat
    requires g.open.Some? && k <= |g.closed|
  {
    if k < |g.closed| then g.closed[k] else g.open.value
  }

  /** Cloud `k` begins with the block that enters the k-th revolution after the first. */
  ghost predicate StartsRevolution(start: nat, at: seq<nat>, g: Begun, k: nat)
    requires g.open.Some? && k <= |g.closed| && at != []
  {
    var j := StartOf(g, k);
    && j < |at| && Revolution(start, at[j]) == Revolution(start, at[0]) + k
    && (k == 0 ==> j == 0)
    && (k > 0 ==> j > 0 && Revolution(start, at[j - 1]) == Revolution(start, at[0]) + k - 1)
  }

  ghost predicate Numbered(start: nat, at: seq<nat>, g: Begun) {
    && at != [] && g.open.Some?
    && |g.closed| == Revolution(start, Last(at)) - Revolution(start, at[0])
    && forall k :: 0 <= k <= |g.closed| ==> StartsRevolution(start, at, g, k)
  }

  lemma StartStays(start: nat, at: seq<nat>, p: nat, g: Begun, next: Begun, k: nat)
    requires at != [] && g.open.Some? && next.open.Some? && k <= |g.closed| && k <= |next.closed|
    requires StartsRevolution(start, at, g, k) && StartOf(next, k) == StartOf(g, k)
    ensures StartsRevolution(start, at + [p], next, k)
  {
  }

  lemma NumberedStep(start: nat, at: seq<nat>, p: nat, g: Begun, fires: bool)
    requires Numbered(start, at, g)
    requires Revolution(start, p) == Revolution(start, Last(at)) + (if fires then 1 else 0)
    ensures Numbered(start, at + [p], Begin(g, fires, true, |at|))
  {
    var next := Begin(g, fires, true, |at|);
    forall k | 0 <= k <= |g.closed|
      ensures StartsRevolution(start, at + [p], next, k)
    {
      StartStays(start, at, p, g, next, k);
    }
  }

  lemma FrontLeads(structured: bool, blocks: seq<Block>)
    requires blocks != [] && AllLead(structured, blocks)
    ensures AllLead(structured, Front(blocks)) && Open(structured, Last(blocks).points)
  {
    assert Leads(structured, blocks, |blocks| - 1);
    forall j | 0 <= j < |blocks| - 1
      ensures Leads(structured, Front(blocks), j)
    {
      assert Leads(structured, blocks, j);
    }
  }

  lemma NextStartsRevolution(structured: bool, start: nat, blocks: seq<Block>, at: seq<nat>)
    requires start < CIRCLE && |blocks| > 1 && Turning(blocks, at) && NothingUnseen(start, at)
    requires Open(structured, Last(blocks).points) && Numbered(start, Front(at), Beginnings(structured, start, Front(blocks)))
    ensures Numbered(start, at, Beginnings(structured, start, blocks))
  {
    var n := |blocks| - 1;
    FiresExactly(start, Remembered(blocks, n), Last(blocks), at[n - 1], at[n]);
    NumberedStep(start, Front(at), at[n], Beginnings(structured, start, Front(blocks)), FiresAt(start, blocks, n));
    assert at == Front(at) + [at[n]];
  }

  lemma {:induction false} CloudsStartRevolutions(structured: bool, start: nat, lasers: nat, blocks: seq<Block>, at: seq<nat>)
    requires start < CIRCLE && blocks != [] && Lasers(blocks, lasers)
    requires Turning(blocks, at) && NothingUnseen(start, at) && AllLead(structured, blocks)
    ensures Numbered(start, at, Beginnings(structured, start, blocks))
  {
    var n := |blocks| - 1;
    assert Leads(structured, blocks, n);
    if n == 0 {
      assert Beginnings(structured, start, Front(blocks)) == Begun([], None);
    } else {
      TurningFront(start, lasers, blocks, at);
      FrontLeads(structured, blocks);
      CloudsStartRevolutions(structured, start, lasers, Front(blocks), Front(at));
      NextStartsRevolution(structured, start, blocks, at);
    }
  }

  lemma {:induction false} TurnBounded(blocks: seq<Block>, at: seq<nat>, i: nat, j: nat)
    requires Turning(blocks, at) && i <= j < |at|
    ensures at[i] <= at[j] <= at[i] + (j - i) * MAX_ADVANCE
    decreases j
  {
    if i < j {
      TurnBounded(blocks, at, i, j - 1);
    }
  }

  lemma RevolutionMonotone(start: nat, p: nat, q: nat)
    requires p <= q
    ensures Revolution(start, p) <= Revolution(start, q)
  {
  }

  lemma LaterRevolutionIsLater(start: nat, blocks: seq<Block>, at: seq<nat>, i: nat, j: nat)
    requires Turning(blocks, at) && i < |at| && j < |at| && Revolution(start, at[i]) < Revolution(start, at[j])
    ensures i < j
  {
    if j <= i {
      TurnBounded(blocks, at, j, i);
    }
  }

  lemma SamePacketIsNear(size: nat, i: nat, j: nat)
    requires i <= j
    ensures PacketOf(size, i) == PacketOf(size, j) ==> j - i < 8
  {
    DivBounds(i, BlocksPerPacket(size));
    DivBounds(j, BlocksPerPacket(size));
  }

  /** Two blocks that each enter a revolution are at least ten blocks apart. */
  lemma EntriesFarApart(start: nat, blocks: seq<Block>, at: seq<nat>, i: nat, j: nat)
    requires Turning(blocks, at) && 0 < i < |at| && j < |at|
    requires Revolution(start, at[i - 1]) < Revolution(start, at[i]) < Revolution(start, at[j])
    ensures i + 9 < j
  {
    LaterRevolutionIsLater(start, blocks, at, i, j);
    TurnBounded(blocks, at, i - 1, j);
    RevolutionSpan(start, at[i - 1], at[j]);
    MulMonotone(j - i + 1, 10, MAX_ADVANCE);
  }

  /** Clouds after the first are a revolution apart, which no packet spans. */
  lemma LaterCloudsApart(start: nat, size: nat, blocks: seq<Block>, at: seq<nat>, g: Begun, k: nat)
    requires Turning(blocks, at) && Numbered(start, at, g) && 1 < k < |g.closed|
    ensures PacketOf(size, g.closed[k - 1]) != PacketOf(size, g.closed[k])
  {
    var i, j := g.closed[k - 1], g.closed[k];
    assert StartsRevolution(start, at, g, k - 1) && StartsRevolution(start, at, g, k);
    EntriesFarApart(start, blocks, at, i, j);
    SamePacketIsNear(size, i, j);
  }

  lemma RevolutionSpan(start: nat, p: nat, q: nat)
    requires Revolution(start, q) >= Revolution(start, p) + 2
    ensures q - p > CIRCLE
  {
  }

  /** How many blocks of the first packet there are. */
  function FirstBlocks(size: nat, at: seq<nat>): nat {
    if |at| < BlocksPerPacket(size) then |at| else BlocksPerPacket(size)
  }

  /** The sensor crosses the start angle inside the first packet. */
  predicate FirstPacketCrosses(start: nat, size: nat, at: seq<nat>)
    requires at != []
  {
    Revolution(start, at[FirstBlocks(size, at) - 1]) > Revolution(start, at[0])
  }

  lemma FirstCloudsApartIff(start: nat, size: nat, blocks: seq<Block>, at: seq<nat>, g: Begun)
    requires Turning(blocks, at) && Numbered(start, at, g) && |g.closed| > 1
    ensures PacketOf(size, g.closed[0]) != PacketOf(size, g.closed[1]) <==> !FirstPacketCrosses(start, size, at)
  {
    var n, j, m := BlocksPerPacket(size), g.closed[1], FirstBlocks(size, at) - 1;
    assert StartsRevolution(start, at, g, 0) && StartsRevolution(start, at, g, 1);
    DivBounds(j, n);
    if j < n {
      TurnBounded(blocks, at, j, m);
      RevolutionMonotone(start, at[j], at[m]);
    } else {
      TurnBounded(blocks, at, m, j - 1);
      RevolutionMonotone(start, at[m], at[j - 1]);
    }
  }

  /**
   For a steadily turning sensor whose every block brings a leading point, two
   clouds begin in one packet exactly when the first packet crosses the start
   angle and the sensor goes on to complete a whole revolution: both the partial
   cloud before the crossing and the one after it then begin there. Later
   packets never hold two beginnings.
   */
  lemma SteadyCloudsApartIff(structured: bool, start: nat, lasers: nat, size: nat, blocks: seq<Block>, at: seq<nat>)
    requires start < CIRCLE && blocks != [] && Lasers(blocks, lasers)
    requires Turning(blocks, at) && NothingUnseen(start, at) && AllLead(structured, blocks)
    ensures BeginApart(Origins(size, Beginnings(structured, start, blocks)))
       <==> !(FirstPacketCrosses(start, size, at) && Revolution(start, Last(at)) >= Revolution(start, at[0]) + 2)
  {
    var g := Beginnings(structured, start, blocks);
    var origins := Origins(size, g);
    CloudsStartRevolutions(structured, start, lasers, blocks, at);
    if |g.closed| > 1 {
      FirstCloudsApartIff(start, size, blocks, at, g);
      assert origins[0] == PacketOf(size, g.closed[0]) && origins[1] == PacketOf(size, g.closed[1]);
    }
    forall k | 1 < k < |origins|
      ensures origins[k - 1] != origins[k]
    {
      LaterCloudsApart(start, size, blocks, at, g, k);
    }
  }

  // --------------------------------------- packets on which two begin in one

  /** Position of block `j`: from 359.9 degrees on, thirty degrees a block. */
  function PositionAt(j: nat): nat {
    35990 + 3000 * j
  }

  function TurningPositions(): seq<nat> {
    seq(16, j requires 0 <= j < 16 => PositionAt(j))
  }

  function TurningUnits(): (r: seq<XtUnit>)
    ensures |r| == 16
  {
    seq(16, i requires 0 <= i < 16 => XtUnit(1000, 1, 0))
  }

  /** The blocks of packet `k`: every unit at four metres. */
  function TurningXtBlocks(k: nat): seq<XtBlock> {
    seq(8, b requires 0 <= b < 8 => XtBlock(PositionAt(8 * k + b) % CIRCLE, TurningUnits()))
  }

  function TurningScript(): seq<seq<XtBlock>> {
    seq(2, k requires 0 <= k < 2 => TurningXtBlocks(k))
  }

  ghost predicate TurningPackets(packets: seq<Packet>) {
    AreSamples(packets, TurningScript())
  }

  lemma TurningPacketsExist()
    ensures exists packets :: TurningPackets(packets)
  {
    forall k | 0 <= k < 2
      ensures Fits16(TurningScript()[k])
    {
      TurningBlocksFit(k);
    }
    SamplesExist(TurningScript());
    assert TurningPackets(SampleStream(TurningScript()));
  }

  lemma TurningBlocksFit(k: nat)
    ensures Fits16(TurningXtBlocks(k))
  {
    forall b | 0 <= b < 8
      ensures |TurningXtBlocks(k)[b].units| == 16
    {
      assert TurningXtBlocks(k)[b].units == TurningUnits();
    }
  }

  // --- what becomes of them

  /** Block `b` of such a packet. */
  ghost predicate TurningBlock(b: Block, j: nat) {
    b.azimuth == PositionAt(j) % CIRCLE && b.time == 0.0 && b.points != [] && OfRing(b.points, 0) != []
  }

  lemma BlockTurns(p: Packet, xt: XtData, k: nat, b: nat)
    requires p.stamp.Finite? && p.sensorTime == 0.0 && b < 8 && xt.blocks == TurningXtBlocks(k) && xt.disUnit == SAMPLE_UNIT_SIZE
    ensures TurningBlock(SensorBlock(p, xt, b), 8 * k + b)
  {
    assert xt.blocks[b].units == TurningUnits();
    FirstUnitLeads(p, xt, b, 16);
  }

  lemma TurningBlockAt(packets: seq<Packet>, k: nat, b: nat)
    requires TurningPackets(packets) && k < 2 && b < 8
    ensures |BlocksOf(XT16_PACKET_SIZE, packets)| == 16
    ensures TurningBlock(BlocksOf(XT16_PACKET_SIZE, packets)[8 * k + b], 8 * k + b)
  {
    SampleBlockAt(packets, TurningScript(), k, b);
    BlockTurns(packets[k], Layout(XT16_PACKET_SIZE, packets[k]).value, k, b);
  }

  lemma TurningBlocks(packets: seq<Packet>)
    requires TurningPackets(packets)
    ensures |BlocksOf(XT16_PACKET_SIZE, packets)| == 16
    ensures forall j :: 0 <= j < 16 ==> TurningBlock(BlocksOf(XT16_PACKET_SIZE, packets)[j], j)
  {
    TurningBlockAt(packets, 0, 0);
    forall j | 0 <= j < 16
      ensures TurningBlock(BlocksOf(XT16_PACKET_SIZE, packets)[j], j)
    {
      TurningBlockAt(packets, j / 8, j % 8);
      assert 8 * (j / 8) + j % 8 == j;
    }
  }

  lemma TurningIsSteady(structured: bool, blocks: seq<Block>)
    requires |blocks| == 16 && forall j :: 0 <= j < 16 ==> TurningBlock(blocks[j], j)
    ensures Turning(blocks, TurningPositions()) && NothingUnseen(0, TurningPositions()) && AllLead(structured, blocks)
  {
    StartZeroSeesAll(TurningPositions());
    forall j | 0 <= j < 16
      ensures blocks[j].azimuth == TurningPositions()[j] % CIRCLE && blocks[j].time == 0.0 && Leads(structured, blocks, j)
    {
      assert TurningBlock(blocks[j], j);
    }
  }

  /** One block of the first packet fires, and one of the second. */
  lemma TurningFires(blocks: seq<Block>, j: nat)
    requires |blocks| == 16 && j < 16 && forall i :: 0 <= i < 16 ==> TurningBlock(blocks[i], i)
    ensures FiresAt(0, blocks, j) <==> j == 1 || j == 13
  {
    assert TurningBlock(blocks[j], j);
    if j > 0 {
      assert TurningBlock(blocks[j - 1], j - 1);
      FiresExactly(0, Splitter(blocks[j - 1].azimuth, blocks[j - 1].time, Flat([])), blocks[j], PositionAt(j - 1), PositionAt(j));
    }
  }

  lemma TurningOriginsMeet(structured: bool, lasers: nat, blocks: seq<Block>)
    requires |blocks| == 16 && Lasers(blocks, lasers) && forall j :: 0 <= j < 16 ==> TurningBlock(blocks[j], j)
    ensures !BeginApart(Origins(XT16_PACKET_SIZE, Beginnings(structured, 0, blocks)))
  {
    var at := TurningPositions();
    TurningIsSteady(structured, blocks);
    SteadyCloudsApartIff(structured, 0, lasers, XT16_PACKET_SIZE, blocks, at);
    assert at[0] == 35990 && at[7] == 56990 && Last(at) == 80990;
  }

  /** The emissions of two packets, handled one after the other from the start. */
  function EmissionsOfTwo(setup: Setup, p: Packet, q: Packet): seq<Emission>
    requires setup.Valid() && AllDecode(setup.packetSize, [p, q])
  {
    var size, f0 := setup.packetSize, FrameState(Fresh(setup.structured), []);
    assert [p, q][0] == p && [p, q][1] == q;
    var xt, yt := Layout(size, p).value, Layout(size, q).value;
    DecodeGivesShape(p, xt);
    DecodeGivesShape(q, yt);
    PacketKeepsOk(setup, f0, p, xt);
    var (f, before) := OnPacket(setup, f0, p, xt);
    before + OnPacket(setup, f, q, yt).1
  }

  lemma BlocksOfTwo(size: nat, p: Packet, q: Packet)
    ensures BlocksOf(size, [p, q]) == BlocksOfOne(size, p) + BlocksOfOne(size, q)
  {
    BlocksSnoc(size, [], p);
    BlocksSnoc(size, [p], q);
    assert [] + [p] == [p] && [p] + [q] == [p, q];
    assert BlocksOf(size, []) == [];
    assert [] + BlocksOfOne(size, p) == BlocksOfOne(size, p);
  }

  lemma StampsOfTwo(setup: Setup, p: Packet, q: Packet)
    requires setup.Valid() && AllDecode(setup.packetSize, [p, q])
    ensures Lasers(BlocksOf(setup.packetSize, [p, q]), LasersOf(setup.packetSize))
    ensures EmissionStamps(EmissionsOfTwo(setup, p, q))
         == CloudTimes(RunBlocks(setup.structured, setup.startAngle, LasersOf(setup.packetSize), BlocksOf(setup.packetSize, [p, q])).clouds)
  {
    var size, f0 := setup.packetSize, FrameState(Fresh(setup.structured), []);
    assert [p, q][0] == p && [p, q][1] == q;
    var xt, yt := Layout(size, p).value, Layout(size, q).value;
    DecodeGivesShape(p, xt);
    DecodeGivesShape(q, yt);
    LasersFixedBySize(p, xt, size);
    LasersFixedBySize(q, yt, size);
    FreshFrame(setup);
    PacketKeepsInv(setup, f0, [], [], [], p, xt);
    var (f, before) := OnPacket(setup, f0, p, xt);
    var one := PacketBlocks(p, xt, |xt.blocks|);
    assert [] + before == before && [] + one == one;
    PacketKeepsInv(setup, f, before, one, [] + [Raw(p)], q, yt);
    var (g, now) := OnPacket(setup, f, q, yt);
    BlocksOfTwo(size, p, q);
    BlocksSmall(size, [p, q]);
    StampsOfEmissions(setup, g, before + now, BlocksOf(size, [p, q]), [] + [Raw(p)] + [Raw(q)]);
  }

  lemma TurningTimesDiffer(packets: seq<Packet>)
    requires TurningPackets(packets)
    ensures Distinct(Times(packets))
  {
    assert IsSample(packets[0], 0, TurningScript()[0]) && IsSample(packets[1], 1, TurningScript()[1]);
    assert Times(packets) == [1.0, 1.001];
  }

  lemma StampsOfTurn(structured: bool, packets: seq<Packet>)
    requires TurningPackets(packets)
    ensures Lasers(BlocksOf(XT16_PACKET_SIZE, packets), LasersOf(XT16_PACKET_SIZE))
    ensures var clouds := RunBlocks(structured, 0, LasersOf(XT16_PACKET_SIZE), BlocksOf(XT16_PACKET_SIZE, packets)).clouds;
            !Subsequence(CloudTimes(clouds), Times(packets))
  {
    var size, blocks := XT16_PACKET_SIZE, BlocksOf(XT16_PACKET_SIZE, packets);
    SamplesAccepted(packets, TurningScript());
    TurningTimesDiffer(packets);
    BlocksSmall(size, packets);
    TurningOriginsOf(structured, packets);
    StampsFollowPacketsIff(structured, 0, size, blocks, packets);
  }

  lemma TurningOriginsOf(structured: bool, packets: seq<Packet>)
    requires TurningPackets(packets) && Lasers(BlocksOf(XT16_PACKET_SIZE, packets), LasersOf(XT16_PACKET_SIZE))
    ensures !BeginApart(Origins(XT16_PACKET_SIZE, Beginnings(structured, 0, BlocksOf(XT16_PACKET_SIZE, packets))))
  {
    TurningBlocks(packets);
    TurningOriginsMeet(structured, LasersOf(XT16_PACKET_SIZE), BlocksOf(XT16_PACKET_SIZE, packets));
  }

  /**
   Two packets of a steadily turning sensor, both accepted by the checks, each
   firing once and every block with a leading point, on which the first two clouds
   both begin in the first packet: the cloud stamps are not a subsequence of the
   packets' reception times, in neither buffer form.
   */
  lemma TwoCloudsBeginInOnePacket(setup: Setup, p: Packet, q: Packet)
    requires setup.Valid() && setup.packetSize == XT16_PACKET_SIZE && setup.startAngle == 0 && TurningPackets([p, q])
    ensures RunAdmit(XT16_PACKET_SIZE, [p, q]).accepted == [p, q] && AllDecode(XT16_PACKET_SIZE, [p, q])
    ensures Turning(BlocksOf(XT16_PACKET_SIZE, [p, q]), TurningPositions())
    ensures AllLead(setup.structured, BlocksOf(XT16_PACKET_SIZE, [p, q]))
    ensures forall j :: 0 <= j < 16 ==> (FiresAt(0, BlocksOf(XT16_PACKET_SIZE, [p, q]), j) <==> j == 1 || j == 13)
    ensures !Subsequence(EmissionStamps(EmissionsOfTwo(setup, p, q)), Times([p, q]))
  {
    SamplesAccepted([p, q], TurningScript());
    TurningBlocks([p, q]);
    TurningIsSteady(setup.structured, BlocksOf(XT16_PACKET_SIZE, [p, q]));
    forall j | 0 <= j < 16
      ensures FiresAt(0, BlocksOf(XT16_PACKET_SIZE, [p, q]), j) <==> j == 1 || j == 13
    {
      TurningFires(BlocksOf(XT16_PACKET_SIZE, [p, q]), j);
    }
    StampsOfTwo(setup, p, q);
    StampsOfTurn(setup.structured, [p, q]);
  }
}
