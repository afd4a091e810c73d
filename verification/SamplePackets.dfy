/**
 PandarXT-16 packets built block by block, for inputs on which a property is shown
 to fail: they exist as bytes, the checks accept them, and their blocks are known.
 */
module SamplePackets {
  import opened Common
  import opened XtPacket
  import opened PacketDefenses
  import opened FrameSplitter
  import opened XtFrames
  import opened PacketProcessor
  import opened CloudStamps
  import opened CloudOrigins

  const SAMPLE_UNIT_SIZE := 4       // millimetres a distance unit

  function SampleTime(k: nat): real {
    1.0 + k as real / 1000.0
  }

  /** Packet `k` of a stream, a millisecond after the one before it, with these blocks. */
  ghost predicate IsSample(p: Packet, k: nat, blocks: seq<XtBlock>) {
    && p.stamp == Finite(SampleTime(k)) && p.sensorTime == 0.0 && Layout(XT16_PACKET_SIZE, p).Some?
    && Layout(XT16_PACKET_SIZE, p).value.udpSequence == k && Layout(XT16_PACKET_SIZE, p).value.disUnit == SAMPLE_UNIT_SIZE
    && Layout(XT16_PACKET_SIZE, p).value.blocks == blocks
  }

  ghost predicate AreSamples(packets: seq<Packet>, blocks: seq<seq<XtBlock>>) {
    |packets| == |blocks| < TWO_POW_32 && forall k :: 0 <= k < |packets| ==> IsSample(packets[k], k, blocks[k])
  }

  // ---------------------------------------------------------- they exist

  ghost predicate Fits16(blocks: seq<XtBlock>) {
    |blocks| == 8 && forall b :: 0 <= b < 8 ==> |blocks[b].units| == 16
  }

  function SampleData(k: uint32, blocks: seq<XtBlock>): XtData {
    XtData(0, 0, 16, 8, 0x37, SAMPLE_UNIT_SIZE, blocks, 0, 0, seq(6, i requires 0 <= i < 6 => 0), 0, k)
  }

  function NoFiller(): Filler {
    Filler(0, 0, 0, 0, seq(RESERVED_SIZE, i requires 0 <= i < RESERVED_SIZE => 0), 0)
  }

  function SamplePacket(k: uint32, blocks: seq<XtBlock>): Packet {
    Packet(k, Finite(SampleTime(k)), EncodeXt(SampleData(k, blocks), NoFiller()), 0.0)
  }

  lemma SampleDecodes(k: uint32, blocks: seq<XtBlock>)
    requires Fits16(blocks)
    ensures |EncodeXt(SampleData(k, blocks), NoFiller())| == XT16_PACKET_SIZE
    ensures DecodeXt(EncodeXt(SampleData(k, blocks), NoFiller())) == Some(SampleData(k, blocks))
  {
    assert PacketSize(8, 16) == XT16_PACKET_SIZE;
    assert WellFormed(SampleData(k, blocks), NoFiller());
    DecodeInvertsEncode(SampleData(k, blocks), NoFiller());
    EncodedParts(SampleData(k, blocks), NoFiller());
  }

  lemma SamplePacketIsSample(k: uint32, blocks: seq<XtBlock>)
    requires Fits16(blocks)
    ensures IsSample(SamplePacket(k, blocks), k, blocks)
  {
    SampleDecodes(k, blocks);
    DecodedIsSample(SamplePacket(k, blocks), k, SampleData(k, blocks));
  }

  lemma DecodedIsSample(p: Packet, k: nat, xt: XtData)
    requires |p.data| == XT16_PACKET_SIZE && DecodeXt(p.data) == Some(xt)
    requires p.stamp == Finite(SampleTime(k)) && p.sensorTime == 0.0 && xt.udpSequence == k && xt.disUnit == SAMPLE_UNIT_SIZE
    ensures IsSample(p, k, xt.blocks)
  {
  }

  function SampleStream(blocks: seq<seq<XtBlock>>): seq<Packet>
    requires |blocks| < TWO_POW_32
  {
    seq(|blocks|, k requires 0 <= k < |blocks| => SamplePacket(k, blocks[k]))
  }

  lemma SamplesExist(blocks: seq<seq<XtBlock>>)
    requires |blocks| < TWO_POW_32 && forall k :: 0 <= k < |blocks| ==> Fits16(blocks[k])
    ensures AreSamples(SampleStream(blocks), blocks)
  {
    forall k | 0 <= k < |blocks|
      ensures IsSample(SampleStream(blocks)[k], k, blocks[k])
    {
      SamplePacketIsSample(k, blocks[k]);
    }
  }

  // ------------------------------------------------------ they are accepted

  /** The filters behind packet `k` of a stream of samples. */
  ghost predicate Passed(run: AdmitRun, k: nat) {
    && run.filters.guard == GuardState(true, SampleTime(k))
    && run.filters.tracker.initialized && run.filters.tracker.lastSequence == k
    && run.filters.tracker.lastObserved == Finite(SampleTime(k))
  }

  lemma FirstPasses(p: Packet, sequence: uint32)
    requires p.stamp == Finite(SampleTime(0)) && sequence == 0
    ensures var next := ExtendAdmit(AdmitRun(FRESH_FILTERS, [], []), p, Some(sequence));
            Passed(next, 0) && next.accepted == [p]
  {
  }

  lemma NextPasses(run: AdmitRun, p: Packet, k: nat, sequence: uint32)
    requires Passed(run, k) && sequence == k + 1 && p.stamp == Finite(SampleTime(k + 1))
    ensures var next := ExtendAdmit(run, p, Some(sequence));
            Passed(next, k + 1) && next.accepted == run.accepted + [p]
  {
  }

  lemma {:induction false} SamplesPass(packets: seq<Packet>, blocks: seq<seq<XtBlock>>)
    requires AreSamples(packets, blocks) && packets != []
    ensures RunAdmit(XT16_PACKET_SIZE, packets).accepted == packets
    ensures Passed(RunAdmit(XT16_PACKET_SIZE, packets), |packets| - 1)
  {
    var rest, p, k := Front(packets), Last(packets), |packets| - 1;
    assert IsSample(p, k, blocks[k]) && packets == rest + [p];
    AdmitSnoc(XT16_PACKET_SIZE, rest, p);
    if rest == [] {
      FirstPasses(p, Layout(XT16_PACKET_SIZE, p).value.udpSequence);
    } else {
      SamplesPass(rest, Front(blocks));
      NextPasses(RunAdmit(XT16_PACKET_SIZE, rest), p, k - 1, Layout(XT16_PACKET_SIZE, p).value.udpSequence);
    }
  }

  lemma SamplesAccepted(packets: seq<Packet>, blocks: seq<seq<XtBlock>>)
    requires AreSamples(packets, blocks)
    ensures RunAdmit(XT16_PACKET_SIZE, packets).accepted == packets
    ensures AllDecode(XT16_PACKET_SIZE, packets)
  {
    if packets != [] {
      SamplesPass(packets, blocks);
    }
    forall k | 0 <= k < |packets|
      ensures packets[k].stamp.Finite? && Layout(XT16_PACKET_SIZE, packets[k]).Some?
    {
      assert IsSample(packets[k], k, blocks[k]);
    }
  }

  // ------------------------------------------------------------ their blocks

  lemma OnePacketBlockAt(size: nat, p: Packet, b: nat)
    requires SupportedSize(size) && p.stamp.Finite? && Layout(size, p).Some? && b < BlocksPerPacket(size)
    ensures |Layout(size, p).value.blocks| == |BlocksOfOne(size, p)| == BlocksPerPacket(size)
    ensures BlocksOfOne(size, p)[b] == SensorBlock(p, Layout(size, p).value, b)
  {
    BlockCountFixedBySize(size, p);
    PacketBlockAt(p, Layout(size, p).value, BlocksPerPacket(size), b);
  }

  /** Block `b` of packet `k` lies at its place in the stream of all blocks. */
  ghost predicate LiesAt(blocks: seq<Block>, p: Packet, k: nat, b: nat) {
    && p.stamp.Finite? && Layout(XT16_PACKET_SIZE, p).Some? && |Layout(XT16_PACKET_SIZE, p).value.blocks| == 8 && b < 8
    && 8 * k + b < |blocks| && blocks[8 * k + b] == SensorBlock(p, Layout(XT16_PACKET_SIZE, p).value, b)
  }

  lemma LiesLast(before: seq<Block>, p: Packet, k: nat, b: nat)
    requires p.stamp.Finite? && Layout(XT16_PACKET_SIZE, p).Some? && |before| == 8 * k && b < 8
    ensures |BlocksOfOne(XT16_PACKET_SIZE, p)| == 8
    ensures LiesAt(before + BlocksOfOne(XT16_PACKET_SIZE, p), p, k, b)
  {
    OnePacketBlockAt(XT16_PACKET_SIZE, p, b);
  }

  lemma {:induction false} StreamLength(packets: seq<Packet>)
    requires AllDecode(XT16_PACKET_SIZE, packets)
    ensures |BlocksOf(XT16_PACKET_SIZE, packets)| == 8 * |packets|
  {
    if packets != [] {
      FrontDecodes(XT16_PACKET_SIZE, packets);
      StreamLength(Front(packets));
      OnePacketBlockAt(XT16_PACKET_SIZE, Last(packets), 0);
      BlocksSnoc(XT16_PACKET_SIZE, Front(packets), Last(packets));
    }
  }

  lemma {:induction false} StreamBlockAt(packets: seq<Packet>, k: nat, b: nat)
    requires AllDecode(XT16_PACKET_SIZE, packets) && k < |packets| && b < 8
    ensures LiesAt(BlocksOf(XT16_PACKET_SIZE, packets), packets[k], k, b)
  {
    var rest, p := Front(packets), Last(packets);
    FrontDecodes(XT16_PACKET_SIZE, packets);
    StreamLength(rest);
    BlocksSnoc(XT16_PACKET_SIZE, rest, p);
    if k == |rest| {
      LiesLast(BlocksOf(XT16_PACKET_SIZE, rest), p, k, b);
    } else {
      StreamBlockAt(rest, k, b);
    }
  }

  /** The same for a stream of samples, whose packets are known. */
  lemma SampleBlockAt(packets: seq<Packet>, blocks: seq<seq<XtBlock>>, k: nat, b: nat)
    requires AreSamples(packets, blocks) && k < |packets| && b < 8
    ensures |BlocksOf(XT16_PACKET_SIZE, packets)| == 8 * |packets|
    ensures packets[k].stamp.Finite? && packets[k].sensorTime == 0.0 && Layout(XT16_PACKET_SIZE, packets[k]).Some?
    ensures var xt := Layout(XT16_PACKET_SIZE, packets[k]).value;
            && |xt.blocks| == 8 && xt.blocks == blocks[k] && xt.disUnit == SAMPLE_UNIT_SIZE
            && BlocksOf(XT16_PACKET_SIZE, packets)[8 * k + b] == SensorBlock(packets[k], xt, b)
  {
    SamplesAccepted(packets, blocks);
    StreamLength(packets);
    StreamBlockAt(packets, k, b);
    assert IsSample(packets[k], k, blocks[k]);
  }

  lemma {:induction false} NoPoints(p: Packet, xt: XtData, b: nat, n: nat)
    requires p.stamp.Finite? && b < |xt.blocks| && n <= |xt.blocks[b].units|
    requires forall u :: 0 <= u < n ==> !Kept(xt.blocks[b].units[u], xt.disUnit)
    ensures UnitPoints(p, xt, b, n) == []
  {
    if n > 0 {
      NoPoints(p, xt, b, n - 1);
    }
  }

  lemma {:induction false} OnePoint(p: Packet, xt: XtData, b: nat, n: nat, ring: nat)
    requires p.stamp.Finite? && b < |xt.blocks| && ring < n <= |xt.blocks[b].units|
    requires forall u :: 0 <= u < n ==> (Kept(xt.blocks[b].units[u], xt.disUnit) <==> u == ring)
    ensures UnitPoints(p, xt, b, n) == [UnitPoint(p, xt, b, ring)]
  {
    if ring < n - 1 {
      OnePoint(p, xt, b, n - 1, ring);
    } else {
      NoPoints(p, xt, b, n - 1);
    }
  }

  /** A unit kept on ring 0 leads its block, in both buffer forms. */
  lemma {:induction false} FirstUnitLeads(p: Packet, xt: XtData, b: nat, n: nat)
    requires p.stamp.Finite? && b < |xt.blocks| && 1 <= n <= |xt.blocks[b].units| && Kept(xt.blocks[b].units[0], xt.disUnit)
    ensures UnitPoints(p, xt, b, n) != [] && OfRing(UnitPoints(p, xt, b, n), 0) != []
  {
    if n == 1 {
      assert UnitPoints(p, xt, b, 0) == [];
      assert UnitPoints(p, xt, b, 1) == [UnitPoint(p, xt, b, 0)];
    } else {
      FirstUnitLeads(p, xt, b, n - 1);
      var before := UnitPoints(p, xt, b, n - 1);
      OfRingConcat(before, UnitPoints(p, xt, b, n)[|before|..], 0);
      assert UnitPoints(p, xt, b, n) == before + UnitPoints(p, xt, b, n)[|before|..];
    }
  }
}
