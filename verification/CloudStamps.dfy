/**
 The stamps of emitted clouds: each is the stamp of a point of its own batch, so
 that they are a subsequence of the point stamps, which in turn follow the
 reception times of the accepted packets.
 */
module CloudStamps {
  import opened Common
  import opened PacketDefenses
  import opened FrameSplitter
  import opened Revolutions
  import opened XtPacket
  import opened XtFrames
  import opened FrameRuns
  import opened PacketProcessor

  function PacketBlocks(p: Packet, xt: XtData, k: nat): seq<Block>
    requires p.stamp.Finite? && k <= |xt.blocks|
  {
    if k == 0 then [] else PacketBlocks(p, xt, k - 1) + [SensorBlock(p, xt, k - 1)]
  }

  function BlocksOfOne(size: nat, p: Packet): seq<Block> {
    var xt := Layout(size, p);
    if p.stamp.Finite? && xt.Some? then PacketBlocks(p, xt.value, |xt.value.blocks|) else []
  }

  /** All blocks of a stream of packets. */
  function BlocksOf(size: nat, packets: seq<Packet>): seq<Block> {
    if packets == [] then [] else BlocksOf(size, Front(packets)) + BlocksOfOne(size, Last(packets))
  }

  lemma BlocksSnoc(size: nat, packets: seq<Packet>, p: Packet)
    ensures BlocksOf(size, packets + [p]) == BlocksOf(size, packets) + BlocksOfOne(size, p)
  {
    assert Front(packets + [p]) == packets && Last(packets + [p]) == p;
  }

  lemma {:induction false} PacketBlocksPrefix(p: Packet, xt: XtData, k: nat, n: nat)
    requires p.stamp.Finite? && k <= n <= |xt.blocks|
    ensures PacketBlocks(p, xt, k) <= PacketBlocks(p, xt, n)
  {
    if k < n {
      PacketBlocksPrefix(p, xt, k, n - 1);
    }
  }

  lemma WholeLast(size: nat, packets: seq<Packet>, xt: XtData)
    requires packets != [] && Last(packets).stamp.Finite? && Layout(size, Last(packets)) == Some(xt)
    ensures BlocksOf(size, Front(packets)) + PacketBlocks(Last(packets), xt, |xt.blocks|) == BlocksOf(size, packets)
  {
  }

  /** Some blocks of the last packet, behind all of the packets before it. */
  lemma PartOfLast(size: nat, packets: seq<Packet>, xt: XtData, k: nat)
    requires packets != [] && Last(packets).stamp.Finite? && Layout(size, Last(packets)) == Some(xt) && k <= |xt.blocks|
    ensures BlocksOf(size, Front(packets)) + PacketBlocks(Last(packets), xt, k) <= BlocksOf(size, packets)
  {
    PacketBlocksPrefix(Last(packets), xt, k, |xt.blocks|);
  }

  lemma {:induction false} PacketBlocksSmall(p: Packet, xt: XtData, k: nat)
    requires Decoded(p, xt) && k <= |xt.blocks|
    ensures AtMost(PacketBlocks(p, xt, k), xt.laserNumber) && Lasers(PacketBlocks(p, xt, k), xt.laserNumber)
  {
    if k > 0 {
      PacketBlocksSmall(p, xt, k - 1);
      BlockPointsShape(p, xt, k - 1);
    }
  }

  /** A block never gives more points than the model has lasers, nor one of another ring. */
  lemma {:induction false} BlocksSmall(size: nat, packets: seq<Packet>)
    requires SupportedSize(size)
    ensures AtMost(BlocksOf(size, packets), LasersOf(size)) && Lasers(BlocksOf(size, packets), LasersOf(size))
  {
    if packets != [] {
      BlocksSmall(size, Front(packets));
      var p, xt := Last(packets), Layout(size, Last(packets));
      if p.stamp.Finite? && xt.Some? {
        DecodeGivesShape(p, xt.value);
        LasersFixedBySize(p, xt.value, size);
        PacketBlocksSmall(p, xt.value, |xt.value.blocks|);
      }
    }
  }

  /** With the last packet about to be looked at, all its blocks added. */
  lemma WholeLastSmall(size: nat, packets: seq<Packet>, xt: XtData, blocks: seq<Block>)
    requires SupportedSize(size)
    requires packets != [] && Last(packets).stamp.Finite? && Layout(size, Last(packets)) == Some(xt)
    requires blocks == BlocksOf(size, Front(packets)) + PacketBlocks(Last(packets), xt, 0)
    ensures var all := blocks + PacketBlocks(Last(packets), xt, |xt.blocks|);
            AtMost(all, LasersOf(size)) && Lasers(all, LasersOf(size))
  {
    BlocksSmall(size, packets);
    WholeLast(size, packets, xt);
    assert blocks == BlocksOf(size, Front(packets));
  }

  function RawOf(p: Packet): RawPacket {
    if p.stamp.Finite? then Raw(p) else RawPacket(0, 0, p.data, |p.data|)
  }

  function Raws(packets: seq<Packet>): seq<RawPacket> {
    seq(|packets|, i requires 0 <= i < |packets| => RawOf(packets[i]))
  }

  /** The invariant after the first `k` blocks of an accepted packet. */
  ghost predicate InvAfter(setup: Setup, f: FrameState, emissions: seq<Emission>, blocks: seq<Block>, arrived: seq<RawPacket>,
                           p: Packet, xt: XtData, k: nat)
    requires FrameOk(setup, f) && Decoded(p, xt) && k <= |xt.blocks|
  {
    FrameInv(setup, OnBlocks(setup, f, p, xt, k).0, emissions + OnBlocks(setup, f, p, xt, k).1, blocks + PacketBlocks(p, xt, k), arrived)
  }

  lemma JoinedInv(setup: Setup, h: FrameState, emissions: seq<Emission>, before: seq<Emission>, now: seq<Emission>,
                  blocks: seq<Block>, looked: seq<Block>, block: Block, arrived: seq<RawPacket>)
    requires FrameInv(setup, h, emissions + before + now, blocks + looked + [block], arrived)
    ensures FrameInv(setup, h, emissions + (before + now), blocks + (looked + [block]), arrived)
  {
    Reassociate(emissions, before, now);
    Reassociate(blocks, looked, [block]);
  }

  lemma OnBlocksNext(setup: Setup, f: FrameState, p: Packet, xt: XtData, k: nat)
    requires FrameOk(setup, f) && Decoded(p, xt) && k < |xt.blocks|
    ensures var (g, before) := OnBlocks(setup, f, p, xt, k);
            var (h, now) := OnBlock(setup, g, p, xt, k);
            OnBlocks(setup, f, p, xt, k + 1) == (h, before + now)
  {
  }

  lemma InvAfterNext(setup: Setup, f: FrameState, emissions: seq<Emission>, blocks: seq<Block>, arrived: seq<RawPacket>,
                     p: Packet, xt: XtData, k: nat)
    requires FrameOk(setup, f) && Decoded(p, xt) && k < |xt.blocks| && xt.laserNumber == LasersOf(setup.packetSize)
    requires InvAfter(setup, f, emissions, blocks, arrived, p, xt, k)
    ensures InvAfter(setup, f, emissions, blocks, arrived, p, xt, k + 1)
  {
    var (g, before) := OnBlocks(setup, f, p, xt, k);
    var (h, now) := OnBlock(setup, g, p, xt, k);
    BlockKeepsInv(setup, g, emissions + before, blocks + PacketBlocks(p, xt, k), arrived, p, xt, k);
    JoinedInv(setup, h, emissions, before, now, blocks, PacketBlocks(p, xt, k), SensorBlock(p, xt, k), arrived);
    OnBlocksNext(setup, f, p, xt, k);
  }

  lemma {:induction false} BlocksKeepInv(setup: Setup, f: FrameState, emissions: seq<Emission>, blocks: seq<Block>, arrived: seq<RawPacket>,
                                         p: Packet, xt: XtData, k: nat)
    requires FrameInv(setup, f, emissions, blocks, arrived)
    requires Decoded(p, xt) && k <= |xt.blocks| && xt.laserNumber == LasersOf(setup.packetSize)
    ensures InvAfter(setup, f, emissions, blocks, arrived, p, xt, k)
  {
    if k == 0 {
      assert emissions + [] == emissions && blocks + [] == blocks;
    } else {
      BlocksKeepInv(setup, f, emissions, blocks, arrived, p, xt, k - 1);
      InvAfterNext(setup, f, emissions, blocks, arrived, p, xt, k - 1);
    }
  }

  /** A whole accepted packet. */
  lemma PacketKeepsInv(setup: Setup, f: FrameState, emissions: seq<Emission>, blocks: seq<Block>, arrived: seq<RawPacket>,
                       p: Packet, xt: XtData)
    requires FrameInv(setup, f, emissions, blocks, arrived)
    requires Decoded(p, xt) && xt.laserNumber == LasersOf(setup.packetSize)
    ensures FrameInv(setup, OnPacket(setup, f, p, xt).0, emissions + OnPacket(setup, f, p, xt).1,
                     blocks + PacketBlocks(p, xt, |xt.blocks|), arrived + [Raw(p)])
  {
    PacketArrives(setup, f, emissions, blocks, arrived, p);
    BlocksKeepInv(setup, OnArrival(f, p), emissions, blocks, arrived + [Raw(p)], p, xt, |xt.blocks|);
  }

  function PointTimes(points: seq<Point>): seq<real> {
    seq(|points|, i requires 0 <= i < |points| => points[i].timestamp)
  }

  function EmissionStamps(emissions: seq<Emission>): seq<real> {
    seq(|emissions|, i requires 0 <= i < |emissions| => emissions[i].stamp)
  }

  // ------------------------------------------- points follow their packets

  lemma PointTimesJoin(a: seq<Point>, b: seq<Point>)
    ensures PointTimes(a + b) == PointTimes(a) + PointTimes(b)
  {
  }

  lemma {:induction false} PointsOfJoin(a: seq<Block>, b: seq<Block>)
    ensures PointsOf(a + b) == PointsOf(a) + PointsOf(b)
  {
    if b == [] {
      assert a + b == a;
    } else {
      PointsOfJoin(a, Front(b));
      assert Front(a + b) == a + Front(b) && Last(a + b) == Last(b);
      Reassociate(PointsOf(a), PointsOf(Front(b)), Last(b).points);
    }
  }

  /** Points stamped with one value only. */
  ghost predicate AllAt(points: seq<Point>, t: real) {
    forall i :: 0 <= i < |points| ==> points[i].timestamp == t
  }

  lemma {:induction false} PacketTimes(p: Packet, xt: XtData, k: nat)
    requires Decoded(p, xt) && k <= |xt.blocks|
    ensures AllAt(PointsOf(PacketBlocks(p, xt, k)), p.stamp.t)
  {
    if k > 0 {
      PacketTimes(p, xt, k - 1);
      BlockPointsShape(p, xt, k - 1);
      assert Front(PacketBlocks(p, xt, k)) == PacketBlocks(p, xt, k - 1);
    }
  }

  ghost predicate Within(xs: seq<real>, ys: seq<real>) {
    forall x :: x in xs ==> x in ys
  }

  /** Points of one more packet: its stamp, repeated, is no further below the earlier ones than the packet's. */
  lemma RepeatedStamp(before: seq<Point>, points: seq<Point>, times: seq<real>, t: real, tolerance: real)
    requires tolerance >= 0.0 && AllAt(points, t) && NonRegressing(tolerance, times + [t])
    requires NonRegressing(tolerance, PointTimes(before)) && Within(PointTimes(before), times)
    ensures NonRegressing(tolerance, PointTimes(before + points)) && Within(PointTimes(before + points), times + [t])
  {
    PointTimesJoin(before, points);
    var n, all := |before|, PointTimes(before) + PointTimes(points);
    forall i | 0 <= i < n
      ensures t >= PointTimes(before)[i] - tolerance
    {
      assert PointTimes(before)[i] in times;
      var k :| 0 <= k < |times| && times[k] == PointTimes(before)[i];
      assert (times + [t])[k] == times[k] && (times + [t])[|times|] == t;
    }
    forall i, j | 0 <= i < j < |all|
      ensures all[j] >= all[i] - tolerance
    {
      if j < n {
        assert all[i] == PointTimes(before)[i] && all[j] == PointTimes(before)[j];
      } else if i < n {
        assert all[i] == PointTimes(before)[i];
      }
    }
  }

  /** No point is stamped more than the tolerance below an earlier one, if no accepted packet is. */
  lemma {:induction false} PointTimesNeverRegress(size: nat, packets: seq<Packet>, tolerance: real)
    requires tolerance >= 0.0 && NonRegressing(tolerance, Times(packets))
    ensures NonRegressing(tolerance, PointTimes(PointsOf(BlocksOf(size, packets))))
    ensures Within(PointTimes(PointsOf(BlocksOf(size, packets))), Times(packets))
  {
    if packets != [] {
      var rest, p := Front(packets), Last(packets);
      assert packets == rest + [p];
      TimesSnoc(rest, p);
      NonRegressingPrefix(tolerance, Times(rest), [TimeOf(p)]);
      PointTimesNeverRegress(size, rest, tolerance);
      var points := PointsOf(BlocksOfOne(size, p));
      OnePacketTimes(size, p);
      PointsOfJoin(BlocksOf(size, rest), BlocksOfOne(size, p));
      RepeatedStamp(PointsOf(BlocksOf(size, rest)), points, Times(rest), TimeOf(p), tolerance);
    }
  }

  lemma OnePacketTimes(size: nat, p: Packet)
    ensures AllAt(PointsOf(BlocksOfOne(size, p)), TimeOf(p))
  {
    var xt := Layout(size, p);
    if p.stamp.Finite? && xt.Some? {
      DecodeGivesShape(p, xt.value);
      PacketTimes(p, xt.value, |xt.value.blocks|);
    }
  }

  lemma NonRegressingPrefix(tolerance: real, xs: seq<real>, ys: seq<real>)
    requires NonRegressing(tolerance, xs + ys)
    ensures NonRegressing(tolerance, xs)
  {
    SubsequencePrefix(xs, xs + ys);
    SubsequenceNonRegressing(tolerance, xs, xs + ys);
  }

  lemma PointTimesPrefix(blocks: seq<Block>, all: seq<Block>, tolerance: real)
    requires blocks <= all && NonRegressing(tolerance, PointTimes(PointsOf(all)))
    ensures NonRegressing(tolerance, PointTimes(PointsOf(blocks)))
  {
    var rest := all[|blocks|..];
    assert blocks + rest == all;
    PointsOfJoin(blocks, rest);
    PointTimesJoin(PointsOf(blocks), PointsOf(rest));
    NonRegressingPrefix(tolerance, PointTimes(PointsOf(blocks)), PointTimes(PointsOf(rest)));
  }

  // ------------------------------------------------ clouds follow points

  lemma {:induction false} OfRingMembers(points: seq<Point>, ring: nat)
    ensures forall x :: x in OfRing(points, ring) ==> x in points
  {
    if points != [] {
      OfRingMembers(Front(points), ring);
    }
  }

  lemma {:induction false} RegroupedMembers(points: seq<Point>, lasers: nat)
    ensures forall x :: x in Regrouped(points, lasers) ==> x in points
  {
    if lasers > 0 {
      RegroupedMembers(points, lasers - 1);
      OfRingMembers(points, lasers - 1);
    }
  }

  /** A cloud is stamped with the stamp of a point of its own batch, in both buffer forms. */
  lemma StampInBatch(structured: bool, batch: seq<Point>, lasers: nat)
    requires Emitted(structured, batch, lasers) != []
    ensures Emitted(structured, batch, lasers)[0].timestamp in PointTimes(batch)
  {
    RegroupedMembers(batch, lasers);
    var first := Emitted(structured, batch, lasers)[0];
    assert first in batch;
    var i :| 0 <= i < |batch| && batch[i] == first;
    assert PointTimes(batch)[i] == first.timestamp;
  }

  lemma {:induction false} SubsequenceJoin<T>(xs: seq<T>, ys: seq<T>, x: T, zs: seq<T>)
    requires Subsequence(xs, ys)
    ensures Subsequence(xs, ys + zs)
    ensures x in zs ==> Subsequence(xs + [x], ys + zs)
  {
    if zs == [] {
      assert ys + zs == ys;
    } else {
      SubsequenceJoin(xs, ys, x, Front(zs));
      assert ys + zs == ys + Front(zs) + [Last(zs)];
      SubsequenceSkip(xs, ys + Front(zs), Last(zs));
      if x == Last(zs) {
        SubsequenceTake(xs, ys + Front(zs), x);
      } else if x in zs {
        SubsequenceSkip(xs + [x], ys + Front(zs), Last(zs));
      }
    }
  }

  lemma {:induction false} StampsFromBatches(stamps: seq<real>, batches: seq<seq<Point>>)
    requires |stamps| == |batches| && forall k :: 0 <= k < |stamps| ==> stamps[k] in PointTimes(batches[k])
    ensures Subsequence(stamps, PointTimes(Flatten(batches)))
  {
    if stamps != [] {
      StampsFromBatches(Front(stamps), Front(batches));
      PointTimesJoin(Flatten(Front(batches)), Last(batches));
      assert stamps == Front(stamps) + [Last(stamps)];
      SubsequenceJoin(Front(stamps), PointTimes(Flatten(Front(batches))), Last(stamps), PointTimes(Last(batches)));
    }
  }

  /** Over any run, the emission stamps are a subsequence of the stamps of the points looked at. */
  lemma StampsFollowPoints(setup: Setup, f: FrameState, emissions: seq<Emission>, blocks: seq<Block>, arrived: seq<RawPacket>)
    requires FrameInv(setup, f, emissions, blocks, arrived)
    ensures Subsequence(EmissionStamps(emissions), PointTimes(PointsOf(blocks)))
  {
    var lasers := LasersOf(setup.packetSize);
    var run := RunBlocks(setup.structured, setup.startAngle, lasers, blocks);
    RunConserves(setup.structured, setup.startAngle, lasers, blocks);
    forall k | 0 <= k < |emissions|
      ensures EmissionStamps(emissions)[k] in PointTimes(run.batches[k])
    {
      assert WellEmitted(setup, emissions[k]);
      assert run.clouds[k] == Clouds(emissions)[k] == emissions[k].cloud;
      StampInBatch(setup.structured, run.batches[k], lasers);
    }
    assert |Clouds(emissions)| == |emissions|;
    StampsFromBatches(EmissionStamps(emissions), run.batches);
    PointTimesJoin(Flatten(run.batches), run.pending);
    SubsequencePrefix(PointTimes(Flatten(run.batches)), PointTimes(PointsOf(blocks)));
    SubsequenceTransitive(EmissionStamps(emissions), PointTimes(Flatten(run.batches)), PointTimes(PointsOf(blocks)));
  }
}
