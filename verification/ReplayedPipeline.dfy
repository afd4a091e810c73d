/**
 A whole run recorded and played back: what its scans offer is taken by fresh
 checks and cut into the clouds the run emitted.
 */
module ReplayedPipeline {
  import opened Common
  import opened PacketDefenses
  import opened TrackerIdempotence
  import opened FrameSplitter
  import Revolutions
  import opened XtPacket
  import opened XtFrames
  import opened FrameRuns
  import opened PacketProcessor
  import opened CloudStamps
  import opened CloudOrigins
  import opened ScanReplay
  import opened ReplayedRuns
  import opened ReplayedClouds
  import opened Pipeline
  import CorrectionText

  /** The clouds that the frame builder makes of a stream of packets. */
  function CloudsOfPackets(setup: Setup, packets: seq<Packet>): seq<seq<Point>>
    requires setup.Valid()
  {
    BlocksSmall(setup.packetSize, packets);
    Revolutions.RunBlocks(setup.structured, setup.startAngle, LasersOf(setup.packetSize), BlocksOf(setup.packetSize, packets)).clouds
  }

  // --------------------------------- the recorded packets made all the clouds

  /** How many of the accepted packets are in emitted scans. */
  ghost function RecordedCount(s: System): int {
    |s.accepted| - |s.frame.scan|
  }

  /** With a scan pending, the packets before it made all the clouds. */
  ghost predicate ScanPart(c: Config, s: System)
    requires c.setup.Valid()
  {
    && RecordedCount(s) >= 0
    && (s.frame.scan != [] ==> CloudsOfPackets(c.setup, s.accepted[..RecordedCount(s)]) == Clouds(s.emissions))
  }

  lemma ScanIsCounted(c: Config, s: System)
    requires FramePart(c, s)
    ensures RecordedCount(s) == |Flatten(Recorded(s.emissions))|
    ensures Flatten(Recorded(s.emissions)) == Raws(s.accepted[..RecordedCount(s)])
  {
    var recorded := Flatten(Recorded(s.emissions));
    assert |Raws(s.accepted)| == |s.accepted|;
    assert recorded == Raws(s.accepted)[..|recorded|];
  }

  /** Between packets, the recorded packets made all the clouds. */
  lemma CloudsOfRecorded(c: Config, s: System)
    requires FramePart(c, s) && ScanPart(c, s) && !s.worker.Working?
    ensures CloudsOfPackets(c.setup, s.accepted[..RecordedCount(s)]) == Clouds(s.emissions)
  {
    if s.frame.scan == [] {
      assert s.accepted[..RecordedCount(s)] == s.accepted;
    }
  }

  /** An accepted packet joins the scan. */
  lemma ScanGrows(c: Config, s: System, t: System, p: Packet, r: RawPacket)
    requires c.setup.Valid() && RecordedCount(s) >= 0
    requires CloudsOfPackets(c.setup, s.accepted[..RecordedCount(s)]) == Clouds(s.emissions)
    requires t.accepted == s.accepted + [p] && t.frame.scan == s.frame.scan + [r] && t.emissions == s.emissions
    ensures ScanPart(c, t)
  {
    assert t.accepted[..RecordedCount(t)] == s.accepted[..RecordedCount(s)];
  }

  lemma CheckKeepsScan(c: Config, s: System)
    requires FramePart(c, s) && ScanPart(c, s) && s.worker.Holding?
    ensures ScanPart(c, CheckPacket(c, s, s.worker.p))
  {
    var p := s.worker.p;
    CloudsOfRecorded(c, s);
    if Admit(c.setup.packetSize, s.filters, p).1.Some? {
      ScanGrows(c, s, CheckPacket(c, s, p), p, Raw(p));
    }
  }

  /** A step that leaves the scan and the emissions, or empties the scan. */
  lemma ScanKept(c: Config, s: System, t: System)
    requires c.setup.Valid() && ScanPart(c, s) && t.accepted == s.accepted
    requires t.frame.scan == [] || (t.frame.scan == s.frame.scan && t.emissions == s.emissions)
    ensures ScanPart(c, t)
  {
  }

  lemma BlockKeepsScan(c: Config, s: System, p: Packet, xt: XtData, b: nat)
    requires FramePart(c, s) && FilterPart(c, s) && ScanPart(c, s) && s.worker == Working(p, xt, b)
    requires Decoded(p, xt) && b < |xt.blocks|
    ensures ScanPart(c, AddBlock(c, s, p, xt, b))
  {
    BlockKeepsFrames(c, s, p, xt, b);
    ScanAfterBlock(c.setup, s.frame, p, xt, b);
    EffectKeepsScan(c, s, AddBlock(c, s, p, xt, b), OnBlock(c.setup, s.frame, p, xt, b).0,
                    OnBlock(c.setup, s.frame, p, xt, b).1, SensorBlock(p, xt, b));
  }

  lemma EffectKeepsScan(c: Config, s: System, t: System, g: FrameState, now: seq<Emission>, block: Block)
    requires c.setup.Valid() && ScanPart(c, s) && BlockEffect(s, t, g, now, block)
    requires g.scan == [] || (g.scan == s.frame.scan && now == [])
    ensures ScanPart(c, t)
  {
    assert s.emissions + [] == s.emissions;
    ScanKept(c, s, t);
  }

  /** An emission empties the scan; any other block leaves it. */
  lemma ScanAfterBlock(setup: Setup, f: FrameState, p: Packet, xt: XtData, b: nat)
    requires FrameOk(setup, f) && Decoded(p, xt) && b < |xt.blocks|
    ensures var (g, now) := OnBlock(setup, f, p, xt, b);
            g.scan == [] || (g.scan == f.scan && now == [])
  {
  }

  lemma OthersKeepScan(c: Config, s: System, step: Step)
    requires c.setup.Valid() && ScanPart(c, s) && Enabled(c, s, step) && !step.Check? && !step.NextBlock?
    ensures ScanPart(c, Apply(c, s, step))
  {
    ScanKept(c, s, Apply(c, s, step));
  }

  lemma StepKeepsScan(c: Config, s: System, step: Step)
    requires FramePart(c, s) && FilterPart(c, s) && ScanPart(c, s) && Enabled(c, s, step)
    ensures ScanPart(c, Apply(c, s, step))
  {
    if step.Check? {
      CheckKeepsScan(c, s);
    } else if step.NextBlock? {
      BlockKeepsScan(c, s, s.worker.p, s.worker.xt, s.worker.next);
    } else {
      OthersKeepScan(c, s, step);
    }
  }

  lemma {:induction false} RunKeepsScan(c: Config, base: seq<Packet>, steps: seq<Step>)
    requires c.Valid() && |base| == c.ring.capacity && Run(c, base, steps)
    ensures ScanPart(c, After(c, base, steps))
  {
    if steps != [] {
      RunInv(c, base, Front(steps));
      RunKeepsScan(c, base, Front(steps));
      StepKeepsScan(c, After(c, base, Front(steps)), Last(steps));
    }
  }

  // ------------------------------------------------- a prefix is taken again

  lemma FrontAdmitted(size: nat, packets: seq<Packet>)
    requires packets != [] && RunAdmit(size, packets).accepted == packets
    ensures RunAdmit(size, Front(packets)).accepted == Front(packets)
  {
    var rest := Front(packets);
    OutcomesBalance(size, rest);
    WholeSubsequence(RunAdmit(size, rest).accepted, rest);
    assert packets == rest + [Last(packets)];
  }

  lemma {:induction false} PrefixAdmitted(size: nat, prefix: seq<Packet>, rest: seq<Packet>)
    requires RunAdmit(size, prefix + rest).accepted == prefix + rest
    ensures RunAdmit(size, prefix).accepted == prefix
    decreases |rest|
  {
    if rest == [] {
      assert prefix + rest == prefix;
    } else {
      FrontAdmitted(size, prefix + rest);
      assert Front(prefix + rest) == prefix + Front(rest);
      PrefixAdmitted(size, prefix, Front(rest));
    }
  }

  // ------------------------------------------------------------ end to end

  /** These offers are these packets, as the receiving side gets them. */
  ghost predicate OffersAre(offers: seq<Offer>, packets: seq<Packet>) {
    && |offers| == |packets|
    && forall i :: 0 <= i < |offers| ==> Finite(offers[i].stamp) == packets[i].stamp && offers[i].data == packets[i].data
  }

  lemma OffersAreReplayed(packets: seq<Packet>)
    requires forall i :: 0 <= i < |packets| ==> packets[i].stamp.Finite?
    ensures OffersAre(Offers(Raws(packets)), ReplayedAll(packets))
  {
    forall i | 0 <= i < |packets|
      ensures Finite(Offers(Raws(packets))[i].stamp) == ReplayedAll(packets)[i].stamp
      ensures Offers(Raws(packets))[i].data == ReplayedAll(packets)[i].data
    {
      OfferIsReplayed(packets[i]);
    }
  }

  lemma RecordedTakenAgain(c: Config, s: System, n: nat)
    requires FilterPart(c, s) && n <= |s.accepted|
    requires RestartsKeepTheirGap(XT_SEQUENCE_RESTART_IDLE_SEC,
               Arrivals(c.setup.packetSize, RunAdmit(c.setup.packetSize, s.handled).candidates))
    ensures RunAdmit(c.setup.packetSize, ReplayedAll(s.accepted[..n])).accepted == ReplayedAll(s.accepted[..n])
  {
    ReplayIsAccepted(c.setup.packetSize, s.handled);
    assert ReplayedAll(s.accepted) == ReplayedAll(s.accepted[..n]) + ReplayedAll(s.accepted[n..]);
    PrefixAdmitted(c.setup.packetSize, ReplayedAll(s.accepted[..n]), ReplayedAll(s.accepted[n..]));
  }

  lemma RecordedMakeSameClouds(c: Config, s: System, n: nat)
    requires FramePart(c, s) && ScanPart(c, s) && !s.worker.Working? && n == RecordedCount(s)
    ensures n <= |s.accepted| && CloudsOfPackets(c.setup, ReplayedAll(s.accepted[..n])) == RoundLists(Clouds(s.emissions))
  {
    CloudsOfRecorded(c, s);
    ReplayGivesSameClouds(c.setup, s.accepted[..n]);
  }

  lemma RecordedAreOffered(c: Config, s: System, n: nat)
    requires FilterPart(c, s) && FramePart(c, s) && n == RecordedCount(s)
    ensures n <= |s.accepted| && OffersAre(Offers(Flatten(Recorded(s.emissions))), ReplayedAll(s.accepted[..n]))
  {
    ScanIsCounted(c, s);
    AcceptedDecode(c.setup.packetSize, s.handled);
    OffersAreReplayed(s.accepted[..n]);
  }

  /**
   Record any run up to a point between packets and play its scans back. What they
   offer, taken as packets by fresh checks, is accepted whole, and the frame
   builder makes of it exactly the clouds the run emitted, stamps rounded down to
   nanoseconds; provided that the restarts of the run keep their gap.
   */
  lemma ReplayedRunGivesItsClouds(c: Config, base: seq<Packet>, steps: seq<Step>, file: Option<string>, start: Replay)
    requires c.Valid() && |base| == c.ring.capacity && Run(c, base, steps) && !After(c, base, steps).worker.Working?
    requires CorrectionText.Printable(c.setup.table) && |start.table| == MAX_LASER_NUM
    requires RestartsKeepTheirGap(XT_SEQUENCE_RESTART_IDLE_SEC,
               Arrivals(c.setup.packetSize, RunAdmit(c.setup.packetSize, After(c, base, steps).handled).candidates))
    ensures var s := After(c, base, steps);
            AllWellSized(Scans(s.emissions)) && 0 <= RecordedCount(s) <= |s.accepted|
    ensures var s := After(c, base, steps);
            var again := ReplayedAll(s.accepted[..RecordedCount(s)]);
            && |start.offers| <= |ReplayAll(file, start, Scans(s.emissions)).offers|
            && OffersAre(ReplayAll(file, start, Scans(s.emissions)).offers[|start.offers|..], again)
            && RunAdmit(c.setup.packetSize, again).accepted == again
            && CloudsOfPackets(c.setup, again) == RoundLists(Clouds(s.emissions))
  {
    var s := After(c, base, steps);
    RunInv(c, base, steps);
    RunKeepsScan(c, base, steps);
    ReplayOfState(c, s, file, start);
    RecordedAreOffered(c, s, RecordedCount(s));
    RecordedTakenAgain(c, s, RecordedCount(s));
    RecordedMakeSameClouds(c, s, RecordedCount(s));
    var offers, offered := ReplayAll(file, start, Scans(s.emissions)).offers, Offers(Flatten(Recorded(s.emissions)));
    assert offers == start.offers + offered;
    assert offers[|start.offers|..] == offered;
  }
}
