/**
 A recorded run played back: the same packets are offered again, the checks take
 all of them, and the frame builder cuts them into the same clouds, stamps
 rounded down to nanoseconds.
 */
module ReplayedRuns {
  import opened Common
  import opened PacketDefenses
  import opened TrackerIdempotence
  import opened FrameSplitter
  import opened XtFrames
  import opened FrameRuns
  import opened PacketProcessor
  import opened CloudStamps
  import opened CloudOrigins
  import opened ScanReplay
  import CorrectionText
  import Pipeline

  // ---------------------------------------------- what the scans of a run hold

  lemma {:induction false} FlattenHolds<T>(xss: seq<seq<T>>, i: nat, j: nat)
    requires i < |xss| && j < |xss[i]|
    ensures xss[i][j] in Flatten(xss)
  {
    if i < |xss| - 1 {
      FlattenHolds(Front(xss), i, j);
    }
  }

  /** A packet of the XT layout does not begin like a correction packet. */
  lemma AcceptedAreData(size: nat, packets: seq<Packet>)
    ensures AllData(Raws(RunAdmit(size, packets).accepted))
    ensures AllDecode(size, RunAdmit(size, packets).accepted)
  {
    AcceptedDecode(size, packets);
    DecodedAreData(size, RunAdmit(size, packets).accepted);
  }

  lemma DecodedAreData(size: nat, packets: seq<Packet>)
    requires AllDecode(size, packets)
    ensures AllData(Raws(packets))
  {
    forall i | 0 <= i < |packets|
      ensures IsData(Raws(packets)[i])
    {
      LayoutIsData(size, packets[i]);
    }
  }

  lemma LayoutIsData(size: nat, p: Packet)
    requires p.stamp.Finite? && Layout(size, p).Some?
    ensures IsData(RawOf(p))
  {
  }

  lemma ScansAreReplayable(setup: Setup, emissions: seq<Emission>, arrived: seq<RawPacket>)
    requires setup.Valid() && AllData(arrived) && Flatten(Recorded(emissions)) <= arrived
    requires forall i :: 0 <= i < |emissions| ==> WellEmitted(setup, emissions[i])
    ensures forall i :: 0 <= i < |emissions| ==> Replayable(CorrectionPacket(setup, LasersOf(setup.packetSize)), emissions[i])
  {
    forall i | 0 <= i < |emissions|
      ensures Replayable(CorrectionPacket(setup, LasersOf(setup.packetSize)), emissions[i])
    {
      assert WellEmitted(setup, emissions[i]);
      var data := Recorded(emissions)[i];
      forall j | 0 <= j < |data|
        ensures IsData(data[j])
      {
        FlattenHolds(Recorded(emissions), i, j);
        assert data[j] in arrived;
      }
    }
  }

  /**
   Playing back the emitted scans of any run offers accepted packets of that run,
   from the first on, in order and byte for byte, each stamp rounded down by less
   than a nanosecond, and restores the correction rows the run used.
   */
  lemma ReplayOfRun(c: Pipeline.Config, base: seq<Packet>, steps: seq<Pipeline.Step>, file: Option<string>, start: Replay)
    requires c.Valid() && |base| == c.ring.capacity && Pipeline.Run(c, base, steps)
    requires CorrectionText.Printable(c.setup.table) && |start.table| == MAX_LASER_NUM
    ensures var s := Pipeline.After(c, base, steps);
            && AllWellSized(Scans(s.emissions))
            && Flatten(Recorded(s.emissions)) <= Raws(s.accepted)
            && Played(RecordedRows(c.setup), start, Flatten(Recorded(s.emissions)), s.emissions != [],
                      ReplayAll(file, start, Scans(s.emissions)))
  {
    Pipeline.RunInv(c, base, steps);
    ReplayOfState(c, Pipeline.After(c, base, steps), file, start);
  }

  lemma ReplayOfState(c: Pipeline.Config, s: Pipeline.System, file: Option<string>, start: Replay)
    requires c.setup.Valid() && Pipeline.FilterPart(c, s) && Pipeline.FramePart(c, s)
    requires CorrectionText.Printable(c.setup.table) && |start.table| == MAX_LASER_NUM
    ensures AllWellSized(Scans(s.emissions))
    ensures Flatten(Recorded(s.emissions)) <= Raws(s.accepted)
    ensures Played(RecordedRows(c.setup), start, Flatten(Recorded(s.emissions)), s.emissions != [],
                   ReplayAll(file, start, Scans(s.emissions)))
  {
    AcceptedAreData(c.setup.packetSize, s.handled);
    ScansAreReplayable(c.setup, s.emissions, Raws(s.accepted));
    CorrectionCarriesTable(c.setup);
    ReplayOffersRecorded(CorrectionPacket(c.setup, LasersOf(c.setup.packetSize)), RecordedRows(c.setup), s.emissions, file, start);
  }

  // ------------------------------------------------ the replay is taken again

  /** The packet as a replay brings it back: same bytes, stamp rounded down. */
  function Replayed(p: Packet): Packet {
    p.(stamp := if p.stamp.Finite? then Finite(Rounded(p.stamp.t)) else NonFinite)
  }

  function ReplayedAll(packets: seq<Packet>): seq<Packet> {
    seq(|packets|, i requires 0 <= i < |packets| => Replayed(packets[i]))
  }

  /** What is offered for a recorded packet is that packet replayed, and less than a nanosecond earlier. */
  lemma OfferIsReplayed(p: Packet)
    requires p.stamp.Finite?
    ensures var o := OfferOf(Raw(p));
            && Finite(o.stamp) == Replayed(p).stamp && o.data == Replayed(p).data == p.data
            && p.stamp.t - 0.000_000_001 < o.stamp <= p.stamp.t
  {
    StampRoundsDown(p.stamp.t);
  }

  /** The tolerance is a whole number of nanoseconds, so rounding cannot push a stamp below it. */
  lemma RoundedTimesNeverRegress(packets: seq<Packet>)
    requires NonRegressing(TIMESTAMP_REGRESSION_TOLERANCE_SEC, Times(packets))
    requires forall i :: 0 <= i < |packets| ==> packets[i].stamp.Finite?
    ensures NonRegressing(TIMESTAMP_REGRESSION_TOLERANCE_SEC, Times(ReplayedAll(packets)))
  {
    var ts, rs := Times(packets), Times(ReplayedAll(packets));
    forall i, j | 0 <= i < j < |rs|
      ensures rs[j] >= rs[i] - TIMESTAMP_REGRESSION_TOLERANCE_SEC
    {
      assert ts[j] >= ts[i] - TIMESTAMP_REGRESSION_TOLERANCE_SEC;
      RoundingKeepsLag(ts[i], ts[j], -100_000_000);
    }
  }

  /** `again` has the sequences of `arrivals`, and an idle gap wherever `arrivals` has one. */
  ghost predicate IdleKept(idle: real, arrivals: seq<Arrival>, again: seq<Arrival>) {
    && |again| == |arrivals|
    && (forall i :: 0 <= i < |again| ==> again[i].sequence == arrivals[i].sequence)
    && (forall i :: 0 < i < |again| ==> GapKept(idle, arrivals, again, i))
  }

  ghost predicate GapKept(idle: real, arrivals: seq<Arrival>, again: seq<Arrival>, i: nat)
    requires 0 < i < |again| == |arrivals|
  {
    IdleElapsed(idle, arrivals[i - 1].stamp, arrivals[i].stamp) ==> IdleElapsed(idle, again[i - 1].stamp, again[i].stamp)
  }

  /** A stream a tracker takes whole is taken whole again when no idle gap is lost. */
  lemma WholeStreamTakenAgain(idle: real, arrivals: seq<Arrival>, again: seq<Arrival>)
    requires IdleKept(idle, arrivals, again) && RunTracker(idle, arrivals).accepted == arrivals
    ensures RunTracker(idle, again).accepted == again
  {
    TakenWholeIff(idle, arrivals);
    TakenWholeIff(idle, again);
    forall i | 0 < i < |again|
      ensures GoesOn(idle, again, i)
    {
      assert GoesOn(idle, arrivals, i) && GapKept(idle, arrivals, again, i);
    }
  }

  /** A stream the guard takes whole, every layout right, reaches the tracker whole. */
  lemma {:induction false} AllReachTracker(size: nat, packets: seq<Packet>)
    requires NonRegressing(TIMESTAMP_REGRESSION_TOLERANCE_SEC, Times(packets))
    requires AllDecode(size, packets)
    ensures RunAdmit(size, packets).candidates == packets
  {
    if packets != [] {
      var rest, p := Front(packets), Last(packets);
      assert packets == rest + [p];
      TimesSnoc(rest, p);
      NonRegressingPrefix(TIMESTAMP_REGRESSION_TOLERANCE_SEC, Times(rest), [TimeOf(p)]);
      AllReachTracker(size, rest);
      ChecksFactor(size, rest);
      assert PacketStamps(rest) == Stamps(Times(rest));
      FreshGuardPassesIff(TIMESTAMP_REGRESSION_TOLERANCE_SEC, Times(rest));
      var guard := RunGuard(TIMESTAMP_REGRESSION_TOLERANCE_SEC, Stamps(Times(rest)));
      assert guard == GuardRun(guard.state, Times(rest));
      Pipeline.NextStampPasses(Times(rest), TimeOf(p), guard.state);
    }
  }

  lemma {:induction false} WholeSubsequence<T>(xs: seq<T>, ys: seq<T>)
    requires Subsequence(xs, ys)
    ensures |xs| <= |ys|
    ensures |xs| == |ys| ==> xs == ys
    decreases |ys|
  {
    if xs != [] {
      if Last(xs) == Last(ys) && Subsequence(Front(xs), Front(ys)) {
        WholeSubsequence(Front(xs), Front(ys));
      } else {
        WholeSubsequence(xs, Front(ys));
      }
    }
  }

  /** Rounding keeps every idle gap: two seconds are a whole number of nanoseconds. */
  lemma RoundingKeepsIdle(size: nat, packets: seq<Packet>)
    requires forall i :: 0 <= i < |packets| ==> packets[i].stamp.Finite?
    ensures IdleKept(XT_SEQUENCE_RESTART_IDLE_SEC, Arrivals(size, packets), Arrivals(size, ReplayedAll(packets)))
  {
    var xs, ys := Arrivals(size, packets), Arrivals(size, ReplayedAll(packets));
    forall i | 0 < i < |ys|
      ensures GapKept(XT_SEQUENCE_RESTART_IDLE_SEC, xs, ys, i)
    {
      if packets[i].stamp.t - packets[i - 1].stamp.t >= XT_SEQUENCE_RESTART_IDLE_SEC {
        RoundingKeepsLag(packets[i - 1].stamp.t, packets[i].stamp.t, 2_000_000_000);
      }
    }
  }

  lemma ReplayReachesTracker(size: nat, packets: seq<Packet>)
    ensures var again := ReplayedAll(RunAdmit(size, packets).accepted);
            RunAdmit(size, again).candidates == again
  {
    var run := RunAdmit(size, packets);
    AcceptedAreData(size, packets);
    AcceptedTimesNeverRegress(size, packets);
    RoundedTimesNeverRegress(run.accepted);
    SameLayouts(size, run.accepted);
    AllReachTracker(size, ReplayedAll(run.accepted));
  }

  /**
   Fresh checks take all the accepted packets again when they are replayed
   exactly when, in the recording itself, every packet's number lies ahead of the
   one before it or its rounded stamp is two seconds later: the guard and the
   layout check never drop one.
   */
  lemma ReplayIsAcceptedIff(size: nat, packets: seq<Packet>)
    ensures var again := ReplayedAll(RunAdmit(size, packets).accepted);
            RunAdmit(size, again).accepted == again <==>
            forall i :: 0 < i < |again| ==> GoesOn(XT_SEQUENCE_RESTART_IDLE_SEC, Arrivals(size, again), i)
  {
    var again := ReplayedAll(RunAdmit(size, packets).accepted);
    ReplayReachesTracker(size, packets);
    TakenWhole(size, again);
    TakenWholeIff(XT_SEQUENCE_RESTART_IDLE_SEC, Arrivals(size, again));
  }

  /**
   In particular they do, despite the rounded stamps, when the restarts of the
   first run keep their gap, as they do when its stamps ascend.
   */
  lemma ReplayIsAccepted(size: nat, packets: seq<Packet>)
    requires RestartsKeepTheirGap(XT_SEQUENCE_RESTART_IDLE_SEC, Arrivals(size, RunAdmit(size, packets).candidates))
    ensures var again := ReplayedAll(RunAdmit(size, packets).accepted);
            RunAdmit(size, again).accepted == again
  {
    var idle := XT_SEQUENCE_RESTART_IDLE_SEC;
    var run := RunAdmit(size, packets);
    var again := ReplayedAll(run.accepted);
    ReplayReachesTracker(size, packets);
    AcceptedAreData(size, packets);
    ChecksFactor(size, packets);
    TrackingIdempotentIff(idle, Arrivals(size, run.candidates));
    RoundingKeepsIdle(size, run.accepted);
    WholeStreamTakenAgain(idle, Arrivals(size, run.accepted), Arrivals(size, again));
    TakenWhole(size, again);
  }

  lemma SameLayouts(size: nat, packets: seq<Packet>)
    requires AllDecode(size, packets)
    ensures AllDecode(size, ReplayedAll(packets))
  {
    forall i | 0 <= i < |packets|
      ensures Layout(size, ReplayedAll(packets)[i]) == Layout(size, packets[i])
    {
    }
  }

  lemma TakenWhole(size: nat, packets: seq<Packet>)
    requires RunAdmit(size, packets).candidates == packets
    ensures RunAdmit(size, packets).accepted == packets
       <==> RunTracker(XT_SEQUENCE_RESTART_IDLE_SEC, Arrivals(size, packets)).accepted == Arrivals(size, packets)
  {
    ChecksFactor(size, packets);
    assert |Arrivals(size, RunAdmit(size, packets).accepted)| == |RunAdmit(size, packets).accepted|;
    assert |Arrivals(size, packets)| == |packets|;
    WholeSubsequence(RunAdmit(size, packets).accepted, packets);
  }

  /** Ascending stamps are such a case. */
  lemma AscendingRestartsKeepTheirGap(idle: real, arrivals: seq<Arrival>)
    requires StampsAscend(arrivals)
    ensures RestartsKeepTheirGap(idle, arrivals)
  {
    TrackingIsIdempotent(idle, arrivals);
    TrackingIdempotentIff(idle, arrivals);
  }
}
