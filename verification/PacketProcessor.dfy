/**
 Which packets reach the frame builder: the timestamp guard, the size and layout
 checks and the sequence tracker in their order, with the diagnostic counters,
 and the object that runs them in front of the builder.
 */
module PacketProcessor {
  import opened Common
  import opened XtPacket
  import opened PacketDefenses
  import opened TrackerRefinement
  import opened TrackerIdempotence
  import opened XtFrames
  import FrameSplitter

  datatype Counters = Counters(
    processed: nat, regressions: nat, gapPackets: nat, duplicates: nat, backwards: nat, restarts: nat)

  datatype Filters = Filters(guard: GuardState, tracker: TrackerState, counters: Counters)

  const NO_COUNTS := Counters(0, 0, 0, 0, 0, 0)
  const FRESH_FILTERS := Filters(FRESH_GUARD, FRESH_TRACKER, NO_COUNTS)

  function CountDecision(c: Counters, d: SequenceDecision): Counters {
    match d.status
    case ForwardGap => c.(gapPackets := c.gapPackets + d.missing)
    case Duplicate => c.(duplicates := c.duplicates + 1)
    case Backward => c.(backwards := c.backwards + 1)
    case RestartAfterIdle => c.(restarts := c.restarts + 1)
    case _ => c
  }

  /** The packet's content, if it has the size of the configured model and passes the layout check. */
  function Layout(size: nat, p: Packet): Option<XtData> {
    if |p.data| == size then DecodeXt(p.data) else None
  }

  /** The checks in order, given the sequence number of a packet whose layout is right. */
  function Decide(f: Filters, stamp: Stamp, sequence: Option<uint32>): (r: (Filters, bool))
    ensures r.1 ==> stamp.Finite? && sequence.Some?
  {
    var (guard, verdict) := GuardStep(TIMESTAMP_REGRESSION_TOLERANCE_SEC, f.guard, stamp);
    var counters := f.counters.(processed := f.counters.processed + 1);
    if !verdict.Accepted() then (Filters(guard, f.tracker, counters.(regressions := counters.regressions + 1)), false)
    else if sequence.None? then (Filters(guard, f.tracker, counters), false)
    else
      var (tracker, d) := TrackerStep(XT_SEQUENCE_RESTART_IDLE_SEC, f.tracker, sequence.value, stamp);
      (Filters(guard, tracker, CountDecision(counters, d)), d.Accepted())
  }

  function SequenceOf(xt: Option<XtData>): Option<uint32> {
    if xt.Some? then Some(xt.value.udpSequence) else None
  }

  /** The checks on one packet; the decoded packet if all of them pass. */
  function Admit(size: nat, f: Filters, p: Packet): (r: (Filters, Option<XtData>))
    ensures r.1.Some? ==> r.1 == Layout(size, p) && Decoded(p, r.1.value)
  {
    var xt := Layout(size, p);
    var (filters, ok) := Decide(f, p.stamp, SequenceOf(xt));
    if ok then DecodeGivesShape(p, xt.value); (filters, xt) else (filters, None)
  }

  class PacketProcessor {
    const guard: TimestampGuard
    const tracker: XtSequenceTracker
    const builder: XtFrameBuilder
    var processedPackets: nat
    var packetTimestampRegressions: nat
    var sequenceGapPackets: nat
    var sequenceDuplicates: nat
    var sequenceBackwards: nat
    var sequenceRestarts: nat

    ghost predicate Valid()
      reads this, builder
    {
      && guard.toleranceSec == TIMESTAMP_REGRESSION_TOLERANCE_SEC
      && tracker.restartIdleSec == XT_SEQUENCE_RESTART_IDLE_SEC
      && builder.Valid()
    }

    function Counted(): Counters
      reads this
    {
      Counters(processedPackets, packetTimestampRegressions, sequenceGapPackets,
               sequenceDuplicates, sequenceBackwards, sequenceRestarts)
    }

    function State(): Filters
      reads this, guard, tracker
    {
      Filters(guard.State(), tracker.State(), Counted())
    }

    constructor (setup: Setup, blank: FrameSplitter.Point)
      requires setup.Valid()
      ensures Valid() && State() == FRESH_FILTERS
      ensures fresh(guard) && fresh(tracker) && fresh(builder) && fresh(builder.pointCloud)
      ensures builder.setup == setup && builder.emitted == []
      ensures builder.State() == FrameState(FrameSplitter.Fresh(setup.structured), [])
    {
      guard := new TimestampGuard(TIMESTAMP_REGRESSION_TOLERANCE_SEC);
      tracker := new XtSequenceTracker(XT_SEQUENCE_RESTART_IDLE_SEC);
      builder := new XtFrameBuilder(setup, blank);
      processedPackets, packetTimestampRegressions, sequenceGapPackets := 0, 0, 0;
      sequenceDuplicates, sequenceBackwards, sequenceRestarts := 0, 0, 0;
    }

    /** What starting does to the processing state: both filters and the frame begin anew, the counters go on. */
    method Start()
      requires Valid()
      modifies guard, tracker, builder
      ensures Valid() && State() == FRESH_FILTERS.(counters := old(Counted()))
      ensures builder.State() == FrameState(FrameSplitter.Fresh(builder.setup.structured), [])
      ensures builder.emitted == old(builder.emitted)
    {
      guard.Reset();
      tracker.Reset();
      builder.Restart();
    }

    method CountSequence(d: SequenceDecision)
      modifies this`sequenceGapPackets, this`sequenceDuplicates, this`sequenceBackwards, this`sequenceRestarts
      ensures Counted() == CountDecision(old(Counted()), d)
    {
      if d.status == ForwardGap {
        sequenceGapPackets := sequenceGapPackets + d.missing;
      } else if d.status == Duplicate {
        sequenceDuplicates := sequenceDuplicates + 1;
      } else if d.status == Backward {
        sequenceBackwards := sequenceBackwards + 1;
      } else if d.status == RestartAfterIdle {
        sequenceRestarts := sequenceRestarts + 1;
      }
    }

    /** The checks, as the processing loop makes them. */
    method Check(p: Packet) returns (admitted: Option<XtData>)
      requires Valid()
      modifies this, guard, tracker
      ensures Valid() && (State(), admitted) == Admit(builder.setup.packetSize, old(State()), p)
    {
      processedPackets := processedPackets + 1;
      var verdict := guard.Observe(p.stamp);
      if !verdict.Accepted() {
        packetTimestampRegressions := packetTimestampRegressions + 1;
        return None;
      }
      if |p.data| != builder.setup.packetSize {
        return None;
      }
      var decoded := ParseXtData(p.data);
      if decoded.None? {
        return None;
      }
      var d := tracker.Observe(decoded.value.udpSequence, p.stamp);
      CountSequence(d);
      return if d.Accepted() then decoded else None;
    }

    /** One turn of the processing loop for a popped packet. */
    method HandlePacket(p: Packet)
      requires Valid()
      requires var admitted := Admit(builder.setup.packetSize, State(), p).1;
               admitted.Some? ==> FitsThroughout(builder.setup, OnArrival(builder.State(), p), p, admitted.value)
      modifies this, guard, tracker, builder, builder.pointCloud
      ensures Valid()
      ensures State() == Admit(builder.setup.packetSize, old(State()), p).0
      ensures var admitted := Admit(builder.setup.packetSize, old(State()), p).1;
              if admitted.None? then
                builder.State() == old(builder.State()) && builder.emitted == old(builder.emitted)
              else
                && builder.State() == OnPacket(builder.setup, old(builder.State()), p, admitted.value).0
                && builder.emitted
                   == old(builder.emitted) + OnPacket(builder.setup, old(builder.State()), p, admitted.value).1
    {
      var admitted := Check(p);
      if admitted.Some? {
        builder.ProcessXtPacket(p, admitted.value);
      }
    }
  }

  // ------------------------------------------------------- runs of the checks

  /** `candidates` collects what reaches the sequence tracker. */
  datatype AdmitRun = AdmitRun(filters: Filters, candidates: seq<Packet>, accepted: seq<Packet>)

  predicate PassesGuard(f: Filters, stamp: Stamp) {
    GuardStep(TIMESTAMP_REGRESSION_TOLERANCE_SEC, f.guard, stamp).1.Accepted()
  }

  function ExtendAdmit(run: AdmitRun, p: Packet, sequence: Option<uint32>): AdmitRun {
    var (filters, ok) := Decide(run.filters, p.stamp, sequence);
    AdmitRun(filters,
             if PassesGuard(run.filters, p.stamp) && sequence.Some? then run.candidates + [p] else run.candidates,
             if ok then run.accepted + [p] else run.accepted)
  }

  /** The checks on a stream, from a given state on. */
  function AdmitFrom(size: nat, f: Filters, packets: seq<Packet>): AdmitRun {
    if packets == [] then AdmitRun(f, [], [])
    else ExtendAdmit(AdmitFrom(size, f, Front(packets)), Last(packets), SequenceOf(Layout(size, Last(packets))))
  }

  function RunAdmit(size: nat, packets: seq<Packet>): AdmitRun {
    AdmitFrom(size, FRESH_FILTERS, packets)
  }

  lemma AdmitSnoc(size: nat, packets: seq<Packet>, p: Packet)
    ensures RunAdmit(size, packets + [p]) == ExtendAdmit(RunAdmit(size, packets), p, SequenceOf(Layout(size, p)))
  {
    assert Front(packets + [p]) == packets;
  }

  function PacketStamps(packets: seq<Packet>): seq<Stamp> {
    seq(|packets|, i requires 0 <= i < |packets| => packets[i].stamp)
  }

  function ArrivalOf(size: nat, p: Packet): Arrival {
    var sequence := SequenceOf(Layout(size, p));
    Arrival(if sequence.Some? then sequence.value else 0, p.stamp)
  }

  function Arrivals(size: nat, packets: seq<Packet>): seq<Arrival> {
    seq(|packets|, i requires 0 <= i < |packets| => ArrivalOf(size, packets[i]))
  }

  lemma ArrivalsSnoc(size: nat, packets: seq<Packet>, p: Packet)
    ensures Arrivals(size, packets + [p]) == Arrivals(size, packets) + [ArrivalOf(size, p)]
  {
  }

  function TimeOf(p: Packet): real {
    if p.stamp.Finite? then p.stamp.t else 0.0
  }

  function Times(packets: seq<Packet>): seq<real> {
    seq(|packets|, i requires 0 <= i < |packets| => TimeOf(packets[i]))
  }

  lemma TimesSnoc(packets: seq<Packet>, p: Packet)
    ensures Times(packets + [p]) == Times(packets) + [TimeOf(p)]
  {
  }

  /** How a run of the checks decomposes into one run of the guard and one of the tracker. */
  ghost predicate Factors(size: nat, run: AdmitRun, guard: GuardRun, tracker: TrackerRun) {
    && run.filters.guard == guard.state
    && run.filters.tracker == tracker.state
    && run.filters.counters.gapPackets == tracker.missing
    && Arrivals(size, run.accepted) == tracker.accepted
    && Subsequence(run.accepted, run.candidates)
    && Subsequence(Times(run.candidates), guard.accepted)
  }

  function ExtendGuard(tolerance: real, run: GuardRun, s: Stamp): GuardRun {
    var (state, d) := GuardStep(tolerance, run.state, s);
    GuardRun(state, if d.Accepted() then run.accepted + [s.t] else run.accepted)
  }

  /** A packet the guard or the layout check stops. */
  lemma StoppedEarly(size: nat, run: AdmitRun, guard: GuardRun, tracker: TrackerRun, p: Packet, sequence: Option<uint32>)
    requires Factors(size, run, guard, tracker)
    requires !PassesGuard(run.filters, p.stamp) || sequence.None?
    ensures var next := ExtendAdmit(run, p, sequence);
            && next.candidates == run.candidates && next.accepted == run.accepted
            && Factors(size, next, ExtendGuard(TIMESTAMP_REGRESSION_TOLERANCE_SEC, guard, p.stamp), tracker)
  {
    if PassesGuard(run.filters, p.stamp) {
      SubsequenceSkip(Times(run.candidates), guard.accepted, p.stamp.t);
    }
  }

  /** What the checks do to a packet that reaches the tracker. */
  lemma TrackerDecides(f: Filters, stamp: Stamp, sequence: uint32)
    requires PassesGuard(f, stamp)
    ensures var (next, ok) := Decide(f, stamp, Some(sequence));
            var (tracker, d) := TrackerStep(XT_SEQUENCE_RESTART_IDLE_SEC, f.tracker, sequence, stamp);
            && next.guard == GuardStep(TIMESTAMP_REGRESSION_TOLERANCE_SEC, f.guard, stamp).0
            && next.tracker == tracker && ok == d.Accepted()
            && next.counters.gapPackets == f.counters.gapPackets + (if ok then d.missing else 0)
  {
  }

  /** A packet that reaches the tracker: both filters advance as they would alone. */
  lemma FiltersAdvance(size: nat, run: AdmitRun, guard: GuardRun, tracker: TrackerRun, p: Packet, sequence: uint32)
    requires Factors(size, run, guard, tracker) && PassesGuard(run.filters, p.stamp)
    ensures var next := ExtendAdmit(run, p, Some(sequence));
            var guard' := ExtendGuard(TIMESTAMP_REGRESSION_TOLERANCE_SEC, guard, p.stamp);
            var tracker' := ExtendRun(XT_SEQUENCE_RESTART_IDLE_SEC, tracker, Arrival(sequence, p.stamp));
            && next.filters.guard == guard'.state && guard'.accepted == guard.accepted + [TimeOf(p)]
            && next.filters.tracker == tracker'.state && next.filters.counters.gapPackets == tracker'.missing
            && next.candidates == run.candidates + [p]
            && ((next.accepted == run.accepted && tracker'.accepted == tracker.accepted)
                || (next.accepted == run.accepted + [p] && tracker'.accepted == tracker.accepted + [Arrival(sequence, p.stamp)]))
  {
    TrackerDecides(run.filters, p.stamp, sequence);
  }

  /** A packet that reaches the tracker. */
  lemma ReachesTracker(size: nat, run: AdmitRun, guard: GuardRun, tracker: TrackerRun, p: Packet, sequence: uint32)
    requires Factors(size, run, guard, tracker)
    requires PassesGuard(run.filters, p.stamp) && ArrivalOf(size, p) == Arrival(sequence, p.stamp)
    ensures var next := ExtendAdmit(run, p, Some(sequence));
            && next.candidates == run.candidates + [p]
            && Factors(size, next, ExtendGuard(TIMESTAMP_REGRESSION_TOLERANCE_SEC, guard, p.stamp),
                       ExtendRun(XT_SEQUENCE_RESTART_IDLE_SEC, tracker, Arrival(sequence, p.stamp)))
  {
    FiltersAdvance(size, run, guard, tracker, p, sequence);
    JoinFactors(size, run, guard, tracker, p, Arrival(sequence, p.stamp), ExtendAdmit(run, p, Some(sequence)),
                ExtendGuard(TIMESTAMP_REGRESSION_TOLERANCE_SEC, guard, p.stamp),
                ExtendRun(XT_SEQUENCE_RESTART_IDLE_SEC, tracker, Arrival(sequence, p.stamp)));
  }

  lemma JoinFactors(size: nat, run: AdmitRun, guard: GuardRun, tracker: TrackerRun, p: Packet, a: Arrival,
                    next: AdmitRun, guard': GuardRun, tracker': TrackerRun)
    requires Factors(size, run, guard, tracker) && ArrivalOf(size, p) == a
    requires next.filters.guard == guard'.state && guard'.accepted == guard.accepted + [TimeOf(p)]
    requires next.filters.tracker == tracker'.state && next.filters.counters.gapPackets == tracker'.missing
    requires next.candidates == run.candidates + [p]
    requires (next.accepted == run.accepted && tracker'.accepted == tracker.accepted)
             || (next.accepted == run.accepted + [p] && tracker'.accepted == tracker.accepted + [a])
    ensures Factors(size, next, guard', tracker')
  {
    SubsequencesStep(run.accepted, run.candidates, guard.accepted, p, next.accepted);
    ArrivalsSnoc(size, run.accepted, p);
  }

  lemma SubsequencesStep(accepted: seq<Packet>, candidates: seq<Packet>, passed: seq<real>, p: Packet, next: seq<Packet>)
    requires Subsequence(accepted, candidates) && Subsequence(Times(candidates), passed)
    requires next == accepted || next == accepted + [p]
    ensures Subsequence(next, candidates + [p]) && Subsequence(Times(candidates + [p]), passed + [TimeOf(p)])
  {
    SubsequenceTake(Times(candidates), passed, TimeOf(p));
    TimesSnoc(candidates, p);
    SubsequenceSkip(accepted, candidates, p);
    SubsequenceTake(accepted, candidates, p);
  }

  /**
   Over every stream of packets the checks are the guard run on all reception
   stamps followed by the tracker run on those the guard and the layout let
   through: neither filter disturbs the other, and the driver's gap counter is
   the tracker's missing total.
   */
  lemma {:induction false} ChecksFactor(size: nat, packets: seq<Packet>)
    ensures var run := RunAdmit(size, packets);
            Factors(size, run, RunGuard(TIMESTAMP_REGRESSION_TOLERANCE_SEC, PacketStamps(packets)),
                    RunTracker(XT_SEQUENCE_RESTART_IDLE_SEC, Arrivals(size, run.candidates)))
  {
    if packets != [] {
      var run, p := RunAdmit(size, Front(packets)), Last(packets);
      ChecksFactor(size, Front(packets));
      assert Front(PacketStamps(packets)) == PacketStamps(Front(packets));
      var guard := RunGuard(TIMESTAMP_REGRESSION_TOLERANCE_SEC, PacketStamps(Front(packets)));
      var tracker := RunTracker(XT_SEQUENCE_RESTART_IDLE_SEC, Arrivals(size, run.candidates));
      var sequence := SequenceOf(Layout(size, p));
      if PassesGuard(run.filters, p.stamp) && sequence.Some? {
        ReachesTracker(size, run, guard, tracker, p, sequence.value);
        ArrivalsSnoc(size, run.candidates, p);
        RunTrackerSnoc(XT_SEQUENCE_RESTART_IDLE_SEC, Arrivals(size, run.candidates), ArrivalOf(size, p));
      } else {
        StoppedEarly(size, run, guard, tracker, p, sequence);
      }
    }
  }

  /** The packets that reach the tracker carry these true numbers, each segment within its window. */
  ghost predicate CarriesNumbers(size: nat, packets: seq<Packet>, ns: seq<int>) {
    var arrivals := Arrivals(size, RunAdmit(size, packets).candidates);
    Carries(arrivals, ns) && SegmentsInWindow(Segments(XT_SEQUENCE_RESTART_IDLE_SEC, arrivals, ns))
  }

  /** The true numbers of a session, cut at its idle restarts. */
  function SegmentsOf(size: nat, packets: seq<Packet>, ns: seq<int>): (r: seq<seq<int>>)
    requires |RunAdmit(size, packets).candidates| == |ns|
    ensures NonEmpty(r)
  {
    Segments(XT_SEQUENCE_RESTART_IDLE_SEC, Arrivals(size, RunAdmit(size, packets).candidates), ns)
  }

  /**
   Idle restarts included, the driver's gap counter is the number of packets never
   accepted, and with the accepted packets it makes up the spans of the segments.
   */
  lemma GapCounterIsExact(size: nat, packets: seq<Packet>, ns: seq<int>)
    requires CarriesNumbers(size, packets, ns)
    ensures |RunAdmit(size, packets).candidates| == |ns|
    ensures var (run, segments) := (RunAdmit(size, packets), SegmentsOf(size, packets, ns));
            && run.filters.counters.gapPackets == NeverAcceptedIn(segments)
            && |run.accepted| + run.filters.counters.gapPackets == Spans(segments)
  {
    ChecksFactor(size, packets);
    var run := RunAdmit(size, packets);
    TrackerCountsAcrossRestarts(XT_SEQUENCE_RESTART_IDLE_SEC, Arrivals(size, run.candidates), ns);
    assert |Arrivals(size, run.accepted)| == |run.accepted|;
  }

  // --- the other counters

  /** How many of the decisions have this status. */
  function WithStatus(decisions: seq<SequenceDecision>, status: SequenceStatus): nat {
    if decisions == [] then 0 else WithStatus(Front(decisions), status) + (if Last(decisions).status == status then 1 else 0)
  }

  ghost predicate CountsStatuses(c: Counters, decisions: seq<SequenceDecision>) {
    && c.duplicates == WithStatus(decisions, Duplicate)
    && c.backwards == WithStatus(decisions, Backward)
    && c.restarts == WithStatus(decisions, RestartAfterIdle)
  }

  lemma WithStatusSnoc(decisions: seq<SequenceDecision>, d: SequenceDecision, status: SequenceStatus)
    ensures WithStatus(decisions + [d], status) == WithStatus(decisions, status) + (if d.status == status then 1 else 0)
  {
    assert Front(decisions + [d]) == decisions;
  }

  lemma CountsStatusesSnoc(c: Counters, decisions: seq<SequenceDecision>, d: SequenceDecision)
    requires CountsStatuses(c, decisions)
    ensures CountsStatuses(CountDecision(c.(processed := c.processed + 1), d), decisions + [d])
  {
    WithStatusSnoc(decisions, d, Duplicate);
    WithStatusSnoc(decisions, d, Backward);
    WithStatusSnoc(decisions, d, RestartAfterIdle);
  }

  /** One more packet, given what the tracker did with the candidates so far. */
  lemma CountersStep(run: AdmitRun, p: Packet, sequence: Option<uint32>, decisions: seq<SequenceDecision>)
    requires CountsStatuses(run.filters.counters, decisions)
    ensures var next := ExtendAdmit(run, p, sequence);
            if PassesGuard(run.filters, p.stamp) && sequence.Some? then
              next.candidates == run.candidates + [p] &&
              CountsStatuses(next.filters.counters,
                             decisions + [TrackerStep(XT_SEQUENCE_RESTART_IDLE_SEC, run.filters.tracker, sequence.value, p.stamp).1])
            else next.candidates == run.candidates && CountsStatuses(next.filters.counters, decisions)
  {
    if PassesGuard(run.filters, p.stamp) && sequence.Some? {
      CountsStatusesSnoc(run.filters.counters, decisions,
                         TrackerStep(XT_SEQUENCE_RESTART_IDLE_SEC, run.filters.tracker, sequence.value, p.stamp).1);
    }
  }

  /**
   The counters of duplicates, backward packets and restarts are the numbers of
   packets on which the tracker, run alone on what the guard and the layout let
   through, decides so.
   */
  lemma {:induction false} CountersByStatus(size: nat, packets: seq<Packet>)
    ensures var (counters, arrivals) := (RunAdmit(size, packets).filters.counters, Arrivals(size, RunAdmit(size, packets).candidates));
            var decisions := DecisionsMade(XT_SEQUENCE_RESTART_IDLE_SEC, arrivals);
            && |decisions| == |arrivals|
            && counters.duplicates == WithStatus(decisions, Duplicate)
            && counters.backwards == WithStatus(decisions, Backward)
            && counters.restarts == WithStatus(decisions, RestartAfterIdle)
  {
    if packets != [] {
      var run, p := RunAdmit(size, Front(packets)), Last(packets);
      var arrivals := Arrivals(size, run.candidates);
      CountersByStatus(size, Front(packets));
      ChecksFactor(size, Front(packets));
      CountersStep(run, p, SequenceOf(Layout(size, p)), DecisionsMade(XT_SEQUENCE_RESTART_IDLE_SEC, arrivals));
      ArrivalsSnoc(size, run.candidates, p);
      DecisionsMadeSnoc(XT_SEQUENCE_RESTART_IDLE_SEC, arrivals, ArrivalOf(size, p));
      DecisionCounts(XT_SEQUENCE_RESTART_IDLE_SEC, arrivals + [ArrivalOf(size, p)]);
    } else {
      assert Arrivals(size, []) == [];
    }
  }

  // --- which packet is accepted next

  /** Ahead of `last` by less than half the range, wrapping. */
  predicate NumberAhead(last: uint32, next: uint32) {
    var forward := if next >= last then next - last else next - last + 4_294_967_296;
    0 < forward < 2_147_483_648
  }

  ghost predicate AllDecode(size: nat, packets: seq<Packet>) {
    forall i :: 0 <= i < |packets| ==> packets[i].stamp.Finite? && Layout(size, packets[i]).Some?
  }

  lemma {:induction false} AcceptedDecode(size: nat, packets: seq<Packet>)
    ensures AllDecode(size, RunAdmit(size, packets).accepted)
  {
    if packets != [] {
      AcceptedDecode(size, Front(packets));
    }
  }

  lemma {:induction false} CandidatesDecode(size: nat, packets: seq<Packet>)
    ensures AllDecode(size, RunAdmit(size, packets).candidates)
  {
    if packets != [] {
      CandidatesDecode(size, Front(packets));
    }
  }

  /** Its stamp is finite and no more than 0.1 s below any earlier finite stamp. */
  ghost predicate InTime(packets: seq<Packet>, p: Packet) {
    && p.stamp.Finite?
    && forall q :: q in packets && q.stamp.Finite? ==> p.stamp.t >= q.stamp.t - 0.1
  }

  /** It is the first, its number is ahead of the last accepted one, or 2 s have passed since the last that came so far. */
  ghost predicate InSequence(run: AdmitRun, p: Packet, number: uint32) {
    || run.candidates == []
    || TimeOf(p) - TimeOf(Last(run.candidates)) >= 2.0
    || (run.accepted != [] && exists xt :: DecodeXt(Last(run.accepted).data) == Some(xt) && NumberAhead(xt.udpSequence, number))
  }

  lemma GuardPassesNext(size: nat, packets: seq<Packet>, p: Packet)
    ensures PassesGuard(RunAdmit(size, packets).filters, p.stamp) <==> InTime(packets, p)
  {
    ChecksFactor(size, packets);
    var stamps := PacketStamps(packets);
    var m := RunGuard(TIMESTAMP_REGRESSION_TOLERANCE_SEC, stamps).state.last;
    GuardIsRunningMaximum(TIMESTAMP_REGRESSION_TOLERANCE_SEC, stamps);
    GuardAcceptsExactly(TIMESTAMP_REGRESSION_TOLERANCE_SEC, stamps, p.stamp, m);
    forall q | q in packets
      ensures q.stamp in stamps
    {
      var i :| 0 <= i < |packets| && packets[i] == q;
      assert stamps[i] == q.stamp;
    }
    forall s | s in stamps
      ensures exists q :: q in packets && q.stamp == s
    {
      var i :| 0 <= i < |stamps| && stamps[i] == s;
      assert packets[i] in packets;
    }
  }

  /** What the tracker has kept is the number of the last accepted packet and the stamp of the last candidate. */
  lemma TrackerRemembers(size: nat, packets: seq<Packet>)
    ensures var run := RunAdmit(size, packets);
            var tracker := run.filters.tracker;
            && tracker.initialized == (run.candidates != []) == (run.accepted != [])
            && (run.candidates != [] ==>
                  && tracker.lastObserved == Finite(TimeOf(Last(run.candidates)))
                  && Layout(size, Last(run.accepted)).Some?
                  && tracker.lastSequence == Layout(size, Last(run.accepted)).value.udpSequence)
  {
    var run := RunAdmit(size, packets);
    var arrivals := Arrivals(size, run.candidates);
    ChecksFactor(size, packets);
    AcceptedDecode(size, packets);
    CandidatesDecode(size, packets);
    TrackerStateFromAccepted(XT_SEQUENCE_RESTART_IDLE_SEC, arrivals);
    if run.candidates != [] {
      TrackerKeepsLastStamp(XT_SEQUENCE_RESTART_IDLE_SEC, arrivals);
      assert Last(Arrivals(size, run.accepted)) == ArrivalOf(size, Last(run.accepted));
    }
  }

  lemma TrackerTakesIff(s: TrackerState, number: uint32, t: real)
    requires s.initialized ==> s.lastObserved.Finite?
    ensures TrackerStep(XT_SEQUENCE_RESTART_IDLE_SEC, s, number, Finite(t)).1.Accepted()
       <==> !s.initialized || t - s.lastObserved.t >= 2.0 || NumberAhead(s.lastSequence, number)
  {
  }

  lemma TrackerTakesNext(size: nat, packets: seq<Packet>, p: Packet, number: uint32)
    requires p.stamp.Finite?
    ensures TrackerStep(XT_SEQUENCE_RESTART_IDLE_SEC, RunAdmit(size, packets).filters.tracker, number, p.stamp).1.Accepted()
       <==> InSequence(RunAdmit(size, packets), p, number)
  {
    TrackerRemembers(size, packets);
    TrackerTakesIff(RunAdmit(size, packets).filters.tracker, number, p.stamp.t);
  }

  /**
   The checks as one rule over the whole past: a packet is accepted next if and
   only if it is in time, its bytes have the configured size and a right layout,
   and it is in sequence.
   */
  lemma AcceptedNextIff(size: nat, packets: seq<Packet>, p: Packet)
    ensures var (run, next) := (RunAdmit(size, packets), RunAdmit(size, packets + [p]));
            var xt := DecodeXt(p.data);
            if InTime(packets, p) && |p.data| == size && xt.Some? && InSequence(run, p, xt.value.udpSequence)
            then next.accepted == run.accepted + [p]
            else next.accepted == run.accepted
  {
    AdmitSnoc(size, packets, p);
    GuardPassesNext(size, packets, p);
    if p.stamp.Finite? && Layout(size, p).Some? {
      TrackerTakesNext(size, packets, p, Layout(size, p).value.udpSequence);
    }
  }

  // --- the counter over many sessions

  /** A start resets both filters and keeps the counters. */
  function Restarted(f: Filters): Filters {
    FRESH_FILTERS.(counters := f.counters)
  }

  function RunSessions(size: nat, sessions: seq<seq<Packet>>): Filters {
    if sessions == [] then FRESH_FILTERS
    else AdmitFrom(size, Restarted(RunSessions(size, Front(sessions))), Last(sessions)).filters
  }

  /** Two runs of the checks that differ in what their gap counters began with. */
  ghost predicate SameButGaps(run: AdmitRun, anew: AdmitRun, gaps: nat) {
    && run.filters.guard == anew.filters.guard && run.filters.tracker == anew.filters.tracker
    && run.candidates == anew.candidates && run.accepted == anew.accepted
    && run.filters.counters.gapPackets == gaps + anew.filters.counters.gapPackets
  }

  lemma SameButGapsStep(run: AdmitRun, anew: AdmitRun, gaps: nat, p: Packet, sequence: Option<uint32>)
    requires SameButGaps(run, anew, gaps)
    ensures SameButGaps(ExtendAdmit(run, p, sequence), ExtendAdmit(anew, p, sequence), gaps)
  {
  }

  lemma {:induction false} SessionCounts(size: nat, f: Filters, packets: seq<Packet>)
    ensures SameButGaps(AdmitFrom(size, Restarted(f), packets), RunAdmit(size, packets), f.counters.gapPackets)
  {
    if packets != [] {
      SessionCounts(size, f, Front(packets));
      SameButGapsStep(AdmitFrom(size, Restarted(f), Front(packets)), RunAdmit(size, Front(packets)), f.counters.gapPackets,
                      Last(packets), SequenceOf(Layout(size, Last(packets))));
    }
  }

  ghost predicate AllCarryNumbers(size: nat, sessions: seq<seq<Packet>>, numbers: seq<seq<int>>) {
    |numbers| == |sessions| && forall k :: 0 <= k < |sessions| ==> CarriesNumbers(size, sessions[k], numbers[k])
  }

  ghost function NeverAcceptedOver(size: nat, sessions: seq<seq<Packet>>, numbers: seq<seq<int>>): nat
    requires AllCarryNumbers(size, sessions, numbers)
  {
    if sessions == [] then 0
    else
      var k := |sessions| - 1;
      assert CarriesNumbers(size, sessions[k], numbers[k]);
      GapCounterIsExact(size, sessions[k], numbers[k]);
      NeverAcceptedOver(size, Front(sessions), Front(numbers)) + NeverAcceptedIn(SegmentsOf(size, sessions[k], numbers[k]))
  }

  /** Over any number of starts the gap counter goes on being the number of packets never accepted. */
  lemma {:induction false} GapCounterOverSessions(size: nat, sessions: seq<seq<Packet>>, numbers: seq<seq<int>>)
    requires AllCarryNumbers(size, sessions, numbers)
    ensures RunSessions(size, sessions).counters.gapPackets == NeverAcceptedOver(size, sessions, numbers)
  {
    if sessions != [] {
      var k := |sessions| - 1;
      GapCounterOverSessions(size, Front(sessions), Front(numbers));
      SessionCounts(size, RunSessions(size, Front(sessions)), sessions[k]);
      assert CarriesNumbers(size, sessions[k], numbers[k]);
      GapCounterIsExact(size, sessions[k], numbers[k]);
    }
  }

  lemma {:induction false} TimesSubsequence(xs: seq<Packet>, ys: seq<Packet>)
    requires Subsequence(xs, ys)
    ensures Subsequence(Times(xs), Times(ys))
    decreases |ys|
  {
    if xs != [] {
      assert Front(Times(ys)) == Times(Front(ys)) && Front(Times(xs)) == Times(Front(xs));
      if Last(xs) == Last(ys) && Subsequence(Front(xs), Front(ys)) {
        TimesSubsequence(Front(xs), Front(ys));
      } else {
        TimesSubsequence(xs, Front(ys));
      }
    }
  }

  /** The reception times of the accepted packets never fall by more than the tolerance. */
  lemma AcceptedTimesNeverRegress(size: nat, packets: seq<Packet>)
    ensures NonRegressing(TIMESTAMP_REGRESSION_TOLERANCE_SEC, Times(RunAdmit(size, packets).accepted))
  {
    var run := RunAdmit(size, packets);
    var guard := RunGuard(TIMESTAMP_REGRESSION_TOLERANCE_SEC, PacketStamps(packets));
    ChecksFactor(size, packets);
    TimesSubsequence(run.accepted, run.candidates);
    SubsequenceTransitive(Times(run.accepted), Times(run.candidates), guard.accepted);
    AcceptedNeverRegress(TIMESTAMP_REGRESSION_TOLERANCE_SEC, PacketStamps(packets));
    SubsequenceNonRegressing(TIMESTAMP_REGRESSION_TOLERANCE_SEC, Times(run.accepted), guard.accepted);
  }

  ghost predicate Balanced(run: AdmitRun, n: nat, passed: nat) {
    && run.filters.counters.processed == n
    && run.filters.counters.regressions + passed == n
    && |run.candidates| == |run.accepted| + run.filters.counters.duplicates + run.filters.counters.backwards
  }

  lemma BalanceStep(run: AdmitRun, n: nat, passed: nat, p: Packet, sequence: Option<uint32>)
    requires Balanced(run, n, passed)
    ensures Balanced(ExtendAdmit(run, p, sequence), n + 1, if PassesGuard(run.filters, p.stamp) then passed + 1 else passed)
  {
  }

  lemma OutcomesOrdered(run: AdmitRun, packets: seq<Packet>, p: Packet, sequence: Option<uint32>)
    requires Subsequence(run.candidates, packets) && Subsequence(run.accepted, packets)
    ensures Subsequence(ExtendAdmit(run, p, sequence).candidates, packets + [p])
    ensures Subsequence(ExtendAdmit(run, p, sequence).accepted, packets + [p])
  {
    SubsequenceSkip(run.accepted, packets, p);
    SubsequenceTake(run.accepted, packets, p);
    SubsequenceSkip(run.candidates, packets, p);
    SubsequenceTake(run.candidates, packets, p);
  }

  /** Every processed packet is accounted for: stopped by the guard, by its layout, by the tracker, or accepted. */
  lemma {:induction false} OutcomesBalance(size: nat, packets: seq<Packet>)
    ensures Balanced(RunAdmit(size, packets), |packets|,
                     |RunGuard(TIMESTAMP_REGRESSION_TOLERANCE_SEC, PacketStamps(packets)).accepted|)
    ensures Subsequence(RunAdmit(size, packets).candidates, packets)
    ensures Subsequence(RunAdmit(size, packets).accepted, packets)
  {
    if packets != [] {
      var run, p := RunAdmit(size, Front(packets)), Last(packets);
      OutcomesBalance(size, Front(packets));
      ChecksFactor(size, Front(packets));
      assert Front(PacketStamps(packets)) == PacketStamps(Front(packets));
      assert packets == Front(packets) + [p];
      BalanceStep(run, |packets| - 1, |RunGuard(TIMESTAMP_REGRESSION_TOLERANCE_SEC, PacketStamps(Front(packets))).accepted|,
                  p, SequenceOf(Layout(size, p)));
      OutcomesOrdered(run, Front(packets), p, SequenceOf(Layout(size, p)));
    }
  }
}
