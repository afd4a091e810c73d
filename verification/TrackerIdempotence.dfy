/**
 Filtering what was filtered: when a second tracker, fed what a first one
 accepted, accepts all of it and reports no more missing.
 */
module TrackerIdempotence {
  import opened Common
  import opened PacketDefenses

  ghost predicate StampsAscend(arrivals: seq<Arrival>) {
    && (forall i :: 0 <= i < |arrivals| ==> arrivals[i].stamp.Finite?)
    && (forall i, j :: 0 <= i < j < |arrivals| ==> arrivals[i].stamp.t <= arrivals[j].stamp.t)
  }

  lemma {:induction false} AcceptedComesFromArrivals(idle: real, arrivals: seq<Arrival>)
    ensures Subsequence(RunTracker(idle, arrivals).accepted, arrivals)
  {
    if arrivals != [] {
      AcceptedComesFromArrivals(idle, Front(arrivals));
      var accepted := RunTracker(idle, Front(arrivals)).accepted;
      assert arrivals == Front(arrivals) + [Last(arrivals)];
      SubsequenceSkip(accepted, Front(arrivals), Last(arrivals));
      SubsequenceTake(accepted, Front(arrivals), Last(arrivals));
    }
  }

  /** What relates a tracker run to a second run over the accepted arrivals. */
  ghost predicate Tracks(again: TrackerRun, run: TrackerRun) {
    && again.accepted == run.accepted
    && again.state.initialized == run.state.initialized
    && again.state.lastSequence == run.state.lastSequence
    && again.missing <= run.missing
    && again.state.lastObserved.Finite? && run.state.lastObserved.Finite?
    && (run.state.initialized ==> again.state.lastObserved.t <= run.state.lastObserved.t)
  }

  /**
   A second, fresh tracker fed what the first accepted accepts all of it, ends
   on the same sequence and reports no more missing packets, although its idle
   restarts may fall elsewhere.
   */
  lemma {:induction false} TrackingIsIdempotent(idle: real, arrivals: seq<Arrival>)
    requires StampsAscend(arrivals)
    ensures Tracks(RunTracker(idle, RunTracker(idle, arrivals).accepted), RunTracker(idle, arrivals))
  {
    if arrivals != [] {
      TrackingIsIdempotent(idle, Front(arrivals));
      var run, a := RunTracker(idle, Front(arrivals)), Last(arrivals);
      if |arrivals| > 1 {
        TrackerKeepsLastStamp(idle, Front(arrivals));
        assert arrivals[|arrivals| - 2].stamp.t <= a.stamp.t;
      }
      TracksStep(idle, RunTracker(idle, run.accepted), run, a);
      RunTrackerSnoc(idle, run.accepted, a);
    }
  }

  lemma TracksStep(idle: real, again: TrackerRun, run: TrackerRun, a: Arrival)
    requires Tracks(again, run) && a.stamp.Finite?
    requires run.state.initialized ==> run.state.lastObserved.t <= a.stamp.t
    ensures if TrackerStep(idle, run.state, a.sequence, a.stamp).1.Accepted()
            then Tracks(ExtendRun(idle, again, a), ExtendRun(idle, run, a)) && ExtendRun(idle, run, a).accepted == run.accepted + [a]
            else Tracks(again, ExtendRun(idle, run, a)) && ExtendRun(idle, run, a).accepted == run.accepted
  {
    if TrackerStep(idle, run.state, a.sequence, a.stamp).1.Accepted() {
      AgainAccepts(idle, again.state, run.state, a);
    }
  }

  lemma AgainAccepts(idle: real, again: TrackerState, state: TrackerState, a: Arrival)
    requires again.initialized == state.initialized && again.lastSequence == state.lastSequence
    requires again.lastObserved.Finite? && state.lastObserved.Finite? && a.stamp.Finite?
    requires state.initialized ==> again.lastObserved.t <= state.lastObserved.t <= a.stamp.t
    requires TrackerStep(idle, state, a.sequence, a.stamp).1.Accepted()
    ensures TrackerStep(idle, again, a.sequence, a.stamp).1.Accepted()
    ensures TrackerStep(idle, again, a.sequence, a.stamp).0 == TrackerStep(idle, state, a.sequence, a.stamp).0
    ensures TrackerStep(idle, again, a.sequence, a.stamp).1.missing <= TrackerStep(idle, state, a.sequence, a.stamp).1.missing
  {
  }

  /** An arrival that only an idle restart lets in: its sequence alone would be a duplicate or backward. */
  predicate NeedsRestart(idle: real, s: TrackerState, a: Arrival) {
    && s.initialized && IdleElapsed(idle, s.lastObserved, a.stamp)
    && ((a.sequence - s.lastSequence) % TWO_POW_32 == 0 || (a.sequence - s.lastSequence) % TWO_POW_32 >= TWO_POW_31)
  }

  ghost predicate KeepsGap(idle: real, run: TrackerRun, a: Arrival) {
    NeedsRestart(idle, run.state, a) && run.accepted != [] ==> IdleElapsed(idle, Last(run.accepted).stamp, a.stamp)
  }

  /** Each such arrival is also idle-late after the arrival last accepted, not only after the one last observed. */
  ghost predicate RestartsKeepTheirGap(idle: real, arrivals: seq<Arrival>) {
    arrivals == [] ||
    (RestartsKeepTheirGap(idle, Front(arrivals)) && KeepsGap(idle, RunTracker(idle, Front(arrivals)), Last(arrivals)))
  }

  lemma SecondStepIff(idle: real, again: TrackerState, state: TrackerState, a: Arrival)
    requires again.initialized == state.initialized && again.lastSequence == state.lastSequence
    requires TrackerStep(idle, state, a.sequence, a.stamp).1.Accepted()
    ensures TrackerStep(idle, again, a.sequence, a.stamp).1.Accepted()
       <==> (NeedsRestart(idle, state, a) ==> IdleElapsed(idle, again.lastObserved, a.stamp))
  {
  }

  /** One more accepted arrival: does the second tracker take it as well? */
  lemma AgainTakesIff(idle: real, run: TrackerRun, a: Arrival)
    requires run.state.initialized == (run.accepted != [])
    requires run.accepted != [] ==> run.state.lastSequence == Last(run.accepted).sequence
    requires run.accepted == [] ==> run.state == FRESH_TRACKER
    requires TrackerStep(idle, run.state, a.sequence, a.stamp).1.Accepted()
    ensures RunTracker(idle, run.accepted + [a]).accepted == run.accepted + [a]
       <==> RunTracker(idle, run.accepted).accepted == run.accepted && KeepsGap(idle, run, a)
  {
    var accepted := run.accepted;
    var again := RunTracker(idle, accepted);
    RunTrackerSnoc(idle, accepted, a);
    TrackerStateFromAccepted(idle, accepted);
    assert Front(again.accepted + [a]) == again.accepted && Front(accepted + [a]) == accepted;
    if again.accepted == accepted {
      if accepted != [] {
        TrackerKeepsLastStamp(idle, accepted);
      }
      SecondStepIff(idle, again.state, run.state, a);
    }
  }

  lemma RejectedKeepsGap(idle: real, run: TrackerRun, a: Arrival)
    requires !TrackerStep(idle, run.state, a.sequence, a.stamp).1.Accepted()
    ensures KeepsGap(idle, run, a)
  {
  }

  /** For arbitrary stamps, filtering twice changes nothing exactly when the restarts keep their gap. */
  lemma {:induction false} TrackingIdempotentIff(idle: real, arrivals: seq<Arrival>)
    ensures RunTracker(idle, RunTracker(idle, arrivals).accepted).accepted == RunTracker(idle, arrivals).accepted
       <==> RestartsKeepTheirGap(idle, arrivals)
  {
    if arrivals != [] {
      var rest, a := Front(arrivals), Last(arrivals);
      TrackingIdempotentIff(idle, rest);
      TrackerStateFromAccepted(idle, rest);
      RunTrackerSnoc(idle, rest, a);
      assert arrivals == rest + [a];
      var run := RunTracker(idle, rest);
      if TrackerStep(idle, run.state, a.sequence, a.stamp).1.Accepted() {
        AgainTakesIff(idle, run, a);
      } else {
        RejectedKeepsGap(idle, run, a);
      }
    }
  }

  // --- idempotence of the counts

  /** The decisions on the arrivals that are accepted. */
  function DecisionsTaken(idle: real, arrivals: seq<Arrival>): seq<SequenceDecision> {
    if arrivals == [] then []
    else
      var d := DecisionOn(idle, RunTracker(idle, Front(arrivals)), Last(arrivals));
      DecisionsTaken(idle, Front(arrivals)) + (if d.Accepted() then [d] else [])
  }

  /** The decisions on all arrivals. */
  function DecisionsMade(idle: real, arrivals: seq<Arrival>): seq<SequenceDecision> {
    if arrivals == [] then []
    else DecisionsMade(idle, Front(arrivals)) + [DecisionOn(idle, RunTracker(idle, Front(arrivals)), Last(arrivals))]
  }

  function DecisionOn(idle: real, run: TrackerRun, a: Arrival): SequenceDecision {
    TrackerStep(idle, run.state, a.sequence, a.stamp).1
  }

  /** Decision by decision, the second pass accepts too and reports no more missing. */
  ghost predicate NoWorse(first: seq<SequenceDecision>, again: seq<SequenceDecision>) {
    |again| == |first| && forall i :: 0 <= i < |again| ==> NoWorseThan(first[i], again[i])
  }

  predicate NoWorseThan(first: SequenceDecision, again: SequenceDecision) {
    again.Accepted() && again.missing <= first.missing
  }

  /** An arrival that an idle restart lets in without counting, though its number is not the next one. */
  predicate RestartHides(idle: real, s: TrackerState, a: Arrival) {
    s.initialized && IdleElapsed(idle, s.lastObserved, a.stamp) && (a.sequence - s.lastSequence) % TWO_POW_32 != 1
  }

  ghost predicate KeepsCount(idle: real, run: TrackerRun, a: Arrival) {
    RestartHides(idle, run.state, a) && run.accepted != [] ==> IdleElapsed(idle, Last(run.accepted).stamp, a.stamp)
  }

  /** Each such arrival is also idle-late after the arrival last accepted, not only after the one last observed. */
  ghost predicate RestartsKeepTheirCount(idle: real, arrivals: seq<Arrival>) {
    arrivals == [] ||
    (RestartsKeepTheirCount(idle, Front(arrivals)) && KeepsCount(idle, RunTracker(idle, Front(arrivals)), Last(arrivals)))
  }

  /** A second tracker that has taken everything accepted so far. */
  ghost predicate Behind(again: TrackerState, run: TrackerRun) {
    && again.initialized == run.state.initialized == (run.accepted != [])
    && again.lastSequence == run.state.lastSequence
    && (run.accepted != [] ==> again.lastObserved == Last(run.accepted).stamp)
  }

  lemma StepNoWorseIff(idle: real, again: TrackerState, run: TrackerRun, a: Arrival)
    requires Behind(again, run) && DecisionOn(idle, run, a).Accepted()
    ensures NoWorseThan(DecisionOn(idle, run, a), TrackerStep(idle, again, a.sequence, a.stamp).1) <==> KeepsCount(idle, run, a)
  {
  }

  lemma RejectedKeepsCount(idle: real, run: TrackerRun, a: Arrival)
    requires !DecisionOn(idle, run, a).Accepted()
    ensures KeepsCount(idle, run, a)
  {
  }

  lemma WholeIsBehind(idle: real, arrivals: seq<Arrival>)
    requires RunTracker(idle, RunTracker(idle, arrivals).accepted).accepted == RunTracker(idle, arrivals).accepted
    ensures Behind(RunTracker(idle, RunTracker(idle, arrivals).accepted).state, RunTracker(idle, arrivals))
  {
    var accepted := RunTracker(idle, arrivals).accepted;
    TrackerStateFromAccepted(idle, arrivals);
    TrackerStateFromAccepted(idle, accepted);
    if accepted != [] {
      TrackerKeepsLastStamp(idle, accepted);
    }
  }

  lemma {:induction false} AllTakenMeansWhole(idle: real, arrivals: seq<Arrival>)
    requires forall i :: 0 <= i < |DecisionsMade(idle, arrivals)| ==> DecisionsMade(idle, arrivals)[i].Accepted()
    ensures RunTracker(idle, arrivals).accepted == arrivals
    ensures |DecisionsMade(idle, arrivals)| == |arrivals|
  {
    if arrivals != [] {
      var rest, made := Front(arrivals), DecisionsMade(idle, arrivals);
      assert forall i :: 0 <= i < |DecisionsMade(idle, rest)| ==> DecisionsMade(idle, rest)[i] == made[i];
      AllTakenMeansWhole(idle, rest);
      assert made[|made| - 1].Accepted();
      assert arrivals == rest + [Last(arrivals)];
    }
  }

  lemma {:induction false} DecisionCounts(idle: real, arrivals: seq<Arrival>)
    ensures |DecisionsMade(idle, arrivals)| == |arrivals|
    ensures |DecisionsTaken(idle, arrivals)| == |RunTracker(idle, arrivals).accepted|
  {
    if arrivals != [] {
      DecisionCounts(idle, Front(arrivals));
    }
  }

  lemma DecisionsMadeSnoc(idle: real, arrivals: seq<Arrival>, a: Arrival)
    ensures DecisionsMade(idle, arrivals + [a]) == DecisionsMade(idle, arrivals) + [DecisionOn(idle, RunTracker(idle, arrivals), a)]
  {
    assert Front(arrivals + [a]) == arrivals && Last(arrivals + [a]) == a;
  }

  lemma NoWorseSnoc(first: seq<SequenceDecision>, again: seq<SequenceDecision>, d: SequenceDecision, e: SequenceDecision)
    requires |first| == |again|
    ensures NoWorse(first + [d], again + [e]) <==> NoWorse(first, again) && NoWorseThan(d, e)
  {
    assert (first + [d])[|first|] == d && (again + [e])[|first|] == e;
    if NoWorse(first + [d], again + [e]) {
      forall i | 0 <= i < |again|
        ensures NoWorseThan(first[i], again[i])
      {
        assert NoWorseThan((first + [d])[i], (again + [e])[i]);
      }
      assert NoWorseThan((first + [d])[|first|], (again + [e])[|first|]);
    }
  }

  /**
   For arbitrary stamps: the second pass takes every accepted arrival again and,
   arrival by arrival, reports no more missing, exactly when the restarts keep
   their count.
   */
  lemma {:induction false} CountingIdempotentIff(idle: real, arrivals: seq<Arrival>)
    ensures NoWorse(DecisionsTaken(idle, arrivals), DecisionsMade(idle, RunTracker(idle, arrivals).accepted))
       <==> RestartsKeepTheirCount(idle, arrivals)
  {
    if arrivals != [] {
      var run, a := RunTracker(idle, Front(arrivals)), Last(arrivals);
      CountingIdempotentIff(idle, Front(arrivals));
      if DecisionOn(idle, run, a).Accepted() {
        TakenAgainNoWorse(idle, Front(arrivals), a);
      } else {
        RejectedKeepsCount(idle, run, a);
      }
    }
  }

  lemma TakenAgainNoWorse(idle: real, arrivals: seq<Arrival>, a: Arrival)
    requires DecisionOn(idle, RunTracker(idle, arrivals), a).Accepted()
    ensures var run := RunTracker(idle, arrivals);
            var (first, again) := (DecisionsTaken(idle, arrivals), DecisionsMade(idle, run.accepted));
            NoWorse(first + [DecisionOn(idle, run, a)], DecisionsMade(idle, run.accepted + [a]))
            <==> NoWorse(first, again) && KeepsCount(idle, run, a)
  {
    var run := RunTracker(idle, arrivals);
    var first, again := DecisionsTaken(idle, arrivals), DecisionsMade(idle, run.accepted);
    DecisionCounts(idle, arrivals);
    DecisionCounts(idle, run.accepted);
    DecisionsMadeSnoc(idle, run.accepted, a);
    NoWorseSnoc(first, again, DecisionOn(idle, run, a), DecisionOn(idle, RunTracker(idle, run.accepted), a));
    if NoWorse(first, again) {
      assert forall i :: 0 <= i < |again| ==> NoWorseThan(first[i], again[i]);
      AllTakenMeansWhole(idle, run.accepted);
      WholeIsBehind(idle, arrivals);
      StepNoWorseIff(idle, RunTracker(idle, run.accepted).state, run, a);
    }
  }

  /** What the second pass would report missing on an accepted arrival, told from the first pass. */
  function CountedOnSecond(idle: real, run: TrackerRun, a: Arrival): nat {
    if run.accepted == [] || IdleElapsed(idle, Last(run.accepted).stamp, a.stamp)
       || (a.sequence - run.state.lastSequence) % TWO_POW_32 == 0 then 0
    else (a.sequence - run.state.lastSequence) % TWO_POW_32 - 1
  }

  /** The same over a whole stream. */
  function CountedAgain(idle: real, arrivals: seq<Arrival>): nat {
    if arrivals == [] then 0
    else
      var run, a := RunTracker(idle, Front(arrivals)), Last(arrivals);
      CountedAgain(idle, Front(arrivals)) + (if DecisionOn(idle, run, a).Accepted() then CountedOnSecond(idle, run, a) else 0)
  }

  lemma StepCountsAgain(idle: real, again: TrackerRun, run: TrackerRun, a: Arrival)
    requires Behind(again.state, run) && DecisionOn(idle, again, a).Accepted()
    ensures ExtendRun(idle, again, a).missing == again.missing + CountedOnSecond(idle, run, a)
  {
  }

  /**
   Where the second pass accepts the same arrivals, its missing total is the one
   told from the first pass: it grows exactly when that exceeds the first total.
   */
  lemma {:induction false} SecondPassCounts(idle: real, arrivals: seq<Arrival>)
    requires RestartsKeepTheirGap(idle, arrivals)
    ensures var run := RunTracker(idle, arrivals);
            var again := RunTracker(idle, run.accepted);
            again.accepted == run.accepted && again.missing == CountedAgain(idle, arrivals)
  {
    TrackingIdempotentIff(idle, arrivals);
    if arrivals != [] {
      var rest, a := Front(arrivals), Last(arrivals);
      var run := RunTracker(idle, rest);
      SecondPassCounts(idle, rest);
      if DecisionOn(idle, run, a).Accepted() {
        WholeIsBehind(idle, rest);
        RunTrackerSnoc(idle, run.accepted, a);
        FrontTaken(idle, run.accepted + [a]);
        assert Front(run.accepted + [a]) == run.accepted;
        StepCountsAgain(idle, RunTracker(idle, run.accepted), run, a);
      }
    }
  }

  lemma StepCountKept(idle: real, run: TrackerRun, a: Arrival)
    requires KeepsCount(idle, run, a) && DecisionOn(idle, run, a).Accepted()
    requires run.state.initialized == (run.accepted != [])
    ensures CountedOnSecond(idle, run, a) <= DecisionOn(idle, run, a).missing
    ensures KeepsGap(idle, run, a)
  {
  }

  /** If the restarts keep their count, the second pass reports no more missing in all. */
  lemma {:induction false} CountKeptTotal(idle: real, arrivals: seq<Arrival>)
    requires RestartsKeepTheirCount(idle, arrivals)
    ensures RestartsKeepTheirGap(idle, arrivals) && CountedAgain(idle, arrivals) <= RunTracker(idle, arrivals).missing
  {
    if arrivals != [] {
      var run, a := RunTracker(idle, Front(arrivals)), Last(arrivals);
      CountKeptTotal(idle, Front(arrivals));
      TrackerStateFromAccepted(idle, Front(arrivals));
      if DecisionOn(idle, run, a).Accepted() {
        StepCountKept(idle, run, a);
      } else {
        RejectedKeepsGap(idle, run, a);
      }
    }
  }

  /** Ascending stamps keep their restarts' count. */
  lemma {:induction false} AscendingKeepsCount(idle: real, arrivals: seq<Arrival>)
    requires StampsAscend(arrivals)
    ensures RestartsKeepTheirCount(idle, arrivals)
  {
    if arrivals != [] {
      var rest := Front(arrivals);
      AscendingKeepsCount(idle, rest);
      TrackingIsIdempotent(idle, rest);
      if RunTracker(idle, rest).accepted != [] {
        TrackerStateFromAccepted(idle, rest);
        WholeIsBehind(idle, rest);
      }
    }
  }

  predicate Ahead(last: uint32, next: uint32) {
    0 < (next - last) % TWO_POW_32 < TWO_POW_31
  }

  /** Arrival `i` goes on from the one before it: its number lies ahead, or it comes after an idle gap. */
  ghost predicate GoesOn(idle: real, arrivals: seq<Arrival>, i: nat)
    requires 0 < i < |arrivals|
  {
    Ahead(arrivals[i - 1].sequence, arrivals[i].sequence) || IdleElapsed(idle, arrivals[i - 1].stamp, arrivals[i].stamp)
  }

  lemma FrontTaken(idle: real, arrivals: seq<Arrival>)
    requires arrivals != [] && RunTracker(idle, arrivals).accepted == arrivals
    ensures RunTracker(idle, Front(arrivals)).accepted == Front(arrivals)
    ensures TrackerStep(idle, RunTracker(idle, Front(arrivals)).state, Last(arrivals).sequence, Last(arrivals).stamp).1.Accepted()
  {
    TrackerStateFromAccepted(idle, Front(arrivals));
    var run := RunTracker(idle, Front(arrivals));
    if TrackerStep(idle, run.state, Last(arrivals).sequence, Last(arrivals).stamp).1.Accepted() {
      assert Front(run.accepted + [Last(arrivals)]) == run.accepted;
    }
  }

  lemma TakenIff(idle: real, run: TrackerRun, a: Arrival)
    requires run.state.initialized
    ensures ExtendRun(idle, run, a).accepted
         == if Ahead(run.state.lastSequence, a.sequence) || IdleElapsed(idle, run.state.lastObserved, a.stamp)
            then run.accepted + [a] else run.accepted
  {
  }

  /** After a stream taken whole, the next arrival is taken exactly when it goes on from the last. */
  lemma NextTakenIff(idle: real, arrivals: seq<Arrival>)
    requires |arrivals| > 1 && RunTracker(idle, Front(arrivals)).accepted == Front(arrivals)
    ensures RunTracker(idle, arrivals).accepted == arrivals <==> GoesOn(idle, arrivals, |arrivals| - 1)
  {
    var rest, a := Front(arrivals), Last(arrivals);
    TrackerStateFromAccepted(idle, rest);
    TrackerKeepsLastStamp(idle, rest);
    TakenIff(idle, RunTracker(idle, rest), a);
    assert arrivals == rest + [a];
    assert |rest| != |arrivals|;
  }

  /** A tracker takes a stream whole exactly when every arrival goes on from the one before it. */
  lemma {:induction false} TakenWholeIff(idle: real, arrivals: seq<Arrival>)
    ensures RunTracker(idle, arrivals).accepted == arrivals
       <==> forall i :: 0 < i < |arrivals| ==> GoesOn(idle, arrivals, i)
  {
    if |arrivals| == 1 {
      assert Front(arrivals) == [];
    } else if arrivals != [] {
      var rest := Front(arrivals);
      TakenWholeIff(idle, rest);
      assert forall i :: 0 < i < |rest| ==> (GoesOn(idle, rest, i) <==> GoesOn(idle, arrivals, i));
      if RunTracker(idle, rest).accepted == rest {
        NextTakenIff(idle, arrivals);
      } else if RunTracker(idle, arrivals).accepted == arrivals {
        FrontTaken(idle, arrivals);
      }
    }
  }

  // --- stamps that step back within the guard's tolerance

  const JITTERED_TIMES: seq<real> := [10.0, 9.95, 11.96]
  const JITTERED: seq<Arrival> := [Arrival(7, Finite(10.0)), Arrival(7, Finite(9.95)), Arrival(3, Finite(11.96))]

  lemma JitterPassesGuard()
    ensures RunGuard(TIMESTAMP_REGRESSION_TOLERANCE_SEC, Stamps(JITTERED_TIMES)).accepted == JITTERED_TIMES
  {
    FreshGuardPassesIff(TIMESTAMP_REGRESSION_TOLERANCE_SEC, JITTERED_TIMES);
  }

  /**
   Reception stamps that step back can break the tracker's idempotence even when
   the guard passes all of them: the repeated packet moves the last observed
   stamp back, so that the third arrival is a restart in the first pass only.
   */
  lemma TrackingNotIdempotentUnderJitter()
    ensures Stamps(JITTERED_TIMES) == seq(3, i requires 0 <= i < 3 => JITTERED[i].stamp)
    ensures RunGuard(TIMESTAMP_REGRESSION_TOLERANCE_SEC, Stamps(JITTERED_TIMES)).accepted == JITTERED_TIMES
    ensures RunTracker(XT_SEQUENCE_RESTART_IDLE_SEC, JITTERED).accepted == [JITTERED[0], JITTERED[2]]
    ensures RunTracker(XT_SEQUENCE_RESTART_IDLE_SEC, [JITTERED[0], JITTERED[2]]).accepted == [JITTERED[0]]
  {
    var a, b, c, idle := JITTERED[0], JITTERED[1], JITTERED[2], XT_SEQUENCE_RESTART_IDLE_SEC;
    JitterPassesGuard();
    assert Front([a]) == [] && Front([a, b]) == [a] && Front(JITTERED) == [a, b] && Front([a, c]) == [a];
    assert RunTracker(idle, [a]) == TrackerRun(TrackerState(true, 7, Finite(10.0)), [a], 0);
    assert RunTracker(idle, [a, b]) == TrackerRun(TrackerState(true, 7, Finite(9.95)), [a], 0);
  }

  const JITTERED_GAP: seq<Arrival> := [Arrival(7, Finite(10.0)), Arrival(7, Finite(9.95)), Arrival(20, Finite(11.96))]

  lemma FirstPassHidesGap()
    ensures var (idle, a, b, c) := (XT_SEQUENCE_RESTART_IDLE_SEC, JITTERED_GAP[0], JITTERED_GAP[1], JITTERED_GAP[2]);
            && RunTracker(idle, [a, b]) == TrackerRun(TrackerState(true, 7, Finite(9.95)), [a], 0)
            && RunTracker(idle, JITTERED_GAP) == TrackerRun(TrackerState(true, 20, Finite(11.96)), [a, c], 0)
  {
    var a, b, c, idle := JITTERED_GAP[0], JITTERED_GAP[1], JITTERED_GAP[2], XT_SEQUENCE_RESTART_IDLE_SEC;
    assert Front([a]) == [] && Front([a, b]) == [a] && Front(JITTERED_GAP) == [a, b];
    assert RunTracker(idle, [a]) == TrackerRun(TrackerState(true, 7, Finite(10.0)), [a], 0);
    assert RunTracker(idle, [a, b]) == TrackerRun(TrackerState(true, 7, Finite(9.95)), [a], 0);
  }

  lemma SecondPassCountsGap()
    ensures var taken := [JITTERED_GAP[0], JITTERED_GAP[2]];
            RunTracker(XT_SEQUENCE_RESTART_IDLE_SEC, taken) == TrackerRun(TrackerState(true, 20, Finite(11.96)), taken, 12)
  {
    var a, c, idle := JITTERED_GAP[0], JITTERED_GAP[2], XT_SEQUENCE_RESTART_IDLE_SEC;
    assert Front([a]) == [] && Front([a, c]) == [a];
    assert RunTracker(idle, [a]) == TrackerRun(TrackerState(true, 7, Finite(10.0)), [a], 0);
  }

  lemma HiddenGapIsNotKept()
    ensures RestartsKeepTheirGap(XT_SEQUENCE_RESTART_IDLE_SEC, JITTERED_GAP)
    ensures !RestartsKeepTheirCount(XT_SEQUENCE_RESTART_IDLE_SEC, JITTERED_GAP)
  {
    var a, b, idle := JITTERED_GAP[0], JITTERED_GAP[1], XT_SEQUENCE_RESTART_IDLE_SEC;
    FirstPassHidesGap();
    SecondPassCountsGap();
    TrackingIdempotentIff(idle, JITTERED_GAP);
    assert Front(JITTERED_GAP) == [a, b];
  }

  /**
   With a later number ahead instead, the second pass accepts the same arrivals but
   counts the gap that the restart of the first pass hid: 12 missing after none.
   */
  lemma CountingNotIdempotentUnderJitter()
    ensures Stamps(JITTERED_TIMES) == seq(3, i requires 0 <= i < 3 => JITTERED_GAP[i].stamp)
    ensures RunGuard(TIMESTAMP_REGRESSION_TOLERANCE_SEC, Stamps(JITTERED_TIMES)).accepted == JITTERED_TIMES
    ensures var (first, taken) := (RunTracker(XT_SEQUENCE_RESTART_IDLE_SEC, JITTERED_GAP), [JITTERED_GAP[0], JITTERED_GAP[2]]);
            var again := RunTracker(XT_SEQUENCE_RESTART_IDLE_SEC, taken);
            first.accepted == again.accepted == taken && first.missing == 0 && again.missing == 12
    ensures RestartsKeepTheirGap(XT_SEQUENCE_RESTART_IDLE_SEC, JITTERED_GAP)
    ensures !RestartsKeepTheirCount(XT_SEQUENCE_RESTART_IDLE_SEC, JITTERED_GAP)
  {
    JitterPassesGuard();
    FirstPassHidesGap();
    SecondPassCountsGap();
    HiddenGapIsNotKept();
  }
}
