/**
 The two filters in front of the frame builder: the XT sequence tracker
 (modulo 2^32 serial arithmetic with an idle restart) and the timestamp guard
 (a running maximum with a tolerance).
 */
module PacketDefenses {
  import opened Common

  const TIMESTAMP_REGRESSION_TOLERANCE_SEC: real := 0.1
  const XT_SEQUENCE_RESTART_IDLE_SEC: real := 2.0

  // ---------------------------------------------------------------- tracker

  datatype SequenceStatus = First | InOrder | ForwardGap | Duplicate | Backward | RestartAfterIdle

  datatype SequenceDecision = SequenceDecision(
    status: SequenceStatus, previous: uint32, current: uint32, missing: uint32)
  {
    predicate Accepted() {
      status != Duplicate && status != Backward
    }
  }

  datatype TrackerState = TrackerState(initialized: bool, lastSequence: uint32, lastObserved: Stamp)

  const FRESH_TRACKER := TrackerState(false, 0, Finite(0.0))

  predicate IdleElapsed(idle: real, last: Stamp, now: Stamp) {
    now.Finite? && last.Finite? && now.t - last.t >= idle
  }

  function TrackerStep(idle: real, s: TrackerState, sequence: uint32, stamp: Stamp): (TrackerState, SequenceDecision) {
    var delta: uint32 := (sequence - s.lastSequence) % TWO_POW_32;
    if !s.initialized then
      (TrackerState(true, sequence, stamp), SequenceDecision(First, sequence, sequence, 0))
    else if IdleElapsed(idle, s.lastObserved, stamp) then
      (TrackerState(true, sequence, stamp), SequenceDecision(RestartAfterIdle, s.lastSequence, sequence, 0))
    else if delta == 0 then
      (s.(lastObserved := stamp), SequenceDecision(Duplicate, s.lastSequence, sequence, 0))
    else if delta >= TWO_POW_31 then
      (s.(lastObserved := stamp), SequenceDecision(Backward, s.lastSequence, sequence, 0))
    else if delta == 1 then
      (TrackerState(true, sequence, stamp), SequenceDecision(InOrder, s.lastSequence, sequence, 0))
    else
      (TrackerState(true, sequence, stamp), SequenceDecision(ForwardGap, s.lastSequence, sequence, delta - 1))
  }

  class XtSequenceTracker {
    const restartIdleSec: real
    var initialized: bool
    var lastSequence: uint32
    var lastObservedTimestamp: Stamp

    constructor (restartIdleSec: real)
      ensures this.restartIdleSec == restartIdleSec && State() == FRESH_TRACKER
    {
      this.restartIdleSec := restartIdleSec;
      initialized, lastSequence, lastObservedTimestamp := false, 0, Finite(0.0);
    }

    function State(): TrackerState
      reads this
    {
      TrackerState(initialized, lastSequence, lastObservedTimestamp)
    }

    method Observe(sequence: uint32, receiveTimestamp: Stamp) returns (d: SequenceDecision)
      modifies this
      ensures (State(), d) == TrackerStep(restartIdleSec, old(State()), sequence, receiveTimestamp)
    {
      if !initialized {
        initialized, lastSequence, lastObservedTimestamp := true, sequence, receiveTimestamp;
        return SequenceDecision(First, sequence, sequence, 0);
      }
      var previous := lastSequence;
      var restartedAfterIdle := IdleElapsed(restartIdleSec, lastObservedTimestamp, receiveTimestamp);
      lastObservedTimestamp := receiveTimestamp;
      if restartedAfterIdle {
        lastSequence := sequence;
        return SequenceDecision(RestartAfterIdle, previous, sequence, 0);
      }
      var delta: uint32 := (sequence - previous) % TWO_POW_32;
      if delta == 0 {
        return SequenceDecision(Duplicate, previous, sequence, 0);
      }
      if delta < TWO_POW_31 {
        lastSequence := sequence;
        if delta == 1 {
          return SequenceDecision(InOrder, previous, sequence, 0);
        }
        return SequenceDecision(ForwardGap, previous, sequence, delta - 1);
      }
      return SequenceDecision(Backward, previous, sequence, 0);
    }

    method Reset()
      modifies this
      ensures State() == FRESH_TRACKER
    {
      initialized, lastSequence, lastObservedTimestamp := false, 0, Finite(0.0);
    }
  }

  /** One arrival at the tracker: the wrapped sequence number and the receive stamp. */
  datatype Arrival = Arrival(sequence: uint32, stamp: Stamp)

  /** The tracker after a whole run, what it accepted, and the missing counts it reported, summed. */
  datatype TrackerRun = TrackerRun(state: TrackerState, accepted: seq<Arrival>, missing: nat)

  const FRESH_RUN := TrackerRun(FRESH_TRACKER, [], 0)

  function ExtendRun(idle: real, run: TrackerRun, a: Arrival): TrackerRun {
    var (state, d) := TrackerStep(idle, run.state, a.sequence, a.stamp);
    if d.Accepted() then TrackerRun(state, run.accepted + [a], run.missing + d.missing) else run.(state := state)
  }

  function RunTracker(idle: real, arrivals: seq<Arrival>): TrackerRun {
    if arrivals == [] then FRESH_RUN else ExtendRun(idle, RunTracker(idle, Front(arrivals)), Last(arrivals))
  }

  lemma TrackerKeepsLastStamp(idle: real, arrivals: seq<Arrival>)
    requires arrivals != []
    ensures RunTracker(idle, arrivals).state.initialized
    ensures RunTracker(idle, arrivals).state.lastObserved == Last(arrivals).stamp
  {
    if |arrivals| > 1 {
      TrackerKeepsLastStamp(idle, Front(arrivals));
    }
  }

  lemma {:induction false} TrackerStateFromAccepted(idle: real, arrivals: seq<Arrival>)
    ensures var run := RunTracker(idle, arrivals);
            && |run.accepted| <= |arrivals|
            && run.state.initialized == (arrivals != []) == (run.accepted != [])
            && (if run.accepted == [] then run.state == FRESH_TRACKER
                else run.state.lastSequence == Last(run.accepted).sequence)
  {
    if arrivals != [] {
      TrackerStateFromAccepted(idle, Front(arrivals));
    }
  }

  lemma RunTrackerSnoc(idle: real, arrivals: seq<Arrival>, a: Arrival)
    ensures RunTracker(idle, arrivals + [a]) == ExtendRun(idle, RunTracker(idle, arrivals), a)
  {
    assert Front(arrivals + [a]) == arrivals && Last(arrivals + [a]) == a;
  }

  // ------------------------------------------------------------------ guard

  datatype TimestampStatus = FirstStamp | AcceptedStamp | Regression | Invalid

  datatype TimestampDecision = TimestampDecision(
    status: TimestampStatus, previous: Stamp, current: Stamp, regressionSec: real)
  {
    predicate Accepted() {
      status == FirstStamp || status == AcceptedStamp
    }
  }

  datatype GuardState = GuardState(initialized: bool, last: real)

  const FRESH_GUARD := GuardState(false, 0.0)

  function GuardStep(tolerance: real, s: GuardState, stamp: Stamp): (GuardState, TimestampDecision) {
    if stamp.NonFinite? then (s, TimestampDecision(Invalid, Finite(s.last), stamp, 0.0))
    else if !s.initialized then (GuardState(true, stamp.t), TimestampDecision(FirstStamp, stamp, stamp, 0.0))
    else
      var regression := s.last - stamp.t;
      if regression > tolerance then (s, TimestampDecision(Regression, Finite(s.last), stamp, regression))
      else
        (GuardState(true, if stamp.t > s.last then stamp.t else s.last),
         TimestampDecision(AcceptedStamp, Finite(s.last), stamp, if regression > 0.0 then regression else 0.0))
  }

  class TimestampGuard {
    const toleranceSec: real
    var initialized: bool
    var lastTimestamp: real

    constructor (toleranceSec: real)
      ensures this.toleranceSec == toleranceSec && State() == FRESH_GUARD
    {
      this.toleranceSec := toleranceSec;
      initialized, lastTimestamp := false, 0.0;
    }

    function State(): GuardState
      reads this
    {
      GuardState(initialized, lastTimestamp)
    }

    method Observe(timestamp: Stamp) returns (d: TimestampDecision)
      modifies this
      ensures (State(), d) == GuardStep(toleranceSec, old(State()), timestamp)
    {
      if timestamp.NonFinite? {
        return TimestampDecision(Invalid, Finite(lastTimestamp), timestamp, 0.0);
      }
      if !initialized {
        initialized, lastTimestamp := true, timestamp.t;
        return TimestampDecision(FirstStamp, timestamp, timestamp, 0.0);
      }
      var previous := lastTimestamp;
      var regression := previous - timestamp.t;
      if regression > toleranceSec {
        return TimestampDecision(Regression, Finite(previous), timestamp, regression);
      }
      if timestamp.t > lastTimestamp {
        lastTimestamp := timestamp.t;
      }
      return TimestampDecision(AcceptedStamp, Finite(previous), timestamp, if regression > 0.0 then regression else 0.0);
    }

    method Reset()
      modifies this
      ensures State() == FRESH_GUARD
    {
      initialized, lastTimestamp := false, 0.0;
    }
  }

  datatype GuardRun = GuardRun(state: GuardState, accepted: seq<real>)

  function RunGuard(tolerance: real, stamps: seq<Stamp>): GuardRun {
    if stamps == [] then GuardRun(FRESH_GUARD, [])
    else
      var run := RunGuard(tolerance, Front(stamps));
      var (state, d) := GuardStep(tolerance, run.state, Last(stamps));
      GuardRun(state, if d.Accepted() then run.accepted + [Last(stamps).t] else run.accepted)
  }

  /** `m` is the largest finite stamp seen, accepted or not. */
  ghost predicate IsMaximumSeen(m: real, stamps: seq<Stamp>) {
    && Finite(m) in stamps
    && forall s :: s in stamps && s.Finite? ==> s.t <= m
  }

  ghost predicate AnyFinite(stamps: seq<Stamp>) {
    exists s :: s in stamps && s.Finite?
  }

  /** The guard remembers the maximum of everything finite it saw, rejected stamps included. */
  lemma {:induction false} GuardIsRunningMaximum(tolerance: real, stamps: seq<Stamp>)
    requires tolerance >= 0.0
    ensures RunGuard(tolerance, stamps).state.initialized <==> AnyFinite(stamps)
    ensures AnyFinite(stamps) ==> IsMaximumSeen(RunGuard(tolerance, stamps).state.last, stamps)
  {
    if stamps != [] {
      GuardIsRunningMaximum(tolerance, Front(stamps));
      var rest, x := Front(stamps), Last(stamps);
      assert stamps == rest + [x];
      assert forall s :: s in stamps <==> s in rest || s == x;
      if x.Finite? {
        assert x in stamps;
      } else if AnyFinite(stamps) {
        var s :| s in stamps && s.Finite?;
        assert s in rest;
      }
    }
  }

  /** A stamp passes exactly when it is finite and no more than the tolerance below that maximum. */
  lemma GuardAcceptsExactly(tolerance: real, stamps: seq<Stamp>, stamp: Stamp, m: real)
    requires tolerance >= 0.0
    requires AnyFinite(stamps) ==> IsMaximumSeen(m, stamps)
    ensures GuardStep(tolerance, RunGuard(tolerance, stamps).state, stamp).1.Accepted()
       <==> stamp.Finite? && (AnyFinite(stamps) ==> stamp.t >= m - tolerance)
  {
    GuardIsRunningMaximum(tolerance, stamps);
  }

  function Stamps(ts: seq<real>): seq<Stamp> {
    seq(|ts|, i requires 0 <= i < |ts| => Finite(ts[i]))
  }

  lemma NonRegressingSnoc(tolerance: real, ts: seq<real>, t: real)
    requires NonRegressing(tolerance, ts) && forall x :: x in ts ==> t >= x - tolerance
    ensures NonRegressing(tolerance, ts + [t])
  {
    forall i, j | 0 <= i < j < |ts + [t]|
      ensures (ts + [t])[j] >= (ts + [t])[i] - tolerance
    {
      assert ts[i] in ts;
    }
  }

  lemma {:induction false} AcceptedNeverRegress(tolerance: real, stamps: seq<Stamp>)
    requires tolerance >= 0.0
    ensures NonRegressing(tolerance, RunGuard(tolerance, stamps).accepted)
    ensures forall t :: t in RunGuard(tolerance, stamps).accepted ==>
              RunGuard(tolerance, stamps).state.initialized && t <= RunGuard(tolerance, stamps).state.last
  {
    if stamps != [] {
      AcceptedNeverRegress(tolerance, Front(stamps));
      var run, s := RunGuard(tolerance, Front(stamps)), Last(stamps);
      if GuardStep(tolerance, run.state, s).1.Accepted() {
        NonRegressingSnoc(tolerance, run.accepted, s.t);
      }
    }
  }

  lemma {:induction false} FreshGuardPrefix(tolerance: real, ts: seq<real>)
    requires tolerance >= 0.0 && NonRegressing(tolerance, ts)
    ensures RunGuard(tolerance, Stamps(ts)).accepted == ts
    ensures RunGuard(tolerance, Stamps(ts)).state.initialized <==> ts != []
    ensures ts != [] ==> RunGuard(tolerance, Stamps(ts)).state.last in ts
  {
    if ts != [] {
      assert Front(Stamps(ts)) == Stamps(Front(ts));
      FreshGuardPrefix(tolerance, Front(ts));
    }
  }

  /** A fresh guard lets a stream through untouched exactly when no stamp regresses beyond the tolerance. */
  lemma FreshGuardPassesIff(tolerance: real, ts: seq<real>)
    requires tolerance >= 0.0
    ensures RunGuard(tolerance, Stamps(ts)).accepted == ts <==> NonRegressing(tolerance, ts)
  {
    AcceptedNeverRegress(tolerance, Stamps(ts));
    if NonRegressing(tolerance, ts) {
      FreshGuardPrefix(tolerance, ts);
    }
  }

  lemma {:induction false} SubsequenceNonRegressing(tolerance: real, xs: seq<real>, ys: seq<real>)
    requires Subsequence(xs, ys) && NonRegressing(tolerance, ys)
    ensures NonRegressing(tolerance, xs)
    decreases |ys|
  {
    if xs != [] {
      if Last(xs) == Last(ys) && Subsequence(Front(xs), Front(ys)) {
        SubsequenceNonRegressing(tolerance, Front(xs), Front(ys));
        SubsequenceMultiset(Front(xs), Front(ys));
        assert xs == Front(xs) + [Last(xs)];
        forall x | x in Front(xs)
          ensures Last(xs) >= x - tolerance
        {
          assert x in multiset(Front(xs));
          assert x in Front(ys);
        }
        NonRegressingSnoc(tolerance, Front(xs), Last(xs));
      } else {
        SubsequenceNonRegressing(tolerance, xs, Front(ys));
      }
    }
  }

  /** Guarding twice changes nothing: a second guard accepts every selection of what a first one accepted. */
  lemma GuardingIsIdempotent(tolerance: real, stamps: seq<Stamp>, selection: seq<real>)
    requires tolerance >= 0.0 && Subsequence(selection, RunGuard(tolerance, stamps).accepted)
    ensures RunGuard(tolerance, Stamps(selection)).accepted == selection
  {
    AcceptedNeverRegress(tolerance, stamps);
    SubsequenceNonRegressing(tolerance, selection, RunGuard(tolerance, stamps).accepted);
    FreshGuardPassesIff(tolerance, selection);
  }
}
