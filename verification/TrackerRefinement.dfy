/**
 The wrapped sequence tracker against one with unbounded numbers: the same
 verdicts, the same accepted numbers and exact counts, through rollovers and idle
 restarts.
 */
module TrackerRefinement {
  import opened Common
  import opened PacketDefenses

  /** The intended tracker: true sequence numbers, no wrap-around. */
  datatype TrueRun = TrueRun(maximum: int, accepted: seq<int>, missing: nat)

  function TrueStatus(maximum: int, n: int): SequenceStatus {
    if n < maximum then Backward
    else if n == maximum then Duplicate
    else if n == maximum + 1 then InOrder
    else ForwardGap
  }

  function ExtendTrue(run: TrueRun, n: int): TrueRun {
    if n > run.maximum then TrueRun(n, run.accepted + [n], run.missing + (n - run.maximum - 1)) else run
  }

  function RunTrue(ns: seq<int>): TrueRun
    requires ns != []
  {
    if |ns| == 1 then TrueRun(ns[0], ns, 0) else ExtendTrue(RunTrue(Front(ns)), Last(ns))
  }

  predicate InWindow(maximum: int, n: int) {
    -TWO_POW_31 <= n - maximum < TWO_POW_31
  }

  /** Every number but the first lies in the half-range window around the maximum accepted before it. */
  ghost predicate AllInWindow(ns: seq<int>) {
    forall i :: 0 < i < |ns| ==> InWindow(RunTrue(ns[..i]).maximum, ns[i])
  }

  ghost predicate NoIdleRestart(idle: real, arrivals: seq<Arrival>) {
    forall i :: 0 < i < |arrivals| ==> !IdleElapsed(idle, arrivals[i - 1].stamp, arrivals[i].stamp)
  }

  ghost predicate Carries(arrivals: seq<Arrival>, ns: seq<int>) {
    |arrivals| == |ns| && forall i :: 0 <= i < |ns| ==> arrivals[i].sequence == ns[i] % TWO_POW_32
  }

  /**
   One step: without a restart the wrapped verdict (status, missing count and
   kept sequence) is the true one exactly when the number is ahead by less than
   2^31, or behind by a distance whose residue falls in the upper half range.
   */
  lemma WrappedVerdictExact(idle: real, s: TrackerState, maximum: int, n: int, stamp: Stamp)
    requires s.initialized && s.lastSequence == maximum % TWO_POW_32
    requires !IdleElapsed(idle, s.lastObserved, stamp)
    ensures var (s', d) := TrackerStep(idle, s, n % TWO_POW_32, stamp);
            (&& d.status == TrueStatus(maximum, n)
             && (n > maximum ==> d.missing == n - maximum - 1)
             && s'.lastSequence == (if n > maximum then n else maximum) % TWO_POW_32)
            <==> (if n >= maximum then n - maximum < TWO_POW_31
                  else (n - maximum) % TWO_POW_32 >= TWO_POW_31)
  {
    var delta := (n % TWO_POW_32 - maximum % TWO_POW_32) % TWO_POW_32;
    assert delta == (n - maximum) % TWO_POW_32;
  }

  /** The wrapped run keeps what the unbounded one keeps, modulo 2^32. */
  ghost predicate Follows(run: TrackerRun, truth: TrueRun) {
    && run.state.initialized
    && run.state.lastSequence == truth.maximum % TWO_POW_32
    && run.missing == truth.missing
    && Carries(run.accepted, truth.accepted)
  }

  lemma FollowsStep(idle: real, run: TrackerRun, truth: TrueRun, n: int, a: Arrival)
    requires Follows(run, truth) && InWindow(truth.maximum, n)
    requires a.sequence == n % TWO_POW_32 && !IdleElapsed(idle, run.state.lastObserved, a.stamp)
    ensures Follows(ExtendRun(idle, run, a), ExtendTrue(truth, n))
  {
    WrappedVerdictExact(idle, run.state, truth.maximum, n, a.stamp);
  }

  lemma WindowPrefix(ns: seq<int>, i: nat)
    requires AllInWindow(ns) && i <= |ns|
    ensures AllInWindow(ns[..i])
  {
    forall k | 0 < k < i
      ensures InWindow(RunTrue(ns[..i][..k]).maximum, ns[..i][k])
    {
      assert ns[..i][..k] == ns[..k];
    }
  }

  /**
   Through any number of rollovers, the wrapped tracker follows the unbounded one:
   same kept maximum (modulo 2^32), same accepted numbers, same missing total.
   */
  lemma {:induction false} TrackerRefinesUnbounded(idle: real, arrivals: seq<Arrival>, ns: seq<int>)
    requires ns != [] && Carries(arrivals, ns) && AllInWindow(ns) && NoIdleRestart(idle, arrivals)
    ensures Follows(RunTracker(idle, arrivals), RunTrue(ns))
  {
    if |ns| == 1 {
      assert Front(arrivals) == [];
    } else {
      var last := |ns| - 1;
      assert Front(ns) == ns[..last] && Front(arrivals) == arrivals[..last];
      WindowPrefix(ns, last);
      TrackerRefinesUnbounded(idle, Front(arrivals), Front(ns));
      TrackerKeepsLastStamp(idle, Front(arrivals));
      assert InWindow(RunTrue(ns[..last]).maximum, ns[last]);
      FollowsStep(idle, RunTracker(idle, Front(arrivals)), RunTrue(Front(ns)), ns[last], arrivals[last]);
    }
  }

  /** The status of every single arrival is the one the unbounded comparison gives. */
  lemma TrackerStatusExact(idle: real, arrivals: seq<Arrival>, ns: seq<int>, i: nat)
    requires Carries(arrivals, ns) && AllInWindow(ns) && NoIdleRestart(idle, arrivals) && 0 < i < |ns|
    ensures TrackerStep(idle, RunTracker(idle, arrivals[..i]).state, arrivals[i].sequence, arrivals[i].stamp).1.status
         == TrueStatus(RunTrue(ns[..i]).maximum, ns[i])
  {
    WindowPrefix(ns, i);
    TrackerRefinesUnbounded(idle, arrivals[..i], ns[..i]);
    TrackerKeepsLastStamp(idle, arrivals[..i]);
    WrappedVerdictExact(idle, RunTracker(idle, arrivals[..i]).state, RunTrue(ns[..i]).maximum, ns[i], arrivals[i].stamp);
  }

  // --- exact counting

  predicate Between(lo: int, k: int, hi: int) {
    lo <= k < hi
  }

  /** The numbers from `first` to `last` that were never accepted. */
  ghost function NeverAccepted(first: int, last: int, accepted: seq<int>): set<int> {
    set k | first <= k <= last && k !in accepted
  }

  ghost function Range(lo: int, hi: int): set<int> {
    set k | lo <= k < hi && Between(lo, k, hi)
  }

  lemma {:induction false} RangeSize(lo: int, hi: int)
    requires lo <= hi
    ensures |Range(lo, hi)| == hi - lo
    decreases hi - lo
  {
    if lo < hi {
      RangeSize(lo, hi - 1);
      assert Range(lo, hi) == Range(lo, hi - 1) + {hi - 1} by {
        assert forall k :: Between(lo, k, hi) <==> Between(lo, k, hi - 1) || k == hi - 1;
      }
    } else {
      assert Range(lo, hi) == {};
    }
  }

  lemma {:induction false} TrueRunShape(ns: seq<int>)
    requires ns != []
    ensures var run := RunTrue(ns);
            && run.accepted != [] && run.accepted[0] == ns[0] && Last(run.accepted) == run.maximum
            && (forall k :: k in run.accepted ==> ns[0] <= k <= run.maximum)
            && (forall i, j :: 0 <= i < j < |run.accepted| ==> run.accepted[i] < run.accepted[j])
  {
    if |ns| > 1 {
      TrueRunShape(Front(ns));
    }
  }

  /** The numbers skipped by a gap are the new ones never accepted. */
  lemma GapIsCounted(first: int, run: TrueRun, n: int)
    requires first <= run.maximum && run.missing == |NeverAccepted(first, run.maximum, run.accepted)|
    requires forall k :: k in run.accepted ==> first <= k <= run.maximum
    ensures var next := ExtendTrue(run, n); next.missing == |NeverAccepted(first, next.maximum, next.accepted)|
  {
    if n > run.maximum {
      var skipped, before := Range(run.maximum + 1, n), NeverAccepted(first, run.maximum, run.accepted);
      RangeSize(run.maximum + 1, n);
      assert forall k :: Between(run.maximum + 1, k, n) <==> k in skipped;
      assert NeverAccepted(first, n, run.accepted + [n]) == before + skipped;
      assert before !! skipped;
    }
  }

  /** Accepted plus missing accounts for every number, and missing counts exactly the never-accepted ones. */
  lemma {:induction false} TrueRunCounts(ns: seq<int>)
    requires ns != []
    ensures |RunTrue(ns).accepted| + RunTrue(ns).missing == RunTrue(ns).maximum - ns[0] + 1
    ensures RunTrue(ns).missing == |NeverAccepted(ns[0], RunTrue(ns).maximum, RunTrue(ns).accepted)|
  {
    if |ns| == 1 {
      assert NeverAccepted(ns[0], ns[0], ns) == {};
    } else {
      TrueRunCounts(Front(ns));
      TrueRunShape(Front(ns));
      GapIsCounted(ns[0], RunTrue(Front(ns)), Last(ns));
    }
  }

  /**
   Between restarts, the tracker's own counters are exact: accepted packets plus
   the reported missing counts give last - first + 1, and the reported total is
   the number of sequence numbers in between that were not accepted, late
   packets (dropped as backward) included.
   */
  lemma TrackerCountsMissingExactly(idle: real, arrivals: seq<Arrival>, ns: seq<int>)
    requires ns != [] && Carries(arrivals, ns) && AllInWindow(ns) && NoIdleRestart(idle, arrivals)
    ensures var run, truth := RunTracker(idle, arrivals), RunTrue(ns);
            && |run.accepted| + run.missing == truth.maximum - ns[0] + 1
            && run.missing == |NeverAccepted(ns[0], truth.maximum, truth.accepted)|
            && Carries(run.accepted, truth.accepted)
  {
    TrackerRefinesUnbounded(idle, arrivals, ns);
    TrueRunCounts(ns);
  }

  // --- counting across idle restarts

  ghost predicate NonEmpty(segments: seq<seq<int>>) {
    forall k :: 0 <= k < |segments| ==> segments[k] != []
  }

  /** The true numbers, cut where an idle gap restarts the tracker. */
  function Segments(idle: real, arrivals: seq<Arrival>, ns: seq<int>): (r: seq<seq<int>>)
    requires |arrivals| == |ns|
    ensures (r == [] <==> ns == []) && NonEmpty(r)
  {
    if ns == [] then []
    else
      var before, n := Segments(idle, Front(arrivals), Front(ns)), |ns| - 1;
      if before == [] || IdleElapsed(idle, arrivals[n - 1].stamp, arrivals[n].stamp) then before + [[ns[n]]]
      else Front(before) + [Last(before) + [ns[n]]]
  }

  ghost predicate SegmentsInWindow(segments: seq<seq<int>>) {
    forall k :: 0 <= k < |segments| ==> AllInWindow(segments[k])
  }

  function JoinTrue(before: TrueRun, next: TrueRun): TrueRun {
    TrueRun(next.maximum, before.accepted + next.accepted, before.missing + next.missing)
  }

  /** The unbounded tracker over all segments: each begins anew, its accepted numbers and missing counts add up. */
  function RunSegments(segments: seq<seq<int>>): TrueRun
    requires segments != [] && NonEmpty(segments)
  {
    if |segments| == 1 then RunTrue(segments[0]) else JoinTrue(RunSegments(Front(segments)), RunTrue(Last(segments)))
  }

  lemma RunTrueSnoc(ns: seq<int>, n: int)
    requires ns != []
    ensures RunTrue(ns + [n]) == ExtendTrue(RunTrue(ns), n)
  {
    assert Front(ns + [n]) == ns;
  }

  lemma SegmentBegins(segments: seq<seq<int>>, n: int)
    requires segments != [] && NonEmpty(segments)
    ensures NonEmpty(segments + [[n]])
    ensures RunSegments(segments + [[n]]) == JoinTrue(RunSegments(segments), TrueRun(n, [n], 0))
  {
    assert Front(segments + [[n]]) == segments;
  }

  lemma SegmentGoesOn(segments: seq<seq<int>>, n: int)
    requires segments != [] && NonEmpty(segments)
    ensures NonEmpty(Front(segments) + [Last(segments) + [n]])
    ensures RunSegments(Front(segments) + [Last(segments) + [n]]) == ExtendTrue(RunSegments(segments), n)
  {
    var next := Front(segments) + [Last(segments) + [n]];
    RunTrueSnoc(Last(segments), n);
    if |segments| > 1 {
      assert Front(next) == Front(segments);
      Reassociate(RunSegments(Front(segments)).accepted, RunTrue(Last(segments)).accepted, [n]);
    }
  }

  lemma {:induction false} LastMaximum(segments: seq<seq<int>>)
    requires segments != [] && NonEmpty(segments)
    ensures RunSegments(segments).maximum == RunTrue(Last(segments)).maximum
  {
  }

  lemma FollowsRestart(idle: real, run: TrackerRun, truth: TrueRun, n: int, a: Arrival)
    requires Follows(run, truth) && a.sequence == n % TWO_POW_32 && IdleElapsed(idle, run.state.lastObserved, a.stamp)
    ensures Follows(ExtendRun(idle, run, a), JoinTrue(truth, TrueRun(n, [n], 0)))
  {
  }

  lemma WindowOfLast(segments: seq<seq<int>>, n: int)
    requires segments != [] && NonEmpty(segments) && SegmentsInWindow(Front(segments) + [Last(segments) + [n]])
    ensures SegmentsInWindow(segments) && InWindow(RunSegments(segments).maximum, n)
  {
    var next, last := Front(segments) + [Last(segments) + [n]], Last(segments);
    assert AllInWindow(next[|segments| - 1]);
    WindowPrefix(last + [n], |last|);
    assert (last + [n])[..|last|] == last;
    assert InWindow(RunTrue((last + [n])[..|last|]).maximum, (last + [n])[|last|]);
    LastMaximum(segments);
    forall k | 0 <= k < |segments|
      ensures AllInWindow(segments[k])
    {
      assert k < |segments| - 1 ==> AllInWindow(next[k]);
    }
  }

  /** The wrapped tracker follows the unbounded one through idle restarts as well. */
  lemma {:induction false} TrackerRefinesSegments(idle: real, arrivals: seq<Arrival>, ns: seq<int>)
    requires ns != [] && Carries(arrivals, ns) && SegmentsInWindow(Segments(idle, arrivals, ns))
    ensures Follows(RunTracker(idle, arrivals), RunSegments(Segments(idle, arrivals, ns)))
  {
    var before, n := Segments(idle, Front(arrivals), Front(ns)), |ns| - 1;
    if n == 0 {
      assert Front(arrivals) == [];
    } else {
      var run := RunTracker(idle, Front(arrivals));
      TrackerKeepsLastStamp(idle, Front(arrivals));
      if IdleElapsed(idle, arrivals[n - 1].stamp, arrivals[n].stamp) {
        WindowOfEarlier(before, [ns[n]]);
        TrackerRefinesSegments(idle, Front(arrivals), Front(ns));
        FollowsRestart(idle, run, RunSegments(before), ns[n], arrivals[n]);
        SegmentBegins(before, ns[n]);
      } else {
        WindowOfLast(before, ns[n]);
        TrackerRefinesSegments(idle, Front(arrivals), Front(ns));
        FollowsStep(idle, run, RunSegments(before), ns[n], arrivals[n]);
        SegmentGoesOn(before, ns[n]);
      }
    }
  }

  lemma WindowOfEarlier(segments: seq<seq<int>>, last: seq<int>)
    requires SegmentsInWindow(segments + [last])
    ensures SegmentsInWindow(segments)
  {
    forall k | 0 <= k < |segments|
      ensures AllInWindow(segments[k])
    {
      assert AllInWindow((segments + [last])[k]);
    }
  }

  /** The lengths of the segments, from each first number to its maximum. */
  function Spans(segments: seq<seq<int>>): int
    requires NonEmpty(segments)
  {
    if segments == [] then 0
    else Spans(Front(segments)) + (RunTrue(Last(segments)).maximum - Last(segments)[0] + 1)
  }

  /** The numbers inside the segments that were never accepted. */
  ghost function NeverAcceptedIn(segments: seq<seq<int>>): nat
    requires NonEmpty(segments)
  {
    if segments == [] then 0
    else
      var last := Last(segments);
      NeverAcceptedIn(Front(segments)) + |NeverAccepted(last[0], RunTrue(last).maximum, RunTrue(last).accepted)|
  }

  lemma {:induction false} SegmentsCount(segments: seq<seq<int>>)
    requires segments != [] && NonEmpty(segments)
    ensures |RunSegments(segments).accepted| + RunSegments(segments).missing == Spans(segments)
    ensures RunSegments(segments).missing == NeverAcceptedIn(segments)
  {
    TrueRunCounts(Last(segments));
    if |segments| == 1 {
      assert Front(segments) == [];
    } else {
      SegmentsCount(Front(segments));
    }
  }

  /**
   The tracker's counters stay exact across idle restarts: accepted packets plus
   the reported missing counts are the sum over the segments of M - first + 1, and
   the reported total is the number of sequence numbers in them never accepted.
   */
  lemma TrackerCountsAcrossRestarts(idle: real, arrivals: seq<Arrival>, ns: seq<int>)
    requires Carries(arrivals, ns) && SegmentsInWindow(Segments(idle, arrivals, ns))
    ensures var run, segments := RunTracker(idle, arrivals), Segments(idle, arrivals, ns);
            && |run.accepted| + run.missing == Spans(segments)
            && run.missing == NeverAcceptedIn(segments)
  {
    if ns != [] {
      TrackerRefinesSegments(idle, arrivals, ns);
      SegmentsCount(Segments(idle, arrivals, ns));
    }
  }
}
