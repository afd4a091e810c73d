/**
 A list of revolutions, empty ones included, and which of their ends are seen: what
 the ends make of the points, and when the batches are the non-empty revolutions.
 */
module RevolutionCuts {
  import opened Common
  import opened FrameSplitter

  /** Batches cut so far, and points carried over a completed revolution whose end did not cut them off. */
  datatype Cut = Cut(batches: seq<seq<Point>>, carry: seq<Point>)

  /** The end of a revolution: unseen, or stopped by the emission guard, it runs into the next. */
  function EndOf(structured: bool, seen: bool, c: Cut, points: seq<Point>): Cut {
    var all := c.carry + points;
    if seen && Open(structured, all) then Cut(c.batches + [all], []) else Cut(c.batches, all)
  }

  function NonEmptyOnes(all: seq<seq<Point>>): seq<seq<Point>> {
    if all == [] then [] else NonEmptyOnes(Front(all)) + (if Last(all) == [] then [] else [Last(all)])
  }

  function CutAll(structured: bool, all: seq<seq<Point>>, seen: seq<bool>): Cut
    requires |seen| == |all|
  {
    if all == [] then Cut([], []) else EndOf(structured, Last(seen), CutAll(structured, Front(all), Front(seen)), Last(all))
  }

  /** Revolution `u` has a leading point, and an end is seen between it and `w`: it is cut off alone. */
  ghost predicate CutBetween(structured: bool, all: seq<seq<Point>>, seen: seq<bool>, u: nat, w: nat)
    requires u < w <= |all| == |seen|
  {
    Open(structured, all[u]) && exists e :: u <= e < w && seen[e]
  }

  /** Every non-empty revolution is cut off before the next non-empty one. */
  ghost predicate PairsCut(structured: bool, all: seq<seq<Point>>, seen: seq<bool>)
    requires |seen| == |all|
  {
    forall u, w :: 0 <= u < w < |all| && all[u] != [] && all[w] != [] ==> CutBetween(structured, all, seen, u, w)
  }

  /** Every non-empty revolution is cut off by the end. */
  ghost predicate AllCut(structured: bool, all: seq<seq<Point>>, seen: seq<bool>)
    requires |seen| == |all|
  {
    forall u :: 0 <= u < |all| && all[u] != [] ==> CutBetween(structured, all, seen, u, |all|)
  }

  /** Each non-empty revolution is cut off before the next non-empty one, and the last by the end. */
  ghost predicate Separated(structured: bool, all: seq<seq<Point>>, seen: seq<bool>)
    requires |seen| == |all|
  {
    PairsCut(structured, all, seen) && AllCut(structured, all, seen)
  }

  /** What is carried is revolution `u`, the last non-empty one, not cut off yet. */
  ghost predicate Carries(structured: bool, all: seq<seq<Point>>, seen: seq<bool>, c: Cut, u: nat)
    requires |seen| == |all|
  {
    && u < |all| && c.carry == all[u] != [] && !CutBetween(structured, all, seen, u, |all|)
    && forall w :: u < w < |all| ==> all[w] == []
  }

  ghost predicate Carrying(structured: bool, all: seq<seq<Point>>, seen: seq<bool>, c: Cut, whole: seq<seq<Point>>)
    requires |seen| == |all|
  {
    && whole != [] && c.batches == Front(whole) && c.carry == Last(whole)
    && exists u :: Carries(structured, all, seen, c, u)
  }

  /** Two non-empty revolutions have run into one. */
  ghost predicate Merged(c: Cut, whole: seq<seq<Point>>) {
    |c.batches| + (if c.carry == [] then 0 else 1) < |whole|
  }

  ghost predicate CutsSoFar(structured: bool, all: seq<seq<Point>>, seen: seq<bool>, c: Cut, whole: seq<seq<Point>>)
    requires |seen| == |all|
  {
    if PairsCut(structured, all, seen) then
      (c == Cut(whole, []) && AllCut(structured, all, seen)) || Carrying(structured, all, seen, c, whole)
    else Merged(c, whole)
  }

  lemma CutOneLater(structured: bool, all: seq<seq<Point>>, seen: seq<bool>, points: seq<Point>, end: bool, u: nat, w: nat)
    requires u < w <= |all| == |seen|
    ensures CutBetween(structured, all + [points], seen + [end], u, w) <==> CutBetween(structured, all, seen, u, w)
    ensures CutBetween(structured, all + [points], seen + [end], u, |all| + 1)
       <==> CutBetween(structured, all, seen, u, |all|) || (Open(structured, all[u]) && end)
  {
    var later := seen + [end];
    assert later[|seen|] == end && forall e :: 0 <= e < |seen| ==> later[e] == seen[e];
    if CutBetween(structured, all, seen, u, w) {
      var e :| u <= e < w && seen[e];
      assert later[e];
    }
    if CutBetween(structured, all, seen, u, |all|) {
      var e :| u <= e < |all| && seen[e];
      assert later[e];
    }
  }

  lemma CutLater(structured: bool, all: seq<seq<Point>>, seen: seq<bool>, u: nat, w: nat)
    requires u < w <= |all| == |seen| && CutBetween(structured, all, seen, u, w)
    ensures CutBetween(structured, all, seen, u, |all|)
  {
  }

  lemma CutHere(structured: bool, all: seq<seq<Point>>, seen: seq<bool>, points: seq<Point>, end: bool)
    requires |seen| == |all|
    ensures CutBetween(structured, all + [points], seen + [end], |all|, |all| + 1) <==> Open(structured, points) && end
  {
    assert (seen + [end])[|all|] == end;
  }

  /** One more revolution makes a pair with each before it, if it is not empty. */
  lemma PairsStep(structured: bool, all: seq<seq<Point>>, seen: seq<bool>, points: seq<Point>, end: bool)
    requires |seen| == |all|
    ensures PairsCut(structured, all + [points], seen + [end])
       <==> PairsCut(structured, all, seen) && (points != [] ==> AllCut(structured, all, seen))
  {
    var more := all + [points];
    assert more[|all|] == points && forall u :: 0 <= u < |all| ==> more[u] == all[u];
    forall u, w | 0 <= u < w <= |all|
      ensures CutBetween(structured, more, seen + [end], u, w) <==> CutBetween(structured, all, seen, u, w)
    {
      CutOneLater(structured, all, seen, points, end, u, w);
    }
    if PairsCut(structured, more, seen + [end]) {
      forall u, w | 0 <= u < w < |all| && all[u] != [] && all[w] != []
        ensures CutBetween(structured, all, seen, u, w)
      {
        assert more[u] != [] && more[w] != [];
      }
      if points != [] {
        forall u | 0 <= u < |all| && all[u] != []
          ensures CutBetween(structured, all, seen, u, |all|)
        {
          assert more[u] != [] && more[|all|] != [];
        }
      }
    }
  }

  /** Everything cut off stays so, with the new revolution cut off or empty. */
  lemma AllCutStep(structured: bool, all: seq<seq<Point>>, seen: seq<bool>, points: seq<Point>, end: bool)
    requires |seen| == |all| && AllCut(structured, all, seen) && (points != [] ==> Open(structured, points) && end)
    ensures AllCut(structured, all + [points], seen + [end])
  {
    var more := all + [points];
    forall u | 0 <= u < |more| && more[u] != []
      ensures CutBetween(structured, more, seen + [end], u, |more|)
    {
      if u < |all| {
        CutOneLater(structured, all, seen, points, end, u, |all|);
      } else {
        CutHere(structured, all, seen, points, end);
      }
    }
  }

  lemma EndOfClean(structured: bool, seen: bool, batches: seq<seq<Point>>, points: seq<Point>)
    ensures EndOf(structured, seen, Cut(batches, []), points)
         == if seen && Open(structured, points) then Cut(batches + [points], []) else Cut(batches, points)
    ensures Open(structured, points) ==> points != []
  {
    assert [] + points == points && OfRing([], 0) == [];
  }

  lemma EndOfCarrying(structured: bool, seen: bool, c: Cut)
    ensures EndOf(structured, seen, c, [])
         == if seen && Open(structured, c.carry) then Cut(c.batches + [c.carry], []) else c
  {
    assert c.carry + [] == c.carry;
  }

  /** From nothing carried: the new revolution is cut off, empty, or carried. */
  lemma StepFromClean(structured: bool, all: seq<seq<Point>>, seen: seq<bool>, whole: seq<seq<Point>>, points: seq<Point>, end: bool)
    requires |seen| == |all| && PairsCut(structured, all, seen) && AllCut(structured, all, seen)
    ensures CutsSoFar(structured, all + [points], seen + [end], EndOf(structured, end, Cut(whole, []), points),
                      whole + (if points == [] then [] else [points]))
  {
    PairsStep(structured, all, seen, points, end);
    EndOfClean(structured, end, whole, points);
    if points == [] || (Open(structured, points) && end) {
      AllCutStep(structured, all, seen, points, end);
      assert whole + [] == whole;
    } else {
      CutHere(structured, all, seen, points, end);
      assert Carries(structured, all + [points], seen + [end], Cut(whole, points), |all|);
    }
  }

  /** A carried revolution is cut off behind an empty one, and with it everything. */
  lemma CutOverEmpty(structured: bool, all: seq<seq<Point>>, seen: seq<bool>, c: Cut, u: nat)
    requires |seen| == |all| && PairsCut(structured, all, seen) && Carries(structured, all, seen, c, u)
    requires Open(structured, c.carry)
    ensures AllCut(structured, all + [[]], seen + [true])
  {
    var more := all + [[]];
    forall w | 0 <= w < |more| && more[w] != []
      ensures CutBetween(structured, more, seen + [true], w, |more|)
    {
      assert more[w] == all[w];
      CutOneLater(structured, all, seen, [], true, w, |all|);
      if w != u {
        assert w < u;
        CutLater(structured, all, seen, w, u);
      }
    }
  }

  /** An empty revolution behind a carried one: the carried one is cut off now, or stays. */
  lemma StepOverEmpty(structured: bool, all: seq<seq<Point>>, seen: seq<bool>, c: Cut, whole: seq<seq<Point>>, end: bool, u: nat)
    requires |seen| == |all| && PairsCut(structured, all, seen) && Carries(structured, all, seen, c, u)
    requires whole != [] && c.batches == Front(whole) && c.carry == Last(whole)
    ensures CutsSoFar(structured, all + [[]], seen + [end], EndOf(structured, end, c, []), whole)
  {
    PairsStep(structured, all, seen, [], end);
    EndOfCarrying(structured, end, c);
    assert whole == Front(whole) + [Last(whole)];
    if end && Open(structured, c.carry) {
      CutOverEmpty(structured, all, seen, c, u);
    } else {
      CutOneLater(structured, all, seen, [], end, u, |all|);
      assert Carries(structured, all + [[]], seen + [end], c, u);
    }
  }

  /** A non-empty revolution behind a carried one: the two run into one. */
  lemma StepMerges(structured: bool, all: seq<seq<Point>>, seen: seq<bool>, c: Cut, whole: seq<seq<Point>>,
                   points: seq<Point>, end: bool, u: nat)
    requires |seen| == |all| && Carries(structured, all, seen, c, u) && points != []
    requires whole != [] && c.batches == Front(whole)
    ensures CutsSoFar(structured, all + [points], seen + [end], EndOf(structured, end, c, points), whole + [points])
  {
    PairsStep(structured, all, seen, points, end);
    assert !AllCut(structured, all, seen);
  }

  lemma StepStaysMerged(structured: bool, all: seq<seq<Point>>, seen: seq<bool>, c: Cut, whole: seq<seq<Point>>,
                        points: seq<Point>, end: bool)
    requires |seen| == |all| && !PairsCut(structured, all, seen) && Merged(c, whole)
    ensures CutsSoFar(structured, all + [points], seen + [end], EndOf(structured, end, c, points),
                      whole + (if points == [] then [] else [points]))
  {
    PairsStep(structured, all, seen, points, end);
    assert c.carry == [] && points == [] ==> c.carry + points == [];
    assert OfRing([], 0) == [];
  }

  lemma {:induction false} WholeCuts(structured: bool, all: seq<seq<Point>>, seen: seq<bool>)
    requires |seen| == |all|
    ensures CutsSoFar(structured, all, seen, CutAll(structured, all, seen), NonEmptyOnes(all))
  {
    if all != [] {
      var rest, ends, points, end := Front(all), Front(seen), Last(all), Last(seen);
      var c, whole := CutAll(structured, rest, ends), NonEmptyOnes(rest);
      WholeCuts(structured, rest, ends);
      assert all == rest + [points] && seen == ends + [end];
      if !PairsCut(structured, rest, ends) {
        StepStaysMerged(structured, rest, ends, c, whole, points, end);
      } else if c == Cut(whole, []) && AllCut(structured, rest, ends) {
        StepFromClean(structured, rest, ends, whole, points, end);
      } else {
        StepFromCarrying(structured, rest, ends, c, whole, points, end);
      }
    }
  }

  lemma StepFromCarrying(structured: bool, all: seq<seq<Point>>, seen: seq<bool>, c: Cut, whole: seq<seq<Point>>,
                         points: seq<Point>, end: bool)
    requires |seen| == |all| && PairsCut(structured, all, seen) && Carrying(structured, all, seen, c, whole)
    ensures CutsSoFar(structured, all + [points], seen + [end], EndOf(structured, end, c, points),
                      whole + (if points == [] then [] else [points]))
  {
    var u :| Carries(structured, all, seen, c, u);
    if points == [] {
      StepOverEmpty(structured, all, seen, c, whole, end, u);
      assert whole + [] == whole;
    } else {
      StepMerges(structured, all, seen, c, whole, points, end, u);
    }
  }

  lemma WholeOrFewer(structured: bool, all: seq<seq<Point>>, seen: seq<bool>, c: Cut, whole: seq<seq<Point>>)
    requires |seen| == |all| && CutsSoFar(structured, all, seen, c, whole)
    ensures if Separated(structured, all, seen) then c == Cut(whole, []) else |c.batches| < |whole|
  {
    if Carrying(structured, all, seen, c, whole) {
      var u :| Carries(structured, all, seen, c, u);
      assert !AllCut(structured, all, seen);
    }
  }

  lemma SeparatedAllSeen(structured: bool, all: seq<seq<Point>>, seen: seq<bool>)
    requires |seen| == |all| && forall e :: 0 <= e < |seen| ==> seen[e]
    ensures Separated(structured, all, seen) <==> forall u :: 0 <= u < |all| && all[u] != [] ==> Open(structured, all[u])
  {
    if forall u :: 0 <= u < |all| && all[u] != [] ==> Open(structured, all[u]) {
      forall u, w | 0 <= u < w <= |all| && all[u] != []
        ensures CutBetween(structured, all, seen, u, w)
      {
        assert seen[u];
      }
    }
  }
}
