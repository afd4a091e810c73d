/**
 Whole runs of the splitter: conservation for any stream of blocks, and, for a
 steadily turning sensor, clouds that are exactly the completed revolutions and
 a bound on the buffered points.
 */
module Revolutions {
  import opened Common
  import opened FrameSplitter
  import opened RevolutionCuts

  const MAX_ADVANCE := 3599
  const MAX_POINT_CLOUD_NUM := 1_000_000

  // --------------------------------------------------------- conservation

  /** A run: the splitter, the clouds it emitted, and the batches of points between emissions. */
  datatype Run = Run(splitter: Splitter, clouds: seq<seq<Point>>, batches: seq<seq<Point>>, pending: seq<Point>)

  ghost predicate Lasers(blocks: seq<Block>, lasers: nat) {
    lasers <= MAX_LASER_NUM && forall i :: 0 <= i < |blocks| ==> RingsBelow(blocks[i].points, lasers)
  }

  function Extend(start: nat, lasers: nat, run: Run, b: Block): (r: Run)
    requires Room(run.splitter.buffer) && lasers <= MAX_LASER_NUM && RingsBelow(b.points, lasers)
    ensures Room(r.splitter.buffer)
  {
    var (s, cloud) := Split(start, lasers, run.splitter, b);
    if cloud.Some? then Run(s, run.clouds + [cloud.value], run.batches + [run.pending], b.points)
    else Run(s, run.clouds, run.batches, run.pending + b.points)
  }

  function RunBlocks(structured: bool, start: nat, lasers: nat, blocks: seq<Block>): (run: Run)
    requires Lasers(blocks, lasers)
    ensures Room(run.splitter.buffer)
  {
    if blocks == [] then Run(Fresh(structured), [], [], [])
    else Extend(start, lasers, RunBlocks(structured, start, lasers, Front(blocks)), Last(blocks))
  }

  function PointsOf(blocks: seq<Block>): seq<Point> {
    if blocks == [] then [] else PointsOf(Front(blocks)) + Last(blocks).points
  }

  /** Batches and pending points are the arrivals in order; cloud k is what batch k emits as. */
  ghost predicate Conserves(structured: bool, lasers: nat, run: Run, points: seq<Point>) {
    && Flatten(run.batches) + run.pending == points
    && |run.clouds| == |run.batches|
    && (forall k :: 0 <= k < |run.clouds| ==> run.clouds[k] == Emitted(structured, run.batches[k], lasers) != [])
    && Holds(run.splitter.buffer, run.pending, lasers)
    && run.splitter.buffer.Rings? == structured
  }

  lemma {:induction false} FreshHolds(structured: bool, lasers: nat)
    ensures Holds(Fresh(structured).buffer, [], lasers)
  {
    assert forall r :: OfRing([], r) == [];
  }

  lemma ExtendConserves(structured: bool, start: nat, lasers: nat, run: Run, b: Block, points: seq<Point>)
    requires 0 < lasers <= MAX_LASER_NUM && RingsBelow(b.points, lasers)
    requires Conserves(structured, lasers, run, points)
    ensures Conserves(structured, lasers, Extend(start, lasers, run, b), points + b.points)
  {
    SplitConserves(start, lasers, run.splitter, b, run.pending);
    if Split(start, lasers, run.splitter, b).1.Some? {
      FlattenSnoc(run.batches, run.pending);
    } else {
      Reassociate(Flatten(run.batches), run.pending, b.points);
    }
  }

  /**
   For any blocks whatever, in both buffer forms: the batches and the pending
   points are together exactly the points that arrived, in order, and cloud k is
   batch k (regrouped by ring in list form), never empty.
   */
  lemma {:induction false} RunConserves(structured: bool, start: nat, lasers: nat, blocks: seq<Block>)
    requires Lasers(blocks, lasers) && lasers > 0
    ensures Conserves(structured, lasers, RunBlocks(structured, start, lasers, blocks), PointsOf(blocks))
  {
    if blocks == [] {
      FreshHolds(structured, lasers);
    } else {
      RunConserves(structured, start, lasers, Front(blocks));
      ExtendConserves(structured, start, lasers, RunBlocks(structured, start, lasers, Front(blocks)), Last(blocks), PointsOf(Front(blocks)));
    }
  }

  // -------------------------------------------------------------- jitter

  /** Each block of `more` steps back from the one before it. */
  ghost predicate AllStepBack(azimuth: nat, time: real, more: seq<Block>) {
    more == [] ||
    (AllStepBack(azimuth, time, Front(more)) &&
     if |more| == 1 then StepsBack(azimuth, time, Last(more)) else StepsBack(more[|more| - 2].azimuth, more[|more| - 2].time, Last(more)))
  }

  lemma QuietBlock(start: nat, lasers: nat, run: Run, b: Block)
    requires Room(run.splitter.buffer) && lasers <= MAX_LASER_NUM && RingsBelow(b.points, lasers)
    requires StepsBack(run.splitter.lastAzimuth, run.splitter.lastTime, b)
    ensures var next := Extend(start, lasers, run, b);
            next.clouds == run.clouds && next.batches == run.batches && next.pending == run.pending + b.points
  {
    JitterNeverFires(start, run.splitter, b);
  }

  /**
   Backward jitter adds no cloud: after any blocks, any number of small backward
   steps only adds its points to those pending.
   */
  lemma {:induction false} JitterAddsNoCloud(structured: bool, start: nat, lasers: nat, blocks: seq<Block>, more: seq<Block>)
    requires Lasers(blocks + more, lasers) && blocks != [] && AllStepBack(Last(blocks).azimuth, Last(blocks).time, more)
    ensures Lasers(blocks, lasers)
    ensures var (run, next) := (RunBlocks(structured, start, lasers, blocks), RunBlocks(structured, start, lasers, blocks + more));
            next.clouds == run.clouds && next.batches == run.batches && next.pending == run.pending + PointsOf(more)
  {
    assert forall i :: 0 <= i < |blocks| ==> blocks[i] == (blocks + more)[i];
    if more == [] {
      assert blocks + more == blocks;
    } else {
      var b := Last(more);
      assert blocks + more == blocks + Front(more) + [b];
      assert Front(blocks + more) == blocks + Front(more) && Last(blocks + more) == b;
      JitterAddsNoCloud(structured, start, lasers, blocks, Front(more));
      QuietEnd(structured, start, lasers, blocks + Front(more), b);
      Reassociate(RunBlocks(structured, start, lasers, blocks).pending, PointsOf(Front(more)), b.points);
    }
  }

  lemma QuietEnd(structured: bool, start: nat, lasers: nat, blocks: seq<Block>, b: Block)
    requires Lasers(blocks + [b], lasers) && blocks != [] && StepsBack(Last(blocks).azimuth, Last(blocks).time, b)
    ensures Lasers(blocks, lasers)
    ensures var (run, next) := (RunBlocks(structured, start, lasers, blocks), RunBlocks(structured, start, lasers, blocks + [b]));
            next.clouds == run.clouds && next.batches == run.batches && next.pending == run.pending + b.points
  {
    assert forall i :: 0 <= i < |blocks| ==> blocks[i] == (blocks + [b])[i];
    assert Front(blocks + [b]) == blocks && Last(blocks + [b]) == b && (blocks + [b])[|blocks|] == b;
    LastSeen(structured, start, lasers, blocks);
    QuietBlock(start, lasers, RunBlocks(structured, start, lasers, blocks), b);
  }

  // ---------------------------------------------------------- revolutions

  /** The revolution that the unbounded position lies in, counted from the start angle. */
  function Revolution(start: nat, position: int): int {
    (position - start) / CIRCLE
  }

  /** The one kind of crossing the boundary test does not see: a wrapping step that starts below the start angle. */
  predicate Unseen(start: nat, p: nat, q: nat) {
    q % CIRCLE < p % CIRCLE < start
  }

  lemma RevolutionForm(start: nat, p: nat)
    requires start < CIRCLE
    ensures Revolution(start, p) == p / CIRCLE - (if p % CIRCLE < start then 1 else 0)
  {
    var a, r := p / CIRCLE, p % CIRCLE;
    assert p - start == CIRCLE * a + (r - start);
  }

  lemma StepForm(p: nat, q: nat)
    requires p <= q <= p + MAX_ADVANCE
    ensures q / CIRCLE == p / CIRCLE || q / CIRCLE == p / CIRCLE + 1
    ensures q / CIRCLE == p / CIRCLE <==> p % CIRCLE <= q % CIRCLE
    ensures AzimuthGap(p % CIRCLE, q % CIRCLE) == q - p
  {
  }

  /**
   With a clock that does not run backwards the rate gate opens for every advance
   of at most 3599, however little time has elapsed, and for no larger one.
   */
  lemma GateOpen(gap: nat)
    ensures (forall elapsed :: elapsed >= TIME_SLACK ==> RatePasses(gap, elapsed)) <==> gap <= MAX_ADVANCE
    ensures gap <= MAX_ADVANCE <==> gap <= 3599
    ensures RatePasses(gap, TIME_SLACK) <==> gap < 3600
  {
    if gap > MAX_ADVANCE {
      assert !RatePasses(gap, TIME_SLACK);
    }
  }

  /** The splitter cuts exactly where the revolution number increases, except at an unseen crossing. */
  lemma FiresExactly(start: nat, s: Splitter, b: Block, p: nat, q: nat)
    requires start < CIRCLE && p <= q <= p + MAX_ADVANCE
    requires s.lastAzimuth == p % CIRCLE && b.azimuth == q % CIRCLE && s.lastTime <= b.time
    ensures Revolution(start, p) <= Revolution(start, q) <= Revolution(start, p) + 1
    ensures Fires(start, s, b) <==> Revolution(start, q) > Revolution(start, p) && !Unseen(start, p, q)
  {
    RevolutionForm(start, p);
    RevolutionForm(start, q);
    StepForm(p, q);
    GateOpen(q - p);
  }

  /**
   Such a crossing exists: from 340 to 10 degrees with the start angle at 350.
   The revolution completes and the rate gate is open, but the boundary test does
   not fire, whatever is buffered.
   */
  lemma UnseenCrossing(buffer: Buffer, points: seq<Point>, t: real, u: real)
    requires t <= u
    ensures Unseen(35000, 34000, 36000 + 1000) && Revolution(35000, 37000) > Revolution(35000, 34000)
    ensures RatePasses(AzimuthGap(34000, 1000), u - t + TIME_SLACK)
    ensures !Fires(35000, Splitter(34000, t, buffer), Block(1000, u, points))
  {
    GateOpen(3000);
  }

  /** Blocks at unbounded positions that never move back and advance by at most MAX_ADVANCE. */
  ghost predicate Turning(blocks: seq<Block>, at: seq<nat>) {
    && |at| == |blocks| && (at != [] ==> at[0] < CIRCLE)
    && (forall i :: 0 <= i < |at| ==> blocks[i].azimuth == at[i] % CIRCLE)
    && (forall i :: 0 < i < |at| ==> at[i - 1] <= at[i] <= at[i - 1] + MAX_ADVANCE)
    && (forall i :: 0 < i < |at| ==> blocks[i - 1].time <= blocks[i].time)
  }

  ghost predicate NothingUnseen(start: nat, at: seq<nat>) {
    forall i :: 0 < i < |at| ==> !Unseen(start, at[i - 1], at[i])
  }

  /** Behind block i - 1, whatever is buffered, block i is cut off exactly if a revolution completes between them. */
  ghost predicate CutsAtTurn(start: nat, blocks: seq<Block>, at: seq<nat>, buffer: Buffer, i: nat)
    requires 0 < i < |blocks| == |at|
  {
    Fires(start, Splitter(blocks[i - 1].azimuth, blocks[i - 1].time, buffer), blocks[i])
    <==> Revolution(start, at[i]) > Revolution(start, at[i - 1])
  }

  lemma UnseenIsATurn(start: nat, p: nat, q: nat)
    requires start < CIRCLE && p <= q <= p + MAX_ADVANCE && Unseen(start, p, q)
    ensures Revolution(start, q) > Revolution(start, p)
  {
    RevolutionForm(start, p);
    RevolutionForm(start, q);
    StepForm(p, q);
  }

  /** The cut falls on every completed revolution and nowhere else exactly when no crossing is unseen. */
  lemma CutsAtEveryTurnIff(start: nat, blocks: seq<Block>, at: seq<nat>, buffer: Buffer)
    requires start < CIRCLE && Turning(blocks, at)
    ensures (forall i :: 0 < i < |at| ==> CutsAtTurn(start, blocks, at, buffer, i)) <==> NothingUnseen(start, at)
  {
    forall i | 0 < i < |at|
      ensures CutsAtTurn(start, blocks, at, buffer, i) <==> !Unseen(start, at[i - 1], at[i])
    {
      var s := Splitter(blocks[i - 1].azimuth, blocks[i - 1].time, buffer);
      FiresExactly(start, s, blocks[i], at[i - 1], at[i]);
      if Unseen(start, at[i - 1], at[i]) {
        UnseenIsATurn(start, at[i - 1], at[i]);
      }
    }
    if NothingUnseen(start, at) {
      forall i | 0 < i < |at|
        ensures CutsAtTurn(start, blocks, at, buffer, i)
      {
        assert !Unseen(start, at[i - 1], at[i]);
      }
    } else {
      var i :| 0 < i < |at| && Unseen(start, at[i - 1], at[i]);
      assert !CutsAtTurn(start, blocks, at, buffer, i);
    }
  }

  lemma StartZeroSeesAll(at: seq<nat>)
    ensures NothingUnseen(0, at)
  {
  }

  /** The points of revolution `v`, in order of arrival. */
  function RevolutionPoints(start: nat, blocks: seq<Block>, at: seq<nat>, v: int): seq<Point>
    requires |at| == |blocks|
  {
    if blocks == [] then []
    else
      var before := RevolutionPoints(start, Front(blocks), Front(at), v);
      if Revolution(start, Last(at)) == v then before + Last(blocks).points else before
  }

  /** The non-empty revolutions from `lo` up to, not including, `hi`. */
  function CompletedRevolutions(start: nat, blocks: seq<Block>, at: seq<nat>, lo: int, hi: int): seq<seq<Point>>
    requires |at| == |blocks|
    decreases hi - lo
  {
    if hi <= lo then []
    else
      var points := RevolutionPoints(start, blocks, at, hi - 1);
      CompletedRevolutions(start, blocks, at, lo, hi - 1) + (if points == [] then [] else [points])
  }

  /** The step that leaves revolution `v` is not an unseen crossing. */
  predicate EndSeen(start: nat, at: seq<nat>, v: int) {
    |at| > 1 &&
    (if Revolution(start, at[|at| - 2]) == v && Revolution(start, Last(at)) == v + 1 then !Unseen(start, at[|at| - 2], Last(at))
     else EndSeen(start, Front(at), v))
  }

  /** What the ends of the revolutions from `lo` up to, not including, `hi` make of their points. */
  function Cuts(structured: bool, start: nat, blocks: seq<Block>, at: seq<nat>, lo: int, hi: int): Cut
    requires |at| == |blocks|
    decreases hi - lo
  {
    if hi <= lo then Cut([], [])
    else
      EndOf(structured, EndSeen(start, at, hi - 1), Cuts(structured, start, blocks, at, lo, hi - 1),
            RevolutionPoints(start, blocks, at, hi - 1))
  }

  lemma {:induction false} NothingAhead(start: nat, blocks: seq<Block>, at: seq<nat>, v: int)
    requires |at| == |blocks| && forall i :: 0 <= i < |at| ==> Revolution(start, at[i]) < v
    ensures RevolutionPoints(start, blocks, at, v) == []
  {
    if blocks != [] {
      NothingAhead(start, Front(blocks), Front(at), v);
    }
  }

  /** A later block leaves the revolutions before the last step as they were. */
  lemma {:induction false} CutsStay(structured: bool, start: nat, blocks: seq<Block>, at: seq<nat>, lo: int, hi: int)
    requires |blocks| > 1 && |at| == |blocks| && hi <= Revolution(start, at[|at| - 2]) <= Revolution(start, Last(at))
    ensures Cuts(structured, start, blocks, at, lo, hi) == Cuts(structured, start, Front(blocks), Front(at), lo, hi)
    decreases hi - lo
  {
    if lo < hi {
      CutsStay(structured, start, blocks, at, lo, hi - 1);
      assert EndSeen(start, at, hi - 1) == EndSeen(start, Front(at), hi - 1);
    }
  }

  lemma {:induction false} TurnsForward(start: nat, blocks: seq<Block>, at: seq<nat>, i: nat)
    requires start < CIRCLE && Turning(blocks, at) && i < |at|
    ensures at[i] <= Last(at) && Revolution(start, at[i]) <= Revolution(start, Last(at))
    decreases |at| - i
  {
    if i + 1 < |at| {
      assert at[i + 1 - 1] <= at[i + 1];
      TurnsForward(start, blocks, at, i + 1);
    }
  }

  lemma {:induction false} LastSeen(structured: bool, start: nat, lasers: nat, blocks: seq<Block>)
    requires Lasers(blocks, lasers) && blocks != []
    ensures RunBlocks(structured, start, lasers, blocks).splitter.lastAzimuth == Last(blocks).azimuth
    ensures RunBlocks(structured, start, lasers, blocks).splitter.lastTime == Last(blocks).time
  {
  }

  /** The batches of a run are the revolutions as their ends cut them, and the rest is pending. */
  ghost predicate CutInto(run: Run, c: Cut, current: seq<Point>) {
    run.batches == c.batches && run.pending == c.carry + current
  }

  /**
   For a sensor turning forward at most MAX_ADVANCE a block, with a clock that
   does not run backwards, in both buffer forms: the batches are the completed
   revolutions in order, where one whose end is unseen, or does not pass the
   emission guard, runs into the next.
   */
  lemma {:induction false} BatchesAreRevolutions(structured: bool, start: nat, lasers: nat, blocks: seq<Block>, at: seq<nat>)
    requires 0 < lasers && start < CIRCLE && blocks != []
    requires Lasers(blocks, lasers) && Turning(blocks, at)
    ensures var v := Revolution(start, Last(at));
            CutInto(RunBlocks(structured, start, lasers, blocks),
                    Cuts(structured, start, blocks, at, Revolution(start, at[0]), v), RevolutionPoints(start, blocks, at, v))
  {
    if |blocks| == 1 {
      FirstCut(structured, start, lasers, blocks, at);
    } else {
      TurningFront(start, lasers, blocks, at);
      BatchesAreRevolutions(structured, start, lasers, Front(blocks), Front(at));
      NextCut(structured, start, lasers, blocks, at);
    }
  }

  lemma TurningFront(start: nat, lasers: nat, blocks: seq<Block>, at: seq<nat>)
    requires |blocks| > 1 && Lasers(blocks, lasers) && Turning(blocks, at)
    ensures Lasers(Front(blocks), lasers) && Turning(Front(blocks), Front(at))
    ensures Front(at) != [] && Front(at)[0] == at[0] && Last(Front(at)) == at[|at| - 2]
    ensures NothingUnseen(start, at) ==> NothingUnseen(start, Front(at))
  {
  }

  lemma FirstCut(structured: bool, start: nat, lasers: nat, blocks: seq<Block>, at: seq<nat>)
    requires 0 < lasers && |blocks| == |at| == 1 && Lasers(blocks, lasers)
    ensures var v := Revolution(start, at[0]);
            CutInto(RunBlocks(structured, start, lasers, blocks),
                    Cuts(structured, start, blocks, at, v, v), RevolutionPoints(start, blocks, at, v))
  {
    FirstBlock(structured, start, lasers, blocks[0]);
    assert Front(blocks) == [] && Front(at) == [];
    assert [] + blocks[0].points == blocks[0].points;
  }

  lemma NextCut(structured: bool, start: nat, lasers: nat, blocks: seq<Block>, at: seq<nat>)
    requires 0 < lasers && start < CIRCLE && |blocks| > 1
    requires Lasers(blocks, lasers) && Turning(blocks, at)
    requires var v := Revolution(start, at[|at| - 2]);
             CutInto(RunBlocks(structured, start, lasers, Front(blocks)),
                     Cuts(structured, start, Front(blocks), Front(at), Revolution(start, at[0]), v),
                     RevolutionPoints(start, Front(blocks), Front(at), v))
    ensures var v := Revolution(start, Last(at));
            CutInto(RunBlocks(structured, start, lasers, blocks),
                    Cuts(structured, start, blocks, at, Revolution(start, at[0]), v), RevolutionPoints(start, blocks, at, v))
  {
    RunConserves(structured, start, lasers, Front(blocks));
    LastSeen(structured, start, lasers, Front(blocks));
    StepFacts(start, blocks, at);
    ExtendTurning(structured, start, lasers, blocks, at, RunBlocks(structured, start, lasers, Front(blocks)));
  }

  lemma FirstBlock(structured: bool, start: nat, lasers: nat, b: Block)
    requires 0 < lasers <= MAX_LASER_NUM && RingsBelow(b.points, lasers)
    ensures var run := Extend(start, lasers, Run(Fresh(structured), [], [], []), b);
            run.batches == [] && run.pending == b.points
  {
    FreshHolds(structured, lasers);
    NextRun(structured, start, lasers, Run(Fresh(structured), [], [], []), b, Fires(start, Fresh(structured), b));
    assert OfRing([], 0) == [];
    assert [] + b.points == b.points;
  }

  lemma NextRun(structured: bool, start: nat, lasers: nat, run: Run, b: Block, fires: bool)
    requires 0 < lasers <= MAX_LASER_NUM && RingsBelow(b.points, lasers)
    requires Holds(run.splitter.buffer, run.pending, lasers) && run.splitter.buffer.Rings? == structured
    requires Fires(start, run.splitter, b) <==> fires
    ensures var (next, cut) := (Extend(start, lasers, run, b), fires && Open(structured, run.pending));
            && next.batches == run.batches + (if cut then [run.pending] else [])
            && next.pending == if cut then b.points else run.pending + b.points
  {
    SplitConserves(start, lasers, run.splitter, b, run.pending);
    GuardSeesPending(run.splitter.buffer, run.pending, lasers);
  }

  /** What a steady turn says about the last two blocks. */
  ghost predicate LastStep(start: nat, blocks: seq<Block>, at: seq<nat>) {
    && |at| == |blocks| > 1
    && at[|at| - 2] <= at[|at| - 1] <= at[|at| - 2] + MAX_ADVANCE
    && Last(blocks).azimuth == Last(at) % CIRCLE
    && Revolution(start, at[0]) <= Revolution(start, at[|at| - 2])
    && RevolutionPoints(start, Front(blocks), Front(at), Revolution(start, at[|at| - 2]) + 1) == []
  }

  lemma StepFacts(start: nat, blocks: seq<Block>, at: seq<nat>)
    requires start < CIRCLE && |blocks| > 1 && Turning(blocks, at)
    ensures LastStep(start, blocks, at)
    ensures Last(Front(blocks)).azimuth == at[|at| - 2] % CIRCLE && Last(Front(blocks)).time <= Last(blocks).time
  {
    TurnsForward(start, Front(blocks), Front(at), 0);
    NothingYet(start, blocks, at, Revolution(start, at[|at| - 2]) + 1);
  }

  lemma NextTurn(structured: bool, start: nat, lasers: nat, run: Run, b: Block, p: nat, q: nat)
    requires 0 < lasers <= MAX_LASER_NUM && start < CIRCLE && RingsBelow(b.points, lasers)
    requires Holds(run.splitter.buffer, run.pending, lasers) && run.splitter.buffer.Rings? == structured
    requires run.splitter.lastTime <= b.time
    requires run.splitter.lastAzimuth == p % CIRCLE && b.azimuth == q % CIRCLE
    requires p <= q <= p + MAX_ADVANCE
    ensures var (next, turned) := (Extend(start, lasers, run, b), Revolution(start, q) != Revolution(start, p));
            var cut := turned && !Unseen(start, p, q) && Open(structured, run.pending);
            && Revolution(start, q) == Revolution(start, p) + (if turned then 1 else 0)
            && next.batches == run.batches + (if cut then [run.pending] else [])
            && next.pending == if cut then b.points else run.pending + b.points
  {
    FiresExactly(start, run.splitter, b, p, q);
    NextRun(structured, start, lasers, run, b, Revolution(start, q) != Revolution(start, p) && !Unseen(start, p, q));
  }

  lemma ExtendTurning(structured: bool, start: nat, lasers: nat, blocks: seq<Block>, at: seq<nat>, run: Run)
    requires 0 < lasers <= MAX_LASER_NUM && start < CIRCLE && LastStep(start, blocks, at)
    requires RingsBelow(Last(blocks).points, lasers)
    requires Holds(run.splitter.buffer, run.pending, lasers) && run.splitter.buffer.Rings? == structured
    requires run.splitter.lastAzimuth == at[|at| - 2] % CIRCLE && run.splitter.lastTime <= Last(blocks).time
    requires var v := Revolution(start, at[|at| - 2]);
             CutInto(run, Cuts(structured, start, Front(blocks), Front(at), Revolution(start, at[0]), v),
                     RevolutionPoints(start, Front(blocks), Front(at), v))
    ensures var v := Revolution(start, Last(at));
            CutInto(Extend(start, lasers, run, Last(blocks)), Cuts(structured, start, blocks, at, Revolution(start, at[0]), v),
                    RevolutionPoints(start, blocks, at, v))
  {
    var p := at[|at| - 2];
    NextTurn(structured, start, lasers, run, Last(blocks), p, Last(at));
    OneMoreBlock(structured, start, blocks, at, Revolution(start, at[0]), Revolution(start, p), run,
                 Extend(start, lasers, run, Last(blocks)));
  }

  lemma OneMoreBlock(structured: bool, start: nat, blocks: seq<Block>, at: seq<nat>, lo: int, v: int, run: Run, next: Run)
    requires |at| == |blocks| > 1 && lo <= v == Revolution(start, at[|at| - 2])
    requires Revolution(start, Last(at)) == v || Revolution(start, Last(at)) == v + 1
    requires CutInto(run, Cuts(structured, start, Front(blocks), Front(at), lo, v), RevolutionPoints(start, Front(blocks), Front(at), v))
    requires RevolutionPoints(start, Front(blocks), Front(at), v + 1) == []
    requires var cut := Revolution(start, Last(at)) == v + 1 && !Unseen(start, at[|at| - 2], Last(at)) && Open(structured, run.pending);
             && next.batches == run.batches + (if cut then [run.pending] else [])
             && next.pending == if cut then Last(blocks).points else run.pending + Last(blocks).points
    ensures var w := Revolution(start, Last(at));
            CutInto(next, Cuts(structured, start, blocks, at, lo, w), RevolutionPoints(start, blocks, at, w))
  {
    CutsStay(structured, start, blocks, at, lo, v);
    var c, points := Cuts(structured, start, Front(blocks), Front(at), lo, v), RevolutionPoints(start, Front(blocks), Front(at), v);
    if Revolution(start, Last(at)) == v {
      StaysInRevolution(run, next, c, points, Last(blocks).points);
    } else {
      TurnsToNext(structured, !Unseen(start, at[|at| - 2], Last(at)), run, next, c, points, Last(blocks).points);
      RevolutionBegins(structured, start, blocks, at, lo, v);
    }
  }

  /** The first block of revolution v + 1 ends revolution v. */
  lemma RevolutionBegins(structured: bool, start: nat, blocks: seq<Block>, at: seq<nat>, lo: int, v: int)
    requires |at| == |blocks| > 1 && lo <= v == Revolution(start, at[|at| - 2]) && Revolution(start, Last(at)) == v + 1
    requires Cuts(structured, start, blocks, at, lo, v) == Cuts(structured, start, Front(blocks), Front(at), lo, v)
    requires RevolutionPoints(start, Front(blocks), Front(at), v + 1) == []
    ensures Cuts(structured, start, blocks, at, lo, v + 1)
         == EndOf(structured, !Unseen(start, at[|at| - 2], Last(at)), Cuts(structured, start, Front(blocks), Front(at), lo, v),
                  RevolutionPoints(start, Front(blocks), Front(at), v))
    ensures RevolutionPoints(start, blocks, at, v + 1) == [] + Last(blocks).points
  {
  }

  lemma StaysInRevolution(run: Run, next: Run, c: Cut, points: seq<Point>, more: seq<Point>)
    requires CutInto(run, c, points) && next.batches == run.batches && next.pending == run.pending + more
    ensures CutInto(next, c, points + more)
  {
    Reassociate(c.carry, points, more);
  }

  lemma TurnsToNext(structured: bool, seen: bool, run: Run, next: Run, c: Cut, points: seq<Point>, more: seq<Point>)
    requires CutInto(run, c, points)
    requires next.batches == run.batches + (if seen && Open(structured, run.pending) then [run.pending] else [])
    requires next.pending == if seen && Open(structured, run.pending) then more else run.pending + more
    ensures CutInto(next, EndOf(structured, seen, c, points), [] + more)
  {
    assert [] + more == more;
  }

  /** Before the first block of a revolution, that revolution has no points. */
  lemma NothingYet(start: nat, blocks: seq<Block>, at: seq<nat>, v: int)
    requires start < CIRCLE && |blocks| > 1 && Turning(blocks, at) && Revolution(start, at[|at| - 2]) < v
    ensures RevolutionPoints(start, Front(blocks), Front(at), v) == []
  {
    forall i | 0 <= i < |Front(at)|
      ensures Revolution(start, Front(at)[i]) < v
    {
      TurnsForward(start, Front(blocks), Front(at), i);
    }
    NothingAhead(start, Front(blocks), Front(at), v);
  }

  // ------------------------------------------------------ whole revolutions

  /** All completed revolutions, empty ones included, by their points. */
  function AllRevolutions(start: nat, blocks: seq<Block>, at: seq<nat>, lo: int, hi: int): seq<seq<Point>>
    requires |at| == |blocks|
    decreases hi - lo
  {
    if hi <= lo then [] else AllRevolutions(start, blocks, at, lo, hi - 1) + [RevolutionPoints(start, blocks, at, hi - 1)]
  }

  /** Which of their ends are seen. */
  function SeenEnds(start: nat, at: seq<nat>, lo: int, hi: int): seq<bool>
    decreases hi - lo
  {
    if hi <= lo then [] else SeenEnds(start, at, lo, hi - 1) + [EndSeen(start, at, hi - 1)]
  }

  lemma {:induction false} CutsOfList(structured: bool, start: nat, blocks: seq<Block>, at: seq<nat>, lo: int, hi: int)
    requires |at| == |blocks|
    ensures |AllRevolutions(start, blocks, at, lo, hi)| == |SeenEnds(start, at, lo, hi)| == if lo < hi then hi - lo else 0
    ensures Cuts(structured, start, blocks, at, lo, hi)
         == CutAll(structured, AllRevolutions(start, blocks, at, lo, hi), SeenEnds(start, at, lo, hi))
    ensures CompletedRevolutions(start, blocks, at, lo, hi) == NonEmptyOnes(AllRevolutions(start, blocks, at, lo, hi))
    decreases hi - lo
  {
    if lo < hi {
      CutsOfList(structured, start, blocks, at, lo, hi - 1);
    }
  }

  /** The completed revolutions of a run are separated. */
  ghost predicate RevolutionsSeparated(structured: bool, start: nat, blocks: seq<Block>, at: seq<nat>, lo: int, hi: int)
    requires |at| == |blocks|
  {
    CutsOfList(structured, start, blocks, at, lo, hi);
    Separated(structured, AllRevolutions(start, blocks, at, lo, hi), SeenEnds(start, at, lo, hi))
  }

  /** The batches are the completed revolutions exactly if these are separated; else there are fewer. */
  lemma BatchesWholeIff(structured: bool, start: nat, blocks: seq<Block>, at: seq<nat>, lo: int, hi: int)
    requires |at| == |blocks|
    ensures var (c, whole) := (Cuts(structured, start, blocks, at, lo, hi), CompletedRevolutions(start, blocks, at, lo, hi));
            if RevolutionsSeparated(structured, start, blocks, at, lo, hi) then c == Cut(whole, []) else |c.batches| < |whole|
  {
    CutsOfList(structured, start, blocks, at, lo, hi);
    WholeCuts(structured, AllRevolutions(start, blocks, at, lo, hi), SeenEnds(start, at, lo, hi));
    WholeOrFewer(structured, AllRevolutions(start, blocks, at, lo, hi), SeenEnds(start, at, lo, hi),
                 Cuts(structured, start, blocks, at, lo, hi), CompletedRevolutions(start, blocks, at, lo, hi));
  }

  /** The clouds that whole revolutions would make. */
  function AllEmitted(structured: bool, batches: seq<seq<Point>>, lasers: nat): seq<seq<Point>> {
    seq(|batches|, i requires 0 <= i < |batches| => Emitted(structured, batches[i], lasers))
  }

  lemma CloudsOfBatches(structured: bool, lasers: nat, run: Run, points: seq<Point>)
    requires Conserves(structured, lasers, run, points)
    ensures run.clouds == AllEmitted(structured, run.batches, lasers)
  {
  }

  lemma SameOrFewer(structured: bool, lasers: nat, run: Run, whole: seq<seq<Point>>, same: bool)
    requires run.clouds == AllEmitted(structured, run.batches, lasers)
    requires if same then run.batches == whole else |run.batches| < |whole|
    ensures run.clouds == AllEmitted(structured, whole, lasers) <==> same
  {
    assert |AllEmitted(structured, whole, lasers)| == |whole|;
  }

  /**
   For any steadily turning run, unseen crossings included, and in both buffer
   forms: the clouds are the completed non-empty revolutions (regrouped by ring in
   list form) exactly when these are separated, that is, each has a leading point
   and a seen end before the next non-empty one.
   */
  lemma CloudsAreRevolutionsIff(structured: bool, start: nat, lasers: nat, blocks: seq<Block>, at: seq<nat>)
    requires 0 < lasers && start < CIRCLE && blocks != [] && Lasers(blocks, lasers) && Turning(blocks, at)
    ensures var (lo, v) := (Revolution(start, at[0]), Revolution(start, Last(at)));
            RunBlocks(structured, start, lasers, blocks).clouds
            == AllEmitted(structured, CompletedRevolutions(start, blocks, at, lo, v), lasers)
            <==> RevolutionsSeparated(structured, start, blocks, at, lo, v)
  {
    var lo, v := Revolution(start, at[0]), Revolution(start, Last(at));
    var run := RunBlocks(structured, start, lasers, blocks);
    BatchesAreRevolutions(structured, start, lasers, blocks, at);
    BatchesWholeIff(structured, start, blocks, at, lo, v);
    RunConserves(structured, start, lasers, blocks);
    CloudsOfBatches(structured, lasers, run, PointsOf(blocks));
    SameOrFewer(structured, lasers, run, CompletedRevolutions(start, blocks, at, lo, v), RevolutionsSeparated(structured, start, blocks, at, lo, v));
  }

  // --- with no crossing unseen

  /** Then the end of every completed revolution is seen. */
  lemma {:induction false} EndsAreSeen(start: nat, blocks: seq<Block>, at: seq<nat>, v: int)
    requires start < CIRCLE && blocks != [] && Turning(blocks, at) && NothingUnseen(start, at)
    requires Revolution(start, at[0]) <= v < Revolution(start, Last(at))
    ensures EndSeen(start, at, v)
    decreases |at|
  {
    var n := |at|;
    RevolutionStep(start, at[n - 2], at[n - 1]);
    if !(Revolution(start, at[n - 2]) == v && Revolution(start, at[n - 1]) == v + 1) {
      assert Front(at)[0] == at[0] && Last(Front(at)) == at[n - 2];
      EndsAreSeen(start, Front(blocks), Front(at), v);
    }
  }

  lemma RevolutionStep(start: nat, p: nat, q: nat)
    requires p <= q <= p + MAX_ADVANCE
    ensures Revolution(start, p) <= Revolution(start, q) <= Revolution(start, p) + 1
  {
  }

  /** Every completed non-empty revolution has a leading point: any point, or one on ring 0 in list form. */
  ghost predicate AllOpen(structured: bool, start: nat, blocks: seq<Block>, at: seq<nat>, lo: int, hi: int)
    requires |at| == |blocks|
  {
    forall v :: lo <= v < hi && RevolutionPoints(start, blocks, at, v) != [] ==>
      Open(structured, RevolutionPoints(start, blocks, at, v))
  }

  lemma {:induction false} RevolutionAt(start: nat, blocks: seq<Block>, at: seq<nat>, lo: int, hi: int, u: nat)
    requires |at| == |blocks| && lo + u < hi
    ensures |AllRevolutions(start, blocks, at, lo, hi)| == |SeenEnds(start, at, lo, hi)| == hi - lo
    ensures AllRevolutions(start, blocks, at, lo, hi)[u] == RevolutionPoints(start, blocks, at, lo + u)
    ensures SeenEnds(start, at, lo, hi)[u] == EndSeen(start, at, lo + u)
    decreases hi - lo
  {
    CutsOfList(false, start, blocks, at, lo, hi - 1);
    if lo + u < hi - 1 {
      RevolutionAt(start, blocks, at, lo, hi - 1, u);
    }
  }

  lemma SeparatedWhenSeen(structured: bool, start: nat, blocks: seq<Block>, at: seq<nat>)
    requires start < CIRCLE && blocks != [] && Turning(blocks, at) && NothingUnseen(start, at)
    ensures var (lo, v) := (Revolution(start, at[0]), Revolution(start, Last(at)));
            RevolutionsSeparated(structured, start, blocks, at, lo, v) <==> AllOpen(structured, start, blocks, at, lo, v)
  {
    var lo, v := Revolution(start, at[0]), Revolution(start, Last(at));
    var all, seen := AllRevolutions(start, blocks, at, lo, v), SeenEnds(start, at, lo, v);
    CutsOfList(structured, start, blocks, at, lo, v);
    forall u | 0 <= u < |all|
      ensures seen[u] && all[u] == RevolutionPoints(start, blocks, at, lo + u)
    {
      RevolutionAt(start, blocks, at, lo, v, u);
      EndsAreSeen(start, blocks, at, lo + u);
    }
    SeparatedAllSeen(structured, all, seen);
    OpenByList(structured, start, blocks, at, lo, v, all);
  }

  lemma OpenByList(structured: bool, start: nat, blocks: seq<Block>, at: seq<nat>, lo: int, hi: int, all: seq<seq<Point>>)
    requires |at| == |blocks| && |all| == if lo < hi then hi - lo else 0
    requires forall u :: 0 <= u < |all| ==> all[u] == RevolutionPoints(start, blocks, at, lo + u)
    ensures AllOpen(structured, start, blocks, at, lo, hi)
       <==> forall u :: 0 <= u < |all| && all[u] != [] ==> Open(structured, all[u])
  {
    if forall u :: 0 <= u < |all| && all[u] != [] ==> Open(structured, all[u]) {
      forall v | lo <= v < hi && RevolutionPoints(start, blocks, at, v) != []
        ensures Open(structured, RevolutionPoints(start, blocks, at, v))
      {
        assert all[v - lo] == RevolutionPoints(start, blocks, at, lo + (v - lo));
      }
    }
  }

  /** In flat form the clouds are then exactly the completed non-empty revolutions, and the buffer holds the current one. */
  lemma CloudsAreRevolutions(start: nat, lasers: nat, blocks: seq<Block>, at: seq<nat>)
    requires 0 < lasers && start < CIRCLE && blocks != []
    requires Lasers(blocks, lasers) && Turning(blocks, at) && NothingUnseen(start, at)
    ensures var run := RunBlocks(false, start, lasers, blocks);
            var v := Revolution(start, Last(at));
            && run.clouds == CompletedRevolutions(start, blocks, at, Revolution(start, at[0]), v)
            && run.pending == RevolutionPoints(start, blocks, at, v)
  {
    var lo, v := Revolution(start, at[0]), Revolution(start, Last(at));
    var run := RunBlocks(false, start, lasers, blocks);
    BatchesAreRevolutions(false, start, lasers, blocks, at);
    SeparatedWhenSeen(false, start, blocks, at);
    BatchesWholeIff(false, start, blocks, at, lo, v);
    RunConserves(false, start, lasers, blocks);
    FlatClouds(lasers, run, PointsOf(blocks));
    NothingCarried(run, CompletedRevolutions(start, blocks, at, lo, v), RevolutionPoints(start, blocks, at, v));
  }

  lemma FlatClouds(lasers: nat, run: Run, points: seq<Point>)
    requires Conserves(false, lasers, run, points)
    ensures run.clouds == run.batches
  {
  }

  lemma NothingCarried(run: Run, batches: seq<seq<Point>>, current: seq<Point>)
    requires CutInto(run, Cut(batches, []), current)
    ensures run.batches == batches && run.pending == current
  {
    assert [] + current == current;
  }

  /**
   In list form, where the emission guard looks at ring 0 alone, the clouds are then
   the completed non-empty revolutions, each regrouped by ring, exactly when every
   one of them has a point on ring 0.
   */
  lemma ListCloudsAreRevolutionsIff(start: nat, lasers: nat, blocks: seq<Block>, at: seq<nat>)
    requires 0 < lasers && start < CIRCLE && blocks != []
    requires Lasers(blocks, lasers) && Turning(blocks, at) && NothingUnseen(start, at)
    ensures var (lo, v) := (Revolution(start, at[0]), Revolution(start, Last(at)));
            RunBlocks(true, start, lasers, blocks).clouds
            == AllEmitted(true, CompletedRevolutions(start, blocks, at, lo, v), lasers)
            <==> AllOpen(true, start, blocks, at, lo, v)
  {
    CloudsAreRevolutionsIff(true, start, lasers, blocks, at);
    SeparatedWhenSeen(true, start, blocks, at);
  }

  lemma {:induction false} NoRingZero(start: nat, blocks: seq<Block>, at: seq<nat>, v: int)
    requires |at| == |blocks| && forall i :: 0 <= i < |blocks| ==> OfRing(blocks[i].points, 0) == []
    ensures OfRing(RevolutionPoints(start, blocks, at, v), 0) == []
  {
    if blocks != [] {
      NoRingZero(start, Front(blocks), Front(at), v);
      OfRingConcat(RevolutionPoints(start, Front(blocks), Front(at), v), Last(blocks).points, 0);
    }
  }

  lemma {:induction false} HoldsItsBlocks(start: nat, blocks: seq<Block>, at: seq<nat>, i: nat)
    requires |at| == |blocks| && i < |blocks|
    ensures |RevolutionPoints(start, blocks, at, Revolution(start, at[i]))| >= |blocks[i].points|
  {
    if i < |blocks| - 1 {
      HoldsItsBlocks(start, Front(blocks), Front(at), i);
    }
  }

  // --------------------------------------------------- the point buffer bound

  /** How many blocks in a row, up to the last, share its position. */
  function Repeats(at: seq<nat>): nat
    requires at != []
  {
    if |at| > 1 && at[|at| - 2] == Last(at) then Repeats(Front(at)) + 1 else 1
  }

  /** At most `r` blocks in a row share an azimuth, and azimuths that differ are at least `d` apart. */
  ghost predicate Spaced(at: seq<nat>, d: nat, r: nat) {
    && (forall i :: 0 < i < |at| ==> at[i] == at[i - 1] || at[i] >= at[i - 1] + d)
    && (forall i :: 0 < i <= |at| ==> Repeats(at[..i]) <= r)
  }

  ghost predicate AtMost(blocks: seq<Block>, lasers: nat) {
    forall i :: 0 <= i < |blocks| ==> |blocks[i].points| <= lasers
  }

  /** How many steps of `d` the sensor has turned since it last passed the start angle. */
  function Groups(start: nat, p: nat, d: nat): nat
    requires d > 0
  {
    (p - start) % CIRCLE / d
  }

  function Capacity(lasers: nat, r: nat, groups: nat, repeats: nat): nat {
    lasers * (groups * r + repeats)
  }

  lemma CapacityGrows(lasers: nat, r: nat, groups: nat, repeats: nat, groups': nat, repeats': nat)
    requires (groups' == groups && repeats' == repeats + 1) || (groups' > groups && repeats <= r && repeats' == 1)
    ensures Capacity(lasers, r, groups, repeats) + lasers <= Capacity(lasers, r, groups', repeats')
  {
    var a, b := groups * r + repeats, groups' * r + repeats';
    MulMonotone(groups + 1, groups', r);
    assert (groups + 1) * r == groups * r + r;
    MulMonotone(a + 1, b, lasers);
    assert (a + 1) * lasers == a * lasers + lasers;
  }

  lemma CapacityAtLeast(lasers: nat, r: nat, groups: nat, repeats: nat)
    requires repeats >= 1
    ensures lasers <= Capacity(lasers, r, groups, repeats)
  {
    var k := groups * r + repeats;
    assert lasers * k == lasers * (k - 1) + lasers;
  }

  lemma GroupsGrow(start: nat, p: nat, q: nat, d: nat)
    requires d > 0 && q >= p + d && Revolution(start, q) == Revolution(start, p)
    ensures Groups(start, q, d) > Groups(start, p, d)
  {
    var a, b := (p - start) % CIRCLE, (q - start) % CIRCLE;
    assert b - a == q - p;
    DivBounds(a, d);
    DivBounds(b, d);
    MulMonotone(b / d, a / d, d);
  }

  /** Points pending in the current revolution, against how far it has turned. */
  lemma {:induction false} PendingBounded(start: nat, lasers: nat, blocks: seq<Block>, at: seq<nat>, d: nat, r: nat)
    requires 0 < lasers && start < CIRCLE && blocks != [] && d > 0
    requires Lasers(blocks, lasers) && Turning(blocks, at) && AtMost(blocks, lasers) && Spaced(at, d, r)
    ensures |RevolutionPoints(start, blocks, at, Revolution(start, Last(at)))|
         <= Capacity(lasers, r, Groups(start, Last(at), d), Repeats(at))
    decreases |blocks|
  {
    CapacityAtLeast(lasers, r, Groups(start, Last(at), d), Repeats(at));
    PendingGrows(start, lasers, blocks, at);
    if |blocks| > 1 {
      SpacedPrefix(at, d, r);
      TurningFront(start, lasers, blocks, at);
      PendingBounded(start, lasers, Front(blocks), Front(at), d, r);
      if Revolution(start, Last(at)) == Revolution(start, at[|at| - 2]) {
        OneMoreInRevolution(start, lasers, at, d, r);
      }
    }
  }

  /** A block adds at most one point a laser to the current revolution, and a new revolution begins empty. */
  lemma PendingGrows(start: nat, lasers: nat, blocks: seq<Block>, at: seq<nat>)
    requires start < CIRCLE && blocks != [] && Turning(blocks, at) && AtMost(blocks, lasers)
    ensures var v := Revolution(start, Last(at));
            |RevolutionPoints(start, blocks, at, v)|
            <= lasers + (if |blocks| > 1 && Revolution(start, at[|at| - 2]) == v
                         then |RevolutionPoints(start, Front(blocks), Front(at), v)| else 0)
  {
    var v := Revolution(start, Last(at));
    if |blocks| == 1 {
      assert RevolutionPoints(start, Front(blocks), Front(at), v) == [];
    } else {
      TurnsForward(start, blocks, at, |at| - 2);
      if Revolution(start, at[|at| - 2]) != v {
        NothingYet(start, blocks, at, v);
      }
    }
  }

  lemma OneMoreInRevolution(start: nat, lasers: nat, at: seq<nat>, d: nat, r: nat)
    requires start < CIRCLE && |at| > 1 && d > 0 && Spaced(at, d, r)
    requires Revolution(start, Last(at)) == Revolution(start, at[|at| - 2])
    ensures Capacity(lasers, r, Groups(start, at[|at| - 2], d), Repeats(Front(at))) + lasers
         <= Capacity(lasers, r, Groups(start, Last(at), d), Repeats(at))
  {
    var p, q := at[|at| - 2], Last(at);
    assert at[..|at| - 1] == Front(at);
    if q != p {
      GroupsGrow(start, p, q, d);
    }
    CapacityGrows(lasers, r, Groups(start, p, d), Repeats(Front(at)), Groups(start, q, d), Repeats(at));
  }

  lemma SpacedPrefix(at: seq<nat>, d: nat, r: nat)
    requires Spaced(at, d, r) && at != []
    ensures Spaced(Front(at), d, r)
  {
    forall i | 0 < i <= |Front(at)|
      ensures Repeats(Front(at)[..i]) <= r
    {
      assert Front(at)[..i] == at[..i];
    }
  }

  /** The azimuths of one revolution, `d` apart: 36000 / d, rounded up. */
  function MaxGroups(d: nat): nat
    requires d > 0
  {
    (CIRCLE + d - 1) / d
  }

  lemma GroupsBelowMax(start: nat, p: nat, d: nat)
    requires d > 0
    ensures Groups(start, p, d) + 1 <= MaxGroups(d)
  {
    var offset := (p - start) % CIRCLE;
    DivBounds(offset, d);
    DivBounds(CIRCLE + d - 1, d);
    MulMonotone(MaxGroups(d), offset / d, d);
  }

  lemma CapacityBelowMax(lasers: nat, r: nat, groups: nat, repeats: nat, max: nat)
    requires repeats <= r && groups + 1 <= max
    ensures Capacity(lasers, r, groups, repeats) <= lasers * (r * max)
  {
    MulMonotone(groups + 1, max, r);
    assert (groups + 1) * r == groups * r + r;
    MulMonotone(groups * r + repeats, r * max, lasers);
  }

  /**
   With at most `r` blocks an azimuth, azimuths at least `d` apart, and
   lasers * r * ceil(36000 / d) within the fixed buffer, the buffer never holds
   more than its size after any block, so every write into it is in range.
   */
  lemma BufferNeverOverflows(start: nat, lasers: nat, blocks: seq<Block>, at: seq<nat>, d: nat, r: nat)
    requires 0 < lasers && start < CIRCLE && blocks != [] && d > 0
    requires Lasers(blocks, lasers) && Turning(blocks, at) && NothingUnseen(start, at)
    requires AtMost(blocks, lasers) && Spaced(at, d, r)
    requires lasers * (r * MaxGroups(d)) <= MAX_POINT_CLOUD_NUM
    ensures RunBlocks(false, start, lasers, blocks).splitter.buffer.Flat?
    ensures |RunBlocks(false, start, lasers, blocks).splitter.buffer.points| <= MAX_POINT_CLOUD_NUM
  {
    var p := Last(at);
    RunConserves(false, start, lasers, blocks);
    CloudsAreRevolutions(start, lasers, blocks, at);
    PendingBounded(start, lasers, blocks, at, d, r);
    GroupsBelowMax(start, p, d);
    assert at[..|at|] == at;
    CapacityBelowMax(lasers, r, Groups(start, p, d), Repeats(at), MaxGroups(d));
  }

  lemma TurningPrefix(start: nat, blocks: seq<Block>, all: seq<Block>, at: seq<nat>)
    requires blocks <= all && Turning(all, at) && NothingUnseen(start, at)
    ensures Turning(blocks, at[..|blocks|]) && NothingUnseen(start, at[..|blocks|])
  {
  }

  lemma {:induction false} SpacedUpTo(at: seq<nat>, n: nat, d: nat, r: nat)
    requires Spaced(at, d, r) && n <= |at|
    ensures Spaced(at[..n], d, r)
    decreases |at| - n
  {
    if n < |at| {
      SpacedUpTo(at, n + 1, d, r);
      SpacedPrefix(at[..n + 1], d, r);
      assert Front(at[..n + 1]) == at[..n];
    } else {
      assert at[..n] == at;
    }
  }

  /** The same at every earlier block. */
  lemma PrefixFits(start: nat, lasers: nat, blocks: seq<Block>, all: seq<Block>, at: seq<nat>, d: nat, r: nat)
    requires 0 < lasers && start < CIRCLE && d > 0 && blocks <= all
    requires Lasers(all, lasers) && Turning(all, at) && NothingUnseen(start, at)
    requires AtMost(all, lasers) && Spaced(at, d, r)
    requires lasers * (r * MaxGroups(d)) <= MAX_POINT_CLOUD_NUM
    ensures Lasers(blocks, lasers)
    ensures RunBlocks(false, start, lasers, blocks).splitter.buffer.Flat?
    ensures |RunBlocks(false, start, lasers, blocks).splitter.buffer.points| <= MAX_POINT_CLOUD_NUM
  {
    if blocks != [] {
      TurningPrefix(start, blocks, all, at);
      SpacedUpTo(at, |blocks|, d, r);
      BufferNeverOverflows(start, lasers, blocks, at[..|blocks|], d, r);
    }
  }

  /** A PandarXT-16 in single return mode at the finest azimuth step stays below the buffer size. */
  lemma Xt16Fits()
    ensures 16 * (1 * MaxGroups(1)) == 576_000 <= MAX_POINT_CLOUD_NUM
  {
  }
}
