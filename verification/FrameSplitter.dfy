/**
 Cutting a stream of azimuth blocks into clouds: the rate gate, the boundary
 test at the start angle, and the two forms of the point buffer (one flat list,
 or one list a ring).
 */
module FrameSplitter {
  import opened Common

  const CIRCLE := 36000                // hundredths of a degree
  const MAX_RATE: real := 3_600_000.0  // hundredths of a degree per second
  const TIME_SLACK: real := 0.001
  const MAX_LASER_NUM := 256

  /** A point: the packet and block it comes from, its ring and stamp; coordinates follow from the rest. */
  datatype Point = Point(packet: nat, block: nat, ring: nat, timestamp: real, azimuth: nat, millimetres: nat, intensity: nat)

  // ------------------------------------------------------------ the buffer

  datatype Buffer = Flat(points: seq<Point>) | Rings(lists: seq<seq<Point>>)

  function EmptyBuffer(structured: bool): Buffer {
    if structured then Rings(seq(MAX_LASER_NUM, i requires 0 <= i < MAX_LASER_NUM => [])) else Flat([])
  }

  predicate Room(b: Buffer) {
    b.Rings? ==> |b.lists| == MAX_LASER_NUM
  }

  function AddPoint(b: Buffer, p: Point): (r: Buffer)
    requires Room(b) && p.ring < MAX_LASER_NUM
    ensures Room(r)
  {
    match b
    case Flat(points) => Flat(points + [p])
    case Rings(lists) => Rings(lists[p.ring := lists[p.ring] + [p]])
  }

  predicate RingsBelow(points: seq<Point>, lasers: nat) {
    forall i :: 0 <= i < |points| ==> points[i].ring < lasers
  }

  function AddPoints(b: Buffer, points: seq<Point>): (r: Buffer)
    requires Room(b) && RingsBelow(points, MAX_LASER_NUM)
    ensures Room(r)
  {
    if points == [] then b else AddPoint(AddPoints(b, Front(points)), Last(points))
  }

  /** The emission guard: in list form it looks at ring 0 only. */
  predicate GuardOpen(b: Buffer)
    requires Room(b)
  {
    match b
    case Flat(points) => |points| > 0
    case Rings(lists) => |lists[0]| > 0
  }

  function CloudOf(b: Buffer, lasers: nat): seq<Point>
    requires Room(b) && lasers <= MAX_LASER_NUM
  {
    match b
    case Flat(points) => points
    case Rings(lists) => Flatten(lists[..lasers])
  }

  function Cleared(b: Buffer, lasers: nat): (r: Buffer)
    requires Room(b) && lasers <= MAX_LASER_NUM
    ensures Room(r)
  {
    match b
    case Flat(points) => Flat([])
    case Rings(lists) => Rings(seq(MAX_LASER_NUM, i requires 0 <= i < MAX_LASER_NUM => if i < lasers then [] else lists[i]))
  }

  // ---------------------------------------------------------- the splitter

  datatype Block = Block(azimuth: nat, time: real, points: seq<Point>)

  datatype Splitter = Splitter(lastAzimuth: nat, lastTime: real, buffer: Buffer)

  function Fresh(structured: bool): Splitter {
    Splitter(0, 0.0, EmptyBuffer(structured))
  }

  function AzimuthGap(last: nat, azimuth: nat): int {
    if last > azimuth then azimuth + (CIRCLE - last) else azimuth - last
  }

  /** gap / elapsed < MAX_RATE, the quotient being infinite or undefined when nothing elapsed. */
  predicate RatePasses(gap: int, elapsed: real) {
    if elapsed == 0.0 then gap < 0
    else if elapsed > 0.0 then gap as real < MAX_RATE * elapsed
    else gap as real > MAX_RATE * elapsed
  }

  predicate Boundary(start: nat, last: nat, azimuth: nat) {
    (last > azimuth && start <= azimuth) || (last < start && start <= azimuth)
  }

  predicate Fires(start: nat, s: Splitter, b: Block) {
    && s.lastAzimuth != b.azimuth
    && RatePasses(AzimuthGap(s.lastAzimuth, b.azimuth), b.time - s.lastTime + TIME_SLACK)
    && Boundary(start, s.lastAzimuth, b.azimuth)
  }

  /**
   The cut for azimuths on the circle and any clock, written out: the azimuth has
   changed; a step back, or one that starts below the start angle, ends at or
   beyond it; and the clock ran back by more than a millisecond, or the sensor
   would have turned by less than 36000 degrees a second, with a millisecond
   granted on top of what elapsed.
   */
  lemma FiresWhen(start: nat, s: Splitter, b: Block)
    requires s.lastAzimuth < 36_000 && b.azimuth < 36_000
    ensures var elapsed := b.time - s.lastTime;
            var gap := if b.azimuth < s.lastAzimuth then b.azimuth + 36_000 - s.lastAzimuth else b.azimuth - s.lastAzimuth;
            Fires(start, s, b)
            <==> && b.azimuth != s.lastAzimuth && start <= b.azimuth && (b.azimuth < s.lastAzimuth || s.lastAzimuth < start)
                 && (elapsed < -0.001 || (elapsed > -0.001 && gap as real < 3_600_000.0 * (elapsed + 0.001)))
  {
  }

  /** Backward jitter: by up to 3599 hundredths of a degree, in at most 8 ms, with the position still above zero. */
  predicate StepsBack(azimuth: nat, time: real, b: Block) {
    && azimuth < 36_000 && b.azimuth < azimuth <= b.azimuth + 3599
    && time <= b.time <= time + 0.008
  }

  /** The rate gate closes on it: it never cuts. */
  lemma JitterNeverFires(start: nat, s: Splitter, b: Block)
    ensures StepsBack(s.lastAzimuth, s.lastTime, b)
       <==> b.azimuth < s.lastAzimuth < 36_000 && s.lastAzimuth - b.azimuth <= 3599 && 0.0 <= b.time - s.lastTime <= 0.008
    ensures StepsBack(s.lastAzimuth, s.lastTime, b) ==> !Fires(start, s, b)
  {
    if StepsBack(s.lastAzimuth, s.lastTime, b) {
      FiresWhen(start, s, b);
    }
  }

  /** One block: possibly emit what is buffered, then buffer the block's points. */
  function Split(start: nat, lasers: nat, s: Splitter, b: Block): (Splitter, Option<seq<Point>>)
    requires Room(s.buffer) && lasers <= MAX_LASER_NUM && RingsBelow(b.points, lasers)
  {
    if Fires(start, s, b) && GuardOpen(s.buffer) then
      var cloud := CloudOf(s.buffer, lasers);
      (Splitter(b.azimuth, b.time, AddPoints(Cleared(s.buffer, lasers), b.points)),
       if cloud == [] then None else Some(cloud))
    else (Splitter(b.azimuth, b.time, AddPoints(s.buffer, b.points)), None)
  }

  // ------------------------------------- what the buffer holds, in both forms

  function OfRing(points: seq<Point>, ring: nat): seq<Point> {
    if points == [] then []
    else if Last(points).ring == ring then OfRing(Front(points), ring) + [Last(points)]
    else OfRing(Front(points), ring)
  }

  /** The buffer holds exactly `pending`, in order, or in order within each ring. */
  ghost predicate Holds(b: Buffer, pending: seq<Point>, lasers: nat) {
    && Room(b) && RingsBelow(pending, lasers)
    && (b.Flat? ==> b.points == pending)
    && (b.Rings? ==> forall r :: 0 <= r < MAX_LASER_NUM ==> b.lists[r] == OfRing(pending, r))
  }

  /** Whether a buffer holding `pending` passes the emission guard. */
  predicate Open(structured: bool, pending: seq<Point>) {
    if structured then OfRing(pending, 0) != [] else pending != []
  }

  lemma GuardSeesPending(b: Buffer, pending: seq<Point>, lasers: nat)
    requires Holds(b, pending, lasers)
    ensures GuardOpen(b) <==> Open(b.Rings?, pending)
  {
  }

  /** The points of `pending` regrouped by ring, each ring in its original order. */
  function Regrouped(pending: seq<Point>, lasers: nat): seq<Point> {
    if lasers == 0 then [] else Regrouped(pending, lasers - 1) + OfRing(pending, lasers - 1)
  }

  lemma {:induction false} AddPointsHolds(b: Buffer, pending: seq<Point>, points: seq<Point>, lasers: nat)
    requires lasers <= MAX_LASER_NUM && Holds(b, pending, lasers) && RingsBelow(points, lasers)
    ensures Holds(AddPoints(b, points), pending + points, lasers)
  {
    if points == [] {
      assert pending + points == pending;
    } else {
      AddPointsHolds(b, pending, Front(points), lasers);
      var before := pending + Front(points);
      assert pending + points == before + [Last(points)] && Front(pending + points) == before;
    }
  }

  lemma {:induction false} RingsAbove(pending: seq<Point>, lasers: nat, ring: nat)
    requires RingsBelow(pending, lasers) && lasers <= ring
    ensures OfRing(pending, ring) == []
  {
    if pending != [] {
      RingsAbove(Front(pending), lasers, ring);
    }
  }

  lemma ClearedHolds(b: Buffer, pending: seq<Point>, lasers: nat)
    requires lasers <= MAX_LASER_NUM && Holds(b, pending, lasers)
    ensures Holds(Cleared(b, lasers), [], lasers)
  {
    if b.Rings? {
      forall r | lasers <= r < MAX_LASER_NUM
        ensures b.lists[r] == []
      {
        RingsAbove(pending, lasers, r);
      }
    }
  }

  lemma {:induction false} CloudIsRegrouped(lists: seq<seq<Point>>, pending: seq<Point>, n: nat)
    requires n <= |lists| && forall r :: 0 <= r < |lists| ==> lists[r] == OfRing(pending, r)
    ensures Flatten(lists[..n]) == Regrouped(pending, n)
  {
    if n > 0 {
      CloudIsRegrouped(lists, pending, n - 1);
      assert Front(lists[..n]) == lists[..n - 1];
    }
  }

  /** The cloud the source emits for `pending`. */
  function Emitted(structured: bool, pending: seq<Point>, lasers: nat): seq<Point> {
    if structured then Regrouped(pending, lasers) else pending
  }

  lemma {:induction false} RegroupedNonEmpty(pending: seq<Point>, lasers: nat)
    requires lasers > 0 && OfRing(pending, 0) != []
    ensures Regrouped(pending, lasers) != []
  {
    if lasers > 1 {
      RegroupedNonEmpty(pending, lasers - 1);
    }
  }

  /**
   One block, either buffer form: an emitted cloud is exactly the points
   collected since the last emission (regrouped by ring in list form), the
   empty-cloud branch is never taken, and nothing else is lost or repeated.
   */
  lemma SplitConserves(start: nat, lasers: nat, s: Splitter, b: Block, pending: seq<Point>)
    requires 0 < lasers <= MAX_LASER_NUM && Holds(s.buffer, pending, lasers) && RingsBelow(b.points, lasers)
    ensures var (s', cloud) := Split(start, lasers, s, b);
            && s'.buffer.Rings? == s.buffer.Rings?
            && (cloud.Some? <==> Fires(start, s, b) && GuardOpen(s.buffer))
            && (cloud.Some? ==> cloud.value == Emitted(s.buffer.Rings?, pending, lasers) != [])
            && Holds(s'.buffer, if cloud.Some? then b.points else pending + b.points, lasers)
  {
    AddPointsKind(s.buffer, b.points);
    if Fires(start, s, b) && GuardOpen(s.buffer) {
      ClearedHolds(s.buffer, pending, lasers);
      AddPointsHolds(Cleared(s.buffer, lasers), [], b.points, lasers);
      AddPointsKind(Cleared(s.buffer, lasers), b.points);
      assert [] + b.points == b.points;
      if s.buffer.Rings? {
        CloudIsRegrouped(s.buffer.lists, pending, lasers);
        RegroupedNonEmpty(pending, lasers);
      }
    } else {
      AddPointsHolds(s.buffer, pending, b.points, lasers);
    }
  }

  lemma {:induction false} AddPointsKind(b: Buffer, points: seq<Point>)
    requires Room(b) && RingsBelow(points, MAX_LASER_NUM)
    ensures AddPoints(b, points).Rings? == b.Rings?
  {
    if points != [] {
      AddPointsKind(b, Front(points));
    }
  }

  lemma {:induction false} OfRingConcat(a: seq<Point>, b: seq<Point>, ring: nat)
    ensures OfRing(a + b, ring) == OfRing(a, ring) + OfRing(b, ring)
  {
    if b == [] {
      assert a + b == a;
    } else {
      assert Front(a + b) == a + Front(b);
      OfRingConcat(a, Front(b), ring);
    }
  }

  lemma {:induction false} OfRingOfRing(points: seq<Point>, inner: nat, ring: nat)
    ensures OfRing(OfRing(points, inner), ring) == if ring == inner then OfRing(points, inner) else []
  {
    if points != [] {
      OfRingOfRing(Front(points), inner, ring);
      if Last(points).ring == inner {
        assert Front(OfRing(points, inner)) == OfRing(Front(points), inner);
      }
    }
  }

  /** Regrouping is stable: each ring's points come out in the order they went in. */
  lemma {:induction false} RegroupingIsStable(pending: seq<Point>, lasers: nat, ring: nat)
    ensures OfRing(Regrouped(pending, lasers), ring) == if ring < lasers then OfRing(pending, ring) else []
  {
    if lasers > 0 {
      RegroupingIsStable(pending, lasers - 1, ring);
      OfRingConcat(Regrouped(pending, lasers - 1), OfRing(pending, lasers - 1), ring);
      OfRingOfRing(pending, lasers - 1, ring);
    }
  }

  function IfBelow(p: Point, lasers: nat): multiset<Point> {
    if p.ring < lasers then multiset{p} else multiset{}
  }

  lemma OfRingSnoc(pending: seq<Point>, p: Point, ring: nat)
    ensures OfRing(pending + [p], ring) == if p.ring == ring then OfRing(pending, ring) + [p] else OfRing(pending, ring)
  {
    assert Front(pending + [p]) == pending && Last(pending + [p]) == p;
  }

  lemma {:induction false} RegroupedSnoc(pending: seq<Point>, p: Point, lasers: nat)
    ensures multiset(Regrouped(pending + [p], lasers)) == multiset(Regrouped(pending, lasers)) + IfBelow(p, lasers)
  {
    if lasers > 0 {
      var ring := lasers - 1;
      RegroupedSnoc(pending, p, ring);
      OfRingSnoc(pending, p, ring);
      JoinMultisets(Regrouped(pending, ring), OfRing(pending, ring),
                    Regrouped(pending + [p], ring), OfRing(pending + [p], ring), p, p.ring < ring, p.ring == ring);
    }
  }

  lemma JoinMultisets<T>(a: seq<T>, x: seq<T>, a': seq<T>, x': seq<T>, p: T, inA: bool, inX: bool)
    requires !(inA && inX)
    requires multiset(a') == multiset(a) + (if inA then multiset{p} else multiset{})
    requires x' == if inX then x + [p] else x
    ensures multiset(a' + x') == multiset(a + x) + (if inA || inX then multiset{p} else multiset{})
  {
    assert multiset(a + x) == multiset(a) + multiset(x);
    assert multiset(a' + x') == multiset(a') + multiset(x');
  }

  /** Regrouping is a permutation: nothing is lost or repeated. */
  lemma {:induction false} RegroupingIsPermutation(pending: seq<Point>, lasers: nat)
    requires RingsBelow(pending, lasers)
    ensures multiset(Regrouped(pending, lasers)) == multiset(pending)
  {
    if pending == [] {
      RegroupedOfNothing(lasers);
    } else {
      RegroupingIsPermutation(Front(pending), lasers);
      RegroupedSnoc(Front(pending), Last(pending), lasers);
      assert pending == Front(pending) + [Last(pending)];
    }
  }

  lemma {:induction false} RegroupedOfNothing(lasers: nat)
    ensures Regrouped([], lasers) == []
  {
    if lasers > 0 {
      RegroupedOfNothing(lasers - 1);
    }
  }
}
