/**
 Machine integers, optional values and the sequence vocabulary shared by the
 other modules.
 */
module Common {
  const TWO_POW_16: int := 0x1_0000
  const TWO_POW_31: int := 0x8000_0000
  const TWO_POW_32: int := 0x1_0000_0000

  type byte = x: int | 0 <= x < 256
  type uint16 = x: int | 0 <= x < TWO_POW_16
  type uint32 = x: int | 0 <= x < TWO_POW_32

  datatype Option<+T> = None | Some(value: T)

  /** A double: either a finite value, taken as an exact real, or NaN / infinity. */
  datatype Stamp = Finite(t: real) | NonFinite

  function Last<T>(xs: seq<T>): T
    requires xs != []
  {
    xs[|xs| - 1]
  }

  function Front<T>(xs: seq<T>): seq<T>
    requires xs != []
  {
    xs[..|xs| - 1]
  }

  lemma MulMonotone(x: int, y: int, d: int)
    requires d >= 0
    ensures x <= y ==> x * d <= y * d
  {
    if x <= y {
      assert (y - x) * d >= 0;
      assert y * d - x * d == (y - x) * d;
    }
  }

  lemma DivBounds(a: nat, d: nat)
    requires d > 0
    ensures a / d * d <= a < a / d * d + d
  {
  }

  function Flatten<T>(xss: seq<seq<T>>): seq<T> {
    if xss == [] then [] else Flatten(Front(xss)) + Last(xss)
  }

  lemma FlattenSnoc<T>(xss: seq<seq<T>>, xs: seq<T>)
    ensures Flatten(xss + [xs]) == Flatten(xss) + xs
  {
    assert Front(xss + [xs]) == xss;
  }

  lemma Reassociate<T>(a: seq<T>, b: seq<T>, c: seq<T>)
    ensures a + (b + c) == a + b + c
  {
  }

  /** `n` strides of `width`, as a running index adds them up. */
  function Strides(n: nat, width: nat): nat {
    if n == 0 then 0 else Strides(n - 1, width) + width
  }

  lemma {:induction false} StridesIsProduct(n: nat, width: nat)
    ensures Strides(n, width) == n * width
  {
    if n > 0 {
      StridesIsProduct(n - 1, width);
      assert n * width == (n - 1) * width + width;
    }
  }

  lemma {:induction false} StrideFits(i: nat, n: nat, width: nat)
    requires i < n
    ensures Strides(i, width) + width == Strides(i + 1, width) <= Strides(n, width)
  {
    if i + 1 < n {
      StrideFits(i, n - 1, width);
    }
  }

  /** `part` occupies the positions of `whole` from `at` on. */
  ghost predicate HasAt<T>(whole: seq<T>, at: nat, part: seq<T>) {
    at + |part| <= |whole| && forall i :: 0 <= i < |part| ==> part[i] == whole[at + i]
  }

  lemma HasAtConcat<T>(whole: seq<T>, at: nat, a: seq<T>, b: seq<T>)
    ensures HasAt(whole, at, a + b) <==> HasAt(whole, at, a) && HasAt(whole, at + |a|, b)
  {
    if HasAt(whole, at, a + b) {
      assert forall i :: 0 <= i < |a| ==> a[i] == (a + b)[i];
      forall i | 0 <= i < |b|
        ensures b[i] == whole[at + |a| + i]
      {
        assert b[i] == (a + b)[|a| + i];
      }
    } else if HasAt(whole, at, a) && HasAt(whole, at + |a|, b) {
      forall i | 0 <= i < |a + b|
        ensures (a + b)[i] == whole[at + i]
      {
        if i >= |a| {
          assert (a + b)[i] == b[i - |a|];
        }
      }
    }
  }

  lemma HasAtTransitive<T>(whole: seq<T>, at: nat, part: seq<T>, offset: nat, piece: seq<T>)
    requires HasAt(whole, at, part) && HasAt(part, offset, piece)
    ensures HasAt(whole, at + offset, piece)
  {
    forall i | 0 <= i < |piece|
      ensures piece[i] == whole[at + offset + i]
    {
      assert part[offset + i] == whole[at + (offset + i)];
    }
  }

  lemma HasAtAll<T>(whole: seq<T>, part: seq<T>)
    requires HasAt(whole, 0, part) && |part| == |whole|
    ensures part == whole
  {
  }

  /** Chunks of one fixed width lie back to back. */
  lemma {:induction false} FlattenFixedWidth<T>(xss: seq<seq<T>>, width: nat, i: nat)
    requires forall k :: 0 <= k < |xss| ==> |xss[k]| == width
    ensures |Flatten(xss)| == Strides(|xss|, width)
    ensures i < |xss| ==> HasAt(Flatten(xss), Strides(i, width), xss[i])
  {
    if xss != [] {
      FlattenFixedWidth(Front(xss), width, i);
      var head := Flatten(Front(xss));
      if i < |xss| - 1 {
        assert HasAt(Flatten(xss), 0, head);
        HasAtTransitive(Flatten(xss), 0, head, Strides(i, width), xss[i]);
      }
    }
  }

  /** `xs` is what remains of `ys` after deleting some of its positions. */
  ghost predicate Subsequence<T>(xs: seq<T>, ys: seq<T>) {
    if xs == [] then true
    else if ys == [] then false
    else (Last(xs) == Last(ys) && Subsequence(Front(xs), Front(ys))) || Subsequence(xs, Front(ys))
  }

  lemma SubsequenceSkip<T>(xs: seq<T>, ys: seq<T>, y: T)
    requires Subsequence(xs, ys)
    ensures Subsequence(xs, ys + [y])
  {
    assert Front(ys + [y]) == ys;
  }

  lemma SubsequenceTake<T>(xs: seq<T>, ys: seq<T>, y: T)
    requires Subsequence(xs, ys)
    ensures Subsequence(xs + [y], ys + [y])
  {
    assert Front(xs + [y]) == xs && Front(ys + [y]) == ys;
  }

  lemma {:induction false} SubsequenceRefl<T>(xs: seq<T>)
    ensures Subsequence(xs, xs)
  {
    if xs != [] {
      SubsequenceRefl(Front(xs));
    }
  }

  lemma {:induction false} SubsequencePrefix<T>(xs: seq<T>, ys: seq<T>)
    requires xs <= ys
    ensures Subsequence(xs, ys)
    decreases |ys|
  {
    if |xs| == |ys| {
      assert xs == ys;
      SubsequenceRefl(xs);
    } else {
      SubsequencePrefix(xs, Front(ys));
    }
  }

  lemma {:induction false} SubsequenceTransitive<T>(xs: seq<T>, ys: seq<T>, zs: seq<T>)
    requires Subsequence(xs, ys) && Subsequence(ys, zs)
    ensures Subsequence(xs, zs)
    decreases |zs|
  {
    if xs != [] {
      if Last(ys) == Last(zs) && Subsequence(Front(ys), Front(zs)) {
        if Last(xs) == Last(ys) && Subsequence(Front(xs), Front(ys)) {
          SubsequenceTransitive(Front(xs), Front(ys), Front(zs));
        } else {
          SubsequenceTransitive(xs, Front(ys), Front(zs));
        }
      } else {
        SubsequenceTransitive(xs, ys, Front(zs));
      }
    }
  }

  lemma DropLast<T>(xs: seq<T>, x: T, ys: seq<T>)
    requires Subsequence(xs + [x], ys)
    ensures Subsequence(xs, ys)
  {
    SubsequencePrefix(xs, xs + [x]);
    SubsequenceTransitive(xs, xs + [x], ys);
  }

  /** Nothing is used twice: a subsequence takes each element at most as often as it occurs. */
  lemma {:induction false} SubsequenceMultiset<T>(xs: seq<T>, ys: seq<T>)
    requires Subsequence(xs, ys)
    ensures multiset(xs) <= multiset(ys)
    decreases |ys|
  {
    if xs != [] {
      assert ys == Front(ys) + [Last(ys)];
      if Last(xs) == Last(ys) && Subsequence(Front(xs), Front(ys)) {
        assert xs == Front(xs) + [Last(xs)];
        SubsequenceMultiset(Front(xs), Front(ys));
      } else {
        SubsequenceMultiset(xs, Front(ys));
      }
    }
  }

  /** A stamp as whole seconds and nanoseconds, rounded down, and back. */
  function Seconds(t: real): int {
    t.Floor
  }

  function Nanoseconds(t: real): int {
    ((t - t.Floor as real) * 1_000_000_000.0).Floor
  }

  function Joined(sec: int, nanosec: int): real {
    sec as real + nanosec as real / 1_000_000_000.0
  }

  lemma StampRoundsDown(t: real)
    ensures 0 <= Nanoseconds(t) < 1_000_000_000
    ensures t - 0.000_000_001 < Joined(Seconds(t), Nanoseconds(t)) <= t
  {
    var x := (t - t.Floor as real) * 1_000_000_000.0;
    assert 0.0 <= x < 1_000_000_000.0;
  }

  function Rounded(t: real): real {
    Joined(Seconds(t), Nanoseconds(t))
  }

  lemma RoundedIsFloor(t: real)
    ensures Rounded(t) * 1_000_000_000.0 == (t * 1_000_000_000.0).Floor as real
  {
    var f := (t - t.Floor as real) * 1_000_000_000.0;
    assert t * 1_000_000_000.0 == (t.Floor * 1_000_000_000) as real + f;
    assert (t * 1_000_000_000.0).Floor == t.Floor * 1_000_000_000 + f.Floor;
  }

  /** Rounding down keeps every lag of a whole number of nanoseconds, negative ones included. */
  lemma RoundingKeepsLag(t: real, u: real, nanoseconds: int)
    requires u - t >= nanoseconds as real / 1_000_000_000.0
    ensures Rounded(u) - Rounded(t) >= nanoseconds as real / 1_000_000_000.0
  {
    RoundedIsFloor(t);
    RoundedIsFloor(u);
    var x, y := t * 1_000_000_000.0, u * 1_000_000_000.0;
    assert y >= x + nanoseconds as real;
    assert y.Floor >= x.Floor + nanoseconds;
  }

  /** A stamp may lie below an earlier one, but never by more than the tolerance. */
  ghost predicate NonRegressing(tolerance: real, ts: seq<real>) {
    forall i, j :: 0 <= i < j < |ts| ==> ts[j] >= ts[i] - tolerance
  }
}
