/**
  The tiling loop shared by every repeating stamp:

      cur = start
      while cur < bound:      (or `<=` for the bullseye rings)
          emit(cur)
          cur += step

  `Positions` mirrors the loop; `Position` and `Count` are its closed form.
  Arithmetic is exact: the model does not accumulate floating-point error.
 */
module Tiling {

  /** The value of `cur` on the k-th turn of the loop. */
  function Position(start: real, step: real, k: nat): real {
    start + k as real * step
  }

  /** The loop condition: `cur < limit` or `cur <= limit`. */
  datatype Bound = Below(limit: real) | UpTo(limit: real) {
    predicate Admits(p: real) {
      match this
      case Below(l) => p < l
      case UpTo(l) => p <= l
    }
  }

  /** The least integer not below `q`. */
  function Ceil(q: real): (c: int)
    ensures c as real - 1.0 < q <= c as real
  {
    -((-q).Floor)
  }

  /** Multiplying by a positive factor keeps order. */
  lemma ScaleOrder(a: real, b: real, s: real)
    requires s > 0.0
    ensures a * s < b * s <==> a < b
    ensures a * s <= b * s <==> a <= b
  {
    if a < b {
      assert (b - a) * s > 0.0;
    } else {
      assert (a - b) * s >= 0.0;
    }
  }

  /** Number of turns before the loop condition first fails, possibly
      negative when it fails at once. */
  function RawCount(start: real, bound: Bound, step: real): int
    requires step > 0.0
  {
    var q := (bound.limit - start) / step;
    if bound.Below? then Ceil(q) else q.Floor + 1
  }

  /** Comparing a turn's value with the limit is comparing the turn
      number with the quotient `(limit - start) / step`. */
  lemma TurnVersusQuotient(start: real, limit: real, step: real, kr: real, q: real)
    requires step > 0.0
    requires q * step == limit - start
    ensures start + kr * step < limit <==> kr < q
    ensures start + kr * step <= limit <==> kr <= q
  {
    ScaleOrder(kr, q, step);
  }

  lemma RawCountAdmits(start: real, bound: Bound, step: real, k: nat)
    requires step > 0.0
    ensures k < RawCount(start, bound, step) <==> bound.Admits(Position(start, step, k))
  {
    var q := (bound.limit - start) / step;
    assert q * step == bound.limit - start;
    TurnVersusQuotient(start, bound.limit, step, k as real, q);
    var c := RawCount(start, bound, step);
    if bound.Below? {
      assert c == Ceil(q);
      assert k < c <==> (k as real) < q;
    } else {
      assert c == q.Floor + 1;
      assert k < c <==> (k as real) <= q;
    }
  }

  lemma RawCountAdmitsAll(start: real, bound: Bound, step: real)
    requires step > 0.0
    ensures forall k: nat :: k < RawCount(start, bound, step) <==> bound.Admits(Position(start, step, k))
  {
    forall k: nat
      ensures k < RawCount(start, bound, step) <==> bound.Admits(Position(start, step, k))
    {
      RawCountAdmits(start, bound, step, k);
    }
  }

  /** How many times the loop body runs: exactly the turns k whose value
      `start + k*step` the bound admits. */
  function Count(start: real, bound: Bound, step: real): (n: nat)
    requires step > 0.0
    ensures forall k: nat :: k < n <==> bound.Admits(Position(start, step, k))
  {
    RawCountAdmitsAll(start, bound, step);
    var c := RawCount(start, bound, step);
    if c < 0 then 0 else c
  }

  lemma PositionShift(start: real, step: real, k: nat)
    ensures Position(start + step, step, k) == Position(start, step, k + 1)
  {
  }

  /** One turn of the loop uses up exactly one of the remaining turns. */
  lemma {:induction false} CountShift(start: real, bound: Bound, step: real)
    requires step > 0.0
    requires bound.Admits(start)
    ensures Count(start + step, bound, step) == Count(start, bound, step) - 1
  {
    var n := Count(start, bound, step);
    var m := Count(start + step, bound, step);
    assert Position(start, step, 0) == start;
    assert n >= 1;
    PositionShift(start, step, n - 1);
    PositionShift(start, step, m);
  }

  /** The values `cur` takes in the loop, in order. */
  function Positions(start: real, bound: Bound, step: real): (ps: seq<real>)
    requires step > 0.0
    ensures |ps| == Count(start, bound, step)
    ensures forall k :: 0 <= k < |ps| ==> ps[k] == Position(start, step, k)
    decreases Count(start, bound, step)
  {
    if bound.Admits(start) then
      CountShift(start, bound, step);
      [start] + Positions(start + step, bound, step)
    else
      assert Position(start, step, 0) == start;
      []
  }

  /** The loop visits a value exactly when it is `start + k*step` for some
      k and the bound admits it; it stops at the first value the bound
      refuses. */
  lemma PositionsExact(start: real, bound: Bound, step: real, p: real)
    requires step > 0.0
    ensures p in Positions(start, bound, step) <==>
              exists k: nat :: p == Position(start, step, k) && bound.Admits(p)
    ensures !bound.Admits(Position(start, step, |Positions(start, bound, step)|))
  {
    var ps := Positions(start, bound, step);
    var n := Count(start, bound, step);
    assert !(n < n);
    if p in ps {
      var i :| 0 <= i < |ps| && ps[i] == p;
      assert p == Position(start, step, i) && bound.Admits(p);
    }
    if exists k: nat :: p == Position(start, step, k) && bound.Admits(p) {
      var k: nat :| p == Position(start, step, k) && bound.Admits(p);
      assert k < n;
      assert ps[k] == p;
    }
  }

  /** With a non-negative step no turn's value lies before `start`. */
  lemma PositionAtLeastStart(start: real, step: real, k: nat)
    requires step >= 0.0
    ensures start <= Position(start, step, k)
  {
    assert k as real * step >= 0.0;
  }

  /** Without a positive step the loop never ends: once the bound admits
      `start`, it admits the value of every later turn, since `cur` never
      grows. */
  lemma NoProgressWithoutStep(start: real, bound: Bound, step: real, k: nat)
    requires step <= 0.0
    requires bound.Admits(start)
    ensures bound.Admits(Position(start, step, k))
  {
    assert k as real * step <= 0.0 by {
      assert k as real * (-step) >= 0.0;
    }
  }

  /** Later turns of the loop have strictly larger values, so no line of
      a tiling is drawn twice. */
  lemma PositionsIncreasing(start: real, bound: Bound, step: real, i: nat, j: nat)
    requires step > 0.0
    requires i < j < Count(start, bound, step)
    ensures Positions(start, bound, step)[i] < Positions(start, bound, step)[j]
  {
    var a := i as real * step;
    var b := j as real * step;
    ScaleOrder(i as real, j as real, step);
    assert a < b;
    assert Position(start, step, i) < Position(start, step, j);
  }
}
