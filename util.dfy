/** Shared vocabulary: an option type, 2-D vectors over the reals, the clamping
    helpers the simulation uses everywhere, distance comparisons carried out on
    squared lengths, and the total of a map's values. */
module Util {

  datatype Option<+T> = None | Some(value: T)

  /** `a.min(b)` on `f32`. */
  function Min(a: real, b: real): (r: real)
    ensures r <= a && r <= b
    ensures r == a || r == b
  {
    if a <= b then a else b
  }

  /** `a.max(b)` on `f32`. */
  function Max(a: real, b: real): (r: real)
    ensures r >= a && r >= b
    ensures r == a || r == b
  {
    if a >= b then a else b
  }

  function Abs(a: real): (r: real)
    ensures r >= 0.0
    ensures r == a || r == -a
  {
    if a < 0.0 then -a else a
  }

  /** `v.clamp(lo, hi)` on `f32`, which panics unless lo <= hi. */
  function Clamp(v: real, lo: real, hi: real): (r: real)
    requires lo <= hi
    ensures lo <= r <= hi
    ensures lo <= v <= hi ==> r == v
    ensures v < lo ==> r == lo
    ensures v > hi ==> r == hi
  {
    if v < lo then lo else if v > hi then hi else v
  }

  lemma ClampMonotone(a: real, b: real, lo: real, hi: real)
    requires a <= b && lo <= hi
    ensures Clamp(a, lo, hi) <= Clamp(b, lo, hi)
  {
  }

  function MinNat(a: nat, b: nat): (r: nat)
    ensures r <= a && r <= b
    ensures r == a || r == b
  {
    if a <= b then a else b
  }

  /** `glam::Vec2` with the operations the simulation uses. */
  datatype Vec2 = Vec2(x: real, y: real) {
    function Add(o: Vec2): Vec2 { Vec2(x + o.x, y + o.y) }
    function Sub(o: Vec2): Vec2 { Vec2(x - o.x, y - o.y) }
    function Scale(k: real): Vec2 { Vec2(x * k, y * k) }
    /** The squared Euclidean length; `length()` is its square root. */
    function LengthSq(): real { x * x + y * y }
    /** `self.lerp(rhs, s)`: self + (rhs - self) * s. */
    function Lerp(rhs: Vec2, s: real): Vec2 { Add(rhs.Sub(this).Scale(s)) }
  }

  const Zero: Vec2 := Vec2(0.0, 0.0)

  /** `length` is `Vec2::length`: the non-negative square root of LengthSq. */
  ghost predicate IsLength(length: Vec2 -> real)
  {
    forall v: Vec2 :: length(v) >= 0.0 && length(v) * length(v) == v.LengthSq()
  }

  /** `sqrt(dsq) <= r`, decided without the square root. */
  predicate AtMost(dsq: real, r: real)
  {
    r >= 0.0 && dsq <= r * r
  }

  /** `sqrt(dsq) < r`, decided without the square root. */
  predicate LessThan(dsq: real, r: real)
  {
    r > 0.0 && dsq < r * r
  }

  /** The two predicates agree with the comparisons on the true distance d. */
  lemma SquaredComparisons(d: real, r: real)
    requires d >= 0.0
    ensures AtMost(d * d, r) <==> d <= r
    ensures LessThan(d * d, r) <==> d < r
  {
    if r < 0.0 {
    } else if d < r {
      assert d * d <= d * r < r * r;
    } else if d == r {
    } else {
      assert r * r <= r * d < d * d;
    }
  }

  /** The sum of the values of a finite map. */
  ghost function MapTotal<K>(m: map<K, nat>): nat
    decreases |m|
  {
    if |m| == 0 then 0
    else
      var k :| k in m;
      m[k] + MapTotal(m - {k})
  }

  lemma MapTotalChoice<K>(m: map<K, nat>) returns (j: K)
    requires |m| > 0
    ensures j in m && MapTotal(m) == m[j] + MapTotal(m - {j})
  {
    j :| j in m && MapTotal(m) == m[j] + MapTotal(m - {j});
  }
  lemma RemoveSmaller<K>(m: map<K, nat>, k: K)
    requires k in m
    ensures |m - {k}| == |m| - 1
  {
    assert (m - {k}).Keys + {k} == m.Keys;
  }
  lemma {:induction false} MapTotalRemove<K>(m: map<K, nat>, k: K)
    requires k in m
    ensures MapTotal(m) == m[k] + MapTotal(m - {k})
    decreases |m|
  {
    var j := MapTotalChoice(m);
    if j != k {
      RemoveSmaller(m, j);
      RemoveSmaller(m, k);
      Swap(m, j, k);
    }
  }
  lemma {:induction false} Swap<K>(m: map<K, nat>, j: K, k: K)
    requires j in m && k in m && j != k
    ensures m[j] + MapTotal(m - {j}) == m[k] + MapTotal(m - {k})
    decreases |m|, 0
  {
      var mj := m - {j};
      var mk := m - {k};
      RemoveSmaller(m, j);
      RemoveSmaller(m, k);
      MapTotalRemove(mj, k);
      MapTotalRemove(mk, j);
      assert mj - {k} == mk - {j};
  }

  /** The map with one more occurrence of key k counted. */
  function Bump<K>(m: map<K, nat>, k: K): map<K, nat>
  {
    m[k := (if k in m then m[k] else 0) + 1]
  }

  /** Counting one more occurrence of key k raises the total by exactly one. */
  lemma MapTotalIncrement<K>(m: map<K, nat>, k: K)
    ensures MapTotal(Bump(m, k)) == MapTotal(m) + 1
  {
    var m' := Bump(m, k);
    MapTotalRemove(m', k);
    if k in m {
      MapTotalRemove(m, k);
      assert m' - {k} == m - {k};
    } else {
      assert m' - {k} == m;
    }
  }

  lemma MulNonNegative(a: real, b: real)
    requires a >= 0.0 && b >= 0.0
    ensures a * b >= 0.0
  {
  }
}
