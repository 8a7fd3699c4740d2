/** The frame arenas' growth policy (`glnvg__allocVerts`,
    `glnvg__allocFragUniforms`) and the uniform block stride (`_fragSize`).

    Both arenas keep a used count and a capacity and grow the same way; only
    the floor differs (4096 vertices, 128 uniform blocks). Whether `realloc`
    succeeds is a parameter. Contents are not part of this module.
 */
module Arenas {

  datatype Arena = Arena(count: nat, capacity: nat)

  const VertexFloor: nat := 4096
  const UniformFloor: nat := 128

  predicate WellFormed(a: Arena) {
    a.count <= a.capacity
  }

  function Max(x: int, y: int): int {
    if x > y then x else y
  }

  /** `n` more units: grows only when they do not fit, to the larger of the
      new used count and the floor, plus half the old capacity. Returns the
      first index of the new units, or -1 (changing nothing) when the
      reallocation fails. */
  function Alloc(a: Arena, n: nat, floor: nat, reallocOk: bool): (r: (Arena, int))
    ensures r.1 == -1 <==> a.count + n > a.capacity && !reallocOk
    ensures r.1 == -1 ==> r.0 == a
    ensures r.1 != -1 ==> r.1 == a.count && r.0.count == a.count + n
    ensures a.count + n <= a.capacity ==> r.0.capacity == a.capacity
    ensures a.count + n > a.capacity && reallocOk ==>
      r.0.capacity == Max(a.count + n, floor) + a.capacity / 2
    ensures WellFormed(a) ==> WellFormed(r.0)
    ensures r.0.capacity >= a.capacity
  {
    if a.count + n > a.capacity then
      var cap := Max(a.count + n, floor) + a.capacity / 2;
      if !reallocOk then (a, -1 as int)
      else (Arena(a.count + n, cap), a.count as int)
    else (Arena(a.count + n, a.capacity), a.count as int)
  }

  /** `glnvg__allocVerts`: the index of the first new vertex, or -1. */
  function AllocVerts(a: Arena, n: nat, reallocOk: bool): (r: (Arena, int))
    ensures r.1 == -1 <==> a.count + n > a.capacity && !reallocOk
    ensures r.1 == -1 ==> r.0 == a
    ensures r.1 != -1 ==> r.1 == a.count && r.0.count == a.count + n
    ensures a.count + n <= a.capacity ==> r.0.capacity == a.capacity
    ensures a.count + n > a.capacity && reallocOk ==>
      r.0.capacity == Max(a.count + n, 4096) + a.capacity / 2
    ensures WellFormed(a) ==> WellFormed(r.0)
  {
    Alloc(a, n, VertexFloor, reallocOk)
  }

  /** `glnvg__allocFragUniforms`: the byte offset of the first new block
      (its index times the stride), or -1. */
  function AllocFragUniforms(a: Arena, n: nat, fragSize: nat, reallocOk: bool): (r: (Arena, int))
    ensures r.0 == Alloc(a, n, UniformFloor, reallocOk).0
    ensures r.1 == -1 <==> Alloc(a, n, UniformFloor, reallocOk).1 == -1
    ensures r.1 != -1 ==> r.1 == a.count * fragSize
  {
    var (a', i) := Alloc(a, n, UniformFloor, reallocOk);
    if i == -1 then (a', -1) else (a', i * fragSize)
  }

  /** A growth step multiplies the capacity by at least one and a half and
      leaves room for the request. */
  lemma GrowthIsGeometric(a: Arena, n: nat, floor: nat)
    requires a.count + n > a.capacity
    ensures var c := Alloc(a, n, floor, true).0.capacity;
      c >= a.count + n && c >= floor && 2 * c >= 3 * a.capacity
  {
  }

  /** Allocating `ns` in turn with `realloc` always succeeding: the final
      arena and the number of reallocations. */
  function AllocAll(a: Arena, ns: seq<nat>, floor: nat): (Arena, nat)
    decreases |ns|
  {
    if |ns| == 0 then (a, 0)
    else
      var a1 := Alloc(a, ns[0], floor, true).0;
      var (a2, k) := AllocAll(a1, ns[1..], floor);
      (a2, k + (if a.count + ns[0] > a.capacity then 1 else 0))
  }

  function Sum(ns: seq<nat>): nat
    decreases |ns|
  {
    if |ns| == 0 then 0 else ns[0] + Sum(ns[1..])
  }

  /** A lower bound on the capacity after `k` reallocations. */
  function MinCapacity(floor: nat, k: nat): nat
    decreases k
  {
    if k == 0 then 0
    else
      var c := MinCapacity(floor, k - 1);
      Max(c + 1, floor) + c / 2
  }

  /** The lower bound grows by half at every step, so it passes any given
      size after logarithmically many steps. */
  lemma MinCapacityGeometric(floor: nat, k: nat)
    ensures 2 * MinCapacity(floor, k + 1) >= 3 * MinCapacity(floor, k) + 1
    ensures MinCapacity(floor, k + 1) >= floor
  {
  }

  /** Amortised growth: starting from a well-formed arena whose capacity is
      within twice the larger of its count and the floor, allocations summing
      to S units cost k reallocations where the k-step lower bound stays
      within twice the larger of the final count and the floor. With
      `MinCapacityGeometric` this bounds k by a logarithm of S. */
  lemma {:induction false} ReallocationsLogarithmic(a: Arena, ns: seq<nat>, floor: nat, k0: nat)
    requires WellFormed(a)
    requires a.capacity <= 2 * Max(a.count, floor)
    requires a.capacity >= MinCapacity(floor, k0)
    ensures var (b, k) := AllocAll(a, ns, floor);
      && b.count == a.count + Sum(ns)
      && WellFormed(b)
      && MinCapacity(floor, k0 + k) <= b.capacity <= 2 * Max(b.count, floor)
    decreases |ns|
  {
    if |ns| > 0 {
      var a1 := Alloc(a, ns[0], floor, true).0;
      var grew := a.count + ns[0] > a.capacity;
      var k1 := k0 + (if grew then 1 else 0);
      StepKeepsBounds(a, ns[0], floor, k0);
      ReallocationsLogarithmic(a1, ns[1..], floor, k1);
      var (b, k) := AllocAll(a1, ns[1..], floor);
      assert AllocAll(a, ns, floor) == (b, k + (if grew then 1 else 0));
      assert Sum(ns) == ns[0] + Sum(ns[1..]);
    }
  }

  /** One allocation keeps the capacity within twice the larger of the count
      and the floor, and a growth step moves up one lower bound. */
  lemma {:induction false} StepKeepsBounds(a: Arena, n: nat, floor: nat, k0: nat)
    requires WellFormed(a)
    requires a.capacity <= 2 * Max(a.count, floor)
    requires a.capacity >= MinCapacity(floor, k0)
    ensures var a1 := Alloc(a, n, floor, true).0;
      && WellFormed(a1) && a1.count == a.count + n
      && a1.capacity <= 2 * Max(a1.count, floor)
      && a1.capacity >= MinCapacity(floor, k0 + (if a.count + n > a.capacity then 1 else 0))
  {
    if a.count + n > a.capacity {
      MinCapacityMonotone(floor, k0, a.capacity);
    }
  }

  /** One growth step from a capacity at or above the k-step bound reaches
      the (k+1)-step bound. */
  lemma MinCapacityMonotone(floor: nat, k: nat, cap: nat)
    requires cap >= MinCapacity(floor, k)
    ensures Max(cap + 1, floor) + cap / 2 >= MinCapacity(floor, k + 1)
  {
  }

  /** `_fragSize`: the size of the uniform block rounded up to the alignment
      GL reports, plus a whole extra alignment unit when the size is already
      a multiple. The result is the least multiple of the alignment strictly
      greater than the size. */
  function FragSize(structSize: nat, align: int): (r: nat)
    requires align > 0
    ensures r % align == 0
    ensures structSize < r <= structSize + align
    ensures forall m: nat :: m > structSize && m % align == 0 ==> r <= m
  {
    var r := structSize + align - structSize % align;
    LeastMultipleAbove(structSize, align, r);
    r
  }

  lemma LeastMultipleAbove(s: nat, align: int, r: int)
    requires align > 0 && r == s + align - s % align
    ensures r % align == 0
    ensures forall m: nat :: m > s && m % align == 0 ==> r <= m
  {
    var q := s / align;
    assert s == q * align + s % align;
    assert r == (q + 1) * align;
    MultipleMod(q + 1, align);
    forall m: nat | m > s && m % align == 0 ensures r <= m {
      var p := m / align;
      assert m == p * align;
      if p <= q {
        MulMonotone(p, q, align);
        assert false;
      }
      MulMonotone(q + 1, p, align);
    }
  }

  /** A multiple of the stride divides back exactly. */
  lemma MultipleMod(q: int, align: int)
    requires align > 0
    ensures (q * align) % align == 0 && (q * align) / align == q
  {
    var m := q * align;
    var d := q - m / align;
    assert m == (m / align) * align + m % align;
    assert d * align == m % align;
    if d >= 1 {
      MulMonotone(1, d, align);
    } else if d <= -1 {
      MulMonotone(d, -1, align);
    }
    assert d == 0;
  }

  lemma MulMonotone(p: int, q: int, align: int)
    requires p <= q && align > 0
    ensures p * align <= q * align
  {
  }
}
