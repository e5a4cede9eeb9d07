/**
 The points of the threshold demo and their generation (js/plot.js,
 `generateClassData`). The Gaussian draw itself (Box-Muller over
 `Math.random`) is not modelled: the generator receives the already-rounded
 draw for each index from an abstract source `draw`, and what is modelled is
 what the loop does with it: clamp it into the domain, give it an id and a
 class label, and make exactly `count` of them.
 */
module Generation {
  import opened Decimal

  /** `X_DOMAIN = [0, 30]`: the axis runs over the integers 0..29; a threshold may also sit at 30. */
  const DomainLo: int := 0
  const DomainHi: int := 30

  /** A generated point: `{ id, value, class }`. */
  datatype Point = Point(id: string, value: int, cls: string)

  function Min(a: int, b: int): int { if a <= b then a else b }
  function Max(a: int, b: int): int { if a >= b then a else b }

  /** `Math.max(lo, Math.min(hi, v))`: the closest integer to `v` in `[lo, hi]`. */
  function Clamp(lo: int, hi: int, v: int): (r: int)
    requires lo <= hi
    ensures lo <= r <= hi
    ensures lo <= v <= hi ==> r == v
    ensures v < lo ==> r == lo
    ensures hi < v ==> r == hi
  {
    Max(lo, Min(hi, v))
  }

  /** The clamp of a rounded draw into `[X_DOMAIN[0], X_DOMAIN[1] - 1]`. */
  function ClampValue(v: int): (r: int)
    ensures DomainLo <= r < DomainHi
    ensures DomainLo <= v < DomainHi <==> r == v
  {
    Clamp(DomainLo, DomainHi - 1, v)
  }

  /** The id `${className}-${i}` of the `i`-th point of a class. */
  function PointId(className: string, i: nat): string
  {
    className + "-" + NatToString(i)
  }

  /** Within one class, different indices give different ids. */
  lemma PointIdDistinct(className: string, i: nat, j: nat)
    requires i != j
    ensures PointId(className, i) != PointId(className, j)
  {
    if PointId(className, i) == PointId(className, j) {
      var n := |className| + 1;
      assert PointId(className, i)[n..] == NatToString(i);
      assert PointId(className, j)[n..] == NatToString(j);
      NatToStringInjective(i, j);
    }
  }

  /**
   An id determines both the class and the index, as long as class names
   contain no '-' (the source's classes are "A" and "B").
   */
  lemma PointIdInjective(c1: string, i: nat, c2: string, j: nat)
    requires '-' !in c1 && '-' !in c2
    requires PointId(c1, i) == PointId(c2, j)
    ensures c1 == c2 && i == j
  {
    var s := PointId(c1, i);
    assert s[|c1|] == '-' && s[|c2|] == '-';
    assert c1 == s[..|c1|] == c2;
    if i != j {
      PointIdDistinct(c1, i, j);
    }
  }

  /**
   `generateClassData(mean, stdDev, count, className)`, where `draw(i)` is
   the rounded Gaussian draw of iteration `i`. A negative count makes no
   points, as the `for` loop then never runs.
   */
  method GenerateClassData(draw: nat -> int, count: int, className: string) returns (data: seq<Point>)
    ensures |data| == Max(count, 0)
    ensures forall i: nat :: i < |data| ==> data[i] == Point(PointId(className, i), ClampValue(draw(i)), className)
    ensures forall i :: 0 <= i < |data| ==> DomainLo <= data[i].value < DomainHi
    ensures forall i, j :: 0 <= i < j < |data| ==> data[i].id != data[j].id
  {
    data := [];
    var i := 0;
    while i < count
      invariant 0 <= i <= Max(count, 0)
      invariant |data| == i
      invariant forall k: nat :: k < i ==> data[k] == Point(PointId(className, k), ClampValue(draw(k)), className)
    {
      var value := Clamp(DomainLo, DomainHi - 1, draw(i));
      data := data + [Point(PointId(className, i), value, className)];
      i := i + 1;
    }
    forall i, j | 0 <= i < j < |data|
      ensures data[i].id != data[j].id
    {
      PointIdDistinct(className, i, j);
    }
  }
}
