/**
 The stack layout of js/plot.js (`positionCubes`): every point gets a stack
 slot `y`, the number of points with the same value that came before it, and
 the points whose slot reaches `MAX_STACK_CAP` are dropped from the rendered
 sequence. The pixel coordinate `x = xScale(value)` comes from a d3 band scale
 and is kept opaque: the scale is a parameter.
 */
module Layout {
  import opened Generation

  /** `MAX_STACK_CAP`: the tallest stack that is drawn. */
  const MaxStackCap: nat := 12

  /** A positioned point `{ ...d, x, y }`: the point itself, unchanged, plus `x` and `y`. */
  datatype Cube = Cube(point: Point, x: real, y: nat)

  /** The number of points of `s` whose value is `v`. */
  function CountValue(s: seq<Point>, v: int): (n: nat)
    ensures n <= |s|
  {
    if s == [] then 0
    else CountValue(s[..|s| - 1], v) + (if s[|s| - 1].value == v then 1 else 0)
  }

  /** The mapped sequence before filtering: point by point, in input order. */
  function Stack(data: seq<Point>, xScale: int -> real): seq<Cube>
  {
    if data == [] then []
    else
      var d := data[|data| - 1];
      Stack(data[..|data| - 1], xScale) + [Cube(d, xScale(d.value), CountValue(data[..|data| - 1], d.value))]
  }

  /** The filter predicate `d => d.y < MAX_STACK_CAP`. */
  predicate UnderCap(c: Cube)
  {
    c.y < MaxStackCap
  }

  /** `positioned.filter(d => d.y < MAX_STACK_CAP)`. */
  function KeepUnderCap(cubes: seq<Cube>): seq<Cube>
  {
    if cubes == [] then []
    else KeepUnderCap(cubes[..|cubes| - 1]) + (if UnderCap(cubes[|cubes| - 1]) then [cubes[|cubes| - 1]] else [])
  }

  /** What `positionCubes(data)` returns. */
  function Place(data: seq<Point>, xScale: int -> real): seq<Cube>
  {
    KeepUnderCap(Stack(data, xScale))
  }

  /** The input positions whose point survives the cap, in increasing order. */
  function KeptIndices(data: seq<Point>): seq<nat>
  {
    if data == [] then []
    else
      var init := data[..|data| - 1];
      KeptIndices(init) + (if CountValue(init, data[|data| - 1].value) < MaxStackCap then [|init|] else [])
  }

  /** The slots, in order, of the cubes whose value is `v`. */
  function SlotsAt(cubes: seq<Cube>, v: int): seq<nat>
  {
    if cubes == [] then []
    else SlotsAt(cubes[..|cubes| - 1], v) + (if cubes[|cubes| - 1].point.value == v then [cubes[|cubes| - 1].y] else [])
  }

  /** The slots 0, 1, ..., n - 1. */
  function Range(n: nat): (r: seq<nat>)
    ensures |r| == n
  {
    seq(n, i requires 0 <= i < n => i)
  }

  /** Adding one point at the end adds at most that point to the layout, with its slot. */
  lemma PlaceSnoc(data: seq<Point>, xScale: int -> real)
    requires data != []
    ensures var init, d := data[..|data| - 1], data[|data| - 1];
            var y := CountValue(init, d.value);
            Place(data, xScale) == Place(init, xScale) + (if y < MaxStackCap then [Cube(d, xScale(d.value), y)] else [])
  {
    var init, d := data[..|data| - 1], data[|data| - 1];
    var s := Stack(data, xScale);
    assert s[..|s| - 1] == Stack(init, xScale);
  }

  /**
   Before filtering, the `k`-th cube is the `k`-th input point, placed at its
   value's `x`, with slot `y` equal to the number of earlier points with the same value.
   */
  lemma {:induction false} StackAt(data: seq<Point>, xScale: int -> real, k: nat)
    requires k < |data|
    ensures |Stack(data, xScale)| == |data|
    ensures Stack(data, xScale)[k] == Cube(data[k], xScale(data[k].value), CountValue(data[..k], data[k].value))
    decreases |data|
  {
    var init := data[..|data| - 1];
    if k < |init| {
      StackAt(init, xScale, k);
      assert init[..k] == data[..k];
    } else {
      if init != [] {
        StackAt(init, xScale, 0);
      }
    }
  }

  /** Every rendered cube sits below the cap. */
  lemma {:induction false} PlaceBelowCap(data: seq<Point>, xScale: int -> real)
    ensures forall c :: c in Place(data, xScale) ==> c.y < MaxStackCap
    decreases |data|
  {
    if data != [] {
      PlaceSnoc(data, xScale);
      PlaceBelowCap(data[..|data| - 1], xScale);
    }
  }

  /**
   For every value `v`, the rendered cubes at `v` have the slots 0, 1, ...,
   min(k, MAX_STACK_CAP) - 1 in this order, where `k` is the number of input
   points at `v`: no gap, no duplicate, and nothing above the cap.
   */
  lemma {:induction false} PlaceSlotsAt(data: seq<Point>, xScale: int -> real, v: int)
    ensures SlotsAt(Place(data, xScale), v) == Range(Min(CountValue(data, v), MaxStackCap))
    decreases |data|
  {
    if data != [] {
      var init, d := data[..|data| - 1], data[|data| - 1];
      var y := CountValue(init, d.value);
      var before := Place(init, xScale);
      PlaceSnoc(data, xScale);
      PlaceSlotsAt(init, xScale, v);
      if y < MaxStackCap {
        var after := before + [Cube(d, xScale(d.value), y)];
        assert after[..|after| - 1] == before;
        if d.value == v {
          assert Range(y) + [y] == Range(y + 1);
        }
      } else {
        assert Place(data, xScale) == before;
      }
    }
  }

  /**
   The layout is a subsequence of the input: its `j`-th cube is the input
   point at position `KeptIndices(data)[j]`, those positions increase, and the
   cube carries that point's stack slot and `x`. In particular the layout is
   never longer than the input.
   */
  lemma {:induction false} PlaceIsSubsequence(data: seq<Point>, xScale: int -> real)
    ensures var idx, r := KeptIndices(data), Place(data, xScale);
            && |idx| == |r| <= |data|
            && (forall j :: 0 <= j < |idx| ==> idx[j] < |data|)
            && (forall j1, j2 :: 0 <= j1 < j2 < |idx| ==> idx[j1] < idx[j2])
            && (forall j :: 0 <= j < |r| ==>
                  r[j] == Cube(data[idx[j]], xScale(data[idx[j]].value), CountValue(data[..idx[j]], data[idx[j]].value)))
    decreases |data|
  {
    if data != [] {
      var init, d := data[..|data| - 1], data[|data| - 1];
      PlaceSnoc(data, xScale);
      PlaceIsSubsequence(init, xScale);
      var idx, r := KeptIndices(data), Place(data, xScale);
      forall j | 0 <= j < |r| && j < |KeptIndices(init)|
        ensures r[j] == Cube(data[idx[j]], xScale(data[idx[j]].value), CountValue(data[..idx[j]], data[idx[j]].value))
      {
        assert data[..idx[j]] == init[..idx[j]];
      }
      assert init == data[..|init|];
    }
  }

  /**
   Points beyond the cap are really dropped: for any value `v`, the layout is
   shorter than the input by at least the number of points at `v` that do
   not fit under the cap.
   */
  lemma {:induction false} PlaceDropsOverflow(data: seq<Point>, xScale: int -> real, v: int)
    ensures |Place(data, xScale)| + (CountValue(data, v) - Min(CountValue(data, v), MaxStackCap)) <= |data|
    decreases |data|
  {
    if data != [] {
      PlaceSnoc(data, xScale);
      PlaceDropsOverflow(data[..|data| - 1], xScale, v);
    }
  }

  /**
   `positionCubes(data)`: one pass that keeps a per-value running count in
   the dictionary `valueCounts` and maps every point to a cube, then the
   filter that drops cubes at or above the cap.
   */
  method PositionCubes(data: seq<Point>, xScale: int -> real) returns (r: seq<Cube>)
    ensures r == Place(data, xScale)
    ensures |r| <= |data|
    ensures forall j :: 0 <= j < |r| ==> r[j].y < MaxStackCap && r[j].x == xScale(r[j].point.value)
    ensures forall v :: SlotsAt(r, v) == Range(Min(CountValue(data, v), MaxStackCap))
  {
    var valueCounts: map<int, nat> := map[];
    var positioned: seq<Cube> := [];
    var i := 0;
    while i < |data|
      invariant 0 <= i <= |data|
      invariant positioned == Stack(data[..i], xScale)
      invariant forall v :: v in valueCounts ==> valueCounts[v] == CountValue(data[..i], v)
      invariant forall v :: v !in valueCounts ==> CountValue(data[..i], v) == 0
    {
      var d := data[i];
      if d.value !in valueCounts || valueCounts[d.value] == 0 {
        valueCounts := valueCounts[d.value := 0];
      }
      var stackIndex := valueCounts[d.value];
      valueCounts := valueCounts[d.value := stackIndex + 1];
      positioned := positioned + [Cube(d, xScale(d.value), stackIndex)];
      assert data[..i + 1][..i] == data[..i];
      i := i + 1;
    }
    assert data[..i] == data;

    r := [];
    var j := 0;
    while j < |positioned|
      invariant 0 <= j <= |positioned|
      invariant r == KeepUnderCap(positioned[..j])
    {
      if positioned[j].y < MaxStackCap {
        r := r + [positioned[j]];
      }
      assert positioned[..j + 1][..j] == positioned[..j];
      j := j + 1;
    }
    assert positioned[..j] == positioned;

    PlaceIsSubsequence(data, xScale);
    PlaceBelowCap(data, xScale);
    forall v
      ensures SlotsAt(r, v) == Range(Min(CountValue(data, v), MaxStackCap))
    {
      PlaceSlotsAt(data, xScale, v);
    }
    forall j | 0 <= j < |r|
      ensures r[j].y < MaxStackCap
    {
      assert r[j] in r;
    }
  }
}
