/**
 The module-level state of js/plot.js and the two handlers that change it:
 `updatePlot` (regenerate both classes, lay them out, score them) and the
 drag handler (move the threshold, rescore). The rendered sequence is the
 capped layout, while the scoreboard is computed over `allData`, the full
 uncapped set of generated points.
 */
module Plot {
  import opened Generation
  import opened Layout
  import opened Scoring

  /** The number of points generated per class. */
  const ClassSize: nat := 50

  /** `Math.floor(X_DOMAIN[1] * 0.5)`. */
  const InitialThreshold: int := DomainHi / 2

  class PlotState {
    /** The band scale `xScale` from values to pixels, kept opaque. */
    const xScale: int -> real
    /** `currentThreshold`. */
    var currentThreshold: int
    /** `allData`: both classes, "A" points first. */
    var allData: seq<Point>
    /** The positioned points handed to `renderCubes`. */
    var rendered: seq<Cube>
    /** The metrics last shown on the scoreboard. */
    var metrics: Metrics

    ghost predicate Valid()
      reads this
    {
      && DomainLo <= currentThreshold <= DomainHi
      && |allData| == 2 * ClassSize
      && (forall k :: 0 <= k < |allData| ==> DomainLo <= allData[k].value < DomainHi)
      && (forall k :: 0 <= k < |allData| ==> allData[k].cls == "A" || allData[k].cls == "B")
      && (forall i, j :: 0 <= i < j < |allData| ==> allData[i].id != allData[j].id)
      && rendered == Place(allData, xScale)
      && metrics == Score(allData, currentThreshold)
    }

    /** The initial load: the starting threshold, then a first `updatePlot`. */
    constructor (xScale: int -> real, drawA: nat -> int, drawB: nat -> int)
      ensures Valid()
      ensures this.xScale == xScale
      ensures currentThreshold == InitialThreshold
      ensures forall i: nat :: i < ClassSize ==>
                && allData[i] == Point(PointId("A", i), ClampValue(drawA(i)), "A")
                && allData[ClassSize + i] == Point(PointId("B", i), ClampValue(drawB(i)), "B")
    {
      this.xScale := xScale;
      currentThreshold := InitialThreshold;
      allData := [];
      rendered := [];
      metrics := Metrics(0, 0, 0, 0, 0.0);
      new;
      UpdatePlot(drawA, drawB);
    }

    /**
     `updatePlot()`: fresh draws for both classes, then the layout of all of
     them and the scoreboard at the current threshold.
     */
    method UpdatePlot(drawA: nat -> int, drawB: nat -> int)
      requires DomainLo <= currentThreshold <= DomainHi
      modifies this`allData, this`rendered, this`metrics
      ensures Valid()
      ensures currentThreshold == old(currentThreshold)
      ensures forall i: nat :: i < ClassSize ==>
                && allData[i] == Point(PointId("A", i), ClampValue(drawA(i)), "A")
                && allData[ClassSize + i] == Point(PointId("B", i), ClampValue(drawB(i)), "B")
    {
      var classAData := GenerateClassData(drawA, ClassSize, "A");
      var classBData := GenerateClassData(drawB, ClassSize, "B");
      allData := classAData + classBData;
      BothClassesWellFormed(classAData, classBData);
      assert allData[..ClassSize] == classAData && allData[ClassSize..] == classBData;
      forall i: nat | i < ClassSize
        ensures allData[i] == Point(PointId("A", i), ClampValue(drawA(i)), "A")
        ensures allData[ClassSize + i] == Point(PointId("B", i), ClampValue(drawB(i)), "B")
      {
        assert allData[ClassSize + i] == classBData[i];
      }
      rendered := PositionCubes(allData, xScale);
      UpdateFeedback();
    }

    /** `updateFeedback()`: rescore the full generated set at the current threshold. */
    method UpdateFeedback()
      modifies this`metrics
      ensures metrics == Score(allData, currentThreshold)
    {
      metrics := CalculateMetrics(allData, currentThreshold);
    }

    /**
     The drag handler: the band index under the pointer, clamped into
     `[X_DOMAIN[0], X_DOMAIN[1]]`, becomes the threshold; the points stay.
     */
    method Drag(index: int)
      requires Valid()
      modifies this`currentThreshold, this`metrics
      ensures Valid()
      ensures currentThreshold == Clamp(DomainLo, DomainHi, index)
      ensures DomainLo <= currentThreshold <= DomainHi
      ensures allData == old(allData) && rendered == old(rendered)
    {
      currentThreshold := Clamp(DomainLo, DomainHi, index);
      UpdateFeedback();
    }
  }

  /** The points of a class as `generateClassData` makes them. */
  ghost predicate IsClassData(data: seq<Point>, className: string)
  {
    && (forall i: nat :: i < |data| ==> data[i].id == PointId(className, i) && data[i].cls == className)
    && (forall i :: 0 <= i < |data| ==> DomainLo <= data[i].value < DomainHi)
  }

  /**
   `[...classAData, ...classBData]`: values stay in the domain, every class is
   "A" or "B", and no id repeats across the two classes.
   */
  lemma BothClassesWellFormed(a: seq<Point>, b: seq<Point>)
    requires IsClassData(a, "A") && IsClassData(b, "B")
    ensures forall k :: 0 <= k < |a + b| ==> DomainLo <= (a + b)[k].value < DomainHi
    ensures forall k :: 0 <= k < |a + b| ==> (a + b)[k].cls == "A" || (a + b)[k].cls == "B"
    ensures forall i, j :: 0 <= i < j < |a + b| ==> (a + b)[i].id != (a + b)[j].id
  {
    var all := a + b;
    forall i, j | 0 <= i < j < |all|
      ensures all[i].id != all[j].id
    {
      if j < |a| {
        PointIdDistinct("A", i, j);
      } else if |a| <= i {
        PointIdDistinct("B", i - |a|, j - |a|);
      } else if all[i].id == all[j].id {
        PointIdInjective("A", i, "B", j - |a|);
      }
    }
  }

  /**
   The scoreboard counts every generated point, including those too high in
   their stack to be drawn: whenever some value has more than
   `MAX_STACK_CAP` points, it scores more points than are rendered.
   */
  lemma ScoreboardCountsHiddenPoints(s: PlotState, v: int)
    requires s.Valid()
    requires CountValue(s.allData, v) > MaxStackCap
    ensures s.metrics.tp + s.metrics.fp + s.metrics.tn + s.metrics.fn == |s.allData|
    ensures |s.rendered| < |s.allData|
  {
    TallyPartition(s.allData, s.currentThreshold);
    PlaceDropsOverflow(s.allData, s.xScale, v);
  }

  /** The number of drawn cubes that `updateFeedback` marks misclassified. */
  function CountMarkedCubes(cubes: seq<Cube>, threshold: int): (n: nat)
    ensures n <= |cubes|
  {
    if cubes == [] then 0
    else CountMarkedCubes(cubes[..|cubes| - 1], threshold) + (if Misclassified(cubes[|cubes| - 1].point, threshold) then 1 else 0)
  }

  /**
   The marks are set on the drawn cubes only: the marked cubes of the layout
   are at most the misclassified points of the input, and exactly as many
   when no value has more than `MAX_STACK_CAP` points.
   */
  lemma {:induction false} MarkedCubesOfLayout(data: seq<Point>, xScale: int -> real, threshold: int)
    ensures CountMarkedCubes(Place(data, xScale), threshold) <= CountMisclassified(data, threshold)
    ensures (forall v :: CountValue(data, v) <= MaxStackCap) ==>
              CountMarkedCubes(Place(data, xScale), threshold) == CountMisclassified(data, threshold)
    decreases |data|
  {
    if data != [] {
      var init, d := data[..|data| - 1], data[|data| - 1];
      var before := Place(init, xScale);
      PlaceSnoc(data, xScale);
      MarkedCubesOfLayout(init, xScale, threshold);
      var y := CountValue(init, d.value);
      if y < MaxStackCap {
        var after := before + [Cube(d, xScale(d.value), y)];
        assert after[..|after| - 1] == before;
      } else {
        assert Place(data, xScale) == before;
      }
      if forall v :: CountValue(data, v) <= MaxStackCap {
        forall v
          ensures CountValue(init, v) <= MaxStackCap
        {
          assert CountValue(init, v) <= CountValue(data, v);
        }
        assert y < CountValue(data, d.value);
      }
    }
  }

  /**
   On a valid state the scoreboard's errors are the points of `allData` the
   misclassified test selects, and its accuracy is the share of the others.
   The cubes `updateFeedback` actually marks are the drawn ones: never more
   than `fp + fn`, and exactly `fp + fn` when no stack overflows.
   */
  lemma ScoreboardMatchesMisclassified(s: PlotState)
    requires s.Valid()
    ensures s.metrics.fp + s.metrics.fn == CountMisclassified(s.allData, s.currentThreshold)
    ensures s.metrics.accuracy == Accuracy(|s.allData| - CountMisclassified(s.allData, s.currentThreshold), |s.allData|)
    ensures CountMarkedCubes(s.rendered, s.currentThreshold) <= s.metrics.fp + s.metrics.fn
    ensures (forall v :: CountValue(s.allData, v) <= MaxStackCap) ==>
              CountMarkedCubes(s.rendered, s.currentThreshold) == s.metrics.fp + s.metrics.fn
  {
    ErrorsAreMisclassified(s.allData, s.currentThreshold);
    MarkedCubesOfLayout(s.allData, s.xScale, s.currentThreshold);
  }

  /**
   The gap is real: thirteen "A" points at 20 with the threshold at 15 give
   `fp + fn = 13`, while only twelve of them are drawn and can be marked.
   */
  lemma MarksMissOverflowingPoints(xScale: int -> real)
    ensures var data := seq(13, i requires 0 <= i => Point("A-0", 20, "A"));
            && Score(data, 15).fp + Score(data, 15).fn == 13
            && CountMarkedCubes(Place(data, xScale), 15) <= 12
  {
    var data := seq(13, i requires 0 <= i => Point("A-0", 20, "A"));
    CountOfConstant(data, 20);
    PlaceSlotsAt(data, xScale, 20);
    PlaceIsSubsequence(data, xScale);
    SlotsAtAllSameValue(Place(data, xScale), 20);
    ErrorsAreMisclassified(data, 15);
    AllMisclassified(data, 15);
  }

  /** In a sequence of points that all have value `v`, all of them count. */
  lemma {:induction false} CountOfConstant(data: seq<Point>, v: int)
    requires forall k :: 0 <= k < |data| ==> data[k].value == v
    ensures CountValue(data, v) == |data|
    decreases |data|
  {
    if data != [] {
      CountOfConstant(data[..|data| - 1], v);
    }
  }

  /** A layout whose cubes all sit at `v` has as many slots at `v` as cubes. */
  lemma {:induction false} SlotsAtAllSameValue(cubes: seq<Cube>, v: int)
    requires forall k :: 0 <= k < |cubes| ==> cubes[k].point.value == v
    ensures |SlotsAt(cubes, v)| == |cubes|
    decreases |cubes|
  {
    if cubes != [] {
      SlotsAtAllSameValue(cubes[..|cubes| - 1], v);
    }
  }

  /** "A" points at or above the threshold are all misclassified. */
  lemma {:induction false} AllMisclassified(data: seq<Point>, threshold: int)
    requires forall k :: 0 <= k < |data| ==> data[k].cls == "A" && data[k].value >= threshold
    ensures CountMisclassified(data, threshold) == |data|
    decreases |data|
  {
    if data != [] {
      AllMisclassified(data[..|data| - 1], threshold);
    }
  }
}
