/**
 The scoreboard of js/plot.js (`calculateMetrics`): a confusion matrix of the
 threshold classifier over a set of points, and its accuracy. Class "A" is
 the negative class; every other class is scored as positive. Accuracy is
 an exact rational number here; the one-decimal string formatting of the
 source is not modelled.
 */
module Scoring {
  import opened Generation

  /** The four cells of the confusion matrix. */
  datatype Cell = TruePositive | FalsePositive | TrueNegative | FalseNegative

  /** `{ tp, fp, tn, fn, accuracy }`. */
  datatype Metrics = Metrics(tp: nat, fp: nat, tn: nat, fn: nat, accuracy: real)

  /** The predicted class: "A" strictly below the threshold, "B" from it on. */
  function Predict(value: int, threshold: int): string
  {
    if value < threshold then "A" else "B"
  }

  /** The cell a point is counted in. */
  function CellOf(p: Point, threshold: int): Cell
  {
    var predicted := Predict(p.value, threshold);
    if p.cls == "A" then
      (if predicted == "A" then TrueNegative else FalsePositive)
    else
      (if predicted == "B" then TruePositive else FalseNegative)
  }

  /** The number of points of `data` counted in cell `c`. */
  function Tally(data: seq<Point>, threshold: int, c: Cell): (n: nat)
    ensures n <= |data|
  {
    if data == [] then 0
    else Tally(data[..|data| - 1], threshold, c) + (if CellOf(data[|data| - 1], threshold) == c then 1 else 0)
  }

  /** The number of points of `data` whose class is `name`. */
  function CountClass(data: seq<Point>, name: string): (n: nat)
    ensures n <= |data|
  {
    if data == [] then 0
    else CountClass(data[..|data| - 1], name) + (if data[|data| - 1].cls == name then 1 else 0)
  }

  /** `total > 0 ? (correct / total * 100) : 0`. */
  function Accuracy(correct: nat, total: nat): real
  {
    if total > 0 then correct as real / total as real * 100.0 else 0.0
  }

  /** The metrics `calculateMetrics(data, threshold)` returns. */
  function Score(data: seq<Point>, threshold: int): Metrics
  {
    var tp := Tally(data, threshold, TruePositive);
    var tn := Tally(data, threshold, TrueNegative);
    Metrics(tp, Tally(data, threshold, FalsePositive), tn, Tally(data, threshold, FalseNegative), Accuracy(tp + tn, |data|))
  }

  /**
   The class test used to mark a drawn point as misclassified: an "A" at or
   above the threshold, or a "B" below it.
   */
  predicate Misclassified(p: Point, threshold: int)
  {
    (p.cls == "A" && p.value >= threshold) || (p.cls == "B" && p.value < threshold)
  }

  /** The number of misclassified points of `data`. */
  function CountMisclassified(data: seq<Point>, threshold: int): (n: nat)
    ensures n <= |data|
  {
    if data == [] then 0
    else CountMisclassified(data[..|data| - 1], threshold) + (if Misclassified(data[|data| - 1], threshold) then 1 else 0)
  }

  /** Every point falls in exactly one cell; "A" points in tn or fp, all others in tp or fn. */
  lemma {:induction false} TallyPartition(data: seq<Point>, threshold: int)
    ensures Tally(data, threshold, TrueNegative) + Tally(data, threshold, FalsePositive) == CountClass(data, "A")
    ensures Tally(data, threshold, TruePositive) + Tally(data, threshold, FalseNegative) == |data| - CountClass(data, "A")
    ensures Tally(data, threshold, TruePositive) + Tally(data, threshold, FalsePositive)
          + Tally(data, threshold, TrueNegative) + Tally(data, threshold, FalseNegative) == |data|
    decreases |data|
  {
    if data != [] {
      TallyPartition(data[..|data| - 1], threshold);
    }
  }

  /** Accuracy is 0 on an empty set and otherwise a percentage between 0 and 100. */
  lemma AccuracyBounds(correct: nat, total: nat)
    requires correct <= total
    ensures 0.0 <= Accuracy(correct, total) <= 100.0
    ensures total == 0 ==> Accuracy(correct, total) == 0.0
    ensures total > 0 ==> (Accuracy(correct, total) == 100.0 <==> correct == total)
  {
    if total > 0 {
      var q := correct as real / total as real;
      assert q * total as real == correct as real;
      assert q <= 1.0;
      assert q == 1.0 <==> correct == total;
    }
  }

  /**
   On points whose classes are "A" and "B", the scoreboard's errors are
   exactly the points marked misclassified, and accuracy is the share of
   the others.
   */
  lemma {:induction false} ErrorsAreMisclassified(data: seq<Point>, threshold: int)
    requires forall k :: 0 <= k < |data| ==> data[k].cls == "A" || data[k].cls == "B"
    ensures Tally(data, threshold, FalsePositive) + Tally(data, threshold, FalseNegative) == CountMisclassified(data, threshold)
    ensures Score(data, threshold).accuracy == Accuracy(|data| - CountMisclassified(data, threshold), |data|)
    decreases |data|
  {
    if data != [] {
      ErrorsAreMisclassified(data[..|data| - 1], threshold);
    }
    TallyPartition(data, threshold);
  }

  /**
   At the ends of the threshold range every point of the domain is predicted
   alike: at threshold 0 all are "B", at threshold 30 all are "A".
   */
  lemma {:induction false} ThresholdAtDomainEnds(data: seq<Point>)
    requires forall k :: 0 <= k < |data| ==> DomainLo <= data[k].value < DomainHi
    ensures Tally(data, DomainLo, TruePositive) + Tally(data, DomainLo, FalsePositive) == |data|
    ensures Tally(data, DomainHi, TrueNegative) + Tally(data, DomainHi, FalseNegative) == |data|
    decreases |data|
  {
    if data != [] {
      ThresholdAtDomainEnds(data[..|data| - 1]);
    }
  }

  /** `calculateMetrics(data, threshold)`: one pass incrementing the four counters. */
  method CalculateMetrics(data: seq<Point>, threshold: int) returns (m: Metrics)
    ensures m == Score(data, threshold)
    ensures m.tp + m.fp + m.tn + m.fn == |data|
    ensures m.tn + m.fp == CountClass(data, "A")
    ensures m.tp + m.fn == |data| - CountClass(data, "A")
    ensures 0.0 <= m.accuracy <= 100.0
    ensures |data| == 0 ==> m.accuracy == 0.0
  {
    var tp, fp, tn, fn := 0, 0, 0, 0;
    for i := 0 to |data|
      invariant tp == Tally(data[..i], threshold, TruePositive)
      invariant fp == Tally(data[..i], threshold, FalsePositive)
      invariant tn == Tally(data[..i], threshold, TrueNegative)
      invariant fn == Tally(data[..i], threshold, FalseNegative)
    {
      var d := data[i];
      var predictedClass := if d.value < threshold then "A" else "B";
      if d.cls == "A" {
        if predictedClass == "A" { tn := tn + 1; } else { fp := fp + 1; }
      } else {
        if predictedClass == "B" { tp := tp + 1; } else { fn := fn + 1; }
      }
      assert data[..i + 1][..i] == data[..i];
    }
    assert data[..|data|] == data;
    var total := |data|;
    var accuracy := if total > 0 then (tp + tn) as real / total as real * 100.0 else 0.0;
    m := Metrics(tp, fp, tn, fn, accuracy);
    TallyPartition(data, threshold);
    AccuracyBounds(tp + tn, total);
  }
}
