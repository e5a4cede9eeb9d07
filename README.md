# Threshold sorter and FizzBuzz, modelled in Dafny

This project models the engine of a browser teaching demo, `js/plot.js`. The
demo generates two classes of integer-valued points, "A" and "B", on the axis
0..29. It draws them as cubes stacked by value, at most 12 high. A draggable
threshold predicts "A" below it and "B" from it on, and a scoreboard shows the
confusion matrix and the accuracy. The project also models the small console
game in `temporary_trash/fizzbuzz.py`.

Modules, one per concern of the source:

- `Decimal` (decimal.dfy): decimal numerals of natural numbers. The demo uses
  them in point ids (`${className}-${i}`), and FizzBuzz uses them in `print(i)`.
  Reading a numeral back gives the number, so the rendering is injective.
- `Generation` (generation.dfy): the `Point` record, the clamps, and point ids
  (`PointId`, the template `${className}-${i}` of js/plot.js:53). It also has
  `generateClassData` as a loop over an abstract source of rounded draws.
- `Layout` (layout.dfy): `positionCubes`. A loop keeps the per-value counter
  dictionary as a `map`, then a second loop filters by the stack cap. The
  result is specified by `Place`, and the lemmas state what `Place` guarantees.
- `Scoring` (scoring.dfy): `calculateMetrics` as a counting loop. Its
  specification is `Score`, the metrics of js/plot.js:129-141 as a function.
  `Misclassified` is the test of js/plot.js:119 and js/plot.js:176: an "A" at or
  above the threshold, or a "B" below it. Lemmas cover the partition of the
  points, the accuracy bounds, and the link between `Score` and
  `Misclassified` over the same points.
- `Plot` (plot.dfy): the page state (`currentThreshold`, `allData`, the
  rendered layout, the scoreboard) as a class. Its methods are `updatePlot`,
  `updateFeedback` and the drag handler. The invariant `Valid()` says the
  scoreboard is always computed over the full uncapped `allData`.
- `FizzBuzz` (fizzbuzz.dfy): the per-number line `Line` (the `if`/`elif`
  chain of temporary_trash/fizzbuzz.py:9-16), one round `1..n` as a loop, and
  the input loop over a sequence of inputs.

## Model

| member | source | states |
|---|---|---|
| `Decimal.NatToString` | js/plot.js:53 | the numeral of `i` is non-empty, all digits, without a leading zero, and one digit long exactly for `i < 10` |
| `Decimal.DigitsValueOfNatToString` | js/plot.js:53 | reading the numeral of `n` back as digits gives `n` |
| `Decimal.NatToStringInjective` | js/plot.js:53 | distinct indices have distinct numerals |
| `Generation.Clamp` | js/plot.js:52 | `Math.max(lo, Math.min(hi, v))` lies in `[lo, hi]`, is `v` when `v` is in range, `lo` below it and `hi` above it |
| `Generation.ClampValue` | js/plot.js:52 | a generated value always lies in `[X_DOMAIN[0], X_DOMAIN[1]-1]` = `[0, 29]`, and equals the draw exactly when the draw is already there |
| `Generation.PointIdDistinct` | js/plot.js:53 | within one class, different indices give different ids |
| `Generation.PointIdInjective` | js/plot.js:53 | for class names without '-', an id determines both the class and the index |
| `Generation.GenerateClassData` | js/plot.js:44-56 | exactly `count` points (none for a negative count); point `i` has id `"<class>-<i>"`, the class label and the clamped draw `i`; every value is in `[0, 29]`; ids are pairwise distinct |
| `Layout.PlaceSnoc` | js/plot.js:59-73 | one more input point adds at most that point to the layout, at its running-count slot, and only when that slot is below the cap |
| `Layout.StackAt` | js/plot.js:60-68 | before filtering, cube `k` is input point `k` unchanged, with `x = xScale(value)` and `y` = the number of earlier points with the same value |
| `Layout.PlaceBelowCap` | js/plot.js:71-72 | every rendered cube has `y < MAX_STACK_CAP` |
| `Layout.PlaceSlotsAt` | js/plot.js:60-72 | for every value, the rendered slots at that value are exactly `0, 1, ..., min(k, 12) - 1` in order, where `k` is the number of input points with that value |
| `Layout.PlaceIsSubsequence` | js/plot.js:61-72 | the layout is the input points at strictly increasing positions, with no field changed and only `x` and `y` added; it is never longer than the input |
| `Layout.PlaceDropsOverflow` | js/plot.js:71-72 | for any value, the layout is shorter than the input by at least that value's points above the cap |
| `Layout.PositionCubes` | js/plot.js:59-73 | the counter-dictionary loop and the filter compute `Place(data)`; the result is no longer than the input, below the cap, with `x = xScale(value)` and gap-free slots per value |
| `Scoring.TallyPartition` | js/plot.js:130-139 | `tn + fp` is the number of class-"A" points, `tp + fn` the number of the others, and `tp + fp + tn + fn` the number of points |
| `Scoring.AccuracyBounds` | js/plot.js:139-140 | accuracy is 0 on an empty set, otherwise `(tp+tn)/total*100` lies in `[0, 100]` and is 100 exactly when every point is correct |
| `Scoring.ErrorsAreMisclassified` | js/plot.js:119-140 | on points of classes "A" and "B", `fp + fn` equals the number of those same points that the misclassified test selects, and accuracy is the share of the others |
| `Scoring.ThresholdAtDomainEnds` | js/plot.js:129-138 | for values in `[0, 29]`, threshold 0 predicts every point "B" and threshold 30 predicts every point "A" |
| `Scoring.CalculateMetrics` | js/plot.js:129-142 | the counting loop computes `Score(data, threshold)`; its four counts sum to the number of points, split by class as above, and accuracy is in `[0, 100]` and 0 for no points |
| `Plot.BothClassesWellFormed` | js/plot.js:181-183 | joining the generated "A" and "B" classes keeps every value in `[0, 29]`, every class "A" or "B", and every id distinct, across the two classes too |
| `Plot.PlotState.constructor` | js/plot.js:40-41 | the initial load sets the threshold to `floor(30 * 0.5) = 15`, then runs the first `updatePlot()` of js/plot.js:231, leaving a valid state with `allData` given point by point |
| `Plot.PlotState.UpdatePlot` | js/plot.js:180-189 | `allData` becomes 50 generated "A" points followed by 50 "B" points with distinct ids; the rendered sequence is their capped layout and the scoreboard is computed over all 100 |
| `Plot.PlotState.UpdateFeedback` | js/plot.js:172-177 | the scoreboard is recomputed from the uncapped `allData` at the current threshold |
| `Plot.PlotState.Drag` | js/plot.js:155-163 | the new threshold is the band index clamped into `[0, 30]`; points and layout are unchanged, and the scoreboard is rescored |
| `Plot.ScoreboardCountsHiddenPoints` | js/plot.js:183-185 | when a value has more than 12 points, the scoreboard counts every generated point while fewer are rendered |
| `Plot.MarkedCubesOfLayout` | js/plot.js:176 | the drawn cubes that the misclassified test marks are at most the misclassified points of the input, and exactly as many when no value has more than 12 points |
| `Plot.ScoreboardMatchesMisclassified` | js/plot.js:172-186 | in every valid state, `fp + fn` is the misclassified test applied to all of `allData`; the marked drawn cubes number at most `fp + fn`, and exactly `fp + fn` when no stack overflows |
| `Plot.MarksMissOverflowingPoints` | js/plot.js:174-186 | thirteen "A" points at 20 with threshold 15 give `fp + fn = 13`, while at most 12 drawn cubes are marked |
| `FizzBuzz.LineCases` | temporary_trash/fizzbuzz.py:9-16 | the line is "FizzBuzz" iff `i` is divisible by 3 and 5, "Fizz" iff by 3 only, "Buzz" iff by 5 only, and a numeral iff by neither, in which case it reads back as `i` |
| `FizzBuzz.FizzBuzzIffMultipleOf15` | temporary_trash/fizzbuzz.py:9-10 | "FizzBuzz" is printed exactly for multiples of 15 |
| `FizzBuzz.PlayRound` | temporary_trash/fizzbuzz.py:8-16 | a round prints exactly `n` lines for `n >= 1`, the line for `k+1` at position `k`, and nothing for `n < 1` |
| `FizzBuzz.SessionOutputAppend` | temporary_trash/fizzbuzz.py:3-16 | before the first 0, the output of a run of inputs is the output of its parts, one after the other |
| `FizzBuzz.SessionStopsAtZero` | temporary_trash/fizzbuzz.py:6-7 | entering 0 ends the game: nothing typed after it produces output |
| `FizzBuzz.Play` | temporary_trash/fizzbuzz.py:1-18 | the input loop prints a round per nonzero number and the error message per rejected input, and stops at the first 0 |

## Left out

- The Box-Muller draw (js/plot.js:47-51) uses floating point and `Math.random`. `GenerateClassData` instead receives the already-rounded draw of iteration `i` as `draw(i)`. The means and spreads are only inputs to that draw, so they are not modelled.
- d3 scales and pixel geometry (js/plot.js:25-33, 80, 114, 156-158). The `x` of a cube is `xScale(value)` for an opaque `xScale` parameter. The drag handler receives the already-rounded band index.
- `Scoring.CalculateMetrics`: accuracy is an exact real. The source formats it with `toFixed(1)` as a string when there are points, and gives the number 0 otherwise.
- DOM, SVG rendering, transitions, the scoreboard text and the slider listeners (js/plot.js:76-127, 144-150, 192-228) are presentation. The misclassified marking of drawn cubes is modelled as the count `CountMarkedCubes` over the rendered layout; the CSS class itself is not.
- js/plot.js has no threshold search; none is modelled.
- `FizzBuzz.Play`: console I/O is replaced by a sequence of inputs. Each input is either a number that `int()` accepts or text it rejects. The input prompt text is not modelled. When the inputs run out, the game ends; Python would raise an uncaught `EOFError` there.
- temporary_trash/test.py is a single call to an external generative-AI service and is not part of this model.
