# Privacy attack explorer: fixture arithmetic and stage controller

A Dafny model of the two pieces of logic in the privacy-attack explorer, an
educational simulator of membership-inference attacks.

- **The fixture generator** (`src/data/generate_synthetic_data.py`). From
  per-record confidences and training-set membership flags, it derives:
  - the stage-1 confidences: a base of 70 for members and 65 for the rest,
    plus noise, rounded and clamped to [50, 95];
  - the age column: truncated and clipped to [18, 90];
  - the stage-2 histogram: ten five-point bins from 50;
  - the stage-2 optimal attack threshold: the first threshold in 50..95 with
    strictly best precision;
  - the stage-3 histogram: twenty-one bins from 0;
  - the stage-3 threshold table;
  - the privacy-utility trade-off points.

  Model training and random draws only produce these inputs, so here they are
  parameters: a sequence of `Record(confidence, wasInTraining)`, the noise
  draws and the per-epsilon mean differences.
- **The stage controller** (`src/pages/Index.tsx`). This is the page's one
  piece of state, `currentStage`. It starts at 1. The page binds each stage
  component's completion callback to that component's number `s`, so that
  the callback sets the stage to `s + 1`. The page shows only the
  description and the component whose number equals the current stage.

  The model is this binding, for components that call back. In the code
  only stage four does (`src/components/stages/StageFour.tsx:25-27`, after a
  2-second timer). `StageOne`, `StageTwo` and `StageThree` take no props
  (line 7 of each file) and never call `onComplete`. So, as written, the
  page never leaves stage 1 (`StageController.StuckAtStageOne`). The runs
  through stages 1 to 5 (`StageController.RunFrom`,
  `StageController.FullRun`) describe the controller's own logic.

Modules: `Records` (records, the three list filters, stage 2's record list),
`Labels` (the `"lo-hi"` bin labels), `StageOne` (rounding, clamping, stage-1
loop, age column), `Histogram`, `Thresholds`, `Tradeoff`, `StageController`.

Three behaviours of the code to note:

- The bins do not always count every record. Stage 2 counts only confidences
  in [50, 100), so a confidence of exactly 100 falls in no bin
  (`Histogram.HundredOnlyInStageThree`). Stage 3 counts [0, 105).
- Stage-1 noise is normal noise around fixed bases of 70 and 65. It is not a
  uniform term around a mean.
- The stage controller does not clamp. After stage 4 the stage is 5, and
  nothing is shown.

Python's `round` rounds ties to even, and the model keeps this: noise of exactly
a half-integer makes the member/non-member gap 4 or 6 instead of 5
(`StageOne.MemberOffset`, `StageOne.MemberOffsetAtHalf`).

## Model

| member | source | states |
|---|---|---|
| `Records.InRangeSpec` | src/data/generate_synthetic_data.py:166 | the range filter keeps exactly the records whose confidence is in [lo, hi), each as often as it occurs |
| `Records.AtLeastSpec` | src/data/generate_synthetic_data.py:183 | the predicted-positive filter keeps exactly the records with confidence at least the threshold, with multiplicities |
| `Records.MembersSpec` | src/data/generate_synthetic_data.py:167 | the training filter keeps exactly the members, with multiplicities |
| `Records.InRangeSplit` | src/data/generate_synthetic_data.py:165-166 | splitting an interval at an inner point splits the count of records in it into two parts that add up |
| `Records.InRangeEmpty` | src/data/generate_synthetic_data.py:166 | an interval with hi <= lo contains no record |
| `Records.AtLeastAntitone` | src/data/generate_synthetic_data.py:311-312 | raising the threshold never increases the number of predicted positives |
| `Records.BuildRecords` | src/data/generate_synthetic_data.py:144-161 | record i carries the i-th confidence and is a member exactly when i is among the training indices |
| `Labels.ParseNatToString` | src/data/generate_synthetic_data.py:170 | reading the decimal text of a bound back gives the bound |
| `Labels.NatToStringInjective` | src/data/generate_synthetic_data.py:170 | distinct numbers print differently |
| `Labels.RangeLabelParts` | src/data/generate_synthetic_data.py:170 | the text before the first '-' of a label is the lower bound's text, the text after it the upper bound's, and both parse back |
| `Labels.RangeLabelInjective` | src/data/generate_synthetic_data.py:299 | two bins share a label only if they have the same bounds |
| `StageOne.Clamp` | src/data/generate_synthetic_data.py:119 | the result is in [lo, hi], equals v inside, lo below and hi above |
| `StageOne.RoundHalfEven` | src/data/generate_synthetic_data.py:119 | the result is within 1/2 of x, at distance exactly 1/2 only at ties, and even at ties |
| `StageOne.StageOneConfidence` | src/data/generate_synthetic_data.py:116-119 | every stage-1 confidence is in [50, 95] and equals the rounded value when that is already in range |
| `StageOne.MemberOffset` | src/data/generate_synthetic_data.py:117-119 | for the same noise, a member's pre-clamp value is 5 above a non-member's off ties, and 4 or 6 above at ties |
| `StageOne.MemberOffsetAtHalf` | src/data/generate_synthetic_data.py:117-119 | noise 0.5 gives 70 for a member and 66 for a non-member |
| `StageOne.MemberNotBelow` | src/data/generate_synthetic_data.py:117-119 | for the same noise, a member's clamped confidence is never below a non-member's |
| `StageOne.AssignConfidences` | src/data/generate_synthetic_data.py:116-119 | writes each row's confidence in place, from its flag and its noise draw; all of them end up in [50, 95] |
| `StageOne.GenerateStageOne` | src/data/generate_synthetic_data.py:104-119 | the six fixed rows get the confidences of their membership flags and noise draws |
| `StageOne.TruncateToInt` | src/data/generate_synthetic_data.py:20 | truncation toward zero: the result has x's sign and lies within 1 of x, on zero's side |
| `StageOne.Ages` | src/data/generate_synthetic_data.py:20-21 | one age per draw; every age is in [18, 90]; a draw already in range is kept up to truncation |
| `Histogram.BinAt` | src/data/generate_synthetic_data.py:166-174 | in every bin, trainingCount <= count and trainingCount + nonTrainingCount == count |
| `Histogram.HistogramAt` | src/data/generate_synthetic_data.py:165-175 | bin k of the histogram is the bin for [start + 5k, start + 5k + 5) |
| `Histogram.HistogramTotal` | src/data/generate_synthetic_data.py:164-175 | the bin counts add up to the number of records in [start, start + 5n) |
| `Histogram.BinMembership` | src/data/generate_synthetic_data.py:165-166 | a record is in bin k exactly when its confidence is in the covered range and k is its five-point step, so bins are disjoint and records outside the range are in none |
| `Histogram.BuildHistogram` | src/data/generate_synthetic_data.py:164-175 | the appending loop builds exactly the histogram |
| `Histogram.StageTwoBins` | src/data/generate_synthetic_data.py:164-175 | ten bins labelled 50-54 .. 95-99 with the counts of their ranges and members; counts add up to the records in [50, 100) |
| `Histogram.StageThreeBins` | src/data/generate_synthetic_data.py:290-304 | twenty-one bins labelled 0-4 .. 100-104; training + nonTraining = total; totals add up to the records in [0, 105) |
| `Histogram.HundredOnlyInStageThree` | src/data/generate_synthetic_data.py:165-166 | in any population, a record of confidence 100 is in none of the ten stage-2 bins and in stage 3's last bin [100, 105) |
| `Thresholds.Precision` | src/data/generate_synthetic_data.py:187-188 | precision is in [0, 100], 0 exactly when no predicted record is a member, 100 exactly when all are |
| `Thresholds.OptimalThreshold` | src/data/generate_synthetic_data.py:178-192 | best threshold in 50..95, best accuracy in [0, 100]; it dominates the precision of every threshold that predicts someone; it is (50, 0) when no threshold has positive precision; otherwise it is the precision at the best threshold, and every lower threshold has strictly smaller precision |
| `Thresholds.NoPredictionsAbove` | src/data/generate_synthetic_data.py:311-315 | once a threshold predicts no one, no higher threshold does |
| `Thresholds.ThresholdTable` | src/data/generate_synthetic_data.py:307-325 | rows have thresholds 50, 51, ... in order, forming a contiguous prefix; each row has totalPredictions > 0, truePositives <= totalPredictions and accuracy equal to the precision; no later threshold predicts anyone; totalPredictions does not increase down the table |
| `Tradeoff.MaxOf` | src/data/generate_synthetic_data.py:344 | the maximum is an element and bounds every element |
| `Tradeoff.Utility` | src/data/generate_synthetic_data.py:352 | for 0 < epsilon <= max epsilon the utility is in (60, 90], and 90 at the largest epsilon |
| `Tradeoff.UtilityMonotone` | src/data/generate_synthetic_data.py:350-352 | utility does not decrease as epsilon grows |
| `Tradeoff.Privacy` | src/data/generate_synthetic_data.py:356 | with a positive maximum that bounds the difference, privacy is in [50, 100]: 100 for no difference, 50 at the maximum |
| `Tradeoff.PrivacyAntitone` | src/data/generate_synthetic_data.py:354-356 | a smaller absolute mean difference never gives lower privacy |
| `Tradeoff.TradeoffData` | src/data/generate_synthetic_data.py:343-362 | an error for an empty epsilon list or a zero divisor, exactly then; otherwise one point per epsilon, in order, with its utility and privacy, privacy in [50, 100] and utility in (60, 90] for positive epsilon |
| `StageController.RenderedComponents` | src/pages/Index.tsx:60-63 | for stages 1..4 exactly one component is shown and it is that stage's; for any other value none |
| `StageController.RenderedDescriptions` | src/pages/Index.tsx:32-55 | for stages 1..4 exactly one description is shown and it is that stage's; for any other value none |
| `StageController.Simulator.constructor` | src/pages/Index.tsx:13 | the stage starts at 1 |
| `StageController.Simulator.HandleStageComplete` | src/pages/Index.tsx:16-22 | completing stage s sets the stage to exactly s + 1, whatever it was |
| `StageController.Simulator.OnComplete` | src/pages/Index.tsx:60-63 | a callback sets the stage to its component's number + 1; for the component on screen this is the old stage + 1 |
| `StageController.RunFrom` | src/pages/Index.tsx:21 | callbacks of the components on screen, fired in turn, raise the stage by one each, never skip, and stop at 5 |
| `StageController.FullRun` | src/pages/Index.tsx:50-63 | if every component called back, completing stages 1 to 4 would reach stage 5, where no component and no description is shown |
| `StageController.StuckAtStageOne` | src/components/stages/StageFour.tsx:25-27 | when only stage four calls back, as in the code, no callback from stage 1 takes effect and the stage stays 1 |

## Left out

- Model training and prediction are left out: scaling, random forest, neural network, `predict_proba`. They are library calls, so the confidences are inputs.
- Random draws are parameters: `np.random.*`, `sample`, `choice`. This covers the stage-1 noise, the age draws and the training indices.
- The other columns of the synthetic patients are left out: blood pressure, cholesterol, glucose, heart rate, conditions and target. They are arithmetic on random draws, and only confidence and membership reach the modelled computations. The same goes for the fields that stage 2 copies through.
- The differential-privacy simulation of stage 3 is left out: noise scale, feature perturbation, label flipping. It is floating point with random effects.
- The per-epsilon mean difference (`np.mean`) is left out, because it is floating point and NaN for an empty group. The trade-off takes each epsilon's mean difference as an input map keyed by epsilon, where the source keys by `str(epsilon)`.
- Floating point is not modelled: confidences, noise, epsilons and accuracies are exact reals. There is no float rounding, NaN or infinity.
- File and console I/O are left out: `os.makedirs`, `json.dump`, `print`.
- Toast notifications in the controller are left out, as presentation.
- The other UI components are left out (landing page, layout, cards, the four stage components, the summary chart). They hold no logic beyond presentation. Stage four's epsilon formulas and its 2-second timer are floats and timers. The only part of the timer that is modelled is its effect: a late callback (`StageController.Simulator.OnComplete`).
