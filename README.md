# Kärber LD50 estimator — a verified model

This project models `karber(doses, max_animals, died)` in
`src/biocalculator/util.py` of the LD50 calculator. The function estimates
the median lethal dose (LD50) of a substance from grouped trial data by
Kärber's method for arbitrary dose spacing. It works in two stages:

1. **Validation**, in a fixed order:
   - the dose list and the death list must have the same length;
   - no dose may be smaller than the dose after it, so equal neighbours pass;
   - no death count may exceed the group size. There is no lower bound, so
     negative counts pass.
2. **Estimation.** Each death count becomes a proportion of the group. The
   trapezoids `(d[i] - d[i+1]) * (p[i] + p[i+1]) / 2` are summed over
   neighbouring dose pairs. The sum is subtracted from the highest dose.

Two modules hold the model:

- `karber.dfy`, module `Karber`: the error and result datatypes, and the
  validity predicates. It also holds the specification functions: `Term` is
  one trapezoid, `KarberSum` the sum of the first `k`, and `Estimate` the
  highest dose minus the whole sum. The method `KarberLd50` runs the source's
  loops step by step, each check leaving at its first violation. Its
  contract states the outcome for every input: which error, or
  `Ok(Estimate(...))`. A loop invariant ties the accumulator `sumTerm` to
  `KarberSum`.
- `properties.dfy`, module `KarberProperties`: lemmas about `Estimate`.

Numbers: doses and the estimate are `real`, and death counts and the group
size are `int`. Each Python `ValueError` is a constructor of `KarberError`.
Python also fails with two exceptions of its own, and both are modelled as
error constructors rather than preconditions:

- a group size of 0 with at least one dose divides by zero when the
  proportions are built (`ZeroGroupSize`);
- an empty dose list passes every check and then fails reading the highest
  dose (`NoDoses`).

A negative group size is not an error in the source, so it is not one here.
The lemmas that need a positive group size require it.

Some behaviour of `karber` is looser than a reader might expect:

- A reader might expect a lower bound on death counts. The code checks only
  the upper bound, so negative counts are accepted.
- A reader might expect strictly falling doses. The code rejects only
  `doses[i] < doses[i+1]`, so equal neighbours are accepted.
- A reader might expect at least two doses. For a non-zero group size, the
  code accepts one dose and returns it unchanged. With a group size of 0,
  one dose still divides by zero, and the model returns `ZeroGroupSize`.
- One more death does not always strictly lower the estimate. It does so
  for a group that borders a dose interval of positive width, in particular
  for strictly falling doses with at least two levels
  (`RaiseOneGroupStrictly`, `RaiseOneGroupStrictlyFalling`). With a single
  dose, the death count has no effect (`SingleDoseIgnoresDeaths`). With
  equal neighbouring doses, the trapezoid between them is zero.

## Model

| member | source | states |
|---|---|---|
| `Karber.KarberLd50` | src/biocalculator/util.py:3-29 | Mismatched lengths give `LengthMismatch`, whatever else is wrong. Matching lengths with a dose below its successor give `DosesNotDescending`. Matching lengths, non-increasing doses and a count above the group size give `DeathsExceedGroup`. Otherwise, an empty input gives `NoDoses` and a zero group size gives `ZeroGroupSize`. Every other input gives `Ok` of the highest dose minus the sum of `(d[i]-d[i+1]) * (died[i]+died[i+1]) / (2*max_animals)`. With a single dose, the result is exactly that dose. |
| `Karber.StepIsTerm` | src/biocalculator/util.py:21-27 | One pass of the loop body adds `diff * avg`, computed from the two proportions `died/max_animals`. That equals the trapezoid written directly in death counts. |
| `KarberProperties.TermBounds` | src/biocalculator/util.py:25-27 | Take non-increasing doses, a positive group size and `0 <= died <= max_animals`. Then each trapezoid lies between 0 and its dose interval. |
| `KarberProperties.SumBounds` | src/biocalculator/util.py:23-27 | Under the same conditions, the first `k` trapezoids sum to a value between 0 and `d[0] - d[k]`. |
| `KarberProperties.EstimateWithinDoseRange` | src/biocalculator/util.py:21-28 | Under the same conditions, the estimate lies between the lowest and the highest tested dose. |
| `KarberProperties.SumNoDeaths` | src/biocalculator/util.py:23-27 | If every death count is 0, every prefix of the accumulation is 0. |
| `KarberProperties.NoDeathsGivesHighestDose` | src/biocalculator/util.py:21-28 | If every death count is 0, the estimate is the highest dose. |
| `KarberProperties.FullTerm` | src/biocalculator/util.py:25-27 | If the whole group dies at both ends of an interval, its trapezoid is the whole interval. |
| `KarberProperties.SumAllDeaths` | src/biocalculator/util.py:23-27 | If every group dies entirely, the first `k` trapezoids telescope to `d[0] - d[k]`. |
| `KarberProperties.AllDeathsGivesLowestDose` | src/biocalculator/util.py:21-28 | If every group dies entirely, the estimate is the lowest dose. No ordering of the doses is needed. |
| `KarberProperties.TermMonotone` | src/biocalculator/util.py:25-27 | Take non-increasing doses. More deaths at the ends of an interval never shrink its trapezoid. On a positive interval, strictly more deaths strictly grow it. |
| `KarberProperties.SumMonotone` | src/biocalculator/util.py:23-27 | Take non-increasing doses. With at least as many deaths in every group, no prefix of the sum is smaller. |
| `KarberProperties.EstimateAntitone` | src/biocalculator/util.py:24-28 | Take non-increasing doses and a positive group size. With at least as many deaths in every group, the estimate is never higher. |
| `KarberProperties.RaiseOneGroup` | src/biocalculator/util.py:24-28 | Raising one group's death count, with everything else fixed, never raises the estimate. |
| `KarberProperties.SumStrictlyMonotone` | src/biocalculator/util.py:23-27 | If one trapezoid strictly grows and none shrinks, the sum strictly grows. |
| `KarberProperties.RaiseOneGroupStrictly` | src/biocalculator/util.py:24-28 | Take non-increasing doses and a positive group size. Raising the death count of a group that borders a dose interval of positive width strictly lowers the estimate. Doses may repeat elsewhere. |
| `KarberProperties.RaiseOneGroupStrictlyFalling` | src/biocalculator/util.py:24-28 | Take strictly falling doses, at least two of them. Raising any one group's death count strictly lowers the estimate. |
| `KarberProperties.SingleDoseIgnoresDeaths` | src/biocalculator/util.py:23-28 | With one dose, the loop does not run. The estimate is that dose, whatever the death count. |
| `KarberProperties.RegressionFixture` | src/biocalculator/util.py:34 | The module's own data set gives exactly 996356.35 in real arithmetic. That data set is doses 1e6 down to 0.1 in tenfold steps, groups of 8, and deaths 0,0,0,5,8,8,8,8. |

## Left out

- Floating point: the model uses exact `real` arithmetic. Python float rounding, and the fixture's printed value under it, are not modelled.
- Error messages: the Russian `ValueError` texts are not modelled, only which error is raised.
- `src/main.py` as a whole is outside the model. It is PyQt6 window and table code. Its edit-time coercions are not part of `karber`: blank or unparsable cells become 0, counts above the group size are clamped, and a non-positive first dose becomes 1.00. It also holds the inline geometric dose series `first_dose / coef**i`, which it formats to two decimals while filling the table. Result formatting is left out too.
- A log-uniform closed-form Kärber estimator, a dose-series generator and a response-curve projector are not modelled: `util.py` defines none of them, so there is no code to model. That also rules out comparing a closed-form estimator with the trapezoidal one. The only dose series in the repository is the inline one in `src/main.py`, covered in the previous line.
- The `__main__` block in `util.py` prints one call. Only its input is used here, as `RegressionFixture`.
