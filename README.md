# IPU weight fitting, modelled in Dafny

This project models the core of popgen's Iterative Proportional Updating
(IPU) engine. The engine fits one weight per household so that, for every
household-level and person-level category of a frequency table, the weighted
total of the category's counts comes close to a target total (its
constraint). The model covers four operations:

- **fit quality** of one column: `|1 - Σ count·weight / constraint|`, summed
  over the households present in the column;
- **update weights** for one column: the weights of exactly the column's
  households, each multiplied by the one ratio `constraint / weighted sum`;
- **average fit quality**: the arithmetic mean of the fit quality over every
  column of the table, household-level columns first, then person-level ones;
- **household weights**, the driver. It starts every weight at 1. Each sweep
  updates one shared weight map column by column, in table order. After the
  sweep it measures the average fit again. It stops when that average is at
  most the convergence threshold (`Converged`) or when the iteration cap is
  reached (`Exhausted`).

Files:

- `frequency_table.dfy` (module `FrequencyTables`): the read-only table.
  - Sparse columns are sequences of `(household, count)` entries.
  - Columns are keyed by `(group, category)`.
  - `Valid` is the table invariant.
  - `Columns` fixes the order in which a sweep visits the columns.
- `ipu.dfy` (module `Ipu`): the operations and their properties.
  - `FitQuality`, `UpdateWeights` and `AverageFitQuality` are pure functions.
  - The driver is specified by the functions `Step`, `SweepFrom`, `Run` and
    `FitFromOnes`. `Sweeps` composes successive sweeps; the lemmas on `Run`
    state the reported iteration count and the stopping rule against it.
  - It is implemented by the methods `Sweep` (the inner loop over columns,
    updating the weight map in place) and `HouseholdWeights` (the outer loop
    over sweeps). Each method is proved equal to its specification function.
- `ipu_fixtures.dfy` (module `IpuFixtures`): the test table.
  - It has eight households, two household-level and three person-level
    columns, the constraints `[35, 65, 91, 65, 104]` and the weight vectors
    the tests use.
  - It derives the values the tests expect, as exact rationals, within the
    tests' own tolerances.

Floating-point numbers are modelled as exact reals. Nothing here is executed;
every row of the "## Model" table below states a proved contract.

Errors are values (`Result`):

- `ZeroConstraint(key)`: a column is reached whose constraint is zero or
  negative.
- `ZeroWeightedSum(key)`: a column's weighted sum is zero when its update
  comes.

Both stop the fit. Both are checked at the point of use, in sweep order.

## Model

| member | source | states |
|---|---|---|
| `Ipu.WeightedSumAgree` | popgen/ipu/test/test_ipu.py:43-51 | the weighted sum of a column depends only on the weights of the households present in it |
| `Ipu.FitQualityIgnoresOthers` | popgen/ipu/test/test_ipu.py:43-51 | the fit quality of a column is the same under any two weight maps that agree on the column's households (households 4 to 8 play no part in household/1) |
| `Ipu.FitQualityRelative` | popgen/ipu/test/test_ipu.py:43-61 | fit quality times abs(constraint) is abs(constraint - weighted sum): the distance from the target, relative to the target |
| `Ipu.FitQualityZero` | popgen/ipu/test/test_ipu.py:43-61 | the fit quality is zero exactly when the weighted sum equals the constraint |
| `Ipu.WeightedSumScaled` | popgen/ipu/test/test_ipu.py:93-102 | scaling every weight of a column by c scales its weighted sum by c, whatever the counts |
| `Ipu.WeightedSumSign` | popgen/ipu/test/test_ipu.py:105-113 | with positive weights and non-negative counts the weighted sum is non-negative, and zero exactly when the column counts nothing |
| `Ipu.WeightedSumOfOnes` | popgen/ipu/test/test_ipu.py:43-51 | with every weight of the column at 1 the weighted sum is the column's total count |
| `Ipu.UpdateWeightsHitsConstraint` | popgen/ipu/test/test_ipu.py:81-102 | right after an update the column's weighted sum equals its constraint |
| `Ipu.UpdateWeightsUnique` | popgen/ipu/test/test_ipu.py:93-102 | any rescaling of the column's households by one common factor that brings the weighted sum to the constraint is the update: the ratio is uniform and determined |
| `Ipu.UpdateWeightsOnTarget` | popgen/ipu/test/test_ipu.py:81-91 | a column already on target keeps its weights (ratio 1) |
| `Ipu.UpdateWeightsIdempotent` | popgen/ipu/test/test_ipu.py:81-102 | updating twice with the same column and constraint changes nothing the second time |
| `Ipu.SumFitZero` | popgen/ipu/test/test_ipu.py:64-78 | the total fit quality of a sequence of columns is zero exactly when every column is on target |
| `Ipu.SumFitAppend` | popgen/ipu/test/test_ipu.py:64-78 | the total fit quality of two concatenated column sequences is the sum of their totals |
| `Ipu.AverageFitZero` | popgen/ipu/test/test_ipu.py:64-78 | the average fit quality is zero exactly when every column of the table is on target |
| `Ipu.AverageOverBothGroups` | popgen/ipu/test/test_ipu.py:64-78 | the average is the total fit quality of the household-level columns plus that of the person-level columns, divided by the number of all columns |
| `Ipu.Step` | popgen/ipu/test/test_ipu.py:105-113 | one column of a sweep succeeds exactly when its constraint is positive and its weighted sum non-zero, the error naming which check failed; on success it keeps the same households and leaves those outside the column unchanged |
| `Ipu.StepHitsConstraint` | popgen/ipu/test/test_ipu.py:105-113 | after a successful step the column just updated is exactly on target |
| `Ipu.SweepFrom` | popgen/ipu/test/test_ipu.py:12-17 | a successful sweep keeps the same households and has met only positive constraints |
| `Ipu.SweepLastColumnFits` | popgen/ipu/test/test_ipu.py:105-113 | after a successful sweep the last column visited is exactly on target, because later columns see the weights the earlier ones left |
| `Ipu.StepSucceeds` | popgen/ipu/test/test_ipu.py:105-113 | from positive weights a step fails exactly when the constraint is not positive or the column counts nothing, and otherwise keeps every weight positive |
| `Ipu.SweepSucceeds` | popgen/ipu/test/test_ipu.py:105-113 | from positive weights a sweep fails exactly when some remaining column has a non-positive constraint or counts nothing; otherwise all weights stay positive |
| `Ipu.RunOutcome` | popgen/ipu/test/test_ipu.py:105-113 | a successful run keeps the same households and reports an iteration count between done+1 and cap; it is Converged exactly when its fit is at most the threshold, and Exhausted only at the cap |
| `Ipu.RunCountsSweeps` | popgen/ipu/test/test_ipu.py:105-113 | the iteration count a run reports is the number of sweeps it made: the weights it returns are exactly what the sweeps numbered done+1 to that count leave |
| `Ipu.RunStopsAtFirst` | popgen/ipu/test/test_ipu.py:105-113 | a run stops at the first sweep whose average fit is at most the threshold: every sweep before its last one left an average fit above the threshold |
| `Ipu.RunReportsAverage` | popgen/ipu/test/test_ipu.py:105-113 | the fit quality a run reports is the average fit quality of the weights it returns |
| `Ipu.RunLastColumnFits` | popgen/ipu/test/test_ipu.py:105-113 | the weights a run returns put the last column of the sweep exactly on target |
| `Ipu.RunSucceeds` | popgen/ipu/test/test_ipu.py:105-113 | from positive weights a run fails exactly when some column has a non-positive constraint or counts nothing, and otherwise returns positive weights |
| `Ipu.FitOutcome` | popgen/ipu/test/test_ipu.py:105-113 | a fit from all-ones weights returns a weight for every household of the table and an iteration count between 1 and cap, with a status that matches its fit quality |
| `Ipu.FitStopsAtFirst` | popgen/ipu/test/test_ipu.py:105-113 | a fit's returned weights are exactly what its reported number of sweeps from all-ones weights leave; the last of those sweeps has an average fit at most the threshold or is the cap-th, and every earlier one has an average fit above the threshold |
| `Ipu.FitReportsAverage` | popgen/ipu/test/test_ipu.py:105-113 | a fit reports the average fit quality of the weights it returns, and those weights put the last column on target |
| `Ipu.FitSucceeds` | popgen/ipu/test/test_ipu.py:105-113 | a fit of a valid table fails exactly when some column has a non-positive constraint or counts nothing; otherwise all returned weights are positive |
| `Ipu.Sweep` | popgen/ipu/test/test_ipu.py:105-113 | the in-place loop over the columns returns what `SweepFrom` specifies, the same error at the same column included |
| `Ipu.HouseholdWeights` | popgen/ipu/test/test_ipu.py:105-113 | the driver loop returns exactly what `FitFromOnes` specifies, so every Fit* and Run* lemma above holds of it |
| `FrequencyTables.HouseholdColumnsFirst` | popgen/ipu/test/test_ipu.py:12-17 | a sweep visits every household-level column before any person-level one: a position holds a household-level column exactly when it comes before the person-level block |
| `IpuFixtures.SweepOrder` | popgen/ipu/test/test_ipu.py:12-17 | the test table is swept as household/1, household/2, person/1, person/2, person/3 |
| `IpuFixtures.TableIsValid` | popgen/ipu/test/test_ipu.py:20-34 | the test table is a valid table |
| `IpuFixtures.FitQualityHouseholdOneFromOnes` | popgen/ipu/test/test_ipu.py:43-51 | with all weights 1, household/1 has fit quality 32/35, within 0.0001 of 0.9143 |
| `IpuFixtures.FitQualityPersonTwoSecondWeights` | popgen/ipu/test/test_ipu.py:53-61 | under the second weights, person/2 (household 5 counting twice) has fit quality 524/1625, within 0.0003 of 0.3222 |
| `IpuFixtures.AverageFromOnes` | popgen/ipu/test/test_ipu.py:64-70 | with all weights 1 the average fit quality over all five columns is 2373/2600, within 0.0001 of 0.9127 |
| `IpuFixtures.AverageUnderSecondWeights` | popgen/ipu/test/test_ipu.py:72-78 | under the second weights the average fit quality is 13359/140000, within 0.0001 of 0.0954 |
| `IpuFixtures.UpdateHouseholdOneFromOnes` | popgen/ipu/test/test_ipu.py:81-91 | updating household/1 from weights of 1 gives exactly its three households, each 35/3, within 0.01 of 11.67 |
| `IpuFixtures.UpdatePersonThree` | popgen/ipu/test/test_ipu.py:93-102 | updating person/3 gives exactly its five households, all scaled by 104/67.68 (the households that count 2 included), each within 0.01 of the expected value |
| `IpuFixtures.FixtureFits` | popgen/ipu/test/test_ipu.py:105-113 | fitting the test table with threshold 1e-7 succeeds for any cap, with a positive weight for each of the eight households after between 1 and cap sweeps |

## Left out

- Floating point. Reals are exact, so the driver's trajectory is not reproduced: the expected weights (±0.02), the final fit quality of about 8.51e-6 and the count of about 638 sweeps (popgen/ipu/test/test_ipu.py:108-113) depend on IEEE rounding and on how fast the fit converges. Convergence is not proved.
- Ipu.HouseholdWeights: takes the iteration cap as an explicit parameter (at least one). The source's cap is implicit and its value is not visible.
- The stopping rule is "average fit quality at or below the threshold". The expected outputs of lines 112-113 (a final fit of about 8.51e-6 under a threshold of 1e-7) suggest that the implementation stops on something else, such as a cap or a change in the weights. That implementation, popgen/ipu/ipu.py, is not part of this model.
- Constraints that are not keyed by a column of the table. They are excluded by a precondition (`KeysIn`) rather than modelled as an error.
- The fit-quality and update functions require a non-zero constraint and a non-zero weighted sum. The driver checks both before every update and returns `ZeroConstraint` or `ZeroWeightedSum` instead of dividing.
- The driver requires a table with at least one column, so that the average exists.
- pandas and numpy plumbing (`Series`, `MultiIndex`, `.loc`, `as_matrix`, tolerance assertions). These become sequences, maps and explicit bounds.
- Building the `FrequencyTable` (popgen/frequencytable). The table is a read-only input that satisfies `Valid`.
- Running several fits in parallel, and anything else outside a single fit.
