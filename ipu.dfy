/**
 Iterative Proportional Updating: per-column fit quality, the per-column
 weight update, the average fit over a table, and the driver that sweeps the
 columns until the average fit is good enough or the iteration cap is reached.
 Floating-point numbers are modelled as exact reals.
 */
module Ipu {
  import opened FrequencyTables

  type Weights = map<HouseholdId, real>
  type Constraints = map<ColumnKey, real>

  datatype FitError =
    | ZeroConstraint(key: ColumnKey)    // the column's target total is zero or negative
    | ZeroWeightedSum(key: ColumnKey)   // the column's weighted sum is zero when it is updated

  datatype Result<T> = Ok(value: T) | Err(error: FitError)

  datatype Status = Converged | Exhausted

  datatype Fit = Fit(weights: Weights, fitQuality: real, iterations: nat, status: Status)

  function Abs(x: real): (r: real)
  {
    if x < 0.0 then -x else x
  }

  /** The relative deviation |1 - s/k| of s from k. */
  function Deviation(s: real, k: real): (r: real)
    requires k != 0.0
  {
    Abs(1.0 - s / k)
  }

  /** The deviation is |k - s| relative to |k|, zero exactly when s is k. */
  lemma DeviationFacts(s: real, k: real)
    requires k != 0.0
    ensures Deviation(s, k) * Abs(k) == Abs(k - s)
    ensures Deviation(s, k) == 0.0 <==> s == k
  {
    var q := s / k;
    assert q * k == s;
    assert (1.0 - q) * k == k - s;
  }

  /** Facts about dividing by a positive count. */
  lemma MeanFacts(s: real, n: real)
    requires n > 0.0 && s >= 0.0
    ensures s / n >= 0.0
    ensures s / n == 0.0 <==> s == 0.0
    ensures (s / n) * n == s
  {
  }

  /** The factor c with c * s == k is k / s. */
  lemma RatioFacts(k: real, s: real, c: real)
    requires s != 0.0 && c * s == k
    ensures c == k / s
  {
    assert (k / s) * s == k;
    assert (c - k / s) * s == 0.0;
  }

  lemma RatioOne(k: real, s: real)
    requires s == k && k != 0.0
    ensures k / s == 1.0
  {
  }

  lemma RatioPositive(k: real, s: real, x: real)
    requires k > 0.0 && s > 0.0 && x > 0.0
    ensures (k / s) * x > 0.0
  {
    assert k / s > 0.0;
  }

  /** Every household of the column has a weight. */
  predicate Covers(w: Weights, col: Column)
  {
    forall i :: 0 <= i < |col| ==> col[i].id in w
  }

  predicate CoversAll(w: Weights, cols: seq<KeyedColumn>)
  {
    forall j :: 0 <= j < |cols| ==> Covers(w, cols[j].column)
  }

  predicate KeysIn(cols: seq<KeyedColumn>, constraints: Constraints)
  {
    forall j :: 0 <= j < |cols| ==> cols[j].key in constraints
  }

  /** Every column has a constraint, and none of them is zero. */
  predicate NonZero(cols: seq<KeyedColumn>, constraints: Constraints)
  {
    && KeysIn(cols, constraints)
    && forall j :: 0 <= j < |cols| ==> constraints[cols[j].key] != 0.0
  }

  predicate Positive(w: Weights)
  {
    forall h :: h in w ==> w[h] > 0.0
  }

  /** A column none of whose households counts anything. */
  predicate Degenerate(col: Column)
  {
    forall i :: 0 <= i < |col| ==> col[i].count == 0.0
  }

  /** Every column from the i-th on has a positive target and counts something. */
  predicate Feasible(cols: seq<KeyedColumn>, constraints: Constraints, i: nat)
    requires KeysIn(cols, constraints)
  {
    forall j :: i <= j < |cols| ==> constraints[cols[j].key] > 0.0 && !Degenerate(cols[j].column)
  }

  // ---------------------------------------------------------------------------
  // Weighted sum of a column

  /** The sum, over the households present in the column, of count times weight. */
  function WeightedSum(col: Column, w: Weights): (r: real)
    requires Covers(w, col)
  {
    if col == [] then 0.0 else col[0].count * w[col[0].id] + WeightedSum(col[1..], w)
  }

  /** Only the weights of the column's own households matter. */
  lemma {:induction false} WeightedSumAgree(col: Column, w: Weights, w': Weights)
    requires Covers(w, col) && Covers(w', col)
    requires forall i :: 0 <= i < |col| ==> w[col[i].id] == w'[col[i].id]
    ensures WeightedSum(col, w) == WeightedSum(col, w')
  {
    if col != [] {
      WeightedSumAgree(col[1..], w, w');
    }
  }

  /** Scaling every weight of the column by c scales the weighted sum by c. */
  lemma {:induction false} WeightedSumScaled(col: Column, w: Weights, w': Weights, c: real)
    requires Covers(w, col) && Covers(w', col)
    requires forall i :: 0 <= i < |col| ==> w'[col[i].id] == c * w[col[i].id]
    ensures WeightedSum(col, w') == c * WeightedSum(col, w)
  {
    if col != [] {
      WeightedSumScaled(col[1..], w, w', c);
      assert col[0].count * w'[col[0].id] == c * (col[0].count * w[col[0].id]);
    }
  }

  /** With positive weights and non-negative counts the weighted sum is
      non-negative, and it is zero exactly when the column counts nothing. */
  lemma {:induction false} WeightedSumSign(col: Column, w: Weights)
    requires Covers(w, col) && Positive(w)
    requires forall i :: 0 <= i < |col| ==> col[i].count >= 0.0
    ensures WeightedSum(col, w) >= 0.0
    ensures WeightedSum(col, w) == 0.0 <==> Degenerate(col)
  {
    if col != [] {
      WeightedSumSign(col[1..], w);
      var head := col[0].count * w[col[0].id];
      assert head >= 0.0;
      assert head == 0.0 <==> col[0].count == 0.0;
      if Degenerate(col[1..]) && col[0].count == 0.0 {
        forall i | 0 <= i < |col| ensures col[i].count == 0.0 {
          if i > 0 { assert col[i] == col[1..][i - 1]; }
        }
      }
      if Degenerate(col) {
        assert forall i :: 0 <= i < |col[1..]| ==> col[1..][i] == col[i + 1];
      }
    }
  }

  /** The plain total of a column's counts. */
  function CountTotal(col: Column): (r: real)
  {
    if col == [] then 0.0 else col[0].count + CountTotal(col[1..])
  }

  /** With every weight of the column at 1 the weighted sum is the total count. */
  lemma {:induction false} WeightedSumOfOnes(col: Column, w: Weights)
    requires Covers(w, col)
    requires forall i :: 0 <= i < |col| ==> w[col[i].id] == 1.0
    ensures WeightedSum(col, w) == CountTotal(col)
  {
    if col != [] {
      WeightedSumOfOnes(col[1..], w);
    }
  }

  // ---------------------------------------------------------------------------
  // Fit quality

  /** The relative deviation |1 - weighted sum / constraint| of a column. */
  function FitQuality(col: Column, w: Weights, constraint: real): (r: real)
    requires Covers(w, col) && constraint != 0.0
    ensures r >= 0.0
  {
    Deviation(WeightedSum(col, w), constraint)
  }

  /** The fit quality is the distance of the weighted sum from the
      constraint, relative to the constraint. */
  lemma FitQualityRelative(col: Column, w: Weights, constraint: real)
    requires Covers(w, col) && constraint != 0.0
    ensures FitQuality(col, w, constraint) * Abs(constraint) == Abs(constraint - WeightedSum(col, w))
  {
    DeviationFacts(WeightedSum(col, w), constraint);
  }

  /** The fit quality is zero exactly when the weighted sum is on target. */
  lemma FitQualityZero(col: Column, w: Weights, constraint: real)
    requires Covers(w, col) && constraint != 0.0
    ensures FitQuality(col, w, constraint) == 0.0 <==> WeightedSum(col, w) == constraint
  {
    DeviationFacts(WeightedSum(col, w), constraint);
  }

  /** Households outside the column do not affect its fit quality. */
  lemma FitQualityIgnoresOthers(col: Column, w: Weights, w': Weights, constraint: real)
    requires Covers(w, col) && Covers(w', col) && constraint != 0.0
    requires forall i :: 0 <= i < |col| ==> w[col[i].id] == w'[col[i].id]
    ensures FitQuality(col, w, constraint) == FitQuality(col, w', constraint)
  {
    WeightedSumAgree(col, w, w');
  }

  // ---------------------------------------------------------------------------
  // Weight update

  /** The one factor by which an update rescales a column's households. */
  function Ratio(col: Column, w: Weights, constraint: real): (r: real)
    requires Covers(w, col) && WeightedSum(col, w) != 0.0
  {
    constraint / WeightedSum(col, w)
  }

  /** The weights of exactly the column's households, each multiplied by the
      one ratio constraint / weighted sum, whatever the household's count. */
  function UpdateWeights(col: Column, w: Weights, constraint: real): (r: Weights)
    requires Covers(w, col) && WeightedSum(col, w) != 0.0
    ensures r.Keys == Ids(col)
    ensures forall h :: h in r ==> r[h] == Ratio(col, w, constraint) * w[h]
  {
    var ratio := Ratio(col, w, constraint);
    map h | h in Ids(col) :: ratio * w[h]
  }

  /** Right after the update the column's weighted sum equals the constraint. */
  lemma UpdateWeightsHitsConstraint(col: Column, w: Weights, constraint: real)
    requires Covers(w, col) && WeightedSum(col, w) != 0.0
    ensures Covers(UpdateWeights(col, w, constraint), col)
    ensures WeightedSum(col, UpdateWeights(col, w, constraint)) == constraint
  {
    var s := WeightedSum(col, w);
    var ratio := Ratio(col, w, constraint);
    var r := UpdateWeights(col, w, constraint);
    assert Covers(r, col) by {
      forall i | 0 <= i < |col| ensures col[i].id in r {
        assert col[i].id in Ids(col);
      }
    }
    WeightedSumScaled(col, w, r, ratio);
    RatioFacts(constraint, s, ratio);
  }

  /** The households of a column covered by w are keys of w. */
  lemma IdsCovered(col: Column, w: Weights)
    requires Covers(w, col)
    ensures Ids(col) <= w.Keys
  {
  }

  /** Two maps with the same keys, each a rescaling of w by factors that
      are equal, are equal. */
  lemma ScaledMapsEqual(r: Weights, u: Weights, w: Weights, c: real, d: real)
    requires r.Keys == u.Keys && r.Keys <= w.Keys && c == d
    requires forall h :: h in r ==> r[h] == c * w[h]
    requires forall h :: h in u ==> u[h] == d * w[h]
    ensures r == u
  {
    forall h | h in r ensures r[h] == u[h] {
      assert r[h] == c * w[h] && u[h] == d * w[h];
    }
  }

  /** The factor that brings the weighted sum to the constraint is the ratio. */
  lemma UniqueFactor(col: Column, w: Weights, constraint: real, r: Weights, c: real)
    requires Covers(w, col) && WeightedSum(col, w) != 0.0
    requires forall i :: 0 <= i < |col| ==> col[i].id in r && r[col[i].id] == c * w[col[i].id]
    requires WeightedSum(col, r) == constraint
    ensures c == Ratio(col, w, constraint)
  {
    WeightedSumScaled(col, w, r, c);
    RatioFacts(constraint, WeightedSum(col, w), c);
  }

  /** A rescaling of the column's households by the update's ratio is the update. */
  lemma ScaledByRatio(col: Column, w: Weights, constraint: real, r: Weights, c: real)
    requires Covers(w, col) && WeightedSum(col, w) != 0.0
    requires r.Keys == Ids(col)
    requires forall h :: h in r ==> r[h] == c * w[h]
    requires c == Ratio(col, w, constraint)
    ensures r == UpdateWeights(col, w, constraint)
  {
    var u := UpdateWeights(col, w, constraint);
    IdsCovered(col, w);
    assert forall h :: h in u ==> u[h] == c * w[h];
    ScaledMapsEqual(r, u, w, c, c);
  }

  /** The update is the only rescaling of the column's households by one
      common factor that brings the weighted sum to the constraint. */
  lemma UpdateWeightsUnique(col: Column, w: Weights, constraint: real, r: Weights, c: real)
    requires Covers(w, col) && WeightedSum(col, w) != 0.0
    requires r.Keys == Ids(col)
    requires forall h :: h in r ==> r[h] == c * w[h]
    requires Covers(r, col) && WeightedSum(col, r) == constraint
    ensures r == UpdateWeights(col, w, constraint)
  {
    UniqueFactor(col, w, constraint, r, c);
    ScaledByRatio(col, w, constraint, r, c);
  }

  /** A column already on target is left as it is (the ratio is 1). */
  lemma UpdateWeightsOnTarget(col: Column, w: Weights, constraint: real)
    requires Covers(w, col) && WeightedSum(col, w) == constraint && constraint != 0.0
    ensures forall h :: h in Ids(col) ==> UpdateWeights(col, w, constraint)[h] == w[h]
  {
    RatioOne(constraint, WeightedSum(col, w));
  }

  /** Updating twice with the same column changes nothing the second time. */
  lemma UpdateWeightsIdempotent(col: Column, w: Weights, constraint: real)
    requires Covers(w, col) && WeightedSum(col, w) != 0.0 && constraint != 0.0
    ensures var r := UpdateWeights(col, w, constraint);
      WeightedSum(col, r) != 0.0 && UpdateWeights(col, r, constraint) == r
  {
    var r := UpdateWeights(col, w, constraint);
    UpdateWeightsHitsConstraint(col, w, constraint);
    UpdateWeightsOnTarget(col, r, constraint);
  }

  // ---------------------------------------------------------------------------
  // Average fit quality

  /** The total fit quality of the columns. */
  function SumFit(cols: seq<KeyedColumn>, w: Weights, constraints: Constraints): (r: real)
    requires CoversAll(w, cols) && NonZero(cols, constraints)
    ensures r >= 0.0
  {
    if cols == [] then 0.0
    else FitQuality(cols[0].column, w, constraints[cols[0].key]) + SumFit(cols[1..], w, constraints)
  }

  /** The total is zero exactly when every column is on target. */
  lemma {:induction false} SumFitZero(cols: seq<KeyedColumn>, w: Weights, constraints: Constraints)
    requires CoversAll(w, cols) && NonZero(cols, constraints)
    ensures SumFit(cols, w, constraints) == 0.0 <==>
      forall j :: 0 <= j < |cols| ==> WeightedSum(cols[j].column, w) == constraints[cols[j].key]
  {
    if cols != [] {
      FitQualityZero(cols[0].column, w, constraints[cols[0].key]);
      SumFitZero(cols[1..], w, constraints);
      assert forall j :: 1 <= j < |cols| ==> cols[j] == cols[1..][j - 1];
    }
  }

  lemma {:induction false} SumFitAppend(a: seq<KeyedColumn>, b: seq<KeyedColumn>, w: Weights, constraints: Constraints)
    requires CoversAll(w, a) && NonZero(a, constraints)
    requires CoversAll(w, b) && NonZero(b, constraints)
    ensures CoversAll(w, a + b) && NonZero(a + b, constraints)
    ensures SumFit(a + b, w, constraints) == SumFit(a, w, constraints) + SumFit(b, w, constraints)
  {
    if a != [] {
      SumFitAppend(a[1..], b, w, constraints);
      assert (a + b)[1..] == a[1..] + b;
    } else {
      assert a + b == b;
    }
  }

  /** The arithmetic mean of the fit quality of every column of the table. */
  function AverageFitQuality(t: FrequencyTable, w: Weights, constraints: Constraints): (r: real)
    requires |Columns(t)| > 0 && CoversAll(w, Columns(t)) && NonZero(Columns(t), constraints)
    ensures r >= 0.0
  {
    MeanFacts(SumFit(Columns(t), w, constraints), |Columns(t)| as real);
    SumFit(Columns(t), w, constraints) / (|Columns(t)| as real)
  }

  /** The average is zero exactly when every column of the table is on target. */
  lemma AverageFitZero(t: FrequencyTable, w: Weights, constraints: Constraints)
    requires |Columns(t)| > 0 && CoversAll(w, Columns(t)) && NonZero(Columns(t), constraints)
    ensures AverageFitQuality(t, w, constraints) == 0.0 <==>
      forall j :: 0 <= j < |Columns(t)| ==> WeightedSum(Columns(t)[j].column, w) == constraints[Columns(t)[j].key]
  {
    var total := SumFit(Columns(t), w, constraints);
    MeanFacts(total, |Columns(t)| as real);
    assert AverageFitQuality(t, w, constraints) == 0.0 <==> total == 0.0;
    SumFitZero(Columns(t), w, constraints);
  }

  /** The columns of a sequence are covered and keyed when those of a longer
      one are. */
  lemma PrefixAndSuffix(a: seq<KeyedColumn>, b: seq<KeyedColumn>, w: Weights, constraints: Constraints)
    requires CoversAll(w, a + b) && NonZero(a + b, constraints)
    ensures CoversAll(w, a) && NonZero(a, constraints)
    ensures CoversAll(w, b) && NonZero(b, constraints)
  {
    assert forall j :: 0 <= j < |a| ==> a[j] == (a + b)[j];
    assert forall j :: 0 <= j < |b| ==> b[j] == (a + b)[|a| + j];
  }

  /** The mean runs over household-level and person-level columns together. */
  lemma AverageOverBothGroups(t: FrequencyTable, w: Weights, constraints: Constraints)
    requires |Columns(t)| > 0 && CoversAll(w, Columns(t)) && NonZero(Columns(t), constraints)
    ensures var hh := Keyed(Household, t.householdCols);
      var pc := Keyed(Person, t.personCols);
      && CoversAll(w, hh) && NonZero(hh, constraints)
      && CoversAll(w, pc) && NonZero(pc, constraints)
      && AverageFitQuality(t, w, constraints)
         == (SumFit(hh, w, constraints) + SumFit(pc, w, constraints)) / (|Columns(t)| as real)
  {
    var hh := Keyed(Household, t.householdCols);
    var pc := Keyed(Person, t.personCols);
    assert Columns(t) == hh + pc;
    PrefixAndSuffix(hh, pc, w, constraints);
    SumFitAppend(hh, pc, w, constraints);
  }

  // ---------------------------------------------------------------------------
  // The driver, as functions

  /** Every household of the table has a weight, so every column is covered. */
  lemma TableCovered(t: FrequencyTable, w: Weights)
    requires Valid(t) && IndexSet(t) <= w.Keys
    ensures CoversAll(w, Columns(t))
  {
    forall j | 0 <= j < |Columns(t)| ensures Covers(w, Columns(t)[j].column) {
      assert ValidColumn(Columns(t)[j].column, t.index);
    }
  }

  /** No column of the sequence has a negative count. */
  predicate NonNegative(cols: seq<KeyedColumn>)
  {
    forall j, n :: 0 <= j < |cols| && 0 <= n < |cols[j].column| ==> cols[j].column[n].count >= 0.0
  }

  lemma TableNonNegative(t: FrequencyTable)
    requires Valid(t)
    ensures NonNegative(Columns(t))
  {
    var cols := Columns(t);
    forall j, n | 0 <= j < |cols| && 0 <= n < |cols[j].column| ensures cols[j].column[n].count >= 0.0 {
      assert ValidColumn(cols[j].column, t.index);
    }
  }

  /** Weights for the same households cover the same columns. */
  lemma SameKeysCover(w: Weights, w': Weights, cols: seq<KeyedColumn>)
    requires CoversAll(w, cols) && w'.Keys == w.Keys
    ensures CoversAll(w', cols)
  {
    forall j | 0 <= j < |cols| ensures Covers(w', cols[j].column) {
      assert Covers(w, cols[j].column);
    }
  }

  /** One column of a sweep: check the constraint, then rescale the column's
      households in the shared weight map. */
  function Step(c: KeyedColumn, constraints: Constraints, w: Weights): (r: Result<Weights>)
    requires c.key in constraints && Covers(w, c.column)
    ensures r.Ok? <==> constraints[c.key] > 0.0 && WeightedSum(c.column, w) != 0.0
    ensures r.Err? && constraints[c.key] <= 0.0 ==> r.error == ZeroConstraint(c.key)
    ensures r.Err? && constraints[c.key] > 0.0 ==> r.error == ZeroWeightedSum(c.key)
    ensures r.Ok? ==> r.value.Keys == w.Keys
    ensures r.Ok? ==> forall h :: h in w && h !in Ids(c.column) ==> r.value[h] == w[h]
  {
    var k := constraints[c.key];
    if k <= 0.0 then Err(ZeroConstraint(c.key))
    else if WeightedSum(c.column, w) == 0.0 then Err(ZeroWeightedSum(c.key))
    else Ok(w + UpdateWeights(c.column, w, k))
  }

  /** After a successful step the column is exactly on target. */
  lemma StepHitsConstraint(c: KeyedColumn, constraints: Constraints, w: Weights)
    requires c.key in constraints && Covers(w, c.column) && Step(c, constraints, w).Ok?
    ensures Covers(Step(c, constraints, w).value, c.column)
    ensures WeightedSum(c.column, Step(c, constraints, w).value) == constraints[c.key]
  {
    var u := UpdateWeights(c.column, w, constraints[c.key]);
    var w' := w + u;
    UpdateWeightsHitsConstraint(c.column, w, constraints[c.key]);
    assert Covers(w', c.column);
    assert forall i :: 0 <= i < |c.column| ==> c.column[i].id in Ids(c.column);
    WeightedSumAgree(c.column, u, w');
  }

  /** The rest of a sweep, from the i-th column on, each column seeing the
      weights left by the ones before it. */
  function SweepFrom(cols: seq<KeyedColumn>, constraints: Constraints, w: Weights, i: nat): (r: Result<Weights>)
    requires i <= |cols| && CoversAll(w, cols) && KeysIn(cols, constraints)
    ensures r.Ok? ==> r.value.Keys == w.Keys
    ensures r.Ok? ==> forall j :: i <= j < |cols| ==> constraints[cols[j].key] > 0.0
    decreases |cols| - i
  {
    if i == |cols| then Ok(w)
    else
      match Step(cols[i], constraints, w)
      case Err(e) => Err(e)
      case Ok(w') =>
        SameKeysCover(w, w', cols);
        SweepFrom(cols, constraints, w', i + 1)
  }

  /** The sweeps from the (done+1)-th on, stopping when the average fit is at
      most the threshold or when `cap` sweeps have been made. */
  function Run(t: FrequencyTable, constraints: Constraints, convergence: real, cap: nat,
               w: Weights, done: nat): (r: Result<Fit>)
    requires |Columns(t)| > 0 && KeysIn(Columns(t), constraints) && CoversAll(w, Columns(t))
    requires done < cap
    decreases cap - done
  {
    match SweepFrom(Columns(t), constraints, w, 0)
    case Err(e) => Err(e)
    case Ok(w') =>
      SameKeysCover(w, w', Columns(t));
      var f := AverageFitQuality(t, w', constraints);
      if f <= convergence then Ok(Fit(w', f, done + 1, Converged))
      else if done + 1 == cap then Ok(Fit(w', f, done + 1, Exhausted))
      else Run(t, constraints, convergence, cap, w', done + 1)
  }

  /** Every household of the index starts at weight 1. */
  function Ones(index: seq<HouseholdId>): (w: Weights)
    ensures w.Keys == set h | h in index
    ensures forall h :: h in w ==> w[h] == 1.0
    ensures Positive(w)
  {
    map h | h in index :: 1.0
  }

  /** The whole fit, from all-ones weights. */
  function FitFromOnes(t: FrequencyTable, constraints: Constraints, convergence: real, cap: nat): (r: Result<Fit>)
    requires Valid(t) && |Columns(t)| > 0 && KeysIn(Columns(t), constraints) && cap > 0
  {
    TableCovered(t, Ones(t.index));
    Run(t, constraints, convergence, cap, Ones(t.index), 0)
  }

  /** The sweeps numbered done + 1 to n, the first starting from w and each
      later one from the weights the one before it left. */
  function Sweeps(cols: seq<KeyedColumn>, constraints: Constraints, w: Weights, done: nat, n: nat): (r: Result<Weights>)
    requires KeysIn(cols, constraints) && CoversAll(w, cols)
    ensures r.Ok? ==> r.value.Keys == w.Keys && CoversAll(r.value, cols)
    decreases n - done
  {
    if n <= done then Ok(w)
    else
      match SweepFrom(cols, constraints, w, 0)
      case Err(e) => Err(e)
      case Ok(w') =>
        SameKeysCover(w, w', cols);
        Sweeps(cols, constraints, w', done + 1, n)
  }

  // ---------------------------------------------------------------------------
  // Properties of a sweep and of the driver

  /** After a sweep the last column's weighted sum is on target: later columns
      see the updates of earlier ones, and nothing comes after the last. */
  lemma {:induction false} SweepLastColumnFits(cols: seq<KeyedColumn>, constraints: Constraints, w: Weights, i: nat)
    requires i < |cols| && CoversAll(w, cols) && KeysIn(cols, constraints)
    requires SweepFrom(cols, constraints, w, i).Ok?
    ensures var w' := SweepFrom(cols, constraints, w, i).value;
      Covers(w', cols[|cols| - 1].column)
      && WeightedSum(cols[|cols| - 1].column, w') == constraints[cols[|cols| - 1].key]
    decreases |cols| - i
  {
    var w1 := Step(cols[i], constraints, w).value;
    if i + 1 == |cols| {
      StepHitsConstraint(cols[i], constraints, w);
    } else {
      SweepLastColumnFits(cols, constraints, w1, i + 1);
    }
  }

  /** Rescaling some of a set of positive weights by a positive factor
      keeps them all positive. */
  lemma RescaledPositive(w: Weights, u: Weights, ratio: real)
    requires Positive(w) && ratio > 0.0
    requires forall h :: h in u ==> h in w && u[h] == ratio * w[h]
    ensures Positive(w + u)
  {
  }

  /** From positive weights one column's update fails exactly when its target
      is not positive or it counts nothing, and otherwise keeps every weight
      positive. */
  lemma StepSucceeds(c: KeyedColumn, constraints: Constraints, w: Weights)
    requires c.key in constraints && Covers(w, c.column) && Positive(w)
    requires forall n :: 0 <= n < |c.column| ==> c.column[n].count >= 0.0
    ensures Step(c, constraints, w).Ok? <==> constraints[c.key] > 0.0 && !Degenerate(c.column)
    ensures Step(c, constraints, w).Ok? ==> Positive(Step(c, constraints, w).value)
  {
    WeightedSumSign(c.column, w);
    var k := constraints[c.key];
    var s := WeightedSum(c.column, w);
    if k > 0.0 && s != 0.0 {
      var u := UpdateWeights(c.column, w, k);
      RatioPositive(k, s, 1.0);
      RescaledPositive(w, u, Ratio(c.column, w, k));
    }
  }

  /** From positive weights a sweep fails exactly when some remaining column
      has a non-positive target or counts nothing, and otherwise leaves every
      weight positive. */
  lemma {:induction false} SweepSucceeds(cols: seq<KeyedColumn>, constraints: Constraints, w: Weights, i: nat)
    requires i <= |cols| && CoversAll(w, cols) && KeysIn(cols, constraints) && Positive(w) && NonNegative(cols)
    ensures SweepFrom(cols, constraints, w, i).Ok? <==> Feasible(cols, constraints, i)
    ensures SweepFrom(cols, constraints, w, i).Ok? ==> Positive(SweepFrom(cols, constraints, w, i).value)
    decreases |cols| - i
  {
    if i < |cols| {
      assert Feasible(cols, constraints, i) <==>
        constraints[cols[i].key] > 0.0 && !Degenerate(cols[i].column) && Feasible(cols, constraints, i + 1);
      StepSucceeds(cols[i], constraints, w);
      var r := Step(cols[i], constraints, w);
      if r.Ok? {
        SweepSucceeds(cols, constraints, r.value, i + 1);
      }
    }
  }

  /** The sweeps after the done-th are the next sweep followed by the ones
      after it. */
  lemma SweepsNext(cols: seq<KeyedColumn>, constraints: Constraints, w: Weights, done: nat, n: nat)
    requires KeysIn(cols, constraints) && CoversAll(w, cols) && done < n
    requires SweepFrom(cols, constraints, w, 0).Ok?
    ensures CoversAll(SweepFrom(cols, constraints, w, 0).value, cols)
    ensures Sweeps(cols, constraints, w, done, n) == Sweeps(cols, constraints, SweepFrom(cols, constraints, w, 0).value, done + 1, n)
  {
    SameKeysCover(w, SweepFrom(cols, constraints, w, 0).value, cols);
  }

  /** A successful run reports as its iteration count the number of sweeps
      it made, and returns the weights those sweeps leave. */
  lemma {:induction false} RunCountsSweeps(t: FrequencyTable, constraints: Constraints, convergence: real, cap: nat,
                                           w: Weights, done: nat)
    requires |Columns(t)| > 0 && KeysIn(Columns(t), constraints) && CoversAll(w, Columns(t)) && done < cap
    ensures var r := Run(t, constraints, convergence, cap, w, done);
      r.Ok? ==>
        && done < r.value.iterations
        && Sweeps(Columns(t), constraints, w, done, r.value.iterations) == Ok(r.value.weights)
    decreases cap - done
  {
    var s := SweepFrom(Columns(t), constraints, w, 0);
    if s.Ok? {
      SameKeysCover(w, s.value, Columns(t));
      var f := AverageFitQuality(t, s.value, constraints);
      if f > convergence && done + 1 < cap {
        RunCountsSweeps(t, constraints, convergence, cap, s.value, done + 1);
        var r := Run(t, constraints, convergence, cap, s.value, done + 1);
        if r.Ok? {
          SweepsNext(Columns(t), constraints, w, done, r.value.iterations);
        }
      } else {
        SweepsNext(Columns(t), constraints, w, done, done + 1);
      }
    }
  }

  /** A successful run stops at the first sweep whose average fit is at most
      the threshold: every sweep before its last left an average fit above it. */
  lemma {:induction false} RunStopsAtFirst(t: FrequencyTable, constraints: Constraints, convergence: real, cap: nat,
                                           w: Weights, done: nat)
    requires |Columns(t)| > 0 && KeysIn(Columns(t), constraints) && CoversAll(w, Columns(t)) && done < cap
    ensures var r := Run(t, constraints, convergence, cap, w, done);
      r.Ok? ==>
        && NonZero(Columns(t), constraints)
        && forall k :: done < k < r.value.iterations ==>
             && Sweeps(Columns(t), constraints, w, done, k).Ok?
             && AverageFitQuality(t, Sweeps(Columns(t), constraints, w, done, k).value, constraints) > convergence
    decreases cap - done
  {
    var s := SweepFrom(Columns(t), constraints, w, 0);
    if s.Ok? {
      SameKeysCover(w, s.value, Columns(t));
      var f := AverageFitQuality(t, s.value, constraints);
      if f > convergence && done + 1 < cap {
        RunStopsAtFirst(t, constraints, convergence, cap, s.value, done + 1);
        var r := Run(t, constraints, convergence, cap, s.value, done + 1);
        if r.Ok? {
          forall k | done < k < r.value.iterations
            ensures Sweeps(Columns(t), constraints, w, done, k).Ok?
            ensures AverageFitQuality(t, Sweeps(Columns(t), constraints, w, done, k).value, constraints) > convergence
          {
            SweepsNext(Columns(t), constraints, w, done, k);
          }
        }
      }
    }
  }

  /** What every successful run returns: a weight for the same households,
      an iteration count between done+1 and cap, and a status that says
      whether the fit reached the threshold or the cap was hit. */
  lemma {:induction false} RunOutcome(t: FrequencyTable, constraints: Constraints, convergence: real, cap: nat,
                                      w: Weights, done: nat)
    requires |Columns(t)| > 0 && KeysIn(Columns(t), constraints) && CoversAll(w, Columns(t)) && done < cap
    ensures var r := Run(t, constraints, convergence, cap, w, done);
      r.Ok? ==>
        && r.value.weights.Keys == w.Keys
        && done < r.value.iterations <= cap
        && (r.value.status == Converged <==> r.value.fitQuality <= convergence)
        && (r.value.status == Exhausted ==> r.value.iterations == cap)
    decreases cap - done
  {
    var s := SweepFrom(Columns(t), constraints, w, 0);
    if s.Ok? {
      SameKeysCover(w, s.value, Columns(t));
      var f := AverageFitQuality(t, s.value, constraints);
      if f > convergence && done + 1 < cap {
        RunOutcome(t, constraints, convergence, cap, s.value, done + 1);
      }
    }
  }

  /** The fit quality a successful run reports is the average fit quality of
      the weights it returns, and every constraint it used is positive. */
  lemma {:induction false} RunReportsAverage(t: FrequencyTable, constraints: Constraints, convergence: real, cap: nat,
                                             w: Weights, done: nat)
    requires |Columns(t)| > 0 && KeysIn(Columns(t), constraints) && CoversAll(w, Columns(t)) && done < cap
    ensures var r := Run(t, constraints, convergence, cap, w, done);
      r.Ok? ==>
        && CoversAll(r.value.weights, Columns(t)) && NonZero(Columns(t), constraints)
        && r.value.fitQuality == AverageFitQuality(t, r.value.weights, constraints)
    decreases cap - done
  {
    var s := SweepFrom(Columns(t), constraints, w, 0);
    if s.Ok? {
      SameKeysCover(w, s.value, Columns(t));
      var f := AverageFitQuality(t, s.value, constraints);
      if f > convergence && done + 1 < cap {
        RunReportsAverage(t, constraints, convergence, cap, s.value, done + 1);
      }
    }
  }

  /** The weights of a successful run put the last column of the sweep exactly
      on target. */
  lemma {:induction false} RunLastColumnFits(t: FrequencyTable, constraints: Constraints, convergence: real, cap: nat,
                                             w: Weights, done: nat)
    requires |Columns(t)| > 0 && KeysIn(Columns(t), constraints) && CoversAll(w, Columns(t)) && done < cap
    ensures var r := Run(t, constraints, convergence, cap, w, done);
      r.Ok? ==>
        && Covers(r.value.weights, Columns(t)[|Columns(t)| - 1].column)
        && WeightedSum(Columns(t)[|Columns(t)| - 1].column, r.value.weights)
           == constraints[Columns(t)[|Columns(t)| - 1].key]
    decreases cap - done
  {
    var s := SweepFrom(Columns(t), constraints, w, 0);
    if s.Ok? {
      SweepLastColumnFits(Columns(t), constraints, w, 0);
      SameKeysCover(w, s.value, Columns(t));
      var f := AverageFitQuality(t, s.value, constraints);
      if f > convergence && done + 1 < cap {
        RunLastColumnFits(t, constraints, convergence, cap, s.value, done + 1);
      }
    }
  }

  /** From positive weights a run fails exactly when some column has a
      non-positive target or counts nothing; a successful run returns
      positive weights. */
  lemma {:induction false} RunSucceeds(t: FrequencyTable, constraints: Constraints, convergence: real, cap: nat,
                                       w: Weights, done: nat)
    requires |Columns(t)| > 0 && KeysIn(Columns(t), constraints) && CoversAll(w, Columns(t)) && done < cap
    requires Positive(w) && NonNegative(Columns(t))
    ensures Run(t, constraints, convergence, cap, w, done).Ok? <==> Feasible(Columns(t), constraints, 0)
    ensures Run(t, constraints, convergence, cap, w, done).Ok? ==>
      Positive(Run(t, constraints, convergence, cap, w, done).value.weights)
    decreases cap - done
  {
    SweepSucceeds(Columns(t), constraints, w, 0);
    var s := SweepFrom(Columns(t), constraints, w, 0);
    if s.Ok? {
      SameKeysCover(w, s.value, Columns(t));
      var f := AverageFitQuality(t, s.value, constraints);
      if f > convergence && done + 1 < cap {
        RunSucceeds(t, constraints, convergence, cap, s.value, done + 1);
      }
    }
  }

  /** A fit returns a weight for every household of the table and an
      iteration count between one and cap; it is Converged exactly when its
      fit quality is at most the threshold, and Exhausted only at the cap. */
  lemma FitOutcome(t: FrequencyTable, constraints: Constraints, convergence: real, cap: nat)
    requires Valid(t) && |Columns(t)| > 0 && KeysIn(Columns(t), constraints) && cap > 0
    ensures var r := FitFromOnes(t, constraints, convergence, cap);
      r.Ok? ==>
        && r.value.weights.Keys == IndexSet(t)
        && 1 <= r.value.iterations <= cap
        && (r.value.status == Converged <==> r.value.fitQuality <= convergence)
        && (r.value.status == Exhausted ==> r.value.iterations == cap)
  {
    TableCovered(t, Ones(t.index));
    RunOutcome(t, constraints, convergence, cap, Ones(t.index), 0);
  }

  /** A fit reports as its iteration count the number of sweeps it made from
      all-ones weights and returns the weights those sweeps leave; it stops
      at the first sweep whose average fit is at most the threshold, or at
      the cap. */
  lemma FitStopsAtFirst(t: FrequencyTable, constraints: Constraints, convergence: real, cap: nat)
    requires Valid(t) && |Columns(t)| > 0 && KeysIn(Columns(t), constraints) && cap > 0
    ensures CoversAll(Ones(t.index), Columns(t))
    ensures var r := FitFromOnes(t, constraints, convergence, cap);
      r.Ok? ==>
        && NonZero(Columns(t), constraints)
        && Sweeps(Columns(t), constraints, Ones(t.index), 0, r.value.iterations) == Ok(r.value.weights)
        && CoversAll(r.value.weights, Columns(t))
        && (AverageFitQuality(t, r.value.weights, constraints) <= convergence || r.value.iterations == cap)
        && forall k :: 0 < k < r.value.iterations ==>
             && Sweeps(Columns(t), constraints, Ones(t.index), 0, k).Ok?
             && AverageFitQuality(t, Sweeps(Columns(t), constraints, Ones(t.index), 0, k).value, constraints) > convergence
  {
    TableCovered(t, Ones(t.index));
    RunCountsSweeps(t, constraints, convergence, cap, Ones(t.index), 0);
    RunStopsAtFirst(t, constraints, convergence, cap, Ones(t.index), 0);
    FitOutcome(t, constraints, convergence, cap);
    FitReportsAverage(t, constraints, convergence, cap);
  }

  /** The fit quality a fit reports is the average over all columns of the
      weights it returns, and those weights put the last column on target. */
  lemma FitReportsAverage(t: FrequencyTable, constraints: Constraints, convergence: real, cap: nat)
    requires Valid(t) && |Columns(t)| > 0 && KeysIn(Columns(t), constraints) && cap > 0
    ensures var r := FitFromOnes(t, constraints, convergence, cap);
      r.Ok? ==>
        && CoversAll(r.value.weights, Columns(t)) && NonZero(Columns(t), constraints)
        && r.value.fitQuality == AverageFitQuality(t, r.value.weights, constraints)
        && WeightedSum(Columns(t)[|Columns(t)| - 1].column, r.value.weights)
           == constraints[Columns(t)[|Columns(t)| - 1].key]
  {
    TableCovered(t, Ones(t.index));
    RunReportsAverage(t, constraints, convergence, cap, Ones(t.index), 0);
    RunLastColumnFits(t, constraints, convergence, cap, Ones(t.index), 0);
  }

  /** A fit of a valid table fails exactly when some column has a
      non-positive target or counts nothing; otherwise every weight it returns
      is positive. */
  lemma FitSucceeds(t: FrequencyTable, constraints: Constraints, convergence: real, cap: nat)
    requires Valid(t) && |Columns(t)| > 0 && KeysIn(Columns(t), constraints) && cap > 0
    ensures FitFromOnes(t, constraints, convergence, cap).Ok? <==> Feasible(Columns(t), constraints, 0)
    ensures FitFromOnes(t, constraints, convergence, cap).Ok? ==>
      Positive(FitFromOnes(t, constraints, convergence, cap).value.weights)
  {
    TableCovered(t, Ones(t.index));
    TableNonNegative(t);
    RunSucceeds(t, constraints, convergence, cap, Ones(t.index), 0);
  }

  // ---------------------------------------------------------------------------
  // The driver

  /** One sweep over the columns in table order, all updating one weight map:
      a column whose constraint is not positive, or whose weighted sum is zero
      when its turn comes, stops the fit with an error. */
  method Sweep(columns: seq<KeyedColumn>, constraints: Constraints, w: Weights) returns (r: Result<Weights>)
    requires CoversAll(w, columns) && KeysIn(columns, constraints)
    ensures r == SweepFrom(columns, constraints, w, 0)
  {
    var weights := w;
    var i := 0;
    while i < |columns|
      invariant 0 <= i <= |columns|
      invariant weights.Keys == w.Keys
      invariant SweepFrom(columns, constraints, weights, i) == SweepFrom(columns, constraints, w, 0)
    {
      var key := columns[i].key;
      var column := columns[i].column;
      var constraint := constraints[key];
      if constraint <= 0.0 {
        return Err(ZeroConstraint(key));
      }
      var sum := WeightedSum(column, weights);
      if sum == 0.0 {
        return Err(ZeroWeightedSum(key));
      }
      weights := weights + UpdateWeights(column, weights, constraint);
      i := i + 1;
    }
    return Ok(weights);
  }

  /** Fits household weights to the constraints: weights start at 1, each
      sweep updates the one weight map column by column in table order, and
      after each sweep the average fit quality is measured again. */
  method HouseholdWeights(t: FrequencyTable, constraints: Constraints, convergence: real, maxIterations: nat)
    returns (r: Result<Fit>)
    requires Valid(t) && |Columns(t)| > 0 && KeysIn(Columns(t), constraints) && maxIterations > 0
    ensures r == FitFromOnes(t, constraints, convergence, maxIterations)
  {
    var columns := Columns(t);
    var weights := Ones(t.index);
    var iterations := 0;
    TableCovered(t, weights);
    while true
      invariant iterations < maxIterations
      invariant CoversAll(weights, columns)
      invariant Run(t, constraints, convergence, maxIterations, weights, iterations)
             == FitFromOnes(t, constraints, convergence, maxIterations)
      decreases maxIterations - iterations
    {
      var swept := Sweep(columns, constraints, weights);
      if swept.Err? {
        return Err(swept.error);
      }
      SameKeysCover(weights, swept.value, columns);
      weights := swept.value;
      var fitQuality := AverageFitQuality(t, weights, constraints);
      iterations := iterations + 1;
      if fitQuality <= convergence {
        return Ok(Fit(weights, fitQuality, iterations, Converged));
      }
      if iterations == maxIterations {
        return Ok(Fit(weights, fitQuality, iterations, Exhausted));
      }
    }
  }
}
