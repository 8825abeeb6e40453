/**
 The eight-household, five-column table of the IPU tests, its constraints and
 the weight vectors the tests feed in, with the values the tests expect
 derived here in exact arithmetic.
 */
module IpuFixtures {
  import opened FrequencyTables
  import opened Ipu

  const Index: seq<HouseholdId> := [1, 2, 3, 4, 5, 6, 7, 8]

  const HouseholdOne: Column := [Entry(1, 1.0), Entry(2, 1.0), Entry(3, 1.0)]
  const HouseholdTwo: Column := [Entry(4, 1.0), Entry(5, 1.0), Entry(6, 1.0), Entry(7, 1.0), Entry(8, 1.0)]
  const PersonOne: Column :=
    [Entry(1, 1.0), Entry(2, 1.0), Entry(3, 2.0), Entry(4, 1.0), Entry(6, 1.0), Entry(7, 2.0), Entry(8, 1.0)]
  const PersonTwo: Column :=
    [Entry(1, 1.0), Entry(3, 1.0), Entry(5, 2.0), Entry(6, 1.0), Entry(7, 1.0), Entry(8, 1.0)]
  const PersonThree: Column := [Entry(1, 1.0), Entry(2, 1.0), Entry(4, 2.0), Entry(5, 1.0), Entry(7, 2.0)]

  const Table: FrequencyTable := FrequencyTable(
    Index,
    [Indicator(1, HouseholdOne), Indicator(2, HouseholdTwo)],
    [Indicator(1, PersonOne), Indicator(2, PersonTwo), Indicator(3, PersonThree)])

  const Targets: Constraints := map[
    ColumnKey(Household, 1) := 35.0,
    ColumnKey(Household, 2) := 65.0,
    ColumnKey(Person, 1) := 91.0,
    ColumnKey(Person, 2) := 65.0,
    ColumnKey(Person, 3) := 104.0]

  /** The non-uniform weights of the fit-quality and average tests. */
  const SecondWeights: Weights := map[
    1 := 12.37, 2 := 14.61, 3 := 8.05, 4 := 16.28, 5 := 16.91, 6 := 8.97, 7 := 13.78, 8 := 8.97]

  /** The weights of the person/3 update test, already restricted to the
      column's households. */
  const PersonThreeWeights: Weights := map[1 := 8.05, 2 := 9.51, 4 := 10.59, 5 := 11.0, 7 := 8.97]

  /** All-ones weights restricted to household/1's households. */
  const HouseholdOneOnes: Weights := map[1 := 1.0, 2 := 1.0, 3 := 1.0]

  /** A sweep visits household/1, household/2, person/1, person/2, person/3. */
  lemma SweepOrder()
    ensures Columns(Table) == [
      KeyedColumn(ColumnKey(Household, 1), HouseholdOne),
      KeyedColumn(ColumnKey(Household, 2), HouseholdTwo),
      KeyedColumn(ColumnKey(Person, 1), PersonOne),
      KeyedColumn(ColumnKey(Person, 2), PersonTwo),
      KeyedColumn(ColumnKey(Person, 3), PersonThree)]
  {
  }

  lemma IndexDistinct()
    ensures Distinct(Index)
  {
  }

  lemma HouseholdOneValid() ensures ValidColumn(HouseholdOne, Index) {}
  lemma HouseholdTwoValid() ensures ValidColumn(HouseholdTwo, Index) {}
  lemma PersonOneValid() ensures ValidColumn(PersonOne, Index) {}
  lemma PersonTwoValid() ensures ValidColumn(PersonTwo, Index) {}
  lemma PersonThreeValid() ensures ValidColumn(PersonThree, Index) {}

  lemma ColumnsOverIndex()
    ensures forall j :: 0 <= j < |Columns(Table)| ==> ValidColumn(Columns(Table)[j].column, Index)
  {
    SweepOrder();
    HouseholdOneValid();
    HouseholdTwoValid();
    PersonOneValid();
    PersonTwoValid();
    PersonThreeValid();
  }

  lemma KeysDistinct()
    ensures forall i, j :: 0 <= i < j < |Columns(Table)| ==> Columns(Table)[i].key != Columns(Table)[j].key
  {
    SweepOrder();
  }

  /** The fixture is a well-formed table. */
  lemma TableIsValid()
    ensures Valid(Table)
  {
    IndexDistinct();
    ColumnsOverIndex();
    KeysDistinct();
  }

  /** All-ones weights over the index give every household of a column weight 1. */
  lemma OnesOver(col: Column)
    requires forall i :: 0 <= i < |col| ==> col[i].id in Index
    ensures Covers(Ones(Index), col)
    ensures WeightedSum(col, Ones(Index)) == CountTotal(col)
  {
    WeightedSumOfOnes(col, Ones(Index));
  }

  lemma HouseholdOneFromOnes()
    ensures Covers(Ones(Index), HouseholdOne) && WeightedSum(HouseholdOne, Ones(Index)) == 3.0
    ensures FitQuality(HouseholdOne, Ones(Index), 35.0) == 32.0 / 35.0
  {
    OnesOver(HouseholdOne);
  }

  lemma HouseholdOneUnderSecondWeights()
    ensures Covers(SecondWeights, HouseholdOne) && WeightedSum(HouseholdOne, SecondWeights) == 35.03
    ensures FitQuality(HouseholdOne, SecondWeights, 35.0) == 3.0 / 3500.0
  {
  }

  lemma HouseholdTwoFromOnes()
    ensures Covers(Ones(Index), HouseholdTwo) && WeightedSum(HouseholdTwo, Ones(Index)) == 5.0
    ensures FitQuality(HouseholdTwo, Ones(Index), 65.0) == 12.0 / 13.0
  {
    OnesOver(HouseholdTwo);
  }

  lemma HouseholdTwoUnderSecondWeights()
    ensures Covers(SecondWeights, HouseholdTwo) && WeightedSum(HouseholdTwo, SecondWeights) == 64.91
    ensures FitQuality(HouseholdTwo, SecondWeights, 65.0) == 9.0 / 6500.0
  {
  }

  lemma PersonOneFromOnes()
    ensures Covers(Ones(Index), PersonOne) && WeightedSum(PersonOne, Ones(Index)) == 9.0
    ensures FitQuality(PersonOne, Ones(Index), 91.0) == 82.0 / 91.0
  {
    OnesOver(PersonOne);
  }

  lemma PersonOneUnderSecondWeights()
    ensures Covers(SecondWeights, PersonOne) && WeightedSum(PersonOne, SecondWeights) == 104.86
    ensures FitQuality(PersonOne, SecondWeights, 91.0) == 99.0 / 650.0
  {
  }

  lemma PersonTwoFromOnes()
    ensures Covers(Ones(Index), PersonTwo) && WeightedSum(PersonTwo, Ones(Index)) == 7.0
    ensures FitQuality(PersonTwo, Ones(Index), 65.0) == 58.0 / 65.0
  {
    OnesOver(PersonTwo);
  }

  lemma PersonTwoUnderSecondWeights()
    ensures Covers(SecondWeights, PersonTwo) && WeightedSum(PersonTwo, SecondWeights) == 85.96
    ensures FitQuality(PersonTwo, SecondWeights, 65.0) == 524.0 / 1625.0
  {
  }

  lemma PersonThreeFromOnes()
    ensures Covers(Ones(Index), PersonThree) && WeightedSum(PersonThree, Ones(Index)) == 7.0
    ensures FitQuality(PersonThree, Ones(Index), 104.0) == 97.0 / 104.0
  {
    OnesOver(PersonThree);
  }

  lemma PersonThreeUnderSecondWeights()
    ensures Covers(SecondWeights, PersonThree) && WeightedSum(PersonThree, SecondWeights) == 104.01
    ensures FitQuality(PersonThree, SecondWeights, 104.0) == 1.0 / 10400.0
  {
  }

  /** With every weight 1, household/1 sums to 3 of its 35 (households 4 to 8
      take no part), a fit quality of 32/35, about 0.9143. */
  lemma FitQualityHouseholdOneFromOnes()
    ensures Covers(Ones(Index), HouseholdOne)
    ensures FitQuality(HouseholdOne, Ones(Index), 35.0) == 32.0 / 35.0
    ensures Abs(FitQuality(HouseholdOne, Ones(Index), 35.0) - 0.9143) <= 0.0001
  {
    HouseholdOneFromOnes();
  }

  /** Under the second weights person/2 sums to 85.96 of its 65, household 5
      counting twice: a fit quality of 524/1625, about 0.3222. */
  lemma FitQualityPersonTwoSecondWeights()
    ensures Covers(SecondWeights, PersonTwo)
    ensures FitQuality(PersonTwo, SecondWeights, 65.0) == 524.0 / 1625.0
    ensures Abs(FitQuality(PersonTwo, SecondWeights, 65.0) - 0.3222) <= 0.0003
  {
    PersonTwoUnderSecondWeights();
  }

  /** The targets are keyed by the table's columns and all positive. */
  lemma TargetsPositive()
    ensures KeysIn(Columns(Table), Targets) && NonZero(Columns(Table), Targets)
    ensures forall j :: 0 <= j < |Columns(Table)| ==> Targets[Columns(Table)[j].key] > 0.0
  {
    SweepOrder();
  }

  /** The total fit quality of the table's columns under weights w, written
      out column by column. */
  lemma SumFitOfTable(w: Weights)
    requires Covers(w, HouseholdOne) && Covers(w, HouseholdTwo)
    requires Covers(w, PersonOne) && Covers(w, PersonTwo) && Covers(w, PersonThree)
    ensures CoversAll(w, Columns(Table)) && NonZero(Columns(Table), Targets)
    ensures SumFit(Columns(Table), w, Targets) ==
      FitQuality(HouseholdOne, w, 35.0) + FitQuality(HouseholdTwo, w, 65.0) + FitQuality(PersonOne, w, 91.0)
      + FitQuality(PersonTwo, w, 65.0) + FitQuality(PersonThree, w, 104.0)
  {
    SweepOrder();
    TargetsPositive();
    var cols := Columns(Table);
    assert SumFit(cols[4..], w, Targets) == FitQuality(PersonThree, w, 104.0) by {
      assert cols[4..][1..] == [];
    }
    assert SumFit(cols[3..], w, Targets) == FitQuality(PersonTwo, w, 65.0) + SumFit(cols[4..], w, Targets) by {
      assert cols[3..][1..] == cols[4..];
    }
    assert SumFit(cols[2..], w, Targets) == FitQuality(PersonOne, w, 91.0) + SumFit(cols[3..], w, Targets) by {
      assert cols[2..][1..] == cols[3..];
    }
    assert SumFit(cols[1..], w, Targets) == FitQuality(HouseholdTwo, w, 65.0) + SumFit(cols[2..], w, Targets) by {
      assert cols[1..][1..] == cols[2..];
    }
  }

  /** With every weight 1 the average fit quality is 2373/2600, about 0.9127:
      the mean over the household-level and the person-level columns. */
  lemma AverageFromOnes()
    ensures CoversAll(Ones(Index), Columns(Table)) && NonZero(Columns(Table), Targets)
    ensures AverageFitQuality(Table, Ones(Index), Targets) == 2373.0 / 2600.0
    ensures Abs(AverageFitQuality(Table, Ones(Index), Targets) - 0.9127) <= 0.0001
  {
    HouseholdOneFromOnes();
    HouseholdTwoFromOnes();
    PersonOneFromOnes();
    PersonTwoFromOnes();
    PersonThreeFromOnes();
    SumFitOfTable(Ones(Index));
    SweepOrder();
  }

  /** Under the second weights the average fit quality is 13359/140000, about
      0.0954. */
  lemma AverageUnderSecondWeights()
    ensures CoversAll(SecondWeights, Columns(Table)) && NonZero(Columns(Table), Targets)
    ensures AverageFitQuality(Table, SecondWeights, Targets) == 13359.0 / 140000.0
    ensures Abs(AverageFitQuality(Table, SecondWeights, Targets) - 0.0954) <= 0.0001
  {
    HouseholdOneUnderSecondWeights();
    HouseholdTwoUnderSecondWeights();
    PersonOneUnderSecondWeights();
    PersonTwoUnderSecondWeights();
    PersonThreeUnderSecondWeights();
    SumFitOfTable(SecondWeights);
    SweepOrder();
    var total := SumFit(Columns(Table), SecondWeights, Targets);
    assert total == 3.0 / 3500.0 + 9.0 / 6500.0 + 99.0 / 650.0 + 524.0 / 1625.0 + 1.0 / 10400.0;
    assert AverageFitQuality(Table, SecondWeights, Targets) == total / 5.0;
  }

  lemma IdsOfHouseholdOne()
    ensures Ids(HouseholdOne) == {1, 2, 3}
  {
    assert HouseholdOne[0].id == 1 && HouseholdOne[1].id == 2 && HouseholdOne[2].id == 3;
  }

  lemma IdsOfPersonThree()
    ensures Ids(PersonThree) == {1, 2, 4, 5, 7}
  {
    assert PersonThree[0].id == 1 && PersonThree[1].id == 2 && PersonThree[2].id == 4;
    assert PersonThree[3].id == 5 && PersonThree[4].id == 7;
  }

  /** Updating household/1 from weights of 1 gives its three households 35/3
      each, about 11.67. */
  lemma UpdateHouseholdOneFromOnes()
    ensures Covers(HouseholdOneOnes, HouseholdOne) && WeightedSum(HouseholdOne, HouseholdOneOnes) == 3.0
    ensures UpdateWeights(HouseholdOne, HouseholdOneOnes, 35.0) == map[1 := 35.0 / 3.0, 2 := 35.0 / 3.0, 3 := 35.0 / 3.0]
    ensures forall h :: h in UpdateWeights(HouseholdOne, HouseholdOneOnes, 35.0) ==>
      Abs(UpdateWeights(HouseholdOne, HouseholdOneOnes, 35.0)[h] - 11.67) <= 0.01
  {
    IdsOfHouseholdOne();
    var r := UpdateWeights(HouseholdOne, HouseholdOneOnes, 35.0);
    assert Ratio(HouseholdOne, HouseholdOneOnes, 35.0) == 35.0 / 3.0;
    assert r[1] == 35.0 / 3.0 && r[2] == 35.0 / 3.0 && r[3] == 35.0 / 3.0;
  }

  /** Updating person/3 scales all five of its households by 104/67.68, the
      two that count 2 (households 4 and 7) included. */
  lemma UpdatePersonThree()
    ensures Covers(PersonThreeWeights, PersonThree) && WeightedSum(PersonThree, PersonThreeWeights) == 67.68
    ensures UpdateWeights(PersonThree, PersonThreeWeights, 104.0) == map[
      1 := 10465.0 / 846.0, 2 := 4121.0 / 282.0, 4 := 4589.0 / 282.0, 5 := 7150.0 / 423.0, 7 := 3887.0 / 282.0]
    ensures var r := UpdateWeights(PersonThree, PersonThreeWeights, 104.0);
      && Abs(r[1] - 12.37) <= 0.01 && Abs(r[2] - 14.61) <= 0.01 && Abs(r[4] - 16.28) <= 0.01
      && Abs(r[5] - 16.91) <= 0.01 && Abs(r[7] - 13.78) <= 0.01
  {
    IdsOfPersonThree();
    var r := UpdateWeights(PersonThree, PersonThreeWeights, 104.0);
    assert Ratio(PersonThree, PersonThreeWeights, 104.0) == 104.0 / 67.68;
    assert r[1] == 10465.0 / 846.0 && r[2] == 4121.0 / 282.0 && r[4] == 4589.0 / 282.0;
    assert r[5] == 7150.0 / 423.0 && r[7] == 3887.0 / 282.0;
  }

  /** Every column of the fixture counts something. */
  lemma NoColumnDegenerate()
    ensures forall j :: 0 <= j < |Columns(Table)| ==> !Degenerate(Columns(Table)[j].column)
  {
    SweepOrder();
    assert HouseholdOne[0].count != 0.0 && HouseholdTwo[0].count != 0.0 && PersonOne[0].count != 0.0;
    assert PersonTwo[0].count != 0.0 && PersonThree[0].count != 0.0;
  }

  /** Every column of the fixture has a positive target and counts something. */
  lemma FixtureFeasible()
    ensures KeysIn(Columns(Table), Targets) && Feasible(Columns(Table), Targets, 0)
  {
    TargetsPositive();
    NoColumnDegenerate();
  }

  lemma IndexHouseholds()
    ensures IndexSet(Table) == {1, 2, 3, 4, 5, 6, 7, 8}
  {
  }

  /** Fitting the fixture with threshold 1e-7 succeeds whatever the cap, with a
      positive weight for each of the eight households after between one and
      cap sweeps. */
  lemma FixtureFits(cap: nat)
    requires cap > 0
    ensures Valid(Table) && |Columns(Table)| > 0 && KeysIn(Columns(Table), Targets)
    ensures var r := FitFromOnes(Table, Targets, 0.0000001, cap);
      && r.Ok?
      && r.value.weights.Keys == {1, 2, 3, 4, 5, 6, 7, 8}
      && Positive(r.value.weights)
      && 1 <= r.value.iterations <= cap
  {
    TableIsValid();
    FixtureFeasible();
    IndexHouseholds();
    FitSucceeds(Table, Targets, 0.0000001, cap);
    FitOutcome(Table, Targets, 0.0000001, cap);
  }
}
