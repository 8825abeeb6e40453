/**
 The frequency table that the IPU fitting engine reads. It is built elsewhere
 and is read-only for the duration of a fit: this module only gives its shape,
 its well-formedness invariant and the fixed order in which its columns are
 visited.
 */
module FrequencyTables {

  type HouseholdId = int

  /** One row of a sparse column: a household and its count for the category. */
  datatype Entry = Entry(id: HouseholdId, count: real)

  /** A sparse column, in index order. Households that are absent count 0 and
      take no part in any computation on the column. */
  type Column = seq<Entry>

  datatype Group = Household | Person

  /** Columns and constraints are both keyed by (group, category). */
  datatype ColumnKey = ColumnKey(group: Group, category: int)

  /** A column of one group, with its category id. */
  datatype Indicator = Indicator(category: int, column: Column)

  datatype KeyedColumn = KeyedColumn(key: ColumnKey, column: Column)

  datatype FrequencyTable = FrequencyTable(
    index: seq<HouseholdId>,
    householdCols: seq<Indicator>,
    personCols: seq<Indicator>)

  /** The households present in a column. */
  function Ids(col: Column): (r: set<HouseholdId>)
  {
    set i | 0 <= i < |col| :: col[i].id
  }

  /** The households of the table. */
  function IndexSet(t: FrequencyTable): (r: set<HouseholdId>)
  {
    set h | h in t.index
  }

  predicate Distinct(s: seq<HouseholdId>)
  {
    forall i, j :: 0 <= i < j < |s| ==> s[i] != s[j]
  }

  /** A column names each household once, only households of the index, and
      never a negative count. */
  predicate ValidColumn(col: Column, index: seq<HouseholdId>)
  {
    && (forall i, j :: 0 <= i < j < |col| ==> col[i].id != col[j].id)
    && (forall i :: 0 <= i < |col| ==> col[i].id in index && col[i].count >= 0.0)
  }

  function Keyed(group: Group, cols: seq<Indicator>): (r: seq<KeyedColumn>)
  {
    seq(|cols|, j requires 0 <= j < |cols| => KeyedColumn(ColumnKey(group, cols[j].category), cols[j].column))
  }

  /** Every column of the table in the order a sweep visits them: the
      household-level columns in their category order, then the person-level
      columns in theirs. */
  function Columns(t: FrequencyTable): (r: seq<KeyedColumn>)
    ensures |r| == |t.householdCols| + |t.personCols|
    ensures forall j :: 0 <= j < |t.householdCols| ==>
      r[j] == KeyedColumn(ColumnKey(Household, t.householdCols[j].category), t.householdCols[j].column)
    ensures forall j :: 0 <= j < |t.personCols| ==>
      r[|t.householdCols| + j] == KeyedColumn(ColumnKey(Person, t.personCols[j].category), t.personCols[j].column)
  {
    Keyed(Household, t.householdCols) + Keyed(Person, t.personCols)
  }

  /** The household-level columns come first in a sweep, and every column
      after them is a person-level one. */
  lemma HouseholdColumnsFirst(t: FrequencyTable)
    ensures forall j :: 0 <= j < |Columns(t)| ==>
      (Columns(t)[j].key.group == Household <==> j < |t.householdCols|)
    ensures forall i, j :: 0 <= i < j < |Columns(t)| && Columns(t)[j].key.group == Household ==>
      Columns(t)[i].key.group == Household
  {
    forall j | 0 <= j < |Columns(t)|
      ensures Columns(t)[j].key.group == Household <==> j < |t.householdCols|
    {
      if j >= |t.householdCols| {
        assert Columns(t)[|t.householdCols| + (j - |t.householdCols|)].key.group == Person;
      }
    }
  }

  /** The table invariant: distinct households, every column well formed over
      the index, and no (group, category) key used twice. */
  predicate Valid(t: FrequencyTable)
  {
    && Distinct(t.index)
    && (forall j :: 0 <= j < |Columns(t)| ==> ValidColumn(Columns(t)[j].column, t.index))
    && (forall i, j :: 0 <= i < j < |Columns(t)| ==> Columns(t)[i].key != Columns(t)[j].key)
  }
}
