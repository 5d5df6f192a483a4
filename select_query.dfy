/** A select query: builder state (target table, columns, where clauses) and
    the filter-then-project evaluation of a list of records. */
module Queries {
  import opened Wrappers
  import opened Errors
  import opened Values
  import opened Text
  import opened Sequences
  import opened WhereClauses

  const TableNotInitializedError: Exception := IllegalState("Table name for query is not initialized")
  const ColumnsNotSetError: Exception := IllegalState("Selected columns for query are not set")

  /** One where clause on one record. A missing attribute fails both
      operators; LIKE also fails on a field that is not a string. */
  function Holds(c: ValidWhereClause, record: Record): (b: bool)
    ensures c.operator == EQUALS ==>
              (b <==> c.attributeName in record && record[c.attributeName] == c.value)
    ensures c.operator == LIKE ==>
              (b <==> c.attributeName in record && record[c.attributeName].VStr?
                      && IsSubstring(c.value.s, record[c.attributeName].s))
  {
    match c.operator
    case EQUALS => c.attributeName in record && record[c.attributeName] == c.value
    case LIKE =>
      if c.attributeName !in record then false
      else
        var fieldValue := record[c.attributeName];
        if !fieldValue.VStr? || !c.value.VStr? then false else Contains(fieldValue.s, c.value.s)
  }

  /** `conditions.all { … }`, evaluated left to right. */
  function AllHold(conditions: seq<ValidWhereClause>, record: Record): (b: bool)
    ensures b <==> forall i :: 0 <= i < |conditions| ==> Holds(conditions[i], record)
  {
    if conditions == [] then true
    else
      assert forall i :: 1 <= i < |conditions| ==> conditions[i] == conditions[1..][i - 1];
      Holds(conditions[0], record) && AllHold(conditions[1..], record)
  }

  /** `records.filter { predicateRecord(it) }`. */
  function Filter(conditions: seq<ValidWhereClause>, records: seq<Record>): (out: seq<Record>)
    ensures |out| <= |records|
    ensures forall rec :: rec in out <==> rec in records && AllHold(conditions, rec)
  {
    if records == [] then []
    else
      assert forall rec :: rec in records <==> rec == records[0] || rec in records[1..];
      (if AllHold(conditions, records[0]) then [records[0]] else []) + Filter(conditions, records[1..])
  }

  /** Filtering keeps the input order: it distributes over concatenation. */
  lemma {:induction false} FilterConcat(conditions: seq<ValidWhereClause>, a: seq<Record>, b: seq<Record>)
    ensures Filter(conditions, a + b) == Filter(conditions, a) + Filter(conditions, b)
  {
    if a != [] {
      assert (a + b)[1..] == a[1..] + b;
      FilterConcat(conditions, a[1..], b);
    } else {
      assert a + b == b;
    }
  }

  /** Records that all pass are kept in full; records that all fail vanish. */
  lemma {:induction false} FilterAllOrNone(conditions: seq<ValidWhereClause>, records: seq<Record>)
    ensures (forall k :: 0 <= k < |records| ==> AllHold(conditions, records[k])) ==> Filter(conditions, records) == records
    ensures (forall k :: 0 <= k < |records| ==> !AllHold(conditions, records[k])) ==> Filter(conditions, records) == []
  {
    if records != [] {
      FilterAllOrNone(conditions, records[1..]);
      assert forall k :: 1 <= k < |records| ==> records[k] == records[1..][k - 1];
    }
  }

  /** `row.filterKeys { it in columns }`. */
  function Project(row: Record, columns: seq<string>): Record {
    map k | k in row && k in columns :: row[k]
  }

  /** `p` is `row` narrowed to `columns`: no key added, no value changed. */
  ghost predicate IsProjection(p: Record, row: Record, columns: seq<string>) {
    (forall k :: k in p <==> k in row && k in columns) && forall k :: k in p ==> p[k] == row[k]
  }

  /** Projection narrows a record: it keeps exactly the selected keys with
      their values, it leaves a record whose keys are all selected unchanged,
      and projecting twice onto the same columns is projecting once. */
  lemma ProjectNarrows(row: Record, columns: seq<string>)
    ensures IsProjection(Project(row, columns), row, columns)
    ensures Project(row, columns) == row <==> forall k :: k in row ==> k in columns
    ensures Project(Project(row, columns), columns) == Project(row, columns)
  {
    var p := Project(row, columns);
    if forall k :: k in row ==> k in columns {
      assert p.Keys == row.Keys;
    }
    assert Project(p, columns).Keys == p.Keys;
  }

  class SelectQuery {
    var selectedColumns: seq<string>
    var targetTable: Option<string>
    var whereConditions: seq<ValidWhereClause>

    constructor ()
      ensures selectedColumns == [] && targetTable == None && whereConditions == []
    {
      selectedColumns := [];
      targetTable := None;
      whereConditions := [];
    }

    method InitTargetTable(tableName: string)
      modifies this`targetTable
      ensures targetTable == Some(tableName)
      ensures Table() == Ok(tableName)
      ensures selectedColumns == old(selectedColumns) && whereConditions == old(whereConditions)
    {
      targetTable := Some(tableName);
    }

    /** Adds the distinct columns of this call, in first-occurrence order; a
        column already added by an earlier call is not filtered out. */
    method AddColumns(columns: seq<string>)
      modifies this`selectedColumns
      ensures selectedColumns == old(selectedColumns) + Distinct(columns)
      ensures targetTable == old(targetTable) && whereConditions == old(whereConditions)
    {
      selectedColumns := selectedColumns + Distinct(columns);
    }

    method AddWhereConditions(conditions: seq<ValidWhereClause>)
      modifies this`whereConditions
      ensures whereConditions == old(whereConditions) + conditions
      ensures targetTable == old(targetTable) && selectedColumns == old(selectedColumns)
    {
      whereConditions := whereConditions + conditions;
    }

    /** `table()`: the last target set, or an error before any was set. */
    function Table(): (r: Result<string, Exception>)
      reads this
      ensures r.Err? <==> targetTable.None?
      ensures r.Err? ==> r.error == TableNotInitializedError
      ensures r.Ok? ==> targetTable == Some(r.value)
    {
      match targetTable
      case Some(name) => Ok(name)
      case None => Err(TableNotInitializedError)
    }

    /** `columns()`: the selected columns, or an error when there are none. */
    function Columns(): (r: Result<seq<string>, Exception>)
      reads this
      ensures r.Err? <==> selectedColumns == []
      ensures r.Err? ==> r.error == ColumnsNotSetError
      ensures r.Ok? ==> r.value == selectedColumns
    {
      if selectedColumns == [] then Err(ColumnsNotSetError) else Ok(selectedColumns)
    }

    /** `predicateRecord`: the AND of all where clauses (true when there are
        none). */
    function PredicateRecord(record: Record): (b: bool)
      reads this
      ensures b <==> forall i :: 0 <= i < |whereConditions| ==> Holds(whereConditions[i], record)
    {
      AllHold(whereConditions, record)
    }

    /** `selectedRecords`: the records passing every clause, in input order,
        each narrowed to the selected columns. `columns()` is consulted once
        per key of a surviving record, so the missing-columns error arises only
        when some surviving record has a key. */
    function SelectedRecords(records: seq<Record>): (r: Result<seq<Record>, Exception>)
      reads this
      ensures r.Err? <==> selectedColumns == [] &&
                          exists k :: 0 <= k < |records| && PredicateRecord(records[k]) && records[k] != map[]
      ensures r.Err? ==> r.error == ColumnsNotSetError
      ensures r.Ok? ==> |r.value| == |Filter(whereConditions, records)| <= |records|
      ensures r.Ok? ==> forall i :: 0 <= i < |r.value| ==>
                          IsProjection(r.value[i], Filter(whereConditions, records)[i], selectedColumns)
    {
      var passed := Filter(whereConditions, records);
      var columns := selectedColumns;
      if Columns().Err? && exists rec :: rec in passed && rec != map[] then
        Err(Columns().error)
      else
        Ok(seq(|passed|, i requires 0 <= i < |passed| => Project(passed[i], columns)))
    }
  }
}
