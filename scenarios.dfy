/** The unit-test scenarios of the engine, replayed against the model. */
module Scenarios {
  import opened Wrappers
  import opened Errors
  import opened Values
  import opened SupportedTypes
  import opened Tables
  import opened WhereClauses
  import opened Queries
  import opened Text
  import opened Sequences

  /** Parsing type literals: exact matches only. */
  lemma SupportedTypeLiterals()
    ensures From("string") == Ok(STRING) && From("int") == Ok(INTEGER)
    ensures From("byte") == Err(IllegalArgument("Unsupported Type"))
    ensures From("String").Err? && From("Int").Err?
  {
  }

  /** LIKE with a number is rejected, LIKE with a string and EQUALS with
      either kind of value are accepted. */
  lemma WhereClauseConstruction()
    ensures NewWhereClause("name", LIKE, VInt(1))
              == Err(IllegalArgument("Operator 'like' should be utilized with String values."))
    ensures NewWhereClause("name", LIKE, VStr("Ali")) == Ok(WhereClause("name", LIKE, VStr("Ali")))
    ensures NewWhereClause("age", EQUALS, VInt(25)).Ok?
  {
  }

  lemma SmallNumbers()
    ensures NatToString(0) == "0" && NatToString(1) == "1" && NatToString(2) == "2"
  {
    assert DigitChar(0) == '0' && DigitChar(1) == '1' && DigitChar(2) == '2';
  }

  /** The message of the size mismatch error. */
  lemma SizeMismatchMessage()
    ensures SizeMismatchError(1, 2).message
              == "Record size (" + "1" + ") does not match attributes size (" + "2" + ")."
  {
    SmallNumbers();
  }

  /** The messages of the field type errors. */
  lemma FieldTypeMessages()
    ensures FieldTypeError(1, INTEGER).message == "Field at index 1 must be an Integer."
    ensures FieldTypeError(0, STRING).message == "Field at index 0 must be a String."
  {
    SmallNumbers();
  }

  method RenameTable() {
    var table := new Table();
    table.ChangeName("Users");
    assert table.name == "Users";
  }

  method DefineAttributesOnce() {
    var table := new Table();
    var fields := [("name", STRING), ("age", INTEGER)];
    assert Names(fields) == ["name", "age"];
    ToSchemaOfDistinct(fields);
    var err := table.InitializeAttributes(fields);
    assert err == None && table.CurrentAttributes() == fields;
    err := table.InitializeAttributes(fields);
    assert err == Some(IllegalState("Attribute list cannot be reinitialized."));
    assert table.CurrentAttributes() == fields;

    var other := new Table();
    err := other.InitializeAttributes([]);
    assert err == Some(IllegalArgument("Attribute list cannot be empty."));
  }

  /** A table with the schema (name STRING, age INTEGER). */
  method PersonTable() returns (table: Table)
    ensures fresh(table) && table.Valid()
    ensures table.attributes == [("name", STRING), ("age", INTEGER)] && table.records == []
  {
    table := new Table();
    var fields := [("name", STRING), ("age", INTEGER)];
    assert Names(fields) == ["name", "age"];
    ToSchemaOfDistinct(fields);
    var err := table.InitializeAttributes(fields);
  }

  const Person: Schema := [("name", STRING), ("age", INTEGER)]
  const AliceRow: Row := [VStr("Alice"), VInt(25)]
  const BobRow: Row := [VStr("Bob"), VInt(30)]

  lemma PersonRowsPass()
    ensures CheckBatch(Person, [AliceRow, BobRow]) == None
  {
    assert CheckRecord(Person, AliceRow) == None && CheckRecord(Person, BobRow) == None;
    var batch := [AliceRow, BobRow];
    assert batch[0] == AliceRow && batch[1] == BobRow;
  }

  lemma AliceRecordMap()
    ensures RecordMap(Person, AliceRow) == map["name" := VStr("Alice"), "age" := VInt(25)]
  {
    assert Person[1..] == [("age", INTEGER)] && AliceRow[1..] == [VInt(25)];
  }

  lemma BobRecordMap()
    ensures RecordMap(Person, BobRow) == map["name" := VStr("Bob"), "age" := VInt(30)]
  {
    assert Person[1..] == [("age", INTEGER)] && BobRow[1..] == [VInt(30)];
  }

  /** The two person rows stored under the schema's names. */
  lemma PersonRecords()
    ensures RecordMaps(Person, [AliceRow, BobRow])
              == [map["name" := VStr("Alice"), "age" := VInt(25)], map["name" := VStr("Bob"), "age" := VInt(30)]]
  {
    AliceRecordMap();
    BobRecordMap();
  }

  method InsertAgainstSchema() {
    var table := PersonTable();
    PersonRowsPass();
    PersonRecords();
    var err := table.InsertRecords([AliceRow, BobRow]);
    assert err == None;
    assert table.CurrentRecords() == [
      map["name" := VStr("Alice"), "age" := VInt(25)],
      map["name" := VStr("Bob"), "age" := VInt(30)]
    ];
  }

  method RejectWrongSize() {
    var table := PersonTable();
    var batch := [[VStr("Alice")]];
    assert CheckRecord(table.attributes, batch[0]) == Some(SizeMismatchError(1, 2));
    var err := table.InsertRecords(batch);
    assert err == Some(SizeMismatchError(1, 2));
    assert table.CurrentRecords() == [];
  }

  method RejectWrongType() {
    var table := PersonTable();
    var batch := [[VStr("Alice"), VStr("invalidAge")]];
    CheckRecordFirstMismatch(table.attributes, batch[0], 1);
    var err := table.InsertRecords(batch);
    assert err == Some(FieldTypeError(1, INTEGER));
    assert table.CurrentRecords() == [];
  }

  const Inferred: Schema := [(AttributeName(0), STRING), (AttributeName(1), INTEGER)]

  /** The schema inferred from a (string, integer) row. */
  lemma InferStringInt(row: Row)
    requires |row| == 2 && row[0].VStr? && row[1].VInt?
    ensures InferSchema(row) == Ok(Inferred)
  {
    var s := InferSchema(row).value;
    assert Admits(s[0].1, row[0]) && Admits(s[1].1, row[1]);
    assert s == [s[0], s[1]];
  }

  lemma InferredNames()
    ensures AttributeName(0) == "attribute_0" && AttributeName(1) == "attribute_1"
  {
    SmallNumbers();
  }

  lemma InferredRecordMaps()
    ensures RecordMap(Inferred, AliceRow) == map["attribute_0" := VStr("Alice"), "attribute_1" := VInt(25)]
    ensures RecordMap(Inferred, BobRow) == map["attribute_0" := VStr("Bob"), "attribute_1" := VInt(30)]
  {
    InferredNames();
    assert Inferred[1..] == [("attribute_1", INTEGER)];
    assert AliceRow[1..] == [VInt(25)] && BobRow[1..] == [VInt(30)];
  }

  /** Without a schema, the first row's types name `attribute_0` and
      `attribute_1`, both rows pass, and they are stored under those names. */
  lemma InferPersonRows()
    ensures InsertSchema([], [AliceRow, BobRow]) == Ok(Inferred)
    ensures CheckBatch(Inferred, [AliceRow, BobRow]) == None
    ensures RecordMaps(Inferred, [AliceRow, BobRow])
              == [map["attribute_0" := VStr("Alice"), "attribute_1" := VInt(25)],
                  map["attribute_0" := VStr("Bob"), "attribute_1" := VInt(30)]]
  {
    InferStringInt(AliceRow);
    var batch := [AliceRow, BobRow];
    assert batch[0] == AliceRow && batch[1] == BobRow;
    assert CheckRecord(Inferred, AliceRow) == None && CheckRecord(Inferred, BobRow) == None;
    InferredRecordMaps();
  }

  method InsertWithoutSchema() {
    var table := new Table();
    InferredNames();
    InferPersonRows();
    var err := table.InsertRecords([AliceRow, BobRow]);
    assert err == None;
    assert table.CurrentAttributes() == [("attribute_0", STRING), ("attribute_1", INTEGER)];
    assert table.CurrentRecords() == [
      map["attribute_0" := VStr("Alice"), "attribute_1" := VInt(25)],
      map["attribute_0" := VStr("Bob"), "attribute_1" := VInt(30)]
    ];
  }

  /** A second row whose field types are swapped. */
  const SwappedRow: Row := [VInt(30), VStr("Bob")]

  /** The inferred schema stays even when a later row of the same batch is
      rejected, and then the batch is not stored. */
  lemma InferThenReject()
    ensures InsertSchema([], [AliceRow, SwappedRow]) == Ok(Inferred)
    ensures CheckBatch(Inferred, [AliceRow, SwappedRow]).Some?
  {
    InferStringInt(AliceRow);
    CheckRecordFirstMismatch(Inferred, SwappedRow, 0);
    assert [AliceRow, SwappedRow][1] == SwappedRow;
  }

  method InferenceSurvivesRejectedBatch() {
    var table := new Table();
    InferThenReject();
    var err := table.InsertRecords([AliceRow, SwappedRow]);
    assert table.CurrentAttributes() == Inferred;
    assert err.Some? && table.CurrentRecords() == [];
  }

  /** A batch whose first row is empty installs an empty schema and stores
      empty records; attributes can still be initialized afterwards. */
  method EmptyFirstRow() {
    var table := new Table();
    assert InferSchema([]) == Ok([]);
    assert CheckBatch([], [[], []]) == None by {
      assert CheckRecord([], []) == None;
    }
    var err := table.InsertRecords([[], []]);
    assert err == None && table.CurrentAttributes() == [];
    assert table.CurrentRecords() == [map[], map[]];
    err := table.InitializeAttributes([("name", STRING)]);
    assert err == None && table.CurrentAttributes() == [("name", STRING)];
  }

  method QueryTarget() {
    var query := new SelectQuery();
    assert query.Table() == Err(IllegalState("Table name for query is not initialized"));
    query.InitTargetTable("users");
    assert query.Table() == Ok("users");
    query.InitTargetTable("person");
    assert query.Table() == Ok("person");
  }

  const User1: Record := map["id" := VInt(1), "name" := VStr("Alice"), "age" := VInt(25)]
  const User2: Record := map["id" := VInt(2), "name" := VStr("Bob"), "age" := VInt(30)]
  const User3: Record := map["id" := VInt(3), "name" := VStr("Alice"), "age" := VInt(28)]
  const User3Ali: Record := map["id" := VInt(3), "name" := VStr("Ali"), "age" := VInt(28)]

  const AliceAged25: seq<ValidWhereClause> :=
    [WhereClause("name", EQUALS, VStr("Alice")), WhereClause("age", EQUALS, VInt(25))]
  const NameLikeAli: seq<ValidWhereClause> := [WhereClause("name", LIKE, VStr("Ali"))]

  lemma IdAndName()
    ensures Distinct(["id", "name"]) == ["id", "name"]
  {
    DistinctOfNoDup(["id", "name"]);
  }

  lemma EqualsVerdicts()
    ensures AllHold(AliceAged25, User1) && !AllHold(AliceAged25, User2) && !AllHold(AliceAged25, User3)
  {
    assert !Holds(AliceAged25[0], User2) && !Holds(AliceAged25[1], User3);
  }

  lemma EqualsFilter()
    ensures Filter(AliceAged25, [User1, User2, User3]) == [User1]
  {
    EqualsVerdicts();
    assert Filter(AliceAged25, [User3]) == [];
    assert [User1, User2, User3][1..] == [User2, User3] && [User2, User3][1..] == [User3];
  }

  lemma AliOccurrences()
    ensures Contains("Alice", "Ali") && Contains("Ali", "Ali") && !Contains("Bob", "Ali")
  {
    assert "Bob"[1..] == "ob" && "ob"[1..] == "b" && "b"[1..] == "";
    assert !Contains("", "Ali") && !Contains("b", "Ali") && !Contains("ob", "Ali");
    assert "Ali"[0] == 'A' && "Bob"[0] == 'B';
  }

  lemma LikeVerdicts()
    ensures AllHold(NameLikeAli, User1) && !AllHold(NameLikeAli, User2) && AllHold(NameLikeAli, User3Ali)
  {
    AliOccurrences();
    assert Holds(NameLikeAli[0], User1) && !Holds(NameLikeAli[0], User2) && Holds(NameLikeAli[0], User3Ali);
  }

  lemma LikeFilter()
    ensures Filter(NameLikeAli, [User1, User2, User3Ali]) == [User1, User3Ali]
  {
    LikeVerdicts();
    assert Filter(NameLikeAli, [User3Ali]) == [User3Ali];
    assert [User1, User2, User3Ali][1..] == [User2, User3Ali] && [User2, User3Ali][1..] == [User3Ali];
  }

  lemma Projections()
    ensures Project(User1, ["id", "name"]) == map["id" := VInt(1), "name" := VStr("Alice")]
    ensures Project(User3Ali, ["id", "name"]) == map["id" := VInt(3), "name" := VStr("Ali")]
  {
  }

  /** With columns selected, the result is the projected filtered list. */
  lemma SelectionIs(q: SelectQuery, records: seq<Record>, expected: seq<Record>)
    requires q.selectedColumns != []
    requires |expected| == |Filter(q.whereConditions, records)|
    requires forall i :: 0 <= i < |expected| ==>
               expected[i] == Project(Filter(q.whereConditions, records)[i], q.selectedColumns)
    ensures q.SelectedRecords(records) == Ok(expected)
  {
    var passed := Filter(q.whereConditions, records);
    var columns := q.selectedColumns;
    assert q.Columns().Ok?;
    var r := q.SelectedRecords(records);
    assert r == Ok(seq(|passed|, i requires 0 <= i < |passed| => Project(passed[i], columns)));
    assert r.value == expected;
  }

  lemma EqualsSelection(q: SelectQuery)
    requires q.selectedColumns == ["id", "name"] && q.whereConditions == AliceAged25
    ensures q.SelectedRecords([User1, User2, User3]) == Ok([map["id" := VInt(1), "name" := VStr("Alice")]])
  {
    EqualsFilter();
    Projections();
    SelectionIs(q, [User1, User2, User3], [map["id" := VInt(1), "name" := VStr("Alice")]]);
  }

  lemma LikeSelection(q: SelectQuery)
    requires q.selectedColumns == ["id", "name"] && q.whereConditions == NameLikeAli
    ensures q.SelectedRecords([User1, User2, User3Ali])
              == Ok([map["id" := VInt(1), "name" := VStr("Alice")], map["id" := VInt(3), "name" := VStr("Ali")]])
  {
    LikeFilter();
    Projections();
    SelectionIs(q, [User1, User2, User3Ali],
                [map["id" := VInt(1), "name" := VStr("Alice")], map["id" := VInt(3), "name" := VStr("Ali")]]);
  }

  method SelectWithEquals() {
    var query := new SelectQuery();
    query.InitTargetTable("users");
    IdAndName();
    query.AddColumns(["id", "name"]);
    query.AddWhereConditions(AliceAged25);
    EqualsSelection(query);
    var result := query.SelectedRecords([User1, User2, User3]);
    assert result == Ok([map["id" := VInt(1), "name" := VStr("Alice")]]);
  }

  method SelectWithoutColumns() {
    var query := new SelectQuery();
    query.InitTargetTable("users");
    query.AddWhereConditions([WhereClause("name", EQUALS, VStr("Alice"))]);
    assert query.PredicateRecord(User1);
    assert query.SelectedRecords([User1]) == Err(IllegalState("Selected columns for query are not set"));
    assert query.SelectedRecords([]) == Ok([]);
    assert query.SelectedRecords([User2]) == Ok([]);
  }

  /** Without columns an empty surviving record is projected without error. */
  method SelectEmptyRecordWithoutColumns() {
    var query := new SelectQuery();
    assert query.PredicateRecord(map[]);
    assert Filter([], [map[]]) == [map[]];
    var result := query.SelectedRecords([map[]]);
    assert result.Ok? && |result.value| == 1;
    assert result.value[0].Keys == {};
    assert result.value[0] == map[];
    assert result.value == [map[]];
  }

  method SelectWithLike() {
    var query := new SelectQuery();
    IdAndName();
    query.AddColumns(["id", "name"]);
    query.InitTargetTable("users");
    query.AddWhereConditions(NameLikeAli);
    LikeSelection(query);
    var result := query.SelectedRecords([User1, User2, User3Ali]);
    assert result == Ok([map["id" := VInt(1), "name" := VStr("Alice")], map["id" := VInt(3), "name" := VStr("Ali")]]);
  }
}
