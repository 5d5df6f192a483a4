/** A table: a name, an ordered schema fixed once (explicitly or inferred from
    the first inserted batch) and an append-only list of records whose fields
    are checked against the schema before a batch is stored. */
module Tables {
  import opened Wrappers
  import opened Errors
  import opened Values
  import opened SupportedTypes
  import opened Text
  import opened Sequences

  /** A schema entry: attribute name and type. */
  type Attribute = (string, SupportedType)

  /** The attribute map in iteration order; `Valid` schemas have distinct
      names, which is what backing it by a map guarantees. */
  type Schema = seq<Attribute>

  const ReinitializedError: Exception := IllegalState("Attribute list cannot be reinitialized.")
  const EmptyAttributesError: Exception := IllegalArgument("Attribute list cannot be empty.")
  const EmptyRecordsError: Exception := IllegalArgument("Cannot infer attributes from empty records.")
  const UnsupportedFieldError: Exception := IllegalArgument("Unsupported type for field value.")

  function SizeMismatchError(recordSize: nat, attributesSize: nat): Exception {
    IllegalArgument("Record size (" + NatToString(recordSize) + ") does not match attributes size ("
                    + NatToString(attributesSize) + ").")
  }

  function FieldTypeError(index: nat, expected: SupportedType): Exception {
    match expected
    case STRING => IllegalArgument("Field at index " + NatToString(index) + " must be a String.")
    case INTEGER => IllegalArgument("Field at index " + NatToString(index) + " must be an Integer.")
  }

  /** The tail of a field-type message, chosen by the attribute's type. */
  function MustBe(expected: SupportedType): string {
    match expected
    case STRING => " must be a String."
    case INTEGER => " must be an Integer."
  }

  /** A size-mismatch message names both sizes: different sizes give
      different messages. */
  lemma SizeMismatchErrorInjective(n: nat, m: nat, n': nat, m': nat)
    ensures SizeMismatchError(n, m) == SizeMismatchError(n', m') ==> n == n' && m == m'
  {
    if SizeMismatchError(n, m) == SizeMismatchError(n', m') {
      var mid, tail := ") does not match attributes size (", ").";
      assert mid[0] == ')' && tail[0] == ')';
      TwoNumberMessage("Record size (", n, mid, m, tail, n', m');
    }
  }

  /** A field-type message names the index and the expected type: different
      (index, type) pairs give different messages. */
  lemma FieldTypeErrorInjective(i: nat, t: SupportedType, j: nat, u: SupportedType)
    ensures FieldTypeError(i, t) == FieldTypeError(j, u) ==> i == j && t == u
  {
    if FieldTypeError(i, t) == FieldTypeError(j, u) {
      var head := "Field at index ";
      assert FieldTypeError(i, t).message == head + NatToString(i) + MustBe(t);
      assert FieldTypeError(j, u).message == head + NatToString(j) + MustBe(u);
      assert MustBe(t)[0] == ' ' && MustBe(u)[0] == ' ';
      OneNumberMessage(head, i, MustBe(t), j, MustBe(u));
      assert |MustBe(t)| == |MustBe(u)|;
    }
  }

  function Names(s: Schema): seq<string> {
    seq(|s|, i requires 0 <= i < |s| => s[i].0)
  }

  predicate DistinctNames(s: Schema) {
    NoDup(Names(s))
  }

  lemma NamesTail(s: Schema)
    requires s != []
    ensures Names(s) == [s[0].0] + Names(s[1..])
    ensures DistinctNames(s) ==> DistinctNames(s[1..]) && s[0].0 !in Names(s[1..])
  {
    assert Names(s) == [s[0].0] + Names(s[1..]);
    if DistinctNames(s) {
      forall i, j | 0 <= i < j < |s| - 1 ensures Names(s[1..])[i] != Names(s[1..])[j] {
        assert Names(s[1..])[i] == Names(s)[i + 1];
        assert Names(s[1..])[j] == Names(s)[j + 1];
      }
      forall i | 0 <= i < |s| - 1 ensures Names(s[1..])[i] != s[0].0 {
        assert Names(s[1..])[i] == Names(s)[i + 1];
        assert Names(s)[0] == s[0].0;
      }
    }
  }

  /** The type recorded for `key`, if any. */
  function Lookup(s: Schema, key: string): Option<SupportedType> {
    if s == [] then None else if s[0].0 == key then Some(s[0].1) else Lookup(s[1..], key)
  }

  // ---------------------------------------------------------------------------
  // `List<Pair<String, SupportedType>>.toMap()`: insertion into a linked hash
  // map, where a repeated key keeps its first position and takes the new value.

  function Put(s: Schema, key: string, t: SupportedType): Schema {
    if s == [] then [(key, t)]
    else if s[0].0 == key then [(key, t)] + s[1..]
    else [s[0]] + Put(s[1..], key, t)
  }

  function ToSchema(items: seq<Attribute>): Schema {
    if items == [] then []
    else
      var n := |items| - 1;
      Put(ToSchema(items[..n]), items[n].0, items[n].1)
  }

  /** The type the last pair naming `key` gives it. */
  function LastType(items: seq<Attribute>, key: string): Option<SupportedType> {
    if items == [] then None
    else if items[|items| - 1].0 == key then Some(items[|items| - 1].1)
    else LastType(items[..|items| - 1], key)
  }

  lemma {:induction false} PutNames(s: Schema, key: string, t: SupportedType)
    ensures Names(Put(s, key, t)) == if key in Names(s) then Names(s) else Names(s) + [key]
  {
    if s != [] {
      PutNames(s[1..], key, t);
      assert Names(s) == [s[0].0] + Names(s[1..]);
      if s[0].0 != key {
        assert Names(Put(s, key, t)) == [s[0].0] + Names(Put(s[1..], key, t));
      } else {
        assert Names(Put(s, key, t)) == [key] + Names(s[1..]);
      }
    }
  }

  lemma {:induction false} PutLookup(s: Schema, key: string, t: SupportedType, x: string)
    ensures Lookup(Put(s, key, t), x) == if x == key then Some(t) else Lookup(s, x)
  {
    if s != [] && s[0].0 != key {
      PutLookup(s[1..], key, t, x);
    }
  }

  /** The names of the installed schema are the distinct names of the list, in
      order of first occurrence: a repeated name is not added twice. */
  lemma {:induction false} ToSchemaNames(items: seq<Attribute>)
    ensures Names(ToSchema(items)) == Distinct(Names(items))
  {
    if items != [] {
      var n := |items| - 1;
      ToSchemaNames(items[..n]);
      PutNames(ToSchema(items[..n]), items[n].0, items[n].1);
      assert Names(items)[..n] == Names(items[..n]);
    }
  }

  /** Each name takes the type of its last occurrence in the list. */
  lemma {:induction false} ToSchemaLookup(items: seq<Attribute>, key: string)
    ensures Lookup(ToSchema(items), key) == LastType(items, key)
  {
    if items != [] {
      var n := |items| - 1;
      ToSchemaLookup(items[..n], key);
      PutLookup(ToSchema(items[..n]), items[n].0, items[n].1, key);
    }
  }

  /** A list with distinct names is installed exactly as given, in order. */
  lemma {:induction false} ToSchemaOfDistinct(items: seq<Attribute>)
    requires DistinctNames(items)
    ensures ToSchema(items) == items
  {
    if items != [] {
      var n := |items| - 1;
      assert Names(items[..n]) == Names(items)[..n];
      ToSchemaOfDistinct(items[..n]);
      assert items[n].0 == Names(items)[n];
      assert Names(items)[n] !in Names(items)[..n];
      PutFresh(items[..n], items[n].0, items[n].1);
      assert items[..n] + [items[n]] == items;
    }
  }

  lemma {:induction false} PutFresh(s: Schema, key: string, t: SupportedType)
    requires key !in Names(s)
    ensures Put(s, key, t) == s + [(key, t)]
  {
    if s != [] {
      assert Names(s)[0] == s[0].0;
      assert Names(s[1..]) == Names(s)[1..];
      PutFresh(s[1..], key, t);
    }
  }

  /** Whatever the list, the installed schema has distinct names, and it is
      empty only for an empty list. */
  lemma ToSchemaValid(items: seq<Attribute>)
    ensures DistinctNames(ToSchema(items))
    ensures ToSchema(items) == [] <==> items == []
  {
    ToSchemaNames(items);
    if items != [] {
      assert Names(items)[0] in Distinct(Names(items));
    }
  }

  // ---------------------------------------------------------------------------
  // Schema inference from the first record of a batch.

  function AttributeName(index: nat): string {
    "attribute_" + NatToString(index)
  }

  lemma AttributeNameInjective(i: nat, j: nat)
    ensures AttributeName(i) == AttributeName(j) ==> i == j
  {
    if AttributeName(i) == AttributeName(j) {
      assert NatToString(i) == AttributeName(i)[10..] == AttributeName(j)[10..] == NatToString(j);
      NatToStringInjective(i, j);
    }
  }

  /** The schema `initializeAttributesFromRecords` builds from a sample row:
      `attribute_<i>` typed after the i-th value, or the unsupported-type
      error if any value is neither a string nor an integer. */
  function InferSchema(sample: Row): (r: Result<Schema, Exception>)
    ensures r.Ok? <==> forall i :: 0 <= i < |sample| ==> !sample[i].VOther?
    ensures r.Err? ==> r.error == UnsupportedFieldError
    ensures r.Ok? ==> |r.value| == |sample| && DistinctNames(r.value)
    ensures r.Ok? ==> forall i :: 0 <= i < |sample| ==>
                        r.value[i].0 == AttributeName(i) && Admits(r.value[i].1, sample[i])
    ensures r.Ok? ==> CheckRecord(r.value, sample) == None
  {
    if forall i :: 0 <= i < |sample| ==> TypeOf(sample[i]).Some? then
      var s := seq(|sample|, i requires 0 <= i < |sample| => (AttributeName(i), TypeOf(sample[i]).value));
      forall i, j | 0 <= i < j < |s| ensures Names(s)[i] != Names(s)[j] {
        AttributeNameInjective(i, j);
      }
      Ok(s)
    else
      Err(UnsupportedFieldError)
  }

  // ---------------------------------------------------------------------------
  // Record validation.

  /** The per-field checks of `validateRecord` from position `from` on: the
      first field whose value the schema type does not admit is reported. */
  function CheckFields(s: Schema, row: Row, from: nat): (r: Option<Exception>)
    requires |row| == |s| && from <= |row|
    ensures r == None <==> forall i :: from <= i < |row| ==> Admits(s[i].1, row[i])
    ensures r.Some? ==> exists i :: from <= i < |row| && !Admits(s[i].1, row[i])
                          && (forall j :: from <= j < i ==> Admits(s[j].1, row[j]))
                          && r == Some(FieldTypeError(i, s[i].1))
    decreases |row| - from
  {
    if from == |row| then None
    else if !Admits(s[from].1, row[from]) then Some(FieldTypeError(from, s[from].1))
    else CheckFields(s, row, from + 1)
  }

  /** `validateRecord`: the size check first, then the field types in order. */
  function CheckRecord(s: Schema, row: Row): (r: Option<Exception>)
    ensures |row| != |s| ==> r == Some(SizeMismatchError(|row|, |s|))
    ensures r == None <==> |row| == |s| && forall i :: 0 <= i < |row| ==> Admits(s[i].1, row[i])
  {
    if |row| != |s| then Some(SizeMismatchError(|row|, |s|)) else CheckFields(s, row, 0)
  }

  /** A row of the right size is rejected at its first field of the wrong
      type, with the type the schema expects there. */
  lemma CheckRecordFirstMismatch(s: Schema, row: Row, i: nat)
    requires |row| == |s| && i < |row| && !Admits(s[i].1, row[i])
    requires forall j :: 0 <= j < i ==> Admits(s[j].1, row[j])
    ensures CheckRecord(s, row) == Some(FieldTypeError(i, s[i].1))
  {
    var r := CheckFields(s, row, 0);
    var i' :| 0 <= i' < |row| && !Admits(s[i'].1, row[i'])
              && (forall j :: 0 <= j < i' ==> Admits(s[j].1, row[j]))
              && r == Some(FieldTypeError(i', s[i'].1));
    assert !(i' < i) && !(i < i');
  }

  /** The error `records.map { validateRecord(it); … }` throws from row
      `from` on: that of the first row that fails, or none. */
  function CheckRows(s: Schema, batch: seq<Row>, from: nat): (r: Option<Exception>)
    requires from <= |batch|
    ensures r == None <==> forall k :: from <= k < |batch| ==> CheckRecord(s, batch[k]) == None
    ensures r.Some? ==> exists k :: from <= k < |batch| && CheckRecord(s, batch[k]) == r
                          && forall j :: from <= j < k ==> CheckRecord(s, batch[j]) == None
    decreases |batch| - from
  {
    if from == |batch| then None
    else if CheckRecord(s, batch[from]).Some? then CheckRecord(s, batch[from])
    else CheckRows(s, batch, from + 1)
  }

  function CheckBatch(s: Schema, batch: seq<Row>): Option<Exception> {
    CheckRows(s, batch, 0)
  }

  // ---------------------------------------------------------------------------
  // Record maps.

  /** `attributes.keys.zip(record).toMap()`: pairs names with values
      position by position (the shorter side bounds the pairing) and lets a
      later pair win over an earlier one with the same name. */
  function RecordMap(s: Schema, row: Row): (m: Record)
    ensures DistinctNames(s) && |row| == |s| ==>
              (forall k :: k in m <==> k in Names(s))
              && forall i :: 0 <= i < |s| ==> s[i].0 in m && m[s[i].0] == row[i]
    decreases |row|
  {
    if s == [] || row == [] then map[]
    else
      var rest := RecordMap(s[1..], row[1..]);
      NamesTail(s);
      map[s[0].0 := row[0]] + rest
  }

  /** A stored record: exactly the schema's names, each mapped to a value the
      attribute's type admits. */
  ghost predicate Conforms(rec: Record, s: Schema) {
    (forall k :: k in rec <==> k in Names(s))
    && forall i :: 0 <= i < |s| ==> s[i].0 in rec && Admits(s[i].1, rec[s[i].0])
  }

  /** A row that passes validation becomes a record conforming to the schema. */
  lemma RecordMapConforms(s: Schema, row: Row)
    requires DistinctNames(s) && CheckRecord(s, row) == None
    ensures Conforms(RecordMap(s, row), s)
  {
  }

  /** Every record in a table conforms to an empty schema only if it is empty. */
  lemma ConformsEmpty(rec: Record)
    requires Conforms(rec, [])
    ensures rec == map[]
  {
    assert Names([]) == [];
    assert rec.Keys == {};
  }

  function RecordMaps(s: Schema, batch: seq<Row>): seq<Record> {
    seq(|batch|, k requires 0 <= k < |batch| => RecordMap(s, batch[k]))
  }

  /** A batch that passes validation becomes one conforming record per row,
      in the batch's order. */
  lemma RecordMapsConform(s: Schema, batch: seq<Row>)
    requires DistinctNames(s) && CheckBatch(s, batch) == None
    ensures |RecordMaps(s, batch)| == |batch|
    ensures forall k :: 0 <= k < |batch| ==>
              Conforms(RecordMaps(s, batch)[k], s) && RecordMaps(s, batch)[k] == RecordMap(s, batch[k])
  {
    forall k | 0 <= k < |batch|
      ensures Conforms(RecordMaps(s, batch)[k], s)
    {
      RecordMapConforms(s, batch[k]);
    }
  }

  /** The schema an insertion works against: the current one, or the one
      inferred from the first row of the batch when there is none yet. */
  function InsertSchema(current: Schema, batch: seq<Row>): (r: Result<Schema, Exception>)
    ensures current != [] ==> r == Ok(current)
    ensures current == [] && batch == [] ==> r == Err(EmptyRecordsError)
    ensures current == [] && batch != [] ==> r == InferSchema(batch[0])
  {
    if current != [] then Ok(current)
    else if batch == [] then Err(EmptyRecordsError)
    else InferSchema(batch[0])
  }

  class Table {
    var name: string
    var attributes: Schema
    var records: seq<Record>

    /** Attribute names are distinct, and every record conforms to the schema
        — or is empty, which the program lets happen when a batch whose first
        row is empty installs an empty inferred schema. */
    ghost predicate Valid()
      reads this
    {
      DistinctNames(attributes)
      && forall k :: 0 <= k < |records| ==> records[k] == map[] || Conforms(records[k], attributes)
    }

    constructor ()
      ensures Valid()
      ensures name == "" && attributes == [] && records == []
    {
      name := "";
      attributes := [];
      records := [];
    }

    /** The stored records, each conforming to the schema (or empty). */
    function CurrentRecords(): (rs: seq<Record>)
      reads this
      requires Valid()
      ensures forall k :: 0 <= k < |rs| ==> rs[k] == map[] || Conforms(rs[k], attributes)
    {
      records
    }

    /** The schema, a map from distinct names to types in insertion order. */
    function CurrentAttributes(): (s: Schema)
      reads this
      requires Valid()
      ensures DistinctNames(s)
      ensures forall i :: 0 <= i < |s| ==> Lookup(s, s[i].0) == Some(s[i].1)
    {
      LookupDistinct(attributes);
      attributes
    }

    method ChangeName(newName: string)
      requires Valid()
      modifies this`name
      ensures Valid()
      ensures name == newName
      ensures attributes == old(attributes) && records == old(records)
    {
      name := newName;
    }

    method InitializeAttributes(attributeItems: seq<Attribute>) returns (err: Option<Exception>)
      requires Valid()
      modifies this`attributes
      ensures Valid()
      ensures old(attributes) != [] ==> err == Some(ReinitializedError) && attributes == old(attributes)
      ensures old(attributes) == [] && attributeItems == [] ==>
                err == Some(EmptyAttributesError) && attributes == old(attributes)
      ensures old(attributes) == [] && attributeItems != [] ==>
                err == None && attributes == ToSchema(attributeItems) && attributes != []
      ensures records == old(records)
    {
      if attributes != [] {
        return Some(ReinitializedError);
      }
      if attributeItems == [] {
        return Some(EmptyAttributesError);
      }
      EmptySchemaRecords();
      ToSchemaValid(attributeItems);
      attributes := ToSchema(attributeItems);
      err := None;
    }

    /** With no schema every stored record is empty. */
    lemma EmptySchemaRecords()
      requires Valid() && attributes == []
      ensures forall k :: 0 <= k < |records| ==> records[k] == map[]
    {
      forall k | 0 <= k < |records| ensures records[k] == map[] {
        if records[k] != map[] {
          ConformsEmpty(records[k]);
        }
      }
    }

    method InsertRecords(batch: seq<Row>) returns (err: Option<Exception>)
      requires Valid()
      modifies this`attributes, this`records
      ensures Valid()
      ensures InsertSchema(old(attributes), batch).Err? ==>
                attributes == old(attributes) && err == Some(InsertSchema(old(attributes), batch).error)
      ensures InsertSchema(old(attributes), batch).Ok? ==>
                attributes == InsertSchema(old(attributes), batch).value && err == CheckBatch(attributes, batch)
      ensures err == None ==> records == old(records) + RecordMaps(attributes, batch)
      ensures err != None ==> records == old(records)
    {
      if attributes == [] {
        err := InitializeAttributesFromRecords(batch);
        if err.Some? {
          return;
        }
      }
      var newRecords;
      newRecords, err := CreateRecords(batch);
      if err.Some? {
        return;
      }
      forall j | 0 <= j < |newRecords| ensures Conforms(newRecords[j], attributes) {
        RecordMapConforms(attributes, batch[j]);
      }
      records := records + newRecords;
    }

    /** `records.map { validateRecord(it); createRecordMap(it) }`: the record
        maps of the whole batch, or the exception of its first bad row. */
    method CreateRecords(batch: seq<Row>) returns (newRecords: seq<Record>, err: Option<Exception>)
      ensures err == CheckBatch(attributes, batch)
      ensures err == None ==> newRecords == RecordMaps(attributes, batch)
    {
      newRecords := [];
      var k := 0;
      while k < |batch|
        invariant 0 <= k <= |batch|
        invariant forall j :: 0 <= j < k ==> CheckRecord(attributes, batch[j]) == None
        invariant |newRecords| == k
        invariant forall j :: 0 <= j < k ==> newRecords[j] == RecordMap(attributes, batch[j])
      {
        err := ValidateRecord(batch[k]);
        if err.Some? {
          FirstFailure(attributes, batch, k);
          return;
        }
        newRecords := newRecords + [RecordMap(attributes, batch[k])];
        k := k + 1;
      }
      assert newRecords == RecordMaps(attributes, batch);
      err := None;
    }

    /** The batch check reports the first failing row. */
    static lemma FirstFailure(s: Schema, batch: seq<Row>, k: nat)
      requires k < |batch| && CheckRecord(s, batch[k]).Some?
      requires forall j :: 0 <= j < k ==> CheckRecord(s, batch[j]) == None
      ensures CheckBatch(s, batch) == CheckRecord(s, batch[k])
    {
      var r := CheckBatch(s, batch);
      var k' :| 0 <= k' < |batch| && CheckRecord(s, batch[k']) == r
                && forall j :: 0 <= j < k' ==> CheckRecord(s, batch[j]) == None;
      assert CheckRecord(s, batch[k']).Some?;
      assert !(k' < k) && !(k < k');
    }

    /** Installs the schema inferred from the first row of the batch. */
    method InitializeAttributesFromRecords(batch: seq<Row>) returns (err: Option<Exception>)
      requires Valid() && attributes == []
      modifies this`attributes
      ensures Valid()
      ensures batch == [] ==> err == Some(EmptyRecordsError) && attributes == old(attributes)
      ensures batch != [] && InferSchema(batch[0]).Err? ==>
                err == Some(InferSchema(batch[0]).error) && attributes == old(attributes)
      ensures batch != [] && InferSchema(batch[0]).Ok? ==>
                err == None && attributes == InferSchema(batch[0]).value
    {
      if batch == [] {
        return Some(EmptyRecordsError);
      }
      var inferred: Schema := [];
      var sample := batch[0];
      var index := 0;
      while index < |sample|
        invariant 0 <= index <= |sample|
        invariant |inferred| == index
        invariant forall i :: 0 <= i < index ==> !sample[i].VOther?
        invariant forall i :: 0 <= i < index ==>
                    inferred[i].0 == AttributeName(i) && Admits(inferred[i].1, sample[i])
      {
        var fieldType: SupportedType;
        match sample[index] {
          case VStr(_) => fieldType := STRING;
          case VInt(_) => fieldType := INTEGER;
          case VOther(_) => return Some(UnsupportedFieldError);
        }
        inferred := inferred + [(AttributeName(index), fieldType)];
        index := index + 1;
      }
      var expected := InferSchema(sample).value;
      assert forall i :: 0 <= i < |inferred| ==> inferred[i] == expected[i];
      assert inferred == expected;
      EmptySchemaRecords();
      attributes := inferred;
      err := None;
    }

    /** `validateRecord`: returns the exception it would throw, if any. */
    method ValidateRecord(row: Row) returns (err: Option<Exception>)
      ensures err == CheckRecord(attributes, row)
    {
      if |row| != |attributes| {
        return Some(SizeMismatchError(|row|, |attributes|));
      }
      var index := 0;
      while index < |row|
        invariant 0 <= index <= |row|
        invariant CheckFields(attributes, row, index) == CheckFields(attributes, row, 0)
      {
        var fieldType := attributes[index].1;
        match fieldType {
          case STRING =>
            if !row[index].VStr? {
              return Some(FieldTypeError(index, STRING));
            }
          case INTEGER =>
            if !row[index].VInt? {
              return Some(FieldTypeError(index, INTEGER));
            }
        }
        index := index + 1;
      }
      err := None;
    }
  }

  /** In a schema with distinct names every name looks up its own type. */
  lemma {:induction false} LookupDistinct(s: Schema)
    requires DistinctNames(s)
    ensures forall i :: 0 <= i < |s| ==> Lookup(s, s[i].0) == Some(s[i].1)
  {
    if s != [] {
      assert Names(s[1..]) == Names(s)[1..];
      LookupDistinct(s[1..]);
      forall i | 1 <= i < |s| ensures Lookup(s, s[i].0) == Some(s[i].1) {
        assert Names(s)[0] != Names(s)[i];
        assert s[1..][i - 1] == s[i];
      }
    }
  }
}
