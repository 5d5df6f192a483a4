# In-memory table engine — Dafny model

This project models the core of a small in-memory table engine written in
Kotlin:

- **Table** (`Tables.Table`) owns three things: a name, an ordered attribute
  schema that is set once, and an append-only list of records.
  - The schema is set explicitly, or it is inferred as `attribute_<i>` from
    the first row of the first inserted batch.
  - Every row of a batch has its size and field types checked before any row
    of the batch is stored.
- **SupportedType** (`SupportedTypes`) has two values, STRING and INTEGER.
  `From` parses their literals `"string"` and `"int"`.
- **WhereClause** (`WhereClauses`) is an immutable filter condition. Building
  one with LIKE and a non-string operand fails.
- **SelectQuery** (`Queries.SelectQuery`) is a query builder.
  - Its builder state is a target table, selected columns and where clauses.
  - `SelectedRecords` filters records by the AND of the where clauses, then
    projects each surviving record onto the selected columns.

How the Kotlin constructs are encoded:
- Thrown exceptions become returned values: `Errors.Exception` is
  `IllegalArgument(message)` or `IllegalState(message)`. `require` becomes the
  first and `check` the second. The message is the exact text the program
  builds.
- Kotlin's `Any` field values become `Values.Value`: `VStr`, `VInt` (a 32-bit
  `int32`, as Kotlin `Int` is) or `VOther`. `VOther` stands for any other
  runtime type.
- A schema is the attribute map's entries in iteration order.
- A record is a `map<string, Value>`.
- Two Kotlin library calls are modelled with their own partner proofs:
  - `distinct()` becomes `Sequences.Distinct`.
  - `String.contains` becomes `Text.Contains`. It is proved equivalent to a
    declarative substring predicate.

Where the code behaves in a way a reader may not expect, the model follows
the code:
- **Empty inferred schema.** If the first row of a batch is empty, inference
  installs an empty schema. The batch's empty rows are then stored as empty
  records, and `InitializeAttributes` can still succeed later.
  `Tables.Table.Valid` therefore allows records that are empty. The
  `Scenarios.EmptyFirstRow` scenario shows this.
- **Missing-columns error.** The "columns not set" check runs inside the
  `filterKeys` lambda, so it runs once per key of a surviving record. The
  error therefore arises only when some record that passes the filter has at
  least one key. It is not raised up front. See `Scenarios.SelectEmptyRecordWithoutColumns`.
- **Where clauses are not de-duplicated.** `addWhereConditions` appends every
  clause. De-duplication by attribute name would belong to the where-clause
  builder, which is an unimplemented stub.
- **Repeated attribute names.** `initializeAttributes` goes through `toMap()`.
  A repeated name keeps its first position and takes the last type given to
  it (`ToSchemaNames`, `ToSchemaLookup`).

`Scenarios` replays the repository's unit tests against the model: lemmas
for the pure parts, and methods that drive `Table` and `SelectQuery`.

## Model

| member | source | states |
|---|---|---|
| `SupportedTypes.From` | dbms/src/main/kotlin/dbms/table/SupportedType.kt:7-13 | `"string"` gives STRING and `"int"` gives INTEGER. Every other string fails with IllegalArgument "Unsupported Type". |
| `SupportedTypes.FromLiteral` | dbms/src/main/kotlin/dbms/table/SupportedType.kt:3-13 | Each type is parsed from its own literal and from no other string, so `From` is injective on accepted inputs. |
| `SupportedTypes.TypeOf` | dbms/src/main/kotlin/dbms/table/Table.kt:44-48 | Inference types a string STRING and an Int INTEGER. Any other value has no type. The inferred type is exactly the type that admits the value. |
| `Text.Contains` | dbms/src/main/kotlin/dbms/query/SelectQuery.kt:46 | `hay.contains(needle)` holds iff `needle` occurs in `hay` as a contiguous, case-sensitive substring. |
| `Sequences.Distinct` | dbms/src/main/kotlin/dbms/query/SelectQuery.kt:13 | `distinct()` has no repetitions, has the same elements as its input, and is no longer than it. |
| `Sequences.DistinctKeepsFirstOccurrenceOrder` | dbms/src/main/kotlin/dbms/query/SelectQuery.kt:13 | The kept elements appear in the order of their first occurrences in the input. |
| `Sequences.DistinctOfNoDup` | dbms/src/main/kotlin/dbms/query/SelectQuery.kt:13 | A list without repetitions is unchanged by `distinct()`. |
| `Text.NatToStringInjective` | dbms/src/main/kotlin/dbms/table/Table.kt:49 | Different indices render as different decimal strings. |
| `Tables.AttributeNameInjective` | dbms/src/main/kotlin/dbms/table/Table.kt:49 | Different positions get different `attribute_<i>` names. |
| `Text.NatToString` | dbms/src/main/kotlin/dbms/table/Table.kt:49 | `"$index"` renders a non-empty string of decimal digits. It is one character long iff the number is below ten. |
| `Text.NatToStringDecimal` | dbms/src/main/kotlin/dbms/table/Table.kt:49 | The rendering is the number's decimal notation: it reads back as the number, and only zero starts with the digit 0. |
| `Tables.ToSchemaNames` | dbms/src/main/kotlin/dbms/table/Table.kt:20 | The installed schema's names are the distinct names of the list, in first-occurrence order. |
| `Tables.ToSchemaLookup` | dbms/src/main/kotlin/dbms/table/Table.kt:20 | Each installed name carries the type of its last occurrence in the list. |
| `Tables.ToSchemaOfDistinct` | dbms/src/main/kotlin/dbms/table/Table.kt:17-21 | A list with distinct names is installed exactly as given: the same names and types, in order. |
| `Tables.ToSchemaValid` | dbms/src/main/kotlin/dbms/table/Table.kt:20 | The installed schema always has distinct names. It is empty only for an empty list. |
| `Tables.PutNames` | dbms/src/main/kotlin/dbms/table/Table.kt:20 | One `put` of `toMap()` keeps the key order when the key is already present, and otherwise appends the key at the end. |
| `Tables.PutLookup` | dbms/src/main/kotlin/dbms/table/Table.kt:20 | After one `put`, the key maps to the new type and every other key keeps its type. |
| `Tables.PutFresh` | dbms/src/main/kotlin/dbms/table/Table.kt:20 | A `put` of an absent key appends exactly that entry. |
| `Tables.InferSchema` | dbms/src/main/kotlin/dbms/table/Table.kt:38-53 | Inference succeeds iff every sample value is a string or an Int. On success the i-th attribute is named `attribute_<i>` and has the value's type, the names are distinct, and the sample row passes validation against the result. Otherwise it fails with "Unsupported type for field value.". |
| `Tables.CheckFields` | dbms/src/main/kotlin/dbms/table/Table.kt:58-64 | From a given position on, no error iff every field is admitted by its attribute's type. Otherwise the error names the first bad index and the type expected there. |
| `Tables.CheckRecord` | dbms/src/main/kotlin/dbms/table/Table.kt:55-65 | A size mismatch fails with "Record size (n) does not match attributes size (m).". A row passes iff its size matches and every field has its attribute's type. |
| `Tables.CheckRecordFirstMismatch` | dbms/src/main/kotlin/dbms/table/Table.kt:58-63 | A row of the right size fails at its first mistyped index i. The message is "Field at index i must be a String." or "… an Integer.", following the schema type at i. |
| `Tables.SizeMismatchErrorInjective` | dbms/src/main/kotlin/dbms/table/Table.kt:56 | The size-mismatch message determines both sizes: different (record size, attributes size) pairs give different messages. |
| `Tables.FieldTypeErrorInjective` | dbms/src/main/kotlin/dbms/table/Table.kt:61-62 | The field-type message determines the index and the expected type: different pairs give different messages. |
| `SupportedTypes.AdmitsAtMostOne` | dbms/src/main/kotlin/dbms/table/Table.kt:61-62 | A value passes the `is String` / `is Int` test of at most one type, and a value of any other runtime type passes neither. |
| `Tables.CheckRows` | dbms/src/main/kotlin/dbms/table/Table.kt:29-32 | A batch passes iff every row passes. Otherwise its error is that of the first failing row. |
| `Tables.RecordMap` | dbms/src/main/kotlin/dbms/table/Table.kt:67-69 | For distinct names and a row of matching size, the record's keys are exactly the schema's names, and each name maps to the value at its position. |
| `Tables.RecordMapConforms` | dbms/src/main/kotlin/dbms/table/Table.kt:29-32 | A validated row becomes a record that conforms to the schema. |
| `Tables.RecordMapsConform` | dbms/src/main/kotlin/dbms/table/Table.kt:29-32 | A validated batch becomes one record per row, in the batch's order, each the row's record map and each conforming to the schema. |
| `Tables.ConformsEmpty` | dbms/src/main/kotlin/dbms/table/Table.kt:25-27 | A record that conforms to an empty schema is empty. |
| `Tables.InsertSchema` | dbms/src/main/kotlin/dbms/table/Table.kt:25-27 | An insertion uses the current schema if there is one. Otherwise it uses the schema inferred from the batch's first row. With no schema, an empty batch fails with "Cannot infer attributes from empty records.". |
| `Tables.Table.constructor` | dbms/src/main/kotlin/dbms/table/Table.kt:3-7 | A new table has an empty name, no attributes and no records. |
| `Tables.Table.CurrentRecords` | dbms/src/main/kotlin/dbms/table/Table.kt:9 | The snapshot's records each conform to the schema, or are empty. |
| `Tables.Table.CurrentAttributes` | dbms/src/main/kotlin/dbms/table/Table.kt:11 | The snapshot is a map: its names are distinct, and each name looks up its own type. |
| `Tables.Table.ChangeName` | dbms/src/main/kotlin/dbms/table/Table.kt:13-15 | Only the name changes. |
| `Tables.Table.InitializeAttributes` | dbms/src/main/kotlin/dbms/table/Table.kt:17-21 | The reinitialization check comes first. The empty-list check comes second. Both failures leave the schema unchanged. Otherwise the `toMap()` of the list is installed, which is non-empty. Records are untouched. |
| `Tables.Table.InsertRecords` | dbms/src/main/kotlin/dbms/table/Table.kt:24-35 | A schema inferred in this call stays even if a later row fails. A failed call leaves the records unchanged. A successful call appends exactly the batch's record maps, in order. |
| `Tables.Table.CreateRecords` | dbms/src/main/kotlin/dbms/table/Table.kt:29-32 | The error is that of the first failing row. Without an error, the result holds one record map per row, in order. |
| `Tables.Table.FirstFailure` | dbms/src/main/kotlin/dbms/table/Table.kt:29-32 | When all rows before row k pass and row k fails, the batch fails with row k's error. |
| `Tables.Table.InitializeAttributesFromRecords` | dbms/src/main/kotlin/dbms/table/Table.kt:38-53 | An empty batch fails, and so does an unsupported value in the first row. Both failures leave the schema empty. Otherwise the inferred schema is installed. |
| `Tables.Table.ValidateRecord` | dbms/src/main/kotlin/dbms/table/Table.kt:55-65 | The loop returns exactly the error `CheckRecord` specifies, or none. |
| `WhereClauses.NewWhereClause` | dbms/src/main/kotlin/dbms/query/WhereClause.kt:3-12 | Construction succeeds iff LIKE comes with a string value. EQUALS takes any value. A built clause stores its three arguments unchanged. LIKE with a non-string fails with "Operator 'like' should be utilized with String values.". |
| `Queries.Holds` | dbms/src/main/kotlin/dbms/query/SelectQuery.kt:42-47 | EQUALS holds iff the attribute is present with an equal value. LIKE holds iff the attribute is present, is a string, and contains the clause string. A missing attribute gives false. |
| `Queries.AllHold` | dbms/src/main/kotlin/dbms/query/SelectQuery.kt:41 | `whereConditions.all { … }` holds iff every clause holds for the record, so it is true for no clauses. |
| `Queries.Filter` | dbms/src/main/kotlin/dbms/query/SelectQuery.kt:21-23 | The output is no longer than the input. A record is in the output iff it is in the input and passes every clause. |
| `Queries.FilterConcat` | dbms/src/main/kotlin/dbms/query/SelectQuery.kt:21-23 | Filtering distributes over concatenation, so input order is preserved. |
| `Queries.FilterAllOrNone` | dbms/src/main/kotlin/dbms/query/SelectQuery.kt:21-23 | If every record passes, all are kept, in order. If none passes, the output is empty. |
| `Queries.ProjectNarrows` | dbms/src/main/kotlin/dbms/query/SelectQuery.kt:24 | `filterKeys { it in columns }` keeps exactly the selected keys and their values. It leaves a record unchanged iff all its keys are selected, and projecting twice is projecting once. |
| `Queries.SelectQuery.constructor` | dbms/src/main/kotlin/dbms/query/SelectQuery.kt:3-6 | A new query has no columns, no target table and no where clauses. |
| `Queries.SelectQuery.InitTargetTable` | dbms/src/main/kotlin/dbms/query/SelectQuery.kt:8-10 | It overwrites the target, after which `Table()` returns the name just set. |
| `Queries.SelectQuery.AddColumns` | dbms/src/main/kotlin/dbms/query/SelectQuery.kt:12-14 | It appends the distinct columns of this call. Earlier columns are kept even when repeated. |
| `Queries.SelectQuery.AddWhereConditions` | dbms/src/main/kotlin/dbms/query/SelectQuery.kt:16-18 | It appends the clauses as given. |
| `Queries.SelectQuery.Table` | dbms/src/main/kotlin/dbms/query/SelectQuery.kt:28-32 | It returns the target set last. Before any target is set it fails with IllegalState "Table name for query is not initialized". |
| `Queries.SelectQuery.Columns` | dbms/src/main/kotlin/dbms/query/SelectQuery.kt:34-37 | It returns the selected columns, or fails with "Selected columns for query are not set" when there are none. |
| `Queries.SelectQuery.PredicateRecord` | dbms/src/main/kotlin/dbms/query/SelectQuery.kt:39-49 | A record passes iff every where clause holds: an AND, which is true when there are no clauses. |
| `Queries.SelectQuery.SelectedRecords` | dbms/src/main/kotlin/dbms/query/SelectQuery.kt:20-26 | It fails iff no columns are set and some passing record has a key. Otherwise it returns one record per passing input record, in order and never more than the input. Each output record is its input narrowed to the selected columns: no key is added and no value changes. |
| `Scenarios.SupportedTypeLiterals` | dbms/src/test/kotlin/dbms/table/SupportedTypeTest.kt:10-31 | `"string"` and `"int"` parse. `"byte"`, `"String"` and `"Int"` are rejected. |
| `Scenarios.WhereClauseConstruction` | dbms/src/test/kotlin/dbms/query/WhereClauseTest.kt:7-12 | LIKE with 1 is rejected with its message. LIKE with "Ali" and EQUALS with 25 are accepted. |
| `Scenarios.FieldTypeMessages` | dbms/src/test/kotlin/dbms/table/TableTest.kt:118-135 | The exact type-mismatch messages for index 1 (Integer) and index 0 (String). |
| `Scenarios.EqualsSelection` | dbms/src/test/kotlin/dbms/query/SelectQueryTest.kt:44-71 | name EQUALS "Alice" and age EQUALS 25, selecting id and name, give `[{id: 1, name: "Alice"}]`. |
| `Scenarios.LikeSelection` | dbms/src/test/kotlin/dbms/query/SelectQueryTest.kt:94-119 | name LIKE "Ali" keeps Alice and Ali and drops Bob. |
| `Scenarios.InferPersonRows` | dbms/src/test/kotlin/dbms/table/TableTest.kt:76-97 | Without a schema, ("Alice", 25) infers (attribute_0 STRING, attribute_1 INTEGER), both test rows pass, and they are stored as `{attribute_0: "Alice", attribute_1: 25}` and `{attribute_0: "Bob", attribute_1: 30}`. |
| `Scenarios.InferThenReject` | dbms/src/main/kotlin/dbms/table/Table.kt:25-34 | A batch whose second row does not match the schema inferred from its first row is rejected, while that schema is still the one installed. |

## Left out

- `DatabaseManager` (the global name-to-table registry and its "Table not
  found" check), `QueryFunctions` (console output), `SelectQueryBuilder` (pure
  forwarding to `SelectQuery`), `TableBuilder` and `WhereClauseBuilder` (DSL
  stubs whose functions are unimplemented) and the `PersonFinder` demo are
  not part of this model. They are glue, I/O or unimplemented.
- Kotlin runtime reflection (`is String`, `is Int`) is replaced by the
  `Value` tagged union. Values of other runtime types are `VOther`, and no
  coercion between kinds is modelled.
- Exceptions are returned, not thrown. Like the program, every operation
  changes no state before it fails, except that an inferred schema stays
  installed.
- Snapshots: Dafny sequences are values, so a list returned by
  `CurrentRecords` or `CurrentAttributes` cannot be affected by later
  mutation. There is no copy to model.
- `Tables.Table.CurrentAttributes` returns the schema as its ordered entry
  list, not as a hash map. Its contract states that the list is a map
  (distinct names, each looking up its own type). The iteration order of the
  real map is the order of this list.
- Records are `map<string, Value>`, so the key order of the program's
  linked hash maps is not kept. It is schema order in `createRecordMap` and
  the record's own order after `filterKeys`. No operation of the core depends
  on it, and equality of the program's maps ignores it.
- String contents are sequences of characters. Kotlin's UTF-16 code-unit
  representation is not modelled.
