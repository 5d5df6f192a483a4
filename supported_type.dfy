/** The two attribute types a table supports, the parser for their literals,
    and the runtime type tests the table applies to field values. */
module SupportedTypes {
  import opened Wrappers
  import opened Errors
  import opened Values

  datatype SupportedType = STRING | INTEGER

  const UnsupportedTypeError: Exception := IllegalArgument("Unsupported Type")

  /** The literal that denotes each type in a table definition. */
  function Literal(t: SupportedType): string {
    match t
    case STRING => "string"
    case INTEGER => "int"
  }

  /** `SupportedType.from`: an exact, case-sensitive match on the literal. */
  function From(typeInput: string): (r: Result<SupportedType, Exception>)
    ensures r == Ok(STRING) <==> typeInput == "string"
    ensures r == Ok(INTEGER) <==> typeInput == "int"
    ensures r.Err? <==> typeInput != "string" && typeInput != "int"
    ensures r.Err? ==> r.error == UnsupportedTypeError
  {
    match typeInput
    case "string" => Ok(STRING)
    case "int" => Ok(INTEGER)
    case _ => Err(UnsupportedTypeError)
  }

  /** Every type is parsed back from its own literal, and from no other
      string, so `From` is injective on the inputs it accepts. */
  lemma FromLiteral(t: SupportedType, typeInput: string)
    ensures From(Literal(t)) == Ok(t)
    ensures From(typeInput) == Ok(t) ==> typeInput == Literal(t)
  {
  }

  /** The type test of `validateRecord`: `is String` for STRING, `is Int`
      for INTEGER; there is no coercion between them. */
  predicate Admits(t: SupportedType, v: Value) {
    match t
    case STRING => v.VStr?
    case INTEGER => v.VInt?
  }

  /** A value passes the type test of at most one type, and a value of an
      unsupported runtime type passes none. */
  lemma AdmitsAtMostOne(t: SupportedType, u: SupportedType, v: Value)
    ensures Admits(t, v) && Admits(u, v) ==> t == u
    ensures v.VOther? ==> !Admits(t, v)
  {
  }

  /** The type `initializeAttributesFromRecords` infers for a value, or
      `None` for a value of an unsupported runtime type. */
  function TypeOf(v: Value): (r: Option<SupportedType>)
    ensures r.None? <==> v.VOther?
    ensures forall t :: r == Some(t) <==> Admits(t, v)
  {
    match v
    case VStr(_) => Some(STRING)
    case VInt(_) => Some(INTEGER)
    case VOther(_) => None
  }
}
