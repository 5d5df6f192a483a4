/** A filter condition of a select query, validated when it is built. */
module WhereClauses {
  import opened Wrappers
  import opened Errors
  import opened Values

  datatype Operator = EQUALS | LIKE

  datatype WhereClause = WhereClause(attributeName: string, operator: Operator, value: Value) {
    /** The construction-time invariant: LIKE only takes a string operand. */
    predicate Valid() {
      operator == LIKE ==> value.VStr?
    }
  }

  /** The clauses that can exist: building one runs its `init` check. */
  type ValidWhereClause = c: WhereClause | c.Valid() witness WhereClause("", EQUALS, VInt(0))

  const LikeOperandError: Exception := IllegalArgument("Operator 'like' should be utilized with String values.")

  /** The `WhereClause` constructor: stores its three arguments unchanged,
      or throws when LIKE is given a value that is not a string. */
  function NewWhereClause(attributeName: string, operator: Operator, value: Value): (r: Result<ValidWhereClause, Exception>)
    ensures r.Ok? <==> (operator == LIKE ==> value.VStr?)
    ensures r.Ok? ==> r.value.attributeName == attributeName && r.value.operator == operator && r.value.value == value
    ensures r.Err? ==> r.error == LikeOperandError
  {
    if operator == LIKE && !value.VStr? then Err(LikeOperandError)
    else Ok(WhereClause(attributeName, operator, value))
  }
}
