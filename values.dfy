/** Field values. The program stores fields as `Any` and inspects them with
    `is String` / `is Int`; here they are a tagged union. */
module Values {

  /** Kotlin's `Int`: a 32-bit signed integer. */
  newtype int32 = x: int | -0x8000_0000 <= x < 0x8000_0000

  /** `VOther` stands for a value of any other runtime type (a Long, a Double,
      a Boolean, …); `id` distinguishes such values from one another, so two
      of them are `==` exactly when their ids agree. */
  datatype Value =
    | VStr(s: string)
    | VInt(n: int32)
    | VOther(id: int)

  /** A positional record as handed to `insertRecords` (`List<Any>`). */
  type Row = seq<Value>

  /** A stored or selected record (`Map<String, Any>`). */
  type Record = map<string, Value>
}
