/** The slice of JSON the generate endpoint reads: a request body that is either
    an object of scalar fields or something the handler cannot call `.get` on,
    Python's `dict.get` with a default, and Python's truth value. */
module Json {

  /** A JSON field value as the handler sees it: `null` (Python `None`) or a string. */
  datatype Value = Null | Str(s: string)

  /** The parsed request body. `Unparsable` stands for every body on which the
      handler raises before it reaches validation (bad JSON, wrong content type,
      a top-level value that is not an object); `reason` is the exception text. */
  datatype Body = Unparsable(reason: string) | Object(fields: map<string, Value>)

  /** `fields.get(key, default)`: the stored value when the key is present, even
      when that value is `null`, and the default only when the key is absent. */
  function Get(fields: map<string, Value>, key: string, default: Value): (v: Value)
    ensures key in fields ==> v == fields[key]
    ensures key !in fields ==> v == default
  {
    if key in fields then fields[key] else default
  }

  /** Python's truth value of `None` and of a string: `None` and "" are false,
      every other string is true. */
  function Truthy(v: Value): (b: bool)
    ensures b <==> v != Null && v != Str("")
  {
    match v
    case Null => false
    case Str(s) => s != ""
  }
}
