/** JSON documents as Python sees them after `json.loads`. */
module JsonValues {

  datatype Json =
    | JNull
    | JBool(b: bool)
    | JInt(i: int)
    | JFloat(r: real)
    | JStr(s: string)
    | JArr(items: seq<Json>)
    | JObj(fields: map<string, Json>)

  /**
   * What `json.loads` makes of a text or of bytes: a document, or one of its exceptions. NotJson is a
   * JSONDecodeError or a UnicodeDecodeError; TooLong a plain ValueError, for an integer with more digits than
   * Python converts; TooDeep a RecursionError, for nesting deeper than the interpreter's stack.
   */
  datatype Decoded = Document(value: Json) | NotJson | TooLong | TooDeep

  /** `d.get(key) if isinstance(d, dict) else None`. */
  function Get(j: Json, key: string): Json
  {
    if j.JObj? && key in j.fields then j.fields[key] else JNull
  }

  /** The value as Python's `==` sees it: booleans and floats compare as numbers. */
  function Norm(j: Json): Json
  {
    match j
    case JBool(b) => JFloat(if b then 1.0 else 0.0)
    case JInt(i) => JFloat(i as real)
    case JArr(items) => JArr(seq(|items|, n requires 0 <= n < |items| => Norm(items[n])))
    case JObj(fields) => JObj(map k | k in fields :: Norm(fields[k]))
    case _ => j
  }

  /** Python's `a == b` on JSON values. */
  predicate PyEq(a: Json, b: Json)
  {
    Norm(a) == Norm(b)
  }

  /** Whether Python can hash the value, i.e. whether `value in some_set` is defined. */
  predicate Hashable(j: Json)
  {
    !j.JArr? && !j.JObj?
  }

  predicate NonEmptyStr(j: Json)
  {
    j.JStr? && j.s != ""
  }
}
