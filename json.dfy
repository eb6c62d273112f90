/**
 * JSON values as the stores see them after `JSON.parse`, JavaScript truthiness and
 * property reads on them, and the parse/stringify pair, kept abstract as a `Codec`.
 */
module Json {
  import opened Wrappers
  import opened Numeric

  /** A parsed JSON value. Numbers are integers here (fractions are not modelled). */
  datatype Json =
    | JNull
    | JBool(b: bool)
    | JNum(n: int)
    | JStr(s: string)
    | JArr(items: seq<Json>)
    | JObj(fields: map<string, Json>)

  /** A row as the upstream returns it: a plain object. */
  type Record = map<string, Json>

  /** JavaScript truthiness of a JSON value. */
  predicate Truthy(j: Json) {
    match j
    case JNull => false
    case JBool(b) => b
    case JNum(n) => n != 0
    case JStr(s) => s != ""
    case JArr(_) => true
    case JObj(_) => true
  }

  /**
   * `j.name`, with `None` for `undefined`. Reading a property of `null` throws in
   * JavaScript; every caller in the stores catches that and treats the value as
   * malformed, which is what `None` leads to in every check below.
   */
  function Get(j: Json, name: string): (v: Option<Json>)
    ensures v.Some? ==> j.JObj? && name in j.fields && v.value == j.fields[name]
    ensures j.JObj? && name in j.fields ==> v.Some?
  {
    if j.JObj? && name in j.fields then Some(j.fields[name]) else None
  }

  /** `j.name` is truthy. */
  predicate HasTruthy(j: Json, name: string) {
    var v := Get(j, name);
    v.Some? && Truthy(v.value)
  }

  /** `Array.isArray(j.name)`. */
  predicate HasArray(j: Json, name: string) {
    var v := Get(j, name);
    v.Some? && v.value.JArr?
  }

  /** `typeof j.name === 'boolean'`. */
  predicate HasBoolean(j: Json, name: string) {
    var v := Get(j, name);
    v.Some? && v.value.JBool?
  }

  /** The JSON array holding the given rows as objects. */
  function RowsJson(rows: seq<Record>): (j: Json)
    ensures j.JArr? && |j.items| == |rows|
    ensures forall i | 0 <= i < |rows| :: j.items[i] == JObj(rows[i])
  {
    JArr(seq(|rows|, i requires 0 <= i < |rows| => JObj(rows[i])))
  }

  /** What a query's `data` becomes as a JSON value: the rows, or `null`. */
  function DataJson(data: Option<seq<Record>>): Json {
    match data
    case Some(rows) => RowsJson(rows)
    case None => JNull
  }

  /**
   * The pair `JSON.parse` / `JSON.stringify`. `parse` answers `None` where the real
   * one throws a SyntaxError.
   */
  datatype Codec = Codec(parse: string -> Option<Json>, stringify: Json -> string)

  /** What is assumed of the real pair: what is written is read back, and nothing is written as "". */
  ghost predicate ValidCodec(codec: Codec) {
    && (forall j :: codec.parse(codec.stringify(j)) == Some(j))
    && (forall j :: codec.stringify(j) != "")
  }

  /**
   * The number the division operator makes of a JSON value. Strings, and arrays with
   * elements, are NaN here (JavaScript would read a numeric text); the stores only
   * ever store numbers or `null` where this is applied.
   */
  function ToNumber(j: Json): JsNumber {
    match j
    case JNull => Finite(0)
    case JBool(b) => Finite(if b then 1 else 0)
    case JNum(n) => Finite(n)
    case JStr(_) => NaN
    case JArr(items) => if items == [] then Finite(0) else NaN
    case JObj(_) => NaN
  }
}
