/**
 * JSON values as they travel between the browser, the gateway and the services, together with
 * the little of each language's semantics the core relies on: JavaScript's property access,
 * truthiness, `||`, `typeof` and `String(...)`, Go's type assertions on decoded maps, and
 * Python's `str(...)`. Numbers are integers. Parsing and serialising are left abstract: every
 * operation that needs them takes them as function parameters.
 */
module Json {
  import opened Wrappers
  import opened Strings

  datatype Json =
    | Null
    | Bool(b: bool)
    | Num(n: int)
    | Str(s: string)
    | Arr(items: seq<Json>)
    | Obj(fields: map<string, Json>)

  /** What `JSON.parse`, `json.Unmarshal` or `yaml.Unmarshal` give: a value or a syntax error. */
  datatype Parsed = Parsed(value: Json) | SyntaxError(message: string)

  /** A decoder of text into a value; it stands for the library parser. */
  type Parser = string -> Parsed

  /** An encoder of a value into text; it stands for `JSON.stringify` / `json.Marshal`. */
  type Printer = Json -> string

  /** The pair of library codecs a component works with. */
  datatype Codec = Codec(parse: Parser, stringify: Printer)

  /** A decoded Go `map[string]interface{}`; a nil map reads like the empty one. */
  type GoMap = map<string, Json>

  // ---------------------------------------------------------------------------------------------
  // JavaScript
  // ---------------------------------------------------------------------------------------------

  /** `v.key`: a missing property (JavaScript `undefined`) reads as `Null`. */
  function Get(v: Json, key: string): Json {
    if v.Obj? && key in v.fields then v.fields[key] else Null
  }

  /** JavaScript truthiness (`if (v)`, `!v`). */
  predicate Truthy(v: Json) {
    match v
    case Null => false
    case Bool(b) => b
    case Num(n) => n != 0
    case Str(s) => s != ""
    case Arr(_) => true
    case Obj(_) => true
  }

  /** JavaScript `a || b`: the first operand when it is truthy, else the second. */
  function Or(a: Json, b: Json): Json
  {
    if Truthy(a) then a else b
  }

  /** JavaScript `typeof v`. */
  function TypeOf(v: Json): string {
    match v
    case Null => "object"
    case Bool(_) => "boolean"
    case Num(_) => "number"
    case Str(_) => "string"
    case Arr(_) => "object"
    case Obj(_) => "object"
  }

  /**
   * JavaScript `String(v)` (and the conversion `textContent` applies): arrays join their
   * elements with commas, writing nothing for a null element; objects print as
   * `[object Object]`.
   */
  function JsString(v: Json): string
    decreases v
  {
    match v
    case Null => "null"
    case Bool(b) => if b then "true" else "false"
    case Num(n) => IntToString(n)
    case Str(s) => s
    case Arr(items) =>
      if |items| == 0 then ""
      else Join(seq(|items|, i requires 0 <= i < |items| =>
                      if items[i] == Null then "" else JsString(items[i])), ",")
    case Obj(_) => "[object Object]"
  }

  /** JavaScript `items.join(sep)`: each element through `String`, null elements as nothing. */
  function JsJoin(items: seq<Json>, sep: string): string {
    if |items| == 0 then ""
    else Join(seq(|items|, i requires 0 <= i < |items| =>
                    if items[i] == Null then "" else JsString(items[i])), sep)
  }

  // ---------------------------------------------------------------------------------------------
  // Go
  // ---------------------------------------------------------------------------------------------

  /** `m[key].(string)` with its `ok` flag: the string only when the entry holds one. */
  function GoString(m: GoMap, key: string): Option<string> {
    if key in m && m[key].Str? then Some(m[key].s) else None
  }

  /** `m[key] != nil`: the key is present and does not hold JSON null. */
  predicate GoNonNil(m: GoMap, key: string) {
    key in m && m[key] != Null
  }

  // ---------------------------------------------------------------------------------------------
  // Python
  // ---------------------------------------------------------------------------------------------

  /**
   * Python `str(v)`. Lists and dicts print through `repr`, which stays abstract and is given
   * as a parameter.
   */
  function PyStr(v: Json, repr: Printer): string {
    match v
    case Null => "None"
    case Bool(b) => if b then "True" else "False"
    case Num(n) => IntToString(n)
    case Str(s) => s
    case Arr(_) => repr(v)
    case Obj(_) => repr(v)
  }

  /** Python `d.get(key, default)`: the stored value when the key is present, even a `None`. */
  function PyGet(d: GoMap, key: string, default: Json): Json
  {
    if key in d then d[key] else default
  }
}
