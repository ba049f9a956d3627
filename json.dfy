/**
 * The values `JSON.parse` produces, with the JavaScript semantics of the
 * operations the plain-text extractor applies to them: property access,
 * truthiness and conversion to a string. Numbers are integers here.
 */
module Json {
  import opened Wrappers
  import Text

  datatype Json =
    | JNull
    | JBool(b: bool)
    | JNum(n: int)
    | JStr(s: string)
    | JArr(items: seq<Json>)
    | JObj(fields: map<string, Json>)

  /** The outcome of `JSON.parse(s)`: it throws, or returns a value. */
  datatype ParseResult = ParseError | Parsed(value: Json)

  /**
   * `v.key` on a value other than `null` (on `null` it throws): the member of
   * an object, and `undefined` (`None`) for a missing key and for every
   * non-object, since arrays, strings, numbers and booleans carry none of the
   * keys the extractor reads.
   */
  function Prop(v: Json, key: string): (r: Option<Json>)
    requires !v.JNull?
    ensures r.Some? <==> v.JObj? && key in v.fields
    ensures r.Some? ==> r.value == v.fields[key]
  {
    if v.JObj? && key in v.fields then Some(v.fields[key]) else None
  }

  /** JavaScript truthiness; `None` is `undefined`. */
  predicate Truthy(v: Option<Json>)
  {
    match v
    case None => false
    case Some(JNull) => false
    case Some(JBool(b)) => b
    case Some(JNum(n)) => n != 0
    case Some(JStr(s)) => s != ""
    case Some(JArr(_)) => true
    case Some(JObj(_)) => true
  }

  /** `Array.isArray(v)`. */
  predicate IsArray(v: Option<Json>)
  {
    v.Some? && v.value.JArr?
  }

  function DigitChar(d: nat): (c: char)
    requires d < 10
    ensures '0' <= c <= '9'
  {
    ('0' as int + d) as char
  }

  /** The decimal digits of `n`, most significant first, without leading zeros. */
  function NatToDecimal(n: nat): (r: string)
    ensures |r| >= 1
    ensures forall i :: 0 <= i < |r| ==> '0' <= r[i] <= '9'
    ensures n > 0 ==> r[0] != '0'
  {
    if n < 10 then [DigitChar(n)] else NatToDecimal(n / 10) + [DigitChar(n % 10)]
  }

  /** `String(n)` for an integer-valued number. */
  function IntToDecimal(n: int): string
  {
    if n < 0 then "-" + NatToDecimal(-n) else NatToDecimal(n)
  }

  /**
   * Whether `String(v)` throws. An object converts through its `toString`
   * method; a parsed object with its own `toString` key holds a plain value
   * there instead of the inherited method, and its `valueOf` gives back the
   * object itself, so the conversion finds no primitive and throws a
   * `TypeError`. An array converts its elements, so it throws when one of
   * them does.
   */
  predicate StringThrows(v: Json)
  {
    match v
    case JObj(fields) => "toString" in fields
    case JArr(xs) => exists i :: 0 <= i < |xs| && StringThrows(xs[i])
    case _ => false
  }

  /**
   * `String(v)`, or `None` when it throws: an array is its elements
   * converted and joined with commas, `null` elements as empty strings;
   * every other object is "[object Object]".
   */
  function JsString(v: Json): (r: Option<string>)
    ensures r.None? <==> StringThrows(v)
    ensures v.JStr? ==> r == Some(v.s)
    ensures v.JNum? ==> r == Some(IntToDecimal(v.n))
    ensures v.JObj? && "toString" !in v.fields ==> r == Some("[object Object]")
  {
    match v
    case JNull => Some("null")
    case JBool(b) => Some(if b then "true" else "false")
    case JNum(n) => Some(IntToDecimal(n))
    case JStr(s) => Some(s)
    case JArr(xs) =>
      var parts := seq(|xs|, i requires 0 <= i < |xs| => if xs[i].JNull? then Some("") else JsString(xs[i]));
      assert forall i :: 0 <= i < |xs| ==> (parts[i].None? <==> StringThrows(xs[i]));
      if forall i :: 0 <= i < |parts| ==> parts[i].Some? then
        Some(Text.Join(seq(|parts|, i requires 0 <= i < |parts| && parts[i].Some? => parts[i].value), ","))
      else None
    case JObj(fields) => if "toString" in fields then None else Some("[object Object]")
  }
}
