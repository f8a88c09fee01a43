/**
 * JSON values as the client sees them after `JSON.parse`, and the few pieces of
 * JavaScript semantics the core applies to them: property access, truthiness and
 * the string conversion of a template literal.
 *
 * The text codec itself (`JSON.parse` / `JSON.stringify`) is kept abstract: a
 * `Codec` is a pair of functions, and `Lawful` says that parsing what was
 * stringified gives the value back and that no value stringifies to the empty
 * text.
 */
module Json {
  import opened Wrappers

  datatype Json =
    | JNull
    | JBool(b: bool)
    | JNum(n: int)
    | JStr(s: string)
    | JArr(items: seq<Json>)
    | JObj(fields: map<string, Json>)

  /** `JSON.parse` (partial: `None` when it throws) and `JSON.stringify`. */
  datatype Codec = Codec(parse: string -> Option<Json>, stringify: Json -> string)

  ghost predicate Lawful(c: Codec) {
    forall j :: c.parse(c.stringify(j)) == Some(j) && c.stringify(j) != ""
  }

  /** `v.key`: `None` stands for `undefined`; only objects have own properties here. */
  function Get(v: Json, key: string): (r: Option<Json>)
    ensures r.Some? <==> v.JObj? && key in v.fields
    ensures r.Some? ==> r.value == v.fields[key]
  {
    match v
    case JObj(fields) => if key in fields then Some(fields[key]) else None
    case _ => None
  }

  /** JavaScript truthiness of a parsed value (`undefined` is `None` and falsy). */
  predicate Truthy(v: Json) {
    match v
    case JNull => false
    case JBool(b) => b
    case JNum(n) => n != 0
    case JStr(s) => s != ""
    case JArr(_) => true
    case JObj(_) => true
  }

  /** Decimal digits of a natural number, most significant first. */
  function Digits(n: nat): (r: string)
    ensures |r| >= 1
    ensures forall i :: 0 <= i < |r| ==> '0' <= r[i] <= '9'
    ensures DecimalValue(r) == n
    ensures n > 0 ==> r[0] != '0'
  {
    if n < 10 then [DigitChar(n)]
    else
      var init := Digits(n / 10);
      var r := init + [DigitChar(n % 10)];
      assert r[..|r| - 1] == init;
      r
  }

  function DigitChar(d: nat): (c: char)
    requires d < 10
    ensures '0' <= c <= '9' && c as int - '0' as int == d
  {
    ['0', '1', '2', '3', '4', '5', '6', '7', '8', '9'][d]
  }

  /** The number a string of decimal digits denotes, most significant first. */
  function DecimalValue(s: string): int {
    if s == [] then 0 else 10 * DecimalValue(s[..|s| - 1]) + (s[|s| - 1] as int - '0' as int)
  }

  /**
   * The string a template literal `${v}` produces: strings as they are, numbers in
   * decimal, `null` as "null", arrays joined with "," (a `null` item giving the
   * empty string), plain objects as "[object Object]".
   */
  function TemplateText(v: Json): string
    decreases v
  {
    match v
    case JNull => "null"
    case JBool(b) => if b then "true" else "false"
    case JNum(n) => if n < 0 then "-" + Digits(-n) else Digits(n)
    case JStr(s) => s
    case JArr(items) => JoinItems(v, items)
    case JObj(_) => "[object Object]"
  }

  /** `items.join(",")` for the items of the array `whole`. */
  function JoinItems(ghost whole: Json, items: seq<Json>): string
    requires forall i :: 0 <= i < |items| ==> items[i] < whole
    decreases whole, |items|
  {
    if items == [] then ""
    else
      var first := if items[0] == JNull then "" else TemplateText(items[0]);
      if |items| == 1 then first else first + "," + JoinItems(whole, items[1..])
  }
}
