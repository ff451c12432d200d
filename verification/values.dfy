/**
  JavaScript values as they flow through the mailer: plain JSON-like data.

  A record is a `map<string, Value>`. A key that is present with the value
  `Undef` is kept apart from a key that is absent, because object spread copies
  such a key (and so overwrites an earlier value) while `defu` skips it.
  Numbers are integers: no option handled by the core is fractional.
 */
module Values {

  datatype Value =
    | Undef
    | Null
    | Bool(b: bool)
    | Num(n: int)
    | Str(s: string)
    | Arr(items: seq<Value>)
    | Obj(fields: map<string, Value>)

  type Record = map<string, Value>

  /** JavaScript truthiness: `undefined`, `null`, `false`, `0` and `""` are falsy. */
  predicate Truthy(v: Value) {
    match v
    case Undef => false
    case Null => false
    case Bool(b) => b
    case Num(n) => n != 0
    case Str(s) => s != ""
    case Arr(_) => true
    case Obj(_) => true
  }

  /** `v == null`, the test behind `??` and `?.`. */
  predicate Nullish(v: Value) {
    v.Undef? || v.Null?
  }

  /** Property read `v.k` (or `v?.k`): missing keys and non-objects read as `undefined`. */
  function Prop(v: Value, k: string): (r: Value)
    ensures v.Obj? && k in v.fields ==> r == v.fields[k]
    ensures !(v.Obj? && k in v.fields) ==> r == Undef
  {
    if v.Obj? && k in v.fields then v.fields[k] else Undef
  }

  /** Property read on a record. */
  function Get(m: Record, k: string): (r: Value)
    ensures r == Prop(Obj(m), k)
  {
    if k in m then m[k] else Undef
  }

  /** `a || b`. */
  function Or(a: Value, b: Value): (r: Value)
    ensures Truthy(a) ==> r == a
    ensures !Truthy(a) ==> r == b
  {
    if Truthy(a) then a else b
  }

  /** `a ?? b`. */
  function Coalesce(a: Value, b: Value): (r: Value)
    ensures Nullish(a) ==> r == b
    ensures !Nullish(a) ==> r == a
  {
    if Nullish(a) then b else a
  }

  /**
    Values the declared option types allow in a spread position (`...x`):
    an object, or something that spreads to nothing. Strings and arrays,
    which would spread their indices, are outside those types.
   */
  predicate Spreadable(v: Value) {
    !v.Str? && !v.Arr?
  }

  /** The own keys `...v` contributes to an object literal. */
  function Spread(v: Value): (r: Record)
    requires Spreadable(v)
    ensures v.Obj? ==> r == v.fields
    ensures !v.Obj? ==> r == map[]
  {
    if v.Obj? then v.fields else map[]
  }

  /** Decimal digits of a natural number, as `String(n)` prints them. */
  function NatToString(n: nat): (r: string)
    ensures |r| > 0
    ensures forall i :: 0 <= i < |r| ==> '0' <= r[i] <= '9'
    decreases n
  {
    var d := [(('0' as int) + n % 10) as char];
    if n < 10 then d else NatToString(n / 10) + d
  }

  /** Decimal text of an integer, with a leading `-` for negatives. */
  function IntToString(n: int): string {
    if n < 0 then "-" + NatToString(-n) else NatToString(n)
  }

  /**
    `String(v)`, the conversion a template literal applies: arrays join their
    elements with `,` (null and undefined elements print as nothing), plain
    objects print as `[object Object]`.
   */
  function ToText(v: Value): string
    decreases v
  {
    match v
    case Undef => "undefined"
    case Null => "null"
    case Bool(b) => if b then "true" else "false"
    case Num(n) => IntToString(n)
    case Str(s) => s
    case Arr(items) =>
      Join(seq(|items|, i requires 0 <= i < |items| => if Nullish(items[i]) then "" else ToText(items[i])))
    case Obj(_) => "[object Object]"
  }

  /** `parts.join(",")`. */
  function Join(parts: seq<string>): string {
    if |parts| == 0 then ""
    else if |parts| == 1 then parts[0]
    else parts[0] + "," + Join(parts[1..])
  }
}
