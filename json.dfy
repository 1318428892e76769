/** JSON values as both tiers of the application handle them (JSON per
    RFC 8259), with the parts of JavaScript's semantics that the core
    relies on: truthiness, property lookup and the conversion of a value to
    text. Numbers are integers in this model. */
module JsonValues {
  import opened Wrappers

  datatype Json =
    | JNull
    | JBool(b: bool)
    | JNum(n: int)
    | JStr(s: string)
    | JArr(items: seq<Json>)
    | JObj(members: map<string, Json>)

  /** JavaScript truthiness: `null`, `false`, `0` and `""` are falsy;
      every array and every object is truthy, even an empty one. */
  predicate Truthy(v: Json) {
    match v
    case JNull => false
    case JBool(b) => b
    case JNum(n) => n != 0
    case JStr(s) => s != ""
    case JArr(_) => true
    case JObj(_) => true
  }

  /** JavaScript `v[key]` (or `v?.[key]`) for the property names the core
      reads (`id`, `fields`, `name`, `detail`, `error`): only an object that
      holds the key has it; `None` stands for `undefined`. */
  function Prop(v: Json, key: string): (r: Option<Json>)
    ensures r.Some? <==> v.JObj? && key in v.members
    ensures r.Some? ==> r.value == v.members[key]
  {
    if v.JObj? && key in v.members then Some(v.members[key]) else None
  }

  function DigitChar(d: int): (c: char)
    requires 0 <= d < 10
    ensures '0' <= c <= '9' && c as int - '0' as int == d
  {
    (d + '0' as int) as char
  }

  predicate IsDigit(c: char) {
    '0' <= c <= '9'
  }

  /** The decimal digits of a natural number, most significant first and
      without leading zeros. */
  function NatString(n: nat): (s: string)
    ensures |s| >= 1
    ensures forall i :: 0 <= i < |s| ==> IsDigit(s[i])
    ensures s[0] == '0' ==> n == 0
  {
    if n < 10 then [DigitChar(n)] else NatString(n / 10) + [DigitChar(n % 10)]
  }

  /** Decimal text of an integer, as both `String(n)` in JavaScript and
      `f"{n}"` in Python render it. */
  function DecimalString(n: int): (s: string)
    ensures |s| >= 1
    ensures (s[0] == '-') <==> n < 0
  {
    if n < 0 then "-" + NatString(-n) else NatString(n)
  }

  /** The number a string of decimal digits denotes. */
  function DigitsValue(s: string): nat
    requires forall i :: 0 <= i < |s| ==> IsDigit(s[i])
  {
    if s == [] then 0
    else
      assert IsDigit(s[|s| - 1]);
      DigitsValue(s[..|s| - 1]) * 10 + (s[|s| - 1] as int - '0' as int)
  }

  lemma {:induction false} NatStringRoundTrip(n: nat)
    ensures DigitsValue(NatString(n)) == n
  {
    if n >= 10 {
      var s := NatString(n);
      assert s[..|s| - 1] == NatString(n / 10);
      NatStringRoundTrip(n / 10);
    }
  }

  /** Distinct integers print differently, so an identifier interpolated
      into a path or a label can be told apart from every other one. */
  lemma DecimalStringInjective(a: int, b: int)
    requires DecimalString(a) == DecimalString(b)
    ensures a == b
  {
    var s := DecimalString(a);
    assert (a < 0) == (b < 0) by {
      assert (s[0] == '-') == (a < 0) && (s[0] == '-') == (b < 0);
    }
    if a < 0 {
      assert s[1..] == NatString(-a) && s[1..] == NatString(-b);
      NatStringRoundTrip(-a);
      NatStringRoundTrip(-b);
    } else {
      NatStringRoundTrip(a);
      NatStringRoundTrip(b);
    }
  }

  /** Whether JavaScript can turn `v` into text at all. An object parsed
      from JSON that has its own `toString` key holds data there, not a
      function, so the conversion finds no callable `toString`, falls back
      to `Object.prototype.valueOf` (which gives the object back) and
      throws a TypeError; an array throws when one of its elements does.
      Every other value converts. */
  predicate Printable(v: Json)
    decreases v
  {
    match v
    case JArr(items) => AllPrintable(items)
    case JObj(members) => "toString" !in members
    case _ => true
  }

  /** Every element of `items` is `Printable`. */
  predicate AllPrintable(items: seq<Json>)
    decreases items
  {
    items == [] || (Printable(items[0]) && AllPrintable(items[1..]))
  }

  /** JavaScript `String(v)`: what `new Error(v)`, a template literal and
      `.toString()` make of a `Printable` value. An array is joined with
      commas, its `null` elements printing as nothing; every other object
      prints as "[object Object]". */
  function JsString(v: Json): (s: string)
    decreases v
    ensures v.JStr? ==> s == v.s
    ensures v.JNum? ==> s == DecimalString(v.n)
    ensures v == JArr([]) ==> s == ""
  {
    match v
    case JNull => "null"
    case JBool(b) => if b then "true" else "false"
    case JNum(n) => DecimalString(n)
    case JStr(s) => s
    case JArr(items) => JoinElements(items)
    case JObj(_) => "[object Object]"
  }

  /** `Array.prototype.join(",")` over the elements' texts. */
  function JoinElements(items: seq<Json>): string
    decreases items
  {
    if items == [] then ""
    else
      var first := if items[0] == JNull then "" else JsString(items[0]);
      if |items| == 1 then first else first + "," + JoinElements(items[1..])
  }
}
