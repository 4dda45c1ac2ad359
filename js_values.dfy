/**
 * The JavaScript values that the serverless handlers pass around as errors and
 * request bodies, with the three language operations the error path relies on:
 * truthiness (ToBoolean), `String(v)` and `JSON.stringify(v)`.
 *
 * Numbers are integers, strings are sequences of Unicode scalar values, and an
 * object is the list of its own enumerable properties in insertion order. An
 * `Error` instance also carries its `name` and `message`, which are not
 * enumerable, so `JSON.stringify` does not show them. `Stringify` writes an
 * object's members in list order; JavaScript writes integer-like keys first,
 * in ascending numeric order, and that reordering is not modelled.
 */
module JsValues {
  import opened Wrappers

  datatype JsValue =
    | Undefined
    | Null
    | Bool(b: bool)
    | Num(n: int)
    | BigInt(big: int)
    | Str(s: string)
    | Obj(props: seq<Prop>)
    | ErrorObj(name: string, message: string, fields: seq<Prop>)

  datatype Prop = Prop(key: string, value: JsValue)

  /** The outcome of `JSON.stringify(v)`: a text, `undefined`, or a thrown TypeError. */
  datatype Json = Text(text: string) | Omitted | Throws

  /** The `typeof` operator. */
  function TypeOf(v: JsValue): (r: string)
    ensures r == "object" <==> v.Null? || v.Obj? || v.ErrorObj?
    ensures r == "undefined" <==> v.Undefined?
    ensures r in {"undefined", "object", "boolean", "number", "bigint", "string"}
  {
    match v
    case Undefined => "undefined"
    case Null => "object"
    case Bool(_) => "boolean"
    case Num(_) => "number"
    case BigInt(_) => "bigint"
    case Str(_) => "string"
    case Obj(_) => "object"
    case ErrorObj(_, _, _) => "object"
  }

  /** ToBoolean: the falsy values are undefined, null, false, 0, 0n and the empty string. */
  predicate Truthy(v: JsValue)
    ensures Truthy(v) <==> v !in {Undefined, Null, Bool(false), Num(0), BigInt(0), Str("")}
  {
    match v
    case Undefined => false
    case Null => false
    case Bool(b) => b
    case Num(n) => n != 0
    case BigInt(n) => n != 0
    case Str(s) => s != ""
    case Obj(_) => true
    case ErrorObj(_, _, _) => true
  }

  /** The first property called `key`, or `undefined`. */
  function Lookup(props: seq<Prop>, key: string): (r: JsValue)
    ensures r != Undefined ==> exists i :: 0 <= i < |props| && props[i] == Prop(key, r)
    ensures (forall i :: 0 <= i < |props| ==> props[i].key != key) ==> r == Undefined
    ensures forall i ::
      (0 <= i < |props| && props[i].key == key && forall j :: 0 <= j < i ==> props[j].key != key) ==>
        r == props[i].value
  {
    if props == [] then Undefined
    else if props[0].key == key then props[0].value
    else
      var rest := Lookup(props[1..], key);
      assert forall i :: 0 < i < |props| ==> props[1..][i - 1] == props[i];
      rest
  }

  /**
   * Property access `v[key]` on a value that is neither null nor undefined (on
   * those it throws). An `Error` answers `message` and `name` from its own
   * state; the properties that primitives inherit from their prototypes are
   * not modelled.
   */
  function Get(v: JsValue, key: string): (r: JsValue)
    requires v != Undefined && v != Null
    ensures v.Obj? ==> r == Lookup(v.props, key)
    ensures v.ErrorObj? && key == "message" ==> r == Str(v.message)
    ensures v.ErrorObj? && key == "name" ==> r == Str(v.name)
    ensures v.ErrorObj? && key != "message" && key != "name" ==> r == Lookup(v.fields, key)
    ensures !v.Obj? && !v.ErrorObj? ==> r == Undefined
  {
    match v
    case Obj(props) => Lookup(props, key)
    case ErrorObj(name, message, fields) =>
      if key == "message" then Str(message)
      else if key == "name" then Str(name)
      else Lookup(fields, key)
    case _ => Undefined
  }

  function DigitChar(d: nat): char
    requires d < 10
  {
    ('0' as int + d) as char
  }

  /** The number a string of decimal digits denotes, most significant digit first. */
  function DecimalValue(s: string): int
  {
    if s == [] then 0 else DecimalValue(s[..|s| - 1]) * 10 + (s[|s| - 1] as int - '0' as int)
  }

  /**
   * `r` is the canonical numeral of `n`: a '-' exactly when n is negative,
   * then a non-empty run of digits with no leading zero whose value is |n|.
   */
  predicate Numeral(r: string, n: int)
  {
    && |r| > 0
    && (r[0] == '-' <==> n < 0)
    && var digits := if n < 0 then r[1..] else r;
       && |digits| > 0
       && (forall i :: 0 <= i < |digits| ==> '0' <= digits[i] <= '9')
       && (digits[0] == '0' ==> |digits| == 1)
       && DecimalValue(digits) == (if n < 0 then -n else n)
  }

  /** The decimal numeral of a natural number, most significant digit first. */
  function NatToDecimal(n: nat): (r: string)
    ensures |r| > 0
    ensures forall i :: 0 <= i < |r| ==> '0' <= r[i] <= '9'
    ensures r[0] == '0' <==> n == 0
    ensures DecimalValue(r) == n
  {
    if n < 10 then [DigitChar(n)]
    else
      var prefix := NatToDecimal(n / 10);
      var r := prefix + [DigitChar(n % 10)];
      assert r[..|r| - 1] == prefix;
      r
  }

  /** Number::toString for an integral number. */
  function IntToDecimal(n: int): (r: string)
    ensures Numeral(r, n)
  {
    if n < 0 then
      var r := "-" + NatToDecimal(-n);
      assert r[1..] == NatToDecimal(-n);
      r
    else NatToDecimal(n)
  }

  /**
   * `String(v)`. A plain object prints as "[object Object]"; an `Error` prints
   * as Error.prototype.toString does: the name, ": " and the message, leaving
   * out whichever of the two is empty.
   */
  function StringOf(v: JsValue): (r: string)
    ensures v == Undefined ==> r == "undefined"
    ensures v == Null ==> r == "null"
    ensures v.Bool? ==> r == (if v.b then "true" else "false")
    ensures v.Str? ==> r == v.s
    ensures v.Num? ==> Numeral(r, v.n)
    ensures v.BigInt? ==> Numeral(r, v.big)
    ensures v.ErrorObj? && v.name == "" ==> r == v.message
    ensures v.ErrorObj? && v.name != "" && v.message == "" ==> r == v.name
    ensures v.ErrorObj? && v.name != "" && v.message != "" ==> r == v.name + ": " + v.message
    ensures v.Obj? ==> r == "[object Object]"
  {
    match v
    case Undefined => "undefined"
    case Null => "null"
    case Bool(b) => if b then "true" else "false"
    case Num(n) => IntToDecimal(n)
    case BigInt(n) => IntToDecimal(n)
    case Str(s) => s
    case Obj(_) => "[object Object]"
    case ErrorObj(name, message, _) =>
      if name == "" then message
      else if message == "" then name
      else name + ": " + message
  }

  // ---------------------------------------------------------------------
  // JSON string quoting (QuoteJSONString) and its decoder
  // ---------------------------------------------------------------------

  function HexDigit(d: nat): char
    requires d < 16
  {
    if d < 10 then ('0' as int + d) as char else ('a' as int + d - 10) as char
  }

  /** The value of a hexadecimal digit, either case. */
  function HexValue(c: char): Option<nat>
  {
    if '0' <= c <= '9' then Some(c as int - '0' as int)
    else if 'a' <= c <= 'f' then Some(c as int - 'a' as int + 10)
    else if 'A' <= c <= 'F' then Some(c as int - 'A' as int + 10)
    else None
  }

  /** How JSON.stringify writes one character inside a string literal. */
  function EscapeChar(c: char): string
  {
    if c == '"' then "\\\""
    else if c == '\\' then "\\\\"
    else if c as int == 0x08 then "\\b"
    else if c as int == 0x0C then "\\f"
    else if c == '\n' then "\\n"
    else if c == '\r' then "\\r"
    else if c == '\t' then "\\t"
    else if c as int < 0x20 then "\\u00" + [HexDigit(c as int / 16), HexDigit(c as int % 16)]
    else [c]
  }

  function Escape(s: string): string
  {
    if s == [] then [] else EscapeChar(s[0]) + Escape(s[1..])
  }

  /** A string as a JSON string literal. */
  function Quote(s: string): string
  {
    "\"" + Escape(s) + "\""
  }

  function Prepend(c: char, rest: Option<string>): Option<string>
  {
    if rest.Some? then Some([c] + rest.value) else None
  }

  /** The value of the four hexadecimal digits of a `\u` escape. */
  function Hex4(h: string): Option<nat>
    requires |h| == 4
  {
    var d0, d1, d2, d3 := HexValue(h[0]), HexValue(h[1]), HexValue(h[2]), HexValue(h[3]);
    if d0.Some? && d1.Some? && d2.Some? && d3.Some? then
      Some(((d0.value * 16 + d1.value) * 16 + d2.value) * 16 + d3.value)
    else None
  }

  /**
   * The body of a JSON string literal (between its quotes) decoded, or None when
   * it is not well formed. A `\u` escape of a UTF-16 surrogate, which has no
   * Unicode scalar value of its own, is refused.
   */
  function Unescape(e: string): Option<string>
    decreases |e|
  {
    if e == [] then Some([])
    else if e[0] == '\\' then
      if |e| < 2 then None
      else if e[1] == '"' || e[1] == '\\' || e[1] == '/' then Prepend(e[1], Unescape(e[2..]))
      else if e[1] == 'b' then Prepend(0x08 as char, Unescape(e[2..]))
      else if e[1] == 'f' then Prepend(0x0C as char, Unescape(e[2..]))
      else if e[1] == 'n' then Prepend('\n', Unescape(e[2..]))
      else if e[1] == 'r' then Prepend('\r', Unescape(e[2..]))
      else if e[1] == 't' then Prepend('\t', Unescape(e[2..]))
      else if e[1] == 'u' && |e| >= 6 then
        var code := Hex4(e[2..6]);
        if code.Some? && (code.value < 0xD800 || 0xE000 <= code.value) then
          Prepend(code.value as char, Unescape(e[6..]))
        else None
      else None
    else if e[0] == '"' || e[0] as int < 0x20 then None
    else Prepend(e[0], Unescape(e[1..]))
  }

  lemma HexDigitValue(d: nat)
    requires d < 16
    ensures HexValue(HexDigit(d)) == Some(d)
  {
  }

  /** Decoding the escape of one character gives back that character, whatever follows. */
  lemma UnescapeEscapeChar(c: char, rest: string)
    ensures Unescape(EscapeChar(c) + rest) == Prepend(c, Unescape(rest))
  {
    var e := EscapeChar(c) + rest;
    if c as int < 0x20 && c != '\n' && c != '\r' && c != '\t' && c as int != 0x08 && c as int != 0x0C {
      var hi, lo := c as int / 16, c as int % 16;
      HexDigitValue(hi);
      HexDigitValue(lo);
      assert e[2..6] == ['0', '0', HexDigit(hi), HexDigit(lo)];
      assert e[6..] == rest;
      assert Hex4(e[2..6]) == Some(c as int);
    } else if c == '"' || c == '\\' || c as int < 0x20 {
      assert e[2..] == rest;
    } else {
      assert e[1..] == rest;
    }
  }

  /** Escape has a left inverse: the quoted text of a string decodes to that string. */
  lemma {:induction false} UnescapeEscape(s: string)
    ensures Unescape(Escape(s)) == Some(s)
  {
    if s != [] {
      UnescapeEscapeChar(s[0], Escape(s[1..]));
      UnescapeEscape(s[1..]);
      assert [s[0]] + s[1..] == s;
    }
  }

  // ---------------------------------------------------------------------
  // JSON.stringify
  // ---------------------------------------------------------------------

  /** True when a BigInt occurs somewhere inside the value: JSON.stringify refuses those. */
  predicate HasBigInt(v: JsValue)
  {
    match v
    case BigInt(_) => true
    case Obj(props) => exists i :: 0 <= i < |props| && HasBigInt(props[i].value)
    case ErrorObj(_, _, fields) => exists i :: 0 <= i < |fields| && HasBigInt(fields[i].value)
    case _ => false
  }

  /** ",".join(parts) */
  function Join(parts: seq<string>): string
  {
    if parts == [] then ""
    else if |parts| == 1 then parts[0]
    else parts[0] + "," + Join(parts[1..])
  }

  /**
   * The `"key":value` members of an object whose property values serialise to
   * `parts`; a member whose value serialises to undefined is left out, and None
   * means that some value threw.
   */
  function Members(props: seq<Prop>, parts: seq<Json>): (r: Option<seq<string>>)
    requires |props| == |parts|
    ensures r.None? <==> exists i :: 0 <= i < |parts| && parts[i].Throws?
  {
    if props == [] then Some([])
    else
      var rest := Members(props[1..], parts[1..]);
      if parts[0].Throws? || rest.None? then
        assert rest.None? ==> exists i :: 1 <= i < |parts| && parts[i].Throws?;
        None
      else if parts[0].Omitted? then
        assert forall i :: 1 <= i < |parts| ==> !parts[i].Throws?;
        rest
      else
        assert forall i :: 1 <= i < |parts| ==> !parts[i].Throws?;
        Some([Quote(props[0].key) + ":" + parts[0].text] + rest.value)
  }

  function StringifyObject(props: seq<Prop>, parts: seq<Json>): (r: Json)
    requires |props| == |parts|
    ensures r.Throws? <==> exists i :: 0 <= i < |parts| && parts[i].Throws?
    ensures !r.Omitted?
  {
    var members := Members(props, parts);
    if members.None? then Throws else Text("{" + Join(members.value) + "}")
  }

  /**
   * `JSON.stringify(v)`: undefined is not serialised, a BigInt throws, and an
   * object (an `Error` included) becomes the members of its own enumerable
   * properties. Values have no cycles and no `toJSON` methods here, so a
   * BigInt is the one way the call can throw.
   */
  function Stringify(v: JsValue): (r: Json)
    ensures r.Omitted? <==> v == Undefined
    ensures r.Throws? <==> HasBigInt(v)
    decreases v
  {
    match v
    case Undefined => Omitted
    case Null => Text("null")
    case Bool(b) => Text(if b then "true" else "false")
    case Num(n) => Text(IntToDecimal(n))
    case BigInt(_) => Throws
    case Str(s) => Text(Quote(s))
    case Obj(props) =>
      var parts := seq(|props|, i requires 0 <= i < |props| => Stringify(props[i].value));
      assert forall i :: 0 <= i < |props| ==> (parts[i].Throws? <==> HasBigInt(props[i].value));
      StringifyObject(props, parts)
    case ErrorObj(_, _, fields) =>
      var parts := seq(|fields|, i requires 0 <= i < |fields| => Stringify(fields[i].value));
      assert forall i :: 0 <= i < |fields| ==> (parts[i].Throws? <==> HasBigInt(fields[i].value));
      StringifyObject(fields, parts)
  }
}
