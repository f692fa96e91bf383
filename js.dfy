/**
 * The JavaScript values the extension handles: JSON data (what the API
 * answers and what is kept in storage), the truthiness tests the code
 * applies to them (`x || ''`, `!x`), `String(x)` as used by template
 * literals and header values, property access, and thrown errors.
 */
module Js {
  import opened Wrappers

  /**
   * A JSON value. Numbers are modelled as integers; an object is a map from
   * its own property names to their values.
   */
  datatype Json =
    | JNull
    | JBool(b: bool)
    | JNum(n: int)
    | JStr(s: string)
    | JArr(items: seq<Json>)
    | JObj(fields: map<string, Json>)

  /** A thrown `Error`: its constructor name and its message. */
  datatype Exception = Exception(name: string, message: string)

  /** JavaScript truthiness: `null`, `false`, `0` and `''` are falsy, everything else is truthy. */
  predicate Truthy(v: Json): (b: bool)
    ensures !b <==> v in {JNull, JBool(false), JNum(0), JStr("")}
  {
    match v
    case JNull => false
    case JBool(b) => b
    case JNum(n) => n != 0
    case JStr(s) => s != ""
    case JArr(_) => true
    case JObj(_) => true
  }

  /** `x || fallback`, where `x` may be `undefined` (None). */
  function Or(x: Option<Json>, fallback: Json): (r: Json)
    ensures x.Some? && Truthy(x.value) ==> r == x.value
    ensures !(x.Some? && Truthy(x.value)) ==> r == fallback
  {
    if x.Some? && Truthy(x.value) then x.value else fallback
  }

  /** The digit character for `d`. */
  function DigitChar(d: nat): (c: char)
    requires d < 10
    ensures '0' <= c <= '9' && c as int - '0' as int == d
  {
    "0123456789"[d]
  }

  /** The decimal text of a natural number, without leading zeros. */
  function NaturalText(n: nat): (t: string)
    ensures |t| > 0
    ensures forall i :: 0 <= i < |t| ==> '0' <= t[i] <= '9'
    ensures |t| == 1 || t[0] != '0'
    ensures DigitsValue(t) == n
    decreases n
  {
    if n < 10 then [DigitChar(n)]
    else
      var t := NaturalText(n / 10) + [DigitChar(n % 10)];
      assert t[..|t| - 1] == NaturalText(n / 10);
      t
  }

  /** The number a string of decimal digits denotes, read most significant digit first. */
  function DigitsValue(t: string): (v: nat)
    requires forall i :: 0 <= i < |t| ==> '0' <= t[i] <= '9'
  {
    if t == [] then 0 else 10 * DigitsValue(t[..|t| - 1]) + (t[|t| - 1] as int - '0' as int)
  }

  /** `String(n)` for an integer-valued number. */
  function DecimalText(n: int): (t: string)
    ensures |t| > 0
    ensures t[0] == '-' <==> n < 0
    ensures forall i :: (if n < 0 then 1 else 0) <= i < |t| ==> '0' <= t[i] <= '9'
    ensures |t| >= (if n < 0 then 2 else 1)
    ensures |t| == (if n < 0 then 2 else 1) || t[if n < 0 then 1 else 0] != '0'
    ensures DigitsValue(t[(if n < 0 then 1 else 0)..]) == if n < 0 then -n else n
  {
    if n < 0 then
      var t := "-" + NaturalText(-n);
      assert t[1..] == NaturalText(-n);
      t
    else NaturalText(n)
  }

  /**
   * `String(v)`: what a template literal `${v}` inserts and what a header
   * value becomes. An array is `join(',')` of its elements, with `null`
   * elements written as the empty string; every object reads "[object Object]".
   */
  function ToText(v: Json): (t: string)
    ensures v.JStr? ==> t == v.s
    ensures v.JNum? ==> t == DecimalText(v.n)
    ensures v.JArr? && v.items == [] ==> t == ""
    ensures v.JObj? ==> t == "[object Object]"
    decreases v, 1
  {
    match v
    case JNull => "null"
    case JBool(b) => if b then "true" else "false"
    case JNum(n) => DecimalText(n)
    case JStr(s) => s
    case JArr(items) => Joined(Pieces(items))
    case JObj(_) => "[object Object]"
  }

  /** What each element contributes to `String()` of an array: `null` contributes nothing. */
  function Pieces(items: seq<Json>): (ps: seq<string>)
    ensures |ps| == |items|
    ensures forall k :: 0 <= k < |items| ==> ps[k] == if items[k] == JNull then "" else ToText(items[k])
    decreases JArr(items), 0
  {
    seq(|items|, k requires 0 <= k < |items| => if items[k] == JNull then "" else ToText(items[k]))
  }

  /** `parts.join(',')`: the parts separated by commas. */
  function Joined(parts: seq<string>): (t: string)
    ensures |parts| == 0 ==> t == ""
    ensures |parts| == 1 ==> t == parts[0]
  {
    if |parts| == 0 then "" else if |parts| == 1 then parts[0] else parts[0] + "," + Joined(parts[1..])
  }

  /** Joining two non-empty lists of parts is joining each, with one comma between. */
  lemma {:induction false} JoinedAppend(a: seq<string>, b: seq<string>)
    requires |a| > 0 && |b| > 0
    ensures Joined(a + b) == Joined(a) + "," + Joined(b)
    decreases |a|
  {
    if |a| > 1 {
      assert (a + b)[1..] == a[1..] + b;
      JoinedAppend(a[1..], b);
    } else {
      assert (a + b)[1..] == b;
    }
  }

  /** `String()` of two non-empty arrays put together is their texts with one comma between. */
  lemma ArrayText(a: seq<Json>, b: seq<Json>)
    requires |a| > 0 && |b| > 0
    ensures ToText(JArr(a + b)) == ToText(JArr(a)) + "," + ToText(JArr(b))
  {
    assert Pieces(a + b) == Pieces(a) + Pieces(b);
    JoinedAppend(Pieces(a), Pieces(b));
  }

  /** An own property of an object, or `undefined` (None) for anything else. */
  function Own(v: Json, name: string): (o: Option<Json>) {
    if v.JObj? && name in v.fields then Some(v.fields[name]) else None
  }

  /**
   * Reading `v[name]` for a property name fixed in the code. Reading a
   * property of `null` throws a TypeError; any other non-object has no
   * such own property and reads as `undefined`.
   */
  function Property(v: Json, name: string): (r: Result<Option<Json>, Exception>)
    ensures r.Err? <==> v == JNull
    ensures r.Ok? ==> r.value == Own(v, name)
    ensures r.Ok? && r.value.Some? ==> v.JObj? && name in v.fields
  {
    if v == JNull then Err(Exception("TypeError", "Cannot read properties of null (reading '" + name + "')"))
    else Ok(Own(v, name))
  }

  /** `JSON.stringify` and `JSON.parse` as a pair of functions; `parse` gives None where it throws. */
  datatype Codec = Codec(stringify: Json -> string, parse: string -> Option<Json>)

  /**
   * What the model relies on about JSON: parsing what was stringified gives
   * the value back, and `null` is written as the text "null" (so that
   * `JSON.parse(null)`, which parses `String(null)`, yields `null`).
   */
  ghost predicate Lawful(json: Codec) {
    && json.stringify(JNull) == "null"
    && forall v :: json.parse(json.stringify(v)) == Some(v)
  }
}
