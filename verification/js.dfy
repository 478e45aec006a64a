/**
 * The slice of JavaScript's value semantics the application relies on:
 * numbers that may be NaN, the dynamically typed values that arrive in a
 * request body or query string, `Number(x)`, `Math.abs` and the
 * `Number(x) || 0` idiom.
 */
module Js {

  /** A JavaScript number: a finite value or NaN. */
  datatype Num = Finite(value: real) | NaN

  /** A JSON value as it arrives in a request body or a query string. */
  datatype Value =
    | Undefined
    | Null
    | Bool(b: bool)
    | Number(n: Num)
    | Str(s: string)
    | Object

  /** `typeof v === "number" && !isNaN(v)` */
  predicate IsFiniteNumber(v: Value) {
    v.Number? && v.n.Finite?
  }

  /** `!v`: the falsy values. */
  predicate Falsy(v: Value) {
    match v
    case Undefined => true
    case Null => true
    case Bool(b) => !b
    case Number(n) => n == NaN || n.value == 0.0
    case Str(s) => s == ""
    case Object => false
  }

  predicate IsDigit(c: char) {
    '0' <= c <= '9'
  }

  predicate AllDigits(s: string) {
    forall i :: 0 <= i < |s| ==> IsDigit(s[i])
  }

  function DigitValue(c: char): (d: nat)
    requires IsDigit(c)
    ensures d < 10
  {
    c as int - '0' as int
  }

  /** The value of a string of decimal digits, read left to right. */
  function DigitsValue(s: string): nat
    requires AllDigits(s)
  {
    if s == [] then 0 else DigitsValue(s[..|s| - 1]) * 10 + DigitValue(s[|s| - 1])
  }

  function Pow10(k: nat): (p: nat)
    ensures p >= 1
  {
    if k == 0 then 1 else 10 * Pow10(k - 1)
  }

  /** The position of the first '.' in `s`, or `|s|` when there is none. */
  function DotPosition(s: string): (i: nat)
    ensures i <= |s|
    ensures i < |s| ==> s[i] == '.'
    ensures forall j :: 0 <= j < i ==> s[j] != '.'
  {
    if s == [] then 0
    else if s[0] == '.' then 0
    else 1 + DotPosition(s[1..])
  }

  /** An unsigned decimal literal: digits, optionally followed by '.' and digits. */
  function UnsignedDecimal(u: string): Num {
    var i := DotPosition(u);
    var whole := u[..i];
    if whole == [] || !AllDigits(whole) then NaN
    else if i == |u| then Finite(DigitsValue(whole) as real)
    else
      var fraction := u[i + 1..];
      if fraction == [] || !AllDigits(fraction) then NaN
      else Finite(DigitsValue(whole) as real + DigitsValue(fraction) as real / Pow10(|fraction|) as real)
  }

  function Negate(n: Num): Num {
    match n
    case Finite(x) => Finite(-x)
    case NaN => NaN
  }

  /** `Number(s)` for a string: the empty string is 0, an optionally signed
      decimal literal is its value, anything else is NaN. */
  function StringToNumber(s: string): Num {
    if s == "" then Finite(0.0)
    else if s[0] == '-' then Negate(UnsignedDecimal(s[1..]))
    else if s[0] == '+' then UnsignedDecimal(s[1..])
    else UnsignedDecimal(s)
  }

  /** `Number(v)` (and the unary `+v`) for any value. */
  function ToNumber(v: Value): Num {
    match v
    case Undefined => NaN
    case Null => Finite(0.0)
    case Bool(b) => Finite(if b then 1.0 else 0.0)
    case Number(n) => n
    case Str(s) => StringToNumber(s)
    case Object => NaN
  }

  /** `Math.abs(n)` */
  function AbsNum(n: Num): Num {
    match n
    case Finite(x) => Finite(if x < 0.0 then -x else x)
    case NaN => NaN
  }

  /** `n || 0` for a number: a falsy number (NaN or 0) gives 0, any other
      gives itself, so the result is always a finite number. */
  function OrZero(n: Num): (r: real)
    ensures Falsy(Number(n)) ==> r == 0.0
    ensures !Falsy(Number(n)) ==> n == Finite(r) && r != 0.0
  {
    match n
    case Finite(x) => x
    case NaN => 0.0
  }

  /** The decimal rendering of a natural number, as `String(n)` writes it. */
  function NatToString(n: nat): (s: string)
    ensures s != []
  {
    var d := ['0' + (n % 10) as char];
    if n < 10 then d else NatToString(n / 10) + d
  }

  lemma {:induction false} NatToStringDigits(n: nat)
    ensures AllDigits(NatToString(n)) && DigitsValue(NatToString(n)) == n
  {
    var d := ['0' + (n % 10) as char];
    if n >= 10 {
      NatToStringDigits(n / 10);
      var s := NatToString(n);
      assert s == NatToString(n / 10) + d;
      assert s[..|s| - 1] == NatToString(n / 10);
    }
  }

  /** `Number(String(n))` gives `n` back: reading a rendered number is lossless. */
  lemma NatRoundTrip(n: nat)
    ensures StringToNumber(NatToString(n)) == Finite(n as real)
    ensures StringToNumber("-" + NatToString(n)) == Finite(-(n as real))
  {
    var s := NatToString(n);
    NatToStringDigits(n);
    assert forall j :: 0 <= j < |s| ==> s[j] != '.';
    assert s[..|s|] == s;
    assert s[0] != '-' && s[0] != '+' by { assert IsDigit(s[0]); }
    assert ("-" + s)[1..] == s;
  }
}
