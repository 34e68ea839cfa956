/**
 * PHP value semantics used throughout the package: decoded JSON values,
 * string-keyed arrays, `isset`/`??` lookups, truthiness, string conversion,
 * ASCII lower-casing and the `(int)` cast of a string.
 */
module Php {

  datatype Option<+T> = None | Some(value: T) {
    function GetOr(default: T): T {
      match this
      case Some(v) => v
      case None => default
    }
  }

  /** The exception classes the package throws, each with its message. */
  datatype Error =
    | ApiError(message: string, code: int)        // UspsApiException
    | AuthenticationError(message: string)        // UspsAuthenticationException
    | ValidationError(message: string)            // UspsValidationException
    | ShippingError(message: string)              // UspsException and plain \Exception

  datatype Result<+T> = Ok(value: T) | Err(error: Error)

  /** A decoded JSON value; integers stand for every number. */
  datatype Value =
    | JNull
    | JBool(b: bool)
    | JNum(n: int)
    | JStr(s: string)
    | JList(items: seq<Value>)
    | JObj(fields: Dict)

  /** A string-keyed PHP array. */
  type Dict = map<string, Value>

  /** `isset($d[$k])`: the key is present and its value is not null. */
  predicate IsSet(d: Dict, k: string) {
    k in d && d[k] != JNull
  }

  /** `$d[$k]` where a missing key reads as null. */
  function At(d: Dict, k: string): Value {
    if k in d then d[k] else JNull
  }

  /** `$d[$k] ?? $default`. */
  function Or(d: Dict, k: string, default: Value): Value {
    if IsSet(d, k) then d[k] else default
  }

  /** `$v[$k]` on a value that may not be an array: null unless `v` has the key. */
  function Field(v: Value, k: string): Value {
    if v.JObj? then At(v.fields, k) else JNull
  }

  /** `$v[$k] ?? $default` on a value that may not be an array. */
  function FieldOr(v: Value, k: string, default: Value): Value {
    if Field(v, k) != JNull then Field(v, k) else default
  }

  /** The array held by `v`, or the empty array when `v` is not an object. */
  function AsDict(v: Value): Dict {
    if v.JObj? then v.fields else map[]
  }

  /** The elements of a JSON list, or none when `v` is not a list. */
  function AsList(v: Value): seq<Value> {
    if v.JList? then v.items else []
  }

  /** PHP truthiness: null, false, 0, "", "0" and the empty array are false. */
  predicate Truthy(v: Value) {
    match v
    case JNull => false
    case JBool(b) => b
    case JNum(n) => n != 0
    case JStr(s) => s != "" && s != "0"
    case JList(items) => items != []
    case JObj(fields) => fields != map[]
  }

  function DigitChar(d: nat): char
    requires d < 10
  {
    "0123456789"[d]
  }

  predicate IsDigit(c: char) {
    '0' <= c <= '9'
  }

  /** Decimal rendering of a natural number, as PHP writes integers. */
  function NatToString(n: nat): (s: string)
    ensures |s| >= 1
    ensures forall i :: 0 <= i < |s| ==> IsDigit(s[i])
  {
    if n < 10 then [DigitChar(n)] else NatToString(n / 10) + [DigitChar(n % 10)]
  }

  function IntToString(i: int): string {
    if i < 0 then "-" + NatToString(-i) else NatToString(i)
  }

  /** String conversion of a scalar (`"$v"`, `strval`); arrays become "Array". */
  function ToPhpString(v: Value): string {
    match v
    case JNull => ""
    case JBool(b) => if b then "1" else ""
    case JNum(n) => IntToString(n)
    case JStr(s) => s
    case JList(_) => "Array"
    case JObj(_) => "Array"
  }

  function LowerChar(c: char): char {
    if 'A' <= c <= 'Z' then (c as int + 32) as char else c
  }

  /** `strtolower`: ASCII letters only, byte by byte. */
  function Lower(s: string): (r: string)
    ensures |r| == |s|
    ensures forall i :: 0 <= i < |s| ==> r[i] == LowerChar(s[i])
  {
    if s == [] then [] else [LowerChar(s[0])] + Lower(s[1..])
  }

  /** Lower-casing twice changes nothing more than lower-casing once. */
  lemma LowerIdempotent(s: string)
    ensures Lower(Lower(s)) == Lower(s)
  {
    var once := Lower(s);
    var twice := Lower(once);
    assert forall i :: 0 <= i < |s| ==> twice[i] == once[i];
  }

  /** `t` is the lower-cased `s` when it is so character by character. */
  lemma LowerOf(s: string, t: string)
    requires |s| == |t| && forall i :: 0 <= i < |s| ==> LowerChar(s[i]) == t[i]
    ensures Lower(s) == t
  {
  }

  function DigitValue(c: char): nat
    requires IsDigit(c)
  {
    c as int - '0' as int
  }

  /** The value of a string of decimal digits, read from the right. */
  function DigitsValue(s: string): nat
    requires forall i :: 0 <= i < |s| ==> IsDigit(s[i])
  {
    if s == [] then 0
    else DigitsValue(s[..|s| - 1]) * 10 + DigitValue(s[|s| - 1])
  }

  /** The longest prefix of `s` made of decimal digits. */
  function DigitPrefix(s: string): (p: string)
    ensures |p| <= |s| && p == s[..|p|]
    ensures forall i :: 0 <= i < |p| ==> IsDigit(p[i])
    ensures |p| < |s| ==> !IsDigit(s[|p|])
  {
    if s == [] || !IsDigit(s[0]) then [] else [s[0]] + DigitPrefix(s[1..])
  }

  predicate IsPhpSpace(c: char) {
    c == ' ' || c == '\t' || c == '\n' || c == '\r' || c == '\U{000B}' || c == '\U{000C}'
  }

  function SkipSpaces(s: string): (r: string)
    ensures |r| <= |s| && r == s[|s| - |r|..]
    ensures r == [] || !IsPhpSpace(r[0])
  {
    if s != [] && IsPhpSpace(s[0]) then SkipSpaces(s[1..]) else s
  }

  /**
   * `(int) $s` for a string read as an integer: leading white space, an
   * optional sign and the longest run of decimal digits; a string that does
   * not start that way gives 0. A fraction or exponent after the digits is
   * ignored, and the result is unbounded.
   */
  function IntCast(s: string): int {
    var t := SkipSpaces(s);
    if t != [] && t[0] == '-' then 0 - DigitsValue(DigitPrefix(t[1..]))
    else if t != [] && t[0] == '+' then DigitsValue(DigitPrefix(t[1..]))
    else DigitsValue(DigitPrefix(t))
  }

  lemma {:induction false} DigitPrefixOfDigits(s: string, rest: string)
    requires forall i :: 0 <= i < |s| ==> IsDigit(s[i])
    requires rest == [] || !IsDigit(rest[0])
    ensures DigitPrefix(s + rest) == s
  {
    if s != [] {
      assert (s + rest)[0] == s[0];
      assert (s + rest)[1..] == s[1..] + rest;
      DigitPrefixOfDigits(s[1..], rest);
    } else {
      assert s + rest == rest;
    }
  }

  lemma {:induction false} DigitsValueOfNat(n: nat)
    ensures DigitsValue(NatToString(n)) == n
  {
    if n >= 10 {
      var s := NatToString(n);
      assert s == NatToString(n / 10) + [DigitChar(n % 10)];
      assert s[..|s| - 1] == NatToString(n / 10);
      assert DigitValue(s[|s| - 1]) == n % 10;
      DigitsValueOfNat(n / 10);
    } else {
      assert DigitValue(DigitChar(n)) == n;
    }
  }

  /**
   * Casting the decimal text of a number back with `(int)` gives the number,
   * whatever non-digit text follows it.
   */
  lemma IntCastOfNatToString(n: nat, rest: string)
    requires rest == [] || !IsDigit(rest[0])
    ensures IntCast(NatToString(n) + rest) == n
  {
    var digits := NatToString(n);
    var s := digits + rest;
    assert IsDigit(s[0]) by { assert s[0] == digits[0]; }
    assert SkipSpaces(s) == s;
    assert IntCast(s) == DigitsValue(DigitPrefix(s));
    DigitPrefixOfDigits(digits, rest);
    DigitsValueOfNat(n);
  }
}
