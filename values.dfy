/**
 * The slice of JavaScript value semantics that the connection layer relies on:
 * truthiness, `typeof`, property reads, the string a value becomes when it is
 * used as a property key, `for..in` / `Object.keys`, ASCII lower-casing and
 * `parseInt`.
 */
module JsValues {

  datatype Option<+T> = None | Some(value: T)

  /** A JavaScript value. Numbers are integers; functions are known by identity only. */
  datatype Value =
    | Undefined
    | Null
    | Bool(b: bool)
    | Num(n: int)
    | Str(s: string)
    | Arr(items: seq<Value>)
    | Obj(props: map<string, Value>)
    | Fn(ref: nat)
    | ErrorObj(message: string)

  /** An exception thrown synchronously. */
  datatype Exception =
    | Error(message: string)
    | TypeError(what: string)

  /** The outcome of an operation that may throw. */
  datatype Result<+T> = Ok(value: T) | Throws(exception: Exception)

  /** The outcome of an operation that returns nothing but may throw. */
  datatype Completion = Normal | Threw(exception: Exception)

  /** The JavaScript value of a caught exception, as a promise rejection carries it. */
  function ExceptionValue(e: Exception): Value
  {
    match e
    case Error(message) => ErrorObj(message)
    case TypeError(what) => ErrorObj(what)
  }

  predicate Truthy(v: Value)
  {
    match v
    case Undefined => false
    case Null => false
    case Bool(b) => b
    case Num(n) => n != 0
    case Str(s) => s != ""
    case _ => true
  }

  predicate IsNullish(v: Value)
  {
    v.Undefined? || v.Null?
  }

  /** The `typeof` operator; note that `typeof null` is "object". */
  function TypeOf(v: Value): string
  {
    match v
    case Undefined => "undefined"
    case Null => "object"
    case Bool(_) => "boolean"
    case Num(_) => "number"
    case Str(_) => "string"
    case Arr(_) => "object"
    case Obj(_) => "object"
    case Fn(_) => "function"
    case ErrorObj(_) => "object"
  }

  /** `m[key]` on a plain object given by its own properties. */
  function Field(m: map<string, Value>, key: string): Value
  {
    if key in m then m[key] else Undefined
  }

  /** A mutable plain object shared by reference. */
  class JsObject {
    var props: map<string, Value>

    constructor(initial: map<string, Value>)
      ensures props == initial
    {
      props := initial;
    }
  }

  // ---------------------------------------------------------------------
  // Decimal text
  // ---------------------------------------------------------------------

  predicate IsDigit(c: char)
  {
    '0' <= c <= '9'
  }

  predicate AllDigits(s: string)
  {
    forall i :: 0 <= i < |s| ==> IsDigit(s[i])
  }

  function DigitChar(d: nat): char
    requires d < 10
  {
    "0123456789"[d]
  }

  function DigitValue(c: char): nat
    requires IsDigit(c)
  {
    (c - '0') as nat
  }

  /** Decimal digits of `n`, most significant first, without leading zeros. */
  function NatToString(n: nat): string
    decreases n
  {
    if n < 10 then [DigitChar(n)] else NatToString(n / 10) + [DigitChar(n % 10)]
  }

  /** `String(n)` for an integer. */
  function IntToString(n: int): string
  {
    if n < 0 then "-" + NatToString(-n) else NatToString(n)
  }

  /** The number an all-digit string spells in base 10. */
  function DecimalValue(s: string): nat
    requires AllDigits(s)
    decreases |s|
  {
    if s == [] then 0 else DecimalValue(s[..|s| - 1]) * 10 + DigitValue(s[|s| - 1])
  }

  lemma {:induction false} NatToStringSpellsN(n: nat)
    ensures var t := NatToString(n);
      && t != []
      && AllDigits(t)
      && DecimalValue(t) == n
      && (|t| > 1 ==> t[0] != '0')
    decreases n
  {
    DigitCharValue(n % 10);
    if n >= 10 {
      NatToStringSpellsN(n / 10);
      var head := NatToString(n / 10);
      var t := NatToString(n);
      assert t == head + [DigitChar(n % 10)];
      assert t[..|t| - 1] == head;
      assert t[0] == head[0];
      assert DecimalValue(t) == DecimalValue(head) * 10 + n % 10;
    } else {
      DigitCharValue(n);
    }
  }

  lemma DigitCharValue(d: nat)
    requires d < 10
    ensures IsDigit(DigitChar(d)) && DigitValue(DigitChar(d)) == d
    ensures d > 0 ==> DigitChar(d) != '0'
  {
  }

  /** The array index a property key names, if it is a canonical decimal index. */
  function CanonicalIndex(key: string): Option<nat>
  {
    if key != [] && AllDigits(key) && (key == "0" || key[0] != '0') then Some(DecimalValue(key))
    else None
  }

  lemma IndexKeyRoundTrip(i: nat)
    ensures CanonicalIndex(NatToString(i)) == Some(i)
  {
    NatToStringSpellsN(i);
    var t := NatToString(i);
    if |t| == 1 && t[0] == '0' {
      assert t == "0";
    }
  }

  // ---------------------------------------------------------------------
  // Property access and keys
  // ---------------------------------------------------------------------

  /**
   * `v[key]` on a value that is neither null nor undefined (reading a property
   * of those throws). Own properties only: members inherited from a prototype
   * read as undefined here.
   */
  function GetProp(v: Value, key: string): (r: Value)
    requires !IsNullish(v)
    ensures v.Obj? ==> r == Field(v.props, key)
    ensures v.Arr? && key == "length" ==> r == Num(|v.items|)
    ensures !(v.Obj? || v.Arr? || v.Str? || v.ErrorObj?) ==> r == Undefined
  {
    match v
    case Obj(m) => Field(m, key)
    case Arr(items) =>
      if key == "length" then Num(|items|)
      else (match CanonicalIndex(key)
            case Some(i) => if i < |items| then items[i] else Undefined
            case None => Undefined)
    case Str(s) =>
      if key == "length" then Num(|s|)
      else (match CanonicalIndex(key)
            case Some(i) => if i < |s| then Str([s[i]]) else Undefined
            case None => Undefined)
    case ErrorObj(message) => if key == "message" then Str(message) else Undefined
    case _ => Undefined
  }

  /** The keys `for..in` enumerates (and `Object.keys` returns, as a set). */
  function EnumerableKeys(v: Value): set<string>
  {
    match v
    case Obj(m) => m.Keys
    case Arr(items) => set i | 0 <= i < |items| :: NatToString(i)
    case Str(s) => set i | 0 <= i < |s| :: NatToString(i)
    case _ => {}
  }

  /** `Object.keys(v)`, which throws on null and undefined. */
  function ObjectKeys(v: Value): (r: Result<set<string>>)
    ensures r.Throws? <==> IsNullish(v)
    ensures r.Ok? ==> r.value == EnumerableKeys(v)
  {
    if IsNullish(v) then Throws(TypeError("Cannot convert undefined or null to object"))
    else Ok(EnumerableKeys(v))
  }

  function Join(parts: seq<string>, sep: string): string
  {
    if parts == [] then "" else if |parts| == 1 then parts[0] else parts[0] + sep + Join(parts[1..], sep)
  }

  /**
   * The string a value becomes when it indexes an object (`obj[v]`).
   * A function's source text is not modelled: every function becomes "function".
   */
  function PropertyKey(v: Value): string
    decreases v
  {
    match v
    case Undefined => "undefined"
    case Null => "null"
    case Bool(b) => if b then "true" else "false"
    case Num(n) => IntToString(n)
    case Str(s) => s
    case Arr(items) =>
      Join(seq(|items|, i requires 0 <= i < |items| =>
             if IsNullish(items[i]) then "" else PropertyKey(items[i])), ",")
    case Obj(_) => "[object Object]"
    case Fn(_) => "function"
    case ErrorObj(message) => if message == "" then "Error" else "Error: " + message
  }

  // ---------------------------------------------------------------------
  // Strings
  // ---------------------------------------------------------------------

  function LowerChar(c: char): char
  {
    if 'A' <= c <= 'Z' then (c - 'A' + 'a') as char else c
  }

  /**
   * `String.prototype.toLowerCase` on ASCII letters. For deciding whether a
   * word equals "tcp" or "tls" this is exact: no other character lowers to
   * one of the letters t, c, p, l, s.
   */
  function Lower(s: string): (r: string)
    ensures |r| == |s|
    ensures forall i :: 0 <= i < |s| ==> r[i] == LowerChar(s[i])
  {
    seq(|s|, i requires 0 <= i < |s| => LowerChar(s[i]))
  }

  predicate StartsWith(s: string, prefix: string)
  {
    |prefix| <= |s| && s[..|prefix|] == prefix
  }

  // ---------------------------------------------------------------------
  // parseInt
  // ---------------------------------------------------------------------

  /** The characters `parseInt` skips before the number (StrWhiteSpaceChar). */
  predicate IsJsSpace(c: char)
  {
    c == '\t' || c == '\n' || c == '\U{B}' || c == '\U{C}' || c == '\r' || c == ' '
    || c == '\U{A0}' || c == '\U{1680}' || ('\U{2000}' <= c <= '\U{200A}')
    || c == '\U{2028}' || c == '\U{2029}' || c == '\U{202F}' || c == '\U{205F}'
    || c == '\U{3000}' || c == '\U{FEFF}'
  }

  function TrimStart(s: string): (r: string)
    ensures |r| <= |s|
    ensures r == s[|s| - |r|..]
    ensures r != [] ==> !IsJsSpace(r[0])
  {
    if s != [] && IsJsSpace(s[0]) then TrimStart(s[1..]) else s
  }

  predicate IsHexDigit(c: char)
  {
    IsDigit(c) || 'a' <= c <= 'f' || 'A' <= c <= 'F'
  }

  function HexDigitValue(c: char): nat
    requires IsHexDigit(c)
  {
    if IsDigit(c) then DigitValue(c)
    else if 'a' <= c <= 'f' then (c - 'a') as nat + 10
    else (c - 'A') as nat + 10
  }

  /** The longest prefix of `s` made of decimal digits. */
  function DigitPrefix(s: string): (r: string)
    ensures AllDigits(r) && |r| <= |s| && r == s[..|r|]
  {
    if s != [] && IsDigit(s[0]) then [s[0]] + DigitPrefix(s[1..]) else []
  }

  /** The longest prefix of `s` made of hexadecimal digits. */
  function HexPrefix(s: string): (r: string)
    ensures (forall i :: 0 <= i < |r| ==> IsHexDigit(r[i])) && |r| <= |s| && r == s[..|r|]
  {
    if s != [] && IsHexDigit(s[0]) then [s[0]] + HexPrefix(s[1..]) else []
  }

  function HexValue(s: string): nat
    requires forall i :: 0 <= i < |s| ==> IsHexDigit(s[i])
    decreases |s|
  {
    if s == [] then 0 else HexValue(s[..|s| - 1]) * 16 + HexDigitValue(s[|s| - 1])
  }

  /** The unsigned part of `parseInt`: an optional 0x prefix, then the longest run of digits. */
  function ParseMagnitude(u: string): Option<nat>
  {
    if |u| >= 2 && u[0] == '0' && (u[1] == 'x' || u[1] == 'X') then
      var h := HexPrefix(u[2..]);
      if h == [] then None else Some(HexValue(h))
    else
      var d := DigitPrefix(u);
      if d == [] then None else Some(DecimalValue(d))
  }

  /**
   * `parseInt(s)` with no radix: leading white space, an optional sign, an
   * optional 0x prefix, then the longest run of digits; None stands for NaN.
   */
  function ParseInt(s: string): Option<int>
  {
    var t := TrimStart(s);
    if t != [] && t[0] == '-' then Signed(true, ParseMagnitude(t[1..]))
    else if t != [] && t[0] == '+' then Signed(false, ParseMagnitude(t[1..]))
    else Signed(false, ParseMagnitude(t))
  }

  function Signed(negative: bool, magnitude: Option<nat>): Option<int>
  {
    match magnitude
    case Some(m) => var v: int := m; if negative then Some(-v) else Some(v)
    case None => None
  }

  lemma {:induction false} DigitPrefixOfDigits(s: string)
    requires AllDigits(s)
    ensures DigitPrefix(s) == s
    decreases |s|
  {
    if s != [] {
      DigitPrefixOfDigits(s[1..]);
    }
  }

  lemma MagnitudeOfDigits(u: string)
    requires u != [] && AllDigits(u)
    ensures ParseMagnitude(u) == Some(DecimalValue(u))
  {
    DigitPrefixOfDigits(u);
    assert |u| >= 2 ==> IsDigit(u[1]);
  }

  lemma TrimStartKeeps(t: string)
    requires t != [] && !IsJsSpace(t[0])
    ensures TrimStart(t) == t
  {
  }

  /** `parseInt` of a run of digits is the number they spell. */
  lemma ParseDigits(d: string)
    requires d != [] && AllDigits(d)
    ensures ParseInt(d) == Some(DecimalValue(d))
  {
    MagnitudeOfDigits(d);
    assert IsDigit(d[0]);
    TrimStartKeeps(d);
    assert d[0] != '-' && d[0] != '+';
  }

  /** `parseInt` of a minus sign followed by a magnitude is the negated magnitude. */
  lemma ParseNegatedDigits(d: string, v: nat)
    requires ParseMagnitude(d) == Some(v)
    ensures ParseInt("-" + d) == Some(-(v as int))
  {
    ParseMinus(d);
  }

  /** After a leading minus sign, `parseInt` reads the magnitude and negates it. */
  lemma ParseMinus(d: string)
    ensures ParseInt("-" + d) == Signed(true, ParseMagnitude(d))
  {
    var t := "-" + d;
    assert t[0] == '-' && t[1..] == d;
    assert !IsJsSpace(t[0]);
    TrimStartKeeps(t);
  }

  /** Reading back the decimal text of any integer gives the integer. */
  lemma ParseIntRoundTrip(n: int)
    ensures ParseInt(IntToString(n)) == Some(n)
  {
    if n < 0 {
      ParseNegativeText(-n);
    } else {
      ParseNaturalText(n);
    }
  }

  lemma ParseNaturalText(m: nat)
    ensures ParseInt(NatToString(m)) == Some(m)
  {
    NatToStringSpellsN(m);
    ParseDigits(NatToString(m));
  }

  lemma ParseNegativeText(m: nat)
    requires m > 0
    ensures ParseInt(IntToString(-(m as int))) == Some(-(m as int))
  {
    NatToStringSpellsN(m);
    assert IntToString(-(m as int)) == "-" + NatToString(m);
    MagnitudeOfDigits(NatToString(m));
    ParseNegatedDigits(NatToString(m), m);
  }
}
