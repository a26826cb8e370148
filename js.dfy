// JavaScript value semantics that the front end relies on: identifiers that may be
// numbers or strings, String(x), truthiness, loose and strict equality, and the
// string helpers trim, split, join, parseInt and parseFloat on the inputs the
// forms produce.

module Js {

  datatype Option<+T> = None | Some(value: T)

  /** A JavaScript number produced by parseInt: an integer or NaN. */
  datatype JsInt = Int(n: int) | NaN

  /** JsInt addition (`x += q`): NaN absorbs. */
  function AddInt(x: JsInt, q: int): JsInt
  {
    match x
    case Int(n) => Int(n + q)
    case NaN => NaN
  }

  /** An identifier as received from the backend or a form: undefined, null, a number or a string. */
  datatype JsId = Undefined | Null | Num(n: int) | Str(s: string)

  // ---------------------------------------------------------------------------
  // Decimal digits

  predicate IsDigit(c: char) { '0' <= c <= '9' }

  predicate AllDigits(s: string) { forall i :: 0 <= i < |s| ==> IsDigit(s[i]) }

  function DigitChar(d: nat): (c: char)
    requires d < 10
    ensures IsDigit(c) && c as int - '0' as int == d
  {
    ('0' as int + d) as char
  }

  /** Decimal digits of n, most significant first, without leading zeros. */
  function NatToDecimal(n: nat): (s: string)
    ensures |s| > 0 && AllDigits(s)
  {
    if n < 10 then [DigitChar(n)] else NatToDecimal(n / 10) + [DigitChar(n % 10)]
  }

  /** The value of a string of decimal digits. */
  function DecimalValue(s: string): nat
    requires AllDigits(s)
  {
    if s == [] then 0 else DecimalValue(s[..|s| - 1]) * 10 + (s[|s| - 1] as int - '0' as int)
  }

  lemma {:induction false} DecimalValueOfNat(n: nat)
    ensures DecimalValue(NatToDecimal(n)) == n
  {
    if n >= 10 {
      var s := NatToDecimal(n);
      assert s[..|s| - 1] == NatToDecimal(n / 10);
      DecimalValueOfNat(n / 10);
    }
  }

  /** String(n) for an integer n. */
  function IntToString(n: int): (s: string)
    ensures |s| > 0 && (IsDigit(s[0]) || s[0] == '-')
  {
    if n < 0 then "-" + NatToDecimal(-n) else NatToDecimal(n)
  }

  /** The longest prefix of s made of decimal digits. */
  function DigitPrefix(s: string): (d: string)
    ensures d <= s && AllDigits(d)
    ensures |d| < |s| ==> !IsDigit(s[|d|])
  {
    if s == [] || !IsDigit(s[0]) then [] else [s[0]] + DigitPrefix(s[1..])
  }

  lemma {:induction false} DigitPrefixOfDigits(s: string)
    requires AllDigits(s)
    ensures DigitPrefix(s) == s
  {
    if s != [] {
      DigitPrefixOfDigits(s[1..]);
    }
  }

  // ---------------------------------------------------------------------------
  // Whitespace and trim (ECMAScript WhiteSpace and LineTerminator characters)

  predicate IsWhitespace(c: char)
  {
    c == '\t' || c == '\n' || c == '\U{B}' || c == '\U{C}' || c == '\r' || c == ' '
    || c == '\U{A0}' || c == '\U{1680}' || ('\U{2000}' <= c <= '\U{200A}')
    || c == '\U{2028}' || c == '\U{2029}' || c == '\U{202F}' || c == '\U{205F}'
    || c == '\U{3000}' || c == '\U{FEFF}'
  }

  /** String.prototype.trimStart. */
  function TrimStart(s: string): (t: string)
    ensures |t| <= |s| && t == s[|s| - |t|..]
    ensures t == [] || !IsWhitespace(t[0])
    ensures forall i :: 0 <= i < |s| - |t| ==> IsWhitespace(s[i])
  {
    if s != [] && IsWhitespace(s[0]) then TrimStart(s[1..]) else s
  }

  /** Drops trailing whitespace. */
  function TrimEnd(s: string): (t: string)
    ensures t <= s
    ensures t == [] || !IsWhitespace(t[|t| - 1])
    ensures forall i :: |t| <= i < |s| ==> IsWhitespace(s[i])
  {
    if s != [] && IsWhitespace(s[|s| - 1]) then TrimEnd(s[..|s| - 1]) else s
  }

  /** String.prototype.trim. */
  function Trim(s: string): string
  {
    TrimEnd(TrimStart(s))
  }

  /** A string with no whitespace at either end is its own trim. */
  lemma TrimOfTrimmed(s: string)
    requires s == [] || (!IsWhitespace(s[0]) && !IsWhitespace(s[|s| - 1]))
    ensures Trim(s) == s
  {
  }

  /** Trim yields the empty string exactly when every character is whitespace. */
  lemma TrimEmptyIff(s: string)
    ensures Trim(s) == [] <==> forall i :: 0 <= i < |s| ==> IsWhitespace(s[i])
  {
  }

  // ---------------------------------------------------------------------------
  // split and join on one separator character

  /** String.prototype.split(sep) for a one-character separator. */
  function Split(s: string, sep: char): (parts: seq<string>)
    ensures |parts| >= 1
  {
    if s == [] then [""]
    else if s[0] == sep then [""] + Split(s[1..], sep)
    else var rest := Split(s[1..], sep); [[s[0]] + rest[0]] + rest[1..]
  }

  /** Array.prototype.join(sep) for a one-character separator. */
  function Join(parts: seq<string>, sep: char): string
  {
    if parts == [] then ""
    else if |parts| == 1 then parts[0]
    else parts[0] + [sep] + Join(parts[1..], sep)
  }

  lemma {:induction false} SplitNoSeparator(s: string, sep: char)
    requires sep !in s
    ensures Split(s, sep) == [s]
  {
    if s != [] {
      assert s[0] != sep;
      SplitNoSeparator(s[1..], sep);
      assert [s[0]] + s[1..] == s;
    }
  }

  lemma {:induction false} SplitAtFirst(a: string, sep: char, b: string)
    requires sep !in a
    ensures Split(a + [sep] + b, sep) == [a] + Split(b, sep)
  {
    if a != [] {
      assert a[0] != sep;
      assert (a + [sep] + b)[1..] == a[1..] + [sep] + b;
      SplitAtFirst(a[1..], sep, b);
      assert [a[0]] + a[1..] == a;
    } else {
      assert (a + [sep] + b)[1..] == b;
    }
  }

  /** Splitting a join recovers the parts, when no part holds the separator. */
  lemma {:induction false} SplitJoin(parts: seq<string>, sep: char)
    requires |parts| >= 1
    requires forall i :: 0 <= i < |parts| ==> sep !in parts[i]
    ensures Split(Join(parts, sep), sep) == parts
  {
    if |parts| == 1 {
      SplitNoSeparator(parts[0], sep);
    } else {
      SplitJoin(parts[1..], sep);
      SplitAtFirst(parts[0], sep, Join(parts[1..], sep));
      assert parts == [parts[0]] + parts[1..];
    }
  }

  // ---------------------------------------------------------------------------
  // Number parsing

  /** An optional leading sign of a numeric string: (negative?, rest). */
  function SignAndRest(t: string): (bool, string)
  {
    if t != [] && (t[0] == '-' || t[0] == '+') then (t[0] == '-', t[1..]) else (false, t)
  }

  /**
   * parseInt(s) with no radix, for decimal input: leading whitespace, an optional
   * sign, then the longest run of digits; no digits gives NaN.
   */
  function ParseInt(s: string): JsInt
  {
    var (neg, u) := SignAndRest(TrimStart(s));
    var d := DigitPrefix(u);
    if d == [] then NaN
    else var v: int := DecimalValue(d); Int(if neg then -v else v)
  }

  /** parseInt reads back what String(n) prints. */
  lemma ParseIntOfString(n: int)
    ensures ParseInt(IntToString(n)) == Int(n)
  {
    var s := IntToString(n);
    assert TrimStart(s) == s;
    var digits := NatToDecimal(if n < 0 then -n else n);
    assert SignAndRest(s).1 == digits;
    DigitPrefixOfDigits(digits);
    DecimalValueOfNat(if n < 0 then -n else n);
  }

  function Pow10(k: nat): (p: nat)
    ensures p >= 1
  {
    if k == 0 then 1 else 10 * Pow10(k - 1)
  }

  /**
   * parseFloat(s) for plain decimal input: leading whitespace, an optional sign,
   * digits with an optional fractional part; None stands for NaN.
   */
  function ParseFloat(s: string): Option<real>
  {
    var (neg, u) := SignAndRest(TrimStart(s));
    var whole := DigitPrefix(u);
    var rest := u[|whole|..];
    var frac := if rest != [] && rest[0] == '.' then DigitPrefix(rest[1..]) else [];
    if whole == [] && frac == [] then None
    else
      var magnitude := DecimalValue(whole) as real + DecimalValue(frac) as real / Pow10(|frac|) as real;
      Some(if neg then -magnitude else magnitude)
  }

  /**
   * ToNumber(s) as used by loose equality, for integer literals: surrounding
   * whitespace, an optional sign and digits that make up the whole rest; the
   * empty string is 0; anything else is NaN.
   */
  function StringToNumber(s: string): JsInt
  {
    var t := Trim(s);
    if t == [] then Int(0)
    else
      var (neg, u) := SignAndRest(t);
      if u != [] && AllDigits(u) then var v: int := DecimalValue(u); Int(if neg then -v else v) else NaN
  }

  // ---------------------------------------------------------------------------
  // Identifier semantics

  /** String(x). */
  function ToStr(x: JsId): string
  {
    match x
    case Undefined => "undefined"
    case Null => "null"
    case Num(n) => IntToString(n)
    case Str(s) => s
  }

  /** Boolean(x). */
  predicate Truthy(x: JsId)
  {
    match x
    case Undefined => false
    case Null => false
    case Num(n) => n != 0
    case Str(s) => s != ""
  }

  /** x == y (abstract equality). Strict equality x === y is datatype equality. */
  predicate LooseEq(x: JsId, y: JsId)
  {
    match (x, y)
    case (Num(a), Str(b)) => StringToNumber(b) == Int(a)
    case (Str(a), Num(b)) => StringToNumber(a) == Int(b)
    case _ =>
      if (x.Undefined? || x.Null?) && (y.Undefined? || y.Null?) then true
      else x == y
  }

  /** Strict equality implies loose equality and equal String forms. */
  lemma StrictImpliesLoose(x: JsId, y: JsId)
    requires x == y
    ensures LooseEq(x, y) && ToStr(x) == ToStr(y)
  {
  }

  /** A number and its decimal string are equal loosely and as strings, never strictly. */
  lemma {:induction false} NumberAndItsString(n: nat)
    ensures LooseEq(Num(n), Str(IntToString(n)))
    ensures ToStr(Num(n)) == ToStr(Str(IntToString(n)))
    ensures Num(n) != Str(IntToString(n))
  {
    var s := NatToDecimal(n);
    assert IntToString(n) == s;
    TrimOfTrimmed(s);
    assert SignAndRest(s) == (false, s);
    DecimalValueOfNat(n);
    assert StringToNumber(s) == Int(n);
  }
}
