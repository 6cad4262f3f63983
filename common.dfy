/**
  Shared vocabulary of the console's request handlers: optional values, the
  loosely-typed JSON values that arrive in request bodies and sit in
  schemaless document fields, JavaScript truthiness, and the ASCII model of
  the string built-ins (trim, toLowerCase, toUpperCase, startsWith, ...),
  decimal printing and parseInt.
*/
module Common {

  datatype Option<T> = None | Some(value: T)

  /** A JSON value as a handler sees it. Numbers are integers here; NaN and
      fractions are not modelled, but +Infinity is (an api limit may hold it). */
  datatype JsValue = Undefined | Null | Bool(b: bool) | Num(n: int) | PosInf | Str(s: string) | Obj

  /** `!!v` in JavaScript. */
  predicate Truthy(v: JsValue)
  {
    match v
    case Undefined => false
    case Null => false
    case Bool(b) => b
    case Num(n) => n != 0
    case PosInf => true
    case Str(s) => s != ""
    case Obj => true
  }

  /** `v === null || v === undefined`, the test behind `??`. */
  predicate Nullish(v: JsValue)
  {
    v.Undefined? || v.Null?
  }

  /** `typeof v === 'number'`. */
  predicate IsNumber(v: JsValue)
  {
    v.Num? || v.PosInf?
  }

  /** `a || b`: the first operand when truthy, else the second. */
  function OrElse(a: JsValue, b: JsValue): (r: JsValue)
    ensures Truthy(a) ==> r == a
    ensures !Truthy(a) ==> r == b
  {
    if Truthy(a) then a else b
  }

  /** `a ?? b`: the first operand unless it is null or undefined. */
  function Coalesce(a: JsValue, b: JsValue): (r: JsValue)
    ensures !Nullish(a) ==> r == a
    ensures Nullish(a) ==> r == b
  {
    if Nullish(a) then b else a
  }

  /** `typeof v === 'number' && v >= 0`, the validation shared by the write routes. */
  predicate IsNonNegativeNumber(v: JsValue)
  {
    (v.Num? && v.n >= 0) || v.PosInf?
  }

  /** An optional numeric document field read as `field || 0`. */
  function OrZero(x: Option<int>): int
  {
    if x.Some? then x.value else 0
  }

  /** Integers extended with +Infinity, for `Math.min` over limits. */
  datatype ExtInt = Fin(n: int) | Inf

  predicate ExtLe(a: ExtInt, b: ExtInt)
  {
    match (a, b)
    case (_, Inf) => true
    case (Inf, Fin(_)) => false
    case (Fin(x), Fin(y)) => x <= y
  }

  predicate ExtLt(a: ExtInt, b: ExtInt)
  {
    ExtLe(a, b) && a != b
  }

  function ExtMin(a: ExtInt, b: ExtInt): (r: ExtInt)
    ensures ExtLe(r, a) && ExtLe(r, b)
    ensures r == a || r == b
  {
    if ExtLe(a, b) then a else b
  }

  /** `typeof v === 'number' ? v : 0`. */
  function NumberOrZero(v: JsValue): (r: ExtInt)
    ensures v.Num? ==> r == Fin(v.n)
    ensures v.PosInf? ==> r == Inf
    ensures !IsNumber(v) ==> r == Fin(0)
  {
    match v
    case Num(n) => Fin(n)
    case PosInf => Inf
    case _ => Fin(0)
  }

  // ---------------------------------------------------------------------
  // Characters and strings (ASCII model of the JavaScript built-ins)
  // ---------------------------------------------------------------------

  /** The characters `\s` and `trim()` treat as white space (ASCII part). */
  predicate IsSpace(c: char)
  {
    c == ' ' || c == '\t' || c == '\n' || c == '\r' || c == '\U{0B}' || c == '\U{0C}'
  }

  predicate IsDigit(c: char)
  {
    '0' <= c <= '9'
  }

  predicate IsUpper(c: char)
  {
    'A' <= c <= 'Z'
  }

  predicate IsLower(c: char)
  {
    'a' <= c <= 'z'
  }

  predicate IsHexDigit(c: char)
  {
    IsDigit(c) || 'a' <= c <= 'f' || 'A' <= c <= 'F'
  }

  function LowerChar(c: char): (r: char)
    ensures IsUpper(c) ==> IsLower(r)
    ensures !IsUpper(c) ==> r == c
  {
    if IsUpper(c) then (c as int + 32) as char else c
  }

  function UpperChar(c: char): (r: char)
    ensures IsLower(c) ==> IsUpper(r)
    ensures !IsLower(c) ==> r == c
  {
    if IsLower(c) then (c as int - 32) as char else c
  }

  /** `s.toLowerCase()`. */
  function ToLower(s: string): (r: string)
    ensures |r| == |s|
    ensures forall i :: 0 <= i < |s| ==> r[i] == LowerChar(s[i])
  {
    seq(|s|, i requires 0 <= i < |s| => LowerChar(s[i]))
  }

  /** `s.toUpperCase()`. */
  function ToUpper(s: string): (r: string)
    ensures |r| == |s|
    ensures forall i :: 0 <= i < |s| ==> r[i] == UpperChar(s[i])
  {
    seq(|s|, i requires 0 <= i < |s| => UpperChar(s[i]))
  }

  /** Drops the leading white space. */
  function TrimStart(s: string): (r: string)
    ensures |r| <= |s| && r == s[|s| - |r|..]
    ensures forall i :: 0 <= i < |s| - |r| ==> IsSpace(s[i])
    ensures |r| > 0 ==> !IsSpace(r[0])
  {
    if |s| > 0 && IsSpace(s[0]) then TrimStart(s[1..]) else s
  }

  /** Drops the trailing white space. */
  function TrimEnd(s: string): (r: string)
    ensures |r| <= |s| && r == s[..|r|]
    ensures forall i :: |r| <= i < |s| ==> IsSpace(s[i])
    ensures |r| > 0 ==> !IsSpace(r[|r| - 1])
  {
    if |s| > 0 && IsSpace(s[|s| - 1]) then TrimEnd(s[..|s| - 1]) else s
  }

  /** `s.trim()`: the longest infix with no white space at either end. */
  function Trim(s: string): (r: string)
    ensures |r| <= |s|
    ensures |r| > 0 ==> !IsSpace(r[0]) && !IsSpace(r[|r| - 1])
  {
    TrimEnd(TrimStart(s))
  }

  /** A string with no white space at either end is its own trim. */
  lemma TrimIdempotent(s: string)
    ensures Trim(Trim(s)) == Trim(s)
  {
    var t := Trim(s);
    assert |t| > 0 ==> !IsSpace(t[0]);
    assert TrimStart(t) == t;
    assert |t| > 0 ==> !IsSpace(t[|t| - 1]);
    assert TrimEnd(t) == t;
  }

  predicate StartsWith(s: string, prefix: string)
  {
    |prefix| <= |s| && s[..|prefix|] == prefix
  }

  predicate EndsWith(s: string, suffix: string)
  {
    |suffix| <= |s| && s[|s| - |suffix|..] == suffix
  }

  /** `s.includes(part)`. */
  predicate Contains(s: string, part: string)
  {
    exists i :: 0 <= i <= |s| - |part| && OccursAt(s, part, i)
  }

  predicate OccursAt(s: string, part: string, i: int)
  {
    0 <= i <= |s| - |part| && s[i..i + |part|] == part
  }

  /** `s.includes(c)` for one character. */
  predicate HasChar(s: string, c: char)
  {
    exists i :: 0 <= i < |s| && s[i] == c
  }

  /** A 24-digit hexadecimal string: what `new ObjectId(s)` accepts. */
  predicate Hex24(s: string)
  {
    |s| == 24 && forall i :: 0 <= i < |s| ==> IsHexDigit(s[i])
  }

  // ---------------------------------------------------------------------
  // Decimal numbers: String(n) and parseInt(s, 10)
  // ---------------------------------------------------------------------

  function DigitChar(d: nat): (c: char)
    requires d < 10
    ensures IsDigit(c)
  {
    ('0' as int + d) as char
  }

  function DigitValue(c: char): (d: nat)
    requires IsDigit(c)
    ensures d < 10 && DigitChar(d) == c
  {
    c as int - '0' as int
  }

  /** `String(n)` for a natural number: decimal digits, no leading zero. */
  function NatToString(n: nat): (r: string)
    ensures |r| > 0
    ensures forall i :: 0 <= i < |r| ==> IsDigit(r[i])
    ensures |r| > 1 ==> r[0] != '0'
    decreases n
  {
    if n < 10 then [DigitChar(n)] else NatToString(n / 10) + [DigitChar(n % 10)]
  }

  /** `String(n)` for an integer. */
  function IntToString(n: int): (r: string)
    ensures |r| > 0
  {
    if n < 0 then "-" + NatToString(-n) else NatToString(n)
  }

  /** The value of a string of decimal digits. */
  function DigitsValue(s: string): (v: nat)
    requires forall i :: 0 <= i < |s| ==> IsDigit(s[i])
  {
    if |s| == 0 then 0 else DigitsValue(s[..|s| - 1]) * 10 + DigitValue(s[|s| - 1])
  }

  /** The longest prefix of decimal digits. */
  function DigitPrefix(s: string): (r: string)
    ensures |r| <= |s| && r == s[..|r|]
    ensures forall i :: 0 <= i < |r| ==> IsDigit(r[i])
    ensures |r| < |s| ==> !IsDigit(s[|r|])
  {
    if |s| > 0 && IsDigit(s[0]) then [s[0]] + DigitPrefix(s[1..]) else []
  }

  /** An optional sign followed by the longest run of digits; `None` when
      no digit follows the sign. */
  function ParseSigned(t: string): (r: Option<int>)
  {
    if |t| > 0 && t[0] == '-' then
      (var d := DigitPrefix(t[1..]); if d == [] then None else Some(-(DigitsValue(d) as int)))
    else if |t| > 0 && t[0] == '+' then
      (var d := DigitPrefix(t[1..]); if d == [] then None else Some(DigitsValue(d)))
    else
      (var d := DigitPrefix(t); if d == [] then None else Some(DigitsValue(d)))
  }

  /** `parseInt(s, 10)`: leading white space, an optional sign, then the
      longest run of digits; `None` is NaN (no digit after the sign). */
  function ParseInt(s: string): (r: Option<int>)
  {
    ParseSigned(TrimStart(s))
  }

  // ---------------------------------------------------------------------
  // parseInt(s) without a radix: a "0x" or "0X" after the sign selects
  // base 16, anything else is read in base 10
  // ---------------------------------------------------------------------

  function HexDigitValue(c: char): (d: nat)
    requires IsHexDigit(c)
    ensures d < 16
  {
    if IsDigit(c) then DigitValue(c)
    else if 'a' <= c <= 'f' then c as int - 'a' as int + 10
    else c as int - 'A' as int + 10
  }

  /** The value of a string of hexadecimal digits. */
  function HexDigitsValue(s: string): (v: nat)
    requires forall i :: 0 <= i < |s| ==> IsHexDigit(s[i])
  {
    if |s| == 0 then 0 else HexDigitsValue(s[..|s| - 1]) * 16 + HexDigitValue(s[|s| - 1])
  }

  /** The longest prefix of hexadecimal digits. */
  function HexDigitPrefix(s: string): (r: string)
    ensures |r| <= |s| && r == s[..|r|]
    ensures forall i :: 0 <= i < |r| ==> IsHexDigit(r[i])
    ensures |r| < |s| ==> !IsHexDigit(s[|r|])
  {
    if |s| > 0 && IsHexDigit(s[0]) then [s[0]] + HexDigitPrefix(s[1..]) else []
  }

  /** The text after an optional leading sign. */
  function Unsigned(t: string): string
  {
    if |t| > 0 && (t[0] == '-' || t[0] == '+') then t[1..] else t
  }

  predicate HexPrefixed(u: string)
  {
    |u| >= 2 && u[0] == '0' && (u[1] == 'x' || u[1] == 'X')
  }

  /** `parseInt(s)`: leading white space and an optional sign, then either
      "0x"/"0X" and the longest run of hexadecimal digits, or the longest
      run of decimal digits; `None` is NaN. */
  function ParseIntAuto(s: string): (r: Option<int>)
  {
    var t := TrimStart(s);
    if HexPrefixed(Unsigned(t)) then HexReading(t) else ParseInt(s)
  }

  /** The hexadecimal digits after the sign and "0x" of a trimmed `t`. */
  function HexReading(t: string): Option<int>
    requires HexPrefixed(Unsigned(t))
  {
    var h := HexDigitPrefix(Unsigned(t)[2..]);
    if h == [] then None
    else if Negative(t) then Some(-(HexDigitsValue(h) as int))
    else Some(HexDigitsValue(h))
  }

  /** Without the hexadecimal prefix the two readings agree. */
  lemma AutoIsDecimal(s: string)
    requires !HexPrefixed(Unsigned(TrimStart(s)))
    ensures ParseIntAuto(s) == ParseInt(s)
  {
  }

  /** With the prefix the radix-10 reading stops at the "x" and gives the
      sign of 0, while the radix-less reading takes the hexadecimal digits. */
  lemma AutoIsHex(s: string, d: string)
    requires HexPrefixed(Unsigned(TrimStart(s))) && Unsigned(TrimStart(s))[2..] == d
    requires |d| > 0 && forall i :: 0 <= i < |d| ==> IsHexDigit(d[i])
    ensures ParseInt(s) == Some(0)
    ensures ParseIntAuto(s) == Some(if Negative(TrimStart(s)) then -(HexDigitsValue(d) as int) else HexDigitsValue(d))
  {
    var t := TrimStart(s);
    HexReadingOf(t, d);
    DecimalStopsAtX(t, Unsigned(t));
    assert ParseInt(s) == ParseSigned(t);
  }

  lemma HexReadingOf(t: string, d: string)
    requires HexPrefixed(Unsigned(t)) && Unsigned(t)[2..] == d
    requires |d| > 0 && forall i :: 0 <= i < |d| ==> IsHexDigit(d[i])
    ensures HexReading(t) == Some(if Negative(t) then -(HexDigitsValue(d) as int) else HexDigitsValue(d))
  {
    HexDigitPrefixOfHexDigits(d);
  }

  predicate Negative(t: string)
  {
    |t| > 0 && t[0] == '-'
  }

  lemma DecimalStopsAtX(t: string, u: string)
    requires u == Unsigned(t) && HexPrefixed(u)
    ensures ParseSigned(t) == Some(0)
  {
    assert DigitPrefix(u[1..]) == [] by {
      assert !IsDigit(u[1]);
    }
    assert DigitPrefix(u) == "0" by {
      assert IsDigit(u[0]);
    }
    assert DigitsValue("0") == 0 by {
      assert "0"[..0] == [];
    }
    if |t| > 0 && (t[0] == '-' || t[0] == '+') {
      assert t[1..] == u;
    }
  }

  /** `parseInt("0x64")` is 100 where `parseInt("0x64", 10)` is 0. */
  lemma HexExample(s: string)
    requires s == "0x64"
    ensures ParseIntAuto(s) == Some(100) && ParseInt(s) == Some(0)
  {
    var d := "64";
    TrimStartNoSpace(s);
    assert Unsigned(s) == s && s[2..] == d;
    assert forall i :: 0 <= i < |d| ==> IsHexDigit(d[i]);
    assert d[..1] == "6";
    assert "6"[..0] == [];
    assert HexDigitsValue(d) == 100;
    AutoIsHex(s, d);
  }

  lemma {:induction false} HexDigitPrefixOfHexDigits(s: string)
    requires forall i :: 0 <= i < |s| ==> IsHexDigit(s[i])
    ensures HexDigitPrefix(s) == s
  {
    if |s| > 0 {
      assert IsHexDigit(s[0]);
      HexDigitPrefixOfHexDigits(s[1..]);
    }
  }

  /** `parseInt(v, 10)` on a JSON value: a number is printed first, a string
      parsed, anything else is NaN. */
  function ParseIntValue(v: JsValue): (r: Option<int>)
    ensures v.Num? ==> r == Some(v.n)
    ensures !v.Num? && !v.Str? ==> r == None
  {
    match v
    case Num(n) => IntToStringParses(n); ParseInt(IntToString(n))
    case Str(s) => ParseInt(s)
    case _ => None
  }

  /** A number as a template literal prints it (`${v}`): decimal, or
      "Infinity". */
  function NumberText(v: JsValue): (r: string)
    requires IsNumber(v)
    ensures v.Num? ==> ParseInt(r) == Some(v.n)
  {
    match v
    case Num(n) => IntToStringParses(n); IntToString(n)
    case _ => "Infinity"
  }

  lemma {:induction false} DigitsValueOfNatToString(n: nat)
    ensures DigitsValue(NatToString(n)) == n
    decreases n
  {
    if n >= 10 {
      var r := NatToString(n);
      assert r[..|r| - 1] == NatToString(n / 10);
      DigitsValueOfNatToString(n / 10);
    }
  }

  lemma {:induction false} DigitPrefixOfDigits(s: string)
    requires forall i :: 0 <= i < |s| ==> IsDigit(s[i])
    ensures DigitPrefix(s) == s
  {
    if |s| > 0 {
      assert IsDigit(s[0]);
      DigitPrefixOfDigits(s[1..]);
    }
  }

  /** A string without blanks at either end is its own trim. */
  lemma TrimUnchanged(s: string)
    requires |s| > 0 && !IsSpace(s[0]) && !IsSpace(s[|s| - 1])
    ensures Trim(s) == s
  {
    assert TrimStart(s) == s;
  }

  lemma TrimStartNoSpace(s: string)
    requires |s| > 0 && !IsSpace(s[0])
    ensures TrimStart(s) == s
  {
  }

  lemma ParseSignedDigits(d: string)
    requires |d| > 0 && forall i :: 0 <= i < |d| ==> IsDigit(d[i])
    ensures ParseSigned(d) == Some(DigitsValue(d))
  {
    DigitPrefixOfDigits(d);
    assert d[0] != '-' && d[0] != '+' by { assert IsDigit(d[0]); }
  }

  lemma ParseSignedNegativeDigits(d: string)
    requires |d| > 0 && forall i :: 0 <= i < |d| ==> IsDigit(d[i])
    ensures ParseSigned("-" + d) == Some(-(DigitsValue(d) as int))
  {
    DigitPrefixOfDigits(d);
    var t := "-" + d;
    assert t[0] == '-';
    assert t[1..] == d;
  }

  /** Printing then parsing gives the integer back. */
  lemma IntToStringParses(n: int)
    ensures ParseInt(IntToString(n)) == Some(n)
  {
    var m: nat := if n < 0 then -n else n;
    var d := NatToString(m);
    DigitsValueOfNatToString(m);
    if n < 0 {
      ParseSignedNegativeDigits(d);
      TrimStartNoSpace("-" + d);
    } else {
      ParseSignedDigits(d);
      TrimStartNoSpace(d);
    }
  }

  // ---------------------------------------------------------------------
  // Sums
  // ---------------------------------------------------------------------

  function Sum(s: seq<int>): int
  {
    if |s| == 0 then 0 else s[0] + Sum(s[1..])
  }

  lemma {:induction false} SumConcat(a: seq<int>, b: seq<int>)
    ensures Sum(a + b) == Sum(a) + Sum(b)
  {
    if |a| > 0 {
      assert (a + b)[0] == a[0];
      assert (a + b)[1..] == a[1..] + b;
      SumConcat(a[1..], b);
    } else {
      assert a + b == b;
    }
  }

  // ---------------------------------------------------------------------
  // Array.prototype.filter
  // ---------------------------------------------------------------------

  /** The elements of `s` satisfying `p`, in their order. */
  function Filter<T>(s: seq<T>, p: T -> bool): (r: seq<T>)
    ensures |r| <= |s|
    ensures forall k :: 0 <= k < |r| ==> r[k] in s && p(r[k])
    ensures forall k :: 0 <= k < |s| && p(s[k]) ==> s[k] in r
  {
    if |s| == 0 then []
    else if p(s[0]) then [s[0]] + Filter(s[1..], p)
    else Filter(s[1..], p)
  }

  /** An element that passes lands in the filtered sequence right after
      the passing elements before it. */
  lemma FilterPosition<T>(s: seq<T>, p: T -> bool, i: nat)
    requires i < |s| && p(s[i])
    ensures |Filter(s[..i], p)| < |Filter(s, p)|
    ensures Filter(s, p)[|Filter(s[..i], p)|] == s[i]
  {
    assert s == s[..i] + s[i..];
    FilterConcat(s[..i], s[i..], p);
    assert s[i..] == [s[i]] + s[i + 1..];
    FilterConcat([s[i]], s[i + 1..], p);
    assert Filter([s[i]], p) == [s[i]] by {
      assert [s[i]][1..] == [];
    }
  }

  lemma {:induction false} FilterConcat<T>(a: seq<T>, b: seq<T>, p: T -> bool)
    ensures Filter(a + b, p) == Filter(a, p) + Filter(b, p)
  {
    if |a| > 0 {
      assert (a + b)[0] == a[0];
      assert (a + b)[1..] == a[1..] + b;
      FilterConcat(a[1..], b, p);
    } else {
      assert a + b == b;
    }
  }
}
