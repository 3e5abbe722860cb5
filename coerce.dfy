/**
 Python's `int(x)` applied to a decoded JSON value, as the handlers do to the
 `limit` parameter. Integers pass through, booleans become 0 or 1, strings are
 parsed as base-10 literals (surrounding whitespace stripped, an optional
 sign, digits with single underscores between them), and everything else
 raises a TypeError.
 */
module Coerce {
  import opened Json

  /** Python's `str.isspace()`. */
  predicate PythonIsSpace(c: char)
  {
    var n := c as int;
    (9 <= n <= 13) || (28 <= n <= 32) || n == 0x85 || n == 0xA0 || n == 0x1680
    || (0x2000 <= n <= 0x200A) || n == 0x2028 || n == 0x2029 || n == 0x202F
    || n == 0x205F || n == 0x3000
  }

  /** The characters `int()` strips: ASCII tab, LF, VT, FF, CR and space, and
      the non-ASCII characters for which `str.isspace()` is true. ASCII text
      reaches the C parser unchanged, which skips only the C `isspace`
      characters, while non-ASCII whitespace is first turned into a space. So
      U+001C to U+001F, which `str.isspace()` accepts, are not stripped. */
  predicate IsSpace(c: char)
  {
    var n := c as int;
    (9 <= n <= 13) || n == 32 || (n >= 128 && PythonIsSpace(c))
  }

  /** `int()` strips exactly the `str.isspace()` characters other than the
      four ASCII separators U+001C to U+001F. */
  lemma StrippedSpace(c: char)
    ensures IsSpace(c) <==> PythonIsSpace(c) && !(0x1C <= c as int <= 0x1F)
  {
  }

  predicate IsDigit(c: char)
  {
    '0' <= c <= '9'
  }

  /** `s` with its leading whitespace removed. */
  function TrimLeft(s: string): (r: string)
    ensures |r| <= |s| && r == s[|s| - |r|..]
    ensures r == [] || !IsSpace(r[0])
    ensures forall i :: 0 <= i < |s| - |r| ==> IsSpace(s[i])
  {
    if s != [] && IsSpace(s[0]) then TrimLeft(s[1..]) else s
  }

  /** `s` with its trailing whitespace removed. */
  function TrimRight(s: string): (r: string)
    ensures |r| <= |s| && r == s[..|r|]
    ensures r == [] || !IsSpace(r[|r| - 1])
    ensures forall i :: |r| <= i < |s| ==> IsSpace(s[i])
  {
    if s != [] && IsSpace(s[|s| - 1]) then TrimRight(s[..|s| - 1]) else s
  }

  /** `s` with the whitespace `int()` ignores removed from both ends: what
      `s.strip()` does, except that U+001C to U+001F stay. */
  function Strip(s: string): string
  {
    TrimRight(TrimLeft(s))
  }

  /** Position `i` of a run holds a digit, or an underscore that does not follow another. */
  predicate RunChar(t: string, i: int)
    requires 0 <= i < |t|
  {
    IsDigit(t[i]) || (t[i] == '_' && 0 < i && t[i - 1] != '_')
  }

  /** A non-empty run of digits in which every underscore sits between two digits. */
  predicate IsDigitRun(t: string)
  {
    && |t| > 0
    && IsDigit(t[0])
    && IsDigit(t[|t| - 1])
    && forall i :: 0 <= i < |t| ==> RunChar(t, i)
  }

  function DigitOf(c: char): nat
    requires IsDigit(c)
  {
    c as int - '0' as int
  }

  /** The base-10 value of a digit run; underscores are separators and carry no value. */
  function DigitsValue(t: string): nat
  {
    if t == [] then 0
    else if IsDigit(t[|t| - 1]) then DigitsValue(t[..|t| - 1]) * 10 + DigitOf(t[|t| - 1])
    else DigitsValue(t[..|t| - 1])
  }

  /** The number of digits in `t`; underscores and signs are not counted. */
  function DigitCount(t: string): (n: nat)
    ensures n <= |t|
  {
    if t == [] then 0
    else DigitCount(t[..|t| - 1]) + (if IsDigit(t[|t| - 1]) then 1 else 0)
  }

  /** A base-10 integer literal after stripping: a digit run with an optional sign. */
  predicate IsLiteral(t: string)
  {
    IsDigitRun(t) || (|t| > 0 && (t[0] == '+' || t[0] == '-') && IsDigitRun(t[1..]))
  }

  /** The ValueError text for a string `int()` cannot parse. CPython formats
      `repr(s)` with `%.200R`, keeping at most its first 200 characters; the
      model takes `s` between single quotes as that repr, without escaping. */
  function InvalidLiteral(s: string): (r: string)
    ensures |r| <= |InvalidLiteralText| + ReprLimit
  {
    var q := "'" + s + "'";
    InvalidLiteralText + (if |q| <= ReprLimit then q else q[..ReprLimit])
  }

  const InvalidLiteralText: string := "invalid literal for int() with base 10: "

  /** The precision of `%.200R` in that message. */
  const ReprLimit: nat := 200

  /** CPython's default bound on the number of digits `int()` and `str()`
      convert in base 10 (`sys.get_int_max_str_digits()`). */
  const MaxStrDigits: nat := 4300

  const ExceedsLimitText: string := "Exceeds the limit ("
  const ExceedsLimitMiddle: string := " digits) for integer string conversion: value has "
  const ExceedsLimitAdvice: string := " digits; use sys.set_int_max_str_digits() to increase the limit"

  /** The ValueError text for a well-formed literal of `digits` digits, more than the bound. */
  function ExceedsLimit(digits: nat): string
  {
    ExceedsLimitText + NatDigits(MaxStrDigits) + ExceedsLimitMiddle + NatDigits(digits) + ExceedsLimitAdvice
  }

  /** `int(s)` for a string `s`. A malformed literal is reported first; a
      well-formed one with more digits than the bound is refused next. */
  function IntOfString(s: string): (r: Outcome<int>)
    ensures r.Ok? <==> IsLiteral(Strip(s)) && DigitCount(Strip(s)) <= MaxStrDigits
    ensures r.Raised? && !IsLiteral(Strip(s)) ==> r.message == InvalidLiteral(s)
    ensures r.Raised? && IsLiteral(Strip(s)) ==> r.message == ExceedsLimit(DigitCount(Strip(s)))
  {
    ParseStripped(Strip(s), s)
  }

  /** `int(s)` once `s` has been stripped to `t`; the messages quote `s`. */
  function ParseStripped(t: string, s: string): Outcome<int>
  {
    if !IsLiteral(t) then Raised(InvalidLiteral(s))
    else if DigitCount(t) > MaxStrDigits then Raised(ExceedsLimit(DigitCount(t)))
    else if t[0] == '+' || t[0] == '-' then
      var v: int := DigitsValue(t[1..]);
      Ok(if t[0] == '-' then -v else v)
    else Ok(DigitsValue(t))
  }

  const NotConvertibleText: string := "int() argument must be a string, a bytes-like object or a real number, not '"

  /** The TypeError text for a value `int()` does not accept. */
  function NotConvertible(j: Json): string
  {
    NotConvertibleText + TypeName(j) + "'"
  }

  /** `int(j)` for a decoded JSON value. */
  function Int(j: Json): (r: Outcome<int>)
    ensures j.JInt? ==> r == Ok(j.i)
    ensures j.JBool? ==> r == Ok(if j.b then 1 else 0)
    ensures j.JStr? ==> r == IntOfString(j.s)
    ensures (j.JNull? || j.JArr? || j.JObj?) ==> r == Raised(NotConvertible(j))
  {
    match j
    case JInt(i) => Ok(i)
    case JBool(b) => Ok(if b then 1 else 0)
    case JStr(s) => IntOfString(s)
    case _ => Raised(NotConvertible(j))
  }

  function DigitChar(d: nat): (c: char)
    requires d < 10
    ensures IsDigit(c) && DigitOf(c) == d
  {
    ('0' as int + d) as char
  }

  /** `str(n)` for a natural number: its decimal digits, no leading zeros. */
  function NatDigits(n: nat): (r: string)
    ensures |r| > 0
    ensures forall i :: 0 <= i < |r| ==> IsDigit(r[i])
  {
    if n < 10 then [DigitChar(n)] else NatDigits(n / 10) + [DigitChar(n % 10)]
  }

  /** `str(n)` for an integer. */
  function Decimal(n: int): string
  {
    if n < 0 then "-" + NatDigits(-n) else NatDigits(n)
  }

  lemma {:induction false} NatDigitsValue(n: nat)
    ensures DigitsValue(NatDigits(n)) == n
  {
    var r := NatDigits(n);
    if n >= 10 {
      NatDigitsValue(n / 10);
      assert r[..|r| - 1] == NatDigits(n / 10);
    }
  }

  lemma NatDigitsIsRun(n: nat)
    ensures IsDigitRun(NatDigits(n))
  {
  }

  /** A string with no whitespace at either end is its own strip. */
  lemma StripUnpadded(s: string)
    requires s != [] && !IsSpace(s[0]) && !IsSpace(s[|s| - 1])
    ensures Strip(s) == s
  {
  }

  lemma {:induction false} DigitCountAppend(a: string, b: string)
    ensures DigitCount(a + b) == DigitCount(a) + DigitCount(b)
  {
    if b == [] {
      assert a + b == a;
    } else {
      DigitCountAppend(a, b[..|b| - 1]);
      assert (a + b)[..|a + b| - 1] == a + b[..|b| - 1];
    }
  }

  lemma {:induction false} DigitCountOfDigits(t: string)
    requires forall i :: 0 <= i < |t| ==> IsDigit(t[i])
    ensures DigitCount(t) == |t|
  {
    if t != [] {
      DigitCountOfDigits(t[..|t| - 1]);
    }
  }

  /** An unsigned digit run within the bound parses to its value. */
  lemma ParseUnsigned(t: string)
    requires IsDigitRun(t) && DigitCount(t) <= MaxStrDigits
    ensures IntOfString(t) == Ok(DigitsValue(t) as int)
  {
    StripUnpadded(t);
  }

  /** A digit run within the bound after a minus sign parses to the negated value. */
  lemma ParseNegative(t: string)
    requires IsDigitRun(t) && DigitCount(t) <= MaxStrDigits
    ensures IntOfString("-" + t) == Ok(-(DigitsValue(t) as int))
  {
    var s := "-" + t;
    assert s[|s| - 1] == t[|t| - 1];
    StripUnpadded(s);
    assert s[1..] == t;
    SignDigitCount('-', t);
    assert IntOfString(s) == ParseStripped(s, s);
    ParseMinusLiteral(s);
  }

  /** A literal with a minus sign parses to the negated value of its run. */
  lemma ParseMinusLiteral(t: string)
    requires IsLiteral(t) && t[0] == '-' && DigitCount(t) <= MaxStrDigits
    ensures ParseStripped(t, t) == Ok(-(DigitsValue(t[1..]) as int))
  {
  }

  /** A sign is not a digit. */
  lemma SignDigitCount(sign: char, t: string)
    requires sign == '+' || sign == '-'
    ensures DigitCount([sign] + t) == DigitCount(t)
  {
    DigitCountAppend([sign], t);
    assert [sign][..0] == [];
  }

  /** A leading "+" changes nothing: the run parses, or is refused for its
      length, exactly as without it. */
  lemma ParsePositive(t: string)
    requires IsDigitRun(t)
    ensures IntOfString("+" + t) == IntOfString(t)
  {
    var s := "+" + t;
    assert s[|s| - 1] == t[|t| - 1];
    StripUnpadded(s);
    StripUnpadded(t);
    assert s[1..] == t;
    SignDigitCount('+', t);
    assert s[0] == '+' && IsLiteral(s) && DigitCount(s) == DigitCount(t);
  }

  /** Stripping twice is stripping once. */
  lemma StripIdempotent(s: string)
    ensures Strip(Strip(s)) == Strip(s)
  {
    var t := Strip(s);
    if t != [] {
      var l := TrimLeft(s);
      assert t == l[..|t|];
      assert t[0] == l[0];
      StripUnpadded(t);
    }
  }

  /** Whitespace around a literal does not change its value. */
  lemma ParsePadded(s: string)
    requires IntOfString(s).Ok?
    ensures IntOfString(s) == IntOfString(Strip(s))
  {
    StripIdempotent(s);
  }

  /** A digit run longer than the bound is refused with the limit's message,
      not parsed. */
  lemma ParseTooLong(t: string)
    requires IsDigitRun(t) && DigitCount(t) > MaxStrDigits
    ensures IntOfString(t) == Raised(ExceedsLimit(DigitCount(t)))
  {
    StripUnpadded(t);
  }

  /** `int(str(n)) == n` wherever `str(n)` itself succeeds, that is for at most
      MaxStrDigits digits: a limit sent as a decimal string is read back as
      that integer. */
  lemma {:induction false} IntOfDecimal(n: int)
    requires |NatDigits(if n < 0 then -n else n)| <= MaxStrDigits
    ensures Int(JStr(Decimal(n))) == Ok(n)
  {
    var m: nat := if n < 0 then -n else n;
    NatDigitsValue(m);
    NatDigitsIsRun(m);
    DigitCountOfDigits(NatDigits(m));
    if n < 0 {
      ParseNegative(NatDigits(m));
    } else {
      ParseUnsigned(NatDigits(m));
    }
  }
}
