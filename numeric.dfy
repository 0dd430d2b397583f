/**
 * Decimal integers as Go's fmt and strconv packages treat them on a 64-bit
 * platform: `%d` formatting, strconv.ParseInt(s, 10, 64) and strconv.Atoi
 * (which, for a 64-bit int, accepts and rejects exactly what ParseInt does
 * and returns the same value on error).
 */
module Numeric {

  const MinInt64: int := -0x8000_0000_0000_0000
  const MaxInt64: int := 0x7FFF_FFFF_FFFF_FFFF
  const TwoTo64: int := 0x1_0000_0000_0000_0000

  /** Go's int64, and its int on a 64-bit platform. */
  type Int64 = x: int | MinInt64 <= x <= MaxInt64

  /** Two's-complement wrap-around of an int64 result (Go does not trap on overflow). */
  function Wrap64(x: int): (r: Int64)
    ensures MinInt64 <= x <= MaxInt64 ==> r == x
    ensures (x - r) % TwoTo64 == 0
  {
    var m := x % TwoTo64;
    assert x == (x / TwoTo64) * TwoTo64 + m;
    if m > MaxInt64 then m - TwoTo64 else m
  }

  predicate IsDigit(c: char) { '0' <= c <= '9' }

  predicate AllDigits(s: string) { forall i :: 0 <= i < |s| ==> IsDigit(s[i]) }

  function DigitChar(d: nat): (c: char)
    requires d < 10
    ensures IsDigit(c)
  {
    ('0' as int + d) as char
  }

  function DigitValue(c: char): (d: nat)
    requires IsDigit(c)
    ensures d < 10 && DigitChar(d) == c
  {
    c as int - '0' as int
  }

  /** The decimal digits of n, most significant first, with no leading zero. */
  function NatDigits(n: nat): (s: string)
    ensures |s| >= 1 && AllDigits(s)
    ensures n > 0 ==> s[0] != '0'
  {
    if n < 10 then [DigitChar(n)] else NatDigits(n / 10) + [DigitChar(n % 10)]
  }

  /** The number a non-empty run of decimal digits denotes. */
  function DigitsValue(s: string): nat
    requires AllDigits(s)
  {
    if s == [] then 0 else DigitsValue(s[..|s| - 1]) * 10 + DigitValue(s[|s| - 1])
  }

  lemma {:induction false} DigitsValueOfNatDigits(n: nat)
    ensures DigitsValue(NatDigits(n)) == n
  {
    if n >= 10 {
      var prefix := NatDigits(n / 10);
      var s := prefix + [DigitChar(n % 10)];
      assert s[..|s| - 1] == prefix;
      DigitsValueOfNatDigits(n / 10);
    }
  }

  /** The text %d writes for a natural number: digits only, and no leading
      zero unless the number is zero itself. */
  predicate IsDecimalText(s: string)
  {
    s != "" && AllDigits(s) && (s[0] == '0' ==> s == "0")
  }

  /** fmt.Sprintf("%d", n): a minus sign for a negative value, then the
      digits, with no '+' and no leading zero. */
  function FormatInt(n: int): (s: string)
    ensures |s| >= 1
    ensures s[0] == '-' <==> n < 0
    ensures n >= 0 ==> IsDecimalText(s)
    ensures n < 0 ==> |s| >= 2 && IsDecimalText(s[1..]) && s[1] != '0'
  {
    if n < 0 then "-" + NatDigits(-n) else NatDigits(n)
  }

  /** The outcomes of strconv.ParseInt: a value, a syntax error (value 0),
      or a range error carrying the int64 bound the input overflowed. */
  datatype ParseResult = Parsed(value: Int64) | SyntaxError | RangeError(clamped: Int64)

  predicate IsSign(c: char) { c == '+' || c == '-' }

  /** The value strconv.Atoi / ParseInt return next to their error. */
  function ParseValue(r: ParseResult): (v: Int64)
    ensures r.Parsed? ==> v == r.value
    ensures r.SyntaxError? ==> v == 0
    ensures r.RangeError? ==> v == r.clamped
  {
    match r
    case Parsed(v) => v
    case SyntaxError => 0
    case RangeError(v) => v
  }

  const MaxUint64: int := 0xFFFF_FFFF_FFFF_FFFF

  /** The characters after an optional leading sign. */
  function Body(s: string): (b: string)
    ensures |b| <= |s|
  {
    if s != "" && IsSign(s[0]) then s[1..] else s
  }

  /** The longest run of digits at the start of s. */
  function DigitRun(s: string): (r: string)
    ensures |r| <= |s| && r == s[..|r|] && AllDigits(r)
    ensures |r| < |s| ==> !IsDigit(s[|r|])
  {
    if s == [] || !IsDigit(s[0]) then [] else [s[0]] + DigitRun(s[1..])
  }

  /**
   * strconv.ParseInt(s, 10, 64). Its ParseUint loop reads the characters
   * after an optional '+' or '-' one by one: a non-digit is a syntax error
   * (there are no underscores in base 10), and a digit that takes the
   * value past 2^64-1 is a range error at once, whatever follows. So the
   * leading run of digits decides first: past 2^64-1 it is a range error;
   * otherwise anything after it, or an empty run, is a syntax error. A
   * value outside int64 is a range error too. A range error returns the
   * bound on the side of the sign.
   */
  function ParseInt64(s: string): (r: ParseResult)
    ensures s == "" ==> r == SyntaxError
    ensures Body(s) == "" ==> r == SyntaxError
    ensures r.RangeError? ==> r.clamped == (if s[0] == '-' then MinInt64 else MaxInt64)
    ensures r.Parsed? ==> Body(s) != "" && AllDigits(Body(s))
    ensures r.Parsed? && r.value < 0 ==> s[0] == '-'
  {
    if s == "" then SyntaxError
    else
      var neg := s[0] == '-';
      var body := Body(s);
      var run := DigitRun(body);
      if DigitsValue(run) > MaxUint64 then RangeError(if neg then MinInt64 else MaxInt64)
      else if body == "" || |run| < |body| then SyntaxError
      else
        assert run == body;
        var u := DigitsValue(body);
        if !neg && u > MaxInt64 then RangeError(MaxInt64)
        else if neg && u > -MinInt64 then RangeError(MinInt64)
        else
          var v: int := if neg then -(u as int) else u;
          Parsed(v)
  }

  lemma {:induction false} DigitRunOfDigits(s: string)
    requires AllDigits(s)
    ensures DigitRun(s) == s
  {
    if s != [] {
      DigitRunOfDigits(s[1..]);
      assert [s[0]] + s[1..] == s;
    }
  }

  lemma {:induction false} DigitRunAppend(d: string, t: string)
    requires AllDigits(d)
    ensures DigitRun(d + t) == d + DigitRun(t)
  {
    if d != [] {
      assert (d + t)[0] == d[0] && (d + t)[1..] == d[1..] + t;
      DigitRunAppend(d[1..], t);
      assert [d[0]] + (d[1..] + DigitRun(t)) == d + DigitRun(t);
    } else {
      assert d + t == t && d + DigitRun(t) == DigitRun(t);
    }
  }

  /** Appending digits never lowers the value. */
  lemma {:induction false} DigitsValueGrows(d: string, t: string)
    requires AllDigits(d) && AllDigits(t)
    ensures AllDigits(d + t) && DigitsValue(d + t) >= DigitsValue(d)
  {
    assert AllDigits(d + t);
    if t != [] {
      var u := d + t;
      var shorter := d + t[..|t| - 1];
      assert u[..|u| - 1] == shorter;
      DigitsValueGrows(d, t[..|t| - 1]);
      assert DigitsValue(u) == DigitsValue(shorter) * 10 + DigitValue(u[|u| - 1]);
    } else {
      assert d + t == d;
    }
  }

  /** Every literal made of an optional sign and at least one digit, leading
      zeros included, parses to the value it denotes, or is a range error
      with the bound when that value lies outside int64. */
  lemma ParseLiteral(sign: string, digits: string)
    requires sign == "" || sign == "+" || sign == "-"
    requires digits != "" && AllDigits(digits)
    ensures var v := if sign == "-" then -(DigitsValue(digits) as int) else DigitsValue(digits);
      ParseInt64(sign + digits) ==
        if MinInt64 <= v <= MaxInt64 then Parsed(v)
        else RangeError(if sign == "-" then MinInt64 else MaxInt64)
  {
    var s := sign + digits;
    assert s[0] == (if sign == "" then digits[0] else sign[0]);
    assert Body(s) == digits by {
      if sign != "" { assert s[1..] == digits; }
    }
    DigitRunOfDigits(digits);
  }

  /** Once the leading digits exceed 2^64-1, whatever follows them, even a
      non-digit, the result is a range error with the bound of the sign. */
  lemma ParseOverflowFirst(sign: string, digits: string, tail: string)
    requires sign == "" || sign == "+" || sign == "-"
    requires AllDigits(digits) && DigitsValue(digits) > MaxUint64
    ensures ParseInt64(sign + digits + tail) == RangeError(if sign == "-" then MinInt64 else MaxInt64)
  {
    var s := sign + digits + tail;
    assert digits != [];
    assert s[0] == (if sign == "" then digits[0] else sign[0]);
    assert Body(s) == digits + tail by {
      if sign != "" { assert s[1..] == digits + tail; }
    }
    DigitRunAppend(digits, tail);
    DigitsValueGrows(digits, DigitRun(tail));
  }

  function Pow10(n: nat): nat
  {
    if n == 0 then 1 else 10 * Pow10(n - 1)
  }

  /** A run of n nines is 10^n - 1. */
  lemma {:induction false} AllNines(s: string)
    requires forall i :: 0 <= i < |s| ==> s[i] == '9'
    ensures AllDigits(s) && DigitsValue(s) == Pow10(|s|) - 1
  {
    if s != [] {
      AllNines(s[..|s| - 1]);
    }
  }

  /** Twenty nines and then a letter: the range error wins over the letter. */
  lemma ParseOverflowBeforeLetter()
    ensures ParseInt64("99999999999999999999x") == RangeError(MaxInt64)
  {
    var nines := "99999999999999999999";
    AllNines(nines);
    assert Pow10(5) == 100000;
    assert Pow10(10) == 10000000000;
    assert Pow10(15) == 1000000000000000;
    assert Pow10(|nines|) == Pow10(20) == 100000000000000000000;
    assert "" + nines + "x" == "99999999999999999999x";
    ParseOverflowFirst("", nines, "x");
  }

  /** Formatting then parsing gives every int64 back. */
  lemma FormatIntRoundTrip(n: Int64)
    ensures ParseInt64(FormatInt(n)) == Parsed(n)
  {
    if n < 0 {
      DigitsValueOfNatDigits(-(n as int));
      ParseLiteral("-", NatDigits(-(n as int)));
    } else {
      DigitsValueOfNatDigits(n);
      ParseLiteral("", NatDigits(n));
      assert "" + NatDigits(n) == NatDigits(n);
    }
  }

  /** The leading digit bounds the value from below. */
  lemma LeadingDigitBound(d: string)
    requires d != "" && AllDigits(d)
    ensures DigitsValue(d) >= DigitValue(d[0])
  {
    var head := d[..1];
    assert head + d[1..] == d;
    assert head[..0] == [];
    DigitsValueGrows(head, d[1..]);
  }

  /** Decimal text is the digits of its own value. */
  lemma {:induction false} NatDigitsOfValue(d: string)
    requires IsDecimalText(d)
    ensures NatDigits(DigitsValue(d)) == d
  {
    if |d| > 1 {
      var front := d[..|d| - 1];
      assert front[0] == d[0] != '0';
      NatDigitsOfValue(front);
      LeadingDigitBound(front);
      var v := DigitsValue(d);
      var c := DigitValue(d[|d| - 1]);
      assert v == DigitsValue(front) * 10 + c && v >= 10;
      assert v / 10 == DigitsValue(front) && v % 10 == c;
      assert front + [d[|d| - 1]] == d;
    }
  }

  /** %d is the only canonical text of a value: an input with no '+', no
      leading zero and no "-0" that parses to n is exactly FormatInt(n). */
  lemma FormatIntUnique(s: string, n: Int64)
    requires IsDecimalText(s) || (|s| >= 2 && s[0] == '-' && IsDecimalText(s[1..]) && s[1] != '0')
    requires ParseInt64(s) == Parsed(n)
    ensures s == FormatInt(n)
  {
    if s[0] == '-' {
      var digits := s[1..];
      assert "-" + digits == s;
      ParseLiteral("-", digits);
      LeadingDigitBound(digits);
      NatDigitsOfValue(digits);
    } else {
      assert "" + s == s;
      ParseLiteral("", s);
      NatDigitsOfValue(s);
    }
  }

  /** Distinct values format differently. */
  lemma FormatIntInjective(a: Int64, b: Int64)
    requires FormatInt(a) == FormatInt(b)
    ensures a == b
  {
    FormatIntRoundTrip(a);
    FormatIntRoundTrip(b);
  }

  /** When the leading digits fit in 64 bits, a character that is neither a
      digit nor a leading sign makes the input a syntax error. */
  lemma ParseRejectsNonDigit(s: string, i: nat)
    requires i < |s| && !IsDigit(s[i]) && !(i == 0 && IsSign(s[i]))
    requires DigitsValue(DigitRun(Body(s))) <= MaxUint64
    ensures ParseInt64(s) == SyntaxError
  {
    var body := Body(s);
    var j := if IsSign(s[0]) then i - 1 else i;
    assert 0 <= j < |body| && !IsDigit(body[j]) by {
      if IsSign(s[0]) { assert body == s[1..] && body[i - 1] == s[i]; }
    }
    var run := DigitRun(body);
    assert |run| <= j by {
      assert forall k :: 0 <= k < |run| ==> run[k] == body[k] && IsDigit(body[k]);
    }
  }

  /** A sign with no digits after it is a syntax error, not a range error. */
  lemma ParseLoneSign()
    ensures ParseInt64("+") == SyntaxError && ParseInt64("-") == SyntaxError
  {
    assert Body("+") == "" && Body("-") == "";
  }

  /** A leading '+' is accepted and means nothing. */
  lemma ParsePlusSign(s: string)
    requires s != "" && IsDigit(s[0])
    ensures ParseInt64("+" + s) == ParseInt64(s)
  {
    assert ("+" + s)[1..] == s;
  }
}
