/**
 * Decimal numerals: the string-to-integer conversions the configuration
 * builder applies to its properties, and the `%d` formatting the client uses
 * for the TCP port.
 */
module Decimal {
  import opened Common

  predicate IsDigit(c: char) {
    '0' <= c <= '9'
  }

  predicate AllDigits(s: string) {
    forall i :: 0 <= i < |s| ==> IsDigit(s[i])
  }

  /** An unsigned decimal numeral: one or more ASCII digits, nothing else. */
  predicate IsDecimal(s: string) {
    |s| > 0 && AllDigits(s)
  }

  /** A numeral as `%d` prints it: no leading zero unless the number is zero. */
  predicate IsCanonical(s: string) {
    IsDecimal(s) && (s[0] == '0' ==> |s| == 1)
  }

  /** A signed numeral: an unsigned one, optionally preceded by `+` or `-`. */
  predicate IsSignedDecimal(s: string) {
    IsDecimal(s) || (|s| > 1 && (s[0] == '+' || s[0] == '-') && IsDecimal(s[1..]))
  }

  function DigitValue(c: char): nat
    requires IsDigit(c)
  {
    c as int - '0' as int
  }

  function DigitChar(d: nat): (c: char)
    requires d < 10
    ensures IsDigit(c) && DigitValue(c) == d
  {
    ('0' as int + d) as char
  }

  /** The number a string of digits denotes, most significant digit first. */
  function Value(s: string): nat
    requires AllDigits(s)
  {
    if s == [] then 0 else Value(s[..|s| - 1]) * 10 + DigitValue(s[|s| - 1])
  }

  /** The number a signed numeral denotes. */
  function SignedValue(s: string): int
    requires IsSignedDecimal(s)
  {
    if IsDecimal(s) then Value(s)
    else if s[0] == '-' then -(Value(s[1..]) as int)
    else Value(s[1..])
  }

  /** The left-to-right digit loop of a numeric parser: `acc` is what was read so far. */
  function Accumulate(acc: nat, s: string): nat
    requires AllDigits(s)
    decreases |s|
  {
    if s == [] then acc else Accumulate(acc * 10 + DigitValue(s[0]), s[1..])
  }

  /** Continuing the digit loop after a prefix `p` reads the value of `p + s`. */
  lemma {:induction false} AccumulateExtends(p: string, s: string)
    requires AllDigits(p) && AllDigits(s)
    ensures AllDigits(p + s) && Accumulate(Value(p), s) == Value(p + s)
    decreases |s|
  {
    if s == [] {
      assert p + s == p;
    } else {
      var p' := p + [s[0]];
      assert p'[..|p'| - 1] == p;
      AccumulateExtends(p', s[1..]);
      assert p' + s[1..] == p + s;
    }
  }

  /** The digits of a numeral, as `ParseInt` reads them after an optional sign: `None` is a syntax error. */
  function ParseNat(s: string): (r: Option<nat>)
    ensures r.Some? <==> IsDecimal(s)
    ensures r.Some? ==> r.value == Value(s)
  {
    if IsDecimal(s) then
      AccumulateExtends([], s);
      assert [] + s == s;
      Some(Accumulate(0, s))
    else
      None
  }

  /** The longest run of digits at the start of `s`. */
  function DigitPrefix(s: string): (p: string)
    ensures p <= s && AllDigits(p)
    ensures |p| < |s| ==> !IsDigit(s[|p|])
    ensures AllDigits(s) ==> p == s
    decreases |s|
  {
    if s == [] || !IsDigit(s[0]) then []
    else
      var rest := DigitPrefix(s[1..]);
      assert s == [s[0]] + s[1..];
      [s[0]] + rest
  }

  /** The outcome of bounded unsigned parsing. */
  datatype UintOutcome = Parsed(value: nat) | SyntaxError | RangeError

  /** The digit loop never lowers what it has read so far. */
  lemma {:induction false} AccumulateAtLeast(acc: nat, s: string)
    requires AllDigits(s)
    ensures Accumulate(acc, s) >= acc
    decreases |s|
  {
    if s != [] {
      AccumulateAtLeast(acc * 10 + DigitValue(s[0]), s[1..]);
    }
  }

  /**
   * The loop of `strconv.ParseUint` in base 10 after the digits that gave
   * `acc`: a non-digit is a syntax error, and the first digit that takes the
   * number to `limit` or beyond is a range error, whatever follows it.
   */
  function ScanUint(acc: nat, s: string, limit: nat): (r: UintOutcome)
    requires acc < limit
    ensures r.Parsed? <==> AllDigits(s) && Accumulate(acc, s) < limit
    ensures r.Parsed? ==> r.value == Accumulate(acc, s)
    ensures r.RangeError? <==> Accumulate(acc, DigitPrefix(s)) >= limit
    decreases |s|
  {
    if s == [] then Parsed(acc)
    else if !IsDigit(s[0]) then SyntaxError
    else
      var next := acc * 10 + DigitValue(s[0]);
      assert DigitPrefix(s) == [s[0]] + DigitPrefix(s[1..]);
      assert ([s[0]] + DigitPrefix(s[1..]))[1..] == DigitPrefix(s[1..]);
      if next >= limit then
        AccumulateAtLeast(next, DigitPrefix(s[1..]));
        RangeError
      else
        ScanUint(next, s[1..], limit)
  }

  /**
   * `strconv.ParseUint(s, 10, bits)` with `limit` == 2^bits: the value of an
   * all-digit text below the limit; a range error as soon as the leading digits
   * reach the limit; a syntax error otherwise (the empty text, a sign, any
   * other character).
   */
  function ParseUint(s: string, limit: nat): (r: UintOutcome)
    requires limit > 0
    ensures r.Parsed? <==> IsDecimal(s) && Value(s) < limit
    ensures r.Parsed? ==> r.value == Value(s)
    ensures r.RangeError? <==> Value(DigitPrefix(s)) >= limit
  {
    AccumulateExtends([], s[..|DigitPrefix(s)|]);
    assert s[..|DigitPrefix(s)|] == DigitPrefix(s);
    assert [] + DigitPrefix(s) == DigitPrefix(s);
    if s == [] then
      SyntaxError
    else
      assert AllDigits(s) ==> Accumulate(0, s) == Value(s) by {
        if AllDigits(s) {
          AccumulateExtends([], s);
          assert [] + s == s;
        }
      }
      ScanUint(0, s, limit)
  }

  /** Signed decimal parsing with an optional leading `+` or `-`. */
  function ParseInt(s: string): (r: Option<int>)
    ensures r.Some? <==> IsSignedDecimal(s)
    ensures r.Some? ==> r.value == SignedValue(s)
  {
    if |s| > 0 && (s[0] == '+' || s[0] == '-') then
      match ParseNat(s[1..])
      case None => None
      case Some(v) => Some(if s[0] == '-' then -(v as int) else v)
    else
      ParseNat(s)
  }

  /** `%d` of a natural number. */
  function FormatNat(n: nat): (s: string)
    ensures IsCanonical(s) && Value(s) == n
  {
    if n < 10 then
      [DigitChar(n)]
    else
      var front := FormatNat(n / 10);
      var s := front + [DigitChar(n % 10)];
      assert s[..|s| - 1] == front;
      s
  }

  /** `%d` of an integer: a minus sign, then the magnitude. */
  function FormatInt(i: int): (s: string)
    ensures IsSignedDecimal(s) && SignedValue(s) == i
    ensures |s| > 0 && (s[0] == '-' <==> i < 0)
    ensures IsCanonical(if i < 0 then s[1..] else s)
    ensures ':' !in s && ',' !in s
  {
    var s := if i < 0 then "-" + FormatNat(-i) else FormatNat(i);
    assert i < 0 ==> s[1..] == FormatNat(-i);
    assert forall k :: 0 <= k < |s| ==> IsDigit(s[k]) || s[k] == '-';
    s
  }

  /** A numeral's leading digit bounds its value from below. */
  lemma {:induction false} LeadingDigitBound(s: string)
    requires IsDecimal(s)
    ensures Value(s) >= DigitValue(s[0])
    decreases |s|
  {
    if |s| > 1 {
      var front := s[..|s| - 1];
      LeadingDigitBound(front);
    }
  }

  /** Printing the value of a canonical numeral gives the numeral back. */
  lemma {:induction false} FormatOfValue(s: string)
    requires IsCanonical(s)
    ensures FormatNat(Value(s)) == s
    decreases |s|
  {
    if |s| == 1 {
      assert Value(s) == DigitValue(s[0]) by {
        assert s[..0] == [];
      }
    } else {
      var front := s[..|s| - 1];
      assert front[0] == s[0];
      LeadingDigitBound(front);
      FormatOfValue(front);
      assert s == front + [s[|s| - 1]];
    }
  }

  /** Parsing what `%d` printed returns the number printed. */
  lemma ParseFormatInt(i: int)
    ensures ParseInt(FormatInt(i)) == Some(i)
  {
  }
}
