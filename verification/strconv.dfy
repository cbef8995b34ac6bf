/** The two decimal conversions of Go's standard library the service relies
 *  on: `strconv.Atoi`, which parses the `port` query parameter, and the `%d`
 *  verb of `fmt.Sprintf`, which renders the port into the dial address.
 *  Go's `int` is taken to be 64 bits wide. */
module Strconv {
  import opened Wrappers

  const IntMin: int := -0x8000_0000_0000_0000
  const IntMax: int := 0x7fff_ffff_ffff_ffff

  /** A value of Go's 64-bit `int`. */
  type GoInt = x: int | IntMin <= x <= IntMax

  predicate IsDigit(c: char) {
    '0' <= c <= '9'
  }

  predicate AllDigits(s: string) {
    forall i :: 0 <= i < |s| ==> IsDigit(s[i])
  }

  function DigitValue(c: char): (d: nat)
    requires IsDigit(c)
    ensures d < 10
  {
    c as int - '0' as int
  }

  function DigitChar(d: nat): (c: char)
    requires d < 10
    ensures IsDigit(c) && DigitValue(c) == d
  {
    ('0' as int + d) as char
  }

  /** The value of a run of decimal digits, most significant digit first,
   *  accumulated the way Go's scanning loop does (`n = n*10 + d`). */
  function DigitsValue(s: string): nat
    requires AllDigits(s)
  {
    if |s| == 0 then 0 else DigitsValue(s[..|s| - 1]) * 10 + DigitValue(s[|s| - 1])
  }

  /** `s` without its optional leading `+` or `-`. */
  function Unsigned(s: string): string {
    if |s| > 0 && (s[0] == '+' || s[0] == '-') then s[1..] else s
  }

  /** `strconv.Atoi(s)`: an optional sign followed by at least one ASCII
   *  digit, with a value inside Go's `int`; `None` stands for a non-nil
   *  error (syntax or range). Leading zeros are accepted; underscores and
   *  base prefixes are not, because Atoi parses in base 10. */
  function Atoi(s: string): (r: Option<GoInt>)
    ensures r.Some? ==> |s| > 0 && (IsDigit(s[0]) || s[0] == '+' || s[0] == '-')
    ensures r.Some? ==> forall i :: 1 <= i < |s| ==> IsDigit(s[i])
    ensures r.Some? && r.value < 0 ==> s[0] == '-'
    ensures |s| == 0 ==> r.None?
  {
    var digits := Unsigned(s);
    if |digits| == 0 || !AllDigits(digits) then None
    else
      var v: int := if s[0] == '-' then -(DigitsValue(digits) as int) else DigitsValue(digits);
      if IntMin <= v <= IntMax then Some(v) else None
  }

  /** Decimal rendering of a natural number without leading zeros. */
  function FormatNat(n: nat): (s: string)
    ensures |s| > 0 && AllDigits(s)
    ensures s[0] == '0' ==> n == 0
  {
    if n < 10 then [DigitChar(n)] else FormatNat(n / 10) + [DigitChar(n % 10)]
  }

  /** The text `%d` prints: no `+` sign, no leading zero, no `-0`. */
  predicate Canonical(s: string) {
    var digits := if |s| > 0 && s[0] == '-' then s[1..] else s;
    |digits| > 0 && AllDigits(digits) && (digits[0] == '0' ==> s == "0")
  }

  /** `fmt.Sprintf("%d", n)`: a minus sign for negative values, then the
   *  digits of the magnitude. */
  function FormatInt(n: int): (s: string)
    ensures |s| > 0 && (IsDigit(s[0]) || s[0] == '-')
    ensures s[0] == '-' <==> n < 0
    ensures forall i :: 1 <= i < |s| ==> IsDigit(s[i])
    ensures Canonical(s)
  {
    if n < 0 then
      var digits := FormatNat(-n);
      assert ("-" + digits)[1..] == digits;
      "-" + digits
    else
      FormatNat(n)
  }

  lemma {:induction false} FormatNatValue(n: nat)
    ensures DigitsValue(FormatNat(n)) == n
  {
    if n >= 10 {
      var s := FormatNat(n);
      assert s[..|s| - 1] == FormatNat(n / 10);
      FormatNatValue(n / 10);
    }
  }

  lemma {:induction false} LeadingDigitBound(s: string)
    requires |s| > 0 && AllDigits(s) && s[0] != '0'
    ensures DigitsValue(s) >= 1
  {
    if |s| > 1 {
      LeadingDigitBound(s[..|s| - 1]);
    }
  }

  lemma {:induction false} ValueFormatNat(s: string)
    requires |s| > 0 && AllDigits(s) && (s[0] == '0' ==> |s| == 1)
    ensures FormatNat(DigitsValue(s)) == s
  {
    var last := s[|s| - 1];
    if |s| > 1 {
      var t := s[..|s| - 1];
      LeadingDigitBound(t);
      ValueFormatNat(t);
      var v := DigitsValue(s);
      assert v / 10 == DigitsValue(t) && v % 10 == DigitValue(last);
      assert s == t + [last];
    } else {
      assert s == [last];
    }
  }

  /** Parsing what `%d` prints gives back the integer: every Go `int` has a
   *  spelling that Atoi accepts. */
  lemma AtoiFormatInt(n: GoInt)
    ensures Atoi(FormatInt(n)) == Some(n)
  {
    var s := FormatInt(n);
    if n < 0 {
      var m: nat := -(n as int);
      FormatNatValue(m);
      assert s == "-" + FormatNat(m);
      assert Unsigned(s) == FormatNat(m);
      assert DigitsValue(Unsigned(s)) == m;
    } else {
      FormatNatValue(n);
      assert s == FormatNat(n) && IsDigit(s[0]);
      assert Unsigned(s) == s;
    }
  }

  /** Conversely, a canonical spelling that Atoi accepts is exactly what
   *  `%d` prints for the parsed value. */
  lemma FormatIntAtoi(s: string)
    requires Canonical(s) && Atoi(s).Some?
    ensures FormatInt(Atoi(s).value) == s
  {
    if s[0] == '-' {
      var digits := s[1..];
      assert Unsigned(s) == digits;
      LeadingDigitBound(digits);
      ValueFormatNat(digits);
      var m := DigitsValue(digits);
      assert Atoi(s).value == -(m as int) < 0;
      assert FormatInt(-(m as int)) == "-" + FormatNat(m);
      assert s == "-" + digits;
    } else {
      assert Unsigned(s) == s;
      ValueFormatNat(s);
      assert Atoi(s).value == DigitsValue(s);
      assert FormatInt(DigitsValue(s)) == FormatNat(DigitsValue(s));
    }
  }

  /** A leading zero does not change the value of a run of digits. */
  lemma {:induction false} LeadingZeroValue(t: string)
    requires AllDigits(t)
    ensures AllDigits("0" + t) && DigitsValue("0" + t) == DigitsValue(t)
    decreases |t|
  {
    var z := "0" + t;
    assert forall i :: 0 < i < |z| ==> z[i] == t[i - 1];
    if |t| > 0 {
      assert z[..|z| - 1] == "0" + t[..|t| - 1];
      LeadingZeroValue(t[..|t| - 1]);
    }
  }

  /** A sign with no digits after it is rejected. */
  lemma BareSignRejected()
    ensures Atoi("+").None? && Atoi("-").None?
  {
    assert Unsigned("+") == [];
    assert Unsigned("-") == [];
  }

  /** An explicit `+` changes nothing: "+22" parses as "22". */
  lemma {:induction false} PlusSignIgnored(t: string)
    requires |t| > 0 && AllDigits(t)
    ensures Atoi("+" + t) == Atoi(t)
  {
    assert Unsigned("+" + t) == t;
    assert Unsigned(t) == t;
  }

  /** A leading zero changes nothing: "0022" parses as "022" and so as "22". */
  lemma {:induction false} LeadingZeroIgnored(t: string)
    requires |t| > 0 && AllDigits(t)
    ensures Atoi("0" + t) == Atoi(t)
  {
    LeadingZeroValue(t);
    assert Unsigned("0" + t) == "0" + t;
    assert Unsigned(t) == t;
  }

  /** A leading zero after a minus sign changes nothing either, and "-0" is
   *  zero. */
  lemma {:induction false} NegativeLeadingZeroIgnored(t: string)
    requires |t| > 0 && AllDigits(t)
    ensures Atoi("-0" + t) == Atoi("-" + t)
    ensures Atoi("-0") == Some(0)
  {
    LeadingZeroValue(t);
    assert "-0" + t == "-" + ("0" + t);
    assert Unsigned("-" + ("0" + t)) == "0" + t;
    assert Unsigned("-" + t) == t;
    assert Unsigned("-0") == "0";
  }
}
