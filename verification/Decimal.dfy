/** Go's `strconv.ParseInt(s, 10, 64)` and its inverse, the decimal form of an int64. */
module Decimal {
  import opened Wrappers
  import opened Text

  const MAX_INT64: int := 0x7fff_ffff_ffff_ffff
  const MIN_INT64: int := -0x8000_0000_0000_0000

  predicate InInt64(n: int) {
    MIN_INT64 <= n <= MAX_INT64
  }

  predicate AllDigits(s: string) {
    s != "" && Digit.All(s)
  }

  function DigitOf(ch: char): nat
    requires Digit.Has(ch)
  {
    ch as int - '0' as int
  }

  function DigitsValue(s: string): nat
    requires Digit.All(s)
  {
    if s == "" then 0
    else
      assert Digit.Has(s[|s| - 1]);
      10 * DigitsValue(s[..|s| - 1]) + DigitOf(s[|s| - 1])
  }

  /** An optional sign, at least one digit, and a value that an int64 can hold; any syntax or
      range error is None. */
  function ParseInt(s: string): (r: Option<int>)
    ensures r.Some? ==> InInt64(r.value)
  {
    var digits := if s != "" && (s[0] == '+' || s[0] == '-') then s[1..] else s;
    if !AllDigits(digits) then None
    else
      var magnitude: int := DigitsValue(digits);
      var n: int := if s[0] == '-' then -magnitude else magnitude;
      if InInt64(n) then Some(n) else None
  }

  function Power10(n: nat): int {
    if n == 0 then 1 else 10 * Power10(n - 1)
  }

  /** Digits have their decimal place values. */
  lemma {:induction false} PlaceValue(a: string, b: string)
    requires Digit.All(a) && Digit.All(b)
    ensures Digit.All(a + b)
    ensures DigitsValue(a + b) == DigitsValue(a) * Power10(|b|) + DigitsValue(b)
    ensures |b| == 1 ==> DigitsValue(b) == b[0] as int - '0' as int
  {
    if b == "" {
      assert a + b == a;
    } else {
      var front := b[..|b| - 1];
      assert (a + b)[..|a + b| - 1] == a + front;
      PlaceValue(a, front);
      assert DigitsValue(a + b) == 10 * DigitsValue(a + front) + DigitOf(b[|b| - 1]);
      TenTimes(DigitsValue(a), Power10(|front|));
    }
  }

  lemma TenTimes(v: int, power: int)
    ensures 10 * (v * power) == v * (10 * power)
  {
  }

  /** The text of an integer: at most one sign, and digits. */
  ghost predicate IntForm(s: string, sign: string, digits: string, n: int) {
    && s == sign + digits && AllDigits(digits) && InInt64(n)
    && ((sign == "-" && -n == DigitsValue(digits)) || ((sign == "" || sign == "+") && n == DigitsValue(digits)))
  }

  lemma FormParses(s: string, sign: string, digits: string, n: int)
    requires IntForm(s, sign, digits, n)
    ensures ParseInt(s) == Some(n)
  {
    assert Digit.Has(digits[0]);
    if sign == "" {
      assert s == digits;
    } else {
      assert s[0] == sign[0] && s[1..] == digits;
    }
  }

  lemma ParsedForm(s: string) returns (sign: string, digits: string)
    requires ParseInt(s).Some?
    ensures IntForm(s, sign, digits, ParseInt(s).value)
  {
    if s[0] == '+' || s[0] == '-' {
      sign, digits := [s[0]], s[1..];
      assert s == sign + digits;
    } else {
      sign, digits := "", s;
      assert "" + s == s;
    }
  }

  /** The accepted texts are those of an integer that an int64 can hold, leading zeros included. */
  lemma ParseIntMeaning(s: string, n: int)
    ensures ParseInt(s) == Some(n) <==> exists sign, digits :: IntForm(s, sign, digits, n)
  {
    if ParseInt(s) == Some(n) {
      var sign, digits := ParsedForm(s);
    }
    if sign, digits :| IntForm(s, sign, digits, n) {
      FormParses(s, sign, digits, n);
    }
  }

  function DigitChar(d: nat): char
    requires d < 10
  {
    ('0' as int + d) as char
  }

  function FormatNat(n: nat): (s: string)
    ensures |s| > 0 && Digit.All(s)
    ensures DigitsValue(s) == n
  {
    if n < 10 then [DigitChar(n)]
    else
      var s := FormatNat(n / 10) + [DigitChar(n % 10)];
      assert s[..|s| - 1] == FormatNat(n / 10);
      s
  }

  function FormatInt(n: int): string {
    if n < 0 then "-" + FormatNat(-n) else FormatNat(n)
  }

  /** ParseInt undoes FormatInt exactly on the int64 range. */
  lemma ParseFormat(n: int)
    ensures ParseInt(FormatInt(n)) == if InInt64(n) then Some(n) else None
  {
    var digits := FormatNat(if n < 0 then -n else n);
    if n < 0 {
      assert FormatInt(n)[1..] == digits;
    } else {
      assert Digit.Has(digits[0]);
    }
  }

  /** The characters a decimal form can contain. */
  lemma FormatChars(n: int)
    ensures FormatInt(n) != ""
    ensures forall i :: 0 <= i < |FormatInt(n)| ==> Digit.Has(FormatInt(n)[i]) || FormatInt(n)[i] == '-'
    ensures n >= 0 ==> AllDigits(FormatInt(n))
    ensures IsWord(FormatInt(n)) && Trimmed(FormatInt(n))
  {
  }

  lemma ColonInt(n: int)
    ensures IsWord(":" + FormatInt(n))
  {
    FormatChars(n);
    WordAppend(":", FormatInt(n));
  }

  /** A run of digits without a sign has a value of at least zero. */
  lemma DigitsAreNatural(s: string)
    requires AllDigits(s) && ParseInt(s).Some?
    ensures ParseInt(s).value >= 0
  {
    assert Digit.Has(s[0]);
  }
}
