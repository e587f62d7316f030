/** Decimal text: `strtolong` (main.c) and the `itoa` rendering it reads back. */
module DecimalText {
  import opened CTypes
  import opened CStrings

  predicate AllDigits(s: seq<uint8>)
  {
    forall i :: 0 <= i < |s| ==> IsDigit(s[i])
  }

  /** Length of the run of ASCII digits that starts `s`. */
  function DigitRun(s: seq<uint8>): (n: nat)
    ensures n <= |s| && AllDigits(s[..n])
    ensures n < |s| ==> !IsDigit(s[n])
  {
    if s == [] || !IsDigit(s[0]) then 0 else 1 + DigitRun(s[1..])
  }

  /** The number a string of digits denotes, without any bound. */
  function DigitsValue(ds: seq<uint8>): nat
    requires AllDigits(ds)
  {
    if ds == [] then 0
    else DigitsValue(ds[..|ds| - 1]) * 10 + (ds[|ds| - 1] - DIGIT_ZERO)
  }

  /** What `strtolong` promises: the value of the leading digits, reduced modulo 2^32. */
  function ParsedValue(s: seq<uint8>): (v: uint32)
    ensures s == [] || !IsDigit(s[0]) ==> v == 0
  {
    DigitsValue(s[..DigitRun(s)]) % UINT32_MODULUS
  }

  /** `itoa(n, buf, 10)` for a non-negative `n`: decimal digits, no leading zero. */
  function Decimal(n: nat): (ds: seq<uint8>)
    ensures |ds| >= 1 && AllDigits(ds)
    ensures |ds| > 1 ==> ds[0] != DIGIT_ZERO
    ensures NulFree(ds)
  {
    if n < 10 then [DIGIT_ZERO + n] else Decimal(n / 10) + [DIGIT_ZERO + n % 10]
  }

  lemma AddMultipleMod(k: nat, x: int)
    ensures (k * UINT32_MODULUS + x) % UINT32_MODULUS == x % UINT32_MODULUS
  {
    if k > 0 {
      AddMultipleMod(k - 1, x);
      assert k * UINT32_MODULUS + x == (k - 1) * UINT32_MODULUS + x + UINT32_MODULUS;
    }
  }

  /** Reducing the accumulator after every step gives the reduced final value. */
  lemma WrapStep(a: nat, d: nat)
    ensures ((a % UINT32_MODULUS) * 10 + d) % UINT32_MODULUS == (a * 10 + d) % UINT32_MODULUS
  {
    var q, r := a / UINT32_MODULUS, a % UINT32_MODULUS;
    assert a * 10 + d == (q * 10) * UINT32_MODULUS + (r * 10 + d);
    AddMultipleMod(q * 10, r * 10 + d);
  }

  /** `strtolong`: scans the digits at the start of `str`, accumulating in 32
      unsigned bits; the first non-digit (the terminator at the latest) stops it. */
  method StrToLong(str: seq<uint8>) returns (l: uint32)
    ensures l == ParsedValue(str)
  {
    l := 0;
    var i := 0;
    while i < |str| && IsDigit(str[i])
      invariant i <= |str| && AllDigits(str[..i])
      invariant l == DigitsValue(str[..i]) % UINT32_MODULUS
    {
      assert str[..i + 1][..i] == str[..i];
      WrapStep(DigitsValue(str[..i]), str[i] - DIGIT_ZERO);
      l := (l * 10 + (str[i] - DIGIT_ZERO)) % UINT32_MODULUS;
      i := i + 1;
    }
  }

  lemma {:induction false} DigitRunAppend(s: seq<uint8>, c: uint8, t: seq<uint8>)
    requires !IsDigit(c)
    ensures DigitRun(s + [c] + t) == DigitRun(s)
  {
    if s != [] {
      assert (s + [c] + t)[1..] == s[1..] + [c] + t;
      if IsDigit(s[0]) { DigitRunAppend(s[1..], c, t); }
    }
  }

  /** Everything after the first non-digit is ignored. */
  lemma ParsedValueIgnoresTail(s: seq<uint8>, c: uint8, t: seq<uint8>)
    requires !IsDigit(c)
    ensures ParsedValue(s + [c] + t) == ParsedValue(s)
  {
    DigitRunAppend(s, c, t);
    var n := DigitRun(s);
    assert (s + [c] + t)[..n] == s[..n];
  }

  /** Reading from the start of a C string sees only its text. */
  lemma ParsedValueOfString(mem: seq<uint8>, p: nat, s: seq<uint8>)
    requires IsStringAt(mem, p, s)
    ensures ParsedValue(mem[p..]) == ParsedValue(s)
  {
    assert mem[p..] == s + [NUL] + mem[p + |s| + 1..];
    ParsedValueIgnoresTail(s, NUL, mem[p + |s| + 1..]);
  }

  lemma {:induction false} DecimalValue(n: nat)
    ensures DigitsValue(Decimal(n)) == n
  {
    if n >= 10 {
      var ds := Decimal(n);
      assert ds[..|ds| - 1] == Decimal(n / 10);
      DecimalValue(n / 10);
    }
  }

  /** `strtolong` reads back what `itoa` writes, up to the 32-bit wrap-around. */
  lemma ParseDecimal(n: nat)
    ensures ParsedValue(Decimal(n)) == n % UINT32_MODULUS
  {
    var ds := Decimal(n);
    assert ds[..|ds|] == ds;
    DecimalValue(n);
  }

  /** Different numbers have different decimal renderings. */
  lemma DecimalInjective(m: nat, n: nat)
    requires Decimal(m) == Decimal(n)
    ensures m == n
  {
    DecimalValue(m);
    DecimalValue(n);
  }
}
