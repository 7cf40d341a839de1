/** The two conversions the Kinesis emitter takes from Go's math/big:
    `(*big.Int).SetString(s, 10)`, which reads an optional sign followed by
    one or more decimal digits, and `(*big.Int).String()`, which writes a
    non-negative value in base 10 without leading zeros. */
module Base10 {
  import opened Aws

  predicate IsDigit(c: char) {
    '0' <= c <= '9'
  }

  predicate AllDigits(s: string) {
    forall i :: 0 <= i < |s| ==> IsDigit(s[i])
  }

  /** The value of a digit character (0 for any other character). */
  function DigitValue(c: char): (d: nat)
    ensures d < 10
  {
    if IsDigit(c) then c as int - '0' as int else 0
  }

  function DigitChar(d: nat): (c: char)
    requires d < 10
    ensures IsDigit(c) && DigitValue(c) == d
  {
    ('0' as int + d) as char
  }

  /** The value of the first `k` digits of `s`, most significant first. */
  function PrefixValue(s: string, k: nat): nat
    requires k <= |s|
  {
    if k == 0 then 0 else PrefixValue(s, k - 1) * 10 + DigitValue(s[k - 1])
  }

  /** SetString(s, 10) on an unsigned text: one or more digits. */
  function ParseMagnitude(s: string): (r: Option<nat>)
    ensures r.Some? <==> |s| > 0 && AllDigits(s)
  {
    if |s| > 0 && AllDigits(s) then Some(PrefixValue(s, |s|)) else None
  }

  /** SetString(s, 10): an optional '+' or '-', then one or more digits. */
  function Parse(s: string): (r: Option<int>)
    ensures r.Some? <==> ParseMagnitude(if |s| > 0 && s[0] in "+-" then s[1..] else s).Some?
    ensures |s| > 0 && s[0] == '-' && r.Some? ==> r.value <= 0
    ensures (|s| == 0 || s[0] != '-') && r.Some? ==> r.value >= 0
  {
    if |s| > 0 && (s[0] == '+' || s[0] == '-') then
      match ParseMagnitude(s[1..])
      case None => None
      case Some(m) => Some(if s[0] == '-' then -(m as int) else m as int)
    else
      match ParseMagnitude(s)
      case None => None
      case Some(m) => Some(m)
  }

  /** String() of a non-negative value: its base-10 digits, with no leading zero. */
  function Decimal(n: nat): (s: string)
    ensures |s| > 0 && AllDigits(s)
    ensures s[0] == '0' ==> n == 0 && s == "0"
  {
    if n < 10 then [DigitChar(n)] else Decimal(n / 10) + [DigitChar(n % 10)]
  }

  /** PrefixValue only looks at the first `k` characters. */
  lemma {:induction false} PrefixValueOfPrefix(s: string, t: string, k: nat)
    requires k <= |s| && k <= |t|
    requires s[..k] == t[..k]
    ensures PrefixValue(s, k) == PrefixValue(t, k)
  {
    if k > 0 {
      assert s[k - 1] == s[..k][k - 1] == t[..k][k - 1] == t[k - 1];
      assert s[..k - 1] == s[..k][..k - 1] == t[..k][..k - 1] == t[..k - 1];
      PrefixValueOfPrefix(s, t, k - 1);
    }
  }

  /** Parsing what String() wrote gives the value back. */
  lemma {:induction false} ParseDecimal(n: nat)
    ensures ParseMagnitude(Decimal(n)) == Some(n)
    ensures Parse(Decimal(n)) == Some(n)
  {
    var s := Decimal(n);
    if n < 10 {
      assert PrefixValue(s, 1) == PrefixValue(s, 0) * 10 + DigitValue(s[0]);
    } else {
      var h := Decimal(n / 10);
      ParseDecimal(n / 10);
      assert s == h + [DigitChar(n % 10)];
      assert s[..|h|] == h[..|h|];
      PrefixValueOfPrefix(s, h, |h|);
      assert PrefixValue(s, |s|) == PrefixValue(s, |h|) * 10 + DigitValue(s[|h|]);
    }
    assert s[0] != '+' && s[0] != '-';
  }

  /** 2 to the power n. */
  function Pow2(n: nat): (p: nat)
    ensures p >= 1
  {
    if n == 0 then 1 else 2 * Pow2(n - 1)
  }

  lemma {:induction false} Pow2Add(a: nat, b: nat)
    ensures Pow2(a + b) == Pow2(a) * Pow2(b)
  {
    if a > 0 {
      Pow2Add(a - 1, b);
    }
  }

  lemma Pow2Of128()
    ensures Pow2(128) == 340282366920938463463374607431768211456
  {
    assert Pow2(8) == 256;
    Pow2Add(8, 8);
    assert Pow2(16) == 65536;
    Pow2Add(16, 16);
    assert Pow2(32) == 4294967296;
    Pow2Add(32, 32);
    assert Pow2(64) == 18446744073709551616;
    Pow2Add(64, 64);
  }

  /** 10 to the power n. */
  function Pow10(n: nat): (p: nat)
    ensures p >= 1
  {
    if n == 0 then 1 else 10 * Pow10(n - 1)
  }

  /** The digits of a concatenation are worth the first part shifted left
      by the length of the second, plus the second. */
  lemma {:induction false} PrefixValueAppend(a: string, b: string, k: nat)
    requires k <= |b|
    ensures PrefixValue(a + b, |a| + k) == PrefixValue(a, |a|) * Pow10(k) + PrefixValue(b, k)
  {
    if k == 0 {
      assert (a + b)[..|a|] == a[..|a|];
      PrefixValueOfPrefix(a + b, a, |a|);
    } else {
      PrefixValueAppend(a, b, k - 1);
      assert (a + b)[|a| + k - 1] == b[k - 1];
      ShiftDigit(PrefixValue(a, |a|), Pow10(k - 1), PrefixValue(b, k - 1), DigitValue(b[k - 1]));
    }
  }

  lemma ShiftDigit(high: nat, p: nat, low: nat, d: nat)
    ensures (high * p + low) * 10 + d == high * (10 * p) + (low * 10 + d)
  {
  }

  /** The value of three digit strings written one after the other. */
  lemma {:induction false} PrefixValueOfThree(a: string, b: string, c: string)
    ensures PrefixValue(a + b + c, |a + b + c|)
         == (PrefixValue(a, |a|) * Pow10(|b|) + PrefixValue(b, |b|)) * Pow10(|c|) + PrefixValue(c, |c|)
  {
    PrefixValueAppend(a, b, |b|);
    PrefixValueAppend(a + b, c, |c|);
  }
}
