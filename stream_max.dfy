/** The partition-key bound of package stream, MAX, and the proof that it
    reads as 2^128. The 39 digits are evaluated in three pieces of thirteen,
    which keeps each step of the evaluation small. */
module StreamMax {
  import opened Aws
  import Base10

  /** The exclusive upper bound of a partition key, as decimal text. */
  const MAX: string := "340282366920938463463374607431768211456"

  // MAX in three pieces of thirteen digits.
  const MaxHigh: string := "3402823669209"
  const MaxMiddle: string := "3846346337460"
  const MaxLow: string := "7431768211456"

  lemma MaxInPieces()
    ensures MAX == MaxHigh + MaxMiddle + MaxLow
    ensures |MaxMiddle| == 13 && |MaxLow| == 13
  {
  }

  /** The first thirteen digits of MAX, evaluated one digit at a time. */
  lemma MaxHighValue()
    ensures Base10.PrefixValue(MaxHigh, |MaxHigh|) == 3402823669209
  {
    assert Base10.PrefixValue(MaxHigh, 1) == 3;
    assert Base10.PrefixValue(MaxHigh, 2) == 34;
    assert Base10.PrefixValue(MaxHigh, 3) == 340;
    assert Base10.PrefixValue(MaxHigh, 4) == 3402;
    assert Base10.PrefixValue(MaxHigh, 5) == 34028;
    assert Base10.PrefixValue(MaxHigh, 6) == 340282;
    assert Base10.PrefixValue(MaxHigh, 7) == 3402823;
    assert Base10.PrefixValue(MaxHigh, 8) == 34028236;
    assert Base10.PrefixValue(MaxHigh, 9) == 340282366;
    assert Base10.PrefixValue(MaxHigh, 10) == 3402823669;
    assert Base10.PrefixValue(MaxHigh, 11) == 34028236692;
    assert Base10.PrefixValue(MaxHigh, 12) == 340282366920;
    assert Base10.PrefixValue(MaxHigh, 13) == 3402823669209;
  }

  /** The middle thirteen digits of MAX. */
  lemma MaxMiddleValue()
    ensures Base10.PrefixValue(MaxMiddle, |MaxMiddle|) == 3846346337460
  {
    assert Base10.PrefixValue(MaxMiddle, 1) == 3;
    assert Base10.PrefixValue(MaxMiddle, 2) == 38;
    assert Base10.PrefixValue(MaxMiddle, 3) == 384;
    assert Base10.PrefixValue(MaxMiddle, 4) == 3846;
    assert Base10.PrefixValue(MaxMiddle, 5) == 38463;
    assert Base10.PrefixValue(MaxMiddle, 6) == 384634;
    assert Base10.PrefixValue(MaxMiddle, 7) == 3846346;
    assert Base10.PrefixValue(MaxMiddle, 8) == 38463463;
    assert Base10.PrefixValue(MaxMiddle, 9) == 384634633;
    assert Base10.PrefixValue(MaxMiddle, 10) == 3846346337;
    assert Base10.PrefixValue(MaxMiddle, 11) == 38463463374;
    assert Base10.PrefixValue(MaxMiddle, 12) == 384634633746;
    assert Base10.PrefixValue(MaxMiddle, 13) == 3846346337460;
  }

  /** The last thirteen digits of MAX. */
  lemma MaxLowValue()
    ensures Base10.PrefixValue(MaxLow, |MaxLow|) == 7431768211456
  {
    assert Base10.PrefixValue(MaxLow, 1) == 7;
    assert Base10.PrefixValue(MaxLow, 2) == 74;
    assert Base10.PrefixValue(MaxLow, 3) == 743;
    assert Base10.PrefixValue(MaxLow, 4) == 7431;
    assert Base10.PrefixValue(MaxLow, 5) == 74317;
    assert Base10.PrefixValue(MaxLow, 6) == 743176;
    assert Base10.PrefixValue(MaxLow, 7) == 7431768;
    assert Base10.PrefixValue(MaxLow, 8) == 74317682;
    assert Base10.PrefixValue(MaxLow, 9) == 743176821;
    assert Base10.PrefixValue(MaxLow, 10) == 7431768211;
    assert Base10.PrefixValue(MaxLow, 11) == 74317682114;
    assert Base10.PrefixValue(MaxLow, 12) == 743176821145;
    assert Base10.PrefixValue(MaxLow, 13) == 7431768211456;
  }

  lemma Pow10Of13()
    ensures Base10.Pow10(13) == 10000000000000
  {
  }

  /** The digits of MAX, as the three pieces put back together. */
  lemma MaxFromPieces()
    ensures Base10.PrefixValue(MAX, |MAX|)
         == (Base10.PrefixValue(MaxHigh, |MaxHigh|) * Base10.Pow10(|MaxMiddle|)
             + Base10.PrefixValue(MaxMiddle, |MaxMiddle|)) * Base10.Pow10(|MaxLow|)
            + Base10.PrefixValue(MaxLow, |MaxLow|)
  {
    MaxInPieces();
    Base10.PrefixValueOfThree(MaxHigh, MaxMiddle, MaxLow);
  }

  lemma ShiftTwice(x: nat, h: nat, m: nat, l: nat, p: nat)
    requires x == (h * p + m) * p + l
    requires h == 3402823669209 && m == 3846346337460 && l == 7431768211456 && p == 10000000000000
    ensures x == 340282366920938463463374607431768211456
  {
  }

  /** The digits of MAX are worth 2^128. */
  lemma MaxDigitsValue(s: string)
    requires s == MAX
    ensures Base10.PrefixValue(s, |s|) == 340282366920938463463374607431768211456
  {
    MaxFromPieces();
    var x := Base10.PrefixValue(MAX, |MAX|);
    var h := Base10.PrefixValue(MaxHigh, |MaxHigh|);
    var m := Base10.PrefixValue(MaxMiddle, |MaxMiddle|);
    var l := Base10.PrefixValue(MaxLow, |MaxLow|);
    var p1, p2 := Base10.Pow10(|MaxMiddle|), Base10.Pow10(|MaxLow|);
    assert x == (h * p1 + m) * p2 + l;
    MaxHighValue(); MaxMiddleValue(); MaxLowValue(); MaxInPieces(); Pow10Of13();
    assert h == 3402823669209;
    assert m == 3846346337460;
    assert l == 7431768211456;
    assert p1 == 10000000000000;
    assert p2 == 10000000000000;
    ShiftTwice(x, h, m, l, p1);
  }

  /** MAX, read as Go's big.Int SetString does, is 2^128. */
  lemma MaxIsTwoTo128()
    ensures Base10.Parse(MAX) == Some(Base10.Pow2(128))
  {
    assert Base10.AllDigits(MAX);
    MaxDigitsValue(MAX);
    Base10.Pow2Of128();
  }
}
