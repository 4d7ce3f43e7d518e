/** internal/store/store.go: the effective score, as int64 arithmetic and as the power it stands for. */
module Scores {
  import opened Text

  const THIN := "thin"
  const THICK := "thick"
  const VERY_THICK := "very_thick"

  const INITIAL_SCORE := 1000
  const POINTS_VALID := 1
  const POINTS_INVALID := -1

  /** `peerFlagExponent`: any other flag counts as thin. */
  function FlagExponent(flag: string): (e: nat)
    ensures 1 <= e <= 3
  {
    if flag == THIN then 1
    else if flag == THICK then 2
    else if flag == VERY_THICK then 3
    else 1
  }

  function Power(s: int, e: nat): int {
    if e == 0 then 1 else Power(s, e - 1) * s
  }

  /** The power with the sign of the base: what the source comment promises. */
  function SignedPower(s: int, e: nat): int {
    if e % 2 == 0 && s < 0 then -Power(s, e) else Power(s, e)
  }

  /** The same product when every multiplication is an int64 multiplication. */
  function WrappedPower(s: int, e: nat): int {
    if e == 0 then 1 else Wrap64(WrappedPower(s, e - 1) * s)
  }

  /** The number `EffectiveScore` returns. */
  function EffectiveScore(score: int, flag: string): int {
    var e := FlagExponent(flag);
    var p := WrappedPower(score, e);
    if e % 2 == 0 && score < 0 && p > 0 then -p else p
  }

  method ComputeEffectiveScore(score: int, flag: string) returns (result: int)
    ensures result == EffectiveScore(score, flag)
  {
    var exp := FlagExponent(flag);
    result := 1;
    for i := 0 to exp
      invariant result == WrappedPower(score, i)
    {
      result := Wrap64(result * score);
    }
    if exp % 2 == 0 && score < 0 && result > 0 {
      result := -result;
    }
  }

  // ---------------------------------------------------------------- the ideal score

  lemma PowerUpTo3(s: int)
    ensures Power(s, 1) == s
    ensures Power(s, 2) == s * s
    ensures Power(s, 3) == s * s * s
  {
    assert Power(s, 0) == 1;
    assert Power(s, 1) == s;
  }

  lemma SignedPowerSign(s: int, flag: string)
    ensures SignedPower(s, FlagExponent(flag)) > 0 <==> s > 0
    ensures SignedPower(s, FlagExponent(flag)) < 0 <==> s < 0
  {
    PowerUpTo3(s);
    assert s != 0 ==> s * s > 0;
    if s > 0 {
      assert s * s * s > 0;
    } else if s < 0 {
      assert s * s * s < 0;
    }
  }

  lemma PowersOfNegation(s: int)
    ensures (-s) * (-s) == s * s && (-s) * (-s) * (-s) == -(s * s * s)
  {
    assert (s * s) * (-s) == -(s * s * s);
  }

  /** With the same flag, a better score always ranks strictly higher. */
  lemma SignedPowerMonotone(s: int, t: int, flag: string)
    requires s < t
    ensures SignedPower(s, FlagExponent(flag)) < SignedPower(t, FlagExponent(flag))
  {
    PowerUpTo3(s);
    PowerUpTo3(t);
    SignedPowerSign(s, flag);
    SignedPowerSign(t, flag);
    if 0 <= s {
      Cubes(s, t);
    } else if t <= 0 {
      Cubes(-t, -s);
      PowersOfNegation(s);
      PowersOfNegation(t);
    }
  }

  lemma Cubes(a: int, b: int)
    requires 0 <= a < b
    ensures a * a < b * b && a * a * a < b * b * b
  {
    assert a * a <= a * b < b * b;
    assert a * a * a <= a * a * b < b * b * b by {
      assert a * a * a <= (a * a) * b;
      assert (a * a) * b < (b * b) * b;
    }
  }

  lemma PowersGrow(m: int)
    requires m >= 1
    ensures m <= m * m <= m * m * m
    ensures m >= 2 ==> m < m * m < m * m * m
  {
    assert m * m <= (m * m) * m;
    assert m >= 2 ==> 2 * (m * m) <= (m * m) * m;
  }

  /** The intended score of a flag, as its text. */
  function Ideal(s: int, flag: string): int {
    SignedPower(s, FlagExponent(flag))
  }

  /** A heavier flag moves a peer up when its score is positive and down when it is negative. */
  lemma HeavierFlagAmplifies(s: int)
    ensures s >= 0 ==> Ideal(s, "thin") <= Ideal(s, "thick") <= Ideal(s, "very_thick")
    ensures s <= 0 ==> Ideal(s, "thin") >= Ideal(s, "thick") >= Ideal(s, "very_thick")
    ensures s >= 2 ==> Ideal(s, "thin") < Ideal(s, "thick") < Ideal(s, "very_thick")
    ensures s <= -2 ==> Ideal(s, "thin") > Ideal(s, "thick") > Ideal(s, "very_thick")
  {
    PowerUpTo3(s);
    if s > 0 {
      PowersGrow(s);
    } else if s < 0 {
      PowersGrow(-s);
      PowersOfNegation(s);
    }
  }

  /** What the flags stand for: the score itself, its square with its sign, its cube. */
  lemma IdealScores(s: int, flag: string)
    ensures Ideal(s, "thick") == (if s < 0 then -(s * s) else s * s)
    ensures Ideal(s, "very_thick") == s * s * s
    ensures flag != "thick" && flag != "very_thick" ==> Ideal(s, flag) == s
  {
    PowerUpTo3(s);
  }

  // ---------------------------------------------------------------- int64 exactness

  lemma WrapShift(x: int, m: int)
    ensures Wrap64(x + m * TWO_64) == Wrap64(x)
  {
  }

  lemma WrapProduct(a: int, b: int)
    ensures Wrap64(Wrap64(a) * b) == Wrap64(a * b)
  {
    var m := (Wrap64(a) - a) / TWO_64;
    assert Wrap64(a) == a + m * TWO_64;
    assert (a + m * TWO_64) * b == a * b + (m * b) * TWO_64;
    WrapShift(a * b, m * b);
  }

  lemma {:induction false} WrappedPowerIsWrap(s: int, e: nat)
    ensures WrappedPower(s, e) == Wrap64(Power(s, e))
  {
    if e > 0 {
      WrappedPowerIsWrap(s, e - 1);
      WrapProduct(Power(s, e - 1), s);
    }
  }

  /** The scores a flag can carry without int64 overflow. */
  predicate ScoreFits(s: int, flag: string) {
    match FlagExponent(flag)
    case 1 => InInt64(s)
    case 2 => -3_037_000_499 <= s <= 3_037_000_499
    case _ => -0x20_0000 <= s < 0x20_0000
  }

  lemma FitsIffPowerInRange(s: int, flag: string)
    ensures ScoreFits(s, flag) <==> InInt64(SignedPower(s, FlagExponent(flag)))
  {
    PowerUpTo3(s);
    var e := FlagExponent(flag);
    if e == 2 {
      SquareBound(s);
    } else if e == 3 {
      CubeBound(s);
    }
  }

  lemma SquareBound(s: int)
    ensures s * s <= MAX_INT64 <==> -3_037_000_499 <= s <= 3_037_000_499
  {
    var m := if s < 0 then -s else s;
    assert m * m == s * s;
    if m < 3_037_000_499 {
      Cubes(m, 3_037_000_499);
    } else if m > 3_037_000_500 {
      Cubes(3_037_000_500, m);
    }
  }

  lemma CubeBound(s: int)
    ensures InInt64(s * s * s) <==> -0x20_0000 <= s < 0x20_0000
  {
    var m := if s < 0 then -s else s;
    assert m * m == s * s;
    assert s < 0 ==> m * m * m == -(s * s * s);
    if m < 0x1f_ffff {
      Cubes(m, 0x1f_ffff);
    } else if m > 0x20_0001 {
      Cubes(0x20_0001, m);
    }
  }

  /** The computed score is the intended power exactly for the scores that fit. */
  lemma ExactIffFits(s: int, flag: string)
    ensures EffectiveScore(s, flag) == SignedPower(s, FlagExponent(flag)) <==> ScoreFits(s, flag)
  {
    var e := FlagExponent(flag);
    WrappedPowerIsWrap(s, e);
    FitsIffPowerInRange(s, flag);
    PowerUpTo3(s);
    SignedPowerSign(s, flag);
    assert e == 2 ==> s * s != MAX_INT64 + 1 by { SquareBound(s); Not2To63(s); }
  }

  /** 2^63 is not a square: it lies strictly between two consecutive ones. */
  lemma Not2To63(s: int)
    ensures s * s != MAX_INT64 + 1
  {
    var m := if s < 0 then -s else s;
    assert m * m == s * s;
    if m < 3_037_000_499 {
      Cubes(m, 3_037_000_499);
    } else if m > 3_037_000_500 {
      Cubes(3_037_000_500, m);
    }
  }

  /** The computed score, flag by flag, for the scores that do not overflow. */
  lemma EffectiveScores(s: int, flag: string)
    ensures -3_037_000_499 <= s <= 3_037_000_499 ==>
              EffectiveScore(s, "thick") == if s < 0 then -(s * s) else s * s
    ensures -2_097_152 <= s <= 2_097_151 ==> EffectiveScore(s, "very_thick") == s * s * s
    ensures InInt64(s) && flag != "thick" && flag != "very_thick" ==> EffectiveScore(s, flag) == s
  {
    IdealScores(s, flag);
    ExactIffFits(s, "thick");
    ExactIffFits(s, "very_thick");
    ExactIffFits(s, flag);
  }
}
