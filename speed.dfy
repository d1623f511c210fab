/** The speed factor of `change_speed`: how the bot reads it (`float()`), the
    check it must pass, and its decomposition into a chain of `atempo` stages,
    each within the range 0.5 to 2.0 that one ffmpeg `atempo` filter accepts.
    Factors are exact reals; the rounding of Python floats is not modelled. */
module Speed {
  import opened Common
  import opened Text

  /** A Python float as `float()` can produce it. */
  datatype PyFloat = Finite(r: real) | PosInf | NegInf | NaN

  // ---------------------------------------------------------------------------
  // Reading the factor

  function Pow10(n: nat): (p: nat)
    ensures p >= 1
  {
    if n == 0 then 1 else 10 * Pow10(n - 1)
  }

  /** The value of the numeral `whole.frac`. */
  function DecimalValue(whole: string, frac: string): real
    requires AllDigits(whole) && AllDigits(frac)
  {
    DigitsValue(whole) as real + DigitsValue(frac) as real / Pow10(|frac|) as real
  }

  function Negate(x: PyFloat): PyFloat {
    match x
    case Finite(r) => Finite(-r)
    case PosInf => NegInf
    case NegInf => PosInf
    case NaN => NaN
  }

  /** The unsigned part of `float()`'s syntax: `inf`, `infinity` and `nan` in
      any case, or digits with at most one decimal point and at least one digit. */
  function ParseUnsignedFloat(t: string): Option<PyFloat> {
    var word := Lower(t);
    if word == "inf" || word == "infinity" then Some(PosInf)
    else if word == "nan" then Some(NaN)
    else if '.' !in t then
      if IsDigits(t) then Some(Finite(DigitsValue(t) as real)) else None
    else
      var whole := SplitOn(t, '.')[0];
      var frac := AfterFirst(t, '.');
      if AllDigits(whole) && AllDigits(frac) && |whole| + |frac| > 0
      then Some(Finite(DecimalValue(whole, frac)))
      else None
  }

  /** `float(s)`; `None` is the `ValueError` it raises.  Exponents and
      underscores between digits are not modelled. */
  function ParseFloat(s: string): Option<PyFloat> {
    var t := Strip(s);
    if |t| > 0 && (t[0] == '+' || t[0] == '-') then
      match ParseUnsignedFloat(t[1..])
      case Some(x) => Some(if t[0] == '-' then Negate(x) else x)
      case None => None
    else ParseUnsignedFloat(t)
  }

  /** A whole number typed as the factor reads as that number. */
  lemma ParseFloatOfInt(i: int)
    ensures ParseFloat(IntToString(i)) == Some(Finite(i as real))
  {
    if i < 0 {
      ParseFloatOfNegative(i);
    } else {
      ParseFloatOfNat(i);
    }
  }

  lemma ParseFloatOfNat(i: int)
    requires i >= 0
    ensures ParseFloat(IntToString(i)) == Some(Finite(i as real))
  {
    var s := NatToString(i);
    assert IntToString(i) == s;
    DigitsNoSpace(s);
    ParseUnsignedNumeral(s);
    StripNoSpace(s);
    assert IsDigit(s[0]);
  }

  lemma ParseFloatOfNegative(i: int)
    requires i < 0
    ensures ParseFloat(IntToString(i)) == Some(Finite(i as real))
  {
    var digits := NatToString(-i);
    var s := "-" + digits;
    assert IntToString(i) == s;
    assert s[1..] == digits;
    DigitsNoSpace(digits);
    ParseUnsignedNumeral(digits);
    assert NoSpace(s) by {
      forall k | 0 <= k < |s| ensures !IsSpace(s[k]) {
        if k > 0 { assert s[k] == digits[k - 1]; }
      }
    }
    StripNoSpace(s);
  }

  lemma ParseUnsignedNumeral(digits: string)
    requires IsDigits(digits)
    ensures ParseUnsignedFloat(digits) == Some(Finite(DigitsValue(digits) as real))
  {
    assert forall k | 0 <= k < |digits| :: digits[k] != '.' by {
      forall k | 0 <= k < |digits| ensures digits[k] != '.' {
        assert IsDigit(digits[k]);
      }
    }
    assert IsDigit(digits[0]);
    assert Lower(digits)[0] == digits[0];
  }

  /** A numeral with a decimal point, such as `2.0`, `0.5`, `.5` or `3.`, is
      read as the value it denotes. */
  lemma DecimalNumeral(whole: string, frac: string)
    requires AllDigits(whole) && AllDigits(frac) && |whole| + |frac| > 0
    ensures NoSpace(whole + "." + frac)
    ensures ParseFloat(whole + "." + frac) == Some(Finite(DecimalValue(whole, frac)))
  {
    var t := whole + "." + frac;
    DecimalNoSign(whole, frac);
    StripNoSpace(t);
    UnsignedDecimal(whole, frac);
  }

  lemma DecimalNoSign(whole: string, frac: string)
    requires AllDigits(whole) && AllDigits(frac)
    ensures NoSpace(whole + "." + frac)
    ensures (whole + "." + frac)[0] != '+' && (whole + "." + frac)[0] != '-'
  {
    var t := whole + "." + frac;
    forall k | 0 <= k < |t| ensures !IsSpace(t[k]) && (k == 0 ==> t[k] != '+' && t[k] != '-') {
      if k < |whole| {
        assert t[k] == whole[k] && IsDigit(whole[k]);
      } else if k > |whole| {
        assert t[k] == frac[k - |whole| - 1] && IsDigit(frac[k - |whole| - 1]);
      } else {
        assert t[k] == '.';
      }
    }
  }

  lemma UnsignedDecimal(whole: string, frac: string)
    requires AllDigits(whole) && AllDigits(frac) && |whole| + |frac| > 0
    ensures ParseUnsignedFloat(whole + "." + frac) == Some(Finite(DecimalValue(whole, frac)))
  {
    var t := whole + "." + frac;
    assert t == whole + ['.'] + frac;
    assert '.' !in whole by {
      forall k | 0 <= k < |whole| ensures whole[k] != '.' { assert IsDigit(whole[k]); }
    }
    SplitOnPrefix(whole, frac, '.');
    AfterFirstPrefix(whole, frac, '.');
    assert t[|whole|] == '.';
    NotSpecialWord(t, |whole|);
  }

  /** A text holding a dot is none of the words `inf`, `infinity` and `nan`. */
  lemma NotSpecialWord(t: string, i: int)
    requires 0 <= i < |t| && t[i] == '.'
    ensures '.' in t
    ensures Lower(t) != "inf" && Lower(t) != "infinity" && Lower(t) != "nan"
  {
    assert Lower(t)[i] == '.';
  }

  // ---------------------------------------------------------------------------
  // The atempo chain

  /** The product of the stage factors. */
  function Product(stages: seq<real>): real {
    if stages == [] then 1.0 else stages[0] * Product(stages[1..])
  }

  function Repeat(x: real, n: nat): (s: seq<real>)
    ensures |s| == n
    ensures forall k | 0 <= k < n :: s[k] == x
  {
    seq(n, k => x)
  }

  /** One `atempo` filter accepts tempo factors from 0.5 to 2.0. */
  predicate InTempoRange(x: real) {
    0.5 <= x <= 2.0
  }

  /** A run of 2.0 stages or a run of 0.5 stages, never both, and then one
      remainder stage, which lies above 1.0 after 2.0 stages and below 1.0
      after 0.5 stages. */
  predicate ChainShape(stages: seq<real>) {
    && |stages| >= 1
    && var n := |stages| - 1;
       || (stages[..n] == Repeat(2.0, n) && (n > 0 ==> stages[n] > 1.0))
       || (stages[..n] == Repeat(0.5, n) && (n > 0 ==> stages[n] < 1.0))
  }

  lemma {:induction false} ProductAppend(stages: seq<real>, x: real)
    ensures Product(stages + [x]) == Product(stages) * x
  {
    if stages != [] {
      assert (stages + [x])[1..] == stages[1..] + [x];
      ProductAppend(stages[1..], x);
    }
  }

  lemma RepeatAppend(x: real, n: nat)
    ensures Repeat(x, n) + [x] == Repeat(x, n + 1)
  {
  }

  /** Moving a factor `c` from `remaining` into the stages keeps the product. */
  lemma MoveFactor(p: real, remaining: real, c: real)
    requires c > 0.0
    ensures (p * c) * (remaining / c) == p * remaining
  {
    calc {
      (p * c) * (remaining / c);
      p * (c * (remaining / c));
      p * remaining;
    }
  }

  /** Halving a number above 2 lowers its floor, so each loop makes progress. */
  lemma HalfLowersFloor(x: real)
    requires x > 2.0
    ensures 0 <= (x / 2.0).Floor < x.Floor
  {
  }

  /** The first loop of `change_speed`: a 2.0 stage while `remaining > 2.0`. */
  method HalveAboveTwo(factor: real) returns (stages: seq<real>, remaining: real)
    requires factor > 0.0
    ensures 0.0 < remaining <= 2.0
    ensures stages == Repeat(2.0, |stages|)
    ensures Product(stages) * remaining == factor
    ensures |stages| > 0 ==> remaining > 1.0
    ensures factor <= 2.0 ==> stages == [] && remaining == factor
  {
    remaining := factor;
    stages := [];
    while remaining > 2.0
      invariant remaining > 0.0
      invariant stages == Repeat(2.0, |stages|)
      invariant Product(stages) * remaining == factor
      invariant |stages| > 0 ==> remaining > 1.0
      invariant factor <= 2.0 ==> stages == [] && remaining == factor
      decreases remaining.Floor
    {
      HalfLowersFloor(remaining);
      ProductAppend(stages, 2.0);
      MoveFactor(Product(stages), remaining, 2.0);
      RepeatAppend(2.0, |stages|);
      stages := stages + [2.0];
      remaining := remaining / 2.0;
    }
  }

  /** The second loop of `change_speed`: a 0.5 stage while `remaining < 0.5`. */
  method DoubleBelowHalf(factor: real) returns (stages: seq<real>, remaining: real)
    requires 0.0 < factor <= 2.0
    ensures 0.5 <= remaining <= 2.0
    ensures stages == Repeat(0.5, |stages|)
    ensures Product(stages) * remaining == factor
    ensures |stages| > 0 ==> remaining < 1.0
    ensures factor >= 0.5 ==> stages == [] && remaining == factor
  {
    remaining := factor;
    stages := [];
    while remaining < 0.5
      invariant 0.0 < remaining <= 2.0
      invariant stages == Repeat(0.5, |stages|)
      invariant Product(stages) * remaining == factor
      invariant |stages| > 0 ==> remaining < 1.0
      invariant factor >= 0.5 ==> stages == [] && remaining == factor
      decreases (1.0 / remaining).Floor
    {
      HalfLowersFloor(1.0 / remaining);
      assert 1.0 / (remaining * 2.0) == (1.0 / remaining) / 2.0;
      ProductAppend(stages, 0.5);
      MoveFactor(Product(stages), remaining, 0.5);
      assert remaining / 0.5 == remaining * 2.0;
      RepeatAppend(0.5, |stages|);
      stages := stages + [0.5];
      remaining := remaining * 2.0;
    }
  }

  const NotPositive := "Speed factor must be > 0"
  const NotFinite := "Speed factor must be finite"

  /** The `atempo` stages of `change_speed`, with the guard corrected to refuse
      infinity and NaN as well as factors <= 0. */
  method AtempoChain(factor: PyFloat) returns (r: Result<seq<real>>)
    ensures r.Err? <==> !(factor.Finite? && factor.r > 0.0)
    ensures (factor == NegInf || (factor.Finite? && factor.r <= 0.0)) ==> r == Err(ValueError(NotPositive))
    ensures (factor == PosInf || factor == NaN) ==> r == Err(ValueError(NotFinite))
    ensures r.Ok? ==> ChainShape(r.value)
    ensures r.Ok? ==> forall k | 0 <= k < |r.value| :: InTempoRange(r.value[k])
    ensures r.Ok? ==> Product(r.value) == factor.r
    ensures r.Ok? && InTempoRange(factor.r) ==> r.value == [factor.r]
  {
    if factor == PosInf || factor == NaN {
      return Err(ValueError(NotFinite));
    }
    if !factor.Finite? || factor.r <= 0.0 {
      return Err(ValueError(NotPositive));
    }
    var halves, afterHalving := HalveAboveTwo(factor.r);
    var doubles, remaining := DoubleBelowHalf(afterHalving);
    var stages := halves + doubles + [remaining];
    ChainProduct(factor.r, halves, afterHalving, doubles, remaining);
    ChainStages(factor.r, halves, afterHalving, doubles, remaining);
    return Ok(stages);
  }

  /** The two loops together keep the product of all stages equal to the factor. */
  lemma ChainProduct(factor: real, halves: seq<real>, afterHalving: real, doubles: seq<real>, remaining: real)
    requires Product(halves) * afterHalving == factor
    requires Product(doubles) * remaining == afterHalving
    requires halves == [] || doubles == []
    ensures Product(halves + doubles + [remaining]) == factor
  {
    var runs := halves + doubles;
    assert runs == halves || runs == doubles;
    ProductAppend(runs, remaining);
    if runs == halves {
      assert doubles == [];
    } else {
      assert halves == [];
    }
  }

  /** The stages have the chain's shape, each within one filter's range. */
  lemma ChainStages(factor: real, halves: seq<real>, afterHalving: real, doubles: seq<real>, remaining: real)
    requires halves == Repeat(2.0, |halves|) && (|halves| > 0 ==> afterHalving > 1.0)
    requires factor <= 2.0 ==> halves == [] && afterHalving == factor
    requires 0.0 < afterHalving <= 2.0
    requires doubles == Repeat(0.5, |doubles|) && (|doubles| > 0 ==> remaining < 1.0)
    requires afterHalving >= 0.5 ==> doubles == [] && remaining == afterHalving
    requires 0.5 <= remaining <= 2.0
    ensures ChainShape(halves + doubles + [remaining])
    ensures forall k | 0 <= k < |halves + doubles + [remaining]| :: InTempoRange((halves + doubles + [remaining])[k])
    ensures InTempoRange(factor) ==> halves + doubles + [remaining] == [factor]
  {
    var runs := halves + doubles;
    var stages := runs + [remaining];
    assert stages[..|runs|] == runs;
    if halves != [] {
      assert doubles == [] && runs == halves;
    } else {
      assert runs == doubles;
    }
  }

  // ---------------------------------------------------------------------------
  // The guard as written

  /** `x / 2.0` on Python floats (rounding and underflow not modelled). */
  function Halve(x: PyFloat): PyFloat {
    match x
    case Finite(r) => Finite(r / 2.0)
    case _ => x
  }

  /** `x > 2.0` */
  predicate AboveTwo(x: PyFloat) {
    match x
    case Finite(r) => r > 2.0
    case PosInf => true
    case _ => false
  }

  /** `x <= 0`, the only check `change_speed` makes before its loops. */
  predicate AtMostZero(x: PyFloat) {
    match x
    case Finite(r) => r <= 0.0
    case NegInf => true
    case _ => false
  }

  /** The first loop of `change_speed` as written, run for at most `fuel`
      iterations: the value of `remaining` when it exits, or `None` when it is
      still running after `fuel` iterations. */
  function HalvingLoop(remaining: PyFloat, fuel: nat): Option<PyFloat>
    decreases fuel
  {
    if !AboveTwo(remaining) then Some(remaining)
    else if fuel == 0 then None
    else HalvingLoop(Halve(remaining), fuel - 1)
  }

  /** As written, `/send inf` reaches `change_speed` with `float("inf")`, which
      passes the `remaining <= 0` check and never leaves the halving loop,
      however many iterations it is given: `inf / 2.0` is `inf` again. */
  lemma InfinityNeverLeavesHalvingLoop(fuel: nat)
    ensures ParseFloat("inf") == Some(PosInf)
    ensures !AtMostZero(PosInf)
    ensures HalvingLoop(PosInf, fuel) == None
  {
    ParseInf();
    InfinityHalving(fuel);
  }

  lemma ParseInf()
    ensures ParseFloat("inf") == Some(PosInf)
  {
    assert Strip("inf") == "inf" by { StripNoSpace("inf"); }
    assert Lower("inf") == "inf";
  }

  lemma {:induction false} InfinityHalving(fuel: nat)
    ensures HalvingLoop(PosInf, fuel) == None
  {
    if fuel > 0 {
      InfinityHalving(fuel - 1);
    }
  }

  /** Every finite factor above 2 leaves the halving loop in time. */
  lemma {:induction false} FiniteLeavesHalvingLoop(x: real)
    requires x > 0.0
    ensures HalvingLoop(Finite(x), if x > 2.0 then x.Floor as nat else 0).Some?
    decreases if x > 2.0 then x.Floor else 0
  {
    if x > 2.0 {
      HalfLowersFloor(x);
      FiniteLeavesHalvingLoop(x / 2.0);
      FuelMonotone(Finite(x / 2.0), if x / 2.0 > 2.0 then (x / 2.0).Floor as nat else 0, x.Floor as nat - 1);
    }
  }

  lemma {:induction false} FuelMonotone(x: PyFloat, fuel: nat, more: nat)
    requires fuel <= more
    requires HalvingLoop(x, fuel).Some?
    ensures HalvingLoop(x, more) == HalvingLoop(x, fuel)
    decreases fuel
  {
    if AboveTwo(x) {
      FuelMonotone(Halve(x), fuel - 1, more - 1);
    }
  }
}
