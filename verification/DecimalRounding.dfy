/** The parser rounds in stages: exactly when its answer is the one a single rounding half to even would
    give, and exactly when it refuses (src/decimal.rs). */
module DecimalRounding {
  import opened Basics
  import opened Decimals
  import opened DecimalText

  // -- one rounding -------------------------------------------------------------------------

  /** The number, rounded half to even to units of `10^e`, is past the largest mantissa. */
  ghost predicate TooLargeAt(n: nat, e: nat)
  {
    forall q: nat :: HalfEven(n, Pow10(e), q) ==> q > I64_MAX
  }

  lemma TooLargeAtIff(n: nat, e: nat)
    ensures TooLargeAt(n, e) <==> PastRange(n, Pow10(e))
  {
    hide Pow10, HalfEven, PastRange;
    var q := SomeHalfEven(n, e);
    PastRangeIff(n, Pow10(e), q);
    forall p: nat | HalfEven(n, Pow10(e), p)
      ensures p == q
    {
      HalfEvenUnique(n, Pow10(e), p, q);
    }
  }

  lemma SomeHalfEven(n: nat, e: nat) returns (q: nat)
    ensures HalfEven(n, Pow10(e), q)
  {
    if e == 0 {
      q := n;
    } else {
      Pow10Even(e);
      RoundByHalfEven(n, Pow10(e));
      q := RoundBy(n, Pow10(e), false);
    }
  }

  /** What one rounding half to even answers: the number with as many of its fraction digits as fit, and
      a refusal only when even its integer part, rounded, does not. */
  ghost predicate RoundedOnce(w: Written, r: Result<Decimal, ParseError>)
  {
    var n, s := Value(w.marks), WrittenScale(w);
    if n == 0 then r.Ok? && r.value.mantissa == 0
    else if s < 0 then
      match r
      case Ok(d) => d.scale == 0 && Abs(d.mantissa) == n * Pow10(-s)
      case Err(_) => n * Pow10(-s) > I64_MAX
    else
      match r
      case Ok(d) =>
        && d.scale <= Smaller(s, MAX_SCALE)
        && HalfEven(n, Pow10(s - d.scale), Abs(d.mantissa))
        && (d.scale < Smaller(s, MAX_SCALE) ==> TooLargeAt(n, s - d.scale - 1))
      case Err(_) => TooLargeAt(n, s)
  }

  // -- stage upon stage ---------------------------------------------------------------------

  /** The last rounding, of `m` units of size `u` by `t` to `q`, met an exact half and went the other
      way from `n`, which the half stood for. */
  predicate Overshot(n: nat, u: nat, m: nat, t: nat, q: nat)
  {
    (2 * m == 2 * (q * t) + t && n > m * u) || (2 * (q * t) == 2 * m + t && n < m * u)
  }

  /** After roundings that stayed close, one more is half to even of the number itself if and only if it
      did not overshoot. */
  lemma StageIsHalfEvenIff(n: nat, u: nat, m: nat, t: nat, q: nat)
    requires Close(n, u, m) && HalfEven(m, t, q) && t >= 10 && t % 2 == 0
    ensures HalfEven(n, t * u, q) <==> !Overshot(n, u, m, t, q)
  {
    Positive(t, u);
    var g := m - q * t;
    Distribute(g, q * t, u);
    Regroup(q, t, u);
    Regroup(2, g, u);
    Distribute(t, -2, u);
    Distribute(0 - t, 2, u);
    assert (0 - t) * u == -(t * u);
    MulMono(10, t, u);
    if 2 * g != t && 2 * g != -(t as int) {
      EvenGap(g, t);
      MulMono(2 * g, t - 2, u);
      MulMono(2 - t, 2 * g, u);
    }
    StageForm(n, u, t, q, g, m * u, g * u, t * u, q * (t * u), 2 * g * u);
  }

  lemma EvenGap(g: int, t: nat)
    requires t % 2 == 0 && -(t as int) <= 2 * g <= t && 2 * g != t && 2 * g != -(t as int)
    ensures 2 - t <= 2 * g <= t - 2
  {
  }

  /** `StageIsHalfEvenIff` with its products named. */
  lemma StageForm(n: nat, u: nat, t: nat, q: nat, g: int, mu: int, gu: int, tu: nat, qtu: int, gu2: int)
    requires u > 0 && tu > 0 && qtu == q * tu && gu2 == 2 * gu && mu == gu + qtu && 10 * u <= tu
    requires 9 * (n - mu) <= 5 * u && 9 * (mu - n) <= 5 * u
    requires 2 * g == t ==> gu2 == tu && q % 2 == 0
    requires 2 * g == -(t as int) ==> gu2 == -(tu as int) && q % 2 == 0
    requires 2 * g != t && 2 * g != -(t as int) ==> 2 * u - tu <= gu2 <= tu - 2 * u
    ensures HalfEven(n, tu, q) <==> !((2 * g == t && n > mu) || (2 * g == -(t as int) && n < mu))
  {
  }

  /** The loop that drops digits until the mantissa fits goes wrong: it gives up a unit, or the number,
      that one rounding would have kept, or the last digit it drops overshoots. */
  predicate ShrinkMisses(n: nat, u: nat, m: nat, scale: nat)
    decreases scale
  {
    if m <= I64_MAX then false
    else if scale == 0 then !PastRange(n, u)
    else
      var q := RoundOff(m, 1, false);
      if q <= I64_MAX then Overshot(n, u, m, 10, q) || !PastRange(n, u) else ShrinkMisses(n, 10 * u, q, scale - 1)
  }

  /** The loop's answer against one rounding. */
  ghost predicate ShrinksOnce(n: nat, whole: nat, scale: nat, r: Option<(nat, nat)>)
  {
    match r
    case None => TooLargeAt(n, whole)
    case Some((q, s)) => s < scale <= whole && HalfEven(n, Pow10(whole - s), q) && TooLargeAt(n, whole - s - 1)
  }

  lemma {:induction false} ShrinkOnceIff(n: nat, whole: nat, m: nat, scale: nat)
    requires m <= U128_MAX && I64_MAX < m && scale <= whole && Close(n, Pow10(whole - scale), m)
    ensures Shrink(m, scale).Some? ==> Shrink(m, scale).value.1 < scale
    ensures ShrinksOnce(n, whole, scale, Shrink(m, scale)) <==> !ShrinkMisses(n, Pow10(whole - scale), m, scale)
    decreases scale
  {
    hide Pow10, RoundOff, HalfEven, Close, Overshot, PastRange, TooLargeAt;
    var d, q := Pow10(whole - scale), RoundOff(m, 1, false);
    TooLargeAtIff(n, whole - scale);
    if scale > 0 {
      ShrinkStep(n, d, m);
      NextPower(whole - scale);
      if q <= I64_MAX {
        RoundOffHalfEven(m, 1);
        NextPower(0);
        PowSmall();
        StageIsHalfEvenIff(n, d, m, 10, q);
        ShrinkFits(q, scale - 1);
      } else {
        ShrinkOnceIff(n, whole, q, scale - 1);
      }
    }
  }

  /** A stage overshoots, or gives up what one rounding would have kept. Digits that found no room in the
      accumulator never make it so by themselves. */
  predicate Misses(w: Written)
  {
    var n, s, k, m := Value(w.marks), WrittenScale(w), Dropped(w.marks), RoundGathered(Gather(w.marks));
    if m == 0 || s < k then false
    else if s - k > MAX_SCALE then
      var q := RoundOff(m, s - k - MAX_SCALE, false);
      if q > I64_MAX then ShrinkMisses(n, Pow10(s - MAX_SCALE), q, MAX_SCALE)
      else Overshot(n, Pow10(k), m, Pow10(s - k - MAX_SCALE), q)
    else ShrinkMisses(n, Pow10(k), m, s - k)
  }

  /** For every written number: the parser answers what one rounding half to even would, or refuses when
      that would, if and only if no stage misses. */
  lemma RoundedOnceIff(w: Written)
    requires Digits(w.marks)
    ensures RoundedOnce(w, Convert(w)) <==> !Misses(w)
  {
    hide Pow10, RoundOff, HalfEven, Shrink, Gather, Dropped, Value, Fractions, Tail, Close, Overshot, ShrinkMisses;
    hide TooLargeAt, PastRange;
    ConvertAnswers(w);
    GatherSplits(w.marks);
    FirstRounding(w.marks);
    var n, s, k, m := Value(w.marks), WrittenScale(w), Dropped(w.marks), RoundGathered(Gather(w.marks));
    HalfEvenClose(n, Pow10(k), m);
    if m == 0 {
      ZeroValue(w.marks);
    } else {
      NonzeroValue(w.marks);
      if s < k {
        LargeIsRight(w);
      } else if s - k > MAX_SCALE {
        FineOnceIff(w, m, k);
      } else {
        CoarseOnceIff(w, m, k);
      }
    }
  }

  lemma ZeroValue(marks: seq<Mark>)
    requires Digits(marks) && RoundGathered(Gather(marks)) == 0
    ensures Value(marks) == 0
  {
    hide Pow10, Gather, Value, Dropped, Fractions, Tail;
    GatherSplits(marks);
  }

  lemma NonzeroValue(marks: seq<Mark>)
    requires Digits(marks) && RoundGathered(Gather(marks)) > 0
    ensures Value(marks) > 0
  {
    hide Pow10, Gather, Value, Dropped, Fractions, Tail;
    GatherSplits(marks);
    if Dropped(marks) > 0 {
      DroppedIsLarge(marks);
    }
  }

  /** Digits dropped before the point, or none after it: kept exactly or rightly refused. */
  lemma LargeIsRight(w: Written)
    requires Digits(w.marks) && Value(w.marks) > 0 && RoundGathered(Gather(w.marks)) > 0
    requires WrittenScale(w) < Dropped(w.marks) && Answers(w, Convert(w))
    ensures RoundedOnce(w, Convert(w))
  {
    hide Pow10, Gather, Value, Dropped, Fractions, Tail, Shrink, TooLargeAt, HalfEven;
    var n, s := Value(w.marks), WrittenScale(w);
    if s >= 0 {
      NotThatLarge(w);
      TooLargeAtIff(n, s);
      VeryLarge(w);
    }
  }

  lemma VeryLarge(w: Written)
    requires Digits(w.marks) && 0 <= WrittenScale(w) < Dropped(w.marks)
    ensures PastRange(Value(w.marks), Pow10(WrittenScale(w)))
  {
    hide Pow10, Gather, Value, Dropped, Fractions, Tail;
    DroppedIsLarge(w.marks);
    Pow10Grows(WrittenScale(w), Dropped(w.marks));
  }

  lemma DroppedIsLarge(marks: seq<Mark>)
    requires Digits(marks) && Dropped(marks) > 0
    ensures Value(marks) >= ACCUMULATE_LIMIT * Pow10(Dropped(marks))
  {
    hide Pow10, Gather, Value, Dropped, Fractions, Tail;
    GatherSplits(marks);
    MulMono(ACCUMULATE_LIMIT, Gather(marks).magnitude, Pow10(Dropped(marks)));
  }

  /** A number with digits dropped before the point is refused. */
  lemma NotThatLarge(w: Written)
    requires Digits(w.marks) && RoundGathered(Gather(w.marks)) > 0
    requires 0 < Dropped(w.marks) && WrittenScale(w) < Dropped(w.marks)
    ensures Convert(w).Err?
  {
    hide Pow10, Gather, Value, Dropped, Fractions, Tail, Shrink;
    GatherSplits(w.marks);
    var m, up := RoundGathered(Gather(w.marks)), Dropped(w.marks) - WrittenScale(w);
    MulMono(1, Pow10(up), m);
    TooLargeForShrink(m * Pow10(up));
  }

  lemma TooLargeForShrink(m: nat)
    ensures m > I64_MAX ==> Shrink(m, 0) == None
  {
  }

  lemma ShrinkFits(m: nat, scale: nat)
    ensures m <= I64_MAX ==> Shrink(m, scale) == Some((m, scale))
  {
  }

  /** A scale a decimal can have: nothing, or the loop. */
  lemma CoarseOnceIff(w: Written, m: nat, k: nat)
    requires Digits(w.marks) && Value(w.marks) > 0
    requires k == Dropped(w.marks) && m == RoundGathered(Gather(w.marks)) && 0 < m <= U128_MAX
    requires WrittenScale(w) - k == Gather(w.marks).fractionDigits - Gather(w.marks).skipped - w.exponent
    requires 0 <= WrittenScale(w) - k <= MAX_SCALE && Close(Value(w.marks), Pow10(k), m)
    ensures RoundedOnce(w, Convert(w)) <==> !Misses(w)
  {
    hide Pow10, RoundOff, HalfEven, Shrink, Gather, Dropped, Value, Fractions, Close, Overshot, ShrinkMisses;
    hide TooLargeAt, PastRange;
    var n, s := Value(w.marks), WrittenScale(w);
    if m > I64_MAX {
      ShrinkOnceIff(n, s, m, s - k);
    } else {
      FittingGathered(w);
      ShrinkFits(m, s - k);
      FitsNotMissed(n, Pow10(k), m, s - k);
      PowSmall();
      ExactHalfEven(n);
    }
  }

  lemma FitsNotMissed(n: nat, u: nat, m: nat, scale: nat)
    requires m <= I64_MAX
    ensures !ShrinkMisses(n, u, m, scale)
  {
  }

  /** A mantissa that fits has all its digits. */
  lemma FittingGathered(w: Written)
    requires Digits(w.marks) && RoundGathered(Gather(w.marks)) <= I64_MAX
    ensures Dropped(w.marks) == 0 && RoundGathered(Gather(w.marks)) == Value(w.marks)
  {
    hide Pow10, Gather, Value, Dropped, Fractions, Tail;
    GatherSplits(w.marks);
  }

  /** A scale finer than a decimal can have: its digits go first. */
  lemma FineOnceIff(w: Written, m: nat, k: nat)
    requires Value(w.marks) > 0
    requires k == Dropped(w.marks) && m == RoundGathered(Gather(w.marks)) && 0 < m <= U128_MAX
    requires WrittenScale(w) - k == Gather(w.marks).fractionDigits - Gather(w.marks).skipped - w.exponent > MAX_SCALE
    requires Close(Value(w.marks), Pow10(k), m)
    ensures RoundedOnce(w, Convert(w)) <==> !Misses(w)
  {
    hide Pow10, RoundOff, HalfEven, Shrink, Gather, Dropped, Value, Fractions, Close, Overshot, ShrinkMisses;
    hide TooLargeAt, PastRange;
    var n, s := Value(w.marks), WrittenScale(w);
    var drop := s - k - MAX_SCALE;
    var q := RoundOff(m, drop, false);
    RoundOffHalfEven(m, drop);
    RoundOffSmaller(m, drop);
    AtLeastTen(drop);
    Pow10Even(drop);
    CloseAgain(n, Pow10(k), m, Pow10(drop), q);
    Pow10Add(drop, k);
    RoundOffFar(m, drop);
    if q > I64_MAX {
      ShrinkOnceIff(n, s, q, MAX_SCALE);
    } else {
      ShrinkFits(q, MAX_SCALE);
      StageIsHalfEvenIff(n, Pow10(k), m, Pow10(drop), q);
    }
  }

  // -- exactly when a number is refused -----------------------------------------------------

  /** The least mantissa that cannot be brought in range by dropping this many digits one at a time. */
  function Threshold(digits: nat): (r: nat)
    ensures r > I64_MAX
  {
    if digits == 0 then I64_MAX + 1
    else var t := Threshold(digits - 1); 10 * t - if t % 2 == 0 then 5 else 4
  }

  lemma {:induction false} ShrinkRefusesIff(m: nat, digits: nat)
    ensures Shrink(m, digits) == None <==> m >= Threshold(digits)
    decreases digits
  {
    if m > I64_MAX && digits > 0 {
      RoundOffOne(m, false);
      ShrinkRefusesIff(RoundOff(m, 1, false), digits - 1);
      OneDigitLess(m, Threshold(digits - 1), RoundOff(m, 1, false));
    }
  }

  lemma OneDigitLess(m: nat, t: nat, q: nat)
    requires t > 0
    requires q == if m % 10 > 5 || (m % 10 == 5 && (m / 10) % 2 == 1) then m / 10 + 1 else m / 10
    ensures q >= t <==> m >= 10 * t - if t % 2 == 0 then 5 else 4
  {
  }

  /** The least number that `d`, rounded half to even, divides to `t` or more. */
  function Lowest(t: nat, d: nat): (r: nat)
    requires t > 0 && d > 0
    ensures r > 0
  {
    Positive(t, d);
    if d == 1 then t else (MulMono(1, t, d); t * d - d / 2 + t % 2)
  }

  lemma RoundReachesIff(n: nat, d: nat, q: nat, t: nat)
    requires HalfEven(n, d, q) && t > 0 && (d == 1 || d % 2 == 0)
    ensures q >= t <==> n >= Lowest(t, d)
  {
    hide HalfEven, Lowest;
    HalfEvenNamed(n, d, q, q * d);
    LowestNamed(t, d, t * d);
    ProductOrder(q, t, d);
    ReachForm(n, d, q, t, q * d, t * d);
  }

  lemma HalfEvenNamed(n: nat, d: nat, q: nat, qd: int)
    requires HalfEven(n, d, q) && qd == q * d
    ensures d > 0 && qd >= 0 && 2 * n <= 2 * qd + d && 2 * qd <= 2 * n + d
    ensures 2 * n == 2 * qd + d || 2 * qd == 2 * n + d ==> q % 2 == 0
  {
  }

  lemma LowestNamed(t: nat, d: nat, td: int)
    requires t > 0 && d > 0 && td == t * d
    ensures td >= d && Lowest(t, d) == if d == 1 then td else td - d / 2 + t % 2
  {
    MulMono(1, t, d);
  }

  /** Products by one factor stand apart as the others do. */
  lemma ProductOrder(q: nat, t: nat, d: nat)
    ensures q == t ==> q * d == t * d
    ensures q > t ==> q * d >= t * d + d
    ensures q + 1 == t ==> q * d + d == t * d
    ensures q + 1 < t ==> q * d + 2 * d <= t * d
  {
    Distribute(t, 1, d);
    Distribute(q, 1, d);
    Distribute(q, 2, d);
    if q > t {
      MulMono(t + 1, q, d);
    } else if q + 1 < t {
      MulMono(q + 2, t, d);
    }
  }

  /** `RoundReachesIff` with its products named. */
  lemma ReachForm(n: nat, d: nat, q: nat, t: nat, qd: nat, td: nat)
    requires d > 0 && (d == 1 || d % 2 == 0)
    requires 2 * n <= 2 * qd + d && 2 * qd <= 2 * n + d
    requires (2 * n == 2 * qd + d || 2 * qd == 2 * n + d) ==> q % 2 == 0
    requires q == t ==> qd == td
    requires q > t ==> qd >= td + d
    requires q + 1 == t ==> qd + d == td
    requires q + 1 < t ==> qd + 2 * d <= td
    requires t > 0 && td >= d
    ensures q >= t <==> n >= if d == 1 then td else td - d / 2 + t % 2
  {
  }

  /** The number is refused: too large as an integer, or not below what the stages bring in range. */
  predicate Refused(w: Written)
  {
    var n, s, k := Value(w.marks), WrittenScale(w), Dropped(w.marks);
    if n == 0 then false
    else if s < 0 then n * Pow10(-s) > I64_MAX
    else if s < k then true
    else
      n >= Lowest(if s - k > MAX_SCALE then Lowest(Threshold(MAX_SCALE), Pow10(s - k - MAX_SCALE))
                  else Threshold(s - k), Pow10(k))
  }

  /** For every written number, whether it is refused. */
  lemma RefusedIff(w: Written)
    requires Digits(w.marks)
    ensures Convert(w).Err? <==> Refused(w)
  {
    hide Pow10, RoundOff, HalfEven, Shrink, Gather, Dropped, Value, Fractions, Tail, Lowest, Threshold;
    GatherSplits(w.marks);
    FirstRounding(w.marks);
    var n, s, k, m := Value(w.marks), WrittenScale(w), Dropped(w.marks), RoundGathered(Gather(w.marks));
    if m == 0 {
      ZeroValue(w.marks);
    } else {
      NonzeroValue(w.marks);
      if s < 0 {
        LargeRefusedIff(w);
      } else if s < k {
        NotThatLarge(w);
      } else {
        OneOrEven(k);
        if s - k > MAX_SCALE {
          var drop := s - k - MAX_SCALE;
          var t := Lowest(Threshold(MAX_SCALE), Pow10(drop));
          var q := RoundOff(m, drop, false);
          RoundOffHalfEven(m, drop);
          RoundOffFar(m, drop);
          OneOrEven(drop);
          ShrinkRefusesIff(q, MAX_SCALE);
          RoundReachesIff(m, Pow10(drop), q, Threshold(MAX_SCALE));
          RoundReachesIff(n, Pow10(k), m, t);
        } else {
          ShrinkRefusesIff(m, s - k);
          RoundReachesIff(n, Pow10(k), m, Threshold(s - k));
        }
      }
    }
  }

  lemma OneOrEven(k: nat)
    ensures Pow10(k) == 1 || Pow10(k) % 2 == 0
  {
    if k > 0 {
      Pow10Even(k);
    }
  }

  lemma LargeRefusedIff(w: Written)
    requires Digits(w.marks) && WrittenScale(w) < 0 && Value(w.marks) > 0 && RoundGathered(Gather(w.marks)) > 0
    ensures Convert(w).Err? <==> Value(w.marks) * Pow10(-WrittenScale(w)) > I64_MAX
  {
    hide Pow10, Gather, Value, Dropped, Fractions, Tail, Shrink, Convert, HalfEven;
    ConvertAnswers(w);
    NeverLeast(w);
  }

  /** The least mantissa is never the answer. */
  lemma NeverLeast(w: Written)
    ensures Convert(w).Ok? ==> Abs(Convert(w).value.mantissa) <= I64_MAX
  {
    hide Gather;
  }

  // -- what is promised, without the stages -------------------------------------------------

  /** At a scale a decimal can have and with digits the accumulator holds, the boundary is one number. */
  lemma RefusedFromThreshold(w: Written)
    requires Digits(w.marks) && Value(w.marks) < ACCUMULATE_LIMIT && 0 <= WrittenScale(w) <= MAX_SCALE
    ensures Convert(w).Err? <==> Value(w.marks) >= Threshold(WrittenScale(w))
  {
    hide Gather, Value, Dropped, Fractions, Threshold, Shrink, Convert;
    RefusedIff(w);
    GatheredWhole(w);
    PowSmall();
  }

  /** The same of texts: every text in the grammar is answered as one rounding would if and only if no
      stage misses, and refused as too large if and only if its number is. */
  lemma ParseRoundedOnceIff(t: string)
    requires Read(t).Some?
    ensures RoundedOnce(Read(t).value, Parse(t)) <==> !Misses(Read(t).value)
    ensures Parse(t) == Err(Overflow) <==> Refused(Read(t).value)
  {
    ParseWithinBound(t);
    hide RoundedOnce, Misses, Refused, Gather, Place, ReadExponent, Convert;
    RoundedOnceIff(Read(t).value);
    RefusedIff(Read(t).value);
  }
}
