/** The printer of decimals, and that it and the parser undo each other (src/decimal.rs). */
module DecimalPrinting {
  import opened Basics
  import opened Decimals
  import opened DecimalText

  /** `{}` of an unsigned integer. */
  function NatText(n: nat): (r: string)
    ensures r != []
  {
    if n < 10 then [DigitChar(n)] else NatText(n / 10) + [DigitChar(n % 10)]
  }

  /** `{:0width$}` of a number that has at most `width` digits. */
  function PaddedText(n: nat, width: nat): (r: string)
    ensures |r| == width
  {
    if width == 0 then [] else PaddedText(n / 10, width - 1) + [DigitChar(n % 10)]
  }

  function Quotient(m: nat, d: nat): (r: nat)
    requires d > 0
  {
    m / d
  }

  function Remainder(m: nat, d: nat): (r: nat)
    requires d > 0
    ensures r < d
  {
    m % d
  }

  function Display(d: Decimal): (r: string)
  {
    var sign := if d.mantissa < 0 then "-" else "";
    var magnitude := Abs(d.mantissa);
    if d.scale == 0 then sign + NatText(magnitude)
    else sign + NatText(Quotient(magnitude, Pow10(d.scale))) + "." + PaddedText(Remainder(magnitude, Pow10(d.scale)), d.scale)
  }

  // -- digit strings ------------------------------------------------------------------------

  predicate AllDigits(s: string)
  {
    forall k :: 0 <= k < |s| ==> IsDigit(s[k])
  }

  function Number(s: string): (r: nat)
    requires AllDigits(s)
  {
    if s == [] then 0 else 10 * Number(s[..|s| - 1]) + DigitOf(s[|s| - 1])
  }

  lemma {:induction false} NatTextNumber(n: nat)
    ensures AllDigits(NatText(n)) && Number(NatText(n)) == n
  {
    if n >= 10 {
      NatTextNumber(n / 10);
      assert NatText(n)[..|NatText(n)| - 1] == NatText(n / 10);
    }
  }

  lemma {:induction false} PaddedNumber(n: nat, width: nat)
    requires n < Pow10(width)
    ensures AllDigits(PaddedText(n, width)) && Number(PaddedText(n, width)) == n
  {
    if width > 0 {
      PaddedNumber(n / 10, width - 1);
      assert PaddedText(n, width)[..width - 1] == PaddedText(n / 10, width - 1);
    }
  }

  /** No leading zero, unless that is all there is. */
  predicate Plain(s: string)
  {
    s != [] && AllDigits(s) && (s[0] == '0' ==> |s| == 1)
  }

  lemma {:induction false} PlainIsNatText(s: string)
    requires Plain(s)
    ensures NatText(Number(s)) == s && (s[0] != '0' ==> Number(s) > 0)
  {
    var before, last := s[..|s| - 1], s[|s| - 1];
    if before != [] {
      PlainIsNatText(before);
      assert s == before + [last];
    } else {
      assert Number(s) == DigitOf(last);
      assert s == [last];
    }
  }

  lemma {:induction false} DigitsArePadded(s: string)
    requires AllDigits(s)
    ensures PaddedText(Number(s), |s|) == s && Number(s) < Pow10(|s|)
  {
    if s != [] {
      var before, last := s[..|s| - 1], s[|s| - 1];
      DigitsArePadded(before);
      assert Number(s) / 10 == Number(before) && Number(s) % 10 == DigitOf(last);
      assert s == before + [last];
    }
  }

  // -- reading digit strings ----------------------------------------------------------------

  function MarksOf(s: string, fractional: bool): (r: seq<Mark>)
    requires AllDigits(s)
    ensures |r| == |s|
  {
    seq(|s|, k requires 0 <= k < |s| => Mark(DigitOf(s[k]), fractional))
  }

  /** A digit string behind other digits appends to their value. */
  lemma {:induction false} MarksValue(before: seq<Mark>, s: string, fractional: bool)
    requires AllDigits(s)
    ensures var all := before + MarksOf(s, fractional);
            && Value(all) == Value(before) * Pow10(|s|) + Number(s)
            && Fractions(all) == Fractions(before) + (if fractional then |s| else 0)
  {
    var all := before + MarksOf(s, fractional);
    if s == [] {
      assert all == before;
    } else {
      var front := s[..|s| - 1];
      MarksValue(before, front, fractional);
      assert all[..|all| - 1] == before + MarksOf(front, fractional);
      assert all[|all| - 1] == Mark(DigitOf(s[|s| - 1]), fractional);
      TenTimes(Value(before), Pow10(|front|));
    }
  }

  lemma {:induction false} ReadRun(t: string, i: nat, j: nat, seenPoint: bool)
    requires i <= j <= |t| && AllDigits(t[i..j])
    ensures ReadMantissa(t, i, seenPoint) == Prepend(MarksOf(t[i..j], seenPoint), ReadMantissa(t, j, seenPoint))
    decreases j - i
  {
    if i == j {
      PrependNothing(ReadMantissa(t, j, seenPoint));
    } else {
      var run, rest := t[i..j], t[i + 1..j];
      assert run == [t[i]] + rest;
      assert IsDigit(run[0]);
      hide MarksOf;
      ReadRun(t, i + 1, j, seenPoint);
      FirstMark(run, rest, seenPoint, ReadMantissa(t, j, seenPoint));
    }
  }

  lemma FirstMark(run: string, rest: string, seenPoint: bool, after: Option<Mantissa>)
    requires run != [] && AllDigits(run) && rest == run[1..]
    ensures AllDigits(rest)
    ensures Prepend([Mark(DigitOf(run[0]), seenPoint)], Prepend(MarksOf(rest, seenPoint), after)) ==
            Prepend(MarksOf(run, seenPoint), after)
  {
    assert forall k :: 0 <= k < |rest| ==> rest[k] == run[k + 1];
    var first := Mark(DigitOf(run[0]), seenPoint);
    assert MarksOf(run, seenPoint) == [first] + MarksOf(rest, seenPoint);
    if after.Some? {
      assert [first] + (MarksOf(rest, seenPoint) + after.value.marks) == MarksOf(run, seenPoint) + after.value.marks;
    }
  }

  // -- texts the printer writes -------------------------------------------------------------

  /** A text in canonical form: sign, whole part, fraction. */
  datatype Canonical = Canonical(negative: bool, whole: string, fraction: string)

  function Text(c: Canonical): (r: string)
  {
    (if c.negative then "-" else "") + c.whole + (if c.fraction == [] then [] else "." + c.fraction)
  }

  predicate WellFormed(c: Canonical)
  {
    Plain(c.whole) && AllDigits(c.fraction)
  }

  function Magnitude(c: Canonical): (r: nat)
    requires WellFormed(c)
  {
    Number(c.whole) * Pow10(|c.fraction|) + Number(c.fraction)
  }

  /** Canonical and within reach of a decimal. */
  predicate InRange(c: Canonical)
  {
    && WellFormed(c)
    && |c.fraction| <= MAX_SCALE
    && Magnitude(c) <= I64_MAX
    && (c.negative ==> Magnitude(c) > 0)
  }

  function Meaning(c: Canonical): (r: Decimal)
    requires InRange(c)
  {
    var m: int := Magnitude(c);
    Decimal(if c.negative then -m else m, |c.fraction|)
  }

  function CanonicalMarks(c: Canonical): (r: seq<Mark>)
    requires WellFormed(c)
  {
    MarksOf(c.whole, false) + MarksOf(c.fraction, true)
  }

  /** The grammar reads a canonical text as its digits, with no exponent. */
  lemma ReadsCanonical(c: Canonical)
    requires WellFormed(c)
    ensures Read(Text(c)) == Some(Written(c.negative, CanonicalMarks(c), 0))
  {
    hide ReadMantissa;
    var t := Text(c);
    var start := if c.negative then 1 else 0;
    assert c.negative ==> t[0] == '-';
    assert t[start] == c.whole[0] && IsDigit(t[start]);
    ReadsDigits(c, t, start);
    assert SkipSpaces(t, 0) == 0;
    assert SkipSpaces(t, |t|) == |t|;
  }

  lemma ReadsDigits(c: Canonical, t: string, start: nat)
    requires WellFormed(c) && t == Text(c) && start == (if c.negative then 1 else 0)
    ensures ReadMantissa(t, start, false) == Some(Mantissa(CanonicalMarks(c), |t|))
  {
    var middle := start + |c.whole|;
    assert t[start..middle] == c.whole;
    ReadRun(t, start, middle, false);
    if c.fraction == [] {
      assert middle == |t|;
    } else {
      assert t[middle] == '.';
      assert t[middle + 1..] == c.fraction;
      assert t[middle + 1..|t|] == c.fraction;
      ReadRun(t, middle + 1, |t|, true);
      assert MarksOf(c.fraction, true) + [] == MarksOf(c.fraction, true);
    }
  }

  lemma ParsesCanonical(c: Canonical)
    requires InRange(c)
    ensures Parse(Text(c)) == Ok(Meaning(c))
  {
    hide Read, Convert, Pow10, Value, Fractions, Number, Text;
    ReadsCanonical(c);
    var whole := MarksOf(c.whole, false);
    assert [] + whole == whole;
    NoMarks();
    MarksValue([], c.whole, false);
    MarksValue(whole, c.fraction, true);
    FittingIsExact(Written(c.negative, CanonicalMarks(c), 0));
  }

  lemma NoMarks()
    ensures Value([]) == 0 && Fractions([]) == 0
  {
  }

  lemma DisplaysCanonical(c: Canonical)
    requires InRange(c)
    ensures Display(Meaning(c)) == Text(c)
  {
    hide Pow10, Number, Quotient, Remainder, NatText, PaddedText;
    var n, p := Magnitude(c), Pow10(|c.fraction|);
    assert Abs(Meaning(c).mantissa) == n;
    PlainIsNatText(c.whole);
    DigitsArePadded(c.fraction);
    Recover(Number(c.whole), Number(c.fraction), Pow10(|c.fraction|));
    PowSmall();
  }

  lemma Recover(q: nat, r: nat, k: nat)
    requires r < k
    ensures Quotient(q * k + r, k) == q && Remainder(q * k + r, k) == r
  {
    var n := q * k + r;
    Division(n, k);
    var gap := q - n / k;
    Distribute(gap, n / k, k);
    if gap > 0 {
      MulMono(1, gap, k);
    } else if gap < 0 {
      MulMono(gap, -1, k);
    }
  }

  /** Printing the parse of a canonical text in range gives the text back. */
  lemma PrintAfterParse(c: Canonical)
    requires InRange(c)
    ensures Parse(Text(c)).Ok? && Display(Parse(Text(c)).value) == Text(c)
  {
    hide Parse, Display, Text;
    ParsesCanonical(c);
    DisplaysCanonical(c);
  }

  // -- what every decimal prints as ---------------------------------------------------------

  function Form(d: Decimal): (r: Canonical)
  {
    var m, p := Abs(d.mantissa), Pow10(d.scale);
    Canonical(d.mantissa < 0, NatText(Quotient(m, p)), PaddedText(Remainder(m, p), d.scale))
  }

  /** What is printed is canonical and means what it was printed from. */
  lemma PrintsCanonical(d: Decimal)
    ensures var c := Form(d);
            && WellFormed(c) && |c.fraction| == d.scale
            && Magnitude(c) == Abs(d.mantissa)
            && Display(d) == Text(c)
  {
    hide Pow10, Quotient, Remainder, NatText, PaddedText, Plain, Number;
    var m, p := Abs(d.mantissa), Pow10(d.scale);
    PlainNatText(Quotient(m, p));
    NatTextNumber(Quotient(m, p));
    Parts(m, p);
    PaddedNumber(Remainder(m, p), d.scale);
    PowSmall();
    WholeOnly(m);
  }

  lemma Parts(m: nat, d: nat)
    requires d > 0
    ensures m == Quotient(m, d) * d + Remainder(m, d)
  {
    Division(m, d);
  }

  lemma WholeOnly(m: nat)
    ensures Quotient(m, 1) == m
  {
  }

  lemma {:induction false} PlainNatText(n: nat)
    ensures Plain(NatText(n)) && (n > 0 ==> NatText(n)[0] != '0')
  {
    if n >= 10 {
      PlainNatText(n / 10);
    }
  }

  /** Parsing what is printed returns the same mantissa and scale, for every decimal but those
      with the least mantissa, which no text parses to. */
  lemma ParseAfterPrint(d: Decimal)
    ensures Parse(Display(d)) == Ok(d) <==> d.mantissa != -I64_MAX - 1
  {
    hide Form, Display, Text, Parse, Convert, Pow10;
    PrintsCanonical(d);
    var c := Form(d);
    FormSign(d);
    if d.mantissa != -I64_MAX - 1 {
      ParsesCanonical(c);
    } else {
      ParsesShort(Display(d));
    }
  }

  lemma FormSign(d: Decimal)
    ensures Form(d).negative == (d.mantissa < 0)
  {
  }

  /** No text parses to the least mantissa. */
  lemma {:induction false} ParsesShort(t: string)
    ensures Parse(t).Ok? ==> Parse(t).value.mantissa >= -I64_MAX
  {
    hide Read, Gather, RoundGathered, Place;
    if Read(t).Some? {
      var a := Gather(Read(t).value.marks);
      PlacedShort(Read(t).value.negative, RoundGathered(a), a.fractionDigits - a.skipped - Read(t).value.exponent);
    }
  }

  lemma {:induction false} PlacedShort(negative: bool, magnitude: nat, scale: int)
    ensures Place(negative, magnitude, scale).Ok? ==> Place(negative, magnitude, scale).value.mantissa >= -I64_MAX
  {
  }

  // -- a text on which rounding in stages misses --------------------------------------------

  lemma {:induction false} NumberJoins(a: string, b: string)
    requires AllDigits(a) && AllDigits(b)
    ensures AllDigits(a + b) && Number(a + b) == Number(a) * Pow10(|b|) + Number(b)
  {
    if b == [] {
      assert a + b == a;
    } else {
      var front := b[..|b| - 1];
      NumberJoins(a, front);
      assert (a + b)[..|a + b| - 1] == a + front;
      TenTimes(Number(a), Pow10(|front|));
    }
  }

  lemma FiveNines()
    ensures AllDigits("99999") && Number("99999") == 99_999
    ensures AllDigits("9549") && Number("9549") == 9_549
  {
    hide Number;
    SingleNine();
    NextDigit("9", '9');
    NextDigit("99", '9');
    NextDigit("999", '9');
    NextDigit("9999", '9');
    NextDigit("9", '5');
    NextDigit("95", '4');
    NextDigit("954", '9');
    assert "9" + ['9'] == "99" && "99" + ['9'] == "999" && "999" + ['9'] == "9999" && "9999" + ['9'] == "99999";
    assert "9" + ['5'] == "95" && "95" + ['4'] == "954" && "954" + ['9'] == "9549";
  }

  lemma NextDigit(s: string, ch: char)
    requires AllDigits(s) && IsDigit(ch)
    ensures AllDigits(s + [ch]) && Number(s + [ch]) == 10 * Number(s) + DigitOf(ch)
  {
    assert (s + [ch])[..|s|] == s;
  }

  const MISSED := Canonical(false, "9", "99999" + "99999" + "99999" + "9549")

  lemma MissedDigits()
    ensures WellFormed(MISSED) && Text(MISSED) == "9.9999999999999999549"
    ensures |MISSED.fraction| == 19 && Magnitude(MISSED) == 99_999_999_999_999_999_549
  {
    hide Number, Pow10;
    MissedFraction();
    SingleNine();
    NineteenZeros();
    assert Text(MISSED) == "9.9999999999999999549";
  }

  lemma MissedFraction()
    ensures AllDigits(MISSED.fraction) && |MISSED.fraction| == 19
    ensures Number(MISSED.fraction) == 9_999_999_999_999_999_549
  {
    hide Number, Pow10;
    var a, b := "99999", "9549";
    FiveNines();
    FourAndFive();
    NumberJoins(a, a);
    NumberJoins(a + a, a);
    NumberJoins(a + a + a, b);
  }

  lemma SingleNine()
    ensures Plain("9") && Number("9") == 9
  {
    assert "9"[..0] == [];
    assert Number([]) == 0;
  }

  lemma FourAndFive()
    ensures Pow10(4) == 10_000 && Pow10(5) == 100_000
  {
  }

  lemma NineteenZeros()
    ensures Pow10(19) == 10_000_000_000_000_000_000
  {
    assert Pow10(9) == 1_000_000_000;
  }

  /** 9.9999999999999999549 comes out as 9.99999999999999996, though 9.99999999999999995 is nearer. */
  lemma StagedRoundingMisses()
    ensures Parse("9.9999999999999999549") == Ok(Decimal(999_999_999_999_999_996, 17))
    ensures !HalfEven(99_999_999_999_999_999_549, Pow10(19 - 17), 999_999_999_999_999_996)
    ensures HalfEven(99_999_999_999_999_999_549, Pow10(19 - 17), 999_999_999_999_999_995)
  {
    MissedDigits();
    ReadsCanonical(MISSED);
    var w := Written(false, CanonicalMarks(MISSED), 0);
    var whole := MarksOf("9", false);
    assert [] + whole == whole;
    NoMarks();
    MarksValue([], "9", false);
    MarksValue(whole, MISSED.fraction, true);
    GatheredWhole(w);
    PlacedInStages();
  }

  lemma PlacedInStages()
    ensures Place(false, 99_999_999_999_999_999_549, 19) == Ok(Decimal(999_999_999_999_999_996, 17))
    ensures !HalfEven(99_999_999_999_999_999_549, Pow10(19 - 17), 999_999_999_999_999_996)
    ensures HalfEven(99_999_999_999_999_999_549, Pow10(19 - 17), 999_999_999_999_999_995)
  {
    assert Pow10(1) == 10 && Pow10(2) == 100;
    assert RoundOff(99_999_999_999_999_999_549, 1, false) == 9_999_999_999_999_999_955;
    assert RoundOff(9_999_999_999_999_999_955, 1, false) == 999_999_999_999_999_996;
  }

  // -- a text that is refused though it fits, rounded once ----------------------------------

  const REFUSED := Canonical(false, "92233" + "72036" + "85477" + "5807", "46")

  lemma RefusedDigits()
    ensures WellFormed(REFUSED) && Text(REFUSED) == "9223372036854775807.46"
    ensures |REFUSED.fraction| == 2 && Magnitude(REFUSED) == 922_337_203_685_477_580_746
  {
    hide Number, Pow10;
    RefusedWhole();
    TwoDigits();
    FourAndFive();
    assert Text(REFUSED) == "9223372036854775807.46";
  }

  lemma RefusedWhole()
    ensures Plain(REFUSED.whole) && Number(REFUSED.whole) == 9_223_372_036_854_775_807
  {
    hide Number, Pow10;
    RefusedChunks();
    FourAndFive();
    NumberJoins("92233", "72036");
    NumberJoins("92233" + "72036", "85477");
    NumberJoins("92233" + "72036" + "85477", "5807");
  }

  lemma RefusedChunks()
    ensures AllDigits("92233") && Number("92233") == 92_233 && AllDigits("72036") && Number("72036") == 72_036
    ensures AllDigits("85477") && Number("85477") == 85_477 && AllDigits("5807") && Number("5807") == 5_807
  {
    hide Number;
    FiveDigits('9', '2', '2', '3', '3');
    FiveDigits('7', '2', '0', '3', '6');
    FiveDigits('8', '5', '4', '7', '7');
    OneDigit('5');
    NextDigit("5", '8');
    NextDigit("58", '0');
    NextDigit("580", '7');
    assert "5" + ['8'] == "58" && "58" + ['0'] == "580" && "580" + ['7'] == "5807";
    assert ['9', '2', '2', '3', '3'] == "92233" && ['7', '2', '0', '3', '6'] == "72036" && ['8', '5', '4', '7', '7'] == "85477";
    assert ['5'] == "5";
  }

  lemma OneDigit(a: char)
    requires IsDigit(a)
    ensures AllDigits([a]) && Number([a]) == DigitOf(a)
  {
    assert [a][..0] == [];
    assert Number([]) == 0;
  }

  lemma FiveDigits(a: char, b: char, c: char, d: char, e: char)
    requires IsDigit(a) && IsDigit(b) && IsDigit(c) && IsDigit(d) && IsDigit(e)
    ensures AllDigits([a, b, c, d, e])
    ensures Number([a, b, c, d, e]) ==
            10_000 * DigitOf(a) + 1_000 * DigitOf(b) + 100 * DigitOf(c) + 10 * DigitOf(d) + DigitOf(e)
  {
    hide Number;
    OneDigit(a);
    NextDigit([a], b);
    NextDigit([a] + [b], c);
    NextDigit([a] + [b] + [c], d);
    NextDigit([a] + [b] + [c] + [d], e);
    assert [a] + [b] + [c] + [d] + [e] == [a, b, c, d, e];
  }

  lemma TwoDigits()
    ensures AllDigits("46") && Number("46") == 46 && Pow10(2) == 100
  {
    OneDigit('4');
    NextDigit(['4'], '6');
    assert ['4'] + ['6'] == "46";
    assert Pow10(1) == 10;
  }

  /** 9223372036854775807.46 is refused, though rounded once it is the largest mantissa there is. */
  lemma StagedRoundingRefuses()
    ensures Parse("9223372036854775807.46") == Err(Overflow)
    ensures HalfEven(922_337_203_685_477_580_746, Pow10(2), I64_MAX)
  {
    RefusedDigits();
    ReadsCanonical(REFUSED);
    var w := Written(false, CanonicalMarks(REFUSED), 0);
    var whole := MarksOf(REFUSED.whole, false);
    assert [] + whole == whole;
    NoMarks();
    MarksValue([], REFUSED.whole, false);
    MarksValue(whole, REFUSED.fraction, true);
    GatheredWhole(w);
    RefusedInStages();
  }

  lemma RefusedInStages()
    ensures Place(false, 922_337_203_685_477_580_746, 2) == Err(Overflow)
    ensures HalfEven(922_337_203_685_477_580_746, Pow10(2), I64_MAX)
  {
    assert Pow10(1) == 10 && Pow10(2) == 100;
    assert RoundOff(922_337_203_685_477_580_746, 1, false) == 92_233_720_368_547_758_075;
    assert RoundOff(92_233_720_368_547_758_075, 1, false) == 9_223_372_036_854_775_808;
  }
}
