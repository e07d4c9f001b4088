/** Decimals as text: the parser with its staged rounding, and the printer (src/decimal.rs). */
module DecimalText {
  import opened Basics
  import opened Decimals

  datatype ParseError = Invalid | Overflow

  /** One written digit, and whether it stands after the point. */
  datatype Mark = Mark(digit: nat, fractional: bool)

  /** The digits of a mantissa and where they end in the text. */
  datatype Mantissa = Mantissa(marks: seq<Mark>, end: nat)

  /** A number as written: sign, digits, exponent. */
  datatype Written = Written(negative: bool, marks: seq<Mark>, exponent: int)

  predicate IsDigit(ch: char) { '0' <= ch <= '9' }

  predicate IsSpace(ch: char) { ch == ' ' || ch == '\t' || ch == '\n' || ch == '\r' }

  function DigitOf(ch: char): (r: nat)
    requires IsDigit(ch)
    ensures r <= 9
  {
    ch as int - '0' as int
  }

  function DigitChar(d: nat): (r: char)
    requires d <= 9
    ensures IsDigit(r) && DigitOf(r) == d
  {
    '0' + d as char
  }

  // -- reading ------------------------------------------------------------------------------

  function SkipSpaces(t: string, i: nat): (r: nat)
    requires i <= |t|
    ensures i <= r <= |t|
    decreases |t| - i
  {
    if i < |t| && IsSpace(t[i]) then SkipSpaces(t, i + 1) else i
  }

  /** Digits with at most one point; `None` for a second point. */
  function ReadMantissa(t: string, i: nat, seenPoint: bool): (r: Option<Mantissa>)
    requires i <= |t|
    ensures r.Some? ==> i <= r.value.end <= |t|
    ensures r.Some? ==> forall k :: 0 <= k < |r.value.marks| ==> r.value.marks[k].digit <= 9
    decreases |t| - i
  {
    if i == |t| then Some(Mantissa([], i))
    else if t[i] == '.' then (if seenPoint then None else ReadMantissa(t, i + 1, true))
    else if !IsDigit(t[i]) then Some(Mantissa([], i))
    else
      match ReadMantissa(t, i + 1, seenPoint)
      case None => None
      case Some(m) => Some(Mantissa([Mark(DigitOf(t[i]), seenPoint)] + m.marks, m.end))
  }

  const EXPONENT_LIMIT: nat := 1_000_000

  /** Exponent digits, clamped once past the limit, and where they end. */
  function ReadExponentDigits(t: string, i: nat, e: nat): (r: (nat, nat))
    requires i <= |t|
    ensures i <= r.1 <= |t|
    decreases |t| - i
  {
    if i < |t| && IsDigit(t[i]) then
      ReadExponentDigits(t, i + 1, if e < EXPONENT_LIMIT then e * 10 + DigitOf(t[i]) else e)
    else (e, i)
  }

  /** An optional exponent; `None` when its digits are missing. */
  function ReadExponent(t: string, i: nat): (r: Option<(int, nat)>)
    requires i <= |t|
    ensures r.Some? ==> i <= r.value.1 <= |t|
  {
    if i == |t| || (t[i] != 'e' && t[i] != 'E') then Some((0, i))
    else
      var signed := i + 1 < |t| && (t[i + 1] == '+' || t[i + 1] == '-');
      var j := if signed then i + 2 else i + 1;
      if j == |t| || !IsDigit(t[j]) then None
      else
        var (e, k) := ReadExponentDigits(t, j, 0);
        Some((if signed && t[i + 1] == '-' then -(e as int) else e, k))
  }

  /** The grammar: spaces, sign, digits with a point, exponent, spaces. */
  function Read(t: string): (r: Option<Written>)
  {
    var i := SkipSpaces(t, 0);
    var signed := i < |t| && (t[i] == '+' || t[i] == '-');
    match ReadMantissa(t, if signed then i + 1 else i, false)
    case None => None
    case Some(m) =>
      if m.marks == [] then None
      else
        match ReadExponent(t, m.end)
        case None => None
        case Some((e, k)) =>
          if SkipSpaces(t, k) != |t| then None else Some(Written(signed && t[i] == '-', m.marks, e))
  }

  // -- the value of what was written --------------------------------------------------------

  function Value(marks: seq<Mark>): (r: nat)
  {
    if marks == [] then 0 else 10 * Value(marks[..|marks| - 1]) + marks[|marks| - 1].digit
  }

  function Fractions(marks: seq<Mark>): (r: nat)
  {
    if marks == [] then 0 else Fractions(marks[..|marks| - 1]) + if marks[|marks| - 1].fractional then 1 else 0
  }

  // -- accumulating -------------------------------------------------------------------------

  const ACCUMULATE_LIMIT: int := U128_MAX / 16

  /** The accumulator of the digit loop. */
  datatype Acc = Acc(
    magnitude: nat,
    fractionDigits: nat,
    skipped: nat,
    roundDigit: nat,
    sticky: bool,
    dropped: bool)

  const EMPTY := Acc(0, 0, 0, 0, false, false)

  function Feed(a: Acc, m: Mark): (r: Acc)
  {
    if a.magnitude < ACCUMULATE_LIMIT then
      a.(magnitude := a.magnitude * 10 + m.digit,
         fractionDigits := if m.fractional then a.fractionDigits + 1 else a.fractionDigits)
    else
      a.(skipped := if m.fractional then a.skipped else a.skipped + 1,
         roundDigit := if a.dropped then a.roundDigit else m.digit,
         sticky := a.sticky || (a.dropped && m.digit != 0),
         dropped := true)
  }

  function Gather(marks: seq<Mark>): (r: Acc)
  {
    if marks == [] then EMPTY else Feed(Gather(marks[..|marks| - 1]), marks[|marks| - 1])
  }

  /** The first rounding: the digits that found no room. */
  function RoundGathered(a: Acc): (r: nat)
  {
    if a.dropped && (a.roundDigit > 5 || (a.roundDigit == 5 && (a.sticky || a.magnitude % 2 == 1)))
    then a.magnitude + 1 else a.magnitude
  }

  // -- placing the point --------------------------------------------------------------------

  /** The last rounding: one digit at a time until the mantissa fits. */
  function Shrink(magnitude: nat, scale: nat): (r: Option<(nat, nat)>)
    ensures r.Some? ==> r.value.0 <= I64_MAX && r.value.1 <= scale
    decreases scale
  {
    if magnitude <= I64_MAX then Some((magnitude, scale))
    else if scale == 0 then None
    else Shrink(RoundOff(magnitude, 1, false), scale - 1)
  }

  function Place(negative: bool, magnitude: nat, scale: int): (r: Result<Decimal, ParseError>)
  {
    if magnitude == 0 then Ok(Decimal(0, if scale < 0 || scale > MAX_SCALE then 0 else scale))
    else if scale < 0 then
      if -scale > 38 || magnitude * Pow10(-scale) > U128_MAX then Err(Overflow)
      else Fit(negative, magnitude * Pow10(-scale), 0)
    else if scale > MAX_SCALE then
      Fit(negative, if scale - MAX_SCALE > 39 then 0 else RoundOff(magnitude, scale - MAX_SCALE, false), MAX_SCALE)
    else Fit(negative, magnitude, scale)
  }

  function Fit(negative: bool, magnitude: nat, scale: Scale): (r: Result<Decimal, ParseError>)
  {
    match Shrink(magnitude, scale)
    case None => Err(Overflow)
    case Some((m, s)) =>
      var signed: int := m;
      Ok(Decimal(if negative then -signed else signed, s))
  }

  function Convert(w: Written): (r: Result<Decimal, ParseError>)
  {
    var a := Gather(w.marks);
    Place(w.negative, RoundGathered(a), a.fractionDigits - a.skipped - w.exponent)
  }

  /** `Decimal::from_ascii`. */
  function Parse(t: string): (r: Result<Decimal, ParseError>)
  {
    match Read(t)
    case None => Err(Invalid)
    case Some(w) => Convert(w)
  }

  // -- the parser as it runs ----------------------------------------------------------------

  method FromAscii(t: string) returns (r: Result<Decimal, ParseError>)
    ensures r == Parse(t)
  {
    hide ReadMantissa, ReadExponent, Gather, Place, SkipSpaces;
    var i := PassSpaces(t, 0);
    var signed := i < |t| && (t[i] == '+' || t[i] == '-');
    var negative := signed && t[i] == '-';
    var a, seenDigit, ok, at := AccumulateDigits(t, if signed then i + 1 else i);
    if !ok || !seenDigit {
      return Err(Invalid);
    }
    var magnitude := a.magnitude;
    if a.dropped && (a.roundDigit > 5 || (a.roundDigit == 5 && (a.sticky || magnitude % 2 == 1))) {
      magnitude := magnitude + 1;
    }
    var exponent := PassExponent(t, at);
    if exponent.None? {
      return Err(Invalid);
    }
    var end := PassSpaces(t, exponent.value.1);
    if end != |t| {
      return Err(Invalid);
    }
    r := PlacePoint(negative, magnitude, a.fractionDigits - a.skipped - exponent.value.0);
  }

  /** The loops over white space. */
  method PassSpaces(t: string, from: nat) returns (i: nat)
    requires from <= |t|
    ensures i == SkipSpaces(t, from)
  {
    i := from;
    while i < |t| && IsSpace(t[i])
      invariant from <= i <= |t| && SkipSpaces(t, from) == SkipSpaces(t, i)
    {
      i := i + 1;
    }
  }

  /** The exponent loop. */
  method PassExponent(t: string, from: nat) returns (r: Option<(int, nat)>)
    requires from <= |t|
    ensures r == ReadExponent(t, from)
  {
    var n := |t|;
    var i := from;
    if i == n || (t[i] != 'e' && t[i] != 'E') {
      return Some((0, i));
    }
    i := i + 1;
    var negative := false;
    if i < n && (t[i] == '+' || t[i] == '-') {
      negative := t[i] == '-';
      i := i + 1;
    }
    var start, value: nat := i, 0;
    while i < n && IsDigit(t[i])
      invariant start <= i <= n
      invariant i > start ==> IsDigit(t[start])
      invariant ReadExponentDigits(t, start, 0) == ReadExponentDigits(t, i, value)
    {
      if value < EXPONENT_LIMIT {
        value := value * 10 + DigitOf(t[i]);
      }
      i := i + 1;
    }
    if i == start {
      return None;
    }
    var e: int := value;
    return Some((if negative then -e else e, i));
  }

  /** The digit loop. */
  method AccumulateDigits(t: string, from: nat) returns (a: Acc, seenDigit: bool, ok: bool, i: nat)
    requires from <= |t|
    ensures ok == ReadMantissa(t, from, false).Some?
    ensures ok ==> var m := ReadMantissa(t, from, false).value;
                   i == m.end && a == Gather(m.marks) && seenDigit == (m.marks != [])
  {
    i := from;
    a := EMPTY;
    seenDigit := false;
    var seenPoint := false;
    ghost var marks: seq<Mark> := [];
    PrependNothing(ReadMantissa(t, from, false));
    while i < |t|
      invariant from <= i <= |t|
      invariant a == Gather(marks) && seenDigit == (marks != [])
      invariant ReadMantissa(t, from, false) == Prepend(marks, ReadMantissa(t, i, seenPoint))
      decreases |t| - i
    {
      if t[i] == '.' {
        if seenPoint {
          ok := false;
          return;
        }
        seenPoint := true;
      } else if !IsDigit(t[i]) {
        break;
      } else {
        seenDigit := true;
        ghost var mark := Mark(DigitOf(t[i]), seenPoint);
        assert (marks + [mark])[..|marks|] == marks;
        assert forall rest: seq<Mark> :: marks + ([mark] + rest) == marks + [mark] + rest;
        marks := marks + [mark];
        a := Feed(a, Mark(DigitOf(t[i]), seenPoint));
      }
      i := i + 1;
    }
    ok := true;
    assert marks + [] == marks;
  }

  ghost function Prepend(marks: seq<Mark>, r: Option<Mantissa>): (r': Option<Mantissa>)
  {
    if r.None? then None else Some(Mantissa(marks + r.value.marks, r.value.end))
  }

  lemma PrependNothing(r: Option<Mantissa>)
    ensures Prepend([], r) == r
  {
    assert r.Some? ==> [] + r.value.marks == r.value.marks;
  }

  method PlacePoint(negative: bool, magnitude: nat, scale: int) returns (r: Result<Decimal, ParseError>)
    ensures r == Place(negative, magnitude, scale)
  {
    if magnitude == 0 {
      return Ok(Decimal(0, if scale < 0 || scale > MAX_SCALE then 0 else scale));
    }
    var m: nat := magnitude;
    var s: nat := 0;
    if scale < 0 {
      if -scale > 38 || magnitude * Pow10(-scale) > U128_MAX {
        return Err(Overflow);
      }
      m := magnitude * Pow10(-scale);
    } else if scale > MAX_SCALE {
      m := if scale - MAX_SCALE > 39 then 0 else RoundOff(magnitude, scale - MAX_SCALE, false);
      s := MAX_SCALE;
    } else {
      s := scale;
    }
    ghost var m0, s0 := m, s;
    while m > I64_MAX
      invariant s <= s0 <= MAX_SCALE
      invariant Shrink(m, s) == Shrink(m0, s0)
      decreases s, m > I64_MAX
    {
      if s == 0 {
        return Err(Overflow);
      }
      m := RoundOff(m, 1, false);
      s := s - 1;
    }
    var signed: int := m;
    return Ok(Decimal(if negative then -signed else signed, s));
  }

  // -- how far the answer is from what was written ------------------------------------------

  ghost predicate Digits(marks: seq<Mark>)
  {
    forall k :: 0 <= k < |marks| ==> marks[k].digit <= 9
  }

  /** How many digits found no room. */
  function Dropped(marks: seq<Mark>): (r: nat)
  {
    if marks == [] then 0
    else Dropped(marks[..|marks| - 1]) + if Gather(marks[..|marks| - 1]).magnitude < ACCUMULATE_LIMIT then 0 else 1
  }

  /** The value of the dropped digits behind the first of them. */
  function Tail(marks: seq<Mark>): (r: nat)
  {
    if marks == [] || Dropped(marks[..|marks| - 1]) == 0 then 0
    else 10 * Tail(marks[..|marks| - 1]) + marks[|marks| - 1].digit
  }

  /** The accumulator holds the leading digits, the first dropped one, and whether anything
      followed it. */
  ghost predicate Split(marks: seq<Mark>)
  {
    var a, n := Gather(marks), Dropped(marks);
    && a.magnitude < U128_MAX
    && a.dropped == (n > 0)
    && a.fractionDigits - a.skipped == Fractions(marks) - n
    && (n == 0 ==> Value(marks) == a.magnitude && !a.sticky)
    && (n > 0 ==>
      && a.magnitude >= ACCUMULATE_LIMIT
      && Value(marks) == a.magnitude * Pow10(n) + a.roundDigit * Pow10(n - 1) + Tail(marks)
      && Tail(marks) < Pow10(n - 1)
      && a.roundDigit <= 9
      && a.sticky == (Tail(marks) > 0))
  }

  lemma {:induction false} GatherSplits(marks: seq<Mark>)
    requires Digits(marks)
    ensures Split(marks)
  {
    if marks != [] {
      var before, m := marks[..|marks| - 1], marks[|marks| - 1];
      GatherSplits(before);
      var n, a := Dropped(before), Gather(before);
      assert Gather(marks) == Feed(a, m);
      hide Pow10;
      if n > 0 {
        NextPower(n);
        NextPower(n - 1);
        TenTimes(a.magnitude, Pow10(n));
        TenTimes(a.roundDigit, Pow10(n - 1));
      } else {
        NextPower(0);
        PowSmall();
      }
    }
  }

  /** The first rounding is half to even. */
  lemma FirstRounding(marks: seq<Mark>)
    requires Digits(marks)
    ensures HalfEven(Value(marks), Pow10(Dropped(marks)), RoundGathered(Gather(marks)))
    ensures RoundGathered(Gather(marks)) <= U128_MAX
  {
    hide Pow10, Gather, Dropped, Value, Tail, HalfEven, Fractions;
    GatherSplits(marks);
    var a, n := Gather(marks), Dropped(marks);
    if n > 0 {
      NextPower(n - 1);
      RoundsDropped(a, Value(marks), Pow10(n - 1), Tail(marks));
    } else {
      PowSmall();
      ExactHalfEven(Value(marks));
    }
  }

  lemma ExactHalfEven(n: nat)
    ensures HalfEven(n, 1, n)
  {
  }

  lemma RoundsDropped(a: Acc, n: nat, d: nat, tail: nat)
    requires d > 0 && n == a.magnitude * (10 * d) + a.roundDigit * d + tail
    requires tail < d && a.dropped && a.roundDigit <= 9 && a.sticky == (tail > 0)
    ensures HalfEven(n, 10 * d, RoundGathered(a))
  {
    hide HalfEven;
    var q, t := a.magnitude, a.roundDigit;
    TenTimes(q, d);
    Distribute(q, 1, 10 * d);
    Digit(t, d);
    StickyCases(n, d, q, t, tail, q * d, t * d, RoundGathered(a));
  }

  /** `m` units of size `d` lie within 5/9 of a unit of `n`. */
  ghost predicate Close(n: nat, d: nat, m: nat)
  {
    d > 0 && 9 * (n - m * d) <= 5 * d && 9 * (m * d - n) <= 5 * d
  }

  /** Rounding again, by a power of ten, stays within 5/9: the parts add up as 1/2 + 1/20 + ... */
  lemma CloseAgain(n: nat, d: nat, m: nat, t: nat, q: nat)
    requires Close(n, d, m) && HalfEven(m, t, q) && t >= 10
    ensures Close(n, t * d, q)
  {
    Positive(t, d);
    var g := m - q * t;
    Distribute(g, q * t, d);
    Regroup(q, t, d);
    Regroup(2, g, d);
    assert 0 - t <= 2 * g <= t;
    MulMono(2 * g, t, d);
    MulMono(0 - t, 2 * g, d);
    assert (0 - t) * d == -(t * d);
    MulMono(10, t, d);
    CloseSum(n, d, m * d, g * d, t * d, q * (t * d));
  }

  /** `CloseAgain` with its products named. */
  lemma CloseSum(n: nat, d: nat, md: int, gd: int, td: int, qtd: int)
    requires 9 * (n - md) <= 5 * d && 9 * (md - n) <= 5 * d
    requires md == gd + qtd && 2 * gd <= td && -td <= 2 * gd && 10 * d <= td
    ensures 9 * (n - qtd) <= 5 * td && 9 * (qtd - n) <= 5 * td
  {
  }

  lemma HalfEvenClose(n: nat, d: nat, q: nat)
    requires HalfEven(n, d, q)
    ensures Close(n, d, q)
  {
  }

  /** The last loop drops digits one at a time and stays close. */
  lemma {:induction false} ShrinkClose(n: nat, whole: nat, m: nat, scale: nat)
    requires m <= U128_MAX && scale <= whole && Close(n, Pow10(whole - scale), m)
    ensures match Shrink(m, scale)
            case Some((q, s)) => s <= scale && Close(n, Pow10(whole - s), q)
            case None => n > I64_MAX * Pow10(whole)
  {
    if m <= I64_MAX {
    } else if scale == 0 {
      var d := Pow10(whole);
      Distribute(I64_MAX, 1, d);
      MulMono(I64_MAX + 1, m, d);
    } else {
      var q := RoundOff(m, 1, false);
      ShrinkStep(n, Pow10(whole - scale), m);
      NextPower(whole - scale);
      ShrinkClose(n, whole, q, scale - 1);
    }
  }

  lemma ShrinkStep(n: nat, d: nat, m: nat)
    requires m <= U128_MAX && Close(n, d, m)
    ensures Close(n, 10 * d, RoundOff(m, 1, false)) && RoundOff(m, 1, false) <= U128_MAX
  {
    hide RoundOff, Close;
    RoundOffHalfEven(m, 1);
    NextPower(0);
    PowSmall();
    CloseAgain(n, d, m, 10, RoundOff(m, 1, false));
    RoundOffSmaller(m, 1);
  }

  /** The number as written is `Value × 10^-WrittenScale`. */
  function WrittenScale(w: Written): (r: int)
  {
    Fractions(w.marks) - w.exponent
  }

  /** What the parser owes a written number. A number is refused only when it is larger than every
      decimal; one that is accepted is exact when it has no fraction, and within 5/9 of a unit in
      the last place of the answer when it has. */
  ghost predicate Answers(w: Written, r: Result<Decimal, ParseError>)
  {
    var n, s := Value(w.marks), WrittenScale(w);
    match r
    case Err(e) => e == Overflow && (if s < 0 then n * Pow10(-s) > I64_MAX else n > I64_MAX * Pow10(s))
    case Ok(d) =>
      && (if w.negative then d.mantissa <= 0 else d.mantissa >= 0)
      && (s < 0 ==> d.scale == 0 && Abs(d.mantissa) == n * Pow10(-s))
      && (s >= 0 ==> d.scale <= s && Close(n, Pow10(s - d.scale), Abs(d.mantissa)))
  }

  lemma ConvertAnswers(w: Written)
    requires Digits(w.marks)
    ensures Answers(w, Convert(w))
  {
    hide Pow10, RoundOff, HalfEven, Shrink, Gather, Dropped, Value, Fractions, Tail;
    GatherSplits(w.marks);
    FirstRounding(w.marks);
    var k := Dropped(w.marks);
    var m := RoundGathered(Gather(w.marks));
    HalfEvenClose(Value(w.marks), Pow10(k), m);
    if m == 0 {
      ZeroAnswers(w);
    } else if WrittenScale(w) - k < 0 {
      LargeAnswers(w);
    } else {
      SmallAnswers(w, m, k);
    }
  }

  lemma ZeroAnswers(w: Written)
    requires Digits(w.marks) && RoundGathered(Gather(w.marks)) == 0
    ensures Answers(w, Convert(w))
  {
    hide Pow10, Gather, Value, Dropped, Fractions, Tail;
    GatherSplits(w.marks);
  }

  lemma LargeAnswers(w: Written)
    requires Digits(w.marks) && RoundGathered(Gather(w.marks)) > 0
    requires WrittenScale(w) < Dropped(w.marks)
    ensures Answers(w, Convert(w))
  {
    hide Pow10, Gather, Value, Dropped, Fractions, Tail;
    GatherSplits(w.marks);
    var k, s, n := Dropped(w.marks), WrittenScale(w), Value(w.marks);
    var m := RoundGathered(Gather(w.marks));
    var up := k - s;
    MulMono(1, m, Pow10(up));
    assert m * Pow10(up) >= Pow10(up);
    ThirtyNine(up);
    if k > 0 {
      MulMono(1, Pow10(up), m);
      Overwhelming(n, Gather(w.marks).magnitude, k, s);
    }
  }

  lemma ThirtyNine(up: nat)
    ensures up > 38 ==> Pow10(up) > I64_MAX
  {
    if up > 38 {
      Pow10Values();
      Pow10Grows(38, up);
    }
  }

  /** A number with more digits than the accumulator holds, all of them before the point. */
  lemma Overwhelming(n: nat, m: nat, k: nat, s: int)
    requires m >= ACCUMULATE_LIMIT && m * Pow10(k) <= n && s < k
    ensures if s < 0 then n * Pow10(-s) > I64_MAX else n > I64_MAX * Pow10(s)
  {
    hide Pow10;
    MulMono(ACCUMULATE_LIMIT, m, Pow10(k));
    MulMono(1, Pow10(k), ACCUMULATE_LIMIT);
    if s < 0 {
      MulMono(1, Pow10(-s), n);
    } else {
      Pow10Grows(s, k);
      MulMono(Pow10(s), Pow10(k), ACCUMULATE_LIMIT);
      MulMono(I64_MAX + 1, ACCUMULATE_LIMIT, Pow10(s));
    }
  }

  lemma SmallAnswers(w: Written, m: nat, k: nat)
    requires k == Dropped(w.marks) && m == RoundGathered(Gather(w.marks)) && 0 < m <= U128_MAX
    requires WrittenScale(w) - k == Gather(w.marks).fractionDigits - Gather(w.marks).skipped - w.exponent >= 0
    requires Close(Value(w.marks), Pow10(k), m)
    ensures Answers(w, Convert(w))
  {
    hide Pow10, RoundOff, HalfEven, Shrink, Gather, Dropped, Value, Fractions, Close;
    var n, s := Value(w.marks), WrittenScale(w);
    var scale := s - k;
    if scale > MAX_SCALE {
      var drop := scale - MAX_SCALE;
      var q := RoundOff(m, drop, false);
      RoundOffHalfEven(m, drop);
      RoundOffSmaller(m, drop);
      AtLeastTen(drop);
      CloseAgain(n, Pow10(k), m, Pow10(drop), q);
      Pow10Add(drop, k);
      RoundOffFar(m, drop);
      ShrinkClose(n, s, q, MAX_SCALE);
    } else {
      ShrinkClose(n, s, m, scale);
    }
  }

  lemma RoundOffFar(m: nat, digits: nat)
    ensures digits > 39 ==> RoundOff(m, digits, false) == 0
  {
  }

  /** A number whose digits fit the mantissa, at a scale a decimal can have, is kept as written. */
  lemma FittingIsExact(w: Written)
    requires Digits(w.marks) && Value(w.marks) <= I64_MAX
    requires 0 <= WrittenScale(w) <= MAX_SCALE
    ensures var n: int := Value(w.marks);
            Convert(w) == Ok(Decimal(if w.negative then -n else n, WrittenScale(w)))
  {
    hide Pow10, Gather, Value, Dropped, Fractions, Convert;
    GatheredWhole(w);
  }

  /** At most one of the three roundings has digits to drop. */
  predicate OneStage(w: Written)
  {
    var n, s := Value(w.marks), WrittenScale(w);
    && n < ACCUMULATE_LIMIT
    && if s <= MAX_SCALE then n <= 10 * I64_MAX + 4 else n <= I64_MAX * Pow10(s - MAX_SCALE)
  }

  /** Then what is accepted is the written number rounded half to even. */
  lemma OneStageIsHalfEven(w: Written)
    requires Digits(w.marks) && OneStage(w) && WrittenScale(w) >= 0
    ensures var r := Convert(w);
            r.Ok? ==>
              && r.value.scale <= WrittenScale(w)
              && HalfEven(Value(w.marks), Pow10(WrittenScale(w) - r.value.scale), Abs(r.value.mantissa))
  {
    hide Pow10, RoundOff, Gather, Value, Dropped, Fractions, Tail, HalfEven;
    GatherSplits(w.marks);
    var n, s, k := Value(w.marks), WrittenScale(w), Dropped(w.marks);
    if k > 0 {
      MulMono(1, Pow10(k), Gather(w.marks).magnitude);
      assert false;
    }
    PowSmall();
    NextPower(0);
    ExactHalfEven(n);
    ZeroHalfEven(Pow10(s));
    if s > MAX_SCALE {
      RoundOffHalfEven(n, s - MAX_SCALE);
      RoundOffFar(n, s - MAX_SCALE);
      RoundedFits(n, Pow10(s - MAX_SCALE), RoundOff(n, s - MAX_SCALE, false));
    } else {
      var q := RoundOff(n, 1, false);
      RoundOffHalfEven(n, 1);
      RoundOffOne(n, false);
      assert n > I64_MAX ==> Shrink(n, s) == if s == 0 then None else Some((q, s - 1));
    }
  }

  lemma ZeroHalfEven(d: nat)
    requires d > 0
    ensures HalfEven(0, d, 0)
  {
  }

  lemma RoundedFits(n: nat, d: nat, q: nat)
    requires HalfEven(n, d, q) && n <= I64_MAX * d
    ensures q <= I64_MAX
  {
    if q > I64_MAX {
      MulMono(I64_MAX + 1, q, d);
      Distribute(I64_MAX, 1, d);
    }
  }

  /** Digits the accumulator has room for are all gathered. */
  lemma GatheredWhole(w: Written)
    requires Digits(w.marks) && Value(w.marks) < ACCUMULATE_LIMIT
    ensures Dropped(w.marks) == 0 && RoundGathered(Gather(w.marks)) == Value(w.marks)
    ensures Convert(w) == Place(w.negative, Value(w.marks), WrittenScale(w))
  {
    hide Pow10, Gather, Value, Dropped, Fractions, Tail, Place;
    GatherSplits(w.marks);
    var k := Dropped(w.marks);
    if k > 0 {
      MulMono(1, Pow10(k), Gather(w.marks).magnitude);
      assert false;
    }
  }

  // -- the exponent -------------------------------------------------------------------------

  /** The exponent digits without the clamp. */
  function DigitsValue(t: string, i: nat, e: nat): (r: nat)
    requires i <= |t|
    decreases |t| - i
  {
    if i < |t| && IsDigit(t[i]) then DigitsValue(t, i + 1, e * 10 + DigitOf(t[i])) else e
  }

  /** The clamp changes nothing below a million, and never brings a number back below it. */
  lemma {:induction false} ClampOnlyBeyond(t: string, i: nat, e: nat, c: nat)
    requires i <= |t|
    requires c == e || (c >= EXPONENT_LIMIT && e >= EXPONENT_LIMIT)
    ensures var r := ReadExponentDigits(t, i, c).0;
            var whole := DigitsValue(t, i, e);
            (r < EXPONENT_LIMIT || whole < EXPONENT_LIMIT) ==> r == whole
    decreases |t| - i
  {
    if i < |t| && IsDigit(t[i]) {
      ClampOnlyBeyond(t, i + 1, e * 10 + DigitOf(t[i]), if c < EXPONENT_LIMIT then c * 10 + DigitOf(t[i]) else c);
    }
  }

  /** Every accepted text is answered within the bound, every text outside the grammar is refused as
      not a number, and nothing else is. */
  lemma ParseWithinBound(t: string)
    ensures Read(t) == None <==> Parse(t) == Err(Invalid)
    ensures Read(t).Some? ==> Answers(Read(t).value, Parse(t))
  {
    if Read(t).Some? {
      hide Gather, Place, ReadExponent;
      ConvertAnswers(Read(t).value);
    }
  }
}
