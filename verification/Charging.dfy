/** Charging profiles and the limit they impose at one instant (src/station/smart_charging.rs).
    Instants are whole seconds. */
module Charging {
  import opened Basics
  import opened Decimals

  datatype RateUnit = W | A

  datatype Purpose =
    | ChargingStationMaxProfile
    | TxDefaultProfile
    | TxProfile
    | ChargingStationExternalConstraints
    | PriorityCharging
    | LocalGeneration

  datatype ProfileKind = Absolute | Recurring | Relative

  datatype Recurrency = Daily | Weekly

  function Seconds(r: Recurrency): (s: nat)
    ensures s > 1
  {
    match r
    case Daily => 86_400
    case Weekly => 604_800
  }

  type I32 = x: int | -0x8000_0000 <= x <= 0x7FFF_FFFF

  datatype Period = Period(start: int, limit: Decimal, phases: Option<I32>)

  datatype Schedule = Schedule(start: Option<int>, duration: Option<int>, unit: RateUnit, periods: seq<Period>)

  datatype Profile = Profile(
    stackLevel: I32,
    purpose: Purpose,
    kind: ProfileKind,
    recurrency: Option<Recurrency>,
    validFrom: Option<int>,
    validTo: Option<int>,
    transaction: Option<string>,
    evse: nat,
    schedules: seq<Schedule>)

  datatype Supply = Supply(voltage: Decimal, phases: I32)

  const CONVERSION_SCALE: nat := 3

  // -- one profile --------------------------------------------------------------------------

  /** The last listed step that has begun. */
  function LastBegun(periods: seq<Period>, offset: int): (r: Option<Period>)
  {
    if periods == [] then None
    else if periods[|periods| - 1].start <= offset then Some(periods[|periods| - 1])
    else LastBegun(periods[..|periods| - 1], offset)
  }

  function PeriodAt(s: Schedule, offset: int): (r: Option<Period>)
  {
    if offset < 0 || (s.duration.Some? && offset >= s.duration.value) then None else LastBegun(s.periods, offset)
  }

  predicate ValidAt(p: Profile, at: int)
  {
    (p.validFrom.Some? ==> p.validFrom.value <= at) && (p.validTo.Some? ==> at < p.validTo.value)
  }

  /** Where the schedule starts: its own start, or the transaction's. */
  function Anchor(p: Profile, tx: Option<int>): (r: Option<int>)
  {
    if p.schedules == [] then None
    else if p.kind == Relative then tx
    else if p.kind == Recurring && p.recurrency.None? then None
    else p.schedules[0].start
  }

  function OffsetAt(p: Profile, at: int, tx: Option<int>): (r: Option<int>)
  {
    match Anchor(p, tx)
    case None => None
    case Some(start) =>
      if at < start then None
      else if p.kind == Recurring then Some((at - start) % Seconds(p.recurrency.value))
      else Some(at - start)
  }

  datatype Limit = Limit(value: Decimal, unit: RateUnit, phases: Option<I32>)

  /** What the profile says about one instant. */
  function ProfileLimitAt(p: Profile, at: int, tx: Option<int>): (r: Option<Limit>)
  {
    if !ValidAt(p, at) then None
    else
      match OffsetAt(p, at, tx)
      case None => None
      case Some(offset) =>
        match PeriodAt(p.schedules[0], offset)
        case None => None
        case Some(period) => Some(Limit(period.limit, p.schedules[0].unit, period.phases))
  }

  // -- units --------------------------------------------------------------------------------

  /** The phase count a conversion works with. */
  function PhasesUsed(s: Supply, phases: Option<I32>): (r: I32)
    ensures r >= 1
  {
    var n := if phases.Some? then phases.value else s.phases;
    if n < 1 then 1 else n
  }

  function ConvertLimit(s: Supply, limit: Decimal, from: RateUnit, to: RateUnit, phases: Option<I32>): (r: Option<Decimal>)
  {
    if from == to then Some(limit)
    else
      match CheckedMul(s.voltage, Decimal(PhasesUsed(s, phases), 0))
      case None => None
      case Some(factor) =>
        if from == A then CheckedMul(limit, factor) else CheckedDiv(limit, factor, CONVERSION_SCALE)
  }

  /** Amperes become watts exactly while the scales fit, and past that by the exact product, rounded half
      to even; watts become amperes by the exact quotient, rounded half to even to a milliampere. */
  lemma ConversionIsExact(s: Supply, limit: Decimal, phases: Option<I32>)
    ensures var w := ConvertLimit(s, limit, A, W, phases);
            w.Some? && limit.scale + s.voltage.scale <= MAX_SCALE ==>
              && w.value.scale == limit.scale + s.voltage.scale
              && w.value.mantissa == limit.mantissa * (s.voltage.mantissa * PhasesUsed(s, phases))
    ensures var w := ConvertLimit(s, limit, A, W, phases);
            w.Some? ==>
              var scale: nat := limit.scale + s.voltage.scale;
              && w.value.scale == Smaller(scale, MAX_SCALE)
              && Rounds(limit.mantissa * (s.voltage.mantissa * PhasesUsed(s, phases)) * Pow10(Smaller(scale, MAX_SCALE)),
                        Pow10(scale), w.value.mantissa)
    ensures var a := ConvertLimit(s, limit, W, A, phases);
            a.Some? ==>
              var v := s.voltage.mantissa * PhasesUsed(s, phases);
              && a.value.scale == CONVERSION_SCALE
              && Rounds(limit.mantissa * Sign(v) * Pow10(CONVERSION_SCALE + s.voltage.scale), Scaled(Abs(v), limit.scale),
                        a.value.mantissa)
  {
    hide CheckedMul, CheckedDiv, Rounds, Pow10, Scaled;
    var n := Decimal(PhasesUsed(s, phases), 0);
    MulIsHalfEven(s.voltage, n);
    var factor := CheckedMul(s.voltage, n);
    if factor.Some? {
      MulIsHalfEven(limit, factor.value);
      DivIsHalfEven(limit, factor.value, CONVERSION_SCALE);
    }
  }

  /** Past eighteen places amperes become watts exactly if and only if the digits past them are zeros. */
  lemma WattsExactIff(s: Supply, limit: Decimal, phases: Option<I32>)
    requires limit.scale + s.voltage.scale > MAX_SCALE && ConvertLimit(s, limit, A, W, phases).Some?
    ensures var k := limit.scale + s.voltage.scale - MAX_SCALE;
            var p := limit.mantissa * (s.voltage.mantissa * PhasesUsed(s, phases));
            ConvertLimit(s, limit, A, W, phases).value.mantissa * Pow10(k) == p <==> p % Pow10(k) == 0
  {
    hide CheckedDiv, Pow10, RoundOff, Rounds;
    var n := Decimal(PhasesUsed(s, phases), 0);
    MulIsHalfEven(s.voltage, n);
    var k := limit.scale + s.voltage.scale - MAX_SCALE;
    var p := limit.mantissa * CheckedMul(s.voltage, n).value.mantissa;
    DroppedZerosIff(p, k);
  }

  lemma DroppedZerosIff(p: int, k: nat)
    requires 0 < k <= MAX_SCALE
    ensures var q: int := RoundOff(Abs(p), k, false);
            (if p < 0 then -q else q) * Pow10(k) == p <==> p % Pow10(k) == 0
  {
    hide Pow10, RoundOff;
    var d, q: int := Pow10(k), RoundOff(Abs(p), k, false);
    var r := if p < 0 then -q else q;
    Multiple(r, d);
    if p % d == 0 {
      ExactQuotient(p, d);
      DroppedZeros(Abs(p), p / d, k);
      AbsProduct(p / d, d);
    }
  }

  lemma DroppedZeros(a: nat, x: int, k: nat)
    requires 0 < k <= MAX_SCALE && a == Abs(x * Pow10(k))
    ensures RoundOff(a, k, false) == Abs(x)
  {
    hide Pow10;
    var d := Pow10(k);
    AbsProduct(x, d);
    AtLeastTen(k);
    Multiple(Abs(x), d);
    Division(a, d);
    ScaleOrder(a / d, Abs(x), d);
    ScaleOrder(Abs(x), a / d, d);
  }

  /** One attoampere at 230.5 volts is half an attowatt past 230, which is what comes out. */
  lemma WattsCanRound()
    ensures ConvertLimit(Supply(Decimal(2305, 1), 1), Decimal(1, 18), A, W, None) == Some(Decimal(230, 18))
  {
    RoundOffOne(2305, false);
  }

  /** Volts times phases, which every conversion works with. */
  function Factor(s: Supply, phases: Option<I32>): (r: int)
  {
    s.voltage.mantissa * PhasesUsed(s, phases)
  }

  /** A conversion to watts is refused exactly when the factor, or the product with it, does not fit. */
  lemma WattsRefusedIff(s: Supply, limit: Decimal, phases: Option<I32>)
    ensures var v, scale: nat := Factor(s, phases), limit.scale + s.voltage.scale;
            ConvertLimit(s, limit, A, W, phases) == None <==>
            || !IsI64(v)
            || (if scale <= MAX_SCALE then !IsI64(limit.mantissa * v)
                else PastRange(Abs(limit.mantissa * v), Pow10(scale - MAX_SCALE)))
  {
    hide CheckedMul, PastRange, Pow10, Rounds;
    var n := Decimal(PhasesUsed(s, phases), 0);
    MulRefusedIff(s.voltage, n);
    MulIsHalfEven(s.voltage, n);
    var factor := CheckedMul(s.voltage, n);
    if factor.Some? {
      MulRefusedIff(limit, factor.value);
    }
  }

  /** A conversion to amperes is refused exactly when the factor does not fit or the voltage is zero, when
      the limit at the width the division needs does not fit a `u128`, or when the answer does not fit. */
  lemma AmperesRefusedIff(s: Supply, limit: Decimal, phases: Option<I32>)
    ensures var v, shift := Factor(s, phases), CONVERSION_SCALE + s.voltage.scale - limit.scale + 1;
            ConvertLimit(s, limit, W, A, phases) == None <==>
            || !IsI64(v) || s.voltage.mantissa == 0
            || (shift >= 0 && Scaled(Abs(limit.mantissa), shift) > U128_MAX)
            || PastRange(Scaled(Abs(limit.mantissa), CONVERSION_SCALE + s.voltage.scale), Scaled(Abs(v), limit.scale))
  {
    hide CheckedMul, CheckedDiv, PastRange, Pow10, Rounds, Scaled;
    var n := Decimal(PhasesUsed(s, phases), 0);
    MulRefusedIff(s.voltage, n);
    MulIsHalfEven(s.voltage, n);
    var factor := CheckedMul(s.voltage, n);
    if factor.Some? {
      DivRefusedIff(limit, factor.value, CONVERSION_SCALE);
      ZeroFactor(s.voltage.mantissa, n.mantissa);
      NeverTooWide(factor.value.mantissa, -Shift(limit, factor.value, CONVERSION_SCALE));
    }
  }

  lemma ZeroFactor(x: int, n: int)
    requires n >= 1
    ensures x * n == 0 <==> x == 0
  {
  }

  /** A divisor moved by at most fourteen places still fits. */
  lemma NeverTooWide(x: I64, shift: int)
    ensures 0 <= shift <= 14 ==> Scaled(Abs(x), shift) <= U128_MAX
  {
    if 0 <= shift <= 14 {
      hide Pow10;
      Pow10Grows(shift, 18);
      Pow10Values();
      Product(Abs(x), Pow10(shift), I64_MAX + 1, Pow10(18));
    }
  }

  /** A phase count of zero, or less, is no reason to refuse: it counts as one. */
  lemma ZeroPhasesAreOne(s: Supply, limit: Decimal, from: RateUnit, to: RateUnit, phases: I32)
    requires phases <= 1
    ensures ConvertLimit(s, limit, from, to, Some(phases)) == ConvertLimit(s, limit, from, to, Some(1))
    ensures ConvertLimit(s.(phases := phases), limit, from, to, None) == ConvertLimit(s, limit, from, to, Some(1))
  {
    hide CheckedMul, CheckedDiv;
  }

  // -- stacking -----------------------------------------------------------------------------

  /** What a request fixes: the profiles that apply, the supply, the unit, the transaction. */
  datatype Request = Request(profiles: seq<Profile>, supply: Supply, unit: RateUnit, tx: Option<int>)

  /** An effective limit in the unit asked for. */
  datatype Effective = Effective(limit: Decimal, phases: Option<I32>)

  /** The profile speaks for this purpose at this instant. */
  predicate Speaks(q: Request, purpose: Purpose, at: int, i: nat)
    requires i < |q.profiles|
  {
    q.profiles[i].purpose == purpose && ProfileLimitAt(q.profiles[i], at, q.tx).Some?
  }

  /** Among the first `n` profiles, the one with the highest stack level; the later one on a tie. */
  function LeadingUpTo(q: Request, purpose: Purpose, at: int, n: nat): (r: Option<nat>)
    requires n <= |q.profiles|
    ensures r.Some? ==> r.value < n && Speaks(q, purpose, at, r.value)
  {
    if n == 0 then None
    else
      var before := LeadingUpTo(q, purpose, at, n - 1);
      if !Speaks(q, purpose, at, n - 1) then before
      else if before.None? || q.profiles[before.value].stackLevel <= q.profiles[n - 1].stackLevel then Some(n - 1)
      else before
  }

  function LeadingProfile(q: Request, purpose: Purpose, at: int): (r: Option<nat>)
    ensures r.Some? ==> r.value < |q.profiles| && Speaks(q, purpose, at, r.value)
  {
    LeadingUpTo(q, purpose, at, |q.profiles|)
  }

  /** The leading limit of a purpose, in the unit asked for. */
  function Leading(q: Request, purpose: Purpose, at: int): (r: Option<Effective>)
  {
    match LeadingProfile(q, purpose, at)
    case None => None
    case Some(i) =>
      var l := ProfileLimitAt(q.profiles[i], at, q.tx).value;
      match ConvertLimit(q.supply, l.value, l.unit, q.unit, l.phases)
      case None => None
      case Some(limit) => Some(Effective(limit, l.phases))
  }

  function OrElse(a: Option<Effective>, b: Option<Effective>): (r: Option<Effective>)
  {
    if a.Some? then a else b
  }

  /** The lower of the two, the first on a tie. */
  function Lower(a: Option<Effective>, b: Option<Effective>): (r: Option<Effective>)
  {
    if b.None? then a
    else if a.Some? && Compare(a.value.limit, b.value.limit) != Greater then a
    else b
  }

  function AddedOnTop(a: Option<Effective>, generation: Option<Effective>): (r: Option<Effective>)
  {
    if generation.None? then a
    else if a.None? then generation
    else
      match CheckedAdd(a.value.limit, generation.value.limit)
      case None => a
      case Some(sum) => Some(Effective(sum, a.value.phases))
  }

  function Session(q: Request, at: int): (r: Option<Effective>)
  {
    OrElse(Leading(q, PriorityCharging, at), OrElse(Leading(q, TxProfile, at), Leading(q, TxDefaultProfile, at)))
  }

  function Constrained(q: Request, at: int): (r: Option<Effective>)
  {
    Lower(Lower(Session(q, at), Leading(q, ChargingStationMaxProfile, at)),
          Leading(q, ChargingStationExternalConstraints, at))
  }

  /** The stacking rule: the limit in force at one instant. */
  function LimitAt(q: Request, at: int): (r: Option<Effective>)
  {
    AddedOnTop(Constrained(q, at), Leading(q, LocalGeneration, at))
  }

  /** The leading profile speaks, nobody who speaks stands higher, and on a tie the later leads. */
  lemma LeadingIsHighest(q: Request, purpose: Purpose, at: int)
    ensures LeadingProfile(q, purpose, at) == None <==> forall i :: 0 <= i < |q.profiles| ==> !Speaks(q, purpose, at, i)
    ensures forall i, j ::
              LeadingProfile(q, purpose, at) == Some(i) && 0 <= j < |q.profiles| && Speaks(q, purpose, at, j) ==>
                && q.profiles[j].stackLevel <= q.profiles[i].stackLevel
                && (q.profiles[j].stackLevel == q.profiles[i].stackLevel ==> j <= i)
  {
    LeadingIsHighestUpTo(q, purpose, at, |q.profiles|);
  }

  lemma {:induction false} LeadingIsHighestUpTo(q: Request, purpose: Purpose, at: int, n: nat)
    requires n <= |q.profiles|
    ensures LeadingUpTo(q, purpose, at, n) == None <==> forall i :: 0 <= i < n ==> !Speaks(q, purpose, at, i)
    ensures forall i, j ::
              LeadingUpTo(q, purpose, at, n) == Some(i) && 0 <= j < n && Speaks(q, purpose, at, j) ==>
                && q.profiles[j].stackLevel <= q.profiles[i].stackLevel
                && (q.profiles[j].stackLevel == q.profiles[i].stackLevel ==> j <= i)
  {
    hide Speaks;
    if n > 0 {
      LeadingIsHighestUpTo(q, purpose, at, n - 1);
    }
  }

  /** The limits that compete at an instant: the session's, the station's and the outside one. */
  ghost predicate Competes(q: Request, at: int, e: Effective)
  {
    || Session(q, at) == Some(e)
    || Leading(q, ChargingStationMaxProfile, at) == Some(e)
    || Leading(q, ChargingStationExternalConstraints, at) == Some(e)
  }

  /** The constrained limit is one of the competing limits and exceeds none of them; it is absent
      only when none competes. The capacity generated on site comes on top, exactly. */
  lemma EffectiveIsLowest(q: Request, at: int)
    ensures Constrained(q, at) == None <==> forall e :: !Competes(q, at, e)
    ensures Constrained(q, at).Some? ==> Competes(q, at, Constrained(q, at).value)
    ensures forall e :: Competes(q, at, e) ==> Units(Constrained(q, at).value.limit) <= Units(e.limit)
    ensures LimitAt(q, at) == None <==> Constrained(q, at) == None && Leading(q, LocalGeneration, at) == None
    ensures Constrained(q, at).Some? && Leading(q, LocalGeneration, at) == None ==> LimitAt(q, at) == Constrained(q, at)
    ensures Constrained(q, at).Some? && Leading(q, LocalGeneration, at).Some? ==>
              var c, g := Constrained(q, at).value, Leading(q, LocalGeneration, at).value;
              && LimitAt(q, at).value.phases == c.phases
              && Units(LimitAt(q, at).value.limit) ==
                 Units(c.limit) + if CheckedAdd(c.limit, g.limit).Some? then Units(g.limit) else 0
  {
    hide Leading, Session, Units, Compare, CheckedAdd;
    var s, m, x := Session(q, at), Leading(q, ChargingStationMaxProfile, at),
                   Leading(q, ChargingStationExternalConstraints, at);
    LowerIsLowest(s, m);
    LowerIsLowest(Lower(s, m), x);
    if s.Some? { assert Competes(q, at, s.value); }
    if m.Some? { assert Competes(q, at, m.value); }
    if x.Some? { assert Competes(q, at, x.value); }
    var g := Leading(q, LocalGeneration, at);
    if Constrained(q, at).Some? && g.Some? {
      SumsAreExact(Constrained(q, at).value.limit, g.value.limit);
    }
  }

  lemma LowerIsLowest(a: Option<Effective>, b: Option<Effective>)
    ensures Lower(a, b) == a || Lower(a, b) == b
    ensures Lower(a, b) == None <==> a == None && b == None
    ensures a.Some? ==> Units(Lower(a, b).value.limit) <= Units(a.value.limit)
    ensures b.Some? ==> Units(Lower(a, b).value.limit) <= Units(b.value.limit)
  {
    hide Units, Compare;
    if a.Some? && b.Some? {
      CompareIsNumeric(a.value.limit, b.value.limit);
    }
  }

  // -- when nothing changes -----------------------------------------------------------------

  /** If every profile says the same at two instants, so does the rule. */
  lemma SameWordsSameLimit(q: Request, t: int, u: int)
    requires forall i :: 0 <= i < |q.profiles| ==> ProfileLimitAt(q.profiles[i], t, q.tx) == ProfileLimitAt(q.profiles[i], u, q.tx)
    ensures LimitAt(q, t) == LimitAt(q, u)
  {
    hide ProfileLimitAt, AddedOnTop, Lower, ConvertLimit;
    forall purpose
      ensures Leading(q, purpose, t) == Leading(q, purpose, u)
    {
      SameLeader(q, purpose, t, u, |q.profiles|);
    }
  }

  lemma {:induction false} SameLeader(q: Request, purpose: Purpose, t: int, u: int, n: nat)
    requires n <= |q.profiles|
    requires forall i :: 0 <= i < |q.profiles| ==> ProfileLimitAt(q.profiles[i], t, q.tx) == ProfileLimitAt(q.profiles[i], u, q.tx)
    ensures LeadingUpTo(q, purpose, t, n) == LeadingUpTo(q, purpose, u, n)
  {
    hide ProfileLimitAt;
    if n > 0 {
      SameLeader(q, purpose, t, u, n - 1);
    }
  }
}
