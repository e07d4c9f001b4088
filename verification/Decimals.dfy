/** Exact base-ten numbers: `mantissa × 10^-scale` (src/decimal.rs). */
module Decimals {
  import opened Basics

  const I64_MAX: int := 0x7FFF_FFFF_FFFF_FFFF

  const U128_MAX: int := 0xFFFF_FFFF_FFFF_FFFF_FFFF_FFFF_FFFF_FFFF

  const I128_MAX: int := 0x7FFF_FFFF_FFFF_FFFF_FFFF_FFFF_FFFF_FFFF

  const MAX_SCALE: nat := 18

  type I64 = x: int | -I64_MAX - 1 <= x <= I64_MAX

  type Scale = n: int | 0 <= n <= MAX_SCALE

  datatype Decimal = Decimal(mantissa: I64, scale: Scale)

  const ZERO := Decimal(0, 0)

  datatype Ordering = Less | Equal | Greater

  // -- powers of ten ------------------------------------------------------------------------

  function Pow10(n: nat): (r: nat)
    ensures r > 0
  {
    if n == 0 then 1 else 10 * Pow10(n - 1)
  }

  lemma {:induction false} Pow10Add(a: nat, b: nat)
    ensures Pow10(a + b) == Pow10(a) * Pow10(b)
  {
    if a > 0 {
      Pow10Add(a - 1, b);
    }
  }

  lemma {:induction false} Pow10Grows(a: nat, b: nat)
    requires a <= b
    ensures Pow10(a) <= Pow10(b)
  {
    if a < b {
      Pow10Grows(a, b - 1);
    }
  }

  lemma Pow10Values()
    ensures Pow10(18) == 1_000_000_000_000_000_000
    ensures Pow10(38) == 100_000_000_000_000_000_000_000_000_000_000_000_000
    ensures Pow10(39) == 1_000_000_000_000_000_000_000_000_000_000_000_000_000
  {
    assert Pow10(9) == 1_000_000_000;
    assert Pow10(18) == 1_000_000_000_000_000_000;
    assert Pow10(27) == 1_000_000_000_000_000_000_000_000_000;
    assert Pow10(36) == 1_000_000_000_000_000_000_000_000_000_000_000_000;
  }

  /** The loop of `pow10_i128`. */
  method PowerOfTen(exp: nat) returns (r: nat)
    ensures r == Pow10(exp)
  {
    r := 1;
    var left: nat := exp;
    while left > 0
      invariant r * Pow10(left) == Pow10(exp)
    {
      assert r * Pow10(left) == (r * 10) * Pow10(left - 1);
      r := r * 10;
      left := left - 1;
    }
  }

  // -- rounding half to even ----------------------------------------------------------------

  /** `q` is `n / d` rounded half to even. */
  ghost predicate HalfEven(n: nat, d: nat, q: nat)
  {
    && d > 0
    && 2 * n <= 2 * (q * d) + d
    && 2 * (q * d) <= 2 * n + d
    && (2 * n == 2 * (q * d) + d || 2 * (q * d) == 2 * n + d ==> q % 2 == 0)
  }

  /** The rule names one number. */
  lemma HalfEvenUnique(n: nat, d: nat, p: nat, q: nat)
    requires HalfEven(n, d, p) && HalfEven(n, d, q)
    ensures p == q
  {
    if p < q {
      Apart(n, d, p, q);
    } else if q < p {
      Apart(n, d, q, p);
    }
  }

  lemma Apart(n: nat, d: nat, p: nat, q: nat)
    requires HalfEven(n, d, p) && p < q
    ensures !HalfEven(n, d, q)
  {
    Distribute(q - p, p, d);
    MulMono(if q - p >= 2 then 2 else 1, q - p, d);
  }

  lemma Distribute(a: int, b: int, k: int)
    ensures (a + b) * k == a * k + b * k
  {
  }

  lemma {:induction false} MulMono(x: int, y: int, k: nat)
    requires x <= y
    ensures x * k <= y * k
  {
    if k > 0 {
      MulMono(x, y, k - 1);
      Distribute(k - 1, 1, x);
      Distribute(k - 1, 1, y);
    }
  }

  /** Multiplying both sides by a positive number keeps the order both ways. */
  lemma ScaleOrder(x: int, y: int, k: nat)
    requires k > 0
    ensures x * k <= y * k <==> x <= y
  {
    if x <= y {
      MulMono(x, y, k);
    } else {
      MulMono(y + 1, x, k);
      Distribute(y, 1, k);
    }
  }

  lemma HalfEvenScale(n: nat, d: nat, q: nat, k: nat)
    requires k > 0 && d > 0
    ensures HalfEven(n, d, q) <==> HalfEven(n * k, d * k, q)
  {
    var b := q * d;
    Regroup(q, d, k);
    Distribute(2 * b, d, k);
    Distribute(2 * n, d, k);
    Regroup(2, b, k);
    Regroup(2, n, k);
    ScaleOrder(2 * n, 2 * b + d, k);
    ScaleOrder(2 * b + d, 2 * n, k);
    ScaleOrder(2 * b, 2 * n + d, k);
    ScaleOrder(2 * n + d, 2 * b, k);
    Positive(d, k);
    HalfEvenForms(n, d, q, b, n * k, d * k, b * k);
  }

  /** `HalfEven` with its products named. */
  lemma HalfEvenForms(n: nat, d: nat, q: nat, b: int, nk: nat, dk: nat, bk: int)
    requires d > 0 && dk > 0 && q * d == b && q * dk == bk
    requires 2 * nk <= 2 * bk + dk <==> 2 * n <= 2 * b + d
    requires 2 * bk + dk <= 2 * nk <==> 2 * b + d <= 2 * n
    requires 2 * bk <= 2 * nk + dk <==> 2 * b <= 2 * n + d
    requires 2 * nk + dk <= 2 * bk <==> 2 * n + d <= 2 * b
    ensures HalfEven(n, d, q) <==> HalfEven(nk, dk, q)
  {
  }

  lemma Regroup(a: int, b: int, k: int)
    ensures (a * b) * k == a * (b * k)
  {
  }

  lemma Positive(a: nat, b: nat)
    requires a > 0 && b > 0
    ensures a * b > 0
  {
  }

  /** The quotient, one up when the remainder is past half, or at half and the rule says so. */
  function RoundBy(magnitude: nat, divisor: nat, sticky: bool): (r: nat)
    requires divisor > 0
  {
    var quotient, remainder, half := magnitude / divisor, magnitude % divisor, divisor / 2;
    if remainder > half || (remainder == half && (sticky || quotient % 2 == 1)) then quotient + 1 else quotient
  }

  function RoundOff(magnitude: nat, digits: nat, sticky: bool): (r: nat)
  {
    if digits == 0 then magnitude
    else if digits > 38 then 0
    else RoundBy(magnitude, Pow10(digits), sticky)
  }

  lemma Pow10Even(n: nat)
    requires n > 0
    ensures Pow10(n) % 2 == 0
  {
  }

  lemma EvenHalf(d: nat)
    requires d % 2 == 0
    ensures 2 * (d / 2) == d
  {
  }

  lemma Division(n: nat, d: nat)
    requires d > 0
    ensures n == (n / d) * d + n % d && 0 <= n % d < d
  {
  }

  /** Dropping digits rounds half to even, for anything a `u128` holds. */
  lemma RoundOffHalfEven(m: nat, digits: nat)
    requires m <= U128_MAX
    ensures HalfEven(m, Pow10(digits), RoundOff(m, digits, false))
  {
    if digits > 38 {
      Pow10Values();
      Pow10Grows(39, digits);
    } else if digits > 0 {
      Pow10Even(digits);
      RoundByHalfEven(m, Pow10(digits));
    }
  }

  lemma RoundByHalfEven(m: nat, d: nat)
    requires d > 0 && d % 2 == 0
    ensures HalfEven(m, d, RoundBy(m, d, false))
  {
    Division(m, d);
    EvenHalf(d);
    assert (m / d + 1) * d == (m / d) * d + d;
  }

  /** A quotient with one extra digit and a sticky remainder rounds the exact fraction. */
  lemma StickyHalfEven(n: nat, d: nat)
    requires d > 0
    ensures HalfEven(n, 10 * d, RoundOff(n / d, 1, n % d != 0))
  {
    var x, r := n / d, n % d;
    Division(n, d);
    var q, t := x / 10, x % 10;
    RoundOffOne(x, r != 0);
    Distribute(10 * q, t, d);
    Regroup(10, q, d);
    Regroup(q, 10, d);
    Commute(q, 10, d);
    Distribute(q, 1, 10 * d);
    Digit(t, d);
    StickyCases(n, d, q, t, r, q * d, t * d, RoundOff(x, 1, r != 0));
  }

  lemma Commute(a: int, b: int, k: int)
    ensures a * (b * k) == b * (a * k)
  {
  }

  lemma RoundOffOne(x: nat, sticky: bool)
    ensures RoundOff(x, 1, sticky) ==
            (if x % 10 > 5 || (x % 10 == 5 && (sticky || (x / 10) % 2 == 1)) then x / 10 + 1 else x / 10)
  {
    assert Pow10(1) == 10 * Pow10(0) == 10;
  }

  lemma Digit(t: nat, d: nat)
    requires t < 10
    ensures t <= 4 ==> t * d <= 4 * d
    ensures t == 5 ==> t * d == 5 * d
    ensures t >= 6 ==> 6 * d <= t * d <= 9 * d
    ensures 0 <= t * d
  {
    if t <= 4 {
      MulMono(t, 4, d);
    }
    if t >= 6 {
      MulMono(6, t, d);
      MulMono(t, 9, d);
    }
  }

  /** `StickyHalfEven` with its products named. */
  lemma StickyCases(n: nat, d: nat, q: nat, t: nat, r: nat, qd: int, td: int, m: nat)
    requires d > 0 && r < d && t < 10 && n == 10 * qd + td + r
    requires q * (10 * d) == 10 * qd && (q + 1) * (10 * d) == 10 * qd + 10 * d
    requires t <= 4 ==> td <= 4 * d
    requires t == 5 ==> td == 5 * d
    requires t >= 6 ==> 6 * d <= td <= 9 * d
    requires 0 <= td
    requires m == if t > 5 || (t == 5 && (r != 0 || q % 2 == 1)) then q + 1 else q
    ensures HalfEven(n, 10 * d, m)
  {
  }

  function Abs(x: int): (r: nat) { if x < 0 then -x else x }

  function Sign(x: int): (r: int) { if x < 0 then -1 else if x > 0 then 1 else 0 }

  /** `m` is the exact fraction `num / den`, rounded half to even, sign apart. */
  ghost predicate Rounds(num: int, den: nat, m: int)
  {
    HalfEven(Abs(num), den, Abs(m)) && (m == 0 || Sign(m) == Sign(num))
  }

  // -- numeric value ------------------------------------------------------------------------

  /** The number, counted in units of 10^-18, the finest a scale can express. */
  function Units(d: Decimal): (r: int)
  {
    d.mantissa * Pow10(MAX_SCALE - d.scale)
  }

  /** The mantissa at a finer scale. */
  function At(d: Decimal, scale: Scale): (r: int)
    requires d.scale <= scale
  {
    d.mantissa * Pow10(scale - d.scale)
  }

  /** Shifting to a finer scale never leaves an `i128`. */
  lemma AtFits(d: Decimal, scale: Scale)
    requires d.scale <= scale
    ensures -I128_MAX <= At(d, scale) <= I128_MAX
  {
    hide Pow10;
    Pow10Values();
    Pow10Grows(scale - d.scale, 18);
    var p := Pow10(scale - d.scale);
    Product(Abs(d.mantissa), p, I64_MAX + 1, Pow10(18));
    AbsProduct(d.mantissa, p);
  }

  lemma Product(a: nat, b: nat, x: nat, y: nat)
    requires a <= x && b <= y
    ensures a * b <= x * y
  {
    assert a * b <= x * b;
    assert x * b <= x * y;
  }

  lemma AtUnits(d: Decimal, scale: Scale)
    requires d.scale <= scale
    ensures At(d, scale) * Pow10(MAX_SCALE - scale) == Units(d)
  {
    Pow10Add(scale - d.scale, MAX_SCALE - scale);
    Regroup(d.mantissa, Pow10(scale - d.scale), Pow10(MAX_SCALE - scale));
  }

  function Finer(a: Decimal, b: Decimal): (r: Scale)
  {
    if a.scale > b.scale then a.scale else b.scale
  }

  function Compare(a: Decimal, b: Decimal): (r: Ordering)
  {
    var s := Finer(a, b);
    if At(a, s) < At(b, s) then Less else if At(a, s) > At(b, s) then Greater else Equal
  }

  /** Comparison is the order of the numbers, whatever their scales; hence a total order. */
  lemma CompareIsNumeric(a: Decimal, b: Decimal)
    ensures Compare(a, b) == (if Units(a) < Units(b) then Less else if Units(a) > Units(b) then Greater else Equal)
  {
    var s := Finer(a, b);
    AtUnits(a, s);
    AtUnits(b, s);
    ScaleOrder(At(a, s), At(b, s), Pow10(MAX_SCALE - s));
    ScaleOrder(At(b, s), At(a, s), Pow10(MAX_SCALE - s));
  }

  /** No trailing zeros, and zero at scale zero. */
  predicate Normal(d: Decimal)
  {
    (d.scale == 0 || d.mantissa % 10 != 0) && (d.mantissa == 0 ==> d.scale == 0)
  }

  function Normalized(d: Decimal): (r: Decimal)
    ensures Normal(r) && Units(r) == Units(d)
    decreases d.scale
  {
    if d.scale > 0 && d.mantissa % 10 == 0 then
      assert d.mantissa * Pow10(MAX_SCALE - d.scale) == (d.mantissa / 10) * (10 * Pow10(MAX_SCALE - d.scale));
      Normalized(Decimal(d.mantissa / 10, d.scale - 1))
    else if d.mantissa == 0 then ZERO
    else d
  }

  method Normalize(d: Decimal) returns (r: Decimal)
    ensures r == Normalized(d)
  {
    r := d;
    while r.scale > 0 && r.mantissa % 10 == 0
      invariant Normalized(r) == Normalized(d)
      decreases r.scale
    {
      r := Decimal(r.mantissa / 10, r.scale - 1);
    }
    if r.mantissa == 0 {
      r := r.(scale := 0);
    }
  }

  /** Two decimals compare equal exactly when they normalize alike, which is what the hash reads. */
  lemma EqualIffNormalizedAlike(a: Decimal, b: Decimal)
    ensures Compare(a, b) == Equal <==> Normalized(a) == Normalized(b)
  {
    CompareIsNumeric(a, b);
    if Units(a) == Units(b) {
      NormalUnique(Normalized(a), Normalized(b));
    }
  }

  lemma NormalUnique(a: Decimal, b: Decimal)
    requires Normal(a) && Normal(b) && Units(a) == Units(b)
    ensures a == b
  {
    if a.scale < b.scale {
      CoarserNotNormal(a, b);
    } else if b.scale < a.scale {
      CoarserNotNormal(b, a);
    } else {
      ScaleOrder(a.mantissa, b.mantissa, Pow10(MAX_SCALE - a.scale));
      ScaleOrder(b.mantissa, a.mantissa, Pow10(MAX_SCALE - a.scale));
    }
  }

  lemma CoarserNotNormal(a: Decimal, b: Decimal)
    requires Units(a) == Units(b) && a.scale < b.scale
    ensures !Normal(b)
  {
    hide Pow10;
    AtUnits(a, b.scale);
    var p := Pow10(MAX_SCALE - b.scale);
    ScaleOrder(At(a, b.scale), b.mantissa, p);
    ScaleOrder(b.mantissa, At(a, b.scale), p);
    NextPower(b.scale - a.scale - 1);
    TenTimes(a.mantissa, Pow10(b.scale - a.scale - 1));
    TenDivides(a.mantissa * Pow10(b.scale - a.scale - 1));
  }

  lemma TenDivides(x: int)
    ensures (10 * x) % 10 == 0
  {
  }

  lemma TenTimes(a: int, b: int)
    ensures a * (10 * b) == 10 * (a * b)
  {
  }

  // -- arithmetic ---------------------------------------------------------------------------

  /** An `i128` mantissa back in an `i64`, or nothing. */
  function Narrow(mantissa: int, scale: Scale): (r: Option<Decimal>)
  {
    if mantissa > I64_MAX || mantissa < -I64_MAX - 1 then None else Some(Decimal(mantissa, scale))
  }

  function CheckedAdd(a: Decimal, b: Decimal): (r: Option<Decimal>)
  {
    var s := Finer(a, b);
    Narrow(At(a, s) + At(b, s), s)
  }

  function CheckedSub(a: Decimal, b: Decimal): (r: Option<Decimal>)
  {
    var s := Finer(a, b);
    Narrow(At(a, s) - At(b, s), s)
  }

  /** Sums and differences are exact, at the finer scale. */
  lemma SumsAreExact(a: Decimal, b: Decimal)
    ensures var r := CheckedAdd(a, b);
            r.Some? ==> Units(r.value) == Units(a) + Units(b) && r.value.scale == Finer(a, b)
    ensures var r := CheckedSub(a, b);
            r.Some? ==> Units(r.value) == Units(a) - Units(b) && r.value.scale == Finer(a, b)
  {
    var s := Finer(a, b);
    var p := Pow10(MAX_SCALE - s);
    AtUnits(a, s);
    AtUnits(b, s);
    Distribute(At(a, s), At(b, s), p);
    Distribute(At(a, s), -At(b, s), p);
    assert (-At(b, s)) * p == -(At(b, s) * p);
  }

  /** A rounded magnitude with its sign back on, or nothing when it does not fit. */
  function Signed(negative: bool, rounded: nat, scale: Scale): (r: Option<Decimal>)
  {
    var m: int := rounded;
    if m > I64_MAX then None else Some(Decimal(if negative then -m else m, scale))
  }

  function Rescale(d: Decimal, scale: nat): (r: Option<Decimal>)
  {
    if scale > MAX_SCALE then None
    else if scale >= d.scale then Narrow(d.mantissa * Pow10(scale - d.scale), scale)
    else
      var factor := Pow10(d.scale - scale);
      if Abs(d.mantissa) % factor != 0 then None
      else Some(Decimal(if d.mantissa < 0 then -(Abs(d.mantissa) / factor) else Abs(d.mantissa) / factor, scale))
  }

  function RoundTo(d: Decimal, scale: nat): (r: Option<Decimal>)
  {
    if scale >= d.scale then Rescale(d, scale)
    else Signed(d.mantissa < 0, RoundOff(Abs(d.mantissa), d.scale - scale, false), scale)
  }

  function CheckedMul(a: Decimal, b: Decimal): (r: Option<Decimal>)
  {
    var scale: nat := a.scale + b.scale;
    var product := a.mantissa * b.mantissa;
    if scale <= MAX_SCALE then Narrow(product, scale)
    else Signed(product < 0, RoundOff(Abs(product), scale - MAX_SCALE, false), MAX_SCALE)
  }

  /** `10^(scale + b.scale - a.scale)`, as what the numerator and the denominator grow by when one
      digit more is kept for rounding. */
  function Shift(a: Decimal, b: Decimal, scale: nat): (r: int)
  {
    scale + b.scale - a.scale + 1
  }

  function Scaled(x: nat, k: nat): (r: nat)
    ensures x > 0 ==> r > 0
  {
    if x > 0 then (Positive(x, Pow10(k)); x * Pow10(k)) else x * Pow10(k)
  }

  lemma ScaledIs(x: nat, k: nat)
    ensures Scaled(x, k) == x * Pow10(k)
  {
  }

  /** A quotient with one digit too many, rounded with its remainder sticking to it. */
  function RoundedQuotient(n: nat, d: nat): (r: nat)
    requires d > 0
  {
    RoundOff(n / d, 1, n % d != 0)
  }

  function CheckedDiv(a: Decimal, b: Decimal, scale: nat): (r: Option<Decimal>)
  {
    if b.mantissa == 0 || scale > MAX_SCALE then None
    else
      var shift := Shift(a, b, scale);
      var negative := (a.mantissa < 0) != (b.mantissa < 0);
      var n, d := Abs(a.mantissa), Abs(b.mantissa);
      if shift >= 0 then
        var numerator := Scaled(n, shift);
        if shift > 38 || numerator > U128_MAX then None
        else Signed(negative, RoundedQuotient(numerator, d), scale)
      else
        var denominator := Scaled(d, -shift);
        if -shift > 38 || denominator > U128_MAX then None
        else Signed(negative, RoundedQuotient(n, denominator), scale)
  }

  /** Rounding to a coarser scale is half to even and never refused, to a finer one exact. */
  lemma RoundToIsHalfEven(d: Decimal, scale: nat)
    ensures var r := RoundTo(d, scale);
            r.Some? ==> r.value.scale == scale && Rounds(d.mantissa * Pow10(scale), Pow10(d.scale), r.value.mantissa)
    ensures scale <= d.scale ==> RoundTo(d, scale).Some?
  {
    hide Pow10, RoundOff;
    if scale >= d.scale {
      RescaleIsExact(d, scale);
    } else {
      var m, k := Abs(d.mantissa), d.scale - scale;
      var q := RoundOff(m, k, false);
      AbsProduct(d.mantissa, Pow10(scale));
      RoundOffHalfEven(m, k);
      HalfEvenScale(m, Pow10(k), q, Pow10(scale));
      Pow10Add(k, scale);
      RoundOffSmaller(m, k);
      AtLeastTen(k);
      PastRangeIff(m, Pow10(k), q);
      MulMono(10, Pow10(k), 2 * I64_MAX + 1);
    }
  }

  lemma RescaleIsExact(d: Decimal, scale: nat)
    requires scale >= d.scale
    ensures var r := Rescale(d, scale);
            r.Some? ==> r.value.scale == scale && Rounds(d.mantissa * Pow10(scale), Pow10(d.scale), r.value.mantissa)
    ensures scale == d.scale ==> Rescale(d, scale).Some?
  {
    hide Pow10;
    var m := d.mantissa * Pow10(scale - d.scale);
    Pow10Add(scale - d.scale, d.scale);
    Regroup(d.mantissa, Pow10(scale - d.scale), Pow10(d.scale));
    ExactRounds(d.mantissa * Pow10(scale), Pow10(d.scale), m);
    if scale == d.scale {
      PowZero(d.mantissa);
    }
  }

  lemma PowZero(x: int)
    ensures x * Pow10(0) == x
  {
  }

  lemma AbsProduct(x: int, k: nat)
    requires k > 0
    ensures Abs(x * k) == Abs(x) * k && Sign(x * k) == Sign(x)
  {
    if x > 0 {
      Positive(x, k);
    } else if x < 0 {
      Positive(-x, k);
      assert (-x) * k == -(x * k);
    }
  }

  lemma ExactRounds(num: int, den: nat, m: int)
    requires den > 0 && num == m * den
    ensures Rounds(num, den, m)
  {
    AbsProduct(m, den);
  }

  lemma RoundOffSmaller(m: nat, k: nat)
    ensures RoundOff(m, k, false) <= m
  {
    if 0 < k <= 38 {
      AtLeastTen(k);
      RoundBySmaller(m, Pow10(k));
    }
  }

  lemma RoundBySmaller(m: nat, d: nat)
    requires d >= 10
    ensures RoundBy(m, d, false) <= m
  {
    var q, r := m / d, m % d;
    Division(m, d);
    MulMono(10, d, q);
    SmallerForm(m, d, q, r, q * d, RoundBy(m, d, false));
  }

  lemma AtLeastTen(k: nat)
    requires k > 0
    ensures Pow10(k) >= 10
  {
    Pow10Grows(1, k);
    assert Pow10(1) == 10 * Pow10(0);
  }

  lemma SmallerForm(m: nat, d: nat, q: nat, r: nat, qd: nat, result: nat)
    requires m == qd + r && qd >= 10 * q && d >= 10
    requires result == q || (result == q + 1 && r >= d / 2)
    ensures result <= m
  {
  }

  /** The exact product, as a fraction at the scale the result is given at. */
  ghost function ProductNum(a: Decimal, b: Decimal): (r: int)
  {
    a.mantissa * b.mantissa * Pow10(Smaller(a.scale + b.scale, MAX_SCALE))
  }

  ghost function ProductDen(a: Decimal, b: Decimal): (r: nat)
  {
    Pow10(a.scale + b.scale)
  }

  /** A product is exact while its scales fit, and otherwise the exact product rounded half to
      even; it is refused only when that does not fit. */
  lemma MulIsHalfEven(a: Decimal, b: Decimal)
    ensures var r := CheckedMul(a, b);
            r.Some? ==>
              && r.value.scale == Smaller(a.scale + b.scale, MAX_SCALE)
              && Rounds(ProductNum(a, b), ProductDen(a, b), r.value.mantissa)
              && (a.scale + b.scale <= MAX_SCALE ==> r.value.mantissa == a.mantissa * b.mantissa)
    ensures CheckedMul(a, b) == None ==>
              forall m :: Rounds(ProductNum(a, b), ProductDen(a, b), m) ==> m > I64_MAX || m < -I64_MAX
  {
    hide Pow10, RoundOff;
    var scale: nat := a.scale + b.scale;
    var product := a.mantissa * b.mantissa;
    if scale <= MAX_SCALE {
      ExactRounds(product * Pow10(scale), Pow10(scale), product);
      RoundsForced(product * Pow10(scale), Pow10(scale), product);
    } else {
      var q := RoundOff(Abs(product), scale - MAX_SCALE, false);
      var signed: int := q;
      SurplusRounded(a, b);
      RoundsForced(ProductNum(a, b), ProductDen(a, b), if product < 0 then -signed else signed);
    }
  }

  lemma SurplusRounded(a: Decimal, b: Decimal)
    requires a.scale + b.scale > MAX_SCALE
    ensures var product := a.mantissa * b.mantissa;
            var q: int := RoundOff(Abs(product), a.scale + b.scale - MAX_SCALE, false);
            Rounds(ProductNum(a, b), ProductDen(a, b), if product < 0 then -q else q)
  {
    hide Pow10, RoundOff;
    var product := a.mantissa * b.mantissa;
    var k := a.scale + b.scale - MAX_SCALE;
    ProductFits(a, b);
    RoundOffHalfEven(Abs(product), k);
    HalfEvenScale(Abs(product), Pow10(k), RoundOff(Abs(product), k, false), Pow10(MAX_SCALE));
    Pow10Add(k, MAX_SCALE);
    AbsProduct(product, Pow10(MAX_SCALE));
    RoundOffSmaller(Abs(product), k);
  }

  function Smaller(a: nat, b: nat): (r: nat) { if a < b then a else b }

  /** The rounding of a fraction is unique. */
  lemma RoundsForced(num: int, den: nat, m: int)
    requires Rounds(num, den, m)
    ensures forall x :: Rounds(num, den, x) ==> x == m
  {
    forall x | Rounds(num, den, x)
      ensures x == m
    {
      HalfEvenUnique(Abs(num), den, Abs(x), Abs(m));
    }
  }

  lemma ProductFits(a: Decimal, b: Decimal)
    ensures Abs(a.mantissa * b.mantissa) <= U128_MAX
  {
    var x, y := Abs(a.mantissa), Abs(b.mantissa);
    Product(x, y, I64_MAX + 1, I64_MAX + 1);
    assert Abs(a.mantissa * b.mantissa) == x * y by {
      if b.mantissa > 0 {
        AbsProduct(a.mantissa, b.mantissa);
      } else if b.mantissa < 0 {
        AbsProduct(a.mantissa, y);
        assert a.mantissa * y == -(a.mantissa * b.mantissa);
      }
    }
  }

  /** A quotient that is returned is the exact quotient at the scale asked for, rounded half to
      even, whichever of numerator and denominator had to grow. */
  lemma DivIsHalfEven(a: Decimal, b: Decimal, scale: nat)
    ensures var r := CheckedDiv(a, b, scale);
            r.Some? ==>
              && b.mantissa != 0 && r.value.scale == scale
              && Rounds(a.mantissa * Sign(b.mantissa) * Pow10(scale + b.scale), Scaled(Abs(b.mantissa), a.scale),
                        r.value.mantissa)
  {
    hide Pow10, RoundedQuotient, HalfEven, Scaled;
    ScaledIs(Abs(b.mantissa), a.scale);
    if CheckedDiv(a, b, scale).Some? {
      var n, d := Abs(a.mantissa), Abs(b.mantissa);
      var q := Abs(CheckedDiv(a, b, scale).value.mantissa);
      var num := a.mantissa * Sign(b.mantissa);
      assert Abs(num) == n;
      AbsProduct(num, Pow10(scale + b.scale));
      if Shift(a, b, scale) >= 0 {
        NumeratorGrows(n, d, Shift(a, b, scale), scale + b.scale, a.scale);
      } else {
        DenominatorGrows(n, d, -Shift(a, b, scale), scale + b.scale, a.scale);
      }
      DivSign(a, b, scale);
    }
  }

  /** One digit more in the numerator, dropped with the remainder sticking to it. */
  lemma NumeratorGrows(n: nat, d: nat, shift: nat, up: nat, down: nat)
    requires d > 0 && shift + down == up + 1
    ensures var x := Scaled(n, shift);
            HalfEven(n * Pow10(up), d * Pow10(down), RoundedQuotient(x, d))
  {
    hide Pow10, RoundOff, HalfEven;
    var x := Scaled(n, shift);
    var q := RoundedQuotient(x, d);
    StickyHalfEven(x, d);
    HalfEvenScale(x, 10 * d, q, Pow10(down));
    Regroup(n, Pow10(shift), Pow10(down));
    Pow10Add(shift, down);
    NextPower(up);
    TenTimes(n, Pow10(up));
    Regroup(10, d, Pow10(down));
    Positive(d, Pow10(down));
    HalfEvenScale(n * Pow10(up), d * Pow10(down), q, 10);
  }

  lemma DenominatorGrows(n: nat, d: nat, shift: nat, up: nat, down: nat)
    requires d > 0 && shift > 0 && down == up + 1 + shift
    ensures var x := Scaled(d, shift);
            x > 0 && HalfEven(n * Pow10(up), d * Pow10(down), RoundedQuotient(n, x))
  {
    hide Pow10, RoundOff, HalfEven;
    var x := Scaled(d, shift);
    var q := RoundedQuotient(n, x);
    StickyHalfEven(n, x);
    HalfEvenScale(n, 10 * x, q, Pow10(up));
    Regroup(10, x, Pow10(up));
    Regroup(d, Pow10(shift), Pow10(up));
    Pow10Add(shift, up);
    NextPower(shift + up);
    TenTimes(d, Pow10(shift + up));
  }

  lemma NextPower(n: nat)
    ensures Pow10(n + 1) == 10 * Pow10(n)
  {
  }

  lemma DivSign(a: Decimal, b: Decimal, scale: nat)
    requires CheckedDiv(a, b, scale).Some?
    ensures var m := CheckedDiv(a, b, scale).value.mantissa;
            m == 0 || Sign(m) == Sign(a.mantissa * Sign(b.mantissa))
  {
    hide RoundedQuotient, Pow10;
    if a.mantissa == 0 {
      var shift := Shift(a, b, scale);
      if shift >= 0 {
        ZeroQuotient(Abs(b.mantissa));
      } else {
        ZeroQuotient(Scaled(Abs(b.mantissa), -shift));
      }
    }
  }

  lemma ZeroQuotient(d: nat)
    requires d > 0
    ensures RoundedQuotient(0, d) == 0
  {
    RoundOffOne(0, false);
  }

  // -- when an answer is refused ------------------------------------------------------------

  /** `n / d`, rounded half to even, is past the largest mantissa. */
  predicate PastRange(n: nat, d: nat)
  {
    2 * n >= (2 * I64_MAX + 1) * d
  }

  lemma PastRangeIff(n: nat, d: nat, q: nat)
    requires HalfEven(n, d, q)
    ensures q > I64_MAX <==> PastRange(n, d)
  {
    if q > I64_MAX {
      MulMono(I64_MAX + 1, q, d);
      Distribute(I64_MAX, 1, d);
    } else {
      MulMono(q, I64_MAX, d);
      if q < I64_MAX {
        MulMono(q + 1, I64_MAX, d);
        Distribute(q, 1, d);
      }
    }
  }

  predicate IsI64(x: int) { -I64_MAX - 1 <= x <= I64_MAX }

  /** A product is refused exactly when it does not fit: as it is while the scales fit, rounded when
      they do not. */
  lemma MulRefusedIff(a: Decimal, b: Decimal)
    ensures var p, scale: nat := a.mantissa * b.mantissa, a.scale + b.scale;
            CheckedMul(a, b) == None <==>
            if scale <= MAX_SCALE then !IsI64(p) else PastRange(Abs(p), Pow10(scale - MAX_SCALE))
  {
    hide Pow10, RoundOff, PastRange;
    var p, scale: nat := a.mantissa * b.mantissa, a.scale + b.scale;
    if scale > MAX_SCALE {
      var k := scale - MAX_SCALE;
      ProductFits(a, b);
      RoundOffHalfEven(Abs(p), k);
      PastRangeIff(Abs(p), Pow10(k), RoundOff(Abs(p), k, false));
    }
  }

  /** The value the division works with, one digit wider than the answer, does not fit a `u128`. */
  predicate TooWide(a: Decimal, b: Decimal, scale: nat)
  {
    var shift := Shift(a, b, scale);
    if shift >= 0 then shift > 38 || Scaled(Abs(a.mantissa), shift) > U128_MAX
    else -shift > 38 || Scaled(Abs(b.mantissa), -shift) > U128_MAX
  }

  /** A quotient is refused exactly for a zero divisor, a scale out of range, a value on the way that is
      too wide, or an answer that does not fit. */
  lemma DivRefusedIff(a: Decimal, b: Decimal, scale: nat)
    ensures CheckedDiv(a, b, scale) == None <==>
            || b.mantissa == 0 || scale > MAX_SCALE || TooWide(a, b, scale)
            || PastRange(Scaled(Abs(a.mantissa), scale + b.scale), Scaled(Abs(b.mantissa), a.scale))
  {
    hide Pow10, RoundedQuotient, HalfEven, Scaled, PastRange;
    if b.mantissa != 0 && scale <= MAX_SCALE && !TooWide(a, b, scale) {
      var n, d, shift := Abs(a.mantissa), Abs(b.mantissa), Shift(a, b, scale);
      ScaledIs(n, scale + b.scale);
      ScaledIs(d, a.scale);
      if shift >= 0 {
        NumeratorGrows(n, d, shift, scale + b.scale, a.scale);
        PastRangeIff(n * Pow10(scale + b.scale), d * Pow10(a.scale), RoundedQuotient(Scaled(n, shift), d));
      } else {
        DenominatorGrows(n, d, -shift, scale + b.scale, a.scale);
        PastRangeIff(n * Pow10(scale + b.scale), d * Pow10(a.scale), RoundedQuotient(n, Scaled(d, -shift)));
      }
    }
  }

  // -- moving the point ---------------------------------------------------------------------

  /** `checked_pow10` in closed form. */
  function ShiftPoint(d: Decimal, exp: int): (r: Option<Decimal>)
  {
    if exp > 40 || exp < -40 then (if d.mantissa == 0 then Some(ZERO) else None)
    else if exp < 0 then
      var want := d.scale - exp;
      if want <= MAX_SCALE then Some(Decimal(d.mantissa, want))
      else if want - MAX_SCALE > 18 || d.mantissa % Pow10(want - MAX_SCALE) != 0 then None
      else Some(Decimal(d.mantissa / Pow10(want - MAX_SCALE), MAX_SCALE))
    else
      var spent := Smaller(exp, d.scale);
      Narrow(d.mantissa * Pow10(exp - spent), d.scale - spent)
  }

  method CheckedPow10(d: Decimal, exp: int) returns (r: Option<Decimal>)
    ensures r == ShiftPoint(d, exp)
  {
    hide Pow10;
    if exp > 40 || exp < -40 {
      return if d.mantissa == 0 then Some(ZERO) else None;
    }
    if exp < 0 {
      var want := d.scale - exp;
      if want <= MAX_SCALE {
        return Some(Decimal(d.mantissa, want));
      }
      var surplus := want - MAX_SCALE;
      if surplus > 18 || d.mantissa % Pow10(surplus) != 0 {
        return None;
      }
      return Some(Decimal(d.mantissa / Pow10(surplus), MAX_SCALE));
    }
    var left: nat := exp;
    var mantissa: I64 := d.mantissa;
    var scale: Scale := d.scale;
    while left > 0 && scale > 0
      invariant exp - left == d.scale - scale
      decreases scale
    {
      scale := scale - 1;
      left := left - 1;
    }
    PowZero(mantissa);
    ghost var all := left;
    while left > 0
      invariant mantissa * Pow10(left) == d.mantissa * Pow10(all)
      decreases left
    {
      var step: nat := Smaller(left, 18);
      Pow10Add(step, left - step);
      Regroup(mantissa, Pow10(step), Pow10(left - step));
      if mantissa * Pow10(step) > I64_MAX || mantissa * Pow10(step) < -I64_MAX - 1 {
        Overflows(mantissa * Pow10(step), Pow10(left - step));
        return None;
      }
      mantissa := mantissa * Pow10(step);
      left := left - step;
    }
    PowZero(mantissa);
    return Some(Decimal(mantissa, scale));
  }

  lemma Overflows(x: int, k: nat)
    requires k > 0 && (x > I64_MAX || x < -I64_MAX - 1)
    ensures x * k > I64_MAX || x * k < -I64_MAX - 1
  {
    if x > 0 {
      MulMono(1, k, x);
    } else {
      MulMono(1, k, -x);
      assert k * (-x) == -(x * k);
    }
  }

  /** Moving the point is exact. */
  lemma ShiftIsExact(d: Decimal, exp: int)
    requires ShiftPoint(d, exp).Some?
    ensures exp >= 0 ==> Units(ShiftPoint(d, exp).value) == Units(d) * Pow10(exp)
    ensures exp < 0 ==> Units(ShiftPoint(d, exp).value) * Pow10(-exp) == Units(d)
  {
    hide Pow10;
    var r := ShiftPoint(d, exp).value;
    if d.mantissa == 0 {
      ZeroShift(d, exp);
    } else if exp >= 0 {
      var spent := Smaller(exp, d.scale);
      ShiftUp(d.mantissa, exp, d.scale, spent);
    } else if d.scale - exp <= MAX_SCALE {
      Pow10Add(MAX_SCALE - r.scale, -exp);
      Regroup(d.mantissa, Pow10(MAX_SCALE - r.scale), Pow10(-exp));
    } else {
      var surplus := d.scale - exp - MAX_SCALE;
      ExactQuotient(d.mantissa, Pow10(surplus));
      Pow10Add(surplus, MAX_SCALE - d.scale);
      Regroup(r.mantissa, Pow10(surplus), Pow10(MAX_SCALE - d.scale));
      PowZero(r.mantissa);
    }
  }

  lemma ZeroShift(d: Decimal, exp: int)
    requires d.mantissa == 0 && ShiftPoint(d, exp).Some?
    ensures ShiftPoint(d, exp).value.mantissa == 0 && Units(d) == 0 && Units(ShiftPoint(d, exp).value) == 0
  {
  }

  lemma ExactQuotient(x: int, k: nat)
    requires k > 0 && x % k == 0
    ensures (x / k) * k == x
  {
  }

  lemma ShiftUp(m: int, exp: nat, scale: Scale, spent: nat)
    requires spent <= exp && spent <= scale
    ensures (m * Pow10(exp - spent)) * Pow10(MAX_SCALE - (scale - spent)) == (m * Pow10(MAX_SCALE - scale)) * Pow10(exp)
  {
    hide Pow10;
    var a, b, e := Pow10(exp - spent), Pow10(MAX_SCALE - scale), Pow10(spent);
    Pow10Add(exp - spent, spent);
    Pow10Add(MAX_SCALE - scale, spent);
    FourWay(m, a, b, e);
  }

  lemma FourWay(m: int, a: int, b: int, e: int)
    ensures (m * a) * (b * e) == (m * b) * (a * e)
  {
    Regroup(m, a, b * e);
    Regroup(m, b, a * e);
    Commute(a, b, e);
  }

  /** Whether some decimal is `d × 10^exp`. */
  ghost predicate Representable(d: Decimal, exp: int)
  {
    exists r: Decimal :: if exp >= 0 then Units(r) == Units(d) * Pow10(exp) else Units(r) * Pow10(-exp) == Units(d)
  }

  /** Moving the point is refused exactly when no decimal is the answer, except that zero at a fine
      scale is refused for a shift that lands between the cut-offs. */
  lemma ShiftRefusedIff(d: Decimal, exp: int)
    ensures ShiftPoint(d, exp) == None <==>
            !Representable(d, exp) || (d.mantissa == 0 && -40 <= exp < 0 && d.scale - exp > 36)
  {
    hide Pow10;
    if ShiftPoint(d, exp).Some? {
      ShiftIsExact(d, exp);
      assert Representable(d, exp);
      PowSmall();
    } else if d.mantissa == 0 {
      ZeroRepresentable(d, exp);
    } else {
      forall r: Decimal
        ensures if exp >= 0 then Units(r) != Units(d) * Pow10(exp) else Units(r) * Pow10(-exp) != Units(d)
      {
        NoAnswer(d, exp, r);
      }
    }
  }

  lemma PowSmall()
    ensures Pow10(0) == 1
  {
  }

  lemma ZeroRepresentable(d: Decimal, exp: int)
    requires d.mantissa == 0
    ensures Representable(d, exp)
  {
    assert Units(d) == 0 && Units(ZERO) == 0;
  }

  lemma UnitsBounded(r: Decimal)
    ensures Abs(Units(r)) <= (I64_MAX + 1) * Pow10(MAX_SCALE)
    ensures Units(r) <= I64_MAX * Pow10(MAX_SCALE)
  {
    hide Pow10;
    var p := Pow10(MAX_SCALE - r.scale);
    Pow10Grows(MAX_SCALE - r.scale, MAX_SCALE);
    AbsProduct(r.mantissa, p);
    Product(Abs(r.mantissa), p, I64_MAX + 1, Pow10(MAX_SCALE));
    if r.mantissa > 0 {
      Product(r.mantissa, p, I64_MAX, Pow10(MAX_SCALE));
    }
  }

  lemma NoAnswer(d: Decimal, exp: int, r: Decimal)
    requires d.mantissa != 0 && ShiftPoint(d, exp) == None
    ensures if exp >= 0 then Units(r) != Units(d) * Pow10(exp) else Units(r) * Pow10(-exp) != Units(d)
  {
    hide Pow10;
    UnitsBounded(r);
    if exp >= 0 {
      TooLarge(d, exp, r);
    } else {
      TooFine(d, -exp, r);
    }
  }

  lemma TooLarge(d: Decimal, exp: nat, r: Decimal)
    requires d.mantissa != 0 && ShiftPoint(d, exp) == None
    requires Abs(Units(r)) <= (I64_MAX + 1) * Pow10(MAX_SCALE) && Units(r) <= I64_MAX * Pow10(MAX_SCALE)
    ensures Units(r) != Units(d) * Pow10(exp)
  {
    hide Pow10, ShiftPoint;
    ShiftOverflows(d, exp);
    ShiftUp(d.mantissa, exp, d.scale, d.scale);
    OutOfRange(d.mantissa * Pow10(exp - d.scale), Pow10(MAX_SCALE), Units(r));
  }

  lemma ShiftOverflows(d: Decimal, exp: nat)
    requires d.mantissa != 0 && ShiftPoint(d, exp) == None
    ensures exp > d.scale
    ensures var big := d.mantissa * Pow10(exp - d.scale);
            big > I64_MAX || big < -I64_MAX - 1
  {
    hide Pow10;
    PowZero(d.mantissa);
    if exp > 40 {
      TwentyMoreDigits(d.mantissa, exp - d.scale);
    }
  }

  lemma OutOfRange(x: int, p: nat, u: int)
    requires p > 0 && (x > I64_MAX || x < -I64_MAX - 1)
    requires -((I64_MAX + 1) * p) <= u <= I64_MAX * p
    ensures u != x * p
  {
    if x > I64_MAX {
      MulMono(I64_MAX + 1, x, p);
    } else {
      MulMono(x, -I64_MAX - 2, p);
    }
  }

  lemma TwentyMoreDigits(m: int, k: nat)
    requires m != 0 && k >= 20
    ensures m * Pow10(k) > I64_MAX || m * Pow10(k) < -I64_MAX - 1
  {
    hide Pow10;
    Pow10Grows(20, k);
    TwentyDigits();
    AbsProduct(m, Pow10(k));
    MulMono(1, Abs(m), Pow10(k));
  }

  lemma TwentyDigits()
    ensures Pow10(20) > 2 * I64_MAX
  {
    assert Pow10(10) == 10_000_000_000;
    assert Pow10(20) == 100_000_000_000_000_000_000;
  }

  lemma TooFine(d: Decimal, down: nat, r: Decimal)
    requires d.mantissa != 0 && down > 0 && ShiftPoint(d, 0 - down) == None
    ensures Units(r) * Pow10(down) != Units(d)
  {
    hide Pow10;
    var surplus := d.scale + down - MAX_SCALE;
    if Units(r) * Pow10(down) == Units(d) {
      // Both sides are multiples of 10^(18 - d.scale); cancelling it leaves the mantissa a
      // multiple of 10^surplus.
      Pow10Add(surplus, MAX_SCALE - d.scale);
      Regroup(Units(r), Pow10(surplus), Pow10(MAX_SCALE - d.scale));
      ScaleOrder(Units(r) * Pow10(surplus), d.mantissa, Pow10(MAX_SCALE - d.scale));
      ScaleOrder(d.mantissa, Units(r) * Pow10(surplus), Pow10(MAX_SCALE - d.scale));
      Multiple(Units(r), Pow10(surplus));
      NotThatSmall(d.mantissa, Units(r), surplus);
    }
  }

  lemma Multiple(x: int, k: nat)
    requires k > 0
    ensures (x * k) % k == 0
  {
    var y := x * k;
    var gap := x - y / k;
    Distribute(gap, y / k, k);
    assert gap * k == y % k;
    if gap > 0 {
      MulMono(1, gap, k);
    } else if gap < 0 {
      MulMono(gap, -1, k);
    }
  }

  lemma NotThatSmall(m: I64, u: int, surplus: nat)
    requires m != 0 && m == u * Pow10(surplus)
    ensures surplus <= 18
  {
    hide Pow10;
    if surplus > 18 {
      Pow10Grows(19, surplus);
      NineteenDigits();
      AbsProduct(u, Pow10(surplus));
      MulMono(1, Abs(u), Pow10(surplus));
    }
  }

  lemma NineteenDigits()
    ensures Pow10(19) > I64_MAX + 1
  {
    assert Pow10(10) == 10_000_000_000;
    assert Pow10(19) == 10_000_000_000_000_000_000;
  }
}
