/** Where the composite schedule stops being exact: schedules without a step where they start, and
    windows with more repetitions than are walked. */
module CompositeLimits {
  import opened Basics
  import opened Decimals
  import opened Charging
  import opened CompositeSchedule
  import opened CompositeTheorems

  /** One profile, always valid and placed in time, asked for in its own unit. */
  predicate Alone(q: Request)
  {
    && |q.profiles| == 1
    && q.profiles[0].validFrom.None? && q.profiles[0].validTo.None?
    && Anchor(q.profiles[0], q.tx).Some?
    && q.profiles[0].schedules[0].unit == q.unit
  }

  ghost predicate Exact(q: Request, w: Window, t: int)
  {
    SameStep(ReadAt(CompositeOf(q, w), t - w.start), StepFor(q, w, t))
  }

  /** For a profile on its own the composite is exact in every window the walk covers if and only if
      the schedule has a breakpoint, or nothing to say, where it starts and starts over. */
  lemma ExactIffAnchored(q: Request)
    requires Alone(q)
    ensures Anchored(q.profiles[0]) <==>
            forall w, t :: Reaches(q.profiles[0], w, q.tx) && Within(w, t) ==> Exact(q, w, t)
  {
    hide Anchored, SameStep, CompositeOf, StepFor, Reaches;
    var p := q.profiles[0];
    if Anchored(p) {
      forall w, t | Reaches(p, w, q.tx) && Within(w, t)
        ensures Exact(q, w, t)
      {
        CompositeIsPointwise(q, w, t);
      }
    } else {
      MissedStart(q);
      var y := MissedAt(q);
      var w := Window(y - 1, y + 1);
      assert Reaches(p, w, q.tx) && Within(w, y) && !Exact(q, w, y);
    }
  }

  /** The second at which the schedule starts, or starts over, unnoticed. */
  function MissedAt(q: Request): (r: int)
    requires Alone(q)
  {
    var p := q.profiles[0];
    var first := Anchor(p, q.tx).value;
    if PeriodAt(p.schedules[0], 0).Some? || p.kind != Recurring then first
    else first + Seconds(p.recurrency.value)
  }

  lemma MissedStart(q: Request)
    requires Alone(q) && !Anchored(q.profiles[0])
    ensures var y := MissedAt(q);
            var w := Window(y - 1, y + 1);
            Reaches(q.profiles[0], w, q.tx) && !Exact(q, w, y)
  {
    hide LimitAt, PeriodAt, Breakpoints, Repetitions, BeginsAt, FirstRepetition, ProfileLimitAt;
    var p := q.profiles[0];
    var y := MissedAt(q);
    var w := Window(y - 1, y + 1);
    MissedWindow(q, y);
    LonePoint(q, w);
    AloneSpeaks(q, y - 1);
    AloneSpeaks(q, y);
    MissedChange(q);
    assert CompositeOf(q, w) == Extend([], StepFor(q, w, y - 1), false) by {
      var raw := StepsFor(q, w, [y - 1]);
      assert raw[..0] == [];
      assert Merge(raw[..0], false) == [];
    }
  }

  /** One side of the missed second has a limit and the other has none. */
  lemma MissedChange(q: Request)
    requires Alone(q) && !Anchored(q.profiles[0])
    ensures var y := MissedAt(q);
            ProfileLimitAt(q.profiles[0], y - 1, q.tx).Some? != ProfileLimitAt(q.profiles[0], y, q.tx).Some?
  {
    hide PeriodAt, BeginsAt;
    var p, y := q.profiles[0], MissedAt(q);
    if p.kind == Recurring {
      var period := Seconds(p.recurrency.value);
      WrapBefore(period, period);
    }
  }

  /** The stacking rule has a limit exactly when the only profile does. */
  lemma AloneSpeaks(q: Request, at: int)
    requires Alone(q)
    ensures LimitAt(q, at).Some? <==> ProfileLimitAt(q.profiles[0], at, q.tx).Some?
  {
    hide ProfileLimitAt;
    forall purpose
      ensures Leading(q, purpose, at).Some? <==>
              purpose == q.profiles[0].purpose && ProfileLimitAt(q.profiles[0], at, q.tx).Some?
    {
      OwnUnit(q, at);
      LeadingIsHighest(q, purpose, at);
      assert Speaks(q, purpose, at, 0) <==>
             purpose == q.profiles[0].purpose && ProfileLimitAt(q.profiles[0], at, q.tx).Some?;
    }
  }

  lemma OwnUnit(q: Request, at: int)
    requires Alone(q)
    ensures var l := ProfileLimitAt(q.profiles[0], at, q.tx);
            l.Some? ==> l.value.unit == q.unit
  {
  }

  /** The window around the missed second has no breakpoint there. */
  lemma MissedWindow(q: Request, y: int)
    requires Alone(q) && !Anchored(q.profiles[0]) && y == MissedAt(q)
    ensures var w := Window(y - 1, y + 1);
            !Marks(q.profiles[0], w, q.tx, y) && Reaches(q.profiles[0], w, q.tx)
  {
    hide BeginsAt, FirstRepetition;
    var p, w := q.profiles[0], Window(y - 1, y + 1);
    var s, first := p.schedules[0], Anchor(p, q.tx).value;
    if p.kind == Recurring {
      var period := Seconds(p.recurrency.value);
      TwoRepetitions(first, period, y);
      assert Anchors(p, w, q.tx) == [y - period, y];
      NoBreak(s, y, period);
    } else {
      assert Anchors(p, w, q.tx) == [y];
    }
  }

  lemma NoBreak(s: Schedule, y: int, period: int)
    requires !Breaks(s, 0) && !Breaks(s, period)
    ensures !SomeBreaks(s, [y - period, y], y)
  {
    hide Breaks;
  }

  lemma TwoRepetitions(first: int, period: nat, y: int)
    requires period > 1 && (y == first || y == first + period)
    ensures FirstRepetition(first, period, y - 1) == y - period
    ensures Repetitions(y - period, period, y + 1, MAX_REPETITIONS) == [y - period, y]
  {
    if y == first {
      assert (y - 1 - first) / period == -1;
    } else {
      assert (y - 1 - first) / period == 0;
    }
    var none := Repetitions(y + period, period, y + 1, MAX_REPETITIONS - 2);
    assert Repetitions(y, period, y + 1, MAX_REPETITIONS - 1) == [y] + none;
  }

  lemma LonePoint(q: Request, w: Window)
    requires |q.profiles| == 1 && w.end == w.start + 2 && !Marks(q.profiles[0], w, q.tx, w.start + 1)
    ensures Breakpoints(q.profiles, w, q.tx) == [w.start]
  {
    var points := Breakpoints(q.profiles, w, q.tx);
    FirstPoint(q, w);
    hide Breakpoints;
    assert |points| > 1 ==> points[0] < points[1];
    forall k | 0 <= k < |points|
      ensures points[k] == w.start
    {
      assert points[k] in points;
      OnlyStart(q, w, points[k]);
    }
  }

  lemma OnlyStart(q: Request, w: Window, y: int)
    requires |q.profiles| == 1 && w.end == w.start + 2 && !Marks(q.profiles[0], w, q.tx, w.start + 1)
    requires y in Breakpoints(q.profiles, w, q.tx)
    ensures y == w.start
  {
    hide Breakpoints, SomeBreaks;
    assert forall p :: p in q.profiles ==> p == q.profiles[0];
    MarksWithin(q, w, y);
  }

  // -- past the last repetition that is walked ----------------------------------------------

  /** The second from which no repetition is walked any more. */
  function Cut(p: Profile, w: Window, tx: Option<int>): (r: int)
    requires p.kind == Recurring && Anchor(p, tx).Some?
  {
    var period := Seconds(p.recurrency.value);
    FirstRepetition(Anchor(p, tx).value, period, w.start) + MAX_REPETITIONS * period
  }

  /** A recurring profile whose steps fall within its period: past the cut the composite says for
      good what it said last. */
  lemma FrozenPastCut(q: Request, w: Window, t: int)
    requires Alone(q) && q.profiles[0].kind == Recurring
    requires WithinPeriod(q.profiles[0])
    requires t >= Cut(q.profiles[0], w, q.tx)
    ensures ReadAt(CompositeOf(q, w), t - w.start) ==
            ReadAt(CompositeOf(q, w), Cut(q.profiles[0], w, q.tx) - 1 - w.start)
  {
    hide LimitAt, Breaks, Merge, StepFor, SameStep, Cut, Breakpoints, ReadAt;
    var p := q.profiles[0];
    var cut := Cut(p, w, q.tx);
    var points := Breakpoints(q.profiles, w, q.tx);
    var raw := StepsFor(q, w, points);
    StepsRise(q, w, points);
    MergeShape(raw, false);
    var steps := CompositeOf(q, w);
    forall k | 0 <= k < |steps|
      ensures steps[k].start < cut - w.start
    {
      var i :| 0 <= i < |raw| && raw[i] == steps[k];
      assert points[i] in points;
      PointsBeforeCut(q, w, points[i]);
      StepStart(q, w, points[i]);
    }
    AllBegun(steps, t - w.start);
    AllBegun(steps, cut - 1 - w.start);
  }

  lemma StepStart(q: Request, w: Window, at: int)
    ensures StepFor(q, w, at).start == at - w.start
  {
  }

  lemma AllBegun(steps: seq<Step>, x: int)
    requires forall k :: 0 <= k < |steps| ==> steps[k].start <= x
    ensures ReadAt(steps, x) == LastOf(steps)
  {
  }

  lemma PointsBeforeCut(q: Request, w: Window, y: int)
    requires Alone(q) && q.profiles[0].kind == Recurring
    requires WithinPeriod(q.profiles[0])
    requires y in Breakpoints(q.profiles, w, q.tx)
    ensures y < Cut(q.profiles[0], w, q.tx)
  {
    hide Breaks, Repetitions, FirstRepetition, Breakpoints;
    var p := q.profiles[0];
    var period, from := Seconds(p.recurrency.value), FirstRepetition(Anchor(p, q.tx).value, Seconds(p.recurrency.value), w.start);
    RepetitionBounds(Anchor(p, q.tx).value, period, w.start);
    if y != w.start {
      var other :| other in q.profiles && Marks(other, w, q.tx, y);
      var anchors := Anchors(p, w, q.tx);
      var i :| 0 <= i < |anchors| && Breaks(p.schedules[0], y - anchors[i]);
      assert anchors[i] in anchors;
      RepetitionsBelow(from, period, w.end, MAX_REPETITIONS, anchors[i]);
    }
  }

  lemma {:induction false} RepetitionsBelow(at: int, period: nat, end: int, room: nat, a: int)
    requires a in Repetitions(at, period, end, room)
    ensures a + period <= at + room * period
    decreases room
  {
    Distribute(room - 1, 1, period);
    if a == at {
      MulMono(1, room, period);
    } else {
      RepetitionsBelow(at + period, period, end, room - 1, a);
    }
  }

  /** The steps and the end of the schedule fall within its period. */
  ghost predicate WithinPeriod(p: Profile)
    requires p.schedules != [] && p.recurrency.Some?
  {
    forall o :: Breaks(p.schedules[0], o) ==> o < Seconds(p.recurrency.value)
  }

  /** Past the cut the composite is exact if and only if the rule says there what it said in the last
      second before it. */
  lemma PastCutExactIff(q: Request, w: Window, t: int)
    requires Alone(q) && q.profiles[0].kind == Recurring && Anchored(q.profiles[0]) && WithinPeriod(q.profiles[0])
    requires Within(w, t) && t >= Cut(q.profiles[0], w, q.tx)
    ensures Exact(q, w, t) <==> SameStep(StepFor(q, w, Cut(q.profiles[0], w, q.tx) - 1), StepFor(q, w, t))
  {
    hide LimitAt, Breaks, SameStep, Anchored, CompositeOf, StepFor, FirstRepetition;
    var p := q.profiles[0];
    var cut := Cut(p, w, q.tx);
    var v := Window(w.start, cut);
    RepetitionBounds(Anchor(p, q.tx).value, Seconds(p.recurrency.value), w.start);
    FrozenPastCut(q, w, t);
    SameUpToCut(q, w);
    CompositeIsPointwise(q, v, cut - 1);
    SameWindowStart(q, w, v, cut - 1);
    var r, a, b := ReadAt(CompositeOf(q, w), cut - 1 - w.start), StepFor(q, w, cut - 1), StepFor(q, w, t);
    SameStepJoins(r, a, b);
    SameStepJoins(a, r, b);
  }

  lemma SameWindowStart(q: Request, w: Window, v: Window, at: int)
    requires v.start == w.start
    ensures StepFor(q, v, at) == StepFor(q, w, at)
  {
    hide LimitAt;
  }

  /** Nothing past the cut adds to the schedule. */
  lemma SameUpToCut(q: Request, w: Window)
    requires Alone(q) && q.profiles[0].kind == Recurring && WithinPeriod(q.profiles[0])
    requires w.end >= Cut(q.profiles[0], w, q.tx)
    ensures CompositeOf(q, w) == CompositeOf(q, Window(w.start, Cut(q.profiles[0], w, q.tx)))
  {
    hide LimitAt, Breaks, Merge, Breakpoints, FirstRepetition;
    var v := Window(w.start, Cut(q.profiles[0], w, q.tx));
    SamePoints(q, w, v);
    var points := Breakpoints(q.profiles, w, q.tx);
    assert StepsFor(q, w, points) == StepsFor(q, v, points);
  }

  lemma SamePoints(q: Request, w: Window, v: Window)
    requires Alone(q) && q.profiles[0].kind == Recurring && WithinPeriod(q.profiles[0])
    requires w.end >= v.end && v == Window(w.start, Cut(q.profiles[0], w, q.tx))
    ensures Breakpoints(q.profiles, w, q.tx) == Breakpoints(q.profiles, v, q.tx)
  {
    hide Breaks, Repetitions, FirstRepetition, Breakpoints, SomeBreaks;
    var p := q.profiles[0];
    var period := Seconds(p.recurrency.value);
    SameRepetitions(FirstRepetition(Anchor(p, q.tx).value, period, w.start), period, w.end, v.end, MAX_REPETITIONS);
    var a, b := Breakpoints(q.profiles, w, q.tx), Breakpoints(q.profiles, v, q.tx);
    assert forall x :: x in q.profiles <==> x == p;
    forall y
      ensures y in a <==> y in b
    {
      if y in a {
        PointsBeforeCut(q, w, y);
      }
      assert Marks(p, v, q.tx, y) ==> Marks(p, w, q.tx, y);
      assert Marks(p, w, q.tx, y) && y < v.end ==> Marks(p, v, q.tx, y);
    }
    AscendingUnique(a, b);
  }

  lemma {:induction false} SameRepetitions(at: int, period: nat, end: int, other: int, room: nat)
    requires period > 0 && end >= at + room * period && other >= at + room * period
    ensures Repetitions(at, period, end, room) == Repetitions(at, period, other, room)
    decreases room
  {
    if room > 0 {
      Distribute(room - 1, 1, period);
      MulMono(1, room, period);
      SameRepetitions(at + period, period, end, other, room - 1);
    }
  }

  /** An ascending list is determined by its members. */
  lemma {:induction false} AscendingUnique(a: seq<int>, b: seq<int>)
    requires Ascending(a) && Ascending(b) && forall y :: y in a <==> y in b
    ensures a == b
  {
    assert a != [] ==> a[0] in a;
    assert b != [] ==> b[0] in b;
    if a != [] && b != [] {
      var x, c, d := a[|a| - 1], a[..|a| - 1], b[..|b| - 1];
      SameLast(a, b);
      forall y
        ensures y in c <==> y in d
      {
        WithoutLast(a, x, y);
        WithoutLast(b, x, y);
      }
      AscendingUnique(c, d);
      assert a == c + [x] && b == d + [x];
    }
  }

  lemma SameLast(a: seq<int>, b: seq<int>)
    requires Ascending(a) && Ascending(b) && a != [] && b != [] && forall y :: y in a <==> y in b
    ensures a[|a| - 1] == b[|b| - 1]
  {
    assert a[|a| - 1] in a && b[|b| - 1] in b;
  }

  lemma WithoutLast(a: seq<int>, x: int, y: int)
    requires Ascending(a) && a != [] && x == a[|a| - 1]
    ensures y in a[..|a| - 1] <==> y in a && y != x
  {
    var c := a[..|a| - 1];
    if y in a && y != x {
      var i :| 0 <= i < |a| && a[i] == y;
      assert c[i] == y;
    }
  }

  // -- an input past the cut ----------------------------------------------------------------

  /** Every day ten, and from its hundredth second twenty. */
  const EVERY_DAY := Profile(0, TxDefaultProfile, Recurring, Some(Daily), None, None, None, 0,
    [Schedule(Some(0), None, A, [Period(0, Decimal(10, 0), None), Period(100, Decimal(20, 0), None)])])

  const ASKED := Request([EVERY_DAY], Supply(Decimal(230, 0), 3), A, None)

  const LONG_WINDOW := Window(0, 4097 * 86_400)

  /** The first second of day 4096: the rule says ten, the composite still twenty. */
  lemma PastCutCanMiss()
    ensures !Exact(ASKED, LONG_WINDOW, 4096 * 86_400)
  {
    hide Exact, Compare, StepFor, SameStep, Alone, Anchored, WithinPeriod, Cut, ProfileLimitAt;
    var q, w, t := ASKED, LONG_WINDOW, 4096 * 86_400;
    EveryDayRepeats();
    PastCutExactIff(q, w, t);
    LastSecond(EVERY_DAY.schedules[0]);
    FirstSecond(EVERY_DAY.schedules[0]);
    TenAndTwenty(q, w, t);
  }

  lemma EveryDayRepeats()
    ensures Alone(ASKED) && Anchored(EVERY_DAY) && WithinPeriod(EVERY_DAY)
    ensures Cut(EVERY_DAY, LONG_WINDOW, None) == 4096 * 86_400
  {
    hide Anchored, WithinPeriod, FirstRepetition;
    EveryDayAnchored();
    EveryDayWithin();
    FromTheStart();
  }

  lemma EveryDayAnchored()
    ensures Anchored(EVERY_DAY)
  {
    hide PeriodAt;
    assert EVERY_DAY.schedules[0].periods[0].start == 0;
  }

  lemma EveryDayWithin()
    ensures WithinPeriod(EVERY_DAY)
  {
  }

  lemma FromTheStart()
    ensures FirstRepetition(0, 86_400, 0) == 0
  {
  }

  lemma TenAndTwenty(q: Request, w: Window, t: int)
    requires Alone(q)
    requires ProfileLimitAt(q.profiles[0], t - 1, q.tx) == Some(Limit(Decimal(20, 0), A, None))
    requires ProfileLimitAt(q.profiles[0], t, q.tx) == Some(Limit(Decimal(10, 0), A, None))
    ensures !SameStep(StepFor(q, w, t - 1), StepFor(q, w, t))
  {
    hide LimitAt, ProfileLimitAt, Compare, Alone;
    AloneLimit(q, t - 1);
    AloneLimit(q, t);
    TenIsNotTwenty();
  }

  lemma LastSecond(s: Schedule)
    requires s == EVERY_DAY.schedules[0]
    ensures ProfileLimitAt(EVERY_DAY, 4096 * 86_400 - 1, None) == Some(Limit(Decimal(20, 0), A, None))
  {
    assert (4096 * 86_400 - 1 - 0) % 86_400 == 86_399;
    assert LastBegun(s.periods, 86_399) == Some(s.periods[1]);
  }

  lemma FirstSecond(s: Schedule)
    requires s == EVERY_DAY.schedules[0]
    ensures ProfileLimitAt(EVERY_DAY, 4096 * 86_400, None) == Some(Limit(Decimal(10, 0), A, None))
  {
    assert (4096 * 86_400 - 0) % 86_400 == 0;
    assert s.periods[..1] == [s.periods[0]];
    assert LastBegun(s.periods[..1], 0) == Some(s.periods[0]);
    assert LastBegun(s.periods, 0) == Some(s.periods[0]);
  }

  lemma TenIsNotTwenty()
    ensures Compare(Decimal(20, 0), Decimal(10, 0)) != Equal
  {
    assert Pow10(0) == 1;
  }

  /** A profile on its own imposes what it says. */
  lemma AloneLimit(q: Request, at: int)
    requires Alone(q) && ProfileLimitAt(q.profiles[0], at, q.tx).Some?
    ensures var l := ProfileLimitAt(q.profiles[0], at, q.tx).value;
            LimitAt(q, at) == Some(Effective(l.value, l.phases))
  {
    hide ProfileLimitAt;
    var l := ProfileLimitAt(q.profiles[0], at, q.tx).value;
    OwnUnit(q, at);
    forall purpose
      ensures Leading(q, purpose, at) ==
              if purpose == q.profiles[0].purpose then Some(Effective(l.value, l.phases)) else None
    {
      LeadingIsHighest(q, purpose, at);
      assert Speaks(q, purpose, at, 0) <==> purpose == q.profiles[0].purpose;
    }
  }

  // -- a gap at the front -------------------------------------------------------------------

  /** Ten from the hundredth second on. */
  const LATER := Profile(0, TxDefaultProfile, Absolute, None, None, None, None, 0,
    [Schedule(Some(100), None, A, [Period(0, Decimal(10, 0), None)])])

  const ASKED_EARLY := Request([LATER], Supply(Decimal(230, 0), 3), A, None)

  /** Asked from second zero, the schedule says nothing before second one hundred, filled or not. */
  lemma GapAtFront(rated: Decimal)
    ensures ReadAt(Merge(FilledAll(CompositeOf(ASKED_EARLY, Window(0, 200)), rated), true), 0).limit == None
    ensures LimitAt(ASKED_EARLY, 100) == Some(Effective(Decimal(10, 0), None))
  {
    hide CompositeOf, Merge, ReadAt, LimitAt;
    LaterSweeps();
    AloneSpeaks(ASKED_EARLY, 0);
    AloneLimit(ASKED_EARLY, 100);
    LeadingGapStaysIff(ASKED_EARLY, Window(0, 200), rated);
  }

  lemma LaterSweeps()
    ensures Alone(ASKED_EARLY) && Sweepable(ASKED_EARLY, Window(0, 200))
    ensures ProfileLimitAt(LATER, 0, None) == None
    ensures ProfileLimitAt(LATER, 100, None) == Some(Limit(Decimal(10, 0), A, None))
  {
    var s := LATER.schedules[0];
    assert s.periods[0].start == 0;
    assert LastBegun(s.periods, 0) == Some(s.periods[0]);
  }
}
