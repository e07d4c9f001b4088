/** The composite schedule equals the stacking rule at every second of the window. */
module CompositeTheorems {
  import opened Basics
  import opened Decimals
  import opened Charging
  import opened CompositeSchedule

  // -- what the breakpoints need ------------------------------------------------------------

  /** Where a schedule starts, or starts over, it either has a breakpoint or nothing to say. */
  ghost predicate Anchored(p: Profile)
  {
    p.schedules == [] ||
    var s := p.schedules[0];
    if p.kind == Recurring && p.recurrency.Some? then
      var period := Seconds(p.recurrency.value);
      || BeginsAt(s.periods, 0)
      || Breaks(s, period)
      || (PeriodAt(s, 0).None? && PeriodAt(s, period - 1).None?)
    else BeginsAt(s.periods, 0) || PeriodAt(s, 0).None?
  }

  /** The repetitions the window needs are not cut short. */
  predicate Reaches(p: Profile, w: Window, tx: Option<int>)
  {
    p.kind == Recurring && Anchor(p, tx).Some? ==>
      var period := Seconds(p.recurrency.value);
      w.end <= FirstRepetition(Anchor(p, tx).value, period, w.start) + MAX_REPETITIONS * period
  }

  ghost predicate Sweepable(q: Request, w: Window)
  {
    forall i :: 0 <= i < |q.profiles| ==> Anchored(q.profiles[i]) && Reaches(q.profiles[i], w, q.tx)
  }

  /** The conditions a well-formed request meets: steps start at zero or later, a recurring schedule
      has one that starts at zero, and the window spans at most 4095 repetitions. */
  lemma UsualProfilesSweep(p: Profile, w: Window, tx: Option<int>)
    requires p.schedules != []
    requires forall i :: 0 <= i < |p.schedules[0].periods| ==> p.schedules[0].periods[i].start >= 0
    requires p.kind == Recurring ==> BeginsAt(p.schedules[0].periods, 0)
    requires p.kind == Recurring && p.recurrency.Some? ==> w.end - w.start <= 4095 * Seconds(p.recurrency.value)
    ensures Anchored(p) && Reaches(p, w, tx)
  {
    var s := p.schedules[0];
    if p.kind == Recurring {
      if Anchor(p, tx).Some? {
        RepetitionBounds(Anchor(p, tx).value, Seconds(p.recurrency.value), w.start);
      }
    } else if !BeginsAt(s.periods, 0) {
      NoneBegun(s.periods, 0);
    }
  }

  lemma RepetitionBounds(first: int, period: nat, start: int)
    requires period > 0
    ensures var r := FirstRepetition(first, period, start); r <= start < r + period
  {
    var x := start - first;
    assert x == (x / period) * period + x % period;
  }

  lemma {:induction false} NoneBegun(periods: seq<Period>, offset: int)
    requires forall i :: 0 <= i < |periods| ==> periods[i].start > offset
    ensures LastBegun(periods, offset) == None
  {
    if periods != [] {
      NoneBegun(periods[..|periods| - 1], offset);
    }
  }

  // -- one profile changes only at its breakpoints ------------------------------------------

  lemma {:induction false} SameBegun(periods: seq<Period>, offset: int)
    requires !BeginsAt(periods, offset)
    ensures LastBegun(periods, offset) == LastBegun(periods, offset - 1)
  {
    if periods != [] {
      var front, last := periods[..|periods| - 1], periods[|periods| - 1];
      assert forall i :: 0 <= i < |front| ==> front[i] == periods[i];
      SameBegun(front, offset);
      assert last == periods[|periods| - 1] && last.start != offset;
    }
  }

  lemma SamePeriod(s: Schedule, offset: int)
    requires offset > 0 && !Breaks(s, offset)
    ensures PeriodAt(s, offset) == PeriodAt(s, offset - 1)
  {
    SameBegun(s.periods, offset);
  }

  /** Every repetition of the window that starts before its end is among the anchors. */
  lemma {:induction false} InRepetitions(at: int, period: nat, end: int, room: nat, j: nat)
    requires period > 0 && j < room && at + j * period < end
    ensures at + j * period in Repetitions(at, period, end, room)
    decreases room
  {
    Distribute(j - 1, 1, period);
    if j > 0 {
      MulMono(1, j, period);
      InRepetitions(at + period, period, end, room - 1, j - 1);
    }
  }

  lemma RepetitionFound(first: int, period: nat, w: Window, m: int)
    requires period > 0
    requires w.end <= FirstRepetition(first, period, w.start) + MAX_REPETITIONS * period
    requires FirstRepetition(first, period, w.start) <= first + m * period < w.end
    ensures first + m * period in Repetitions(FirstRepetition(first, period, w.start), period, w.end, MAX_REPETITIONS)
  {
    hide Repetitions;
    var k := (w.start - first) / period;
    ScaleOrder(k, m, period);
    Distribute(m - k, k, period);
    ScaleOrder(MAX_REPETITIONS, m - k, period);
    InRepetitions(first + k * period, period, w.end, MAX_REPETITIONS, m - k);
  }

  lemma BreakSeen(s: Schedule, anchors: seq<int>, a: int, y: int)
    requires a in anchors && Breaks(s, y - a)
    ensures SomeBreaks(s, anchors, y)
  {
    var i :| 0 <= i < |anchors| && anchors[i] == a;
  }

  /** Between two seconds with no breakpoint at the second, a profile says the same. */
  lemma ChangesOnlyAtMarks(p: Profile, w: Window, tx: Option<int>, y: int)
    requires Anchored(p) && Reaches(p, w, tx)
    requires w.start < y < w.end && !Marks(p, w, tx, y)
    ensures ProfileLimitAt(p, y - 1, tx) == ProfileLimitAt(p, y, tx)
  {
    hide PeriodAt, Breaks, BeginsAt, SomeBreaks, Repetitions, FirstRepetition;
    assert ValidAt(p, y - 1) == ValidAt(p, y);
    var a := Anchor(p, tx);
    if a.Some? && a.value <= y {
      if p.kind == Recurring {
        RecurringSame(p, w, tx, y);
      } else {
        OnceSame(p, w, tx, y);
      }
    }
  }

  /** What the schedule says at an instant, the validity window aside. */
  function Said(p: Profile, at: int, tx: Option<int>): (r: Option<Period>)
  {
    match OffsetAt(p, at, tx)
    case None => None
    case Some(offset) => PeriodAt(p.schedules[0], offset)
  }

  lemma OnceSame(p: Profile, w: Window, tx: Option<int>, y: int)
    requires Anchored(p) && p.kind != Recurring && Anchor(p, tx).Some? && Anchor(p, tx).value <= y
    requires w.start < y < w.end && !SomeBreaks(p.schedules[0], Anchors(p, w, tx), y)
    ensures Said(p, y - 1, tx) == Said(p, y, tx)
  {
    hide PeriodAt, BeginsAt, SomeBreaks;
    var s, a := p.schedules[0], Anchor(p, tx).value;
    if Breaks(s, y - a) {
      BreakSeen(s, [a], a, y);
      assert false;
    }
    if a < y {
      SamePeriod(s, y - a);
    }
  }

  lemma RecurringSame(p: Profile, w: Window, tx: Option<int>, y: int)
    requires Anchored(p) && Reaches(p, w, tx)
    requires p.kind == Recurring && Anchor(p, tx).Some? && Anchor(p, tx).value <= y
    requires w.start < y < w.end && !SomeBreaks(p.schedules[0], Anchors(p, w, tx), y)
    ensures Said(p, y - 1, tx) == Said(p, y, tx)
  {
    hide PeriodAt, BeginsAt, SomeBreaks, Breaks;
    var s, first, period := p.schedules[0], Anchor(p, tx).value, Seconds(p.recurrency.value);
    var m, o := (y - first) / period, (y - first) % period;
    RepetitionHolds(p, w, tx, y, m);
    if o > 0 {
      OffsetBefore(y - first, period);
      assert !Breaks(s, o);
      SamePeriod(s, o);
    } else {
      BreaksAtStart(s);
      assert !Breaks(s, 0) && !Breaks(s, period);
      if first < y {
        WrapBefore(y - first, period);
      }
    }
  }

  lemma BreaksAtStart(s: Schedule)
    ensures BeginsAt(s.periods, 0) ==> Breaks(s, 0)
  {
  }

  /** No breakpoint at `y` means none at its offset into the repetition it falls in, nor, where a
      repetition starts, at the end of the one before. */
  lemma RepetitionHolds(p: Profile, w: Window, tx: Option<int>, y: int, m: int)
    requires Reaches(p, w, tx) && p.kind == Recurring && Anchor(p, tx).Some?
    requires w.start < y < w.end && !SomeBreaks(p.schedules[0], Anchors(p, w, tx), y)
    requires m == (y - Anchor(p, tx).value) / Seconds(p.recurrency.value)
    ensures var o := (y - Anchor(p, tx).value) % Seconds(p.recurrency.value);
            !Breaks(p.schedules[0], o) && (o == 0 ==> !Breaks(p.schedules[0], Seconds(p.recurrency.value)))
  {
    hide PeriodAt, BeginsAt, SomeBreaks, Breaks, Repetitions;
    var s, first, period := p.schedules[0], Anchor(p, tx).value, Seconds(p.recurrency.value);
    var o := (y - first) % period;
    InWindow(first, period, w, y);
    RepetitionFound(first, period, w, m);
    var anchors := Anchors(p, w, tx);
    if Breaks(s, o) {
      BreakSeen(s, anchors, first + m * period, y);
      assert false;
    }
    if o == 0 {
      RepetitionFound(first, period, w, m - 1);
      if Breaks(s, period) {
        BreakSeen(s, anchors, first + (m - 1) * period, y);
        assert false;
      }
    }
  }

  /** The repetition `y` falls in is one the window needs, and so is the one before when `y` is
      where it starts. */
  lemma InWindow(first: int, period: nat, w: Window, y: int)
    requires period > 0 && w.start < y < w.end
    ensures var m, o := (y - first) / period, (y - first) % period;
            && y == first + m * period + o
            && FirstRepetition(first, period, w.start) <= first + m * period <= y
            && (o == 0 ==>
                  && y == first + (m - 1) * period + period
                  && FirstRepetition(first, period, w.start) <= first + (m - 1) * period)
  {
    var m, o := (y - first) / period, (y - first) % period;
    var k := (w.start - first) / period;
    assert y - first == m * period + o;
    LaterRepetition(k, m, period, w.start - first, y - first);
    Distribute(m - 1, 1, period);
  }

  lemma LaterRepetition(k: int, m: int, period: nat, x: int, y: int)
    requires period > 0 && x < y && k == x / period && m == y / period
    ensures k * period <= m * period
    ensures y % period == 0 ==> k * period <= (m - 1) * period
  {
    assert x == k * period + x % period;
    assert y == m * period + y % period;
    if m < k {
      MulMono(m + 1, k, period);
      Distribute(m, 1, period);
    } else {
      MulMono(k, m, period);
      if y % period == 0 {
        ScaleOrder(m, k, period);
        MulMono(k, m - 1, period);
      }
    }
  }

  lemma OffsetBefore(x: int, period: nat)
    requires period > 0 && x % period > 0
    ensures (x - 1) % period == x % period - 1
  {
    QuotientUnique(x - 1, period, x / period, x % period - 1);
  }

  lemma WrapBefore(x: int, period: nat)
    requires period > 0 && x % period == 0
    ensures (x - 1) % period == period - 1
  {
    Distribute(x / period - 1, 1, period);
    QuotientUnique(x - 1, period, x / period - 1, period - 1);
  }

  lemma QuotientUnique(x: int, period: nat, q: int, r: int)
    requires period > 0 && x == q * period + r && 0 <= r < period
    ensures x % period == r
  {
    var gap := q - x / period;
    assert x == (x / period) * period + x % period;
    Distribute(gap, x / period, period);
    if gap > 0 {
      MulMono(1, gap, period);
    } else if gap < 0 {
      MulMono(gap, -1, period);
    }
  }

  // -- merging steps keeps what they say ----------------------------------------------------

  ghost predicate Rising(steps: seq<Step>)
  {
    forall i, j :: 0 <= i < j < |steps| ==> steps[i].start < steps[j].start
  }

  /** No two neighbours say the same. */
  ghost predicate Merged(steps: seq<Step>)
  {
    forall i :: 0 < i < |steps| ==> !SameStep(steps[i - 1], steps[i])
  }

  const GAP := Step(0, None, None)

  /** What a schedule says `x` seconds into its window: its last step that has begun. */
  function ReadAt(steps: seq<Step>, x: int): (r: Step)
  {
    if steps == [] then GAP
    else if steps[|steps| - 1].start <= x then steps[|steps| - 1]
    else ReadAt(steps[..|steps| - 1], x)
  }

  /** A step without a limit names no phases. */
  ghost predicate Plain(raw: seq<Step>)
  {
    forall k :: 0 <= k < |raw| && raw[k].limit.None? ==> raw[k].phases.None?
  }

  function LastOf(steps: seq<Step>): (r: Step)
  {
    if steps == [] then GAP else steps[|steps| - 1]
  }

  lemma SameStepJoins(a: Step, b: Step, c: Step)
    ensures SameStep(a, a)
    ensures SameStep(a, b) ==> SameStep(b, a)
    ensures SameStep(a, b) && SameStep(b, c) ==> SameStep(a, c)
  {
    hide Units, Compare;
    if a.limit.Some? {
      CompareIsNumeric(a.limit.value, a.limit.value);
    }
    if a.limit.Some? && b.limit.Some? {
      CompareIsNumeric(a.limit.value, b.limit.value);
      CompareIsNumeric(b.limit.value, a.limit.value);
    }
    if a.limit.Some? && b.limit.Some? && c.limit.Some? {
      CompareIsNumeric(b.limit.value, c.limit.value);
      CompareIsNumeric(a.limit.value, c.limit.value);
    }
  }

  /** Merged steps rise, have no equal neighbours, start with a limit unless told otherwise, and end
      saying what the last raw step says. */
  lemma {:induction false} MergeShape(raw: seq<Step>, leadingGap: bool)
    requires Rising(raw) && Plain(raw)
    ensures Shaped(raw, Merge(raw, leadingGap), leadingGap)
  {
    hide SameStep, Extend, Shaped;
    if raw == [] {
      ShapedNothing(leadingGap);
    } else {
      var front, last := raw[..|raw| - 1], raw[|raw| - 1];
      MergeShape(front, leadingGap);
      assert raw == front + [last];
      ExtendShape(front, Merge(front, leadingGap), last, leadingGap);
    }
  }

  ghost predicate Shaped(raw: seq<Step>, steps: seq<Step>, leadingGap: bool)
  {
    && Rising(steps) && Merged(steps)
    && (steps != [] ==> raw != [] && steps[|steps| - 1].start <= raw[|raw| - 1].start)
    && (steps != [] && !leadingGap ==> steps[0].limit.Some?)
    && (forall k :: 0 <= k < |steps| ==> steps[k] in raw)
    && SameStep(LastOf(steps), LastOf(raw))
  }

  lemma ShapedNothing(leadingGap: bool)
    ensures Shaped([], [], leadingGap)
  {
  }

  lemma ExtendShape(raw: seq<Step>, steps: seq<Step>, step: Step, leadingGap: bool)
    requires Shaped(raw, steps, leadingGap) && Rising(raw + [step]) && Plain(raw + [step])
    ensures Shaped(raw + [step], Extend(steps, step, leadingGap), leadingGap)
  {
    hide SameStep, Plain, Rising;
    var all := raw + [step];
    if raw != [] {
      LastRises(raw, step);
    }
    SameStepJoins(step, step, step);
    if steps != [] && SameStep(LastOf(steps), step) {
      StillDrawn(raw, steps, step);
    } else if steps == [] && step.limit.None? && !leadingGap {
      GapIn(all, |raw|);
    } else {
      StillDrawn(raw, steps, step);
      RisingOn(steps, step);
      assert LastOf(steps + [step]) == step == LastOf(all);
    }
  }

  lemma LastRises(raw: seq<Step>, step: Step)
    requires Rising(raw + [step]) && raw != []
    ensures raw[|raw| - 1].start < step.start
  {
    var all := raw + [step];
    assert all[|raw| - 1].start < all[|raw|].start;
  }

  lemma StillDrawn(raw: seq<Step>, steps: seq<Step>, step: Step)
    requires forall k :: 0 <= k < |steps| ==> steps[k] in raw
    ensures forall k :: 0 <= k < |steps| ==> steps[k] in raw + [step]
  {
  }

  lemma RisingOn(steps: seq<Step>, step: Step)
    requires Rising(steps) && (steps != [] ==> steps[|steps| - 1].start < step.start)
    ensures Rising(steps + [step])
  {
  }

  lemma GapIn(raw: seq<Step>, k: nat)
    requires k < |raw| && Plain(raw) && raw[k].limit.None?
    ensures SameStep(GAP, raw[k])
  {
    GapSaysNothing(raw[k]);
  }

  lemma GapSaysNothing(step: Step)
    requires step.limit.None? && step.phases.None?
    ensures SameStep(GAP, step)
  {
  }

  /** Merging changes nothing anyone can read off the schedule. */
  lemma {:induction false} MergeReads(raw: seq<Step>, leadingGap: bool, x: int)
    requires Rising(raw) && Plain(raw)
    ensures SameStep(ReadAt(Merge(raw, leadingGap), x), ReadAt(raw, x))
  {
    hide SameStep;
    SameStepJoins(GAP, GAP, GAP);
    if raw != [] {
      var front, last := raw[..|raw| - 1], raw[|raw| - 1];
      var steps := Merge(raw, leadingGap);
      MergeShape(raw, leadingGap);
      if last.start <= x {
        assert steps != [] ==> ReadAt(steps, x) == LastOf(steps);
      } else {
        MergeReads(front, leadingGap, x);
        var before := Merge(front, leadingGap);
        assert steps == before || (steps == before + [last] && steps[..|steps| - 1] == before);
      }
    }
  }

  // -- the sweep equals the rule at every second --------------------------------------------

  function LastPoint(points: seq<int>, t: int): (r: int)
    requires Ascending(points) && points != [] && points[0] <= t
    ensures r in points && r <= t
    ensures forall p :: p in points && p <= t ==> p <= r
  {
    if points[|points| - 1] <= t then points[|points| - 1]
    else
      assert points == points[..|points| - 1] + [points[|points| - 1]];
      LastPoint(points[..|points| - 1], t)
  }

  lemma {:induction false} RawReads(q: Request, w: Window, points: seq<int>, t: int)
    requires Ascending(points) && points != [] && points[0] <= t
    ensures ReadAt(StepsFor(q, w, points), t - w.start) == StepFor(q, w, LastPoint(points, t))
  {
    hide LimitAt;
    if points[|points| - 1] > t {
      var front := points[..|points| - 1];
      assert StepsFor(q, w, points)[..|front|] == StepsFor(q, w, front);
      RawReads(q, w, front, t);
    }
  }

  lemma StepsRise(q: Request, w: Window, points: seq<int>)
    requires Ascending(points)
    ensures Rising(StepsFor(q, w, points)) && Plain(StepsFor(q, w, points))
  {
    hide LimitAt;
  }

  /** With no breakpoint in between, the rule gives the same limit. */
  lemma {:induction false} ConstantBetween(q: Request, w: Window, b: int, t: int)
    requires Sweepable(q, w) && w.start <= b <= t < w.end
    requires forall y :: b < y <= t ==> y !in Breakpoints(q.profiles, w, q.tx)
    ensures LimitAt(q, b) == LimitAt(q, t)
    decreases t - b
  {
    hide LimitAt, ProfileLimitAt, Marks, Anchored, Reaches;
    if b < t {
      ConstantBetween(q, w, b, t - 1);
      forall i | 0 <= i < |q.profiles|
        ensures ProfileLimitAt(q.profiles[i], t - 1, q.tx) == ProfileLimitAt(q.profiles[i], t, q.tx)
      {
        var p := q.profiles[i];
        assert p in q.profiles;
        assert t !in Breakpoints(q.profiles, w, q.tx);
        ChangesOnlyAtMarks(p, w, q.tx, t);
      }
      SameWordsSameLimit(q, t - 1, t);
    }
  }

  lemma FirstPoint(q: Request, w: Window)
    ensures var points := Breakpoints(q.profiles, w, q.tx); points != [] && points[0] == w.start
  {
    var points := Breakpoints(q.profiles, w, q.tx);
    assert w.start in points;
    assert points[0] in points;
  }

  /** The composite schedule the sweep answers with. */
  function CompositeOf(q: Request, w: Window): (r: seq<Step>)
  {
    Sweep(q, w, Breakpoints(q.profiles, w, q.tx))
  }

  /** At every second of the window the composite schedule says, as a number and in phases, what the
      stacking rule says. */
  lemma CompositeIsPointwise(q: Request, w: Window, t: int)
    requires Sweepable(q, w) && Within(w, t)
    ensures SameStep(ReadAt(CompositeOf(q, w), t - w.start), StepFor(q, w, t))
  {
    hide Breakpoints, LimitAt, SameStep, Sweepable, Merge;
    var points := Breakpoints(q.profiles, w, q.tx);
    FirstPoint(q, w);
    StepsRise(q, w, points);
    MergeReads(StepsFor(q, w, points), false, t - w.start);
    RawReads(q, w, points, t);
    var b := LastPoint(points, t);
    ConstantBetween(q, w, b, t);
    SameSaid(StepFor(q, w, b), StepFor(q, w, t), ReadAt(CompositeOf(q, w), t - w.start));
  }

  lemma SameSaid(a: Step, b: Step, c: Step)
    requires a.limit == b.limit && a.phases == b.phases && SameStep(c, a)
    ensures SameStep(c, b)
  {
  }

  /** Its steps strictly increase within the window, differ from their neighbours, and the first one
      carries a limit. */
  lemma CompositeShape(q: Request, w: Window)
    ensures var steps := CompositeOf(q, w);
            && Rising(steps) && Merged(steps)
            && (steps != [] ==> steps[0].limit.Some?)
            && forall k :: 0 <= k < |steps| ==> steps[k].start == 0 || 0 < steps[k].start < w.end - w.start
  {
    hide LimitAt, SameStep, Merge, Marks;
    var points := Breakpoints(q.profiles, w, q.tx);
    var raw := StepsFor(q, w, points);
    StepsRise(q, w, points);
    MergeShape(raw, false);
    var steps := CompositeOf(q, w);
    forall k | 0 <= k < |steps|
      ensures steps[k].start == 0 || 0 < steps[k].start < w.end - w.start
    {
      var i :| 0 <= i < |raw| && raw[i] == steps[k];
      assert points[i] in points;
      MarksWithin(q, w, points[i]);
    }
  }

  lemma MarksWithin(q: Request, w: Window, y: int)
    requires y in Breakpoints(q.profiles, w, q.tx)
    ensures y == w.start || Within(w, y)
  {
  }

  /** Filling the gaps leaves every step with a limit and every limit where it was; what had no step
      at all still has none. */
  lemma FillGapsReads(steps: seq<Step>, rated: Decimal, x: int)
    requires Rising(steps)
    ensures var r := Merge(FilledAll(steps, rated), true);
            && Rising(r) && Merged(r)
            && (forall k :: 0 <= k < |r| ==> r[k].limit.Some?)
            && SameStep(ReadAt(r, x),
                        if steps == [] || x < steps[0].start then GAP else Filled(ReadAt(steps, x), rated))
  {
    hide SameStep, Merge;
    var filled := FilledAll(steps, rated);
    MergeShape(filled, true);
    MergeReads(filled, true, x);
    FilledReads(steps, rated, x);
  }

  lemma {:induction false} FilledReads(steps: seq<Step>, rated: Decimal, x: int)
    requires Rising(steps)
    ensures ReadAt(FilledAll(steps, rated), x) ==
            if steps == [] || x < steps[0].start then GAP else Filled(ReadAt(steps, x), rated)
  {
    if steps != [] && steps[|steps| - 1].start > x {
      var front := steps[..|steps| - 1];
      assert FilledAll(steps, rated)[..|front|] == FilledAll(front, rated);
      FilledReads(front, rated, x);
    }
  }

  /** A window that starts without a limit still does after filling, and no other does. */
  lemma LeadingGapStaysIff(q: Request, w: Window, rated: Decimal)
    requires Sweepable(q, w) && w.start < w.end
    ensures ReadAt(Merge(FilledAll(CompositeOf(q, w), rated), true), 0).limit == None <==> LimitAt(q, w.start) == None
  {
    hide Sweepable, CompositeOf, LimitAt, Merge, ReadAt;
    var steps := CompositeOf(q, w);
    CompositeShape(q, w);
    CompositeIsPointwise(q, w, w.start);
    FillGapsReads(steps, rated, 0);
    FrontRead(steps);
  }

  /** What a schedule says at once is its first step, if that starts at once. */
  lemma FrontRead(steps: seq<Step>)
    requires Rising(steps) && forall k :: 0 <= k < |steps| ==> steps[k].start >= 0
    ensures ReadAt(steps, 0) == if steps != [] && steps[0].start == 0 then steps[0] else GAP
  {
    if |steps| > 1 {
      var front := steps[..|steps| - 1];
      assert forall k :: 0 <= k < |front| ==> front[k] == steps[k];
      FrontRead(front);
    }
  }
}
