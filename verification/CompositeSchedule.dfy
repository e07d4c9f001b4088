/** The composite schedule: a sweep over breakpoints instead of every second
    (src/station/smart_charging.rs). */
module CompositeSchedule {
  import opened Basics
  import opened Decimals
  import opened Charging

  /** The seconds asked for: `[start, end)`. */
  datatype Window = Window(start: int, end: int)

  predicate Within(w: Window, at: int) { w.start <= at < w.end }

  const MAX_REPETITIONS: nat := 4096

  // -- the breakpoints, an ordered set ------------------------------------------------------

  predicate Ascending(s: seq<int>)
  {
    forall i, j :: 0 <= i < j < |s| ==> s[i] < s[j]
  }

  function Insert(s: seq<int>, x: int): (r: seq<int>)
    requires Ascending(s)
    ensures Ascending(r)
    ensures forall y :: y in r <==> y in s || y == x
  {
    if s == [] then [x]
    else
      var front, last := s[..|s| - 1], s[|s| - 1];
      assert s == front + [last];
      if last < x then s + [x]
      else if last == x then s
      else
        var below := Insert(front, x);
        AllBelow(s, below, x);
        below + [last]
  }

  lemma AllBelow(s: seq<int>, below: seq<int>, x: int)
    requires Ascending(s) && s != [] && x < s[|s| - 1] && Ascending(below)
    requires forall y :: y in below <==> y in s[..|s| - 1] || y == x
    ensures Ascending(below + [s[|s| - 1]])
  {
    var front, last := s[..|s| - 1], s[|s| - 1];
    forall i | 0 <= i < |below|
      ensures below[i] < last
    {
      assert below[i] in below;
      if below[i] in front {
        var k :| 0 <= k < |front| && front[k] == below[i];
        assert s[k] == below[i];
      }
    }
  }

  function AddPoint(points: seq<int>, w: Window, at: int): (r: seq<int>)
    requires Ascending(points)
    ensures Ascending(r)
    ensures forall y :: y in r <==> y in points || (y == at && Within(w, at))
  {
    if Within(w, at) then Insert(points, at) else points
  }

  function AddOptional(points: seq<int>, w: Window, at: Option<int>): (r: seq<int>)
    requires Ascending(points)
    ensures Ascending(r)
    ensures forall y :: y in r <==> y in points || (at == Some(y) && Within(w, y))
  {
    if at.Some? then AddPoint(points, w, at.value) else points
  }

  /** A step of the schedule begins at this offset. */
  ghost predicate BeginsAt(periods: seq<Period>, offset: int)
  {
    exists i :: 0 <= i < |periods| && periods[i].start == offset
  }

  function AddSteps(points: seq<int>, w: Window, anchor: int, periods: seq<Period>): (r: seq<int>)
    requires Ascending(points)
    ensures Ascending(r)
    ensures forall y :: y in r <==> y in points || (Within(w, y) && BeginsAt(periods, y - anchor))
  {
    if periods == [] then points
    else
      var front, last := periods[..|periods| - 1], periods[|periods| - 1];
      assert forall k :: BeginsAt(periods, k) <==> BeginsAt(front, k) || last.start == k by {
        assert last == periods[|periods| - 1];
        assert forall i :: 0 <= i < |front| ==> front[i] == periods[i];
      }
      AddPoint(AddSteps(points, w, anchor, front), w, anchor + last.start)
  }

  /** One repetition: its steps and its end. */
  function AddRepetition(points: seq<int>, w: Window, anchor: int, s: Schedule): (r: seq<int>)
    requires Ascending(points)
    ensures Ascending(r)
    ensures forall y :: y in r <==> y in points || (Within(w, y) && Breaks(s, y - anchor))
  {
    AddOptional(AddSteps(points, w, anchor, s.periods), w,
                if s.duration.Some? then Some(anchor + s.duration.value) else None)
  }

  /** The schedule has a step or its end at this offset. */
  ghost predicate Breaks(s: Schedule, offset: int)
  {
    BeginsAt(s.periods, offset) || s.duration == Some(offset)
  }

  /** Repetitions from `at`, at most `room` of them. */
  function Repetitions(at: int, period: nat, end: int, room: nat): (r: seq<int>)
    decreases room
  {
    if at < end && room > 0 then [at] + Repetitions(at + period, period, end, room - 1) else []
  }

  /** The last repetition that starts no later than the window does. */
  function FirstRepetition(first: int, period: nat, start: int): (r: int)
    requires period > 0
  {
    first + ((start - first) / period) * period
  }

  function Anchors(p: Profile, w: Window, tx: Option<int>): (r: seq<int>)
  {
    match Anchor(p, tx)
    case None => []
    case Some(first) =>
      if p.kind == Recurring then
        var period := Seconds(p.recurrency.value);
        Repetitions(FirstRepetition(first, period, w.start), period, w.end, MAX_REPETITIONS)
      else [first]
  }

  /** The profile has a breakpoint at `y`. */
  ghost predicate Marks(p: Profile, w: Window, tx: Option<int>, y: int)
  {
    && Within(w, y)
    && (|| p.validFrom == Some(y)
        || p.validTo == Some(y)
        || (p.schedules != [] && SomeBreaks(p.schedules[0], Anchors(p, w, tx), y)))
  }

  ghost predicate SomeBreaks(s: Schedule, anchors: seq<int>, y: int)
  {
    exists i :: 0 <= i < |anchors| && Breaks(s, y - anchors[i])
  }

  lemma LastBreaks(s: Schedule, anchors: seq<int>)
    requires anchors != []
    ensures forall y :: SomeBreaks(s, anchors, y) <==>
                        SomeBreaks(s, anchors[..|anchors| - 1], y) || Breaks(s, y - anchors[|anchors| - 1])
  {
    hide Breaks;
    var front := anchors[..|anchors| - 1];
    assert forall i :: 0 <= i < |front| ==> front[i] == anchors[i];
  }

  function AddRepetitions(points: seq<int>, w: Window, anchors: seq<int>, s: Schedule): (r: seq<int>)
    requires Ascending(points)
    ensures Ascending(r)
    ensures forall y :: y in r <==> y in points || (Within(w, y) && SomeBreaks(s, anchors, y))
  {
    if anchors == [] then points
    else
      var front, last := anchors[..|anchors| - 1], anchors[|anchors| - 1];
      LastBreaks(s, anchors);
      AddRepetition(AddRepetitions(points, w, front, s), w, last, s)
  }

  function AddProfile(points: seq<int>, w: Window, p: Profile, tx: Option<int>): (r: seq<int>)
    requires Ascending(points)
    ensures Ascending(r)
    ensures forall y :: y in r <==> y in points || Marks(p, w, tx, y)
  {
    var limits := AddOptional(AddOptional(points, w, p.validFrom), w, p.validTo);
    if p.schedules == [] then limits else AddRepetitions(limits, w, Anchors(p, w, tx), p.schedules[0])
  }

  function Breakpoints(profiles: seq<Profile>, w: Window, tx: Option<int>): (r: seq<int>)
    ensures Ascending(r)
    ensures forall y :: y in r <==> y == w.start || exists p :: p in profiles && Marks(p, w, tx, y)
  {
    if profiles == [] then [w.start]
    else
      var front, last := profiles[..|profiles| - 1], profiles[|profiles| - 1];
      assert profiles == front + [last];
      AddProfile(Breakpoints(front, w, tx), w, last, tx)
  }

  // -- the breakpoints as they are collected ------------------------------------------------

  method Boundaries(profiles: seq<Profile>, w: Window, tx: Option<int>) returns (points: seq<int>)
    ensures points == Breakpoints(profiles, w, tx)
  {
    points := [w.start];
    for k := 0 to |profiles|
      invariant points == Breakpoints(profiles[..k], w, tx)
    {
      assert profiles[..k + 1][..k] == profiles[..k];
      points := CollectProfile(points, w, profiles[k], tx);
    }
    assert profiles[..|profiles|] == profiles;
  }

  method CollectProfile(before: seq<int>, w: Window, p: Profile, tx: Option<int>) returns (points: seq<int>)
    requires Ascending(before)
    ensures points == AddProfile(before, w, p, tx)
  {
    points := AddOptional(AddOptional(before, w, p.validFrom), w, p.validTo);
    if p.schedules != [] {
      var limits := points;
      var anchors := CollectAnchors(p, w, tx);
      for k := 0 to |anchors|
        invariant points == AddRepetitions(limits, w, anchors[..k], p.schedules[0])
      {
        assert anchors[..k + 1][..k] == anchors[..k];
        points := CollectRepetition(points, w, anchors[k], p.schedules[0]);
      }
      assert anchors[..|anchors|] == anchors;
    }
  }

  method CollectRepetition(before: seq<int>, w: Window, anchor: int, s: Schedule) returns (points: seq<int>)
    requires Ascending(before)
    ensures points == AddRepetition(before, w, anchor, s)
  {
    hide AddPoint;
    points := before;
    for k := 0 to |s.periods|
      invariant points == AddSteps(before, w, anchor, s.periods[..k])
    {
      assert s.periods[..k + 1][..k] == s.periods[..k];
      points := AddPoint(points, w, anchor + s.periods[k].start);
    }
    assert s.periods[..|s.periods|] == s.periods;
    if s.duration.Some? {
      points := AddPoint(points, w, anchor + s.duration.value);
    }
  }

  method CollectAnchors(p: Profile, w: Window, tx: Option<int>) returns (anchors: seq<int>)
    ensures anchors == Anchors(p, w, tx)
  {
    var first := Anchor(p, tx);
    if first.None? {
      return [];
    }
    if p.kind != Recurring {
      return [first.value];
    }
    var period := Seconds(p.recurrency.value);
    anchors := WalkRepetitions(FirstRepetition(first.value, period, w.start), period, w.end);
  }

  method WalkRepetitions(from: int, period: nat, end: int) returns (anchors: seq<int>)
    ensures anchors == Repetitions(from, period, end, MAX_REPETITIONS)
  {
    var at := from;
    ghost var all := Repetitions(from, period, end, MAX_REPETITIONS);
    anchors := [];
    while at < end && |anchors| < MAX_REPETITIONS
      invariant |anchors| <= MAX_REPETITIONS
      invariant all == anchors + Repetitions(at, period, end, MAX_REPETITIONS - |anchors|)
      decreases MAX_REPETITIONS - |anchors|
    {
      ghost var rest := Repetitions(at + period, period, end, MAX_REPETITIONS - |anchors| - 1);
      assert anchors + ([at] + rest) == anchors + [at] + rest;
      anchors := anchors + [at];
      at := at + period;
    }
  }

  // -- the sweep ----------------------------------------------------------------------------

  /** One step of the answer; no limit where no profile constrains. */
  datatype Step = Step(start: int, limit: Option<Decimal>, phases: Option<I32>)

  function StepFor(q: Request, w: Window, at: int): (r: Step)
  {
    match LimitAt(q, at)
    case None => Step(at - w.start, None, None)
    case Some(e) => Step(at - w.start, Some(e.limit), e.phases)
  }

  /** Equal as numbers. */
  predicate SameLimit(a: Option<Decimal>, b: Option<Decimal>)
  {
    if a.Some? && b.Some? then Compare(a.value, b.value) == Equal else a.None? && b.None?
  }

  predicate SameStep(a: Step, b: Step)
  {
    SameLimit(a.limit, b.limit) && a.phases == b.phases
  }

  /** One more step, unless it says what the last one says, or nothing at the very front. */
  function Extend(steps: seq<Step>, step: Step, leadingGap: bool): (r: seq<Step>)
  {
    if steps != [] && SameStep(steps[|steps| - 1], step) then steps
    else if steps == [] && step.limit.None? && !leadingGap then steps
    else steps + [step]
  }

  function Merge(raw: seq<Step>, leadingGap: bool): (r: seq<Step>)
  {
    if raw == [] then [] else Extend(Merge(raw[..|raw| - 1], leadingGap), raw[|raw| - 1], leadingGap)
  }

  function StepsFor(q: Request, w: Window, points: seq<int>): (r: seq<Step>)
    ensures |r| == |points|
    ensures forall k :: 0 <= k < |points| ==> r[k] == StepFor(q, w, points[k])
  {
    seq(|points|, k requires 0 <= k < |points| => StepFor(q, w, points[k]))
  }

  function Sweep(q: Request, w: Window, points: seq<int>): (r: seq<Step>)
  {
    Merge(StepsFor(q, w, points), false)
  }

  /** The profiles a request is answered from. */
  predicate Applies(p: Profile, evse: nat, tx: Option<(string, int)>)
  {
    && (p.evse == 0 || p.evse == evse)
    && (p.purpose == TxProfile || p.purpose == PriorityCharging ==>
          tx.Some? && (p.transaction.Some? ==> p.transaction.value == tx.value.0))
  }

  function Applicable(profiles: seq<Profile>, evse: nat, tx: Option<(string, int)>): (r: seq<Profile>)
  {
    if profiles == [] then []
    else
      var front, last := Applicable(profiles[..|profiles| - 1], evse, tx), profiles[|profiles| - 1];
      if Applies(last, evse, tx) then front + [last] else front
  }

  function RequestFor(profiles: seq<Profile>, supply: Supply, evse: nat, unit: RateUnit, tx: Option<(string, int)>): (r: Request)
  {
    Request(Applicable(profiles, evse, tx), supply, unit, if tx.Some? then Some(tx.value.1) else None)
  }

  function WindowFor(from: int, duration: int): (r: Window)
  {
    Window(from, from + if duration < 0 then 0 else duration)
  }

  method Select(profiles: seq<Profile>, evse: nat, tx: Option<(string, int)>) returns (applicable: seq<Profile>)
    ensures applicable == Applicable(profiles, evse, tx)
  {
    hide Applies;
    applicable := [];
    for k := 0 to |profiles|
      invariant applicable == Applicable(profiles[..k], evse, tx)
    {
      assert profiles[..k + 1][..k] == profiles[..k];
      if Applies(profiles[k], evse, tx) {
        applicable := applicable + [profiles[k]];
      }
    }
    assert profiles[..|profiles|] == profiles;
  }

  method Composite(profiles: seq<Profile>, supply: Supply, evse: nat, from: int, duration: int, unit: RateUnit,
                   tx: Option<(string, int)>) returns (steps: seq<Step>)
    ensures var q, w := RequestFor(profiles, supply, evse, unit, tx), WindowFor(from, duration);
            steps == Sweep(q, w, Breakpoints(q.profiles, w, q.tx))
  {
    hide StepFor, SameStep, Breakpoints;
    var applicable := Select(profiles, evse, tx);
    var w := WindowFor(from, duration);
    var q := Request(applicable, supply, unit, if tx.Some? then Some(tx.value.1) else None);
    var points := Boundaries(applicable, w, q.tx);
    steps := [];
    for k := 0 to |points|
      invariant steps == Sweep(q, w, points[..k])
    {
      assert StepsFor(q, w, points[..k + 1])[..k] == StepsFor(q, w, points[..k]);
      var step := StepFor(q, w, points[k]);
      if steps != [] && SameStep(steps[|steps| - 1], step) {
      } else if steps == [] && step.limit.None? {
      } else {
        steps := steps + [step];
      }
    }
    assert points[..|points|] == points;
  }

  // -- naming a number for every step -------------------------------------------------------

  function Filled(step: Step, rated: Decimal): (r: Step)
  {
    if step.limit.None? then step.(limit := Some(rated)) else step
  }

  function FilledAll(steps: seq<Step>, rated: Decimal): (r: seq<Step>)
    ensures |r| == |steps|
    ensures forall k :: 0 <= k < |steps| ==> r[k] == Filled(steps[k], rated)
  {
    seq(|steps|, k requires 0 <= k < |steps| => Filled(steps[k], rated))
  }

  method FillGaps(steps: seq<Step>, rated: Decimal) returns (r: seq<Step>)
    ensures r == Merge(FilledAll(steps, rated), true)
  {
    var filled := steps;
    for k := 0 to |filled|
      invariant |filled| == |steps|
      invariant forall j :: 0 <= j < k ==> filled[j] == Filled(steps[j], rated)
      invariant forall j :: k <= j < |steps| ==> filled[j] == steps[j]
    {
      if filled[k].limit.None? {
        filled := filled[k := filled[k].(limit := Some(rated))];
      }
    }
    assert filled == FilledAll(steps, rated);
    r := [];
    for k := 0 to |filled|
      invariant r == Merge(filled[..k], true)
    {
      assert filled[..k + 1][..k] == filled[..k];
      if r == [] || !SameStep(r[|r| - 1], filled[k]) {
        r := r + [filled[k]];
      }
    }
    assert filled[..|filled|] == filled;
  }
}
