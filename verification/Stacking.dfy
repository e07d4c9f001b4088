/** The stacking rules of charging profiles, stated over the profiles' own fields
    (src/station/smart_charging.rs): what one profile says, which profile speaks for a purpose, which
    purposes overrule which, and what comes out. */
module Stacking {
  import opened Basics
  import opened Decimals
  import opened Charging
  import opened CompositeSchedule

  // -- what one profile says ----------------------------------------------------------------

  /** The schedule is at this offset: counted from its own start, from the start of the latest repetition, or
      from the start of the transaction. */
  ghost predicate AtOffset(p: Profile, at: int, tx: Option<int>, offset: int)
    requires p.schedules != []
  {
    && offset >= 0
    && match p.kind
       case Absolute => p.schedules[0].start == Some(at - offset)
       case Relative => tx == Some(at - offset)
       case Recurring =>
         && p.recurrency.Some? && p.schedules[0].start.Some? && offset < Seconds(p.recurrency.value)
         && exists n: nat :: RepeatedBy(p.schedules[0].start.value, Seconds(p.recurrency.value), n, at, offset)
  }

  /** `n` whole periods and `offset` seconds after the start. */
  predicate RepeatedBy(start: int, period: nat, n: nat, at: int, offset: int) { at == start + n * period + offset }

  /** The `k`-th step of the schedule is the one in force. */
  predicate StepInForce(s: Schedule, offset: int, k: nat)
  {
    && k < |s.periods| && s.periods[k].start <= offset
    && (forall j :: k < j < |s.periods| ==> s.periods[j].start > offset)
    && (s.duration.Some? ==> offset < s.duration.value)
  }

  /** The profile is valid, and its `k`-th step is in force. */
  ghost predicate InForce(p: Profile, at: int, tx: Option<int>, offset: int, k: nat)
  {
    && (p.validFrom.Some? ==> p.validFrom.value <= at) && (p.validTo.Some? ==> at < p.validTo.value)
    && p.schedules != [] && AtOffset(p, at, tx, offset) && StepInForce(p.schedules[0], offset, k)
  }

  /** A profile says something about an instant if and only if a step of its first schedule is in force
      then, and what it says is that step's limit. */
  lemma ProfileSaysIff(p: Profile, at: int, tx: Option<int>, l: Limit)
    ensures ProfileLimitAt(p, at, tx) == Some(l) <==>
            exists offset: int, k: nat ::
              && InForce(p, at, tx, offset, k)
              && l == Limit(p.schedules[0].periods[k].limit, p.schedules[0].unit, p.schedules[0].periods[k].phases)
  {
    hide LastBegun;
    if ProfileLimitAt(p, at, tx) == Some(l) {
      var offset := OffsetAt(p, at, tx).value;
      OffsetIff(p, at, tx, offset);
      var k := BegunAt(p.schedules[0].periods, offset);
      assert InForce(p, at, tx, offset, k);
    }
    if offset: int, k: nat :|
        InForce(p, at, tx, offset, k)
        && l == Limit(p.schedules[0].periods[k].limit, p.schedules[0].unit, p.schedules[0].periods[k].phases) {
      OffsetIff(p, at, tx, offset);
      LastIs(p.schedules[0].periods, offset, k);
    }
  }

  lemma OffsetIff(p: Profile, at: int, tx: Option<int>, offset: int)
    requires p.schedules != []
    ensures OffsetAt(p, at, tx) == Some(offset) <==> AtOffset(p, at, tx, offset)
  {
    if p.kind == Recurring && p.recurrency.Some? && p.schedules[0].start.Some? {
      var start, period := p.schedules[0].start.value, Seconds(p.recurrency.value);
      if at >= start && offset == (at - start) % period {
        var n: nat := (at - start) / period;
        RoundsPassed(start, period, at);
        assert RepeatedBy(start, period, n, at, offset);
      }
      if 0 <= offset < period {
        if n: nat :| RepeatedBy(start, period, n, at, offset) {
          RoundPosition(start, period, n, at, offset);
        }
      }
    }
  }

  lemma RoundsPassed(start: int, period: nat, at: int)
    requires at >= start && period > 0
    ensures at - (at - start) % period == start + (at - start) / period * period
    ensures (at - start) / period >= 0
  {
  }

  lemma RoundPosition(start: int, period: nat, n: nat, at: int, offset: int)
    requires 0 <= offset < period && at == start + n * period + offset
    ensures at >= start && (at - start) % period == offset
  {
    var d := at - start;
    assert d == n * period + offset;
    Quotient(d, period, n, offset);
  }

  lemma Quotient(d: int, period: nat, n: nat, offset: int)
    requires 0 <= offset < period && d == n * period + offset
    ensures d >= 0 && d % period == offset
  {
    var q, r := d / period, d % period;
    assert d == q * period + r;
    if q < n {
      ScaledBy(q + 1, n, period);
    } else if q > n {
      ScaledBy(n + 1, q, period);
    }
  }

  lemma ScaledBy(x: int, y: int, k: nat)
    requires x <= y
    ensures x * k <= y * k
  {
  }

  lemma {:induction false} BegunAt(periods: seq<Period>, offset: int) returns (k: nat)
    requires LastBegun(periods, offset).Some?
    ensures k < |periods| && periods[k].start <= offset && LastBegun(periods, offset) == Some(periods[k])
    ensures forall j :: k < j < |periods| ==> periods[j].start > offset
  {
    if periods[|periods| - 1].start <= offset {
      k := |periods| - 1;
    } else {
      k := BegunAt(periods[..|periods| - 1], offset);
    }
  }

  lemma {:induction false} LastIs(periods: seq<Period>, offset: int, k: nat)
    requires k < |periods| && periods[k].start <= offset
    requires forall j :: k < j < |periods| ==> periods[j].start > offset
    ensures LastBegun(periods, offset) == Some(periods[k])
  {
    if k < |periods| - 1 {
      LastIs(periods[..|periods| - 1], offset, k);
    }
  }

  // -- which profile speaks for a purpose ---------------------------------------------------

  /** Of the profiles of this purpose that say something, the `i`-th stands highest, the last of equals. */
  ghost predicate Stands(q: Request, purpose: Purpose, at: int, i: nat)
  {
    && i < |q.profiles| && Speaks(q, purpose, at, i)
    && forall j :: 0 <= j < |q.profiles| && Speaks(q, purpose, at, j) ==>
         || q.profiles[j].stackLevel < q.profiles[i].stackLevel
         || (q.profiles[j].stackLevel == q.profiles[i].stackLevel && j <= i)
  }

  /** The limit its highest profile sets for this purpose, in the unit asked for. */
  ghost predicate Says(q: Request, purpose: Purpose, at: int, e: Effective)
  {
    exists i: nat :: Stands(q, purpose, at, i) && Converted(q, q.profiles[i], at, e)
  }

  /** What the profile says, from its own unit to the unit asked for. */
  ghost predicate Converted(q: Request, p: Profile, at: int, e: Effective)
  {
    exists l ::
      && ProfileLimitAt(p, at, q.tx) == Some(l) && e.phases == l.phases
      && ConvertLimit(q.supply, l.value, l.unit, q.unit, l.phases) == Some(e.limit)
  }

  ghost predicate Silent(q: Request, purpose: Purpose, at: int)
  {
    forall e :: !Says(q, purpose, at, e)
  }

  lemma LeadingSays(q: Request, purpose: Purpose, at: int)
    ensures forall e :: Leading(q, purpose, at) == Some(e) <==> Says(q, purpose, at, e)
    ensures Leading(q, purpose, at) == None <==> Silent(q, purpose, at)
  {
    hide LeadingProfile, ConvertLimit, Speaks, ProfileLimitAt, Stands, Converted;
    LeaderStands(q, purpose, at);
    var i := LeadingProfile(q, purpose, at);
    if i.Some? {
      LeaderConverted(q, purpose, at, i.value);
    }
    if Leading(q, purpose, at).Some? {
      assert Says(q, purpose, at, Leading(q, purpose, at).value);
    }
  }

  lemma LeaderStands(q: Request, purpose: Purpose, at: int)
    ensures forall k: nat :: Stands(q, purpose, at, k) <==> LeadingProfile(q, purpose, at) == Some(k)
  {
    hide LeadingProfile, Speaks;
    LeadingIsHighest(q, purpose, at);
  }

  lemma LeaderConverted(q: Request, purpose: Purpose, at: int, i: nat)
    requires LeadingProfile(q, purpose, at) == Some(i)
    ensures forall e :: Leading(q, purpose, at) == Some(e) <==> Converted(q, q.profiles[i], at, e)
  {
    hide LeadingProfile, ConvertLimit, ProfileLimitAt;
  }

  // -- which purposes overrule which --------------------------------------------------------

  /** The session's limit: priority charging overrules the transaction's own profile, and that the
      default. */
  ghost predicate SessionSays(q: Request, at: int, e: Effective)
  {
    || Says(q, PriorityCharging, at, e)
    || (Silent(q, PriorityCharging, at) && Says(q, TxProfile, at, e))
    || (Silent(q, PriorityCharging, at) && Silent(q, TxProfile, at) && Says(q, TxDefaultProfile, at, e))
  }

  /** The limit that constrains: the lowest of the session's, the station's and the outside one, the
      earlier named of equals. */
  ghost predicate Constrains(q: Request, at: int, e: Effective)
  {
    var station, outside := ChargingStationMaxProfile, ChargingStationExternalConstraints;
    || (&& SessionSays(q, at, e)
        && (forall x :: Says(q, station, at, x) ==> Units(e.limit) <= Units(x.limit))
        && (forall x :: Says(q, outside, at, x) ==> Units(e.limit) <= Units(x.limit)))
    || (&& Says(q, station, at, e)
        && (forall x :: SessionSays(q, at, x) ==> Units(e.limit) < Units(x.limit))
        && (forall x :: Says(q, outside, at, x) ==> Units(e.limit) <= Units(x.limit)))
    || (&& Says(q, outside, at, e)
        && (forall x :: SessionSays(q, at, x) ==> Units(e.limit) < Units(x.limit))
        && (forall x :: Says(q, station, at, x) ==> Units(e.limit) < Units(x.limit)))
  }

  /** What is generated on site comes on top, exactly, wherever the sum can be written. */
  ghost predicate OnTop(e: Effective, g: Effective, r: Effective)
  {
    r.phases == e.phases
    && if CheckedAdd(e.limit, g.limit).None? then r.limit == e.limit
       else Units(r.limit) == Units(e.limit) + Units(g.limit)
  }

  lemma SessionIs(q: Request, at: int)
    ensures forall e :: Session(q, at) == Some(e) <==> SessionSays(q, at, e)
  {
    hide Says, Leading;
    LeadingSays(q, PriorityCharging, at);
    LeadingSays(q, TxProfile, at);
    LeadingSays(q, TxDefaultProfile, at);
  }

  /** The stacking rule: the limit in force is the one that constrains, with its phases, and what is
      generated on site on top of it; where nothing constrains it is what is generated, and where
      nothing is generated either there is no limit. */
  lemma StackingRule(q: Request, at: int)
    ensures forall e :: Constrains(q, at, e) ==>
              && (Silent(q, LocalGeneration, at) ==> LimitAt(q, at) == Some(e))
              && (forall g :: Says(q, LocalGeneration, at, g) ==> LimitAt(q, at).Some? && OnTop(e, g, LimitAt(q, at).value))
    ensures (forall e :: !Constrains(q, at, e)) ==>
              && (Silent(q, LocalGeneration, at) ==> LimitAt(q, at) == None)
              && (forall g :: Says(q, LocalGeneration, at, g) ==> LimitAt(q, at) == Some(g))
    ensures (forall e :: !Constrains(q, at, e)) <==>
              (forall e :: !SessionSays(q, at, e))
              && Silent(q, ChargingStationMaxProfile, at) && Silent(q, ChargingStationExternalConstraints, at)
  {
    hide Says, Leading, Session, SessionSays, Units, CheckedAdd, Compare, Lower, Constrains, Silent;
    SessionIs(q, at);
    LeadingSays(q, ChargingStationMaxProfile, at);
    LeadingSays(q, ChargingStationExternalConstraints, at);
    LeadingSays(q, LocalGeneration, at);
    ConstrainedIs(q, at);
    var c, g := Constrained(q, at), Leading(q, LocalGeneration, at);
    if c.Some? && g.Some? {
      SumsAreExact(c.value.limit, g.value.limit);
    }
  }

  lemma ConstrainedIs(q: Request, at: int)
    ensures forall e :: Constrains(q, at, e) <==> Constrained(q, at) == Some(e)
    ensures Constrained(q, at) == None <==>
              (forall e :: !SessionSays(q, at, e))
              && Silent(q, ChargingStationMaxProfile, at) && Silent(q, ChargingStationExternalConstraints, at)
  {
    hide Says, Leading, Session, SessionSays, Units, Compare, Lower, Silent;
    SessionIs(q, at);
    LeadingSays(q, ChargingStationMaxProfile, at);
    LeadingSays(q, ChargingStationExternalConstraints, at);
    var s, m, x := Session(q, at), Leading(q, ChargingStationMaxProfile, at),
                   Leading(q, ChargingStationExternalConstraints, at);
    LowerIs(s, m);
    LowerIs(Lower(s, m), x);
  }

  /** The first unless the second is strictly lower. */
  lemma LowerIs(a: Option<Effective>, b: Option<Effective>)
    ensures b.None? ==> Lower(a, b) == a
    ensures a.None? ==> Lower(a, b) == b
    ensures a.Some? && b.Some? ==>
              Lower(a, b) == if Units(a.value.limit) <= Units(b.value.limit) then a else b
  {
    hide Units, Compare;
    if a.Some? && b.Some? {
      CompareIsNumeric(a.value.limit, b.value.limit);
    }
  }

  // -- which profiles a request is answered from --------------------------------------------

  /** Installed for this EVSE or for all, and, if it is for a transaction, one is running that the profile
      names or leaves open. */
  predicate Concerns(p: Profile, evse: nat, tx: Option<(string, int)>)
  {
    && p.evse in {0, evse}
    && (p.purpose in {TxProfile, PriorityCharging} ==> tx.Some? && p.transaction in {None, Some(tx.value.0)})
  }

  /** `chosen` are the profiles at `places`: in the order of `profiles`, and all that are concerned. */
  ghost predicate Drawn(profiles: seq<Profile>, places: seq<nat>, chosen: seq<Profile>, evse: nat,
                        tx: Option<(string, int)>)
  {
    && |places| == |chosen|
    && (forall k :: 0 <= k < |places| ==> places[k] < |profiles| && chosen[k] == profiles[places[k]])
    && (forall a, b :: 0 <= a < b < |places| ==> places[a] < places[b])
    && (forall i: nat :: i < |profiles| ==> (Concerns(profiles[i], evse, tx) <==> i in places))
  }

  /** The answer is drawn from exactly the profiles concerned, in the order they were installed. */
  lemma {:induction false} AnsweredFrom(profiles: seq<Profile>, evse: nat, tx: Option<(string, int)>) returns (places: seq<nat>)
    ensures Drawn(profiles, places, Applicable(profiles, evse, tx), evse, tx)
  {
    hide Applies, Concerns, Drawn;
    if profiles == [] {
      places := [];
      DrawnNone(evse, tx);
    } else {
      var n := |profiles| - 1;
      var front := AnsweredFrom(profiles[..n], evse, tx);
      AppliesIs(profiles[n], evse, tx);
      places := if Applies(profiles[n], evse, tx) then front + [n] else front;
      DrawnMore(profiles, front, Applicable(profiles[..n], evse, tx), evse, tx);
    }
  }

  lemma DrawnNone(evse: nat, tx: Option<(string, int)>)
    ensures Drawn([], [], [], evse, tx)
  {
  }

  lemma DrawnMore(profiles: seq<Profile>, places: seq<nat>, chosen: seq<Profile>, evse: nat, tx: Option<(string, int)>)
    requires profiles != [] && Drawn(profiles[..|profiles| - 1], places, chosen, evse, tx)
    ensures var n := |profiles| - 1;
            if Concerns(profiles[n], evse, tx) then Drawn(profiles, places + [n], chosen + [profiles[n]], evse, tx)
            else Drawn(profiles, places, chosen, evse, tx)
  {
    hide Concerns;
    var n := |profiles| - 1;
    assert forall i: nat :: i < n ==> profiles[..n][i] == profiles[i];
    assert forall i: nat :: i in places ==> i < n;
    assert forall i: nat :: i in places + [n] <==> i in places || i == n;
  }

  lemma AppliesIs(p: Profile, evse: nat, tx: Option<(string, int)>)
    ensures Applies(p, evse, tx) == Concerns(p, evse, tx)
  {
  }
}
