/** What a tick brings about, and when: calls that time out, boot states that expire, heartbeats that
    fall due (src/engine/mod.rs). */
module EngineTimers {
  import opened Basics
  import opened Messages
  import opened MessageIds
  import opened Queue
  import opened Monitor
  import opened Traces
  import opened EngineModel
  import opened EngineInvariant
  import opened EngineSafety
  import opened EngineTheorems
  import opened EngineHistory
  import opened EngineProgress
  import opened EngineSubmission

  // -- one tick -----------------------------------------------------------------------------

  /** A tick logs a timeout, a due heartbeat or an expiry exactly when its deadline has come. */
  lemma TickSorts(c: Config, s: State)
    ensures var r := OnTimeout(c, s);
            && s.log <= r.log
            && (SortFrom(r.log, |s.log|, Timing) <==> s.inflight.Some? && s.now >= s.inflight.value.deadline)
            && (SortFrom(r.log, |s.log|, Beat) <==> s.heartbeatAt.Some? && s.now >= s.heartbeatAt.value)
            && (SortFrom(r.log, |s.log|, Expiry) <==> s.bootRetryAt.Some? && s.now >= s.bootRetryAt.value)
  {
    hide Onward, SortFrom, CallDeadline, HeartbeatDeadline, BootDeadline, Pump, CheckDrain;
    var s1 := CallDeadline(c, s);
    var s2 := HeartbeatDeadline(c, s1);
    var s3 := BootDeadline(c, s2);
    var r := OnTimeout(c, s);
    CallDeadlineAside(c, s);
    HeartbeatBoot(c, s1);
    CallDeadlineOnward(c, s, {Ordinary, Failing, Timing});
    HeartbeatOnward(c, s1, {Ordinary, Beat, Issue, Failing});
    BootOnward(c, s2, {Ordinary, Expiry});
    ClosingOnward(c, s3, {Ordinary});
    FirstEvent(c, s);
    BeatEvent(c, s1);
    ExpiryEvent(c, s2);
    Stages(s, s1, s2, s3, r, Timing);
    Stages(s, s1, s2, s3, r, Beat);
    Stages(s, s1, s2, s3, r, Expiry);
  }

  /** The parts of a log that grows in four stages. */
  lemma Stages(s: State, s1: State, s2: State, s3: State, r: State, x: Sort)
    requires Onward(s, s1, {Ordinary, Failing, Timing}) && Onward(s1, s2, {Ordinary, Beat, Issue, Failing})
    requires Onward(s2, s3, {Ordinary, Expiry}) && Onward(s3, r, {Ordinary})
    ensures s.log <= r.log
    ensures x == Timing ==> (SortFrom(r.log, |s.log|, x) <==> SortFrom(s1.log, |s.log|, x))
    ensures x == Beat ==> (SortFrom(r.log, |s.log|, x) <==> SortFrom(s2.log, |s1.log|, x))
    ensures x == Expiry ==> (SortFrom(r.log, |s.log|, x) <==> SortFrom(s3.log, |s2.log|, x))
  {
    hide SortOf;
    forall k | |s.log| <= k < |r.log|
      ensures k < |s1.log| ==> r.log[k] == s1.log[k] && SortOf(r.log[k]) in {Ordinary, Failing, Timing}
      ensures |s1.log| <= k < |s2.log| ==> r.log[k] == s2.log[k] && SortOf(r.log[k]) in {Ordinary, Beat, Issue, Failing}
      ensures |s2.log| <= k < |s3.log| ==> r.log[k] == s3.log[k] && SortOf(r.log[k]) in {Ordinary, Expiry}
      ensures |s3.log| <= k ==> SortOf(r.log[k]) == Ordinary
    {
    }
  }

  lemma CallDeadlineAside(c: Config, s: State)
    ensures var r := CallDeadline(c, s);
            && r.heartbeatAt == s.heartbeatAt && r.connected == s.connected && r.draining == s.draining
            && r.version == s.version && SameBoot(s, r)
  {
  }

  lemma FirstEvent(c: Config, s: State)
    ensures SortFrom(CallDeadline(c, s).log, |s.log|, Timing) <==> s.inflight.Some? && s.now >= s.inflight.value.deadline
  {
    hide RequeueOrFail;
    if s.inflight.Some? && s.now >= s.inflight.value.deadline {
      var t := Say(Take(s, ByTimeout), ClearTimer(CallTimeout));
      RequeueOnward(c, t, s.inflight.value, TimedOut, {Ordinary, Failing});
      assert CallDeadline(c, s).log[|s.log|] == t.log[|s.log|];
    }
  }

  lemma BeatEvent(c: Config, s: State)
    ensures SortFrom(HeartbeatDeadline(c, s).log, |s.log|, Beat) <==> s.heartbeatAt.Some? && s.now >= s.heartbeatAt.value
  {
    hide CallWith;
    if s.heartbeatAt.Some? && s.now >= s.heartbeatAt.value {
      var s1 := Emit(s.(heartbeatAt := None), BeatDue(s.now));
      CallWithOnward(c, s1, s1.now, Heartbeat, EMPTY_PAYLOAD, HEARTBEAT_OPTIONS, {Ordinary, Issue, Failing});
      assert HeartbeatDeadline(c, s).log[|s.log|] == s1.log[|s.log|];
    }
  }

  lemma ExpiryEvent(c: Config, s: State)
    ensures SortFrom(BootDeadline(c, s).log, |s.log|, Expiry) <==> s.bootRetryAt.Some? && s.now >= s.bootRetryAt.value
  {
    if s.bootRetryAt.Some? && s.now >= s.bootRetryAt.value {
      assert BootDeadline(c, s).log[|s.log|] == BootExpired(s.now);
    }
  }

  // -- calls that time out ------------------------------------------------------------------

  /** The call transmitted at `a` is still waiting for its answer. */
  ghost predicate Unanswered(log: seq<Event>, a: nat)
  {
    a < |log| && IsCallWire(log[a]) && forall k :: a < k < |log| ==> !log[k].Freed?
  }

  /** The timeout last asked for, or the configured one. */
  function TimeoutAt(c: Config, log: seq<Event>): (r: nat)
  {
    if log == [] then c.callTimeout
    else if log[|log| - 1].TimeoutSet? then log[|log| - 1].timeout
    else TimeoutAt(c, log[..|log| - 1])
  }

  /** The end of the wait for an answer to the call transmitted at `a`. */
  function WaitEnds(c: Config, log: seq<Event>, a: nat): (r: Instant)
    requires a < |log| && log[a].Wire?
  {
    SaturatingAdd(log[a].at, TimeoutAt(c, log[..a]))
  }

  lemma {:induction false} TimeoutRemembered(c: Config, log: seq<Event>)
    ensures TimeoutInForce(c, Watch(log)) == TimeoutAt(c, log)
  {
    hide Next;
    if log != [] {
      TimeoutRemembered(c, log[..|log| - 1]);
      TimeoutStep(Watch(log[..|log| - 1]), log[|log| - 1]);
    }
  }

  lemma TimeoutStep(m: View, e: Event)
    ensures Next(m, e).timeout == if e.TimeoutSet? then Some(e.timeout) else m.timeout
  {
  }

  /** The slot holds a call with the end of its wait. */
  lemma SlotWait(c: Config, log: seq<Event>, a: nat)
    requires Accepts(c, log) && Unanswered(log, a)
    ensures Watch(log).slot == Some(Slot(log[a].token, log[a].id, WaitEnds(c, log, a)))
  {
    hide Next, Watch, Accepts;
    SlotKept(c, log, a);
    AcceptsAt(c, log, a);
    TimeoutRemembered(c, log[..a]);
  }

  lemma SlotUnanswered(c: Config, log: seq<Event>) returns (a: nat)
    requires Accepts(c, log) && Watch(log).slot.Some?
    ensures Unanswered(log, a) && Watch(log).slot == Some(Slot(log[a].token, log[a].id, WaitEnds(c, log, a)))
  {
    hide Next, Watch, Accepts;
    a := SlotWire(c, log);
    SlotWait(c, log, a);
  }

  /** The timeout at `f` ends the wait of the call transmitted at `a`, which is over. */
  ghost predicate TimesOut(c: Config, log: seq<Event>, a: nat, f: nat)
  {
    && f < |log| && log[f].Freed? && Unanswered(log[..f], a)
    && log[a].token == log[f].token && log[a].id == log[f].id && log[f].at >= WaitEnds(c, log, a)
  }

  /** In every run no call times out before its timeout, the one in force when it was transmitted, has passed. */
  lemma TimeoutsOnlyWhenDue(c: Config, version: Version, store: Store, cmds: seq<Command>)
    requires Sound(store)
    ensures var log := Final(c, version, store, cmds).log;
            forall f :: 0 <= f < |log| && log[f].Freed? && log[f].cause == ByTimeout ==> exists a: nat :: TimesOut(c, log, a, f)
  {
    hide Final;
    LogAccepted(c, version, store, cmds);
    var log := Final(c, version, store, cmds).log;
    forall f | 0 <= f < |log| && log[f].Freed? && log[f].cause == ByTimeout
      ensures exists a: nat :: TimesOut(c, log, a, f)
    {
      TimeoutDue(c, log, f);
    }
  }

  lemma TimeoutDue(c: Config, log: seq<Event>, f: nat)
    requires Accepts(c, log) && f < |log| && log[f].Freed? && log[f].cause == ByTimeout
    ensures exists a: nat :: TimesOut(c, log, a, f)
  {
    hide Next, Watch, Accepts;
    AcceptsAt(c, log, f);
    var a := SlotUnanswered(c, log[..f]);
    assert log[..f][..a] == log[..a];
    assert log[..f][a] == log[a];
    assert TimesOut(c, log, a, f);
  }

  /** In every run a tick lets a call time out if and only if one is unanswered whose wait is over. */
  lemma TickTimesOutIff(c: Config, version: Version, store: Store, cmds: seq<Command>, now: Instant)
    requires Sound(store)
    ensures var s, r := Final(c, version, store, cmds), Final(c, version, store, cmds + [Tick(now)]);
            SortFrom(r.log, |s.log|, Timing) <==>
            exists a: nat :: Unanswered(s.log, a) && Advance(s, now).now >= WaitEnds(c, s.log, a)
  {
    hide OnTimeout, WithStore, SortFrom, Inv, Unanswered;
    var s := Final(c, version, store, cmds);
    assert (cmds + [Tick(now)])[..|cmds|] == cmds;
    assert Final(c, version, store, cmds + [Tick(now)]) == OnTimeout(c, Advance(s, now));
    TickSorts(c, Advance(s, now));
    RunKeeps(c, version, store, cmds);
    DeadlineIsWait(c, s);
  }

  lemma DeadlineIsWait(c: Config, s: State)
    requires Inv(c, s, {})
    ensures forall a: nat :: Unanswered(s.log, a) ==> s.inflight.Some? && s.inflight.value.deadline == WaitEnds(c, s.log, a)
    ensures s.inflight.Some? ==> exists a: nat :: Unanswered(s.log, a)
  {
    hide Agrees, Apart, Covered, InOrder, StoreRel, Next, Watch, Accepts;
    forall a: nat | Unanswered(s.log, a)
      ensures s.inflight.Some? && s.inflight.value.deadline == WaitEnds(c, s.log, a)
    {
      SlotWait(c, s.log, a);
    }
    if s.inflight.Some? {
      var a := SlotUnanswered(c, s.log);
    }
  }
}
