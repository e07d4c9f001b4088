/** The station's heartbeats (src/engine/mod.rs): when they are armed, postponed and sent. */
module EngineHeartbeats {
  import opened Basics
  import opened Messages
  import opened MessageIds
  import opened Queue
  import opened Monitor
  import opened Traces
  import opened EngineModel
  import opened EngineInvariant
  import opened EngineSafety
  import opened EngineTheorems
  import opened EngineHistory
  import opened EngineProgress
  import opened EngineTimers
  import opened EngineSubmission

  // -- the heartbeat in the log -------------------------------------------------------------

  predicate ArmsBeat(e: Event) { e.Noted? && e.note.SetTimer? && e.note.timer == HeartbeatTimer }

  predicate AboutBeat(e: Event)
  {
    ArmsBeat(e) || e.BeatDue? || (e.Noted? && e.note == ClearTimer(HeartbeatTimer))
  }

  /** The heartbeat armed at `j` is neither spent, nor postponed, nor cleared. */
  ghost predicate BeatPending(log: seq<Event>, j: nat)
  {
    && j < |log| && ArmsBeat(log[j])
    && forall k :: j < k < |log| ==> !AboutBeat(log[k])
  }

  lemma BeatStep(m: View, e: Event)
    ensures Next(m, e).beatAt == if ArmsBeat(e) then Some(e.note.at) else if AboutBeat(e) then None else m.beatAt
  {
  }

  lemma ArmsIsAbout(e: Event)
    ensures ArmsBeat(e) ==> AboutBeat(e) && e.Noted? && e.note.SetTimer?
  {
  }

  lemma {:induction false} BeatRemembered(log: seq<Event>)
    ensures forall j: nat :: BeatPending(log, j) ==> Watch(log).beatAt == Some(log[j].note.at)
    ensures Watch(log).beatAt.Some? ==> exists j: nat :: BeatPending(log, j)
  {
    if log == [] {
      UnwatchedIsStart(log);
    } else {
      var n := |log| - 1;
      var front := log[..n];
      hide Next, AboutBeat, ArmsBeat;
      BeatRemembered(front);
      BeatStep(Watch(front), log[n]);
      ArmsIsAbout(log[n]);
      assert Watch(log) == Next(Watch(front), log[n]);
      if ArmsBeat(log[n]) {
        assert BeatPending(log, n);
      } else if !AboutBeat(log[n]) && Watch(front).beatAt.Some? {
        var j: nat :| BeatPending(front, j);
        assert BeatPending(log, j);
      }
      forall j: nat | BeatPending(log, j)
        ensures Watch(log).beatAt == Some(log[j].note.at)
      {
        assert j < n ==> BeatPending(front, j);
      }
    }
  }

  /** The engine's own `Heartbeat`, which no outage is waited out for. */
  predicate IsBeatCall(e: Event)
  {
    e.Issued? && e.call.action == Heartbeat && e.call.payload == EMPTY_PAYLOAD && !e.keep && !e.triggered
  }

  ghost predicate BeatCallsOnly(log: seq<Event>, n: nat)
  {
    forall k :: n <= k < |log| && log[k].Issued? ==> IsBeatCall(log[k])
  }

  /** A tick issues a heartbeat if and only if the armed one is due and may be sent, and nothing else. */
  lemma TickIssues(c: Config, s: State)
    ensures var r, s1 := OnTimeout(c, s), CallDeadline(c, s);
            && |s1.log| <= |r.log| && BeatCallsOnly(r.log, |s.log|)
            && (SortFrom(r.log, |s.log|, Issue) <==>
                  && s.heartbeatAt.Some? && s.now >= s.heartbeatAt.value
                  && s.connected && s.boot == Accepted && Refuse(c, s, Heartbeat).None?)
  {
    hide Onward, SortFrom, CallDeadline, HeartbeatDeadline, BootDeadline, Pump, CheckDrain;
    var s1 := CallDeadline(c, s);
    var s2 := HeartbeatDeadline(c, s1);
    var s3 := BootDeadline(c, s2);
    var r := OnTimeout(c, s);
    CallDeadlineAside(c, s);
    CallDeadlineOnward(c, s, {Ordinary, Failing, Timing});
    HeartbeatOnward(c, s1, {Ordinary, Beat, Issue, Failing});
    BootOnward(c, s2, {Ordinary, Expiry});
    ClosingOnward(c, s3, {Ordinary});
    BeatIssues(c, s1);
    IssueStages(s, s1, s2, s3, r);
  }

  lemma BeatIssues(c: Config, s: State)
    ensures SortFrom(HeartbeatDeadline(c, s).log, |s.log|, Issue) <==>
            && s.heartbeatAt.Some? && s.now >= s.heartbeatAt.value
            && s.connected && s.boot == Accepted && Refuse(c, s, Heartbeat).None?
    ensures BeatCallsOnly(HeartbeatDeadline(c, s).log, |s.log|)
  {
    hide CallWith, Submits, ArmHeartbeat, Onward, SortOf;
    if s.heartbeatAt.Some? && s.now >= s.heartbeatAt.value {
      var s1 := Emit(s.(heartbeatAt := None), BeatDue(s.now));
      var s2 := CallWith(c, s1, s1.now, Heartbeat, EMPTY_PAYLOAD, HEARTBEAT_OPTIONS);
      if s.connected && s.boot == Accepted {
        HeartbeatCall(c, s, s1, s2);
      } else {
        Armed(c, s1, {Ordinary});
        OneBeat(s, s1, ArmHeartbeat(c, s1));
      }
    }
  }

  lemma OneBeat(s: State, s1: State, r: State)
    requires s1.log == s.log + [BeatDue(s.now)] && Onward(s1, r, {Ordinary})
    ensures !SortFrom(r.log, |s.log|, Issue) && BeatCallsOnly(r.log, |s.log|)
  {
    assert |s.log| < |r.log| && r.log[|s.log|] == s1.log[|s.log|];
  }

  /** The heartbeat's call: issued exactly if it is not refused. */
  lemma HeartbeatCall(c: Config, s: State, s1: State, s2: State)
    requires s1 == Emit(s.(heartbeatAt := None), BeatDue(s.now))
    requires s2 == CallWith(c, s1, s1.now, Heartbeat, EMPTY_PAYLOAD, HEARTBEAT_OPTIONS)
    ensures SortFrom(ArmHeartbeat(c, s2).log, |s.log|, Issue) <==> Refuse(c, s, Heartbeat).None?
    ensures BeatCallsOnly(ArmHeartbeat(c, s2).log, |s.log|)
  {
    hide Submit, ArmHeartbeat;
    Armed(c, s2, {Ordinary});
    if Refuse(c, s1, Heartbeat).None? {
      CallSubmits(c, s1, s1.now, Heartbeat, EMPTY_PAYLOAD, HEARTBEAT_OPTIONS);
      var i: nat :| Submits(c, s1, s2, i, Heartbeat, EMPTY_PAYLOAD, HEARTBEAT_OPTIONS);
      BeatCallAlone(c, s, s1, s2, ArmHeartbeat(c, s2), i);
    } else {
      OneBeat(s, s1, ArmHeartbeat(c, s2));
    }
  }

  lemma BeatCallAlone(c: Config, s: State, s1: State, s2: State, r: State, i: nat)
    requires s1.log == s.log + [BeatDue(s.now)] && Onward(s2, r, {Ordinary})
    requires Submits(c, s1, s2, i, Heartbeat, EMPTY_PAYLOAD, HEARTBEAT_OPTIONS)
    ensures SortFrom(r.log, |s.log|, Issue) && BeatCallsOnly(r.log, |s.log|)
  {
    hide IsTransactionRelated;
    assert r.log[i] == s2.log[i];
    assert !s2.log[i].keep;
    assert |s.log| < |r.log| && r.log[|s.log|] == s1.log[|s.log|];
    forall k | |s.log| <= k < |r.log| && r.log[k].Issued?
      ensures k == i
    {
      assert k < |s2.log| ==> r.log[k] == s2.log[k];
    }
  }

  lemma IssueStages(s: State, s1: State, s2: State, s3: State, r: State)
    requires Onward(s, s1, {Ordinary, Failing, Timing}) && Onward(s1, s2, {Ordinary, Beat, Issue, Failing})
    requires Onward(s2, s3, {Ordinary, Expiry}) && Onward(s3, r, {Ordinary})
    requires BeatCallsOnly(s2.log, |s1.log|)
    ensures |s1.log| <= |r.log|
    ensures SortFrom(r.log, |s.log|, Issue) <==> SortFrom(s2.log, |s1.log|, Issue)
    ensures BeatCallsOnly(r.log, |s.log|)
  {
    forall k | |s.log| <= k < |r.log|
      ensures k < |s1.log| ==> SortOf(r.log[k]) in {Ordinary, Failing, Timing}
      ensures |s1.log| <= k < |s2.log| ==> r.log[k] == s2.log[k]
      ensures |s2.log| <= k < |s3.log| ==> SortOf(r.log[k]) in {Ordinary, Expiry}
      ensures |s3.log| <= k ==> SortOf(r.log[k]) == Ordinary
    {
      assert k < |s1.log| ==> r.log[k] == s1.log[k];
      assert |s2.log| <= k < |s3.log| ==> r.log[k] == s3.log[k];
    }
  }

  /** In every run a tick issues the engine's own heartbeat, and no other call, if and only if the heartbeat
      armed last is due, the connection is up, the station accepted and the call not refused. */
  lemma TickBeatsIff(c: Config, version: Version, store: Store, cmds: seq<Command>, now: Instant)
    requires Sound(store)
    ensures var s, r := Final(c, version, store, cmds), Final(c, version, store, cmds + [Tick(now)]);
            && BeatCallsOnly(r.log, |s.log|)
            && (SortFrom(r.log, |s.log|, Issue) <==>
                  && (exists j: nat :: BeatPending(s.log, j) && Advance(s, now).now >= s.log[j].note.at)
                  && s.connected && s.boot == Accepted && Refuse(c, s, Heartbeat).None?)
  {
    hide OnTimeout, WithStore, SortFrom, BeatCallsOnly, Inv, BeatPending, KindOf, OriginOf, MaySend;
    var s := Final(c, version, store, cmds);
    assert (cmds + [Tick(now)])[..|cmds|] == cmds;
    assert Final(c, version, store, cmds + [Tick(now)]) == OnTimeout(c, Advance(s, now));
    TickIssues(c, Advance(s, now));
    RunKeeps(c, version, store, cmds);
    BeatIsArmed(c, s);
  }

  lemma BeatIsArmed(c: Config, s: State)
    requires Inv(c, s, {})
    ensures forall j: nat :: BeatPending(s.log, j) ==> s.heartbeatAt == Some(s.log[j].note.at)
    ensures s.heartbeatAt.Some? ==> exists j: nat :: BeatPending(s.log, j)
  {
    hide Agrees, Apart, Covered, InOrder, StoreRel, Next, Watch, Accepts;
    BeatRemembered(s.log);
  }

  /** The heartbeat is armed at `j` because the latest acceptance, at `v`, gave an interval; and it is due no
      sooner than that interval after any transmission before. */
  ghost predicate PacedBy(c: Config, log: seq<Event>, v: nat, j: nat)
  {
    && c.automaticHeartbeat && c.role == ChargingStation
    && v < j < |log| && log[v] == BootVerdict(Accepted) && ArmsBeat(log[j])
    && (forall k :: v < k < j ==> log[k] != BootVerdict(Accepted))
    && (exists interval: nat :: IntervalGiven(log[..v], interval)
          && forall k :: 0 <= k < j && log[k].Wire? ==> log[j].note.at >= SaturatingAdd(log[k].at, interval))
  }

  /** The answer being dealt with at the end of the log gives this heartbeat interval. */
  ghost predicate IntervalGiven(log: seq<Event>, interval: nat)
  {
    exists f :: 0 <= f < |log| && log[f].Freed? && log[f].cause.ByAnswer?
      && (forall k :: f < k < |log| ==> !log[k].Freed?)
      && SaysBoot(log[f].cause.payload, Accepted)
      && log[f].cause.payload.value.boot.value.interval.Some?
      && interval == 1000 * log[f].cause.payload.value.boot.value.interval.value && interval > 0
  }

  /** In every run the heartbeat is armed only so. */
  lemma HeartbeatsPaced(c: Config, version: Version, store: Store, cmds: seq<Command>)
    requires Sound(store)
    ensures var log := Final(c, version, store, cmds).log;
            forall j: nat :: j < |log| && ArmsBeat(log[j]) ==> exists v: nat :: PacedBy(c, log, v, j)
  {
    hide Final;
    LogAccepted(c, version, store, cmds);
    var log := Final(c, version, store, cmds).log;
    forall j: nat | j < |log| && ArmsBeat(log[j])
      ensures exists v: nat :: PacedBy(c, log, v, j)
    {
      BeatPaced(c, log, j);
    }
  }

  lemma BeatPaced(c: Config, log: seq<Event>, j: nat)
    requires Accepts(c, log) && j < |log| && ArmsBeat(log[j])
    ensures exists v: nat :: PacedBy(c, log, v, j)
  {
    hide Next, Watch, Accepts, IntervalGiven;
    AcceptsAt(c, log, j);
    var before := log[..j];
    var v := BeatSource(c, before);
    assert before[..v] == log[..v];
    ClockAhead(c, before);
    assert forall k :: 0 <= k < j ==> before[k] == log[k];
    assert PacedBy(c, log, v, j);
  }

  /** The interval in force was given by the latest acceptance. */
  lemma {:induction false} BeatSource(c: Config, log: seq<Event>) returns (v: nat)
    requires Accepts(c, log) && Watch(log).beat.Some?
    ensures v < |log| && log[v] == BootVerdict(Accepted) && IntervalGiven(log[..v], Watch(log).beat.value)
    ensures forall k :: v < k < |log| ==> log[k] != BootVerdict(Accepted)
  {
    hide Allowed, Next, Accepts, Watch, IntervalGiven;
    if log == [] {
      UnwatchedIsStart(log);
      assert false;
    }
    var n := |log| - 1;
    Unroll(c, log);
    BeatRuleStep(c, Watch(log[..n]), log[n]);
    if log[n] == BootVerdict(Accepted) {
      v := n;
      GivenByAnswer(c, log[..n], Watch(log).beat.value);
    } else {
      v := BeatSource(c, log[..n]);
      assert log[..n][..v] == log[..v];
    }
  }

  lemma BeatRuleStep(c: Config, m: View, e: Event)
    requires Allowed(c, m, e)
    ensures e != BootVerdict(Accepted) ==> Next(m, e).beat == m.beat
    ensures e == BootVerdict(Accepted) ==>
              && m.answering.Some? && SaysBoot(m.answering.value.payload, Accepted)
              && Next(m, e).beat == IntervalOf(m.answering.value.payload.value.boot.value)
  {
    hide Reports, TimerAllowed, Due, RecordedAs, EarlierTransactionsOver, SeqOf;
  }

  lemma GivenByAnswer(c: Config, log: seq<Event>, interval: nat)
    requires Accepts(c, log) && Watch(log).answering.Some? && SaysBoot(Watch(log).answering.value.payload, Accepted)
    requires IntervalOf(Watch(log).answering.value.payload.value.boot.value) == Some(interval)
    ensures IntervalGiven(log, interval)
  {
    hide Accepts, Watch;
    var f := AnsweringSomewhere(c, log);
  }

  /** No transmission is later than the view's clock. */
  lemma {:induction false} ClockAhead(c: Config, log: seq<Event>)
    requires Accepts(c, log)
    ensures forall k :: 0 <= k < |log| && log[k].Wire? ==> log[k].at <= Watch(log).clock
  {
    hide Allowed, Next, Accepts, Watch;
    if log != [] {
      var n := |log| - 1;
      Unroll(c, log);
      ClockAhead(c, log[..n]);
      ClockStep(c, Watch(log[..n]), log[n]);
    }
  }

  lemma ClockStep(c: Config, m: View, e: Event)
    requires Allowed(c, m, e)
    ensures Next(m, e).clock >= m.clock && (e.Wire? ==> Next(m, e).clock >= e.at)
  {
    hide Reports, TimerAllowed, Due, RecordedAs, EarlierTransactionsOver, SeqOf;
  }

  // -- traffic postpones the heartbeat ------------------------------------------------------

  /** Where heartbeats are automatic and an interval is known, the next one is that interval away. */
  predicate Beating(c: Config, s: State)
  {
    c.automaticHeartbeat && c.role == ChargingStation && s.heartbeatInterval.Some? && s.heartbeatInterval.value > 0
    ==> s.heartbeatAt == Some(SaturatingAdd(s.now, s.heartbeatInterval.value))
  }

  /** Whatever was transmitted on the way from `s` to `r` has postponed the heartbeat. */
  ghost predicate Rearms(c: Config, s: State, r: State)
  {
    r.now == s.now && r.minted >= s.minted && (Beating(c, s) || r.minted > s.minted ==> Beating(c, r))
  }

  lemma RearmChain(c: Config, s: State, t: State, r: State)
    requires Rearms(c, s, t) && Rearms(c, t, r)
    ensures Rearms(c, s, r)
  {
  }

  lemma ArmingBeats(c: Config, s: State)
    ensures Beating(c, ArmHeartbeat(c, s)) && Rearms(c, s, ArmHeartbeat(c, s))
  {
  }

  lemma OutRearms(c: Config, s: State, i: nat)
    requires i < |s.queue|
    ensures Rearms(c, s, SendOut(c, s, i)) && Rearms(c, s, CallOut(c, s, i))
  {
  }

  lemma {:induction false} PumpRearms(c: Config, s: State)
    ensures Rearms(c, s, PumpSends(c, s)) && Rearms(c, s, Pump(c, s))
    decreases |s.queue|
  {
    hide SendOut, CallOut, Beating;
    var i := FindEligible(c, s, SEND, 0);
    if i.Some? {
      OutRearms(c, s, i.value);
      PumpRearms(c, SendOut(c, s, i.value));
    }
    var s1 := PumpSends(c, s);
    var j := FindEligible(c, s1, CALL, 0);
    if s1.inflight.None? && j.Some? {
      OutRearms(c, s1, j.value);
    }
  }

  /** The same clock, ids and heartbeat. */
  predicate SameBeat(s: State, r: State)
  {
    r.now == s.now && r.minted == s.minted && r.heartbeatAt == s.heartbeatAt && r.heartbeatInterval == s.heartbeatInterval
  }

  lemma PumpAndDrain(c: Config, s: State, t: State)
    requires SameBeat(s, t)
    ensures Rearms(c, s, CheckDrain(Pump(c, t)))
  {
    hide Pump;
    PumpRearms(c, t);
  }

  lemma SubmitRearms(c: Config, s: State, action: Action, payload: Payload, options: CallOptions)
    requires Refuse(c, s, action).None?
    ensures Rearms(c, s, Submit(c, s, action, payload, options))
  {
    hide Pump, Rearms, SubmittedCall, Full, Refuse, RememberSolicited, Enqueue, FailNow, SameBeat;
    var call := SubmittedCall(c, s, action, payload);
    var persist := if options.persist.Some? then options.persist.value else call.transactional;
    var keep := if options.queueWhenOffline.Some? then options.queueWhenOffline.value
                else call.transactional || c.queueAllMessages;
    FailSame(c, s, call, options.triggered, keep);
    if !(persist && Full(s.store)) {
      var s1 := Enqueue(s, call, persist, options.triggered, keep);
      var s2 := if c.role == Csms then RememberSolicited(s1, action, payload) else s1;
      EnqueueSame(c, s, call, persist, options.triggered, keep, action, payload);
      PumpRearms(c, s2);
      RearmChain(c, s, s2, Pump(c, s2));
    }
  }

  lemma EnqueueSame(c: Config, s: State, call: QueuedCall, persist: bool, triggered: bool, keep: bool, action: Action,
                    payload: Payload)
    requires persist ==> !Full(s.store)
    ensures var s1 := Enqueue(s, call, persist, triggered, keep);
            Rearms(c, s, s1) && Rearms(c, s, RememberSolicited(s1, action, payload))
  {
  }

  lemma FailSame(c: Config, s: State, call: QueuedCall, triggered: bool, keep: bool)
    ensures forall why :: Rearms(c, s, FailNow(s, call, triggered, keep, why))
    ensures forall why :: Rearms(c, s, FailNow(Complain(s, StoreFailure), call, triggered, keep, why))
  {
  }

  /** What leaves clock, ids and heartbeat alone leaves the pace alone. */
  lemma SamePace(c: Config, s: State, r: State)
    requires SameBeat(s, r)
    ensures Rearms(c, s, r) && Beating(c, r) == Beating(c, s)
  {
  }

  lemma CallRearms(c: Config, s: State, now: Instant, action: Action, payload: Payload, options: CallOptions)
    ensures Rearms(c, Advance(s, now), CallWith(c, s, now, action, payload, options))
  {
    hide Submit;
    if Refuse(c, Advance(s, now), action).None? {
      SubmitRearms(c, Advance(s, now), action, payload, options);
    }
  }

  lemma PumpBeats(c: Config, s: State)
    requires Beating(c, s)
    ensures Beating(c, Pump(c, s))
  {
    hide Pump;
    PumpRearms(c, s);
  }

  lemma ObserveRearms(c: Config, s: State, payload: Payload)
    requires Beating(c, s)
    ensures Beating(c, ObserveBootAnswer(c, s, payload, false))
  {
    hide Pump, ArmHeartbeat, Beating, Rearms;
    if payload.boot.Some? && payload.boot.value.status.Some? {
      var answer := payload.boot.value;
      var s1 := Emit(s.(boot := answer.status.value), BootVerdict(answer.status.value));
      var s2 := if answer.time.Some? then Say(s1, ClockSample(answer.time.value, s1.now)) else s1;
      var interval := if answer.interval.Some? && answer.interval.value > 0 then Some(1000 * answer.interval.value)
                      else None;
      ArmingBeats(c, s2.(heartbeatInterval := interval));
      PumpBeats(c, ArmHeartbeat(c, s2.(heartbeatInterval := interval)));
      var at := SaturatingAdd(s2.now, if interval.Some? then interval.value else c.bootRetryFallback);
      SamePace(c, s, s2);
      SamePace(c, s2, Say(s2.(bootRetryAt := Some(at)), SetTimer(BootRetry, at)));
      if answer.status.value != Accepted {
        SamePace(c, s, ObserveBootAnswer(c, s, payload, false));
      }
    }
  }

  lemma AnswerRearms(c: Config, s: State, id: MessageId, payload: Payload)
    requires Beating(c, s)
    ensures Beating(c, OnCallResult(c, s, id, payload)) && Beating(c, OnCallError(c, s, id))
  {
    hide Pump, ObserveBootAnswer, CheckDrain, Beating;
    SamePace(c, s, Complain(s, UnexpectedResponse(id)));
    if Answers(s, id) {
      var f := s.inflight.value;
      var s1 := Say(Settle(Take(s, ByAnswer(Some(payload))), f.entry), ClearTimer(CallTimeout));
      var s0 := Say(Settle(Take(s, ByAnswer(None)), f.entry), ClearTimer(CallTimeout));
      SamePace(c, s, s1);
      SamePace(c, s, s0);
      ObserveRearms(c, s1, payload);
      var s2 := if f.entry.call.action == BootNotification && c.role == ChargingStation then
                  ObserveBootAnswer(c, s1, payload, false)
                else if f.entry.call.action == Heartbeat && payload.time.Some? then
                  Say(s1, ClockSample(payload.time.value, s1.now))
                else s1;
      if payload.time.Some? {
        SamePace(c, s1, Say(s1, ClockSample(payload.time.value, s1.now)));
      }
      PumpAndDrain(c, s2, Finish(s2, f.entry, Some(id), Ok(Answer.CallResult(payload))));
      PumpAndDrain(c, s0, Finish(s0, f.entry, Some(id), Err(RejectedByPeer)));
    }
  }

  lemma ReactBeats(c: Config, s: State, t: State, id: MessageId, action: Action, payload: Payload, kind: Kind)
    requires Beating(c, s) && SameBeat(s, t)
    ensures forall code :: Beating(c, RefuseRequest(c, t, id, kind, code))
    ensures Beating(c, Surface(c, t, id, action, payload, kind))
  {
    hide ArmHeartbeat, Beating;
    SamePace(c, s, t);
    forall code
      ensures Beating(c, RefuseRequest(c, t, id, kind, code))
    {
      ArmingBeats(c, Emit(t, Refused(id, code)));
    }
    if !BlockedByBoot(c, t, action) {
      SamePace(c, s, Surface(c, t, id, action, payload, kind));
    }
  }

  lemma OnCallRearms(c: Config, s: State, id: MessageId, action: Action, payload: Payload, kind: Kind)
    requires Beating(c, s)
    ensures Beating(c, OnCall(c, s, id, action, payload, kind))
  {
    hide Beating, RefuseRequest, Surface;
    ReactBeats(c, s, s, id, action, payload, kind);
    ReactBeats(c, s, Complain(s, Violation.WrongMessageKind(action, kind)), id, action, payload, kind);
    ReactBeats(c, s, Complain(s, Violation.WrongDirection(action)), id, action, payload, kind);
    ReactBeats(c, s, Complain(s, DuplicateMessageId(id)), id, action, payload, kind);
    var s1 := Complain(s, ConcurrentCall(id));
    ReactBeats(c, s, s1, id, action, payload, kind);
    ReactBeats(c, s, Complain(s1, TooManyPeerRequests(id)), id, action, payload, kind);
  }

  /** After a frame from the peer, a new connection, a command that transmits a call, or a heartbeat that fell
      due, the next heartbeat is a whole interval away. */
  lemma TrafficPostpones(c: Config, s: State, cmd: Command)
    requires || cmd.Receive? || cmd.Connect? || Apply(c, s, cmd).minted > s.minted
             || (cmd.Tick? && s.heartbeatAt.Some? && Advance(s, cmd.now).now >= s.heartbeatAt.value)
    ensures Beating(c, Apply(c, s, cmd))
  {
    hide Beating, OnReceived, CallWith, OnConnected, OnTimeout, OnDisconnected, RespondTo;
    match cmd
    case Receive(now, frame) => ReceiveBeats(c, Advance(s, now), frame);
    case Connect(now, version) => ConnectBeats(c, Advance(s, now), version);
    case Call(now, action, payload, options) => CallRearms(c, s, now, action, payload, options);
    case Tick(now) =>
      TickRearms(c, Advance(s, now));
      DueBeats(c, Advance(s, now));
    case Disconnect(now) => NothingSentOffline(c, Advance(s, now));
    case Respond(now, id, payload) => NothingSentAnswering(c, s, now, id, WithResult(payload));
    case RespondError(now, id) => NothingSentAnswering(c, s, now, id, WithError);
    case _ =>
  }

  lemma TickRearms(c: Config, s: State)
    ensures Rearms(c, s, OnTimeout(c, s))
  {
    hide Rearms, CallDeadline, HeartbeatDeadline, BootDeadline, Pump, CheckDrain;
    var s1 := CallDeadline(c, s);
    DeadlinesPace(c, s);
    var s2 := HeartbeatDeadline(c, s1);
    DuePace(c, s1);
    RearmChain(c, s, s1, s2);
    DeadlinesPace(c, s2);
    var s3 := BootDeadline(c, s2);
    RearmChain(c, s, s2, s3);
    PumpAndDrain(c, s3, s3);
    ClosePace(c, s3);
    RearmChain(c, s, s3, OnTimeout(c, s));
  }

  lemma DueBeats(c: Config, s: State)
    ensures s.heartbeatAt.Some? && s.now >= s.heartbeatAt.value ==> Beating(c, OnTimeout(c, s))
  {
    hide Beating, CallDeadline, HeartbeatDeadline, BootDeadline, Pump, CheckDrain;
    var s1 := CallDeadline(c, s);
    CallDeadlineAside(c, s);
    SpentBeats(c, s1);
    var s2 := HeartbeatDeadline(c, s1);
    DeadlinesPace(c, s2);
    PumpAndDrain(c, BootDeadline(c, s2), BootDeadline(c, s2));
    ClosePace(c, BootDeadline(c, s2));
  }

  lemma SpentBeats(c: Config, s: State)
    ensures s.heartbeatAt.Some? && s.now >= s.heartbeatAt.value ==> Beating(c, HeartbeatDeadline(c, s))
  {
    hide CallWith, ArmHeartbeat, Beating;
    var s1 := Emit(s.(heartbeatAt := None), BeatDue(s.now));
    ArmingBeats(c, s1);
    ArmingBeats(c, CallWith(c, s1, s1.now, Heartbeat, EMPTY_PAYLOAD, HEARTBEAT_OPTIONS));
  }

  lemma DeadlinesPace(c: Config, s: State)
    ensures Rearms(c, s, CallDeadline(c, s)) && Rearms(c, s, BootDeadline(c, s))
  {
    hide Rearms;
    SamePace(c, s, CallDeadline(c, s));
    SamePace(c, s, BootDeadline(c, s));
  }

  lemma ClosePace(c: Config, s: State)
    ensures Rearms(c, s, Emit(s, Closed(DrainTimedOut, s.now)).(draining := None))
  {
  }

  lemma DuePace(c: Config, s: State)
    ensures Rearms(c, s, HeartbeatDeadline(c, s))
  {
    hide CallWith, ArmHeartbeat;
    if s.heartbeatAt.Some? && s.now >= s.heartbeatAt.value {
      var s1 := Emit(s.(heartbeatAt := None), BeatDue(s.now));
      var s2 := if s1.connected && s1.boot == Accepted then
                  CallWith(c, s1, s1.now, Heartbeat, EMPTY_PAYLOAD, HEARTBEAT_OPTIONS)
                else s1;
      CallRearms(c, s1, s1.now, Heartbeat, EMPTY_PAYLOAD, HEARTBEAT_OPTIONS);
      ArmingBeats(c, s2);
    }
  }

  lemma {:induction false} NothingDropped(s: State, i: nat)
    requires i <= |s.queue|
    ensures FailUnqueueable(s, i).minted == s.minted
    decreases |s.queue| - i
  {
    if i < |s.queue| {
      NothingDropped(if s.queue[i].queueWhenOffline then s else Drop(s, i, Failure.Disconnected),
                     if s.queue[i].queueWhenOffline then i + 1 else i);
    }
  }

  lemma NothingSentOffline(c: Config, s: State)
    ensures OnDisconnected(c, s).minted == s.minted
  {
    hide FailUnqueueable;
    var s1 := Say(Say(Emit(s.(connected := false, peers := {}), Linked(false)),
                      ClearTimer(CallTimeout)), ClearTimer(HeartbeatTimer)).(heartbeatAt := None);
    var s2 := if s1.inflight.Some? then
                RequeueOrFail(c, Take(s1, ByDisconnect), s1.inflight.value, Failure.Disconnected)
              else s1;
    NothingDropped(s2, 0);
  }

  lemma NothingSentAnswering(c: Config, s: State, now: Instant, id: MessageId, reply: Reply)
    ensures RespondTo(c, s, now, id, reply).minted == s.minted
  {
  }

  lemma ConnectBeats(c: Config, s: State, version: Version)
    ensures Beating(c, OnConnected(c, s, version))
  {
    hide Pump, ArmHeartbeat;
    var s1 := Emit(s.(version := version, connected := true, peers := {}), Linked(true));
    ArmingBeats(c, s1);
    PumpRearms(c, ArmHeartbeat(c, s1));
  }

  lemma ReceiveBeats(c: Config, s: State, frame: Frame)
    ensures Beating(c, OnReceived(c, s, frame))
  {
    hide OnCall, OnCallResult, OnCallError, ArmHeartbeat, Beating;
    var s1 := ArmHeartbeat(c, s);
    ArmingBeats(c, s);
    match frame
    case Unreadable(unknown, reply, id) =>
      var s2 := Complain(s1, if unknown then UnknownMessageType else MalformedFrame);
      SamePace(c, s1, s2);
      ArmingBeats(c, Emit(s2, Noted(ErrorFrame(id, reply == ReplyCallResultError))));
    case _ =>
      SamePace(c, s1, Complain(s1, NonConformingMessageId(frame.id)));
      FrameBeats(c, if Conforming(frame.id) then s1 else Complain(s1, NonConformingMessageId(frame.id)), frame);
  }

  lemma FrameBeats(c: Config, s: State, frame: Frame)
    requires Beating(c, s) && !frame.Unreadable?
    ensures Beating(c, match frame
                       case CallFrame(id, action, payload) => OnCall(c, s, id, action, payload, CALL)
                       case SendFrame(id, action, payload) => OnCall(c, s, id, action, payload, SEND)
                       case ResultFrame(id, payload) => OnCallResult(c, s, id, payload)
                       case ErrorFrameOf(id) => OnCallError(c, s, id)
                       case ResultErrorFrame(id) => Say(s, ResultRejected(id)))
  {
    hide OnCall, OnCallResult, OnCallError, Beating;
    match frame
    case CallFrame(id, action, payload) => OnCallRearms(c, s, id, action, payload, CALL);
    case SendFrame(id, action, payload) => OnCallRearms(c, s, id, action, payload, SEND);
    case ResultFrame(id, payload) => AnswerRearms(c, s, id, payload);
    case ErrorFrameOf(id) => AnswerRearms(c, s, id, EMPTY_PAYLOAD);
    case ResultErrorFrame(id) => SamePace(c, s, Say(s, ResultRejected(id)));
  }
}
