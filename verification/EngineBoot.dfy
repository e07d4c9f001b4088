/** How long an acceptance lasts: the boot retry over whole runs (src/engine/mod.rs). */
module EngineBoot {
  import opened Basics
  import opened Messages
  import opened MessageIds
  import opened Queue
  import opened Monitor
  import opened Traces
  import opened EngineModel
  import opened EngineInvariant
  import opened EngineSafety
  import opened EngineTheorems
  import opened EngineProgress
  import opened EngineHistory
  import opened EngineTimers

  // -- the retry in the log -----------------------------------------------------------------

  predicate ArmsRetry(e: Event) { e.Noted? && e.note.SetTimer? && e.note.timer == BootRetry }

  predicate AboutRetry(e: Event) { ArmsRetry(e) || e.BootExpired? }

  /** The boot retry armed at `j` is neither spent nor replaced. */
  ghost predicate Pending(log: seq<Event>, j: nat)
  {
    && j < |log| && ArmsRetry(log[j])
    && forall k :: j < k < |log| ==> !AboutRetry(log[k])
  }

  lemma RetryStep(m: View, e: Event)
    ensures Next(m, e).retryAt == if ArmsRetry(e) then Some(e.note.at) else if e.BootExpired? then None else m.retryAt
  {
  }

  /** The view remembers exactly the pending retry. */
  lemma {:induction false} RetryRemembered(log: seq<Event>)
    ensures forall j: nat :: Pending(log, j) ==> Watch(log).retryAt == Some(log[j].note.at)
    ensures Watch(log).retryAt.Some? ==> exists j: nat :: Pending(log, j)
  {
    if log == [] {
      UnwatchedIsStart(log);
    } else {
      var n := |log| - 1;
      var front := log[..n];
      RetryRemembered(front);
      RetryStep(Watch(front), log[n]);
      hide Next;
      assert Watch(log) == Next(Watch(front), log[n]);
      if ArmsRetry(log[n]) {
        assert Pending(log, n);
      } else if !log[n].BootExpired? && Watch(front).retryAt.Some? {
        var j: nat :| Pending(front, j);
        assert Pending(log, j);
      }
      forall j: nat | Pending(log, j)
        ensures Watch(log).retryAt == Some(log[j].note.at)
      {
        assert j < n ==> Pending(front, j);
      }
    }
  }

  /** In every run a boot state expires only through a retry that was armed, is not spent, and has
      come due. */
  lemma ExpiresOnlyWhenDue(c: Config, version: Version, store: Store, cmds: seq<Command>)
    requires Sound(store)
    ensures var log := Final(c, version, store, cmds).log;
            forall k :: 0 <= k < |log| && log[k].BootExpired? ==>
              exists j: nat :: Pending(log[..k], j) && log[k].at >= log[j].note.at
  {
    hide Final;
    LogAccepted(c, version, store, cmds);
    var log := Final(c, version, store, cmds).log;
    forall k | 0 <= k < |log| && log[k].BootExpired?
      ensures exists j: nat :: Pending(log[..k], j) && log[k].at >= log[j].note.at
    {
      ExpiryDue(c, log, k);
    }
  }

  lemma ExpiryDue(c: Config, log: seq<Event>, k: nat)
    requires Accepts(c, log) && k < |log| && log[k].BootExpired?
    ensures exists j: nat :: Pending(log[..k], j) && log[k].at >= log[j].note.at
  {
    hide Accepts, Watch, Next;
    AcceptsAt(c, log, k);
    RetryRemembered(log[..k]);
    var j: nat :| Pending(log[..k], j);
    assert log[..k][j] == log[j];
  }

  // -- exactly when -------------------------------------------------------------------------

  /** In every run, a tick makes the boot state expire if and only if a retry armed before is still
      pending and has come due. */
  lemma TickExpiresIffDue(c: Config, version: Version, store: Store, cmds: seq<Command>, now: Instant)
    requires Sound(store)
    ensures var s, r := Final(c, version, store, cmds), Final(c, version, store, cmds + [Tick(now)]);
            SortFrom(r.log, |s.log|, Expiry) <==>
            exists j: nat :: Pending(s.log, j) && Advance(s, now).now >= s.log[j].note.at
  {
    hide OnTimeout, WithStore, SortFrom;
    var s := Final(c, version, store, cmds);
    assert (cmds + [Tick(now)])[..|cmds|] == cmds;
    assert Final(c, version, store, cmds + [Tick(now)]) == OnTimeout(c, Advance(s, now));
    TickSorts(c, Advance(s, now));
    RetryTracked(c, version, store, cmds);
    RetryRemembered(s.log);
  }

  lemma RetryTracked(c: Config, version: Version, store: Store, cmds: seq<Command>)
    requires Sound(store)
    ensures var s := Final(c, version, store, cmds); Watch(s.log).retryAt == s.bootRetryAt
  {
    hide Agrees, Apart, Covered, InOrder, StoreRel, Run, WithStore, Accepts;
    RunKeeps(c, version, store, cmds);
  }

  // -- an acceptance that is lost -----------------------------------------------------------

  /** A station between calls. */
  ghost predicate Resting(c: Config, s: State)
  {
    && c.role == ChargingStation && c.maxQueued > 0
    && (s.version, BootNotification) in c.known && c.known[(s.version, BootNotification)] == FromStation
    && s.connected && s.queue == [] && s.inflight.None? && s.draining.None?
  }

  const PLAIN_CALL := CallOptions(false, Some(false), None)

  function Verdict(state: BootState, seconds: nat): (p: Payload)
  {
    EMPTY_PAYLOAD.(boot := Some(BootAnswer(Some(state), Some(seconds), None)))
  }

  /** A `BootNotification` of a resting station goes out at once. */
  lemma BootGoesOut(c: Config, s: State, now: Instant)
    requires Resting(c, s)
    ensures var r := CallWith(c, s, now, BootNotification, EMPTY_PAYLOAD, PLAIN_CALL);
            && r.inflight.Some? && r.inflight.value.id == IdText(c.prefix, s.minted % U64_LIMIT)
            && r.inflight.value.entry.call.action == BootNotification && r.queue == []
            && r.connected && r.draining.None? && r.version == s.version && r.minted == s.minted + 1
            && r.boot == s.boot && r.bootRetryAt == s.bootRetryAt && r.now == Advance(s, now).now
  {
    hide IdText;
    var s0 := Advance(s, now);
    assert Refuse(c, s0, BootNotification) == None;
    var call := SubmittedCall(c, s0, BootNotification, EMPTY_PAYLOAD);
    var s1 := Enqueue(s0, call, false, false, c.queueAllMessages);
    var w := Waiting(s0.nextToken, call, None, None, false, c.queueAllMessages);
    assert s1.queue == [w];
    assert FindEligible(c, s1, SEND, 1) == None;
    assert FindEligible(c, s1, SEND, 0) == None;
    assert PumpSends(c, s1) == s1;
    assert Eligible(c, s1, 0);
    assert FindEligible(c, s1, CALL, 0) == Some(0);
    assert Pump(c, s1) == CallOut(c, s1, 0);
    assert RemoveAt(s1.queue, 0) == [];
  }

  /** Its answer puts the station at rest again, in the state the answer names. */
  lemma BootAnswered(c: Config, s: State, state: BootState, seconds: nat)
    requires Resting(c, s.(inflight := None)) && s.inflight.Some? && state != Idle && seconds > 0
    requires s.inflight.value.entry.call.action == BootNotification
    ensures var r := OnCallResult(c, s, s.inflight.value.id, Verdict(state, seconds));
            && Resting(c, r) && r.minted == s.minted && r.boot == state && r.now == s.now
            && r.bootRetryAt == if state == Accepted then s.bootRetryAt else Some(SaturatingAdd(s.now, 1000 * seconds))
  {
    var f := s.inflight.value;
    var payload := Verdict(state, seconds);
    var s1 := Say(Settle(Take(s, ByAnswer(Some(payload))), f.entry), ClearTimer(CallTimeout));
    var s2 := ObserveBootAnswer(c, s1, payload, false);
    NothingToPump(c, ArmHeartbeat(c, Emit(s1.(boot := state), BootVerdict(state)).(heartbeatInterval := Some(1000 * seconds))));
    var s3 := Finish(s2, f.entry, Some(f.id), Ok(Answer.CallResult(payload)));
    assert s2.queue == [];
    NothingToPump(c, s3);
  }

  lemma NothingToPump(c: Config, s: State)
    requires s.queue == []
    ensures Pump(c, s) == s
  {
    assert FindEligible(c, s, SEND, 0) == None && FindEligible(c, s, CALL, 0) == None;
  }

  /** A station told to wait, then accepted before the wait is over, and then asked what time it is. */
  const LOSING := [
    Connect(0, V201),
    Call(0, BootNotification, EMPTY_PAYLOAD, PLAIN_CALL),
    Receive(0, ResultFrame(IdText("cs", 0), Verdict(BootState.Pending, 60))),
    Call(0, BootNotification, EMPTY_PAYLOAD, PLAIN_CALL),
    Receive(0, ResultFrame(IdText("cs", 1), Verdict(Accepted, 300))),
    Tick(60_000)]

  const LOSING_STATION :=
    Config(ChargingStation, map[(V201, BootNotification) := FromStation], "cs", 30_000, false, false,
           RetryPolicy(3, 60_000), false, 100, true, 60_000, 8)

  /** The acceptance is lost, though nothing was said against it. */
  lemma AcceptanceCanBeLost()
    ensures Final(LOSING_STATION, V201, EMPTY_STORE, LOSING[..5]).boot == Accepted
    ensures Final(LOSING_STATION, V201, EMPTY_STORE, LOSING).boot == Idle
  {
    hide IdText, CallWith, OnCallResult, OnTimeout, Final;
    var c := LOSING_STATION;
    var s0 := WithStore(c, V201, EMPTY_STORE);
    ConnectRests(c, s0);
    var s1 := Apply(c, s0, LOSING[0]);
    ShortIdsConform(0);
    ShortIdsConform(1);
    BootGoesOut(c, s1, 0);
    var s2 := Apply(c, s1, LOSING[1]);
    var s3 := Told(c, s2, BootState.Pending, 60, LOSING[2]);
    BootGoesOut(c, s3, 0);
    var s4 := Apply(c, s3, LOSING[3]);
    var s5 := Told(c, s4, Accepted, 300, LOSING[4]);
    var s6 := Apply(c, s5, LOSING[5]);
    AcceptedSurvivesTimeoutIff(c, Advance(s5, 60_000));
    ExpiredIsIdle(c, Advance(s5, 60_000));
    SixSteps(c, s0, s1, s2, s3, s4, s5, s6);
  }

  lemma ShortIdsConform(v: nat)
    ensures Conforming(IdText("cs", v))
  {
  }

  lemma ConnectRests(c: Config, s: State)
    requires c == LOSING_STATION && s == WithStore(c, V201, EMPTY_STORE)
    ensures var r := Apply(c, s, LOSING[0]);
            Resting(c, r) && r.minted == 0 && r.bootRetryAt == None && r.now == 0 && r.version == V201
  {
    assert RestoreAll(Blank(c, V201, EMPTY_STORE), 0) == Blank(c, V201, EMPTY_STORE);
    NothingToPump(c, ArmHeartbeat(c, Emit(s.(version := V201, connected := true, peers := {}), Linked(true))));
  }

  lemma Told(c: Config, s: State, state: BootState, seconds: nat, cmd: Command) returns (r: State)
    requires !c.automaticHeartbeat && Resting(c, s.(inflight := None)) && s.inflight.Some? && s.now == 0
    requires s.inflight.value.entry.call.action == BootNotification && state != Idle && seconds > 0
    requires cmd == Receive(0, ResultFrame(s.inflight.value.id, Verdict(state, seconds))) && Conforming(s.inflight.value.id)
    ensures r == Apply(c, s, cmd)
    ensures Resting(c, r) && r.minted == s.minted && r.boot == state && r.now == 0
    ensures r.bootRetryAt == if state == Accepted then s.bootRetryAt else Some(SaturatingAdd(0, 1000 * seconds))
  {
    hide OnCallResult;
    BootAnswered(c, s, state, seconds);
    r := Apply(c, s, cmd);
  }

  lemma ExpiredIsIdle(c: Config, s: State)
    requires s.bootRetryAt.Some? && s.now >= s.bootRetryAt.value
    ensures OnTimeout(c, s).boot == Idle
  {
    hide Pump, HeartbeatDeadline;
    CallDeadlineAside(c, s);
    HeartbeatBoot(c, CallDeadline(c, s));
    PumpBoot(c, BootDeadline(c, HeartbeatDeadline(c, CallDeadline(c, s))));
  }

  lemma SixSteps(c: Config, s0: State, s1: State, s2: State, s3: State, s4: State, s5: State, s6: State)
    requires c == LOSING_STATION && s0 == WithStore(c, V201, EMPTY_STORE)
    requires s1 == Apply(c, s0, LOSING[0]) && s2 == Apply(c, s1, LOSING[1]) && s3 == Apply(c, s2, LOSING[2])
    requires s4 == Apply(c, s3, LOSING[3]) && s5 == Apply(c, s4, LOSING[4]) && s6 == Apply(c, s5, LOSING[5])
    ensures Final(c, V201, EMPTY_STORE, LOSING[..5]) == s5 && Final(c, V201, EMPTY_STORE, LOSING) == s6
  {
    hide Apply, WithStore, IdText;
    var l := LOSING;
    assert l[..6] == l && l[..6][..5] == l[..5] && l[..5][..4] == l[..4] && l[..4][..3] == l[..3];
    assert l[..3][..2] == l[..2] && l[..2][..1] == l[..1] && l[..1][..0] == [];
    assert Run(c, s0, l[..1]) == s1;
    assert Run(c, s0, l[..2]) == s2;
    assert Run(c, s0, l[..3]) == s3;
    assert Run(c, s0, l[..4]) == s4;
  }
}
