/** Every operation of the engine keeps the invariant, so every run does. */
module EngineSafety {
  import opened Basics
  import opened Messages
  import opened MessageIds
  import opened Queue
  import opened Monitor
  import opened EngineModel
  import opened EngineInvariant

  /** One logged event. */
  lemma Step(c: Config, s: State, e: Event, s': State, hand': set<Waiting>)
    requires Accepts(c, s.log) && Allowed(c, Watch(s.log), e) && s'.log == s.log + [e]
    requires Rel(c, CoreOf(s'), hand', Next(Watch(s.log), e))
    ensures Inv(c, s', hand')
  {
    AcceptsOne(c, s.log, e);
  }

  /** What is known of the calls in hand stays as it was. */
  ghost predicate HandKept(s: State, r: State, hand: set<Waiting>)
  {
    var m, m' := Watch(s.log), Watch(r.log);
    && m'.cancelling == m.cancelling && m'.connected == m.connected && r.now == s.now
    && forall p :: p in hand && p.token < |m.calls| ==> p.token < |m'.calls| && m'.calls[p.token] == m.calls[p.token]
  }

  lemma HandSteps(s: State, t: State, r: State, hand: set<Waiting>)
    requires HandKept(s, t, hand) && HandKept(t, r, hand)
    ensures HandKept(s, r, hand)
  {
  }

  lemma AddedView(log: seq<Event>, e: Event)
    ensures Watch(log + [e]) == Next(Watch(log), e)
  {
    assert (log + [e])[..|log|] == log;
  }

  lemma SayKeepsView(s: State, n: Note)
    requires Plain(n)
    ensures Watch(Say(s, n).log) == Watch(s.log)
  {
    AddedView(s.log, Noted(n));
  }

  /** Notes that leave the view as it is. */
  predicate Plain(n: Note)
  {
    && (n.SetTimer? ==> n.timer == CallTimeout || n.timer == TransactionRetry)
    && n != ClearTimer(HeartbeatTimer)
  }

  lemma SayKeeps(c: Config, s: State, hand: set<Waiting>, n: Note)
    requires Inv(c, s, hand) && Plain(n)
    requires n.SetTimer? ==> TimerAllowed(c, Watch(s.log), n.timer, n.at)
    requires n.ClockSample? ==> ClockGiven(Watch(s.log), n.time, n.at)
    ensures Inv(c, Say(s, n), hand) && HandKept(s, Say(s, n), hand)
  {
    hide TimerAllowed;
    Step(c, s, Noted(n), Say(s, n), hand);
    SayKeepsView(s, n);
  }

  /** A timer the view remembers is set or cleared, in the engine and in the log. */
  lemma TimerKeeps(c: Config, s: State, r: State, hand: set<Waiting>, n: Note)
    requires Inv(c, s, hand) && Allowed(c, Watch(s.log), Noted(n)) && r.log == s.log + [Noted(n)] && r.now == s.now
    requires var k, k' := CoreOf(s), CoreOf(r);
             k' == k.(retryAt := k'.retryAt, heartbeatAt := k'.heartbeatAt, draining := k'.draining)
    requires var m := NextTimer(Watch(s.log), n);
             m.retryAt == r.bootRetryAt && m.beatAt == r.heartbeatAt && m.drainBy == r.draining
    ensures Inv(c, r, hand) && HandKept(s, r, hand)
  {
    hide Inv, Watch, Allowed, HandKept;
    var e := Noted(n);
    TimerRel(c, s, r, hand, n);
    Step(c, s, e, r, hand);
    TimerView(c, s, r, hand, n);
  }

  lemma TimerView(c: Config, s: State, r: State, hand: set<Waiting>, n: Note)
    requires r.log == s.log + [Noted(n)] && r.now == s.now
    ensures HandKept(s, r, hand)
  {
    AddedView(s.log, Noted(n));
  }

  lemma TimerRel(c: Config, s: State, r: State, hand: set<Waiting>, n: Note)
    requires Inv(c, s, hand)
    requires var k, k' := CoreOf(s), CoreOf(r);
             k' == k.(retryAt := k'.retryAt, heartbeatAt := k'.heartbeatAt, draining := k'.draining)
    requires var m := NextTimer(Watch(s.log), n);
             m.retryAt == r.bootRetryAt && m.beatAt == r.heartbeatAt && m.drainBy == r.draining
    ensures Accepts(c, s.log) && Rel(c, CoreOf(r), hand, Next(Watch(s.log), Noted(n)))
  {
    hide Agrees, Apart, Covered, InOrder, StoreRel, Asked, Globals, Accepts, Watch;
    var m, m' := Watch(s.log), Next(Watch(s.log), Noted(n));
    assert m' == m.(retryAt := m'.retryAt, beatAt := m'.beatAt, drainBy := m'.drainBy);
    TimerGlobals(c, CoreOf(s), CoreOf(r), m, m');
    Aside(c, CoreOf(s), CoreOf(r), hand, m, m');
  }

  lemma TimerGlobals(c: Config, k: Core, k': Core, m: View, m': View)
    requires Globals(c, k, m)
    requires k' == k.(retryAt := k'.retryAt, heartbeatAt := k'.heartbeatAt, draining := k'.draining)
    requires m' == m.(retryAt := m'.retryAt, beatAt := m'.beatAt, drainBy := m'.drainBy)
    requires m'.retryAt == k'.retryAt && m'.beatAt == k'.heartbeatAt && m'.drainBy == k'.draining
    ensures Globals(c, k', m')
  {
  }

  lemma ArmKeeps(c: Config, s: State, hand: set<Waiting>)
    requires Inv(c, s, hand)
    ensures Inv(c, ArmHeartbeat(c, s), hand) && HandKept(s, ArmHeartbeat(c, s), hand)
    ensures CoreOf(ArmHeartbeat(c, s)) == CoreOf(s).(heartbeatAt := ArmHeartbeat(c, s).heartbeatAt)
  {
    hide Agrees, Apart, Covered, InOrder, StoreRel;
    if ArmHeartbeat(c, s) != s {
      var at := SaturatingAdd(s.now, s.heartbeatInterval.value);
      assert Timing(c, CoreOf(s), Watch(s.log));
      TimerKeeps(c, s, ArmHeartbeat(c, s), hand, SetTimer(HeartbeatTimer, at));
    }
  }

  lemma AdvanceKeeps(c: Config, s: State, hand: set<Waiting>, now: Instant)
    requires Inv(c, s, hand)
    ensures Inv(c, Advance(s, now), hand)
  {
    if now > s.now {
      SameCalls(c, CoreOf(s), CoreOf(Advance(s, now)), hand, Watch(s.log));
    }
  }

  /** A finished call in hand: settled, then reported. */
  lemma RetireKeeps(c: Config, s: State, hand: set<Waiting>, p: Waiting, sentAs: Option<MessageId>,
                    result: Result<Answer, Failure>)
    requires Inv(c, s, hand) && p in hand && Told(c, s, p.token, sentAs, result)
    ensures Inv(c, Finish(Settle(s, p), p, sentAs, result), hand - {p})
    ensures Watch(s.log).cancelling == None ==> HandKept(s, Finish(Settle(s, p), p, sentAs, result), hand - {p})
  {
    hide Inv;
    var settled := p.(stored := None);
    SettleKeeps(c, s, hand, p);
    FinishKeeps(c, Settle(s, p), hand - {p} + {settled}, settled, sentAs, result);
    assert p !in hand - {p} + {settled} - {settled};
    SettledApart(c, s, hand, p);
  }

  /** The monitor agrees that this is what there is to report. */
  ghost predicate Told(c: Config, s: State, t: Token, sentAs: Option<MessageId>, result: Result<Answer, Failure>)
  {
    t < |Watch(s.log).calls| && Reports(c, Watch(s.log), t, sentAs, result)
  }

  /** The settled form of a call in hand was not in hand before. */
  lemma SettledApart(c: Config, s: State, hand: set<Waiting>, p: Waiting)
    requires Inv(c, s, hand) && p in hand
    ensures hand - {p} + {p.(stored := None)} - {p.(stored := None)} == hand - {p}
  {
    assert Apart(CoreOf(s), hand);
  }

  lemma SettleKeeps(c: Config, s: State, hand: set<Waiting>, p: Waiting)
    requires Inv(c, s, hand) && p in hand
    ensures Inv(c, Settle(s, p), hand - {p} + {p.(stored := None)})
    ensures Watch(Settle(s, p).log) == Watch(s.log).(backed := WithoutToken(Watch(s.log).backed, p.token))
  {
    hide Rel;
    SettleRel(c, CoreOf(s), hand, Watch(s.log), p);
    Step(c, s, Settled(p.token, p.stored), Settle(s, p), hand - {p} + {p.(stored := None)});
    AcceptsOne(c, s.log, Settled(p.token, p.stored));
  }

  lemma FinishKeeps(c: Config, s: State, hand: set<Waiting>, p: Waiting, sentAs: Option<MessageId>,
                    result: Result<Answer, Failure>)
    requires Inv(c, s, hand) && p in hand && p.stored == None && Told(c, s, p.token, sentAs, result)
    ensures Inv(c, Finish(s, p, sentAs, result), hand - {p})
    ensures Watch(s.log).cancelling == None ==> HandKept(s, Finish(s, p, sentAs, result), hand - {p})
  {
    hide Rel, Reports;
    var e := Outcome(p.token, sentAs, p.call.action, result);
    OutcomeRel(c, CoreOf(s), hand, Watch(s.log), p, e);
    Step(c, s, e, Finish(s, p, sentAs, result), hand - {p});
    AcceptsOne(c, s.log, e);
    HandsApart(c, s, hand, p);
  }

  lemma HandsApart(c: Config, s: State, hand: set<Waiting>, p: Waiting)
    requires Inv(c, s, hand) && p in hand
    ensures forall q :: q in hand - {p} ==> q.token != p.token
  {
    assert Apart(CoreOf(s), hand);
  }

  // -- pumping ------------------------------------------------------------------------------

  ghost predicate NoTransaction(hand: set<Waiting>)
  {
    forall p :: p in hand ==> !p.call.transactional
  }

  /** Reporting a call depends on its token, its store entry and its action alone. */
  lemma RetireAlike(s: State, p: Waiting, q: Waiting, sentAs: Option<MessageId>, result: Result<Answer, Failure>)
    requires p.token == q.token && p.stored == q.stored && p.call.action == q.call.action
    ensures Finish(Settle(s, p), p, sentAs, result) == Finish(Settle(s, q), q, sentAs, result)
  {
  }

  lemma SendOutKeeps(c: Config, s: State, hand: set<Waiting>, i: nat)
    requires Inv(c, s, hand) && NoTransaction(hand) && s.connected && Watch(s.log).cancelling == None
    requires i < |s.queue| && s.queue[i].call.kind == SEND && Eligible(c, s, i)
    ensures Inv(c, SendOut(c, s, i), hand) && SendOut(c, s, i).connected
    ensures HandKept(s, SendOut(c, s, i), hand)
  {
    hide Inv, Told, HandKept, Watch, Transmit, Eligible, NoTransaction;
    var entry := s.queue[i];
    var wire := WireOf(c, s, entry);
    var s0 := s.(queue := RemoveAt(s.queue, i), minted := s.minted + 1);
    var s1 := Transmit(c, s0, wire);
    var sent := SendWritten(c, s, hand, i, s0, s1);
    RetireKeeps(c, s1, hand + {sent}, sent, Some(wire.id), Ok(Sent));
    RetireAlike(s1, entry, sent, Some(wire.id), Ok(Sent));
    assert hand + {sent} - {sent} == hand;
    HandSteps(s, s1, SendOut(c, s, i), hand);
  }

  /** The first half of `SendOut`: the frame is on the wire, the call in hand. */
  lemma SendWritten(c: Config, s: State, hand: set<Waiting>, i: nat, s0: State, s1: State) returns (sent: Waiting)
    requires Inv(c, s, hand) && NoTransaction(hand) && s.connected && Watch(s.log).cancelling == None
    requires i < |s.queue| && s.queue[i].call.kind == SEND && Eligible(c, s, i)
    requires s0 == s.(queue := RemoveAt(s.queue, i), minted := s.minted + 1)
    requires s1 == Transmit(c, s0, WireOf(c, s, s.queue[i]))
    ensures Inv(c, s1, hand + {sent}) && sent !in hand && s1.connected
    ensures sent.token == s.queue[i].token && sent.stored == s.queue[i].stored
    ensures sent.call.action == s.queue[i].call.action
    ensures Watch(s1.log).cancelling == None
    ensures HandKept(s, s1, hand) && Told(c, s1, sent.token, Some(WireOf(c, s, s.queue[i]).id), Ok(Sent))
  {
    hide Rel, HandKept, Reports;
    var entry := s.queue[i];
    var wire := WireOf(c, s, entry);
    sent := entry.(call := entry.call.(attempts := entry.call.attempts + 1));
    TransmissionAllowed(c, s, hand, i);
    WireRel(c, CoreOf(s), hand, Watch(s.log), i, wire);
    Step(c, s, wire, Emit(s0, wire), hand + {sent});
    ArmKeeps(c, Emit(s0, wire), hand + {sent});
    NotHeld(c, s, hand, i, sent);
    WiredKept(c, s, hand, i, Emit(s0, wire));
    SendTold(c, s, hand, i, Emit(s0, wire));
    SentStays(c, Emit(s0, wire), s1, hand, sent, Some(wire.id), Ok(Sent));
    HandSteps(s, Emit(s0, wire), s1, hand);
  }

  /** Nothing is said about a call in hand when another one is transmitted. */
  lemma WiredKept(c: Config, s: State, hand: set<Waiting>, i: nat, r: State)
    requires Inv(c, s, hand) && i < |s.queue| && r.log == s.log + [WireOf(c, s, s.queue[i])] && r.now == s.now
    requires Allowed(c, Watch(s.log), WireOf(c, s, s.queue[i]))
    ensures HandKept(s, r, hand)
  {
    hide Agrees, Covered, InOrder, StoreRel, Globals;
    AcceptsOne(c, s.log, WireOf(c, s, s.queue[i]));
    assert s.queue[i].token in Tokens(s.queue);
    assert Apart(CoreOf(s), hand);
  }

  /** A transmitted `SEND` has nothing more to wait for. */
  lemma SendTold(c: Config, s: State, hand: set<Waiting>, i: nat, r: State)
    requires Inv(c, s, hand) && i < |s.queue| && r.log == s.log + [WireOf(c, s, s.queue[i])]
    requires s.queue[i].call.kind == SEND && Watch(s.log).cancelling == None
    requires Allowed(c, Watch(s.log), WireOf(c, s, s.queue[i]))
    ensures Told(c, r, s.queue[i].token, Some(WireOf(c, s, s.queue[i]).id), Ok(Sent))
    ensures Watch(r.log).cancelling == None
  {
    hide Apart, Covered, InOrder, StoreRel, RecordedAs, EarlierTransactionsOver;
    var p := s.queue[i];
    AcceptsOne(c, s.log, WireOf(c, s, p));
    assert Fits(Watch(s.log), p) && Ready(c, Watch(s.log), p);
    assert WellFormedCall(Watch(s.log).calls[p.token].call);
  }

  lemma SentStays(c: Config, s: State, r: State, hand: set<Waiting>, p: Waiting, sentAs: Option<MessageId>,
                  result: Result<Answer, Failure>)
    requires HandKept(s, r, hand + {p}) && Told(c, s, p.token, sentAs, result) && sentAs.Some?
    ensures Told(c, r, p.token, sentAs, result) && HandKept(s, r, hand)
    ensures Watch(r.log).cancelling == Watch(s.log).cancelling
  {
    assert p in hand + {p};
  }

  lemma NotHeld(c: Config, s: State, hand: set<Waiting>, i: nat, sent: Waiting)
    requires Inv(c, s, hand) && i < |s.queue| && sent.token == s.queue[i].token
    ensures sent !in hand
  {
    assert s.queue[i].token in Tokens(s.queue);
    assert Apart(CoreOf(s), hand);
  }

  lemma CallOutKeeps(c: Config, s: State, hand: set<Waiting>, i: nat)
    requires Inv(c, s, hand) && NoTransaction(hand) && s.connected && s.inflight.None?
    requires i < |s.queue| && s.queue[i].call.kind == CALL && Eligible(c, s, i)
    ensures Inv(c, CallOut(c, s, i), hand) && HandKept(s, CallOut(c, s, i), hand)
  {
    hide Inv, HandKept, Watch;
    var entry := s.queue[i];
    var wire := WireOf(c, s, entry);
    var deadline := SaturatingAdd(s.now, s.callTimeout);
    var sent := entry.(call := entry.call.(attempts := entry.call.attempts + 1), notBefore := None);
    var f := InFlight(wire.id, sent, deadline);
    var s0 := s.(queue := RemoveAt(s.queue, i), minted := s.minted + 1, inflight := Some(f));
    CallWritten(c, s, hand, i, f, s0);
    ArmKeeps(c, Emit(s0, wire), hand);
    DeadlineKnown(c, Transmit(c, s0, wire), hand, f);
    SayKeeps(c, Transmit(c, s0, wire), hand, SetTimer(CallTimeout, deadline));
    CallOutAlike(c, s, i, s0);
    HandSteps(s, Emit(s0, wire), Transmit(c, s0, wire), hand);
    HandSteps(s, Transmit(c, s0, wire), CallOut(c, s, i), hand);
  }

  lemma DeadlineKnown(c: Config, s: State, hand: set<Waiting>, f: InFlight)
    requires Inv(c, s, hand) && s.inflight == Some(f)
    ensures TimerAllowed(c, Watch(s.log), CallTimeout, f.deadline)
  {
    hide Agrees, Apart, Covered, InOrder, StoreRel;
  }

  lemma CallWritten(c: Config, s: State, hand: set<Waiting>, i: nat, f: InFlight, s0: State)
    requires Inv(c, s, hand) && NoTransaction(hand) && s.connected && s.inflight.None?
    requires i < |s.queue| && s.queue[i].call.kind == CALL && Eligible(c, s, i)
    requires f.entry == s.queue[i].(call := s.queue[i].call.(attempts := s.queue[i].call.attempts + 1), notBefore := None)
    requires f.id == WireOf(c, s, s.queue[i]).id && f.deadline == SaturatingAdd(s.now, s.callTimeout)
    requires s0 == s.(queue := RemoveAt(s.queue, i), minted := s.minted + 1, inflight := Some(f))
    ensures Inv(c, Emit(s0, WireOf(c, s, s.queue[i])), hand)
    ensures HandKept(s, Emit(s0, WireOf(c, s, s.queue[i])), hand)
  {
    hide Rel, Allowed;
    var wire := WireOf(c, s, s.queue[i]);
    TransmissionAllowed(c, s, hand, i);
    WireCallRel(c, CoreOf(s), hand, Watch(s.log), i, wire, f);
    Step(c, s, wire, Emit(s0, wire), hand);
    WiredKept(c, s, hand, i, Emit(s0, wire));
  }

  /** Filling the slot before or after the timers are set comes to the same. */
  lemma CallOutAlike(c: Config, s: State, i: nat, s0: State)
    requires i < |s.queue|
    requires var entry := s.queue[i];
             var sent := entry.(call := entry.call.(attempts := entry.call.attempts + 1), notBefore := None);
             s0 == s.(queue := RemoveAt(s.queue, i), minted := s.minted + 1,
                      inflight := Some(InFlight(WireOf(c, s, entry).id, sent, SaturatingAdd(s.now, s.callTimeout))))
    ensures CallOut(c, s, i) ==
            Say(Transmit(c, s0, WireOf(c, s, s.queue[i])), SetTimer(CallTimeout, SaturatingAdd(s.now, s.callTimeout)))
  {
  }

  lemma {:induction false} PumpSendsKeeps(c: Config, s: State, hand: set<Waiting>)
    requires Inv(c, s, hand) && NoTransaction(hand) && s.connected && Watch(s.log).cancelling == None
    ensures Inv(c, PumpSends(c, s), hand) && PumpSends(c, s).connected && HandKept(s, PumpSends(c, s), hand)
    decreases |s.queue|
  {
    hide Inv, Watch, SendOut;
    var i := FindEligible(c, s, SEND, 0);
    if i.Some? {
      SendOutKeeps(c, s, hand, i.value);
      PumpSendsKeeps(c, SendOut(c, s, i.value), hand);
      HandSteps(s, SendOut(c, s, i.value), PumpSends(c, s), hand);
    }
  }

  lemma PumpKeeps(c: Config, s: State, hand: set<Waiting>)
    requires Inv(c, s, hand) && NoTransaction(hand) && Watch(s.log).cancelling == None
    ensures Inv(c, Pump(c, s), hand) && HandKept(s, Pump(c, s), hand)
  {
    hide Inv, Watch, PumpSends, CallOut;
    if s.connected {
      PumpSendsKeeps(c, s, hand);
      var s1 := PumpSends(c, s);
      var i := FindEligible(c, s1, CALL, 0);
      if s1.inflight.None? && i.Some? {
        CallOutKeeps(c, s1, hand, i.value);
        HandSteps(s, s1, CallOut(c, s1, i.value), hand);
      }
    }
  }

  /** With empty hands the engine pumps freely. */
  lemma PumpFree(c: Config, s: State)
    requires Inv(c, s, {})
    ensures Inv(c, Pump(c, s), {})
  {
    hide Globals, Agrees, Apart, Covered, InOrder, StoreRel, Pump;
    PumpKeeps(c, s, {});
  }

  lemma NothingHeldAllOver(k: Core, m: View)
    requires Covered(k, {}, m) && k.queue == [] && k.inflight.None?
    ensures forall u :: 0 <= u < |m.calls| ==> m.calls[u].finished
  {
    assert Held(k, {}) == {};
  }

  lemma SomethingHeldNotOver(c: Config, s: State)
    requires Inv(c, s, {}) && !DrainComplete(s)
    ensures !(forall u :: 0 <= u < |Watch(s.log).calls| ==> Watch(s.log).calls[u].finished)
  {
    hide Apart, Covered, InOrder, StoreRel;
    var p := if s.inflight.Some? then s.inflight.value.entry else s.queue[0];
    assert Fits(Watch(s.log), p);
  }

  /** A drained close happens only when every call is over. */
  lemma CheckDrainKeeps(c: Config, s: State)
    requires Inv(c, s, {})
    ensures Inv(c, CheckDrain(s), {})
  {
    hide Agrees, Apart, Covered, InOrder, StoreRel;
    if s.draining.Some? && DrainComplete(s) {
      var s1 := Say(s, ClearTimer(DrainDeadline));
      SayKeeps(c, s, {}, ClearTimer(DrainDeadline));
      NothingHeldAllOver(CoreOf(s1), Watch(s1.log));
      CloseKeeps(c, s1, Drained);
    }
  }

  lemma CloseKeeps(c: Config, s: State, reason: CloseReason)
    requires Inv(c, s, {}) && Allowed(c, Watch(s.log), Closed(reason, s.now))
    ensures Inv(c, Emit(s, Closed(reason, s.now)).(draining := None), {})
  {
    hide Agrees, Apart, Covered, InOrder, StoreRel;
    var e := Closed(reason, s.now);
    var r := Emit(s, e).(draining := None);
    SameCalls(c, CoreOf(s), CoreOf(r), {}, Watch(s.log));
    SameView(c, CoreOf(r), {}, Watch(s.log), Next(Watch(s.log), e));
    Step(c, s, e, r, {});
  }

  // -- application interface ----------------------------------------------------------------

  lemma FailNowKeeps(c: Config, s: State, call: QueuedCall, triggered: bool, keep: bool, why: Failure)
    requires Inv(c, s, {}) && WellFormedCall(call) && call.attempts == 0 && s.draining.None?
    requires why == if s.connected || keep then QueueFull else Failure.Disconnected
    ensures Inv(c, FailNow(s, call, triggered, keep, why), {})
  {
    hide Rel, Accepts, Watch, Next, Told;
    var w := Waiting(s.nextToken, call, None, None, triggered, keep);
    var e := Issued(s.nextToken, call, triggered, None, keep);
    var s1 := Emit(s.(nextToken := s.nextToken + 1), e);
    IssueInHand(c, CoreOf(s), Watch(s.log), w);
    Step(c, s, e, s1, {w});
    FailTold(c, s, s1, call, triggered, keep, why);
    FinishKeeps(c, s1, {w}, w, None, Err(why));
    assert {w} - {w} == {};
  }

  lemma FailTold(c: Config, s: State, s1: State, call: QueuedCall, triggered: bool, keep: bool, why: Failure)
    requires Inv(c, s, {})
    requires Allowed(c, Watch(s.log), Issued(s.nextToken, call, triggered, None, keep))
    requires s1.log == s.log + [Issued(s.nextToken, call, triggered, None, keep)]
    requires why == if s.connected || keep then QueueFull else Failure.Disconnected
    ensures Told(c, s1, s.nextToken, None, Err(why))
  {
    hide Agrees, Apart, Covered, InOrder, StoreRel;
    AcceptsOne(c, s.log, Issued(s.nextToken, call, triggered, None, keep));
  }

  lemma EnqueueKeeps(c: Config, s: State, call: QueuedCall, persist: bool, triggered: bool, keep: bool)
    requires Inv(c, s, {}) && WellFormedCall(call) && (persist ==> !Full(s.store))
    requires call.attempts == 0 && s.draining.None?
    ensures Inv(c, Enqueue(s, call, persist, triggered, keep), {})
  {
    hide Accepts, Watch, Next, Allowed, Agrees, Apart, Covered, InOrder, Asked;
    var stored := if persist then Some(s.store.nextSeq) else None;
    var w := Waiting(s.nextToken, call, stored, None, triggered, keep);
    var store := if persist then Push(s.store, call) else s.store;
    PushGains(s.store, store, w);
    IssueQueued(c, CoreOf(s), Watch(s.log), w, store);
    Step(c, s, Issued(s.nextToken, call, triggered, stored, keep), Enqueue(s, call, persist, triggered, keep), {});
  }

  lemma PushGains(before: Store, after: Store, w: Waiting)
    requires Ordered(before)
    requires w.stored.None? ==> after == before
    requires w.stored.Some? ==> w.stored.value == before.nextSeq && !Full(before) && after == Push(before, w.call)
    ensures Gained(before, after, w)
  {
  }

  lemma SubmitKeeps(c: Config, s: State, action: Action, payload: Payload, options: CallOptions)
    requires Inv(c, s, {}) && Refuse(c, s, action) == None
    ensures Inv(c, Submit(c, s, action, payload, options), {})
  {
    hide Rel;
    var call := SubmittedCall(c, s, action, payload);
    var persist := if options.persist.Some? then options.persist.value else call.transactional;
    var keep := if options.queueWhenOffline.Some? then options.queueWhenOffline.value
                else call.transactional || c.queueAllMessages;
    assert WellFormedCall(call);
    if !s.connected && !keep {
      FailNowKeeps(c, s, call, options.triggered, keep, Failure.Disconnected);
    } else if |s.queue| >= c.maxQueued {
      FailNowKeeps(c, s, call, options.triggered, keep, QueueFull);
    } else if persist && Full(s.store) {
      SayKeeps(c, s, {}, Violated(StoreFailure));
      FailNowKeeps(c, Complain(s, StoreFailure), call, options.triggered, keep, QueueFull);
    } else {
      var s1 := Enqueue(s, call, persist, options.triggered, keep);
      EnqueueKeeps(c, s, call, persist, options.triggered, keep);
      PumpFree(c, if c.role == Csms then RememberSolicited(s1, action, payload) else s1);
    }
  }

  lemma CallWithKeeps(c: Config, s: State, now: Instant, action: Action, payload: Payload, options: CallOptions)
    requires Inv(c, s, {})
    ensures Inv(c, CallWith(c, s, now, action, payload, options), {})
  {
    hide Rel;
    AdvanceKeeps(c, s, {}, now);
    if Refuse(c, Advance(s, now), action) == None {
      SubmitKeeps(c, Advance(s, now), action, payload, options);
    }
  }

  /** What changes neither the calls nor their backing keeps all but the globals. */
  lemma Aside(c: Config, k: Core, k': Core, hand: set<Waiting>, m: View, m': View)
    requires Rel(c, k, hand, m) && Globals(c, k', m')
    requires k'.queue == k.queue && k'.inflight == k.inflight && k'.store == k.store
    requires m'.calls == m.calls && m'.backed == m.backed && m'.cancelling == m.cancelling
    ensures Rel(c, k', hand, m')
  {
    hide Globals;
  }

  /** On the CSMS the verdict is its own, and none of the monitor's business. */
  lemma ReportedKeeps(c: Config, s: State, payload: Payload)
    requires Inv(c, s, {}) && c.role == Csms
    ensures Inv(c, ObserveBootAnswer(c, s, payload, true), {})
  {
    hide Agrees, Apart, Covered, InOrder, StoreRel, Asked, Globals, Accepts, Watch;
    var r := ObserveBootAnswer(c, s, payload, true);
    if r != s {
      var e := Noted(BootReport(payload.boot.value.status.value));
      assert Next(Watch(s.log), e) == Watch(s.log);
      BootOfItsOwn(c, CoreOf(s), CoreOf(r), Watch(s.log));
      Aside(c, CoreOf(s), CoreOf(r), {}, Watch(s.log), Next(Watch(s.log), e));
      Step(c, s, e, r, {});
    }
  }

  lemma BootOfItsOwn(c: Config, k: Core, k': Core, m: View)
    requires Globals(c, k, m) && c.role == Csms
    requires k' == k.(boot := k'.boot, heartbeatInterval := k'.heartbeatInterval)
    ensures Globals(c, k', m)
  {
  }

  /** The engine after a boot answer's verdict, before anything that follows from it. */
  function Judged(s: State, payload: Payload): (r: State)
    requires payload.boot.Some? && payload.boot.value.status.Some?
  {
    var answer := payload.boot.value;
    var interval := if answer.interval.Some? && answer.interval.value > 0 then Some(1000 * answer.interval.value)
                    else None;
    var state := answer.status.value;
    Emit(s.(boot := state, heartbeatInterval := if state == Accepted then interval else s.heartbeatInterval),
         BootVerdict(state))
  }

  /** The call in hand was answered with this payload, just now. */
  ghost predicate BeingAnswered(s: State, payload: Payload)
  {
    Watch(s.log).answering == Some(Answering(BootNotification, Some(payload), s.now))
  }

  /** On the station the verdict is a logged event. */
  lemma ObserveKeeps(c: Config, s: State, hand: set<Waiting>, payload: Payload)
    requires Inv(c, s, hand) && NoTransaction(hand) && Watch(s.log).cancelling == None
    requires c.role == ChargingStation && BeingAnswered(s, payload)
    ensures Inv(c, ObserveBootAnswer(c, s, payload, false), hand)
    ensures HandKept(s, ObserveBootAnswer(c, s, payload, false), hand)
  {
    hide Inv, HandKept, Watch, ObserveBootAnswer, Judged, Pump, BeingAnswered;
    if payload.boot.Some? && payload.boot.value.status.Some? && payload.boot.value.status.value != Idle {
      var answer := payload.boot.value;
      var s1 := Judged(s, payload);
      JudgedKeeps(c, s, hand, payload);
      var s2 := if answer.time.Some? then Say(s1, ClockSample(answer.time.value, s1.now)) else s1;
      if answer.time.Some? {
        BootClock(s1, payload);
        SayKeeps(c, s1, hand, ClockSample(answer.time.value, s1.now));
        StillAnswered(s1, ClockSample(answer.time.value, s1.now), payload);
        HandSteps(s, s1, s2, hand);
      }
      ObserveRest(c, s, s2, hand, payload);
      HandSteps(s, s2, ObserveBootAnswer(c, s, payload, false), hand);
    } else {
      NothingObserved(c, s, hand, payload);
    }
  }

  lemma BootClock(s: State, payload: Payload)
    requires BeingAnswered(s, payload) && payload.boot.Some? && payload.boot.value.time.Some?
    ensures ClockGiven(Watch(s.log), payload.boot.value.time.value, s.now)
  {
  }

  lemma NothingObserved(c: Config, s: State, hand: set<Waiting>, payload: Payload)
    requires payload.boot.None? || payload.boot.value.status.None? || payload.boot.value.status.value == Idle
    ensures ObserveBootAnswer(c, s, payload, false) == s && HandKept(s, s, hand)
  {
  }

  lemma StillAnswered(s: State, n: Note, payload: Payload)
    requires BeingAnswered(s, payload) && Plain(n)
    ensures BeingAnswered(Say(s, n), payload) && Watch(Say(s, n).log).cancelling == Watch(s.log).cancelling
  {
    AddedView(s.log, Noted(n));
  }

  lemma JudgedKeeps(c: Config, s: State, hand: set<Waiting>, payload: Payload)
    requires Inv(c, s, hand) && c.role == ChargingStation && BeingAnswered(s, payload)
    requires payload.boot.Some? && payload.boot.value.status.Some?
    ensures var r := Judged(s, payload);
            && Inv(c, r, hand) && HandKept(s, r, hand) && BeingAnswered(r, payload)
            && Watch(r.log).cancelling == Watch(s.log).cancelling
  {
    hide Agrees, Apart, Covered, InOrder, StoreRel, Asked, Watch, Accepts, Globals;
    var r := Judged(s, payload);
    var e := BootVerdict(payload.boot.value.status.value);
    JudgedGlobals(c, s, payload, Watch(s.log));
    Aside(c, CoreOf(s), CoreOf(r), hand, Watch(s.log), Next(Watch(s.log), e));
    Step(c, s, e, r, hand);
    AcceptsOne(c, s.log, e);
  }

  lemma JudgedGlobals(c: Config, s: State, payload: Payload, m: View)
    requires Globals(c, CoreOf(s), m) && c.role == ChargingStation
    requires payload.boot.Some? && payload.boot.value.status.Some?
    requires m.answering == Some(Answering(BootNotification, Some(payload), s.now))
    ensures Globals(c, CoreOf(Judged(s, payload)), Next(m, BootVerdict(payload.boot.value.status.value)))
  {
    hide Globals, Next, SaysBoot;
    var n := Next(m, BootVerdict(payload.boot.value.status.value));
    VerdictNext(m, payload);
    VerdictGlobals(c, CoreOf(s), CoreOf(Judged(s, payload)), m, n);
  }

  lemma VerdictNext(m: View, payload: Payload)
    requires payload.boot.Some? && payload.boot.value.status.Some?
    requires m.answering.Some? && m.answering.value.payload == Some(payload)
    ensures var state := payload.boot.value.status.value;
            Next(m, BootVerdict(state)) ==
            m.(boot := state, beat := if state == Accepted then IntervalOf(payload.boot.value) else m.beat)
  {
  }

  lemma VerdictGlobals(c: Config, k: Core, k': Core, m: View, m': View)
    requires Globals(c, k, m) && c.role == ChargingStation
    requires k' == k.(boot := k'.boot, heartbeatInterval := k'.heartbeatInterval)
    requires m' == m.(boot := k'.boot, beat := m'.beat)
    requires m'.beat == k'.heartbeatInterval || (m'.beat == m.beat && k'.heartbeatInterval == k.heartbeatInterval)
    ensures Globals(c, k', m')
  {
  }

  /** Agreement, coverage and the store look only at the calls and their backing. */
  lemma SameView(c: Config, k: Core, hand: set<Waiting>, m: View, m': View)
    requires Agrees(c, k, hand, m) && Covered(k, hand, m) && StoreRel(k.store, m)
    requires m'.calls == m.calls && m'.backed == m.backed
    ensures Agrees(c, k, hand, m') && Covered(k, hand, m') && StoreRel(k.store, m')
  {
  }

  /** The part of `ObserveBootAnswer` after the verdict and the clock sample. */
  lemma ObserveRest(c: Config, s: State, s2: State, hand: set<Waiting>, payload: Payload)
    requires payload.boot.Some? && payload.boot.value.status.Some? && payload.boot.value.status.value != Idle
    requires var s1 := Judged(s, payload);
             s2 == if payload.boot.value.time.Some? then Say(s1, ClockSample(payload.boot.value.time.value, s1.now)) else s1
    requires Inv(c, s2, hand) && NoTransaction(hand) && Watch(s2.log).cancelling == None && BeingAnswered(s2, payload)
    ensures Inv(c, ObserveBootAnswer(c, s, payload, false), hand)
    ensures HandKept(s2, ObserveBootAnswer(c, s, payload, false), hand)
  {
    hide Inv, Watch, Pump, HandKept, BeingAnswered;
    var answer := payload.boot.value;
    if answer.status.value == Accepted {
      ArmKeeps(c, s2, hand);
      PumpAfter(c, s2, ArmHeartbeat(c, s2), hand);
      ObservedAccepted(c, s, s2, payload);
    } else {
      var interval := if answer.interval.Some? && answer.interval.value > 0 then Some(1000 * answer.interval.value)
                      else None;
      var at := SaturatingAdd(s2.now, if interval.Some? then interval.value else c.bootRetryFallback);
      RetryArmedKeeps(c, s2, hand, payload, at);
    }
  }

  lemma ObservedAccepted(c: Config, s: State, s2: State, payload: Payload)
    requires payload.boot.Some? && payload.boot.value.status == Some(Accepted)
    requires var s1 := Judged(s, payload);
             s2 == if payload.boot.value.time.Some? then Say(s1, ClockSample(payload.boot.value.time.value, s1.now)) else s1
    ensures ObserveBootAnswer(c, s, payload, false) == Pump(c, ArmHeartbeat(c, s2))
  {
    hide Pump, ArmHeartbeat;
  }

  lemma PumpAfter(c: Config, s: State, t: State, hand: set<Waiting>)
    requires Inv(c, t, hand) && NoTransaction(hand) && Watch(s.log).cancelling == None && HandKept(s, t, hand)
    ensures Inv(c, Pump(c, t), hand) && HandKept(s, Pump(c, t), hand)
  {
    hide Inv, Watch, Pump;
    PumpKeeps(c, t, hand);
    HandSteps(s, t, Pump(c, t), hand);
  }

  lemma RetryArmedKeeps(c: Config, s: State, hand: set<Waiting>, payload: Payload, at: Instant)
    requires Inv(c, s, hand) && BeingAnswered(s, payload)
    requires SaysBoot(Some(payload), BootState.Pending) || SaysBoot(Some(payload), BootState.Rejected)
    requires var interval := IntervalOf(payload.boot.value);
             at == SaturatingAdd(s.now, if interval.Some? then interval.value else c.bootRetryFallback)
    ensures var r := Say(s.(bootRetryAt := Some(at)), SetTimer(BootRetry, at));
            Inv(c, r, hand) && HandKept(s, r, hand)
  {
    hide Agrees, Apart, Covered, InOrder, StoreRel;
    TimerKeeps(c, s, Say(s.(bootRetryAt := Some(at)), SetTimer(BootRetry, at)), hand, SetTimer(BootRetry, at));
  }

  lemma RespondKeeps(c: Config, s: State, now: Instant, id: MessageId, reply: Reply)
    requires Inv(c, s, {})
    ensures Inv(c, RespondTo(c, s, now, id, reply), {})
  {
    hide Agrees, Apart, Covered, InOrder, StoreRel, Asked, Accepts, Watch, ObserveBootAnswer;
    AdvanceKeeps(c, s, {}, now);
    var s1 := Advance(s, now);
    if id in s1.peers {
      var s0 := if c.role == Csms && reply.WithResult? then ObserveBootAnswer(c, s1, reply.payload, true) else s1;
      if c.role == Csms && reply.WithResult? {
        ReportedKeeps(c, s1, reply.payload);
        ObserveOutgoing(c, s1, reply.payload, id);
      }
      var e := Answered(id, reply);
      var s2 := Emit(s0.(peers := s0.peers - {id}), e);
      PeersRel(c, CoreOf(s0), CoreOf(s2), {}, Watch(s0.log), e);
      Step(c, s0, e, s2, {});
      ArmKeeps(c, s2, {});
    }
  }

  /** Peer requests and the link are of no concern to the calls. */
  lemma PeersRel(c: Config, k: Core, k': Core, hand: set<Waiting>, m: View, e: Event)
    requires Rel(c, k, hand, m)
    requires k' == k.(peers := k'.peers, connected := k'.connected, boot := k'.boot)
    requires c.role == ChargingStation ==> k'.boot == k.boot
    requires e.Answered? || e.Request? || e.Linked?
    requires Next(m, e).peers == k'.peers && Next(m, e).connected == k'.connected
    ensures Rel(c, k', hand, Next(m, e))
  {
    hide Agrees, Apart, Covered, InOrder, StoreRel, Asked;
    PeersGlobals(c, k, k', m, e);
    hide Globals;
    Aside(c, k, k', hand, m, Next(m, e));
  }

  lemma PeersGlobals(c: Config, k: Core, k': Core, m: View, e: Event)
    requires Globals(c, k, m)
    requires k' == k.(peers := k'.peers, connected := k'.connected, boot := k'.boot)
    requires c.role == ChargingStation ==> k'.boot == k.boot
    requires e.Answered? || e.Request? || e.Linked?
    requires Next(m, e).peers == k'.peers && Next(m, e).connected == k'.connected
    ensures Globals(c, k', Next(m, e))
  {
    var n := Next(m, e);
    assert n == m.(peers := n.peers, connected := n.connected);
    hide Next;
  }

  /** On the CSMS, observing its own verdict and forgetting the request commute. */
  lemma ObserveOutgoing(c: Config, s: State, payload: Payload, id: MessageId)
    ensures var r := ObserveBootAnswer(c, s, payload, true);
            && r.peers == s.peers && r.connected == s.connected
            && ObserveBootAnswer(c, s.(peers := s.peers - {id}), payload, true) == r.(peers := s.peers - {id})
  {
  }

  /** A queued call the monitor knows to be waiting is dropped. */
  lemma DropKeeps(c: Config, s: State, i: nat, why: Failure)
    requires Inv(c, s, {}) && i < |s.queue| && Told(c, s, s.queue[i].token, None, Err(why))
    ensures Inv(c, Drop(s, i, why), {})
  {
    hide Rel, Told, HandKept;
    var p := s.queue[i];
    var s1 := s.(queue := RemoveAt(s.queue, i));
    Lift(c, CoreOf(s), {}, Watch(s.log), i);
    assert {} + {p} == {p};
    assert Told(c, s1, p.token, None, Err(why)) by {
      TellsAlike(c, s, s1, p.token, None, Err(why));
    }
    RetireKeeps(c, s1, {p}, p, None, Err(why));
    assert {p} - {p} == {};
  }

  lemma TellsAlike(c: Config, s: State, r: State, t: Token, sentAs: Option<MessageId>, result: Result<Answer, Failure>)
    requires Told(c, s, t, sentAs, result) && r.log == s.log
    ensures Told(c, r, t, sentAs, result)
  {
  }

  lemma CancelKeeps(c: Config, s: State, t: Token)
    requires Inv(c, s, {})
    ensures Inv(c, CancelCall(s, t), {})
  {
    hide Rel, Told, HandKept;
    var i := IndexOfToken(s.queue, t, 0);
    if i.Some? {
      var p := s.queue[i.value];
      var s1 := Emit(s.(queue := RemoveAt(s.queue, i.value)), CancelAsked(t));
      Lift(c, CoreOf(s), {}, Watch(s.log), i.value);
      assert {} + {p} == {p};
      AskedKeeps(c, s, s1, p);
      RetireKeeps(c, s1, {p}, p, None, Err(Cancelled));
      assert {p} - {p} == {};
    }
  }

  lemma AskedKeeps(c: Config, s: State, s1: State, p: Waiting)
    requires Inv(c, s, {}) && p in s.queue && s1.log == s.log + [CancelAsked(p.token)]
    requires Rel(c, CoreOf(s1), {p}, Watch(s.log))
    ensures Inv(c, s1, {p}) && Told(c, s1, p.token, None, Err(Cancelled))
  {
    hide Agrees, Apart, Covered, InOrder, StoreRel;
    var e := CancelAsked(p.token);
    QueuedWaits(c, s, p);
    AskedRel(c, CoreOf(s1), Watch(s.log), p);
    Step(c, s, e, s1, {p});
    AcceptsOne(c, s.log, e);
  }

  lemma AskedRel(c: Config, k: Core, m: View, p: Waiting)
    requires Rel(c, k, {p}, m)
    ensures Rel(c, k, {p}, Next(m, CancelAsked(p.token)))
  {
    hide Apart, InOrder;
    assert p in {p};
    SameView(c, k, {p}, m, Next(m, CancelAsked(p.token)));
  }

  /** What is queued waits for its first or its next transmission. */
  lemma QueuedWaits(c: Config, s: State, p: Waiting)
    requires Inv(c, s, {}) && p in s.queue
    ensures var m := Watch(s.log);
            && p.token < |m.calls| && !m.calls[p.token].finished && Waits(c, m.calls[p.token])
            && m.calls[p.token].keep == p.queueWhenOffline && m.connected == s.connected && m.cancelling == None
  {
    hide Apart, Covered, InOrder, StoreRel;
    var i :| 0 <= i < |s.queue| && s.queue[i] == p;
    assert Fits(Watch(s.log), s.queue[i]) && Ready(c, Watch(s.log), s.queue[i]);
  }

  lemma ShutdownKeeps(c: Config, s: State, now: Instant, deadline: Instant)
    requires Inv(c, s, {})
    ensures Inv(c, ShutdownBy(s, now, deadline), {})
  {
    hide Agrees, Apart, Covered, InOrder, StoreRel;
    AdvanceKeeps(c, s, {}, now);
    var s1 := Advance(s, now);
    if s1.draining.None? {
      var s2 := Say(s1.(draining := Some(deadline)), SetTimer(DrainDeadline, deadline));
      TimerKeeps(c, s1, s2, {}, SetTimer(DrainDeadline, deadline));
      CheckDrainKeeps(c, s2);
    }
  }

  // -- inbound ------------------------------------------------------------------------------

  lemma ConnectedKeeps(c: Config, s: State, version: Version)
    requires Inv(c, s, {})
    ensures Inv(c, OnConnected(c, s, version), {})
  {
    hide Agrees, Apart, Covered, InOrder, StoreRel;
    var s1 := Emit(s.(version := version, connected := true, peers := {}), Linked(true));
    PeersRel(c, CoreOf(s), CoreOf(s1), {}, Watch(s.log), Linked(true));
    Step(c, s, Linked(true), s1, {});
    ArmKeeps(c, s1, {});
    PumpFree(c, ArmHeartbeat(c, s1));
  }

  /** A call just lost: its loss is dated now, and no queued transaction message is older. */
  ghost predicate JustLost(s: State, p: Waiting, id: MessageId, cause: Cause)
  {
    var m := Watch(s.log);
    && s.inflight.None? && m.cancelling == None && (cause.ByDisconnect? ==> !m.connected)
    && p.token < |m.calls| && m.calls[p.token].lostAt == Some(s.now) && m.calls[p.token].stored == p.stored
    && m.calls[p.token].fate == Some(cause) && m.calls[p.token].sentAs == Some(id)
    && (p.call.transactional ==>
          forall j :: 0 <= j < |s.queue| && s.queue[j].call.transactional ==> p.token < s.queue[j].token)
  }

  /** A call just answered. */
  ghost predicate JustAnswered(s: State, p: Waiting, id: MessageId, payload: Option<Payload>)
  {
    var m := Watch(s.log);
    && m.answering == Some(Answering(p.call.action, payload, s.now)) && m.cancelling == None
    && p.token < |m.calls| && m.calls[p.token].fate == Some(ByAnswer(payload)) && m.calls[p.token].sentAs == Some(id)
  }

  lemma TakeKeeps(c: Config, s: State, cause: Cause)
    requires Inv(c, s, {}) && s.inflight.Some?
    requires cause.ByTimeout? ==> s.now >= s.inflight.value.deadline
    requires cause.ByDisconnect? ==> !s.connected
    ensures var p := s.inflight.value.entry;
            && Inv(c, Take(s, cause), {p})
            && (!cause.ByAnswer? ==> JustLost(Take(s, cause), p, s.inflight.value.id, cause))
            && (cause.ByAnswer? ==> JustAnswered(Take(s, cause), p, s.inflight.value.id, cause.payload))
  {
    hide Agrees, Apart, Covered, StoreRel;
    var f := s.inflight.value;
    var e := Freed(f.entry.token, f.id, cause, s.now);
    TakeRel(c, CoreOf(s), Watch(s.log), cause);
    Step(c, s, e, Take(s, cause), {f.entry});
    AcceptsOne(c, s.log, e);
  }

  lemma RecordKeeps(c: Config, s: State, p: Waiting, id: MessageId, cause: Cause)
    requires Inv(c, s, {p}) && JustLost(s, p, id, cause) && c.retry.MayRetry(p.call.attempts)
    ensures var r := RecordAttempts(s, p);
            Inv(c, r, {p}) && JustLost(r, p, id, cause) && RecordedAs(Watch(r.log).backed, p.token, p.call.attempts)
  {
    hide Agrees, Apart, Covered, InOrder, StoreRel, Globals;
    if p.stored.Some? {
      var e := Recorded(p.token, p.stored.value, p.call.attempts);
      RecordRel(c, CoreOf(s), Watch(s.log), p);
      Step(c, s, e, RecordAttempts(s, p), {p});
      AcceptsOne(c, s.log, e);
    } else {
      NotBacked(c, s, p);
    }
  }

  lemma NotBacked(c: Config, s: State, p: Waiting)
    requires Inv(c, s, {p}) && p.stored.None?
    ensures RecordedAs(Watch(s.log).backed, p.token, p.call.attempts)
  {
    assert p in {p};
    assert Fits(Watch(s.log), p);
    SeqOfNone(Watch(s.log).backed, p.token);
  }

  lemma RequeueOrFailKeeps(c: Config, s: State, f: InFlight, cause: Cause, why: Failure)
    requires Inv(c, s, {f.entry}) && JustLost(s, f.entry, f.id, cause)
    requires (cause == ByTimeout && why == TimedOut) || (cause == ByDisconnect && why == Failure.Disconnected)
    ensures Inv(c, RequeueOrFail(c, s, f, why), {})
  {
    hide Rel, HandKept, Told;
    var p := f.entry;
    if p.call.transactional && c.retry.MayRetry(p.call.attempts) {
      var notBefore := SaturatingAdd(s.now, c.retry.DelayAfter(p.call.attempts));
      var s1 := RecordAttempts(s, p);
      RecordKeeps(c, s, p, f.id, cause);
      var s2 := s1.(queue := [p.(notBefore := Some(notBefore))] + s1.queue);
      RequeueRel(c, CoreOf(s1), Watch(s1.log), p);
      assert Inv(c, s2, {});
      RetryKnown(c, s2, p, notBefore);
      SayKeeps(c, s2, {}, SetTimer(TransactionRetry, notBefore));
    } else {
      var result := Err(if p.call.transactional then RetriesExhausted else why);
      LossTold(c, s, p, f.id, cause, why);
      RetireKeeps(c, s, {p}, p, Some(f.id), result);
      assert {p} - {p} == {};
    }
  }

  /** A loss that is not retried is reported as what it was, or as the end of the retries. */
  lemma LossTold(c: Config, s: State, p: Waiting, id: MessageId, cause: Cause, why: Failure)
    requires Inv(c, s, {p}) && JustLost(s, p, id, cause)
    requires (cause == ByTimeout && why == TimedOut) || (cause == ByDisconnect && why == Failure.Disconnected)
    requires !(p.call.transactional && c.retry.MayRetry(p.call.attempts))
    ensures Told(c, s, p.token, Some(id), Err(if p.call.transactional then RetriesExhausted else why))
  {
    hide Apart, Covered, InOrder, StoreRel, Globals;
    assert p in {p};
    assert Fits(Watch(s.log), p);
  }

  lemma RetryKnown(c: Config, s: State, p: Waiting, notBefore: Instant)
    requires Inv(c, s, {}) && s.queue != [] && s.queue[0].token == p.token && p.call.transactional
    requires var m := Watch(s.log);
             && p.token < |m.calls| && Lost(m.calls[p.token])
             && m.calls[p.token].lostAt == Some(s.now) && c.retry.MayRetry(p.call.attempts)
             && s.queue[0].call == p.call && notBefore == SaturatingAdd(s.now, c.retry.DelayAfter(p.call.attempts))
    ensures TimerAllowed(c, Watch(s.log), TransactionRetry, notBefore)
  {
    hide Apart, Covered, InOrder, StoreRel, Globals;
    var m := Watch(s.log);
    assert Fits(m, s.queue[0]);
    assert RetryDueFor(c, m.calls[p.token], notBefore);
  }

  lemma {:induction false} FailUnqueueableKeeps(c: Config, s: State, i: nat)
    requires Inv(c, s, {}) && i <= |s.queue| && !s.connected
    ensures Inv(c, FailUnqueueable(s, i), {})
    decreases |s.queue| - i
  {
    hide Inv, Told, Watch;
    if i < |s.queue| {
      if s.queue[i].queueWhenOffline {
        FailUnqueueableKeeps(c, s, i + 1);
      } else {
        DropTold(c, s, i);
        DropKeeps(c, s, i, Failure.Disconnected);
        FailUnqueueableKeeps(c, Drop(s, i, Failure.Disconnected), i);
      }
    }
  }

  lemma DropTold(c: Config, s: State, i: nat)
    requires Inv(c, s, {}) && i < |s.queue| && !s.connected && !s.queue[i].queueWhenOffline
    ensures Told(c, s, s.queue[i].token, None, Err(Failure.Disconnected))
  {
    hide Rel;
    QueuedWaits(c, s, s.queue[i]);
  }

  lemma DisconnectedKeeps(c: Config, s: State)
    requires Inv(c, s, {})
    ensures Inv(c, OnDisconnected(c, s), {})
  {
    hide Inv;
    var s0 := Emit(s.(connected := false, peers := {}), Linked(false));
    LinkDown(c, s);
    SayKeeps(c, s0, {}, ClearTimer(CallTimeout));
    var s1 := Say(Say(s0, ClearTimer(CallTimeout)), ClearTimer(HeartbeatTimer)).(heartbeatAt := None);
    BeatCleared(c, Say(s0, ClearTimer(CallTimeout)));
    var s2 := s1;
    if s1.inflight.Some? {
      TakeKeeps(c, s1, ByDisconnect);
      RequeueOrFailKeeps(c, Take(s1, ByDisconnect), s1.inflight.value, ByDisconnect, Failure.Disconnected);
      s2 := RequeueOrFail(c, Take(s1, ByDisconnect), s1.inflight.value, Failure.Disconnected);
    }
    FailUnqueueableKeeps(c, s2, 0);
    CheckDrainKeeps(c, FailUnqueueable(s2, 0));
  }

  lemma LinkDown(c: Config, s: State)
    requires Inv(c, s, {})
    ensures Inv(c, Emit(s.(connected := false, peers := {}), Linked(false)), {})
  {
    hide Agrees, Apart, Covered, InOrder, StoreRel;
    var s1 := Emit(s.(connected := false, peers := {}), Linked(false));
    PeersRel(c, CoreOf(s), CoreOf(s1), {}, Watch(s.log), Linked(false));
    Step(c, s, Linked(false), s1, {});
  }

  lemma BeatCleared(c: Config, s: State)
    requires Inv(c, s, {})
    ensures Inv(c, Say(s, ClearTimer(HeartbeatTimer)).(heartbeatAt := None), {})
  {
    hide Agrees, Apart, Covered, InOrder, StoreRel;
    TimerKeeps(c, s, Say(s, ClearTimer(HeartbeatTimer)).(heartbeatAt := None), {}, ClearTimer(HeartbeatTimer));
  }

  lemma BeatDueKeeps(c: Config, s: State)
    requires Inv(c, s, {}) && s.heartbeatAt.Some? && s.now >= s.heartbeatAt.value
    ensures Inv(c, Emit(s.(heartbeatAt := None), BeatDue(s.now)), {})
  {
    hide Agrees, Apart, Covered, InOrder, StoreRel;
    var r := Emit(s.(heartbeatAt := None), BeatDue(s.now));
    Aside(c, CoreOf(s), CoreOf(r), {}, Watch(s.log), Next(Watch(s.log), BeatDue(s.now)));
    Step(c, s, BeatDue(s.now), r, {});
  }

  lemma CallDeadlineKeeps(c: Config, s: State)
    requires Inv(c, s, {})
    ensures Inv(c, CallDeadline(c, s), {})
  {
    hide Inv;
    if s.inflight.Some? && s.now >= s.inflight.value.deadline {
      var f := s.inflight.value;
      TakeKeeps(c, s, ByTimeout);
      SayKeeps(c, Take(s, ByTimeout), {f.entry}, ClearTimer(CallTimeout));
      SayKeepsView(Take(s, ByTimeout), ClearTimer(CallTimeout));
      RequeueOrFailKeeps(c, Say(Take(s, ByTimeout), ClearTimer(CallTimeout)), f, ByTimeout, TimedOut);
    }
  }

  lemma HeartbeatDeadlineKeeps(c: Config, s: State)
    requires Inv(c, s, {})
    ensures Inv(c, HeartbeatDeadline(c, s), {})
  {
    hide Inv;
    if s.heartbeatAt.Some? && s.now >= s.heartbeatAt.value {
      var s1 := Emit(s.(heartbeatAt := None), BeatDue(s.now));
      BeatDueKeeps(c, s);
      if s1.connected && s1.boot == Accepted {
        CallWithKeeps(c, s1, s1.now, Heartbeat, EMPTY_PAYLOAD, HEARTBEAT_OPTIONS);
        ArmKeeps(c, CallWith(c, s1, s1.now, Heartbeat, EMPTY_PAYLOAD, HEARTBEAT_OPTIONS), {});
      } else {
        ArmKeeps(c, s1, {});
      }
    }
  }

  lemma BootDeadlineKeeps(c: Config, s: State)
    requires Inv(c, s, {})
    ensures Inv(c, BootDeadline(c, s), {})
  {
    hide Agrees, Apart, Covered, InOrder, StoreRel;
    if s.bootRetryAt.Some? && s.now >= s.bootRetryAt.value {
      var s1 := BootDeadline(c, s);
      Aside(c, CoreOf(s), CoreOf(s1), {}, Watch(s.log), Next(Watch(s.log), BootExpired(s.now)));
      Step(c, s, BootExpired(s.now), s1, {});
    }
  }

  lemma TimeoutKeeps(c: Config, s: State)
    requires Inv(c, s, {})
    ensures Inv(c, OnTimeout(c, s), {})
  {
    hide Agrees, Apart, Covered, InOrder, StoreRel, CallDeadline, HeartbeatDeadline, BootDeadline, Pump, CheckDrain;
    CallDeadlineKeeps(c, s);
    HeartbeatDeadlineKeeps(c, CallDeadline(c, s));
    BootDeadlineKeeps(c, HeartbeatDeadline(c, CallDeadline(c, s)));
    var s1 := BootDeadline(c, HeartbeatDeadline(c, CallDeadline(c, s)));
    if s1.draining.Some? && s1.now >= s1.draining.value && !DrainComplete(s1) {
      SomethingHeldNotOver(c, s1);
      CloseKeeps(c, s1, DrainTimedOut);
    } else {
      PumpFree(c, s1);
      CheckDrainKeeps(c, Pump(c, s1));
    }
  }

  lemma RefuseRequestKeeps(c: Config, s: State, id: MessageId, kind: Kind, code: ErrorCode)
    requires Inv(c, s, {})
    ensures Inv(c, RefuseRequest(c, s, id, kind, code), {})
  {
    hide Rel;
    if kind == CALL {
      Step(c, s, Refused(id, code), Emit(s, Refused(id, code)), {});
      ArmKeeps(c, Emit(s, Refused(id, code)), {});
    }
  }

  lemma SurfaceKeeps(c: Config, s: State, id: MessageId, action: Action, payload: Payload, kind: Kind)
    requires Inv(c, s, {})
    requires kind == CALL ==> id !in s.peers && (s.peers == {} || (|s.peers| < c.maxPeerRequests && !c.rejectConcurrent))
    ensures Inv(c, Surface(c, s, id, action, payload, kind), {})
  {
    hide Agrees, Apart, Covered, InOrder, StoreRel;
    if BlockedByBoot(c, s, action) {
      RefuseRequestKeeps(c, s, id, kind, SecurityError);
    } else {
      var e := Request(id, action, payload, kind);
      var s1 := Surface(c, s, id, action, payload, kind);
      PeersRel(c, CoreOf(s), CoreOf(s1), {}, Watch(s.log), e);
      Step(c, s, e, s1, {});
    }
  }

  lemma OnCallKeeps(c: Config, s: State, id: MessageId, action: Action, payload: Payload, kind: Kind)
    requires Inv(c, s, {})
    ensures Inv(c, OnCall(c, s, id, action, payload, kind), {})
  {
    hide Inv, RefuseRequest, Surface, KindOf, OriginOf, MaySend, TimerAllowed, ClockGiven, HandKept, Watch;
    var expected := KindOf(c.known, s.version, action);
    if expected.None? {
      RefuseRequestKeeps(c, s, id, kind, NotImplemented);
    } else if expected.value != kind {
      SayKeeps(c, s, {}, Violated(Violation.WrongMessageKind(action, kind)));
      RefuseRequestKeeps(c, Complain(s, Violation.WrongMessageKind(action, kind)), id, kind, ProtocolError);
    } else if !MaySend(OriginOf(c.known, s.version, action), Peer(c.role)) {
      SayKeeps(c, s, {}, Violated(Violation.WrongDirection(action)));
      RefuseRequestKeeps(c, Complain(s, Violation.WrongDirection(action)), id, kind, NotSupported);
    } else if kind == CALL && id in s.peers {
      SayKeeps(c, s, {}, Violated(DuplicateMessageId(id)));
      RefuseRequestKeeps(c, Complain(s, DuplicateMessageId(id)), id, kind, RpcFrameworkError);
    } else if kind == CALL && s.peers != {} {
      var s1 := Complain(s, ConcurrentCall(id));
      SayKeeps(c, s, {}, Violated(ConcurrentCall(id)));
      if |s.peers| >= c.maxPeerRequests {
        SayKeeps(c, s1, {}, Violated(TooManyPeerRequests(id)));
        RefuseRequestKeeps(c, Complain(s1, TooManyPeerRequests(id)), id, kind, ProtocolError);
      } else if c.rejectConcurrent {
        RefuseRequestKeeps(c, s1, id, kind, ProtocolError);
      } else {
        SurfaceKeeps(c, s1, id, action, payload, kind);
      }
    } else {
      SurfaceKeeps(c, s, id, action, payload, kind);
    }
  }

  /** An answered call: out of the slot and the store, in hand, its timer cleared. */
  lemma AnsweredKeeps(c: Config, s: State, p: Waiting, payload: Option<Payload>)
    requires Inv(c, s, {}) && s.inflight.Some? && p == s.inflight.value.entry
    ensures var s1 := Say(Settle(Take(s, ByAnswer(payload)), p), ClearTimer(CallTimeout));
            && Inv(c, s1, {p.(stored := None)})
            && JustAnswered(s1, p, s.inflight.value.id, payload)
  {
    hide Inv;
    TakeKeeps(c, s, ByAnswer(payload));
    var s0 := Take(s, ByAnswer(payload));
    SettleKeeps(c, s0, {p}, p);
    assert {p} - {p} + {p.(stored := None)} == {p.(stored := None)};
    var s1 := Settle(s0, p);
    SayKeeps(c, s1, {p.(stored := None)}, ClearTimer(CallTimeout));
    SayKeepsView(s1, ClearTimer(CallTimeout));
  }

  lemma FinishAnswered(c: Config, s: State, p: Waiting, sentAs: Option<MessageId>, result: Result<Answer, Failure>)
    requires Inv(c, s, {p.(stored := None)}) && Told(c, s, p.token, sentAs, result)
    ensures Inv(c, CheckDrain(Pump(c, Finish(s, p, sentAs, result))), {})
  {
    hide Inv, Told;
    var p' := p.(stored := None);
    FinishKeeps(c, s, {p'}, p', sentAs, result);
    assert {p'} - {p'} == {};
    assert Finish(s, p', sentAs, result) == Finish(s, p, sentAs, result);
    PumpFree(c, Finish(s, p, sentAs, result));
    CheckDrainKeeps(c, Pump(c, Finish(s, p, sentAs, result)));
  }

  /** `BootNotification` is never transaction-related. */
  lemma BootIsNoTransaction(c: Config, s: State, p: Waiting)
    requires Inv(c, s, {p}) && p.call.action == BootNotification
    ensures NoTransaction({p})
  {
    assert Fits(Watch(s.log), p) by {
      assert p in {p};
    }
    assert WellFormedCall(Watch(s.log).calls[p.token].call);
  }

  /** An answer is reported as it came, under the id it answers. */
  lemma AnswerTold(c: Config, s1: State, s2: State, p: Waiting, id: MessageId, payload: Option<Payload>)
    requires JustAnswered(s1, p, id, payload) && (s2 == s1 || HandKept(s1, s2, {p.(stored := None)}))
    ensures Told(c, s2, p.token, Some(id), if payload.Some? then Ok(Answer.CallResult(payload.value)) else Err(RejectedByPeer))
  {
    assert p.(stored := None) in {p.(stored := None)};
  }

  lemma OnCallResultKeeps(c: Config, s: State, id: MessageId, payload: Payload)
    requires Inv(c, s, {})
    ensures Inv(c, OnCallResult(c, s, id, payload), {})
  {
    hide Inv;
    if !Answers(s, id) {
      SayKeeps(c, s, {}, Violated(UnexpectedResponse(id)));
    } else {
      var f := s.inflight.value;
      var p' := f.entry.(stored := None);
      var s1 := Say(Settle(Take(s, ByAnswer(Some(payload))), f.entry), ClearTimer(CallTimeout));
      AnsweredKeeps(c, s, f.entry, Some(payload));
      var s2 := s1;
      if f.entry.call.action == BootNotification && c.role == ChargingStation {
        BootIsNoTransaction(c, s1, p');
        ObserveKeeps(c, s1, {p'}, payload);
        s2 := ObserveBootAnswer(c, s1, payload, false);
      } else if f.entry.call.action == Heartbeat && payload.time.Some? {
        SayKeeps(c, s1, {p'}, ClockSample(payload.time.value, s1.now));
        s2 := Say(s1, ClockSample(payload.time.value, s1.now));
      }
      AnswerTold(c, s1, s2, f.entry, id, Some(payload));
      FinishAnswered(c, s2, f.entry, Some(id), Ok(Answer.CallResult(payload)));
    }
  }

  lemma OnCallErrorKeeps(c: Config, s: State, id: MessageId)
    requires Inv(c, s, {})
    ensures Inv(c, OnCallError(c, s, id), {})
  {
    hide Inv;
    if !Answers(s, id) {
      SayKeeps(c, s, {}, Violated(UnexpectedResponse(id)));
    } else {
      AnsweredKeeps(c, s, s.inflight.value.entry, None);
      var s1 := Say(Settle(Take(s, ByAnswer(None)), s.inflight.value.entry), ClearTimer(CallTimeout));
      AnswerTold(c, s1, s1, s.inflight.value.entry, id, None);
      FinishAnswered(c, Say(Settle(Take(s, ByAnswer(None)), s.inflight.value.entry), ClearTimer(CallTimeout)),
                     s.inflight.value.entry, Some(id), Err(RejectedByPeer));
    }
  }

  lemma OnFrameKeeps(c: Config, s: State, frame: Frame)
    requires Inv(c, s, {}) && !frame.Unreadable?
    ensures Inv(c, OnFrame(c, s, frame), {})
  {
    hide Inv;
    var s1 := if Conforming(frame.id) then s else Complain(s, NonConformingMessageId(frame.id));
    SayKeeps(c, s, {}, Violated(NonConformingMessageId(frame.id)));
    match frame
    case CallFrame(id, action, payload) => OnCallKeeps(c, s1, id, action, payload, CALL);
    case SendFrame(id, action, payload) => OnCallKeeps(c, s1, id, action, payload, SEND);
    case ResultFrame(id, payload) => OnCallResultKeeps(c, s1, id, payload);
    case ErrorFrameOf(id) => OnCallErrorKeeps(c, s1, id);
    case ResultErrorFrame(id) => SayKeeps(c, s1, {}, ResultRejected(id));
  }

  lemma ReceivedKeeps(c: Config, s: State, frame: Frame)
    requires Inv(c, s, {})
    ensures Inv(c, OnReceived(c, s, frame), {})
  {
    hide Inv;
    var s1 := ArmHeartbeat(c, s);
    ArmKeeps(c, s, {});
    match frame
    case Unreadable(unknown, reply, id) =>
      var v := Violated(if unknown then UnknownMessageType else MalformedFrame);
      SayKeeps(c, s1, {}, v);
      if reply != Ignore {
        var n := ErrorFrame(id, reply == ReplyCallResultError);
        SayKeeps(c, Say(s1, v), {}, n);
        ArmKeeps(c, Say(Say(s1, v), n), {});
      }
    case _ => OnFrameKeeps(c, s1, frame);
  }

  lemma RejectResultKeeps(c: Config, s: State, now: Instant, id: MessageId)
    requires Inv(c, s, {})
    ensures Inv(c, RejectResultOf(c, s, now, id), {})
  {
    hide Inv;
    AdvanceKeeps(c, s, {}, now);
    SayKeeps(c, Advance(s, now), {}, RejectResult(id));
    ArmKeeps(c, Say(Advance(s, now), RejectResult(id)), {});
  }

  // -- runs ---------------------------------------------------------------------------------

  /** What an engine may find in its store: what an engine wrote. */
  ghost predicate Sound(store: Store)
  {
    Ordered(store) && forall i :: 0 <= i < |store.entries| ==> WellFormedCall(store.entries[i].call)
  }

  function Truncated(store: Store, n: nat): (r: Store)
    requires n <= |store.entries|
  {
    store.(entries := store.entries[..n])
  }

  /** The first `n` messages have been restored, and nothing else numbered. */
  ghost predicate Restoring(m: View, store: Store, n: nat)
    requires n <= |store.entries|
  {
    !m.ready && m.nextSeq == if n == 0 then 0 else store.entries[n - 1].seqNo + 1
  }

  lemma {:induction false} RestoreAllKeeps(c: Config, version: Version, store: Store, n: nat)
    requires Sound(store) && n <= |store.entries|
    ensures Inv(c, RestoreAll(Blank(c, version, store), n).(store := Truncated(store, n)), {})
    ensures Restoring(Watch(RestoreAll(Blank(c, version, store), n).log), store, n)
  {
    hide Inv, Watch, Sound;
    if n == 0 {
      BlankKeeps(c, version, store);
    } else {
      RestoreAllKeeps(c, version, store, n - 1);
      RestoreOne(c, RestoreAll(Blank(c, version, store), n - 1), store, n);
    }
  }

  lemma BlankKeeps(c: Config, version: Version, store: Store)
    requires Sound(store)
    ensures Inv(c, Blank(c, version, store).(store := Truncated(store, 0)), {})
    ensures Restoring(Watch(Blank(c, version, store).log), store, 0)
  {
  }

  lemma RestoreOne(c: Config, s: State, store: Store, n: nat)
    requires Sound(store) && 0 < n <= |store.entries|
    requires Inv(c, s.(store := Truncated(store, n - 1)), {}) && Restoring(Watch(s.log), store, n - 1)
    requires s.draining.None?
    ensures Inv(c, Restore(s, store.entries[n - 1]).(store := Truncated(store, n)), {})
    ensures Restoring(Watch(Restore(s, store.entries[n - 1]).log), store, n)
  {
    hide Rel, Watch, Sound, Allowed, Accepts, Next;
    var e := store.entries[n - 1];
    var w := Waiting(s.nextToken, e.call, Some(e.seqNo), None, false, true);
    var s0 := s.(store := Truncated(store, n - 1));
    RestoredGains(store, n, w);
    IssueQueued(c, CoreOf(s0), Watch(s.log), w, Truncated(store, n));
    var issued := Issued(s.nextToken, e.call, false, Some(e.seqNo), true);
    Step(c, s0, issued, Restore(s, e).(store := Truncated(store, n)), {});
    RestoringStep(c, s.log, issued, store, n);
  }

  lemma RestoringStep(c: Config, log: seq<Event>, e: Event, store: Store, n: nat)
    requires Accepts(c, log) && Allowed(c, Watch(log), e) && 0 < n <= |store.entries|
    requires Restoring(Watch(log), store, n - 1)
    requires e.Issued? && e.stored == Some(store.entries[n - 1].seqNo)
    ensures Restoring(Watch(log + [e]), store, n)
  {
    hide Allowed;
    AcceptsOne(c, log, e);
  }

  lemma RestoredGains(store: Store, n: nat, w: Waiting)
    requires Sound(store) && 0 < n <= |store.entries|
    requires w.call == store.entries[n - 1].call && w.stored == Some(store.entries[n - 1].seqNo)
    ensures Gained(Truncated(store, n - 1), Truncated(store, n), w)
    ensures WellFormedCall(w.call)
    ensures Truncated(store, n - 1).nextSeq == store.nextSeq && Truncated(store, n).nextSeq == store.nextSeq
    ensures w.stored.value < store.nextSeq
    ensures n > 1 ==> store.entries[n - 2].seqNo + 1 <= w.stored.value
  {
    assert store.entries[..n] == store.entries[..n - 1] + [store.entries[n - 1]];
  }

  lemma WithStoreKeeps(c: Config, version: Version, store: Store)
    requires Sound(store)
    ensures Inv(c, WithStore(c, version, store), {})
  {
    hide Agrees, Apart, Covered, InOrder;
    RestoreAllKeeps(c, version, store, |store.entries|);
    assert store.entries[..|store.entries|] == store.entries;
    var s := RestoreAll(Blank(c, version, store), |store.entries|);
    var e := Opened(store.nextSeq, store.capacity);
    SameView(c, CoreOf(s), {}, Watch(s.log), Next(Watch(s.log), e));
    Step(c, s, e, Emit(s, e), {});
  }

  lemma ApplyKeeps(c: Config, s: State, cmd: Command)
    requires Inv(c, s, {})
    ensures Inv(c, Apply(c, s, cmd), {})
  {
    hide Rel;
    match cmd
    case Connect(now, version) =>
      AdvanceKeeps(c, s, {}, now);
      ConnectedKeeps(c, Advance(s, now), version);
    case Receive(now, frame) =>
      AdvanceKeeps(c, s, {}, now);
      ReceivedKeeps(c, Advance(s, now), frame);
    case Disconnect(now) =>
      AdvanceKeeps(c, s, {}, now);
      DisconnectedKeeps(c, Advance(s, now));
    case Tick(now) =>
      AdvanceKeeps(c, s, {}, now);
      TimeoutKeeps(c, Advance(s, now));
    case Call(now, action, payload, options) => CallWithKeeps(c, s, now, action, payload, options);
    case Respond(now, id, payload) => RespondKeeps(c, s, now, id, WithResult(payload));
    case RespondError(now, id) => RespondKeeps(c, s, now, id, WithError);
    case Reject(now, id) => RejectResultKeeps(c, s, now, id);
    case Cancel(token) => CancelKeeps(c, s, token);
    case Shutdown(now, deadline) => ShutdownKeeps(c, s, now, deadline);
    case SetCallTimeout(timeout) => TimeoutSetKeeps(c, s, timeout);
  }

  lemma TimeoutSetKeeps(c: Config, s: State, timeout: nat)
    requires Inv(c, s, {})
    ensures Inv(c, Emit(s.(callTimeout := timeout), TimeoutSet(timeout)), {})
  {
    hide Agrees, Apart, Covered, InOrder, StoreRel;
    var r := Emit(s.(callTimeout := timeout), TimeoutSet(timeout));
    Aside(c, CoreOf(s), CoreOf(r), {}, Watch(s.log), Next(Watch(s.log), TimeoutSet(timeout)));
    Step(c, s, TimeoutSet(timeout), r, {});
  }

  /** Every run of an engine opened on a sound store is accepted by the monitor. */
  lemma {:induction false} RunKeeps(c: Config, version: Version, store: Store, cmds: seq<Command>)
    requires Sound(store)
    ensures Inv(c, Run(c, WithStore(c, version, store), cmds), {})
  {
    if cmds == [] {
      WithStoreKeeps(c, version, store);
    } else {
      RunKeeps(c, version, store, cmds[..|cmds| - 1]);
      ApplyKeeps(c, Run(c, WithStore(c, version, store), cmds[..|cmds| - 1]), cmds[|cmds| - 1]);
    }
  }
}
