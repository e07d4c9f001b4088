/** What an outcome reports, over whole runs (src/engine/mod.rs): its result and its id are decided by
    what the log says became of the call. */
module EngineOutcomes {
  import opened Basics
  import opened Messages
  import opened MessageIds
  import opened Queue
  import opened Monitor
  import opened Traces
  import opened EngineModel
  import opened EngineInvariant
  import opened EngineSafety
  import opened EngineTheorems
  import opened EngineHistory
  import opened EngineTimers

  // -- what a log says of a call ------------------------------------------------------------

  /** What became of the latest transmission of `t` that is over. */
  function LastFate(log: seq<Event>, t: Token): (r: Option<Cause>)
  {
    if log == [] then None
    else
      var e := log[|log| - 1];
      if e.Freed? && e.token == t then Some(e.cause) else LastFate(log[..|log| - 1], t)
  }

  /** The id of the latest transmission of `t`. */
  function LastId(log: seq<Event>, t: Token): (r: Option<MessageId>)
  {
    if log == [] then None
    else
      var e := log[|log| - 1];
      if IsWire(e, t) then Some(e.id) else LastId(log[..|log| - 1], t)
  }

  /** The connection is up. */
  predicate IsUp(log: seq<Event>)
  {
    if log == [] then false
    else
      var e := log[|log| - 1];
      if e.Linked? then e.up else IsUp(log[..|log| - 1])
  }

  /** The application asked last for `t` to be cancelled, and has had no answer to that. */
  predicate AskedFor(log: seq<Event>, t: Token)
  {
    log != []
    && var e := log[|log| - 1];
       (e.CancelAsked? && e.token == t) || (!e.CancelAsked? && !IsOutcome(e, t) && AskedFor(log[..|log| - 1], t))
  }

  predicate IsLost(fate: Option<Cause>) { fate == Some(ByTimeout) || fate == Some(ByDisconnect) }

  /** The outcome at `i` of the call issued at `j` is what the log before it makes it: exactly which
      result is reported when, and under which id. */
  ghost predicate Explained(c: Config, log: seq<Event>, j: nat, i: nat)
  {
    && j < i < |log| && log[j].Issued? && IsOutcome(log[i], log[j].token)
    && var before, t, call, keep := log[..i], log[j].token, log[j].call, log[j].keep;
       var fate, sent, asked := LastFate(before, t), LastId(before, t), AskedFor(before, t);
       var again := call.transactional && IsLost(fate) && call.attempts + Wires(before, t) < c.retry.attempts;
       var result := log[i].result;
       && log[i].action == call.action
       && (forall p :: result == Ok(CallResult(p)) <==> fate == Some(ByAnswer(Some(p))))
       && (result == Err(RejectedByPeer) <==> fate == Some(ByAnswer(None)))
       && (result == Ok(Sent) <==> call.kind == SEND && sent.Some?)
       && (result == Err(TimedOut) <==> fate == Some(ByTimeout) && !call.transactional)
       && (result == Err(RetriesExhausted) <==> call.transactional && IsLost(fate) && !again)
       && (result == Err(Cancelled) <==> asked)
       && (result == Err(Failure.Disconnected) <==>
             !asked && !IsUp(before)
             && ((fate == Some(ByDisconnect) && !call.transactional) || ((sent.None? || again) && !keep)))
       && (result == Err(QueueFull) <==> !asked && sent.None? && (IsUp(before) || keep))
       && (asked || again ==> sent.None? || again)
       && log[i].sentAs == if asked || again then None else sent
  }

  // -- what the view remembers --------------------------------------------------------------

  /** The view and the log agree about `t`. */
  ghost predicate Remembers(m: View, log: seq<Event>, t: Token)
  {
    && m.connected == IsUp(log)
    && (m.cancelling == Some(t) <==> AskedFor(log, t))
    && (t >= |m.calls| ==> LastFate(log, t) == None && LastId(log, t) == None)
    && (t < |m.calls| ==> m.calls[t].fate == LastFate(log, t) && m.calls[t].sentAs == LastId(log, t))
  }

  lemma {:induction false} ViewRemembers(c: Config, log: seq<Event>, t: Token)
    requires Accepts(c, log)
    ensures Remembers(Watch(log), log, t)
  {
    hide Allowed, Next, Accepts, Watch, Remembers;
    if log == [] {
      StartRemembers(t);
      UnwatchedIsStart(log);
    } else {
      Unroll(c, log);
      ViewRemembers(c, log[..|log| - 1], t);
      RememberStep(c, Watch(log[..|log| - 1]), log, t);
    }
  }

  lemma StartRemembers(t: Token)
    ensures Remembers(START, [], t)
  {
  }

  lemma RememberStep(c: Config, m: View, log: seq<Event>, t: Token)
    requires log != [] && Allowed(c, m, log[|log| - 1]) && Remembers(m, log[..|log| - 1], t)
    ensures Remembers(Next(m, log[|log| - 1]), log, t)
  {
    hide Allowed, Next;
    FactsStep(c, m, log[|log| - 1], t);
    LinkStep(c, m, log[|log| - 1], t);
  }

  lemma FactsStep(c: Config, m: View, e: Event, t: Token)
    requires Allowed(c, m, e)
    ensures t < |m.calls| ==>
              && t < |Next(m, e).calls|
              && Next(m, e).calls[t].fate == (if e.Freed? && e.token == t then Some(e.cause) else m.calls[t].fate)
              && Next(m, e).calls[t].sentAs == (if IsWire(e, t) then Some(e.id) else m.calls[t].sentAs)
    ensures t >= |m.calls| ==> !IsWire(e, t) && !(e.Freed? && e.token == t)
    ensures t >= |m.calls| && t < |Next(m, e).calls| ==>
              Next(m, e).calls[t].fate == None && Next(m, e).calls[t].sentAs == None
  {
    hide Reports, TimerAllowed, Due, RecordedAs, EarlierTransactionsOver, SeqOf;
  }

  lemma LinkStep(c: Config, m: View, e: Event, t: Token)
    requires Allowed(c, m, e)
    ensures Next(m, e).connected == if e.Linked? then e.up else m.connected
    ensures Next(m, e).cancelling == Some(t) <==>
            (e.CancelAsked? && e.token == t) || (m.cancelling == Some(t) && !e.CancelAsked? && !IsOutcome(e, t))
  {
    hide Reports, TimerAllowed, Due, RecordedAs, EarlierTransactionsOver, SeqOf;
  }

  /** A `SEND` is no transaction message, never waits for an answer, and so never loses one. */
  ghost predicate SendsApart(m: View)
  {
    && (forall t :: 0 <= t < |m.calls| && m.calls[t].call.kind == SEND ==>
          !m.calls[t].call.transactional && m.calls[t].fate == None)
    && (m.slot.Some? ==> m.slot.value.token < |m.calls| && m.calls[m.slot.value.token].call.kind == CALL)
    && (forall t :: 0 <= t < |m.calls| && m.calls[t].sentAs == None ==> m.calls[t].fate == None)
    && (m.slot.Some? ==> m.slot.value.token < |m.calls| && m.calls[m.slot.value.token].sentAs.Some?)
  }

  lemma {:induction false} SendsStayApart(c: Config, log: seq<Event>)
    requires Accepts(c, log)
    ensures SendsApart(Watch(log))
  {
    hide Allowed, Next, Accepts, Watch, SendsApart;
    if log == [] {
      UnwatchedIsStart(log);
      StartApart();
    } else {
      Unroll(c, log);
      SendsStayApart(c, log[..|log| - 1]);
      ApartStep(c, Watch(log[..|log| - 1]), log[|log| - 1]);
    }
  }

  lemma StartApart()
    ensures SendsApart(START)
  {
  }

  lemma ApartStep(c: Config, m: View, e: Event)
    requires Allowed(c, m, e) && SendsApart(m)
    ensures SendsApart(Next(m, e))
  {
    hide Allowed, Next;
    var r := Next(m, e);
    forall t: Token | t < |r.calls|
      ensures r.calls[t].call.kind == SEND ==> !r.calls[t].call.transactional && r.calls[t].fate == None
      ensures r.calls[t].sentAs == None ==> r.calls[t].fate == None
    {
      FactsStep(c, m, e, t);
      CallStep(c, m, e, t);
    }
    SlotStep(c, m, e);
    if IsCallWire(e) {
      CallWireStep(c, m, e);
    }
    if m.slot.Some? {
      FactsStep(c, m, e, m.slot.value.token);
      CallStep(c, m, e, m.slot.value.token);
    }
  }

  lemma CallStep(c: Config, m: View, e: Event, t: Token)
    requires Allowed(c, m, e) && t < |Next(m, e).calls|
    ensures t < |m.calls| ==> Next(m, e).calls[t].call == m.calls[t].call
    ensures t >= |m.calls| && Next(m, e).calls[t].call.kind == SEND ==> !Next(m, e).calls[t].call.transactional
    ensures e.Freed? ==> m.slot.Some? && m.slot.value.token == e.token
  {
    hide Reports, TimerAllowed, Due, RecordedAs, EarlierTransactionsOver, SeqOf;
  }

  lemma CallWireStep(c: Config, m: View, e: Event)
    requires Allowed(c, m, e) && IsCallWire(e)
    ensures e.token < |m.calls| == |Next(m, e).calls|
    ensures Next(m, e).calls[e.token].call.kind == CALL && Next(m, e).calls[e.token].sentAs.Some?
  {
    hide Reports, TimerAllowed, Due, RecordedAs, EarlierTransactionsOver, SeqOf;
  }

  /** What the rules say of one outcome, in terms of what the view knows. */
  lemma OutcomeExplained(c: Config, log: seq<Event>, j: nat, i: nat)
    requires Accepts(c, log) && j < i < |log| && log[j].Issued? && IsOutcome(log[i], log[j].token)
    ensures Explained(c, log, j, i)
  {
    hide Next, Accepts, Watch, TimerAllowed, Due, EarlierTransactionsOver;
    var before, t := log[..i], log[j].token;
    AcceptsAt(c, log, i);
    assert before[j] == log[j];
    IssuedKept(c, before, j);
    AttemptsCount(c, before, t);
    ViewRemembers(c, before, t);
    SendsStayApart(c, before);
  }

  /** Every outcome of every run reports what became of the call: the payload of the answer if and only
      if it was answered with that payload, the peer's refusal if and only if it was refused, and so on
      for every result there is; under the id of its latest transmission, or under none. */
  lemma OutcomesTell(c: Config, version: Version, store: Store, cmds: seq<Command>)
    requires Sound(store)
    ensures var log := Final(c, version, store, cmds).log;
            forall j, i :: 0 <= j < i < |log| && log[j].Issued? && IsOutcome(log[i], log[j].token)
                           ==> Explained(c, log, j, i)
  {
    hide Final, Explained;
    LogAccepted(c, version, store, cmds);
    var log := Final(c, version, store, cmds).log;
    forall j, i | 0 <= j < i < |log| && log[j].Issued? && IsOutcome(log[i], log[j].token)
      ensures Explained(c, log, j, i)
    {
      OutcomeExplained(c, log, j, i);
    }
  }

  // -- cancellation -------------------------------------------------------------------------

  /** A call is reported as cancelled at or after position `n`. */
  ghost predicate CancelledFrom(log: seq<Event>, n: nat, t: Token)
  {
    exists k :: n <= k < |log| && IsOutcome(log[k], t) && log[k].result == Err(Cancelled)
  }

  /** In every run, a command makes the engine report a call as cancelled if and only if it asks for
      that call's cancellation and the call is queued. */
  lemma CancelledIffAsked(c: Config, version: Version, store: Store, cmds: seq<Command>, cmd: Command, t: Token)
    requires Sound(store)
    ensures var s, r := Final(c, version, store, cmds), Final(c, version, store, cmds + [cmd]);
            && s.log <= r.log
            && (CancelledFrom(r.log, |s.log|, t) <==>
                cmd == Cancel(t) && exists i :: 0 <= i < |s.queue| && s.queue[i].token == t)
  {
    hide Inv, CancelledFrom, Apply;
    var s := Final(c, version, store, cmds);
    assert (cmds + [cmd])[..|cmds|] == cmds;
    var r := Apply(c, s, cmd);
    assert r == Final(c, version, store, cmds + [cmd]);
    RunKeeps(c, version, store, cmds);
    ApplyKeeps(c, s, cmd);
    ApplyOnward(c, s, cmd);
    if cmd.Cancel? {
      CancelReports(c, s, cmd.token, t);
    } else {
      OthersCancelNothing(c, s, cmd, t);
    }
  }

  lemma CancelReports(c: Config, s: State, u: Token, t: Token)
    ensures CancelledFrom(Apply(c, s, Cancel(u)).log, |s.log|, t) <==>
            u == t && exists i :: 0 <= i < |s.queue| && s.queue[i].token == t
  {
    var r := Apply(c, s, Cancel(u));
    var i := IndexOfToken(s.queue, u, 0);
    if i.Some? {
      var p := s.queue[i.value];
      assert r.log == s.log + [CancelAsked(u), Settled(p.token, p.stored), Outcome(p.token, None, p.call.action, Err(Cancelled))];
      assert r.log[|s.log| + 2] == Outcome(p.token, None, p.call.action, Err(Cancelled));
    }
  }

  lemma OthersCancelNothing(c: Config, s: State, cmd: Command, t: Token)
    requires Inv(c, s, {}) && Inv(c, Apply(c, s, cmd), {}) && Onward(s, Apply(c, s, cmd), Business(cmd)) && !cmd.Cancel?
    ensures !CancelledFrom(Apply(c, s, cmd).log, |s.log|, t)
  {
    hide Apply, Rel, Accepts, Watch, Allowed, Next;
    var r := Apply(c, s, cmd);
    NothingAsked(c, s, t);
    if cmd.SetCallTimeout? {
      TimeoutAsksNothing(c, s, cmd);
    }
    forall k | |s.log| <= k < |r.log| && IsOutcome(r.log[k], t) && r.log[k].result == Err(Cancelled)
      ensures false
    {
      NoneAskedLater(s.log, r.log, k, t, cmd);
      AcceptsAt(c, r.log, k);
      OnlyWhenAsked(c, r.log[..k], r.log[k]);
      ViewRemembers(c, r.log[..k], t);
    }
  }

  lemma TimeoutAsksNothing(c: Config, s: State, cmd: Command)
    requires cmd.SetCallTimeout?
    ensures Apply(c, s, cmd).log == s.log + [TimeoutSet(cmd.timeout)]
  {
  }

  lemma OnlyWhenAsked(c: Config, log: seq<Event>, e: Event)
    requires Allowed(c, Watch(log), e) && e.Outcome? && e.result == Err(Cancelled)
    ensures Watch(log).cancelling == Some(e.token)
  {
  }

  lemma NothingAsked(c: Config, s: State, t: Token)
    requires Inv(c, s, {})
    ensures !AskedFor(s.log, t)
  {
    hide Agrees, Apart, Covered, InOrder, StoreRel, Globals;
    ViewRemembers(c, s.log, t);
  }

  lemma {:induction false} NoneAskedLater(before: seq<Event>, log: seq<Event>, k: nat, t: Token, cmd: Command)
    requires before <= log && |before| <= k <= |log| && !cmd.Cancel? && !AskedFor(before, t)
    requires forall i :: |before| <= i < |log| ==> SortOf(log[i]) in Business(cmd)
    requires cmd.SetCallTimeout? ==> forall i :: |before| <= i < |log| ==> !log[i].CancelAsked?
    ensures !AskedFor(log[..k], t)
  {
    if k > |before| {
      NoneAskedLater(before, log, k - 1, t, cmd);
      assert log[..k][..k - 1] == log[..k - 1];
      assert log[..k][k - 1] == log[k - 1];
    } else {
      assert log[..k] == before;
    }
  }

  // -- an answer is reported ----------------------------------------------------------------

  /** The event stands at or after position `n`. */
  ghost predicate SaidFrom(log: seq<Event>, n: nat, e: Event)
  {
    exists k :: n <= k < |log| && log[k] == e
  }

  /** Nothing is freed or reported at or after position `n`. */
  ghost predicate NothingOver(log: seq<Event>, n: nat)
  {
    forall k :: n <= k < |log| ==> !log[k].Freed? && !log[k].Outcome?
  }

  /** The call transmitted at `a` under this id is still waiting for its answer. */
  ghost predicate Awaits(log: seq<Event>, a: nat, id: MessageId)
  {
    Unanswered(log, a) && log[a].id == id
  }

  /** In every run, a result from the peer is reported, at once and with its payload, as the outcome of the call
      waiting under its id; and where none is, nothing is reported. */
  lemma ResultReported(c: Config, version: Version, store: Store, cmds: seq<Command>, now: Instant, id: MessageId,
                       payload: Payload)
    requires Sound(store)
    ensures var s, r := Final(c, version, store, cmds), Final(c, version, store, cmds + [Receive(now, ResultFrame(id, payload))]);
            && s.log <= r.log
            && (forall a: nat :: Awaits(s.log, a, id) ==>
                  SaidFrom(r.log, |s.log|, Outcome(s.log[a].token, Some(id), s.log[a].action, Ok(CallResult(payload)))))
            && ((forall a: nat :: !Awaits(s.log, a, id)) ==> NothingOver(r.log, |s.log|))
  {
    hide Inv, OnReceived, WithStore, Awaits, SaidFrom, NothingOver;
    var s := Final(c, version, store, cmds);
    var cmd := Receive(now, ResultFrame(id, payload));
    assert (cmds + [cmd])[..|cmds|] == cmds;
    assert Final(c, version, store, cmds + [cmd]) == OnReceived(c, Advance(s, now), ResultFrame(id, payload));
    RunKeeps(c, version, store, cmds);
    ApplyOnward(c, s, cmd);
    WaitingIsInFlight(c, s, id);
    ReceivedResult(c, Advance(s, now), id, payload);
  }

  /** The same for an error. */
  lemma RefusalReported(c: Config, version: Version, store: Store, cmds: seq<Command>, now: Instant, id: MessageId)
    requires Sound(store)
    ensures var s, r := Final(c, version, store, cmds), Final(c, version, store, cmds + [Receive(now, ErrorFrameOf(id))]);
            && s.log <= r.log
            && (forall a: nat :: Awaits(s.log, a, id) ==>
                  SaidFrom(r.log, |s.log|, Outcome(s.log[a].token, Some(id), s.log[a].action, Err(RejectedByPeer))))
            && ((forall a: nat :: !Awaits(s.log, a, id)) ==> NothingOver(r.log, |s.log|))
  {
    hide Inv, OnReceived, WithStore, Awaits, SaidFrom, NothingOver;
    var s := Final(c, version, store, cmds);
    var cmd := Receive(now, ErrorFrameOf(id));
    assert (cmds + [cmd])[..|cmds|] == cmds;
    assert Final(c, version, store, cmds + [cmd]) == OnReceived(c, Advance(s, now), ErrorFrameOf(id));
    RunKeeps(c, version, store, cmds);
    ApplyOnward(c, s, cmd);
    WaitingIsInFlight(c, s, id);
    ReceivedRefusal(c, Advance(s, now), id);
  }

  /** The call waiting under an id is the one in the slot. */
  lemma WaitingIsInFlight(c: Config, s: State, id: MessageId)
    requires Inv(c, s, {})
    ensures forall a: nat :: Awaits(s.log, a, id) ==>
              Answers(s, id) && s.inflight.value.entry.token == s.log[a].token
              && s.inflight.value.entry.call.action == s.log[a].action
    ensures Answers(s, id) ==> exists a: nat :: Awaits(s.log, a, id)
  {
    hide Agrees, Apart, Covered, InOrder, StoreRel, Next, Watch, Accepts;
    forall a: nat | Awaits(s.log, a, id)
      ensures Answers(s, id) && s.inflight.value.entry.token == s.log[a].token
      ensures s.inflight.value.entry.call.action == s.log[a].action
    {
      SlotWait(c, s.log, a);
      WiredAction(c, s.log, a);
      TakenFits(c, CoreOf(s), Watch(s.log));
    }
    if Answers(s, id) {
      var a := SlotUnanswered(c, s.log);
      assert Awaits(s.log, a, id);
    }
  }

  lemma WiredAction(c: Config, log: seq<Event>, a: nat)
    requires Accepts(c, log) && a < |log| && log[a].Wire?
    ensures log[a].token < |Watch(log).calls| && Watch(log).calls[log[a].token].call.action == log[a].action
  {
    hide Next, Watch, Accepts;
    AcceptsAt(c, log, a);
    var h := CallIssued(c, log[..a], log[a].token);
    IssuedKept(c, log[..a], h);
    assert log[..a][h] == log[h];
    IssuedKept(c, log, h);
  }

  lemma ReceivedResult(c: Config, s: State, id: MessageId, payload: Payload)
    ensures var r := OnReceived(c, s, ResultFrame(id, payload));
            if Answers(s, id) then
              SaidFrom(r.log, |s.log|, Outcome(s.inflight.value.entry.token, Some(id), s.inflight.value.entry.call.action,
                                               Ok(CallResult(payload))))
            else NothingOver(r.log, |s.log|)
  {
    hide OnCallResult, NothingOver, SaidFrom, ArmHeartbeat;
    var s1 := ArmHeartbeat(c, s);
    var s2 := if Conforming(id) then s1 else Complain(s1, NonConformingMessageId(id));
    BeforeFrame(c, s, s1, s2, id);
    if Answers(s, id) {
      ResultSaid(c, s2, id, payload);
      SaidLater(OnCallResult(c, s2, id, payload).log, |s.log|, |s2.log|,
                Outcome(s.inflight.value.entry.token, Some(id), s.inflight.value.entry.call.action, Ok(CallResult(payload))));
    } else {
      UnexpectedSaid(c, s, s2, id, payload);
    }
  }

  lemma ReceivedRefusal(c: Config, s: State, id: MessageId)
    ensures var r := OnReceived(c, s, ErrorFrameOf(id));
            if Answers(s, id) then
              SaidFrom(r.log, |s.log|, Outcome(s.inflight.value.entry.token, Some(id), s.inflight.value.entry.call.action,
                                               Err(RejectedByPeer)))
            else NothingOver(r.log, |s.log|)
  {
    hide OnCallError, NothingOver, SaidFrom, ArmHeartbeat;
    var s1 := ArmHeartbeat(c, s);
    var s2 := if Conforming(id) then s1 else Complain(s1, NonConformingMessageId(id));
    BeforeFrame(c, s, s1, s2, id);
    if Answers(s, id) {
      RefusalSaid(c, s2, id);
      SaidLater(OnCallError(c, s2, id).log, |s.log|, |s2.log|,
                Outcome(s.inflight.value.entry.token, Some(id), s.inflight.value.entry.call.action, Err(RejectedByPeer)));
    } else {
      UnexpectedSaid(c, s, s2, id, EMPTY_PAYLOAD);
    }
  }

  lemma SaidLater(log: seq<Event>, m: nat, n: nat, e: Event)
    requires m <= n && SaidFrom(log, n, e)
    ensures SaidFrom(log, m, e)
  {
  }

  /** What precedes the handling of a frame: perhaps a timer, perhaps a complaint. */
  lemma BeforeFrame(c: Config, s: State, s1: State, s2: State, id: MessageId)
    requires s1 == ArmHeartbeat(c, s)
    requires s2 == s1 || s2 == Complain(s1, NonConformingMessageId(id))
    ensures s.log <= s2.log && s2.inflight == s.inflight && NothingOver(s2.log, |s.log|)
  {
  }

  lemma UnexpectedSaid(c: Config, s: State, s2: State, id: MessageId, payload: Payload)
    requires s.log <= s2.log && NothingOver(s2.log, |s.log|) && !Answers(s2, id)
    ensures NothingOver(OnCallResult(c, s2, id, payload).log, |s.log|) && NothingOver(OnCallError(c, s2, id).log, |s.log|)
  {
  }

  lemma ResultSaid(c: Config, s: State, id: MessageId, payload: Payload)
    requires Answers(s, id)
    ensures SaidFrom(OnCallResult(c, s, id, payload).log, |s.log|,
                     Outcome(s.inflight.value.entry.token, Some(id), s.inflight.value.entry.call.action, Ok(CallResult(payload))))
  {
    hide Pump, ObserveBootAnswer, CheckDrain, Onward;
    var w := {Ordinary, Failing, Arming};
    var f := s.inflight.value;
    var s1 := Say(Settle(Take(s, ByAnswer(Some(payload))), f.entry), ClearTimer(CallTimeout));
    AnsweredOnward(s, ByAnswer(Some(payload)), w);
    ObserveOnward(c, s1, payload, false, w);
    var s2 := if f.entry.call.action == BootNotification && c.role == ChargingStation then
                ObserveBootAnswer(c, s1, payload, false)
              else if f.entry.call.action == Heartbeat && payload.time.Some? then
                Say(s1, ClockSample(payload.time.value, s1.now))
              else s1;
    if payload.time.Some? {
      Said(s1, ClockSample(payload.time.value, s1.now), w);
    }
    Same(s1, s1, w);
    Chain(s, s1, s2, w);
    FinishSaid(c, s, s2, f.entry, id, Ok(CallResult(payload)), w);
  }

  lemma RefusalSaid(c: Config, s: State, id: MessageId)
    requires Answers(s, id)
    ensures SaidFrom(OnCallError(c, s, id).log, |s.log|,
                     Outcome(s.inflight.value.entry.token, Some(id), s.inflight.value.entry.call.action, Err(RejectedByPeer)))
  {
    hide Pump, CheckDrain, Onward;
    var w := {Ordinary, Failing, Arming};
    var f := s.inflight.value;
    AnsweredOnward(s, ByAnswer(None), w);
    FinishSaid(c, s, Say(Settle(Take(s, ByAnswer(None)), f.entry), ClearTimer(CallTimeout)), f.entry, id, Err(RejectedByPeer), w);
  }

  lemma FinishSaid(c: Config, s: State, t: State, p: Waiting, id: MessageId, result: Result<Answer, Failure>, w: set<Sort>)
    requires Onward(s, t, w) && Ordinary in w && Failing in w
    ensures SaidFrom(CheckDrain(Pump(c, Finish(t, p, Some(id), result))).log, |s.log|,
                     Outcome(p.token, Some(id), p.call.action, result))
  {
    hide Pump, CheckDrain;
    var n := Finish(t, p, Some(id), result);
    DrainOnward(c, n, w);
    assert n.log[|t.log|] == Outcome(p.token, Some(id), p.call.action, result);
    assert CheckDrain(Pump(c, n)).log[|t.log|] == n.log[|t.log|];
  }
}
