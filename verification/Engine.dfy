/** The engine itself: the state machine a driver feeds and drains, updated in place, each method
    proved to do what the corresponding function of the model does. */
module EngineObject {
  import opened Basics
  import opened Messages
  import opened MessageIds
  import opened Queue
  import opened Monitor
  import M = EngineModel
  import opened EngineModel

  /** What the driver takes out. */
  datatype Output =
    | TransmitCall(id: MessageId, action: Action, payload: Payload)
    | TransmitSend(id: MessageId, action: Action, payload: Payload)
    | TransmitResult(id: MessageId, payload: Payload)
    | TransmitError(id: MessageId)
    | TransmitResultError(id: MessageId)
    | Ask(id: MessageId, action: Action, payload: Payload, kind: Kind)
    | Report(token: Token, sentAs: Option<MessageId>, action: Action, result: Result<Answer, Failure>)
    | BootChanged(boot: BootState)
    | Close(reason: CloseReason)
    | Tell(note: Note)

  /** What the driver sees of an event. */
  function Visible(e: Event): (r: seq<Output>)
  {
    match e
    case Wire(_, id, _, action, payload, kind, _, _, _) =>
      [if kind == CALL then TransmitCall(id, action, payload) else TransmitSend(id, action, payload)]
    case Outcome(t, sentAs, action, result) => [Report(t, sentAs, action, result)]
    case BootVerdict(state) => [BootChanged(state)]
    case BootExpired(_) => [BootChanged(Idle)]
    case Request(id, action, payload, kind) => [Ask(id, action, payload, kind)]
    case Refused(id, _) => [TransmitError(id)]
    case Answered(id, reply) =>
      [if reply.WithResult? then TransmitResult(id, reply.payload) else TransmitError(id)]
    case Closed(reason, _) => [Close(reason)]
    case Noted(note) =>
      (match note
       case BootReport(state) => [BootChanged(state)]
       case ErrorFrame(id, forResult) => [if forResult then TransmitResultError(id) else TransmitError(id)]
       case RejectResult(id) => [TransmitResultError(id)]
       case _ => [Tell(note)])
    case _ => []
  }

  function VisibleAll(log: seq<Event>): (r: seq<Output>)
  {
    if log == [] then [] else VisibleAll(log[..|log| - 1]) + Visible(log[|log| - 1])
  }

  lemma VisibleMore(log: seq<Event>, e: Event)
    ensures VisibleAll(log + [e]) == VisibleAll(log) + Visible(e)
  {
    hide Visible;
    assert (log + [e])[..|log|] == log;
  }

  /** The branches of a submission. */
  lemma SubmitSplit(c: Config, s: State, action: Action, payload: Payload, options: CallOptions,
                    call: QueuedCall, persist: bool, keep: bool)
    requires M.Refuse(c, s, action) == None && call == SubmittedCall(c, s, action, payload)
    requires persist == if options.persist.Some? then options.persist.value else call.transactional
    requires keep == if options.queueWhenOffline.Some? then options.queueWhenOffline.value
                     else call.transactional || c.queueAllMessages
    ensures call.action == action && call.payload == payload
    ensures M.Submit(c, s, action, payload, options) ==
            if !s.connected && !keep then M.FailNow(s, call, options.triggered, keep, Failure.Disconnected)
            else if |s.queue| >= c.maxQueued then M.FailNow(s, call, options.triggered, keep, QueueFull)
            else if persist && Full(s.store) then
              M.FailNow(M.Complain(s, StoreFailure), call, options.triggered, keep, QueueFull)
            else
              var s1 := M.Enqueue(s, call, persist, options.triggered, keep);
              M.Pump(c, if c.role == Csms then M.RememberSolicited(s1, action, payload) else s1)
  {
    hide M.Pump, M.RememberSolicited, M.FailNow, M.Enqueue, Full, M.Refuse, M.Complain;
  }

  class Engine {
    const c: Config
    var store: Store
    var nextId: nat
    var outputs: seq<Output>
    var queue: seq<Waiting>
    var inflight: Option<InFlight>
    var peers: set<MessageId>
    var connected: bool
    var version: Version
    var now: Instant
    var nextToken: Token
    var boot: BootState
    var heartbeatInterval: Option<nat>
    var solicited: set<Action>
    var draining: Option<Instant>
    var bootRetryAt: Option<Instant>
    var heartbeatAt: Option<Instant>
    var callTimeout: nat
    ghost var minted: nat
    ghost var log: seq<Event>
    ghost var taken: seq<Output>

    ghost function Abs(): (r: State)
      reads this
    {
      State(queue, inflight, peers, connected, version, now, nextToken, boot, heartbeatInterval, solicited,
            draining, bootRetryAt, heartbeatAt, callTimeout, minted, store, log)
    }

    ghost predicate Valid()
      reads this
    {
      nextId == minted % U64_LIMIT && taken + outputs == VisibleAll(log)
    }

    /** `with_store`: what the store still holds is queued again. */
    constructor (c: Config, version: Version, store: Store)
      ensures Valid() && this.c == c
      ensures Abs() == WithStore(c, version, store)
      ensures outputs == [] && taken == []
    {
      this.c := c;
      this.store := store;
      nextId := 0;
      outputs := [];
      queue := [];
      inflight := None;
      peers := {};
      connected := false;
      this.version := version;
      now := 0;
      nextToken := 0;
      boot := Idle;
      heartbeatInterval := None;
      solicited := {};
      draining := None;
      bootRetryAt := None;
      heartbeatAt := None;
      callTimeout := c.callTimeout;
      minted := 0;
      log := [];
      taken := [];
      new;
      RestoreAll();
      Mark(Opened(store.nextSeq, store.capacity));
    }

    /** Queues what the store still holds. */
    method RestoreAll()
      requires Valid() && Abs() == Blank(c, version, store) && outputs == [] && taken == []
      modifies `queue, `nextToken, `log
      ensures Valid() && Abs() == M.RestoreAll(old(Abs()), |store.entries|)
    {
      hide Valid, M.Restore, VisibleAll;
      for i := 0 to |store.entries|
        invariant Valid() && Abs() == M.RestoreAll(old(Abs()), i)
        modifies `queue, `nextToken, `log
      {
        Restore(store.entries[i]);
      }
    }

    method Restore(e: Entry)
      requires Valid()
      modifies `queue, `nextToken, `log
      ensures Valid() && Abs() == M.Restore(old(Abs()), e)
    {
      hide VisibleAll;
      var token := MintToken();
      queue := queue + [Waiting(token, e.call, Some(e.seqNo), None, false, true)];
      Mark(Issued(token, e.call, false, Some(e.seqNo), true));
    }

    // -- driver interface -------------------------------------------------------------------

    method PollOutput() returns (r: Option<Output>)
      requires Valid()
      modifies `outputs, `taken
      ensures Valid() && Abs() == old(Abs())
      ensures old(outputs) == [] ==> r == None && outputs == []
      ensures old(outputs) != [] ==> r == Some(old(outputs)[0]) && outputs == old(outputs)[1..]
    {
      if outputs == [] {
        return None;
      }
      r := Some(outputs[0]);
      taken := taken + [outputs[0]];
      outputs := outputs[1..];
    }

    method Drain() returns (r: seq<Output>)
      requires Valid()
      modifies `outputs, `taken
      ensures Valid() && Abs() == old(Abs())
      ensures r == old(outputs) && outputs == [] && taken == VisibleAll(log)
    {
      r := outputs;
      taken := taken + outputs;
      outputs := [];
    }

    // -- helpers ----------------------------------------------------------------------------

    method MintToken() returns (t: Token)
      modifies `nextToken
      ensures t == old(nextToken) && nextToken == t + 1
    {
      t := nextToken;
      nextToken := nextToken + 1;
    }

    /** Logs a mark; nothing reaches the driver. */
    ghost method Mark(e: Event)
      requires Valid() && Visible(e) == []
      modifies `log
      ensures Valid() && Abs() == M.Emit(old(Abs()), e)
    {
      hide VisibleAll, Visible;
      VisibleMore(log, e);
      log := log + [e];
    }

    method Emit(e: Event)
      requires Valid()
      modifies `log, `outputs
      ensures Valid() && Abs() == M.Emit(old(Abs()), e)
    {
      hide VisibleAll, Visible;
      VisibleMore(log, e);
      outputs := outputs + Visible(e);
      log := log + [e];
    }

    method Say(n: Note)
      requires Valid()
      modifies `log, `outputs
      ensures Valid() && Abs() == M.Say(old(Abs()), n)
    {
      Emit(Noted(n));
    }

    method Advance(at: Instant)
      requires Valid()
      modifies `now
      ensures Valid() && Abs() == M.Advance(old(Abs()), at)
    {
      if at > now {
        now := at;
      }
    }

    method ArmHeartbeat()
      requires Valid()
      modifies `log, `outputs, `heartbeatAt
      ensures Valid() && Abs() == M.ArmHeartbeat(c, old(Abs()))
    {
      if !c.automaticHeartbeat || c.role != ChargingStation {
        return;
      }
      if heartbeatInterval.None? || heartbeatInterval.value == 0 {
        return;
      }
      var at := SaturatingAdd(now, heartbeatInterval.value);
      if heartbeatAt == Some(at) {
        return;
      }
      heartbeatAt := Some(at);
      Say(SetTimer(HeartbeatTimer, at));
    }

    method Transmit(e: Event)
      requires Valid()
      modifies `log, `outputs, `heartbeatAt
      ensures Valid() && Abs() == M.Transmit(c, old(Abs()), e)
    {
      Emit(e);
      ArmHeartbeat();
    }

    /** `ack_store`. */
    method Settle(entry: Waiting)
      requires Valid()
      modifies `log, `store
      ensures Valid() && Abs() == M.Settle(old(Abs()), entry)
    {
      if entry.stored.Some? {
        store := Ack(store, entry.stored.value);
      }
      Mark(Settled(entry.token, entry.stored));
    }

    method Finish(entry: Waiting, sentAs: Option<MessageId>, result: Result<Answer, Failure>)
      requires Valid()
      modifies `log, `outputs
      ensures Valid() && Abs() == M.Finish(old(Abs()), entry, sentAs, result)
    {
      Emit(Outcome(entry.token, sentAs, entry.call.action, result));
    }

    method Take(cause: Cause) returns (f: InFlight)
      requires Valid() && inflight.Some?
      modifies `inflight, `log
      ensures Valid() && f == old(inflight).value && Abs() == M.Take(old(Abs()), cause)
    {
      f := inflight.value;
      inflight := None;
      Mark(Freed(f.entry.token, f.id, cause, now));
    }

    // -- pumping ----------------------------------------------------------------------------

    method EligibleAt(i: nat) returns (r: bool)
      requires i < |queue|
      ensures r == Eligible(c, Abs(), i)
    {
      var entry := queue[i];
      if entry.notBefore.Some? && now < entry.notBefore.value {
        return false;
      }
      if entry.call.transactional {
        var oldest := 0;
        while !queue[oldest].call.transactional
          invariant oldest <= i
          invariant forall k :: 0 <= k < oldest ==> !queue[k].call.transactional
          invariant OldestTransactional(queue, 0) == OldestTransactional(queue, oldest)
          decreases i - oldest
        {
          oldest := oldest + 1;
        }
        if oldest != i {
          return false;
        }
      }
      if !c.enforceBootGate || c.role != ChargingStation {
        return true;
      }
      return boot == Accepted || entry.call.action == BootNotification || entry.triggered;
    }

    method Find(kind: Kind) returns (r: Option<nat>)
      ensures r == FindEligible(c, Abs(), kind, 0)
    {
      var i := 0;
      while i < |queue|
        invariant i <= |queue|
        invariant FindEligible(c, Abs(), kind, 0) == FindEligible(c, Abs(), kind, i)
      {
        if queue[i].call.kind == kind {
          var eligible := EligibleAt(i);
          if eligible {
            return Some(i);
          }
        }
        i := i + 1;
      }
      return None;
    }

    /** Removes the call at `i` and mints the id it is transmitted under. */
    method Dequeue(i: nat) returns (entry: Waiting, ghost serial: nat, id: MessageId)
      requires Valid() && i < |queue|
      modifies `queue, `minted, `nextId
      ensures Valid() && entry == old(queue[i]) && serial == old(minted)
      ensures id == IdText(c.prefix, serial % U64_LIMIT)
      ensures Abs() == old(Abs()).(queue := RemoveAt(old(queue), i), minted := serial + 1)
    {
      entry := queue[i];
      queue := queue[..i] + queue[i + 1..];
      id := WriteId(c.prefix, nextId);
      nextId := (nextId + 1) % U64_LIMIT;
      serial := minted;
      minted := minted + 1;
    }

    method SendOut(i: nat)
      requires Valid() && i < |queue|
      modifies this
      ensures Valid() && Abs() == M.SendOut(c, old(Abs()), i)
      ensures taken == old(taken)
    {
      hide M.ArmHeartbeat, VisibleAll, IdText, Ack;
      var entry, serial, id := Dequeue(i);
      TransmitWire(entry, serial, id);
      Settle(entry);
      Finish(entry, Some(id), Ok(Sent));
    }

    /** Hands the frame of a call to the driver; the serial is known to the log only. */
    method TransmitWire(entry: Waiting, ghost serial: nat, id: MessageId)
      requires Valid()
      modifies `log, `outputs, `heartbeatAt
      ensures Valid()
      ensures Abs() == M.Transmit(c, old(Abs()),
                Wire(entry.token, id, serial, entry.call.action, entry.call.payload, entry.call.kind,
                     entry.call.attempts + 1, old(now), SaturatingAdd(old(now), old(callTimeout))))
    {
      hide M.ArmHeartbeat, VisibleAll, SaturatingAdd;
      ghost var e := Wire(entry.token, id, serial, entry.call.action, entry.call.payload, entry.call.kind,
                          entry.call.attempts + 1, now, SaturatingAdd(now, callTimeout));
      VisibleMore(log, e);
      outputs := outputs + [if entry.call.kind == CALL then TransmitCall(id, entry.call.action, entry.call.payload)
                            else TransmitSend(id, entry.call.action, entry.call.payload)];
      log := log + [e];
      ArmHeartbeat();
    }

    method CallOut(i: nat)
      requires Valid() && i < |queue|
      modifies this
      ensures Valid() && Abs() == M.CallOut(c, old(Abs()), i)
      ensures taken == old(taken)
    {
      hide M.ArmHeartbeat, VisibleAll, IdText;
      var entry, serial, id := Dequeue(i);
      TransmitWire(entry, serial, id);
      var deadline := SaturatingAdd(now, callTimeout);
      Say(SetTimer(CallTimeout, deadline));
      inflight := Some(InFlight(id, entry.(call := entry.call.(attempts := entry.call.attempts + 1), notBefore := None),
                                deadline));
    }

    method Pump()
      requires Valid()
      modifies this
      ensures Valid() && Abs() == M.Pump(c, old(Abs()))
      ensures taken == old(taken)
    {
      if !connected {
        return;
      }
      var i := Find(SEND);
      while i.Some?
        invariant Valid() && taken == old(taken)
        invariant i == FindEligible(c, Abs(), SEND, 0)
        invariant PumpSends(c, Abs()) == PumpSends(c, old(Abs()))
        decreases |queue|
      {
        SendOut(i.value);
        i := Find(SEND);
      }
      ghost var s1 := Abs();
      while inflight.None?
        invariant Valid() && taken == old(taken)
        invariant Abs() == s1 || (inflight.Some? && Abs() == PumpCall(c, s1))
        decreases if inflight.None? then 1 else 0
      {
        var k := Find(CALL);
        if k.None? {
          break;
        }
        CallOut(k.value);
      }
    }

    method CheckDrain()
      requires Valid()
      modifies `log, `outputs, `draining
      ensures Valid() && Abs() == M.CheckDrain(old(Abs()))
    {
      if draining.Some? && inflight.None? && queue == [] {
        draining := None;
        Say(ClearTimer(DrainDeadline));
        Emit(Closed(Drained, now));
      }
    }

    // -- application interface --------------------------------------------------------------

    method FailNow(call: QueuedCall, triggered: bool, keep: bool, why: Failure) returns (t: Token)
      requires Valid()
      modifies `log, `outputs, `nextToken
      ensures Valid() && Abs() == M.FailNow(old(Abs()), call, triggered, keep, why) && t == old(nextToken)
    {
      t := MintToken();
      Mark(Issued(t, call, triggered, None, keep));
      Emit(Outcome(t, None, call.action, Err(why)));
    }

    method RememberSolicited(action: Action, payload: Payload)
      requires Valid()
      modifies `solicited
      ensures Valid() && Abs() == M.RememberSolicited(old(Abs()), action, payload)
    {
      ghost var s := Abs();
      if action == TriggerMessage || action == ExtendedTriggerMessage {
        if payload.requested.Some? {
          solicited := solicited + {payload.requested.value};
          if payload.requested.value == SignChargePointCertificate {
            solicited := solicited + {SignCertificate};
          }
        }
      }
      solicited := solicited + SolicitedBy(action);
      assert solicited == M.RememberSolicited(s, action, payload).solicited;
    }

    method CallWith(at: Instant, action: Action, payload: Payload, options: CallOptions) returns (r: Result<Token, Refusal>)
      requires Valid()
      modifies this
      ensures Valid() && Abs() == M.CallWith(c, old(Abs()), at, action, payload, options)
      ensures taken == old(taken)
      ensures var refusal := Refuse(c, M.Advance(old(Abs()), at), action);
              r == if refusal.Some? then Err(refusal.value) else Ok(old(nextToken))
    {
      Advance(at);
      if draining.Some? {
        return Err(ShuttingDown);
      }
      var kind := KindOf(c.known, version, action);
      if kind.None? {
        return Err(UnknownAction);
      }
      if !MaySend(OriginOf(c.known, version, action), c.role) {
        return Err(NotOurs);
      }
      if kind.value == SEND && !HasExtendedMessageTypes(version) {
        return Err(SendNotSupported);
      }
      var t := Submit(kind.value, action, payload, options);
      return Ok(t);
    }

    method Submit(kind: Kind, action: Action, payload: Payload, options: CallOptions) returns (t: Token)
      requires Valid() && Refuse(c, Abs(), action) == None && Some(kind) == KindOf(c.known, version, action)
      modifies this
      ensures Valid() && Abs() == M.Submit(c, old(Abs()), action, payload, options)
      ensures taken == old(taken) && t == old(nextToken)
    {
      hide M.Pump, M.RememberSolicited, M.FailNow, M.Enqueue, Valid, IsTransactionRelated, Full, KindOf, M.Refuse;
      var transactional := IsTransactionRelated(version, action);
      var persist := if options.persist.Some? then options.persist.value else transactional;
      var keep := if options.queueWhenOffline.Some? then options.queueWhenOffline.value
                  else transactional || c.queueAllMessages;
      var call := QueuedCall(action, payload, kind, 0, transactional);
      SubmitSplit(c, Abs(), action, payload, options, call, persist, keep);
      hide SubmittedCall, M.Submit, M.Complain;
      if !connected && !keep {
        t := FailNow(call, options.triggered, keep, Failure.Disconnected);
      } else if |queue| >= c.maxQueued {
        t := FailNow(call, options.triggered, keep, QueueFull);
      } else {
        t := Accept(call, persist, options.triggered, keep);
      }
    }

    method Accept(call: QueuedCall, persist: bool, triggered: bool, keep: bool) returns (t: Token)
      requires Valid()
      modifies this
      ensures Valid() && taken == old(taken) && t == old(nextToken)
      ensures var s := old(Abs());
              Abs() == if persist && Full(s.store) then M.FailNow(Complain(s, StoreFailure), call, triggered, keep, QueueFull)
                       else
                         var s1 := M.Enqueue(s, call, persist, triggered, keep);
                         M.Pump(c, if c.role == Csms then M.RememberSolicited(s1, call.action, call.payload) else s1)
    {
      hide M.Pump, M.RememberSolicited, M.FailNow, M.Enqueue, Valid;
      if persist && Full(store) {
        Say(Violated(StoreFailure));
        t := FailNow(call, triggered, keep, QueueFull);
      } else {
        t := EnqueueAndPump(call, persist, triggered, keep);
      }
    }

    method EnqueueAndPump(call: QueuedCall, persist: bool, triggered: bool, keep: bool) returns (t: Token)
      requires Valid() && (persist ==> !Full(store))
      modifies this
      ensures Valid() && taken == old(taken) && t == old(nextToken)
      ensures var s1 := M.Enqueue(old(Abs()), call, persist, triggered, keep);
              Abs() == M.Pump(c, if c.role == Csms then M.RememberSolicited(s1, call.action, call.payload) else s1)
    {
      hide M.Pump, M.RememberSolicited, M.Enqueue, Valid;
      t := Enqueue(call, persist, triggered, keep);
      if c.role == Csms {
        RememberSolicited(call.action, call.payload);
      }
      Pump();
    }

    method Enqueue(call: QueuedCall, persist: bool, triggered: bool, keep: bool) returns (t: Token)
      requires Valid() && (persist ==> !Full(store))
      modifies `store, `queue, `nextToken, `log
      ensures Valid() && Abs() == M.Enqueue(old(Abs()), call, persist, triggered, keep) && t == old(nextToken)
    {
      hide VisibleAll;
      var stored := None;
      if persist {
        stored := Some(store.nextSeq);
        store := Push(store, call);
      }
      t := MintToken();
      queue := queue + [Waiting(t, call, stored, None, triggered, keep)];
      Mark(Issued(t, call, triggered, stored, keep));
    }

    method ObserveBootAnswer(payload: Payload, outgoing: bool)
      requires Valid()
      modifies this
      ensures Valid() && Abs() == M.ObserveBootAnswer(c, old(Abs()), payload, outgoing)
      ensures taken == old(taken)
    {
      hide M.Pump, M.ArmHeartbeat, Valid;
      if payload.boot.Some? && payload.boot.value.status.Some? && payload.boot.value.status.value != Idle {
        var answer := payload.boot.value;
        var state := answer.status.value;
        TakeVerdict(state, outgoing);
        if answer.time.Some? && !outgoing {
          Say(ClockSample(answer.time.value, now));
        }
        var interval := if answer.interval.Some? && answer.interval.value > 0 then Some(1000 * answer.interval.value)
                        else None;
        if state == Accepted {
          SetHeartbeatInterval(interval);
          if !outgoing {
            ArmHeartbeat();
            Pump();
          }
        } else if !outgoing {
          RetryBootIn(if interval.Some? then interval.value else c.bootRetryFallback);
        }
      }
    }

    method SetHeartbeatInterval(interval: Option<nat>)
      requires Valid()
      modifies `heartbeatInterval
      ensures Valid() && Abs() == old(Abs()).(heartbeatInterval := interval)
    {
      heartbeatInterval := interval;
    }

    method TakeVerdict(state: BootState, outgoing: bool)
      requires Valid()
      modifies `boot, `log, `outputs
      ensures Valid()
      ensures Abs() == M.Emit(old(Abs()).(boot := state), if outgoing then Noted(BootReport(state)) else BootVerdict(state))
    {
      hide VisibleAll;
      boot := state;
      Emit(if outgoing then Noted(BootReport(state)) else BootVerdict(state));
    }

    method RetryBootIn(wait: nat)
      requires Valid()
      modifies `bootRetryAt, `log, `outputs
      ensures Valid()
      ensures var at := SaturatingAdd(now, wait);
              Abs() == M.Say(old(Abs()).(bootRetryAt := Some(at)), SetTimer(BootRetry, at))
    {
      hide VisibleAll;
      var at := SaturatingAdd(now, wait);
      bootRetryAt := Some(at);
      Say(SetTimer(BootRetry, at));
    }

    /** `respond` and `respond_error`. */
    method RespondTo(at: Instant, id: MessageId, reply: Reply) returns (ok: bool)
      requires Valid()
      modifies this
      ensures Valid() && Abs() == M.RespondTo(c, old(Abs()), at, id, reply) && ok == (id in old(peers))
      ensures taken == old(taken)
    {
      Advance(at);
      if id !in peers {
        return false;
      }
      peers := peers - {id};
      if c.role == Csms && reply.WithResult? {
        ObserveBootAnswer(reply.payload, true);
      }
      Transmit(Answered(id, reply));
      return true;
    }

    method RejectResultOf(at: Instant, id: MessageId) returns (ok: bool)
      requires Valid()
      modifies this
      ensures Valid() && Abs() == M.RejectResultOf(c, old(Abs()), at, id)
      ensures taken == old(taken) && ok == HasExtendedMessageTypes(old(version))
    {
      Advance(at);
      if !HasExtendedMessageTypes(version) {
        return false;
      }
      Transmit(Noted(RejectResult(id)));
      return true;
    }

    method CancelCall(t: Token) returns (found: bool)
      requires Valid()
      modifies this
      ensures Valid() && Abs() == M.CancelCall(old(Abs()), t)
      ensures taken == old(taken) && found == exists i :: 0 <= i < |old(queue)| && old(queue)[i].token == t
    {
      hide VisibleAll, Ack;
      var i := 0;
      while i < |queue| && queue[i].token != t
        invariant i <= |queue|
        invariant forall k :: 0 <= k < i ==> queue[k].token != t
        invariant IndexOfToken(queue, t, 0) == IndexOfToken(queue, t, i)
        modifies {}
      {
        i := i + 1;
      }
      if i == |queue| {
        return false;
      }
      Mark(CancelAsked(t));
      var entry := queue[i];
      queue := queue[..i] + queue[i + 1..];
      Settle(entry);
      Finish(entry, None, Err(Cancelled));
      return true;
    }

    method ShutdownBy(at: Instant, deadline: Instant)
      requires Valid()
      modifies this
      ensures Valid() && Abs() == M.ShutdownBy(old(Abs()), at, deadline)
      ensures taken == old(taken)
    {
      Advance(at);
      if draining.Some? {
        return;
      }
      draining := Some(deadline);
      Say(SetTimer(DrainDeadline, deadline));
      CheckDrain();
    }

    method SetCallTimeoutTo(timeout: nat)
      requires Valid()
      modifies `callTimeout, `log
      ensures Valid() && Abs() == M.Emit(old(Abs()).(callTimeout := timeout), TimeoutSet(timeout))
    {
      hide VisibleAll;
      callTimeout := timeout;
      Mark(TimeoutSet(timeout));
    }

    // -- inbound ----------------------------------------------------------------------------

    /** The connection came up or went away. */
    method Link(up: bool)
      requires Valid()
      modifies `connected, `peers, `log
      ensures Valid() && Abs() == M.Emit(old(Abs()).(connected := up, peers := {}), Linked(up))
    {
      hide VisibleAll;
      connected := up;
      peers := {};
      Mark(Linked(up));
    }

    method OnConnected(to: Version)
      requires Valid()
      modifies this
      ensures Valid() && Abs() == M.OnConnected(c, old(Abs()), to)
      ensures taken == old(taken)
    {
      hide M.Pump, M.ArmHeartbeat, VisibleAll;
      version := to;
      Link(true);
      ArmHeartbeat();
      Pump();
    }

    method RequeueOrFail(f: InFlight, why: Failure)
      requires Valid()
      modifies this
      ensures Valid() && Abs() == M.RequeueOrFail(c, old(Abs()), f, why)
      ensures taken == old(taken)
    {
      hide M.RecordAttempts, M.Settle, M.Finish, Valid;
      var made := f.entry.call.attempts;
      if f.entry.call.transactional && c.retry.MayRetry(made) {
        var notBefore := SaturatingAdd(now, c.retry.DelayAfter(made));
        RecordAttempts(f.entry);
        PutFirst(f.entry.(notBefore := Some(notBefore)));
        Say(SetTimer(TransactionRetry, notBefore));
      } else {
        Settle(f.entry);
        Finish(f.entry, Some(f.id), Err(if f.entry.call.transactional then RetriesExhausted else why));
      }
    }

    /** `set_attempts` on the store. */
    method RecordAttempts(entry: Waiting)
      requires Valid()
      modifies `log, `store
      ensures Valid() && Abs() == M.RecordAttempts(old(Abs()), entry)
    {
      hide VisibleAll;
      if entry.stored.Some? {
        store := SetAttempts(store, entry.stored.value, entry.call.attempts);
        Mark(Recorded(entry.token, entry.stored.value, entry.call.attempts));
      }
    }

    method PutFirst(entry: Waiting)
      requires Valid()
      modifies `queue
      ensures Valid() && Abs() == old(Abs()).(queue := [entry] + old(queue))
    {
      queue := [entry] + queue;
    }

    method OnDisconnected()
      requires Valid()
      modifies this
      ensures Valid() && Abs() == M.OnDisconnected(c, old(Abs()))
      ensures taken == old(taken)
    {
      hide M.RequeueOrFail, M.FailUnqueueable, Valid, M.CheckDrain, M.Take;
      LinkLost();
      if inflight.Some? {
        var f := Take(ByDisconnect);
        RequeueOrFail(f, Failure.Disconnected);
      }
      FailUnqueueable();
      CheckDrain();
    }

    method LinkLost()
      requires Valid()
      modifies `connected, `peers, `heartbeatAt, `log, `outputs
      ensures Valid()
      ensures Abs() == M.Say(M.Say(M.Emit(old(Abs()).(connected := false, peers := {}), Linked(false)),
                                   ClearTimer(CallTimeout)), ClearTimer(HeartbeatTimer)).(heartbeatAt := None)
    {
      hide VisibleAll;
      Link(false);
      Say(ClearTimer(CallTimeout));
      Say(ClearTimer(HeartbeatTimer));
      heartbeatAt := None;
    }

    /** Fails, in order, what must not survive the outage. */
    method FailUnqueueable()
      requires Valid()
      modifies `queue, `log, `outputs, `store
      ensures Valid() && Abs() == M.FailUnqueueable(old(Abs()), 0)
    {
      hide VisibleAll;
      var kept := Sift();
      queue := kept;
    }

    method Sift() returns (kept: seq<Waiting>)
      requires Valid()
      modifies `queue, `log, `outputs, `store
      ensures Valid() && M.FailUnqueueable(Abs().(queue := kept), |kept|) == M.FailUnqueueable(old(Abs()), 0)
    {
      hide Valid, M.FailUnqueueable;
      kept := [];
      assert kept + queue == queue;
      while queue != []
        invariant Valid()
        invariant M.FailUnqueueable(Abs().(queue := kept + queue), |kept|) == M.FailUnqueueable(old(Abs()), 0)
        modifies `queue, `log, `outputs, `store
        decreases |queue|
      {
        kept := KeepOrFail(kept);
      }
      assert kept + queue == kept;
    }

    /** Moves the front of the queue to the kept ones, or fails it. */
    method KeepOrFail(kept: seq<Waiting>) returns (r: seq<Waiting>)
      requires Valid() && queue != []
      modifies `queue, `log, `outputs, `store
      ensures Valid() && |queue| == |old(queue)| - 1
      ensures M.FailUnqueueable(Abs().(queue := r + queue), |r|)
              == M.FailUnqueueable(old(Abs()).(queue := kept + old(queue)), |kept|)
    {
      hide VisibleAll;
      ghost var s := Abs().(queue := kept + queue);
      var entry := queue[0];
      assert s.queue[|kept|] == entry;
      queue := queue[1..];
      r := kept;
      if entry.queueWhenOffline {
        r := kept + [entry];
        assert r + queue == s.queue;
      } else {
        assert RemoveAt(s.queue, |kept|) == kept + queue;
        Settle(entry);
        Finish(entry, None, Err(Failure.Disconnected));
        assert Abs().(queue := kept + queue) == Drop(s, |kept|, Failure.Disconnected);
      }
    }

    method OnTimeout()
      requires Valid()
      modifies this
      ensures Valid() && Abs() == M.OnTimeout(c, old(Abs()))
      ensures taken == old(taken)
    {
      hide M.Pump, CallDeadline, HeartbeatDeadline, BootDeadline, VisibleAll, M.CheckDrain;
      CallDue();
      HeartbeatDue();
      BootDue();
      if draining.Some? && now >= draining.value && !(inflight.None? && queue == []) {
        Emit(Closed(DrainTimedOut, now));
        draining := None;
      } else {
        Pump();
        CheckDrain();
      }
    }

    method CallDue()
      requires Valid()
      modifies this
      ensures Valid() && Abs() == CallDeadline(c, old(Abs()))
      ensures taken == old(taken)
    {
      hide M.RequeueOrFail, VisibleAll;
      if inflight.Some? && now >= inflight.value.deadline {
        var f := Take(ByTimeout);
        Say(ClearTimer(CallTimeout));
        RequeueOrFail(f, TimedOut);
      }
    }

    method BootDue()
      requires Valid()
      modifies `bootRetryAt, `boot, `log, `outputs
      ensures Valid() && Abs() == BootDeadline(c, old(Abs()))
    {
      hide VisibleAll;
      if bootRetryAt.Some? && now >= bootRetryAt.value {
        bootRetryAt := None;
        boot := Idle;
        Emit(BootExpired(now));
      }
    }

    /** The armed heartbeat is spent. */
    method TakeBeat()
      requires Valid()
      modifies `heartbeatAt, `log
      ensures Valid() && Abs() == M.Emit(old(Abs()).(heartbeatAt := None), BeatDue(now))
    {
      hide VisibleAll;
      heartbeatAt := None;
      Mark(BeatDue(now));
    }

    method HeartbeatDue()
      requires Valid()
      modifies this
      ensures Valid() && Abs() == HeartbeatDeadline(c, old(Abs()))
      ensures taken == old(taken)
    {
      if heartbeatAt.Some? && now >= heartbeatAt.value {
        TakeBeat();
        if connected && boot == Accepted {
          var _ := CallWith(now, Heartbeat, EMPTY_PAYLOAD, HEARTBEAT_OPTIONS);
        }
        ArmHeartbeat();
      }
    }

    method RefuseRequest(id: MessageId, kind: Kind, code: ErrorCode)
      requires Valid()
      modifies `log, `outputs, `heartbeatAt
      ensures Valid() && Abs() == M.RefuseRequest(c, old(Abs()), id, kind, code)
    {
      if kind == SEND {
        return;
      }
      Transmit(Refused(id, code));
    }

    method OnCall(id: MessageId, action: Action, payload: Payload, kind: Kind)
      requires Valid()
      modifies `log, `outputs, `heartbeatAt, `boot, `peers
      ensures Valid() && Abs() == M.OnCall(c, old(Abs()), id, action, payload, kind)
    {
      hide M.RefuseRequest, M.Surface, VisibleAll, Visible;
      var expected := KindOf(c.known, version, action);
      if expected.None? {
        RefuseRequest(id, kind, NotImplemented);
      } else if expected.value != kind {
        Say(Violated(Violation.WrongMessageKind(action, kind)));
        RefuseRequest(id, kind, ProtocolError);
      } else if !MaySend(OriginOf(c.known, version, action), Peer(c.role)) {
        Say(Violated(Violation.WrongDirection(action)));
        RefuseRequest(id, kind, NotSupported);
      } else if kind == CALL && id in peers {
        Say(Violated(DuplicateMessageId(id)));
        RefuseRequest(id, kind, RpcFrameworkError);
      } else if kind == CALL && peers != {} {
        OnConcurrentCall(id, action, payload, kind);
      } else {
        Surface(id, action, payload, kind);
      }
    }

    method OnConcurrentCall(id: MessageId, action: Action, payload: Payload, kind: Kind)
      requires Valid()
      modifies `log, `outputs, `heartbeatAt, `boot, `peers
      ensures Valid()
      ensures var s1 := M.Complain(old(Abs()), ConcurrentCall(id));
              var over := |old(peers)| >= c.maxPeerRequests;
              var s2 := if over then M.Complain(s1, TooManyPeerRequests(id)) else s1;
              Abs() == if over || c.rejectConcurrent then M.RefuseRequest(c, s2, id, kind, ProtocolError)
                       else M.Surface(c, s2, id, action, payload, kind)
    {
      hide M.RefuseRequest, M.Surface, VisibleAll, Visible;
      Say(Violated(ConcurrentCall(id)));
      var over := |peers| >= c.maxPeerRequests;
      if over {
        Say(Violated(TooManyPeerRequests(id)));
      }
      if over || c.rejectConcurrent {
        RefuseRequest(id, kind, ProtocolError);
      } else {
        Surface(id, action, payload, kind);
      }
    }

    method Surface(id: MessageId, action: Action, payload: Payload, kind: Kind)
      requires Valid()
      modifies `log, `outputs, `heartbeatAt, `boot, `peers
      ensures Valid() && Abs() == M.Surface(c, old(Abs()), id, action, payload, kind)
    {
      if c.role == Csms && c.enforceBootGate && (boot == BootState.Pending || boot == BootState.Rejected)
         && action != BootNotification && action !in solicited {
        RefuseRequest(id, kind, SecurityError);
      } else {
        HandOver(id, action, payload, kind);
      }
    }

    method HandOver(id: MessageId, action: Action, payload: Payload, kind: Kind)
      requires Valid() && !BlockedByBoot(c, Abs(), action)
      modifies `log, `outputs, `boot, `peers
      ensures Valid() && Abs() == M.Surface(c, old(Abs()), id, action, payload, kind)
    {
      hide VisibleAll;
      if c.role == Csms && action == BootNotification {
        boot := Idle;
      }
      if kind == CALL {
        peers := peers + {id};
      }
      Emit(Request(id, action, payload, kind));
    }

    method OnCallResult(id: MessageId, payload: Payload)
      requires Valid()
      modifies this
      ensures Valid() && Abs() == M.OnCallResult(c, old(Abs()), id, payload)
      ensures taken == old(taken)
    {
      hide M.Pump, M.ObserveBootAnswer, VisibleAll, M.CheckDrain;
      if inflight.None? || inflight.value.id != id {
        Say(Violated(UnexpectedResponse(id)));
        return;
      }
      var f := Take(ByAnswer(Some(payload)));
      Settle(f.entry);
      Say(ClearTimer(CallTimeout));
      if f.entry.call.action == BootNotification && c.role == ChargingStation {
        ObserveBootAnswer(payload, false);
      } else if f.entry.call.action == Heartbeat && payload.time.Some? {
        Say(ClockSample(payload.time.value, now));
      }
      Finish(f.entry, Some(id), Ok(Answer.CallResult(payload)));
      Pump();
      CheckDrain();
    }

    method OnCallError(id: MessageId)
      requires Valid()
      modifies this
      ensures Valid() && Abs() == M.OnCallError(c, old(Abs()), id)
      ensures taken == old(taken)
    {
      if inflight.None? || inflight.value.id != id {
        Say(Violated(UnexpectedResponse(id)));
        return;
      }
      var f := Take(ByAnswer(None));
      Settle(f.entry);
      Say(ClearTimer(CallTimeout));
      Finish(f.entry, Some(id), Err(RejectedByPeer));
      Pump();
      CheckDrain();
    }

    method OnReceived(frame: Frame)
      requires Valid()
      modifies this
      ensures Valid() && Abs() == M.OnReceived(c, old(Abs()), frame)
      ensures taken == old(taken)
    {
      hide M.OnCall, M.OnCallResult, M.OnCallError, M.ArmHeartbeat, M.Transmit, M.Say, Conforming, Valid;
      ArmHeartbeat();
      if frame.Unreadable? {
        Say(Violated(if frame.unknownType then UnknownMessageType else MalformedFrame));
        if frame.reply != Ignore {
          Transmit(Noted(ErrorFrame(frame.replyId, frame.reply == ReplyCallResultError)));
        }
        return;
      }
      if !Conforming(frame.id) {
        Say(Violated(NonConformingMessageId(frame.id)));
      }
      match frame
      case CallFrame(id, action, payload) => OnCall(id, action, payload, CALL);
      case SendFrame(id, action, payload) => OnCall(id, action, payload, SEND);
      case ResultFrame(id, payload) => OnCallResult(id, payload);
      case ErrorFrameOf(id) => OnCallError(id);
      case ResultErrorFrame(id) => Say(ResultRejected(id));
    }

    /** Any of the engine's entry points: what a run of the object does is a run of the model. */
    method Handle(cmd: Command)
      requires Valid()
      modifies this
      ensures Valid() && Abs() == Apply(c, old(Abs()), cmd)
      ensures taken == old(taken)
    {
      hide M.OnConnected, M.OnReceived, M.OnDisconnected, M.OnTimeout, M.CallWith, M.RespondTo, M.Advance, Valid;
      match cmd
      case Connect(at, to) => Advance(at); OnConnected(to);
      case Receive(at, frame) => Advance(at); OnReceived(frame);
      case Disconnect(at) => Advance(at); OnDisconnected();
      case Tick(at) => Advance(at); OnTimeout();
      case Call(at, action, payload, options) => var _ := CallWith(at, action, payload, options);
      case Respond(at, id, payload) => var _ := RespondTo(at, id, WithResult(payload));
      case RespondError(at, id) => var _ := RespondTo(at, id, WithError);
      case Reject(at, id) => var _ := RejectResultOf(at, id);
      case Cancel(t) => var _ := CancelCall(t);
      case Shutdown(at, deadline) => ShutdownBy(at, deadline);
      case SetCallTimeout(timeout) => SetCallTimeoutTo(timeout);
    }
  }
}
