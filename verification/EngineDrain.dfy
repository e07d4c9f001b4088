/** Closing down and going offline (src/engine/mod.rs): when a drain ends, and what an outage leaves queued. */
module EngineDrain {
  import opened Basics
  import opened Messages
  import opened MessageIds
  import opened Queue
  import opened Monitor
  import opened EngineModel
  import opened EngineTheorems
  import opened EngineProgress
  import opened EngineTimers

  // -- a drain that is over is closed -------------------------------------------------------

  /** The engine drains, and has nothing left to drain. */
  predicate Lingers(s: State) { s.draining.Some? && DrainComplete(s) }

  lemma CheckedDrain(s: State)
    ensures !Lingers(CheckDrain(s))
  {
  }

  lemma {:induction false} PumpDraining(c: Config, s: State)
    ensures Pump(c, s).draining == s.draining && PumpSends(c, s).draining == s.draining
    decreases |s.queue|
  {
    var i := FindEligible(c, s, SEND, 0);
    if i.Some? {
      PumpDraining(c, SendOut(c, s, i.value));
    }
  }

  /** A drain that is over is closed in the very step that ends it, and at any tick or disconnection;
      except where a cancellation or a new connection ends it. */
  lemma DrainClosedAtOnce(c: Config, s: State, cmd: Command)
    requires !cmd.Cancel? && !cmd.Connect?
    ensures Lingers(Apply(c, s, cmd)) ==> Lingers(s) && !cmd.Tick? && !cmd.Disconnect?
  {
    hide OnTimeout, OnDisconnected, CallWith, OnReceived, RespondTo, CheckDrain;
    match cmd
    case Receive(now, frame) => ReceiveDrains(c, Advance(s, now), frame);
    case Disconnect(now) => DisconnectDrains(c, Advance(s, now));
    case Tick(now) => TickDrains(c, Advance(s, now));
    case Call(now, action, payload, options) => CallDrains(c, s, now, action, payload, options);
    case Respond(now, id, payload) => RespondDrains(c, s, now, id, WithResult(payload));
    case RespondError(now, id) => RespondDrains(c, s, now, id, WithError);
    case Shutdown(now, deadline) => CheckedDrain(Say(Advance(s, now).(draining := Some(deadline)), SetTimer(DrainDeadline, deadline)));
    case _ =>
  }

  lemma RespondDrains(c: Config, s: State, now: Instant, id: MessageId, reply: Reply)
    ensures Lingers(RespondTo(c, s, now, id, reply)) <==> Lingers(s)
  {
  }

  lemma DisconnectDrains(c: Config, s: State)
    ensures !Lingers(OnDisconnected(c, s))
  {
    hide FailUnqueueable, RequeueOrFail, CheckDrain, Take;
    var s1 := Say(Say(Emit(s.(connected := false, peers := {}), Linked(false)),
                      ClearTimer(CallTimeout)), ClearTimer(HeartbeatTimer)).(heartbeatAt := None);
    var s2 := if s1.inflight.Some? then
                RequeueOrFail(c, Take(s1, ByDisconnect), s1.inflight.value, Failure.Disconnected)
              else s1;
    CheckedDrain(FailUnqueueable(s2, 0));
  }

  lemma TickDrains(c: Config, s: State)
    ensures !Lingers(OnTimeout(c, s))
  {
    hide CallDeadline, HeartbeatDeadline, BootDeadline, Pump, CheckDrain;
    CheckedDrain(Pump(c, BootDeadline(c, HeartbeatDeadline(c, CallDeadline(c, s)))));
  }

  lemma CallDrains(c: Config, s: State, now: Instant, action: Action, payload: Payload, options: CallOptions)
    ensures Lingers(CallWith(c, s, now, action, payload, options)) ==> Lingers(s)
  {
    hide Pump;
    var s0 := Advance(s, now);
    if Refuse(c, s0, action).None? {
      SubmitDrains(c, s0, action, payload, options);
    }
  }

  lemma SubmitDrains(c: Config, s: State, action: Action, payload: Payload, options: CallOptions)
    requires Refuse(c, s, action).None?
    ensures Submit(c, s, action, payload, options).draining == s.draining
  {
    hide Pump;
    var call := SubmittedCall(c, s, action, payload);
    var persist := if options.persist.Some? then options.persist.value else call.transactional;
    var keep := if options.queueWhenOffline.Some? then options.queueWhenOffline.value
                else call.transactional || c.queueAllMessages;
    if (s.connected || keep) && |s.queue| < c.maxQueued && !(persist && Full(s.store)) {
      var s1 := Enqueue(s, call, persist, options.triggered, keep);
      PumpDraining(c, if c.role == Csms then RememberSolicited(s1, action, payload) else s1);
    }
  }

  lemma ReceiveDrains(c: Config, s: State, frame: Frame)
    ensures Lingers(OnReceived(c, s, frame)) ==> Lingers(s)
  {
    hide OnCall, OnCallResult, OnCallError;
    var s1 := ArmHeartbeat(c, s);
    if !frame.Unreadable? {
      var s2 := if Conforming(frame.id) then s1 else Complain(s1, NonConformingMessageId(frame.id));
      AnswerDrains(c, s2, frame.id, if frame.ResultFrame? then frame.payload else EMPTY_PAYLOAD);
    }
  }

  lemma AnswerDrains(c: Config, s: State, id: MessageId, payload: Payload)
    ensures Lingers(OnCallResult(c, s, id, payload)) ==> Lingers(s)
    ensures Lingers(OnCallError(c, s, id)) ==> Lingers(s)
  {
    hide Pump, ObserveBootAnswer, CheckDrain;
    forall t
      ensures !Lingers(CheckDrain(t))
    {
      CheckedDrain(t);
    }
  }

  /** Cancelling the last call of a drain ends it without closing it. */
  lemma CancelLeavesDrainOpen(c: Config, s: State, t: Token)
    ensures !Lingers(s) && Lingers(Apply(c, s, Cancel(t))) <==>
            s.draining.Some? && s.inflight.None? && |s.queue| == 1 && s.queue[0].token == t
  {
    var i := IndexOfToken(s.queue, t, 0);
  }

  /** A tick leaves the engine draining if and only if it was, something is left, and the deadline has not come:
      past the deadline the connection is closed whatever is left. */
  lemma TickDrainsIff(c: Config, s: State)
    ensures s.draining.None? || s.now >= s.draining.value ==> OnTimeout(c, s).draining.None?
    ensures OnTimeout(c, s).draining.Some? ==>
              OnTimeout(c, s).draining == s.draining && s.now < s.draining.value && !DrainComplete(OnTimeout(c, s))
    ensures OnTimeout(c, s).draining.None? && s.draining.Some? && s.now < s.draining.value ==> DrainComplete(OnTimeout(c, s))
  {
    hide CallDeadline, HeartbeatDeadline, BootDeadline, Pump;
    var s3 := BootDeadline(c, HeartbeatDeadline(c, CallDeadline(c, s)));
    DeadlinesDraining(c, s);
    PumpDraining(c, s3);
    if DrainComplete(s3) {
      NothingLeft(c, s3);
    }
  }

  lemma NothingLeft(c: Config, s: State)
    requires s.queue == []
    ensures Pump(c, s) == s
  {
    assert FindEligible(c, s, SEND, 0) == None && FindEligible(c, s, CALL, 0) == None;
  }

  lemma DeadlinesDraining(c: Config, s: State)
    ensures var r := BootDeadline(c, HeartbeatDeadline(c, CallDeadline(c, s)));
            r.draining == s.draining && r.now == s.now
  {
    hide HeartbeatDeadline;
    var s1 := CallDeadline(c, s);
    HeartbeatBoot(c, s1);
    HeartbeatDraining(c, s1);
  }

  lemma HeartbeatDraining(c: Config, s: State)
    ensures HeartbeatDeadline(c, s).draining == s.draining
  {
    hide Submit;
    var s1 := Emit(s.(heartbeatAt := None), BeatDue(s.now));
    if Refuse(c, s1, Heartbeat).None? {
      SubmitDrains(c, s1, Heartbeat, EMPTY_PAYLOAD, HEARTBEAT_OPTIONS);
    }
  }

  /** A shutdown drains until its deadline, unless there is nothing to drain; a second one changes nothing. */
  lemma ShutdownTells(s: State, now: Instant, deadline: Instant)
    ensures var r := ShutdownBy(s, now, deadline);
            && (s.draining.Some? ==> r == Advance(s, now))
            && (s.draining.None? ==>
                  r.draining == if s.queue == [] && s.inflight.None? then None else Some(deadline))
            && r.queue == s.queue && r.inflight == s.inflight
  {
  }

  // -- offline ------------------------------------------------------------------------------

  /** While there is no connection nothing is outstanding, and all that is queued was to be kept. */
  ghost predicate KeptOffline(s: State)
  {
    !s.connected ==> s.inflight.None? && AllKept(s.queue)
  }

  ghost predicate AllKept(queue: seq<Waiting>)
  {
    forall i :: 0 <= i < |queue| ==> queue[i].queueWhenOffline
  }

  lemma {:induction false} SweptKept(s: State, i: nat)
    requires i <= |s.queue| && forall k :: 0 <= k < i ==> s.queue[k].queueWhenOffline
    ensures AllKept(FailUnqueueable(s, i).queue) && FailUnqueueable(s, i).inflight == s.inflight
    ensures FailUnqueueable(s, i).connected == s.connected
    decreases |s.queue| - i
  {
    if i < |s.queue| {
      if s.queue[i].queueWhenOffline {
        SweptKept(s, i + 1);
      } else {
        SweptKept(Drop(s, i, Failure.Disconnected), i);
      }
    }
  }

  lemma DisconnectKept(c: Config, s: State)
    ensures KeptOffline(OnDisconnected(c, s)) && !OnDisconnected(c, s).connected
  {
    hide FailUnqueueable;
    var s1 := Say(Say(Emit(s.(connected := false, peers := {}), Linked(false)),
                      ClearTimer(CallTimeout)), ClearTimer(HeartbeatTimer)).(heartbeatAt := None);
    var s2 := if s1.inflight.Some? then
                RequeueOrFail(c, Take(s1, ByDisconnect), s1.inflight.value, Failure.Disconnected)
              else s1;
    SweptKept(s2, 0);
  }

  lemma SubmitKept(c: Config, s: State, action: Action, payload: Payload, options: CallOptions)
    requires KeptOffline(s) && Refuse(c, s, action).None?
    ensures KeptOffline(Submit(c, s, action, payload, options))
  {
    hide Refuse, SubmittedCall, Full, Pump, FailNow, Enqueue, RememberSolicited;
    var call := SubmittedCall(c, s, action, payload);
    var persist := if options.persist.Some? then options.persist.value else call.transactional;
    var keep := if options.queueWhenOffline.Some? then options.queueWhenOffline.value
                else call.transactional || c.queueAllMessages;
    if (s.connected || keep) && |s.queue| < c.maxQueued && !(persist && Full(s.store)) {
      var s1 := Enqueue(s, call, persist, options.triggered, keep);
      var s2 := if c.role == Csms then RememberSolicited(s1, action, payload) else s1;
      EnqueueKept(c, s, call, persist, options.triggered, keep, action, payload);
      PumpConnected(c, s2);
      if !s2.connected {
        OfflinePump(c, s2);
      }
    }
    FailKept(s, call, options.triggered, keep);
  }

  lemma EnqueueKept(c: Config, s: State, call: QueuedCall, persist: bool, triggered: bool, keep: bool, action: Action,
                    payload: Payload)
    requires KeptOffline(s) && (persist ==> !Full(s.store)) && (s.connected || keep)
    ensures var s1 := Enqueue(s, call, persist, triggered, keep);
            KeptOffline(s1) && KeptOffline(RememberSolicited(s1, action, payload))
  {
  }

  lemma FailKept(s: State, call: QueuedCall, triggered: bool, keep: bool)
    requires KeptOffline(s)
    ensures forall why :: KeptOffline(FailNow(s, call, triggered, keep, why))
    ensures forall why :: KeptOffline(FailNow(Complain(s, StoreFailure), call, triggered, keep, why))
  {
  }

  lemma {:induction false} PumpConnected(c: Config, s: State)
    ensures Pump(c, s).connected == s.connected && PumpSends(c, s).connected == s.connected
    decreases |s.queue|
  {
    var i := FindEligible(c, s, SEND, 0);
    if i.Some? {
      PumpConnected(c, SendOut(c, s, i.value));
    }
  }

  lemma TickKept(c: Config, s: State)
    requires KeptOffline(s)
    ensures KeptOffline(OnTimeout(c, s))
  {
    hide HeartbeatDeadline, Pump;
    var s1 := CallDeadline(c, s);
    CallDeadlineAside(c, s);
    BeatKept(c, s1);
    var s3 := BootDeadline(c, HeartbeatDeadline(c, s1));
    PumpConnected(c, s3);
    if !s3.connected {
      OfflinePump(c, s3);
    }
  }

  lemma OfflinePump(c: Config, s: State)
    requires !s.connected
    ensures Pump(c, s) == s
  {
  }

  lemma BeatKept(c: Config, s: State)
    requires KeptOffline(s)
    ensures KeptOffline(HeartbeatDeadline(c, s))
  {
    hide Submit;
    var s1 := Emit(s.(heartbeatAt := None), BeatDue(s.now));
    if Refuse(c, s1, Heartbeat).None? {
      SubmitKept(c, s1, Heartbeat, EMPTY_PAYLOAD, HEARTBEAT_OPTIONS);
    }
  }

  lemma ReceiveKept(c: Config, s: State, frame: Frame)
    requires KeptOffline(s)
    ensures KeptOffline(OnReceived(c, s, frame))
  {
    hide OnCall, OnCallResult, OnCallError;
    var s1 := ArmHeartbeat(c, s);
    if !frame.Unreadable? {
      var s2 := if Conforming(frame.id) then s1 else Complain(s1, NonConformingMessageId(frame.id));
      AnswerKept(c, s2, frame.id, if frame.ResultFrame? then frame.payload else EMPTY_PAYLOAD);
    }
  }

  lemma AnswerKept(c: Config, s: State, id: MessageId, payload: Payload)
    requires KeptOffline(s)
    ensures KeptOffline(OnCallResult(c, s, id, payload)) && KeptOffline(OnCallError(c, s, id))
  {
    hide Pump, ObserveBootAnswer, CheckDrain;
    if Answers(s, id) {
      var f := s.inflight.value;
      var s1 := Say(Settle(Take(s, ByAnswer(Some(payload))), f.entry), ClearTimer(CallTimeout));
      var s0 := Say(Settle(Take(s, ByAnswer(None)), f.entry), ClearTimer(CallTimeout));
      ObserveConnected(c, s1, payload);
      var s2 := if f.entry.call.action == BootNotification && c.role == ChargingStation then
                  ObserveBootAnswer(c, s1, payload, false)
                else if f.entry.call.action == Heartbeat && payload.time.Some? then
                  Say(s1, ClockSample(payload.time.value, s1.now))
                else s1;
      PumpConnected(c, Finish(s2, f.entry, Some(id), Ok(Answer.CallResult(payload))));
      PumpConnected(c, Finish(s0, f.entry, Some(id), Err(RejectedByPeer)));
      DrainConnected(Pump(c, Finish(s2, f.entry, Some(id), Ok(Answer.CallResult(payload)))));
      DrainConnected(Pump(c, Finish(s0, f.entry, Some(id), Err(RejectedByPeer))));
    }
  }

  lemma DrainConnected(s: State)
    ensures CheckDrain(s).connected == s.connected
  {
  }

  lemma ObserveConnected(c: Config, s: State, payload: Payload)
    ensures ObserveBootAnswer(c, s, payload, false).connected == s.connected
  {
    hide Pump;
    if payload.boot.Some? && payload.boot.value.status.Some? {
      var answer := payload.boot.value;
      var s1 := Emit(s.(boot := answer.status.value), BootVerdict(answer.status.value));
      var s2 := if answer.time.Some? then Say(s1, ClockSample(answer.time.value, s1.now)) else s1;
      var interval := if answer.interval.Some? && answer.interval.value > 0 then Some(1000 * answer.interval.value)
                      else None;
      PumpConnected(c, ArmHeartbeat(c, s2.(heartbeatInterval := interval)));
    }
  }

  lemma ConnectTells(c: Config, s: State, version: Version)
    ensures var r := OnConnected(c, s, version); r.connected && r.version == version && r.peers == {}
  {
    hide Pump;
    var s1 := ArmHeartbeat(c, Emit(s.(version := version, connected := true, peers := {}), Linked(true)));
    PumpBoot(c, s1);
    PumpPeers(c, s1);
  }

  lemma {:induction false} PumpPeers(c: Config, s: State)
    ensures Pump(c, s).peers == s.peers && PumpSends(c, s).peers == s.peers
    decreases |s.queue|
  {
    var i := FindEligible(c, s, SEND, 0);
    if i.Some? {
      PumpPeers(c, SendOut(c, s, i.value));
    }
  }

  lemma CancelKept(s: State, t: Token)
    requires KeptOffline(s)
    ensures KeptOffline(CancelCall(s, t))
  {
  }

  lemma RespondKept(c: Config, s: State, now: Instant, id: MessageId, reply: Reply)
    requires KeptOffline(s)
    ensures KeptOffline(RespondTo(c, s, now, id, reply))
  {
  }

  lemma ApplyKept(c: Config, s: State, cmd: Command)
    requires KeptOffline(s)
    ensures KeptOffline(Apply(c, s, cmd))
  {
    hide OnTimeout, OnDisconnected, Submit, OnReceived, OnConnected, RespondTo, CancelCall;
    match cmd
    case Connect(now, version) => ConnectTells(c, Advance(s, now), version);
    case Receive(now, frame) => ReceiveKept(c, Advance(s, now), frame);
    case Disconnect(now) => DisconnectKept(c, Advance(s, now));
    case Tick(now) => TickKept(c, Advance(s, now));
    case Call(now, action, payload, options) =>
      if Refuse(c, Advance(s, now), action).None? {
        SubmitKept(c, Advance(s, now), action, payload, options);
      }
    case Respond(now, id, payload) => RespondKept(c, s, now, id, WithResult(payload));
    case RespondError(now, id) => RespondKept(c, s, now, id, WithError);
    case Cancel(t) => CancelKept(s, t);
    case _ =>
  }

  /** In every run, while the connection is down nothing is outstanding and every queued call is one that was to
      wait out an outage: what was not has its outcome. */
  lemma {:induction false} OfflineQueueKept(c: Config, version: Version, store: Store, cmds: seq<Command>)
    ensures KeptOffline(Final(c, version, store, cmds))
  {
    hide KeptOffline, Apply, WithStore;
    if cmds == [] {
      RestoredKept(c, version, store);
    } else {
      OfflineQueueKept(c, version, store, cmds[..|cmds| - 1]);
      ApplyKept(c, Final(c, version, store, cmds[..|cmds| - 1]), cmds[|cmds| - 1]);
    }
  }

  lemma RestoredKept(c: Config, version: Version, store: Store)
    ensures KeptOffline(WithStore(c, version, store))
  {
    RestoreAllKept(c, version, store, |store.entries|);
  }

  lemma {:induction false} RestoreAllKept(c: Config, version: Version, store: Store, n: nat)
    requires n <= |store.entries|
    ensures var s := RestoreAll(Blank(c, version, store), n);
            AllKept(s.queue) && s.inflight.None? && s.store == store
  {
    if n > 0 {
      RestoreAllKept(c, version, store, n - 1);
    }
  }
}
