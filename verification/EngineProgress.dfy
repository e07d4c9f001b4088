/** What one operation of the engine achieves: nothing due is left waiting, every request gets one
    reaction, the queue stays bounded, and how long an acceptance lasts. */
module EngineProgress {
  import opened Basics
  import opened Messages
  import opened MessageIds
  import opened Queue
  import opened Monitor
  import opened EngineModel
  import opened EngineInvariant
  import opened EngineSafety
  import opened EngineTheorems

  // -- nothing due is left waiting ----------------------------------------------------------

  /** A `SEND` is never transaction-related. */
  ghost predicate SendsPlain(queue: seq<Waiting>)
  {
    forall i :: 0 <= i < |queue| && queue[i].call.kind == SEND ==> !queue[i].call.transactional
  }

  ghost predicate NoSendDue(c: Config, s: State)
  {
    forall i :: 0 <= i < |s.queue| && s.queue[i].call.kind == SEND ==> !Eligible(c, s, i)
  }

  ghost predicate NoCallDue(c: Config, s: State)
  {
    forall i :: 0 <= i < |s.queue| && s.queue[i].call.kind == CALL ==> !Eligible(c, s, i)
  }

  lemma {:induction false} PumpSendsDrains(c: Config, s: State)
    requires SendsPlain(s.queue)
    ensures NoSendDue(c, PumpSends(c, s)) && SendsPlain(PumpSends(c, s).queue)
    ensures PumpSends(c, s).connected == s.connected
    decreases |s.queue|
  {
    var i := FindEligible(c, s, SEND, 0);
    if i.Some? {
      PumpSendsDrains(c, SendOut(c, s, i.value));
    }
  }

  /** After pumping a live connection no `SEND` that may go out is queued, and no `CALL` that may
      go out is queued while the slot is free. */
  lemma PumpLeavesNothingDue(c: Config, s: State)
    requires s.connected && SendsPlain(s.queue)
    ensures var r := Pump(c, s);
            NoSendDue(c, r) && (r.inflight.None? ==> NoCallDue(c, r))
  {
    PumpSendsDrains(c, s);
    var s1 := PumpSends(c, s);
    var i := FindEligible(c, s1, CALL, 0);
    if s1.inflight.None? && i.Some? {
      var r := CallOut(c, s1, i.value);
      forall k | 0 <= k < |r.queue| && r.queue[k].call.kind == SEND
        ensures !Eligible(c, r, k)
      {
        var k' := if k < i.value then k else k + 1;
        assert r.queue[k] == s1.queue[k'];
        assert !Eligible(c, s1, k');
      }
    }
  }

  // -- one reaction to every request --------------------------------------------------------

  function Count(log: seq<Event>, p: Event -> bool): (r: nat)
  {
    if log == [] then 0 else Count(log[..|log| - 1], p) + if p(log[|log| - 1]) then 1 else 0
  }

  lemma CountEmit(s: State, e: Event, p: Event -> bool)
    ensures Count(Emit(s, e).log, p) == Count(s.log, p) + if p(e) then 1 else 0
  {
    assert (s.log + [e])[..|s.log|] == s.log;
  }

  lemma CountArm(c: Config, s: State, p: Event -> bool)
    requires forall n: Note :: n.SetTimer? ==> !p(Noted(n))
    ensures Count(ArmHeartbeat(c, s).log, p) == Count(s.log, p)
  {
    var at := SaturatingAdd(s.now, if s.heartbeatInterval.Some? then s.heartbeatInterval.value else 0);
    CountEmit(s.(heartbeatAt := Some(at)), Noted(SetTimer(HeartbeatTimer, at)), p);
  }

  /** Events that say something to the peer about a request with this id, or hand it over. */
  predicate Reacts(e: Event, id: MessageId)
  {
    (e.Refused? && e.id == id) || (e.Request? && e.kind == CALL && e.id == id) || (e.Answered? && e.id == id)
  }

  /** Events that put a frame on the wire. */
  predicate Transmits(e: Event)
  {
    e.Wire? || e.Refused? || e.Answered? || (e.Noted? && (e.note.ErrorFrame? || e.note.RejectResult?))
  }

  lemma RefuseCounts(c: Config, s: State, id: MessageId, kind: Kind, code: ErrorCode, p: Event -> bool)
    requires forall n: Note :: n.SetTimer? ==> !p(Noted(n))
    ensures Count(RefuseRequest(c, s, id, kind, code).log, p) ==
            Count(s.log, p) + if kind == CALL && p(Refused(id, code)) then 1 else 0
  {
    CountEmit(s, Refused(id, code), p);
    CountArm(c, Emit(s, Refused(id, code)), p);
  }

  lemma SurfaceCounts(c: Config, s: State, id: MessageId, action: Action, payload: Payload, kind: Kind, p: Event -> bool)
    requires forall n: Note :: n.SetTimer? ==> !p(Noted(n))
    requires forall code :: p(Refused(id, code)) == (kind == CALL)
    requires p(Request(id, action, payload, kind)) == (kind == CALL)
    ensures Count(Surface(c, s, id, action, payload, kind).log, p) == Count(s.log, p) + if kind == CALL then 1 else 0
  {
    RefuseCounts(c, s, id, kind, SecurityError, p);
    CountEmit(s, Request(id, action, payload, kind), p);
  }

  lemma OnCallCounts(c: Config, s: State, id: MessageId, action: Action, payload: Payload, kind: Kind, p: Event -> bool)
    requires forall n: Note :: n.SetTimer? || n.Violated? ==> !p(Noted(n))
    requires forall code :: p(Refused(id, code)) == (kind == CALL)
    requires p(Request(id, action, payload, kind)) == (kind == CALL)
    ensures Count(OnCall(c, s, id, action, payload, kind).log, p) == Count(s.log, p) + if kind == CALL then 1 else 0
  {
    hide Surface, RefuseRequest, Complain, Count, KindOf, OriginOf, MaySend;
    var expected := KindOf(c.known, s.version, action);
    if expected.None? {
      RefuseCounts(c, s, id, kind, NotImplemented, p);
    } else if expected.value != kind {
      ComplainCounts(s, Violation.WrongMessageKind(action, kind), p);
      RefuseCounts(c, Complain(s, Violation.WrongMessageKind(action, kind)), id, kind, ProtocolError, p);
    } else if !MaySend(OriginOf(c.known, s.version, action), Peer(c.role)) {
      ComplainCounts(s, Violation.WrongDirection(action), p);
      RefuseCounts(c, Complain(s, Violation.WrongDirection(action)), id, kind, NotSupported, p);
    } else if kind == CALL && id in s.peers {
      ComplainCounts(s, DuplicateMessageId(id), p);
      RefuseCounts(c, Complain(s, DuplicateMessageId(id)), id, kind, RpcFrameworkError, p);
    } else if kind == CALL && s.peers != {} {
      var s1 := Complain(s, ConcurrentCall(id));
      ComplainCounts(s, ConcurrentCall(id), p);
      ComplainCounts(s1, TooManyPeerRequests(id), p);
      var s2 := if |s.peers| >= c.maxPeerRequests then Complain(s1, TooManyPeerRequests(id)) else s1;
      RefuseCounts(c, s2, id, kind, ProtocolError, p);
      SurfaceCounts(c, s2, id, action, payload, kind, p);
    } else {
      SurfaceCounts(c, s, id, action, payload, kind, p);
    }
  }

  lemma ComplainCounts(s: State, v: Violation, p: Event -> bool)
    requires !p(Noted(Violated(v)))
    ensures Count(Complain(s, v).log, p) == Count(s.log, p)
  {
    CountEmit(s, Noted(Violated(v)), p);
  }

  /** A parsed `CALL` is refused on the spot or surfaced, once, and never both. */
  lemma CallReactedToOnce(c: Config, s: State, id: MessageId, action: Action, payload: Payload)
    ensures var r := OnReceived(c, s, CallFrame(id, action, payload));
            Count(r.log, e => Reacts(e, id)) == Count(s.log, e => Reacts(e, id)) + 1
  {
    hide OnCall;
    var p := (e: Event) => Reacts(e, id);
    var s1 := ArmHeartbeat(c, s);
    CountArm(c, s, p);
    CountEmit(s1, Noted(Violated(NonConformingMessageId(id))), p);
    OnCallCounts(c, if Conforming(id) then s1 else Complain(s1, NonConformingMessageId(id)), id, action, payload, CALL, p);
  }

  /** A parsed `SEND` puts nothing on the wire, whatever is wrong with it. */
  lemma SendNeverAnswered(c: Config, s: State, id: MessageId, action: Action, payload: Payload)
    ensures var r := OnReceived(c, s, SendFrame(id, action, payload));
            Count(r.log, Transmits) == Count(s.log, Transmits) && r.peers == s.peers
  {
    hide OnCall;
    var s1 := ArmHeartbeat(c, s);
    CountArm(c, s, Transmits);
    CountEmit(s1, Noted(Violated(NonConformingMessageId(id))), Transmits);
    var s2 := if Conforming(id) then s1 else Complain(s1, NonConformingMessageId(id));
    SendCounts(c, s2, id, action, payload);
  }

  lemma SendCounts(c: Config, s: State, id: MessageId, action: Action, payload: Payload)
    ensures var r := OnCall(c, s, id, action, payload, SEND);
            Count(r.log, Transmits) == Count(s.log, Transmits) && r.peers == s.peers
  {
    hide Count, Emit, Surface;
    CountEmit(s, Noted(Violated(Violation.WrongMessageKind(action, SEND))), Transmits);
    CountEmit(s, Noted(Violated(Violation.WrongDirection(action))), Transmits);
    EmitKeepsPeers(s, Noted(Violated(Violation.WrongMessageKind(action, SEND))));
    EmitKeepsPeers(s, Noted(Violated(Violation.WrongDirection(action))));
    SendSurfaced(c, s, id, action, payload);
  }

  lemma EmitKeepsPeers(s: State, e: Event)
    ensures Emit(s, e).peers == s.peers
  {
  }

  lemma SendSurfaced(c: Config, s: State, id: MessageId, action: Action, payload: Payload)
    ensures var r := Surface(c, s, id, action, payload, SEND);
            Count(r.log, Transmits) == Count(s.log, Transmits) && r.peers == s.peers
  {
    hide Count;
    CountEmit(s, Request(id, action, payload, SEND), Transmits);
  }

  // -- the queue stays bounded --------------------------------------------------------------

  function Load(s: State): (r: nat)
  {
    |s.queue| + if s.inflight.Some? then 1 else 0
  }

  lemma {:induction false} PumpLoad(c: Config, s: State)
    ensures Load(Pump(c, s)) <= Load(s)
    ensures Load(PumpSends(c, s)) <= Load(s) && PumpSends(c, s).inflight == s.inflight
    decreases |s.queue|
  {
    var i := FindEligible(c, s, SEND, 0);
    if i.Some? {
      PumpLoad(c, SendOut(c, s, i.value));
    }
  }

  lemma {:induction false} FailUnqueueableLoad(s: State, i: nat)
    requires i <= |s.queue|
    ensures Load(FailUnqueueable(s, i)) <= Load(s)
    decreases |s.queue| - i
  {
    if i < |s.queue| {
      if s.queue[i].queueWhenOffline {
        FailUnqueueableLoad(s, i + 1);
      } else {
        FailUnqueueableLoad(Drop(s, i, Failure.Disconnected), i);
      }
    }
  }

  lemma CallWithLoad(c: Config, s: State, now: Instant, action: Action, payload: Payload, options: CallOptions)
    ensures Load(CallWith(c, s, now, action, payload, options)) <= Load(s)
            || Load(CallWith(c, s, now, action, payload, options)) <= c.maxQueued + 1
  {
    hide Pump;
    var s0 := Advance(s, now);
    if Refuse(c, s0, action) == None {
      SubmitLoad(c, s0, action, payload, options);
    }
  }

  lemma SubmitLoad(c: Config, s: State, action: Action, payload: Payload, options: CallOptions)
    requires Refuse(c, s, action) == None
    ensures var r := Submit(c, s, action, payload, options);
            Load(r) <= Load(s) || Load(r) <= c.maxQueued + 1
  {
    hide Pump;
    var call := SubmittedCall(c, s, action, payload);
    var persist := if options.persist.Some? then options.persist.value else call.transactional;
    var keep := if options.queueWhenOffline.Some? then options.queueWhenOffline.value
                else call.transactional || c.queueAllMessages;
    if (s.connected || keep) && |s.queue| < c.maxQueued && !(persist && Full(s.store)) {
      var s1 := Enqueue(s, call, persist, options.triggered, keep);
      PumpLoad(c, if c.role == Csms then RememberSolicited(s1, action, payload) else s1);
    }
  }

  lemma ObserveLoad(c: Config, s: State, payload: Payload, outgoing: bool)
    ensures Load(ObserveBootAnswer(c, s, payload, outgoing)) <= Load(s)
  {
    hide Pump;
    if payload.boot.Some? && payload.boot.value.status.Some? {
      var answer := payload.boot.value;
      var state := answer.status.value;
      var s1 := Emit(s.(boot := state), if outgoing then Noted(BootReport(state)) else BootVerdict(state));
      var s2 := if answer.time.Some? && !outgoing then Say(s1, ClockSample(answer.time.value, s1.now)) else s1;
      var interval := if answer.interval.Some? && answer.interval.value > 0 then Some(1000 * answer.interval.value)
                      else None;
      PumpLoad(c, ArmHeartbeat(c, s2.(heartbeatInterval := interval)));
    }
  }

  lemma AnswerLoad(c: Config, s: State, id: MessageId, payload: Payload)
    ensures Load(OnCallResult(c, s, id, payload)) <= Load(s)
    ensures Load(OnCallError(c, s, id)) <= Load(s)
  {
    hide Pump, ObserveBootAnswer;
    if Answers(s, id) {
      var f := s.inflight.value;
      var s1 := Say(Settle(Take(s, ByAnswer(Some(payload))), f.entry), ClearTimer(CallTimeout));
      var s0 := Say(Settle(Take(s, ByAnswer(None)), f.entry), ClearTimer(CallTimeout));
      var s2 := if f.entry.call.action == BootNotification && c.role == ChargingStation then
                  ObserveBootAnswer(c, s1, payload, false)
                else if f.entry.call.action == Heartbeat && payload.time.Some? then
                  Say(s1, ClockSample(payload.time.value, s1.now))
                else s1;
      ObserveLoad(c, s1, payload, false);
      PumpLoad(c, Finish(s2, f.entry, Some(id), Ok(Answer.CallResult(payload))));
      PumpLoad(c, Finish(s0, f.entry, Some(id), Err(RejectedByPeer)));
    }
  }

  lemma TimeoutLoad(c: Config, s: State)
    ensures Load(OnTimeout(c, s)) <= Load(s) || Load(OnTimeout(c, s)) <= c.maxQueued + 1
  {
    hide Pump, CallDeadline, HeartbeatDeadline, BootDeadline;
    var s1 := CallDeadline(c, s);
    CallDeadlineLoad(c, s);
    var s2 := HeartbeatDeadline(c, s1);
    HeartbeatLoad(c, s1);
    BootDeadlineLoad(c, s2);
    PumpLoad(c, BootDeadline(c, s2));
  }

  lemma CallDeadlineLoad(c: Config, s: State)
    ensures Load(CallDeadline(c, s)) <= Load(s)
  {
  }

  lemma HeartbeatLoad(c: Config, s: State)
    ensures Load(HeartbeatDeadline(c, s)) <= Load(s) || Load(HeartbeatDeadline(c, s)) <= c.maxQueued + 1
  {
    hide CallWith;
    CallWithLoad(c, Emit(s.(heartbeatAt := None), BeatDue(s.now)), s.now, Heartbeat, EMPTY_PAYLOAD, HEARTBEAT_OPTIONS);
  }

  lemma BootDeadlineLoad(c: Config, s: State)
    ensures Load(BootDeadline(c, s)) == Load(s)
  {
  }

  lemma DisconnectLoad(c: Config, s: State)
    ensures Load(OnDisconnected(c, s)) <= Load(s)
  {
    hide FailUnqueueable;
    var s1 := Say(Say(Emit(s.(connected := false, peers := {}), Linked(false)),
                      ClearTimer(CallTimeout)), ClearTimer(HeartbeatTimer)).(heartbeatAt := None);
    var s2 := if s1.inflight.Some? then
                RequeueOrFail(c, Take(s1, ByDisconnect), s1.inflight.value, Failure.Disconnected)
              else s1;
    FailUnqueueableLoad(s2, 0);
  }

  lemma ApplyLoad(c: Config, s: State, cmd: Command)
    ensures Load(Apply(c, s, cmd)) <= Load(s) || Load(Apply(c, s, cmd)) <= c.maxQueued + 1
  {
    hide Pump, OnTimeout, OnDisconnected, CallWith, OnReceived, OnConnected, RespondTo;
    match cmd
    case Connect(now, version) => ConnectLoad(c, Advance(s, now), version);
    case Receive(now, frame) => ReceiveLoad(c, Advance(s, now), frame);
    case Disconnect(now) => DisconnectLoad(c, Advance(s, now));
    case Tick(now) => TimeoutLoad(c, Advance(s, now));
    case Call(now, action, payload, options) => CallWithLoad(c, s, now, action, payload, options);
    case Respond(now, id, payload) => RespondLoad(c, s, now, id, WithResult(payload));
    case RespondError(now, id) => RespondLoad(c, s, now, id, WithError);
    case _ =>
  }

  lemma ConnectLoad(c: Config, s: State, version: Version)
    ensures Load(OnConnected(c, s, version)) <= Load(s)
  {
    hide Pump;
    PumpLoad(c, ArmHeartbeat(c, Emit(s.(version := version, connected := true, peers := {}), Linked(true))));
  }

  lemma ReceiveLoad(c: Config, s: State, frame: Frame)
    ensures Load(OnReceived(c, s, frame)) <= Load(s)
  {
    hide Pump, OnCall, OnCallResult, OnCallError;
    var s1 := ArmHeartbeat(c, s);
    if !frame.Unreadable? {
      var s2 := if Conforming(frame.id) then s1 else Complain(s1, NonConformingMessageId(frame.id));
      AnswerLoad(c, s2, frame.id, if frame.ResultFrame? then frame.payload else EMPTY_PAYLOAD);
    }
  }

  lemma RespondLoad(c: Config, s: State, now: Instant, id: MessageId, reply: Reply)
    ensures Load(RespondTo(c, s, now, id, reply)) <= Load(s)
  {
    hide ObserveBootAnswer;
    var s1 := Advance(s, now);
    ObserveLoad(c, s1.(peers := s1.peers - {id}), if reply.WithResult? then reply.payload else EMPTY_PAYLOAD, true);
  }

  /** Queue and slot together never hold more than `maxQueued` + 1 calls, or what was restored if
      that was more. */
  lemma {:induction false} LoadBounded(c: Config, version: Version, store: Store, cmds: seq<Command>)
    ensures var load := Load(Final(c, version, store, cmds));
            load <= c.maxQueued + 1 || load <= Load(WithStore(c, version, store))
  {
    if cmds != [] {
      var n := |cmds| - 1;
      LoadBounded(c, version, store, cmds[..n]);
      ApplyLoad(c, Final(c, version, store, cmds[..n]), cmds[n]);
    }
  }

  // -- how long an acceptance lasts ---------------------------------------------------------

  predicate SameBoot(s: State, r: State)
  {
    && r.boot == s.boot && r.bootRetryAt == s.bootRetryAt && r.now == s.now
    && r.version == s.version && r.connected == s.connected
  }

  lemma {:induction false} PumpBoot(c: Config, s: State)
    ensures SameBoot(s, Pump(c, s)) && SameBoot(s, PumpSends(c, s))
    decreases |s.queue|
  {
    var i := FindEligible(c, s, SEND, 0);
    if i.Some? {
      PumpBoot(c, SendOut(c, s, i.value));
    }
  }

  lemma HeartbeatBoot(c: Config, s: State)
    ensures SameBoot(s, HeartbeatDeadline(c, s))
  {
    hide Pump, FailNow, SubmittedCall;
    var s1 := Emit(s.(heartbeatAt := None), BeatDue(s.now));
    if Refuse(c, s1, Heartbeat) == None {
      var call := SubmittedCall(c, s1, Heartbeat, EMPTY_PAYLOAD);
      if !(call.transactional && Full(s1.store)) {
        var s2 := Enqueue(s1, call, call.transactional, false, false);
        PumpBoot(c, if c.role == Csms then RememberSolicited(s2, Heartbeat, EMPTY_PAYLOAD) else s2);
      }
      FailBoot(s1, call);
    }
  }

  lemma FailBoot(s: State, call: QueuedCall)
    ensures forall keep, why :: SameBoot(s, FailNow(s, call, false, keep, why))
    ensures forall keep, why :: SameBoot(s, FailNow(Complain(s, StoreFailure), call, false, keep, why))
  {
  }

  /** An accepted station stays accepted through a timeout exactly when no boot retry is pending
      that has come due. */
  lemma AcceptedSurvivesTimeoutIff(c: Config, s: State)
    requires s.boot == Accepted
    ensures OnTimeout(c, s).boot == Accepted <==> !(s.bootRetryAt.Some? && s.now >= s.bootRetryAt.value)
  {
    hide Pump, HeartbeatDeadline;
    var s1 := CallDeadline(c, s);
    assert SameBoot(s, s1);
    HeartbeatBoot(c, s1);
    PumpBoot(c, BootDeadline(c, HeartbeatDeadline(c, s1)));
  }

  /** What the answer to a station's `BootNotification` changes: the boot state is the one it names, if it
      names one that means anything; and where it says to wait, the retry is armed for the time it gives,
      or the fallback. */
  lemma BootAnswerObserved(c: Config, s: State, id: MessageId, payload: Payload)
    requires c.role == ChargingStation && Answers(s, id) && s.inflight.value.entry.call.action == BootNotification
    ensures var r := OnCallResult(c, s, id, payload);
            && r.boot == (if SaysBoot(Some(payload), Accepted) then Accepted
                          else if SaysBoot(Some(payload), BootState.Pending) then BootState.Pending
                          else if SaysBoot(Some(payload), BootState.Rejected) then BootState.Rejected
                          else s.boot)
            && (r.bootRetryAt != s.bootRetryAt ==>
                  SaysBoot(Some(payload), BootState.Pending) || SaysBoot(Some(payload), BootState.Rejected))
            && (SaysBoot(Some(payload), BootState.Pending) || SaysBoot(Some(payload), BootState.Rejected) ==>
                  var interval := IntervalOf(payload.boot.value);
                  r.bootRetryAt == Some(SaturatingAdd(s.now, if interval.Some? then interval.value else c.bootRetryFallback)))
  {
    hide Pump, ObserveBootAnswer, CheckDrain;
    var f := s.inflight.value;
    var s1 := Say(Settle(Take(s, ByAnswer(Some(payload))), f.entry), ClearTimer(CallTimeout));
    var s2 := ObserveBootAnswer(c, s1, payload, false);
    ObservedBoot(c, s1, payload);
    var s3 := Finish(s2, f.entry, Some(id), Ok(Answer.CallResult(payload)));
    PumpBoot(c, s3);
    DrainBoot(Pump(c, s3));
  }

  lemma DrainBoot(s: State)
    ensures SameBoot(s, CheckDrain(s))
  {
  }

  lemma ObservedBoot(c: Config, s: State, payload: Payload)
    ensures var r := ObserveBootAnswer(c, s, payload, false);
            && r.boot == (if SaysBoot(Some(payload), Accepted) then Accepted
                          else if SaysBoot(Some(payload), BootState.Pending) then BootState.Pending
                          else if SaysBoot(Some(payload), BootState.Rejected) then BootState.Rejected
                          else s.boot)
            && (SaysBoot(Some(payload), BootState.Pending) || SaysBoot(Some(payload), BootState.Rejected) ==>
                  var interval := IntervalOf(payload.boot.value);
                  r.bootRetryAt == Some(SaturatingAdd(s.now, if interval.Some? then interval.value else c.bootRetryFallback)))
            && (r.bootRetryAt != s.bootRetryAt ==>
                  SaysBoot(Some(payload), BootState.Pending) || SaysBoot(Some(payload), BootState.Rejected))
  {
    hide Pump, ArmHeartbeat;
    if payload.boot.Some? && payload.boot.value.status.Some? {
      var answer := payload.boot.value;
      var s1 := Emit(s.(boot := answer.status.value), BootVerdict(answer.status.value));
      var s2 := if answer.time.Some? then Say(s1, ClockSample(answer.time.value, s1.now)) else s1;
      var interval := if answer.interval.Some? && answer.interval.value > 0 then Some(1000 * answer.interval.value)
                      else None;
      var s3 := s2.(heartbeatInterval := interval);
      ArmBoot(c, s3);
      PumpBoot(c, ArmHeartbeat(c, s3));
    }
  }

  lemma ArmBoot(c: Config, s: State)
    ensures SameBoot(s, ArmHeartbeat(c, s))
  {
  }

  /** An acceptance does not clear the retry an earlier verdict armed, so it can be lost again. */
  lemma AcceptanceKeepsPendingRetry(c: Config, s: State, payload: Payload)
    requires payload.boot.Some? && payload.boot.value.status == Some(Accepted)
    ensures var r := ObserveBootAnswer(c, s, payload, false);
            r.boot == Accepted && r.bootRetryAt == s.bootRetryAt
  {
    hide Pump;
    var answer := payload.boot.value;
    var s1 := Emit(s.(boot := Accepted), BootVerdict(Accepted));
    var s2 := if answer.time.Some? then Say(s1, ClockSample(answer.time.value, s1.now)) else s1;
    var interval := if answer.interval.Some? && answer.interval.value > 0 then Some(1000 * answer.interval.value)
                    else None;
    PumpBoot(c, ArmHeartbeat(c, s2.(heartbeatInterval := interval)));
  }
}
