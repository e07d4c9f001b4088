/** The sans-I/O engine as functions on its state (src/engine/mod.rs).

    One function per source function, with the same branches in the same order.  The `log`
    is the history of the run: see the monitor for its events. */
module EngineModel {
  import opened Basics
  import opened Messages
  import opened MessageIds
  import opened Queue
  import opened Monitor

  /** A call waiting to be transmitted. */
  datatype Waiting = Waiting(
    token: Token,
    call: QueuedCall,
    stored: Option<Seq>,
    notBefore: Option<Instant>,
    triggered: bool,
    queueWhenOffline: bool)

  /** The one outstanding call; its attempts include the transmission under way. */
  datatype InFlight = InFlight(id: MessageId, entry: Waiting, deadline: Instant)

  datatype State = State(
    queue: seq<Waiting>,
    inflight: Option<InFlight>,
    peers: set<MessageId>,
    connected: bool,
    version: Version,
    now: Instant,
    nextToken: Token,
    boot: BootState,
    heartbeatInterval: Option<nat>,
    solicited: set<Action>,
    draining: Option<Instant>,
    bootRetryAt: Option<Instant>,
    heartbeatAt: Option<Instant>,
    callTimeout: nat,
    minted: nat,
    store: Store,
    log: seq<Event>)

  datatype CallOptions = CallOptions(
    triggered: bool,
    persist: Option<bool>,
    queueWhenOffline: Option<bool>)

  datatype Refusal =
    | ShuttingDown
    | UnknownAction
    | NotOurs
    | SendNotSupported
    | NoSuchRequest
    | CallResultErrorNotSupported

  datatype FrameReply = Ignore | ReplyCallError | ReplyCallResultError

  datatype Frame =
    | CallFrame(id: MessageId, action: Action, payload: Payload)
    | SendFrame(id: MessageId, action: Action, payload: Payload)
    | ResultFrame(id: MessageId, payload: Payload)
    | ErrorFrameOf(id: MessageId)
    | ResultErrorFrame(id: MessageId)
    | Unreadable(unknownType: bool, reply: FrameReply, replyId: MessageId)

  datatype Command =
    | Connect(now: Instant, version: Version)
    | Receive(now: Instant, frame: Frame)
    | Disconnect(now: Instant)
    | Tick(now: Instant)
    | Call(now: Instant, action: Action, payload: Payload, options: CallOptions)
    | Respond(now: Instant, id: MessageId, payload: Payload)
    | RespondError(now: Instant, id: MessageId)
    | Reject(now: Instant, id: MessageId)
    | Cancel(token: Token)
    | Shutdown(now: Instant, deadline: Instant)
    | SetCallTimeout(timeout: nat)

  // -- helpers ------------------------------------------------------------------------------

  function Emit(s: State, e: Event): (r: State)
  {
    s.(log := s.log + [e])
  }

  function Say(s: State, n: Note): (r: State)
  {
    Emit(s, Noted(n))
  }

  function Complain(s: State, v: Violation): (r: State)
  {
    Say(s, Violated(v))
  }

  function Advance(s: State, now: Instant): (r: State)
  {
    if now > s.now then s.(now := now) else s
  }

  function ArmHeartbeat(c: Config, s: State): (r: State)
    ensures r.queue == s.queue && r.inflight == s.inflight && r.draining == s.draining && r.connected == s.connected
  {
    if !c.automaticHeartbeat || c.role != ChargingStation then s
    else if s.heartbeatInterval.None? || s.heartbeatInterval.value == 0 then s
    else
      var at := SaturatingAdd(s.now, s.heartbeatInterval.value);
      if s.heartbeatAt == Some(at) then s
      else Say(s.(heartbeatAt := Some(at)), SetTimer(HeartbeatTimer, at))
  }

  /** Hands a frame to the driver; traffic postpones the next `Heartbeat`. */
  function Transmit(c: Config, s: State, e: Event): (r: State)
    ensures r.queue == s.queue && r.inflight == s.inflight && r.draining == s.draining && r.connected == s.connected
  {
    ArmHeartbeat(c, Emit(s, e))
  }

  /** Deletes a finished message from the store. */
  function Settle(s: State, entry: Waiting): (r: State)
  {
    Emit(s.(store := if entry.stored.Some? then Ack(s.store, entry.stored.value) else s.store),
         Settled(entry.token, entry.stored))
  }

  function Finish(s: State, entry: Waiting, sentAs: Option<MessageId>,
                  result: Result<Answer, Failure>): (r: State)
  {
    Emit(s, Outcome(entry.token, sentAs, entry.call.action, result))
  }

  /** Takes the outstanding call out of its slot. */
  function Take(s: State, cause: Cause): (r: State)
    requires s.inflight.Some?
  {
    var f := s.inflight.value;
    Emit(s.(inflight := None), Freed(f.entry.token, f.id, cause, s.now))
  }

  // -- pumping ------------------------------------------------------------------------------

  function OldestTransactional(queue: seq<Waiting>, i: nat): (r: Option<nat>)
    requires i <= |queue|
    ensures r.Some? ==> i <= r.value < |queue| && queue[r.value].call.transactional
    ensures forall k :: i <= k < (if r.Some? then r.value else |queue|) ==> !queue[k].call.transactional
    decreases |queue| - i
  {
    if i == |queue| then None
    else if queue[i].call.transactional then Some(i)
    else OldestTransactional(queue, i + 1)
  }

  predicate Eligible(c: Config, s: State, i: nat)
    requires i < |s.queue|
  {
    var entry := s.queue[i];
    && !(entry.notBefore.Some? && s.now < entry.notBefore.value)
    && (entry.call.transactional ==> OldestTransactional(s.queue, 0) == Some(i))
    && (!Gated(c) || s.boot == Accepted || entry.call.action == BootNotification || entry.triggered)
  }

  function FindEligible(c: Config, s: State, kind: Kind, i: nat): (r: Option<nat>)
    requires i <= |s.queue|
    ensures r.Some? ==> i <= r.value < |s.queue| && s.queue[r.value].call.kind == kind && Eligible(c, s, r.value)
    ensures forall k :: i <= k < (if r.Some? then r.value else |s.queue|) ==>
                        !(s.queue[k].call.kind == kind && Eligible(c, s, k))
    decreases |s.queue| - i
  {
    if i == |s.queue| then None
    else if s.queue[i].call.kind == kind && Eligible(c, s, i) then Some(i)
    else FindEligible(c, s, kind, i + 1)
  }

  /** The transmission event of a call, under a freshly minted id. */
  function WireOf(c: Config, s: State, entry: Waiting): (r: Event)
  {
    Wire(entry.token, IdText(c.prefix, s.minted % U64_LIMIT), s.minted, entry.call.action,
         entry.call.payload, entry.call.kind, entry.call.attempts + 1, s.now, SaturatingAdd(s.now, s.callTimeout))
  }

  /** Writes the queued `SEND` at `i` and completes it. */
  function SendOut(c: Config, s: State, i: nat): (r: State)
    requires i < |s.queue|
    ensures |r.queue| == |s.queue| - 1
  {
    var entry := s.queue[i];
    var wire := WireOf(c, s, entry);
    var s1 := Transmit(c, s.(queue := RemoveAt(s.queue, i), minted := s.minted + 1), wire);
    Finish(Settle(s1, entry), entry, Some(wire.id), Ok(Sent))
  }

  /** Writes the queued `CALL` at `i` and puts it in the slot. */
  function CallOut(c: Config, s: State, i: nat): (r: State)
    requires i < |s.queue|
  {
    var entry := s.queue[i];
    var wire := WireOf(c, s, entry);
    var s1 := Transmit(c, s.(queue := RemoveAt(s.queue, i), minted := s.minted + 1), wire);
    var deadline := SaturatingAdd(s.now, s.callTimeout);
    var s2 := Say(s1, SetTimer(CallTimeout, deadline));
    var sent := entry.(call := entry.call.(attempts := entry.call.attempts + 1), notBefore := None);
    s2.(inflight := Some(InFlight(wire.id, sent, deadline)))
  }

  function PumpSends(c: Config, s: State): (r: State)
    decreases |s.queue|
  {
    match FindEligible(c, s, SEND, 0)
    case None => s
    case Some(i) => PumpSends(c, SendOut(c, s, i))
  }

  function PumpCall(c: Config, s: State): (r: State)
  {
    if s.inflight.Some? then s
    else
      match FindEligible(c, s, CALL, 0)
      case None => s
      case Some(i) => CallOut(c, s, i)
  }

  function Pump(c: Config, s: State): (r: State)
  {
    if !s.connected then s else PumpCall(c, PumpSends(c, s))
  }

  predicate DrainComplete(s: State)
  {
    s.inflight.None? && s.queue == []
  }

  function CheckDrain(s: State): (r: State)
  {
    if s.draining.Some? && DrainComplete(s) then
      Emit(Say(s.(draining := None), ClearTimer(DrainDeadline)), Closed(Drained, s.now))
    else s
  }

  // -- application interface ----------------------------------------------------------------

  function RememberSolicited(s: State, action: Action, payload: Payload): (r: State)
  {
    var triggers := if (action == TriggerMessage || action == ExtendedTriggerMessage) && payload.requested.Some? then
                      {payload.requested.value}
                      + (if payload.requested.value == SignChargePointCertificate then {SignCertificate} else {})
                    else {};
    s.(solicited := s.solicited + triggers + SolicitedBy(action))
  }

  /** A token for a call that fails on the spot. */
  function FailNow(s: State, call: QueuedCall, triggered: bool, keep: bool, why: Failure): (r: State)
  {
    var s1 := Emit(s.(nextToken := s.nextToken + 1), Issued(s.nextToken, call, triggered, None, keep));
    Emit(s1, Outcome(s.nextToken, None, call.action, Err(why)))
  }

  function Enqueue(s: State, call: QueuedCall, persist: bool, triggered: bool, queueWhenOffline: bool): (r: State)
    requires persist ==> !Full(s.store)
  {
    var stored := if persist then Some(s.store.nextSeq) else None;
    var s1 := s.(store := if persist then Push(s.store, call) else s.store,
                 nextToken := s.nextToken + 1,
                 queue := s.queue + [Waiting(s.nextToken, call, stored, None, triggered, queueWhenOffline)]);
    Emit(s1, Issued(s.nextToken, call, triggered, stored, queueWhenOffline))
  }

  /** What `call_with` refuses outright. */
  function Refuse(c: Config, s: State, action: Action): (r: Option<Refusal>)
  {
    if s.draining.Some? then Some(ShuttingDown)
    else
      match KindOf(c.known, s.version, action)
      case None => Some(UnknownAction)
      case Some(kind) =>
        if !MaySend(OriginOf(c.known, s.version, action), c.role) then Some(NotOurs)
        else if kind == SEND && !HasExtendedMessageTypes(s.version) then Some(SendNotSupported)
        else None
  }

  function SubmittedCall(c: Config, s: State, action: Action, payload: Payload): (r: QueuedCall)
    requires Refuse(c, s, action) == None
  {
    QueuedCall(action, payload, KindOf(c.known, s.version, action).value, 0,
               IsTransactionRelated(s.version, action))
  }

  function Submit(c: Config, s: State, action: Action, payload: Payload, options: CallOptions): (r: State)
    requires Refuse(c, s, action) == None
  {
    var call := SubmittedCall(c, s, action, payload);
    var persist := if options.persist.Some? then options.persist.value else call.transactional;
    var keep := if options.queueWhenOffline.Some? then options.queueWhenOffline.value
                else call.transactional || c.queueAllMessages;
    if !s.connected && !keep then FailNow(s, call, options.triggered, keep, Failure.Disconnected)
    else if |s.queue| >= c.maxQueued then FailNow(s, call, options.triggered, keep, QueueFull)
    else if persist && Full(s.store) then
      FailNow(Complain(s, StoreFailure), call, options.triggered, keep, QueueFull)
    else
      var s1 := Enqueue(s, call, persist, options.triggered, keep);
      Pump(c, if c.role == Csms then RememberSolicited(s1, action, payload) else s1)
  }

  function CallWith(c: Config, s: State, now: Instant, action: Action, payload: Payload,
                    options: CallOptions): (r: State)
  {
    var s1 := Advance(s, now);
    if Refuse(c, s1, action).Some? then s1 else Submit(c, s1, action, payload, options)
  }

  /** Reads a boot answer; `outgoing` on the CSMS side, where the verdict is its own. */
  function ObserveBootAnswer(c: Config, s: State, payload: Payload, outgoing: bool): (r: State)
  {
    if payload.boot.None? || payload.boot.value.status.None? then s
    else
      var answer := payload.boot.value;
      var state := answer.status.value;
      if state == Idle then s
      else
      var s1 := Emit(s.(boot := state), if outgoing then Noted(BootReport(state)) else BootVerdict(state));
      var s2 := if answer.time.Some? && !outgoing then Say(s1, ClockSample(answer.time.value, s1.now)) else s1;
      var interval := if answer.interval.Some? && answer.interval.value > 0 then Some(1000 * answer.interval.value)
                      else None;
      if state == Accepted then
        var s3 := s2.(heartbeatInterval := interval);
        if outgoing then s3 else Pump(c, ArmHeartbeat(c, s3))
      else if outgoing then s2
      else
        var at := SaturatingAdd(s2.now, if interval.Some? then interval.value else c.bootRetryFallback);
        Say(s2.(bootRetryAt := Some(at)), SetTimer(BootRetry, at))
  }

  function RespondTo(c: Config, s: State, now: Instant, id: MessageId, reply: Reply): (r: State)
  {
    var s1 := Advance(s, now);
    if id !in s1.peers then s1
    else
      var s2 := s1.(peers := s1.peers - {id});
      var s3 := if c.role == Csms && reply.WithResult? then ObserveBootAnswer(c, s2, reply.payload, true) else s2;
      Transmit(c, s3, Answered(id, reply))
  }

  function RejectResultOf(c: Config, s: State, now: Instant, id: MessageId): (r: State)
  {
    var s1 := Advance(s, now);
    if !HasExtendedMessageTypes(s1.version) then s1 else Transmit(c, s1, Noted(RejectResult(id)))
  }

  function IndexOfToken(queue: seq<Waiting>, t: Token, i: nat): (r: Option<nat>)
    requires i <= |queue|
    ensures r.Some? ==> i <= r.value < |queue| && queue[r.value].token == t
    ensures forall k :: i <= k < (if r.Some? then r.value else |queue|) ==> queue[k].token != t
    decreases |queue| - i
  {
    if i == |queue| then None
    else if queue[i].token == t then Some(i)
    else IndexOfToken(queue, t, i + 1)
  }

  /** Removes the queued call at `i` with a failure. */
  function Drop(s: State, i: nat, why: Failure): (r: State)
    requires i < |s.queue|
    ensures |r.queue| == |s.queue| - 1
  {
    var entry := s.queue[i];
    Finish(Settle(s.(queue := RemoveAt(s.queue, i)), entry), entry, None, Err(why))
  }

  function CancelCall(s: State, t: Token): (r: State)
  {
    match IndexOfToken(s.queue, t, 0)
    case None => s
    case Some(i) => Drop(Emit(s, CancelAsked(t)), i, Cancelled)
  }

  function ShutdownBy(s: State, now: Instant, deadline: Instant): (r: State)
  {
    var s1 := Advance(s, now);
    if s1.draining.Some? then s1
    else CheckDrain(Say(s1.(draining := Some(deadline)), SetTimer(DrainDeadline, deadline)))
  }

  // -- inbound ------------------------------------------------------------------------------

  function OnConnected(c: Config, s: State, version: Version): (r: State)
  {
    Pump(c, ArmHeartbeat(c, Emit(s.(version := version, connected := true, peers := {}), Linked(true))))
  }

  /** The attempts of a stored message, on record. */
  function RecordAttempts(s: State, entry: Waiting): (r: State)
    ensures r.queue == s.queue && r.inflight == s.inflight
  {
    if entry.stored.None? then s
    else
      Emit(s.(store := SetAttempts(s.store, entry.stored.value, entry.call.attempts)),
           Recorded(entry.token, entry.stored.value, entry.call.attempts))
  }

  /** A call that lost its answer: requeued at the front, or over. */
  function RequeueOrFail(c: Config, s: State, f: InFlight, why: Failure): (r: State)
  {
    var made := f.entry.call.attempts;
    if f.entry.call.transactional && c.retry.MayRetry(made) then
      var notBefore := SaturatingAdd(s.now, c.retry.DelayAfter(made));
      var s1 := RecordAttempts(s, f.entry);
      Say(s1.(queue := [f.entry.(notBefore := Some(notBefore))] + s1.queue), SetTimer(TransactionRetry, notBefore))
    else
      Finish(Settle(s, f.entry), f.entry, Some(f.id),
             Err(if f.entry.call.transactional then RetriesExhausted else why))
  }

  /** Fails, in order, what must not survive an outage. */
  function FailUnqueueable(s: State, i: nat): (r: State)
    requires i <= |s.queue|
    decreases |s.queue| - i
  {
    if i == |s.queue| then s
    else if s.queue[i].queueWhenOffline then FailUnqueueable(s, i + 1)
    else FailUnqueueable(Drop(s, i, Failure.Disconnected), i)
  }

  function OnDisconnected(c: Config, s: State): (r: State)
  {
    var s1 := Say(Say(Emit(s.(connected := false, peers := {}), Linked(false)),
                      ClearTimer(CallTimeout)), ClearTimer(HeartbeatTimer)).(heartbeatAt := None);
    var s2 := if s1.inflight.Some? then
                RequeueOrFail(c, Take(s1, ByDisconnect), s1.inflight.value, Failure.Disconnected)
              else s1;
    CheckDrain(FailUnqueueable(s2, 0))
  }

  function CallDeadline(c: Config, s: State): (r: State)
  {
    if s.inflight.Some? && s.now >= s.inflight.value.deadline then
      RequeueOrFail(c, Say(Take(s, ByTimeout), ClearTimer(CallTimeout)), s.inflight.value, TimedOut)
    else s
  }

  const HEARTBEAT_OPTIONS := CallOptions(false, None, Some(false))

  function HeartbeatDeadline(c: Config, s: State): (r: State)
  {
    if s.heartbeatAt.Some? && s.now >= s.heartbeatAt.value then
      var s1 := Emit(s.(heartbeatAt := None), BeatDue(s.now));
      var s2 := if s1.connected && s1.boot == Accepted then
                  CallWith(c, s1, s1.now, Heartbeat, EMPTY_PAYLOAD, HEARTBEAT_OPTIONS)
                else s1;
      ArmHeartbeat(c, s2)
    else s
  }

  function BootDeadline(c: Config, s: State): (r: State)
  {
    if s.bootRetryAt.Some? && s.now >= s.bootRetryAt.value then
      Emit(s.(bootRetryAt := None, boot := Idle), BootExpired(s.now))
    else s
  }

  function OnTimeout(c: Config, s: State): (r: State)
  {
    var s1 := BootDeadline(c, HeartbeatDeadline(c, CallDeadline(c, s)));
    if s1.draining.Some? && s1.now >= s1.draining.value && !DrainComplete(s1) then
      Emit(s1, Closed(DrainTimedOut, s1.now)).(draining := None)
    else CheckDrain(Pump(c, s1))
  }

  /** Refuses a peer's request; a `SEND` is never answered. */
  function RefuseRequest(c: Config, s: State, id: MessageId, kind: Kind, code: ErrorCode): (r: State)
    ensures r.queue == s.queue && r.inflight == s.inflight && r.draining == s.draining && r.connected == s.connected
  {
    if kind == SEND then s else Transmit(c, s, Refused(id, code))
  }

  predicate BlockedByBoot(c: Config, s: State, action: Action)
  {
    && c.role == Csms && c.enforceBootGate
    && (s.boot == BootState.Pending || s.boot == BootState.Rejected)
    && action != BootNotification && action !in s.solicited
  }

  function Surface(c: Config, s: State, id: MessageId, action: Action, payload: Payload, kind: Kind): (r: State)
    ensures r.queue == s.queue && r.inflight == s.inflight && r.draining == s.draining && r.connected == s.connected
  {
    if BlockedByBoot(c, s, action) then RefuseRequest(c, s, id, kind, SecurityError)
    else
      var s1 := if c.role == Csms && action == BootNotification then s.(boot := Idle) else s;
      var s2 := if kind == CALL then s1.(peers := s1.peers + {id}) else s1;
      Emit(s2, Request(id, action, payload, kind))
  }

  function OnCall(c: Config, s: State, id: MessageId, action: Action, payload: Payload, kind: Kind): (r: State)
    ensures r.queue == s.queue && r.inflight == s.inflight && r.draining == s.draining && r.connected == s.connected
  {
    var expected := KindOf(c.known, s.version, action);
    if expected.None? then RefuseRequest(c, s, id, kind, NotImplemented)
    else if expected.value != kind then
      RefuseRequest(c, Complain(s, Violation.WrongMessageKind(action, kind)), id, kind, ProtocolError)
    else if !MaySend(OriginOf(c.known, s.version, action), Peer(c.role)) then
      RefuseRequest(c, Complain(s, Violation.WrongDirection(action)), id, kind, NotSupported)
    else if kind == CALL && id in s.peers then
      RefuseRequest(c, Complain(s, DuplicateMessageId(id)), id, kind, RpcFrameworkError)
    else if kind == CALL && s.peers != {} then
      var s1 := Complain(s, ConcurrentCall(id));
      var over := |s.peers| >= c.maxPeerRequests;
      var s2 := if over then Complain(s1, TooManyPeerRequests(id)) else s1;
      if over || c.rejectConcurrent then RefuseRequest(c, s2, id, kind, ProtocolError)
      else Surface(c, s2, id, action, payload, kind)
    else Surface(c, s, id, action, payload, kind)
  }

  predicate Answers(s: State, id: MessageId)
  {
    s.inflight.Some? && s.inflight.value.id == id
  }

  function OnCallResult(c: Config, s: State, id: MessageId, payload: Payload): (r: State)
  {
    if !Answers(s, id) then Complain(s, UnexpectedResponse(id))
    else
      var f := s.inflight.value;
      var s1 := Say(Settle(Take(s, ByAnswer(Some(payload))), f.entry), ClearTimer(CallTimeout));
      var s2 := if f.entry.call.action == BootNotification && c.role == ChargingStation then
                  ObserveBootAnswer(c, s1, payload, false)
                else if f.entry.call.action == Heartbeat && payload.time.Some? then
                  Say(s1, ClockSample(payload.time.value, s1.now))
                else s1;
      CheckDrain(Pump(c, Finish(s2, f.entry, Some(id), Ok(Answer.CallResult(payload)))))
  }

  function OnCallError(c: Config, s: State, id: MessageId): (r: State)
  {
    if !Answers(s, id) then Complain(s, UnexpectedResponse(id))
    else
      var f := s.inflight.value;
      var s1 := Say(Settle(Take(s, ByAnswer(None)), f.entry), ClearTimer(CallTimeout));
      CheckDrain(Pump(c, Finish(s1, f.entry, Some(id), Err(RejectedByPeer))))
  }

  predicate Conforming(id: MessageId)
  {
    0 < |id| <= MESSAGE_ID_MAX_LEN
  }

  function OnFrame(c: Config, s: State, frame: Frame): (r: State)
    requires !frame.Unreadable?
  {
    var s1 := if Conforming(frame.id) then s else Complain(s, NonConformingMessageId(frame.id));
    match frame
    case CallFrame(id, action, payload) => OnCall(c, s1, id, action, payload, CALL)
    case SendFrame(id, action, payload) => OnCall(c, s1, id, action, payload, SEND)
    case ResultFrame(id, payload) => OnCallResult(c, s1, id, payload)
    case ErrorFrameOf(id) => OnCallError(c, s1, id)
    case ResultErrorFrame(id) => Say(s1, ResultRejected(id))
  }

  function OnReceived(c: Config, s: State, frame: Frame): (r: State)
  {
    var s1 := ArmHeartbeat(c, s);
    match frame
    case Unreadable(unknown, reply, id) =>
      var s2 := Complain(s1, if unknown then UnknownMessageType else MalformedFrame);
      if reply == Ignore then s2
      else Transmit(c, s2, Noted(ErrorFrame(id, reply == ReplyCallResultError)))
    case _ => OnFrame(c, s1, frame)
  }

  // -- runs ---------------------------------------------------------------------------------

  /** The engine before it reads its store. */
  function Blank(c: Config, version: Version, store: Store): (r: State)
  {
    State([], None, {}, false, version, 0, 0, Idle, None, {}, None, None, None, c.callTimeout, 0, store, [])
  }

  /** One stored message back in the queue. */
  function Restore(s: State, e: Entry): (r: State)
  {
    Emit(s.(nextToken := s.nextToken + 1,
            queue := s.queue + [Waiting(s.nextToken, e.call, Some(e.seqNo), None, false, true)]),
         Issued(s.nextToken, e.call, false, Some(e.seqNo), true))
  }

  function RestoreAll(s: State, n: nat): (r: State)
    requires n <= |s.store.entries|
    ensures r.store == s.store && r.draining == s.draining
  {
    if n == 0 then s else Restore(RestoreAll(s, n - 1), s.store.entries[n - 1])
  }

  /** `Engine::with_store`: everything the store still holds is queued again. */
  function WithStore(c: Config, version: Version, store: Store): (r: State)
  {
    Emit(RestoreAll(Blank(c, version, store), |store.entries|), Opened(store.nextSeq, store.capacity))
  }

  function Apply(c: Config, s: State, cmd: Command): (r: State)
  {
    match cmd
    case Connect(now, version) => OnConnected(c, Advance(s, now), version)
    case Receive(now, frame) => OnReceived(c, Advance(s, now), frame)
    case Disconnect(now) => OnDisconnected(c, Advance(s, now))
    case Tick(now) => OnTimeout(c, Advance(s, now))
    case Call(now, action, payload, options) => CallWith(c, s, now, action, payload, options)
    case Respond(now, id, payload) => RespondTo(c, s, now, id, WithResult(payload))
    case RespondError(now, id) => RespondTo(c, s, now, id, WithError)
    case Reject(now, id) => RejectResultOf(c, s, now, id)
    case Cancel(token) => CancelCall(s, token)
    case Shutdown(now, deadline) => ShutdownBy(s, now, deadline)
    case SetCallTimeout(timeout) => Emit(s.(callTimeout := timeout), TimeoutSet(timeout))
  }

  function Run(c: Config, s: State, cmds: seq<Command>): (r: State)
  {
    if cmds == [] then s else Apply(c, Run(c, s, cmds[..|cmds| - 1]), cmds[|cmds| - 1])
  }
}
