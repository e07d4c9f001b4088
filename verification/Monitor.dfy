/** The protocol as a monitor.

    The run of an engine leaves a log: everything it handed to the driver, interleaved with marks for
    the moments the rules talk about (a call accepted, the call slot freed, a message settled).
    The monitor reads such a log one event at a time, keeps just enough to judge the next event,
    and says whether the protocol allows it.  It knows nothing of queues, indices or timers, so
    it is an independent statement of what src/engine/mod.rs promises. */
module Monitor {
  import opened Basics
  import opened Messages
  import opened MessageIds
  import opened Queue

  datatype Config = Config(
    role: Role,
    known: Catalogue,
    prefix: string,
    callTimeout: nat,
    rejectConcurrent: bool,
    automaticHeartbeat: bool,
    retry: RetryPolicy,
    queueAllMessages: bool,
    maxQueued: nat,
    enforceBootGate: bool,
    bootRetryFallback: nat,
    maxPeerRequests: nat)

  datatype Failure =
    | RejectedByPeer
    | TimedOut
    | Disconnected
    | RetriesExhausted
    | QueueFull
    | Cancelled

  datatype Answer = CallResult(payload: Payload) | Sent

  datatype Timer = CallTimeout | HeartbeatTimer | BootRetry | TransactionRetry | DrainDeadline

  datatype CloseReason = Drained | DrainTimedOut

  datatype ErrorCode =
    | NotImplemented
    | ProtocolError
    | NotSupported
    | RpcFrameworkError
    | SecurityError

  datatype Violation =
    | UnexpectedResponse(id: MessageId)
    | UnknownMessageType
    | ConcurrentCall(id: MessageId)
    | WrongMessageKind(action: Action, received: Kind)
    | WrongDirection(action: Action)
    | NonConformingMessageId(id: MessageId)
    | DuplicateMessageId(id: MessageId)
    | TooManyPeerRequests(id: MessageId)
    | MalformedFrame
    | StoreFailure

  /** Outputs that move no call; of the timers, the view remembers the boot retry, the heartbeat and the drain. */
  datatype Note =
    | SetTimer(timer: Timer, at: Instant)
    | ClearTimer(timer: Timer)
    | BootReport(state: BootState)
    | ClockSample(time: int, at: Instant)
    | Violated(violation: Violation)
    | ResultRejected(id: MessageId)
    | ErrorFrame(id: MessageId, forResult: bool)
    | RejectResult(id: MessageId)

  datatype Reply = WithResult(payload: Payload) | WithError

  /** Why the one call slot became free; an answer is a result with its payload, or an error. */
  datatype Cause = ByAnswer(payload: Option<Payload>) | ByTimeout | ByDisconnect

  datatype Event =
    // Marks: nothing reaches the driver.
    | Issued(token: Token, call: QueuedCall, triggered: bool, stored: Option<Seq>, keep: bool)
    | Freed(token: Token, id: MessageId, cause: Cause, at: Instant)
    | Settled(token: Token, stored: Option<Seq>)
    | Recorded(token: Token, seqNo: Seq, attempts: nat)
    | Linked(up: bool)
    | Opened(nextSeq: Seq, capacity: Option<nat>)
    | CancelAsked(token: Token)
    | TimeoutSet(timeout: nat)
    | BeatDue(at: Instant)
    // Outputs.
    | Wire(token: Token, id: MessageId, serial: nat, action: Action, payload: Payload, kind: Kind,
           attempt: nat, at: Instant, deadline: Instant)
    | Outcome(token: Token, sentAs: Option<MessageId>, action: Action, result: Result<Answer, Failure>)
    | BootVerdict(state: BootState)
    | BootExpired(at: Instant)
    | Request(id: MessageId, action: Action, payload: Payload, kind: Kind)
    | Refused(id: MessageId, code: ErrorCode)
    | Answered(id: MessageId, reply: Reply)
    | Closed(reason: CloseReason, at: Instant)
    | Noted(note: Note)

  /** What the monitor knows about one issued call: `sentAs` is the id of its latest transmission,
      `fate` what became of the latest transmission that is over. */
  datatype Facts = Facts(
    call: QueuedCall,
    triggered: bool,
    stored: Option<Seq>,
    keep: bool,
    attempts: nat,
    sentAs: Option<MessageId>,
    fate: Option<Cause>,
    lostAt: Option<Instant>,
    finished: bool)

  datatype Slot = Slot(token: Token, id: MessageId, deadline: Instant)

  /** The call whose answer is being dealt with, and what the answer carried, when. */
  datatype Answering = Answering(action: Action, payload: Option<Payload>, at: Instant)

  /** A stored message: whose it is, its number, and what the store holds under it. */
  datatype Backed = Backed(token: Token, seqNo: Seq, call: QueuedCall)

  datatype View = View(
    calls: seq<Facts>,
    slot: Option<Slot>,
    answering: Option<Answering>,
    boot: BootState,
    retryAt: Option<Instant>,
    connected: bool,
    peers: set<MessageId>,
    clock: Instant,
    serial: nat,
    backed: seq<Backed>,
    ready: bool,
    nextSeq: Seq,
    capacity: Option<nat>,
    cancelling: Option<Token>,
    timeout: Option<nat>,
    beat: Option<nat>,
    beatAt: Option<Instant>,
    drainBy: Option<Instant>)

  const START := View([], None, None, Idle, None, false, {}, 0, 0, [], false, 0, None, None, None, None, None, None)

  function WithoutToken(backed: seq<Backed>, t: Token): (r: seq<Backed>)
  {
    if backed == [] then []
    else if backed[0].token == t then WithoutToken(backed[1..], t)
    else [backed[0]] + WithoutToken(backed[1..], t)
  }

  function WithRecorded(backed: seq<Backed>, t: Token, attempts: nat): (r: seq<Backed>)
    ensures |r| == |backed|
    ensures forall i :: 0 <= i < |r| ==>
              r[i] == if backed[i].token == t then backed[i].(call := backed[i].call.(attempts := attempts)) else backed[i]
  {
    if backed == [] then []
    else
      [if backed[0].token == t then backed[0].(call := backed[0].call.(attempts := attempts)) else backed[0]]
      + WithRecorded(backed[1..], t, attempts)
  }

  /** The number a message is stored under. */
  function SeqOf(backed: seq<Backed>, t: Token): (r: Option<Seq>)
  {
    if backed == [] then None
    else if backed[0].token == t then Some(backed[0].seqNo)
    else SeqOf(backed[1..], t)
  }

  /** The store, where it holds the message, says it was transmitted this often. */
  ghost predicate RecordedAs(backed: seq<Backed>, t: Token, attempts: nat)
  {
    forall k :: 0 <= k < |backed| && backed[k].token == t ==> backed[k].call.attempts == attempts
  }

  /** The answer's payload is a boot answer with this status. */
  predicate SaysBoot(payload: Option<Payload>, state: BootState)
  {
    payload.Some? && payload.value.boot.Some? && payload.value.boot.value.status == Some(state)
  }

  /** The heartbeat interval or retry delay a boot answer gives, in milliseconds. */
  function IntervalOf(answer: BootAnswer): (r: Option<nat>)
  {
    if answer.interval.Some? && answer.interval.value > 0 then Some(1000 * answer.interval.value) else None
  }

  predicate Gated(c: Config)
  {
    c.enforceBootGate && c.role == ChargingStation
  }

  /** Every transaction message issued before `t` is over. */
  ghost predicate EarlierTransactionsOver(m: View, t: Token)
    requires t <= |m.calls|
  {
    forall u :: 0 <= u < t && m.calls[u].call.transactional ==> m.calls[u].finished
  }

  /** Only a transaction message is retransmitted, within its attempts and after its delay. */
  predicate Due(c: Config, f: Facts, at: Instant)
  {
    && (f.attempts == f.call.attempts || (f.call.transactional && c.retry.MayRetry(f.attempts)))
    && (f.lostAt.Some? ==> at >= SaturatingAdd(f.lostAt.value, c.retry.DelayAfter(f.attempts)))
    && (f.attempts != f.call.attempts ==> f.lostAt.Some?)
  }

  /** A lost transmission, as opposed to an answered one. */
  predicate Lost(f: Facts)
  {
    f.fate == Some(ByTimeout) || f.fate == Some(ByDisconnect)
  }

  /** Never transmitted, or a transaction message between two of its attempts. */
  predicate Waits(c: Config, f: Facts)
  {
    || (f.sentAs.None? && f.fate.None?)
    || (f.call.transactional && Lost(f) && c.retry.MayRetry(f.attempts))
  }

  /** What the application may be told about call `t`, and under which id: what became of its latest
      transmission, or why there will be none. */
  predicate Reports(c: Config, m: View, t: Token, sentAs: Option<MessageId>, result: Result<Answer, Failure>)
    requires t < |m.calls|
  {
    var f := m.calls[t];
    if m.cancelling == Some(t) then
      Waits(c, f) && sentAs == None && result == Err(Cancelled)
    else if Waits(c, f) then
      && sentAs == None
      && (|| (!m.connected && !f.keep && result == Err(Failure.Disconnected))
          || ((m.connected || f.keep) && t == |m.calls| - 1 && f.fate.None? && f.stored.None? && result == Err(QueueFull)))
    else
      && sentAs == f.sentAs && sentAs.Some?
      && match f.fate
         case None => f.call.kind == SEND && result == Ok(Sent)
         case Some(ByAnswer(Some(payload))) => result == Ok(CallResult(payload))
         case Some(ByAnswer(None)) => result == Err(RejectedByPeer)
         case Some(ByTimeout) => result == Err(if f.call.transactional then RetriesExhausted else TimedOut)
         case Some(ByDisconnect) =>
           !m.connected && result == Err(if f.call.transactional then RetriesExhausted else Failure.Disconnected)
  }

  /** How long a call transmitted now waits for its answer. */
  function TimeoutInForce(c: Config, m: View): (r: nat)
  {
    if m.timeout.Some? then m.timeout.value else c.callTimeout
  }

  /** Some message waits for its next attempt until `at`. */
  ghost predicate RetryDue(c: Config, m: View, at: Instant)
  {
    exists t :: 0 <= t < |m.calls| && RetryDueFor(c, m.calls[t], at)
  }

  predicate RetryDueFor(c: Config, f: Facts, at: Instant)
  {
    && !f.finished && Lost(f) && Waits(c, f) && f.lostAt.Some?
    && at == SaturatingAdd(f.lostAt.value, c.retry.DelayAfter(f.attempts))
  }

  /** When a timer may be set, and to what. */
  ghost predicate TimerAllowed(c: Config, m: View, timer: Timer, at: Instant)
  {
    match timer
    case CallTimeout => m.slot.Some? && at == m.slot.value.deadline
    case BootRetry =>
      && m.answering.Some? && m.answering.value.action == BootNotification
      && (SaysBoot(m.answering.value.payload, BootState.Pending) || SaysBoot(m.answering.value.payload, BootState.Rejected))
      && (var interval := IntervalOf(m.answering.value.payload.value.boot.value);
          at == SaturatingAdd(m.answering.value.at, if interval.Some? then interval.value else c.bootRetryFallback))
    case HeartbeatTimer =>
      && c.automaticHeartbeat && c.role == ChargingStation
      && m.beat.Some? && at >= SaturatingAdd(m.clock, m.beat.value)
    case TransactionRetry => RetryDue(c, m, at)
    case DrainDeadline => m.drainBy.None?
  }

  /** The peer's clock, as the answer being dealt with gives it, at the instant it came. */
  predicate ClockGiven(m: View, time: int, at: Instant)
  {
    && m.answering.Some? && m.answering.value.payload.Some? && at == m.answering.value.at
    && var payload := m.answering.value.payload.value;
       || (m.answering.value.action == BootNotification && payload.boot.Some? && payload.boot.value.time == Some(time))
       || (m.answering.value.action == Heartbeat && payload.time == Some(time))
  }

  /** The rules. */
  ghost predicate Allowed(c: Config, m: View, e: Event)
  {
    match e
    case Issued(t, call, _, stored, _) =>
      && t == |m.calls| && (call.transactional ==> call.kind == CALL)
      && m.drainBy.None? && (m.ready ==> call.attempts == 0)
      && (stored.Some? ==> if m.ready then stored.value == m.nextSeq else stored.value >= m.nextSeq)
      && (m.ready && stored.Some? && m.capacity.Some? ==> |m.backed| < m.capacity.value)
    case Opened(next, _) =>
      !m.ready && next >= m.nextSeq
    case Wire(t, id, serial, action, payload, kind, attempt, at, deadline) =>
      && t < |m.calls| && !m.calls[t].finished
      && m.connected
      && (kind == CALL ==> m.slot == None)
      && (var f := m.calls[t];
          && f.call.action == action && f.call.payload == payload && f.call.kind == kind
          && attempt == f.attempts + 1
          && Due(c, f, at) && RecordedAs(m.backed, t, f.attempts)
          && (f.call.transactional ==> EarlierTransactionsOver(m, t))
          && (Gated(c) ==> m.boot == Accepted || action == BootNotification || f.triggered))
      && at >= m.clock && deadline == SaturatingAdd(at, TimeoutInForce(c, m))
      && serial >= m.serial && id == IdText(c.prefix, serial % U64_LIMIT)
    case Freed(t, id, cause, at) =>
      && m.slot.Some? && m.slot.value.token == t && m.slot.value.id == id && t < |m.calls| && at >= m.clock
      && (cause.ByTimeout? ==> at >= m.slot.value.deadline)
      && (cause.ByDisconnect? ==> !m.connected)
    case Settled(t, stored) =>
      && t < |m.calls| && !m.calls[t].finished && (m.slot.Some? ==> m.slot.value.token != t)
      && stored == SeqOf(m.backed, t)
    case Recorded(t, q, attempts) =>
      SeqOf(m.backed, t) == Some(q) && t < |m.calls| && attempts == m.calls[t].attempts && c.retry.MayRetry(attempts)
    case CancelAsked(t) =>
      t < |m.calls| && !m.calls[t].finished && Waits(c, m.calls[t])
    case BeatDue(at) =>
      m.beatAt.Some? && at >= m.beatAt.value
    case Outcome(t, sentAs, action, result) =>
      && t < |m.calls| && !m.calls[t].finished && m.calls[t].call.action == action
      && (m.slot.Some? ==> m.slot.value.token != t)
      && (forall k :: 0 <= k < |m.backed| ==> m.backed[k].token != t)
      && Reports(c, m, t, sentAs, result)
    case BootVerdict(state) =>
      m.answering.Some? && m.answering.value.action == BootNotification && SaysBoot(m.answering.value.payload, state)
    case BootExpired(at) =>
      m.retryAt.Some? && at >= m.retryAt.value
    case Request(id, _, _, kind) =>
      kind == CALL ==>
        && id !in m.peers
        && (m.peers == {} || (|m.peers| < c.maxPeerRequests && !c.rejectConcurrent))
    case Answered(id, _) =>
      id in m.peers
    case Closed(reason, at) =>
      && m.drainBy.Some?
      && (reason == Drained <==> forall u :: 0 <= u < |m.calls| ==> m.calls[u].finished)
      && (reason == DrainTimedOut ==> at >= m.drainBy.value)
    case Noted(n) =>
      (n.SetTimer? ==> TimerAllowed(c, m, n.timer, n.at)) && (n.ClockSample? ==> ClockGiven(m, n.time, n.at))
    case _ => true
  }

  function NextTimer(m: View, n: Note): (r: View)
  {
    match n
    case SetTimer(BootRetry, at) => m.(retryAt := Some(at))
    case SetTimer(HeartbeatTimer, at) => m.(beatAt := Some(at))
    case SetTimer(DrainDeadline, at) => m.(drainBy := Some(at))
    case ClearTimer(HeartbeatTimer) => m.(beatAt := None)
    case _ => m
  }

  function Next(m: View, e: Event): (r: View)
  {
    match e
    case Issued(t, call, triggered, stored, keep) =>
      m.(calls := m.calls + [Facts(call, triggered, stored, keep, call.attempts, None, None, None, false)],
         backed := if stored.Some? then m.backed + [Backed(t, stored.value, call)] else m.backed,
         nextSeq := if stored.Some? then stored.value + 1 else m.nextSeq)
    case Opened(next, capacity) => m.(ready := true, nextSeq := next, capacity := capacity)
    case CancelAsked(t) => m.(cancelling := Some(t))
    case TimeoutSet(timeout) => m.(timeout := Some(timeout))
    case BeatDue(_) => m.(beatAt := None)
    case Wire(t, id, serial, _, _, kind, attempt, at, deadline) =>
      if t >= |m.calls| then m
      else
        m.(calls := m.calls[t := m.calls[t].(attempts := attempt, sentAs := Some(id), lostAt := None)],
           slot := if kind == CALL then Some(Slot(t, id, deadline)) else m.slot,
           clock := at,
           serial := serial + 1)
    case Freed(t, _, cause, at) =>
      if t >= |m.calls| then m
      else
        m.(calls := m.calls[t := m.calls[t].(fate := Some(cause), lostAt := if cause.ByAnswer? then None else Some(at))],
           slot := None,
           answering := if cause.ByAnswer? then Some(Answering(m.calls[t].call.action, cause.payload, at)) else None,
           clock := at)
    case Settled(t, _) =>
      m.(backed := WithoutToken(m.backed, t))
    case Recorded(t, _, attempts) =>
      m.(backed := WithRecorded(m.backed, t, attempts))
    case Outcome(t, _, _, _) =>
      if t >= |m.calls| then m
      else
        m.(calls := m.calls[t := m.calls[t].(finished := true)],
           cancelling := if m.cancelling == Some(t) then None else m.cancelling)
    case BootVerdict(state) =>
      if state == Accepted && m.answering.Some? && SaysBoot(m.answering.value.payload, Accepted) then
        m.(boot := state, beat := IntervalOf(m.answering.value.payload.value.boot.value))
      else m.(boot := state)
    case BootExpired(_) => m.(boot := Idle, retryAt := None)
    case Linked(up) => m.(connected := up, peers := {})
    case Request(id, _, _, kind) => if kind == CALL then m.(peers := m.peers + {id}) else m
    case Answered(id, _) => m.(peers := m.peers - {id})
    case Closed(_, _) => m.(drainBy := None)
    case Noted(n) => NextTimer(m, n)
    case _ => m
  }

  /** What the monitor knows after reading a log. */
  function Watch(log: seq<Event>): (r: View)
  {
    if log == [] then START else Next(Watch(log[..|log| - 1]), log[|log| - 1])
  }

  /** Every event of the log was allowed when it happened. */
  ghost predicate Accepts(c: Config, log: seq<Event>)
  {
    log == [] || (Accepts(c, log[..|log| - 1]) && Allowed(c, Watch(log[..|log| - 1]), log[|log| - 1]))
  }

  lemma AcceptsOne(c: Config, log: seq<Event>, e: Event)
    requires Accepts(c, log) && Allowed(c, Watch(log), e)
    ensures Accepts(c, log + [e]) && Watch(log + [e]) == Next(Watch(log), e)
  {
    assert (log + [e])[..|log|] == log;
  }

  lemma {:induction false} AcceptsAt(c: Config, log: seq<Event>, i: nat)
    requires Accepts(c, log) && i < |log|
    ensures Accepts(c, log[..i]) && Allowed(c, Watch(log[..i]), log[i])
    ensures Watch(log[..i + 1]) == Next(Watch(log[..i]), log[i])
  {
    var front := log[..|log| - 1];
    assert log[..i + 1][..i] == log[..i];
    if i < |log| - 1 {
      assert front[..i] == log[..i];
      AcceptsAt(c, front, i);
    }
  }
}
