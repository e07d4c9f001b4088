/** The log only grows, what a run has logged stays where it is, and each operation logs only events
    of the sorts that are its business. */
module EngineHistory {
  import opened Basics
  import opened Messages
  import opened Queue
  import opened Monitor
  import opened EngineModel

  /** Events that few operations may log, and all the others. */
  datatype Sort = Ordinary | Asked | Issue | Failing | Timing | Beat | Arming | Expiry

  function SortOf(e: Event): (r: Sort)
  {
    match e
    case CancelAsked(_) => Asked
    case TimeoutSet(_) => Asked
    case Issued(_, _, _, _, _) => Issue
    case Outcome(_, _, _, result) => if result.Err? then Failing else Ordinary
    case Freed(_, _, cause, _) => if cause == ByTimeout then Timing else Ordinary
    case BeatDue(_) => Beat
    case BootExpired(_) => Expiry
    case Noted(note) => if note.SetTimer? && note.timer == BootRetry then Arming else Ordinary
    case _ => Ordinary
  }

  /** An event of this sort at or after position `n`. */
  ghost predicate SortFrom(log: seq<Event>, n: nat, x: Sort)
  {
    exists k :: n <= k < |log| && SortOf(log[k]) == x
  }

  /** `r` comes after `s` in a run, with events of these sorts alone in between. */
  ghost predicate Onward(s: State, r: State, w: set<Sort>)
  {
    s.log <= r.log && forall k :: |s.log| <= k < |r.log| ==> SortOf(r.log[k]) in w
  }

  lemma Chain(s: State, t: State, r: State, w: set<Sort>)
    requires Onward(s, t, w) && Onward(t, r, w)
    ensures Onward(s, r, w)
  {
    forall k | |s.log| <= k < |r.log|
      ensures SortOf(r.log[k]) in w
    {
      assert k < |t.log| ==> r.log[k] == t.log[k];
    }
  }

  lemma Same(s: State, r: State, w: set<Sort>)
    requires s.log == r.log
    ensures Onward(s, r, w)
  {
  }

  lemma Emitted(s: State, e: Event, r: State, w: set<Sort>)
    requires r.log == s.log + [e] && SortOf(e) in w
    ensures Onward(s, r, w)
  {
  }

  lemma Said(s: State, n: Note, w: set<Sort>)
    requires Ordinary in w && !(n.SetTimer? && n.timer == BootRetry)
    ensures Onward(s, Say(s, n), w)
  {
    Emitted(s, Noted(n), Say(s, n), w);
  }

  lemma Armed(c: Config, s: State, w: set<Sort>)
    requires Ordinary in w
    ensures Onward(s, ArmHeartbeat(c, s), w)
  {
  }

  lemma Sent(c: Config, s: State, e: Event, w: set<Sort>)
    requires Ordinary in w && SortOf(e) in w
    ensures Onward(s, Transmit(c, s, e), w)
  {
    hide Onward, ArmHeartbeat, SortOf;
    Emitted(s, e, Emit(s, e), w);
    Armed(c, Emit(s, e), w);
    Chain(s, Emit(s, e), Transmit(c, s, e), w);
  }

  lemma RetireOnward(s: State, p: Waiting, sentAs: Option<MessageId>, result: Result<Answer, Failure>, w: set<Sort>)
    requires Ordinary in w && (result.Err? ==> Failing in w)
    ensures Onward(s, Finish(Settle(s, p), p, sentAs, result), w)
  {
  }

  lemma SendOutOnward(c: Config, s: State, i: nat, w: set<Sort>)
    requires i < |s.queue| && Ordinary in w
    ensures Onward(s, SendOut(c, s, i), w)
  {
    hide Onward, Transmit, Settle, Finish;
    var wire := WireOf(c, s, s.queue[i]);
    var s0 := s.(queue := RemoveAt(s.queue, i), minted := s.minted + 1);
    Same(s, s0, w);
    Sent(c, s0, wire, w);
    RetireOnward(Transmit(c, s0, wire), s.queue[i], Some(wire.id), Ok(Answer.Sent), w);
    Chain(s, s0, Transmit(c, s0, wire), w);
    Chain(s, Transmit(c, s0, wire), SendOut(c, s, i), w);
  }

  lemma CallOutOnward(c: Config, s: State, i: nat, w: set<Sort>)
    requires i < |s.queue| && Ordinary in w
    ensures Onward(s, CallOut(c, s, i), w)
  {
    hide Onward, Transmit;
    var wire := WireOf(c, s, s.queue[i]);
    var s0 := s.(queue := RemoveAt(s.queue, i), minted := s.minted + 1);
    var s1 := Transmit(c, s0, wire);
    var timer := SetTimer(CallTimeout, SaturatingAdd(s.now, s.callTimeout));
    Same(s, s0, w);
    Sent(c, s0, wire, w);
    Emitted(s1, Noted(timer), CallOut(c, s, i), w);
    Chain(s, s0, s1, w);
    Chain(s, s1, CallOut(c, s, i), w);
  }

  lemma {:induction false} PumpOnward(c: Config, s: State, w: set<Sort>)
    requires Ordinary in w
    ensures Onward(s, PumpSends(c, s), w) && Onward(s, Pump(c, s), w)
    decreases |s.queue|
  {
    hide Onward, SendOut, CallOut;
    Same(s, s, w);
    var i := FindEligible(c, s, SEND, 0);
    if i.Some? {
      SendOutOnward(c, s, i.value, w);
      PumpOnward(c, SendOut(c, s, i.value), w);
      Chain(s, SendOut(c, s, i.value), PumpSends(c, s), w);
    }
    var s1 := PumpSends(c, s);
    var j := FindEligible(c, s1, CALL, 0);
    if s1.inflight.None? && j.Some? {
      CallOutOnward(c, s1, j.value, w);
      Chain(s, s1, CallOut(c, s1, j.value), w);
    }
  }

  lemma CheckDrainOnward(s: State, w: set<Sort>)
    requires Ordinary in w
    ensures Onward(s, CheckDrain(s), w)
  {
  }

  lemma DrainOnward(c: Config, s: State, w: set<Sort>)
    requires Ordinary in w
    ensures Onward(s, CheckDrain(Pump(c, s)), w)
  {
    hide Onward, Pump, CheckDrain;
    PumpOnward(c, s, w);
    CheckDrainOnward(Pump(c, s), w);
    Chain(s, Pump(c, s), CheckDrain(Pump(c, s)), w);
  }

  /** Why a call that is not refused fails on the spot, if it does. */
  function SpotFailure(c: Config, s: State, action: Action, options: CallOptions): (r: Option<Failure>)
  {
    var transactional := IsTransactionRelated(s.version, action);
    if !s.connected && !(options.queueWhenOffline == Some(true)
                         || (options.queueWhenOffline.None? && (transactional || c.queueAllMessages))) then
      Some(Failure.Disconnected)
    else if |s.queue| >= c.maxQueued
            || (Full(s.store) && (options.persist == Some(true) || (options.persist.None? && transactional))) then
      Some(QueueFull)
    else None
  }

  lemma SubmitOnward(c: Config, s: State, action: Action, payload: Payload, options: CallOptions, w: set<Sort>)
    requires Refuse(c, s, action) == None && Ordinary in w && Issue in w
    requires SpotFailure(c, s, action, options).Some? ==> Failing in w
    ensures Onward(s, Submit(c, s, action, payload, options), w)
  {
    hide Onward, Pump, FailNow, Enqueue, RememberSolicited, Refuse, IsTransactionRelated, Full;
    var call := SubmittedCall(c, s, action, payload);
    var persist := if options.persist.Some? then options.persist.value else call.transactional;
    var keep := if options.queueWhenOffline.Some? then options.queueWhenOffline.value
                else call.transactional || c.queueAllMessages;
    if SpotFailure(c, s, action, options).Some? {
      FailOnward(s, call, options.triggered, keep, w);
    } else {
      var s1 := Enqueue(s, call, persist, options.triggered, keep);
      var s2 := if c.role == Csms then RememberSolicited(s1, action, payload) else s1;
      EnqueueOnward(c, s, call, persist, options.triggered, keep, s2, w);
      PumpOnward(c, s2, w);
      Chain(s, s2, Pump(c, s2), w);
    }
  }

  lemma FailOnward(s: State, call: QueuedCall, triggered: bool, keep: bool, w: set<Sort>)
    requires {Ordinary, Issue, Failing} <= w
    ensures forall why :: Onward(s, FailNow(s, call, triggered, keep, why), w)
    ensures forall why :: Onward(s, FailNow(Complain(s, StoreFailure), call, triggered, keep, why), w)
  {
  }

  lemma EnqueueOnward(c: Config, s: State, call: QueuedCall, persist: bool, triggered: bool, keep: bool, r: State,
                      w: set<Sort>)
    requires (persist ==> !Full(s.store)) && Issue in w
    requires var s1 := Enqueue(s, call, persist, triggered, keep);
             r == s1 || exists action, payload :: r == RememberSolicited(s1, action, payload)
    ensures Onward(s, r, w)
  {
  }

  lemma CallWithOnward(c: Config, s: State, now: Instant, action: Action, payload: Payload, options: CallOptions,
                       w: set<Sort>)
    requires {Ordinary, Issue, Failing} <= w
    ensures Onward(s, CallWith(c, s, now, action, payload, options), w)
  {
    hide Submit;
    if Refuse(c, Advance(s, now), action) == None {
      SubmitOnward(c, Advance(s, now), action, payload, options, w);
    }
  }

  lemma ObserveOnward(c: Config, s: State, payload: Payload, outgoing: bool, w: set<Sort>)
    requires Ordinary in w && (outgoing || Arming in w)
    ensures Onward(s, ObserveBootAnswer(c, s, payload, outgoing), w)
  {
    hide Pump, ArmHeartbeat, Onward, SortOf;
    Same(s, s, w);
    if payload.boot.Some? && payload.boot.value.status.Some? {
      var answer := payload.boot.value;
      var state := answer.status.value;
      var s1 := Emit(s.(boot := state), if outgoing then Noted(BootReport(state)) else BootVerdict(state));
      var s2 := if answer.time.Some? && !outgoing then Say(s1, ClockSample(answer.time.value, s1.now)) else s1;
      var interval := if answer.interval.Some? && answer.interval.value > 0 then Some(1000 * answer.interval.value)
                      else None;
      JudgedOnward(s, s1, s2, w);
      var s3 := s2.(heartbeatInterval := interval);
      Same(s2, s3, w);
      Chain(s, s2, s3, w);
      Armed(c, s3, w);
      PumpOnward(c, ArmHeartbeat(c, s3), w);
      Chain(s, s3, ArmHeartbeat(c, s3), w);
      Chain(s, ArmHeartbeat(c, s3), Pump(c, ArmHeartbeat(c, s3)), w);
      var at := SaturatingAdd(s2.now, if interval.Some? then interval.value else c.bootRetryFallback);
      var s4 := Say(s2.(bootRetryAt := Some(at)), SetTimer(BootRetry, at));
      if !outgoing {
        ArmingOnward(s2, s4, at, w);
        Chain(s, s2, s4, w);
      }
    }
  }

  lemma JudgedOnward(s: State, s1: State, s2: State, w: set<Sort>)
    requires Ordinary in w
    requires exists state :: s1.log == s.log + [BootVerdict(state)] || s1.log == s.log + [Noted(BootReport(state))]
    requires s2 == s1 || exists time, at :: s2 == Say(s1, ClockSample(time, at))
    ensures Onward(s, s2, w)
  {
  }

  lemma ArmingOnward(s: State, r: State, at: Instant, w: set<Sort>)
    requires r.log == s.log + [Noted(SetTimer(BootRetry, at))] && Arming in w
    ensures Onward(s, r, w)
  {
  }

  lemma RequeueOnward(c: Config, s: State, f: InFlight, why: Failure, w: set<Sort>)
    requires {Ordinary, Failing} <= w
    ensures Onward(s, RequeueOrFail(c, s, f, why), w)
  {
  }

  lemma {:induction false} UnqueueableOnward(s: State, i: nat, w: set<Sort>)
    requires i <= |s.queue| && {Ordinary, Failing} <= w
    ensures Onward(s, FailUnqueueable(s, i), w)
    decreases |s.queue| - i
  {
    hide Onward, Drop, SortOf;
    Same(s, s, w);
    if i < |s.queue| {
      if s.queue[i].queueWhenOffline {
        UnqueueableOnward(s, i + 1, w);
      } else {
        DropOnward(s, i, Failure.Disconnected, w);
        UnqueueableOnward(Drop(s, i, Failure.Disconnected), i, w);
        Chain(s, Drop(s, i, Failure.Disconnected), FailUnqueueable(s, i), w);
      }
    }
  }

  lemma DropOnward(s: State, i: nat, why: Failure, w: set<Sort>)
    requires i < |s.queue| && {Ordinary, Failing} <= w
    ensures Onward(s, Drop(s, i, why), w)
  {
  }

  lemma DisconnectedOnward(c: Config, s: State, w: set<Sort>)
    requires {Ordinary, Failing} <= w
    ensures Onward(s, OnDisconnected(c, s), w)
  {
    hide FailUnqueueable, RequeueOrFail, Onward, CheckDrain, Take, SortOf;
    var s1 := Say(Say(Emit(s.(connected := false, peers := {}), Linked(false)),
                      ClearTimer(CallTimeout)), ClearTimer(HeartbeatTimer)).(heartbeatAt := None);
    LinkLostOnward(s, s1, w);
    var s2 := s1;
    if s1.inflight.Some? {
      var t := Take(s1, ByDisconnect);
      s2 := RequeueOrFail(c, t, s1.inflight.value, Failure.Disconnected);
      TakenOnward(s1, ByDisconnect, w);
      Chain(s, s1, t, w);
      RequeueOnward(c, t, s1.inflight.value, Failure.Disconnected, w);
      Chain(s, t, s2, w);
    }
    UnqueueableOnward(s2, 0, w);
    Chain(s, s2, FailUnqueueable(s2, 0), w);
    CheckDrainOnward(FailUnqueueable(s2, 0), w);
    Chain(s, FailUnqueueable(s2, 0), OnDisconnected(c, s), w);
  }

  lemma LinkLostOnward(s: State, s1: State, w: set<Sort>)
    requires Ordinary in w
    requires s1.log == s.log + [Linked(false)] + [Noted(ClearTimer(CallTimeout))] + [Noted(ClearTimer(HeartbeatTimer))]
    ensures Onward(s, s1, w)
  {
  }

  lemma TakenOnward(s: State, cause: Cause, w: set<Sort>)
    requires s.inflight.Some? && (if cause == ByTimeout then Timing else Ordinary) in w
    ensures Onward(s, Take(s, cause), w)
  {
  }

  lemma TimeoutOnward(c: Config, s: State, w: set<Sort>)
    requires {Ordinary, Issue, Failing, Timing, Beat, Expiry} <= w
    ensures Onward(s, OnTimeout(c, s), w)
  {
    hide Onward, Pump, CallDeadline, HeartbeatDeadline, BootDeadline, CheckDrain;
    var s1 := CallDeadline(c, s);
    CallDeadlineOnward(c, s, w);
    var s2 := HeartbeatDeadline(c, s1);
    HeartbeatOnward(c, s1, w);
    var s3 := BootDeadline(c, s2);
    BootOnward(c, s2, w);
    Chain(s, s1, s2, w);
    Chain(s, s2, s3, w);
    ClosingOnward(c, s3, w);
    Chain(s, s3, OnTimeout(c, s), w);
  }

  /** What comes after the deadlines. */
  lemma ClosingOnward(c: Config, s: State, w: set<Sort>)
    requires Ordinary in w
    ensures Onward(s, CheckDrain(Pump(c, s)), w)
    ensures Onward(s, Emit(s, Closed(DrainTimedOut, s.now)).(draining := None), w)
  {
    DrainOnward(c, s, w);
  }

  lemma CallDeadlineOnward(c: Config, s: State, w: set<Sort>)
    requires {Ordinary, Failing, Timing} <= w || (Ordinary in w && !(s.inflight.Some? && s.now >= s.inflight.value.deadline))
    ensures Onward(s, CallDeadline(c, s), w)
  {
    hide RequeueOrFail, Onward, Take, SortOf;
    Same(s, s, w);
    if s.inflight.Some? && s.now >= s.inflight.value.deadline {
      var t := Take(s, ByTimeout);
      TakenOnward(s, ByTimeout, w);
      Said(t, ClearTimer(CallTimeout), w);
      Chain(s, t, Say(t, ClearTimer(CallTimeout)), w);
      RequeueOnward(c, Say(t, ClearTimer(CallTimeout)), s.inflight.value, TimedOut, w);
      Chain(s, Say(t, ClearTimer(CallTimeout)), CallDeadline(c, s), w);
    }
  }

  lemma HeartbeatOnward(c: Config, s: State, w: set<Sort>)
    requires {Ordinary, Beat, Issue, Failing} <= w || (Ordinary in w && !(s.heartbeatAt.Some? && s.now >= s.heartbeatAt.value))
    ensures Onward(s, HeartbeatDeadline(c, s), w)
  {
    hide CallWith, Onward, ArmHeartbeat;
    Same(s, s, w);
    if s.heartbeatAt.Some? && s.now >= s.heartbeatAt.value {
      var s1 := Emit(s.(heartbeatAt := None), BeatDue(s.now));
      Emitted(s, BeatDue(s.now), s1, w);
      CallWithOnward(c, s1, s1.now, Heartbeat, EMPTY_PAYLOAD, HEARTBEAT_OPTIONS, w);
      var s2 := CallWith(c, s1, s1.now, Heartbeat, EMPTY_PAYLOAD, HEARTBEAT_OPTIONS);
      Chain(s, s1, s2, w);
      Armed(c, s1, w);
      Armed(c, s2, w);
      Chain(s, s1, ArmHeartbeat(c, s1), w);
      Chain(s, s2, ArmHeartbeat(c, s2), w);
    }
  }

  lemma BootOnward(c: Config, s: State, w: set<Sort>)
    requires Expiry in w || !(s.bootRetryAt.Some? && s.now >= s.bootRetryAt.value)
    ensures Onward(s, BootDeadline(c, s), w)
  {
  }

  lemma AnswerOnward(c: Config, s: State, id: MessageId, payload: Payload, w: set<Sort>)
    requires {Ordinary, Failing, Arming} <= w
    ensures Onward(s, OnCallResult(c, s, id, payload), w) && Onward(s, OnCallError(c, s, id), w)
  {
    hide Onward, Pump, ObserveBootAnswer, CheckDrain;
    Said(s, Violated(UnexpectedResponse(id)), w);
    if Answers(s, id) {
      var f := s.inflight.value;
      var s0 := Say(Settle(Take(s, ByAnswer(None)), f.entry), ClearTimer(CallTimeout));
      var s1 := Say(Settle(Take(s, ByAnswer(Some(payload))), f.entry), ClearTimer(CallTimeout));
      AnsweredOnward(s, ByAnswer(None), w);
      AnsweredOnward(s, ByAnswer(Some(payload)), w);
      var s2 := if f.entry.call.action == BootNotification && c.role == ChargingStation then
                  ObserveBootAnswer(c, s1, payload, false)
                else if f.entry.call.action == Heartbeat && payload.time.Some? then
                  Say(s1, ClockSample(payload.time.value, s1.now))
                else s1;
      ObserveOnward(c, s1, payload, false, w);
      if payload.time.Some? {
        Said(s1, ClockSample(payload.time.value, s1.now), w);
      }
      Same(s1, s1, w);
      Chain(s, s1, s2, w);
      ReportOnward(c, s2, f.entry, Some(id), Ok(Answer.CallResult(payload)), w);
      Chain(s, s2, OnCallResult(c, s, id, payload), w);
      ReportOnward(c, s0, f.entry, Some(id), Err(RejectedByPeer), w);
      Chain(s, s0, OnCallError(c, s, id), w);
    }
  }

  lemma AnsweredOnward(s: State, cause: Cause, w: set<Sort>)
    requires s.inflight.Some? && cause.ByAnswer? && Ordinary in w
    ensures Onward(s, Say(Settle(Take(s, cause), s.inflight.value.entry), ClearTimer(CallTimeout)), w)
  {
  }

  lemma ReportOnward(c: Config, s: State, p: Waiting, sentAs: Option<MessageId>, result: Result<Answer, Failure>,
                     w: set<Sort>)
    requires Ordinary in w && (result.Err? ==> Failing in w)
    ensures Onward(s, CheckDrain(Pump(c, Finish(s, p, sentAs, result))), w)
  {
    hide Onward, Pump, CheckDrain;
    var t := Finish(s, p, sentAs, result);
    Emitted(s, Outcome(p.token, sentAs, p.call.action, result), t, w);
    DrainOnward(c, t, w);
    Chain(s, t, CheckDrain(Pump(c, t)), w);
  }

  lemma OnCallOnward(c: Config, s: State, id: MessageId, action: Action, payload: Payload, kind: Kind, w: set<Sort>)
    requires Ordinary in w
    ensures Onward(s, OnCall(c, s, id, action, payload, kind), w)
  {
    hide Onward, Surface, RefuseRequest;
    var wrong, away, again := Complain(s, Violation.WrongMessageKind(action, kind)),
                              Complain(s, Violation.WrongDirection(action)), Complain(s, DuplicateMessageId(id));
    Same(s, s, w);
    Reacted(c, s, s, id, action, payload, kind, w);
    Said(s, Violated(Violation.WrongMessageKind(action, kind)), w);
    Reacted(c, s, wrong, id, action, payload, kind, w);
    Said(s, Violated(Violation.WrongDirection(action)), w);
    Reacted(c, s, away, id, action, payload, kind, w);
    Said(s, Violated(DuplicateMessageId(id)), w);
    Reacted(c, s, again, id, action, payload, kind, w);
    var s1 := Complain(s, ConcurrentCall(id));
    Said(s, Violated(ConcurrentCall(id)), w);
    Reacted(c, s, s1, id, action, payload, kind, w);
    Said(s1, Violated(TooManyPeerRequests(id)), w);
    Chain(s, s1, Complain(s1, TooManyPeerRequests(id)), w);
    Reacted(c, s, Complain(s1, TooManyPeerRequests(id)), id, action, payload, kind, w);
  }

  lemma Reacted(c: Config, s: State, t: State, id: MessageId, action: Action, payload: Payload, kind: Kind, w: set<Sort>)
    requires Onward(s, t, w) && Ordinary in w
    ensures Onward(s, Surface(c, t, id, action, payload, kind), w)
    ensures forall code :: Onward(s, RefuseRequest(c, t, id, kind, code), w)
  {
    hide Onward, Transmit;
    forall code
      ensures Onward(s, RefuseRequest(c, t, id, kind, code), w)
    {
      Sent(c, t, Refused(id, code), w);
      Chain(s, t, Transmit(c, t, Refused(id, code)), w);
    }
    if !BlockedByBoot(c, t, action) {
      Emitted(t, Request(id, action, payload, kind), Surface(c, t, id, action, payload, kind), w);
      Chain(s, t, Surface(c, t, id, action, payload, kind), w);
    }
  }

  lemma ReceivedOnward(c: Config, s: State, frame: Frame, w: set<Sort>)
    requires {Ordinary, Failing, Arming} <= w
    ensures Onward(s, OnReceived(c, s, frame), w)
  {
    hide OnCall, OnCallResult, OnCallError, Onward, ArmHeartbeat, Transmit, SortOf;
    var s1 := ArmHeartbeat(c, s);
    Armed(c, s, w);
    match frame
    case Unreadable(unknown, reply, id) =>
      var v := Violated(if unknown then UnknownMessageType else MalformedFrame);
      Said(s1, v, w);
      Chain(s, s1, Say(s1, v), w);
      ErrorSent(c, Say(s1, v), id, reply == ReplyCallResultError, w);
      Chain(s, Say(s1, v), Transmit(c, Say(s1, v), Noted(ErrorFrame(id, reply == ReplyCallResultError))), w);
    case _ =>
      var s2 := if Conforming(frame.id) then s1 else Complain(s1, NonConformingMessageId(frame.id));
      Said(s1, Violated(NonConformingMessageId(frame.id)), w);
      Same(s1, s1, w);
      Chain(s, s1, s2, w);
      FrameOnward(c, s2, frame, w);
      Chain(s, s2, OnReceived(c, s, frame), w);
  }

  lemma ErrorSent(c: Config, s: State, id: MessageId, forResult: bool, w: set<Sort>)
    requires Ordinary in w
    ensures Onward(s, Transmit(c, s, Noted(ErrorFrame(id, forResult))), w)
  {
    hide Onward, Transmit;
    Sent(c, s, Noted(ErrorFrame(id, forResult)), w);
  }

  lemma FrameOnward(c: Config, s: State, frame: Frame, w: set<Sort>)
    requires {Ordinary, Failing, Arming} <= w && !frame.Unreadable?
    ensures Onward(s, match frame
                      case CallFrame(id, action, payload) => OnCall(c, s, id, action, payload, CALL)
                      case SendFrame(id, action, payload) => OnCall(c, s, id, action, payload, SEND)
                      case ResultFrame(id, payload) => OnCallResult(c, s, id, payload)
                      case ErrorFrameOf(id) => OnCallError(c, s, id)
                      case ResultErrorFrame(id) => Say(s, ResultRejected(id)), w)
  {
    hide OnCall, OnCallResult, OnCallError, Onward;
    match frame
    case CallFrame(id, action, payload) => OnCallOnward(c, s, id, action, payload, CALL, w);
    case SendFrame(id, action, payload) => OnCallOnward(c, s, id, action, payload, SEND, w);
    case ResultFrame(id, payload) => AnswerOnward(c, s, id, payload, w);
    case ErrorFrameOf(id) => AnswerOnward(c, s, id, EMPTY_PAYLOAD, w);
    case ResultErrorFrame(id) => Said(s, ResultRejected(id), w);
  }

  lemma RespondOnward(c: Config, s: State, now: Instant, id: MessageId, reply: Reply, w: set<Sort>)
    requires Ordinary in w
    ensures Onward(s, RespondTo(c, s, now, id, reply), w)
  {
    hide ObserveBootAnswer, Onward, Transmit;
    var s1 := Advance(s, now);
    Same(s, s1, w);
    if id in s1.peers {
      var s2 := s1.(peers := s1.peers - {id});
      Same(s, s2, w);
      var s3 := if c.role == Csms && reply.WithResult? then ObserveBootAnswer(c, s2, reply.payload, true) else s2;
      if c.role == Csms && reply.WithResult? {
        ObserveOnward(c, s2, reply.payload, true, w);
        Chain(s, s2, s3, w);
      }
      Sent(c, s3, Answered(id, reply), w);
      Chain(s, s3, RespondTo(c, s, now, id, reply), w);
    }
  }

  lemma RejectOnward(c: Config, s: State, now: Instant, id: MessageId, w: set<Sort>)
    requires Ordinary in w
    ensures Onward(s, RejectResultOf(c, s, now, id), w)
  {
    hide Onward, Transmit;
    var s1 := Advance(s, now);
    Same(s, s1, w);
    Sent(c, s1, Noted(RejectResult(id)), w);
    Chain(s, s1, Transmit(c, s1, Noted(RejectResult(id))), w);
  }

  lemma ConnectedOnward(c: Config, s: State, version: Version, w: set<Sort>)
    requires Ordinary in w
    ensures Onward(s, OnConnected(c, s, version), w)
  {
    hide Pump, Onward, ArmHeartbeat;
    var s1 := Emit(s.(version := version, connected := true, peers := {}), Linked(true));
    Emitted(s, Linked(true), s1, w);
    Armed(c, s1, w);
    Chain(s, s1, ArmHeartbeat(c, s1), w);
    PumpOnward(c, ArmHeartbeat(c, s1), w);
    Chain(s, ArmHeartbeat(c, s1), OnConnected(c, s, version), w);
  }

  lemma ShutdownOnward(s: State, now: Instant, deadline: Instant, w: set<Sort>)
    requires Ordinary in w
    ensures Onward(s, ShutdownBy(s, now, deadline), w)
  {
    hide Onward, CheckDrain;
    var s1 := Advance(s, now);
    Same(s, s1, w);
    if s1.draining.None? {
      var s2 := Say(s1.(draining := Some(deadline)), SetTimer(DrainDeadline, deadline));
      Emitted(s, Noted(SetTimer(DrainDeadline, deadline)), s2, w);
      CheckDrainOnward(s2, w);
      Chain(s, s2, CheckDrain(s2), w);
    }
  }

  lemma CancelOnward(s: State, t: Token, w: set<Sort>)
    requires {Ordinary, Asked, Failing} <= w
    ensures Onward(s, CancelCall(s, t), w)
  {
    hide Onward, Drop;
    Same(s, s, w);
    var i := IndexOfToken(s.queue, t, 0);
    if i.Some? {
      var s1 := Emit(s, CancelAsked(t));
      Emitted(s, CancelAsked(t), s1, w);
      DropOnward(s1, i.value, Cancelled, w);
      Chain(s, s1, Drop(s1, i.value, Cancelled), w);
    }
  }

  /** The sorts of events a command may log: only a tick lets a call time out, a heartbeat fall due or
      a boot state expire, only a frame received arms the boot retry, and so on. */
  function Business(cmd: Command): (r: set<Sort>)
  {
    match cmd
    case Receive(_, _) => {Ordinary, Failing, Arming}
    case Disconnect(_) => {Ordinary, Failing}
    case Tick(_) => {Ordinary, Issue, Failing, Timing, Beat, Expiry}
    case Call(_, _, _, _) => {Ordinary, Issue, Failing}
    case Cancel(_) => {Ordinary, Asked, Failing}
    case SetCallTimeout(_) => {Ordinary, Asked}
    case _ => {Ordinary}
  }

  lemma ApplyOnward(c: Config, s: State, cmd: Command)
    ensures Onward(s, Apply(c, s, cmd), Business(cmd))
  {
    hide OnTimeout, OnDisconnected, CallWith, OnReceived, OnConnected, RespondTo, ShutdownBy, CancelCall, Onward,
      RejectResultOf;
    var w := Business(cmd);
    match cmd
    case Connect(now, version) => Same(s, Advance(s, now), w); ConnectedOnward(c, Advance(s, now), version, w);
      Chain(s, Advance(s, now), Apply(c, s, cmd), w);
    case Receive(now, frame) => Same(s, Advance(s, now), w); ReceivedOnward(c, Advance(s, now), frame, w);
      Chain(s, Advance(s, now), Apply(c, s, cmd), w);
    case Disconnect(now) => Same(s, Advance(s, now), w); DisconnectedOnward(c, Advance(s, now), w);
      Chain(s, Advance(s, now), Apply(c, s, cmd), w);
    case Tick(now) => Same(s, Advance(s, now), w); TimeoutOnward(c, Advance(s, now), w);
      Chain(s, Advance(s, now), Apply(c, s, cmd), w);
    case Call(now, action, payload, options) => CallWithOnward(c, s, now, action, payload, options, w);
    case Respond(now, id, payload) => RespondOnward(c, s, now, id, WithResult(payload), w);
    case RespondError(now, id) => RespondOnward(c, s, now, id, WithError, w);
    case Reject(now, id) => RejectOnward(c, s, now, id, w);
    case Cancel(t) => CancelOnward(s, t, w);
    case Shutdown(now, deadline) => ShutdownOnward(s, now, deadline, w);
    case SetCallTimeout(timeout) => Emitted(s, TimeoutSet(timeout), Apply(c, s, cmd), w);
  }

  /** Every run extends the log it started with. */
  lemma {:induction false} RunOnward(c: Config, s: State, cmds: seq<Command>)
    ensures s.log <= Run(c, s, cmds).log
  {
    hide Apply;
    if cmds != [] {
      RunOnward(c, s, cmds[..|cmds| - 1]);
      ApplyOnward(c, Run(c, s, cmds[..|cmds| - 1]), cmds[|cmds| - 1]);
    }
  }
}
