/** How the engine reacts to its peer, request by request (src/engine/mod.rs): what it refuses and with which
    code, what it surfaces, what it answers, and what a CSMS lets through that it has asked for. */
module EngineReactions {
  import opened Basics
  import opened Messages
  import opened MessageIds
  import opened Queue
  import opened Monitor
  import opened EngineModel
  import opened EngineHistory

  /** The peer may originate this action, and this is the kind of message it is. */
  predicate Proper(c: Config, s: State, action: Action, kind: Kind)
  {
    && (s.version, action) in c.known && (kind == SEND <==> s.version == V21 && action == NotifyPeriodicEventStream)
    && c.known[(s.version, action)] != (if c.role == ChargingStation then FromStation else FromCsms)
  }

  /** One request too many: over the limit, or a second one where concurrent requests are refused. */
  predicate Crowded(c: Config, s: State)
  {
    s.peers != {} && (|s.peers| >= c.maxPeerRequests || c.rejectConcurrent)
  }

  /** A station that was told to wait, or turned away, and says something it was not asked. */
  predicate Unsolicited(c: Config, s: State, action: Action)
  {
    && c.role == Csms && c.enforceBootGate && s.boot in {BootState.Pending, BootState.Rejected}
    && action != BootNotification && action !in s.solicited
  }

  /** The log gains these complaints, then this event, then nothing but a timer. */
  predicate Gains(s: State, r: State, vs: seq<Violation>, e: Event)
  {
    var n := |s.log| + |vs|;
    && s.log <= r.log && n < |r.log| && r.log[n] == e
    && (forall k :: 0 <= k < |vs| ==> r.log[|s.log| + k] == Noted(Violated(vs[k])))
    && (forall k :: n < k < |r.log| ==> r.log[k].Noted? && r.log[k].note.SetTimer?)
  }

  /** The state with these complaints logged. */
  predicate Complained(s: State, t: State, vs: seq<Violation>)
  {
    && t == s.(log := t.log) && |t.log| == |s.log| + |vs| && s.log <= t.log
    && forall k :: 0 <= k < |vs| ==> t.log[|s.log| + k] == Noted(Violated(vs[k]))
  }

  /** What reacting leaves as it was, and what it does not. */
  predicate Reacted(c: Config, s: State, r: State, id: MessageId, action: Action, kind: Kind, surfaced: bool)
  {
    && r.peers == (if surfaced && kind == CALL then s.peers + {id} else s.peers)
    && r.boot == (if surfaced && c.role == Csms && action == BootNotification then Idle else s.boot)
    && r.solicited == s.solicited && r.queue == s.queue && r.inflight == s.inflight
  }

  lemma RefuseGains(c: Config, s: State, t: State, vs: seq<Violation>, id: MessageId, action: Action, code: ErrorCode)
    requires Complained(s, t, vs)
    ensures var r := RefuseRequest(c, t, id, CALL, code);
            Gains(s, r, vs, Refused(id, code)) && Reacted(c, s, r, id, action, CALL, false)
  {
  }

  lemma SurfaceGains(c: Config, s: State, t: State, vs: seq<Violation>, id: MessageId, action: Action, payload: Payload)
    requires Complained(s, t, vs)
    ensures var r := Surface(c, t, id, action, payload, CALL);
            if Unsolicited(c, s, action) then
              Gains(s, r, vs, Refused(id, SecurityError)) && Reacted(c, s, r, id, action, CALL, false)
            else Gains(s, r, vs, Request(id, action, payload, CALL)) && Reacted(c, s, r, id, action, CALL, true)
  {
    hide RefuseRequest;
    RefuseGains(c, s, t, vs, id, action, SecurityError);
  }

  /** What a `CALL` is answered with on the spot, where it is not surfaced: by its kind, its direction, its id,
      the requests open already, and, on a CSMS, what the station may say while it is not accepted. */
  predicate RefusedWith(c: Config, s: State, id: MessageId, action: Action, code: ErrorCode)
  {
    var known := (s.version, action) in c.known;
    var sendOnly := s.version == V21 && action == NotifyPeriodicEventStream;
    match code
    case NotImplemented => !known
    case ProtocolError => known && (sendOnly || (Proper(c, s, action, CALL) && id !in s.peers && Crowded(c, s)))
    case NotSupported => known && !sendOnly && !Proper(c, s, action, CALL)
    case RpcFrameworkError => Proper(c, s, action, CALL) && id in s.peers
    case SecurityError =>
      Proper(c, s, action, CALL) && id !in s.peers && !Crowded(c, s) && Unsolicited(c, s, action)
  }

  /** What is complained of to the application. */
  function Complaints(c: Config, s: State, id: MessageId, action: Action): (vs: seq<Violation>)
  {
    if RefusedWith(c, s, id, action, NotImplemented) then []
    else if s.version == V21 && action == NotifyPeriodicEventStream then [Violation.WrongMessageKind(action, CALL)]
    else if !Proper(c, s, action, CALL) then [Violation.WrongDirection(action)]
    else if id in s.peers then [DuplicateMessageId(id)]
    else if s.peers == {} then []
    else [ConcurrentCall(id)] + if |s.peers| >= c.maxPeerRequests then [TooManyPeerRequests(id)] else []
  }

  /** A `CALL` is refused with a code if and only if that code's condition holds, and surfaced if and only
      if none does; the state changes only where it is surfaced. */
  lemma CallReaction(c: Config, s: State, id: MessageId, action: Action, payload: Payload)
    ensures var r, vs := OnCall(c, s, id, action, payload, CALL), Complaints(c, s, id, action);
            && (forall code :: RefusedWith(c, s, id, action, code) ==>
                  Gains(s, r, vs, Refused(id, code)) && Reacted(c, s, r, id, action, CALL, false))
            && ((forall code :: !RefusedWith(c, s, id, action, code)) ==>
                  Gains(s, r, vs, Request(id, action, payload, CALL)) && Reacted(c, s, r, id, action, CALL, true))
  {
    hide Gains, RefuseRequest, Surface, Reacted, Unsolicited, Complained;
    ComplainedSome(s, id, action);
    var s1 := Complain(s, ConcurrentCall(id));
    if (s.version, action) !in c.known {
      RefuseGains(c, s, s, [], id, action, NotImplemented);
    } else if s.version == V21 && action == NotifyPeriodicEventStream {
      RefuseGains(c, s, Complain(s, Violation.WrongMessageKind(action, CALL)), [Violation.WrongMessageKind(action, CALL)],
                  id, action, ProtocolError);
    } else if !Proper(c, s, action, CALL) {
      RefuseGains(c, s, Complain(s, Violation.WrongDirection(action)), [Violation.WrongDirection(action)], id, action, NotSupported);
    } else if id in s.peers {
      RefuseGains(c, s, Complain(s, DuplicateMessageId(id)), [DuplicateMessageId(id)], id, action, RpcFrameworkError);
    } else if s.peers == {} {
      SurfaceGains(c, s, s, [], id, action, payload);
    } else if |s.peers| >= c.maxPeerRequests {
      RefuseGains(c, s, Complain(s1, TooManyPeerRequests(id)), [ConcurrentCall(id)] + [TooManyPeerRequests(id)],
                  id, action, ProtocolError);
    } else {
      assert [ConcurrentCall(id)] + [] == [ConcurrentCall(id)];
      RefuseGains(c, s, s1, [ConcurrentCall(id)], id, action, ProtocolError);
      SurfaceGains(c, s, s1, [ConcurrentCall(id)], id, action, payload);
    }
    RefusalsApart(c, s, id, action);
    UnrefusedIs(c, s, id, action);
  }

  lemma UnrefusedIs(c: Config, s: State, id: MessageId, action: Action)
    ensures (forall code :: !RefusedWith(c, s, id, action, code)) ==>
              && (s.version, action) in c.known && !(s.version == V21 && action == NotifyPeriodicEventStream)
              && Proper(c, s, action, CALL) && id !in s.peers && !Crowded(c, s) && !Unsolicited(c, s, action)
  {
    hide Unsolicited;
    if forall code :: !RefusedWith(c, s, id, action, code) {
      assert !RefusedWith(c, s, id, action, NotImplemented);
      assert !RefusedWith(c, s, id, action, ProtocolError);
      assert !RefusedWith(c, s, id, action, NotSupported);
      assert !RefusedWith(c, s, id, action, RpcFrameworkError);
      assert !RefusedWith(c, s, id, action, SecurityError);
    }
  }

  lemma ComplainedSome(s: State, id: MessageId, action: Action)
    ensures Complained(s, s, [])
    ensures forall v :: Complained(s, Complain(s, v), [v])
    ensures Complained(s, Complain(Complain(s, ConcurrentCall(id)), TooManyPeerRequests(id)),
                       [ConcurrentCall(id)] + [TooManyPeerRequests(id)])
  {
  }

  lemma RefusalsApart(c: Config, s: State, id: MessageId, action: Action)
    ensures forall a, b :: RefusedWith(c, s, id, action, a) && RefusedWith(c, s, id, action, b) ==> a == b
  {
  }

  // -- answers ------------------------------------------------------------------------------

  /** The verdict an answer gives a station, if it gives any. */
  function VerdictIn(payload: Payload): (r: Option<BootState>)
  {
    if payload.boot.None? || payload.boot.value.status == Some(Idle) then None else payload.boot.value.status
  }

  /** An answer goes out if and only if its request is open, which it then no longer is; and a CSMS takes the
      boot state from the verdict it gives. */
  lemma AnswerTells(c: Config, s: State, now: Instant, id: MessageId, reply: Reply)
    ensures var r := RespondTo(c, s, now, id, reply);
            && (id !in s.peers ==> r == Advance(s, now))
            && (id in s.peers ==>
                  && r.peers == s.peers - {id} && s.log <= r.log && SaysOnce(s, r, Answered(id, reply))
                  && r.boot == if c.role == Csms && reply.WithResult? && VerdictIn(reply.payload).Some?
                               then VerdictIn(reply.payload).value else s.boot)
  {
    hide ArmHeartbeat, ObserveBootAnswer;
    var s1 := Advance(s, now);
    if id in s.peers {
      var s2 := s1.(peers := s1.peers - {id});
      var s3 := if c.role == Csms && reply.WithResult? then ObserveBootAnswer(c, s2, reply.payload, true) else s2;
      if c.role == Csms && reply.WithResult? {
        VerdictGiven(c, s2, reply.payload);
      }
      AnswerLast(c, s, s3, id, reply);
    }
  }

  lemma VerdictGiven(c: Config, s: State, payload: Payload)
    ensures var r := ObserveBootAnswer(c, s, payload, true);
            && r.boot == (if VerdictIn(payload).Some? then VerdictIn(payload).value else s.boot) && r.peers == s.peers
            && (r.log == s.log || exists state :: r.log == s.log + [Noted(BootReport(state))])
  {
  }

  lemma AnswerLast(c: Config, s: State, t: State, id: MessageId, reply: Reply)
    requires t.log == s.log || exists state :: t.log == s.log + [Noted(BootReport(state))]
    ensures var r := Transmit(c, t, Answered(id, reply));
            && s.log <= r.log && SaysOnce(s, r, Answered(id, reply)) && r.boot == t.boot && r.peers == t.peers
  {
    var r := Transmit(c, t, Answered(id, reply));
    assert r.log[|t.log|] == Answered(id, reply);
  }

  /** Of the frames handed to the driver since, this is the only one. */
  ghost predicate SaysOnce(s: State, r: State, e: Event)
  {
    exists n :: |s.log| <= n < |r.log| && r.log[n] == e && forall k :: |s.log| <= k < |r.log| && k != n ==> r.log[k].Noted?
  }

  /** A frame that cannot be read is complained of, and answered if and only if its kind calls for it. */
  lemma UnreadableTells(c: Config, s: State, unknown: bool, reply: FrameReply, id: MessageId)
    ensures var r, t := OnReceived(c, s, Unreadable(unknown, reply, id)), ArmHeartbeat(c, s);
            var v := if unknown then UnknownMessageType else MalformedFrame;
            if reply == Ignore then r.log == t.log + [Noted(Violated(v))]
            else Gains(t, r, [v], Noted(ErrorFrame(id, reply == ReplyCallResultError)))
  {
  }

  /** A result is rejected if and only if the version has a message for that. */
  lemma RejectTells(c: Config, s: State, now: Instant, id: MessageId)
    ensures var r := RejectResultOf(c, s, now, id);
            if s.version == V21 then Gains(Advance(s, now), r, [], Noted(RejectResult(id))) else r == Advance(s, now)
  {
  }

  // -- what a CSMS has asked for ------------------------------------------------------------

  predicate Triggers(asked: Action) { asked == TriggerMessage || asked == ExtendedTriggerMessage }

  /** A request of the CSMS licenses this message of the station's: a trigger what it names, and a report or an
      update its notifications. */
  predicate Licenses(asked: Action, payload: Payload, a: Action)
  {
    || (Triggers(asked) && payload.requested == Some(a))
    || (Triggers(asked) && payload.requested == Some(SignChargePointCertificate) && a == SignCertificate)
    || Notifies(asked, a)
  }

  predicate Notifies(asked: Action, a: Action)
  {
    || ((asked == Other("GetBaseReport") || asked == Other("GetReport")) && a == Other("NotifyReport"))
    || (asked == Other("GetMonitoringReport") && a == Other("NotifyMonitoringReport"))
    || (asked == Other("CustomerInformation") && a == Other("NotifyCustomerInformation"))
    || (asked == Other("GetDisplayMessages") && a == Other("NotifyDisplayMessages"))
    || (asked == Other("GetChargingProfiles") && a == Other("ReportChargingProfiles"))
    || (asked == Other("GetDERControl") && a == Other("ReportDERControl"))
    || (asked == Other("GetLog") && a == Other("LogStatusNotification"))
    || ((asked == Other("UpdateFirmware") || asked == Other("SignedUpdateFirmware"))
        && (a == Other("FirmwareStatusNotification") || a == Other("SignedFirmwareStatusNotification")))
    || (asked == Other("PublishFirmware") && a == Other("PublishFirmwareStatusNotification"))
    || (asked == Other("GetDiagnostics") && a == Other("DiagnosticsStatusNotification"))
  }

  /** A CSMS remembers of what it has submitted exactly what that licenses, and forgets nothing. */
  lemma SolicitsIff(c: Config, s: State, action: Action, payload: Payload, options: CallOptions)
    requires Refuse(c, s, action).None?
    ensures var r := Submit(c, s, action, payload, options);
            forall a :: a in r.solicited <==>
              a in s.solicited
              || (c.role == Csms && SpotFailure(c, s, action, options).None? && Licenses(action, payload, a))
  {
    hide Pump, Full, IsTransactionRelated, KindOf, Licenses, FailNow, RememberSolicited, Refuse;
    var call := SubmittedCall(c, s, action, payload);
    var persist := if options.persist.Some? then options.persist.value else call.transactional;
    var keep := if options.queueWhenOffline.Some? then options.queueWhenOffline.value
                else call.transactional || c.queueAllMessages;
    FailSolicits(s, call, options.triggered, keep);
    if SpotFailure(c, s, action, options).None? {
      var s1 := Enqueue(s, call, persist, options.triggered, keep);
      RememberIff(s1, action, payload);
      PumpSolicits(c, if c.role == Csms then RememberSolicited(s1, action, payload) else s1);
    }
  }

  lemma FailSolicits(s: State, call: QueuedCall, triggered: bool, keep: bool)
    ensures forall why :: FailNow(s, call, triggered, keep, why).solicited == s.solicited
    ensures forall why :: FailNow(Complain(s, StoreFailure), call, triggered, keep, why).solicited == s.solicited
  {
  }

  lemma RememberIff(s: State, action: Action, payload: Payload)
    ensures forall a :: a in RememberSolicited(s, action, payload).solicited <==>
                        a in s.solicited || Licenses(action, payload, a)
  {
    hide Notifies, SolicitedBy;
    NotifiesIff(action);
  }

  const REQUESTS := ["GetBaseReport", "GetReport", "GetMonitoringReport", "CustomerInformation",
                     "GetDisplayMessages", "GetChargingProfiles", "GetDERControl", "GetLog",
                     "UpdateFirmware", "SignedUpdateFirmware", "PublishFirmware", "GetDiagnostics"]

  /** No two of them are spelled alike: their lengths differ, or their fourth letters. */
  lemma RequestsApart()
    ensures forall i, j :: 0 <= i < j < |REQUESTS| ==> REQUESTS[i] != REQUESTS[j]
  {
    assert |REQUESTS[0]| == 13 && REQUESTS[0][3] == 'B';
    assert |REQUESTS[1]| == 9 && REQUESTS[1][3] == 'R';
    assert |REQUESTS[2]| == 19 && REQUESTS[2][3] == 'M';
    assert |REQUESTS[3]| == 19 && REQUESTS[3][3] == 't';
    assert |REQUESTS[4]| == 18 && REQUESTS[4][3] == 'D';
    assert |REQUESTS[5]| == 19 && REQUESTS[5][3] == 'C';
    assert |REQUESTS[6]| == 13 && REQUESTS[6][3] == 'D';
    assert |REQUESTS[7]| == 6 && REQUESTS[7][3] == 'L';
    assert |REQUESTS[8]| == 14 && REQUESTS[8][3] == 'a';
    assert |REQUESTS[9]| == 20 && REQUESTS[9][3] == 'n';
    assert |REQUESTS[10]| == 15 && REQUESTS[10][3] == 'l';
    assert |REQUESTS[11]| == 14 && REQUESTS[11][3] == 'D';
  }

  lemma NotifiesIff(asked: Action)
    ensures forall a :: a in SolicitedBy(asked) <==> Notifies(asked, a)
  {
    hide SolicitedBy, Notifies;
    if asked.Other? {
      RequestsApart();
      NotifiesNamed(asked.name);
    } else {
      NotifiesNothing(asked);
    }
  }

  lemma NotifiesNothing(asked: Action)
    requires !asked.Other?
    ensures forall a :: a !in SolicitedBy(asked) && !Notifies(asked, a)
  {
  }

  lemma NotifiesNamed(name: string)
    requires forall i, j :: 0 <= i < j < |REQUESTS| ==> REQUESTS[i] != REQUESTS[j]
    ensures forall a :: a in SolicitedBy(Other(name)) <==> Notifies(Other(name), a)
  {
    hide SolicitedBy, Notifies;
    var i := if name in REQUESTS then IndexOf(name, 0) else |REQUESTS|;
    if i < 4 {
      NotifiesReports(name, i);
    } else if i < 8 {
      NotifiesLists(name, i);
    } else {
      NotifiesUpdates(name, i);
    }
  }

  lemma NotifiesReports(name: string, i: nat)
    requires forall j :: 0 <= j < |REQUESTS| && j != i ==> name != REQUESTS[j]
    requires i < 4 && name == REQUESTS[i]
    ensures forall a :: a in SolicitedBy(Other(name)) <==> Notifies(Other(name), a)
  {
  }

  lemma NotifiesLists(name: string, i: nat)
    requires forall j :: 0 <= j < |REQUESTS| && j != i ==> name != REQUESTS[j]
    requires 4 <= i < 8 && name == REQUESTS[i]
    ensures forall a :: a in SolicitedBy(Other(name)) <==> Notifies(Other(name), a)
  {
  }

  lemma NotifiesUpdates(name: string, i: nat)
    requires forall j :: 0 <= j < |REQUESTS| && j != i ==> name != REQUESTS[j]
    requires 8 <= i
    ensures forall a :: a in SolicitedBy(Other(name)) <==> Notifies(Other(name), a)
  {
  }

  function IndexOf(name: string, i: nat): (k: nat)
    requires i <= |REQUESTS| && name in REQUESTS[i..]
    ensures i <= k < |REQUESTS| && REQUESTS[k] == name
    decreases |REQUESTS| - i
  {
    if REQUESTS[i] == name then i else IndexOf(name, i + 1)
  }

  lemma {:induction false} PumpSolicits(c: Config, s: State)
    ensures Pump(c, s).solicited == s.solicited && PumpSends(c, s).solicited == s.solicited
    decreases |s.queue|
  {
    var i := FindEligible(c, s, SEND, 0);
    if i.Some? {
      PumpSolicits(c, SendOut(c, s, i.value));
    }
  }
}
