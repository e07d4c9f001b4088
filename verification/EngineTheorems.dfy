/** What the engine guarantees over whole runs.

    A run starts from `WithStore` on a sound store and applies any sequence of commands, with any
    clock readings, frames, disconnections, cancellations and shutdowns in any order. */
module EngineTheorems {
  import opened Basics
  import opened Messages
  import opened MessageIds
  import opened Queue
  import opened Monitor
  import opened Traces
  import opened EngineModel
  import opened EngineInvariant
  import opened EngineSafety

  ghost function Final(c: Config, version: Version, store: Store, cmds: seq<Command>): (r: State)
  {
    Run(c, WithStore(c, version, store), cmds)
  }

  /** Every run's log is accepted by the monitor. */
  lemma LogAccepted(c: Config, version: Version, store: Store, cmds: seq<Command>)
    requires Sound(store)
    ensures Accepts(c, Final(c, version, store, cmds).log)
  {
    hide Rel, Accepts, Run, WithStore;
    RunKeeps(c, version, store, cmds);
  }

  // -- chronological delivery ---------------------------------------------------------------

  /** When a transaction message is put on the wire, every transaction message issued before it
      already has its outcome. */
  lemma TransactionsInOrder(c: Config, version: Version, store: Store, cmds: seq<Command>)
    requires Sound(store)
    ensures var log := Final(c, version, store, cmds).log;
            forall j, h, i :: 0 <= j < h < i < |log| && log[j].Issued? && log[h].Issued? && IsWire(log[i], log[h].token)
                              && log[j].call.transactional && log[h].call.transactional
                              ==> exists k :: 0 <= k < i && IsOutcome(log[k], log[j].token)
  {
    hide Final;
    LogAccepted(c, version, store, cmds);
    var log := Final(c, version, store, cmds).log;
    forall j, h, i | 0 <= j < h < i < |log| && log[j].Issued? && log[h].Issued? && IsWire(log[i], log[h].token)
                     && log[j].call.transactional && log[h].call.transactional
      ensures exists k :: 0 <= k < i && IsOutcome(log[k], log[j].token)
    {
      var k := EarlierIsOver(c, log, j, h, i);
    }
  }

  lemma EarlierIsOver(c: Config, log: seq<Event>, j: nat, h: nat, i: nat) returns (k: nat)
    requires Accepts(c, log) && j < h < i < |log| && log[j].Issued? && log[h].Issued? && IsWire(log[i], log[h].token)
    requires log[j].call.transactional && log[h].call.transactional
    ensures k < i && IsOutcome(log[k], log[j].token)
  {
    var before := log[..i];
    AcceptsAt(c, log, i);
    IssuedKept(c, before, j);
    IssuedKept(c, before, h);
    IssueOrder(c, log, j, h);
    FinishedOnce(c, before, log[j].token);
    k := OutcomeSomewhere(before, log[j].token);
  }

  lemma IssueOrder(c: Config, log: seq<Event>, j: nat, h: nat)
    requires Accepts(c, log) && j < h < |log| && log[j].Issued? && log[h].Issued?
    ensures log[j].token < log[h].token
  {
    AcceptsAt(c, log, h);
    IssuedKept(c, log[..h], j);
  }

  // -- conservation -------------------------------------------------------------------------

  function InQueue(queue: seq<Waiting>, t: Token): (r: nat)
  {
    if queue == [] then 0 else InQueue(queue[1..], t) + if queue[0].token == t then 1 else 0
  }

  function InSlot(f: Option<InFlight>, t: Token): (r: nat)
  {
    if f.Some? && f.value.entry.token == t then 1 else 0
  }

  /** Every token handed out is in exactly one of the queue, the slot and the outcomes, and
      there exactly once. */
  lemma CallsConserved(c: Config, version: Version, store: Store, cmds: seq<Command>, t: Token)
    requires Sound(store)
    ensures var s := Final(c, version, store, cmds);
            InQueue(s.queue, t) + InSlot(s.inflight, t) + Outcomes(s.log, t) == if t < s.nextToken then 1 else 0
  {
    RunKeeps(c, version, store, cmds);
    var s := Final(c, version, store, cmds);
    FinishedOnce(c, s.log, t);
    QueueCount(s.queue, t);
    HeldTokensKnown(c, CoreOf(s), Watch(s.log), t);
  }

  lemma HeldTokensKnown(c: Config, k: Core, m: View, t: Token)
    requires Rel(c, k, {}, m)
    ensures t in Held(k, {}) <==> t < |m.calls| && !m.calls[t].finished
  {
    if t in Tokens(k.queue) {
      var i :| 0 <= i < |k.queue| && k.queue[i].token == t;
      assert Fits(m, k.queue[i]);
    }
  }

  lemma {:induction false} QueueCount(queue: seq<Waiting>, t: Token)
    requires forall i, j :: 0 <= i < j < |queue| ==> queue[i].token != queue[j].token
    ensures InQueue(queue, t) == if t in Tokens(queue) then 1 else 0
  {
    if queue != [] {
      assert queue == [queue[0]] + queue[1..];
      TokensAppend(queue[1..], queue[0]);
      QueueCount(queue[1..], t);
      assert forall i :: 0 <= i < |queue[1..]| ==> queue[1..][i] == queue[i + 1];
      assert queue[0].token !in Tokens(queue[1..]);
    }
  }

  /** A drained close is reported only once every call issued before it has its outcome. */
  lemma DrainedMeansAllOver(c: Config, version: Version, store: Store, cmds: seq<Command>)
    requires Sound(store)
    ensures var log := Final(c, version, store, cmds).log;
            forall i, j :: 0 <= j < i < |log| && log[i].Closed? && log[i].reason == Drained && log[j].Issued?
                           ==> exists k :: 0 <= k < i && IsOutcome(log[k], log[j].token)
  {
    hide Final;
    LogAccepted(c, version, store, cmds);
    var log := Final(c, version, store, cmds).log;
    forall i, j | 0 <= j < i < |log| && log[i].Closed? && log[i].reason == Drained && log[j].Issued?
      ensures exists k :: 0 <= k < i && IsOutcome(log[k], log[j].token)
    {
      AcceptsAt(c, log, i);
      IssuedKept(c, log[..i], j);
      FinishedOnce(c, log[..i], log[j].token);
      var k := OutcomeSomewhere(log[..i], log[j].token);
    }
  }

  // -- retries ------------------------------------------------------------------------------

  /** A transaction message is transmitted at most max(1, attempts) times, any other message at
      most once; a restored message starts from the attempts on record. */
  lemma TransmissionsBounded(c: Config, version: Version, store: Store, cmds: seq<Command>)
    requires Sound(store)
    ensures var log := Final(c, version, store, cmds).log;
            forall j :: 0 <= j < |log| && log[j].Issued? ==>
              var sent := Wires(log, log[j].token);
              sent <= 1 || (log[j].call.transactional && log[j].call.attempts + sent <= c.retry.attempts)
  {
    hide Final;
    LogAccepted(c, version, store, cmds);
    var log := Final(c, version, store, cmds).log;
    forall j | 0 <= j < |log| && log[j].Issued?
      ensures var sent := Wires(log, log[j].token);
              sent <= 1 || (log[j].call.transactional && log[j].call.attempts + sent <= c.retry.attempts)
    {
      IssuedKept(c, log, j);
      WiresBounded(c, log, log[j].token);
    }
  }

  /** The transmission at `i` repeats one that was lost at `j`, after the delay due by then. */
  ghost predicate RetriesLoss(c: Config, log: seq<Event>, j: nat, i: nat)
  {
    && j < i < |log| && log[i].Wire? && log[i].attempt > 0 && IsLoss(log[j], log[i].token)
    && (forall k :: j < k < i ==> !IsWire(log[k], log[i].token))
    && log[i].at >= SaturatingAdd(log[j].at, c.retry.interval * (log[i].attempt - 1))
  }

  /** A transmission that repeats an earlier one of the same run follows the loss of the one before it,
      by the retry interval times the number of transmissions made; and no other transmission does. */
  lemma RetriesWait(c: Config, version: Version, store: Store, cmds: seq<Command>)
    requires Sound(store)
    ensures var log := Final(c, version, store, cmds).log;
            forall i :: 0 <= i < |log| && log[i].Wire? ==>
              (Wires(log[..i], log[i].token) > 0 <==> exists j: nat :: RetriesLoss(c, log, j, i))
  {
    hide Final;
    LogAccepted(c, version, store, cmds);
    var log := Final(c, version, store, cmds).log;
    forall i | 0 <= i < |log| && log[i].Wire?
      ensures Wires(log[..i], log[i].token) > 0 <==> exists j: nat :: RetriesLoss(c, log, j, i)
    {
      if Wires(log[..i], log[i].token) > 0 {
        var j := LossRetried(c, log, i);
      }
      if j: nat :| RetriesLoss(c, log, j, i) {
        LossOfWire(c, log, j, i);
      }
    }
  }

  /** What is lost was transmitted in this run. */
  lemma LossOfWire(c: Config, log: seq<Event>, j: nat, i: nat)
    requires Accepts(c, log) && RetriesLoss(c, log, j, i)
    ensures Wires(log[..i], log[i].token) > 0
  {
    hide Accepts, Watch, Next;
    AcceptsAt(c, log, j);
    var a := SlotWire(c, log[..j]);
    assert log[..i][a] == log[..j][a];
    WireCounted(log[..i], log[i].token, a);
  }

  lemma {:induction false} WireCounted(log: seq<Event>, t: Token, a: nat)
    requires a < |log| && IsWire(log[a], t)
    ensures Wires(log, t) > 0
  {
    if a < |log| - 1 {
      WireCounted(log[..|log| - 1], t, a);
    }
  }

  lemma LossRetried(c: Config, log: seq<Event>, i: nat) returns (j: nat)
    requires Accepts(c, log) && i < |log| && log[i].Wire? && Wires(log[..i], log[i].token) > 0
    ensures RetriesLoss(c, log, j, i)
  {
    hide Next;
    var t := log[i].token;
    AcceptsAt(c, log, i);
    AttemptsCount(c, log[..i], t);
    j := LossSomewhere(c, log[..i], t);
    assert forall k :: j <= k < i ==> log[..i][k] == log[k];
  }

  /** The transmission at `i` carries what was submitted at `j`, numbered by the transmissions
      before it. */
  ghost predicate CarriesSubmission(log: seq<Event>, j: nat, i: nat)
  {
    && j < i < |log| && log[j].Issued? && log[i].Wire?
    && log[i].action == log[j].call.action && log[i].payload == log[j].call.payload
    && log[i].kind == log[j].call.kind
    && log[i].attempt == log[j].call.attempts + Wires(log[..i], log[j].token) + 1
  }

  /** What is transmitted is what was submitted, every time. */
  lemma TransmittedAsSubmitted(c: Config, version: Version, store: Store, cmds: seq<Command>)
    requires Sound(store)
    ensures var log := Final(c, version, store, cmds).log;
            forall j, i :: 0 <= j < i < |log| && log[j].Issued? && IsWire(log[i], log[j].token)
                           ==> CarriesSubmission(log, j, i)
  {
    hide Final;
    LogAccepted(c, version, store, cmds);
    var log := Final(c, version, store, cmds).log;
    forall j, i | 0 <= j < i < |log| && log[j].Issued? && IsWire(log[i], log[j].token)
      ensures CarriesSubmission(log, j, i)
    {
      WireAsIssued(c, log, j, i);
    }
  }

  lemma WireAsIssued(c: Config, log: seq<Event>, j: nat, i: nat)
    requires Accepts(c, log) && j < i < |log| && log[j].Issued? && IsWire(log[i], log[j].token)
    ensures CarriesSubmission(log, j, i)
  {
    hide Next;
    AcceptsAt(c, log, i);
    assert log[..i][j] == log[j];
    IssuedKept(c, log[..i], j);
    AttemptsCount(c, log[..i], log[j].token);
  }

  // -- the boot gate ------------------------------------------------------------------------

  /** Why a message may leave a gated station at position `i`: some `BootNotification` of this
      engine, transmitted at `a`, was answered at `f` with the status Accepted, which became the
      boot state at `j`, and no boot event since has taken that back. */
  ghost predicate AcceptedBefore(log: seq<Event>, a: nat, f: nat, j: nat, i: nat)
  {
    && a < f < j < i <= |log|
    && IsCallWire(log[a]) && log[a].action == BootNotification
    && log[f].Freed? && log[f].token == log[a].token && log[f].id == log[a].id
    && log[f].cause.ByAnswer? && SaysBoot(log[f].cause.payload, Accepted)
    && log[j] == BootVerdict(Accepted)
    && forall k :: j < k < i ==> !IsBootEvent(log[k])
  }

  /** Nothing but `BootNotification` and triggered messages leaves a station that has not been
      accepted, or whose acceptance has since been withdrawn. */
  lemma BootGateHolds(c: Config, version: Version, store: Store, cmds: seq<Command>)
    requires Sound(store) && Gated(c)
    ensures var log := Final(c, version, store, cmds).log;
            forall h, i :: 0 <= h < i < |log| && log[h].Issued? && IsWire(log[i], log[h].token)
                           && log[i].action != BootNotification && !log[h].triggered
                           ==> exists a: nat, f: nat, j: nat :: AcceptedBefore(log, a, f, j, i)
  {
    hide Final;
    LogAccepted(c, version, store, cmds);
    var log := Final(c, version, store, cmds).log;
    forall h, i | 0 <= h < i < |log| && log[h].Issued? && IsWire(log[i], log[h].token)
                  && log[i].action != BootNotification && !log[h].triggered
      ensures exists a: nat, f: nat, j: nat :: AcceptedBefore(log, a, f, j, i)
    {
      AcceptsAt(c, log, i);
      IssuedKept(c, log[..i], h);
      var a, f, j := AcceptanceTrail(c, log, i);
    }
  }

  lemma AcceptanceTrail(c: Config, log: seq<Event>, i: nat) returns (a: nat, f: nat, j: nat)
    requires Accepts(c, log) && i <= |log| && Accepts(c, log[..i]) && Watch(log[..i]).boot == Accepted
    ensures AcceptedBefore(log, a, f, j, i)
  {
    hide Next, Allowed;
    j := BootSomewhere(c, log[..i]);
    assert forall k :: j < k < i ==> log[..i][k] == log[k];
    assert log[j] == BootVerdict(Accepted);
    a, f := VerdictTrail(c, log, j);
  }

  lemma VerdictTrail(c: Config, log: seq<Event>, j: nat) returns (a: nat, f: nat)
    requires Accepts(c, log) && j < |log| && log[j].BootVerdict?
    ensures a < f < j
    ensures IsCallWire(log[a]) && log[a].action == BootNotification
    ensures log[f].Freed? && log[f].token == log[a].token && log[f].id == log[a].id
    ensures log[f].cause.ByAnswer? && SaysBoot(log[f].cause.payload, log[j].state)
  {
    AcceptsAt(c, log, j);
    f := AnsweringSomewhere(c, log[..j]);
    assert log[..j][..f] == log[..f];
    AcceptsAt(c, log, f);
    a := SlotWire(c, log[..f]);
    AcceptsAt(c, log, a);
    WireAction(c, log, a, f);
  }

  lemma WireAction(c: Config, log: seq<Event>, a: nat, f: nat)
    requires Accepts(c, log) && a < f < |log| && log[a].Wire?
    ensures log[a].token < |Watch(log[..f]).calls|
    ensures Watch(log[..f]).calls[log[a].token].call.action == log[a].action
  {
    AcceptsAt(c, log, a);
    AcceptsAt(c, log, f);
    var h := CallIssued(c, log[..a], log[a].token);
    IssuedKept(c, log[..a], h);
    assert log[..f][h] == log[h];
    IssuedKept(c, log[..f], h);
  }

  // -- one outstanding call, correlated by id -----------------------------------------------

  /** Between two transmitted calls the first one's slot was freed: by its answer, its timeout or
      a disconnection. */
  lemma OneOutstandingCall(c: Config, version: Version, store: Store, cmds: seq<Command>)
    requires Sound(store)
    ensures var log := Final(c, version, store, cmds).log;
            forall a, b :: 0 <= a < b < |log| && IsCallWire(log[a]) && IsCallWire(log[b]) ==>
              exists k :: a < k < b && log[k].Freed?
  {
    hide Final;
    LogAccepted(c, version, store, cmds);
    var log := Final(c, version, store, cmds).log;
    forall a, b | 0 <= a < b < |log| && IsCallWire(log[a]) && IsCallWire(log[b])
      ensures exists k :: a < k < b && log[k].Freed?
    {
      FreedBetween(c, log, a, b);
    }
  }

  lemma FreedBetween(c: Config, log: seq<Event>, a: nat, b: nat)
    requires Accepts(c, log) && a < b < |log| && IsCallWire(log[a]) && IsCallWire(log[b])
    ensures exists k :: a < k < b && log[k].Freed?
  {
    hide Accepts, Watch, Allowed, Next;
    AcceptsAt(c, log, b);
    SlotStep(c, Watch(log[..b]), log[b]);
    if forall k :: a < k < b ==> !log[k].Freed? {
      assert forall k :: a < k < b ==> log[..b][k] == log[k];
      SlotKept(c, log[..b], a);
      assert false;
    }
  }

  /** An answer frees the slot only for the transmission that was the latest when it arrived. */
  lemma AnswersMatchLatest(c: Config, version: Version, store: Store, cmds: seq<Command>)
    requires Sound(store)
    ensures var log := Final(c, version, store, cmds).log;
            forall f :: 0 <= f < |log| && log[f].Freed? ==>
              exists a :: 0 <= a < f && IsCallWire(log[a]) && log[a].token == log[f].token && log[a].id == log[f].id
                          && (forall k :: a < k < f ==> !IsCallWire(log[k]))
  {
    hide Final;
    LogAccepted(c, version, store, cmds);
    var log := Final(c, version, store, cmds).log;
    forall f | 0 <= f < |log| && log[f].Freed?
      ensures exists a :: 0 <= a < f && IsCallWire(log[a]) && log[a].token == log[f].token && log[a].id == log[f].id
                          && (forall k :: a < k < f ==> !IsCallWire(log[k]))
    {
      AcceptsAt(c, log, f);
      var a := SlotWire(c, log[..f]);
      assert log[..f][a] == log[a];
      assert forall k :: a < k < f ==> log[..f][k] == log[k];
    }
  }

  /** Below the counter's wrap, and with a prefix that leaves room for it, no id is used twice. */
  lemma IdsNeverRepeat(c: Config, version: Version, store: Store, cmds: seq<Command>)
    requires Sound(store) && |c.prefix| + BUFFER <= MESSAGE_ID_MAX_LEN
    requires Final(c, version, store, cmds).minted <= U64_LIMIT
    ensures var log := Final(c, version, store, cmds).log;
            forall a, b :: 0 <= a < b < |log| && log[a].Wire? && log[b].Wire? ==> log[a].id != log[b].id
  {
    hide Agrees, Apart, Covered, InOrder, StoreRel;
    RunKeeps(c, version, store, cmds);
    var s := Final(c, version, store, cmds);
    forall a, b | 0 <= a < b < |s.log| && s.log[a].Wire? && s.log[b].Wire?
      ensures s.log[a].id != s.log[b].id
    {
      WireIdsApart(c, s.log, a, b);
    }
  }

  lemma WireIdsApart(c: Config, log: seq<Event>, a: nat, b: nat)
    requires Accepts(c, log) && a < b < |log| && log[a].Wire? && log[b].Wire?
    requires |c.prefix| + BUFFER <= MESSAGE_ID_MAX_LEN && Watch(log).serial <= U64_LIMIT
    ensures log[a].id != log[b].id
  {
    hide Next, IdText;
    AcceptsAt(c, log, a);
    AcceptsAt(c, log, b);
    assert log[..b][a] == log[a];
    SerialsRise(c, log[..b], a);
    SerialsRise(c, log, b);
    ShortPrefixKeepsIdsApart(c.prefix, log[a].serial, log[b].serial);
  }

  /** A late answer, to any transmission but the latest, is reported and changes nothing else. */
  lemma LateAnswerIgnored(c: Config, version: Version, store: Store, cmds: seq<Command>, a: nat, payload: Payload)
    requires Sound(store) && |c.prefix| + BUFFER <= MESSAGE_ID_MAX_LEN
    requires Final(c, version, store, cmds).minted <= U64_LIMIT
    requires var log := Final(c, version, store, cmds).log;
             && a < |log| && IsCallWire(log[a])
             && exists k :: a < k < |log| && (IsCallWire(log[k]) || log[k].Freed?)
    ensures var s := Final(c, version, store, cmds);
            && OnCallResult(c, s, s.log[a].id, payload) == Complain(s, UnexpectedResponse(s.log[a].id))
            && OnCallError(c, s, s.log[a].id) == Complain(s, UnexpectedResponse(s.log[a].id))
  {
    var s := Final(c, version, store, cmds);
    RunKeeps(c, version, store, cmds);
    if s.inflight.Some? {
      var b := SlotWire(c, s.log);
      IdsNeverRepeat(c, version, store, cmds);
      assert a < b;
    }
  }

  // -- the peer's requests ------------------------------------------------------------------

  /** Every answer is to a request surfaced on the same connection and not answered since: so a
      request is answered at most once, and never after its connection ended. */
  lemma RequestsAnsweredOnce(c: Config, version: Version, store: Store, cmds: seq<Command>)
    requires Sound(store)
    ensures var log := Final(c, version, store, cmds).log;
            forall i :: 0 <= i < |log| && log[i].Answered? ==>
              exists k :: 0 <= k < i && log[k].Request? && log[k].kind == CALL && log[k].id == log[i].id
                          && (forall n :: k < n < i ==> !log[n].Linked? && !(log[n].Answered? && log[n].id == log[i].id))
  {
    hide Final;
    LogAccepted(c, version, store, cmds);
    var log := Final(c, version, store, cmds).log;
    forall i | 0 <= i < |log| && log[i].Answered?
      ensures exists k :: 0 <= k < i && log[k].Request? && log[k].kind == CALL && log[k].id == log[i].id
                          && (forall n :: k < n < i ==> !log[n].Linked? && !(log[n].Answered? && log[n].id == log[i].id))
    {
      AcceptsAt(c, log, i);
      var k := PeerSomewhere(c, log[..i], log[i].id);
      assert log[..i][k] == log[k];
      assert forall n :: k < n < i ==> log[..i][n] == log[n];
    }
  }

  /** The peer never has more than max(1, maxPeerRequests) requests outstanding. */
  lemma OutstandingRequestsBounded(c: Config, version: Version, store: Store, cmds: seq<Command>)
    requires Sound(store)
    ensures var peers := Final(c, version, store, cmds).peers;
            |peers| <= 1 || |peers| <= c.maxPeerRequests
  {
    RunKeeps(c, version, store, cmds);
    PeersBounded(c, Final(c, version, store, cmds).log);
  }
}
