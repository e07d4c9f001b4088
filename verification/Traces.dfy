/** What acceptance by the monitor means for a whole log: statements about positions in it. */
module Traces {
  import opened Basics
  import opened Messages
  import opened MessageIds
  import opened Queue
  import opened Monitor

  predicate IsOutcome(e: Event, t: Token) { e.Outcome? && e.token == t }

  predicate IsWire(e: Event, t: Token) { e.Wire? && e.token == t }

  predicate IsLoss(e: Event, t: Token) { e.Freed? && e.token == t && !e.cause.ByAnswer? }

  predicate IsBootEvent(e: Event) { e.BootVerdict? || e.BootExpired? }

  predicate IsCallWire(e: Event) { e.Wire? && e.kind == CALL }

  function Outcomes(log: seq<Event>, t: Token): (r: nat)
  {
    if log == [] then 0
    else Outcomes(log[..|log| - 1], t) + if IsOutcome(log[|log| - 1], t) then 1 else 0
  }

  function Wires(log: seq<Event>, t: Token): (r: nat)
  {
    if log == [] then 0
    else Wires(log[..|log| - 1], t) + if IsWire(log[|log| - 1], t) then 1 else 0
  }

  /** The last event of an accepted log, on its own. */
  lemma Unroll(c: Config, log: seq<Event>)
    requires Accepts(c, log) && log != []
    ensures var n := |log| - 1;
            && Accepts(c, log[..n]) && Allowed(c, Watch(log[..n]), log[n])
            && Watch(log) == Next(Watch(log[..n]), log[n])
  {
    hide Allowed, Next;
  }

  lemma UnwatchedIsStart(log: seq<Event>)
    requires log == []
    ensures Watch(log) == START
  {
  }

  // -- what the view remembers --------------------------------------------------------------

  /** Calls are only ever added, and never un-finished. */
  lemma NextGrows(c: Config, m: View, e: Event)
    requires Allowed(c, m, e)
    ensures |m.calls| <= |Next(m, e).calls|
    ensures forall t :: 0 <= t < |m.calls| ==>
              var f, g := m.calls[t], Next(m, e).calls[t];
              f.call == g.call && f.triggered == g.triggered && f.stored == g.stored && f.keep == g.keep && (f.finished ==> g.finished)
  {
    hide Reports, TimerAllowed, Due, RecordedAs, EarlierTransactionsOver, SeqOf;
  }

  lemma IssueStep(c: Config, m: View, e: Event)
    requires Allowed(c, m, e)
    ensures |Next(m, e).calls| == |m.calls| + if e.Issued? then 1 else 0
    ensures e.Issued? ==>
              && e.token == |m.calls|
              && (var f := Next(m, e).calls[e.token];
                  && f.call == e.call && f.triggered == e.triggered && f.stored == e.stored && f.keep == e.keep
                  && !f.finished)
  {
    hide Reports, TimerAllowed, Due, RecordedAs, EarlierTransactionsOver, SeqOf;
  }

  lemma {:induction false} IssuedKept(c: Config, log: seq<Event>, j: nat)
    requires Accepts(c, log) && j < |log| && log[j].Issued?
    ensures var m := Watch(log);
            && log[j].token < |m.calls|
            && m.calls[log[j].token].call == log[j].call
            && m.calls[log[j].token].triggered == log[j].triggered
            && m.calls[log[j].token].stored == log[j].stored
            && m.calls[log[j].token].keep == log[j].keep
  {
    hide Allowed, Next, Accepts, Watch;
    var n := |log| - 1;
    Unroll(c, log);
    if j < n {
      IssuedKept(c, log[..n], j);
      NextGrows(c, Watch(log[..n]), log[n]);
    } else {
      IssueStep(c, Watch(log[..n]), log[n]);
    }
  }

  /** Every call the view knows was issued. */
  lemma {:induction false} CallIssued(c: Config, log: seq<Event>, t: Token) returns (j: nat)
    requires Accepts(c, log) && t < |Watch(log).calls|
    ensures j < |log| && log[j].Issued? && log[j].token == t
  {
    hide Allowed, Next, Accepts, Watch;
    if log == [] {
      UnwatchedIsStart(log);
      assert false;
    }
    var n := |log| - 1;
    Unroll(c, log);
    IssueStep(c, Watch(log[..n]), log[n]);
    if t < |Watch(log[..n]).calls| {
      j := CallIssued(c, log[..n], t);
    } else {
      j := n;
    }
  }

  /** A call is finished exactly when the log reports it, and it is reported once. */
  lemma {:induction false} FinishedOnce(c: Config, log: seq<Event>, t: Token)
    requires Accepts(c, log)
    ensures Outcomes(log, t) == if t < |Watch(log).calls| && Watch(log).calls[t].finished then 1 else 0
  {
    hide Allowed, Next, Accepts, Watch;
    if log == [] {
      UnwatchedIsStart(log);
    } else {
      Unroll(c, log);
      FinishedOnce(c, log[..|log| - 1], t);
      FinishStep(c, Watch(log[..|log| - 1]), log[|log| - 1], t);
    }
  }

  predicate IsOver(m: View, t: Token) { t < |m.calls| && m.calls[t].finished }

  lemma FinishStep(c: Config, m: View, e: Event, t: Token)
    requires Allowed(c, m, e)
    ensures IsOver(Next(m, e), t) <==> IsOver(m, t) || IsOutcome(e, t)
    ensures !(IsOver(m, t) && IsOutcome(e, t))
  {
    hide Reports, TimerAllowed, Due, RecordedAs, EarlierTransactionsOver, SeqOf;
  }

  lemma {:induction false} OutcomeSomewhere(log: seq<Event>, t: Token) returns (k: nat)
    requires Outcomes(log, t) > 0
    ensures k < |log| && IsOutcome(log[k], t)
  {
    var n := |log| - 1;
    if IsOutcome(log[n], t) {
      k := n;
    } else {
      k := OutcomeSomewhere(log[..n], t);
    }
  }

  /** Transmissions are counted, on top of the attempts a stored message came with. */
  lemma {:induction false} AttemptsCount(c: Config, log: seq<Event>, t: Token)
    requires Accepts(c, log)
    ensures t >= |Watch(log).calls| ==> Wires(log, t) == 0
    ensures t < |Watch(log).calls| ==>
              var f := Watch(log).calls[t];
              f.attempts == f.call.attempts + Wires(log, t)
  {
    hide Allowed, Next, Accepts, Watch;
    if log == [] {
      UnwatchedIsStart(log);
    } else {
      Unroll(c, log);
      AttemptsCount(c, log[..|log| - 1], t);
      AttemptStep(c, Watch(log[..|log| - 1]), log[|log| - 1], t);
    }
  }

  lemma AttemptStep(c: Config, m: View, e: Event, t: Token)
    requires Allowed(c, m, e)
    ensures t < |m.calls| ==>
              && t < |Next(m, e).calls| && Next(m, e).calls[t].call == m.calls[t].call
              && Next(m, e).calls[t].attempts == m.calls[t].attempts + if IsWire(e, t) then 1 else 0
    ensures t >= |m.calls| ==> !IsWire(e, t)
    ensures t >= |m.calls| && t < |Next(m, e).calls| ==> Next(m, e).calls[t].attempts == Next(m, e).calls[t].call.attempts
  {
    hide Reports, TimerAllowed, Due, RecordedAs, EarlierTransactionsOver, SeqOf;
  }

  /** No more transmissions than the retry policy allows, and one only for other messages. */
  lemma {:induction false} WiresBounded(c: Config, log: seq<Event>, t: Token)
    requires Accepts(c, log) && t < |Watch(log).calls|
    ensures var f := Watch(log).calls[t];
            && (Wires(log, t) <= 1 || (f.call.transactional && f.call.attempts + Wires(log, t) <= c.retry.attempts))
  {
    var n := |log| - 1;
    if t < |Watch(log[..n]).calls| {
      WiresBounded(c, log[..n], t);
      NextGrows(c, Watch(log[..n]), log[n]);
      AttemptsCount(c, log[..n], t);
    } else {
      AttemptsCount(c, log[..n], t);
    }
  }

  /** A recorded loss is the latest one, with no transmission after it. */
  lemma {:induction false} LossSomewhere(c: Config, log: seq<Event>, t: Token) returns (j: nat)
    requires Accepts(c, log) && t < |Watch(log).calls| && Watch(log).calls[t].lostAt.Some?
    ensures j < |log| && IsLoss(log[j], t) && Watch(log).calls[t].lostAt == Some(log[j].at)
    ensures forall k :: j < k < |log| ==> !IsWire(log[k], t)
  {
    hide Allowed, Next, Accepts, Watch, IsLoss, IsWire;
    if log == [] {
      UnwatchedIsStart(log);
      assert false;
    }
    var n := |log| - 1;
    Unroll(c, log);
    LossStep(c, Watch(log[..n]), log[n], t);
    if IsLoss(log[n], t) {
      j := n;
    } else {
      j := LossSomewhere(c, log[..n], t);
    }
  }

  lemma LossStep(c: Config, m: View, e: Event, t: Token)
    requires Allowed(c, m, e) && t < |Next(m, e).calls| && Next(m, e).calls[t].lostAt.Some?
    ensures IsLoss(e, t) ==> Next(m, e).calls[t].lostAt == Some(e.at)
    ensures !IsLoss(e, t) ==> t < |m.calls| && m.calls[t].lostAt == Next(m, e).calls[t].lostAt && !IsWire(e, t)
  {
    hide Reports, TimerAllowed, Due, RecordedAs, EarlierTransactionsOver, SeqOf;
  }

  /** The slot holds the latest call transmission. */
  lemma {:induction false} SlotWire(c: Config, log: seq<Event>) returns (a: nat)
    requires Accepts(c, log) && Watch(log).slot.Some?
    ensures a < |log| && IsCallWire(log[a])
    ensures Watch(log).slot == Some(Slot(log[a].token, log[a].id, log[a].deadline))
    ensures forall k :: a < k < |log| ==> !IsCallWire(log[k]) && !log[k].Freed?
  {
    hide Allowed, Next, Accepts, Watch;
    if log == [] {
      UnwatchedIsStart(log);
      assert false;
    }
    var n := |log| - 1;
    Unroll(c, log);
    SlotStep(c, Watch(log[..n]), log[n]);
    if IsCallWire(log[n]) {
      a := n;
    } else {
      a := SlotWire(c, log[..n]);
    }
  }

  lemma SlotStep(c: Config, m: View, e: Event)
    requires Allowed(c, m, e)
    ensures IsCallWire(e) ==> m.slot == None && Next(m, e).slot == Some(Slot(e.token, e.id, e.deadline))
    ensures !IsCallWire(e) && !e.Freed? ==> Next(m, e).slot == m.slot
    ensures e.Freed? ==> Next(m, e).slot == None
  {
    hide Reports, TimerAllowed, Due, RecordedAs, EarlierTransactionsOver, SeqOf;
  }

  /** A call transmission occupies the slot until it is freed. */
  lemma {:induction false} SlotKept(c: Config, log: seq<Event>, a: nat)
    requires Accepts(c, log) && a < |log| && IsCallWire(log[a])
    requires forall k :: a < k < |log| ==> !log[k].Freed?
    ensures Watch(log).slot == Some(Slot(log[a].token, log[a].id, log[a].deadline))
  {
    hide Allowed, Next, Accepts, Watch;
    var n := |log| - 1;
    Unroll(c, log);
    SlotStep(c, Watch(log[..n]), log[n]);
    if a < n {
      SlotKept(c, log[..n], a);
    }
  }

  /** The boot state is the latest boot event's. */
  lemma {:induction false} BootSomewhere(c: Config, log: seq<Event>) returns (j: nat)
    requires Accepts(c, log) && Watch(log).boot == Accepted
    ensures j < |log| && log[j] == BootVerdict(Accepted)
    ensures forall k :: j < k < |log| ==> !IsBootEvent(log[k])
  {
    hide Allowed, Next, Accepts, Watch;
    if log == [] {
      UnwatchedIsStart(log);
      assert false;
    }
    var n := |log| - 1;
    Unroll(c, log);
    BootStep(Watch(log[..n]), log[n]);
    if IsBootEvent(log[n]) {
      j := n;
    } else {
      j := BootSomewhere(c, log[..n]);
    }
  }

  lemma BootStep(m: View, e: Event)
    ensures Next(m, e).boot == if e.BootVerdict? then e.state else if e.BootExpired? then Idle else m.boot
  {
  }

  /** A verdict follows the answer to a call. */
  lemma {:induction false} AnsweringSomewhere(c: Config, log: seq<Event>) returns (k: nat)
    requires Accepts(c, log) && Watch(log).answering.Some?
    ensures k < |log| && log[k].Freed? && log[k].cause.ByAnswer?
    ensures log[k].token < |Watch(log[..k]).calls|
    ensures Watch(log).answering == Some(Answering(Watch(log[..k]).calls[log[k].token].call.action, log[k].cause.payload, log[k].at))
    ensures forall n :: k < n < |log| ==> !log[n].Freed?
  {
    hide Allowed, Next, Accepts, Watch;
    if log == [] {
      UnwatchedIsStart(log);
      assert false;
    }
    var n := |log| - 1;
    Unroll(c, log);
    AnswerStep(c, Watch(log[..n]), log[n]);
    if log[n].Freed? {
      k := n;
    } else {
      k := AnsweringSomewhere(c, log[..n]);
      assert log[..n][..k] == log[..k];
    }
  }

  lemma AnswerStep(c: Config, m: View, e: Event)
    requires Allowed(c, m, e)
    ensures !e.Freed? ==> Next(m, e).answering == m.answering
    ensures e.Freed? ==> e.token < |m.calls|
    ensures e.Freed? ==>
              Next(m, e).answering ==
              if e.cause.ByAnswer? then Some(Answering(m.calls[e.token].call.action, e.cause.payload, e.at)) else None
  {
    hide Reports, TimerAllowed, Due, RecordedAs, EarlierTransactionsOver, SeqOf;
  }

  /** Transmission serials rise. */
  lemma {:induction false} SerialsRise(c: Config, log: seq<Event>, a: nat)
    requires Accepts(c, log) && a < |log| && log[a].Wire?
    ensures log[a].serial < Watch(log).serial
  {
    hide Allowed, Next, Accepts, Watch;
    var n := |log| - 1;
    Unroll(c, log);
    SerialStep(c, Watch(log[..n]), log[n]);
    if a < n {
      SerialsRise(c, log[..n], a);
    }
  }

  lemma SerialStep(c: Config, m: View, e: Event)
    requires Allowed(c, m, e)
    ensures Next(m, e).serial == if e.Wire? then e.serial + 1 else m.serial
    ensures e.Wire? ==> e.serial >= m.serial
  {
    hide Reports, TimerAllowed, Due, RecordedAs, EarlierTransactionsOver, SeqOf;
  }

  /** An open peer request was surfaced on this connection and not answered since. */
  lemma {:induction false} PeerSomewhere(c: Config, log: seq<Event>, id: MessageId) returns (k: nat)
    requires Accepts(c, log) && id in Watch(log).peers
    ensures k < |log| && log[k].Request? && log[k].id == id && log[k].kind == CALL
    ensures forall i :: k < i < |log| ==> !log[i].Linked? && !(log[i].Answered? && log[i].id == id)
  {
    hide Allowed, Next, Accepts, Watch;
    if log == [] {
      UnwatchedIsStart(log);
      assert false;
    }
    var n := |log| - 1;
    Unroll(c, log);
    PeerStep(Watch(log[..n]), log[n], id);
    if log[n].Request? && log[n].id == id && log[n].kind == CALL {
      k := n;
    } else {
      k := PeerSomewhere(c, log[..n], id);
    }
  }

  lemma PeerStep(m: View, e: Event, id: MessageId)
    requires id in Next(m, e).peers
    ensures (e.Request? && e.id == id && e.kind == CALL) ||
            (id in m.peers && !e.Linked? && !(e.Answered? && e.id == id))
  {
  }

  lemma {:induction false} PeersBounded(c: Config, log: seq<Event>)
    requires Accepts(c, log)
    ensures |Watch(log).peers| <= 1 || |Watch(log).peers| <= c.maxPeerRequests
  {
    hide Allowed, Next, Accepts, Watch;
    if log == [] {
      UnwatchedIsStart(log);
    } else {
      var n := |log| - 1;
      Unroll(c, log);
      PeersBounded(c, log[..n]);
      PeerCountStep(c, Watch(log[..n]), log[n]);
    }
  }

  lemma PeerCountStep(c: Config, m: View, e: Event)
    requires Allowed(c, m, e)
    ensures |Next(m, e).peers| <= |m.peers| || |Next(m, e).peers| <= 1 || |Next(m, e).peers| <= c.maxPeerRequests
  {
    hide Reports, TimerAllowed, Due, RecordedAs, EarlierTransactionsOver, SeqOf;
    if e.Request? && e.kind == CALL {
      assert |m.peers + {e.id}| == |m.peers| + 1;
    } else if e.Answered? {
      assert |m.peers - {e.id}| == |m.peers| - 1;
    }
  }
}
