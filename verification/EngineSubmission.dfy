/** What becomes of a submitted call (src/engine/mod.rs, `call_with`): which are stored, which fail on
    the spot and why, and which outlast an outage. */
module EngineSubmission {
  import opened Basics
  import opened Messages
  import opened Queue
  import opened Monitor
  import opened EngineModel
  import opened EngineHistory

  /** What is refused outright, and why: while the engine drains, everything; else what the version does not
      define, and what the other side alone may originate. Nothing else is. */
  lemma RefusedIff(c: Config, s: State, now: Instant, action: Action, payload: Payload, options: CallOptions)
    ensures var why := Refuse(c, Advance(s, now), action);
            && (why == Some(ShuttingDown) <==> s.draining.Some?)
            && (why == Some(UnknownAction) <==> s.draining.None? && (s.version, action) !in c.known)
            && (why == Some(NotOurs) <==>
                  && s.draining.None? && (s.version, action) in c.known
                  && c.known[(s.version, action)] == if c.role == ChargingStation then FromCsms else FromStation)
            && why in {None, Some(ShuttingDown), Some(UnknownAction), Some(NotOurs)}
            && (why.Some? ==> CallWith(c, s, now, action, payload, options) == Advance(s, now))
  {
    hide Submit;
  }

  /** The call issued at `i` is told at once that it failed. */
  predicate FailsAt(log: seq<Event>, i: nat, why: Failure)
  {
    i + 1 < |log| && log[i].Issued? && log[i + 1] == Outcome(log[i].token, None, log[i].call.action, Err(why))
  }

  /** The submission that takes `s` to `r` issues the call at `i` and no other; whether the call outlasts
      an outage, is stored, or fails on the spot is decided by its options, its action and the engine's
      room, each exactly as stated. */
  ghost predicate Submits(c: Config, s: State, r: State, i: nat, action: Action, payload: Payload, options: CallOptions)
  {
    && s.log <= r.log && |s.log| <= i < |r.log| && r.log[i].Issued? && r.log[i].token == s.nextToken
    && (forall k :: |s.log| <= k < |r.log| && r.log[k].Issued? ==> k == i)
    && var call, keep, stored := r.log[i].call, r.log[i].keep, r.log[i].stored;
       var related := action in (if s.version == V16 then {StartTransaction, StopTransaction, MeterValues}
                                 else {TransactionEvent});
       var persist := options.persist == Some(true) || (options.persist.None? && related);
       var full := |s.queue| >= c.maxQueued || (persist && Full(s.store));
       && call.action == action && call.payload == payload && call.attempts == 0
       && Some(call.kind) == KindOf(c.known, s.version, action) && call.transactional == related
       && r.log[i].triggered == options.triggered
       && (keep <==> options.queueWhenOffline == Some(true)
                     || (options.queueWhenOffline.None? && (related || c.queueAllMessages)))
       && (stored.Some? <==> persist && !SortFrom(r.log, |s.log|, Failing))
       && (FailsAt(r.log, i, Failure.Disconnected) <==> !s.connected && !keep)
       && (FailsAt(r.log, i, QueueFull) <==> (s.connected || keep) && full)
       && (SortFrom(r.log, |s.log|, Failing) <==> (!s.connected && !keep) || full)
       && (stored.Some? ==> stored == Some(s.store.nextSeq))
  }

  /** Every call that is not refused is submitted so. */
  lemma CallSubmits(c: Config, s: State, now: Instant, action: Action, payload: Payload, options: CallOptions)
    requires Refuse(c, Advance(s, now), action).None?
    ensures exists i: nat :: Submits(c, s, CallWith(c, s, now, action, payload, options), i, action, payload, options)
  {
    hide Submits, Submit;
    var i := SubmitIssues(c, Advance(s, now), action, payload, options);
    SameSubmission(c, s, now, CallWith(c, s, now, action, payload, options), i, action, payload, options);
  }

  lemma SameSubmission(c: Config, s: State, now: Instant, r: State, i: nat, action: Action, payload: Payload,
                       options: CallOptions)
    requires Submits(c, Advance(s, now), r, i, action, payload, options)
    ensures Submits(c, s, r, i, action, payload, options)
  {
  }

  lemma SubmitIssues(c: Config, s: State, action: Action, payload: Payload, options: CallOptions) returns (i: nat)
    requires Refuse(c, s, action).None?
    ensures Submits(c, s, Submit(c, s, action, payload, options), i, action, payload, options)
  {
    hide Pump, RememberSolicited, Full, IsTransactionRelated, KindOf, Refuse, Submits;
    var call := SubmittedCall(c, s, action, payload);
    var persist := if options.persist.Some? then options.persist.value else call.transactional;
    var keep := if options.queueWhenOffline.Some? then options.queueWhenOffline.value
                else call.transactional || c.queueAllMessages;
    var r := Submit(c, s, action, payload, options);
    if !s.connected && !keep {
      i := |s.log|;
      FailedSubmission(c, s, s, r, action, payload, options, Failure.Disconnected);
    } else if |s.queue| >= c.maxQueued {
      i := |s.log|;
      FailedSubmission(c, s, s, r, action, payload, options, QueueFull);
    } else if persist && Full(s.store) {
      i := |s.log| + 1;
      FailedSubmission(c, s, Complain(s, StoreFailure), r, action, payload, options, QueueFull);
    } else {
      i := |s.log|;
      var s1 := Enqueue(s, call, persist, options.triggered, keep);
      var s2 := if c.role == Csms then RememberSolicited(s1, action, payload) else s1;
      SolicitedSame(s1, action, payload);
      PumpOnward(c, s2, {Ordinary});
      QueuedSubmission(c, s, s2, r, action, payload, options);
    }
  }

  lemma SolicitedSame(s: State, action: Action, payload: Payload)
    ensures RememberSolicited(s, action, payload).log == s.log
  {
  }

  lemma FailedSubmission(c: Config, s: State, t: State, r: State, action: Action, payload: Payload, options: CallOptions,
                         why: Failure)
    requires Refuse(c, s, action).None?
    requires var call := SubmittedCall(c, s, action, payload);
             var persist := if options.persist.Some? then options.persist.value else call.transactional;
             var keep := if options.queueWhenOffline.Some? then options.queueWhenOffline.value
                         else call.transactional || c.queueAllMessages;
             && (t == s || t == Complain(s, StoreFailure))
             && r == FailNow(t, call, options.triggered, keep, why)
             && (why == Failure.Disconnected || why == QueueFull)
             && (why == Failure.Disconnected <==> !s.connected && !keep)
             && (why == QueueFull ==> |s.queue| >= c.maxQueued || (persist && Full(s.store)))
    ensures Submits(c, s, r, |t.log|, action, payload, options)
  {
    hide Full, KindOf;
    var n := |t.log|;
    assert r.log[n].Issued? && SortOf(r.log[n + 1]) == Failing;
    assert t.log == s.log || t.log == s.log + [Noted(Violated(StoreFailure))];
  }

  lemma QueuedSubmission(c: Config, s: State, t: State, r: State, action: Action, payload: Payload, options: CallOptions)
    requires Refuse(c, s, action).None?
    requires var call := SubmittedCall(c, s, action, payload);
             var persist := if options.persist.Some? then options.persist.value else call.transactional;
             var keep := if options.queueWhenOffline.Some? then options.queueWhenOffline.value
                         else call.transactional || c.queueAllMessages;
             && (s.connected || keep) && |s.queue| < c.maxQueued && !(persist && Full(s.store))
             && t.log == s.log + [Issued(s.nextToken, call, options.triggered,
                                         if persist then Some(s.store.nextSeq) else None, keep)]
    requires Onward(t, r, {Ordinary})
    ensures Submits(c, s, r, |s.log|, action, payload, options)
  {
    hide Full, KindOf;
    var n := |s.log|;
    assert r.log[n] == t.log[n];
    forall k | n < k < |r.log|
      ensures SortOf(r.log[k]) == Ordinary
    {
    }
  }
}
