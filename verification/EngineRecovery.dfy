/** Durability: what the store holds at the end of a session, and what the next session finds. */
module EngineRecovery {
  import opened Basics
  import opened Messages
  import opened Queue
  import opened Monitor
  import opened Traces
  import opened EngineModel
  import opened EngineInvariant
  import opened EngineSafety
  import opened EngineTheorems

  /** The messages accepted into the store that no outcome in `full` has reported, oldest first. */
  function Undelivered(log: seq<Event>, full: seq<Event>): (r: seq<Event>)
    ensures forall i :: 0 <= i < |r| ==> r[i].Issued? && r[i].stored.Some?
  {
    if log == [] then []
    else
      var e := log[|log| - 1];
      Undelivered(log[..|log| - 1], full)
      + (if e.Issued? && e.stored.Some? && Outcomes(full, e.token) == 0 then [e] else [])
  }

  lemma {:induction false} UndeliveredMember(log: seq<Event>, full: seq<Event>, e: Event)
    ensures e in Undelivered(log, full) <==>
            e in log && e.Issued? && e.stored.Some? && Outcomes(full, e.token) == 0
  {
    if log != [] {
      var n := |log| - 1;
      UndeliveredMember(log[..n], full, e);
      assert log == log[..n] + [log[n]];
    }
  }

  ghost predicate Rising(u: seq<Event>, bound: nat)
  {
    && (forall i :: 0 <= i < |u| ==> u[i].Issued? && u[i].token < bound)
    && (forall i, j :: 0 <= i < j < |u| ==> u[i].token < u[j].token)
  }

  lemma {:induction false} UndeliveredRises(c: Config, log: seq<Event>, full: seq<Event>)
    requires Accepts(c, log)
    ensures Rising(Undelivered(log, full), |Watch(log).calls|)
  {
    if log != [] {
      var n := |log| - 1;
      UndeliveredRises(c, log[..n], full);
      RisingStep(c, Watch(log[..n]), log[n], Undelivered(log[..n], full));
    }
  }

  lemma RisingStep(c: Config, m: View, e: Event, u: seq<Event>)
    requires Allowed(c, m, e) && Rising(u, |m.calls|)
    ensures Rising(u, |Next(m, e).calls|)
    ensures e.Issued? ==> Rising(u + [e], |Next(m, e).calls|)
  {
  }

  /** Two rising lists with the same members are the same list. */
  lemma {:induction false} RisingUnique(a: seq<nat>, b: seq<nat>)
    requires forall i, j :: 0 <= i < j < |a| ==> a[i] < a[j]
    requires forall i, j :: 0 <= i < j < |b| ==> b[i] < b[j]
    requires forall x :: x in a <==> x in b
    ensures a == b
  {
    if a != [] {
      assert a[0] in b;
    }
    if b != [] {
      assert b[0] in a;
      assert a[|a| - 1] in b;
      var x, y := a[|a| - 1], b[|b| - 1];
      assert y in a;
      assert x == y;
      var a', b' := a[..|a| - 1], b[..|b| - 1];
      assert a == a' + [x] && b == b' + [y];
      forall z
        ensures z in a' <==> z in b'
      {
        assert z in a <==> z in a' || z == x;
        assert z in b <==> z in b' || z == x;
      }
      RisingUnique(a', b');
    }
  }

  ghost function TokensOf(u: seq<Event>): (r: seq<nat>)
    requires forall i :: 0 <= i < |u| ==> u[i].Issued?
  {
    seq<nat>(|u|, i requires 0 <= i < |u| => u[i].token)
  }

  ghost function BackedTokens(backed: seq<Backed>): (r: seq<nat>)
  {
    seq<nat>(|backed|, i requires 0 <= i < |backed| => backed[i].token)
  }

  /** At the end of any run the store holds, in order, exactly the messages that were accepted
      into it and have no outcome: one accepted message is never lost and never kept too long. */
  lemma StoreHoldsUndelivered(c: Config, version: Version, store: Store, cmds: seq<Command>)
    requires Sound(store)
    ensures var s := Final(c, version, store, cmds);
            var u := Undelivered(s.log, s.log);
            && |u| == |s.store.entries|
            && forall i :: 0 <= i < |u| ==>
                 u[i].stored == Some(s.store.entries[i].seqNo) && SameMessage(u[i].call, s.store.entries[i].call)
  {
    RunKeeps(c, version, store, cmds);
    var s := Final(c, version, store, cmds);
    var m, u := Watch(s.log), Undelivered(s.log, s.log);
    UndeliveredRises(c, s.log, s.log);
    forall t: nat
      ensures t in TokensOf(u) <==> t in BackedTokens(m.backed)
    {
      SameMembers(c, s, t);
    }
    RisingUnique(TokensOf(u), BackedTokens(m.backed));
    forall i | 0 <= i < |u|
      ensures u[i].stored == Some(s.store.entries[i].seqNo) && SameMessage(u[i].call, s.store.entries[i].call)
    {
      assert TokensOf(u)[i] == BackedTokens(m.backed)[i];
      EntryMatches(c, s, u[i], i);
    }
  }

  lemma EntryMatches(c: Config, s: State, e: Event, i: nat)
    requires Inv(c, s, {}) && e in Undelivered(s.log, s.log)
    requires i < |Watch(s.log).backed| && Watch(s.log).backed[i].token == e.token
    ensures i < |s.store.entries|
    ensures e.stored == Some(s.store.entries[i].seqNo) && SameMessage(e.call, s.store.entries[i].call)
  {
    hide Next, Allowed;
    var m := Watch(s.log);
    UndeliveredMember(s.log, s.log, e);
    var j :| 0 <= j < |s.log| && s.log[j] == e;
    IssuedKept(c, s.log, j);
    UnfinishedStored(c, CoreOf(s), m, e.token);
    BackedAt(m.backed, i);
  }

  lemma {:induction false} BackedAt(backed: seq<Backed>, i: nat)
    requires i < |backed|
    requires forall a, b :: 0 <= a < b < |backed| ==> backed[a].token < backed[b].token
    ensures SeqOf(backed, backed[i].token) == Some(backed[i].seqNo)
  {
    if i > 0 {
      assert backed[0].token < backed[i].token;
      BackedAt(backed[1..], i - 1);
    }
  }

  /** A call that is not over is still backed as it was when it was issued. */
  lemma UnfinishedStored(c: Config, k: Core, m: View, t: Token)
    requires Rel(c, k, {}, m) && t < |m.calls| && !m.calls[t].finished
    ensures m.calls[t].stored == SeqOf(m.backed, t)
  {
    assert t in Held(k, {});
    if t in Tokens(k.queue) {
      var i :| 0 <= i < |k.queue| && k.queue[i].token == t;
      assert Fits(m, k.queue[i]) && Ready(c, m, k.queue[i]);
    }
  }

  lemma SameMembers(c: Config, s: State, t: Token)
    requires Inv(c, s, {})
    ensures t in TokensOf(Undelivered(s.log, s.log)) <==> t in BackedTokens(Watch(s.log).backed)
  {
    hide Inv, Undelivered, Watch;
    if t in TokensOf(Undelivered(s.log, s.log)) {
      UndeliveredBacked(c, s, t);
    }
    if t in BackedTokens(Watch(s.log).backed) {
      BackedUndelivered(c, s, t);
    }
  }

  lemma UndeliveredBacked(c: Config, s: State, t: Token)
    requires Inv(c, s, {}) && t in TokensOf(Undelivered(s.log, s.log))
    ensures t in BackedTokens(Watch(s.log).backed)
  {
    hide Next, Allowed, Rel, Accepts, Watch;
    var m, u := Watch(s.log), Undelivered(s.log, s.log);
    var i :| 0 <= i < |u| && u[i].token == t;
    UndeliveredMember(s.log, s.log, u[i]);
    var j :| 0 <= j < |s.log| && s.log[j] == u[i];
    IssuedKept(c, s.log, j);
    FinishedOnce(c, s.log, t);
    UnfinishedStored(c, CoreOf(s), m, t);
    var b := SeqOfSome(m.backed, t);
    assert BackedTokens(m.backed)[b] == t;
  }

  lemma BackedUndelivered(c: Config, s: State, t: Token)
    requires Inv(c, s, {}) && t in BackedTokens(Watch(s.log).backed)
    ensures t in TokensOf(Undelivered(s.log, s.log))
  {
    hide Next, Allowed, Rel, Accepts, Watch;
    var m, u := Watch(s.log), Undelivered(s.log, s.log);
    var b :| 0 <= b < |m.backed| && m.backed[b].token == t;
    BackedUnfinished(c, CoreOf(s), m, b);
    var j := CallIssued(c, s.log, t);
    IssuedKept(c, s.log, j);
    FinishedOnce(c, s.log, t);
    UnfinishedStored(c, CoreOf(s), m, t);
    UndeliveredMember(s.log, s.log, s.log[j]);
    var i :| 0 <= i < |u| && u[i] == s.log[j];
    assert TokensOf(u)[i] == t;
  }

  lemma BackedUnfinished(c: Config, k: Core, m: View, b: nat)
    requires Rel(c, k, {}, m) && b < |m.backed|
    ensures m.backed[b].token < |m.calls| && !m.calls[m.backed[b].token].finished
    ensures SeqOf(m.backed, m.backed[b].token).Some?
  {
    SeqOfNone(m.backed, m.backed[b].token);
  }

  // -- restarts -----------------------------------------------------------------------------

  /** The rebuilt queue holds exactly the stored messages, in their order, each restorable under
      its own number; and the session's log opens by issuing them. */
  lemma {:induction false} RestartQueuesStored(c: Config, version: Version, store: Store, n: nat)
    requires n <= |store.entries|
    ensures var s := RestoreAll(Blank(c, version, store), n);
            && |s.queue| == n == |s.log| && s.nextToken == n && s.inflight.None?
            && forall i :: 0 <= i < n ==>
                 && s.queue[i].call == store.entries[i].call && s.queue[i].stored == Some(store.entries[i].seqNo)
                 && s.queue[i].queueWhenOffline && s.queue[i].notBefore == None
                 && s.log[i] == Issued(i, store.entries[i].call, false, Some(store.entries[i].seqNo), true)
  {
    hide Blank, Restore;
    BlankIsEmpty(c, version, store);
    if n > 0 {
      var s := RestoreAll(Blank(c, version, store), n - 1);
      RestartQueuesStored(c, version, store, n - 1);
      RestoredOne(s, store, n - 1);
    }
  }

  lemma BlankIsEmpty(c: Config, version: Version, store: Store)
    ensures var s := Blank(c, version, store);
            s.queue == [] && s.log == [] && s.nextToken == 0 && s.inflight.None? && s.store == store
  {
  }

  lemma RestoredOne(s: State, store: Store, n: nat)
    requires n < |store.entries| && |s.queue| == n == |s.log| && s.nextToken == n && s.inflight.None?
    requires forall i :: 0 <= i < n ==>
               && s.queue[i].call == store.entries[i].call && s.queue[i].stored == Some(store.entries[i].seqNo)
               && s.queue[i].queueWhenOffline && s.queue[i].notBefore == None
               && s.log[i] == Issued(i, store.entries[i].call, false, Some(store.entries[i].seqNo), true)
    ensures var r := Restore(s, store.entries[n]);
            && |r.queue| == n + 1 == |r.log| && r.nextToken == n + 1 && r.inflight.None?
            && forall i :: 0 <= i < n + 1 ==>
                 && r.queue[i].call == store.entries[i].call && r.queue[i].stored == Some(store.entries[i].seqNo)
                 && r.queue[i].queueWhenOffline && r.queue[i].notBefore == None
                 && r.log[i] == Issued(i, store.entries[i].call, false, Some(store.entries[i].seqNo), true)
  {
    var r := Restore(s, store.entries[n]);
    assert forall i :: 0 <= i < n ==> r.queue[i] == s.queue[i] && r.log[i] == s.log[i];
  }

  // -- the store at every moment ------------------------------------------------------------

  /** What one event does to the store: every operation on it is one event of the log. */
  function Stored(entries: seq<Entry>, e: Event): (r: seq<Entry>)
  {
    match e
    case Issued(_, call, _, Some(q), _) => entries + [Entry(q, call)]
    case Settled(_, Some(q)) => Without(entries, q)
    case Recorded(_, q, attempts) => WithAttempts(entries, q, attempts)
    case _ => entries
  }

  /** The store as the log tells it; a session's log opens by telling what it found. */
  function StoredBy(log: seq<Event>): (r: seq<Entry>)
  {
    if log == [] then [] else Stored(StoredBy(log[..|log| - 1]), log[|log| - 1])
  }

  function EntriesOf(backed: seq<Backed>): (r: seq<Entry>)
    ensures |r| == |backed|
    ensures forall i :: 0 <= i < |r| ==> r[i] == Entry(backed[i].seqNo, backed[i].call)
  {
    seq(|backed|, i requires 0 <= i < |backed| => Entry(backed[i].seqNo, backed[i].call))
  }

  /** Numbers and tokens rise along what is backed, and what is backed is a call that was issued. */
  ghost predicate Rises(m: View)
  {
    && (forall i, j :: 0 <= i < j < |m.backed| ==>
          m.backed[i].seqNo < m.backed[j].seqNo && m.backed[i].token < m.backed[j].token)
    && (forall i :: 0 <= i < |m.backed| ==>
          && m.backed[i].token < |m.calls| && m.backed[i].seqNo < m.nextSeq
          && SameMessage(m.calls[m.backed[i].token].call, m.backed[i].call)
          && m.calls[m.backed[i].token].stored == Some(m.backed[i].seqNo))
  }

  lemma {:induction false} BackedRises(c: Config, log: seq<Event>)
    requires Accepts(c, log)
    ensures Rises(Watch(log))
  {
    hide Accepts, Watch, Allowed, Next, Rises;
    if log == [] {
      UnwatchedIsStart(log);
      StartRises();
    } else {
      Unroll(c, log);
      BackedRises(c, log[..|log| - 1]);
      RisesStep(c, Watch(log[..|log| - 1]), log[|log| - 1]);
    }
  }

  lemma StartRises()
    ensures Rises(START)
  {
  }

  lemma RisesStep(c: Config, m: View, e: Event)
    requires Rises(m) && Allowed(c, m, e)
    ensures Rises(Next(m, e))
  {
    hide Rises;
    NextGrows(c, m, e);
    if e.Settled? {
      WithoutTokenRises(m, e.token);
    } else if e.Recorded? {
      RecordedRises(m, e.token, e.attempts);
    } else if e.Issued? {
      IssuedRises(c, m, e);
    } else {
      hide Next, Allowed;
      OtherStep(c, m, e);
      SameBackedRises(m, Next(m, e));
    }
  }

  /** Other events leave what is backed alone. */
  lemma OtherStep(c: Config, m: View, e: Event)
    requires Allowed(c, m, e) && !e.Settled? && !e.Recorded? && !e.Issued?
    ensures Next(m, e).backed == m.backed && Next(m, e).nextSeq >= m.nextSeq
  {
  }

  lemma SameBackedRises(m: View, n: View)
    requires Rises(m) && n.backed == m.backed && n.nextSeq >= m.nextSeq && |m.calls| <= |n.calls|
    requires forall t :: 0 <= t < |m.calls| ==> n.calls[t].call == m.calls[t].call && n.calls[t].stored == m.calls[t].stored
    ensures Rises(n)
  {
  }

  lemma RecordedRises(m: View, t: Token, attempts: nat)
    requires Rises(m)
    ensures Rises(m.(backed := WithRecorded(m.backed, t, attempts)))
  {
    hide Rises, WithRecorded;
    var r := WithRecorded(m.backed, t, attempts);
    forall i | 0 <= i < |r|
      ensures Alike(m.backed[i], r[i])
    {
    }
    AlikeRises(m, r);
  }

  /** The same message under the same number. */
  predicate Alike(a: Backed, b: Backed)
  {
    a.seqNo == b.seqNo && a.token == b.token && SameMessage(a.call, b.call)
  }

  lemma AlikeRises(m: View, r: seq<Backed>)
    requires Rises(m) && |r| == |m.backed| && forall i :: 0 <= i < |r| ==> Alike(m.backed[i], r[i])
    ensures Rises(m.(backed := r))
  {
  }

  lemma {:induction false} IssuedRises(c: Config, m: View, e: Event)
    requires Rises(m) && Allowed(c, m, e) && e.Issued?
    ensures Rises(Next(m, e))
  {
    hide Reports, TimerAllowed, ClockGiven, Due, RecordedAs, EarlierTransactionsOver, SeqOf;
    IssuedNumber(c, m, e);
    hide Allowed;
    var n := Next(m, e);
    assert forall t :: 0 <= t < |m.calls| ==> n.calls[t] == m.calls[t];
    assert forall i :: 0 <= i < |m.backed| ==> n.backed[i] == m.backed[i];
  }

  lemma IssuedNumber(c: Config, m: View, e: Event)
    requires Allowed(c, m, e) && e.Issued?
    ensures e.token == |m.calls| && (e.stored.Some? ==> e.stored.value >= m.nextSeq)
  {
  }

  lemma WithoutTokenRises(m: View, t: Token)
    requires Rises(m)
    ensures Rises(m.(backed := WithoutToken(m.backed, t)))
  {
    if SeqOf(m.backed, t).Some? {
      var i := SeqOfSome(m.backed, t);
      WithoutTokenAt(m.backed, i);
      RemovedRises(m, i);
    } else {
      WithoutTokenAbsent(m.backed, t);
    }
  }

  lemma RemovedRises(m: View, i: nat)
    requires Rises(m) && i < |m.backed|
    ensures Rises(m.(backed := RemoveAt(m.backed, i)))
  {
  }

  /** The fold over the log and the monitor's view of the store are one. */
  lemma {:induction false} StoredIsBacked(c: Config, log: seq<Event>)
    requires Accepts(c, log)
    ensures StoredBy(log) == EntriesOf(Watch(log).backed)
  {
    hide Accepts, Watch, Allowed, Next, Rises, Stored, EntriesOf;
    if log == [] {
      UnwatchedIsStart(log);
      assert EntriesOf([]) == [];
    } else {
      var n := |log| - 1;
      Unroll(c, log);
      StoredIsBacked(c, log[..n]);
      BackedRises(c, log[..n]);
      StoredStep(c, Watch(log[..n]), log[n]);
    }
  }

  lemma StoredStep(c: Config, m: View, e: Event)
    requires Rises(m) && Allowed(c, m, e)
    ensures Stored(EntriesOf(m.backed), e) == EntriesOf(Next(m, e).backed)
  {
    hide Rises, EntriesOf;
    if e.Settled? {
      SettledStep(m, e.token);
    } else if e.Recorded? {
      RecordedStep(m, e.token, e.seqNo, e.attempts);
    } else if e.Issued? {
      EntriesMore(m.backed, Backed(e.token, if e.stored.Some? then e.stored.value else 0, e.call));
    } else {
      hide Next, Allowed;
      OtherStep(c, m, e);
    }
  }

  lemma EntriesMore(backed: seq<Backed>, b: Backed)
    ensures EntriesOf(backed + [b]) == EntriesOf(backed) + [Entry(b.seqNo, b.call)]
  {
  }

  lemma RecordedStep(m: View, t: Token, q: Seq, attempts: nat)
    requires Rises(m) && SeqOf(m.backed, t) == Some(q)
    ensures WithAttempts(EntriesOf(m.backed), q, attempts) == EntriesOf(WithRecorded(m.backed, t, attempts))
  {
    var i := SeqOfSome(m.backed, t);
    var a := EntriesOf(m.backed);
    WithAttemptsAt(a, q, attempts);
    forall k | 0 <= k < |a|
      ensures (a[k].seqNo == q) == (m.backed[k].token == t)
    {
      assert k < i ==> m.backed[k].seqNo < m.backed[i].seqNo && m.backed[k].token < m.backed[i].token;
      assert i < k ==> m.backed[i].seqNo < m.backed[k].seqNo && m.backed[i].token < m.backed[k].token;
    }
  }

  lemma SettledStep(m: View, t: Token)
    requires Rises(m)
    ensures var q := SeqOf(m.backed, t);
            (if q.Some? then Without(EntriesOf(m.backed), q.value) else EntriesOf(m.backed)) ==
            EntriesOf(WithoutToken(m.backed, t))
  {
    if SeqOf(m.backed, t).Some? {
      var i := SeqOfSome(m.backed, t);
      WithoutTokenAt(m.backed, i);
      WithoutAt(EntriesOf(m.backed), i);
    } else {
      WithoutTokenAbsent(m.backed, t);
    }
  }

  /** At the end of every run the store is what the log tells. */
  lemma StoreIsTold(c: Config, version: Version, store: Store, cmds: seq<Command>)
    requires Sound(store)
    ensures var s := Final(c, version, store, cmds);
            s.store.entries == StoredBy(s.log)
  {
    hide Agrees, Apart, Covered, InOrder, Run, WithStore, Accepts;
    RunKeeps(c, version, store, cmds);
    StoredIsBacked(c, Final(c, version, store, cmds).log);
  }

  // -- every accepted message, at every moment ----------------------------------------------

  /** The message accepted at `j` was taken out of the store at `i`. */
  ghost predicate SettledAt(log: seq<Event>, j: nat, i: nat)
    requires j < |log| && log[j].Issued?
  {
    j < i < |log| && log[i] == Settled(log[j].token, log[j].stored)
  }

  ghost predicate IsSettled(log: seq<Event>, j: nat)
    requires j < |log| && log[j].Issued?
  {
    exists i: nat :: SettledAt(log, j, i)
  }

  /** The message accepted at `j` is in the store, under its number and with its contents. */
  ghost predicate IsStored(log: seq<Event>, j: nat)
    requires j < |log| && log[j].Issued? && log[j].stored.Some?
  {
    exists k :: 0 <= k < |StoredBy(log)| && StoredBy(log)[k].seqNo == log[j].stored.value
                && SameMessage(log[j].call, StoredBy(log)[k].call)
  }

  /** The view of it: backed until settled. */
  lemma {:induction false} BackedUntilSettled(c: Config, log: seq<Event>, j: nat)
    requires Accepts(c, log) && j < |log| && log[j].Issued? && log[j].stored.Some?
    ensures IsSettled(log, j) <==> SeqOf(Watch(log).backed, log[j].token) == None
    ensures !IsSettled(log, j) ==> SeqOf(Watch(log).backed, log[j].token) == log[j].stored
  {
    hide Accepts, Watch, Allowed, Next, SettledAt;
    var n := |log| - 1;
    Unroll(c, log);
    BackedRises(c, log[..n]);
    if j == n {
      NewlyBacked(c, Watch(log[..n]), log[n]);
      NothingAfter(log, j);
    } else {
      IssuedKept(c, log[..n], j);
      assert log[..n][j] == log[j];
      BackedUntilSettled(c, log[..n], j);
      SettledSooner(log, j);
      BackedStep(c, Watch(log[..n]), log[n], log[j].token);
    }
  }

  lemma NothingAfter(log: seq<Event>, j: nat)
    requires j == |log| - 1 && log[j].Issued?
    ensures !IsSettled(log, j)
  {
  }

  /** Settled by the end means settled before, or by the last event. */
  lemma SettledSooner(log: seq<Event>, j: nat)
    requires j < |log| - 1 && log[j].Issued?
    ensures log[..|log| - 1][j] == log[j]
    ensures IsSettled(log, j) <==>
            IsSettled(log[..|log| - 1], j) || log[|log| - 1] == Settled(log[j].token, log[j].stored)
  {
    var n := |log| - 1;
    var front := log[..n];
    if IsSettled(log, j) {
      var i: nat :| SettledAt(log, j, i);
      assert i < n ==> SettledAt(front, j, i);
    }
    if IsSettled(front, j) {
      var i: nat :| SettledAt(front, j, i);
      assert SettledAt(log, j, i);
    }
    if log[n] == Settled(log[j].token, log[j].stored) {
      assert SettledAt(log, j, n);
    }
  }

  lemma NewlyBacked(c: Config, m: View, e: Event)
    requires Rises(m) && Allowed(c, m, e) && e.Issued? && e.stored.Some?
    ensures SeqOf(Next(m, e).backed, e.token) == e.stored
  {
    SeqOfNone(m.backed, e.token);
    SeqOfAppend(m.backed, Backed(e.token, e.stored.value, e.call), e.token);
  }

  lemma BackedStep(c: Config, m: View, e: Event, t: Token)
    requires Rises(m) && Allowed(c, m, e) && t < |m.calls|
    ensures SeqOf(Next(m, e).backed, t) == if e.Settled? && e.token == t then None else SeqOf(m.backed, t)
    ensures e.Settled? && e.token == t ==> e.stored == SeqOf(m.backed, t)
  {
    if e.Settled? {
      SeqOfRemove(m.backed, e.token, t);
    } else if e.Recorded? {
      SeqOfRecorded(m.backed, e.token, e.attempts, t);
    } else if e.Issued? && e.stored.Some? {
      SeqOfNone(m.backed, e.token);
      SeqOfAppend(m.backed, Backed(e.token, e.stored.value, e.call), t);
    }
  }

  /** Numbers are given out once, in rising order. */
  lemma {:induction false} NumbersPassed(c: Config, log: seq<Event>, j: nat)
    requires Accepts(c, log) && j < |log| && log[j].Issued? && log[j].stored.Some?
    ensures log[j].stored.value < Watch(log).nextSeq
  {
    hide Accepts, Watch, Allowed, Next;
    var n := |log| - 1;
    Unroll(c, log);
    NumberStep(c, Watch(log[..n]), log[n]);
    if j < n {
      NumbersPassed(c, log[..n], j);
    }
  }

  lemma NumberStep(c: Config, m: View, e: Event)
    requires Allowed(c, m, e)
    ensures m.nextSeq <= Next(m, e).nextSeq
    ensures e.Issued? && e.stored.Some? ==> m.nextSeq <= e.stored.value < Next(m, e).nextSeq
  {
  }

  lemma NumbersRise(c: Config, log: seq<Event>, i: nat, j: nat)
    requires Accepts(c, log) && i < j < |log| && log[i].Issued? && log[j].Issued?
    requires log[i].stored.Some? && log[j].stored.Some?
    ensures log[i].stored.value < log[j].stored.value
  {
    hide Accepts, Watch, Allowed, Next;
    AcceptsAt(c, log, j);
    assert log[..j][i] == log[i];
    NumbersPassed(c, log[..j], i);
    NumberStep(c, Watch(log[..j]), log[j]);
  }

  /** The entry under a number is the message that was given the number. */
  lemma EntryIssued(c: Config, log: seq<Event>, k: nat) returns (j: nat)
    requires Accepts(c, log) && k < |StoredBy(log)|
    ensures j < |log| && log[j].Issued? && log[j].stored == Some(StoredBy(log)[k].seqNo)
    ensures SameMessage(log[j].call, StoredBy(log)[k].call)
    ensures SeqOf(Watch(log).backed, log[j].token) == log[j].stored
  {
    hide Accepts, Watch, Allowed, Next;
    StoredIsBacked(c, log);
    BackedRises(c, log);
    var b := Watch(log).backed[k];
    j := CallIssued(c, log, b.token);
    IssuedKept(c, log, j);
    BackedAt(Watch(log).backed, k);
  }

  /** A message accepted into the store is in it, under its number and with its contents, until it is
      settled; after that nothing is stored under its number. */
  lemma StoredOrSettled(c: Config, log: seq<Event>, j: nat)
    requires Accepts(c, log) && j < |log| && log[j].Issued? && log[j].stored.Some?
    ensures IsStored(log, j) <==> !IsSettled(log, j)
    ensures IsSettled(log, j) ==> forall k :: 0 <= k < |StoredBy(log)| ==> StoredBy(log)[k].seqNo != log[j].stored.value
  {
    hide Accepts, Watch, Allowed, Next, SettledAt, StoredBy;
    BackedUntilSettled(c, log, j);
    if IsSettled(log, j) {
      forall k | 0 <= k < |StoredBy(log)|
        ensures StoredBy(log)[k].seqNo != log[j].stored.value
      {
        var i := EntryIssued(c, log, k);
        if i < j {
          NumbersRise(c, log, i, j);
        } else if j < i {
          NumbersRise(c, log, j, i);
        }
      }
    } else {
      StillStored(c, log, j);
    }
  }

  lemma StillStored(c: Config, log: seq<Event>, j: nat)
    requires Accepts(c, log) && j < |log| && log[j].Issued? && log[j].stored.Some?
    requires SeqOf(Watch(log).backed, log[j].token) == log[j].stored
    ensures IsStored(log, j)
  {
    hide Accepts, Watch, Allowed, Next, StoredBy;
    StoredIsBacked(c, log);
    BackedRises(c, log);
    IssuedKept(c, log, j);
    var i := SeqOfSome(Watch(log).backed, log[j].token);
    assert StoredBy(log)[i].seqNo == log[j].stored.value;
  }

  /** A stored message is reported only after it left the store. */
  lemma {:induction false} ReportedIsSettled(c: Config, log: seq<Event>, j: nat)
    requires Accepts(c, log) && j < |log| && log[j].Issued? && log[j].stored.Some?
    requires Outcomes(log, log[j].token) > 0
    ensures IsSettled(log, j)
  {
    hide Accepts, Watch, Allowed, Next, SettledAt;
    BackedUntilSettled(c, log, j);
    var k := OutcomeSomewhere(log, log[j].token);
    AcceptsAt(c, log, k);
    BeforeOutcome(c, Watch(log[..k]), log[k]);
    if k < j {
      AcceptsAt(c, log, j);
      LateIssue(c, log, k, j);
    } else {
      assert log[..k][j] == log[j];
      BackedUntilSettled(c, log[..k], j);
      SettledStays(log, k, j);
    }
  }

  lemma BeforeOutcome(c: Config, m: View, e: Event)
    requires Allowed(c, m, e) && e.Outcome?
    ensures e.token < |m.calls| && SeqOf(m.backed, e.token) == None
  {
    SeqOfNone(m.backed, e.token);
  }

  /** No outcome comes before its call. */
  lemma LateIssue(c: Config, log: seq<Event>, k: nat, j: nat)
    requires Accepts(c, log) && k < j < |log| && log[j].Issued? && log[k].Outcome?
    ensures log[k].token != log[j].token
  {
    hide Accepts, Watch, Allowed, Next;
    AcceptsAt(c, log, k);
    AcceptsAt(c, log, j);
    CallsGrow(c, log[..j], k);
    assert log[..j][..k] == log[..k];
    FreshToken(c, Watch(log[..j]), log[j]);
    BeforeOutcome(c, Watch(log[..k]), log[k]);
  }

  lemma FreshToken(c: Config, m: View, e: Event)
    requires Allowed(c, m, e) && e.Issued?
    ensures e.token == |m.calls|
  {
  }

  /** The calls known at a moment stay known, with their contents. */
  lemma {:induction false} CallsGrow(c: Config, log: seq<Event>, k: nat)
    requires Accepts(c, log) && k <= |log|
    ensures |Watch(log[..k]).calls| <= |Watch(log).calls|
    ensures forall t :: 0 <= t < |Watch(log[..k]).calls| ==> Watch(log).calls[t].call == Watch(log[..k]).calls[t].call
  {
    hide Accepts, Watch, Allowed, Next;
    if k < |log| {
      var n := |log| - 1;
      Unroll(c, log);
      CallsGrow(c, log[..n], k);
      assert log[..n][..k] == log[..k];
      NextGrows(c, Watch(log[..n]), log[n]);
    } else {
      assert log[..k] == log;
    }
  }

  lemma SettledStays(log: seq<Event>, p: nat, j: nat)
    requires j < p <= |log| && log[j].Issued? && log[..p][j] == log[j] && IsSettled(log[..p], j)
    ensures IsSettled(log, j)
  {
    var i: nat :| SettledAt(log[..p], j, i);
    assert SettledAt(log, j, i);
  }

  /** Gone from the store, and its outcome not yet reported: the window in which a crash takes the
      report with it. */
  ghost predicate InWindow(log: seq<Event>, j: nat)
    requires j < |log| && log[j].Issued?
  {
    IsSettled(log, j) && Outcomes(log, log[j].token) == 0
  }

  /** Its outcome is among the engine's outputs. Whether the driver has taken it from there is another
      matter: what it has not taken when the process dies goes with it. */
  ghost predicate IsReported(log: seq<Event>, j: nat)
    requires j < |log| && log[j].Issued?
  {
    IsSettled(log, j) && Outcomes(log, log[j].token) == 1
  }

  /** At every moment of every run, between any two events of a command too, every message accepted
      into the store is in exactly one of three places: stored, in the window, reported. When a command
      is over none is left in the window. */
  lemma EveryMomentAccounted(c: Config, version: Version, store: Store, cmds: seq<Command>, p: nat, j: nat)
    requires Sound(store) && j < p <= |Final(c, version, store, cmds).log|
    requires Final(c, version, store, cmds).log[j].Issued? && Final(c, version, store, cmds).log[j].stored.Some?
    ensures var all := Final(c, version, store, cmds).log;
            var log := all[..p];
            && (if IsStored(log, j) then !IsSettled(log, j) && Outcomes(log, log[j].token) == 0
                else InWindow(log, j) != IsReported(log, j))
            && (p == |all| ==> !InWindow(log, j))
  {
    hide Final, IsSettled, IsStored;
    LogAccepted(c, version, store, cmds);
    var all := Final(c, version, store, cmds).log;
    var log := all[..p];
    assert log[j] == all[j];
    PrefixAccepted(c, all, p);
    StoredOrSettled(c, log, j);
    FinishedOnce(c, log, log[j].token);
    if Outcomes(log, log[j].token) > 0 {
      ReportedIsSettled(c, log, j);
    }
    if p == |all| {
      assert log == all;
      EndOfCommand(c, version, store, cmds, j);
    }
  }

  lemma PrefixAccepted(c: Config, log: seq<Event>, p: nat)
    requires Accepts(c, log) && p <= |log|
    ensures Accepts(c, log[..p])
  {
    hide Watch, Allowed, Next;
    if p < |log| {
      AcceptsAt(c, log, p);
    } else {
      assert log[..p] == log;
    }
  }

  lemma EndOfCommand(c: Config, version: Version, store: Store, cmds: seq<Command>, j: nat)
    requires Sound(store)
    requires var log := Final(c, version, store, cmds).log; j < |log| && log[j].Issued? && log[j].stored.Some?
    ensures var log := Final(c, version, store, cmds).log;
            IsSettled(log, j) ==> Outcomes(log, log[j].token) == 1
  {
    hide Accepts, Watch, Allowed, Next, Run, WithStore, IsSettled, Rel;
    RunKeeps(c, version, store, cmds);
    var s := Final(c, version, store, cmds);
    IssuedKept(c, s.log, j);
    FinishedOnce(c, s.log, s.log[j].token);
    BackedUntilSettled(c, s.log, j);
    if !Watch(s.log).calls[s.log[j].token].finished {
      UnfinishedStored(c, CoreOf(s), Watch(s.log), s.log[j].token);
    }
  }

  // -- what the store says was sent ---------------------------------------------------------

  /** The store's count is the message's own or one that left it a retry, and lags the transmissions
      made by one at most. */
  ghost predicate Records(c: Config, m: View)
  {
    forall i :: 0 <= i < |m.backed| && m.backed[i].token < |m.calls| ==>
      var b, f := m.backed[i], m.calls[m.backed[i].token];
      && (b.call.attempts == f.call.attempts || c.retry.MayRetry(b.call.attempts))
      && (f.attempts == b.call.attempts || f.attempts == b.call.attempts + 1)
  }

  lemma {:induction false} RecordsLag(c: Config, log: seq<Event>)
    requires Accepts(c, log)
    ensures Records(c, Watch(log))
  {
    hide Accepts, Watch, Allowed, Next, Rises, Records;
    if log == [] {
      UnwatchedIsStart(log);
      NoRecords(c);
    } else {
      var n := |log| - 1;
      Unroll(c, log);
      RecordsLag(c, log[..n]);
      BackedRises(c, log[..n]);
      RecordsStep(c, Watch(log[..n]), log[n]);
    }
  }

  lemma NoRecords(c: Config)
    ensures Records(c, START)
  {
  }

  lemma RecordsStep(c: Config, m: View, e: Event)
    requires Rises(m) && Records(c, m) && Allowed(c, m, e)
    ensures Records(c, Next(m, e))
  {
    hide Rises, Records;
    if e.Settled? {
      SettledRecords(c, m, e.token);
    } else if e.Recorded? {
      RecordedRecords(c, m, e);
    } else if e.Issued? {
      IssuedRecords(c, m, e);
    } else if e.Wire? {
      WireRecords(c, m, e);
    } else {
      hide Next, Allowed;
      OtherStep(c, m, e);
      OtherAttempts(c, m, e);
      SameRecords(c, m, Next(m, e));
    }
  }

  lemma OtherAttempts(c: Config, m: View, e: Event)
    requires Allowed(c, m, e) && !e.Issued? && !e.Wire?
    ensures |Next(m, e).calls| == |m.calls|
    ensures forall t :: 0 <= t < |m.calls| ==>
              Next(m, e).calls[t].call == m.calls[t].call && Next(m, e).calls[t].attempts == m.calls[t].attempts
  {
  }

  lemma SameRecords(c: Config, m: View, n: View)
    requires Records(c, m) && n.backed == m.backed && |n.calls| == |m.calls|
    requires forall t :: 0 <= t < |m.calls| ==>
               n.calls[t].call == m.calls[t].call && n.calls[t].attempts == m.calls[t].attempts
    ensures Records(c, n)
  {
  }

  lemma SettledRecords(c: Config, m: View, t: Token)
    requires Rises(m) && Records(c, m)
    ensures Records(c, m.(backed := WithoutToken(m.backed, t)))
  {
    if i :| 0 <= i < |m.backed| && m.backed[i].token == t {
      WithoutTokenAt(m.backed, i);
    } else {
      SeqOfNone(m.backed, t);
      WithoutTokenAbsent(m.backed, t);
    }
  }

  lemma RecordedRecords(c: Config, m: View, e: Event)
    requires Records(c, m) && Allowed(c, m, e) && e.Recorded?
    ensures Records(c, Next(m, e))
  {
  }

  lemma IssuedRecords(c: Config, m: View, e: Event)
    requires Rises(m) && Records(c, m) && Allowed(c, m, e) && e.Issued?
    ensures Records(c, Next(m, e))
  {
    var n := Next(m, e);
    assert forall t :: 0 <= t < |m.calls| ==> n.calls[t] == m.calls[t];
    assert forall i :: 0 <= i < |m.backed| ==> n.backed[i] == m.backed[i];
  }

  lemma WireRecords(c: Config, m: View, e: Event)
    requires Records(c, m) && Allowed(c, m, e) && e.Wire?
    ensures Records(c, Next(m, e))
  {
    assert RecordedAs(m.backed, e.token, m.calls[e.token].attempts);
  }
}
