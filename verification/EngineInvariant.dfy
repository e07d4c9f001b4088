/** What ties an engine's state to the monitor's view of its log, and why each elementary
    movement of a call keeps it.

    A call is in the queue, in the slot, or for a moment in the engine's `hand` while it moves
    between them.  Every operation of the engine is a sequence of the movements below. */
module EngineInvariant {
  import opened Basics
  import opened Messages
  import opened MessageIds
  import opened Queue
  import opened Monitor
  import opened EngineModel

  /** The part of the state the invariant speaks of. */
  datatype Core = Core(
    queue: seq<Waiting>,
    inflight: Option<InFlight>,
    peers: set<MessageId>,
    connected: bool,
    now: Instant,
    nextToken: Token,
    boot: BootState,
    retryAt: Option<Instant>,
    minted: nat,
    store: Store,
    callTimeout: nat,
    heartbeatInterval: Option<nat>,
    heartbeatAt: Option<Instant>,
    draining: Option<Instant>)

  function CoreOf(s: State): (r: Core)
  {
    Core(s.queue, s.inflight, s.peers, s.connected, s.now, s.nextToken, s.boot, s.bootRetryAt, s.minted, s.store,
         s.callTimeout, s.heartbeatInterval, s.heartbeatAt, s.draining)
  }

  ghost predicate WellFormedCall(call: QueuedCall)
  {
    call.transactional ==> call.kind == CALL && TransactionAction(call.action)
  }

  predicate SameMessage(a: QueuedCall, b: QueuedCall)
  {
    a.action == b.action && a.payload == b.payload && a.kind == b.kind && a.transactional == b.transactional
  }

  /** The monitor and the engine agree about one call. */
  ghost predicate Fits(m: View, p: Waiting)
  {
    && p.token < |m.calls|
    && (var f := m.calls[p.token];
        && !f.finished && SameMessage(f.call, p.call)
        && f.attempts == p.call.attempts && f.triggered == p.triggered && f.keep == p.queueWhenOffline)
    && p.stored == SeqOf(m.backed, p.token)
  }

  /** A queued call was never sent, or is a transaction message waiting out its delay; either way
      the store has its attempts on record. */
  ghost predicate Ready(c: Config, m: View, p: Waiting)
    requires p.token < |m.calls|
  {
    var f := m.calls[p.token];
    && p.stored == f.stored
    && RecordedAs(m.backed, p.token, f.attempts)
    && (|| (f.attempts == f.call.attempts && f.lostAt == None && f.sentAs == None && f.fate == None)
        || (&& f.call.transactional && c.retry.MayRetry(f.attempts) && Lost(f) && f.lostAt.Some?
            && p.notBefore == Some(SaturatingAdd(f.lostAt.value, c.retry.DelayAfter(f.attempts)))))
  }

  ghost function Tokens(queue: seq<Waiting>): (r: set<Token>)
  {
    set i | 0 <= i < |queue| :: queue[i].token
  }

  ghost function Held(k: Core, hand: set<Waiting>): (r: set<Token>)
  {
    Tokens(k.queue)
    + (if k.inflight.Some? then {k.inflight.value.entry.token} else {})
    + HandTokens(hand)
  }

  ghost function HandTokens(hand: set<Waiting>): (r: set<Token>)
  {
    set p | p in hand :: p.token
  }

  /** A call the application has just cancelled is in hand. */
  ghost predicate Asked(hand: set<Waiting>, m: View)
  {
    m.cancelling.Some? ==> m.cancelling.value in HandTokens(hand)
  }

  /** No call is in two places. */
  ghost predicate Apart(k: Core, hand: set<Waiting>)
  {
    && (forall i, j :: 0 <= i < j < |k.queue| ==> k.queue[i].token != k.queue[j].token)
    && (k.inflight.Some? ==> k.inflight.value.entry.token !in Tokens(k.queue))
    && (forall p :: p in hand ==> p.token !in Tokens(k.queue))
    && (k.inflight.Some? ==> forall p :: p in hand ==> p.token != k.inflight.value.entry.token)
    && (forall p, q :: p in hand && q in hand && p.token == q.token ==> p == q)
  }

  /** Transaction messages are held in the order they were issued, the slot first. */
  ghost predicate InOrder(k: Core)
  {
    && (forall i, j :: 0 <= i < j < |k.queue| && k.queue[i].call.transactional && k.queue[j].call.transactional
                       ==> k.queue[i].token < k.queue[j].token)
    && (k.inflight.Some? && k.inflight.value.entry.call.transactional ==>
          forall j :: 0 <= j < |k.queue| && k.queue[j].call.transactional
                      ==> k.inflight.value.entry.token < k.queue[j].token)
  }

  /** The store holds exactly the messages the monitor says are backed, in order. */
  ghost predicate StoreRel(store: Store, m: View)
  {
    && Ordered(store)
    && |store.entries| == |m.backed|
    && (forall i :: 0 <= i < |m.backed| ==>
          && store.entries[i] == Entry(m.backed[i].seqNo, m.backed[i].call)
          && m.backed[i].token < |m.calls|
          && !m.calls[m.backed[i].token].finished
          && SameMessage(m.calls[m.backed[i].token].call, m.backed[i].call))
    && (forall i, j :: 0 <= i < j < |m.backed| ==> m.backed[i].token < m.backed[j].token)
  }

  function SlotOf(f: Option<InFlight>): (r: Option<Slot>)
  {
    if f.Some? then Some(Slot(f.value.entry.token, f.value.id, f.value.deadline)) else None
  }

  ghost predicate Outstanding(m: View, f: InFlight)
    requires f.entry.token < |m.calls|
  {
    f.entry.call.kind == CALL && f.entry.stored == m.calls[f.entry.token].stored
    && m.calls[f.entry.token].sentAs == Some(f.id)
  }

  /** The monitor agrees with the engine about every call it holds. */
  ghost predicate Agrees(c: Config, k: Core, hand: set<Waiting>, m: View)
  {
    && (forall i :: 0 <= i < |k.queue| ==> Fits(m, k.queue[i]) && Ready(c, m, k.queue[i]))
    && (forall p :: p in hand ==> Fits(m, p))
    && (k.inflight.Some? ==> Fits(m, k.inflight.value.entry) && Outstanding(m, k.inflight.value))
  }

  /** Every call that is not over is held somewhere. */
  ghost predicate Covered(k: Core, hand: set<Waiting>, m: View)
  {
    forall t :: 0 <= t < |m.calls| && !m.calls[t].finished ==> t in Held(k, hand)
  }

  ghost predicate Globals(c: Config, k: Core, m: View)
  {
    && |m.calls| == k.nextToken
    && (forall t :: 0 <= t < |m.calls| ==> WellFormedCall(m.calls[t].call))
    && m.connected == k.connected && m.peers == k.peers
    && m.clock <= k.now && m.serial <= k.minted
    && (c.role == ChargingStation ==> m.boot == k.boot)
    && m.retryAt == k.retryAt
    && (if m.ready then m.nextSeq == k.store.nextSeq && m.capacity == k.store.capacity
        else m.nextSeq <= k.store.nextSeq)
    && m.slot == SlotOf(k.inflight)
    && Timing(c, k, m)
  }

  /** The monitor agrees with the engine about its timers. */
  ghost predicate Timing(c: Config, k: Core, m: View)
  {
    && TimeoutInForce(c, m) == k.callTimeout
    && (c.role == ChargingStation ==> m.beat == k.heartbeatInterval)
    && m.beatAt == k.heartbeatAt && m.drainBy == k.draining
  }

  ghost predicate Rel(c: Config, k: Core, hand: set<Waiting>, m: View)
  {
    && Globals(c, k, m)
    && Agrees(c, k, hand, m)
    && Apart(k, hand)
    && Covered(k, hand, m)
    && InOrder(k)
    && StoreRel(k.store, m)
    && Asked(hand, m)
  }

  /** The inductive invariant of every run. */
  ghost predicate Inv(c: Config, s: State, hand: set<Waiting>)
  {
    Accepts(c, s.log) && Rel(c, CoreOf(s), hand, Watch(s.log))
  }

  // -- lists --------------------------------------------------------------------------------

  lemma TokensRemove(queue: seq<Waiting>, i: nat)
    requires i < |queue|
    requires forall a, b :: 0 <= a < b < |queue| ==> queue[a].token != queue[b].token
    ensures Tokens(RemoveAt(queue, i)) == Tokens(queue) - {queue[i].token}
  {
    var r := RemoveAt(queue, i);
    forall t | t in Tokens(queue) - {queue[i].token}
      ensures t in Tokens(r)
    {
      var a :| 0 <= a < |queue| && queue[a].token == t;
      assert r[if a < i then a else a - 1].token == t;
    }
    forall t | t in Tokens(r)
      ensures t in Tokens(queue) - {queue[i].token}
    {
      var a :| 0 <= a < |r| && r[a].token == t;
      assert queue[if a < i then a else a + 1].token == t;
    }
  }

  lemma TokensAppend(queue: seq<Waiting>, w: Waiting)
    ensures Tokens(queue + [w]) == Tokens(queue) + {w.token}
    ensures Tokens([w] + queue) == Tokens(queue) + {w.token}
  {
    var q := queue + [w];
    var r := [w] + queue;
    assert q[|queue|] == w && r[0] == w;
    forall t | t in Tokens(queue)
      ensures t in Tokens(q) && t in Tokens(r)
    {
      var a :| 0 <= a < |queue| && queue[a].token == t;
      assert q[a].token == t && r[a + 1].token == t;
    }
    forall t | t in Tokens(r)
      ensures t in Tokens(queue) + {w.token}
    {
      var a :| 0 <= a < |r| && r[a].token == t;
      assert a > 0 ==> queue[a - 1].token == t;
    }
  }

  lemma {:induction false} SeqOfRemove(backed: seq<Backed>, t: Token, u: Token)
    ensures SeqOf(WithoutToken(backed, t), u) == if u == t then None else SeqOf(backed, u)
  {
    if backed != [] {
      SeqOfRemove(backed[1..], t, u);
    }
  }

  lemma {:induction false} SeqOfAppend(backed: seq<Backed>, b: Backed, u: Token)
    requires SeqOf(backed, b.token) == None
    ensures SeqOf(backed + [b], u) == if u == b.token then Some(b.seqNo) else SeqOf(backed, u)
  {
    if backed != [] {
      assert (backed + [b])[1..] == backed[1..] + [b];
      SeqOfAppend(backed[1..], b, u);
    }
  }

  lemma {:induction false} SeqOfNone(backed: seq<Backed>, u: Token)
    ensures SeqOf(backed, u) == None <==> forall i :: 0 <= i < |backed| ==> backed[i].token != u
  {
    if backed != [] {
      SeqOfNone(backed[1..], u);
    }
  }

  lemma {:induction false} SeqOfSome(backed: seq<Backed>, u: Token) returns (i: nat)
    requires SeqOf(backed, u).Some?
    ensures i < |backed| && backed[i].token == u && SeqOf(backed, u) == Some(backed[i].seqNo)
  {
    if backed[0].token == u {
      i := 0;
    } else {
      var j := SeqOfSome(backed[1..], u);
      i := j + 1;
    }
  }

  lemma {:induction false} WithoutTokenAbsent(backed: seq<Backed>, t: Token)
    requires SeqOf(backed, t) == None
    ensures WithoutToken(backed, t) == backed
  {
    if backed != [] {
      WithoutTokenAbsent(backed[1..], t);
    }
  }

  lemma {:induction false} RecordedElsewhere(backed: seq<Backed>, t: Token, u: Token, n: nat)
    requires u != t
    ensures RecordedAs(WithoutToken(backed, t), u, n) == RecordedAs(backed, u, n)
  {
    if backed != [] {
      var tail := backed[1..];
      RecordedElsewhere(tail, t, u, n);
      RecordedSplit(backed[0], tail, u, n);
      assert backed == [backed[0]] + tail;
      RecordedSplit(backed[0], WithoutToken(tail, t), u, n);
    }
  }

  lemma RecordedSplit(b: Backed, tail: seq<Backed>, u: Token, n: nat)
    ensures RecordedAs([b] + tail, u, n) == ((b.token == u ==> b.call.attempts == n) && RecordedAs(tail, u, n))
  {
    var all := [b] + tail;
    assert all[0] == b;
    assert forall k :: 0 <= k < |tail| ==> tail[k] == all[k + 1];
  }

  lemma {:induction false} WithoutTokenAt(backed: seq<Backed>, i: nat)
    requires i < |backed|
    requires forall a, b :: 0 <= a < b < |backed| ==> backed[a].token < backed[b].token
    ensures WithoutToken(backed, backed[i].token) == RemoveAt(backed, i)
  {
    var tail := backed[1..];
    if i == 0 {
      SeqOfNone(tail, backed[0].token);
      WithoutTokenAbsent(tail, backed[0].token);
    } else {
      assert backed[0].token < backed[i].token;
      WithoutTokenAt(tail, i - 1);
    }
  }

  // -- movements ----------------------------------------------------------------------------

  lemma LiftApart(k: Core, hand: set<Waiting>, i: nat)
    requires Apart(k, hand) && i < |k.queue|
    ensures var k' := k.(queue := RemoveAt(k.queue, i));
            Apart(k', hand + {k.queue[i]}) && Held(k', hand + {k.queue[i]}) == Held(k, hand)
  {
    var p := k.queue[i];
    TokensRemove(k.queue, i);
    assert p.token in Tokens(k.queue);
    assert p in hand + {p};
  }

  /** A queued call is picked up. */
  lemma Lift(c: Config, k: Core, hand: set<Waiting>, m: View, i: nat)
    requires Rel(c, k, hand, m) && i < |k.queue|
    ensures Rel(c, k.(queue := RemoveAt(k.queue, i)), hand + {k.queue[i]}, m)
  {
    LiftApart(k, hand, i);
    LiftAgrees(c, k, hand, m, i);
  }

  lemma LiftAgrees(c: Config, k: Core, hand: set<Waiting>, m: View, i: nat)
    requires Agrees(c, k, hand, m) && InOrder(k) && i < |k.queue|
    ensures var k' := k.(queue := RemoveAt(k.queue, i));
            Agrees(c, k', hand + {k.queue[i]}, m) && InOrder(k')
  {
  }

  /** Agreement is about one call at a time: another call's event does not disturb it. */
  ghost predicate Untouched(m: View, m': View, t: Token)
  {
    && t < |m.calls| && t < |m'.calls|
    && m'.calls[t] == m.calls[t] && SeqOf(m'.backed, t) == SeqOf(m.backed, t)
    && RecordedAs(m'.backed, t, m.calls[t].attempts) == RecordedAs(m.backed, t, m.calls[t].attempts)
  }

  lemma AgreesElsewhere(c: Config, k: Core, hand: set<Waiting>, m: View, m': View, t: Token)
    requires Agrees(c, k, hand, m)
    requires |m.calls| <= |m'.calls|
    requires forall u: Token :: u < |m.calls| && u != t ==> Untouched(m, m', u)
    requires t !in Held(k, hand)
    ensures Agrees(c, k, hand, m')
  {
    forall i | 0 <= i < |k.queue|
      ensures Fits(m', k.queue[i]) && Ready(c, m', k.queue[i])
    {
      assert k.queue[i].token in Tokens(k.queue);
      assert Untouched(m, m', k.queue[i].token);
    }
    forall p | p in hand
      ensures Fits(m', p)
    {
      assert p.token in Held(k, hand);
      assert Untouched(m, m', p.token);
    }
    if k.inflight.Some? {
      assert Untouched(m, m', k.inflight.value.entry.token);
    }
  }

  /** The slot is emptied into the hand. */
  lemma TakeRel(c: Config, k: Core, m: View, cause: Cause)
    requires Rel(c, k, {}, m) && k.inflight.Some?
    requires cause.ByTimeout? ==> k.now >= k.inflight.value.deadline
    requires cause.ByDisconnect? ==> !k.connected
    ensures var f := k.inflight.value;
            var e := Freed(f.entry.token, f.id, cause, k.now);
            var k' := k.(inflight := None);
            && Allowed(c, m, e) && Rel(c, k', {f.entry}, Next(m, e))
            && (!cause.ByAnswer? ==> Next(m, e).calls[f.entry.token].lostAt == Some(k.now))
            && (cause.ByAnswer? ==> Next(m, e).answering == Some(Answering(f.entry.call.action, cause.payload, k.now)))
            && f.entry.stored == Next(m, e).calls[f.entry.token].stored
            && Next(m, e).calls[f.entry.token].fate == Some(cause)
            && Next(m, e).calls[f.entry.token].sentAs == Some(f.id)
            && Next(m, e).cancelling == None && Next(m, e).connected == k.connected
  {
    hide Agrees, Apart, Covered, InOrder, StoreRel, RecordedAs;
    var f := k.inflight.value;
    var e := Freed(f.entry.token, f.id, cause, k.now);
    TakenFits(c, k, m);
    TakenAgrees(c, k, m, Next(m, e), f.entry);
    SentStore(k.store, m, Next(m, e));
  }

  lemma TakenFits(c: Config, k: Core, m: View)
    requires Agrees(c, k, {}, m) && k.inflight.Some?
    ensures Fits(m, k.inflight.value.entry) && Outstanding(m, k.inflight.value)
  {
  }

  lemma TakenAgrees(c: Config, k: Core, m: View, m': View, p: Waiting)
    requires Agrees(c, k, {}, m) && Apart(k, {}) && Covered(k, {}, m) && InOrder(k)
    requires k.inflight.Some? && p == k.inflight.value.entry && p.token < |m.calls|
    requires m'.backed == m.backed && |m'.calls| == |m.calls|
    requires m'.calls == m.calls[p.token := m.calls[p.token].(lostAt := m'.calls[p.token].lostAt,
                                                              fate := m'.calls[p.token].fate)]
    ensures var r := k.(inflight := None);
            Agrees(c, r, {p}, m') && Apart(r, {p}) && Covered(r, {p}, m') && InOrder(r)
  {
    hide RecordedAs;
    var r := k.(inflight := None);
    assert p in {p};
    assert Held(r, {p}) == Held(k, {});
    assert Agrees(c, r, {}, m);
    AgreesElsewhere(c, r, {}, m, m', p.token);
    assert Fits(m', p);
  }

  /** A message in hand leaves the store. */
  lemma SettleRel(c: Config, k: Core, hand: set<Waiting>, m: View, p: Waiting)
    requires Rel(c, k, hand, m) && p in hand
    ensures var e := Settled(p.token, p.stored);
            var store := if p.stored.Some? then Ack(k.store, p.stored.value) else k.store;
            && Allowed(c, m, e)
            && Rel(c, k.(store := store), hand - {p} + {p.(stored := None)}, Next(m, e))
  {
    hide Apart, Covered, InOrder, StoreRel;
    var m' := Next(m, Settled(p.token, p.stored));
    SettleStore(k.store, m, p);
    var store := if p.stored.Some? then Ack(k.store, p.stored.value) else k.store;
    var k' := k.(store := store);
    SettleAgrees(c, k, hand, m, m', p);
    SameCalls(c, k, k', hand - {p} + {p.(stored := None)}, m');
    SwapTokens(hand, p, p.(stored := None));
  }

  lemma SwapTokens(hand: set<Waiting>, p: Waiting, r: Waiting)
    requires p in hand && r.token == p.token
    ensures HandTokens(hand - {p} + {r}) == HandTokens(hand)
    ensures HandTokens(hand - {p}) >= HandTokens(hand) - {p.token}
  {
    var swapped := hand - {p} + {r};
    assert r in swapped;
    assert forall q :: q in swapped ==> q == r || q in hand;
    assert forall q :: q in hand ==> q == p || (q in hand - {p} && q in swapped);
  }

  /** Agreement, apartness, coverage and order look only at where calls are held. */
  lemma SameCalls(c: Config, k: Core, k': Core, hand: set<Waiting>, m: View)
    requires Agrees(c, k, hand, m) && Apart(k, hand) && Covered(k, hand, m) && InOrder(k)
    requires k'.queue == k.queue && k'.inflight == k.inflight
    ensures Agrees(c, k', hand, m) && Apart(k', hand) && Covered(k', hand, m) && InOrder(k')
  {
  }

  /** An event about one call in hand: the rest of the agreement stands. */
  lemma Replace(c: Config, k: Core, hand: set<Waiting>, m: View, m': View, p: Waiting, p': Waiting)
    requires Agrees(c, k, hand, m) && Apart(k, hand) && Covered(k, hand, m) && p in hand
    requires |m'.calls| == |m.calls| && p'.token == p.token && Fits(m', p')
    requires forall u: Token :: u < |m.calls| && u != p.token ==> Untouched(m, m', u)
    ensures var hand' := hand - {p} + {p'};
            Agrees(c, k, hand', m') && Apart(k, hand') && Covered(k, hand', m')
  {
    SwapApart(k, hand, p, p');
    assert Agrees(c, k, hand - {p}, m);
    AgreesElsewhere(c, k, hand - {p}, m, m', p.token);
    forall t | 0 <= t < |m'.calls| && !m'.calls[t].finished
      ensures t in Held(k, hand - {p} + {p'})
    {
      if t != p.token {
        assert Untouched(m, m', t);
      }
    }
  }

  lemma SettleAgrees(c: Config, k: Core, hand: set<Waiting>, m: View, m': View, p: Waiting)
    requires Agrees(c, k, hand, m) && Apart(k, hand) && Covered(k, hand, m) && p in hand
    requires m' == m.(backed := WithoutToken(m.backed, p.token))
    ensures var hand' := hand - {p} + {p.(stored := None)};
            Agrees(c, k, hand', m') && Apart(k, hand') && Covered(k, hand', m')
  {
    forall u: Token
      ensures SeqOf(m'.backed, u) == if u == p.token then None else SeqOf(m.backed, u)
    {
      SeqOfRemove(m.backed, p.token, u);
    }
    forall u: Token, n: nat | u != p.token
      ensures RecordedAs(m'.backed, u, n) == RecordedAs(m.backed, u, n)
    {
      RecordedElsewhere(m.backed, p.token, u, n);
    }
    Replace(c, k, hand, m, m', p, p.(stored := None));
  }

  lemma SwapApart(k: Core, hand: set<Waiting>, p: Waiting, r: Waiting)
    requires Apart(k, hand) && p in hand && r.token == p.token
    ensures Apart(k, hand - {p} + {r})
    ensures Held(k, hand - {p} + {r}) == Held(k, hand)
    ensures Held(k, hand - {p}) == Held(k, hand) - {p.token}
  {
    var swapped := hand - {p} + {r};
    assert r in swapped;
    assert forall q :: q in swapped ==> q == r || q in hand;
    assert forall q :: q in hand ==> q == p || q in hand - {p};
    assert forall q :: q in hand ==> q == p || q in swapped;
  }

  lemma SettleStore(store: Store, m: View, p: Waiting)
    requires StoreRel(store, m) && p.stored == SeqOf(m.backed, p.token)
    ensures StoreRel(if p.stored.Some? then Ack(store, p.stored.value) else store,
                     m.(backed := WithoutToken(m.backed, p.token)))
  {
    if p.stored.Some? {
      var i := SeqOfSome(m.backed, p.token);
      WithoutTokenAt(m.backed, i);
      WithoutAt(store.entries, i);
      DropStored(store, m, i);
    } else {
      WithoutTokenAbsent(m.backed, p.token);
    }
  }

  lemma DropStored(store: Store, m: View, i: nat)
    requires StoreRel(store, m) && i < |m.backed|
    ensures StoreRel(store.(entries := RemoveAt(store.entries, i)), m.(backed := RemoveAt(m.backed, i)))
  {
  }

  /** A settled message in hand is reported. */
  lemma OutcomeRel(c: Config, k: Core, hand: set<Waiting>, m: View, p: Waiting, e: Event)
    requires Rel(c, k, hand, m) && p in hand && p.stored == None
    requires e.Outcome? && e.token == p.token && e.action == p.call.action
    requires p.token < |m.calls| && Reports(c, m, p.token, e.sentAs, e.result)
    ensures Allowed(c, m, e) && Rel(c, k, hand - {p}, Next(m, e))
  {
    hide Reports, Apart, Covered, InOrder, StoreRel, Ready, HandTokens;
    var m' := Next(m, e);
    OutcomeAgrees(c, k, hand, m, m', p);
    SeqOfNone(m.backed, p.token);
    SwapTokens(hand, p, p);
    OutcomeStore(k, hand, m, m', p);
  }

  lemma OutcomeStore(k: Core, hand: set<Waiting>, m: View, m': View, p: Waiting)
    requires StoreRel(k.store, m) && SeqOf(m.backed, p.token) == None && p.token < |m.calls|
    requires m'.calls == m.calls[p.token := m.calls[p.token].(finished := true)] && m'.backed == m.backed
    requires Apart(k, hand) && p in hand
    ensures StoreRel(k.store, m')
    ensures k.inflight.Some? ==> k.inflight.value.entry.token != p.token
  {
    SeqOfNone(m.backed, p.token);
  }

  lemma OutcomeAgrees(c: Config, k: Core, hand: set<Waiting>, m: View, m': View, p: Waiting)
    requires Agrees(c, k, hand, m) && Apart(k, hand) && Covered(k, hand, m) && p in hand
    requires p.token < |m.calls|
    requires m'.calls == m.calls[p.token := m.calls[p.token].(finished := true)] && m'.backed == m.backed
    ensures Agrees(c, k, hand - {p}, m') && Apart(k, hand - {p}) && Covered(k, hand - {p}, m')
  {
    SwapApart(k, hand, p, p);
    assert Agrees(c, k, hand - {p}, m);
    AgreesElsewhere(c, k, hand - {p}, m, m', p.token);
  }

  /** The attempts of a message in hand are put on record. */
  lemma RecordRel(c: Config, k: Core, m: View, p: Waiting)
    requires Rel(c, k, {p}, m) && p.stored.Some? && c.retry.MayRetry(p.call.attempts)
    ensures var e := Recorded(p.token, p.stored.value, p.call.attempts);
            && Allowed(c, m, e)
            && Rel(c, k.(store := SetAttempts(k.store, p.stored.value, p.call.attempts)), {p}, Next(m, e))
            && RecordedAs(Next(m, e).backed, p.token, p.call.attempts)
  {
    hide Apart, Covered, InOrder, StoreRel;
    assert p in {p};
    assert Fits(m, p);
    var m' := Next(m, Recorded(p.token, p.stored.value, p.call.attempts));
    var k' := k.(store := SetAttempts(k.store, p.stored.value, p.call.attempts));
    forall u: Token
      ensures SeqOf(m'.backed, u) == SeqOf(m.backed, u)
    {
      SeqOfRecorded(m.backed, p.token, p.call.attempts, u);
    }
    Replace(c, k, {p}, m, m', p, p);
    assert {p} - {p} + {p} == {p};
    SameCalls(c, k, k', {p}, m');
    RecordStore(k.store, m, p);
  }

  lemma {:induction false} SeqOfRecorded(backed: seq<Backed>, t: Token, n: nat, u: Token)
    ensures SeqOf(WithRecorded(backed, t, n), u) == SeqOf(backed, u)
  {
    if backed != [] {
      SeqOfRecorded(backed[1..], t, n, u);
      assert WithRecorded(backed, t, n)[1..] == WithRecorded(backed[1..], t, n);
    }
  }

  /** A lost transaction message goes back to the front of the queue. */
  lemma RequeueRel(c: Config, k: Core, m: View, p: Waiting)
    requires Rel(c, k, {p}, m) && k.inflight.None? && RecordedAs(m.backed, p.token, p.call.attempts)
    requires p.call.transactional && c.retry.MayRetry(p.call.attempts)
    requires p.token < |m.calls| && m.calls[p.token].lostAt == Some(k.now) && p.stored == m.calls[p.token].stored
    requires Lost(m.calls[p.token]) && m.cancelling == None
    requires forall j :: 0 <= j < |k.queue| && k.queue[j].call.transactional ==> p.token < k.queue[j].token
    ensures var w := p.(notBefore := Some(SaturatingAdd(k.now, c.retry.DelayAfter(p.call.attempts))));
            Rel(c, k.(queue := [w] + k.queue), {}, m)
  {
    var w := p.(notBefore := Some(SaturatingAdd(k.now, c.retry.DelayAfter(p.call.attempts))));
    var k' := k.(queue := [w] + k.queue);
    assert p in {p};
    RequeueApart(k, p, w, k.store);
    RequeueAgrees(c, k, k', m, p, w);
  }

  lemma RequeueAgrees(c: Config, k: Core, k': Core, m: View, p: Waiting, w: Waiting)
    requires Agrees(c, k, {p}, m) && InOrder(k) && k.inflight.None?
    requires Fits(m, w) && Ready(c, m, w)
    requires k'.queue == [w] + k.queue && k'.inflight == None
    requires forall j :: 0 <= j < |k.queue| && k.queue[j].call.transactional ==> w.token < k.queue[j].token
    ensures Agrees(c, k', {}, m) && InOrder(k')
  {
  }

  lemma RequeueApart(k: Core, p: Waiting, w: Waiting, store: Store)
    requires Apart(k, {p}) && w.token == p.token && k.inflight.None?
    ensures var k' := k.(queue := [w] + k.queue, store := store);
            Apart(k', {}) && Held(k', {}) == Held(k, {p})
  {
    assert p in {p};
    TokensAppend(k.queue, w);
    forall j | 0 <= j < |k.queue|
      ensures k.queue[j].token != w.token
    {
      assert k.queue[j].token in Tokens(k.queue);
    }
  }

  lemma RecordStore(store: Store, m: View, p: Waiting)
    requires StoreRel(store, m) && p.stored.Some? && p.stored == SeqOf(m.backed, p.token)
    ensures StoreRel(SetAttempts(store, p.stored.value, p.call.attempts),
                     m.(backed := WithRecorded(m.backed, p.token, p.call.attempts)))
  {
    var q, n := p.stored.value, p.call.attempts;
    SetAttemptsOrdered(store, q, n);
    RecordEntries(store, m, p.token, q, n);
  }

  lemma RecordEntries(store: Store, m: View, t: Token, q: Seq, n: nat)
    requires StoreRel(store, m) && SeqOf(m.backed, t) == Some(q)
    ensures var entries, r := WithAttempts(store.entries, q, n), WithRecorded(m.backed, t, n);
            forall k :: 0 <= k < |r| ==> entries[k] == Entry(r[k].seqNo, r[k].call)
  {
    hide WithAttempts, WithRecorded;
    var i := SeqOfSome(m.backed, t);
    WithAttemptsAt(store.entries, q, n);
    forall k | 0 <= k < |m.backed|
      ensures (store.entries[k].seqNo == q) == (m.backed[k].token == t)
    {
      assert k < i ==> store.entries[k].seqNo < store.entries[i].seqNo && m.backed[k].token < m.backed[i].token;
      assert i < k ==> store.entries[i].seqNo < store.entries[k].seqNo && m.backed[i].token < m.backed[k].token;
    }
  }

  /** The store gained exactly the new message, or nothing. */
  ghost predicate Gained(before: Store, after: Store, w: Waiting)
  {
    && Ordered(after)
    && (w.stored.None? ==> after.entries == before.entries)
    && (w.stored.Some? ==> after.entries == before.entries + [Entry(w.stored.value, w.call)])
  }

  lemma IssueStore(before: Store, after: Store, m: View, w: Waiting)
    requires StoreRel(before, m) && Gained(before, after, w) && w.token == |m.calls|
    ensures StoreRel(after, Next(m, Issued(w.token, w.call, w.triggered, w.stored, w.queueWhenOffline)))
  {
    var m' := Next(m, Issued(w.token, w.call, w.triggered, w.stored, w.queueWhenOffline));
    assert m'.calls[w.token].call == w.call;
    forall i | 0 <= i < |m'.backed|
      ensures && after.entries[i] == Entry(m'.backed[i].seqNo, m'.backed[i].call)
              && m'.backed[i].token < |m'.calls| && !m'.calls[m'.backed[i].token].finished
              && SameMessage(m'.calls[m'.backed[i].token].call, m'.backed[i].call)
    {
      if i < |m.backed| {
        assert m'.backed[i] == m.backed[i] && after.entries[i] == before.entries[i];
        assert m.backed[i].token < |m.calls|;
      }
    }
  }

  lemma IssueView(c: Config, k: Core, m: View, w: Waiting)
    requires Agrees(c, k, {}, m) && StoreRel(k.store, m) && w.token == |m.calls|
    ensures var m' := Next(m, Issued(w.token, w.call, w.triggered, w.stored, w.queueWhenOffline));
            Agrees(c, k, {}, m') && Fits(m', w) && Ready(c, m', w)
    ensures w.token !in Held(k, {})
  {
    var m' := Next(m, Issued(w.token, w.call, w.triggered, w.stored, w.queueWhenOffline));
    SeqOfNone(m.backed, w.token);
    forall u: Token
      ensures SeqOf(m'.backed, u) == if u == w.token then w.stored else SeqOf(m.backed, u)
    {
      if w.stored.Some? {
        SeqOfAppend(m.backed, Backed(w.token, w.stored.value, w.call), u);
      }
    }
    assert forall u: Token, n: nat :: u != w.token ==> RecordedAs(m'.backed, u, n) == RecordedAs(m.backed, u, n) by {
      assert forall k :: 0 <= k < |m.backed| ==> m'.backed[k] == m.backed[k];
    }
    AgreesElsewhere(c, k, {}, m, m', w.token);
  }

  lemma AppendApart(k: Core, k': Core, w: Waiting)
    requires Apart(k, {}) && InOrder(k) && w.token !in Held(k, {})
    requires k'.queue == k.queue + [w] && k'.inflight == k.inflight
    requires forall i :: 0 <= i < |k.queue| ==> k.queue[i].token < w.token
    requires k.inflight.Some? ==> k.inflight.value.entry.token < w.token
    ensures Apart(k', {}) && InOrder(k') && Held(k', {}) == Held(k, {}) + {w.token}
  {
    TokensAppend(k.queue, w);
  }

  lemma AppendAgrees(c: Config, k: Core, k': Core, m: View, w: Waiting)
    requires Agrees(c, k, {}, m) && Fits(m, w) && Ready(c, m, w)
    requires k'.queue == k.queue + [w] && k'.inflight == k.inflight
    ensures Agrees(c, k', {}, m)
  {
  }

  /** A new call joins the queue. */
  lemma IssueQueued(c: Config, k: Core, m: View, w: Waiting, store: Store)
    requires Rel(c, k, {}, m) && Gained(k.store, store, w)
    requires w.token == k.nextToken && WellFormedCall(w.call)
    requires k.draining.None? && (m.ready ==> w.call.attempts == 0)
    requires store.capacity == k.store.capacity && (w.stored.Some? && m.ready ==> !Full(k.store))
    requires w.stored.None? ==> store.nextSeq == k.store.nextSeq
    requires w.stored.Some? && m.ready ==> w.stored.value == k.store.nextSeq && store.nextSeq == k.store.nextSeq + 1
    requires w.stored.Some? && !m.ready ==> m.nextSeq <= w.stored.value < store.nextSeq
    ensures var e := Issued(w.token, w.call, w.triggered, w.stored, w.queueWhenOffline);
            var k' := k.(nextToken := k.nextToken + 1, store := store, queue := k.queue + [w]);
            Allowed(c, m, e) && Rel(c, k', {}, Next(m, e))
  {
    var k' := k.(nextToken := k.nextToken + 1, store := store, queue := k.queue + [w]);
    var m' := Next(m, Issued(w.token, w.call, w.triggered, w.stored, w.queueWhenOffline));
    hide Globals, Agrees, Apart, Covered, InOrder, StoreRel, WellFormedCall, Gained;
    IssueView(c, k, m, w);
    IssueStore(k.store, store, m, w);
    HeldEarlier(c, k, m);
    RoomLeft(c, k, m);
    AppendApart(k, k', w);
    AppendAgrees(c, k, k', m', w);
    IssueGlobals(c, k, k', m, w);
    IssueCovered(k, k', {}, m, w);
  }

  lemma RoomLeft(c: Config, k: Core, m: View)
    requires Globals(c, k, m) && StoreRel(k.store, m)
    ensures m.ready && !Full(k.store) && m.capacity.Some? ==> |m.backed| < m.capacity.value
  {
  }

  lemma HeldEarlier(c: Config, k: Core, m: View)
    requires Agrees(c, k, {}, m) && Globals(c, k, m)
    ensures forall i :: 0 <= i < |k.queue| ==> k.queue[i].token < k.nextToken
    ensures k.inflight.Some? ==> k.inflight.value.entry.token < k.nextToken
    ensures |m.calls| == k.nextToken
  {
  }

  /** A new call that will fail on the spot. */
  lemma IssueInHand(c: Config, k: Core, m: View, w: Waiting)
    requires Rel(c, k, {}, m) && w.stored == None
    requires w.token == k.nextToken && WellFormedCall(w.call)
    requires k.draining.None? && w.call.attempts == 0
    ensures var e := Issued(w.token, w.call, w.triggered, w.stored, w.queueWhenOffline);
            Allowed(c, m, e) && Rel(c, k.(nextToken := k.nextToken + 1), {w}, Next(m, e))
  {
    hide Globals, Agrees, Apart, Covered, InOrder, StoreRel, WellFormedCall;
    var k' := k.(nextToken := k.nextToken + 1);
    HeldEarlier(c, k, m);
    IssueView(c, k, m, w);
    GainedNothing(k.store, m, w);
    IssueStore(k.store, k.store, m, w);
    IssueGlobals(c, k, k', m, w);
    HandApart(c, k, k', w, Next(m, Issued(w.token, w.call, w.triggered, w.stored, w.queueWhenOffline)));
    IssueCovered(k, k', {w}, m, w);
  }

  lemma HandApart(c: Config, k: Core, k': Core, w: Waiting, m: View)
    requires Apart(k, {}) && InOrder(k) && w.token !in Held(k, {}) && Agrees(c, k, {}, m) && Fits(m, w)
    requires k'.queue == k.queue && k'.inflight == k.inflight
    ensures Apart(k', {w}) && InOrder(k') && Held(k', {w}) == Held(k, {}) + {w.token} && Agrees(c, k', {w}, m)
  {
    assert w in {w};
    assert HandTokens({w}) == {w.token};
  }

  lemma IssueCovered(k: Core, k': Core, hand: set<Waiting>, m: View, w: Waiting)
    requires Covered(k, {}, m) && w.token == |m.calls| && Held(k', hand) == Held(k, {}) + {w.token}
    ensures Covered(k', hand, Next(m, Issued(w.token, w.call, w.triggered, w.stored, w.queueWhenOffline)))
  {
    hide Held;
  }

  lemma IssueGlobals(c: Config, k: Core, k': Core, m: View, w: Waiting)
    requires Globals(c, k, m) && w.token == k.nextToken && WellFormedCall(w.call)
    requires k.draining.None? && (m.ready ==> w.call.attempts == 0)
    requires k' == k.(nextToken := k.nextToken + 1, store := k'.store, queue := k'.queue)
    requires k'.store.capacity == k.store.capacity
    requires w.stored.Some? && m.ready && m.capacity.Some? ==> |m.backed| < m.capacity.value
    requires w.stored.None? ==> k'.store.nextSeq == k.store.nextSeq
    requires w.stored.Some? && m.ready ==> w.stored.value == k.store.nextSeq && k'.store.nextSeq == k.store.nextSeq + 1
    requires w.stored.Some? && !m.ready ==> m.nextSeq <= w.stored.value < k'.store.nextSeq
    ensures var e := Issued(w.token, w.call, w.triggered, w.stored, w.queueWhenOffline);
            Allowed(c, m, e) && Globals(c, k', Next(m, e))
  {
  }

  lemma GainedNothing(store: Store, m: View, w: Waiting)
    requires StoreRel(store, m) && w.stored.None?
    ensures Gained(store, store, w)
  {
  }

  // -- transmissions ------------------------------------------------------------------------

  /** The queued call at `i` may go out: nothing earlier of its kind is still waiting. */
  lemma TransmissionAllowed(c: Config, s: State, hand: set<Waiting>, i: nat)
    requires Inv(c, s, hand) && i < |s.queue| && Eligible(c, s, i) && s.connected
    requires s.queue[i].call.kind == CALL ==> s.inflight.None?
    requires forall p :: p in hand ==> !p.call.transactional
    ensures Allowed(c, Watch(s.log), WireOf(c, s, s.queue[i]))
  {
    var k, m, p := CoreOf(s), Watch(s.log), s.queue[i];
    assert Fits(m, p) && Ready(c, m, p);
    assert WellFormedCall(m.calls[p.token].call);
    if p.call.transactional {
      OldestIsNext(c, k, hand, m, i);
    }
  }

  lemma OldestIsNext(c: Config, k: Core, hand: set<Waiting>, m: View, i: nat)
    requires Agrees(c, k, hand, m) && Covered(k, hand, m) && InOrder(k)
    requires i < |k.queue| && k.queue[i].token < |m.calls|
    requires k.inflight.None? && (forall p :: p in hand ==> !p.call.transactional)
    requires OldestTransactional(k.queue, 0) == Some(i)
    ensures EarlierTransactionsOver(m, k.queue[i].token)
  {
    forall u | 0 <= u < k.queue[i].token && m.calls[u].call.transactional
      ensures m.calls[u].finished
    {
      assert m.calls[u].finished || u in Held(k, hand);
    }
  }

  /** The queued call at `i`, transmitted, is in hand with one attempt more. */
  lemma WireRel(c: Config, k: Core, hand: set<Waiting>, m: View, i: nat, e: Event)
    requires Rel(c, k, hand, m) && i < |k.queue| && Allowed(c, m, e)
    requires e.Wire? && e.token == k.queue[i].token && e.kind == SEND && e.serial == k.minted
    requires e.attempt == k.queue[i].call.attempts + 1 && e.at == k.now
    ensures var p := k.queue[i];
            var sent := p.(call := p.call.(attempts := p.call.attempts + 1));
            Rel(c, k.(queue := RemoveAt(k.queue, i), minted := k.minted + 1), hand + {sent}, Next(m, e))
  {
    hide Apart, Covered, InOrder, StoreRel;
    var p := k.queue[i];
    var sent := p.(call := p.call.(attempts := p.call.attempts + 1));
    var k' := k.(queue := RemoveAt(k.queue, i), minted := k.minted + 1);
    WireCalls(c, k, k', hand, m, Next(m, e), i, sent);
    SentStore(k.store, m, Next(m, e));
  }

  lemma WireCalls(c: Config, k: Core, k': Core, hand: set<Waiting>, m: View, m': View, i: nat, sent: Waiting)
    requires Agrees(c, k, hand, m) && Apart(k, hand) && Covered(k, hand, m) && InOrder(k)
    requires i < |k.queue| && k.queue[i].token < |m.calls| == |m'.calls|
    requires var p := k.queue[i];
             && (sent == p.(call := p.call.(attempts := p.call.attempts + 1))
                 || sent == p.(call := p.call.(attempts := p.call.attempts + 1), notBefore := None))
             && m'.calls == m.calls[p.token := m.calls[p.token].(attempts := p.call.attempts + 1,
                                                                 sentAs := m'.calls[p.token].sentAs, lostAt := None)]
    requires m'.backed == m.backed
    requires k'.queue == RemoveAt(k.queue, i) && k'.inflight == k.inflight
    ensures Agrees(c, k', hand + {sent}, m') && Apart(k', hand + {sent}) && InOrder(k')
    ensures Covered(k', hand + {sent}, m')
    ensures forall q :: q in hand ==> q.token != sent.token
    ensures sent.stored == m'.calls[sent.token].stored
  {
    var p := k.queue[i];
    var k1 := k.(queue := RemoveAt(k.queue, i));
    assert Fits(m, p) && Ready(c, m, p);
    assert p.token in Tokens(k.queue);
    LiftApart(k, hand, i);
    LiftAgrees(c, k, hand, m, i);
    assert Covered(k1, hand + {p}, m);
    Replace(c, k1, hand + {p}, m, m', p, sent);
    assert hand + {p} - {p} + {sent} == hand + {sent};
    SameCalls(c, k1, k', hand + {sent}, m');
  }

  /** The queued call at `i`, transmitted, takes the slot. */
  lemma WireCallRel(c: Config, k: Core, hand: set<Waiting>, m: View, i: nat, e: Event, f: InFlight)
    requires Rel(c, k, hand, m) && i < |k.queue| && Allowed(c, m, e)
    requires e.Wire? && e.token == k.queue[i].token && e.kind == CALL && e.serial == k.minted
    requires e.attempt == k.queue[i].call.attempts + 1 && e.at == k.now && e.id == f.id && e.deadline == f.deadline
    requires f.entry == k.queue[i].(call := k.queue[i].call.(attempts := e.attempt), notBefore := None)
    requires k.queue[i].call.kind == CALL
    requires k.queue[i].call.transactional ==> OldestTransactional(k.queue, 0) == Some(i)
    ensures Rel(c, k.(queue := RemoveAt(k.queue, i), minted := k.minted + 1, inflight := Some(f)), hand, Next(m, e))
  {
    hide Agrees, Apart, Covered, InOrder, StoreRel;
    var k1 := k.(queue := RemoveAt(k.queue, i), minted := k.minted + 1);
    var k' := k1.(inflight := Some(f));
    var m' := Next(m, e);
    WireCalls(c, k, k1, hand, m, m', i, f.entry);
    IntoSlot(c, k1, k', hand, m', f);
    OldestFirst(k, k', i);
    SentStore(k.store, m, m');
  }

  lemma OldestFirst(k: Core, k': Core, i: nat)
    requires InOrder(k) && i < |k.queue| && k'.queue == RemoveAt(k.queue, i) && k'.inflight.Some?
    requires k'.inflight.value.entry.token == k.queue[i].token
    requires k'.inflight.value.entry.call.transactional == k.queue[i].call.transactional
    requires k.queue[i].call.transactional ==> OldestTransactional(k.queue, 0) == Some(i)
    ensures InOrder(k')
  {
  }

  lemma SentStore(store: Store, m: View, m': View)
    requires StoreRel(store, m) && m'.backed == m.backed && |m'.calls| == |m.calls|
    requires forall t :: 0 <= t < |m.calls| ==>
               m'.calls[t].call == m.calls[t].call && m'.calls[t].finished == m.calls[t].finished
    ensures StoreRel(store, m')
  {
  }

  /** A call in hand is put in the empty slot. */
  lemma IntoSlot(c: Config, k1: Core, k': Core, hand: set<Waiting>, m: View, f: InFlight)
    requires k1.inflight.None? && k' == k1.(inflight := Some(f))
    requires Agrees(c, k1, hand + {f.entry}, m) && Apart(k1, hand + {f.entry}) && Covered(k1, hand + {f.entry}, m)
    requires f.entry.token < |m.calls| && Outstanding(m, f)
    requires forall p :: p in hand ==> p.token != f.entry.token
    ensures Agrees(c, k', hand, m) && Apart(k', hand) && Covered(k', hand, m)
  {
    assert f.entry in hand + {f.entry};
    assert Held(k', hand) == Held(k1, hand + {f.entry});
  }
}
