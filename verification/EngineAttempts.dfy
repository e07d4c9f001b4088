/** How often a stored message is transmitted, in one life and over all of them. */
module EngineAttempts {
  import opened Basics
  import opened Messages
  import opened MessageIds
  import opened Queue
  import opened Monitor
  import opened Traces
  import opened EngineModel
  import opened EngineInvariant
  import opened EngineSafety
  import opened EngineTheorems
  import opened EngineRecovery
  import opened EngineLives
  import J = Journal
  import F = FileStore

  // -- how often a message is transmitted over its lives ------------------------------------

  function Larger(a: int, b: int): (r: int) { if a < b then b else a }

  /** What the attempts on record can be at most, given what they were. */
  function RecordLimit(c: Config, attempts: nat): (r: int)
  {
    Larger(attempts, c.retry.attempts - 1)
  }

  /** Transmissions of the message with this token before the life was cut. */
  ghost function SentIn(c: Config, version: Version, f: F.State, l: Life, t: Token): (r: nat)
    requires Dies(c, version, f, l)
  {
    Wires(LifeLog(c, version, f, l)[..l.cut], t)
  }

  /** One life's account of a message: what it had on record, and what it transmitted, come to no more
      than one past the limit; and unless it settled the message, the next life finds all of that on
      record but perhaps the last transmission. */
  lemma LifeAccount(c: Config, version: Version, f: F.State, l: Life, j: nat)
    requires Usable(f) && Dies(c, version, f, l) && j < l.cut
    requires var e := LifeLog(c, version, f, l)[j]; e.Issued? && e.stored.Some?
    ensures var e := LifeLog(c, version, f, l)[j];
            var made := e.call.attempts + SentIn(c, version, f, l, e.token);
            && made <= RecordLimit(c, e.call.attempts) + 1
            && (!SettledIn(c, version, f, l, e.stored.value) ==>
                  && e.stored.value in Reborn(c, version, f, l).live
                  && var on := Reborn(c, version, f, l).live[e.stored.value].attempts;
                     (made == on || made == on + 1) && on <= RecordLimit(c, e.call.attempts))
  {
    hide LogOf, Usable, Accepts, Watch, F.Open, StoredBy, F.Contents;
    var log := LifeLog(c, version, f, l);
    CutReopens(c, version, f, l);
    var p: nat :| Reaches(c, version, f, l, p);
    LifeAccepted(c, version, f, l.cmds);
    PrefixAccepted(c, log, p);
    PrefixAccepted(c, log, l.cut);
    assert log[..l.cut][j] == log[j] && log[..p][j] == log[j];
    SentBounded(c, log[..l.cut], j);
    StoredOrSettled(c, log[..p], j);
    if IsSettled(log[..p], j) {
      SettledReached(c, version, f, l, p, j);
    } else {
      var k := RecordLags(c, log[..p], j);
      EntryLive(F.Open(l.disk).value, k);
      SameWires(log, l.cut, p, log[j].token);
    }
  }

  lemma SentBounded(c: Config, log: seq<Event>, j: nat)
    requires Accepts(c, log) && j < |log| && log[j].Issued?
    ensures log[j].call.attempts + Wires(log, log[j].token) <= RecordLimit(c, log[j].call.attempts) + 1
  {
    hide Accepts, Watch;
    IssuedKept(c, log, j);
    WiresBounded(c, log, log[j].token);
  }

  /** The operation cut short is no transmission. */
  lemma SameWires(log: seq<Event>, cut: nat, p: nat, t: Token)
    requires cut <= p <= |log| && (p == cut || (p == cut + 1 && OpOf(log[cut]).Some?))
    ensures Wires(log[..p], t) == Wires(log[..cut], t)
  {
    if p == cut + 1 {
      assert log[..p][..cut] == log[..cut];
    }
  }

  /** A stored message's record, against what was transmitted. */
  lemma RecordLags(c: Config, log: seq<Event>, j: nat) returns (k: nat)
    requires Accepts(c, log) && j < |log| && log[j].Issued? && log[j].stored.Some? && !IsSettled(log, j)
    ensures k < |StoredBy(log)| && StoredBy(log)[k].seqNo == log[j].stored.value
    ensures var on := StoredBy(log)[k].call.attempts;
            var made := log[j].call.attempts + Wires(log, log[j].token);
            (made == on || made == on + 1) && on <= RecordLimit(c, log[j].call.attempts)
  {
    hide Accepts, Watch, StoredBy, IsSettled;
    var t := log[j].token;
    BackedUntilSettled(c, log, j);
    StoredIsBacked(c, log);
    BackedRises(c, log);
    RecordsLag(c, log);
    IssuedKept(c, log, j);
    AttemptsCount(c, log, t);
    k := SeqOfSome(Watch(log).backed, t);
  }

  /** Transmissions of the message accepted or restored at `j` of this life, in it and in the lives
      after it. */
  ghost function TotalFrom(c: Config, version: Version, f: F.State, lives: seq<Life>, j: nat): (r: nat)
    requires Usable(f) && Possible(c, version, f, lives) && lives != [] && j < lives[0].cut
    requires var e := LifeLog(c, version, f, lives[0])[j]; e.Issued? && e.stored.Some?
    decreases |lives|, 0
  {
    var e := LifeLog(c, version, f, lives[0])[j];
    SentIn(c, version, f, lives[0], e.token) +
    if SettledIn(c, version, f, lives[0], e.stored.value) then 0
    else Total(c, version, Reborn(c, version, f, lives[0]), lives[1..], e.stored.value)
  }

  /** The place of a number among the entries. */
  function PlaceOf(entries: seq<Entry>, q: Seq): (r: nat)
    ensures r < |entries| ==> entries[r].seqNo == q
    ensures r >= |entries| ==> forall i :: 0 <= i < |entries| ==> entries[i].seqNo != q
  {
    if entries == [] || entries[0].seqNo == q then 0 else 1 + PlaceOf(entries[1..], q)
  }

  /** Transmissions of a stored message in these lives. */
  ghost function Total(c: Config, version: Version, f: F.State, lives: seq<Life>, q: Seq): (r: nat)
    requires Usable(f) && Possible(c, version, f, lives)
    decreases |lives|, 1
  {
    var i := PlaceOf(F.Contents(f).entries, q);
    if lives == [] || i >= |F.Contents(f).entries| then 0
    else
      LogOpens(c, version, f, lives[0].cmds);
      TotalFrom(c, version, f, lives, i)
  }

  /** Lives that ended with the message's last transmission not on record. */
  ghost function LapsesFrom(c: Config, version: Version, f: F.State, lives: seq<Life>, j: nat): (r: nat)
    requires Usable(f) && Possible(c, version, f, lives) && lives != [] && j < lives[0].cut
    requires var e := LifeLog(c, version, f, lives[0])[j]; e.Issued? && e.stored.Some?
    decreases |lives|, 0
  {
    var e, g := LifeLog(c, version, f, lives[0])[j], Reborn(c, version, f, lives[0]);
    if SettledIn(c, version, f, lives[0], e.stored.value) || e.stored.value !in g.live then 0
    else
      (if g.live[e.stored.value].attempts == e.call.attempts + SentIn(c, version, f, lives[0], e.token) then 0 else 1)
      + Lapses(c, version, g, lives[1..], e.stored.value)
  }

  ghost function Lapses(c: Config, version: Version, f: F.State, lives: seq<Life>, q: Seq): (r: nat)
    requires Usable(f) && Possible(c, version, f, lives)
    decreases |lives|, 1
  {
    var i := PlaceOf(F.Contents(f).entries, q);
    if lives == [] || i >= |F.Contents(f).entries| then 0
    else
      LogOpens(c, version, f, lives[0].cmds);
      LapsesFrom(c, version, f, lives, i)
  }

  /** Where the count ended: with the transmissions known in the life that settled the message, or with
      the attempts on record in the end. */
  ghost function EndFrom(c: Config, version: Version, f: F.State, lives: seq<Life>, j: nat): (r: nat)
    requires Usable(f) && Possible(c, version, f, lives) && lives != [] && j < lives[0].cut
    requires var e := LifeLog(c, version, f, lives[0])[j]; e.Issued? && e.stored.Some?
    decreases |lives|, 0
  {
    var e := LifeLog(c, version, f, lives[0])[j];
    if SettledIn(c, version, f, lives[0], e.stored.value) then e.call.attempts + SentIn(c, version, f, lives[0], e.token)
    else End(c, version, Reborn(c, version, f, lives[0]), lives[1..], e.stored.value)
  }

  ghost function End(c: Config, version: Version, f: F.State, lives: seq<Life>, q: Seq): (r: nat)
    requires Usable(f) && Possible(c, version, f, lives)
    decreases |lives|, 1
  {
    var i := PlaceOf(F.Contents(f).entries, q);
    if lives == [] || i >= |F.Contents(f).entries| then if q in f.live then f.live[q].attempts else 0
    else
      LogOpens(c, version, f, lives[0].cmds);
      EndFrom(c, version, f, lives, i)
  }

  /** Over all its lives a message is transmitted exactly as often as its count says in the end, and once
      more for every life that ended before its last transmission was on record. The count ends at one
      past the limit at most. */
  lemma {:induction false} TransmissionsOverLives(c: Config, version: Version, f: F.State, lives: seq<Life>, j: nat)
    requires Usable(f) && Possible(c, version, f, lives) && lives != [] && j < lives[0].cut
    requires var e := LifeLog(c, version, f, lives[0])[j]; e.Issued? && e.stored.Some?
    ensures var e := LifeLog(c, version, f, lives[0])[j];
            && e.call.attempts + TotalFrom(c, version, f, lives, j) ==
               EndFrom(c, version, f, lives, j) + LapsesFrom(c, version, f, lives, j)
            && EndFrom(c, version, f, lives, j) <= RecordLimit(c, e.call.attempts) + 1
    decreases |lives|, 0
  {
    hide Usable, LogOf, SettledIn, Reborn, SentIn;
    var e := LifeLog(c, version, f, lives[0])[j];
    LifeAccount(c, version, f, lives[0], j);
    if !SettledIn(c, version, f, lives[0], e.stored.value) {
      LaterTransmissions(c, version, Reborn(c, version, f, lives[0]), lives[1..], e.stored.value);
    }
  }

  lemma {:induction false} LaterTransmissions(c: Config, version: Version, f: F.State, lives: seq<Life>, q: Seq)
    requires Usable(f) && Possible(c, version, f, lives) && q in f.live
    ensures f.live[q].attempts + Total(c, version, f, lives, q) ==
            End(c, version, f, lives, q) + Lapses(c, version, f, lives, q)
    ensures End(c, version, f, lives, q) <= RecordLimit(c, f.live[q].attempts) + 1
    decreases |lives|, 1
  {
    hide LogOf, SettledIn, Reborn, SentIn, TotalFrom, LapsesFrom, EndFrom, J.Listing;
    if lives != [] {
      var i := PlaceOf(F.Contents(f).entries, q);
      var k := RestoredAt(c, version, f, lives[0], q);
      LogOpens(c, version, f, lives[0].cmds);
      EntryLive(f, i);
      TransmissionsOverLives(c, version, f, lives, i);
    }
  }

  /** A new message stays within the policy over all its lives if and only if its lapses fit in what its
      count left of it; in particular without a lapse it always does. */
  lemma WithinPolicyIff(c: Config, version: Version, f: F.State, lives: seq<Life>, j: nat)
    requires Usable(f) && Possible(c, version, f, lives) && lives != [] && j < lives[0].cut
    requires var e := LifeLog(c, version, f, lives[0])[j]; e.Issued? && e.stored.Some? && e.call.attempts == 0
    ensures var most := Larger(1, c.retry.attempts);
            && EndFrom(c, version, f, lives, j) <= most
            && (TotalFrom(c, version, f, lives, j) <= most <==>
                LapsesFrom(c, version, f, lives, j) <= most - EndFrom(c, version, f, lives, j))
  {
    hide TotalFrom, EndFrom, LapsesFrom, LogOf;
    TransmissionsOverLives(c, version, f, lives, j);
  }

  predicate IsRecord(e: Event, t: Token) { e.Recorded? && e.token == t }

  /** The transmission at `i` is the last of the message, and nothing has put it on record. */
  ghost predicate Unrecorded(log: seq<Event>, i: nat, t: Token)
  {
    && i < |log| && IsWire(log[i], t)
    && forall k :: i < k < |log| ==> !IsWire(log[k], t) && !IsRecord(log[k], t)
  }

  /** A record that lags is behind exactly one transmission, the last, which nothing has recorded. */
  lemma {:induction false} LagIsLastWire(c: Config, log: seq<Event>, b: nat) returns (i: nat)
    requires Accepts(c, log) && b < |Watch(log).backed| && Watch(log).backed[b].token < |Watch(log).calls|
    requires var m := Watch(log); m.calls[m.backed[b].token].attempts != m.backed[b].call.attempts
    ensures Unrecorded(log, i, Watch(log).backed[b].token)
  {
    hide Accepts, Watch, Allowed, Next, Rises;
    if log == [] {
      UnwatchedIsStart(log);
      assert false;
    }
    var n := |log| - 1;
    var t := Watch(log).backed[b].token;
    Unroll(c, log);
    BackedRises(c, log[..n]);
    if IsWire(log[n], t) {
      i := n;
    } else {
      var a := LagBefore(c, Watch(log[..n]), log[n], b);
      i := LagIsLastWire(c, log[..n], a);
    }
  }

  /** And a last transmission that nothing has recorded leaves the record lagging. */
  lemma {:induction false} LastWireLags(c: Config, log: seq<Event>, i: nat, b: nat)
    requires Accepts(c, log) && b < |Watch(log).backed| && Watch(log).backed[b].token < |Watch(log).calls|
    requires Unrecorded(log, i, Watch(log).backed[b].token)
    ensures var m := Watch(log); m.calls[m.backed[b].token].attempts != m.backed[b].call.attempts
  {
    hide Accepts, Watch, Allowed, Next, Rises;
    var n := |log| - 1;
    var t := Watch(log).backed[b].token;
    Unroll(c, log);
    BackedRises(c, log[..n]);
    if i == n {
      WireLags(c, Watch(log[..n]), log[n], b);
    } else {
      assert log[..n][i] == log[i];
      WireKnown(c, log[..n], i);
      var a := RecordBefore(c, Watch(log[..n]), log[n], b);
      assert Unrecorded(log[..n], i, t);
      LastWireLags(c, log[..n], i, a);
    }
  }

  lemma WireKnown(c: Config, log: seq<Event>, i: nat)
    requires Accepts(c, log) && i < |log| && log[i].Wire?
    ensures log[i].token < |Watch(log).calls|
  {
    hide Accepts, Watch, Next;
    AcceptsAt(c, log, i);
    CallsGrow(c, log, i);
  }

  lemma WireLags(c: Config, m: View, e: Event, b: nat)
    requires Allowed(c, m, e) && b < |Next(m, e).backed| && IsWire(e, Next(m, e).backed[b].token)
    ensures var n := Next(m, e);
            n.backed[b].token < |n.calls| && n.calls[n.backed[b].token].attempts != n.backed[b].call.attempts
  {
    assert RecordedAs(m.backed, e.token, m.calls[e.token].attempts);
  }

  /** A record, before an event that is neither a transmission nor a record of its message. */
  lemma RecordBefore(c: Config, m: View, e: Event, b: nat) returns (a: nat)
    requires Rises(m) && Allowed(c, m, e) && b < |Next(m, e).backed|
    requires var t := Next(m, e).backed[b].token; t < |m.calls| && !IsWire(e, t) && !IsRecord(e, t)
    ensures a < |m.backed| && m.backed[a] == Next(m, e).backed[b]
    ensures var t := m.backed[a].token;
            t < |Next(m, e).calls| && m.calls[t].attempts == Next(m, e).calls[t].attempts
  {
    hide Rises;
    TokensRise(m);
    if e.Settled? {
      a := PlaceBefore(m.backed, e.token, b);
    } else if e.Recorded? || e.Issued? || e.Wire? {
      a := b;
    } else {
      hide Next, Allowed;
      OtherStep(c, m, e);
      OtherAttempts(c, m, e);
      a := b;
    }
  }

  /** Where the lagging record was before an event that is not its transmission. */
  lemma LagBefore(c: Config, m: View, e: Event, b: nat) returns (a: nat)
    requires Rises(m) && Allowed(c, m, e) && b < |Next(m, e).backed|
    requires var n := Next(m, e);
             && n.backed[b].token < |n.calls| && !IsWire(e, n.backed[b].token)
             && n.calls[n.backed[b].token].attempts != n.backed[b].call.attempts
    ensures a < |m.backed| && m.backed[a].token == Next(m, e).backed[b].token && m.backed[a].token < |m.calls|
    ensures m.calls[m.backed[a].token].attempts != m.backed[a].call.attempts
    ensures !IsRecord(e, m.backed[a].token)
  {
    hide Rises;
    TokensRise(m);
    if e.Settled? {
      a := PlaceBefore(m.backed, e.token, b);
    } else if e.Recorded? || e.Issued? || e.Wire? {
      a := b;
    } else {
      hide Next, Allowed;
      OtherStep(c, m, e);
      OtherAttempts(c, m, e);
      a := b;
    }
  }

  lemma TokensRise(m: View)
    requires Rises(m)
    ensures forall i, j :: 0 <= i < j < |m.backed| ==> m.backed[i].token < m.backed[j].token
    ensures forall i :: 0 <= i < |m.backed| ==> m.backed[i].token < |m.calls|
  {
  }

  lemma PlaceBefore(backed: seq<Backed>, t: Token, b: nat) returns (a: nat)
    requires forall i, j :: 0 <= i < j < |backed| ==> backed[i].token < backed[j].token
    requires b < |WithoutToken(backed, t)|
    ensures a < |backed| && backed[a] == WithoutToken(backed, t)[b]
  {
    if SeqOf(backed, t).Some? {
      var i := SeqOfSome(backed, t);
      WithoutTokenAt(backed, i);
      a := if b < i then b else b + 1;
    } else {
      WithoutTokenAbsent(backed, t);
      a := b;
    }
  }

  /** A life that did not settle the message leaves the record behind if and only if, as far as the device
      can tell, its last transmission was never recorded. */
  lemma LapseIff(c: Config, version: Version, f: F.State, l: Life, j: nat, p: nat)
    requires Usable(f) && Dies(c, version, f, l) && j < l.cut && Reaches(c, version, f, l, p)
    requires var e := LifeLog(c, version, f, l)[j]; e.Issued? && e.stored.Some?
    requires var e, g := LifeLog(c, version, f, l)[j], Reborn(c, version, f, l);
             !SettledIn(c, version, f, l, e.stored.value) && e.stored.value in g.live
    ensures var log, g := LifeLog(c, version, f, l), Reborn(c, version, f, l);
            g.live[log[j].stored.value].attempts != log[j].call.attempts + SentIn(c, version, f, l, log[j].token) <==>
            exists i: nat :: Unrecorded(log[..p], i, log[j].token)
  {
    hide LogOf, Usable, Accepts, Watch, F.Open, StoredBy, F.Contents;
    var log := LifeLog(c, version, f, l);
    LifeAccepted(c, version, f, l.cmds);
    PrefixAccepted(c, log, p);
    assert log[..p][j] == log[j];
    StoredOrSettled(c, log[..p], j);
    if IsSettled(log[..p], j) {
      SettledReached(c, version, f, l, p, j);
      assert false;
    }
    var b := LagAt(c, log[..p], j);
    CutReopens(c, version, f, l);
    EntryLive(F.Open(l.disk).value, b);
    SameWires(log, l.cut, p, log[j].token);
    var m := Watch(log[..p]);
    if m.calls[m.backed[b].token].attempts != m.backed[b].call.attempts {
      var i := LagIsLastWire(c, log[..p], b);
    }
    if i: nat :| Unrecorded(log[..p], i, log[j].token) {
      LastWireLags(c, log[..p], i, b);
    }
  }

  /** Where the record of an unsettled message is. */
  lemma LagAt(c: Config, log: seq<Event>, j: nat) returns (b: nat)
    requires Accepts(c, log) && j < |log| && log[j].Issued? && log[j].stored.Some? && !IsSettled(log, j)
    ensures var m, t := Watch(log), log[j].token;
            && b < |m.backed| && m.backed[b].token == t && t < |m.calls|
            && m.calls[t].attempts == log[j].call.attempts + Wires(log, t)
            && b < |StoredBy(log)| && StoredBy(log)[b] == Entry(log[j].stored.value, m.backed[b].call)
  {
    hide Accepts, Watch, StoredBy, IsSettled;
    BackedUntilSettled(c, log, j);
    StoredIsBacked(c, log);
    IssuedKept(c, log, j);
    AttemptsCount(c, log, log[j].token);
    b := SeqOfSome(Watch(log).backed, log[j].token);
  }

  // -- without bound ------------------------------------------------------------------------

  /** A message waiting alone that may leave as soon as there is a connection. */
  ghost predicate Waits(c: Config, f: F.State, q: Seq, call: QueuedCall)
  {
    && Usable(f) && F.Contents(f).entries == [Entry(q, call)]
    && call.transactional && call.kind == CALL && !Gated(c)
  }

  /** It leaves at once, and nothing is put on record. */
  lemma LeavesAtOnce(c: Config, version: Version, f: F.State, q: Seq, call: QueuedCall)
    requires Waits(c, f, q, call)
    ensures var log := LogOf(c, version, f, [Connect(0, version)]);
            && |log| == 5 && log[0] == Issued(0, call, false, Some(q), true) && log[1] == Opened(f.nextSeq, None)
            && log[2] == Linked(true) && IsWire(log[3], 0) && log[4].Noted?
  {
    hide Final, F.Valid, J.Listing;
    RestoredGoesAtOnce(c, version, F.Contents(f), q, call);
  }

  /** A restored transaction message does not wait, however many of its attempts are on record: the first
      transmission of a run has no loss in it to wait after. */
  lemma RestoredGoesAtOnce(c: Config, version: Version, store: Store, q: Seq, call: QueuedCall)
    requires store.entries == [Entry(q, call)] && call.transactional && call.kind == CALL && !Gated(c)
    ensures var log := Final(c, version, store, [Connect(0, version)]).log;
            && |log| == 5 && log[0] == Issued(0, call, false, Some(q), true) && log[1] == Opened(store.nextSeq, store.capacity)
            && log[2] == Linked(true) && IsWire(log[3], 0) && log[4].Noted?
            && log[3].attempt == call.attempts + 1 && log[3].at == 0
  {
    hide IdText;
    var s := WithStore(c, version, store);
    assert RestoreAll(Blank(c, version, store), 0) == Blank(c, version, store);
    assert RestoreAll(Blank(c, version, store), 1) == Restore(Blank(c, version, store), store.entries[0]);
    var w := Waiting(0, call, Some(q), None, false, true);
    assert s.queue == [w];
    var s1 := ArmHeartbeat(c, Emit(s.(version := version, connected := true, peers := {}), Linked(true)));
    assert s1 == Emit(s.(version := version, connected := true, peers := {}), Linked(true));
    LoneCall(c, s1);
    assert [Connect(0, version)][..0] == [];
    assert Run(c, s, []) == s;
    assert Run(c, s, [Connect(0, version)]) == Apply(c, s, Connect(0, version));
  }

  const PATIENT_STATION :=
    Config(ChargingStation, map[], "cs", 30_000, false, false, RetryPolicy(3, 60_000), false, 100, false, 60_000, 8)

  const TRIED_TWICE := QueuedCall(TransactionEvent, EMPTY_PAYLOAD, CALL, 2, true)

  /** Two attempts on record and a minute between retries: the third goes out at instant zero. */
  lemma ThirdAttemptAtOnce()
    ensures var log := Final(PATIENT_STATION, V201, Store([Entry(0, TRIED_TWICE)], 1, None), [Connect(0, V201)]).log;
            |log| == 5 && IsWire(log[3], 0) && log[3].attempt == 3 && log[3].at == 0
  {
    hide Final;
    RestoredGoesAtOnce(PATIENT_STATION, V201, Store([Entry(0, TRIED_TWICE)], 1, None), 0, TRIED_TWICE);
  }

  lemma LoneCall(c: Config, s: State)
    requires |s.queue| == 1 && s.queue[0].call.transactional && s.queue[0].call.kind == CALL && s.queue[0].notBefore.None?
    requires !Gated(c) && s.connected && s.inflight.None? && s.heartbeatInterval.None?
    ensures var log := Pump(c, s).log;
            |log| == |s.log| + 2 && log[..|s.log|] == s.log
            && IsWire(log[|s.log|], s.queue[0].token) && log[|s.log| + 1].Noted?
            && log[|s.log|].attempt == s.queue[0].call.attempts + 1 && log[|s.log|].at == s.now
  {
    hide IdText;
    assert OldestTransactional(s.queue, 0) == Some(0);
    assert FindEligible(c, s, SEND, 1) == None;
    assert FindEligible(c, s, SEND, 0) == None;
    assert PumpSends(c, s) == s;
    assert FindEligible(c, s, CALL, 0) == Some(0);
  }

  /** A life that connects, transmits, and ends. */
  ghost function BriefLife(c: Config, version: Version, f: F.State): (l: Life)
  {
    Life([Connect(0, version)], 5, f.disk)
  }

  lemma BriefLifeDies(c: Config, version: Version, f: F.State, q: Seq, call: QueuedCall)
    requires Waits(c, f, q, call)
    ensures Dies(c, version, f, BriefLife(c, version, f))
    ensures Waits(c, Reborn(c, version, f, BriefLife(c, version, f)), q, call)
    ensures SentIn(c, version, f, BriefLife(c, version, f), 0) == 1
    ensures !SettledIn(c, version, f, BriefLife(c, version, f), q)
  {
    hide LogOf, F.Valid, F.Open, Sound, J.Listing;
    LeavesAtOnce(c, version, f, q, call);
    var l := BriefLife(c, version, f);
    var log := LifeLog(c, version, f, l);
    NothingWritten(f, log);
    CutUsable(c, version, f, l);
    ReopenSame(f, f.disk);
    OneWire(log);
  }

  lemma NothingWritten(f: F.State, log: seq<Event>)
    requires |log| == 5 && OpOf(log[2]) == None && OpOf(log[3]) == None && OpOf(log[4]) == None
    ensures Written(f, log[2..5]) == f
  {
    hide OpOf;
    var own := log[2..5];
    assert own[..2][..1] == own[..1] && own[..1][..0] == [];
    assert Written(f, own[..1]) == f;
    assert Written(f, own[..2]) == f;
  }

  lemma OneWire(log: seq<Event>)
    requires |log| == 5 && !IsWire(log[0], 0) && !IsWire(log[1], 0) && !IsWire(log[2], 0)
    requires IsWire(log[3], 0) && !IsWire(log[4], 0)
    ensures Wires(log[..5], 0) == 1
  {
    hide IsWire;
    assert log[..5][..4] == log[..4] && log[..4][..3] == log[..3] && log[..3][..2] == log[..2];
    assert log[..2][..1] == log[..1] && log[..1][..0] == [];
    assert Wires(log[..1], 0) == 0;
    assert Wires(log[..2], 0) == 0;
    assert Wires(log[..3], 0) == 0;
    assert Wires(log[..4], 0) == 1;
  }

  /** So the policy bounds one life and not their number: even with a single attempt allowed, a message
      can be transmitted once in each of as many lives as one likes. */
  lemma {:induction false} EveryLifeTransmits(c: Config, version: Version, f: F.State, q: Seq, call: QueuedCall, n: nat)
    returns (lives: seq<Life>)
    requires Waits(c, f, q, call)
    ensures |lives| == n && Possible(c, version, f, lives) && Total(c, version, f, lives, q) == n
    decreases n
  {
    hide Usable, LogOf, Reborn, SettledIn, SentIn, Dies, F.Contents;
    lives := [];
    if n > 0 {
      var l := BriefLife(c, version, f);
      BriefLifeDies(c, version, f, q, call);
      LeavesAtOnce(c, version, f, q, call);
      var rest := EveryLifeTransmits(c, version, Reborn(c, version, f, l), q, call, n - 1);
      lives := [l] + rest;
      assert lives[0] == l && lives[1..] == rest;
      assert PlaceOf([Entry(q, call)], q) == 0;
    }
  }
}
