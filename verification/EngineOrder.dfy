/** Chronological delivery over all the lives of a station. */
module EngineOrder {
  import opened Basics
  import opened Messages
  import opened Queue
  import opened Monitor
  import opened Traces
  import opened EngineModel
  import opened EngineInvariant
  import opened EngineSafety
  import opened EngineTheorems
  import opened EngineRecovery
  import opened EngineLives
  import opened EngineAttempts
  import J = Journal
  import F = FileStore

  // -- in one log ---------------------------------------------------------------------------

  /** The message with this number left the store before position `i`. */
  ghost predicate SettledBefore(log: seq<Event>, q: Seq, i: nat)
  {
    exists s: nat :: s < i && s < |log| && log[s].Settled? && log[s].stored == Some(q)
  }

  /** When a stored transaction message goes out, those accepted before it have left the store. */
  lemma EarlierSettled(c: Config, log: seq<Event>, a: nat, b: nat, i: nat)
    requires Accepts(c, log) && a < b < |log| && i < |log| && log[a].Issued? && log[b].Issued?
    requires log[a].stored.Some? && log[a].call.transactional && log[b].call.transactional
    requires IsWire(log[i], log[b].token)
    ensures SettledBefore(log, log[a].stored.value, i)
  {
    hide Accepts, Watch, Allowed, Next, SettledAt;
    IssuedFirst(c, log, b, i);
    var k := EarlierIsOver(c, log, a, b, i);
    var before := log[..i];
    PrefixAccepted(c, log, i);
    assert before[a] == log[a] && before[k] == log[k];
    OutcomeCounted(before, log[a].token, k);
    ReportedIsSettled(c, before, a);
    var s := SettlingAt(before, a);
    assert log[s] == before[s];
  }

  lemma SettlingAt(log: seq<Event>, j: nat) returns (s: nat)
    requires j < |log| && log[j].Issued? && IsSettled(log, j)
    ensures s < |log| && log[s] == Settled(log[j].token, log[j].stored)
  {
    s :| SettledAt(log, j, s);
  }

  lemma {:induction false} OutcomeCounted(log: seq<Event>, t: Token, k: nat)
    requires k < |log| && IsOutcome(log[k], t)
    ensures Outcomes(log, t) > 0
  {
    if k < |log| - 1 {
      OutcomeCounted(log[..|log| - 1], t, k);
    }
  }

  /** No transmission comes before its call. */
  lemma IssuedFirst(c: Config, log: seq<Event>, b: nat, i: nat)
    requires Accepts(c, log) && b < |log| && i < |log| && log[b].Issued? && IsWire(log[i], log[b].token)
    ensures b < i
  {
    hide Accepts, Watch, Next;
    AcceptsAt(c, log, i);
    AcceptsAt(c, log, b);
    if i < b {
      assert log[..b][..i] == log[..i];
      CallsGrow(c, log[..b], i);
    }
  }

  // -- over lives ---------------------------------------------------------------------------

  /** What happens at a position of a life. */
  ghost function EventIn(c: Config, version: Version, f: F.State, lives: seq<Life>, k: nat, j: nat): (e: Event)
    requires Usable(f) && Possible(c, version, f, lives) && k < |lives| && j < lives[k].cut
  {
    LifeLog(c, version, Found(c, version, f, lives, k), lives[k])[j]
  }

  /** A transaction message was accepted into the store, or restored from it, there. */
  ghost predicate StoresTransaction(e: Event)
  {
    e.Issued? && e.stored.Some? && e.call.transactional
  }

  ghost predicate SettledBetween(c: Config, version: Version, f: F.State, lives: seq<Life>, q: Seq, x: nat, k: nat)
    requires Usable(f) && Possible(c, version, f, lives) && k <= |lives|
  {
    exists m: nat :: x <= m < k && SettledIn(c, version, Found(c, version, f, lives, m), lives[m], q)
  }

  /** The message is in the store when life `k` begins. */
  ghost predicate Awaits(c: Config, version: Version, f: F.State, lives: seq<Life>, q: Seq, call: QueuedCall, k: nat)
    requires Usable(f) && Possible(c, version, f, lives) && k <= |lives|
  {
    var g := Found(c, version, f, lives, k);
    q in g.live && SameMessage(call, g.live[q])
  }

  lemma FoundNext(c: Config, version: Version, f: F.State, lives: seq<Life>, k: nat, j: nat)
    requires Usable(f) && Possible(c, version, f, lives) && k < |lives| && j < lives[k].cut
    requires var e := EventIn(c, version, f, lives, k, j); e.Issued? && e.stored.Some?
    ensures var e := EventIn(c, version, f, lives, k, j);
            || SettledIn(c, version, Found(c, version, f, lives, k), lives[k], e.stored.value)
            || Awaits(c, version, f, lives, e.stored.value, e.call, k + 1)
  {
    hide Usable, LogOf, SettledIn, Reborn, Found;
    LifeKeeps(c, version, Found(c, version, f, lives, k), lives[k], j);
    NextFound(c, version, f, lives, k);
  }

  /** A stored message is settled on the way, or awaits. */
  lemma {:induction false} SettledOrAwaits(c: Config, version: Version, f: F.State, lives: seq<Life>, q: Seq,
                                           call: QueuedCall, x: nat, k: nat)
    requires Usable(f) && Possible(c, version, f, lives) && x <= k <= |lives|
    requires Awaits(c, version, f, lives, q, call, x)
    ensures SettledBetween(c, version, f, lives, q, x, k) || Awaits(c, version, f, lives, q, call, k)
    decreases k
  {
    hide Usable, LogOf, SettledIn, Found, Awaits, Possible;
    if x < k {
      SettledOrAwaits(c, version, f, lives, q, call, x, k - 1);
      if SettledBetween(c, version, f, lives, q, x, k - 1) {
        Wider(c, version, f, lives, q, x, k - 1, x, k);
      } else {
        AwaitsNext(c, version, f, lives, q, call, k - 1);
      }
    }
  }

  lemma AwaitsNext(c: Config, version: Version, f: F.State, lives: seq<Life>, q: Seq, call: QueuedCall, k: nat)
    requires Usable(f) && Possible(c, version, f, lives) && k < |lives| && Awaits(c, version, f, lives, q, call, k)
    ensures || SettledIn(c, version, Found(c, version, f, lives, k), lives[k], q)
            || Awaits(c, version, f, lives, q, call, k + 1)
  {
    hide Usable, LogOf, SettledIn, Found, Possible, Dies;
    FoundDies(c, version, f, lives, k);
    var i := RestoredAt(c, version, Found(c, version, f, lives, k), lives[k], q);
    FoundNext(c, version, f, lives, k, i);
  }

  lemma FoundDies(c: Config, version: Version, f: F.State, lives: seq<Life>, k: nat)
    requires Usable(f) && Possible(c, version, f, lives) && k < |lives|
    ensures var g := Found(c, version, f, lives, k);
            Usable(g) && Dies(c, version, g, lives[k])
  {
    hide Usable, LogOf, Reborn;
    NextFound(c, version, f, lives, k);
  }

  lemma Wider(c: Config, version: Version, f: F.State, lives: seq<Life>, q: Seq, x: nat, k: nat, y: nat, l: nat)
    requires Usable(f) && Possible(c, version, f, lives) && y <= x && k <= l <= |lives|
    requires SettledBetween(c, version, f, lives, q, x, k)
    ensures SettledBetween(c, version, f, lives, q, y, l)
  {
    hide Usable, SettledIn, Found;
    var m: nat :| x <= m < k && SettledIn(c, version, Found(c, version, f, lives, m), lives[m], q);
  }

  /** From acceptance to a later life: settled before it, or awaiting. */
  lemma AcceptedAwaits(c: Config, version: Version, f: F.State, lives: seq<Life>, x: nat, j: nat, k: nat)
    requires Usable(f) && Possible(c, version, f, lives) && x < k <= |lives| && j < lives[x].cut
    requires var e := EventIn(c, version, f, lives, x, j); e.Issued? && e.stored.Some?
    ensures var e := EventIn(c, version, f, lives, x, j);
            || SettledBetween(c, version, f, lives, e.stored.value, x, k)
            || Awaits(c, version, f, lives, e.stored.value, e.call, k)
  {
    hide Usable, LogOf, SettledIn, Found, Awaits, Possible;
    var e := EventIn(c, version, f, lives, x, j);
    FoundNext(c, version, f, lives, x, j);
    if SettledIn(c, version, Found(c, version, f, lives, x), lives[x], e.stored.value) {
      assert SettledBetween(c, version, f, lives, e.stored.value, x, k);
    } else {
      SettledOrAwaits(c, version, f, lives, e.stored.value, e.call, x + 1, k);
      if SettledBetween(c, version, f, lives, e.stored.value, x + 1, k) {
        Wider(c, version, f, lives, e.stored.value, x + 1, k, x, k);
      }
    }
  }

  // -- the order of delivery ----------------------------------------------------------------

  /** Where an awaiting message is restored. */
  lemma Place(c: Config, version: Version, g: F.State, l: Life, q: Seq)
    requires Usable(g) && Dies(c, version, g, l) && q in g.live
    ensures var i := PlaceOf(F.Contents(g).entries, q);
            && i < |F.Contents(g).entries| && i < Opening(g) <= l.cut <= |LifeLog(c, version, g, l)|
            && LifeLog(c, version, g, l)[i] == Issued(i, g.live[q], false, Some(q), true)
  {
    hide LogOf, J.Listing;
    var i := PlaceOf(F.Contents(g).entries, q);
    var k := RestoredAt(c, version, g, l, q);
    EntryLive(g, i);
    LogOpens(c, version, g, l.cmds);
  }

  /** Messages are restored in the order of their numbers. */
  lemma PlacesInOrder(c: Config, version: Version, g: F.State, l: Life, p: Seq, q: Seq)
    requires Usable(g) && Dies(c, version, g, l) && p in g.live && q in g.live && p < q
    ensures PlaceOf(F.Contents(g).entries, p) < PlaceOf(F.Contents(g).entries, q)
  {
    hide LogOf, Dies, F.Contents, F.Valid;
    Place(c, version, g, l, p);
    Place(c, version, g, l, q);
    LowerIsFirst(F.Contents(g), PlaceOf(F.Contents(g).entries, p), PlaceOf(F.Contents(g).entries, q));
  }

  lemma LowerIsFirst(store: Store, a: nat, b: nat)
    requires Ordered(store) && a < |store.entries| && b < |store.entries|
    requires store.entries[a].seqNo < store.entries[b].seqNo
    ensures a < b
  {
  }

  /** Within one life. */
  lemma InOrderInLife(c: Config, version: Version, g: F.State, l: Life, a: nat, b: nat, i: nat)
    requires Usable(g) && Dies(c, version, g, l) && a < b < l.cut && i < l.cut
    requires var log := LifeLog(c, version, g, l);
             StoresTransaction(log[a]) && StoresTransaction(log[b]) && IsWire(log[i], log[b].token)
    ensures SettledBefore(LifeLog(c, version, g, l), LifeLog(c, version, g, l)[a].stored.value, i)
  {
    hide LogOf, Usable;
    LifeAccepted(c, version, g, l.cmds);
    EarlierSettled(c, LifeLog(c, version, g, l), a, b, i);
  }

  /** Two messages that await have a life deliver them in the order of their numbers. */
  lemma AwaitingInOrder(c: Config, version: Version, g: F.State, l: Life, p: Seq, q: Seq, i: nat)
    requires Usable(g) && Dies(c, version, g, l) && p in g.live && q in g.live && p < q
    requires g.live[p].transactional && g.live[q].transactional
    requires i < l.cut && IsWire(LifeLog(c, version, g, l)[i], PlaceOf(F.Contents(g).entries, q))
    ensures SettledBefore(LifeLog(c, version, g, l), p, i)
  {
    hide LogOf, Usable, F.Contents, SettledBefore;
    Place(c, version, g, l, p);
    Place(c, version, g, l, q);
    PlacesInOrder(c, version, g, l, p, q);
    InOrderInLife(c, version, g, l, PlaceOf(F.Contents(g).entries, p), PlaceOf(F.Contents(g).entries, q), i);
  }

  /** The token a message has in a life: its own where it was accepted, its place where it was restored. */
  ghost function TokenIn(c: Config, version: Version, f: F.State, lives: seq<Life>, y: nat, b: nat, k: nat): (t: Token)
    requires Usable(f) && Possible(c, version, f, lives) && y <= k < |lives| && b < lives[y].cut
    requires StoresTransaction(EventIn(c, version, f, lives, y, b))
  {
    var e := EventIn(c, version, f, lives, y, b);
    if k == y then e.token else PlaceOf(F.Contents(Found(c, version, f, lives, k)).entries, e.stored.value)
  }

  /** The message at `a` of life `x` was accepted before the one at `b` of life `y`. */
  ghost predicate Precedes(c: Config, version: Version, f: F.State, lives: seq<Life>, x: nat, a: nat, y: nat, b: nat)
    requires Usable(f) && Possible(c, version, f, lives) && x <= y < |lives|
  {
    if x == y then a < b else b >= Opening(Found(c, version, f, lives, y))
  }

  /** The earlier message has the lower number, unless it is settled before the later one is accepted. */
  lemma LowerNumber(c: Config, version: Version, f: F.State, lives: seq<Life>, x: nat, a: nat, y: nat, b: nat)
    requires Usable(f) && Possible(c, version, f, lives) && x <= y < |lives| && a < lives[x].cut && b < lives[y].cut
    requires StoresTransaction(EventIn(c, version, f, lives, x, a))
    requires StoresTransaction(EventIn(c, version, f, lives, y, b)) && Precedes(c, version, f, lives, x, a, y, b)
    ensures var p, q := EventIn(c, version, f, lives, x, a).stored.value, EventIn(c, version, f, lives, y, b).stored.value;
            SettledBetween(c, version, f, lives, p, x, y) || p < q
  {
    hide Usable, LogOf, SettledIn, Found, Possible, SettledBetween;
    var g, l := Found(c, version, f, lives, y), lives[y];
    FoundDies(c, version, f, lives, y);
    LifeAccepted(c, version, g, l.cmds);
    var log, p := LifeLog(c, version, g, l), EventIn(c, version, f, lives, x, a).stored.value;
    if x == y {
      NumbersRise(c, log, a, b);
    } else {
      AcceptedAwaits(c, version, f, lives, x, a, y);
      if !SettledBetween(c, version, f, lives, p, x, y) {
        Place(c, version, g, l, p);
        NumbersRise(c, log, PlaceOf(F.Contents(g).entries, p), b);
      }
    }
  }

  /** When a stored transaction message is transmitted, in whatever life, every stored transaction message
      accepted before it, in whatever life, has left the store: in an earlier life, or earlier in this. */
  lemma InOrderOverLives(c: Config, version: Version, f: F.State, lives: seq<Life>, x: nat, a: nat, y: nat, b: nat,
                         k: nat, i: nat)
    requires Usable(f) && Possible(c, version, f, lives) && x <= y <= k < |lives|
    requires a < lives[x].cut && b < lives[y].cut && i < lives[k].cut
    requires StoresTransaction(EventIn(c, version, f, lives, x, a))
    requires StoresTransaction(EventIn(c, version, f, lives, y, b)) && Precedes(c, version, f, lives, x, a, y, b)
    requires !SettledBetween(c, version, f, lives, EventIn(c, version, f, lives, y, b).stored.value, y, k)
    requires IsWire(EventIn(c, version, f, lives, k, i), TokenIn(c, version, f, lives, y, b, k))
    ensures var p := EventIn(c, version, f, lives, x, a).stored.value;
            || SettledBetween(c, version, f, lives, p, x, k)
            || SettledBefore(LifeLog(c, version, Found(c, version, f, lives, k), lives[k]), p, i)
  {
    hide Usable, LogOf, SettledIn, Found, Possible, SettledBetween, SettledBefore, F.Contents;
    var g, l := Found(c, version, f, lives, k), lives[k];
    FoundDies(c, version, f, lives, k);
    var p := EventIn(c, version, f, lives, x, a).stored.value;
    if x == k {
      InOrderInLife(c, version, g, l, a, b, i);
    } else {
      AcceptedAwaits(c, version, f, lives, x, a, k);
      if !SettledBetween(c, version, f, lives, p, x, k) {
        if y == k {
          Place(c, version, g, l, p);
          InOrderInLife(c, version, g, l, PlaceOf(F.Contents(g).entries, p), b, i);
        } else {
          BothAwait(c, version, f, lives, x, a, y, b, k, i);
        }
      }
    }
  }

  lemma BothAwait(c: Config, version: Version, f: F.State, lives: seq<Life>, x: nat, a: nat, y: nat, b: nat, k: nat, i: nat)
    requires Usable(f) && Possible(c, version, f, lives) && x <= y < k < |lives|
    requires a < lives[x].cut && b < lives[y].cut && i < lives[k].cut
    requires StoresTransaction(EventIn(c, version, f, lives, x, a))
    requires StoresTransaction(EventIn(c, version, f, lives, y, b)) && Precedes(c, version, f, lives, x, a, y, b)
    requires !SettledBetween(c, version, f, lives, EventIn(c, version, f, lives, y, b).stored.value, y, k)
    requires !SettledBetween(c, version, f, lives, EventIn(c, version, f, lives, x, a).stored.value, x, k)
    requires IsWire(EventIn(c, version, f, lives, k, i), TokenIn(c, version, f, lives, y, b, k))
    ensures SettledBefore(LifeLog(c, version, Found(c, version, f, lives, k), lives[k]),
                          EventIn(c, version, f, lives, x, a).stored.value, i)
  {
    hide Usable, LogOf, SettledIn, Found, Possible, SettledBetween, SettledBefore, F.Contents, Precedes;
    var g, l := Found(c, version, f, lives, k), lives[k];
    FoundDies(c, version, f, lives, k);
    var p, q := EventIn(c, version, f, lives, x, a).stored.value, EventIn(c, version, f, lives, y, b).stored.value;
    AcceptedAwaits(c, version, f, lives, x, a, k);
    AcceptedAwaits(c, version, f, lives, y, b, k);
    LowerNumber(c, version, f, lives, x, a, y, b);
    if SettledBetween(c, version, f, lives, p, x, y) {
      Wider(c, version, f, lives, p, x, y, x, k);
      assert false;
    }
    AwaitingInOrder(c, version, g, l, p, q, i);
  }
}
