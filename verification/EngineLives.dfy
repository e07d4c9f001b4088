/** The engine on its journal, over any number of lives: each ends in a crash at any event of its log,
    between two operations of the store or in the middle of one, and the next reopens what is left. */
module EngineLives {
  import opened Basics
  import opened Messages
  import opened Queue
  import opened Monitor
  import opened Traces
  import opened EngineModel
  import opened EngineInvariant
  import opened EngineSafety
  import opened EngineTheorems
  import opened EngineRecovery
  import EngineHistory
  import opened EngineSubmission
  import J = Journal
  import F = FileStore

  // -- the journal follows the log ----------------------------------------------------------

  /** The operation an event is, if it is one. */
  function OpOf(e: Event): (r: Option<F.Operation>)
  {
    match e
    case Issued(_, call, _, Some(q), _) => Some(F.Put(call))
    case Settled(_, Some(q)) => Some(F.Remove(q))
    case Recorded(_, q, attempts) => Some(F.Note(q, attempts))
    case _ => None
  }

  function Performed(f: F.State, e: Event): (r: F.State)
  {
    if OpOf(e).Some? then F.Perform(f, OpOf(e).value) else f
  }

  function Written(f: F.State, events: seq<Event>): (r: F.State)
  {
    if events == [] then f else Performed(Written(f, events[..|events| - 1]), events[|events| - 1])
  }

  /** One event on the journal does what the log says. */
  lemma FollowsOne(f: F.State, e: Event)
    requires F.Valid(f)
    requires e.Issued? && e.stored.Some? ==> e.stored.value == f.nextSeq
    ensures var r := Performed(f, e);
            && F.Valid(r)
            && F.Contents(r).entries == Stored(F.Contents(f).entries, e)
            && r.nextSeq == if e.Issued? && e.stored.Some? then e.stored.value + 1 else f.nextSeq
  {
    hide F.Valid, F.Perform, J.Listing;
    if OpOf(e).Some? {
      F.AgreesWithMemory(f, OpOf(e).value);
      F.PerformKeepsValid(f, OpOf(e).value);
    }
  }

  ghost function LogOf(c: Config, version: Version, f: F.State, cmds: seq<Command>): (r: seq<Event>)
  {
    Final(c, version, F.Contents(f), cmds).log
  }

  /** Where a life's own events begin: after what it restored. */
  function Opening(f: F.State): (r: nat)
  {
    |F.Contents(f).entries| + 1
  }

  /** A journal an engine can open: valid, and holding what an engine wrote. */
  ghost predicate Usable(f: F.State)
  {
    F.Valid(f) && Sound(F.Contents(f))
  }

  /** A life's log opens by telling what the journal held. */
  lemma LogOpens(c: Config, version: Version, f: F.State, cmds: seq<Command>)
    requires Usable(f)
    ensures var log, n := LogOf(c, version, f, cmds), |F.Contents(f).entries|;
            && Opening(f) <= |log|
            && (forall i :: 0 <= i < n ==>
                  log[i] == Issued(i, F.Contents(f).entries[i].call, false, Some(F.Contents(f).entries[i].seqNo), true))
            && log[n] == Opened(f.nextSeq, None)
  {
    hide Run;
    var store := F.Contents(f);
    var s := WithStore(c, version, store);
    RestartQueuesStored(c, version, store, |store.entries|);
    EngineHistory.RunOnward(c, s, cmds);
    assert s.log <= LogOf(c, version, f, cmds);
  }

  lemma {:induction false} ToldAtOpening(c: Config, log: seq<Event>, entries: seq<Entry>, n: nat)
    requires n <= |log| && n <= |entries|
    requires forall i :: 0 <= i < n ==> log[i] == Issued(i, entries[i].call, false, Some(entries[i].seqNo), true)
    ensures StoredBy(log[..n]) == entries[..n]
  {
    if n > 0 {
      ToldAtOpening(c, log, entries, n - 1);
      assert log[..n][..n - 1] == log[..n - 1];
      assert entries[..n] == entries[..n - 1] + [Entry(entries[n - 1].seqNo, entries[n - 1].call)];
    }
  }

  /** At every moment of a life the journal is valid and holds what the log tells. */
  ghost predicate Follows(f: F.State, log: seq<Event>, p: nat)
    requires Opening(f) <= p <= |log|
  {
    var w := Written(f, log[Opening(f)..p]);
    && F.Valid(w)
    && F.Contents(w).entries == StoredBy(log[..p])
    && Watch(log[..p]).ready && w.nextSeq == Watch(log[..p]).nextSeq
  }

  lemma {:induction false} JournalFollows(c: Config, version: Version, f: F.State, cmds: seq<Command>, p: nat)
    requires Usable(f) && Opening(f) <= p <= |LogOf(c, version, f, cmds)|
    ensures Follows(f, LogOf(c, version, f, cmds), p)
    decreases p
  {
    hide LogOf, Accepts, Watch, Allowed, Next, Usable, Follows, Written, F.Contents;
    var log, n := LogOf(c, version, f, cmds), Opening(f);
    LifeAccepted(c, version, f, cmds);
    if p == n {
      FollowsAtOpening(c, version, f, cmds);
    } else {
      JournalFollows(c, version, f, cmds, p - 1);
      FollowsNext(c, f, log, p - 1);
    }
  }

  lemma JournalHolds(c: Config, version: Version, f: F.State, cmds: seq<Command>, p: nat)
    requires Usable(f) && Opening(f) <= p <= |LogOf(c, version, f, cmds)|
    ensures var w := Written(f, LogOf(c, version, f, cmds)[Opening(f)..p]);
            F.Valid(w) && F.Contents(w).entries == StoredBy(LogOf(c, version, f, cmds)[..p])
  {
    hide LogOf, Usable, Written, F.Contents, F.Valid;
    JournalFollows(c, version, f, cmds, p);
  }

  lemma LifeAccepted(c: Config, version: Version, f: F.State, cmds: seq<Command>)
    requires Usable(f)
    ensures Accepts(c, LogOf(c, version, f, cmds))
  {
    hide Accepts, Final;
    LogAccepted(c, version, F.Contents(f), cmds);
  }

  lemma FollowsAtOpening(c: Config, version: Version, f: F.State, cmds: seq<Command>)
    requires Usable(f) && Opening(f) <= |LogOf(c, version, f, cmds)|
    ensures Follows(f, LogOf(c, version, f, cmds), Opening(f))
  {
    hide LogOf, Accepts, Allowed, F.Valid, Sound;
    var log, n := LogOf(c, version, f, cmds), Opening(f);
    LogOpens(c, version, f, cmds);
    assert log[n..n] == [];
    var entries := F.Contents(f).entries;
    ToldAtOpening(c, log, entries, n - 1);
    assert entries[..n - 1] == entries;
    assert log[..n][..n - 1] == log[..n - 1];
    assert Watch(log[..n]) == Next(Watch(log[..n - 1]), Opened(f.nextSeq, None));
    assert StoredBy(log[..n]) == Stored(StoredBy(log[..n - 1]), Opened(f.nextSeq, None));
  }

  lemma FollowsNext(c: Config, f: F.State, log: seq<Event>, p: nat)
    requires Accepts(c, log) && Opening(f) <= p < |log| && Follows(f, log, p)
    ensures Follows(f, log, p + 1)
  {
    hide Accepts, Watch, Next, Allowed, F.Valid, F.Contents, Stored, Performed;
    var n := Opening(f);
    AcceptsAt(c, log, p);
    assert log[n..p + 1][..p - n] == log[n..p];
    assert log[..p + 1][..p] == log[..p];
    var w := Written(f, log[n..p]);
    NumberedNext(c, Watch(log[..p]), log[p]);
    FollowsOne(w, log[p]);
  }

  lemma NumberedNext(c: Config, m: View, e: Event)
    requires Allowed(c, m, e) && m.ready
    ensures Next(m, e).ready
    ensures e.Issued? && e.stored.Some? ==> e.stored.value == m.nextSeq
    ensures Next(m, e).nextSeq == if e.Issued? && e.stored.Some? then e.stored.value + 1 else m.nextSeq
  {
  }

  // -- one life and its end -----------------------------------------------------------------

  /** What was asked of the engine, the event at which the process died, and what was on the device. */
  datatype Life = Life(cmds: seq<Command>, cut: nat, disk: seq<J.Line>)

  ghost function LifeLog(c: Config, version: Version, f: F.State, l: Life): (r: seq<Event>)
  {
    LogOf(c, version, f, l.cmds)
  }

  /** The life ended at `cut`: after everything before it, or in the middle of the operation there. */
  ghost predicate Dies(c: Config, version: Version, f: F.State, l: Life)
  {
    var log := LifeLog(c, version, f, l);
    && Opening(f) <= l.cut <= |log|
    && var w := Written(f, log[Opening(f)..l.cut]);
       || l.disk == w.disk
       || (l.cut < |log| && OpOf(log[l.cut]).Some? && F.CrashImage(w, OpOf(log[l.cut]).value, l.disk))
  }

  /** How much of the log happened, as far as the device can tell: up to the cut, or with the operation
      that was cut short. */
  ghost predicate Reaches(c: Config, version: Version, f: F.State, l: Life, p: nat)
  {
    var log := LifeLog(c, version, f, l);
    && (p == l.cut || (p == l.cut + 1 && l.cut < |log| && OpOf(log[l.cut]).Some?))
    && p <= |log|
    && F.Open(l.disk).Some?
    && F.Contents(F.Open(l.disk).value).entries == StoredBy(log[..p])
  }

  lemma SameEntries(a: F.State, b: F.State)
    requires F.Valid(a) && F.Valid(b) && a.live == b.live
    ensures F.Contents(a).entries == F.Contents(b).entries
  {
    hide J.Listing, J.Replay;
    if a.nextSeq <= b.nextSeq {
      F.ListingStable(a.live, a.nextSeq, b.nextSeq);
    } else {
      F.ListingStable(a.live, b.nextSeq, a.nextSeq);
    }
  }

  /** Whatever is left reopens to what the log had told at the cut, or just after it. */
  lemma CutReopens(c: Config, version: Version, f: F.State, l: Life)
    requires Usable(f) && Dies(c, version, f, l)
    ensures F.Open(l.disk).Some? && F.Valid(F.Open(l.disk).value)
    ensures exists p: nat :: Reaches(c, version, f, l, p)
  {
    hide LogOf, F.Valid, F.Open, F.Contents, Usable, Watch, Follows, F.CrashImage, F.Perform, StoredBy;
    var log, n := LifeLog(c, version, f, l), Opening(f);
    var w := Written(f, log[n..l.cut]);
    JournalHolds(c, version, f, l.cmds, l.cut);
    if l.disk == w.disk {
      ReopenSame(w, l.disk);
      assert Reaches(c, version, f, l, l.cut);
    } else {
      var op := OpOf(log[l.cut]).value;
      JournalHolds(c, version, f, l.cmds, l.cut + 1);
      assert log[n..l.cut + 1][..l.cut - n] == log[n..l.cut];
      var x := Written(f, log[n..l.cut + 1]);
      assert x == F.Perform(w, op);
      F.CrashRecovers(w, op, l.disk);
      if F.Open(l.disk).value.live == w.live {
        SameEntries(F.Open(l.disk).value, w);
        assert Reaches(c, version, f, l, l.cut);
      } else {
        SameEntries(F.Open(l.disk).value, x);
        assert Reaches(c, version, f, l, l.cut + 1);
      }
    }
  }

  lemma ReopenSame(w: F.State, disk: seq<J.Line>)
    requires F.Valid(w) && disk == w.disk
    ensures F.Open(disk).Some? && F.Valid(F.Open(disk).value)
    ensures F.Contents(F.Open(disk).value).entries == F.Contents(w).entries
  {
    hide F.Open, F.Contents;
    F.OpenFaithful(w);
    SameEntries(F.Open(disk).value, w);
  }

  /** What is reopened is what an engine wrote. */
  lemma CutUsable(c: Config, version: Version, f: F.State, l: Life)
    requires Usable(f) && Dies(c, version, f, l)
    ensures F.Open(l.disk).Some? && Usable(F.Open(l.disk).value)
  {
    hide LogOf, F.Valid, F.Open, Dies;
    CutReopens(c, version, f, l);
    var p: nat :| Reaches(c, version, f, l, p);
    F.ContentsOrdered(F.Open(l.disk).value);
    var log := LifeLog(c, version, f, l);
    forall k | 0 <= k < |StoredBy(log[..p])|
      ensures WellFormedCall(StoredBy(log[..p])[k].call)
    {
      EntryWellFormed(c, version, f, l.cmds, p, k);
    }
  }

  lemma EntryWellFormed(c: Config, version: Version, f: F.State, cmds: seq<Command>, p: nat, k: nat)
    requires Usable(f) && p <= |LogOf(c, version, f, cmds)|
    requires k < |StoredBy(LogOf(c, version, f, cmds)[..p])|
    ensures WellFormedCall(StoredBy(LogOf(c, version, f, cmds)[..p])[k].call)
  {
    hide Accepts, Watch, Allowed, Next, Agrees, Apart, Covered, InOrder, StoreRel, Run, WithStore, StoredBy;
    var log := LogOf(c, version, f, cmds);
    RunKeeps(c, version, F.Contents(f), cmds);
    PrefixAccepted(c, log, p);
    var j := EntryIssued(c, log[..p], k);
    assert log[..p][j] == log[j];
    IssuedKept(c, log, j);
  }

  ghost function Reborn(c: Config, version: Version, f: F.State, l: Life): (r: F.State)
    requires Usable(f) && Dies(c, version, f, l)
    ensures Usable(r)
  {
    CutUsable(c, version, f, l);
    F.Open(l.disk).value
  }

  // -- lives --------------------------------------------------------------------------------

  ghost predicate Possible(c: Config, version: Version, f: F.State, lives: seq<Life>)
    requires Usable(f)
    decreases |lives|
  {
    lives == [] ||
    (Dies(c, version, f, lives[0]) && Possible(c, version, Reborn(c, version, f, lives[0]), lives[1..]))
  }

  /** The journal a later life finds. */
  ghost function Found(c: Config, version: Version, f: F.State, lives: seq<Life>, k: nat): (r: F.State)
    requires Usable(f) && Possible(c, version, f, lives) && k <= |lives|
    ensures Usable(r) && Possible(c, version, r, lives[k..])
    ensures k < |lives| ==> Dies(c, version, r, lives[k])
    decreases |lives|
  {
    if k == 0 then (assert lives[0..] == lives; f)
    else
      assert lives[1..][k - 1..] == lives[k..];
      Found(c, version, Reborn(c, version, f, lives[0]), lives[1..], k - 1)
  }

  /** The message with this number was taken out of the store in this life. */
  ghost predicate SettledIn(c: Config, version: Version, f: F.State, l: Life, q: Seq)
  {
    var log := LifeLog(c, version, f, l);
    exists j: nat, i: nat ::
      j < i <= l.cut && i < |log| && log[j].Issued? && log[j].stored == Some(q) && log[i] == Settled(log[j].token, Some(q))
  }

  /** What becomes of a stored message: settled in one of the lives, each before that having found it in
      the store; or still there, with its contents, at the end. */
  ghost predicate Fate(c: Config, version: Version, f: F.State, lives: seq<Life>, q: Seq, call: QueuedCall)
    requires Usable(f) && Possible(c, version, f, lives)
    decreases |lives|
  {
    && q in f.live && SameMessage(call, f.live[q])
    && (lives == []
        || SettledIn(c, version, f, lives[0], q)
        || Fate(c, version, Reborn(c, version, f, lives[0]), lives[1..], q, call))
  }

  lemma EntryLive(f: F.State, k: nat)
    requires F.Valid(f) && k < |F.Contents(f).entries|
    ensures var e := F.Contents(f).entries[k]; e.seqNo in f.live && f.live[e.seqNo] == e.call
  {
    hide J.Listing, J.Replay;
    J.ListingOrdered(f.live, f.nextSeq);
  }

  lemma SettledReached(c: Config, version: Version, f: F.State, l: Life, p: nat, j: nat)
    requires Reaches(c, version, f, l, p) && j < p
    requires var e := LifeLog(c, version, f, l)[j]; e.Issued? && e.stored.Some?
    requires var log := LifeLog(c, version, f, l); log[..p][j] == log[j] && IsSettled(log[..p], j)
    ensures SettledIn(c, version, f, l, LifeLog(c, version, f, l)[j].stored.value)
  {
    hide LogOf, F.Contents, F.Open, StoredBy;
    var log := LifeLog(c, version, f, l);
    var i: nat :| SettledAt(log[..p], j, i);
    assert log[i] == log[..p][i];
  }

  /** A message accepted in a life before its end is settled in it, or found by the next one. */
  lemma LifeKeeps(c: Config, version: Version, f: F.State, l: Life, j: nat)
    requires Usable(f) && Dies(c, version, f, l) && j < l.cut
    requires var e := LifeLog(c, version, f, l)[j]; e.Issued? && e.stored.Some?
    ensures var e, r := LifeLog(c, version, f, l)[j], Reborn(c, version, f, l);
            SettledIn(c, version, f, l, e.stored.value) ||
            (e.stored.value in r.live && SameMessage(e.call, r.live[e.stored.value]))
  {
    hide LogOf, Usable, Accepts, Watch, Dies, F.Open, StoredBy, F.Contents;
    var log := LifeLog(c, version, f, l);
    CutReopens(c, version, f, l);
    var p: nat :| Reaches(c, version, f, l, p);
    LifeAccepted(c, version, f, l.cmds);
    PrefixAccepted(c, log, p);
    assert log[..p][j] == log[j];
    StoredOrSettled(c, log[..p], j);
    if IsSettled(log[..p], j) {
      SettledReached(c, version, f, l, p, j);
    } else {
      var k :| 0 <= k < |StoredBy(log[..p])| && StoredBy(log[..p])[k].seqNo == log[j].stored.value
               && SameMessage(log[j].call, StoredBy(log[..p])[k].call);
      EntryLive(F.Open(l.disk).value, k);
    }
  }

  /** Where a live message is among those restored. */
  lemma {:induction false} Restored(live: map<Seq, QueuedCall>, n: nat, q: Seq) returns (i: nat)
    requires q in live && q < n
    ensures i < |J.Listing(live, n)| && J.Listing(live, n)[i] == Entry(q, live[q])
  {
    if q == n - 1 {
      i := |J.Listing(live, n)| - 1;
    } else {
      i := Restored(live, n - 1, q);
    }
  }

  lemma RestoredAt(c: Config, version: Version, f: F.State, l: Life, q: Seq) returns (i: nat)
    requires Usable(f) && Dies(c, version, f, l) && q in f.live
    ensures i < l.cut && i < |F.Contents(f).entries| && F.Contents(f).entries[i] == Entry(q, f.live[q])
    ensures LifeLog(c, version, f, l)[i] == Issued(i, f.live[q], false, Some(q), true)
  {
    hide LogOf, J.Listing, J.Replay, Sound;
    LogOpens(c, version, f, l.cmds);
    i := Restored(f.live, f.nextSeq, q);
  }

  /** Through any number of lives and crashes, a stored message is settled in one of them or stored
      still. */
  lemma {:induction false} NeverLost(c: Config, version: Version, f: F.State, lives: seq<Life>, q: Seq, call: QueuedCall)
    requires Usable(f) && Possible(c, version, f, lives) && q in f.live && SameMessage(call, f.live[q])
    ensures Fate(c, version, f, lives, q, call)
    decreases |lives|
  {
    hide Usable, Dies, LogOf, SettledIn, Reborn;
    if lives != [] {
      var i := RestoredAt(c, version, f, lives[0], q);
      LifeKeeps(c, version, f, lives[0], i);
      if !SettledIn(c, version, f, lives[0], q) {
        NeverLost(c, version, Reborn(c, version, f, lives[0]), lives[1..], q, call);
      }
    }
  }

  /** A message accepted in any life is over in that life, or found by the next and never lost after. */
  lemma AcceptedNeverLost(c: Config, version: Version, f: F.State, lives: seq<Life>, k: nat, j: nat)
    requires Usable(f) && Possible(c, version, f, lives) && k < |lives|
    requires j < lives[k].cut
    requires var e := LifeLog(c, version, Found(c, version, f, lives, k), lives[k])[j]; e.Issued? && e.stored.Some?
    ensures var g := Found(c, version, f, lives, k);
            var e := LifeLog(c, version, g, lives[k])[j];
            SettledIn(c, version, g, lives[k], e.stored.value) ||
            Fate(c, version, Found(c, version, f, lives, k + 1), lives[k + 1..], e.stored.value, e.call)
  {
    hide Usable, LogOf, SettledIn, Reborn, Fate;
    var g := Found(c, version, f, lives, k);
    var e := LifeLog(c, version, g, lives[k])[j];
    LifeKeeps(c, version, g, lives[k], j);
    NextFound(c, version, f, lives, k);
    if !SettledIn(c, version, g, lives[k], e.stored.value) {
      NeverLost(c, version, Found(c, version, f, lives, k + 1), lives[k + 1..], e.stored.value, e.call);
    }
  }

  /** Every life but the first finds what the one before left. */
  lemma {:induction false} NextFound(c: Config, version: Version, f: F.State, lives: seq<Life>, k: nat)
    requires Usable(f) && Possible(c, version, f, lives) && k < |lives|
    ensures Dies(c, version, Found(c, version, f, lives, k), lives[k])
    ensures Found(c, version, f, lives, k + 1) == Reborn(c, version, Found(c, version, f, lives, k), lives[k])
    decreases k
  {
    hide Usable, Dies, Reborn;
    if k > 0 {
      NextFound(c, version, Reborn(c, version, f, lives[0]), lives[1..], k - 1);
    } else {
      assert lives[1..][0..] == lives[1..];
      assert Found(c, version, Reborn(c, version, f, lives[0]), lives[1..], 0) == Reborn(c, version, f, lives[0]);
    }
  }

  /** The queue holds, in the order of their numbers, exactly the messages the log accepted and did not
      settle. */
  ghost predicate HoldsUnsettled(queue: seq<Waiting>, log: seq<Event>)
  {
    && (forall a, b :: 0 <= a < b < |queue| ==> NumberedBefore(queue[a], queue[b]))
    && (forall a :: 0 <= a < |queue| ==> IsCarried(log, queue[a]))
    && (forall j: nat :: Unsettled(log, j) ==> IsQueued(queue, log, j))
  }

  ghost predicate IsCarried(log: seq<Event>, w: Waiting)
  {
    exists j: nat :: Carries(log, j, w)
  }

  ghost predicate IsQueued(queue: seq<Waiting>, log: seq<Event>, j: nat)
  {
    exists a :: 0 <= a < |queue| && Carries(log, j, queue[a])
  }

  predicate NumberedBefore(v: Waiting, w: Waiting)
  {
    v.stored.Some? && w.stored.Some? && v.stored.value < w.stored.value
  }

  ghost predicate Unsettled(log: seq<Event>, j: nat)
  {
    j < |log| && log[j].Issued? && log[j].stored.Some? && !IsSettled(log, j)
  }

  /** The waiting message is the one accepted at `j`, which is not settled. */
  ghost predicate Carries(log: seq<Event>, j: nat, w: Waiting)
  {
    Unsettled(log, j) && w.stored == log[j].stored && SameMessage(log[j].call, w.call)
  }

  /** After a crash at any event, in the middle of an operation too, the next engine's queue is exactly
      the messages not settled by then, oldest first. */
  lemma RebuiltQueue(c: Config, version: Version, f: F.State, l: Life)
    requires Usable(f) && Dies(c, version, f, l)
    ensures exists p: nat :: Reaches(c, version, f, l, p) &&
              HoldsUnsettled(WithStore(c, version, F.Contents(Reborn(c, version, f, l))).queue,
                             LifeLog(c, version, f, l)[..p])
  {
    hide LogOf, F.Open, Dies, HoldsUnsettled, WithStore, F.Valid, Sound;
    CutReopens(c, version, f, l);
    CutUsable(c, version, f, l);
    var p: nat :| Reaches(c, version, f, l, p);
    var log, g := LifeLog(c, version, f, l)[..p], Reborn(c, version, f, l);
    LifeAccepted(c, version, f, l.cmds);
    PrefixAccepted(c, LifeLog(c, version, f, l), p);
    QueueOf(c, version, F.Contents(g));
    F.ContentsOrdered(g);
    QueueHolds(c, log, F.Contents(g), WithStore(c, version, F.Contents(g)).queue);
  }

  lemma QueueOf(c: Config, version: Version, store: Store)
    ensures var queue := WithStore(c, version, store).queue;
            && |queue| == |store.entries|
            && forall i :: 0 <= i < |queue| ==>
                 queue[i].call == store.entries[i].call && queue[i].stored == Some(store.entries[i].seqNo)
  {
    RestartQueuesStored(c, version, store, |store.entries|);
  }

  /** The queue is the entries the log tells. */
  ghost predicate Mirrors(queue: seq<Waiting>, log: seq<Event>)
  {
    && |queue| == |StoredBy(log)|
    && forall i :: 0 <= i < |queue| ==>
         queue[i].call == StoredBy(log)[i].call && queue[i].stored == Some(StoredBy(log)[i].seqNo)
  }

  lemma QueueHolds(c: Config, log: seq<Event>, store: Store, queue: seq<Waiting>)
    requires Accepts(c, log) && store.entries == StoredBy(log) && Mirrors(queue, log) && Ordered(store)
    ensures HoldsUnsettled(queue, log)
  {
    hide Accepts, Carries, StoredBy, SettledAt;
    forall a | 0 <= a < |queue|
      ensures IsCarried(log, queue[a])
    {
      var j := QueuedCarries(c, log, queue, a);
    }
    forall j: nat | Unsettled(log, j)
      ensures IsQueued(queue, log, j)
    {
      var a := UnsettledQueued(c, log, queue, j);
    }
    forall a, b | 0 <= a < b < |queue|
      ensures NumberedBefore(queue[a], queue[b])
    {
      assert store.entries[a].seqNo < store.entries[b].seqNo;
    }
  }

  lemma QueuedCarries(c: Config, log: seq<Event>, queue: seq<Waiting>, a: nat) returns (j: nat)
    requires Accepts(c, log) && Mirrors(queue, log) && a < |queue|
    ensures Carries(log, j, queue[a])
  {
    hide Accepts, Watch, StoredBy, SettledAt;
    j := EntryIssued(c, log, a);
    BackedUntilSettled(c, log, j);
  }

  lemma UnsettledQueued(c: Config, log: seq<Event>, queue: seq<Waiting>, j: nat) returns (a: nat)
    requires Accepts(c, log) && Mirrors(queue, log) && Unsettled(log, j)
    ensures a < |queue| && Carries(log, j, queue[a])
  {
    hide Accepts, Watch, StoredBy, SettledAt;
    StoredOrSettled(c, log, j);
    a :| 0 <= a < |StoredBy(log)| && StoredBy(log)[a].seqNo == log[j].stored.value
         && SameMessage(log[j].call, StoredBy(log)[a].call);
  }

  /** A station's first journal, an empty one, is where lives begin. */
  lemma EmptyJournal()
    ensures F.Open([]).Some? && Usable(F.Open([]).value) && F.Open([]).value.live == map[]
  {
    F.OpenReplayed([]);
    F.ContentsOrdered(F.Open([]).value);
  }

  // -- what is accepted by default ----------------------------------------------------------

  const DEFAULT_OPTIONS := CallOptions(false, None, None)

  /** The state in which a life meets its `n`-th command. */
  ghost function Meets(c: Config, version: Version, f: F.State, l: Life, n: nat): (r: State)
    requires n <= |l.cmds|
  {
    Final(c, version, F.Contents(f), l.cmds[..n])
  }

  lemma {:induction false} RunGoesOn(c: Config, s: State, cmds: seq<Command>, n: nat)
    requires n <= |cmds|
    ensures Run(c, s, cmds[..n]).log <= Run(c, s, cmds).log
    decreases |cmds|
  {
    hide Apply;
    if n == |cmds| {
      assert cmds[..n] == cmds;
    } else {
      var front := cmds[..|cmds| - 1];
      assert front[..n] == cmds[..n];
      RunGoesOn(c, s, front, n);
      EngineHistory.ApplyOnward(c, Run(c, s, front), cmds[|cmds| - 1]);
    }
  }

  /** An engine knows its store's capacity from the moment it opened it. */
  lemma {:induction false} CapacityKnown(c: Config, log: seq<Event>, p: nat)
    requires Accepts(c, log) && p < |log| && log[p].Opened?
    ensures Watch(log).ready && Watch(log).capacity == log[p].capacity
  {
    hide Allowed, Next, Accepts, Watch;
    var n := |log| - 1;
    Unroll(c, log);
    CapacityStep(c, Watch(log[..n]), log[n]);
    if p < n {
      CapacityKnown(c, log[..n], p);
    }
  }

  lemma CapacityStep(c: Config, m: View, e: Event)
    requires Allowed(c, m, e)
    ensures if e.Opened? then !m.ready && Next(m, e).ready && Next(m, e).capacity == e.capacity
            else Next(m, e).ready == m.ready && Next(m, e).capacity == m.capacity
  {
    hide Reports, TimerAllowed, Due, RecordedAs, EarlierTransactionsOver, SeqOf;
  }

  /** A journal is never full. */
  lemma RoomInJournal(c: Config, version: Version, f: F.State, cmds: seq<Command>)
    requires Usable(f)
    ensures !Full(Final(c, version, F.Contents(f), cmds).store)
  {
    hide Agrees, Apart, Covered, InOrder, StoreRel, Accepts, Watch, Run, WithStore, F.Valid;
    RunKeeps(c, version, F.Contents(f), cmds);
    LogOpens(c, version, f, cmds);
    CapacityKnown(c, LogOf(c, version, f, cmds), |F.Contents(f).entries|);
  }

  /** A transaction message submitted with default options. */
  ghost predicate SubmitsTransaction(c: Config, s: State, cmd: Command)
  {
    && cmd.Call? && cmd.options == DEFAULT_OPTIONS
    && cmd.action in (if s.version == V16 then {StartTransaction, StopTransaction, MeterValues} else {TransactionEvent})
    && Refuse(c, Advance(s, cmd.now), cmd.action).None? && |s.queue| < c.maxQueued
  }

  /** The submission's mark in the log: issued, and stored. */
  ghost predicate StoresSubmission(e: Event, cmd: Command)
    requires cmd.Call?
  {
    e.Issued? && e.stored.Some? && e.call.action == cmd.action && e.call.payload == cmd.payload && e.keep
  }

  lemma SubmissionStored(c: Config, version: Version, f: F.State, l: Life, n: nat) returns (j: nat)
    requires Usable(f) && n < |l.cmds| && SubmitsTransaction(c, Meets(c, version, f, l, n), l.cmds[n])
    ensures j < |Meets(c, version, f, l, n + 1).log| <= |LifeLog(c, version, f, l)|
    ensures StoresSubmission(LifeLog(c, version, f, l)[j], l.cmds[n])
    ensures |Meets(c, version, f, l, n).log| <= j
  {
    hide F.Valid, WithStore, CallWith, Refuse, IsTransactionRelated;
    var s, r, cmd := Meets(c, version, f, l, n), Meets(c, version, f, l, n + 1), l.cmds[n];
    assert l.cmds[..n + 1][..n] == l.cmds[..n];
    assert r == CallWith(c, s, cmd.now, cmd.action, cmd.payload, cmd.options);
    RoomInJournal(c, version, f, l.cmds[..n]);
    CallSubmits(c, s, cmd.now, cmd.action, cmd.payload, cmd.options);
    j :| Submits(c, s, r, j, cmd.action, cmd.payload, cmd.options);
    RunGoesOn(c, WithStore(c, version, F.Contents(f)), l.cmds, n + 1);
  }

  /** A transaction message submitted with default options to an engine with room in its queue, connected
      or not, is never lost: by the end of any life that saw the call return it is settled, or it is found
      by the next life and never lost after. */
  lemma DefaultTransactionNeverLost(c: Config, version: Version, f: F.State, lives: seq<Life>, k: nat, n: nat)
    requires Usable(f) && Possible(c, version, f, lives) && k < |lives| && n < |lives[k].cmds|
    requires SubmitsTransaction(c, Meets(c, version, Found(c, version, f, lives, k), lives[k], n), lives[k].cmds[n])
    requires |Meets(c, version, Found(c, version, f, lives, k), lives[k], n + 1).log| <= lives[k].cut
    ensures var g := Found(c, version, f, lives, k);
            exists j: nat ::
              && |Meets(c, version, g, lives[k], n).log| <= j < lives[k].cut <= |LifeLog(c, version, g, lives[k])|
              && StoresSubmission(LifeLog(c, version, g, lives[k])[j], lives[k].cmds[n])
              && var e := LifeLog(c, version, g, lives[k])[j];
                 SettledIn(c, version, g, lives[k], e.stored.value) ||
                 Fate(c, version, Found(c, version, f, lives, k + 1), lives[k + 1..], e.stored.value, e.call)
  {
    hide Usable, LogOf, SettledIn, Reborn, Fate, SubmitsTransaction, Meets;
    var g := Found(c, version, f, lives, k);
    var j := SubmissionStored(c, version, g, lives[k], n);
    AcceptedNeverLost(c, version, f, lives, k, j);
  }
}
