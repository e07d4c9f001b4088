/** From the machine that numbers events to the ledger that counts them: at-least-once delivery gives
    exactly-once accounting (src/station/transactions.rs, src/csms/ledger.rs). */
module ExactlyOnce {
  import opened Basics
  import opened Transactions
  import L = Ledger
  import LedgerTheorems
  import Decimals

  // -- the life of a station ----------------------------------------------------------------

  datatype Command =
    | Report(conditions: Conditions, now: int)
    | Tell(trigger: string, now: int)
    | Stop(reason: string, now: int)
    | Reboot(prefix: string)

  /** The machine, the prefixes of earlier boots, and everything it ever wanted sent. */
  datatype Life = Life(machine: Machine, past: set<string>, log: seq<TxEvent>)

  /** A new machine that resumes what was running, under another prefix. */
  function Rebooted(m: Machine, prefix: string): (r: Machine)
  {
    var n := Fresh(m.startPoints, m.stopPoints, prefix);
    if m.active.Some? then Resume(n, m.active.value.id, m.active.value.nextSeq, m.conditions) else n
  }

  function Respond(m: Machine, c: Command): (r: Outcome)
  {
    match c
    case Report(conditions, now) => Observe(m, conditions, now)
    case Tell(trigger, now) => Update(m, trigger, now)
    case Stop(reason, now) => Abort(m, reason, now)
    case Reboot(prefix) => Outcome(Rebooted(m, prefix), [])
  }

  function Advance(l: Life, c: Command): (r: Life)
  {
    var o := Respond(l.machine, c);
    Life(o.machine, if c.Reboot? then l.past + {l.machine.ids.prefix} else l.past, l.log + o.events)
  }

  function LifeAfter(l: Life, cmds: seq<Command>): (r: Life)
  {
    if cmds == [] then l else Advance(LifeAfter(l, cmds[..|cmds| - 1]), cmds[|cmds| - 1])
  }

  /** A reboot comes with a prefix that meets no earlier one. */
  predicate Renews(l: Life, c: Command)
  {
    c.Reboot? ==> !Clash(l.machine.ids.prefix, c.prefix) && forall p :: p in l.past ==> !Clash(p, c.prefix)
  }

  predicate AllRenew(l: Life, cmds: seq<Command>)
  {
    cmds == [] ||
    (AllRenew(l, cmds[..|cmds| - 1]) && Renews(LifeAfter(l, cmds[..|cmds| - 1]), cmds[|cmds| - 1]))
  }

  // -- one transaction's events -------------------------------------------------------------

  ghost function Trace(log: seq<TxEvent>, id: string): (es: seq<TxEvent>)
  {
    if log == [] then []
    else Trace(log[..|log| - 1], id) + if log[|log| - 1].id == id then [log[|log| - 1]] else []
  }

  /** Numbered from zero without a hole, started by the first event and not ended before the last. */
  ghost predicate Running(es: seq<TxEvent>)
  {
    && es != []
    && (forall k :: 0 <= k < |es| ==> es[k].seqNo == k)
    && es[0].kind == Started
    && (forall k :: 0 < k < |es| ==> es[k].kind == Updated)
  }

  ghost predicate Complete(es: seq<TxEvent>)
  {
    && |es| >= 2
    && Running(es[..|es| - 1])
    && es[|es| - 1].seqNo == |es| - 1
    && es[|es| - 1].kind.Ended?
  }

  ghost predicate Tracked(l: Life, id: string)
  {
    var es, a := Trace(l.log, id), l.machine.active;
    if a.Some? && a.value.id == id then Running(es) && |es| == a.value.nextSeq
    else es == [] || Complete(es)
  }

  /** Some boot of the station, this one or an earlier one, issued the id. */
  ghost predicate Issued(l: Life, id: string)
  {
    exists p, n :: IssuedAs(l, id, p, n)
  }

  ghost predicate IssuedAs(l: Life, id: string, p: string, n: nat)
  {
    && id == IdText(Ids(p, n)) && n >= 1
    && (p in l.past || (p == l.machine.ids.prefix && n < l.machine.ids.next))
  }

  /** The counter has started, and this boot's prefix meets no earlier one. */
  ghost predicate Numbering(l: Life)
  {
    l.machine.ids.next >= 1 && forall p :: p in l.past ==> !Clash(p, l.machine.ids.prefix)
  }

  ghost predicate Orderly(l: Life)
  {
    && Numbering(l)
    && (forall k :: 0 <= k < |l.log| ==> Issued(l, l.log[k].id))
    && (forall id :: Tracked(l, id))
  }

  lemma TraceMore(log: seq<TxEvent>, e: TxEvent, id: string)
    ensures Trace(log + [e], id) == Trace(log, id) + if e.id == id then [e] else []
  {
    assert (log + [e])[..|log|] == log;
  }

  lemma {:induction false} TraceOfUnknown(log: seq<TxEvent>, id: string)
    requires forall k :: 0 <= k < |log| ==> log[k].id != id
    ensures Trace(log, id) == []
  {
    if log != [] {
      TraceOfUnknown(log[..|log| - 1], id);
    }
  }

  /** The id about to be issued has not been issued before. */
  lemma NextIsNew(l: Life)
    requires Numbering(l)
    ensures !Issued(l, IdText(l.machine.ids))
  {
    var ids := l.machine.ids;
    forall p, n
      ensures !IssuedAs(l, IdText(ids), p, n)
    {
      if p == ids.prefix {
        OneGeneratorNeverRepeats(p, ids.next, n);
      }
      if IssuedAs(l, IdText(ids), p, n) {
        PrefixesMeetIff(p, ids.prefix);
        assert MeetAt(p, n, ids.prefix, ids.next);
      }
    }
  }

  lemma StaysIssued(l: Life, c: Command, id: string)
    requires Renews(l, c) && Issued(l, id)
    ensures Issued(Advance(l, c), id)
  {
    var p, n: nat :| IssuedAs(l, id, p, n);
    assert IssuedAs(Advance(l, c), id, p, n);
  }

  lemma AdvanceKeeps(l: Life, c: Command)
    requires Orderly(l) && Renews(l, c)
    ensures Orderly(Advance(l, c))
  {
    hide Issued, Tracked, Turning, IdText, TriggerFor, StoppedReason;
    var r := Advance(l, c);
    EventIssued(l, c);
    forall k | 0 <= k < |r.log|
      ensures Issued(r, r.log[k].id)
    {
      if k < |l.log| {
        StaysIssued(l, c, l.log[k].id);
      }
    }
    forall id
      ensures Tracked(r, id)
    {
      StaysTracked(l, c, id);
    }
  }

  /** What a step emits carries the id of the running transaction, or the next new one. */
  lemma EventIssued(l: Life, c: Command)
    requires Orderly(l) && Renews(l, c)
    ensures forall k :: 0 <= k < |Respond(l.machine, c).events| ==>
                          Issued(Advance(l, c), Respond(l.machine, c).events[k].id)
  {
    hide Turning, TriggerFor, StoppedReason, IdText, Issued, IssuedAs;
    var m, r := l.machine, Advance(l, c);
    if m.active.Some? {
      ActiveIssued(l);
      StaysIssued(l, c, m.active.value.id);
    } else if r.machine.active.Some? {
      NowIssued(l, r);
    }
  }

  lemma NowIssued(l: Life, r: Life)
    requires l.machine.ids.next >= 1
    requires r.machine.ids == l.machine.ids.(next := l.machine.ids.next + 1)
    ensures Issued(r, IdText(l.machine.ids))
  {
    assert IssuedAs(r, IdText(l.machine.ids), l.machine.ids.prefix, l.machine.ids.next);
  }

  lemma ActiveIssued(l: Life)
    requires Orderly(l) && l.machine.active.Some?
    ensures Issued(l, l.machine.active.value.id)
  {
    hide Issued;
    var id := l.machine.active.value.id;
    assert Tracked(l, id);
    var k := TraceFound(l.log, id);
  }

  lemma {:induction false} TraceFound(log: seq<TxEvent>, id: string) returns (k: nat)
    requires Trace(log, id) != []
    ensures k < |log| && log[k].id == id
  {
    if log[|log| - 1].id == id {
      k := |log| - 1;
    } else {
      k := TraceFound(log[..|log| - 1], id);
    }
  }

  /** A step is silent, or starts a transaction under the next id, or continues or ends the one that
      runs with its next number. */
  ghost predicate Moves(m: Machine, o: Outcome)
  {
    if o.events == [] then o.machine.active == m.active
    else
      && |o.events| == 1
      && var e := o.events[0];
         match m.active
         case None => e.id == IdText(m.ids) && e.seqNo == 0 && e.kind == Started && o.machine.active == Some(Active(e.id, 1))
         case Some(a) =>
           && e.id == a.id && e.seqNo == a.nextSeq
           && match e.kind
              case Started => false
              case Updated => o.machine.active == Some(Active(a.id, a.nextSeq + 1))
              case Ended(_) => o.machine.active == None
  }

  lemma RespondMoves(m: Machine, c: Command)
    ensures Moves(m, Respond(m, c))
  {
    hide Turning, TriggerFor, StoppedReason, IdText;
  }

  lemma StaysTracked(l: Life, c: Command, id: string)
    requires Orderly(l) && Renews(l, c)
    ensures Tracked(Advance(l, c), id)
  {
    hide Respond, IdText, Issued, Trace, Running, Complete;
    assert Tracked(l, id);
    var m, r, o := l.machine, Advance(l, c), Respond(l.machine, c);
    RespondMoves(m, c);
    if o.events == [] {
      assert r.log == l.log;
    } else {
      var e := o.events[0];
      assert r.log == l.log + [e];
      TraceMore(l.log, e, id);
      if m.active.None? {
        NextIsNew(l);
        NewHasNoTrace(l);
      }
      if e.id == id {
        Grown(Trace(l.log, id), e);
      } else {
        assert Trace(r.log, id) == Trace(l.log, id);
      }
    }
  }

  lemma NewHasNoTrace(l: Life)
    requires Orderly(l) && !Issued(l, IdText(l.machine.ids))
    ensures Trace(l.log, IdText(l.machine.ids)) == []
  {
    hide Issued, IdText;
    TraceOfUnknown(l.log, IdText(l.machine.ids));
  }

  lemma Grown(es: seq<TxEvent>, e: TxEvent)
    requires e.seqNo == |es|
    ensures es == [] && e.kind == Started ==> Running(es + [e])
    ensures Running(es) && e.kind == Updated ==> Running(es + [e])
    ensures Running(es) && e.kind.Ended? ==> Complete(es + [e])
  {
    var all := es + [e];
    assert all[..|all| - 1] == es;
  }

  function NewLife(startPoints: set<TxPoint>, stopPoints: set<TxPoint>, prefix: string): (l: Life)
  {
    Life(Fresh(startPoints, stopPoints, prefix), {}, [])
  }

  lemma {:induction false} LifeIsOrderly(l: Life, cmds: seq<Command>)
    requires Orderly(l) && AllRenew(l, cmds)
    ensures Orderly(LifeAfter(l, cmds))
  {
    hide Orderly, Advance;
    if cmds != [] {
      LifeIsOrderly(l, cmds[..|cmds| - 1]);
      AdvanceKeeps(LifeAfter(l, cmds[..|cmds| - 1]), cmds[|cmds| - 1]);
    }
  }

  /** In every life of a station, whatever it observes and however often it reboots, the events of each
      transaction are numbered 0, 1, 2, ... in the order sent; the first starts it and, unless it is the
      one running, the last and only the last ends it. */
  lemma EveryTransactionNumbered(startPoints: set<TxPoint>, stopPoints: set<TxPoint>, prefix: string,
                                 cmds: seq<Command>, id: string)
    requires AllRenew(NewLife(startPoints, stopPoints, prefix), cmds)
    ensures Tracked(LifeAfter(NewLife(startPoints, stopPoints, prefix), cmds), id)
  {
    var l := NewLife(startPoints, stopPoints, prefix);
    assert forall i :: Trace(l.log, i) == [];
    LifeIsOrderly(l, cmds);
  }

  // -- from the station to the ledger -------------------------------------------------------

  /** What the caller attaches to an event before sending it. */
  datatype Content = Content(
    evse: Option<int>,
    connector: Option<int>,
    offline: bool,
    meter: Option<Decimals.Decimal>,
    signed: seq<L.Reading>,
    token: Option<string>)

  function KindOf(k: Kind): (r: L.EventKind)
  {
    match k
    case Started => L.Started
    case Updated => L.Updated
    case Ended(_) => L.Ended
  }

  function Message(station: string, e: TxEvent, x: Content): (r: L.TransactionEvent)
  {
    L.TransactionEvent(station, e.id, x.evse, x.connector, e.seqNo, KindOf(e.kind), e.timestamp, x.offline, x.meter,
                       x.signed, x.token, if e.kind.Ended? then Some(e.kind.reason) else None)
  }

  /** The signed readings attached, each once. */
  ghost function SignedAll(xs: seq<Content>): (m: multiset<L.Reading>)
  {
    if xs == [] then multiset{} else SignedAll(xs[..|xs| - 1]) + multiset(xs[|xs| - 1].signed)
  }

  /** Nothing arrives for the transaction but its own messages, and each arrives at least once. */
  ghost predicate AtLeastOnce(station: string, id: string, es: seq<TxEvent>, xs: seq<Content>,
                              arrivals: seq<L.TransactionEvent>)
    requires |xs| == |es|
  {
    && (forall j :: 0 <= j < |arrivals| && L.KeyOf(arrivals[j]) == (station, id) ==>
          0 <= arrivals[j].seqNo < |es| &&
          arrivals[j] == Message(station, es[arrivals[j].seqNo], xs[arrivals[j].seqNo]))
    && (forall k :: 0 <= k < |es| ==> Message(station, es[k], xs[k]) in arrivals)
  }

  /** The record a ledger owes a completed transaction. */
  ghost predicate Accounted(es: seq<TxEvent>, xs: seq<Content>, r: L.Record)
    requires |xs| == |es| > 0
  {
    && r.endedAt.Some? && r.startedAt.Some?
    && L.Missing(r) == []
    && |r.seen| == |es|
    && (forall k :: k in r.seen <==> 0 <= k < |es|)
    && multiset(r.signed) == SignedAll(xs)
    && (xs[0].meter.Some? && xs[|xs| - 1].meter.Some? ==>
          && r.startedAt == Some(es[0].timestamp) && r.endedAt == Some(es[|es| - 1].timestamp)
          && r.meterStart == xs[0].meter && r.meterStop == xs[|xs| - 1].meter
          && (es[|es| - 1].kind.Ended? ==> r.reason == Some(es[|es| - 1].kind.reason)))
  }

  function BookOf(station: string, es: seq<TxEvent>, xs: seq<Content>): (b: LedgerTheorems.Book)
    requires |xs| == |es|
  {
    map k | 0 <= k < |es| :: k := Message(station, es[k], xs[k])
  }

  /** At-least-once delivery, in any order, among any other traffic, gives exactly-once accounting. */
  lemma ExactlyOnceAccounting(station: string, id: string, es: seq<TxEvent>, xs: seq<Content>,
                              arrivals: seq<L.TransactionEvent>)
    requires Complete(es) && |xs| == |es| && (forall k :: 0 <= k < |es| ==> es[k].id == id)
    requires AtLeastOnce(station, id, es, xs, arrivals)
    ensures Accounted(es, xs, L.RecordFor(LedgerTheorems.IngestAll(L.State(map[], map[]), arrivals), (station, id)))
  {
    hide L.Take, LedgerTheorems.Deliver, LedgerTheorems.IngestAll, L.Missing;
    var key, book := (station, id), BookOf(station, es, xs);
    LedgerTheorems.RecordsAreApart(arrivals, key, book);
    var ds := LedgerTheorems.NumbersFor(arrivals, key);
    AllDelivered(station, id, es, xs, arrivals);
    BookNumbered(station, es, xs);
    RecordSettled(station, es, xs, ds);
  }

  lemma CompleteSize(es: seq<TxEvent>)
    requires Complete(es)
    ensures |es| >= 2
  {
  }

  lemma CompleteNumbers(es: seq<TxEvent>, k: nat)
    requires Complete(es) && k < |es|
    ensures es[k].seqNo == k
    ensures es[k].kind == Started <==> k == 0
    ensures es[k].kind.Ended? <==> k == |es| - 1
  {
    var front := es[..|es| - 1];
    assert k < |front| ==> front[k] == es[k];
    assert front[0] == es[0];
  }

  lemma BookNumbered(station: string, es: seq<TxEvent>, xs: seq<Content>)
    requires Complete(es) && |xs| == |es|
    ensures LedgerTheorems.Numbered(BookOf(station, es, xs))
    ensures xs[0].meter.Some? && xs[|xs| - 1].meter.Some? ==> LedgerTheorems.OneOfEach(BookOf(station, es, xs))
  {
    hide Complete;
    var book := BookOf(station, es, xs);
    forall k | 0 <= k < |es|
      ensures book[k].seqNo == k
      ensures book[k].kind == L.Started <==> k == 0
      ensures book[k].kind == L.Ended <==> k == |es| - 1
    {
      CompleteNumbers(es, k);
    }
  }

  /** The numbers delivered are exactly those of the transaction. */
  lemma AllDelivered(station: string, id: string, es: seq<TxEvent>, xs: seq<Content>, arrivals: seq<L.TransactionEvent>)
    requires Complete(es) && |xs| == |es| && (forall k :: 0 <= k < |es| ==> es[k].id == id)
    requires AtLeastOnce(station, id, es, xs, arrivals)
    ensures forall k :: k in LedgerTheorems.NumbersFor(arrivals, (station, id)) <==> 0 <= k < |es|
  {
    hide Complete, LedgerTheorems.NumbersFor;
    var ds := LedgerTheorems.NumbersFor(arrivals, (station, id));
    forall k
      ensures k in ds <==> 0 <= k < |es|
    {
      LedgerTheorems.NumbersFound(arrivals, (station, id), k);
      if 0 <= k < |es| {
        CompleteNumbers(es, k);
        var j :| 0 <= j < |arrivals| && arrivals[j] == Message(station, es[k], xs[k]);
      }
    }
  }

  lemma RecordSettled(station: string, es: seq<TxEvent>, xs: seq<Content>, ds: seq<int>)
    requires Complete(es) && |xs| == |es| && (forall k :: k in ds <==> 0 <= k < |es|)
    requires LedgerTheorems.Numbered(BookOf(station, es, xs)) && LedgerTheorems.From(BookOf(station, es, xs), ds)
    requires xs[0].meter.Some? && xs[|xs| - 1].meter.Some? ==> LedgerTheorems.OneOfEach(BookOf(station, es, xs))
    ensures Accounted(es, xs, LedgerTheorems.Deliver(BookOf(station, es, xs), ds))
  {
    hide LedgerTheorems.Deliver, LedgerTheorems.OneOfEach, L.Missing, Complete, L.Energy;
    var book := BookOf(station, es, xs);
    var r, s := LedgerTheorems.Deliver(book, ds), LedgerTheorems.Delivered(ds);
    assert forall k :: k in s <==> k in ds;
    LedgerTheorems.DeliverSettles(book, ds);
    CompleteSize(es);
    CompleteNumbers(es, 0);
    CompleteNumbers(es, |es| - 1);
    assert 0 in s && |es| - 1 in s;
    RangeSize(s, |es|);
    assert forall k :: 0 <= k < |ds| ==> ds[k] in ds && 0 <= ds[k] < |es|;
    LedgerTheorems.SignedKeptOnce(book, ds, 0, |es|);
    SignedInOrder(station, es, xs, s, |es|);
    assert xs[..|es|] == xs;
    NothingMissing(r, |es|);
    if xs[0].meter.Some? && xs[|xs| - 1].meter.Some? {
      LedgerTheorems.DeliverRegisters(book, ds);
    }
  }

  lemma NothingMissing(r: L.Record, n: nat)
    requires (forall k :: k in r.seen <==> 0 <= k < n) && (r.highest == -1 || r.highest in r.seen)
    ensures L.Missing(r) == []
  {
    hide L.Missing;
    var gaps := L.Missing(r);
    assert |gaps| == 0 || gaps[0] in gaps;
    LedgerTheorems.MissingAreTheGaps(r);
  }

  lemma {:induction false} RangeSize(s: set<int>, n: nat)
    requires forall k :: k in s <==> 0 <= k < n
    ensures |s| == n
  {
    if n == 0 {
      assert forall k :: k !in s;
      assert s == {};
    } else {
      RangeSize(s - {n - 1}, n - 1);
    }
  }

  lemma {:induction false} SignedInOrder(station: string, es: seq<TxEvent>, xs: seq<Content>, s: set<int>, n: nat)
    requires |xs| == |es| && n <= |es| && (forall k :: k in s <==> 0 <= k < |es|)
    ensures LedgerTheorems.SignedOnce(BookOf(station, es, xs), s, 0, n) == SignedAll(xs[..n])
  {
    if n > 0 {
      SignedInOrder(station, es, xs, s, n - 1);
      assert xs[..n][..n - 1] == xs[..n - 1];
    }
  }

  /** The two ends together: whatever a station lives through, each transaction it completed is
      accounted for once when its messages arrive at least once. */
  lemma StationToLedger(startPoints: set<TxPoint>, stopPoints: set<TxPoint>, prefix: string, cmds: seq<Command>,
                        id: string, station: string, xs: seq<Content>, arrivals: seq<L.TransactionEvent>)
    requires AllRenew(NewLife(startPoints, stopPoints, prefix), cmds)
    requires var l := LifeAfter(NewLife(startPoints, stopPoints, prefix), cmds);
             var es := Trace(l.log, id);
             && es != [] && (l.machine.active.Some? ==> l.machine.active.value.id != id)
             && |xs| == |es| && AtLeastOnce(station, id, es, xs, arrivals)
    ensures var es := Trace(LifeAfter(NewLife(startPoints, stopPoints, prefix), cmds).log, id);
            Accounted(es, xs, L.RecordFor(LedgerTheorems.IngestAll(L.State(map[], map[]), arrivals), (station, id)))
  {
    hide Accounted, AtLeastOnce, AllRenew, LedgerTheorems.IngestAll, LifeAfter, Trace, Complete;
    EveryTransactionNumbered(startPoints, stopPoints, prefix, cmds, id);
    var l := LifeAfter(NewLife(startPoints, stopPoints, prefix), cmds);
    var es := Trace(l.log, id);
    TraceIds(l.log, id);
    ExactlyOnceAccounting(station, id, es, xs, arrivals);
  }

  lemma {:induction false} TraceIds(log: seq<TxEvent>, id: string)
    ensures forall k :: 0 <= k < |Trace(log, id)| ==> Trace(log, id)[k].id == id
  {
    if log != [] {
      TraceIds(log[..|log| - 1], id);
    }
  }
}
