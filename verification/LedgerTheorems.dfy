/** What the ledger holds does not depend on the order or the number of deliveries. */
module LedgerTheorems {
  import opened Basics
  import opened Decimals
  import opened Ledger

  // -- gaps ---------------------------------------------------------------------------------

  /** The gaps are exactly the numbers up to the highest that were not seen, in ascending order. */
  lemma MissingAreTheGaps(r: Record)
    ensures forall k :: k in Missing(r) <==> 0 <= k <= r.highest && k !in r.seen
    ensures forall i, j :: 0 <= i < j < |Missing(r)| ==> Missing(r)[i] < Missing(r)[j]
  {
    MissingFromIs(r, 0);
  }

  lemma {:induction false} MissingFromIs(r: Record, from: int)
    ensures forall k :: k in MissingFrom(r, from) <==> from <= k <= r.highest && k !in r.seen
    ensures forall i, j :: 0 <= i < j < |MissingFrom(r, from)| ==> MissingFrom(r, from)[i] < MissingFrom(r, from)[j]
    decreases r.highest - from
  {
    if from <= r.highest {
      MissingFromIs(r, from + 1);
      var rest := MissingFrom(r, from + 1);
      assert forall i :: 0 <= i < |rest| ==> rest[i] in rest;
    }
  }

  lemma {:induction false} MissingDepends(a: Record, b: Record, from: int)
    requires a.seen == b.seen && a.highest == b.highest
    ensures MissingFrom(a, from) == MissingFrom(b, from)
    decreases a.highest - from
  {
    if from <= a.highest {
      MissingDepends(a, b, from + 1);
    }
  }

  // -- deliveries of one transaction --------------------------------------------------------

  /** The events of a transaction by number. */
  type Book = map<int, TransactionEvent>

  ghost predicate Numbered(book: Book)
  {
    forall n :: n in book ==> book[n].seqNo == n
  }

  /** Every delivery is of an event in the book. */
  ghost predicate From(book: Book, ds: seq<int>)
  {
    forall k :: 0 <= k < |ds| ==> ds[k] in book
  }

  /** The record after these deliveries, in this order, repeats and all. */
  ghost function Deliver(book: Book, ds: seq<int>): (r: Record)
    requires From(book, ds)
  {
    if ds == [] then BLANK else Take(Deliver(book, ds[..|ds| - 1]), book[ds[|ds| - 1]])
  }

  ghost function Delivered(ds: seq<int>): (s: set<int>) { set k | 0 <= k < |ds| :: ds[k] }

  lemma DeliveredMore(ds: seq<int>)
    requires ds != []
    ensures Delivered(ds) == Delivered(ds[..|ds| - 1]) + {ds[|ds| - 1]}
  {
    var front := ds[..|ds| - 1];
    assert forall k :: 0 <= k < |front| ==> front[k] == ds[k];
    assert forall n :: n in Delivered(ds) ==> n in Delivered(front) + {ds[|ds| - 1]};
  }

  /** What the record says, in terms of the set of numbers delivered and nothing else. */
  ghost predicate Settled(book: Book, s: set<int>, r: Record)
    requires forall n :: n in s ==> n in book
  {
    && r.seen == s
    && (forall n :: n in s ==> n <= r.highest)
    && (r.highest == -1 || r.highest in s)
    && r.highest >= -1
    && (r.offline <==> exists n :: n in s && book[n].offline)
    && (r.startedAt.Some? <==> exists n :: n in s && book[n].kind == Started)
    && (r.endedAt.Some? <==> exists n :: n in s && book[n].kind == Ended)
  }

  /** No two start it, no two end it, and what starts or ends it carries a reading. */
  ghost predicate OneOfEach(book: Book)
  {
    && (forall m, n :: m in book && n in book && book[m].kind == book[n].kind != Updated ==> m == n)
    && (forall n :: n in book && book[n].kind != Updated ==> book[n].meter.Some?)
  }

  /** The registers and times are those of the events that start and end the transaction. */
  ghost predicate Registers(book: Book, s: set<int>, r: Record)
    requires forall n :: n in s ==> n in book
  {
    && (forall n :: n in s && book[n].kind == Started ==>
          r.startedAt == Some(book[n].timestamp) && r.meterStart == book[n].meter)
    && (forall n :: n in s && book[n].kind == Ended ==>
          && r.endedAt == Some(book[n].timestamp)
          && r.meterStop == book[n].meter
          && r.reason == book[n].reason)
  }

  lemma {:induction false} DeliverSettles(book: Book, ds: seq<int>)
    requires Numbered(book) && From(book, ds)
    ensures forall n :: n in Delivered(ds) ==> n in book
    ensures Settled(book, Delivered(ds), Deliver(book, ds))
  {
    if ds != [] {
      var front, last := ds[..|ds| - 1], ds[|ds| - 1];
      DeliverSettles(book, front);
      DeliveredMore(ds);
      TakeSettles(book, Delivered(front), Deliver(book, front), last);
    }
  }

  lemma TakeSettles(book: Book, s: set<int>, r: Record, n: int)
    requires Numbered(book) && n in book && forall k :: k in s ==> k in book
    requires Settled(book, s, r)
    ensures Settled(book, s + {n}, Take(r, book[n]))
  {
    hide StartReading, StopReading;
    if n in s {
      assert s + {n} == s;
    } else {
      assert n in s + {n};
      assert forall k :: k in s ==> k in s + {n};
    }
  }

  lemma {:induction false} DeliverRegisters(book: Book, ds: seq<int>)
    requires Numbered(book) && OneOfEach(book) && From(book, ds)
    ensures forall n :: n in Delivered(ds) ==> n in book
    ensures Registers(book, Delivered(ds), Deliver(book, ds))
  {
    if ds != [] {
      var front, last := ds[..|ds| - 1], ds[|ds| - 1];
      DeliverRegisters(book, front);
      DeliverSettles(book, front);
      DeliveredMore(ds);
      TakeRegisters(book, Delivered(front), Deliver(book, front), last);
    }
  }

  lemma TakeRegisters(book: Book, s: set<int>, r: Record, n: int)
    requires Numbered(book) && OneOfEach(book) && n in book && forall k :: k in s ==> k in book
    requires Settled(book, s, r) && Registers(book, s, r)
    ensures Registers(book, s + {n}, Take(r, book[n]))
  {
    if n in s {
      assert s + {n} == s;
    }
  }

  // -- signed readings ----------------------------------------------------------------------

  /** The signed readings of the events in `s` numbered from `lo` up to `hi`, each event once. */
  ghost function SignedOnce(book: Book, s: set<int>, lo: int, hi: int): (m: multiset<Reading>)
    requires forall n :: n in s ==> n in book
    decreases hi - lo
  {
    if hi <= lo then multiset{}
    else SignedOnce(book, s, lo, hi - 1) + if hi - 1 in s then multiset(book[hi - 1].signed) else multiset{}
  }

  lemma {:induction false} SignedOneMore(book: Book, s: set<int>, lo: int, hi: int, n: int)
    requires n in book && n !in s && forall k :: k in s ==> k in book
    ensures SignedOnce(book, s + {n}, lo, hi) ==
            SignedOnce(book, s, lo, hi) + if lo <= n < hi then multiset(book[n].signed) else multiset{}
    decreases hi - lo
  {
    if lo < hi {
      SignedOneMore(book, s, lo, hi - 1, n);
      var before, more := SignedOnce(book, s, lo, hi - 1), multiset(book[n].signed);
      if hi - 1 in s {
        var own := multiset(book[hi - 1].signed);
        assert SignedOnce(book, s, lo, hi) == before + own;
        Swap(before, more, own);
      } else {
        assert SignedOnce(book, s, lo, hi) == before;
      }
    }
  }

  lemma Swap(a: multiset<Reading>, b: multiset<Reading>, c: multiset<Reading>)
    ensures a + b + c == a + c + b
  {
  }

  lemma {:induction false} SignedNone(book: Book, lo: int, hi: int)
    ensures SignedOnce(book, {}, lo, hi) == multiset{}
    decreases hi - lo
  {
    if lo < hi {
      SignedNone(book, lo, hi - 1);
    }
  }

  /** Every signed reading delivered is kept, and kept once however often it came. */
  lemma {:induction false} SignedKeptOnce(book: Book, ds: seq<int>, lo: int, hi: int)
    requires Numbered(book) && From(book, ds) && forall k :: 0 <= k < |ds| ==> lo <= ds[k] < hi
    ensures forall n :: n in Delivered(ds) ==> n in book
    ensures multiset(Deliver(book, ds).signed) == SignedOnce(book, Delivered(ds), lo, hi)
  {
    if ds == [] {
      assert Delivered(ds) == {};
      SignedNone(book, lo, hi);
    } else {
      var front, last := ds[..|ds| - 1], ds[|ds| - 1];
      SignedKeptOnce(book, front, lo, hi);
      DeliverSettles(book, front);
      DeliveredMore(ds);
      var before := Deliver(book, front);
      if last in before.seen {
        assert Delivered(ds) == Delivered(front);
      } else {
        SignedOneMore(book, Delivered(front), lo, hi, last);
        assert Deliver(book, ds).signed == before.signed + book[last].signed;
      }
    }
  }

  // -- order --------------------------------------------------------------------------------

  lemma {:induction false} Bounds(ds: seq<int>) returns (lo: int, hi: int)
    ensures forall k :: 0 <= k < |ds| ==> lo <= ds[k] < hi
  {
    lo, hi := 0, 0;
    if ds != [] {
      var last := ds[|ds| - 1];
      var front := ds[..|ds| - 1];
      assert forall k :: 0 <= k < |front| ==> front[k] == ds[k];
      var l, h := Bounds(front);
      lo := if last < l then last else l;
      hi := if last >= h then last + 1 else h;
    }
  }

  /** Two deliveries of the same events, in any order and with any repeats, leave the same record but
      for which of several tokens, EVSEs and connectors came first, and the order of the readings. */
  lemma OrderDoesNotMatter(book: Book, d1: seq<int>, d2: seq<int>)
    requires Numbered(book) && OneOfEach(book) && From(book, d1) && From(book, d2)
    requires Delivered(d1) == Delivered(d2)
    requires exists n :: n in Delivered(d1) && n in book && book[n].kind == Started
    requires exists n :: n in Delivered(d1) && n in book && book[n].kind == Ended
    ensures var a, b := Deliver(book, d1), Deliver(book, d2);
            && a.seen == b.seen && Missing(a) == Missing(b)
            && a.meterStart == b.meterStart && a.meterStop == b.meterStop && Energy(a) == Energy(b)
            && a.startedAt == b.startedAt && a.endedAt == b.endedAt && a.reason == b.reason
            && a.offline == b.offline
            && multiset(a.signed) == multiset(b.signed)
  {
    hide Deliver, Delivered, OneOfEach;
    DeliverSettles(book, d1);
    DeliverSettles(book, d2);
    DeliverRegisters(book, d1);
    DeliverRegisters(book, d2);
    MissingDepends(Deliver(book, d1), Deliver(book, d2), 0);
    var lo, hi := Bounds(d1 + d2);
    assert forall k :: 0 <= k < |d1| ==> d1[k] == (d1 + d2)[k];
    assert forall k :: 0 <= k < |d2| ==> d2[k] == (d1 + d2)[|d1| + k];
    SignedKeptOnce(book, d1, lo, hi);
    SignedKeptOnce(book, d2, lo, hi);
  }

  /** Why the end has to carry a reading: an update and an end that cross settle on the same stop
      register if and only if the end has a reading, or the update has none or nothing new. */
  lemma CrossingEndAgreesIff(r: Record, update: TransactionEvent, end: TransactionEvent)
    requires update.kind == Updated && end.kind == Ended && r.endedAt.None?
    requires update.seqNo != end.seqNo && update.seqNo !in r.seen && end.seqNo !in r.seen
    ensures Take(Take(r, update), end).meterStop == Take(Take(r, end), update).meterStop <==>
            end.meter.Some? || update.meter.None? || update.meter == r.meterStop
  {
    hide StartReading;
  }

  /** A retry is recognised by its transaction and number alone, whenever it comes and whatever else it
      says, and leaves the ledger as it was. */
  lemma RetryChangesNothing(s: State, events: seq<TransactionEvent>, e: TransactionEvent)
    requires exists k :: 0 <= k < |events| && KeyOf(events[k]) == KeyOf(e) && events[k].seqNo == e.seqNo
    ensures var after := IngestAll(s, events);
            Ingest(after, e) == after && Verdict(RecordFor(after, KeyOf(e)), e) == Duplicate
  {
    hide IngestAll, Apply;
    var k :| 0 <= k < |events| && KeyOf(events[k]) == KeyOf(e) && events[k].seqNo == e.seqNo;
    SeenStays(s, events, events[k]);
    var after := IngestAll(s, events);
    assert after.records[KeyOf(e) := after.records[KeyOf(e)]] == after.records;
  }

  ghost function IngestAll(s: State, events: seq<TransactionEvent>): (n: State)
  {
    if events == [] then s else Ingest(IngestAll(s, events[..|events| - 1]), events[|events| - 1])
  }

  lemma {:induction false} SeenStays(s: State, events: seq<TransactionEvent>, e: TransactionEvent)
    requires e in events
    ensures var after := IngestAll(s, events);
            KeyOf(e) in after.records && e.seqNo in after.records[KeyOf(e)].seen
  {
    hide StartReading, StopReading;
    var front, last := events[..|events| - 1], events[|events| - 1];
    assert events == front + [last];
    if e != last {
      SeenStays(s, front, e);
    }
  }

  /** The energy is the exact difference of the readings the transaction ended and started with. */
  lemma EnergyIsExact(book: Book, ds: seq<int>, first: int, last: int)
    requires Numbered(book) && OneOfEach(book) && From(book, ds)
    requires first in ds && book[first].kind == Started && last in ds && book[last].kind == Ended
    ensures var e := Energy(Deliver(book, ds));
            && e == CheckedSub(book[last].meter.value, book[first].meter.value)
            && (e.Some? ==> Units(e.value) == Units(book[last].meter.value) - Units(book[first].meter.value))
  {
    hide Deliver, CheckedSub, Units;
    assert first in Delivered(ds) && last in Delivered(ds);
    DeliverRegisters(book, ds);
    SumsAreExact(book[last].meter.value, book[first].meter.value);
  }

  // -- many transactions in one ledger ------------------------------------------------------

  /** The numbers delivered for one transaction. */
  ghost function NumbersFor(events: seq<TransactionEvent>, key: Key): (ds: seq<int>)
  {
    if events == [] then []
    else
      var front, last := NumbersFor(events[..|events| - 1], key), events[|events| - 1];
      if KeyOf(last) == key then front + [last.seqNo] else front
  }

  /** Each transaction's record depends on its own deliveries alone. */
  lemma {:induction false} RecordsAreApart(events: seq<TransactionEvent>, key: Key, book: Book)
    requires forall k :: 0 <= k < |events| && KeyOf(events[k]) == key ==>
                           events[k].seqNo in book && book[events[k].seqNo] == events[k]
    ensures From(book, NumbersFor(events, key))
    ensures RecordFor(IngestAll(State(map[], map[]), events), key) == Deliver(book, NumbersFor(events, key))
  {
    hide Take;
    if events != [] {
      var front, last := events[..|events| - 1], events[|events| - 1];
      assert forall k :: 0 <= k < |front| ==> front[k] == events[k];
      RecordsAreApart(front, key, book);
      if KeyOf(last) == key {
        assert last == events[|events| - 1];
        var ds := NumbersFor(events, key);
        assert ds[..|ds| - 1] == NumbersFor(front, key);
      }
    }
  }

  lemma {:induction false} NumbersFound(events: seq<TransactionEvent>, key: Key, n: int)
    ensures n in NumbersFor(events, key) <==> exists k :: 0 <= k < |events| && KeyOf(events[k]) == key && events[k].seqNo == n
  {
    if events != [] {
      var front, last := events[..|events| - 1], events[|events| - 1];
      assert forall k :: 0 <= k < |front| ==> front[k] == events[k];
      NumbersFound(front, key, n);
      assert last == events[|events| - 1];
    }
  }

  // -- events without numbers ---------------------------------------------------------------

  ghost function IngestAllUnsequenced(events: seq<TransactionEvent>): (n: State)
  {
    if events == [] then State(map[], map[])
    else IngestUnsequenced(IngestAllUnsequenced(events[..|events| - 1]), events[|events| - 1])
  }

  /** A record numbered by the ledger itself: as many numbers as distinct events, none missing. */
  ghost predicate Contiguous(s: State, key: Key)
  {
    var r, n := RecordFor(s, key), NextFor(s, key);
    && n >= 0
    && (forall k :: k in r.seen <==> 0 <= k < n)
    && r.highest == n - 1
    && |r.unsequenced| == n
  }

  /** Numbering by arrival never leaves a gap, and counts each kind and instant once. */
  lemma {:induction false} UnsequencedIsContiguous(events: seq<TransactionEvent>, key: Key)
    ensures var s := IngestAllUnsequenced(events);
            && Contiguous(s, key)
            && Missing(RecordFor(s, key)) == []
            && RecordFor(s, key).unsequenced == MarksFor(events, key)
  {
    hide IngestUnsequenced, Contiguous;
    var s := IngestAllUnsequenced(events);
    if events == [] {
      StartsContiguous(key);
    } else {
      var front, last := events[..|events| - 1], events[|events| - 1];
      UnsequencedIsContiguous(front, key);
      StaysContiguous(IngestAllUnsequenced(front), last, key);
      MarksMore(events, key);
    }
    NoGaps(s, key);
  }

  /** The distinct kinds and instants delivered for one transaction. */
  ghost function MarksFor(events: seq<TransactionEvent>, key: Key): (m: set<(EventKind, int)>)
  {
    set k | 0 <= k < |events| && KeyOf(events[k]) == key :: Mark(events[k])
  }

  lemma MarksMore(events: seq<TransactionEvent>, key: Key)
    requires events != []
    ensures var front, last := events[..|events| - 1], events[|events| - 1];
            MarksFor(events, key) == MarksFor(front, key) + if KeyOf(last) == key then {Mark(last)} else {}
  {
    var front, last := events[..|events| - 1], events[|events| - 1];
    assert forall k :: 0 <= k < |front| ==> front[k] == events[k];
    assert last == events[|events| - 1];
  }

  lemma StartsContiguous(key: Key)
    ensures Contiguous(State(map[], map[]), key)
  {
  }

  lemma NoGaps(s: State, key: Key)
    requires Contiguous(s, key)
    ensures Missing(RecordFor(s, key)) == []
  {
    hide Missing, RecordFor;
    var gaps := Missing(RecordFor(s, key));
    assert |gaps| == 0 || gaps[0] in gaps;
    MissingAreTheGaps(RecordFor(s, key));
  }

  lemma StaysContiguous(s: State, e: TransactionEvent, key: Key)
    requires Contiguous(s, key)
    ensures Contiguous(IngestUnsequenced(s, e), key)
    ensures RecordFor(IngestUnsequenced(s, e), key).unsequenced ==
            RecordFor(s, key).unsequenced + if KeyOf(e) == key then {Mark(e)} else {}
  {
    hide IngestUnsequenced, Apply;
    var r := RecordFor(s, key);
    if KeyOf(e) == key && Mark(e) !in r.unsequenced {
      var e' := e.(seqNo := NextFor(s, key));
      UnsequencedNew(s, e);
      Grows(r, e');
    } else {
      UnsequencedElse(s, e, key);
    }
  }

  lemma UnsequencedNew(s: State, e: TransactionEvent)
    requires Mark(e) !in RecordFor(s, KeyOf(e)).unsequenced
    requires NextFor(s, KeyOf(e)) !in RecordFor(s, KeyOf(e)).seen
    ensures var key := KeyOf(e);
            var n, r := IngestUnsequenced(s, e), RecordFor(s, key);
            && NextFor(n, key) == NextFor(s, key) + 1
            && RecordFor(n, key) ==
               Apply(r, e.(seqNo := NextFor(s, key))).(unsequenced := r.unsequenced + {Mark(e)})
  {
    Grows(RecordFor(s, KeyOf(e)), e.(seqNo := NextFor(s, KeyOf(e))));
    hide Apply;
  }

  lemma UnsequencedElse(s: State, e: TransactionEvent, key: Key)
    requires KeyOf(e) != key || Mark(e) in RecordFor(s, key).unsequenced
    ensures var n := IngestUnsequenced(s, e);
            RecordFor(n, key) == RecordFor(s, key) && NextFor(n, key) == NextFor(s, key)
  {
    hide Take;
  }

  lemma Grows(r: Record, e: TransactionEvent)
    ensures var n := Apply(r, e);
            && n.seen == r.seen + {e.seqNo} && n.unsequenced == r.unsequenced
            && n.highest == if r.highest < e.seqNo then e.seqNo else r.highest
  {
    hide StartReading, StopReading;
  }

  /** Pruning a transaction forgets its record but not its counter, so a late event of it opens a
      record with every number before it missing. Without one it would have no gap. */
  lemma GapAfterPrune(s: State, e: TransactionEvent)
    requires KeyOf(e) !in s.records
    ensures Missing(RecordFor(IngestUnsequenced(s, e), KeyOf(e))) == [] <==> NextFor(s, KeyOf(e)) <= 0
  {
    hide StartReading, StopReading;
    var r := RecordFor(IngestUnsequenced(s, e), KeyOf(e));
    MissingAreTheGaps(r);
    var n := NextFor(s, KeyOf(e));
    assert r.seen == {n};
    var gaps := Missing(r);
    assert gaps != [] ==> gaps[0] in gaps;
    assert n > 0 ==> 0 in gaps;
  }
}
