/** What the ledger answers and keeps, for any history of deliveries, in terms of the deliveries
    themselves (src/csms/ledger.rs). */
module LedgerHistory {
  import opened Basics
  import opened Decimals
  import opened Ledger
  import opened LedgerTheorems

  const EMPTY := State(map[], map[])

  /** An event of this transaction with this number was delivered. */
  ghost predicate Came(events: seq<TransactionEvent>, key: Key, n: int)
  {
    exists k :: 0 <= k < |events| && KeyOf(events[k]) == key && events[k].seqNo == n
  }

  /** The `k`-th delivery is of this transaction, and the first with its number. */
  ghost predicate Counts(events: seq<TransactionEvent>, key: Key, k: nat)
  {
    && k < |events| && KeyOf(events[k]) == key
    && forall j :: 0 <= j < k && KeyOf(events[j]) == key ==> events[j].seqNo != events[k].seqNo
  }

  ghost predicate EndCame(events: seq<TransactionEvent>, key: Key)
  {
    exists k: nat :: Counts(events, key, k) && events[k].kind == Ended
  }

  // -- the deliveries that count ------------------------------------------------------------

  predicate HasNumber(hs: seq<TransactionEvent>, n: int)
  {
    exists k :: 0 <= k < |hs| && hs[k].seqNo == n
  }

  /** The deliveries of a transaction that bring a new number, in order. */
  function Heard(events: seq<TransactionEvent>, key: Key): (hs: seq<TransactionEvent>)
  {
    if events == [] then []
    else
      var front, last := Heard(events[..|events| - 1], key), events[|events| - 1];
      if KeyOf(last) == key && !HasNumber(front, last.seqNo) then front + [last] else front
  }

  ghost predicate HeardFrom(events: seq<TransactionEvent>, key: Key, hs: seq<TransactionEvent>, places: seq<nat>)
  {
    && |places| == |hs|
    && (forall i :: 0 <= i < |places| ==> places[i] < |events| && hs[i] == events[places[i]] && Counts(events, key, places[i]))
    && (forall i, j :: 0 <= i < j < |places| ==> places[i] < places[j])
    && (forall k: nat :: Counts(events, key, k) ==> k in places)
  }

  /** What is heard is exactly the deliveries that count, in order. */
  lemma {:induction false} HeardPlaces(events: seq<TransactionEvent>, key: Key) returns (places: seq<nat>)
    ensures HeardFrom(events, key, Heard(events, key), places)
  {
    hide HeardFrom;
    if events == [] {
      places := [];
      NothingHeard(key);
    } else {
      var n := |events| - 1;
      var front := HeardPlaces(events[..n], key);
      NumberHeard(events[..n], key, events[n].seqNo);
      HeardMore(events, key, Heard(events[..n], key), front);
      places := if KeyOf(events[n]) == key && !Came(events[..n], key, events[n].seqNo) then front + [n] else front;
    }
  }

  lemma NothingHeard(key: Key)
    ensures HeardFrom([], key, [], [])
  {
  }

  lemma HeardMore(events: seq<TransactionEvent>, key: Key, hs: seq<TransactionEvent>, places: seq<nat>)
    requires events != [] && HeardFrom(events[..|events| - 1], key, hs, places)
    ensures var n := |events| - 1;
            if KeyOf(events[n]) == key && !Came(events[..n], key, events[n].seqNo)
            then HeardFrom(events, key, hs + [events[n]], places + [n])
            else HeardFrom(events, key, hs, places)
  {
    var n := |events| - 1;
    var front := events[..n];
    assert forall k :: 0 <= k < n ==> front[k] == events[k];
    assert forall k: nat :: k < n ==> (Counts(front, key, k) <==> Counts(events, key, k));
    assert Counts(events, key, n) <==> KeyOf(events[n]) == key && !Came(front, key, events[n].seqNo);
    assert forall k: nat :: k in places + [n] <==> k in places || k == n;
  }

  lemma {:induction false} NumberHeard(events: seq<TransactionEvent>, key: Key, n: int)
    ensures HasNumber(Heard(events, key), n) <==> Came(events, key, n)
  {
    if events != [] {
      var front, last := events[..|events| - 1], events[|events| - 1];
      NumberHeard(front, key, n);
      NumberHeard(front, key, last.seqNo);
      CameMore(events, key, n);
      NumberMore(Heard(front, key), last, n);
    }
  }

  lemma CameMore(events: seq<TransactionEvent>, key: Key, n: int)
    requires events != []
    ensures var last := events[|events| - 1];
            Came(events, key, n) <==> Came(events[..|events| - 1], key, n) || (KeyOf(last) == key && last.seqNo == n)
  {
    var front, last := events[..|events| - 1], events[|events| - 1];
    assert forall k :: 0 <= k < |front| ==> front[k] == events[k];
  }

  lemma NumberMore(hs: seq<TransactionEvent>, e: TransactionEvent, n: int)
    ensures HasNumber(hs + [e], n) <==> HasNumber(hs, n) || e.seqNo == n
  {
    var more := hs + [e];
    assert more[|hs|] == e;
    assert forall k :: 0 <= k < |hs| ==> more[k] == hs[k];
  }

  // -- the record they build ----------------------------------------------------------------

  function Build(hs: seq<TransactionEvent>): (r: Record)
  {
    if hs == [] then BLANK else Apply(Build(hs[..|hs| - 1]), hs[|hs| - 1])
  }

  lemma {:induction false} BuiltSeen(hs: seq<TransactionEvent>)
    ensures forall n :: n in Build(hs).seen <==> HasNumber(hs, n)
    ensures Build(hs).highest >= -1 && (Build(hs).highest >= 0 ==> HasNumber(hs, Build(hs).highest))
    ensures forall n :: HasNumber(hs, n) ==> n <= Build(hs).highest
    ensures Build(hs).endedAt.Some? <==> exists k :: 0 <= k < |hs| && hs[k].kind == Ended
  {
    hide Apply;
    if hs != [] {
      var front, last := hs[..|hs| - 1], hs[|hs| - 1];
      BuiltSeen(front);
      Grows(Build(front), last);
      EndGrows(Build(front), last);
      assert hs == front + [last];
      forall n
        ensures HasNumber(hs, n) <==> HasNumber(front, n) || last.seqNo == n
      {
        NumberMore(front, last, n);
      }
    }
  }

  lemma EndGrows(r: Record, e: TransactionEvent)
    ensures Apply(r, e).endedAt.Some? <==> r.endedAt.Some? || e.kind == Ended
  {
    hide StartReading, StopReading;
  }

  /** The record of a transaction is built from the deliveries that count, and from nothing else. */
  lemma {:induction false} RecordIsBuilt(events: seq<TransactionEvent>, key: Key)
    ensures RecordFor(IngestAll(EMPTY, events), key) == Build(Heard(events, key))
  {
    hide Apply;
    if events != [] {
      var front, last := events[..|events| - 1], events[|events| - 1];
      RecordIsBuilt(front, key);
      BuiltSeen(Heard(front, key));
      var hs := Heard(front, key);
      assert (hs + [last])[..|hs|] == hs;
    }
  }

  // -- what the ledger answers --------------------------------------------------------------

  /** With `e` delivered too, this number lies below one that came and has not come itself. */
  ghost predicate Lacking(events: seq<TransactionEvent>, e: TransactionEvent, k: int)
  {
    && k >= 0 && k != e.seqNo && !Came(events, KeyOf(e), k)
    && (k < e.seqNo || exists x :: k < x && Came(events, KeyOf(e), x))
  }

  /** For any history of deliveries, the answer to one more: a duplicate if and only if its number came
      before; else after the end if and only if an end came before; else applied, with a gap of exactly
      the numbers lacking, ascending, and without one if and only if there are none. */
  lemma VerdictTells(events: seq<TransactionEvent>, e: TransactionEvent)
    ensures var key := KeyOf(e);
            var v := Verdict(RecordFor(IngestAll(EMPTY, events), key), e);
            && (v == Duplicate <==> Came(events, key, e.seqNo))
            && (v == AfterEnd <==> !Came(events, key, e.seqNo) && EndCame(events, key))
            && (v == Applied <==> !Came(events, key, e.seqNo) && !EndCame(events, key) && forall k :: !Lacking(events, e, k))
            && (v.AppliedWithGap? ==>
                  && (forall k :: k in v.missing <==> Lacking(events, e, k))
                  && (forall i, j :: 0 <= i < j < |v.missing| ==> v.missing[i] < v.missing[j]))
  {
    hide Apply, Missing, Came, Heard, Counts;
    var key := KeyOf(e);
    var hs := Heard(events, key);
    RecordIsBuilt(events, key);
    BuiltSeen(hs);
    EndHeard(events, key);
    forall n
      ensures HasNumber(hs, n) <==> Came(events, key, n)
    {
      NumberHeard(events, key, n);
    }
    var r := Apply(Build(hs), e);
    Grows(Build(hs), e);
    MissingAreTheGaps(r);
    GapsAreLacking(events, e, hs, r);
    assert Missing(r) != [] ==> Missing(r)[0] in Missing(r);
  }

  lemma GapsAreLacking(events: seq<TransactionEvent>, e: TransactionEvent, hs: seq<TransactionEvent>, r: Record)
    requires forall n :: HasNumber(hs, n) <==> Came(events, KeyOf(e), n)
    requires forall n :: HasNumber(hs, n) ==> n <= Build(hs).highest
    requires Build(hs).highest >= -1 && (Build(hs).highest >= 0 ==> HasNumber(hs, Build(hs).highest))
    requires forall n :: n in r.seen <==> HasNumber(hs, n) || n == e.seqNo
    requires r.highest == if Build(hs).highest < e.seqNo then e.seqNo else Build(hs).highest
    ensures forall k :: Lacking(events, e, k) <==> 0 <= k <= r.highest && k !in r.seen
  {
    hide Came, HasNumber, Build;
    var top := Build(hs).highest;
    forall k | 0 <= k <= r.highest && k !in r.seen
      ensures Lacking(events, e, k)
    {
      if k >= e.seqNo {
        assert k <= top;
        assert Came(events, KeyOf(e), top);
      }
    }
  }

  lemma EndHeard(events: seq<TransactionEvent>, key: Key)
    ensures (exists k :: 0 <= k < |Heard(events, key)| && Heard(events, key)[k].kind == Ended) <==> EndCame(events, key)
  {
    hide Counts, Heard;
    var hs := Heard(events, key);
    var places := HeardPlaces(events, key);
    if k :| 0 <= k < |hs| && hs[k].kind == Ended {
      assert Counts(events, key, places[k]);
    }
    if k: nat :| Counts(events, key, k) && events[k].kind == Ended {
      var i :| 0 <= i < |places| && places[i] == k;
      assert hs[i].kind == Ended;
    }
  }

  // -- what the ledger keeps ----------------------------------------------------------------

  /** The `k`-th is the first that names a token. */
  predicate NamesToken(hs: seq<TransactionEvent>, k: nat)
  {
    k < |hs| && hs[k].token.Some? && forall j :: 0 <= j < k ==> hs[j].token.None?
  }

  predicate NamesEvse(hs: seq<TransactionEvent>, k: nat)
  {
    k < |hs| && hs[k].evse.Some? && forall j :: 0 <= j < k ==> hs[j].evse.None?
  }

  predicate NamesConnector(hs: seq<TransactionEvent>, k: nat)
  {
    k < |hs| && hs[k].connector.Some? && forall j :: 0 <= j < k ==> hs[j].connector.None?
  }

  /** First seen wins: token, EVSE and connector are those of the first delivery that names one, and
      absent if and only if none does. */
  lemma FirstNamedWins(hs: seq<TransactionEvent>)
    ensures forall k: nat :: NamesToken(hs, k) ==> Build(hs).token == hs[k].token
    ensures Build(hs).token.Some? ==> exists k: nat :: NamesToken(hs, k)
    ensures forall k: nat :: NamesEvse(hs, k) ==> Build(hs).evse == hs[k].evse
    ensures Build(hs).evse.Some? ==> exists k: nat :: NamesEvse(hs, k)
    ensures forall k: nat :: NamesConnector(hs, k) ==> Build(hs).connector == hs[k].connector
    ensures Build(hs).connector.Some? ==> exists k: nat :: NamesConnector(hs, k)
  {
    hide Build;
    var i := TokenAt(hs);
    var m := EvseAt(hs);
    var n := ConnectorAt(hs);
  }

  /** Where the token was named; past the end if nowhere. */
  lemma {:induction false} TokenAt(hs: seq<TransactionEvent>) returns (i: nat)
    ensures i < |hs| ==> NamesToken(hs, i) && Build(hs).token == hs[i].token
    ensures i >= |hs| ==> Build(hs).token.None? && forall j :: 0 <= j < |hs| ==> hs[j].token.None?
  {
    hide StartReading, StopReading;
    i := 0;
    if hs != [] {
      var n := |hs| - 1;
      var front := hs[..n];
      assert forall j :: 0 <= j < n ==> front[j] == hs[j];
      i := TokenAt(front);
      if i >= n {
        i := if hs[n].token.Some? then n else n + 1;
      }
    }
  }

  lemma {:induction false} EvseAt(hs: seq<TransactionEvent>) returns (i: nat)
    ensures i < |hs| ==> NamesEvse(hs, i) && Build(hs).evse == hs[i].evse
    ensures i >= |hs| ==> Build(hs).evse.None? && forall j :: 0 <= j < |hs| ==> hs[j].evse.None?
  {
    hide StartReading, StopReading;
    i := 0;
    if hs != [] {
      var n := |hs| - 1;
      var front := hs[..n];
      assert forall j :: 0 <= j < n ==> front[j] == hs[j];
      i := EvseAt(front);
      if i >= n {
        i := if hs[n].evse.Some? then n else n + 1;
      }
    }
  }

  lemma {:induction false} ConnectorAt(hs: seq<TransactionEvent>) returns (i: nat)
    ensures i < |hs| ==> NamesConnector(hs, i) && Build(hs).connector == hs[i].connector
    ensures i >= |hs| ==> Build(hs).connector.None? && forall j :: 0 <= j < |hs| ==> hs[j].connector.None?
  {
    hide StartReading, StopReading;
    i := 0;
    if hs != [] {
      var n := |hs| - 1;
      var front := hs[..n];
      assert forall j :: 0 <= j < n ==> front[j] == hs[j];
      i := ConnectorAt(front);
      if i >= n {
        i := if hs[n].connector.Some? then n else n + 1;
      }
    }
  }

  predicate StartsWith(e: TransactionEvent) { e.kind == Started && e.meter.Some? }

  predicate UpdatesWith(e: TransactionEvent) { e.kind == Updated && e.meter.Some? }

  /** Its reading may be the last: it ends the transaction, or updates it before any end was heard. */
  predicate MayStop(hs: seq<TransactionEvent>, k: nat)
  {
    && k < |hs| && hs[k].meter.Some?
    && (hs[k].kind == Ended || (hs[k].kind == Updated && forall j :: 0 <= j < k ==> hs[j].kind != Ended))
  }

  /** The `k`-th reading is the start register: the latest one a start brought, or, where no start brought
      any, the earliest of an update. */
  predicate IsStart(hs: seq<TransactionEvent>, k: nat)
  {
    k < |hs|
    && (|| (StartsWith(hs[k]) && forall j :: k < j < |hs| ==> !StartsWith(hs[j]))
        || (&& UpdatesWith(hs[k]) && (forall j :: 0 <= j < |hs| ==> !StartsWith(hs[j]))
            && (forall j :: 0 <= j < k ==> !UpdatesWith(hs[j]))))
  }

  /** The `k`-th reading is the stop register: the latest that may be. */
  predicate IsStop(hs: seq<TransactionEvent>, k: nat)
  {
    MayStop(hs, k) && forall j: nat :: k < j < |hs| ==> !MayStop(hs, j)
  }

  /** The registers are those readings, and absent if and only if there is no such reading. */
  lemma RegistersAre(hs: seq<TransactionEvent>)
    ensures forall k: nat :: IsStart(hs, k) ==> Build(hs).meterStart == hs[k].meter
    ensures Build(hs).meterStart.Some? ==> exists k: nat :: IsStart(hs, k)
    ensures forall k: nat :: IsStop(hs, k) ==> Build(hs).meterStop == hs[k].meter
    ensures Build(hs).meterStop.Some? ==> exists k: nat :: IsStop(hs, k)
  {
    hide Build;
    var i := StartAt(hs);
    forall k: nat | IsStart(hs, k)
      ensures Build(hs).meterStart == hs[k].meter
    {
      OneStart(hs, i, k);
    }
    var m := StopAt(hs);
    forall k: nat | IsStop(hs, k)
      ensures Build(hs).meterStop == hs[k].meter
    {
      OneStop(hs, m, k);
    }
  }

  /** Where the start register was read; past the end if nowhere. */
  lemma {:induction false} StartAt(hs: seq<TransactionEvent>) returns (i: nat)
    ensures i < |hs| ==> IsStart(hs, i) && Build(hs).meterStart == hs[i].meter
    ensures i >= |hs| ==> Build(hs).meterStart.None? && forall j :: 0 <= j < |hs| ==> !StartsWith(hs[j]) && !UpdatesWith(hs[j])
  {
    hide StopReading;
    i := 0;
    if hs != [] {
      var n := |hs| - 1;
      var front := hs[..n];
      assert forall j :: 0 <= j < n ==> front[j] == hs[j];
      i := StartAt(front);
      if StartsWith(hs[n]) || (i >= n && UpdatesWith(hs[n])) {
        i := n;
      } else if i >= n {
        i := n + 1;
      }
    }
  }

  lemma OneStart(hs: seq<TransactionEvent>, i: nat, k: nat)
    requires i < |hs| ==> IsStart(hs, i)
    requires i >= |hs| ==> forall j :: 0 <= j < |hs| ==> !StartsWith(hs[j]) && !UpdatesWith(hs[j])
    requires IsStart(hs, k)
    ensures i == k
  {
  }

  lemma {:induction false} StopAt(hs: seq<TransactionEvent>) returns (i: nat)
    ensures i < |hs| ==> IsStop(hs, i) && Build(hs).meterStop == hs[i].meter
    ensures i >= |hs| ==> Build(hs).meterStop.None? && forall j: nat :: j < |hs| ==> !MayStop(hs, j)
  {
    hide StartReading;
    i := 0;
    if hs != [] {
      var n := |hs| - 1;
      var front := hs[..n];
      assert forall j :: 0 <= j < n ==> front[j] == hs[j];
      assert forall j: nat :: j < n ==> MayStop(front, j) == MayStop(hs, j);
      i := StopAt(front);
      NoEndYet(front);
      if MayStop(hs, n) {
        i := n;
      } else if i >= n {
        i := n + 1;
      }
    }
  }

  lemma {:induction false} NoEndYet(hs: seq<TransactionEvent>)
    ensures Build(hs).endedAt.None? <==> forall j :: 0 <= j < |hs| ==> hs[j].kind != Ended
  {
    hide StartReading, StopReading;
    if hs != [] {
      var front := hs[..|hs| - 1];
      assert forall j :: 0 <= j < |front| ==> front[j] == hs[j];
      NoEndYet(front);
    }
  }

  lemma OneStop(hs: seq<TransactionEvent>, i: nat, k: nat)
    requires i < |hs| ==> IsStop(hs, i)
    requires i >= |hs| ==> forall j: nat :: j < |hs| ==> !MayStop(hs, j)
    requires IsStop(hs, k)
    ensures i == k
  {
  }

  lemma ApplyTimes(r: Record, e: TransactionEvent)
    ensures var n := Apply(r, e);
            && n.startedAt == (if e.kind == Started then Some(e.timestamp) else r.startedAt)
            && n.endedAt == (if e.kind == Ended then Some(e.timestamp) else r.endedAt)
            && n.reason == (if e.kind == Ended then e.reason else r.reason)
            && n.offline == (r.offline || e.offline)
  {
    hide StartReading, StopReading;
  }

  /** The `k`-th is the last of its kind. */
  predicate IsLast(hs: seq<TransactionEvent>, kind: EventKind, k: nat)
  {
    k < |hs| && hs[k].kind == kind && forall j :: k < j < |hs| ==> hs[j].kind != kind
  }

  /** The times are those of the last start and the last end, the reason is the last end's; and the record
      is marked offline if and only if one of its events was. */
  lemma TimesAre(hs: seq<TransactionEvent>)
    ensures forall k: nat :: IsLast(hs, Started, k) ==> Build(hs).startedAt == Some(hs[k].timestamp)
    ensures Build(hs).startedAt.Some? ==> exists k: nat :: IsLast(hs, Started, k)
    ensures forall k: nat :: IsLast(hs, Ended, k) ==>
              Build(hs).endedAt == Some(hs[k].timestamp) && Build(hs).reason == hs[k].reason
    ensures Build(hs).endedAt.Some? || Build(hs).reason.Some? ==> exists k: nat :: IsLast(hs, Ended, k)
    ensures Build(hs).offline <==> exists k :: 0 <= k < |hs| && hs[k].offline
  {
    hide Build;
    var i := LastStart(hs);
    var m := LastEnd(hs);
    OfflineIff(hs);
  }

  /** Where the last start stands; past the end if nowhere. */
  lemma {:induction false} LastStart(hs: seq<TransactionEvent>) returns (i: nat)
    ensures i < |hs| ==> IsLast(hs, Started, i) && Build(hs).startedAt == Some(hs[i].timestamp)
    ensures i >= |hs| ==> Build(hs).startedAt.None? && forall j :: 0 <= j < |hs| ==> hs[j].kind != Started
  {
    hide Apply;
    i := 0;
    if hs != [] {
      var n := |hs| - 1;
      var front := hs[..n];
      assert forall j :: 0 <= j < n ==> front[j] == hs[j];
      ApplyTimes(Build(front), hs[n]);
      i := LastStart(front);
      if hs[n].kind == Started {
        i := n;
      } else if i >= n {
        i := n + 1;
      }
    }
  }

  lemma {:induction false} LastEnd(hs: seq<TransactionEvent>) returns (i: nat)
    ensures i < |hs| ==> IsLast(hs, Ended, i) && Build(hs).endedAt == Some(hs[i].timestamp) && Build(hs).reason == hs[i].reason
    ensures i >= |hs| ==>
              Build(hs).endedAt.None? && Build(hs).reason.None? && forall j :: 0 <= j < |hs| ==> hs[j].kind != Ended
  {
    hide Apply;
    i := 0;
    if hs != [] {
      var n := |hs| - 1;
      var front := hs[..n];
      assert forall j :: 0 <= j < n ==> front[j] == hs[j];
      ApplyTimes(Build(front), hs[n]);
      i := LastEnd(front);
      if hs[n].kind == Ended {
        i := n;
      } else if i >= n {
        i := n + 1;
      }
    }
  }

  lemma {:induction false} OfflineIff(hs: seq<TransactionEvent>)
    ensures Build(hs).offline <==> exists k :: 0 <= k < |hs| && hs[k].offline
  {
    hide Apply;
    if hs != [] {
      var front := hs[..|hs| - 1];
      assert forall j :: 0 <= j < |front| ==> front[j] == hs[j];
      ApplyTimes(Build(front), hs[|hs| - 1]);
      OfflineIff(front);
    }
  }

  /** Pruning forgets a record if and only if it ended before the cut-off, and touches nothing else: open
      transactions stay, and so do the counters of those forgotten. */
  lemma PruneForgetsIff(s: State, cutoff: int, key: Key)
    ensures var n := Prune(s, cutoff);
            && (key in n.records <==>
                  key in s.records && !(s.records[key].endedAt.Some? && s.records[key].endedAt.value < cutoff))
            && (key in n.records ==> n.records[key] == s.records[key])
            && n.nextSeq == s.nextSeq
  {
  }

  // -- without numbers ----------------------------------------------------------------------

  /** An event of this transaction, kind and instant was delivered. */
  ghost predicate Marked(events: seq<TransactionEvent>, key: Key, mark: (EventKind, int))
  {
    exists k :: 0 <= k < |events| && KeyOf(events[k]) == key && Mark(events[k]) == mark
  }

  ghost predicate SomeEnd(events: seq<TransactionEvent>, key: Key)
  {
    exists k :: 0 <= k < |events| && KeyOf(events[k]) == key && events[k].kind == Ended
  }

  /** For any history of unnumbered deliveries, the answer to one more: a duplicate if and only if one of its
      kind and instant came before; else after the end if and only if an end came before; else applied,
      and never with a gap. */
  lemma UnsequencedVerdictTells(events: seq<TransactionEvent>, e: TransactionEvent)
    ensures var s, key := IngestAllUnsequenced(events), KeyOf(e);
            var v := if Mark(e) in RecordFor(s, key).unsequenced then Duplicate
                     else Verdict(RecordFor(s, key), e.(seqNo := NextFor(s, key)));
            && (v == Duplicate <==> Marked(events, key, Mark(e)))
            && (v == AfterEnd <==> !Marked(events, key, Mark(e)) && SomeEnd(events, key))
            && (v == Applied <==> !Marked(events, key, Mark(e)) && !SomeEnd(events, key))
  {
    hide Apply, Missing, Contiguous, IngestUnsequenced;
    var s, key := IngestAllUnsequenced(events), KeyOf(e);
    UnsequencedIsContiguous(events, key);
    EndUnsequenced(events, key);
    var r, n := RecordFor(s, key), e.(seqNo := NextFor(s, key));
    NextIsNew(s, key);
    if Mark(e) !in r.unsequenced {
      NextLeavesNoGap(s, key, n);
    }
  }

  lemma NextIsNew(s: State, key: Key)
    requires Contiguous(s, key)
    ensures NextFor(s, key) !in RecordFor(s, key).seen
  {
  }

  lemma NextLeavesNoGap(s: State, key: Key, e: TransactionEvent)
    requires Contiguous(s, key) && e.seqNo == NextFor(s, key)
    ensures Missing(Apply(RecordFor(s, key), e)) == []
  {
    hide Missing, Apply;
    var r := Apply(RecordFor(s, key), e);
    Grows(RecordFor(s, key), e);
    var gaps := Missing(r);
    assert |gaps| == 0 || gaps[0] in gaps;
    MissingAreTheGaps(r);
  }

  lemma {:induction false} EndUnsequenced(events: seq<TransactionEvent>, key: Key)
    ensures RecordFor(IngestAllUnsequenced(events), key).endedAt.Some? <==> SomeEnd(events, key)
  {
    hide IngestUnsequenced, Apply, Contiguous;
    if events != [] {
      var front, last := events[..|events| - 1], events[|events| - 1];
      var s := IngestAllUnsequenced(front);
      EndUnsequenced(front, key);
      UnsequencedIsContiguous(front, key);
      assert SomeEnd(events, key) <==> SomeEnd(front, key) || (KeyOf(last) == key && last.kind == Ended) by {
        assert forall k :: 0 <= k < |front| ==> front[k] == events[k];
        assert last == events[|events| - 1];
      }
      if KeyOf(last) == key && Mark(last) !in RecordFor(s, key).unsequenced {
        NextIsNew(s, key);
        UnsequencedNew(s, last);
        EndGrows(RecordFor(s, key), last.(seqNo := NextFor(s, key)));
      } else {
        UnsequencedElse(s, last, key);
        if KeyOf(last) == key && last.kind == Ended {
          assert exists k :: 0 <= k < |front| && KeyOf(front[k]) == key && Mark(front[k]) == Mark(last);
        }
      }
    }
  }
}
