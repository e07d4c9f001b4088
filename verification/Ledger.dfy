/** The CSMS's record of every transaction, whatever the order and however often its events arrive
    (src/csms/ledger.rs). */
module Ledger {
  import opened Basics
  import opened Decimals

  datatype EventKind = Started | Updated | Ended

  /** A signed meter value; its contents are not looked into. */
  datatype Reading = Reading(text: string, context: Option<string>)

  datatype TransactionEvent = TransactionEvent(
    station: string,
    transaction: string,
    evse: Option<int>,
    connector: Option<int>,
    seqNo: int,
    kind: EventKind,
    timestamp: int,
    offline: bool,
    meter: Option<Decimal>,
    signed: seq<Reading>,
    token: Option<string>,
    reason: Option<string>)

  datatype Ingested = Applied | AppliedWithGap(missing: seq<int>) | Duplicate | AfterEnd

  datatype Record = Record(
    evse: Option<int>,
    connector: Option<int>,
    startedAt: Option<int>,
    endedAt: Option<int>,
    token: Option<string>,
    reason: Option<string>,
    meterStart: Option<Decimal>,
    meterStop: Option<Decimal>,
    signed: seq<Reading>,
    offline: bool,
    seen: set<int>,
    unsequenced: set<(EventKind, int)>,
    highest: int)

  const BLANK := Record(None, None, None, None, None, None, None, None, [], false, {}, {}, -1)

  type Key = (string, string)

  function KeyOf(e: TransactionEvent): (r: Key) { (e.station, e.transaction) }

  function FirstOf<T>(a: Option<T>, b: Option<T>): (r: Option<T>) { if a.Some? then a else b }

  // -- one record ---------------------------------------------------------------------------

  /** The numbers from `from` to the highest seen that have not arrived, ascending. */
  function MissingFrom(r: Record, from: int): (m: seq<int>)
    decreases r.highest - from
  {
    if from > r.highest then []
    else (if from in r.seen then [] else [from]) + MissingFrom(r, from + 1)
  }

  function Missing(r: Record): (m: seq<int>) { MissingFrom(r, 0) }

  function Energy(r: Record): (e: Option<Decimal>)
  {
    if r.meterStop.None? || r.meterStart.None? then None else CheckedSub(r.meterStop.value, r.meterStart.value)
  }

  function StartReading(r: Record, e: TransactionEvent): (m: Option<Decimal>)
  {
    if e.kind == Started then FirstOf(e.meter, r.meterStart)
    else if e.kind == Updated then FirstOf(r.meterStart, e.meter)
    else r.meterStart
  }

  function StopReading(r: Record, e: TransactionEvent): (m: Option<Decimal>)
  {
    if e.kind == Ended || (e.kind == Updated && r.endedAt.None?) then FirstOf(e.meter, r.meterStop) else r.meterStop
  }

  /** The record with an event it has not seen. */
  function Apply(r: Record, e: TransactionEvent): (n: Record)
  {
    r.(seen := r.seen + {e.seqNo},
       highest := if r.highest < e.seqNo then e.seqNo else r.highest,
       offline := r.offline || e.offline,
       evse := FirstOf(r.evse, e.evse),
       connector := FirstOf(r.connector, e.connector),
       signed := r.signed + e.signed,
       token := FirstOf(r.token, e.token),
       meterStart := StartReading(r, e),
       meterStop := StopReading(r, e),
       startedAt := if e.kind == Started then Some(e.timestamp) else r.startedAt,
       endedAt := if e.kind == Ended then Some(e.timestamp) else r.endedAt,
       reason := if e.kind == Ended then e.reason else r.reason)
  }

  function Take(r: Record, e: TransactionEvent): (n: Record)
  {
    if e.seqNo in r.seen then r else Apply(r, e)
  }

  function Verdict(r: Record, e: TransactionEvent): (v: Ingested)
  {
    if e.seqNo in r.seen then Duplicate
    else if r.endedAt.Some? then AfterEnd
    else if Missing(Apply(r, e)) == [] then Applied
    else AppliedWithGap(Missing(Apply(r, e)))
  }

  // -- the ledger ---------------------------------------------------------------------------

  datatype State = State(records: map<Key, Record>, nextSeq: map<Key, int>)

  function RecordFor(s: State, key: Key): (r: Record)
  {
    if key in s.records then s.records[key] else BLANK
  }

  function Ingest(s: State, e: TransactionEvent): (n: State)
  {
    s.(records := s.records[KeyOf(e) := Take(RecordFor(s, KeyOf(e)), e)])
  }

  function NextFor(s: State, key: Key): (n: int)
  {
    if key in s.nextSeq then s.nextSeq[key] else 0
  }

  function Mark(e: TransactionEvent): (m: (EventKind, int)) { (e.kind, e.timestamp) }

  /** An event of a version without sequence numbers: numbered here, recognised by kind and instant. */
  function IngestUnsequenced(s: State, e: TransactionEvent): (n: State)
  {
    var key := KeyOf(e);
    if Mark(e) in RecordFor(s, key).unsequenced then s
    else
      var numbered := e.(seqNo := NextFor(s, key));
      var after := Ingest(s.(nextSeq := s.nextSeq[key := NextFor(s, key) + 1]), numbered);
      var r := after.records[key];
      after.(records := after.records[key := r.(unsequenced := r.unsequenced + {Mark(e)})])
  }

  function Prune(s: State, cutoff: int): (n: State)
  {
    s.(records := map key | key in s.records &&
                            (s.records[key].endedAt.Some? ==> s.records[key].endedAt.value >= cutoff)
                   :: s.records[key])
  }

  /** The body of `ingest` once the event is known to be new. */
  method ApplyEvent(before: Record, e: TransactionEvent) returns (r: Record)
    ensures r == Apply(before, e)
  {
    hide StartReading, StopReading;
    r := before.(seen := before.seen + {e.seqNo},
                 highest := if before.highest < e.seqNo then e.seqNo else before.highest,
                 offline := before.offline || e.offline);
    r := r.(evse := if r.evse.None? then e.evse else r.evse,
            connector := if r.connector.None? then e.connector else r.connector);
    r := r.(signed := r.signed + e.signed, token := if r.token.None? then e.token else r.token);
    SameReadings(before, r, e);
    r := ApplyReading(r, e);
    match e.kind {
      case Started => r := r.(startedAt := Some(e.timestamp));
      case Ended => r := r.(endedAt := Some(e.timestamp), reason := e.reason);
      case Updated =>
    }
  }

  lemma SameReadings(a: Record, b: Record, e: TransactionEvent)
    requires a.meterStart == b.meterStart && a.meterStop == b.meterStop && a.endedAt == b.endedAt
    ensures StartReading(a, e) == StartReading(b, e) && StopReading(a, e) == StopReading(b, e)
  {
  }

  method ApplyReading(before: Record, e: TransactionEvent) returns (r: Record)
    ensures r == before.(meterStart := StartReading(before, e), meterStop := StopReading(before, e))
  {
    r := before;
    if e.meter.Some? {
      match e.kind {
        case Started => r := r.(meterStart := e.meter);
        case Ended => r := r.(meterStop := e.meter);
        case Updated =>
          if r.meterStart.None? {
            r := r.(meterStart := e.meter);
          }
          if before.endedAt.None? {
            r := r.(meterStop := e.meter);
          }
      }
    }
  }

  /** The ledger as it runs. */
  class Ledger {
    var records: map<Key, Record>
    var nextSeq: map<Key, int>

    constructor ()
      ensures Abs() == State(map[], map[])
    {
      records := map[];
      nextSeq := map[];
    }

    function Abs(): (s: State)
      reads this
    {
      State(records, nextSeq)
    }

    method IngestEvent(e: TransactionEvent) returns (v: Ingested)
      modifies this`records
      ensures Abs() == Ingest(old(Abs()), e)
      ensures v == Verdict(RecordFor(old(Abs()), KeyOf(e)), e)
    {
      hide Apply, Missing;
      var key := KeyOf(e);
      if key !in records {
        records := records[key := BLANK];
      }
      var r := records[key];
      if e.seqNo in r.seen {
        return Duplicate;
      }
      var afterEnd := r.endedAt.Some?;
      r := ApplyEvent(r, e);
      records := records[key := r];
      if afterEnd {
        return AfterEnd;
      }
      var missing := Missing(r);
      return if missing == [] then Applied else AppliedWithGap(missing);
    }

    method IngestUnsequencedEvent(e: TransactionEvent) returns (v: Ingested)
      modifies this
      ensures Abs() == IngestUnsequenced(old(Abs()), e)
      ensures v == if Mark(e) in RecordFor(old(Abs()), KeyOf(e)).unsequenced then Duplicate
                   else Verdict(RecordFor(old(Abs()), KeyOf(e)), e.(seqNo := NextFor(old(Abs()), KeyOf(e))))
    {
      hide Take, Verdict;
      var key := KeyOf(e);
      if key in records && Mark(e) in records[key].unsequenced {
        return Duplicate;
      }
      var seqNo := if key in nextSeq then nextSeq[key] else 0;
      nextSeq := nextSeq[key := seqNo + 1];
      v := IngestEvent(e.(seqNo := seqNo));
      var r := records[key];
      records := records[key := r.(unsequenced := r.unsequenced + {Mark(e)})];
    }

    method PruneEndedBefore(cutoff: int) returns (gone: nat)
      modifies this`records
      ensures Abs() == Prune(old(Abs()), cutoff)
      ensures gone == |old(records)| - |records|
    {
      var kept := Prune(Abs(), cutoff).records;
      FewerKeys(kept, records);
      gone := |records| - |kept|;
      records := kept;
    }
  }

  lemma FewerKeys(a: map<Key, Record>, b: map<Key, Record>)
    requires a.Keys <= b.Keys
    ensures |a| <= |b|
  {
    Subset(a.Keys, b.Keys);
    assert |a.Keys| == |a| && |b.Keys| == |b|;
  }

  lemma Subset(a: set<Key>, b: set<Key>)
    requires a <= b
    ensures |a| <= |b|
  {
    assert |b| == |a| + |b - a|;
  }
}
