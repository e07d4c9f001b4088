/** The store over the journal: operations, crashes and recovery. */
module FileStore {
  import opened Basics
  import opened Messages
  import opened Queue
  import opened Journal

  const COMPACT_RATIO: nat := 4

  const COMPACT_FLOOR: nat := 64

  /** The store's fields and its journal on the device; `base` is the size of the last rewrite,
      `appended` and `copied` count the records ever appended and ever copied by a rewrite the
      store decided on itself. */
  datatype State = State(
    disk: seq<Line>,
    live: map<Seq, QueuedCall>,
    nextSeq: Seq,
    written: nat,
    base: nat,
    appended: nat,
    copied: nat)

  /** The journal replays to exactly what the store holds in memory. */
  ghost predicate Faithful(s: State)
  {
    && AllGood(s.disk)
    && (var r := Replay(s.disk);
        && r.Some? && r.value.live == s.live
        && r.value.nextSeq <= s.nextSeq
        && (forall q :: q in r.value.pushed ==> q < s.nextSeq))
    && (forall q :: q in s.live ==> q < s.nextSeq)
  }

  /** Dead records never pile up, and rewriting is paid for by what was appended. */
  ghost predicate Frugal(s: State)
  {
    && s.written == |s.disk|
    && s.written < COMPACT_FLOOR + COMPACT_RATIO * |s.live|
    && s.base <= s.written
    && s.base <= |s.live| + (s.written - s.base)
    && 3 * s.copied + 2 * (s.written - s.base) <= 2 * s.appended
  }

  ghost predicate Valid(s: State)
  {
    Faithful(s) && Frugal(s)
  }

  // -- operations ---------------------------------------------------------------------------

  function Append(s: State, record: Record): (r: State)
  {
    s.(disk := s.disk + [Good(record)], written := s.written + 1, appended := s.appended + 1)
  }

  /** A fresh journal of what is live, swapped in. */
  function Rewrite(s: State): (r: State)
  {
    s.(disk := Snapshot(Listing(s.live, s.nextSeq)), written := |s.live|, base := |s.live|)
  }

  predicate Worthwhile(s: State)
  {
    s.written >= COMPACT_FLOOR && s.written >= |s.live| * COMPACT_RATIO
  }

  function CompactIfWorthwhile(s: State): (r: State)
  {
    if Worthwhile(s) then Rewrite(s).(copied := s.copied + |s.live|) else s
  }

  datatype Operation = Put(call: QueuedCall) | Remove(seqNo: Seq) | Note(seqNo: Seq, attempts: nat) | Compact

  /** The record an operation appends, if any. */
  function RecordOf(s: State, op: Operation): (r: Option<Record>)
  {
    match op
    case Put(call) => Some(Pushed(s.nextSeq, call))
    case Remove(q) => if q in s.live then Some(Acked(q)) else None
    case Note(q, n) => if q in s.live then Some(Attempted(q, n)) else None
    case Compact => None
  }

  /** The fields in memory after an operation, before any compaction. */
  function Update(s: State, op: Operation): (r: State)
  {
    match op
    case Put(call) => s.(live := s.live[s.nextSeq := call], nextSeq := s.nextSeq + 1)
    case Remove(q) => s.(live := s.live - {q})
    case Note(q, n) => if q in s.live then s.(live := s.live[q := s.live[q].(attempts := n)]) else s
    case Compact => s
  }

  function Perform(s: State, op: Operation): (r: State)
  {
    match op
    case Compact => Rewrite(s)
    case Put(_) => Append(Update(s, op), RecordOf(s, op).value)
    case _ =>
      if RecordOf(s, op).None? then s
      else CompactIfWorthwhile(Append(Update(s, op), RecordOf(s, op).value))
  }

  /** `FileStore::open`: replay, then rewrite. */
  function Open(disk: seq<Line>): (r: Option<State>)
  {
    match Replay(disk)
    case None => None
    case Some(r) => Some(Rewrite(State(disk, r.live, r.nextSeq, 0, 0, 0, 0)))
  }

  // -- the store as a queue -----------------------------------------------------------------

  /** What the engine sees of the store. */
  function Contents(s: State): (r: Store)
  {
    Store(Listing(s.live, s.nextSeq), s.nextSeq, None)
  }

  /** Over one session the journal store does what the in-memory store does. */
  lemma AgreesWithMemory(s: State, op: Operation)
    requires Valid(s)
    ensures var c, d := Contents(s), Contents(Perform(s, op));
            match op
            case Put(call) => d == Push(c, call) && RecordOf(s, op) == Some(Pushed(c.nextSeq, call))
            case Remove(q) => d == Ack(c, q)
            case Note(q, n) => d == SetAttempts(c, q, n)
            case Compact => d == c
  {
    hide Rewrite, CompactIfWorthwhile, Append, Push, Ack, SetAttempts, Listing;
    match op
    case Put(call) => PutAgrees(s, call);
    case Remove(q) => RemoveAgrees(s, q);
    case Note(q, n) => NoteAgrees(s, q, n);
    case Compact => SameContents(s);
  }

  /** Writing to the journal changes nothing the engine sees. */
  lemma SameContents(s: State)
    ensures Contents(Rewrite(s)) == Contents(s) && Contents(CompactIfWorthwhile(s)) == Contents(s)
    ensures forall record :: Contents(Append(s, record)) == Contents(s)
  {
    hide Listing;
  }

  lemma PutAgrees(s: State, call: QueuedCall)
    requires Valid(s)
    ensures Contents(Perform(s, Put(call))) == Push(Contents(s), call)
    ensures RecordOf(s, Put(call)) == Some(Pushed(Contents(s).nextSeq, call))
  {
    hide Append, Rewrite, CompactIfWorthwhile, Listing, Valid;
    SameContents(Update(s, Put(call)));
    ListingMore(s.live, s.nextSeq, call);
  }

  lemma RemoveAgrees(s: State, q: Seq)
    requires Valid(s)
    ensures Contents(Perform(s, Remove(q))) == Ack(Contents(s), q)
  {
    hide Append, Rewrite, CompactIfWorthwhile, Listing;
    var op := Remove(q);
    SameContents(Update(s, op));
    if RecordOf(s, op).Some? {
      SameContents(Append(Update(s, op), RecordOf(s, op).value));
    }
    ListingAck(s.live, s.nextSeq, q);
    assert q !in s.live ==> s.live - {q} == s.live;
  }

  lemma NoteAgrees(s: State, q: Seq, n: nat)
    requires Valid(s)
    ensures Contents(Perform(s, Note(q, n))) == SetAttempts(Contents(s), q, n)
  {
    hide Append, Rewrite, CompactIfWorthwhile, Listing;
    var op := Note(q, n);
    SameContents(Update(s, op));
    if RecordOf(s, op).Some? {
      SameContents(Append(Update(s, op), RecordOf(s, op).value));
    }
    ListingOrdered(s.live, s.nextSeq);
    if q in s.live {
      ListingAttempts(s.live, s.nextSeq, q, n);
    } else {
      AttemptsAbsent(Listing(s.live, s.nextSeq), q, n);
    }
  }

  /** The store the engine sees is ordered, and as large as the live map. */
  lemma ContentsOrdered(s: State)
    requires Valid(s)
    ensures Ordered(Contents(s)) && |Contents(s).entries| == |s.live|
  {
    ListingOrdered(s.live, s.nextSeq);
    assert Below(s.live, s.nextSeq) == s.live;
  }

  // -- operations keep the store valid ------------------------------------------------------

  lemma RewriteFaithful(s: State)
    requires forall q :: q in s.live ==> q < s.nextSeq
    ensures Faithful(Rewrite(s)) && |Rewrite(s).disk| == |s.live|
  {
    SnapshotReplays(s.live, s.nextSeq);
    ListingOrdered(s.live, s.nextSeq);
    assert Below(s.live, s.nextSeq) == s.live;
  }

  lemma AppendFaithful(s: State, op: Operation)
    requires Faithful(s) && RecordOf(s, op).Some?
    ensures Faithful(Append(Update(s, op), RecordOf(s, op).value))
  {
    var record := RecordOf(s, op).value;
    ReplayAppend(NOTHING, s.disk, [Good(record)]);
    var r := Replay(s.disk).value;
    assert ReplayFrom(r, [Good(record)]) == Some(ReadRecord(r, record)) by {
      assert ReplayFrom(ReadRecord(r, record), []) == Some(ReadRecord(r, record));
      assert [Good(record)][1..] == [];
    }
  }

  lemma LiveSize(s: State, op: Operation)
    ensures op.Put? && s.nextSeq !in s.live ==> |Update(s, op).live| == |s.live| + 1
    ensures op.Remove? && op.seqNo in s.live ==> |Update(s, op).live| == |s.live| - 1
    ensures op.Note? ==> |Update(s, op).live| == |s.live|
  {
    if op.Remove? && op.seqNo in s.live {
      assert (s.live - {op.seqNo}).Keys == s.live.Keys - {op.seqNo};
      assert |(s.live - {op.seqNo}).Keys| == |s.live.Keys| - 1;
    }
    if op.Note? && op.seqNo in s.live {
      assert Update(s, op).live.Keys == s.live.Keys;
      assert |Update(s, op).live.Keys| == |s.live.Keys|;
    }
    if op.Put? && s.nextSeq !in s.live {
      assert Update(s, op).live.Keys == s.live.Keys + {s.nextSeq};
      assert |Update(s, op).live.Keys| == |s.live.Keys| + 1;
    }
  }

  /** Every operation keeps the journal faithful and the store frugal. */
  lemma PerformKeepsValid(s: State, op: Operation)
    requires Valid(s)
    ensures Valid(Perform(s, op))
  {
    hide Replay;
    LiveSize(s, op);
    if op.Compact? {
      RewriteFaithful(s);
    } else if RecordOf(s, op).Some? {
      AppendFaithful(s, op);
      var s1 := Append(Update(s, op), RecordOf(s, op).value);
      RewriteFaithful(s1);
    }
  }

  /** A rewrite the store decides on copies at most two thirds of what was appended since the
      previous one. */
  lemma RewritePaidFor(s: State, op: Operation)
    requires Valid(s) && RecordOf(s, op).Some? && !op.Put?
    requires Worthwhile(Append(Update(s, op), RecordOf(s, op).value))
    ensures var copied := Perform(s, op).copied - s.copied;
            var since := s.written + 1 - s.base;
            copied == |Perform(s, op).live| && 3 * copied <= 2 * since
  {
    LiveSize(s, op);
  }

  // -- crashes ------------------------------------------------------------------------------

  /** What a crash while performing `op` may leave on the device: the journal as it was, a torn
      append, the finished append, or the rewritten journal. */
  ghost predicate CrashImage(s: State, op: Operation, disk: seq<Line>)
  {
    || disk == s.disk
    || (RecordOf(s, op).Some? && disk == s.disk + [Torn])
    || (RecordOf(s, op).Some? && disk == s.disk + [Good(RecordOf(s, op).value)])
    || disk == Perform(s, op).disk
  }

  /** Whatever a crash leaves behind reopens, to the messages from before or after the
      interrupted operation; and the reopened store is valid. */
  lemma CrashRecovers(s: State, op: Operation, disk: seq<Line>)
    requires Valid(s) && CrashImage(s, op, disk)
    ensures var r := Open(disk);
            && r.Some? && Valid(r.value)
            && (r.value.live == s.live || r.value.live == Perform(s, op).live)
  {
    hide Replay;
    PerformKeepsValid(s, op);
    if disk == s.disk {
      OpenFaithful(s);
    } else if RecordOf(s, op).Some? && disk == s.disk + [Torn] {
      TornTail(s.disk);
      OpenReplayed(disk);
    } else if RecordOf(s, op).Some? && disk == s.disk + [Good(RecordOf(s, op).value)] {
      AppendFaithful(s, op);
      OpenFaithful(Append(Update(s, op), RecordOf(s, op).value));
    } else {
      OpenFaithful(Perform(s, op));
    }
  }

  lemma TornTail(disk: seq<Line>)
    requires AllGood(disk)
    ensures Replay(disk + [Torn]) == Replay(disk)
  {
    ReplayAppend(NOTHING, disk, [Torn]);
  }

  ghost predicate Bounded(r: Replayed)
  {
    (forall q :: q in r.live ==> q < r.nextSeq) && (forall q :: q in r.pushed ==> q < r.nextSeq)
  }

  lemma {:induction false} ReplayBounds(r: Replayed, lines: seq<Line>)
    requires Bounded(r)
    ensures ReplayFrom(r, lines).Some? ==> Bounded(ReplayFrom(r, lines).value)
    decreases |lines|
  {
    if lines != [] && !lines[0].Torn? {
      if lines[0].Blank? {
        ReplayBounds(r, lines[1..]);
      } else if !Repeats(r, lines[0]) {
        var r1 := ReadRecord(r, lines[0].record);
        assert forall q :: q in r1.live ==> q in r.live || q == lines[0].record.seqNo;
        ReplayBounds(r1, lines[1..]);
      }
    }
  }

  lemma OpenReplayed(disk: seq<Line>)
    requires Replay(disk).Some?
    ensures Open(disk).Some? && Valid(Open(disk).value) && Open(disk).value.live == Replay(disk).value.live
  {
    ReplayBounds(NOTHING, disk);
    var r := Replay(disk).value;
    RewriteFaithful(State(disk, r.live, r.nextSeq, 0, 0, 0, 0));
  }

  lemma OpenFaithful(s: State)
    requires Faithful(s)
    ensures Open(s.disk).Some? && Valid(Open(s.disk).value) && Open(s.disk).value.live == s.live
  {
    OpenReplayed(s.disk);
  }

  lemma {:induction false} ListingStable(live: map<Seq, QueuedCall>, n: nat, m: nat)
    requires n <= m && forall q :: q in live ==> q < n
    ensures Listing(live, m) == Listing(live, n)
  {
    if n < m {
      ListingStable(live, n, m - 1);
    }
  }

  /** What an engine finds when the journal is reopened: the same messages, in the same order,
      with numbering resumed above all of them. */
  lemma ReopenedSameEntries(s: State)
    requires Valid(s)
    ensures Open(s.disk).Some?
    ensures var r := Open(s.disk).value;
            && Contents(r) == Contents(s).(nextSeq := r.nextSeq)
            && forall i :: 0 <= i < |Contents(s).entries| ==> Contents(s).entries[i].seqNo < r.nextSeq
  {
    OpenFaithful(s);
    var r := Open(s.disk).value;
    ListingStable(s.live, r.nextSeq, s.nextSeq);
    ListingOrdered(s.live, r.nextSeq);
  }

  /** A crash while opening, before or after the rewritten journal is swapped in, loses nothing. */
  lemma CrashWhileOpening(disk: seq<Line>)
    requires Open(disk).Some?
    ensures Valid(Open(disk).value)
    ensures Open(Open(disk).value.disk).Some? && Open(Open(disk).value.disk).value.live == Open(disk).value.live
  {
    OpenReplayed(disk);
    OpenFaithful(Open(disk).value);
  }

  // -- lives --------------------------------------------------------------------------------

  /** One step of a store's life: an operation that completes, or a crash in the middle of one
      that leaves `disk` behind, followed by a reopening. */
  datatype Step = Done(op: Operation) | Crash(op: Operation, disk: seq<Line>)

  ghost predicate Possible(s: State, step: Step)
  {
    step.Crash? ==> CrashImage(s, step.op, step.disk)
  }

  ghost function After(s: State, step: Step): (r: State)
    requires Valid(s) && Possible(s, step)
    ensures Valid(r)
    ensures r.live == s.live || r.live == Perform(s, step.op).live
  {
    match step
    case Done(op) => PerformKeepsValid(s, op); Perform(s, op)
    case Crash(op, disk) => CrashRecovers(s, op, disk); Open(disk).value
  }

  ghost predicate PossibleLife(s: State, steps: seq<Step>)
    requires Valid(s)
    decreases |steps|
  {
    steps == [] || (Possible(s, steps[0]) && PossibleLife(After(s, steps[0]), steps[1..]))
  }

  ghost function Live(s: State, steps: seq<Step>): (r: State)
    requires Valid(s) && PossibleLife(s, steps)
    ensures Valid(r)
    decreases |steps|
  {
    if steps == [] then s else Live(After(s, steps[0]), steps[1..])
  }

  ghost predicate NeverRemoves(steps: seq<Step>, q: Seq)
  {
    forall i :: 0 <= i < |steps| ==> steps[i].op != Remove(q)
  }

  /** Through any life, crashes included, a stored message stays stored under its number, with
      its contents, until it is removed. */
  lemma {:induction false} SurvivesUntilRemoved(s: State, steps: seq<Step>, q: Seq)
    requires Valid(s) && PossibleLife(s, steps) && q in s.live
    requires NeverRemoves(steps, q)
    ensures q in Live(s, steps).live
    ensures Live(s, steps).live[q].(attempts := 0) == s.live[q].(attempts := 0)
    decreases |steps|
  {
    if steps != [] {
      var next := After(s, steps[0]);
      PerformLive(s, steps[0].op);
      assert steps[0].op != Remove(q);
      assert q in next.live && next.live[q].(attempts := 0) == s.live[q].(attempts := 0);
      assert forall i :: 0 <= i < |steps[1..]| ==> steps[1..][i] == steps[i + 1];
      SurvivesUntilRemoved(next, steps[1..], q);
    }
  }

  lemma PerformLive(s: State, op: Operation)
    ensures Perform(s, op).live == Update(s, op).live
  {
    assert op.Remove? && op.seqNo !in s.live ==> s.live - {op.seqNo} == s.live;
  }

  // -- the object ---------------------------------------------------------------------------

  class FileStore {
    var disk: seq<Line>
    var live: map<Seq, QueuedCall>
    var nextSeq: Seq
    var written: nat
    ghost var base: nat
    ghost var appended: nat
    ghost var copied: nat

    ghost function Abs(): (r: State)
      reads this
    {
      State(disk, live, nextSeq, written, base, appended, copied)
    }

    constructor (disk: seq<Line>, live: map<Seq, QueuedCall>, nextSeq: Seq)
      ensures Abs() == State(disk, live, nextSeq, 0, 0, 0, 0)
    {
      this.disk := disk;
      this.live := live;
      this.nextSeq := nextSeq;
      written := 0;
      base := 0;
      appended := 0;
      copied := 0;
    }

    /** Reads a journal line by line, up to the first one that does not parse. */
    static method ReadJournal(disk: seq<Line>) returns (r: Option<Replayed>)
      ensures r == Replay(disk)
    {
      var live: map<Seq, QueuedCall> := map[];
      var nextSeq: Seq := 0;
      var pushed: set<Seq> := {};
      var i := 0;
      assert disk[0..] == disk;
      while i < |disk| && !disk[i].Torn?
        invariant i <= |disk|
        invariant Replay(disk) == ReplayFrom(Replayed(live, nextSeq, pushed), disk[i..])
      {
        var line := disk[i];
        assert disk[i..][0] == line && disk[i..][1..] == disk[i + 1..];
        if line.Good? {
          match line.record {
            case Pushed(q, call) =>
              if q in pushed {
                return None;
              }
              pushed := pushed + {q};
              nextSeq := Max(nextSeq, q + 1);
              live := live[q := call];
            case Acked(q) =>
              nextSeq := Max(nextSeq, q + 1);
              live := live - {q};
            case Attempted(q, n) =>
              nextSeq := Max(nextSeq, q + 1);
              if q in live {
                live := live[q := live[q].(attempts := n)];
              }
          }
        }
        i := i + 1;
      }
      return Some(Replayed(live, nextSeq, pushed));
    }

    static method OpenOn(disk: seq<Line>) returns (r: Option<FileStore>)
      ensures r.Some? <==> Open(disk).Some?
      ensures r.Some? ==> fresh(r.value) && r.value.Abs() == Open(disk).value && Valid(r.value.Abs())
    {
      var replayed := ReadJournal(disk);
      if replayed.None? {
        return None;
      }
      OpenReplayed(disk);
      var store := new FileStore(disk, replayed.value.live, replayed.value.nextSeq);
      store.RewriteJournal();
      return Some(store);
    }

    /** Writes the live messages to a fresh journal, in order, and swaps it in. */
    method RewriteJournal()
      modifies this
      ensures Abs() == Rewrite(old(Abs()))
    {
      var rewritten: seq<Line> := [];
      for q := 0 to nextSeq
        invariant rewritten == Snapshot(Listing(live, q))
        modifies {}
      {
        if q in live {
          rewritten := rewritten + [Good(Pushed(q, live[q]))];
        }
      }
      disk := rewritten;
      written := |live|;
      base := |live|;
    }

    method AppendRecord(record: Record)
      modifies `disk, `written, `appended
      ensures Abs() == Append(old(Abs()), record)
    {
      disk := disk + [Good(record)];
      written := written + 1;
      appended := appended + 1;
    }

    method CompactIfWorth()
      modifies this
      ensures Abs() == CompactIfWorthwhile(old(Abs()))
    {
      if written >= COMPACT_FLOOR && written >= |live| * COMPACT_RATIO {
        copied := copied + |live|;
        RewriteJournal();
      }
    }

    method PushCall(call: QueuedCall) returns (q: Seq)
      requires Valid(Abs())
      modifies this
      ensures Valid(Abs()) && Abs() == Perform(old(Abs()), Put(call)) && q == old(nextSeq)
      ensures Contents(Abs()) == Push(old(Contents(Abs())), call)
    {
      PerformKeepsValid(Abs(), Put(call));
      AgreesWithMemory(Abs(), Put(call));
      q := nextSeq;
      AppendRecord(Pushed(q, call));
      nextSeq := nextSeq + 1;
      live := live[q := call];
    }

    /** Every live message, oldest first. */
    method Pending() returns (r: seq<Entry>)
      requires Valid(Abs())
      ensures r == Contents(Abs()).entries
    {
      r := [];
      for q := 0 to nextSeq
        invariant r == Listing(live, q)
      {
        if q in live {
          r := r + [Entry(q, live[q])];
        }
      }
    }

    method AckCall(q: Seq)
      requires Valid(Abs())
      modifies this
      ensures Valid(Abs()) && Abs() == Perform(old(Abs()), Remove(q))
      ensures Contents(Abs()) == Ack(old(Contents(Abs())), q)
    {
      PerformKeepsValid(Abs(), Remove(q));
      AgreesWithMemory(Abs(), Remove(q));
      if q in live {
        live := live - {q};
        AppendRecord(Acked(q));
        CompactIfWorth();
      }
    }

    method RecordAttempts(q: Seq, n: nat)
      requires Valid(Abs())
      modifies this
      ensures Valid(Abs()) && Abs() == Perform(old(Abs()), Note(q, n))
      ensures Contents(Abs()) == SetAttempts(old(Contents(Abs())), q, n)
    {
      PerformKeepsValid(Abs(), Note(q, n));
      AgreesWithMemory(Abs(), Note(q, n));
      if q in live {
        live := live[q := live[q].(attempts := n)];
        AppendRecord(Attempted(q, n));
        CompactIfWorth();
      }
    }
  }
}
