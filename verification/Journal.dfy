/** The append-only journal behind a station's queue (src/engine/store_file.rs).

    A journal is a sequence of lines; a line is a record, blank, or the torn remains of a write a
    crash cut short.  An append either reaches the device or the process is gone. */
module Journal {
  import opened Basics
  import opened Messages
  import opened Queue

  datatype Record =
    | Pushed(seqNo: Seq, call: QueuedCall)
    | Acked(seqNo: Seq)
    | Attempted(seqNo: Seq, attempts: nat)

  datatype Line = Good(record: Record) | Blank | Torn

  /** What a replay has read so far. */
  datatype Replayed = Replayed(live: map<Seq, QueuedCall>, nextSeq: Seq, pushed: set<Seq>)

  const NOTHING := Replayed(map[], 0, {})

  function Max(a: nat, b: nat): (r: nat) { if a < b then b else a }

  predicate Repeats(r: Replayed, line: Line)
  {
    line.Good? && line.record.Pushed? && line.record.seqNo in r.pushed
  }

  function ReadRecord(r: Replayed, record: Record): (r': Replayed)
  {
    var nextSeq := Max(r.nextSeq, record.seqNo + 1);
    match record
    case Pushed(q, call) => Replayed(r.live[q := call], nextSeq, r.pushed + {q})
    case Acked(q) => r.(live := r.live - {q}, nextSeq := nextSeq)
    case Attempted(q, n) =>
      r.(live := if q in r.live then r.live[q := r.live[q].(attempts := n)] else r.live, nextSeq := nextSeq)
  }

  /** Replays lines on top of `r`; `None` when a sequence number is queued twice. */
  function ReplayFrom(r: Replayed, lines: seq<Line>): (r': Option<Replayed>)
    decreases |lines|
  {
    if lines == [] || lines[0].Torn? then Some(r)
    else if lines[0].Blank? then ReplayFrom(r, lines[1..])
    else if Repeats(r, lines[0]) then None
    else ReplayFrom(ReadRecord(r, lines[0].record), lines[1..])
  }

  function Replay(lines: seq<Line>): (r: Option<Replayed>)
  {
    ReplayFrom(NOTHING, lines)
  }

  ghost predicate AllGood(lines: seq<Line>)
  {
    forall i :: 0 <= i < |lines| ==> lines[i].Good?
  }

  lemma {:induction false} ReplayAppend(r: Replayed, a: seq<Line>, b: seq<Line>)
    requires AllGood(a)
    ensures ReplayFrom(r, a + b) ==
            (var m := ReplayFrom(r, a); if m.None? then None else ReplayFrom(m.value, b))
    decreases |a|
  {
    if a == [] {
      assert a + b == b;
    } else {
      assert (a + b)[1..] == a[1..] + b;
      if !Repeats(r, a[0]) {
        ReplayAppend(ReadRecord(r, a[0].record), a[1..], b);
      }
    }
  }

  /** The line at `i` is read at all: nothing torn at or before it. */
  ghost predicate Reached(lines: seq<Line>, i: nat)
    requires i < |lines|
  {
    forall k :: 0 <= k <= i ==> !lines[k].Torn?
  }

  ghost predicate PushesAt(lines: seq<Line>, i: nat, q: Seq)
  {
    i < |lines| && Reached(lines, i) && lines[i].Good? && lines[i].record.Pushed? && lines[i].record.seqNo == q
  }

  /** A repeated number, either among the lines or with one pushed before them. */
  ghost predicate Doubled(r: Replayed, lines: seq<Line>)
  {
    || (exists i: nat, q: Seq :: PushesAt(lines, i, q) && q in r.pushed)
    || (exists i: nat, j: nat, q: Seq :: i < j && PushesAt(lines, i, q) && PushesAt(lines, j, q))
  }

  lemma PushesShift(lines: seq<Line>, i: nat, q: Seq)
    requires lines != [] && !lines[0].Torn?
    ensures PushesAt(lines, i + 1, q) <==> PushesAt(lines[1..], i, q)
  {
    if i + 1 < |lines| {
      assert lines[1..][i] == lines[i + 1];
      assert Reached(lines, i + 1) <==> Reached(lines[1..], i) by {
        assert forall k :: 0 <= k <= i ==> lines[1..][k] == lines[k + 1];
        if Reached(lines[1..], i) {
          forall k | 0 <= k <= i + 1
            ensures !lines[k].Torn?
          {
            assert k > 0 ==> lines[k] == lines[1..][k - 1];
          }
        }
      }
    }
  }

  lemma NothingPushed(lines: seq<Line>)
    requires lines == [] || lines[0].Torn?
    ensures forall i: nat, q: Seq :: !PushesAt(lines, i, q)
  {
  }

  /** A journal is refused exactly when some sequence number is queued twice before any tear. */
  lemma {:induction false} RefusedIffQueuedTwice(r: Replayed, lines: seq<Line>)
    ensures ReplayFrom(r, lines) == None <==> Doubled(r, lines)
    decreases |lines|
  {
    if lines == [] || lines[0].Torn? {
      NothingPushed(lines);
    } else {
      var tail := lines[1..];
      forall i: nat, q: Seq
        ensures PushesAt(lines, i + 1, q) <==> PushesAt(tail, i, q)
      {
        PushesShift(lines, i, q);
      }
      if lines[0].Blank? {
        RefusedIffQueuedTwice(r, tail);
        DoubledTail(r, r, lines);
      } else if Repeats(r, lines[0]) {
        assert PushesAt(lines, 0, lines[0].record.seqNo);
      } else {
        RefusedIffQueuedTwice(ReadRecord(r, lines[0].record), tail);
        DoubledTail(r, ReadRecord(r, lines[0].record), lines);
      }
    }
  }

  lemma DoubledTail(r: Replayed, r': Replayed, lines: seq<Line>)
    requires lines != [] && !lines[0].Torn? && !Repeats(r, lines[0])
    requires r' == if lines[0].Good? then ReadRecord(r, lines[0].record) else r
    requires forall i: nat, q: Seq :: PushesAt(lines, i + 1, q) <==> PushesAt(lines[1..], i, q)
    ensures Doubled(r, lines) <==> Doubled(r', lines[1..])
  {
    var tail := lines[1..];
    if Doubled(r, lines) {
      if i: nat, q: Seq :| PushesAt(lines, i, q) && q in r.pushed {
        assert i > 0;
        assert PushesAt(tail, i - 1, q);
      } else {
        var i: nat, j: nat, q: Seq :| i < j && PushesAt(lines, i, q) && PushesAt(lines, j, q);
        assert PushesAt(tail, j - 1, q);
        if i > 0 {
          assert PushesAt(tail, i - 1, q);
        }
      }
    }
    if Doubled(r', tail) {
      if i: nat, q: Seq :| PushesAt(tail, i, q) && q in r'.pushed {
        assert PushesAt(lines, i + 1, q);
        if q !in r.pushed {
          assert PushesAt(lines, 0, q);
        }
      } else {
        var i: nat, j: nat, q: Seq :| i < j && PushesAt(tail, i, q) && PushesAt(tail, j, q);
        assert PushesAt(lines, i + 1, q) && PushesAt(lines, j + 1, q);
      }
    }
  }

  // -- the listing of a live map ------------------------------------------------------------

  /** The live messages numbered below `n`, in order. */
  function Listing(live: map<Seq, QueuedCall>, n: nat): (r: seq<Entry>)
  {
    if n == 0 then []
    else Listing(live, n - 1) + if n - 1 in live then [Entry(n - 1, live[n - 1])] else []
  }

  function Snapshot(entries: seq<Entry>): (r: seq<Line>)
    ensures |r| == |entries|
    ensures forall i :: 0 <= i < |r| ==> r[i] == Good(Pushed(entries[i].seqNo, entries[i].call))
  {
    seq(|entries|, i requires 0 <= i < |entries| => Good(Pushed(entries[i].seqNo, entries[i].call)))
  }

  function Below(live: map<Seq, QueuedCall>, n: nat): (r: map<Seq, QueuedCall>)
  {
    map q | q in live && q < n :: live[q]
  }

  lemma {:induction false} ListingOrdered(live: map<Seq, QueuedCall>, n: nat)
    ensures Ordered(Store(Listing(live, n), n, None))
    ensures |Listing(live, n)| == |Below(live, n)|
    ensures forall i :: 0 <= i < |Listing(live, n)| ==>
              var e := Listing(live, n)[i]; e.seqNo in live && live[e.seqNo] == e.call
  {
    if n == 0 {
      assert Below(live, n) == map[];
    } else {
      ListingOrdered(live, n - 1);
      if n - 1 in live {
        assert Below(live, n) == Below(live, n - 1)[n - 1 := live[n - 1]];
      } else {
        assert Below(live, n) == Below(live, n - 1);
      }
    }
  }

  ghost predicate ReplaysTo(lines: seq<Line>, live: map<Seq, QueuedCall>, n: nat)
  {
    var r := Replay(lines);
    r.Some? && r.value.live == live && r.value.pushed == live.Keys && r.value.nextSeq <= n
  }

  /** A snapshot replays to exactly the messages it lists. */
  lemma {:induction false} SnapshotReplays(live: map<Seq, QueuedCall>, n: nat)
    ensures ReplaysTo(Snapshot(Listing(live, n)), Below(live, n), n)
  {
    if n == 0 {
      assert Below(live, n) == map[];
    } else {
      hide ReplaysTo;
      SnapshotReplays(live, n - 1);
      var front := Snapshot(Listing(live, n - 1));
      if n - 1 in live {
        assert Snapshot(Listing(live, n)) == front + [Good(Pushed(n - 1, live[n - 1]))];
        OneMoreReplays(front, Below(live, n - 1), n - 1, live[n - 1]);
        assert Below(live, n) == Below(live, n - 1)[n - 1 := live[n - 1]];
      } else {
        assert Below(live, n) == Below(live, n - 1);
        assert Listing(live, n) == Listing(live, n - 1);
        Later(front, Below(live, n), n - 1);
      }
    }
  }

  lemma Later(lines: seq<Line>, live: map<Seq, QueuedCall>, n: nat)
    requires ReplaysTo(lines, live, n)
    ensures ReplaysTo(lines, live, n + 1)
  {
    hide Replay;
  }

  lemma OneMoreReplays(lines: seq<Line>, live: map<Seq, QueuedCall>, n: nat, call: QueuedCall)
    requires ReplaysTo(lines, live, n) && AllGood(lines) && n !in live
    ensures ReplaysTo(lines + [Good(Pushed(n, call))], live[n := call], n + 1)
  {
    ReplayAppend(NOTHING, lines, [Good(Pushed(n, call))]);
  }

  lemma {:induction false} ListingSame(a: map<Seq, QueuedCall>, b: map<Seq, QueuedCall>, n: nat)
    requires forall q :: q < n ==> (q in a <==> q in b) && (q in a ==> a[q] == b[q])
    ensures Listing(a, n) == Listing(b, n)
  {
    if n > 0 {
      ListingSame(a, b, n - 1);
    }
  }

  lemma ListingMore(live: map<Seq, QueuedCall>, n: nat, call: QueuedCall)
    ensures Listing(live[n := call], n + 1) == Listing(live, n) + [Entry(n, call)]
  {
    ListingSame(live, live[n := call], n);
  }

  lemma {:induction false} ListingAck(live: map<Seq, QueuedCall>, n: nat, q: Seq)
    ensures Listing(live - {q}, n) == Without(Listing(live, n), q)
  {
    if n > 0 {
      ListingAck(live, n - 1, q);
      WithoutAppend(Listing(live, n - 1), if n - 1 in live then [Entry(n - 1, live[n - 1])] else [], q);
      assert n - 1 in live ==>
        Without([Entry(n - 1, live[n - 1])], q) == if q == n - 1 then [] else [Entry(n - 1, live[n - 1])];
    }
  }

  lemma {:induction false} ListingAttempts(live: map<Seq, QueuedCall>, n: nat, q: Seq, attempts: nat)
    requires q in live
    ensures Listing(live[q := live[q].(attempts := attempts)], n) == WithAttempts(Listing(live, n), q, attempts)
  {
    if n > 0 {
      ListingAttempts(live, n - 1, q, attempts);
      ListingOrdered(live, n - 1);
      AttemptsAppend(Listing(live, n - 1), if n - 1 in live then [Entry(n - 1, live[n - 1])] else [], q, attempts);
    }
  }

  lemma {:induction false} AttemptsAppend(a: seq<Entry>, b: seq<Entry>, q: Seq, n: nat)
    requires forall i, j :: 0 <= i < |a| && 0 <= j < |b| ==> a[i].seqNo != b[j].seqNo
    ensures WithAttempts(a + b, q, n) == WithAttempts(a, q, n) + WithAttempts(b, q, n)
  {
    if a == [] {
      assert a + b == b;
    } else if a[0].seqNo == q {
      assert (a + b)[1..] == a[1..] + b;
      AttemptsAbsent(b, q, n);
    } else {
      assert (a + b)[1..] == a[1..] + b;
      AttemptsAppend(a[1..], b, q, n);
    }
  }

  lemma {:induction false} AttemptsAbsent(b: seq<Entry>, q: Seq, n: nat)
    requires forall j :: 0 <= j < |b| ==> b[j].seqNo != q
    ensures WithAttempts(b, q, n) == b
  {
    if b != [] {
      AttemptsAbsent(b[1..], q, n);
    }
  }
}
