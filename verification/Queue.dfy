/** The outgoing queue's backing store and retry schedule (src/engine/queue.rs). */
module Queue {
  import opened Basics
  import opened Messages

  datatype QueuedCall = QueuedCall(
    action: Action,
    payload: Payload,
    kind: Kind,
    attempts: nat,
    transactional: bool)

  datatype Entry = Entry(seqNo: Seq, call: QueuedCall)

  /** The contents of a store: un-acknowledged messages, oldest first. */
  datatype Store = Store(entries: seq<Entry>, nextSeq: Seq, capacity: Option<nat>)

  const EMPTY_STORE := Store([], 0, None)

  /** Sequence numbers rise along the store and stay below the next one to be given out. */
  ghost predicate Ordered(s: Store)
  {
    && (forall i, j :: 0 <= i < j < |s.entries| ==> s.entries[i].seqNo < s.entries[j].seqNo)
    && (forall i :: 0 <= i < |s.entries| ==> s.entries[i].seqNo < s.nextSeq)
  }

  predicate Full(s: Store)
  {
    s.capacity.Some? && |s.entries| >= s.capacity.value
  }

  function Push(s: Store, call: QueuedCall): (r: Store)
    requires !Full(s)
  {
    s.(entries := s.entries + [Entry(s.nextSeq, call)], nextSeq := s.nextSeq + 1)
  }

  function Without(entries: seq<Entry>, q: Seq): (r: seq<Entry>)
  {
    if entries == [] then []
    else if entries[0].seqNo == q then Without(entries[1..], q)
    else [entries[0]] + Without(entries[1..], q)
  }

  function Ack(s: Store, q: Seq): (r: Store)
  {
    s.(entries := Without(s.entries, q))
  }

  function WithAttempts(entries: seq<Entry>, q: Seq, attempts: nat): (r: seq<Entry>)
    ensures |r| == |entries|
  {
    if entries == [] then []
    else if entries[0].seqNo == q then
      [entries[0].(call := entries[0].call.(attempts := attempts))] + entries[1..]
    else [entries[0]] + WithAttempts(entries[1..], q, attempts)
  }

  function SetAttempts(s: Store, q: Seq, attempts: nat): (r: Store)
  {
    s.(entries := WithAttempts(s.entries, q, attempts))
  }

  lemma {:induction false} WithoutAppend(a: seq<Entry>, b: seq<Entry>, q: Seq)
    ensures Without(a + b, q) == Without(a, q) + Without(b, q)
  {
    if a == [] {
      assert a + b == b;
    } else {
      assert (a + b)[1..] == a[1..] + b;
      WithoutAppend(a[1..], b, q);
    }
  }

  lemma {:induction false} WithoutAbsent(entries: seq<Entry>, q: Seq)
    requires forall i :: 0 <= i < |entries| ==> entries[i].seqNo != q
    ensures Without(entries, q) == entries
  {
    if entries != [] {
      WithoutAbsent(entries[1..], q);
    }
  }

  lemma {:induction false} WithoutAt(entries: seq<Entry>, k: nat)
    requires k < |entries|
    requires forall i :: 0 <= i < |entries| && i != k ==> entries[i].seqNo != entries[k].seqNo
    ensures Without(entries, entries[k].seqNo) == RemoveAt(entries, k)
  {
    var tail := entries[1..];
    if k == 0 {
      WithoutAbsent(tail, entries[k].seqNo);
    } else {
      assert entries[0].seqNo != entries[k].seqNo;
      WithoutAt(tail, k - 1);
    }
  }

  lemma {:induction false} WithAttemptsAt(entries: seq<Entry>, q: Seq, n: nat)
    requires forall i, j :: 0 <= i < j < |entries| ==> entries[i].seqNo != entries[j].seqNo
    ensures forall i :: 0 <= i < |entries| ==>
      WithAttempts(entries, q, n)[i] ==
      (if entries[i].seqNo == q then entries[i].(call := entries[i].call.(attempts := n)) else entries[i])
  {
    if entries != [] && entries[0].seqNo != q {
      WithAttemptsAt(entries[1..], q, n);
    }
  }

  /** Acknowledging removes the message and nothing else, and keeps the order. */
  lemma AckOrdered(s: Store, q: Seq)
    requires Ordered(s)
    ensures Ordered(Ack(s, q))
  {
    if k :| 0 <= k < |s.entries| && s.entries[k].seqNo == q {
      WithoutAt(s.entries, k);
    } else {
      WithoutAbsent(s.entries, q);
    }
  }

  lemma SetAttemptsOrdered(s: Store, q: Seq, n: nat)
    requires Ordered(s)
    ensures Ordered(SetAttempts(s, q, n))
  {
    WithAttemptsAt(s.entries, q, n);
  }

  /** The in-memory store. */
  class MemStore {
    var entries: seq<Entry>
    var nextSeq: Seq
    const capacity: Option<nat>

    ghost function State(): (r: Store)
      reads this
    {
      Store(entries, nextSeq, capacity)
    }

    ghost predicate Valid()
      reads this
    {
      Ordered(State())
    }

    constructor (capacity: Option<nat>)
      ensures Valid() && State() == Store([], 0, capacity)
    {
      entries := [];
      nextSeq := 0;
      this.capacity := capacity;
    }

    method Put(call: QueuedCall) returns (r: Option<Seq>)
      requires Valid()
      modifies this
      ensures Valid()
      ensures r == None <==> Full(old(State()))
      ensures r == None ==> State() == old(State())
      ensures r.Some? ==> r.value == old(nextSeq) && State() == Push(old(State()), call)
    {
      if capacity.Some? && |entries| >= capacity.value {
        return None;
      }
      var given := nextSeq;
      nextSeq := nextSeq + 1;
      entries := entries + [Entry(given, call)];
      return Some(given);
    }

    method Remove(q: Seq)
      requires Valid()
      modifies this
      ensures Valid()
      ensures State() == Ack(old(State()), q)
    {
      AckOrdered(State(), q);
      var kept: seq<Entry> := [];
      var all := entries;
      for i := 0 to |all|
        invariant kept == Without(all[..i], q)
        modifies {}
      {
        assert all[..i + 1] == all[..i] + [all[i]];
        WithoutAppend(all[..i], [all[i]], q);
        assert Without([all[i]], q) == if all[i].seqNo == q then [] else [all[i]] + Without([], q);
        if all[i].seqNo != q {
          kept := kept + [all[i]];
        }
      }
      assert all[..|all|] == all;
      entries := kept;
    }

    method Record(q: Seq, attempts: nat)
      requires Valid()
      modifies this
      ensures Valid()
      ensures State() == SetAttempts(old(State()), q, attempts)
    {
      SetAttemptsOrdered(State(), q, attempts);
      WithAttemptsAt(entries, q, attempts);
      var i := 0;
      while i < |entries| && entries[i].seqNo != q
        invariant i <= |entries|
        invariant forall k :: 0 <= k < i ==> entries[k].seqNo != q
      {
        i := i + 1;
      }
      if i < |entries| {
        ghost var was := entries;
        entries := entries[i := entries[i].(call := entries[i].call.(attempts := attempts))];
        assert entries == WithAttempts(was, q, attempts);
      } else {
        assert entries == WithAttempts(entries, q, attempts);
      }
    }
  }

  /** Linear retries of transaction messages, at most `attempts` transmissions in all. */
  datatype RetryPolicy = RetryPolicy(attempts: nat, interval: nat) {

    function DelayAfter(made: nat): (r: nat) { interval * made }

    predicate MayRetry(made: nat) { made < attempts }
  }
}
