/** The machine that decides when a transaction starts, goes on and ends at one EVSE
    (src/station/transactions.rs). */
module Transactions {
  import opened Basics
  import DecimalPrinting

  datatype TxPoint =
    | ParkingBayOccupancy
    | EVConnected
    | Authorized
    | DataSigned
    | PowerPathClosed
    | EnergyTransfer

  /** The order in which a set of points is searched. */
  const POINTS := [ParkingBayOccupancy, EVConnected, Authorized, DataSigned, PowerPathClosed, EnergyTransfer]

  datatype Conditions = Conditions(
    parkingBayOccupied: bool,
    evConnected: bool,
    authorized: bool,
    dataSigned: bool,
    energyTransfer: bool)

  const NOTHING := Conditions(false, false, false, false, false)

  predicate Holds(c: Conditions, point: TxPoint)
  {
    match point
    case ParkingBayOccupancy => c.parkingBayOccupied
    case EVConnected => c.evConnected
    case Authorized => c.authorized
    case DataSigned => c.dataSigned
    case PowerPathClosed => c.authorized && c.evConnected
    case EnergyTransfer => c.energyTransfer
  }

  /** Begins to hold, or stops holding. */
  predicate Turns(before: Conditions, after: Conditions, point: TxPoint, on: bool)
  {
    Holds(before, point) == !on && Holds(after, point) == on
  }

  /** The first of the points, in order, that turns. */
  function FirstTurning(points: set<TxPoint>, before: Conditions, after: Conditions, on: bool, k: nat): (r: Option<TxPoint>)
    requires k <= |POINTS|
    ensures r.Some? ==> r.value in points && Turns(before, after, r.value, on)
    ensures r.None? ==> forall j :: k <= j < |POINTS| && POINTS[j] in points ==> !Turns(before, after, POINTS[j], on)
    decreases |POINTS| - k
  {
    if k == |POINTS| then None
    else if POINTS[k] in points && Turns(before, after, POINTS[k], on) then Some(POINTS[k])
    else FirstTurning(points, before, after, on, k + 1)
  }

  function Rank(point: TxPoint): (k: nat)
    ensures k < |POINTS| && POINTS[k] == point
  {
    match point
    case ParkingBayOccupancy => 0
    case EVConnected => 1
    case Authorized => 2
    case DataSigned => 3
    case PowerPathClosed => 4
    case EnergyTransfer => 5
  }

  function Turning(points: set<TxPoint>, before: Conditions, after: Conditions, on: bool): (r: Option<TxPoint>)
    ensures r.Some? ==> r.value in points && Turns(before, after, r.value, on)
    ensures r.None? ==> forall point :: point in points ==> !Turns(before, after, point, on)
  {
    var r := FirstTurning(points, before, after, on, 0);
    assert forall point :: POINTS[Rank(point)] == point;
    r
  }

  function TriggerFor(before: Conditions, after: Conditions): (r: string)
  {
    if before.authorized != after.authorized then (if after.authorized then "Authorized" else "Deauthorized")
    else if before.evConnected != after.evConnected then
      (if after.evConnected then "CablePluggedIn" else "EVCommunicationLost")
    else if before.parkingBayOccupied != after.parkingBayOccupied then
      (if after.parkingBayOccupied then "EVDetected" else "EVDeparted")
    else if before.dataSigned != after.dataSigned && after.dataSigned then "SignedDataReceived"
    else if before.energyTransfer != after.energyTransfer then "ChargingStateChanged"
    else "Trigger"
  }

  function StoppedReason(point: TxPoint, before: Conditions, after: Conditions): (r: string)
  {
    match point
    case EVConnected => "EVDisconnected"
    case ParkingBayOccupancy => "EVDisconnected"
    case Authorized => "DeAuthorized"
    case PowerPathClosed => if before.evConnected && !after.evConnected then "EVDisconnected" else "DeAuthorized"
    case EnergyTransfer => "StoppedByEV"
    case DataSigned => "Other"
  }

  /** A reason that blames the EV or the authorization is given only when that is what went away. */
  lemma ReasonTellsWhatHappened(point: TxPoint, before: Conditions, after: Conditions)
    requires Turns(before, after, point, false)
    ensures StoppedReason(point, before, after) == "DeAuthorized" ==> before.authorized && !after.authorized
    ensures StoppedReason(point, before, after) == "EVDisconnected" ==>
              || (before.evConnected && !after.evConnected)
              || (before.parkingBayOccupied && !after.parkingBayOccupied)
  {
    assert "DeAuthorized"[0] != "EVDisconnected"[0] && "DeAuthorized"[0] != "StoppedByEV"[0]
        && "DeAuthorized"[0] != "Other"[0] && "EVDisconnected"[0] != "StoppedByEV"[0]
        && "EVDisconnected"[0] != "Other"[0];
  }

  // -- the machine --------------------------------------------------------------------------

  datatype Kind = Started | Updated | Ended(reason: string)

  /** What is to be sent. */
  datatype TxEvent = TxEvent(id: string, seqNo: int, kind: Kind, trigger: string, timestamp: int)

  datatype Active = Active(id: string, nextSeq: int)

  /** Ids of the form prefix and counter. */
  datatype Ids = Ids(prefix: string, next: nat)

  function IdText(ids: Ids): (r: string) { ids.prefix + DecimalPrinting.NatText(ids.next) }

  datatype Machine = Machine(
    startPoints: set<TxPoint>,
    stopPoints: set<TxPoint>,
    ids: Ids,
    conditions: Conditions,
    active: Option<Active>)

  /** A machine and what it wants sent. */
  datatype Outcome = Outcome(machine: Machine, events: seq<TxEvent>)

  function Observe(m: Machine, c: Conditions, now: int): (r: Outcome)
  {
    var before := m.conditions;
    var n := m.(conditions := c);
    match m.active
    case None =>
      if Turning(m.startPoints, before, c, true).None? then Outcome(n, [])
      else
        var id := IdText(m.ids);
        Outcome(n.(ids := m.ids.(next := m.ids.next + 1), active := Some(Active(id, 1))),
                [TxEvent(id, 0, Started, TriggerFor(before, c), now)])
    case Some(a) =>
      match Turning(m.stopPoints, before, c, false)
      case Some(point) =>
        Outcome(n.(active := None),
                [TxEvent(a.id, a.nextSeq, Ended(StoppedReason(point, before, c)), TriggerFor(before, c), now)])
      case None =>
        if before == c then Outcome(n, [])
        else
          Outcome(n.(active := Some(a.(nextSeq := a.nextSeq + 1))),
                  [TxEvent(a.id, a.nextSeq, Updated, TriggerFor(before, c), now)])
  }

  function Update(m: Machine, trigger: string, now: int): (r: Outcome)
  {
    match m.active
    case None => Outcome(m, [])
    case Some(a) =>
      Outcome(m.(active := Some(a.(nextSeq := a.nextSeq + 1))), [TxEvent(a.id, a.nextSeq, Updated, trigger, now)])
  }

  function Abort(m: Machine, reason: string, now: int): (r: Outcome)
  {
    match m.active
    case None => Outcome(m, [])
    case Some(a) =>
      Outcome(m.(active := None), [TxEvent(a.id, a.nextSeq, Ended(reason), "AbnormalCondition", now)])
  }

  function Resume(m: Machine, id: string, nextSeq: int, c: Conditions): (r: Machine)
  {
    m.(conditions := c, active := Some(Active(id, nextSeq)))
  }

  function Fresh(startPoints: set<TxPoint>, stopPoints: set<TxPoint>, prefix: string): (r: Machine)
  {
    Machine(startPoints, stopPoints, Ids(prefix, 1), NOTHING, None)
  }

  /** The machine as it runs. */
  class TransactionMachine {
    const startPoints: set<TxPoint>
    const stopPoints: set<TxPoint>
    var ids: Ids
    var conditions: Conditions
    var active: Option<Active>

    constructor (startPoints: set<TxPoint>, stopPoints: set<TxPoint>, prefix: string)
      ensures Abs() == Fresh(startPoints, stopPoints, prefix)
    {
      this.startPoints := startPoints;
      this.stopPoints := stopPoints;
      ids := Ids(prefix, 1);
      conditions := NOTHING;
      active := None;
    }

    function Abs(): (m: Machine)
      reads this
    {
      Machine(startPoints, stopPoints, ids, conditions, active)
    }

    method NextId() returns (id: string)
      modifies this`ids
      ensures id == IdText(old(ids)) && ids == old(ids).(next := old(ids.next) + 1)
    {
      id := IdText(ids);
      ids := ids.(next := ids.next + 1);
    }

    method ObserveConditions(c: Conditions, now: int) returns (events: seq<TxEvent>)
      modifies this
      ensures Outcome(Abs(), events) == Observe(old(Abs()), c, now)
    {
      hide Turning, TriggerFor, StoppedReason;
      var previous := conditions;
      conditions := c;
      events := [];
      match active {
        case None =>
          if Turning(startPoints, previous, c, true).Some? {
            var id := NextId();
            events := [TxEvent(id, 0, Started, TriggerFor(previous, c), now)];
            active := Some(Active(id, 1));
          }
        case Some(a) =>
          var stopped := Turning(stopPoints, previous, c, false);
          if stopped.Some? {
            active := None;
            events := [TxEvent(a.id, a.nextSeq, Ended(StoppedReason(stopped.value, previous, c)),
                               TriggerFor(previous, c), now)];
          } else if previous != c {
            active := Some(a.(nextSeq := a.nextSeq + 1));
            events := [TxEvent(a.id, a.nextSeq, Updated, TriggerFor(previous, c), now)];
          }
      }
    }

    method UpdateFor(trigger: string, now: int) returns (event: Option<TxEvent>)
      modifies this`active
      ensures Outcome(Abs(), Listed(event)) == Update(old(Abs()), trigger, now)
    {
      if active.None? {
        return None;
      }
      var a := active.value;
      active := Some(a.(nextSeq := a.nextSeq + 1));
      return Some(TxEvent(a.id, a.nextSeq, Updated, trigger, now));
    }

    method AbortFor(reason: string, now: int) returns (event: Option<TxEvent>)
      modifies this`active
      ensures Outcome(Abs(), Listed(event)) == Abort(old(Abs()), reason, now)
    {
      if active.None? {
        return None;
      }
      var a := active.value;
      active := None;
      return Some(TxEvent(a.id, a.nextSeq, Ended(reason), "AbnormalCondition", now));
    }

    method ResumeFrom(id: string, nextSeq: int, c: Conditions)
      modifies this`conditions, this`active
      ensures Abs() == Resume(old(Abs()), id, nextSeq, c)
    {
      conditions := c;
      active := Some(Active(id, nextSeq));
    }
  }

  function Listed(event: Option<TxEvent>): (r: seq<TxEvent>)
  {
    if event.Some? then [event.value] else []
  }

  // -- ids ----------------------------------------------------------------------------------

  /** One generator never repeats itself, whatever its prefix. */
  lemma OneGeneratorNeverRepeats(prefix: string, m: nat, n: nat)
    ensures IdText(Ids(prefix, m)) == IdText(Ids(prefix, n)) <==> m == n
  {
    var a, b := DecimalPrinting.NatText(m), DecimalPrinting.NatText(n);
    DecimalPrinting.NatTextNumber(m);
    DecimalPrinting.NatTextNumber(n);
    assert (prefix + a)[|prefix|..] == a && (prefix + b)[|prefix|..] == b;
  }

  /** `q` is `p` and then the beginning of a counter. */
  predicate Extends(p: string, q: string)
  {
    && |p| < |q| && p == q[..|p|]
    && DecimalPrinting.AllDigits(q[|p|..]) && q[|p|] != '0'
  }

  /** What a station has to keep its prefixes from: repeating one, or continuing one with a counter. */
  predicate Clash(p: string, q: string)
  {
    p == q || Extends(p, q) || Extends(q, p)
  }

  /** Two generators issue the same id sooner or later. */
  ghost predicate Meet(p: string, q: string)
  {
    exists m: nat, n: nat :: MeetAt(p, m, q, n)
  }

  ghost predicate MeetAt(p: string, m: nat, q: string, n: nat)
  {
    m >= 1 && n >= 1 && IdText(Ids(p, m)) == IdText(Ids(q, n))
  }

  /** Generators meet if and only if their prefixes are the same, or one is the other followed by digits
      that could begin a counter. */
  lemma PrefixesMeetIff(p: string, q: string)
    ensures Meet(p, q) <==> Clash(p, q)
  {
    if Meet(p, q) {
      var m: nat, n: nat :| MeetAt(p, m, q, n);
      if |p| < |q| {
        ShorterExtends(p, m, q, n);
      } else if |q| < |p| {
        ShorterExtends(q, n, p, m);
      } else {
        SameLength(p, m, q, n);
      }
    }
    if p == q {
      assert MeetAt(p, 1, q, 1);
    } else if Extends(p, q) {
      var m := ExtendedMeets(p, q);
      assert MeetAt(p, m, q, 1);
    } else if Extends(q, p) {
      var m := ExtendedMeets(q, p);
      assert MeetAt(p, 1, q, m);
    }
  }

  lemma SameLength(p: string, m: nat, q: string, n: nat)
    requires |p| == |q| && IdText(Ids(p, m)) == IdText(Ids(q, n))
    ensures p == q
  {
    var t := IdText(Ids(p, m));
    assert t[..|p|] == p && t[..|q|] == q;
  }

  lemma ShorterExtends(p: string, m: nat, q: string, n: nat)
    requires |p| < |q| && m >= 1 && IdText(Ids(p, m)) == IdText(Ids(q, n))
    ensures Extends(p, q)
  {
    var a, t := DecimalPrinting.NatText(m), IdText(Ids(p, m));
    DecimalPrinting.NatTextNumber(m);
    DecimalPrinting.PlainNatText(m);
    assert t[..|p|] == p && t[..|q|] == q && q[..|p|] == t[..|p|];
    var tail := q[|p|..];
    assert forall k :: 0 <= k < |tail| ==> tail[k] == t[|p| + k] == a[k];
  }

  /** The extended prefix with the counter at one is the shorter one with the counter further on. */
  lemma ExtendedMeets(p: string, q: string) returns (m: nat)
    requires Extends(p, q)
    ensures m >= 1 && IdText(Ids(p, m)) == IdText(Ids(q, 1))
  {
    var digits := q[|p|..] + ['1'];
    m := DecimalPrinting.Number(digits);
    assert digits[0] == q[|p|];
    DecimalPrinting.PlainIsNatText(digits);
    assert DecimalPrinting.NatText(1) == ['1'];
    assert p + digits == q + ['1'];
  }

  /** Ways to keep them apart: prefixes of one length, such as fixed-width boot counters, and prefixes
      that end in no digit. */
  lemma PrefixesKeptApart(p: string, q: string)
    requires p != q
    requires |p| == |q| || (EndsPlain(p) && EndsPlain(q))
    ensures !Clash(p, q)
  {
  }

  predicate EndsPlain(p: string)
  {
    p != [] && !('0' <= p[|p| - 1] <= '9')
  }

  /** A prefix that differs is not enough when it ends in a digit: `tx-` and `tx-1` meet at `tx-11`. */
  lemma DifferentPrefixesCanMeet()
    ensures IdText(Ids("tx-", 11)) == IdText(Ids("tx-1", 1))
  {
    assert DecimalPrinting.NatText(11) == DecimalPrinting.NatText(1) + ['1'];
    assert "tx-" + "11" == "tx-1" + "1";
  }
}
