/** When a transaction starts, goes on and ends, stated over the conditions themselves
    (src/station/transactions.rs). */
module TransactionRules {
  import opened Basics
  import opened Transactions

  /** The point did not hold and does now. The power path is closed while there is both an authorization
      and a connection. */
  predicate GoesOn(b: Conditions, a: Conditions, point: TxPoint)
  {
    match point
    case ParkingBayOccupancy => !b.parkingBayOccupied && a.parkingBayOccupied
    case EVConnected => !b.evConnected && a.evConnected
    case Authorized => !b.authorized && a.authorized
    case DataSigned => !b.dataSigned && a.dataSigned
    case PowerPathClosed => (!b.authorized || !b.evConnected) && a.authorized && a.evConnected
    case EnergyTransfer => !b.energyTransfer && a.energyTransfer
  }

  /** The point held and does not now: the power path is open as soon as either is gone. */
  predicate GoesOff(b: Conditions, a: Conditions, point: TxPoint)
  {
    match point
    case ParkingBayOccupancy => b.parkingBayOccupied && !a.parkingBayOccupied
    case EVConnected => b.evConnected && !a.evConnected
    case Authorized => b.authorized && !a.authorized
    case DataSigned => b.dataSigned && !a.dataSigned
    case PowerPathClosed => b.authorized && b.evConnected && (!a.authorized || !a.evConnected)
    case EnergyTransfer => b.energyTransfer && !a.energyTransfer
  }

  ghost predicate SomeGoesOn(points: set<TxPoint>, b: Conditions, a: Conditions)
  {
    exists point :: point in points && GoesOn(b, a, point)
  }

  /** The points in the order in which they are looked at: from the bay to the energy. */
  function Place(point: TxPoint): (k: nat)
  {
    match point
    case ParkingBayOccupancy => 0
    case EVConnected => 1
    case Authorized => 2
    case DataSigned => 3
    case PowerPathClosed => 4
    case EnergyTransfer => 5
  }

  /** The first point of the set that goes off. */
  ghost predicate FirstOff(points: set<TxPoint>, b: Conditions, a: Conditions, point: TxPoint)
  {
    && point in points && GoesOff(b, a, point)
    && forall other :: other in points && Place(other) < Place(point) ==> !GoesOff(b, a, other)
  }

  ghost predicate SomeGoesOff(points: set<TxPoint>, b: Conditions, a: Conditions)
  {
    exists point :: point in points && GoesOff(b, a, point)
  }

  /** Why a transaction ended, by the point that went off: the EV is gone where the bay or the cable is,
      the authorization where that is; for the power path whichever went, the cable before the card. */
  predicate Blames(b: Conditions, a: Conditions, point: TxPoint, reason: string)
  {
    match point
    case ParkingBayOccupancy => reason == "EVDisconnected"
    case EVConnected => reason == "EVDisconnected"
    case Authorized => reason == "DeAuthorized"
    case DataSigned => reason == "Other"
    case PowerPathClosed => reason == if a.evConnected then "DeAuthorized" else "EVDisconnected"
    case EnergyTransfer => reason == "StoppedByEV"
  }

  predicate Starts(r: Outcome) { |r.events| == 1 && r.events[0].kind == Started }

  predicate Ends(r: Outcome) { |r.events| == 1 && r.events[0].kind.Ended? }

  predicate Updates(r: Outcome) { |r.events| == 1 && r.events[0].kind == Updated }

  /** An idle machine starts a transaction if and only if one of its start points goes on; a running one
      ends it if and only if one of its stop points goes off, for the reason the first such gives; it
      reports an update if and only if none does and something changed. Nothing else is ever sent. */
  lemma ObserveTells(m: Machine, c: Conditions, now: int)
    ensures var r, b := Observe(m, c, now), m.conditions;
            && r.machine.conditions == c && r.machine.startPoints == m.startPoints && r.machine.stopPoints == m.stopPoints
            && (Starts(r) <==> m.active.None? && SomeGoesOn(m.startPoints, b, c))
            && (Ends(r) <==> m.active.Some? && SomeGoesOff(m.stopPoints, b, c))
            && (Updates(r) <==> m.active.Some? && !SomeGoesOff(m.stopPoints, b, c) && b != c)
            && (r.events == [] || Starts(r) || Ends(r) || Updates(r))
            && (Ends(r) ==> exists point :: FirstOff(m.stopPoints, b, c, point) && Blames(b, c, point, r.events[0].kind.reason))
  {
    hide TriggerFor, StoppedReason, FirstTurning, Place;
    var b := m.conditions;
    TurnsOn(m.startPoints, b, c);
    TurnsOff(m.stopPoints, b, c);
  }

  lemma TurnsOn(points: set<TxPoint>, b: Conditions, a: Conditions)
    ensures Turning(points, b, a, true).Some? <==> SomeGoesOn(points, b, a)
  {
    hide FirstTurning;
  }

  lemma TurnsOff(points: set<TxPoint>, b: Conditions, a: Conditions)
    ensures Turning(points, b, a, false).Some? <==> SomeGoesOff(points, b, a)
    ensures forall point :: Turning(points, b, a, false) == Some(point) ==>
              FirstOff(points, b, a, point) && Blames(b, a, point, StoppedReason(point, b, a))
  {
    var r := Turning(points, b, a, false);
    if r.Some? {
      var k := OffAt(points, b, a, 0);
      assert forall point :: Place(point) == Rank(point);
      assert Place(r.value) == k;
    }
  }

  lemma {:induction false} OffAt(points: set<TxPoint>, b: Conditions, a: Conditions, i: nat) returns (k: nat)
    requires i <= |POINTS| && FirstTurning(points, b, a, false, i).Some?
    ensures i <= k < |POINTS| && FirstTurning(points, b, a, false, i) == Some(POINTS[k])
    ensures POINTS[k] in points && GoesOff(b, a, POINTS[k])
    ensures forall j :: i <= j < k && POINTS[j] in points ==> !GoesOff(b, a, POINTS[j])
    decreases |POINTS| - i
  {
    if POINTS[i] in points && Turns(b, a, POINTS[i], false) {
      k := i;
    } else {
      k := OffAt(points, b, a, i + 1);
    }
  }

  /** What an event carries: the id and the next number of its transaction, the instant, and the trigger;
      and what it leaves running. */
  lemma EventsNumbered(m: Machine, c: Conditions, now: int)
    ensures var r := Observe(m, c, now);
            && (r.events != [] ==> r.events[0].timestamp == now && r.events[0].trigger == TriggerFor(m.conditions, c))
            && (Starts(r) ==>
                  && r.events[0].id == IdText(m.ids) && r.events[0].seqNo == 0
                  && r.machine.active == Some(Active(IdText(m.ids), 1)) && r.machine.ids == m.ids.(next := m.ids.next + 1))
            && (!Starts(r) ==> r.machine.ids == m.ids)
            && (Ends(r) || Updates(r) ==> r.events[0].id == m.active.value.id && r.events[0].seqNo == m.active.value.nextSeq)
            && (Ends(r) ==> r.machine.active == None)
            && (Updates(r) ==> r.machine.active == Some(Active(m.active.value.id, m.active.value.nextSeq + 1)))
            && (r.events == [] ==> r.machine.active == m.active)
  {
    hide Turning, TriggerFor, StoppedReason, IdText;
  }

  /** The trigger names what changed; of several changes the authorization before the cable, that before the
      bay, that before signed data, and that before the energy flow. */
  lemma TriggerTells(b: Conditions, a: Conditions)
    ensures var t := TriggerFor(b, a);
            var card, cable, bay := a.authorized != b.authorized, a.evConnected != b.evConnected,
                                    a.parkingBayOccupied != b.parkingBayOccupied;
            && (t == "Authorized" <==> card && a.authorized)
            && (t == "Deauthorized" <==> card && !a.authorized)
            && (t == "CablePluggedIn" <==> !card && cable && a.evConnected)
            && (t == "EVCommunicationLost" <==> !card && cable && !a.evConnected)
            && (t == "EVDetected" <==> !card && !cable && bay && a.parkingBayOccupied)
            && (t == "EVDeparted" <==> !card && !cable && bay && !a.parkingBayOccupied)
            && (t == "SignedDataReceived" <==> !card && !cable && !bay && GoesOn(b, a, DataSigned))
            && (t == "ChargingStateChanged" <==>
                  !card && !cable && !bay && !GoesOn(b, a, DataSigned) && a.energyTransfer != b.energyTransfer)
            && (t == "Trigger" <==>
                  !card && !cable && !bay && !GoesOn(b, a, DataSigned) && a.energyTransfer == b.energyTransfer)
  {
    TriggersApart();
  }

  const TRIGGERS := ["Authorized", "Deauthorized", "CablePluggedIn", "EVCommunicationLost", "EVDetected", "EVDeparted",
                     "SignedDataReceived", "ChargingStateChanged", "Trigger"]

  /** No two of them are spelled alike: they differ in length, or in the letter after "EVDe". */
  lemma TriggersApart()
    ensures forall i, j :: 0 <= i < j < |TRIGGERS| ==> TRIGGERS[i] != TRIGGERS[j]
  {
    assert |TRIGGERS[0]| == 10 && |TRIGGERS[1]| == 12 && |TRIGGERS[2]| == 14 && |TRIGGERS[3]| == 19;
    assert |TRIGGERS[4]| == 10 && |TRIGGERS[5]| == 10 && |TRIGGERS[6]| == 18 && |TRIGGERS[7]| == 20 && |TRIGGERS[8]| == 7;
    assert TRIGGERS[0][0] == 'A' && TRIGGERS[4][4] == 't' && TRIGGERS[5][4] == 'p' && TRIGGERS[4][0] == 'E';
    assert TRIGGERS[5][0] == 'E';
  }

  /** An update and an abort are sent for a running transaction alone: under its id and next number, as asked;
      the one leaves it running, the other does not. */
  lemma UpdateAndAbortTell(m: Machine, text: string, now: int)
    ensures m.active.None? ==> Update(m, text, now) == Outcome(m, []) && Abort(m, text, now) == Outcome(m, [])
    ensures m.active.Some? ==>
              var u, e, a := Update(m, text, now), Abort(m, text, now), m.active.value;
              && Updates(u) && u.events[0].trigger == text && u.events[0].timestamp == now
              && Ends(e) && e.events[0].kind.reason == text && e.events[0].trigger == "AbnormalCondition"
              && e.events[0].timestamp == now
              && u.events[0].id == e.events[0].id == a.id && u.events[0].seqNo == e.events[0].seqNo == a.nextSeq
              && u.machine == m.(active := Some(Active(a.id, a.nextSeq + 1))) && e.machine == m.(active := None)
  {
  }

  /** A station that starts on authorization and stops on the cable: pulling the cable ends the transaction. */
  lemma PulledCableEnds(m: Machine, now: int)
    requires m.active.Some? && m.stopPoints == {EVConnected} && m.conditions.evConnected
    ensures var r := Observe(m, m.conditions.(evConnected := false), now);
            Ends(r) && r.events[0].kind == Ended("EVDisconnected") && r.machine.active == None
  {
    ObserveTells(m, m.conditions.(evConnected := false), now);
    EventsNumbered(m, m.conditions.(evConnected := false), now);
    assert GoesOff(m.conditions, m.conditions.(evConnected := false), EVConnected);
  }
}
