/** The ride-dispatch panel of the call center (`RideDispatchPanel`): pending
    rides, the drivers that can take them, and assigning a driver to a ride,
    at random or by hand. */
module RideDispatch {
  import opened Common
  import opened Tables
  import ActiveCalls

  /** The pending-ride query: pending rides that have a passenger (inner
      join), newest first. */
  function PendingRides(rides: seq<Ride>, passengers: seq<Passenger>): seq<Ride> {
    OrderBy(Filter(rides, (r: Ride) => r.status == Some("pending") && ActiveCalls.PassengerOf(passengers, r).Some?),
            (r: Ride) => r.createdAt, Desc)
  }

  /** A ride is listed exactly when it is pending and has a passenger. */
  lemma PendingRidesSelection(rides: seq<Ride>, passengers: seq<Passenger>, r: Ride)
    ensures r in PendingRides(rides, passengers) <==>
              r in rides && r.status == Some("pending") && ActiveCalls.PassengerOf(passengers, r).Some?
    ensures SortedBy(PendingRides(rides, passengers), (r: Ride) => r.createdAt, Desc)
  {
    var p := (r: Ride) => r.status == Some("pending") && ActiveCalls.PassengerOf(passengers, r).Some?;
    var f := Filter(rides, p);
    OrderByMembers(f, (r: Ride) => r.createdAt, Desc, r);
    if r in rides && p(r) {
      var k :| 0 <= k < |rides| && rides[k] == r;
      assert rides[k] in f;
    }
    if r in f {
      var k :| 0 <= k < |f| && f[k] == r;
    }
  }

  predicate IsAvailable(d: Driver) {
    d.isOnline == Some(true) && d.approvedStatus == Some("approved")
  }

  /** The drivers that can be assigned: online and approved. */
  function AvailableDrivers(drivers: seq<Driver>): (r: seq<Driver>)
    ensures forall i :: 0 <= i < |r| ==> r[i] in drivers && IsAvailable(r[i])
    ensures forall i :: 0 <= i < |drivers| && IsAvailable(drivers[i]) ==> drivers[i] in r
  {
    Filter(drivers, IsAvailable)
  }

  /** `calculateTimeAgo`: `${diffInMinutes} min ago`, the whole minutes
      rounded down. */
  function TimeAgo(elapsedMs: int): string {
    IntToString(elapsedMs / 60000) + " min ago"
  }

  /** For a ride created in the past the label is a decimal number followed by
      " min ago", and that number is the elapsed time in whole minutes. */
  lemma TimeAgoMinutes(elapsedMs: int)
    requires elapsedMs >= 0
    ensures var m, text := elapsedMs / 60000, TimeAgo(elapsedMs);
      && m * 60000 <= elapsedMs < (m + 1) * 60000
      && text == NatToString(m) + " min ago"
      && (forall i :: 0 <= i < |text| - 8 ==> IsDigit(text[i]))
      && DigitsValue(text[..|text| - 8]) == m
  {
    var m, text := elapsedMs / 60000, TimeAgo(elapsedMs);
    NatToStringRoundTrip(m);
    assert text[..|text| - 8] == NatToString(m);
  }

  /** A pending ride as the panel shows it. */
  datatype PendingItem = PendingItem(id: Id, passengerName: string, phone: string, pickup: string,
                                     destination: string, requestTime: string, estimatedFare: real)

  /** The mapping of a pending ride: name and phone with the same fallbacks
      as the active-calls panel, the time since the request, and the fare
      (`ride.fare || 0`). */
  function ToPendingItem(r: Ride, p: Passenger, now: Time): PendingItem {
    PendingItem(r.id, ActiveCalls.CallerName(p, r), ActiveCalls.CallerPhone(p, r), r.pickupLocation,
                r.dropoffLocation, TimeAgo(now - r.createdAt.GetOr(0)), FareOrZero(r))
  }

  /** The list the panel shows: each pending ride with its display fields. */
  function PendingItems(rides: seq<Ride>, passengers: seq<Passenger>, now: Time): seq<PendingItem> {
    var pending := PendingRides(rides, passengers);
    seq(|pending|, i requires 0 <= i < |pending| =>
      assert ActiveCalls.PassengerOf(passengers, pending[i]).Some? by {
        assert pending[i] in multiset(pending);
        assert pending[i] in Filter(rides, (r: Ride) => r.status == Some("pending")
                                                      && ActiveCalls.PassengerOf(passengers, r).Some?);
      }
      ToPendingItem(pending[i], ActiveCalls.PassengerOf(passengers, pending[i]).value, now))
  }

  /** Each item shows its pending ride: its id and locations, the passenger's
      name and phone with their fallbacks (never empty), the time since the
      ride was created, and its fare, 0 when it has none. */
  lemma PendingItemsMapping(rides: seq<Ride>, passengers: seq<Passenger>, now: Time, i: int)
    requires 0 <= i < |PendingRides(rides, passengers)|
    ensures var r, items := PendingRides(rides, passengers)[i], PendingItems(rides, passengers, now);
      && |items| == |PendingRides(rides, passengers)|
      && r in rides && r.status == Some("pending") && ActiveCalls.PassengerOf(passengers, r).Some?
      && items[i].id == r.id
      && items[i].pickup == r.pickupLocation && items[i].destination == r.dropoffLocation
      && items[i].passengerName == ActiveCalls.CallerName(ActiveCalls.PassengerOf(passengers, r).value, r)
      && items[i].phone == ActiveCalls.CallerPhone(ActiveCalls.PassengerOf(passengers, r).value, r)
      && items[i].passengerName != "" && items[i].phone != ""
      && items[i].requestTime == TimeAgo(now - r.createdAt.GetOr(0))
      && (r.fare.Some? ==> items[i].estimatedFare == r.fare.value)
      && (r.fare.None? ==> items[i].estimatedFare == 0.0)
  {
    var pending := PendingRides(rides, passengers);
    var r := pending[i];
    PendingRidesSelection(rides, passengers, r);
    var item := ToPendingItem(r, ActiveCalls.PassengerOf(passengers, r).value, now);
    assert PendingItems(rides, passengers, now)[i] == item;
  }

  /** `Math.floor(Math.random() * n)`: for a draw in [0, 1) the index is a
      valid position in a list of n drivers. */
  function PickIndex(draw: real, n: nat): (k: nat)
    requires 0.0 <= draw < 1.0 && n > 0
    ensures k < n
  {
    assert draw * n as real < n as real;
    (draw * n as real).Floor
  }

  /** The write of both assign handlers: the driver and `accepted` on that
      ride only; a failed update is only logged. */
  function Assign(db: Db, rideId: Id, driverPhone: string, updateFails: bool): Db {
    if updateFails then db
    else db.(rides := UpdateWhere(db.rides, (r: Ride) => r.id == rideId,
                                  (r: Ride) => r.(driverPhoneRef := Some(driverPhone), status := Some("accepted"))))
  }

  /** `handleAutoAssign`: nothing without an available driver, else a random
      one of them. */
  function AutoAssign(db: Db, rideId: Id, draw: real, updateFails: bool): Db
    requires 0.0 <= draw < 1.0
  {
    var available := AvailableDrivers(db.drivers);
    if |available| == 0 then db
    else Assign(db, rideId, available[PickIndex(draw, |available|)].phone, updateFails)
  }

  method HandleAutoAssign(store: Store, rideId: Id, draw: real, updateFails: bool)
    requires 0.0 <= draw < 1.0
    modifies store
    ensures store.db == AutoAssign(old(store.db), rideId, draw, updateFails)
  {
    var available := AvailableDrivers(store.db.drivers);
    if |available| == 0 {
      return;
    }
    var randomDriver := available[PickIndex(draw, |available|)];
    if updateFails {
      return;
    }
    store.db := store.db.(rides := UpdateWhere(store.db.rides, (r: Ride) => r.id == rideId,
                                               (r: Ride) => r.(driverPhoneRef := Some(randomDriver.phone),
                                                               status := Some("accepted"))));
  }

  method HandleManualAssign(store: Store, rideId: Id, driverPhone: string, updateFails: bool)
    modifies store
    ensures store.db == Assign(old(store.db), rideId, driverPhone, updateFails)
  {
    if updateFails {
      return;
    }
    store.db := store.db.(rides := UpdateWhere(store.db.rides, (r: Ride) => r.id == rideId,
                                               (r: Ride) => r.(driverPhoneRef := Some(driverPhone),
                                                               status := Some("accepted"))));
  }

  /** With no driver online and approved, auto-assign writes nothing. Otherwise
      the ride gets an online, approved driver and becomes accepted, and
      every other ride is untouched. */
  lemma AutoAssignPicksAvailable(db: Db, rideId: Id, draw: real, i: int)
    requires 0.0 <= draw < 1.0 && 0 <= i < |db.rides|
    ensures |AvailableDrivers(db.drivers)| == 0 ==> AutoAssign(db, rideId, draw, false) == db
    ensures var r' := AutoAssign(db, rideId, draw, false).rides[i];
      && (|AvailableDrivers(db.drivers)| > 0 && db.rides[i].id == rideId ==>
            r'.status == Some("accepted")
            && exists d :: d in db.drivers && IsAvailable(d) && r'.driverPhoneRef == Some(d.phone))
      && (db.rides[i].id != rideId ==> r' == db.rides[i])
  {
    var available := AvailableDrivers(db.drivers);
    if |available| > 0 {
      var d := available[PickIndex(draw, |available|)];
      assert d in db.drivers && IsAvailable(d);
    }
  }

  /** Assigning by hand writes the chosen driver and `accepted` on that ride
      only. */
  lemma ManualAssignOnlyThatRide(db: Db, rideId: Id, driverPhone: string, i: int)
    requires 0 <= i < |db.rides|
    ensures var r, r' := db.rides[i], Assign(db, rideId, driverPhone, false).rides[i];
      && (r.id == rideId ==> r' == r.(driverPhoneRef := Some(driverPhone), status := Some("accepted")))
      && (r.id != rideId ==> r' == r)
    ensures Assign(db, rideId, driverPhone, true) == db
  {
  }

  /** An assigned ride leaves the pending list. */
  lemma AssignedRideLeavesPending(db: Db, passengers: seq<Passenger>, rideId: Id, driverPhone: string, r: Ride)
    requires r in PendingRides(Assign(db, rideId, driverPhone, false).rides, passengers)
    ensures r.id != rideId
  {
    PendingRidesSelection(Assign(db, rideId, driverPhone, false).rides, passengers, r);
  }
}
