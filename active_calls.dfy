/** The active-calls panel of the call center (`ActiveCallsPanel`): open rides
    shown as calls, their waiting-time label, the search box, and the answer and
    end buttons. */
module ActiveCalls {
  import opened Common
  import opened Tables

  /** The ride statuses the panel lists. */
  predicate IsOpenRide(r: Ride) {
    r.status in {Some("pending"), Some("accepted"), Some("in_progress")}
  }

  /** The passenger a ride refers to (phone numbers key the passengers). */
  function PassengerOf(passengers: seq<Passenger>, r: Ride): (p: Option<Passenger>)
    ensures p.Some? ==> p.value in passengers && r.passengerPhoneRef == Some(p.value.phone)
    ensures p.None? ==> forall i :: 0 <= i < |passengers| ==> r.passengerPhoneRef != Some(passengers[i].phone)
  {
    var matching := Filter(passengers, (p: Passenger) => r.passengerPhoneRef == Some(p.phone));
    if matching == [] then None else Some(matching[0])
  }

  /** The rides the query returns: open, and (inner join) with a passenger. */
  predicate IsListed(passengers: seq<Passenger>, r: Ride) {
    IsOpenRide(r) && PassengerOf(passengers, r).Some?
  }

  datatype CallStatus = Waiting | InProgress | OnHold

  /** The call status shown for a ride status: pending is waiting, accepted is
      in progress, anything else (a ride already in progress included) is on
      hold. */
  function DisplayStatus(rideStatus: Option<string>): (s: CallStatus)
    ensures s == Waiting <==> rideStatus == Some("pending")
    ensures s == InProgress <==> rideStatus == Some("accepted")
    ensures s == OnHold <==> rideStatus !in {Some("pending"), Some("accepted")}
  {
    if rideStatus == Some("pending") then Waiting
    else if rideStatus == Some("accepted") then InProgress
    else OnHold
  }

  datatype CallPriority = High | Normal

  // ---------------------------------------------------------------------------
  // The waiting-time label
  // ---------------------------------------------------------------------------

  /** `calculateDuration` as written: "H:MM" from one hour on, but "M:00" below
      one hour, so the minutes take the place of the hours. */
  function DurationAsWritten(elapsedMs: int): string {
    var diffInMinutes := elapsedMs / 60000;
    var hours := diffInMinutes / 60;
    var minutes := JsRem(diffInMinutes, 60);
    if hours > 0 then IntToString(hours) + ":" + PadStart2(IntToString(minutes))
    else IntToString(minutes) + ":00"
  }

  /** Five minutes and five hours get the same label. */
  lemma DurationAsWrittenAmbiguous()
    ensures DurationAsWritten(5 * 60000) == "5:00"
    ensures DurationAsWritten(300 * 60000) == "5:00"
  {
  }

  /** The label always in "H:MM", with zero hours below one hour. */
  function Duration(elapsedMs: int): string {
    var diffInMinutes := elapsedMs / 60000;
    var hours := diffInMinutes / 60;
    var minutes := JsRem(diffInMinutes, 60);
    IntToString(hours) + ":" + PadStart2(IntToString(minutes))
  }

  /** The hours and minutes read back from an "H:MM" label. */
  function ParseDuration(text: string): int
    requires |text| >= 4
    requires forall i :: 0 <= i < |text| - 3 ==> IsDigit(text[i])
    requires IsDigit(text[|text| - 2]) && IsDigit(text[|text| - 1])
  {
    DigitsValue(text[..|text| - 3]) * 60 + DigitsValue(text[|text| - 2..])
  }

  /** Minutes past the hour always take two digits and read back. */
  lemma MinutesRoundTrip(mm: nat)
    requires mm < 60
    ensures var ms := PadStart2(NatToString(mm));
      |ms| == 2 && IsDigit(ms[0]) && IsDigit(ms[1]) && DigitsValue(ms) == mm
  {
    NatToStringRoundTrip(mm);
    if mm >= 10 {
      NatToStringShape(mm, 2);
    } else {
      var ms := PadStart2(NatToString(mm));
      assert ms == ['0', DigitChar(mm)];
      assert ms[..1] == ['0'];
      assert ['0'][..0] == [];
    }
  }

  /** An "H:MM" label splits back into its two parts. */
  lemma SplitDuration(hs: string, ms: string)
    requires |hs| >= 1 && |ms| == 2
    ensures var text := hs + ":" + ms;
      |text| >= 4 && text[..|text| - 3] == hs && text[|text| - 2..] == ms
      && text[|text| - 2] == ms[0] && text[|text| - 1] == ms[1]
  {
  }

  /** The corrected label can be read back: it gives the whole minutes
      waited, so different waits get different labels. */
  lemma DurationRoundTrip(elapsedMs: int)
    requires elapsedMs >= 0
    ensures var text := Duration(elapsedMs);
      && |text| >= 4
      && (forall i :: 0 <= i < |text| - 3 ==> IsDigit(text[i]))
      && IsDigit(text[|text| - 2]) && IsDigit(text[|text| - 1])
      && ParseDuration(text) == elapsedMs / 60000
  {
    var m := elapsedMs / 60000;
    var h, mm := m / 60, m % 60;
    NatToStringRoundTrip(h);
    MinutesRoundTrip(mm);
    var hs, ms := NatToString(h), PadStart2(NatToString(mm));
    assert Duration(elapsedMs) == hs + ":" + ms;
    SplitDuration(hs, ms);
  }

  /** From one hour on, the corrected label is the one the panel shows. */
  lemma DurationAgreesFromAnHour(elapsedMs: int)
    requires elapsedMs / 60000 >= 60
    ensures Duration(elapsedMs) == DurationAsWritten(elapsedMs)
  {
  }

  /** Two waits with the same corrected label are the same number of whole
      minutes. */
  lemma DurationDistinguishes(e1: int, e2: int)
    requires e1 >= 0 && e2 >= 0 && Duration(e1) == Duration(e2)
    ensures e1 / 60000 == e2 / 60000
  {
    DurationRoundTrip(e1);
    DurationRoundTrip(e2);
  }

  // ---------------------------------------------------------------------------
  // The call list and search
  // ---------------------------------------------------------------------------

  datatype Call = Call(id: Id, callerName: string, phone: string, kind: string, priority: CallPriority,
                       duration: string, pickup: string, destination: string, status: CallStatus, rideId: Id)

  /** `passengers?.name || passenger_name || 'Unknown'`: the joined passenger's
      name, else the name stored on the ride, else a placeholder; never empty. */
  function CallerName(p: Passenger, r: Ride): (name: string)
    ensures p.name != "" ==> name == p.name
    ensures p.name == "" && Truthy(r.passengerName) ==> name == r.passengerName.value
    ensures p.name == "" && !Truthy(r.passengerName) ==> name == "Unknown"
    ensures name != ""
  {
    if p.name != "" then p.name else OrElse(r.passengerName, "Unknown")
  }

  /** `passengers?.phone || passenger_phone || 'N/A'`: the joined passenger's
      phone, else the phone stored on the ride, else a placeholder; never
      empty. */
  function CallerPhone(p: Passenger, r: Ride): (phone: string)
    ensures p.phone != "" ==> phone == p.phone
    ensures p.phone == "" && Truthy(r.passengerPhone) ==> phone == r.passengerPhone.value
    ensures p.phone == "" && !Truthy(r.passengerPhone) ==> phone == "N/A"
    ensures phone != ""
  {
    if p.phone != "" then p.phone else OrElse(r.passengerPhone, "N/A")
  }

  /** The mapping of a listed ride. The waiting time is `calculateDuration` as
      written; a missing creation time is the epoch. */
  function ToCall(r: Ride, p: Passenger, now: Time): Call {
    Call(r.id, CallerName(p, r), CallerPhone(p, r), "ride_request",
         if r.status == Some("pending") then High else Normal,
         DurationAsWritten(now - r.createdAt.GetOr(0)),
         r.pickupLocation, r.dropoffLocation, DisplayStatus(r.status), r.id)
  }

  /** The listed rides, newest first. */
  function ListedRides(rides: seq<Ride>, passengers: seq<Passenger>): seq<Ride> {
    OrderBy(Filter(rides, (r: Ride) => IsListed(passengers, r)), (r: Ride) => r.createdAt, Desc)
  }

  /** The query with its mapping. */
  function ActiveCalls(rides: seq<Ride>, passengers: seq<Passenger>, now: Time): seq<Call> {
    var listed := ListedRides(rides, passengers);
    seq(|listed|, i requires 0 <= i < |listed| =>
      assert IsListed(passengers, listed[i]) by {
        assert listed[i] in multiset(listed);
        assert listed[i] in Filter(rides, (r: Ride) => IsListed(passengers, r));
      }
      ToCall(listed[i], PassengerOf(passengers, listed[i]).value, now))
  }

  /** A ride is listed exactly when it is pending, accepted or in progress and
      has a passenger; there is one call per listed ride. */
  lemma ActiveCallsShape(rides: seq<Ride>, passengers: seq<Passenger>, now: Time, r: Ride)
    ensures r in ListedRides(rides, passengers) <==> r in rides && IsOpenRide(r) && PassengerOf(passengers, r).Some?
    ensures |ActiveCalls(rides, passengers, now)| == |ListedRides(rides, passengers)| <= |rides|
  {
    var p := (r: Ride) => IsListed(passengers, r);
    var f := Filter(rides, p);
    OrderByMembers(f, (r: Ride) => r.createdAt, Desc, r);
    if r in rides && p(r) {
      var k :| 0 <= k < |rides| && rides[k] == r;
      assert rides[k] in f;
    }
    if r in f {
      var k :| 0 <= k < |f| && f[k] == r;
    }
  }

  /** Each call shows its ride: high priority exactly when the ride is
      pending, the ride's locations and status, the caller's name and phone
      with their fallbacks, and the waiting time as the panel writes it, which
      from one hour on is the "H:MM" label. */
  lemma ActiveCallsMapping(rides: seq<Ride>, passengers: seq<Passenger>, now: Time, i: int)
    requires 0 <= i < |ListedRides(rides, passengers)|
    ensures var r, calls := ListedRides(rides, passengers)[i], ActiveCalls(rides, passengers, now);
      && |calls| == |ListedRides(rides, passengers)|
      && r in rides && IsOpenRide(r) && PassengerOf(passengers, r).Some?
      && calls[i].rideId == r.id
      && (calls[i].priority == High <==> r.status == Some("pending"))
      && calls[i].status == DisplayStatus(r.status)
      && calls[i].pickup == r.pickupLocation && calls[i].destination == r.dropoffLocation
      && calls[i].callerName == CallerName(PassengerOf(passengers, r).value, r)
      && calls[i].phone == CallerPhone(PassengerOf(passengers, r).value, r)
      && calls[i].duration == DurationAsWritten(now - r.createdAt.GetOr(0))
      && ((now - r.createdAt.GetOr(0)) / 60000 >= 60 ==> calls[i].duration == Duration(now - r.createdAt.GetOr(0)))
  {
    var listed := ListedRides(rides, passengers);
    var r := listed[i];
    var f := Filter(rides, (r: Ride) => IsListed(passengers, r));
    OrderByMembers(f, (r: Ride) => r.createdAt, Desc, r);
    var k :| 0 <= k < |f| && f[k] == r;
    var c := ToCall(r, PassengerOf(passengers, r).value, now);
    assert ActiveCalls(rides, passengers, now)[i] == c;
    if (now - r.createdAt.GetOr(0)) / 60000 >= 60 {
      DurationAgreesFromAnHour(now - r.createdAt.GetOr(0));
    }
  }

  /** `filteredCalls`: the caller name, pickup and destination match ignoring
      case, the phone matches as typed. */
  predicate MatchesSearch(c: Call, term: string) {
    || ContainsIgnoreCase(c.callerName, term)
    || Contains(c.phone, term)
    || ContainsIgnoreCase(c.pickup, term)
    || ContainsIgnoreCase(c.destination, term)
  }

  function Search(calls: seq<Call>, term: string): seq<Call> {
    Filter(calls, (c: Call) => MatchesSearch(c, term))
  }

  /** An empty search keeps every call; any search keeps the list's order and
      keeps a call exactly when it matches. */
  lemma SearchKeeps(calls: seq<Call>, term: string, i: int)
    requires 0 <= i < |calls|
    ensures term == "" ==> Search(calls, term) == calls
    ensures IsSubsequence(Search(calls, term), calls)
    ensures MatchesSearch(calls[i], term) ==> calls[i] in Search(calls, term)
  {
    if term == "" {
      forall k | 0 <= k < |calls| ensures MatchesSearch(calls[k], term) {
        ContainsEmptyAndSelf(calls[k].phone);
      }
      FilterAll(calls, (c: Call) => MatchesSearch(c, term));
    }
  }

  // ---------------------------------------------------------------------------
  // Answer and end
  // ---------------------------------------------------------------------------

  /** The write of both buttons: the ride's status, on that ride only; a failed
      update is only logged to the console. */
  function SetRideStatus(db: Db, rideId: Id, status: string, updateFails: bool): Db {
    if updateFails then db
    else db.(rides := UpdateWhere(db.rides, (r: Ride) => r.id == rideId, (r: Ride) => r.(status := Some(status))))
  }

  /** Answer is disabled while the call shows as in progress. */
  predicate AnswerDisabled(c: Call) {
    c.status == InProgress
  }

  method HandleAnswerCall(store: Store, rideId: Id, updateFails: bool)
    modifies store
    ensures store.db == SetRideStatus(old(store.db), rideId, "accepted", updateFails)
  {
    if updateFails {
      return;
    }
    store.db := store.db.(rides := UpdateWhere(store.db.rides, (r: Ride) => r.id == rideId,
                                               (r: Ride) => r.(status := Some("accepted"))));
  }

  method HandleEndCall(store: Store, rideId: Id, updateFails: bool)
    modifies store
    ensures store.db == SetRideStatus(old(store.db), rideId, "cancelled", updateFails)
  {
    if updateFails {
      return;
    }
    store.db := store.db.(rides := UpdateWhere(store.db.rides, (r: Ride) => r.id == rideId,
                                               (r: Ride) => r.(status := Some("cancelled"))));
  }

  /** Answering makes the ride accepted and ending makes it cancelled, which
      takes it off the panel; other rides are untouched. */
  lemma AnswerAndEnd(db: Db, rideId: Id, i: int)
    requires 0 <= i < |db.rides|
    ensures var a, e := SetRideStatus(db, rideId, "accepted", false), SetRideStatus(db, rideId, "cancelled", false);
      && (db.rides[i].id == rideId ==>
            a.rides[i].status == Some("accepted") && e.rides[i].status == Some("cancelled") && !IsOpenRide(e.rides[i]))
      && (db.rides[i].id != rideId ==> a.rides[i] == db.rides[i] && e.rides[i] == db.rides[i])
  {
  }

  /** Answer is disabled only for accepted rides: a ride already in progress
      shows as on hold, and answering it moves it back to accepted. */
  lemma AnswerOnRideInProgress(r: Ride, p: Passenger, now: Time, db: Db, i: int)
    requires r.status == Some("in_progress")
    requires 0 <= i < |db.rides| && db.rides[i] == r
    ensures ToCall(r, p, now).status == OnHold && !AnswerDisabled(ToCall(r, p, now))
    ensures SetRideStatus(db, r.id, "accepted", false).rides[i].status == Some("accepted")
  {
  }
}
