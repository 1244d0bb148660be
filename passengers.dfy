/** The passengers page (`PassengersManagement`): the passenger search, the trip
    statistics of the selected passenger and the "active in the last 30 days"
    count. */
module Passengers {
  import opened Common
  import opened Tables

  // ---------------------------------------------------------------------------
  // Search
  // ---------------------------------------------------------------------------

  /** The `or` filter: an empty term adds no filter, any other term must occur
      in the name, the phone or the email. */
  predicate Matches(p: Passenger, search: string) {
    search == "" || ILike(Some(p.name), search) || ILike(Some(p.phone), search) || ILike(p.email, search)
  }

  /** The listed passengers (in table order; the database's ordering on the
      creation time is not part of this model). */
  function PassengerQuery(ps: seq<Passenger>, search: string): seq<Passenger> {
    Filter(ps, (p: Passenger) => Matches(p, search))
  }

  /** A passenger is listed exactly when it matches; an empty search lists
      everybody in table order; a passenger without an email can still be found
      by name or phone. */
  lemma PassengerQuerySelection(ps: seq<Passenger>, search: string, p: Passenger)
    ensures p in PassengerQuery(ps, search) <==> p in ps && Matches(p, search)
    ensures search == "" ==> PassengerQuery(ps, search) == ps
    ensures IsSubsequence(PassengerQuery(ps, search), ps)
  {
    var m := (p: Passenger) => Matches(p, search);
    if p in ps && m(p) {
      var k :| 0 <= k < |ps| && ps[k] == p;
      assert ps[k] in Filter(ps, m);
    }
    if search == "" {
      FilterAll(ps, m);
    }
  }

  // ---------------------------------------------------------------------------
  // Trip statistics of the selected passenger
  // ---------------------------------------------------------------------------

  datatype TripStats = TripStats(totalTrips: nat, completedTrips: nat, totalSpent: real, recentTrips: seq<Ride>)

  /** The rides query: the passenger's rides, newest first. */
  function Trips(phone: string, rides: seq<Ride>): seq<Ride> {
    OrderBy(Filter(rides, (r: Ride) => r.passengerPhoneRef == Some(phone)), (r: Ride) => r.createdAt, Desc)
  }

  /** `passengerStats`: nothing while no passenger with a phone is selected;
      otherwise the counts, the money spent on completed trips, and the five
      newest trips. */
  function PassengerStats(selectedPhone: Option<string>, rides: seq<Ride>): Option<TripStats> {
    if !Truthy(selectedPhone) then None
    else
      var trips := Trips(selectedPhone.value, rides);
      var completed := Filter(trips, IsCompletedRide);
      Some(TripStats(|trips|, |completed|, SumOf(completed, FareOrZero), Take(trips, 5)))
  }

  /** With no selected phone there are no stats. Otherwise the trips are the
      passenger's rides; the completed ones are among them, so never more; the
      recent trips are the first five (or all, when fewer) of the newest-first
      list, each of them the passenger's. */
  lemma StatsShape(selectedPhone: Option<string>, rides: seq<Ride>)
    ensures !Truthy(selectedPhone) <==> PassengerStats(selectedPhone, rides).None?
    ensures Truthy(selectedPhone) ==>
      var s := PassengerStats(selectedPhone, rides).value;
      var trips := Trips(selectedPhone.value, rides);
      && s.totalTrips == Count(rides, (r: Ride) => r.passengerPhoneRef == Some(selectedPhone.value))
      && s.completedTrips <= s.totalTrips
      && |s.recentTrips| == (if s.totalTrips < 5 then s.totalTrips else 5)
      && s.recentTrips == trips[..|s.recentTrips|]
      && SortedBy(s.recentTrips, (r: Ride) => r.createdAt, Desc)
      && (forall i :: 0 <= i < |s.recentTrips| ==>
            s.recentTrips[i] in rides && s.recentTrips[i].passengerPhoneRef == selectedPhone)
  {
    if Truthy(selectedPhone) {
      var phone := selectedPhone.value;
      var mine := (r: Ride) => r.passengerPhoneRef == Some(phone);
      var f := Filter(rides, mine);
      var trips := Trips(phone, rides);
      var recent := PassengerStats(selectedPhone, rides).value.recentTrips;
      forall i | 0 <= i < |recent|
        ensures recent[i] in rides && recent[i].passengerPhoneRef == selectedPhone
      {
        assert recent[i] == trips[i];
        OrderByMembers(f, (r: Ride) => r.createdAt, Desc, recent[i]);
      }
    }
  }

  /** The money spent is the sum of the fares (a missing fare counting 0) of
      the passenger's completed rides taken in table order: the newest-first
      ordering does not change it. */
  lemma TotalSpentByRide(phone: string, rides: seq<Ride>)
    requires phone != ""
    ensures PassengerStats(Some(phone), rides).value.totalSpent
         == SumOf(Filter(rides, (r: Ride) => r.passengerPhoneRef == Some(phone) && IsCompletedRide(r)), FareOrZero)
  {
    var mine := (r: Ride) => r.passengerPhoneRef == Some(phone);
    var both := (r: Ride) => r.passengerPhoneRef == Some(phone) && IsCompletedRide(r);
    var f := Filter(rides, mine);
    var trips := Trips(phone, rides);
    FilterPermutation(trips, f, IsCompletedRide);
    SumOfPermutation(Filter(trips, IsCompletedRide), Filter(f, IsCompletedRide), FareOrZero);
    FilterFilter(rides, mine, IsCompletedRide, both);
  }

  /** A ride that is not completed adds a trip but no money; a completed one
      adds its fare. */
  lemma NewRideEffect(phone: string, rides: seq<Ride>, r: Ride)
    requires phone != "" && r.passengerPhoneRef == Some(phone)
    ensures var s, s' := PassengerStats(Some(phone), rides).value, PassengerStats(Some(phone), rides + [r]).value;
      && s'.totalTrips == s.totalTrips + 1
      && s'.totalSpent == s.totalSpent + (if IsCompletedRide(r) then FareOrZero(r) else 0.0)
  {
    var both := (x: Ride) => x.passengerPhoneRef == Some(phone) && IsCompletedRide(x);
    var mine := (x: Ride) => x.passengerPhoneRef == Some(phone);
    TotalSpentByRide(phone, rides);
    TotalSpentByRide(phone, rides + [r]);
    FilterConcat(rides, [r], both);
    FilterConcat(rides, [r], mine);
    SumOfConcat(Filter(rides, both), Filter([r], both), FareOrZero);
  }

  // ---------------------------------------------------------------------------
  // Active in the last 30 days
  // ---------------------------------------------------------------------------

  /** JavaScript's `a > b` on two strings: lexicographic on code units, a proper
      prefix being smaller. */
  predicate StringGreater(a: string, b: string) {
    if a == [] then false
    else if b == [] then true
    else a[0] > b[0] || (a[0] == b[0] && StringGreater(a[1..], b[1..]))
  }

  /** No string is greater than itself. */
  lemma {:induction false} StringGreaterIrreflexive(a: string)
    ensures !StringGreater(a, a)
  {
    if a != [] {
      StringGreaterIrreflexive(a[1..]);
    }
  }

  /** The string order is transitive. */
  lemma {:induction false} StringGreaterTransitive(a: string, b: string, c: string)
    requires StringGreater(a, b) && StringGreater(b, c)
    ensures StringGreater(a, c)
  {
    if c != [] && a[0] == b[0] && b[0] == c[0] {
      StringGreaterTransitive(a[1..], b[1..], c[1..]);
    }
  }

  /** `p.created_at > cutoff`, where the cutoff is the ISO text of the moment
      30 days back. A null creation time compares false. */
  predicate IsActive(p: Passenger, cutoff: string) {
    p.createdAt.Some? && StringGreater(p.createdAt.value, cutoff)
  }

  function ActiveCount(ps: seq<Passenger>, cutoff: string): (n: nat)
    ensures n <= |ps|
  {
    Count(ps, (p: Passenger) => IsActive(p, cutoff))
  }

  /** A later cutoff never counts more passengers: everybody created after it
      was also created after an earlier one. A passenger without a creation time
      is never counted. */
  lemma {:induction false} ActiveCountMonotone(ps: seq<Passenger>, earlier: string, later: string)
    requires StringGreater(later, earlier)
    ensures ActiveCount(ps, later) <= ActiveCount(ps, earlier)
  {
    if ps != [] {
      ActiveCountMonotone(ps[1..], earlier, later);
      if IsActive(ps[0], later) {
        StringGreaterTransitive(ps[0].createdAt.value, later, earlier);
      }
    }
  }

  /** A passenger created exactly at the cutoff, or with no creation time, is
      not active. */
  lemma NotActiveAtCutoff(p: Passenger, cutoff: string)
    requires p.createdAt == Some(cutoff) || p.createdAt.None?
    ensures !IsActive(p, cutoff)
  {
    if p.createdAt.Some? {
      StringGreaterIrreflexive(cutoff);
    }
  }
}
