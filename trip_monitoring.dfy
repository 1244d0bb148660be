/** The trip-monitoring page (`TripMonitoring`): the rides query with its search,
    status and date filters, the status badge, the trip duration label and the
    four summary figures. */
module TripMonitoring {
  import opened Common
  import opened Tables

  // ---------------------------------------------------------------------------
  // The rides query
  // ---------------------------------------------------------------------------

  /** The WHERE clause. A non-empty term must occur in the passenger name, the
      driver phone or the pickup location; a status other than `all` must match
      exactly; a date filter other than `all` asks for a creation time at or
      after `start`. `start` is the moment the page computes for the chosen
      range (midnight today, a week back, a month back, or now for any other
      value); that calendar arithmetic is not part of this model. */
  predicate Matches(r: Ride, search: string, statusFilter: string, dateFilter: string, start: Time) {
    && (search == "" || ILike(r.passengerName, search) || ILike(r.driverPhoneRef, search)
                     || ILike(Some(r.pickupLocation), search))
    && (statusFilter == "all" || r.status == Some(statusFilter))
    && (dateFilter == "all" || (r.createdAt.Some? && r.createdAt.value >= start))
  }

  /** The trips shown: at most 100 matching rides, newest first. */
  function TripQuery(rides: seq<Ride>, search: string, statusFilter: string, dateFilter: string, start: Time): (r: seq<Ride>)
    ensures |r| <= 100
    ensures SortedBy(r, (t: Ride) => t.createdAt, Desc)
  {
    var ordered := OrderBy(Filter(rides, (t: Ride) => Matches(t, search, statusFilter, dateFilter, start)),
                           (t: Ride) => t.createdAt, Desc);
    var r := Take(ordered, 100);
    assert SortedBy(r, (t: Ride) => t.createdAt, Desc) by {
      assert r == ordered[..|r|];
    }
    r
  }

  /** Every trip shown matches the filters, and when at most 100 rides match,
      every matching ride is shown. */
  lemma TripQuerySelection(rides: seq<Ride>, search: string, statusFilter: string, dateFilter: string, start: Time, t: Ride)
    ensures t in TripQuery(rides, search, statusFilter, dateFilter, start) ==>
              t in rides && Matches(t, search, statusFilter, dateFilter, start)
    ensures Count(rides, (x: Ride) => Matches(x, search, statusFilter, dateFilter, start)) <= 100 ==>
              (t in TripQuery(rides, search, statusFilter, dateFilter, start)
               <==> t in rides && Matches(t, search, statusFilter, dateFilter, start))
  {
    TopRowsSelection(rides, (x: Ride) => Matches(x, search, statusFilter, dateFilter, start),
                     (x: Ride) => x.createdAt, Desc, 100, t);
  }

  /** The date filter `all` puts no lower bound on the creation time: the start
      is ignored and rides with no creation time are kept. Any other filter
      drops rides with no creation time. */
  lemma DateFilterAll(r: Ride, search: string, statusFilter: string, start: Time, dateFilter: string)
    ensures Matches(r, search, statusFilter, "all", start)
            <==> (search == "" || ILike(r.passengerName, search) || ILike(r.driverPhoneRef, search)
                               || ILike(Some(r.pickupLocation), search))
                 && (statusFilter == "all" || r.status == Some(statusFilter))
    ensures dateFilter != "all" && r.createdAt.None? ==> !Matches(r, search, statusFilter, dateFilter, start)
  {
  }

  // ---------------------------------------------------------------------------
  // Badge and duration
  // ---------------------------------------------------------------------------

  datatype Badge = Badge(text: string, colour: string)

  /** `getStatusBadge` */
  function StatusBadge(status: Option<string>): (b: Badge)
    ensures b.text in {"Completed", "Active", "Cancelled", "Pending"}
  {
    if status == Some("completed") then Badge("Completed", "bg-green-100 text-green-800")
    else if status == Some("active") then Badge("Active", "bg-blue-100 text-blue-800 animate-pulse")
    else if status == Some("cancelled") then Badge("Cancelled", "bg-red-100 text-red-800")
    else Badge("Pending", "bg-yellow-100 text-yellow-800")
  }

  /** The three named statuses get three different badges; every other status,
      and a missing one, shows as pending. */
  lemma BadgeCases(status: Option<string>)
    ensures StatusBadge(status).text == "Pending"
            <==> status !in {Some("completed"), Some("active"), Some("cancelled")}
    ensures StatusBadge(Some("completed")) != StatusBadge(Some("active"))
    ensures StatusBadge(Some("completed")) != StatusBadge(Some("cancelled"))
    ensures StatusBadge(Some("active")) != StatusBadge(Some("cancelled"))
  {
  }

  /** `formatDuration(started_at, completed_at)`: `Ongoing` while the trip has no
      end, otherwise the whole minutes from start to end. A missing start reads
      as the epoch, as `new Date(null)` does. */
  function FormatDuration(startedAt: Option<Time>, completedAt: Option<Time>): string {
    if completedAt.None? then "Ongoing"
    else IntToString((completedAt.value - startedAt.GetOr(0)) / 60000) + " min"
  }

  /** A finished trip that ended after it started shows a decimal number `m`
      followed by " min", where `m` is the elapsed time rounded down to whole
      minutes; the label can be read back to that number. */
  lemma FormatDurationMinutes(startedAt: Time, completedAt: Time)
    requires startedAt <= completedAt
    ensures FormatDuration(Some(startedAt), None) == "Ongoing"
    ensures var m := (completedAt - startedAt) / 60000;
            var text := FormatDuration(Some(startedAt), Some(completedAt));
      && m * 60000 <= completedAt - startedAt < (m + 1) * 60000
      && text == NatToString(m) + " min"
      && (forall i :: 0 <= i < |text| - 4 ==> IsDigit(text[i]))
      && DigitsValue(text[..|text| - 4]) == m
  {
    var m := (completedAt - startedAt) / 60000;
    var text := FormatDuration(Some(startedAt), Some(completedAt));
    NatToStringRoundTrip(m);
    assert text[..|text| - 4] == NatToString(m);
  }

  // ---------------------------------------------------------------------------
  // Summary figures
  // ---------------------------------------------------------------------------

  datatype Stats = Stats(total: nat, active: nat, completed: nat, totalEarnings: real)

  predicate IsActive(t: Ride) {
    t.status == Some("active")
  }

  /** `stats` over the trips shown. */
  function TripStats(trips: seq<Ride>): Stats {
    Stats(|trips|, Count(trips, IsActive), Count(trips, IsCompletedRide), SumOf(Filter(trips, IsCompletedRide), FareOrZero))
  }

  /** Active and completed trips are disjoint, so together they never exceed the
      total. */
  lemma StatsBounded(trips: seq<Ride>)
    ensures var s := TripStats(trips); s.active + s.completed <= s.total
  {
    var never := (t: Ride) => false;
    CountThreeExclusive(trips, IsActive, IsCompletedRide, never);
  }

  /** Only completed trips earn: adding a trip that is not completed leaves the
      earnings as they were, adding a completed one adds its fare (0 without
      one). */
  lemma EarningsOnlyFromCompleted(trips: seq<Ride>, t: Ride)
    ensures TripStats(trips + [t]).totalEarnings
         == TripStats(trips).totalEarnings + (if IsCompletedRide(t) then FareOrZero(t) else 0.0)
  {
    FilterConcat(trips, [t], IsCompletedRide);
    SumOfConcat(Filter(trips, IsCompletedRide), Filter([t], IsCompletedRide), FareOrZero);
  }

  /** The figures depend only on which trips are shown, not on their order. */
  lemma StatsIgnoreOrder(a: seq<Ride>, b: seq<Ride>)
    requires multiset(a) == multiset(b)
    ensures TripStats(a) == TripStats(b)
  {
    assert |a| == |multiset(a)| == |multiset(b)| == |b|;
    FilterPermutation(a, b, IsActive);
    assert |Filter(a, IsActive)| == |multiset(Filter(a, IsActive))| == |Filter(b, IsActive)|;
    FilterPermutation(a, b, IsCompletedRide);
    assert |Filter(a, IsCompletedRide)| == |multiset(Filter(a, IsCompletedRide))| == |Filter(b, IsCompletedRide)|;
    SumOfPermutation(Filter(a, IsCompletedRide), Filter(b, IsCompletedRide), FareOrZero);
  }
}
