/** The call queue of the call-center dashboard (`AgentQueue`): the channels
    waiting for an agent, how each is described (waiting time, priority,
    customer), and accepting a call. */
module AgentQueue {
  import opened Common
  import opened Tables

  /** A channel is waiting when it is active and no agent has it. */
  predicate IsWaiting(c: Channel) {
    c.status == Some("active") && c.agentId.None?
  }

  /** The queue query: waiting channels, longest waiting first. */
  function Queue(channels: seq<Channel>): seq<Channel> {
    OrderBy(Filter(channels, IsWaiting), (c: Channel) => c.startedAt, Asc)
  }

  /** A channel is queued exactly when it is waiting; the queue is ordered by
      start time, undated channels last. */
  lemma QueueSelection(channels: seq<Channel>, c: Channel)
    ensures c in Queue(channels) <==> c in channels && IsWaiting(c)
    ensures SortedBy(Queue(channels), (c: Channel) => c.startedAt, Asc)
  {
    var f := Filter(channels, IsWaiting);
    OrderByMembers(f, (c: Channel) => c.startedAt, Asc, c);
    if c in channels && IsWaiting(c) {
      var k :| 0 <= k < |channels| && channels[k] == c;
      assert channels[k] in f;
    }
    if c in f {
      var k :| 0 <= k < |f| && f[k] == c;
    }
  }

  /** `calculateDuration`: whole minutes waited, as "Hh Mm" from one hour on and
      "Mm" below; `%` is JavaScript's remainder. */
  function Duration(elapsedMs: int): string {
    var diffInMinutes := elapsedMs / 60000;
    var hours := diffInMinutes / 60;
    var minutes := JsRem(diffInMinutes, 60);
    if hours > 0 then IntToString(hours) + "h " + IntToString(minutes) + "m"
    else IntToString(minutes) + "m"
  }

  /** For a wait of m whole minutes the label shows the hours and the minutes
      past the hour, dropping the hours part below one hour. */
  lemma DurationParts(elapsedMs: int)
    requires elapsedMs >= 0
    ensures var m := elapsedMs / 60000;
      && (m >= 60 ==> Duration(elapsedMs) == NatToString(m / 60) + "h " + NatToString(m % 60) + "m")
      && (m < 60 ==> Duration(elapsedMs) == NatToString(m) + "m")
      && (m / 60) * 60 + m % 60 == m && m % 60 < 60
  {
  }

  datatype Priority = Normal | High | Urgent

  /** `determinePriority`: more than ten minutes waited is urgent, more than
      five is high. The minutes are a real quotient, so the thresholds are
      compared in milliseconds. */
  function DeterminePriority(elapsedMs: int): (p: Priority)
    ensures p == Urgent <==> elapsedMs > 600000
    ensures p == High <==> 300000 < elapsedMs <= 600000
    ensures p == Normal <==> elapsedMs <= 300000
  {
    if elapsedMs > 600000 then Urgent
    else if elapsedMs > 300000 then High
    else Normal
  }

  function Level(p: Priority): nat {
    match p
    case Normal => 0
    case High => 1
    case Urgent => 2
  }

  /** Priority only rises with the waiting time; exactly ten minutes is still
      high and exactly five still normal. */
  lemma PriorityMonotone(e1: int, e2: int)
    requires e1 <= e2
    ensures Level(DeterminePriority(e1)) <= Level(DeterminePriority(e2))
    ensures DeterminePriority(600000) == High && DeterminePriority(300000) == Normal
  {
  }

  /** The rows joined onto a channel by the query: its ride, its passenger and
      its driver, each possibly missing. */
  datatype Joined = Joined(ride: Option<Ride>, passenger: Option<Passenger>, driver: Option<Driver>)

  /** The names a caller may go by, in the order they are tried. */
  function NameCandidates(j: Joined): seq<string> {
    (if j.ride.Some? && j.ride.value.passengerName.Some? then [j.ride.value.passengerName.value] else [])
    + (if j.passenger.Some? then [j.passenger.value.name] else [])
    + (if j.driver.Some? then [j.driver.value.name] else [])
  }

  /** The first non-empty string of a list, or the fallback. */
  function FirstNonEmpty(candidates: seq<string>, fallback: string): string {
    if candidates == [] then fallback
    else if candidates[0] != "" then candidates[0]
    else FirstNonEmpty(candidates[1..], fallback)
  }

  /** `getCustomerName`: the ride's passenger name, else the passenger's
      name, else the driver's name, else a placeholder; empty names are
      skipped. */
  function CustomerName(j: Joined): (r: string)
    ensures r != ""
    ensures r in NameCandidates(j) || r == "Unknown Customer"
  {
    if j.ride.Some? && Truthy(j.ride.value.passengerName) then j.ride.value.passengerName.value
    else if j.passenger.Some? && j.passenger.value.name != "" then j.passenger.value.name
    else if j.driver.Some? && j.driver.value.name != "" then j.driver.value.name
    else "Unknown Customer"
  }

  /** The name shown is the first non-empty candidate in the order ride
      passenger, passenger, driver, and the placeholder only when none is
      usable. */
  lemma CustomerNameFallback(j: Joined)
    ensures CustomerName(j) == FirstNonEmpty(NameCandidates(j), "Unknown Customer")
  {
    var r := if j.ride.Some? && j.ride.value.passengerName.Some? then [j.ride.value.passengerName.value] else [];
    var p := if j.passenger.Some? then [j.passenger.value.name] else [];
    var d := if j.driver.Some? then [j.driver.value.name] else [];
    assert NameCandidates(j) == r + (p + d);
    var fb := "Unknown Customer";
    assert FirstNonEmpty(d, fb) == if j.driver.Some? && j.driver.value.name != "" then j.driver.value.name else fb;
    SkipOne(p, d, fb);
    SkipOne(r, p + d, fb);
  }

  /** Trying a list of at most one candidate before the rest. */
  lemma SkipOne(a: seq<string>, b: seq<string>, fb: string)
    requires |a| <= 1
    ensures FirstNonEmpty(a + b, fb) == if a != [] && a[0] != "" then a[0] else FirstNonEmpty(b, fb)
  {
    if a != [] {
      assert (a + b)[1..] == b;
    } else {
      assert a + b == b;
    }
  }

  /** `getCustomerPhone`: the ride's passenger phone, else the channel's
      passenger reference, else its driver reference, else `N/A`. */
  function CustomerPhone(c: Channel, j: Joined): (r: string)
    ensures r != ""
    ensures j.ride.Some? && Truthy(j.ride.value.passengerPhone) ==> r == j.ride.value.passengerPhone.value
    ensures !(j.ride.Some? && Truthy(j.ride.value.passengerPhone)) && Truthy(c.passengerPhoneRef) ==>
              r == c.passengerPhoneRef.value
    ensures (!(j.ride.Some? && Truthy(j.ride.value.passengerPhone)) && !Truthy(c.passengerPhoneRef)
             && Truthy(c.driverPhoneRef)) ==> r == c.driverPhoneRef.value
    ensures (!(j.ride.Some? && Truthy(j.ride.value.passengerPhone)) && !Truthy(c.passengerPhoneRef)
             && !Truthy(c.driverPhoneRef)) ==> r == "N/A"
  {
    if j.ride.Some? && Truthy(j.ride.value.passengerPhone) then j.ride.value.passengerPhone.value
    else if Truthy(c.passengerPhoneRef) then c.passengerPhoneRef.value
    else if Truthy(c.driverPhoneRef) then c.driverPhoneRef.value
    else "N/A"
  }

  /** A queued call as shown. */
  datatype QueueItem = QueueItem(id: Id, kind: string, duration: string, priority: Priority, customerName: string,
                                 customerPhone: string, rideInfo: Option<(string, string)>, channel: Channel)

  /** The mapping of one queued channel; a missing start time is the epoch. */
  function Describe(c: Channel, j: Joined, now: Time): QueueItem {
    var elapsed := now - c.startedAt.GetOr(0);
    QueueItem(c.id, c.kind, Duration(elapsed), DeterminePriority(elapsed), CustomerName(j), CustomerPhone(c, j),
              if j.ride.Some? then Some((j.ride.value.pickupLocation, j.ride.value.dropoffLocation)) else None, c)
  }

  /** `handleAcceptCall`'s writes: the channel is given to the agent (and kept
      active), then a `call_start` entry is logged; a failed update writes
      nothing. */
  function Accept(db: Db, agentId: Id, callId: Id, now: Time, updateFails: bool): Db {
    if updateFails then db
    else
      db.(channels := UpdateWhere(db.channels, (c: Channel) => c.id == callId,
                                  (c: Channel) => c.(agentId := Some(agentId), status := Some("active"))))
        .AddLog(Some(agentId), "call_start", map["channel_id" := Ref(callId), "timestamp" := At(now)])
  }

  class AgentQueuePanel {
    const agentId: Id
    /** The call being accepted; its Accept button is disabled meanwhile. */
    var processingCall: Option<Id>

    constructor(agentId: Id)
      ensures this.agentId == agentId && processingCall == None
    {
      this.agentId := agentId;
      processingCall := None;
    }

    /** `handleAcceptCall`: marks the call as processing, writes, and clears the
        mark in `finally`, whether or not the update succeeded. */
    method AcceptCall(store: Store, callId: Id, now: Time, updateFails: bool)
      modifies this, store
      ensures store.db == Accept(old(store.db), agentId, callId, now, updateFails)
      ensures processingCall == None
    {
      processingCall := Some(callId);
      if !updateFails {
        store.db := store.db.(channels := UpdateWhere(store.db.channels, (c: Channel) => c.id == callId,
                                                      (c: Channel) => c.(agentId := Some(agentId), status := Some("active"))));
        store.Log(Some(agentId), "call_start", map["channel_id" := Ref(callId), "timestamp" := At(now)]);
      }
      processingCall := None;
    }
  }

  /** An accepted call is given to the agent and leaves the queue for good:
      the channel with its id gets the agent and the `active` status and keeps
      every other field, no channel with its id is waiting any more, every
      other channel is as it was, and the agent's log gains one `call_start`
      entry naming the call. */
  lemma AcceptLeavesQueue(db: Db, agentId: Id, callId: Id, now: Time, c: Channel)
    ensures var db' := Accept(db, agentId, callId, now, false);
      && |db'.channels| == |db.channels|
      && (c in Queue(db'.channels) ==> c.id != callId)
      && (forall i :: 0 <= i < |db.channels| && db.channels[i].id == callId ==>
            db'.channels[i] == db.channels[i].(agentId := Some(agentId), status := Some("active")))
      && (forall i :: 0 <= i < |db.channels| && db.channels[i].id != callId ==> db'.channels[i] == db.channels[i])
      && db'.logs == db.logs + [ActivityLog(db.nextId, Some(agentId), Some("call_start"),
                                            map["channel_id" := Ref(callId), "timestamp" := At(now)])]
  {
    var db' := Accept(db, agentId, callId, now, false);
    QueueSelection(db'.channels, c);
  }
}
