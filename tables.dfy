/** The hosted database the console reads and writes, as in-memory tables.
    Each row type keeps the columns the console touches, with the nullability of
    the generated table types. Row ids (uuids in the database) are natural numbers
    handed out from a counter; timestamps are integer milliseconds. */
module Tables {
  import opened Common

  type Id = nat

  /** Milliseconds since the epoch. */
  type Time = int

  /** The `call_center_role` enumeration. */
  datatype CallCenterRole = Agent | Supervisor | Admin

  /** A `support_tickets` row. */
  datatype Ticket = Ticket(
    id: Id,
    subject: string,
    message: string,
    status: Option<string>,
    priority: Option<string>,
    category: Option<string>,
    assignedAgentId: Option<Id>,
    escalatedTo: Option<Id>,
    driverPhoneRef: Option<string>,
    createdAt: Option<Time>,
    updatedAt: Option<Time>,
    firstResponseAt: Option<Time>,
    resolvedAt: Option<Time>)

  /** An `emergency_escalations` row. */
  datatype Escalation = Escalation(
    id: Id,
    ticketId: Option<Id>,
    escalatedBy: Option<Id>,
    escalatedTo: Option<Id>,
    reason: string,
    otpCode: Option<string>,
    status: Option<string>,
    otpVerifiedAt: Option<Time>,
    createdAt: Option<Time>)

  /** A value stored in the JSON `details` column of an activity log entry. */
  datatype Detail = Text(text: string) | Ref(ref: Id) | At(at: Time)

  /** An `agent_activity_logs` row. */
  datatype ActivityLog = ActivityLog(
    id: Id,
    agentId: Option<Id>,
    activityType: Option<string>,
    details: map<string, Detail>)

  /** A `ticket_responses` row. */
  datatype TicketResponse = TicketResponse(
    id: Id,
    ticketId: Option<Id>,
    senderType: Option<string>,
    senderId: Option<Id>,
    message: string,
    isInternal: Option<bool>)

  /** An `admin_profiles` row; `userId` is the authentication account bound to it. */
  datatype AdminProfile = AdminProfile(
    id: Id,
    userId: Option<Id>,
    email: string,
    name: string,
    role: string,
    isActive: bool,
    createdAt: Time,
    updatedAt: Time)

  /** A `call_center_users` row. */
  datatype CallCenterUser = CallCenterUser(
    id: Id,
    email: string,
    name: string,
    role: CallCenterRole,
    isActive: Option<bool>,
    lastLogin: Option<Time>,
    createdAt: Option<Time>,
    updatedAt: Option<Time>)

  /** A `communication_channels` row; `kind` is the `type` column. */
  datatype Channel = Channel(
    id: Id,
    kind: string,
    status: Option<string>,
    agentId: Option<Id>,
    rideId: Option<Id>,
    passengerPhoneRef: Option<string>,
    driverPhoneRef: Option<string>,
    startedAt: Option<Time>)

  /** A `drivers` row, keyed by phone number. */
  datatype Driver = Driver(
    phone: string,
    name: string,
    email: Option<string>,
    approvedStatus: Option<string>,
    isOnline: Option<bool>,
    adminNotes: Option<string>,
    rejectionReason: Option<string>,
    lastReviewedAt: Option<Time>,
    createdAt: Option<Time>,
    updatedAt: Option<Time>,
    walletBalance: Option<real>)

  /** A `rides` row. */
  datatype Ride = Ride(
    id: Id,
    status: Option<string>,
    passengerName: Option<string>,
    passengerPhone: Option<string>,
    passengerPhoneRef: Option<string>,
    driverPhoneRef: Option<string>,
    pickupLocation: string,
    dropoffLocation: string,
    fare: Option<real>,
    createdAt: Option<Time>,
    startedAt: Option<Time>,
    completedAt: Option<Time>)

  predicate IsCompletedRide(r: Ride) {
    r.status == Some("completed")
  }

  /** `fare || 0`: the fare, a missing one counting 0. */
  function FareOrZero(r: Ride): real {
    r.fare.GetOr(0.0)
  }

  /** A `notifications` row; `kind` is the `type` column. */
  datatype Notification = Notification(
    id: Id,
    title: string,
    message: string,
    kind: Option<string>,
    driverPhoneRef: Option<string>,
    isRead: Option<bool>,
    createdAt: Option<Time>)

  /** A `passengers` row. `createdAt` stays the ISO text the database returns,
      since the console compares it as a string. */
  datatype Passenger = Passenger(
    phone: string,
    name: string,
    email: Option<string>,
    createdAt: Option<string>)

  /** A `wallet_transactions` row. */
  datatype WalletTransaction = WalletTransaction(
    id: Id,
    kind: string,
    amount: real,
    status: Option<string>,
    driverPhoneRef: Option<string>,
    description: Option<string>,
    createdAt: Option<Time>)

  /** The tables the console writes, and the counter that supplies fresh row ids. */
  datatype Db = Db(
    tickets: seq<Ticket>,
    escalations: seq<Escalation>,
    logs: seq<ActivityLog>,
    responses: seq<TicketResponse>,
    adminProfiles: seq<AdminProfile>,
    users: seq<CallCenterUser>,
    channels: seq<Channel>,
    drivers: seq<Driver>,
    rides: seq<Ride>,
    notifications: seq<Notification>,
    nextId: Id)
  {
    /** Admin profile ids are distinct and were all handed out by the counter,
        so an update by id touches at most one profile. */
    predicate Valid() {
      && (forall i :: 0 <= i < |adminProfiles| ==> adminProfiles[i].id < nextId)
      && (forall i, j :: 0 <= i < j < |adminProfiles| ==> adminProfiles[i].id != adminProfiles[j].id)
    }

    /** INSERT into agent_activity_logs. */
    function AddLog(agent: Option<Id>, activity: string, details: map<string, Detail>): Db {
      this.(logs := logs + [ActivityLog(nextId, agent, Some(activity), details)], nextId := nextId + 1)
    }
  }

  /** The database as one mutable object: every handler of the console changes
      it through a sequence of row writes. */
  class Store {
    var db: Db

    constructor(init: Db)
      ensures db == init
    {
      db := init;
    }

    /** INSERT into agent_activity_logs; a failure of this write is never
        inspected by the console, so it is not modelled. */
    method Log(agent: Option<Id>, activity: string, details: map<string, Detail>)
      modifies this
      ensures db == old(db).AddLog(agent, activity, details)
    {
      db := db.AddLog(agent, activity, details);
    }
  }
}
