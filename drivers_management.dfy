/** The driver-approval page (`DriversManagement`): the list query, the status
    badge and counters, the actions offered for each approval status, and the
    status update with its conditional fields. */
module DriversManagement {
  import opened Common
  import opened Tables

  // ---------------------------------------------------------------------------
  // List, badge and counters
  // ---------------------------------------------------------------------------

  /** The WHERE clause: a search term must occur in the name, phone or email;
      a status other than `all` must equal the approval status. */
  predicate Matches(d: Driver, search: string, statusFilter: string) {
    && (search == "" || ContainsIgnoreCase(d.name, search) || ContainsIgnoreCase(d.phone, search)
        || (d.email.Some? && ContainsIgnoreCase(d.email.value, search)))
    && (statusFilter == "all" || d.approvedStatus == Some(statusFilter))
  }

  /** The list query, newest first. */
  function DriverQuery(drivers: seq<Driver>, search: string, statusFilter: string): seq<Driver> {
    OrderBy(Filter(drivers, (d: Driver) => Matches(d, search, statusFilter)), (d: Driver) => d.createdAt, Desc)
  }

  /** A driver is listed exactly when it matches the search and status filter. */
  lemma DriverQuerySelection(drivers: seq<Driver>, search: string, statusFilter: string, d: Driver)
    ensures d in DriverQuery(drivers, search, statusFilter) <==> d in drivers && Matches(d, search, statusFilter)
    ensures |DriverQuery(drivers, search, statusFilter)| <= |drivers|
  {
    var f := Filter(drivers, (d: Driver) => Matches(d, search, statusFilter));
    OrderByMembers(f, (d: Driver) => d.createdAt, Desc, d);
    if d in drivers && Matches(d, search, statusFilter) {
      var k :| 0 <= k < |drivers| && drivers[k] == d;
      assert drivers[k] in f;
    }
    if d in f {
      var k :| 0 <= k < |f| && f[k] == d;
    }
  }

  datatype Badge = Approved | Rejected | Suspended | Pending

  /** `getStatusBadge`: anything that is not approved, rejected or suspended,
      a missing status included, reads as Pending. */
  function StatusBadge(status: Option<string>): (b: Badge)
    ensures b == Approved <==> status == Some("approved")
    ensures b == Rejected <==> status == Some("rejected")
    ensures b == Suspended <==> status == Some("suspended")
    ensures b == Pending <==> status !in {Some("approved"), Some("rejected"), Some("suspended")}
  {
    match status
    case Some("approved") => Approved
    case Some("rejected") => Rejected
    case Some("suspended") => Suspended
    case _ => Pending
  }

  datatype Stats = Stats(total: nat, pending: nat, approved: nat, rejected: nat)

  function DriverStats(drivers: seq<Driver>): Stats {
    Stats(|drivers|,
          Count(drivers, (d: Driver) => d.approvedStatus == Some("pending")),
          Count(drivers, (d: Driver) => d.approvedStatus == Some("approved")),
          Count(drivers, (d: Driver) => d.approvedStatus == Some("rejected")))
  }

  /** The three counters are of disjoint sets of drivers, so each, and their
      sum, is at most the total; suspended drivers are in none of them. */
  lemma StatsBounded(drivers: seq<Driver>)
    ensures var s := DriverStats(drivers);
      s.pending + s.approved + s.rejected <= s.total
  {
    CountThreeExclusive(drivers, (d: Driver) => d.approvedStatus == Some("pending"),
                        (d: Driver) => d.approvedStatus == Some("approved"),
                        (d: Driver) => d.approvedStatus == Some("rejected"));
  }

  // ---------------------------------------------------------------------------
  // Actions and the status update
  // ---------------------------------------------------------------------------

  datatype Action = Approve | Reject | Suspend | Reactivate

  /** The status each button writes. */
  function Target(a: Action): string {
    match a
    case Approve => "approved"
    case Reject => "rejected"
    case Suspend => "suspended"
    case Reactivate => "approved"
  }

  /** The buttons of the details panel for a driver's approval status. */
  function OfferedActions(status: Option<string>): seq<Action> {
    if status == Some("pending") then [Approve, Reject]
    else if status == Some("approved") then [Suspend]
    else if status == Some("suspended") then [Reactivate]
    else []
  }

  /** The offered transitions are pending to approved or rejected, approved to
      suspended and suspended to approved; a rejected driver, or one with any
      other status, has none, and no action leads back to pending. */
  lemma OfferedTransitions(status: Option<string>, a: Action)
    ensures a in OfferedActions(status) <==>
      || (status == Some("pending") && Target(a) in {"approved", "rejected"} && a != Reactivate)
      || (status == Some("approved") && a == Suspend)
      || (status == Some("suspended") && a == Reactivate)
    ensures status !in {Some("pending"), Some("approved"), Some("suspended")} ==> OfferedActions(status) == []
    ensures Target(a) != "pending"
  {
  }

  /** The fields an update writes: the status and both times always, the notes
      when they are not blank, the reason only for a rejection with a reason
      that is not blank. */
  datatype DriverPatch = DriverPatch(approvedStatus: string, lastReviewedAt: Time, updatedAt: Time,
                                     adminNotes: Option<string>, rejectionReason: Option<string>)

  function PatchFor(newStatus: string, notes: string, reason: string, now: Time): DriverPatch {
    DriverPatch(newStatus, now, now,
                if IsBlank(notes) then None else Some(notes),
                if newStatus == "rejected" && !IsBlank(reason) then Some(reason) else None)
  }

  /** UPDATE drivers SET patch: a field the patch leaves out keeps its value. */
  function Apply(d: Driver, patch: DriverPatch): Driver {
    d.(approvedStatus := Some(patch.approvedStatus), lastReviewedAt := Some(patch.lastReviewedAt),
       updatedAt := Some(patch.updatedAt),
       adminNotes := if patch.adminNotes.Some? then patch.adminNotes else d.adminNotes,
       rejectionReason := if patch.rejectionReason.Some? then patch.rejectionReason else d.rejectionReason)
  }

  /** `handleStatusUpdate`'s write, on the driver with that phone number. */
  function UpdateStatus(db: Db, phone: string, newStatus: string, notes: string, reason: string, now: Time,
                        updateFails: bool): Db {
    if updateFails then db
    else db.(drivers := UpdateWhere(db.drivers, (d: Driver) => d.phone == phone,
                                     (d: Driver) => Apply(d, PatchFor(newStatus, notes, reason, now))))
  }

  /** The effect of pressing a button: the new database and whether the
      update went through. Reject with a blank reason is refused before any
      write. */
  function Press(db: Db, phone: string, a: Action, notes: string, reason: string, now: Time,
                 updateFails: bool): (Db, bool) {
    if a == Reject && IsBlank(reason) then (db, false)
    else (UpdateStatus(db, phone, Target(a), notes, reason, now, updateFails), !updateFails)
  }

  /** The page state: the selected driver (by phone) and the two text areas. */
  class DriversPage {
    var selectedDriver: Option<string>
    var adminNotes: string
    var rejectionReason: string

    constructor()
      ensures selectedDriver == None && adminNotes == "" && rejectionReason == ""
    {
      selectedDriver := None;
      adminNotes := "";
      rejectionReason := "";
    }

    /** `handleStatusUpdate`: builds the update field by field, writes it, and
        on success clears the selection and both text areas. */
    method HandleStatusUpdate(store: Store, driverId: string, newStatus: string, now: Time, updateFails: bool)
      modifies this, store
      ensures store.db == UpdateStatus(old(store.db), driverId, newStatus, old(adminNotes), old(rejectionReason),
                                       now, updateFails)
      ensures updateFails ==> selectedDriver == old(selectedDriver) && adminNotes == old(adminNotes)
                              && rejectionReason == old(rejectionReason)
      ensures !updateFails ==> selectedDriver == None && adminNotes == "" && rejectionReason == ""
    {
      var patch := DriverPatch(newStatus, now, now, None, None);
      if !IsBlank(adminNotes) {
        patch := patch.(adminNotes := Some(adminNotes));
      }
      if newStatus == "rejected" && !IsBlank(rejectionReason) {
        patch := patch.(rejectionReason := Some(rejectionReason));
      }
      if updateFails {
        return;
      }
      store.db := store.db.(drivers := UpdateWhere(store.db.drivers, (d: Driver) => d.phone == driverId,
                                                   (d: Driver) => Apply(d, patch)));
      selectedDriver := None;
      adminNotes := "";
      rejectionReason := "";
    }

    /** A button of the details panel, shown only while a driver is selected. */
    method Click(store: Store, a: Action, now: Time, updateFails: bool)
      requires selectedDriver.Some?
      modifies this, store
      ensures var (db', ok) := Press(old(store.db), old(selectedDriver.value), a, old(adminNotes),
                                     old(rejectionReason), now, updateFails);
        && store.db == db'
        && (ok ==> selectedDriver == None && adminNotes == "" && rejectionReason == "")
        && (!ok ==> selectedDriver == old(selectedDriver) && adminNotes == old(adminNotes)
                    && rejectionReason == old(rejectionReason))
    {
      if a == Reject && IsBlank(rejectionReason) {
        return;
      }
      HandleStatusUpdate(store, selectedDriver.value, Target(a), now, updateFails);
    }
  }

  // ---------------------------------------------------------------------------
  // Properties
  // ---------------------------------------------------------------------------

  /** An update always writes the status and both review times on that driver;
      it writes the notes only when they are not blank and the rejection reason
      only for a rejection with a reason that is not blank, keeping the old
      values otherwise. Drivers with another phone number are untouched. */
  lemma UpdateFields(db: Db, phone: string, newStatus: string, notes: string, reason: string, now: Time, i: int)
    requires 0 <= i < |db.drivers|
    ensures var d, d' := db.drivers[i], UpdateStatus(db, phone, newStatus, notes, reason, now, false).drivers[i];
      && (d.phone == phone ==>
            && d'.approvedStatus == Some(newStatus) && d'.lastReviewedAt == Some(now) && d'.updatedAt == Some(now)
            && d'.adminNotes == (if IsBlank(notes) then d.adminNotes else Some(notes))
            && d'.rejectionReason == (if newStatus == "rejected" && !IsBlank(reason) then Some(reason)
                                      else d.rejectionReason)
            && d'.name == d.name && d'.walletBalance == d.walletBalance && d'.isOnline == d.isOnline)
      && (d.phone != phone ==> d' == d)
    ensures UpdateStatus(db, phone, newStatus, notes, reason, now, true) == db
  {
  }

  /** Reject with a blank reason writes nothing; a rejection that goes through
      always stores its reason, since a blank one never reaches the update. */
  lemma RejectNeedsReason(db: Db, phone: string, notes: string, reason: string, now: Time, updateFails: bool, i: int)
    requires 0 <= i < |db.drivers| && db.drivers[i].phone == phone
    ensures IsBlank(reason) ==> Press(db, phone, Reject, notes, reason, now, updateFails) == (db, false)
    ensures var (db', ok) := Press(db, phone, Reject, notes, reason, now, updateFails);
      ok ==> db'.drivers[i].approvedStatus == Some("rejected") && db'.drivers[i].rejectionReason == Some(reason)
  {
  }

  /** Only a rejection writes the rejection reason: approving, suspending or
      reactivating keeps what was stored, even with text in the reason box. */
  lemma OtherActionsKeepReason(db: Db, phone: string, a: Action, notes: string, reason: string, now: Time, i: int)
    requires a != Reject && 0 <= i < |db.drivers|
    ensures Press(db, phone, a, notes, reason, now, false).0.drivers[i].rejectionReason == db.drivers[i].rejectionReason
  {
  }
}
