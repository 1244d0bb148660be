/** The notifications page of the admin portal (`NotificationsManagement`): the
    list and its counters, creating a notification (to one driver or to all)
    and marking one as read. */
module Notifications {
  import opened Common
  import opened Tables

  /** The WHERE clause: a search term must occur in the title, message or
      driver reference; a type other than `all` must match. */
  predicate Matches(n: Notification, search: string, typeFilter: string) {
    && (search == "" || ILike(Some(n.title), search) || ILike(Some(n.message), search) || ILike(n.driverPhoneRef, search))
    && (typeFilter == "all" || n.kind == Some(typeFilter))
  }

  /** The list query: matching notifications, newest first, at most 100. */
  function NotificationQuery(ns: seq<Notification>, search: string, typeFilter: string): seq<Notification> {
    Take(OrderBy(Filter(ns, (n: Notification) => Matches(n, search, typeFilter)), (n: Notification) => n.createdAt, Desc),
         100)
  }

  /** The list holds at most 100 notifications, newest first, each of them
      stored and matching; with fewer than 100 matches it holds them all. */
  lemma NotificationQueryShape(ns: seq<Notification>, search: string, typeFilter: string, n: Notification)
    ensures var list := NotificationQuery(ns, search, typeFilter);
      && |list| <= 100
      && SortedBy(list, (n: Notification) => n.createdAt, Desc)
      && (n in list ==> n in ns && Matches(n, search, typeFilter))
    ensures |Filter(ns, (n: Notification) => Matches(n, search, typeFilter))| <= 100 ==>
      (n in NotificationQuery(ns, search, typeFilter) <==> n in ns && Matches(n, search, typeFilter))
  {
    TopRowsSelection(ns, (n: Notification) => Matches(n, search, typeFilter), (n: Notification) => n.createdAt, Desc, 100, n);
  }

  datatype TypeBadge = Alert | Info | Success | General

  /** `getTypeBadge`: any other type reads General. */
  function Badge(kind: Option<string>): (b: TypeBadge)
    ensures b == General <==> kind !in {Some("alert"), Some("info"), Some("success")}
  {
    match kind
    case Some("alert") => Alert
    case Some("info") => Info
    case Some("success") => Success
    case _ => General
  }

  datatype Stats = Stats(total: nat, unread: nat, alerts: nat, broadcast: nat)

  predicate IsUnread(n: Notification) {
    n.isRead != Some(true)
  }

  predicate IsAlert(n: Notification) {
    n.kind == Some("alert")
  }

  /** A broadcast has no target driver. */
  predicate IsBroadcast(n: Notification) {
    !Truthy(n.driverPhoneRef)
  }

  function NotificationStats(ns: seq<Notification>): (s: Stats)
    ensures s.unread <= s.total && s.alerts <= s.total && s.broadcast <= s.total
  {
    Stats(|ns|, Count(ns, IsUnread), Count(ns, IsAlert), Count(ns, IsBroadcast))
  }

  /** The row `handleCreateNotification` inserts: unread, of the chosen type,
      and for all drivers when no driver was chosen. */
  function NewNotification(id: Id, title: string, message: string, kind: string, driverPhoneRef: string,
                           now: Time): Notification {
    Notification(id, title, message, Some(kind), if driverPhoneRef == "" then None else Some(driverPhoneRef),
                 Some(false), Some(now))
  }

  /** `handleCreateNotification`'s effect and whether the form was reset. */
  function Create(db: Db, title: string, message: string, kind: string, driverPhoneRef: string, now: Time,
                  insertFails: bool): (Db, bool) {
    if IsBlank(title) || IsBlank(message) || insertFails then (db, false)
    else (db.(notifications := db.notifications + [NewNotification(db.nextId, title, message, kind, driverPhoneRef, now)],
              nextId := db.nextId + 1), true)
  }

  /** `handleMarkAsRead`'s write. */
  function MarkAsRead(db: Db, id: Id, updateFails: bool): Db {
    if updateFails then db
    else db.(notifications := UpdateWhere(db.notifications, (n: Notification) => n.id == id,
                                          (n: Notification) => n.(isRead := Some(true))))
  }

  /** The create form. */
  class CreateForm {
    var title: string
    var message: string
    var kind: string
    var driverPhoneRef: string
    var showCreateForm: bool

    constructor()
      ensures title == "" && message == "" && kind == "general" && driverPhoneRef == "" && !showCreateForm
    {
      title, message, kind, driverPhoneRef := "", "", "general", "";
      showCreateForm := false;
    }

    /** The Create button is disabled until both fields have text. */
    predicate SubmitEnabled()
      reads this
    {
      !IsBlank(title) && !IsBlank(message)
    }

    method HandleCreateNotification(store: Store, now: Time, insertFails: bool)
      modifies this, store
      ensures var (db', reset) := Create(old(store.db), old(title), old(message), old(kind), old(driverPhoneRef), now,
                                         insertFails);
        && store.db == db'
        && (reset ==> title == "" && message == "" && kind == "general" && driverPhoneRef == "" && !showCreateForm)
        && (!reset ==> title == old(title) && message == old(message) && kind == old(kind)
                       && driverPhoneRef == old(driverPhoneRef) && showCreateForm == old(showCreateForm))
    {
      if IsBlank(title) || IsBlank(message) {
        return;
      }
      var row := NewNotification(store.db.nextId, title, message, kind, driverPhoneRef, now);
      if insertFails {
        return;
      }
      store.db := store.db.(notifications := store.db.notifications + [row], nextId := store.db.nextId + 1);
      title, message, kind, driverPhoneRef := "", "", "general", "";
      showCreateForm := false;
    }
  }

  method HandleMarkAsRead(store: Store, id: Id, updateFails: bool)
    modifies store
    ensures store.db == MarkAsRead(old(store.db), id, updateFails)
  {
    if updateFails {
      return;
    }
    store.db := store.db.(notifications := UpdateWhere(store.db.notifications, (n: Notification) => n.id == id,
                                                       (n: Notification) => n.(isRead := Some(true))));
  }

  /** A blank title or message inserts nothing. A created notification is
      unread, has the chosen type, and targets no driver when none was chosen;
      it adds one to the total and to the unread count, one to the broadcasts
      exactly when no driver was chosen, and one to the alerts exactly for the
      alert type. */
  lemma CreateEffects(db: Db, title: string, message: string, kind: string, driverPhoneRef: string, now: Time)
    ensures IsBlank(title) || IsBlank(message) ==> Create(db, title, message, kind, driverPhoneRef, now, false) == (db, false)
    ensures !IsBlank(title) && !IsBlank(message) ==>
      var (db', ok) := Create(db, title, message, kind, driverPhoneRef, now, false);
      var s, s' := NotificationStats(db.notifications), NotificationStats(db'.notifications);
      && ok
      && db'.notifications[|db.notifications|].isRead == Some(false)
      && (driverPhoneRef == "" <==> db'.notifications[|db.notifications|].driverPhoneRef.None?)
      && s'.total == s.total + 1 && s'.unread == s.unread + 1
      && s'.broadcast == s.broadcast + (if driverPhoneRef == "" then 1 else 0)
      && s'.alerts == s.alerts + (if kind == "alert" then 1 else 0)
  {
    if !IsBlank(title) && !IsBlank(message) {
      var row := NewNotification(db.nextId, title, message, kind, driverPhoneRef, now);
      FilterConcat(db.notifications, [row], IsUnread);
      FilterConcat(db.notifications, [row], IsBroadcast);
      FilterConcat(db.notifications, [row], IsAlert);
    }
  }

  /** Marking as read sets the flag on that notification only, and doing it
      twice is the same as doing it once. */
  lemma MarkAsReadIdempotent(db: Db, id: Id, i: int)
    requires 0 <= i < |db.notifications|
    ensures var n, n' := db.notifications[i], MarkAsRead(db, id, false).notifications[i];
      (n.id == id ==> n' == n.(isRead := Some(true))) && (n.id != id ==> n' == n)
    ensures MarkAsRead(MarkAsRead(db, id, false), id, false) == MarkAsRead(db, id, false)
  {
  }
}
