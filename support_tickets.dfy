/** The support-ticket page of the operations console (`SupportTickets`):
    search and filters, counts by status, the status label, and the respond and
    status-change handlers. */
module SupportTickets {
  import opened Common
  import opened Tables

  /** The WHERE clause: a non-empty search term must occur in the subject or the
      driver phone; a status or priority other than `all` must match exactly. */
  predicate Matches(t: Ticket, search: string, statusFilter: string, priorityFilter: string) {
    && (search == "" || ILike(Some(t.subject), search) || ILike(t.driverPhoneRef, search))
    && (statusFilter == "all" || t.status == Some(statusFilter))
    && (priorityFilter == "all" || t.priority == Some(priorityFilter))
  }

  /** The list query: matching tickets, newest first. */
  function TicketQuery(tickets: seq<Ticket>, search: string, statusFilter: string, priorityFilter: string): seq<Ticket> {
    OrderBy(Filter(tickets, (t: Ticket) => Matches(t, search, statusFilter, priorityFilter)), (t: Ticket) => t.createdAt, Desc)
  }

  /** A ticket is listed exactly when it matches; with no search and both filters
      on `all` every ticket is listed. */
  lemma TicketQuerySelection(tickets: seq<Ticket>, search: string, statusFilter: string, priorityFilter: string, t: Ticket)
    ensures t in TicketQuery(tickets, search, statusFilter, priorityFilter)
            <==> t in tickets && Matches(t, search, statusFilter, priorityFilter)
    ensures search == "" && statusFilter == "all" && priorityFilter == "all" ==>
            (t in TicketQuery(tickets, search, statusFilter, priorityFilter) <==> t in tickets)
  {
    var p := (t: Ticket) => Matches(t, search, statusFilter, priorityFilter);
    var f := Filter(tickets, p);
    OrderByMembers(f, (t: Ticket) => t.createdAt, Desc, t);
    if t in tickets && p(t) {
      var k :| 0 <= k < |tickets| && tickets[k] == t;
      assert tickets[k] in f;
    }
    if t in f {
      var k :| 0 <= k < |f| && f[k] == t;
    }
  }

  /** The search is case-insensitive: a subject matches a term whatever the case
      of either. */
  lemma SearchIgnoresCase(t: Ticket, search: string)
    requires search != ""
    ensures Matches(t, search, "all", "all") <==> Matches(t, ToLower(search), "all", "all")
  {
    assert ToLower(ToLower(search)) == ToLower(search);
    assert ToLower(search) != "";
  }

  datatype Stats = Stats(total: nat, open: nat, inProgress: nat, resolved: nat)

  function TicketStats(tickets: seq<Ticket>): Stats {
    Stats(|tickets|,
          Count(tickets, (t: Ticket) => t.status == Some("open")),
          Count(tickets, (t: Ticket) => t.status == Some("in_progress")),
          Count(tickets, (t: Ticket) => t.status == Some("resolved")))
  }

  /** The three status counts are of disjoint sets of tickets, so together they
      never exceed the total. */
  lemma StatsBounded(tickets: seq<Ticket>)
    ensures var s := TicketStats(tickets); s.open + s.inProgress + s.resolved <= s.total
  {
    CountThreeExclusive(tickets, (t: Ticket) => t.status == Some("open"),
                        (t: Ticket) => t.status == Some("in_progress"), (t: Ticket) => t.status == Some("resolved"));
  }

  /** `status.replace('_', ' ')` as shown on a ticket's badge. */
  function StatusLabel(status: string): string {
    ReplaceFirst(status, '_', ' ')
  }

  /** The label turns `in_progress` into `in progress`, but only the first
      underscore is ever replaced. */
  lemma StatusLabelFirstUnderscore(status: string)
    ensures StatusLabel("in_progress") == "in progress"
    ensures '_' !in status ==> StatusLabel(status) == status
    ensures '_' in status ==> exists k :: 0 <= k < |status| && status[k] == '_' && '_' !in status[..k]
                                       && StatusLabel(status) == status[..k] + " " + status[k + 1..]
  {
    ReplaceFirstOnlyFirst(status, '_', ' ');
    assert "in_progress"[1..] == "n_progress" && "n_progress"[1..] == "_progress";
    assert ReplaceFirst("_progress", '_', ' ') == " progress";
  }

  // ---------------------------------------------------------------------------
  // Row writes
  // ---------------------------------------------------------------------------

  /** After a response the ticket is in progress and its first-response time
      is (over)written. */
  function Responded(tickets: seq<Ticket>, ticketId: Id, now: Time): seq<Ticket> {
    UpdateWhere(tickets, (t: Ticket) => t.id == ticketId,
                (t: Ticket) => t.(status := Some("in_progress"), updatedAt := Some(now), firstResponseAt := Some(now)))
  }

  /** `handleUpdateStatus`'s update: `resolved_at` is part of it only for `resolved`. */
  function WithStatus(tickets: seq<Ticket>, ticketId: Id, newStatus: string, now: Time): seq<Ticket> {
    UpdateWhere(tickets, (t: Ticket) => t.id == ticketId,
                (t: Ticket) => if newStatus == "resolved"
                               then t.(status := Some(newStatus), updatedAt := Some(now), resolvedAt := Some(now))
                               else t.(status := Some(newStatus), updatedAt := Some(now)))
  }

  /** `handleSendResponse`: the new database, and whether the text is cleared. */
  function Respond(db: Db, ticketId: Id, text: string, now: Time, insertFails: bool, updateFails: bool): (Db, bool) {
    if IsBlank(text) || insertFails then (db, false)
    else
      var withResponse := db.(responses := db.responses + [TicketResponse(db.nextId, Some(ticketId), Some("agent"),
                                                                           None, text, Some(false))],
                              nextId := db.nextId + 1);
      if updateFails then (withResponse, false)
      else (withResponse.(tickets := Responded(db.tickets, ticketId, now)), true)
  }

  /** `handleUpdateStatus`: the new database. */
  function UpdateStatus(db: Db, ticketId: Id, newStatus: string, now: Time, updateFails: bool): Db {
    if updateFails then db else db.(tickets := WithStatus(db.tickets, ticketId, newStatus, now))
  }

  class SupportTicketsPage {
    var responseText: string
    var selectedTicket: Option<Id>

    constructor()
      ensures responseText == "" && selectedTicket == None
    {
      responseText := "";
      selectedTicket := None;
    }

    method HandleSendResponse(store: Store, ticketId: Id, now: Time, insertFails: bool, updateFails: bool)
      modifies this, store
      ensures var (db', cleared) := Respond(old(store.db), ticketId, old(responseText), now, insertFails, updateFails);
        && store.db == db' && responseText == (if cleared then "" else old(responseText))
        && selectedTicket == old(selectedTicket)
    {
      if IsBlank(responseText) {
        return;
      }
      if insertFails {
        return;
      }
      store.db := store.db.(responses := store.db.responses + [TicketResponse(store.db.nextId, Some(ticketId),
                                                                              Some("agent"), None, responseText,
                                                                              Some(false))],
                            nextId := store.db.nextId + 1);
      if updateFails {
        return;
      }
      store.db := store.db.(tickets := Responded(store.db.tickets, ticketId, now));
      responseText := "";
    }

    /** Called with `resolved` or `closed` by the two buttons of the panel. */
    method HandleUpdateStatus(store: Store, ticketId: Id, newStatus: string, now: Time, updateFails: bool)
      modifies store
      ensures store.db == UpdateStatus(old(store.db), ticketId, newStatus, now, updateFails)
    {
      if updateFails {
        return;
      }
      store.db := store.db.(tickets := WithStatus(store.db.tickets, ticketId, newStatus, now));
    }
  }

  // ---------------------------------------------------------------------------
  // Properties
  // ---------------------------------------------------------------------------

  /** A blank response, or a failed insert, writes nothing. A response is stored
      as a non-internal agent message with no sender; if the ticket update then
      fails the response stays but the ticket is unchanged. On success the ticket
      is in progress and its first-response time is overwritten, even if it had
      one. */
  lemma RespondEffects(db: Db, ticketId: Id, text: string, now: Time, insertFails: bool, updateFails: bool, i: int)
    requires 0 <= i < |db.tickets|
    ensures IsBlank(text) || insertFails ==> Respond(db, ticketId, text, now, insertFails, updateFails) == (db, false)
    ensures !IsBlank(text) && !insertFails ==>
      var (db', cleared) := Respond(db, ticketId, text, now, insertFails, updateFails);
      && db'.responses == db.responses + [TicketResponse(db.nextId, Some(ticketId), Some("agent"), None, text, Some(false))]
      && cleared == !updateFails
      && (updateFails ==> db'.tickets == db.tickets)
      && (!updateFails && db.tickets[i].id == ticketId ==>
            db'.tickets[i].status == Some("in_progress") && db'.tickets[i].firstResponseAt == Some(now))
      && (db.tickets[i].id != ticketId ==> db'.tickets[i] == db.tickets[i])
  {
  }

  /** A status change writes `resolved_at` only when the new status is
      `resolved`: closing a ticket keeps whatever resolution time it had. Other
      tickets are untouched. */
  lemma ResolvedAtOnlyOnResolve(db: Db, ticketId: Id, newStatus: string, now: Time, i: int)
    requires 0 <= i < |db.tickets|
    ensures var t, t' := db.tickets[i], UpdateStatus(db, ticketId, newStatus, now, false).tickets[i];
      && (t.id == ticketId ==>
            && t'.status == Some(newStatus) && t'.updatedAt == Some(now)
            && t'.resolvedAt == (if newStatus == "resolved" then Some(now) else t.resolvedAt))
      && (t.id != ticketId ==> t' == t)
    ensures UpdateStatus(db, ticketId, newStatus, now, true) == db
  {
  }
}
