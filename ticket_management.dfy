/** The call-center ticket screen (`TicketManagement`): a role- and
    filter-dependent ticket list, and the assign, respond and resolve handlers
    of the ticket panel. */
module TicketManagement {
  import opened Common
  import opened Tables
  import EscalationsQuery

  /** The choices of the filter drop-down; the screen opens on `Assigned`. */
  datatype TicketFilter = Assigned | Unassigned | OpenTickets | Escalated | AllTickets

  /** The WHERE clause of the list query. Agents see only their own tickets,
      whatever the filter; other roles filter on assignment or escalation. The
      open filter restricts the status for every role. */
  predicate InView(t: Ticket, role: CallCenterRole, userId: Id, filter: TicketFilter) {
    && (if role == Agent then t.assignedAgentId == Some(userId)
        else match filter
             case Assigned => t.assignedAgentId.Some?
             case Unassigned => t.assignedAgentId.None?
             case Escalated => t.escalatedTo.Some?
             case _ => true)
    && (filter == OpenTickets ==> t.status in {Some("open"), Some("in_progress")})
  }

  /** The list query: the tickets in view, newest first. */
  function TicketList(tickets: seq<Ticket>, role: CallCenterRole, userId: Id, filter: TicketFilter): seq<Ticket> {
    OrderBy(Filter(tickets, (t: Ticket) => InView(t, role, userId, filter)), (t: Ticket) => t.createdAt, Desc)
  }

  /** A ticket is listed exactly when it is in view; the list is newest first. */
  lemma TicketListSelection(tickets: seq<Ticket>, role: CallCenterRole, userId: Id, filter: TicketFilter, t: Ticket)
    ensures t in TicketList(tickets, role, userId, filter) <==> t in tickets && InView(t, role, userId, filter)
    ensures SortedBy(TicketList(tickets, role, userId, filter), (t: Ticket) => t.createdAt, Desc)
  {
    var p := (t: Ticket) => InView(t, role, userId, filter);
    var f := Filter(tickets, p);
    OrderByMembers(f, (t: Ticket) => t.createdAt, Desc, t);
    if t in tickets && p(t) {
      var k :| 0 <= k < |tickets| && tickets[k] == t;
      assert tickets[k] in f;
    }
    if t in f {
      var k :| 0 <= k < |f| && f[k] == t;
    }
  }

  /** What each filter means: an agent only ever sees tickets assigned to them;
      for other roles `Assigned`, `Unassigned` and `Escalated` test the
      assignment or the escalation, and `OpenTickets` the status only. */
  lemma FilterMeaning(t: Ticket, role: CallCenterRole, userId: Id, filter: TicketFilter)
    ensures role == Agent ==>
      (InView(t, role, userId, filter) <==>
         t.assignedAgentId == Some(userId) && (filter == OpenTickets ==> t.status in {Some("open"), Some("in_progress")}))
    ensures role != Agent ==>
      && (filter == Assigned ==> (InView(t, role, userId, filter) <==> t.assignedAgentId.Some?))
      && (filter == Unassigned ==> (InView(t, role, userId, filter) <==> t.assignedAgentId.None?))
      && (filter == Escalated ==> (InView(t, role, userId, filter) <==> t.escalatedTo.Some?))
      && (filter == OpenTickets ==> (InView(t, role, userId, filter) <==> t.status in {Some("open"), Some("in_progress")}))
      && (filter == AllTickets ==> InView(t, role, userId, filter))
  {
  }

  /** A listed ticket as shown: labels for creation and last update, and
      `normal`/`general` in place of a missing priority or category. */
  datatype TicketItem = TicketItem(row: Ticket, timeAgo: string, lastUpdate: string, priority: string, category: string)

  function Display(t: Ticket, now: Time): (item: TicketItem)
    ensures item.row == t
    ensures item.priority == if Truthy(t.priority) then t.priority.value else "normal"
    ensures item.category == if Truthy(t.category) then t.category.value else "general"
    ensures item.priority != "" && item.category != ""
  {
    TicketItem(t, EscalationsQuery.TimeAgo(now - t.createdAt.GetOr(0)),
               EscalationsQuery.TimeAgo(now - t.updatedAt.GetOr(0)),
               OrElse(t.priority, "normal"), OrElse(t.category, "general"))
  }

  // ---------------------------------------------------------------------------
  // Row writes
  // ---------------------------------------------------------------------------

  /** The assign update: the caller becomes the assignee, the ticket moves to
      `in_progress`, and the first-response time is (re)written. */
  function AssignTo(tickets: seq<Ticket>, ticketId: Id, userId: Id, now: Time): seq<Ticket> {
    UpdateWhere(tickets, (t: Ticket) => t.id == ticketId,
                (t: Ticket) => t.(assignedAgentId := Some(userId), status := Some("in_progress"),
                                 updatedAt := Some(now), firstResponseAt := Some(now)))
  }

  /** The status update after a response. */
  function MarkInProgress(tickets: seq<Ticket>, ticketId: Id, now: Time): seq<Ticket> {
    UpdateWhere(tickets, (t: Ticket) => t.id == ticketId,
                (t: Ticket) => t.(status := Some("in_progress"), updatedAt := Some(now)))
  }

  /** The resolve update. */
  function MarkResolved(tickets: seq<Ticket>, ticketId: Id, now: Time): seq<Ticket> {
    UpdateWhere(tickets, (t: Ticket) => t.id == ticketId,
                (t: Ticket) => t.(status := Some("resolved"), resolvedAt := Some(now), updatedAt := Some(now)))
  }

  function TicketDetails(ticketId: Id, now: Time): map<string, Detail> {
    map["ticket_id" := Ref(ticketId), "timestamp" := At(now)]
  }

  /** `handleAssignTicket`: the new database. */
  function Assign(db: Db, userId: Id, ticketId: Id, now: Time, updateFails: bool): Db {
    if updateFails then db
    else db.(tickets := AssignTo(db.tickets, ticketId, userId, now))
           .AddLog(Some(userId), "ticket_assigned", TicketDetails(ticketId, now))
  }

  /** `handleSendResponse`: the new database, and whether the typed text is
      cleared (only after both writes succeeded). */
  function Respond(db: Db, userId: Id, ticketId: Id, text: string, now: Time,
                   insertFails: bool, updateFails: bool): (Db, bool)
  {
    if IsBlank(text) || insertFails then (db, false)
    else
      var withResponse := db.(responses := db.responses + [TicketResponse(db.nextId, Some(ticketId), Some("agent"),
                                                                           Some(userId), text, Some(false))],
                              nextId := db.nextId + 1);
      if updateFails then (withResponse, false)
      else (withResponse.(tickets := MarkInProgress(db.tickets, ticketId, now)), true)
  }

  /** `handleResolveTicket`: the new database. */
  function Resolve(db: Db, userId: Id, ticketId: Id, now: Time, updateFails: bool): Db {
    if updateFails then db
    else db.(tickets := MarkResolved(db.tickets, ticketId, now))
           .AddLog(Some(userId), "ticket_resolved", TicketDetails(ticketId, now))
  }

  // ---------------------------------------------------------------------------
  // The panel
  // ---------------------------------------------------------------------------

  /** Assign to Me is offered on an unassigned ticket to supervisors and admins. */
  predicate ShowAssign(t: Ticket, role: CallCenterRole) {
    t.assignedAgentId.None? && role != Agent
  }

  /** The response box and Resolve are offered to the ticket's assignee only. */
  predicate ShowResponsePanel(t: Ticket, userId: Id) {
    t.assignedAgentId == Some(userId)
  }

  class TicketPanel {
    const userId: Id
    const role: CallCenterRole
    var selectedTicket: Option<Id>
    var responseText: string
    var filter: TicketFilter

    constructor(userId: Id, role: CallCenterRole)
      ensures this.userId == userId && this.role == role
      ensures selectedTicket == None && responseText == "" && filter == Assigned
    {
      this.userId := userId;
      this.role := role;
      selectedTicket := None;
      responseText := "";
      filter := Assigned;
    }

    method AssignTicket(store: Store, ticketId: Id, now: Time, updateFails: bool)
      modifies store
      ensures store.db == Assign(old(store.db), userId, ticketId, now, updateFails)
    {
      if updateFails {
        return;
      }
      store.db := store.db.(tickets := AssignTo(store.db.tickets, ticketId, userId, now));
      store.Log(Some(userId), "ticket_assigned", TicketDetails(ticketId, now));
    }

    method SendResponse(store: Store, ticketId: Id, now: Time, insertFails: bool, updateFails: bool)
      modifies this, store
      ensures var (db', cleared) := Respond(old(store.db), userId, ticketId, old(responseText), now,
                                            insertFails, updateFails);
        && store.db == db'
        && responseText == (if cleared then "" else old(responseText))
        && selectedTicket == old(selectedTicket) && filter == old(filter)
    {
      if IsBlank(responseText) {
        return;
      }
      if insertFails {
        return;
      }
      store.db := store.db.(responses := store.db.responses + [TicketResponse(store.db.nextId, Some(ticketId),
                                                                              Some("agent"), Some(userId),
                                                                              responseText, Some(false))],
                            nextId := store.db.nextId + 1);
      if updateFails {
        return;
      }
      store.db := store.db.(tickets := MarkInProgress(store.db.tickets, ticketId, now));
      responseText := "";
    }

    method ResolveTicket(store: Store, ticketId: Id, now: Time, updateFails: bool)
      modifies this, store
      ensures store.db == Resolve(old(store.db), userId, ticketId, now, updateFails)
      ensures selectedTicket == (if updateFails then old(selectedTicket) else None)
      ensures responseText == old(responseText) && filter == old(filter)
    {
      if updateFails {
        return;
      }
      store.db := store.db.(tickets := MarkResolved(store.db.tickets, ticketId, now));
      store.Log(Some(userId), "ticket_resolved", TicketDetails(ticketId, now));
      selectedTicket := None;
    }
  }

  // ---------------------------------------------------------------------------
  // Properties
  // ---------------------------------------------------------------------------

  /** Assigning takes the ticket over whatever its current assignee, moves it to
      `in_progress` and overwrites its first-response time; no other ticket
      changes, and the activity is logged only when the update succeeded. After
      it the assigner is offered the response panel and no longer Assign. */
  lemma AssignTakesOver(db: Db, userId: Id, ticketId: Id, now: Time, role: CallCenterRole, i: int)
    requires 0 <= i < |db.tickets|
    ensures var t, t' := db.tickets[i], Assign(db, userId, ticketId, now, false).tickets[i];
      && (t.id == ticketId ==>
            t' == t.(assignedAgentId := Some(userId), status := Some("in_progress"),
                     updatedAt := Some(now), firstResponseAt := Some(now))
            && ShowResponsePanel(t', userId) && !ShowAssign(t', role))
      && (t.id != ticketId ==> t' == t)
    ensures |Assign(db, userId, ticketId, now, false).logs| == |db.logs| + 1
    ensures Assign(db, userId, ticketId, now, true) == db
  {
  }

  /** A blank response writes nothing. Otherwise one non-internal agent
      response from the user, with the text as typed, is appended; if that
      insert fails nothing is written. */
  lemma RespondAppends(db: Db, userId: Id, ticketId: Id, text: string, now: Time, insertFails: bool, updateFails: bool)
    ensures IsBlank(text) || insertFails ==> Respond(db, userId, ticketId, text, now, insertFails, updateFails) == (db, false)
    ensures !IsBlank(text) && !insertFails ==>
      var db' := Respond(db, userId, ticketId, text, now, insertFails, updateFails).0;
      && db'.responses == db.responses + [db'.responses[|db.responses|]]
      && var r := db'.responses[|db.responses|];
      && r.ticketId == Some(ticketId) && r.senderType == Some("agent") && r.senderId == Some(userId)
      && r.message == text && r.isInternal == Some(false)
  {
  }

  /** A successful response puts the ticket back to `in_progress` whatever its
      status was, a resolved or closed ticket included; the other tickets are
      untouched. */
  lemma RespondReopens(db: Db, userId: Id, ticketId: Id, text: string, now: Time, i: int)
    requires !IsBlank(text)
    requires 0 <= i < |db.tickets|
    ensures var (db', cleared) := Respond(db, userId, ticketId, text, now, false, false);
      && cleared
      && (db.tickets[i].id == ticketId ==> db'.tickets[i].status == Some("in_progress"))
      && (db.tickets[i].id != ticketId ==> db'.tickets[i] == db.tickets[i])
  {
  }

  /** Resolving marks the ticket `resolved` with its resolution time and logs
      the activity; a failed update writes nothing, log included. */
  lemma ResolveMarks(db: Db, userId: Id, ticketId: Id, now: Time, i: int)
    requires 0 <= i < |db.tickets|
    ensures var t, t' := db.tickets[i], Resolve(db, userId, ticketId, now, false).tickets[i];
      && (t.id == ticketId ==> t'.status == Some("resolved") && t'.resolvedAt == Some(now)
                               && t'.assignedAgentId == t.assignedAgentId)
      && (t.id != ticketId ==> t' == t)
    ensures var db' := Resolve(db, userId, ticketId, now, false);
      db'.logs[..|db.logs|] == db.logs && db'.logs[|db.logs|].activityType == Some("ticket_resolved")
    ensures Resolve(db, userId, ticketId, now, true) == db
  {
    var db' := Resolve(db, userId, ticketId, now, false);
    assert db'.logs == db.logs + [db'.logs[|db.logs|]];
  }

  /** After a supervisor assigns a ticket to themselves it is listed under
      `Assigned` and no longer under `Unassigned`. */
  lemma AssignMovesBetweenFilters(db: Db, userId: Id, role: CallCenterRole, i: int, now: Time)
    requires role != Agent
    requires 0 <= i < |db.tickets|
    ensures var t' := Assign(db, userId, db.tickets[i].id, now, false).tickets[i];
      && t' in TicketList(Assign(db, userId, db.tickets[i].id, now, false).tickets, role, userId, Assigned)
      && t' !in TicketList(Assign(db, userId, db.tickets[i].id, now, false).tickets, role, userId, Unassigned)
  {
    var ts := Assign(db, userId, db.tickets[i].id, now, false).tickets;
    TicketListSelection(ts, role, userId, Assigned, ts[i]);
    TicketListSelection(ts, role, userId, Unassigned, ts[i]);
  }
}
