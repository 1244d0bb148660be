/** The two lists the emergency screen polls (`useEscalations`,
    `useUrgentTickets`) and the "time ago" label shown on each escalation. */
module EscalationsQuery {
  import opened Common
  import opened Tables
  import EscalationActions

  /** `calculateTimeAgo`: whole minutes elapsed, shown in minutes below an hour,
      in hours below a day and in days beyond. `elapsedMs` is now minus the
      creation time; `Math.floor` of the minutes is Dafny's `/`. */
  function TimeAgo(elapsedMs: int): string {
    var minutes := elapsedMs / 60000;
    if minutes < 60 then IntToString(minutes) + "m ago"
    else if minutes < 1440 then NatToString(minutes / 60) + "h ago"
    else NatToString(minutes / 1440) + "d ago"
  }

  /** The label names the largest whole unit that fits: 0-59 minutes, 1-23 hours,
      or at least one day, and the number shown is the elapsed time rounded down
      to that unit; a negative elapsed time (a clock skew) shows negative minutes. */
  lemma TimeAgoUnits(elapsedMs: int)
    ensures var m := elapsedMs / 60000;
      && (m < 0 ==> TimeAgo(elapsedMs) == "-" + NatToString(-m) + "m ago")
      && (0 <= m < 60 ==> TimeAgo(elapsedMs) == NatToString(m) + "m ago")
      && (60 <= m < 1440 ==>
            var h := m / 60; TimeAgo(elapsedMs) == NatToString(h) + "h ago" && 1 <= h < 24 && h * 60 <= m < (h + 1) * 60)
      && (1440 <= m ==>
            var d := m / 1440; TimeAgo(elapsedMs) == NatToString(d) + "d ago" && 1 <= d && d * 1440 <= m < (d + 1) * 1440)
  {
  }

  /** A creation time as the browser reads it: `new Date(null)` is the epoch. */
  function CreatedMs(e: Escalation): Time {
    e.createdAt.GetOr(0)
  }

  /** An escalation as listed: the row with `timeAgo` added. */
  datatype EscalationItem = EscalationItem(row: Escalation, timeAgo: string)

  /** `useEscalations`: every escalation, newest first, each with its label. */
  function EscalationList(es: seq<Escalation>, now: Time): seq<EscalationItem> {
    var ordered := OrderBy(es, (e: Escalation) => e.createdAt, Desc);
    seq(|ordered|, i requires 0 <= i < |ordered| => EscalationItem(ordered[i], TimeAgo(now - CreatedMs(ordered[i]))))
  }

  /** The list holds every escalation exactly once, newest first (undated rows
      first), and the mapping keeps each row as it is and only adds its label. */
  lemma EscalationListShape(es: seq<Escalation>, now: Time)
    ensures var items := EscalationList(es, now);
      && |items| == |es|
      && multiset(Rows(items)) == multiset(es)
      && SortedBy(Rows(items), (e: Escalation) => e.createdAt, Desc)
      && (forall i :: 0 <= i < |items| ==> items[i].timeAgo == TimeAgo(now - CreatedMs(items[i].row)))
  {
    EscalationListRows(es, now);
  }

  /** The rows of a list of items. */
  function Rows(items: seq<EscalationItem>): (rows: seq<Escalation>)
    ensures |rows| == |items|
  {
    seq(|items|, i requires 0 <= i < |items| => items[i].row)
  }

  /** The rows listed are the escalations in newest-first order. */
  lemma EscalationListRows(es: seq<Escalation>, now: Time)
    ensures Rows(EscalationList(es, now)) == OrderBy(es, (e: Escalation) => e.createdAt, Desc)
  {
    var items := EscalationList(es, now);
    var ordered := OrderBy(es, (e: Escalation) => e.createdAt, Desc);
    assert forall i :: 0 <= i < |items| ==> Rows(items)[i] == ordered[i];
  }

  /** The urgent-ticket query: priority urgent or high, still open or in
      progress, and not yet taken by anybody. */
  predicate IsUrgentTicket(t: Ticket) {
    && t.priority in {Some("urgent"), Some("high")}
    && t.status in {Some("open"), Some("in_progress")}
    && t.escalatedTo.None?
  }

  /** `useUrgentTickets`: the urgent tickets, oldest first. */
  function UrgentTickets(tickets: seq<Ticket>): seq<Ticket> {
    OrderBy(Filter(tickets, IsUrgentTicket), (t: Ticket) => t.createdAt, Asc)
  }

  /** A ticket is listed exactly when it satisfies all three conditions, and the
      list is ordered oldest first with undated tickets last. */
  lemma UrgentTicketsSelection(tickets: seq<Ticket>, t: Ticket)
    ensures t in UrgentTickets(tickets) <==> t in tickets && IsUrgentTicket(t)
    ensures SortedBy(UrgentTickets(tickets), (t: Ticket) => t.createdAt, Asc)
  {
    var f := Filter(tickets, IsUrgentTicket);
    OrderByMembers(f, (t: Ticket) => t.createdAt, Asc, t);
    if t in tickets && IsUrgentTicket(t) {
      var k :| 0 <= k < |tickets| && tickets[k] == t;
      assert tickets[k] in f;
    }
    if t in f {
      var k :| 0 <= k < |f| && f[k] == t;
    }
  }

  /** Escalating a ticket that is open or in progress and not yet taken leaves
      it in the urgent list: creation raises the priority to `urgent` but never
      sets `escalated_to`, so the same ticket can be escalated again. */
  lemma EscalatedTicketStaysUrgent(db: Db, userId: Id, reason: string, code: string, now: Time, i: int)
    requires !IsBlank(reason)
    requires 0 <= i < |db.tickets|
    requires db.tickets[i].status in {Some("open"), Some("in_progress")} && db.tickets[i].escalatedTo.None?
    ensures var db' := EscalationActions.Create(db, userId, db.tickets[i].id, reason, code, now, false, false).0;
      db'.tickets[i] in UrgentTickets(db'.tickets)
  {
    var db' := EscalationActions.Create(db, userId, db.tickets[i].id, reason, code, now, false, false).0;
    EscalationActions.CreateTouchesOnlyTicket(db, userId, db.tickets[i].id, reason, code, now, false, i);
    UrgentTicketsSelection(db'.tickets, db'.tickets[i]);
  }
}
