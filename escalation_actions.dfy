/** The emergency-escalation workflow (`useEscalationActions`): an agent or
    supervisor raises an escalation on a support ticket, which generates a
    6-digit one-time code, inserts a `pending` escalation, marks the ticket
    `urgent` and logs the action; the emergency team acknowledges it by entering
    the code; anyone may then resolve it. */
module EscalationActions {
  import opened Common
  import opened Tables

  // ---------------------------------------------------------------------------
  // The one-time code
  // ---------------------------------------------------------------------------

  /** `Math.floor(100000 + draw * 900000)` for a draw of `Math.random()`. */
  function OtpNumber(draw: real): (n: int)
    requires 0.0 <= draw < 1.0
    ensures 100000 <= n <= 999999
  {
    (100000.0 + draw * 900000.0).Floor
  }

  /** The generated code as text (`.toString()`). */
  function OtpCode(draw: real): string
    requires 0.0 <= draw < 1.0
  {
    NatToString(OtpNumber(draw))
  }

  /** Every generated code is six decimal digits with a non-zero first digit. */
  lemma OtpCodeShape(draw: real)
    requires 0.0 <= draw < 1.0
    ensures |OtpCode(draw)| == 6
    ensures forall i :: 0 <= i < 6 ==> IsDigit(OtpCode(draw)[i])
    ensures OtpCode(draw)[0] != '0'
  {
    assert Pow10(5) == 100000 && Pow10(6) == 1000000;
    NatToStringShape(OtpNumber(draw), 6);
  }

  // ---------------------------------------------------------------------------
  // Row writes
  // ---------------------------------------------------------------------------

  /** The row `createEscalation` inserts: pending, not yet taken by anybody;
      `created_at` is the database's default, the time of the insert. */
  function NewEscalation(id: Id, userId: Id, ticketId: Id, reason: string, code: string, now: Time): Escalation {
    Escalation(id, Some(ticketId), Some(userId), None, reason, Some(code), Some("pending"), None, Some(now))
  }

  /** UPDATE support_tickets SET priority = 'urgent', updated_at = now WHERE id = ticketId */
  function MarkUrgent(tickets: seq<Ticket>, ticketId: Id, now: Time): seq<Ticket> {
    UpdateWhere(tickets, (t: Ticket) => t.id == ticketId,
                (t: Ticket) => t.(priority := Some("urgent"), updatedAt := Some(now)))
  }

  /** The JSON details of the `escalation` activity entry. */
  function EscalationDetails(ticketId: Id, reason: string, code: string, now: Time): map<string, Detail> {
    map["ticket_id" := Ref(ticketId), "reason" := Text(reason), "otp" := Text(code), "timestamp" := At(now)]
  }

  /** UPDATE emergency_escalations SET otp_verified_at, status = 'acknowledged',
      escalated_to = userId WHERE id = escalationId AND otp_code = code */
  function Acknowledge(es: seq<Escalation>, escalationId: Id, code: string, userId: Id, now: Time): seq<Escalation> {
    UpdateWhere(es, (e: Escalation) => e.id == escalationId && e.otpCode == Some(code),
                (e: Escalation) => e.(otpVerifiedAt := Some(now), status := Some("acknowledged"), escalatedTo := Some(userId)))
  }

  /** UPDATE emergency_escalations SET status = 'resolved' WHERE id = escalationId */
  function MarkResolved(es: seq<Escalation>, escalationId: Id): seq<Escalation> {
    UpdateWhere(es, (e: Escalation) => e.id == escalationId, (e: Escalation) => e.(status := Some("resolved")))
  }

  // ---------------------------------------------------------------------------
  // The three actions, as functions of the database and the outcome of each write
  // ---------------------------------------------------------------------------

  /** `createEscalation`: the new database and the value returned
      (None for the early return on a blank reason, then false or true).
      `insertFails`/`updateFails` say whether the escalation insert and the
      ticket update report an error. */
  function Create(db: Db, userId: Id, ticketId: Id, reason: string, code: string, now: Time,
                  insertFails: bool, updateFails: bool): (Db, Option<bool>)
  {
    if IsBlank(reason) then (db, None)
    else if insertFails then (db, Some(false))
    else
      var inserted := db.(escalations := db.escalations + [NewEscalation(db.nextId, userId, ticketId, reason, code, now)],
                          nextId := db.nextId + 1);
      if updateFails then (inserted, Some(false))
      else (inserted.(tickets := MarkUrgent(db.tickets, ticketId, now))
                    .AddLog(Some(userId), "escalation", EscalationDetails(ticketId, reason, code, now)),
            Some(true))
  }

  /** `verifyOtp`: the new database and the value returned. */
  function Verify(db: Db, userId: Id, escalationId: Id, code: string, now: Time, updateFails: bool): (Db, bool) {
    if IsBlank(code) || updateFails then (db, false)
    else (db.(escalations := Acknowledge(db.escalations, escalationId, code, userId, now)), true)
  }

  /** `resolveEscalation`: the new database and the value returned. */
  function Resolve(db: Db, escalationId: Id, updateFails: bool): (Db, bool) {
    if updateFails then (db, false)
    else (db.(escalations := MarkResolved(db.escalations, escalationId)), true)
  }

  // ---------------------------------------------------------------------------
  // The handlers, write by write
  // ---------------------------------------------------------------------------

  method CreateEscalation(store: Store, userId: Id, ticketId: Id, reason: string, draw: real, now: Time,
                          insertFails: bool, updateFails: bool) returns (result: Option<bool>)
    requires 0.0 <= draw < 1.0
    modifies store
    ensures (store.db, result) == Create(old(store.db), userId, ticketId, reason, OtpCode(draw), now, insertFails, updateFails)
  {
    if IsBlank(reason) {
      return None;
    }
    var code := OtpCode(draw);
    if insertFails {
      return Some(false);
    }
    store.db := store.db.(escalations := store.db.escalations + [NewEscalation(store.db.nextId, userId, ticketId, reason, code, now)],
                          nextId := store.db.nextId + 1);
    if updateFails {
      return Some(false);
    }
    store.db := store.db.(tickets := MarkUrgent(store.db.tickets, ticketId, now));
    store.Log(Some(userId), "escalation", EscalationDetails(ticketId, reason, code, now));
    return Some(true);
  }

  method VerifyOtp(store: Store, userId: Id, escalationId: Id, code: string, now: Time, updateFails: bool)
    returns (ok: bool)
    modifies store
    ensures (store.db, ok) == Verify(old(store.db), userId, escalationId, code, now, updateFails)
  {
    if IsBlank(code) {
      return false;
    }
    if updateFails {
      return false;
    }
    store.db := store.db.(escalations := Acknowledge(store.db.escalations, escalationId, code, userId, now));
    return true;
  }

  method ResolveEscalation(store: Store, escalationId: Id, updateFails: bool) returns (ok: bool)
    modifies store
    ensures (store.db, ok) == Resolve(old(store.db), escalationId, updateFails)
  {
    if updateFails {
      return false;
    }
    store.db := store.db.(escalations := MarkResolved(store.db.escalations, escalationId));
    return true;
  }

  // ---------------------------------------------------------------------------
  // Properties
  // ---------------------------------------------------------------------------

  /** A blank or whitespace-only reason writes nothing and returns undefined;
      a failed insert writes nothing and returns false. */
  lemma CreateRefused(db: Db, userId: Id, ticketId: Id, reason: string, code: string, now: Time,
                      insertFails: bool, updateFails: bool)
    requires IsBlank(reason) || insertFails
    ensures Create(db, userId, ticketId, reason, code, now, insertFails, updateFails).0 == db
    ensures Create(db, userId, ticketId, reason, code, now, insertFails, updateFails).1
            == if IsBlank(reason) then None else Some(false)
  {
  }

  /** A created escalation is appended with a fresh id, status `pending`, nobody
      assigned, the creator, the ticket, the reason and the code; existing
      escalations are kept. */
  lemma CreateInsertsPending(db: Db, userId: Id, ticketId: Id, reason: string, code: string, now: Time,
                             updateFails: bool)
    requires !IsBlank(reason)
    ensures var db' := Create(db, userId, ticketId, reason, code, now, false, updateFails).0;
      && |db'.escalations| == |db.escalations| + 1
      && db'.escalations[..|db.escalations|] == db.escalations
      && var e := db'.escalations[|db.escalations|];
      && e.id == db.nextId && e.status == Some("pending") && e.escalatedTo == None
      && e.escalatedBy == Some(userId) && e.ticketId == Some(ticketId)
      && e.reason == reason && e.otpCode == Some(code) && e.createdAt == Some(now)
  {
    var db' := Create(db, userId, ticketId, reason, code, now, false, updateFails).0;
    assert db'.escalations == db.escalations + [NewEscalation(db.nextId, userId, ticketId, reason, code, now)];
  }

  /** When every write succeeds, exactly the escalated ticket changes: its
      priority becomes `urgent` and `updated_at` is set, and nothing else of it
      (in particular not `escalated_to`) changes. When the ticket update fails
      the ticket table is untouched and nothing is logged. */
  lemma CreateTouchesOnlyTicket(db: Db, userId: Id, ticketId: Id, reason: string, code: string, now: Time,
                                updateFails: bool, i: int)
    requires !IsBlank(reason)
    requires 0 <= i < |db.tickets|
    ensures var db' := Create(db, userId, ticketId, reason, code, now, false, updateFails).0;
      && |db'.tickets| == |db.tickets|
      && (updateFails ==> db'.tickets == db.tickets && db'.logs == db.logs)
      && (!updateFails ==>
            db'.tickets[i] == if db.tickets[i].id == ticketId
                              then db.tickets[i].(priority := Some("urgent"), updatedAt := Some(now))
                              else db.tickets[i])
      && db'.tickets[i].escalatedTo == db.tickets[i].escalatedTo
  {
  }

  /** A successful creation logs one `escalation` entry for the creator that
      carries the ticket, the reason, the code and the time. */
  lemma CreateLogs(db: Db, userId: Id, ticketId: Id, reason: string, code: string, now: Time)
    requires !IsBlank(reason)
    ensures var db' := Create(db, userId, ticketId, reason, code, now, false, false).0;
      && db'.logs[..|db.logs|] == db.logs && |db'.logs| == |db.logs| + 1
      && var l := db'.logs[|db.logs|];
      && l.agentId == Some(userId) && l.activityType == Some("escalation")
      && l.details["ticket_id"] == Ref(ticketId) && l.details["otp"] == Text(code)
      && l.details["reason"] == Text(reason)
  {
    var db' := Create(db, userId, ticketId, reason, code, now, false, false).0;
    assert db'.logs == db.logs + [db'.logs[|db.logs|]];
  }

  /** A blank code returns false and changes nothing; so does a failed update. */
  lemma VerifyRefused(db: Db, userId: Id, escalationId: Id, code: string, now: Time, updateFails: bool)
    requires IsBlank(code) || updateFails
    ensures Verify(db, userId, escalationId, code, now, updateFails) == (db, false)
  {
  }

  /** Verification rewrites a row exactly when both its id and its code match,
      whatever its status; the row then becomes `acknowledged`, taken by the
      verifier, with the verification time, and keeps everything else. */
  lemma VerifyMatchesIdAndCode(db: Db, userId: Id, escalationId: Id, code: string, now: Time, i: int)
    requires !IsBlank(code)
    requires 0 <= i < |db.escalations|
    ensures var (db', ok) := Verify(db, userId, escalationId, code, now, false);
      && ok
      && |db'.escalations| == |db.escalations|
      && db' == db.(escalations := db'.escalations)
      && var e, e' := db.escalations[i], db'.escalations[i];
      && (e.id == escalationId && e.otpCode == Some(code) ==>
            e' == e.(status := Some("acknowledged"), escalatedTo := Some(userId), otpVerifiedAt := Some(now)))
      && (e.id != escalationId || e.otpCode != Some(code) ==> e' == e)
  {
  }

  /** With a wrong code no row changes, yet `verifyOtp` reports success: an update
      that matches no row is not an error. */
  lemma VerifyWrongCodeReportsSuccess(db: Db, userId: Id, escalationId: Id, code: string, now: Time)
    requires !IsBlank(code)
    requires forall i :: 0 <= i < |db.escalations| && db.escalations[i].id == escalationId
                         ==> db.escalations[i].otpCode != Some(code)
    ensures Verify(db, userId, escalationId, code, now, false) == (db, true)
  {
    var es := Acknowledge(db.escalations, escalationId, code, userId, now);
    assert es == db.escalations;
  }

  /** Resolving sets `resolved` on that id whatever the previous status, leaves
      every other row and table alone, and resolving twice is the same as once. */
  lemma ResolveOnlyThatRow(db: Db, escalationId: Id)
    ensures var (db', ok) := Resolve(db, escalationId, false);
      && ok && db' == db.(escalations := db'.escalations)
      && |db'.escalations| == |db.escalations|
      && (forall i :: 0 <= i < |db.escalations| ==>
            db'.escalations[i] == if db.escalations[i].id == escalationId
                                  then db.escalations[i].(status := Some("resolved"))
                                  else db.escalations[i])
      && Resolve(db', escalationId, false).0 == db'
  {
    var es := MarkResolved(db.escalations, escalationId);
    assert MarkResolved(es, escalationId) == es;
  }

  /** The whole workflow: an escalation created with code `c` is acknowledged by
      entering `c` (and by nobody else's row matching), then resolved. */
  lemma {:induction false} CreateVerifyResolve(db: Db, creator: Id, responder: Id, ticketId: Id, reason: string,
                                              draw: real, t1: Time, t2: Time)
    requires 0.0 <= draw < 1.0
    requires !IsBlank(reason)
    requires forall i :: 0 <= i < |db.escalations| ==> db.escalations[i].id < db.nextId
    ensures var code := OtpCode(draw);
      var (db1, created) := Create(db, creator, ticketId, reason, code, t1, false, false);
      var (db2, verified) := Verify(db1, responder, db.nextId, code, t2, false);
      var (db3, resolved) := Resolve(db2, db.nextId, false);
      && created == Some(true) && verified && resolved
      && db2.escalations[..|db.escalations|] == db.escalations
      && db2.escalations[|db.escalations|]
         == NewEscalation(db.nextId, creator, ticketId, reason, code, t1)
              .(status := Some("acknowledged"), escalatedTo := Some(responder), otpVerifiedAt := Some(t2))
      && db3.escalations[|db.escalations|].status == Some("resolved")
  {
    var code := OtpCode(draw);
    OtpCodeShape(draw);
    assert !IsBlank(code) by {
      BlankIffAllWhitespace(code);
      assert !IsJsWhitespace(code[0]);
    }
    var (db1, created) := Create(db, creator, ticketId, reason, code, t1, false, false);
    var (db2, verified) := Verify(db1, responder, db.nextId, code, t2, false);
    var n := |db.escalations|;
    assert db1.escalations == db.escalations + [NewEscalation(db.nextId, creator, ticketId, reason, code, t1)];
    assert db2.escalations[..n] == db.escalations by {
      forall i | 0 <= i < n ensures db2.escalations[i] == db.escalations[i] {
        assert db1.escalations[i] == db.escalations[i];
      }
    }
  }
}
