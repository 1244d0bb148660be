/** One urgent ticket on the emergency screen (`UrgentTicketCard`), with the
    reason box and the Escalate button. */
module UrgentTicketCard {
  import opened Common
  import opened Tables
  import EscalationActions

  /** The reason box and the Escalate button are rendered for supervisors and
      admins only. */
  predicate ShowControls(role: CallCenterRole) {
    role != Agent
  }

  /** Escalate is disabled while the reason is blank after trimming. */
  predicate EscalateEnabled(reason: string) {
    !IsBlank(reason)
  }

  /** Pressing Escalate hands this ticket's id to the parent's handler, which
      calls `createEscalation` with the reason typed so far; None when the
      button is not rendered or is disabled. */
  function EscalateClick(t: Ticket, role: CallCenterRole, reason: string): (r: Option<Id>)
    ensures r.Some? <==> ShowControls(role) && EscalateEnabled(reason)
    ensures r.Some? ==> r.value == t.id
  {
    if ShowControls(role) && EscalateEnabled(reason) then Some(t.id) else None
  }

  /** Whenever the button can be pressed, creation gets past its blank-reason
      check: it either fails on a write (false) or succeeds (true), and never
      returns early. Conversely a reason containing any visible character
      enables the button. */
  lemma EnabledMeansAttempted(db: Db, t: Ticket, role: CallCenterRole, userId: Id, reason: string, code: string,
                              now: Time, insertFails: bool, updateFails: bool)
    ensures EscalateClick(t, role, reason).Some? ==>
      EscalationActions.Create(db, userId, t.id, reason, code, now, insertFails, updateFails).1
        == Some(!insertFails && !updateFails)
    ensures (exists i :: 0 <= i < |reason| && !IsJsWhitespace(reason[i])) ==> EscalateEnabled(reason)
  {
    BlankIffAllWhitespace(reason);
  }
}
