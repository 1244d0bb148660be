/** One escalation on the emergency screen (`EscalationCard`): its colours, when
    the one-time code is displayed, and which of Acknowledge and Resolve is
    offered to whom. */
module EscalationCard {
  import opened Common
  import opened Tables

  /** `getStatusColor`: badge classes by status. */
  function StatusColor(status: Option<string>): string {
    match status
    case Some("pending") => "bg-red-100 text-red-800"
    case Some("acknowledged") => "bg-yellow-100 text-yellow-800"
    case Some("resolved") => "bg-green-100 text-green-800"
    case _ => "bg-gray-100 text-gray-800"
  }

  /** The card's left border: red while pending, yellow once acknowledged,
      green for every other status. */
  function BorderColor(status: Option<string>): string {
    if status == Some("pending") then "border-l-red-500"
    else if status == Some("acknowledged") then "border-l-yellow-500"
    else "border-l-green-500"
  }

  /** The code is displayed while the escalation is pending and has one. */
  predicate ShowOtp(e: Escalation) {
    Truthy(e.otpCode) && e.status == Some("pending")
  }

  /** Acknowledge is offered on pending escalations to supervisors and admins. */
  predicate ShowAcknowledge(e: Escalation, role: CallCenterRole) {
    e.status == Some("pending") && role != Agent
  }

  /** Resolve is offered on acknowledged escalations, to every role. */
  predicate ShowResolve(e: Escalation) {
    e.status == Some("acknowledged")
  }

  /** The three known statuses get three different badges, and the border
      agrees with the badge's hue on them; any other status (or none) has a
      gray badge yet a green border, the same border as a resolved one. */
  lemma ColoursAgree(status: Option<string>)
    ensures status in {Some("pending"), Some("acknowledged"), Some("resolved")} ==>
      && StatusColor(status)[3..6] == BorderColor(status)[9..12]
      && (forall other :: other in {Some("pending"), Some("acknowledged"), Some("resolved")} && other != status
                          ==> StatusColor(other) != StatusColor(status))
    ensures status !in {Some("pending"), Some("acknowledged"), Some("resolved")} ==>
      StatusColor(status) == "bg-gray-100 text-gray-800" && BorderColor(status) == BorderColor(Some("resolved"))
  {
    if status in {Some("pending"), Some("acknowledged"), Some("resolved")} {
      var c, b := StatusColor(status), BorderColor(status);
      assert c[3..6] == [c[3], c[4], c[5]];
      assert b[9..12] == [b[9], b[10], b[11]];
      if status == Some("pending") {
        assert c == "bg-red-100 text-red-800" && b == "border-l-red-500";
      } else if status == Some("acknowledged") {
        assert c == "bg-yellow-100 text-yellow-800" && b == "border-l-yellow-500";
      } else {
        assert c == "bg-green-100 text-green-800" && b == "border-l-green-500";
      }
      assert c[3] == b[9] && c[4] == b[10] && c[5] == b[11];
    }
  }

  /** At most one of the two actions is ever offered; agents can only resolve;
      and the code is never shown once the escalation has been acknowledged. */
  lemma ActionsExclusive(e: Escalation, role: CallCenterRole)
    ensures !(ShowAcknowledge(e, role) && ShowResolve(e))
    ensures role == Agent ==> !ShowAcknowledge(e, role)
    ensures ShowAcknowledge(e, role) ==> e.status == Some("pending")
    ensures ShowOtp(e) ==> !ShowResolve(e) && e.otpCode.Some?
  {
  }

  /** The Acknowledge button selects this escalation for code entry; Resolve
      hands this escalation's id to `resolveEscalation`. None when the button
      is not shown. */
  function AcknowledgeClick(e: Escalation, role: CallCenterRole): (r: Option<Id>)
    ensures r.Some? <==> ShowAcknowledge(e, role)
    ensures r.Some? ==> r.value == e.id
  {
    if ShowAcknowledge(e, role) then Some(e.id) else None
  }

  function ResolveClick(e: Escalation): (r: Option<Id>)
    ensures r.Some? <==> ShowResolve(e)
    ensures r.Some? ==> r.value == e.id
  {
    if ShowResolve(e) then Some(e.id) else None
  }
}
