/** Code entry for acknowledging an escalation (`OtpVerificationCard`), with
    the selection state its parent screen keeps for it. */
module OtpCard {
  import opened Common
  import opened Tables
  import EscalationActions

  /** The text field keeps at most six characters (`maxLength={6}`). */
  function Typed(value: string): (r: string)
    ensures |r| <= 6 && (|value| >= 6 ==> |r| == 6)
    ensures |r| <= |value| && r == value[..|r|]
    ensures |value| <= 6 ==> r == value
  {
    if |value| <= 6 then value else value[..6]
  }

  /** Verify is enabled only when exactly six characters have been entered. */
  predicate VerifyEnabled(code: string) {
    |code| == 6
  }

  /** A generated code typed in as it was shown is kept whole and enables
      Verify, and then passes the blank-code check of `verifyOtp`. */
  lemma GeneratedCodeAccepted(draw: real)
    requires 0.0 <= draw < 1.0
    ensures Typed(EscalationActions.OtpCode(draw)) == EscalationActions.OtpCode(draw)
    ensures VerifyEnabled(EscalationActions.OtpCode(draw))
    ensures !IsBlank(EscalationActions.OtpCode(draw))
  {
    var code := EscalationActions.OtpCode(draw);
    EscalationActions.OtpCodeShape(draw);
    BlankIffAllWhitespace(code);
    assert !IsJsWhitespace(code[0]);
  }

  class OtpVerificationCard {
    /** The escalation being acknowledged (kept by the parent screen); the
        card is shown while it is set. */
    var selectedEscalation: Option<Id>
    /** The code typed so far. */
    var otpCode: string

    constructor(escalationId: Id)
      ensures selectedEscalation == Some(escalationId) && otpCode == ""
    {
      selectedEscalation := Some(escalationId);
      otpCode := "";
    }

    /** A keystroke or paste into the code field. */
    method OnChange(value: string)
      modifies this
      ensures otpCode == Typed(value) && selectedEscalation == old(selectedEscalation)
    {
      otpCode := Typed(value);
    }

    /** `handleVerify`: verifies the selected escalation with the typed code;
        the parent closes the card on success; the typed code is cleared
        whatever the outcome. */
    method HandleVerify(store: Store, userId: Id, now: Time, updateFails: bool) returns (ok: bool)
      requires selectedEscalation.Some? && VerifyEnabled(otpCode)
      modifies this, store
      ensures (store.db, ok) == EscalationActions.Verify(old(store.db), userId, old(selectedEscalation).value,
                                                         old(otpCode), now, updateFails)
      ensures otpCode == ""
      ensures selectedEscalation == if ok then None else old(selectedEscalation)
    {
      ok := EscalationActions.VerifyOtp(store, userId, selectedEscalation.value, otpCode, now, updateFails);
      if ok {
        selectedEscalation := None;
      }
      otpCode := "";
    }

    /** Cancel closes the card without touching the database. */
    method Cancel()
      modifies this
      ensures selectedEscalation == None && otpCode == old(otpCode)
    {
      selectedEscalation := None;
    }
  }
}
