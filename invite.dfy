/** The invitation-acceptance page (src/app/invite/page.tsx): the token check
    on mount, the client-side checks before submitting, the server-error text,
    and which of the three screens is shown. The server's answers are
    parameters; the tokens written to `localStorage` and the redirect to the
    dashboard are returned. */
module Invite {
  import opened Wrappers

  /** The accept-invitation form. */
  datatype InviteForm = InviteForm(firstName: string, lastName: string, username: string,
                                   password: string, confirmPassword: string)

  const EmptyForm := InviteForm("", "", "", "", "")

  /** What `validateToken` answers about an open invitation. */
  datatype Invitation = Invitation(email: string, role: string)

  /** `err.response?.data` of a failed call, when there is one. */
  datatype ErrorBody = ErrorBody(message: Option<string>, error: Option<string>)

  /** The text shown for a failed call: the server's `message`, else its `error`, else the fallback. */
  function ServerErrorText(body: Option<ErrorBody>, fallback: string): (r: string)
    ensures body.Some? && Truthy(body.value.message) ==> r == body.value.message.value
    ensures body.Some? && !Truthy(body.value.message) && Truthy(body.value.error) ==> r == body.value.error.value
    ensures (body.None? || (!Truthy(body.value.message) && !Truthy(body.value.error))) ==> r == fallback
    ensures fallback != "" ==> r != ""
  {
    if body.None? then fallback
    else OrElse(body.value.message, OrElse(body.value.error, fallback))
  }

  const PasswordsDiffer := "Passwords do not match"
  const PasswordTooShort := "Password must be at least 8 characters long"
  const MissingToken := "Invalid invitation token"
  const NoTokenInLink := "Invalid invitation link. No token provided."
  const InvalidOrExpired := "Invalid or expired invitation token"
  const AcceptFailed := "Failed to accept invitation. Please try again."

  /** The checks `handleSubmit` makes before calling the server, in order; the
      message of the first that fails. */
  function FirstError(form: InviteForm, token: Option<string>): Option<string> {
    if form.password != form.confirmPassword then Some(PasswordsDiffer)
    else if |form.password| < 8 then Some(PasswordTooShort)
    else if !Truthy(token) then Some(MissingToken)
    else None
  }

  /** A form passes exactly when the two passwords agree, are at least eight
      characters long, and there is a token; and the first failing check decides
      the message. */
  lemma FirstErrorSpec(form: InviteForm, token: Option<string>)
    ensures FirstError(form, token).None? <==>
      form.password == form.confirmPassword && |form.password| >= 8 && Truthy(token)
    ensures form.password != form.confirmPassword ==> FirstError(form, token) == Some(PasswordsDiffer)
    ensures form.password == form.confirmPassword && |form.password| < 8 ==>
      FirstError(form, token) == Some(PasswordTooShort)
    ensures form.password == form.confirmPassword && |form.password| >= 8 && !Truthy(token) ==>
      FirstError(form, token) == Some(MissingToken)
  {
  }

  /** The length boundary: eight matching characters pass, seven do not. */
  lemma EightCharactersSuffice()
    ensures FirstError(InviteForm("A", "B", "ab", "abcdefgh", "abcdefgh"), Some("t")).None?
    ensures FirstError(InviteForm("A", "B", "ab", "abcdefg", "abcdefg"), Some("t")) == Some(PasswordTooShort)
    ensures FirstError(InviteForm("A", "B", "ab", "abc", "abd"), None) == Some(PasswordsDiffer)
  {
  }

  /** The outcome of `validateToken` / `acceptInvitation`. */
  datatype ValidateOutcome = Valid(invitation: Invitation) | ValidateFailed(body: Option<ErrorBody>)

  /** `response.tokens` of a successful accept, when present. */
  datatype SessionTokens = SessionTokens(accessToken: string, refreshToken: string)
  datatype AcceptOutcome = Accepted(tokens: Option<SessionTokens>) | AcceptFailedWith(body: Option<ErrorBody>)

  /** Which screen renders. */
  datatype Screen = Spinner | InvalidInvitation | AcceptForm

  class InvitePage {
    var loading: bool
    var validating: bool
    var submitting: bool
    var error: Option<string>
    var invitation: Option<Invitation>
    var form: InviteForm

    constructor ()
      ensures loading && !validating && !submitting && error == None && invitation == None && form == EmptyForm
      ensures CurrentScreen() == Spinner
    {
      loading, validating, submitting, error, invitation, form := true, false, false, None, None, EmptyForm;
    }

    /** The screen for the current state: the spinner while loading or
        validating, the invalid-invitation card when there is an error and no
        invitation, and the form otherwise. */
    function CurrentScreen(): (s: Screen)
      reads this
      ensures s == Spinner <==> loading || validating
      ensures s == InvalidInvitation <==> !loading && !validating && Truthy(error) && invitation.None?
    {
      if loading || validating then Spinner
      else if Truthy(error) && invitation.None? then InvalidInvitation
      else AcceptForm
    }

    /** The effect run for the link's token: without one the error is shown at
        once; otherwise the token is validated. */
    method Mount(token: Option<string>, validation: ValidateOutcome)
      modifies this
      ensures !loading
      ensures validating == (!Truthy(token) && old(validating))
      ensures !Truthy(token) ==> error == Some(NoTokenInLink) && invitation == old(invitation)
      ensures Truthy(token) && validation.Valid? ==> error == None && invitation == Some(validation.invitation)
      ensures Truthy(token) && validation.ValidateFailed? ==>
        error == Some(ServerErrorText(validation.body, InvalidOrExpired)) && invitation == old(invitation)
      ensures submitting == old(submitting) && form == old(form)
      ensures old(invitation).None? && Truthy(token) && validation.ValidateFailed? ==> CurrentScreen() == InvalidInvitation
      ensures old(invitation).None? && !old(validating) && !Truthy(token) ==> CurrentScreen() == InvalidInvitation
      ensures Truthy(token) && validation.Valid? ==> CurrentScreen() == AcceptForm
    {
      if !Truthy(token) {
        error, loading := Some(NoTokenInLink), false;
        return;
      }
      validating, error := true, None;
      if validation.Valid? {
        invitation := Some(validation.invitation);
      } else {
        error := Some(ServerErrorText(validation.body, InvalidOrExpired));
      }
      loading, validating := false, false;
    }

    /** `handleSubmit`: the client checks, then the accept call. Returns the
        tokens written to storage and whether the page redirects to the dashboard. */
    method HandleSubmit(token: Option<string>, accept: AcceptOutcome)
      returns (stored: Option<SessionTokens>, redirect: bool)
      modifies this
      ensures FirstError(form, token).Some? ==> submitting == old(submitting)
      ensures FirstError(form, token).None? ==> !submitting
      ensures FirstError(form, token).Some? ==> error == FirstError(form, token) && !redirect && stored == None
      ensures FirstError(form, token).None? && accept.Accepted? ==>
        error == None && redirect && stored == accept.tokens
      ensures FirstError(form, token).None? && accept.AcceptFailedWith? ==>
        error == Some(ServerErrorText(accept.body, AcceptFailed)) && !redirect && stored == None
      ensures redirect <==> FirstError(form, token).None? && accept.Accepted?
      ensures loading == old(loading) && validating == old(validating) && invitation == old(invitation)
      ensures form == old(form)
    {
      error := None;
      stored, redirect := None, false;
      var check := FirstError(form, token);
      if check.Some? {
        error := check;
        return;
      }
      submitting := true;
      if accept.Accepted? {
        stored, redirect := accept.tokens, true;
      } else {
        error := Some(ServerErrorText(accept.body, AcceptFailed));
      }
      submitting := false;
    }

    /** One field of the form edited. */
    method SetForm(f: InviteForm)
      modifies this
      ensures form == f
      ensures loading == old(loading) && validating == old(validating) && submitting == old(submitting)
      ensures error == old(error) && invitation == old(invitation)
    {
      form := f;
    }
  }
}
