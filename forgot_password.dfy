/**
 * The password-reset screen (app/auth/forgot-password.tsx): its two email
 * checks, when the request counts as sent, and the `emailSent` and
 * `isLoading` flags that choose between its two views.
 */
module ForgotPassword {
  import opened Wrappers
  import opened JsString
  import opened Validation
  import opened Backend
  import opened Ui

  const EnterEmail := "Please enter your email address"
  const InvalidEmail := "Please enter a valid email address"
  const SendFailed := "Failed to send reset email. Please try again."
  /** The message of the `catch` block for anything but an axios error. */
  const SendError := "An error occurred while sending reset email."

  function ResetChecks(email: string): seq<Check> {
    [ Check(!Blank(email), EnterEmail),
      Check('@' in email, InvalidEmail) ]
  }

  /** The message `handleSendResetEmail` rejects the email with, or `None` when it sends the request. */
  function ValidateEmail(email: string): (r: Option<string>)
    ensures r.None? <==> !Blank(email) && '@' in email
    ensures r == Some(EnterEmail) <==> Blank(email)
    ensures r == Some(InvalidEmail) <==> !Blank(email) && '@' !in email
  {
    var cs := ResetChecks(email);
    FirstFailureCons(cs[0], cs[1..]);
    FirstFailureCons(cs[1], []);
    assert cs == [cs[0]] + cs[1..] && cs[1..] == [cs[1]] + [];
    FirstFailure(cs)
  }

  datatype ResetOutcome =
    | Invalid(message: string)   // a check failed; no request was sent
    | Failed(message: string)    // the request was sent and did not succeed
    | Sent                       // the reply had status 200

  /** What one press of "Send Reset Link" comes to, for the email and the reply to the request. */
  function Outcome(email: string, reply: Reply): (o: ResetOutcome)
    ensures o.Invalid? <==> ValidateEmail(email).Some?
    ensures o.Invalid? ==> ValidateEmail(email) == Some(o.message)
    ensures o.Sent? <==> ValidateEmail(email).None? && reply.Responded? && reply.status == 200
    ensures o.Sent? ==> !Blank(email) && '@' in email
    ensures ValidateEmail(email).None? && reply.Threw? ==> o == Failed(ErrorMessage(reply.failure, SendError))
    ensures (ValidateEmail(email).None? && reply.Responded? && reply.status != 200 && reply.data.None?)
              ==> o == Failed(SendError)
    ensures (ValidateEmail(email).None? && reply.Responded? && reply.status != 200 && reply.data.Some?)
              ==> o == Failed(MessageOr(reply.data.value, SendFailed))
  {
    match ValidateEmail(email)
    case Some(message) => Invalid(message)
    case None =>
      match reply
      case Threw(f) => Failed(ErrorMessage(f, SendError))
      case Responded(status, data) =>
        if status == 200 then Sent
        else if data.None? then Failed(SendError)   // reading `message` of a null `data` throws a TypeError
        else Failed(MessageOr(data.value, SendFailed))
  }

  /** The two views of the screen. */
  datatype View = EnterEmailForm | CheckYourEmail

  class ForgotPasswordScreen {
    var email: string
    var isLoading: bool
    var emailSent: bool

    constructor ()
      ensures email == "" && !isLoading && !emailSent
      ensures CurrentView() == EnterEmailForm
    {
      email, isLoading, emailSent := "", false, false;
    }

    /** The view rendered: "Check Your Email" exactly when `emailSent` is set. */
    function CurrentView(): (v: View)
      reads this
      ensures v == CheckYourEmail <==> emailSent
    {
      if emailSent then CheckYourEmail else EnterEmailForm
    }

    /** `handleSendResetEmail`: returns the native alert it raises, if any. */
    method HandleSendResetEmail(reply: Reply) returns (alert: Option<Alert>)
      modifies this`isLoading, this`emailSent
      ensures emailSent == (old(emailSent) || Outcome(email, reply).Sent?)
      ensures CurrentView() == CheckYourEmail <==> old(CurrentView()) == CheckYourEmail || Outcome(email, reply).Sent?
      ensures isLoading == (if Outcome(email, reply).Invalid? then old(isLoading) else false)
      ensures alert == (var o := Outcome(email, reply); if o.Sent? then None else Some(Alert("Error", o.message)))
    {
      ghost var o := Outcome(email, reply);
      var invalid := ValidateEmail(email);
      if invalid.Some? {
        alert := Some(Alert("Error", invalid.value));
        return;
      }
      isLoading := true;
      match reply {
        case Threw(f) =>
          alert := Some(Alert("Error", ErrorMessage(f, SendError)));
        case Responded(status, data) =>
          if status == 200 {
            emailSent := true;
            alert := None;
          } else if data.None? {
            alert := Some(Alert("Error", SendError));
          } else {
            alert := Some(Alert("Error", MessageOr(data.value, SendFailed)));
          }
      }
      isLoading := false;   // finally
    }

    /**
     * `handleResendEmail`: clears `emailSent`, then runs the same handler on
     * the same email, checks included.
     */
    method HandleResendEmail(reply: Reply) returns (alert: Option<Alert>)
      modifies this`isLoading, this`emailSent
      ensures emailSent == Outcome(email, reply).Sent?
      ensures CurrentView() == CheckYourEmail <==> Outcome(email, reply).Sent?
      ensures isLoading == (if Outcome(email, reply).Invalid? then old(isLoading) else false)
      ensures alert == (var o := Outcome(email, reply); if o.Sent? then None else Some(Alert("Error", o.message)))
    {
      emailSent := false;
      alert := HandleSendResetEmail(reply);
    }
  }

  /**
   * Resend re-runs the checks on the email the first request was sent for,
   * so after a successful send they pass again and the request goes out.
   */
  lemma ResendPassesChecks(email: string, first: Reply, again: Reply)
    requires Outcome(email, first).Sent?
    ensures !Outcome(email, again).Invalid?
  {
  }
}
