/**
 * The account-creation screen (app/auth/signup.tsx): the form record and
 * its single-field update, the validation chain, and how `handleSignup`
 * reads the reply.
 */
module Signup {
  import opened Wrappers
  import opened JsString
  import opened Validation
  import opened Backend
  import opened Ui

  const FillAllFields := "Please fill in all fields"
  const InvalidEmail := "Please enter a valid email address"
  const ShortPassword := "Password must be at least 6 characters"
  const PasswordsDiffer := "Passwords do not match"
  const Created := "Account created successfully"
  const CreateFailed := "Failed to create account"
  /** The message of the `catch` block for anything but an axios error. */
  const CreateError := "An error occurred while creating account"

  /** `formData`, sent as the body of the request as it is. */
  datatype SignupForm = SignupForm(
    fullName: string,
    email: string,
    password: string,
    confirmPassword: string,
    houseNumber: string,
    portion: string,
    area: string)

  /** The field names `updateFormData` is called with. */
  datatype FormField = FullName | Email | Password | ConfirmPassword | HouseNumber | Portion | Area

  const InitialForm := SignupForm("", "", "", "", "", "upper", "")

  /** `formData[field]`. */
  function Get(form: SignupForm, field: FormField): string {
    match field
    case FullName => form.fullName
    case Email => form.email
    case Password => form.password
    case ConfirmPassword => form.confirmPassword
    case HouseNumber => form.houseNumber
    case Portion => form.portion
    case Area => form.area
  }

  /** `{ ...prev, [field]: value }`: the named field takes the value, every other field keeps its own. */
  function UpdateFormData(form: SignupForm, field: FormField, value: string): (r: SignupForm)
    ensures Get(r, field) == value
    ensures forall f :: f != field ==> Get(r, f) == Get(form, f)
  {
    match field
    case FullName => form.(fullName := value)
    case Email => form.(email := value)
    case Password => form.(password := value)
    case ConfirmPassword => form.(confirmPassword := value)
    case HouseNumber => form.(houseNumber := value)
    case Portion => form.(portion := value)
    case Area => form.(area := value)
  }

  /** Every field the first check requires, which is all of them except `portion`. */
  predicate AllFilled(form: SignupForm) {
    && !Blank(form.fullName) && !Blank(form.email) && !Blank(form.password)
    && !Blank(form.confirmPassword) && !Blank(form.houseNumber) && !Blank(form.area)
  }

  /** The checks of `handleSignup`, in the order it makes them. */
  function SignupChecks(form: SignupForm): seq<Check> {
    [ Check(AllFilled(form), FillAllFields),
      Check('@' in form.email, InvalidEmail),
      Check(Utf16Length(form.password) >= 6, ShortPassword),
      Check(form.password == form.confirmPassword, PasswordsDiffer) ]
  }

  predicate Acceptable(form: SignupForm) {
    AllFilled(form) && '@' in form.email && Utf16Length(form.password) >= 6
    && form.password == form.confirmPassword
  }

  /** The message `handleSignup` rejects the form with, or `None` when it sends the request. */
  function ValidateSignup(form: SignupForm): (r: Option<string>)
    ensures r.None? <==> Acceptable(form)
    ensures r == Some(FillAllFields) <==> !AllFilled(form)
    ensures r == Some(InvalidEmail) <==> AllFilled(form) && '@' !in form.email
    ensures r == Some(ShortPassword) <==>
              AllFilled(form) && '@' in form.email && Utf16Length(form.password) < 6
    ensures r == Some(PasswordsDiffer) <==>
              AllFilled(form) && '@' in form.email && Utf16Length(form.password) >= 6
              && form.password != form.confirmPassword
  {
    var cs := SignupChecks(form);
    FirstFailureOfFour(cs[0], cs[1], cs[2], cs[3]);
    FirstFailure(cs)
  }

  datatype SignupOutcome =
    | Invalid(message: string)   // a check failed; no request was sent
    | Failed(message: string)    // the request was sent and no account was created
    | Succeeded                  // "Success" alert, then back to the sign-in screen

  /** What one press of "Create Account" comes to, for the form and the reply to the request. */
  function Outcome(form: SignupForm, reply: Reply): (o: SignupOutcome)
    ensures o.Invalid? <==> !Acceptable(form)
    ensures o.Invalid? ==> ValidateSignup(form) == Some(o.message)
    ensures o.Succeeded? <==> Acceptable(form) && reply.Responded? && reply.data.Some? && Truthy(reply.data.value.msg)
    ensures o.Succeeded? ==>
              AllFilled(form) && '@' in form.email && Utf16Length(form.password) >= 6
              && form.password == form.confirmPassword
    ensures Acceptable(form) && reply.Threw? ==> o == Failed(ErrorMessage(reply.failure, CreateError))
    ensures Acceptable(form) && reply.Responded? && reply.data.None? ==> o == Failed(CreateError)
    ensures (Acceptable(form) && reply.Responded? && reply.data.Some? && !Truthy(reply.data.value.msg))
              ==> o == Failed(MessageOr(reply.data.value, CreateFailed))
  {
    match ValidateSignup(form)
    case Some(message) => Invalid(message)
    case None =>
      match reply
      case Threw(f) => Failed(ErrorMessage(f, CreateError))
      case Responded(_, data) =>
        if data.None? then Failed(CreateError)   // reading `msg` of a null `data` throws a TypeError
        else if Truthy(data.value.msg) then Succeeded
        else Failed(MessageOr(data.value, CreateFailed))
  }

  /** An input the screen can make: text typed into a field, or one of the two portion buttons. */
  predicate UiUpdate(field: FormField, value: string) {
    field != Portion || value == "upper" || value == "lower"
  }

  predicate PortionValid(form: SignupForm) {
    form.portion == "upper" || form.portion == "lower"
  }

  function ApplyUpdates(form: SignupForm, updates: seq<(FormField, string)>): SignupForm
    decreases |updates|
  {
    if updates == [] then form
    else ApplyUpdates(UpdateFormData(form, updates[0].0, updates[0].1), updates[1..])
  }

  /** Whatever the screen's inputs, `portion` stays `'upper'` or `'lower'`. */
  lemma {:induction false} PortionStaysValid(form: SignupForm, updates: seq<(FormField, string)>)
    requires PortionValid(form)
    requires forall i :: 0 <= i < |updates| ==> UiUpdate(updates[i].0, updates[i].1)
    ensures PortionValid(ApplyUpdates(form, updates))
    decreases |updates|
  {
    if updates != [] {
      var next := UpdateFormData(form, updates[0].0, updates[0].1);
      assert UiUpdate(updates[0].0, updates[0].1);
      assert Get(next, Portion) == "upper" || Get(next, Portion) == "lower";
      PortionStaysValid(next, updates[1..]);
    }
  }

  lemma InitialPortionValid()
    ensures PortionValid(InitialForm)
  {
  }

  class SignupScreen {
    var form: SignupForm
    var showPassword: bool
    var showConfirmPassword: bool
    var isLoading: bool
    var showAlert: bool
    var alertTitle: string
    var alertMessage: string

    constructor ()
      ensures form == InitialForm && !showPassword && !showConfirmPassword && !isLoading
      ensures !showAlert && alertTitle == "" && alertMessage == ""
    {
      form := InitialForm;
      showPassword, showConfirmPassword, isLoading := false, false, false;
      showAlert, alertTitle, alertMessage := false, "", "";
    }

    /** `updateFormData(field, value)`. */
    method Update(field: FormField, value: string)
      modifies this`form
      ensures form == UpdateFormData(old(form), field, value)
    {
      form := UpdateFormData(form, field, value);
    }

    method ShowAlert(title: string, message: string)
      modifies this`alertTitle, this`alertMessage, this`showAlert
      ensures alertTitle == title && alertMessage == message && showAlert
    {
      alertTitle, alertMessage, showAlert := title, message, true;
    }

    /** `handleSignup`: returns the route it replaces the screen with, if any. */
    method HandleSignup(reply: Reply) returns (route: Option<Route>)
      modifies this
      ensures form == old(form) && showPassword == old(showPassword)
      ensures showConfirmPassword == old(showConfirmPassword)
      ensures route == if Outcome(old(form), reply).Succeeded? then Some(AuthLogin) else None
      ensures showAlert
      ensures Outcome(old(form), reply).Invalid? ==> isLoading == old(isLoading)
      ensures !Outcome(old(form), reply).Invalid? ==> !isLoading
      ensures Outcome(old(form), reply).Succeeded? ==> alertTitle == "Success" && alertMessage == Created
      ensures !Outcome(old(form), reply).Succeeded? ==>
                alertTitle == "Error" && alertMessage == Outcome(old(form), reply).message
    {
      ghost var o := Outcome(form, reply);
      route := None;
      var invalid := ValidateSignup(form);
      if invalid.Some? {
        assert o == Invalid(invalid.value);
        ShowAlert("Error", invalid.value);
        return;
      }
      isLoading := true;
      match reply {
        case Threw(f) =>
          assert o == Failed(ErrorMessage(f, CreateError));
          ShowAlert("Error", ErrorMessage(f, CreateError));
        case Responded(_, data) =>
          if data.None? {
            assert o == Failed(CreateError);
            ShowAlert("Error", CreateError);
          } else if Truthy(data.value.msg) {
            assert o == Succeeded;
            ShowAlert("Success", Created);
            route := Some(AuthLogin);
          } else {
            assert o == Failed(MessageOr(data.value, CreateFailed));
            ShowAlert("Error", MessageOr(data.value, CreateFailed));
          }
      }
      isLoading := false;   // finally
    }
  }
}
