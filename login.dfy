/**
 * The sign-in screen (app/auth/login.tsx): its validation chain, the
 * session record it stores under `userData`, the choice of home screen by
 * role, and the state `handleLogin` leaves behind.
 */
module Login {
  import opened Wrappers
  import opened JsString
  import opened Validation
  import opened Backend
  import opened Ui
  import Json
  import opened Storage

  const EnterBoth := "Please enter both email and password"
  const InvalidEmail := "Please enter a valid email address"
  const ShortPassword := "Password must be at least 6 characters"
  /** The body of a reply that says the login failed, without a message of its own. */
  const LoginFailed := "Login failed. Please try again."
  /** The message of the `catch` block for anything but an axios error. */
  const SignInError := "An error occurred while Sign in account"

  /** The checks of `handleLogin`, in the order it makes them. */
  function LoginChecks(email: string, password: string): seq<Check> {
    [ Check(!Blank(email) && !Blank(password), EnterBoth),
      Check('@' in email, InvalidEmail),
      Check(Utf16Length(password) >= 6, ShortPassword) ]
  }

  /** Every check passes: both fields are non-blank, the email has an `@`, the password six code units. */
  predicate Acceptable(email: string, password: string) {
    !Blank(email) && !Blank(password) && '@' in email && Utf16Length(password) >= 6
  }

  /** The message `handleLogin` rejects the form with, or `None` when it goes on to send the request. */
  function ValidateLogin(email: string, password: string): (r: Option<string>)
    ensures r.None? <==> Acceptable(email, password)
    ensures r == Some(EnterBoth) <==> Blank(email) || Blank(password)
    ensures r == Some(InvalidEmail) <==> !Blank(email) && !Blank(password) && '@' !in email
    ensures r == Some(ShortPassword) <==>
              !Blank(email) && !Blank(password) && '@' in email && Utf16Length(password) < 6
  {
    var cs := LoginChecks(email, password);
    FirstFailureOfThree(cs[0], cs[1], cs[2]);
    FirstFailure(cs)
  }

  /** The record stored under `userData`: exactly these six fields of the reply. */
  datatype UserData = UserData(
    token: Option<string>,
    id: Option<string>,
    role: Option<string>,
    avatar: Option<string>,
    name: Option<string>,
    email: Option<string>)

  function SessionOf(data: Body): UserData {
    UserData(data.token, data.id, data.role, data.avatar, data.name, data.email)
  }

  /** The keys of the stored record, in the order the handler writes them. */
  const SessionKeys: seq<string> := ["token", "id", "role", "avatar", "name", "email"]

  function SessionValues(u: UserData): seq<Option<string>> {
    [u.token, u.id, u.role, u.avatar, u.name, u.email]
  }

  /** The members `JSON.stringify` writes for `keys` and `vals`: a field that is undefined is left out. */
  function Fields(keys: seq<string>, vals: seq<Option<string>>): seq<Json.Member>
    requires |keys| == |vals|
  {
    if keys == [] then []
    else (if vals[0].Some? then [(keys[0], vals[0].value)] else []) + Fields(keys[1..], vals[1..])
  }

  /** `JSON.stringify({ token, id, role, avatar, name, email })`. */
  function SessionJson(u: UserData): (t: string)
    ensures |t| >= 2 && t[0] == '{' && t[|t| - 1] == '}'
  {
    Json.Stringify(Fields(SessionKeys, SessionValues(u)))
  }

  /** Reads a stored session record back. */
  function ReadSession(text: string): Option<UserData> {
    match Json.Parse(text)
    case None => None
    case Some(ms) =>
      Some(UserData(Json.Lookup(ms, "token"), Json.Lookup(ms, "id"), Json.Lookup(ms, "role"),
                    Json.Lookup(ms, "avatar"), Json.Lookup(ms, "name"), Json.Lookup(ms, "email")))
  }

  /** With distinct keys, looking a key up finds its own value, or nothing when that value was undefined. */
  lemma {:induction false} FieldsLookup(keys: seq<string>, vals: seq<Option<string>>, i: nat)
    requires |keys| == |vals| && i < |keys|
    requires forall p, q :: 0 <= p < q < |keys| ==> keys[p] != keys[q]
    ensures Json.Lookup(Fields(keys, vals), keys[i]) == vals[i]
  {
    var head: seq<Json.Member> := if vals[0].Some? then [(keys[0], vals[0].value)] else [];
    var tail := Fields(keys[1..], vals[1..]);
    assert Fields(keys, vals) == head + tail;
    Json.LookupAppend(head, tail, keys[i]);
    if i > 0 {
      assert keys[0] != keys[i];
      assert keys[1..][i - 1] == keys[i];
      FieldsLookup(keys[1..], vals[1..], i - 1);
    } else {
      FieldsAbsent(keys[1..], vals[1..], keys[0]);
    }
  }

  /** A field that is undefined is left out: no written member carries its key. */
  lemma FieldsOmitsUndefined(keys: seq<string>, vals: seq<Option<string>>, i: nat)
    requires |keys| == |vals| && i < |keys| && vals[i].None?
    requires forall p, q :: 0 <= p < q < |keys| ==> keys[p] != keys[q]
    ensures forall m :: m in Fields(keys, vals) ==> m.0 != keys[i]
  {
    FieldsLookup(keys, vals, i);
    forall m | m in Fields(keys, vals)
      ensures m.0 != keys[i]
    {
      Json.LookupMember(Fields(keys, vals), m);
    }
  }

  /** A key that is not one of the record's keys is not found in the written members. */
  lemma {:induction false} FieldsAbsent(keys: seq<string>, vals: seq<Option<string>>, key: string)
    requires |keys| == |vals|
    requires forall p :: 0 <= p < |keys| ==> keys[p] != key
    ensures Json.Lookup(Fields(keys, vals), key) == None
  {
    if keys != [] {
      var head: seq<Json.Member> := if vals[0].Some? then [(keys[0], vals[0].value)] else [];
      Json.LookupAppend(head, Fields(keys[1..], vals[1..]), key);
      FieldsAbsent(keys[1..], vals[1..], key);
    }
  }

  /** Each of the six fields is found under its own key in the written members. */
  lemma SessionLookups(u: UserData)
    ensures Json.Lookup(Fields(SessionKeys, SessionValues(u)), "token") == u.token
    ensures Json.Lookup(Fields(SessionKeys, SessionValues(u)), "id") == u.id
    ensures Json.Lookup(Fields(SessionKeys, SessionValues(u)), "role") == u.role
    ensures Json.Lookup(Fields(SessionKeys, SessionValues(u)), "avatar") == u.avatar
    ensures Json.Lookup(Fields(SessionKeys, SessionValues(u)), "name") == u.name
    ensures Json.Lookup(Fields(SessionKeys, SessionValues(u)), "email") == u.email
  {
    var vals := SessionValues(u);
    assert forall p, q :: 0 <= p < q < 6 ==> SessionKeys[p] != SessionKeys[q];
    FieldsLookup(SessionKeys, vals, 0);
    FieldsLookup(SessionKeys, vals, 1);
    FieldsLookup(SessionKeys, vals, 2);
    FieldsLookup(SessionKeys, vals, 3);
    FieldsLookup(SessionKeys, vals, 4);
    FieldsLookup(SessionKeys, vals, 5);
  }

  /** The stored record reads back as the very record that was stored. */
  lemma SessionRoundTrip(u: UserData)
    ensures ReadSession(SessionJson(u)) == Some(u)
  {
    Json.ParseStringify(Fields(SessionKeys, SessionValues(u)));
    SessionLookups(u);
  }

  /** `user = role`, then `user === 'driver'` picks the driver tabs and anything else the main tabs. */
  function RouteForRole(role: Option<string>): (r: Route)
    ensures r == DriverTabs <==> role == Some("driver")
    ensures r == MainTabs <==> role != Some("driver")
  {
    if role == Some("driver") then DriverTabs else MainTabs
  }

  datatype LoginOutcome =
    | Invalid(message: string)              // a check failed; no request was sent
    | Failed(message: string)               // the request was sent and did not sign in
    | LoggedIn(session: UserData, route: Route)

  /** What the request comes to once the form has passed every check. */
  function Response(reply: Reply): (o: LoginOutcome)
    ensures !o.Invalid?
    ensures o.LoggedIn? <==> reply.Responded? && reply.status != 0 && reply.data.Some?
    ensures o.LoggedIn? ==>
              (&& o.session.token == reply.data.value.token && o.session.id == reply.data.value.id
               && o.session.role == reply.data.value.role && o.session.avatar == reply.data.value.avatar
               && o.session.name == reply.data.value.name && o.session.email == reply.data.value.email)
    ensures o.LoggedIn? ==> (o.route == DriverTabs <==> o.session.role == Some("driver")) && o.route != AuthLogin
    ensures reply.Threw? ==> o == Failed(ErrorMessage(reply.failure, SignInError))
    ensures reply.Responded? && reply.data.None? ==> o == Failed(SignInError)
    ensures reply.Responded? && reply.status == 0 && reply.data.Some? ==> o == Failed(MessageOr(reply.data.value, LoginFailed))
  {
    match reply
    case Threw(f) => Failed(ErrorMessage(f, SignInError))
    case Responded(status, data) =>
      if data.None? then Failed(SignInError)   // reading a field of a null `data` throws a TypeError
      else if status != 0 then LoggedIn(SessionOf(data.value), RouteForRole(data.value.role))
      else Failed(MessageOr(data.value, LoginFailed))
  }

  /** What one press of "Sign In" comes to, for the form fields and the reply to the request. */
  function Outcome(email: string, password: string, reply: Reply): (o: LoginOutcome)
    ensures o.Invalid? <==> !Acceptable(email, password)
    ensures o.Invalid? ==> ValidateLogin(email, password) == Some(o.message)
    ensures !o.Invalid? ==> '@' in email && Utf16Length(password) >= 6 && !Blank(email) && !Blank(password)
    ensures o.LoggedIn? <==>
              Acceptable(email, password) && reply.Responded? && reply.status != 0 && reply.data.Some?
    ensures Acceptable(email, password) ==> o == Response(reply)
  {
    match ValidateLogin(email, password)
    case Some(message) => Invalid(message)
    case None => Response(reply)
  }

  /** The store after the press: a successful login writes `userData` and nothing else. */
  function StoreAfter(items: map<string, string>, o: LoginOutcome): (r: map<string, string>)
    ensures o.LoggedIn? ==> "userData" in r
    ensures forall k :: k != "userData" ==> (k in r <==> k in items) && (k in r ==> r[k] == items[k])
    ensures !o.LoggedIn? ==> r == items
  {
    if o.LoggedIn? then items["userData" := SessionJson(o.session)] else items
  }

  /** After a login, the stored `userData` reads back as the session. */
  lemma StoredSessionReadsBack(items: map<string, string>, o: LoginOutcome)
    requires o.LoggedIn?
    ensures "userData" in StoreAfter(items, o)
    ensures ReadSession(StoreAfter(items, o)["userData"]) == Some(o.session)
  {
    SessionRoundTrip(o.session);
  }

  /** Login never writes the `token` key that the start-up check reads. */
  lemma LoginLeavesTokenKey(items: map<string, string>, o: LoginOutcome)
    ensures ("token" in StoreAfter(items, o)) == ("token" in items)
    ensures "token" in items ==> StoreAfter(items, o)["token"] == items["token"]
  {
  }

  const TestCustomerEmail := "user@test.com"
  const TestDriverEmail := "driver@test.com"
  const TestPassword := "12345678"

  /** The test credentials the "Customer" and "Driver" buttons fill in pass every check. */
  lemma TestCredentialsAcceptable()
    ensures Acceptable(TestCustomerEmail, TestPassword)
    ensures Acceptable(TestDriverEmail, TestPassword)
  {
    assert TestCustomerEmail[4] == '@' && TestDriverEmail[6] == '@';
    assert !IsWhiteSpace(TestCustomerEmail[0]) && !IsWhiteSpace(TestDriverEmail[0]) && !IsWhiteSpace(TestPassword[0]);
    BlankIff(TestCustomerEmail);
    BlankIff(TestDriverEmail);
    BlankIff(TestPassword);
    assert Utf16Length(TestPassword) >= |TestPassword|;
  }

  /** A reply accepting a test account: a token, an id, the given role and the account's email. */
  function AcceptedReply(role: string, email: string): Reply {
    Responded(200, Some(EmptyBody.(token := Some("abc"), id := Some("1"), role := Some(role), email := Some(email))))
  }

  /**
   * The test customer, accepted with role `user`, lands on the main tabs,
   * and the stored `userData` reads back as the reply's fields.
   */
  lemma CustomerSignsIn(items: map<string, string>)
    ensures Outcome(TestCustomerEmail, TestPassword, AcceptedReply("user", TestCustomerEmail)).LoggedIn?
    ensures Outcome(TestCustomerEmail, TestPassword, AcceptedReply("user", TestCustomerEmail)).route == MainTabs
    ensures ReadSession(StoreAfter(items, Outcome(TestCustomerEmail, TestPassword, AcceptedReply("user", TestCustomerEmail)))["userData"])
         == Some(UserData(Some("abc"), Some("1"), Some("user"), None, None, Some(TestCustomerEmail)))
  {
    TestCredentialsAcceptable();
    StoredSessionReadsBack(items, Outcome(TestCustomerEmail, TestPassword, AcceptedReply("user", TestCustomerEmail)));
  }

  /** The test driver, accepted with role `driver`, lands on the driver tabs. */
  lemma DriverSignsIn(items: map<string, string>)
    ensures Outcome(TestDriverEmail, TestPassword, AcceptedReply("driver", TestDriverEmail)).LoggedIn?
    ensures Outcome(TestDriverEmail, TestPassword, AcceptedReply("driver", TestDriverEmail)).route == DriverTabs
    ensures ReadSession(StoreAfter(items, Outcome(TestDriverEmail, TestPassword, AcceptedReply("driver", TestDriverEmail)))["userData"])
         == Some(UserData(Some("abc"), Some("1"), Some("driver"), None, None, Some(TestDriverEmail)))
  {
    TestCredentialsAcceptable();
    StoredSessionReadsBack(items, Outcome(TestDriverEmail, TestPassword, AcceptedReply("driver", TestDriverEmail)));
  }

  class LoginScreen {
    var email: string
    var password: string
    var showPassword: bool
    var isLoading: bool
    /** Which test-user button is highlighted; it plays no part in routing. */
    var userType: string
    var showAlert: bool
    var alertTitle: string
    var alertMessage: string

    constructor ()
      ensures email == "" && password == "" && !showPassword && !isLoading && userType == "user"
      ensures !showAlert && alertTitle == "" && alertMessage == ""
    {
      email, password, showPassword, isLoading, userType := "", "", false, false, "user";
      showAlert, alertTitle, alertMessage := false, "", "";
    }

    /** `loginAsCustomer`: fills in the test customer's credentials; signs nobody in. */
    method LoginAsCustomer()
      modifies this`email, this`password, this`userType
      ensures email == TestCustomerEmail && password == TestPassword && userType == "user"
    {
      email, password, userType := TestCustomerEmail, TestPassword, "user";
    }

    /** `loginAsDriver`: fills in the test driver's credentials; signs nobody in. */
    method LoginAsDriver()
      modifies this`email, this`password, this`userType
      ensures email == TestDriverEmail && password == TestPassword && userType == "driver"
    {
      email, password, userType := TestDriverEmail, TestPassword, "driver";
    }

    /** Shows the screen's own alert after a failed request and stops loading. */
    method ShowFailure(message: string)
      modifies this`alertTitle, this`alertMessage, this`showAlert, this`isLoading
      ensures alertTitle == "Error" && alertMessage == message && showAlert && !isLoading
    {
      alertTitle := "Error";
      alertMessage := message;
      showAlert := true;
      isLoading := false;
    }

    /**
     * The success branch of `handleLogin`: writes the reply's fields to
     * `userData` and returns the role that picks the home screen.
     */
    method SaveSession(store: AsyncStore, data: Body) returns (role: Option<string>)
      modifies store
      ensures store.items == StoreAfter(old(store.items), LoggedIn(SessionOf(data), RouteForRole(data.role)))
      ensures role == data.role
    {
      var session := SessionOf(data);
      var text := SessionJson(session);
      store.SetItem("userData", text);
      role := session.role;
    }

    /**
     * The part of `handleLogin` after the checks: the request, storing the
     * session and leaving for the user's tabs, or the in-screen error alert.
     * A successful press leaves `isLoading` set, as the source does, since
     * the screen is replaced.
     */
    method Submit(store: AsyncStore, reply: Reply) returns (route: Option<Route>)
      modifies this`email, this`password, this`showPassword, this`isLoading
      modifies this`showAlert, this`alertTitle, this`alertMessage, store
      ensures store.items == StoreAfter(old(store.items), Response(reply))
      ensures route == if Response(reply).LoggedIn? then Some(Response(reply).route) else None
      ensures Response(reply).Failed? ==>
                email == old(email) && password == old(password) && showPassword == old(showPassword)
      ensures Response(reply).Failed? ==> !isLoading && showAlert && alertTitle == "Error"
      ensures Response(reply).Failed? ==> alertMessage == Response(reply).message
      ensures Response(reply).LoggedIn? ==> email == "" && password == "" && !showPassword && isLoading == old(isLoading)
      ensures Response(reply).LoggedIn? ==>
                showAlert == old(showAlert) && alertTitle == old(alertTitle) && alertMessage == old(alertMessage)
    {
      ghost var o := Response(reply);
      route := None;
      var user: Option<string> := Some("user");
      match reply {
        case Threw(f) =>
          assert o == Failed(ErrorMessage(f, SignInError));
          ShowFailure(ErrorMessage(f, SignInError));
          return;
        case Responded(status, data) =>
          if data.None? {
            assert o == Failed(SignInError);
            ShowFailure(SignInError);
            return;
          }
          if status != 0 {
            assert o == LoggedIn(SessionOf(data.value), RouteForRole(data.value.role));
            user := SaveSession(store, data.value);
          } else {
            assert o == Failed(MessageOr(data.value, LoginFailed));
            ShowFailure(MessageOr(data.value, LoginFailed));
            return;
          }
      }
      email, password, showPassword := "", "", false;
      route := Some(RouteForRole(user));
    }

    /**
     * `handleLogin`: returns the route it replaces the screen with and the
     * native alert it raises, if any.
     */
    method HandleLogin(store: AsyncStore, reply: Reply) returns (route: Option<Route>, nativeAlert: Option<Alert>)
      modifies this`email, this`password, this`showPassword, this`isLoading
      modifies this`showAlert, this`alertTitle, this`alertMessage, store
      ensures store.items == StoreAfter(old(store.items), Outcome(old(email), old(password), reply))
      ensures route == (var o := Outcome(old(email), old(password), reply); if o.LoggedIn? then Some(o.route) else None)
      ensures nativeAlert ==
                (var o := Outcome(old(email), old(password), reply); if o.Invalid? then Some(Alert("Error", o.message)) else None)
      ensures userType == old(userType)
      ensures Outcome(old(email), old(password), reply).Invalid? ==>
                email == old(email) && password == old(password) && showPassword == old(showPassword)
      ensures Outcome(old(email), old(password), reply).Invalid? ==> isLoading == old(isLoading)
      ensures !Outcome(old(email), old(password), reply).Failed? ==>
                showAlert == old(showAlert) && alertTitle == old(alertTitle) && alertMessage == old(alertMessage)
      ensures Outcome(old(email), old(password), reply).Failed? ==>
                email == old(email) && password == old(password) && showPassword == old(showPassword)
      ensures Outcome(old(email), old(password), reply).Failed? ==> !isLoading && showAlert && alertTitle == "Error"
      ensures Outcome(old(email), old(password), reply).Failed? ==>
                alertMessage == Outcome(old(email), old(password), reply).message
      ensures Outcome(old(email), old(password), reply).LoggedIn? ==>
                email == "" && password == "" && !showPassword && isLoading
    {
      ghost var o := Outcome(email, password, reply);
      nativeAlert := None;
      var invalid := ValidateLogin(email, password);
      if invalid.Some? {
        assert o == Invalid(invalid.value);
        nativeAlert := Some(Alert("Error", invalid.value));
        route := None;
        return;
      }
      assert o == Response(reply);
      isLoading := true;
      route := Submit(store, reply);
    }
  }
}
