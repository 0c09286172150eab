# Water-delivery app: authentication and start-up, in Dafny

This project models the part of the water-delivery mobile app that decides
who gets in and where they go:

- the **login** screen: form checks, the call to `/auth/login`, storing the
  session record under `userData`, and routing drivers and customers to
  their own tab sets;
- the **sign-up** screen: the registration form, its four checks and the
  call to `/auth/signup`;
- the **forgot-password** screen: the email check, the reset request, the
  "check your email" view and the resend button;
- the **OTP** screen: six one-character inputs, moving focus between them,
  the completeness check and the 30-second resend cool-down;
- the **root layout**: the start-up check of a stored `token` against
  `/auth/check-token`, and the splash screen that stays up until the fonts
  are loaded and that check is done.

On the login, sign-up, forgot-password and root-layout screens, each
request handler is written twice. A pure function gives its outcome (which
alert, which route, what is stored) for the form contents and the backend's
reply. A method of a class holding the screen's state does what the handler
does step by step, and its `ensures` ties the new state to that function.
The OTP screen's handlers make no request. Their methods state the new
slots, focus, timer and alert directly.
The backend's answer is a parameter (`Backend.Reply`): either a response
with a status and an optional JSON body, or a thrown error. The stored data
is a `Storage.AsyncStore` object over a `map<string, string>`.

JavaScript semantics the handlers rely on are written out:

- `String.prototype.trim` uses the ECMAScript white-space and line-terminator set;
- `.length` counts UTF-16 code units;
- a string is truthy when it is present and non-empty;
- `a || b || c` picks the first truthy value;
- `JSON.stringify` of the session record is modelled, and a parser is provided as its inverse.

## Model

| member | source | states |
|---|---|---|
| JsString.Trim | app/auth/login.tsx:41 | `s.trim()` is no longer than `s` and neither starts nor ends with white space; `JsString.BlankIff` characterises when it is empty |
| JsString.BlankIff | app/auth/login.tsx:41 | `!s.trim()` holds exactly when every character of `s` is white space or a line terminator |
| JsString.TrimStartSuffix | app/auth/login.tsx:41 | trimming the front leaves a suffix; everything removed is white space; the new first character is not |
| JsString.TrimEndPrefix | app/auth/login.tsx:41 | trimming the end leaves a prefix; everything removed is white space; the new last character is not |
| JsString.Utf16Length | app/auth/login.tsx:51 | `.length` is between the number of characters and twice that, and is 0 only for the empty string |
| JsString.Utf16LengthAppend | app/auth/otp.tsx:47 | the code-unit length of a concatenation is the sum of the lengths |
| Validation.FirstFailureIndex | app/auth/login.tsx:41-54 | the checks before the index all pass, and the check at the index fails |
| Validation.FirstFailure | app/auth/login.tsx:41-54 | no message exactly when every check passes; otherwise the message of the first failing check, in source order |
| Validation.FirstFailureOfThree | app/auth/login.tsx:41-54 | three checks in a row reject with the first failing one's message, or accept |
| Validation.FirstFailureOfFour | app/auth/signup.tsx:48-81 | four checks in a row reject with the first failing one's message, or accept |
| Validation.FirstFailureCons | app/auth/signup.tsx:48-81 | a chain of early returns stops at its first failing check |
| Backend.FirstTruthyIndex | app/auth/login.tsx:84-87 | `a \|\| b \|\| ...` picks the first truthy operand |
| Backend.OrElseFirstTruthy | app/auth/login.tsx:84-87 | `Backend.OrElse`, the chain `a \|\| b \|\| ... \|\| last`, is `last` when no operand is truthy, and otherwise its first truthy operand |
| Backend.OrElseCons | app/auth/login.tsx:84-87 | unfolding `c \|\| rest` gives `c` when it is truthy and `rest` otherwise |
| Backend.ErrorMessage | app/auth/login.tsx:81-88 | a non-axios error gives the screen's default text; an axios error gives `data.error`, else `data.message`, else the error's own message |
| Backend.MessageOr | app/auth/login.tsx:76 | `response.data.message \|\| fallback` |
| Ui.Path | app/auth/login.tsx:105-109 | the three destinations and their router paths, which are distinct |
| Json.HexDigit | app/auth/login.tsx:71 | the digit used in a `\u00XX` escape is a hex digit that reads back as its value |
| Json.ParseString | app/auth/login.tsx:71 | reading a string literal consumes at least its closing quote |
| Json.ControlEscapeRoundTrip | app/auth/login.tsx:71 | a control character without a short escape is written as `\u00XX`, and that reads back as the character |
| Json.EscapeCharRoundTrip | app/auth/login.tsx:71 | reading back the escape `JSON.stringify` writes for one character gives that character |
| Json.StringRoundTrip | app/auth/login.tsx:71 | a quoted, escaped string reads back as itself and leaves the rest of the text alone |
| Json.ParseMembers | app/auth/login.tsx:71 | reading the members of an object consumes input |
| Json.ParseMembersUnfold | app/auth/login.tsx:71 | reading one `"key":"value"` member followed by more text |
| Json.MemberStrings | app/auth/login.tsx:71 | the key and value strings of a written `"key":"value"` member read back as themselves |
| Json.MemberStep | app/auth/login.tsx:71 | after one member, what follows is `,` then the next member, or the closing `}` |
| Json.MembersRoundTrip | app/auth/login.tsx:71 | the members, written out, read back as themselves |
| Json.Stringify | app/auth/login.tsx:71 | `JSON.stringify` of a string-valued object is brace-delimited, and `{}` only for no members; `Json.ParseStringify` is its inverse |
| Json.ParseStringify | app/auth/login.tsx:71 | any string-valued object, written by `JSON.stringify`, reads back as itself |
| Json.LookupMember | app/auth/login.tsx:71 | every written member is found when its key is looked up |
| Json.LookupAppend | app/auth/login.tsx:71 | looking up a key in two concatenated member lists looks in the first list, then in the second |
| Storage.AsyncStore.constructor | app/auth/login.tsx:71 | a fresh store holds no keys |
| Storage.AsyncStore.GetItem | app/_layout.tsx:33 | `getItem` gives the stored value, or null when the key is absent |
| Storage.AsyncStore.SetItem | app/auth/login.tsx:71 | `setItem` binds the key to the value and leaves every other key as it was |
| Storage.AsyncStore.RemoveItem | app/_layout.tsx:49 | `removeItem` unbinds the key and leaves every other key as it was |
| Login.ValidateLogin | app/auth/login.tsx:41-54 | blank email or password, then no `@`, then a password under 6 code units, each with its own message; none when all checks pass |
| Login.FieldsLookup | app/auth/login.tsx:70-71 | every field present in the session record can be found under its key |
| Login.FieldsOmitsUndefined | app/auth/login.tsx:70-71 | a field that is undefined is left out of the record, as `JSON.stringify` does: no written member carries its key |
| Login.FieldsAbsent | app/auth/login.tsx:70-71 | a key that is not one of the record's keys is not found in the written members |
| Login.SessionJson | app/auth/login.tsx:71 | the `userData` text is one JSON object; `Login.SessionRoundTrip` proves it reads back as exactly the reply's six fields |
| Login.SessionLookups | app/auth/login.tsx:70-71 | each of token, id, role, avatar, name and email is found under its own key, or is absent when undefined |
| Login.SessionRoundTrip | app/auth/login.tsx:70-71 | the stored `userData` text reads back as the token, id, role, avatar, name and email of the reply |
| Login.RouteForRole | app/auth/login.tsx:72-109 | a role of exactly `driver` goes to the driver tabs; any other role, or none, goes to the main tabs |
| Login.Response | app/auth/login.tsx:61-94 | a truthy status with a body logs in with that body's fields and role; a status of 0 shows `data.message` or the default; a missing body or a thrown error shows the error message chain |
| Login.Outcome | app/auth/login.tsx:40-109 | an invalid form is rejected before any request, with the first failing check's message; a valid one comes to `Login.Response` of the reply |
| Login.StoreAfter | app/auth/login.tsx:71 | only a login stores `userData`; no other key changes; any other outcome leaves the store as it was |
| Login.StoredSessionReadsBack | app/auth/login.tsx:71 | after a login, the stored `userData` text reads back as the session |
| Login.LoginLeavesTokenKey | app/auth/login.tsx:71 | logging in never creates, removes or changes the `token` key |
| Login.TestCredentialsAcceptable | app/auth/login.tsx:116-132 | the test customer and driver credentials pass the form checks |
| Login.CustomerSignsIn | app/auth/login.tsx:116-123 | the test customer, accepted with role `user`, goes to the main tabs, and the stored `userData` reads back as the reply's fields |
| Login.DriverSignsIn | app/auth/login.tsx:125-132 | the test driver, accepted with role `driver`, goes to the driver tabs, and the stored `userData` reads back as the reply's fields |
| Login.LoginScreen.constructor | app/auth/login.tsx:29-38 | the initial screen state |
| Login.LoginScreen.LoginAsCustomer | app/auth/login.tsx:116-123 | fills in the customer test account and selects the customer type |
| Login.LoginScreen.LoginAsDriver | app/auth/login.tsx:125-132 | fills in the driver test account and selects the driver type |
| Login.LoginScreen.ShowFailure | app/auth/login.tsx:75-78 | raises the in-screen error alert and stops loading |
| Login.LoginScreen.SaveSession | app/auth/login.tsx:70-72 | the store becomes `Login.StoreAfter` of a login with the reply's fields, and the role returned is the reply's role |
| Login.LoginScreen.Submit | app/auth/login.tsx:58-109 | the store, alert, form fields and route after the request are exactly those `Login.Response` and `Login.StoreAfter` give; a failure stops loading |
| Login.LoginScreen.HandleLogin | app/auth/login.tsx:40-110 | the store, alerts, form fields, loading flag and route after the handler are exactly those `Login.Outcome` and `Login.StoreAfter` give |
| Signup.UpdateFormData | app/auth/signup.tsx:130-132 | the named field takes the new value and every other field keeps its value |
| Signup.ValidateSignup | app/auth/signup.tsx:48-81 | a blank field other than portion, then no `@`, then a short password, then a mismatched confirmation; none when all checks pass |
| Signup.Outcome | app/auth/signup.tsx:47-113 | an invalid form is rejected before any request; a body with a truthy `msg` succeeds and goes to login; otherwise `data.message` or the default is shown; a missing body or a thrown error shows the error message chain |
| Signup.PortionStaysValid | app/auth/signup.tsx:245-268 | with only the two portion buttons setting it, the portion stays `upper` or `lower` after any sequence of edits |
| Signup.InitialPortionValid | app/auth/signup.tsx:35 | the form starts with the `upper` portion |
| Signup.SignupScreen.constructor | app/auth/signup.tsx:29-45 | the initial screen state |
| Signup.SignupScreen.Update | app/auth/signup.tsx:130-132 | the form becomes `Signup.UpdateFormData` of the old form |
| Signup.SignupScreen.ShowAlert | app/auth/signup.tsx:56-58 | raises the in-screen alert with the given title and message |
| Signup.SignupScreen.HandleSignup | app/auth/signup.tsx:47-113 | the alert and route are exactly those `Signup.Outcome` gives, and loading ends whatever the outcome |
| ForgotPassword.ValidateEmail | app/auth/forgot-password.tsx:31-39 | a blank email, then one without `@`, each with its own message; none when both checks pass |
| ForgotPassword.Outcome | app/auth/forgot-password.tsx:30-69 | an invalid email is rejected before any request; status 200 means sent; another status shows `data.message` or the default; a missing body or a thrown error shows the error message chain |
| ForgotPassword.ForgotPasswordScreen.constructor | app/auth/forgot-password.tsx:25-27 | the initial screen state |
| ForgotPassword.ForgotPasswordScreen.CurrentView | app/auth/forgot-password.tsx:80 | the "check your email" view shows exactly when the email has been sent; the constructor starts on the form, a send switches views only on success, and resend shows it exactly when the new request succeeds |
| ForgotPassword.ForgotPasswordScreen.HandleSendResetEmail | app/auth/forgot-password.tsx:30-69 | the sent flag, the loading flag and the alert are exactly those `ForgotPassword.Outcome` gives; the view switches to "check your email" only on success |
| ForgotPassword.ForgotPasswordScreen.HandleResendEmail | app/auth/forgot-password.tsx:71-74 | clears the sent flag and sends again; the flag ends up set exactly when the new request succeeds |
| ForgotPassword.ResendPassesChecks | app/auth/forgot-password.tsx:71-74 | an email that was sent once passes the checks again on resend |
| Otp.JoinedLength | app/auth/otp.tsx:47-48 | with at most one code unit per slot, the joined code has length 6 exactly when no slot is empty |
| Otp.Join | app/auth/otp.tsx:47 | `otp.join('')` is empty exactly when every slot is; `Otp.JoinedLength` gives its length |
| Otp.Tick | app/auth/otp.tsx:20-27 | each second takes a positive timer down by one and leaves 0 alone |
| Otp.AfterTicksFloor | app/auth/otp.tsx:20-27 | after `n` seconds the timer reads `timer - n`, but never less than 0 |
| Otp.OtpScreen.constructor | app/auth/otp.tsx:15-16 | six empty slots and a 30-second timer; resend starts disabled |
| Otp.OtpScreen.HandleOtpChange | app/auth/otp.tsx:29-38 | the slots are replaced by a copy with slot `index` set to the value; a non-empty value moves focus to the next input, if there is one |
| Otp.OtpScreen.HandleBackspace | app/auth/otp.tsx:40-44 | on an empty input other than the first, focus moves back by one; otherwise focus stays |
| Otp.OtpScreen.HandleVerifyOtp | app/auth/otp.tsx:46-55 | goes to the main tabs exactly when all six slots are filled; otherwise shows "Please enter complete OTP" |
| Otp.OtpScreen.TickTimer | app/auth/otp.tsx:20-27 | the timer becomes `Otp.Tick` of the old timer |
| Otp.OtpScreen.ResendDisabled | app/auth/otp.tsx:112 | the button is disabled exactly while the timer is positive; the screen starts disabled, and `HandleResendOtp` does nothing exactly when it was disabled |
| Otp.OtpScreen.HandleResendOtp | app/auth/otp.tsx:57-62 | at 0 the timer restarts at 30 and a success alert shows; otherwise nothing changes; it does nothing exactly when the button was disabled |
| RootLayout.StoredToken | app/_layout.tsx:33 | what `getItem('token')` yields for a given store |
| RootLayout.UserRoute | app/_layout.tsx:42-47 | a driver goes to the driver tabs, a customer to the main tabs, any other user type nowhere |
| RootLayout.DecideToken | app/_layout.tsx:31-54 | a request goes out exactly for a truthy token; only status 200 with a body and a known user type routes anywhere, never to login; the token is removed exactly when the request fails, is refused or has no body |
| RootLayout.StoreAfter | app/_layout.tsx:48-54 | a removal unbinds only `token`; otherwise the store is unchanged |
| RootLayout.RemovedTokenNotResent | app/_layout.tsx:36-49 | after a removal, the next start-up sends no request |
| RootLayout.AcceptedTokenResent | app/_layout.tsx:36-47 | an accepted token is kept, and the next start-up posts it again |
| RootLayout.LoginDoesNotEnableStartup | app/_layout.tsx:33-36 | a device with no `token` still sends no start-up request after any login |
| RootLayout.RootLayoutState.constructor | app/_layout.tsx:21-28 | nothing is loaded, checked or hidden yet; the navigator does not render |
| RootLayout.RootLayoutState.FontsDidLoad | app/_layout.tsx:21-26 | the fonts are marked loaded |
| RootLayout.RootLayoutState.CheckToken | app/_layout.tsx:31-61 | the request, route and store are exactly those `RootLayout.DecideToken` gives; the check is marked done; the splash is hidden when the fonts are in; afterwards the navigator renders exactly when the fonts are in |
| RootLayout.RootLayoutState.Renders | app/_layout.tsx:67-69 | the navigator renders exactly when fonts and token check are both done; not at first, and after `CheckToken` exactly when the fonts are in |

## Left out

- The JSX, styles, icons, gradients and the `CustomAlert` component: these are
  drawn rather than decided, so only the alert's title, message and visibility
  are modelled.
- `console.log` and `console.error` calls, which have no effect on the state.
- Network I/O. The reply is an input, and it does not depend on what the app sends.
  Axios throws on a non-2xx status, so such a reply arrives as a thrown error.
  The model still accepts any status in a response, which covers both cases.
- Reply fields are strings or absent. A numeric `id` or a non-string `role`,
  and any JSON value other than a string, are not modelled. `JSON.stringify`
  and its parser are modelled only for flat objects of strings.
- Failures of the storage itself, such as `getItem` or `setItem` rejecting.
- Asynchrony and interleaving. Each handler runs to completion in one step,
  so a second tap while a request is in flight is not modelled.
- The timing of effect re-runs. Each `RootLayout.RootLayoutState.CheckToken`
  call is one run of the effect, and the caller decides when it happens, for
  example once before and once after `FontsDidLoad`.
- Otp.OtpScreen: the interval's scheduling and clean-up are collapsed into
  `TickTimer`, and the "Resend in Ns" label text is not modelled, because
  integer-to-string formatting adds nothing to the model.
- Otp.OtpScreen.HandleOtpChange: `maxLength={1}` on each input is a
  precondition here, so values longer than one code unit are not modelled.
- `handleForgotPassword`, `handleBackToLogin` and the back buttons: each only
  pushes or pops a route.
- `useFrameworkReady`: a framework hook whose code is not part of this model.
  The root layout only imports and calls it.
- `SplashScreen.preventAutoHideAsync` at module load: the splash is modelled as
  shown until `splashHidden` is set.
- The start-up check never sends a user to the login screen when the token is
  missing or refused. It only removes the token, and the model follows that code.
- Login.LoginScreen.HandleLogin: as in the code, the success path leaves
  `isLoading` set. The role stored for routing is the reply's `role`, and the
  user type the screen selects is not used.
- `userData` and `token`: login writes only `userData`, and the start-up check
  reads only `token`. The model keeps the two keys distinct, as the code does,
  and `RootLayout.LoginDoesNotEnableStartup` states the consequence.
- The other screens, the tab layouts and the shared components are not part of
  this model.
