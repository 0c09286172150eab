/**
 * The root layout (app/_layout.tsx): at start-up it looks for a stored
 * token, asks the backend whether it is still good, sends a driver or a
 * customer straight to their tabs, forgets a token the backend refuses,
 * and keeps the navigator hidden until both the fonts and this check are
 * done.
 */
module RootLayout {
  import opened Wrappers
  import opened JsString
  import opened Backend
  import opened Ui
  import Storage
  import Login

  const TokenKey := "token"

  /** What `AsyncStorage.getItem('token')` yields for a store holding `items`. */
  function StoredToken(items: map<string, string>): (t: Option<string>)
    ensures t.Some? <==> TokenKey in items
    ensures t.Some? ==> t.value == items[TokenKey]
  {
    if TokenKey in items then Some(items[TokenKey]) else None
  }

  /** `user?.userType`: a driver or a customer gets a destination, anyone else none. */
  function UserRoute(user: Option<UserInfo>): (r: Option<Route>)
    ensures r == Some(DriverTabs) <==> user.Some? && user.value.userType == Some("driver")
    ensures r == Some(MainTabs) <==> user.Some? && user.value.userType == Some("user")
    ensures r != Some(AuthLogin)
  {
    if user.Some? && user.value.userType == Some("driver") then Some(DriverTabs)
    else if user.Some? && user.value.userType == Some("user") then Some(MainTabs)
    else None
  }

  /**
   * What one run of `checkToken` decides: the token it posts to
   * `/auth/check-token` (if any), where it sends the user, and whether it
   * removes the stored token.
   */
  datatype TokenCheck = TokenCheck(sent: Option<string>, route: Option<Route>, removeToken: bool)

  function DecideToken(stored: Option<string>, reply: Reply): (d: TokenCheck)
    // A request goes out exactly for a truthy token, and it carries that token.
    ensures d.sent.Some? <==> Truthy(stored)
    ensures d.sent.Some? ==> d.sent == stored
    ensures d.sent.None? ==> d.route.None? && !d.removeToken
    // Only an accepted token with a known user type leads anywhere, and never to the login screen.
    ensures d.route == Some(DriverTabs) <==>
      Truthy(stored) && reply.Responded? && reply.status == 200 && reply.data.Some?
      && reply.data.value.user.Some? && reply.data.value.user.value.userType == Some("driver")
    ensures d.route == Some(MainTabs) <==>
      Truthy(stored) && reply.Responded? && reply.status == 200 && reply.data.Some?
      && reply.data.value.user.Some? && reply.data.value.user.value.userType == Some("user")
    ensures d.route != Some(AuthLogin)
    // A refused token, a failed request or a reply without a body (destructuring
    // null throws) removes the token; an accepted one is kept.
    ensures d.removeToken <==>
      Truthy(stored) && !(reply.Responded? && reply.status == 200 && reply.data.Some?)
    ensures d.removeToken ==> d.route.None?
  {
    if !Truthy(stored) then TokenCheck(None, None, false)
    else match reply
      case Threw(_) => TokenCheck(stored, None, true)
      case Responded(status, data) =>
        if status != 200 then TokenCheck(stored, None, true)
        else if data.None? then TokenCheck(stored, None, true)
        else TokenCheck(stored, UserRoute(data.value.user), false)
  }

  /** The store after a check that decided `d`. */
  function StoreAfter(items: map<string, string>, d: TokenCheck): (r: map<string, string>)
    ensures d.removeToken ==> TokenKey !in r && forall k :: k in items && k != TokenKey ==> k in r && r[k] == items[k]
    ensures d.removeToken ==> forall k :: k in r ==> k in items
    ensures !d.removeToken ==> r == items
  {
    if d.removeToken then items - {TokenKey} else items
  }

  /** Once a token has been removed, the next start-up sends nothing. */
  lemma RemovedTokenNotResent(items: map<string, string>, first: Reply, again: Reply)
    requires DecideToken(StoredToken(items), first).removeToken
    ensures DecideToken(StoredToken(StoreAfter(items, DecideToken(StoredToken(items), first))), again).sent.None?
  {
  }

  /** A token the backend accepted stays, so the next start-up posts the same token again. */
  lemma AcceptedTokenResent(items: map<string, string>, first: Reply, again: Reply)
    requires DecideToken(StoredToken(items), first).route.Some?
    ensures DecideToken(StoredToken(StoreAfter(items, DecideToken(StoredToken(items), first))), again).sent
         == Some(items[TokenKey])
  {
  }

  /**
   * Logging in stores the session under "userData" only, so it never gives
   * the start-up check a token it did not already have.
   */
  lemma LoginDoesNotEnableStartup(items: map<string, string>, o: Login.LoginOutcome, reply: Reply)
    requires TokenKey !in items
    ensures DecideToken(StoredToken(Login.StoreAfter(items, o)), reply).sent.None?
  {
    Login.LoginLeavesTokenKey(items, o);
  }

  class RootLayoutState {
    var fontsLoaded: bool
    var isTokenChecked: bool
    var splashHidden: bool

    constructor ()
      ensures !fontsLoaded && !isTokenChecked && !splashHidden
      ensures !Renders()
    {
      fontsLoaded, isTokenChecked, splashHidden := false, false, false;
    }

    /** `useFonts` reports the Inter faces loaded. */
    method FontsDidLoad()
      modifies this`fontsLoaded
      ensures fontsLoaded
      ensures Renders() <==> isTokenChecked
    {
      fontsLoaded := true;
    }

    /**
     * One run of the effect's `checkToken`, with `reply` standing for the
     * backend's answer; the `finally` marks the check done and hides the
     * splash screen when the fonts are in.
     */
    method CheckToken(store: Storage.AsyncStore, reply: Reply) returns (route: Option<Route>, sent: Option<string>)
      modifies this`isTokenChecked, this`splashHidden, store
      ensures sent == DecideToken(StoredToken(old(store.items)), reply).sent
      ensures route == DecideToken(StoredToken(old(store.items)), reply).route
      ensures store.items == StoreAfter(old(store.items), DecideToken(StoredToken(old(store.items)), reply))
      ensures isTokenChecked
      ensures splashHidden == (old(splashHidden) || fontsLoaded)
      ensures Renders() <==> fontsLoaded
    {
      ghost var d := DecideToken(StoredToken(store.items), reply);
      route, sent := None, None;
      var token := store.GetItem(TokenKey);
      if token.Some? && token.value != "" {
        sent := token;
        match reply {
          case Threw(_) =>
            store.RemoveItem(TokenKey);
          case Responded(status, data) =>
            if status == 200 {
              if data.None? {
                store.RemoveItem(TokenKey);
              } else {
                route := UserRoute(data.value.user);
              }
            } else {
              store.RemoveItem(TokenKey);
            }
        }
      }
      isTokenChecked := true;
      if fontsLoaded {
        splashHidden := true;
      }
    }

    /** The navigator renders only once the fonts are loaded and the token check is done. */
    function Renders(): (b: bool)
      reads this
      ensures b <==> fontsLoaded && isTokenChecked
    {
      fontsLoaded && isTokenChecked
    }
  }
}
