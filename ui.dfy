/** What the handlers show and where they navigate: alerts and `router.replace` targets. */
module Ui {

  datatype Route = DriverTabs | MainTabs | AuthLogin

  /** The expo-router path of each route: it records the `router.replace` strings, and the handlers' contracts speak of the route itself. */
  function Path(r: Route): (p: string)
    ensures r == DriverTabs <==> p == "/(driver)/(tabs)"
    ensures r == MainTabs <==> p == "/(main)/(tabs)"
    ensures r == AuthLogin <==> p == "/auth/login"
  {
    match r
    case DriverTabs => "/(driver)/(tabs)"
    case MainTabs => "/(main)/(tabs)"
    case AuthLogin => "/auth/login"
  }

  /** The title and message of an alert, native (`Alert.alert`) or the screen's own. */
  datatype Alert = Alert(title: string, message: string)
}
