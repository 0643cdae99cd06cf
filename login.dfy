/** The login page: the device name and icon derived from the browser's
    user-agent text, where the returned token is stored, and the redirect
    on mount when a persistent token already exists. */
module Login {

  import opened Common
  import opened Credentials

  /** `sub` occurs in `s` starting at position `i`. */
  predicate OccursAt(s: string, sub: string, i: int) {
    0 <= i <= |s| - |sub| && s[i..i + |sub|] == sub
  }

  /** `s.includes(sub)` (and a one-word regular expression's `test`). */
  predicate Contains(s: string, sub: string) {
    exists i | 0 <= i <= |s| - |sub| :: OccursAt(s, sub, i)
  }

  /** The browser part of the device name: the first of Firefox, Chrome,
      Safari and Edg that the user agent contains, else Unknown. */
  function BrowserName(ua: string): (r: string)
    ensures r == "Firefox" <==> Contains(ua, "Firefox")
    ensures r == "Chrome" <==> !Contains(ua, "Firefox") && Contains(ua, "Chrome")
    ensures r == "Safari" <==> !Contains(ua, "Firefox") && !Contains(ua, "Chrome") && Contains(ua, "Safari")
    ensures r == "Edge" <==>
      !Contains(ua, "Firefox") && !Contains(ua, "Chrome") && !Contains(ua, "Safari") && Contains(ua, "Edg")
    ensures r == "Unknown" <==>
      !Contains(ua, "Firefox") && !Contains(ua, "Chrome") && !Contains(ua, "Safari") && !Contains(ua, "Edg")
  {
    if Contains(ua, "Firefox") then "Firefox"
    else if Contains(ua, "Chrome") then "Chrome"
    else if Contains(ua, "Safari") then "Safari"
    else if Contains(ua, "Edg") then "Edge"
    else "Unknown"
  }

  /** getDeviceName: `${platform} ${browser}`. */
  function DeviceName(platform: string, ua: string): string {
    platform + " " + BrowserName(ua)
  }

  /** The device name splits back into the platform and one of the five browser names. */
  lemma DeviceNameParts(platform: string, ua: string)
    ensures var d := DeviceName(platform, ua);
      && d[..|platform|] == platform && d[|platform|] == ' '
      && d[|platform| + 1..] in {"Firefox", "Chrome", "Safari", "Edge", "Unknown"}
  {
    var d := DeviceName(platform, ua);
    assert d[|platform| + 1..] == BrowserName(ua);
  }

  /** A user agent that names both Chrome and Edg (as Microsoft Edge's
      does) but not Firefox is reported as Chrome, never as Edge. */
  lemma EdgeReportedAsChrome(ua: string)
    requires Contains(ua, "Chrome") && Contains(ua, "Edg") && !Contains(ua, "Firefox")
    ensures BrowserName(ua) == "Chrome" && BrowserName(ua) != "Edge"
  {
  }

  datatype DeviceIcon = Smartphone | Monitor

  /** getDeviceIcon: the phone icon when the user agent matches
      Mobile|Android|iPhone|iPad or Tablet|iPad, else the monitor icon. */
  function GetDeviceIcon(ua: string): (r: DeviceIcon)
    ensures r == Smartphone <==>
      Contains(ua, "Mobile") || Contains(ua, "Android") || Contains(ua, "iPhone")
      || Contains(ua, "iPad") || Contains(ua, "Tablet")
  {
    if Contains(ua, "Mobile") || Contains(ua, "Android") || Contains(ua, "iPhone") || Contains(ua, "iPad") then Smartphone
    else if Contains(ua, "Tablet") || Contains(ua, "iPad") then Smartphone
    else Monitor
  }

  /** The login reply: `{success, message, token}`. */
  datatype LoginReply = LoginReply(success: JsFlag, message: string, token: Option<string>)

  /** `setItem("authToken", data.token)` stores a missing token as the text "undefined". */
  function StoredToken(token: Option<string>): string {
    token.GetOr("undefined")
  }

  class LoginPage {
    var email: string
    var password: string
    var rememberMe: bool
    var loading: bool
    var log: seq<Event>

    constructor ()
      ensures email == "" && password == "" && !rememberMe && !loading && log == []
    {
      email := "";
      password := "";
      rememberMe := false;
      loading := false;
      log := [];
    }

    /** The mount effect: only a localStorage token redirects to the dashboard;
        a token held only in sessionStorage does not. */
    method Mount(store: CredentialStore)
      modifies this`log
      ensures log == old(log) + (if store.HasPersistentToken() then [Navigate("/dashboard")] else [])
    {
      if store.HasPersistentToken() {
        log := log + [Navigate("/dashboard")];
      }
    }

    method SetCredentials(email: string, password: string)
      modifies this`email, this`password
      ensures this.email == email && this.password == password
    {
      this.email := email;
      this.password := password;
    }

    /** The remember-me checkbox. */
    method ToggleRememberMe()
      modifies this`rememberMe
      ensures rememberMe == !old(rememberMe)
    {
      rememberMe := !rememberMe;
    }

    /** handleSubmit up to its first await: loading is set and the login
        request carries the device name built from the user agent. */
    method StartSubmit(platform: string, ua: string)
      modifies this`loading, this`log
      ensures loading
      ensures log == old(log) + [Request(Login(email, password, DeviceName(platform, ua)))]
    {
      loading := true;
      log := log + [Request(Login(email, password, DeviceName(platform, ua)))];
    }

    /** handleSubmit after the reply: a token is stored only for an ok reply
        whose success is the literal true, in exactly one store chosen by
        remember-me; every other outcome stores nothing and raises an error
        toast; loading is cleared in every case. */
    method SettleSubmit(reply: Reply<LoginReply>, store: CredentialStore)
      modifies this`loading, this`log, store
      ensures !loading
      ensures match reply
        case Threw(e) =>
          log == old(log) + [Toast(Error, OrText(e, "Login failed. Please try again."))] && unchanged(store)
        case Replied(ok, body) =>
          if ok && body.success.IsTrue() then
            && log == old(log) + [Toast(Success, OrText(body.message, "Login successful"))]
            && (rememberMe ==> store.local == Some(StoredToken(body.token)) && store.session == old(store.session))
            && (!rememberMe ==> store.session == Some(StoredToken(body.token)) && store.local == old(store.local))
          else
            log == old(log) + [Toast(Error, OrText(body.message, "Login failed"))] && unchanged(store)
    {
      match reply {
        case Threw(e) =>
          log := log + [Toast(Error, OrText(e, "Login failed. Please try again."))];
        case Replied(ok, body) =>
          if !ok {
            // `throw new Error(data.message || "Login failed")`, caught below it.
            log := log + [Toast(Error, OrText(OrText(body.message, "Login failed"), "Login failed. Please try again."))];
          } else if body.success.IsTrue() {
            store.Save(rememberMe, StoredToken(body.token));
            log := log + [Toast(Success, OrText(body.message, "Login successful"))];
          } else {
            log := log + [Toast(Error, OrText(body.message, "Login failed"))];
          }
      }
      loading := false;
    }
  }
}
