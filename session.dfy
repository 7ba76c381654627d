/** The session rules: the gate run when a page has loaded, the login form
    handler and the logout button. The `loggedIn` entry of the session
    storage is a flag; the page location is the last address navigated to. */
module Session {
  import opened Text
  import opened Values

  /** What the `DOMContentLoaded` handler does. */
  datatype GateAction = RedirectToLogin | InitDashboard | AttachLogin | Nothing

  /** The gate for a page whose path is `path`. The dashboard page needs
      the flag and otherwise sends the visitor to the login page; every
      other page wires up the login form when it has one. */
  function Gate(path: string, loggedIn: bool, hasLoginForm: bool): (a: GateAction)
    ensures a == RedirectToLogin <==> Contains(path, "dashboard.html") && !loggedIn
    ensures a == InitDashboard <==> Contains(path, "dashboard.html") && loggedIn
    ensures a == AttachLogin <==> !Contains(path, "dashboard.html") && hasLoginForm
  {
    if Contains(path, "dashboard.html") then
      if !loggedIn then RedirectToLogin else InitDashboard
    else if hasLoginForm then AttachLogin
    else Nothing
  }

  /** The address the login handler navigates to is gated as the
      dashboard, so a visitor who has just logged in reaches it. */
  lemma LoginLandsOnDashboard(hasLoginForm: bool)
    ensures Gate("/dashboard.html", true, hasLoginForm) == InitDashboard
    ensures Gate("/dashboard.html", false, hasLoginForm) == RedirectToLogin
  {
    assert OccursAt("/dashboard.html", "dashboard.html", 1);
  }

  /** The login page itself never redirects: its path is shorter than
      the name being looked for. */
  lemma LoginPageNeverRedirects(loggedIn: bool, hasLoginForm: bool)
    ensures Gate("/index.html", loggedIn, hasLoginForm) != RedirectToLogin
  {
    assert |"/index.html"| < |"dashboard.html"|;
  }

  /** The outcome of the login request: the parsed reply, or a failure of
      the request or of parsing it (including a reply that is `null`). */
  datatype LoginReply = Replied(status: Value, message: Value) | Failed

  const LoginFailedText := "An error occurred. Please try again."

  class Session {
    var loggedIn: bool
    var location: string
    /** The text of the `error-message` element on the login page. */
    var loginError: string

    constructor (loggedIn: bool, location: string)
      ensures this.loggedIn == loggedIn && this.location == location && loginError == ""
    {
      this.loggedIn := loggedIn;
      this.location := location;
      loginError := "";
    }

    /** `handleLogin` once the request has settled. A reply whose status is
        exactly the string "success" sets the flag and navigates to the
        dashboard; any other reply shows its message (a missing message
        clears the text); a failed request shows a fixed text. This
        handler never clears the flag. */
    method HandleLogin(reply: LoginReply)
      modifies this
      ensures reply.Replied? && reply.status == Str("success") ==>
                loggedIn && location == "dashboard.html" && loginError == old(loginError)
      ensures reply.Replied? && reply.status != Str("success") ==>
                loggedIn == old(loggedIn) && location == old(location)
                && loginError == TextContent(reply.message)
      ensures reply.Failed? ==>
                loggedIn == old(loggedIn) && location == old(location)
                && loginError == LoginFailedText
    {
      match reply
      case Replied(status, message) =>
        if status == Str("success") {
          loggedIn := true;
          location := "dashboard.html";
        } else {
          loginError := TextContent(message);
        }
      case Failed =>
        loginError := LoginFailedText;
    }

    /** The logout button: the flag is removed and the login page opened. */
    method Logout()
      modifies this
      ensures !loggedIn && location == "index.html" && loginError == old(loginError)
    {
      loggedIn := false;
      location := "index.html";
    }
  }

  /** After logging out, loading the dashboard sends the visitor back to
      the login page. */
  method LogoutThenDashboard(s: Session, hasLoginForm: bool) returns (a: GateAction)
    modifies s
    ensures !s.loggedIn && s.location == "index.html"
    ensures a == RedirectToLogin
  {
    s.Logout();
    LoginLandsOnDashboard(hasLoginForm);
    a := Gate("/dashboard.html", s.loggedIn, hasLoginForm);
  }
}
