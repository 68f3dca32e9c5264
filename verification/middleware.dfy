/**
 * The route guard run before every page request: it decides from the path and the
 * session cookies whether the request passes or is redirected.
 */
module Middleware {
  import opened Common

  /** The two cookie names a session token can arrive under; None: the cookie is absent. */
  datatype Cookies = Cookies(sessionToken: Option<string>, secureSessionToken: Option<string>)

  /** What the guard answers: let the request through, or redirect to a path on the same origin. */
  datatype Decision = Next | Redirect(location: string)

  const LoginPath := "/login"
  const HomePath := "/"

  /** A request is logged in when either cookie carries a non-empty token. */
  predicate LoggedIn(c: Cookies)
  {
    Truthy(c.sessionToken) || Truthy(c.secureSessionToken)
  }

  /** Pages only a logged-in visitor may open. */
  predicate NeedsLogin(path: string)
  {
    StartsWith(path, "/admin") || StartsWith(path, "/cart") || StartsWith(path, "/checkout")
  }

  /** Pages only an anonymous visitor needs. */
  predicate AuthPage(path: string)
  {
    StartsWith(path, "/login") || StartsWith(path, "/register")
  }

  /** The guard's decision, checking the admin area first, then the auth pages, then cart and checkout. */
  function Decide(path: string, c: Cookies): (d: Decision)
    ensures d == Redirect(LoginPath) <==> NeedsLogin(path) && !LoggedIn(c)
    ensures d == Redirect(HomePath) <==> AuthPage(path) && LoggedIn(c)
    ensures d == Next <==> !(NeedsLogin(path) && !LoggedIn(c)) && !(AuthPage(path) && LoggedIn(c))
  {
    var loggedIn := LoggedIn(c);
    if StartsWith(path, "/admin") && !loggedIn then Redirect(LoginPath)
    else if (StartsWith(path, "/login") || StartsWith(path, "/register")) && loggedIn then Redirect(HomePath)
    else if (StartsWith(path, "/cart") || StartsWith(path, "/checkout")) && !loggedIn then Redirect(LoginPath)
    else Next
  }

  /** A logged-in visitor always reaches every page but the auth pages; an anonymous one always reaches those. */
  lemma VisitorsReachTheirPages(path: string, c: Cookies)
    ensures LoggedIn(c) && !AuthPage(path) ==> Decide(path, c) == Next
    ensures !LoggedIn(c) && !NeedsLogin(path) ==> Decide(path, c) == Next
  {
  }

  /** Following a redirect with the same cookies never redirects again. */
  lemma {:induction false} RedirectsSettle(path: string, c: Cookies)
    requires Decide(path, c).Redirect?
    ensures Decide(Decide(path, c).location, c) == Next
  {
    if LoggedIn(c) {
      assert Decide(path, c).location == HomePath;
      assert !StartsWith(HomePath, "/login") && !StartsWith(HomePath, "/register");
    } else {
      assert Decide(path, c).location == LoginPath;
      assert LoginPath[..6][1] == 'l' && LoginPath[..5][1] == 'l';
      assert !StartsWith(LoginPath, "/admin") && !StartsWith(LoginPath, "/cart") && !StartsWith(LoginPath, "/checkout");
    }
  }
}
