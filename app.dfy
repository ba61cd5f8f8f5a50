/** The route table and the authentication-dependent parts of the layout of
    src/App.jsx. */
module App {

  datatype Page = LoginPage | RegisterPage | DashboardPage

  /** What the <Routes> element renders for a path: a page, a <Navigate replace>
      redirect, or nothing when no route matches. */
  datatype Outcome = Render(page: Page) | Redirect(to: string) | NoMatch

  predicate Known(path: string) {
    path == "/" || path == "/login" || path == "/register" || path == "/dashboard"
  }

  function Resolve(path: string, authenticated: bool): (r: Outcome)
    ensures r.NoMatch? <==> !Known(path)
    ensures r.Redirect? ==> Known(r.to) && r.to != path
    ensures path == "/" ==> r == Redirect("/login")
    ensures (path == "/login" || path == "/register") ==>
              r == if authenticated then Redirect("/dashboard") else Render(if path == "/login" then LoginPage else RegisterPage)
    ensures path == "/dashboard" ==> r == if authenticated then Render(DashboardPage) else Redirect("/login")
  {
    if path == "/" then Redirect("/login")
    else if path == "/login" then (if authenticated then Redirect("/dashboard") else Render(LoginPage))
    else if path == "/register" then (if authenticated then Redirect("/dashboard") else Render(RegisterPage))
    else if path == "/dashboard" then (if authenticated then Render(DashboardPage) else Redirect("/login"))
    else NoMatch
  }

  /** The outcome after following at most `hops` redirects. */
  function Follow(path: string, authenticated: bool, hops: nat): Outcome
    decreases hops
  {
    match Resolve(path, authenticated)
    case Redirect(to) => if hops == 0 then Redirect(to) else Follow(to, authenticated, hops - 1)
    case other => other
  }

  /** No redirect chain is longer than two: from every known path a page is
      rendered within two hops, and there is no loop. */
  lemma {:induction false} SettlesWithinTwoHops(path: string, authenticated: bool)
    requires Known(path)
    ensures Follow(path, authenticated, 2).Render?
    ensures Follow(path, authenticated, 2).page == if authenticated then DashboardPage
                                                   else if path == "/register" then RegisterPage
                                                   else LoginPage
  {
    var first := Resolve(path, authenticated);
    if first.Redirect? {
      var second := Resolve(first.to, authenticated);
      if second.Redirect? {
        assert Resolve(second.to, authenticated).Render?;
      }
    }
  }

  /** Following more hops than two never changes the outcome. */
  lemma {:induction false} NoRedirectLoop(path: string, authenticated: bool, hops: nat)
    requires hops >= 2
    ensures Follow(path, authenticated, hops) == Follow(path, authenticated, 2)
  {
    var first := Resolve(path, authenticated);
    if first.Redirect? {
      var second := Resolve(first.to, authenticated);
      if second.Redirect? {
        assert Resolve(second.to, authenticated).Render?;
        assert Follow(second.to, authenticated, hops - 2) == Resolve(second.to, authenticated);
        assert Follow(second.to, authenticated, 0) == Resolve(second.to, authenticated);
      }
    }
  }

  /** The brand link leads to the dashboard when signed in, to the login otherwise. */
  function BrandLink(authenticated: bool): (to: string)
    ensures Resolve(to, authenticated).Render?
    ensures authenticated ==> Resolve(to, authenticated) == Render(DashboardPage)
    ensures !authenticated ==> Resolve(to, authenticated) == Render(LoginPage)
  {
    if authenticated then "/dashboard" else "/login"
  }

  /** The footer is only for visitors who are not signed in. */
  predicate ShowsFooter(authenticated: bool) {
    !authenticated
  }

  /** The footer and the login-bound brand link go together. */
  lemma FooterOnlyWhenSignedOut(authenticated: bool)
    ensures ShowsFooter(authenticated) <==> BrandLink(authenticated) == "/login"
  {
  }
}
