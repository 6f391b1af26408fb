/**
 * The route guard that runs before every page request: from the session token
 * (present or not, its email, its verification flag) and the request path it
 * decides between letting the request through and redirecting it.
 */
module Middleware {
  import opened Wrappers
  import opened JsStrings

  /** The fields of the decoded session token the guard reads; an empty email is JavaScript-falsy. */
  datatype Token = Token(email: string, emailVerified: bool)

  datatype Decision = Next | Redirect(to: string)

  /** A token counts as logged in only when it exists and carries a non-empty email. */
  predicate LoggedIn(token: Option<Token>) {
    token.Some? && token.value.email != ""
  }

  predicate IsDashboard(path: string) { StartsWith(path, "/dashboard") }

  predicate IsAuthPage(path: string) { StartsWith(path, "/login") || StartsWith(path, "/signup") }

  /** The three redirect targets and how the guard classifies them. */
  lemma TargetsClassified()
    ensures !IsDashboard("/verify") && !IsAuthPage("/verify")
    ensures !IsDashboard("/login") && IsAuthPage("/login")
    ensures IsDashboard("/dashboard") && !IsAuthPage("/dashboard")
  {
    NotStartsWith("/verify", "/dashboard", 1);
    NotStartsWith("/verify", "/login", 1);
    NotStartsWith("/verify", "/signup", 1);
    NotStartsWith("/login", "/dashboard", 1);
    NotStartsWith("/dashboard", "/login", 1);
    NotStartsWith("/dashboard", "/signup", 1);
  }

  /** The guard: three ordered redirect rules, else pass through. */
  function Decide(token: Option<Token>, path: string): (d: Decision)
    ensures d.Redirect? ==> d.to in {"/login", "/verify", "/dashboard"}
  {
    if !LoggedIn(token) && IsDashboard(path) then Redirect("/login")
    else if LoggedIn(token) && !token.value.emailVerified && IsDashboard(path) then Redirect("/verify")
    else if LoggedIn(token) && IsAuthPage(path) then Redirect("/dashboard")
    else Next
  }

  lemma ToLoginExactly(token: Option<Token>, path: string)
    ensures Decide(token, path) == Redirect("/login") <==> !LoggedIn(token) && IsDashboard(path)
  {
  }

  lemma ToVerifyExactly(token: Option<Token>, path: string)
    ensures Decide(token, path) == Redirect("/verify")
            <==> LoggedIn(token) && !token.value.emailVerified && IsDashboard(path)
  {
  }

  /** Logged-in visitors of /login or /signup go to the dashboard whether or not they are verified. */
  lemma ToDashboardExactly(token: Option<Token>, path: string)
    ensures Decide(token, path) == Redirect("/dashboard")
            <==> LoggedIn(token) && IsAuthPage(path) && !(IsDashboard(path) && !token.value.emailVerified)
  {
  }

  lemma PassThroughExactly(token: Option<Token>, path: string)
    ensures Decide(token, path) == Next
            <==> (IsDashboard(path) ==> LoggedIn(token) && token.value.emailVerified)
                 && !(LoggedIn(token) && IsAuthPage(path))
  {
  }

  /** Anonymous visits to /login and every visit to /verify pass through. */
  lemma LoginAndVerifyPass(token: Option<Token>)
    ensures !LoggedIn(token) ==> Decide(token, "/login") == Next
    ensures Decide(token, "/verify") == Next
  {
    TargetsClassified();
  }

  /** Matching is by prefix, and a token without an email is treated as no token. */
  lemma PrefixAndEmptyEmail(verified: bool)
    ensures Decide(Some(Token("", verified)), "/dashboardX") == Redirect("/login")
    ensures Decide(None, "/dashboard/notes") == Redirect("/login")
  {
    assert IsDashboard("/dashboardX");
    assert IsDashboard("/dashboard/notes");
  }

  /** Where a browser ends up after following at most `hops` redirects, if it settles by then. */
  function Follow(token: Option<Token>, path: string, hops: nat): Option<string>
    decreases hops
  {
    match Decide(token, path)
    case Next => Some(path)
    case Redirect(to) => if hops == 0 then None else Follow(token, to, hops - 1)
  }

  /** Every path settles on a pass-through after at most two redirects. */
  lemma SettlesWithinTwoHops(token: Option<Token>, path: string)
    ensures Follow(token, path, 2).Some?
  {
    TargetsClassified();
  }

  /** Two hops are needed: an unverified user at /login goes to /dashboard, then to /verify. */
  lemma TwoHopsAreNeeded(email: string)
    requires email != ""
    ensures Follow(Some(Token(email, false)), "/login", 1).None?
    ensures Follow(Some(Token(email, false)), "/login", 2) == Some("/verify")
  {
    TargetsClassified();
  }
}
