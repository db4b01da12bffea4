/** The route guard that runs after authentication on every matched request:
    where, if anywhere, to send the visitor instead. */
module Middleware {
  import opened Common

  const SELECT_ORG: string := "/select-org"

  /** The routes anyone may visit without signing in. */
  const PUBLIC_ROUTES: seq<string> := ["/", "/api/webhook"]

  /** The authentication provider's view of the request. */
  datatype AuthState = AuthState(userId: Option<string>, orgId: Option<string>, isPublicRoute: bool)

  /** `NextResponse.redirect(new URL(path, url))`, `redirectToSignIn({ returnBackUrl })`,
      or falling through to the page. */
  datatype Decision =
    | RedirectTo(path: string, base: string)
    | SignIn(returnBackUrl: string)
    | Proceed

  /** `afterAuth`: three guards, the first that applies wins. */
  function AfterAuth(auth: AuthState, url: string, pathname: string): (d: Decision)
    ensures Truthy(auth.userId) && auth.isPublicRoute ==>
              d == RedirectTo(if Truthy(auth.orgId) then OrgPath(auth.orgId.value) else SELECT_ORG, url)
    ensures !Truthy(auth.userId) && !auth.isPublicRoute ==> d == SignIn(url)
    ensures Truthy(auth.userId) && !auth.isPublicRoute && !Truthy(auth.orgId) ==>
              d == if pathname == SELECT_ORG then Proceed else RedirectTo(SELECT_ORG, url)
    ensures !Truthy(auth.userId) && auth.isPublicRoute ==> d == Proceed
    ensures Truthy(auth.userId) && Truthy(auth.orgId) && !auth.isPublicRoute ==> d == Proceed
  {
    if Truthy(auth.userId) && auth.isPublicRoute then
      var path := if Truthy(auth.orgId) then OrgPath(auth.orgId.value) else SELECT_ORG;
      RedirectTo(path, url)
    else if !Truthy(auth.userId) && !auth.isPublicRoute then
      SignIn(url)
    else if Truthy(auth.userId) && !Truthy(auth.orgId) && pathname != SELECT_ORG then
      RedirectTo(SELECT_ORG, url)
    else
      Proceed
  }

  /** The guard with the route's publicity taken from `PUBLIC_ROUTES`. */
  function Guard(userId: Option<string>, orgId: Option<string>, url: string, pathname: string): (d: Decision)
    ensures d.SignIn? <==> !Truthy(userId) && pathname !in PUBLIC_ROUTES
    ensures d.SignIn? ==> d.returnBackUrl == url
    ensures d.RedirectTo? ==> Truthy(userId) && d.base == url
    ensures Truthy(userId) && pathname in PUBLIC_ROUTES ==> d.RedirectTo?
  {
    AfterAuth(AuthState(userId, orgId, pathname in PUBLIC_ROUTES), url, pathname)
  }

  /** Neither redirect target is a public route. */
  lemma TargetsArePrivate(orgId: string)
    ensures SELECT_ORG !in PUBLIC_ROUTES
    ensures OrgPath(orgId) !in PUBLIC_ROUTES
  {
    var p := OrgPath(orgId);
    assert p[1] == 'o';
    assert "/api/webhook"[1] == 'a';
  }

  /** No redirect loops: following an in-app redirect leads, for the same
      visitor, to a page the guard lets through. The order of the guards is
      what makes `/select-org` itself reachable for a user with no org. */
  lemma RedirectsSettle(userId: Option<string>, orgId: Option<string>, url: string, pathname: string, url2: string)
    requires Guard(userId, orgId, url, pathname).RedirectTo?
    ensures Guard(userId, orgId, url2, Guard(userId, orgId, url, pathname).path) == Proceed
  {
    if Truthy(orgId) {
      TargetsArePrivate(orgId.value);
    } else {
      TargetsArePrivate("");
    }
  }

  /** A signed-out visitor is never bounced around inside the app: a private
      route asks for sign-in and comes back to the very same url, a public one
      is served. */
  lemma SignedOutVisitors(orgId: Option<string>, url: string, pathname: string)
    ensures Guard(None, orgId, url, pathname) ==
            if pathname in PUBLIC_ROUTES then Proceed else SignIn(url)
  {
  }
}
