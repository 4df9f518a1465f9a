/** The route guard: a visitor without the `auth-token` cookie is sent from the dashboard
    to the login page, and one with it from the login page to the dashboard. */
module Middleware {
  import opened Wrappers
  import opened Strings

  datatype Decision = Redirect(location: string) | PassThrough

  const LOGIN: string := "/login"
  const DASHBOARD: string := "/dashboard"

  /** The guard itself. The cookie is the `auth-token` value when the request carries one;
      a present cookie counts as a token whatever its value. */
  function Decide(cookie: Option<string>, path: string): (d: Decision)
    ensures d == Redirect(LOGIN) <==> cookie.None? && StartsWith(path, DASHBOARD)
    ensures d == Redirect(DASHBOARD) <==> cookie.Some? && StartsWith(path, LOGIN)
    ensures d.Redirect? ==> d.location == LOGIN || d.location == DASHBOARD
    ensures d == PassThrough <==>
      (cookie.None? ==> !StartsWith(path, DASHBOARD)) && (cookie.Some? ==> !StartsWith(path, LOGIN))
  {
    if cookie.None? && StartsWith(path, DASHBOARD) then Redirect(LOGIN)
    else if cookie.Some? && StartsWith(path, LOGIN) then Redirect(DASHBOARD)
    else PassThrough
  }

  /** Only whether the cookie is present matters, not its value. */
  lemma OnlyPresenceMatters(a: string, b: string, path: string)
    ensures Decide(Some(a), path) == Decide(Some(b), path)
  {
  }

  /** A redirect never leads to another: the page it sends the visitor to lets the same
      visitor through. */
  lemma NoRedirectLoop(cookie: Option<string>, path: string)
    requires Decide(cookie, path).Redirect?
    ensures Decide(cookie, Decide(cookie, path).location) == PassThrough
  {
    if cookie.None? {
      assert LOGIN[1] != DASHBOARD[1];
    } else {
      assert DASHBOARD[1] != LOGIN[1];
    }
  }

  /** The paths the guard runs on: `/dashboard/:path*` (the dashboard and everything under
      it) and `/login`. */
  predicate Matched(path: string) {
    path == DASHBOARD || StartsWith(path, DASHBOARD + "/") || path == LOGIN
  }

  /** A request as the framework routes it: unmatched paths never reach the guard. */
  function Route(cookie: Option<string>, path: string): (d: Decision)
    ensures !Matched(path) ==> d == PassThrough
    ensures Matched(path) ==> d == Decide(cookie, path)
  {
    if Matched(path) then Decide(cookie, path) else PassThrough
  }

  /** On a matched path, the guard's prefix tests agree with the matcher's shapes: a
      matched dashboard path starts with `/dashboard`, and the login path with `/login`. */
  lemma MatchedRedirects(cookie: Option<string>, path: string)
    requires Matched(path)
    ensures cookie.None? && (path == DASHBOARD || StartsWith(path, DASHBOARD + "/")) ==> Route(cookie, path) == Redirect(LOGIN)
    ensures cookie.Some? && path == LOGIN ==> Route(cookie, path) == Redirect(DASHBOARD)
    ensures cookie.Some? && path != LOGIN ==> Route(cookie, path) == PassThrough
    ensures cookie.None? && path == LOGIN ==> Route(cookie, path) == PassThrough
  {
    if path == LOGIN {
      assert path[1] != DASHBOARD[1];
    } else {
      if StartsWith(path, DASHBOARD + "/") {
        assert path[..|DASHBOARD|] == (DASHBOARD + "/")[..|DASHBOARD|];
      }
      assert StartsWith(path, DASHBOARD);
      assert path[1] == 'd';
      assert !StartsWith(path, LOGIN);
    }
  }
}
