/** The request gate in front of the admin area: a plain path-prefix test and
    a check that a session cookie is present. */
module Middleware {
  import opened Text

  const ADMIN_PREFIX: string := "/admin"
  const SESSION_COOKIE: string := "better-auth.session_token"
  const SIGN_IN: string := "/sign-in"

  datatype Decision = Next | Redirect(location: string)

  /** The gate for a request to `path` carrying `cookies` (name to value). */
  function Gate(path: string, cookies: map<string, string>): (d: Decision)
    ensures !StartsWith(path, ADMIN_PREFIX) ==> d == Next
    ensures StartsWith(path, ADMIN_PREFIX) && SESSION_COOKIE !in cookies ==> d == Redirect(SIGN_IN)
    ensures d.Redirect? ==> d.location == SIGN_IN
    ensures d == Next <==> !StartsWith(path, ADMIN_PREFIX) || SESSION_COOKIE in cookies
  {
    if StartsWith(path, ADMIN_PREFIX) && SESSION_COOKIE !in cookies then Redirect(SIGN_IN) else Next
  }

  /** The cookie's value is never inspected: any value, even an empty one,
      lets the request through, and two requests to the same path whose
      cookies agree on whether the session cookie is present are decided
      alike. */
  lemma CookieValueIgnored(path: string, cookies: map<string, string>, value: string, other: map<string, string>)
    ensures Gate(path, cookies[SESSION_COOKIE := value]) == Next
    ensures (SESSION_COOKIE in cookies <==> SESSION_COOKIE in other) ==> Gate(path, cookies) == Gate(path, other)
  {
  }

  /** The test is on the prefix, not on a path segment: a path that merely
      begins with the same letters is gated too. */
  lemma PrefixGatesLookalikePaths()
    ensures Gate("/administrator", map[]) == Redirect(SIGN_IN)
    ensures Gate("/admin/boat-fund", map[]) == Redirect(SIGN_IN)
    ensures Gate("/adm", map[]) == Next
  {
    assert "/administrator"[..|ADMIN_PREFIX|] == ADMIN_PREFIX;
    assert "/admin/boat-fund"[..|ADMIN_PREFIX|] == ADMIN_PREFIX;
  }
}
