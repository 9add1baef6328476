/**
 * netlify/functions/auth-logout.ts: every request is answered with a
 * redirect to /login that empties and expires both session cookies.
 */
module AuthLogout {
  import opened Wrappers
  import opened Http
  import opened Cookies

  /** The handler: no method check, no backend, no dependence on the request. */
  function Logout(req: Request): (resp: Response)
    ensures resp.status == 302 && resp.location == Some(Location("/login", NoQuery)) && WellFormed(resp)
    ensures |resp.setCookies| == 2
    ensures resp.setCookies[0].name == AccessTokenName && resp.setCookies[1].name == RefreshTokenName
    ensures forall i :: 0 <= i < |resp.setCookies| ==> resp.setCookies[i].value == "" && resp.setCookies[i].maxAge == 0
  {
    RedirectSettingCookies("/login", NoQuery, ClearedSessionCookies())
  }

  // ---------------------------------------------------------------- properties

  /** Whatever the method, cookies or form, the response is the same. */
  lemma LogoutIsConstant(r1: Request, r2: Request)
    ensures Logout(r1) == Logout(r2)
  {
  }

  /** Logging out clears the same two cookies, the same way, as a successful account deletion. */
  lemma LogoutHeader(req: Request)
    ensures SetCookieHeader(Logout(req)) ==
      Some(("sb-access-token=" + "" + ("; Path=/; HttpOnly; Secure; SameSite=Lax; Max-Age=" + Decimal(0)))
           + ", " + ("sb-refresh-token=" + "" + ("; Path=/; HttpOnly; Secure; SameSite=Lax; Max-Age=" + Decimal(0))))
    ensures Decimal(0) == "0"
  {
    SessionHeaderText("/login", NoQuery, "", "", 0);
    MaxAgeText();
  }
}
