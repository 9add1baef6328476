/**
 * What every handler shares: the request as the handler sees it, the 405 and
 * 302 responses it builds, the session cookies it sets or clears, and the
 * preamble method -> configuration -> access token -> session lookup.
 */
module Http {
  import opened Wrappers
  import opened JsString
  import opened Cookies

  /** The authenticated user the backend resolves a token to. */
  datatype User = User(id: string, email: Option<string>)

  /** HTTP method, Cookie header (null when absent) and decoded form fields. */
  datatype Request = Request(verb: string, cookieHeader: Option<string>, form: map<string, string>)

  /** The environment: SUPABASE_DATABASE_URL, SUPABASE_ANON_KEY, SUPABASE_SERVICE_KEY, ADMIN_EMAILS. */
  datatype Config = Config(url: Option<string>, anonKey: Option<string>, serviceKey: Option<string>, adminEmails: Option<string>)

  /** `!supabaseUrl || !supabaseKey` is false for the handlers on the anonymous key. */
  predicate AnonConfigured(cfg: Config)
  {
    Truthy(cfg.url) && Truthy(cfg.anonKey)
  }

  /** The same for the handlers on the service key. */
  predicate ServiceConfigured(cfg: Config)
  {
    Truthy(cfg.url) && Truthy(cfg.serviceKey)
  }

  /** `formData.get(name)`: null when the field was not sent. */
  function Field(form: map<string, string>, name: string): Option<string>
  {
    if name in form then Some(form[name]) else None
  }

  /**
   * The query part of a redirect: a fixed success or error text, written
   * verbatim, or a backend error message passed through encodeURIComponent.
   */
  datatype Query = NoQuery | Success(text: string) | Error(text: string) | BackendError(message: string)

  datatype Location = Location(path: string, query: Query)

  /** The Location header text, given encodeURIComponent. */
  function Href(loc: Location, encode: string -> string): string
  {
    match loc.query
    case NoQuery => loc.path
    case Success(text) => loc.path + "?success=" + text
    case Error(text) => loc.path + "?error=" + text
    case BackendError(message) => loc.path + "?error=" + encode(message)
  }

  /**
   * Only a backend message passes through the encoder: a fixed text, or no
   * query at all, reads the same whatever encodeURIComponent does.
   */
  lemma OnlyBackendMessagesEncoded(loc: Location, e1: string -> string, e2: string -> string)
    ensures !loc.query.BackendError? ==> Href(loc, e1) == Href(loc, e2)
    ensures loc.query.BackendError? ==> Href(loc, e1) == loc.path + "?error=" + e1(loc.query.message)
  {
  }

  /** One cookie of the Set-Cookie value; all carry Path=/; HttpOnly; Secure; SameSite=Lax. */
  datatype Directive = Directive(name: string, value: string, maxAge: nat)

  datatype Response = Response(status: nat, body: Option<string>, location: Option<Location>, setCookies: seq<Directive>)

  function MethodNotAllowed(): Response
  {
    Response(405, Some("Method not allowed"), None, [])
  }

  function Redirect(path: string, query: Query): Response
  {
    Response(302, None, Some(Location(path, query)), [])
  }

  function RedirectSettingCookies(path: string, query: Query, cookies: seq<Directive>): Response
  {
    Response(302, None, Some(Location(path, query)), cookies)
  }

  /**
   * The redirect a handler ends with once its one backend write has been
   * issued: the backend's message, encoded, when it failed, the fixed text otherwise.
   */
  function Reported(path: string, error: Option<string>, success: string): Response
  {
    if error.Some? then Redirect(path, BackendError(error.value)) else Redirect(path, Success(success))
  }

  /** Every response is a 405 with its text body or a 302 with a Location and no body. */
  predicate WellFormed(r: Response)
  {
    || (r.status == 405 && r.body == Some("Method not allowed") && r.location.None? && r.setCookies == [])
    || (r.status == 302 && r.body.None? && r.location.Some?)
  }

  const SevenDays: nat := 60 * 60 * 24 * 7

  /** The access/refresh cookie pair. */
  function SessionCookies(accessToken: string, refreshToken: string, maxAge: nat): seq<Directive>
  {
    [Directive(AccessTokenName, accessToken, maxAge), Directive(RefreshTokenName, refreshToken, maxAge)]
  }

  /** Both session cookies emptied and expired (Max-Age=0). */
  function ClearedSessionCookies(): (cookies: seq<Directive>)
    ensures |cookies| == 2 && cookies[0].name == AccessTokenName && cookies[1].name == RefreshTokenName
    ensures forall i :: 0 <= i < |cookies| ==> cookies[i].value == "" && cookies[i].maxAge == 0
  {
    SessionCookies("", "", 0)
  }

  // ---------------------------------------------------------------- Set-Cookie text

  function DigitChar(d: nat): char
    requires d < 10
  {
    "0123456789"[d]
  }

  /** The decimal numeral of n. */
  function Decimal(n: nat): string
  {
    if n < 10 then [DigitChar(n)] else Decimal(n / 10) + [DigitChar(n % 10)]
  }

  function DirectiveText(d: Directive): string
  {
    d.name + "=" + d.value + "; Path=/; HttpOnly; Secure; SameSite=Lax; Max-Age=" + Decimal(d.maxAge)
  }

  function DirectiveTexts(ds: seq<Directive>): seq<string>
  {
    if ds == [] then [] else [DirectiveText(ds[0])] + DirectiveTexts(ds[1..])
  }

  /** The one Set-Cookie header value: the cookies joined with ", "; none when there are none. */
  function SetCookieHeader(r: Response): Option<string>
  {
    if r.setCookies == [] then None else Some(JoinWith(DirectiveTexts(r.setCookies), ", "))
  }

  /** The text of two cookies joined into one header value. */
  lemma PairText(d0: Directive, d1: Directive)
    ensures JoinWith(DirectiveTexts([d0, d1]), ", ") == DirectiveText(d0) + ", " + DirectiveText(d1)
  {
    assert [d0, d1][1..] == [d1];
    assert DirectiveTexts([d1]) == [DirectiveText(d1)];
    assert DirectiveTexts([d0, d1]) == [DirectiveText(d0), DirectiveText(d1)];
  }

  /**
   * The session pair renders as the handlers' literal template: both cookies
   * joined with ", ", each `name=value; Path=/; HttpOnly; Secure; SameSite=Lax; Max-Age=n`.
   */
  lemma SessionHeaderText(path: string, query: Query, accessToken: string, refreshToken: string, maxAge: nat)
    ensures SetCookieHeader(RedirectSettingCookies(path, query, SessionCookies(accessToken, refreshToken, maxAge))) ==
      Some(("sb-access-token=" + accessToken + ("; Path=/; HttpOnly; Secure; SameSite=Lax; Max-Age=" + Decimal(maxAge)))
           + ", " + ("sb-refresh-token=" + refreshToken + ("; Path=/; HttpOnly; Secure; SameSite=Lax; Max-Age=" + Decimal(maxAge))))
  {
    var ds := SessionCookies(accessToken, refreshToken, maxAge);
    PairText(ds[0], ds[1]);
    var attributes := "; Path=/; HttpOnly; Secure; SameSite=Lax; Max-Age=" + Decimal(maxAge);
    var access := "sb-access-token=" + accessToken + attributes;
    var refresh := "sb-refresh-token=" + refreshToken + attributes;
    assert DirectiveText(ds[0]) == access;
    assert DirectiveText(ds[1]) == refresh;
  }

  /** The Max-Age values the handlers write: 0 to clear, 604800 (seven days) to set. */
  lemma MaxAgeText()
    ensures Decimal(0) == "0"
    ensures SevenDays == 604800 && Decimal(SevenDays) == "604800"
  {
    assert Decimal(6) == "6";
    assert Decimal(60) == "60";
    assert Decimal(604) == "604";
    assert Decimal(6048) == "6048";
    assert Decimal(60480) == "60480";
  }

  // ---------------------------------------------------------------- preamble

  /** The user the handler's session lookup yields: only asked when the token cookie is present. */
  function SessionUser(req: Request, resolve: string -> Option<User>): Option<User>
  {
    var cookies := CookieMap(req.cookieHeader);
    if AccessTokenName in cookies then resolve(cookies[AccessTokenName]) else None
  }

  /**
   * The response the shared preamble stops with, or None when it lets the
   * request through: 405 for anything but POST, then the configuration error
   * (to the handler's own page), then /login without a token or session.
   */
  function Refusal(req: Request, configured: bool, origin: string, resolve: string -> Option<User>): Option<Response>
  {
    if req.verb != "POST" then Some(MethodNotAllowed())
    else if !configured then Some(Redirect(origin, Error("Configuration error")))
    else if SessionUser(req, resolve).None? then Some(Redirect("/login", NoQuery))
    else None
  }

  datatype Gate = Proceed(user: User) | Stop(response: Response)

  /** Lines 20-50 of every authenticated handler. */
  method Authenticate(req: Request, configured: bool, origin: string, resolve: string -> Option<User>)
    returns (gate: Gate)
    ensures gate.Stop? <==> Refusal(req, configured, origin, resolve).Some?
    ensures gate.Stop? ==> gate.response == Refusal(req, configured, origin, resolve).value
    ensures gate.Proceed? ==> SessionUser(req, resolve) == Some(gate.user)
  {
    if req.verb != "POST" {
      return Stop(MethodNotAllowed());
    }
    if !configured {
      return Stop(Redirect(origin, Error("Configuration error")));
    }
    var cookies := ParseCookies(req.cookieHeader);
    if AccessTokenName !in cookies {
      return Stop(Redirect("/login", NoQuery));
    }
    var user := resolve(cookies[AccessTokenName]);
    if user.None? {
      return Stop(Redirect("/login", NoQuery));
    }
    return Proceed(user.value);
  }

  // ---------------------------------------------------------------- preamble properties

  /** A non-POST request gets the 405, whatever its cookies, the configuration or the backend. */
  lemma NonPostRefusedFirst(req: Request, configured: bool, origin: string, resolve: string -> Option<User>)
    requires req.verb != "POST"
    ensures Refusal(req, configured, origin, resolve) == Some(MethodNotAllowed())
  {
  }

  /** Without an access-token cookie the session is never looked up and the answer is /login. */
  lemma NoTokenNoLookup(req: Request, configured: bool, origin: string,
                        resolve1: string -> Option<User>, resolve2: string -> Option<User>)
    requires AccessTokenName !in CookieMap(req.cookieHeader)
    ensures SessionUser(req, resolve1) == SessionUser(req, resolve2) == None
    ensures req.verb == "POST" && configured ==> Refusal(req, configured, origin, resolve1) == Some(Redirect("/login", NoQuery))
  {
  }

  /** A request let through carried a non-empty access token that the backend accepted. */
  lemma ProceedNeedsToken(req: Request, configured: bool, origin: string, resolve: string -> Option<User>)
    requires Refusal(req, configured, origin, resolve).None?
    ensures req.verb == "POST" && configured
    ensures AccessTokenName in CookieMap(req.cookieHeader)
    ensures CookieMap(req.cookieHeader)[AccessTokenName] != ""
    ensures resolve(CookieMap(req.cookieHeader)[AccessTokenName]).Some?
  {
    CookieMapWellFormed(req.cookieHeader, AccessTokenName);
  }

  /** Every preamble refusal is a well-formed response, and only a 405 is not a redirect. */
  lemma RefusalWellFormed(req: Request, configured: bool, origin: string, resolve: string -> Option<User>)
    requires Refusal(req, configured, origin, resolve).Some?
    ensures WellFormed(Refusal(req, configured, origin, resolve).value)
    ensures Refusal(req, configured, origin, resolve).value.setCookies == []
  {
  }
}
