/**
 * src/utils/auth.ts: the server-side pages' session helpers over the
 * framework's cookie store. `getUser` restores the session from the two token
 * cookies and drops them when the backend refuses; `setAuthCookies` and
 * `clearAuthCookies` write and remove the pair.
 */
module AuthCookies {
  import opened Wrappers
  import opened Http
  import opened Cookies

  datatype SameSite = Lax | Strict | NoRestriction

  datatype CookieOptions = CookieOptions(path: string, secure: bool, httpOnly: bool, sameSite: SameSite, maxAge: nat)

  datatype Cookie = Cookie(value: string, options: CookieOptions)

  /** The options both token cookies are written with. */
  const AuthOptions := CookieOptions("/", true, true, Lax, SevenDays)

  /** The cookie store of one request: set and delete change it in place. */
  class CookieJar {
    var cookies: map<string, Cookie>

    constructor (cookies: map<string, Cookie>)
      ensures this.cookies == cookies
    {
      this.cookies := cookies;
    }

    /** `cookies.set(name, value, options)`. */
    method Set(name: string, value: string, options: CookieOptions)
      modifies this
      ensures cookies == old(cookies)[name := Cookie(value, options)]
    {
      cookies := cookies[name := Cookie(value, options)];
    }

    /** `cookies.delete(name, { path: '/' })`: the cookie is gone from the store. */
    method Delete(name: string)
      modifies this
      ensures cookies == old(cookies) - {name}
    {
      cookies := cookies - {name};
    }
  }

  /** The store after both tokens are written. */
  function WithAuthCookies(cookies: map<string, Cookie>, accessToken: string, refreshToken: string): map<string, Cookie>
  {
    cookies[AccessTokenName := Cookie(accessToken, AuthOptions)][RefreshTokenName := Cookie(refreshToken, AuthOptions)]
  }

  /** The store after both tokens are removed. */
  function WithoutAuthCookies(cookies: map<string, Cookie>): map<string, Cookie>
  {
    cookies - {AccessTokenName, RefreshTokenName}
  }

  /** `setAuthCookies(cookies, accessToken, refreshToken)`. */
  method SetAuthCookies(jar: CookieJar, accessToken: string, refreshToken: string)
    modifies jar
    ensures jar.cookies == WithAuthCookies(old(jar.cookies), accessToken, refreshToken)
  {
    jar.Set(AccessTokenName, accessToken, AuthOptions);
    jar.Set(RefreshTokenName, refreshToken, AuthOptions);
  }

  /** `clearAuthCookies(cookies)`. */
  method ClearAuthCookies(jar: CookieJar)
    modifies jar
    ensures jar.cookies == WithoutAuthCookies(old(jar.cookies))
  {
    jar.Delete(AccessTokenName);
    jar.Delete(RefreshTokenName);
  }

  /** What `auth.setSession` answers: an error, or data whose user may be null. */
  datatype SessionOutcome = RestoreFailed | Restored(user: Option<User>)

  /** Both token cookies are in the store; a present cookie counts even with an empty value. */
  predicate HasTokens(cookies: map<string, Cookie>)
  {
    AccessTokenName in cookies && RefreshTokenName in cookies
  }

  /** Whether `getUser` asks the backend to restore the session, and the backend refuses. */
  predicate RestoreRefused(cookies: map<string, Cookie>, clientConfigured: bool,
                           setSession: (string, string) -> SessionOutcome)
  {
    clientConfigured && HasTokens(cookies)
    && setSession(cookies[AccessTokenName].value, cookies[RefreshTokenName].value).RestoreFailed?
  }

  /** The user `getUser` returns. */
  function RestoredUser(cookies: map<string, Cookie>, clientConfigured: bool,
                        setSession: (string, string) -> SessionOutcome): Option<User>
  {
    if !clientConfigured || !HasTokens(cookies) then None
    else match setSession(cookies[AccessTokenName].value, cookies[RefreshTokenName].value)
      case RestoreFailed => None
      case Restored(user) => user
  }

  /**
   * `getUser(cookies)`. `clientConfigured` says whether the backend client
   * exists; `setSession` is the backend's answer to the two token values.
   */
  method GetUser(jar: CookieJar, clientConfigured: bool, setSession: (string, string) -> SessionOutcome)
    returns (user: Option<User>)
    modifies jar
    ensures user == RestoredUser(old(jar.cookies), clientConfigured, setSession)
    ensures jar.cookies == if RestoreRefused(old(jar.cookies), clientConfigured, setSession)
                           then WithoutAuthCookies(old(jar.cookies)) else old(jar.cookies)
  {
    if !clientConfigured {
      return None;
    }
    if AccessTokenName !in jar.cookies || RefreshTokenName !in jar.cookies {
      return None;
    }
    var accessToken := jar.cookies[AccessTokenName];
    var refreshToken := jar.cookies[RefreshTokenName];
    var outcome := setSession(accessToken.value, refreshToken.value);
    if outcome.RestoreFailed? {
      jar.Delete(AccessTokenName);
      jar.Delete(RefreshTokenName);
      return None;
    }
    user := outcome.user;
  }

  // ---------------------------------------------------------------- properties

  /** Setting writes both tokens with the seven-day options and leaves every other cookie alone. */
  lemma SetStoresBothTokens(cookies: map<string, Cookie>, accessToken: string, refreshToken: string)
    ensures var c := WithAuthCookies(cookies, accessToken, refreshToken);
      && c[AccessTokenName] == Cookie(accessToken, AuthOptions)
      && c[RefreshTokenName] == Cookie(refreshToken, AuthOptions)
      && (forall name :: name != AccessTokenName && name != RefreshTokenName ==>
            (name in c <==> name in cookies) && (name in cookies ==> c[name] == cookies[name]))
    ensures AuthOptions.maxAge == 604800 && AuthOptions.path == "/" && AuthOptions.secure && AuthOptions.httpOnly
  {
  }

  /** Clearing removes exactly the two token cookies. */
  lemma ClearRemovesExactlyTokens(cookies: map<string, Cookie>)
    ensures forall name :: name in WithoutAuthCookies(cookies) <==>
      name in cookies && name != AccessTokenName && name != RefreshTokenName
    ensures !HasTokens(WithoutAuthCookies(cookies))
  {
  }

  /** Clearing twice is clearing once. */
  lemma ClearIdempotent(cookies: map<string, Cookie>)
    ensures WithoutAuthCookies(WithoutAuthCookies(cookies)) == WithoutAuthCookies(cookies)
  {
  }

  /** Setting then clearing leaves neither token and the other cookies as they were before the set. */
  lemma SetThenClear(cookies: map<string, Cookie>, accessToken: string, refreshToken: string)
    ensures WithoutAuthCookies(WithAuthCookies(cookies, accessToken, refreshToken)) == WithoutAuthCookies(cookies)
  {
  }

  /** After a set, a configured client hands the two written values to the backend. */
  lemma SetThenGetAsksForTheTokens(cookies: map<string, Cookie>, accessToken: string, refreshToken: string,
                                   setSession: (string, string) -> SessionOutcome)
    ensures RestoredUser(WithAuthCookies(cookies, accessToken, refreshToken), true, setSession) ==
      match setSession(accessToken, refreshToken)
      case RestoreFailed => None
      case Restored(user) => user
  {
  }

  /** Without a client, or without both cookies, no user is returned and the cookies stay. */
  lemma NoClientOrTokensNoUser(cookies: map<string, Cookie>, clientConfigured: bool,
                               setSession: (string, string) -> SessionOutcome)
    requires !clientConfigured || !HasTokens(cookies)
    ensures RestoredUser(cookies, clientConfigured, setSession).None?
    ensures !RestoreRefused(cookies, clientConfigured, setSession)
  {
  }

  /** A refused restore returns no user and leaves no token behind, so the next call does not ask again. */
  lemma RefusedRestoreDropsTokens(cookies: map<string, Cookie>, setSession: (string, string) -> SessionOutcome)
    requires RestoreRefused(cookies, true, setSession)
    ensures RestoredUser(cookies, true, setSession).None?
    ensures !RestoreRefused(WithoutAuthCookies(cookies), true, setSession)
    ensures RestoredUser(WithoutAuthCookies(cookies), true, setSession).None?
  {
  }

  /** Empty-valued token cookies still reach the backend: presence, not content, is checked. */
  lemma EmptyTokensStillAsked(cookies: map<string, Cookie>, setSession: (string, string) -> SessionOutcome)
    requires HasTokens(cookies)
    requires cookies[AccessTokenName].value == "" && cookies[RefreshTokenName].value == ""
    ensures RestoreRefused(cookies, true, setSession) <==> setSession("", "").RestoreFailed?
  {
  }
}
