/**
 * netlify/functions/auth-signup.ts: registers an email and password with the
 * auth backend. When the backend opens a session straight away the handler
 * sets both session cookies for seven days; otherwise it asks the user to
 * confirm their email.
 */
module AuthSignup {
  import opened Wrappers
  import opened Http

  datatype Tokens = Tokens(accessToken: string, refreshToken: string)

  /** What `auth.signUp` answers: an error, or data with or without a session. */
  datatype SignUpResult = SignUpFailed(message: string) | SignedUp(session: Option<Tokens>)

  /** True when the backend opened a session at signup. */
  predicate OpensSession(result: SignUpResult)
  {
    result.SignedUp? && result.session.Some?
  }

  /**
   * The handler. `signUp` is the backend, given the two form fields as they
   * were sent (null when absent).
   */
  function SignUp(req: Request, cfg: Config, signUp: (Option<string>, Option<string>) -> SignUpResult): (resp: Response)
    ensures WellFormed(resp)
    ensures resp.setCookies != [] <==>
      req.verb == "POST" && AnonConfigured(cfg) && OpensSession(signUp(Field(req.form, "email"), Field(req.form, "password")))
  {
    if req.verb != "POST" then MethodNotAllowed()
    else if !AnonConfigured(cfg) then Redirect("/login", Error("Configuration error"))
    else
      match signUp(Field(req.form, "email"), Field(req.form, "password"))
      case SignUpFailed(message) => Redirect("/login", BackendError(message))
      case SignedUp(Some(tokens)) =>
        RedirectSettingCookies("/dashboard", NoQuery, SessionCookies(tokens.accessToken, tokens.refreshToken, SevenDays))
      case SignedUp(None) => Redirect("/login", Error("Please check your email to confirm your account"))
  }

  // ---------------------------------------------------------------- properties

  /** A non-POST request gets 405 and the backend is never asked. */
  lemma NonPostNeverSignsUp(req: Request, cfg: Config, s1: (Option<string>, Option<string>) -> SignUpResult,
                            s2: (Option<string>, Option<string>) -> SignUpResult)
    requires req.verb != "POST"
    ensures SignUp(req, cfg, s1) == SignUp(req, cfg, s2) == MethodNotAllowed()
  {
  }

  /** Without configuration the answer is the login page's error and the backend is never asked. */
  lemma UnconfiguredNeverSignsUp(req: Request, cfg: Config, s1: (Option<string>, Option<string>) -> SignUpResult,
                                 s2: (Option<string>, Option<string>) -> SignUpResult)
    requires req.verb == "POST" && !AnonConfigured(cfg)
    ensures SignUp(req, cfg, s1) == SignUp(req, cfg, s2) == Redirect("/login", Error("Configuration error"))
  {
  }

  /**
   * No local validation: the outcome depends on the form only through what the
   * backend answers for the two fields exactly as sent.
   */
  lemma FieldsForwardedAsSent(req: Request, cfg: Config, s1: (Option<string>, Option<string>) -> SignUpResult,
                              s2: (Option<string>, Option<string>) -> SignUpResult)
    requires s1(Field(req.form, "email"), Field(req.form, "password")) == s2(Field(req.form, "email"), Field(req.form, "password"))
    ensures SignUp(req, cfg, s1) == SignUp(req, cfg, s2)
  {
  }

  /** Each outcome of the backend maps to its redirect. */
  lemma SignUpOutcomes(req: Request, cfg: Config, signUp: (Option<string>, Option<string>) -> SignUpResult)
    requires req.verb == "POST" && AnonConfigured(cfg)
    ensures var result := signUp(Field(req.form, "email"), Field(req.form, "password"));
      var resp := SignUp(req, cfg, signUp);
      && (result.SignUpFailed? ==> resp == Redirect("/login", BackendError(result.message)))
      && (result == SignedUp(None) ==> resp == Redirect("/login", Error("Please check your email to confirm your account")))
      && (OpensSession(result) ==> resp.location == Some(Location("/dashboard", NoQuery)))
  {
  }

  /**
   * With a session, the Set-Cookie value carries the two returned tokens,
   * each for 604800 seconds, in the handler's literal format.
   */
  lemma SessionCookieHeader(req: Request, cfg: Config, signUp: (Option<string>, Option<string>) -> SignUpResult)
    requires req.verb == "POST" && AnonConfigured(cfg)
    requires OpensSession(signUp(Field(req.form, "email"), Field(req.form, "password")))
    ensures var tokens := signUp(Field(req.form, "email"), Field(req.form, "password")).session.value;
      && SetCookieHeader(SignUp(req, cfg, signUp)) ==
        Some(("sb-access-token=" + tokens.accessToken + ("; Path=/; HttpOnly; Secure; SameSite=Lax; Max-Age=" + Decimal(SevenDays)))
             + ", " + ("sb-refresh-token=" + tokens.refreshToken + ("; Path=/; HttpOnly; Secure; SameSite=Lax; Max-Age=" + Decimal(SevenDays))))
      && Decimal(SevenDays) == "604800"
  {
    var tokens := signUp(Field(req.form, "email"), Field(req.form, "password")).session.value;
    SessionHeaderText("/dashboard", NoQuery, tokens.accessToken, tokens.refreshToken, SevenDays);
    MaxAgeText();
  }
}
