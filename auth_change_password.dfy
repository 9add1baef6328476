/**
 * netlify/functions/auth-change-password.ts: a signed-in user sets a new
 * password of at least six characters.
 */
module AuthChangePassword {
  import opened Wrappers
  import opened Http
  import opened Tables

  const Origin := "/settings"
  const MinLength: nat := 6

  /** `!new_password || new_password.length < 6`. */
  predicate TooShort(password: Option<string>)
  {
    !Truthy(password) || |password.value| < MinLength
  }

  /**
   * The response the handler stops with before the update, or None when it
   * goes on: the shared preamble, then the length check.
   */
  function ChangeRejection(req: Request, cfg: Config, resolve: string -> Option<User>): Option<Response>
  {
    var refusal := Refusal(req, AnonConfigured(cfg), Origin, resolve);
    if refusal.Some? then refusal
    else if TooShort(Field(req.form, "new_password")) then
      Some(Redirect(Origin, Error("Password must be at least 6 characters")))
    else None
  }

  /** The handler; `updateFailure` is the error of the password update. */
  method ChangePassword(db: Backend, cfg: Config, req: Request, resolve: string -> Option<User>,
                        updateFailure: Option<string>)
    returns (resp: Response)
    modifies db
    ensures var rejection := ChangeRejection(req, cfg, resolve);
      rejection.Some? ==> resp == rejection.value && unchanged(db)
    ensures ChangeRejection(req, cfg, resolve).None? ==>
      && db.identities == (if updateFailure.None?
                           then old(db.identities)[SessionUser(req, resolve).value.id := req.form["new_password"]]
                           else old(db.identities))
      && db.orders == old(db.orders) && db.messages == old(db.messages) && db.rewards == old(db.rewards)
      && resp == Reported(Origin, updateFailure, "Password updated successfully!")
  {
    var gate := Authenticate(req, AnonConfigured(cfg), Origin, resolve);
    if gate.Stop? {
      return gate.response;
    }
    var password := Field(req.form, "new_password");
    if !Truthy(password) || |password.value| < MinLength {
      return Redirect(Origin, Error("Password must be at least 6 characters"));
    }
    var error := db.UpdatePassword(gate.user.id, password.value, updateFailure);
    resp := Reported(Origin, error, "Password updated successfully!");
  }

  // ---------------------------------------------------------------- properties

  /** The length is the only rule: a password is accepted exactly when it has six or more characters. */
  lemma LengthIsTheOnlyRule(password: Option<string>)
    ensures !TooShort(password) <==> password.Some? && |password.value| >= 6
  {
  }

  /** The update is issued exactly when the preamble passes and the password is long enough. */
  lemma ChangeAcceptedIff(req: Request, cfg: Config, resolve: string -> Option<User>)
    ensures ChangeRejection(req, cfg, resolve).None? <==>
      && req.verb == "POST" && AnonConfigured(cfg) && SessionUser(req, resolve).Some?
      && "new_password" in req.form && |req.form["new_password"]| >= 6
  {
  }

  /** Six characters of anything, white space included, pass; five never do. */
  lemma BoundaryLengths(req: Request, cfg: Config, resolve: string -> Option<User>)
    requires Refusal(req, AnonConfigured(cfg), Origin, resolve).None?
    ensures "new_password" in req.form && |req.form["new_password"]| == 6 ==> ChangeRejection(req, cfg, resolve).None?
    ensures "new_password" in req.form && |req.form["new_password"]| == 5 ==>
      ChangeRejection(req, cfg, resolve) == Some(Redirect("/settings", Error("Password must be at least 6 characters")))
  {
  }
}
