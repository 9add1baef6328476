/**
 * netlify/functions/auth-delete-account.ts: a signed-in user who retypes
 * their email deletes their orders, messages and rewards, then their auth
 * identity; on success both session cookies are cleared. Runs on the service key.
 */
module AuthDeleteAccount {
  import opened Wrappers
  import opened Http
  import opened Tables

  const Origin := "/settings"

  /**
   * `confirm_email !== user.email`, negated: the field, null when not sent,
   * against the session email, undefined when the user has none. Null never
   * equals undefined, so only two present, identical strings match.
   */
  predicate ConfirmMatches(confirm: Option<string>, email: Option<string>)
  {
    confirm.Some? && email.Some? && confirm.value == email.value
  }

  /**
   * The response the handler stops with before deleting anything, or None
   * when it goes on: the shared preamble, then the email confirmation.
   */
  function DeleteRejection(req: Request, cfg: Config, resolve: string -> Option<User>): Option<Response>
  {
    var refusal := Refusal(req, ServiceConfigured(cfg), Origin, resolve);
    if refusal.Some? then refusal
    else if !ConfirmMatches(Field(req.form, "confirm_email"), SessionUser(req, resolve).value.email) then
      Some(Redirect(Origin, Error("Email confirmation does not match")))
    else None
  }

  /** The last response: the settings page with the backend's message, or /login with both cookies cleared. */
  function DeletionReport(deleteError: Option<string>): Response
  {
    if deleteError.Some? then Redirect(Origin, BackendError(deleteError.value))
    else RedirectSettingCookies("/login", Success("Your account has been deleted"), ClearedSessionCookies())
  }

  /**
   * The handler. The three table deletes may fail (their errors are
   * discarded); `identityFailure` is the error of the identity delete.
   */
  method DeleteAccount(db: Backend, cfg: Config, req: Request, resolve: string -> Option<User>,
                       ordersFailure: Option<string>, messagesFailure: Option<string>,
                       rewardsFailure: Option<string>, identityFailure: Option<string>)
    returns (resp: Response)
    modifies db
    ensures var rejection := DeleteRejection(req, cfg, resolve);
      rejection.Some? ==> resp == rejection.value && unchanged(db)
    ensures DeleteRejection(req, cfg, resolve).None? ==>
      var uid := SessionUser(req, resolve).value.id;
      && db.orders == (if ordersFailure.None? then Without(old(db.orders), OrderOwner, uid) else old(db.orders))
      && db.messages == (if messagesFailure.None? then Without(old(db.messages), MessageOwner, uid) else old(db.messages))
      && db.rewards == (if rewardsFailure.None? then Without(old(db.rewards), RewardOwner, uid) else old(db.rewards))
      && db.identities == (if identityFailure.None? then old(db.identities) - {uid} else old(db.identities))
      && resp == DeletionReport(identityFailure)
  {
    var gate := Authenticate(req, ServiceConfigured(cfg), Origin, resolve);
    if gate.Stop? {
      return gate.response;
    }
    var user := gate.user;
    var confirm := Field(req.form, "confirm_email");
    if !ConfirmMatches(confirm, user.email) {
      return Redirect(Origin, Error("Email confirmation does not match"));
    }
    var ignored := db.DeleteOrdersOf(user.id, ordersFailure);
    ignored := db.DeleteMessagesOf(user.id, messagesFailure);
    ignored := db.DeleteRewardsOf(user.id, rewardsFailure);
    var deleteError := db.DeleteIdentity(user.id, identityFailure);
    resp := DeletionReport(deleteError);
  }

  // ---------------------------------------------------------------- properties

  /** Anything is deleted exactly when the preamble passes and the typed email is the session email. */
  lemma DeleteAcceptedIff(req: Request, cfg: Config, resolve: string -> Option<User>)
    ensures DeleteRejection(req, cfg, resolve).None? <==>
      && req.verb == "POST" && ServiceConfigured(cfg) && SessionUser(req, resolve).Some?
      && "confirm_email" in req.form && SessionUser(req, resolve).value.email == Some(req.form["confirm_email"])
  {
  }

  /** A user without an email can never delete the account, whatever is typed. */
  lemma NoEmailNoDeletion(req: Request, cfg: Config, resolve: string -> Option<User>)
    requires SessionUser(req, resolve).Some? && SessionUser(req, resolve).value.email.None?
    ensures DeleteRejection(req, cfg, resolve).Some?
  {
  }

  /** The comparison is exact: a typed email differing in any way, case or spaces included, is refused. */
  lemma ConfirmationIsExact(confirm: string, email: string)
    ensures ConfirmMatches(Some(confirm), Some(email)) <==> confirm == email
  {
  }

  /** Cookies are cleared exactly when the identity is gone; a failure leaves the session cookies alone. */
  lemma ReportClearsCookiesIffDeleted(deleteError: Option<string>)
    ensures DeletionReport(deleteError).setCookies != [] <==> deleteError.None?
    ensures deleteError.None? ==> DeletionReport(deleteError).setCookies == ClearedSessionCookies()
    ensures deleteError.None? ==> DeletionReport(deleteError).location == Some(Location("/login", Success("Your account has been deleted")))
    ensures WellFormed(DeletionReport(deleteError))
  {
  }

  /** After a successful delete no row of the user is left; every other user's rows are kept. */
  lemma CascadeRemovesOnlyTheUser<T>(rows: seq<T>, owner: T -> UserId, uid: UserId)
    ensures forall r :: r in Without(rows, owner, uid) ==> owner(r) != uid
    ensures forall r :: r in rows && owner(r) != uid ==> r in Without(rows, owner, uid)
  {
    var kept := Without(rows, owner, uid);
    forall r | r in kept ensures owner(r) != uid {
      assert r in multiset(kept);
    }
    forall r | r in rows && owner(r) != uid ensures r in kept {
      assert r in multiset(rows);
    }
  }
}
