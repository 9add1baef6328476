/**
 * netlify/functions/admin-rewards-fulfill.ts: an administrator marks a
 * claimed reward as fulfilled. Runs on the service key.
 */
module AdminRewardsFulfill {
  import opened Wrappers
  import opened Http
  import opened AdminGate
  import opened Tables

  const Origin := "/admin"

  /**
   * The response the handler stops with before writing, or None when it goes
   * on to update: the shared preamble, then the allow-list, then the reward id.
   */
  function FulfillRejection(req: Request, cfg: Config, resolve: string -> Option<User>): Option<Response>
  {
    var refusal := Refusal(req, ServiceConfigured(cfg), Origin, resolve);
    if refusal.Some? then refusal
    else if !IsAdmin(cfg.adminEmails, SessionUser(req, resolve).value.email) then
      Some(Redirect("/dashboard", Error("Unauthorized")))
    else if !Truthy(Field(req.form, "reward_id")) then Some(Redirect(Origin, Error("Missing reward ID")))
    else None
  }

  /** The handler; `updateFailure` is the update's error. */
  method FulfillReward(db: Backend, cfg: Config, req: Request, resolve: string -> Option<User>,
                       updateFailure: Option<string>)
    returns (resp: Response)
    modifies db
    ensures var rejection := FulfillRejection(req, cfg, resolve);
      rejection.Some? ==> resp == rejection.value && unchanged(db)
    ensures FulfillRejection(req, cfg, resolve).None? ==>
      && db.rewards == (if updateFailure.None? then SetRewardStatus(old(db.rewards), req.form["reward_id"], Fulfilled)
                        else old(db.rewards))
      && db.orders == old(db.orders) && db.messages == old(db.messages) && db.identities == old(db.identities)
      && resp == Reported(Origin, updateFailure, "Reward marked as fulfilled!")
  {
    var gate := Authenticate(req, ServiceConfigured(cfg), Origin, resolve);
    if gate.Stop? {
      return gate.response;
    }
    if !IsAdmin(cfg.adminEmails, gate.user.email) {
      return Redirect("/dashboard", Error("Unauthorized"));
    }
    var rewardId := Field(req.form, "reward_id");
    if !Truthy(rewardId) {
      return Redirect(Origin, Error("Missing reward ID"));
    }
    var error := db.UpdateRewardStatus(rewardId.value, Fulfilled, updateFailure);
    resp := Reported(Origin, error, "Reward marked as fulfilled!");
  }

  // ---------------------------------------------------------------- properties

  /** The update is issued exactly when every guard passes. */
  lemma FulfillAcceptedIff(req: Request, cfg: Config, resolve: string -> Option<User>)
    ensures FulfillRejection(req, cfg, resolve).None? <==>
      && req.verb == "POST" && ServiceConfigured(cfg) && SessionUser(req, resolve).Some?
      && OrEmpty(SessionUser(req, resolve).value.email) in AdminList(cfg.adminEmails)
      && Truthy(Field(req.form, "reward_id"))
  {
  }

  /** Before the allow-list, a non-POST request gets 405 and an unconfigured one the admin page's error. */
  lemma FulfillPreamble(req: Request, cfg: Config, resolve: string -> Option<User>)
    ensures req.verb != "POST" ==> FulfillRejection(req, cfg, resolve) == Some(MethodNotAllowed())
    ensures req.verb == "POST" && !ServiceConfigured(cfg) ==>
      FulfillRejection(req, cfg, resolve) == Some(Redirect("/admin", Error("Configuration error")))
  {
  }

  /** A list with a blank entry lets a session user without an email through to the form check. */
  lemma BlankEntryAdmitsUserWithoutEmail(req: Request, cfg: Config, resolve: string -> Option<User>,
                                         before: string, after: string)
    requires req.verb == "POST" && ServiceConfigured(cfg) && SessionUser(req, resolve).Some?
    requires cfg.adminEmails == Some(before + ",," + after) && SessionUser(req, resolve).value.email.None?
    ensures FulfillRejection(req, cfg, resolve).None? <==> Truthy(Field(req.form, "reward_id"))
  {
    assert before + ",," + after == before + "," + "" + "," + after;
    BlankEntryAdmitsEmptyEmail(before, "", after);
  }

  /**
   * Fulfilling twice leaves the table as fulfilling once; the matching rewards
   * differ only in their status, now fulfilled, and the others are untouched.
   */
  lemma FulfillEffect(rewards: seq<Reward>, id: string)
    ensures SetRewardStatus(SetRewardStatus(rewards, id, Fulfilled), id, Fulfilled) == SetRewardStatus(rewards, id, Fulfilled)
    ensures |SetRewardStatus(rewards, id, Fulfilled)| == |rewards|
    ensures forall i :: 0 <= i < |rewards| && rewards[i].id != id ==> SetRewardStatus(rewards, id, Fulfilled)[i] == rewards[i]
    ensures forall i :: 0 <= i < |rewards| && rewards[i].id == id ==>
      SetRewardStatus(rewards, id, Fulfilled)[i].status == Fulfilled &&
      SetRewardStatus(rewards, id, Fulfilled)[i].(status := rewards[i].status) == rewards[i]
  {
    RewardStatusIdempotent(rewards, id, Fulfilled);
  }
}
