/**
 * netlify/functions/rewards-claim.ts: a signed-in user with at least five
 * verified orders and no reward yet claims one by posting a name, an address
 * and a phone number, which are stored as one three-line claim address.
 */
module RewardsClaim {
  import opened Wrappers
  import opened JsString
  import opened Http
  import opened Tables

  const Origin := "/claim-reward"
  const Threshold: nat := 5

  /** The claim address: the three fields on three lines. */
  function ClaimAddress(name: string, address: string, phone: string): string
  {
    name + "\n" + address + "\n" + phone
  }

  /** The count compared with the threshold: a failed query yields no rows, which counts as 0. */
  function EligibleCount(orders: seq<Order>, uid: UserId, queryFailed: bool): nat
  {
    if queryFailed then 0 else VerifiedCount(orders, uid)
  }

  predicate FieldsPresent(form: map<string, string>)
  {
    Truthy(Field(form, "name")) && Truthy(Field(form, "address")) && Truthy(Field(form, "phone"))
  }

  /**
   * The response the handler stops with before writing, or None when it goes
   * on to insert: the shared preamble, then eligibility, then an existing
   * reward, then the three fields.
   */
  function ClaimRejection(req: Request, cfg: Config, resolve: string -> Option<User>, orders: seq<Order>,
                          countQueryFailed: bool, existingReward: bool): Option<Response>
  {
    var refusal := Refusal(req, AnonConfigured(cfg), Origin, resolve);
    if refusal.Some? then refusal
    else if EligibleCount(orders, SessionUser(req, resolve).value.id, countQueryFailed) < Threshold then
      Some(Redirect(Origin, Error("You need 5 verified orders to claim a reward")))
    else if existingReward then Some(Redirect(Origin, Error("You have already claimed your reward")))
    else if !FieldsPresent(req.form) then Some(Redirect(Origin, Error("All fields are required")))
    else None
  }

  /** The row a successful claim stores. */
  function ClaimedReward(req: Request, resolve: string -> Option<User>, newId: string): Reward
    requires SessionUser(req, resolve).Some? && FieldsPresent(req.form)
  {
    Reward(newId, SessionUser(req, resolve).value.id, Claimed,
           ClaimAddress(req.form["name"], req.form["address"], req.form["phone"]))
  }

  /**
   * The handler. `resolve` is the session lookup, `countQueryFailed` and
   * `existingReward` the outcomes of the two reads, `newId` the id the
   * database gives the new row and `insertFailure` the insert's error.
   */
  method ClaimReward(db: Backend, cfg: Config, req: Request, resolve: string -> Option<User>,
                     countQueryFailed: bool, existingReward: bool, newId: string, insertFailure: Option<string>)
    returns (resp: Response)
    modifies db
    ensures var rejection := ClaimRejection(req, cfg, resolve, old(db.orders), countQueryFailed, existingReward);
      rejection.Some? ==> resp == rejection.value && unchanged(db)
    ensures ClaimRejection(req, cfg, resolve, old(db.orders), countQueryFailed, existingReward).None? ==>
      && db.rewards == old(db.rewards) + (if insertFailure.None? then [ClaimedReward(req, resolve, newId)] else [])
      && db.orders == old(db.orders) && db.messages == old(db.messages) && db.identities == old(db.identities)
      && resp == Reported(Origin, insertFailure, "Reward claimed successfully! We will process your order soon.")
  {
    var gate := Authenticate(req, AnonConfigured(cfg), Origin, resolve);
    if gate.Stop? {
      return gate.response;
    }
    var user := gate.user;
    var count := if countQueryFailed then 0 else VerifiedCount(db.orders, user.id);
    if count < Threshold {
      return Redirect(Origin, Error("You need 5 verified orders to claim a reward"));
    }
    if existingReward {
      return Redirect(Origin, Error("You have already claimed your reward"));
    }
    var name := Field(req.form, "name");
    var address := Field(req.form, "address");
    var phone := Field(req.form, "phone");
    if !Truthy(name) || !Truthy(address) || !Truthy(phone) {
      return Redirect(Origin, Error("All fields are required"));
    }
    var row := Reward(newId, user.id, Claimed, ClaimAddress(name.value, address.value, phone.value));
    var error := db.InsertReward(row, insertFailure);
    resp := Reported(Origin, error, "Reward claimed successfully! We will process your order soon.");
  }

  // ---------------------------------------------------------------- properties

  /** The claim goes through exactly when every guard passes. */
  lemma ClaimAcceptedIff(req: Request, cfg: Config, resolve: string -> Option<User>, orders: seq<Order>,
                         countQueryFailed: bool, existingReward: bool)
    ensures ClaimRejection(req, cfg, resolve, orders, countQueryFailed, existingReward).None? <==>
      && req.verb == "POST" && AnonConfigured(cfg) && SessionUser(req, resolve).Some?
      && !countQueryFailed && VerifiedCount(orders, SessionUser(req, resolve).value.id) >= 5
      && !existingReward && FieldsPresent(req.form)
  {
  }

  /** A signed-in user short of five verified orders gets the count error, whatever else holds. */
  lemma CountCheckedFirst(req: Request, cfg: Config, resolve: string -> Option<User>, orders: seq<Order>,
                          countQueryFailed: bool, existingReward: bool)
    requires Refusal(req, AnonConfigured(cfg), Origin, resolve).None?
    requires countQueryFailed || VerifiedCount(orders, SessionUser(req, resolve).value.id) < 5
    ensures ClaimRejection(req, cfg, resolve, orders, countQueryFailed, existingReward) ==
      Some(Redirect("/claim-reward", Error("You need 5 verified orders to claim a reward")))
  {
  }

  /** An eligible user who already holds a reward is told so, whatever the form says. */
  lemma ExistingRewardBeforeFields(req: Request, cfg: Config, resolve: string -> Option<User>, orders: seq<Order>)
    requires Refusal(req, AnonConfigured(cfg), Origin, resolve).None?
    requires VerifiedCount(orders, SessionUser(req, resolve).value.id) >= 5
    ensures ClaimRejection(req, cfg, resolve, orders, false, true) ==
      Some(Redirect("/claim-reward", Error("You have already claimed your reward")))
  {
  }

  /** Without any verified order of their own, nobody can claim. */
  lemma NoVerifiedOrdersNoClaim(req: Request, cfg: Config, resolve: string -> Option<User>, orders: seq<Order>,
                                countQueryFailed: bool, existingReward: bool)
    requires SessionUser(req, resolve).Some?
    requires forall i :: 0 <= i < |orders| ==> !CountsFor(orders[i], SessionUser(req, resolve).value.id)
    ensures ClaimRejection(req, cfg, resolve, orders, countQueryFailed, existingReward).Some?
  {
  }

  /** The stored address splits back into the three fields when none of them spans lines. */
  lemma ClaimAddressRoundTrip(name: string, address: string, phone: string)
    requires '\n' !in name && '\n' !in address && '\n' !in phone
    ensures Split(ClaimAddress(name, address, phone), '\n') == [name, address, phone]
  {
    SplitAppend(name + "\n" + address, '\n', phone);
    SplitAppend(name, '\n', address);
    SplitNoSeparator(name, '\n');
    SplitNoSeparator(address, '\n');
    SplitNoSeparator(phone, '\n');
  }

  /**
   * `.single()` returns a row only when the query matches exactly one; read
   * that way, the existing-reward flag says the user owns exactly one reward.
   */
  predicate SingleRewardFound(rewards: seq<Reward>, uid: UserId)
  {
    RewardCount(rewards, uid) == 1
  }

  /**
   * Under that reading, a first claim accepted for a user without rewards
   * and then stored makes the same request fail the next time with
   * "already claimed" (the claim leaves the orders, and so the count, as they were).
   */
  lemma SecondClaimRefused(req: Request, cfg: Config, resolve: string -> Option<User>, orders: seq<Order>,
                           rewards: seq<Reward>, newId: string)
    requires SessionUser(req, resolve).Some? && RewardCount(rewards, SessionUser(req, resolve).value.id) == 0
    requires ClaimRejection(req, cfg, resolve, orders, false,
                            SingleRewardFound(rewards, SessionUser(req, resolve).value.id)).None?
    ensures FieldsPresent(req.form)
    ensures ClaimRejection(req, cfg, resolve, orders, false,
                           SingleRewardFound(rewards + [ClaimedReward(req, resolve, newId)], SessionUser(req, resolve).value.id))
            == Some(Redirect("/claim-reward", Error("You have already claimed your reward")))
  {
    RewardCountAppend(rewards, ClaimedReward(req, resolve, newId), SessionUser(req, resolve).value.id);
  }

  /** The stored row belongs to the session user, is in the claimed state and keeps each field. */
  lemma ClaimedRewardContents(req: Request, resolve: string -> Option<User>, newId: string)
    requires SessionUser(req, resolve).Some? && FieldsPresent(req.form)
    ensures var r := ClaimedReward(req, resolve, newId);
      && r.userId == SessionUser(req, resolve).value.id && r.status == Claimed
      && r.claimAddress[..|req.form["name"]|] == req.form["name"]
      && r.claimAddress[|r.claimAddress| - |req.form["phone"]|..] == req.form["phone"]
  {
  }
}
