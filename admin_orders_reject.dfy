/**
 * netlify/functions/admin-orders-reject.ts: an administrator (an email on the
 * ADMIN_EMAILS allow-list) rejects an order by id. Runs on the service key.
 */
module AdminOrdersReject {
  import opened Wrappers
  import opened Http
  import opened AdminGate
  import opened Tables

  const Origin := "/admin"

  /**
   * The response the handler stops with before writing, or None when it goes
   * on to update: the shared preamble, then the allow-list, then the order id.
   */
  function RejectRejection(req: Request, cfg: Config, resolve: string -> Option<User>): Option<Response>
  {
    var refusal := Refusal(req, ServiceConfigured(cfg), Origin, resolve);
    if refusal.Some? then refusal
    else if !IsAdmin(cfg.adminEmails, SessionUser(req, resolve).value.email) then
      Some(Redirect("/dashboard", Error("Unauthorized")))
    else if !Truthy(Field(req.form, "order_id")) then Some(Redirect(Origin, Error("Missing order ID")))
    else None
  }

  /** The handler; `updateFailure` is the update's error. */
  method RejectOrder(db: Backend, cfg: Config, req: Request, resolve: string -> Option<User>,
                     updateFailure: Option<string>)
    returns (resp: Response)
    modifies db
    ensures var rejection := RejectRejection(req, cfg, resolve);
      rejection.Some? ==> resp == rejection.value && unchanged(db)
    ensures RejectRejection(req, cfg, resolve).None? ==>
      && db.orders == (if updateFailure.None? then SetOrderStatus(old(db.orders), req.form["order_id"], Rejected)
                       else old(db.orders))
      && db.messages == old(db.messages) && db.rewards == old(db.rewards) && db.identities == old(db.identities)
      && resp == Reported(Origin, updateFailure, "Order rejected!")
  {
    var gate := Authenticate(req, ServiceConfigured(cfg), Origin, resolve);
    if gate.Stop? {
      return gate.response;
    }
    if !IsAdmin(cfg.adminEmails, gate.user.email) {
      return Redirect("/dashboard", Error("Unauthorized"));
    }
    var orderId := Field(req.form, "order_id");
    if !Truthy(orderId) {
      return Redirect(Origin, Error("Missing order ID"));
    }
    var error := db.UpdateOrderStatus(orderId.value, Rejected, updateFailure);
    resp := Reported(Origin, error, "Order rejected!");
  }

  // ---------------------------------------------------------------- properties

  /** The update is issued exactly when every guard passes. */
  lemma RejectAcceptedIff(req: Request, cfg: Config, resolve: string -> Option<User>)
    ensures RejectRejection(req, cfg, resolve).None? <==>
      && req.verb == "POST" && ServiceConfigured(cfg) && SessionUser(req, resolve).Some?
      && OrEmpty(SessionUser(req, resolve).value.email) in AdminList(cfg.adminEmails)
      && Truthy(Field(req.form, "order_id"))
  {
  }

  /** A signed-in user off the allow-list is sent to the dashboard, whatever the form holds. */
  lemma NonAdminUnauthorized(req: Request, cfg: Config, resolve: string -> Option<User>)
    requires Refusal(req, ServiceConfigured(cfg), Origin, resolve).None?
    requires !IsAdmin(cfg.adminEmails, SessionUser(req, resolve).value.email)
    ensures RejectRejection(req, cfg, resolve) == Some(Redirect("/dashboard", Error("Unauthorized")))
  {
  }

  /** With ADMIN_EMAILS unset, a session user without an email is let through to the form check. */
  lemma UnsetListAdmitsUserWithoutEmail(req: Request, cfg: Config, resolve: string -> Option<User>)
    requires req.verb == "POST" && ServiceConfigured(cfg) && SessionUser(req, resolve).Some?
    requires cfg.adminEmails.None? && SessionUser(req, resolve).value.email.None?
    ensures RejectRejection(req, cfg, resolve).None? <==> Truthy(Field(req.form, "order_id"))
  {
    UnsetAdmitsOnlyEmptyEmail(cfg.adminEmails, SessionUser(req, resolve).value.email);
  }

  /** A rejection leaves every other order as it was and can only lower a user's verified count. */
  lemma RejectEffect(orders: seq<Order>, id: string, uid: UserId)
    ensures |SetOrderStatus(orders, id, Rejected)| == |orders|
    ensures forall i :: 0 <= i < |orders| && orders[i].id != id ==> SetOrderStatus(orders, id, Rejected)[i] == orders[i]
    ensures forall i :: 0 <= i < |orders| && orders[i].id == id ==>
      SetOrderStatus(orders, id, Rejected)[i].status == Rejected &&
      SetOrderStatus(orders, id, Rejected)[i].(status := orders[i].status) == orders[i]
    ensures VerifiedCount(SetOrderStatus(orders, id, Rejected), uid) <= VerifiedCount(orders, uid)
  {
    RejectNeverRaisesCount(orders, id, uid);
  }
}
