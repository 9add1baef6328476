/**
 * netlify/functions/orders-submit.ts: a signed-in user submits an order
 * (number, source, date and an optional receipt link) for review.
 */
module OrdersSubmit {
  import opened Wrappers
  import opened Http
  import opened Tables

  const Origin := "/submit-order"

  predicate RequiredPresent(form: map<string, string>)
  {
    Truthy(Field(form, "order_number")) && Truthy(Field(form, "source")) && Truthy(Field(form, "order_date"))
  }

  /** `receipt_url || null`: an absent or empty link is stored as null. */
  function ReceiptUrl(form: map<string, string>): Option<string>
  {
    if Truthy(Field(form, "receipt_url")) then Field(form, "receipt_url") else None
  }

  /**
   * The response the handler stops with before inserting, or None when it
   * goes on: the shared preamble, then the three required fields.
   */
  function SubmitRejection(req: Request, cfg: Config, resolve: string -> Option<User>): Option<Response>
  {
    var refusal := Refusal(req, AnonConfigured(cfg), Origin, resolve);
    if refusal.Some? then refusal
    else if !RequiredPresent(req.form) then Some(Redirect(Origin, Error("Missing required fields")))
    else None
  }

  /** The row a successful submission stores. */
  function SubmittedOrder(req: Request, resolve: string -> Option<User>, newId: string): Order
    requires SessionUser(req, resolve).Some? && RequiredPresent(req.form)
  {
    Order(newId, SessionUser(req, resolve).value.id, req.form["order_number"], req.form["source"],
          req.form["order_date"], ReceiptUrl(req.form), Pending)
  }

  /** The handler; `newId` is the id the database gives the row, `insertFailure` the insert's error. */
  method SubmitOrder(db: Backend, cfg: Config, req: Request, resolve: string -> Option<User>,
                     newId: string, insertFailure: Option<string>)
    returns (resp: Response)
    modifies db
    ensures var rejection := SubmitRejection(req, cfg, resolve);
      rejection.Some? ==> resp == rejection.value && unchanged(db)
    ensures SubmitRejection(req, cfg, resolve).None? ==>
      && db.orders == old(db.orders) + (if insertFailure.None? then [SubmittedOrder(req, resolve, newId)] else [])
      && db.messages == old(db.messages) && db.rewards == old(db.rewards) && db.identities == old(db.identities)
      && resp == Reported(Origin, insertFailure, "Order submitted successfully! We will review it soon.")
  {
    var gate := Authenticate(req, AnonConfigured(cfg), Origin, resolve);
    if gate.Stop? {
      return gate.response;
    }
    var orderNumber := Field(req.form, "order_number");
    var source := Field(req.form, "source");
    var orderDate := Field(req.form, "order_date");
    var receiptUrl := Field(req.form, "receipt_url");
    if !Truthy(orderNumber) || !Truthy(source) || !Truthy(orderDate) {
      return Redirect(Origin, Error("Missing required fields"));
    }
    var row := Order(newId, gate.user.id, orderNumber.value, source.value, orderDate.value,
                     if Truthy(receiptUrl) then receiptUrl else None, Pending);
    var error := db.InsertOrder(row, insertFailure);
    resp := Reported(Origin, error, "Order submitted successfully! We will review it soon.");
  }

  // ---------------------------------------------------------------- properties

  /** The insert is issued exactly when the preamble passes and the three required fields are non-empty. */
  lemma SubmitAcceptedIff(req: Request, cfg: Config, resolve: string -> Option<User>)
    ensures SubmitRejection(req, cfg, resolve).None? <==>
      && req.verb == "POST" && AnonConfigured(cfg) && SessionUser(req, resolve).Some?
      && "order_number" in req.form && req.form["order_number"] != ""
      && "source" in req.form && req.form["source"] != ""
      && "order_date" in req.form && req.form["order_date"] != ""
  {
  }

  /** The stored order is pending, belongs to the session user and keeps every field verbatim (no trimming). */
  lemma SubmittedOrderContents(req: Request, resolve: string -> Option<User>, newId: string)
    requires SessionUser(req, resolve).Some? && RequiredPresent(req.form)
    ensures var o := SubmittedOrder(req, resolve, newId);
      && o.status == Pending && o.userId == SessionUser(req, resolve).value.id
      && o.orderNumber == req.form["order_number"] && o.source == req.form["source"]
      && o.orderDate == req.form["order_date"]
  {
  }

  /** The receipt link is stored verbatim when non-empty and as null otherwise. */
  lemma ReceiptUrlStored(form: map<string, string>)
    ensures ReceiptUrl(form).Some? <==> "receipt_url" in form && form["receipt_url"] != ""
    ensures ReceiptUrl(form).Some? ==> ReceiptUrl(form).value == form["receipt_url"]
  {
  }

  /** A submission, stored or not, never changes anybody's count of verified orders. */
  lemma SubmissionKeepsCounts(req: Request, resolve: string -> Option<User>, newId: string,
                              orders: seq<Order>, uid: UserId)
    requires SessionUser(req, resolve).Some? && RequiredPresent(req.form)
    ensures VerifiedCount(orders + [SubmittedOrder(req, resolve, newId)], uid) == VerifiedCount(orders, uid)
  {
    PendingInsertKeepsCount(orders, SubmittedOrder(req, resolve, newId), uid);
  }
}
