/**
 * netlify/functions/messages-send.ts: a signed-in user sends a message to the
 * administrators; the body is stored trimmed.
 */
module MessagesSend {
  import opened Wrappers
  import opened JsString
  import opened Http
  import opened Tables

  const Origin := "/messages"

  /** `!body || body.trim().length === 0`. */
  predicate EmptyBody(body: Option<string>)
  {
    !Truthy(body) || |Trim(body.value)| == 0
  }

  /**
   * The response the handler stops with before inserting, or None when it
   * goes on: the shared preamble, then the empty-body check.
   */
  function SendRejection(req: Request, cfg: Config, resolve: string -> Option<User>): Option<Response>
  {
    var refusal := Refusal(req, AnonConfigured(cfg), Origin, resolve);
    if refusal.Some? then refusal
    else if EmptyBody(Field(req.form, "body")) then Some(Redirect(Origin, Error("Message cannot be empty")))
    else None
  }

  /** The row a successful send stores. */
  function SentMessage(req: Request, resolve: string -> Option<User>): Message
    requires SessionUser(req, resolve).Some? && "body" in req.form
  {
    Message(SessionUser(req, resolve).value.id, FromUser, Trim(req.form["body"]))
  }

  /** The handler; `insertFailure` is the insert's error. */
  method SendMessage(db: Backend, cfg: Config, req: Request, resolve: string -> Option<User>,
                     insertFailure: Option<string>)
    returns (resp: Response)
    modifies db
    ensures var rejection := SendRejection(req, cfg, resolve);
      rejection.Some? ==> resp == rejection.value && unchanged(db)
    ensures SendRejection(req, cfg, resolve).None? ==>
      && db.messages == old(db.messages) + (if insertFailure.None? then [SentMessage(req, resolve)] else [])
      && db.orders == old(db.orders) && db.rewards == old(db.rewards) && db.identities == old(db.identities)
      && resp == Reported(Origin, insertFailure, "Message sent successfully!")
  {
    var gate := Authenticate(req, AnonConfigured(cfg), Origin, resolve);
    if gate.Stop? {
      return gate.response;
    }
    var body := Field(req.form, "body");
    if !Truthy(body) || |Trim(body.value)| == 0 {
      return Redirect(Origin, Error("Message cannot be empty"));
    }
    var error := db.InsertMessage(Message(gate.user.id, FromUser, Trim(body.value)), insertFailure);
    resp := Reported(Origin, error, "Message sent successfully!");
  }

  // ---------------------------------------------------------------- properties

  /** A body is refused exactly when it is absent or all white space (the empty body included). */
  lemma EmptyBodyIffBlank(body: Option<string>)
    ensures EmptyBody(body) <==> body.None? || AllSpace(body.value)
  {
    if body.Some? {
      TrimEmptyIffAllSpace(body.value);
    }
  }

  /** The stored body is non-empty, starts and ends with a non-space and is a piece of what was sent. */
  lemma SentMessageContents(req: Request, cfg: Config, resolve: string -> Option<User>)
    requires SendRejection(req, cfg, resolve).None?
    ensures "body" in req.form
    ensures var m := SentMessage(req, resolve);
      && m.fromRole == FromUser && m.userId == SessionUser(req, resolve).value.id
      && m.body != "" && !IsSpace(m.body[0]) && !IsSpace(m.body[|m.body| - 1])
      && exists i, j :: 0 <= i <= j <= |req.form["body"]| && m.body == req.form["body"][i..j]
  {
    var i, j := TrimSlice(req.form["body"]);
  }

  /** A body already trimmed is stored unchanged. */
  lemma TrimmedBodyStoredVerbatim(req: Request, resolve: string -> Option<User>)
    requires SessionUser(req, resolve).Some? && "body" in req.form
    requires Trim(req.form["body"]) == req.form["body"]
    ensures SentMessage(req, resolve).body == req.form["body"]
  {
  }

  /** Sending the stored body again would store it unchanged: trimming is idempotent. */
  lemma StoredBodyIsFixedPoint(req: Request, resolve: string -> Option<User>)
    requires SessionUser(req, resolve).Some? && "body" in req.form
    ensures Trim(SentMessage(req, resolve).body) == SentMessage(req, resolve).body
  {
    TrimIdempotent(req.form["body"]);
  }
}
