/** The POST handler of app/api/send-welcome-email/route.ts: it reads a JSON
    body with an address and a name, refuses it when either is missing or
    empty, asks the e-mail provider for the welcome message, and answers
    with a status code. The provider call is not modelled; its reported
    success is a parameter. */
module SendWelcomeEmail {
  import opened Common

  /** The request body as the handler sees it: not valid JSON (parsing
      throws), JSON `null` (destructuring it throws), or a value whose
      `email` and `name` are read (absent or `null` fields are `None`). */
  datatype RequestBody = Unparsable | NullBody | Fields(email: Option<string>, name: Option<string>)

  /** The JSON answered: `{ error: ... }` or `{ success: true }`. */
  datatype ReplyBody = ErrorBody(error: string) | SuccessBody

  datatype Reply = Reply(status: int, body: ReplyBody)

  /** The answer, and the welcome message asked for, if any. */
  datatype Handled = Handled(sent: Option<EmailRequest>, reply: Reply)

  /** The body carries a non-empty address and a non-empty name. */
  predicate Complete(body: RequestBody)
  {
    body.Fields? && Truthy(body.email) && Truthy(body.name)
  }

  /** `POST`. A body that cannot be read gives 500 "Internal server error";
      a missing or empty address or name gives 400 and nothing is sent;
      otherwise the welcome message is asked for with the body's address
      and name, and the answer is 200 `{ success: true }` when the provider
      reports success and 500 "Failed to send email" when it does not. The
      provider wrapper never throws (it reports failures as a result). */
  function Post(body: RequestBody, delivered: bool): (h: Handled)
    ensures h.reply.status in {200, 400, 500}
    ensures h.sent.Some? <==> Complete(body)
    ensures h.sent.Some? ==> h.sent.value == EmailRequest(Welcome, body.email.value, body.name.value)
    ensures h.reply.status == 400 <==> body.Fields? && !Complete(body)
    ensures h.reply.status == 400 ==> h.reply.body == ErrorBody("Email and name are required")
    ensures h.reply.status == 200 <==> Complete(body) && delivered
    ensures h.reply.status == 200 ==> h.reply.body == SuccessBody
    ensures !body.Fields? ==> h.reply == Reply(500, ErrorBody("Internal server error"))
    ensures Complete(body) && !delivered ==> h.reply == Reply(500, ErrorBody("Failed to send email"))
  {
    match body
    case Unparsable => Handled(None, Reply(500, ErrorBody("Internal server error")))
    case NullBody => Handled(None, Reply(500, ErrorBody("Internal server error")))
    case Fields(email, name) =>
      if !Truthy(email) || !Truthy(name) then
        Handled(None, Reply(400, ErrorBody("Email and name are required")))
      else
        var sent := Some(EmailRequest(Welcome, email.value, name.value));
        if !delivered then Handled(sent, Reply(500, ErrorBody("Failed to send email")))
        else Handled(sent, Reply(200, SuccessBody))
  }

  /** An empty body `{}` is refused with 400 and nothing is sent. */
  lemma EmptyBodyRefused(delivered: bool)
    ensures Post(Fields(None, None), delivered) == Handled(None, Reply(400, ErrorBody("Email and name are required")))
  {
  }

  /** The provider's outcome decides only the answer to a complete body; it
      never changes what is sent. */
  lemma DeliveryOnlyAffectsReply(body: RequestBody)
    ensures Post(body, true).sent == Post(body, false).sent
    ensures !Complete(body) ==> Post(body, true) == Post(body, false)
  {
  }
}
