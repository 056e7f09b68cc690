/** The GET handler of app/api/auth/callback/route.ts: after sign-in the
    auth service redirects here with a one-time `code`; the handler trades
    it for a session, asks for a welcome e-mail when that gave a user with
    an address, and redirects to `next`. The auth and e-mail calls are not
    modelled; the exchange's outcome is a parameter. */
module AuthCallback {
  import opened Common

  /** The user an exchange returns: its address and its metadata's
      `full_name`, each possibly absent. */
  datatype AuthUser = AuthUser(email: Option<string>, fullName: Option<string>)

  /** The answer: a redirect, or the exception of an exchange that threw,
      which the handler does not catch. */
  datatype Answer = Redirect(location: string) | Unhandled(message: string)

  /** What one request does: whether the code was exchanged, the welcome
      message asked for, if any, and the answer. */
  datatype Outcome = Outcome(exchanged: bool, welcome: Option<EmailRequest>, answer: Answer)

  /** `searchParams.get("next") || "/onboarding"` */
  function RedirectTarget(next: Option<string>): (t: string)
    ensures t != ""
    ensures Truthy(next) ==> t == next.value
    ensures !Truthy(next) ==> t == "/onboarding"
  {
    OrElse(next, "/onboarding")
  }

  /** The exchange gave no error and a user with a non-empty address. */
  predicate WelcomesUser(exchange: Response<Option<AuthUser>>)
  {
    exchange.Ok() && exchange.data.Some? && Truthy(exchange.data.value.email)
  }

  /** `GET`. The code is exchanged only when a non-empty one is present; the
      welcome message is asked for only when the exchange reported no error
      and returned a user with an address, greeting the user's full name or
      "there"; the provider's failures are swallowed. Unless the exchange
      itself throws, the answer is a redirect to `next`, or "/onboarding"
      when `next` is absent or empty, whatever the exchange reported. */
  function Get(code: Option<string>, next: Option<string>, exchange: Response<Option<AuthUser>>): (o: Outcome)
    ensures o.exchanged <==> Truthy(code)
    ensures o.welcome.Some? <==> Truthy(code) && WelcomesUser(exchange)
    ensures o.welcome.Some? ==>
              o.welcome.value == EmailRequest(Welcome, exchange.data.value.email.value,
                                              OrElse(exchange.data.value.fullName, "there"))
    ensures !(Truthy(code) && exchange.Threw?) ==> o.answer == Redirect(RedirectTarget(next))
    ensures Truthy(code) && exchange.Threw? ==> o.answer == Unhandled(exchange.message)
  {
    if !Truthy(code) then Outcome(false, None, Redirect(RedirectTarget(next)))
    else
      match exchange
      case Threw(message) => Outcome(true, None, Unhandled(message))
      case Responded(error, data) =>
        var welcome :=
          if error.None? && data.Some? && Truthy(data.value.email) then
            Some(EmailRequest(Welcome, data.value.email.value, OrElse(data.value.fullName, "there")))
          else None;
        Outcome(true, welcome, Redirect(RedirectTarget(next)))
  }

  /** Without a code, the exchange's outcome is irrelevant: nothing is
      exchanged or sent, and the request is redirected. */
  lemma NoCodeNoExchange(next: Option<string>, e1: Response<Option<AuthUser>>, e2: Response<Option<AuthUser>>)
    ensures Get(None, next, e1) == Get(None, next, e2)
    ensures Get(Some(""), next, e1) == Outcome(false, None, Redirect(RedirectTarget(next)))
  {
  }
}
