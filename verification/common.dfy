/** Value-level building blocks shared by the pages and routes: JavaScript's
    optional strings and their truthiness, the shape of what a storage or
    auth call yields, the e-mails the app asks its provider to send, and the
    decimal rendering of counts inside template strings. */
module Common {

  datatype Option<+T> = None | Some(value: T)

  /** JavaScript truthiness of an optional string: `undefined`, `null` and
      the empty string are falsy, every other string is truthy. */
  predicate Truthy(s: Option<string>)
  {
    s.Some? && s.value != ""
  }

  /** `a || b` on optional strings: the first operand when it is truthy,
      otherwise the second, whatever it is. */
  function Or(a: Option<string>, b: Option<string>): (r: Option<string>)
    ensures Truthy(r) <==> Truthy(a) || Truthy(b)
    ensures Truthy(a) ==> r == a
    ensures !Truthy(a) ==> r == b
  {
    if Truthy(a) then a else b
  }

  /** `count || 0` for a count that may be absent. */
  function CountOrZero(count: Option<nat>): nat
  {
    if count.Some? then count.value else 0
  }

  /** `a || "fallback"`: the string itself when it is truthy, else the fallback. */
  function OrElse(a: Option<string>, fallback: string): (r: string)
    ensures Truthy(a) ==> Some(r) == a
    ensures !Truthy(a) ==> r == fallback
  {
    if Truthy(a) then a.value else fallback
  }

  /** What awaiting a call on the storage or auth client yields: either the
      `{ data, error }` pair the client returns, where `error` holds the
      message of the error object when there is one, or an exception it
      throws, with that exception's message. */
  datatype Response<T> = Responded(error: Option<string>, data: T) | Threw(message: string)
  {
    /** The call came back and reported no error. */
    predicate Ok()
    {
      Responded? && error.None?
    }

    /** The message a handler of the form `if (error) throw error` followed
        by `catch (e) { ... e.message ... }` records. */
    function FailureMessage(): string
      requires !Ok()
    {
      if Threw? then message else error.value
    }
  }

  /** The two messages the app sends through its e-mail provider. */
  datatype EmailKind = Welcome | OnboardingComplete

  /** One request to the e-mail provider: which message, to whom, and the
      name the greeting uses. */
  datatype EmailRequest = EmailRequest(kind: EmailKind, to: string, name: string)

  // ---------------------------------------------------------------------
  // Decimal rendering of counts, as `${n}` renders a non-negative integer.
  // ---------------------------------------------------------------------

  predicate IsDigit(c: char)
  {
    '0' <= c <= '9'
  }

  predicate AllDigits(s: string)
  {
    forall i | 0 <= i < |s| :: IsDigit(s[i])
  }

  function DigitChar(d: nat): (c: char)
    requires d < 10
    ensures IsDigit(c) && c as int - '0' as int == d
  {
    ('0' as int + d) as char
  }

  /** The shortest decimal numeral of `n`: at least one digit, and no
      leading zero unless `n` is zero itself. */
  function Decimal(n: nat): (s: string)
    ensures |s| >= 1 && AllDigits(s)
    ensures s[0] == '0' ==> n == 0
    decreases n
  {
    if n < 10 then [DigitChar(n)] else Decimal(n / 10) + [DigitChar(n % 10)]
  }

  /** The value a string of decimal digits denotes. */
  function DigitsValue(s: string): nat
    requires AllDigits(s)
  {
    if s == [] then 0
    else DigitsValue(s[..|s| - 1]) * 10 + (s[|s| - 1] as int - '0' as int)
  }

  /** Reading back the rendered numeral gives the number again. */
  lemma {:induction false} DecimalRoundTrip(n: nat)
    ensures DigitsValue(Decimal(n)) == n
    decreases n
  {
    var s := Decimal(n);
    if n >= 10 {
      DecimalRoundTrip(n / 10);
      assert s[..|s| - 1] == Decimal(n / 10);
    }
  }

  /** Two different counts never render to the same text. */
  lemma DecimalInjective(m: nat, n: nat)
    requires Decimal(m) == Decimal(n)
    ensures m == n
  {
    DecimalRoundTrip(m);
    DecimalRoundTrip(n);
  }
}
