/** The external calls a callback makes, the replies they get, and the rule that a chain
    of calls stops at the first one that fails. */
module Steps {
  import opened Results
  import opened TinkApi
  import opened Outcomes

  /** An external call, with the arguments the server passes. */
  datatype Call =
    | RequestClientToken
    | ExchangeCode(code: string)
    | FetchReport(token: string, reportId: string)
    | CreatePaymentRequest(token: string, payment: PaymentPayload)
    | FetchPaymentDetail(token: string, paymentId: string)
    | SendMail(mail: Mail)

  /** The reply each kind of API request gets while one callback is handled; no
      callback makes the same kind of request twice. */
  datatype Upstream = Upstream(
    clientToken: Reply<string>,
    userToken: Reply<string>,
    report: Reply<Report>,
    created: Reply<string>,
    detail: Reply<Detail>)

  /** A call succeeds when its request's reply is accepted; the server never waits for
      the result of sending a payment email. */
  predicate Succeeds(c: Call, up: Upstream) {
    match c
    case RequestClientToken => Accept(ClientCredentialsToken, up.clientToken).Ok?
    case ExchangeCode(_) => Accept(AuthorizationCodeToken, up.userToken).Ok?
    case FetchReport(_, _) => Accept(VerificationReport, up.report).Ok?
    case CreatePaymentRequest(_, _) => Accept(PaymentCreation, up.created).Ok?
    case FetchPaymentDetail(_, _) => Accept(PaymentDetail, up.detail).Ok?
    case SendMail(_) => true
  }

  /** Every call but the last succeeded: nothing is called after a failure. */
  predicate ShortCircuits(calls: seq<Call>, up: Upstream) {
    forall i :: 0 <= i < |calls| - 1 ==> Succeeds(calls[i], up)
  }

  /** The response to a callback and the calls made while producing it, in order. */
  datatype Handled = Handled(response: Response, calls: seq<Call>)

  /** `c` fails and the chain stops with `r`. */
  function Stop(c: Call, r: Response): Handled {
    Handled(r, [c])
  }

  /** `c` succeeds and `rest` goes on. */
  function Then(c: Call, rest: Handled): Handled {
    Handled(rest.response, [c] + rest.calls)
  }

  /** A chain that stops at its first failure still does after one more successful
      call in front. */
  lemma ThenShortCircuits(c: Call, rest: Handled, up: Upstream)
    requires Succeeds(c, up) && ShortCircuits(rest.calls, up)
    ensures ShortCircuits(Then(c, rest).calls, up)
  {
    var calls := Then(c, rest).calls;
    forall i | 0 <= i < |calls| - 1 ensures Succeeds(calls[i], up) {
      if i > 0 {
        assert calls[i] == rest.calls[i - 1];
      }
    }
  }
}
