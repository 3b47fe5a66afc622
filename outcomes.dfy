/** What the server hands back: the structured outcome a result page is rendered from,
    the other kinds of response, the emails it sends and the links they carry. */
module Outcomes {
  import opened Results
  import opened Js

  /** The market the account-check link always names. */
  const DefaultMarket := "ES"

  /** `CALLBACK_REDIRECT_URI` is read from a configuration field that is only written
      later, by the handler of `/`, so the constant holds `undefined` and the link carries
      `encodeURIComponent(undefined)`. */
  const CapturedRedirectUri := "undefined"

  const CheckIcon := "\U{2713}"
  const CrossIcon := "\U{274C}"
  const WarningIcon := "\U{26A0}\U{FE0F}"
  const HourglassIcon := "\U{23F3}"

  /** Message-box text shared by several error pages. */
  const RetryMessage := "Intenta de nuevo"

  /** The caption of the payment-id row on the success and payment-status pages. */
  const PaymentIdCaption := "Payment ID:"

  datatype Kind = Succeeded | Failed | Pending

  /** A value shown on a page: plain text, or an amount with its currency (formatting
      numbers for display is not modelled). */
  datatype Value = Text(text: string) | Money(amount: Option<Number>, currency: string)

  datatype Row = Row(caption: string, value: Value)

  /** The fields of the callback template: icon, title, subtitle, the kind of result
      (success, failure, or a payment still in process), the information rows, the
      message box and the error details ("" when absent). The CSS class of the status
      box is not modelled: the payment-status page gives a payment in process the same
      error-styled box as a failure. */
  datatype Outcome = Outcome(
    icon: string,
    title: string,
    subtitle: string,
    kind: Kind,
    rows: seq<Row>,
    message: string,
    detail: string)

  /** An HTML page rendered from an outcome, or a bare text body. */
  datatype Response = Page(status: nat, outcome: Outcome) | Plain(status: nat, body: string)

  /** A page that reports success. */
  predicate IsSuccess(r: Response) {
    r.Page? && r.outcome.kind == Succeeded
  }

  /** An error outcome without information rows. */
  function Failure(icon: string, title: string, subtitle: string, message: string, detail: string): Outcome
  {
    Outcome(icon, title, subtitle, Failed, [], message, detail)
  }

  /** The link an email carries, by its parts; `Url` spells it out. */
  datatype Link =
    | AccountCheckLink(clientId: string, sessionId: string)
    | PaymentLink(clientId: string, market: string, paymentId: string)

  /** An email the server hands to the mail transport. */
  datatype Mail = Mail(to: string, subject: string, link: Link)

  function Url(l: Link): string {
    match l
    case AccountCheckLink(clientId, sessionId) => AccountCheckUrl(clientId, sessionId)
    case PaymentLink(clientId, market, paymentId) => PaymentUrl(clientId, market, paymentId)
  }

  /** What the mail transport reports back. */
  datatype Delivery = Delivered | NotDelivered(message: string)

  /** The account-check link of the verification email. */
  function AccountCheckUrl(clientId: string, sessionId: string): string {
    "https://link.tink.com/1.0/account-check/?client_id=" + clientId
      + "&redirect_uri=" + CapturedRedirectUri
      + "?session=" + sessionId + "&market=" + DefaultMarket
      + "&locale=es_ES&input_provider=es-demobank-open-banking-embedded"
  }

  /** The account-check link carries the session id and the default market. */
  lemma AccountCheckUrlNamesSession(clientId: string, sessionId: string)
    ensures Contains(AccountCheckUrl(clientId, sessionId), "?session=" + sessionId + "&market=" + DefaultMarket)
  {
    var head := "https://link.tink.com/1.0/account-check/?client_id=" + clientId
      + "&redirect_uri=" + CapturedRedirectUri;
    var part := "?session=" + sessionId + "&market=" + DefaultMarket;
    var u := AccountCheckUrl(clientId, sessionId);
    assert u == head + part + "&locale=es_ES&input_provider=es-demobank-open-banking-embedded";
    assert OccursAt(u, part, |head|) by {
      assert u[|head|..|head| + |part|] == part;
    }
  }

  /** The payment link of the payment email. */
  function PaymentUrl(clientId: string, market: string, paymentId: string): string {
    "https://link.tink.com/1.0/pay/?client_id=" + clientId
      + "&redirect_uri=http%3A%2F%2Flocalhost%3A3000%2Fcallback"
      + "&market=" + market + "&"
      + "locale=es_ES&payment_request_id=" + paymentId
  }

  /** The payment link carries the market and ends with the payment-request id. */
  lemma PaymentUrlNamesPayment(clientId: string, market: string, paymentId: string)
    ensures var u := PaymentUrl(clientId, market, paymentId);
      && Contains(u, "&market=" + market + "&")
      && |u| >= |paymentId| && u[|u| - |paymentId|..] == paymentId
  {
    var head := "https://link.tink.com/1.0/pay/?client_id=" + clientId
      + "&redirect_uri=http%3A%2F%2Flocalhost%3A3000%2Fcallback";
    var part := "&market=" + market + "&";
    var u := PaymentUrl(clientId, market, paymentId);
    assert u == head + part + "locale=es_ES&payment_request_id=" + paymentId;
    assert OccursAt(u, part, |head|) by {
      assert u[|head|..|head| + |part|] == part;
    }
  }

  /** The URL an email's link spells out names the ids it carries: the session of an
      account-check link, the market and payment of a payment link. */
  lemma UrlNamesIds(l: Link)
    ensures l.AccountCheckLink? ==> Contains(Url(l), "?session=" + l.sessionId + "&market=" + DefaultMarket)
    ensures l.PaymentLink? ==>
      && Contains(Url(l), "&market=" + l.market + "&")
      && |Url(l)| >= |l.paymentId| && Url(l)[|Url(l)| - |l.paymentId|..] == l.paymentId
  {
    match l
    case AccountCheckLink(clientId, sessionId) => AccountCheckUrlNamesSession(clientId, sessionId);
    case PaymentLink(clientId, market, paymentId) => PaymentUrlNamesPayment(clientId, market, paymentId);
  }
}
