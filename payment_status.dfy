/** The payment-status callback (`handlePayment`): a client token, then the payment
    request's detail, whose status decides between a completed and a pending payment.
    A failed detail request still yields a page, built from defaults. */
module PaymentStatus {
  import opened Results
  import opened Js
  import opened TinkApi
  import opened Outcomes
  import opened Steps

  /** The status a payment has when the detail gives none. */
  const UnknownStatus := "UNKNOWN"

  /** The status that counts as success, in upper case. */
  const Completed := "COMPLETED"

  /** The text shown for a missing currency. */
  const NotAvailable := "N/A"

  const TokenErrorTitle := "Error"
  const TokenErrorSubtitle := "No se pudieron obtener detalles"
  const CompletedTitle := "Pago completado"
  const PendingTitle := "Pago en proceso"
  const StatusPrefix := "Estado: "
  const PaymentPrefix := " Pago "
  const AmountCaption := "Importe transferencia:"

  /** The detail the page is built from: none when the detail request failed. */
  function DetailOf(up: Upstream): (det: Option<Detail>)
    ensures det.Some? <==> Accept(PaymentDetail, up.detail).Ok?
    ensures det.Some? ==> det.value == Accept(PaymentDetail, up.detail).value
  {
    match Accept(PaymentDetail, up.detail)
    case Ok(d) => Some(d)
    case Err(_) => None
  }

  /** `(det && det.status) || "UNKNOWN"` */
  function ReportedStatus(det: Option<Detail>): (st: string)
    ensures st != ""
    ensures det.Some? && Truthy(det.value.status) ==> st == det.value.status.value
    ensures !(det.Some? && Truthy(det.value.status)) ==> st == UnknownStatus
  {
    match det
    case None => UnknownStatus
    case Some(d) => Or(d.status, UnknownStatus)
  }

  /** `st.toUpperCase() === "COMPLETED"` picks success; every other status is pending,
      never failed. */
  function Classify(st: string): (k: Kind)
    ensures k == Succeeded <==> EqualsIgnoringCase(st, Completed)
    ensures k != Failed
  {
    UpperCaseComparison(st, Completed);
    if ToUpperCase(st) == Completed then Succeeded else Pending
  }

  /** Two characters that are the same letter up to case have the same upper case. */
  lemma SameUpperChar(c: char, d: char)
    requires SameIgnoringCase(c, d)
    ensures UpperChar(c) == UpperChar(d)
  {
  }

  /** Case-insensitively equal statuses are classified alike. */
  lemma {:induction false} ClassifyIgnoresCase(a: string, b: string)
    requires EqualsIgnoringCase(a, b)
    ensures Classify(a) == Classify(b)
  {
    forall i | 0 <= i < |a| ensures ToUpperCase(a)[i] == ToUpperCase(b)[i] {
      SameUpperChar(a[i], b[i]);
    }
    assert ToUpperCase(a) == ToUpperCase(b);
  }

  /** The status page: icon, title and kind from the classification, the status in the
      subtitle and the message, the amount and the payment id in the rows. */
  function StatusPage(paymentId: string, det: Option<Detail>): Outcome {
    var st := ReportedStatus(det);
    var kind := Classify(st);
    var icon := if kind == Succeeded then CheckIcon else HourglassIcon;
    var amount := if det.Some? then det.value.amount else None;
    var currency := if det.Some? then Or(det.value.currency, NotAvailable) else NotAvailable;
    Outcome(icon, if kind == Succeeded then CompletedTitle else PendingTitle, StatusPrefix + st, kind,
      [ Row(AmountCaption, Money(amount, currency)),
        Row(PaymentIdCaption, Text(paymentId)) ],
      icon + PaymentPrefix + st, "")
  }

  /** The 500 page for a client token that could not be had. */
  function TokenErrorPage(error: string): Response {
    Page(500, Failure(CrossIcon, TokenErrorTitle, TokenErrorSubtitle, RetryMessage, error))
  }

  /** `handlePayment`: without a client token the page reports a 500; otherwise the
      detail is requested with that token and the page, always a 200, says whether the
      payment completed. The detail request starts inside the `try` of the token reply,
      so a payment id that makes the path refused fails as the token step. */
  function HandlePayment(paymentId: string, up: Upstream): (h: Handled)
    ensures ShortCircuits(h.calls, up)
    ensures Accept(ClientCredentialsToken, up.clientToken).Err? ==>
      h == Handled(TokenErrorPage(Accept(ClientCredentialsToken, up.clientToken).error), [RequestClientToken])
    ensures Accept(ClientCredentialsToken, up.clientToken).Ok? && !PathAllowed(DetailPathPrefix + paymentId) ==>
      h == Handled(TokenErrorPage(UnescapedPathMessage), [RequestClientToken])
    ensures Accept(ClientCredentialsToken, up.clientToken).Ok? && PathAllowed(DetailPathPrefix + paymentId) ==>
      && h.calls == [RequestClientToken, FetchPaymentDetail(Accept(ClientCredentialsToken, up.clientToken).value, paymentId)]
      && h.response.Page? && h.response.status == 200
      && h.response.outcome.kind != Failed
      && (h.response.outcome.kind == Succeeded <==>
            && Accept(PaymentDetail, up.detail).Ok?
            && Truthy(Accept(PaymentDetail, up.detail).value.status)
            && EqualsIgnoringCase(Accept(PaymentDetail, up.detail).value.status.value, Completed))
      && h.response.outcome.title == (if h.response.outcome.kind == Succeeded then CompletedTitle else PendingTitle)
      && h.response.outcome.icon == (if h.response.outcome.kind == Succeeded then CheckIcon else HourglassIcon)
      && h.response.outcome.subtitle == StatusPrefix + ReportedStatus(DetailOf(up))
      && h.response.outcome.message == h.response.outcome.icon + PaymentPrefix + ReportedStatus(DetailOf(up))
      && |h.response.outcome.rows| == 2
      && h.response.outcome.rows[0] == Row(AmountCaption, Money(
           if DetailOf(up).Some? then DetailOf(up).value.amount else None,
           if DetailOf(up).Some? then Or(DetailOf(up).value.currency, NotAvailable) else NotAvailable))
      && h.response.outcome.rows[1] == Row(PaymentIdCaption, Text(paymentId))
  {
    match Accept(ClientCredentialsToken, up.clientToken)
    case Err(e) => Stop(RequestClientToken, TokenErrorPage(e))
    case Ok(token) =>
      if !PathAllowed(DetailPathPrefix + paymentId) then Stop(RequestClientToken, TokenErrorPage(UnescapedPathMessage))
      else Then(RequestClientToken, Handled(Page(200, StatusPage(paymentId, DetailOf(up))), [FetchPaymentDetail(token, paymentId)]))
  }

  /** A failed detail request still yields a 200 page, for a pending payment in status
      `UNKNOWN`. */
  lemma FailedDetailIsPending(paymentId: string, up: Upstream)
    requires Accept(ClientCredentialsToken, up.clientToken).Ok? && PathAllowed(DetailPathPrefix + paymentId)
    requires Accept(PaymentDetail, up.detail).Err?
    ensures var h := HandlePayment(paymentId, up);
      && h.response.Page? && h.response.status == 200
      && h.response.outcome.kind == Pending
      && h.response.outcome.title == PendingTitle
      && h.response.outcome.subtitle == StatusPrefix + UnknownStatus
  {
    assert !EqualsIgnoringCase(UnknownStatus, Completed) by {
      assert !SameIgnoringCase(UnknownStatus[0], Completed[0]);
    }
  }

  /** The classification depends only on the reported status: two runs whose details
      report the same status (whatever their amounts) are classified alike. */
  lemma ClassificationDependsOnStatus(paymentId: string, up1: Upstream, up2: Upstream)
    requires Accept(ClientCredentialsToken, up1.clientToken).Ok? && Accept(ClientCredentialsToken, up2.clientToken).Ok?
    requires PathAllowed(DetailPathPrefix + paymentId)
    requires ReportedStatus(DetailOf(up1)) == ReportedStatus(DetailOf(up2))
    ensures var o1 := HandlePayment(paymentId, up1).response.outcome;
      var o2 := HandlePayment(paymentId, up2).response.outcome;
      o1.kind == o2.kind && o1.icon == o2.icon && o1.title == o2.title && o1.subtitle == o2.subtitle
  {
  }
}
