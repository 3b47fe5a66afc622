/** `POST /start`: the payment-request form is trimmed and validated, a valid one becomes
    a session, and the payer is sent the account-check link. */
module Start {
  import opened Results
  import opened Js
  import opened Sessions
  import opened Outcomes

  const DefaultCurrency := "EUR"

  lemma DefaultCurrencyIsTrimmed()
    ensures Trim(DefaultCurrency) == DefaultCurrency != ""
  {
    TrimKeepsTrimmed(DefaultCurrency);
  }

  /** The url-encoded form fields, each possibly missing. */
  datatype Form = Form(
    emailVerification: Option<string>,
    emailPayment: Option<string>,
    amount: Option<string>,
    currency: Option<string>)

  /** A field the checks treat as not given: missing, empty or white space only. */
  predicate Blank(o: Option<string>) {
    !Truthy(o) || AllWhitespace(o.value)
  }

  /** The amount check `isNaN(amt) || amt <= 0` lets this value through. */
  predicate AmountAccepted(x: Number) {
    !(IsNaN(x) || AtMostZero(x))
  }

  /** The four checks, in the order they run; the first that fails decides. */
  datatype Rejection = NoVerificationEmail | NoPaymentEmail | InvalidAmount | NoCurrency

  /** The plain-text body of the 400 response. The text for a refused amount is never
      sent: see `AmountLogError`. */
  function RejectionText(r: Rejection): string {
    match r
    case NoVerificationEmail => "Error: Email de verificación no proporcionado"
    case NoPaymentEmail => "Error: Email de pago no proporcionado"
    case InvalidAmount => "Error: Cantidad debe ser un número mayor a 0"
    case NoCurrency => "Error: Moneda no proporcionada"
  }

  datatype Validation = Rejected(reason: Rejection) | Accepted(session: Session)

  /** Trims the fields (the currency after defaulting an absent or empty one), runs the
      checks in order and builds the session of a valid form. `parseFloat` is the number
      JavaScript's `parseFloat` reads from a string. */
  function Validate(f: Form, parseFloat: string -> Number): (v: Validation)
    ensures v == Rejected(NoVerificationEmail) <==> Blank(f.emailVerification)
    ensures v == Rejected(NoPaymentEmail) <==> !Blank(f.emailVerification) && Blank(f.emailPayment)
    ensures v == Rejected(InvalidAmount) <==>
      && !Blank(f.emailVerification) && !Blank(f.emailPayment)
      && !AmountAccepted(parseFloat(Trim(Or(f.amount, ""))))
    ensures v == Rejected(NoCurrency) <==>
      && !Blank(f.emailVerification) && !Blank(f.emailPayment)
      && AmountAccepted(parseFloat(Trim(Or(f.amount, ""))))
      && Truthy(f.currency) && AllWhitespace(f.currency.value)
    ensures v.Accepted? ==>
      && v.session.emailVerification == Trim(f.emailVerification.value) != ""
      && v.session.emailPayment == Trim(f.emailPayment.value) != ""
      && v.session.amount == parseFloat(Trim(Or(f.amount, "")))
      && v.session.currency == (if Truthy(f.currency) then Trim(f.currency.value) else DefaultCurrency)
      && v.session.currency != ""
      && (v.session.amount.Infinity? || (v.session.amount.Finite? && v.session.amount.value > 0.0))
  {
    var eV := Trim(Or(f.emailVerification, ""));
    var eP := Trim(Or(f.emailPayment, ""));
    var amt := parseFloat(Trim(Or(f.amount, "")));
    var cur := Trim(Or(f.currency, DefaultCurrency));
    TrimEmpty(Or(f.emailVerification, ""));
    TrimEmpty(Or(f.emailPayment, ""));
    TrimEmpty(Or(f.currency, DefaultCurrency));
    DefaultCurrencyIsTrimmed();
    if eV == "" then Rejected(NoVerificationEmail)
    else if eP == "" then Rejected(NoPaymentEmail)
    else if IsNaN(amt) || AtMostZero(amt) then Rejected(InvalidAmount)
    else if cur == "" then Rejected(NoCurrency)
    else Accepted(Session(eV, eP, amt, cur))
  }

  /** The account-check email of a new session. */
  function VerificationMail(to: string, clientId: string, sessionId: string): Mail {
    Mail(to, "Verifica tu cuenta para recibir el pago", AccountCheckLink(clientId, sessionId))
  }

  /** Logging a refused amount names a variable `amountRaw` that is declared nowhere
      (only `amtRaw` is), so the log call throws this error before the 400 is written.
      Nothing catches it, and it ends the process. */
  const AmountLogError := "ReferenceError: amountRaw is not defined"

  /** What `/start` ends with: a status and a body written as they are (plain text for a
      refused form, a bare HTML fragment for a failed email), the confirmation page, or an
      exception that escapes the handler before any status is written. */
  datatype StartReply =
    | Written(status: nat, body: string)
    | Confirmed(email: string, amount: Number, currency: string, sessionId: string)
    | Crashed(error: string)

  /** Handles a parsed `/start` form. `id` is the fresh session id and `delivery` what the
      mail transport reports for the verification email. A rejected form changes nothing
      and sends nothing, and a refused amount ends in `AmountLogError` instead of its 400.
      A valid form is stored under `id` before the email is sent, so it stays stored when
      sending fails. */
  method HandleStart(store: SessionStore, f: Form, parseFloat: string -> Number, id: string, clientId: string, delivery: Delivery)
    returns (reply: StartReply, sent: Option<Mail>)
    modifies store
    ensures Validate(f, parseFloat).Rejected? ==>
      && store.sessions == old(store.sessions)
      && sent == None
      && reply == if Validate(f, parseFloat).reason == InvalidAmount then Crashed(AmountLogError)
                  else Written(400, RejectionText(Validate(f, parseFloat).reason))
    ensures Validate(f, parseFloat).Accepted? ==>
      var s := Validate(f, parseFloat).session;
      && store.sessions == old(store.sessions)[id := s]
      && sent == Some(VerificationMail(s.emailVerification, clientId, id))
      && reply == match delivery
           case Delivered => Confirmed(s.emailVerification, s.amount, s.currency, id)
           case NotDelivered(m) => Written(500, "<h1>Error</h1><p>" + m + "</p>")
  {
    var v := Validate(f, parseFloat);
    if v.Rejected? {
      if v.reason == InvalidAmount {
        return Crashed(AmountLogError), None;
      }
      return Written(400, RejectionText(v.reason)), None;
    }
    var s := v.session;
    store.Create(id, s);
    sent := Some(VerificationMail(s.emailVerification, clientId, id));
    match delivery
    case Delivered =>
      reply := Confirmed(s.emailVerification, s.amount, s.currency, id);
    case NotDelivered(m) =>
      reply := Written(500, "<h1>Error</h1><p>" + m + "</p>");
  }

  /** The sample submission: both addresses, the amount 25.5 and the currency EUR make a
      session with exactly those values. */
  lemma SampleSubmission(parseFloat: string -> Number)
    requires parseFloat("25.5") == Finite(25.5)
    ensures Validate(Form(Some("v@x.com"), Some("p@x.com"), Some("25.5"), Some("EUR")), parseFloat)
         == Accepted(Session("v@x.com", "p@x.com", Finite(25.5), "EUR"))
  {
    TrimKeepsTrimmed("v@x.com");
    TrimKeepsTrimmed("p@x.com");
    TrimKeepsTrimmed("25.5");
    TrimKeepsTrimmed("EUR");
  }
}
