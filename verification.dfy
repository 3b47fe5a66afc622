/** The account-verification callbacks (`handleAccountWithAuthCode` and `handleAccount`):
    look the session up, get a token, fetch the verification report, take the first
    account, create a payment request for it and email the payment link. Each step that
    fails ends the chain with its own response. */
module Verification {
  import opened Results
  import opened Js
  import opened TinkApi
  import opened Outcomes
  import opened Sessions
  import opened Steps

  const DefaultHolder := "Usuario"

  /** The payment-email subject of the authorization-code path. */
  const CodePathSubject := "Completa el pago pendiente"

  /** The payment-email subject of the client-credentials path. */
  const ClientPathSubject := "Inicia tu pago pendiente"

  /** `rep.userDataByProvider[0].accounts[0]`, when every step of that path exists. */
  function FirstAccount(rep: Report): Option<Account> {
    match rep.userDataByProvider
    case None => None
    case Some(providers) =>
      if providers == [] then None
      else match providers[0].accounts
        case None => None
        case Some(accounts) => if accounts == [] then None else Some(accounts[0])
  }

  /** `ac.holderName || ac.name || "Usuario"`: the first of the two names that is given
      and not empty, else the placeholder. */
  function HolderOf(a: Account): (h: string)
    ensures h != ""
    ensures Truthy(a.holderName) ==> h == a.holderName.value
    ensures !Truthy(a.holderName) && Truthy(a.name) ==> h == a.name.value
    ensures !Truthy(a.holderName) && !Truthy(a.name) ==> h == DefaultHolder
  {
    Or(a.holderName, Or(a.name, DefaultHolder))
  }

  /** `iban.substring(0, 2)`: the country code that opens an IBAN (ISO 13616), or the
      whole of a shorter string. */
  function MarketOf(iban: string): (m: string)
    ensures |m| == if |iban| < 2 then |iban| else 2
    ensures m == iban[..|m|]
  {
    if |iban| < 2 then iban else iban[..2]
  }

  /** What the report yields: no first account, a first account without an IBAN (on
      which `substring` throws), or the IBAN, holder and market of the first account. */
  datatype Extraction = NoAccount | IbanMissing | Extracted(iban: string, holder: string, market: string)

  function Extract(rep: Report): (x: Extraction)
    ensures x.NoAccount? <==> FirstAccount(rep).None?
    ensures x.IbanMissing? <==> FirstAccount(rep).Some? && FirstAccount(rep).value.iban.None?
    ensures x.Extracted? ==>
      var a := FirstAccount(rep).value;
      a.iban == Some(x.iban) && x.holder == HolderOf(a) && x.market == MarketOf(x.iban)
  {
    match FirstAccount(rep)
    case None => NoAccount
    case Some(a) =>
      match a.iban
      case None => IbanMissing
      case Some(ib) => Extracted(ib, HolderOf(a), MarketOf(ib))
  }

  // ---------------------------------------------------------------------------
  // Responses

  const ExpiredTitle := "Sesión expirada"
  const ExpiredSubtitle := "Datos no encontrados"
  const RestartMessage := "Vuelve a comenzar"
  const AuthErrorTitle := "Error de autenticación"
  const UserTokenSubtitle := "No se pudo obtener token de usuario"
  const ConnectSubtitle := "No se pudo conectar"
  const ServerErrorMessage := "Error de servidor"
  const ReportErrorTitle := "Error de verificación"
  const ReportErrorSubtitle := "No se pudo obtener datos"
  const NoIbanTitle := "IBAN no encontrado"
  const NoIbanSubtitle := "Verificación incompleta"
  const CheckDataMessage := "Verifica tus datos"
  const NoIbanDetail := "Sin IBAN"
  const PaymentErrorTitle := "Error de pago"
  const PaymentErrorSubtitle := "No se pudo crear"
  const VerifiedTitle := "Cuenta verificada"
  const VerifiedSubtitle := "Listo para pagar"
  const EmailSentText := " Email enviado a "

  /** The body the authorization-code path sends when the client token is refused. */
  const BareError := "Error"

  /** The message of the error `substring` throws on a missing IBAN. */
  const SubstringMessage := "Cannot read properties of undefined (reading 'substring')"

  /** An unknown session id (the session is looked up, never changed). */
  function SessionExpired(): Response {
    Page(500, Failure(CrossIcon, ExpiredTitle, ExpiredSubtitle, RestartMessage, ExpiredTitle))
  }

  function TokenFailed(subtitle: string, error: string): Response {
    Page(500, Failure(CrossIcon, AuthErrorTitle, subtitle, ServerErrorMessage, error))
  }

  function ReportFailed(error: string): Response {
    Page(500, Failure(CrossIcon, ReportErrorTitle, ReportErrorSubtitle, RetryMessage, error))
  }

  function IbanNotFound(): Response {
    Page(500, Failure(CrossIcon, NoIbanTitle, NoIbanSubtitle, CheckDataMessage, NoIbanDetail))
  }

  function PaymentFailed(error: string): Response {
    Page(500, Failure(CrossIcon, PaymentErrorTitle, PaymentErrorSubtitle, RetryMessage, error))
  }

  /** The success page: IBAN, holder, the session's amount and currency, and the
      payment-request id. */
  function Verified(iban: string, holder: string, s: Session, paymentId: string): Outcome {
    Outcome(CheckIcon, VerifiedTitle, VerifiedSubtitle, Succeeded,
      [ Row("IBAN:", Text(iban)),
        Row("Titular:", Text(holder)),
        Row("Importe a recibir:", Money(Some(s.amount), s.currency)),
        Row(PaymentIdCaption, Text(paymentId)) ],
      CheckIcon + EmailSentText + s.emailPayment, "")
  }

  // ---------------------------------------------------------------------------
  // Pipelines

  /** The report that was fetched. */
  function ReportOf(up: Upstream): Report
    requires Accept(VerificationReport, up.report).Ok?
  {
    Accept(VerificationReport, up.report).value
  }

  /** The report was accepted and names a first account with a non-empty IBAN. */
  ghost predicate HasIban(up: Upstream) {
    && Accept(VerificationReport, up.report).Ok?
    && var x := Extract(ReportOf(up));
    && x.Extracted? && x.iban != ""
  }

  /** The payment request pays the session's amount into the first account of the
      report. */
  ghost predicate PaysFirstAccount(p: PaymentPayload, s: Session, up: Upstream) {
    && HasIban(up)
    && var x := Extract(ReportOf(up));
    && p == PaymentFor(x.iban, x.holder, x.market, s.amount, s.currency)
  }

  /** A payment request made with `token` for the first account of the report. */
  ghost predicate PaysWith(c: Call, token: string, s: Session, up: Upstream) {
    c.CreatePaymentRequest? && c.token == token && PaysFirstAccount(c.payment, s, up)
  }

  /** The token the payment request uses: the reused one, or else the fresh client
      token. */
  function PaymentToken(reuse: Option<string>, up: Upstream): string {
    match reuse
    case Some(token) => token
    case None =>
      match Accept(ClientCredentialsToken, up.clientToken)
      case Ok(token) => token
      case Err(_) => ""
  }

  /** The success page and the payment email that go with it. */
  ghost predicate Paid(h: Handled, s: Session, up: Upstream, subject: string, clientId: string) {
    && HasIban(up)
    && Accept(PaymentCreation, up.created).Ok?
    && h.calls != []
    && var x := Extract(ReportOf(up));
    && var paymentId := Accept(PaymentCreation, up.created).value;
    && h.response == Page(200, Verified(x.iban, x.holder, s, paymentId))
    && h.calls[|h.calls| - 1] == SendMail(Mail(s.emailPayment, subject, PaymentLink(clientId, x.market, paymentId)))
  }

  /** The payment request and, once it exists, the payment email; the outcome is a
      success whatever becomes of the email. */
  function Pay(s: Session, iban: string, holder: string, market: string, token: string,
               up: Upstream, subject: string, clientId: string): Handled
  {
    var create := CreatePaymentRequest(token, PaymentFor(iban, holder, market, s.amount, s.currency));
    match Accept(PaymentCreation, up.created)
    case Err(e) => Stop(create, PaymentFailed(e))
    case Ok(paymentId) =>
      var mail := Mail(s.emailPayment, subject, PaymentLink(clientId, market, paymentId));
      Then(create, Handled(Page(200, Verified(iban, holder, s, paymentId)), [SendMail(mail)]))
  }

  /** What follows an accepted report: take the first account and, when it has an
      IBAN, pay into it with the token in `reuse` or, when there is none, with a fresh
      client-credentials token. The report's handler runs inside the `try` of the report
      request, so the error `substring` throws on a missing IBAN is caught there and
      handed to the same handler as a report error. */
  function Settle(s: Session, reuse: Option<string>, up: Upstream, subject: string, clientId: string): Handled
    requires Accept(VerificationReport, up.report).Ok?
  {
    match Extract(ReportOf(up))
    case NoAccount => Handled(IbanNotFound(), [])
    case IbanMissing => Handled(ReportFailed(SubstringMessage), [])
    case Extracted(iban, holder, market) =>
      if iban == "" then Handled(IbanNotFound(), [])
      else match reuse
        case Some(token) => Pay(s, iban, holder, market, token, up, subject, clientId)
        case None =>
          match Accept(ClientCredentialsToken, up.clientToken)
          case Err(_) => Stop(RequestClientToken, Plain(500, BareError))
          case Ok(token) => Then(RequestClientToken, Pay(s, iban, holder, market, token, up, subject, clientId))
  }

  /** The report request with `token`, then what follows it. */
  function FetchAndSettle(s: Session, token: string, reportId: string, reuse: Option<string>,
                          up: Upstream, subject: string, clientId: string): Handled
  {
    var fetch := FetchReport(token, reportId);
    match Accept(VerificationReport, up.report)
    case Err(e) => Stop(fetch, ReportFailed(e))
    case Ok(_) => Then(fetch, Settle(s, reuse, up, subject, clientId))
  }

  /** `handleAccountWithAuthCode`: the report is fetched with the token the
      authorization code is exchanged for, and the payment request is made with a fresh
      client-credentials token. The report request starts inside the `try` of the token
      reply, so a report id that makes the path refused fails as the token step. */
  function VerifyWithCode(session: Option<Session>, reportId: string, code: string, up: Upstream, clientId: string): (h: Handled)
    ensures h.calls == [] <==> session.None?
    ensures session.None? ==> h.response == SessionExpired()
    ensures h.calls != [] ==> h.calls[0] == ExchangeCode(code)
  {
    match session
    case None => Handled(SessionExpired(), [])
    case Some(s) =>
      var exchange := ExchangeCode(code);
      match Accept(AuthorizationCodeToken, up.userToken)
      case Err(e) => Stop(exchange, TokenFailed(UserTokenSubtitle, e))
      case Ok(userToken) =>
        if !PathAllowed(ReportPathPrefix + reportId) then Stop(exchange, TokenFailed(UserTokenSubtitle, UnescapedPathMessage))
        else Then(exchange, FetchAndSettle(s, userToken, reportId, None, up, CodePathSubject, clientId))
  }

  /** `handleAccount`: one client-credentials token serves both the report and the
      payment request. As on the other path, a refused report path fails as the token
      step. */
  function VerifyWithClientCredentials(session: Option<Session>, reportId: string, up: Upstream, clientId: string): (h: Handled)
    ensures h.calls == [] <==> session.None?
    ensures session.None? ==> h.response == SessionExpired()
    ensures h.calls != [] ==> h.calls[0] == RequestClientToken
  {
    match session
    case None => Handled(SessionExpired(), [])
    case Some(s) =>
      match Accept(ClientCredentialsToken, up.clientToken)
      case Err(e) => Stop(RequestClientToken, TokenFailed(ConnectSubtitle, e))
      case Ok(token) =>
        if !PathAllowed(ReportPathPrefix + reportId) then Stop(RequestClientToken, TokenFailed(ConnectSubtitle, UnescapedPathMessage))
        else Then(RequestClientToken, FetchAndSettle(s, token, reportId, Some(token), up, ClientPathSubject, clientId))
  }

  // ---------------------------------------------------------------------------
  // What the pipelines do

  /** Creating the payment request: it is the first call, and only its success leads
      to the email and the success page. */
  lemma PayRuns(s: Session, iban: string, holder: string, market: string, token: string,
                up: Upstream, subject: string, clientId: string)
    ensures var h := Pay(s, iban, holder, market, token, up, subject, clientId);
      && ShortCircuits(h.calls, up)
      && 1 <= |h.calls| <= 2 && h.calls[0] == CreatePaymentRequest(token, PaymentFor(iban, holder, market, s.amount, s.currency))
      && (|h.calls| == 2 <==> Accept(PaymentCreation, up.created).Ok?)
      && (IsSuccess(h.response) <==> Accept(PaymentCreation, up.created).Ok?)
      && (Accept(PaymentCreation, up.created).Ok? ==>
           var paymentId := Accept(PaymentCreation, up.created).value;
           && h.response == Page(200, Verified(iban, holder, s, paymentId))
           && h.calls[|h.calls| - 1] == SendMail(Mail(s.emailPayment, subject, PaymentLink(clientId, market, paymentId))))
      && (Accept(PaymentCreation, up.created).Err? ==> h.response == PaymentFailed(Accept(PaymentCreation, up.created).error))
  {
    var create := CreatePaymentRequest(token, PaymentFor(iban, holder, market, s.amount, s.currency));
    match Accept(PaymentCreation, up.created)
    case Err(e) =>
    case Ok(paymentId) =>
      var mail := Mail(s.emailPayment, subject, PaymentLink(clientId, market, paymentId));
      ThenShortCircuits(create, Handled(Page(200, Verified(iban, holder, s, paymentId)), [SendMail(mail)]), up);
  }

  /** The call at position `k` of what follows an accepted report with an IBAN, counting
      from the fresh client-token request (position 0, made only when no token is
      reused): then the payment request for the first account, then its email. */
  ghost predicate SettleStep(k: int, c: Call, s: Session, reuse: Option<string>, up: Upstream, subject: string, clientId: string) {
    && HasIban(up)
    && 0 <= k <= 2
    && (k == 0 ==> reuse.None? && c == RequestClientToken)
    && (k == 1 ==> PaysWith(c, PaymentToken(reuse, up), s, up))
    && (k == 2 ==>
          && Accept(VerificationReport, up.report).Ok?
          && Accept(PaymentCreation, up.created).Ok?
          && c == SendMail(Mail(s.emailPayment, subject,
                                PaymentLink(clientId, Extract(ReportOf(up)).market, Accept(PaymentCreation, up.created).value))))
  }

  /** After an accepted report: no call at all unless the first account has an IBAN;
      then, in this order, at most one fresh token request, the payment request for that
      account and the email, each only after the one before it succeeded. */
  lemma SettleCalls(s: Session, reuse: Option<string>, up: Upstream, subject: string, clientId: string)
    requires Accept(VerificationReport, up.report).Ok?
    ensures var h := Settle(s, reuse, up, subject, clientId);
      && ShortCircuits(h.calls, up)
      && (h.calls == [] <==> !HasIban(up))
      && (forall i | 0 <= i < |h.calls| ::
            SettleStep(if reuse.None? then i else i + 1, h.calls[i], s, reuse, up, subject, clientId))
  {
    var h := Settle(s, reuse, up, subject, clientId);
    match Extract(ReportOf(up))
    case NoAccount =>
    case IbanMissing =>
    case Extracted(iban, holder, market) =>
      if iban != "" {
        var token := PaymentToken(reuse, up);
        if reuse.Some? || Accept(ClientCredentialsToken, up.clientToken).Ok? {
          PayRuns(s, iban, holder, market, token, up, subject, clientId);
          var rest := Pay(s, iban, holder, market, token, up, subject, clientId);
          if reuse.None? {
            assert h == Then(RequestClientToken, rest);
            ThenShortCircuits(RequestClientToken, rest, up);
            forall i | 1 <= i < |h.calls| ensures h.calls[i] == rest.calls[i - 1] {
            }
          } else {
            assert h == rest;
          }
        }
      }
  }

  /** After an accepted report: success exactly when the account has an IBAN, a token
      for the payment is at hand and the payment request is accepted; otherwise the
      response says which of these failed. */
  lemma SettleOutcome(s: Session, reuse: Option<string>, up: Upstream, subject: string, clientId: string)
    requires Accept(VerificationReport, up.report).Ok?
    ensures var h := Settle(s, reuse, up, subject, clientId);
      && (!HasIban(up) ==> h.response == if Extract(ReportOf(up)).IbanMissing? then ReportFailed(SubstringMessage) else IbanNotFound())
      && (IsSuccess(h.response) <==>
            HasIban(up) && (reuse.Some? || Accept(ClientCredentialsToken, up.clientToken).Ok?) && Accept(PaymentCreation, up.created).Ok?)
      && (IsSuccess(h.response) ==> Paid(h, s, up, subject, clientId))
      && (HasIban(up) && !IsSuccess(h.response) ==>
            || (Accept(PaymentCreation, up.created).Err? && h.response == PaymentFailed(Accept(PaymentCreation, up.created).error))
            || (reuse.None? && Accept(ClientCredentialsToken, up.clientToken).Err?
                && h.response == Plain(500, BareError) && h.calls == [RequestClientToken]))
  {
    var h := Settle(s, reuse, up, subject, clientId);
    match Extract(ReportOf(up))
    case NoAccount =>
    case IbanMissing =>
    case Extracted(iban, holder, market) =>
      if iban != "" {
        var token := PaymentToken(reuse, up);
        if reuse.Some? || Accept(ClientCredentialsToken, up.clientToken).Ok? {
          PayRuns(s, iban, holder, market, token, up, subject, clientId);
          var rest := Pay(s, iban, holder, market, token, up, subject, clientId);
          assert h.response == rest.response;
          assert |h.calls| >= |rest.calls| && h.calls[|h.calls| - 1] == rest.calls[|rest.calls| - 1];
        }
      }
  }

  /** The report request: a failure stops the chain, an accepted report goes on to
      `Settle`. */
  lemma FetchAndSettleCalls(s: Session, token: string, reportId: string, reuse: Option<string>,
                            up: Upstream, subject: string, clientId: string)
    ensures var h := FetchAndSettle(s, token, reportId, reuse, up, subject, clientId);
      && ShortCircuits(h.calls, up)
      && h.calls != [] && h.calls[0] == FetchReport(token, reportId)
      && (Accept(VerificationReport, up.report).Ok? ==>
            var rest := Settle(s, reuse, up, subject, clientId);
            && h.response == rest.response
            && forall i | 1 <= i < |h.calls| :: h.calls[i] == rest.calls[i - 1])
      && (Accept(VerificationReport, up.report).Err? ==>
            h == Stop(FetchReport(token, reportId), ReportFailed(Accept(VerificationReport, up.report).error)))
  {
    if Accept(VerificationReport, up.report).Ok? {
      SettleCalls(s, reuse, up, subject, clientId);
      var rest := Settle(s, reuse, up, subject, clientId);
      ThenShortCircuits(FetchReport(token, reportId), rest, up);
    }
  }

  /** The call at position `i` of the authorization-code path: the code exchange, the
      report read with the user token (for an allowed path), then the steps that follow
      the report. */
  ghost predicate CodePathStep(i: int, c: Call, s: Session, reportId: string, code: string, up: Upstream, clientId: string) {
    || (i == 0 && c == ExchangeCode(code))
    || (&& i == 1 && PathAllowed(ReportPathPrefix + reportId)
        && Accept(AuthorizationCodeToken, up.userToken).Ok?
        && c == FetchReport(Accept(AuthorizationCodeToken, up.userToken).value, reportId))
    || (i >= 2 && SettleStep(i - 2, c, s, None, up, CodePathSubject, clientId))
  }

  /** The authorization-code path stops at its first failing call, and its calls are a
      prefix of: the code exchange, the report read with the user's token, a fresh client
      token, the payment request for the first account of the report made with that
      token, and the payment email. */
  lemma CodePathCalls(session: Option<Session>, reportId: string, code: string, up: Upstream, clientId: string)
    ensures var h := VerifyWithCode(session, reportId, code, up, clientId);
      && ShortCircuits(h.calls, up)
      && |h.calls| <= 5
      && (session.Some? ==> forall i | 0 <= i < |h.calls| :: CodePathStep(i, h.calls[i], session.value, reportId, code, up, clientId))
  {
    var h := VerifyWithCode(session, reportId, code, up, clientId);
    if session.Some? && Accept(AuthorizationCodeToken, up.userToken).Ok? && PathAllowed(ReportPathPrefix + reportId) {
      var s := session.value;
      var userToken := Accept(AuthorizationCodeToken, up.userToken).value;
      var rest := FetchAndSettle(s, userToken, reportId, None, up, CodePathSubject, clientId);
      FetchAndSettleCalls(s, userToken, reportId, None, up, CodePathSubject, clientId);
      ThenShortCircuits(ExchangeCode(code), rest, up);
      if Accept(VerificationReport, up.report).Ok? {
        SettleCalls(s, None, up, CodePathSubject, clientId);
        var settled := Settle(s, None, up, CodePathSubject, clientId);
        forall i | 0 <= i < |h.calls| ensures CodePathStep(i, h.calls[i], s, reportId, code, up, clientId) {
          if i >= 2 {
            assert h.calls[i] == settled.calls[i - 2];
          }
        }
      }
    }
  }

  /** The authorization-code path succeeds exactly when every step does, and the
      success page and payment email then describe the first account of the report.
      Otherwise the response is a page with status 500 (for an account without an
      IBAN, the report error with the message `substring` throws), except for the bare
      "Error" after a refused client token. */
  lemma CodePathOutcome(session: Option<Session>, reportId: string, code: string, up: Upstream, clientId: string)
    ensures var h := VerifyWithCode(session, reportId, code, up, clientId);
      var reached := session.Some? && Accept(AuthorizationCodeToken, up.userToken).Ok?
        && PathAllowed(ReportPathPrefix + reportId) && Accept(VerificationReport, up.report).Ok?;
      && (IsSuccess(h.response) <==>
            reached && HasIban(up) && Accept(ClientCredentialsToken, up.clientToken).Ok? && Accept(PaymentCreation, up.created).Ok?)
      && (IsSuccess(h.response) ==> Paid(h, session.value, up, CodePathSubject, clientId))
      && (reached && Extract(ReportOf(up)).IbanMissing? ==> h.response == ReportFailed(SubstringMessage) && |h.calls| == 2)
      && (h.response.Plain? <==> reached && HasIban(up) && Accept(ClientCredentialsToken, up.clientToken).Err?)
      && (h.response.Plain? ==> h.response == Plain(500, BareError))
      && (h.response.Page? && !IsSuccess(h.response) ==> h.response.status == 500)
  {
    var h := VerifyWithCode(session, reportId, code, up, clientId);
    if session.Some? && Accept(AuthorizationCodeToken, up.userToken).Ok? && PathAllowed(ReportPathPrefix + reportId)
       && Accept(VerificationReport, up.report).Ok? {
      var s := session.value;
      SettleOutcome(s, None, up, CodePathSubject, clientId);
      var settled := Settle(s, None, up, CodePathSubject, clientId);
      assert h.response == settled.response;
      assert |h.calls| == |settled.calls| + 2 && (settled.calls != [] ==> h.calls[|h.calls| - 1] == settled.calls[|settled.calls| - 1]);
    }
  }

  /** The call at position `i` of the client-credentials path: the token request, the
      report read with that token (for an allowed path), then the steps that follow the
      report, with the same token. */
  ghost predicate ClientPathStep(i: int, c: Call, s: Session, reportId: string, up: Upstream, clientId: string) {
    || (i == 0 && c == RequestClientToken)
    || (&& i == 1 && PathAllowed(ReportPathPrefix + reportId)
        && Accept(ClientCredentialsToken, up.clientToken).Ok?
        && c == FetchReport(Accept(ClientCredentialsToken, up.clientToken).value, reportId))
    || (&& i >= 2 && Accept(ClientCredentialsToken, up.clientToken).Ok?
        && SettleStep(i - 1, c, s, Some(Accept(ClientCredentialsToken, up.clientToken).value), up, ClientPathSubject, clientId))
  }

  /** The client-credentials path stops at its first failing call, and its calls are a
      prefix of: the token request, the report read with that token, the payment request
      for the first account of the report made with the same token, and the payment
      email. */
  lemma ClientPathCalls(session: Option<Session>, reportId: string, up: Upstream, clientId: string)
    ensures var h := VerifyWithClientCredentials(session, reportId, up, clientId);
      && ShortCircuits(h.calls, up)
      && |h.calls| <= 4
      && (session.Some? ==> forall i | 0 <= i < |h.calls| :: ClientPathStep(i, h.calls[i], session.value, reportId, up, clientId))
  {
    var h := VerifyWithClientCredentials(session, reportId, up, clientId);
    if session.Some? && Accept(ClientCredentialsToken, up.clientToken).Ok? && PathAllowed(ReportPathPrefix + reportId) {
      var s := session.value;
      var token := Accept(ClientCredentialsToken, up.clientToken).value;
      var rest := FetchAndSettle(s, token, reportId, Some(token), up, ClientPathSubject, clientId);
      FetchAndSettleCalls(s, token, reportId, Some(token), up, ClientPathSubject, clientId);
      ThenShortCircuits(RequestClientToken, rest, up);
      if Accept(VerificationReport, up.report).Ok? {
        SettleCalls(s, Some(token), up, ClientPathSubject, clientId);
        var settled := Settle(s, Some(token), up, ClientPathSubject, clientId);
        forall i | 0 <= i < |h.calls| ensures ClientPathStep(i, h.calls[i], s, reportId, up, clientId) {
          if i >= 2 {
            assert h.calls[i] == settled.calls[i - 2];
          }
        }
      }
    }
  }

  /** The client-credentials path succeeds exactly when every step does, and the
      success page and payment email then describe the first account of the report.
      Otherwise the response is a page with status 500; for an account without an
      IBAN it is the report error with the message `substring` throws. */
  lemma ClientPathOutcome(session: Option<Session>, reportId: string, up: Upstream, clientId: string)
    ensures var h := VerifyWithClientCredentials(session, reportId, up, clientId);
      var reached := session.Some? && Accept(ClientCredentialsToken, up.clientToken).Ok?
        && PathAllowed(ReportPathPrefix + reportId) && Accept(VerificationReport, up.report).Ok?;
      && (IsSuccess(h.response) <==> reached && HasIban(up) && Accept(PaymentCreation, up.created).Ok?)
      && (IsSuccess(h.response) ==> Paid(h, session.value, up, ClientPathSubject, clientId))
      && (reached && Extract(ReportOf(up)).IbanMissing? ==> h.response == ReportFailed(SubstringMessage) && |h.calls| == 2)
      && !h.response.Plain?
      && (h.response.Page? && !IsSuccess(h.response) ==> h.response.status == 500)
  {
    var h := VerifyWithClientCredentials(session, reportId, up, clientId);
    if session.Some? && Accept(ClientCredentialsToken, up.clientToken).Ok? && PathAllowed(ReportPathPrefix + reportId)
       && Accept(VerificationReport, up.report).Ok? {
      var s := session.value;
      var token := Accept(ClientCredentialsToken, up.clientToken).value;
      SettleOutcome(s, Some(token), up, ClientPathSubject, clientId);
      var settled := Settle(s, Some(token), up, ClientPathSubject, clientId);
      assert h.response == settled.response;
      assert |h.calls| == |settled.calls| + 2 && (settled.calls != [] ==> h.calls[|h.calls| - 1] == settled.calls[|settled.calls| - 1]);
    }
  }

  /** Each failing step of the authorization-code path has its own response. */
  lemma CodePathFailures(session: Option<Session>, reportId: string, code: string, up: Upstream, clientId: string)
    requires session.Some?
    ensures var h := VerifyWithCode(session, reportId, code, up, clientId);
      var user := Accept(AuthorizationCodeToken, up.userToken);
      var report := Accept(VerificationReport, up.report);
      var created := Accept(PaymentCreation, up.created);
      var path := PathAllowed(ReportPathPrefix + reportId);
      && (user.Err? ==> h.response == TokenFailed(UserTokenSubtitle, user.error) && |h.calls| == 1)
      && (user.Ok? && !path ==> h.response == TokenFailed(UserTokenSubtitle, UnescapedPathMessage) && |h.calls| == 1)
      && (user.Ok? && path && report.Err? ==> h.response == ReportFailed(report.error) && |h.calls| == 2)
      && (user.Ok? && path && report.Ok? && !HasIban(up) && !Extract(ReportOf(up)).IbanMissing? ==>
            h.response == IbanNotFound() && |h.calls| == 2)
      && (user.Ok? && path && HasIban(up) && Accept(ClientCredentialsToken, up.clientToken).Ok? && created.Err? ==>
            h.response == PaymentFailed(created.error) && |h.calls| == 4)
  {
    var s := session.value;
    if Accept(AuthorizationCodeToken, up.userToken).Ok? && PathAllowed(ReportPathPrefix + reportId)
       && Accept(VerificationReport, up.report).Ok? {
      SettleOutcome(s, None, up, CodePathSubject, clientId);
      if HasIban(up) && Accept(ClientCredentialsToken, up.clientToken).Ok? {
        var x := Extract(ReportOf(up));
        PayRuns(s, x.iban, x.holder, x.market, PaymentToken(None, up), up, CodePathSubject, clientId);
      }
    }
  }

  /** Each failing step of the client-credentials path has its own response. */
  lemma ClientPathFailures(session: Option<Session>, reportId: string, up: Upstream, clientId: string)
    requires session.Some?
    ensures var h := VerifyWithClientCredentials(session, reportId, up, clientId);
      var client := Accept(ClientCredentialsToken, up.clientToken);
      var report := Accept(VerificationReport, up.report);
      var created := Accept(PaymentCreation, up.created);
      var path := PathAllowed(ReportPathPrefix + reportId);
      && (client.Err? ==> h.response == TokenFailed(ConnectSubtitle, client.error) && |h.calls| == 1)
      && (client.Ok? && !path ==> h.response == TokenFailed(ConnectSubtitle, UnescapedPathMessage) && |h.calls| == 1)
      && (client.Ok? && path && report.Err? ==> h.response == ReportFailed(report.error) && |h.calls| == 2)
      && (client.Ok? && path && report.Ok? && !HasIban(up) && !Extract(ReportOf(up)).IbanMissing? ==>
            h.response == IbanNotFound() && |h.calls| == 2)
      && (client.Ok? && path && HasIban(up) && created.Err? ==> h.response == PaymentFailed(created.error) && |h.calls| == 3)
  {
    var s := session.value;
    if Accept(ClientCredentialsToken, up.clientToken).Ok? && PathAllowed(ReportPathPrefix + reportId)
       && Accept(VerificationReport, up.report).Ok? {
      var token := Accept(ClientCredentialsToken, up.clientToken).value;
      SettleOutcome(s, Some(token), up, ClientPathSubject, clientId);
      if HasIban(up) {
        var x := Extract(ReportOf(up));
        PayRuns(s, x.iban, x.holder, x.market, token, up, ClientPathSubject, clientId);
      }
    }
  }
}
