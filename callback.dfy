/** The `/callback` route: which handler a redirect from the Tink flow reaches, decided by
    its query parameters in a fixed order of precedence. */
module Callback {
  import opened Results
  import opened Js
  import opened TinkApi
  import opened Outcomes
  import opened Sessions
  import opened Steps
  import opened Verification
  import opened PaymentStatus

  /** The query parameters the route reads (`account_verification_report_id` is
      `reportId`, `payment_request_id` is `paymentId`). */
  datatype Query = Query(
    code: Option<string>,
    reportId: Option<string>,
    paymentId: Option<string>,
    session: Option<string>,
    error: Option<string>,
    errorDescription: Option<string>)

  /** Where a callback goes. */
  datatype Route =
    | FlowError(error: string)
    | CodeVerification(reportId: string, code: string, sessionKey: string)
    | ClientVerification(reportId: string, sessionKey: string)
    | PaymentLookup(paymentId: string)
    | InvalidParameters

  const FlowErrorTitle := "Error en el flujo"
  const FlowErrorSubtitle := "Algo salió mal"
  const CancelledMessage := "Cancelado"
  const ErrorCodeLabel := "Código: "
  const InvalidTitle := "Parámetros inválidos"
  const InvalidSubtitle := "Solicitud incompleta"
  const MissingParameters := "Parámetros faltantes"

  /** An `error` parameter wins; then a report id, verified with the authorization code
      when there is one (the authorization-code grant of section 4.1 of RFC 6749) and
      with client credentials otherwise (section 4.4); then a payment id; and with none
      of them the parameters are invalid. Empty parameters count as absent. */
  function Dispatch(q: Query): (r: Route)
    ensures r.FlowError? <==> Truthy(q.error)
    ensures r.CodeVerification? <==> !Truthy(q.error) && Truthy(q.reportId) && Truthy(q.code)
    ensures r.ClientVerification? <==> !Truthy(q.error) && Truthy(q.reportId) && !Truthy(q.code)
    ensures r.PaymentLookup? <==> !Truthy(q.error) && !Truthy(q.reportId) && Truthy(q.paymentId)
    ensures r.InvalidParameters? <==> !Truthy(q.error) && !Truthy(q.reportId) && !Truthy(q.paymentId)
    ensures r.FlowError? ==> r.error == q.error.value
    ensures r.CodeVerification? ==>
      r.reportId == q.reportId.value && r.code == q.code.value && r.sessionKey == SessionKey(q.session)
    ensures r.ClientVerification? ==> r.reportId == q.reportId.value && r.sessionKey == SessionKey(q.session)
    ensures r.PaymentLookup? ==> r.paymentId == q.paymentId.value
  {
    if Truthy(q.error) then FlowError(q.error.value)
    else if Truthy(q.reportId) then
      if Truthy(q.code) then CodeVerification(q.reportId.value, q.code.value, SessionKey(q.session))
      else ClientVerification(q.reportId.value, SessionKey(q.session))
    else if Truthy(q.paymentId) then PaymentLookup(q.paymentId.value)
    else InvalidParameters
  }

  /** The page for an error reported by the flow; a 200, since the user cancelled. */
  function FlowErrorPage(error: string): Response {
    Page(200, Failure(CrossIcon, FlowErrorTitle, FlowErrorSubtitle, CancelledMessage, ErrorCodeLabel + error))
  }

  /** The page for a callback without any usable parameter. */
  function InvalidParametersPage(): Response {
    Page(400, Failure(WarningIcon, InvalidTitle, InvalidSubtitle, RetryMessage, MissingParameters))
  }

  /** The whole callback, given the sessions at the time it arrives and the replies its
      external calls get. */
  function HandleCallback(sessions: map<string, Session>, q: Query, up: Upstream, clientId: string): (h: Handled)
    ensures ShortCircuits(h.calls, up)
    ensures Truthy(q.error) ==> h == Handled(FlowErrorPage(q.error.value), [])
    ensures Dispatch(q).InvalidParameters? ==> h == Handled(InvalidParametersPage(), [])
    ensures Dispatch(q).CodeVerification? ==>
      h == VerifyWithCode(Lookup(sessions, SessionKey(q.session)), q.reportId.value, q.code.value, up, clientId)
    ensures Dispatch(q).ClientVerification? ==>
      h == VerifyWithClientCredentials(Lookup(sessions, SessionKey(q.session)), q.reportId.value, up, clientId)
    ensures Dispatch(q).PaymentLookup? ==> h == HandlePayment(q.paymentId.value, up)
    ensures (Dispatch(q).CodeVerification? || Dispatch(q).ClientVerification?) ==>
      (h.calls == [] <==> SessionKey(q.session) !in sessions)
    ensures (Dispatch(q).CodeVerification? || Dispatch(q).ClientVerification?) && SessionKey(q.session) !in sessions ==>
      h.response == SessionExpired()
    ensures Dispatch(q).CodeVerification? && h.calls != [] ==> h.calls[0] == ExchangeCode(q.code.value)
    ensures !Dispatch(q).CodeVerification? ==> forall i | 0 <= i < |h.calls| :: !h.calls[i].ExchangeCode?
  {
    match Dispatch(q)
    case FlowError(e) => Handled(FlowErrorPage(e), [])
    case CodeVerification(reportId, code, key) =>
      CodePathCalls(Lookup(sessions, key), reportId, code, up, clientId);
      VerifyWithCode(Lookup(sessions, key), reportId, code, up, clientId)
    case ClientVerification(reportId, key) =>
      ClientPathCalls(Lookup(sessions, key), reportId, up, clientId);
      VerifyWithClientCredentials(Lookup(sessions, key), reportId, up, clientId)
    case PaymentLookup(paymentId) => HandlePayment(paymentId, up)
    case InvalidParameters => Handled(InvalidParametersPage(), [])
  }

  /** The route as the server runs it against its session store, which it only reads. */
  method Serve(store: SessionStore, q: Query, up: Upstream, clientId: string) returns (h: Handled)
    ensures h == HandleCallback(store.sessions, q, up, clientId)
  {
    var route := Dispatch(q);
    match route {
      case FlowError(e) =>
        h := Handled(FlowErrorPage(e), []);
      case CodeVerification(reportId, code, key) =>
        h := VerifyWithCode(store.Get(key), reportId, code, up, clientId);
      case ClientVerification(reportId, key) =>
        h := VerifyWithClientCredentials(store.Get(key), reportId, up, clientId);
      case PaymentLookup(paymentId) =>
        h := HandlePayment(paymentId, up);
      case InvalidParameters =>
        h := Handled(InvalidParametersPage(), []);
    }
  }

  /** A session `/start` stored is found by the verification callback that names it:
      the callback goes on to its first external call. */
  lemma StoredSessionIsFound(sessions: map<string, Session>, id: string, s: Session, q: Query, up: Upstream, clientId: string)
    requires Dispatch(q).CodeVerification? || Dispatch(q).ClientVerification?
    requires q.session == Some(id)
    ensures HandleCallback(sessions[id := s], q, up, clientId).calls != []
    ensures HandleCallback(sessions[id := s], q, up, clientId).response != SessionExpired()
  {
    var h := HandleCallback(sessions[id := s], q, up, clientId);
    if Dispatch(q).CodeVerification? {
      CodePathOutcome(Some(s), q.reportId.value, q.code.value, up, clientId);
      CodePathFailures(Some(s), q.reportId.value, q.code.value, up, clientId);
    } else {
      ClientPathOutcome(Some(s), q.reportId.value, up, clientId);
      ClientPathFailures(Some(s), q.reportId.value, up, clientId);
    }
  }
}
