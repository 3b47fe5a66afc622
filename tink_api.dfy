/** The client side of the open-banking API (`getToken`, `getTokenFromAuthCode`,
    `getReport`, `getPayDetail`, `createPayReq`): which replies are accepted, the error
    text of the others, and the shapes of the data the server reads or sends. The
    network exchange itself is a `Reply` handed in from outside. */
module TinkApi {
  import opened Results
  import opened Js

  /** The payment scheme every payment request names. */
  const PaymentScheme := "SEPA_CREDIT_TRANSFER"

  /** The five requests the server makes. The two token requests are the
      client-credentials grant and the authorization-code grant of sections 4.4 and 4.1
      of RFC 6749. */
  datatype Endpoint =
    | ClientCredentialsToken
    | AuthorizationCodeToken
    | VerificationReport
    | PaymentDetail
    | PaymentCreation

  /** The body of a reply: the parsed value, or the message `JSON.parse` threw. */
  datatype Body<T> = Parsed(value: T) | Unparsable(message: string)

  /** What a request got back: a transport error with its message, or a status code and
      a body. */
  datatype Reply<T> = TransportError(message: string) | Received(status: nat, body: Body<T>)

  /** Only 200 is accepted, except that creating a payment request also accepts 201. */
  predicate AcceptsStatus(e: Endpoint, status: nat) {
    status == 200 || (e == PaymentCreation && status == 201)
  }

  /** `"HTTP " + statusCode` */
  function HttpError(status: nat): string {
    "HTTP " + Decimal(status)
  }

  /** The callback value of a request: the parsed body of an accepted reply, otherwise
      the error text the request hands its caller. */
  function Accept<T>(e: Endpoint, r: Reply<T>): (res: Result<T, string>)
    ensures res.Ok? <==> r.Received? && AcceptsStatus(e, r.status) && r.body.Parsed?
    ensures res.Ok? ==> res.value == r.body.value
    ensures r.Received? && !AcceptsStatus(e, r.status) ==> res == Err(HttpError(r.status))
    ensures r.Received? && AcceptsStatus(e, r.status) && r.body.Unparsable? ==> res == Err(r.body.message)
    ensures r.TransportError? ==> res == Err(r.message)
  {
    match r
    case TransportError(m) => Err(m)
    case Received(status, body) =>
      if !AcceptsStatus(e, status) then Err(HttpError(status))
      else match body
        case Parsed(v) => Ok(v)
        case Unparsable(m) => Err(m)
  }

  /** Reads the status code back out of an error text of the form `HTTP <digits>`. */
  function StatusInError(message: string): Option<nat> {
    if |message| > 5 && message[..5] == "HTTP " && AllDigits(message[5..])
    then Some(ParseDecimal(message[5..]))
    else None
  }

  /** The error text of a refused status names that status. */
  lemma {:induction false} HttpErrorNamesStatus(status: nat)
    ensures StatusInError(HttpError(status)) == Some(status)
  {
    var m := HttpError(status);
    assert m[..5] == "HTTP ";
    assert m[5..] == Decimal(status);
    ParseDecimalOfDecimal(status);
  }

  /** A status that one endpoint refuses and another accepts is 201, and only payment
      creation accepts it. */
  lemma OnlyCreationAccepts201<T>(e: Endpoint, v: T)
    ensures Accept(e, Received(201, Parsed(v))).Ok? <==> e == PaymentCreation
    ensures e != PaymentCreation ==> Accept(e, Received(201, Parsed(v))) == Err("HTTP 201")
  {
    assert DigitChar(0) == '0' && DigitChar(1) == '1' && DigitChar(2) == '2';
    assert Decimal(2) == "2";
    assert Decimal(20) == Decimal(2) + "0" == "20";
    assert Decimal(201) == Decimal(20) + "1" == "201";
    assert HttpError(201) == "HTTP 201";
  }

  // ---------------------------------------------------------------------------
  // Request paths

  /** The report and the payment detail are read from these paths, followed by the id
      taken from the callback's query. */
  const ReportPathPrefix := "/api/v1/account-verification-reports/"
  const DetailPathPrefix := "/api/v1/payments/requests/"

  /** Node's HTTP client refuses a request path holding a character outside
      U+0021..U+00FF: the request throws before anything is sent. */
  predicate PathAllowed(path: string) {
    forall i :: 0 <= i < |path| ==> '\U{0021}' <= path[i] <= '\U{00FF}'
  }

  /** The message of the error thrown for a refused path. */
  const UnescapedPathMessage := "Request path contains unescaped characters"

  /** The fixed prefix of a path is allowed, so a path is refused exactly when the id
      in it holds a refused character. */
  lemma {:induction false} PrefixedPathAllowed(prefix: string, id: string)
    requires prefix == ReportPathPrefix || prefix == DetailPathPrefix
    ensures PathAllowed(prefix + id) <==> PathAllowed(id)
  {
    assert PathAllowed(prefix);
    var p := prefix + id;
    if PathAllowed(id) {
      forall i | 0 <= i < |p| ensures '\U{0021}' <= p[i] <= '\U{00FF}' {
        if i >= |prefix| {
          assert p[i] == id[i - |prefix|];
        }
      }
    }
    if PathAllowed(p) {
      forall i | 0 <= i < |id| ensures '\U{0021}' <= id[i] <= '\U{00FF}' {
        assert id[i] == p[|prefix| + i];
      }
    }
  }

  // ---------------------------------------------------------------------------
  // Data read from the API

  /** An account of a verification report; every field may be missing. */
  datatype Account = Account(iban: Option<string>, holderName: Option<string>, name: Option<string>)

  /** The accounts one provider reported. */
  datatype Provider = Provider(accounts: Option<seq<Account>>)

  /** An account-verification report, reduced to what the server reads. */
  datatype Report = Report(userDataByProvider: Option<seq<Provider>>)

  /** A payment-request detail, reduced to what the status page reads. */
  datatype Detail = Detail(amount: Option<Number>, currency: Option<string>, status: Option<string>)

  // ---------------------------------------------------------------------------
  // Data sent to the API

  datatype Recipient = Recipient(accountNumber: string, accountType: string)

  datatype Remittance = Remittance(kind: string, value: string)

  /** The JSON body `createPayReq` posts. */
  datatype PaymentPayload = PaymentPayload(
    recipient: Recipient,
    amount: Number,
    currency: string,
    market: string,
    recipientName: string,
    sourceMessage: string,
    remittanceInformation: Remittance,
    paymentScheme: string)

  /** The payment request for the given account, holder, market, amount and currency;
      everything else is fixed. */
  function PaymentFor(iban: string, holder: string, market: string, amount: Number, currency: string): PaymentPayload
  {
    PaymentPayload(
      Recipient(iban, "iban"), amount, currency, market, holder,
      "Payment confirmation", Remittance("UNSTRUCTURED", "Payment"), PaymentScheme)
  }
}
