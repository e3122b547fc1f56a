/**
 * The wire side of the payment gateway: credentials, the collect and
 * transaction-status requests with their signed headers, the webhook body,
 * and the outcomes a gateway call can have. The keyed hash and the JSON
 * serialisations are uninterpreted functions carried in `Env`.
 */
module Gateway {
  import opened Wrappers
  import opened Errors
  import opened Validation
  import Signer

  /** Application key, access key and the HMAC secret. */
  datatype Credentials = Credentials(appKey: string, accessKey: string, secretKey: string)

  /** The JSON body of a collect request. */
  datatype CollectBody = CollectBody(amount: int, service: Service, payer: string, nonce: string,
                                     trxID: string, country: string, currency: string)

  /** A parsed webhook body: the two fields the handler reads, and the rest
      of the payload (which still takes part in its serialisation). */
  datatype WebhookBody = WebhookBody(status: string, trxID: string, rest: string)

  /** What the handlers take from their process: credentials, HMAC-SHA1 with
      hex output (`hmac(key, message)`), and JSON.stringify of the two bodies. */
  datatype Env = Env(creds: Credentials,
                     hmac: (string, string) -> string,
                     encodeCollect: CollectBody -> string,
                     encodeWebhook: WebhookBody -> string)

  const CollectEndpoint := "/payment/collect/v1/"
  const Country := "CM"
  const Currency := "XAF"
  const SuccessStatus := "SUCCESS"
  const FailedStatus := "FAILED"

  /** The X-MeSomb-* headers of an outbound request. */
  datatype Headers = Headers(application: string, access: string, timestamp: string, nonce: string, signature: string)

  /** An outbound request to the gateway host. */
  datatype Request = Request(httpMethod: string, endpoint: string, headers: Headers, body: Option<CollectBody>)

  /** The text the request signs as its body: the serialised body, or "" for a GET. */
  function SignedBody(env: Env, r: Request): string
  {
    if r.body.Some? then env.encodeCollect(r.body.value) else ""
  }

  /** A request is signed consistently when the gateway, recomputing the
      signature over the method, endpoint, timestamp, nonce and body it
      receives, finds the signature header. */
  predicate SignedConsistently(env: Env, r: Request)
  {
    && r.headers.application == env.creds.appKey
    && r.headers.access == env.creds.accessKey
    && r.headers.signature == Signer.Signature(env.hmac, env.creds.secretKey, r.httpMethod, r.endpoint,
                                               r.headers.timestamp, r.headers.nonce, SignedBody(env, r))
  }

  function SignedHeaders(env: Env, httpMethod: string, endpoint: string, timestamp: string, nonce: string, body: string): Headers
  {
    Headers(env.creds.appKey, env.creds.accessKey, timestamp, nonce,
            Signer.Signature(env.hmac, env.creds.secretKey, httpMethod, endpoint, timestamp, nonce, body))
  }

  /** The collect request of initializePayment for appointment `trxID`: its
      body carries the fixed country and currency, and the signature covers
      the serialisation of exactly that body. */
  function CollectRequest(env: Env, amount: int, service: Service, payer: string, trxID: string,
                          timestamp: string, nonce: string): (r: Request)
    ensures SignedConsistently(env, r)
    ensures r.httpMethod == "POST" && r.endpoint == CollectEndpoint
    ensures r.headers.timestamp == timestamp && r.headers.nonce == nonce
    ensures r.body.Some? && r.body.value.trxID == trxID && r.body.value.nonce == nonce
    ensures r.body.value.country == "CM" && r.body.value.currency == "XAF"
    ensures r.body.value.amount == amount && r.body.value.service == service && r.body.value.payer == payer
  {
    var body := CollectBody(amount, service, payer, nonce, trxID, Country, Currency);
    Request("POST", CollectEndpoint, SignedHeaders(env, "POST", CollectEndpoint, timestamp, nonce, env.encodeCollect(body)), Some(body))
  }

  /** The path of the status query; a missing transaction id is interpolated
      as the text "undefined". */
  function TransactionEndpoint(reference: Option<string>): (e: string)
    ensures reference.Some? ==> e == "/payment/transactions/" + reference.value + "/"
    ensures reference.None? ==> e == "/payment/transactions/undefined/"
  {
    "/payment/transactions/" + (match reference case Some(id) => id case None => "undefined") + "/"
  }

  /** With no transaction id stored, the poll queries the same path as for
      a provider reference literally named "undefined". */
  lemma MissingReferenceQueriesUndefined()
    ensures TransactionEndpoint(None) == TransactionEndpoint(Some("undefined"))
  {
  }

  /** The status query of checkPaymentStatus: a GET without a body, signed
      over an empty body. */
  function QueryRequest(env: Env, reference: Option<string>, timestamp: string, nonce: string): (r: Request)
    ensures SignedConsistently(env, r)
    ensures r.httpMethod == "GET" && r.endpoint == TransactionEndpoint(reference) && r.body == None
    ensures r.headers.signature == Signer.Signature(env.hmac, env.creds.secretKey, "GET", r.endpoint, timestamp, nonce)
    ensures r.headers.timestamp == timestamp && r.headers.nonce == nonce
  {
    var endpoint := TransactionEndpoint(reference);
    Request("GET", endpoint, SignedHeaders(env, "GET", endpoint, timestamp, nonce, ""), None)
  }

  /** The webhook's check: the signature header equals the HMAC of the
      re-serialised parsed body (a plain string comparison). A missing header
      never matches. */
  predicate Authentic(env: Env, signature: Option<string>, body: WebhookBody)
  {
    signature == Some(env.hmac(env.creds.secretKey, env.encodeWebhook(body)))
  }

  /** The data of an accepted collect: the provider's reference and the whole
      response body. */
  datatype CollectData = CollectData(reference: string, raw: string)

  /** A gateway call that threw: the HTTP client's message and, when the
      provider answered, its response body. */
  datatype GatewayFailure = GatewayFailure(message: string, responseData: Option<ProviderPayload>)

  function AsThrown(f: GatewayFailure): Thrown
  {
    HttpFailure(f.message, f.responseData)
  }

  datatype CollectOutcome = Accepted(data: CollectData) | CollectFailed(failure: GatewayFailure)

  datatype QueryOutcome = Answered(status: string) | QueryFailed(failure: GatewayFailure)
}
