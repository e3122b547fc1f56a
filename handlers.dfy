/**
 * The three entry points as transitions of the appointments collection:
 * each takes the collection and the call's inputs (including what the
 * gateway answered) and gives the new collection, the reply and the request
 * it sent to the gateway, if any.
 */
module Handlers {
  import opened Wrappers
  import opened Errors
  import opened Validation
  import opened Gateway
  import opened Ledger

  /** The result of converting the request's date to a stored timestamp; an
      unparseable date makes the conversion throw. */
  datatype DateConversion = Converted(at: Timestamp) | Unconvertible(message: string)

  const InitiatedMessage := "Payment initiated. Please check your phone to confirm."

  /** initializePayment's reply (its `success` field is always true). */
  datatype InitReply = InitReply(appointmentId: string, transactionId: string, message: string)

  datatype InitStep = InitStep(store: Store, reply: Result<InitReply, HttpsError>, sent: Option<Request>)

  /**
   * initializePayment. `newId` is the id the store assigns to the added
   * document, `now` the server timestamp, `timestamp` and `nonce` the
   * signing inputs, and `collect` the gateway's answer to the collect call.
   */
  function Initialize(env: Env, store: Store, users: map<string, Doctor>, auth: Option<string>, req: PaymentRequest,
                      date: DateConversion, newId: string, now: Timestamp, timestamp: string, nonce: string,
                      collect: CollectOutcome): (step: InitStep)
    requires newId !in store
    ensures step.reply.Failure? ==> step.reply.error.code == Internal
    ensures step.store.Keys <= store.Keys + {newId}
    ensures forall k :: k in store ==> k in step.store && step.store[k] == store[k]
    ensures step.reply.Success? <==> newId in step.store && step.store[newId].paymentStatus == Processing
  {
    match Validate(auth, req, users)
    case Failure(t) => InitStep(store, Failure(WrapInitializeError(t)), None)
    case Success(v) =>
      match date
      case Unconvertible(message) => InitStep(store, Failure(WrapInitializeError(RuntimeFailure(message))), None)
      case Converted(at) =>
        var created := store[newId := NewAppointment(v, at, now)];
        var request := CollectRequest(env, v.amount, v.service, v.payer, newId, timestamp, nonce);
        match collect
        case Accepted(data) =>
          InitStep(created[newId := WithCollectAccepted(created[newId], data)],
                   Success(InitReply(newId, data.reference, InitiatedMessage)), Some(request))
        case CollectFailed(failure) =>
          InitStep(created, Failure(WrapInitializeError(AsThrown(failure))), Some(request))
  }

  const UnauthenticatedError := Raised(Unauthenticated, "User must be logged in")
  const AppointmentNotFound := Raised(NotFound, "Appointment not found")
  const NotOwner := Raised(PermissionDenied, "Unauthorized")

  /** checkPaymentStatus's reply: `status` is completed, failed or processing. */
  datatype PollReply =
    | PollCompleted(appointmentId: string)
    | PollFailed(message: string)
    | PollProcessing(message: string)

  datatype PollStep = PollStep(store: Store, reply: Result<PollReply, HttpsError>, sent: Option<Request>)

  /**
   * checkPaymentStatus for document `appointmentId`. `query` is the
   * gateway's answer to the status query, used only if the query is sent.
   */
  function CheckStatus(env: Env, store: Store, auth: Option<string>, appointmentId: string, now: Timestamp,
                       timestamp: string, nonce: string, query: QueryOutcome): (step: PollStep)
    ensures step.store.Keys == store.Keys
    ensures step.sent.None? ==> step.store == store
    ensures step.reply.Failure? ==> step.store == store && step.reply.error.code == Internal && step.reply.error.details == None
  {
    if auth.None? then PollStep(store, Failure(WrapStatusError(UnauthenticatedError)), None)
    else if appointmentId !in store then PollStep(store, Failure(WrapStatusError(AppointmentNotFound)), None)
    else
      var a := store[appointmentId];
      if a.userId != auth.value then PollStep(store, Failure(WrapStatusError(NotOwner)), None)
      else if a.paymentStatus == Completed then PollStep(store, Success(PollCompleted(appointmentId)), None)
      else
        var request := QueryRequest(env, a.mesombTransactionId, timestamp, nonce);
        match query
        case QueryFailed(failure) => PollStep(store, Failure(WrapStatusError(AsThrown(failure))), Some(request))
        case Answered(status) =>
          if status == SuccessStatus then
            PollStep(store[appointmentId := WithPaymentConfirmed(a, now)], Success(PollCompleted(appointmentId)), Some(request))
          else if status == FailedStatus then
            PollStep(store[appointmentId := WithPaymentFailed(a)], Success(PollFailed(PaymentFailed)), Some(request))
          else
            PollStep(store, Success(PollProcessing("Payment is still processing")), Some(request))
  }

  /** An inbound webhook call: HTTP method, the X-MeSomb-Signature header
      (None when absent) and the parsed JSON body. */
  datatype WebhookRequest = WebhookRequest(httpMethod: string, signature: Option<string>, body: WebhookBody)

  datatype Response = Response(code: int, text: string)

  datatype WebhookStep = WebhookStep(store: Store, response: Response)

  /** mesombWebhook; `now` is the server timestamp of its write. */
  function Webhook(env: Env, store: Store, req: WebhookRequest, now: Timestamp): (step: WebhookStep)
    ensures step.store.Keys == store.Keys
    ensures step.response.code in {200, 401, 404, 405}
    ensures step.response.code != 200 ==> step.store == store
  {
    if req.httpMethod != "POST" then WebhookStep(store, Response(405, "Method not allowed"))
    else if !Authentic(env, req.signature, req.body) then WebhookStep(store, Response(401, "Invalid signature"))
    else if req.body.trxID !in store then WebhookStep(store, Response(404, "Appointment not found"))
    else
      var id := req.body.trxID;
      var a := store[id];
      if req.body.status == SuccessStatus then WebhookStep(store[id := WithWebhookConfirmed(a, now)], Response(200, "OK"))
      else if req.body.status == FailedStatus then WebhookStep(store[id := WithWebhookFailed(a)], Response(200, "OK"))
      else WebhookStep(store, Response(200, "OK"))
  }
}
