/**
 * What the three entry points guarantee about the appointments collection,
 * their replies and the requests they send.
 */
module Properties {
  import opened Wrappers
  import opened Errors
  import opened Validation
  import opened Gateway
  import opened Ledger
  import opened Handlers

  /** `s'` keeps every document of `s`, each with the same booking fields. */
  predicate KeepsBookings(s: Store, s': Store)
  {
    s.Keys <= s'.Keys && forall k :: k in s ==> SameBooking(s[k], s'[k])
  }

  /** `s'` differs from `s` at most in document `id`. */
  predicate OnlyTouches(s: Store, s': Store, id: string)
  {
    s.Keys == s'.Keys && forall k :: k in s && k != id ==> s'[k] == s[k]
  }

  // ---------------------------------------------------------------- initializePayment

  /** A request that fails a check, or whose date cannot be converted, leaves
      the collection as it was, sends nothing, and is reported as internal
      with the original message. */
  lemma InitializeRejectionWritesNothing(env: Env, store: Store, users: map<string, Doctor>, auth: Option<string>,
                                         req: PaymentRequest, date: DateConversion, newId: string, now: Timestamp,
                                         timestamp: string, nonce: string, collect: CollectOutcome)
    requires newId !in store
    requires !Acceptable(auth, req, users) || date.Unconvertible?
    ensures var step := Initialize(env, store, users, auth, req, date, newId, now, timestamp, nonce, collect);
      && step.store == store && step.sent == None
      && step.reply.Failure? && step.reply.error.code == Internal && step.reply.error.details == None
      && (Validate(auth, req, users).Failure? ==> step.reply.error.message == Validate(auth, req, users).error.message)
      && (Validate(auth, req, users).Success? ==> step.reply.error.message == date.message)
  {
  }

  /** An accepted request adds exactly one document, under the new id, copying
      the request's fields with status pending_payment; the gateway's answer
      then decides whether it moves to processing (recording the reference and
      the response, and nothing else) or stays initiated. */
  lemma InitializeAddsOneAppointment(env: Env, store: Store, users: map<string, Doctor>, auth: Option<string>,
                                     req: PaymentRequest, at: Timestamp, newId: string, now: Timestamp,
                                     timestamp: string, nonce: string, collect: CollectOutcome)
    requires newId !in store
    requires Acceptable(auth, req, users)
    ensures var step := Initialize(env, store, users, auth, req, Converted(at), newId, now, timestamp, nonce, collect);
      var a := step.store[newId];
      && step.store.Keys == store.Keys + {newId}
      && (forall k :: k in store ==> step.store[k] == store[k])
      && a.userId == auth.value && a.doctorId == req.doctorId && a.date == at && a.time == req.time
      && a.amount == req.amount && ServiceName(a.service) == req.service && a.payer == req.payer
      && a.status == PendingPayment && a.createdAt == now && a.confirmedAt == None && !a.webhookReceived
      && (collect.Accepted? ==>
            && a.paymentStatus == Processing
            && a.mesombTransactionId == Some(collect.data.reference) && a.mesombResponse == Some(collect.data)
            && step.reply == Success(InitReply(newId, collect.data.reference, InitiatedMessage)))
      && (collect.CollectFailed? ==>
            && a.paymentStatus == Initiated && a.mesombTransactionId == None && a.mesombResponse == None
            && step.reply == Failure(WrapInitializeError(AsThrown(collect.failure))))
  {
  }

  /** The collect request is sent exactly when the appointment was created; it
      carries the appointment id as trxID and the fixed country and currency,
      and its signature covers the serialisation of the body it carries. */
  lemma InitializeSignsWhatItSends(env: Env, store: Store, users: map<string, Doctor>, auth: Option<string>,
                                   req: PaymentRequest, date: DateConversion, newId: string, now: Timestamp,
                                   timestamp: string, nonce: string, collect: CollectOutcome)
    requires newId !in store
    ensures var step := Initialize(env, store, users, auth, req, date, newId, now, timestamp, nonce, collect);
      && (step.sent.Some? <==> Acceptable(auth, req, users) && date.Converted?)
      && (step.sent.Some? ==>
            var r := step.sent.value;
            && SignedConsistently(env, r) && r.httpMethod == "POST" && r.endpoint == CollectEndpoint
            && r.headers.timestamp == timestamp && r.headers.nonce == nonce
            && r.body.Some? && r.body.value.trxID == newId && r.body.value.nonce == nonce
            && r.body.value.country == "CM" && r.body.value.currency == "XAF"
            && r.body.value.amount == req.amount && ServiceName(r.body.value.service) == req.service
            && r.body.value.payer == req.payer)
  {
  }

  /** Every error initializePayment reports has code internal; only a
      provider's response body can replace the message, and it is then passed
      on as the error's details. */
  lemma InitializeErrorsAreInternal(env: Env, store: Store, users: map<string, Doctor>, auth: Option<string>,
                                    req: PaymentRequest, date: DateConversion, newId: string, now: Timestamp,
                                    timestamp: string, nonce: string, collect: CollectOutcome)
    requires newId !in store
    ensures var step := Initialize(env, store, users, auth, req, date, newId, now, timestamp, nonce, collect);
      && (step.reply.Failure? ==> step.reply.error.code == Internal)
      && (step.reply.Failure? && step.reply.error.details.Some? ==>
            collect.CollectFailed? && step.reply.error.details == collect.failure.responseData)
  {
  }

  /** A worked call: an MTN payment of 1500 to a doctor whose fee is 1500,
      accepted by the gateway, leaves the new appointment processing with the
      provider's reference. */
  lemma InitializeScenario(env: Env, at: Timestamp, now: Timestamp, timestamp: string, nonce: string, reference: string, raw: string)
    ensures var req := PaymentRequest("doc1", "2024-05-01", "10:00", 1500, "MTN", "670000000");
      var step := Initialize(env, map[], map["doc1" := Doctor(Some(1500))], Some("user1"), req, Converted(at),
                             "apt1", now, timestamp, nonce, Accepted(CollectData(reference, raw)));
      && step.store.Keys == {"apt1"}
      && step.store["apt1"].paymentStatus == Processing
      && step.store["apt1"].mesombTransactionId == Some(reference)
      && step.reply == Success(InitReply("apt1", reference, InitiatedMessage))
  {
  }

  /** The same request with an amount different from the fee is refused with
      the fee-mismatch message and adds nothing. */
  lemma InitializeFeeMismatchScenario(env: Env, at: Timestamp, now: Timestamp, timestamp: string, nonce: string, collect: CollectOutcome)
    ensures var req := PaymentRequest("doc1", "2024-05-01", "10:00", 1000, "MTN", "670000000");
      var step := Initialize(env, map[], map["doc1" := Doctor(Some(1500))], Some("user1"), req, Converted(at),
                             "apt1", now, timestamp, nonce, collect);
      && step.store == map[] && step.sent == None
      && step.reply == Failure(HttpsError(Internal, "Amount does not match doctor fee", None))
  {
  }

  // ---------------------------------------------------------------- checkPaymentStatus

  /** An unauthenticated caller, a missing appointment and another user's
      appointment are refused, in that order, without a write or a query. */
  lemma CheckStatusRefusals(env: Env, store: Store, auth: Option<string>, id: string, now: Timestamp,
                            timestamp: string, nonce: string, query: QueryOutcome)
    requires auth.None? || id !in store || store[id].userId != auth.value
    ensures var step := CheckStatus(env, store, auth, id, now, timestamp, nonce, query);
      && step.store == store && step.sent == None
      && step.reply == Failure(HttpsError(Internal,
           if auth.None? then "User must be logged in"
           else if id !in store then "Appointment not found"
           else "Unauthorized", None))
  {
  }

  /** A completed appointment is reported completed at once: no query, no write. */
  lemma CheckStatusCompletedShortCircuits(env: Env, store: Store, auth: Option<string>, id: string, now: Timestamp,
                                          timestamp: string, nonce: string, query: QueryOutcome)
    requires auth.Some? && id in store && store[id].userId == auth.value
    requires store[id].paymentStatus == Completed
    ensures CheckStatus(env, store, auth, id, now, timestamp, nonce, query) == PollStep(store, Success(PollCompleted(id)), None)
  {
  }

  /** For the owner of an appointment that is not completed (failed ones
      included), the status query is sent, signed over an empty body, for the
      stored transaction id (even when there is none); SUCCESS makes the
      appointment completed/confirmed, FAILED makes it failed/cancelled, any
      other status and a failed query write nothing. */
  lemma CheckStatusAppliesReport(env: Env, store: Store, auth: Option<string>, id: string, now: Timestamp,
                                 timestamp: string, nonce: string, query: QueryOutcome)
    requires auth.Some? && id in store && store[id].userId == auth.value
    requires store[id].paymentStatus != Completed
    ensures var step := CheckStatus(env, store, auth, id, now, timestamp, nonce, query);
      var a := store[id];
      && step.sent == Some(QueryRequest(env, a.mesombTransactionId, timestamp, nonce))
      && OnlyTouches(store, step.store, id)
      && (query == Answered(SuccessStatus) ==>
            step.store[id] == a.(paymentStatus := Completed, status := Confirmed, confirmedAt := Some(now))
            && step.reply == Success(PollCompleted(id)))
      && (query == Answered(FailedStatus) ==>
            step.store[id] == a.(paymentStatus := Failed, status := Cancelled)
            && step.reply == Success(PollFailed("Payment failed")))
      && (query.Answered? && query.status != SuccessStatus && query.status != FailedStatus ==>
            step.store == store && step.reply == Success(PollProcessing("Payment is still processing")))
      && (query.QueryFailed? ==>
            step.store == store && step.reply == Failure(HttpsError(Internal, query.failure.message, None)))
  {
  }

  /** Every error checkPaymentStatus reports has code internal and no details,
      even when the provider answered the query with an error body. */
  lemma CheckStatusErrorsAreInternal(env: Env, store: Store, auth: Option<string>, id: string, now: Timestamp,
                                     timestamp: string, nonce: string, query: QueryOutcome)
    ensures var step := CheckStatus(env, store, auth, id, now, timestamp, nonce, query);
      step.reply.Failure? ==> step.reply.error.code == Internal && step.reply.error.details == None
  {
  }

  /** After a poll that saw SUCCESS, the next poll by the same caller answers
      completed without querying the gateway and without writing. */
  lemma PollAfterSuccessShortCircuits(env: Env, store: Store, auth: Option<string>, id: string,
                                                         now: Timestamp, now': Timestamp, timestamp: string, nonce: string,
                                                         timestamp': string, nonce': string, query': QueryOutcome)
    ensures var first := CheckStatus(env, store, auth, id, now, timestamp, nonce, Answered(SuccessStatus));
      first.reply == Success(PollCompleted(id)) ==>
        CheckStatus(env, first.store, auth, id, now', timestamp', nonce', query')
          == PollStep(first.store, Success(PollCompleted(id)), None)
  {
  }

  // ---------------------------------------------------------------- mesombWebhook

  /** A non-POST call, a signature mismatch and an unknown trxID are answered
      405, 401 and 404, in that order, and write nothing. */
  lemma WebhookRefusals(env: Env, store: Store, req: WebhookRequest, now: Timestamp)
    requires req.httpMethod != "POST" || !Authentic(env, req.signature, req.body) || req.body.trxID !in store
    ensures var step := Webhook(env, store, req, now);
      && step.store == store
      && step.response.code == (if req.httpMethod != "POST" then 405
                                else if !Authentic(env, req.signature, req.body) then 401
                                else 404)
  {
  }

  /** An authentic POST for a known appointment is answered 200. SUCCESS
      makes the appointment completed/confirmed with a fresh confirmedAt,
      FAILED makes it failed/cancelled, both mark webhookReceived, whatever
      state the appointment was in; any other status writes nothing. */
  lemma WebhookApplies(env: Env, store: Store, req: WebhookRequest, now: Timestamp)
    requires req.httpMethod == "POST" && Authentic(env, req.signature, req.body) && req.body.trxID in store
    ensures var step := Webhook(env, store, req, now);
      var id := req.body.trxID;
      var a := store[id];
      && step.response == Response(200, "OK")
      && OnlyTouches(store, step.store, id)
      && (req.body.status == SuccessStatus ==>
            step.store[id] == a.(paymentStatus := Completed, status := Confirmed, confirmedAt := Some(now), webhookReceived := true))
      && (req.body.status == FailedStatus ==>
            step.store[id] == a.(paymentStatus := Failed, status := Cancelled, webhookReceived := true))
      && (req.body.status != SuccessStatus && req.body.status != FailedStatus ==> step.store == store)
  {
  }

  /** Delivering the same webhook twice, with the same server timestamp,
      leaves the collection as one delivery does and gets the same answer. */
  lemma WebhookIdempotent(env: Env, store: Store, req: WebhookRequest, now: Timestamp)
    ensures var once := Webhook(env, store, req, now);
      Webhook(env, once.store, req, now) == once
  {
  }

  /** A second SUCCESS delivery at a later server time moves confirmedAt to
      that time: the webhook has no terminal-state guard. */
  lemma WebhookRewritesConfirmedAt(env: Env, store: Store, req: WebhookRequest, now: Timestamp, later: Timestamp)
    requires req.httpMethod == "POST" && Authentic(env, req.signature, req.body) && req.body.trxID in store
    requires req.body.status == SuccessStatus
    ensures var twice := Webhook(env, Webhook(env, store, req, now).store, req, later);
      twice.store[req.body.trxID].confirmedAt == Some(later) && twice.response.code == 200
  {
  }

  /** A FAILED delivery turns a completed appointment into a failed one. */
  lemma WebhookReopensCompleted(env: Env, store: Store, req: WebhookRequest, now: Timestamp)
    requires req.httpMethod == "POST" && Authentic(env, req.signature, req.body) && req.body.trxID in store
    requires store[req.body.trxID].paymentStatus == Completed && req.body.status == FailedStatus
    ensures Webhook(env, store, req, now).store[req.body.trxID].paymentStatus == Failed
  {
  }

  // ---------------------------------------------------------------- invariants across handlers

  /** initializePayment adds at most one appointment and keeps the others as
      they were. */
  lemma InitializeKeepsBookings(env: Env, store: Store, users: map<string, Doctor>, auth: Option<string>,
                                req: PaymentRequest, date: DateConversion, newId: string, now: Timestamp,
                                timestamp: string, nonce: string, collect: CollectOutcome)
    requires newId !in store
    ensures var s := Initialize(env, store, users, auth, req, date, newId, now, timestamp, nonce, collect).store;
      KeepsBookings(store, s) && s.Keys <= store.Keys + {newId}
  {
  }

  /** The poll never removes or adds an appointment, never changes a booking,
      and never writes the provider's transaction id or response. */
  lemma CheckStatusKeepsBookings(env: Env, store: Store, auth: Option<string>, id: string, now: Timestamp,
                                 timestamp: string, nonce: string, query: QueryOutcome)
    ensures var s := CheckStatus(env, store, auth, id, now, timestamp, nonce, query).store;
      && s.Keys == store.Keys && KeepsBookings(store, s)
      && forall k :: k in store ==>
           s[k].mesombTransactionId == store[k].mesombTransactionId && s[k].mesombResponse == store[k].mesombResponse
  {
  }

  /** The webhook never removes or adds an appointment, never changes a
      booking, and never writes the provider's transaction id or response. */
  lemma WebhookKeepsBookings(env: Env, store: Store, hook: WebhookRequest, now: Timestamp)
    ensures var s := Webhook(env, store, hook, now).store;
      && s.Keys == store.Keys && KeepsBookings(store, s)
      && forall k :: k in store ==>
           s[k].mesombTransactionId == store[k].mesombTransactionId && s[k].mesombResponse == store[k].mesombResponse
  {
  }
}
