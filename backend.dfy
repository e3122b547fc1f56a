/**
 * The deployed functions over one document store: the appointments
 * collection, which the handlers update step by step, and the users
 * collection, which they only read.
 */
module Backend {
  import opened Wrappers
  import opened Errors
  import opened Validation
  import opened Gateway
  import opened Ledger
  import opened Handlers

  class PaymentBackend {
    const env: Env
    const users: map<string, Doctor>
    var appointments: Store

    constructor (env: Env, users: map<string, Doctor>, appointments: Store)
      ensures this.env == env && this.users == users && this.appointments == appointments
    {
      this.env := env;
      this.users := users;
      this.appointments := appointments;
    }

    /** initializePayment: check the request, add the appointment, send the
        signed collect request and record the gateway's acceptance. */
    method InitializePayment(auth: Option<string>, req: PaymentRequest, date: DateConversion, newId: string,
                             now: Timestamp, timestamp: string, nonce: string, collect: CollectOutcome)
      returns (reply: Result<InitReply, HttpsError>, sent: Option<Request>)
      requires newId !in appointments
      modifies this`appointments
      ensures var step := Initialize(env, old(appointments), users, auth, req, date, newId, now, timestamp, nonce, collect);
        appointments == step.store && reply == step.reply && sent == step.sent
    {
      var checked := Validate(auth, req, users);
      if checked.Failure? {
        return Failure(WrapInitializeError(checked.error)), None;
      }
      var v := checked.value;
      if date.Unconvertible? {
        return Failure(WrapInitializeError(RuntimeFailure(date.message))), None;
      }
      appointments := appointments[newId := NewAppointment(v, date.at, now)];
      var request := CollectRequest(env, v.amount, v.service, v.payer, newId, timestamp, nonce);
      sent := Some(request);
      match collect {
        case Accepted(data) =>
          appointments := appointments[newId := WithCollectAccepted(appointments[newId], data)];
          reply := Success(InitReply(newId, data.reference, InitiatedMessage));
        case CollectFailed(failure) =>
          reply := Failure(WrapInitializeError(AsThrown(failure)));
      }
    }

    /** checkPaymentStatus: read the appointment, check ownership, and unless
        it is completed, query the gateway and record a final answer. */
    method CheckPaymentStatus(auth: Option<string>, appointmentId: string, now: Timestamp,
                              timestamp: string, nonce: string, query: QueryOutcome)
      returns (reply: Result<PollReply, HttpsError>, sent: Option<Request>)
      modifies this`appointments
      ensures var step := CheckStatus(env, old(appointments), auth, appointmentId, now, timestamp, nonce, query);
        appointments == step.store && reply == step.reply && sent == step.sent
    {
      if auth.None? {
        return Failure(WrapStatusError(UnauthenticatedError)), None;
      }
      if appointmentId !in appointments {
        return Failure(WrapStatusError(AppointmentNotFound)), None;
      }
      var appointment := appointments[appointmentId];
      if appointment.userId != auth.value {
        return Failure(WrapStatusError(NotOwner)), None;
      }
      if appointment.paymentStatus == Completed {
        return Success(PollCompleted(appointmentId)), None;
      }
      var request := QueryRequest(env, appointment.mesombTransactionId, timestamp, nonce);
      sent := Some(request);
      match query {
        case QueryFailed(failure) =>
          reply := Failure(WrapStatusError(AsThrown(failure)));
        case Answered(status) =>
          if status == SuccessStatus {
            appointments := appointments[appointmentId := WithPaymentConfirmed(appointment, now)];
            reply := Success(PollCompleted(appointmentId));
          } else if status == FailedStatus {
            appointments := appointments[appointmentId := WithPaymentFailed(appointment)];
            reply := Success(PollFailed(PaymentFailed));
          } else {
            reply := Success(PollProcessing("Payment is still processing"));
          }
      }
    }

    /** mesombWebhook: authenticate the notification and overwrite the
        appointment's status with the reported outcome. */
    method MesombWebhook(req: WebhookRequest, now: Timestamp) returns (response: Response)
      modifies this`appointments
      ensures var step := Webhook(env, old(appointments), req, now);
        appointments == step.store && response == step.response
    {
      if req.httpMethod != "POST" {
        return Response(405, "Method not allowed");
      }
      if !Authentic(env, req.signature, req.body) {
        return Response(401, "Invalid signature");
      }
      var id := req.body.trxID;
      if id !in appointments {
        return Response(404, "Appointment not found");
      }
      var appointment := appointments[id];
      if req.body.status == SuccessStatus {
        appointments := appointments[id := WithWebhookConfirmed(appointment, now)];
      } else if req.body.status == FailedStatus {
        appointments := appointments[id := WithWebhookFailed(appointment)];
      }
      response := Response(200, "OK");
    }
  }
}
