/**
 * The appointment document that records one payment attempt, its two status
 * fields, and the field updates the handlers write to it.
 */
module Ledger {
  import opened Wrappers
  import opened Validation
  import opened Gateway

  /** A server-assigned timestamp or a converted appointment date; opaque. */
  type Timestamp = nat

  /** The business status of the appointment. */
  datatype BookingStatus = PendingPayment | Confirmed | Cancelled

  /** The payment status of the appointment. */
  datatype PaymentStatus = Initiated | Processing | Completed | Failed

  /** A document of the appointments collection. Fields that are absent in
      the store are None; `webhookReceived` is false until a webhook sets it. */
  datatype Appointment = Appointment(
    userId: string,
    doctorId: string,
    date: Timestamp,
    time: string,
    amount: int,
    service: Service,
    payer: string,
    status: BookingStatus,
    createdAt: Timestamp,
    paymentStatus: PaymentStatus,
    mesombTransactionId: Option<string>,
    mesombResponse: Option<CollectData>,
    confirmedAt: Option<Timestamp>,
    webhookReceived: bool)

  /** The appointments collection, keyed by document id. */
  type Store = map<string, Appointment>

  /** The document initializePayment adds for a validated request. */
  function NewAppointment(v: Validated, date: Timestamp, now: Timestamp): (a: Appointment)
    ensures a.paymentStatus == Initiated && a.status == PendingPayment
    ensures a.mesombTransactionId == None && a.mesombResponse == None && a.confirmedAt == None && !a.webhookReceived
  {
    Appointment(v.userId, v.doctorId, date, v.time, v.amount, v.service, v.payer,
                PendingPayment, now, Initiated, None, None, None, false)
  }

  /** The update after the gateway accepted the collect request. */
  function WithCollectAccepted(a: Appointment, data: CollectData): (b: Appointment)
    ensures SameBooking(a, b) && b.status == a.status && b.confirmedAt == a.confirmedAt
    ensures b.webhookReceived == a.webhookReceived
  {
    a.(mesombTransactionId := Some(data.reference), mesombResponse := Some(data), paymentStatus := Processing)
  }

  /** The poll's update on a SUCCESS report. */
  function WithPaymentConfirmed(a: Appointment, now: Timestamp): (b: Appointment)
    ensures SameBooking(a, b) && b.webhookReceived == a.webhookReceived
    ensures b.mesombTransactionId == a.mesombTransactionId && b.mesombResponse == a.mesombResponse
  {
    a.(paymentStatus := Completed, status := Confirmed, confirmedAt := Some(now))
  }

  /** The poll's update on a FAILED report. */
  function WithPaymentFailed(a: Appointment): (b: Appointment)
    ensures SameBooking(a, b) && b.webhookReceived == a.webhookReceived && b.confirmedAt == a.confirmedAt
    ensures b.mesombTransactionId == a.mesombTransactionId && b.mesombResponse == a.mesombResponse
  {
    a.(paymentStatus := Failed, status := Cancelled)
  }

  /** The webhook's update on a SUCCESS notification. */
  function WithWebhookConfirmed(a: Appointment, now: Timestamp): (b: Appointment)
    ensures SameBooking(a, b) && b.webhookReceived
    ensures b.mesombTransactionId == a.mesombTransactionId && b.mesombResponse == a.mesombResponse
  {
    WithPaymentConfirmed(a, now).(webhookReceived := true)
  }

  /** The webhook's update on a FAILED notification. */
  function WithWebhookFailed(a: Appointment): (b: Appointment)
    ensures SameBooking(a, b) && b.webhookReceived && b.confirmedAt == a.confirmedAt
    ensures b.mesombTransactionId == a.mesombTransactionId && b.mesombResponse == a.mesombResponse
  {
    WithPaymentFailed(a).(webhookReceived := true)
  }

  /** The fields no handler writes after creation: who booked whom, when,
      for how much, over which network and from which number. */
  predicate SameBooking(a: Appointment, b: Appointment)
  {
    && a.userId == b.userId && a.doctorId == b.doctorId && a.date == b.date && a.time == b.time
    && a.amount == b.amount && a.service == b.service && a.payer == b.payer && a.createdAt == b.createdAt
  }
}
