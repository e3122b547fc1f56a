# Mobile-money payment workflow for appointments, in Dafny

This project models the payment back end of a doctor-appointment app
(`functions/index.js`). The back end has three entry points:

- **initializePayment** runs a fixed chain of input checks and creates an appointment with status
  `pending_payment` / `initiated`. It then sends a signed collect request to the MeSomb gateway. When the
  gateway accepts, it moves the appointment to `processing` and stores the provider's reference.
- **checkPaymentStatus** is the poll path. It reads the appointment and checks that the caller owns it.
  Unless the appointment is already `completed`, it queries the gateway and records `SUCCESS` or `FAILED`.
- **mesombWebhook** is the push path. It checks the HMAC of the notification, finds the appointment by
  `trxID` and overwrites its status.

Module layout:

- `Signer` builds the canonical signing message and parses it back.
- `Validation` holds the check chain.
- `Gateway` builds the outbound requests and checks webhook authenticity.
- `Ledger` holds the appointment record and its field updates.
- `Errors` holds the two catch blocks.
- `Handlers` gives each entry point as a pure transition of the appointments collection. A transition
  returns the new collection, the reply, and the request sent to the gateway, if any.
- `Properties` proves what those transitions guarantee.
- `Backend.PaymentBackend` is a class holding the collection as a `map`. Its methods perform each
  handler step by step (add the record, then update it). Each method is proved to end in the state and
  reply its transition describes.

The keyed hash (HMAC-SHA1, hex), `JSON.stringify` and the credentials are the fields of `Gateway.Env`. The
hash and `stringify` are uninterpreted functions there. These are all inputs:

- the nonce and the request timestamp;
- the document id the store assigns to a new appointment (taken to be fresh);
- the server timestamp;
- the result of converting the request's date;
- what the gateway answered.

Behaviour of the code worth knowing (the model follows it):

- The webhook has no terminal-state guard. A `FAILED` notification turns a `completed` appointment into
  a `failed` one. Every `SUCCESS` delivery rewrites `confirmedAt` (`WebhookReopensCompleted`,
  `WebhookRewritesConfirmedAt`).
- The poll short-circuits only on `completed`. A `failed` appointment is queried again and can become
  `completed`.
- The poll sends its query even when no transaction id was stored. The id is then interpolated as
  `undefined`.
- A failed collect call leaves the appointment `initiated`. Nothing is written.
- Every error leaving a callable function has code `internal`. This includes the validation errors,
  whose messages are kept.
- The webhook signature is an HMAC of the re-serialised parsed body, not of the canonical message and
  not of the raw bytes. It is compared with plain string inequality.

## Model

| member | source | states |
|---|---|---|
| Signer.SigningMessage | functions/index.js:29-30 | The message has the method as prefix and the body as suffix. Its length is the sum of the five fields plus four separators. The body defaults to "". |
| Signer.ParseSigningMessageRoundTrip | functions/index.js:29-30 | A verifier that splits the message at its first four newlines gets back exactly the five fields signed, when the header fields are single lines. |
| Signer.SigningMessageInjective | functions/index.js:29-30 | Two messages with single-line header fields are equal only when all five fields are equal. |
| Signer.BodyChangeChangesMessage | functions/index.js:29-30 | For fixed header fields, a different body always gives a different signed message. |
| Signer.Signature | functions/index.js:29-35 | The signature is the keyed hash of the canonical message under the secret. It has no contract of its own. Its meaning is stated by Signer.ParseSigningMessageRoundTrip and Signer.SigningMessageInjective (what it covers), and by Gateway.CollectRequest and Gateway.QueryRequest (each request is signed over what it carries). |
| Errors.WrapInitializeError | functions/index.js:163-175 | The code is always internal. A provider response body sets the message (its message, or "Payment failed" when empty) and is passed on as details. Any other error, including a validation HttpsError, keeps its message and has no details. |
| Errors.WrapStatusError | functions/index.js:269-272 | The code is always internal. Only the original message survives; a provider body is dropped. |
| Errors.CatchBlocksAgreeWithoutProviderBody | functions/index.js:163-175 | The two catch blocks give the same error exactly when no provider response body is involved. |
| Validation.ParseService | functions/index.js:59-64 | A service is accepted exactly when it is "MTN" or "ORANGE" (case-sensitive). The accepted value's name is the input. |
| Validation.ServiceNameRoundTrip | functions/index.js:59-64 | The name a service is stored and sent under parses back to that service. |
| Validation.AllDigits | functions/index.js:66-67 | The `[0-9]` scan of the payer pattern is true exactly when every character is a digit. |
| Validation.IsPayerNumber | functions/index.js:66-67 | The payer matches ^6[0-9]{8}$ exactly when it has 9 characters, the first is '6' and the other eight are digits. |
| Validation.Validate | functions/index.js:42-96 | The check chain succeeds exactly when the request is acceptable: caller authenticated; doctorId, date and time non-empty; service MTN or ORANGE; payer a '6' followed by 8 digits; 100 <= amount <= 1000000; doctor exists; fee equals amount. It then copies uid and fields. A failure is always an HttpsError. |
| Validation.ValidateReportsFirstFailingCheck | functions/index.js:42-96 | The chain fails with the error of check k exactly when check k fails and every earlier check passes. The order is: authenticated, fields present (falsy test, so amount 0 counts as missing), service, phone, range, doctor exists, fee matches. |
| Validation.ValidateSucceedsWhenAllChecksPass | functions/index.js:42-96 | The chain succeeds exactly when all seven checks pass. |
| Gateway.CollectRequest | functions/index.js:113-133 | The request is a POST to /payment/collect/v1/. Its body carries the amount, service, payer, nonce, trxID = the appointment id, country CM and currency XAF. The signature header is the HMAC of the canonical message over the serialisation of that same body. |
| Gateway.TransactionEndpoint | functions/index.js:221-222 | The query path is /payment/transactions/<id>/. It is /payment/transactions/undefined/ when no transaction id is stored. |
| Gateway.QueryRequest | functions/index.js:221-238 | The status query is a GET without a body. Its signature covers the canonical message with an empty body. |
| Gateway.MissingReferenceQueriesUndefined | functions/index.js:221-222 | With no transaction id stored, the poll queries the same path as for a provider reference literally named "undefined". |
| Gateway.Authentic | functions/index.js:285-291 | The webhook is authentic when its signature header equals the keyed hash of the re-serialised parsed body, by plain string equality; a missing header never matches. It has no contract of its own. Its meaning is stated by Properties.WebhookRefusals (401 and no write when it fails) and Properties.WebhookApplies (what happens when it holds). |
| Ledger.NewAppointment | functions/index.js:98-111 | The added document starts pending_payment / initiated, with no transaction id, response or confirmedAt, and webhookReceived false. The copied fields are stated by Properties.InitializeAddsOneAppointment. |
| Ledger.WithCollectAccepted | functions/index.js:151-155 | Recording the gateway's acceptance keeps the booking fields, the business status, confirmedAt and webhookReceived. That it sets processing, the reference and the response is stated by Properties.InitializeAddsOneAppointment. |
| Ledger.WithPaymentConfirmed | functions/index.js:243-247 | The poll's SUCCESS update keeps the booking fields, webhookReceived, and the transaction id and response. The fields it sets are stated by Properties.CheckStatusAppliesReport. |
| Ledger.WithPaymentFailed | functions/index.js:254-257 | The poll's FAILED update keeps the booking fields, webhookReceived, confirmedAt, and the transaction id and response. The fields it sets are stated by Properties.CheckStatusAppliesReport. |
| Ledger.WithWebhookConfirmed | functions/index.js:309-314 | The webhook's SUCCESS update sets webhookReceived and keeps the booking fields, the transaction id and the response. The rest is stated by Properties.WebhookApplies. |
| Ledger.WithWebhookFailed | functions/index.js:316-320 | The webhook's FAILED update sets webhookReceived and keeps the booking fields, confirmedAt, the transaction id and the response. The rest is stated by Properties.WebhookApplies. |
| Handlers.Initialize | functions/index.js:40-176 | Every error has code internal. Existing appointments are untouched, and at most the new id is added. The call succeeds exactly when the new appointment exists in processing. The rest is stated by Properties.InitializeRejectionWritesNothing, InitializeAddsOneAppointment, InitializeSignsWhatItSends and InitializeErrorsAreInternal. |
| Handlers.CheckStatus | functions/index.js:181-273 | The set of appointments never changes. Without a gateway query there is no write. An error means no write, code internal and no details. The rest is stated by Properties.CheckStatusRefusals, CheckStatusCompletedShortCircuits and CheckStatusAppliesReport. |
| Handlers.Webhook | functions/index.js:278-328 | The set of appointments never changes. The response is 200, 401, 404 or 405, and anything but 200 means no write. The rest is stated by Properties.WebhookRefusals, WebhookApplies and WebhookIdempotent. |
| Properties.InitializeRejectionWritesNothing | functions/index.js:42-111 | A request that fails a check, or whose date cannot be converted, adds no appointment and sends nothing. It fails with code internal and the original message. |
| Properties.InitializeAddsOneAppointment | functions/index.js:98-155 | An accepted request adds exactly one appointment, under the new id, and leaves all others untouched. The new appointment copies uid, doctorId, date, time, amount, service and payer, with pending_payment. If the gateway accepts: processing, with the reference and the response recorded and nothing else changed, and the reply carries the ids. If the call throws: initiated, with no transaction id, and the reply is the wrapped error. |
| Properties.InitializeSignsWhatItSends | functions/index.js:113-133 | The collect request is sent exactly when the appointment was created. It has trxID = the new id, CM/XAF and the request's amount/service/payer. It is signed over what it carries. |
| Properties.InitializeErrorsAreInternal | functions/index.js:163-175 | Every initializePayment error has code internal. Details appear only for a collect failure and equal the provider's body. |
| Properties.InitializeScenario | functions/index.js:40-162 | An MTN payment of 1500 from 670000000 to a doctor whose fee is 1500, when the gateway accepts, leaves one appointment in processing with the provider's reference. |
| Properties.InitializeFeeMismatchScenario | functions/index.js:90-96 | An amount of 1000 against a fee of 1500 is refused with "Amount does not match doctor fee". Nothing is added and nothing is sent. |
| Properties.CheckStatusRefusals | functions/index.js:183-212 | An unauthenticated caller, a missing appointment and a non-owner are refused in that order. The messages are "User must be logged in", "Appointment not found" and "Unauthorized", all with code internal. There is no write and no query. |
| Properties.CheckStatusCompletedShortCircuits | functions/index.js:214-219 | For its owner, a completed appointment is reported completed with no query and no write. |
| Properties.CheckStatusAppliesReport | functions/index.js:221-268 | Otherwise, including for failed appointments, the query for the stored transaction id is sent. SUCCESS sets completed/confirmed with confirmedAt. FAILED sets failed/cancelled. Only that appointment changes. Any other status gives processing with no write. A failed query gives an internal error with the client's message and no write. |
| Properties.CheckStatusErrorsAreInternal | functions/index.js:269-272 | Every checkPaymentStatus error has code internal and no details. |
| Properties.PollAfterSuccessShortCircuits | functions/index.js:214-252 | After a poll that recorded SUCCESS, the next poll by the same caller answers completed with no query and no write. |
| Properties.WebhookRefusals | functions/index.js:280-306 | A non-POST gets 405, a signature mismatch (or missing header) 401, and an unknown trxID 404, in that order. None of them writes. |
| Properties.WebhookApplies | functions/index.js:308-323 | An authentic POST for a known appointment gets 200 "OK", whatever state the appointment is in. SUCCESS sets completed/confirmed, a new confirmedAt and webhookReceived. FAILED sets failed/cancelled and webhookReceived. Only that appointment changes. Any other status writes nothing. |
| Properties.WebhookIdempotent | functions/index.js:308-323 | Delivering the same webhook twice with the same server timestamp gives the same collection and the same response as delivering it once. |
| Properties.WebhookRewritesConfirmedAt | functions/index.js:308-314 | A second SUCCESS delivery at a later server time sets confirmedAt to that time and still gets 200. |
| Properties.WebhookReopensCompleted | functions/index.js:315-320 | A FAILED delivery turns a completed appointment into a failed one. |
| Properties.InitializeKeepsBookings | functions/index.js:98-155 | initializePayment adds at most the new id and keeps every existing appointment's booking fields. |
| Properties.CheckStatusKeepsBookings | functions/index.js:242-257 | The poll keeps the set of appointments, every booking field, and the provider's transaction id and response. |
| Properties.WebhookKeepsBookings | functions/index.js:308-320 | The webhook keeps the set of appointments, every booking field, and the provider's transaction id and response. |
| Backend.PaymentBackend.InitializePayment | functions/index.js:40-176 | Step by step (validate, add, sign and send, update), the collection, reply and sent request end as `Handlers.Initialize` gives them. |
| Backend.PaymentBackend.CheckPaymentStatus | functions/index.js:181-273 | Step by step, the collection, reply and sent request end as `Handlers.CheckStatus` gives them. |
| Backend.PaymentBackend.MesombWebhook | functions/index.js:278-328 | Step by step, the collection and the HTTP response end as `Handlers.Webhook` gives them. |

## Left out

- HMAC-SHA1, hex encoding and `crypto.randomBytes` nonce generation are not modelled; the keyed hash is an uninterpreted parameter of `Env`, and the nonce is an input.
- Collision resistance of the hash is not assumed: the model proves that a body change changes the signed message, not that it changes the signature.
- `JSON.stringify` is an uninterpreted parameter. Its output for the collect body and for the webhook body is never inspected.
- HTTP calls are not modelled: the host URL, the 60 s timeout and the Content-Type header are network I/O. The gateway's answer is an input: an accepted collect with reference and body, a status, or a thrown error with an optional provider body.
- Document store failures are not modelled: a failing read or write, and a document id the store client rejects (such as an empty one). The model assumes every read and write succeeds, so it never produces the webhook's 500 response or an `internal` error caused by the store.
- Server timestamps, `Date.now()` and the date-to-Timestamp conversion are not modelled; they are opaque inputs. An unconvertible date is an input outcome that throws with its message before the appointment is added.
- The store's auto-generated document id is an input, assumed fresh (`newId !in store`).
- JavaScript's dynamic typing is not modelled. Fields are strings and an integer amount; a missing string field and an empty one are the same (both falsy). NaN or fractional amounts, a numeric payer coerced to text by the regex test, and non-string statuses are outside the model.
- Concurrent polls and webhooks on the same appointment are not modelled. The model is sequential, and interleavings can only be written as sequences of transitions.
- `console.error` logging and environment-variable loading are not modelled; the credentials are fields of `Env`.
- `ios/Runner/AppDelegate.swift` (app bootstrapping and notification callbacks) is not part of this model.
