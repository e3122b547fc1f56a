/**
 * The errors the two callable handlers raise, and the catch blocks that turn
 * every exception leaving their `try` into the error the caller receives.
 */
module Errors {
  import opened Wrappers

  /** The HttpsError codes this core uses. */
  datatype ErrorCode = Unauthenticated | InvalidArgument | NotFound | PermissionDenied | Internal

  /** The structured body of a failed gateway response. `message` is "" when
      the body has no `message` field (or an empty one). */
  datatype ProviderPayload = ProviderPayload(message: string, raw: string)

  /** An error as the caller of a callable function receives it. */
  datatype HttpsError = HttpsError(code: ErrorCode, message: string, details: Option<ProviderPayload>)

  /** An exception raised inside a handler's `try` block. */
  datatype Thrown =
    | Raised(code: ErrorCode, message: string)
      // an HttpsError the handler throws itself
    | HttpFailure(message: string, responseData: Option<ProviderPayload>)
      // a failed gateway call; `responseData` is the provider's body when there was one
    | RuntimeFailure(message: string)
      // any other exception, such as an unconvertible appointment date

  const PaymentFailed := "Payment failed"

  /** The catch block of initializePayment: a provider body, when present,
      supplies the message (or "Payment failed") and is passed on as details;
      every other exception keeps only its message. The code is always internal. */
  function WrapInitializeError(t: Thrown): (e: HttpsError)
    ensures e.code == Internal
    ensures e.details.Some? <==> t.HttpFailure? && t.responseData.Some?
    ensures e.details.None? ==> e.message == t.message
    ensures e.details.Some? ==> e.details == t.responseData
    ensures e.details.Some? && t.responseData.value.message != "" ==> e.message == t.responseData.value.message
    ensures e.details.Some? && t.responseData.value.message == "" ==> e.message == PaymentFailed
    ensures t.Raised? ==> e == HttpsError(Internal, t.message, None)
  {
    match t
    case HttpFailure(_, Some(data)) =>
      HttpsError(Internal, if data.message != "" then data.message else PaymentFailed, Some(data))
    case _ => HttpsError(Internal, t.message, None)
  }

  /** The catch block of checkPaymentStatus: only the exception's message
      survives, under code internal; a provider body is dropped. */
  function WrapStatusError(t: Thrown): (e: HttpsError)
    ensures e.code == Internal && e.details == None
    ensures e.message == t.message
  {
    HttpsError(Internal, t.message, None)
  }

  /** The two catch blocks differ only on a gateway failure that carries a
      provider body. */
  lemma CatchBlocksAgreeWithoutProviderBody(t: Thrown)
    ensures WrapInitializeError(t) == WrapStatusError(t) <==> !(t.HttpFailure? && t.responseData.Some?)
  {
  }
}
