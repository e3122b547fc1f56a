/**
 * The input checks of initializePayment, run in a fixed order; the first
 * check that fails decides the error.
 */
module Validation {
  import opened Wrappers
  import opened Errors

  /** The mobile-money networks the gateway is asked to collect from. */
  datatype Service = MTN | ORANGE

  function ServiceName(s: Service): string
  {
    match s
    case MTN => "MTN"
    case ORANGE => "ORANGE"
  }

  /** Membership in the list ['MTN', 'ORANGE'] (strict equality, so case matters). */
  function ParseService(name: string): (r: Option<Service>)
    ensures r.Some? <==> name == "MTN" || name == "ORANGE"
    ensures r.Some? ==> ServiceName(r.value) == name
  {
    if name == "MTN" then Some(MTN)
    else if name == "ORANGE" then Some(ORANGE)
    else None
  }

  /** The name a service is sent under parses back to that service. */
  lemma ServiceNameRoundTrip(s: Service)
    ensures ParseService(ServiceName(s)) == Some(s)
  {
  }

  predicate IsDigit(c: char)
  {
    '0' <= c <= '9'
  }

  /** Scans a string for the character class [0-9]. */
  function AllDigits(s: string): (b: bool)
    ensures b <==> forall i :: 0 <= i < |s| ==> IsDigit(s[i])
  {
    |s| == 0 || (IsDigit(s[0]) && AllDigits(s[1..]))
  }

  /** The payer pattern ^6[0-9]{8}$: a '6' and eight digits, nothing more. */
  predicate IsPayerNumber(s: string)
    ensures IsPayerNumber(s) <==> |s| == 9 && s[0] == '6' && forall i :: 1 <= i < 9 ==> IsDigit(s[i])
  {
    |s| == 9 && s[0] == '6' && AllDigits(s[1..])
  }

  const MinAmount := 100
  const MaxAmount := 1000000

  /** The fields of an initializePayment request. A string field that is
      missing and one that is empty are both "" (both are falsy). */
  datatype PaymentRequest = PaymentRequest(doctorId: string, date: string, time: string, amount: int, service: string, payer: string)

  /** A document of the users collection, as far as this core reads it:
      `baseFee` is None when the field is absent or not a number. */
  datatype Doctor = Doctor(baseFee: Option<int>)

  /** A request that passed every check, with the caller's uid. */
  datatype Validated = Validated(userId: string, doctorId: string, date: string, time: string, amount: int, service: Service, payer: string)

  /** The checks, named by what they demand. */
  datatype Check = Authenticated | FieldsPresent | KnownService | PayerFormat | AmountInRange | DoctorExists | FeeMatches

  /** The order in which initializePayment runs the checks. */
  const CheckOrder: seq<Check> := [Authenticated, FieldsPresent, KnownService, PayerFormat, AmountInRange, DoctorExists, FeeMatches]

  predicate Passes(c: Check, auth: Option<string>, req: PaymentRequest, users: map<string, Doctor>)
  {
    match c
    case Authenticated => auth.Some?
    case FieldsPresent =>
      req.doctorId != "" && req.date != "" && req.time != "" && req.amount != 0 && req.service != "" && req.payer != ""
    case KnownService => ParseService(req.service).Some?
    case PayerFormat => IsPayerNumber(req.payer)
    case AmountInRange => MinAmount <= req.amount <= MaxAmount
    case DoctorExists => req.doctorId in users
    case FeeMatches => req.doctorId in users && users[req.doctorId].baseFee == Some(req.amount)
  }

  /** The HttpsError each check throws when it fails. */
  function CheckError(c: Check): Thrown
  {
    match c
    case Authenticated => Raised(Unauthenticated, "User must be logged in")
    case FieldsPresent => Raised(InvalidArgument, "Missing required fields")
    case KnownService => Raised(InvalidArgument, "Invalid service type")
    case PayerFormat => Raised(InvalidArgument, "Invalid phone number format")
    case AmountInRange => Raised(InvalidArgument, "Amount must be between 100 and 1,000,000 FCFA")
    case DoctorExists => Raised(NotFound, "Doctor not found")
    case FeeMatches => Raised(InvalidArgument, "Amount does not match doctor fee")
  }

  /** What an accepted request satisfies, stated without the redundant
      falsiness tests of the chain. */
  predicate Acceptable(auth: Option<string>, req: PaymentRequest, users: map<string, Doctor>)
  {
    && auth.Some?
    && req.doctorId != "" && req.date != "" && req.time != ""
    && (req.service == "MTN" || req.service == "ORANGE")
    && |req.payer| == 9 && req.payer[0] == '6' && (forall i :: 1 <= i < 9 ==> IsDigit(req.payer[i]))
    && MinAmount <= req.amount <= MaxAmount
    && req.doctorId in users && users[req.doctorId].baseFee == Some(req.amount)
  }

  /** The validation chain of initializePayment. */
  function Validate(auth: Option<string>, req: PaymentRequest, users: map<string, Doctor>): (r: Result<Validated, Thrown>)
    ensures r.Success? <==> Acceptable(auth, req, users)
    ensures r.Success? ==>
              && r.value.userId == auth.value && r.value.doctorId == req.doctorId
              && r.value.date == req.date && r.value.time == req.time && r.value.amount == req.amount
              && ServiceName(r.value.service) == req.service && r.value.payer == req.payer
    ensures r.Failure? ==> r.error.Raised?
  {
    if auth.None? then Failure(CheckError(Authenticated))
    else if req.doctorId == "" || req.date == "" || req.time == "" || req.amount == 0 || req.service == "" || req.payer == "" then
      Failure(CheckError(FieldsPresent))
    else if ParseService(req.service).None? then Failure(CheckError(KnownService))
    else if !IsPayerNumber(req.payer) then Failure(CheckError(PayerFormat))
    else if req.amount < MinAmount || req.amount > MaxAmount then Failure(CheckError(AmountInRange))
    else if req.doctorId !in users then Failure(CheckError(DoctorExists))
    else if users[req.doctorId].baseFee != Some(req.amount) then Failure(CheckError(FeeMatches))
    else Success(Validated(auth.value, req.doctorId, req.date, req.time, req.amount, ParseService(req.service).value, req.payer))
  }

  /** Validation fails with the error of check `CheckOrder[k]` exactly when
      that check fails and every check before it passes. */
  lemma ValidateReportsFirstFailingCheck(auth: Option<string>, req: PaymentRequest, users: map<string, Doctor>, k: nat)
    requires k < |CheckOrder|
    ensures Validate(auth, req, users) == Failure(CheckError(CheckOrder[k]))
        <==> !Passes(CheckOrder[k], auth, req, users) && forall j :: 0 <= j < k ==> Passes(CheckOrder[j], auth, req, users)
  {
    var order := CheckOrder;
    assert order[0] == Authenticated && order[1] == FieldsPresent && order[2] == KnownService && order[3] == PayerFormat;
    assert order[4] == AmountInRange && order[5] == DoctorExists && order[6] == FeeMatches;
  }

  /** Validation succeeds exactly when every check passes. */
  lemma ValidateSucceedsWhenAllChecksPass(auth: Option<string>, req: PaymentRequest, users: map<string, Doctor>)
    ensures Validate(auth, req, users).Success? <==> forall j :: 0 <= j < |CheckOrder| ==> Passes(CheckOrder[j], auth, req, users)
  {
    var order := CheckOrder;
    assert order[0] == Authenticated && order[1] == FieldsPresent && order[2] == KnownService && order[3] == PayerFormat;
    assert order[4] == AmountInRange && order[5] == DoctorExists && order[6] == FeeMatches;
  }
}
