/** The Payment aggregate: its statuses, guarded transitions, and the loader that rebuilds it from storage. */
module Domain {
  import opened Text

  /** Instants are integers; NO_TIME is the zero time that the source rejects as a timestamp. */
  type Time = int
  const NO_TIME: Time := 0

  const USD := "USD"

  datatype Status = Pending | Authorized | Expired | Declined | Captured | Voided | Refunded

  datatype DeclineReason = NoReason | InsufficientFunds | InvalidCard | ExpiredCard | UnknownReason

  datatype DomainError =
    | InvalidPaymentId | InvalidOrderId | InvalidCustomerId | InvalidAmount
    | InvalidBankAuthorizationId | InvalidBankCaptureId | InvalidBankRefundId | InvalidBankVoidId
    | InvalidBankOperationKey | InvalidCardFingerprint | InvalidDeclineReason
    | InvalidTimestamp | InvalidExpirationTime | InvalidStatus

  datatype Result<+T> = Ok(value: T) | Err(error: DomainError) {
    predicate IsFailure() { Err? }
    function PropagateFailure<U>(): Result<U>
      requires Err?
    {
      Err(error)
    }
    function Extract(): T
      requires Ok?
    {
      value
    }
  }

  /** A Payment's value. An absent string is "", an absent instant NO_TIME. */
  datatype Payment = Payment(
    id: string,
    orderId: string,
    customerId: string,
    amount: int,
    currency: string,
    status: Status,
    holdId: string,
    expiresAt: Time,
    authKey: string,
    cardFingerprint: string,
    captureId: string,
    captureKey: string,
    refundId: string,
    refundKey: string,
    voidId: string,
    voidKey: string,
    declineReason: DeclineReason,
    createdAt: Time,
    updatedAt: Time)

  // ---- Lifecycle ----

  /** One transition of the payment lifecycle. */
  predicate Edge(a: Status, b: Status) {
    match a
    case Pending => b == Authorized || b == Declined
    case Authorized => b == Captured || b == Voided || b == Expired
    case Captured => b == Refunded
    case _ => false
  }

  /** Any number of transitions, including none. */
  predicate Reaches(a: Status, b: Status) {
    || a == b
    || a == Pending
    || (a == Authorized && b in {Captured, Voided, Expired, Refunded})
    || (a == Captured && b == Refunded)
  }

  /** Statuses that follow each other along edges. */
  predicate IsLifecycle(path: seq<Status>) {
    |path| > 0 && forall i :: 0 <= i < |path| - 1 ==> Edge(path[i], path[i + 1])
  }

  lemma {:induction false} LifecycleReaches(path: seq<Status>)
    requires IsLifecycle(path)
    ensures Reaches(path[0], path[|path| - 1])
  {
    if |path| > 1 {
      LifecycleReaches(path[1..]);
    }
  }

  /** `Reaches` is exactly what any number of transitions can do. */
  lemma ReachesIsClosure(a: Status, b: Status)
    ensures Reaches(a, b) <==> exists path: seq<Status> :: IsLifecycle(path) && path[0] == a && path[|path| - 1] == b
  {
    if Reaches(a, b) {
      var via := if a == b then [a]
                 else if Edge(a, b) then [a, b]
                 else if b == Refunded then (if a == Pending then [a, Authorized, Captured, b] else [a, Captured, b])
                 else [a, Authorized, b];
      assert IsLifecycle(via);
    }
    forall path: seq<Status> | IsLifecycle(path) && path[0] == a && path[|path| - 1] == b ensures Reaches(a, b) {
      LifecycleReaches(path);
    }
  }

  // ---- Validation ----

  predicate IsHexDigit(c: char) {
    '0' <= c <= '9' || 'a' <= c <= 'f' || 'A' <= c <= 'F'
  }

  predicate IsDashedUuid(s: string) {
    |s| == 36 && forall i :: 0 <= i < 36 ==> if i in {8, 13, 18, 23} then s[i] == '-' else IsHexDigit(s[i])
  }

  predicate IsPaymentId(s: string) {
    |s| >= 4 && s[..4] == "pay_" && IsDashedUuid(s[4..])
  }

  function NormalizeRequired(s: string, error: DomainError): Result<string> {
    var t := TrimSpace(s);
    if t == "" then Err(error) else Ok(t)
  }

  function NormalizeOptional(s: string, error: DomainError): Result<string> {
    if s == "" then Ok("") else NormalizeRequired(s, error)
  }

  predicate IsBlank(s: string) {
    TrimSpace(s) == ""
  }

  // ---- Construction and loading ----

  /** Validates and normalizes every field of an unchecked payment value; both timestamps become `createdAt`. */
  function NewPayment(raw: Payment): Result<Payment>
  {
    if !IsPaymentId(raw.id) then Err(InvalidPaymentId) else
    var orderId :- NormalizeRequired(raw.orderId, InvalidOrderId);
    var customerId :- NormalizeRequired(raw.customerId, InvalidCustomerId);
    if raw.amount <= 0 then Err(InvalidAmount) else
    var authKey :- NormalizeRequired(raw.authKey, InvalidBankOperationKey);
    var card :- NormalizeRequired(raw.cardFingerprint, InvalidCardFingerprint);
    var holdId :- NormalizeOptional(raw.holdId, InvalidBankAuthorizationId);
    if (raw.holdId != "") != (raw.expiresAt != NO_TIME) then Err(InvalidExpirationTime) else
    var captureId :- NormalizeOptional(raw.captureId, InvalidBankCaptureId);
    var captureKey :- NormalizeOptional(raw.captureKey, InvalidBankOperationKey);
    var refundId :- NormalizeOptional(raw.refundId, InvalidBankRefundId);
    var refundKey :- NormalizeOptional(raw.refundKey, InvalidBankOperationKey);
    var voidId :- NormalizeOptional(raw.voidId, InvalidBankVoidId);
    var voidKey :- NormalizeOptional(raw.voidKey, InvalidBankOperationKey);
    if raw.createdAt == NO_TIME then Err(InvalidTimestamp) else
    Ok(Payment(raw.id, orderId, customerId, raw.amount, USD, raw.status, holdId, raw.expiresAt, authKey, card,
               captureId, captureKey, refundId, refundKey, voidId, voidKey, raw.declineReason,
               raw.createdAt, raw.createdAt))
  }

  function NewPendingPayment(id: string, orderId: string, customerId: string, amount: int,
                             authKey: string, cardFingerprint: string, now: Time): Result<Payment>
  {
    NewPayment(Payment(id, orderId, customerId, amount, USD, Pending, "", NO_TIME, authKey, cardFingerprint,
                       "", "", "", "", "", "", NoReason, now, now))
  }

  /** The columns of the payments table; a NULL column is None. */
  datatype Option<+T> = None | Some(value: T)

  datatype Row = Row(
    id: string, orderId: string, customerId: string, amount: int, currency: string, status: Status,
    holdId: Option<string>, expiresAt: Option<Time>, authKey: string, cardFingerprint: string,
    captureId: Option<string>, captureKey: Option<string>, refundId: Option<string>, refundKey: Option<string>,
    voidId: Option<string>, voidKey: Option<string>, declineReason: Option<DeclineReason>,
    createdAt: Time, updatedAt: Time)

  function Nullable(s: string): Option<string> {
    if s == "" then None else Some(s)
  }

  function NullableTime(t: Time): Option<Time> {
    if t == NO_TIME then None else Some(t)
  }

  function NullableReason(r: DeclineReason): Option<DeclineReason> {
    if r == NoReason then None else Some(r)
  }

  function NullStringValue(s: Option<string>): string {
    if s.None? then "" else s.value
  }

  function NullTimeValue(t: Option<Time>): Time {
    if t.None? then NO_TIME else t.value
  }

  function NullReasonValue(r: Option<DeclineReason>): DeclineReason {
    if r.None? then NoReason else r.value
  }

  /** What an INSERT writes for a Payment. */
  function ToRow(p: Payment): Row {
    Row(p.id, p.orderId, p.customerId, p.amount, p.currency, p.status,
        Nullable(p.holdId), NullableTime(p.expiresAt), p.authKey, p.cardFingerprint,
        Nullable(p.captureId), Nullable(p.captureKey), Nullable(p.refundId), Nullable(p.refundKey),
        Nullable(p.voidId), Nullable(p.voidKey), NullableReason(p.declineReason), p.createdAt, p.updatedAt)
  }

  /** The unchecked values a SELECT hands to the loader. */
  function Columns(r: Row): Payment {
    Payment(r.id, r.orderId, r.customerId, r.amount, r.currency, r.status,
            NullStringValue(r.holdId), NullTimeValue(r.expiresAt), r.authKey, r.cardFingerprint,
            NullStringValue(r.captureId), NullStringValue(r.captureKey),
            NullStringValue(r.refundId), NullStringValue(r.refundKey),
            NullStringValue(r.voidId), NullStringValue(r.voidKey),
            NullReasonValue(r.declineReason), r.createdAt, r.updatedAt)
  }

  function Require(condition: bool, error: DomainError): Result<bool> {
    if condition then Ok(true) else Err(error)
  }

  /** Refuses the columns that a status does not allow, or does not have yet. */
  function CheckColumns(raw: Payment): Result<bool>
  {
    match raw.status
    case Pending =>
      var _ :- Require(IsBlank(raw.holdId), InvalidBankAuthorizationId);
      var _ :- Require(IsBlank(raw.captureId), InvalidBankCaptureId);
      var _ :- Require(IsBlank(raw.captureKey), InvalidBankOperationKey);
      var _ :- Require(raw.expiresAt == NO_TIME, InvalidExpirationTime);
      var _ :- Require(IsBlank(raw.refundId), InvalidBankRefundId);
      var _ :- Require(IsBlank(raw.refundKey), InvalidBankOperationKey);
      var _ :- Require(IsBlank(raw.voidId), InvalidBankVoidId);
      var _ :- Require(IsBlank(raw.voidKey), InvalidBankOperationKey);
      Require(raw.declineReason == NoReason, InvalidDeclineReason)
    case Authorized =>
      var _ :- Require(raw.declineReason == NoReason, InvalidDeclineReason);
      var _ :- Require(IsBlank(raw.captureId), InvalidBankCaptureId);
      var _ :- Require(IsBlank(raw.refundId), InvalidBankRefundId);
      var _ :- Require(IsBlank(raw.refundKey), InvalidBankOperationKey);
      Require(IsBlank(raw.voidId), InvalidBankVoidId)
    case Expired =>
      var _ :- Require(raw.declineReason == NoReason, InvalidDeclineReason);
      var _ :- Require(IsBlank(raw.captureId), InvalidBankCaptureId);
      var _ :- Require(IsBlank(raw.captureKey), InvalidBankOperationKey);
      var _ :- Require(IsBlank(raw.refundId), InvalidBankRefundId);
      var _ :- Require(IsBlank(raw.refundKey), InvalidBankOperationKey);
      var _ :- Require(IsBlank(raw.voidId), InvalidBankVoidId);
      Require(IsBlank(raw.voidKey), InvalidBankOperationKey)
    case Declined =>
      var _ :- Require(IsBlank(raw.holdId), InvalidBankAuthorizationId);
      var _ :- Require(IsBlank(raw.captureId), InvalidBankCaptureId);
      var _ :- Require(IsBlank(raw.captureKey), InvalidBankOperationKey);
      var _ :- Require(raw.expiresAt == NO_TIME, InvalidExpirationTime);
      var _ :- Require(IsBlank(raw.refundId), InvalidBankRefundId);
      var _ :- Require(IsBlank(raw.refundKey), InvalidBankOperationKey);
      var _ :- Require(IsBlank(raw.voidId), InvalidBankVoidId);
      Require(IsBlank(raw.voidKey), InvalidBankOperationKey)
    case Captured =>
      var _ :- Require(raw.declineReason == NoReason, InvalidDeclineReason);
      var _ :- Require(!IsBlank(raw.captureId), InvalidBankCaptureId);
      var _ :- Require(!IsBlank(raw.captureKey), InvalidBankOperationKey);
      var _ :- Require(IsBlank(raw.refundId), InvalidBankRefundId);
      var _ :- Require(IsBlank(raw.voidId), InvalidBankVoidId);
      Require(IsBlank(raw.voidKey), InvalidBankOperationKey)
    case Voided =>
      var _ :- Require(raw.declineReason == NoReason, InvalidDeclineReason);
      var _ :- Require(IsBlank(raw.captureId), InvalidBankCaptureId);
      var _ :- Require(IsBlank(raw.captureKey), InvalidBankOperationKey);
      var _ :- Require(IsBlank(raw.refundId), InvalidBankRefundId);
      var _ :- Require(IsBlank(raw.refundKey), InvalidBankOperationKey);
      var _ :- Require(!IsBlank(raw.voidId), InvalidBankVoidId);
      Require(!IsBlank(raw.voidKey), InvalidBankOperationKey)
    case Refunded =>
      var _ :- Require(raw.declineReason == NoReason, InvalidDeclineReason);
      var _ :- Require(!IsBlank(raw.refundId), InvalidBankRefundId);
      var _ :- Require(!IsBlank(raw.refundKey), InvalidBankOperationKey);
      var _ :- Require(!IsBlank(raw.captureId), InvalidBankCaptureId);
      var _ :- Require(!IsBlank(raw.captureKey), InvalidBankOperationKey);
      var _ :- Require(IsBlank(raw.voidId), InvalidBankVoidId);
      Require(IsBlank(raw.voidKey), InvalidBankOperationKey)
  }

  /** The columns that the loader passes on for a status; the others are dropped. */
  function Kept(raw: Payment): Payment {
    match raw.status
    case Pending => raw.(holdId := "", expiresAt := NO_TIME, captureId := "", captureKey := "", refundId := "",
                         refundKey := "", voidId := "", voidKey := "", declineReason := NoReason)
    case Authorized => raw.(captureId := "", refundId := "", refundKey := "", voidId := "",
                            declineReason := NoReason)
    case Expired => raw.(captureId := "", captureKey := "", refundId := "", refundKey := "", voidId := "",
                         voidKey := "", declineReason := NoReason)
    case Declined => raw.(holdId := "", expiresAt := NO_TIME, captureId := "", captureKey := "", refundId := "",
                          refundKey := "", voidId := "", voidKey := "")
    case Captured => raw.(refundId := "", voidId := "", voidKey := "", declineReason := NoReason)
    case Voided => raw.(captureId := "", captureKey := "", refundId := "", refundKey := "",
                        declineReason := NoReason)
    case Refunded => raw.(voidId := "", voidKey := "", declineReason := NoReason)
  }

  /** Rebuilds a stored Payment from its columns. */
  function LoadPayment(raw: Payment): Result<Payment> {
    var _ :- Require(raw.currency == USD, InvalidAmount);
    var _ :- Require(raw.updatedAt != NO_TIME, InvalidTimestamp);
    var _ :- CheckColumns(raw);
    var p :- NewPayment(Kept(raw));
    Ok(p.(updatedAt := raw.updatedAt))
  }

  // ---- Transitions ----

  function MarkAuthorized(p: Payment, holdId: string, expiresAt: Time, now: Time): Result<Payment> {
    if p.status != Pending then Err(InvalidStatus) else
    var hold :- NormalizeRequired(holdId, InvalidBankAuthorizationId);
    if now == NO_TIME then Err(InvalidTimestamp)
    else if expiresAt == NO_TIME then Err(InvalidExpirationTime)
    else Ok(p.(status := Authorized, holdId := hold, expiresAt := expiresAt, declineReason := NoReason,
               updatedAt := now))
  }

  function MarkExpired(p: Payment, now: Time): Result<Payment> {
    if p.status != Authorized then Err(InvalidStatus)
    else if now == NO_TIME then Err(InvalidTimestamp)
    else Ok(p.(status := Expired, captureKey := "", voidKey := "", updatedAt := now))
  }

  function MarkDeclined(p: Payment, reason: DeclineReason, now: Time): Result<Payment> {
    if p.status != Pending then Err(InvalidStatus)
    else if reason == NoReason then Err(InvalidDeclineReason)
    else if now == NO_TIME then Err(InvalidTimestamp)
    else Ok(p.(status := Declined, holdId := "", expiresAt := NO_TIME, declineReason := reason, updatedAt := now))
  }

  function MarkCaptured(p: Payment, captureId: string, now: Time): Result<Payment> {
    if p.status != Authorized then Err(InvalidStatus) else
    var capture :- NormalizeRequired(captureId, InvalidBankCaptureId);
    if now == NO_TIME then Err(InvalidTimestamp)
    else Ok(p.(status := Captured, captureId := capture, voidKey := "", updatedAt := now))
  }

  function MarkVoided(p: Payment, voidId: string, now: Time): Result<Payment> {
    if p.status != Authorized then Err(InvalidStatus) else
    var void :- NormalizeRequired(voidId, InvalidBankVoidId);
    if now == NO_TIME then Err(InvalidTimestamp)
    else Ok(p.(status := Voided, voidId := void, captureKey := "", declineReason := NoReason, updatedAt := now))
  }

  function MarkRefunded(p: Payment, refundId: string, now: Time): Result<Payment> {
    if p.status != Captured then Err(InvalidStatus) else
    var refund :- NormalizeRequired(refundId, InvalidBankRefundId);
    if now == NO_TIME then Err(InvalidTimestamp)
    else Ok(p.(status := Refunded, refundId := refund, updatedAt := now))
  }

  function SetCaptureKey(p: Payment, key: string): Result<Payment> {
    if p.status != Authorized then Err(InvalidStatus) else
    var k :- NormalizeRequired(key, InvalidBankOperationKey);
    Ok(p.(captureKey := k))
  }

  function SetVoidKey(p: Payment, key: string): Result<Payment> {
    if p.status != Authorized then Err(InvalidStatus) else
    var k :- NormalizeRequired(key, InvalidBankOperationKey);
    Ok(p.(voidKey := k))
  }

  function SetRefundKey(p: Payment, key: string): Result<Payment> {
    if p.status != Captured then Err(InvalidStatus) else
    var k :- NormalizeRequired(key, InvalidBankOperationKey);
    Ok(p.(refundKey := k))
  }

  // ---- Which payments can be stored and loaded ----

  predicate CleanOrAbsent(s: string) {
    s == "" || Clean(s)
  }

  /** Identity is valid and every string is normalized: what the Payment type itself maintains. */
  predicate Normalized(p: Payment) {
    && IsPaymentId(p.id) && Clean(p.orderId) && Clean(p.customerId) && p.amount > 0 && p.currency == USD
    && Clean(p.authKey) && Clean(p.cardFingerprint)
    && CleanOrAbsent(p.holdId) && CleanOrAbsent(p.captureId) && CleanOrAbsent(p.captureKey)
    && CleanOrAbsent(p.refundId) && CleanOrAbsent(p.refundKey)
    && CleanOrAbsent(p.voidId) && CleanOrAbsent(p.voidKey)
    && p.createdAt != NO_TIME && p.updatedAt != NO_TIME
  }

  /** Which private fields a status allows, as the loader sees it. */
  predicate FieldsFit(p: Payment) {
    && (p.holdId != "" <==> p.expiresAt != NO_TIME)
    && (p.status in {Pending, Declined} ==> p.holdId == "")
    && (p.declineReason != NoReason ==> p.status == Declined)
    && (p.captureId != "" <==> p.status in {Captured, Refunded})
    && (p.captureKey != "" ==> p.status in {Authorized, Captured, Refunded})
    && (p.status in {Captured, Refunded} ==> p.captureKey != "")
    && (p.refundId != "" <==> p.status == Refunded)
    && (p.refundKey != "" ==> p.status in {Captured, Refunded})
    && (p.status == Refunded ==> p.refundKey != "")
    && (p.voidId != "" <==> p.status == Voided)
    && (p.voidKey != "" ==> p.status in {Authorized, Voided})
    && (p.status == Voided ==> p.voidKey != "")
  }

  /** What the table's CHECK constraint adds: a hold once authorized, a reason once declined. */
  predicate TableChecks(p: Payment) {
    && FieldsFit(p)
    && (p.status !in {Pending, Declined} ==> p.holdId != "")
    && (p.status == Declined ==> p.declineReason != NoReason)
  }

  predicate WellFormed(p: Payment) {
    Normalized(p) && TableChecks(p)
  }
}
