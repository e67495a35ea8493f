/**
 * The payment store as a value: the payments table, the idempotency records, and what each store method does to
 * them in its one database transaction.
 */
module Store {
  import opened Domain
  import opened Errors
  import opened Commands

  /** The primary key of an idempotency record. */
  datatype RecordKey = RecordKey(op: Op, key: string)

  /** The public snapshot of a payment that a completed command returns. */
  datatype PaymentResult = PaymentResult(
    id: string, orderId: string, customerId: string, amount: int, currency: string, status: Status,
    declineReason: DeclineReason, expiresAt: Time, createdAt: Time, updatedAt: Time)

  function ResultOf(p: Payment): PaymentResult {
    PaymentResult(p.id, p.orderId, p.customerId, p.amount, p.currency, p.status, p.declineReason, p.expiresAt,
                  p.createdAt, p.updatedAt)
  }

  /** The outcome of a completed command; a terminal failure keeps its kind. */
  datatype CommandResult = CommandResult(payment: PaymentResult, failure: Option<ErrorKind>)

  datatype Progress = InProgress | Completed(result: CommandResult, at: Time)

  datatype Record = Record(fingerprint: string, paymentId: string, progress: Progress, claimedAt: Time)

  datatype Db = Db(payments: map<string, Payment>, records: map<RecordKey, Record>)

  /** A request to claim an operation and key, either for a new payment or for an existing one. */
  datatype ClaimRequest =
    | StartRequest(key: string, fingerprint: string, payment: Payment, now: Time, stuckAfter: int)
    | ExistingRequest(op: Op, key: string, fingerprint: string, paymentId: string, newKey: string,
                      cardFingerprint: string, now: Time, stuckAfter: int)

  function RequestOp(r: ClaimRequest): Op {
    if r.StartRequest? then AuthorizeOp else r.op
  }

  function RequestPaymentId(r: ClaimRequest): string {
    if r.StartRequest? then r.payment.id else r.paymentId
  }

  function RequestKey(r: ClaimRequest): RecordKey {
    RecordKey(RequestOp(r), r.key)
  }

  datatype ClaimOutcome =
    | Claimed(payment: Payment, recovered: bool)
    | Replayed(result: CommandResult)
    | ClaimFailed(kind: ErrorKind)

  // ---- Claiming ----

  /** A record that the request may take over: same request, still in progress, and claimed long enough ago. */
  predicate IsStuck(rec: Record, r: ClaimRequest) {
    && rec.progress.InProgress?
    && rec.fingerprint == r.fingerprint
    && rec.claimedAt <= r.now - r.stuckAfter
  }

  predicate CanRecover(db: Db, r: ClaimRequest) {
    RequestKey(r) in db.records && IsStuck(db.records[RequestKey(r)], r)
  }

  /** The operation key that an operation uses on a payment; both authorizations share one. */
  function KeyFor(op: Op, p: Payment): string {
    match op
    case AuthorizeOp => p.authKey
    case RetryOp => p.authKey
    case CaptureOp => p.captureKey
    case VoidOp => p.voidKey
    case RefundOp => p.refundKey
  }

  /** Pins a bank operation key on the payment unless it already has one. */
  function EnsureKey(op: Op, p: Payment, newKey: string): Result<Payment> {
    match op
    case RetryOp => Ok(p)
    case CaptureOp => if p.captureKey != "" then Ok(p) else SetCaptureKey(p, newKey)
    case VoidOp => if p.voidKey != "" then Ok(p) else SetVoidKey(p, newKey)
    case RefundOp => if p.refundKey != "" then Ok(p) else SetRefundKey(p, newKey)
    case AuthorizeOp => Err(InvalidBankOperationKey)
  }

  /** A payment that was never pinned for the operation it is being recovered for. */
  predicate KeyMissing(op: Op, p: Payment) {
    op != RetryOp && (op == AuthorizeOp || KeyFor(op, p) == "")
  }

  predicate CardMismatch(cardFingerprint: string, p: Payment) {
    cardFingerprint != "" && cardFingerprint != p.cardFingerprint
  }

  /** Takes over a stuck claim: the original payment, with the operation key it was claimed with. */
  function Recover(db: Db, r: ClaimRequest): (Db, ClaimOutcome)
    requires CanRecover(db, r)
  {
    var k := RequestKey(r);
    var rec := db.records[k];
    if rec.paymentId !in db.payments then (db, ClaimFailed(Internal))
    else
      var p := db.payments[rec.paymentId];
      if r.ExistingRequest? && r.paymentId != rec.paymentId then (db, ClaimFailed(IdempotencyConflict))
      else if p.status != ExpectedStatus(RequestOp(r)) then (db, ClaimFailed(StatusConflict))
      else if r.ExistingRequest? && CardMismatch(r.cardFingerprint, p) then (db, ClaimFailed(IdempotencyConflict))
      else if r.ExistingRequest? && KeyMissing(r.op, p) then (db, ClaimFailed(Internal))
      else (db.(records := db.records[k := rec.(claimedAt := r.now)]), Claimed(p, true))
  }

  /** Inserts a new record and, with it, the new payment or the operation key of the existing one. */
  function Acquire(db: Db, r: ClaimRequest): (Db, ClaimOutcome) {
    var db' := db.(records := db.records[RequestKey(r) := Record(r.fingerprint, RequestPaymentId(r), InProgress, r.now)]);
    match r
    case StartRequest(_, _, p, _, _) =>
      if p.id in db.payments || !TableChecks(p) then (db, ClaimFailed(Internal))
      else (db'.(payments := db.payments[p.id := p]), Claimed(p, false))
    case ExistingRequest(op, _, _, id, newKey, card, _, _) =>
      if id !in db.payments then (db, ClaimFailed(NotFound))
      else if db.payments[id].status != ExpectedStatus(op) then (db, ClaimFailed(StatusConflict))
      else if CardMismatch(card, db.payments[id]) then (db, ClaimFailed(StatusConflict))
      else match EnsureKey(op, db.payments[id], newKey)
        case Err(_) => (db, ClaimFailed(Internal))
        case Ok(p) => (db'.(payments := db.payments[id := p]), Claimed(p, false))
  }

  /** A completed record whose stored failure could not have completed a command. */
  predicate Unreadable(rec: Record) {
    rec.progress.Completed? && rec.progress.result.failure.Some? && !IsTerminalFailure(rec.progress.result.failure.value)
  }

  /** Both claim methods. */
  function Claim(db: Db, r: ClaimRequest): (Db, ClaimOutcome) {
    var k := RequestKey(r);
    if r.now == NO_TIME then (db, ClaimFailed(Internal))
    else if CanRecover(db, r) then Recover(db, r)
    else if k !in db.records then Acquire(db, r)
    else if Unreadable(db.records[k]) then (db, ClaimFailed(Internal))
    else if db.records[k].fingerprint != r.fingerprint then (db, ClaimFailed(IdempotencyConflict))
    else match db.records[k].progress
      case InProgress => (db, ClaimFailed(IdempotencyInProgress))
      case Completed(result, _) => (db, Replayed(result))
  }

  // ---- Completing, releasing, cleaning up ----

  /** What a holder of a claim hands back to the store. */
  datatype HeldClaim = HeldClaim(op: Op, key: string, fingerprint: string, payment: Payment)

  function ClaimKey(c: HeldClaim): RecordKey {
    RecordKey(c.op, c.key)
  }

  /** The row after a completion: every column except identity, amount and creation time is overwritten. */
  function Overwrite(row: Payment, p: Payment): Payment {
    p.(id := row.id, orderId := row.orderId, customerId := row.customerId, amount := row.amount,
       currency := row.currency, createdAt := row.createdAt)
  }

  /** Persists the payment's transition and completes the record, both or neither. */
  function Complete(db: Db, c: HeldClaim, result: CommandResult, at: Time): (Db, Option<ErrorKind>) {
    var k := ClaimKey(c);
    if at == NO_TIME then (db, Some(Internal))
    else if c.payment.id !in db.payments then (db, Some(NotFound))
    else if db.payments[c.payment.id].status != ExpectedStatus(c.op) then (db, Some(StatusConflict))
    else if !TableChecks(Overwrite(db.payments[c.payment.id], c.payment)) then (db, Some(Internal))
    else if result.failure.Some? && !IsTerminalFailure(result.failure.value) then (db, Some(Internal))
    else if k !in db.records || db.records[k].fingerprint != c.fingerprint || !db.records[k].progress.InProgress?
      then (db, Some(IdempotencyConflict))
    else
      (Db(db.payments[c.payment.id := Overwrite(db.payments[c.payment.id], c.payment)],
          db.records[k := db.records[k].(progress := Completed(result, at))]),
       None)
  }

  /** Deletes the record if it is still in progress, whoever holds it. */
  function Release(db: Db, c: HeldClaim): Db {
    var k := ClaimKey(c);
    if k in db.records && db.records[k].progress.InProgress? then db.(records := db.records - {k}) else db
  }

  predicate IsOld(rec: Record, before: Time) {
    rec.progress.Completed? && rec.progress.at < before
  }

  /** Deletes the completed records older than a cutoff. */
  function Cleanup(db: Db, before: Time): Db {
    if before == NO_TIME then db
    else db.(records := map k | k in db.records && !IsOld(db.records[k], before) :: db.records[k])
  }

  /** The outcome a caller sees, of a fresh completion and of a replay alike. */
  datatype Outcome = Success(result: PaymentResult) | Failure(kind: ErrorKind)

  function Replay(result: CommandResult): Outcome {
    if result.failure.None? then Success(result.payment) else Failure(ErrorOfKind(result.failure.value))
  }
}
