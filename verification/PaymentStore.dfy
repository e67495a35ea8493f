/**
 * The payment store as the object that the gateway calls. Each command method is one database transaction: it works
 * on the two tables statement by statement and puts them back when it has to roll back.
 */
module PaymentStore {
  import opened Text
  import opened Domain
  import opened Errors
  import opened Commands
  import opened Loading
  import opened Store
  import opened Transitions
  import PaymentObject

  /** What claiming an operation and key came to. */
  datatype KeyOutcome =
    | Acquired
    | Recovered(paymentId: string)
    | InProgressElsewhere
    | Conflicting
    | Answered(result: CommandResult)
    | Corrupt

  /** What happens to the claimed record, as a value. */
  function KeyClaim(records: map<RecordKey, Record>, r: ClaimRequest): (map<RecordKey, Record>, KeyOutcome) {
    var k := RequestKey(r);
    if k in records && IsStuck(records[k], r) then
      (records[k := records[k].(claimedAt := r.now)], Recovered(records[k].paymentId))
    else if k !in records then
      (records[k := Record(r.fingerprint, RequestPaymentId(r), InProgress, r.now)], Acquired)
    else if Unreadable(records[k]) then (records, Corrupt)
    else if records[k].fingerprint != r.fingerprint then (records, Conflicting)
    else match records[k].progress
      case InProgress => (records, InProgressElsewhere)
      case Completed(result, _) => (records, Answered(result))
  }

  predicate RowFits(rows: map<string, Row>, id: string)
    requires id in rows
  {
    var p := Columns(rows[id]);
    p.id == id && WellFormed(p) && rows[id] == ToRow(p)
  }

  lemma StoredRowFits(rows: map<string, Row>, p: Payment)
    requires p.id in rows && rows[p.id] == ToRow(p) && WellFormed(p)
    ensures RowFits(rows, p.id) && Columns(rows[p.id]) == p
  {
    hide WellFormed;
    NullColumnsInvert(p);
  }

  /** Pinning a key, whatever string it is made of, yields a payment that the table accepts. */
  lemma EnsureKeepsWellFormed(op: Op, p: Payment, newKey: string)
    requires WellFormed(p) && EnsureKey(op, p, newKey).Ok?
    ensures WellFormed(EnsureKey(op, p, newKey).value) && EnsureKey(op, p, newKey).value.id == p.id
    ensures op != RetryOp ==> KeyFor(op, EnsureKey(op, p, newKey).value) != ""
  {
    NormalizedIsClean(newKey, InvalidBankOperationKey);
    hide TrimSpace, IsPaymentId;
  }

  lemma OverwriteNormalized(row: Payment, p: Payment)
    requires WellFormed(row) && Normalized(p)
    ensures Normalized(Overwrite(row, p)) && Overwrite(row, p).id == row.id
  {
    hide IsPaymentId, Clean;
  }

  class PaymentStore {
    var rows: map<string, Row>
    var records: map<RecordKey, Record>

    /** Every row is one that the table accepts and the loader reads back. */
    ghost predicate Valid()
      reads this
    {
      forall id {:trigger RowFits(rows, id)} :: id in rows ==> RowFits(rows, id)
    }

    ghost function Payments(): map<string, Payment>
      reads this
    {
      map id | id in rows :: Columns(rows[id])
    }

    ghost function Contents(): Db
      reads this
    {
      Db(Payments(), records)
    }

    constructor ()
      ensures Valid() && Contents() == Db(map[], map[])
    {
      rows := map[];
      records := map[];
    }

    /** A row's payment, through the loader. */
    method FindPayment(id: string) returns (found: Option<Payment>)
      requires Valid()
      ensures found == (if id in Payments() then Some(Payments()[id]) else None)
      ensures found.Some? ==> found.value.id == id && WellFormed(found.value)
    {
      hide LoadPayment, Columns, ToRow, WellFormed;
      if id !in rows { return None; }
      assert RowFits(rows, id);
      WellFormedLoads(Columns(rows[id]));
      var loaded := LoadPayment(Columns(rows[id]));
      return Some(loaded.value);
    }

    /** Refreshes a stuck claim in one conditional update. */
    method RecoverIdempotencyClaim(r: ClaimRequest) returns (paymentId: Option<string>)
      modifies this`records
      ensures var k := RequestKey(r);
              if k in old(records) && IsStuck(old(records)[k], r) then
                && paymentId == Some(old(records)[k].paymentId)
                && records == old(records)[k := old(records)[k].(claimedAt := r.now)]
              else paymentId == None && records == old(records)
    {
      var k := RequestKey(r);
      if k !in records || !IsStuck(records[k], r) { return None; }
      paymentId := Some(records[k].paymentId);
      records := records[k := records[k].(claimedAt := r.now)];
    }

    method ClaimIdempotency(r: ClaimRequest) returns (outcome: KeyOutcome)
      modifies this`records
      ensures (records, outcome) == KeyClaim(old(records), r)
      ensures var k := RequestKey(r);
              if k !in old(records) then
                outcome == Acquired && records == old(records)[k := Record(r.fingerprint, RequestPaymentId(r), InProgress, r.now)]
              else
                var rec := old(records)[k];
                && (rec.fingerprint != r.fingerprint ==> records == old(records) && (outcome == Conflicting || outcome == Corrupt))
                && (rec.fingerprint == r.fingerprint && rec.progress.InProgress? ==>
                      if rec.claimedAt <= r.now - r.stuckAfter then
                        && outcome == Recovered(rec.paymentId)
                        && records == old(records)[k := rec.(claimedAt := r.now)]
                      else outcome == InProgressElsewhere && records == old(records))
                && (rec.fingerprint == r.fingerprint && rec.progress.Completed? ==>
                      records == old(records) && (outcome == Answered(rec.progress.result) || outcome == Corrupt))
                && (outcome == Corrupt <==>
                      && rec.progress.Completed? && rec.progress.result.failure.Some?
                      && rec.progress.result.failure.value != AuthorizationExpired)
    {
      var recovered := RecoverIdempotencyClaim(r);
      if recovered.Some? { return Recovered(recovered.value); }
      var k := RequestKey(r);
      if k !in records {
        records := records[k := Record(r.fingerprint, RequestPaymentId(r), InProgress, r.now)];
        return Acquired;
      }
      var record := records[k];
      if Unreadable(record) { return Corrupt; }
      if record.fingerprint != r.fingerprint { return Conflicting; }
      match record.progress
      case InProgress => return InProgressElsewhere;
      case Completed(result, _) => return Answered(result);
    }

    /** Inserts a payment; a duplicate key or a violated check constraint refuses it. */
    method InsertPayment(p: Payment) returns (ok: bool)
      requires Valid() && Normalized(p)
      modifies this`rows
      ensures Valid() && ok == (p.id !in old(Payments()) && TableChecks(p))
      ensures Payments() == if ok then old(Payments())[p.id := p] else old(Payments())
    {
      hide Normalized, TableChecks, Columns, ToRow;
      if p.id in rows || !TableChecks(p) { return false; }
      ghost var before := rows;
      rows := rows[p.id := ToRow(p)];
      StoredRowFits(rows, p);
      RowsKept(before, p.id);
      return true;
    }

    /** Replacing or adding one fitting row keeps all rows fitting. */
    lemma RowsKept(before: map<string, Row>, id: string)
      requires forall j {:trigger RowFits(before, j)} :: j in before ==> RowFits(before, j)
      requires id in rows && rows == before[id := rows[id]] && RowFits(rows, id)
      ensures Valid()
    {
      hide Columns, ToRow, WellFormed;
      forall j | j in rows ensures RowFits(rows, j) {
        if j != id { assert RowFits(before, j); }
      }
    }

    method ClaimAuthorizationStart(r: ClaimRequest) returns (outcome: ClaimOutcome)
      requires Valid() && r.StartRequest? && Normalized(r.payment)
      modifies this
      ensures Valid() && (Contents(), outcome) == Claim(old(Contents()), r)
      ensures outcome.Claimed? ==> WellFormed(outcome.payment)
    {
      hide Normalized, TableChecks, RowFits;
      if r.now == NO_TIME { return ClaimFailed(Internal); }
      var savedRecords := records;
      var claim := ClaimIdempotency(r);
      match claim
      case Corrupt => return ClaimFailed(Internal);
      case Conflicting => return ClaimFailed(IdempotencyConflict);
      case InProgressElsewhere => return ClaimFailed(IdempotencyInProgress);
      case Answered(result) => return Replayed(result);
      case Acquired =>
        var ok := InsertPayment(r.payment);
        if !ok {
          records := savedRecords;
          return ClaimFailed(Internal);
        }
        return Claimed(r.payment, false);
      case Recovered(id) =>
        var found := FindPayment(id);
        if found.None? {
          records := savedRecords;
          return ClaimFailed(Internal);
        }
        if found.value.status != ExpectedStatus(AuthorizeOp) {
          records := savedRecords;
          return ClaimFailed(StatusConflict);
        }
        return Claimed(found.value, true);
    }

    /** Pins an operation key on the payment and writes that one column, before any bank call. */
    method EnsureBankOperationKey(op: Op, p: Payment, newKey: string) returns (pinned: Option<Payment>)
      requires Valid() && p.id in Payments() && Payments()[p.id] == p && WellFormed(p)
      modifies this`rows
      ensures Valid()
      ensures pinned.Some? ==> WellFormed(pinned.value)
      ensures match EnsureKey(op, p, newKey)
              case Err(_) => pinned == None && rows == old(rows)
              case Ok(q) => pinned == Some(q) && Payments() == old(Payments())[p.id := q]
    {
      hide WellFormed, RowFits, NormalizeRequired;
      assert Payments()[p.id := p] == Payments();
      match op {
        case RetryOp => return Some(p);
        case AuthorizeOp => return None;
        case CaptureOp =>
          if p.captureKey != "" { return Some(p); }
          var payment := new PaymentObject.Payment(p);
          var error := payment.SetCaptureKey(newKey);
          if error.Some? { return None; }
          pinned := Some(payment.Value());
        case VoidOp =>
          if p.voidKey != "" { return Some(p); }
          var payment := new PaymentObject.Payment(p);
          var error := payment.SetVoidKey(newKey);
          if error.Some? { return None; }
          pinned := Some(payment.Value());
        case RefundOp =>
          if p.refundKey != "" { return Some(p); }
          var payment := new PaymentObject.Payment(p);
          var error := payment.SetRefundKey(newKey);
          if error.Some? { return None; }
          pinned := Some(payment.Value());
      }
      EnsureKeepsWellFormed(op, p, newKey);
      UpdateKeyColumn(op, p, pinned.value);
    }

    /** The update of the one column that the operation's key lives in. */
    method UpdateKeyColumn(op: Op, p: Payment, q: Payment)
      requires Valid() && p.id in Payments() && Payments()[p.id] == p && WellFormed(q)
      requires match op
               case CaptureOp => q == p.(captureKey := q.captureKey) && q.captureKey != ""
               case VoidOp => q == p.(voidKey := q.voidKey) && q.voidKey != ""
               case RefundOp => q == p.(refundKey := q.refundKey) && q.refundKey != ""
               case _ => false
      modifies this`rows
      ensures Valid() && Payments() == old(Payments())[p.id := q]
    {
      hide WellFormed;
      assert RowFits(rows, p.id);
      ghost var before := rows;
      match op {
        case CaptureOp => rows := rows[p.id := rows[p.id].(captureKey := Some(q.captureKey))];
        case VoidOp => rows := rows[p.id := rows[p.id].(voidKey := Some(q.voidKey))];
        case RefundOp => rows := rows[p.id := rows[p.id].(refundKey := Some(q.refundKey))];
        case _ =>
      }
      assert rows[p.id] == ToRow(q);
      StoredRowFits(rows, q);
      RowsKept(before, p.id);
    }

    method ClaimExistingPaymentCommand(r: ClaimRequest) returns (outcome: ClaimOutcome)
      requires Valid() && r.ExistingRequest?
      modifies this
      ensures Valid() && (Contents(), outcome) == Claim(old(Contents()), r)
      ensures outcome.Claimed? ==> WellFormed(outcome.payment)
    {
      hide WellFormed, RowFits, EnsureKey;
      ghost var db := Contents();
      if r.now == NO_TIME { return ClaimFailed(Internal); }
      var savedRecords := records;
      var claim := ClaimIdempotency(r);
      match claim
      case Corrupt => return ClaimFailed(Internal);
      case Conflicting => return ClaimFailed(IdempotencyConflict);
      case InProgressElsewhere => return ClaimFailed(IdempotencyInProgress);
      case Answered(result) => return Replayed(result);
      case Acquired =>
        outcome := AcquireExisting(r);
        if outcome.ClaimFailed? { records := savedRecords; }
      case Recovered(id) =>
        outcome := RecoverExisting(r, id, db);
        if outcome.ClaimFailed? { records := savedRecords; }
    }

    /** A new claim on an existing payment: its status and card must fit, and its operation key is pinned. */
    method AcquireExisting(r: ClaimRequest) returns (outcome: ClaimOutcome)
      requires Valid() && r.ExistingRequest?
      modifies this`rows
      ensures Valid() && outcome == Acquire(old(Contents()), r).1
      ensures outcome.Claimed? ==> WellFormed(outcome.payment)
      ensures Payments() == Acquire(old(Contents()), r).0.payments
    {
      hide WellFormed, RowFits, EnsureKey;
      var found := FindPayment(r.paymentId);
      if found.None? { return ClaimFailed(NotFound); }
      if found.value.status != ExpectedStatus(r.op) { return ClaimFailed(StatusConflict); }
      if CardMismatch(r.cardFingerprint, found.value) { return ClaimFailed(StatusConflict); }
      var pinned := EnsureBankOperationKey(r.op, found.value, r.newKey);
      if pinned.None? { return ClaimFailed(Internal); }
      return Claimed(pinned.value, false);
    }

    /** A recovered claim: the payment it was made for, unless the request and the record no longer fit it. */
    method RecoverExisting(r: ClaimRequest, paymentId: string, ghost db: Db) returns (outcome: ClaimOutcome)
      requires Valid() && r.ExistingRequest?
      requires CanRecover(db, r) && db.records[RequestKey(r)].paymentId == paymentId && db.payments == Payments()
      ensures outcome == Recover(db, r).1 && (outcome.Claimed? ==> WellFormed(outcome.payment))
    {
      hide WellFormed, RowFits;
      var found := FindPayment(paymentId);
      if found.None? { return ClaimFailed(Internal); }
      if r.paymentId != paymentId { return ClaimFailed(IdempotencyConflict); }
      if found.value.status != ExpectedStatus(r.op) { return ClaimFailed(StatusConflict); }
      if CardMismatch(r.cardFingerprint, found.value) { return ClaimFailed(IdempotencyConflict); }
      match r.op
      case RetryOp => return Claimed(found.value, true);
      case AuthorizeOp => return ClaimFailed(Internal);
      case CaptureOp =>
        return if found.value.captureKey == "" then ClaimFailed(Internal) else Claimed(found.value, true);
      case VoidOp =>
        return if found.value.voidKey == "" then ClaimFailed(Internal) else Claimed(found.value, true);
      case RefundOp =>
        return if found.value.refundKey == "" then ClaimFailed(Internal) else Claimed(found.value, true);
    }

    /** Overwrites every column but identity, amount and creation time, if the row still has the expected status. */
    method PersistPaymentTransition(p: Payment, expected: Status) returns (error: Option<ErrorKind>)
      requires Valid() && Normalized(p)
      modifies this`rows
      ensures Valid()
      ensures error == (if p.id !in old(Payments()) then Some(NotFound)
                        else if old(Payments())[p.id].status != expected then Some(StatusConflict)
                        else if !TableChecks(Overwrite(old(Payments())[p.id], p)) then Some(Internal)
                        else None)
      ensures Payments() == if error.None? then old(Payments())[p.id := Overwrite(old(Payments())[p.id], p)]
                            else old(Payments())
    {
      hide Normalized, TableChecks;
      if p.id !in rows { return Some(NotFound); }
      assert RowFits(rows, p.id);
      var row := rows[p.id];
      if row.status != expected { return Some(StatusConflict); }
      if !TableChecks(Overwrite(Columns(row), p)) { return Some(Internal); }
      ghost var before := rows;
      rows := rows[p.id := ToRow(p).(id := row.id, orderId := row.orderId, customerId := row.customerId,
                                     amount := row.amount, currency := row.currency, createdAt := row.createdAt)];
      OverwriteNormalized(Columns(row), p);
      StoredRowFits(rows, Overwrite(Columns(row), p));
      RowsKept(before, p.id);
      return None;
    }

    /** Completes the record if it is still this request's open claim. */
    method CompleteIdempotencyRecord(c: HeldClaim, result: CommandResult, at: Time) returns (error: Option<ErrorKind>)
      modifies this`records
      ensures var k := ClaimKey(c);
              if result.failure.Some? && !IsTerminalFailure(result.failure.value) then
                error == Some(Internal) && records == old(records)
              else if k !in old(records) || old(records)[k].fingerprint != c.fingerprint
                      || !old(records)[k].progress.InProgress? then
                error == Some(IdempotencyConflict) && records == old(records)
              else error == None && records == old(records)[k := old(records)[k].(progress := Completed(result, at))]
    {
      var k := ClaimKey(c);
      if result.failure.Some? && !IsTerminalFailure(result.failure.value) { return Some(Internal); }
      if k !in records || records[k].fingerprint != c.fingerprint || !records[k].progress.InProgress? {
        return Some(IdempotencyConflict);
      }
      records := records[k := records[k].(progress := Completed(result, at))];
      return None;
    }

    /** Persists the transition and the outcome together; a failure of either leaves both tables as they were. */
    method CompletePaymentCommand(c: HeldClaim, result: CommandResult, at: Time) returns (error: Option<ErrorKind>)
      requires Valid() && Normalized(c.payment)
      modifies this
      ensures Valid() && (Contents(), error) == Complete(old(Contents()), c, result, at)
    {
      hide Normalized, TableChecks, RowFits, Overwrite;
      if at == NO_TIME { return Some(Internal); }
      var savedRows := rows;
      error := PersistPaymentTransition(c.payment, ExpectedStatus(c.op));
      if error.Some? { return; }
      error := CompleteIdempotencyRecord(c, result, at);
      if error.Some? { rows := savedRows; }
    }

    /** Deletes the record while it is in progress, whoever holds it. */
    method ReleasePaymentCommand(c: HeldClaim)
      requires Valid()
      modifies this`records
      ensures Valid() && Contents() == Release(old(Contents()), c)
    {
      hide RowFits;
      var k := ClaimKey(c);
      if k in records && records[k].progress.InProgress? {
        records := records - {k};
      }
    }

    /** Deletes the completed records older than the cutoff; None reports a missing cutoff. */
    method CleanupCompletedIdempotencyRecords(before: Time) returns (removed: Option<int>)
      requires Valid()
      modifies this`records
      ensures Valid() && Contents() == Cleanup(old(Contents()), before)
      ensures removed == if before == NO_TIME then None else Some(|old(records)| - |records|)
    {
      hide RowFits;
      if before == NO_TIME { return None; }
      var count := |records|;
      records := map k | k in records && !IsOld(records[k], before) :: records[k];
      return Some(count - |records|);
    }
  }
}
