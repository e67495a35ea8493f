/** What each lifecycle transition keeps, and when it yields a payment that the table accepts. */
module Transitions {
  import opened Text
  import opened Domain
  import opened Commands
  import opened Store
  import opened Invariants

  lemma NormalizedIsClean(s: string, e: DomainError)
    ensures NormalizeRequired(s, e).Ok? ==> Clean(NormalizeRequired(s, e).value)
    ensures Clean(s) ==> NormalizeRequired(s, e) == Ok(s)
  {
    TrimSpaceCleans(s);
  }

  lemma AuthorizedOk(p: Payment, holdId: string, expiresAt: Time, now: Time)
    requires WellFormed(p) && MarkAuthorized(p, holdId, expiresAt, now).Ok?
    ensures var q := MarkAuthorized(p, holdId, expiresAt, now).value;
            && WellFormed(q) && Moved(p, q) && q.status == Authorized && q.expiresAt == expiresAt
            && (Clean(holdId) ==> q.holdId == holdId)
  {
    NormalizedIsClean(holdId, InvalidBankAuthorizationId);
    hide TrimSpace, IsPaymentId;
  }

  lemma DeclinedOk(p: Payment, reason: DeclineReason, now: Time)
    requires WellFormed(p) && MarkDeclined(p, reason, now).Ok?
    ensures var q := MarkDeclined(p, reason, now).value; WellFormed(q) && Moved(p, q) && q.status == Declined
  {
    hide TrimSpace, IsPaymentId;
  }

  lemma ExpiredOk(p: Payment, now: Time)
    requires WellFormed(p) && MarkExpired(p, now).Ok?
    ensures var q := MarkExpired(p, now).value; WellFormed(q) && Moved(p, q) && q.status == Expired
  {
    hide TrimSpace, IsPaymentId;
  }

  /** MarkCaptured does not check that the capture key was set; exactly that decides whether its row is accepted. */
  lemma CapturedOk(p: Payment, captureId: string, now: Time)
    requires WellFormed(p) && MarkCaptured(p, captureId, now).Ok?
    ensures var q := MarkCaptured(p, captureId, now).value;
            && (WellFormed(q) <==> p.captureKey != "")
            && Moved(p, q) && q.status == Captured && (Clean(captureId) ==> q.captureId == captureId)
  {
    NormalizedIsClean(captureId, InvalidBankCaptureId);
    hide TrimSpace, IsPaymentId;
  }

  /** MarkVoided, likewise, depends on the void key. */
  lemma VoidedOk(p: Payment, voidId: string, now: Time)
    requires WellFormed(p) && MarkVoided(p, voidId, now).Ok?
    ensures var q := MarkVoided(p, voidId, now).value;
            && (WellFormed(q) <==> p.voidKey != "")
            && Moved(p, q) && q.status == Voided && (Clean(voidId) ==> q.voidId == voidId)
  {
    NormalizedIsClean(voidId, InvalidBankVoidId);
    hide TrimSpace, IsPaymentId;
  }

  /** MarkRefunded, likewise, depends on the refund key. */
  lemma RefundedOk(p: Payment, refundId: string, now: Time)
    requires WellFormed(p) && MarkRefunded(p, refundId, now).Ok?
    ensures var q := MarkRefunded(p, refundId, now).value;
            && (WellFormed(q) <==> p.refundKey != "")
            && Moved(p, q) && q.status == Refunded && (Clean(refundId) ==> q.refundId == refundId)
  {
    NormalizedIsClean(refundId, InvalidBankRefundId);
    hide TrimSpace, IsPaymentId;
  }

  /** Pinning a key changes nothing but that key, and the payment stays acceptable. */
  lemma EnsuredOk(op: Op, p: Payment, newKey: string)
    requires WellFormed(p) && Clean(newKey) && p.status == ExpectedStatus(op) && op != AuthorizeOp
    ensures var r := EnsureKey(op, p, newKey);
            && r.Ok? && WellFormed(r.value) && Behind(p, r.value) && r.value.status == p.status
            && KeyFor(op, r.value) == (if KeyFor(op, p) != "" then KeyFor(op, p) else newKey)
            && r.value == (match op
                           case CaptureOp => p.(captureKey := KeyFor(op, r.value))
                           case VoidOp => p.(voidKey := KeyFor(op, r.value))
                           case RefundOp => p.(refundKey := KeyFor(op, r.value))
                           case _ => p)
  {
    NormalizedIsClean(newKey, InvalidBankOperationKey);
    hide TrimSpace, IsPaymentId;
  }

  /** A new payment for an accepted authorization is always constructible. */
  lemma NewPendingOk(id: string, orderId: string, customerId: string, amount: int, authKey: string,
                     card: string, now: Time)
    requires IsPaymentId(id) && Clean(orderId) && Clean(customerId) && amount > 0 && Clean(authKey) && Clean(card)
    requires now != NO_TIME
    ensures var r := NewPendingPayment(id, orderId, customerId, amount, authKey, card, now);
            && r == Ok(Payment(id, orderId, customerId, amount, USD, Pending, "", NO_TIME, authKey, card,
                               "", "", "", "", "", "", NoReason, now, now))
            && WellFormed(r.value)
  {
    CleanStringsAreTrimmed();
    hide TrimSpace, IsPaymentId, Clean;
  }
}
