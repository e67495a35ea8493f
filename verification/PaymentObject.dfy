/** The Payment as the object that the gateway mutates: a method assigns fields in place, or refuses and assigns none. */
module PaymentObject {
  import opened Domain

  class Payment {
    const id: string
    const orderId: string
    const customerId: string
    const amount: int
    const currency: string
    var status: Status
    var holdId: string
    var expiresAt: Time
    const authKey: string
    const cardFingerprint: string
    var captureId: string
    var captureKey: string
    var refundId: string
    var refundKey: string
    var voidId: string
    var voidKey: string
    var declineReason: DeclineReason
    const createdAt: Time
    var updatedAt: Time

    function Value(): Domain.Payment
      reads this
    {
      Domain.Payment(id, orderId, customerId, amount, currency, status, holdId, expiresAt, authKey, cardFingerprint,
                     captureId, captureKey, refundId, refundKey, voidId, voidKey, declineReason, createdAt, updatedAt)
    }

    constructor (p: Domain.Payment)
      ensures Value() == p
    {
      id, orderId, customerId, amount, currency := p.id, p.orderId, p.customerId, p.amount, p.currency;
      status, holdId, expiresAt := p.status, p.holdId, p.expiresAt;
      authKey, cardFingerprint := p.authKey, p.cardFingerprint;
      captureId, captureKey := p.captureId, p.captureKey;
      refundId, refundKey := p.refundId, p.refundKey;
      voidId, voidKey := p.voidId, p.voidKey;
      declineReason, createdAt, updatedAt := p.declineReason, p.createdAt, p.updatedAt;
    }

    /** How a method reports: it performed the transition, or refused it and left the payment as it was. */
    ghost predicate Performed(before: Domain.Payment, expected: Result<Domain.Payment>, error: Option<DomainError>)
      reads this
    {
      match expected
      case Ok(after) => error == None && Value() == after
      case Err(e) => error == Some(e) && Value() == before
    }

    method MarkAuthorized(bankId: string, expiry: Time, now: Time) returns (error: Option<DomainError>)
      modifies this
      ensures Performed(old(Value()), Domain.MarkAuthorized(old(Value()), bankId, expiry, now), error)
    {
      hide NormalizeRequired;
      if status != Pending { return Some(InvalidStatus); }
      var hold := NormalizeRequired(bankId, InvalidBankAuthorizationId);
      if hold.Err? { return Some(hold.error); }
      if now == NO_TIME { return Some(InvalidTimestamp); }
      if expiry == NO_TIME { return Some(InvalidExpirationTime); }
      status := Authorized;
      holdId := hold.value;
      expiresAt := expiry;
      declineReason := NoReason;
      updatedAt := now;
      return None;
    }

    method MarkExpired(now: Time) returns (error: Option<DomainError>)
      modifies this
      ensures Performed(old(Value()), Domain.MarkExpired(old(Value()), now), error)
    {
      hide NormalizeRequired;
      if status != Authorized { return Some(InvalidStatus); }
      if now == NO_TIME { return Some(InvalidTimestamp); }
      status := Expired;
      captureKey := "";
      voidKey := "";
      updatedAt := now;
      return None;
    }

    method MarkDeclined(reason: DeclineReason, now: Time) returns (error: Option<DomainError>)
      modifies this
      ensures Performed(old(Value()), Domain.MarkDeclined(old(Value()), reason, now), error)
    {
      hide NormalizeRequired;
      if status != Pending { return Some(InvalidStatus); }
      if reason == NoReason { return Some(InvalidDeclineReason); }
      if now == NO_TIME { return Some(InvalidTimestamp); }
      status := Declined;
      holdId := "";
      expiresAt := NO_TIME;
      declineReason := reason;
      updatedAt := now;
      return None;
    }

    method MarkCaptured(bankId: string, now: Time) returns (error: Option<DomainError>)
      modifies this
      ensures Performed(old(Value()), Domain.MarkCaptured(old(Value()), bankId, now), error)
    {
      hide NormalizeRequired;
      if status != Authorized { return Some(InvalidStatus); }
      var capture := NormalizeRequired(bankId, InvalidBankCaptureId);
      if capture.Err? { return Some(capture.error); }
      if now == NO_TIME { return Some(InvalidTimestamp); }
      status := Captured;
      captureId := capture.value;
      voidKey := "";
      updatedAt := now;
      return None;
    }

    method MarkVoided(bankId: string, now: Time) returns (error: Option<DomainError>)
      modifies this
      ensures Performed(old(Value()), Domain.MarkVoided(old(Value()), bankId, now), error)
    {
      hide NormalizeRequired;
      if status != Authorized { return Some(InvalidStatus); }
      var void := NormalizeRequired(bankId, InvalidBankVoidId);
      if void.Err? { return Some(void.error); }
      if now == NO_TIME { return Some(InvalidTimestamp); }
      status := Voided;
      voidId := void.value;
      captureKey := "";
      declineReason := NoReason;
      updatedAt := now;
      return None;
    }

    method MarkRefunded(bankId: string, now: Time) returns (error: Option<DomainError>)
      modifies this
      ensures Performed(old(Value()), Domain.MarkRefunded(old(Value()), bankId, now), error)
    {
      hide NormalizeRequired;
      if status != Captured { return Some(InvalidStatus); }
      var refund := NormalizeRequired(bankId, InvalidBankRefundId);
      if refund.Err? { return Some(refund.error); }
      if now == NO_TIME { return Some(InvalidTimestamp); }
      status := Refunded;
      refundId := refund.value;
      updatedAt := now;
      return None;
    }

    method SetCaptureKey(key: string) returns (error: Option<DomainError>)
      modifies this
      ensures Performed(old(Value()), Domain.SetCaptureKey(old(Value()), key), error)
    {
      hide NormalizeRequired;
      if status != Authorized { return Some(InvalidStatus); }
      var k := NormalizeRequired(key, InvalidBankOperationKey);
      if k.Err? { return Some(k.error); }
      captureKey := k.value;
      return None;
    }

    method SetVoidKey(key: string) returns (error: Option<DomainError>)
      modifies this
      ensures Performed(old(Value()), Domain.SetVoidKey(old(Value()), key), error)
    {
      hide NormalizeRequired;
      if status != Authorized { return Some(InvalidStatus); }
      var k := NormalizeRequired(key, InvalidBankOperationKey);
      if k.Err? { return Some(k.error); }
      voidKey := k.value;
      return None;
    }

    method SetRefundKey(key: string) returns (error: Option<DomainError>)
      modifies this
      ensures Performed(old(Value()), Domain.SetRefundKey(old(Value()), key), error)
    {
      hide NormalizeRequired;
      if status != Captured { return Some(InvalidStatus); }
      var k := NormalizeRequired(key, InvalidBankOperationKey);
      if k.Err? { return Some(k.error); }
      refundKey := k.value;
      return None;
    }
  }
}
