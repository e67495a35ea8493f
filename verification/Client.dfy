/** How the gateway's bank client reads the bank's replies. */
module Client {
  import opened Domain
  import opened Errors
  import opened Bank

  /** The four mutating routes of the bank. */
  datatype BankOp = BankAuthorize | BankCapture | BankVoid | BankRefund

  datatype BankResult =
    | Authorised(holdId: string, expiresAt: Time)
    | DeclinedBy(reason: DeclineReason)
    | CaptureDone(captureId: string)
    | VoidDone(voidId: string)
    | RefundDone(refundId: string)
    | BankFailed(kind: ErrorKind)

  function ReadRefusal(op: BankOp, code: Code): BankResult {
    match op
    case BankAuthorize =>
      (match code
       case CardExpired => DeclinedBy(ExpiredCard)
       case InsufficientFundsCode => DeclinedBy(InsufficientFunds)
       case InvalidCardCode => BankFailed(InvalidInput)
       case InvalidCvv => BankFailed(InvalidInput)
       case InvalidAmountCode => BankFailed(InvalidInput)
       case AmountMismatch => BankFailed(InvalidInput)
       case AuthNotFound => BankFailed(InvalidInput)
       case CaptureNotFound => BankFailed(InvalidInput)
       case _ => BankFailed(BankUnavailable))
    case _ =>
      (match code
       case AuthExpired => if op == BankRefund then BankFailed(BankUnavailable) else BankFailed(AuthorizationExpired)
       case InvalidCardCode => BankFailed(InvalidInput)
       case InvalidCvv => BankFailed(InvalidInput)
       case InvalidAmountCode => BankFailed(InvalidInput)
       case AuthNotFound => BankFailed(BankStateConflict)
       case CaptureNotFound => BankFailed(BankStateConflict)
       case AmountMismatch => BankFailed(BankStateConflict)
       case AuthAlreadyUsed => BankFailed(BankStateConflict)
       case AlreadyCaptured => BankFailed(BankStateConflict)
       case AlreadyVoided => BankFailed(BankStateConflict)
       case AlreadyRefunded => BankFailed(BankStateConflict)
       case _ => BankFailed(BankUnavailable))
  }

  /** A success without its identifier, or with another route's payload, counts as no answer. */
  function ReadReply(op: BankOp, reply: Reply): BankResult {
    match reply
    case Refused(code) => ReadRefusal(op, code)
    case Approved(holdId, expiresAt) =>
      if op == BankAuthorize && !IsBlank(holdId) && expiresAt != NO_TIME then Authorised(holdId, expiresAt)
      else BankFailed(BankUnavailable)
    case CaptureMade(id) =>
      if op == BankCapture && !IsBlank(id) then CaptureDone(id) else BankFailed(BankUnavailable)
    case VoidMade(id) =>
      if op == BankVoid && !IsBlank(id) then VoidDone(id) else BankFailed(BankUnavailable)
    case RefundMade(id) =>
      if op == BankRefund && !IsBlank(id) then RefundDone(id) else BankFailed(BankUnavailable)
    case ServerError => BankFailed(BankUnavailable)
  }

  predicate WorthRetrying(r: BankResult) {
    r.BankFailed? && IsRetryable(r.kind)
  }

  /** What each refusal reads as, for every route and code, whether or not this bank ever gives that code on that route. */
  lemma RefusalsReadExactly(op: BankOp, code: Code)
    ensures var result := ReadReply(op, Refused(code));
            var invalid := code in {InvalidCardCode, InvalidCvv, InvalidAmountCode};
            var state := code in {AuthNotFound, CaptureNotFound, AmountMismatch, AuthAlreadyUsed, AlreadyCaptured, AlreadyVoided,
                                  AlreadyRefunded};
            && (result == DeclinedBy(ExpiredCard) <==> op == BankAuthorize && code == CardExpired)
            && (result == DeclinedBy(InsufficientFunds) <==> op == BankAuthorize && code == InsufficientFundsCode)
            && (result == BankFailed(AuthorizationExpired) <==> (op == BankCapture || op == BankVoid) && code == AuthExpired)
            && (result == BankFailed(InvalidInput) <==>
                  invalid || (op == BankAuthorize && code in {AuthNotFound, CaptureNotFound, AmountMismatch}))
            && (result == BankFailed(BankStateConflict) <==> op != BankAuthorize && state)
            && (result.DeclinedBy? ==> result.reason == ExpiredCard || result.reason == InsufficientFunds)
            && (result.BankFailed? ==> result.kind in {AuthorizationExpired, InvalidInput, BankStateConflict, BankUnavailable})
            && (result.DeclinedBy? || result.BankFailed?)
  {
  }

  /** A success is believed exactly on its own route and with its identifiers; anything else counts as no answer. */
  lemma SuccessesReadExactly(op: BankOp, reply: Reply)
    requires IsSuccess(reply)
    ensures var result := ReadReply(op, reply);
            && (result.Authorised? <==>
                  op == BankAuthorize && reply.Approved? && !IsBlank(reply.holdId) && reply.expiresAt != NO_TIME)
            && (result.Authorised? ==> result == Authorised(reply.holdId, reply.expiresAt))
            && (result.CaptureDone? <==> op == BankCapture && reply.CaptureMade? && !IsBlank(reply.captureId))
            && (result.CaptureDone? ==> result.captureId == reply.captureId)
            && (result.VoidDone? <==> op == BankVoid && reply.VoidMade? && !IsBlank(reply.voidId))
            && (result.VoidDone? ==> result.voidId == reply.voidId)
            && (result.RefundDone? <==> op == BankRefund && reply.RefundMade? && !IsBlank(reply.refundId))
            && (result.RefundDone? ==> result.refundId == reply.refundId)
            && !result.DeclinedBy? && (result.BankFailed? ==> result.kind == BankUnavailable)
  {
    hide IsBlank;
  }
}
