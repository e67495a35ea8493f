/**
 * The five payment commands as the gateway drives them: claim, ask the bank through the client, apply the answer to the
 * payment object, then complete or release. Clock readings and what the network does are inputs.
 */
module PaymentService {
  import opened Text
  import opened Domain
  import opened Errors
  import opened Commands
  import opened Store
  import opened Client
  import opened Protocol
  import opened Transitions
  import opened Deliveries
  import BankClient
  import BankService
  import PaymentObject
  import PaymentStore

  /** Whatever the bank answers, what a command persists is a normalized payment. */
  lemma DecidedNormalized(op: Op, p: Payment, answer: BankResult, at: Time)
    requires WellFormed(p)
    ensures var phase := Decide(op, p, answer, at);
            && (phase.Completing? || phase.Releasing?)
            && (phase.Completing? ==> Normalized(phase.after))
  {
    hide IsPaymentId, Clean, NormalizeRequired;
    match answer
    case Authorised(id, _) => NormalizedIsClean(id, InvalidBankAuthorizationId);
    case CaptureDone(id) => NormalizedIsClean(id, InvalidBankCaptureId);
    case VoidDone(id) => NormalizedIsClean(id, InvalidBankVoidId);
    case RefundDone(id) => NormalizedIsClean(id, InvalidBankRefundId);
    case _ =>
  }

  class PaymentService {
    const store: PaymentStore.PaymentStore
    const client: BankClient.BankClient

    constructor (store: PaymentStore.PaymentStore, client: BankClient.BankClient)
      ensures this.store == store && this.client == client
    {
      this.store := store;
      this.client := client;
    }

    ghost predicate Valid()
      reads store, client.bank.bank
    {
      store.Valid() && client.bank.bank.Valid()
    }

    /** Completes the command with the payment as it now is; a failure to do so is the command's failure. */
    method Finish(r: ClaimRequest, before: Payment, after: Payment, failure: Option<ErrorKind>, world: World)
      returns (outcome: Outcome)
      requires store.Valid() && Normalized(after)
      modifies store
      ensures store.Valid()
      ensures (store.Contents(), outcome)
           == Concluded(old(store.Contents()), r, Completing(before, after, failure), world)
    {
      hide Complete, Normalized, PaymentStore.RowFits;
      var result := CommandResult(ResultOf(after), failure);
      var error := store.CompletePaymentCommand(Held(r, after), result, world.completedAt);
      if error.Some? { return Failure(error.value); }
      if !world.acked { return Failure(Internal); }
      return Replay(result);
    }

    /** Lets the claim go; a release that does not land changes nothing for the caller. */
    method Release(r: ClaimRequest, before: Payment, kind: ErrorKind, world: World) returns (outcome: Outcome)
      requires store.Valid()
      modifies store
      ensures store.Valid()
      ensures (store.Contents(), outcome) == Concluded(old(store.Contents()), r, Releasing(before, kind), world)
    {
      hide PaymentStore.RowFits;
      if world.releaseLands { store.ReleasePaymentCommand(Held(r, before)); }
      return Failure(kind);
    }

    /** Applies the bank's decision on an authorization to the payment. */
    method ApplyAuthorizationOutcome(payment: PaymentObject.Payment, answer: BankResult, now: Time)
      returns (error: Option<DomainError>)
      requires answer.Authorised? || answer.DeclinedBy?
      modifies payment
      ensures payment.Performed(old(payment.Value()),
                                if answer.Authorised? then
                                  MarkAuthorized(old(payment.Value()), answer.holdId, answer.expiresAt, now)
                                else MarkDeclined(old(payment.Value()), answer.reason, now),
                                error)
    {
      hide MarkAuthorized, MarkDeclined;
      match answer {
        case Authorised(holdId, expiresAt) => error := payment.MarkAuthorized(holdId, expiresAt, now);
        case DeclinedBy(reason) => error := payment.MarkDeclined(reason, now);
      }
    }

    /** The rest of both authorizing commands, which differ in what an unknown outcome means. */
    method ConcludeAuthorization(r: ClaimRequest, p: Payment, answer: BankResult, world: World) returns (outcome: Outcome)
      requires store.Valid() && WellFormed(p) && (RequestOp(r) == AuthorizeOp || RequestOp(r) == RetryOp)
      modifies store
      ensures store.Valid()
      ensures (store.Contents(), outcome)
           == Concluded(old(store.Contents()), r, Decide(RequestOp(r), p, answer, world.decidedAt), world)
    {
      DecidedNormalized(RequestOp(r), p, answer, world.decidedAt);
      hide Concluded, MarkAuthorized, MarkDeclined, WellFormed, Normalized, PaymentStore.RowFits;
      match answer {
        case BankFailed(kind) =>
          if RequestOp(r) == AuthorizeOp && IsRetryable(kind) {
            outcome := Finish(r, p, p, None, world);
          } else {
            outcome := Release(r, p, kind, world);
          }
        case Authorised(_, _) => outcome := ApplyAndFinish(r, p, answer, world);
        case DeclinedBy(_) => outcome := ApplyAndFinish(r, p, answer, world);
        case _ => outcome := Release(r, p, Internal, world);
      }
    }

    method ApplyAndFinish(r: ClaimRequest, p: Payment, answer: BankResult, world: World) returns (outcome: Outcome)
      requires store.Valid() && WellFormed(p) && (RequestOp(r) == AuthorizeOp || RequestOp(r) == RetryOp)
      requires answer.Authorised? || answer.DeclinedBy?
      modifies store
      ensures store.Valid()
      ensures (store.Contents(), outcome)
           == Concluded(old(store.Contents()), r, Decide(RequestOp(r), p, answer, world.decidedAt), world)
    {
      DecidedNormalized(RequestOp(r), p, answer, world.decidedAt);
      hide Concluded, MarkAuthorized, MarkDeclined, WellFormed, Normalized, PaymentStore.RowFits;
      var payment := new PaymentObject.Payment(p);
      var error := ApplyAuthorizationOutcome(payment, answer, world.decidedAt);
      if error.Some? {
        outcome := Release(r, p, Internal, world);
      } else {
        outcome := Finish(r, p, payment.Value(), None, world);
      }
    }

    /** A hold that the bank reports as expired ends a capture or a void for good. */
    method FinishExpired(r: ClaimRequest, p: Payment, world: World) returns (outcome: Outcome)
      requires store.Valid() && WellFormed(p) && (RequestOp(r) == CaptureOp || RequestOp(r) == VoidOp)
      modifies store
      ensures store.Valid()
      ensures (store.Contents(), outcome)
           == Concluded(old(store.Contents()), r,
                        Decide(RequestOp(r), p, BankFailed(AuthorizationExpired), world.decidedAt), world)
    {
      DecidedNormalized(RequestOp(r), p, BankFailed(AuthorizationExpired), world.decidedAt);
      hide Concluded, MarkExpired, WellFormed, Normalized, PaymentStore.RowFits;
      var payment := new PaymentObject.Payment(p);
      var error := payment.MarkExpired(world.decidedAt);
      if error.Some? {
        outcome := Release(r, p, Internal, world);
      } else {
        outcome := Finish(r, p, payment.Value(), Some(AuthorizationExpired), world);
      }
    }

    method ConcludeCapture(r: ClaimRequest, p: Payment, answer: BankResult, world: World) returns (outcome: Outcome)
      requires store.Valid() && WellFormed(p) && RequestOp(r) == CaptureOp
      modifies store
      ensures store.Valid()
      ensures (store.Contents(), outcome)
           == Concluded(old(store.Contents()), r, Decide(RequestOp(r), p, answer, world.decidedAt), world)
    {
      DecidedNormalized(RequestOp(r), p, answer, world.decidedAt);
      hide Concluded, MarkCaptured, MarkExpired, WellFormed, Normalized, PaymentStore.RowFits;
      match answer {
        case CaptureDone(id) =>
          var payment := new PaymentObject.Payment(p);
          var error := payment.MarkCaptured(id, world.decidedAt);
          if error.Some? {
            outcome := Release(r, p, Internal, world);
          } else {
            outcome := Finish(r, p, payment.Value(), None, world);
          }
        case BankFailed(kind) =>
          if kind == AuthorizationExpired {
            outcome := FinishExpired(r, p, world);
          } else {
            outcome := Release(r, p, kind, world);
          }
        case _ => outcome := Release(r, p, Internal, world);
      }
    }

    method ConcludeVoid(r: ClaimRequest, p: Payment, answer: BankResult, world: World) returns (outcome: Outcome)
      requires store.Valid() && WellFormed(p) && RequestOp(r) == VoidOp
      modifies store
      ensures store.Valid()
      ensures (store.Contents(), outcome)
           == Concluded(old(store.Contents()), r, Decide(RequestOp(r), p, answer, world.decidedAt), world)
    {
      DecidedNormalized(RequestOp(r), p, answer, world.decidedAt);
      hide Concluded, MarkVoided, MarkExpired, WellFormed, Normalized, PaymentStore.RowFits;
      match answer {
        case VoidDone(id) =>
          var payment := new PaymentObject.Payment(p);
          var error := payment.MarkVoided(id, world.decidedAt);
          if error.Some? {
            outcome := Release(r, p, Internal, world);
          } else {
            outcome := Finish(r, p, payment.Value(), None, world);
          }
        case BankFailed(kind) =>
          if kind == AuthorizationExpired {
            outcome := FinishExpired(r, p, world);
          } else {
            outcome := Release(r, p, kind, world);
          }
        case _ => outcome := Release(r, p, Internal, world);
      }
    }

    method ConcludeRefund(r: ClaimRequest, p: Payment, answer: BankResult, world: World) returns (outcome: Outcome)
      requires store.Valid() && WellFormed(p) && RequestOp(r) == RefundOp
      modifies store
      ensures store.Valid()
      ensures (store.Contents(), outcome)
           == Concluded(old(store.Contents()), r, Decide(RequestOp(r), p, answer, world.decidedAt), world)
    {
      DecidedNormalized(RequestOp(r), p, answer, world.decidedAt);
      hide Concluded, MarkRefunded, WellFormed, Normalized, PaymentStore.RowFits;
      match answer {
        case RefundDone(id) =>
          var payment := new PaymentObject.Payment(p);
          var error := payment.MarkRefunded(id, world.decidedAt);
          if error.Some? {
            outcome := Release(r, p, Internal, world);
          } else {
            outcome := Finish(r, p, payment.Value(), None, world);
          }
        case BankFailed(kind) => outcome := Release(r, p, kind, world);
        case _ => outcome := Release(r, p, Internal, world);
      }
    }

    method AuthorizePayment(cmd: Command, r: ClaimRequest, world: World) returns (outcome: Outcome)
      requires Valid() && cmd.Authorize? && r.StartRequest? && Normalized(r.payment)
      modifies store, client.bank.bank, client.bank.cache
      ensures Valid()
      ensures (store.Contents(), client.bank.Side(), outcome)
           == Ran(old(store.Contents()), old(client.bank.Side()), client.bank.bank.holdFor, cmd, r, world)
    {
      hide Claim, Exchanged, Concluded, Decide, WellFormed, Normalized, PaymentStore.RowFits, CallOf,
           PaymentStore.PaymentStore.Valid, BankService.BankService.Valid;
      var claim := store.ClaimAuthorizationStart(r);
      match claim {
        case ClaimFailed(kind) => outcome := Failure(kind);
        case Replayed(result) => outcome := Replay(result);
        case Claimed(p, _) =>
          var answer := client.RetryTransient(CallOf(cmd, p), world.exchange);
          outcome := ConcludeAuthorization(r, p, answer, world);
      }
    }

    method RetryAuthorization(cmd: Command, r: ClaimRequest, world: World) returns (outcome: Outcome)
      requires Valid() && cmd.Retry? && r.ExistingRequest? && r.op == RetryOp
      modifies store, client.bank.bank, client.bank.cache
      ensures Valid()
      ensures (store.Contents(), client.bank.Side(), outcome)
           == Ran(old(store.Contents()), old(client.bank.Side()), client.bank.bank.holdFor, cmd, r, world)
    {
      hide Claim, Exchanged, Concluded, Decide, WellFormed, Normalized, PaymentStore.RowFits, CallOf,
           PaymentStore.PaymentStore.Valid, BankService.BankService.Valid;
      var claim := store.ClaimExistingPaymentCommand(r);
      match claim {
        case ClaimFailed(kind) => outcome := Failure(kind);
        case Replayed(result) => outcome := Replay(result);
        case Claimed(p, _) =>
          var answer := client.RetryTransient(CallOf(cmd, p), world.exchange);
          outcome := ConcludeAuthorization(r, p, answer, world);
      }
    }

    method CapturePayment(cmd: Command, r: ClaimRequest, world: World) returns (outcome: Outcome)
      requires Valid() && cmd.Capture? && r.ExistingRequest? && r.op == CaptureOp
      modifies store, client.bank.bank, client.bank.cache
      ensures Valid()
      ensures (store.Contents(), client.bank.Side(), outcome)
           == Ran(old(store.Contents()), old(client.bank.Side()), client.bank.bank.holdFor, cmd, r, world)
    {
      hide Claim, Exchanged, Concluded, Decide, WellFormed, Normalized, PaymentStore.RowFits, CallOf,
           PaymentStore.PaymentStore.Valid, BankService.BankService.Valid;
      var claim := store.ClaimExistingPaymentCommand(r);
      match claim {
        case ClaimFailed(kind) => outcome := Failure(kind);
        case Replayed(result) => outcome := Replay(result);
        case Claimed(p, _) =>
          var answer := client.RetryTransient(CallOf(cmd, p), world.exchange);
          outcome := ConcludeCapture(r, p, answer, world);
      }
    }

    method VoidPayment(cmd: Command, r: ClaimRequest, world: World) returns (outcome: Outcome)
      requires Valid() && cmd.Void? && r.ExistingRequest? && r.op == VoidOp
      modifies store, client.bank.bank, client.bank.cache
      ensures Valid()
      ensures (store.Contents(), client.bank.Side(), outcome)
           == Ran(old(store.Contents()), old(client.bank.Side()), client.bank.bank.holdFor, cmd, r, world)
    {
      hide Claim, Exchanged, Concluded, Decide, WellFormed, Normalized, PaymentStore.RowFits, CallOf,
           PaymentStore.PaymentStore.Valid, BankService.BankService.Valid;
      var claim := store.ClaimExistingPaymentCommand(r);
      match claim {
        case ClaimFailed(kind) => outcome := Failure(kind);
        case Replayed(result) => outcome := Replay(result);
        case Claimed(p, _) =>
          var answer := client.RetryTransient(CallOf(cmd, p), world.exchange);
          outcome := ConcludeVoid(r, p, answer, world);
      }
    }

    method RefundPayment(cmd: Command, r: ClaimRequest, world: World) returns (outcome: Outcome)
      requires Valid() && cmd.Refund? && r.ExistingRequest? && r.op == RefundOp
      modifies store, client.bank.bank, client.bank.cache
      ensures Valid()
      ensures (store.Contents(), client.bank.Side(), outcome)
           == Ran(old(store.Contents()), old(client.bank.Side()), client.bank.bank.holdFor, cmd, r, world)
    {
      hide Claim, Exchanged, Concluded, Decide, WellFormed, Normalized, PaymentStore.RowFits, CallOf,
           PaymentStore.PaymentStore.Valid, BankService.BankService.Valid;
      var claim := store.ClaimExistingPaymentCommand(r);
      match claim {
        case ClaimFailed(kind) => outcome := Failure(kind);
        case Replayed(result) => outcome := Replay(result);
        case Claimed(p, _) =>
          var answer := client.RetryTransient(CallOf(cmd, p), world.exchange);
          outcome := ConcludeRefund(r, p, answer, world);
      }
    }
  }
}
