/** When the bank says what: the exact condition of every reply, in the order in which the services check. */
module Verdicts {
  import opened Text
  import opened Domain
  import opened Commands
  import opened Store
  import opened Bank
  import opened Client
  import opened Protocol
  import opened Invariants
  import opened BankSteps
  import opened Runs
  import opened Safety
  import Luhn

  // ---- Authorizing ----

  /** Three or four digits. */
  predicate LooksLikeCvv(cvv: string) {
    3 <= |cvv| <= 4 && forall i :: 0 <= i < |cvv| ==> '0' <= cvv[i] <= '9'
  }

  /** A card that passes every check of the card itself, for an amount that is one. */
  predicate Presented(l: Ledger, number: string, cvv: string, amount: int) {
    && Luhn.Accepts(number) && LooksLikeCvv(cvv) && amount > 0
    && number in l.accounts && l.accounts[number].cvv == cvv
  }

  /** Months from the beginning of the calendar. */
  function MonthIndex(year: int, month: int): int {
    12 * year + month
  }

  /** A card is good until the end of its month. */
  lemma GoodThroughItsMonth(month: int, year: int, today: YearMonth)
    requires 1 <= today.month <= 12
    ensures ValidExpiry(month, year, today)
       <==> 1 <= month <= 12 && MonthIndex(today.year, today.month) <= MonthIndex(year, month)
  {
  }

  /** The bank's opinion of an authorization, reply by reply. A refusal leaves the ledger alone. */
  lemma AuthorizeVerdict(l: Ledger, now: Time, today: YearMonth, holdFor: int, r: Request, newId: string)
    requires LedgerOk(l) && r.AuthorizeRequest?
    ensures var (l', reply) := Handle(l, now, today, holdFor, r, newId);
            var fits := Presented(l, r.number, r.cvv, r.amount);
            var good := fits && ValidExpiry(l.accounts[r.number].month, l.accounts[r.number].year, today);
            var funded := good && r.amount <= l.accounts[r.number].available;
            && (reply == Refused(InvalidCardCode) <==>
                  || !Luhn.Accepts(r.number)
                  || (LooksLikeCvv(r.cvv) && r.amount > 0 && r.number !in l.accounts))
            && (reply == Refused(InvalidCvv) <==>
                  && Luhn.Accepts(r.number)
                  && (|| !LooksLikeCvv(r.cvv)
                      || (r.amount > 0 && r.number in l.accounts && l.accounts[r.number].cvv != r.cvv)))
            && (reply == Refused(InvalidAmountCode) <==>
                  Luhn.Accepts(r.number) && LooksLikeCvv(r.cvv) && r.amount <= 0)
            && (reply == Refused(CardExpired) <==> fits && !good)
            && (reply == Refused(InsufficientFundsCode) <==> good && !funded)
            && (reply == Refused(InternalError) <==> funded && newId in l.txns)
            && (reply == Approved(newId, now + holdFor) <==> funded && newId !in l.txns)
            && (reply.Approved? <==> funded && newId !in l.txns)
            && (reply.Refused? ==> l' == l && reply.code in {InvalidCardCode, InvalidCvv, InvalidAmountCode, CardExpired,
                                                            InsufficientFundsCode, InternalError})
            && (reply.Refused? || reply.Approved?)
  {
    var r0 := Ref("", HoldTxn);
    assert r0 in l.index ==> IndexOk(l, r0);
    CvvDigits(r.cvv);
    hide LedgerOk, Luhn.Accepts, ValidExpiry, LooksLikeCvv, ValidCvv;
  }

  lemma CvvDigits(cvv: string)
    ensures ValidCvv(cvv) <==> LooksLikeCvv(cvv)
  {
  }

  // ---- Using a hold ----

  predicate IsHold(l: Ledger, id: string) {
    id in l.txns && l.txns[id].kind == HoldTxn
  }

  /** Some entry has captured or voided the hold. */
  predicate IsUsed(l: Ledger, id: string) {
    Ref(id, CaptureTxn) in l.index || Ref(id, VoidTxn) in l.index
  }

  /** A hold is captured while it is unused and in time, for its own amount; a taken id reads as already captured. */
  lemma CaptureVerdict(l: Ledger, now: Time, today: YearMonth, holdFor: int, h: string, amount: int, newId: string)
    requires LedgerOk(l)
    ensures var (l', reply) := Handle(l, now, today, holdFor, CaptureRequest(h, amount), newId);
            var open := IsHold(l, h) && !IsUsed(l, h);
            var due := open && now <= l.txns[h].expiresAt;
            var exact := due && amount == l.txns[h].amount;
            && (reply == Refused(AuthNotFound) <==> !IsHold(l, h))
            && (reply == Refused(AuthAlreadyUsed) <==> IsHold(l, h) && IsUsed(l, h))
            && (reply == Refused(AuthExpired) <==> open && !due)
            && (reply == Refused(AmountMismatch) <==> due && !exact)
            && (reply == Refused(AlreadyCaptured) <==> exact && newId in l.txns)
            && (reply == CaptureMade(newId) <==> exact && newId !in l.txns)
            && (reply.Refused? ==> l' == l && reply.code in {AuthNotFound, AuthAlreadyUsed, AuthExpired, AmountMismatch,
                                                            AlreadyCaptured})
            && (reply.Refused? || reply.CaptureMade?)
  {
    if IsHold(l, h) { assert TxnOk(l, h); }
    hide LedgerOk;
  }

  /** A hold is voided while it is unused, expired or not; a taken id reads as already voided. */
  lemma VoidVerdict(l: Ledger, now: Time, today: YearMonth, holdFor: int, h: string, newId: string)
    requires LedgerOk(l)
    ensures var (l', reply) := Handle(l, now, today, holdFor, VoidRequest(h), newId);
            var open := IsHold(l, h) && !IsUsed(l, h);
            && (reply == Refused(AuthNotFound) <==> !IsHold(l, h))
            && (reply == Refused(AuthAlreadyUsed) <==> IsHold(l, h) && IsUsed(l, h))
            && (reply == Refused(AlreadyVoided) <==> open && newId in l.txns)
            && (reply == VoidMade(newId) <==> open && newId !in l.txns)
            && (reply.Refused? ==> l' == l && reply.code in {AuthNotFound, AuthAlreadyUsed, AlreadyVoided})
            && (reply.Refused? || reply.VoidMade?)
  {
    if IsHold(l, h) { assert TxnOk(l, h); }
    hide LedgerOk;
  }

  /** A capture is refunded once, for its own amount. */
  lemma RefundVerdict(l: Ledger, now: Time, today: YearMonth, holdFor: int, c: string, amount: int, newId: string)
    requires LedgerOk(l)
    ensures var (l', reply) := Handle(l, now, today, holdFor, RefundRequest(c, amount), newId);
            var known := c in l.txns && l.txns[c].kind == CaptureTxn;
            var exact := known && amount == l.txns[c].amount;
            var open := exact && Ref(c, RefundTxn) !in l.index;
            && (reply == Refused(CaptureNotFound) <==> !known)
            && (reply == Refused(AmountMismatch) <==> known && !exact)
            && (reply == Refused(AlreadyRefunded) <==> exact && (!open || newId in l.txns))
            && (reply == RefundMade(newId) <==> open && newId !in l.txns)
            && (reply.Refused? ==> l' == l && reply.code in {CaptureNotFound, AmountMismatch, AlreadyRefunded})
            && (reply.Refused? || reply.RefundMade?)
  {
    if c in l.txns && l.txns[c].kind == CaptureTxn { assert TxnOk(l, c); }
    hide LedgerOk;
  }

  // ---- Every hold was asked for with its card ----

  /** The account still has the card it opened with. */
  predicate SameCardAt(cfg: Config, l: Ledger, n: string) {
    && n in l.accounts && n in cfg.accounts
    && l.accounts[n].(balance := 0, available := 0) == cfg.accounts[n].(balance := 0, available := 0)
  }

  ghost predicate SameCards(cfg: Config, l: Ledger) {
    forall n {:trigger SameCardAt(cfg, l, n)} :: n in l.accounts ==> SameCardAt(cfg, l, n)
  }

  /** The call presented the card of the hold's account. */
  predicate Vouches(cfg: Config, call: Call, t: Txn) {
    && call.request.AuthorizeRequest? && t.account in cfg.accounts
    && call.request.number == t.account && call.request.cvv == cfg.accounts[t.account].cvv
    && call.request.amount == t.amount && Luhn.Accepts(t.account)
  }

  predicate VouchedAt(cfg: Config, b: Books, id: string) {
    && id in b.ledger.txns && id in b.origin && b.origin[id] < |b.calls|
    && Vouches(cfg, b.calls[b.origin[id]], b.ledger.txns[id])
  }

  ghost predicate Vouched(cfg: Config, b: Books) {
    && SameCards(cfg, b.ledger)
    && forall id {:trigger VouchedAt(cfg, b, id)} :: id in b.ledger.txns && b.ledger.txns[id].kind == HoldTxn ==>
         VouchedAt(cfg, b, id)
  }

  lemma HandleKeepsCards(cfg: Config, l: Ledger, now: Time, today: YearMonth, holdFor: int, r: Request, newId: string, n: string)
    requires n in l.accounts && SameCardAt(cfg, l, n)
    ensures SameCardAt(cfg, Handle(l, now, today, holdFor, r, newId).0, n)
  {
    hide Luhn.Accepts, ValidCvv, ValidExpiry;
  }

  lemma HandleKeepsAccounts(l: Ledger, now: Time, today: YearMonth, holdFor: int, r: Request, newId: string)
    ensures Handle(l, now, today, holdFor, r, newId).0.accounts.Keys == l.accounts.Keys
  {
    hide Luhn.Accepts, ValidCvv, ValidExpiry;
  }

  lemma ApprovalVouches(cfg: Config, l: Ledger, now: Time, today: YearMonth, call: Call, newId: string)
    requires LedgerOk(l) && SameCards(cfg, l)
    ensures var (l', reply) := Handle(l, now, today, cfg.holdFor, call.request, newId);
            IsSuccess(reply) && newId in l'.txns && l'.txns[newId].kind == HoldTxn ==> Vouches(cfg, call, l'.txns[newId])
  {
    var (l', reply) := Handle(l, now, today, cfg.holdFor, call.request, newId);
    HandleGrants(l, now, today, cfg.holdFor, call.request, newId);
    if IsSuccess(reply) && newId in l'.txns && l'.txns[newId].kind == HoldTxn {
      AuthorizeVerdict(l, now, today, cfg.holdFor, call.request, newId);
      assert SameCardAt(cfg, l, call.request.number);
    }
    hide LedgerOk, Handle, Luhn.Accepts, ValidExpiry, LooksLikeCvv;
  }

  lemma HandleVouched(cfg: Config, b: Books, c: nat, today: YearMonth, newTxn: string)
    requires LedgerOk(b.ledger) && Vouched(cfg, b) && c < |b.calls| && b.origin.Keys == b.ledger.txns.Keys
    ensures var (l', reply) := Handle(b.ledger, b.now, today, cfg.holdFor, b.calls[c].request, newTxn);
            Vouched(cfg, BooksAfter(b, l', reply, newTxn, c))
  {
    hide Handle, LedgerOk, Vouches;
    var request := b.calls[c].request;
    var (l', reply) := Handle(b.ledger, b.now, today, cfg.holdFor, request, newTxn);
    var b' := BooksAfter(b, l', reply, newTxn, c);
    HandleKeepsAccounts(b.ledger, b.now, today, cfg.holdFor, request, newTxn);
    forall n | n in l'.accounts ensures SameCardAt(cfg, l', n) {
      assert SameCardAt(cfg, b.ledger, n);
      HandleKeepsCards(cfg, b.ledger, b.now, today, cfg.holdFor, request, newTxn, n);
    }
    HandleGrants(b.ledger, b.now, today, cfg.holdFor, request, newTxn);
    ApprovalVouches(cfg, b.ledger, b.now, today, b.calls[c], newTxn);
    HandleKeepsLedger(b.ledger, b.now, today, cfg.holdFor, request, newTxn);
    forall id | id in l'.txns && l'.txns[id].kind == HoldTxn ensures VouchedAt(cfg, b', id) {
      if id in b.ledger.txns && (IsSuccess(reply) ==> id != newTxn) {
        assert VouchedAt(cfg, b, id);
        VouchesKept(cfg, b.calls[b.origin[id]], b.ledger.txns[id], l'.txns[id]);
      }
    }
  }

  lemma VouchesKept(cfg: Config, call: Call, t: Txn, t': Txn)
    requires Vouches(cfg, call, t) && t'.(status := t.status) == t
    ensures Vouches(cfg, call, t')
  {
    hide Luhn.Accepts;
  }

  /** More calls, and a later time at the bank, take nothing away. */
  lemma VouchedLonger(cfg: Config, b: Books, b': Books)
    requires Vouched(cfg, b) && b'.ledger == b.ledger && b'.origin == b.origin && b.calls <= b'.calls
    ensures Vouched(cfg, b')
  {
    hide Vouches;
    forall id | id in b'.ledger.txns && b'.ledger.txns[id].kind == HoldTxn ensures VouchedAt(cfg, b', id) {
      assert VouchedAt(cfg, b, id);
    }
  }

  lemma StepVouched(cfg: Config, s: State, step: Step)
    requires Enabled(s, step) && Vouched(cfg, BooksOf(s)) && Inv(cfg, s)
    ensures Vouched(cfg, BooksOf(Effect(cfg, s, step)))
  {
    hide Inv, Vouched, Claiming, Finishing, AfterAnswer, NewWorker, Handle, Accepted, IsPaymentId, Clean, LedgerOk, Sending, Executing;
    if IsQuiet(step) {
      hide Effect, Enabled;
      QuietFrame(cfg, s, step);
      return;
    }
    match step
    case ClaimStep(w, at, newId, newKey) => ClaimFrame(cfg, s, w, at, newId, newKey);
    case CompleteStep(w, at, acked) => FinishingBooks(s, w, at, acked);
    case Execute(c, how, today, newTxn) => ExecuteVouched(cfg, s, c, how, today, newTxn);
    case Send(w) =>
      SendingBooks(s, w);
      VouchedLonger(cfg, BooksOf(s), BooksOf(Sending(s, w)));
    case BankTick(now) => VouchedLonger(cfg, BooksOf(s), BooksOf(s.(bankNow := now)));
  }

  lemma ExecuteVouched(cfg: Config, s: State, c: nat, how: Execution, today: YearMonth, newTxn: string)
    requires c < |s.stages| && c < |s.calls| && Vouched(cfg, BooksOf(s)) && Inv(cfg, s)
    ensures Vouched(cfg, BooksOf(Executing(cfg, s, c, how, today, newTxn)))
  {
    hide Inv, Vouched, Handle, LedgerOk;
    LedgerIsOk(cfg, s);
    OriginsKnown(cfg, s);
    HandleVouched(cfg, BooksOf(s), c, today, newTxn);
  }

  lemma SendingBooks(s: State, w: nat)
    requires w in s.workers && s.workers[w].phase.Calling?
    ensures var b, b' := BooksOf(s), BooksOf(Sending(s, w));
            b'.ledger == b.ledger && b'.origin == b.origin && b.calls <= b'.calls
  {
    hide CallOf;
  }

  lemma FinishingBooks(s: State, w: nat, at: Time, acked: bool)
    requires w in s.workers && s.workers[w].phase.Completing?
    ensures BooksOf(Finishing(s, w, at, acked)) == BooksOf(s)
  {
    hide Complete, Replay, CompletionResult, HeldBy;
  }

  lemma OriginsKnown(cfg: Config, s: State)
    requires Inv(cfg, s)
    ensures s.origin.Keys == s.ledger.txns.Keys
  {
    hide Rows, Pinned, PinNames, Calls, LedgerOk, Replies, RowsAgree, WorkersAgree, Identities, Workers, Records, Trails,
         OriginOk;
  }

  lemma NextVouched(cfg: Config, s: State, s': State)
    requires Inv(cfg, s) && Vouched(cfg, BooksOf(s)) && Next(cfg, s, s')
    ensures Vouched(cfg, BooksOf(s'))
  {
    hide Inv, Vouched, Enabled, Effect;
    var step: Step :| Enabled(s, step) && s' == Effect(cfg, s, step);
    StepVouched(cfg, s, step);
  }

  lemma {:induction false} RunVouched(cfg: Config, run: seq<State>, i: nat)
    requires ValidConfig(cfg) && IsRun(cfg, run) && i < |run|
    ensures Vouched(cfg, BooksOf(run[i]))
  {
    hide Inv, ValidConfig, Next;
    if i == 0 {
      forall n | n in run[0].ledger.accounts ensures SameCardAt(cfg, run[0].ledger, n) {
      }
    } else {
      hide Init, Vouched;
      RunVouched(cfg, run, i - 1);
      ReachableInv(cfg, run, i - 1);
      assert StepAt(cfg, run, i - 1);
      NextVouched(cfg, run[i - 1], run[i]);
    }
  }

  /**
   * Every hold in every reachable ledger was made by a call that presented a valid number with the CVV of that number's
   * account, for the hold's amount; and the payment of that call has the fingerprint of that card.
   */
  lemma HoldsAreVouched(cfg: Config, s: State, id: string)
    requires ValidConfig(cfg) && Reachable(cfg, s) && id in s.ledger.txns && s.ledger.txns[id].kind == HoldTxn
    ensures id in s.origin && s.origin[id] < |s.calls|
    ensures var call, t := s.calls[s.origin[id]], s.ledger.txns[id];
            && call.request.AuthorizeRequest? && call.request.number == t.account && call.request.amount == t.amount
            && t.account in cfg.accounts && call.request.cvv == cfg.accounts[t.account].cvv && Luhn.Accepts(t.account)
            && call.paymentId in s.db.payments
            && var card := Card(call.request.number, call.request.cvv, call.request.month, call.request.year);
               AcceptedCard(card) && s.db.payments[call.paymentId].cardFingerprint == cfg.mac(CardText(card))
  {
    hide ValidConfig, Init, Next, Inv, Luhn.Accepts, CardText, AcceptedCard;
    var run: seq<State> :| IsRun(cfg, run) && s == run[|run| - 1];
    RunVouched(cfg, run, |run| - 1);
    ReachableInv(cfg, run, |run| - 1);
    assert VouchedAt(cfg, BooksOf(s), id);
    HoldCall(cfg, s, id);
  }

  lemma HoldCall(cfg: Config, s: State, id: string)
    requires Inv(cfg, s) && id in s.ledger.txns && s.ledger.txns[id].kind == HoldTxn
    ensures id in s.origin && s.origin[id] < |s.calls|
    ensures var call := s.calls[s.origin[id]];
            call.op == BankAuthorize && call.paymentId in s.db.payments && BodyFits(cfg, s.db.payments[call.paymentId], call)
  {
    hide Rows, Pinned, PinNames, Calls, LedgerOk, Replies, RowsAgree, WorkersAgree, Identities, Workers, Records, Trails,
         BodyFits;
    assert OriginOk(s.ledger.txns, s.origin, s.calls, id);
    CallAt(cfg, s.db.payments, s.pins, s.calls, s.origin[id]);
  }
}
