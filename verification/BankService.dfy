/** The bank as an object: repositories that change one table each, and services that call them in sequence. */
module BankService {
  import opened Domain
  import opened Bank
  import opened Balances

  class BankService {
    var accounts: map<string, Account>
    var txns: map<string, Txn>
    var order: seq<string>
    var index: map<Ref, string>
    const holdFor: int
    ghost const opening: map<string, int>

    ghost function Contents(): Ledger
      reads this
    {
      Ledger(accounts, txns, order, index)
    }

    /** The ledger is consistent, and no money has appeared or disappeared since the accounts were opened. */
    ghost predicate Valid()
      reads this
    {
      LedgerOk(Contents()) && Conserved(Contents(), opening)
    }

    constructor (accounts: map<string, Account>, holdFor: int)
      requires forall n {:trigger accounts[n]} :: n in accounts ==> 0 <= accounts[n].balance == accounts[n].available
      ensures Valid() && Contents() == Ledger(accounts, map[], [], map[]) && this.holdFor == holdFor
      ensures opening == map n | n in accounts :: accounts[n].balance
    {
      this.accounts := accounts;
      txns, order, index := map[], [], map[];
      this.holdFor := holdFor;
      opening := map n | n in accounts :: accounts[n].balance;
      new;
      forall n | n in accounts ensures n in opening && AccountConserved(Contents(), n, opening[n]) {
        assert 0 <= accounts[n].balance == accounts[n].available;
      }
    }

    // ---- Repositories ----

    method Create(id: string, txn: Txn) returns (ok: bool)
      modifies this`txns, this`order, this`index
      ensures match Bank.Create(old(Contents()), id, txn)
              case None => !ok && Contents() == old(Contents())
              case Some(l) => ok && Contents() == l
    {
      var r := Ref(txn.reference, txn.kind);
      if id in txns || r in index { return false; }
      txns := txns[id := txn];
      order := order + [id];
      if txn.kind != HoldTxn { index := index[r := id]; }
      return true;
    }

    method UpdateStatus(id: string, status: TxnStatus) returns (ok: bool)
      modifies this`txns
      ensures match Bank.UpdateStatus(old(Contents()), id, status)
              case None => !ok && Contents() == old(Contents())
              case Some(l) => ok && Contents() == l
    {
      if id !in txns { return false; }
      txns := txns[id := txns[id].(status := status)];
      return true;
    }

    method AdjustBalances(account: string, balanceDelta: int, availableDelta: int) returns (ok: bool)
      modifies this`accounts
      ensures match Bank.AdjustBalances(old(Contents()), account, balanceDelta, availableDelta)
              case None => !ok && Contents() == old(Contents())
              case Some(l) => ok && Contents() == l
    {
      if account !in accounts { return false; }
      var a := accounts[account];
      accounts := accounts[account := a.(balance := a.balance + balanceDelta, available := a.available + availableDelta)];
      return true;
    }

    // ---- Services: each runs in one transaction, which a refusal rolls back ----

    method Rollback(to: map<string, Account>, toTxns: map<string, Txn>, toOrder: seq<string>, toIndex: map<Ref, string>)
      modifies this
      ensures Contents() == Ledger(to, toTxns, toOrder, toIndex)
    {
      accounts, txns, order, index := to, toTxns, toOrder, toIndex;
    }

    method PerformAuthorization(now: Time, today: YearMonth, number: string, cvv: string, amount: int, newId: string)
      returns (reply: Reply)
      requires Luhn.Accepts(number) && ValidCvv(cvv) && amount > 0
      modifies this
      ensures var (l, r) := Bank.Authorize(old(Contents()), now, today, holdFor, number, cvv, amount, newId);
              reply == r && (IsSuccess(reply) ==> Contents() == l)
    {
      hide Luhn.Accepts, ValidExpiry, ValidCvv;
      if number !in accounts { return Refused(InvalidCardCode); }
      var account := accounts[number];
      if account.cvv != cvv { return Refused(InvalidCvv); }
      if !ValidExpiry(account.month, account.year, today) { return Refused(CardExpired); }
      if account.available < amount { return Refused(InsufficientFundsCode); }
      var created := Create(newId, Txn(number, HoldTxn, amount, "", ActiveTxn, now + holdFor));
      if !created { return Refused(InternalError); }
      var adjusted := AdjustBalances(number, 0, -amount);
      if !adjusted { return Refused(InternalError); }
      return Approved(newId, now + holdFor);
    }

    method Authorize(now: Time, today: YearMonth, number: string, cvv: string, amount: int, newId: string)
      returns (reply: Reply)
      modifies this
      ensures (Contents(), reply) == Bank.Authorize(old(Contents()), now, today, holdFor, number, cvv, amount, newId)
    {
      hide Luhn.Accepts, ValidExpiry, ValidCvv;
      var checked := Luhn.ValidateLuhn(number);
      if checked != Luhn.NoError { return Refused(InvalidCardCode); }
      if !ValidCvv(cvv) { return Refused(InvalidCvv); }
      if amount <= 0 { return Refused(InvalidAmountCode); }
      var a, t, o, i := accounts, txns, order, index;
      reply := PerformAuthorization(now, today, number, cvv, amount, newId);
      if !IsSuccess(reply) { Rollback(a, t, o, i); }
    }

    method PerformCapture(now: Time, holdId: string, amount: int, newId: string) returns (reply: Reply)
      modifies this
      ensures var (l, r) := Bank.Capture(old(Contents()), now, holdId, amount, newId);
              reply == r && (IsSuccess(reply) ==> Contents() == l)
    {
      if holdId !in txns || txns[holdId].kind != HoldTxn { return Refused(AuthNotFound); }
      var hold := txns[holdId];
      if hold.status != ActiveTxn { return Refused(AuthAlreadyUsed); }
      if now > hold.expiresAt { return Refused(AuthExpired); }
      if amount != hold.amount { return Refused(AmountMismatch); }
      var created := Create(newId, Txn(hold.account, CaptureTxn, amount, holdId, CompletedTxn, NO_TIME));
      if !created { return Refused(AlreadyCaptured); }
      var updated := UpdateStatus(holdId, CompletedTxn);
      if !updated { return Refused(InternalError); }
      var adjusted := AdjustBalances(hold.account, -amount, 0);
      if !adjusted { return Refused(InternalError); }
      return CaptureMade(newId);
    }

    method Capture(now: Time, holdId: string, amount: int, newId: string) returns (reply: Reply)
      modifies this
      ensures (Contents(), reply) == Bank.Capture(old(Contents()), now, holdId, amount, newId)
    {
      var a, t, o, i := accounts, txns, order, index;
      reply := PerformCapture(now, holdId, amount, newId);
      if !IsSuccess(reply) { Rollback(a, t, o, i); }
    }

    method PerformVoid(holdId: string, newId: string) returns (reply: Reply)
      modifies this
      ensures var (l, r) := Bank.Void(old(Contents()), holdId, newId);
              reply == r && (IsSuccess(reply) ==> Contents() == l)
    {
      if holdId !in txns || txns[holdId].kind != HoldTxn { return Refused(AuthNotFound); }
      var hold := txns[holdId];
      if hold.status != ActiveTxn { return Refused(AuthAlreadyUsed); }
      if Ref(holdId, CaptureTxn) in index { return Refused(AlreadyCaptured); }
      var created := Create(newId, Txn(hold.account, VoidTxn, hold.amount, holdId, CompletedTxn, NO_TIME));
      if !created { return Refused(AlreadyVoided); }
      var updated := UpdateStatus(holdId, CompletedTxn);
      if !updated { return Refused(InternalError); }
      var adjusted := AdjustBalances(hold.account, 0, hold.amount);
      if !adjusted { return Refused(InternalError); }
      return VoidMade(newId);
    }

    method Void(holdId: string, newId: string) returns (reply: Reply)
      modifies this
      ensures (Contents(), reply) == Bank.Void(old(Contents()), holdId, newId)
    {
      var a, t, o, i := accounts, txns, order, index;
      reply := PerformVoid(holdId, newId);
      if !IsSuccess(reply) { Rollback(a, t, o, i); }
    }

    method PerformRefund(captureId: string, amount: int, newId: string) returns (reply: Reply)
      modifies this
      ensures var (l, r) := Bank.Refund(old(Contents()), captureId, amount, newId);
              reply == r && (IsSuccess(reply) ==> Contents() == l)
    {
      if captureId !in txns || txns[captureId].kind != CaptureTxn { return Refused(CaptureNotFound); }
      var capture := txns[captureId];
      if capture.status != CompletedTxn { return Refused(CaptureNotFound); }
      if amount != capture.amount { return Refused(AmountMismatch); }
      var created := Create(newId, Txn(capture.account, RefundTxn, amount, captureId, CompletedTxn, NO_TIME));
      if !created { return Refused(AlreadyRefunded); }
      var adjusted := AdjustBalances(capture.account, amount, amount);
      if !adjusted { return Refused(InternalError); }
      return RefundMade(newId);
    }

    method Refund(captureId: string, amount: int, newId: string) returns (reply: Reply)
      modifies this
      ensures (Contents(), reply) == Bank.Refund(old(Contents()), captureId, amount, newId)
    {
      var a, t, o, i := accounts, txns, order, index;
      reply := PerformRefund(captureId, amount, newId);
      if !IsSuccess(reply) { Rollback(a, t, o, i); }
    }

    /** Whatever is asked of it, the bank stays consistent and conserves money. */
    method Serve(now: Time, today: YearMonth, request: Request, newId: string) returns (reply: Reply)
      requires Valid()
      modifies this
      ensures Valid() && (Contents(), reply) == Handle(old(Contents()), now, today, holdFor, request, newId)
      ensures forall n :: n in accounts ==> n in opening && 0 <= accounts[n].available <= accounts[n].balance <= opening[n]
    {
      hide LedgerOk, Conserved, AccountConserved, Bank.Authorize, Bank.Capture, Bank.Void, Bank.Refund;
      HandleKeepsLedger(Contents(), now, today, holdFor, request, newId);
      HandleConserves(Contents(), now, today, holdFor, request, newId, opening);
      match request {
        case AuthorizeRequest(number, cvv, _, _, amount) => reply := Authorize(now, today, number, cvv, amount, newId);
        case CaptureRequest(holdId, amount) => reply := Capture(now, holdId, amount, newId);
        case VoidRequest(holdId) => reply := Void(holdId, newId);
        case RefundRequest(captureId, amount) => reply := Refund(captureId, amount, newId);
      }
      forall n | n in accounts
        ensures n in opening && 0 <= accounts[n].available <= accounts[n].balance <= opening[n]
      {
        AccountBounds(Contents(), n, opening);
      }
    }
  }

  lemma AccountBounds(l: Ledger, account: string, opening: map<string, int>)
    requires LedgerOk(l) && Conserved(l, opening) && account in l.accounts
    ensures account in opening && 0 <= l.accounts[account].available <= l.accounts[account].balance <= opening[account]
  {
    hide LedgerOk, AccountConserved;
    ConservedBounds(l, account, opening[account]);
  }
}
