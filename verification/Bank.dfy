/** The bank's ledger: holds, captures, voids and refunds over accounts with two balances. */
module Bank {
  import opened Text
  import opened Domain
  import Luhn

  datatype TxnKind = HoldTxn | CaptureTxn | VoidTxn | RefundTxn

  datatype TxnStatus = ActiveTxn | CompletedTxn

  /** A ledger entry. Captures and voids refer to a hold, refunds to a capture; a hold refers to nothing. */
  datatype Txn = Txn(account: string, kind: TxnKind, amount: int, reference: string, status: TxnStatus,
                     expiresAt: Time)

  /** An account, identified by its card number. */
  datatype Account = Account(cvv: string, month: int, year: int, balance: int, available: int)

  /** A key of the unique index on reference and type. */
  datatype Ref = Ref(target: string, kind: TxnKind)

  /** The bank's tables: accounts, transactions in creation order, and the unique index over them. */
  datatype Ledger = Ledger(accounts: map<string, Account>, txns: map<string, Txn>, order: seq<string>,
                           index: map<Ref, string>)

  datatype Code =
    | InvalidCardCode | InvalidCvv | InvalidAmountCode | CardExpired | InsufficientFundsCode
    | AuthNotFound | AuthExpired | AuthAlreadyUsed | AlreadyCaptured | AlreadyVoided | AlreadyRefunded
    | AmountMismatch | CaptureNotFound | InternalError

  datatype Request =
    | AuthorizeRequest(number: string, cvv: string, month: int, year: int, amount: int)
    | CaptureRequest(holdId: string, amount: int)
    | VoidRequest(holdId: string)
    | RefundRequest(captureId: string, amount: int)

  datatype Reply =
    | Approved(holdId: string, expiresAt: Time)
    | CaptureMade(captureId: string)
    | VoidMade(voidId: string)
    | RefundMade(refundId: string)
    | Refused(code: Code)
    | ServerError

  predicate IsSuccess(r: Reply) {
    !r.Refused? && !r.ServerError?
  }

  datatype YearMonth = YearMonth(year: int, month: int)

  // ---- Repositories ----

  /** Inserts a transaction; None is a unique violation. */
  function Create(l: Ledger, id: string, txn: Txn): Option<Ledger> {
    var r := Ref(txn.reference, txn.kind);
    if id in l.txns || r in l.index then None
    else Some(l.(txns := l.txns[id := txn], order := l.order + [id],
                 index := if txn.kind == HoldTxn then l.index else l.index[r := id]))
  }

  function UpdateStatus(l: Ledger, id: string, status: TxnStatus): Option<Ledger> {
    if id !in l.txns then None else Some(l.(txns := l.txns[id := l.txns[id].(status := status)]))
  }

  /** Adds to both balances of an account. */
  function AdjustBalances(l: Ledger, account: string, balanceDelta: int, availableDelta: int): Option<Ledger> {
    if account !in l.accounts then None
    else
      var a := l.accounts[account];
      Some(l.(accounts := l.accounts[account := a.(balance := a.balance + balanceDelta,
                                                   available := a.available + availableDelta)]))
  }

  // ---- Validators ----

  predicate ValidExpiry(month: int, year: int, today: YearMonth) {
    1 <= month <= 12 && (today.year < year || (today.year == year && today.month <= month))
  }

  predicate ValidCvv(cvv: string) {
    3 <= |cvv| <= 4 && AllDigits(cvv)
  }

  // ---- Services: each runs in one database transaction, so a refusal leaves the ledger as it was ----

  function Authorize(l: Ledger, now: Time, today: YearMonth, holdFor: int, number: string, cvv: string,
                     amount: int, newId: string): (Ledger, Reply)
  {
    if !Luhn.Accepts(number) then (l, Refused(InvalidCardCode))
    else if !ValidCvv(cvv) then (l, Refused(InvalidCvv))
    else if amount <= 0 then (l, Refused(InvalidAmountCode))
    else if number !in l.accounts then (l, Refused(InvalidCardCode))
    else if l.accounts[number].cvv != cvv then (l, Refused(InvalidCvv))
    else if !ValidExpiry(l.accounts[number].month, l.accounts[number].year, today) then (l, Refused(CardExpired))
    else if l.accounts[number].available < amount then (l, Refused(InsufficientFundsCode))
    else match Create(l, newId, Txn(number, HoldTxn, amount, "", ActiveTxn, now + holdFor))
      case None => (l, Refused(InternalError))
      case Some(l1) => match AdjustBalances(l1, number, 0, -amount)
        case None => (l, Refused(InternalError))
        case Some(l2) => (l2, Approved(newId, now + holdFor))
  }

  function Capture(l: Ledger, now: Time, holdId: string, amount: int, newId: string): (Ledger, Reply) {
    if holdId !in l.txns || l.txns[holdId].kind != HoldTxn then (l, Refused(AuthNotFound))
    else
      var hold := l.txns[holdId];
      if hold.status != ActiveTxn then (l, Refused(AuthAlreadyUsed))
      else if now > hold.expiresAt then (l, Refused(AuthExpired))
      else if amount != hold.amount then (l, Refused(AmountMismatch))
      else match Create(l, newId, Txn(hold.account, CaptureTxn, amount, holdId, CompletedTxn, NO_TIME))
        case None => (l, Refused(AlreadyCaptured))
        case Some(l1) => match UpdateStatus(l1, holdId, CompletedTxn)
          case None => (l, Refused(InternalError))
          case Some(l2) => match AdjustBalances(l2, hold.account, -amount, 0)
            case None => (l, Refused(InternalError))
            case Some(l3) => (l3, CaptureMade(newId))
  }

  function Void(l: Ledger, holdId: string, newId: string): (Ledger, Reply) {
    if holdId !in l.txns || l.txns[holdId].kind != HoldTxn then (l, Refused(AuthNotFound))
    else
      var hold := l.txns[holdId];
      if hold.status != ActiveTxn then (l, Refused(AuthAlreadyUsed))
      else if Ref(holdId, CaptureTxn) in l.index then (l, Refused(AlreadyCaptured))
      else match Create(l, newId, Txn(hold.account, VoidTxn, hold.amount, holdId, CompletedTxn, NO_TIME))
        case None => (l, Refused(AlreadyVoided))
        case Some(l1) => match UpdateStatus(l1, holdId, CompletedTxn)
          case None => (l, Refused(InternalError))
          case Some(l2) => match AdjustBalances(l2, hold.account, 0, hold.amount)
            case None => (l, Refused(InternalError))
            case Some(l3) => (l3, VoidMade(newId))
  }

  function Refund(l: Ledger, captureId: string, amount: int, newId: string): (Ledger, Reply) {
    if captureId !in l.txns || l.txns[captureId].kind != CaptureTxn then (l, Refused(CaptureNotFound))
    else
      var capture := l.txns[captureId];
      if capture.status != CompletedTxn then (l, Refused(CaptureNotFound))
      else if amount != capture.amount then (l, Refused(AmountMismatch))
      else match Create(l, newId, Txn(capture.account, RefundTxn, amount, captureId, CompletedTxn, NO_TIME))
        case None => (l, Refused(AlreadyRefunded))
        case Some(l1) => match AdjustBalances(l1, capture.account, amount, amount)
          case None => (l, Refused(InternalError))
          case Some(l2) => (l2, RefundMade(newId))
  }

  /** The handler behind the four mutating routes. */
  function Handle(l: Ledger, now: Time, today: YearMonth, holdFor: int, request: Request, newId: string)
    : (Ledger, Reply)
  {
    match request
    case AuthorizeRequest(number, cvv, _, _, amount) => Authorize(l, now, today, holdFor, number, cvv, amount, newId)
    case CaptureRequest(holdId, amount) => Capture(l, now, holdId, amount, newId)
    case VoidRequest(holdId) => Void(l, holdId, newId)
    case RefundRequest(captureId, amount) => Refund(l, captureId, amount, newId)
  }

  // ---- The ledger invariant ----

  /** One entry agrees with the entry it refers to, with the index, and with its own status. */
  predicate TxnOk(l: Ledger, id: string)
    requires id in l.txns
  {
    var t := l.txns[id];
    && t.account in l.accounts && t.amount > 0
    && match t.kind
       case HoldTxn =>
         && t.reference == ""
         && (t.status == ActiveTxn <==> Ref(id, CaptureTxn) !in l.index && Ref(id, VoidTxn) !in l.index)
         && !(Ref(id, CaptureTxn) in l.index && Ref(id, VoidTxn) in l.index)
       case CaptureTxn => RefersTo(l, id, HoldTxn)
       case VoidTxn => RefersTo(l, id, HoldTxn)
       case RefundTxn => RefersTo(l, id, CaptureTxn)
  }

  predicate RefersTo(l: Ledger, id: string, target: TxnKind)
    requires id in l.txns
  {
    var t := l.txns[id];
    && t.status == CompletedTxn
    && t.reference in l.txns && l.txns[t.reference].kind == target
    && l.txns[t.reference].amount == t.amount && l.txns[t.reference].account == t.account
    && Ref(t.reference, t.kind) in l.index && l.index[Ref(t.reference, t.kind)] == id
  }

  predicate IndexOk(l: Ledger, r: Ref)
    requires r in l.index
  {
    && r.kind != HoldTxn && r.target in l.txns
    && l.index[r] in l.txns && l.txns[l.index[r]].kind == r.kind && l.txns[l.index[r]].reference == r.target
  }

  predicate Distinct(ids: seq<string>) {
    forall i, j :: 0 <= i < j < |ids| ==> ids[i] != ids[j]
  }

  ghost predicate LedgerOk(l: Ledger) {
    && (forall id {:trigger TxnOk(l, id)} :: id in l.txns ==> TxnOk(l, id))
    && (forall r {:trigger IndexOk(l, r)} :: r in l.index ==> IndexOk(l, r))
    && Distinct(l.order)
    && (forall id :: id in l.order <==> id in l.txns)
  }

  /** Entries are only added; of an existing entry, only a hold's status may change. */
  ghost predicate Grew(l: Ledger, l': Ledger) {
    && (forall id {:trigger l'.txns[id]} {:trigger l.txns[id]} :: id in l.txns ==>
          id in l'.txns && l'.txns[id].(status := l.txns[id].status) == l.txns[id])
    && (forall r {:trigger l'.index[r]} {:trigger l.index[r]} :: r in l.index ==>
          r in l'.index && l'.index[r] == l.index[r])
    && l'.accounts.Keys == l.accounts.Keys
  }

  // ---- Every service keeps the invariant ----

  /** Nothing refers to an identifier that is not in the ledger. */
  lemma NoDangling(l: Ledger, id: string, kind: TxnKind)
    requires LedgerOk(l) && id !in l.txns
    ensures Ref(id, kind) !in l.index
  {
    assert Ref(id, kind) in l.index ==> IndexOk(l, Ref(id, kind));
  }

  lemma OrderGrows(l: Ledger, l': Ledger, newId: string)
    requires LedgerOk(l) && newId !in l.txns
    requires l'.order == l.order + [newId] && l'.txns.Keys == l.txns.Keys + {newId}
    ensures Distinct(l'.order) && forall id :: id in l'.order <==> id in l'.txns
  {
  }

  /** An untouched entry stays consistent as the ledger grows around it. */
  lemma TxnKept(l: Ledger, l': Ledger, id: string)
    requires id in l.txns && TxnOk(l, id) && Grew(l, l') && l'.txns[id] == l.txns[id]
    requires l.txns[id].kind == HoldTxn ==>
               forall k | k == CaptureTxn || k == VoidTxn :: Ref(id, k) in l'.index <==> Ref(id, k) in l.index
    ensures TxnOk(l', id)
  {
  }

  lemma IndexKept(l: Ledger, l': Ledger, r: Ref)
    requires r in l.index && IndexOk(l, r) && Grew(l, l')
    ensures IndexOk(l', r)
  {
  }

  /** The ledger with one more entry, and `changed` (if present) carrying a new status. */
  ghost predicate Extended(l: Ledger, l': Ledger, newId: string, txn: Txn, changed: set<string>) {
    && newId !in l.txns && l'.txns.Keys == l.txns.Keys + {newId} && l'.txns[newId] == txn
    && (forall id {:trigger l'.txns[id]} :: id in l.txns ==>
          if id in changed then l'.txns[id] == l.txns[id].(status := CompletedTxn) else l'.txns[id] == l.txns[id])
    && l'.order == l.order + [newId]
    && l'.index == (if txn.kind == HoldTxn then l.index else l.index[Ref(txn.reference, txn.kind) := newId])
    && (txn.kind == HoldTxn || Ref(txn.reference, txn.kind) !in l.index)
    && l'.accounts.Keys == l.accounts.Keys
  }

  lemma ExtendedGrew(l: Ledger, l': Ledger, newId: string, txn: Txn, changed: set<string>)
    requires Extended(l, l', newId, txn, changed)
    ensures Grew(l, l')
  {
  }

  /** An extended ledger is consistent once its new entry and its changed entry are. */
  lemma ExtendedKeepsLedger(l: Ledger, l': Ledger, newId: string, txn: Txn, changed: set<string>)
    requires LedgerOk(l) && Extended(l, l', newId, txn, changed)
    requires TxnOk(l', newId)
    requires txn.kind != HoldTxn ==> txn.reference in l.txns
    requires txn.kind == CaptureTxn || txn.kind == VoidTxn ==> changed == {txn.reference} && TxnOk(l', txn.reference)
    requires txn.kind == HoldTxn || txn.kind == RefundTxn ==> changed == {}
    ensures LedgerOk(l') && Grew(l, l')
  {
    hide TxnOk;
    ExtendedGrew(l, l', newId, txn, changed);
    OrderGrows(l, l', newId);
    forall id | id in l'.txns ensures TxnOk(l', id) {
      if id != newId && id !in changed {
        assert TxnOk(l, id);
        TxnKept(l, l', id);
      }
    }
    forall r | r in l'.index ensures IndexOk(l', r) {
      if r in l.index {
        assert IndexOk(l, r);
        IndexKept(l, l', r);
      }
    }
  }

  lemma AuthorizeExtends(l: Ledger, now: Time, today: YearMonth, holdFor: int, number: string, cvv: string,
                         amount: int, newId: string)
    ensures var (l', reply) := Authorize(l, now, today, holdFor, number, cvv, amount, newId);
            if reply.Approved? then
              && Extended(l, l', newId, Txn(number, HoldTxn, amount, "", ActiveTxn, now + holdFor), {})
              && number in l.accounts && 0 < amount <= l.accounts[number].available
              && l'.accounts == l.accounts[number := l.accounts[number].(available := l.accounts[number].available - amount)]
              && reply == Approved(newId, now + holdFor)
            else l' == l && reply.Refused?
  {
    hide Luhn.Accepts, ValidCvv, ValidExpiry;
  }

  /** A granted capture or void adds one entry and completes an active hold. */
  ghost predicate UsedHold(l: Ledger, l': Ledger, holdId: string, newId: string, kind: TxnKind) {
    && holdId in l.txns && l.txns[holdId].kind == HoldTxn && l.txns[holdId].status == ActiveTxn
    && var h := l.txns[holdId];
       Extended(l, l', newId, Txn(h.account, kind, h.amount, holdId, CompletedTxn, NO_TIME), {holdId})
  }

  lemma CaptureExtends(l: Ledger, now: Time, holdId: string, amount: int, newId: string)
    ensures var (l', reply) := Capture(l, now, holdId, amount, newId);
            if reply.CaptureMade? then
              && UsedHold(l, l', holdId, newId, CaptureTxn)
              && now <= l.txns[holdId].expiresAt && amount == l.txns[holdId].amount
              && var acc := l.txns[holdId].account;
              && acc in l.accounts
              && l'.accounts == l.accounts[acc := l.accounts[acc].(balance := l.accounts[acc].balance - amount)]
              && reply == CaptureMade(newId)
            else l' == l && reply.Refused?
  {
  }

  lemma VoidExtends(l: Ledger, holdId: string, newId: string)
    ensures var (l', reply) := Void(l, holdId, newId);
            if reply.VoidMade? then
              && UsedHold(l, l', holdId, newId, VoidTxn)
              && var acc := l.txns[holdId].account;
              && acc in l.accounts
              && l'.accounts == l.accounts[acc := l.accounts[acc].(available := l.accounts[acc].available + l.txns[holdId].amount)]
              && reply == VoidMade(newId)
            else l' == l && reply.Refused?
  {
  }

  lemma RefundExtends(l: Ledger, captureId: string, amount: int, newId: string)
    ensures var (l', reply) := Refund(l, captureId, amount, newId);
            if reply.RefundMade? then
              && captureId in l.txns && l.txns[captureId].kind == CaptureTxn && amount == l.txns[captureId].amount
              && var acc := l.txns[captureId].account;
              && Extended(l, l', newId, Txn(acc, RefundTxn, amount, captureId, CompletedTxn, NO_TIME), {})
              && acc in l.accounts
              && l'.accounts == l.accounts[acc := l.accounts[acc].(balance := l.accounts[acc].balance + amount,
                                                                   available := l.accounts[acc].available + amount)]
              && reply == RefundMade(newId)
            else l' == l && reply.Refused?
  {
  }

  lemma NewHoldOk(l: Ledger, l': Ledger, newId: string, txn: Txn)
    requires LedgerOk(l) && Extended(l, l', newId, txn, {}) && txn.kind == HoldTxn && txn.reference == ""
    requires txn.account in l.accounts && txn.amount > 0 && txn.status == ActiveTxn
    ensures TxnOk(l', newId)
  {
    NoDangling(l, newId, CaptureTxn);
    NoDangling(l, newId, VoidTxn);
  }

  lemma UsedHoldOk(l: Ledger, l': Ledger, holdId: string, newId: string, kind: TxnKind)
    requires LedgerOk(l) && UsedHold(l, l', holdId, newId, kind) && (kind == CaptureTxn || kind == VoidTxn)
    ensures TxnOk(l', newId) && TxnOk(l', holdId)
  {
    assert TxnOk(l, holdId);
    assert l'.txns[holdId] == l.txns[holdId].(status := CompletedTxn);
  }

  lemma NewRefundOk(l: Ledger, l': Ledger, newId: string, txn: Txn)
    requires LedgerOk(l) && Extended(l, l', newId, txn, {}) && txn.kind == RefundTxn && txn.status == CompletedTxn
    requires txn.reference in l.txns && l.txns[txn.reference].kind == CaptureTxn
    requires l.txns[txn.reference].amount == txn.amount && l.txns[txn.reference].account == txn.account
    ensures TxnOk(l', newId)
  {
    assert TxnOk(l, txn.reference);
    assert l'.txns[txn.reference] == l.txns[txn.reference];
  }

  /** Whatever the request, the ledger stays consistent and only grows. */
  lemma HandleKeepsLedger(l: Ledger, now: Time, today: YearMonth, holdFor: int, request: Request, newId: string)
    requires LedgerOk(l)
    ensures var (l', _) := Handle(l, now, today, holdFor, request, newId); LedgerOk(l') && Grew(l, l')
  {
    hide Authorize, Capture, Void, Refund, LedgerOk, Extended, TxnOk;
    var (l', reply) := Handle(l, now, today, holdFor, request, newId);
    match request
    case AuthorizeRequest(number, cvv, _, _, amount) =>
      AuthorizeExtends(l, now, today, holdFor, number, cvv, amount, newId);
      if reply.Approved? {
        var txn := Txn(number, HoldTxn, amount, "", ActiveTxn, now + holdFor);
        NewHoldOk(l, l', newId, txn);
        ExtendedKeepsLedger(l, l', newId, txn, {});
      }
    case CaptureRequest(holdId, amount) =>
      CaptureExtends(l, now, holdId, amount, newId);
      if reply.CaptureMade? {
        UseKeepsLedger(l, l', holdId, newId, CaptureTxn);
      }
    case VoidRequest(holdId) =>
      VoidExtends(l, holdId, newId);
      if reply.VoidMade? {
        UseKeepsLedger(l, l', holdId, newId, VoidTxn);
      }
    case RefundRequest(captureId, amount) =>
      RefundExtends(l, captureId, amount, newId);
      if reply.RefundMade? {
        var txn := Txn(l.txns[captureId].account, RefundTxn, amount, captureId, CompletedTxn, NO_TIME);
        NewRefundOk(l, l', newId, txn);
        ExtendedKeepsLedger(l, l', newId, txn, {});
      }
  }

  /** Using up an active hold, by capture or by void, keeps the ledger consistent. */
  lemma UseKeepsLedger(l: Ledger, l': Ledger, holdId: string, newId: string, kind: TxnKind)
    requires LedgerOk(l) && UsedHold(l, l', holdId, newId, kind) && (kind == CaptureTxn || kind == VoidTxn)
    ensures LedgerOk(l') && Grew(l, l')
  {
    hide LedgerOk, Extended, TxnOk;
    UsedHoldOk(l, l', holdId, newId, kind);
    var h := l.txns[holdId];
    ExtendedKeepsLedger(l, l', newId, Txn(h.account, kind, h.amount, holdId, CompletedTxn, NO_TIME), {holdId});
  }
}
