/** Conservation of money in the bank: both balances of an account are determined by its ledger entries. */
module Balances {
  import opened Domain
  import opened Bank

  datatype Measure = ActiveHolds | Captures | Refunds | Unrefunded

  /** What one entry contributes to a total over an account. */
  function Part(l: Ledger, account: string, m: Measure, id: string): int {
    if id !in l.txns || l.txns[id].account != account then 0
    else
      var t := l.txns[id];
      match m
      case ActiveHolds => if t.kind == HoldTxn && t.status == ActiveTxn then t.amount else 0
      case Captures => if t.kind == CaptureTxn then t.amount else 0
      case Refunds => if t.kind == RefundTxn then t.amount else 0
      case Unrefunded => if t.kind == CaptureTxn && Ref(id, RefundTxn) !in l.index then t.amount else 0
  }

  function Sum(l: Ledger, account: string, m: Measure, ids: seq<string>): int {
    if ids == [] then 0
    else Sum(l, account, m, ids[..|ids| - 1]) + Part(l, account, m, ids[|ids| - 1])
  }

  function Total(l: Ledger, account: string, m: Measure): int {
    Sum(l, account, m, l.order)
  }

  /** The balances that the ledger implies for an account opened with `opening` cents. */
  ghost predicate AccountConserved(l: Ledger, account: string, opening: int)
    requires account in l.accounts
  {
    var a := l.accounts[account];
    && a.available == a.balance - Total(l, account, ActiveHolds)
    && a.balance == opening - Total(l, account, Captures) + Total(l, account, Refunds)
    && Total(l, account, Captures) - Total(l, account, Refunds) == Total(l, account, Unrefunded)
    && 0 <= a.available
  }

  ghost predicate Conserved(l: Ledger, opening: map<string, int>) {
    forall account {:trigger l.accounts[account]} ::
      account in l.accounts ==> account in opening && AccountConserved(l, account, opening[account])
  }

  // ---- Sums ----

  lemma {:induction false} SumSame(l: Ledger, l': Ledger, account: string, m: Measure, ids: seq<string>)
    requires forall i :: 0 <= i < |ids| ==> Part(l, account, m, ids[i]) == Part(l', account, m, ids[i])
    ensures Sum(l, account, m, ids) == Sum(l', account, m, ids)
  {
    hide Part;
    if ids != [] {
      SumSame(l, l', account, m, ids[..|ids| - 1]);
    }
  }

  /** A total changes by what its one changed entry changes. */
  lemma {:induction false} SumChanged(l: Ledger, l': Ledger, account: string, m: Measure, ids: seq<string>, x: string)
    requires Distinct(ids) && x in ids
    requires forall i :: 0 <= i < |ids| && ids[i] != x ==> Part(l, account, m, ids[i]) == Part(l', account, m, ids[i])
    ensures Sum(l', account, m, ids) - Sum(l, account, m, ids) == Part(l', account, m, x) - Part(l, account, m, x)
  {
    hide Part;
    var front := ids[..|ids| - 1];
    if ids[|ids| - 1] == x {
      SumSame(l, l', account, m, front);
    } else {
      SumChanged(l, l', account, m, front, x);
    }
  }

  lemma {:induction false} SumNonNegative(l: Ledger, account: string, m: Measure, ids: seq<string>)
    requires forall i :: 0 <= i < |ids| ==> Part(l, account, m, ids[i]) >= 0
    ensures Sum(l, account, m, ids) >= 0
  {
    hide Part;
    if ids != [] {
      SumNonNegative(l, account, m, ids[..|ids| - 1]);
    }
  }

  lemma TotalNonNegative(l: Ledger, account: string, m: Measure)
    requires LedgerOk(l)
    ensures Total(l, account, m) >= 0
  {
    forall i | 0 <= i < |l.order| ensures Part(l, account, m, l.order[i]) >= 0 {
      assert l.order[i] in l.txns ==> TxnOk(l, l.order[i]);
    }
    SumNonNegative(l, account, m, l.order);
  }

  /** A ledger extended by one entry: a total grows by the new entry, and by the change in one older entry. */
  lemma TotalExtended(l: Ledger, l': Ledger, newId: string, txn: Txn, changed: set<string>,
                      account: string, m: Measure, x: string)
    requires LedgerOk(l) && Extended(l, l', newId, txn, changed)
    requires x in l.txns && changed <= {x}
    requires txn.kind != HoldTxn ==> txn.reference == x
    ensures Total(l', account, m) - Total(l, account, m)
            == Part(l', account, m, newId) + Part(l', account, m, x) - Part(l, account, m, x)
  {
    assert l'.order[..|l'.order| - 1] == l.order;
    forall i | 0 <= i < |l.order| && l.order[i] != x
      ensures Part(l, account, m, l.order[i]) == Part(l', account, m, l.order[i])
    {
      assert l.order[i] in l.txns;
      assert l'.txns[l.order[i]] == l.txns[l.order[i]];
    }
    assert x in l.order;
    SumChanged(l, l', account, m, l.order, x);
  }

  lemma TotalExtendedByHold(l: Ledger, l': Ledger, newId: string, txn: Txn, account: string, m: Measure)
    requires LedgerOk(l) && Extended(l, l', newId, txn, {}) && txn.kind == HoldTxn
    ensures Total(l', account, m) == Total(l, account, m) + Part(l', account, m, newId)
  {
    assert l'.order[..|l'.order| - 1] == l.order;
    forall i | 0 <= i < |l.order|
      ensures Part(l, account, m, l.order[i]) == Part(l', account, m, l.order[i])
    {
      assert l.order[i] in l.txns;
      assert l'.txns[l.order[i]] == l.txns[l.order[i]];
    }
    SumSame(l, l', account, m, l.order);
  }

  // ---- Each service conserves ----

  lemma AuthorizeConserves(l: Ledger, now: Time, today: YearMonth, holdFor: int, number: string, cvv: string,
                           amount: int, newId: string, opening: map<string, int>)
    requires LedgerOk(l) && Conserved(l, opening)
    ensures Conserved(Authorize(l, now, today, holdFor, number, cvv, amount, newId).0, opening)
  {
    AuthorizeExtends(l, now, today, holdFor, number, cvv, amount, newId);
    var (l', reply) := Authorize(l, now, today, holdFor, number, cvv, amount, newId);
    hide Authorize, LedgerOk, Total;
    if reply.Approved? {
      var txn := Txn(number, HoldTxn, amount, "", ActiveTxn, now + holdFor);
      forall a | a in l'.accounts ensures a in opening && AccountConserved(l', a, opening[a]) {
        assert a in l.accounts && AccountConserved(l, a, opening[a]);
        TotalExtendedByHold(l, l', newId, txn, a, ActiveHolds);
        TotalExtendedByHold(l, l', newId, txn, a, Captures);
        TotalExtendedByHold(l, l', newId, txn, a, Refunds);
        TotalExtendedByHold(l, l', newId, txn, a, Unrefunded);
      }
    }
  }

  /** Using up a hold moves exactly its amount out of the active holds. */
  lemma UseTotals(l: Ledger, l': Ledger, holdId: string, newId: string, kind: TxnKind, a: string)
    requires LedgerOk(l) && UsedHold(l, l', holdId, newId, kind) && (kind == CaptureTxn || kind == VoidTxn)
    ensures var h := l.txns[holdId];
            var here := if h.account == a then h.amount else 0;
            var taken := if kind == CaptureTxn then here else 0;
            && Total(l', a, ActiveHolds) == Total(l, a, ActiveHolds) - here
            && Total(l', a, Captures) == Total(l, a, Captures) + taken
            && Total(l', a, Refunds) == Total(l, a, Refunds)
            && Total(l', a, Unrefunded) == Total(l, a, Unrefunded) + taken
  {
    var h := l.txns[holdId];
    var txn := Txn(h.account, kind, h.amount, holdId, CompletedTxn, NO_TIME);
    NoDangling(l, newId, RefundTxn);
    hide LedgerOk, Total;
    assert l'.txns[holdId] == h.(status := CompletedTxn);
    TotalExtended(l, l', newId, txn, {holdId}, a, ActiveHolds, holdId);
    TotalExtended(l, l', newId, txn, {holdId}, a, Captures, holdId);
    TotalExtended(l, l', newId, txn, {holdId}, a, Refunds, holdId);
    TotalExtended(l, l', newId, txn, {holdId}, a, Unrefunded, holdId);
  }

  lemma CaptureConserves(l: Ledger, now: Time, holdId: string, amount: int, newId: string, opening: map<string, int>)
    requires LedgerOk(l) && Conserved(l, opening)
    ensures Conserved(Capture(l, now, holdId, amount, newId).0, opening)
  {
    CaptureExtends(l, now, holdId, amount, newId);
    var (l', reply) := Capture(l, now, holdId, amount, newId);
    hide Capture, LedgerOk, Total, Extended;
    if reply.CaptureMade? {
      forall a | a in l'.accounts ensures a in opening && AccountConserved(l', a, opening[a]) {
        assert a in l.accounts && AccountConserved(l, a, opening[a]);
        UseTotals(l, l', holdId, newId, CaptureTxn, a);
      }
    }
  }

  lemma VoidConserves(l: Ledger, holdId: string, newId: string, opening: map<string, int>)
    requires LedgerOk(l) && Conserved(l, opening)
    ensures Conserved(Void(l, holdId, newId).0, opening)
  {
    hide Total, Extended;
    VoidExtends(l, holdId, newId);
    var (l', reply) := Void(l, holdId, newId);
    if reply.VoidMade? {
      assert TxnOk(l, holdId);
      hide Void, LedgerOk;
      forall a | a in l'.accounts ensures a in opening && AccountConserved(l', a, opening[a]) {
        assert a in l.accounts && AccountConserved(l, a, opening[a]);
        UseTotals(l, l', holdId, newId, VoidTxn, a);
      }
    }
  }

  lemma RefundTotals(l: Ledger, l': Ledger, captureId: string, newId: string, a: string)
    requires LedgerOk(l) && captureId in l.txns && l.txns[captureId].kind == CaptureTxn
    requires var c := l.txns[captureId];
             Extended(l, l', newId, Txn(c.account, RefundTxn, c.amount, captureId, CompletedTxn, NO_TIME), {})
    ensures var c := l.txns[captureId];
            var here := if c.account == a then c.amount else 0;
            && Total(l', a, ActiveHolds) == Total(l, a, ActiveHolds)
            && Total(l', a, Captures) == Total(l, a, Captures)
            && Total(l', a, Refunds) == Total(l, a, Refunds) + here
            && Total(l', a, Unrefunded) == Total(l, a, Unrefunded) - here
  {
    var c := l.txns[captureId];
    var txn := Txn(c.account, RefundTxn, c.amount, captureId, CompletedTxn, NO_TIME);
    hide LedgerOk, Total;
    assert l'.txns[captureId] == c;
    TotalExtended(l, l', newId, txn, {}, a, ActiveHolds, captureId);
    TotalExtended(l, l', newId, txn, {}, a, Captures, captureId);
    TotalExtended(l, l', newId, txn, {}, a, Refunds, captureId);
    TotalExtended(l, l', newId, txn, {}, a, Unrefunded, captureId);
  }

  lemma RefundConserves(l: Ledger, captureId: string, amount: int, newId: string, opening: map<string, int>)
    requires LedgerOk(l) && Conserved(l, opening)
    ensures Conserved(Refund(l, captureId, amount, newId).0, opening)
  {
    hide Total, Extended;
    RefundExtends(l, captureId, amount, newId);
    var (l', reply) := Refund(l, captureId, amount, newId);
    if reply.RefundMade? {
      assert TxnOk(l, captureId);
      hide Refund, LedgerOk;
      forall a | a in l'.accounts ensures a in opening && AccountConserved(l', a, opening[a]) {
        assert a in l.accounts && AccountConserved(l, a, opening[a]);
        RefundTotals(l, l', captureId, newId, a);
      }
    }
  }

  /** Whatever the request, money is conserved. */
  lemma HandleConserves(l: Ledger, now: Time, today: YearMonth, holdFor: int, request: Request, newId: string,
                        opening: map<string, int>)
    requires LedgerOk(l) && Conserved(l, opening)
    ensures Conserved(Handle(l, now, today, holdFor, request, newId).0, opening)
  {
    hide Authorize, Capture, Void, Refund, LedgerOk, Conserved;
    match request
    case AuthorizeRequest(number, cvv, _, _, amount) =>
      AuthorizeConserves(l, now, today, holdFor, number, cvv, amount, newId, opening);
    case CaptureRequest(holdId, amount) => CaptureConserves(l, now, holdId, amount, newId, opening);
    case VoidRequest(holdId) => VoidConserves(l, holdId, newId, opening);
    case RefundRequest(captureId, amount) => RefundConserves(l, captureId, amount, newId, opening);
  }

  /** Both balances stay between zero and the opening balance, so 64-bit balances cannot overflow. */
  lemma ConservedBounds(l: Ledger, account: string, opening: int)
    requires LedgerOk(l) && account in l.accounts && AccountConserved(l, account, opening)
    ensures 0 <= l.accounts[account].available <= l.accounts[account].balance <= opening
  {
    TotalNonNegative(l, account, ActiveHolds);
    TotalNonNegative(l, account, Unrefunded);
  }
}
