/** What holds in every reachable state: one debit per payment, agreement of gateway and bank, stable bank calls. */
module Safety {
  import opened Text
  import opened Domain
  import opened Commands
  import opened Fingerprints
  import opened Loading
  import opened Bank
  import opened Client
  import opened Protocol
  import opened Invariants
  import opened WorkerSteps
  import opened BankSteps
  import opened Runs

  ghost predicate Reachable(cfg: Config, s: State) {
    exists run: seq<State> :: IsRun(cfg, run) && s == run[|run| - 1]
  }

  lemma ReachableIsInv(cfg: Config, s: State)
    requires ValidConfig(cfg) && Reachable(cfg, s)
    ensures Inv(cfg, s)
  {
    hide Inv, ValidConfig, Init, Next;
    var run: seq<State> :| IsRun(cfg, run) && s == run[|run| - 1];
    ReachableInv(cfg, run, |run| - 1);
  }

  /** The bank's entries of a kind that calls for a payment produced. */
  function Entries(s: State, kind: TxnKind, paymentId: string): set<string> {
    set t | t in s.ledger.txns && MadeFor(BooksOf(s), t, kind, paymentId)
  }

  // ---- One debit per payment ----

  /** Where a ledger entry comes from: a call for a known payment, whose body the payment fixed. */
  lemma EntryCall(cfg: Config, s: State, t: string)
    requires Inv(cfg, s) && t in s.ledger.txns
    ensures t in s.origin && s.origin[t] < |s.calls|
    ensures Produced(s.calls[s.origin[t]], s.ledger.txns[t]) && TxnOk(s.ledger, t)
    ensures CallOk(cfg, s.db.payments, s.pins, s.calls[s.origin[t]])
  {
    hide Rows, Pinned, PinNames, Calls, Replies, RowsAgree, WorkersAgree, Identities, Workers, Records, Trails,
         Produced, TxnOk, CallOk;
    assert OriginOk(s.ledger.txns, s.origin, s.calls, t);
    CallAt(cfg, s.db.payments, s.pins, s.calls, s.origin[t]);
  }

  lemma EntryOfPayment(cfg: Config, s: State, t: string)
    requires Inv(cfg, s) && t in s.ledger.txns
    ensures t in s.origin && s.origin[t] < |s.calls|
    ensures var id := s.calls[s.origin[t]].paymentId;
            id in s.db.payments && TxnFits(s.db.payments[id], s.ledger.txns[t]) && TxnOk(s.ledger, t)
  {
    hide Inv, AcceptedCard, CardText;
    EntryCall(cfg, s, t);
  }

  /** Entries of one kind that refer to one target are one entry. */
  lemma SameTargetSameEntry(l: Ledger, a: string, b: string)
    requires a in l.txns && b in l.txns && TxnOk(l, a) && TxnOk(l, b)
    requires l.txns[a].kind == l.txns[b].kind != HoldTxn && l.txns[a].reference == l.txns[b].reference
    ensures a == b
  {
  }

  /** At most one debit and one credit: all entries of a kind for a payment, other than holds, are one entry. */
  lemma OneEntryPerPayment(cfg: Config, s: State, kind: TxnKind, id: string, a: string, b: string)
    requires Inv(cfg, s) && kind != HoldTxn && a in Entries(s, kind, id) && b in Entries(s, kind, id)
    ensures a == b
  {
    hide Inv, TxnOk;
    EntryOfPayment(cfg, s, a);
    EntryOfPayment(cfg, s, b);
    SameTargetSameEntry(s.ledger, a, b);
  }

  lemma AtMostOne(a: set<string>)
    requires forall x, y :: x in a && y in a ==> x == y
    ensures |a| <= 1
  {
    if x :| x in a {
      assert a == {x};
    }
  }

  lemma EntriesAtMostOne(cfg: Config, s: State, kind: TxnKind, id: string)
    requires Inv(cfg, s) && kind != HoldTxn
    ensures |Entries(s, kind, id)| <= 1
  {
    hide Inv, Entries;
    forall a, b | a in Entries(s, kind, id) && b in Entries(s, kind, id) ensures a == b {
      OneEntryPerPayment(cfg, s, kind, id, a, b);
    }
    AtMostOne(Entries(s, kind, id));
  }

  lemma EntriesFit(cfg: Config, s: State, kind: TxnKind, id: string)
    requires Inv(cfg, s)
    ensures forall t :: t in Entries(s, kind, id) ==>
              && t in s.ledger.txns && s.ledger.txns[t].kind == kind
              && id in s.db.payments && TxnFits(s.db.payments[id], s.ledger.txns[t])
  {
    hide Inv, TxnOk, TxnFits;
    forall t | t in Entries(s, kind, id) ensures id in s.db.payments && TxnFits(s.db.payments[id], s.ledger.txns[t]) {
      EntryOfPayment(cfg, s, t);
    }
  }

  lemma RefundsOfDebits(cfg: Config, s: State, id: string, t: string)
    requires Inv(cfg, s) && id in s.db.payments && t in Entries(s, RefundTxn, id)
    ensures t in s.ledger.txns && s.ledger.txns[t].reference in Entries(s, CaptureTxn, id)
  {
    hide Inv, TxnOk;
    EntryOfPayment(cfg, s, t);
    RowAgrees(cfg, s, id);
  }

  /**
   * In every reachable state a payment has caused at most one debit, of exactly its own amount and on its stored
   * hold, and at most one refund, of that debit and of the same amount.
   */
  lemma AtMostOneDebit(cfg: Config, s: State, id: string)
    requires ValidConfig(cfg) && Reachable(cfg, s) && id in s.db.payments
    ensures |Entries(s, CaptureTxn, id)| <= 1 && |Entries(s, RefundTxn, id)| <= 1
    ensures forall t :: t in Entries(s, CaptureTxn, id) ==>
              && t in s.ledger.txns && s.ledger.txns[t].amount == s.db.payments[id].amount
              && s.ledger.txns[t].reference == s.db.payments[id].holdId
    ensures forall t :: t in Entries(s, RefundTxn, id) ==>
              && t in s.ledger.txns && s.ledger.txns[t].amount == s.db.payments[id].amount
              && s.ledger.txns[t].reference in Entries(s, CaptureTxn, id)
  {
    hide Inv, ValidConfig, Reachable, Entries;
    ReachableIsInv(cfg, s);
    EntriesAtMostOne(cfg, s, CaptureTxn, id);
    EntriesAtMostOne(cfg, s, RefundTxn, id);
    EntriesFit(cfg, s, CaptureTxn, id);
    EntriesFit(cfg, s, RefundTxn, id);
    forall t | t in Entries(s, RefundTxn, id) ensures s.ledger.txns[t].reference in Entries(s, CaptureTxn, id) {
      RefundsOfDebits(cfg, s, id, t);
    }
  }

  lemma RowAgrees(cfg: Config, s: State, id: string)
    requires Inv(cfg, s) && id in s.db.payments
    ensures Agrees(BooksOf(s), s.db.payments[id]) && s.db.payments[id].id == id
  {
    hide Rows, Pinned, PinNames, Calls, LedgerOk, Origins, Replies, WorkersAgree, Identities, Workers, Records, Trails,
         Agrees, WellFormed;
    RowAt(s.db.payments, id);
  }

  /** Every debit in the ledger belongs to a payment, so distinct debits belong to distinct payments. */
  lemma DebitsHavePayments(cfg: Config, s: State, t: string)
    requires ValidConfig(cfg) && Reachable(cfg, s) && t in s.ledger.txns && s.ledger.txns[t].kind == CaptureTxn
    ensures exists id :: id in s.db.payments && Entries(s, CaptureTxn, id) == {t}
  {
    hide Inv, ValidConfig, Reachable, TxnOk, Entries;
    ReachableIsInv(cfg, s);
    EntryOfPayment(cfg, s, t);
    OnlyEntry(cfg, s, CaptureTxn, s.calls[s.origin[t]].paymentId, t);
  }

  // ---- Gateway and bank agree ----

  /** What a payment's status means at the bank. */
  predicate MeansAtBank(s: State, p: Payment) {
    var debits, credits := Entries(s, CaptureTxn, p.id), Entries(s, RefundTxn, p.id);
    var voids := Entries(s, VoidTxn, p.id);
    && (debits == {} || voids == {})
    && (p.status == Pending || p.status == Declined ==> debits == {} && voids == {} && credits == {})
    && (HasHold(p.status) ==>
          && p.holdId in Entries(s, HoldTxn, p.id) && s.ledger.txns[p.holdId].amount == p.amount
          && s.ledger.txns[p.holdId].expiresAt == p.expiresAt)
    && (p.status == Authorized ==> credits == {})
    && (p.status == Captured ==> debits == {p.captureId} && voids == {})
    && (p.status == Refunded ==> debits == {p.captureId} && voids == {} && credits == {p.refundId})
    && (p.status == Voided ==> debits == {} && voids == {p.voidId} && credits == {})
    && (p.status == Expired ==> debits == {} && credits == {})
  }

  lemma NoEntries(cfg: Config, s: State, kind: TxnKind, id: string)
    requires Inv(cfg, s) && id in s.db.payments
    requires kind == CaptureTxn || kind == VoidTxn ==>
               HasHold(s.db.payments[id].status) ==> Ref(s.db.payments[id].holdId, kind) !in s.ledger.index
    requires kind == RefundTxn ==> !HasCapture(s.db.payments[id].status)
    requires kind != HoldTxn
    ensures Entries(s, kind, id) == {}
  {
    hide Inv;
    forall t | t in Entries(s, kind, id) ensures false {
      EntryOfPayment(cfg, s, t);
    }
  }

  lemma OnlyEntry(cfg: Config, s: State, kind: TxnKind, id: string, t: string)
    requires Inv(cfg, s) && kind != HoldTxn && MadeFor(BooksOf(s), t, kind, id)
    ensures Entries(s, kind, id) == {t}
  {
    hide Inv;
    assert t in Entries(s, kind, id);
    forall x | x in Entries(s, kind, id) ensures x == t {
      OneEntryPerPayment(cfg, s, kind, id, x, t);
    }
  }

  /** A hold is captured or voided, never both; a use of it shows in the index. */
  lemma HoldUsedOnce(cfg: Config, s: State, h: string)
    requires Inv(cfg, s) && h in s.ledger.txns && s.ledger.txns[h].kind == HoldTxn
    ensures !(Ref(h, CaptureTxn) in s.ledger.index && Ref(h, VoidTxn) in s.ledger.index)
  {
    hide Inv;
    EntryOfPayment(cfg, s, h);
  }

  lemma UseShows(cfg: Config, s: State, t: string)
    requires Inv(cfg, s) && t in s.ledger.txns && s.ledger.txns[t].kind != HoldTxn
    ensures Ref(s.ledger.txns[t].reference, s.ledger.txns[t].kind) in s.ledger.index
  {
    hide Inv;
    EntryOfPayment(cfg, s, t);
  }

  /** A payment never has both a debit and a void: they would use one hold. */
  lemma DebitOrVoid(cfg: Config, s: State, id: string)
    requires Inv(cfg, s) && id in s.db.payments
    ensures Entries(s, CaptureTxn, id) == {} || Entries(s, VoidTxn, id) == {}
  {
    hide Inv, Entries;
    EntriesFit(cfg, s, CaptureTxn, id);
    EntriesFit(cfg, s, VoidTxn, id);
    if c, v :| c in Entries(s, CaptureTxn, id) && v in Entries(s, VoidTxn, id) {
      UseShows(cfg, s, c);
      UseShows(cfg, s, v);
      RowAgrees(cfg, s, id);
      HoldUsedOnce(cfg, s, s.db.payments[id].holdId);
    }
  }

  /** In every reachable state the gateway's status of a payment is true at the bank. */
  lemma GatewayAndBankAgree(cfg: Config, s: State, id: string)
    requires ValidConfig(cfg) && Reachable(cfg, s) && id in s.db.payments
    ensures s.db.payments[id].id == id && MeansAtBank(s, s.db.payments[id])
  {
    hide Inv, ValidConfig, Reachable, Entries;
    ReachableIsInv(cfg, s);
    RowAgrees(cfg, s, id);
    var p := s.db.payments[id];
    HoldEntries(s, id);
    if HasHold(p.status) { HoldUsedOnce(cfg, s, p.holdId); }
    DebitOrVoid(cfg, s, id);
    match p.status
    case Pending =>
      NoEntries(cfg, s, CaptureTxn, id);
      NoEntries(cfg, s, VoidTxn, id);
      NoEntries(cfg, s, RefundTxn, id);
    case Declined =>
      NoEntries(cfg, s, CaptureTxn, id);
      NoEntries(cfg, s, VoidTxn, id);
      NoEntries(cfg, s, RefundTxn, id);
    case Authorized => NoEntries(cfg, s, RefundTxn, id);
    case Captured =>
      OnlyEntry(cfg, s, CaptureTxn, id, p.captureId);
      UseShows(cfg, s, p.captureId);
      NoEntries(cfg, s, VoidTxn, id);
    case Refunded =>
      OnlyEntry(cfg, s, CaptureTxn, id, p.captureId);
      UseShows(cfg, s, p.captureId);
      NoEntries(cfg, s, VoidTxn, id);
      OnlyEntry(cfg, s, RefundTxn, id, p.refundId);
    case Voided =>
      OnlyEntry(cfg, s, VoidTxn, id, p.voidId);
      UseShows(cfg, s, p.voidId);
      NoEntries(cfg, s, CaptureTxn, id);
      NoEntries(cfg, s, RefundTxn, id);
    case Expired =>
      NoEntries(cfg, s, CaptureTxn, id);
      NoEntries(cfg, s, RefundTxn, id);
  }

  lemma HoldEntries(s: State, id: string)
    ensures forall h :: h in Entries(s, HoldTxn, id) <==> MadeFor(BooksOf(s), h, HoldTxn, id)
  {
  }

  /** The bank entries that a row names, as its status means them. */
  function Named(p: Payment): set<string> {
    (if HasHold(p.status) then {p.holdId} else {}) + (if HasCapture(p.status) then {p.captureId} else {})
    + (if p.status == Voided then {p.voidId} else {}) + (if p.status == Refunded then {p.refundId} else {})
  }

  /** All bank entries that calls for a payment produced. */
  function AllEntries(s: State, id: string): set<string> {
    Entries(s, HoldTxn, id) + Entries(s, CaptureTxn, id) + Entries(s, VoidTxn, id) + Entries(s, RefundTxn, id)
  }

  lemma NamedAreOwn(cfg: Config, s: State, id: string)
    requires Inv(cfg, s) && id in s.db.payments
    ensures Named(s.db.payments[id]) <= AllEntries(s, id)
  {
    hide Inv;
    RowAgrees(cfg, s, id);
  }

  /**
   * The bank may answer one call from another call's cache entry, and yet the hold, capture, void and refund that a row
   * names were made for that row's payment: no other row names any of them, and no call for another payment made them.
   */
  lemma NothingShared(cfg: Config, s: State, id: string, other: string)
    requires ValidConfig(cfg) && Reachable(cfg, s) && id in s.db.payments && other in s.db.payments && id != other
    ensures Named(s.db.payments[id]) !! Named(s.db.payments[other])
    ensures Named(s.db.payments[id]) <= AllEntries(s, id) && Named(s.db.payments[id]) !! AllEntries(s, other)
  {
    hide Inv, ValidConfig, Reachable;
    ReachableIsInv(cfg, s);
    NamedAreOwn(cfg, s, id);
    NamedAreOwn(cfg, s, other);
    EntriesDiffer(s, id, other);
    hide Named, AllEntries;
  }

  lemma EntriesDiffer(s: State, id: string, other: string)
    requires id != other
    ensures AllEntries(s, id) !! AllEntries(s, other)
  {
  }

  // ---- Expired payments ----

  /** Once a payment is recorded as expired it stays so, and its hold is not captured in any continuation. */
  lemma ExpiredNeverCaptured(cfg: Config, run: seq<State>, i: nat, j: nat, id: string)
    requires ValidConfig(cfg) && IsRun(cfg, run) && i <= j < |run|
    requires id in run[i].db.payments && run[i].db.payments[id].status == Expired
    ensures id in run[j].db.payments && run[j].db.payments[id].status == Expired
    ensures run[j].db.payments[id].holdId == run[i].db.payments[id].holdId
    ensures Ref(run[i].db.payments[id].holdId, CaptureTxn) !in run[j].ledger.index
    ensures Entries(run[j], CaptureTxn, id) == {}
  {
    hide Inv, ValidConfig, IsRun, Entries;
    ReachableInv(cfg, run, i);
    ReachableInv(cfg, run, j);
    RunLater(cfg, run, i, j);
    RowAgrees(cfg, run[i], id);
    var h := run[i].db.payments[id].holdId;
    assert Behind(run[i].db.payments[id], run[j].db.payments[id]);
    assert Lapsed(BooksOf(run[j]), h);
    NoEntries(cfg, run[j], CaptureTxn, id);
  }

  // ---- Bank calls ----

  /** Two bodies that ask for the same thing; a card's security code is not compared. */
  predicate SameBody(a: Request, b: Request) {
    if a.AuthorizeRequest? then
      b.AuthorizeRequest? && a.number == b.number && a.month == b.month && a.year == b.year && a.amount == b.amount
    else a == b
  }

  /** All calls for one operation of one payment carry one key, and calls that carry one key have one body. */
  lemma OneKeyOneBody(cfg: Config, s: State, i: nat, j: nat)
    requires ValidConfig(cfg) && Reachable(cfg, s) && i < |s.calls| && j < |s.calls|
    ensures s.calls[i].paymentId == s.calls[j].paymentId && s.calls[i].op == s.calls[j].op <==>
            s.calls[i].key == s.calls[j].key
    ensures s.calls[i].key == s.calls[j].key ==> SameBody(s.calls[i].request, s.calls[j].request)
  {
    ReachableIsInv(cfg, s);
    hide Rows, Pinned, PinNames, Calls, LedgerOk, Origins, Replies, RowsAgree, WorkersAgree, Identities, Workers,
         Records, Trails, Reachable, ValidConfig, BodyFits, SameBody;
    var a, b := s.calls[i], s.calls[j];
    CallAt(cfg, s.db.payments, s.pins, s.calls, i);
    CallAt(cfg, s.db.payments, s.pins, s.calls, j);
    if a.key == b.key {
      SameKeySamePayment(cfg, s.db.payments, s.pins, s.issued, a, b);
      FixedBody(cfg, s.db.payments[a.paymentId], a, b);
    }
  }

  lemma FixedBody(cfg: Config, row: Payment, a: Call, b: Call)
    requires ValidConfig(cfg) && a.op == b.op && BodyFits(cfg, row, a) && BodyFits(cfg, row, b)
    ensures SameBody(a.request, b.request)
  {
    hide AcceptedCard, CardText, Clean;
    if a.op == BankAuthorize {
      var r, q := a.request, b.request;
      CardTextDecodes(Card(r.number, r.cvv, r.month, r.year), Card(q.number, q.cvv, q.month, q.year));
    }
  }

  // ---- Rows ----

  /** Every reachable row loads back as the payment that was stored. */
  lemma RowsLoadBack(cfg: Config, s: State, id: string)
    requires ValidConfig(cfg) && Reachable(cfg, s) && id in s.db.payments
    ensures LoadPayment(Columns(ToRow(s.db.payments[id]))) == Ok(s.db.payments[id])
  {
    ReachableIsInv(cfg, s);
    hide Pinned, PinNames, Calls, LedgerOk, Origins, Replies, RowsAgree, WorkersAgree, Identities, Workers, Records,
         Trails, Reachable, ValidConfig, WellFormed, LoadPayment, Columns, ToRow, Rows;
    RowAt(s.db.payments, id);
    WellFormedLoads(s.db.payments[id]);
  }
}
