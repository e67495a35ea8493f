/** The inductive invariant of the payment command protocol, and how its parts survive change elsewhere. */
module Invariants {
  import opened Text
  import opened Domain
  import opened Errors
  import opened Commands
  import opened Store
  import opened Bank
  import opened Client
  import opened Protocol

  // ---- Payments over time ----

  predicate SameIdentity(a: Payment, b: Payment) {
    && a.id == b.id && a.orderId == b.orderId && a.customerId == b.customerId && a.amount == b.amount
    && a.currency == b.currency && a.authKey == b.authKey && a.cardFingerprint == b.cardFingerprint
    && a.createdAt == b.createdAt
  }

  predicate HasHold(s: Status) {
    s != Pending && s != Declined
  }

  predicate HasCapture(s: Status) {
    s == Captured || s == Refunded
  }

  /** An earlier value of a payment against a later one: identity stays, the status advances, bank results stay. */
  predicate Behind(p: Payment, q: Payment) {
    && SameIdentity(p, q) && Reaches(p.status, q.status)
    && (HasHold(p.status) ==> p.holdId == q.holdId && p.expiresAt == q.expiresAt)
    && (HasCapture(p.status) ==> p.captureId == q.captureId && p.captureKey == q.captureKey)
    && (p.status == q.status ==>
          && p.expiresAt == q.expiresAt && p.declineReason == q.declineReason && p.updatedAt == q.updatedAt
          && KeysKept(p, q))
  }

  predicate KeysKept(p: Payment, q: Payment) {
    && (p.captureKey != "" ==> q.captureKey == p.captureKey)
    && (p.voidKey != "" ==> q.voidKey == p.voidKey)
    && (p.refundKey != "" ==> q.refundKey == p.refundKey)
  }

  lemma BehindTransitive(p: Payment, q: Payment, r: Payment)
    requires Behind(p, q) && Behind(q, r)
    ensures Behind(p, r)
  {
  }

  ghost predicate Advance(payments: map<string, Payment>, payments': map<string, Payment>) {
    forall id {:trigger payments'[id]} {:trigger payments[id]} :: id in payments ==>
      id in payments' && Behind(payments[id], payments'[id])
  }

  ghost predicate PinsGrow(pins: map<PinKey, string>, pins': map<PinKey, string>) {
    forall k {:trigger pins'[k]} {:trigger pins[k]} :: k in pins ==> k in pins' && pins'[k] == pins[k]
  }

  // ---- Rows ----

  predicate RowOk(payments: map<string, Payment>, id: string)
    requires id in payments
  {
    payments[id].id == id && WellFormed(payments[id])
  }

  ghost predicate Rows(payments: map<string, Payment>) {
    forall id {:trigger RowOk(payments, id)} :: id in payments ==> RowOk(payments, id)
  }

  // ---- Pinned operation keys ----

  predicate IsPinned(pins: map<PinKey, string>, id: string, op: BankOp, key: string) {
    PinKey(id, op) in pins && pins[PinKey(id, op)] == key
  }

  /** Every operation key on the payment is the one first pinned for its operation. */
  predicate KeysPinned(pins: map<PinKey, string>, p: Payment) {
    && IsPinned(pins, p.id, BankAuthorize, p.authKey)
    && (p.captureKey != "" ==> IsPinned(pins, p.id, BankCapture, p.captureKey))
    && (p.voidKey != "" ==> IsPinned(pins, p.id, BankVoid, p.voidKey))
    && (p.refundKey != "" ==> IsPinned(pins, p.id, BankRefund, p.refundKey))
  }

  /** No pinned key of an operation that is still possible is missing from the row. */
  predicate NoKeyLost(pins: map<PinKey, string>, p: Payment) {
    && (p.status == Pending ==> PinKey(p.id, BankCapture) !in pins && PinKey(p.id, BankVoid) !in pins)
    && (p.status == Pending || p.status == Authorized ==> PinKey(p.id, BankRefund) !in pins)
    && (p.status == Authorized && PinKey(p.id, BankCapture) in pins ==> p.captureKey == pins[PinKey(p.id, BankCapture)])
    && (p.status == Authorized && PinKey(p.id, BankVoid) in pins ==> p.voidKey == pins[PinKey(p.id, BankVoid)])
    && (p.status == Captured && PinKey(p.id, BankRefund) in pins ==> p.refundKey == pins[PinKey(p.id, BankRefund)])
  }

  predicate PinOk(payments: map<string, Payment>, pins: map<PinKey, string>, id: string)
    requires id in payments
  {
    KeysPinned(pins, payments[id]) && NoKeyLost(pins, payments[id])
  }

  ghost predicate Pinned(payments: map<string, Payment>, pins: map<PinKey, string>) {
    forall id {:trigger PinOk(payments, pins, id)} :: id in payments ==> PinOk(payments, pins, id)
  }

  /** Pinned keys are names that were drawn, one per bank operation of a known payment. */
  ghost predicate PinNames(payments: map<string, Payment>, pins: map<PinKey, string>, issued: set<string>) {
    && (forall k {:trigger pins[k]} :: k in pins ==> k.paymentId in payments && pins[k] in issued && pins[k] != "")
    && (forall j, k {:trigger pins[j], pins[k]} :: j in pins && k in pins && pins[j] == pins[k] ==> j == k)
    && (forall id {:trigger payments[id]} :: id in payments ==> id in issued)
  }

  // ---- Bank calls ----

  /** The call's body is fixed by its payment. */
  predicate BodyFits(cfg: Config, row: Payment, call: Call) {
    match call.op
    case BankAuthorize =>
      && call.request.AuthorizeRequest? && call.request.amount == row.amount
      && var r := call.request;
         var card := Card(r.number, r.cvv, r.month, r.year);
         AcceptedCard(card) && cfg.mac(CardText(card)) == row.cardFingerprint
    case BankCapture => HasHold(row.status) && call.request == CaptureRequest(row.holdId, row.amount)
    case BankVoid => HasHold(row.status) && call.request == VoidRequest(row.holdId)
    case BankRefund => HasCapture(row.status) && call.request == RefundRequest(row.captureId, row.amount)
  }

  predicate CallOk(cfg: Config, payments: map<string, Payment>, pins: map<PinKey, string>, call: Call) {
    && call.paymentId in payments
    && IsPinned(pins, call.paymentId, call.op, call.key)
    && BodyFits(cfg, payments[call.paymentId], call)
  }

  ghost predicate Calls(cfg: Config, payments: map<string, Payment>, pins: map<PinKey, string>, calls: seq<Call>) {
    forall i {:trigger calls[i]} :: 0 <= i < |calls| ==> CallOk(cfg, payments, pins, calls[i])
  }

  // ---- The bank ----

  /** The ledger entry is what the call asked for. */
  predicate Produced(call: Call, t: Txn) {
    match t.kind
    case HoldTxn =>
      && call.op == BankAuthorize && call.request.AuthorizeRequest?
      && call.request.number == t.account && call.request.amount == t.amount
    case CaptureTxn => call.op == BankCapture && call.request == CaptureRequest(t.reference, t.amount)
    case VoidTxn => call.op == BankVoid && call.request == VoidRequest(t.reference)
    case RefundTxn => call.op == BankRefund && call.request == RefundRequest(t.reference, t.amount)
  }

  predicate OriginOk(txns: map<string, Txn>, origin: map<string, nat>, calls: seq<Call>, id: string)
    requires id in txns
  {
    Clean(id) && id in origin && origin[id] < |calls| && Produced(calls[origin[id]], txns[id])
  }

  ghost predicate Origins(txns: map<string, Txn>, origin: map<string, nat>, calls: seq<Call>) {
    && origin.Keys == txns.Keys
    && forall id {:trigger OriginOk(txns, origin, calls, id)} :: id in txns ==> OriginOk(txns, origin, calls, id)
  }

  /** The bank's books as the gateway's claims about them see them. */
  datatype Books = Books(ledger: Ledger, now: Time, origin: map<string, nat>, calls: seq<Call>)

  function BooksOf(s: State): Books {
    Books(s.ledger, s.bankNow, s.origin, s.calls)
  }

  /** A ledger entry of a kind, made by a call for a payment. */
  predicate MadeFor(b: Books, id: string, kind: TxnKind, paymentId: string) {
    && id in b.ledger.txns && b.ledger.txns[id].kind == kind
    && id in b.origin && b.origin[id] < |b.calls| && b.calls[b.origin[id]].paymentId == paymentId
  }

  /** An uncaptured hold whose time is over. */
  predicate Lapsed(b: Books, holdId: string) {
    holdId in b.ledger.txns && b.now > b.ledger.txns[holdId].expiresAt && Ref(holdId, CaptureTxn) !in b.ledger.index
  }

  /** What a reply to a call says about the books. */
  predicate ReplyOk(b: Books, call: Call, reply: Reply) {
    match reply
    case Approved(id, expiresAt) =>
      && call.op == BankAuthorize && MadeFor(b, id, HoldTxn, call.paymentId)
      && b.ledger.txns[id].expiresAt == expiresAt && Clean(id)
    case CaptureMade(id) => call.op == BankCapture && MadeFor(b, id, CaptureTxn, call.paymentId) && Clean(id)
    case VoidMade(id) => call.op == BankVoid && MadeFor(b, id, VoidTxn, call.paymentId) && Clean(id)
    case RefundMade(id) => call.op == BankRefund && MadeFor(b, id, RefundTxn, call.paymentId) && Clean(id)
    case Refused(code) =>
      code == AuthExpired ==> call.op == BankCapture && call.request.CaptureRequest? && Lapsed(b, call.request.holdId)
    case ServerError => true
  }

  predicate StageOk(b: Books, stages: seq<Stage>, c: nat)
    requires c < |stages| == |b.calls|
  {
    HasReply(stages[c]) ==> ReplyOk(b, b.calls[c], stages[c].reply)
  }

  predicate EntryOk(b: Books, cache: map<CacheKey, Entry>, k: CacheKey)
    requires k in cache
  {
    var e := cache[k];
    && e.call < |b.calls| && b.calls[e.call].key == k.key && b.calls[e.call].op == k.op
    && IsSuccess(e.reply) && ReplyOk(b, b.calls[e.call], e.reply)
  }

  ghost predicate Replies(b: Books, stages: seq<Stage>, cache: map<CacheKey, Entry>) {
    && |stages| == |b.calls|
    && (forall c {:trigger StageOk(b, stages, c)} :: 0 <= c < |stages| ==> StageOk(b, stages, c))
    && (forall k {:trigger EntryOk(b, cache, k)} :: k in cache ==> EntryOk(b, cache, k))
  }

  // ---- Agreement of a payment with the books ----

  /** What each status claims about the bank. */
  predicate Agrees(b: Books, p: Payment) {
    && (HasHold(p.status) ==>
          && MadeFor(b, p.holdId, HoldTxn, p.id)
          && b.ledger.txns[p.holdId].amount == p.amount && b.ledger.txns[p.holdId].expiresAt == p.expiresAt)
    && (HasCapture(p.status) ==>
          && MadeFor(b, p.captureId, CaptureTxn, p.id)
          && b.ledger.txns[p.captureId].reference == p.holdId && b.ledger.txns[p.captureId].amount == p.amount)
    && (p.status == Voided ==>
          MadeFor(b, p.voidId, VoidTxn, p.id) && b.ledger.txns[p.voidId].reference == p.holdId)
    && (p.status == Refunded ==>
          && MadeFor(b, p.refundId, RefundTxn, p.id)
          && b.ledger.txns[p.refundId].reference == p.captureId && b.ledger.txns[p.refundId].amount == p.amount)
    && (p.status == Expired ==> Lapsed(b, p.holdId))
  }

  ghost predicate RowsAgree(b: Books, payments: map<string, Payment>) {
    forall id {:trigger payments[id]} :: id in payments ==> Agrees(b, payments[id])
  }

  /** The snapshots and the prepared transitions of a worker agree with the books too. */
  predicate WorkerAgrees(b: Books, w: Worker) {
    && (Holds(w) ==> Agrees(b, w.phase.before))
    && (w.phase.Completing? ==> Agrees(b, w.phase.after))
  }

  ghost predicate WorkersAgree(b: Books, workers: map<nat, Worker>) {
    forall w {:trigger workers[w]} :: w in workers ==> WorkerAgrees(b, workers[w])
  }

  // ---- Workers ----

  /** The payment is the one the worker's command is about. */
  predicate ClaimMatches(w: Worker, p: Payment) {
    match w.cmd
    case Authorize(orderId, customerId, amount, _, _) =>
      && p.orderId + "\n" + p.customerId == orderId + "\n" + customerId
      && p.amount == amount && p.cardFingerprint == w.cardFingerprint
    case Retry(id, _, _) => p.id == id && p.cardFingerprint == w.cardFingerprint
    case Capture(id, _) => p.id == id
    case Void(id, _) => p.id == id
    case Refund(id, _) => p.id == id
  }

  /** One persisted transition: its edge, and the fields that survive it. */
  predicate Moved(p: Payment, q: Payment) {
    && SameIdentity(p, q) && Edge(p.status, q.status)
    && (HasHold(p.status) ==> p.holdId == q.holdId && p.expiresAt == q.expiresAt)
    && (HasCapture(p.status) ==> p.captureId == q.captureId && p.captureKey == q.captureKey)
    && (q.captureKey != "" ==> q.captureKey == p.captureKey)
    && (q.voidKey != "" ==> q.voidKey == p.voidKey)
    && (q.refundKey != "" ==> q.refundKey == p.refundKey)
  }

  /** What a command may persist: a transition, or the unknown outcome of an authorization. */
  predicate Prepared(op: Op, p: Payment, q: Payment, failure: Option<ErrorKind>) {
    && WellFormed(q)
    && (Moved(p, q) || (p == q && op == AuthorizeOp))
    && failure == (if q.status == Expired then Some(AuthorizationExpired) else None)
    && (q.status == Expired ==> op == CaptureOp || op == VoidOp)
  }

  predicate Snapshot(payments: map<string, Payment>, pins: map<PinKey, string>, w: Worker, p: Payment) {
    && p.id in payments && WellFormed(p) && p.status == ExpectedStatus(OpOf(w.cmd))
    && Behind(p, payments[p.id]) && KeysPinned(pins, p) && KeyFor(OpOf(w.cmd), p) != "" && ClaimMatches(w, p)
  }

  predicate WorkerOk(payments: map<string, Payment>, pins: map<PinKey, string>, calls: seq<Call>, w: Worker) {
    && (Holds(w) ==> Snapshot(payments, pins, w, w.phase.before))
    && (w.phase.Awaiting? ==> w.phase.call < |calls| && calls[w.phase.call] == CallOf(w.cmd, w.phase.before))
    && (w.phase.Completing? ==> Prepared(OpOf(w.cmd), w.phase.before, w.phase.after, w.phase.failure))
  }

  ghost predicate Workers(payments: map<string, Payment>, pins: map<PinKey, string>, calls: seq<Call>,
                          workers: map<nat, Worker>)
  {
    forall w {:trigger workers[w]} :: w in workers ==> WorkerOk(payments, pins, calls, workers[w])
  }

  /** A worker carries the fingerprints of its own accepted command. */
  predicate Identified(cfg: Config, now: Time, w: Worker) {
    && Accepted(w.cmd) && w.fingerprint == cfg.mac(RequestText(w.cmd))
    && w.cardFingerprint == (if w.cmd.Authorize? || w.cmd.Retry? then cfg.mac(CardText(w.cmd.card)) else "")
    && NO_TIME < w.start <= now
  }

  ghost predicate Identities(cfg: Config, now: Time, workers: map<nat, Worker>) {
    forall w {:trigger Identified(cfg, now, workers[w])} :: w in workers ==> Identified(cfg, now, workers[w])
  }

  // ---- Idempotency records ----

  /** The lease history of one record: each owner took over at least `stuckAfter` after the one before. */
  predicate Spaced(leases: seq<Lease>, stuckAfter: int) {
    forall i :: 0 <= i < |leases| - 1 ==> leases[i].at + stuckAfter <= leases[i + 1].at
  }

  function Owner(leases: seq<Lease>): Lease
    requires |leases| > 0
  {
    leases[|leases| - 1]
  }

  /** An answer shows the payment as it is, field by field. */
  predicate Shows(r: PaymentResult, p: Payment) {
    && r.id == p.id && r.orderId == p.orderId && r.customerId == p.customerId
    && r.amount == p.amount && r.currency == p.currency && r.status == p.status
    && r.declineReason == p.declineReason && r.expiresAt == p.expiresAt
    && r.createdAt == p.createdAt && r.updatedAt == p.updatedAt
  }

  /** An answer is about the payment: its identity, a status it has had, and all the rest while it still has it. */
  predicate Tells(r: PaymentResult, row: Payment) {
    && r.id == row.id && r.orderId == row.orderId && r.customerId == row.customerId
    && r.amount == row.amount && r.currency == row.currency && r.createdAt == row.createdAt
    && Reaches(r.status, row.status)
    && (HasHold(r.status) ==> r.expiresAt == row.expiresAt)
    && (r.status == row.status ==>
          r.declineReason == row.declineReason && r.expiresAt == row.expiresAt && r.updatedAt == row.updatedAt)
  }

  /** A stored outcome is coherent and its payment has only moved forward since. */
  predicate ResultFits(op: Op, row: Payment, result: CommandResult) {
    && Tells(result.payment, row)
    && result.failure == (if result.payment.status == Expired then Some(AuthorizationExpired) else None)
    && (result.payment.status == Expired ==> op == CaptureOp || op == VoidOp)
  }

  /** The record's latest owner made the request that the record stands for. */
  predicate OwnerOk(row: Payment, workers: map<nat, Worker>, k: RecordKey, rec: Record, lease: Lease) {
    && lease.at == rec.claimedAt && lease.worker in workers
    && KeyOf(workers[lease.worker]) == k && workers[lease.worker].fingerprint == rec.fingerprint
    && ClaimMatches(workers[lease.worker], row)
  }

  /**
   * An open record's payment can still be recovered, unless it has moved on. The payment in a stored outcome is the
   * one its completer worked on, which need not be the one the record was opened for.
   */
  predicate ProgressOk(payments: map<string, Payment>, op: Op, rec: Record) {
    match rec.progress
    case InProgress =>
      && rec.paymentId in payments && Reaches(ExpectedStatus(op), payments[rec.paymentId].status)
      && (payments[rec.paymentId].status == ExpectedStatus(op) ==> KeyFor(op, payments[rec.paymentId]) != "")
    case Completed(result, _) =>
      result.payment.id in payments && ResultFits(op, payments[result.payment.id], result)
  }

  predicate RecordOk(payments: map<string, Payment>, workers: map<nat, Worker>, records: map<RecordKey, Record>,
                     leases: map<RecordKey, seq<Lease>>, stuckAfter: int, k: RecordKey)
    requires k in records
  {
    && k in leases && |leases[k]| > 0 && Spaced(leases[k], stuckAfter)
    && records[k].paymentId in payments
    && OwnerOk(payments[records[k].paymentId], workers, k, records[k], Owner(leases[k]))
    && ProgressOk(payments, k.op, records[k])
  }

  ghost predicate Records(payments: map<string, Payment>, workers: map<nat, Worker>,
                          records: map<RecordKey, Record>, leases: map<RecordKey, seq<Lease>>, stuckAfter: int)
  {
    && leases.Keys == records.Keys
    && forall k {:trigger RecordOk(payments, workers, records, leases, stuckAfter, k)} :: k in records ==>
         RecordOk(payments, workers, records, leases, stuckAfter, k)
  }

  // ---- Status history ----

  /** Moves that lead, edge by edge, from a pending payment to `last`. */
  predicate IsPath(moves: seq<Move>, last: Status) {
    if moves == [] then last == Pending
    else
      var m := moves[|moves| - 1];
      m.target == last && Edge(m.source, m.target) && IsPath(moves[..|moves| - 1], m.source)
  }

  ghost predicate Trails(payments: map<string, Payment>, trail: map<string, seq<Move>>) {
    && trail.Keys == payments.Keys
    && forall id {:trigger trail[id]} :: id in trail ==> IsPath(trail[id], payments[id].status)
  }

  // ---- Reading one fact out of a part ----

  lemma RowAt(payments: map<string, Payment>, id: string)
    requires Rows(payments) && id in payments
    ensures payments[id].id == id && WellFormed(payments[id])
  {
    hide WellFormed;
    assert RowOk(payments, id);
  }

  lemma PinAt(payments: map<string, Payment>, pins: map<PinKey, string>, id: string)
    requires Pinned(payments, pins) && id in payments
    ensures KeysPinned(pins, payments[id]) && NoKeyLost(pins, payments[id])
  {
    assert PinOk(payments, pins, id);
  }

  lemma CallAt(cfg: Config, payments: map<string, Payment>, pins: map<PinKey, string>, calls: seq<Call>, i: nat)
    requires Calls(cfg, payments, pins, calls) && i < |calls|
    ensures CallOk(cfg, payments, pins, calls[i])
  {
    hide CallOk;
  }

  lemma StageAt(b: Books, stages: seq<Stage>, cache: map<CacheKey, Entry>, c: nat)
    requires Replies(b, stages, cache) && c < |b.calls|
    ensures |stages| == |b.calls| && (HasReply(stages[c]) ==> ReplyOk(b, b.calls[c], stages[c].reply))
  {
    hide ReplyOk;
    assert StageOk(b, stages, c);
  }

  lemma EntryAt(b: Books, stages: seq<Stage>, cache: map<CacheKey, Entry>, k: CacheKey)
    requires Replies(b, stages, cache) && k in cache
    ensures EntryOk(b, cache, k)
  {
    hide EntryOk;
  }

  lemma WorkerAt(payments: map<string, Payment>, pins: map<PinKey, string>, calls: seq<Call>,
                 workers: map<nat, Worker>, w: nat)
    requires Workers(payments, pins, calls, workers) && w in workers
    ensures WorkerOk(payments, pins, calls, workers[w])
  {
    hide WorkerOk;
  }

  lemma WorkerAgreesAt(b: Books, workers: map<nat, Worker>, w: nat)
    requires WorkersAgree(b, workers) && w in workers
    ensures WorkerAgrees(b, workers[w])
  {
    hide WorkerAgrees;
  }

  lemma IdentityAt(cfg: Config, now: Time, workers: map<nat, Worker>, w: nat)
    requires Identities(cfg, now, workers) && w in workers
    ensures Identified(cfg, now, workers[w])
  {
    hide Identified;
  }

  lemma RecordAt(payments: map<string, Payment>, workers: map<nat, Worker>, records: map<RecordKey, Record>,
                 leases: map<RecordKey, seq<Lease>>, stuckAfter: int, k: RecordKey)
    requires Records(payments, workers, records, leases, stuckAfter) && k in records
    ensures RecordOk(payments, workers, records, leases, stuckAfter, k)
  {
    hide RecordOk;
  }

  // ---- The whole invariant ----

  ghost predicate Inv(cfg: Config, s: State) {
    && s.now > NO_TIME
    && Rows(s.db.payments)
    && Pinned(s.db.payments, s.pins)
    && PinNames(s.db.payments, s.pins, s.issued)
    && Calls(cfg, s.db.payments, s.pins, s.calls)
    && LedgerOk(s.ledger)
    && Origins(s.ledger.txns, s.origin, s.calls)
    && Replies(BooksOf(s), s.stages, s.cache)
    && RowsAgree(BooksOf(s), s.db.payments)
    && WorkersAgree(BooksOf(s), s.workers)
    && Identities(cfg, s.now, s.workers)
    && Workers(s.db.payments, s.pins, s.calls, s.workers)
    && Records(s.db.payments, s.workers, s.db.records, s.leases, cfg.stuckAfter)
    && Trails(s.db.payments, s.trail)
  }

  /** Every initial state satisfies the invariant. */
  lemma InitInv(cfg: Config, s: State)
    requires Init(cfg, s)
    ensures Inv(cfg, s)
  {
  }
}
