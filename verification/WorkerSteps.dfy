/** The workers' local steps keep the protocol invariant: arriving, calling the bank, and acting on its answer. */
module WorkerSteps {
  import opened Text
  import opened Domain
  import opened Errors
  import opened Commands
  import opened Store
  import opened Bank
  import opened Client
  import opened Protocol
  import opened Invariants
  import opened Stability
  import opened Transitions

  // ---- Changing one worker ----

  lemma RecordsWorkers(payments: map<string, Payment>, workers: map<nat, Worker>, workers': map<nat, Worker>,
                       records: map<RecordKey, Record>, leases: map<RecordKey, seq<Lease>>, stuckAfter: int)
    requires Records(payments, workers, records, leases, stuckAfter) && WorkersRemain(workers, workers')
    ensures Records(payments, workers', records, leases, stuckAfter)
  {
    hide RecordOk, Advance, WorkersRemain;
    AdvanceReflexive(payments);
    forall k | k in records ensures RecordOk(payments, workers', records, leases, stuckAfter, k) {
      RecordAt(payments, workers, records, leases, stuckAfter, k);
      RecordStable(payments, payments, workers, workers', records, records, leases, leases, stuckAfter, k);
    }
  }

  lemma WorkersWith(payments: map<string, Payment>, pins: map<PinKey, string>, calls: seq<Call>,
                    workers: map<nat, Worker>, w: nat, worker: Worker)
    requires Workers(payments, pins, calls, workers) && WorkerOk(payments, pins, calls, worker)
    ensures Workers(payments, pins, calls, workers[w := worker])
  {
    hide WorkerOk;
  }

  lemma WorkersAgreeWith(b: Books, workers: map<nat, Worker>, w: nat, worker: Worker)
    requires WorkersAgree(b, workers) && WorkerAgrees(b, worker)
    ensures WorkersAgree(b, workers[w := worker])
  {
    hide WorkerAgrees;
  }

  lemma IdentitiesWith(cfg: Config, now: Time, workers: map<nat, Worker>, w: nat, worker: Worker)
    requires Identities(cfg, now, workers) && Identified(cfg, now, worker)
    ensures Identities(cfg, now, workers[w := worker])
  {
    hide Identified;
    var workers' := workers[w := worker];
    forall v | v in workers' ensures Identified(cfg, now, workers'[v]) {
      if v != w { assert Identified(cfg, now, workers[v]); }
    }
  }

  /** A worker added or moved to another phase, with everything else as it was. */
  lemma WithWorkerInv(cfg: Config, s: State, w: nat, worker: Worker)
    requires Inv(cfg, s)
    requires w in s.workers ==> SameWorker(s.workers[w], worker)
    requires Identified(cfg, s.now, worker)
    requires WorkerOk(s.db.payments, s.pins, s.calls, worker) && WorkerAgrees(BooksOf(s), worker)
    ensures Inv(cfg, s.(workers := s.workers[w := worker]))
  {
    hide Rows, Pinned, PinNames, Calls, LedgerOk, Origins, Replies, RowsAgree, WorkersAgree, Identities, Workers,
         Records, Trails, WorkerOk, WorkerAgrees, Identified;
    var workers' := s.workers[w := worker];
    WorkersWith(s.db.payments, s.pins, s.calls, s.workers, w, worker);
    WorkersAgreeWith(BooksOf(s), s.workers, w, worker);
    IdentitiesWith(cfg, s.now, s.workers, w, worker);
    assert WorkersRemain(s.workers, workers');
    RecordsWorkers(s.db.payments, s.workers, workers', s.db.records, s.leases, cfg.stuckAfter);
  }

  lemma SetPhaseInv(cfg: Config, s: State, w: nat, phase: Phase)
    requires Inv(cfg, s) && w in s.workers
    requires WorkerOk(s.db.payments, s.pins, s.calls, s.workers[w].(phase := phase))
    requires WorkerAgrees(BooksOf(s), s.workers[w].(phase := phase))
    ensures Inv(cfg, SetPhase(s, w, phase))
  {
    hide WorkerOk, WorkerAgrees;
    IdentifiedAt(cfg, s, w, phase);
    hide Inv, Identified;
    WithWorkerInv(cfg, s, w, s.workers[w].(phase := phase));
  }

  lemma IdentifiedAt(cfg: Config, s: State, w: nat, phase: Phase)
    requires Inv(cfg, s) && w in s.workers
    ensures Identified(cfg, s.now, s.workers[w].(phase := phase))
  {
    hide Rows, Pinned, PinNames, Calls, LedgerOk, Origins, Replies, RowsAgree, WorkersAgree, Identities, Workers,
         Records, Trails, CardText, RequestText;
    IdentityAt(cfg, s.now, s.workers, w);
  }

  /** Ending a command touches nothing else. */
  lemma FinishInv(cfg: Config, s: State, w: nat, outcome: Outcome)
    requires Inv(cfg, s) && w in s.workers
    ensures Inv(cfg, SetPhase(s, w, Finished(outcome)))
  {
    hide Inv;
    SetPhaseInv(cfg, s, w, Finished(outcome));
  }

  lemma ArriveInv(cfg: Config, s: State, w: nat, cmd: Command)
    requires Inv(cfg, s) && w !in s.workers && Accepted(cmd)
    ensures Inv(cfg, s.(workers := s.workers[w := NewWorker(cfg, cmd, s.now)]))
  {
    hide CardText, RequestText, Accepted, Rows, Pinned, PinNames, Calls, LedgerOk, Origins, Replies, RowsAgree,
         WorkersAgree, Identities, Workers, Records, Trails;
    WithWorkerInv(cfg, s, w, NewWorker(cfg, cmd, s.now));
  }

  lemma IdentitiesLater(cfg: Config, now: Time, now': Time, workers: map<nat, Worker>)
    requires Identities(cfg, now, workers) && now <= now'
    ensures Identities(cfg, now', workers)
  {
    hide CardText, RequestText, Accepted;
    forall w | w in workers ensures Identified(cfg, now', workers[w]) {
      assert Identified(cfg, now, workers[w]);
    }
  }

  lemma TickInv(cfg: Config, s: State, now: Time)
    requires Inv(cfg, s) && s.now <= now
    ensures Inv(cfg, s.(now := now))
  {
    hide Rows, Pinned, PinNames, Calls, LedgerOk, Origins, Replies, RowsAgree, WorkersAgree, Identities, Workers,
         Records, Trails;
    IdentitiesLater(cfg, s.now, now, s.workers);
  }

  // ---- Calling the bank ----

  /** The call a worker sends is fixed by its payment. */
  lemma SentCallOk(cfg: Config, now: Time, payments: map<string, Payment>, pins: map<PinKey, string>, w: Worker, p: Payment)
    requires Identified(cfg, now, w) && Snapshot(payments, pins, w, p)
    ensures CallOk(cfg, payments, pins, CallOf(w.cmd, p))
  {
    hide WellFormed, CardText, RequestText, Clean, IsPaymentId;
    BehindIdentity(p, payments[p.id]);
    assert w.cmd.Authorize? || w.cmd.Retry? ==>
      Card(w.cmd.card.number, w.cmd.card.cvv, w.cmd.card.month, w.cmd.card.year) == w.cmd.card;
  }

  lemma CallsWith(cfg: Config, payments: map<string, Payment>, pins: map<PinKey, string>, calls: seq<Call>, call: Call)
    requires Calls(cfg, payments, pins, calls) && CallOk(cfg, payments, pins, call)
    ensures Calls(cfg, payments, pins, calls + [call])
  {
    hide CallOk;
  }

  lemma OriginsWith(txns: map<string, Txn>, origin: map<string, nat>, calls: seq<Call>, call: Call)
    requires Origins(txns, origin, calls)
    ensures Origins(txns, origin, calls + [call])
  {
    hide Clean, Produced;
    forall id | id in txns ensures OriginOk(txns, origin, calls + [call], id) {
      assert OriginOk(txns, origin, calls, id);
    }
  }

  lemma BooksWithCall(b: Books, call: Call)
    ensures BooksGrew(b, b.(calls := b.calls + [call]))
  {
  }

  lemma RepliesWithCall(b: Books, b': Books, stages: seq<Stage>, cache: map<CacheKey, Entry>, call: Call)
    requires Replies(b, stages, cache) && b' == b.(calls := b.calls + [call])
    ensures Replies(b', stages + [Sent], cache)
  {
    hide ReplyOk, BooksGrew, IsSuccess;
    BooksWithCall(b, call);
    var stages' := stages + [Sent];
    forall i | 0 <= i < |stages'| ensures StageOk(b', stages', i) {
      if i < |stages| {
        assert StageOk(b, stages, i);
        if HasReply(stages[i]) { ReplyStable(b, b', b.calls[i], stages[i].reply); }
      }
    }
    forall k | k in cache ensures EntryOk(b', cache, k) {
      EntryAt(b, stages, cache, k);
      EntryStable(b, b', cache, k);
    }
  }

  /** One more call on the wire. */
  lemma CallAddedInv(cfg: Config, s: State, call: Call)
    requires Inv(cfg, s) && CallOk(cfg, s.db.payments, s.pins, call)
    ensures Inv(cfg, s.(calls := s.calls + [call], stages := s.stages + [Sent]))
  {
    hide Rows, Pinned, PinNames, Calls, LedgerOk, Origins, Replies, RowsAgree, WorkersAgree, Identities, Workers,
         Records, Trails, CallOk, BooksGrew, Advance, PinsGrow;
    var s' := s.(calls := s.calls + [call], stages := s.stages + [Sent]);
    var b, b' := BooksOf(s), BooksOf(s');
    CallsWith(cfg, s.db.payments, s.pins, s.calls, call);
    OriginsWith(s.ledger.txns, s.origin, s.calls, call);
    BooksWithCall(b, call);
    RepliesWithCall(b, b', s.stages, s.cache, call);
    RowsAgreeStable(b, b', s.db.payments);
    WorkersAgreeStable(b, b', s.workers);
    AdvanceReflexive(s.db.payments);
    PinsGrowReflexive(s.pins);
    WorkersStable(s.db.payments, s.db.payments, s.pins, s.pins, s.calls, s'.calls, s.workers);
  }

  lemma PinsGrowReflexive(pins: map<PinKey, string>)
    ensures PinsGrow(pins, pins)
  {
  }

  lemma SendInv(cfg: Config, s: State, w: nat)
    requires Inv(cfg, s) && w in s.workers && s.workers[w].phase.Calling?
    ensures Inv(cfg, Sending(s, w))
  {
    hide Inv, CallOk, Identified, Snapshot, CallOf, Agrees, BooksGrew;
    var worker := s.workers[w];
    var p := worker.phase.before;
    var call := CallOf(worker.cmd, p);
    HolderFacts(cfg, s, w);
    SentCallOk(cfg, s.now, s.db.payments, s.pins, worker, p);
    CallAddedInv(cfg, s, call);
    var s1 := s.(calls := s.calls + [call], stages := s.stages + [Sent]);
    BooksWithCall(BooksOf(s), call);
    AgreesStable(BooksOf(s), BooksOf(s1), p);
    var phase := Awaiting(p, worker.phase.attempts + 1, |s.calls|);
    SnapshotIgnoresPhase(s.db.payments, s.pins, worker, phase, p);
    SetPhaseInv(cfg, s1, w, phase);
  }

  /** What the invariant says of a worker that holds a claim. */
  lemma HolderFacts(cfg: Config, s: State, w: nat)
    requires Inv(cfg, s) && w in s.workers && Holds(s.workers[w])
    ensures Identified(cfg, s.now, s.workers[w])
    ensures Snapshot(s.db.payments, s.pins, s.workers[w], s.workers[w].phase.before)
    ensures Agrees(BooksOf(s), s.workers[w].phase.before)
    ensures WorkerOk(s.db.payments, s.pins, s.calls, s.workers[w]) && WorkerAgrees(BooksOf(s), s.workers[w])
  {
    hide Rows, Pinned, PinNames, Calls, LedgerOk, Origins, Replies, RowsAgree, WorkersAgree, Identities, Workers,
         Records, Trails, Snapshot, Identified, Agrees, Prepared, CallOf;
    IdentityAt(cfg, s.now, s.workers, w);
    WorkerAt(s.db.payments, s.pins, s.calls, s.workers, w);
    WorkerAgreesAt(BooksOf(s), s.workers, w);
  }

  // ---- Acting on the bank's answer ----

  /** Every answer leads to a completion or a release. */
  lemma DecideEnds(op: Op, p: Payment, answer: BankResult, at: Time)
    ensures var phase := Decide(op, p, answer, at); (phase.Completing? || phase.Releasing?) && phase.before == p
  {
    hide MarkAuthorized, MarkDeclined, MarkCaptured, MarkExpired, MarkVoided, MarkRefunded;
  }

  /** A ledger entry made for a payment is what that payment's calls ask for. */
  predicate TxnFits(row: Payment, t: Txn) {
    match t.kind
    case HoldTxn => t.amount == row.amount
    case CaptureTxn => HasHold(row.status) && t.reference == row.holdId && t.amount == row.amount
    case VoidTxn => HasHold(row.status) && t.reference == row.holdId
    case RefundTxn => HasCapture(row.status) && t.reference == row.captureId && t.amount == row.amount
  }

  lemma MadeForFits(cfg: Config, b: Books, payments: map<string, Payment>, pins: map<PinKey, string>,
                    id: string, kind: TxnKind, paymentId: string)
    requires Origins(b.ledger.txns, b.origin, b.calls) && Calls(cfg, payments, pins, b.calls)
    requires MadeFor(b, id, kind, paymentId)
    ensures paymentId in payments && TxnFits(payments[paymentId], b.ledger.txns[id])
  {
    hide CardText, AcceptedCard, Clean;
    assert OriginOk(b.ledger.txns, b.origin, b.calls, id);
    CallAt(cfg, payments, pins, b.calls, b.origin[id]);
  }

  /** The bank's answer, as far as a worker may rely on it. */
  ghost predicate AnswerOk(b: Books, op: BankOp, p: Payment, row: Payment, result: BankResult) {
    match result
    case Authorised(id, expiresAt) =>
      && op == BankAuthorize && MadeFor(b, id, HoldTxn, p.id) && TxnFits(row, b.ledger.txns[id])
      && b.ledger.txns[id].expiresAt == expiresAt && Clean(id)
    case CaptureDone(id) =>
      op == BankCapture && MadeFor(b, id, CaptureTxn, p.id) && TxnFits(row, b.ledger.txns[id]) && Clean(id)
    case VoidDone(id) =>
      op == BankVoid && MadeFor(b, id, VoidTxn, p.id) && TxnFits(row, b.ledger.txns[id]) && Clean(id)
    case RefundDone(id) =>
      op == BankRefund && MadeFor(b, id, RefundTxn, p.id) && TxnFits(row, b.ledger.txns[id]) && Clean(id)
    case BankFailed(kind) => kind == AuthorizationExpired ==> op == BankCapture && Lapsed(b, p.holdId)
    case DeclinedBy(_) => op == BankAuthorize
  }

  /** Reading a sound reply gives a reliable answer. */
  lemma ReplyAnswers(cfg: Config, b: Books, payments: map<string, Payment>, pins: map<PinKey, string>,
                     cmd: Command, p: Payment, reply: Reply)
    requires Origins(b.ledger.txns, b.origin, b.calls) && Calls(cfg, payments, pins, b.calls)
    requires p.id in payments && ReplyOk(b, CallOf(cmd, p), reply)
    ensures var op := BankOpOf(OpOf(cmd)); AnswerOk(b, op, p, payments[p.id], ReadReply(op, reply))
  {
    hide Origins, Calls, Lapsed, TxnFits, IsBlank, MadeFor, Clean;
    match reply
    case Approved(id, _) => MadeForFits(cfg, b, payments, pins, id, HoldTxn, p.id);
    case CaptureMade(id) => MadeForFits(cfg, b, payments, pins, id, CaptureTxn, p.id);
    case VoidMade(id) => MadeForFits(cfg, b, payments, pins, id, VoidTxn, p.id);
    case RefundMade(id) => MadeForFits(cfg, b, payments, pins, id, RefundTxn, p.id);
    case Refused(code) =>
      if code != AuthExpired { NoSpuriousExpiry(BankOpOf(OpOf(cmd)), code); }
    case ServerError =>
  }

  /** The client reports an expired authorization only when the bank said so. */
  lemma NoSpuriousExpiry(op: BankOp, code: Code)
    requires code != AuthExpired
    ensures ReadRefusal(op, code) != BankFailed(AuthorizationExpired)
    ensures ReadRefusal(op, code).DeclinedBy? ==> op == BankAuthorize
    ensures ReadRefusal(op, code).DeclinedBy? || ReadRefusal(op, code).BankFailed?
  {
  }

  /** The phase that a worker's decision leads to is sound. */
  ghost predicate PhaseOk(b: Books, op: Op, p: Payment, phase: Phase) {
    match phase
    case Completing(before, after, failure) => before == p && Prepared(op, p, after, failure) && Agrees(b, after)
    case Releasing(before, _) => before == p
    case Calling(before, _) => before == p
    case _ => false
  }

  lemma DecideAuthorization(b: Books, op: Op, p: Payment, row: Payment, result: BankResult, at: Time)
    requires (op == AuthorizeOp || op == RetryOp) && WellFormed(p) && p.status == Pending && Behind(p, row)
    requires AnswerOk(b, BankAuthorize, p, row, result)
    ensures PhaseOk(b, op, p, Decide(op, p, result, at))
  {
    hide WellFormed, MarkAuthorized, MarkDeclined, Clean, Lapsed;
    match result
    case Authorised(id, expiresAt) =>
      if MarkAuthorized(p, id, expiresAt, at).Ok? { AuthorizedOk(p, id, expiresAt, at); }
    case DeclinedBy(reason) =>
      if MarkDeclined(p, reason, at).Ok? { DeclinedOk(p, reason, at); }
    case BankFailed(kind) =>
    case _ =>
  }

  lemma DecideExpiry(b: Books, op: Op, p: Payment, at: Time)
    requires (op == CaptureOp || op == VoidOp) && WellFormed(p) && p.status == Authorized
    requires Agrees(b, p) && Lapsed(b, p.holdId)
    ensures PhaseOk(b, op, p, Transitioned(p, MarkExpired(p, at), Some(AuthorizationExpired)))
  {
    hide WellFormed, MarkExpired, MadeFor, Lapsed;
    if MarkExpired(p, at).Ok? { ExpiredOk(p, at); }
  }

  lemma DecideCapture(b: Books, p: Payment, row: Payment, result: BankResult, at: Time)
    requires WellFormed(p) && p.status == Authorized && p.captureKey != "" && Behind(p, row) && Agrees(b, p)
    requires AnswerOk(b, BankCapture, p, row, result)
    ensures PhaseOk(b, CaptureOp, p, Decide(CaptureOp, p, result, at))
  {
    hide WellFormed, MarkCaptured, MarkExpired, Clean, Lapsed;
    match result
    case CaptureDone(id) => if MarkCaptured(p, id, at).Ok? { CapturedOk(p, id, at); }
    case BankFailed(kind) => if kind == AuthorizationExpired { DecideExpiry(b, CaptureOp, p, at); }
    case _ =>
  }

  lemma DecideVoid(b: Books, p: Payment, row: Payment, result: BankResult, at: Time)
    requires WellFormed(p) && p.status == Authorized && p.voidKey != "" && Behind(p, row) && Agrees(b, p)
    requires AnswerOk(b, BankVoid, p, row, result)
    ensures PhaseOk(b, VoidOp, p, Decide(VoidOp, p, result, at))
  {
    hide WellFormed, MarkVoided, MarkExpired, Clean, Lapsed;
    match result
    case VoidDone(id) => if MarkVoided(p, id, at).Ok? { VoidedOk(p, id, at); }
    case BankFailed(kind) =>
    case _ =>
  }

  lemma DecideRefund(b: Books, p: Payment, row: Payment, result: BankResult, at: Time)
    requires WellFormed(p) && p.status == Captured && p.refundKey != "" && Behind(p, row) && Agrees(b, p)
    requires AnswerOk(b, BankRefund, p, row, result)
    ensures PhaseOk(b, RefundOp, p, Decide(RefundOp, p, result, at))
  {
    hide WellFormed, MarkRefunded, Clean, Lapsed;
    match result
    case RefundDone(id) => if MarkRefunded(p, id, at).Ok? { RefundedOk(p, id, at); }
    case BankFailed(kind) =>
    case _ =>
  }

  lemma DecideOk(b: Books, payments: map<string, Payment>, pins: map<PinKey, string>, w: Worker, p: Payment,
                 result: BankResult, at: Time)
    requires Snapshot(payments, pins, w, p) && Agrees(b, p)
    requires AnswerOk(b, BankOpOf(OpOf(w.cmd)), p, payments[p.id], result)
    ensures PhaseOk(b, OpOf(w.cmd), p, Decide(OpOf(w.cmd), p, result, at))
  {
    hide WellFormed, Behind, Agrees, AnswerOk, PhaseOk, Decide, ClaimMatches, KeysPinned;
    match OpOf(w.cmd)
    case AuthorizeOp => DecideAuthorization(b, AuthorizeOp, p, payments[p.id], result, at);
    case RetryOp => DecideAuthorization(b, RetryOp, p, payments[p.id], result, at);
    case CaptureOp => DecideCapture(b, p, payments[p.id], result, at);
    case VoidOp => DecideVoid(b, p, payments[p.id], result, at);
    case RefundOp => DecideRefund(b, p, payments[p.id], result, at);
  }

  /** A worker with a reliable answer moves to a sound phase. */
  lemma AnswerInv(cfg: Config, s: State, w: nat, result: BankResult, at: Time, retry: bool)
    requires Inv(cfg, s) && w in s.workers && s.workers[w].phase.Awaiting?
    requires var p := s.workers[w].phase.before;
             p.id in s.db.payments && AnswerOk(BooksOf(s), BankOpOf(OpOf(s.workers[w].cmd)), p, s.db.payments[p.id], result)
    ensures Inv(cfg, SetPhase(s, w, AfterAnswer(s.workers[w], result, at, retry)))
  {
    hide Inv, AnswerOk, Snapshot, Decide, Agrees, Identified, Prepared;
    HolderFacts(cfg, s, w);
    var worker := s.workers[w];
    var p := worker.phase.before;
    var phase := AfterAnswer(worker, result, at, retry);
    DecideOk(BooksOf(s), s.db.payments, s.pins, worker, p, result, at);
    assert PhaseOk(BooksOf(s), OpOf(worker.cmd), p, phase);
    SnapshotIgnoresPhase(s.db.payments, s.pins, worker, phase, p);
    SetPhaseInv(cfg, s, w, phase);
  }

  lemma SnapshotIgnoresPhase(payments: map<string, Payment>, pins: map<PinKey, string>, w: Worker, phase: Phase, p: Payment)
    requires Snapshot(payments, pins, w, p)
    ensures Snapshot(payments, pins, w.(phase := phase), p)
  {
    hide WellFormed, Behind, KeysPinned;
  }

  lemma ReceiveInv(cfg: Config, s: State, w: nat, at: Time, retry: bool)
    requires Inv(cfg, s) && w in s.workers && s.workers[w].phase.Awaiting?
    requires s.workers[w].phase.call < |s.stages| && HasReply(s.stages[s.workers[w].phase.call])
    ensures Inv(cfg, Receiving(s, w, at, retry))
  {
    hide Rows, Pinned, PinNames, Calls, LedgerOk, Origins, Replies, RowsAgree, WorkersAgree, Identities, Workers,
         Records, Trails, Agrees, Identified, ReplyOk, AnswerOk, CallOf, WellFormed, Behind, KeysPinned,
         ClaimMatches, AfterAnswer, ReadReply;
    HolderFacts(cfg, s, w);
    var worker := s.workers[w];
    var p := worker.phase.before;
    StageAt(BooksOf(s), s.stages, s.cache, worker.phase.call);
    ReplyAnswers(cfg, BooksOf(s), s.db.payments, s.pins, worker.cmd, p, s.stages[worker.phase.call].reply);
    hide Inv;
    AnswerInv(cfg, s, w, ReadReply(BankOpOf(OpOf(worker.cmd)), s.stages[worker.phase.call].reply), at, retry);
  }

  lemma NoReplyInv(cfg: Config, s: State, w: nat, kind: ErrorKind, at: Time, retry: bool)
    requires Inv(cfg, s) && w in s.workers && s.workers[w].phase.Awaiting? && IsRetryable(kind)
    ensures Inv(cfg, SetPhase(s, w, AfterAnswer(s.workers[w], BankFailed(kind), at, retry)))
  {
    hide Inv, Agrees, Identified, AfterAnswer, WellFormed, Behind, KeysPinned, ClaimMatches, Lapsed;
    HolderFacts(cfg, s, w);
    AnswerInv(cfg, s, w, BankFailed(kind), at, retry);
  }
}
