/** What workers report is true: declines, releases and answers, in every reachable state. */
module Testimony {
  import opened Text
  import opened Domain
  import opened Errors
  import opened Commands
  import opened Fingerprints
  import opened Store
  import opened Bank
  import opened Client
  import opened Protocol
  import opened Invariants
  import opened Stability
  import opened WorkerSteps
  import opened StoreSteps
  import opened ClaimSteps
  import opened Runs
  import opened Safety
  import opened History
  import opened Claims
  import opened Verdicts

  // ---- What the bank has refused ----

  predicate RefusedAt(calls: seq<Call>, stages: seq<Stage>, c: int, id: string, op: BankOp, code: Code) {
    && 0 <= c < |calls| && c < |stages| && calls[c].paymentId == id && calls[c].op == op
    && stages[c] == Executed(Refused(code))
  }

  /** The bank ran a call of this kind for the payment and refused it with this code. */
  ghost predicate HasRefused(calls: seq<Call>, stages: seq<Stage>, id: string, op: BankOp, code: Code) {
    exists c {:trigger RefusedAt(calls, stages, c, id, op, code)} :: RefusedAt(calls, stages, c, id, op, code)
  }

  /** The refusals that each kind of call can meet. */
  function Refusals(op: BankOp): set<Code> {
    match op
    case BankAuthorize =>
      {InvalidCardCode, InvalidCvv, CardExpired, InsufficientFundsCode, InternalError}
    case BankCapture => {AuthAlreadyUsed, AuthExpired, AlreadyCaptured, InternalError}
    case BankVoid => {AuthAlreadyUsed, AlreadyVoided, InternalError}
    case BankRefund => {AlreadyRefunded, InternalError}
  }

  /** Replies from the cache are successes; refusals are ones that the call can meet. */
  predicate StageTrue(call: Call, stage: Stage) {
    && (stage.Answered? ==> IsSuccess(stage.reply))
    && (stage.Executed? && stage.reply.Refused? ==> stage.reply.code in Refusals(call.op))
  }

  ghost predicate StagesTrue(calls: seq<Call>, stages: seq<Stage>) {
    |calls| == |stages| && forall c {:trigger StageTrue(calls[c], stages[c])} :: 0 <= c < |calls| ==> StageTrue(calls[c], stages[c])
  }

  // ---- What workers, records and rows say ----

  /** The statuses that a completed operation can leave its payment in. */
  predicate EndsAs(op: Op, status: Status) {
    match op
    case AuthorizeOp => status == Pending || status == Authorized || status == Declined
    case RetryOp => status == Authorized || status == Declined
    case CaptureOp => status == Captured || status == Expired
    case VoidOp => status == Voided
    case RefundOp => status == Refunded
  }

  /** The answer is about what the command asked for. */
  predicate Concerns(cmd: Command, r: PaymentResult) {
    if cmd.Authorize? then
      r.orderId + "\n" + r.customerId == cmd.orderId + "\n" + cmd.customerId && r.amount == cmd.amount
    else r.id == cmd.paymentId
  }

  /** The bank gave the reason for which the payment is declined. */
  ghost predicate DeclineTrue(calls: seq<Call>, stages: seq<Stage>, id: string, reason: DeclineReason) {
    || (reason == ExpiredCard && HasRefused(calls, stages, id, BankAuthorize, CardExpired))
    || (reason == InsufficientFunds && HasRefused(calls, stages, id, BankAuthorize, InsufficientFundsCode))
  }

  /** The bank refused the card. */
  ghost predicate InputRefused(calls: seq<Call>, stages: seq<Stage>, id: string) {
    HasRefused(calls, stages, id, BankAuthorize, InvalidCardCode) || HasRefused(calls, stages, id, BankAuthorize, InvalidCvv)
  }

  /** The bank said that it had given already what was asked, or that the new entry's id was taken. */
  ghost predicate AlreadyGiven(calls: seq<Call>, stages: seq<Stage>, id: string, op: BankOp) {
    || HasRefused(calls, stages, id, op, AuthAlreadyUsed) || HasRefused(calls, stages, id, op, AlreadyCaptured)
    || HasRefused(calls, stages, id, op, AlreadyVoided) || HasRefused(calls, stages, id, op, AlreadyRefunded)
  }

  /** A claim is let go only for an unknown outcome or for a refusal that the bank did make. */
  ghost predicate ReleaseTrue(calls: seq<Call>, stages: seq<Stage>, op: Op, id: string, kind: ErrorKind) {
    match op
    case AuthorizeOp => kind == InvalidInput && InputRefused(calls, stages, id)
    case RetryOp => kind == BankTimeout || kind == BankUnavailable || (kind == InvalidInput && InputRefused(calls, stages, id))
    case _ =>
      || kind == BankTimeout || kind == BankUnavailable
      || (kind == BankStateConflict && AlreadyGiven(calls, stages, id, BankOpOf(op)))
  }

  ghost predicate OutcomeTrue(payments: map<string, Payment>, cmd: Command, outcome: Outcome) {
    match outcome
    case Success(r) =>
      && r.id in payments && Tells(r, payments[r.id]) && Concerns(cmd, r)
      && EndsAs(OpOf(cmd), r.status) && r.status != Expired
    case Failure(kind) =>
      kind == AuthorizationExpired ==>
        cmd.Capture? && cmd.paymentId in payments && payments[cmd.paymentId].status == Expired
  }

  ghost predicate PhaseTrue(calls: seq<Call>, stages: seq<Stage>, payments: map<string, Payment>, cmd: Command, phase: Phase) {
    match phase
    case Ready => true
    case Calling(_, attempts) => attempts <= 1
    case Awaiting(_, attempts, _) => 1 <= attempts <= 2
    case Completing(before, after, _) =>
      && EndsAs(OpOf(cmd), after.status)
      && (after.status == Declined ==> DeclineTrue(calls, stages, before.id, after.declineReason))
    case Releasing(before, kind) => ReleaseTrue(calls, stages, OpOf(cmd), before.id, kind)
    case Finished(outcome) => OutcomeTrue(payments, cmd, outcome)
  }

  ghost predicate WorkerTrue(s: State, w: nat)
    requires w in s.workers
  {
    PhaseTrue(s.calls, s.stages, s.db.payments, s.workers[w].cmd, s.workers[w].phase)
  }

  /** The worker made the request that the record stands for, and the stored answer is about that request. */
  predicate Backs(workers: map<nat, Worker>, k: RecordKey, fingerprint: string, r: PaymentResult, v: nat) {
    && v in workers && KeyOf(workers[v]) == k && workers[v].fingerprint == fingerprint
    && Concerns(workers[v].cmd, r) && EndsAs(k.op, r.status)
  }

  ghost predicate RecordTrue(workers: map<nat, Worker>, k: RecordKey, rec: Record) {
    rec.progress.Completed? ==>
      exists v: nat {:trigger Backs(workers, k, rec.fingerprint, rec.progress.result.payment, v)} ::
        Backs(workers, k, rec.fingerprint, rec.progress.result.payment, v)
  }

  ghost predicate RowTrue(s: State, id: string)
    requires id in s.db.payments
  {
    var p := s.db.payments[id];
    p.status == Declined ==> DeclineTrue(s.calls, s.stages, id, p.declineReason)
  }

  ghost predicate WorkersTrue(s: State) {
    forall w {:trigger WorkerTrue(s, w)} :: w in s.workers ==> WorkerTrue(s, w)
  }

  ghost predicate RecordsTrue(s: State) {
    forall k {:trigger RecordTrue(s.workers, k, s.db.records[k])} :: k in s.db.records ==>
      RecordTrue(s.workers, k, s.db.records[k])
  }

  ghost predicate RowsTrue(s: State) {
    forall id {:trigger RowTrue(s, id)} :: id in s.db.payments ==> RowTrue(s, id)
  }

  ghost predicate Truthful(s: State) {
    StagesTrue(s.calls, s.stages) && WorkersTrue(s) && RecordsTrue(s) && RowsTrue(s)
  }

  // ---- What stays true ----

  /** Calls and refusals are never forgotten. */
  ghost predicate RefusalsKept(s: State, s': State) {
    && s.calls <= s'.calls && |s.stages| <= |s'.stages|
    && forall c {:trigger s.stages[c]} :: 0 <= c < |s.stages| && s.stages[c].Executed? && s.stages[c].reply.Refused? ==>
         s'.stages[c] == s.stages[c]
  }

  lemma RefusedStays(s: State, s': State, id: string, op: BankOp, code: Code)
    requires RefusalsKept(s, s') && HasRefused(s.calls, s.stages, id, op, code)
    ensures HasRefused(s'.calls, s'.stages, id, op, code)
  {
    var c :| RefusedAt(s.calls, s.stages, c, id, op, code);
    assert RefusedAt(s'.calls, s'.stages, c, id, op, code);
  }

  lemma DeclineStays(s: State, s': State, id: string, reason: DeclineReason)
    requires RefusalsKept(s, s') && DeclineTrue(s.calls, s.stages, id, reason)
    ensures DeclineTrue(s'.calls, s'.stages, id, reason)
  {
    hide RefusalsKept, HasRefused;
    if reason == ExpiredCard {
      RefusedStays(s, s', id, BankAuthorize, CardExpired);
    } else {
      RefusedStays(s, s', id, BankAuthorize, InsufficientFundsCode);
    }
  }

  lemma InputRefusedStays(s: State, s': State, id: string)
    requires RefusalsKept(s, s') && InputRefused(s.calls, s.stages, id)
    ensures InputRefused(s'.calls, s'.stages, id)
  {
    hide RefusalsKept, HasRefused;
    if HasRefused(s.calls, s.stages, id, BankAuthorize, InvalidCardCode) {
      RefusedStays(s, s', id, BankAuthorize, InvalidCardCode);
    } else {
      RefusedStays(s, s', id, BankAuthorize, InvalidCvv);
    }
  }

  lemma AlreadyGivenStays(s: State, s': State, id: string, op: BankOp)
    requires RefusalsKept(s, s') && AlreadyGiven(s.calls, s.stages, id, op)
    ensures AlreadyGiven(s'.calls, s'.stages, id, op)
  {
    hide RefusalsKept, HasRefused;
    if HasRefused(s.calls, s.stages, id, op, AuthAlreadyUsed) { RefusedStays(s, s', id, op, AuthAlreadyUsed); }
    if HasRefused(s.calls, s.stages, id, op, AlreadyCaptured) { RefusedStays(s, s', id, op, AlreadyCaptured); }
    if HasRefused(s.calls, s.stages, id, op, AlreadyVoided) { RefusedStays(s, s', id, op, AlreadyVoided); }
    if HasRefused(s.calls, s.stages, id, op, AlreadyRefunded) { RefusedStays(s, s', id, op, AlreadyRefunded); }
  }

  lemma ReleaseStays(s: State, s': State, op: Op, id: string, kind: ErrorKind)
    requires RefusalsKept(s, s') && ReleaseTrue(s.calls, s.stages, op, id, kind)
    ensures ReleaseTrue(s'.calls, s'.stages, op, id, kind)
  {
    hide RefusalsKept, InputRefused, AlreadyGiven;
    if kind == InvalidInput { InputRefusedStays(s, s', id); }
    if kind == BankStateConflict { AlreadyGivenStays(s, s', id, BankOpOf(op)); }
  }

  lemma TellsStays(r: PaymentResult, p: Payment, q: Payment)
    requires Tells(r, p) && Behind(p, q)
    ensures Tells(r, q)
  {
  }

  lemma OutcomeStays(payments: map<string, Payment>, payments': map<string, Payment>, cmd: Command, outcome: Outcome)
    requires OutcomeTrue(payments, cmd, outcome) && Advance(payments, payments')
    ensures OutcomeTrue(payments', cmd, outcome)
  {
    hide Concerns, EndsAs, Tells, Behind;
    match outcome
    case Success(r) =>
      assert Behind(payments[r.id], payments'[r.id]);
      TellsStays(r, payments[r.id], payments'[r.id]);
    case Failure(kind) =>
      if kind == AuthorizationExpired {
        assert Behind(payments[cmd.paymentId], payments'[cmd.paymentId]);
        ExpiredStays(payments[cmd.paymentId], payments'[cmd.paymentId]);
      }
  }

  lemma ExpiredStays(p: Payment, q: Payment)
    requires Behind(p, q) && p.status == Expired
    ensures q.status == Expired
  {
  }

  lemma PhaseStays(s: State, s': State, cmd: Command, phase: Phase)
    requires PhaseTrue(s.calls, s.stages, s.db.payments, cmd, phase)
    requires RefusalsKept(s, s') && Advance(s.db.payments, s'.db.payments)
    ensures PhaseTrue(s'.calls, s'.stages, s'.db.payments, cmd, phase)
  {
    hide RefusalsKept, Advance, DeclineTrue, ReleaseTrue, OutcomeTrue, EndsAs;
    match phase
    case Completing(before, after, _) => if after.status == Declined { DeclineStays(s, s', before.id, after.declineReason); }
    case Releasing(before, kind) => ReleaseStays(s, s', OpOf(cmd), before.id, kind);
    case Finished(outcome) => OutcomeStays(s.db.payments, s'.db.payments, cmd, outcome);
    case _ =>
  }

  // ---- One step ----

  predicate SameRecord(s: State, s': State, k: RecordKey) {
    && k in s.db.records && k in s'.db.records && s'.db.records[k].progress == s.db.records[k].progress
    && s'.db.records[k].fingerprint == s.db.records[k].fingerprint
  }

  ghost predicate RecordsHold(s: State, s': State) {
    forall k {:trigger s'.db.records[k]} :: k in s'.db.records ==>
      SameRecord(s, s', k) || RecordTrue(s'.workers, k, s'.db.records[k])
  }

  ghost predicate RowsHold(s: State, s': State) {
    forall id {:trigger s'.db.payments[id]} :: id in s'.db.payments ==>
      || (id in s.db.payments && s.db.payments[id].status == s'.db.payments[id].status)
      || RowTrue(s', id)
  }

  /** Of all the workers, at most one changes, and it keeps its command. */
  ghost predicate OneMoves(s: State, s': State, w: nat) {
    && WorkersRemain(s.workers, s'.workers)
    && forall v {:trigger s'.workers[v]} :: v in s'.workers && v != w ==> v in s.workers && s'.workers[v] == s.workers[v]
  }

  lemma BacksStays(workers: map<nat, Worker>, workers': map<nat, Worker>, k: RecordKey, rec: Record, rec': Record)
    requires RecordTrue(workers, k, rec) && WorkersRemain(workers, workers')
    requires rec'.progress == rec.progress && rec'.fingerprint == rec.fingerprint
    ensures RecordTrue(workers', k, rec')
  {
    hide Concerns, EndsAs;
    if rec.progress.Completed? {
      var v: nat :| Backs(workers, k, rec.fingerprint, rec.progress.result.payment, v);
      assert Backs(workers', k, rec.fingerprint, rec.progress.result.payment, v);
    }
  }

  lemma WorkersFrame(s: State, s': State, w: nat)
    requires WorkersTrue(s) && OneMoves(s, s', w) && (w in s'.workers ==> WorkerTrue(s', w))
    requires RefusalsKept(s, s') && Advance(s.db.payments, s'.db.payments)
    ensures WorkersTrue(s')
  {
    hide RefusalsKept, Advance, PhaseTrue;
    forall v | v in s'.workers ensures WorkerTrue(s', v) {
      if v != w {
        assert s'.workers[v] == s.workers[v];
        assert WorkerTrue(s, v);
        PhaseStays(s, s', s.workers[v].cmd, s.workers[v].phase);
      }
    }
  }

  lemma RecordsFrame(s: State, s': State, w: nat)
    requires RecordsTrue(s) && OneMoves(s, s', w) && RecordsHold(s, s')
    ensures RecordsTrue(s')
  {
    hide RecordTrue, WorkersRemain;
    forall k | k in s'.db.records ensures RecordTrue(s'.workers, k, s'.db.records[k]) {
      if SameRecord(s, s', k) {
        assert RecordTrue(s.workers, k, s.db.records[k]);
        BacksStays(s.workers, s'.workers, k, s.db.records[k], s'.db.records[k]);
      } else {
        assert s'.db.records[k] == s'.db.records[k];
      }
    }
  }

  lemma RowsFrame(s: State, s': State)
    requires RowsTrue(s) && RowsHold(s, s') && RefusalsKept(s, s') && Advance(s.db.payments, s'.db.payments)
    ensures RowsTrue(s')
  {
    hide RefusalsKept, DeclineTrue;
    forall id | id in s'.db.payments ensures RowTrue(s', id) {
      if id in s.db.payments && s.db.payments[id].status == s'.db.payments[id].status {
        assert Behind(s.db.payments[id], s'.db.payments[id]);
        assert RowTrue(s, id);
        if s.db.payments[id].status == Declined { DeclineStays(s, s', id, s.db.payments[id].declineReason); }
      } else {
        assert s'.db.payments[id] == s'.db.payments[id];
      }
    }
  }

  lemma TruthFrame(s: State, s': State, w: nat)
    requires Truthful(s) && StagesTrue(s'.calls, s'.stages) && OneMoves(s, s', w)
    requires w in s'.workers ==> WorkerTrue(s', w)
    requires RefusalsKept(s, s') && Advance(s.db.payments, s'.db.payments) && RecordsHold(s, s') && RowsHold(s, s')
    ensures Truthful(s')
  {
    hide StagesTrue, WorkersTrue, RecordsTrue, RowsTrue, OneMoves, WorkerTrue, RefusalsKept, Advance, RecordsHold, RowsHold;
    WorkersFrame(s, s', w);
    RecordsFrame(s, s', w);
    RowsFrame(s, s');
  }

  /** A worker moves; tables, calls and stages are as they were. */
  lemma PhaseTruth(s: State, s': State, w: nat, phase: Phase)
    requires Truthful(s) && w in s.workers && s'.workers == s.workers[w := s.workers[w].(phase := phase)]
    requires s'.calls == s.calls && s'.stages == s.stages && s'.db.payments == s.db.payments
    requires forall k {:trigger s'.db.records[k]} :: k in s'.db.records ==> SameRecord(s, s', k)
    requires PhaseTrue(s.calls, s.stages, s.db.payments, s.workers[w].cmd, phase)
    ensures Truthful(s')
  {
    hide PhaseTrue, StagesTrue, WorkersTrue, RecordsTrue, RowsTrue, RowTrue, RecordTrue;
    AdvanceReflexive(s.db.payments);
    StaysPart(s);
    TruthFrame(s, s', w);
  }

  lemma StaysPart(s: State)
    requires Truthful(s)
    ensures StagesTrue(s.calls, s.stages)
  {
    hide StagesTrue, WorkersTrue, RecordsTrue, RowsTrue;
  }

  /** Nothing moves but clocks, the cache and old records. */
  lemma QuietTruth(s: State, s': State)
    requires Truthful(s) && s'.workers == s.workers && s'.calls == s.calls && s'.stages == s.stages
    requires s'.db.payments == s.db.payments
    requires forall k {:trigger s'.db.records[k]} :: k in s'.db.records ==> SameRecord(s, s', k)
    ensures Truthful(s')
  {
    hide StagesTrue, RowTrue, RecordTrue, PhaseTrue;
    forall w | w in s'.workers ensures WorkerTrue(s', w) { assert WorkerTrue(s, w); }
    forall k | k in s'.db.records ensures RecordTrue(s'.workers, k, s'.db.records[k]) {
      assert RecordTrue(s.workers, k, s.db.records[k]);
      assert SameRecord(s, s', k);
      BacksStays(s.workers, s'.workers, k, s.db.records[k], s'.db.records[k]);
    }
    forall id | id in s'.db.payments ensures RowTrue(s', id) { assert RowTrue(s, id); SameRow(s, s', id); }
  }

  lemma SameRow(s: State, s': State, id: string)
    requires id in s.db.payments && s'.db.payments == s.db.payments && s'.calls == s.calls && s'.stages == s.stages
    requires RowTrue(s, id)
    ensures RowTrue(s', id)
  {
    hide DeclineTrue;
  }

  /** One stage moves on, and no refusal is lost. */
  lemma StageTruth(s: State, s': State, c: nat, stage: Stage)
    requires Truthful(s) && s'.workers == s.workers && s'.db == s.db && s'.calls == s.calls && c < |s.calls| == |s.stages|
    requires s'.stages == s.stages[c := stage] && StageTrue(s.calls[c], stage)
    requires !(s.stages[c].Executed? && s.stages[c].reply.Refused?)
    ensures Truthful(s')
  {
    hide PhaseTrue, RowTrue, RecordTrue;
    AdvanceReflexive(s.db.payments);
    forall d | 0 <= d < |s'.calls| ensures StageTrue(s'.calls[d], s'.stages[d]) { assert StageTrue(s.calls[d], s.stages[d]); }
    assert RefusalsKept(s, s');
    hide StagesTrue, StageTrue, RefusalsKept;
    forall w | w in s'.workers ensures WorkerTrue(s', w) {
      assert WorkerTrue(s, w);
      PhaseStays(s, s', s.workers[w].cmd, s.workers[w].phase);
    }
    forall k | k in s'.db.records ensures RecordTrue(s'.workers, k, s'.db.records[k]) {
      assert RecordTrue(s.workers, k, s.db.records[k]);
    }
    RowsFrame(s, s');
  }

  // ---- The bank's steps ----

  /** What a call for a payment asks for is there at the bank. */
  lemma CallIsSound(cfg: Config, s: State, c: nat)
    requires c < |s.calls| && Inv(cfg, s)
    ensures var call := s.calls[c];
            match call.op
            case BankAuthorize => call.request.AuthorizeRequest? && call.request.amount > 0
            case BankCapture =>
              && call.request.CaptureRequest? && IsHold(s.ledger, call.request.holdId)
              && s.ledger.txns[call.request.holdId].amount == call.request.amount
            case BankVoid => call.request.VoidRequest? && IsHold(s.ledger, call.request.holdId)
            case BankRefund =>
              && call.request.RefundRequest? && call.request.captureId in s.ledger.txns
              && s.ledger.txns[call.request.captureId].kind == CaptureTxn
              && s.ledger.txns[call.request.captureId].amount == call.request.amount
  {
    hide Inv, AcceptedCard, CardText, Lapsed;
    CallFacts(cfg, s, c);
    RowAgrees(cfg, s, s.calls[c].paymentId);
  }

  lemma CallFacts(cfg: Config, s: State, c: nat)
    requires c < |s.calls| && Inv(cfg, s)
    ensures var call := s.calls[c];
            && call.paymentId in s.db.payments && BodyFits(cfg, s.db.payments[call.paymentId], call)
            && s.db.payments[call.paymentId].amount > 0
  {
    hide Rows, Pinned, PinNames, Calls, LedgerOk, Origins, Replies, RowsAgree, WorkersAgree, Identities, Workers, Records,
         Trails, BodyFits, TableChecks, IsPaymentId, Clean;
    CallAt(cfg, s.db.payments, s.pins, s.calls, c);
    RowAt(s.db.payments, s.calls[c].paymentId);
  }

  lemma HandledTrue(cfg: Config, s: State, c: nat, today: YearMonth, newTxn: string)
    requires c < |s.calls| && Inv(cfg, s)
    ensures var reply := Handle(s.ledger, s.bankNow, today, cfg.holdFor, s.calls[c].request, newTxn).1;
            reply.Refused? ==> reply.code in Refusals(s.calls[c].op)
  {
    hide Inv, Handle, LedgerOk, Presented, IsUsed;
    LedgerIsOk(cfg, s);
    CallIsSound(cfg, s, c);
    var call := s.calls[c];
    match call.op
    case BankAuthorize => AuthorizeVerdict(s.ledger, s.bankNow, today, cfg.holdFor, call.request, newTxn);
    case BankCapture =>
      CaptureVerdict(s.ledger, s.bankNow, today, cfg.holdFor, call.request.holdId, call.request.amount, newTxn);
    case BankVoid => VoidVerdict(s.ledger, s.bankNow, today, cfg.holdFor, call.request.holdId, newTxn);
    case BankRefund =>
      RefundVerdict(s.ledger, s.bankNow, today, cfg.holdFor, call.request.captureId, call.request.amount, newTxn);
  }

  lemma ExecuteTruth(cfg: Config, s: State, c: nat, how: Execution, today: YearMonth, newTxn: string)
    requires c < |s.stages| == |s.calls| && s.stages[c].Missed? && Truthful(s) && Inv(cfg, s)
    ensures Truthful(Executing(cfg, s, c, how, today, newTxn))
  {
    hide Inv, Truthful, Handle;
    HandledTrue(cfg, s, c, today, newTxn);
    var s' := Executing(cfg, s, c, how, today, newTxn);
    StageTruth(s, s', c, s'.stages[c]);
  }

  lemma LookupTruth(cfg: Config, s: State, c: nat, hit: bool)
    requires c < |s.stages| == |s.calls| && s.stages[c].Sent? && Truthful(s) && Inv(cfg, s)
    requires hit ==> CacheKey(s.calls[c].key, s.calls[c].op) in s.cache
    ensures Truthful(LookingUp(s, c, hit))
  {
    hide Inv, Truthful;
    if hit { CachedSuccess(cfg, s, CacheKey(s.calls[c].key, s.calls[c].op)); }
    var s' := LookingUp(s, c, hit);
    StageTruth(s, s', c, s'.stages[c]);
  }

  lemma CachedSuccess(cfg: Config, s: State, k: CacheKey)
    requires k in s.cache && Inv(cfg, s)
    ensures IsSuccess(s.cache[k].reply)
  {
    hide Rows, Pinned, PinNames, Calls, LedgerOk, Origins, Replies, RowsAgree, WorkersAgree, Identities, Workers, Records,
         Trails, ReplyOk;
    EntryAt(BooksOf(s), s.stages, s.cache, k);
  }

  lemma CachingTruth(s: State, c: nat)
    requires c < |s.stages| == |s.calls| && s.stages[c].Executed? && IsSuccess(s.stages[c].reply) && Truthful(s)
    ensures Truthful(Caching(s, c))
  {
    hide Truthful;
    var s' := Caching(s, c);
    StageTruth(s, s', c, s'.stages[c]);
  }

  // ---- Hearing from the bank ----

  /** What a worker hears is what the bank did with the worker's own call. */
  ghost predicate Heard(calls: seq<Call>, stages: seq<Stage>, op: Op, id: string, result: BankResult) {
    match result
    case Authorised(h, expiresAt) => (op == AuthorizeOp || op == RetryOp) && Clean(h) && expiresAt != NO_TIME
    case DeclinedBy(reason) => (op == AuthorizeOp || op == RetryOp) && DeclineTrue(calls, stages, id, reason)
    case CaptureDone(t) => op == CaptureOp && Clean(t)
    case VoidDone(t) => op == VoidOp && Clean(t)
    case RefundDone(t) => op == RefundOp && Clean(t)
    case BankFailed(kind) =>
      || kind == BankTimeout || kind == BankUnavailable
      || (kind == InvalidInput && (op == AuthorizeOp || op == RetryOp) && InputRefused(calls, stages, id))
      || (kind == BankStateConflict && op != AuthorizeOp && op != RetryOp && AlreadyGiven(calls, stages, id, BankOpOf(op)))
      || (kind == AuthorizationExpired && op == CaptureOp)
  }

  /** How the client reads the refusals that a call can meet. */
  lemma ReadsRefusal(op: BankOp, code: Code)
    requires code in Refusals(op)
    ensures var result := ReadReply(op, Refused(code));
            match code
            case CardExpired => op == BankAuthorize && result == DeclinedBy(ExpiredCard)
            case InsufficientFundsCode => op == BankAuthorize && result == DeclinedBy(InsufficientFunds)
            case InvalidCardCode => op == BankAuthorize && result == BankFailed(InvalidInput)
            case InvalidCvv => op == BankAuthorize && result == BankFailed(InvalidInput)
            case AuthExpired => op == BankCapture && result == BankFailed(AuthorizationExpired)
            case InternalError => result == BankFailed(BankUnavailable)
            case _ => op != BankAuthorize && result == BankFailed(BankStateConflict)
  {
  }

  lemma HeardRefusal(calls: seq<Call>, stages: seq<Stage>, c: nat, op: Op, id: string, code: Code)
    requires RefusedAt(calls, stages, c, id, BankOpOf(op), code) && code in Refusals(BankOpOf(op))
    ensures Heard(calls, stages, op, id, ReadReply(BankOpOf(op), Refused(code)))
  {
    ReadsRefusal(BankOpOf(op), code);
    assert HasRefused(calls, stages, id, BankOpOf(op), code);
    hide HasRefused, RefusedAt, ReadReply;
  }

  lemma HeardSuccess(calls: seq<Call>, stages: seq<Stage>, b: Books, call: Call, op: Op, id: string, reply: Reply)
    requires ReplyOk(b, call, reply) && call.op == BankOpOf(op) && !reply.Refused?
    ensures Heard(calls, stages, op, id, ReadReply(BankOpOf(op), reply))
  {
    hide MadeFor, Clean, IsBlank;
  }

  lemma HeardReply(cfg: Config, s: State, w: nat)
    requires w in s.workers && s.workers[w].phase.Awaiting? && Truthful(s) && Inv(cfg, s)
    requires s.workers[w].phase.call < |s.stages| && HasReply(s.stages[s.workers[w].phase.call])
    ensures var op := OpOf(s.workers[w].cmd);
            Heard(s.calls, s.stages, op, s.workers[w].phase.before.id,
                  ReadReply(BankOpOf(op), s.stages[s.workers[w].phase.call].reply))
  {
    hide Inv, Heard, ReadReply, ReplyOk, Snapshot, Identified, Agrees, WorkersTrue, RecordsTrue, RowsTrue;
    HolderFacts(cfg, s, w);
    var worker := s.workers[w];
    var op, c := OpOf(worker.cmd), worker.phase.call;
    var reply := s.stages[c].reply;
    StageReply(cfg, s, c);
    assert StageTrue(s.calls[c], s.stages[c]);
    if reply.Refused? {
      HeardRefusal(s.calls, s.stages, c, op, worker.phase.before.id, reply.code);
    } else {
      HeardSuccess(s.calls, s.stages, BooksOf(s), s.calls[c], op, worker.phase.before.id, reply);
    }
  }

  lemma StageReply(cfg: Config, s: State, c: nat)
    requires c < |s.calls| && Inv(cfg, s)
    ensures |s.stages| == |s.calls| && (HasReply(s.stages[c]) ==> ReplyOk(BooksOf(s), s.calls[c], s.stages[c].reply))
  {
    hide Rows, Pinned, PinNames, Calls, LedgerOk, Origins, Replies, RowsAgree, WorkersAgree, Identities, Workers, Records,
         Trails, ReplyOk;
    StageAt(BooksOf(s), s.stages, s.cache, c);
  }

  /** A worker acts on what it heard: every transition it tries succeeds, and every release has its reason. */
  lemma DecideTrue(calls: seq<Call>, stages: seq<Stage>, payments: map<string, Payment>, cmd: Command, p: Payment,
                   result: BankResult, at: Time)
    requires Heard(calls, stages, OpOf(cmd), p.id, result) && p.status == ExpectedStatus(OpOf(cmd)) && at != NO_TIME
    ensures PhaseTrue(calls, stages, payments, cmd, Decide(OpOf(cmd), p, result, at))
  {
    CleanStringsAreTrimmed();
    hide TrimSpace, Clean, HasRefused, InputRefused, AlreadyGiven;
    if result.DeclinedBy? { assert result.reason != NoReason; }
    hide DeclineTrue;
  }

  lemma AnswerTruth(cfg: Config, s: State, w: nat, result: BankResult, at: Time, retry: bool)
    requires w in s.workers && s.workers[w].phase.Awaiting? && s.workers[w].start <= at && Truthful(s) && Inv(cfg, s)
    requires Heard(s.calls, s.stages, OpOf(s.workers[w].cmd), s.workers[w].phase.before.id, result)
    ensures Truthful(SetPhase(s, w, AfterAnswer(s.workers[w], result, at, retry)))
  {
    hide Inv, Truthful, Heard, Decide, Snapshot, Agrees, WorkerOk, WorkerAgrees, Identified;
    HolderFacts(cfg, s, w);
    StartIsTime(cfg, s.now, s.workers[w]);
    var p := s.workers[w].phase.before;
    SnapshotStatus(s.db.payments, s.pins, s.workers[w], p);
    DecideTrue(s.calls, s.stages, s.db.payments, s.workers[w].cmd, p, result, at);
    var phase := AfterAnswer(s.workers[w], result, at, retry);
    PhaseTruth(s, SetPhase(s, w, phase), w, phase);
  }

  // ---- The workers' other steps ----

  lemma SendTruth(s: State, w: nat)
    requires w in s.workers && s.workers[w].phase.Calling? && |s.calls| == |s.stages| && Truthful(s)
    ensures Truthful(Sending(s, w))
  {
    hide CallOf, RecordTrue, RowTrue;
    var s' := Sending(s, w);
    AdvanceReflexive(s.db.payments);
    assert WorkerTrue(s, w);
    assert WorkerTrue(s', w);
    hide PhaseTrue;
    forall c | 0 <= c < |s'.calls| ensures StageTrue(s'.calls[c], s'.stages[c]) {
      if c < |s.calls| { assert StageTrue(s.calls[c], s.stages[c]); }
    }
    TruthFrame(s, s', w);
  }

  lemma ArriveTruth(cfg: Config, s: State, w: nat, cmd: Command)
    requires w !in s.workers && Accepted(cmd) && Truthful(s)
    ensures Truthful(s.(workers := s.workers[w := NewWorker(cfg, cmd, s.now)]))
  {
    hide Accepted, RequestText, CardText, StagesTrue, RecordTrue, RowTrue;
    var s' := s.(workers := s.workers[w := NewWorker(cfg, cmd, s.now)]);
    AdvanceReflexive(s.db.payments);
    assert WorkerTrue(s', w);
    hide PhaseTrue;
    TruthFrame(s, s', w);
  }

  /** No release reports an expired authorization. */
  lemma ReleaseOutcome(s: State, w: nat)
    requires w in s.workers && s.workers[w].phase.Releasing? && Truthful(s)
    ensures PhaseTrue(s.calls, s.stages, s.db.payments, s.workers[w].cmd, Finished(Failure(s.workers[w].phase.kind)))
  {
    hide InputRefused, AlreadyGiven;
    assert WorkerTrue(s, w);
  }

  lemma ReleaseTruth(s: State, w: nat, landed: bool)
    requires w in s.workers && s.workers[w].phase.Releasing? && Truthful(s)
    ensures Truthful(if landed then LettingGo(s, w) else SetPhase(s, w, Finished(Failure(s.workers[w].phase.kind))))
  {
    hide Truthful, PhaseTrue;
    ReleaseOutcome(s, w);
    var s' := if landed then LettingGo(s, w) else SetPhase(s, w, Finished(Failure(s.workers[w].phase.kind)));
    PhaseTruth(s, s', w, Finished(Failure(s.workers[w].phase.kind)));
  }

  // ---- Claiming ----

  /** No claim fails with an expired authorization; only a stored outcome says so. */
  lemma ClaimNeverExpires(db: Db, r: ClaimRequest)
    ensures var outcome := Claim(db, r).1;
            && (outcome.ClaimFailed? ==> outcome.kind != AuthorizationExpired)
            && (outcome.Replayed? ==>
                  && RequestKey(r) in db.records && db.records[RequestKey(r)].fingerprint == r.fingerprint
                  && db.records[RequestKey(r)].progress.Completed?
                  && db.records[RequestKey(r)].progress.result == outcome.result)
  {
    hide EnsureKey, TableChecks, ExpectedStatus, KeyMissing, CardMismatch;
  }

  /** Equal requests concern the same answers. */
  lemma ConcernsSame(a: Command, b: Command, r: PaymentResult)
    requires SameRequest(a, b) && Concerns(a, r)
    ensures Concerns(b, r)
  {
    hide SameCard;
  }

  lemma StoredAnswerTrue(cfg: Config, s: State, w: nat)
    requires w in s.workers && KeyOf(s.workers[w]) in s.db.records && Truthful(s) && Inv(cfg, s) && ValidConfig(cfg)
    requires var rec := s.db.records[KeyOf(s.workers[w])];
             rec.progress.Completed? && rec.fingerprint == s.workers[w].fingerprint
    ensures var result := s.db.records[KeyOf(s.workers[w])].progress.result;
            OutcomeTrue(s.db.payments, s.workers[w].cmd, Replay(result))
  {
    hide Inv, ValidConfig, StagesTrue, WorkersTrue, RowsTrue, SameRequest, Concerns, Tells;
    var k := KeyOf(s.workers[w]);
    var rec := s.db.records[k];
    var r := rec.progress.result.payment;
    assert RecordTrue(s.workers, k, rec);
    var v: nat :| Backs(s.workers, k, rec.fingerprint, r, v);
    SameFingerprint(cfg, s, v, w);
    ConcernsSame(s.workers[v].cmd, s.workers[w].cmd, r);
    StoredOutcome(cfg, s, k);
    if r.status == Expired { ExpiredAnswer(s.workers[w].cmd, r, s.db.payments[r.id]); }
  }

  lemma ExpiredAnswer(cmd: Command, r: PaymentResult, row: Payment)
    requires r.status == Expired && EndsAs(OpOf(cmd), r.status) && Concerns(cmd, r) && Tells(r, row)
    ensures cmd.Capture? && r.id == cmd.paymentId && row.status == Expired
  {
  }

  lemma ClaimPhaseTrue(cfg: Config, s: State, w: nat, at: Time, newId: string, newKey: string)
    requires Enabled(s, ClaimStep(w, at, newId, newKey)) && Truthful(s) && Inv(cfg, s) && ValidConfig(cfg)
    ensures var s' := Claiming(cfg, s, w, at, newId, newKey);
            w in s'.workers && PhaseTrue(s.calls, s.stages, s.db.payments, s.workers[w].cmd, s'.workers[w].phase)
  {
    hide Inv, ValidConfig, Truthful, RequestOf, Claim, Claiming, Identified, IsPaymentId, Clean, OutcomeTrue, Replay, RequestKey;
    IdentifiedHere(cfg, s, w);
    RequestIsOk(cfg, s.now, s.workers[w], at, newId, newKey);
    var r := RequestOf(cfg, s.workers[w], at, newId, newKey).value;
    ClaimNeverExpires(s.db, r);
    ClaimComesTo(cfg, s, w, at, newId, newKey, r);
    match Claim(s.db, r).1
    case Replayed(result) => StoredAnswerTrue(cfg, s, w);
    case ClaimFailed(kind) => FailureTrue(s.db.payments, s.workers[w].cmd, kind);
    case Claimed(_, _) =>
  }

  lemma FailureTrue(payments: map<string, Payment>, cmd: Command, kind: ErrorKind)
    requires kind != AuthorizationExpired
    ensures OutcomeTrue(payments, cmd, Failure(kind))
  {
  }

  /** A claim leaves completed records alone and opens no declined payment. */
  lemma ClaimTables(db: Db, r: ClaimRequest)
    requires r.StartRequest? ==> r.payment.status == Pending
    ensures TablesKept(db, Claim(db, r).0)
  {
    hide TableChecks, KeyMissing, CardMismatch, EnsureKey, ExpectedStatus;
    if r.ExistingRequest? && r.paymentId in db.payments { EnsureKeepsStatus(r.op, db.payments[r.paymentId], r.newKey); }
  }

  lemma EnsureKeepsStatus(op: Op, p: Payment, newKey: string)
    ensures var r := EnsureKey(op, p, newKey); r.Ok? ==> r.value.status == p.status
  {
    hide NormalizeRequired;
  }

  lemma ClaimTruth(cfg: Config, s: State, w: nat, at: Time, newId: string, newKey: string)
    requires Enabled(s, ClaimStep(w, at, newId, newKey)) && Truthful(s) && Inv(cfg, s) && ValidConfig(cfg)
    ensures Truthful(Claiming(cfg, s, w, at, newId, newKey))
  {
    hide Inv, ValidConfig, Truthful, Claiming, IsPaymentId, Clean, PhaseTrue, RefusalsKept, RecordsHold, RowsHold, Advance,
         BooksGrew, PinsGrow;
    var s' := Claiming(cfg, s, w, at, newId, newKey);
    ClaimLater(cfg, s, w, at, newId, newKey);
    ClaimFrame(cfg, s, w, at, newId, newKey);
    var phase := ClaimMovesOne(cfg, s, w, at, newId, newKey);
    ClaimPhaseTrue(cfg, s, w, at, newId, newKey);
    ClaimHolds(cfg, s, w, at, newId, newKey);
    SameCallsKept(s, s');
    MovedRemain(s, s', w, phase);
    PhaseStays(s, s', s.workers[w].cmd, phase);
    StaysPart(s);
    TruthFrame(s, s', w);
  }

  lemma SameCallsKept(s: State, s': State)
    requires s'.calls == s.calls && s'.stages == s.stages
    ensures RefusalsKept(s, s')
  {
  }

  lemma MovedRemain(s: State, s': State, w: nat, phase: Phase)
    requires MovesOne(s, s', w, phase)
    ensures OneMoves(s, s', w)
  {
  }

  /** Completed records are as they were, and rows that changed their status are pending. */
  ghost predicate TablesKept(db: Db, db': Db) {
    && (forall k {:trigger db'.records[k]} :: k in db'.records ==>
          || (k in db.records && db'.records[k].progress == db.records[k].progress
              && db'.records[k].fingerprint == db.records[k].fingerprint)
          || db'.records[k].progress.InProgress?)
    && (forall id {:trigger db'.payments[id]} :: id in db'.payments ==>
          || (id in db.payments && db.payments[id].status == db'.payments[id].status)
          || db'.payments[id].status == Pending)
  }

  lemma TablesHold(s: State, s': State)
    requires TablesKept(s.db, s'.db)
    ensures RecordsHold(s, s') && RowsHold(s, s')
  {
    hide DeclineTrue, Backs;
    forall k | k in s'.db.records ensures SameRecord(s, s', k) || RecordTrue(s'.workers, k, s'.db.records[k]) {
      assert s'.db.records[k] == s'.db.records[k];
    }
    forall id | id in s'.db.payments && s'.db.payments[id].status == Pending ensures RowTrue(s', id) {
    }
  }

  lemma ClaimHolds(cfg: Config, s: State, w: nat, at: Time, newId: string, newKey: string)
    requires Enabled(s, ClaimStep(w, at, newId, newKey)) && Inv(cfg, s) && ValidConfig(cfg)
    ensures var s' := Claiming(cfg, s, w, at, newId, newKey); RecordsHold(s, s') && RowsHold(s, s')
  {
    hide Inv, ValidConfig, RequestOf, Claim, Claiming, Identified, IsPaymentId, Clean, WellFormed, ClaimMatches, RecordsHold,
         RowsHold, TablesKept, MovesOne, Replay;
    IdentifiedHere(cfg, s, w);
    RequestIsOk(cfg, s.now, s.workers[w], at, newId, newKey);
    if s.workers[w].cmd.Authorize? { StartRequestOk(cfg, s.now, s.workers[w], at, newId, newKey); }
    var r := RequestOf(cfg, s.workers[w], at, newId, newKey).value;
    ClaimTables(s.db, r);
    ClaimComesTo(cfg, s, w, at, newId, newKey, r);
    SameTablesKept(s.db);
    TablesHold(s, Claiming(cfg, s, w, at, newId, newKey));
  }

  lemma SameTablesKept(db: Db)
    ensures TablesKept(db, db)
  {
  }

  // ---- Completing ----

  /** What a worker is about to persist is about what its command asked for. */
  lemma PreparedConcerns(w: Worker, p: Payment, after: Payment, r: PaymentResult)
    requires ClaimMatches(w, p) && SameIdentity(p, after) && Shows(r, after)
    ensures Concerns(w.cmd, r)
  {
  }

  lemma ShownTells(r: PaymentResult, p: Payment)
    requires Shows(r, p)
    ensures Tells(r, p)
  {
  }

  /** Row, record and answer of a completion that takes effect. */
  lemma CompletionTrue(cfg: Config, s: State, s': State, w: nat, at: Time, acked: bool)
    requires Enabled(s, CompleteStep(w, at, acked)) && Truthful(s) && CompletesAs(s, s', w, at, acked) && Inv(cfg, s)
    requires s'.calls == s.calls && s'.stages == s.stages && s'.db != s.db
    ensures w in s'.workers && WorkerTrue(s', w) && RecordsHold(s, s') && RowsHold(s, s')
  {
    hide Inv, Identified, Agrees, WellFormed, KeysPinned, Behind, Truthful, WorkerTrue, RecordsHold, RowsHold, CompletesAs,
         Prepared;
    HolderFacts(cfg, s, w);
    var worker := s.workers[w];
    PreparedIdentity(OpOf(worker.cmd), worker.phase.before, worker.phase.after, worker.phase.failure);
    IdentityIds(worker.phase.before, worker.phase.after);
    CompletionStands(s, s', w, at, acked);
  }

  lemma CompletionStands(s: State, s': State, w: nat, at: Time, acked: bool)
    requires w in s.workers && s.workers[w].phase.Completing? && CompletesAs(s, s', w, at, acked) && Truthful(s)
    requires s'.calls == s.calls && s'.stages == s.stages && s'.db != s.db
    requires var worker := s.workers[w];
             && ClaimMatches(worker, worker.phase.before) && SameIdentity(worker.phase.before, worker.phase.after)
             && worker.phase.before.id == worker.phase.after.id
    ensures w in s'.workers && WorkerTrue(s', w) && RecordsHold(s, s') && RowsHold(s, s')
  {
    hide StagesTrue, RecordsTrue, RowsTrue, DeclineTrue, Concerns, Tells, Shows, ClaimMatches, SameIdentity, RecordsHold, RowsHold;
    var worker := s.workers[w];
    var k, after := KeyOf(worker), worker.phase.after;
    assert WorkerTrue(s, w);
    var r := s'.db.records[k].progress.result.payment;
    PreparedConcerns(worker, worker.phase.before, after, r);
    ShownTells(r, after);
    ShownStatus(r, after);
    if after.status == Expired { ExpiredAnswer(worker.cmd, r, after); }
    CompletedTablesHold(s, s', w);
  }

  lemma CompletedTablesHold(s: State, s': State, w: nat)
    requires w in s.workers && s.workers[w].phase.Completing? && w in s'.workers
    requires SameWorker(s.workers[w], s'.workers[w]) && s'.calls == s.calls && s'.stages == s.stages
    requires var k, after := KeyOf(s.workers[w]), s.workers[w].phase.after;
             && s'.db.payments == s.db.payments[after.id := after]
             && k in s'.db.records && s'.db.records == s.db.records[k := s'.db.records[k]]
             && s'.db.records[k].fingerprint == s.workers[w].fingerprint && s'.db.records[k].progress.Completed?
             && Concerns(s.workers[w].cmd, s'.db.records[k].progress.result.payment)
             && EndsAs(k.op, s'.db.records[k].progress.result.payment.status)
             && (after.status == Declined ==> DeclineTrue(s.calls, s.stages, after.id, after.declineReason))
    ensures RecordsHold(s, s') && RowsHold(s, s')
  {
    hide Concerns, EndsAs, DeclineTrue;
    var k := KeyOf(s.workers[w]);
    assert Backs(s'.workers, k, s'.db.records[k].fingerprint, s'.db.records[k].progress.result.payment, w);
  }

  lemma ShownStatus(r: PaymentResult, p: Payment)
    requires Shows(r, p)
    ensures r.status == p.status && r.id == p.id
  {
  }

  lemma CompleteTruth(cfg: Config, s: State, w: nat, at: Time, acked: bool)
    requires Enabled(s, CompleteStep(w, at, acked)) && Truthful(s) && Inv(cfg, s)
    ensures Truthful(Finishing(s, w, at, acked))
  {
    hide Inv, Truthful, Finishing, CompletesAs, OneMoves, WorkerTrue, RecordsHold, RowsHold, RefusalsKept, Advance, BooksGrew,
         PinsGrow, Attempt;
    var s' := Finishing(s, w, at, acked);
    FinishingFrame(s, w, at, acked);
    CompletionByInv(cfg, s, w, at, acked);
    var outcome: Outcome :| s'.workers == s.workers[w := s.workers[w].(phase := Finished(outcome))];
    if s'.db == s.db {
      CompletionFails(s, s', w, at, acked, outcome);
      PhaseTruth(s, s', w, Finished(outcome));
    } else {
      CompleteLater(cfg, s, w, at, acked);
      SameCallsKept(s, s');
      MovedRemain(s, s', w, Finished(outcome));
      CompletionTrue(cfg, s, s', w, at, acked);
      StaysPart(s);
      TruthFrame(s, s', w);
    }
  }

  /** A completion that changed nothing failed. */
  lemma CompletionFails(s: State, s': State, w: nat, at: Time, acked: bool, outcome: Outcome)
    requires w in s.workers && s.workers[w].phase.Completing? && CompletesAs(s, s', w, at, acked) && s'.db == s.db
    requires s'.workers == s.workers[w := s.workers[w].(phase := Finished(outcome))]
    ensures PhaseTrue(s.calls, s.stages, s.db.payments, s.workers[w].cmd, Finished(outcome))
  {
    hide Shows;
    var worker := s.workers[w];
    assert s'.workers[w].phase == Finished(outcome);
  }

  // ---- Every run ----

  lemma StepTruth(cfg: Config, s: State, step: Step)
    requires Enabled(s, step) && Truthful(s) && Inv(cfg, s) && ValidConfig(cfg)
    ensures Truthful(Effect(cfg, s, step))
  {
    hide Inv, ValidConfig, Truthful, Claiming, Sending, AfterAnswer, Finishing, LettingGo, LookingUp, Executing, Caching,
         NewWorker, Accepted, IsPaymentId, Clean, ReadReply, Heard;
    StagesAgreed(s);
    match step
    case Tick(_) => QuietTruth(s, Effect(cfg, s, step));
    case Arrive(w, cmd) => ArriveTruth(cfg, s, w, cmd);
    case ClaimStep(w, at, newId, newKey) => ClaimTruth(cfg, s, w, at, newId, newKey);
    case Send(w) => SendTruth(s, w);
    case Receive(w, at, retry) =>
      HeardReply(cfg, s, w);
      AnswerTruth(cfg, s, w, ReadReply(BankOpOf(OpOf(s.workers[w].cmd)), s.stages[s.workers[w].phase.call].reply), at, retry);
    case NoReply(w, kind, at, retry) =>
      HeardNothing(s.calls, s.stages, OpOf(s.workers[w].cmd), s.workers[w].phase.before.id, kind);
      AnswerTruth(cfg, s, w, BankFailed(kind), at, retry);
    case CompleteStep(w, at, acked) => CompleteTruth(cfg, s, w, at, acked);
    case ReleaseStep(w, landed) => ReleaseTruth(s, w, landed);
    case Abort(w) => AbortTruth(s, w);
    case CleanupStep(_) => QuietTruth(s, Effect(cfg, s, step));
    case BankTick(_) => QuietTruth(s, Effect(cfg, s, step));
    case Lookup(c, hit) => LookupTruth(cfg, s, c, hit);
    case Execute(c, how, today, newTxn) => ExecuteTruth(cfg, s, c, how, today, newTxn);
    case CacheReply(c) => CachingTruth(s, c);
    case Evict(_) => QuietTruth(s, Effect(cfg, s, step));
  }

  lemma StagesAgreed(s: State)
    requires Truthful(s)
    ensures |s.calls| == |s.stages|
  {
    hide WorkersTrue, RecordsTrue, RowsTrue;
  }

  lemma HeardNothing(calls: seq<Call>, stages: seq<Stage>, op: Op, id: string, kind: ErrorKind)
    requires IsRetryable(kind)
    ensures Heard(calls, stages, op, id, BankFailed(kind))
  {
    hide InputRefused, AlreadyGiven;
  }

  lemma AbortTruth(s: State, w: nat)
    requires w in s.workers && Truthful(s)
    ensures Truthful(SetPhase(s, w, Finished(Failure(Internal))))
  {
    hide Truthful;
    PhaseTruth(s, SetPhase(s, w, Finished(Failure(Internal))), w, Finished(Failure(Internal)));
  }

  lemma NextTruth(cfg: Config, s: State, s': State)
    requires Next(cfg, s, s') && Truthful(s) && Inv(cfg, s) && ValidConfig(cfg)
    ensures Truthful(s')
  {
    hide Inv, ValidConfig, Truthful, Enabled, Effect;
    var step: Step :| Enabled(s, step) && s' == Effect(cfg, s, step);
    StepTruth(cfg, s, step);
  }

  lemma {:induction false} RunTruth(cfg: Config, run: seq<State>, i: nat)
    requires IsRun(cfg, run) && i < |run| && ValidConfig(cfg)
    ensures Truthful(run[i])
  {
    hide Inv, ValidConfig, Next;
    if i > 0 {
      hide Init, Truthful;
      RunTruth(cfg, run, i - 1);
      ReachableInv(cfg, run, i - 1);
      assert StepAt(cfg, run, i - 1);
      NextTruth(cfg, run[i - 1], run[i]);
    }
  }

  lemma ReachableIsTruthful(cfg: Config, s: State)
    requires ValidConfig(cfg) && Reachable(cfg, s)
    ensures Truthful(s)
  {
    hide ValidConfig, Init, Next, Truthful;
    var run: seq<State> :| IsRun(cfg, run) && s == run[|run| - 1];
    RunTruth(cfg, run, |run| - 1);
  }

  // ---- What that means ----

  /**
   * Every success that a caller has been given shows the payment that the caller asked for, with the row's own order,
   * customer, amount, currency and creation time, in a status that the operation can end in and the payment has since
   * reached or passed; and while the row still has that status, with the row's reason, expiry and time of update.
   */
  lemma AnswersAreTrue(cfg: Config, s: State, w: nat)
    requires ValidConfig(cfg) && Reachable(cfg, s) && w in s.workers
    requires s.workers[w].phase.Finished? && s.workers[w].phase.outcome.Success?
    ensures var cmd, r := s.workers[w].cmd, s.workers[w].phase.outcome.result;
            && r.id in s.db.payments
            && var row := s.db.payments[r.id];
               && r.orderId == row.orderId && r.customerId == row.customerId && r.amount == row.amount
               && r.currency == row.currency && r.createdAt == row.createdAt && Reaches(r.status, row.status)
               && (r.status == row.status ==>
                     r.declineReason == row.declineReason && r.expiresAt == row.expiresAt && r.updatedAt == row.updatedAt)
               && (match cmd
                   case Authorize(orderId, customerId, amount, _, _) =>
                     && r.orderId + "\n" + r.customerId == orderId + "\n" + customerId && r.amount == amount
                     && (r.status == Pending || r.status == Authorized || r.status == Declined)
                   case Retry(id, _, _) => r.id == id && (r.status == Authorized || r.status == Declined)
                   case Capture(id, _) => r.id == id && r.status == Captured
                   case Void(id, _) => r.id == id && r.status == Voided
                   case Refund(id, _) => r.id == id && r.status == Refunded)
  {
    hide ValidConfig, Reachable, StagesTrue, RecordsTrue, RowsTrue, Reaches;
    ReachableIsTruthful(cfg, s);
    assert WorkerTrue(s, w);
  }

  /** Only a capture is ever told that the authorization expired, and then the payment it asked for has expired. */
  lemma ExpiriesAreTrue(cfg: Config, s: State, w: nat)
    requires ValidConfig(cfg) && Reachable(cfg, s) && w in s.workers
    requires s.workers[w].phase == Finished(Failure(AuthorizationExpired))
    ensures var cmd := s.workers[w].cmd;
            cmd.Capture? && cmd.paymentId in s.db.payments && s.db.payments[cmd.paymentId].status == Expired
  {
    hide ValidConfig, Reachable, StagesTrue, RecordsTrue, RowsTrue;
    ReachableIsTruthful(cfg, s);
    assert WorkerTrue(s, w);
  }

  /**
   * No claim is let go without cause. An authorization never lets go for an unknown outcome, only when the bank refused its
   * card. Other commands let go for an unknown outcome, or when the bank refused the card of a retry, or said of a capture,
   * void or refund that it had been given already or that the new entry's id was taken.
   */
  lemma ReleasesAreTrue(cfg: Config, s: State, w: nat)
    requires ValidConfig(cfg) && Reachable(cfg, s) && w in s.workers && s.workers[w].phase.Releasing?
    ensures var op, id, kind := OpOf(s.workers[w].cmd), s.workers[w].phase.before.id, s.workers[w].phase.kind;
            && (kind == BankTimeout || kind == BankUnavailable || kind == InvalidInput || kind == BankStateConflict)
            && (op == AuthorizeOp ==> kind == InvalidInput)
            && (kind == InvalidInput ==>
                  && (op == AuthorizeOp || op == RetryOp)
                  && (|| HasRefused(s.calls, s.stages, id, BankAuthorize, InvalidCardCode)
                      || HasRefused(s.calls, s.stages, id, BankAuthorize, InvalidCvv)))
            && (kind == BankStateConflict ==> op != RetryOp && AlreadyGiven(s.calls, s.stages, id, BankOpOf(op)))
  {
    hide ValidConfig, Reachable, StagesTrue, RecordsTrue, RowsTrue, HasRefused, AlreadyGiven;
    ReachableIsTruthful(cfg, s);
    assert WorkerTrue(s, w);
  }

  /** A declined payment was declined by the bank, for the recorded reason. */
  lemma DeclinesAreTrue(cfg: Config, s: State, id: string)
    requires ValidConfig(cfg) && Reachable(cfg, s) && id in s.db.payments && s.db.payments[id].status == Declined
    ensures var reason := s.db.payments[id].declineReason;
            || (reason == ExpiredCard && HasRefused(s.calls, s.stages, id, BankAuthorize, CardExpired))
            || (reason == InsufficientFunds && HasRefused(s.calls, s.stages, id, BankAuthorize, InsufficientFundsCode))
  {
    hide ValidConfig, Reachable, StagesTrue, RecordsTrue, WorkersTrue, HasRefused;
    ReachableIsTruthful(cfg, s);
    assert RowTrue(s, id);
  }

  /** No command asks the bank more than twice under one claim. */
  lemma AtMostTwoAttempts(cfg: Config, s: State, w: nat)
    requires ValidConfig(cfg) && Reachable(cfg, s) && w in s.workers
    ensures s.workers[w].phase.Calling? ==> s.workers[w].phase.attempts <= 1
    ensures s.workers[w].phase.Awaiting? ==> 1 <= s.workers[w].phase.attempts <= 2
  {
    hide ValidConfig, Reachable, StagesTrue, RecordsTrue, RowsTrue;
    ReachableIsTruthful(cfg, s);
    assert WorkerTrue(s, w);
  }
}
