/** Debits that the gateway does not know of yet, and when it never will. */
module Strandings {
  import opened Text
  import opened Domain
  import opened Errors
  import opened Commands
  import opened Store
  import opened Bank
  import opened Client
  import opened Protocol
  import opened Invariants
  import opened Stability
  import opened WorkerSteps
  import opened StoreSteps
  import opened ClaimSteps
  import opened Runs
  import opened Safety
  import opened History
  import opened Leases
  import opened Paths
  import opened CommandPaths

  /** The row is authorized, and the bank has captured its hold under the payment's capture key. */
  predicate Debited(s: State, id: string) {
    && id in s.db.payments && s.db.payments[id].status == Authorized && PinKey(id, BankCapture) in s.pins
    && Ref(s.db.payments[id].holdId, CaptureTxn) in s.ledger.index
  }

  predicate CaptureCall(call: Call, id: string) {
    call.paymentId == id && call.op == BankCapture
  }

  predicate Grants(stage: Stage) {
    HasReply(stage) && stage.reply.CaptureMade?
  }

  /** No bank handler still has the capture's reply to remember. */
  ghost predicate StagesQuiet(calls: seq<Call>, stages: seq<Stage>, id: string) {
    forall c {:trigger stages[c]} :: 0 <= c < |stages| && c < |calls| && CaptureCall(calls[c], id) ==>
      !(stages[c].Executed? && stages[c].reply.CaptureMade?)
  }

  /** The worker neither waits for a reply that says captured nor has read one. */
  predicate WorkerQuiet(calls: seq<Call>, stages: seq<Stage>, w: Worker, id: string) {
    && (w.phase.Awaiting? && w.phase.call < |calls| && w.phase.call < |stages| && CaptureCall(calls[w.phase.call], id) ==>
          !Grants(stages[w.phase.call]))
    && (w.phase.Completing? && w.phase.before.id == id ==> w.phase.after.status != Captured)
  }

  /** In timely runs, the earliest start of a worker that may still write to the store; in others any worker may. */
  function Since(cfg: Config, timely: bool, s: State): Option<Time> {
    if timely then Some(s.now - cfg.timeout) else None
  }

  predicate MayWrite(since: Option<Time>, w: Worker) {
    since.None? || since.value <= w.start
  }

  ghost predicate WorkersQuiet(since: Option<Time>, calls: seq<Call>, stages: seq<Stage>, workers: map<nat, Worker>, id: string) {
    forall w {:trigger workers[w]} :: w in workers && MayWrite(since, workers[w]) ==> WorkerQuiet(calls, stages, workers[w], id)
  }

  /** The bank's reply is remembered under the payment's capture key. */
  predicate CachedFor(s: State, id: string)
    requires PinKey(id, BankCapture) in s.pins
  {
    CacheKey(s.pins[PinKey(id, BankCapture)], BankCapture) in s.cache
  }

  ghost predicate Silent(cfg: Config, timely: bool, s: State, id: string) {
    StagesQuiet(s.calls, s.stages, id) && WorkersQuiet(Since(cfg, timely, s), s.calls, s.stages, s.workers, id)
  }

  /**
   * The bank holds a debit of which no reply is left: none remembered, none to be remembered, and none to be read or
   * persisted by a worker that may still write.
   */
  ghost predicate Stranded(cfg: Config, timely: bool, s: State, id: string) {
    Debited(s, id) && !CachedFor(s, id) && Silent(cfg, timely, s, id)
  }

  // ---- The row stays authorized ----

  /** With its hold captured at the bank, a payment's status can only move to captured. */
  lemma OnlyCaptureFits(cfg: Config, s: State, p: Payment, hold: string)
    requires Inv(cfg, s) && Agrees(BooksOf(s), p) && HasHold(p.status) && p.holdId == hold
    requires Ref(hold, CaptureTxn) in s.ledger.index
    ensures p.status != Voided && p.status != Expired
  {
    hide Inv, Entries;
    if p.status == Voided {
      UseShows(cfg, s, p.voidId);
      HoldUsedOnce(cfg, s, hold);
    }
  }

  predicate IsAuthorized(db: Db, id: string) {
    id in db.payments && db.payments[id].status == Authorized
  }

  lemma PersistsQuietly(cfg: Config, s: State, w: nat, at: Time, acked: bool, id: string)
    requires Enabled(s, CompleteStep(w, at, acked)) && s.workers[w].phase.before.id == id && Attempt(s, w, at).1.None?
    requires Debited(s, id) && WorkerQuiet(s.calls, s.stages, s.workers[w], id) && Inv(cfg, s)
    ensures s.workers[w].phase.after.status == Authorized
  {
    hide Inv, Agrees, KeysPinned, NoKeyLost, Behind, WellFormed, Prepared, Overwrite, TableChecks, CaptureCall, Grants, Attempt;
    CompletingFacts(cfg, s, w, at, acked);
    CompletionFacts(cfg, s, w);
    var after := s.workers[w].phase.after;
    SameHold(s.db.payments[id], after);
    OnlyCaptureFits(cfg, s, after, s.db.payments[id].holdId);
  }

  /** An attempted completion touches one row, and that one only when it succeeds. */
  lemma AttemptRow(s: State, w: nat, at: Time, id: string)
    requires w in s.workers && s.workers[w].phase.Completing? && id in s.db.payments
    ensures var (db', error) := Attempt(s, w, at);
            && id in db'.payments
            && (db'.payments[id].status == s.db.payments[id].status
                || (error.None? && s.workers[w].phase.after.id == id
                    && db'.payments[id].status == s.workers[w].phase.after.status))
  {
    hide Overwrite, TableChecks, ExpectedStatus, CompletionResult, KeyOf;
    if s.workers[w].phase.after.id == id { OverwrittenStatus(s.db.payments[id], s.workers[w].phase.after); }
  }

  lemma CompletesQuietly(cfg: Config, s: State, w: nat, at: Time, acked: bool, id: string)
    requires w in s.workers && s.workers[w].phase.Completing? && s.workers[w].start <= at <= s.now && Debited(s, id)
    requires WorkerQuiet(s.calls, s.stages, s.workers[w], id) && Inv(cfg, s)
    ensures IsAuthorized(Finishing(s, w, at, acked).db, id)
  {
    hide Inv, WorkerQuiet, Finishing, Attempt, ExpectedStatus;
    FinishingFrame(s, w, at, acked);
    CompletingFacts(cfg, s, w, at, acked);
    AttemptRow(s, w, at, id);
    if s.workers[w].phase.before.id == id && Attempt(s, w, at).1.None? {
      PersistsQuietly(cfg, s, w, at, acked, id);
    }
  }

  lemma QuietOne(cfg: Config, timely: bool, s: State, w: nat, id: string)
    requires w in s.workers && MayWrite(Since(cfg, timely, s), s.workers[w])
    requires WorkersQuiet(Since(cfg, timely, s), s.calls, s.stages, s.workers, id)
    ensures WorkerQuiet(s.calls, s.stages, s.workers[w], id)
  {
    hide WorkerQuiet;
  }

  lemma OverwrittenStatus(row: Payment, p: Payment)
    ensures Overwrite(row, p).status == p.status
  {
  }

  lemma SameHold(p: Payment, q: Payment)
    requires Behind(p, q) && p.status == Authorized
    ensures q.holdId == p.holdId && HasHold(q.status) && (q.status == Refunded ==> !Edge(p.status, q.status))
  {
  }

  /** No step moves a debited row whose workers have nothing to tell. */
  lemma DebitedStays(cfg: Config, timely: bool, s: State, step: Step, id: string)
    requires ValidConfig(cfg) && Inv(cfg, s) && Enabled(s, step) && (timely ==> Timely(cfg, s, step))
    requires Debited(s, id) && WorkersQuiet(Since(cfg, timely, s), s.calls, s.stages, s.workers, id)
    ensures var s' := Effect(cfg, s, step);
            Debited(s', id) && s'.pins[PinKey(id, BankCapture)] == s.pins[PinKey(id, BankCapture)]
  {
    hide Inv, ValidConfig, Advance, PinsGrow, BooksGrew, WorkersQuiet, Effect, Enabled, Timely;
    var s' := Effect(cfg, s, step);
    StepLater(cfg, s, step);
    if IsQuiet(step) {
      QuietFrame(cfg, s, step);
    } else {
      StatusStays(cfg, timely, s, step, id);
    }
    StillDebited(s, s', id);
  }

  lemma StatusStays(cfg: Config, timely: bool, s: State, step: Step, id: string)
    requires Inv(cfg, s) && Enabled(s, step) && !IsQuiet(step) && (timely ==> Timely(cfg, s, step))
    requires Debited(s, id) && WorkersQuiet(Since(cfg, timely, s), s.calls, s.stages, s.workers, id)
    ensures IsAuthorized(Effect(cfg, s, step).db, id)
  {
    hide Inv, Claiming, Finishing, Executing, IsPaymentId, Clean, WorkersQuiet, CallOf;
    match step
    case ClaimStep(w, at, newId, newKey) =>
      TrailFacts(cfg, s, id);
      ClaimKeepsStatus(cfg, s, w, at, newId, newKey, id);
    case CompleteStep(w, at, acked) =>
      QuietOne(cfg, timely, s, w, id);
      CompletesQuietly(cfg, s, w, at, acked, id);
    case Execute(c, how, today, newTxn) => ExecuteFrame(cfg, s, c, how, today, newTxn);
    case Send(_) =>
    case BankTick(_) =>
  }

  lemma StillDebited(s: State, s': State, id: string)
    requires Debited(s, id) && Later(s, s') && id in s'.db.payments && s'.db.payments[id].status == Authorized
    ensures Debited(s', id) && s'.pins[PinKey(id, BankCapture)] == s.pins[PinKey(id, BankCapture)]
  {
    hide Lapsed;
    assert Behind(s.db.payments[id], s'.db.payments[id]);
    var k, r := PinKey(id, BankCapture), Ref(s.db.payments[id].holdId, CaptureTxn);
    assert s'.pins[k] == s.pins[k];
    assert s'.ledger.index[r] == s.ledger.index[r];
  }

  // ---- No reply comes back ----

  /** A call to capture the payment carries its capture key and names its hold. */
  lemma CaptureCallBody(cfg: Config, s: State, c: nat, id: string)
    requires Inv(cfg, s) && c < |s.calls| && CaptureCall(s.calls[c], id) && Debited(s, id)
    ensures s.calls[c].key == s.pins[PinKey(id, BankCapture)]
    ensures s.calls[c].request == CaptureRequest(s.db.payments[id].holdId, s.db.payments[id].amount)
  {
    hide Rows, Pinned, PinNames, Calls, LedgerOk, Origins, Replies, RowsAgree, WorkersAgree, Identities, Workers, Records,
         Trails;
    CallAt(cfg, s.db.payments, s.pins, s.calls, c);
  }

  /** The bank refuses to capture a hold twice. */
  lemma NoSecondCapture(cfg: Config, s: State, id: string, now: Time, today: YearMonth, holdFor: int, amount: int, newTxn: string)
    requires Inv(cfg, s) && Debited(s, id)
    ensures Handle(s.ledger, now, today, holdFor, CaptureRequest(s.db.payments[id].holdId, amount), newTxn).1.Refused?
  {
    hide Inv, Entries;
    RowAgrees(cfg, s, id);
    EntryOfPayment(cfg, s, s.db.payments[id].holdId);
  }

  /** One stage changes, and does not say that the payment was captured. */
  lemma StageSetQuiet(since: Option<Time>, calls: seq<Call>, stages: seq<Stage>, workers: map<nat, Worker>, c: nat,
                      stage: Stage, id: string)
    requires StagesQuiet(calls, stages, id) && WorkersQuiet(since, calls, stages, workers, id) && c < |stages| == |calls|
    requires CaptureCall(calls[c], id) ==> !Grants(stage)
    ensures StagesQuiet(calls, stages[c := stage], id) && WorkersQuiet(since, calls, stages[c := stage], workers, id)
  {
    forall w | w in workers && MayWrite(since, workers[w]) ensures WorkerQuiet(calls, stages[c := stage], workers[w], id) {
      assert WorkerQuiet(calls, stages, workers[w], id);
    }
  }

  lemma ExecutesInVain(cfg: Config, s: State, c: nat, how: Execution, today: YearMonth, newTxn: string, id: string)
    requires c < |s.calls| && c < |s.stages| && Debited(s, id) && CaptureCall(s.calls[c], id) && Inv(cfg, s)
    ensures !Grants(Executing(cfg, s, c, how, today, newTxn).stages[c])
  {
    hide Inv, Debited;
    CaptureCallBody(cfg, s, c, id);
    DebitedRow(s, id);
    NoSecondCapture(cfg, s, id, s.bankNow, today, cfg.holdFor, s.db.payments[id].amount, newTxn);
    hide Handle;
  }

  lemma DebitedRow(s: State, id: string)
    requires Debited(s, id)
    ensures id in s.db.payments && PinKey(id, BankCapture) in s.pins
  {
  }

  lemma MissesCache(cfg: Config, s: State, c: nat, id: string)
    requires c < |s.calls| && Debited(s, id) && CaptureCall(s.calls[c], id) && Inv(cfg, s) && !CachedFor(s, id)
    ensures CacheKey(s.calls[c].key, s.calls[c].op) !in s.cache
  {
    hide Inv;
    CaptureCallBody(cfg, s, c, id);
  }

  /** Calls with the payment's capture key are calls to capture the payment. */
  lemma KeyIsCapture(cfg: Config, s: State, c: nat, id: string)
    requires Inv(cfg, s) && c < |s.calls| && PinKey(id, BankCapture) in s.pins
    requires s.calls[c].key == s.pins[PinKey(id, BankCapture)] && s.calls[c].op == BankCapture
    ensures CaptureCall(s.calls[c], id)
  {
    hide Rows, Pinned, PinNames, Calls, LedgerOk, Origins, Replies, RowsAgree, WorkersAgree, Identities, Workers, Records,
         Trails, BodyFits;
    CallAt(cfg, s.db.payments, s.pins, s.calls, c);
    SamePinSameKey(s.db.payments, s.pins, s.issued, PinKey(s.calls[c].paymentId, BankCapture), PinKey(id, BankCapture));
  }

  lemma SamePinSameKey(payments: map<string, Payment>, pins: map<PinKey, string>, issued: set<string>, j: PinKey, k: PinKey)
    requires PinNames(payments, pins, issued) && j in pins && k in pins && pins[j] == pins[k]
    ensures j == k
  {
  }

  /** A reply that is being remembered is not the payment's capture. */
  lemma RemembersOther(cfg: Config, s: State, c: nat, id: string)
    requires c < |s.calls| == |s.stages| && PinKey(id, BankCapture) in s.pins && StagesQuiet(s.calls, s.stages, id)
    requires s.stages[c].Executed? && IsSuccess(s.stages[c].reply) && Inv(cfg, s)
    ensures CacheKey(s.calls[c].key, s.calls[c].op) != CacheKey(s.pins[PinKey(id, BankCapture)], BankCapture)
  {
    hide Inv;
    if CacheKey(s.calls[c].key, s.calls[c].op) == CacheKey(s.pins[PinKey(id, BankCapture)], BankCapture) {
      KeyIsCapture(cfg, s, c, id);
      SuccessIsCapture(cfg, s, c);
    }
  }

  /** A successful reply to a capture call says captured. */
  lemma SuccessIsCapture(cfg: Config, s: State, c: nat)
    requires Inv(cfg, s) && c < |s.calls| && s.calls[c].op == BankCapture && |s.calls| == |s.stages|
    ensures HasReply(s.stages[c]) && IsSuccess(s.stages[c].reply) ==> s.stages[c].reply.CaptureMade?
  {
    hide Rows, Pinned, PinNames, Calls, LedgerOk, Origins, Replies, RowsAgree, WorkersAgree, Identities, Workers, Records,
         Trails, MadeFor, Lapsed, Clean;
    StageAt(BooksOf(s), s.stages, s.cache, c);
  }

  // ---- The workers hear nothing ----

  /** One worker changes, and does not come to know of a capture. */
  lemma WorkerSetQuiet(since: Option<Time>, calls: seq<Call>, stages: seq<Stage>, workers: map<nat, Worker>, w: nat,
                       worker: Worker, id: string)
    requires WorkersQuiet(since, calls, stages, workers, id)
    requires MayWrite(since, worker) ==> WorkerQuiet(calls, stages, worker, id)
    ensures WorkersQuiet(since, calls, stages, workers[w := worker], id)
  {
    hide WorkerQuiet;
  }

  /** Only the bank's word makes a command record a capture. */
  lemma CapturedNeedsWord(op: Op, p: Payment, result: BankResult, at: Time)
    requires p.status == ExpectedStatus(op)
    ensures var phase := Decide(op, p, result, at);
            phase.Completing? && phase.after.status == Captured ==> op == CaptureOp && result.CaptureDone?
  {
    hide NormalizeRequired;
  }

  lemma CaptureWord(op: BankOp, reply: Reply)
    ensures ReadReply(op, reply).CaptureDone? ==> reply.CaptureMade?
  {
    hide IsBlank;
  }

  /** What a worker knows of its own call. */
  lemma OwnCall(cfg: Config, s: State, w: nat)
    requires w in s.workers && s.workers[w].phase.Awaiting? && Inv(cfg, s)
    ensures var worker := s.workers[w];
            && worker.phase.call < |s.calls| == |s.stages| && worker.phase.before.status == ExpectedStatus(OpOf(worker.cmd))
            && (OpOf(worker.cmd) == CaptureOp ==> CaptureCall(s.calls[worker.phase.call], worker.phase.before.id))
  {
    hide Rows, Pinned, PinNames, Calls, LedgerOk, Origins, RowsAgree, WorkersAgree, Identities, Workers, Records, Trails,
         WellFormed, Behind, KeysPinned, ClaimMatches, StageOk, EntryOk;
    WorkerAt(s.db.payments, s.pins, s.calls, s.workers, w);
  }

  lemma AnswerQuiet(cfg: Config, s: State, w: nat, result: BankResult, at: Time, retry: bool, id: string)
    requires w in s.workers && s.workers[w].phase.Awaiting? && Inv(cfg, s)
    requires WorkerQuiet(s.calls, s.stages, s.workers[w], id)
    requires result.CaptureDone? ==> s.workers[w].phase.call < |s.stages| && Grants(s.stages[s.workers[w].phase.call])
    ensures WorkerQuiet(s.calls, s.stages, s.workers[w].(phase := AfterAnswer(s.workers[w], result, at, retry)), id)
  {
    hide Inv, Decide;
    OwnCall(cfg, s, w);
    var worker := s.workers[w];
    CapturedNeedsWord(OpOf(worker.cmd), worker.phase.before, result, at);
    DecideEnds(OpOf(worker.cmd), worker.phase.before, result, at);
  }

  // ---- Step by step ----

  /** Nothing changed that could bring word of the capture, except that time may have passed. */
  lemma SameSilence(cfg: Config, timely: bool, s: State, s': State, id: string)
    requires Silent(cfg, timely, s, id) && s'.calls == s.calls && s'.stages == s.stages && s'.workers == s.workers
    requires s.now <= s'.now
    ensures Silent(cfg, timely, s', id)
  {
    hide StagesQuiet, WorkerQuiet;
  }

  lemma WorkerSilence(cfg: Config, timely: bool, s: State, s': State, w: nat, worker: Worker, id: string)
    requires Silent(cfg, timely, s, id) && s'.calls == s.calls && s'.stages == s.stages
    requires s'.workers == s.workers[w := worker]
    requires s'.now == s.now && (MayWrite(Since(cfg, timely, s), worker) ==> WorkerQuiet(s.calls, s.stages, worker, id))
    ensures Silent(cfg, timely, s', id)
  {
    hide StagesQuiet, WorkersQuiet, WorkerQuiet;
    WorkerSetQuiet(Since(cfg, timely, s), s.calls, s.stages, s.workers, w, worker, id);
  }

  lemma StageSilence(cfg: Config, timely: bool, s: State, s': State, c: nat, stage: Stage, id: string)
    requires Silent(cfg, timely, s, id) && c < |s.stages| == |s.calls| && s'.calls == s.calls && s'.workers == s.workers
    requires s'.stages == s.stages[c := stage] && (CaptureCall(s.calls[c], id) ==> !Grants(stage)) && s'.now == s.now
    ensures Silent(cfg, timely, s', id)
  {
    hide StagesQuiet, WorkersQuiet;
    StageSetQuiet(Since(cfg, timely, s), s.calls, s.stages, s.workers, c, stage, id);
  }

  lemma SendSilence(cfg: Config, timely: bool, s: State, w: nat, id: string)
    requires w in s.workers && s.workers[w].phase.Calling? && Silent(cfg, timely, s, id) && |s.calls| == |s.stages|
    requires forall v :: v in s.workers && s.workers[v].phase.Awaiting? ==> s.workers[v].phase.call < |s.calls|
    ensures Silent(cfg, timely, Sending(s, w), id)
  {
    hide CallOf;
    var s' := Sending(s, w);
    forall v | v in s'.workers && MayWrite(Since(cfg, timely, s'), s'.workers[v])
      ensures WorkerQuiet(s'.calls, s'.stages, s'.workers[v], id)
    {
      assert WorkerQuiet(s.calls, s.stages, s.workers[v], id);
    }
  }

  lemma CallsKnown(cfg: Config, s: State)
    requires Inv(cfg, s)
    ensures |s.calls| == |s.stages|
    ensures forall v :: v in s.workers && s.workers[v].phase.Awaiting? ==> s.workers[v].phase.call < |s.calls|
  {
    hide Rows, Pinned, PinNames, Calls, LedgerOk, Origins, RowsAgree, WorkersAgree, Identities, Workers, Records, Trails,
         Snapshot, Prepared, StageOk, EntryOk;
    forall v | v in s.workers && s.workers[v].phase.Awaiting? ensures s.workers[v].phase.call < |s.calls| {
      WorkerAt(s.db.payments, s.pins, s.calls, s.workers, v);
    }
  }

  lemma ClaimSilence(cfg: Config, timely: bool, s: State, w: nat, at: Time, newId: string, newKey: string, id: string)
    requires Enabled(s, ClaimStep(w, at, newId, newKey)) && Silent(cfg, timely, s, id) && ValidConfig(cfg) && Inv(cfg, s)
    ensures var s' := Claiming(cfg, s, w, at, newId, newKey); Silent(cfg, timely, s', id) && s'.cache == s.cache
  {
    hide Inv, ValidConfig, Silent, Claiming, RequestOf, Claim, Identified, IsPaymentId, Clean, SideOf, BooksOf;
    CallsKnown(cfg, s);
    IdentifiedHere(cfg, s, w);
    RequestIsOk(cfg, s.now, s.workers[w], at, newId, newKey);
    ClaimStands(cfg, s, w, at, newId, newKey);
    ClaimFrame(cfg, s, w, at, newId, newKey);
    var s' := Claiming(cfg, s, w, at, newId, newKey);
    SurroundingCalls(s, s');
    WorkerSilence(cfg, timely, s, s', w, s'.workers[w], id);
  }

  lemma SurroundingCalls(s: State, s': State)
    requires SameSurroundings(s, s')
    ensures s'.calls == s.calls && s'.stages == s.stages && s'.cache == s.cache && s'.now == s.now
  {
  }

  lemma CompleteSilence(cfg: Config, timely: bool, s: State, w: nat, at: Time, acked: bool, id: string)
    requires w in s.workers && s.workers[w].phase.Completing? && Silent(cfg, timely, s, id)
    ensures var s' := Finishing(s, w, at, acked); Silent(cfg, timely, s', id) && s'.cache == s.cache
  {
    hide Silent, Finishing;
    var s' := Finishing(s, w, at, acked);
    FinishingFrame(s, w, at, acked);
    var outcome: Outcome :| s'.workers == s.workers[w := s.workers[w].(phase := Finished(outcome))];
    EndSilence(cfg, timely, s, s', w, outcome, id);
  }

  lemma EndSilence(cfg: Config, timely: bool, s: State, s': State, w: nat, outcome: Outcome, id: string)
    requires w in s.workers && Silent(cfg, timely, s, id) && s'.calls == s.calls && s'.stages == s.stages && s'.now == s.now
    requires s'.workers == s.workers[w := s.workers[w].(phase := Finished(outcome))]
    ensures Silent(cfg, timely, s', id)
  {
    hide Silent;
    WorkerSilence(cfg, timely, s, s', w, s'.workers[w], id);
  }

  lemma AnswerSilence(cfg: Config, timely: bool, s: State, w: nat, result: BankResult, at: Time, retry: bool, id: string)
    requires w in s.workers && s.workers[w].phase.Awaiting? && Silent(cfg, timely, s, id) && Inv(cfg, s)
    requires result.CaptureDone? ==> s.workers[w].phase.call < |s.stages| && Grants(s.stages[s.workers[w].phase.call])
    ensures Silent(cfg, timely, SetPhase(s, w, AfterAnswer(s.workers[w], result, at, retry)), id)
  {
    hide Inv, AfterAnswer, StagesQuiet, Grants;
    if MayWrite(Since(cfg, timely, s), s.workers[w]) {
      QuietAt(cfg, timely, s, w, id);
      hide WorkersQuiet, WorkerQuiet, Silent;
      AnswerQuiet(cfg, s, w, result, at, retry, id);
    }
    hide WorkersQuiet, WorkerQuiet, Silent;
    WorkerSilence(cfg, timely, s, SetPhase(s, w, AfterAnswer(s.workers[w], result, at, retry)), w,
                  s.workers[w].(phase := AfterAnswer(s.workers[w], result, at, retry)), id);
  }

  lemma QuietAt(cfg: Config, timely: bool, s: State, w: nat, id: string)
    requires Silent(cfg, timely, s, id) && w in s.workers && MayWrite(Since(cfg, timely, s), s.workers[w])
    ensures WorkerQuiet(s.calls, s.stages, s.workers[w], id)
  {
    hide WorkerQuiet, StagesQuiet;
  }

  lemma LookupSilence(cfg: Config, timely: bool, s: State, c: nat, hit: bool, id: string)
    requires c < |s.stages| == |s.calls| && Stranded(cfg, timely, s, id) && Inv(cfg, s)
    requires hit ==> CacheKey(s.calls[c].key, s.calls[c].op) in s.cache
    ensures Silent(cfg, timely, LookingUp(s, c, hit), id)
  {
    hide Inv, Silent, Debited, CaptureCall, Grants, Clean;
    if CaptureCall(s.calls[c], id) { MissesCache(cfg, s, c, id); }
    MissedGrantsNothing();
    var s' := LookingUp(s, c, hit);
    StageSilence(cfg, timely, s, s', c, s'.stages[c], id);
  }

  lemma ExecuteSilence(cfg: Config, timely: bool, s: State, c: nat, how: Execution, today: YearMonth, newTxn: string, id: string)
    requires c < |s.stages| == |s.calls| && Stranded(cfg, timely, s, id) && Inv(cfg, s)
    ensures var s' := Executing(cfg, s, c, how, today, newTxn); Silent(cfg, timely, s', id) && s'.cache == s.cache
  {
    hide Inv, Silent, Debited, CaptureCall, Grants, Clean, Executing;
    if CaptureCall(s.calls[c], id) { ExecutesInVain(cfg, s, c, how, today, newTxn, id); }
    var s' := Executing(cfg, s, c, how, today, newTxn);
    ExecuteFrame(cfg, s, c, how, today, newTxn);
    ExecuteStage(cfg, s, c, how, today, newTxn);
    StageSilence(cfg, timely, s, s', c, s'.stages[c], id);
  }

  lemma CacheSilence(cfg: Config, timely: bool, s: State, c: nat, id: string)
    requires c < |s.stages| == |s.calls| && s.stages[c].Executed? && IsSuccess(s.stages[c].reply)
    requires Stranded(cfg, timely, s, id) && Inv(cfg, s)
    ensures Silent(cfg, timely, Caching(s, c), id)
    ensures CacheKey(s.pins[PinKey(id, BankCapture)], BankCapture) !in Caching(s, c).cache
  {
    hide Inv, Silent, CaptureCall, Grants;
    StagesPart(cfg, timely, s, id);
    RemembersOther(cfg, s, c, id);
    NotGranted(s, c, id);
    var s' := Caching(s, c);
    StageSilence(cfg, timely, s, s', c, s'.stages[c], id);
  }

  /** The steps of the bank. */
  lemma BankSilence(cfg: Config, timely: bool, s: State, step: Step, id: string)
    requires Enabled(s, step) && (step.Lookup? || step.Execute? || step.CacheReply?) && Stranded(cfg, timely, s, id)
    requires Inv(cfg, s)
    ensures var s' := Effect(cfg, s, step);
            && Silent(cfg, timely, s', id) && CacheKey(s.pins[PinKey(id, BankCapture)], BankCapture) !in s'.cache
  {
    hide Inv, Silent, Executing, Caching, Clean;
    CallsKnown(cfg, s);
    match step
    case Lookup(c, hit) => LookupSilence(cfg, timely, s, c, hit, id);
    case Execute(c, how, today, newTxn) => ExecuteSilence(cfg, timely, s, c, how, today, newTxn, id);
    case CacheReply(c) => CacheSilence(cfg, timely, s, c, id);
  }

  lemma MissedGrantsNothing()
    ensures !Grants(Missed)
  {
  }

  lemma ExecuteStage(cfg: Config, s: State, c: nat, how: Execution, today: YearMonth, newTxn: string)
    requires c < |s.calls| && c < |s.stages|
    ensures var s' := Executing(cfg, s, c, how, today, newTxn);
            && s'.calls == s.calls && s'.cache == s.cache && s'.stages == s.stages[c := s'.stages[c]]
            && |s'.stages| == |s.stages| && s'.now == s.now
  {
    hide Handle;
  }

  lemma StagesPart(cfg: Config, timely: bool, s: State, id: string)
    requires Silent(cfg, timely, s, id)
    ensures StagesQuiet(s.calls, s.stages, id)
  {
    hide StagesQuiet, WorkersQuiet;
  }

  lemma NotGranted(s: State, c: nat, id: string)
    requires c < |s.calls| == |s.stages| && StagesQuiet(s.calls, s.stages, id) && s.stages[c].Executed?
    ensures CaptureCall(s.calls[c], id) ==> !Grants(Answered(s.stages[c].reply))
  {
  }

  /** A step of the gateway leaves the silence and the remembered replies alone. */
  lemma GatewaySilence(cfg: Config, timely: bool, s: State, step: Step, id: string)
    requires Enabled(s, step) && !step.Lookup? && !step.Execute? && !step.CacheReply? && !step.Evict?
    requires Silent(cfg, timely, s, id) && ValidConfig(cfg) && Inv(cfg, s)
    ensures var s' := Effect(cfg, s, step); Silent(cfg, timely, s', id) && s'.cache == s.cache
  {
    hide Inv, ValidConfig, Silent, Claiming, Finishing, AfterAnswer, NewWorker, Accepted, IsPaymentId, Clean, ReadReply, Sending,
         LettingGo;
    var s' := Effect(cfg, s, step);
    CallsKnown(cfg, s);
    match step
    case Arrive(w, cmd) => ArriveSilence(cfg, timely, s, w, cmd, id);
    case ClaimStep(w, at, newId, newKey) => ClaimSilence(cfg, timely, s, w, at, newId, newKey, id);
    case Send(w) =>
      SendSilence(cfg, timely, s, w, id);
      SendKeepsCache(s, w);
    case Receive(w, at, retry) =>
      var reply := s.stages[s.workers[w].phase.call].reply;
      CaptureWord(BankOpOf(OpOf(s.workers[w].cmd)), reply);
      AnswerSilence(cfg, timely, s, w, ReadReply(BankOpOf(OpOf(s.workers[w].cmd)), reply), at, retry, id);
    case NoReply(w, kind, at, retry) => AnswerSilence(cfg, timely, s, w, BankFailed(kind), at, retry, id);
    case CompleteStep(w, at, acked) => CompleteSilence(cfg, timely, s, w, at, acked, id);
    case ReleaseStep(w, landed) =>
      ReleaseKeepsBank(s, w);
      EndSilence(cfg, timely, s, s', w, Failure(s.workers[w].phase.kind), id);
    case Abort(w) => EndSilence(cfg, timely, s, s', w, Failure(Internal), id);
    case Tick(_) => SameSilence(cfg, timely, s, s', id);
    case CleanupStep(_) => SameSilence(cfg, timely, s, s', id);
    case BankTick(_) => SameSilence(cfg, timely, s, s', id);
  }

  lemma ArriveSilence(cfg: Config, timely: bool, s: State, w: nat, cmd: Command, id: string)
    requires Silent(cfg, timely, s, id) && Accepted(cmd)
    ensures Silent(cfg, timely, s.(workers := s.workers[w := NewWorker(cfg, cmd, s.now)]), id)
  {
    hide Silent, Accepted, RequestText, CardText;
    WorkerSilence(cfg, timely, s, s.(workers := s.workers[w := NewWorker(cfg, cmd, s.now)]), w, NewWorker(cfg, cmd, s.now), id);
  }

  lemma SendKeepsCache(s: State, w: nat)
    requires w in s.workers && s.workers[w].phase.Calling?
    ensures Sending(s, w).cache == s.cache
  {
    hide CallOf;
  }

  lemma ReleaseKeepsBank(s: State, w: nat)
    requires w in s.workers && s.workers[w].phase.Releasing?
    ensures var s' := LettingGo(s, w);
            && s'.calls == s.calls && s'.stages == s.stages && s'.cache == s.cache && s'.now == s.now
            && s'.workers == s.workers[w := s.workers[w].(phase := Finished(Failure(s.workers[w].phase.kind)))]
  {
    hide Store.Release;
  }

  lemma EvictSilence(cfg: Config, timely: bool, s: State, keys: set<CacheKey>, id: string, k: CacheKey)
    requires Silent(cfg, timely, s, id) && k !in s.cache
    ensures Silent(cfg, timely, Evicting(s, keys), id) && k !in Evicting(s, keys).cache
  {
    hide Silent;
    SameSilence(cfg, timely, s, Evicting(s, keys), id);
  }

  lemma StrandedStep(cfg: Config, timely: bool, s: State, step: Step, id: string)
    requires Enabled(s, step) && (timely ==> Timely(cfg, s, step)) && Stranded(cfg, timely, s, id)
    requires ValidConfig(cfg) && Inv(cfg, s)
    ensures Stranded(cfg, timely, Effect(cfg, s, step), id)
  {
    hide Inv, ValidConfig, Debited, Silent, Enabled, Effect, Timely;
    DebitedRow(s, id);
    var k := CacheKey(s.pins[PinKey(id, BankCapture)], BankCapture);
    WorkersPart(cfg, timely, s, id);
    DebitedStays(cfg, timely, s, step, id);
    DebitedRow(Effect(cfg, s, step), id);
    if step.Lookup? || step.Execute? || step.CacheReply? {
      BankSilence(cfg, timely, s, step, id);
    } else if step.Evict? {
      EvictEffect(cfg, s, step);
      EvictSilence(cfg, timely, s, step.keys, id, k);
    } else {
      GatewaySilence(cfg, timely, s, step, id);
    }
  }

  lemma WorkersPart(cfg: Config, timely: bool, s: State, id: string)
    requires Silent(cfg, timely, s, id)
    ensures WorkersQuiet(Since(cfg, timely, s), s.calls, s.stages, s.workers, id)
  {
    hide StagesQuiet, WorkersQuiet;
  }

  lemma EvictEffect(cfg: Config, s: State, step: Step)
    requires step.Evict? && Enabled(s, step)
    ensures Effect(cfg, s, step) == Evicting(s, step.keys)
  {
    hide Evicting;
  }

  lemma HopStranded(cfg: Config, timely: bool, s: State, s': State, id: string)
    requires Hop(cfg, timely, s, s') && Stranded(cfg, timely, s, id) && ValidConfig(cfg) && Inv(cfg, s)
    ensures Stranded(cfg, timely, s', id) && Inv(cfg, s')
  {
    hide Inv, ValidConfig, Stranded, Enabled, Effect, Timely;
    var step: Step :| Enabled(s, step) && (timely ==> Timely(cfg, s, step)) && s' == Effect(cfg, s, step);
    StrandedStep(cfg, timely, s, step, id);
    StepInv(cfg, s, step);
  }

  lemma {:induction false} PathStranded(cfg: Config, timely: bool, path: seq<State>, s: State, s': State, i: nat, id: string)
    requires i < |path| && Stranded(cfg, timely, s, id) && IsPathTo(cfg, timely, path, s, s') && ValidConfig(cfg)
    requires Inv(cfg, s)
    ensures Stranded(cfg, timely, path[i], id) && Inv(cfg, path[i])
  {
    hide Inv, ValidConfig, Stranded, Hop;
    if i > 0 {
      PathStranded(cfg, timely, path, s, s', i - 1, id);
      assert HopAt(cfg, timely, path, i - 1);
      HopStranded(cfg, timely, path[i - 1], path[i], id);
    }
  }

  /**
   * A debit is lost to the gateway for good once none of its replies is remembered by the bank, about to be remembered,
   * waiting to be read, or read and about to be persisted: in every continuation the row stays authorized while the bank
   * keeps the debit. In timely runs, replies to workers past their deadlines do not matter.
   */
  lemma StrandedForever(cfg: Config, timely: bool, s: State, s': State, id: string)
    requires ValidConfig(cfg) && CanReach(cfg, timely, s) && Stranded(cfg, timely, s, id) && Leads(cfg, timely, s, s')
    ensures Stranded(cfg, timely, s', id)
    ensures id in s'.db.payments && s'.db.payments[id].status == Authorized
    ensures |Entries(s', CaptureTxn, id)| == 1
  {
    hide Inv, ValidConfig, CanReach, IsPathTo, Silent, Entries;
    CanReachInv(cfg, timely, s);
    var path: seq<State> :| IsPathTo(cfg, timely, path, s, s');
    LastOfPath(cfg, timely, path, s, s');
    PathStranded(cfg, timely, path, s, s', |path| - 1, id);
    DebitIsThere(cfg, s', id);
  }

  lemma LastOfPath(cfg: Config, timely: bool, path: seq<State>, s: State, s': State)
    requires IsPathTo(cfg, timely, path, s, s')
    ensures |path| > 0 && path[|path| - 1] == s'
  {
    hide Hop;
  }

  lemma DebitIsThere(cfg: Config, s: State, id: string)
    requires Debited(s, id) && Inv(cfg, s)
    ensures |Entries(s, CaptureTxn, id)| == 1
  {
    hide Inv, Entries;
    var r := Ref(s.db.payments[id].holdId, CaptureTxn);
    IndexedEntry(cfg, s, r);
    var t := s.ledger.index[r];
    EntryOfPayment(cfg, s, t);
    var other := s.calls[s.origin[t]].paymentId;
    RowAgrees(cfg, s, id);
    RowAgrees(cfg, s, other);
    assert other == id;
    OnlyEntry(cfg, s, CaptureTxn, id, t);
  }

  lemma IndexedEntry(cfg: Config, s: State, r: Ref)
    requires r in s.ledger.index && Inv(cfg, s)
    ensures IndexOk(s.ledger, r)
  {
    hide Rows, Pinned, PinNames, Calls, Origins, Replies, RowsAgree, WorkersAgree, Identities, Workers, Records, Trails,
         IndexOk, TxnOk;
  }
}
