/** Leases: with commands that end before their claims can be taken over, a claim has one live holder. */
module Leases {
  import opened Text
  import opened Domain
  import opened Errors
  import opened Commands
  import opened Store
  import opened Bank
  import opened Client
  import opened Protocol
  import opened Invariants
  import opened StoreSteps
  import opened ClaimSteps
  import opened Runs
  import opened Safety
  import opened History

  // ---- The timing assumption ----

  /** The configuration check: a claim is stuck only after any command that made it must have ended. */
  predicate LeaseOutlastsCommand(cfg: Config) {
    cfg.stuckAfter > cfg.timeout
  }

  /** A worker that is still within its request's deadline. */
  predicate InTime(timeout: int, now: Time, w: Worker) {
    now <= w.start + timeout
  }

  /** A step whose write to the store, if it has one, lands before its request's deadline. */
  predicate Timely(cfg: Config, s: State, step: Step)
    requires Enabled(s, step)
  {
    match step
    case ClaimStep(w, _, _, _) => InTime(cfg.timeout, s.now, s.workers[w])
    case CompleteStep(w, _, _) => InTime(cfg.timeout, s.now, s.workers[w])
    case ReleaseStep(w, landed) => landed ==> InTime(cfg.timeout, s.now, s.workers[w])
    case _ => true
  }

  ghost predicate TimelyNext(cfg: Config, s: State, s': State) {
    exists step: Step :: Enabled(s, step) && Timely(cfg, s, step) && s' == Effect(cfg, s, step)
  }

  /** A run in which every write to the store lands in time. */
  ghost predicate IsTimelyRun(cfg: Config, run: seq<State>) {
    |run| > 0 && Init(cfg, run[0]) && forall i {:trigger TimelyAt(cfg, run, i)} :: TimelyAt(cfg, run, i)
  }

  ghost predicate TimelyAt(cfg: Config, run: seq<State>, i: int) {
    0 <= i < |run| - 1 ==> TimelyNext(cfg, run[i], run[i + 1])
  }

  ghost predicate TimelyReachable(cfg: Config, s: State) {
    exists run: seq<State> :: IsTimelyRun(cfg, run) && s == run[|run| - 1]
  }

  // ---- The lease invariant ----

  /** The worker's claim is open, is about the worker's payment, and is the worker's own. */
  predicate OwnsClaim(records: map<RecordKey, Record>, leases: map<RecordKey, seq<Lease>>, w: nat, worker: Worker) {
    var k := KeyOf(worker);
    && Holds(worker)
    && k in records && records[k].progress.InProgress? && records[k].fingerprint == worker.fingerprint
    && records[k].paymentId == worker.phase.before.id && worker.start <= records[k].claimedAt
    && k in leases && |leases[k]| > 0 && Owner(leases[k]) == Lease(w, records[k].claimedAt)
  }

  /** Every worker that holds a claim and is still in time owns it. */
  ghost predicate Leased(timeout: int, now: Time, records: map<RecordKey, Record>,
                         leases: map<RecordKey, seq<Lease>>, workers: map<nat, Worker>)
  {
    forall w {:trigger workers[w]} :: w in workers && Holds(workers[w]) && InTime(timeout, now, workers[w]) ==>
      OwnsClaim(records, leases, w, workers[w])
  }

  ghost predicate LeasedIn(cfg: Config, s: State) {
    Leased(cfg.timeout, s.now, s.db.records, s.leases, s.workers)
  }

  /** Two live holders of one claim are one worker. */
  lemma OneOwner(cfg: Config, s: State, v: nat, w: nat)
    requires LeasedIn(cfg, s) && v in s.workers && w in s.workers && KeyOf(s.workers[v]) == KeyOf(s.workers[w])
    requires Holds(s.workers[v]) && InTime(cfg.timeout, s.now, s.workers[v])
    requires Holds(s.workers[w]) && InTime(cfg.timeout, s.now, s.workers[w])
    ensures v == w
  {
    assert OwnsClaim(s.db.records, s.leases, v, s.workers[v]);
    assert OwnsClaim(s.db.records, s.leases, w, s.workers[w]);
  }

  // ---- Every timely step keeps it ----

  /** A worker's phase changes; if it still holds a claim afterwards, it is the claim that it held. */
  lemma PhaseKeepsLeases(cfg: Config, s: State, v: nat, phase: Phase)
    requires LeasedIn(cfg, s) && v in s.workers
    requires var worker' := s.workers[v].(phase := phase);
             Holds(worker') ==> Holds(s.workers[v]) && phase.before == s.workers[v].phase.before
    ensures LeasedIn(cfg, SetPhase(s, v, phase))
  {
    var s' := SetPhase(s, v, phase);
    forall w | w in s'.workers && Holds(s'.workers[w]) && InTime(cfg.timeout, s'.now, s'.workers[w])
      ensures OwnsClaim(s'.db.records, s'.leases, w, s'.workers[w])
    {
      assert OwnsClaim(s.db.records, s.leases, w, s.workers[w]);
    }
  }

  lemma AnswerKeepsSnapshot(w: Worker, result: BankResult, at: Time, retry: bool)
    requires w.phase.Awaiting?
    ensures var phase := AfterAnswer(w, result, at, retry);
            (phase.Calling? || phase.Completing? || phase.Releasing?) && phase.before == w.phase.before
  {
    hide MarkAuthorized, MarkDeclined, MarkCaptured, MarkExpired, MarkVoided, MarkRefunded;
  }

  lemma AnswerKeepsLeases(cfg: Config, s: State, v: nat, result: BankResult, at: Time, retry: bool)
    requires LeasedIn(cfg, s) && v in s.workers && s.workers[v].phase.Awaiting?
    ensures LeasedIn(cfg, SetPhase(s, v, AfterAnswer(s.workers[v], result, at, retry)))
  {
    hide LeasedIn, AfterAnswer;
    AnswerKeepsSnapshot(s.workers[v], result, at, retry);
    PhaseKeepsLeases(cfg, s, v, AfterAnswer(s.workers[v], result, at, retry));
  }

  /** A live holder's claim cannot be taken over: it was claimed after its start, and a takeover comes too late. */
  lemma NotStuckYet(cfg: Config, s: State, w: nat, at: Time)
    requires LeaseOutlastsCommand(cfg) && LeasedIn(cfg, s) && w in s.workers && at <= s.now
    requires Holds(s.workers[w]) && InTime(cfg.timeout, s.now, s.workers[w])
    ensures KeyOf(s.workers[w]) in s.db.records && s.db.records[KeyOf(s.workers[w])].claimedAt > at - cfg.stuckAfter
  {
    assert OwnsClaim(s.db.records, s.leases, w, s.workers[w]);
  }

  /** A successful claim opens its record anew, and found it missing or stuck. */
  lemma ClaimedRecord(db: Db, r: ClaimRequest)
    requires forall id {:trigger db.payments[id]} :: id in db.payments ==> db.payments[id].id == id
    requires Claim(db, r).1.Claimed?
    ensures Claim(db, r).0.records
         == db.records[RequestKey(r) := Record(r.fingerprint, Claim(db, r).1.payment.id, InProgress, r.now)]
    ensures RequestKey(r) in db.records ==> IsStuck(db.records[RequestKey(r)], r)
  {
    hide TableChecks, NormalizeRequired;
  }

  /** A claim that succeeded gives its worker the claim and takes it from no live holder. */
  lemma HoldingKeepsLeases(cfg: Config, s: State, v: nat, at: Time, db': Db, p: Payment, recovered: bool)
    requires LeasedIn(cfg, s) && LeaseOutlastsCommand(cfg) && v in s.workers && s.workers[v].start <= at <= s.now
    requires var k := KeyOf(s.workers[v]);
             && db'.records == s.db.records[k := Record(s.workers[v].fingerprint, p.id, InProgress, at)]
             && (k in s.db.records ==> s.db.records[k].claimedAt <= at - cfg.stuckAfter)
    requires !Holds(s.workers[v])
    ensures LeasedIn(cfg, Holding(s, v, at, db', p, recovered))
  {
    var s' := Holding(s, v, at, db', p, recovered);
    forall w | w in s'.workers && Holds(s'.workers[w]) && InTime(cfg.timeout, s'.now, s'.workers[w])
      ensures OwnsClaim(s'.db.records, s'.leases, w, s'.workers[w])
    {
      if w != v {
        assert OwnsClaim(s.db.records, s.leases, w, s.workers[w]);
        NotStuckYet(cfg, s, w, at);
      }
    }
  }

  lemma ClaimKeepsLeases(cfg: Config, s: State, v: nat, at: Time, newId: string, newKey: string)
    requires ValidConfig(cfg) && Inv(cfg, s) && LeaseOutlastsCommand(cfg) && LeasedIn(cfg, s)
    requires Enabled(s, ClaimStep(v, at, newId, newKey))
    ensures LeasedIn(cfg, Claiming(cfg, s, v, at, newId, newKey))
  {
    hide Inv, ValidConfig, LeasedIn, RequestOf, Identified, IsPaymentId, Clean, Claim, Holding, RequestKey;
    IdentifiedHere(cfg, s, v);
    RequestIsOk(cfg, s.now, s.workers[v], at, newId, newKey);
    var request := RequestOf(cfg, s.workers[v], at, newId, newKey).value;
    var s0 := s.(issued := s.issued + {newId, newKey});
    IssuedKeepsLeases(cfg, s, s0);
    var (db', outcome) := Claim(s.db, request);
    match outcome
    case ClaimFailed(kind) => PhaseKeepsLeases(cfg, s0, v, Finished(Failure(kind)));
    case Replayed(result) => PhaseKeepsLeases(cfg, s0, v, Finished(Replay(result)));
    case Claimed(p, recovered) =>
      RowIdsIn(cfg, s);
      ClaimedRecord(s.db, request);
      HoldingKeepsLeases(cfg, s0, v, at, db', p, recovered);
  }

  lemma IssuedKeepsLeases(cfg: Config, s: State, s0: State)
    requires LeasedIn(cfg, s) && s0 == s.(issued := s0.issued)
    ensures LeasedIn(cfg, s0)
  {
  }

  lemma RowIdsIn(cfg: Config, s: State)
    requires Inv(cfg, s)
    ensures forall id {:trigger s.db.payments[id]} :: id in s.db.payments ==> s.db.payments[id].id == id
  {
    hide Rows, Pinned, PinNames, Calls, LedgerOk, Origins, Replies, RowsAgree, WorkersAgree, Identities, Workers,
         Records, Trails;
    RowIds(s.db.payments);
  }

  /** A worker ends its own claim: no other live holder has a claim under that key. */
  lemma EndingKeepsLeases(cfg: Config, s: State, s': State, v: nat, outcome: Outcome)
    requires LeasedIn(cfg, s) && v in s.workers && Holds(s.workers[v]) && InTime(cfg.timeout, s.now, s.workers[v])
    requires s'.now == s.now && s'.workers == s.workers[v := s.workers[v].(phase := Finished(outcome))]
    requires forall k {:trigger s'.db.records[k]} {:trigger s'.leases[k]} :: k != KeyOf(s.workers[v]) ==>
               && (k in s.db.records ==> k in s'.db.records && s'.db.records[k] == s.db.records[k])
               && (k in s.leases ==> k in s'.leases && s'.leases[k] == s.leases[k])
    ensures LeasedIn(cfg, s')
  {
    forall w | w in s'.workers && Holds(s'.workers[w]) && InTime(cfg.timeout, s'.now, s'.workers[w])
      ensures OwnsClaim(s'.db.records, s'.leases, w, s'.workers[w])
    {
      assert w != v;
      assert OwnsClaim(s.db.records, s.leases, w, s.workers[w]);
      if KeyOf(s.workers[w]) == KeyOf(s.workers[v]) {
        OneOwner(cfg, s, v, w);
      }
      assert s'.db.records[KeyOf(s.workers[w])] == s.db.records[KeyOf(s.workers[w])];
    }
  }

  /** A completion touches no record but its own. */
  lemma CompleteFrame(db: Db, c: HeldClaim, result: CommandResult, at: Time, k: RecordKey)
    requires k != ClaimKey(c) && k in db.records
    ensures var db' := Complete(db, c, result, at).0; k in db'.records && db'.records[k] == db.records[k]
  {
    hide TableChecks, Overwrite, ExpectedStatus, IsTerminalFailure;
  }

  lemma CompleteKeepsLeases(cfg: Config, s: State, v: nat, at: Time, acked: bool)
    requires LeasedIn(cfg, s) && Enabled(s, CompleteStep(v, at, acked)) && InTime(cfg.timeout, s.now, s.workers[v])
    ensures LeasedIn(cfg, Finishing(s, v, at, acked))
  {
    hide LeasedIn, Finishing, Complete;
    var s' := Finishing(s, v, at, acked);
    FinishingFrame(s, v, at, acked);
    var outcome: Outcome :| s'.workers == s.workers[v := s.workers[v].(phase := Finished(outcome))];
    var worker := s.workers[v];
    forall k | k != KeyOf(worker) && k in s.db.records ensures k in s'.db.records && s'.db.records[k] == s.db.records[k] {
      CompleteFrame(s.db, HeldBy(worker, worker.phase.after), CompletionResult(worker), at, k);
    }
    EndingKeepsLeases(cfg, s, s', v, outcome);
  }

  lemma ReleaseKeepsLeases(cfg: Config, s: State, v: nat)
    requires LeasedIn(cfg, s) && Enabled(s, ReleaseStep(v, true)) && InTime(cfg.timeout, s.now, s.workers[v])
    ensures LeasedIn(cfg, LettingGo(s, v))
  {
    hide LeasedIn;
    EndingKeepsLeases(cfg, s, LettingGo(s, v), v, Failure(s.workers[v].phase.kind));
  }

  lemma CleanupKeepsLeases(cfg: Config, s: State, at: Time)
    requires LeasedIn(cfg, s)
    ensures LeasedIn(cfg, Cleaning(s, at))
  {
    var s' := Cleaning(s, at);
    forall w | w in s'.workers && Holds(s'.workers[w]) && InTime(cfg.timeout, s'.now, s'.workers[w])
      ensures OwnsClaim(s'.db.records, s'.leases, w, s'.workers[w])
    {
      assert OwnsClaim(s.db.records, s.leases, w, s.workers[w]);
    }
  }

  /** Time passing, arrivals, calls and the bank leave claims and their holders alone. */
  lemma QuietKeepsLeases(cfg: Config, s: State, s': State)
    requires LeasedIn(cfg, s) && s.now <= s'.now && s'.db.records == s.db.records && s'.leases == s.leases
    requires forall w {:trigger s'.workers[w]} :: w in s'.workers && Holds(s'.workers[w]) ==>
               w in s.workers && s'.workers[w] == s.workers[w]
    ensures LeasedIn(cfg, s')
  {
    forall w | w in s'.workers && Holds(s'.workers[w]) && InTime(cfg.timeout, s'.now, s'.workers[w])
      ensures OwnsClaim(s'.db.records, s'.leases, w, s'.workers[w])
    {
      assert OwnsClaim(s.db.records, s.leases, w, s.workers[w]);
    }
  }

  lemma SendKeepsLeases(cfg: Config, s: State, v: nat)
    requires LeasedIn(cfg, s) && Enabled(s, Send(v))
    ensures LeasedIn(cfg, Sending(s, v))
  {
    hide LeasedIn, CallOf;
    var phase := s.workers[v].phase;
    var s1 := SetPhase(s, v, Awaiting(phase.before, phase.attempts + 1, |s.calls|));
    PhaseKeepsLeases(cfg, s, v, Awaiting(phase.before, phase.attempts + 1, |s.calls|));
    QuietKeepsLeases(cfg, s1, Sending(s, v));
  }

  lemma StepKeepsLeases(cfg: Config, s: State, step: Step)
    requires ValidConfig(cfg) && Inv(cfg, s) && LeaseOutlastsCommand(cfg) && LeasedIn(cfg, s)
    requires Enabled(s, step) && Timely(cfg, s, step)
    ensures LeasedIn(cfg, Effect(cfg, s, step))
  {
    hide Inv, ValidConfig, LeasedIn, Claiming, Finishing, LettingGo, Cleaning, Sending, Executing, AfterAnswer, NewWorker,
         Accepted, ReadReply, IsPaymentId, Clean;
    match step
    case Arrive(w, cmd) => ArriveKeepsLeases(cfg, s, w, cmd);
    case ClaimStep(w, at, newId, newKey) => ClaimKeepsLeases(cfg, s, w, at, newId, newKey);
    case Send(w) => SendKeepsLeases(cfg, s, w);
    case Receive(w, at, retry) =>
      AnswerKeepsLeases(cfg, s, w, ReadReply(BankOpOf(OpOf(s.workers[w].cmd)), s.stages[s.workers[w].phase.call].reply),
                        at, retry);
    case NoReply(w, kind, at, retry) => AnswerKeepsLeases(cfg, s, w, BankFailed(kind), at, retry);
    case CompleteStep(w, at, acked) => CompleteKeepsLeases(cfg, s, w, at, acked);
    case ReleaseStep(w, landed) =>
      if landed {
        ReleaseKeepsLeases(cfg, s, w);
      } else {
        PhaseKeepsLeases(cfg, s, w, Finished(Failure(s.workers[w].phase.kind)));
      }
    case Abort(w) => PhaseKeepsLeases(cfg, s, w, Finished(Failure(Internal)));
    case CleanupStep(at) => CleanupKeepsLeases(cfg, s, at);
    case Execute(c, how, today, newTxn) =>
      ExecuteFrame(cfg, s, c, how, today, newTxn);
      QuietKeepsLeases(cfg, s, Effect(cfg, s, step));
    case _ => QuietKeepsLeases(cfg, s, Effect(cfg, s, step));
  }

  lemma ArriveKeepsLeases(cfg: Config, s: State, w: nat, cmd: Command)
    requires LeasedIn(cfg, s) && Accepted(cmd)
    ensures LeasedIn(cfg, s.(workers := s.workers[w := NewWorker(cfg, cmd, s.now)]))
  {
    hide LeasedIn, Accepted, RequestText, CardText;
    QuietKeepsLeases(cfg, s, s.(workers := s.workers[w := NewWorker(cfg, cmd, s.now)]));
  }

  // ---- Timely runs ----

  lemma {:induction false} TimelyRunLeased(cfg: Config, run: seq<State>, i: nat)
    requires ValidConfig(cfg) && LeaseOutlastsCommand(cfg) && IsTimelyRun(cfg, run) && i < |run|
    ensures Inv(cfg, run[i]) && LeasedIn(cfg, run[i])
  {
    hide Inv, ValidConfig, Init, Enabled, Effect, Timely, LeaseOutlastsCommand;
    if i == 0 {
      InitInv(cfg, run[0]);
      InitLeased(cfg, run[0]);
    } else {
      hide LeasedIn;
      TimelyRunLeased(cfg, run, i - 1);
      var s := run[i - 1];
      assert TimelyAt(cfg, run, i - 1);
      var step: Step :| Enabled(s, step) && Timely(cfg, s, step) && run[i] == Effect(cfg, s, step);
      StepInv(cfg, s, step);
      StepKeepsLeases(cfg, s, step);
    }
  }

  lemma InitLeased(cfg: Config, s: State)
    requires Init(cfg, s)
    ensures LeasedIn(cfg, s)
  {
  }

  lemma TimelyReachableLeased(cfg: Config, s: State)
    requires ValidConfig(cfg) && LeaseOutlastsCommand(cfg) && TimelyReachable(cfg, s)
    ensures Inv(cfg, s) && LeasedIn(cfg, s)
  {
    hide Inv, ValidConfig, Init, TimelyNext, LeasedIn, LeaseOutlastsCommand;
    var run: seq<State> :| IsTimelyRun(cfg, run) && s == run[|run| - 1];
    TimelyRunLeased(cfg, run, |run| - 1);
  }

  // ---- Lease safety ----

  /** At most one live worker holds any operation and key. */
  lemma OneLiveHolder(cfg: Config, s: State, v: nat, w: nat)
    requires ValidConfig(cfg) && LeaseOutlastsCommand(cfg) && TimelyReachable(cfg, s)
    requires v in s.workers && w in s.workers && KeyOf(s.workers[v]) == KeyOf(s.workers[w])
    requires Holds(s.workers[v]) && InTime(cfg.timeout, s.now, s.workers[v])
    requires Holds(s.workers[w]) && InTime(cfg.timeout, s.now, s.workers[w])
    ensures v == w
  {
    hide Inv, ValidConfig, TimelyReachable, LeasedIn, LeaseOutlastsCommand;
    TimelyReachableLeased(cfg, s);
    OneOwner(cfg, s, v, w);
  }

  /** A release deletes the worker's own open claim on its own payment, and nothing else. */
  lemma ReleaseDeletesOwnClaim(cfg: Config, s: State, v: nat)
    requires ValidConfig(cfg) && LeaseOutlastsCommand(cfg) && TimelyReachable(cfg, s)
    requires Enabled(s, ReleaseStep(v, true)) && Timely(cfg, s, ReleaseStep(v, true))
    ensures OwnsClaim(s.db.records, s.leases, v, s.workers[v])
    ensures Effect(cfg, s, ReleaseStep(v, true)).db == s.db.(records := s.db.records - {KeyOf(s.workers[v])})
  {
    hide Inv, ValidConfig, TimelyReachable, LeaseOutlastsCommand;
    TimelyReachableLeased(cfg, s);
  }

  /**
   * A completion in time never meets an idempotency conflict: it succeeds exactly when the payment still has the
   * status that the command started from, and otherwise fails with a status conflict.
   */
  lemma CompletionMeetsNoConflict(cfg: Config, s: State, v: nat, at: Time, acked: bool)
    requires ValidConfig(cfg) && LeaseOutlastsCommand(cfg) && TimelyReachable(cfg, s)
    requires Enabled(s, CompleteStep(v, at, acked)) && Timely(cfg, s, CompleteStep(v, at, acked))
    ensures var before := s.workers[v].phase.before;
            && before.id in s.db.payments
            && Attempt(s, v, at).1 == (if s.db.payments[before.id].status == before.status then None
                                       else Some(StatusConflict))
  {
    hide Inv, ValidConfig, TimelyReachable, LeaseOutlastsCommand, Behind, KeysPinned, NoKeyLost, Agrees, TableChecks,
         Overwrite, Reaches;
    TimelyReachableLeased(cfg, s);
    assert OwnsClaim(s.db.records, s.leases, v, s.workers[v]);
    CompletingFacts(cfg, s, v, at, acked);
    IdentifiedHere(cfg, s, v);
    var before := s.workers[v].phase.before;
    if s.db.payments[before.id].status == before.status {
      CompletionFacts(cfg, s, v);
      PreparedStores(OpOf(s.workers[v].cmd), before, s.workers[v].phase.after, s.workers[v].phase.failure);
    }
  }

  lemma PreparedStores(op: Op, p: Payment, after: Payment, failure: Option<ErrorKind>)
    requires Prepared(op, p, after, failure)
    ensures TableChecks(after) && (failure.Some? ==> IsTerminalFailure(failure.value))
  {
  }

  // ---- Whose outcome a record stores ----

  /** Every stored outcome is about the payment that its record was opened for. */
  ghost predicate OwnOutcomes(records: map<RecordKey, Record>) {
    forall k {:trigger records[k]} :: k in records && records[k].progress.Completed? ==>
      records[k].progress.result.payment.id == records[k].paymentId
  }

  lemma ClaimKeepsOutcomes(cfg: Config, s: State, v: nat, at: Time, newId: string, newKey: string)
    requires Inv(cfg, s) && OwnOutcomes(s.db.records) && v in s.workers
    ensures OwnOutcomes(Claiming(cfg, s, v, at, newId, newKey).db.records)
  {
    hide Inv, RequestOf, Claim;
    var request := RequestOf(cfg, s.workers[v], at, newId, newKey);
    if request.Ok? && Claim(s.db, request.value).1.Claimed? {
      RowIdsIn(cfg, s);
      ClaimedRecord(s.db, request.value);
    }
  }

  lemma CompleteKeepsOutcomes(cfg: Config, s: State, v: nat, at: Time, acked: bool)
    requires Inv(cfg, s) && LeasedIn(cfg, s) && OwnOutcomes(s.db.records)
    requires Enabled(s, CompleteStep(v, at, acked)) && InTime(cfg.timeout, s.now, s.workers[v])
    ensures OwnOutcomes(Finishing(s, v, at, acked).db.records)
  {
    hide Inv, TableChecks, Overwrite, ExpectedStatus;
    assert OwnsClaim(s.db.records, s.leases, v, s.workers[v]);
    CompletingFacts(cfg, s, v, at, acked);
  }

  lemma StepKeepsOutcomes(cfg: Config, s: State, step: Step)
    requires Inv(cfg, s) && LeasedIn(cfg, s) && OwnOutcomes(s.db.records)
    requires Enabled(s, step) && Timely(cfg, s, step)
    ensures OwnOutcomes(Effect(cfg, s, step).db.records)
  {
    hide Inv, LeasedIn, Claiming, Finishing, Executing, AfterAnswer, NewWorker, Accepted, ReadReply, IsPaymentId, Clean;
    match step
    case ClaimStep(w, at, newId, newKey) => ClaimKeepsOutcomes(cfg, s, w, at, newId, newKey);
    case CompleteStep(w, at, acked) => CompleteKeepsOutcomes(cfg, s, w, at, acked);
    case Execute(c, how, today, newTxn) => ExecuteFrame(cfg, s, c, how, today, newTxn);
    case _ =>
  }

  lemma {:induction false} TimelyRunOutcomes(cfg: Config, run: seq<State>, i: nat)
    requires ValidConfig(cfg) && LeaseOutlastsCommand(cfg) && IsTimelyRun(cfg, run) && i < |run|
    ensures OwnOutcomes(run[i].db.records)
  {
    hide Inv, ValidConfig, Init, Enabled, Effect, Timely, LeaseOutlastsCommand, LeasedIn, OwnOutcomes;
    if i == 0 {
      InitOutcomes(cfg, run[0]);
    } else {
      TimelyRunOutcomes(cfg, run, i - 1);
      TimelyRunLeased(cfg, run, i - 1);
      var s := run[i - 1];
      assert TimelyAt(cfg, run, i - 1);
      var step: Step :| Enabled(s, step) && Timely(cfg, s, step) && run[i] == Effect(cfg, s, step);
      StepKeepsOutcomes(cfg, s, step);
    }
  }

  lemma InitOutcomes(cfg: Config, s: State)
    requires Init(cfg, s)
    ensures OwnOutcomes(s.db.records)
  {
  }

  /** In timely runs, replays are about the payment that the record was opened for. */
  lemma OutcomesAreOwn(cfg: Config, s: State, k: RecordKey)
    requires ValidConfig(cfg) && LeaseOutlastsCommand(cfg) && TimelyReachable(cfg, s)
    requires k in s.db.records && s.db.records[k].progress.Completed?
    ensures s.db.records[k].progress.result.payment.id == s.db.records[k].paymentId
  {
    hide ValidConfig, Init, TimelyNext, LeaseOutlastsCommand;
    var run: seq<State> :| IsTimelyRun(cfg, run) && s == run[|run| - 1];
    TimelyRunOutcomes(cfg, run, |run| - 1);
  }

  /** With no timing assumption at all, successive owners of one record are at least `stuckAfter` apart. */
  lemma OwnersAreSpaced(cfg: Config, s: State, k: RecordKey, i: nat)
    requires ValidConfig(cfg) && Reachable(cfg, s) && k in s.db.records
    ensures k in s.leases && |s.leases[k]| > 0 && Owner(s.leases[k]).at == s.db.records[k].claimedAt
    ensures i + 1 < |s.leases[k]| ==> s.leases[k][i].at + cfg.stuckAfter <= s.leases[k][i + 1].at
  {
    hide Rows, Pinned, PinNames, Calls, LedgerOk, Origins, Replies, RowsAgree, WorkersAgree, Identities, Workers,
         Records, Trails, Reachable, ValidConfig, ProgressOk, ClaimMatches;
    ReachableIsInv(cfg, s);
    RecordAt(s.db.payments, s.workers, s.db.records, s.leases, cfg.stuckAfter, k);
  }
}
