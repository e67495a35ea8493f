/** Every step keeps the invariant, so every state of every run satisfies it; and what no step ever undoes. */
module Runs {
  import opened Text
  import opened Domain
  import opened Errors
  import opened Commands
  import opened Store
  import opened Bank
  import opened Client
  import opened Protocol
  import opened Invariants
  import opened Stability
  import opened WorkerSteps
  import opened BankSteps
  import opened StoreSteps
  import opened ClaimSteps

  // ---- The invariant ----

  lemma StepInv(cfg: Config, s: State, step: Step)
    requires ValidConfig(cfg) && Inv(cfg, s) && Enabled(s, step)
    ensures Inv(cfg, Effect(cfg, s, step))
  {
    hide Inv, ValidConfig, Claiming, Sending, Receiving, AfterAnswer, Finishing, LettingGo, Cleaning, LookingUp,
         Executing, Caching, Evicting, NewWorker, Accepted, IsPaymentId, Clean;
    match step
    case Tick(now) => TickInv(cfg, s, now);
    case Arrive(w, cmd) => ArriveInv(cfg, s, w, cmd);
    case ClaimStep(w, at, newId, newKey) => ClaimInv(cfg, s, w, at, newId, newKey);
    case Send(w) => SendInv(cfg, s, w);
    case Receive(w, at, retry) => ReceiveInv(cfg, s, w, at, retry);
    case NoReply(w, kind, at, retry) => NoReplyInv(cfg, s, w, kind, at, retry);
    case CompleteStep(w, at, acked) => CompleteInv(cfg, s, w, at, acked);
    case ReleaseStep(w, landed) =>
      if landed { ReleaseInv(cfg, s, w); } else { FinishInv(cfg, s, w, Failure(s.workers[w].phase.kind)); }
    case Abort(w) => FinishInv(cfg, s, w, Failure(Internal));
    case CleanupStep(at) => CleanupInv(cfg, s, at);
    case BankTick(now) => BankTickInv(cfg, s, now);
    case Lookup(c, hit) => LookupInv(cfg, s, c, hit);
    case Execute(c, how, today, newTxn) => ExecuteInv(cfg, s, c, how, today, newTxn);
    case CacheReply(c) => CacheReplyInv(cfg, s, c);
    case Evict(keys) => EvictInv(cfg, s, keys);
  }

  lemma NextInv(cfg: Config, s: State, s': State)
    requires ValidConfig(cfg) && Inv(cfg, s) && Next(cfg, s, s')
    ensures Inv(cfg, s')
  {
    hide Inv, ValidConfig, Enabled, Effect;
    var step: Step :| Enabled(s, step) && s' == Effect(cfg, s, step);
    StepInv(cfg, s, step);
  }

  /** Every state of every run satisfies the invariant. */
  lemma {:induction false} ReachableInv(cfg: Config, run: seq<State>, i: nat)
    requires ValidConfig(cfg) && IsRun(cfg, run) && i < |run|
    ensures Inv(cfg, run[i])
  {
    hide Inv, ValidConfig, Next, Init;
    if i == 0 {
      InitInv(cfg, run[0]);
    } else {
      ReachableInv(cfg, run, i - 1);
      assert StepAt(cfg, run, i - 1);
      NextInv(cfg, run[i - 1], run[i]);
    }
  }

  lemma LedgerIsOk(cfg: Config, s: State)
    requires Inv(cfg, s)
    ensures LedgerOk(s.ledger)
  {
    hide LedgerOk;
  }

  // ---- What only grows ----

  /** A later state: clocks advanced, payments moved forward, pins and calls kept, books only extended. */
  ghost predicate Later(s: State, s': State) {
    && s.now <= s'.now
    && Advance(s.db.payments, s'.db.payments)
    && PinsGrow(s.pins, s'.pins)
    && BooksGrew(BooksOf(s), BooksOf(s'))
  }

  lemma LaterTransitive(s: State, t: State, u: State)
    requires Later(s, t) && Later(t, u)
    ensures Later(s, u)
  {
    hide BooksGrew, Behind;
    BooksGrewTransitive(BooksOf(s), BooksOf(t), BooksOf(u));
    forall id | id in s.db.payments ensures id in u.db.payments && Behind(s.db.payments[id], u.db.payments[id]) {
      assert Behind(s.db.payments[id], t.db.payments[id]);
      BehindTransitive(s.db.payments[id], t.db.payments[id], u.db.payments[id]);
    }
  }

  lemma GrewTransitive(a: Ledger, b: Ledger, c: Ledger)
    requires Grew(a, b) && Grew(b, c)
    ensures Grew(a, c)
  {
    forall id | id in a.txns ensures id in c.txns && c.txns[id].(status := a.txns[id].status) == a.txns[id] {
      assert b.txns[id].(status := a.txns[id].status) == a.txns[id];
    }
    forall r | r in a.index ensures r in c.index && c.index[r] == a.index[r] {
      assert b.index[r] == a.index[r];
    }
  }

  lemma BooksGrewTransitive(a: Books, b: Books, c: Books)
    requires BooksGrew(a, b) && BooksGrew(b, c)
    ensures BooksGrew(a, c)
  {
    hide Lapsed;
    GrewTransitive(a.ledger, b.ledger, c.ledger);
    forall h | Lapsed(a, h) ensures Lapsed(c, h) {
      assert Lapsed(b, h);
    }
    forall id | id in a.origin ensures id in c.origin && c.origin[id] == a.origin[id] {
      assert b.origin[id] == a.origin[id];
    }
  }

  /** A step of the gateway that leaves the tables' payments, the pins and the books alone. */
  lemma SameTablesLater(s: State, s': State)
    requires s.now <= s'.now && s'.db.payments == s.db.payments && s'.pins == s.pins && BooksOf(s') == BooksOf(s)
    ensures Later(s, s')
  {
    hide BooksGrew;
    AdvanceReflexive(s.db.payments);
    PinsGrowReflexive(s.pins);
    BooksUnchanged(BooksOf(s));
  }

  /** A step that writes no payment, makes no call and does not move the bank. */
  predicate IsQuiet(step: Step) {
    !step.ClaimStep? && !step.CompleteStep? && !step.Send? && !step.BankTick? && !step.Execute?
  }

  predicate SameTables(s: State, s': State) {
    && s.now <= s'.now && s'.db.payments == s.db.payments && s'.pins == s.pins && s'.trail == s.trail
    && BooksOf(s') == BooksOf(s)
  }

  lemma PhaseFrame(s: State, w: nat, phase: Phase)
    requires w in s.workers
    ensures SameTables(s, SetPhase(s, w, phase))
  {
  }

  lemma ReleaseFrame(s: State, w: nat)
    requires w in s.workers && s.workers[w].phase.Releasing?
    ensures SameTables(s, LettingGo(s, w))
  {
  }

  /** The quiet steps of a worker. */
  lemma WorkerFrame(cfg: Config, s: State, step: Step)
    requires Enabled(s, step) && (step.Receive? || step.NoReply? || step.ReleaseStep? || step.Abort?)
    ensures SameTables(s, Effect(cfg, s, step))
  {
    hide AfterAnswer, ReadReply, SetPhase, LettingGo, SameTables, IsRetryable;
    match step
    case Receive(w, at, retry) =>
      var result := ReadReply(BankOpOf(OpOf(s.workers[w].cmd)), s.stages[s.workers[w].phase.call].reply);
      PhaseFrame(s, w, AfterAnswer(s.workers[w], result, at, retry));
    case NoReply(w, kind, at, retry) => PhaseFrame(s, w, AfterAnswer(s.workers[w], BankFailed(kind), at, retry));
    case ReleaseStep(w, landed) =>
      PhaseFrame(s, w, Finished(Failure(s.workers[w].phase.kind)));
      ReleaseFrame(s, w);
    case Abort(w) => PhaseFrame(s, w, Finished(Failure(Internal)));
  }

  lemma QuietFrame(cfg: Config, s: State, step: Step)
    requires Enabled(s, step) && IsQuiet(step)
    ensures SameTables(s, Effect(cfg, s, step))
  {
    hide NewWorker, Accepted;
    if step.Receive? || step.NoReply? || step.ReleaseStep? || step.Abort? {
      hide Enabled, Effect, SameTables;
      WorkerFrame(cfg, s, step);
    } else {
      match step
      case Tick(_) =>
      case Arrive(_, _) =>
      case CleanupStep(_) =>
      case Lookup(_, _) =>
      case CacheReply(_) =>
      case Evict(_) =>
    }
  }

  lemma StepLater(cfg: Config, s: State, step: Step)
    requires ValidConfig(cfg) && Inv(cfg, s) && Enabled(s, step)
    ensures Later(s, Effect(cfg, s, step))
  {
    hide Inv, ValidConfig, Later, Claiming, Finishing, AfterAnswer, Executing, NewWorker, Accepted, IsPaymentId, Clean;
    if IsQuiet(step) {
      QuietLater(cfg, s, step);
      return;
    }
    match step
    case ClaimStep(w, at, newId, newKey) => ClaimLater(cfg, s, w, at, newId, newKey);
    case CompleteStep(w, at, acked) => CompleteLater(cfg, s, w, at, acked);
    case Send(w) => SendLater(s, w);
    case BankTick(now) => BankTickLater(s, now);
    case Execute(c, how, today, newTxn) => ExecuteLater(cfg, s, c, how, today, newTxn);
  }

  lemma QuietLater(cfg: Config, s: State, step: Step)
    requires Enabled(s, step) && IsQuiet(step)
    ensures Later(s, Effect(cfg, s, step))
  {
    hide Enabled, Effect, Later;
    QuietFrame(cfg, s, step);
    SameTablesLater(s, Effect(cfg, s, step));
  }

  lemma ClaimLater(cfg: Config, s: State, w: nat, at: Time, newId: string, newKey: string)
    requires ValidConfig(cfg) && Inv(cfg, s) && Enabled(s, ClaimStep(w, at, newId, newKey))
    ensures Later(s, Claiming(cfg, s, w, at, newId, newKey))
  {
    hide Inv, ValidConfig, Advance, PinsGrow, BooksGrew, Claiming, IsPaymentId, Clean;
    ClaimInv(cfg, s, w, at, newId, newKey);
    ClaimFrame(cfg, s, w, at, newId, newKey);
    BooksUnchanged(BooksOf(s));
  }

  /** The clock and the bank, which no claim touches. */
  predicate SameSurroundings(s: State, s': State) {
    s'.now == s.now && s'.cache == s.cache && s'.stages == s.stages && BooksOf(s') == BooksOf(s)
  }

  lemma ClaimFrame(cfg: Config, s: State, w: nat, at: Time, newId: string, newKey: string)
    requires w in s.workers
    ensures SameSurroundings(s, Claiming(cfg, s, w, at, newId, newKey))
  {
    hide RequestOf, Claim, Holding, SameSurroundings, SetPhase;
    var s0 := s.(issued := s.issued + {newId, newKey});
    SurroundingsKept(s, s0);
    match RequestOf(cfg, s.workers[w], at, newId, newKey)
    case Err(_) => FinishFrame(s, s0, w, Failure(Internal));
    case Ok(request) =>
      var (db', outcome) := Claim(s.db, request);
      match outcome
      case ClaimFailed(kind) => FinishFrame(s, s0, w, Failure(kind));
      case Replayed(result) => FinishFrame(s, s0, w, Replay(result));
      case Claimed(p, recovered) => HoldingFrame(s, s0, w, at, db', p, recovered);
  }

  lemma SurroundingsKept(s: State, s0: State)
    requires s0 == s.(issued := s0.issued)
    ensures SameSurroundings(s, s0)
  {
  }

  lemma FinishFrame(s: State, s0: State, w: nat, outcome: Outcome)
    requires SameSurroundings(s, s0) && w in s0.workers
    ensures SameSurroundings(s, SetPhase(s0, w, Finished(outcome)))
  {
  }

  lemma HoldingFrame(s: State, s0: State, w: nat, at: Time, db': Db, p: Payment, recovered: bool)
    requires SameSurroundings(s, s0) && w in s0.workers
    ensures SameSurroundings(s, Holding(s0, w, at, db', p, recovered))
  {
  }

  lemma CompleteLater(cfg: Config, s: State, w: nat, at: Time, acked: bool)
    requires Inv(cfg, s) && Enabled(s, CompleteStep(w, at, acked))
    ensures Later(s, Finishing(s, w, at, acked))
  {
    hide Inv, Advance, PinsGrow, BooksGrew, TableChecks, Agrees, KeysPinned, NoKeyLost, Behind, WellFormed, Prepared,
         Overwrite, Snapshot, Identified, WorkerAgrees;
    BooksUnchanged(BooksOf(s));
    PinsGrowReflexive(s.pins);
    AdvanceReflexive(s.db.payments);
    var worker := s.workers[w];
    if Complete(s.db, HeldBy(worker, worker.phase.after), CompletionResult(worker), at).1.None? {
      HolderFacts(cfg, s, w);
      SnapshotStatus(s.db.payments, s.pins, worker, worker.phase.before);
      PreparedIds(OpOf(worker.cmd), worker.phase.before, worker.phase.after, worker.phase.failure);
      CompletionFacts(cfg, s, w);
      AdvanceWith(s.db.payments, worker.phase.after);
    }
  }

  lemma SendLater(s: State, w: nat)
    requires Enabled(s, Send(w))
    ensures Later(s, Sending(s, w))
  {
    AdvanceReflexive(s.db.payments);
    PinsGrowReflexive(s.pins);
    BooksWithCall(BooksOf(s), CallOf(s.workers[w].cmd, s.workers[w].phase.before));
  }

  lemma BankTickLater(s: State, now: Time)
    requires s.bankNow <= now
    ensures Later(s, s.(bankNow := now))
  {
    hide BooksGrew;
    AdvanceReflexive(s.db.payments);
    PinsGrowReflexive(s.pins);
    LaterBooks(BooksOf(s), now);
  }

  lemma ExecuteLater(cfg: Config, s: State, c: nat, how: Execution, today: YearMonth, newTxn: string)
    requires Inv(cfg, s) && Enabled(s, Execute(c, how, today, newTxn))
    ensures Later(s, Executing(cfg, s, c, how, today, newTxn))
  {
    hide Rows, Pinned, PinNames, Calls, LedgerOk, Origins, Replies, RowsAgree, WorkersAgree, Identities, Workers,
         Records, Trails, BooksGrew, Handle;
    AdvanceReflexive(s.db.payments);
    PinsGrowReflexive(s.pins);
    BooksUnchanged(BooksOf(s));
    OriginKeys(BooksOf(s));
    HandledBooksGrew(cfg, BooksOf(s), c, today, newTxn);
  }

  lemma NextLater(cfg: Config, s: State, s': State)
    requires ValidConfig(cfg) && Inv(cfg, s) && Next(cfg, s, s')
    ensures Later(s, s')
  {
    hide Inv, ValidConfig, Enabled, Effect, Later;
    var step: Step :| Enabled(s, step) && s' == Effect(cfg, s, step);
    StepLater(cfg, s, step);
  }

  /** Of two states of a run, the one further on is later. */
  lemma {:induction false} RunLater(cfg: Config, run: seq<State>, i: nat, j: nat)
    requires ValidConfig(cfg) && IsRun(cfg, run) && i <= j < |run|
    ensures Later(run[i], run[j])
    decreases j
  {
    hide Inv, ValidConfig, Next, Init, Later;
    if i == j {
      SameTablesLater(run[i], run[i]);
    } else {
      RunLater(cfg, run, i, j - 1);
      ReachableInv(cfg, run, j - 1);
      assert StepAt(cfg, run, j - 1);
      NextLater(cfg, run[j - 1], run[j]);
      LaterTransitive(run[i], run[j - 1], run[j]);
    }
  }
}
