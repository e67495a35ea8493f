/** What commands achieve over a run: recovery, lossless completion, status histories and stored outcomes. */
module History {
  import opened Text
  import opened Domain
  import opened Errors
  import opened Commands
  import opened Store
  import opened Bank
  import opened Protocol
  import opened Invariants
  import opened WorkerSteps
  import opened StoreSteps
  import opened ClaimSteps
  import opened Runs
  import opened Safety

  // ---- Recovery ----

  /** Past its status check, recovery cannot trip over a missing key, another payment or another card. */
  lemma RecoveryArguments(cfg: Config, s: State, w: nat, k: RecordKey)
    requires ValidConfig(cfg) && Inv(cfg, s) && w in s.workers && k == KeyOf(s.workers[w]) && k in s.db.records
    requires s.db.records[k].progress.InProgress? && s.db.records[k].fingerprint == s.workers[w].fingerprint
    ensures var rec := s.db.records[k];
            var worker := s.workers[w];
            && rec.paymentId in s.db.payments
            && var p := s.db.payments[rec.paymentId];
               && p.id == rec.paymentId
               && (!worker.cmd.Authorize? ==> worker.cmd.paymentId == rec.paymentId)
               && !CardMismatch(worker.cardFingerprint, p)
               && (p.status == ExpectedStatus(k.op) ==>
                     KeyFor(k.op, p) != "" && IsPinned(s.pins, p.id, BankOpOf(k.op), KeyFor(k.op, p)))
  {
    hide Inv, ValidConfig, RecordOk, WellFormed, Behind, Agrees, Identified;
    RecoverableSnapshot(cfg, s, w, k);
    IdentifiedHere(cfg, s, w);
    CardFingerprintPresent(cfg, s.now, s.workers[w]);
    var p := s.db.payments[s.db.records[k].paymentId];
    if p.status == ExpectedStatus(k.op) {
      HeldKeyPinned(s.pins, k.op, p);
    }
  }

  /**
   * Recovering a stuck claim fails only with a status conflict, and exactly when the payment has moved on; otherwise
   * it hands out the payment of the original claim, with the bank key pinned first, and changes no payment.
   */
  lemma RecoveryComplete(cfg: Config, s: State, w: nat, at: Time, newId: string, newKey: string)
    requires ValidConfig(cfg) && Reachable(cfg, s) && Enabled(s, ClaimStep(w, at, newId, newKey))
    requires KeyOf(s.workers[w]) in s.db.records
    requires var rec := s.db.records[KeyOf(s.workers[w])];
             && rec.progress.InProgress? && rec.fingerprint == s.workers[w].fingerprint
             && rec.claimedAt <= at - cfg.stuckAfter
    ensures var worker := s.workers[w];
            var op := OpOf(worker.cmd);
            var request := RequestOf(cfg, worker, at, newId, newKey);
            var rec := s.db.records[KeyOf(worker)];
            && request.Ok? && rec.paymentId in s.db.payments
            && var p := s.db.payments[rec.paymentId];
               var (db', outcome) := Claim(s.db, request.value);
               && db'.payments == s.db.payments
               && (p.status != ExpectedStatus(op) ==> outcome == ClaimFailed(StatusConflict))
               && (p.status == ExpectedStatus(op) ==>
                     && outcome == Claimed(p, true)
                     && IsPinned(s.pins, p.id, BankOpOf(op), KeyFor(op, p)))
  {
    hide Inv, ValidConfig, Reachable, RequestOf, Identified, IsPaymentId, Clean, Acquire;
    ReachableIsInv(cfg, s);
    IdentifiedHere(cfg, s, w);
    RequestIsOk(cfg, s.now, s.workers[w], at, newId, newKey);
    RecoveryArguments(cfg, s, w, KeyOf(s.workers[w]));
  }

  // ---- Completion ----

  /** The attempt of a worker to complete its command. */
  function Attempt(s: State, w: nat, at: Time): (Db, Option<ErrorKind>)
    requires w in s.workers && s.workers[w].phase.Completing?
  {
    var worker := s.workers[w];
    Complete(s.db, HeldBy(worker, worker.phase.after), CompletionResult(worker), at)
  }

  lemma FinishingFrame(s: State, w: nat, at: Time, acked: bool)
    requires w in s.workers && s.workers[w].phase.Completing?
    ensures var s' := Finishing(s, w, at, acked);
            && s'.now == s.now && s'.leases == s.leases && (s'.db == s.db || s'.db == Attempt(s, w, at).0)
            && s'.calls == s.calls && s'.stages == s.stages && s'.cache == s.cache && s'.ledger == s.ledger
            && exists outcome: Outcome :: s'.workers == s.workers[w := s.workers[w].(phase := Finished(outcome))]
  {
    hide Complete, Replay, CompletionResult, HeldBy;
    var s' := Finishing(s, w, at, acked);
    var error := Attempt(s, w, at).1;
    var outcome := if error.Some? then Failure(error.value)
                   else if acked then Replay(CompletionResult(s.workers[w])) else Failure(Internal);
    assert s'.workers == s.workers[w := s.workers[w].(phase := Finished(outcome))];
  }

  /** What a completion must leave alone in the row it overwrites. */
  predicate NothingLost(row: Payment, row': Payment) {
    && SameIdentity(row, row')
    && (forall op: Op :: KeyFor(op, row) != "" && Reaches(row'.status, ExpectedStatus(op)) ==>
          KeyFor(op, row') == KeyFor(op, row))
    && (HasHold(row.status) ==> row'.holdId == row.holdId && row'.expiresAt == row.expiresAt)
    && (HasCapture(row.status) ==> row'.captureId == row.captureId)
  }

  lemma CompletedRowLosesNothing(pins: map<PinKey, string>, row: Payment, row': Payment)
    requires Behind(row, row') && KeysPinned(pins, row) && NoKeyLost(pins, row') && WellFormed(row)
    requires row != row' ==> Edge(row.status, row'.status)
    ensures NothingLost(row, row')
  {
    hide Normalized, IsPaymentId;
  }

  /**
   * A completion overwrites the whole row from a snapshot taken at claim time. When its guards pass, nothing that
   * still matters is lost, a pending payment that stays pending is not touched at all, and no other row changes.
   */
  lemma CompletionLosesNothing(cfg: Config, s: State, w: nat, at: Time, acked: bool)
    requires ValidConfig(cfg) && Reachable(cfg, s) && Enabled(s, CompleteStep(w, at, acked))
    requires Attempt(s, w, at).1.None?
    ensures var worker := s.workers[w];
            var (p, after) := (worker.phase.before, worker.phase.after);
            var payments' := Effect(cfg, s, CompleteStep(w, at, acked)).db.payments;
            && p.id in s.db.payments && payments' == s.db.payments[p.id := after]
            && NothingLost(s.db.payments[p.id], after)
            && (p.status == after.status ==> payments' == s.db.payments)
            && (p.status != after.status ==> Edge(s.db.payments[p.id].status, after.status))
  {
    hide Inv, ValidConfig, Reachable, TableChecks, Agrees, KeysPinned, NoKeyLost, Behind, WellFormed, Prepared,
         Overwrite, NothingLost;
    ReachableIsInv(cfg, s);
    CompletingFacts(cfg, s, w, at, acked);
    var worker := s.workers[w];
    var row := s.db.payments[worker.phase.before.id];
    CompletionFacts(cfg, s, w);
    RowFacts(cfg, s, row.id);
    CompletedRowLosesNothing(s.pins, row, worker.phase.after);
    assert worker.phase.before.status == worker.phase.after.status ==>
             s.db.payments[worker.phase.before.id := worker.phase.after] == s.db.payments;
  }

  /** A worker that may complete has prepared a successor of its snapshot, and the row still has that status. */
  lemma CompletingFacts(cfg: Config, s: State, w: nat, at: Time, acked: bool)
    requires Inv(cfg, s) && Enabled(s, CompleteStep(w, at, acked))
    ensures var worker := s.workers[w];
            var (p, after) := (worker.phase.before, worker.phase.after);
            && after.id == p.id && p.id in s.db.payments && p.status == ExpectedStatus(OpOf(worker.cmd))
            && (Attempt(s, w, at).1.None? ==>
                  s.db.payments[p.id].status == p.status && KeyOf(worker) in s.db.records
                  && s.db.records[KeyOf(worker)].progress.InProgress?)
  {
    hide Inv, TableChecks, Agrees, KeysPinned, NoKeyLost, Behind, WellFormed, Prepared, Overwrite, Snapshot, Identified,
         WorkerAgrees;
    HolderFacts(cfg, s, w);
    var worker := s.workers[w];
    SnapshotStatus(s.db.payments, s.pins, worker, worker.phase.before);
    PreparedIds(OpOf(worker.cmd), worker.phase.before, worker.phase.after, worker.phase.failure);
  }

  lemma RowFacts(cfg: Config, s: State, id: string)
    requires Inv(cfg, s) && id in s.db.payments
    ensures WellFormed(s.db.payments[id]) && s.db.payments[id].id == id
    ensures KeysPinned(s.pins, s.db.payments[id]) && NoKeyLost(s.pins, s.db.payments[id])
  {
    hide Rows, Pinned, PinNames, Calls, LedgerOk, Origins, Replies, RowsAgree, WorkersAgree, Identities, Workers,
         Records, Trails, WellFormed, KeysPinned, NoKeyLost;
    RowAt(s.db.payments, id);
    PinAt(s.db.payments, s.pins, id);
  }

  // ---- Status histories ----

  /** How many status changes can still follow a status. */
  function MovesLeft(s: Status): nat {
    match s
    case Pending => 3
    case Authorized => 2
    case Captured => 1
    case _ => 0
  }

  lemma EdgeSpendsMoves(a: Status, b: Status)
    requires Edge(a, b)
    ensures MovesLeft(b) < MovesLeft(a)
  {
  }

  lemma {:induction false} PathIsShort(moves: seq<Move>, last: Status)
    requires IsPath(moves, last)
    ensures |moves| + MovesLeft(last) <= 3
    ensures forall i :: 0 <= i < |moves| ==> MovesLeft(last) <= MovesLeft(moves[i].target) < MovesLeft(moves[i].source)
  {
    if moves == [] {
    } else {
      var front, m := moves[..|moves| - 1], moves[|moves| - 1];
      PathIsShort(front, m.source);
      EdgeSpendsMoves(m.source, m.target);
      hide IsPath, Edge, MovesLeft;
      forall i | 0 <= i < |moves|
        ensures MovesLeft(last) <= MovesLeft(moves[i].target) < MovesLeft(moves[i].source)
      {
        assert i < |front| ==> moves[i] == front[i];
      }
    }
  }

  /** No status change happens twice. */
  lemma {:induction false} PathNeverRepeats(moves: seq<Move>, last: Status, i: nat, j: nat)
    requires IsPath(moves, last) && i < j < |moves|
    ensures moves[i].source != moves[j].source && moves[i].target != moves[j].target
  {
    var front := moves[..|moves| - 1];
    var m := moves[|moves| - 1];
    if j < |moves| - 1 {
      PathNeverRepeats(front, m.source, i, j);
    } else {
      PathIsShort(front, m.source);
      assert moves[i] == front[i];
      EdgeSpendsMoves(m.source, m.target);
    }
  }

  /**
   * The persisted status changes of a payment form a path of the lifecycle from pending to its current status, with
   * at most three changes, none of them twice.
   */
  lemma StatusHistory(cfg: Config, s: State, id: string)
    requires ValidConfig(cfg) && Reachable(cfg, s) && id in s.db.payments
    ensures id in s.trail && IsPath(s.trail[id], s.db.payments[id].status) && |s.trail[id]| <= 3
    ensures forall i, j :: 0 <= i < j < |s.trail[id]| ==> s.trail[id][i].target != s.trail[id][j].target
  {
    hide Inv, ValidConfig, Reachable;
    ReachableIsInv(cfg, s);
    TrailFacts(cfg, s, id);
    var moves, last := s.trail[id], s.db.payments[id].status;
    PathIsShort(moves, last);
    forall i, j | 0 <= i < j < |moves| ensures moves[i].target != moves[j].target {
      PathNeverRepeats(moves, last, i, j);
    }
  }

  lemma TrailFacts(cfg: Config, s: State, id: string)
    requires Inv(cfg, s) && id in s.db.payments
    ensures id in s.trail && IsPath(s.trail[id], s.db.payments[id].status)
  {
    hide Rows, Pinned, PinNames, Calls, LedgerOk, Origins, Replies, RowsAgree, WorkersAgree, Identities, Workers, Records;
  }

  /** No claim moves a payment's status. */
  lemma ClaimKeepsStatuses(db: Db, r: ClaimRequest, id: string)
    requires id in db.payments
    ensures id in Claim(db, r).0.payments && Claim(db, r).0.payments[id].status == db.payments[id].status
  {
    hide TableChecks, NormalizeRequired;
  }

  /** A step either keeps a payment's status and trail, or is the completion that both moves it and records the move. */
  predicate KeepsOrRecords(s: State, s': State, step: Step, id: string)
    requires id in s.db.payments
  {
    && id in s'.db.payments && id in s.trail && id in s'.trail
    && var (old', new') := (s.db.payments[id].status, s'.db.payments[id].status);
       && (old' == new' ==> s'.trail[id] == s.trail[id])
       && (old' != new' ==>
             && Edge(old', new') && step.CompleteStep? && step.worker in s.workers
             && var k := KeyOf(s.workers[step.worker]);
                && s'.trail[id] == s.trail[id] + [Move(step.worker, old', new')]
                && k in s.db.records && s.db.records[k].progress.InProgress?
                && k in s'.db.records && s'.db.records[k].progress.Completed?
                && Shows(s'.db.records[k].progress.result.payment, s'.db.payments[id]))
  }

  /**
   * Each status change in a run is made by exactly one step, a completion that stores the outcome of its command in
   * the same step.
   */
  lemma StatusChangesAreCompletions(cfg: Config, s: State, step: Step, id: string)
    requires ValidConfig(cfg) && Reachable(cfg, s) && Enabled(s, step) && id in s.db.payments
    ensures KeepsOrRecords(s, Effect(cfg, s, step), step, id)
  {
    hide Inv, ValidConfig, Reachable, Claiming, Finishing, Executing, AfterAnswer, NewWorker, Accepted, Edge,
         IsPaymentId, Clean, Shows;
    ReachableIsInv(cfg, s);
    TrailFacts(cfg, s, id);
    if IsQuiet(step) {
      hide Effect, Enabled;
      QuietFrame(cfg, s, step);
      return;
    }
    match step
    case ClaimStep(w, at, newId, newKey) => ClaimKeepsStatus(cfg, s, w, at, newId, newKey, id);
    case CompleteStep(w, at, acked) => CompleteRecords(cfg, s, w, at, acked, id);
    case Execute(c, how, today, newTxn) => ExecuteFrame(cfg, s, c, how, today, newTxn);
    case Send(_) =>
    case BankTick(_) =>
  }

  lemma ExecuteFrame(cfg: Config, s: State, c: nat, how: Execution, today: YearMonth, newTxn: string)
    requires c < |s.stages| && c < |s.calls|
    ensures var s' := Executing(cfg, s, c, how, today, newTxn);
            && s'.now == s.now && s'.db == s.db && s'.workers == s.workers
            && s'.leases == s.leases && s'.trail == s.trail
  {
    hide Handle;
  }

  lemma ClaimKeepsStatus(cfg: Config, s: State, w: nat, at: Time, newId: string, newKey: string, id: string)
    requires w in s.workers && id in s.db.payments && id in s.trail
    ensures var s' := Claiming(cfg, s, w, at, newId, newKey);
            && id in s'.db.payments && s'.db.payments[id].status == s.db.payments[id].status
            && id in s'.trail && s'.trail[id] == s.trail[id]
  {
    hide RequestOf, Claim;
    var r := RequestOf(cfg, s.workers[w], at, newId, newKey);
    if r.Ok? {
      ClaimKeepsStatuses(s.db, r.value, id);
    }
  }

  lemma CompleteRecords(cfg: Config, s: State, w: nat, at: Time, acked: bool, id: string)
    requires Inv(cfg, s) && Enabled(s, CompleteStep(w, at, acked)) && id in s.db.payments && id in s.trail
    ensures KeepsOrRecords(s, Finishing(s, w, at, acked), CompleteStep(w, at, acked), id)
  {
    hide Inv, TableChecks, Agrees, KeysPinned, NoKeyLost, Behind, WellFormed, Prepared, Overwrite, Edge;
    CompletingFacts(cfg, s, w, at, acked);
    if Attempt(s, w, at).1.None? {
      CompletionFacts(cfg, s, w);
    }
  }

  // ---- Stored outcomes ----

  /**
   * A completed record stores a failure exactly when its command ended in expiry, which only captures and voids can,
   * and the payment in it has since only moved forward.
   */
  lemma StoredOutcomesCoherent(cfg: Config, s: State, k: RecordKey)
    requires ValidConfig(cfg) && Reachable(cfg, s) && k in s.db.records && s.db.records[k].progress.Completed?
    ensures var result := s.db.records[k].progress.result;
            && (result.failure == Some(AuthorizationExpired) <==> result.payment.status == Expired)
            && (result.failure == None <==> result.payment.status != Expired)
            && (result.payment.status == Expired ==> k.op == CaptureOp || k.op == VoidOp)
            && result.payment.id in s.db.payments
            && var r, row := result.payment, s.db.payments[result.payment.id];
               && r.orderId == row.orderId && r.customerId == row.customerId && r.amount == row.amount
               && r.currency == row.currency && r.createdAt == row.createdAt && Reaches(r.status, row.status)
               && (r.status == row.status ==>
                     r.declineReason == row.declineReason && r.expiresAt == row.expiresAt && r.updatedAt == row.updatedAt)
  {
    hide Inv, ValidConfig, Reachable, Reaches;
    ReachableIsInv(cfg, s);
    StoredOutcome(cfg, s, k);
  }

  lemma StoredOutcome(cfg: Config, s: State, k: RecordKey)
    requires Inv(cfg, s) && k in s.db.records && s.db.records[k].progress.Completed?
    ensures var result := s.db.records[k].progress.result;
            result.payment.id in s.db.payments && ResultFits(k.op, s.db.payments[result.payment.id], result)
  {
    hide Rows, Pinned, PinNames, Calls, LedgerOk, Origins, Replies, RowsAgree, WorkersAgree, Identities, Workers,
         Records, Trails, ResultFits, OwnerOk;
    RecordAt(s.db.payments, s.workers, s.db.records, s.leases, cfg.stuckAfter, k);
  }
}
