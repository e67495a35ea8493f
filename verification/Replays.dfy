/** Replay: a completed command answers every repetition of itself for 24 hours, and never calls the bank again. */
module Replays {
  import opened Text
  import opened Domain
  import opened Errors
  import opened Commands
  import opened Store
  import opened Protocol
  import opened Invariants
  import opened Stability
  import opened ClaimSteps
  import opened Runs
  import opened History

  /** The outcome that a record keeps for repetitions of its command. */
  predicate Stored(db: Db, k: RecordKey, fingerprint: string, result: CommandResult, at: Time) {
    && k in db.records && db.records[k].fingerprint == fingerprint
    && db.records[k].progress == Completed(result, at)
  }

  // ---- Nothing overwrites or removes a stored outcome before its time ----

  lemma ClaimKeepsStored(db: Db, r: ClaimRequest, k: RecordKey, fingerprint: string, result: CommandResult, at: Time)
    requires Stored(db, k, fingerprint, result, at)
    ensures Stored(Claim(db, r).0, k, fingerprint, result, at)
  {
    hide EnsureKey, TableChecks, ExpectedStatus, KeyMissing, CardMismatch;
  }

  lemma ClaimingKeepsStored(cfg: Config, s: State, w: nat, claimAt: Time, newId: string, newKey: string,
                            k: RecordKey, fingerprint: string, result: CommandResult, at: Time)
    requires w in s.workers && Stored(s.db, k, fingerprint, result, at)
    ensures Stored(Claiming(cfg, s, w, claimAt, newId, newKey).db, k, fingerprint, result, at)
  {
    hide RequestOf, Claim, Stored;
    var r := RequestOf(cfg, s.workers[w], claimAt, newId, newKey);
    if r.Ok? {
      ClaimKeepsStored(s.db, r.value, k, fingerprint, result, at);
    }
  }

  lemma FinishingKeepsStored(s: State, w: nat, completeAt: Time, acked: bool,
                             k: RecordKey, fingerprint: string, result: CommandResult, at: Time)
    requires w in s.workers && s.workers[w].phase.Completing? && Stored(s.db, k, fingerprint, result, at)
    ensures Stored(Finishing(s, w, completeAt, acked).db, k, fingerprint, result, at)
  {
    hide TableChecks, Overwrite, ExpectedStatus;
  }

  lemma StepKeepsStored(cfg: Config, s: State, step: Step, k: RecordKey, fingerprint: string, result: CommandResult,
                        at: Time)
    requires Enabled(s, step) && Stored(s.db, k, fingerprint, result, at) && s.now <= at + REPLAY_WINDOW
    ensures Stored(Effect(cfg, s, step).db, k, fingerprint, result, at)
  {
    hide Claiming, Finishing, Executing, AfterAnswer, NewWorker, Accepted;
    match step
    case ClaimStep(w, claimAt, newId, newKey) =>
      ClaimingKeepsStored(cfg, s, w, claimAt, newId, newKey, k, fingerprint, result, at);
    case CompleteStep(w, completeAt, acked) => FinishingKeepsStored(s, w, completeAt, acked, k, fingerprint, result, at);
    case Execute(c, how, today, newTxn) => ExecuteFrame(cfg, s, c, how, today, newTxn);
    case _ =>
  }

  lemma NextKeepsStored(cfg: Config, s: State, s': State, k: RecordKey, fingerprint: string, result: CommandResult,
                        at: Time)
    requires Next(cfg, s, s') && Stored(s.db, k, fingerprint, result, at) && s.now <= at + REPLAY_WINDOW
    ensures Stored(s'.db, k, fingerprint, result, at)
  {
    hide Enabled, Effect, Stored;
    var step: Step :| Enabled(s, step) && s' == Effect(cfg, s, step);
    StepKeepsStored(cfg, s, step, k, fingerprint, result, at);
  }

  /** A stored outcome stays for the whole window, whatever else happens in the run. */
  lemma {:induction false} StoredForTheWindow(cfg: Config, run: seq<State>, i: nat, j: nat, k: RecordKey,
                                              fingerprint: string, result: CommandResult, at: Time)
    requires ValidConfig(cfg) && IsRun(cfg, run) && i <= j < |run|
    requires Stored(run[i].db, k, fingerprint, result, at) && run[j].now <= at + REPLAY_WINDOW
    ensures Stored(run[j].db, k, fingerprint, result, at)
    decreases j
  {
    hide ValidConfig, Next, Init, Stored, Advance, PinsGrow, BooksGrew;
    if i < j {
      RunLater(cfg, run, j - 1, j);
      StoredForTheWindow(cfg, run, i, j - 1, k, fingerprint, result, at);
      assert StepAt(cfg, run, j - 1);
      NextKeepsStored(cfg, run[j - 1], run[j], k, fingerprint, result, at);
    }
  }

  // ---- What repetitions see ----

  lemma CompletionStores(s: State, w: nat, at: Time, acked: bool)
    requires Enabled(s, CompleteStep(w, at, acked)) && Attempt(s, w, at).1.None?
    ensures var worker := s.workers[w];
            var s' := Finishing(s, w, at, acked);
            && Stored(s'.db, KeyOf(worker), worker.fingerprint, CompletionResult(worker), at)
            && w in s'.workers && (acked ==> s'.workers[w].phase == Finished(Replay(CompletionResult(worker))))
  {
    hide TableChecks, Overwrite, ExpectedStatus;
  }

  /** A claim that finds its own stored outcome returns it and changes nothing. */
  lemma StoredIsReplayed(cfg: Config, s: State, v: nat, claimAt: Time, newId: string, newKey: string,
                         result: CommandResult, at: Time)
    requires ValidConfig(cfg) && Inv(cfg, s) && Enabled(s, ClaimStep(v, claimAt, newId, newKey))
    requires Stored(s.db, KeyOf(s.workers[v]), s.workers[v].fingerprint, result, at)
    ensures Claiming(cfg, s, v, claimAt, newId, newKey)
         == SetPhase(s.(issued := s.issued + {newId, newKey}), v, Finished(Replay(result)))
  {
    hide Inv, ValidConfig, RequestOf, Identified, IsPaymentId, Clean, ErrorOfKind, Recover, Acquire;
    IdentifiedHere(cfg, s, v);
    RequestIsOk(cfg, s.now, s.workers[v], claimAt, newId, newKey);
    StoredOutcome(cfg, s, KeyOf(s.workers[v]));
    assert !Unreadable(s.db.records[KeyOf(s.workers[v])]);
  }

  /**
   * Once a worker's completion is persisted, every worker that repeats its command within the next 24 hours ends with
   * the outcome that the completing worker returned, failures included, without touching a table or calling the bank.
   * If the commit was persisted but not acknowledged, repetitions return what the worker would have returned.
   */
  lemma ReplayFidelity(cfg: Config, run: seq<State>, i: nat, j: nat, w: nat, at: Time, acked: bool,
                       v: nat, claimAt: Time, newId: string, newKey: string)
    requires ValidConfig(cfg) && IsRun(cfg, run) && i < j < |run|
    requires Enabled(run[i], CompleteStep(w, at, acked)) && Attempt(run[i], w, at).1.None?
    requires run[i + 1] == Effect(cfg, run[i], CompleteStep(w, at, acked))
    requires run[j].now <= at + REPLAY_WINDOW && Enabled(run[j], ClaimStep(v, claimAt, newId, newKey))
    requires KeyOf(run[j].workers[v]) == KeyOf(run[i].workers[w])
    requires run[j].workers[v].fingerprint == run[i].workers[w].fingerprint
    ensures var outcome := Replay(CompletionResult(run[i].workers[w]));
            && Effect(cfg, run[j], ClaimStep(v, claimAt, newId, newKey))
            == SetPhase(run[j].(issued := run[j].issued + {newId, newKey}), v, Finished(outcome))
            && w in run[i + 1].workers && (acked ==> run[i + 1].workers[w].phase == Finished(outcome))
  {
    hide Inv, ValidConfig, IsRun, Claiming, Finishing, Stored, IsPaymentId, Clean;
    var worker := run[i].workers[w];
    CompletionStores(run[i], w, at, acked);
    ReachableInv(cfg, run, j);
    StoredForTheWindow(cfg, run, i + 1, j, KeyOf(worker), worker.fingerprint, CompletionResult(worker), at);
    StoredIsReplayed(cfg, run[j], v, claimAt, newId, newKey, CompletionResult(worker), at);
  }
}
