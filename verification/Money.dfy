/** Money over whole runs: the bank's balances are always what its ledger says, and stay in bounds. */
module Money {
  import opened Text
  import opened Domain
  import opened Commands
  import opened Store
  import opened Bank
  import opened Balances
  import opened Protocol
  import opened Invariants
  import opened History
  import opened Runs
  import opened Safety

  function Opening(cfg: Config): map<string, int> {
    map n | n in cfg.accounts :: cfg.accounts[n].balance
  }

  lemma InitConserved(cfg: Config, s: State)
    requires ValidConfig(cfg) && Init(cfg, s)
    ensures Conserved(s.ledger, Opening(cfg))
  {
    var l := s.ledger;
    forall n | n in l.accounts ensures n in Opening(cfg) && AccountConserved(l, n, Opening(cfg)[n]) {
      assert 0 <= cfg.accounts[n].balance == cfg.accounts[n].available;
    }
  }

  lemma StepConserves(cfg: Config, s: State, step: Step)
    requires LedgerOk(s.ledger) && Conserved(s.ledger, Opening(cfg)) && Enabled(s, step)
    ensures Conserved(Effect(cfg, s, step).ledger, Opening(cfg))
  {
    hide LedgerOk, Conserved, Opening, Claiming, Finishing, AfterAnswer, NewWorker, Handle, Accepted, IsPaymentId, Clean;
    if IsQuiet(step) {
      hide Effect, Enabled;
      QuietFrame(cfg, s, step);
      return;
    }
    match step
    case ClaimStep(w, at, newId, newKey) => ClaimFrame(cfg, s, w, at, newId, newKey);
    case CompleteStep(w, at, acked) => FinishingFrame(s, w, at, acked);
    case Execute(c, how, today, newTxn) =>
      HandleConserves(s.ledger, s.bankNow, today, cfg.holdFor, s.calls[c].request, newTxn, Opening(cfg));
    case Send(_) =>
    case BankTick(_) =>
  }

  lemma NextConserves(cfg: Config, s: State, s': State)
    requires Inv(cfg, s) && Conserved(s.ledger, Opening(cfg)) && Next(cfg, s, s')
    ensures Conserved(s'.ledger, Opening(cfg))
  {
    hide Rows, Pinned, PinNames, Calls, Origins, Replies, RowsAgree, WorkersAgree, Identities, Workers, Records, Trails,
         LedgerOk, Enabled, Effect, Conserved, Opening;
    var step: Step :| Enabled(s, step) && s' == Effect(cfg, s, step);
    StepConserves(cfg, s, step);
  }

  lemma {:induction false} RunConserves(cfg: Config, run: seq<State>, i: nat)
    requires ValidConfig(cfg) && IsRun(cfg, run) && i < |run|
    ensures Conserved(run[i].ledger, Opening(cfg)) && LedgerOk(run[i].ledger)
  {
    hide Inv, ValidConfig, Next, Init, Conserved, LedgerOk;
    ReachableInv(cfg, run, i);
    LedgerIsOk(cfg, run[i]);
    if i == 0 {
      InitConserved(cfg, run[0]);
    } else {
      RunConserves(cfg, run, i - 1);
      ReachableInv(cfg, run, i - 1);
      assert StepAt(cfg, run, i - 1);
      NextConserves(cfg, run[i - 1], run[i]);
    }
  }

  /**
   * In every reachable state each account's available balance is its balance less its active holds, its balance is
   * what it opened with less its captures plus its refunds, and both lie between zero and the opening balance.
   */
  lemma MoneyConserved(cfg: Config, s: State, account: string)
    requires ValidConfig(cfg) && Reachable(cfg, s) && account in s.ledger.accounts
    ensures account in cfg.accounts
    ensures var a := s.ledger.accounts[account];
            var opening := cfg.accounts[account].balance;
            && a.available == a.balance - Total(s.ledger, account, ActiveHolds)
            && a.balance == opening - Total(s.ledger, account, Captures) + Total(s.ledger, account, Refunds)
            && 0 <= a.available <= a.balance <= opening
  {
    hide ValidConfig, Init, Next, Inv, LedgerOk, Total;
    var run: seq<State> :| IsRun(cfg, run) && s == run[|run| - 1];
    RunConserves(cfg, run, |run| - 1);
    ConservedBounds(s.ledger, account, Opening(cfg)[account]);
  }
}
