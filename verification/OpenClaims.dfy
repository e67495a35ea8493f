/** When a finished attempt leaves its claim open. */
module OpenClaims {
  import opened Text
  import opened Domain
  import opened Errors
  import opened Commands
  import opened Store
  import opened Bank
  import opened Client
  import opened Protocol
  import opened Invariants
  import opened History
  import opened Claims
  import opened Leases
  import opened Paths
  import opened Deliveries
  import opened CommandPaths
  import opened Progress
  import opened Witnesses
  import opened Crossings

  // ---- Which steps end an attempt, and how they leave its claim ----

  predicate IsOpen(db: Db, k: RecordKey) {
    k in db.records && db.records[k].progress.InProgress?
  }

  /** The steps that end a worker's attempt. */
  predicate EndsAttempt(step: Step, w: nat) {
    (step.CompleteStep? || step.ReleaseStep? || step.Abort?) && step.worker == w
  }

  /**
   * A completion leaves the claim open when the payment has moved on, a release when it does not land, and an attempt
   * that ends any other way always does.
   */
  predicate LeavesOpen(s: State, step: Step, w: nat)
    requires w in s.workers && Holds(s.workers[w])
  {
    match step
    case CompleteStep(_, _, _) =>
      var p := s.workers[w].phase.before; p.id in s.db.payments && s.db.payments[p.id].status != p.status
    case ReleaseStep(_, landed) => !landed
    case _ => true
  }

  lemma ClaimTouchesOnly(cfg: Config, s: State, v: nat, at: Time, newId: string, newKey: string, w: nat)
    requires v in s.workers && w in s.workers && v != w
    ensures var s' := Claiming(cfg, s, v, at, newId, newKey); w in s'.workers && s'.workers[w] == s.workers[w]
  {
    hide Claiming;
    var _ := ClaimMovesOne(cfg, s, v, at, newId, newKey);
  }

  lemma CompleteTouchesOnly(s: State, v: nat, at: Time, acked: bool, w: nat)
    requires v in s.workers && s.workers[v].phase.Completing? && w in s.workers && v != w
    ensures var s' := Finishing(s, v, at, acked); w in s'.workers && s'.workers[w] == s.workers[w]
  {
    hide Finishing;
    FinishingFrame(s, v, at, acked);
  }

  lemma AnswerDoesNotFinish(s: State, v: nat, result: BankResult, at: Time, retry: bool, w: nat)
    requires v in s.workers && s.workers[v].phase.Awaiting? && w in s.workers && Holds(s.workers[w])
    ensures var s' := SetPhase(s, v, AfterAnswer(s.workers[v], result, at, retry));
            w in s'.workers && !s'.workers[w].phase.Finished?
  {
    hide AfterAnswer;
    AnswerKeepsSnapshot(s.workers[v], result, at, retry);
  }

  /** An answer, or the failure to get one, finishes nobody. */
  lemma AnswersFinishNone(cfg: Config, s: State, step: Step, w: nat)
    requires Enabled(s, step) && (step.Receive? || step.NoReply?) && w in s.workers && Holds(s.workers[w])
    ensures w in Effect(cfg, s, step).workers && !Effect(cfg, s, step).workers[w].phase.Finished?
  {
    hide AfterAnswer, ReadReply;
    match step
    case Receive(v, at, retry) =>
      var result := ReadReply(BankOpOf(OpOf(s.workers[v].cmd)), s.stages[s.workers[v].phase.call].reply);
      AnswerDoesNotFinish(s, v, result, at, retry, w);
    case NoReply(v, kind, at, retry) => AnswerDoesNotFinish(s, v, BankFailed(kind), at, retry, w);
  }

  lemma StartsFinishNone(cfg: Config, s: State, step: Step, w: nat)
    requires Enabled(s, step) && (step.Arrive? || step.ClaimStep? || step.Send?) && w in s.workers && Holds(s.workers[w])
    ensures w in Effect(cfg, s, step).workers && !Effect(cfg, s, step).workers[w].phase.Finished?
  {
    hide Claiming, NewWorker, Accepted, IsPaymentId, Clean;
    match step
    case Arrive(_, _) =>
    case ClaimStep(v, at, newId, newKey) => ClaimTouchesOnly(cfg, s, v, at, newId, newKey, w);
    case Send(_) =>
  }

  lemma EndsTouchOnly(cfg: Config, s: State, step: Step, w: nat)
    requires Enabled(s, step) && (step.CompleteStep? || step.ReleaseStep? || step.Abort?) && !EndsAttempt(step, w)
    requires w in s.workers
    ensures w in Effect(cfg, s, step).workers && Effect(cfg, s, step).workers[w] == s.workers[w]
  {
    hide Finishing;
    match step
    case CompleteStep(v, at, acked) => CompleteTouchesOnly(s, v, at, acked, w);
    case ReleaseStep(_, _) =>
    case Abort(_) =>
  }

  /** Only the end of its own command, by completion, release or an error, finishes a worker that holds a claim. */
  lemma OnlyEndsFinish(cfg: Config, s: State, step: Step, w: nat)
    requires Enabled(s, step) && w in s.workers && Holds(s.workers[w])
    requires w in Effect(cfg, s, step).workers && Effect(cfg, s, step).workers[w].phase.Finished?
    ensures EndsAttempt(step, w)
  {
    hide Effect, Enabled;
    match step
    case Arrive(_, _) => StartsFinishNone(cfg, s, step, w);
    case ClaimStep(_, _, _, _) => StartsFinishNone(cfg, s, step, w);
    case Send(_) => StartsFinishNone(cfg, s, step, w);
    case Receive(_, _, _) => AnswersFinishNone(cfg, s, step, w);
    case NoReply(_, _, _, _) => AnswersFinishNone(cfg, s, step, w);
    case CompleteStep(_, _, _) => if !EndsAttempt(step, w) { EndsTouchOnly(cfg, s, step, w); }
    case ReleaseStep(_, _) => if !EndsAttempt(step, w) { EndsTouchOnly(cfg, s, step, w); }
    case Abort(_) => if !EndsAttempt(step, w) { EndsTouchOnly(cfg, s, step, w); }
    case _ => OtherStepsTouchNone(cfg, s, step);
  }

  lemma CompletionLeaves(cfg: Config, s: State, w: nat, at: Time, acked: bool)
    requires ValidConfig(cfg) && LeaseOutlastsCommand(cfg) && TimelyReachable(cfg, s)
    requires Enabled(s, CompleteStep(w, at, acked)) && Timely(cfg, s, CompleteStep(w, at, acked))
    ensures var p := s.workers[w].phase.before;
            && p.id in s.db.payments
            && (IsOpen(Finishing(s, w, at, acked).db, KeyOf(s.workers[w])) <==> s.db.payments[p.id].status != p.status)
  {
    hide ValidConfig, TimelyReachable, LeaseOutlastsCommand, Inv, Leased;
    TimelyReachableLeased(cfg, s);
    OwnsAt(cfg, s, w);
    CompletionMeetsNoConflict(cfg, s, w, at, acked);
    hide TableChecks, Overwrite, ExpectedStatus, LeasedIn;
  }

  lemma OwnsAt(cfg: Config, s: State, w: nat)
    requires LeasedIn(cfg, s) && LiveHolder(cfg, s, w)
    ensures OwnsClaim(s.db.records, s.leases, w, s.workers[w])
  {
  }

  /**
   * An attempt within its deadline that ends, in whatever way, leaves its own claim open exactly when its completion
   * found that the payment had moved on, when its release did not land, or when an error ended it before either.
   */
  lemma ClaimLeftOpen(cfg: Config, s: State, step: Step, w: nat)
    requires ValidConfig(cfg) && LeaseOutlastsCommand(cfg) && TimelyReachable(cfg, s) && LiveHolder(cfg, s, w)
    requires Enabled(s, step) && Timely(cfg, s, step)
    requires w in Effect(cfg, s, step).workers && Effect(cfg, s, step).workers[w].phase.Finished?
    ensures EndsAttempt(step, w)
    ensures IsOpen(Effect(cfg, s, step).db, KeyOf(s.workers[w])) <==> LeavesOpen(s, step, w)
  {
    hide ValidConfig, TimelyReachable, LeaseOutlastsCommand, Inv, LeasedIn, Finishing, Claiming, Executing, AfterAnswer,
         NewWorker, Accepted, IsPaymentId, Clean;
    OnlyEndsFinish(cfg, s, step, w);
    TimelyReachableLeased(cfg, s);
    OwnsAt(cfg, s, w);
    if step.CompleteStep? {
      CompletionLeaves(cfg, s, w, step.at, step.acked);
    }
  }

  // ---- An attempt that does leave its claim open ----

  const FIRST_KEY := RecordKey(AuthorizeOp, "k")

  /** An authorization that never heard from the bank is about to complete as pending. */
  predicate Unanswered(cfg: Config, s: State, card: Card, amount: int, p: Payment)
    requires AcceptedCard(card) && Accepted(FirstCommand(card, amount))
  {
    && s.workers == map[0 := NewWorker(cfg, FirstCommand(card, amount), 1).(phase := Completing(p, p, None))]
    && s.db.payments == map[p.id := p] && p.id == IdOf('1') && p.status == Pending && p.amount == amount
    && p.cardFingerprint == cfg.mac(CardText(card))
    && s.db.records.Keys == {FIRST_KEY} && s.db.records[FIRST_KEY].progress.InProgress?
    && s.ledger == OpenBank(cfg) && s.bankNow == 1 && s.now == 1 && s.issued == {IdOf('1'), NameOf('a')}
  }

  lemma UnansweredThere(cfg: Config, timely: bool, s: State, s1: State, card: Card, amount: int, p: Payment, spot: Spot,
                        rec: Record)
    requires AcceptedCard(card) && Accepted(FirstCommand(card, amount)) && rec.progress.InProgress?
    requires s1 == WithWorker(cfg, FirstState(cfg), DrawOf(0, '1', 'a', 't', TODAY), FirstCommand(card, amount))
    requires Got(cfg, timely, s, s1, 0, spot) && spot.phase == Completing(p, p, None) && spot.side == SideOf(s1)
    requires spot.db == Db(map[p.id := p], map[FIRST_KEY := rec])
    requires spot.bankNow == 1 && spot.issued == s1.issued + {IdOf('1'), NameOf('a')}
    requires p.id == IdOf('1') && p.status == Pending && p.amount == amount
    requires p.cardFingerprint == NewWorker(cfg, FirstCommand(card, amount), 1).cardFingerprint
    ensures Leads(cfg, timely, s1, s) && Unanswered(cfg, s, card, amount, p)
  {
    hide Leads, Accepted, AcceptedCard, IdOf, NameOf, RequestText, CardText;
  }

  lemma NeverHears(cfg: Config, timely: bool, card: Card, amount: int) returns (s: State, p: Payment)
    requires ValidConfig(cfg) && (timely ==> 0 <= cfg.timeout) && AcceptedCard(card) && amount > 0
    ensures Accepted(FirstCommand(card, amount)) && CanReach(cfg, timely, s) && Unanswered(cfg, s, card, amount, p)
  {
    hide ValidConfig, CanReach, Leads, Accepted, AcceptedCard, IdOf, NameOf, Unused, Drawn, Inv, Enabled, RequestOf, Claim,
         WellFormed, NewWorker, Punctual, Reads, Asks, AfterAnswer, Got, SideOf, WithWorker, Unanswered;
    var s0, d, cmd := FirstState(cfg), DrawOf(0, '1', 'a', 't', TODAY), FirstCommand(card, amount);
    FirstStateReached(cfg, timely);
    FirstCommandAccepted(card, amount);
    LettersAreVisible();
    Draws(s0, 0, '1', 'a', 't', TODAY, cmd);
    UnusedFacts(s0, d, cmd);
    ArriveFirst(cfg, timely, s0, d, cmd);
    var db;
    p, db := StartClaimed(cfg, s0, d, cmd);
    var s1 := WithWorker(cfg, s0, d, cmd);
    AsksIsRequest(cfg, s0, d, cmd);
    SameSide(cfg, s0, d, cmd);
    SameIssued(cfg, s0, d, cmd);
    WorkerCmd(cfg, cmd, 1);
    ClaimHop(cfg, timely, s1, 0, 1, d.newId, d.newKey);
    var s2 := Claiming(cfg, s1, 0, 1, d.newId, d.newKey);
    var spot := Spot(Calling(p, 0), db, SideOf(s1), s1.bankNow, s1.issued + {d.newId, d.newKey});
    var turn := Undelivered(BankTimeout);
    var s3, c := TurnPath(cfg, timely, s2, s1, 0, spot, turn);
    var spot3 := spot.(phase := Awaiting(p, 1, c));
    s := TakeIn(cfg, timely, s3, s1, 0, spot3, turn, BankFailed(BankTimeout), 1, false);
    UnknownAnswer(cfg, s1.workers[0].(phase := spot3.phase), p, c, 1);
    UnansweredThere(cfg, timely, s, s1, card, amount, p, spot.(phase := Completing(p, p, None)), db.records[FIRST_KEY]);
    Join(cfg, timely, s0, s1, s);
    Reach(cfg, timely, s0, s);
  }

  lemma SameIssued(cfg: Config, s: State, d: Draw, cmd: Command)
    requires Accepted(cmd)
    ensures WithWorker(cfg, s, d, cmd).issued == s.issued
  {
    hide Accepted, NewWorker;
  }

  /** The retry that succeeds meanwhile. */
  lemma RetryMeanwhile(cfg: Config, s: State, card: Card, amount: int, p: Payment, today: YearMonth)
    requires AcceptedCard(card) && Accepted(FirstCommand(card, amount)) && Unanswered(cfg, s, card, amount, p)
    ensures var cmd := Retry(IdOf('1'), card, "k");
            Unused(s, DrawOf(1, '2', 'b', 'u', today), cmd) && Retryable(cfg, s, cmd)
  {
    hide AcceptedCard, IdOf, NameOf, NewWorker, CardText, Unused, Visible;
    NamesDiffer();
    LettersAreVisible();
    IdIsOk('1');
    var cmd := Retry(IdOf('1'), card, "k");
    RetryAccepted(IdOf('1'), card);
    hide Accepted, IsPaymentId;
    Draws(s, 1, '2', 'b', 'u', today, cmd);
  }

  lemma RetryAccepted(id: string, card: Card)
    requires IsPaymentId(id) && AcceptedCard(card)
    ensures Accepted(Retry(id, card, "k"))
  {
    hide IsPaymentId, AcceptedCard;
  }

  /** A completion that finds its payment moved on changes nothing. */
  lemma MovedOn(db: Db, r: ClaimRequest, p: Payment, world: World)
    requires p.id in db.payments && db.payments[p.id].status != ExpectedStatus(RequestOp(r)) && world.completedAt != NO_TIME
    ensures Concluded(db, r, Completing(p, p, None), world) == (db, Failure(StatusConflict))
  {
  }

  /**
   * For every configuration with an account that can pay there are runs, and timely runs, in which an authorization
   * whose bank call was lost completes after a retry has authorized its payment: it ends with a status conflict and
   * leaves its claim open.
   */
  lemma AttemptsDoLeaveClaimsOpen(cfg: Config, timely: bool, card: Card, amount: int, today: YearMonth) returns (s: State)
    requires ValidConfig(cfg) && (timely ==> 0 <= cfg.timeout) && 0 <= cfg.holdFor
    requires AcceptedCard(card) && Approvable(OpenBank(cfg), card, amount, today)
    ensures CanReach(cfg, timely, s) && 0 in s.workers
    ensures s.workers[0].phase == Finished(Failure(StatusConflict)) && IsOpen(s.db, KeyOf(s.workers[0]))
  {
    hide ValidConfig, CanReach, Leads, Accepted, AcceptedCard, IdOf, NameOf, Unused, Approvable, NewWorker, Punctual, Reads,
         Got, SideOf, Unanswered, Retryable, Concluded;
    PositiveAmount(OpenBank(cfg), card, amount, today);
    var s1, p := NeverHears(cfg, timely, card, amount);
    UnansweredFacts(cfg, s1, card, amount, p);
    RetryMeanwhile(cfg, s1, card, amount, p, today);
    var cmd := Retry(IdOf('1'), card, "k");
    UnusedFacts(s1, DrawOf(1, '2', 'b', 'u', today), cmd);
    var s2 := RetryCanComplete(cfg, timely, s1, DrawOf(1, '2', 'b', 'u', today), cmd);
    CanReachStages(cfg, timely, s2);
    var worker := s2.workers[0];
    var spot := Spot(Completing(p, p, None), s2.db, SideOf(s2), s2.bankNow, s2.issued);
    StartHere(cfg, timely, s2, 0, spot);
    var r := StartRequest("k", worker.fingerprint, p, 1, cfg.stuckAfter);
    OwnRequestOk(cfg, r, worker, card, amount);
    StartedNow(cfg, timely, s2);
    s := ConcludeHop(cfg, timely, s2, s2, 0, spot, r, GivesUp(1));
    MovedOn(s2.db, r, p, GivesUp(1));
    GotWorker(cfg, timely, s, s2, 0, spot.(phase := Finished(Failure(StatusConflict))));
    GotLeads(cfg, timely, s, s2, 0, spot.(phase := Finished(Failure(StatusConflict))));
    Reach(cfg, timely, s2, s);
  }

  lemma UnansweredFacts(cfg: Config, s: State, card: Card, amount: int, p: Payment)
    requires AcceptedCard(card) && Accepted(FirstCommand(card, amount)) && Unanswered(cfg, s, card, amount, p)
    ensures 0 in s.workers && s.workers[0].phase == Completing(p, p, None) && s.workers[0].start == 1 && s.now == 1
    ensures s.workers[0].cmd == FirstCommand(card, amount) && p.id == IdOf('1') && s.ledger == OpenBank(cfg)
    ensures p.id in s.db.payments && s.db.payments[p.id].amount == amount && s.bankNow == 1
    ensures FIRST_KEY in s.db.records && s.db.records[FIRST_KEY].progress.InProgress?
    ensures KeyOf(s.workers[0]) == FIRST_KEY
  {
    hide Accepted, AcceptedCard, IdOf, NameOf, CardText, RequestText;
  }

  lemma CanReachStages(cfg: Config, timely: bool, s: State)
    requires ValidConfig(cfg) && CanReach(cfg, timely, s)
    ensures |s.calls| == |s.stages|
  {
    hide ValidConfig, CanReach, Inv;
    CanReachInv(cfg, timely, s);
    StagesMatch(cfg, s);
  }

  lemma OwnRequestOk(cfg: Config, r: ClaimRequest, w: Worker, card: Card, amount: int)
    requires w.cmd == FirstCommand(card, amount) && r.StartRequest? && r.key == "k" && r.fingerprint == w.fingerprint
    ensures Requests(r, w) && RequestOp(r) == AuthorizeOp
  {
  }

  lemma StartedNow(cfg: Config, timely: bool, s: State)
    requires 0 in s.workers && s.workers[0].start == 1 && s.now == 1 && (timely ==> 0 <= cfg.timeout)
    ensures Punctual(cfg, timely, s, 0) && Reads(s, 0, 1)
  {
  }
}
