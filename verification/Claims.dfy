/** What claims, completions and clean-ups come to, in every reachable state and along every run. */
module Claims {
  import opened Text
  import opened Domain
  import opened Errors
  import opened Commands
  import opened Fingerprints
  import opened Store
  import opened Bank
  import opened Client
  import opened Protocol
  import opened Invariants
  import opened Stability
  import opened Transitions
  import opened WorkerSteps
  import opened StoreSteps
  import opened ClaimSteps
  import opened Runs
  import opened Safety
  import opened History
  import opened Replays

  /** The claim ended its worker's command on the spot: no row, no record, no call and nothing at the bank changed. */
  predicate OnlyEnds(s: State, s': State, w: nat, newId: string, newKey: string, outcome: Outcome) {
    w in s.workers && s' == SetPhase(s.(issued := s.issued + {newId, newKey}), w, Finished(outcome))
  }

  lemma FailedClaimEnds(cfg: Config, s: State, w: nat, at: Time, newId: string, newKey: string, request: ClaimRequest,
                        kind: ErrorKind)
    requires w in s.workers && RequestOf(cfg, s.workers[w], at, newId, newKey) == Ok(request)
    requires Claim(s.db, request) == (s.db, ClaimFailed(kind))
    ensures OnlyEnds(s, Claiming(cfg, s, w, at, newId, newKey), w, newId, newKey, Failure(kind))
  {
    hide RequestOf, Claim;
  }

  lemma AnsweredClaimEnds(cfg: Config, s: State, w: nat, at: Time, newId: string, newKey: string, request: ClaimRequest,
                          result: CommandResult)
    requires w in s.workers && RequestOf(cfg, s.workers[w], at, newId, newKey) == Ok(request)
    requires Claim(s.db, request) == (s.db, Replayed(result))
    requires result.failure.Some? ==> result.failure.value == AuthorizationExpired
    ensures OnlyEnds(s, Claiming(cfg, s, w, at, newId, newKey), w, newId, newKey,
                     if result.failure.None? then Success(result.payment) else Failure(AuthorizationExpired))
  {
    hide RequestOf, Claim;
  }

  /** Of all the workers, a claim changes the phase of its own. */
  predicate MovesOne(s: State, s': State, w: nat, phase: Phase) {
    w in s.workers && s'.workers == s.workers[w := s.workers[w].(phase := phase)]
  }

  lemma PhaseMovesOne(s: State, s0: State, w: nat, phase: Phase)
    requires w in s.workers && s0 == s.(issued := s0.issued)
    ensures MovesOne(s, SetPhase(s0, w, phase), w, phase) && SetPhase(s0, w, phase).db == s.db
  {
  }

  lemma HoldingMovesOne(s: State, s0: State, w: nat, at: Time, db': Db, p: Payment, recovered: bool)
    requires w in s.workers && s0 == s.(issued := s0.issued)
    ensures MovesOne(s, Holding(s0, w, at, db', p, recovered), w, Calling(p, 0))
    ensures Holding(s0, w, at, db', p, recovered).db == db'
  {
  }

  /** The phase and the tables that a claim leads to, by the store's verdict. */
  predicate ComesTo(s: State, s': State, w: nat, db': Db, outcome: ClaimOutcome) {
    match outcome
    case ClaimFailed(kind) => MovesOne(s, s', w, Finished(Failure(kind))) && s'.db == s.db
    case Replayed(result) => MovesOne(s, s', w, Finished(Replay(result))) && s'.db == s.db
    case Claimed(p, _) => MovesOne(s, s', w, Calling(p, 0)) && s'.db == db'
  }

  lemma ClaimComesTo(cfg: Config, s: State, w: nat, at: Time, newId: string, newKey: string, r: ClaimRequest)
    requires w in s.workers && RequestOf(cfg, s.workers[w], at, newId, newKey) == Ok(r)
    ensures ComesTo(s, Claiming(cfg, s, w, at, newId, newKey), w, Claim(s.db, r).0, Claim(s.db, r).1)
  {
    hide RequestOf, Claim, Holding, SetPhase, MovesOne, Replay;
    var s0 := s.(issued := s.issued + {newId, newKey});
    var (db', outcome) := Claim(s.db, r);
    match outcome
    case ClaimFailed(kind) => PhaseMovesOne(s, s0, w, Finished(Failure(kind)));
    case Replayed(result) => PhaseMovesOne(s, s0, w, Finished(Replay(result)));
    case Claimed(p, recovered) => HoldingMovesOne(s, s0, w, at, db', p, recovered);
  }

  lemma ClaimMovesOne(cfg: Config, s: State, w: nat, at: Time, newId: string, newKey: string) returns (phase: Phase)
    requires w in s.workers
    ensures MovesOne(s, Claiming(cfg, s, w, at, newId, newKey), w, phase)
  {
    hide RequestOf, Claim, SetPhase, MovesOne, Replay, Holding;
    match RequestOf(cfg, s.workers[w], at, newId, newKey)
    case Err(_) =>
      phase := Finished(Failure(Internal));
      PhaseMovesOne(s, s.(issued := s.issued + {newId, newKey}), w, phase);
    case Ok(r) =>
      hide Claiming;
      ClaimComesTo(cfg, s, w, at, newId, newKey, r);
      phase := match Claim(s.db, r).1
               case ClaimFailed(kind) => Finished(Failure(kind))
               case Replayed(result) => Finished(Replay(result))
               case Claimed(p, _) => Calling(p, 0);
  }

  lemma SuccessfulClaimHolds(cfg: Config, s: State, w: nat, at: Time, newId: string, newKey: string, request: ClaimRequest,
                             db: Db, p: Payment, recovered: bool)
    requires w in s.workers && RequestOf(cfg, s.workers[w], at, newId, newKey) == Ok(request)
    requires Claim(s.db, request) == (db, Claimed(p, recovered))
    ensures var s' := Claiming(cfg, s, w, at, newId, newKey);
            s'.db == db && w in s'.workers && s'.workers[w] == s.workers[w].(phase := Calling(p, 0))
  {
    hide RequestOf, Claim, Claiming;
    ClaimComesTo(cfg, s, w, at, newId, newKey, request);
  }

  // ---- A key that is in use ----

  /** The request that the record under the worker's key stands for. */
  function RecordedRequest(s: State, k: RecordKey): Command
    requires k in s.leases && |s.leases[k]| > 0 && Owner(s.leases[k]).worker in s.workers
  {
    s.workers[Owner(s.leases[k]).worker].cmd
  }

  lemma RecordOwner(cfg: Config, s: State, k: RecordKey)
    requires k in s.db.records && Inv(cfg, s)
    ensures k in s.leases && |s.leases[k]| > 0 && Owner(s.leases[k]).worker in s.workers
    ensures var owner := s.workers[Owner(s.leases[k]).worker];
            KeyOf(owner) == k && owner.fingerprint == s.db.records[k].fingerprint
  {
    hide Rows, Pinned, PinNames, Calls, LedgerOk, Origins, Replies, RowsAgree, WorkersAgree, Identities, Workers,
         Records, Trails, ProgressOk, ClaimMatches;
    RecordAt(s.db.payments, s.workers, s.db.records, s.leases, cfg.stuckAfter, k);
  }

  /** Equal fingerprints are equal requests. */
  lemma FingerprintsTell(cfg: Config, now: Time, a: Worker, b: Worker)
    requires Identified(cfg, now, a) && Identified(cfg, now, b) && ValidConfig(cfg)
    ensures a.fingerprint == b.fingerprint <==> SameRequest(a.cmd, b.cmd)
  {
    hide RequestText, CardText, Accepted, SameRequest;
    SameTextSameRequest(a.cmd, b.cmd);
  }

  lemma SameFingerprint(cfg: Config, s: State, v: nat, w: nat)
    requires v in s.workers && w in s.workers && Inv(cfg, s) && ValidConfig(cfg)
    ensures s.workers[v].fingerprint == s.workers[w].fingerprint <==> SameRequest(s.workers[v].cmd, s.workers[w].cmd)
  {
    hide Inv, ValidConfig, Identified, SameRequest;
    IdentifiedHere(cfg, s, v);
    IdentifiedHere(cfg, s, w);
    FingerprintsTell(cfg, s.now, s.workers[v], s.workers[w]);
  }

  /** What a claim under a key that has a record comes to, by what the record says. */
  predicate MeetsRecord(cfg: Config, s: State, s': State, w: nat, at: Time, newId: string, newKey: string, same: bool)
    requires w in s.workers && KeyOf(s.workers[w]) in s.db.records
  {
    var k := KeyOf(s.workers[w]);
    var rec := s.db.records[k];
    if !same then OnlyEnds(s, s', w, newId, newKey, Failure(IdempotencyConflict))
    else match rec.progress
      case Completed(result, _) =>
        OnlyEnds(s, s', w, newId, newKey,
                 if result.failure.None? then Success(result.payment) else Failure(AuthorizationExpired))
      case InProgress =>
        if at - cfg.stuckAfter < rec.claimedAt then OnlyEnds(s, s', w, newId, newKey, Failure(IdempotencyInProgress))
        else
          && rec.paymentId in s.db.payments
          && var p := s.db.payments[rec.paymentId];
             if p.status != ExpectedStatus(k.op) then OnlyEnds(s, s', w, newId, newKey, Failure(StatusConflict))
             else
               && s'.db == s.db.(records := s.db.records[k := rec.(claimedAt := at)])
               && w in s'.workers && s'.workers[w] == s.workers[w].(phase := Calling(p, 0))
  }

  /** The store's verdict on a request under a key that has a readable record. */
  lemma ClaimOnRecord(db: Db, r: ClaimRequest)
    requires r.now != NO_TIME && RequestKey(r) in db.records && !Unreadable(db.records[RequestKey(r)])
    ensures var rec := db.records[RequestKey(r)];
            if rec.fingerprint != r.fingerprint then Claim(db, r) == (db, ClaimFailed(IdempotencyConflict))
            else match rec.progress
              case Completed(result, _) => Claim(db, r) == (db, Replayed(result))
              case InProgress =>
                if r.now - r.stuckAfter < rec.claimedAt then Claim(db, r) == (db, ClaimFailed(IdempotencyInProgress))
                else CanRecover(db, r) && Claim(db, r) == Recover(db, r)
  {
    hide Recover, Acquire;
  }

  /** The store's verdict on a takeover whose arguments fit. */
  lemma TakeOver(db: Db, r: ClaimRequest, p: Payment)
    requires CanRecover(db, r) && db.records[RequestKey(r)].paymentId in db.payments
    requires p == db.payments[db.records[RequestKey(r)].paymentId]
    requires r.ExistingRequest? ==>
               && r.paymentId == db.records[RequestKey(r)].paymentId && !CardMismatch(r.cardFingerprint, p)
               && (p.status == ExpectedStatus(r.op) ==> !KeyMissing(r.op, p))
    ensures var k := RequestKey(r);
            Recover(db, r) == if p.status != ExpectedStatus(RequestOp(r)) then (db, ClaimFailed(StatusConflict))
                              else (db.(records := db.records[k := db.records[k].(claimedAt := r.now)]), Claimed(p, true))
  {
    hide ExpectedStatus, KeyMissing, CardMismatch;
  }

  lemma MeetsRecordByPrint(cfg: Config, s: State, w: nat, at: Time, newId: string, newKey: string)
    requires Enabled(s, ClaimStep(w, at, newId, newKey)) && KeyOf(s.workers[w]) in s.db.records
    requires Inv(cfg, s) && ValidConfig(cfg)
    ensures MeetsRecord(cfg, s, Claiming(cfg, s, w, at, newId, newKey), w, at, newId, newKey,
                        s.db.records[KeyOf(s.workers[w])].fingerprint == s.workers[w].fingerprint)
  {
    hide Inv, ValidConfig, RequestOf, Identified, IsPaymentId, Clean, Acquire, KeyFor, IsPinned, Tells, Claim, Claiming, Recover,
         OnlyEnds, RequestKey, CanRecover;
    var k := KeyOf(s.workers[w]);
    var rec := s.db.records[k];
    IdentifiedHere(cfg, s, w);
    RequestIsOk(cfg, s.now, s.workers[w], at, newId, newKey);
    var r := RequestOf(cfg, s.workers[w], at, newId, newKey).value;
    if rec.progress.Completed? {
      StoredOutcome(cfg, s, k);
    }
    ClaimOnRecord(s.db, r);
    if rec.fingerprint != s.workers[w].fingerprint {
      FailedClaimEnds(cfg, s, w, at, newId, newKey, r, IdempotencyConflict);
    } else if rec.progress.Completed? {
      AnsweredClaimEnds(cfg, s, w, at, newId, newKey, r, rec.progress.result);
    } else if at - cfg.stuckAfter < rec.claimedAt {
      FailedClaimEnds(cfg, s, w, at, newId, newKey, r, IdempotencyInProgress);
    } else {
      MeetsStuck(cfg, s, w, at, newId, newKey, r);
    }
  }

  lemma MeetsStuck(cfg: Config, s: State, w: nat, at: Time, newId: string, newKey: string, r: ClaimRequest)
    requires Enabled(s, ClaimStep(w, at, newId, newKey)) && KeyOf(s.workers[w]) in s.db.records
    requires RequestOf(cfg, s.workers[w], at, newId, newKey) == Ok(r) && CanRecover(s.db, r)
    requires Claim(s.db, r) == Recover(s.db, r)
    requires Inv(cfg, s) && ValidConfig(cfg)
    ensures MeetsRecord(cfg, s, Claiming(cfg, s, w, at, newId, newKey), w, at, newId, newKey, true)
  {
    hide Inv, ValidConfig, RequestOf, Identified, IsPaymentId, Clean, IsPinned, Claim, Claiming, Recover, OnlyEnds, RequestKey;
    IdentifiedHere(cfg, s, w);
    RequestIsOk(cfg, s.now, s.workers[w], at, newId, newKey);
    var k := KeyOf(s.workers[w]);
    RecoveryArguments(cfg, s, w, k);
    var p := s.db.payments[s.db.records[k].paymentId];
    TakeOver(s.db, r, p);
    if p.status != ExpectedStatus(k.op) {
      FailedClaimEnds(cfg, s, w, at, newId, newKey, r, StatusConflict);
    } else {
      SuccessfulClaimHolds(cfg, s, w, at, newId, newKey, r, Recover(s.db, r).0, p, true);
    }
  }

  /**
   * A claim under a key that has a record is decided by the record alone. Another request under the key is refused with
   * an idempotency conflict and learns nothing. The same request gets the stored outcome once there is one, is told to
   * wait while the claim is young, and otherwise takes the claim over, unless the payment has moved on.
   */
  lemma ClaimMeetsRecord(cfg: Config, s: State, w: nat, at: Time, newId: string, newKey: string)
    requires Enabled(s, ClaimStep(w, at, newId, newKey)) && KeyOf(s.workers[w]) in s.db.records
    requires ValidConfig(cfg) && Reachable(cfg, s)
    ensures var k := KeyOf(s.workers[w]);
            && k in s.leases && |s.leases[k]| > 0 && Owner(s.leases[k]).worker in s.workers
            && MeetsRecord(cfg, s, Effect(cfg, s, ClaimStep(w, at, newId, newKey)), w, at, newId, newKey,
                           SameRequest(RecordedRequest(s, k), s.workers[w].cmd))
  {
    hide Inv, ValidConfig, Reachable, Claiming, IsPaymentId, Clean, MeetsRecord, SameRequest;
    ReachableIsInv(cfg, s);
    var k := KeyOf(s.workers[w]);
    RecordOwner(cfg, s, k);
    SameFingerprint(cfg, s, Owner(s.leases[k]).worker, w);
    MeetsRecordByPrint(cfg, s, w, at, newId, newKey);
  }

  /**
   * The store's verdict on any takeover, reachable or not, in the order of the checks: payment gone, other payment, other
   * status, other card, key never pinned.
   */
  lemma RecoveryVerdict(db: Db, r: ClaimRequest)
    requires CanRecover(db, r)
    ensures var k := RequestKey(r);
            var rec := db.records[k];
            var (db', outcome) := Recover(db, r);
            var other := r.ExistingRequest? && r.paymentId != rec.paymentId;
            if rec.paymentId !in db.payments then outcome == ClaimFailed(Internal) && db' == db
            else
              var p := db.payments[rec.paymentId];
              var moved := p.status != (match k.op case AuthorizeOp => Pending case RetryOp => Pending
                                                   case RefundOp => Captured case _ => Authorized);
              var otherCard := r.ExistingRequest? && r.cardFingerprint != "" && r.cardFingerprint != p.cardFingerprint;
              var unpinned := match r
                case StartRequest(_, _, _, _, _) => false
                case ExistingRequest(op, _, _, _, _, _, _, _) =>
                  || op == AuthorizeOp || (op == CaptureOp && p.captureKey == "") || (op == VoidOp && p.voidKey == "")
                  || (op == RefundOp && p.refundKey == "");
              && (outcome == ClaimFailed(IdempotencyConflict) <==> other || (!moved && otherCard))
              && (outcome == ClaimFailed(StatusConflict) <==> !other && moved)
              && (outcome == ClaimFailed(Internal) <==> !other && !moved && !otherCard && unpinned)
              && (outcome == Claimed(p, true) <==> !other && !moved && !otherCard && !unpinned)
              && (outcome.Claimed? ==> db' == db.(records := db.records[k := rec.(claimedAt := r.now)]))
              && (outcome.ClaimFailed? ==> db' == db) && !outcome.Replayed?
  {
  }

  // ---- A key that is free ----

  /** The payment that an accepted authorization starts. */
  predicate Starts(cfg: Config, cmd: Command, p: Payment, at: Time, newId: string, newKey: string)
    requires cmd.Authorize? && Accepted(cmd)
  {
    && p.id == newId && p.orderId == cmd.orderId && p.customerId == cmd.customerId && p.amount == cmd.amount
    && p.currency == "USD" && p.status == Pending && p.authKey == newKey
    && p.cardFingerprint == cfg.mac(CardText(cmd.card)) && p.createdAt == p.updatedAt == at
    && p.holdId == p.captureKey == p.voidKey == p.refundKey == "" && p.expiresAt == NO_TIME && p.declineReason == NoReason
  }

  /** The claim opened a record for its payment and wrote that payment. */
  predicate Opens(s: State, s': State, w: nat, at: Time, p: Payment) {
    && w in s.workers && w in s'.workers && s'.workers[w] == s.workers[w].(phase := Calling(p, 0))
    && s'.db == Db(s.db.payments[p.id := p],
                   s.db.records[KeyOf(s.workers[w]) := Record(s.workers[w].fingerprint, p.id, InProgress, at)])
  }

  lemma NewRowFields(cfg: Config, now: Time, w: Worker, at: Time, newId: string, newKey: string)
    requires Identified(cfg, now, w) && w.cmd.Authorize? && IsPaymentId(newId) && Clean(newKey) && at != NO_TIME
    requires ValidConfig(cfg)
    ensures var r := RequestOf(cfg, w, at, newId, newKey);
            r.Ok? && r.value.StartRequest? && Starts(cfg, w.cmd, r.value.payment, at, newId, newKey)
  {
    hide CardText, RequestText, IsPaymentId, Clean, NewPendingPayment, WellFormed;
    NewPendingOk(newId, w.cmd.orderId, w.cmd.customerId, w.cmd.amount, newKey, w.cardFingerprint, at);
  }

  /** An authorization under a free key starts exactly the payment it was asked for. */
  lemma AuthorizationStarts(cfg: Config, s: State, w: nat, at: Time, newId: string, newKey: string)
    requires Enabled(s, ClaimStep(w, at, newId, newKey)) && KeyOf(s.workers[w]) !in s.db.records
    requires s.workers[w].cmd.Authorize? && Accepted(s.workers[w].cmd)
    requires ValidConfig(cfg) && Reachable(cfg, s)
    ensures var s' := Effect(cfg, s, ClaimStep(w, at, newId, newKey));
            && newId !in s.db.payments && newId in s'.db.payments
            && Starts(cfg, s.workers[w].cmd, s'.db.payments[newId], at, newId, newKey)
            && Opens(s, s', w, at, s'.db.payments[newId])
  {
    hide Inv, ValidConfig, Reachable, Accepted, IsPaymentId, Clean, RequestText, CardText, RequestOf, Identified,
         WellFormed, TableChecks, ClaimMatches, Starts, Recover;
    ReachableIsInv(cfg, s);
    IdentifiedHere(cfg, s, w);
    RequestIsOk(cfg, s.now, s.workers[w], at, newId, newKey);
    StartRequestOk(cfg, s.now, s.workers[w], at, newId, newKey);
    NewRowFields(cfg, s.now, s.workers[w], at, newId, newKey);
    NewIdUnknown(cfg, s, newId);
    WellFormedChecks(RequestOf(cfg, s.workers[w], at, newId, newKey).value.payment);
  }

  /** The row with its operation key: the one it has, or the new one, and nothing else changed. */
  predicate Pins(op: Op, row: Payment, p: Payment, newKey: string) {
    && (KeyFor(op, row) != "" ==> p == row)
    && (KeyFor(op, row) == "" ==>
          match op
          case CaptureOp => p == row.(captureKey := newKey)
          case VoidOp => p == row.(voidKey := newKey)
          case RefundOp => p == row.(refundKey := newKey)
          case _ => false)
  }

  /** What a claim under a free key comes to, for a command on an existing payment. */
  predicate MeetsPayment(cfg: Config, s: State, s': State, w: nat, at: Time, newId: string, newKey: string)
    requires w in s.workers && !s.workers[w].cmd.Authorize? && Accepted(s.workers[w].cmd)
  {
    var cmd := s.workers[w].cmd;
    if cmd.paymentId !in s.db.payments then OnlyEnds(s, s', w, newId, newKey, Failure(NotFound))
    else
      var row := s.db.payments[cmd.paymentId];
      if || row.status != (match cmd case Retry(_, _, _) => Pending case Refund(_, _) => Captured case _ => Authorized)
         || (cmd.Retry? && row.cardFingerprint != cfg.mac(CardText(cmd.card)))
      then OnlyEnds(s, s', w, newId, newKey, Failure(StatusConflict))
      else
        && cmd.paymentId in s'.db.payments && s'.db.payments[cmd.paymentId].id == cmd.paymentId
        && Pins(OpOf(cmd), row, s'.db.payments[cmd.paymentId], newKey)
        && Opens(s, s', w, at, s'.db.payments[cmd.paymentId])
  }

  /** The store's verdict on a request for an existing payment under a free key. */
  lemma ClaimOnPayment(db: Db, r: ClaimRequest)
    requires r.ExistingRequest? && r.now != NO_TIME && RequestKey(r) !in db.records
    ensures if r.paymentId !in db.payments then Claim(db, r) == (db, ClaimFailed(NotFound))
            else
              var row := db.payments[r.paymentId];
              if row.status != ExpectedStatus(r.op) || CardMismatch(r.cardFingerprint, row) then
                Claim(db, r) == (db, ClaimFailed(StatusConflict))
              else EnsureKey(r.op, row, r.newKey).Ok? ==>
                     var p := EnsureKey(r.op, row, r.newKey).value;
                     Claim(db, r) ==
                       (Db(db.payments[r.paymentId := p],
                           db.records[RequestKey(r) := Record(r.fingerprint, r.paymentId, InProgress, r.now)]),
                        Claimed(p, false))
  {
    hide Recover, EnsureKey, ExpectedStatus, CardMismatch;
  }

  /**
   * A command on an existing payment, under a free key: an unknown payment is not found, a payment in another status or
   * of another card is a status conflict, and otherwise the claim pins the operation key and opens a record.
   */
  lemma ClaimMeetsPayment(cfg: Config, s: State, w: nat, at: Time, newId: string, newKey: string)
    requires Enabled(s, ClaimStep(w, at, newId, newKey)) && KeyOf(s.workers[w]) !in s.db.records
    requires !s.workers[w].cmd.Authorize? && Accepted(s.workers[w].cmd)
    requires ValidConfig(cfg) && Reachable(cfg, s)
    ensures MeetsPayment(cfg, s, Effect(cfg, s, ClaimStep(w, at, newId, newKey)), w, at, newId, newKey)
  {
    hide Inv, ValidConfig, Reachable, Accepted, IsPaymentId, Clean, RequestText, CardText, RequestOf, Identified,
         WellFormed, ClaimMatches, EnsureKey, Pins, Agrees, KeysPinned, NoKeyLost, PinNames, Behind, Claim, Claiming,
         OnlyEnds, RequestKey;
    ReachableIsInv(cfg, s);
    IdentifiedHere(cfg, s, w);
    RequestIsOk(cfg, s.now, s.workers[w], at, newId, newKey);
    CardFingerprintPresent(cfg, s.now, s.workers[w]);
    CardFingerprintIs(cfg, s.now, s.workers[w]);
    var r := RequestOf(cfg, s.workers[w], at, newId, newKey).value;
    var id := s.workers[w].cmd.paymentId;
    ClaimOnPayment(s.db, r);
    if id !in s.db.payments {
      FailedClaimEnds(cfg, s, w, at, newId, newKey, r, NotFound);
    } else if !Claimable(s, w) {
      FailedClaimEnds(cfg, s, w, at, newId, newKey, r, StatusConflict);
    } else {
      ExistingFacts(cfg, s, w, newKey);
      PinsOne(cfg, s, w, newKey);
      var p := EnsureKey(r.op, s.db.payments[id], newKey).value;
      SuccessfulClaimHolds(cfg, s, w, at, newId, newKey, r, Claim(s.db, r).0, p, false);
    }
  }

  lemma CardFingerprintIs(cfg: Config, now: Time, w: Worker)
    requires Identified(cfg, now, w)
    ensures w.cmd.Retry? ==> Accepted(w.cmd) && w.cardFingerprint == cfg.mac(CardText(w.cmd.card))
  {
    hide CardText, RequestText, Accepted;
  }

  lemma PinsOne(cfg: Config, s: State, w: nat, newKey: string)
    requires w in s.workers && !s.workers[w].cmd.Authorize? && Claimable(s, w) && Clean(newKey) && Inv(cfg, s)
    ensures var row := s.db.payments[s.workers[w].cmd.paymentId];
            var r := EnsureKey(OpOf(s.workers[w].cmd), row, newKey);
            r.Ok? && Pins(OpOf(s.workers[w].cmd), row, r.value, newKey)
  {
    hide Inv, Clean, WellFormed;
    var op, id := OpOf(s.workers[w].cmd), s.workers[w].cmd.paymentId;
    RowFacts(cfg, s, id);
    EnsuredOk(op, s.db.payments[id], newKey);
    AuthKeyPresent(s.db.payments[id]);
    CleanIsPresent(newKey);
    hide EnsureKey;
  }

  lemma AuthKeyPresent(p: Payment)
    requires WellFormed(p)
    ensures p.authKey != ""
  {
    hide TableChecks, IsPaymentId;
  }

  // ---- Completing ----

  /** What a completion comes to, by what its row and its record say. */
  predicate CompletesAs(s: State, s': State, w: nat, at: Time, acked: bool)
    requires w in s.workers && s.workers[w].phase.Completing?
  {
    var worker := s.workers[w];
    var k, after := KeyOf(worker), worker.phase.after;
    && after.id in s.db.payments
    && if s.db.payments[after.id].status != worker.phase.before.status then
         s' == SetPhase(s, w, Finished(Failure(StatusConflict)))
       else if || k !in s.db.records || s.db.records[k].fingerprint != worker.fingerprint
               || s.db.records[k].progress.Completed?
       then s' == SetPhase(s, w, Finished(Failure(IdempotencyConflict)))
       else
         && s'.db.payments == s.db.payments[after.id := after]
         && k in s'.db.records && s'.db.records == s.db.records[k := s'.db.records[k]]
         && s'.db.records[k] == s.db.records[k].(progress := s'.db.records[k].progress)
         && s'.db.records[k].progress.Completed? && s'.db.records[k].progress.at == at
         && var result := s'.db.records[k].progress.result;
            && Shows(result.payment, after)
            && result.failure == (if after.status == Expired then Some(AuthorizationExpired) else None)
            && w in s'.workers
            && s'.workers[w] == worker.(phase := Finished(if !acked then Failure(Internal)
                                                          else if after.status == Expired then Failure(AuthorizationExpired)
                                                          else Success(result.payment)))
  }

  /**
   * A completion with no timing assumption: it finds the payment moved on, or its record gone, taken or already answered,
   * and then changes nothing; otherwise row and record change together and the answer shows the payment as persisted.
   */
  lemma CompletionComesTo(cfg: Config, s: State, w: nat, at: Time, acked: bool)
    requires Enabled(s, CompleteStep(w, at, acked)) && ValidConfig(cfg) && Reachable(cfg, s)
    ensures CompletesAs(s, Effect(cfg, s, CompleteStep(w, at, acked)), w, at, acked)
  {
    hide Inv, ValidConfig, Reachable, Finishing, CompletesAs;
    ReachableIsInv(cfg, s);
    CompletionByInv(cfg, s, w, at, acked);
  }

  lemma CompletionByInv(cfg: Config, s: State, w: nat, at: Time, acked: bool)
    requires Enabled(s, CompleteStep(w, at, acked)) && Inv(cfg, s)
    ensures CompletesAs(s, Finishing(s, w, at, acked), w, at, acked)
  {
    hide Inv, Agrees, KeysPinned, NoKeyLost, Behind, WellFormed, Overwrite, TableChecks, Identified, Finishing, CompletesAs,
         Prepared, Attempt;
    CompletingFacts(cfg, s, w, at, acked);
    IdentifiedHere(cfg, s, w);
    StartIsTime(cfg, s.now, s.workers[w]);
    var worker := s.workers[w];
    var after := worker.phase.after;
    if s.db.payments[after.id].status == worker.phase.before.status {
      CompletionFacts(cfg, s, w);
      WellFormedChecks(after);
      PreparedFailure(OpOf(worker.cmd), worker.phase.before, after, worker.phase.failure);
    }
    FinishingComesTo(s, w, at, acked);
  }

  lemma FinishingComesTo(s: State, w: nat, at: Time, acked: bool)
    requires w in s.workers && s.workers[w].phase.Completing? && at != NO_TIME
    requires var worker := s.workers[w];
             var after := worker.phase.after;
             && after.id in s.db.payments && worker.phase.before.status == ExpectedStatus(OpOf(worker.cmd))
             && (s.db.payments[after.id].status == worker.phase.before.status ==>
                   && Overwrite(s.db.payments[after.id], after) == after && TableChecks(after)
                   && worker.phase.failure == (if after.status == Expired then Some(AuthorizationExpired) else None))
    ensures CompletesAs(s, Finishing(s, w, at, acked), w, at, acked)
  {
    hide Overwrite, TableChecks, Complete, ExpectedStatus;
    var worker := s.workers[w];
    var c := HeldBy(worker, worker.phase.after);
    CompletionVerdict(s.db, c, CompletionResult(worker), at);
    if Complete(s.db, c, CompletionResult(worker), at).1.None? { CompletedDb(s.db, c, CompletionResult(worker), at); }
  }

  lemma CompletedDb(db: Db, c: HeldClaim, result: CommandResult, at: Time)
    requires Complete(db, c, result, at).1.None?
    ensures var k := RecordKey(c.op, c.key);
            && c.payment.id in db.payments && k in db.records
            && Complete(db, c, result, at).0 == Db(db.payments[c.payment.id := Overwrite(db.payments[c.payment.id], c.payment)],
                                                   db.records[k := db.records[k].(progress := Completed(result, at))])
  {
    hide Overwrite, TableChecks, ExpectedStatus;
  }

  lemma StartIsTime(cfg: Config, now: Time, w: Worker)
    requires Identified(cfg, now, w)
    ensures NO_TIME < w.start
  {
    hide RequestText, CardText, Accepted;
  }

  lemma PreparedFailure(op: Op, p: Payment, q: Payment, failure: Option<ErrorKind>)
    requires Prepared(op, p, q, failure)
    ensures failure == (if q.status == Expired then Some(AuthorizationExpired) else None)
  {
    hide WellFormed, Moved;
  }

  /** The store's verdict on any completion, reachable or not, in the order of the checks. */
  lemma CompletionVerdict(db: Db, c: HeldClaim, result: CommandResult, at: Time)
    ensures var (db', error) := Complete(db, c, result, at);
            var known := at != NO_TIME && c.payment.id in db.payments;
            var still := known && db.payments[c.payment.id].status == ExpectedStatus(c.op);
            var written := still && TableChecks(Overwrite(db.payments[c.payment.id], c.payment));
            var storable := written && (result.failure.None? || result.failure.value == AuthorizationExpired);
            var k := RecordKey(c.op, c.key);
            var mine := k in db.records && db.records[k].fingerprint == c.fingerprint && db.records[k].progress.InProgress?;
            && (error == Some(NotFound) <==> at != NO_TIME && c.payment.id !in db.payments)
            && (error == Some(StatusConflict) <==> known && !still)
            && (error == Some(IdempotencyConflict) <==> storable && !mine)
            && (error == Some(Internal) <==> at == NO_TIME || (still && !storable))
            && (error == None <==> storable && mine)
            && (error.Some? ==> db' == db)
  {
    hide TableChecks, Overwrite, ExpectedStatus;
  }

  // ---- Repetitions ----

  /** A worker's command never changes, and neither do its fingerprints. */
  lemma {:induction false} RunKeepsWorkers(cfg: Config, run: seq<State>, i: nat, j: nat, w: nat)
    requires IsRun(cfg, run) && i <= j < |run| && w in run[i].workers
    ensures w in run[j].workers && SameWorker(run[i].workers[w], run[j].workers[w])
    decreases j
  {
    hide Init, Next;
    if i < j {
      RunKeepsWorkers(cfg, run, i, j - 1, w);
      assert StepAt(cfg, run, j - 1);
      NextKeepsWorkers(cfg, run[j - 1], run[j], w);
    }
  }

  lemma NextKeepsWorkers(cfg: Config, s: State, s': State, w: nat)
    requires Next(cfg, s, s') && w in s.workers
    ensures w in s'.workers && SameWorker(s.workers[w], s'.workers[w])
  {
    hide Enabled, Effect;
    var step: Step :| Enabled(s, step) && s' == Effect(cfg, s, step);
    StepKeepsWorkers(cfg, s, step, w);
  }

  /** Time, cleaning and the bank touch no worker. */
  lemma OtherStepsTouchNone(cfg: Config, s: State, step: Step)
    requires Enabled(s, step) && !step.Arrive? && !step.ClaimStep? && !step.Send? && !step.Receive? && !step.NoReply?
    requires !step.CompleteStep? && !step.ReleaseStep? && !step.Abort?
    ensures Effect(cfg, s, step).workers == s.workers
  {
    hide Executing, Clean;
    match step
    case Execute(c, how, today, newTxn) => ExecuteFrame(cfg, s, c, how, today, newTxn);
    case _ =>
  }

  lemma StepKeepsWorkers(cfg: Config, s: State, step: Step, w: nat)
    requires Enabled(s, step) && w in s.workers
    ensures var s' := Effect(cfg, s, step); w in s'.workers && SameWorker(s.workers[w], s'.workers[w])
  {
    hide Effect, Enabled, SameWorker;
    match step
    case Receive(_, _, _) => EndKeepsWorkers(cfg, s, step, w);
    case NoReply(_, _, _, _) => EndKeepsWorkers(cfg, s, step, w);
    case CompleteStep(_, _, _) => EndKeepsWorkers(cfg, s, step, w);
    case ReleaseStep(_, _) => EndKeepsWorkers(cfg, s, step, w);
    case Abort(_) => EndKeepsWorkers(cfg, s, step, w);
    case Arrive(_, _) => StartKeepsWorkers(cfg, s, step, w);
    case ClaimStep(_, _, _, _) => StartKeepsWorkers(cfg, s, step, w);
    case Send(_) => StartKeepsWorkers(cfg, s, step, w);
    case _ =>
      OtherStepsTouchNone(cfg, s, step);
      SameItself(s.workers[w]);
  }

  lemma SameItself(w: Worker)
    ensures SameWorker(w, w)
  {
  }

  lemma StartKeepsWorkers(cfg: Config, s: State, step: Step, w: nat)
    requires Enabled(s, step) && w in s.workers && (step.Arrive? || step.ClaimStep? || step.Send?)
    ensures var s' := Effect(cfg, s, step); w in s'.workers && SameWorker(s.workers[w], s'.workers[w])
  {
    hide Claiming, NewWorker, Accepted, IsPaymentId, Clean, CallOf;
    match step
    case Arrive(_, _) =>
    case ClaimStep(v, at, newId, newKey) => ClaimKeepsWorkers(cfg, s, v, at, newId, newKey, w);
    case Send(_) =>
  }

  lemma EndKeepsWorkers(cfg: Config, s: State, step: Step, w: nat)
    requires Enabled(s, step) && w in s.workers
    requires step.Receive? || step.NoReply? || step.CompleteStep? || step.ReleaseStep? || step.Abort?
    ensures var s' := Effect(cfg, s, step); w in s'.workers && SameWorker(s.workers[w], s'.workers[w])
  {
    hide Finishing, AfterAnswer, ReadReply, LettingGo, SetPhase, SameWorker;
    match step
    case Receive(v, at, retry) =>
      var result := ReadReply(BankOpOf(OpOf(s.workers[v].cmd)), s.stages[s.workers[v].phase.call].reply);
      PhaseKeepsWorkers(s, v, AfterAnswer(s.workers[v], result, at, retry), w);
    case NoReply(v, kind, at, retry) => PhaseKeepsWorkers(s, v, AfterAnswer(s.workers[v], BankFailed(kind), at, retry), w);
    case CompleteStep(v, at, acked) => FinishingKeepsWorkers(s, v, at, acked, w);
    case ReleaseStep(v, landed) =>
      PhaseKeepsWorkers(s, v, Finished(Failure(s.workers[v].phase.kind)), w);
      ReleaseKeepsWorkers(s, v, w);
    case Abort(v) => PhaseKeepsWorkers(s, v, Finished(Failure(Internal)), w);
  }

  lemma PhaseKeepsWorkers(s: State, v: nat, phase: Phase, w: nat)
    requires v in s.workers && w in s.workers
    ensures var s' := SetPhase(s, v, phase); w in s'.workers && SameWorker(s.workers[w], s'.workers[w])
  {
  }

  lemma ReleaseKeepsWorkers(s: State, v: nat, w: nat)
    requires v in s.workers && s.workers[v].phase.Releasing? && w in s.workers
    ensures var s' := LettingGo(s, v); w in s'.workers && SameWorker(s.workers[w], s'.workers[w])
  {
    hide Release;
  }

  lemma ClaimKeepsWorkers(cfg: Config, s: State, v: nat, at: Time, newId: string, newKey: string, w: nat)
    requires v in s.workers && w in s.workers
    ensures var s' := Claiming(cfg, s, v, at, newId, newKey); w in s'.workers && SameWorker(s.workers[w], s'.workers[w])
  {
    hide Claiming;
    var _ := ClaimMovesOne(cfg, s, v, at, newId, newKey);
  }

  lemma FinishingKeepsWorkers(s: State, v: nat, at: Time, acked: bool, w: nat)
    requires v in s.workers && s.workers[v].phase.Completing? && w in s.workers
    ensures var s' := Finishing(s, v, at, acked); w in s'.workers && SameWorker(s.workers[w], s'.workers[w])
  {
    hide Finishing;
    FinishingFrame(s, v, at, acked);
  }

  /**
   * Within 24 hours of a completion, every claim under its key is decided by whether it makes the same request: if so it
   * ends with the stored outcome, if not with an idempotency conflict. Either way it opens no payment, changes no table
   * and makes no call.
   */
  lemma RepetitionsAnswered(cfg: Config, run: seq<State>, i: nat, j: nat, w: nat, at: Time, acked: bool,
                            v: nat, claimAt: Time, newId: string, newKey: string)
    requires IsRun(cfg, run) && i < j < |run| && ValidConfig(cfg)
    requires Enabled(run[i], CompleteStep(w, at, acked)) && Attempt(run[i], w, at).1.None?
    requires run[i + 1] == Effect(cfg, run[i], CompleteStep(w, at, acked))
    requires run[j].now <= at + 24 * 60 * 60 * 1_000_000_000 && Enabled(run[j], ClaimStep(v, claimAt, newId, newKey))
    requires KeyOf(run[j].workers[v]) == KeyOf(run[i].workers[w])
    ensures var after, s' := run[i].workers[w].phase.after, Effect(cfg, run[j], ClaimStep(v, claimAt, newId, newKey));
            if !SameRequest(run[i].workers[w].cmd, run[j].workers[v].cmd) then
              OnlyEnds(run[j], s', v, newId, newKey, Failure(IdempotencyConflict))
            else if after.status == Expired then OnlyEnds(run[j], s', v, newId, newKey, Failure(AuthorizationExpired))
            else exists r: PaymentResult :: Shows(r, after) && OnlyEnds(run[j], s', v, newId, newKey, Success(r))
  {
    hide Inv, ValidConfig, IsRun, Claiming, Finishing, Stored, IsPaymentId, Clean, MeetsRecord, SameRequest, OnlyEnds, Attempt;
    var worker := run[i].workers[w];
    CompletionStores(run[i], w, at, acked);
    CompletionTells(cfg, run, i, w, at, acked);
    ReachableInv(cfg, run, j);
    StoredForTheWindow(cfg, run, i + 1, j, KeyOf(worker), worker.fingerprint, CompletionResult(worker), at);
    StoredRecord(run[j].db, KeyOf(worker), worker.fingerprint, CompletionResult(worker), at);
    MeetsRecordByPrint(cfg, run[j], v, claimAt, newId, newKey);
    RunKeepsWorkers(cfg, run, i, j, w);
    SameFingerprint(cfg, run[j], w, v);
    MeetsCompleted(cfg, run[j], Claiming(cfg, run[j], v, claimAt, newId, newKey), v, claimAt, newId, newKey,
                   worker.fingerprint == run[j].workers[v].fingerprint, CompletionResult(worker), at);
  }

  lemma StoredRecord(db: Db, k: RecordKey, fingerprint: string, result: CommandResult, at: Time)
    requires Stored(db, k, fingerprint, result, at)
    ensures k in db.records && db.records[k].fingerprint == fingerprint && db.records[k].progress == Completed(result, at)
  {
  }

  lemma MeetsCompleted(cfg: Config, s: State, s': State, w: nat, at: Time, newId: string, newKey: string, same: bool,
                       result: CommandResult, completedAt: Time)
    requires w in s.workers && KeyOf(s.workers[w]) in s.db.records
    requires s.db.records[KeyOf(s.workers[w])].progress == Completed(result, completedAt)
    requires MeetsRecord(cfg, s, s', w, at, newId, newKey, same)
    ensures OnlyEnds(s, s', w, newId, newKey,
                     if !same then Failure(IdempotencyConflict)
                     else if result.failure.None? then Success(result.payment) else Failure(AuthorizationExpired))
  {
    hide OnlyEnds;
  }

  /** What the completing worker stored. */
  lemma CompletionTells(cfg: Config, run: seq<State>, i: nat, w: nat, at: Time, acked: bool)
    requires IsRun(cfg, run) && i < |run| && ValidConfig(cfg) && Enabled(run[i], CompleteStep(w, at, acked))
    ensures var after, result := run[i].workers[w].phase.after, CompletionResult(run[i].workers[w]);
            Shows(result.payment, after) && (result.failure.None? <==> after.status != Expired)
  {
    hide Inv, ValidConfig, IsRun, Prepared, Snapshot, Identified, Agrees;
    ReachableInv(cfg, run, i);
    HolderFacts(cfg, run[i], w);
    var worker := run[i].workers[w];
    PreparedFailure(OpOf(worker.cmd), worker.phase.before, worker.phase.after, worker.phase.failure);
  }

  // ---- Cleaning up ----

  /** A clean-up removes exactly the records that were completed more than 24 hours before its time. */
  lemma CleanupIsExact(cfg: Config, s: State, at: Time, k: RecordKey)
    requires Enabled(s, CleanupStep(at)) && k in s.db.records && at != 24 * 60 * 60 * 1_000_000_000
    ensures var s' := Effect(cfg, s, CleanupStep(at));
            && s'.db.payments == s.db.payments && s'.workers == s.workers
            && (k !in s'.db.records <==>
                  && s.db.records[k].progress.Completed?
                  && s.db.records[k].progress.at < at - 24 * 60 * 60 * 1_000_000_000)
            && (k in s'.db.records ==> s'.db.records[k] == s.db.records[k])
  {
  }
}
