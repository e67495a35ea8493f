/** What can still happen: whole commands that succeed, from every state that runs or timely runs reach. */
module Progress {
  import opened Text
  import opened Domain
  import opened Commands
  import opened Store
  import opened Bank
  import opened Client
  import opened Protocol
  import opened Invariants
  import opened Transitions
  import opened ClaimSteps
  import opened Runs
  import opened Safety
  import opened Claims
  import opened Paths
  import opened Deliveries
  import opened CommandPaths

  /** What a new command draws and meets: its worker, new names, and the bank's calendar. */
  datatype Draw = Draw(worker: nat, newId: string, newKey: string, newTxn: string, today: YearMonth)

  /** An accepted command, and names that are not in use yet. */
  predicate Drawn(s: State, d: Draw, cmd: Command) {
    && d.worker !in s.workers && Accepted(cmd)
    && Fresh(s, d.newId) && IsPaymentId(d.newId) && Fresh(s, d.newKey) && d.newId != d.newKey
    && Clean(d.newTxn) && d.newTxn !in s.ledger.txns
  }

  /** Nothing of the command is in use yet, not even its idempotency key. */
  predicate Unused(s: State, d: Draw, cmd: Command) {
    Drawn(s, d, cmd) && RecordKey(OpOf(cmd), cmd.key) !in s.db.records
  }

  // ---- One undisturbed command ----

  /** A first attempt that is delivered at once, runs, and is heard. */
  function Smoothly(s: State, d: Draw): World {
    var turn := Heard(Passage(s.bankNow, d.today, d.newTxn, Run, true, true));
    World(Exchange(turn, None, turn), s.now, s.now, true, true)
  }

  function WithWorker(cfg: Config, s: State, d: Draw, cmd: Command): State
    requires Accepted(cmd)
  {
    s.(workers := s.workers[d.worker := NewWorker(cfg, cmd, s.now)])
  }

  lemma ArriveFirst(cfg: Config, timely: bool, s: State, d: Draw, cmd: Command)
    requires ValidConfig(cfg) && CanReach(cfg, timely, s) && Drawn(s, d, cmd) && (timely ==> 0 <= cfg.timeout)
    ensures var s1 := WithWorker(cfg, s, d, cmd);
            && Leads(cfg, timely, s, s1) && Inv(cfg, s) && Inv(cfg, s1) && |s1.calls| == |s1.stages|
            && Enabled(s1, ClaimStep(d.worker, s.now, d.newId, d.newKey))
            && Punctual(cfg, timely, s1, d.worker) && Reads(s1, d.worker, s.now) && s.now > NO_TIME
  {
    hide Inv, ValidConfig, CanReach, Leads, Accepted, IsPaymentId, Clean, RequestText, CardText;
    CanReachInv(cfg, timely, s);
    var s1 := WithWorker(cfg, s, d, cmd);
    StepInv(cfg, s, Arrive(d.worker, cmd));
    StagesMatch(cfg, s1);
    Stay(cfg, timely, s);
    Then(cfg, timely, s, s, Arrive(d.worker, cmd));
  }

  lemma StagesMatch(cfg: Config, s: State)
    requires Inv(cfg, s)
    ensures |s.calls| == |s.stages| && s.now > NO_TIME
  {
    hide Rows, Pinned, PinNames, Calls, LedgerOk, Origins, RowsAgree, WorkersAgree, Identities, Workers, Records, Trails;
  }

  /** The request that the command's claim makes. */
  function Asks(cfg: Config, s: State, d: Draw, cmd: Command): Result<ClaimRequest>
    requires Accepted(cmd)
  {
    RequestOf(cfg, NewWorker(cfg, cmd, s.now), s.now, d.newId, d.newKey)
  }

  lemma AsksIsRequest(cfg: Config, s: State, d: Draw, cmd: Command)
    requires Accepted(cmd)
    ensures Asks(cfg, s, d, cmd)
         == RequestOf(cfg, WithWorker(cfg, s, d, cmd).workers[d.worker], s.now, d.newId, d.newKey)
    ensures Asks(cfg, s, d, cmd).Ok? ==> Requests(Asks(cfg, s, d, cmd).value, NewWorker(cfg, cmd, s.now))
  {
    hide Accepted, NewWorker, RequestOf, Requests;
    if Asks(cfg, s, d, cmd).Ok? {
      RequestIdentity(cfg, NewWorker(cfg, cmd, s.now), s.now, d.newId, d.newKey);
    }
  }

  /** The state that an undisturbed command leads to. */
  predicate EndsUp(cfg: Config, s: State, s': State, d: Draw, cmd: Command, end: (Db, BankSide, Outcome))
    requires Accepted(cmd)
  {
    && s'.now == s.now && s'.bankNow == s.bankNow && s'.db == end.0 && SideOf(s') == end.1
    && s'.issued == s.issued + {d.newId, d.newKey}
    && s'.workers == s.workers[d.worker := NewWorker(cfg, cmd, s.now).(phase := Finished(end.2))]
  }

  /** The worker's command has succeeded, and its answer and the stored one show the payment as it is. */
  predicate Told(s: State, w: nat, p: Payment) {
    && w in s.workers && s.workers[w].phase.Finished?
    && s.workers[w].phase.outcome.Success? && Shows(s.workers[w].phase.outcome.result, p)
    && var k := KeyOf(s.workers[w]);
       && k in s.db.records && s.db.records[k].progress.Completed?
       && s.db.records[k].progress.result == CommandResult(s.workers[w].phase.outcome.result, None)
  }

  lemma ToldThere(cfg: Config, s: State, s': State, d: Draw, cmd: Command, end: (Db, BankSide, Outcome), p: Payment)
    requires Accepted(cmd) && EndsUp(cfg, s, s', d, cmd, end) && end.2 == Success(ResultOf(p))
    requires var k := RecordKey(OpOf(cmd), cmd.key);
             && k in end.0.records && end.0.records[k].progress.Completed?
             && end.0.records[k].progress.result == CommandResult(ResultOf(p), None)
    ensures Told(s', d.worker, p)
  {
    hide Accepted, NewWorker, SideOf;
    WorkerCmd(cfg, cmd, s.now);
  }

  /** The world reacts at once: every clock reading is the present. */
  predicate Prompt(s: State, world: World) {
    && world.decidedAt == s.now && world.completedAt == s.now && ValidExchange(world.exchange, s.bankNow)
    && BankClock(world.exchange.first, s.bankNow) == s.bankNow && BankClock(world.exchange.second, s.bankNow) == s.bankNow
  }

  lemma EndsUpThere(cfg: Config, timely: bool, s: State, s': State, d: Draw, cmd: Command, end: (Db, BankSide, Outcome),
                    world: World, bankNow: Time)
    requires Accepted(cmd) && Prompt(s, world) && ClockAfter(world.exchange, s.bankNow, bankNow)
    requires Got(cfg, timely, s', WithWorker(cfg, s, d, cmd), d.worker,
                 Spot(Finished(end.2), end.0, end.1, bankNow, s.issued + {d.newId, d.newKey}))
    ensures Leads(cfg, timely, WithWorker(cfg, s, d, cmd), s') && EndsUp(cfg, s, s', d, cmd, end)
  {
    hide Leads, Accepted, NewWorker, SideOf, ValidExchange;
  }

  lemma ReadyToRun(cfg: Config, s: State, d: Draw, cmd: Command)
    requires ValidConfig(cfg) && Drawn(s, d, cmd) && Inv(cfg, WithWorker(cfg, s, d, cmd))
    ensures Asks(cfg, s, d, cmd).Ok?
  {
    hide Inv, ValidConfig, Accepted, IsPaymentId, Clean, RequestText, CardText, RequestOf, Identified;
    var s1 := WithWorker(cfg, s, d, cmd);
    IdentifiedHere(cfg, s1, d.worker);
    RequestIsOk(cfg, s1.now, s1.workers[d.worker], s.now, d.newId, d.newKey);
  }

  /** From arrival to its end, a command that nothing disturbs. */
  lemma RunsUndisturbed(cfg: Config, timely: bool, s: State, d: Draw, cmd: Command, world: World) returns (s': State)
    requires ValidConfig(cfg) && CanReach(cfg, timely, s) && Drawn(s, d, cmd) && (timely ==> 0 <= cfg.timeout)
    requires Prompt(s, world)
    ensures Leads(cfg, timely, s, s') && CanReach(cfg, timely, s') && Asks(cfg, s, d, cmd).Ok?
    ensures EndsUp(cfg, s, s', d, cmd, Ran(s.db, SideOf(s), cfg.holdFor, cmd, Asks(cfg, s, d, cmd).value, world))
  {
    ArriveFirst(cfg, timely, s, d, cmd);
    ReadyToRun(cfg, s, d, cmd);
    hide Inv, ValidConfig, CanReach, Leads, Accepted, Enabled, Ran, RequestOf, EndsUp, Got, ValidExchange, ClockAfter,
         Punctual, Reads, SideOf, Drawn;
    var s1 := WithWorker(cfg, s, d, cmd);
    SameSide(cfg, s, d, cmd);
    var bankNow;
    s', bankNow := RanIsAPath(cfg, timely, s1, d.worker, s.now, d.newId, d.newKey, world);
    EndsUpThere(cfg, timely, s, s', d, cmd,
                Ran(s.db, SideOf(s), cfg.holdFor, cmd, Asks(cfg, s, d, cmd).value, world), world, bankNow);
    Join(cfg, timely, s, s1, s');
    Reach(cfg, timely, s, s');
  }

  lemma RunsSmoothly(cfg: Config, timely: bool, s: State, d: Draw, cmd: Command) returns (s': State)
    requires ValidConfig(cfg) && CanReach(cfg, timely, s) && Drawn(s, d, cmd) && (timely ==> 0 <= cfg.timeout)
    ensures Leads(cfg, timely, s, s') && CanReach(cfg, timely, s') && Asks(cfg, s, d, cmd).Ok?
    ensures EndsUp(cfg, s, s', d, cmd,
                   Ran(s.db, SideOf(s), cfg.holdFor, cmd, Asks(cfg, s, d, cmd).value, Smoothly(s, d)))
  {
    hide ValidConfig, CanReach, Leads, Accepted, Ran, RequestOf, EndsUp, SideOf, IsPaymentId, Clean;
    s' := RunsUndisturbed(cfg, timely, s, d, cmd, Smoothly(s, d));
  }

  lemma SameSide(cfg: Config, s: State, d: Draw, cmd: Command)
    requires Accepted(cmd)
    ensures var s1 := WithWorker(cfg, s, d, cmd);
            && SideOf(s1) == SideOf(s) && d.worker in s1.workers && s1.workers[d.worker] == NewWorker(cfg, cmd, s.now)
            && s1.workers[d.worker].cmd == cmd && s1.db == s.db && s1.bankNow == s.bankNow
  {
    hide Accepted, RequestText, CardText;
  }

  /** What the bank does with a delivery that misses the cache and runs. */
  lemma SmoothExchange(b: BankSide, holdFor: int, call: Call, s: State, d: Draw)
    ensures var (l', reply) := Handle(b.ledger, s.bankNow, d.today, holdFor, call.request, d.newTxn);
            var result := ReadReply(call.op, reply);
            !WorthRetrying(result) ==>
              Exchanged(b, holdFor, call, Smoothly(s, d).exchange) == (BankSide(l', b.replies), result)
  {
    hide Handle, ReadReply;
  }

  /** The records once a success is stored under a key. */
  function Closed(records: map<RecordKey, Record>, k: RecordKey, result: PaymentResult, at: Time): map<RecordKey, Record>
    requires k in records
  {
    records[k := records[k].(progress := Completed(CommandResult(result, None), at))]
  }

  /** A transition of the current row, under an open claim, is persisted. */
  lemma Persists(db: Db, r: ClaimRequest, p: Payment, after: Payment, world: World)
    requires p.id in db.payments && db.payments[p.id] == p && p.status == ExpectedStatus(RequestOp(r))
    requires SameIdentity(p, after) && WellFormed(after) && world.completedAt != NO_TIME && world.acked
    requires var k := RequestKey(r);
             k in db.records && db.records[k].progress.InProgress? && db.records[k].fingerprint == r.fingerprint
    ensures Concluded(db, r, Completing(p, after, None), world) ==
            (Db(db.payments[p.id := after], Closed(db.records, RequestKey(r), ResultOf(after), world.completedAt)),
             Success(ResultOf(after)))
  {
    hide Normalized, IsPaymentId;
    assert Overwrite(p, after) == after;
  }

  /** The pieces of a command that persists a transition. */
  lemma RanPersists(s: State, b: BankSide, holdFor: int, cmd: Command, r: ClaimRequest, world: World, db: Db,
                    recovered: bool, p: Payment, b': BankSide, answer: BankResult, after: Payment)
    requires RequestOp(r) == OpOf(cmd) && Claim(s.db, r) == (db, Claimed(p, recovered)) && s.now != NO_TIME
    requires world.decidedAt == s.now && world.completedAt == s.now && world.acked
    requires Exchanged(b, holdFor, CallOf(cmd, p), world.exchange) == (b', answer)
    requires Decide(OpOf(cmd), p, answer, s.now) == Completing(p, after, None)
    requires p.id in db.payments && db.payments[p.id] == p && p.status == ExpectedStatus(OpOf(cmd))
    requires SameIdentity(p, after) && WellFormed(after) && RequestKey(r) in db.records
    requires db.records[RequestKey(r)].progress.InProgress? && db.records[RequestKey(r)].fingerprint == r.fingerprint
    ensures Ran(s.db, b, holdFor, cmd, r, world) ==
            (Db(db.payments[p.id := after], Closed(db.records, RequestKey(r), ResultOf(after), s.now)), b',
             Success(ResultOf(after)))
  {
    hide Claim, Decide, WellFormed, SameIdentity, Concluded, Exchanged;
    Persists(db, r, p, after, world);
  }

  /** The pieces of a command that succeeds at its first attempt. */
  lemma RanSucceeds(s: State, b: BankSide, holdFor: int, cmd: Command, r: ClaimRequest, d: Draw, db: Db, recovered: bool,
                    p: Payment, l': Ledger, reply: Reply, after: Payment)
    requires RequestOp(r) == OpOf(cmd) && Claim(s.db, r) == (db, Claimed(p, recovered)) && s.now != NO_TIME
    requires Handle(b.ledger, s.bankNow, d.today, holdFor, CallOf(cmd, p).request, d.newTxn) == (l', reply)
    requires !WorthRetrying(ReadReply(BankOpOf(OpOf(cmd)), reply))
    requires Decide(OpOf(cmd), p, ReadReply(BankOpOf(OpOf(cmd)), reply), s.now) == Completing(p, after, None)
    requires p.id in db.payments && db.payments[p.id] == p && p.status == ExpectedStatus(OpOf(cmd))
    requires SameIdentity(p, after) && WellFormed(after) && RequestKey(r) in db.records
    requires db.records[RequestKey(r)].progress.InProgress? && db.records[RequestKey(r)].fingerprint == r.fingerprint
    ensures Ran(s.db, b, holdFor, cmd, r, Smoothly(s, d)) ==
            (Db(db.payments[p.id := after], Closed(db.records, RequestKey(r), ResultOf(after), s.now)),
             BankSide(l', b.replies), Success(ResultOf(after)))
  {
    hide Claim, Handle, ReadReply, Decide, WellFormed, SameIdentity, Exchanged, Ran;
    SmoothExchange(b, holdFor, CallOf(cmd, p), s, d);
    CallRoute(cmd, p);
    RanPersists(s, b, holdFor, cmd, r, Smoothly(s, d), db, recovered, p, BankSide(l', b.replies),
                ReadReply(BankOpOf(OpOf(cmd)), reply), after);
  }

  lemma CallRoute(cmd: Command, p: Payment)
    ensures CallOf(cmd, p).op == BankOpOf(OpOf(cmd))
  {
  }

  // ---- Authorizing ----

  /** The bank would put a hold on the card's account. */
  predicate Approvable(l: Ledger, card: Card, amount: int, today: YearMonth) {
    && Luhn.Accepts(card.number) && ValidCvv(card.cvv) && card.number in l.accounts
    && var a := l.accounts[card.number];
       a.cvv == card.cvv && ValidExpiry(a.month, a.year, today) && 0 < amount <= a.available
  }

  lemma ApprovedAtBank(l: Ledger, now: Time, holdFor: int, card: Card, amount: int, d: Draw)
    requires LedgerOk(l) && Approvable(l, card, amount, d.today) && d.newTxn !in l.txns
    ensures var request := AuthorizeRequest(card.number, card.cvv, card.month, card.year, amount);
            var (l', reply) := Handle(l, now, d.today, holdFor, request, d.newTxn);
            && reply == Approved(d.newTxn, now + holdFor)
            && l'.txns == l.txns[d.newTxn := Txn(card.number, HoldTxn, amount, "", ActiveTxn, now + holdFor)]
            && card.number in l'.accounts
            && l'.accounts[card.number].available == l.accounts[card.number].available - amount
  {
    var r := Ref("", HoldTxn);
    assert r in l.index ==> IndexOk(l, r);
    hide LedgerOk, Luhn.Accepts, ValidCvv, ValidExpiry;
  }

  /** What claiming a new authorization does to the tables. */
  lemma StartClaimed(cfg: Config, s: State, d: Draw, cmd: Command) returns (p: Payment, db: Db)
    requires ValidConfig(cfg) && Inv(cfg, s) && Unused(s, d, cmd) && Inv(cfg, WithWorker(cfg, s, d, cmd))
    requires cmd.Authorize? && s.now > NO_TIME
    ensures Asks(cfg, s, d, cmd).Ok?
    ensures var r := Asks(cfg, s, d, cmd).value;
            && RequestKey(r) == RecordKey(AuthorizeOp, cmd.key) && RequestOp(r) == AuthorizeOp
            && Claim(s.db, r) == (db, Claimed(p, false))
            && db == Db(s.db.payments[p.id := p],
                        s.db.records[RequestKey(r) := Record(r.fingerprint, p.id, InProgress, s.now)])
    ensures WellFormed(p) && p.id == d.newId && p.status == Pending && p.amount == cmd.amount && p.authKey == d.newKey
    ensures p.captureKey == "" && p.orderId == cmd.orderId && p.customerId == cmd.customerId
    ensures p.createdAt == p.updatedAt == s.now
    ensures p.cardFingerprint == NewWorker(cfg, cmd, s.now).cardFingerprint
  {
    hide Inv, ValidConfig, Accepted, IsPaymentId, Clean, RequestText, CardText, RequestOf, Identified, WellFormed,
         TableChecks, NewWorker;
    var s1 := WithWorker(cfg, s, d, cmd);
    WorkerCmd(cfg, cmd, s.now);
    IdentifiedHere(cfg, s1, d.worker);
    StartRequestOk(cfg, s1.now, s1.workers[d.worker], s.now, d.newId, d.newKey);
    NewIdUnknown(cfg, s, d.newId);
    NewRowFields(cfg, s1.now, s1.workers[d.worker], s.now, d.newId, d.newKey);
    p := Asks(cfg, s, d, cmd).value.payment;
    WellFormedChecks(p);
    db := Claim(s.db, Asks(cfg, s, d, cmd).value).0;
  }

  lemma WorkerCmd(cfg: Config, cmd: Command, now: Time)
    requires Accepted(cmd)
    ensures NewWorker(cfg, cmd, now).cmd == cmd && NewWorker(cfg, cmd, now).start == now
    ensures NewWorker(cfg, cmd, now).phase == Ready
  {
    hide Accepted, RequestText, CardText;
  }

  /** An authorized row whose hold is open at the bank. */
  predicate OpenHold(s: State, id: string) {
    && id in s.db.payments && s.db.payments[id].status == Authorized
    && var h := s.db.payments[id].holdId;
       h in s.ledger.txns && s.ledger.txns[h].status == ActiveTxn && s.bankNow <= s.ledger.txns[h].expiresAt
  }

  lemma AuthorizedAfter(p: Payment, d: Draw, expiresAt: Time, now: Time) returns (after: Payment)
    requires WellFormed(p) && p.status == Pending && Clean(d.newTxn) && expiresAt != NO_TIME && now != NO_TIME
    ensures ReadReply(BankAuthorize, Approved(d.newTxn, expiresAt)) == Authorised(d.newTxn, expiresAt)
    ensures Decide(AuthorizeOp, p, Authorised(d.newTxn, expiresAt), now) == Completing(p, after, None)
    ensures WellFormed(after) && SameIdentity(p, after)
    ensures after.status == Authorized && after.holdId == d.newTxn && after.expiresAt == expiresAt
    ensures after.captureKey == p.captureKey && after.updatedAt == now
  {
    CleanStringsAreTrimmed();
    hide TrimSpace, Clean, WellFormed;
    after := MarkAuthorized(p, d.newTxn, expiresAt, now).value;
    AuthorizedOk(p, d.newTxn, expiresAt, now);
  }

  /** What the tables and the ledger become when an authorization succeeds. */
  lemma AuthorizeRan(cfg: Config, s: State, d: Draw, cmd: Command) returns (after: Payment, end: (Db, BankSide, Outcome))
    requires ValidConfig(cfg) && Inv(cfg, s) && Unused(s, d, cmd) && Inv(cfg, WithWorker(cfg, s, d, cmd))
    requires cmd.Authorize? && Approvable(s.ledger, cmd.card, cmd.amount, d.today) && s.now > NO_TIME
    requires s.bankNow + cfg.holdFor != NO_TIME
    ensures Asks(cfg, s, d, cmd).Ok?
    ensures end == Ran(s.db, SideOf(s), cfg.holdFor, cmd, Asks(cfg, s, d, cmd).value, Smoothly(s, d))
    ensures end.0.payments == s.db.payments[d.newId := after]
    ensures end.0.records.Keys == s.db.records.Keys + {RecordKey(AuthorizeOp, cmd.key)}
    ensures after.id == d.newId && after.amount == cmd.amount && after.status == Authorized && after.holdId == d.newTxn
    ensures after.captureKey == "" && after.orderId == cmd.orderId && after.customerId == cmd.customerId
    ensures end.2 == Success(ResultOf(after)) && after.updatedAt == s.now
    ensures var k := RecordKey(AuthorizeOp, cmd.key);
            && k in end.0.records && end.0.records[k].progress.Completed?
            && end.0.records[k].progress.result == CommandResult(ResultOf(after), None)
    ensures end.1.ledger.txns == s.ledger.txns[d.newTxn := Txn(cmd.card.number, HoldTxn, cmd.amount, "", ActiveTxn,
                                                              s.bankNow + cfg.holdFor)]
    ensures cmd.card.number in s.ledger.accounts && cmd.card.number in end.1.ledger.accounts
    ensures end.1.ledger.accounts[cmd.card.number].available
         == s.ledger.accounts[cmd.card.number].available - cmd.amount
  {
    hide Inv, ValidConfig, Accepted, Ran, RequestOf, Handle, Approvable, Clean, IsPaymentId, LedgerOk, Claim, WellFormed,
         SameIdentity, Decide, NewWorker, ReadReply, Unused, Drawn, Asks, SideOf, WithWorker, Smoothly;
    UnusedFacts(s, d, cmd);
    SideLedger(s);
    LedgerIsOk(cfg, s);
    ApprovedAtBank(s.ledger, s.bankNow, cfg.holdFor, cmd.card, cmd.amount, d);
    KnownAccount(s.ledger, cmd.card, cmd.amount, d.today);
    var p, db := StartClaimed(cfg, s, d, cmd);
    var r := Asks(cfg, s, d, cmd).value;
    var request := AuthorizeRequest(cmd.card.number, cmd.card.cvv, cmd.card.month, cmd.card.year, cmd.amount);
    var (l', reply) := Handle(s.ledger, s.bankNow, d.today, cfg.holdFor, request, d.newTxn);
    after := AuthorizedAfter(p, d, s.bankNow + cfg.holdFor, s.now);
    RanSucceeds(s, SideOf(s), cfg.holdFor, cmd, r, d, db, false, p, l', reply, after);
    end := Ran(s.db, SideOf(s), cfg.holdFor, cmd, r, Smoothly(s, d));
    IdentityFields(p, after);
  }

  lemma UnusedFacts(s: State, d: Draw, cmd: Command)
    requires Unused(s, d, cmd)
    ensures Drawn(s, d, cmd)
    ensures d.newTxn !in s.ledger.txns && Clean(d.newTxn) && Accepted(cmd) && d.worker !in s.workers
    ensures RecordKey(OpOf(cmd), cmd.key) !in s.db.records
  {
    hide Clean, Accepted, IsPaymentId;
  }

  lemma SideLedger(s: State)
    ensures SideOf(s).ledger == s.ledger
  {
  }

  lemma KnownAccount(l: Ledger, card: Card, amount: int, today: YearMonth)
    requires Approvable(l, card, amount, today)
    ensures card.number in l.accounts
  {
  }

  /**
   * From every state that runs, or timely runs, reach: an accepted authorization under an unused key, with a card that
   * the bank knows and funds that are there, can complete. The new row is authorized and names an open hold of its
   * amount, and nothing else in the payments table has changed.
   */
  lemma AuthorizeCanComplete(cfg: Config, timely: bool, s: State, d: Draw, cmd: Command) returns (s': State)
    requires ValidConfig(cfg) && CanReach(cfg, timely, s) && Unused(s, d, cmd) && (timely ==> 0 <= cfg.timeout)
    requires cmd.Authorize? && Approvable(s.ledger, cmd.card, cmd.amount, d.today)
    requires 0 <= cfg.holdFor && s.bankNow + cfg.holdFor != NO_TIME
    ensures Leads(cfg, timely, s, s') && CanReach(cfg, timely, s')
    ensures OpenHold(s', d.newId)
    ensures var row := s'.db.payments[d.newId];
            && s'.db.payments == s.db.payments[d.newId := row] && row.id == d.newId && row.amount == cmd.amount
            && row.orderId == cmd.orderId && row.customerId == cmd.customerId && row.updatedAt == s.now
            && row.holdId == d.newTxn && row.captureKey == "" && Told(s', d.worker, row) && s'.ledger.txns[d.newTxn].amount == cmd.amount
            && s'.ledger.txns == s.ledger.txns[d.newTxn := s'.ledger.txns[d.newTxn]]
    ensures var number := cmd.card.number;
            && number in s.ledger.accounts && number in s'.ledger.accounts
            && s'.ledger.accounts[number].available == s.ledger.accounts[number].available - cmd.amount
    ensures s'.workers.Keys == s.workers.Keys + {d.worker} && s'.now == s.now && s'.bankNow == s.bankNow
    ensures s'.issued == s.issued + {d.newId, d.newKey}
    ensures s'.db.records.Keys == s.db.records.Keys + {RecordKey(AuthorizeOp, cmd.key)}
  {
    hide Inv, ValidConfig, CanReach, Leads, Accepted, Enabled, Ran, RequestOf, Approvable, Clean, IsPaymentId, Punctual,
         Reads, NewWorker, Unused, Drawn, Asks, SideOf, WithWorker, Smoothly, Told;
    UnusedFacts(s, d, cmd);
    ArriveFirst(cfg, timely, s, d, cmd);
    var after, end := AuthorizeRan(cfg, s, d, cmd);
    s' := RunsSmoothly(cfg, timely, s, d, cmd);
    ToldThere(cfg, s, s', d, cmd, end, after);
    SideLedger(s');
  }

  // ---- Commands on existing payments ----

  /** What claiming a command on an existing payment does to the tables. */
  lemma ExistingClaimed(cfg: Config, s: State, d: Draw, cmd: Command) returns (p: Payment, db: Db)
    requires ValidConfig(cfg) && Inv(cfg, s) && Unused(s, d, cmd) && Inv(cfg, WithWorker(cfg, s, d, cmd))
    requires !cmd.Authorize? && s.now > NO_TIME
    requires var s1 := WithWorker(cfg, s, d, cmd); s1.workers[d.worker].cmd == cmd && Claimable(s1, d.worker)
    ensures Asks(cfg, s, d, cmd).Ok?
    ensures var r := Asks(cfg, s, d, cmd).value;
            && RequestKey(r) == RecordKey(OpOf(cmd), cmd.key) && RequestOp(r) == OpOf(cmd)
            && Claim(s.db, r) == (db, Claimed(p, false))
            && db == Db(s.db.payments[p.id := p],
                        s.db.records[RequestKey(r) := Record(r.fingerprint, p.id, InProgress, s.now)])
    ensures cmd.paymentId in s.db.payments && p.id == cmd.paymentId && WellFormed(p)
    ensures Behind(s.db.payments[cmd.paymentId], p) && p.status == s.db.payments[cmd.paymentId].status
    ensures p.status == ExpectedStatus(OpOf(cmd)) && KeyFor(OpOf(cmd), p) != "" && Agrees(BooksOf(s), p)
  {
    hide Inv, ValidConfig, Accepted, IsPaymentId, Clean, RequestText, CardText, RequestOf, Identified, WellFormed,
         TableChecks, NewWorker, Agrees, KeysPinned, NoKeyLost, PinNames, ClaimMatches, EnsureKey, Behind;
    var s1 := WithWorker(cfg, s, d, cmd);
    WorkerCmd(cfg, cmd, s.now);
    IdentifiedHere(cfg, s1, d.worker);
    RequestIsOk(cfg, s1.now, s1.workers[d.worker], s.now, d.newId, d.newKey);
    CardFingerprintPresent(cfg, s1.now, s1.workers[d.worker]);
    ExistingFacts(cfg, s1, d.worker, d.newKey);
    p := EnsureKey(OpOf(cmd), s.db.payments[cmd.paymentId], d.newKey).value;
    db := Claim(s.db, Asks(cfg, s, d, cmd).value).0;
  }

  /** A row of a payment whose command needs only its status. */
  lemma ByStatus(cfg: Config, s: State, d: Draw, cmd: Command)
    requires Accepted(cmd) && !cmd.Authorize? && !cmd.Retry?
    requires cmd.paymentId in s.db.payments && s.db.payments[cmd.paymentId].status == ExpectedStatus(OpOf(cmd))
    ensures var s1 := WithWorker(cfg, s, d, cmd); s1.workers[d.worker].cmd == cmd && Claimable(s1, d.worker)
  {
    hide Accepted, NewWorker;
    WorkerCmd(cfg, cmd, s.now);
  }

  // ---- Retrying ----

  /** A pending row that a retry with this card may take on. */
  predicate Retryable(cfg: Config, s: State, cmd: Command)
    requires cmd.Retry? && Accepted(cmd)
  {
    && cmd.paymentId in s.db.payments && s.db.payments[cmd.paymentId].status == Pending
    && s.db.payments[cmd.paymentId].cardFingerprint == cfg.mac(CardText(cmd.card))
  }

  lemma ByCard(cfg: Config, s: State, d: Draw, cmd: Command)
    requires Accepted(cmd) && cmd.Retry? && Retryable(cfg, s, cmd)
    ensures var s1 := WithWorker(cfg, s, d, cmd); s1.workers[d.worker].cmd == cmd && Claimable(s1, d.worker)
  {
    hide Accepted, RequestText, CardText;
  }

  lemma RetryDecides(p: Payment, answer: BankResult, now: Time)
    requires answer.Authorised?
    ensures Decide(RetryOp, p, answer, now) == Decide(AuthorizeOp, p, answer, now)
  {
    hide MarkAuthorized;
  }

  lemma BehindAmount(p: Payment, q: Payment)
    requires Behind(p, q)
    ensures q.amount == p.amount
  {
  }

  lemma RetryRan(cfg: Config, s: State, d: Draw, cmd: Command) returns (after: Payment, end: (Db, BankSide, Outcome))
    requires ValidConfig(cfg) && Inv(cfg, s) && Unused(s, d, cmd) && Inv(cfg, WithWorker(cfg, s, d, cmd))
    requires cmd.Retry? && Retryable(cfg, s, cmd) && s.now > NO_TIME && s.bankNow + cfg.holdFor != NO_TIME
    requires Approvable(s.ledger, cmd.card, s.db.payments[cmd.paymentId].amount, d.today)
    ensures Asks(cfg, s, d, cmd).Ok?
    ensures end == Ran(s.db, SideOf(s), cfg.holdFor, cmd, Asks(cfg, s, d, cmd).value, Smoothly(s, d))
    ensures end.0.payments == s.db.payments[cmd.paymentId := after]
    ensures forall k :: k in s.db.records ==> k in end.0.records && end.0.records[k] == s.db.records[k]
    ensures after.id == cmd.paymentId && after.status == Authorized && after.holdId == d.newTxn
    ensures end.2 == Success(ResultOf(after)) && after.updatedAt == s.now
    ensures var k := RecordKey(RetryOp, cmd.key);
            && k in end.0.records && end.0.records[k].progress.Completed?
            && end.0.records[k].progress.result == CommandResult(ResultOf(after), None)
  {
    hide Inv, ValidConfig, Accepted, Ran, RequestOf, Handle, Approvable, Clean, IsPaymentId, LedgerOk, Claim, WellFormed,
         Agrees, SameIdentity, Decide, NewWorker, ReadReply, Unused, Drawn, Asks, SideOf, WithWorker, Smoothly, Behind,
         Claimable, CardText;
    var row := s.db.payments[cmd.paymentId];
    UnusedFacts(s, d, cmd);
    SideLedger(s);
    LedgerIsOk(cfg, s);
    ApprovedAtBank(s.ledger, s.bankNow, cfg.holdFor, cmd.card, row.amount, d);
    ByCard(cfg, s, d, cmd);
    var p, db := ExistingClaimed(cfg, s, d, cmd);
    BehindAmount(row, p);
    var r := Asks(cfg, s, d, cmd).value;
    var request := AuthorizeRequest(cmd.card.number, cmd.card.cvv, cmd.card.month, cmd.card.year, row.amount);
    var (l', reply) := Handle(s.ledger, s.bankNow, d.today, cfg.holdFor, request, d.newTxn);
    after := AuthorizedAfter(p, d, s.bankNow + cfg.holdFor, s.now);
    RetryDecides(p, Authorised(d.newTxn, s.bankNow + cfg.holdFor), s.now);
    RanSucceeds(s, SideOf(s), cfg.holdFor, cmd, r, d, db, false, p, l', reply, after);
    end := Ran(s.db, SideOf(s), cfg.holdFor, cmd, r, Smoothly(s, d));
    IdentityFields(p, after);
  }

  /** A pending payment can be authorized by a retry with its card, under any unused key, whoever else works on it. */
  lemma RetryCanComplete(cfg: Config, timely: bool, s: State, d: Draw, cmd: Command) returns (s': State)
    requires ValidConfig(cfg) && CanReach(cfg, timely, s) && Unused(s, d, cmd) && (timely ==> 0 <= cfg.timeout)
    requires cmd.Retry? && Retryable(cfg, s, cmd) && s.bankNow + cfg.holdFor != NO_TIME
    requires Approvable(s.ledger, cmd.card, s.db.payments[cmd.paymentId].amount, d.today)
    ensures Leads(cfg, timely, s, s') && CanReach(cfg, timely, s') && cmd.paymentId in s'.db.payments
    ensures var row := s'.db.payments[cmd.paymentId];
            && s'.db.payments == s.db.payments[cmd.paymentId := row]
            && row.status == Authorized && row.holdId == d.newTxn && row.updatedAt == s.now && Told(s', d.worker, row)
    ensures forall k :: k in s.db.records ==> k in s'.db.records && s'.db.records[k] == s.db.records[k]
    ensures forall w :: w in s.workers ==> w in s'.workers && s'.workers[w] == s.workers[w]
    ensures s'.now == s.now
  {
    hide Inv, ValidConfig, CanReach, Leads, Accepted, Enabled, Ran, RequestOf, Approvable, Clean, IsPaymentId, Punctual,
         Reads, NewWorker, Unused, Drawn, Asks, SideOf, WithWorker, Smoothly, CardText, Told;
    UnusedFacts(s, d, cmd);
    ArriveFirst(cfg, timely, s, d, cmd);
    var after, end := RetryRan(cfg, s, d, cmd);
    s' := RunsSmoothly(cfg, timely, s, d, cmd);
    ToldThere(cfg, s, s', d, cmd, end, after);
  }

  // ---- Capturing ----

  /** An open hold can be captured, and that takes its amount off the balance. */
  lemma OpenHoldCaptures(l: Ledger, now: Time, holdFor: int, h: string, amount: int, d: Draw)
    requires LedgerOk(l) && h in l.txns && l.txns[h].kind == HoldTxn && l.txns[h].status == ActiveTxn
    requires l.txns[h].amount == amount && now <= l.txns[h].expiresAt && d.newTxn !in l.txns
    ensures var (l', reply) := Handle(l, now, d.today, holdFor, CaptureRequest(h, amount), d.newTxn);
            var account := l.txns[h].account;
            && reply == CaptureMade(d.newTxn) && account in l.accounts && account in l'.accounts
            && l'.accounts[account].balance == l.accounts[account].balance - amount
            && d.newTxn in l'.txns && l'.txns.Keys == l.txns.Keys + {d.newTxn}
            && l'.txns[d.newTxn] == Txn(account, CaptureTxn, amount, h, CompletedTxn, NO_TIME)
            && Ref(h, CaptureTxn) in l'.index
            && (Ref(d.newTxn, RefundTxn) !in l.index ==> Ref(d.newTxn, RefundTxn) !in l'.index)
  {
    assert TxnOk(l, h);
    hide LedgerOk;
  }

  lemma CapturedWith(p: Payment, captureId: string, now: Time) returns (after: Payment)
    requires WellFormed(p) && p.status == Authorized && p.captureKey != "" && Clean(captureId) && now != NO_TIME
    ensures ReadReply(BankCapture, CaptureMade(captureId)) == CaptureDone(captureId)
    ensures Decide(CaptureOp, p, CaptureDone(captureId), now) == Completing(p, after, None)
    ensures WellFormed(after) && SameIdentity(p, after) && after.status == Captured && after.captureId == captureId
    ensures after.updatedAt == now
  {
    CleanStringsAreTrimmed();
    hide TrimSpace, Clean, WellFormed;
    after := MarkCaptured(p, captureId, now).value;
    CapturedOk(p, captureId, now);
  }

  lemma HoldOfRow(cfg: Config, s: State, id: string)
    requires Inv(cfg, s) && OpenHold(s, id)
    ensures var row := s.db.payments[id];
            && s.ledger.txns[row.holdId].kind == HoldTxn && s.ledger.txns[row.holdId].amount == row.amount
            && s.ledger.txns[row.holdId].status == ActiveTxn && s.bankNow <= s.ledger.txns[row.holdId].expiresAt
  {
    hide Inv;
    RowAgrees(cfg, s, id);
  }

  lemma BehindHold(p: Payment, q: Payment)
    requires Behind(p, q) && HasHold(p.status)
    ensures q.holdId == p.holdId && q.amount == p.amount && q.id == p.id
  {
  }

  lemma CaptureRan(cfg: Config, s: State, d: Draw, cmd: Command) returns (after: Payment, end: (Db, BankSide, Outcome))
    requires ValidConfig(cfg) && Inv(cfg, s) && Unused(s, d, cmd) && Inv(cfg, WithWorker(cfg, s, d, cmd))
    requires cmd.Capture? && OpenHold(s, cmd.paymentId) && s.now > NO_TIME
    ensures Asks(cfg, s, d, cmd).Ok?
    ensures end == Ran(s.db, SideOf(s), cfg.holdFor, cmd, Asks(cfg, s, d, cmd).value, Smoothly(s, d))
    ensures end.0.payments == s.db.payments[cmd.paymentId := after]
    ensures end.0.records.Keys == s.db.records.Keys + {RecordKey(CaptureOp, cmd.key)}
    ensures after.id == cmd.paymentId && after.status == Captured && after.captureId == d.newTxn
    ensures end.2 == Success(ResultOf(after)) && after.updatedAt == s.now
    ensures var k := RecordKey(CaptureOp, cmd.key);
            && k in end.0.records && end.0.records[k].progress.Completed?
            && end.0.records[k].progress.result == CommandResult(ResultOf(after), None)
    ensures end.1.ledger == Handle(s.ledger, s.bankNow, d.today, cfg.holdFor,
                                   CaptureRequest(s.db.payments[cmd.paymentId].holdId, s.db.payments[cmd.paymentId].amount),
                                   d.newTxn).0
  {
    hide Inv, ValidConfig, Accepted, Ran, RequestOf, Handle, Clean, IsPaymentId, LedgerOk, Claim, WellFormed, Agrees,
         SameIdentity, Decide, NewWorker, ReadReply, Unused, Drawn, Asks, SideOf, WithWorker, Smoothly, Behind, Claimable;
    var row := s.db.payments[cmd.paymentId];
    UnusedFacts(s, d, cmd);
    SideLedger(s);
    LedgerIsOk(cfg, s);
    HoldOfRow(cfg, s, cmd.paymentId);
    OpenHoldCaptures(s.ledger, s.bankNow, cfg.holdFor, row.holdId, row.amount, d);
    ByStatus(cfg, s, d, cmd);
    var p, db := ExistingClaimed(cfg, s, d, cmd);
    BehindHold(row, p);
    var r := Asks(cfg, s, d, cmd).value;
    var (l', reply) := Handle(s.ledger, s.bankNow, d.today, cfg.holdFor, CaptureRequest(row.holdId, row.amount), d.newTxn);
    after := CapturedWith(p, d.newTxn, s.now);
    RanSucceeds(s, SideOf(s), cfg.holdFor, cmd, r, d, db, false, p, l', reply, after);
    end := Ran(s.db, SideOf(s), cfg.holdFor, cmd, r, Smoothly(s, d));
    IdentityFields(p, after);
  }

  /** A captured row whose capture has not been refunded at the bank. */
  predicate Refundable(s: State, id: string) {
    && id in s.db.payments && s.db.payments[id].status == Captured
    && Ref(s.db.payments[id].captureId, RefundTxn) !in s.ledger.index
  }

  /**
   * From every state that runs, or timely runs, reach, whatever other workers, claims and calls are under way: an
   * authorized payment whose hold is open can be captured under any unused key, and that takes exactly its amount off
   * the account. The captured row can then be refunded.
   */
  lemma CaptureCanComplete(cfg: Config, timely: bool, s: State, d: Draw, cmd: Command) returns (s': State)
    requires ValidConfig(cfg) && CanReach(cfg, timely, s) && Unused(s, d, cmd) && (timely ==> 0 <= cfg.timeout)
    requires cmd.Capture? && OpenHold(s, cmd.paymentId)
    ensures Leads(cfg, timely, s, s') && CanReach(cfg, timely, s') && Refundable(s', cmd.paymentId)
    ensures var row := s'.db.payments[cmd.paymentId];
            && s'.db.payments == s.db.payments[cmd.paymentId := row]
            && row.status == Captured && row.captureId == d.newTxn && row.updatedAt == s.now && Told(s', d.worker, row)
    ensures var hold := s.ledger.txns[s.db.payments[cmd.paymentId].holdId];
            && hold.account in s.ledger.accounts && hold.account in s'.ledger.accounts
            && s'.ledger.accounts[hold.account].balance == s.ledger.accounts[hold.account].balance - hold.amount
    ensures s'.workers.Keys == s.workers.Keys + {d.worker} && s'.ledger.txns.Keys == s.ledger.txns.Keys + {d.newTxn}
    ensures s'.db.records.Keys == s.db.records.Keys + {RecordKey(CaptureOp, cmd.key)}
    ensures s'.issued == s.issued + {d.newId, d.newKey} && s'.now == s.now && s'.bankNow == s.bankNow
  {
    hide Inv, ValidConfig, CanReach, Leads, Accepted, Enabled, Ran, RequestOf, Handle, LedgerOk, Clean, IsPaymentId,
         Punctual, Reads, NewWorker, Unused, Drawn, Asks, SideOf, WithWorker, Smoothly, Told;
    UnusedFacts(s, d, cmd);
    ArriveFirst(cfg, timely, s, d, cmd);
    var row := s.db.payments[cmd.paymentId];
    LedgerIsOk(cfg, s);
    NothingRefers(s.ledger, d.newTxn);
    HoldOfRow(cfg, s, cmd.paymentId);
    OpenHoldCaptures(s.ledger, s.bankNow, cfg.holdFor, row.holdId, row.amount, d);
    var after, end := CaptureRan(cfg, s, d, cmd);
    s' := RunsSmoothly(cfg, timely, s, d, cmd);
    ToldThere(cfg, s, s', d, cmd, end, after);
    SideLedger(s');
  }

  lemma NothingRefers(l: Ledger, id: string)
    requires LedgerOk(l) && id !in l.txns
    ensures Ref(id, RefundTxn) !in l.index
  {
    NoDangling(l, id, RefundTxn);
  }

  // ---- Voiding ----

  /** A hold that nobody has used can be voided, expired or not, and that makes its amount available again. */
  lemma OpenHoldVoids(l: Ledger, now: Time, holdFor: int, h: string, d: Draw)
    requires LedgerOk(l) && h in l.txns && l.txns[h].kind == HoldTxn && l.txns[h].status == ActiveTxn && d.newTxn !in l.txns
    ensures var (l', reply) := Handle(l, now, d.today, holdFor, VoidRequest(h), d.newTxn);
            var account := l.txns[h].account;
            && reply == VoidMade(d.newTxn) && account in l.accounts && account in l'.accounts
            && l'.accounts[account].available == l.accounts[account].available + l.txns[h].amount
            && l'.accounts[account].balance == l.accounts[account].balance
            && (forall a :: a in l.accounts && a != account ==> a in l'.accounts && l'.accounts[a] == l.accounts[a])
            && l'.txns.Keys == l.txns.Keys + {d.newTxn} && Ref(h, VoidTxn) in l'.index
  {
    assert TxnOk(l, h);
    hide LedgerOk;
  }

  lemma VoidedWith(p: Payment, voidId: string, now: Time) returns (after: Payment)
    requires WellFormed(p) && p.status == Authorized && p.voidKey != "" && Clean(voidId) && now != NO_TIME
    ensures ReadReply(BankVoid, VoidMade(voidId)) == VoidDone(voidId)
    ensures Decide(VoidOp, p, VoidDone(voidId), now) == Completing(p, after, None)
    ensures WellFormed(after) && SameIdentity(p, after) && after.status == Voided && after.voidId == voidId
    ensures after.updatedAt == now
  {
    CleanStringsAreTrimmed();
    hide TrimSpace, Clean, WellFormed;
    after := MarkVoided(p, voidId, now).value;
    VoidedOk(p, voidId, now);
  }

  /** An authorized row whose hold nobody has used at the bank. */
  predicate UnusedHold(s: State, id: string) {
    && id in s.db.payments && s.db.payments[id].status == Authorized
    && var h := s.db.payments[id].holdId; h in s.ledger.txns && s.ledger.txns[h].status == ActiveTxn
  }

  lemma UnusedHoldOfRow(cfg: Config, s: State, id: string)
    requires UnusedHold(s, id) && Inv(cfg, s)
    ensures var row := s.db.payments[id];
            && row.holdId in s.ledger.txns && s.ledger.txns[row.holdId].kind == HoldTxn
            && s.ledger.txns[row.holdId].amount == row.amount && s.ledger.txns[row.holdId].status == ActiveTxn
  {
    hide Inv;
    RowAgrees(cfg, s, id);
  }

  lemma VoidRan(cfg: Config, s: State, d: Draw, cmd: Command) returns (after: Payment, end: (Db, BankSide, Outcome))
    requires ValidConfig(cfg) && Inv(cfg, s) && Unused(s, d, cmd) && Inv(cfg, WithWorker(cfg, s, d, cmd))
    requires cmd.Void? && UnusedHold(s, cmd.paymentId) && s.now > NO_TIME
    ensures Asks(cfg, s, d, cmd).Ok?
    ensures end == Ran(s.db, SideOf(s), cfg.holdFor, cmd, Asks(cfg, s, d, cmd).value, Smoothly(s, d))
    ensures end.0.payments == s.db.payments[cmd.paymentId := after]
    ensures after.id == cmd.paymentId && after.status == Voided && after.voidId == d.newTxn
    ensures end.2 == Success(ResultOf(after)) && after.updatedAt == s.now
    ensures var k := RecordKey(VoidOp, cmd.key);
            && k in end.0.records && end.0.records[k].progress.Completed?
            && end.0.records[k].progress.result == CommandResult(ResultOf(after), None)
    ensures end.1.ledger
         == Handle(s.ledger, s.bankNow, d.today, cfg.holdFor, VoidRequest(s.db.payments[cmd.paymentId].holdId), d.newTxn).0
  {
    hide Inv, ValidConfig, Accepted, Ran, RequestOf, Handle, Clean, IsPaymentId, LedgerOk, Claim, WellFormed, Agrees,
         SameIdentity, Decide, NewWorker, ReadReply, Unused, Drawn, Asks, SideOf, WithWorker, Smoothly, Behind, Claimable;
    var row := s.db.payments[cmd.paymentId];
    UnusedFacts(s, d, cmd);
    SideLedger(s);
    LedgerIsOk(cfg, s);
    UnusedHoldOfRow(cfg, s, cmd.paymentId);
    OpenHoldVoids(s.ledger, s.bankNow, cfg.holdFor, row.holdId, d);
    ByStatus(cfg, s, d, cmd);
    var p, db := ExistingClaimed(cfg, s, d, cmd);
    BehindHold(row, p);
    var r := Asks(cfg, s, d, cmd).value;
    var (l', reply) := Handle(s.ledger, s.bankNow, d.today, cfg.holdFor, VoidRequest(row.holdId), d.newTxn);
    after := VoidedWith(p, d.newTxn, s.now);
    RanSucceeds(s, SideOf(s), cfg.holdFor, cmd, r, d, db, false, p, l', reply, after);
    end := Ran(s.db, SideOf(s), cfg.holdFor, cmd, r, Smoothly(s, d));
    IdentityFields(p, after);
  }

  /**
   * The same for a void: an authorized payment whose hold nobody has used, expired or not, can be voided under any unused
   * key, and that makes exactly its amount available again and moves no balance.
   */
  lemma VoidCanComplete(cfg: Config, timely: bool, s: State, d: Draw, cmd: Command) returns (s': State)
    requires ValidConfig(cfg) && CanReach(cfg, timely, s) && Unused(s, d, cmd) && (timely ==> 0 <= cfg.timeout)
    requires cmd.Void? && UnusedHold(s, cmd.paymentId)
    ensures Leads(cfg, timely, s, s') && CanReach(cfg, timely, s') && cmd.paymentId in s'.db.payments
    ensures var row := s'.db.payments[cmd.paymentId];
            && s'.db.payments == s.db.payments[cmd.paymentId := row]
            && row.status == Voided && row.voidId == d.newTxn && row.updatedAt == s.now && Told(s', d.worker, row)
    ensures var hold := s.ledger.txns[s.db.payments[cmd.paymentId].holdId];
            && hold.account in s.ledger.accounts && hold.account in s'.ledger.accounts
            && s'.ledger.accounts[hold.account].available == s.ledger.accounts[hold.account].available + hold.amount
            && s'.ledger.accounts[hold.account].balance == s.ledger.accounts[hold.account].balance
  {
    hide Inv, ValidConfig, CanReach, Leads, Accepted, Enabled, Ran, RequestOf, Handle, LedgerOk, Clean, IsPaymentId,
         Punctual, Reads, NewWorker, Unused, Drawn, Asks, SideOf, WithWorker, Smoothly, Told;
    UnusedFacts(s, d, cmd);
    ArriveFirst(cfg, timely, s, d, cmd);
    LedgerIsOk(cfg, s);
    UnusedHoldOfRow(cfg, s, cmd.paymentId);
    OpenHoldVoids(s.ledger, s.bankNow, cfg.holdFor, s.db.payments[cmd.paymentId].holdId, d);
    var after, end := VoidRan(cfg, s, d, cmd);
    s' := RunsSmoothly(cfg, timely, s, d, cmd);
    ToldThere(cfg, s, s', d, cmd, end, after);
    SideLedger(s');
  }

  // ---- Refunding ----

  lemma CaptureRefunds(l: Ledger, now: Time, holdFor: int, c: string, amount: int, d: Draw)
    requires LedgerOk(l) && c in l.txns && l.txns[c].kind == CaptureTxn && l.txns[c].amount == amount
    requires Ref(c, RefundTxn) !in l.index && d.newTxn !in l.txns
    ensures var (l', reply) := Handle(l, now, d.today, holdFor, RefundRequest(c, amount), d.newTxn);
            var account := l.txns[c].account;
            && reply == RefundMade(d.newTxn) && account in l.accounts && account in l'.accounts
            && l'.accounts[account].balance == l.accounts[account].balance + amount
            && l'.txns.Keys == l.txns.Keys + {d.newTxn}
  {
    assert TxnOk(l, c);
    hide LedgerOk;
  }

  lemma RefundedAfter(p: Payment, d: Draw, now: Time) returns (after: Payment)
    requires WellFormed(p) && p.status == Captured && p.refundKey != "" && Clean(d.newTxn) && now != NO_TIME
    ensures ReadReply(BankRefund, RefundMade(d.newTxn)) == RefundDone(d.newTxn)
    ensures Decide(RefundOp, p, RefundDone(d.newTxn), now) == Completing(p, after, None)
    ensures WellFormed(after) && SameIdentity(p, after) && after.status == Refunded && after.refundId == d.newTxn
    ensures after.updatedAt == now
  {
    CleanStringsAreTrimmed();
    hide TrimSpace, Clean, WellFormed;
    after := MarkRefunded(p, d.newTxn, now).value;
    RefundedOk(p, d.newTxn, now);
  }

  lemma CaptureOfRow(cfg: Config, s: State, id: string)
    requires Inv(cfg, s) && id in s.db.payments && s.db.payments[id].status == Captured
    ensures var row := s.db.payments[id];
            && row.captureId in s.ledger.txns && s.ledger.txns[row.captureId].kind == CaptureTxn
            && s.ledger.txns[row.captureId].amount == row.amount
  {
    hide Inv;
    RowAgrees(cfg, s, id);
  }

  lemma BehindCapture(p: Payment, q: Payment)
    requires Behind(p, q) && HasCapture(p.status)
    ensures q.captureId == p.captureId && q.amount == p.amount && q.id == p.id
  {
  }

  lemma RefundRan(cfg: Config, s: State, d: Draw, cmd: Command) returns (after: Payment, end: (Db, BankSide, Outcome))
    requires ValidConfig(cfg) && Inv(cfg, s) && Unused(s, d, cmd) && Inv(cfg, WithWorker(cfg, s, d, cmd))
    requires cmd.Refund? && Refundable(s, cmd.paymentId) && s.now > NO_TIME
    ensures Asks(cfg, s, d, cmd).Ok?
    ensures end == Ran(s.db, SideOf(s), cfg.holdFor, cmd, Asks(cfg, s, d, cmd).value, Smoothly(s, d))
    ensures end.0.payments == s.db.payments[cmd.paymentId := after]
    ensures after.id == cmd.paymentId && after.status == Refunded && after.refundId == d.newTxn
    ensures end.2 == Success(ResultOf(after)) && after.updatedAt == s.now
    ensures var k := RecordKey(RefundOp, cmd.key);
            && k in end.0.records && end.0.records[k].progress.Completed?
            && end.0.records[k].progress.result == CommandResult(ResultOf(after), None)
    ensures end.1.ledger == Handle(s.ledger, s.bankNow, d.today, cfg.holdFor,
                                   RefundRequest(s.db.payments[cmd.paymentId].captureId,
                                                 s.db.payments[cmd.paymentId].amount), d.newTxn).0
  {
    hide Inv, ValidConfig, Accepted, Ran, RequestOf, Handle, Clean, IsPaymentId, LedgerOk, Claim, WellFormed, Agrees,
         SameIdentity, Decide, NewWorker, ReadReply, Unused, Drawn, Asks, SideOf, WithWorker, Smoothly, Behind, Claimable;
    var row := s.db.payments[cmd.paymentId];
    UnusedFacts(s, d, cmd);
    SideLedger(s);
    LedgerIsOk(cfg, s);
    CaptureOfRow(cfg, s, cmd.paymentId);
    CaptureRefunds(s.ledger, s.bankNow, cfg.holdFor, row.captureId, row.amount, d);
    ByStatus(cfg, s, d, cmd);
    var p, db := ExistingClaimed(cfg, s, d, cmd);
    BehindCapture(row, p);
    var r := Asks(cfg, s, d, cmd).value;
    var (l', reply) := Handle(s.ledger, s.bankNow, d.today, cfg.holdFor, RefundRequest(row.captureId, row.amount), d.newTxn);
    after := RefundedAfter(p, d, s.now);
    RanSucceeds(s, SideOf(s), cfg.holdFor, cmd, r, d, db, false, p, l', reply, after);
    end := Ran(s.db, SideOf(s), cfg.holdFor, cmd, r, Smoothly(s, d));
    IdentityFields(p, after);
  }

  /** The same for a refund of a captured payment, which returns exactly its amount. */
  lemma RefundCanComplete(cfg: Config, timely: bool, s: State, d: Draw, cmd: Command) returns (s': State)
    requires ValidConfig(cfg) && CanReach(cfg, timely, s) && Unused(s, d, cmd) && (timely ==> 0 <= cfg.timeout)
    requires cmd.Refund? && Refundable(s, cmd.paymentId)
    ensures Leads(cfg, timely, s, s') && CanReach(cfg, timely, s') && cmd.paymentId in s'.db.payments
    ensures var row := s'.db.payments[cmd.paymentId];
            && s'.db.payments == s.db.payments[cmd.paymentId := row]
            && row.status == Refunded && row.refundId == d.newTxn && row.updatedAt == s.now && Told(s', d.worker, row)
    ensures s.db.payments[cmd.paymentId].captureId in s.ledger.txns
    ensures var capture := s.ledger.txns[s.db.payments[cmd.paymentId].captureId];
            && capture.account in s.ledger.accounts && capture.account in s'.ledger.accounts
            && s'.ledger.accounts[capture.account].balance == s.ledger.accounts[capture.account].balance + capture.amount
  {
    hide Inv, ValidConfig, CanReach, Leads, Accepted, Enabled, Ran, RequestOf, Handle, LedgerOk, Clean, IsPaymentId,
         Punctual, Reads, NewWorker, Unused, Drawn, Asks, SideOf, WithWorker, Smoothly, Told;
    UnusedFacts(s, d, cmd);
    ArriveFirst(cfg, timely, s, d, cmd);
    var row := s.db.payments[cmd.paymentId];
    LedgerIsOk(cfg, s);
    CaptureOfRow(cfg, s, cmd.paymentId);
    CaptureRefunds(s.ledger, s.bankNow, cfg.holdFor, row.captureId, row.amount, d);
    var after, end := RefundRan(cfg, s, d, cmd);
    s' := RunsSmoothly(cfg, timely, s, d, cmd);
    ToldThere(cfg, s, s', d, cmd, end, after);
    SideLedger(s');
  }

  lemma IdentityFields(p: Payment, q: Payment)
    requires SameIdentity(p, q)
    ensures q.id == p.id && q.amount == p.amount && q.authKey == p.authKey && q.cardFingerprint == p.cardFingerprint
    ensures q.orderId == p.orderId && q.customerId == p.customerId && q.currency == p.currency && q.createdAt == p.createdAt
  {
  }
}
