/**
 * Why claims must outlast commands: when a claim can be taken over while its worker is still within its deadline, timely
 * runs break every lease property; and when workers ignore their deadlines, runs of every configuration do.
 */
module Crossings {
  import opened Text
  import opened Domain
  import opened Errors
  import opened Commands
  import opened Store
  import opened Bank
  import opened Client
  import opened Protocol
  import opened Invariants
  import opened ClaimSteps
  import opened Safety
  import opened History
  import opened Leases
  import opened Paths
  import opened Deliveries
  import opened CommandPaths
  import opened Progress
  import opened Witnesses

  // ---- One authorization, made three times ----

  /** Twelve digits: enough for the gateway, too few for the bank. */
  const SHORT_CARD := Card("000000000000", "000", 1, 1)

  const TODAY := YearMonth(1, 1)

  function Request(): Command {
    FirstCommand(SHORT_CARD, 1)
  }

  const KEY := RecordKey(AuthorizeOp, "k")

  lemma RequestAccepted()
    ensures Accepted(Request()) && Request().Authorize? && Request().key == "k" && Request().amount == 1
    ensures Request().card == SHORT_CARD
  {
    FirstCommandAccepted(SHORT_CARD, 1);
  }

  lemma {:induction false} NoMoreDigits(s: string)
    ensures |Luhn.Digits(s)| <= |s|
  {
  }

  lemma ShortCardRefused(l: Ledger, now: Time, holdFor: int, newTxn: string)
    ensures var request := AuthorizeRequest(SHORT_CARD.number, SHORT_CARD.cvv, SHORT_CARD.month, SHORT_CARD.year, 1);
            Handle(l, now, TODAY, holdFor, request, newTxn) == (l, Refused(InvalidCardCode))
  {
    NoMoreDigits(SHORT_CARD.number);
    hide Luhn.Digits, Luhn.LuhnSum;
  }

  function First(): Draw { DrawOf(0, '1', 'a', 't', TODAY) }
  function Second(): Draw { DrawOf(1, '2', 'b', 'u', TODAY) }
  function Third(): Draw { DrawOf(2, '3', 'c', 'v', TODAY) }

  function WorkerOf(cfg: Config, now: Time): Worker {
    RequestAccepted();
    NewWorker(cfg, Request(), now)
  }

  // ---- The first worker stalls ----

  /** The first worker has claimed the key for `p` and waits for the bank; nothing else has happened. */
  predicate Stalled(cfg: Config, s: State, p: Payment, c: nat) {
    && s.workers == map[0 := WorkerOf(cfg, 1).(phase := Awaiting(p, 1, c))]
    && s.db == Db(map[p.id := p], map[KEY := Record(WorkerOf(cfg, 1).fingerprint, p.id, InProgress, 1)])
    && p.id == IdOf('1') && WellFormed(p) && p.status == Pending && p.amount == 1
    && s.ledger == OpenBank(cfg) && s.issued == {IdOf('1'), NameOf('a')}
  }

  lemma FirstDraw(cfg: Config)
    ensures Unused(FirstState(cfg), First(), Request())
  {
    hide Accepted, IdOf, NameOf, Unused;
    LettersAreVisible();
    RequestAccepted();
    Draws(FirstState(cfg), 0, '1', 'a', 't', TODAY, Request());
  }

  lemma Stalls(cfg: Config, timely: bool) returns (s: State, p: Payment, c: nat)
    requires ValidConfig(cfg) && (timely ==> 0 <= cfg.timeout)
    ensures CanReach(cfg, timely, s) && Stalled(cfg, s, p, c) && s.now == 1
  {
    hide ValidConfig, CanReach, Leads, Accepted, IdOf, NameOf, Unused, Drawn, Inv, Enabled, RequestOf, Claim, WellFormed,
         NewWorker, Punctual, Reads, Request, Asks;
    var s0, d, cmd := FirstState(cfg), First(), Request();
    FirstStateReached(cfg, timely);
    FirstDraw(cfg);
    UnusedFacts(s0, d, cmd);
    RequestAccepted();
    ArriveFirst(cfg, timely, s0, d, cmd);
    var db;
    p, db := StartClaimed(cfg, s0, d, cmd);
    var s1 := WithWorker(cfg, s0, d, cmd);
    AsksIsRequest(cfg, s0, d, cmd);
    ClaimHop(cfg, timely, s1, 0, 1, d.newId, d.newKey);
    var s2 := Claiming(cfg, s1, 0, 1, d.newId, d.newKey);
    var spot := Spot(Calling(p, 0), db, SideOf(s1), s1.bankNow, s1.issued + {d.newId, d.newKey});
    SendHop(cfg, timely, s2, s1, 0, spot);
    c := |s2.calls|;
    s := Sending(s2, 0);
    StalledThere(cfg, timely, s, s1, spot, c, p);
    Join(cfg, timely, s0, s1, s);
    Reach(cfg, timely, s0, s);
  }

  lemma StalledThere(cfg: Config, timely: bool, s: State, s1: State, spot: Spot, c: nat, p: Payment)
    requires Accepted(Request()) && s1 == WithWorker(cfg, FirstState(cfg), First(), Request())
    requires Got(cfg, timely, s, s1, 0, spot.(phase := Awaiting(p, 1, c)))
    requires spot.issued == s1.issued + {IdOf('1'), NameOf('a')} && spot.side == SideOf(s1)
    requires p.id == IdOf('1') && WellFormed(p) && p.status == Pending && p.amount == 1
    requires spot.db == Db(map[p.id := p], map[KEY := Record(WorkerOf(cfg, 1).fingerprint, p.id, InProgress, 1)])
    ensures Leads(cfg, timely, s1, s) && Stalled(cfg, s, p, c) && s.now == 1
  {
    hide Leads, Accepted, WellFormed, NewWorker, IdOf, NameOf, Request;
  }

  // ---- Time passes until the claim is stuck ----

  function Later(cfg: Config): Time {
    1 + (if cfg.stuckAfter > 0 then cfg.stuckAfter else 0)
  }

  /** The first worker is still within its deadline then. */
  predicate Overlaps(cfg: Config) {
    0 <= cfg.timeout && cfg.stuckAfter <= cfg.timeout
  }

  lemma Waits(cfg: Config, timely: bool) returns (s: State, p: Payment, c: nat)
    requires ValidConfig(cfg) && (timely ==> 0 <= cfg.timeout)
    ensures CanReach(cfg, timely, s) && Stalled(cfg, s, p, c) && s.now == Later(cfg)
  {
    hide ValidConfig, CanReach, Leads, Stalled;
    var s1;
    s1, p, c := Stalls(cfg, timely);
    Stay(cfg, timely, s1);
    Then(cfg, timely, s1, s1, Tick(Later(cfg)));
    s := s1.(now := Later(cfg));
    StillStalled(cfg, s1, s, p, c);
    Reach(cfg, timely, s1, s);
  }

  lemma StillStalled(cfg: Config, s: State, s': State, p: Payment, c: nat)
    requires Stalled(cfg, s, p, c) && s' == s.(now := s'.now)
    ensures Stalled(cfg, s', p, c)
  {
    hide WellFormed, NewWorker, IdOf, NameOf, Request;
  }

  lemma SecondDraw(cfg: Config, s: State, p: Payment, c: nat)
    requires Stalled(cfg, s, p, c)
    ensures Drawn(s, Second(), Request())
  {
    hide WellFormed, NewWorker, IdOf, NameOf, Request, Accepted, IsPaymentId, Clean;
    LettersAreVisible();
    NamesDiffer();
    RequestAccepted();
    IdIsOk('2');
    NameIsOk('b');
    NameIsOk('u');
  }

  // ---- A second worker takes over: two live holders ----

  /** What the second worker's claim does. */
  lemma TakesOver(cfg: Config, s: State, p: Payment, c: nat)
    requires ValidConfig(cfg) && Inv(cfg, s) && Stalled(cfg, s, p, c) && s.now == Later(cfg)
    requires Accepted(Request()) && Inv(cfg, WithWorker(cfg, s, Second(), Request()))
    ensures Asks(cfg, s, Second(), Request()).Ok?
    ensures var r := Asks(cfg, s, Second(), Request()).value;
            && RequestKey(r) == KEY && RequestOp(r) == AuthorizeOp && r.fingerprint == WorkerOf(cfg, 1).fingerprint
            && Claim(s.db, r) == (s.db.(records := map[KEY := s.db.records[KEY].(claimedAt := s.now)]), Claimed(p, true))
  {
    hide ValidConfig, Inv, Accepted, WellFormed, NewWorker, IdOf, NameOf, Request, IsPaymentId, Clean, RequestOf, Identified;
    var s1 := WithWorker(cfg, s, Second(), Request());
    RequestAccepted();
    SecondDraw(cfg, s, p, c);
    WorkerCmd(cfg, Request(), s.now);
    SamePrint(cfg, s.now);
    IdentifiedHere(cfg, s1, 1);
    StagesMatch(cfg, s);
    DrawnNames(s);
    RequestIsOk(cfg, s1.now, s1.workers[1], s.now, Second().newId, Second().newKey);
    var rec := s.db.records[KEY].(claimedAt := s.now);
    assert s.db.records[KEY := rec] == map[KEY := rec];
  }

  lemma DrawnNames(s: State)
    requires Drawn(s, Second(), Request())
    ensures IsPaymentId(Second().newId) && Clean(Second().newKey)
  {
    hide IsPaymentId, Clean, Accepted, IdOf, NameOf, Request;
  }

  /** Whenever it is made, the same request has the same fingerprint. */
  lemma SamePrint(cfg: Config, now: Time)
    ensures WorkerOf(cfg, now).fingerprint == WorkerOf(cfg, 1).fingerprint && KeyOf(WorkerOf(cfg, now)) == KEY
    ensures WorkerOf(cfg, now).start == now && WorkerOf(cfg, now).cmd == Request()
  {
    hide Accepted, RequestText, CardText;
    RequestAccepted();
  }

  /** A worker that holds a claim and is within its deadline. */
  predicate LiveHolder(cfg: Config, s: State, w: nat) {
    w in s.workers && Holds(s.workers[w]) && InTime(cfg.timeout, s.now, s.workers[w])
  }

  lemma TwoHolders(cfg: Config) returns (s: State)
    requires ValidConfig(cfg) && Overlaps(cfg)
    ensures TimelyReachable(cfg, s) && LiveHolder(cfg, s, 0) && LiveHolder(cfg, s, 1)
    ensures KeyOf(s.workers[0]) == KeyOf(s.workers[1])
  {
    hide ValidConfig, TimelyReachable, Leads, Stalled, Inv, Enabled, Drawn, Asks, Punctual, Reads, Claim, RequestOf, Request,
         NewWorker, WithWorker, Accepted;
    var s1, p, c := Waits(cfg, true);
    var d, cmd := Second(), Request();
    SecondDraw(cfg, s1, p, c);
    RequestAccepted();
    ArriveFirst(cfg, true, s1, d, cmd);
    TakesOver(cfg, s1, p, c);
    var s2 := WithWorker(cfg, s1, d, cmd);
    AsksIsRequest(cfg, s1, d, cmd);
    SameSide(cfg, s1, d, cmd);
    ClaimHop(cfg, true, s2, 1, s1.now, d.newId, d.newKey);
    s := Claiming(cfg, s2, 1, s1.now, d.newId, d.newKey);
    var spot := Spot(Calling(p, 0), Claim(s2.db, Asks(cfg, s1, d, cmd).value).0, SideOf(s2), s2.bankNow,
                     s2.issued + {d.newId, d.newKey});
    BothHold(cfg, s1, s, p, c, spot);
    Join(cfg, true, s1, s2, s);
    Reach(cfg, true, s1, s);
  }

  lemma BothHold(cfg: Config, s1: State, s: State, p: Payment, c: nat, spot: Spot)
    requires Overlaps(cfg) && Stalled(cfg, s1, p, c) && s1.now == Later(cfg) && Accepted(Request())
    requires Got(cfg, true, s, WithWorker(cfg, s1, Second(), Request()), 1, spot) && spot.phase == Calling(p, 0)
    ensures Leads(cfg, true, WithWorker(cfg, s1, Second(), Request()), s)
    ensures LiveHolder(cfg, s, 0) && LiveHolder(cfg, s, 1) && KeyOf(s.workers[0]) == KeyOf(s.workers[1])
  {
    hide Leads, Accepted, WellFormed, NewWorker, IdOf, NameOf, Request, SideOf;
    SamePrint(cfg, 1);
    SamePrint(cfg, s1.now);
  }

  // ---- The second worker is refused and lets the claim go ----

  /** The first worker still waits, the second is gone, and so is the claim. */
  predicate Freed(cfg: Config, s: State, p: Payment, c: nat) {
    && s.workers.Keys == {0, 1} && s.workers[0] == WorkerOf(cfg, 1).(phase := Awaiting(p, 1, c))
    && s.db == Db(map[p.id := p], map[]) && s.now == Later(cfg)
    && p.id == IdOf('1') && WellFormed(p) && p.status == Pending
    && s.ledger == OpenBank(cfg) && s.issued == {IdOf('1'), NameOf('a'), IdOf('2'), NameOf('b')}
  }

  lemma RefusedAnswer(p: Payment, at: Time)
    ensures ReadReply(BankAuthorize, Refused(InvalidCardCode)) == BankFailed(InvalidInput)
    ensures Decide(AuthorizeOp, p, BankFailed(InvalidInput), at) == Releasing(p, InvalidInput)
  {
  }

  lemma RefusedRan(cfg: Config, s: State, p: Payment, c: nat, r: ClaimRequest)
    requires Stalled(cfg, s, p, c) && RequestKey(r) == KEY && RequestOp(r) == AuthorizeOp && Accepted(Request())
    requires Claim(s.db, r) == (s.db.(records := map[KEY := s.db.records[KEY].(claimedAt := s.now)]), Claimed(p, true))
    ensures Ran(s.db, SideOf(s), cfg.holdFor, Request(), r, Smoothly(s, Second()))
         == (Db(map[p.id := p], map[]), SideOf(s), Failure(InvalidInput))
  {
    hide WellFormed, NewWorker, IdOf, NameOf, Claim, Handle, ReadReply, Decide, Exchanged, Request, Smoothly, SideOf;
    RequestAccepted();
    SideLedger(s);
    var call := CallOf(Request(), p);
    ShortCardRefused(s.ledger, s.bankNow, cfg.holdFor, Second().newTxn);
    SmoothExchange(SideOf(s), cfg.holdFor, call, s, Second());
    RefusedAnswer(p, s.now);
    SmoothTimes(s);
    assert map[KEY := s.db.records[KEY].(claimedAt := s.now)] - {KEY} == map[];
  }

  lemma SmoothTimes(s: State)
    ensures var world := Smoothly(s, Second());
            world.decidedAt == s.now && world.completedAt == s.now && world.acked && world.releaseLands
  {
    hide IdOf, NameOf;
  }

  lemma LetsGo(cfg: Config, timely: bool) returns (s: State, p: Payment, c: nat)
    requires ValidConfig(cfg) && (timely ==> 0 <= cfg.timeout)
    ensures CanReach(cfg, timely, s) && Freed(cfg, s, p, c)
  {
    hide ValidConfig, CanReach, Leads, Stalled, Freed, Inv, Enabled, Drawn, Asks, Punctual, Reads, Claim, RequestOf, Request,
         NewWorker, WithWorker, Accepted, Ran, SideOf, EndsUp;
    var s1;
    s1, p, c := Waits(cfg, timely);
    var d, cmd := Second(), Request();
    SecondDraw(cfg, s1, p, c);
    RequestAccepted();
    ArriveFirst(cfg, timely, s1, d, cmd);
    TakesOver(cfg, s1, p, c);
    RefusedRan(cfg, s1, p, c, Asks(cfg, s1, d, cmd).value);
    s := RunsSmoothly(cfg, timely, s1, d, cmd);
    FreedThere(cfg, s1, s, p, c);
  }

  lemma FreedThere(cfg: Config, s1: State, s: State, p: Payment, c: nat)
    requires Stalled(cfg, s1, p, c) && s1.now == Later(cfg) && Accepted(Request())
    requires EndsUp(cfg, s1, s, Second(), Request(), (Db(map[p.id := p], map[]), SideOf(s1), Failure(InvalidInput)))
    ensures Freed(cfg, s, p, c)
  {
    hide Accepted, WellFormed, NewWorker, IdOf, NameOf, Request, Remembered;
  }

  // ---- A third worker claims the key anew, for another payment ----

  /** The first worker waits with `p`, the third holds the reopened claim with `q`. */
  predicate Reopened(cfg: Config, s: State, p: Payment, q: Payment, c: nat) {
    && s.workers.Keys == {0, 1, 2} && s.now == Later(cfg)
    && s.workers[0] == WorkerOf(cfg, 1).(phase := Awaiting(p, 1, c))
    && s.workers[2] == WorkerOf(cfg, s.now).(phase := Calling(q, 0))
    && p.id != q.id && WellFormed(p) && WellFormed(q) && p.status == Pending && q.status == Pending
    && s.db == Db(map[p.id := p, q.id := q], map[KEY := Record(WorkerOf(cfg, 1).fingerprint, q.id, InProgress, s.now)])
    && |s.calls| == |s.stages|
  }

  lemma ThirdDraw(cfg: Config, s: State, p: Payment, c: nat)
    requires Freed(cfg, s, p, c)
    ensures Unused(s, Third(), Request())
  {
    hide WellFormed, NewWorker, IdOf, NameOf, Request, Accepted, Unused;
    LettersAreVisible();
    NamesDiffer();
    RequestAccepted();
    Draws(s, 2, '3', 'c', 'v', TODAY, Request());
  }

  lemma Reopens(cfg: Config, timely: bool) returns (s: State, p: Payment, q: Payment, c: nat)
    requires ValidConfig(cfg) && (timely ==> 0 <= cfg.timeout)
    ensures CanReach(cfg, timely, s) && Reopened(cfg, s, p, q, c)
  {
    hide ValidConfig, CanReach, Leads, Freed, Reopened, Inv, Enabled, Unused, Drawn, Asks, Punctual, Reads, Claim, RequestOf,
         Request, NewWorker, WithWorker, Accepted, SideOf, WellFormed, Got, IdOf, NameOf;
    var s1;
    s1, p, c := LetsGo(cfg, timely);
    var d, cmd := Third(), Request();
    ThirdDraw(cfg, s1, p, c);
    UnusedFacts(s1, d, cmd);
    RequestAccepted();
    ArriveFirst(cfg, timely, s1, d, cmd);
    var db;
    q, db := StartClaimed(cfg, s1, d, cmd);
    var s2 := WithWorker(cfg, s1, d, cmd);
    AsksIsRequest(cfg, s1, d, cmd);
    SameSide(cfg, s1, d, cmd);
    ClaimHop(cfg, timely, s2, 2, s1.now, d.newId, d.newKey);
    s := Claiming(cfg, s2, 2, s1.now, d.newId, d.newKey);
    RequestPrint(Asks(cfg, s1, d, cmd).value, NewWorker(cfg, cmd, s1.now));
    ReopenedThere(cfg, timely, s1, s, p, q, c, Spot(Calling(q, 0), db, SideOf(s2), s2.bankNow, s2.issued + {d.newId, d.newKey}));
    Join(cfg, timely, s1, s2, s);
    Reach(cfg, timely, s1, s);
  }

  lemma RequestPrint(r: ClaimRequest, w: Worker)
    requires Requests(r, w)
    ensures r.fingerprint == w.fingerprint
  {
  }

  lemma ReopenedThere(cfg: Config, timely: bool, s1: State, s: State, p: Payment, q: Payment, c: nat, spot: Spot)
    requires Freed(cfg, s1, p, c) && Accepted(Request()) && spot.phase == Calling(q, 0)
    requires Got(cfg, timely, s, WithWorker(cfg, s1, Third(), Request()), 2, spot)
    requires WellFormed(q) && q.status == Pending && q.id == IdOf('3')
    requires spot.db == Db(s1.db.payments[q.id := q],
                           s1.db.records[KEY := Record(WorkerOf(cfg, s1.now).fingerprint, q.id, InProgress, s1.now)])
    ensures Leads(cfg, timely, WithWorker(cfg, s1, Third(), Request()), s) && Reopened(cfg, s, p, q, c)
  {
    hide Leads, Accepted, WellFormed, NewWorker, IdOf, NameOf, Request, SideOf;
    SamePrint(cfg, s1.now);
    NamesDiffer();
  }

  // ---- The first worker completes what the third has claimed ----

  /** The record was opened for `q`, which the third worker still holds, and answers with `p`. */
  predicate Crossed(cfg: Config, s: State, p: Payment, q: Payment) {
    && s.workers.Keys == {0, 1, 2} && s.now == Later(cfg)
    && s.workers[2] == WorkerOf(cfg, s.now).(phase := Calling(q, 0))
    && p.id != q.id && WellFormed(q) && q.status == Pending && q.id in s.db.payments && s.db.payments[q.id] == q
    && KEY in s.db.records && s.db.records[KEY].paymentId == q.id
    && s.db.records[KEY].progress == Completed(CommandResult(ResultOf(p), None), s.now)
    && |s.calls| == |s.stages|
  }

  /** The outside world at the end of a command that gave up on the bank. */
  function GivesUp(now: Time): World {
    var turn := Undelivered(BankTimeout);
    World(Exchange(turn, None, turn), now, now, true, true)
  }

  lemma UnknownAnswer(cfg: Config, w: Worker, p: Payment, c: nat, at: Time)
    requires w.cmd.Authorize? && w.phase == Awaiting(p, 1, c)
    ensures AfterAnswer(w, BankFailed(BankTimeout), at, false) == Completing(p, p, None)
  {
  }

  lemma InTimeStill(cfg: Config, timely: bool, s: State)
    requires timely ==> Overlaps(cfg)
    requires 0 in s.workers && s.workers[0].start == 1 && s.now == Later(cfg)
    ensures Punctual(cfg, timely, s, 0) && Reads(s, 0, s.now)
  {
  }

  /** The first worker's request, as its completion names it. */
  function OwnRequest(cfg: Config, p: Payment, now: Time): ClaimRequest {
    StartRequest("k", WorkerOf(cfg, 1).fingerprint, p, now, cfg.stuckAfter)
  }

  lemma OwnRequests(cfg: Config, p: Payment, now: Time, at: Time, phase: Phase)
    ensures var r := OwnRequest(cfg, p, now);
            && RequestKey(r) == KEY && RequestOp(r) == AuthorizeOp && r.fingerprint == WorkerOf(cfg, 1).fingerprint
            && Requests(r, WorkerOf(cfg, at).(phase := phase))
  {
    hide Accepted, NewWorker, Request;
    RequestAccepted();
    SamePrint(cfg, at);
  }

  lemma Crosses(cfg: Config, timely: bool) returns (s: State, p: Payment, q: Payment)
    requires ValidConfig(cfg) && (timely ==> Overlaps(cfg))
    ensures CanReach(cfg, timely, s) && Crossed(cfg, s, p, q)
  {
    hide ValidConfig, CanReach, Leads, Reopened, Crossed, Got, NewWorker, Request, Punctual, Reads, SideOf, WellFormed,
         Concluded, AfterAnswer;
    var s1, c;
    s1, p, q, c := Reopens(cfg, timely);
    ReopenedFacts(cfg, s1, p, q, c);
    RequestAccepted();
    InTimeStill(cfg, timely, s1);
    var spot := Spot(Awaiting(p, 1, c), s1.db, SideOf(s1), s1.bankNow, s1.issued);
    StartHere(cfg, timely, s1, 0, spot);
    NoReplyHop(cfg, timely, s1, s1, 0, spot, BankTimeout, s1.now, false);
    UnknownAnswer(cfg, s1.workers[0], p, c, s1.now);
    var s2 := SetPhase(s1, 0, AfterAnswer(s1.workers[0], BankFailed(BankTimeout), s1.now, false));
    var r := OwnRequest(cfg, p, s1.now);
    OwnRequests(cfg, p, s1.now, 1, s1.workers[0].phase);
    s := ConcludeHop(cfg, timely, s2, s1, 0, spot.(phase := Completing(p, p, None)), r, GivesUp(s1.now));
    Persists(s1.db, r, p, p, GivesUp(s1.now));
    CrossedThere(cfg, timely, s1, s, p, q, c, r, spot);
    Reach(cfg, timely, s1, s);
  }

  lemma StartHere(cfg: Config, timely: bool, s: State, w: nat, spot: Spot)
    requires w in s.workers && |s.calls| == |s.stages|
    requires spot == Spot(s.workers[w].phase, s.db, SideOf(s), s.bankNow, s.issued)
    ensures Got(cfg, timely, s, s, w, spot)
  {
    hide Leads, SideOf;
    Stay(cfg, timely, s);
  }

  lemma ReopenedFacts(cfg: Config, s: State, p: Payment, q: Payment, c: nat)
    requires Reopened(cfg, s, p, q, c)
    ensures 0 in s.workers && s.workers[0] == WorkerOf(cfg, 1).(phase := Awaiting(p, 1, c)) && s.workers[0].start == 1
    ensures s.workers[0].cmd == Request() && |s.calls| == |s.stages| && s.now == Later(cfg) && s.now != NO_TIME
    ensures p.id in s.db.payments && s.db.payments[p.id] == p && p.status == Pending && WellFormed(p) && SameIdentity(p, p)
    ensures KEY in s.db.records && s.db.records[KEY].progress.InProgress?
    ensures s.db.records[KEY].fingerprint == WorkerOf(cfg, 1).fingerprint
  {
    hide WellFormed, Request, Accepted, NewWorker;
    SamePrint(cfg, 1);
  }

  lemma CrossedThere(cfg: Config, timely: bool, s1: State, s: State, p: Payment, q: Payment, c: nat, r: ClaimRequest,
                     spot: Spot)
    requires Reopened(cfg, s1, p, q, c) && RequestKey(r) == KEY
    requires var end := Concluded(s1.db, r, Completing(p, p, None), GivesUp(s1.now));
             && end == (Db(s1.db.payments[p.id := p], Closed(s1.db.records, KEY, ResultOf(p), s1.now)), Success(ResultOf(p)))
             && Got(cfg, timely, s, s1, 0, spot.(phase := Finished(end.1), db := end.0))
    ensures Leads(cfg, timely, s1, s) && Crossed(cfg, s, p, q)
  {
    hide WellFormed, Request, Accepted, NewWorker, Leads, SideOf, Concluded;
  }

  // ---- And the third worker's completion fails ----

  lemma Conflicts(cfg: Config) returns (s: State)
    requires ValidConfig(cfg) && Overlaps(cfg)
    ensures TimelyReachable(cfg, s) && Enabled(s, CompleteStep(2, s.now, true))
    ensures Timely(cfg, s, CompleteStep(2, s.now, true)) && Attempt(s, 2, s.now).1 == Some(IdempotencyConflict)
  {
    hide ValidConfig, TimelyReachable, Leads, Crossed, Got, NewWorker, Request, SideOf, WellFormed, AfterAnswer;
    var s1, p, q := Crosses(cfg, true);
    CrossedFacts(cfg, s1, p, q);
    RequestAccepted();
    SamePrint(cfg, s1.now);
    var spot := Spot(Calling(q, 0), s1.db, SideOf(s1), s1.bankNow, s1.issued);
    StartHere(cfg, true, s1, 2, spot);
    var turn := Undelivered(BankTimeout);
    var s2, c := TurnPath(cfg, true, s1, s1, 2, spot, turn);
    var spot2 := spot.(phase := Awaiting(q, 1, c));
    s := TakeIn(cfg, true, s2, s1, 2, spot2, turn, BankFailed(BankTimeout), s1.now, false);
    UnknownAnswer(cfg, s1.workers[2].(phase := Awaiting(q, 1, c)), q, c, s1.now);
    GotWorker(cfg, true, s, s1, 2, spot2.(phase := Completing(q, q, None)));
    GotLeads(cfg, true, s, s1, 2, spot2.(phase := Completing(q, q, None)));
    Reach(cfg, true, s1, s);
    ConflictThere(cfg, s1, s, p, q);
  }

  lemma GotLeads(cfg: Config, timely: bool, s: State, s0: State, w: nat, spot: Spot)
    requires Got(cfg, timely, s, s0, w, spot)
    ensures Leads(cfg, timely, s0, s)
  {
    hide Leads;
  }

  lemma CrossedFacts(cfg: Config, s: State, p: Payment, q: Payment)
    requires Crossed(cfg, s, p, q)
    ensures 2 in s.workers && s.workers[2] == WorkerOf(cfg, s.now).(phase := Calling(q, 0)) && |s.calls| == |s.stages|
  {
    hide WellFormed, Request, Accepted, NewWorker;
  }

  lemma ConflictThere(cfg: Config, s1: State, s: State, p: Payment, q: Payment)
    requires Crossed(cfg, s1, p, q) && s.now == s1.now && s.db == s1.db && 0 <= cfg.timeout
    requires 2 in s.workers && s.workers[2] == WorkerOf(cfg, s1.now).(phase := Completing(q, q, None))
    ensures Enabled(s, CompleteStep(2, s.now, true)) && Timely(cfg, s, CompleteStep(2, s.now, true))
    ensures Attempt(s, 2, s.now).1 == Some(IdempotencyConflict)
  {
    hide Request, Accepted, NewWorker, Normalized;
    SamePrint(cfg, s1.now);
    RequestAccepted();
    assert Overwrite(q, q) == q;
  }

  // ---- What follows ----

  /** No two workers within their deadlines ever hold one operation and key. */
  ghost predicate AlwaysOneHolder(cfg: Config) {
    forall s: State, v: nat, w: nat {:trigger LiveHolder(cfg, s, v), LiveHolder(cfg, s, w)} ::
      (&& TimelyReachable(cfg, s) && LiveHolder(cfg, s, v) && LiveHolder(cfg, s, w)
       && KeyOf(s.workers[v]) == KeyOf(s.workers[w])) ==> v == w
  }

  /** No completion within its deadline ever meets an idempotency conflict. */
  ghost predicate NeverConflicts(cfg: Config) {
    forall s: State, v: nat, at: Time, acked: bool {:trigger Enabled(s, CompleteStep(v, at, acked)), TimelyReachable(cfg, s)} ::
      TimelyReachable(cfg, s) && Enabled(s, CompleteStep(v, at, acked)) && Timely(cfg, s, CompleteStep(v, at, acked)) ==>
        Attempt(s, v, at).1 != Some(IdempotencyConflict)
  }

  /** Every stored outcome is always about the payment that its record was opened for. */
  ghost predicate AlwaysOwnOutcomes(cfg: Config) {
    forall s: State {:trigger TimelyReachable(cfg, s)} :: TimelyReachable(cfg, s) ==> OwnOutcomes(s.db.records)
  }

  lemma OutlastingIsSafe(cfg: Config)
    requires ValidConfig(cfg) && LeaseOutlastsCommand(cfg)
    ensures AlwaysOneHolder(cfg) && NeverConflicts(cfg) && AlwaysOwnOutcomes(cfg)
  {
    hide ValidConfig, TimelyReachable, LeaseOutlastsCommand, Timely, Attempt, Clean, IsPaymentId, Accepted;
    forall s: State, v: nat, w: nat |
      && TimelyReachable(cfg, s) && LiveHolder(cfg, s, v) && LiveHolder(cfg, s, w)
      && KeyOf(s.workers[v]) == KeyOf(s.workers[w])
      ensures v == w
    {
      OneLiveHolder(cfg, s, v, w);
    }
    forall s: State, v: nat, at: Time, acked: bool |
      && TimelyReachable(cfg, s) && Enabled(s, CompleteStep(v, at, acked))
      && Timely(cfg, s, CompleteStep(v, at, acked))
      ensures Attempt(s, v, at).1 != Some(IdempotencyConflict)
    {
      CompletionMeetsNoConflict(cfg, s, v, at, acked);
    }
    forall s: State | TimelyReachable(cfg, s) ensures OwnOutcomes(s.db.records) {
      forall k | k in s.db.records && s.db.records[k].progress.Completed?
        ensures s.db.records[k].progress.result.payment.id == s.db.records[k].paymentId
      {
        OutcomesAreOwn(cfg, s, k);
      }
    }
  }

  lemma CrossedIsNotOwn(cfg: Config, s: State, p: Payment, q: Payment)
    requires Crossed(cfg, s, p, q)
    ensures KEY in s.db.records && s.db.records[KEY].progress.Completed?
    ensures s.db.records[KEY].progress.result.payment.id != s.db.records[KEY].paymentId && !OwnOutcomes(s.db.records)
  {
    hide WellFormed, Request, Accepted, NewWorker;
  }

  lemma OverlapIsUnsafe(cfg: Config)
    requires ValidConfig(cfg) && Overlaps(cfg)
    ensures !AlwaysOneHolder(cfg) && !NeverConflicts(cfg) && !AlwaysOwnOutcomes(cfg)
  {
    hide ValidConfig, TimelyReachable, LiveHolder, Enabled, Timely, Attempt, Crossed, OwnOutcomes;
    var s := TwoHolders(cfg);
    var t := Conflicts(cfg);
    var u, p, q := Crosses(cfg, true);
    CrossedIsNotOwn(cfg, u, p, q);
  }

  /**
   * Exactly the configuration's own check, that stuck-after exceeds the command timeout, makes claims safe: over all
   * timely runs there is one live holder per key, completions meet no idempotency conflict, and stored outcomes are about
   * their record's payment, each if and only if it holds.
   */
  lemma LeaseSafetyExact(cfg: Config)
    requires ValidConfig(cfg) && 0 <= cfg.timeout
    ensures AlwaysOneHolder(cfg) <==> LeaseOutlastsCommand(cfg)
    ensures NeverConflicts(cfg) <==> LeaseOutlastsCommand(cfg)
    ensures AlwaysOwnOutcomes(cfg) <==> LeaseOutlastsCommand(cfg)
  {
    hide ValidConfig, AlwaysOneHolder, NeverConflicts, AlwaysOwnOutcomes;
    if LeaseOutlastsCommand(cfg) {
      OutlastingIsSafe(cfg);
    } else {
      OverlapIsUnsafe(cfg);
    }
  }

  /**
   * When workers may ignore their deadlines, no configuration helps: every one of them has a run in which a stalled
   * worker completes a record that was reopened for another payment, so that the record answers with the wrong one.
   */
  lemma StaleCompletionCrosses(cfg: Config) returns (s: State, k: RecordKey)
    requires ValidConfig(cfg)
    ensures Reachable(cfg, s) && k in s.db.records && s.db.records[k].progress.Completed?
    ensures s.db.records[k].progress.result.payment.id != s.db.records[k].paymentId
  {
    hide ValidConfig, Reachable, Crossed;
    var p, q;
    s, p, q := Crosses(cfg, false);
    k := KEY;
    CrossedIsNotOwn(cfg, s, p, q);
  }
}
