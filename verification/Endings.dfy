/**
 * How commands end when the bank does not simply grant them: declined, expired, unknown, refused, or granted at the
 * second attempt. Each from every state that runs, or timely runs, reach.
 */
module Endings {
  import opened Text
  import opened Domain
  import opened Errors
  import opened Commands
  import opened Store
  import opened Bank
  import opened Client
  import opened Protocol
  import opened Invariants
  import opened Transitions
  import opened ClaimSteps
  import opened Runs
  import opened Safety
  import opened Verdicts
  import opened Paths
  import opened Deliveries
  import opened CommandPaths
  import opened Progress

  // ---- Declined ----

  /** Why the bank declines a card that is the account's. */
  predicate DeclinedFor(l: Ledger, card: Card, amount: int, today: YearMonth, reason: DeclineReason) {
    && Presented(l, card.number, card.cvv, amount)
    && var a := l.accounts[card.number];
       if !ValidExpiry(a.month, a.year, today) then reason == ExpiredCard
       else a.available < amount && reason == InsufficientFunds
  }

  lemma BankDeclines(l: Ledger, now: Time, holdFor: int, card: Card, amount: int, reason: DeclineReason, d: Draw)
    requires LedgerOk(l) && DeclinedFor(l, card, amount, d.today, reason)
    ensures var request := AuthorizeRequest(card.number, card.cvv, card.month, card.year, amount);
            var (l', reply) := Handle(l, now, d.today, holdFor, request, d.newTxn);
            l' == l && ReadReply(BankAuthorize, reply) == DeclinedBy(reason)
  {
    AuthorizeVerdict(l, now, d.today, holdFor, AuthorizeRequest(card.number, card.cvv, card.month, card.year, amount), d.newTxn);
    hide LedgerOk, Handle, Luhn.Accepts, ValidExpiry, LooksLikeCvv;
  }

  lemma DeclinedWith(p: Payment, reason: DeclineReason, now: Time) returns (after: Payment)
    requires WellFormed(p) && p.status == Pending && reason != NoReason && now != NO_TIME
    ensures Decide(AuthorizeOp, p, DeclinedBy(reason), now) == Completing(p, after, None)
    ensures WellFormed(after) && SameIdentity(p, after) && after.status == Declined && after.declineReason == reason
    ensures after.updatedAt == now
  {
    hide WellFormed;
    after := MarkDeclined(p, reason, now).value;
    DeclinedOk(p, reason, now);
  }

  lemma DeclineRan(cfg: Config, s: State, d: Draw, cmd: Command, reason: DeclineReason)
    returns (after: Payment, end: (Db, BankSide, Outcome))
    requires ValidConfig(cfg) && Inv(cfg, s) && Unused(s, d, cmd) && Inv(cfg, WithWorker(cfg, s, d, cmd))
    requires cmd.Authorize? && DeclinedFor(s.ledger, cmd.card, cmd.amount, d.today, reason) && s.now > NO_TIME
    ensures Asks(cfg, s, d, cmd).Ok?
    ensures end == Ran(s.db, SideOf(s), cfg.holdFor, cmd, Asks(cfg, s, d, cmd).value, Smoothly(s, d))
    ensures end.0.payments == s.db.payments[d.newId := after] && end.1.ledger == s.ledger
    ensures after.id == d.newId && after.orderId == cmd.orderId && after.customerId == cmd.customerId
    ensures after.amount == cmd.amount && after.status == Declined && after.declineReason == reason
    ensures end.2 == Success(ResultOf(after)) && after.updatedAt == s.now
    ensures var k := RecordKey(AuthorizeOp, cmd.key);
            && k in end.0.records && end.0.records[k].progress.Completed?
            && end.0.records[k].progress.result == CommandResult(ResultOf(after), None)
  {
    hide Inv, ValidConfig, Accepted, Ran, RequestOf, Handle, DeclinedFor, Clean, IsPaymentId, LedgerOk, Claim, WellFormed,
         SameIdentity, Decide, NewWorker, ReadReply, Unused, Drawn, Asks, SideOf, WithWorker, Smoothly;
    UnusedFacts(s, d, cmd);
    SideLedger(s);
    LedgerIsOk(cfg, s);
    BankDeclines(s.ledger, s.bankNow, cfg.holdFor, cmd.card, cmd.amount, reason, d);
    HasReason(s.ledger, cmd.card, cmd.amount, d.today, reason);
    var p, db := StartClaimed(cfg, s, d, cmd);
    var r := Asks(cfg, s, d, cmd).value;
    var request := AuthorizeRequest(cmd.card.number, cmd.card.cvv, cmd.card.month, cmd.card.year, cmd.amount);
    var (l', reply) := Handle(s.ledger, s.bankNow, d.today, cfg.holdFor, request, d.newTxn);
    after := DeclinedWith(p, reason, s.now);
    RanSucceeds(s, SideOf(s), cfg.holdFor, cmd, r, d, db, false, p, l', reply, after);
    end := Ran(s.db, SideOf(s), cfg.holdFor, cmd, r, Smoothly(s, d));
    IdentityFields(p, after);
  }

  lemma HasReason(l: Ledger, card: Card, amount: int, today: YearMonth, reason: DeclineReason)
    requires DeclinedFor(l, card, amount, today, reason)
    ensures reason != NoReason
  {
    hide ValidExpiry, Presented;
  }

  /**
   * An authorization with the account's own card is declined for exactly the bank's reason: an expired card as expired, a
   * good card without the funds as lacking them. The declined payment is the command's answer, and no money moves.
   */
  lemma DeclineCanComplete(cfg: Config, timely: bool, s: State, d: Draw, cmd: Command, reason: DeclineReason)
    returns (s': State)
    requires ValidConfig(cfg) && CanReach(cfg, timely, s) && Unused(s, d, cmd) && (timely ==> 0 <= cfg.timeout)
    requires cmd.Authorize? && DeclinedFor(s.ledger, cmd.card, cmd.amount, d.today, reason)
    ensures Leads(cfg, timely, s, s') && CanReach(cfg, timely, s') && d.newId in s'.db.payments && s'.ledger == s.ledger
    ensures var row := s'.db.payments[d.newId];
            && s'.db.payments == s.db.payments[d.newId := row] && Told(s', d.worker, row)
            && row.orderId == cmd.orderId && row.customerId == cmd.customerId && row.amount == cmd.amount
            && row.status == Declined && row.declineReason == reason && row.updatedAt == s.now
  {
    hide Inv, ValidConfig, CanReach, Leads, Accepted, Enabled, Ran, RequestOf, DeclinedFor, Clean, IsPaymentId, Punctual,
         Reads, NewWorker, Unused, Drawn, Asks, SideOf, WithWorker, Smoothly, Told;
    UnusedFacts(s, d, cmd);
    ArriveFirst(cfg, timely, s, d, cmd);
    var after, end := DeclineRan(cfg, s, d, cmd, reason);
    s' := RunsSmoothly(cfg, timely, s, d, cmd);
    ToldThere(cfg, s, s', d, cmd, end, after);
    SideLedger(s');
  }

  // ---- Unknown ----

  /** An attempt that the client learns nothing from: lost either way, or failed at the bank, before or after its commit. */
  predicate NoWord(t: Turn) {
    match t
    case Undelivered(kind) => kind == BankTimeout || kind == BankUnavailable
    case Unheard(_, kind) => kind == BankTimeout || kind == BankUnavailable
    case Heard(v) => v.how != Run && v.lookupFails
  }

  /** What the client reports of such an attempt; a failure at the bank reads as an unavailable bank. */
  function KindOf(t: Turn): ErrorKind {
    match t
    case Undelivered(kind) => kind
    case Unheard(_, kind) => kind
    case Heard(_) => BankUnavailable
  }

  lemma NoWordFails(b: BankSide, holdFor: int, call: Call, t: Turn) returns (b': BankSide)
    requires NoWord(t)
    ensures Attempted(b, holdFor, call, t) == (b', BankFailed(KindOf(t)))
  {
    hide Handle;
    b' := Attempted(b, holdFor, call, t).0;
  }

  /** An exchange whose last attempt brings no word. */
  predicate EndsUnknown(x: Exchange) {
    && NoWord(x.first) && NoWord(x.second)
    && (x.cutShort.Some? ==> x.cutShort.value == BankTimeout || x.cutShort.value == BankUnavailable)
  }

  /** What is reported of the exchange: how the wait was cut short, or else how the second attempt failed. */
  function LastKind(x: Exchange): ErrorKind {
    if x.cutShort.Some? then x.cutShort.value else KindOf(x.second)
  }

  lemma LastKindIsUnknown(x: Exchange)
    requires EndsUnknown(x)
    ensures LastKind(x) == BankTimeout || LastKind(x) == BankUnavailable
  {
  }

  lemma UnknownExchange(b: BankSide, holdFor: int, call: Call, x: Exchange) returns (b': BankSide)
    requires EndsUnknown(x)
    ensures Exchanged(b, holdFor, call, x) == (b', BankFailed(LastKind(x)))
  {
    hide Attempted;
    b' := NoWordFails(b, holdFor, call, x.first);
    if x.cutShort.None? {
      b' := NoWordFails(b', holdFor, call, x.second);
    }
  }

  /** The exchange, with every clock reading the present. */
  function Meanwhile(s: State, x: Exchange): World {
    World(x, s.now, s.now, true, true)
  }

  lemma UnknownPending(p: Payment, kind: ErrorKind, now: Time)
    requires kind == BankTimeout || kind == BankUnavailable
    ensures Decide(AuthorizeOp, p, BankFailed(kind), now) == Completing(p, p, None)
  {
    hide MarkAuthorized, MarkDeclined, MarkCaptured, MarkExpired, MarkVoided, MarkRefunded;
  }

  lemma UnknownRan(cfg: Config, s: State, d: Draw, cmd: Command, x: Exchange)
    returns (p: Payment, end: (Db, BankSide, Outcome))
    requires ValidConfig(cfg) && Inv(cfg, s) && Unused(s, d, cmd) && Inv(cfg, WithWorker(cfg, s, d, cmd))
    requires cmd.Authorize? && EndsUnknown(x) && s.now > NO_TIME
    ensures Asks(cfg, s, d, cmd).Ok?
    ensures end == Ran(s.db, SideOf(s), cfg.holdFor, cmd, Asks(cfg, s, d, cmd).value, Meanwhile(s, x))
    ensures end.0.payments == s.db.payments[d.newId := p] && p.id == d.newId && p.status == Pending
    ensures p.orderId == cmd.orderId && p.customerId == cmd.customerId && p.amount == cmd.amount
    ensures p.authKey == d.newKey && end.2 == Success(ResultOf(p))
    ensures var k := RecordKey(AuthorizeOp, cmd.key);
            && k in end.0.records && end.0.records[k].progress.Completed?
            && end.0.records[k].progress.result == CommandResult(ResultOf(p), None)
  {
    hide Inv, ValidConfig, Accepted, Ran, RequestOf, Clean, IsPaymentId, Claim, WellFormed, Decide, NewWorker, Unused, Drawn,
         Asks, SideOf, WithWorker, Exchanged, EndsUnknown, LastKind, CallOf;
    UnusedFacts(s, d, cmd);
    var db;
    p, db := StartClaimed(cfg, s, d, cmd);
    var r := Asks(cfg, s, d, cmd).value;
    var kind := LastKind(x);
    var b' := UnknownExchange(SideOf(s), cfg.holdFor, CallOf(cmd, p), x);
    LastKindIsUnknown(x);
    UnknownPending(p, kind, s.now);
    RanPersists(s, SideOf(s), cfg.holdFor, cmd, r, Meanwhile(s, x), db, false, p, b', BankFailed(kind), p);
    end := Ran(s.db, SideOf(s), cfg.holdFor, cmd, r, Meanwhile(s, x));
  }

  /**
   * An authorization that ends without word from the bank, whichever way its attempts were lost or failed, completes: the
   * payment stays pending, the record stores it, and the caller is shown it. A repetition of the key finds that answer.
   */
  lemma UnknownCanComplete(cfg: Config, timely: bool, s: State, d: Draw, cmd: Command, x: Exchange) returns (s': State)
    requires ValidConfig(cfg) && CanReach(cfg, timely, s) && Unused(s, d, cmd) && (timely ==> 0 <= cfg.timeout)
    requires cmd.Authorize? && EndsUnknown(x) && Prompt(s, Meanwhile(s, x))
    ensures Leads(cfg, timely, s, s') && CanReach(cfg, timely, s') && d.newId in s'.db.payments
    ensures var row := s'.db.payments[d.newId];
            && s'.db.payments == s.db.payments[d.newId := row] && Told(s', d.worker, row)
            && row.orderId == cmd.orderId && row.customerId == cmd.customerId && row.amount == cmd.amount
            && row.status == Pending && row.authKey == d.newKey
  {
    hide Inv, ValidConfig, CanReach, Leads, Accepted, Enabled, Ran, RequestOf, EndsUnknown, Clean, IsPaymentId, Punctual,
         Reads, NewWorker, Unused, Drawn, Asks, SideOf, WithWorker, Prompt, Meanwhile, Told;
    UnusedFacts(s, d, cmd);
    ArriveFirst(cfg, timely, s, d, cmd);
    var p, end := UnknownRan(cfg, s, d, cmd, x);
    s' := RunsUndisturbed(cfg, timely, s, d, cmd, Meanwhile(s, x));
    ToldThere(cfg, s, s', d, cmd, end, p);
  }

  // ---- Expired ----

  /** An authorized row whose hold nobody used in time. */
  predicate LapsedHold(s: State, id: string) {
    && id in s.db.payments && s.db.payments[id].status == Authorized
    && var h := s.db.payments[id].holdId;
       h in s.ledger.txns && s.ledger.txns[h].status == ActiveTxn && s.bankNow > s.ledger.txns[h].expiresAt
  }

  lemma BankReportsExpiry(cfg: Config, s: State, id: string, d: Draw)
    requires LapsedHold(s, id) && Inv(cfg, s)
    ensures var row := s.db.payments[id];
            Handle(s.ledger, s.bankNow, d.today, cfg.holdFor, CaptureRequest(row.holdId, row.amount), d.newTxn) ==
            (s.ledger, Refused(AuthExpired))
  {
    hide Inv;
    LedgerIsOk(cfg, s);
    RowAgrees(cfg, s, id);
    var row := s.db.payments[id];
    ActiveIsUnused(s.ledger, row.holdId);
    CaptureVerdict(s.ledger, s.bankNow, d.today, cfg.holdFor, row.holdId, row.amount, d.newTxn);
    hide Handle, LedgerOk;
  }

  /** A hold's status says whether it was used. */
  lemma ActiveIsUnused(l: Ledger, h: string)
    requires LedgerOk(l) && IsHold(l, h)
    ensures l.txns[h].status == ActiveTxn <==> !IsUsed(l, h)
  {
    assert TxnOk(l, h);
  }

  /** A reported expiry ends a capture, and would end a void, for good. */
  lemma ExpiredWith(op: Op, p: Payment, now: Time) returns (after: Payment)
    requires (op == CaptureOp || op == VoidOp) && WellFormed(p) && p.status == Authorized && now != NO_TIME
    ensures Decide(op, p, BankFailed(AuthorizationExpired), now)
         == Completing(p, after, Some(AuthorizationExpired))
    ensures WellFormed(after) && SameIdentity(p, after) && after.status == Expired && after.updatedAt == now
    ensures after.holdId == p.holdId && after.expiresAt == p.expiresAt
  {
    hide WellFormed;
    after := MarkExpired(p, now).value;
    ExpiredOk(p, now);
  }

  /** The pieces of a command that persists a transition and fails with it. */
  lemma RanExpires(s: State, b: BankSide, holdFor: int, cmd: Command, r: ClaimRequest, world: World, db: Db, recovered: bool,
                   p: Payment, b': BankSide, answer: BankResult, after: Payment)
    requires RequestOp(r) == OpOf(cmd) && Claim(s.db, r) == (db, Claimed(p, recovered)) && s.now != NO_TIME
    requires world.decidedAt == s.now && world.completedAt == s.now && world.acked
    requires Exchanged(b, holdFor, CallOf(cmd, p), world.exchange) == (b', answer)
    requires Decide(OpOf(cmd), p, answer, s.now) == Completing(p, after, Some(AuthorizationExpired))
    requires p.id in db.payments && db.payments[p.id] == p && p.status == ExpectedStatus(OpOf(cmd))
    requires SameIdentity(p, after) && WellFormed(after) && RequestKey(r) in db.records
    requires db.records[RequestKey(r)].progress.InProgress? && db.records[RequestKey(r)].fingerprint == r.fingerprint
    ensures var k := RequestKey(r);
            var done := Completed(CommandResult(ResultOf(after), Some(AuthorizationExpired)), s.now);
            Ran(s.db, b, holdFor, cmd, r, world) ==
              (Db(db.payments[p.id := after], db.records[k := db.records[k].(progress := done)]), b',
               Failure(AuthorizationExpired))
  {
    hide Claim, Decide, Exchanged, Normalized, IsPaymentId;
    assert Overwrite(p, after) == after;
  }

  lemma ExpireRan(cfg: Config, s: State, d: Draw, cmd: Command) returns (after: Payment, end: (Db, BankSide, Outcome))
    requires ValidConfig(cfg) && Inv(cfg, s) && Unused(s, d, cmd) && Inv(cfg, WithWorker(cfg, s, d, cmd))
    requires cmd.Capture? && LapsedHold(s, cmd.paymentId) && s.now > NO_TIME
    ensures Asks(cfg, s, d, cmd).Ok?
    ensures end == Ran(s.db, SideOf(s), cfg.holdFor, cmd, Asks(cfg, s, d, cmd).value, Smoothly(s, d))
    ensures end.0.payments == s.db.payments[cmd.paymentId := after] && end.1.ledger == s.ledger
    ensures after.id == cmd.paymentId && after.status == Expired && after.updatedAt == s.now
    ensures end.2 == Failure(AuthorizationExpired)
    ensures var k := RecordKey(CaptureOp, cmd.key);
            && k in end.0.records && end.0.records[k].progress.Completed?
            && end.0.records[k].progress.result == CommandResult(ResultOf(after), Some(AuthorizationExpired))
  {
    hide Inv, ValidConfig, Accepted, Ran, RequestOf, Handle, Clean, IsPaymentId, LedgerOk, Claim, WellFormed, Agrees,
         SameIdentity, Decide, NewWorker, Unused, Drawn, Asks, SideOf, WithWorker, Smoothly, Behind, Claimable, Exchanged;
    var row := s.db.payments[cmd.paymentId];
    UnusedFacts(s, d, cmd);
    SideLedger(s);
    BankReportsExpiry(cfg, s, cmd.paymentId, d);
    ByStatus(cfg, s, d, cmd);
    var p, db := ExistingClaimed(cfg, s, d, cmd);
    BehindHold(row, p);
    var r := Asks(cfg, s, d, cmd).value;
    SmoothExchange(SideOf(s), cfg.holdFor, CallOf(cmd, p), s, d);
    SmoothIsPrompt(s, d);
    after := ExpiredWith(CaptureOp, p, s.now);
    RanExpires(s, SideOf(s), cfg.holdFor, cmd, r, Smoothly(s, d), db, false, p, BankSide(s.ledger, SideOf(s).replies),
               BankFailed(AuthorizationExpired), after);
    end := Ran(s.db, SideOf(s), cfg.holdFor, cmd, r, Smoothly(s, d));
    IdentityFields(p, after);
  }

  lemma SmoothIsPrompt(s: State, d: Draw)
    ensures var world := Smoothly(s, d);
            world.decidedAt == s.now && world.completedAt == s.now && world.acked && world.releaseLands
  {
  }

  /**
   * A capture of a hold that nobody used in time ends the payment: the row expires, the record stores the failure for
   * repetitions, the caller is told that the authorization expired, and no money moves.
   */
  lemma LapsedCaptureExpires(cfg: Config, timely: bool, s: State, d: Draw, cmd: Command) returns (s': State)
    requires ValidConfig(cfg) && CanReach(cfg, timely, s) && Unused(s, d, cmd) && (timely ==> 0 <= cfg.timeout)
    requires cmd.Capture? && LapsedHold(s, cmd.paymentId)
    ensures Leads(cfg, timely, s, s') && CanReach(cfg, timely, s') && cmd.paymentId in s'.db.payments
    ensures s'.ledger == s.ledger && d.worker in s'.workers
    ensures s'.workers[d.worker].phase == Finished(Failure(AuthorizationExpired))
    ensures var row, k := s'.db.payments[cmd.paymentId], RecordKey(CaptureOp, cmd.key);
            && s'.db.payments == s.db.payments[cmd.paymentId := row]
            && row.status == Expired && row.updatedAt == s.now
            && k in s'.db.records && s'.db.records[k].progress.Completed?
            && s'.db.records[k].progress.result.failure == Some(AuthorizationExpired)
            && Shows(s'.db.records[k].progress.result.payment, row)
  {
    hide Inv, ValidConfig, CanReach, Leads, Accepted, Enabled, Ran, RequestOf, Clean, IsPaymentId, Punctual, Reads, NewWorker,
         Unused, Drawn, Asks, SideOf, WithWorker, Smoothly;
    UnusedFacts(s, d, cmd);
    ArriveFirst(cfg, timely, s, d, cmd);
    var after, end := ExpireRan(cfg, s, d, cmd);
    s' := RunsSmoothly(cfg, timely, s, d, cmd);
    SideLedger(s');
  }

  // ---- Refused ----

  /** The pieces of a command that lets its claim go. */
  lemma RanReleases(s: State, b: BankSide, holdFor: int, cmd: Command, r: ClaimRequest, world: World, db: Db, recovered: bool,
                    p: Payment, b': BankSide, answer: BankResult, kind: ErrorKind)
    requires RequestOp(r) == OpOf(cmd) && Claim(s.db, r) == (db, Claimed(p, recovered))
    requires world.decidedAt == s.now && world.releaseLands
    requires Exchanged(b, holdFor, CallOf(cmd, p), world.exchange) == (b', answer)
    requires Decide(OpOf(cmd), p, answer, s.now) == Releasing(p, kind)
    requires RequestKey(r) in db.records && db.records[RequestKey(r)].progress.InProgress?
    ensures Ran(s.db, b, holdFor, cmd, r, world) == (db.(records := db.records - {RequestKey(r)}), b', Failure(kind))
  {
    hide Claim, Decide, Exchanged;
  }

  lemma KeyFreed(records: map<RecordKey, Record>, k: RecordKey, rec: Record)
    requires k !in records
    ensures records[k := rec] - {k} == records
  {
  }

  /** The command has failed with this kind; its key is free, and only its payment's row may have changed. */
  predicate LetGo(s: State, s': State, w: nat, id: string, kind: ErrorKind) {
    && s'.db.records == s.db.records && id in s'.db.payments
    && s'.db.payments == s.db.payments[id := s'.db.payments[id]]
    && w in s'.workers && s'.workers[w].phase == Finished(Failure(kind))
  }

  lemma LetGoThere(cfg: Config, s: State, s': State, d: Draw, cmd: Command, end: (Db, BankSide, Outcome), db: Db, p: Payment,
                   k: RecordKey, rec: Record, kind: ErrorKind)
    requires Accepted(cmd) && EndsUp(cfg, s, s', d, cmd, end) && k !in s.db.records
    requires db == Db(s.db.payments[p.id := p], s.db.records[k := rec])
    requires end.0 == db.(records := db.records - {k}) && end.2 == Failure(kind)
    ensures LetGo(s, s', d.worker, p.id, kind) && s'.db.payments[p.id] == p && SideOf(s') == end.1
  {
    hide Accepted, NewWorker, SideOf;
    KeyFreed(s.db.records, k, rec);
  }

  /** A card that is not the account's: no valid number, no such account, or another CVV. */
  predicate WrongCard(l: Ledger, card: Card) {
    !Luhn.Accepts(card.number) || card.number !in l.accounts || l.accounts[card.number].cvv != card.cvv
  }

  lemma BankRejectsCard(l: Ledger, now: Time, holdFor: int, card: Card, amount: int, d: Draw)
    requires LedgerOk(l) && AcceptedCard(card) && amount > 0 && WrongCard(l, card)
    ensures var request := AuthorizeRequest(card.number, card.cvv, card.month, card.year, amount);
            var (l', reply) := Handle(l, now, d.today, holdFor, request, d.newTxn);
            l' == l && ReadReply(BankAuthorize, reply) == BankFailed(InvalidInput)
  {
    AuthorizeVerdict(l, now, d.today, holdFor, AuthorizeRequest(card.number, card.cvv, card.month, card.year, amount), d.newTxn);
    AcceptedCvv(card);
    hide LedgerOk, Handle, Luhn.Accepts, ValidExpiry, LooksLikeCvv, AcceptedCard;
  }

  lemma AcceptedCvv(card: Card)
    requires AcceptedCard(card)
    ensures LooksLikeCvv(card.cvv)
  {
  }

  lemma AcceptedFields(cmd: Command)
    requires Accepted(cmd) && cmd.Authorize?
    ensures AcceptedCard(cmd.card) && cmd.amount > 0
  {
    hide AcceptedCard, Clean;
  }

  lemma RefusedReleases(op: Op, p: Payment, kind: ErrorKind, now: Time)
    requires kind == InvalidInput || kind == BankStateConflict || (op != AuthorizeOp && IsRetryable(kind))
    ensures Decide(op, p, BankFailed(kind), now) == Releasing(p, kind)
  {
    hide MarkAuthorized, MarkDeclined, MarkCaptured, MarkExpired, MarkVoided, MarkRefunded;
  }

  /**
   * An authorization with a card that is not the account's is refused as invalid input: no hold is placed, the payment stays
   * pending, and the key is free again.
   */
  lemma WrongCardIsRefused(cfg: Config, timely: bool, s: State, d: Draw, cmd: Command) returns (s': State)
    requires ValidConfig(cfg) && CanReach(cfg, timely, s) && Unused(s, d, cmd) && (timely ==> 0 <= cfg.timeout)
    requires cmd.Authorize? && WrongCard(s.ledger, cmd.card)
    ensures Leads(cfg, timely, s, s') && LetGo(s, s', d.worker, d.newId, InvalidInput) && s'.ledger == s.ledger
    ensures s'.db.payments[d.newId].status == Pending
  {
    hide Inv, ValidConfig, CanReach, Leads, Accepted, Enabled, Ran, RequestOf, Clean, IsPaymentId, Punctual, Reads, NewWorker,
         Unused, Drawn, Asks, SideOf, WithWorker, Smoothly, LetGo, Handle, LedgerOk, Claim, WellFormed, Decide, ReadReply,
         Exchanged, WrongCard, EndsUp, AcceptedCard;
    UnusedFacts(s, d, cmd);
    AcceptedFields(cmd);
    ArriveFirst(cfg, timely, s, d, cmd);
    LedgerIsOk(cfg, s);
    SideLedger(s);
    BankRejectsCard(s.ledger, s.bankNow, cfg.holdFor, cmd.card, cmd.amount, d);
    var p, db := StartClaimed(cfg, s, d, cmd);
    var r := Asks(cfg, s, d, cmd).value;
    SmoothExchange(SideOf(s), cfg.holdFor, CallOf(cmd, p), s, d);
    SmoothIsPrompt(s, d);
    RefusedReleases(AuthorizeOp, p, InvalidInput, s.now);
    RanReleases(s, SideOf(s), cfg.holdFor, cmd, r, Smoothly(s, d), db, false, p, BankSide(s.ledger, SideOf(s).replies),
                BankFailed(InvalidInput), InvalidInput);
    s' := RunsSmoothly(cfg, timely, s, d, cmd);
    var end := Ran(s.db, SideOf(s), cfg.holdFor, cmd, r, Smoothly(s, d));
    LetGoThere(cfg, s, s', d, cmd, end, db, p, RequestKey(r), db.records[RequestKey(r)], InvalidInput);
    SideLedger(s');
  }

  /** The row still asks for what the bank has already given: its hold is used, or its capture refunded. */
  predicate Spent(s: State, cmd: Command)
    requires cmd.Capture? || cmd.Void? || cmd.Refund?
  {
    && cmd.paymentId in s.db.payments
    && var row := s.db.payments[cmd.paymentId];
       if cmd.Refund? then row.status == Captured && Ref(row.captureId, RefundTxn) in s.ledger.index
       else row.status == Authorized && IsUsed(s.ledger, row.holdId)
  }

  lemma GivenReadsAsConflict(op: BankOp, code: Code)
    requires code == AuthAlreadyUsed || code == AlreadyRefunded
    requires op == BankCapture || op == BankVoid || op == BankRefund
    ensures ReadReply(op, Refused(code)) == BankFailed(BankStateConflict)
  {
  }

  lemma BankHasGiven(cfg: Config, s: State, d: Draw, cmd: Command, p: Payment)
    requires (cmd.Capture? || cmd.Void? || cmd.Refund?) && Spent(s, cmd)
    requires Behind(s.db.payments[cmd.paymentId], p) && Inv(cfg, s)
    ensures var (l', reply) := Handle(s.ledger, s.bankNow, d.today, cfg.holdFor, CallOf(cmd, p).request, d.newTxn);
            l' == s.ledger && ReadReply(BankOpOf(OpOf(cmd)), reply) == BankFailed(BankStateConflict)
  {
    hide Inv, Handle, LedgerOk, Behind, Agrees, ReadReply, IsUsed;
    LedgerIsOk(cfg, s);
    var row := s.db.payments[cmd.paymentId];
    match cmd
    case Capture(_, _) =>
      HoldKnown(cfg, s, cmd.paymentId);
      BehindHold(row, p);
      CaptureVerdict(s.ledger, s.bankNow, d.today, cfg.holdFor, row.holdId, row.amount, d.newTxn);
      GivenReadsAsConflict(BankCapture, AuthAlreadyUsed);
    case Void(_, _) =>
      HoldKnown(cfg, s, cmd.paymentId);
      BehindHold(row, p);
      VoidVerdict(s.ledger, s.bankNow, d.today, cfg.holdFor, row.holdId, d.newTxn);
      GivenReadsAsConflict(BankVoid, AuthAlreadyUsed);
    case Refund(_, _) =>
      CaptureOfRow(cfg, s, cmd.paymentId);
      BehindCapture(row, p);
      RefundVerdict(s.ledger, s.bankNow, d.today, cfg.holdFor, row.captureId, row.amount, d.newTxn);
      GivenReadsAsConflict(BankRefund, AlreadyRefunded);
  }

  lemma HoldKnown(cfg: Config, s: State, id: string)
    requires id in s.db.payments && s.db.payments[id].status == Authorized && Inv(cfg, s)
    ensures IsHold(s.ledger, s.db.payments[id].holdId)
  {
    hide Inv;
    RowAgrees(cfg, s, id);
  }

  lemma SpentByStatus(s: State, cmd: Command)
    requires (cmd.Capture? || cmd.Void? || cmd.Refund?) && Spent(s, cmd)
    ensures cmd.paymentId in s.db.payments && s.db.payments[cmd.paymentId].status == ExpectedStatus(OpOf(cmd))
  {
  }

  /**
   * A capture or void of a hold that is used at the bank, and a refund of a capture that is refunded there, whose first
   * reply is not found in the cache, is refused as a conflict with the bank's state: nothing moves and the key is free again.
   */
  lemma SpentIsRefused(cfg: Config, timely: bool, s: State, d: Draw, cmd: Command) returns (s': State)
    requires ValidConfig(cfg) && CanReach(cfg, timely, s) && Unused(s, d, cmd) && (timely ==> 0 <= cfg.timeout)
    requires (cmd.Capture? || cmd.Void? || cmd.Refund?) && Spent(s, cmd)
    ensures Leads(cfg, timely, s, s') && LetGo(s, s', d.worker, cmd.paymentId, BankStateConflict) && s'.ledger == s.ledger
    ensures s'.db.payments[cmd.paymentId].status == s.db.payments[cmd.paymentId].status
  {
    hide Inv, ValidConfig, CanReach, Leads, Accepted, Enabled, Ran, RequestOf, Clean, IsPaymentId, Punctual, Reads, NewWorker,
         Unused, Drawn, Asks, SideOf, WithWorker, Smoothly, LetGo, Handle, LedgerOk, Claim, WellFormed, Decide, ReadReply,
         Exchanged, Spent, EndsUp, Behind, Agrees, Claimable;
    UnusedFacts(s, d, cmd);
    ArriveFirst(cfg, timely, s, d, cmd);
    SideLedger(s);
    SpentByStatus(s, cmd);
    ByStatus(cfg, s, d, cmd);
    var p, db := ExistingClaimed(cfg, s, d, cmd);
    BankHasGiven(cfg, s, d, cmd, p);
    CallRoute(cmd, p);
    var r := Asks(cfg, s, d, cmd).value;
    SmoothExchange(SideOf(s), cfg.holdFor, CallOf(cmd, p), s, d);
    SmoothIsPrompt(s, d);
    RefusedReleases(OpOf(cmd), p, BankStateConflict, s.now);
    RanReleases(s, SideOf(s), cfg.holdFor, cmd, r, Smoothly(s, d), db, false, p, BankSide(s.ledger, SideOf(s).replies),
                BankFailed(BankStateConflict), BankStateConflict);
    s' := RunsSmoothly(cfg, timely, s, d, cmd);
    var end := Ran(s.db, SideOf(s), cfg.holdFor, cmd, r, Smoothly(s, d));
    LetGoThere(cfg, s, s', d, cmd, end, db, p, RequestKey(r), db.records[RequestKey(r)], BankStateConflict);
    SideLedger(s');
  }

  // ---- Unknown, after the authorization ----

  /** A command on an existing payment that may start. */
  predicate MayStart(cfg: Config, s: State, cmd: Command)
    requires Accepted(cmd) && !cmd.Authorize?
  {
    if cmd.Retry? then Retryable(cfg, s, cmd)
    else cmd.paymentId in s.db.payments && s.db.payments[cmd.paymentId].status == ExpectedStatus(OpOf(cmd))
  }

  lemma MayStartClaims(cfg: Config, s: State, d: Draw, cmd: Command)
    requires Accepted(cmd) && !cmd.Authorize? && MayStart(cfg, s, cmd)
    ensures var s1 := WithWorker(cfg, s, d, cmd); s1.workers[d.worker].cmd == cmd && Claimable(s1, d.worker)
  {
    hide Accepted, CardText, WithWorker, Claimable;
    if cmd.Retry? { ByCard(cfg, s, d, cmd); } else { ByStatus(cfg, s, d, cmd); }
  }

  /**
   * Every other command that ends without word from the bank is released: the payment keeps its status, the caller is told
   * that the outcome is unknown, and the key is free for another attempt, which will carry the same pinned operation key.
   */
  lemma UnknownReleases(cfg: Config, timely: bool, s: State, d: Draw, cmd: Command, x: Exchange) returns (s': State)
    requires ValidConfig(cfg) && CanReach(cfg, timely, s) && Unused(s, d, cmd) && (timely ==> 0 <= cfg.timeout)
    requires !cmd.Authorize? && MayStart(cfg, s, cmd) && EndsUnknown(x) && Prompt(s, Meanwhile(s, x))
    ensures Leads(cfg, timely, s, s') && LetGo(s, s', d.worker, cmd.paymentId, LastKind(x))
    ensures LastKind(x) == BankTimeout || LastKind(x) == BankUnavailable
    ensures cmd.paymentId in s.db.payments
    ensures s'.db.payments[cmd.paymentId].status == s.db.payments[cmd.paymentId].status
    ensures KeyFor(OpOf(cmd), s'.db.payments[cmd.paymentId]) != ""
  {
    hide Inv, ValidConfig, CanReach, Leads, Accepted, Enabled, Ran, RequestOf, Clean, IsPaymentId, Punctual, Reads, NewWorker,
         Unused, Drawn, Asks, SideOf, WithWorker, LetGo, Claim, WellFormed, Decide, Exchanged, EndsUp, Behind, Agrees,
         Claimable, MayStart, EndsUnknown, LastKind, Prompt, CallOf;
    UnusedFacts(s, d, cmd);
    ArriveFirst(cfg, timely, s, d, cmd);
    MayStartClaims(cfg, s, d, cmd);
    var p, db := ExistingClaimed(cfg, s, d, cmd);
    var r := Asks(cfg, s, d, cmd).value;
    var kind := LastKind(x);
    var b' := UnknownExchange(SideOf(s), cfg.holdFor, CallOf(cmd, p), x);
    LastKindIsUnknown(x);
    NotAuthorizing(cmd);
    RefusedReleases(OpOf(cmd), p, kind, s.now);
    RanReleases(s, SideOf(s), cfg.holdFor, cmd, r, Meanwhile(s, x), db, false, p, b', BankFailed(kind), kind);
    s' := RunsUndisturbed(cfg, timely, s, d, cmd, Meanwhile(s, x));
    var end := Ran(s.db, SideOf(s), cfg.holdFor, cmd, r, Meanwhile(s, x));
    LetGoThere(cfg, s, s', d, cmd, end, db, p, RequestKey(r), db.records[RequestKey(r)], kind);
  }

  lemma NotAuthorizing(cmd: Command)
    requires !cmd.Authorize?
    ensures OpOf(cmd) != AuthorizeOp
  {
  }

  // ---- Granted at the second attempt ----

  /** The first attempt is captured and remembered but not heard of; the second finds the remembered reply. */
  function LostOnce(s: State, d: Draw, kind: ErrorKind): Exchange {
    var v := Passage(s.bankNow, d.today, d.newTxn, Run, false, false);
    Exchange(Unheard(v, kind), None, Heard(v))
  }

  lemma LostOnceIsPrompt(s: State, d: Draw, kind: ErrorKind)
    requires Clean(d.newTxn) && IsRetryable(kind)
    ensures Prompt(s, Meanwhile(s, LostOnce(s, d, kind)))
  {
    hide Clean;
  }

  lemma LostOnceAnswers(b: BankSide, holdFor: int, call: Call, s: State, d: Draw, kind: ErrorKind)
    requires IsRetryable(kind) && call.key != "" && CacheKey(call.key, call.op) !in b.replies
    ensures var (l', reply) := Handle(b.ledger, s.bankNow, d.today, holdFor, call.request, d.newTxn);
            IsSuccess(reply) ==>
              Exchanged(b, holdFor, call, LostOnce(s, d, kind)) ==
              (BankSide(l', b.replies[CacheKey(call.key, call.op) := reply]), ReadReply(call.op, reply))
  {
    hide Handle, ReadReply;
  }

  /** While a payment's hold is open, no capture of it is remembered under the key that a capture would carry. */
  lemma OpenIsNotRemembered(cfg: Config, s: State, id: string, key: string)
    requires UnusedHold(s, id) && Inv(cfg, s)
    requires IsPinned(s.pins, id, BankCapture, key) || key !in s.issued
    ensures CacheKey(key, BankCapture) !in s.cache
  {
    hide Inv, Agrees;
    var k := CacheKey(key, BankCapture);
    if k in s.cache {
      var t := RememberedCapture(cfg, s, id, key);
      LedgerIsOk(cfg, s);
      UnusedHoldOfRow(cfg, s, id);
      ActiveIsUnused(s.ledger, s.db.payments[id].holdId);
      EntryOfPayment(cfg, s, t);
      UseShows(cfg, s, t);
    }
  }

  lemma RememberedCapture(cfg: Config, s: State, id: string, key: string) returns (t: string)
    requires CacheKey(key, BankCapture) in s.cache && Inv(cfg, s)
    requires IsPinned(s.pins, id, BankCapture, key) || key !in s.issued
    ensures MadeFor(BooksOf(s), t, CaptureTxn, id)
  {
    hide Rows, Pinned, PinNames, Calls, LedgerOk, Origins, Replies, RowsAgree, WorkersAgree, Identities, Workers, Records,
         Trails, BodyFits, Lapsed, Clean, MadeFor;
    var k := CacheKey(key, BankCapture);
    EntryAt(BooksOf(s), s.stages, s.cache, k);
    var c := s.cache[k].call;
    CallAt(cfg, s.db.payments, s.pins, s.calls, c);
    PinsTell(s.db.payments, s.pins, s.issued, PinKey(s.calls[c].paymentId, BankCapture), PinKey(id, BankCapture));
    t := s.cache[k].reply.captureId;
  }

  lemma PinsTell(payments: map<string, Payment>, pins: map<PinKey, string>, issued: set<string>, j: PinKey, k: PinKey)
    requires PinNames(payments, pins, issued) && j in pins
    ensures pins[j] in issued && (k in pins && pins[j] == pins[k] ==> j == k)
  {
  }

  /** The key that a capture carries is the pinned one, or new. */
  lemma CaptureKeyKnown(cfg: Config, s: State, d: Draw, cmd: Command)
    requires cmd.Capture? && Accepted(cmd) && UnusedHold(s, cmd.paymentId) && Fresh(s, d.newKey) && Inv(cfg, s)
    ensures var row := s.db.payments[cmd.paymentId];
            var r := EnsureKey(CaptureOp, row, d.newKey);
            && r.Ok? && (IsPinned(s.pins, cmd.paymentId, BankCapture, r.value.captureKey) || r.value.captureKey !in s.issued)
  {
    hide Inv, KeysPinned, NoKeyLost, WellFormed, Clean, Accepted;
    var row := s.db.payments[cmd.paymentId];
    RowKeys(cfg, s, cmd.paymentId);
    EnsuredOk(CaptureOp, row, d.newKey);
    if row.captureKey != "" { CapturePinned(s.pins, row); }
    hide EnsureKey;
  }

  lemma RowKeys(cfg: Config, s: State, id: string)
    requires id in s.db.payments && Inv(cfg, s)
    ensures KeysPinned(s.pins, s.db.payments[id]) && WellFormed(s.db.payments[id]) && s.db.payments[id].id == id
  {
    hide Rows, Pinned, PinNames, Calls, LedgerOk, Origins, Replies, RowsAgree, WorkersAgree, Identities, Workers, Records,
         Trails, KeysPinned, NoKeyLost, WellFormed;
    RowAt(s.db.payments, id);
    PinAt(s.db.payments, s.pins, id);
  }

  lemma CapturePinned(pins: map<PinKey, string>, p: Payment)
    requires KeysPinned(pins, p) && p.captureKey != ""
    ensures IsPinned(pins, p.id, BankCapture, p.captureKey)
  {
  }

  lemma ClaimedKey(cfg: Config, s: State, d: Draw, cmd: Command, db: Db, p: Payment)
    requires cmd.Capture? && Accepted(cmd) && cmd.paymentId in s.db.payments
    requires s.db.payments[cmd.paymentId].status == Authorized && RecordKey(CaptureOp, cmd.key) !in s.db.records
    requires Asks(cfg, s, d, cmd).Ok? && Claim(s.db, Asks(cfg, s, d, cmd).value) == (db, Claimed(p, false))
    ensures EnsureKey(CaptureOp, s.db.payments[cmd.paymentId], d.newKey) == Ok(p)
  {
    hide EnsureKey, Accepted, RequestText, CardText, Recover;
  }

  /**
   * A capture whose first reply is lost on the way back is not a second debit: the second attempt carries the same key, finds
   * the reply remembered, and the row names the one capture that the first attempt made.
   */
  lemma LostReplyIsRetried(cfg: Config, timely: bool, s: State, d: Draw, cmd: Command, kind: ErrorKind) returns (s': State)
    requires ValidConfig(cfg) && CanReach(cfg, timely, s) && Unused(s, d, cmd) && (timely ==> 0 <= cfg.timeout)
    requires cmd.Capture? && OpenHold(s, cmd.paymentId) && IsRetryable(kind)
    ensures Leads(cfg, timely, s, s') && cmd.paymentId in s'.db.payments
    ensures var row := s'.db.payments[cmd.paymentId];
            row.status == Captured && row.captureId == d.newTxn && Told(s', d.worker, row)
    ensures s'.ledger.txns.Keys == s.ledger.txns.Keys + {d.newTxn}
    ensures var hold := s.ledger.txns[s.db.payments[cmd.paymentId].holdId];
            && hold.account in s.ledger.accounts && hold.account in s'.ledger.accounts
            && s'.ledger.accounts[hold.account].balance == s.ledger.accounts[hold.account].balance - hold.amount
  {
    hide Inv, ValidConfig, CanReach, Leads, Accepted, Enabled, Ran, RequestOf, Handle, LedgerOk, Clean, IsPaymentId, Punctual,
         Reads, NewWorker, Unused, Drawn, Asks, SideOf, WithWorker, Told, Claim, WellFormed, Agrees, Behind, Claimable,
         SameIdentity, Decide, ReadReply, Exchanged, Prompt, LostOnce;
    var row := s.db.payments[cmd.paymentId];
    UnusedFacts(s, d, cmd);
    ArriveFirst(cfg, timely, s, d, cmd);
    LedgerIsOk(cfg, s);
    SideLedger(s);
    HoldOfRow(cfg, s, cmd.paymentId);
    OpenHoldCaptures(s.ledger, s.bankNow, cfg.holdFor, row.holdId, row.amount, d);
    ByStatus(cfg, s, d, cmd);
    var p, db := ExistingClaimed(cfg, s, d, cmd);
    BehindHold(row, p);
    NotRememberedYet(cfg, s, d, cmd, db, p);
    var r := Asks(cfg, s, d, cmd).value;
    var after := CapturedWith(p, d.newTxn, s.now);
    LostOnceAnswers(SideOf(s), cfg.holdFor, CallOf(cmd, p), s, d, kind);
    LostOnceIsPrompt(s, d, kind);
    var b' := Exchanged(SideOf(s), cfg.holdFor, CallOf(cmd, p), LostOnce(s, d, kind)).0;
    RanPersists(s, SideOf(s), cfg.holdFor, cmd, r, Meanwhile(s, LostOnce(s, d, kind)), db, false, p, b', CaptureDone(d.newTxn),
                after);
    s' := RunsUndisturbed(cfg, timely, s, d, cmd, Meanwhile(s, LostOnce(s, d, kind)));
    var end := Ran(s.db, SideOf(s), cfg.holdFor, cmd, r, Meanwhile(s, LostOnce(s, d, kind)));
    ToldThere(cfg, s, s', d, cmd, end, after);
    IdentityFields(p, after);
    SideLedger(s');
  }

  lemma NotRememberedYet(cfg: Config, s: State, d: Draw, cmd: Command, db: Db, p: Payment)
    requires cmd.Capture? && OpenHold(s, cmd.paymentId) && Unused(s, d, cmd)
    requires Asks(cfg, s, d, cmd).Ok? && Claim(s.db, Asks(cfg, s, d, cmd).value) == (db, Claimed(p, false)) && Inv(cfg, s)
    ensures CacheKey(CallOf(cmd, p).key, BankCapture) !in SideOf(s).replies
  {
    hide Inv, Claim, Asks, Accepted, Clean, IsPaymentId;
    ClaimedKey(cfg, s, d, cmd, db, p);
    CaptureKeyKnown(cfg, s, d, cmd);
    OpenIsNotRemembered(cfg, s, cmd.paymentId, p.captureKey);
  }
}
