/**
 * The payment command protocol as a transition system: the gateway's two tables, any number of request workers,
 * and the bank with its ledger and its response cache. Every store method, every bank transaction and every cache
 * access is one step, and steps of different workers and calls interleave freely. A worker that is never scheduled
 * again has crashed or stalled; a call that is never scheduled again was lost.
 */
module Protocol {
  import opened Text
  import opened Domain
  import opened Errors
  import opened Commands
  import opened Store
  import opened Bank
  import opened Client

  /** `mac` is the keyed digest behind every fingerprint; `accounts` are the bank's opening accounts. */
  datatype Config = Config(mac: string -> string, stuckAfter: int, timeout: int, holdFor: int,
                           accounts: map<string, Account>)

  /** The digest is taken to be collision-free and to render as visible text. */
  ghost predicate ValidConfig(cfg: Config) {
    && (forall a: string, b: string {:trigger cfg.mac(a), cfg.mac(b)} :: cfg.mac(a) == cfg.mac(b) ==> a == b)
    && (forall a: string {:trigger cfg.mac(a)} :: Clean(cfg.mac(a)))
    && (forall n {:trigger cfg.accounts[n]} :: n in cfg.accounts ==>
          0 <= cfg.accounts[n].balance == cfg.accounts[n].available)
  }

  // ---- Workers ----

  /** Where a worker is in its command. `before` is its claim-time snapshot of the payment. */
  datatype Phase =
    | Ready
    | Calling(before: Payment, attempts: nat)
    | Awaiting(before: Payment, attempts: nat, call: nat)
    | Completing(before: Payment, after: Payment, failure: Option<ErrorKind>)
    | Releasing(before: Payment, kind: ErrorKind)
    | Finished(outcome: Outcome)

  datatype Worker = Worker(cmd: Command, fingerprint: string, cardFingerprint: string, start: Time, phase: Phase)

  function NewWorker(cfg: Config, cmd: Command, now: Time): Worker
    requires Accepted(cmd)
  {
    Worker(cmd, cfg.mac(RequestText(cmd)),
           if cmd.Authorize? || cmd.Retry? then cfg.mac(CardText(cmd.card)) else "", now, Ready)
  }

  function KeyOf(w: Worker): RecordKey {
    RecordKey(OpOf(w.cmd), w.cmd.key)
  }

  /** A worker between a successful claim and the end of its command. */
  predicate Holds(w: Worker) {
    !w.phase.Ready? && !w.phase.Finished?
  }

  function BankOpOf(op: Op): BankOp {
    match op
    case AuthorizeOp => BankAuthorize
    case RetryOp => BankAuthorize
    case CaptureOp => BankCapture
    case VoidOp => BankVoid
    case RefundOp => BankRefund
  }

  /** The claim request of a worker; names that the generators drew are passed in. */
  function RequestOf(cfg: Config, w: Worker, at: Time, newId: string, newKey: string): Result<ClaimRequest> {
    match w.cmd
    case Authorize(orderId, customerId, amount, _, key) =>
      (match NewPendingPayment(newId, orderId, customerId, amount, newKey, w.cardFingerprint, at)
       case Err(e) => Err(e)
       case Ok(p) => Ok(StartRequest(key, w.fingerprint, p, at, cfg.stuckAfter)))
    case cmd =>
      Ok(ExistingRequest(OpOf(cmd), cmd.key, w.fingerprint, cmd.paymentId, newKey, w.cardFingerprint, at,
                         cfg.stuckAfter))
  }

  // ---- Bank calls ----

  datatype Call = Call(paymentId: string, op: BankOp, key: string, request: Request)

  /** The call a worker makes for its command, from its snapshot. */
  function CallOf(cmd: Command, p: Payment): Call {
    var request := match cmd
      case Authorize(_, _, _, card, _) => AuthorizeRequest(card.number, card.cvv, card.month, card.year, p.amount)
      case Retry(_, card, _) => AuthorizeRequest(card.number, card.cvv, card.month, card.year, p.amount)
      case Capture(_, _) => CaptureRequest(p.holdId, p.amount)
      case Void(_, _) => VoidRequest(p.holdId)
      case Refund(_, _) => RefundRequest(p.captureId, p.amount);
    Call(p.id, BankOpOf(OpOf(cmd)), KeyFor(OpOf(cmd), p), request)
  }

  /** How far the bank is with a call. A reply may reach the gateway before it is cached. */
  datatype Stage = Sent | Missed | Executed(reply: Reply) | Answered(reply: Reply)

  predicate HasReply(s: Stage) {
    s.Executed? || s.Answered?
  }

  datatype CacheKey = CacheKey(key: string, op: BankOp)
  datatype Entry = Entry(reply: Reply, call: nat)

  // ---- State ----

  /** A bank operation of a payment. */
  datatype PinKey = PinKey(paymentId: string, op: BankOp)

  datatype Lease = Lease(worker: nat, at: Time)
  datatype Move = Move(worker: nat, source: Status, target: Status)

  /**
   * The first line of fields is the gateway, the second the bank. `issued` holds the names drawn so far, which new
   * names must avoid. The rest is history that no step reads: the operation key first pinned for each bank operation,
   * the call behind each ledger entry, the owners of each current idempotency record, and the persisted status changes
   * of each payment.
   */
  datatype State = State(
    now: Time, db: Db, workers: map<nat, Worker>,
    bankNow: Time, ledger: Ledger, cache: map<CacheKey, Entry>, calls: seq<Call>, stages: seq<Stage>,
    issued: set<string>, pins: map<PinKey, string>, origin: map<string, nat>,
    leases: map<RecordKey, seq<Lease>>, trail: map<string, seq<Move>>)

  ghost predicate Init(cfg: Config, s: State) {
    && s.now > NO_TIME
    && s.db == Db(map[], map[]) && s.workers == map[]
    && s.ledger == Ledger(cfg.accounts, map[], [], map[]) && s.cache == map[] && s.calls == [] && s.stages == []
    && s.issued == {} && s.pins == map[] && s.origin == map[] && s.leases == map[] && s.trail == map[]
  }

  // ---- Steps ----

  /** What the bank does with a call that was not answered from the cache. */
  datatype Execution = Chaos | Run | RunUnacknowledged

  datatype Step =
    | Tick(now: Time)
    | Arrive(worker: nat, cmd: Command)
    | ClaimStep(worker: nat, at: Time, newId: string, newKey: string)
    | Send(worker: nat)
    | Receive(worker: nat, at: Time, retry: bool)
    | NoReply(worker: nat, kind: ErrorKind, at: Time, retry: bool)
    | CompleteStep(worker: nat, at: Time, acked: bool)
    | ReleaseStep(worker: nat, landed: bool)
    | Abort(worker: nat)
    | CleanupStep(at: Time)
    | BankTick(now: Time)
    | Lookup(call: nat, hit: bool)
    | Execute(call: nat, how: Execution, today: YearMonth, newTxn: string)
    | CacheReply(call: nat)
    | Evict(keys: set<CacheKey>)

  predicate Fresh(s: State, name: string) {
    name !in s.issued && Clean(name)
  }

  /** When a step may happen. Clock readings lie between the worker's start and the present. */
  predicate Enabled(s: State, step: Step) {
    match step
    case Tick(now) => s.now <= now
    case Arrive(w, cmd) => w !in s.workers && Accepted(cmd)
    case ClaimStep(w, at, newId, newKey) =>
      && w in s.workers && s.workers[w].phase.Ready? && s.workers[w].start <= at <= s.now
      && Fresh(s, newId) && IsPaymentId(newId) && Fresh(s, newKey) && newId != newKey
    case Send(w) => w in s.workers && s.workers[w].phase.Calling?
    case Receive(w, at, _) =>
      && w in s.workers && s.workers[w].phase.Awaiting? && s.workers[w].start <= at <= s.now
      && s.workers[w].phase.call < |s.stages| && HasReply(s.stages[s.workers[w].phase.call])
    case NoReply(w, kind, at, _) =>
      && w in s.workers && s.workers[w].phase.Awaiting? && s.workers[w].start <= at <= s.now
      && IsRetryable(kind)
    case CompleteStep(w, at, _) =>
      w in s.workers && s.workers[w].phase.Completing? && s.workers[w].start <= at <= s.now
    case ReleaseStep(w, _) => w in s.workers && s.workers[w].phase.Releasing?
    case Abort(w) => w in s.workers && (s.workers[w].phase.Ready? || s.workers[w].phase.Completing?)
    case CleanupStep(at) => at <= s.now
    case BankTick(now) => s.bankNow <= now
    case Lookup(c, hit) =>
      && c < |s.stages| && c < |s.calls| && s.stages[c].Sent?
      && (hit ==> CacheKey(s.calls[c].key, s.calls[c].op) in s.cache)
    case Execute(c, _, _, newTxn) => c < |s.stages| && c < |s.calls| && s.stages[c].Missed? && Clean(newTxn)
    case CacheReply(c) =>
      c < |s.stages| && c < |s.calls| && s.stages[c].Executed? && IsSuccess(s.stages[c].reply)
    case Evict(_) => true
  }

  function SetPhase(s: State, w: nat, p: Phase): State
    requires w in s.workers
  {
    s.(workers := s.workers[w := s.workers[w].(phase := p)])
  }

  // ---- Worker decisions ----

  function Transitioned(before: Payment, r: Result<Payment>, failure: Option<ErrorKind>): Phase {
    match r
    case Ok(after) => Completing(before, after, failure)
    case Err(_) => Releasing(before, Internal)
  }

  /** What a command does with the bank's final answer: a transition to persist, or a release. */
  function Decide(op: Op, p: Payment, result: BankResult, at: Time): Phase {
    match op
    case AuthorizeOp =>
      (match result
       case Authorised(holdId, expiresAt) => Transitioned(p, MarkAuthorized(p, holdId, expiresAt, at), None)
       case DeclinedBy(reason) => Transitioned(p, MarkDeclined(p, reason, at), None)
       case BankFailed(kind) => if IsRetryable(kind) then Completing(p, p, None) else Releasing(p, kind)
       case _ => Releasing(p, Internal))
    case RetryOp =>
      (match result
       case Authorised(holdId, expiresAt) => Transitioned(p, MarkAuthorized(p, holdId, expiresAt, at), None)
       case DeclinedBy(reason) => Transitioned(p, MarkDeclined(p, reason, at), None)
       case BankFailed(kind) => Releasing(p, kind)
       case _ => Releasing(p, Internal))
    case CaptureOp =>
      (match result
       case CaptureDone(id) => Transitioned(p, MarkCaptured(p, id, at), None)
       case BankFailed(kind) =>
         if kind == AuthorizationExpired then Transitioned(p, MarkExpired(p, at), Some(AuthorizationExpired))
         else Releasing(p, kind)
       case _ => Releasing(p, Internal))
    case VoidOp =>
      (match result
       case VoidDone(id) => Transitioned(p, MarkVoided(p, id, at), None)
       case BankFailed(kind) =>
         if kind == AuthorizationExpired then Transitioned(p, MarkExpired(p, at), Some(AuthorizationExpired))
         else Releasing(p, kind)
       case _ => Releasing(p, Internal))
    case RefundOp =>
      (match result
       case RefundDone(id) => Transitioned(p, MarkRefunded(p, id, at), None)
       case BankFailed(kind) => Releasing(p, kind)
       case _ => Releasing(p, Internal))
  }

  /** The client retries an unknown outcome once, unless the request's context ends first. */
  function AfterAnswer(w: Worker, result: BankResult, at: Time, retry: bool): Phase
    requires w.phase.Awaiting?
  {
    if WorthRetrying(result) && w.phase.attempts == 1 && retry then Calling(w.phase.before, w.phase.attempts)
    else Decide(OpOf(w.cmd), w.phase.before, result, at)
  }

  function HeldBy(w: Worker, p: Payment): HeldClaim {
    HeldClaim(OpOf(w.cmd), w.cmd.key, w.fingerprint, p)
  }

  // ---- Effects ----

  /** A claim that succeeded, with its place in the history. */
  function Holding(s: State, w: nat, at: Time, db': Db, p: Payment, recovered: bool): State
    requires w in s.workers
  {
    var worker := s.workers[w];
    var k := KeyOf(worker);
    var earlier := if recovered && k in s.leases then s.leases[k] else [];
    SetPhase(s, w, Calling(p, 0)).(
      db := db',
      pins := s.pins[PinKey(p.id, BankOpOf(OpOf(worker.cmd))) := KeyFor(OpOf(worker.cmd), p)],
      leases := s.leases[k := earlier + [Lease(w, at)]],
      trail := if p.id in s.trail then s.trail else s.trail[p.id := []])
  }

  function Claiming(cfg: Config, s: State, w: nat, at: Time, newId: string, newKey: string): State
    requires w in s.workers
  {
    var worker := s.workers[w];
    var s0 := s.(issued := s.issued + {newId, newKey});
    match RequestOf(cfg, worker, at, newId, newKey)
    case Err(_) => SetPhase(s0, w, Finished(Failure(Internal)))
    case Ok(request) =>
      var (db', outcome) := Claim(s.db, request);
      match outcome
      case ClaimFailed(kind) => SetPhase(s0, w, Finished(Failure(kind)))
      case Replayed(result) => SetPhase(s0, w, Finished(Replay(result)))
      case Claimed(p, recovered) => Holding(s0, w, at, db', p, recovered)
  }

  function CompletionResult(w: Worker): CommandResult
    requires w.phase.Completing?
  {
    CommandResult(ResultOf(w.phase.after), w.phase.failure)
  }

  /** A completion whose commit is not acknowledged has happened, but its caller sees an internal error. */
  function Finishing(s: State, w: nat, at: Time, acked: bool): State
    requires w in s.workers && s.workers[w].phase.Completing?
  {
    var worker := s.workers[w];
    var after := worker.phase.after;
    var (db', error) := Complete(s.db, HeldBy(worker, after), CompletionResult(worker), at);
    match error
    case Some(kind) => SetPhase(s, w, Finished(Failure(kind)))
    case None =>
      var moves := if after.id in s.trail then s.trail[after.id] else [];
      SetPhase(s, w, Finished(if acked then Replay(CompletionResult(worker)) else Failure(Internal))).(
        db := db',
        trail := if worker.phase.before.status == after.status then s.trail
                 else s.trail[after.id := moves + [Move(w, worker.phase.before.status, after.status)]])
  }

  function LettingGo(s: State, w: nat): State
    requires w in s.workers && s.workers[w].phase.Releasing?
  {
    var worker := s.workers[w];
    var db' := Release(s.db, HeldBy(worker, worker.phase.before));
    SetPhase(s, w, Finished(Failure(worker.phase.kind))).(
      db := db',
      leases := if KeyOf(worker) in db'.records then s.leases else s.leases - {KeyOf(worker)})
  }

  const REPLAY_WINDOW: int := 24 * 60 * 60 * 1_000_000_000

  function Executing(cfg: Config, s: State, c: nat, how: Execution, today: YearMonth, newTxn: string): State
    requires c < |s.stages| && c < |s.calls|
  {
    if how == Chaos then s.(stages := s.stages[c := Executed(ServerError)])
    else
      var (ledger', reply) := Handle(s.ledger, s.bankNow, today, cfg.holdFor, s.calls[c].request, newTxn);
      s.(ledger := ledger',
         stages := s.stages[c := Executed(if how == Run then reply else Refused(InternalError))],
         origin := if IsSuccess(reply) then s.origin[newTxn := c] else s.origin)
  }

  function Sending(s: State, w: nat): State
    requires w in s.workers && s.workers[w].phase.Calling?
  {
    var worker := s.workers[w];
    SetPhase(s, w, Awaiting(worker.phase.before, worker.phase.attempts + 1, |s.calls|)).(
      calls := s.calls + [CallOf(worker.cmd, worker.phase.before)], stages := s.stages + [Sent])
  }

  function Receiving(s: State, w: nat, at: Time, retry: bool): State
    requires w in s.workers && s.workers[w].phase.Awaiting?
    requires s.workers[w].phase.call < |s.stages| && HasReply(s.stages[s.workers[w].phase.call])
  {
    var worker := s.workers[w];
    var result := ReadReply(BankOpOf(OpOf(worker.cmd)), s.stages[worker.phase.call].reply);
    SetPhase(s, w, AfterAnswer(worker, result, at, retry))
  }

  function Cleaning(s: State, at: Time): State {
    var db' := Cleanup(s.db, at - REPLAY_WINDOW);
    s.(db := db', leases := map k | k in s.leases && k in db'.records :: s.leases[k])
  }

  /** The response cache is keyed by operation key and route. */
  function LookingUp(s: State, c: nat, hit: bool): State
    requires c < |s.stages| && c < |s.calls| && (hit ==> CacheKey(s.calls[c].key, s.calls[c].op) in s.cache)
  {
    s.(stages := s.stages[c := if hit then Answered(s.cache[CacheKey(s.calls[c].key, s.calls[c].op)].reply)
                               else Missed])
  }

  /** The first reply stored under a key stays. */
  function Caching(s: State, c: nat): State
    requires c < |s.stages| && c < |s.calls| && s.stages[c].Executed?
  {
    var k := CacheKey(s.calls[c].key, s.calls[c].op);
    s.(cache := if k in s.cache then s.cache else s.cache[k := Entry(s.stages[c].reply, c)],
       stages := s.stages[c := Answered(s.stages[c].reply)])
  }

  function Evicting(s: State, keys: set<CacheKey>): State {
    s.(cache := map k | k in s.cache && k !in keys :: s.cache[k])
  }

  function Effect(cfg: Config, s: State, step: Step): State
    requires Enabled(s, step)
  {
    match step
    case Tick(now) => s.(now := now)
    case Arrive(w, cmd) => s.(workers := s.workers[w := NewWorker(cfg, cmd, s.now)])
    case ClaimStep(w, at, newId, newKey) => Claiming(cfg, s, w, at, newId, newKey)
    case Send(w) => Sending(s, w)
    case Receive(w, at, retry) => Receiving(s, w, at, retry)
    case NoReply(w, kind, at, retry) => SetPhase(s, w, AfterAnswer(s.workers[w], BankFailed(kind), at, retry))
    case CompleteStep(w, at, acked) => Finishing(s, w, at, acked)
    case ReleaseStep(w, landed) =>
      if landed then LettingGo(s, w) else SetPhase(s, w, Finished(Failure(s.workers[w].phase.kind)))
    case Abort(w) => SetPhase(s, w, Finished(Failure(Internal)))
    case CleanupStep(at) => Cleaning(s, at)
    case BankTick(now) => s.(bankNow := now)
    case Lookup(c, hit) => LookingUp(s, c, hit)
    case Execute(c, how, today, newTxn) => Executing(cfg, s, c, how, today, newTxn)
    case CacheReply(c) => Caching(s, c)
    case Evict(keys) => Evicting(s, keys)
  }

  // ---- Runs ----

  ghost predicate Next(cfg: Config, s: State, s': State) {
    exists step: Step :: Enabled(s, step) && s' == Effect(cfg, s, step)
  }

  /** A sequence of states, each one step after the one before it. */
  ghost predicate Steps(cfg: Config, run: seq<State>) {
    |run| > 0 && forall i {:trigger StepAt(cfg, run, i)} :: StepAt(cfg, run, i)
  }

  ghost predicate StepAt(cfg: Config, run: seq<State>, i: int) {
    0 <= i < |run| - 1 ==> Next(cfg, run[i], run[i + 1])
  }

  ghost predicate IsRun(cfg: Config, run: seq<State>) {
    Steps(cfg, run) && Init(cfg, run[0])
  }
}
