/**
 * One command from end to end, as a value: the bank behind its response cache, the client that asks it at most twice,
 * and the command that claims, asks, decides and concludes.
 */
module Deliveries {
  import opened Domain
  import opened Errors
  import opened Commands
  import opened Store
  import opened Bank
  import opened Client
  import opened Protocol

  // ---- The bank's side ----

  /** The bank as a caller meets it: its ledger, and the replies it remembers. */
  datatype BankSide = BankSide(ledger: Ledger, replies: map<CacheKey, Reply>)

  /** How one delivery fares at the bank: its clock, calendar and new id, injected or commit failures, cache failures. */
  datatype Passage = Passage(now: Time, today: YearMonth, newTxn: string, how: Execution, lookupFails: bool,
                             storeFails: bool)

  /** What lies behind the cache: injected failures, then the services. */
  function Handled(l: Ledger, holdFor: int, request: Request, v: Passage): (Ledger, Reply) {
    if v.how == Chaos then (l, ServerError)
    else
      var (l', reply) := Handle(l, v.now, v.today, holdFor, request, v.newTxn);
      (l', if v.how == Run then reply else Refused(InternalError))
  }

  /** A delivery of a request under a key: answered from the cache, or run and, if it succeeds, remembered. */
  function Served(b: BankSide, holdFor: int, key: string, op: BankOp, request: Request, v: Passage): (BankSide, Reply) {
    var k := CacheKey(key, op);
    var caching := key != "" && !v.lookupFails;
    if caching && k in b.replies then (b, b.replies[k])
    else
      var (l', reply) := Handled(b.ledger, holdFor, request, v);
      var remembered := caching && IsSuccess(reply) && !v.storeFails && k !in b.replies;
      (BankSide(l', if remembered then b.replies[k := reply] else b.replies), reply)
  }

  /**
   * A keyed delivery whose success was remembered is repeated from memory, whatever the bank would do now, and changes
   * nothing; a delivery without a key, or with a cache that cannot be read, runs, and is neither answered from memory nor
   * remembered; nothing but a success is ever remembered, and only under a key that was free.
   */
  lemma DeliveriesRepeat(b: BankSide, holdFor: int, key: string, op: BankOp, request: Request, v: Passage, again: Passage)
    ensures var (b', reply) := Served(b, holdFor, key, op, request, v);
            && (key != "" && IsSuccess(reply) && !v.lookupFails && !v.storeFails && !again.lookupFails ==>
                  Served(b', holdFor, key, op, request, again) == (b', reply))
            && (key == "" || v.lookupFails ==>
                  (b'.ledger, reply) == Handled(b.ledger, holdFor, request, v) && b'.replies == b.replies)
            && (b'.replies != b.replies ==>
                  && IsSuccess(reply) && CacheKey(key, op) !in b.replies
                  && b'.replies == b.replies[CacheKey(key, op) := reply])
            && (v.how == Chaos ==> b' == b && (CacheKey(key, op) !in b.replies ==> reply == ServerError))
            && (v.how == RunUnacknowledged && CacheKey(key, op) !in b.replies ==>
                  && reply == Refused(InternalError) && b'.replies == b.replies
                  && b'.ledger == Handle(b.ledger, v.now, v.today, holdFor, request, v.newTxn).0)
  {
    hide Handle;
  }

  // ---- The client ----

  /** How one attempt of the client goes: never delivered, delivered but not heard of again, or answered. */
  datatype Turn = Undelivered(kind: ErrorKind) | Unheard(passage: Passage, kind: ErrorKind) | Heard(passage: Passage)

  function Attempted(b: BankSide, holdFor: int, call: Call, t: Turn): (BankSide, BankResult) {
    match t
    case Undelivered(kind) => (b, BankFailed(kind))
    case Unheard(v, kind) => (Served(b, holdFor, call.key, call.op, call.request, v).0, BankFailed(kind))
    case Heard(v) =>
      var (b', reply) := Served(b, holdFor, call.key, call.op, call.request, v);
      (b', ReadReply(call.op, reply))
  }

  /** A first attempt and, after an unknown outcome and a wait that nothing cut short, a second. */
  datatype Exchange = Exchange(first: Turn, cutShort: Option<ErrorKind>, second: Turn)

  function Exchanged(b: BankSide, holdFor: int, call: Call, x: Exchange): (BankSide, BankResult) {
    var (b', result) := Attempted(b, holdFor, call, x.first);
    if !WorthRetrying(result) then (b', result)
    else match x.cutShort
      case Some(kind) => (b', BankFailed(kind))
      case None => Attempted(b', holdFor, call, x.second)
  }

  // ---- The command ----

  /** What the outside world does to a command: the bank, the clock, the commit's acknowledgement, the release. */
  datatype World = World(exchange: Exchange, decidedAt: Time, completedAt: Time, acked: bool, releaseLands: bool)

  function Held(r: ClaimRequest, p: Payment): HeldClaim {
    HeldClaim(RequestOp(r), r.key, r.fingerprint, p)
  }

  /** The tail of a command, from the phase that the bank's answer led to. */
  function Concluded(db: Db, r: ClaimRequest, phase: Phase, world: World): (Db, Outcome) {
    match phase
    case Completing(_, after, failure) =>
      var result := CommandResult(ResultOf(after), failure);
      var (db', error) := Complete(db, Held(r, after), result, world.completedAt);
      (db', if error.Some? then Failure(error.value) else if world.acked then Replay(result) else Failure(Internal))
    case Releasing(before, kind) =>
      (if world.releaseLands then Release(db, Held(r, before)) else db, Failure(kind))
    case _ => (db, Failure(Internal))
  }

  /** A whole command that no other command disturbs. */
  function Ran(db: Db, b: BankSide, holdFor: int, cmd: Command, r: ClaimRequest, world: World): (Db, BankSide, Outcome) {
    var (db', claim) := Claim(db, r);
    match claim
    case ClaimFailed(kind) => (db', b, Failure(kind))
    case Replayed(result) => (db', b, Replay(result))
    case Claimed(p, _) =>
      var (b', answer) := Exchanged(b, holdFor, CallOf(cmd, p), world.exchange);
      var (db'', outcome) := Concluded(db', r, Decide(RequestOp(r), p, answer, world.decidedAt), world);
      (db'', b', outcome)
  }
}
