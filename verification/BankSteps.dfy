/** The bank's steps keep the protocol invariant. */
module BankSteps {
  import opened Text
  import opened Domain
  import opened Commands
  import opened Bank
  import opened Protocol
  import opened Invariants
  import opened Stability

  // ---- What a handled request leaves behind ----

  /** The entry that a granted request adds, and the reply that names it. */
  predicate Granted(request: Request, newId: string, t: Txn, reply: Reply) {
    match request
    case AuthorizeRequest(number, _, _, _, amount) =>
      t.kind == HoldTxn && t.account == number && t.amount == amount && reply == Approved(newId, t.expiresAt)
    case CaptureRequest(holdId, amount) =>
      t.kind == CaptureTxn && t.reference == holdId && t.amount == amount && reply == CaptureMade(newId)
    case VoidRequest(holdId) => t.kind == VoidTxn && t.reference == holdId && reply == VoidMade(newId)
    case RefundRequest(captureId, amount) =>
      t.kind == RefundTxn && t.reference == captureId && t.amount == amount && reply == RefundMade(newId)
  }

  /** A granted request adds exactly its entry; a refused one changes nothing. */
  lemma HandleGrants(l: Ledger, now: Time, today: YearMonth, holdFor: int, request: Request, newId: string)
    ensures var (l', reply) := Handle(l, now, today, holdFor, request, newId);
            if IsSuccess(reply) then
              && newId !in l.txns && l'.txns.Keys == l.txns.Keys + {newId}
              && Granted(request, newId, l'.txns[newId], reply)
            else l' == l && reply.Refused?
  {
    hide Bank.Authorize, Bank.Capture, Bank.Void, Bank.Refund;
    match request
    case AuthorizeRequest(number, cvv, _, _, amount) =>
      AuthorizeExtends(l, now, today, holdFor, number, cvv, amount, newId);
    case CaptureRequest(holdId, amount) => CaptureExtends(l, now, holdId, amount, newId);
    case VoidRequest(holdId) => VoidExtends(l, holdId, newId);
    case RefundRequest(captureId, amount) => RefundExtends(l, captureId, amount, newId);
  }

  /** The bank reports expiry only for the capture of a hold that is still active and past its time. */
  lemma HandleExpiry(l: Ledger, now: Time, today: YearMonth, holdFor: int, request: Request, newId: string)
    requires Handle(l, now, today, holdFor, request, newId).1 == Refused(AuthExpired)
    ensures request.CaptureRequest? && request.holdId in l.txns && l.txns[request.holdId].kind == HoldTxn
    ensures l.txns[request.holdId].status == ActiveTxn && now > l.txns[request.holdId].expiresAt
  {
    hide Luhn.Accepts, ValidCvv, ValidExpiry;
  }

  /** No request captures a hold after its time. */
  lemma HandleNeverCapturesLate(l: Ledger, now: Time, today: YearMonth, holdFor: int, request: Request,
                                newId: string, h: string)
    requires h in l.txns && now > l.txns[h].expiresAt && Ref(h, CaptureTxn) !in l.index
    ensures Ref(h, CaptureTxn) !in Handle(l, now, today, holdFor, request, newId).0.index
  {
    hide Bank.Authorize, Bank.Capture, Bank.Void, Bank.Refund;
    match request
    case AuthorizeRequest(number, cvv, _, _, amount) =>
      AuthorizeExtends(l, now, today, holdFor, number, cvv, amount, newId);
    case CaptureRequest(holdId, amount) => CaptureExtends(l, now, holdId, amount, newId);
    case VoidRequest(holdId) => VoidExtends(l, holdId, newId);
    case RefundRequest(captureId, amount) => RefundExtends(l, captureId, amount, newId);
  }

  // ---- Executing a call ----

  /** The books after the bank ran a call. */
  function BooksAfter(b: Books, ledger': Ledger, reply: Reply, newTxn: string, c: nat): Books {
    b.(ledger := ledger', origin := if IsSuccess(reply) then b.origin[newTxn := c] else b.origin)
  }

  lemma HandledBooksGrew(cfg: Config, b: Books, c: nat, today: YearMonth, newTxn: string)
    requires LedgerOk(b.ledger) && c < |b.calls| && b.origin.Keys == b.ledger.txns.Keys
    ensures var (l', reply) := Handle(b.ledger, b.now, today, cfg.holdFor, b.calls[c].request, newTxn);
            BooksGrew(b, BooksAfter(b, l', reply, newTxn, c)) && LedgerOk(l')
  {
    var request := b.calls[c].request;
    var (l', reply) := Handle(b.ledger, b.now, today, cfg.holdFor, request, newTxn);
    HandleKeepsLedger(b.ledger, b.now, today, cfg.holdFor, request, newTxn);
    HandleGrants(b.ledger, b.now, today, cfg.holdFor, request, newTxn);
    var b' := BooksAfter(b, l', reply, newTxn, c);
    forall h | Lapsed(b, h) ensures Lapsed(b', h) {
      HandleNeverCapturesLate(b.ledger, b.now, today, cfg.holdFor, request, newTxn, h);
      assert b'.ledger.txns[h].(status := b.ledger.txns[h].status) == b.ledger.txns[h];
    }
    hide Handle, LedgerOk, Granted;
  }

  /** A call's route matches its body. */
  predicate OpFits(call: Call) {
    match call.op
    case BankAuthorize => call.request.AuthorizeRequest?
    case BankCapture => call.request.CaptureRequest?
    case BankVoid => call.request.VoidRequest?
    case BankRefund => call.request.RefundRequest?
  }

  lemma OriginKept(txns: map<string, Txn>, txns': map<string, Txn>, origin: map<string, nat>,
                   origin': map<string, nat>, calls: seq<Call>, id: string)
    requires id in txns && OriginOk(txns, origin, calls, id)
    requires id in txns' && txns'[id].(status := txns[id].status) == txns[id]
    requires id in origin' && origin'[id] == origin[id]
    ensures OriginOk(txns', origin', calls, id)
  {
    hide Clean;
  }

  lemma GrantedProduced(call: Call, newId: string, t: Txn, reply: Reply)
    requires OpFits(call) && Granted(call.request, newId, t, reply)
    ensures Produced(call, t)
  {
  }

  lemma HandledOrigins(cfg: Config, b: Books, c: nat, today: YearMonth, newTxn: string)
    requires LedgerOk(b.ledger) && Origins(b.ledger.txns, b.origin, b.calls) && Clean(newTxn)
    requires c < |b.calls| && OpFits(b.calls[c])
    ensures var (l', reply) := Handle(b.ledger, b.now, today, cfg.holdFor, b.calls[c].request, newTxn);
            var b' := BooksAfter(b, l', reply, newTxn, c);
            Origins(l'.txns, b'.origin, b'.calls)
  {
    hide Handle, LedgerOk, Clean, Granted, Produced, OpFits;
    var request := b.calls[c].request;
    var (l', reply) := Handle(b.ledger, b.now, today, cfg.holdFor, request, newTxn);
    HandleKeepsLedger(b.ledger, b.now, today, cfg.holdFor, request, newTxn);
    HandleGrants(b.ledger, b.now, today, cfg.holdFor, request, newTxn);
    var b' := BooksAfter(b, l', reply, newTxn, c);
    if IsSuccess(reply) {
      GrantedProduced(b.calls[c], newTxn, l'.txns[newTxn], reply);
      forall id | id in l'.txns ensures OriginOk(l'.txns, b'.origin, b'.calls, id) {
        if id != newTxn {
          assert OriginOk(b.ledger.txns, b.origin, b.calls, id);
          OriginKept(b.ledger.txns, l'.txns, b.origin, b'.origin, b.calls, id);
        }
      }
    }
  }

  lemma HandledReply(cfg: Config, b: Books, c: nat, today: YearMonth, newTxn: string)
    requires LedgerOk(b.ledger) && c < |b.calls| && OpFits(b.calls[c]) && Clean(newTxn)
    ensures var (l', reply) := Handle(b.ledger, b.now, today, cfg.holdFor, b.calls[c].request, newTxn);
            ReplyOk(BooksAfter(b, l', reply, newTxn, c), b.calls[c], reply)
  {
    var request := b.calls[c].request;
    var (l', reply) := Handle(b.ledger, b.now, today, cfg.holdFor, request, newTxn);
    HandleGrants(b.ledger, b.now, today, cfg.holdFor, request, newTxn);
    if reply == Refused(AuthExpired) {
      HandleExpiry(b.ledger, b.now, today, cfg.holdFor, request, newTxn);
      assert TxnOk(b.ledger, request.holdId);
    }
    hide Handle, LedgerOk, Clean;
  }

  // ---- Replies survive ----

  /** All replies but one stay; the books may grow. */
  lemma RepliesUpdated(b: Books, b': Books, stages: seq<Stage>, c: nat, stage: Stage, cache: map<CacheKey, Entry>)
    requires Replies(b, stages, cache) && BooksGrew(b, b') && b'.calls == b.calls && c < |stages|
    requires HasReply(stage) ==> ReplyOk(b', b'.calls[c], stage.reply)
    ensures Replies(b', stages[c := stage], cache)
  {
    hide BooksGrew, ReplyOk, IsSuccess;
    var stages' := stages[c := stage];
    forall i | 0 <= i < |stages'| ensures StageOk(b', stages', i) {
      assert StageOk(b, stages, i);
      if i != c && HasReply(stages[i]) {
        ReplyStable(b, b', b.calls[i], stages[i].reply);
      }
    }
    forall k | k in cache ensures EntryOk(b', cache, k) {
      assert EntryOk(b, cache, k);
      EntryStable(b, b', cache, k);
    }
  }

  lemma BooksUnchanged(b: Books)
    ensures BooksGrew(b, b)
  {
  }

  /** A state in which only the bank's books, stages and cache moved. */
  lemma BankInv(cfg: Config, s: State, s': State)
    requires Inv(cfg, s)
    requires s' == s.(bankNow := s'.bankNow, ledger := s'.ledger, cache := s'.cache, stages := s'.stages,
                      origin := s'.origin)
    requires BooksGrew(BooksOf(s), BooksOf(s')) && LedgerOk(s'.ledger)
    requires Origins(s'.ledger.txns, s'.origin, s'.calls) && Replies(BooksOf(s'), s'.stages, s'.cache)
    ensures Inv(cfg, s')
  {
    hide Rows, Pinned, PinNames, Calls, LedgerOk, Origins, Replies, RowsAgree, WorkersAgree, Identities, Workers,
         Records, Trails, BooksGrew;
    RowsAgreeStable(BooksOf(s), BooksOf(s'), s.db.payments);
    WorkersAgreeStable(BooksOf(s), BooksOf(s'), s.workers);
  }

  lemma CallOkOpFits(cfg: Config, payments: map<string, Payment>, pins: map<PinKey, string>, call: Call)
    requires CallOk(cfg, payments, pins, call)
    ensures OpFits(call)
  {
    hide CardText, AcceptedCard;
  }

  lemma ExecuteInv(cfg: Config, s: State, c: nat, how: Execution, today: YearMonth, newTxn: string)
    requires Inv(cfg, s) && c < |s.stages| && c < |s.calls| && Clean(newTxn)
    ensures Inv(cfg, Executing(cfg, s, c, how, today, newTxn))
  {
    hide Rows, Pinned, PinNames, Calls, LedgerOk, Origins, Replies, RowsAgree, WorkersAgree, Identities, Workers,
         Records, Trails, BooksGrew, Handle, Clean, CallOk;
    var b := BooksOf(s);
    var s' := Executing(cfg, s, c, how, today, newTxn);
    CallAt(cfg, s.db.payments, s.pins, s.calls, c);
    CallOkOpFits(cfg, s.db.payments, s.pins, s.calls[c]);
    if how == Chaos {
      BooksUnchanged(b);
      RepliesUpdated(b, b, s.stages, c, Executed(ServerError), s.cache);
    } else {
      OriginKeys(b);
      var (l', reply) := Handle(b.ledger, b.now, today, cfg.holdFor, b.calls[c].request, newTxn);
      HandledBooksGrew(cfg, b, c, today, newTxn);
      HandledOrigins(cfg, b, c, today, newTxn);
      HandledReply(cfg, b, c, today, newTxn);
      var b' := BooksAfter(b, l', reply, newTxn, c);
      assert b' == BooksOf(s');
      var stage := Executed(if how == Run then reply else Refused(InternalError));
      RepliesUpdated(b, b', s.stages, c, stage, s.cache);
    }
    BankInv(cfg, s, s');
  }

  lemma OriginKeys(b: Books)
    requires Origins(b.ledger.txns, b.origin, b.calls)
    ensures b.origin.Keys == b.ledger.txns.Keys
  {
  }

  // ---- The response cache ----

  /** Calls that share an operation key are calls for one payment. */
  lemma SameKeySamePayment(cfg: Config, payments: map<string, Payment>, pins: map<PinKey, string>,
                           issued: set<string>, a: Call, b: Call)
    requires PinNames(payments, pins, issued)
    requires CallOk(cfg, payments, pins, a) && CallOk(cfg, payments, pins, b) && a.key == b.key
    ensures a.paymentId == b.paymentId && a.op == b.op
  {
    hide BodyFits;
  }

  /** A success that answers one call answers any other call for the same payment and route. */
  lemma ReplyTransfers(b: Books, call: Call, other: Call, reply: Reply)
    requires ReplyOk(b, call, reply) && IsSuccess(reply)
    requires call.paymentId == other.paymentId && call.op == other.op
    ensures ReplyOk(b, other, reply)
  {
  }

  lemma LookupInv(cfg: Config, s: State, c: nat, hit: bool)
    requires Inv(cfg, s) && c < |s.stages| && c < |s.calls|
    requires hit ==> CacheKey(s.calls[c].key, s.calls[c].op) in s.cache
    ensures Inv(cfg, LookingUp(s, c, hit))
  {
    hide Rows, Pinned, PinNames, Calls, LedgerOk, Origins, Replies, RowsAgree, WorkersAgree, Identities, Workers,
         Records, Trails, BooksGrew, CallOk, ReplyOk;
    var b := BooksOf(s);
    var s' := LookingUp(s, c, hit);
    CallAt(cfg, s.db.payments, s.pins, s.calls, c);
    if hit {
      var k := CacheKey(s.calls[c].key, s.calls[c].op);
      EntryAt(b, s.stages, s.cache, k);
      var e := s.cache[k];
      CallAt(cfg, s.db.payments, s.pins, s.calls, e.call);
      SameKeySamePayment(cfg, s.db.payments, s.pins, s.issued, s.calls[c], s.calls[e.call]);
      ReplyTransfers(b, s.calls[e.call], s.calls[c], e.reply);
    }
    BooksUnchanged(b);
    RepliesUpdated(b, b, s.stages, c, s'.stages[c], s.cache);
    BankInv(cfg, s, s');
  }

  lemma CacheGrows(b: Books, stages: seq<Stage>, cache: map<CacheKey, Entry>, k: CacheKey, e: Entry)
    requires Replies(b, stages, cache)
    requires e.call < |b.calls| && b.calls[e.call].key == k.key && b.calls[e.call].op == k.op
    requires IsSuccess(e.reply) && ReplyOk(b, b.calls[e.call], e.reply)
    ensures Replies(b, stages, cache[k := e])
  {
    hide ReplyOk, IsSuccess;
    var cache' := cache[k := e];
    forall j | j in cache' ensures EntryOk(b, cache', j) {
      if j != k { assert EntryOk(b, cache, j); }
    }
  }

  lemma CacheReplyInv(cfg: Config, s: State, c: nat)
    requires Inv(cfg, s) && c < |s.stages| && c < |s.calls| && s.stages[c].Executed? && IsSuccess(s.stages[c].reply)
    ensures Inv(cfg, Caching(s, c))
  {
    hide Rows, Pinned, PinNames, Calls, LedgerOk, Origins, Replies, RowsAgree, WorkersAgree, Identities, Workers,
         Records, Trails, BooksGrew, ReplyOk, IsSuccess;
    var b := BooksOf(s);
    var s' := Caching(s, c);
    StageAt(b, s.stages, s.cache, c);
    BooksUnchanged(b);
    RepliesUpdated(b, b, s.stages, c, Answered(s.stages[c].reply), s.cache);
    var k := CacheKey(s.calls[c].key, s.calls[c].op);
    if k !in s.cache {
      CacheGrows(b, s'.stages, s.cache, k, Entry(s.stages[c].reply, c));
    }
    BankInv(cfg, s, s');
  }

  lemma CacheShrinks(b: Books, stages: seq<Stage>, cache: map<CacheKey, Entry>, cache': map<CacheKey, Entry>)
    requires Replies(b, stages, cache)
    requires forall k {:trigger cache'[k]} :: k in cache' ==> k in cache && cache'[k] == cache[k]
    ensures Replies(b, stages, cache')
  {
    hide ReplyOk;
    forall k | k in cache' ensures EntryOk(b, cache', k) {
      assert EntryOk(b, cache, k);
      assert cache'[k] == cache[k];
    }
  }

  lemma EvictInv(cfg: Config, s: State, keys: set<CacheKey>)
    requires Inv(cfg, s)
    ensures Inv(cfg, Evicting(s, keys))
  {
    hide Rows, Pinned, PinNames, Calls, LedgerOk, Origins, Replies, RowsAgree, WorkersAgree, Identities, Workers,
         Records, Trails, BooksGrew;
    var b := BooksOf(s);
    var s' := Evicting(s, keys);
    CacheShrinks(b, s.stages, s.cache, s'.cache);
    BooksUnchanged(b);
    BankInv(cfg, s, s');
  }

  lemma RepliesStable(b: Books, b': Books, stages: seq<Stage>, cache: map<CacheKey, Entry>)
    requires Replies(b, stages, cache) && BooksGrew(b, b') && b'.calls == b.calls
    ensures Replies(b', stages, cache)
  {
    hide BooksGrew, ReplyOk;
    forall i | 0 <= i < |stages| ensures StageOk(b', stages, i) {
      assert StageOk(b, stages, i);
      if HasReply(stages[i]) { ReplyStable(b, b', b.calls[i], stages[i].reply); }
    }
    forall k | k in cache ensures EntryOk(b', cache, k) {
      assert EntryOk(b, cache, k);
      EntryStable(b, b', cache, k);
    }
  }

  lemma LaterBooks(b: Books, now: Time)
    requires b.now <= now
    ensures BooksGrew(b, b.(now := now))
  {
  }

  lemma BankTickInv(cfg: Config, s: State, now: Time)
    requires Inv(cfg, s) && s.bankNow <= now
    ensures Inv(cfg, s.(bankNow := now))
  {
    hide Rows, Pinned, PinNames, Calls, LedgerOk, Origins, Replies, RowsAgree, WorkersAgree, Identities, Workers,
         Records, Trails, BooksGrew;
    var s' := s.(bankNow := now);
    LaterBooks(BooksOf(s), now);
    RepliesStable(BooksOf(s), BooksOf(s'), s.stages, s.cache);
    BankInv(cfg, s, s');
  }
}
