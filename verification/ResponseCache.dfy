/** The bank's idempotency layer: a response cache, and the middleware that puts it in front of the services. */
module ResponseCache {
  import opened Domain
  import opened Bank
  import opened Client
  import opened Protocol
  import opened Deliveries
  import BankService

  datatype Cached = Cached(reply: Reply, createdAt: Time)

  function RepliesOf(entries: map<CacheKey, Cached>): map<CacheKey, Reply> {
    map k | k in entries :: entries[k].reply
  }

  class ResponseCache {
    var entries: map<CacheKey, Cached>

    ghost function Replies(): map<CacheKey, Reply>
      reads this
    {
      RepliesOf(entries)
    }

    constructor ()
      ensures Replies() == map[]
    {
      entries := map[];
    }

    method Get(key: string, op: BankOp) returns (hit: Option<Reply>)
      ensures hit == if CacheKey(key, op) in Replies() then Some(Replies()[CacheKey(key, op)]) else None
    {
      var k := CacheKey(key, op);
      if k in entries { return Some(entries[k].reply); }
      return None;
    }

    /** The first reply stored under a key and route stays, with its own time. */
    method Store(key: string, op: BankOp, reply: Reply, at: Time)
      modifies this
      ensures var k := CacheKey(key, op);
              && (k in old(Replies()) ==> entries == old(entries))
              && (k !in old(Replies()) ==> Replies() == old(Replies())[k := reply] && k in entries && entries[k].createdAt == at)
    {
      var k := CacheKey(key, op);
      if k !in entries {
        entries := entries[k := Cached(reply, at)];
      }
    }

    /** Forgets what was stored before a time, and nothing younger. */
    method DeleteOlderThan(before: Time) returns (removed: int)
      modifies this
      ensures Forgets(old(entries), entries, before) && removed == |old(entries)| - |entries|
    {
      var count := |entries|;
      entries := map k | k in entries && entries[k].createdAt >= before :: entries[k];
      return count - |entries|;
    }
  }

  /** Entries from before the time are gone; the others are there unchanged. */
  ghost predicate Forgets(entries: map<CacheKey, Cached>, entries': map<CacheKey, Cached>, before: Time) {
    && (forall k {:trigger entries'[k]} :: k in entries' ==>
          k in entries && entries'[k] == entries[k] && entries[k].createdAt >= before)
    && (forall k {:trigger entries[k]} :: k in entries && entries[k].createdAt >= before ==> k in entries')
  }

  class IdempotencyMiddleware {
    const bank: BankService.BankService
    const cache: ResponseCache

    constructor (bank: BankService.BankService, cache: ResponseCache)
      ensures this.bank == bank && this.cache == cache
    {
      this.bank := bank;
      this.cache := cache;
    }

    ghost function Side(): BankSide
      reads bank, cache
    {
      BankSide(bank.Contents(), cache.Replies())
    }

    /** What lies behind the cache: failures may be injected before the services, and a commit may go unacknowledged. */
    method Next(request: Request, v: Passage) returns (reply: Reply)
      requires bank.Valid()
      modifies bank
      ensures bank.Valid() && (bank.Contents(), reply) == Handled(old(bank.Contents()), bank.holdFor, request, v)
    {
      hide Handle, LedgerOk, BankService.BankService.Valid;
      if v.how == Chaos { return ServerError; }
      reply := bank.Serve(v.now, v.today, request, v.newTxn);
      if v.how == RunUnacknowledged { reply := Refused(InternalError); }
    }

    method Serve(key: string, op: BankOp, request: Request, v: Passage) returns (reply: Reply)
      requires bank.Valid()
      modifies bank, cache
      ensures bank.Valid() && (Side(), reply) == Served(old(Side()), bank.holdFor, key, op, request, v)
    {
      hide Handled, LedgerOk, BankService.BankService.Valid;
      if key == "" {
        reply := Next(request, v);
        return;
      }
      if v.lookupFails {
        reply := Next(request, v);
        return;
      }
      var cached := cache.Get(key, op);
      if cached.Some? { return cached.value; }
      reply := Next(request, v);
      if IsSuccess(reply) && !v.storeFails {
        cache.Store(key, op, reply, v.now);
      }
    }
  }
}
