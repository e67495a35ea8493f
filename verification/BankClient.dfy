/** The gateway's bank client: it asks once and, when the outcome is unknown, waits and asks once more. */
module BankClient {
  import opened Client
  import opened Protocol
  import opened Deliveries
  import ResponseCache

  class BankClient {
    const bank: ResponseCache.IdempotencyMiddleware

    constructor (bank: ResponseCache.IdempotencyMiddleware)
      ensures this.bank == bank
    {
      this.bank := bank;
    }

    /** One attempt; what the network does to it is given. */
    method Attempt(call: Call, t: Turn) returns (result: BankResult)
      requires bank.bank.Valid()
      modifies bank.bank, bank.cache
      ensures bank.bank.Valid()
      ensures (bank.Side(), result) == Attempted(old(bank.Side()), bank.bank.holdFor, call, t)
    {
      hide Served, ReadReply;
      match t {
        case Undelivered(kind) => result := BankFailed(kind);
        case Unheard(v, kind) =>
          var _ := bank.Serve(call.key, call.op, call.request, v);
          result := BankFailed(kind);
        case Heard(v) =>
          var reply := bank.Serve(call.key, call.op, call.request, v);
          result := ReadReply(call.op, reply);
      }
    }

    method RetryTransient(call: Call, x: Exchange) returns (result: BankResult)
      requires bank.bank.Valid()
      modifies bank.bank, bank.cache
      ensures bank.bank.Valid()
      ensures (bank.Side(), result) == Exchanged(old(bank.Side()), bank.bank.holdFor, call, x)
    {
      hide Attempted;
      result := Attempt(call, x.first);
      if !WorthRetrying(result) { return; }
      match x.cutShort {
        case Some(kind) => result := BankFailed(kind);
        case None => result := Attempt(call, x.second);
      }
    }
  }
}
