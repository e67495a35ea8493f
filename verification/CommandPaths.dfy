/**
 * A command that runs undisturbed is a path of the transition system: claim, send, the bank's steps, receive, and
 * complete or release, each of them enabled where it is taken.
 */
module CommandPaths {
  import opened Text
  import opened Domain
  import opened Errors
  import opened Commands
  import opened Store
  import opened Bank
  import opened Client
  import opened Protocol
  import opened WorkerSteps
  import opened Leases
  import opened Paths
  import opened Deliveries
  import ResponseCache

  function Remembered(cache: map<CacheKey, Entry>): map<CacheKey, Reply> {
    map k | k in cache :: cache[k].reply
  }

  function SideOf(s: State): BankSide {
    BankSide(s.ledger, Remembered(s.cache))
  }

  /** How far a worker has got: its phase, the tables, the bank, and the names drawn. */
  datatype Spot = Spot(phase: Phase, db: Db, side: BankSide, bankNow: Time, issued: set<string>)

  /** The state is the one that the worker started from, but for its own progress. */
  predicate Stands(s: State, s0: State, w: nat, spot: Spot) {
    && w in s0.workers && s.now == s0.now
    && s.workers == s0.workers[w := s0.workers[w].(phase := spot.phase)]
    && s.db == spot.db && SideOf(s) == spot.side && s.bankNow == spot.bankNow
    && s.issued == spot.issued && |s.calls| == |s.stages|
  }

  ghost predicate Got(cfg: Config, timely: bool, s: State, s0: State, w: nat, spot: Spot) {
    Leads(cfg, timely, s0, s) && Stands(s, s0, w, spot)
  }

  /** Clock readings of the worker lie between its start and the present, and if need be before its deadline. */
  predicate Punctual(cfg: Config, timely: bool, s0: State, w: nat) {
    w in s0.workers && (timely ==> InTime(cfg.timeout, s0.now, s0.workers[w]))
  }

  predicate Reads(s0: State, w: nat, at: Time) {
    w in s0.workers && s0.workers[w].start <= at <= s0.now
  }

  // ---- Claiming ----

  /** The phase that a claim leads to. */
  function ClaimedPhase(outcome: ClaimOutcome): Phase {
    match outcome
    case ClaimFailed(kind) => Finished(Failure(kind))
    case Replayed(result) => Finished(Replay(result))
    case Claimed(p, _) => Calling(p, 0)
  }

  lemma ClaimHop(cfg: Config, timely: bool, s0: State, w: nat, at: Time, newId: string, newKey: string)
    requires Punctual(cfg, timely, s0, w) && Enabled(s0, ClaimStep(w, at, newId, newKey)) && |s0.calls| == |s0.stages|
    requires RequestOf(cfg, s0.workers[w], at, newId, newKey).Ok?
    ensures var (db, outcome) := Claim(s0.db, RequestOf(cfg, s0.workers[w], at, newId, newKey).value);
            Got(cfg, timely, Claiming(cfg, s0, w, at, newId, newKey), s0, w,
                Spot(ClaimedPhase(outcome), db, SideOf(s0), s0.bankNow, s0.issued + {newId, newKey}))
  {
    ClaimStands(cfg, s0, w, at, newId, newKey);
    hide Claiming, RequestOf, Claim, Stands, IsPaymentId, Clean;
    Stay(cfg, timely, s0);
    Then(cfg, timely, s0, s0, ClaimStep(w, at, newId, newKey));
  }

  lemma ClaimStands(cfg: Config, s0: State, w: nat, at: Time, newId: string, newKey: string)
    requires w in s0.workers && RequestOf(cfg, s0.workers[w], at, newId, newKey).Ok? && |s0.calls| == |s0.stages|
    ensures var (db, outcome) := Claim(s0.db, RequestOf(cfg, s0.workers[w], at, newId, newKey).value);
            Stands(Claiming(cfg, s0, w, at, newId, newKey), s0, w,
                   Spot(ClaimedPhase(outcome), db, SideOf(s0), s0.bankNow, s0.issued + {newId, newKey}))
  {
    OnlyClaimsChange(s0.db, RequestOf(cfg, s0.workers[w], at, newId, newKey).value);
    hide RequestOf, Claim, Remembered;
  }

  /** A claim that fails or replays changes nothing. */
  lemma OnlyClaimsChange(db: Db, r: ClaimRequest)
    ensures !Claim(db, r).1.Claimed? ==> Claim(db, r).0 == db
  {
    hide EnsureKey, TableChecks;
  }

  // ---- Asking the bank ----

  lemma SendHop(cfg: Config, timely: bool, s: State, s0: State, w: nat, spot: Spot)
    requires Got(cfg, timely, s, s0, w, spot) && spot.phase.Calling?
    ensures var c := |s.calls|;
            var s' := Sending(s, w);
            && Got(cfg, timely, s', s0, w, spot.(phase := Awaiting(spot.phase.before, spot.phase.attempts + 1, c)))
            && c < |s'.calls| && s'.calls[c] == CallOf(s0.workers[w].cmd, spot.phase.before) && s'.stages[c] == Sent
  {
    hide CallOf, Leads;
    Then(cfg, timely, s0, s, Send(w));
  }

  lemma BankTickHop(cfg: Config, timely: bool, s: State, s0: State, w: nat, spot: Spot, now: Time)
    requires Got(cfg, timely, s, s0, w, spot) && spot.bankNow <= now
    ensures Got(cfg, timely, s.(bankNow := now), s0, w, spot.(bankNow := now))
  {
    hide Leads;
    Then(cfg, timely, s0, s, BankTick(now));
  }

  lemma LookupHop(cfg: Config, timely: bool, s: State, s0: State, w: nat, spot: Spot, c: nat, hit: bool)
    requires Got(cfg, timely, s, s0, w, spot) && c < |s.calls| && s.stages[c] == Sent
    requires hit ==> CacheKey(s.calls[c].key, s.calls[c].op) in s.cache
    ensures var s' := LookingUp(s, c, hit);
            && Got(cfg, timely, s', s0, w, spot) && s'.calls == s.calls
            && s'.stages[c] == (if hit then Answered(spot.side.replies[CacheKey(s.calls[c].key, s.calls[c].op)]) else Missed)
  {
    hide Leads;
    assert hit ==> CacheKey(s.calls[c].key, s.calls[c].op) in spot.side.replies;
    Then(cfg, timely, s0, s, Lookup(c, hit));
  }

  lemma ExecuteHop(cfg: Config, timely: bool, s: State, s0: State, w: nat, spot: Spot, c: nat, v: Passage)
    requires Got(cfg, timely, s, s0, w, spot) && c < |s.calls| && s.stages[c] == Missed
    requires Clean(v.newTxn) && v.now == spot.bankNow
    ensures var (l', reply) := Handled(spot.side.ledger, cfg.holdFor, s.calls[c].request, v);
            var s' := Executing(cfg, s, c, v.how, v.today, v.newTxn);
            && Got(cfg, timely, s', s0, w, spot.(side := spot.side.(ledger := l'))) && s'.calls == s.calls
            && s'.stages[c] == Executed(reply)
  {
    ExecuteStands(cfg, s, s0, w, spot, c, v);
    hide Leads, Handled, Clean, Executing, Stands;
    Then(cfg, timely, s0, s, Execute(c, v.how, v.today, v.newTxn));
  }

  lemma ExecuteStands(cfg: Config, s: State, s0: State, w: nat, spot: Spot, c: nat, v: Passage)
    requires Stands(s, s0, w, spot) && c < |s.calls| && v.now == spot.bankNow
    ensures var (l', reply) := Handled(spot.side.ledger, cfg.holdFor, s.calls[c].request, v);
            var s' := Executing(cfg, s, c, v.how, v.today, v.newTxn);
            && Stands(s', s0, w, spot.(side := spot.side.(ledger := l'))) && s'.calls == s.calls
            && s'.stages[c] == Executed(reply)
  {
    hide Handle, Remembered;
  }

  lemma CacheHop(cfg: Config, timely: bool, s: State, s0: State, w: nat, spot: Spot, c: nat)
    requires Got(cfg, timely, s, s0, w, spot) && c < |s.calls| && s.stages[c].Executed? && IsSuccess(s.stages[c].reply)
    requires CacheKey(s.calls[c].key, s.calls[c].op) !in spot.side.replies
    ensures var k := CacheKey(s.calls[c].key, s.calls[c].op);
            var s' := Caching(s, c);
            && Got(cfg, timely, s', s0, w,
                   spot.(side := spot.side.(replies := spot.side.replies[k := s.stages[c].reply])))
            && s'.calls == s.calls && s'.stages[c] == Answered(s.stages[c].reply)
  {
    hide Leads;
    Then(cfg, timely, s0, s, CacheReply(c));
    var k := CacheKey(s.calls[c].key, s.calls[c].op);
    assert k !in s.cache;
    assert Remembered(s.cache[k := Entry(s.stages[c].reply, c)]) == Remembered(s.cache)[k := s.stages[c].reply];
  }

  /**
   * One delivery is a lookup, then, unless that hits, an execution behind the injected failures, then, if it succeeded
   * and the cache works, a cache write.
   */
  lemma DeliveryPath(cfg: Config, timely: bool, s: State, s0: State, w: nat, spot: Spot, c: nat, v: Passage)
    returns (s': State)
    requires Got(cfg, timely, s, s0, w, spot) && c < |s.calls| && s.stages[c] == Sent
    requires Clean(v.newTxn) && spot.bankNow <= v.now
    ensures var call := s.calls[c];
            var (side', reply) := Served(spot.side, cfg.holdFor, call.key, call.op, call.request, v);
            && Got(cfg, timely, s', s0, w, spot.(side := side', bankNow := v.now)) && s'.calls == s.calls
            && c < |s'.stages| && HasReply(s'.stages[c]) && s'.stages[c].reply == reply
  {
    hide Handled, Clean, Got;
    var call := s.calls[c];
    var k := CacheKey(call.key, call.op);
    var s1 := s.(bankNow := v.now);
    BankTickHop(cfg, timely, s, s0, w, spot, v.now);
    var spot1 := spot.(bankNow := v.now);
    var caching := call.key != "" && !v.lookupFails;
    SameReplies(cfg, timely, s1, s0, w, spot1, k);
    StagesAgree(cfg, timely, s1, s0, w, spot1);
    if caching && k in spot.side.replies {
      LookupHop(cfg, timely, s1, s0, w, spot1, c, true);
      s' := LookingUp(s1, c, true);
      StagesAgree(cfg, timely, s', s0, w, spot1);
    } else {
      LookupHop(cfg, timely, s1, s0, w, spot1, c, false);
      var s2 := LookingUp(s1, c, false);
      StagesAgree(cfg, timely, s2, s0, w, spot1);
      ExecuteHop(cfg, timely, s2, s0, w, spot1, c, v);
      var s3 := Executing(cfg, s2, c, v.how, v.today, v.newTxn);
      var (l', reply) := Handled(spot.side.ledger, cfg.holdFor, call.request, v);
      var spot3 := spot1.(side := spot1.side.(ledger := l'));
      StagesAgree(cfg, timely, s3, s0, w, spot3);
      if caching && IsSuccess(reply) && !v.storeFails {
        CacheHop(cfg, timely, s3, s0, w, spot3, c);
        s' := Caching(s3, c);
        StagesAgree(cfg, timely, s', s0, w, spot3.(side := spot3.side.(replies := spot3.side.replies[k := reply])));
      } else {
        s' := s3;
      }
    }
  }

  lemma SameReplies(cfg: Config, timely: bool, s: State, s0: State, w: nat, spot: Spot, k: CacheKey)
    requires Got(cfg, timely, s, s0, w, spot)
    ensures k in s.cache <==> k in spot.side.replies
  {
    hide Leads;
  }

  lemma StagesAgree(cfg: Config, timely: bool, s: State, s0: State, w: nat, spot: Spot)
    requires Got(cfg, timely, s, s0, w, spot)
    ensures |s.calls| == |s.stages|
  {
    hide Leads;
  }

  lemma EvictedReplies(s: State, entries: map<CacheKey, ResponseCache.Cached>, entries': map<CacheKey, ResponseCache.Cached>,
                       before: Time)
    requires Remembered(s.cache) == ResponseCache.RepliesOf(entries)
    requires ResponseCache.Forgets(entries, entries', before)
    ensures Remembered(Evicting(s, entries.Keys - entries'.Keys).cache) == ResponseCache.RepliesOf(entries')
  {
    var keys := entries.Keys - entries'.Keys;
    var s' := Evicting(s, keys);
    assert s.cache.Keys == Remembered(s.cache).Keys == entries.Keys;
    forall k | k in entries' ensures k in s'.cache && s'.cache[k].reply == entries'[k].reply {
      assert entries'[k] == entries[k];
      assert Remembered(s.cache)[k] == ResponseCache.RepliesOf(entries)[k];
    }
    forall k | k in s'.cache ensures k in entries' {
      assert k in s.cache && k !in keys;
    }
  }

  /** What the cache's clean-up forgets, an eviction of the transition system forgets. */
  lemma DeletionIsEviction(cfg: Config, timely: bool, s: State, entries: map<CacheKey, ResponseCache.Cached>,
                           entries': map<CacheKey, ResponseCache.Cached>, before: Time)
    requires Remembered(s.cache) == ResponseCache.RepliesOf(entries)
    requires ResponseCache.Forgets(entries, entries', before)
    ensures var s' := Evicting(s, entries.Keys - entries'.Keys);
            Leads(cfg, timely, s, s') && Remembered(s'.cache) == ResponseCache.RepliesOf(entries')
  {
    hide Leads, Remembered, ResponseCache.RepliesOf, ResponseCache.Forgets;
    EvictedReplies(s, entries, entries', before);
    Stay(cfg, timely, s);
    Then(cfg, timely, s, s, Evict(entries.Keys - entries'.Keys));
  }

  // ---- One attempt ----

  predicate ValidPassage(v: Passage, bankNow: Time) {
    Clean(v.newTxn) && bankNow <= v.now
  }

  /** An attempt that is not answered fails with a kind that leaves its outcome unknown. */
  predicate ValidTurn(t: Turn, bankNow: Time) {
    match t
    case Undelivered(kind) => IsRetryable(kind)
    case Unheard(v, kind) => IsRetryable(kind) && ValidPassage(v, bankNow)
    case Heard(v) => ValidPassage(v, bankNow)
  }

  function BankClock(t: Turn, bankNow: Time): Time {
    if t.Undelivered? then bankNow else t.passage.now
  }

  /** From before a call to the moment its outcome is known, or known to be unknown. */
  lemma TurnPath(cfg: Config, timely: bool, s: State, s0: State, w: nat, spot: Spot, t: Turn)
    returns (s': State, c: nat)
    requires Got(cfg, timely, s, s0, w, spot) && spot.phase.Calling? && ValidTurn(t, spot.bankNow)
    ensures var p := spot.phase.before;
            var call := CallOf(s0.workers[w].cmd, p);
            var (side', result) := Attempted(spot.side, cfg.holdFor, call, t);
            && Got(cfg, timely, s', s0, w,
                   Spot(Awaiting(p, spot.phase.attempts + 1, c), spot.db, side', BankClock(t, spot.bankNow), spot.issued))
            && (t.Heard? ==> c < |s'.stages| && HasReply(s'.stages[c]) && ReadReply(call.op, s'.stages[c].reply) == result)
  {
    hide CallOf, Served, Clean, ReadReply, Got;
    GotWorker(cfg, timely, s, s0, w, spot);
    SendHop(cfg, timely, s, s0, w, spot);
    c := |s.calls|;
    var s1 := Sending(s, w);
    var spot1 := spot.(phase := Awaiting(spot.phase.before, spot.phase.attempts + 1, c));
    if t.Undelivered? {
      s' := s1;
    } else {
      s' := DeliveryPath(cfg, timely, s1, s0, w, spot1, c, t.passage);
    }
  }

  lemma GotWorker(cfg: Config, timely: bool, s: State, s0: State, w: nat, spot: Spot)
    requires Got(cfg, timely, s, s0, w, spot)
    ensures w in s0.workers && w in s.workers && s.workers[w] == s0.workers[w].(phase := spot.phase)
    ensures s.now == s0.now && s.db == spot.db && |s.calls| == |s.stages|
  {
    hide Leads;
  }

  /** The worker takes in an answer that it heard. */
  lemma ReceiveHop(cfg: Config, timely: bool, s: State, s0: State, w: nat, spot: Spot, at: Time, retry: bool)
    requires Got(cfg, timely, s, s0, w, spot) && spot.phase.Awaiting? && Reads(s0, w, at)
    requires spot.phase.call < |s.stages| && HasReply(s.stages[spot.phase.call])
    ensures var op := OpOf(s0.workers[w].cmd);
            var result := ReadReply(BankOpOf(op), s.stages[spot.phase.call].reply);
            Got(cfg, timely, Receiving(s, w, at, retry), s0, w,
                spot.(phase := AfterAnswer(s0.workers[w].(phase := spot.phase), result, at, retry)))
  {
    hide Leads, AfterAnswer, ReadReply;
    Then(cfg, timely, s0, s, Receive(w, at, retry));
  }

  /** The worker gives up on an answer. */
  lemma NoReplyHop(cfg: Config, timely: bool, s: State, s0: State, w: nat, spot: Spot, kind: ErrorKind, at: Time,
                   retry: bool)
    requires Got(cfg, timely, s, s0, w, spot) && spot.phase.Awaiting? && Reads(s0, w, at) && IsRetryable(kind)
    ensures w in s.workers && s.workers[w].phase.Awaiting?
    ensures Got(cfg, timely, SetPhase(s, w, AfterAnswer(s.workers[w], BankFailed(kind), at, retry)), s0, w,
                spot.(phase := AfterAnswer(s0.workers[w].(phase := spot.phase), BankFailed(kind), at, retry)))
  {
    hide Leads, AfterAnswer;
    Then(cfg, timely, s0, s, NoReply(w, kind, at, retry));
  }

  /** Whether it was answered or not, a finished turn takes the worker to what follows its result. */
  lemma TakeIn(cfg: Config, timely: bool, s: State, s0: State, w: nat, spot: Spot, t: Turn, result: BankResult,
               at: Time, retry: bool) returns (s': State)
    requires Got(cfg, timely, s, s0, w, spot) && spot.phase.Awaiting? && Reads(s0, w, at)
    requires t.Heard? ==> && spot.phase.call < |s.stages| && HasReply(s.stages[spot.phase.call])
                          && ReadReply(BankOpOf(OpOf(s0.workers[w].cmd)), s.stages[spot.phase.call].reply) == result
    requires !t.Heard? ==> result == BankFailed(t.kind) && IsRetryable(t.kind)
    ensures Got(cfg, timely, s', s0, w,
                spot.(phase := AfterAnswer(s0.workers[w].(phase := spot.phase), result, at, retry)))
  {
    hide Got, AfterAnswer, ReadReply;
    GotWorker(cfg, timely, s, s0, w, spot);
    if t.Heard? {
      ReceiveHop(cfg, timely, s, s0, w, spot, at, retry);
      s' := Receiving(s, w, at, retry);
    } else {
      NoReplyHop(cfg, timely, s, s0, w, spot, t.kind, at, retry);
      s' := SetPhase(s, w, AfterAnswer(s.workers[w], result, at, retry));
    }
  }

  // ---- The whole exchange ----

  predicate ValidExchange(x: Exchange, bankNow: Time) {
    && ValidTurn(x.first, bankNow) && ValidTurn(x.second, BankClock(x.first, bankNow))
    && (x.cutShort.Some? ==> IsRetryable(x.cutShort.value))
  }

  /** The bank's clock has not moved, or shows the time of one of the attempts. */
  predicate ClockAfter(x: Exchange, before: Time, after: Time) {
    after == before || after == BankClock(x.first, before) || after == BankClock(x.second, BankClock(x.first, before))
  }

  /** From a held claim to the decision on the bank's final answer. */
  lemma ExchangePath(cfg: Config, timely: bool, s: State, s0: State, w: nat, spot: Spot, x: Exchange, at: Time)
    returns (s': State, bankNow: Time)
    requires Got(cfg, timely, s, s0, w, spot) && spot.phase.Calling? && spot.phase.attempts == 0
    requires ValidExchange(x, spot.bankNow) && Reads(s0, w, at)
    ensures var p := spot.phase.before;
            var op := OpOf(s0.workers[w].cmd);
            var (side', result) := Exchanged(spot.side, cfg.holdFor, CallOf(s0.workers[w].cmd, p), x);
            Got(cfg, timely, s', s0, w, Spot(Decide(op, p, result, at), spot.db, side', bankNow, spot.issued))
    ensures ClockAfter(x, spot.bankNow, bankNow)
  {
    hide Got, Decide, Attempted, ReadReply, ValidPassage;
    var p := spot.phase.before;
    var cmd := s0.workers[w].cmd;
    var call := CallOf(cmd, p);
    var s1, c := TurnPath(cfg, timely, s, s0, w, spot, x.first);
    var (side1, result1) := Attempted(spot.side, cfg.holdFor, call, x.first);
    bankNow := BankClock(x.first, spot.bankNow);
    var spot1 := Spot(Awaiting(p, 1, c), spot.db, side1, bankNow, spot.issued);
    UnheardFails(spot.side, cfg.holdFor, call, x.first);
    if !WorthRetrying(result1) {
      s' := TakeIn(cfg, timely, s1, s0, w, spot1, x.first, result1, at, false);
    } else if x.cutShort.Some? {
      s' := TakeIn(cfg, timely, s1, s0, w, spot1, Undelivered(x.cutShort.value), BankFailed(x.cutShort.value), at, false);
    } else {
      var s2 := TakeIn(cfg, timely, s1, s0, w, spot1, x.first, result1, at, true);
      var spot2 := spot1.(phase := Calling(p, 1));
      var s3, d := TurnPath(cfg, timely, s2, s0, w, spot2, x.second);
      var (side3, result3) := Attempted(side1, cfg.holdFor, call, x.second);
      bankNow := BankClock(x.second, bankNow);
      UnheardFails(side1, cfg.holdFor, call, x.second);
      var spot3 := Spot(Awaiting(p, 2, d), spot.db, side3, bankNow, spot.issued);
      s' := TakeIn(cfg, timely, s3, s0, w, spot3, x.second, result3, at, false);
    }
  }

  lemma UnheardFails(b: BankSide, holdFor: int, call: Call, t: Turn)
    ensures !t.Heard? ==> Attempted(b, holdFor, call, t).1 == BankFailed(t.kind)
  {
  }

  // ---- Concluding ----

  lemma OnlyCompletionsChange(db: Db, c: HeldClaim, result: CommandResult, at: Time)
    ensures Complete(db, c, result, at).1.Some? ==> Complete(db, c, result, at).0 == db
  {
    hide TableChecks, Overwrite;
  }

  /** The request is the worker's own. */
  predicate Requests(r: ClaimRequest, w: Worker) {
    RequestOp(r) == OpOf(w.cmd) && r.key == w.cmd.key && r.fingerprint == w.fingerprint
  }

  lemma RequestIdentity(cfg: Config, w: Worker, at: Time, newId: string, newKey: string)
    requires RequestOf(cfg, w, at, newId, newKey).Ok?
    ensures Requests(RequestOf(cfg, w, at, newId, newKey).value, w)
  {
    hide NewPendingPayment;
  }

  /** The step that ends a command, by completing it or by letting its claim go. */
  function LastStep(w: nat, phase: Phase, world: World): Step {
    if phase.Completing? then CompleteStep(w, world.completedAt, world.acked) else ReleaseStep(w, world.releaseLands)
  }

  /** A worker that ends in a phase, with tables that may have changed, stands there. */
  lemma EndStands(s: State, s': State, s0: State, w: nat, spot: Spot, phase: Phase, db: Db)
    requires Stands(s, s0, w, spot)
    requires s' == SetPhase(s, w, phase).(db := db, trail := s'.trail, leases := s'.leases)
    ensures Stands(s', s0, w, spot.(phase := phase, db := db))
  {
    hide Remembered;
  }

  lemma CompleteStands(s: State, s0: State, w: nat, spot: Spot, r: ClaimRequest, world: World)
    requires Stands(s, s0, w, spot) && spot.phase.Completing? && Requests(r, s0.workers[w])
    ensures var (db', outcome) := Concluded(spot.db, r, spot.phase, world);
            Stands(Finishing(s, w, world.completedAt, world.acked), s0, w, spot.(phase := Finished(outcome), db := db'))
  {
    hide Complete, OpOf, RequestOp, ResultOf, Replay, SideOf;
    var worker := s.workers[w];
    OnlyCompletionsChange(s.db, HeldBy(worker, worker.phase.after), CompletionResult(worker), world.completedAt);
    var (db', outcome) := Concluded(spot.db, r, spot.phase, world);
    var s' := Finishing(s, w, world.completedAt, world.acked);
    assert s' == SetPhase(s, w, Finished(outcome)).(db := db', trail := s'.trail, leases := s'.leases);
    hide Stands, Concluded, Finishing;
    EndStands(s, s', s0, w, spot, Finished(outcome), db');
  }

  lemma ReleaseStands(s: State, s0: State, w: nat, spot: Spot, r: ClaimRequest, world: World)
    requires Stands(s, s0, w, spot) && spot.phase.Releasing? && Requests(r, s0.workers[w])
    ensures var (db', outcome) := Concluded(spot.db, r, spot.phase, world);
            Stands(if world.releaseLands then LettingGo(s, w) else SetPhase(s, w, Finished(Failure(spot.phase.kind))),
                   s0, w, spot.(phase := Finished(outcome), db := db'))
  {
    hide Store.Release, OpOf, RequestOp, Remembered;
  }

  lemma ConcludeStands(cfg: Config, s: State, s0: State, w: nat, spot: Spot, r: ClaimRequest, world: World)
    requires Stands(s, s0, w, spot) && (spot.phase.Completing? || spot.phase.Releasing?)
    requires Requests(r, s0.workers[w]) && Enabled(s, LastStep(w, spot.phase, world))
    ensures var (db', outcome) := Concluded(spot.db, r, spot.phase, world);
            Stands(Effect(cfg, s, LastStep(w, spot.phase, world)), s0, w, spot.(phase := Finished(outcome), db := db'))
  {
    StandsWorker(s, s0, w, spot);
    if spot.phase.Completing? {
      CompleteStands(s, s0, w, spot, r, world);
    } else {
      ReleaseStands(s, s0, w, spot, r, world);
    }
    hide Finishing, LettingGo, SetPhase, Concluded, Stands, Requests;
  }

  lemma StandsWorker(s: State, s0: State, w: nat, spot: Spot)
    requires Stands(s, s0, w, spot)
    ensures w in s.workers && s.workers[w] == s0.workers[w].(phase := spot.phase)
  {
  }

  lemma ConcludeHop(cfg: Config, timely: bool, s: State, s0: State, w: nat, spot: Spot, r: ClaimRequest, world: World)
    returns (s': State)
    requires Got(cfg, timely, s, s0, w, spot) && (spot.phase.Completing? || spot.phase.Releasing?)
    requires Requests(r, s0.workers[w]) && Punctual(cfg, timely, s0, w) && Reads(s0, w, world.completedAt)
    ensures var (db', outcome) := Concluded(spot.db, r, spot.phase, world);
            Got(cfg, timely, s', s0, w, spot.(phase := Finished(outcome), db := db'))
  {
    hide Leads, Concluded, Effect, Requests;
    var step := LastStep(w, spot.phase, world);
    ConcludeStands(cfg, s, s0, w, spot, r, world);
    Then(cfg, timely, s0, s, step);
    s' := Effect(cfg, s, step);
  }

  /**
   * A command that nothing disturbs takes enabled steps of the transition system, and they end in exactly the tables,
   * the ledger, the remembered replies and the outcome of `Ran`. Nothing else in the state changes but the bank's clock
   * and the history. If the worker is within its deadline, every step is timely.
   */
  lemma RanIsAPath(cfg: Config, timely: bool, s0: State, w: nat, at: Time, newId: string, newKey: string, world: World)
    returns (s': State, bankNow: Time)
    requires Enabled(s0, ClaimStep(w, at, newId, newKey)) && |s0.calls| == |s0.stages|
    requires RequestOf(cfg, s0.workers[w], at, newId, newKey).Ok?
    requires Punctual(cfg, timely, s0, w) && Reads(s0, w, world.decidedAt) && Reads(s0, w, world.completedAt)
    requires ValidExchange(world.exchange, s0.bankNow)
    ensures var r := RequestOf(cfg, s0.workers[w], at, newId, newKey).value;
            var (db', side', outcome) := Ran(s0.db, SideOf(s0), cfg.holdFor, s0.workers[w].cmd, r, world);
            Got(cfg, timely, s', s0, w, Spot(Finished(outcome), db', side', bankNow, s0.issued + {newId, newKey}))
    ensures ClockAfter(world.exchange, s0.bankNow, bankNow)
  {
    hide Got, RequestOf, Claim, Exchanged, Concluded, Decide, ValidExchange, IsPaymentId, Clean, Requests, CallOf;
    var r := RequestOf(cfg, s0.workers[w], at, newId, newKey).value;
    RequestIdentity(cfg, s0.workers[w], at, newId, newKey);
    RequestsOp(r, s0.workers[w]);
    ClaimHop(cfg, timely, s0, w, at, newId, newKey);
    var s1 := Claiming(cfg, s0, w, at, newId, newKey);
    var (db, claim) := Claim(s0.db, r);
    bankNow := s0.bankNow;
    match claim
    case ClaimFailed(_) => s' := s1;
    case Replayed(_) => s' := s1;
    case Claimed(p, _) =>
      var issued := s0.issued + {newId, newKey};
      var spot1 := Spot(Calling(p, 0), db, SideOf(s0), s0.bankNow, issued);
      var s2;
      s2, bankNow := ExchangePath(cfg, timely, s1, s0, w, spot1, world.exchange, world.decidedAt);
      var (side', answer) := Exchanged(SideOf(s0), cfg.holdFor, CallOf(s0.workers[w].cmd, p), world.exchange);
      var phase := Decide(OpOf(s0.workers[w].cmd), p, answer, world.decidedAt);
      DecideEnds(OpOf(s0.workers[w].cmd), p, answer, world.decidedAt);
      s' := ConcludeHop(cfg, timely, s2, s0, w, Spot(phase, db, side', bankNow, issued), r, world);
  }

  lemma RequestsOp(r: ClaimRequest, w: Worker)
    requires Requests(r, w)
    ensures RequestOp(r) == OpOf(w.cmd)
  {
  }
}
