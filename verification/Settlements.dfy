/** When a debit that the gateway does not know of can still be settled, and how it comes to be stranded. */
module Settlements {
  import opened Text
  import opened Domain
  import opened Commands
  import opened Store
  import opened Bank
  import opened Client
  import opened Protocol
  import opened Invariants
  import opened WorkerSteps
  import opened StoreSteps
  import opened ClaimSteps
  import opened Runs
  import opened Safety
  import opened History
  import opened Leases
  import opened Paths
  import opened Deliveries
  import opened CommandPaths
  import opened Progress
  import opened Strandings

  // ---- A remembered reply settles the payment ----

  /** A delivery that reaches the cache. */
  function FromCache(s: State, d: Draw): World {
    var turn := Heard(Passage(s.bankNow, d.today, d.newTxn, Run, false, true));
    World(Exchange(turn, None, turn), s.now, s.now, true, true)
  }

  lemma FromCacheIsPrompt(s: State, d: Draw)
    requires Clean(d.newTxn)
    ensures Prompt(s, FromCache(s, d))
  {
    hide Clean;
  }

  lemma CacheExchange(b: BankSide, holdFor: int, call: Call, s: State, d: Draw)
    requires call.key != "" && CacheKey(call.key, call.op) in b.replies
    ensures var result := ReadReply(call.op, b.replies[CacheKey(call.key, call.op)]);
            !WorthRetrying(result) ==> Exchanged(b, holdFor, call, FromCache(s, d).exchange) == (b, result)
  {
    hide Handled, ReadReply;
  }

  /** What is remembered under the payment's capture key is a capture. */
  lemma CachedReply(cfg: Config, s: State, id: string) returns (t: string)
    requires PinKey(id, BankCapture) in s.pins && CachedFor(s, id) && Inv(cfg, s)
    ensures var k := CacheKey(s.pins[PinKey(id, BankCapture)], BankCapture);
            SideOf(s).replies[k] == CaptureMade(t) && Clean(t)
  {
    hide Rows, Pinned, PinNames, Calls, LedgerOk, Origins, Replies, RowsAgree, WorkersAgree, Identities, Workers, Records,
         Trails, MadeFor, Lapsed, Clean;
    var k := CacheKey(s.pins[PinKey(id, BankCapture)], BankCapture);
    EntryAt(BooksOf(s), s.stages, s.cache, k);
    t := s.cache[k].reply.captureId;
  }

  /** A debited row carries the payment's capture key. */
  lemma KeyOnRow(cfg: Config, s: State, id: string)
    requires Debited(s, id) && Inv(cfg, s)
    ensures s.db.payments[id].captureKey == s.pins[PinKey(id, BankCapture)] != ""
  {
    hide Rows, Pinned, PinNames, Calls, LedgerOk, Origins, Replies, RowsAgree, WorkersAgree, Identities, Workers, Records,
         Trails, KeysPinned;
    PinAt(s.db.payments, s.pins, id);
    RowAt(s.db.payments, id);
    PinKnown(s.db.payments, s.pins, s.issued, PinKey(id, BankCapture));
  }

  lemma KeptKey(p: Payment, q: Payment)
    requires Behind(p, q) && p.status == q.status && p.captureKey != ""
    ensures q.captureKey == p.captureKey
  {
  }

  lemma CachedRan(cfg: Config, s: State, d: Draw, cmd: Command) returns (after: Payment, end: (Db, BankSide, Outcome))
    requires ValidConfig(cfg) && Inv(cfg, s) && Unused(s, d, cmd) && Inv(cfg, WithWorker(cfg, s, d, cmd))
    requires cmd.Capture? && Debited(s, cmd.paymentId) && CachedFor(s, cmd.paymentId) && s.now > NO_TIME
    ensures Asks(cfg, s, d, cmd).Ok?
    ensures end == Ran(s.db, SideOf(s), cfg.holdFor, cmd, Asks(cfg, s, d, cmd).value, FromCache(s, d))
    ensures end.0.payments == s.db.payments[cmd.paymentId := after] && end.1 == SideOf(s)
    ensures after.id == cmd.paymentId && after.status == Captured
  {
    hide Inv, ValidConfig, Accepted, Ran, RequestOf, Clean, IsPaymentId, Claim, WellFormed, Agrees, SameIdentity, Decide,
         NewWorker, ReadReply, Unused, Drawn, Asks, SideOf, WithWorker, Behind, Claimable, Exchanged;
    var row := s.db.payments[cmd.paymentId];
    UnusedFacts(s, d, cmd);
    ByStatus(cfg, s, d, cmd);
    KeyOnRow(cfg, s, cmd.paymentId);
    var t := CachedReply(cfg, s, cmd.paymentId);
    var p, db := ExistingClaimed(cfg, s, d, cmd);
    KeptKey(row, p);
    RepliesKnown(s, CacheKey(p.captureKey, BankCapture));
    var call := CallOf(cmd, p);
    CacheExchange(SideOf(s), cfg.holdFor, call, s, d);
    var r := Asks(cfg, s, d, cmd).value;
    after := CapturedWith(p, t, s.now);
    RanPersists(s, SideOf(s), cfg.holdFor, cmd, r, FromCache(s, d), db, false, p, SideOf(s), CaptureDone(t), after);
    end := Ran(s.db, SideOf(s), cfg.holdFor, cmd, r, FromCache(s, d));
    IdentityFields(p, after);
  }

  lemma RepliesKnown(s: State, k: CacheKey)
    ensures k in s.cache <==> k in SideOf(s).replies
  {
  }

  lemma SettlesFromCache(cfg: Config, timely: bool, s: State, d: Draw, cmd: Command) returns (s': State)
    requires ValidConfig(cfg) && CanReach(cfg, timely, s) && Unused(s, d, cmd) && (timely ==> 0 <= cfg.timeout)
    requires cmd.Capture? && Debited(s, cmd.paymentId) && CachedFor(s, cmd.paymentId)
    ensures Leads(cfg, timely, s, s') && cmd.paymentId in s'.db.payments
    ensures s'.db.payments[cmd.paymentId].status == Captured && s'.ledger == s.ledger
  {
    hide Inv, ValidConfig, CanReach, Leads, Accepted, Enabled, Ran, RequestOf, Clean, IsPaymentId, Punctual, Reads, NewWorker,
         Unused, Drawn, Asks, SideOf, WithWorker, Prompt, Debited;
    UnusedFacts(s, d, cmd);
    ArriveFirst(cfg, timely, s, d, cmd);
    var after, end := CachedRan(cfg, s, d, cmd);
    FromCacheIsPrompt(s, d);
    s' := RunsUndisturbed(cfg, timely, s, d, cmd, FromCache(s, d));
    SideLedger(s);
    SideLedger(s');
  }

  /** A handler that still has the reply can store it. */
  lemma HandlerRemembers(cfg: Config, timely: bool, s: State, c: nat, id: string)
    requires c < |s.calls| == |s.stages| && s.stages[c].Executed? && s.stages[c].reply.CaptureMade?
    requires CaptureCall(s.calls[c], id) && Debited(s, id) && Inv(cfg, s)
    ensures var s' := Caching(s, c); Leads(cfg, timely, s, s') && Debited(s', id) && CachedFor(s', id)
  {
    hide Inv, Leads, Debited, Caching, CaptureCall;
    CaptureCallBody(cfg, s, c, id);
    DebitedRow(s, id);
    CaptureRoute(s.calls[c], id);
    RemembersThere(s, c, id);
    Stay(cfg, timely, s);
    Then(cfg, timely, s, s, CacheReply(c));
  }

  lemma CaptureRoute(call: Call, id: string)
    requires CaptureCall(call, id)
    ensures call.op == BankCapture
  {
  }

  lemma RemembersThere(s: State, c: nat, id: string)
    requires c < |s.calls| == |s.stages| && s.stages[c].Executed? && Debited(s, id)
    requires s.calls[c].key == s.pins[PinKey(id, BankCapture)] && s.calls[c].op == BankCapture
    ensures Debited(Caching(s, c), id) && CachedFor(Caching(s, c), id)
  {
  }

  /** Some reply that says captured is remembered, or a handler can still remember it. */
  ghost predicate Remains(s: State, id: string)
    requires PinKey(id, BankCapture) in s.pins
  {
    || CachedFor(s, id)
    || exists c {:trigger s.stages[c]} :: && 0 <= c < |s.calls| == |s.stages| && CaptureCall(s.calls[c], id)
                                          && s.stages[c].Executed? && s.stages[c].reply.CaptureMade?
  }

  /**
   * While the bank remembers the capture's reply, or a handler can still store it, a debit that the gateway does not
   * know of can be settled: a capture under any unused key finds the reply and leads to a captured row, with no further
   * debit.
   */
  lemma DebitCanSettle(cfg: Config, timely: bool, s: State, d: Draw, cmd: Command) returns (s': State)
    requires ValidConfig(cfg) && CanReach(cfg, timely, s) && Unused(s, d, cmd) && (timely ==> 0 <= cfg.timeout)
    requires cmd.Capture? && Debited(s, cmd.paymentId) && Remains(s, cmd.paymentId)
    ensures Leads(cfg, timely, s, s') && cmd.paymentId in s'.db.payments
    ensures s'.db.payments[cmd.paymentId].status == Captured && s'.ledger == s.ledger
  {
    hide Inv, ValidConfig, CanReach, Leads, Unused, Debited, CaptureCall;
    CanReachInv(cfg, timely, s);
    DebitedRow(s, cmd.paymentId);
    if CachedFor(s, cmd.paymentId) {
      s' := SettlesFromCache(cfg, timely, s, d, cmd);
    } else {
      var c: nat :| && c < |s.calls| == |s.stages| && CaptureCall(s.calls[c], cmd.paymentId)
                    && s.stages[c].Executed? && s.stages[c].reply.CaptureMade?;
      HandlerRemembers(cfg, timely, s, c, cmd.paymentId);
      var s1 := Caching(s, c);
      Reach(cfg, timely, s, s1);
      StillUnused(s, s1, d, cmd);
      s' := SettlesFromCache(cfg, timely, s1, d, cmd);
      Join(cfg, timely, s, s1, s');
    }
  }

  lemma StillUnused(s: State, s': State, d: Draw, cmd: Command)
    requires Unused(s, d, cmd) && s' == s.(cache := s'.cache, stages := s'.stages)
    ensures Unused(s', d, cmd)
  {
    hide Accepted, Clean, IsPaymentId;
  }

  // ---- A worker in time settles the payment ----

  predicate IsCaptured(s: State, id: string) {
    id in s.db.payments && s.db.payments[id].status == Captured
  }

  /** The worker has read the bank's word and is about to persist it. */
  predicate HasWord(s: State, w: nat, id: string) {
    && w in s.workers && s.workers[w].phase.Completing?
    && s.workers[w].phase.before.id == id && s.workers[w].phase.after.status == Captured
  }

  lemma StartedBefore(cfg: Config, s: State, w: nat)
    requires w in s.workers && Inv(cfg, s)
    ensures NO_TIME < s.workers[w].start <= s.now
  {
    hide Inv, RequestText, CardText, Accepted;
    IdentifiedHere(cfg, s, w);
  }

  /** Only an authorized payment is captured. */
  lemma WordIsForOpenHold(cfg: Config, s: State, w: nat, id: string)
    requires HasWord(s, w, id) && Inv(cfg, s)
    ensures s.workers[w].phase.before.status == Authorized
  {
    hide Inv, Snapshot, Identified, Agrees, Behind, WellFormed;
    HolderFacts(cfg, s, w);
    SnapshotStatus(s.db.payments, s.pins, s.workers[w], s.workers[w].phase.before);
  }

  /** A completion that succeeds writes the status it prepared. */
  lemma AttemptPersists(s: State, w: nat, at: Time)
    requires w in s.workers && s.workers[w].phase.Completing? && Attempt(s, w, at).1.None?
    ensures var after, db' := s.workers[w].phase.after, Attempt(s, w, at).0;
            after.id in db'.payments && db'.payments[after.id].status == after.status
  {
    hide TableChecks, ExpectedStatus, CompletionResult, KeyOf, Overwrite;
    var after := s.workers[w].phase.after;
    if after.id in s.db.payments { OverwrittenStatus(s.db.payments[after.id], after); }
  }

  lemma FinishingPersists(s: State, w: nat, at: Time)
    requires w in s.workers && s.workers[w].phase.Completing? && Attempt(s, w, at).1.None?
    ensures Finishing(s, w, at, true).db == Attempt(s, w, at).0
  {
    hide Complete, Replay, CompletionResult, HeldBy;
  }

  lemma PersistsWord(cfg: Config, s: State, w: nat, id: string)
    requires ValidConfig(cfg) && LeaseOutlastsCommand(cfg) && TimelyReachable(cfg, s) && Debited(s, id)
    requires HasWord(s, w, id) && InTime(cfg.timeout, s.now, s.workers[w])
    ensures var s' := Finishing(s, w, s.now, true); Leads(cfg, true, s, s') && IsCaptured(s', id) && s'.ledger == s.ledger
  {
    hide Inv, ValidConfig, TimelyReachable, Leads, LeasedIn, LeaseOutlastsCommand, Attempt, Finishing;
    TimelyReachableLeased(cfg, s);
    StartedBefore(cfg, s, w);
    WordIsForOpenHold(cfg, s, w, id);
    CompletionMeetsNoConflict(cfg, s, w, s.now, true);
    CompletingFacts(cfg, s, w, s.now, true);
    AttemptPersists(s, w, s.now);
    FinishingPersists(s, w, s.now);
    FinishingFrame(s, w, s.now, true);
    Stay(cfg, true, s);
    Then(cfg, true, s, s, CompleteStep(w, s.now, true));
  }

  /** The bank's word waits to be read. */
  predicate WordWaits(s: State, w: nat, id: string) {
    && w in s.workers && s.workers[w].phase.Awaiting?
    && s.workers[w].phase.call < |s.calls| && s.workers[w].phase.call < |s.stages|
    && CaptureCall(s.calls[s.workers[w].phase.call], id) && Grants(s.stages[s.workers[w].phase.call])
  }

  /** A worker that waits for a capture's reply holds the payment ready to be captured. */
  lemma WaitingCapture(cfg: Config, s: State, w: nat, id: string)
    requires WordWaits(s, w, id) && Inv(cfg, s)
    ensures var worker := s.workers[w];
            && OpOf(worker.cmd) == CaptureOp && worker.phase.before.id == id && worker.phase.before.status == Authorized
            && WellFormed(worker.phase.before) && worker.phase.before.captureKey != ""
  {
    hide Inv, WellFormed, Behind, KeysPinned, Agrees, Identified, ClaimMatches, Grants;
    HolderFacts(cfg, s, w);
  }

  /** The waiting word names a clean capture id. */
  lemma WordIsClean(cfg: Config, s: State, c: nat) returns (t: string)
    requires c < |s.calls| && c < |s.stages| && Grants(s.stages[c]) && Inv(cfg, s)
    ensures s.stages[c].reply == CaptureMade(t) && Clean(t)
  {
    hide Rows, Pinned, PinNames, Calls, LedgerOk, Origins, Replies, RowsAgree, WorkersAgree, Identities, Workers, Records,
         Trails, MadeFor, Lapsed, Clean;
    StageAt(BooksOf(s), s.stages, s.cache, c);
    t := s.stages[c].reply.captureId;
  }

  lemma ReadsWord(cfg: Config, s: State, w: nat, id: string)
    requires WordWaits(s, w, id) && Debited(s, id) && Inv(cfg, s)
    ensures var s' := Receiving(s, w, s.now, false);
            && Leads(cfg, true, s, s') && HasWord(s', w, id) && Debited(s', id) && s'.ledger == s.ledger
            && s'.now == s.now && s'.workers[w].start == s.workers[w].start
  {
    hide Inv, Leads, WellFormed, Clean, ReadReply, Decide, Debited, CaptureCall;
    WaitingCapture(cfg, s, w, id);
    StartedBefore(cfg, s, w);
    var worker := s.workers[w];
    var t := WordIsClean(cfg, s, worker.phase.call);
    var after := CapturedWith(worker.phase.before, t, s.now);
    SameDebit(s, Receiving(s, w, s.now, false), id);
    Stay(cfg, true, s);
    Then(cfg, true, s, s, Receive(w, s.now, false));
  }

  lemma SameDebit(s: State, s': State, id: string)
    requires Debited(s, id) && s'.db == s.db && s'.pins == s.pins && s'.ledger == s.ledger
    ensures Debited(s', id)
  {
  }

  /** A reply to a worker within its deadline reaches the row. */
  lemma WordCanSettle(cfg: Config, s: State, w: nat, id: string) returns (s': State)
    requires ValidConfig(cfg) && LeaseOutlastsCommand(cfg) && TimelyReachable(cfg, s) && Debited(s, id)
    requires (HasWord(s, w, id) || WordWaits(s, w, id)) && InTime(cfg.timeout, s.now, s.workers[w])
    ensures Leads(cfg, true, s, s') && IsCaptured(s', id) && s'.ledger == s.ledger
  {
    hide Inv, ValidConfig, TimelyReachable, Leads, LeaseOutlastsCommand, Debited, Finishing, Receiving, HasWord, WordWaits,
         IsCaptured;
    if HasWord(s, w, id) {
      WordHeld(s, w, id);
      PersistsWord(cfg, s, w, id);
      s' := Finishing(s, w, s.now, true);
    } else {
      TimelyIsReachable(cfg, s);
      ReachableIsInv(cfg, s);
      WordThere(s, w, id);
      ReadsWord(cfg, s, w, id);
      var s1 := Receiving(s, w, s.now, false);
      TimelyLeadsReach(cfg, s, s1);
      WordHeld(s1, w, id);
      PersistsWord(cfg, s1, w, id);
      s' := Finishing(s1, w, s1.now, true);
      Join(cfg, true, s, s1, s');
    }
  }

  lemma WordHeld(s: State, w: nat, id: string)
    requires HasWord(s, w, id)
    ensures w in s.workers && s.workers[w].phase.Completing?
  {
  }

  lemma WordThere(s: State, w: nat, id: string)
    requires WordWaits(s, w, id)
    ensures w in s.workers && s.workers[w].phase.Awaiting?
    ensures s.workers[w].phase.call < |s.stages| && HasReply(s.stages[s.workers[w].phase.call])
  {
  }

  /** A debit that is not stranded has a reply that remains, or word for a worker in time. */
  lemma NotStranded(cfg: Config, s: State, id: string) returns (w: nat)
    requires Debited(s, id) && !Stranded(cfg, true, s, id) && |s.calls| == |s.stages|
    ensures Remains(s, id)
         || (w in s.workers && InTime(cfg.timeout, s.now, s.workers[w]) && (HasWord(s, w, id) || WordWaits(s, w, id)))
  {
    w := 0;
    if !Remains(s, id) {
      assert StagesQuiet(s.calls, s.stages, id);
      w :| w in s.workers && MayWrite(Since(cfg, true, s), s.workers[w]) && !WorkerQuiet(s.calls, s.stages, s.workers[w], id);
    }
  }

  /**
   * In timely runs, with claims that outlast commands, a debit that the gateway does not know of can still be settled if
   * and only if it is not stranded. `Unused` only says that some command with a new key can be made.
   */
  lemma DebitSettlesExactly(cfg: Config, s: State, d: Draw, cmd: Command)
    requires ValidConfig(cfg) && LeaseOutlastsCommand(cfg) && 0 <= cfg.timeout && TimelyReachable(cfg, s)
    requires Unused(s, d, cmd) && cmd.Capture? && Debited(s, cmd.paymentId)
    ensures (exists s': State :: Leads(cfg, true, s, s') && IsCaptured(s', cmd.paymentId))
       <==> !Stranded(cfg, true, s, cmd.paymentId)
  {
    hide Inv, ValidConfig, TimelyReachable, Leads, LeaseOutlastsCommand, Unused, Debited, Remains, HasWord, WordWaits, Stranded,
         Entries;
    var id := cmd.paymentId;
    if Stranded(cfg, true, s, id) {
      forall s': State | Leads(cfg, true, s, s') ensures !IsCaptured(s', id) {
        StrandedForever(cfg, true, s, s', id);
      }
    } else {
      CanReachInv(cfg, true, s);
      StagesMatch(cfg, s);
      DebitedRow(s, id);
      var w := NotStranded(cfg, s, id);
      if Remains(s, id) {
        var s' := DebitCanSettle(cfg, true, s, d, cmd);
        assert IsCaptured(s', id);
      } else {
        var s' := WordCanSettle(cfg, s, w, id);
      }
    }
  }

  // ---- How a debit is stranded ----

  /** Nobody has ever asked the bank to capture the payment. */
  lemma NoCaptureYet(cfg: Config, s: State, id: string)
    requires id in s.db.payments && s.db.payments[id].status == Authorized && s.db.payments[id].captureKey == ""
    requires Inv(cfg, s)
    ensures PinKey(id, BankCapture) !in s.pins
  {
    hide Rows, Pinned, PinNames, Calls, LedgerOk, Origins, Replies, RowsAgree, WorkersAgree, Identities, Workers, Records,
         Trails, KeysPinned;
    PinAt(s.db.payments, s.pins, id);
    RowAt(s.db.payments, id);
    PinKnown(s.db.payments, s.pins, s.issued, PinKey(id, BankCapture));
  }

  lemma UnpinnedCalls(cfg: Config, s: State, id: string, c: nat)
    requires PinKey(id, BankCapture) !in s.pins && c < |s.calls| && Inv(cfg, s)
    ensures !CaptureCall(s.calls[c], id)
  {
    hide Rows, Pinned, PinNames, Calls, LedgerOk, Origins, Replies, RowsAgree, WorkersAgree, Identities, Workers, Records,
         Trails, BodyFits;
    CallAt(cfg, s.db.payments, s.pins, s.calls, c);
  }

  lemma UnpinnedWorkers(cfg: Config, s: State, id: string, w: nat)
    requires PinKey(id, BankCapture) !in s.pins && w in s.workers && Inv(cfg, s)
    ensures WorkerQuiet(s.calls, s.stages, s.workers[w], id)
    ensures s.workers[w].phase.Awaiting? ==> s.workers[w].phase.call < |s.calls|
  {
    hide Inv, CaptureCall, Grants;
    var worker := s.workers[w];
    if worker.phase.Awaiting? {
      OwnCall(cfg, s, w);
      UnpinnedCalls(cfg, s, id, worker.phase.call);
    }
    if worker.phase.Completing? && worker.phase.before.id == id {
      PreparedCapture(cfg, s, w);
    }
  }

  /** A worker about to record a capture holds the payment's pinned capture key. */
  lemma PreparedCapture(cfg: Config, s: State, w: nat)
    requires w in s.workers && s.workers[w].phase.Completing? && Inv(cfg, s)
    ensures var worker := s.workers[w];
            worker.phase.after.status == Captured ==> PinKey(worker.phase.before.id, BankCapture) in s.pins
  {
    hide Rows, Pinned, PinNames, Calls, LedgerOk, Origins, Replies, RowsAgree, WorkersAgree, Identities, Workers, Records,
         Trails, Behind, ClaimMatches, Identified;
    WorkerAt(s.db.payments, s.pins, s.calls, s.workers, w);
    hide Normalized, IsPaymentId;
  }

  /** What the state looks like once the bank has captured, and its answer has been lost on the way back. */
  predicate Unheeded(s: State, s': State, w: nat, p: Payment, c: nat) {
    && c == |s.calls| && |s'.calls| == |s'.stages| == c + 1 && |s.stages| == c
    && s'.calls[..c] == s.calls && s'.stages[..c] == s.stages && s'.cache == s.cache
    && s'.stages[c] == Executed(Refused(InternalError))
    && w !in s.workers && s'.workers.Keys == s.workers.Keys + {w}
    && s'.workers[w].phase == Awaiting(p, 1, c) && (forall v :: v in s.workers ==> s'.workers[v] == s.workers[v])
    && p.id in s'.db.payments && s'.db.payments[p.id] == p && p.status == Authorized && p.captureKey != ""
    && Ref(p.holdId, CaptureTxn) in s'.ledger.index
  }

  lemma UnheededStrands(cfg: Config, timely: bool, s: State, s': State, w: nat, p: Payment, c: nat)
    requires Unheeded(s, s', w, p, c) && PinKey(p.id, BankCapture) !in s.pins && Inv(cfg, s) && Inv(cfg, s')
    ensures Stranded(cfg, timely, s', p.id)
  {
    hide Inv, CaptureCall;
    KeyIsPinned(cfg, s', p.id);
    forall i | 0 <= i < c ensures s'.calls[i] == s.calls[i] && s'.stages[i] == s.stages[i] && !CaptureCall(s'.calls[i], p.id) {
      assert s'.calls[..c][i] == s'.calls[i] && s'.stages[..c][i] == s'.stages[i];
      UnpinnedCalls(cfg, s, p.id, i);
    }
    forall v | v in s'.workers ensures WorkerQuiet(s'.calls, s'.stages, s'.workers[v], p.id) {
      if v != w {
        UnpinnedWorkers(cfg, s, p.id, v);
      }
    }
    if CachedFor(s', p.id) {
      CachedCall(cfg, s, s', p.id);
    }
  }

  lemma KeyIsPinned(cfg: Config, s: State, id: string)
    requires id in s.db.payments && s.db.payments[id].captureKey != "" && Inv(cfg, s)
    ensures PinKey(id, BankCapture) in s.pins && s.pins[PinKey(id, BankCapture)] == s.db.payments[id].captureKey
  {
    hide Rows, Pinned, PinNames, Calls, LedgerOk, Origins, Replies, RowsAgree, WorkersAgree, Identities, Workers, Records,
         Trails, NoKeyLost;
    PinAt(s.db.payments, s.pins, id);
    RowAt(s.db.payments, id);
  }

  /** A reply that was remembered before would have been for an earlier capture call. */
  lemma CachedCall(cfg: Config, s: State, s': State, id: string)
    requires s'.cache == s.cache && s.calls <= s'.calls && PinKey(id, BankCapture) in s'.pins && CachedFor(s', id)
    requires Inv(cfg, s) && Inv(cfg, s')
    ensures PinKey(id, BankCapture) in s.pins
  {
    hide Inv, CaptureCall;
    var k := CacheKey(s'.pins[PinKey(id, BankCapture)], BankCapture);
    EntryCallOf(cfg, s, k);
    var c := s.cache[k].call;
    KeyIsCapture(cfg, s', c, id);
    if PinKey(id, BankCapture) !in s.pins {
      UnpinnedCalls(cfg, s, id, c);
    }
  }

  lemma EntryCallOf(cfg: Config, s: State, k: CacheKey)
    requires k in s.cache && Inv(cfg, s)
    ensures s.cache[k].call < |s.calls| && s.calls[s.cache[k].call].key == k.key && s.calls[s.cache[k].call].op == k.op
  {
    hide Rows, Pinned, PinNames, Calls, LedgerOk, Origins, Replies, RowsAgree, WorkersAgree, Identities, Workers, Records,
         Trails, ReplyOk;
    EntryAt(BooksOf(s), s.stages, s.cache, k);
  }

  /** The call is sent, misses the cache, and runs, but its commit is not acknowledged. */
  function Unacknowledged(cfg: Config, s: State, w: nat, d: Draw): State
    requires w in s.workers && s.workers[w].phase.Calling? && |s.calls| == |s.stages|
  {
    Executing(cfg, LookingUp(Sending(s, w), |s.calls|, false), |s.calls|, RunUnacknowledged, d.today, d.newTxn)
  }

  lemma UnacknowledgedFrame(cfg: Config, s: State, w: nat, d: Draw)
    requires w in s.workers && s.workers[w].phase.Calling? && |s.calls| == |s.stages|
    ensures var s', c := Unacknowledged(cfg, s, w, d), |s.calls|;
            && |s'.calls| == |s'.stages| == c + 1 && s'.calls[..c] == s.calls && s'.stages[..c] == s.stages
            && s'.cache == s.cache && s'.stages[c] == Executed(Refused(InternalError))
  {
    hide Handle, CallOf;
  }

  lemma UnacknowledgedPath(cfg: Config, timely: bool, s: State, s0: State, w: nat, spot: Spot, d: Draw)
    requires Got(cfg, timely, s, s0, w, spot) && spot.phase.Calling? && spot.phase.attempts == 0 && Clean(d.newTxn)
    ensures w in s.workers && s.workers[w].phase.Calling? && |s.calls| == |s.stages|
    ensures var p, c := spot.phase.before, |s.calls|;
            var call := CallOf(s0.workers[w].cmd, p);
            var l' := Handle(spot.side.ledger, spot.bankNow, d.today, cfg.holdFor, call.request, d.newTxn).0;
            Got(cfg, timely, Unacknowledged(cfg, s, w, d), s0, w,
                spot.(phase := Awaiting(p, 1, c), side := spot.side.(ledger := l')))
  {
    hide Got, Handle, CallOf, Clean, Sending, LookingUp, Executing;
    GotWorker(cfg, timely, s, s0, w, spot);
    var c := |s.calls|;
    var v := Passage(spot.bankNow, d.today, d.newTxn, RunUnacknowledged, true, true);
    SendHop(cfg, timely, s, s0, w, spot);
    var s1 := Sending(s, w);
    var spot1 := spot.(phase := Awaiting(spot.phase.before, 1, c));
    StagesAgree(cfg, timely, s1, s0, w, spot1);
    LookupHop(cfg, timely, s1, s0, w, spot1, c, false);
    var s2 := LookingUp(s1, c, false);
    StagesAgree(cfg, timely, s2, s0, w, spot1);
    ExecuteHop(cfg, timely, s2, s0, w, spot1, c, v);
  }

  lemma UnheededThere(cfg: Config, timely: bool, s: State, s1: State, s2: State, d: Draw, cmd: Command, p: Payment, spot: Spot)
    requires Accepted(cmd) && s1 == WithWorker(cfg, s, d, cmd) && d.worker !in s.workers && |s.calls| == |s.stages|
    requires SameSurroundings(s1, s2) && d.worker in s2.workers && s2.workers[d.worker].phase.Calling?
    requires Got(cfg, timely, Unacknowledged(cfg, s2, d.worker, d), s1, d.worker, spot)
    requires spot.phase == Awaiting(p, 1, |s.calls|) && p.id in spot.db.payments && spot.db.payments[p.id] == p
    requires p.status == Authorized && p.captureKey != "" && Ref(p.holdId, CaptureTxn) in spot.side.ledger.index
    ensures Leads(cfg, timely, s1, Unacknowledged(cfg, s2, d.worker, d))
    ensures Unheeded(s, Unacknowledged(cfg, s2, d.worker, d), d.worker, p, |s.calls|)
  {
    hide Leads, Accepted, NewWorker, Unacknowledged;
    UnacknowledgedFrame(cfg, s2, d.worker, d);
  }

  /**
   * From every state that runs, or timely runs, reach: if nobody has tried to capture an authorized payment whose hold is
   * open, a capture whose commit goes unacknowledged strands its debit.
   */
  lemma DebitsDoStrand(cfg: Config, timely: bool, s: State, d: Draw, cmd: Command) returns (s': State)
    requires ValidConfig(cfg) && CanReach(cfg, timely, s) && Unused(s, d, cmd) && (timely ==> 0 <= cfg.timeout)
    requires cmd.Capture? && OpenHold(s, cmd.paymentId) && s.db.payments[cmd.paymentId].captureKey == ""
    ensures Leads(cfg, timely, s, s') && CanReach(cfg, timely, s') && Stranded(cfg, timely, s', cmd.paymentId)
  {
    hide Inv, ValidConfig, CanReach, Leads, Accepted, Enabled, RequestOf, Clean, IsPaymentId, Punctual, Reads, NewWorker, Unused,
         Drawn, Asks, SideOf, WithWorker, Stranded, Unheeded, Handle, LedgerOk, Claim, WellFormed, Behind, Agrees, Got, Claimable,
         Claiming, Unacknowledged;
    var row, w := s.db.payments[cmd.paymentId], d.worker;
    UnusedFacts(s, d, cmd);
    ArriveFirst(cfg, timely, s, d, cmd);
    NoCaptureYet(cfg, s, cmd.paymentId);
    LedgerIsOk(cfg, s);
    HoldOfRow(cfg, s, cmd.paymentId);
    OpenHoldCaptures(s.ledger, s.bankNow, cfg.holdFor, row.holdId, row.amount, d);
    ByStatus(cfg, s, d, cmd);
    var p, db := ExistingClaimed(cfg, s, d, cmd);
    BehindHold(row, p);
    var s1 := WithWorker(cfg, s, d, cmd);
    SameSide(cfg, s, d, cmd);
    SideLedger(s);
    StagesMatch(cfg, s);
    AsksIsRequest(cfg, s, d, cmd);
    ClaimHop(cfg, timely, s1, w, s.now, d.newId, d.newKey);
    ClaimFrame(cfg, s1, w, s.now, d.newId, d.newKey);
    var s2 := Claiming(cfg, s1, w, s.now, d.newId, d.newKey);
    SurroundingCalls(s1, s2);
    SameCalls(cfg, s, d, cmd);
    var spot := Spot(Calling(p, 0), db, SideOf(s1), s1.bankNow, s1.issued + {d.newId, d.newKey});
    UnacknowledgedPath(cfg, timely, s2, s1, w, spot, d);
    s' := Unacknowledged(cfg, s2, w, d);
    var l' := Handle(s.ledger, s.bankNow, d.today, cfg.holdFor, CaptureRequest(row.holdId, row.amount), d.newTxn).0;
    UnheededThere(cfg, timely, s, s1, s2, d, cmd, p, spot.(phase := Awaiting(p, 1, |s.calls|), side := spot.side.(ledger := l')));
    Join(cfg, timely, s, s1, s');
    Reach(cfg, timely, s, s');
    CanReachInv(cfg, timely, s');
    UnheededStrands(cfg, timely, s, s', w, p, |s.calls|);
  }

  lemma SameCalls(cfg: Config, s: State, d: Draw, cmd: Command)
    requires Accepted(cmd)
    ensures WithWorker(cfg, s, d, cmd).calls == s.calls && WithWorker(cfg, s, d, cmd).stages == s.stages
  {
    hide Accepted, NewWorker;
  }
}
