/** Claiming keeps the protocol invariant: new payments, newly pinned keys, and takeovers of stuck claims. */
module ClaimSteps {
  import opened Text
  import opened Domain
  import opened Commands
  import opened Fingerprints
  import opened Store
  import opened Bank
  import opened Client
  import opened Protocol
  import opened Invariants
  import opened Stability
  import opened Transitions
  import opened WorkerSteps
  import opened StoreSteps

  // ---- Names and pins ----

  lemma PinKnown(payments: map<string, Payment>, pins: map<PinKey, string>, issued: set<string>, k: PinKey)
    requires PinNames(payments, pins, issued)
    ensures k in pins ==> k.paymentId in payments && pins[k] in issued && pins[k] != ""
  {
  }

  lemma IdsIssued(payments: map<string, Payment>, pins: map<PinKey, string>, issued: set<string>, id: string)
    requires PinNames(payments, pins, issued)
    ensures id in payments ==> id in issued
  {
    assert id in payments ==> payments[id] == payments[id];
  }

  lemma MoreNames(payments: map<string, Payment>, pins: map<PinKey, string>, issued: set<string>, names: set<string>)
    requires PinNames(payments, pins, issued)
    ensures PinNames(payments, pins, issued + names)
  {
  }

  lemma IssuedInv(cfg: Config, s: State, names: set<string>)
    requires Inv(cfg, s)
    ensures Inv(cfg, s.(issued := s.issued + names))
  {
    hide Rows, Pinned, PinNames, Calls, LedgerOk, Origins, Replies, RowsAgree, WorkersAgree, Identities, Workers,
         Records, Trails, Advance, PinsGrow;
    MoreNames(s.db.payments, s.pins, s.issued, names);
  }

  /** A fresh name can be pinned for a bank operation that has no key yet. */
  lemma PinFresh(payments: map<string, Payment>, pins: map<PinKey, string>, issued: set<string>, k: PinKey, key: string)
    requires PinNames(payments, pins, issued) && k !in pins && k.paymentId in payments && key !in issued && key != ""
    ensures PinNames(payments, pins[k := key], issued + {key}) && PinsGrow(pins, pins[k := key])
  {
  }

  /** Pins of other payments do not concern a payment. */
  lemma OtherPins(pins: map<PinKey, string>, k: PinKey, key: string, p: Payment)
    requires KeysPinned(pins, p) && NoKeyLost(pins, p) && p.id != k.paymentId
    ensures KeysPinned(pins[k := key], p) && NoKeyLost(pins[k := key], p)
  {
  }

  lemma PinnedOthers(payments: map<string, Payment>, pins: map<PinKey, string>, k: PinKey, key: string, p: Payment)
    requires Pinned(payments, pins) && p.id == k.paymentId
    requires forall id {:trigger payments[id]} :: id in payments ==> payments[id].id == id
    requires KeysPinned(pins[k := key], p) && NoKeyLost(pins[k := key], p)
    ensures Pinned(payments[p.id := p], pins[k := key])
  {
    hide KeysPinned, NoKeyLost;
    var payments', pins' := payments[p.id := p], pins[k := key];
    forall id | id in payments' ensures PinOk(payments', pins', id) {
      if id != p.id {
        PinAt(payments, pins, id);
        OtherPins(pins, k, key, payments[id]);
      }
    }
  }

  lemma RowIds(payments: map<string, Payment>)
    requires Rows(payments)
    ensures forall id {:trigger payments[id]} :: id in payments ==> payments[id].id == id
  {
    forall id | id in payments ensures payments[id].id == id {
      assert RowOk(payments, id);
    }
  }

  // ---- Records ----

  lemma RecordsSet(payments: map<string, Payment>, payments': map<string, Payment>, workers: map<nat, Worker>,
                   records: map<RecordKey, Record>, leases: map<RecordKey, seq<Lease>>, stuckAfter: int,
                   k: RecordKey, rec: Record, history: seq<Lease>)
    requires Records(payments, workers, records, leases, stuckAfter) && Advance(payments, payments')
    requires RecordOk(payments', workers, records[k := rec], leases[k := history], stuckAfter, k)
    ensures Records(payments', workers, records[k := rec], leases[k := history], stuckAfter)
  {
    hide RecordOk, Advance, WorkersRemain;
    WorkersRemainReflexive(workers);
    var records', leases' := records[k := rec], leases[k := history];
    forall j | j in records' ensures RecordOk(payments', workers, records', leases', stuckAfter, j) {
      if j != k {
        RecordAt(payments, workers, records, leases, stuckAfter, j);
        RecordStable(payments, payments', workers, workers, records, records', leases, leases', stuckAfter, j);
      }
    }
  }

  /** A record just inserted by a worker. */
  lemma NewRecordOk(payments: map<string, Payment>, workers: map<nat, Worker>, records: map<RecordKey, Record>,
                    leases: map<RecordKey, seq<Lease>>, stuckAfter: int, w: nat, p: Payment, at: Time)
    requires w in workers && p.id in payments && payments[p.id] == p
    requires ClaimMatches(workers[w], p) && p.status == ExpectedStatus(OpOf(workers[w].cmd))
    requires KeyFor(OpOf(workers[w].cmd), p) != ""
    requires KeyOf(workers[w]) in records && KeyOf(workers[w]) in leases
    requires records[KeyOf(workers[w])] == Record(workers[w].fingerprint, p.id, InProgress, at)
    requires leases[KeyOf(workers[w])] == [Lease(w, at)]
    ensures RecordOk(payments, workers, records, leases, stuckAfter, KeyOf(workers[w]))
  {
    hide ClaimMatches;
  }

  // ---- A new payment ----

  /** The request of an authorization always carries a well-formed new payment. */
  lemma StartRequestOk(cfg: Config, now: Time, w: Worker, at: Time, newId: string, newKey: string)
    requires ValidConfig(cfg) && Identified(cfg, now, w) && w.cmd.Authorize?
    requires IsPaymentId(newId) && Clean(newKey) && at != NO_TIME
    ensures var r := RequestOf(cfg, w, at, newId, newKey);
            && r.Ok? && r.value.StartRequest?
            && var p := r.value.payment;
               && r.value == StartRequest(w.cmd.key, w.fingerprint, p, at, cfg.stuckAfter)
               && WellFormed(p) && p.status == Pending && p.id == newId && p.authKey == newKey
               && p.captureKey == "" && p.voidKey == "" && p.refundKey == "" && ClaimMatches(w, p)
  {
    hide CardText, RequestText, IsPaymentId, Clean, NewPendingPayment, WellFormed;
    NewPendingOk(newId, w.cmd.orderId, w.cmd.customerId, w.cmd.amount, newKey, w.cardFingerprint, at);
  }

  lemma NewPaymentPins(payments: map<string, Payment>, pins: map<PinKey, string>, issued: set<string>, p: Payment)
    requires PinNames(payments, pins, issued) && p.id !in payments && p.status == Pending
    requires p.captureKey == "" && p.voidKey == "" && p.refundKey == ""
    ensures var pins' := pins[PinKey(p.id, BankAuthorize) := p.authKey]; KeysPinned(pins', p) && NoKeyLost(pins', p)
    ensures PinKey(p.id, BankAuthorize) !in pins
  {
    forall op ensures PinKey(p.id, op) !in pins {
      PinKnown(payments, pins, issued, PinKey(p.id, op));
    }
  }

  lemma UnknownIds(payments: map<string, Payment>, pins: map<PinKey, string>, issued: set<string>, id: string)
    requires PinNames(payments, pins, issued) && id !in issued
    ensures id !in payments
  {
    IdsIssued(payments, pins, issued, id);
  }

  lemma NewIdUnknown(cfg: Config, s: State, id: string)
    requires Inv(cfg, s) && id !in s.issued
    ensures id !in s.db.payments
  {
    hide Rows, Pinned, PinNames, Calls, LedgerOk, Origins, Replies, RowsAgree, WorkersAgree, Identities, Workers,
         Records, Trails;
    UnknownIds(s.db.payments, s.pins, s.issued, id);
  }

  lemma WellFormedChecks(p: Payment)
    requires WellFormed(p)
    ensures TableChecks(p)
  {
    hide Normalized;
  }

  lemma PendingAgrees(b: Books, p: Payment)
    requires p.status == Pending
    ensures Agrees(b, p)
  {
  }

  /** The tables and the history after a claim. */
  function AfterClaim(s: State, w: nat, at: Time, newId: string, newKey: string, p: Payment, rec: Record,
                      history: seq<Lease>): State
    requires w in s.workers
  {
    var k := KeyOf(s.workers[w]);
    var op := OpOf(s.workers[w].cmd);
    s.(issued := s.issued + {newId, newKey},
       db := Db(s.db.payments[p.id := p], s.db.records[k := rec]),
       pins := s.pins[PinKey(p.id, BankOpOf(op)) := KeyFor(op, p)],
       leases := s.leases[k := history],
       trail := if p.id in s.trail then s.trail else s.trail[p.id := []])
  }

  /** Payments only moved forward, and no pinned key changed. */
  ghost predicate Onward(s: State, s': State) {
    Advance(s.db.payments, s'.db.payments) && PinsGrow(s.pins, s'.pins)
  }

  /** A claimed payment, as the worker will hold it. */
  ghost predicate ClaimOk(s: State, w: Worker, p: Payment) {
    Snapshot(s.db.payments, s.pins, w, p) && Agrees(BooksOf(s), p)
  }

  /** A new or newly pinned payment, with the record that a worker inserted for it. */
  lemma AcquiredInv(cfg: Config, s: State, w: nat, at: Time, newId: string, newKey: string, p: Payment)
    requires Inv(cfg, s) && w in s.workers
    requires WellFormed(p) && Agrees(BooksOf(s), p)
    requires p.status == ExpectedStatus(OpOf(s.workers[w].cmd)) && KeyFor(OpOf(s.workers[w].cmd), p) != ""
    requires ClaimMatches(s.workers[w], p)
    requires p.id in s.db.payments ==> Behind(s.db.payments[p.id], p) && s.db.payments[p.id].status == p.status
    requires p.id !in s.db.payments ==> p.status == Pending
    requires var k := PinKey(p.id, BankOpOf(OpOf(s.workers[w].cmd)));
             var pins' := s.pins[k := KeyFor(OpOf(s.workers[w].cmd), p)];
             && KeysPinned(pins', p) && NoKeyLost(pins', p) && PinsGrow(s.pins, pins')
             && PinNames(s.db.payments[p.id := p], pins', s.issued + {newId, newKey})
    ensures var s' := AfterClaim(s, w, at, newId, newKey, p,
                                 Record(s.workers[w].fingerprint, p.id, InProgress, at), [Lease(w, at)]);
            Inv(cfg, s') && ClaimOk(s', s.workers[w], p) && Onward(s, s')
  {
    hide Rows, Pinned, PinNames, Calls, LedgerOk, Origins, Replies, RowsAgree, WorkersAgree, Identities, Workers,
         Records, Trails, Agrees, WellFormed, KeysPinned, NoKeyLost, Behind, Advance, PinsGrow, ClaimMatches, RecordOk;
    var worker := s.workers[w];
    var rec, history := Record(worker.fingerprint, p.id, InProgress, at), [Lease(w, at)];
    var s' := AfterClaim(s, w, at, newId, newKey, p, rec, history);
    var payments := s.db.payments;
    RowsWith(payments, p);
    RowsAgreeWith(BooksOf(s), payments, p);
    AdvanceWith(payments, p);
    RowIds(payments);
    PinnedOthers(payments, s.pins, PinKey(p.id, BankOpOf(OpOf(worker.cmd))), KeyFor(OpOf(worker.cmd), p), p);
    NewRecordOk(s'.db.payments, s.workers, s'.db.records, s'.leases, cfg.stuckAfter, w, p, at);
    RecordsSet(payments, s'.db.payments, s.workers, s.db.records, s.leases, cfg.stuckAfter, KeyOf(worker), rec, history);
    TrailsClaimed(payments, s.trail, p);
    StoreInv(cfg, s, s');
    BehindReflexive(p);
  }

  lemma TrailsClaimed(payments: map<string, Payment>, trail: map<string, seq<Move>>, p: Payment)
    requires Trails(payments, trail)
    requires p.id in payments ==> payments[p.id].status == p.status
    requires p.id !in payments ==> p.status == Pending
    ensures Trails(payments[p.id := p], if p.id in trail then trail else trail[p.id := []])
  {
  }

  lemma StartAcquiredInv(cfg: Config, s: State, w: nat, at: Time, newId: string, newKey: string, p: Payment)
    requires Inv(cfg, s) && w in s.workers && s.workers[w].cmd.Authorize?
    requires newId !in s.issued && newKey !in s.issued && newId != newKey && newKey != ""
    requires WellFormed(p) && p.status == Pending && p.id == newId && p.authKey == newKey
    requires p.captureKey == "" && p.voidKey == "" && p.refundKey == "" && ClaimMatches(s.workers[w], p)
    ensures var s' := AfterClaim(s, w, at, newId, newKey, p,
                                 Record(s.workers[w].fingerprint, p.id, InProgress, at), [Lease(w, at)]);
            Inv(cfg, s') && ClaimOk(s', s.workers[w], p) && Onward(s, s')
  {
    hide Rows, Pinned, PinNames, Calls, LedgerOk, Origins, Replies, RowsAgree, WorkersAgree, Identities, Workers,
         Records, Trails, Agrees, WellFormed, KeysPinned, NoKeyLost, Behind, PinsGrow, ClaimMatches;
    var payments := s.db.payments;
    UnknownIds(payments, s.pins, s.issued, newId);
    NewPaymentPins(payments, s.pins, s.issued, p);
    PendingAgrees(BooksOf(s), p);
    MoreNames(payments, s.pins, s.issued, {newId});
    PinNamesWith(payments, s.pins, s.issued + {newId}, p);
    PinFresh(payments[p.id := p], s.pins, s.issued + {newId}, PinKey(newId, BankAuthorize), newKey);
    assert s.issued + {newId} + {newKey} == s.issued + {newId, newKey};
    hide Inv;
    AcquiredInv(cfg, s, w, at, newId, newKey, p);
  }

  // ---- An existing payment ----

  /** Pinning the key that the row already has, or a fresh one, keeps every pin. */
  lemma EnsuredPins(pins: map<PinKey, string>, op: Op, row: Payment, p: Payment, newKey: string)
    requires op != AuthorizeOp && row.status == ExpectedStatus(op)
    requires KeysPinned(pins, row) && NoKeyLost(pins, row)
    requires PinKey(row.id, BankOpOf(op)) in pins ==> pins[PinKey(row.id, BankOpOf(op))] != ""
    requires KeyFor(op, p) == (if KeyFor(op, row) != "" then KeyFor(op, row) else newKey)
    requires p == (match op
                   case CaptureOp => row.(captureKey := KeyFor(op, p))
                   case VoidOp => row.(voidKey := KeyFor(op, p))
                   case RefundOp => row.(refundKey := KeyFor(op, p))
                   case _ => row)
    ensures var k := PinKey(row.id, BankOpOf(op));
            && (k in pins ==> pins[k] == KeyFor(op, p))
            && (k !in pins ==> KeyFor(op, p) == newKey)
            && KeysPinned(pins[k := KeyFor(op, p)], p) && NoKeyLost(pins[k := KeyFor(op, p)], p)
  {
  }

  lemma PinNamesKept(payments: map<string, Payment>, pins: map<PinKey, string>, issued: set<string>, k: PinKey, key: string,
                     newKey: string)
    requires PinNames(payments, pins, issued) && k.paymentId in payments && newKey !in issued && newKey != ""
    requires k in pins ==> pins[k] == key
    requires k !in pins ==> key == newKey
    ensures PinNames(payments, pins[k := key], issued + {newKey}) && PinsGrow(pins, pins[k := key])
  {
    if k in pins {
      assert pins[k := key] == pins;
    }
  }

  lemma AgreesAt(b: Books, payments: map<string, Payment>, id: string)
    requires RowsAgree(b, payments) && id in payments
    ensures Agrees(b, payments[id])
  {
    hide Agrees;
  }

  lemma EnsuredAgrees(b: Books, op: Op, row: Payment, newKey: string)
    requires Agrees(b, row) && EnsureKey(op, row, newKey).Ok?
    ensures Agrees(b, EnsureKey(op, row, newKey).value)
  {
    hide MadeFor, Lapsed, NormalizeRequired;
  }

  lemma MatchesExisting(w: Worker, row: Payment)
    requires !w.cmd.Authorize? && row.id == w.cmd.paymentId
    requires w.cmd.Retry? ==> row.cardFingerprint == w.cardFingerprint
    ensures ClaimMatches(w, row)
  {
  }

  /** What pinning a key for an existing payment produces. */
  lemma ExistingFacts(cfg: Config, s: State, w: nat, newKey: string)
    requires Inv(cfg, s) && w in s.workers && !s.workers[w].cmd.Authorize? && newKey !in s.issued && Clean(newKey)
    requires Claimable(s, w)
    ensures var op := OpOf(s.workers[w].cmd);
            var row := s.db.payments[s.workers[w].cmd.paymentId];
            var r := EnsureKey(op, row, newKey);
            && r.Ok? && row.id == s.workers[w].cmd.paymentId == r.value.id
            && var p := r.value;
               var k := PinKey(p.id, BankOpOf(op));
               && WellFormed(p) && Behind(row, p) && p.status == row.status && Agrees(BooksOf(s), p)
               && KeyFor(op, p) != "" && newKey != ""
               && (k in s.pins ==> s.pins[k] == KeyFor(op, p)) && (k !in s.pins ==> KeyFor(op, p) == newKey)
               && KeysPinned(s.pins[k := KeyFor(op, p)], p) && NoKeyLost(s.pins[k := KeyFor(op, p)], p)
               && PinNames(s.db.payments, s.pins, s.issued) && ClaimMatches(s.workers[w], p)
  {
    hide Rows, Pinned, PinNames, Calls, LedgerOk, Origins, Replies, RowsAgree, WorkersAgree, Identities, Workers,
         Records, Trails, Agrees, WellFormed, KeysPinned, NoKeyLost, Behind, ClaimMatches, EnsureKey, Clean;
    var worker := s.workers[w];
    var op := OpOf(worker.cmd);
    var id := worker.cmd.paymentId;
    var row := s.db.payments[id];
    RowAt(s.db.payments, id);
    PinAt(s.db.payments, s.pins, id);
    EnsuredOk(op, row, newKey);
    var p := EnsureKey(op, row, newKey).value;
    BehindIdentity(row, p);
    IdentityIds(row, p);
    PinKnown(s.db.payments, s.pins, s.issued, PinKey(id, BankOpOf(op)));
    EnsuredPins(s.pins, op, row, p, newKey);
    AgreesAt(BooksOf(s), s.db.payments, id);
    EnsuredAgrees(BooksOf(s), op, row, newKey);
    MatchesExisting(worker, row);
    ClaimMatchesStable(worker, worker, row, p);
    EnsuredKeyPresent(op, row, p, newKey);
  }

  /** The worker's payment is there, with the status and the card that its command needs. */
  predicate Claimable(s: State, w: nat)
    requires w in s.workers && !s.workers[w].cmd.Authorize?
  {
    var worker := s.workers[w];
    && worker.cmd.paymentId in s.db.payments
    && s.db.payments[worker.cmd.paymentId].status == ExpectedStatus(OpOf(worker.cmd))
    && (worker.cmd.Retry? ==> s.db.payments[worker.cmd.paymentId].cardFingerprint == worker.cardFingerprint)
  }

  lemma ExistingAcquiredInv(cfg: Config, s: State, w: nat, at: Time, newId: string, newKey: string)
    requires Inv(cfg, s) && w in s.workers && !s.workers[w].cmd.Authorize? && newKey !in s.issued && Clean(newKey)
    requires Claimable(s, w)
    ensures var op := OpOf(s.workers[w].cmd);
            var r := EnsureKey(op, s.db.payments[s.workers[w].cmd.paymentId], newKey);
            && r.Ok? && r.value.id == s.workers[w].cmd.paymentId
            && var s' := AfterClaim(s, w, at, newId, newKey, r.value,
                                    Record(s.workers[w].fingerprint, r.value.id, InProgress, at), [Lease(w, at)]);
               Inv(cfg, s') && ClaimOk(s', s.workers[w], r.value) && Onward(s, s')
  {
    hide Inv, PinNames, Agrees, WellFormed, KeysPinned, NoKeyLost, Behind, PinsGrow, ClaimMatches, EnsureKey, Clean;
    ExistingFacts(cfg, s, w, newKey);
    var op := OpOf(s.workers[w].cmd);
    var payments := s.db.payments;
    var p := EnsureKey(op, payments[s.workers[w].cmd.paymentId], newKey).value;
    var k := PinKey(p.id, BankOpOf(op));
    var pins' := s.pins[k := KeyFor(op, p)];
    PinNamesKept(payments, s.pins, s.issued, k, KeyFor(op, p), newKey);
    MoreNames(payments, pins', s.issued + {newKey}, {newId});
    assert s.issued + {newKey} + {newId} == s.issued + {newId, newKey};
    KnownIds(payments, s.pins, s.issued, p.id);
    PinNamesWith(payments, pins', s.issued + {newId, newKey}, p);
    AcquiredInv(cfg, s, w, at, newId, newKey, p);
  }

  lemma EnsuredKeyPresent(op: Op, row: Payment, p: Payment, newKey: string)
    requires Clean(newKey) && KeyFor(op, p) == (if KeyFor(op, row) != "" then KeyFor(op, row) else newKey)
    ensures KeyFor(op, p) != "" && newKey != ""
  {
  }

  // ---- Taking over a stuck claim ----

  /** Equal fingerprints mean the same request, so a takeover is about the same payment and card. */
  lemma SameFingerprintMatches(cfg: Config, now: Time, a: Worker, b: Worker, p: Payment)
    requires ValidConfig(cfg) && Identified(cfg, now, a) && Identified(cfg, now, b)
    requires a.fingerprint == b.fingerprint && ClaimMatches(a, p)
    ensures ClaimMatches(b, p) && SameRequest(a.cmd, b.cmd) && a.cardFingerprint == b.cardFingerprint
  {
    hide RequestText, Clean, IsPaymentId, Decimal;
    SameTextSameRequest(a.cmd, b.cmd);
  }

  /** The record with its new owner. */
  lemma RecoveredRecordOk(payments: map<string, Payment>, workers: map<nat, Worker>, records: map<RecordKey, Record>,
                          records': map<RecordKey, Record>, leases: map<RecordKey, seq<Lease>>,
                          leases': map<RecordKey, seq<Lease>>, stuckAfter: int, k: RecordKey, w: nat, at: Time)
    requires k in records && RecordOk(payments, workers, records, leases, stuckAfter, k)
    requires w in workers && KeyOf(workers[w]) == k && workers[w].fingerprint == records[k].fingerprint
    requires ClaimMatches(workers[w], payments[records[k].paymentId])
    requires records[k].claimedAt + stuckAfter <= at
    requires k in records' && records'[k] == records[k].(claimedAt := at)
    requires k in leases' && leases'[k] == leases[k] + [Lease(w, at)]
    ensures RecordOk(payments, workers, records', leases', stuckAfter, k)
  {
    hide ClaimMatches, Reaches, ResultFits;
    var earlier, history := leases[k], leases'[k];
    forall i | 0 <= i < |history| - 1 ensures history[i].at + stuckAfter <= history[i + 1].at {
      if i < |earlier| - 1 {
        assert earlier[i].at + stuckAfter <= earlier[i + 1].at;
      }
    }
  }

  /** A stuck record's payment, if it still has the expected status, can be claimed as it is. */
  lemma RecoverableSnapshot(cfg: Config, s: State, w: nat, k: RecordKey)
    requires ValidConfig(cfg) && Inv(cfg, s) && w in s.workers && k == KeyOf(s.workers[w]) && k in s.db.records
    requires s.db.records[k].progress.InProgress? && s.db.records[k].fingerprint == s.workers[w].fingerprint
    ensures var rec := s.db.records[k];
            && rec.paymentId in s.db.payments
            && var p := s.db.payments[rec.paymentId];
               && p.id == rec.paymentId && ClaimMatches(s.workers[w], p)
               && RecordOk(s.db.payments, s.workers, s.db.records, s.leases, cfg.stuckAfter, k)
               && (p.status == ExpectedStatus(k.op) ==> ClaimOk(s, s.workers[w], p))
               && IsPinned(s.pins, p.id, BankAuthorize, p.authKey)
  {
    hide Rows, Pinned, PinNames, Calls, LedgerOk, Origins, Replies, WorkersAgree, Identities, Workers,
         Records, Trails, Agrees, WellFormed, NoKeyLost, Behind, ClaimMatches, Identified;
    RecordAt(s.db.payments, s.workers, s.db.records, s.leases, cfg.stuckAfter, k);
    var id := s.db.records[k].paymentId;
    var o := Owner(s.leases[k]).worker;
    IdentityAt(cfg, s.now, s.workers, o);
    IdentityAt(cfg, s.now, s.workers, w);
    SameFingerprintMatches(cfg, s.now, s.workers[o], s.workers[w], s.db.payments[id]);
    RowAt(s.db.payments, id);
    PinAt(s.db.payments, s.pins, id);
    BehindReflexive(s.db.payments[id]);
  }

  lemma RecoveredInv(cfg: Config, s: State, w: nat, at: Time, newId: string, newKey: string)
    requires ValidConfig(cfg) && Inv(cfg, s) && w in s.workers && KeyOf(s.workers[w]) in s.db.records
    requires var rec := s.db.records[KeyOf(s.workers[w])];
             && rec.progress.InProgress? && rec.fingerprint == s.workers[w].fingerprint
             && rec.claimedAt + cfg.stuckAfter <= at
             && rec.paymentId in s.db.payments
             && s.db.payments[rec.paymentId].status == ExpectedStatus(OpOf(s.workers[w].cmd))
    ensures var k := KeyOf(s.workers[w]);
            var rec := s.db.records[k];
            var p := s.db.payments[rec.paymentId];
            && k in s.leases && p.id == rec.paymentId
            && var s' := AfterClaim(s, w, at, newId, newKey, p, rec.(claimedAt := at), s.leases[k] + [Lease(w, at)]);
               Inv(cfg, s') && ClaimOk(s', s.workers[w], p) && Onward(s, s')
  {
    hide Rows, Pinned, PinNames, Calls, LedgerOk, Origins, Replies, RowsAgree, WorkersAgree, Identities, Workers,
         Records, Trails, Agrees, WellFormed, KeysPinned, NoKeyLost, Behind, Advance, PinsGrow, ClaimMatches, RecordOk;
    var worker := s.workers[w];
    var k := KeyOf(worker);
    var op := OpOf(worker.cmd);
    RecoverableSnapshot(cfg, s, w, k);
    LeaseKeys(cfg, s);
    var rec := s.db.records[k];
    var payments := s.db.payments;
    var p := payments[rec.paymentId];
    var rec', history := rec.(claimedAt := at), s.leases[k] + [Lease(w, at)];
    var s' := AfterClaim(s, w, at, newId, newKey, p, rec', history);
    HeldKeyPinned(s.pins, op, p);
    assert s'.pins == s.pins;
    assert s'.db.payments == payments;
    TrailKnown(payments, s.trail, p.id);
    MoreNames(payments, s.pins, s.issued, {newId, newKey});
    AdvanceReflexive(payments);
    PinsGrowReflexive(s.pins);
    RecoveredRecordOk(payments, s.workers, s.db.records, s'.db.records, s.leases, s'.leases, cfg.stuckAfter, k, w, at);
    RecordsSet(payments, payments, s.workers, s.db.records, s.leases, cfg.stuckAfter, k, rec', history);
    StoreInv(cfg, s, s');
  }

  /** The key a worker would use is the pinned one. */
  lemma HeldKeyPinned(pins: map<PinKey, string>, op: Op, p: Payment)
    requires KeysPinned(pins, p) && KeyFor(op, p) != ""
    ensures IsPinned(pins, p.id, BankOpOf(op), KeyFor(op, p))
  {
  }

  // ---- The claim step ----

  lemma ClaimedInv(cfg: Config, s: State, w: nat, p: Payment)
    requires Inv(cfg, s) && w in s.workers && ClaimOk(s, s.workers[w], p)
    ensures Inv(cfg, SetPhase(s, w, Calling(p, 0)))
  {
    hide Inv, Snapshot, Agrees;
    SnapshotIgnoresPhase(s.db.payments, s.pins, s.workers[w], Calling(p, 0), p);
    SetPhaseInv(cfg, s, w, Calling(p, 0));
  }

  lemma IdentifiedHere(cfg: Config, s: State, w: nat)
    requires Inv(cfg, s) && w in s.workers
    ensures Identified(cfg, s.now, s.workers[w])
  {
    hide Rows, Pinned, PinNames, Calls, LedgerOk, Origins, Replies, RowsAgree, WorkersAgree, Identities, Workers,
         Records, Trails, CardText, RequestText;
    IdentityAt(cfg, s.now, s.workers, w);
  }

  /** The worker's request is well-formed, whatever its command. */
  lemma RequestIsOk(cfg: Config, now: Time, w: Worker, at: Time, newId: string, newKey: string)
    requires ValidConfig(cfg) && Identified(cfg, now, w) && IsPaymentId(newId) && Clean(newKey) && w.start <= at
    ensures var r := RequestOf(cfg, w, at, newId, newKey);
            && r.Ok? && r.value.now == at && r.value.now != NO_TIME && r.value.stuckAfter == cfg.stuckAfter
            && RequestKey(r.value) == KeyOf(w) && r.value.fingerprint == w.fingerprint
            && (r.value.StartRequest? <==> w.cmd.Authorize?)
            && (r.value.ExistingRequest? ==>
                  && r.value.paymentId == w.cmd.paymentId && r.value.newKey == newKey && r.value.op == OpOf(w.cmd)
                  && r.value.cardFingerprint == w.cardFingerprint && r.value.op != AuthorizeOp)
  {
    hide CardText, RequestText, IsPaymentId, Clean, NewPendingPayment, WellFormed, ClaimMatches;
    if w.cmd.Authorize? {
      StartRequestOk(cfg, now, w, at, newId, newKey);
    }
  }

  lemma CardFingerprintPresent(cfg: Config, now: Time, w: Worker)
    requires ValidConfig(cfg) && Identified(cfg, now, w)
    ensures w.cmd.Authorize? || w.cmd.Retry? ==> w.cardFingerprint != ""
    ensures !w.cmd.Authorize? && !w.cmd.Retry? ==> w.cardFingerprint == ""
  {
    hide CardText, RequestText, IsPaymentId;
  }

  lemma ClaimInv(cfg: Config, s: State, w: nat, at: Time, newId: string, newKey: string)
    requires ValidConfig(cfg) && Inv(cfg, s) && w in s.workers && s.workers[w].start <= at
    requires newId !in s.issued && IsPaymentId(newId) && newKey !in s.issued && Clean(newKey) && newId != newKey
    ensures var s' := Claiming(cfg, s, w, at, newId, newKey); Inv(cfg, s') && Onward(s, s')
  {
    hide Inv, ValidConfig, Identified, IsPaymentId, Clean, RequestOf, WellFormed, ClaimMatches, ClaimOk, EnsureKey,
         RequestKey, TableChecks;
    var worker := s.workers[w];
    IdentifiedHere(cfg, s, w);
    RequestIsOk(cfg, s.now, worker, at, newId, newKey);
    AdvanceReflexive(s.db.payments);
    PinsGrowReflexive(s.pins);
    var request := RequestOf(cfg, worker, at, newId, newKey).value;
    var (db', outcome) := Claim(s.db, request);
    if outcome.Claimed? {
      ClaimSucceedsInv(cfg, s, w, at, newId, newKey, request);
    } else {
      hide Claim;
      IssuedInv(cfg, s, {newId, newKey});
      var s0 := s.(issued := s.issued + {newId, newKey});
      match outcome
      case ClaimFailed(kind) => FinishInv(cfg, s0, w, Failure(kind));
      case Replayed(result) => FinishInv(cfg, s0, w, Replay(result));
    }
  }

  lemma ClaimSucceedsInv(cfg: Config, s: State, w: nat, at: Time, newId: string, newKey: string, request: ClaimRequest)
    requires ValidConfig(cfg) && Inv(cfg, s) && w in s.workers && s.workers[w].start <= at
    requires newId !in s.issued && IsPaymentId(newId) && newKey !in s.issued && Clean(newKey) && newId != newKey
    requires RequestOf(cfg, s.workers[w], at, newId, newKey) == Ok(request) && Claim(s.db, request).1.Claimed?
    ensures var s' := Claiming(cfg, s, w, at, newId, newKey); Inv(cfg, s') && Onward(s, s')
  {
    hide Inv, ValidConfig, Identified, IsPaymentId, Clean, WellFormed, ClaimMatches, ClaimOk, EnsureKey, TableChecks,
         RequestOf, Claim, Claiming;
    IdentifiedHere(cfg, s, w);
    RequestIsOk(cfg, s.now, s.workers[w], at, newId, newKey);
    if CanRecover(s.db, request) {
      ClaimRecoveredInv(cfg, s, w, at, newId, newKey, request);
    } else if s.workers[w].cmd.Authorize? {
      ClaimStartedInv(cfg, s, w, at, newId, newKey, request);
    } else {
      ClaimExistingInv(cfg, s, w, at, newId, newKey, request);
    }
  }

  lemma ClaimRecoveredInv(cfg: Config, s: State, w: nat, at: Time, newId: string, newKey: string, request: ClaimRequest)
    requires ValidConfig(cfg) && Inv(cfg, s) && w in s.workers && Identified(cfg, s.now, s.workers[w])
    requires IsPaymentId(newId) && Clean(newKey) && s.workers[w].start <= at
    requires RequestOf(cfg, s.workers[w], at, newId, newKey) == Ok(request) && CanRecover(s.db, request)
    requires Claim(s.db, request).1.Claimed?
    ensures var s' := Claiming(cfg, s, w, at, newId, newKey); Inv(cfg, s') && Onward(s, s')
  {
    hide Inv, ValidConfig, Identified, IsPaymentId, Clean, ClaimOk, RequestOf;
    var worker := s.workers[w];
    var k := KeyOf(worker);
    RequestIsOk(cfg, s.now, worker, at, newId, newKey);
    LeaseKeys(cfg, s);
    var p := Claim(s.db, request).1.payment;
    RecoveredInv(cfg, s, w, at, newId, newKey);
    var s' := AfterClaim(s, w, at, newId, newKey, p, s.db.records[k].(claimedAt := at), s.leases[k] + [Lease(w, at)]);
    ClaimedInv(cfg, s', w, p);
    assert s.db.payments[p.id := p] == s.db.payments;
    assert Claiming(cfg, s, w, at, newId, newKey) == SetPhase(s', w, Calling(p, 0));
  }

  lemma ClaimStartedInv(cfg: Config, s: State, w: nat, at: Time, newId: string, newKey: string, request: ClaimRequest)
    requires ValidConfig(cfg) && Inv(cfg, s) && w in s.workers && Identified(cfg, s.now, s.workers[w])
    requires newId !in s.issued && IsPaymentId(newId) && newKey !in s.issued && Clean(newKey) && newId != newKey
    requires s.workers[w].cmd.Authorize? && s.workers[w].start <= at
    requires RequestOf(cfg, s.workers[w], at, newId, newKey) == Ok(request) && !CanRecover(s.db, request)
    requires Claim(s.db, request).1.Claimed?
    ensures var s' := Claiming(cfg, s, w, at, newId, newKey); Inv(cfg, s') && Onward(s, s')
  {
    hide Inv, ValidConfig, Identified, IsPaymentId, Clean, ClaimOk, RequestOf, WellFormed, ClaimMatches, TableChecks;
    var worker := s.workers[w];
    RequestIsOk(cfg, s.now, worker, at, newId, newKey);
    StartRequestOk(cfg, s.now, worker, at, newId, newKey);
    CleanIsPresent(newKey);
    var p := request.payment;
    StartAcquiredInv(cfg, s, w, at, newId, newKey, p);
    var s' := AfterClaim(s, w, at, newId, newKey, p, Record(worker.fingerprint, p.id, InProgress, at), [Lease(w, at)]);
    ClaimedInv(cfg, s', w, p);
    assert [] + [Lease(w, at)] == [Lease(w, at)];
    assert Claiming(cfg, s, w, at, newId, newKey) == SetPhase(s', w, Calling(p, 0));
  }

  lemma ClaimExistingInv(cfg: Config, s: State, w: nat, at: Time, newId: string, newKey: string, request: ClaimRequest)
    requires ValidConfig(cfg) && Inv(cfg, s) && w in s.workers && Identified(cfg, s.now, s.workers[w])
    requires IsPaymentId(newId) && newKey !in s.issued && Clean(newKey)
    requires !s.workers[w].cmd.Authorize? && s.workers[w].start <= at
    requires RequestOf(cfg, s.workers[w], at, newId, newKey) == Ok(request) && !CanRecover(s.db, request)
    requires Claim(s.db, request).1.Claimed?
    ensures var s' := Claiming(cfg, s, w, at, newId, newKey); Inv(cfg, s') && Onward(s, s')
  {
    hide Inv, ValidConfig, Identified, IsPaymentId, Clean, ClaimOk, RequestOf, EnsureKey, TableChecks;
    var worker := s.workers[w];
    RequestIsOk(cfg, s.now, worker, at, newId, newKey);
    CardFingerprintPresent(cfg, s.now, worker);
    ExistingAcquiredInv(cfg, s, w, at, newId, newKey);
    var p := Claim(s.db, request).1.payment;
    var s' := AfterClaim(s, w, at, newId, newKey, p, Record(worker.fingerprint, p.id, InProgress, at), [Lease(w, at)]);
    ClaimedInv(cfg, s', w, p);
    assert [] + [Lease(w, at)] == [Lease(w, at)];
    assert Claiming(cfg, s, w, at, newId, newKey) == SetPhase(s', w, Calling(p, 0));
  }

  lemma CleanIsPresent(s: string)
    requires Clean(s)
    ensures s != ""
  {
  }
}
