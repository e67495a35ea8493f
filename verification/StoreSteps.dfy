/** The store's steps keep the protocol invariant: claiming, completing, releasing and cleaning up. */
module StoreSteps {
  import opened Domain
  import opened Errors
  import opened Commands
  import opened Store
  import opened Bank
  import opened Protocol
  import opened Invariants
  import opened Stability
  import opened WorkerSteps

  // ---- Changing the tables ----

  /** A state in which only the tables and the history moved; the workers are as they were. */
  lemma StoreInv(cfg: Config, s: State, s': State)
    requires Inv(cfg, s)
    requires s' == s.(db := s'.db, issued := s'.issued, pins := s'.pins, leases := s'.leases, trail := s'.trail)
    requires Advance(s.db.payments, s'.db.payments) && PinsGrow(s.pins, s'.pins)
    requires Rows(s'.db.payments) && Pinned(s'.db.payments, s'.pins) && PinNames(s'.db.payments, s'.pins, s'.issued)
    requires RowsAgree(BooksOf(s), s'.db.payments) && Trails(s'.db.payments, s'.trail)
    requires Records(s'.db.payments, s.workers, s'.db.records, s'.leases, cfg.stuckAfter)
    ensures Inv(cfg, s')
  {
    hide Rows, Pinned, PinNames, Calls, LedgerOk, Origins, Replies, RowsAgree, WorkersAgree, Identities, Workers,
         Records, Trails, Advance, PinsGrow;
    CallsStable(cfg, s.db.payments, s'.db.payments, s.pins, s'.pins, s.calls);
    WorkersStable(s.db.payments, s'.db.payments, s.pins, s'.pins, s.calls, s.calls, s.workers);
  }

  /** Records only disappear. */
  lemma FewerRecords(payments: map<string, Payment>, workers: map<nat, Worker>,
                     records: map<RecordKey, Record>, records': map<RecordKey, Record>,
                     leases: map<RecordKey, seq<Lease>>, leases': map<RecordKey, seq<Lease>>, stuckAfter: int)
    requires Records(payments, workers, records, leases, stuckAfter)
    requires leases'.Keys == records'.Keys
    requires forall k {:trigger records'[k]} {:trigger leases'[k]} :: k in records' ==>
               k in records && records'[k] == records[k] && k in leases' && k in leases && leases'[k] == leases[k]
    ensures Records(payments, workers, records', leases', stuckAfter)
  {
    hide RecordOk, Advance, WorkersRemain;
    AdvanceReflexive(payments);
    WorkersRemainReflexive(workers);
    forall k | k in records' ensures RecordOk(payments, workers, records', leases', stuckAfter, k) {
      assert records'[k] == records[k] && leases'[k] == leases[k];
      RecordAt(payments, workers, records, leases, stuckAfter, k);
      RecordStable(payments, payments, workers, workers, records, records', leases, leases', stuckAfter, k);
    }
  }

  lemma WorkersRemainReflexive(workers: map<nat, Worker>)
    ensures WorkersRemain(workers, workers)
  {
  }

  lemma RecordKeys(payments: map<string, Payment>, workers: map<nat, Worker>, records: map<RecordKey, Record>,
                   leases: map<RecordKey, seq<Lease>>, stuckAfter: int)
    requires Records(payments, workers, records, leases, stuckAfter)
    ensures leases.Keys == records.Keys
  {
    hide RecordOk;
  }

  lemma FewerRecordsInv(cfg: Config, s: State, s': State)
    requires Inv(cfg, s)
    requires s' == s.(db := s.db.(records := s'.db.records), leases := s'.leases)
    requires s'.leases.Keys == s'.db.records.Keys
    requires forall k {:trigger s'.db.records[k]} {:trigger s'.leases[k]} :: k in s'.db.records ==>
               && k in s.db.records && s'.db.records[k] == s.db.records[k]
               && k in s'.leases && k in s.leases && s'.leases[k] == s.leases[k]
    ensures Inv(cfg, s')
  {
    hide Rows, Pinned, PinNames, Calls, LedgerOk, Origins, Replies, RowsAgree, WorkersAgree, Identities, Workers,
         Records, Trails, Advance, PinsGrow;
    FewerRecords(s.db.payments, s.workers, s.db.records, s'.db.records, s.leases, s'.leases, cfg.stuckAfter);
    AdvanceReflexive(s.db.payments);
    PinsGrowReflexive(s.pins);
    StoreInv(cfg, s, s');
  }

  lemma LeaseKeys(cfg: Config, s: State)
    requires Inv(cfg, s)
    ensures s.leases.Keys == s.db.records.Keys
  {
    hide Rows, Pinned, PinNames, Calls, LedgerOk, Origins, Replies, RowsAgree, WorkersAgree, Identities, Workers,
         Records, Trails;
    RecordKeys(s.db.payments, s.workers, s.db.records, s.leases, cfg.stuckAfter);
  }

  lemma ReleaseInv(cfg: Config, s: State, w: nat)
    requires Inv(cfg, s) && w in s.workers && s.workers[w].phase.Releasing?
    ensures Inv(cfg, LettingGo(s, w))
  {
    hide Inv;
    LeaseKeys(cfg, s);
    var worker := s.workers[w];
    var k := KeyOf(worker);
    var db' := Release(s.db, HeldBy(worker, worker.phase.before));
    var s1 := s.(db := db', leases := if k in db'.records then s.leases else s.leases - {k});
    assert s1.leases.Keys == db'.records.Keys;
    FewerRecordsInv(cfg, s, s1);
    FinishInv(cfg, s1, w, Failure(worker.phase.kind));
  }

  lemma CleanupInv(cfg: Config, s: State, at: Time)
    requires Inv(cfg, s)
    ensures Inv(cfg, Cleaning(s, at))
  {
    hide Inv, IsOld;
    LeaseKeys(cfg, s);
    var s' := Cleaning(s, at);
    assert s'.leases.Keys == s'.db.records.Keys;
    FewerRecordsInv(cfg, s, s');
  }

  // ---- Completing ----

  /** A pending snapshot of a still pending row is the row. */
  lemma PendingSnapshotIsRow(p: Payment, row: Payment)
    requires WellFormed(p) && WellFormed(row) && Behind(p, row) && p.status == Pending && row.status == Pending
    ensures p == row
  {
    hide Normalized, IsPaymentId;
  }

  /** The row that a completion writes is exactly the payment the worker prepared. */
  lemma OverwriteIsAfter(p: Payment, after: Payment, row: Payment)
    requires SameIdentity(p, after) && SameIdentity(p, row)
    ensures Overwrite(row, after) == after
  {
  }

  /** A transition prepared from a snapshot is also a transition of the current row, if the status is still that. */
  lemma MovedFromRow(p: Payment, after: Payment, row: Payment)
    requires Moved(p, after) && Behind(p, row) && p.status == row.status
    ensures Behind(row, after)
  {
  }

  lemma PreparedIdentity(op: Op, p: Payment, after: Payment, failure: Option<ErrorKind>)
    requires Prepared(op, p, after, failure)
    ensures SameIdentity(p, after) && WellFormed(after) && (p.status == after.status <==> p == after)
    ensures Reaches(p.status, after.status) && (p == after ==> op == AuthorizeOp)
  {
    hide WellFormed;
  }

  /** The completed row keeps every pinned key that still matters. */
  lemma CompletedKeys(pins: map<PinKey, string>, p: Payment, after: Payment, row: Payment)
    requires KeysPinned(pins, p) && NoKeyLost(pins, row) && Moved(p, after) && p.status == row.status && p.id == row.id
    ensures KeysPinned(pins, after) && NoKeyLost(pins, after)
  {
  }

  lemma RowsWith(payments: map<string, Payment>, p: Payment)
    requires Rows(payments) && WellFormed(p)
    ensures Rows(payments[p.id := p])
  {
    hide WellFormed;
    var payments' := payments[p.id := p];
    forall id | id in payments' ensures RowOk(payments', id) {
      if id != p.id { assert RowOk(payments, id); }
    }
  }

  lemma RowsAgreeWith(b: Books, payments: map<string, Payment>, p: Payment)
    requires RowsAgree(b, payments) && Agrees(b, p)
    ensures RowsAgree(b, payments[p.id := p])
  {
    hide Agrees;
  }

  lemma AdvanceWith(payments: map<string, Payment>, p: Payment)
    requires p.id in payments ==> Behind(payments[p.id], p)
    ensures Advance(payments, payments[p.id := p])
  {
  }

  lemma PinnedWith(payments: map<string, Payment>, pins: map<PinKey, string>, p: Payment)
    requires Pinned(payments, pins) && KeysPinned(pins, p) && NoKeyLost(pins, p)
    ensures Pinned(payments[p.id := p], pins)
  {
    hide KeysPinned, NoKeyLost;
    var payments' := payments[p.id := p];
    forall id | id in payments' ensures PinOk(payments', pins, id) {
      if id != p.id { assert PinOk(payments, pins, id); }
    }
  }

  lemma PinNamesWith(payments: map<string, Payment>, pins: map<PinKey, string>, issued: set<string>, p: Payment)
    requires PinNames(payments, pins, issued) && p.id in issued
    ensures PinNames(payments[p.id := p], pins, issued)
  {
  }

  lemma TrailsWith(payments: map<string, Payment>, trail: map<string, seq<Move>>, p: Payment, w: nat)
    requires Trails(payments, trail) && p.id in payments && Edge(payments[p.id].status, p.status)
    ensures p.id in trail
    ensures Trails(payments[p.id := p], trail[p.id := trail[p.id] + [Move(w, payments[p.id].status, p.status)]])
  {
    var moves := trail[p.id];
    var m := Move(w, payments[p.id].status, p.status);
    assert (moves + [m])[..|moves + [m]| - 1] == moves;
    assert IsPath(moves + [m], p.status);
  }

  /** Every other record survives; the completed one stores a coherent outcome. */
  lemma RecordsCompleted(payments: map<string, Payment>, payments': map<string, Payment>, workers: map<nat, Worker>,
                         records: map<RecordKey, Record>, leases: map<RecordKey, seq<Lease>>, stuckAfter: int,
                         k: RecordKey, result: CommandResult, at: Time)
    requires Records(payments, workers, records, leases, stuckAfter) && Advance(payments, payments') && k in records
    requires result.payment.id in payments' && ResultFits(k.op, payments'[result.payment.id], result)
    ensures Records(payments', workers, records[k := records[k].(progress := Completed(result, at))], leases, stuckAfter)
  {
    hide RecordOk, Advance, WorkersRemain, ResultFits;
    WorkersRemainReflexive(workers);
    var records' := records[k := records[k].(progress := Completed(result, at))];
    forall j | j in records' ensures RecordOk(payments', workers, records', leases, stuckAfter, j) {
      RecordAt(payments, workers, records, leases, stuckAfter, j);
      if j != k {
        RecordStable(payments, payments', workers, workers, records, records', leases, leases, stuckAfter, j);
      } else {
        RecordCompleted(payments, payments', workers, records, records', leases, stuckAfter, k, result, at);
      }
    }
  }

  lemma RecordCompleted(payments: map<string, Payment>, payments': map<string, Payment>, workers: map<nat, Worker>,
                        records: map<RecordKey, Record>, records': map<RecordKey, Record>,
                        leases: map<RecordKey, seq<Lease>>, stuckAfter: int, k: RecordKey, result: CommandResult, at: Time)
    requires k in records && RecordOk(payments, workers, records, leases, stuckAfter, k) && Advance(payments, payments')
    requires result.payment.id in payments' && ResultFits(k.op, payments'[result.payment.id], result)
    requires k in records' && records'[k] == records[k].(progress := Completed(result, at))
    ensures RecordOk(payments', workers, records', leases, stuckAfter, k)
  {
    hide ClaimMatches, Behind, ResultFits, Spaced;
    var id := records[k].paymentId;
    assert Behind(payments[id], payments'[id]);
    BehindIdentity(payments[id], payments'[id]);
    var o := workers[Owner(leases[k]).worker];
    ClaimMatchesStable(o, o, payments[id], payments'[id]);
  }

  lemma PreparedResult(op: Op, p: Payment, after: Payment, failure: Option<ErrorKind>)
    requires Prepared(op, p, after, failure)
    ensures ResultFits(op, after, CommandResult(ResultOf(after), failure))
  {
    hide WellFormed, Moved;
  }

  /** What a completion finds when its status guard passes. */
  lemma CompletionFacts(cfg: Config, s: State, w: nat)
    requires Inv(cfg, s) && w in s.workers && s.workers[w].phase.Completing?
    requires var p := s.workers[w].phase.before; p.id in s.db.payments && s.db.payments[p.id].status == p.status
    ensures var worker := s.workers[w];
            var p, after := worker.phase.before, worker.phase.after;
            var row := s.db.payments[p.id];
            && Prepared(OpOf(worker.cmd), p, after, worker.phase.failure)
            && row.id == p.id == after.id && Overwrite(row, after) == after && WellFormed(after)
            && Agrees(BooksOf(s), after)
            && KeysPinned(s.pins, after) && NoKeyLost(s.pins, after)
            && Behind(row, after)
            && (p.status == after.status ==> after == row)
            && (p.status != after.status ==> Edge(row.status, after.status))
  {
    hide Rows, Pinned, PinNames, Calls, LedgerOk, Origins, Replies, RowsAgree, WorkersAgree, Identities, Workers,
         Records, Trails, Agrees, Identified, WellFormed, KeysPinned, NoKeyLost, ClaimMatches, Behind, SameIdentity,
         Moved, Overwrite;
    HolderFacts(cfg, s, w);
    var worker := s.workers[w];
    var p, after := worker.phase.before, worker.phase.after;
    var row := s.db.payments[p.id];
    RowAt(s.db.payments, p.id);
    PinAt(s.db.payments, s.pins, p.id);
    PreparedIdentity(OpOf(worker.cmd), p, after, worker.phase.failure);
    BehindIdentity(p, row);
    OverwriteIsAfter(p, after, row);
    IdentityIds(p, after);
    if p == after {
      PendingSnapshotIsRow(p, row);
      BehindReflexive(row);
    } else {
      MovedFromRow(p, after, row);
      CompletedKeys(s.pins, p, after, row);
      MovedEdge(p, after);
    }
  }

  lemma BehindReflexive(p: Payment)
    ensures Behind(p, p)
  {
  }

  lemma IdentityIds(p: Payment, q: Payment)
    requires SameIdentity(p, q)
    ensures p.id == q.id
  {
  }

  lemma MovedEdge(p: Payment, q: Payment)
    requires Moved(p, q)
    ensures Edge(p.status, q.status)
  {
  }

  lemma CompletedInv(cfg: Config, s: State, w: nat, at: Time, k: RecordKey)
    requires Inv(cfg, s) && w in s.workers && s.workers[w].phase.Completing? && k == KeyOf(s.workers[w])
    requires var p := s.workers[w].phase.before; p.id in s.db.payments && s.db.payments[p.id].status == p.status
    requires k in s.db.records
    ensures var worker := s.workers[w];
            var p, after := worker.phase.before, worker.phase.after;
            var rec' := s.db.records[k].(progress := Completed(CompletionResult(worker), at));
            && after.id in s.trail
            && Inv(cfg, s.(db := Db(s.db.payments[after.id := after], s.db.records[k := rec']),
                           trail := if p.status == after.status then s.trail
                                    else s.trail[after.id := s.trail[after.id] + [Move(w, p.status, after.status)]]))
  {
    hide Rows, Pinned, PinNames, Calls, LedgerOk, Origins, Replies, RowsAgree, WorkersAgree, Identities, Workers,
         Records, Trails, Agrees, WellFormed, KeysPinned, NoKeyLost, Behind, Overwrite, Advance, PinsGrow, Prepared,
         ResultFits;
    CompletionFacts(cfg, s, w);
    var worker := s.workers[w];
    var p, after := worker.phase.before, worker.phase.after;
    var payments := s.db.payments;
    RowsWith(payments, after);
    RowsAgreeWith(BooksOf(s), payments, after);
    AdvanceWith(payments, after);
    PinnedWith(payments, s.pins, after);
    KnownIds(payments, s.pins, s.issued, after.id);
    PinNamesWith(payments, s.pins, s.issued, after);
    PinsGrowReflexive(s.pins);
    PreparedResult(OpOf(worker.cmd), p, after, worker.phase.failure);
    RecordsCompleted(payments, payments[after.id := after], s.workers, s.db.records, s.leases, cfg.stuckAfter, k,
                     CompletionResult(worker), at);
    TrailKnown(payments, s.trail, after.id);
    if p.status == after.status {
      assert payments[after.id := after] == payments;
    } else {
      TrailsWith(payments, s.trail, after, w);
    }
    var rec' := s.db.records[k].(progress := Completed(CompletionResult(worker), at));
    var s' := s.(db := Db(payments[after.id := after], s.db.records[k := rec']),
                 trail := if p.status == after.status then s.trail
                          else s.trail[after.id := s.trail[after.id] + [Move(w, p.status, after.status)]]);
    StoreInv(cfg, s, s');
  }

  lemma TrailKnown(payments: map<string, Payment>, trail: map<string, seq<Move>>, id: string)
    requires Trails(payments, trail) && id in payments
    ensures id in trail
  {
  }

  lemma KnownIds(payments: map<string, Payment>, pins: map<PinKey, string>, issued: set<string>, id: string)
    requires PinNames(payments, pins, issued) && id in payments
    ensures id in issued
  {
    assert payments[id].id == payments[id].id;
  }

  lemma CompleteInv(cfg: Config, s: State, w: nat, at: Time, acked: bool)
    requires Inv(cfg, s) && w in s.workers && s.workers[w].phase.Completing?
    ensures Inv(cfg, Finishing(s, w, at, acked))
  {
    hide Inv, Snapshot, Identified, Agrees, TableChecks, WorkerAgrees;
    var worker := s.workers[w];
    var p, after := worker.phase.before, worker.phase.after;
    var (db', error) := Complete(s.db, HeldBy(worker, after), CompletionResult(worker), at);
    if error.Some? {
      FinishInv(cfg, s, w, Failure(error.value));
    } else {
      HolderFacts(cfg, s, w);
      SnapshotStatus(s.db.payments, s.pins, worker, p);
      PreparedIds(OpOf(worker.cmd), p, after, worker.phase.failure);
      CompletionFacts(cfg, s, w);
      CompletedInv(cfg, s, w, at, KeyOf(worker));
      hide Overwrite;
      var s1 := s.(db := db',
                   trail := if p.status == after.status then s.trail
                            else s.trail[after.id := s.trail[after.id] + [Move(w, p.status, after.status)]]);
      FinishInv(cfg, s1, w, if acked then Replay(CompletionResult(worker)) else Failure(Internal));
    }
  }

  lemma SnapshotStatus(payments: map<string, Payment>, pins: map<PinKey, string>, w: Worker, p: Payment)
    requires Snapshot(payments, pins, w, p)
    ensures p.id in payments && p.status == ExpectedStatus(OpOf(w.cmd)) && Behind(p, payments[p.id])
  {
    hide WellFormed, Behind, KeysPinned, ClaimMatches;
  }

  lemma PreparedIds(op: Op, p: Payment, after: Payment, failure: Option<ErrorKind>)
    requires Prepared(op, p, after, failure)
    ensures after.id == p.id
  {
    hide WellFormed;
  }
}
