/** Facts about the protocol that survive when another part of the state moves on. */
module Stability {
  import opened Domain
  import opened Commands
  import opened Store
  import opened Bank
  import opened Protocol
  import opened Invariants

  // ---- Payments advance and pins grow ----

  lemma AdvanceReflexive(payments: map<string, Payment>)
    ensures Advance(payments, payments)
  {
  }

  lemma PinsHeldStable(pins: map<PinKey, string>, pins': map<PinKey, string>, p: Payment)
    requires KeysPinned(pins, p) && PinsGrow(pins, pins')
    ensures KeysPinned(pins', p)
  {
  }

  lemma BodyFitsStable(cfg: Config, p: Payment, q: Payment, call: Call)
    requires BodyFits(cfg, p, call) && Behind(p, q)
    ensures BodyFits(cfg, q, call)
  {
    hide CardText, AcceptedCard;
  }

  lemma CallsStable(cfg: Config, payments: map<string, Payment>, payments': map<string, Payment>,
                    pins: map<PinKey, string>, pins': map<PinKey, string>, calls: seq<Call>)
    requires Calls(cfg, payments, pins, calls) && Advance(payments, payments') && PinsGrow(pins, pins')
    ensures Calls(cfg, payments', pins', calls)
  {
    hide BodyFits, Behind;
    forall i | 0 <= i < |calls| ensures CallOk(cfg, payments', pins', calls[i]) {
      assert CallOk(cfg, payments, pins, calls[i]);
      var id := calls[i].paymentId;
      assert Behind(payments[id], payments'[id]);
      BodyFitsStable(cfg, payments[id], payments'[id], calls[i]);
    }
  }

  lemma SnapshotStable(payments: map<string, Payment>, payments': map<string, Payment>,
                       pins: map<PinKey, string>, pins': map<PinKey, string>, w: Worker, p: Payment)
    requires Snapshot(payments, pins, w, p) && Advance(payments, payments') && PinsGrow(pins, pins')
    ensures Snapshot(payments', pins', w, p)
  {
    hide WellFormed, ClaimMatches, Behind;
    assert Behind(payments[p.id], payments'[p.id]);
    BehindTransitive(p, payments[p.id], payments'[p.id]);
    PinsHeldStable(pins, pins', p);
  }

  lemma WorkerOkStable(payments: map<string, Payment>, payments': map<string, Payment>,
                       pins: map<PinKey, string>, pins': map<PinKey, string>,
                       calls: seq<Call>, calls': seq<Call>, w: Worker)
    requires WorkerOk(payments, pins, calls, w)
    requires Advance(payments, payments') && PinsGrow(pins, pins') && calls <= calls'
    ensures WorkerOk(payments', pins', calls', w)
  {
    hide Snapshot, Prepared, Advance, PinsGrow, CallOf;
    if Holds(w) {
      SnapshotStable(payments, payments', pins, pins', w, w.phase.before);
    }
  }

  lemma WorkersStable(payments: map<string, Payment>, payments': map<string, Payment>,
                      pins: map<PinKey, string>, pins': map<PinKey, string>,
                      calls: seq<Call>, calls': seq<Call>, workers: map<nat, Worker>)
    requires Workers(payments, pins, calls, workers)
    requires Advance(payments, payments') && PinsGrow(pins, pins') && calls <= calls'
    ensures Workers(payments', pins', calls', workers)
  {
    hide WorkerOk, Advance, PinsGrow;
    forall w | w in workers ensures WorkerOk(payments', pins', calls', workers[w]) {
      WorkerOkStable(payments, payments', pins, pins', calls, calls', workers[w]);
    }
  }

  /** A worker's identity: everything about it but its phase. */
  predicate SameWorker(a: Worker, b: Worker) {
    a.cmd == b.cmd && a.fingerprint == b.fingerprint && a.cardFingerprint == b.cardFingerprint && a.start == b.start
  }

  ghost predicate WorkersRemain(workers: map<nat, Worker>, workers': map<nat, Worker>) {
    forall w {:trigger workers'[w]} {:trigger workers[w]} :: w in workers ==>
      w in workers' && SameWorker(workers[w], workers'[w])
  }

  lemma ClaimMatchesStable(w: Worker, w': Worker, p: Payment, q: Payment)
    requires ClaimMatches(w, p) && SameWorker(w, w') && SameIdentity(p, q)
    ensures ClaimMatches(w', q)
  {
  }

  lemma ProgressStable(payments: map<string, Payment>, payments': map<string, Payment>, op: Op, rec: Record)
    requires ProgressOk(payments, op, rec) && Advance(payments, payments')
    ensures ProgressOk(payments', op, rec)
  {
    match rec.progress
    case InProgress => assert Behind(payments[rec.paymentId], payments'[rec.paymentId]);
    case Completed(result, _) => assert Behind(payments[result.payment.id], payments'[result.payment.id]);
  }

  lemma RecordStable(payments: map<string, Payment>, payments': map<string, Payment>,
                     workers: map<nat, Worker>, workers': map<nat, Worker>,
                     records: map<RecordKey, Record>, records': map<RecordKey, Record>,
                     leases: map<RecordKey, seq<Lease>>, leases': map<RecordKey, seq<Lease>>,
                     stuckAfter: int, k: RecordKey)
    requires k in records && RecordOk(payments, workers, records, leases, stuckAfter, k)
    requires k in records' && records'[k] == records[k] && k in leases' && leases'[k] == leases[k]
    requires Advance(payments, payments') && WorkersRemain(workers, workers')
    ensures RecordOk(payments', workers', records', leases', stuckAfter, k)
  {
    hide ProgressOk, Behind, ClaimMatches, Spaced;
    var id := records[k].paymentId;
    var o := Owner(leases[k]).worker;
    assert Behind(payments[id], payments'[id]);
    ProgressStable(payments, payments', k.op, records[k]);
    assert SameWorker(workers[o], workers'[o]);
    BehindIdentity(payments[id], payments'[id]);
    ClaimMatchesStable(workers[o], workers'[o], payments[id], payments'[id]);
  }

  lemma BehindIdentity(p: Payment, q: Payment)
    requires Behind(p, q)
    ensures SameIdentity(p, q) && Reaches(p.status, q.status)
  {
  }

  // ---- The books grow ----

  ghost predicate BooksGrew(b: Books, b': Books) {
    && Grew(b.ledger, b'.ledger) && b.now <= b'.now && b.calls <= b'.calls
    && (forall id {:trigger b'.origin[id]} {:trigger b.origin[id]} :: id in b.origin ==>
          id in b'.origin && b'.origin[id] == b.origin[id])
    && (forall h {:trigger Lapsed(b', h)} :: Lapsed(b, h) ==> Lapsed(b', h))
  }

  lemma MadeForStable(b: Books, b': Books, id: string, kind: TxnKind, paymentId: string)
    requires MadeFor(b, id, kind, paymentId) && BooksGrew(b, b')
    ensures MadeFor(b', id, kind, paymentId)
    ensures b'.ledger.txns[id].(status := b.ledger.txns[id].status) == b.ledger.txns[id]
  {
  }

  lemma ReplyStable(b: Books, b': Books, call: Call, reply: Reply)
    requires ReplyOk(b, call, reply) && BooksGrew(b, b')
    ensures ReplyOk(b', call, reply)
  {
    hide Grew, MadeFor, Lapsed;
    match reply
    case Approved(id, _) => MadeForStable(b, b', id, HoldTxn, call.paymentId);
    case CaptureMade(id) => MadeForStable(b, b', id, CaptureTxn, call.paymentId);
    case VoidMade(id) => MadeForStable(b, b', id, VoidTxn, call.paymentId);
    case RefundMade(id) => MadeForStable(b, b', id, RefundTxn, call.paymentId);
    case Refused(code) =>
      if code == AuthExpired {
        assert Lapsed(b', call.request.holdId);
      }
    case ServerError =>
  }

  lemma AgreesStable(b: Books, b': Books, p: Payment)
    requires Agrees(b, p) && BooksGrew(b, b')
    ensures Agrees(b', p)
  {
    if HasHold(p.status) {
      MadeForStable(b, b', p.holdId, HoldTxn, p.id);
    }
    if HasCapture(p.status) {
      MadeForStable(b, b', p.captureId, CaptureTxn, p.id);
    }
    if p.status == Voided {
      MadeForStable(b, b', p.voidId, VoidTxn, p.id);
    }
    if p.status == Refunded {
      MadeForStable(b, b', p.refundId, RefundTxn, p.id);
    }
    if p.status == Expired {
      assert Lapsed(b', p.holdId);
    }
  }

  lemma RowsAgreeStable(b: Books, b': Books, payments: map<string, Payment>)
    requires RowsAgree(b, payments) && BooksGrew(b, b')
    ensures RowsAgree(b', payments)
  {
    hide Agrees, BooksGrew;
    forall id | id in payments ensures Agrees(b', payments[id]) {
      AgreesStable(b, b', payments[id]);
    }
  }

  lemma WorkersAgreeStable(b: Books, b': Books, workers: map<nat, Worker>)
    requires WorkersAgree(b, workers) && BooksGrew(b, b')
    ensures WorkersAgree(b', workers)
  {
    hide Agrees, BooksGrew;
    forall w | w in workers ensures WorkerAgrees(b', workers[w]) {
      if Holds(workers[w]) { AgreesStable(b, b', workers[w].phase.before); }
      if workers[w].phase.Completing? { AgreesStable(b, b', workers[w].phase.after); }
    }
  }

  lemma EntryStable(b: Books, b': Books, cache: map<CacheKey, Entry>, k: CacheKey)
    requires k in cache && EntryOk(b, cache, k) && BooksGrew(b, b')
    ensures EntryOk(b', cache, k)
  {
    ReplyStable(b, b', b.calls[cache[k].call], cache[k].reply);
  }
}
