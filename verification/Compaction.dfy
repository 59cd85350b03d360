/**
 Receipt payload compaction: what one batch may clear, that clearing is invisible to everything
 that runs later, and that repeated batches make progress until nothing is eligible.
*/
module Compaction {
  import opened Wrappers
  import opened Text
  import opened Schema
  import opened StoreCore
  import Ledger
  import Outbox

  // ------------------------------------------------------------------
  // One batch

  predicate NamesEligible(rs: seq<Receipt>, s: Scope, id: string) {
    exists i | 0 <= i < |rs| :: rs[i].receiptId == id && Eligible(rs[i], s)
  }

  predicate Distinct(ids: seq<string>) {
    forall i, j | 0 <= i < j < |ids| :: ids[i] != ids[j]
  }

  function Elements(ids: seq<string>): set<string> {
    set x | x in ids
  }

  /** The ids of the rows the UPDATE hits. */
  function HitIds(rs: seq<Receipt>, s: Scope, ids: seq<string>): set<string> {
    set i | 0 <= i < |rs| && Hit(rs[i], s, ids) :: rs[i].receiptId
  }

  lemma HitIdsAppend(front: seq<Receipt>, last: Receipt, s: Scope, ids: seq<string>)
    ensures HitIds(front + [last], s, ids) == HitIds(front, s, ids) + if Hit(last, s, ids) then {last.receiptId} else {}
  {
    var rs := front + [last];
    assert forall i | 0 <= i < |front| :: rs[i] == front[i];
    assert rs[|front|] == last;
  }

  lemma {:induction false} HitCountIsHitIds(rs: seq<Receipt>, s: Scope, ids: seq<string>)
    requires DistinctIds(rs)
    ensures HitCount(rs, s, ids) == |HitIds(rs, s, ids)|
  {
    if rs == [] {
      assert HitIds(rs, s, ids) == {};
    } else {
      var front, last := rs[..|rs| - 1], rs[|rs| - 1];
      assert rs == front + [last];
      HitCountIsHitIds(front, s, ids);
      HitIdsAppend(front, last, s, ids);
      assert last.receiptId !in HitIds(front, s, ids);
    }
  }

  lemma {:induction false} ElementsBounded(ids: seq<string>)
    ensures |Elements(ids)| <= |ids|
    ensures |Elements(ids)| == |ids| <==> Distinct(ids)
  {
    if ids == [] {
      assert Elements(ids) == {};
    } else {
      var front, last := ids[..|ids| - 1], ids[|ids| - 1];
      ElementsBounded(front);
      assert Elements(ids) == Elements(front) + {last};
      assert Distinct(ids) <==> Distinct(front) && last !in front;
    }
  }

  lemma {:induction false} SubsetOfSameSize(a: set<string>, b: set<string>)
    requires a <= b
    ensures |a| <= |b| && (|a| == |b| <==> a == b)
  {
    if a != {} {
      var x :| x in a;
      SubsetOfSameSize(a - {x}, b - {x});
      assert a == (a - {x}) + {x} && b == (b - {x}) + {x};
    }
  }

  lemma DenseIdsDiffer(rs: seq<Receipt>)
    requires Dense(rs)
    ensures DistinctIds(rs)
  {
    forall i, j | 0 <= i < j < |rs| ensures rs[i].receiptId != rs[j].receiptId {
      if rs[i].receiptId == rs[j].receiptId {
        ReceiptIdInjective(i + 1, j + 1);
      }
    }
  }

  /** A batch goes through exactly when its ids are distinct and each names an eligible receipt. */
  lemma BatchAcceptedIff(db: Tables, s: Scope, ids: seq<string>, id: string)
    requires Dense(db.receipts)
    ensures RunWrite(ClearPayloads(s, ids), db, id).Ok?
      <==> Distinct(ids) && forall k | 0 <= k < |ids| :: NamesEligible(db.receipts, s, ids[k])
  {
    var rs := db.receipts;
    DenseIdsDiffer(rs);
    HitCountIsHitIds(rs, s, ids);
    ElementsBounded(ids);
    SubsetOfSameSize(HitIds(rs, s, ids), Elements(ids));
    if forall k | 0 <= k < |ids| :: NamesEligible(rs, s, ids[k]) {
      assert Elements(ids) <= HitIds(rs, s, ids);
    }
    if HitIds(rs, s, ids) == Elements(ids) {
      forall k | 0 <= k < |ids| ensures NamesEligible(rs, s, ids[k]) {
        assert ids[k] in Elements(ids);
      }
    }
  }

  /** An accepted batch nulls both payloads of exactly the receipts it names, and nothing else. */
  lemma BatchClearsExactly(db: Tables, s: Scope, ids: seq<string>, id: string)
    requires Dense(db.receipts) && RunWrite(ClearPayloads(s, ids), db, id).Ok?
    ensures var after := RunWrite(ClearPayloads(s, ids), db, id).value;
      && after == db.(receipts := after.receipts)
      && |after.receipts| == |db.receipts|
      && forall i | 0 <= i < |db.receipts| ::
        after.receipts[i] == if db.receipts[i].receiptId in ids then Strip(db.receipts[i]) else db.receipts[i]
  {
    BatchAcceptedIff(db, s, ids, id);
    var after := RunWrite(ClearPayloads(s, ids), db, id).value;
    forall i | 0 <= i < |db.receipts|
      ensures after.receipts[i] == if db.receipts[i].receiptId in ids then Strip(db.receipts[i]) else db.receipts[i]
    {
      if db.receipts[i].receiptId in ids {
        var k :| 0 <= k < |ids| && ids[k] == db.receipts[i].receiptId;
        assert NamesEligible(db.receipts, s, ids[k]);
        var j :| 0 <= j < |db.receipts| && db.receipts[j].receiptId == ids[k] && Eligible(db.receipts[j], s);
        DenseIdsDiffer(db.receipts);
        assert i == j;
      }
    }
  }

  // ------------------------------------------------------------------
  // Invisibility

  /** The same write, except that no payload is cleared. */
  function Unclear(w: Write): Write {
    match w
    case ClearPayloads(_, _) => Rows((rows, id) => Ok(rows))
    case Both(first, second) => Both(Unclear(first), Unclear(second))
    case _ => w
  }

  /** Does this write clear payloads anywhere? */
  predicate Clears(w: Write) {
    match w
    case ClearPayloads(_, _) => true
    case Both(first, second) => Clears(first) || Clears(second)
    case _ => false
  }

  /**
   A write that clears no payload stands for itself. One that does becomes the same write without
   the clearing, or, when it failed, nothing but its failure.
  */
  function Shade(w: Write, db: Tables, id: string): Write {
    if !Clears(w) then w
    else
      match RunWrite(w, db, id)
      case Ok(_) => Unclear(w)
      case Err(e) => Rows((rows, _) => Err(e))
  }

  function ShadeStep(s: Ledger.World, step: Ledger.Step): Ledger.Step {
    match step
    case Mutate(req, w) => Ledger.Mutate(req, Shade(w, s.db, NextReceiptId(s.db)))
    case _ => step
  }

  /** The run in which every compaction happens, is receipted, and leaves payloads alone. */
  function ShadeRun(s: Ledger.World, steps: seq<Ledger.Step>): seq<Ledger.Step> {
    if steps == [] then []
    else ShadeRun(s, steps[..|steps| - 1]) + [ShadeStep(Ledger.Run(s, steps[..|steps| - 1]), steps[|steps| - 1])]
  }

  /** Equal except for payload columns. */
  predicate Twins(a: Tables, b: Tables) {
    SameButPayload(a.receipts, b.receipts) && a.revisions == b.revisions && a.jobs == b.jobs && a.rows == b.rows
  }

  lemma {:induction false} UnclearTwin(w: Write, a: Tables, b: Tables, id: string)
    requires Twins(a, b) && RunWrite(w, b, id).Ok?
    ensures RunWrite(Unclear(w), a, id).Ok?
    ensures Twins(RunWrite(Unclear(w), a, id).value, RunWrite(w, b, id).value)
  {
    match w
    case ClearPayloads(s, ids) =>
      var cleared := Clear(b.receipts, s, ids);
      assert forall i | 0 <= i < |b.receipts| :: Strip(cleared[i]) == Strip(b.receipts[i]);
      assert RunWrite(Unclear(w), a, id).value == a;
    case Both(first, second) =>
      UnclearTwin(first, a, b, id);
      UnclearTwin(second, RunWrite(Unclear(first), a, id).value, RunWrite(first, b, id).value, id);
    case _ =>
  }

  /** Any other write does the same to states that differ in payloads: same tables, or same error. */
  lemma {:induction false} PlainTwin(w: Write, a: Tables, b: Tables, id: string)
    requires Twins(a, b) && !Clears(w)
    ensures RunWrite(w, a, id).Ok? <==> RunWrite(w, b, id).Ok?
    ensures RunWrite(w, b, id).Ok? ==> Twins(RunWrite(w, a, id).value, RunWrite(w, b, id).value)
    ensures RunWrite(w, b, id).Err? ==> RunWrite(w, a, id) == RunWrite(w, b, id)
  {
    if w.Both? {
      PlainTwin(w.first, a, b, id);
      if RunWrite(w.first, b, id).Ok? {
        PlainTwin(w.second, RunWrite(w.first, a, id).value, RunWrite(w.first, b, id).value, id);
      }
    }
  }

  /** So the shaded write has the fate of the write. */
  lemma ShadeTwin(w: Write, a: Tables, b: Tables, id: string)
    requires Twins(a, b)
    ensures RunWrite(Shade(w, b, id), a, id).Ok? <==> RunWrite(w, b, id).Ok?
    ensures RunWrite(w, b, id).Ok? ==> Twins(RunWrite(Shade(w, b, id), a, id).value, RunWrite(w, b, id).value)
    ensures RunWrite(w, b, id).Err? ==> RunWrite(Shade(w, b, id), a, id) == RunWrite(w, b, id)
  {
    if !Clears(w) {
      PlainTwin(w, a, b, id);
    } else if RunWrite(w, b, id).Ok? {
      UnclearTwin(w, a, b, id);
    }
  }

  lemma InsertTwins(a: Tables, b: Tables, req: Request, outcome: ReceiptOutcome, errorClass: Option<string>,
                    before: Option<nat>, after: Option<nat>)
    requires Twins(a, b)
    ensures Twins(Insert(a, req, outcome, errorClass, before, after),
                  Insert(b, req, outcome, errorClass, before, after))
  {
  }

  /** The transactions `shaded` and `plain` end the same way, payloads aside. */
  predicate SameFate(shaded: TxResult, plain: TxResult) {
    if plain.Committed? then
      shaded.Committed? && shaded.outcome == plain.outcome && Twins(shaded.db, plain.db)
    else shaded == plain
  }

  lemma ReplayTwins(a: Tables, b: Tables, req: Request, w: Write, w': Write)
    requires Twins(a, b) && KeyApplied(b.receipts, req.entity.client, req.key)
    ensures SameFate(MutateTx(a, req, w'), MutateTx(b, req, w))
  {
    FindAppliedStrip(a.receipts, b.receipts, req.entity.client, req.key);
    var prior := FindApplied(b.receipts, req.entity.client, req.key).value.revisionAfter;
    assert FindApplied(a.receipts, req.entity.client, req.key).value.revisionAfter == prior;
    InsertTwins(a, b, req, ReplayedIdempotent, None, prior, prior);
  }

  lemma FinishTwins(a: Tables, b: Tables, req: Request, current: Option<nat>)
    requires Twins(a, b)
    ensures SameFate(Finish(a, req, current), Finish(b, req, current))
  {
    var next := current.GetOr(0) + 1;
    var ba, bb := a.(revisions := a.revisions[req.entity := next]), b.(revisions := b.revisions[req.entity := next]);
    InsertTwins(ba, bb, req, Applied, None, current, Some(next));
  }

  /** The write with the fate `wb` on `b` and `wa` on `a`, run by a mutation that reaches it. */
  lemma WriteTwins(a: Tables, b: Tables, req: Request, w: Write, w': Write)
    requires Twins(a, b) && !KeyApplied(b.receipts, req.entity.client, req.key)
    requires req.expected.Some? ==> Revision(b, req.entity) == req.expected
    requires RunWrite(w', a, NextReceiptId(a)).Ok? && RunWrite(w, b, NextReceiptId(b)).Ok?
    requires Twins(RunWrite(w', a, NextReceiptId(a)).value, RunWrite(w, b, NextReceiptId(b)).value)
    ensures SameFate(MutateTx(a, req, w'), MutateTx(b, req, w))
  {
    var current := Revision(b, req.entity);
    FindAppliedStrip(a.receipts, b.receipts, req.entity.client, req.key);
    var wa, wb := RunWrite(w', a, NextReceiptId(a)).value, RunWrite(w, b, NextReceiptId(b)).value;
    assert MutateTx(a, req, w') == Finish(wa, req, current);
    assert MutateTx(b, req, w) == Finish(wb, req, current);
    FinishTwins(wa, wb, req, current);
  }

  lemma ShadedMutateTwins(a: Tables, b: Tables, req: Request, w: Write)
    requires Twins(a, b)
    ensures SameFate(MutateTx(a, req, Shade(w, b, NextReceiptId(b))), MutateTx(b, req, w))
  {
    var id, current := NextReceiptId(b), Revision(b, req.entity);
    var shade := Shade(w, b, id);
    ShadeTwin(w, a, b, id);
    FindAppliedStrip(a.receipts, b.receipts, req.entity.client, req.key);
    if KeyApplied(b.receipts, req.entity.client, req.key) {
      ReplayTwins(a, b, req, w, shade);
    } else if req.expected.Some? && current != req.expected {
      InsertTwins(a, b, req, RevisionConflict, Some("revision_conflict"), current, current);
    } else if RunWrite(w, b, id).Ok? {
      WriteTwins(a, b, req, w, shade);
    }
  }

  /** What a caller sees of a step: the outcome of a mutation, or the error it returned. */
  datatype Seen = Nothing | Outcome(outcome: MutationOutcome) | Error(error: StoreError)

  function See(s: Ledger.World, step: Ledger.Step): Seen {
    match step
    case Mutate(req, w) =>
      (match MutateTx(s.db, req, w)
       case Committed(_, outcome) => Outcome(outcome)
       case RolledBack(e, _) => Error(e))
    case _ => Nothing
  }

  lemma ShadedStepTwins(a: Ledger.World, b: Ledger.World, step: Ledger.Step)
    requires Twins(a.db, b.db) && a.audits == b.audits
    ensures Twins(Ledger.Next(a, ShadeStep(b, step)).db, Ledger.Next(b, step).db)
    ensures Ledger.Next(a, ShadeStep(b, step)).audits == Ledger.Next(b, step).audits
    ensures See(a, ShadeStep(b, step)) == See(b, step)
  {
    if step.Mutate? {
      ShadedMutateTwins(a.db, b.db, step.req, step.w);
    }
  }

  /**
   Compaction is invisible: in any run, after every prefix, the state differs only in payloads from
   the run whose compactions clear nothing, and each step shows its caller the same thing.
  */
  lemma {:induction false} CompactionIsInvisible(s: Ledger.World, steps: seq<Ledger.Step>)
    ensures |ShadeRun(s, steps)| == |steps|
    ensures Twins(Ledger.Run(s, ShadeRun(s, steps)).db, Ledger.Run(s, steps).db)
    ensures Ledger.Run(s, ShadeRun(s, steps)).audits == Ledger.Run(s, steps).audits
    ensures steps != [] ==>
      See(Ledger.Run(s, ShadeRun(s, steps[..|steps| - 1])), ShadeRun(s, steps)[|steps| - 1])
        == See(Ledger.Run(s, steps[..|steps| - 1]), steps[|steps| - 1])
  {
    if steps != [] {
      var front, step := steps[..|steps| - 1], steps[|steps| - 1];
      CompactionIsInvisible(s, front);
      ShadedStepTwins(Ledger.Run(s, ShadeRun(s, front)), Ledger.Run(s, front), step);
      assert ShadeRun(s, steps)[..|steps| - 1] == ShadeRun(s, front);
    }
  }

  /** Every lookup other code bases a decision on is the same for states that differ in payloads. */
  lemma TwinsLookAlike(a: Tables, b: Tables, e: Entity, job: JobRef, client: string, key: string)
    requires Twins(a, b)
    ensures LatestAppliedActor(a, e) == LatestAppliedActor(b, e)
    ensures Outbox.RetryCycle(a, job) == Outbox.RetryCycle(b, job)
    ensures AppliedRevision(a, client, key) == AppliedRevision(b, client, key)
    ensures KeyApplied(a.receipts, client, key) <==> KeyApplied(b.receipts, client, key)
    ensures Revision(a, e) == Revision(b, e)
  {
    NewestStrip(a.receipts, b.receipts, OfEntity(e));
    NewestStrip(a.receipts, b.receipts, OfChange(Outbox.JobEntity(job), Outbox.RETRY_REQUESTED));
    NewestStrip(a.receipts, b.receipts, OfKey(client, key));
    FindAppliedStrip(a.receipts, b.receipts, client, key);
  }

  // ------------------------------------------------------------------
  // Rounds

  function EligibleCount(rs: seq<Receipt>, s: Scope): nat {
    if rs == [] then 0
    else EligibleCount(rs[..|rs| - 1], s) + if Eligible(rs[|rs| - 1], s) then 1 else 0
  }

  datatype Batch = Batch(scope: Scope, actor: string, actorKind: ActorKind, entityId: string, key: string,
                         correlation: Option<string>, now: nat)

  function BatchRequest(b: Batch, ids: seq<string>): Request {
    Request(Entity(b.scope.client, "data_retention", b.entityId), "compact_receipt_payloads", b.actor, b.actorKind,
            None, b.key, b.correlation, None, None,
            Some("receipt_payload_compaction " + Digits(b.scope.cutoff) + " " + Digits(|ids|)), b.now)
  }

  /** `compact_receipt_payloads`, one transaction: an empty batch or allow-list never starts it. */
  function CompactTx(db: Tables, b: Batch, ids: seq<string>): TxResult {
    if ids == [] || b.scope.kinds == [] then RolledBack(Domain("receipt_payload_compaction_batch_empty"), None)
    else MutateTx(db, BatchRequest(b, ids), ClearPayloads(b.scope, ids))
  }

  lemma {:induction false} ClearedCount(rs: seq<Receipt>, s: Scope, ids: seq<string>)
    ensures EligibleCount(rs, s) == EligibleCount(Clear(rs, s, ids), s) + HitCount(rs, s, ids)
  {
    if rs != [] {
      ClearedCount(rs[..|rs| - 1], s, ids);
      assert Clear(rs, s, ids)[..|rs| - 1] == Clear(rs[..|rs| - 1], s, ids);
    }
  }

  /**
   One round: distinct eligible ids under an unused key compact without a race, and the eligible
   count drops by exactly the batch size when the compaction's own receipt is not eligible.
  */
  lemma RoundMakesProgress(db: Tables, b: Batch, ids: seq<string>)
    requires Dense(db.receipts) && ids != [] && Distinct(ids)
    requires forall k | 0 <= k < |ids| :: NamesEligible(db.receipts, b.scope, ids[k])
    requires !KeyApplied(db.receipts, b.scope.client, b.key)
    requires b.now >= b.scope.cutoff || "data_retention" !in b.scope.kinds
    ensures CompactTx(db, b, ids).Committed? && CompactTx(db, b, ids).outcome.AppliedAs?
    ensures EligibleCount(CompactTx(db, b, ids).db.receipts, b.scope) == EligibleCount(db.receipts, b.scope) - |ids|
  {
    BatchAcceptedIff(db, b.scope, ids, NextReceiptId(db));
    assert NamesEligible(db.receipts, b.scope, ids[0]);
    assert b.scope.kinds != [];
    ClearedCount(db.receipts, b.scope, ids);
    var t := CompactTx(db, b, ids).db;
    var cleared := Clear(db.receipts, b.scope, ids);
    assert t.receipts[..|t.receipts| - 1] == cleared;
  }
}
