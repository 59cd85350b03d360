/**
 The open database, updated in place: domain writes, receipt inserts and the rollback of a failed
 transaction. Every method is proved to take the tables exactly where the specification does.
*/
module Database {
  import opened Wrappers
  import opened Schema
  import opened StoreCore

  class Store {
    var receipts: seq<Receipt>
    var revisions: map<Entity, nat>
    var jobs: map<JobRef, Job>
    var rows: map<RowKey, Row>

    function State(): Tables
      reads this
    {
      Tables(receipts, revisions, jobs, rows)
    }

    constructor ()
      ensures State() == EMPTY
    {
      receipts, revisions, jobs, rows := [], map[], map[], map[];
    }

    /** Null the payloads of the rows an UPDATE hits, counting the rows changed. */
    method ClearPayloadColumns(s: Scope, ids: seq<string>) returns (changed: nat)
      modifies this
      ensures changed == HitCount(old(receipts), s, ids)
      ensures State() == old(State()).(receipts := Clear(old(receipts), s, ids))
    {
      changed := 0;
      var i := 0;
      while i < |receipts|
        invariant 0 <= i <= |receipts| == |old(receipts)|
        invariant State() == old(State()).(receipts := receipts)
        invariant changed == HitCount(old(receipts)[..i], s, ids)
        invariant receipts[..i] == Clear(old(receipts)[..i], s, ids)
        invariant receipts[i..] == old(receipts)[i..]
      {
        assert receipts[i] == receipts[i..][0] == old(receipts)[i];
        assert old(receipts)[..i + 1][..i] == old(receipts)[..i];
        if Hit(receipts[i], s, ids) {
          receipts := receipts[i := Strip(receipts[i])];
          changed := changed + 1;
        }
        i := i + 1;
      }
      assert old(receipts)[..i] == old(receipts) && receipts[..i] == receipts;
    }

    /** One domain write. When it fails its partial work stays in place; the caller rolls back. */
    method Execute(w: Write, id: string) returns (r: Result<(), StoreError>)
      modifies this
      ensures r.Ok? <==> RunWrite(w, old(State()), id).Ok?
      ensures r.Ok? ==> RunWrite(w, old(State()), id) == Ok(State())
      ensures r.Err? ==> RunWrite(w, old(State()), id) == Err(r.error)
      decreases w
    {
      r := Ok(());
      match w
      case Rows(update) =>
        var updated := update(rows, id);
        if updated.Err? {
          return Err(updated.error);
        }
        rows := updated.value;
      case Enqueue(job, order, now) =>
        if job in jobs {
          return Err(Sqlite("UNIQUE constraint failed: outbox_jobs"));
        }
        jobs := jobs[job := FreshJob(order, now)];
      case RecordRow(job, status, attempts, error, result, next, now) =>
        if job in jobs {
          jobs := jobs[job := Recorded(jobs[job], status, attempts, error, result, next, now)];
        }
      case ResetRow(job, now) =>
        if job !in jobs {
          return Err(Domain("outbox_job_not_found"));
        }
        if jobs[job].status != FailedTerminal {
          return Err(Domain("outbox_retry_not_failed:" + StatusText(jobs[job].status)));
        }
        jobs := jobs[job := Reset(jobs[job], now)];
      case Advance(e, expected) =>
        if e !in revisions || revisions[e] != expected {
          return Err(Domain("entity_revision_changed"));
        }
        revisions := revisions[e := expected + 1];
      case Initialize(e, revision) =>
        if e in revisions {
          return Err(Sqlite("UNIQUE constraint failed: entity_revisions"));
        }
        revisions := revisions[e := revision];
      case ClearPayloads(s, ids) =>
        var changed := ClearPayloadColumns(s, ids);
        if changed != |ids| {
          return Err(Domain("receipt_payload_compaction_race"));
        }
      case Both(first, second) =>
        r := Execute(first, id);
        if r.Err? {
          return;
        }
        r := Execute(second, id);
    }

    method InsertReceipt(req: Request, outcome: ReceiptOutcome, errorClass: Option<string>,
                         before: Option<nat>, after: Option<nat>) returns (id: string)
      modifies this
      ensures State() == Insert(old(State()), req, outcome, errorClass, before, after)
      ensures id == NextReceiptId(old(State()))
    {
      id := NextReceiptId(State());
      receipts := receipts + [MakeReceipt(id, req, outcome, errorClass, before, after)];
    }

    /** Discard everything an open transaction did. */
    method Rollback(saved: Tables)
      modifies this
      ensures State() == saved
    {
      receipts, revisions, jobs, rows := saved.receipts, saved.revisions, saved.jobs, saved.rows;
    }

    /** Run the domain write; then bump, insert and commit, or roll everything back. */
    method WriteAndFinish(req: Request, w: Write, current: Option<nat>) returns (t: Result<MutationOutcome, StoreError>)
      modifies this
      ensures t.Ok? <==> RunWrite(w, old(State()), NextReceiptId(old(State()))).Ok?
      ensures t.Ok? ==>
        Finish(RunWrite(w, old(State()), NextReceiptId(old(State()))).value, req, current) ==
          Committed(State(), t.value)
      ensures t.Err? ==>
        RunWrite(w, old(State()), NextReceiptId(old(State()))) == Err(t.error) && State() == old(State())
    {
      var saved := State();
      var done := Execute(w, NextReceiptId(State()));
      if done.Err? {
        Rollback(saved);
        return Err(done.error);
      }
      var next := current.GetOr(0) + 1;
      revisions := revisions[req.entity := next];
      var id := InsertReceipt(req, Applied, None, current, Some(next));
      t := Ok(AppliedAs(id, next));
    }

    /** The first transaction of a mutation. A failure leaves the tables as they were. */
    method Transact(req: Request, w: Write) returns (t: Result<MutationOutcome, StoreError>, captured: Option<nat>)
      modifies this
      ensures t.Ok? <==> MutateTx(old(State()), req, w).Committed?
      ensures t.Ok? ==> MutateTx(old(State()), req, w) == Committed(State(), t.value)
      ensures t.Err? ==> MutateTx(old(State()), req, w) == RolledBack(t.error, captured) && State() == old(State())
    {
      captured := None;
      var prior := FindApplied(receipts, req.entity.client, req.key);
      if prior.Some? {
        var revision := prior.value.revisionAfter;
        var id := InsertReceipt(req, ReplayedIdempotent, None, revision, revision);
        return Ok(ReplayedAs(id, revision)), captured;
      }
      captured := Revision(State(), req.entity);
      if req.expected.Some? && captured != req.expected {
        var id := InsertReceipt(req, RevisionConflict, Some("revision_conflict"), captured, captured);
        return Ok(ConflictAt(id, captured)), captured;
      }
      t := WriteAndFinish(req, w, captured);
    }

    /**
     A mutation with nothing in between its two transactions: it commits as specified, or leaves
     the tables as they were plus one failed receipt. The receipt log stays sound either way.
    */
    method Mutate(req: Request, w: Write) returns (r: Result<MutationOutcome, StoreError>)
      modifies this
      ensures r.Ok? <==> MutateTx(old(State()), req, w).Committed?
      ensures r.Ok? ==> MutateTx(old(State()), req, w) == Committed(State(), r.value)
      ensures r.Err? ==>
        var t := MutateTx(old(State()), req, w);
        t.error == r.error && State() == AuditTx(old(State()), req, r.error, t.captured)
      ensures old(Sound(State())) ==> Sound(State())
    {
      var captured;
      r, captured := Transact(req, w);
      if r.Err? {
        var _ := InsertReceipt(req, Failed, Some(ErrorClass(r.error)), captured, captured);
        if old(Sound(State())) {
          InsertContinues(old(State()), req, Failed, Some(ErrorClass(r.error)), captured, captured);
        }
      } else if old(Sound(State())) {
        MutateKeepsSound(old(State()), req, w);
      }
    }

    method RecordFailedReceipt(req: Request, errorClass: string) returns (id: string)
      modifies this
      ensures State() == RecordFailedTx(old(State()), req, errorClass)
      ensures id == NextReceiptId(old(State()))
      ensures old(Sound(State())) ==> Sound(State())
    {
      var current := Revision(State(), req.entity);
      id := InsertReceipt(req, Failed, Some(errorClass), current, current);
      if old(Sound(State())) {
        InsertContinues(old(State()), req, Failed, Some(errorClass), current, current);
      }
    }
  }
}
