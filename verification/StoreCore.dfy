/**
 The one write path. `MutateTx` is the first transaction of `mutate`, `AuditTx` the second
 one that records a failure; the lemmas say what every such transaction keeps.
*/
module StoreCore {
  import opened Wrappers
  import opened Text
  import opened Schema

  // ------------------------------------------------------------------
  // Receipts

  function ReceiptId(n: nat): string {
    "rcpt_" + Padded(n, 12)
  }

  function NextReceiptId(db: Tables): string {
    ReceiptId(|db.receipts| + 1)
  }

  function MakeReceipt(id: string, req: Request, outcome: ReceiptOutcome, errorClass: Option<string>,
                       before: Option<nat>, after: Option<nat>): Receipt
  {
    Receipt(id, req.entity, req.changeKind, req.actorId, req.actorKind, outcome, errorClass,
            req.beforeJson, req.afterJson, before, after, req.key, req.correlation, req.causation, req.now)
  }

  function Insert(db: Tables, req: Request, outcome: ReceiptOutcome, errorClass: Option<string>,
                  before: Option<nat>, after: Option<nat>): Tables
  {
    db.(receipts := db.receipts + [MakeReceipt(NextReceiptId(db), req, outcome, errorClass, before, after)])
  }

  predicate IsApplied(r: Receipt, client: string, key: string) {
    r.outcome.Applied? && r.entity.client == client && r.key == key
  }

  function FindApplied(rs: seq<Receipt>, client: string, key: string): (r: Option<Receipt>)
    ensures r.Some? ==> r.value in rs && IsApplied(r.value, client, key)
    ensures r.None? ==> forall i | 0 <= i < |rs| :: !IsApplied(rs[i], client, key)
  {
    if rs == [] then None
    else if IsApplied(rs[|rs| - 1], client, key) then Some(rs[|rs| - 1])
    else FindApplied(rs[..|rs| - 1], client, key)
  }

  predicate KeyApplied(rs: seq<Receipt>, client: string, key: string) {
    FindApplied(rs, client, key).Some?
  }

  /** The WHERE clauses of the newest-first lookups; all of them also ask for outcome = applied. */
  datatype Lookup =
    | OfEntity(entity: Entity)
    | OfChange(entity: Entity, changeKind: string)
    | OfKey(client: string, key: string)

  predicate Matches(q: Lookup, r: Receipt) {
    r.outcome.Applied? &&
    match q
    case OfEntity(e) => r.entity == e
    case OfChange(e, change) => r.entity == e && r.changeKind == change
    case OfKey(client, key) => r.entity.client == client && r.key == key
  }

  /** ORDER BY created_at_ms DESC, receipt_id DESC: does `a` come before `b`? */
  predicate Newer(a: Receipt, b: Receipt) {
    a.createdAt > b.createdAt || (a.createdAt == b.createdAt && Less(b.receiptId, a.receiptId))
  }

  /** The first row of a newest-first lookup. */
  function Newest(rs: seq<Receipt>, q: Lookup): (r: Option<Receipt>)
    ensures r.Some? ==> r.value in rs && Matches(q, r.value)
    ensures r.None? ==> forall i | 0 <= i < |rs| :: !Matches(q, rs[i])
  {
    if rs == [] then None
    else
      var last := rs[|rs| - 1];
      var best := Newest(rs[..|rs| - 1], q);
      if Matches(q, last) && (best.None? || !Newer(best.value, last)) then Some(last) else best
  }

  function LatestAppliedActor(db: Tables, e: Entity): Option<string> {
    match Newest(db.receipts, OfEntity(e))
    case None => None
    case Some(r) => Some(r.actorId)
  }

  /** `applied_revision_for_idempotency`: no row and a NULL revision both read as None. */
  function AppliedRevision(db: Tables, client: string, key: string): Option<nat> {
    match Newest(db.receipts, OfKey(client, key))
    case None => None
    case Some(r) => r.revisionAfter
  }

  // ------------------------------------------------------------------
  // Payload compaction predicate

  predicate Eligible(r: Receipt, s: Scope) {
    && r.entity.client == s.client
    && r.outcome.Applied?
    && r.createdAt < s.cutoff
    && (r.beforeJson.Some? || r.afterJson.Some?)
    && r.entity.kind in s.kinds
    && forall i | 0 <= i < |s.restrictions| ::
      r.entity.kind != s.restrictions[i].entityKind || r.changeKind in s.restrictions[i].changeKinds
  }

  function Strip(r: Receipt): Receipt {
    r.(beforeJson := None, afterJson := None)
  }

  predicate Hit(r: Receipt, s: Scope, ids: seq<string>) {
    Eligible(r, s) && r.receiptId in ids
  }

  /** The UPDATE that nulls the payload columns of the rows it hits. */
  function Clear(rs: seq<Receipt>, s: Scope, ids: seq<string>): seq<Receipt> {
    seq(|rs|, i requires 0 <= i < |rs| => if Hit(rs[i], s, ids) then Strip(rs[i]) else rs[i])
  }

  /** The number of rows that UPDATE changes. */
  function HitCount(rs: seq<Receipt>, s: Scope, ids: seq<string>): nat {
    if rs == [] then 0
    else HitCount(rs[..|rs| - 1], s, ids) + if Hit(rs[|rs| - 1], s, ids) then 1 else 0
  }

  // ------------------------------------------------------------------
  // Revisions and domain writes

  function Revision(db: Tables, e: Entity): Option<nat> {
    if e in db.revisions then Some(db.revisions[e]) else None
  }

  function FreshJob(order: NewJob, now: nat): Job {
    Job(order, Pending, 0, now, None, None, None, now, now)
  }

  /** COALESCE(?, column) keeps the old value when nothing new is given. */
  function Coalesce<T>(a: Option<T>, b: Option<T>): Option<T> {
    if a.Some? then a else b
  }

  function Recorded(j: Job, status: JobStatus, attempts: nat, error: Option<string>, result: Option<string>,
                    nextAttemptAt: Option<nat>, now: nat): Job
  {
    j.(status := status, attempts := attempts, leasedUntil := None, lastError := error,
       resultJson := Coalesce(result, j.resultJson), nextAttemptAt := nextAttemptAt.GetOr(j.nextAttemptAt),
       updatedAt := now)
  }

  /** The job as it was enqueued, attempts and error forgotten, due at once; only its creation time stays. */
  function Reset(j: Job, now: nat): (r: Job)
    ensures r == FreshJob(j.order, now).(createdAt := j.createdAt)
  {
    j.(status := Pending, attempts := 0, leasedUntil := None, lastError := None, resultJson := None,
       nextAttemptAt := now, updatedAt := now)
  }

  function StatusText(s: JobStatus): string {
    match s
    case Pending => "pending"
    case Delivered => "delivered"
    case FailedTerminal => "failed_terminal"
    case DeliveryOutcomeUnknown => "delivery_outcome_unknown"
  }

  /** One domain write inside an open transaction; `id` is the receipt id handed to the closure. */
  function RunWrite(w: Write, db: Tables, id: string): Result<Tables, StoreError> {
    match w
    case Rows(update) =>
      (match update(db.rows, id)
       case Ok(rows) => Ok(db.(rows := rows))
       case Err(e) => Err(e))
    case Enqueue(job, order, now) =>
      if job in db.jobs then Err(Sqlite("UNIQUE constraint failed: outbox_jobs"))
      else Ok(db.(jobs := db.jobs[job := FreshJob(order, now)]))
    case RecordRow(job, status, attempts, error, result, next, now) =>
      if job in db.jobs then
        Ok(db.(jobs := db.jobs[job := Recorded(db.jobs[job], status, attempts, error, result, next, now)]))
      else Ok(db)
    case ResetRow(job, now) =>
      if job !in db.jobs then Err(Domain("outbox_job_not_found"))
      else if db.jobs[job].status != FailedTerminal then
        Err(Domain("outbox_retry_not_failed:" + StatusText(db.jobs[job].status)))
      else Ok(db.(jobs := db.jobs[job := Reset(db.jobs[job], now)]))
    case Advance(e, expected) =>
      if Revision(db, e) != Some(expected) then Err(Domain("entity_revision_changed"))
      else Ok(db.(revisions := db.revisions[e := expected + 1]))
    case Initialize(e, revision) =>
      if e in db.revisions then Err(Sqlite("UNIQUE constraint failed: entity_revisions"))
      else Ok(db.(revisions := db.revisions[e := revision]))
    case ClearPayloads(s, ids) =>
      if HitCount(db.receipts, s, ids) != |ids| then Err(Domain("receipt_payload_compaction_race"))
      else Ok(db.(receipts := Clear(db.receipts, s, ids)))
    case Both(first, second) =>
      (match RunWrite(first, db, id)
       case Ok(mid) => RunWrite(second, mid, id)
       case Err(e) => Err(e))
  }

  // ------------------------------------------------------------------
  // The two transactions of a mutation

  function MutateTx(db: Tables, req: Request, w: Write): TxResult {
    match FindApplied(db.receipts, req.entity.client, req.key)
    case Some(prior) =>
      Committed(Insert(db, req, ReplayedIdempotent, None, prior.revisionAfter, prior.revisionAfter),
                ReplayedAs(NextReceiptId(db), prior.revisionAfter))
    case None =>
      var current := Revision(db, req.entity);
      if req.expected.Some? && current != req.expected then
        Committed(Insert(db, req, RevisionConflict, Some("revision_conflict"), current, current),
                  ConflictAt(NextReceiptId(db), current))
      else
        match RunWrite(w, db, NextReceiptId(db))
        case Err(e) => RolledBack(e, current)
        case Ok(written) => Finish(written, req, current)
  }

  /** After the domain write: bump the revision read at the start, insert the receipt, commit. */
  function Finish(written: Tables, req: Request, current: Option<nat>): TxResult {
    var next := current.GetOr(0) + 1;
    var bumped := written.(revisions := written.revisions[req.entity := next]);
    Committed(Insert(bumped, req, Applied, None, current, Some(next)), AppliedAs(NextReceiptId(bumped), next))
  }

  predicate Applies(db: Tables, req: Request, w: Write) {
    var t := MutateTx(db, req, w);
    t.Committed? && t.outcome.AppliedAs?
  }

  function ErrorClass(e: StoreError): string {
    match e
    case Sqlite(_) => "sqlite"
    case Domain(_) => "domain"
  }

  /** The failure transaction: it keeps the revision the rolled-back transaction had read. */
  function AuditTx(db: Tables, req: Request, e: StoreError, captured: Option<nat>): Tables {
    Insert(db, req, Failed, Some(ErrorClass(e)), captured, captured)
  }

  function RecordFailedTx(db: Tables, req: Request, errorClass: string): Tables {
    Insert(db, req, Failed, Some(errorClass), Revision(db, req.entity), Revision(db, req.entity))
  }

  /** Which of the four ways a mutation ends: a spent key comes before a stale revision, and both before the write. */
  lemma OutcomeIff(db: Tables, req: Request, w: Write)
    ensures var t := MutateTx(db, req, w);
      var spent := KeyApplied(db.receipts, req.entity.client, req.key);
      var stale := req.expected.Some? && Revision(db, req.entity) != req.expected;
      var writes := RunWrite(w, db, NextReceiptId(db)).Ok?;
      && (t.Committed? && t.outcome.ReplayedAs? <==> spent)
      && (t.Committed? && t.outcome.ConflictAt? <==> !spent && stale)
      && (t.Committed? && t.outcome.AppliedAs? <==> !spent && !stale && writes)
      && (t.RolledBack? <==> !spent && !stale && !writes)
  {
  }

  /**
   A failed mutation leaves the tables alone except for one failed receipt, which keeps the request
   and the revision that was current when it failed, and never spends its key.
  */
  lemma FailedMutationIsAudited(db: Tables, req: Request, w: Write, later: Tables)
    requires MutateTx(db, req, w).RolledBack?
    ensures var t := MutateTx(db, req, w);
      var audited := AuditTx(later, req, t.error, t.captured);
      var r := audited.receipts[|later.receipts|];
      && audited == later.(receipts := later.receipts + [r])
      && r.outcome.Failed? && r.entity == req.entity && r.key == req.key
      && r.revisionBefore == r.revisionAfter == Revision(db, req.entity)
      && (forall client, key :: KeyApplied(audited.receipts, client, key) <==> KeyApplied(later.receipts, client, key))
  {
    var t := MutateTx(db, req, w);
    var r := AuditTx(later, req, t.error, t.captured).receipts[|later.receipts|];
    forall client, key
      ensures KeyApplied(later.receipts + [r], client, key) <==> KeyApplied(later.receipts, client, key)
    {
      FindAppliedAppend(later.receipts, r, client, key);
    }
  }

  // ------------------------------------------------------------------
  // What every transaction keeps

  /** Receipt ids are 1..N in commit order. */
  predicate Dense(rs: seq<Receipt>) {
    forall i | 0 <= i < |rs| :: rs[i].receiptId == ReceiptId(i + 1)
  }

  /** At most one applied receipt per client and idempotency key. */
  predicate UniqueKeys(rs: seq<Receipt>) {
    forall i, j | 0 <= i < j < |rs| && rs[i].outcome.Applied? && rs[j].outcome.Applied?
      && rs[i].entity.client == rs[j].entity.client :: rs[i].key != rs[j].key
  }

  /** Applied receipts step the revision by one and the current revision covers all of them. */
  predicate Stepped(rs: seq<Receipt>, revisions: map<Entity, nat>) {
    forall i | 0 <= i < |rs| && rs[i].outcome.Applied? ::
      && rs[i].revisionAfter == Some(rs[i].revisionBefore.GetOr(0) + 1)
      && rs[i].entity in revisions
      && rs[i].revisionAfter.value <= revisions[rs[i].entity]
  }

  /** Along the receipts of one entity, applied revisions strictly increase. */
  predicate Increasing(rs: seq<Receipt>) {
    forall i, j | 0 <= i < j < |rs| && rs[i].outcome.Applied? && rs[j].outcome.Applied?
      && rs[i].entity == rs[j].entity ::
      rs[i].revisionAfter.Some? && rs[j].revisionAfter.Some?
      && rs[i].revisionAfter.value < rs[j].revisionAfter.value
  }

  predicate Sound(db: Tables) {
    Dense(db.receipts) && UniqueKeys(db.receipts) && Stepped(db.receipts, db.revisions) && Increasing(db.receipts)
  }

  /** Same receipts, payload columns aside. */
  predicate SameButPayload(a: seq<Receipt>, b: seq<Receipt>) {
    |a| == |b| && forall i | 0 <= i < |a| :: Strip(a[i]) == Strip(b[i])
  }

  predicate NoLower(before: map<Entity, nat>, after: map<Entity, nat>) {
    forall e | e in before :: e in after && before[e] <= after[e]
  }

  /** A domain write keeps every receipt up to payloads, and never lowers a revision. */
  lemma {:induction false} WriteKeeps(w: Write, db: Tables, id: string)
    requires RunWrite(w, db, id).Ok?
    ensures SameButPayload(db.receipts, RunWrite(w, db, id).value.receipts)
    ensures NoLower(db.revisions, RunWrite(w, db, id).value.revisions)
  {
    if w.Both? {
      WriteKeeps(w.first, db, id);
      var mid := RunWrite(w.first, db, id).value;
      WriteKeeps(w.second, mid, id);
    }
  }

  lemma PayloadIrrelevant(a: seq<Receipt>, b: seq<Receipt>)
    requires SameButPayload(a, b)
    ensures Dense(a) <==> Dense(b)
    ensures UniqueKeys(a) <==> UniqueKeys(b)
    ensures Increasing(a) <==> Increasing(b)
    ensures forall revisions :: Stepped(a, revisions) <==> Stepped(b, revisions)
    ensures forall client, key :: KeyApplied(a, client, key) <==> KeyApplied(b, client, key)
  {
    assert forall i | 0 <= i < |a| :: Strip(a[i]) == Strip(b[i]);
  }

  lemma AppendUnique(rs: seq<Receipt>, r: Receipt)
    requires UniqueKeys(rs) && (r.outcome.Applied? ==> !KeyApplied(rs, r.entity.client, r.key))
    ensures UniqueKeys(rs + [r])
  {
    var all := rs + [r];
    assert forall i | 0 <= i < |rs| :: all[i] == rs[i];
  }

  lemma AppendIncreasing(rs: seq<Receipt>, r: Receipt, revisions: map<Entity, nat>)
    requires Increasing(rs) && Stepped(rs, revisions)
    requires r.outcome.Applied? ==>
      && r.revisionAfter == Some(r.revisionBefore.GetOr(0) + 1)
      && (r.entity in revisions ==> revisions[r.entity] <= r.revisionBefore.GetOr(0))
    ensures Increasing(rs + [r])
  {
    var all := rs + [r];
    assert forall i | 0 <= i < |rs| :: all[i] == rs[i];
  }

  lemma AppendSound(rs: seq<Receipt>, r: Receipt, revisions: map<Entity, nat>)
    requires Dense(rs) && UniqueKeys(rs) && Stepped(rs, revisions) && Increasing(rs)
    requires r.receiptId == ReceiptId(|rs| + 1)
    requires r.outcome.Applied? ==>
      && !KeyApplied(rs, r.entity.client, r.key)
      && r.revisionAfter == Some(r.revisionBefore.GetOr(0) + 1)
      && (r.entity in revisions ==> revisions[r.entity] <= r.revisionBefore.GetOr(0))
    ensures Dense(rs + [r]) && UniqueKeys(rs + [r]) && Increasing(rs + [r])
    ensures Stepped(rs + [r], if r.outcome.Applied? then revisions[r.entity := r.revisionAfter.value] else revisions)
  {
    AppendUnique(rs, r);
    AppendIncreasing(rs, r, revisions);
  }

  /** `after` continues `before` by one receipt: sound, and nothing recorded is lost. */
  predicate Continues(before: Tables, after: Tables) {
    && Sound(after)
    && NoLower(before.revisions, after.revisions)
    && |after.receipts| == |before.receipts| + 1
    && SameButPayload(before.receipts, after.receipts[..|before.receipts|])
  }

  lemma FinishContinues(db: Tables, written: Tables, req: Request)
    requires Sound(db) && !KeyApplied(db.receipts, req.entity.client, req.key)
    requires SameButPayload(db.receipts, written.receipts) && NoLower(db.revisions, written.revisions)
    ensures Continues(db, Finish(written, req, Revision(db, req.entity)).db)
  {
    var t := Finish(written, req, Revision(db, req.entity)).db;
    var last := t.receipts[|written.receipts|];
    assert t.receipts == written.receipts + [last] && t.receipts[..|db.receipts|] == written.receipts;
    AppendAppliedSound(db, written, last);
  }

  lemma InsertContinues(db: Tables, req: Request, outcome: ReceiptOutcome, errorClass: Option<string>,
                        before: Option<nat>, after: Option<nat>)
    requires Sound(db) && !outcome.Applied?
    ensures Continues(db, Insert(db, req, outcome, errorClass, before, after))
  {
    var t := Insert(db, req, outcome, errorClass, before, after);
    assert t.receipts[..|db.receipts|] == db.receipts;
    AppendSound(db.receipts, t.receipts[|db.receipts|], db.revisions);
  }

  /** Every committed mutation keeps the receipt log sound; the id promised is the id inserted. */
  lemma MutateKeepsSound(db: Tables, req: Request, w: Write)
    requires Sound(db) && MutateTx(db, req, w).Committed?
    ensures Continues(db, MutateTx(db, req, w).db)
    ensures MutateTx(db, req, w).outcome.receiptId == NextReceiptId(db)
    ensures var rs := MutateTx(db, req, w).db.receipts; rs[|rs| - 1].receiptId == NextReceiptId(db)
  {
    var current := Revision(db, req.entity);
    if KeyApplied(db.receipts, req.entity.client, req.key) {
      var prior := FindApplied(db.receipts, req.entity.client, req.key).value.revisionAfter;
      InsertContinues(db, req, ReplayedIdempotent, None, prior, prior);
    } else if req.expected.Some? && current != req.expected {
      InsertContinues(db, req, RevisionConflict, Some("revision_conflict"), current, current);
    } else {
      var written := RunWrite(w, db, NextReceiptId(db)).value;
      WriteKeeps(w, db, NextReceiptId(db));
      assert MutateTx(db, req, w) == Finish(written, req, current);
      FinishContinues(db, written, req);
    }
  }

  /** The bump overwrites whatever the domain write did to the mutated entity's own revision. */
  lemma AppendAppliedSound(db: Tables, written: Tables, r: Receipt)
    requires Sound(db) && SameButPayload(db.receipts, written.receipts) && NoLower(db.revisions, written.revisions)
    requires r.outcome.Applied? && r.receiptId == ReceiptId(|db.receipts| + 1)
    requires !KeyApplied(db.receipts, r.entity.client, r.key)
    requires r.revisionBefore == Revision(db, r.entity)
    requires r.revisionAfter == Some(r.revisionBefore.GetOr(0) + 1)
    ensures Sound(Tables(written.receipts + [r], written.revisions[r.entity := r.revisionAfter.value], written.jobs,
                         written.rows))
  {
    PayloadIrrelevant(db.receipts, written.receipts);
    AppendSound(db.receipts, r, db.revisions);
    assert SameButPayload(db.receipts + [r], written.receipts + [r]);
    PayloadIrrelevant(db.receipts + [r], written.receipts + [r]);
  }

  // ------------------------------------------------------------------
  // Lookups

  lemma FindAppliedAppend(rs: seq<Receipt>, r: Receipt, client: string, key: string)
    ensures FindApplied(rs + [r], client, key) ==
            if IsApplied(r, client, key) then Some(r) else FindApplied(rs, client, key)
  {
    assert (rs + [r])[..|rs|] == rs;
  }

  lemma NewestAppend(rs: seq<Receipt>, r: Receipt, q: Lookup)
    ensures Newest(rs + [r], q) ==
            if Matches(q, r) && (Newest(rs, q).None? || !Newer(Newest(rs, q).value, r)) then Some(r)
            else Newest(rs, q)
  {
    assert (rs + [r])[..|rs|] == rs;
  }

  lemma NewerTransitive(a: Receipt, b: Receipt, c: Receipt)
    requires Newer(a, b) && Newer(b, c)
    ensures Newer(a, c)
  {
    if a.createdAt == b.createdAt && b.createdAt == c.createdAt {
      LessTransitive(c.receiptId, b.receiptId, a.receiptId);
    }
  }

  lemma NewerTotal(a: Receipt, b: Receipt)
    requires a.receiptId != b.receiptId
    ensures Newer(a, b) || Newer(b, a)
  {
    LessTotal(a.receiptId, b.receiptId);
  }

  predicate DistinctIds(rs: seq<Receipt>) {
    forall a, b | 0 <= a < b < |rs| :: rs[a].receiptId != rs[b].receiptId
  }

  lemma NewestDiffers(front: seq<Receipt>, last: Receipt, q: Lookup)
    requires DistinctIds(front + [last])
    ensures DistinctIds(front)
    ensures Newest(front, q).Some? ==> Newest(front, q).value.receiptId != last.receiptId
  {
    var rs := front + [last];
    assert rs[|front|] == last;
    assert forall i | 0 <= i < |front| :: rs[i] == front[i];
  }

  /** A newest-first lookup returns the row that sorts before every other match. */
  lemma {:induction false} NewestComesFirst(rs: seq<Receipt>, q: Lookup, i: nat)
    requires DistinctIds(rs) && i < |rs| && Matches(q, rs[i])
    ensures Newest(rs, q).Some? && (Newest(rs, q).value == rs[i] || Newer(Newest(rs, q).value, rs[i]))
  {
    var n := |rs| - 1;
    var front, last := rs[..n], rs[n];
    var best := Newest(front, q);
    assert rs == front + [last];
    NewestDiffers(front, last, q);
    if best.Some? {
      NewerTotal(best.value, last);
    }
    if i < n {
      NewestComesFirst(front, q, i);
      if !Newer(best.value, last) && best.value != rs[i] {
        NewerTransitive(last, best.value, rs[i]);
      }
    }
  }

  /** Lookups do not see payload columns. */
  lemma {:induction false} NewestStrip(a: seq<Receipt>, b: seq<Receipt>, q: Lookup)
    requires SameButPayload(a, b)
    ensures Newest(a, q).Some? <==> Newest(b, q).Some?
    ensures Newest(a, q).Some? ==> Strip(Newest(a, q).value) == Strip(Newest(b, q).value)
  {
    if a != [] {
      assert Strip(a[|a| - 1]) == Strip(b[|b| - 1]);
      NewestStrip(a[..|a| - 1], b[..|b| - 1], q);
    }
  }

  lemma {:induction false} FindAppliedStrip(a: seq<Receipt>, b: seq<Receipt>, client: string, key: string)
    requires SameButPayload(a, b)
    ensures FindApplied(a, client, key).Some? <==> FindApplied(b, client, key).Some?
    ensures FindApplied(a, client, key).Some? ==>
      Strip(FindApplied(a, client, key).value) == Strip(FindApplied(b, client, key).value)
  {
    if a != [] {
      assert Strip(a[|a| - 1]) == Strip(b[|b| - 1]);
      FindAppliedStrip(a[..|a| - 1], b[..|b| - 1], client, key);
    }
  }

  /** With unique keys, an applied receipt is the one its key finds. */
  lemma FindAppliedIs(rs: seq<Receipt>, i: nat, client: string, key: string)
    requires UniqueKeys(rs) && i < |rs| && IsApplied(rs[i], client, key)
    ensures FindApplied(rs, client, key) == Some(rs[i])
  {
    var r := FindApplied(rs, client, key).value;
    var j :| 0 <= j < |rs| && rs[j] == r;
  }

  /** The lookup callers use to detect a replay names the same receipt `mutate` replays. */
  lemma AppliedRevisionAgrees(db: Tables, req: Request, w: Write)
    requires Sound(db)
    ensures AppliedRevision(db, req.entity.client, req.key).Some?
      <==> MutateTx(db, req, w).Committed? && MutateTx(db, req, w).outcome.ReplayedAs?
    ensures AppliedRevision(db, req.entity.client, req.key).Some?
      ==> MutateTx(db, req, w).outcome.prior == AppliedRevision(db, req.entity.client, req.key)
  {
    var client, key := req.entity.client, req.key;
    var found := Newest(db.receipts, OfKey(client, key));
    if found.Some? {
      var i :| 0 <= i < |db.receipts| && db.receipts[i] == found.value;
      FindAppliedIs(db.receipts, i, client, key);
    }
  }

  // ------------------------------------------------------------------
  // Receipt ids as text

  /** Ids 1..N sort as text in numeric order exactly while N < 10^12. */
  lemma ReceiptIdsSortWhileTwelveDigits(limit: nat)
    ensures (forall n: nat, m: nat | n < m <= limit :: Less(ReceiptId(n), ReceiptId(m)))
      <==> limit < Pow10(12)
  {
    if limit < Pow10(12) {
      forall n: nat, m: nat | n < m <= limit
        ensures Less(ReceiptId(n), ReceiptId(m))
      {
        ReceiptIdOrder(n, m);
      }
    } else {
      var n: nat := Pow10(12) - 1;
      RolloverMissorts(12);
      LessAfterPrefix("rcpt_", Padded(n, 12), Padded(n + 1, 12));
      assert n < n + 1 <= limit && !Less(ReceiptId(n), ReceiptId(n + 1));
    }
  }

  lemma ReceiptIdOrder(n: nat, m: nat)
    requires n < m < Pow10(12)
    ensures Less(ReceiptId(n), ReceiptId(m))
  {
    PaddedOrder(n, m, 12);
    LessAfterPrefix("rcpt_", Padded(n, 12), Padded(m, 12));
  }

  lemma ReceiptIdInjective(n: nat, m: nat)
    requires ReceiptId(n) == ReceiptId(m)
    ensures n == m
  {
    assert ReceiptId(n)[5..] == Padded(n, 12) && ReceiptId(m)[5..] == Padded(m, 12);
    PaddedInjective(n, m, 12);
  }

  lemma ReceiptIdLacksColon(n: nat)
    ensures Lacks(ReceiptId(n), ':') && ReceiptId(n) != "initial"
  {
    PaddedValue(n, 12);
    assert ReceiptId(n)[0] == 'r';
  }
}
