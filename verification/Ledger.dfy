/**
 Whole runs of the write path. Each transaction is one atomic step; the failure transaction of
 a mutation is a step of its own, so other steps may commit between the two.
*/
module Ledger {
  import opened Wrappers
  import opened Schema
  import opened StoreCore

  /** A mutation that rolled back and has not been audited yet. */
  datatype Audit = Audit(req: Request, error: StoreError, captured: Option<nat>)

  datatype World = World(db: Tables, audits: seq<Audit>)

  datatype Step =
    | Mutate(req: Request, w: Write)
    | WriteAudit(index: nat)
    | RecordFailed(req: Request, errorClass: string)
    | Lease(jobs: set<JobRef>, until: nat, now: nat)

  function LeaseTx(db: Tables, jobs: set<JobRef>, until: nat, now: nat): Tables {
    db.(jobs := map j | j in db.jobs :: if j in jobs then db.jobs[j].(leasedUntil := Some(until), updatedAt := now)
                                        else db.jobs[j])
  }

  function Next(s: World, step: Step): World {
    match step
    case Mutate(req, w) =>
      (match MutateTx(s.db, req, w)
       case Committed(db, _) => s.(db := db)
       case RolledBack(e, captured) => s.(audits := s.audits + [Audit(req, e, captured)]))
    case WriteAudit(i) =>
      if i < |s.audits| then
        World(AuditTx(s.db, s.audits[i].req, s.audits[i].error, s.audits[i].captured),
              s.audits[..i] + s.audits[i + 1..])
      else s
    case RecordFailed(req, errorClass) => s.(db := RecordFailedTx(s.db, req, errorClass))
    case Lease(jobs, until, now) => s.(db := LeaseTx(s.db, jobs, until, now))
  }

  function Run(s: World, steps: seq<Step>): World {
    if steps == [] then s else Next(Run(s, steps[..|steps| - 1]), steps[|steps| - 1])
  }

  lemma {:induction false} RunConcat(s: World, a: seq<Step>, b: seq<Step>)
    ensures Run(s, a + b) == Run(Run(s, a), b)
  {
    if b == [] {
      assert a + b == a;
    } else {
      assert (a + b)[..|a + b| - 1] == a + b[..|b| - 1];
      RunConcat(s, a, b[..|b| - 1]);
    }
  }

  /** What persists from one state to a later one. */
  predicate Extends(before: Tables, after: Tables) {
    && |before.receipts| <= |after.receipts|
    && SameButPayload(before.receipts, after.receipts[..|before.receipts|])
    && NoLower(before.revisions, after.revisions)
  }

  lemma ExtendsTransitive(a: Tables, b: Tables, c: Tables)
    requires Extends(a, b) && Extends(b, c)
    ensures Extends(a, c)
  {
    forall i | 0 <= i < |a.receipts|
      ensures Strip(a.receipts[i]) == Strip(c.receipts[..|a.receipts|][i])
    {
      assert Strip(a.receipts[i]) == Strip(b.receipts[..|a.receipts|][i]);
      assert Strip(b.receipts[i]) == Strip(c.receipts[..|b.receipts|][i]);
    }
  }

  lemma StepKeeps(s: World, step: Step)
    requires Sound(s.db)
    ensures Sound(Next(s, step).db) && Extends(s.db, Next(s, step).db)
  {
    var db := s.db;
    match step
    case Mutate(req, w) =>
      if MutateTx(db, req, w).Committed? {
        MutateKeepsSound(db, req, w);
      }
    case WriteAudit(i) =>
      if i < |s.audits| {
        var a := s.audits[i];
        InsertContinues(db, a.req, Failed, Some(ErrorClass(a.error)), a.captured, a.captured);
      }
    case RecordFailed(req, errorClass) =>
      InsertContinues(db, req, Failed, Some(errorClass), Revision(db, req.entity), Revision(db, req.entity));
    case Lease(_, _, _) =>
  }

  /**
   In every reachable state receipt ids are 1..N in commit order, each client's key is applied at
   most once, applied revisions step by one and strictly increase, and nothing recorded is lost.
  */
  lemma {:induction false} RunKeeps(s: World, steps: seq<Step>)
    requires Sound(s.db)
    ensures Sound(Run(s, steps).db) && Extends(s.db, Run(s, steps).db)
  {
    if steps != [] {
      RunKeeps(s, steps[..|steps| - 1]);
      var mid := Run(s, steps[..|steps| - 1]);
      StepKeeps(mid, steps[|steps| - 1]);
      ExtendsTransitive(s.db, mid.db, Run(s, steps).db);
    }
  }

  /** Once a key is applied, every later use of it replays, with the revision first recorded. */
  lemma ReplayForever(s: World, first: Request, w: Write, steps: seq<Step>, again: Request, w': Write)
    requires Sound(s.db) && Applies(s.db, first, w)
    requires again.key == first.key && again.entity.client == first.entity.client
    ensures var later := Run(Next(s, Mutate(first, w)), steps).db;
      && MutateTx(later, again, w').Committed?
      && MutateTx(later, again, w').outcome ==
         ReplayedAs(NextReceiptId(later), Some(MutateTx(s.db, first, w).outcome.revision))
      && MutateTx(later, again, w').db.jobs == later.jobs
      && MutateTx(later, again, w').db.rows == later.rows
      && MutateTx(later, again, w').db.revisions == later.revisions
  {
    var applied := Next(s, Mutate(first, w));
    StepKeeps(s, Mutate(first, w));
    RunKeeps(applied, steps);
    var later := Run(applied, steps).db;
    var i := |applied.db.receipts| - 1;
    assert Strip(applied.db.receipts[i]) == Strip(later.receipts[..|applied.db.receipts|][i]);
    FindAppliedIs(later.receipts, i, first.entity.client, first.key);
  }

  /**
   Optimistic concurrency over a whole run: two mutations that expect the same revision of the
   same entity are never both applied, whatever happens in between.
  */
  lemma OneWinnerPerExpectedRevision(s: World, a: Request, w: Write, steps: seq<Step>, b: Request, w': Write)
    requires Sound(s.db) && Applies(s.db, a, w)
    requires a.expected.Some? && b.expected == a.expected && b.entity == a.entity
    ensures !Applies(Run(Next(s, Mutate(a, w)), steps).db, b, w')
  {
    AppliedRaises(s.db, a, w);
    StepKeeps(s, Mutate(a, w));
    RunKeeps(Next(s, Mutate(a, w)), steps);
    StaleLoses(Run(Next(s, Mutate(a, w)), steps).db, b, w');
  }

  /** An applied mutation with an expected revision leaves a higher one. */
  lemma AppliedRaises(db: Tables, a: Request, w: Write)
    requires Applies(db, a, w) && a.expected.Some?
    ensures var after := MutateTx(db, a, w).db;
      a.entity in after.revisions && after.revisions[a.entity] > a.expected.value
  {
  }

  lemma StaleLoses(db: Tables, b: Request, w: Write)
    requires b.expected.Some? && b.entity in db.revisions && db.revisions[b.entity] > b.expected.value
    ensures !Applies(db, b, w)
  {
  }

  // ------------------------------------------------------------------
  // Revision accounting

  /** What a domain write adds to an entity's revision when it succeeds. */
  function Credit(w: Write, e: Entity): nat {
    match w
    case Advance(other, _) => if other == e then 1 else 0
    case Initialize(other, revision) => if other == e then revision else 0
    case Both(first, second) => Credit(first, e) + Credit(second, e)
    case _ => 0
  }

  function RevisionOr0(db: Tables, e: Entity): nat {
    Revision(db, e).GetOr(0)
  }

  lemma {:induction false} WriteCredits(w: Write, db: Tables, id: string, e: Entity)
    requires RunWrite(w, db, id).Ok?
    ensures RevisionOr0(RunWrite(w, db, id).value, e) == RevisionOr0(db, e) + Credit(w, e)
  {
    if w.Both? {
      WriteCredits(w.first, db, id, e);
      WriteCredits(w.second, RunWrite(w.first, db, id).value, id, e);
    }
  }

  /** What one step adds to an entity: its own bump, and the credits of the write it applied. */
  function Gain(s: World, step: Step, e: Entity): nat {
    if step.Mutate? && Applies(s.db, step.req, step.w) then
      (if step.req.entity == e then 1 else 0) + Credit(step.w, e)
    else 0
  }

  function RunGain(s: World, steps: seq<Step>, e: Entity): nat {
    if steps == [] then 0
    else RunGain(s, steps[..|steps| - 1], e) + Gain(Run(s, steps[..|steps| - 1]), steps[|steps| - 1], e)
  }

  /** Does any step apply a write that touches the revision of the entity it mutates? */
  predicate LeavesOwnEntity(steps: seq<Step>) {
    forall i | 0 <= i < |steps| && steps[i].Mutate? :: Credit(steps[i].w, steps[i].req.entity) == 0
  }

  /** One step accounts for an entity exactly unless its write bumped the mutated entity itself. */
  lemma StepAccounts(s: World, step: Step, e: Entity)
    ensures RevisionOr0(Next(s, step).db, e) == RevisionOr0(s.db, e) + Gain(s, step, e)
      <==> !(step.Mutate? && Applies(s.db, step.req, step.w) && step.req.entity == e && Credit(step.w, e) > 0)
  {
    if step.Mutate? && Applies(s.db, step.req, step.w) {
      WriteCredits(step.w, s.db, NextReceiptId(s.db), e);
    }
  }

  /**
   Over any run an entity's revision is what it was plus its applied mutations plus the advances
   and initialisations other mutations made on it.
  */
  lemma {:induction false} RevisionsAccount(s: World, steps: seq<Step>, e: Entity)
    requires LeavesOwnEntity(steps)
    ensures RevisionOr0(Run(s, steps).db, e) == RevisionOr0(s.db, e) + RunGain(s, steps, e)
  {
    if steps != [] {
      var front := steps[..|steps| - 1];
      assert forall i | 0 <= i < |front| :: front[i] == steps[i];
      RevisionsAccount(s, front, e);
      StepAccounts(Run(s, front), steps[|steps| - 1], e);
    }
  }

  // ------------------------------------------------------------------
  // Failures

  /** What identifies a failure in the log. */
  datatype Mark = Mark(entity: Entity, key: string, errorClass: Option<string>, revision: Option<nat>)

  function AuditMark(a: Audit): Mark {
    Mark(a.req.entity, a.req.key, Some(ErrorClass(a.error)), a.captured)
  }

  function FailedMarks(rs: seq<Receipt>): multiset<Mark> {
    if rs == [] then multiset{}
    else
      var r := rs[|rs| - 1];
      FailedMarks(rs[..|rs| - 1]) +
      if r.outcome.Failed? then multiset{Mark(r.entity, r.key, r.errorClass, r.revisionAfter)} else multiset{}
  }

  function AuditMarks(audits: seq<Audit>): multiset<Mark> {
    if audits == [] then multiset{}
    else AuditMarks(audits[..|audits| - 1]) + multiset{AuditMark(audits[|audits| - 1])}
  }

  /** The failures a step causes: a rolled-back mutation or a directly recorded failure. */
  function Failures(s: World, step: Step): multiset<Mark> {
    match step
    case Mutate(req, w) =>
      (match MutateTx(s.db, req, w)
       case Committed(_, _) => multiset{}
       case RolledBack(e, captured) => multiset{AuditMark(Audit(req, e, captured))})
    case RecordFailed(req, errorClass) =>
      multiset{Mark(req.entity, req.key, Some(errorClass), Revision(s.db, req.entity))}
    case _ => multiset{}
  }

  function RunFailures(s: World, steps: seq<Step>): multiset<Mark> {
    if steps == [] then multiset{}
    else RunFailures(s, steps[..|steps| - 1]) + Failures(Run(s, steps[..|steps| - 1]), steps[|steps| - 1])
  }

  lemma {:induction false} FailedMarksStrip(a: seq<Receipt>, b: seq<Receipt>)
    requires SameButPayload(a, b)
    ensures FailedMarks(a) == FailedMarks(b)
  {
    if a != [] {
      assert Strip(a[|a| - 1]) == Strip(b[|b| - 1]);
      FailedMarksStrip(a[..|a| - 1], b[..|b| - 1]);
    }
  }

  lemma FailedMarksAppend(rs: seq<Receipt>, r: Receipt)
    ensures FailedMarks(rs + [r]) == FailedMarks(rs) +
      if r.outcome.Failed? then multiset{Mark(r.entity, r.key, r.errorClass, r.revisionAfter)} else multiset{}
  {
    assert (rs + [r])[..|rs|] == rs;
  }

  lemma {:induction false} AuditMarksRemove(audits: seq<Audit>, i: nat)
    requires i < |audits|
    ensures AuditMarks(audits) == AuditMarks(audits[..i] + audits[i + 1..]) + multiset{AuditMark(audits[i])}
  {
    var n := |audits| - 1;
    if i == n {
      assert audits[..i] + audits[i + 1..] == audits[..n];
    } else {
      AuditMarksRemove(audits[..n], i);
      var rest := audits[..i] + audits[i + 1..];
      assert rest[..|rest| - 1] == audits[..n][..i] + audits[..n][i + 1..];
      assert rest[|rest| - 1] == audits[n];
    }
  }

  /** Every failure that is in the log or still waiting for its audit. */
  function KnownFailures(s: World): multiset<Mark> {
    FailedMarks(s.db.receipts) + AuditMarks(s.audits)
  }

  lemma CommitConservesFailures(s: World, req: Request, w: Write)
    requires MutateTx(s.db, req, w).Committed?
    ensures FailedMarks(MutateTx(s.db, req, w).db.receipts) == FailedMarks(s.db.receipts)
  {
    var t := MutateTx(s.db, req, w).db;
    var last := t.receipts[|t.receipts| - 1];
    if Applies(s.db, req, w) {
      var written := RunWrite(w, s.db, NextReceiptId(s.db)).value;
      WriteKeeps(w, s.db, NextReceiptId(s.db));
      FailedMarksStrip(s.db.receipts, written.receipts);
      FailedMarksAppend(written.receipts, last);
    } else {
      FailedMarksAppend(s.db.receipts, last);
    }
  }

  lemma MutateConservesFailures(s: World, req: Request, w: Write)
    ensures KnownFailures(Next(s, Mutate(req, w))) == KnownFailures(s) + Failures(s, Mutate(req, w))
  {
    if MutateTx(s.db, req, w).RolledBack? {
      assert Next(s, Mutate(req, w)).audits[..|s.audits|] == s.audits;
    } else {
      CommitConservesFailures(s, req, w);
    }
  }

  lemma AuditConservesFailures(s: World, i: nat)
    ensures KnownFailures(Next(s, WriteAudit(i))) == KnownFailures(s)
  {
    if i < |s.audits| {
      AuditMarksRemove(s.audits, i);
      FailedMarksAppend(s.db.receipts, Next(s, WriteAudit(i)).db.receipts[|s.db.receipts|]);
    }
  }

  lemma RecordConservesFailures(s: World, req: Request, errorClass: string)
    ensures KnownFailures(Next(s, RecordFailed(req, errorClass))) ==
      KnownFailures(s) + Failures(s, RecordFailed(req, errorClass))
  {
    FailedMarksAppend(s.db.receipts, Next(s, RecordFailed(req, errorClass)).db.receipts[|s.db.receipts|]);
  }

  lemma StepConservesFailures(s: World, step: Step)
    ensures KnownFailures(Next(s, step)) == KnownFailures(s) + Failures(s, step)
  {
    match step
    case Mutate(req, w) => MutateConservesFailures(s, req, w);
    case WriteAudit(i) => AuditConservesFailures(s, i);
    case RecordFailed(req, errorClass) => RecordConservesFailures(s, req, errorClass);
    case Lease(_, _, _) =>
  }

  /**
   Failed receipts plus pending audits are exactly the failures that happened: each failed
   mutation leaves one failed receipt, whatever commits between its two transactions.
  */
  lemma {:induction false} FailuresAreAuditedOnce(s: World, steps: seq<Step>)
    ensures KnownFailures(Run(s, steps)) == KnownFailures(s) + RunFailures(s, steps)
  {
    if steps != [] {
      FailuresAreAuditedOnce(s, steps[..|steps| - 1]);
      StepConservesFailures(Run(s, steps[..|steps| - 1]), steps[|steps| - 1]);
    }
  }

  // ------------------------------------------------------------------
  // The state is the fold of the applied writes

  /** Slice rows and job rows, with the lease and touch columns projected away. */
  datatype Effective = Effective(rows: map<RowKey, Row>, jobs: map<JobRef, Job>)

  function Core(j: Job): Job {
    j.(leasedUntil := None, updatedAt := 0)
  }

  function Project(db: Tables): Effective {
    Effective(db.rows, map j | j in db.jobs :: Core(db.jobs[j]))
  }

  /** The effect of a write that succeeded, on the projected state. */
  function Effect(w: Write, p: Effective, id: string): Effective {
    match w
    case Rows(update) =>
      (match update(p.rows, id)
       case Ok(rows) => p.(rows := rows)
       case Err(_) => p)
    case Enqueue(job, order, now) => p.(jobs := p.jobs[job := Core(FreshJob(order, now))])
    case RecordRow(job, status, attempts, error, result, next, now) =>
      if job in p.jobs then
        p.(jobs := p.jobs[job := Core(Recorded(p.jobs[job], status, attempts, error, result, next, now))])
      else p
    case ResetRow(job, now) =>
      if job in p.jobs then p.(jobs := p.jobs[job := Core(Reset(p.jobs[job], now))]) else p
    case Both(first, second) => Effect(second, Effect(first, p, id), id)
    case _ => p
  }

  lemma {:induction false} WriteProjects(w: Write, db: Tables, id: string)
    requires RunWrite(w, db, id).Ok?
    ensures Project(RunWrite(w, db, id).value) == Effect(w, Project(db), id)
  {
    if w.Both? {
      WriteProjects(w.first, db, id);
      WriteProjects(w.second, RunWrite(w.first, db, id).value, id);
    }
  }

  /** One applied mutation: its request, its write, and the receipt id the write was given. */
  datatype Entry = Entry(req: Request, w: Write, id: string)

  function Logged(s: World, step: Step): seq<Entry> {
    if step.Mutate? && Applies(s.db, step.req, step.w) then [Entry(step.req, step.w, NextReceiptId(s.db))] else []
  }

  function AppliedLog(s: World, steps: seq<Step>): seq<Entry> {
    if steps == [] then []
    else AppliedLog(s, steps[..|steps| - 1]) + Logged(Run(s, steps[..|steps| - 1]), steps[|steps| - 1])
  }

  function Fold(p: Effective, log: seq<Entry>): Effective {
    if log == [] then p
    else Effect(log[|log| - 1].w, Fold(p, log[..|log| - 1]), log[|log| - 1].id)
  }

  lemma StepProjects(s: World, step: Step)
    ensures Project(Next(s, step).db) == Fold(Project(s.db), Logged(s, step))
  {
    if Logged(s, step) != [] {
      WriteProjects(step.w, s.db, NextReceiptId(s.db));
      assert Fold(Project(s.db), Logged(s, step)[..0]) == Project(s.db);
    } else {
      assert Project(Next(s, step).db).jobs == Project(s.db).jobs;
    }
  }

  lemma {:induction false} FoldConcat(p: Effective, a: seq<Entry>, b: seq<Entry>)
    ensures Fold(p, a + b) == Fold(Fold(p, a), b)
  {
    if b == [] {
      assert a + b == a;
    } else {
      assert (a + b)[..|a + b| - 1] == a + b[..|b| - 1];
      FoldConcat(p, a, b[..|b| - 1]);
    }
  }

  /**
   After any run, slice rows and job rows are the fold of the domain writes that were applied, in
   commit order: replays, conflicts, failures, audits and leases contribute nothing.
  */
  lemma {:induction false} StateIsFoldOfAppliedWrites(s: World, steps: seq<Step>)
    ensures Project(Run(s, steps).db) == Fold(Project(s.db), AppliedLog(s, steps))
  {
    if steps != [] {
      var front := steps[..|steps| - 1];
      StateIsFoldOfAppliedWrites(s, front);
      StepProjects(Run(s, front), steps[|steps| - 1]);
      FoldConcat(Project(s.db), AppliedLog(s, front), Logged(Run(s, front), steps[|steps| - 1]));
    }
  }

  function AppliedReceipts(rs: seq<Receipt>): seq<Receipt> {
    if rs == [] then []
    else AppliedReceipts(rs[..|rs| - 1]) + if rs[|rs| - 1].outcome.Applied? then [Strip(rs[|rs| - 1])] else []
  }

  lemma {:induction false} AppliedReceiptsStrip(a: seq<Receipt>, b: seq<Receipt>)
    requires SameButPayload(a, b)
    ensures AppliedReceipts(a) == AppliedReceipts(b)
  {
    if a != [] {
      assert Strip(a[|a| - 1]) == Strip(b[|b| - 1]);
      AppliedReceiptsStrip(a[..|a| - 1], b[..|b| - 1]);
    }
  }

  lemma AppliedReceiptsAppend(rs: seq<Receipt>, r: Receipt)
    ensures AppliedReceipts(rs + [r]) == AppliedReceipts(rs) + if r.outcome.Applied? then [Strip(r)] else []
  {
    assert (rs + [r])[..|rs|] == rs;
  }

  /** Does this receipt record this applied mutation? */
  predicate Records(r: Receipt, entry: Entry) {
    r.receiptId == entry.id && r.entity == entry.req.entity && r.key == entry.req.key
    && r.changeKind == entry.req.changeKind && r.actorId == entry.req.actorId && r.createdAt == entry.req.now
  }

  lemma StepLogs(s: World, step: Step)
    ensures var before := AppliedReceipts(s.db.receipts);
      var after := AppliedReceipts(Next(s, step).db.receipts);
      if Logged(s, step) == [] then after == before
      else |after| == |before| + 1 && after[..|before|] == before && Records(after[|before|], Logged(s, step)[0])
  {
    var t := Next(s, step);
    if Logged(s, step) != [] {
      var written := RunWrite(step.w, s.db, NextReceiptId(s.db)).value;
      assert t.db == Finish(written, step.req, Revision(s.db, step.req.entity)).db;
      WriteKeeps(step.w, s.db, NextReceiptId(s.db));
      AppliedReceiptsStrip(s.db.receipts, written.receipts);
      var last := t.db.receipts[|written.receipts|];
      assert t.db.receipts == written.receipts + [last];
      AppliedReceiptsAppend(written.receipts, last);
    } else if |t.db.receipts| != |s.db.receipts| {
      assert t.db.receipts == s.db.receipts + [t.db.receipts[|s.db.receipts|]];
      AppliedReceiptsAppend(s.db.receipts, t.db.receipts[|s.db.receipts|]);
    }
  }

  /** The applied receipts, in receipt order, are exactly the applied mutations, in commit order. */
  lemma {:induction false} LogIsTheAppliedReceipts(s: World, steps: seq<Step>)
    requires AppliedReceipts(s.db.receipts) == []
    ensures |AppliedReceipts(Run(s, steps).db.receipts)| == |AppliedLog(s, steps)|
    ensures forall i | 0 <= i < |AppliedLog(s, steps)| ::
      Records(AppliedReceipts(Run(s, steps).db.receipts)[i], AppliedLog(s, steps)[i])
  {
    if steps != [] {
      var front := steps[..|steps| - 1];
      LogIsTheAppliedReceipts(s, front);
      StepLogs(Run(s, front), steps[|steps| - 1]);
    }
  }

  // ------------------------------------------------------------------
  // Jobs come from applied mutations

  predicate Enqueues(w: Write, job: JobRef) {
    match w
    case Enqueue(j, _, _) => j == job
    case Both(first, second) => Enqueues(first, job) || Enqueues(second, job)
    case _ => false
  }

  lemma {:induction false} WriteEnqueues(w: Write, db: Tables, id: string, job: JobRef)
    requires RunWrite(w, db, id).Ok?
    ensures job in RunWrite(w, db, id).value.jobs <==> job in db.jobs || Enqueues(w, job)
  {
    if w.Both? {
      WriteEnqueues(w.first, db, id, job);
      WriteEnqueues(w.second, RunWrite(w.first, db, id).value, id, job);
    }
  }

  predicate EnqueuedBy(log: seq<Entry>, job: JobRef) {
    exists i | 0 <= i < |log| :: Enqueues(log[i].w, job)
  }

  lemma EnqueuedByConcat(a: seq<Entry>, b: seq<Entry>, job: JobRef)
    ensures EnqueuedBy(a + b, job) <==> EnqueuedBy(a, job) || EnqueuedBy(b, job)
  {
    var all := a + b;
    assert forall i | 0 <= i < |a| :: all[i] == a[i];
    assert forall i | 0 <= i < |b| :: all[|a| + i] == b[i];
  }

  lemma StepEnqueues(s: World, step: Step, job: JobRef)
    ensures job in Next(s, step).db.jobs <==> job in s.db.jobs || EnqueuedBy(Logged(s, step), job)
  {
    if Logged(s, step) != [] {
      WriteEnqueues(step.w, s.db, NextReceiptId(s.db), job);
      assert Logged(s, step)[0].w == step.w;
    }
  }

  /** A job row exists exactly when it did at the start or some applied mutation enqueued it. */
  lemma {:induction false} JobsComeFromAppliedMutations(s: World, steps: seq<Step>, job: JobRef)
    ensures job in Run(s, steps).db.jobs <==> job in s.db.jobs || EnqueuedBy(AppliedLog(s, steps), job)
  {
    if steps != [] {
      var front, step := steps[..|steps| - 1], steps[|steps| - 1];
      JobsComeFromAppliedMutations(s, front, job);
      StepEnqueues(Run(s, front), step, job);
      EnqueuedByConcat(AppliedLog(s, front), Logged(Run(s, front), step), job);
    }
  }
}
