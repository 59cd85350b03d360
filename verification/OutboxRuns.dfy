/**
 Whole runs of the delivery protocol. A delivery claims a row, later reads the retry cycle and
 builds its key, and later still commits; any other transaction may commit between those steps,
 and a claim may be recorded late or more than once.
*/
module OutboxRuns {
  import opened Wrappers
  import opened Text
  import opened Schema
  import opened StoreCore
  import opened Outbox

  /** A claim some worker holds, with the retry cycle that was current when it was taken. */
  datatype Held = Held(claim: Claim, cycle: string)

  /** A delivery whose attempt key is built and whose transaction has not run yet. */
  datatype Recording = Recording(held: Held, outcome: AttemptOutcome, cycle: Option<string>, now: nat)

  datatype World = World(db: Tables, held: set<Held>, writing: set<Recording>)

  datatype Step =
    | Other(req: Request, w: Write)
    | NoteFailure(req: Request, errorClass: string, captured: Option<nat>)
    | ClaimJobs(jobs: set<JobRef>, leaseMs: nat, now: nat)
    | BeginRecord(held: Held, outcome: AttemptOutcome, now: nat)
    | CommitRecord(rec: Recording)
    | Retry(job: JobRef, actor: string, key: string, before: Option<string>, now: nat)

  function Cycle(db: Tables, job: JobRef): string {
    CycleText(RetryCycle(db, job))
  }

  function ClaimTx(db: Tables, jobs: set<JobRef>, leaseMs: nat, now: nat): Tables {
    db.(jobs := map j | j in db.jobs :: if j in jobs then Leased(db.jobs[j], now + leaseMs, now) else db.jobs[j])
  }

  function Next(s: World, step: Step): World {
    match step
    case Other(req, w) => s.(db := Outbox.Committed(s.db, MutateTx(s.db, req, w)))
    case NoteFailure(req, errorClass, captured) =>
      s.(db := Insert(s.db, req, Failed, Some(errorClass), captured, captured))
    case ClaimJobs(jobs, leaseMs, now) =>
      World(ClaimTx(s.db, jobs, leaseMs, now),
            s.held + set j | j in jobs && j in s.db.jobs :: Held(ClaimOf(j, s.db.jobs[j]), Cycle(s.db, j)),
            s.writing)
    case BeginRecord(held, outcome, now) =>
      s.(writing := s.writing + {Recording(held, outcome, RetryCycle(s.db, held.claim.job), now)})
    case CommitRecord(rec) =>
      s.(db := Outbox.Committed(s.db, RecordTx(s.db, rec.held.claim, rec.outcome, rec.cycle, rec.now)))
    case Retry(job, actor, key, before, now) =>
      s.(db := Outbox.Committed(s.db, RetryTx(s.db, job, actor, key, before, now)))
  }

  /** Only `record_attempt` and `retry_terminal_job` rewrite job rows. */
  predicate SliceWrite(w: Write) {
    match w
    case RecordRow(_, _, _, _, _, _, _) => false
    case ResetRow(_, _) => false
    case Both(first, second) => SliceWrite(first) && SliceWrite(second)
    case _ => true
  }

  predicate RequestsRetry(req: Request) {
    req.entity.kind == "outbox_job" && req.changeKind == RETRY_REQUESTED
  }

  /** What the code around the protocol guarantees: who writes jobs, and which keys are used. */
  predicate Enabled(s: World, step: Step) {
    match step
    case Other(req, w) => SliceWrite(w) && !IsAttemptKey(req.key) && !RequestsRetry(req)
    case NoteFailure(_, _, _) => true
    case ClaimJobs(jobs, _, now) => forall j | j in jobs :: j in s.db.jobs && Due(s.db.jobs[j], now)
    case BeginRecord(held, _, _) => held in s.held
    case CommitRecord(rec) => rec in s.writing
    case Retry(_, _, key, _, _) => !IsAttemptKey(key)
  }

  /** A claim is not ahead of its row, and behind it once the row is settled. */
  predicate NotAhead(db: Tables, claim: Claim) {
    claim.job in db.jobs ==>
      && claim.attempts <= db.jobs[claim.job].attempts
      && (!db.jobs[claim.job].status.Pending? ==> claim.attempts < db.jobs[claim.job].attempts)
  }

  /** When a record reads the retry cycle, its claim is not ahead of the row. */
  predicate InTurn(s: World, step: Step) {
    step.BeginRecord? ==> NotAhead(s.db, step.held.claim)
  }

  /** Is this a record or a retry of one of these jobs? */
  ghost predicate IsOf(step: Step, jobs: iset<JobRef>) {
    (step.BeginRecord? && step.held.claim.job in jobs) || (step.Retry? && step.job in jobs)
  }

  /** Operator retries of one job carry non-decreasing times, and receipt ids have twelve digits. */
  predicate Clocked(s: World, step: Step) {
    step.Retry? ==>
      && |s.db.receipts| + 1 < Pow10(12)
      && forall i | 0 <= i < |s.db.receipts|
        && Matches(OfChange(JobEntity(step.job), RETRY_REQUESTED), s.db.receipts[i]) ::
        s.db.receipts[i].createdAt <= step.now
  }

  function Run(s: World, steps: seq<Step>): World {
    if steps == [] then s else Next(Run(s, steps[..|steps| - 1]), steps[|steps| - 1])
  }

  /** A run the code can produce, with no assumption on how late records are. */
  predicate Legal(s: World, steps: seq<Step>) {
    steps != [] ==>
      && Legal(s, steps[..|steps| - 1])
      && Enabled(Run(s, steps[..|steps| - 1]), steps[|steps| - 1])
  }

  /**
   A legal run in which no record starts ahead of its row and the clock does not go back, but for records
   and retries of the `stray` jobs, which may come as they like.
  */
  ghost predicate TimelyBut(s: World, steps: seq<Step>, stray: iset<JobRef>) {
    steps != [] ==>
      var mid := Run(s, steps[..|steps| - 1]);
      var step := steps[|steps| - 1];
      && TimelyBut(s, steps[..|steps| - 1], stray)
      && Enabled(mid, step)
      && (IsOf(step, stray) || (InTurn(mid, step) && Clocked(mid, step)))
  }

  lemma {:induction false} TimelyIsLegal(s: World, steps: seq<Step>, stray: iset<JobRef>)
    requires TimelyBut(s, steps, stray)
    ensures Legal(s, steps)
  {
    if steps != [] {
      TimelyIsLegal(s, steps[..|steps| - 1], stray);
    }
  }

  // ------------------------------------------------------------------
  // Attempt keys in the receipt log

  predicate Done(db: Tables, job: JobRef, cycle: string, n: nat) {
    KeyApplied(db.receipts, job.client, AttemptKey(job.jobId, cycle, n))
  }

  ghost predicate KnownCycle(db: Tables, cycle: string) {
    cycle == "initial" || exists k: nat :: 1 <= k <= |db.receipts| && cycle == ReceiptId(k)
  }

  lemma KnownCycleLacksColon(db: Tables, cycle: string)
    requires KnownCycle(db, cycle)
    ensures Lacks(cycle, ':')
  {
    if cycle != "initial" {
      var k: nat :| 1 <= k <= |db.receipts| && cycle == ReceiptId(k);
      ReceiptIdLacksColon(k);
    }
  }

  lemma CycleIsKnown(db: Tables, job: JobRef)
    requires Dense(db.receipts)
    ensures KnownCycle(db, Cycle(db, job)) && Lacks(Cycle(db, job), ':')
  {
    var r := Newest(db.receipts, OfChange(JobEntity(job), RETRY_REQUESTED));
    if r.Some? {
      var i :| 0 <= i < |db.receipts| && db.receipts[i] == r.value;
      assert r.value.receiptId == ReceiptId(i + 1);
    }
    KnownCycleLacksColon(db, Cycle(db, job));
  }

  /** `after` is `before` with payloads possibly cleared and one receipt appended. */
  ghost predicate Appended(before: Tables, after: Tables, r: Receipt) {
    exists mid: seq<Receipt> :: SameButPayload(before.receipts, mid) && after.receipts == mid + [r]
  }

  lemma AppendedLookups(before: Tables, after: Tables, r: Receipt)
    requires Appended(before, after, r)
    ensures |after.receipts| == |before.receipts| + 1
    ensures forall client, key ::
      KeyApplied(after.receipts, client, key) <==> KeyApplied(before.receipts, client, key) || IsApplied(r, client, key)
    ensures forall job: JobRef | !Matches(OfChange(JobEntity(job), RETRY_REQUESTED), r) ::
      Cycle(after, job) == Cycle(before, job)
  {
    var mid: seq<Receipt> :| SameButPayload(before.receipts, mid) && after.receipts == mid + [r];
    PayloadIrrelevant(before.receipts, mid);
    forall client, key
      ensures KeyApplied(after.receipts, client, key) <==>
        KeyApplied(before.receipts, client, key) || IsApplied(r, client, key)
    {
      FindAppliedAppend(mid, r, client, key);
    }
    forall job: JobRef | !Matches(OfChange(JobEntity(job), RETRY_REQUESTED), r)
      ensures Cycle(after, job) == Cycle(before, job)
    {
      var q := OfChange(JobEntity(job), RETRY_REQUESTED);
      NewestStrip(before.receipts, mid, q);
      NewestAppend(mid, r, q);
    }
  }

  /** Any receipt that is not an applied attempt or an applied retry leaves keys and cycles alone. */
  lemma QuietAppend(before: Tables, after: Tables, r: Receipt)
    requires Appended(before, after, r)
    requires r.outcome.Applied? ==>
      !IsAttemptKey(r.key) && !(r.entity.kind == "outbox_job" && r.changeKind == RETRY_REQUESTED)
    ensures |after.receipts| == |before.receipts| + 1
    ensures forall job, cycle, n :: Done(after, job, cycle, n) <==> Done(before, job, cycle, n)
    ensures forall job :: Cycle(after, job) == Cycle(before, job)
  {
    AppendedLookups(before, after, r);
    forall job: JobRef, cycle, n ensures Done(after, job, cycle, n) <==> Done(before, job, cycle, n) {
      AttemptKeyPrefixed(job.jobId, cycle, n);
      assert !IsApplied(r, job.client, AttemptKey(job.jobId, cycle, n));
    }
  }

  function Last(t: Tables): Receipt
    requires |t.receipts| > 0
  {
    t.receipts[|t.receipts| - 1]
  }

  lemma AppliedAppends(db: Tables, req: Request, w: Write)
    requires Applies(db, req, w)
    ensures var t := MutateTx(db, req, w).db;
      |t.receipts| == |db.receipts| + 1 && Last(t).receiptId == ReceiptId(|db.receipts| + 1) && Appended(db, t, Last(t))
  {
    WriteKeeps(w, db, NextReceiptId(db));
    var written := RunWrite(w, db, NextReceiptId(db)).value;
    var t := MutateTx(db, req, w).db;
    assert t == Finish(written, req, Revision(db, req.entity)).db;
    assert t.receipts == written.receipts + [Last(t)];
  }

  lemma UnappliedAppends(db: Tables, req: Request, w: Write)
    requires MutateTx(db, req, w).Committed? && !Applies(db, req, w)
    ensures var t := MutateTx(db, req, w).db;
      |t.receipts| == |db.receipts| + 1 && Last(t).receiptId == ReceiptId(|db.receipts| + 1) && Appended(db, t, Last(t))
  {
    var t := MutateTx(db, req, w).db;
    assert SameButPayload(db.receipts, db.receipts);
    assert t.receipts == db.receipts + [Last(t)];
  }

  /** A receipt that records this request. */
  predicate Recalls(r: Receipt, req: Request) {
    r.key == req.key && r.entity == req.entity && r.changeKind == req.changeKind && r.createdAt == req.now
  }

  lemma AppliedFields(db: Tables, req: Request, w: Write)
    requires Applies(db, req, w)
    ensures var t := MutateTx(db, req, w).db;
      |t.receipts| > 0 && Recalls(Last(t), req) && Last(t).outcome.Applied?
  {
    var written := RunWrite(w, db, NextReceiptId(db)).value;
    assert MutateTx(db, req, w) == Finish(written, req, Revision(db, req.entity));
  }

  lemma UnappliedFields(db: Tables, req: Request, w: Write)
    requires MutateTx(db, req, w).Committed? && !Applies(db, req, w)
    ensures var t := MutateTx(db, req, w).db;
      |t.receipts| > 0 && Recalls(Last(t), req) && !Last(t).outcome.Applied?
  {
    OutcomeIff(db, req, w);
  }

  lemma CommitAppends(db: Tables, req: Request, w: Write) returns (t: Tables, r: Receipt)
    requires MutateTx(db, req, w).Committed?
    ensures t == MutateTx(db, req, w).db && Appended(db, t, r)
    ensures r.key == req.key && r.entity == req.entity && r.changeKind == req.changeKind && r.createdAt == req.now
    ensures r.receiptId == ReceiptId(|db.receipts| + 1)
    ensures r.outcome.Applied? <==> Applies(db, req, w)
  {
    if Applies(db, req, w) {
      AppliedFields(db, req, w);
      AppliedAppends(db, req, w);
    } else {
      UnappliedFields(db, req, w);
      UnappliedAppends(db, req, w);
    }
    t := MutateTx(db, req, w).db;
    r := Last(t);
  }

  lemma DenseSame(a: seq<Receipt>, b: seq<Receipt>)
    requires SameButPayload(a, b) && Dense(a)
    ensures Dense(b)
  {
    forall i | 0 <= i < |b| ensures b[i].receiptId == ReceiptId(i + 1) {
      assert Strip(a[i]) == Strip(b[i]);
    }
  }

  lemma AppendedDense(before: Tables, after: Tables, r: Receipt)
    requires Dense(before.receipts) && Appended(before, after, r) && r.receiptId == ReceiptId(|before.receipts| + 1)
    ensures Dense(after.receipts)
  {
    var mid: seq<Receipt> :| SameButPayload(before.receipts, mid) && after.receipts == mid + [r];
    DenseSame(before.receipts, mid);
  }

  /** Recording an attempt always commits, and rewrites its row exactly when its key is new. */
  lemma RecordRows(db: Tables, c: Claim, outcome: AttemptOutcome, cycle: Option<string>, now: nat)
    requires c.job in db.jobs
    ensures var tx := RecordTx(db, c, outcome, cycle, now);
      && tx.Committed?
      && (tx.outcome.AppliedAs? <==> !Done(db, c.job, CycleText(cycle), c.attempts + 1))
      && tx.db.jobs == if tx.outcome.AppliedAs? then
          db.jobs[c.job := Attempted(db.jobs[c.job], c.attempts + 1, outcome, now)] else db.jobs
  {
  }

  /** What recording an attempt does: it applies exactly when its key is new. */
  lemma RecordResult(db: Tables, c: Claim, outcome: AttemptOutcome, cycle: Option<string>, now: nat)
    returns (t: Tables, r: Receipt)
    requires c.job in db.jobs
    ensures RecordTx(db, c, outcome, cycle, now).Committed? && t == RecordTx(db, c, outcome, cycle, now).db
    ensures RecordTx(db, c, outcome, cycle, now).outcome.AppliedAs? <==> r.outcome.Applied?
    ensures Appended(db, t, r) && r.receiptId == ReceiptId(|db.receipts| + 1)
    ensures r.entity == JobEntity(c.job) && r.changeKind != RETRY_REQUESTED
    ensures r.key == AttemptKey(c.job.jobId, CycleText(cycle), c.attempts + 1)
    ensures r.outcome.Applied? <==> !Done(db, c.job, CycleText(cycle), c.attempts + 1)
    ensures t.jobs == if r.outcome.Applied? then
        db.jobs[c.job := Attempted(db.jobs[c.job], c.attempts + 1, outcome, now)] else db.jobs
  {
    RecordRows(db, c, outcome, cycle, now);
    t, r := CommitAppends(db, AttemptRequest(c, outcome, cycle, now), AttemptWrite(c, outcome, now));
  }

  /** What an operator retry does. */
  lemma RetryResult(db: Tables, job: JobRef, actor: string, key: string, before: Option<string>, now: nat)
    returns (t: Tables, r: Receipt)
    requires RetryTx(db, job, actor, key, before, now).Committed?
    ensures t == RetryTx(db, job, actor, key, before, now).db
    ensures Appended(db, t, r) && r.receiptId == ReceiptId(|db.receipts| + 1)
    ensures r.entity == JobEntity(job) && r.changeKind == RETRY_REQUESTED && r.key == key && r.createdAt == now
    ensures r.outcome.Applied? <==> !KeyApplied(db.receipts, job.client, key)
    ensures r.outcome.Applied? ==> job in db.jobs && db.jobs[job].status.FailedTerminal?
    ensures t.jobs == if r.outcome.Applied? then db.jobs[job := Reset(db.jobs[job], now)] else db.jobs
  {
    t, r := CommitAppends(db, RetryRequest(job, actor, key, before, now), ResetRow(job, now));
  }

  lemma {:induction false} SliceWriteKeepsJobs(w: Write, db: Tables, id: string)
    requires SliceWrite(w) && RunWrite(w, db, id).Ok?
    ensures var after := RunWrite(w, db, id).value;
      && (forall j | j in db.jobs :: j in after.jobs && after.jobs[j] == db.jobs[j])
      && (forall j | j in after.jobs && j !in db.jobs :: after.jobs[j].status.Pending? && after.jobs[j].attempts == 0)
  {
    if w.Both? {
      SliceWriteKeepsJobs(w.first, db, id);
      SliceWriteKeepsJobs(w.second, RunWrite(w.first, db, id).value, id);
    }
  }

  // ------------------------------------------------------------------
  // The invariant of timely runs

  /** A job in cycle c with `attempts` = a has exactly the keys c:1 .. c:a applied, unless it is a stray one. */
  ghost predicate ExactKeysBut(db: Tables, stray: iset<JobRef>) {
    forall job: JobRef, n: nat | job in db.jobs && job !in stray && n >= 1 ::
      Done(db, job, Cycle(db, job), n) <==> n <= db.jobs[job].attempts
  }

  ghost predicate ExactKeys(db: Tables) {
    ExactKeysBut(db, iset{})
  }

  /** No key of a cycle that has not started is applied. */
  ghost predicate FreshCycles(db: Tables) {
    forall job: JobRef, m: nat, n: nat | m > |db.receipts| :: !Done(db, job, ReceiptId(m), n)
  }

  /** Nothing has happened to a job that does not exist. */
  ghost predicate AbsentJobsQuiet(db: Tables) {
    forall job: JobRef | job !in db.jobs ::
      Cycle(db, job) == "initial" && forall n: nat :: !Done(db, job, "initial", n)
  }

  /** The job of a claim exists, and so does its cycle. */
  ghost predicate HeldKnown(db: Tables, h: Held) {
    h.claim.job in db.jobs && KnownCycle(db, h.cycle)
  }

  /** A claim is at or behind its row while its cycle lasts, and spent once the cycle is over. */
  ghost predicate HeldBehind(db: Tables, h: Held) {
    && HeldKnown(db, h)
    && (if h.cycle == Cycle(db, h.claim.job) then NotAhead(db, h.claim)
        else Done(db, h.claim.job, h.cycle, h.claim.attempts + 1))
  }

  ghost predicate HeldWell(db: Tables, h: Held, stray: iset<JobRef>) {
    HeldKnown(db, h) && (h.claim.job !in stray ==> HeldBehind(db, h))
  }

  /** The claim a delivery records, in the cycle it read. */
  function Reading(r: Recording): Held {
    Held(r.held.claim, CycleText(r.cycle))
  }

  /** The invariant, in which nothing is asked of the stray jobs but that they exist. */
  ghost predicate InvBut(s: World, stray: iset<JobRef>) {
    && Dense(s.db.receipts)
    && ExactKeysBut(s.db, stray)
    && FreshCycles(s.db)
    && AbsentJobsQuiet(s.db)
    && (forall h | h in s.held :: HeldWell(s.db, h, stray))
    && (forall r | r in s.writing :: r.held in s.held && HeldWell(s.db, Reading(r), stray))
  }

  ghost predicate Inv(s: World) {
    InvBut(s, iset{})
  }

  /** Steps that neither record nor retry: same keys and cycles, old rows kept, new rows fresh. */
  lemma QuietKeepsInv(s: World, db: Tables, stray: iset<JobRef>)
    requires InvBut(s, stray) && Dense(db.receipts) && |db.receipts| >= |s.db.receipts|
    requires forall job, cycle, n :: Done(db, job, cycle, n) <==> Done(s.db, job, cycle, n)
    requires forall job :: Cycle(db, job) == Cycle(s.db, job)
    requires forall j | j in s.db.jobs ::
      j in db.jobs && db.jobs[j].attempts == s.db.jobs[j].attempts && db.jobs[j].status == s.db.jobs[j].status
    requires forall j | j in db.jobs && j !in s.db.jobs :: db.jobs[j].status.Pending? && db.jobs[j].attempts == 0
    ensures InvBut(s.(db := db), stray)
  {
    forall h | HeldWell(s.db, h, stray) ensures HeldWell(db, h, stray) {
      KnownCycleGrows(s.db, db, h.cycle);
    }
    forall job: JobRef, n: nat | job in db.jobs && job !in stray && n >= 1
      ensures Done(db, job, Cycle(db, job), n) <==> n <= db.jobs[job].attempts
    {
      assert Done(db, job, Cycle(db, job), n) <==> Done(s.db, job, Cycle(s.db, job), n);
    }
  }

  lemma OtherKeepsInv(s: World, req: Request, w: Write, stray: iset<JobRef>)
    requires InvBut(s, stray) && Enabled(s, Other(req, w))
    ensures InvBut(Next(s, Other(req, w)), stray)
  {
    if MutateTx(s.db, req, w).Committed? {
      var t, r := CommitAppends(s.db, req, w);
      AppendedDense(s.db, t, r);
      QuietAppend(s.db, t, r);
      if Applies(s.db, req, w) {
        SliceWriteKeepsJobs(w, s.db, NextReceiptId(s.db));
      }
      QuietKeepsInv(s, t, stray);
    }
  }

  lemma NoteFailureKeepsInv(s: World, req: Request, errorClass: string, captured: Option<nat>, stray: iset<JobRef>)
    requires InvBut(s, stray)
    ensures InvBut(Next(s, NoteFailure(req, errorClass, captured)), stray)
  {
    var t := Insert(s.db, req, Failed, Some(errorClass), captured, captured);
    assert SameButPayload(s.db.receipts, s.db.receipts);
    assert t.receipts == s.db.receipts + [t.receipts[|s.db.receipts|]];
    QuietAppend(s.db, t, t.receipts[|s.db.receipts|]);
    QuietKeepsInv(s, t, stray);
  }

  lemma ClaimKeepsInv(s: World, jobs: set<JobRef>, leaseMs: nat, now: nat, stray: iset<JobRef>)
    requires InvBut(s, stray) && Enabled(s, ClaimJobs(jobs, leaseMs, now))
    ensures InvBut(Next(s, ClaimJobs(jobs, leaseMs, now)), stray)
  {
    var db := ClaimTx(s.db, jobs, leaseMs, now);
    assert forall job, cycle, n :: Done(db, job, cycle, n) <==> Done(s.db, job, cycle, n);
    assert forall job :: Cycle(db, job) == Cycle(s.db, job);
    QuietKeepsInv(s, db, stray);
    var t := Next(s, ClaimJobs(jobs, leaseMs, now));
    forall h | h in t.held ensures HeldWell(t.db, h, stray) {
      if h !in s.held {
        CycleIsKnown(s.db, h.claim.job);
        assert KnownCycle(t.db, h.cycle);
      } else {
        assert HeldWell(db, h, stray);
      }
    }
  }

  /** In a state with exact keys, a record replays unless it is the next attempt of the running cycle. */
  lemma RecordFreshness(s: World, rec: Recording, stray: iset<JobRef>)
    requires InvBut(s, stray) && rec in s.writing && rec.held.claim.job !in stray
    ensures var c := rec.held.claim;
      Done(s.db, c.job, CycleText(rec.cycle), c.attempts + 1)
      || (CycleText(rec.cycle) == Cycle(s.db, c.job) && c.attempts == s.db.jobs[c.job].attempts
          && s.db.jobs[c.job].status.Pending?)
  {
    assert HeldWell(s.db, Reading(rec), stray);
  }

  /** Keys after an attempt applied: exactly one more. */
  lemma DoneAfterAttempt(before: Tables, after: Tables, r: Receipt, job: JobRef, cycle: string, n: nat)
    requires Appended(before, after, r)
    requires r.outcome.Applied? && r.entity.client == job.client && r.key == AttemptKey(job.jobId, cycle, n)
    requires Lacks(cycle, ':') && r.changeKind != RETRY_REQUESTED
    ensures |after.receipts| == |before.receipts| + 1
    ensures forall j: JobRef, c: string, k: nat | Lacks(c, ':') ::
      Done(after, j, c, k) <==> Done(before, j, c, k) || (j == job && c == cycle && k == n)
    ensures forall j, c, k :: Done(before, j, c, k) ==> Done(after, j, c, k)
    ensures forall j :: Cycle(after, j) == Cycle(before, j)
  {
    AppendedLookups(before, after, r);
    forall j: JobRef, c: string, k: nat | Lacks(c, ':')
      ensures Done(after, j, c, k) <==> Done(before, j, c, k) || (j == job && c == cycle && k == n)
    {
      if IsApplied(r, j.client, AttemptKey(j.jobId, c, k)) {
        AttemptKeyInjective(j.jobId, c, k, job.jobId, cycle, n);
      }
    }
  }

  lemma CommitRecordKeepsInv(s: World, rec: Recording, stray: iset<JobRef>)
    requires InvBut(s, stray) && rec in s.writing
    ensures InvBut(Next(s, CommitRecord(rec)), stray)
  {
    assert HeldWell(s.db, rec.held, stray);
    var t, r := CommitRecordResult(s, rec);
    AppendedDense(s.db, t, r);
    CommittedRecordKeepsInv(s, rec, t, r, stray);
  }

  lemma CommitRecordResult(s: World, rec: Recording) returns (t: Tables, r: Receipt)
    requires rec.held.claim.job in s.db.jobs
    ensures Next(s, CommitRecord(rec)) == s.(db := t)
    ensures Appended(s.db, t, r) && r.receiptId == ReceiptId(|s.db.receipts| + 1)
    ensures var c := rec.held.claim;
      && r.entity == JobEntity(c.job) && r.changeKind != RETRY_REQUESTED
      && r.key == AttemptKey(c.job.jobId, CycleText(rec.cycle), c.attempts + 1)
      && (r.outcome.Applied? <==> !Done(s.db, c.job, CycleText(rec.cycle), c.attempts + 1))
      && t.jobs == if r.outcome.Applied? then
          s.db.jobs[c.job := Attempted(s.db.jobs[c.job], c.attempts + 1, rec.outcome, rec.now)] else s.db.jobs
  {
    t, r := RecordResult(s.db, rec.held.claim, rec.outcome, rec.cycle, rec.now);
  }

  lemma CommittedRecordKeepsInv(s: World, rec: Recording, t: Tables, r: Receipt, stray: iset<JobRef>)
    requires InvBut(s, stray) && rec in s.writing && Appended(s.db, t, r) && Dense(t.receipts)
    requires var c := rec.held.claim;
      && c.job in s.db.jobs
      && r.entity == JobEntity(c.job) && r.changeKind != RETRY_REQUESTED
      && r.key == AttemptKey(c.job.jobId, CycleText(rec.cycle), c.attempts + 1)
      && (r.outcome.Applied? <==> !Done(s.db, c.job, CycleText(rec.cycle), c.attempts + 1))
      && t.jobs == if r.outcome.Applied? then
          s.db.jobs[c.job := Attempted(s.db.jobs[c.job], c.attempts + 1, rec.outcome, rec.now)] else s.db.jobs
    ensures InvBut(s.(db := t), stray)
  {
    if r.outcome.Applied? {
      if rec.held.claim.job !in stray {
        RecordFreshness(s, rec, stray);
      }
      assert HeldWell(s.db, Reading(rec), stray);
      FreshRecordKeepsInv(s, rec, t, r, stray);
    } else {
      QuietAppend(s.db, t, r);
      QuietKeepsInv(s, t, stray);
    }
  }

  /** `t` is the state after `rec` applied, with receipt `r`. */
  ghost predicate AttemptApplied(s: World, rec: Recording, t: Tables, r: Receipt, stray: iset<JobRef>) {
    var c := rec.held.claim;
    && InvBut(s, stray) && rec in s.writing
    && c.job in s.db.jobs
    && KnownCycle(s.db, CycleText(rec.cycle))
    && (c.job !in stray ==> CycleText(rec.cycle) == Cycle(s.db, c.job) && c.attempts == s.db.jobs[c.job].attempts)
    && Appended(s.db, t, r) && Dense(t.receipts)
    && r.outcome.Applied? && r.entity == JobEntity(c.job) && r.changeKind != RETRY_REQUESTED
    && r.key == AttemptKey(c.job.jobId, CycleText(rec.cycle), c.attempts + 1)
    && t.jobs == s.db.jobs[c.job := Attempted(s.db.jobs[c.job], c.attempts + 1, rec.outcome, rec.now)]
  }

  lemma AttemptKeepsExactKeys(s: World, rec: Recording, t: Tables, r: Receipt, stray: iset<JobRef>)
    requires AttemptApplied(s, rec, t, r, stray)
    ensures ExactKeysBut(t, stray)
  {
    var c := rec.held.claim;
    KnownCycleLacksColon(s.db, CycleText(rec.cycle));
    DoneAfterAttempt(s.db, t, r, c.job, CycleText(rec.cycle), c.attempts + 1);
    forall job: JobRef, n: nat | job in t.jobs && job !in stray && n >= 1
      ensures Done(t, job, Cycle(t, job), n) <==> n <= t.jobs[job].attempts
    {
      CycleIsKnown(s.db, job);
      assert Done(s.db, job, Cycle(s.db, job), n) <==> n <= s.db.jobs[job].attempts;
    }
  }

  lemma AttemptKeepsFreshCycles(s: World, rec: Recording, t: Tables, r: Receipt, stray: iset<JobRef>)
    requires AttemptApplied(s, rec, t, r, stray)
    ensures FreshCycles(t)
  {
    var c := rec.held.claim;
    KnownCycleLacksColon(s.db, CycleText(rec.cycle));
    DoneAfterAttempt(s.db, t, r, c.job, CycleText(rec.cycle), c.attempts + 1);
    forall job: JobRef, m: nat, n: nat | m > |t.receipts|
      ensures !Done(t, job, ReceiptId(m), n)
    {
      ReceiptIdLacksColon(m);
      UnstartedCycle(s.db, CycleText(rec.cycle), m);
      assert !Done(s.db, job, ReceiptId(m), n);
    }
  }

  lemma AttemptKeepsAbsentJobsQuiet(s: World, rec: Recording, t: Tables, r: Receipt, stray: iset<JobRef>)
    requires AttemptApplied(s, rec, t, r, stray)
    ensures AbsentJobsQuiet(t)
  {
    var c := rec.held.claim;
    KnownCycleLacksColon(s.db, CycleText(rec.cycle));
    DoneAfterAttempt(s.db, t, r, c.job, CycleText(rec.cycle), c.attempts + 1);
    AbsentStayQuiet(s.db, t, c.job);
  }

  lemma AbsentStayQuiet(before: Tables, after: Tables, attempted: JobRef)
    requires AbsentJobsQuiet(before) && before.jobs.Keys == after.jobs.Keys && attempted in before.jobs
    requires forall j :: Cycle(after, j) == Cycle(before, j)
    requires forall j: JobRef, c: string, k: nat | Lacks(c, ':') && j != attempted :: Done(after, j, c, k) <==>
      Done(before, j, c, k)
    ensures AbsentJobsQuiet(after)
  {
    forall job: JobRef | job !in after.jobs
      ensures Cycle(after, job) == "initial" && forall n: nat :: !Done(after, job, "initial", n)
    {
      assert job !in before.jobs;
      assert Lacks("initial", ':');
    }
  }

  lemma AttemptRaises(s: World, rec: Recording, t: Tables, r: Receipt, stray: iset<JobRef>)
    requires AttemptApplied(s, rec, t, r, stray)
    ensures var job := rec.held.claim.job;
      && |s.db.receipts| <= |t.receipts| && s.db.jobs.Keys == t.jobs.Keys && job in s.db.jobs
      && (job !in stray ==> t.jobs[job].attempts == s.db.jobs[job].attempts + 1)
      && (forall j | j in s.db.jobs && j != job :: t.jobs[j] == s.db.jobs[j])
      && (forall j :: Cycle(t, j) == Cycle(s.db, j))
      && (forall j, c, k :: Done(s.db, j, c, k) ==> Done(t, j, c, k))
  {
    KnownCycleLacksColon(s.db, CycleText(rec.cycle));
    DoneAfterAttempt(s.db, t, r, rec.held.claim.job, CycleText(rec.cycle), rec.held.claim.attempts + 1);
  }

  /** A row may gain one attempt, which spends the claims that were level with it. */
  lemma HeldStaysBehind(before: Tables, after: Tables, h: Held, attempted: JobRef, stray: iset<JobRef>)
    requires HeldWell(before, h, stray) && |before.receipts| <= |after.receipts| && before.jobs.Keys == after.jobs.Keys
    requires forall j :: Cycle(after, j) == Cycle(before, j)
    requires forall j, c, k :: Done(before, j, c, k) ==> Done(after, j, c, k)
    requires forall j | j in before.jobs && j != attempted :: after.jobs[j] == before.jobs[j]
    requires attempted in before.jobs
    requires attempted !in stray ==> after.jobs[attempted].attempts == before.jobs[attempted].attempts + 1
    ensures HeldWell(after, h, stray)
  {
    KnownCycleGrows(before, after, h.cycle);
  }

  lemma AllHeldStayBehind(s: World, after: Tables, attempted: JobRef, stray: iset<JobRef>)
    requires |s.db.receipts| <= |after.receipts| && s.db.jobs.Keys == after.jobs.Keys
    requires forall j :: Cycle(after, j) == Cycle(s.db, j)
    requires forall j, c, k :: Done(s.db, j, c, k) ==> Done(after, j, c, k)
    requires forall j | j in s.db.jobs && j != attempted :: after.jobs[j] == s.db.jobs[j]
    requires attempted in s.db.jobs
    requires attempted !in stray ==> after.jobs[attempted].attempts == s.db.jobs[attempted].attempts + 1
    ensures forall h | HeldWell(s.db, h, stray) :: HeldWell(after, h, stray)
  {
    forall h | HeldWell(s.db, h, stray) ensures HeldWell(after, h, stray) {
      HeldStaysBehind(s.db, after, h, attempted, stray);
    }
  }

  lemma FreshRecordKeepsInv(s: World, rec: Recording, t: Tables, r: Receipt, stray: iset<JobRef>)
    requires AttemptApplied(s, rec, t, r, stray)
    ensures InvBut(s.(db := t), stray)
  {
    AttemptKeepsExactKeys(s, rec, t, r, stray);
    AttemptKeepsFreshCycles(s, rec, t, r, stray);
    AttemptKeepsAbsentJobsQuiet(s, rec, t, r, stray);
    AttemptRaises(s, rec, t, r, stray);
    AllHeldStayBehind(s, t, rec.held.claim.job, stray);
  }

  lemma KnownCycleGrows(before: Tables, after: Tables, cycle: string)
    requires KnownCycle(before, cycle) && |before.receipts| <= |after.receipts|
    ensures KnownCycle(after, cycle)
  {
  }

  lemma UnstartedCycle(db: Tables, cycle: string, m: nat)
    requires KnownCycle(db, cycle) && m > |db.receipts|
    ensures cycle != ReceiptId(m)
  {
    ReceiptIdLacksColon(m);
    if cycle != "initial" {
      var k: nat :| 1 <= k <= |db.receipts| && cycle == ReceiptId(k);
      if cycle == ReceiptId(m) {
        ReceiptIdInjective(k, m);
      }
    }
  }

  /** A receipt that is last in commit order and not older is the newest. */
  lemma LastReceiptIsNewest(rs: seq<Receipt>, r: Receipt, q: Lookup)
    requires Dense(rs) && |rs| + 1 < Pow10(12)
    requires Matches(q, r) && r.receiptId == ReceiptId(|rs| + 1)
    requires forall i | 0 <= i < |rs| && Matches(q, rs[i]) :: rs[i].createdAt <= r.createdAt
    ensures Newest(rs + [r], q) == Some(r)
  {
    NewestAppend(rs, r, q);
    var best := Newest(rs, q);
    if best.Some? {
      var i :| 0 <= i < |rs| && rs[i] == best.value;
      LaterIsNotOlder(rs, i, r);
    }
  }

  lemma LaterIsNotOlder(rs: seq<Receipt>, i: nat, r: Receipt)
    requires Dense(rs) && i < |rs| && |rs| + 1 < Pow10(12)
    requires r.receiptId == ReceiptId(|rs| + 1) && rs[i].createdAt <= r.createdAt
    ensures !Newer(rs[i], r)
  {
    assert rs[i].receiptId == ReceiptId(i + 1);
    ReceiptIdOrder(i + 1, |rs| + 1);
    LessAsymmetric(ReceiptId(i + 1), ReceiptId(|rs| + 1));
  }

  /** An applied retry opens the cycle named by its own receipt. */
  lemma RetryOpensCycle(db: Tables, after: Tables, r: Receipt, job: JobRef)
    requires Dense(db.receipts) && |db.receipts| + 1 < Pow10(12)
    requires Appended(db, after, r) && r.receiptId == ReceiptId(|db.receipts| + 1)
    requires Matches(OfChange(JobEntity(job), RETRY_REQUESTED), r)
    requires forall i | 0 <= i < |db.receipts| && Matches(OfChange(JobEntity(job), RETRY_REQUESTED), db.receipts[i]) ::
      db.receipts[i].createdAt <= r.createdAt
    ensures Cycle(after, job) == ReceiptId(|db.receipts| + 1)
  {
    var mid: seq<Receipt> :| SameButPayload(db.receipts, mid) && after.receipts == mid + [r];
    var q := OfChange(JobEntity(job), RETRY_REQUESTED);
    DenseSame(db.receipts, mid);
    forall i | 0 <= i < |mid| && Matches(q, mid[i]) ensures mid[i].createdAt <= r.createdAt {
      assert Strip(mid[i]) == Strip(db.receipts[i]);
      assert Matches(q, db.receipts[i]);
    }
    LastReceiptIsNewest(mid, r, q);
  }

  lemma ClockedRetryOpens(s: World, step: Step, after: Tables, r: Receipt)
    requires Dense(s.db.receipts) && step.Retry? && Clocked(s, step)
    requires Appended(s.db, after, r) && r.receiptId == ReceiptId(|s.db.receipts| + 1) && r.outcome.Applied?
    requires r.entity == JobEntity(step.job) && r.changeKind == RETRY_REQUESTED && r.createdAt == step.now
    ensures Cycle(after, step.job) == ReceiptId(|s.db.receipts| + 1)
  {
    hide Appended, Dense;
    RetryOpensCycle(s.db, after, r, step.job);
  }

  lemma RetryKeepsInv(s: World, job: JobRef, actor: string, key: string, before: Option<string>, now: nat,
                      stray: iset<JobRef>)
    requires InvBut(s, stray)
    requires Enabled(s, Retry(job, actor, key, before, now))
    requires job !in stray ==> Clocked(s, Retry(job, actor, key, before, now))
    ensures InvBut(Next(s, Retry(job, actor, key, before, now)), stray)
  {
    assert Dense(s.db.receipts);
    hide InvBut, Appended, MutateTx, Dense, Clocked;
    if RetryTx(s.db, job, actor, key, before, now).Committed? {
      var t, r := RetryResult(s.db, job, actor, key, before, now);
      if r.outcome.Applied? {
        if job !in stray {
          ClockedRetryOpens(s, Retry(job, actor, key, before, now), t, r);
        }
        AppendedDense(s.db, t, r);
        AppliedRetryKeepsInv(s, job, t, r, now, stray);
      } else {
        ReplayedKeepsInv(s, t, r, stray);
      }
    }
  }

  /** A commit that applied nothing. */
  lemma ReplayedKeepsInv(s: World, t: Tables, r: Receipt, stray: iset<JobRef>)
    requires InvBut(s, stray) && Appended(s.db, t, r) && r.receiptId == ReceiptId(|s.db.receipts| + 1)
    requires !r.outcome.Applied? && t.jobs == s.db.jobs
    ensures InvBut(s.(db := t), stray)
  {
    AppendedDense(s.db, t, r);
    QuietAppend(s.db, t, r);
    QuietKeepsInv(s, t, stray);
  }

  lemma AppliedRetryKeepsInv(s: World, job: JobRef, t: Tables, r: Receipt, now: nat, stray: iset<JobRef>)
    requires InvBut(s, stray) && job in s.db.jobs && s.db.jobs[job].status.FailedTerminal?
    requires Appended(s.db, t, r) && Dense(t.receipts)
    requires r.outcome.Applied? && r.entity == JobEntity(job) && !IsAttemptKey(r.key)
    requires t.jobs == s.db.jobs[job := Reset(s.db.jobs[job], now)]
    requires job !in stray ==> Cycle(t, job) == ReceiptId(|s.db.receipts| + 1)
    ensures InvBut(s.(db := t), stray)
  {
    AppendedLookups(s.db, t, r);
    forall j: JobRef, c, n ensures Done(t, j, c, n) <==> Done(s.db, j, c, n) {
      AttemptKeyPrefixed(j.jobId, c, n);
      assert !IsApplied(r, j.client, AttemptKey(j.jobId, c, n));
    }
    assert forall j: JobRef | j != job :: Cycle(t, j) == Cycle(s.db, j);
    forall j: JobRef, n: nat | j in t.jobs && j !in stray && n >= 1
      ensures Done(t, j, Cycle(t, j), n) <==> n <= t.jobs[j].attempts
    {
      assert j != job ==> (Done(s.db, j, Cycle(s.db, j), n) <==> n <= s.db.jobs[j].attempts);
    }
    forall h | HeldWell(s.db, h, stray) ensures HeldWell(t, h, stray) {
      KnownCycleGrows(s.db, t, h.cycle);
      if h.claim.job == job && job !in stray {
        UnstartedCycle(s.db, h.cycle, |s.db.receipts| + 1);
        assert Done(s.db, job, h.cycle, h.claim.attempts + 1);
      }
    }
  }

  lemma BeginKeepsInv(s: World, held: Held, outcome: AttemptOutcome, now: nat, stray: iset<JobRef>)
    requires InvBut(s, stray) && held in s.held && (held.claim.job in stray || NotAhead(s.db, held.claim))
    ensures InvBut(Next(s, BeginRecord(held, outcome, now)), stray)
  {
    assert HeldWell(s.db, held, stray);
    CycleIsKnown(s.db, held.claim.job);
    assert HeldWell(s.db, Held(held.claim, Cycle(s.db, held.claim.job)), stray);
  }

  /** A record that reads the cycle its claim was taken in is never ahead of its row. */
  lemma InCycleIsInTurn(s: World, held: Held, outcome: AttemptOutcome, now: nat, stray: iset<JobRef>)
    requires InvBut(s, stray) && held in s.held && held.claim.job !in stray && held.cycle == Cycle(s.db, held.claim.job)
    ensures InTurn(s, BeginRecord(held, outcome, now))
  {
    assert HeldBehind(s.db, held);
  }

  lemma StepKeepsInv(s: World, step: Step, stray: iset<JobRef>)
    requires InvBut(s, stray) && Enabled(s, step) && (IsOf(step, stray) || (InTurn(s, step) && Clocked(s, step)))
    ensures InvBut(Next(s, step), stray)
  {
    match step
    case Other(req, w) => OtherKeepsInv(s, req, w, stray);
    case NoteFailure(req, errorClass, captured) => NoteFailureKeepsInv(s, req, errorClass, captured, stray);
    case ClaimJobs(jobs, leaseMs, now) => ClaimKeepsInv(s, jobs, leaseMs, now, stray);
    case BeginRecord(held, outcome, now) => BeginKeepsInv(s, held, outcome, now, stray);
    case CommitRecord(rec) => CommitRecordKeepsInv(s, rec, stray);
    case Retry(job, actor, key, before, now) => RetryKeepsInv(s, job, actor, key, before, now, stray);
  }

  const START := World(EMPTY, {}, {})

  lemma StartInv(stray: iset<JobRef>)
    ensures InvBut(START, stray)
  {
  }

  lemma {:induction false} TimelyRunKeepsInv(s: World, steps: seq<Step>, stray: iset<JobRef>)
    requires InvBut(s, stray) && TimelyBut(s, steps, stray)
    ensures InvBut(Run(s, steps), stray)
  {
    if steps != [] {
      TimelyRunKeepsInv(s, steps[..|steps| - 1], stray);
      StepKeepsInv(Run(s, steps[..|steps| - 1]), steps[|steps| - 1], stray);
    }
  }

  // ------------------------------------------------------------------
  // Main results on timely runs

  /**
   After any run that is timely for a job, whatever claims, re-claims, late records and retries it
   interleaved, and whatever the stray jobs did, the job in cycle c with `attempts` = a has exactly the
   attempt keys c:1 .. c:a applied.
  */
  lemma AttemptKeysAreExact(steps: seq<Step>, job: JobRef, n: nat, stray: iset<JobRef>)
    requires TimelyBut(START, steps, stray) && job !in stray && job in Run(START, steps).db.jobs && n >= 1
    ensures var db := Run(START, steps).db;
      KeyApplied(db.receipts, job.client, AttemptKey(job.jobId, Cycle(db, job), n)) <==> n <= db.jobs[job].attempts
  {
    StartInv(stray);
    TimelyRunKeepsInv(START, steps, stray);
    var db := Run(START, steps).db;
    assert Done(db, job, Cycle(db, job), n) <==> n <= db.jobs[job].attempts;
  }

  /** A record changes the jobs exactly when it is the next attempt of the running cycle. */
  lemma RecordAppliesIffNextAttempt(s: World, rec: Recording, stray: iset<JobRef>)
    requires InvBut(s, stray) && rec in s.writing && rec.held.claim.job !in stray
    ensures var c := rec.held.claim;
      var next := Next(s, CommitRecord(rec)).db.jobs;
      && c.job in s.db.jobs
      && (if CycleText(rec.cycle) == Cycle(s.db, c.job) && c.attempts == s.db.jobs[c.job].attempts then
            next == s.db.jobs[c.job := Attempted(s.db.jobs[c.job], c.attempts + 1, rec.outcome, rec.now)]
          else next == s.db.jobs)
  {
    var c := rec.held.claim;
    assert HeldWell(s.db, rec.held, stray);
    var t, r := CommitRecordResult(s, rec);
    if r.outcome.Applied? {
      RecordFreshness(s, rec, stray);
    } else if CycleText(rec.cycle) == Cycle(s.db, c.job) {
      assert Done(s.db, c.job, Cycle(s.db, c.job), c.attempts + 1) <==> c.attempts + 1 <= s.db.jobs[c.job].attempts;
    }
  }

  lemma StepKeepsDone(s: World, step: Step, job: JobRef, cycle: string, n: nat, stray: iset<JobRef>)
    requires InvBut(s, stray) && Enabled(s, step) && Done(s.db, job, cycle, n)
    ensures Done(Next(s, step).db, job, cycle, n)
  {
    match step
    case Other(req, w) =>
      if MutateTx(s.db, req, w).Committed? {
        var t, r := CommitAppends(s.db, req, w);
        AppendedLookups(s.db, t, r);
      }
    case NoteFailure(req, errorClass, captured) =>
      FindAppliedAppend(s.db.receipts, Next(s, step).db.receipts[|s.db.receipts|], job.client,
                        AttemptKey(job.jobId, cycle, n));
    case ClaimJobs(_, _, _) =>
    case BeginRecord(_, _, _) =>
    case CommitRecord(rec) =>
      assert HeldWell(s.db, rec.held, stray);
      var t, r := CommitRecordResult(s, rec);
      AppendedLookups(s.db, t, r);
    case Retry(j, actor, key, before, now) =>
      if RetryTx(s.db, j, actor, key, before, now).Committed? {
        var t, r := RetryResult(s.db, j, actor, key, before, now);
        AppendedLookups(s.db, t, r);
      }
  }

  lemma {:induction false} RunKeepsDone(s: World, steps: seq<Step>, job: JobRef, cycle: string, n: nat,
                                        stray: iset<JobRef>)
    requires InvBut(s, stray) && TimelyBut(s, steps, stray) && Done(s.db, job, cycle, n)
    ensures Done(Run(s, steps).db, job, cycle, n)
  {
    if steps != [] {
      var front := steps[..|steps| - 1];
      RunKeepsDone(s, front, job, cycle, n, stray);
      TimelyRunKeepsInv(s, front, stray);
      StepKeepsDone(Run(s, front), steps[|steps| - 1], job, cycle, n, stray);
    }
  }

  lemma RecordMakesDone(s: World, rec: Recording, stray: iset<JobRef>)
    requires InvBut(s, stray) && rec in s.writing
    ensures Done(Next(s, CommitRecord(rec)).db, rec.held.claim.job, CycleText(rec.cycle), rec.held.claim.attempts + 1)
  {
    assert HeldWell(s.db, rec.held, stray);
    var t, r := CommitRecordResult(s, rec);
    AppendedLookups(s.db, t, r);
  }

  lemma RecordOfDoneIsQuiet(s: World, rec: Recording, stray: iset<JobRef>)
    requires InvBut(s, stray) && rec in s.writing
    requires Done(s.db, rec.held.claim.job, CycleText(rec.cycle), rec.held.claim.attempts + 1)
    ensures Next(s, CommitRecord(rec)).db.jobs == s.db.jobs
  {
    assert HeldWell(s.db, rec.held, stray);
    var t, r := CommitRecordResult(s, rec);
  }

  /**
   The first outcome stands: once an attempt of a cycle has been recorded, any later record of the
   same attempt, from an overlapping claim or a repeated delivery, leaves every job as it is.
  */
  lemma FirstOutcomeStands(s: World, first: Recording, steps: seq<Step>, again: Recording, stray: iset<JobRef>)
    requires InvBut(s, stray) && first in s.writing && TimelyBut(Next(s, CommitRecord(first)), steps, stray)
    requires again in Run(Next(s, CommitRecord(first)), steps).writing
    requires again.held.claim.job == first.held.claim.job && CycleText(again.cycle) == CycleText(first.cycle)
    requires again.held.claim.attempts == first.held.claim.attempts
    ensures var before := Run(Next(s, CommitRecord(first)), steps);
      Next(before, CommitRecord(again)).db.jobs == before.db.jobs
  {
    var mid := Next(s, CommitRecord(first));
    CommitRecordKeepsInv(s, first, stray);
    RecordMakesDone(s, first, stray);
    RunKeepsDone(mid, steps, first.held.claim.job, CycleText(first.cycle), first.held.claim.attempts + 1, stray);
    TimelyRunKeepsInv(mid, steps, stray);
    RecordOfDoneIsQuiet(Run(mid, steps), again, stray);
  }

  /** Does this step apply an operator retry of this job? */
  predicate AppliesRetry(s: World, step: Step, job: JobRef) {
    step.Retry? && step.job == job
    && Applies(s.db, RetryRequest(job, step.actor, step.key, step.before, step.now), ResetRow(job, step.now))
  }

  lemma CommitLeavesSettled(s: World, rec: Recording, job: JobRef, stray: iset<JobRef>)
    requires InvBut(s, stray) && rec in s.writing && job in s.db.jobs && !s.db.jobs[job].status.Pending?
      && job !in stray
    ensures var jobs := Next(s, CommitRecord(rec)).db.jobs;
      job in jobs && jobs[job] == s.db.jobs[job]
  {
    assert HeldWell(s.db, rec.held, stray);
    var t, r := CommitRecordResult(s, rec);
    if r.outcome.Applied? && rec.held.claim.job !in stray {
      RecordFreshness(s, rec, stray);
    }
  }

  /** A job that is not pending keeps its whole row, except for an applied retry of a terminal one. */
  lemma StepLeavesSettled(s: World, step: Step, job: JobRef, stray: iset<JobRef>)
    requires InvBut(s, stray) && Enabled(s, step) && job in s.db.jobs && !s.db.jobs[job].status.Pending?
    requires job !in stray
    ensures job in Next(s, step).db.jobs
    ensures Next(s, step).db.jobs[job] == s.db.jobs[job]
      || (s.db.jobs[job].status.FailedTerminal? && AppliesRetry(s, step, job))
  {
    match step
    case Other(req, w) =>
      if Applies(s.db, req, w) {
        SliceWriteKeepsJobs(w, s.db, NextReceiptId(s.db));
      }
    case NoteFailure(_, _, _) =>
    case ClaimJobs(_, _, _) =>
    case BeginRecord(_, _, _) =>
    case CommitRecord(rec) =>
      CommitLeavesSettled(s, rec, job, stray);
    case Retry(j, actor, key, before, now) =>
      RetryAppliesIff(s.db, j, actor, key, before, now);
  }

  /**
   `delivered` and `delivery_outcome_unknown` are final: the row never changes again, whatever the late
   jobs do.
  */
  lemma {:induction false} DeliveredIsFinal(s: World, steps: seq<Step>, job: JobRef, stray: iset<JobRef>)
    requires InvBut(s, stray) && TimelyBut(s, steps, stray) && job in s.db.jobs && job !in stray
    requires s.db.jobs[job].status.Delivered? || s.db.jobs[job].status.DeliveryOutcomeUnknown?
    ensures job in Run(s, steps).db.jobs && Run(s, steps).db.jobs[job] == s.db.jobs[job]
  {
    if steps != [] {
      var front := steps[..|steps| - 1];
      DeliveredIsFinal(s, front, job, stray);
      TimelyRunKeepsInv(s, front, stray);
      StepLeavesSettled(Run(s, front), steps[|steps| - 1], job, stray);
    }
  }

  /** Along the run, no operator retry of this job is applied. */
  predicate NeverRetried(s: World, steps: seq<Step>, job: JobRef) {
    steps != [] ==>
      && NeverRetried(s, steps[..|steps| - 1], job)
      && !AppliesRetry(Run(s, steps[..|steps| - 1]), steps[|steps| - 1], job)
  }

  /** `failed_terminal` is left only by an applied operator retry of that job. */
  lemma {:induction false} TerminalLeftOnlyByRetry(s: World, steps: seq<Step>, job: JobRef, stray: iset<JobRef>)
    requires InvBut(s, stray) && TimelyBut(s, steps, stray) && job in s.db.jobs && s.db.jobs[job].status.FailedTerminal?
    requires job !in stray && NeverRetried(s, steps, job)
    ensures job in Run(s, steps).db.jobs && Run(s, steps).db.jobs[job] == s.db.jobs[job]
  {
    if steps != [] {
      var front, step := steps[..|steps| - 1], steps[|steps| - 1];
      TerminalLeftOnlyByRetry(s, front, job, stray);
      TimelyRunKeepsInv(s, front, stray);
      StepLeavesSettled(Run(s, front), step, job, stray);
    }
  }
}
