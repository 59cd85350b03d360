/**
 What holds of the delivery protocol with no assumption on staleness or clocks: attempt budgets,
 the separation of claims, and exactly what a record that crosses a retry does.
*/
module OutboxBounds {
  import opened Wrappers
  import opened Text
  import opened Schema
  import opened StoreCore
  import opened Outbox
  import opened OutboxRuns

  // ------------------------------------------------------------------
  // Attempt budgets

  predicate IsAttempt(r: Receipt, job: JobRef) {
    r.outcome.Applied? && r.entity == JobEntity(job) && IsAttemptKey(r.key)
  }

  predicate IsRetry(r: Receipt, job: JobRef) {
    Matches(OfChange(JobEntity(job), RETRY_REQUESTED), r)
  }

  function AttemptCount(rs: seq<Receipt>, job: JobRef): nat {
    if rs == [] then 0
    else AttemptCount(rs[..|rs| - 1], job) + if IsAttempt(rs[|rs| - 1], job) then 1 else 0
  }

  function RetryCount(rs: seq<Receipt>, job: JobRef): nat {
    if rs == [] then 0
    else RetryCount(rs[..|rs| - 1], job) + if IsRetry(rs[|rs| - 1], job) then 1 else 0
  }

  function AttemptKeys(rs: seq<Receipt>, job: JobRef): set<string> {
    set i | 0 <= i < |rs| && IsAttempt(rs[i], job) :: rs[i].key
  }

  /** The cycles a job has had: the initial one and one per applied retry. */
  function Cycles(rs: seq<Receipt>, job: JobRef): set<string> {
    if rs == [] then {"initial"}
    else Cycles(rs[..|rs| - 1], job) + if IsRetry(rs[|rs| - 1], job) then {rs[|rs| - 1].receiptId} else {}
  }

  function Budget(cycles: set<string>, job: JobRef): set<string> {
    set c, n | c in cycles && 1 <= n <= MAX_ATTEMPTS :: AttemptKey(job.jobId, c, n)
  }

  lemma {:induction false} CyclesBounded(rs: seq<Receipt>, job: JobRef)
    ensures |Cycles(rs, job)| <= RetryCount(rs, job) + 1
  {
    if rs != [] {
      CyclesBounded(rs[..|rs| - 1], job);
      if IsRetry(rs[|rs| - 1], job) {
        var front, id := Cycles(rs[..|rs| - 1], job), rs[|rs| - 1].receiptId;
        assert front + {id} == if id in front then front else front + {id};
      }
    }
  }

  lemma {:induction false} CyclesContain(rs: seq<Receipt>, job: JobRef, i: nat)
    requires i < |rs| && IsRetry(rs[i], job)
    ensures rs[i].receiptId in Cycles(rs, job)
  {
    if i < |rs| - 1 {
      CyclesContain(rs[..|rs| - 1], job, i);
    }
  }

  lemma {:induction false} InitialIsACycle(rs: seq<Receipt>, job: JobRef)
    ensures "initial" in Cycles(rs, job)
  {
    if rs != [] {
      InitialIsACycle(rs[..|rs| - 1], job);
    }
  }

  lemma {:induction false} KeysOfOneCycle(c: string, job: JobRef, n: nat)
    ensures |set k | 1 <= k <= n :: AttemptKey(job.jobId, c, k)| <= n
  {
    var keys := set k | 1 <= k <= n :: AttemptKey(job.jobId, c, k);
    if n == 0 {
      assert keys == {};
    } else {
      KeysOfOneCycle(c, job, n - 1);
      var fewer := set k | 1 <= k <= n - 1 :: AttemptKey(job.jobId, c, k);
      assert keys == fewer + {AttemptKey(job.jobId, c, n)};
    }
  }

  lemma {:induction false} BudgetBounded(cycles: set<string>, job: JobRef)
    ensures |Budget(cycles, job)| <= MAX_ATTEMPTS * |cycles|
  {
    if cycles == {} {
      assert Budget(cycles, job) == {};
    } else {
      var c :| c in cycles;
      BudgetBounded(cycles - {c}, job);
      KeysOfOneCycle(c, job, MAX_ATTEMPTS);
      var own := set k | 1 <= k <= MAX_ATTEMPTS :: AttemptKey(job.jobId, c, k);
      assert Budget(cycles, job) <= Budget(cycles - {c}, job) + own;
      SubsetBounded(Budget(cycles, job), Budget(cycles - {c}, job) + own);
    }
  }

  lemma {:induction false} SubsetBounded<T>(a: set<T>, b: set<T>)
    requires a <= b
    ensures |a| <= |b|
  {
    if a != {} {
      var x :| x in a;
      SubsetBounded(a - {x}, b - {x});
    }
  }

  lemma AttemptKeysAppend(front: seq<Receipt>, last: Receipt, job: JobRef)
    ensures AttemptKeys(front + [last], job) ==
      AttemptKeys(front, job) + if IsAttempt(last, job) then {last.key} else {}
  {
    var rs := front + [last];
    assert forall i | 0 <= i < |front| :: rs[i] == front[i];
    assert rs[|front|] == last;
  }

  lemma {:induction false} AttemptsAreDistinctKeys(rs: seq<Receipt>, job: JobRef)
    requires UniqueKeys(rs)
    ensures AttemptCount(rs, job) == |AttemptKeys(rs, job)|
  {
    if rs == [] {
      assert AttemptKeys(rs, job) == {};
    } else {
      var front, last := rs[..|rs| - 1], rs[|rs| - 1];
      assert rs == front + [last];
      assert forall i, j | 0 <= i < j < |front| :: front[i] == rs[i] && front[j] == rs[j];
      AttemptsAreDistinctKeys(front, job);
      AttemptKeysAppend(front, last, job);
      if IsAttempt(last, job) {
        assert last.key !in AttemptKeys(front, job);
      }
    }
  }

  /** Every applied attempt used a key within the budget of a cycle the job has had. */
  ghost predicate KeysBudgeted(db: Tables) {
    forall job: JobRef, i | 0 <= i < |db.receipts| && IsAttempt(db.receipts[i], job) ::
      db.receipts[i].key in Budget(Cycles(db.receipts, job), job)
  }

  predicate RowsBudgeted(db: Tables) {
    forall j | j in db.jobs ::
      db.jobs[j].attempts <= MAX_ATTEMPTS && (db.jobs[j].status.Pending? ==> db.jobs[j].attempts < MAX_ATTEMPTS)
  }

  ghost predicate Budgeted(s: World) {
    && Dense(s.db.receipts) && UniqueKeys(s.db.receipts)
    && RowsBudgeted(s.db)
    && KeysBudgeted(s.db)
    && (forall h | h in s.held :: h.claim.attempts < MAX_ATTEMPTS)
    && (forall r | r in s.writing ::
          r.held in s.held && CycleText(r.cycle) in Cycles(s.db.receipts, r.held.claim.job))
  }

  lemma {:induction false} CyclesStrip(a: seq<Receipt>, b: seq<Receipt>, job: JobRef)
    requires SameButPayload(a, b)
    ensures Cycles(a, job) == Cycles(b, job)
  {
    if a != [] {
      assert Strip(a[|a| - 1]) == Strip(b[|b| - 1]);
      CyclesStrip(a[..|a| - 1], b[..|b| - 1], job);
    }
  }

  lemma CyclesAppended(before: Tables, after: Tables, r: Receipt, job: JobRef)
    requires Appended(before, after, r)
    ensures Cycles(after.receipts, job) == Cycles(before.receipts, job) + if IsRetry(r, job) then {r.receiptId} else {}
  {
    var mid: seq<Receipt> :| SameButPayload(before.receipts, mid) && after.receipts == mid + [r];
    CyclesStrip(before.receipts, mid, job);
    assert (mid + [r])[..|mid|] == mid;
  }

  lemma BudgetGrows(a: set<string>, b: set<string>, job: JobRef)
    requires a <= b
    ensures Budget(a, job) <= Budget(b, job)
  {
  }

  lemma AppendedKeepsKeysBudgeted(before: Tables, after: Tables, r: Receipt)
    requires Appended(before, after, r) && KeysBudgeted(before)
    requires forall job | IsAttempt(r, job) :: r.key in Budget(Cycles(before.receipts, job), job)
    ensures KeysBudgeted(after)
    ensures forall job :: Cycles(before.receipts, job) <= Cycles(after.receipts, job)
  {
    var mid: seq<Receipt> :| SameButPayload(before.receipts, mid) && after.receipts == mid + [r];
    assert forall i | 0 <= i < |mid| :: Strip(before.receipts[i]) == Strip(mid[i]);
    forall job ensures Cycles(before.receipts, job) <= Cycles(after.receipts, job) {
      CyclesAppended(before, after, r, job);
    }
    forall job: JobRef, i | 0 <= i < |after.receipts| && IsAttempt(after.receipts[i], job)
      ensures after.receipts[i].key in Budget(Cycles(after.receipts, job), job)
    {
      BudgetGrows(Cycles(before.receipts, job), Cycles(after.receipts, job), job);
      if i < |mid| {
        assert Strip(before.receipts[i]) == Strip(after.receipts[i]);
        assert IsAttempt(before.receipts[i], job);
      }
    }
  }

  lemma AppendedUnique(before: Tables, after: Tables, r: Receipt)
    requires Appended(before, after, r) && UniqueKeys(before.receipts)
    requires r.outcome.Applied? ==> !KeyApplied(before.receipts, r.entity.client, r.key)
    ensures UniqueKeys(after.receipts)
  {
    var mid: seq<Receipt> :| SameButPayload(before.receipts, mid) && after.receipts == mid + [r];
    PayloadIrrelevant(before.receipts, mid);
  }

  /** The receipt side of `Budgeted`, for one committed transaction. */
  lemma CommitKeepsLogBudgeted(db: Tables, req: Request, w: Write)
    requires Dense(db.receipts) && UniqueKeys(db.receipts) && KeysBudgeted(db)
    requires MutateTx(db, req, w).Committed?
    requires forall job | req.entity == JobEntity(job) && IsAttemptKey(req.key) ::
      req.key in Budget(Cycles(db.receipts, job), job)
    ensures var t := MutateTx(db, req, w).db;
      && Dense(t.receipts) && UniqueKeys(t.receipts) && KeysBudgeted(t)
      && (forall job :: Cycles(db.receipts, job) <= Cycles(t.receipts, job))
  {
    var t, r := CommitAppends(db, req, w);
    AppendedDense(db, t, r);
    AppendedUnique(db, t, r);
    AppendedKeepsKeysBudgeted(db, t, r);
  }

  lemma OtherKeepsBudget(s: World, req: Request, w: Write)
    requires Budgeted(s) && Enabled(s, Other(req, w))
    ensures Budgeted(Next(s, Other(req, w)))
  {
    if MutateTx(s.db, req, w).Committed? {
      CommitKeepsLogBudgeted(s.db, req, w);
      if Applies(s.db, req, w) {
        SliceWriteKeepsJobs(w, s.db, NextReceiptId(s.db));
      }
    }
  }

  lemma NoteFailureKeepsBudget(s: World, req: Request, errorClass: string, captured: Option<nat>)
    requires Budgeted(s)
    ensures Budgeted(Next(s, NoteFailure(req, errorClass, captured)))
  {
    var t := Insert(s.db, req, Failed, Some(errorClass), captured, captured);
    var r := t.receipts[|s.db.receipts|];
    assert SameButPayload(s.db.receipts, s.db.receipts) && t.receipts == s.db.receipts + [r];
    AppendedDense(s.db, t, r);
    AppendedUnique(s.db, t, r);
    AppendedKeepsKeysBudgeted(s.db, t, r);
  }

  lemma BeginKeepsBudget(s: World, held: Held, outcome: AttemptOutcome, now: nat)
    requires Budgeted(s) && held in s.held
    ensures Budgeted(Next(s, BeginRecord(held, outcome, now)))
  {
    var job := held.claim.job;
    var q := OfChange(JobEntity(job), RETRY_REQUESTED);
    InitialIsACycle(s.db.receipts, job);
    if Newest(s.db.receipts, q).Some? {
      var i :| 0 <= i < |s.db.receipts| && s.db.receipts[i] == Newest(s.db.receipts, q).value;
      CyclesContain(s.db.receipts, job, i);
    }
  }

  lemma AttemptInBudget(c: Claim, outcome: AttemptOutcome, cycle: Option<string>, now: nat, cycles: set<string>)
    requires CycleText(cycle) in cycles && c.attempts < MAX_ATTEMPTS
    ensures AttemptRequest(c, outcome, cycle, now).key in Budget(cycles, c.job)
  {
  }

  lemma RecordKeepsRows(db: Tables, c: Claim, outcome: AttemptOutcome, cycle: Option<string>, now: nat)
    requires RowsBudgeted(db) && c.attempts < MAX_ATTEMPTS
    ensures RecordTx(db, c, outcome, cycle, now).Committed? && RowsBudgeted(RecordTx(db, c, outcome, cycle, now).db)
  {
  }

  lemma CommitRecordKeepsBudget(s: World, rec: Recording)
    requires Budgeted(s) && rec in s.writing
    ensures Budgeted(Next(s, CommitRecord(rec)))
  {
    var c := rec.held.claim;
    assert rec.held in s.held;
    AttemptInBudget(c, rec.outcome, rec.cycle, rec.now, Cycles(s.db.receipts, c.job));
    RecordKeepsRows(s.db, c, rec.outcome, rec.cycle, rec.now);
    CommitKeepsLogBudgeted(s.db, AttemptRequest(c, rec.outcome, rec.cycle, rec.now),
                           AttemptWrite(c, rec.outcome, rec.now));
  }

  lemma RetryKeepsBudget(s: World, job: JobRef, actor: string, key: string, before: Option<string>, now: nat)
    requires Budgeted(s) && Enabled(s, Retry(job, actor, key, before, now))
    ensures Budgeted(Next(s, Retry(job, actor, key, before, now)))
  {
    if RetryTx(s.db, job, actor, key, before, now).Committed? {
      CommitKeepsLogBudgeted(s.db, RetryRequest(job, actor, key, before, now), ResetRow(job, now));
    }
  }

  lemma {:induction false} RunKeepsBudget(s: World, steps: seq<Step>)
    requires Budgeted(s) && Legal(s, steps)
    ensures Budgeted(Run(s, steps))
  {
    if steps != [] {
      RunKeepsBudget(s, steps[..|steps| - 1]);
      var mid := Run(s, steps[..|steps| - 1]);
      match steps[|steps| - 1]
      case Other(req, w) => OtherKeepsBudget(mid, req, w);
      case NoteFailure(req, errorClass, captured) => NoteFailureKeepsBudget(mid, req, errorClass, captured);
      case ClaimJobs(jobs, leaseMs, now) =>
      case BeginRecord(held, outcome, now) => BeginKeepsBudget(mid, held, outcome, now);
      case CommitRecord(rec) => CommitRecordKeepsBudget(mid, rec);
      case Retry(job, actor, key, before, now) => RetryKeepsBudget(mid, job, actor, key, before, now);
    }
  }

  /**
   In every interleaving a pending job has at most seven attempts and any job at most eight, and a
   job with r applied operator retries has at most 8 (r + 1) applied attempts.
  */
  lemma AttemptsAreBounded(steps: seq<Step>, job: JobRef)
    requires Legal(START, steps)
    ensures var db := Run(START, steps).db;
      && AttemptCount(db.receipts, job) <= MAX_ATTEMPTS * (RetryCount(db.receipts, job) + 1)
      && (job in db.jobs ==> db.jobs[job].attempts <= 8)
      && (job in db.jobs && db.jobs[job].status.Pending? ==> db.jobs[job].attempts <= 7)
  {
    RunKeepsBudget(START, steps);
    var rs := Run(START, steps).db.receipts;
    AttemptsAreDistinctKeys(rs, job);
    assert AttemptKeys(rs, job) <= Budget(Cycles(rs, job), job);
    SubsetBounded(AttemptKeys(rs, job), Budget(Cycles(rs, job), job));
    BudgetBounded(Cycles(rs, job), job);
    CyclesBounded(rs, job);
  }

  // ------------------------------------------------------------------
  // Claims are separated

  /** Does this step apply a record or an operator retry of the job, and so clear its lease? */
  predicate Releases(s: World, step: Step, job: JobRef) {
    match step
    case CommitRecord(rec) =>
      rec.held.claim.job == job
      && Applies(s.db, AttemptRequest(rec.held.claim, rec.outcome, rec.cycle, rec.now),
                 AttemptWrite(rec.held.claim, rec.outcome, rec.now))
    case Retry(_, _, _, _, _) => AppliesRetry(s, step, job)
    case _ => false
  }

  predicate NeverReleased(s: World, steps: seq<Step>, job: JobRef) {
    steps != [] ==>
      && NeverReleased(s, steps[..|steps| - 1], job)
      && !Releases(Run(s, steps[..|steps| - 1]), steps[|steps| - 1], job)
  }

  /** A lease that is set stays set and does not end earlier. */
  predicate NotEarlier(before: Option<nat>, after: Option<nat>) {
    before.Some? ==> after.Some? && before.value <= after.value
  }

  lemma StepKeepsLease(s: World, step: Step, job: JobRef)
    requires Enabled(s, step) && job in s.db.jobs && !Releases(s, step, job)
    ensures job in Next(s, step).db.jobs
    ensures NotEarlier(s.db.jobs[job].leasedUntil, Next(s, step).db.jobs[job].leasedUntil)
  {
    match step
    case Other(req, w) =>
      if Applies(s.db, req, w) {
        SliceWriteKeepsJobs(w, s.db, NextReceiptId(s.db));
      }
    case NoteFailure(_, _, _) =>
    case ClaimJobs(_, _, _) =>
    case BeginRecord(_, _, _) =>
    case CommitRecord(rec) =>
    case Retry(j, actor, key, before, now) =>
  }

  /** While no record or retry of the job applies, its lease never ends earlier, claims included. */
  lemma {:induction false} LeaseOnlyGrows(s: World, steps: seq<Step>, job: JobRef)
    requires Legal(s, steps) && job in s.db.jobs && NeverReleased(s, steps, job)
    ensures job in Run(s, steps).db.jobs
    ensures NotEarlier(s.db.jobs[job].leasedUntil, Run(s, steps).db.jobs[job].leasedUntil)
  {
    if steps != [] {
      var front, step := steps[..|steps| - 1], steps[|steps| - 1];
      LeaseOnlyGrows(s, front, job);
      StepKeepsLease(Run(s, front), step, job);
    }
  }

  /**
   Any two claims of one job, by whichever claim functions and with any other claims in between, are
   separated by the expiry of the first lease unless a record or retry of that job applied in between.
  */
  lemma ClaimsAreSeparated(s: World, jobs: set<JobRef>, leaseMs: nat, now: nat, steps: seq<Step>,
                           jobs': set<JobRef>, leaseMs': nat, now': nat, job: JobRef)
    requires Enabled(s, ClaimJobs(jobs, leaseMs, now)) && job in jobs && job in jobs'
    requires Legal(Next(s, ClaimJobs(jobs, leaseMs, now)), steps)
    requires Enabled(Run(Next(s, ClaimJobs(jobs, leaseMs, now)), steps), ClaimJobs(jobs', leaseMs', now'))
    requires NeverReleased(Next(s, ClaimJobs(jobs, leaseMs, now)), steps, job)
    ensures now + leaseMs <= now'
  {
    var taken := Next(s, ClaimJobs(jobs, leaseMs, now));
    assert taken.db.jobs[job].leasedUntil == Some(now + leaseMs);
    LeaseOnlyGrows(taken, steps, job);
  }

  // ------------------------------------------------------------------
  // Records that cross a retry

  /**
   With no assumption on how late it is, a record that reads today's cycle leaves its row alone
   exactly when its claim is behind the row, and keeps the keys exact exactly when it is not ahead.
  */
  lemma CrossingRecordExact(s: World, held: Held, outcome: AttemptOutcome, now: nat) returns (t: TxResult)
    requires Inv(s) && held in s.held
    ensures t == RecordTx(s.db, held.claim, outcome, RetryCycle(s.db, held.claim.job), now)
    ensures held.claim.job in s.db.jobs && t.Committed? && held.claim.job in t.db.jobs
    ensures t.outcome.AppliedAs? <==> s.db.jobs[held.claim.job].attempts <= held.claim.attempts
    ensures t.db.jobs[held.claim.job] == s.db.jobs[held.claim.job]
      <==> held.claim.attempts < s.db.jobs[held.claim.job].attempts
    ensures t.db.jobs[held.claim.job].attempts == s.db.jobs[held.claim.job].attempts
      <==> held.claim.attempts < s.db.jobs[held.claim.job].attempts
    ensures ExactKeys(t.db) <==> held.claim.attempts <= s.db.jobs[held.claim.job].attempts
  {
    var c := held.claim;
    assert HeldBehind(s.db, held);
    var db, r := RecordResult(s.db, c, outcome, RetryCycle(s.db, c.job), now);
    CrossedKeys(s, c, outcome, now, db, r);
    t := RecordTx(s.db, c, outcome, RetryCycle(s.db, c.job), now);
  }

  /**
   The assumption of the timely runs is the weakest possible: a record that begins and commits from
   here keeps the keys exact and leaves a settled row alone if and only if its claim is not ahead.
  */
  lemma InTurnIsExact(s: World, held: Held, outcome: AttemptOutcome, now: nat)
    requires Inv(s) && held in s.held
    ensures var rec := Recording(held, outcome, RetryCycle(s.db, held.claim.job), now);
      var job := held.claim.job;
      var after := Next(Next(s, BeginRecord(held, outcome, now)), CommitRecord(rec)).db;
      && job in s.db.jobs && job in after.jobs
      && (InTurn(s, BeginRecord(held, outcome, now))
          <==> ExactKeys(after) && (!s.db.jobs[job].status.Pending? ==> after.jobs[job] == s.db.jobs[job]))
  {
    var t := CrossingRecordExact(s, held, outcome, now);
  }

  lemma CrossedKeys(s: World, c: Claim, outcome: AttemptOutcome, now: nat, t: Tables, r: Receipt)
    requires Inv(s) && c.job in s.db.jobs && Appended(s.db, t, r)
    requires r.entity == JobEntity(c.job) && r.changeKind != RETRY_REQUESTED
    requires r.key == AttemptKey(c.job.jobId, Cycle(s.db, c.job), c.attempts + 1)
    requires r.outcome.Applied? <==> !Done(s.db, c.job, Cycle(s.db, c.job), c.attempts + 1)
    requires t.jobs == if r.outcome.Applied? then
        s.db.jobs[c.job := Attempted(s.db.jobs[c.job], c.attempts + 1, outcome, now)] else s.db.jobs
    ensures r.outcome.Applied? <==> s.db.jobs[c.job].attempts <= c.attempts
    ensures ExactKeys(t) <==> c.attempts <= s.db.jobs[c.job].attempts
  {
    var cycle, attempts := Cycle(s.db, c.job), s.db.jobs[c.job].attempts;
    CycleIsKnown(s.db, c.job);
    assert Done(s.db, c.job, cycle, c.attempts + 1) <==> c.attempts + 1 <= attempts;
    if !r.outcome.Applied? {
      QuietAppend(s.db, t, r);
      ExactKeysUnchanged(s.db, t);
    } else {
      DoneAfterAttempt(s.db, t, r, c.job, cycle, c.attempts + 1);
      if c.attempts == attempts {
        NextAttemptKeepsExactKeys(s, c, t, r, outcome, now);
      } else {
        assert Done(s.db, c.job, cycle, attempts + 1) <==> attempts + 1 <= attempts;
        assert !Done(t, c.job, Cycle(t, c.job), attempts + 1) && attempts + 1 <= t.jobs[c.job].attempts;
      }
    }
  }

  lemma ExactKeysUnchanged(before: Tables, after: Tables)
    requires ExactKeys(before) && after.jobs == before.jobs
    requires forall job, cycle, n :: Done(after, job, cycle, n) <==> Done(before, job, cycle, n)
    requires forall job :: Cycle(after, job) == Cycle(before, job)
    ensures ExactKeys(after)
  {
    forall job: JobRef, n: nat | job in after.jobs && n >= 1
      ensures Done(after, job, Cycle(after, job), n) <==> n <= after.jobs[job].attempts
    {
      assert Done(before, job, Cycle(before, job), n) <==> n <= before.jobs[job].attempts;
    }
  }

  lemma NextAttemptKeepsExactKeys(s: World, c: Claim, t: Tables, r: Receipt, outcome: AttemptOutcome, now: nat)
    requires Inv(s) && c.job in s.db.jobs && c.attempts == s.db.jobs[c.job].attempts
    requires t.jobs == s.db.jobs[c.job := Attempted(s.db.jobs[c.job], c.attempts + 1, outcome, now)]
    requires forall j: JobRef, k: string, n: nat | Lacks(k, ':') ::
      Done(t, j, k, n) <==> Done(s.db, j, k, n) || (j == c.job && k == Cycle(s.db, c.job) && n == c.attempts + 1)
    requires forall j :: Cycle(t, j) == Cycle(s.db, j)
    ensures ExactKeys(t)
  {
    forall job: JobRef, n: nat | job in t.jobs && n >= 1
      ensures Done(t, job, Cycle(t, job), n) <==> n <= t.jobs[job].attempts
    {
      CycleIsKnown(s.db, job);
      assert Done(s.db, job, Cycle(s.db, job), n) <==> n <= s.db.jobs[job].attempts;
    }
  }

  // ------------------------------------------------------------------
  // The in-cycle assumption is needed

  /** The two steps of a record that reads today's cycle and commits at once. */
  function Crossed(s: World, held: Held, outcome: AttemptOutcome, now: nat): World {
    Next(Next(s, BeginRecord(held, outcome, now)),
         CommitRecord(Recording(held, outcome, RetryCycle(s.db, held.claim.job), now)))
  }

  /** Whatever its claim, such a record leaves the invariant of every other job. */
  lemma CrossingIsLocal(s: World, held: Held, outcome: AttemptOutcome, now: nat)
    requires Inv(s) && held in s.held
    ensures InvBut(Crossed(s, held, outcome, now), iset{held.claim.job})
  {
    var stray := iset{held.claim.job};
    var begin := BeginRecord(held, outcome, now);
    var mid := Next(s, begin);
    StepKeepsInv(s, begin, stray);
    CommitRecordKeepsInv(mid, Recording(held, outcome, RetryCycle(s.db, held.claim.job), now), stray);
  }

  /**
   After a crossing record of one job, and whatever records and retries of that job follow, every other
   job keeps exact keys and its settled rows.
  */
  lemma OthersOutliveCrossing(s: World, held: Held, outcome: AttemptOutcome, now: nat, steps: seq<Step>,
                              job: JobRef, n: nat)
    requires Inv(s) && held in s.held && job != held.claim.job && n >= 1
    requires TimelyBut(Crossed(s, held, outcome, now), steps, iset{held.claim.job})
    ensures var db := Run(Crossed(s, held, outcome, now), steps).db;
      && (job in db.jobs ==> (Done(db, job, Cycle(db, job), n) <==> n <= db.jobs[job].attempts))
      && (job in s.db.jobs && (s.db.jobs[job].status.Delivered? || s.db.jobs[job].status.DeliveryOutcomeUnknown?) ==>
            job in db.jobs && db.jobs[job] == s.db.jobs[job])
  {
    var stray := iset{held.claim.job};
    var crossed := Crossed(s, held, outcome, now);
    CrossingIsLocal(s, held, outcome, now);
    CrossedRows(s, held, outcome, now, job);
    hide Crossed, InvBut;
    TimelyRunKeepsInv(crossed, steps, stray);
    ExactOfInv(Run(crossed, steps), stray, job, n);
    if job in s.db.jobs && (s.db.jobs[job].status.Delivered? || s.db.jobs[job].status.DeliveryOutcomeUnknown?) {
      DeliveredIsFinal(crossed, steps, job, stray);
    }
  }

  lemma CrossedRows(s: World, held: Held, outcome: AttemptOutcome, now: nat, job: JobRef)
    requires Inv(s) && held in s.held && job != held.claim.job
    ensures var jobs := Crossed(s, held, outcome, now).db.jobs;
      (job in jobs <==> job in s.db.jobs) && (job in jobs ==> jobs[job] == s.db.jobs[job])
  {
    assert HeldBehind(s.db, held);
    hide InvBut, HeldBehind, RecordTx;
    RecordRows(s.db, held.claim, outcome, RetryCycle(s.db, held.claim.job), now);
  }

  lemma ExactOfInv(s: World, stray: iset<JobRef>, job: JobRef, n: nat)
    requires InvBut(s, stray) && job !in stray && n >= 1
    ensures job in s.db.jobs ==> (Done(s.db, job, Cycle(s.db, job), n) <==> n <= s.db.jobs[job].attempts)
  {
  }

  /**
   Over whole runs in which the stray jobs are recorded and retried as late as they like: all attempts
   stay bounded, theirs too, and the keys of every other job are exact.
  */
  lemma StrayJobsStayBounded(steps: seq<Step>, stray: iset<JobRef>, job: JobRef, n: nat)
    requires TimelyBut(START, steps, stray) && n >= 1
    ensures var db := Run(START, steps).db;
      && AttemptCount(db.receipts, job) <= MAX_ATTEMPTS * (RetryCount(db.receipts, job) + 1)
      && (job in db.jobs ==> db.jobs[job].attempts <= 8)
      && (job in db.jobs && job !in stray ==>
            (KeyApplied(db.receipts, job.client, AttemptKey(job.jobId, Cycle(db, job), n)) <==>
             n <= db.jobs[job].attempts))
  {
    TimelyIsLegal(START, steps, stray);
    AttemptsAreBounded(steps, job);
    if job in Run(START, steps).db.jobs && job !in stray {
      AttemptKeysAreExact(steps, job, n, stray);
    }
  }

  /** Some legal run leads from one world to the other. */
  ghost predicate Reaches(a: World, b: World) {
    exists steps :: Legal(a, steps) && Run(a, steps) == b
  }

  lemma ReachesByStep(a: World, step: Step)
    requires Enabled(a, step)
    ensures Reaches(a, Next(a, step))
  {
    var steps := [step];
    assert steps[..|steps| - 1] == [];
    assert Legal(a, []) && Run(a, []) == a;
    assert Legal(a, steps);
    assert Run(a, steps) == Next(a, step);
  }

  lemma {:induction false} RunConcat(a: World, x: seq<Step>, y: seq<Step>)
    ensures Run(a, x + y) == Run(Run(a, x), y)
  {
    if y == [] {
      assert x + y == x;
    } else {
      assert (x + y)[..|x + y| - 1] == x + y[..|y| - 1];
      RunConcat(a, x, y[..|y| - 1]);
    }
  }

  lemma {:induction false} LegalConcat(a: World, x: seq<Step>, y: seq<Step>)
    requires Legal(a, x) && Legal(Run(a, x), y)
    ensures Legal(a, x + y)
  {
    if y == [] {
      assert x + y == x;
    } else {
      assert (x + y)[..|x + y| - 1] == x + y[..|y| - 1];
      RunConcat(a, x, y[..|y| - 1]);
      LegalConcat(a, x, y[..|y| - 1]);
    }
  }

  lemma ReachesTransitive(a: World, b: World, c: World)
    requires Reaches(a, b) && Reaches(b, c)
    ensures Reaches(a, c)
  {
    var x :| Legal(a, x) && Run(a, x) == b;
    var y :| Legal(b, y) && Run(b, y) == c;
    LegalConcat(a, x, y);
    RunConcat(a, x, y);
  }

  function LatestCreated(rs: seq<Receipt>): nat {
    if rs == [] then 0
    else
      var rest := LatestCreated(rs[..|rs| - 1]);
      if rs[|rs| - 1].createdAt > rest then rs[|rs| - 1].createdAt else rest
  }

  lemma {:induction false} LatestCreatedBounds(rs: seq<Receipt>)
    ensures forall i | 0 <= i < |rs| :: rs[i].createdAt <= LatestCreated(rs)
  {
    if rs != [] {
      LatestCreatedBounds(rs[..|rs| - 1]);
      assert forall i | 0 <= i < |rs| - 1 :: rs[i] == rs[..|rs| - 1][i];
    }
  }


  lemma ClaimOnce(a: World, job: JobRef, now: nat) returns (b: World, held: Held)
    requires Inv(a) && job in a.db.jobs && Due(a.db.jobs[job], now)
    ensures Reaches(a, b) && Inv(b) && b.db.receipts == a.db.receipts
    ensures job in b.db.jobs && b.db.jobs[job] == Leased(a.db.jobs[job], now + LEASE_MS, now)
    ensures held == Held(ClaimOf(job, a.db.jobs[job]), Cycle(a.db, job)) && b.held == a.held + {held}
  {
    hide InvBut, Reaches;
    var step := ClaimJobs({job}, LEASE_MS, now);
    ReachesByStep(a, step);
    StepKeepsInv(a, step, iset{});
    b, held := Next(a, step), Held(ClaimOf(job, a.db.jobs[job]), Cycle(a.db, job));
  }

  lemma ClaimAgain(a: World, job: JobRef, now: nat, held: Held) returns (b: World)
    requires Inv(a) && job in a.db.jobs && Due(a.db.jobs[job], now)
    requires held == Held(ClaimOf(job, a.db.jobs[job]), Cycle(a.db, job)) && held in a.held
    ensures Reaches(a, b) && Inv(b) && b.held == a.held && b.db.receipts == a.db.receipts
    ensures job in b.db.jobs && b.db.jobs[job] == Leased(a.db.jobs[job], now + LEASE_MS, now)
  {
    var step := ClaimJobs({job}, LEASE_MS, now);
    ReachesByStep(a, step);
    StepKeepsInv(a, step, iset{});
    b := Next(a, step);
  }

  /** One claim, and another when the lease of the first has run out: both hold the same snapshot. */
  lemma OverlappingClaims(a: World, job: JobRef, now: nat) returns (b: World, held: Held)
    requires Inv(a) && job in a.db.jobs && Due(a.db.jobs[job], now)
    ensures Reaches(a, b) && Inv(b)
    ensures b.db.receipts == a.db.receipts && job in b.db.jobs
    ensures b.db.jobs[job] == Leased(a.db.jobs[job], now + LEASE_MS + LEASE_MS, now + LEASE_MS)
    ensures held == Held(ClaimOf(job, a.db.jobs[job]), Cycle(a.db, job)) && b.held == a.held + {held}
  {
    hide InvBut, Reaches;
    var mid;
    mid, held := ClaimOnce(a, job, now);
    b := ClaimAgain(mid, job, now + LEASE_MS, held);
    ReachesTransitive(a, mid, b);
  }

  /** A worker records; the claim may be from an earlier cycle, the key uses today's. */
  lemma RecordNow(a: World, held: Held, outcome: AttemptOutcome, now: nat) returns (b: World)
    requires Inv(a) && held in a.held
    requires held.claim.job in a.db.jobs && a.db.jobs[held.claim.job].attempts <= held.claim.attempts
    ensures Reaches(a, b) && b.held == a.held && |b.db.receipts| == |a.db.receipts| + 1
    ensures held.claim.job in b.db.jobs
    ensures b.db.jobs[held.claim.job] == Attempted(a.db.jobs[held.claim.job], held.claim.attempts + 1, outcome, now)
    ensures held.cycle == Cycle(a.db, held.claim.job) ==> Inv(b)
    ensures forall client, key | !IsAttemptKey(key) ::
      KeyApplied(b.db.receipts, client, key) ==> KeyApplied(a.db.receipts, client, key)
  {
    var mid, rec := BeginNow(a, held, outcome, now);
    b := CommitNow(a, mid, held, outcome, now, rec);
    ReachesTransitive(a, mid, b);
  }

  lemma CommitNow(a: World, mid: World, held: Held, outcome: AttemptOutcome, now: nat, rec: Recording)
    returns (b: World)
    requires Inv(a) && mid.db == a.db && mid.held == a.held && rec in mid.writing
    requires held.claim.job in a.db.jobs && rec == Recording(held, outcome, RetryCycle(a.db, held.claim.job), now)
    requires a.db.jobs[held.claim.job].attempts <= held.claim.attempts
    ensures Reaches(mid, b) && b.held == a.held && |b.db.receipts| == |a.db.receipts| + 1
    ensures held.claim.job in b.db.jobs
    ensures b.db.jobs[held.claim.job] == Attempted(a.db.jobs[held.claim.job], held.claim.attempts + 1, outcome, now)
    ensures Inv(mid) ==> Inv(b)
    ensures forall client, key | !IsAttemptKey(key) ::
      KeyApplied(b.db.receipts, client, key) ==> KeyApplied(a.db.receipts, client, key)
  {
    b := Next(mid, CommitRecord(rec));
    ReachesByStep(mid, CommitRecord(rec));
    AheadIsNew(a, held.claim);
    RecordedNow(mid, rec, b);
    if Inv(mid) {
      CommitRecordKeepsInv(mid, rec, iset{});
    }
  }

  lemma BeginNow(a: World, held: Held, outcome: AttemptOutcome, now: nat) returns (mid: World, rec: Recording)
    requires Inv(a) && held in a.held
    ensures rec == Recording(held, outcome, RetryCycle(a.db, held.claim.job), now)
    ensures Reaches(a, mid) && mid.db == a.db && mid.held == a.held && rec in mid.writing
    ensures held.cycle == Cycle(a.db, held.claim.job) ==> Inv(mid)
  {
    rec := Recording(held, outcome, RetryCycle(a.db, held.claim.job), now);
    var begin := BeginRecord(held, outcome, now);
    mid := Next(a, begin);
    ReachesByStep(a, begin);
    if held.cycle == Cycle(a.db, held.claim.job) {
      StepKeepsInv(a, begin, iset{});
    }
  }

  /** A record whose key is new: the row it leaves, and the other keys it does not touch. */
  lemma NewKeyRecords(db: Tables, c: Claim, outcome: AttemptOutcome, cycle: Option<string>, now: nat)
    returns (t: Tables, r: Receipt)
    requires c.job in db.jobs && !Done(db, c.job, CycleText(cycle), c.attempts + 1)
    ensures RecordTx(db, c, outcome, cycle, now).Committed? && t == RecordTx(db, c, outcome, cycle, now).db
    ensures Appended(db, t, r) && IsAttemptKey(r.key)
    ensures c.job in t.jobs && t.jobs[c.job] == Attempted(db.jobs[c.job], c.attempts + 1, outcome, now)
  {
    t, r := RecordResult(db, c, outcome, cycle, now);
    AttemptKeyPrefixed(c.job.jobId, CycleText(cycle), c.attempts + 1);
  }

  lemma AheadIsNew(a: World, c: Claim)
    requires Inv(a) && c.job in a.db.jobs && a.db.jobs[c.job].attempts <= c.attempts
    ensures !Done(a.db, c.job, Cycle(a.db, c.job), c.attempts + 1)
  {
    assert Done(a.db, c.job, Cycle(a.db, c.job), c.attempts + 1) <==> c.attempts + 1 <= a.db.jobs[c.job].attempts;
  }

  lemma RecordedNow(mid: World, rec: Recording, b: World)
    requires b == Next(mid, CommitRecord(rec)) && rec.held.claim.job in mid.db.jobs
    requires !Done(mid.db, rec.held.claim.job, CycleText(rec.cycle), rec.held.claim.attempts + 1)
    ensures |b.db.receipts| == |mid.db.receipts| + 1
    ensures var c := rec.held.claim;
      c.job in b.db.jobs && b.db.jobs[c.job] == Attempted(mid.db.jobs[c.job], c.attempts + 1, rec.outcome, rec.now)
    ensures forall client, key | !IsAttemptKey(key) ::
      KeyApplied(b.db.receipts, client, key) ==> KeyApplied(mid.db.receipts, client, key)
  {
    var t, r := NewKeyRecords(mid.db, rec.held.claim, rec.outcome, rec.cycle, rec.now);
    AppendedLookups(mid.db, t, r);
  }

  /** An operator retry of a terminally failed job, under a fresh key and a late enough clock. */
  lemma RetryNow(a: World, job: JobRef, key: string) returns (b: World, now: nat)
    requires Inv(a) && job in a.db.jobs && a.db.jobs[job].status.FailedTerminal?
    requires !IsAttemptKey(key) && !KeyApplied(a.db.receipts, job.client, key)
    requires |a.db.receipts| + 1 < Pow10(12)
    ensures Reaches(a, b) && Inv(b) && b.held == a.held
    ensures b.db.jobs == a.db.jobs[job := Reset(a.db.jobs[job], now)]
  {
    now := LatestCreated(a.db.receipts);
    LatestCreatedBounds(a.db.receipts);
    var step := Retry(job, "operator", key, None, now);
    ReachesByStep(a, step);
    RetryKeepsInv(a, job, "operator", key, None, now, iset{});
    RetryAppliesIff(a.db, job, "operator", key, None, now);
    var t, r := RetryResult(a.db, job, "operator", key, None, now);
    b := Next(a, step);
  }

  /** Two overlapping workers, one of which records. */
  lemma OverlappedDelivery(a: World, job: JobRef, outcome: AttemptOutcome, now: nat)
    returns (b: World, held: Held, leased: Job)
    requires Inv(a) && job in a.db.jobs && Due(a.db.jobs[job], now)
    ensures Reaches(a, b) && Inv(b) && a.held <= b.held && held in b.held
    ensures held.claim.job == job && held.claim.attempts == a.db.jobs[job].attempts
    ensures leased.nextAttemptAt == a.db.jobs[job].nextAttemptAt
    ensures job in b.db.jobs && b.db.jobs[job] == Attempted(leased, a.db.jobs[job].attempts + 1, outcome, now)
    ensures |b.db.receipts| == |a.db.receipts| + 1
    ensures forall client, key | !IsAttemptKey(key) ::
      KeyApplied(b.db.receipts, client, key) ==> KeyApplied(a.db.receipts, client, key)
  {
    var mid, h := OverlappingClaims(a, job, now);
    held := h;
    b := RecordNow(mid, held, outcome, now);
    ReachesTransitive(a, mid, b);
    leased := mid.db.jobs[job];
  }

  /** A transient failure, then a terminal one that leaves an overlapping claim unrecorded. */
  lemma FailWithClaimLeftOver(a: World, job: JobRef, now: nat) returns (b: World, slow: Held)
    requires Inv(a) && job in a.db.jobs && a.db.jobs[job].attempts == 0 && Due(a.db.jobs[job], now)
    ensures Reaches(a, b) && Inv(b) && job in b.db.jobs && b.db.jobs[job].status.FailedTerminal?
    ensures slow in b.held && slow.claim.job == job && slow.claim.attempts == 1
    ensures |b.db.receipts| == |a.db.receipts| + 2
    ensures forall client, key | !IsAttemptKey(key) ::
      KeyApplied(b.db.receipts, client, key) ==> KeyApplied(a.db.receipts, client, key)
  {
    var mid, first, _ := OverlappedDelivery(a, job, RetryAt("transient", now), now);
    var failed, second, _ := OverlappedDelivery(mid, job, TerminalWith("rejected", None), now);
    b, slow := failed, second;
    ReachesTransitive(a, mid, b);
  }

  /**
   From any pending, due job there is a legal run that delivers it and afterwards makes it pending
   again: of two overlapping claims one is recorded only after an operator retry has opened a new
   cycle. So finality needs records to stay in the cycle of their claim.
  */
  lemma DeliveredCanBeUndone(s: World, job: JobRef, key: string, now: nat) returns (delivered: World, undone: World)
    requires Inv(s) && job in s.db.jobs && s.db.jobs[job].attempts == 0 && Due(s.db.jobs[job], now)
    requires |s.db.receipts| + 3 < Pow10(12)
    requires !IsAttemptKey(key) && !KeyApplied(s.db.receipts, job.client, key)
    ensures Reaches(s, delivered) && job in delivered.db.jobs && delivered.db.jobs[job].status.Delivered?
    ensures Reaches(delivered, undone) && job in undone.db.jobs && undone.db.jobs[job].status.Pending?
  {
    var failed, slow := FailWithClaimLeftOver(s, job, now);
    var retried, later := RetryNow(failed, job, key);
    ReachesTransitive(s, failed, retried);
    var done, again, _ := OverlappedDelivery(retried, job, DeliveredWith("sent"), later);
    delivered := done;
    ReachesTransitive(s, retried, delivered);
    undone := RecordNow(delivered, slow, RetryAt("transient", later), later);
  }
}
