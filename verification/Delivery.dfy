/**
 The outbox operations over an open database: the leasing loop, the recording of an attempt, the
 operator retry, and the delivery cycle that claims a batch and records each outcome.
*/
module Delivery {
  import opened Wrappers
  import opened Text
  import opened Schema
  import opened StoreCore
  import opened Outbox
  import opened Database
  import opened Selection
  import OutboxRuns
  import opened OutboxBounds

  predicate Claimable(t: Tables, client: string, provider: Option<string>, now: nat, id: string) {
    var job := JobRef(client, id);
    && job in t.jobs
    && (provider.Some? ==> t.jobs[job].order.provider == provider.value)
    && Due(t.jobs[job], now)
  }

  /** The sort keys of the rows a claim may take. */
  function DueKeys(t: Tables, client: string, provider: Option<string>, now: nat): set<SortKey> {
    set job | job in t.jobs && job.client == client && Claimable(t, client, provider, now, job.jobId)
      :: SortKey(t.jobs[job].nextAttemptAt, job.jobId)
  }

  lemma DueKeyNames(t: Tables, client: string, provider: Option<string>, now: nat, k: SortKey)
    ensures k in DueKeys(t, client, provider, now)
      <==> Claimable(t, client, provider, now, k.id) && t.jobs[JobRef(client, k.id)].nextAttemptAt == k.at
  {
    if Claimable(t, client, provider, now, k.id) && t.jobs[JobRef(client, k.id)].nextAttemptAt == k.at {
      var job := JobRef(client, k.id);
      assert job in t.jobs && job.client == client && Claimable(t, client, provider, now, job.jobId);
    }
  }

  function ClaimedJobs(claims: seq<Claim>): set<JobRef> {
    set i | 0 <= i < |claims| :: claims[i].job
  }

  function KeysOf(t: Tables, claims: seq<Claim>): seq<SortKey>
    requires forall c | c in claims :: c.job in t.jobs
  {
    seq(|claims|, i requires 0 <= i < |claims| => SortKey(t.jobs[claims[i].job].nextAttemptAt, claims[i].job.jobId))
  }

  /** These claims are snapshots of due rows of one client, taken in query order. */
  ghost predicate AreClaims(t: Tables, claims: seq<Claim>, client: string, provider: Option<string>, limit: nat,
                            now: nat) {
    && (forall c | c in claims :: c.job in t.jobs && c.job.client == client && Due(t.jobs[c.job], now)
                                   && c == ClaimOf(c.job, t.jobs[c.job]))
    && (forall i, j | 0 <= i < j < |claims| :: claims[i].job != claims[j].job)
    && IsFirst(KeysOf(t, claims), DueKeys(t, client, provider, now), limit)
  }

  method ReadClaims(db: Store, client: string, provider: Option<string>, limit: nat, now: nat)
    returns (claims: seq<Claim>)
    ensures AreClaims(db.State(), claims, client, provider, limit, now)
  {
    ghost var t := db.State();
    var keys := First(DueKeys(db.State(), client, provider, now), limit);
    claims := [];
    var i := 0;
    while i < |keys|
      invariant 0 <= i <= |keys| && |claims| == i
      invariant forall k | 0 <= k < i :: claims[k].job == JobRef(client, keys[k].id) && claims[k].job in t.jobs
      invariant forall k | 0 <= k < i :: claims[k] == ClaimOf(claims[k].job, t.jobs[claims[k].job])
      invariant forall k | 0 <= k < i :: Due(t.jobs[claims[k].job], now)
      invariant forall k | 0 <= k < i :: SortKey(t.jobs[claims[k].job].nextAttemptAt, claims[k].job.jobId) == keys[k]
    {
      DueKeyNames(t, client, provider, now, keys[i]);
      var job := JobRef(client, keys[i].id);
      claims := claims + [ClaimOf(job, db.jobs[job])];
      i := i + 1;
    }
    forall i, j | 0 <= i < j < |claims| ensures claims[i].job != claims[j].job {
      BeforeTotal(keys[i], keys[j]);
    }
    assert KeysOf(t, claims) == keys;
  }

  /**
   Claim up to `limit` due jobs: exactly the first ones in (next_attempt_at, job_id) order, and the
   lease is set on exactly those rows.
  */
  method ClaimDueJobs(db: Store, client: string, provider: Option<string>, leaseMs: nat, limit: nat, now: nat)
    returns (claims: seq<Claim>)
    modifies db
    ensures AreClaims(old(db.State()), claims, client, provider, limit, now)
    ensures db.State() == OutboxRuns.ClaimTx(old(db.State()), ClaimedJobs(claims), leaseMs, now)
  {
    claims := ReadClaims(db, client, provider, limit, now);
    ghost var t := db.State();
    var i := 0;
    while i < |claims|
      invariant 0 <= i <= |claims|
      invariant db.State() == OutboxRuns.ClaimTx(t, ClaimedJobs(claims[..i]), leaseMs, now)
    {
      var job := claims[i].job;
      assert job in t.jobs && claims[i] in claims;
      assert job !in ClaimedJobs(claims[..i]);
      assert claims[..i + 1] == claims[..i] + [claims[i]];
      assert ClaimedJobs(claims[..i + 1]) == ClaimedJobs(claims[..i]) + {job};
      db.jobs := db.jobs[job := Leased(db.jobs[job], now + leaseMs, now)];
      i := i + 1;
    }
    assert claims[..i] == claims;
  }

  method ClaimDueJobById(db: Store, client: string, id: string, leaseMs: nat, now: nat) returns (claim: Option<Claim>)
    modifies db
    ensures var t := old(db.State());
      var job := JobRef(client, id);
      if Claimable(t, client, None, now, id) then
        && claim == Some(ClaimOf(job, t.jobs[job]))
        && db.State() == OutboxRuns.ClaimTx(t, {job}, leaseMs, now)
      else claim.None? && db.State() == t
  {
    var job := JobRef(client, id);
    claim := None;
    if job in db.jobs && Due(db.jobs[job], now) {
      claim := Some(ClaimOf(job, db.jobs[job]));
      db.jobs := db.jobs[job := Leased(db.jobs[job], now + leaseMs, now)];
    }
  }

  /** The status returned is the outcome's own, even when the mutation was a replay. */
  method RecordAttempt(db: Store, claim: Claim, outcome: AttemptOutcome, now: nat)
    returns (r: Result<JobStatus, StoreError>)
    modifies db
    ensures var t := RecordTx(old(db.State()), claim, outcome, RetryCycle(old(db.State()), claim.job), now);
      t.Committed? && db.State() == t.db
    ensures r == Ok(Judge(claim.attempts + 1, outcome).status)
  {
    var cycle := RetryCycle(db.State(), claim.job);
    var done := db.Mutate(AttemptRequest(claim, outcome, cycle, now), AttemptWrite(claim, outcome, now));
    r := Ok(Judge(claim.attempts + 1, outcome).status);
  }

  /** Exactly when that status is the row's: the record applied, or the row had that status already. */
  lemma ReturnedStatusIsTheRowsIff(t: Tables, claim: Claim, outcome: AttemptOutcome, cycle: Option<string>, now: nat)
    requires claim.job in t.jobs
    ensures var after := RecordTx(t, claim, outcome, cycle, now).db;
      var returned := Judge(claim.attempts + 1, outcome).status;
      && claim.job in after.jobs
      && (after.jobs[claim.job].status == returned <==>
          !OutboxRuns.Done(t, claim.job, CycleText(cycle), claim.attempts + 1) || t.jobs[claim.job].status == returned)
  {
    OutboxRuns.RecordRows(t, claim, outcome, cycle, now);
  }

  /**
   In runs that are timely for the job, that is: exactly the next attempt of the running cycle, or
   the status it had.
  */
  lemma ReturnedStatusInRuns(s: OutboxRuns.World, rec: OutboxRuns.Recording, stray: iset<JobRef>)
    requires OutboxRuns.InvBut(s, stray) && rec in s.writing && rec.held.claim.job !in stray
    ensures var c := rec.held.claim;
      var after := OutboxRuns.Next(s, OutboxRuns.CommitRecord(rec)).db;
      var returned := Judge(c.attempts + 1, rec.outcome).status;
      && c.job in s.db.jobs && c.job in after.jobs
      && (after.jobs[c.job].status == returned <==>
          || (CycleText(rec.cycle) == OutboxRuns.Cycle(s.db, c.job) && c.attempts == s.db.jobs[c.job].attempts)
          || s.db.jobs[c.job].status == returned)
  {
    hide OutboxRuns.InvBut, OutboxRuns.Next;
    OutboxRuns.RecordAppliesIffNextAttempt(s, rec, stray);
  }

  /** It fails when a claim is recorded twice: the row stays delivered, and the second caller is told pending. */
  lemma SecondRecordMisreports(t: Tables, claim: Claim, cycle: Option<string>, result: string, error: string, at: nat,
                               now: nat, later: nat)
    returns (once: Tables, twice: Tables)
    requires claim.job in t.jobs && claim.attempts + 1 < MAX_ATTEMPTS
    requires !OutboxRuns.Done(t, claim.job, CycleText(cycle), claim.attempts + 1)
    ensures once == RecordTx(t, claim, DeliveredWith(result), cycle, now).db
    ensures twice == RecordTx(once, claim, RetryAt(error, at), cycle, later).db
    ensures claim.job in twice.jobs && twice.jobs[claim.job].status.Delivered?
    ensures Judge(claim.attempts + 1, RetryAt(error, at)).status.Pending?
  {
    var r;
    once, r := OutboxRuns.RecordResult(t, claim, DeliveredWith(result), cycle, now);
    OutboxRuns.AppendedLookups(t, once, r);
    twice := RecordTx(once, claim, RetryAt(error, at), cycle, later).db;
    OutboxRuns.RecordRows(once, claim, RetryAt(error, at), cycle, later);
  }

  function JobSummary(t: Tables, job: JobRef): Option<string> {
    if job in t.jobs then Some(StatusText(t.jobs[job].status) + " " + Digits(t.jobs[job].attempts)) else None
  }

  method RetryTerminalJob(db: Store, job: JobRef, actor: string, key: string, now: nat)
    returns (r: Result<MutationOutcome, StoreError>)
    modifies db
    ensures var t := old(db.State());
      var tx := RetryTx(t, job, actor, key, JobSummary(t, job), now);
      if tx.Committed? then r == Ok(tx.outcome) && db.State() == tx.db
      else
        && r == Err(tx.error)
        && db.State() == AuditTx(t, RetryRequest(job, actor, key, JobSummary(t, job), now), tx.error, tx.captured)
    ensures r.Err? <==>
      !KeyApplied(old(db.receipts), job.client, key)
        && !(job in old(db.jobs) && old(db.jobs)[job].status.FailedTerminal?)
  {
    r := db.Mutate(RetryRequest(job, actor, key, JobSummary(db.State(), job), now), ResetRow(job, now));
  }

  // ------------------------------------------------------------------
  // The delivery cycle

  /**
   What SQLite does to one record: nothing wrong; a failure that is audited by a failed receipt; or one
   before or in that audit, which leaves no trace.
  */
  datatype Fault = NoFault | Audited(error: StoreError, captured: Option<nat>) | Lost

  function RecordNowTx(t: Tables, claim: Claim, outcome: AttemptOutcome, fault: Fault, now: nat): Tables {
    var cycle := RetryCycle(t, claim.job);
    match fault
    case NoFault => Outbox.Committed(t, RecordTx(t, claim, outcome, cycle, now))
    case Audited(error, captured) => AuditTx(t, AttemptRequest(claim, outcome, cycle, now), error, captured)
    case Lost => t
  }

  /** Dispatch and record the claim at one position of a batch. */
  type Recorder = (Tables, Claim, nat) -> Tables

  function RecorderOf(dispatch: Claim -> AttemptOutcome, fault: nat -> Fault, clock: nat -> nat): Recorder {
    (t: Tables, claim: Claim, i: nat) => RecordNowTx(t, claim, dispatch(claim), fault(i), clock(i))
  }

  /** How many of the first `n` records left a receipt. */
  function Receipted(fault: nat -> Fault, n: nat): nat {
    if n == 0 then 0 else Receipted(fault, n - 1) + if fault(n - 1).Lost? then 0 else 1
  }

  /** The row this must leave. */
  type Attempt = (Job, Claim, nat) -> Job

  function AttemptOf(dispatch: Claim -> AttemptOutcome, clock: nat -> nat): Attempt {
    (j: Job, claim: Claim, i: nat) => Attempted(j, claim.attempts + 1, dispatch(claim), clock(i))
  }

  /** The tables after the first `n` claims of a batch have been recorded in turn. */
  function BatchTx(t: Tables, claims: seq<Claim>, step: Recorder, n: nat): Tables
    requires n <= |claims|
  {
    if n == 0 then t else step(BatchTx(t, claims, step, n - 1), claims[n - 1], n - 1)
  }

  ghost predicate Settled(t: Tables) {
    OutboxRuns.Inv(OutboxRuns.World(t, {}, {}))
  }

  /** A claim that is still a snapshot of its pending row. */
  predicate Current(jobs: map<JobRef, Job>, claim: Claim) {
    claim.job in jobs && jobs[claim.job].attempts == claim.attempts && jobs[claim.job].status.Pending?
  }

  lemma CurrentClaimIsHeld(t: Tables, claim: Claim) returns (s: OutboxRuns.World, h: OutboxRuns.Held)
    requires Settled(t) && Current(t.jobs, claim)
    ensures s == OutboxRuns.World(t, {h}, {}) && OutboxRuns.Inv(s)
    ensures h == OutboxRuns.Held(claim, OutboxRuns.Cycle(t, claim.job))
  {
    h := OutboxRuns.Held(claim, OutboxRuns.Cycle(t, claim.job));
    s := OutboxRuns.World(t, {h}, {});
    OutboxRuns.CycleIsKnown(t, claim.job);
    assert OutboxRuns.HeldBehind(t, h);
  }

  /** Recording a current claim attempts its row, and that row alone. */
  lemma CurrentClaimRecords(t: Tables, claim: Claim, outcome: AttemptOutcome, now: nat)
    requires Settled(t) && Current(t.jobs, claim)
    ensures var after := RecordNowTx(t, claim, outcome, NoFault, now);
      && Settled(after)
      && |after.receipts| == |t.receipts| + 1
      && after.jobs == t.jobs[claim.job := Attempted(t.jobs[claim.job], claim.attempts + 1, outcome, now)]
  {
    var s, h := CurrentClaimIsHeld(t, claim);
    var mid, rec := BeginNow(s, h, outcome, now);
    OutboxRuns.CommitRecordKeepsInv(mid, rec, iset{});
    OutboxRuns.RecordAppliesIffNextAttempt(mid, rec, iset{});
    var after, r := OutboxRuns.RecordResult(t, claim, outcome, rec.cycle, now);
    var next := OutboxRuns.Next(mid, OutboxRuns.CommitRecord(rec));
    assert next.db == after == RecordNowTx(t, claim, outcome, NoFault, now);
    OutboxRuns.AppendedLookups(t, after, r);
  }

  /** Claims of different rows, each current. */
  ghost predicate FreshBatch(jobs: map<JobRef, Job>, claims: seq<Claim>) {
    && (forall i | 0 <= i < |claims| :: Current(jobs, claims[i]))
    && (forall i, j | 0 <= i < j < |claims| :: claims[i].job != claims[j].job)
  }

  /** A record that SQLite failed leaves the tables good and every row as it was. */
  lemma FaultyRecordKeeps(t: Tables, claim: Claim, outcome: AttemptOutcome, fault: Fault, now: nat)
    requires Settled(t) && !fault.NoFault?
    ensures var after := RecordNowTx(t, claim, outcome, fault, now);
      && Settled(after) && after.jobs == t.jobs
      && |after.receipts| == |t.receipts| + if fault.Lost? then 0 else 1
  {
    if fault.Audited? {
      var req := AttemptRequest(claim, outcome, RetryCycle(t, claim.job), now);
      OutboxRuns.NoteFailureKeepsInv(OutboxRuns.World(t, {}, {}), req, ErrorClass(fault.error), fault.captured, iset{});
    }
  }

  /** Recording a current claim in good tables: good tables, at most one more receipt, at most that row replaced. */
  ghost predicate Records(step: Recorder, row: Attempt, fault: nat -> Fault, good: Tables -> bool) {
    forall t: Tables, claim: Claim, i: nat | good(t) && Current(t.jobs, claim) ::
      && good(step(t, claim, i))
      && |step(t, claim, i).receipts| == |t.receipts| + (if fault(i).Lost? then 0 else 1)
      && step(t, claim, i).jobs ==
         if fault(i).NoFault? then t.jobs[claim.job := row(t.jobs[claim.job], claim, i)] else t.jobs
  }

  ghost function SettledTables(): Tables -> bool {
    t => Settled(t)
  }

  lemma RecorderIs(dispatch: Claim -> AttemptOutcome, fault: nat -> Fault, clock: nat -> nat, step: Recorder, t: Tables,
                   claim: Claim, i: nat)
    requires step == RecorderOf(dispatch, fault, clock)
    ensures step(t, claim, i) == RecordNowTx(t, claim, dispatch(claim), fault(i), clock(i))
  {
  }

  lemma AttemptIs(dispatch: Claim -> AttemptOutcome, clock: nat -> nat, row: Attempt, j: Job, claim: Claim, i: nat)
    requires row == AttemptOf(dispatch, clock)
    ensures row(j, claim, i) == Attempted(j, claim.attempts + 1, dispatch(claim), clock(i))
  {
  }

  lemma CurrentClaimGood(t: Tables, claim: Claim, outcome: AttemptOutcome, fault: Fault, now: nat)
    returns (after: Tables, next: Job)
    requires SettledTables()(t) && Current(t.jobs, claim)
    ensures after == RecordNowTx(t, claim, outcome, fault, now)
    ensures next == Attempted(t.jobs[claim.job], claim.attempts + 1, outcome, now)
    ensures SettledTables()(after) && |after.receipts| == |t.receipts| + if fault.Lost? then 0 else 1
    ensures after.jobs == if fault.NoFault? then t.jobs[claim.job := next] else t.jobs
  {
    after := RecordNowTx(t, claim, outcome, fault, now);
    next := Attempted(t.jobs[claim.job], claim.attempts + 1, outcome, now);
    if fault.NoFault? {
      CurrentClaimRecords(t, claim, outcome, now);
    } else {
      FaultyRecordKeeps(t, claim, outcome, fault, now);
    }
  }

  lemma RecorderRecords(dispatch: Claim -> AttemptOutcome, fault: nat -> Fault, clock: nat -> nat, step: Recorder,
                        row: Attempt, good: Tables -> bool)
    requires step == RecorderOf(dispatch, fault, clock) && row == AttemptOf(dispatch, clock) && good == SettledTables()
    ensures Records(step, row, fault, good)
  {
    forall t: Tables, claim: Claim, i: nat | good(t) && Current(t.jobs, claim)
      ensures good(step(t, claim, i))
      ensures |step(t, claim, i).receipts| == |t.receipts| + if fault(i).Lost? then 0 else 1
      ensures step(t, claim, i).jobs ==
        if fault(i).NoFault? then t.jobs[claim.job := row(t.jobs[claim.job], claim, i)] else t.jobs
    {
      var after, next := CurrentClaimGood(t, claim, dispatch(claim), fault(i), clock(i));
      RecorderIs(dispatch, fault, clock, step, t, claim, i);
      AttemptIs(dispatch, clock, row, t.jobs[claim.job], claim, i);
    }
  }

  /** The claim at `k` has been attempted once if `k < n` and its record did not fail; else its row is as it was. */
  lemma {:induction false} BatchRow(t: Tables, claims: seq<Claim>, step: Recorder, row: Attempt, fault: nat -> Fault,
                                    good: Tables -> bool, n: nat, k: nat)
    requires Records(step, row, fault, good) && good(t)
    requires FreshBatch(t.jobs, claims) && n <= |claims| && k < |claims|
    ensures var after := BatchTx(t, claims, step, n);
      && good(after) && |after.receipts| == |t.receipts| + Receipted(fault, n)
      && claims[k].job in after.jobs && Current(t.jobs, claims[k])
      && after.jobs[claims[k].job] ==
         if k < n && fault(k).NoFault? then row(t.jobs[claims[k].job], claims[k], k) else t.jobs[claims[k].job]
  {
    if n > 0 {
      BatchRow(t, claims, step, row, fault, good, n - 1, k);
      BatchRow(t, claims, step, row, fault, good, n - 1, n - 1);
      assert claims[k].job == claims[n - 1].job ==> k == n - 1;
    }
  }

  lemma NextInBatch(t: Tables, claims: seq<Claim>, step: Recorder, row: Attempt, fault: nat -> Fault,
                    good: Tables -> bool, n: nat)
    requires Records(step, row, fault, good) && good(t) && FreshBatch(t.jobs, claims) && n < |claims|
    ensures var before, job := BatchTx(t, claims, step, n), claims[n].job;
      && job in before.jobs
      && BatchTx(t, claims, step, n + 1).jobs ==
         if fault(n).NoFault? then before.jobs[job := row(before.jobs[job], claims[n], n)] else before.jobs
  {
    BatchRow(t, claims, step, row, fault, good, n, n);
  }

  lemma {:induction false} BatchLeavesOthers(t: Tables, claims: seq<Claim>, step: Recorder, row: Attempt,
                                             fault: nat -> Fault, good: Tables -> bool, n: nat, job: JobRef)
    requires Records(step, row, fault, good) && good(t)
    requires FreshBatch(t.jobs, claims) && n <= |claims|
    requires forall i | 0 <= i < |claims| :: claims[i].job != job
    ensures var after := BatchTx(t, claims, step, n);
      && (job in after.jobs <==> job in t.jobs)
      && (job in after.jobs ==> after.jobs[job] == t.jobs[job])
  {
    if n > 0 {
      hide Records;
      BatchLeavesOthers(t, claims, step, row, fault, good, n - 1, job);
      NextInBatch(t, claims, step, row, fault, good, n - 1);
    }
  }

  lemma ClaimedBatch(t: Tables, claims: seq<Claim>, client: string, provider: Option<string>, leaseMs: nat,
                     limit: nat, now: nat)
    requires Settled(t) && AreClaims(t, claims, client, provider, limit, now)
    ensures var leased := OutboxRuns.ClaimTx(t, ClaimedJobs(claims), leaseMs, now);
      Settled(leased) && FreshBatch(leased.jobs, claims)
  {
    var start := OutboxRuns.World(t, {}, {});
    var jobs := ClaimedJobs(claims);
    var leased := OutboxRuns.ClaimTx(t, jobs, leaseMs, now);
    forall i | 0 <= i < |claims|
      ensures claims[i].job in t.jobs && Due(t.jobs[claims[i].job], now) && Current(leased.jobs, claims[i])
    {
      assert claims[i] in claims;
    }
    OutboxRuns.ClaimKeepsInv(start, jobs, leaseMs, now, iset{});
  }

  /** Record one claim, or fail to; the caller only logs a failure. */
  method RecordOne(db: Store, claim: Claim, outcome: AttemptOutcome, fault: Fault, now: nat)
    modifies db
    ensures db.State() == RecordNowTx(old(db.State()), claim, outcome, fault, now)
  {
    match fault
    case NoFault =>
      var status := RecordAttempt(db, claim, outcome, now);
    case Audited(error, captured) =>
      var req := AttemptRequest(claim, outcome, RetryCycle(db.State(), claim.job), now);
      var id := db.InsertReceipt(req, Failed, Some(ErrorClass(error)), captured, captured);
    case Lost =>
  }

  /** Dispatch and record each claim of a batch in turn; the provider calls run between transactions. */
  method RecordBatch(db: Store, claims: seq<Claim>, dispatch: Claim -> AttemptOutcome, fault: nat -> Fault,
                     clock: nat -> nat, ghost step: Recorder)
    requires step == RecorderOf(dispatch, fault, clock)
    modifies db
    ensures db.State() == BatchTx(old(db.State()), claims, step, |claims|)
  {
    ghost var leased := db.State();
    for i := 0 to |claims|
      invariant db.State() == BatchTx(leased, claims, step, i)
    {
      RecorderIs(dispatch, fault, clock, step, db.State(), claims[i], i);
      RecordOne(db, claims[i], dispatch(claims[i]), fault(i), clock(i));
    }
  }

  /**
   One delivery cycle with nothing else running: claim a batch, then dispatch and record each claim in
   turn. A record that fails in SQLite does not end the cycle.
  */
  method RunDeliveryCycle(db: Store, client: string, dispatch: Claim -> AttemptOutcome, fault: nat -> Fault, now: nat,
                          clock: nat -> nat)
    returns (claims: seq<Claim>)
    modifies db
    ensures AreClaims(old(db.State()), claims, client, None, CLAIM_BATCH, now)
    ensures var leased := OutboxRuns.ClaimTx(old(db.State()), ClaimedJobs(claims), LEASE_MS, now);
      db.State() == BatchTx(leased, claims, RecorderOf(dispatch, fault, clock), |claims|)
  {
    claims := ClaimDueJobs(db, client, None, LEASE_MS, CLAIM_BATCH, now);
    ghost var leased := db.State();
    RecordBatch(db, claims, dispatch, fault, clock, RecorderOf(dispatch, fault, clock));
  }

  /**
   What such a cycle does to a claimed row: leased, then attempted exactly once, with its own outcome,
   whatever happened to the other records; after a failed record it is leased and no more. `step` and
   `row` name the recorder of the batch and the row an attempt leaves.
  */
  lemma CycleDeliversEachClaimOnce(t: Tables, claims: seq<Claim>, client: string, dispatch: Claim -> AttemptOutcome,
                                   fault: nat -> Fault, now: nat, clock: nat -> nat, k: nat, step: Recorder,
                                   row: Attempt)
    requires Settled(t) && AreClaims(t, claims, client, None, CLAIM_BATCH, now) && k < |claims|
    requires step == RecorderOf(dispatch, fault, clock) && row == AttemptOf(dispatch, clock)
    ensures var after := BatchTx(OutboxRuns.ClaimTx(t, ClaimedJobs(claims), LEASE_MS, now), claims, step, |claims|);
      var job := claims[k].job;
      && |after.receipts| == |t.receipts| + Receipted(fault, |claims|)
      && job in t.jobs && job in after.jobs
      && var leased := Leased(t.jobs[job], now + LEASE_MS, now);
        after.jobs[job] == if fault(k).NoFault? then row(leased, claims[k], k) else leased
  {
    var leased := OutboxRuns.ClaimTx(t, ClaimedJobs(claims), LEASE_MS, now);
    ClaimedBatch(t, claims, client, None, LEASE_MS, CLAIM_BATCH, now);
    assert claims[k] in claims && claims[k].job in ClaimedJobs(claims);
    RecorderRecords(dispatch, fault, clock, step, row, SettledTables());
    BatchRow(leased, claims, step, row, fault, SettledTables(), |claims|, k);
  }

  /** What such a cycle does to every other row: nothing. */
  lemma CycleLeavesOtherJobs(t: Tables, claims: seq<Claim>, client: string, dispatch: Claim -> AttemptOutcome,
                             fault: nat -> Fault, now: nat, clock: nat -> nat, job: JobRef, step: Recorder)
    requires Settled(t) && AreClaims(t, claims, client, None, CLAIM_BATCH, now) && job !in ClaimedJobs(claims)
    requires step == RecorderOf(dispatch, fault, clock)
    ensures var after := BatchTx(OutboxRuns.ClaimTx(t, ClaimedJobs(claims), LEASE_MS, now), claims, step, |claims|);
      (job in after.jobs <==> job in t.jobs) && (job in after.jobs ==> after.jobs[job] == t.jobs[job])
  {
    var leased := OutboxRuns.ClaimTx(t, ClaimedJobs(claims), LEASE_MS, now);
    ClaimedBatch(t, claims, client, None, LEASE_MS, CLAIM_BATCH, now);
    var row := AttemptOf(dispatch, clock);
    RecorderRecords(dispatch, fault, clock, step, row, SettledTables());
    BatchLeavesOthers(leased, claims, step, row, fault, SettledTables(), |claims|, job);
  }
}
