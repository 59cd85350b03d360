/**
 The outbox delivery protocol on top of the write path: leasing due jobs, recording one delivery
 attempt, and the operator's retry of a terminal job.
*/
module Outbox {
  import opened Wrappers
  import opened Text
  import opened Schema
  import opened StoreCore

  const MAX_ATTEMPTS: nat := 8
  const LEASE_MS: nat := 120_000
  const CLAIM_BATCH: nat := 5
  const RETRY_REQUESTED := "retry_requested"

  function JobEntity(job: JobRef): Entity {
    Entity(job.client, "outbox_job", job.jobId)
  }

  /** Pending, attempt time reached, lease absent or expired. */
  predicate Due(j: Job, now: nat) {
    j.status.Pending? && j.nextAttemptAt <= now && (j.leasedUntil.Some? ==> j.leasedUntil.value <= now)
  }

  function Leased(j: Job, until: nat, now: nat): Job {
    j.(leasedUntil := Some(until), updatedAt := now)
  }

  /** The snapshot of a job row that a delivery works from. */
  datatype Claim = Claim(job: JobRef, order: NewJob, attempts: nat)

  function ClaimOf(job: JobRef, j: Job): Claim {
    Claim(job, j.order, j.attempts)
  }

  datatype AttemptOutcome =
    | DeliveredWith(result: string)
    | RetryAt(error: string, at: nat)
    | TerminalWith(reason: string, detail: Option<string>)
    | UnknownWith(reason: string, detail: Option<string>)

  /** What an outcome does to the row. */
  datatype Verdict = Verdict(status: JobStatus, changeKind: string, error: Option<string>,
                             result: Option<string>, nextAttemptAt: Option<nat>)

  function Judge(attempts: nat, outcome: AttemptOutcome): (v: Verdict)
    ensures v.changeKind != RETRY_REQUESTED
    ensures v.status.Pending? <==> outcome.RetryAt? && attempts < MAX_ATTEMPTS
    ensures v.status.Delivered? <==> outcome.DeliveredWith?
    ensures v.status.DeliveryOutcomeUnknown? <==> outcome.UnknownWith?
    ensures v.nextAttemptAt.Some? <==> v.status.Pending?
    ensures v.error.None? <==> v.status.Delivered?
  {
    match outcome
    case DeliveredWith(result) => Verdict(Delivered, "deliver_succeeded", None, Some(result), None)
    case RetryAt(error, at) =>
      if attempts >= MAX_ATTEMPTS then Verdict(FailedTerminal, "deliver_attempts_exhausted", Some(error), None, None)
      else Verdict(Pending, "deliver_retry_scheduled", Some(error), None, Some(at))
    case TerminalWith(reason, detail) => Verdict(FailedTerminal, "deliver_failed_terminal", Some(reason), detail, None)
    case UnknownWith(reason, detail) =>
      Verdict(DeliveryOutcomeUnknown, "deliver_outcome_unknown", Some(reason), detail, None)
  }

  /** The receipt id of the newest applied operator retry of a job, if any. */
  function RetryCycle(db: Tables, job: JobRef): Option<string> {
    match Newest(db.receipts, OfChange(JobEntity(job), RETRY_REQUESTED))
    case None => None
    case Some(r) => Some(r.receiptId)
  }

  function CycleText(cycle: Option<string>): string {
    cycle.GetOr("initial")
  }

  const ATTEMPT_PREFIX := "outbox_attempt:"

  function AttemptKey(jobId: string, cycle: string, attempts: nat): string {
    ATTEMPT_PREFIX + jobId + [':'] + cycle + [':'] + Digits(attempts)
  }

  predicate IsAttemptKey(key: string) {
    ATTEMPT_PREFIX <= key
  }

  /** The key determines job, cycle and attempt, even when the job id itself contains colons. */
  lemma AttemptKeyInjective(job: string, cycle: string, n: nat, job': string, cycle': string, n': nat)
    requires Lacks(cycle, ':') && Lacks(cycle', ':')
    requires AttemptKey(job, cycle, n) == AttemptKey(job', cycle', n')
    ensures job == job' && cycle == cycle' && n == n'
  {
    var head, head' := ATTEMPT_PREFIX + job, ATTEMPT_PREFIX + job';
    DigitsLack(n, ':');
    DigitsLack(n', ':');
    LastSeparator(head + [':'] + cycle, Digits(n), head' + [':'] + cycle', Digits(n'), ':');
    LastSeparator(head, cycle, head', cycle', ':');
    assert job == head[|ATTEMPT_PREFIX|..] && job' == head'[|ATTEMPT_PREFIX|..];
    PaddedInjective(n, n', 1);
  }

  lemma AttemptKeyPrefixed(job: string, cycle: string, n: nat)
    ensures IsAttemptKey(AttemptKey(job, cycle, n))
  {
  }

  function ErrorText(error: Option<string>): string {
    error.GetOr("null")
  }

  function AttemptRequest(claim: Claim, outcome: AttemptOutcome, cycle: Option<string>, now: nat): Request {
    var attempts := claim.attempts + 1;
    var v := Judge(attempts, outcome);
    Request(JobEntity(claim.job), v.changeKind, "outbox_delivery_worker", System, None,
            AttemptKey(claim.job.jobId, CycleText(cycle), attempts), claim.order.correlation, None, None,
            Some(StatusText(v.status) + " " + Digits(attempts) + " " + ErrorText(v.error)), now)
  }

  function AttemptWrite(claim: Claim, outcome: AttemptOutcome, now: nat): Write {
    var attempts := claim.attempts + 1;
    var v := Judge(attempts, outcome);
    RecordRow(claim.job, v.status, attempts, v.error, v.result, v.nextAttemptAt, now)
  }

  /** The row after an attempt that applied. */
  function Attempted(j: Job, attempts: nat, outcome: AttemptOutcome, now: nat): Job {
    var v := Judge(attempts, outcome);
    Recorded(j, v.status, attempts, v.error, v.result, v.nextAttemptAt, now)
  }

  /** The transaction of `record_attempt`, given the retry cycle it read beforehand. */
  function RecordTx(db: Tables, claim: Claim, outcome: AttemptOutcome, cycle: Option<string>, now: nat): TxResult {
    MutateTx(db, AttemptRequest(claim, outcome, cycle, now), AttemptWrite(claim, outcome, now))
  }

  function RetryRequest(job: JobRef, actor: string, key: string, before: Option<string>, now: nat): Request {
    Request(JobEntity(job), RETRY_REQUESTED, actor, Operator, None, key, Some(job.jobId), None, before,
            Some("pending 0"), now)
  }

  function RetryTx(db: Tables, job: JobRef, actor: string, key: string, before: Option<string>, now: nat): TxResult {
    MutateTx(db, RetryRequest(job, actor, key, before, now), ResetRow(job, now))
  }

  function Committed(db: Tables, t: TxResult): Tables {
    if t.Committed? then t.db else db
  }

  /** An operator retry applies exactly to a terminally failed job, under a key not used before. */
  lemma RetryAppliesIff(db: Tables, job: JobRef, actor: string, key: string, before: Option<string>, now: nat)
    ensures Applies(db, RetryRequest(job, actor, key, before, now), ResetRow(job, now))
      <==> !KeyApplied(db.receipts, job.client, key) && job in db.jobs && db.jobs[job].status.FailedTerminal?
  {
  }
}
