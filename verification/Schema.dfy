/**
 The tables one transaction sees: receipts, entity revisions, outbox jobs, and the rows of
 every other slice. A transaction maps one `Tables` value to the next.
*/
module Schema {
  import opened Wrappers

  datatype ActorKind = Operator | System | Agent

  datatype ReceiptOutcome = Applied | ReplayedIdempotent | RevisionConflict | Failed

  /** What a receipt, a revision and a mutation are about. */
  datatype Entity = Entity(client: string, kind: string, id: string)

  datatype Receipt = Receipt(
    receiptId: string,
    entity: Entity,
    changeKind: string,
    actorId: string,
    actorKind: ActorKind,
    outcome: ReceiptOutcome,
    errorClass: Option<string>,
    beforeJson: Option<string>,
    afterJson: Option<string>,
    revisionBefore: Option<nat>,
    revisionAfter: Option<nat>,
    key: string,
    correlation: Option<string>,
    causation: Option<string>,
    createdAt: nat)

  datatype Request = Request(
    entity: Entity,
    changeKind: string,
    actorId: string,
    actorKind: ActorKind,
    expected: Option<nat>,
    key: string,
    correlation: Option<string>,
    causation: Option<string>,
    beforeJson: Option<string>,
    afterJson: Option<string>,
    now: nat)

  datatype JobStatus = Pending | Delivered | FailedTerminal | DeliveryOutcomeUnknown

  datatype JobRef = JobRef(client: string, jobId: string)

  datatype NewJob = NewJob(
    provider: string,
    capability: string,
    payload: string,
    sourceKind: string,
    sourceId: string,
    correlation: Option<string>,
    causation: Option<string>,
    key: string)

  datatype Job = Job(
    order: NewJob,
    status: JobStatus,
    attempts: nat,
    nextAttemptAt: nat,
    leasedUntil: Option<nat>,
    lastError: Option<string>,
    resultJson: Option<string>,
    createdAt: nat,
    updatedAt: nat)

  /** The category a rule pins, and its priority, counted from the lowest a rule may have. */
  datatype Pin = Pin(category: string, priority: nat)

  const NO_PIN := Pin("", 0)

  /** A row of any other slice; `pin` serves the rule table and `system` the category table. */
  datatype Row = Row(text: string, deleted: bool, pin: Pin, system: bool)

  datatype RowKey = RowKey(client: string, table: string, id: string)

  datatype Tables = Tables(
    receipts: seq<Receipt>,
    revisions: map<Entity, nat>,
    jobs: map<JobRef, Job>,
    rows: map<RowKey, Row>)

  const EMPTY := Tables([], map[], map[], map[])

  datatype StoreError = Sqlite(message: string) | Domain(message: string)

  /** A change-kind restriction on one entity kind. */
  datatype Restriction = Restriction(entityKind: string, changeKinds: seq<string>)

  /** Which receipts a payload compaction may touch. */
  datatype Scope = Scope(client: string, cutoff: nat, kinds: seq<string>, restrictions: seq<Restriction>)

  /**
   What a domain-write closure does with the open transaction. `Rows` is any write of a slice
   to its own tables: it sees those rows and the id of the receipt about to be inserted, and
   may fail. The other cases are the only ways the shared tables are written.
  */
  datatype Write =
    | Rows(update: (map<RowKey, Row>, string) -> Result<map<RowKey, Row>, StoreError>)
    | Enqueue(job: JobRef, order: NewJob, now: nat)
    | RecordRow(job: JobRef, status: JobStatus, attempts: nat, error: Option<string>,
                result: Option<string>, nextAttemptAt: Option<nat>, now: nat)
    | ResetRow(job: JobRef, now: nat)
    | Advance(entity: Entity, expected: nat)
    | Initialize(entity: Entity, revision: nat)
    | ClearPayloads(scope: Scope, ids: seq<string>)
    | Both(first: Write, second: Write)

  datatype MutationOutcome =
    | AppliedAs(receiptId: string, revision: nat)
    | ReplayedAs(receiptId: string, prior: Option<nat>)
    | ConflictAt(receiptId: string, current: Option<nat>)

  /** The first transaction of a mutation: committed, or rolled back with what it had read. */
  datatype TxResult =
    | Committed(db: Tables, outcome: MutationOutcome)
    | RolledBack(error: StoreError, captured: Option<nat>)
}
