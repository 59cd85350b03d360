/**
 The retention job's loop over receipt payloads: read the oldest candidates, compact them as one
 batch, repeat. Nothing else runs in between.
*/
module Retention {
  import opened Wrappers
  import opened Text
  import opened Schema
  import opened StoreCore
  import opened Database
  import opened Selection
  import opened Compaction

  /** Sort keys of the receipts a compaction may touch. */
  function EligibleKeys(rs: seq<Receipt>, s: Scope): set<SortKey> {
    set i | 0 <= i < |rs| && Eligible(rs[i], s) :: SortKey(rs[i].createdAt, rs[i].receiptId)
  }

  lemma EligibleKeysAppend(front: seq<Receipt>, last: Receipt, s: Scope)
    ensures EligibleKeys(front + [last], s) ==
            EligibleKeys(front, s) + if Eligible(last, s) then {SortKey(last.createdAt, last.receiptId)} else {}
  {
    var rs := front + [last];
    assert forall i | 0 <= i < |front| :: rs[i] == front[i];
    assert rs[|front|] == last;
  }

  lemma {:induction false} EligibleCountIsKeys(rs: seq<Receipt>, s: Scope)
    requires DistinctIds(rs)
    ensures EligibleCount(rs, s) == |EligibleKeys(rs, s)|
  {
    if rs == [] {
      assert EligibleKeys(rs, s) == {};
    } else {
      var front, last := rs[..|rs| - 1], rs[|rs| - 1];
      assert rs == front + [last];
      EligibleCountIsKeys(front, s);
      EligibleKeysAppend(front, last, s);
      assert SortKey(last.createdAt, last.receiptId) !in EligibleKeys(front, s);
    }
  }

  /** `ids` are the ids of the first `limit` eligible receipts in (created_at, receipt_id) order. */
  ghost predicate AreCandidates(rs: seq<Receipt>, s: Scope, limit: nat, ids: seq<string>) {
    exists keys: seq<SortKey> ::
      IsFirst(keys, EligibleKeys(rs, s), limit) && |ids| == |keys| && forall i | 0 <= i < |ids| :: ids[i] == keys[i].id
  }

  method Candidates(db: Store, s: Scope, limit: nat) returns (ids: seq<string>)
    ensures AreCandidates(db.receipts, s, limit, ids)
  {
    var keys := [];
    if s.kinds == [] || limit == 0 {
      ids := [];
      assert s.kinds == [] ==> EligibleKeys(db.receipts, s) == {};
    } else {
      keys := First(EligibleKeys(db.receipts, s), limit);
      ids := seq(|keys|, i requires 0 <= i < |keys| => keys[i].id);
    }
    assert IsFirst(keys, EligibleKeys(db.receipts, s), limit);
  }

  method CountEligible(db: Store, s: Scope) returns (count: nat)
    ensures count == EligibleCount(db.receipts, s)
  {
    count := 0;
    for i := 0 to |db.receipts|
      invariant count == EligibleCount(db.receipts[..i], s)
    {
      assert db.receipts[..i + 1][..i] == db.receipts[..i];
      if Eligible(db.receipts[i], s) {
        count := count + 1;
      }
    }
    assert db.receipts[..|db.receipts|] == db.receipts;
  }

  lemma KeyNamesEligible(rs: seq<Receipt>, s: Scope, key: SortKey)
    requires key in EligibleKeys(rs, s)
    ensures NamesEligible(rs, s, key.id)
  {
    var i :| 0 <= i < |rs| && Eligible(rs[i], s) && SortKey(rs[i].createdAt, rs[i].receiptId) == key;
    assert rs[i].receiptId == key.id;
  }

  lemma KeysDifferById(rs: seq<Receipt>, s: Scope, a: SortKey, b: SortKey)
    requires DistinctIds(rs) && a in EligibleKeys(rs, s) && b in EligibleKeys(rs, s) && a.id == b.id
    ensures a == b
  {
    var i :| 0 <= i < |rs| && Eligible(rs[i], s) && SortKey(rs[i].createdAt, rs[i].receiptId) == a;
    var j :| 0 <= j < |rs| && Eligible(rs[j], s) && SortKey(rs[j].createdAt, rs[j].receiptId) == b;
    assert i == j;
  }

  lemma KeysQualify(rs: seq<Receipt>, s: Scope, limit: nat, keys: seq<SortKey>, ids: seq<string>)
    requires DistinctIds(rs) && IsFirst(keys, EligibleKeys(rs, s), limit)
    requires |ids| == |keys| && forall i | 0 <= i < |ids| :: ids[i] == keys[i].id
    ensures Distinct(ids) && forall k | 0 <= k < |ids| :: NamesEligible(rs, s, ids[k])
  {
    forall k | 0 <= k < |ids| ensures NamesEligible(rs, s, ids[k]) {
      KeyNamesEligible(rs, s, keys[k]);
    }
    forall i, j | 0 <= i < j < |ids| ensures ids[i] != ids[j] {
      if ids[i] == ids[j] {
        KeysDifferById(rs, s, keys[i], keys[j]);
        BeforeTotal(keys[i], keys[j]);
      }
    }
  }

  /** Candidates are distinct and eligible, and there are as many as the limit and the table allow. */
  lemma CandidatesQualify(rs: seq<Receipt>, s: Scope, limit: nat, ids: seq<string>)
    requires Dense(rs) && AreCandidates(rs, s, limit, ids)
    ensures Distinct(ids) && forall k | 0 <= k < |ids| :: NamesEligible(rs, s, ids[k])
    ensures |ids| == if EligibleCount(rs, s) < limit then EligibleCount(rs, s) else limit
  {
    DenseIdsDiffer(rs);
    EligibleCountIsKeys(rs, s);
    var keys: seq<SortKey> :| IsFirst(keys, EligibleKeys(rs, s), limit) && |ids| == |keys|
      && forall i | 0 <= i < |ids| :: ids[i] == keys[i].id;
    KeysQualify(rs, s, limit, keys, ids);
  }

  method CompactReceiptPayloads(db: Store, b: Batch, ids: seq<string>) returns (r: Result<MutationOutcome, StoreError>)
    modifies db
    ensures var tx := CompactTx(old(db.State()), b, ids);
      if tx.Committed? then r == Ok(tx.outcome) && db.State() == tx.db
      else
        && r == Err(tx.error)
        && db.State() ==
           if ids == [] || b.scope.kinds == [] then old(db.State())
           else AuditTx(old(db.State()), BatchRequest(b, ids), tx.error, tx.captured)
  {
    if ids == [] || b.scope.kinds == [] {
      return Err(Domain("receipt_payload_compaction_batch_empty"));
    }
    r := db.Mutate(BatchRequest(b, ids), ClearPayloads(b.scope, ids));
  }

  // ------------------------------------------------------------------
  // Batch keys

  /** What names a batch: its cutoff, and its first and last receipt. */
  datatype BatchId = BatchId(cutoff: nat, first: string, last: string)

  /** The truncated digest of a batch. */
  type Digest = BatchId -> string

  /** The digests of these batches are hex, and no two batches of one cutoff share one. */
  ghost predicate IsDigest(h: Digest, batches: set<BatchId>) {
    && (forall b | b in batches :: Lacks(h(b), ':'))
    && (forall b, c | b in batches && c in batches && b.cutoff == c.cutoff && h(b) == h(c) :: b == c)
  }

  const BATCH_PREFIX := "data_retention:receipt_payloads:"

  function BatchKey(h: Digest, b: BatchId): string {
    BATCH_PREFIX + Digits(b.cutoff) + [':'] + h(b)
  }

  lemma BatchKeyInjective(h: Digest, batches: set<BatchId>, b: BatchId, c: BatchId)
    requires IsDigest(h, batches) && b in batches && c in batches && BatchKey(h, b) == BatchKey(h, c)
    ensures b == c
  {
    LastSeparator(BATCH_PREFIX + Digits(b.cutoff), h(b), BATCH_PREFIX + Digits(c.cutoff), h(c), ':');
    assert (BATCH_PREFIX + Digits(b.cutoff))[|BATCH_PREFIX|..] == Digits(b.cutoff);
    assert (BATCH_PREFIX + Digits(c.cutoff))[|BATCH_PREFIX|..] == Digits(c.cutoff);
    PaddedInjective(b.cutoff, c.cutoff, 1);
  }

  predicate Emptied(rs: seq<Receipt>, id: string) {
    exists i | 0 <= i < |rs| :: rs[i].receiptId == id && rs[i].beforeJson.None? && rs[i].afterJson.None?
  }

  predicate Explains(rs: seq<Receipt>, h: Digest, key: string, b: BatchId) {
    key == BatchKey(h, b) && Emptied(rs, b.first)
  }

  /** A batch key that was applied is that of one of these batches, and its first receipt's payloads are gone. */
  ghost predicate SpentKeys(rs: seq<Receipt>, client: string, h: Digest, spent: set<BatchId>) {
    forall key: string | BATCH_PREFIX <= key && KeyApplied(rs, client, key) ::
      exists b :: b in spent && Explains(rs, h, key, b)
  }

  function IdOf(s: Scope, ids: seq<string>): BatchId
    requires ids != []
  {
    BatchId(s.cutoff, ids[0], ids[|ids| - 1])
  }

  lemma EligibleIsNotEmptied(rs: seq<Receipt>, s: Scope, id: string)
    requires Dense(rs) && NamesEligible(rs, s, id)
    ensures !Emptied(rs, id)
  {
    DenseIdsDiffer(rs);
  }

  /** So the next batch always has a fresh key. */
  lemma NextKeyIsFresh(rs: seq<Receipt>, s: Scope, h: Digest, spent: set<BatchId>, ids: seq<string>)
    requires Dense(rs) && SpentKeys(rs, s.client, h, spent) && ids != [] && NamesEligible(rs, s, ids[0])
    requires IsDigest(h, spent + {IdOf(s, ids)})
    ensures !KeyApplied(rs, s.client, BatchKey(h, IdOf(s, ids)))
  {
    var key := BatchKey(h, IdOf(s, ids));
    if KeyApplied(rs, s.client, key) {
      assert BATCH_PREFIX <= key;
      var b :| b in spent && Explains(rs, h, key, b);
      BatchKeyInjective(h, spent + {IdOf(s, ids)}, b, IdOf(s, ids));
      EligibleIsNotEmptied(rs, s, b.first);
    }
  }

  /** One run of the retention job, as its batches record it. */
  datatype JobRun = JobRun(actor: string, actorKind: ActorKind, runId: string, now: nat)

  function BatchOf(s: Scope, h: Digest, run: JobRun, ids: seq<string>): Batch
    requires ids != []
  {
    var id := IdOf(s, ids);
    Batch(s, run.actor, run.actorKind, "receipt_payloads:" + h(id), BatchKey(h, id), Some(run.runId), run.now)
  }

  lemma RoundShape(db: Tables, b: Batch, ids: seq<string>) returns (r: Receipt)
    requires Dense(db.receipts) && ids != [] && CompactTx(db, b, ids).Committed?
      && CompactTx(db, b, ids).outcome.AppliedAs?
    ensures RunWrite(ClearPayloads(b.scope, ids), db, NextReceiptId(db)).Ok?
    ensures CompactTx(db, b, ids).db.receipts == Clear(db.receipts, b.scope, ids) + [r]
    ensures r.receiptId == ReceiptId(|db.receipts| + 1) && r.key == b.key && r.entity.client == b.scope.client
  {
    var t := CompactTx(db, b, ids).db;
    r := t.receipts[|t.receipts| - 1];
  }

  lemma ClearedKeepsEmptied(rs: seq<Receipt>, s: Scope, ids: seq<string>, r: Receipt, id: string)
    requires Emptied(rs, id)
    ensures Emptied(Clear(rs, s, ids) + [r], id)
  {
    var after := Clear(rs, s, ids) + [r];
    var i :| 0 <= i < |rs| && rs[i].receiptId == id && rs[i].beforeJson.None? && rs[i].afterJson.None?;
    assert after[i] == Clear(rs, s, ids)[i];
  }

  lemma ClearedEmpties(rs: seq<Receipt>, s: Scope, ids: seq<string>, r: Receipt, id: string)
    requires NamesEligible(rs, s, id) && id in ids
    ensures Emptied(Clear(rs, s, ids) + [r], id)
  {
    var after := Clear(rs, s, ids) + [r];
    var i :| 0 <= i < |rs| && rs[i].receiptId == id && Eligible(rs[i], s);
    assert after[i] == Clear(rs, s, ids)[i] == Strip(rs[i]);
  }

  lemma ClearedKeepsSpentKeys(rs: seq<Receipt>, s: Scope, h: Digest, spent: set<BatchId>, ids: seq<string>, r: Receipt)
    requires SpentKeys(rs, s.client, h, spent) && ids != [] && NamesEligible(rs, s, ids[0])
    requires r.key == BatchKey(h, IdOf(s, ids))
    ensures SpentKeys(Clear(rs, s, ids) + [r], s.client, h, spent + {IdOf(s, ids)})
  {
    var cleared := Clear(rs, s, ids);
    assert SameButPayload(rs, cleared);
    PayloadIrrelevant(rs, cleared);
    ClearedEmpties(rs, s, ids, r, ids[0]);
    forall key: string | BATCH_PREFIX <= key && KeyApplied(cleared + [r], s.client, key)
      ensures exists b :: b in spent + {IdOf(s, ids)} && Explains(cleared + [r], h, key, b)
    {
      FindAppliedAppend(cleared, r, s.client, key);
      if KeyApplied(cleared, s.client, key) {
        var b :| b in spent && Explains(rs, h, key, b);
        ClearedKeepsEmptied(rs, s, ids, r, b.first);
        assert b in spent + {IdOf(s, ids)} && Explains(cleared + [r], h, key, b);
      } else {
        assert Explains(cleared + [r], h, key, IdOf(s, ids));
      }
    }
  }

  lemma ClearedKeepsDense(rs: seq<Receipt>, s: Scope, ids: seq<string>, r: Receipt)
    requires Dense(rs) && r.receiptId == ReceiptId(|rs| + 1)
    ensures Dense(Clear(rs, s, ids) + [r])
  {
    var cleared := Clear(rs, s, ids);
    assert SameButPayload(rs, cleared);
    PayloadIrrelevant(rs, cleared);
  }

  /** One round, from the candidates read to the state it leaves. */
  lemma RoundSucceeds(db: Tables, s: Scope, h: Digest, spent: set<BatchId>, limit: nat, ids: seq<string>, b: Batch)
    requires Dense(db.receipts) && SpentKeys(db.receipts, s.client, h, spent)
    requires AreCandidates(db.receipts, s, limit, ids) && ids != [] && IsDigest(h, spent + {IdOf(s, ids)})
    requires b.scope == s && b.key == BatchKey(h, IdOf(s, ids))
    requires b.now >= s.cutoff || "data_retention" !in s.kinds
    ensures CompactTx(db, b, ids).Committed? && CompactTx(db, b, ids).outcome.AppliedAs?
    ensures var after := CompactTx(db, b, ids).db.receipts;
      && Dense(after) && SpentKeys(after, s.client, h, spent + {IdOf(s, ids)})
      && EligibleCount(after, s) == EligibleCount(db.receipts, s) - |ids|
  {
    CandidatesQualify(db.receipts, s, limit, ids);
    NextKeyIsFresh(db.receipts, s, h, spent, ids);
    RoundMakesProgress(db, b, ids);
    var r := RoundShape(db, b, ids);
    ClearedKeepsSpentKeys(db.receipts, s, h, spent, ids, r);
    ClearedKeepsDense(db.receipts, s, ids, r);
  }

  /** One round of the loop: name the batch after its candidates and compact it. */
  method CompactRound(db: Store, s: Scope, h: Digest, run: JobRun, ghost spent: set<BatchId>, ghost limit: nat,
                      ids: seq<string>)
    returns (r: Result<MutationOutcome, StoreError>)
    requires Dense(db.receipts) && SpentKeys(db.receipts, s.client, h, spent)
    requires AreCandidates(db.receipts, s, limit, ids) && ids != [] && IsDigest(h, spent + {IdOf(s, ids)})
    requires run.now >= s.cutoff || "data_retention" !in s.kinds
    modifies db
    ensures r.Ok? && r.value.AppliedAs?
    ensures db.State() == AfterBatch(old(db.State()), s, h, run, ids)
    ensures Dense(db.receipts) && SpentKeys(db.receipts, s.client, h, spent + {IdOf(s, ids)})
    ensures EligibleCount(db.receipts, s) == EligibleCount(old(db.receipts), s) - |ids|
  {
    var b := BatchOf(s, h, run, ids);
    RoundSucceeds(db.State(), s, h, spent, limit, ids, b);
    r := CompactReceiptPayloads(db, b, ids);
  }

  // ------------------------------------------------------------------
  // The loop

  function Min(a: nat, b: nat): nat {
    if a < b then a else b
  }

  function AfterBatch(t: Tables, s: Scope, h: Digest, run: JobRun, ids: seq<string>): Tables
    requires ids != []
  {
    var tx := CompactTx(t, BatchOf(s, h, run, ids), ids);
    if tx.Committed? then tx.db else t
  }

  /** The candidates a round reads. */
  ghost function Read(rs: seq<Receipt>, s: Scope, limit: nat): seq<string> {
    if exists ids :: AreCandidates(rs, s, limit, ids) then
      var ids :| AreCandidates(rs, s, limit, ids);
      ids
    else []
  }

  lemma ReadIs(rs: seq<Receipt>, s: Scope, limit: nat, ids: seq<string>)
    requires AreCandidates(rs, s, limit, ids)
    ensures Read(rs, s, limit) == ids
  {
    var all, out := EligibleKeys(rs, s), Read(rs, s, limit);
    var a: seq<SortKey> :| IsFirst(a, all, limit) && |ids| == |a| && forall i | 0 <= i < |ids| :: ids[i] == a[i].id;
    var b: seq<SortKey> :| IsFirst(b, all, limit) && |out| == |b| && forall i | 0 <= i < |out| :: out[i] == b[i].id;
    FirstIsUnique(a, b, all, limit);
  }

  /** The batches the loop forms from these tables, with this many rows to go. */
  ghost function Formed(t: Tables, s: Scope, h: Digest, run: JobRun, rows: nat, batchSize: nat): set<BatchId>
    decreases rows
  {
    var ids := Read(t.receipts, s, Min(batchSize, rows));
    if rows == 0 || ids == [] then {}
    else
      {IdOf(s, ids)}
      + if |ids| <= rows then Formed(AfterBatch(t, s, h, run, ids), s, h, run, rows - |ids|, batchSize) else {}
  }

  lemma FormedStep(t: Tables, s: Scope, h: Digest, run: JobRun, rows: nat, batchSize: nat, ids: seq<string>)
    requires Dense(t.receipts) && rows > 0 && ids != [] && AreCandidates(t.receipts, s, Min(batchSize, rows), ids)
    ensures |ids| <= rows
    ensures Formed(t, s, h, run, rows, batchSize) ==
      {IdOf(s, ids)} + Formed(AfterBatch(t, s, h, run, ids), s, h, run, rows - |ids|, batchSize)
  {
    ReadIs(t.receipts, s, Min(batchSize, rows), ids);
    CandidatesQualify(t.receipts, s, Min(batchSize, rows), ids);
  }

  lemma FormedEnds(t: Tables, s: Scope, h: Digest, run: JobRun, rows: nat, batchSize: nat)
    requires rows == 0 || AreCandidates(t.receipts, s, Min(batchSize, rows), [])
    ensures Formed(t, s, h, run, rows, batchSize) == {}
  {
    if rows > 0 {
      ReadIs(t.receipts, s, Min(batchSize, rows), []);
    }
  }

  lemma FewerBatches(h: Digest, some: set<BatchId>, all: set<BatchId>)
    requires IsDigest(h, all) && some <= all
    ensures IsDigest(h, some)
  {
  }

  /**
   The loop of the retention job. With nothing interleaved it never meets the race error, compacts
   exactly as many receipts as are eligible up to its limit, and lowers the eligible count by that
   number. Digests need only tell apart the batches spent before and those formed by this run.
  */
  method CompactBatches(db: Store, s: Scope, h: Digest, run: JobRun, ghost spent: set<BatchId>, maxRows: nat,
                        batchSize: nat)
    returns (compacted: nat, error: Option<StoreError>)
    requires Dense(db.receipts) && SpentKeys(db.receipts, s.client, h, spent)
    requires IsDigest(h, spent + Formed(db.State(), s, h, run, maxRows, batchSize))
    requires run.now >= s.cutoff || "data_retention" !in s.kinds
    modifies db
    ensures error.None?
    ensures batchSize > 0 ==> compacted == Min(maxRows, EligibleCount(old(db.receipts), s))
    ensures EligibleCount(db.receipts, s) == EligibleCount(old(db.receipts), s) - compacted
    ensures Dense(db.receipts)
    ensures SpentKeys(db.receipts, s.client, h, spent + Formed(old(db.State()), s, h, run, maxRows, batchSize))
  {
    hide Formed, SpentKeys, IsDigest, Dense, AreCandidates, AfterBatch, EligibleCount;
    ghost var t := db.State();
    ghost var done, all := spent, spent + Formed(t, s, h, run, maxRows, batchSize);
    compacted, error := 0, None;
    while compacted < maxRows
      invariant compacted <= maxRows && error.None?
      invariant EligibleCount(db.receipts, s) + compacted == EligibleCount(t.receipts, s)
      invariant Dense(db.receipts) && SpentKeys(db.receipts, s.client, h, done)
      invariant done + Formed(db.State(), s, h, run, maxRows - compacted, batchSize) == all
    {
      var limit := Min(batchSize, maxRows - compacted);
      var ids := Candidates(db, s, limit);
      CandidatesQualify(db.receipts, s, limit, ids);
      if ids == [] {
        break;
      }
      FormedStep(db.State(), s, h, run, maxRows - compacted, batchSize, ids);
      FewerBatches(h, done + {IdOf(s, ids)}, all);
      var r := CompactRound(db, s, h, run, done, limit, ids);
      done := done + {IdOf(s, ids)};
      var counts := match r case Ok(outcome) => !outcome.ConflictAt? case Err(_) => false;
      if counts {
        compacted := compacted + |ids|;
      } else {
        error := match r case Ok(_) => Some(Domain("unexpected_revision_conflict")) case Err(e) => Some(e);
        break;
      }
    }
    FormedEnds(db.State(), s, h, run, maxRows - compacted, batchSize);
    assert done == all;
  }
}
