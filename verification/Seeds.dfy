/**
 The overlay's seeds: what one step of a boot does to the tables. A boot writes the system defaults,
 retires the call_log category, then loads categories, rules, policies and the client profile.
*/
module Seeds {
  import opened Wrappers
  import opened Text
  import opened Schema
  import opened StoreCore

  datatype Kind = Category | Rule | Policy | Profile

  function TableOf(kind: Kind): string {
    match kind
    case Category => "email_triage_category"
    case Rule => "email_triage_rule"
    case Policy => "work_queue_policy"
    case Profile => "client_profile"
  }

  function KeyKind(kind: Kind): string {
    match kind
    case Category => "category"
    case Rule => "rule"
    case Policy => "policy"
    case Profile => "client_profile"
  }

  /** One content of one seed; `pin` is what a rule pins. */
  datatype Version = Version(kind: Kind, id: string, text: string, pin: Pin)

  /** `valid`: does the slice store's own validation accept it? */
  datatype Seed = Seed(version: Version, valid: bool)

  /** The client, the truncated digest of a serialized seed, and the text its store keeps of it. */
  datatype Loader = Loader(client: string, hash: Version -> string, stored: Version -> string)

  datatype Default = Default(id: string, text: string, system: bool)

  const FALLBACK := "inbound_email"
  const CALL_LOG := "call_log"
  const DEFAULTS := [
    Default(FALLBACK, "Inbound email", true),
    Default("operator_note", "Operator note", false)
  ]

  const SEED_ACTOR := "client_overlay_loader"
  const DEFAULT_ACTOR := "system_seed"

  predicate IsSeedActor(actor: string) {
    actor == SEED_ACTOR || actor == "system" || actor == DEFAULT_ACTOR
  }

  function SeedEntity(client: string, kind: Kind, id: string): Entity {
    Entity(client, TableOf(kind), id)
  }

  function SeedRow(client: string, kind: Kind, id: string): RowKey {
    RowKey(client, TableOf(kind), id)
  }

  // ------------------------------------------------------------------
  // Keys

  const OVERLAY := "overlay:"

  function SeedKey(hash: Version -> string, v: Version): string {
    OVERLAY + KeyKind(v.kind) + [':'] + (v.id + [':'] + hash(v))
  }

  function DefaultKey(id: string): string {
    "seed:" + id
  }

  function RetireRuleKey(id: string): string {
    OVERLAY + "retire" + [':'] + ("rule:" + id)
  }

  const RETIRE_CATEGORY_KEY := OVERLAY + "retire" + [':'] + "category:call_log"

  /** The digests of these versions are hex, and no two contents of one seed id share one. */
  ghost predicate IsHash(hash: Version -> string, versions: set<Version>) {
    && (forall v | v in versions :: Lacks(hash(v), ':'))
    && (forall v, w | v in versions && w in versions && v.kind == w.kind && v.id == w.id && hash(v) == hash(w) ::
        v == w)
  }

  lemma KeyKindLacksColon(kind: Kind)
    ensures Lacks(KeyKind(kind), ':')
  {
  }

  /** A seed key names one version: kind, id and content. */
  lemma SeedKeyInjective(hash: Version -> string, versions: set<Version>, v: Version, w: Version)
    requires IsHash(hash, versions) && v in versions && w in versions && SeedKey(hash, v) == SeedKey(hash, w)
    ensures v == w
  {
    var tv, tw := v.id + [':'] + hash(v), w.id + [':'] + hash(w);
    assert SeedKey(hash, v)[|OVERLAY|..] == KeyKind(v.kind) + [':'] + tv;
    assert SeedKey(hash, w)[|OVERLAY|..] == KeyKind(w.kind) + [':'] + tw;
    KeyKindLacksColon(v.kind);
    KeyKindLacksColon(w.kind);
    FirstSeparator(KeyKind(v.kind), tv, KeyKind(w.kind), tw, ':');
    LastSeparator(v.id, hash(v), w.id, hash(w), ':');
  }

  lemma SeedKeyIsNotDefault(hash: Version -> string, v: Version, id: string)
    ensures SeedKey(hash, v) != DefaultKey(id)
  {
    assert SeedKey(hash, v)[0] == 'o' && DefaultKey(id)[0] == 's';
  }

  lemma DefaultKeyInjective(a: string, b: string)
    requires DefaultKey(a) == DefaultKey(b)
    ensures a == b
  {
    assert DefaultKey(a)[5..] == a && DefaultKey(b)[5..] == b;
  }

  // ------------------------------------------------------------------
  // Reads

  /** Was the newest applied receipt of the entity written by someone other than the seeders? */
  predicate OperatorOwned(t: Tables, e: Entity) {
    var actor := LatestAppliedActor(t, e);
    actor.Some? && !IsSeedActor(actor.value)
  }

  predicate Active(t: Tables, client: string, kind: Kind, id: string) {
    var k := SeedRow(client, kind, id);
    k in t.rows && !t.rows[k].deleted
  }

  predicate NoCategoryActive(t: Tables, client: string) {
    forall k | k in t.rows && k.client == client && k.table == TableOf(Category) :: t.rows[k].deleted
  }

  /** `category_exists`: with no active category at all, the default ids count as existing. */
  predicate CategoryKnown(t: Tables, client: string, id: string) {
    if NoCategoryActive(t, client) then exists i | 0 <= i < |DEFAULTS| :: DEFAULTS[i].id == id
    else Active(t, client, Category, id)
  }

  predicate ActivePin(t: Tables, client: string, category: string, k: RowKey) {
    k in t.rows && k.client == client && k.table == TableOf(Rule) && !t.rows[k].deleted
      && t.rows[k].pin.category == category
  }

  predicate Pinned(t: Tables, client: string, category: string) {
    exists k | k in t.rows :: ActivePin(t, client, category, k)
  }

  // ------------------------------------------------------------------
  // Writes

  /** INSERT … ON CONFLICT DO UPDATE: undeletes, and keeps the system flag of an existing row. */
  function PutRow(rows: map<RowKey, Row>, k: RowKey, text: string, pin: Pin, system: bool): map<RowKey, Row> {
    rows[k := Row(text, false, pin, if k in rows then rows[k].system else system)]
  }

  function HideRow(rows: map<RowKey, Row>, k: RowKey): map<RowKey, Row> {
    if k in rows then rows[k := rows[k].(deleted := true)] else rows
  }

  function Put(k: RowKey, text: string, pin: Pin, system: bool): Write {
    Rows((rows, id) => Ok(PutRow(rows, k, text, pin, system)))
  }

  function Hide(k: RowKey): Write {
    Rows((rows, id) => Ok(HideRow(rows, k)))
  }

  /** The rows after a version is put. */
  function SeedRows(L: Loader, rows: map<RowKey, Row>, v: Version): map<RowKey, Row> {
    PutRow(rows, SeedRow(L.client, v.kind, v.id), L.stored(v), v.pin, false)
  }

  /** The rows after a default is put. */
  function DefaultRows(L: Loader, rows: map<RowKey, Row>, d: Default): map<RowKey, Row> {
    PutRow(rows, SeedRow(L.client, Category, d.id), d.text, NO_PIN, d.system)
  }

  function DefaultPut(L: Loader, d: Default): Write {
    Put(SeedRow(L.client, Category, d.id), d.text, NO_PIN, d.system)
  }

  function SeedRequest(e: Entity, change: string, actor: string, key: string, before: Option<string>,
                       after: Option<string>, now: nat): Request
  {
    var actorKind := if actor == DEFAULT_ACTOR then System else Operator;
    Request(e, change, actor, actorKind, None, key, None, None, before, after, now)
  }

  /** The tables a step leaves, and the error that ends the boot, if any. */
  datatype StepResult = StepResult(db: Tables, error: Option<StoreError>)

  function Mutated(t: Tables, req: Request, w: Write): StepResult {
    match MutateTx(t, req, w)
    case Committed(db, _) => StepResult(db, None)
    case RolledBack(e, captured) => StepResult(AuditTx(t, req, e, captured), Some(e))
  }

  function Refused(t: Tables, message: string): StepResult {
    StepResult(t, Some(Domain(message)))
  }

  function Done(t: Tables): StepResult {
    StepResult(t, None)
  }

  function CurrentText(t: Tables, client: string, kind: Kind, id: string): Option<string> {
    if kind.Rule? && Active(t, client, kind, id) then Some(t.rows[SeedRow(client, kind, id)].text) else None
  }

  /** The default categories a client has never had a row for. */
  function DefaultTx(L: Loader, t: Tables, d: Default, now: nat): StepResult {
    if SeedRow(L.client, Category, d.id) in t.rows then Done(t)
    else
      Mutated(t, SeedRequest(SeedEntity(L.client, Category, d.id), "upsert", DEFAULT_ACTOR, DefaultKey(d.id), None,
                             Some(d.text), now),
              DefaultPut(L, d))
  }

  predicate Accepted(L: Loader, t: Tables, seed: Seed) {
    && seed.valid
    && (seed.version.kind.Rule? ==> CategoryKnown(t, L.client, seed.version.pin.category))
  }

  function SeedUpsert(L: Loader, t: Tables, v: Version, now: nat): Request {
    SeedRequest(SeedEntity(L.client, v.kind, v.id), "upsert", SEED_ACTOR, SeedKey(L.hash, v),
                CurrentText(t, L.client, v.kind, v.id), Some(L.stored(v)), now)
  }

  function SeedPut(L: Loader, v: Version): Write {
    Put(SeedRow(L.client, v.kind, v.id), L.stored(v), v.pin, false)
  }

  /** Operator-owned categories, rules and policies are skipped; the profile has no such guard. */
  predicate Skipped(L: Loader, t: Tables, v: Version) {
    !v.kind.Profile? && OperatorOwned(t, SeedEntity(L.client, v.kind, v.id))
  }

  function LoadTx(L: Loader, t: Tables, seed: Seed, now: nat): StepResult {
    var v := seed.version;
    if Skipped(L, t, v) then Done(t)
    else if !seed.valid then Refused(t, "seed_invalid")
    else if !Accepted(L, t, seed) then Refused(t, "email_triage_category_unknown")
    else Mutated(t, SeedUpsert(L, t, v, now), SeedPut(L, v))
  }

  function RetireRuleTx(L: Loader, t: Tables, id: string, now: nat): StepResult {
    var e := SeedEntity(L.client, Rule, id);
    if OperatorOwned(t, e) then Done(t)
    else if !Active(t, L.client, Rule, id) then Refused(t, "email_triage_rule_not_found")
    else
      Mutated(t, SeedRequest(e, "delete", SEED_ACTOR, RetireRuleKey(id), CurrentText(t, L.client, Rule, id), None, now),
              Hide(SeedRow(L.client, Rule, id)))
  }

  /** Retire the first `n` listed rules in turn, up to the first error. */
  function RetireRulesTx(L: Loader, t: Tables, rules: seq<string>, n: nat, now: nat): StepResult
    requires n <= |rules|
  {
    if n == 0 then Done(t)
    else
      var r := RetireRulesTx(L, t, rules, n - 1, now);
      if r.error.Some? then r else RetireRuleTx(L, r.db, rules[n - 1], now)
  }

  function DeleteCategoryTx(L: Loader, t: Tables, id: string, now: nat): StepResult {
    if !Active(t, L.client, Category, id) then Refused(t, "email_triage_category_not_found")
    else if t.rows[SeedRow(L.client, Category, id)].system then Refused(t, "email_triage_category_is_system")
    else if Pinned(t, L.client, id) then Refused(t, "email_triage_category_in_use")
    else
      Mutated(t, SeedRequest(SeedEntity(L.client, Category, id), "delete", SEED_ACTOR, RETIRE_CATEGORY_KEY, None,
                             None, now),
              Hide(SeedRow(L.client, Category, id)))
  }

  /** `rules` lists, in evaluation order, the active rules that pin call_log. */
  function RetireTx(L: Loader, t: Tables, rules: seq<string>, now: nat): StepResult {
    if !Active(t, L.client, Category, CALL_LOG) then Done(t)
    else if OperatorOwned(t, SeedEntity(L.client, Category, CALL_LOG)) then Done(t)
    else
      var r := RetireRulesTx(L, t, rules, |rules|, now);
      if r.error.Some? then r
      else if Pinned(r.db, L.client, CALL_LOG) then r
      else DeleteCategoryTx(L, r.db, CALL_LOG, now)
  }

  datatype Step = EnsureDefault(d: Default) | Retire(rules: seq<string>) | Load(seed: Seed)

  function StepTx(L: Loader, t: Tables, step: Step, now: nat): StepResult {
    match step
    case EnsureDefault(d) => DefaultTx(L, t, d, now)
    case Retire(rules) => RetireTx(L, t, rules, now)
    case Load(seed) => LoadTx(L, t, seed, now)
  }

  // ------------------------------------------------------------------
  // What one receipted row write does

  /** One more receipt, not an applied one; nothing else. */
  predicate Quiet(t: Tables, after: Tables) {
    && after.rows == t.rows && after.revisions == t.revisions && after.jobs == t.jobs
    && |after.receipts| == |t.receipts| + 1 && after.receipts[..|t.receipts|] == t.receipts
    && !after.receipts[|t.receipts|].outcome.Applied?
  }

  /** One applied receipt, its entity's revision up by one, and these rows. */
  predicate Wrote(t: Tables, after: Tables, e: Entity, actor: string, key: string, rows: map<RowKey, Row>) {
    && after.rows == rows && after.revisions == t.revisions[e := Revision(t, e).GetOr(0) + 1] && after.jobs == t.jobs
    && |after.receipts| == |t.receipts| + 1 && after.receipts[..|t.receipts|] == t.receipts
    && var r := after.receipts[|t.receipts|];
      r.outcome.Applied? && r.entity == e && r.actorId == actor && r.key == key
  }

  lemma RowWriteEffect(t: Tables, req: Request, w: Write, rows: map<RowKey, Row>)
    requires req.expected.None? && w.Rows? && w.update(t.rows, NextReceiptId(t)) == Ok(rows)
    ensures var r := Mutated(t, req, w);
      && r.error.None?
      && if KeyApplied(t.receipts, req.entity.client, req.key) then Quiet(t, r.db)
         else Wrote(t, r.db, req.entity, req.actorId, req.key, rows)
  {
  }

  lemma LoadEffect(L: Loader, t: Tables, v: Version, now: nat)
    ensures var r := Mutated(t, SeedUpsert(L, t, v, now), SeedPut(L, v));
      && r.error.None?
      && if KeyApplied(t.receipts, L.client, SeedKey(L.hash, v)) then Quiet(t, r.db)
         else Wrote(t, r.db, SeedEntity(L.client, v.kind, v.id), SEED_ACTOR, SeedKey(L.hash, v),
                    SeedRows(L, t.rows, v))
  {
    RowWriteEffect(t, SeedUpsert(L, t, v, now), SeedPut(L, v),
                   SeedRows(L, t.rows, v));
  }

  lemma DefaultEffect(L: Loader, t: Tables, d: Default, now: nat)
    requires SeedRow(L.client, Category, d.id) !in t.rows
    ensures var r := DefaultTx(L, t, d, now);
      && r.error.None?
      && if KeyApplied(t.receipts, L.client, DefaultKey(d.id)) then Quiet(t, r.db)
         else Wrote(t, r.db, SeedEntity(L.client, Category, d.id), DEFAULT_ACTOR, DefaultKey(d.id),
                    DefaultRows(L, t.rows, d))
  {
    var req := SeedRequest(SeedEntity(L.client, Category, d.id), "upsert", DEFAULT_ACTOR, DefaultKey(d.id), None,
                           Some(d.text), now);
    RowWriteEffect(t, req, DefaultPut(L, d),
                   DefaultRows(L, t.rows, d));
  }

  lemma HideEffect(L: Loader, t: Tables, kind: Kind, id: string, key: string, before: Option<string>, now: nat)
    ensures var r := Mutated(t,
                             SeedRequest(SeedEntity(L.client, kind, id), "delete", SEED_ACTOR, key, before, None, now),
                             Hide(SeedRow(L.client, kind, id)));
      && r.error.None?
      && if KeyApplied(t.receipts, L.client, key) then Quiet(t, r.db)
         else Wrote(t, r.db, SeedEntity(L.client, kind, id), SEED_ACTOR, key,
                    HideRow(t.rows, SeedRow(L.client, kind, id)))
  {
    RowWriteEffect(t, SeedRequest(SeedEntity(L.client, kind, id), "delete", SEED_ACTOR, key, before, None, now),
                   Hide(SeedRow(L.client, kind, id)), HideRow(t.rows, SeedRow(L.client, kind, id)));
  }

  /** A quiet write changes no lookup. */
  lemma QuietLookups(t: Tables, after: Tables)
    requires Quiet(t, after)
    ensures forall client, key :: KeyApplied(after.receipts, client, key) <==> KeyApplied(t.receipts, client, key)
    ensures forall e :: OperatorOwned(after, e) <==> OperatorOwned(t, e)
  {
    var r := after.receipts[|t.receipts|];
    assert after.receipts == t.receipts + [r];
    forall client, key ensures KeyApplied(after.receipts, client, key) <==> KeyApplied(t.receipts, client, key) {
      FindAppliedAppend(t.receipts, r, client, key);
    }
    forall e ensures OperatorOwned(after, e) <==> OperatorOwned(t, e) {
      NewestAppend(t.receipts, r, OfEntity(e));
    }
  }

  /** A write adds its own key, and only touches the ownership of its own entity. */
  lemma WroteLookups(t: Tables, after: Tables, e: Entity, actor: string, key: string, rows: map<RowKey, Row>)
    requires Wrote(t, after, e, actor, key, rows)
    ensures forall client, k ::
      KeyApplied(after.receipts, client, k) <==> KeyApplied(t.receipts, client, k) || (client == e.client && k == key)
    ensures forall other | other != e :: OperatorOwned(after, other) <==> OperatorOwned(t, other)
    ensures IsSeedActor(actor) && !OperatorOwned(t, e) ==> !OperatorOwned(after, e)
  {
    var r := after.receipts[|t.receipts|];
    assert after.receipts == t.receipts + [r];
    forall client, k
      ensures KeyApplied(after.receipts, client, k) <==>
        KeyApplied(t.receipts, client, k) || (client == e.client && k == key)
    {
      FindAppliedAppend(t.receipts, r, client, k);
    }
    forall other | other != e ensures OperatorOwned(after, other) <==> OperatorOwned(t, other) {
      NewestAppend(t.receipts, r, OfEntity(other));
    }
    NewestAppend(t.receipts, r, OfEntity(e));
  }
}
