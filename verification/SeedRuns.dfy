/**
 Sequences of boots, flattened to their steps: whole boots, boots that crashed after any step, with
 any overlays. What the seeded rows converge to when nobody else writes them.
*/
module SeedRuns {
  import opened Wrappers
  import opened Schema
  import opened StoreCore
  import opened Seeds

  datatype Event = Event(step: Step, now: nat)

  function Run(L: Loader, t: Tables, events: seq<Event>): Tables {
    if events == [] then t
    else
      var last := events[|events| - 1];
      StepTx(L, Run(L, t, events[..|events| - 1]), last.step, last.now).db
  }

  /** The boots considered here: system defaults, and overlays that do not seed call_log. */
  predicate Plain(step: Step) {
    match step
    case EnsureDefault(d) => d in DEFAULTS
    case Retire(_) => true
    case Load(seed) => !(seed.version.kind.Category? && seed.version.id == CALL_LOG)
  }

  predicate AllPlain(events: seq<Event>) {
    forall i | 0 <= i < |events| :: Plain(events[i].step)
  }

  /** The versions the overlays of these boots bring. */
  function Loaded(events: seq<Event>): set<Version> {
    set i | 0 <= i < |events| && events[i].step.Load? :: events[i].step.seed.version
  }

  predicate Brings(universe: set<Version>, step: Step) {
    step.Load? ==> step.seed.version in universe
  }

  /** The version a step hands to its store, when the store takes it. */
  function Offered(L: Loader, t: Tables, step: Step): seq<Version> {
    if step.Load? && !Skipped(L, t, step.seed.version) && Accepted(L, t, step.seed) then [step.seed.version] else []
  }

  function Versions(L: Loader, t: Tables, events: seq<Event>): seq<Version> {
    if events == [] then []
    else
      var front := events[..|events| - 1];
      Versions(L, t, front) + Offered(L, Run(L, t, front), events[|events| - 1].step)
  }

  /** The last version of a seed that had not appeared before. */
  function LastFresh(versions: seq<Version>, kind: Kind, id: string): Option<Version> {
    if versions == [] then None
    else
      var front, v := versions[..|versions| - 1], versions[|versions| - 1];
      if v.kind == kind && v.id == id && v !in front then Some(v) else LastFresh(front, kind, id)
  }

  /** How many different versions of a seed appeared. */
  function FreshCount(versions: seq<Version>, kind: Kind, id: string): nat {
    if versions == [] then 0
    else
      var front, v := versions[..|versions| - 1], versions[|versions| - 1];
      FreshCount(front, kind, id) + if v.kind == kind && v.id == id && v !in front then 1 else 0
  }

  lemma FreshAppend(versions: seq<Version>, v: Version, kind: Kind, id: string)
    ensures var first := v.kind == kind && v.id == id && v !in versions;
      && LastFresh(versions + [v], kind, id) == (if first then Some(v) else LastFresh(versions, kind, id))
      && FreshCount(versions + [v], kind, id) == FreshCount(versions, kind, id) + if first then 1 else 0
  {
    assert (versions + [v])[..|versions|] == versions;
  }

  // ------------------------------------------------------------------
  // The invariant

  predicate DefaultWritten(L: Loader, t: Tables, kind: Kind, id: string) {
    kind.Category? && KeyApplied(t.receipts, L.client, DefaultKey(id))
  }

  ghost predicate SeedOnly(L: Loader, t: Tables) {
    forall kind: Kind, id: string :: !OperatorOwned(t, SeedEntity(L.client, kind, id))
  }

  ghost predicate KeysMatch(L: Loader, t: Tables, versions: seq<Version>, universe: set<Version>) {
    forall v | v in universe :: KeyApplied(t.receipts, L.client, SeedKey(L.hash, v)) <==> v in versions
  }

  predicate ShowsDefault(row: Row, id: string) {
    exists i | 0 <= i < |DEFAULTS| :: DEFAULTS[i].id == id && row.text == DEFAULTS[i].text && row.pin == NO_PIN
  }

  /** A row shows the last fresh version, or else the default if that was written. */
  predicate RowMatches(L: Loader, t: Tables, versions: seq<Version>, kind: Kind, id: string) {
    var k := SeedRow(L.client, kind, id);
    match LastFresh(versions, kind, id)
    case Some(v) => k in t.rows && t.rows[k].text == L.stored(v) && t.rows[k].pin == v.pin && !t.rows[k].deleted
    case None =>
      && (k in t.rows <==> DefaultWritten(L, t, kind, id))
      && (k in t.rows ==> ShowsDefault(t.rows[k], id) && !t.rows[k].deleted)
  }

  ghost predicate RowsMatch(L: Loader, t: Tables, versions: seq<Version>) {
    forall kind: Kind, id: string :: RowMatches(L, t, versions, kind, id)
  }

  predicate RevisionMatches(L: Loader, t: Tables, versions: seq<Version>, kind: Kind, id: string) {
    Revision(t, SeedEntity(L.client, kind, id)).GetOr(0) ==
    FreshCount(versions, kind, id) + if DefaultWritten(L, t, kind, id) then 1 else 0
  }

  ghost predicate RevisionsMatch(L: Loader, t: Tables, versions: seq<Version>) {
    forall kind: Kind, id: string :: RevisionMatches(L, t, versions, kind, id)
  }

  ghost predicate Inv(L: Loader, t: Tables, versions: seq<Version>, universe: set<Version>) {
    && SeedOnly(L, t)
    && KeysMatch(L, t, versions, universe)
    && RowsMatch(L, t, versions)
    && RevisionsMatch(L, t, versions)
    && !Active(t, L.client, Category, CALL_LOG)
  }

  // ------------------------------------------------------------------
  // One step keeps it

  lemma QuietKeepsInv(L: Loader, t: Tables, after: Tables, versions: seq<Version>, universe: set<Version>)
    requires Inv(L, t, versions, universe) && Quiet(t, after)
    ensures Inv(L, after, versions, universe)
  {
    QuietLookups(t, after);
    forall kind: Kind, id: string
      ensures RowMatches(L, after, versions, kind, id) && RevisionMatches(L, after, versions, kind, id)
    {
      assert RowMatches(L, t, versions, kind, id) && RevisionMatches(L, t, versions, kind, id);
    }
  }

  /** A version that appeared before changes nothing the invariant sees. */
  lemma StaleVersionKeepsInv(L: Loader, t: Tables, versions: seq<Version>, universe: set<Version>, v: Version)
    requires Inv(L, t, versions, universe) && v in versions
    ensures Inv(L, t, versions + [v], universe)
  {
    forall kind: Kind, id: string
      ensures RowMatches(L, t, versions + [v], kind, id) && RevisionMatches(L, t, versions + [v], kind, id)
    {
      FreshAppend(versions, v, kind, id);
      assert RowMatches(L, t, versions, kind, id) && RevisionMatches(L, t, versions, kind, id);
    }
  }

  lemma EntitiesDiffer(client: string, kind: Kind, id: string, kind': Kind, id': string)
    ensures SeedEntity(client, kind, id) == SeedEntity(client, kind', id') <==> kind == kind' && id == id'
    ensures SeedRow(client, kind, id) == SeedRow(client, kind', id') <==> kind == kind' && id == id'
  {
    assert TableOf(Category)[0] == 'e' && TableOf(Rule)[0] == 'e' && TableOf(Policy)[0] == 'w'
      && TableOf(Profile)[0] == 'c';
    assert TableOf(Category)[13] == 'c' && TableOf(Rule)[13] == 'r';
  }

  lemma FreshVersionKeys(L: Loader, t: Tables, after: Tables, versions: seq<Version>, universe: set<Version>,
                         v: Version,
                         rows: map<RowKey, Row>)
    requires IsHash(L.hash, universe) && KeysMatch(L, t, versions, universe) && v in universe
    requires Wrote(t, after, SeedEntity(L.client, v.kind, v.id), SEED_ACTOR, SeedKey(L.hash, v), rows)
    ensures KeysMatch(L, after, versions + [v], universe)
    ensures forall id :: KeyApplied(after.receipts, L.client, DefaultKey(id)) <==>
      KeyApplied(t.receipts, L.client, DefaultKey(id))
  {
    WroteLookups(t, after, SeedEntity(L.client, v.kind, v.id), SEED_ACTOR, SeedKey(L.hash, v), rows);
    forall w | w in universe ensures KeyApplied(after.receipts, L.client, SeedKey(L.hash, w)) <==> w in versions + [v] {
      if SeedKey(L.hash, w) == SeedKey(L.hash, v) {
        SeedKeyInjective(L.hash, universe, w, v);
      }
    }
    forall id
      ensures KeyApplied(after.receipts, L.client, DefaultKey(id)) <==> KeyApplied(t.receipts, L.client, DefaultKey(id))
    {
      SeedKeyIsNotDefault(L.hash, v, id);
    }
  }

  lemma FreshVersionKeepsInv(L: Loader, t: Tables, after: Tables, versions: seq<Version>, universe: set<Version>,
                             v: Version)
    requires IsHash(L.hash, universe) && Inv(L, t, versions, universe) && v in universe && v !in versions
      && !(v.kind.Category? && v.id == CALL_LOG)
    requires Wrote(t, after, SeedEntity(L.client, v.kind, v.id), SEED_ACTOR, SeedKey(L.hash, v),
                   SeedRows(L, t.rows, v))
    ensures Inv(L, after, versions + [v], universe)
  {
    var rows := SeedRows(L, t.rows, v);
    FreshVersionKeys(L, t, after, versions, universe, v, rows);
    WroteLookups(t, after, SeedEntity(L.client, v.kind, v.id), SEED_ACTOR, SeedKey(L.hash, v), rows);
    forall kind: Kind, id: string
      ensures RowMatches(L, after, versions + [v], kind, id) && RevisionMatches(L, after, versions + [v], kind, id)
    {
      FreshAppend(versions, v, kind, id);
      EntitiesDiffer(L.client, kind, id, v.kind, v.id);
      assert RowMatches(L, t, versions, kind, id) && RevisionMatches(L, t, versions, kind, id);
    }
    EntitiesDiffer(L.client, Category, CALL_LOG, v.kind, v.id);
  }

  lemma LoadKeepsInv(L: Loader, t: Tables, versions: seq<Version>, universe: set<Version>, seed: Seed, now: nat)
    requires IsHash(L.hash, universe) && Inv(L, t, versions, universe) && Plain(Load(seed)) && seed.version in universe
    ensures Inv(L, LoadTx(L, t, seed, now).db, versions + Offered(L, t, Load(seed)), universe)
  {
    var v := seed.version;
    if Skipped(L, t, v) || !Accepted(L, t, seed) {
      assert versions + [] == versions;
    } else {
      LoadEffect(L, t, v, now);
      assert KeyApplied(t.receipts, L.client, SeedKey(L.hash, v)) <==> v in versions;
      var after := Mutated(t, SeedUpsert(L, t, v, now), SeedPut(L, v)).db;
      if v in versions {
        QuietKeepsInv(L, t, after, versions, universe);
        StaleVersionKeepsInv(L, after, versions, universe, v);
      } else {
        FreshVersionKeepsInv(L, t, after, versions, universe, v);
      }
    }
  }

  lemma WrittenDefaultKeepsInv(L: Loader, t: Tables, after: Tables, versions: seq<Version>, universe: set<Version>,
                               d: Default)
    requires Inv(L, t, versions, universe) && d in DEFAULTS && SeedRow(L.client, Category, d.id) !in t.rows
    requires !KeyApplied(t.receipts, L.client, DefaultKey(d.id))
    requires Wrote(t, after, SeedEntity(L.client, Category, d.id), DEFAULT_ACTOR, DefaultKey(d.id),
                   DefaultRows(L, t.rows, d))
    ensures Inv(L, after, versions, universe)
  {
    var rows := DefaultRows(L, t.rows, d);
    WroteLookups(t, after, SeedEntity(L.client, Category, d.id), DEFAULT_ACTOR, DefaultKey(d.id), rows);
    forall v | v in universe ensures KeyApplied(after.receipts, L.client, SeedKey(L.hash, v)) <==> v in versions {
      SeedKeyIsNotDefault(L.hash, v, d.id);
    }
    assert RowMatches(L, t, versions, Category, d.id);
    forall kind: Kind, id: string
      ensures RowMatches(L, after, versions, kind, id) && RevisionMatches(L, after, versions, kind, id)
    {
      EntitiesDiffer(L.client, kind, id, Category, d.id);
      assert RowMatches(L, t, versions, kind, id) && RevisionMatches(L, t, versions, kind, id);
      if DefaultKey(id) == DefaultKey(d.id) {
        DefaultKeyInjective(id, d.id);
      }
    }
    EntitiesDiffer(L.client, Category, CALL_LOG, Category, d.id);
    assert d.id != CALL_LOG;
  }

  lemma DefaultKeepsInv(L: Loader, t: Tables, versions: seq<Version>, universe: set<Version>, d: Default, now: nat)
    requires Inv(L, t, versions, universe) && d in DEFAULTS
    ensures Inv(L, DefaultTx(L, t, d, now).db, versions, universe)
  {
    if SeedRow(L.client, Category, d.id) !in t.rows {
      assert RowMatches(L, t, versions, Category, d.id);
      DefaultEffect(L, t, d, now);
      WrittenDefaultKeepsInv(L, t, DefaultTx(L, t, d, now).db, versions, universe, d);
    }
  }

  lemma {:induction false} RunKeepsInv(L: Loader, t: Tables, events: seq<Event>, universe: set<Version>)
    requires IsHash(L.hash, universe) && Inv(L, t, [], universe) && AllPlain(events)
    requires forall i | 0 <= i < |events| :: Brings(universe, events[i].step)
    ensures Inv(L, Run(L, t, events), Versions(L, t, events), universe)
  {
    if events != [] {
      var front, last := events[..|events| - 1], events[|events| - 1];
      assert forall i | 0 <= i < |front| :: front[i] == events[i];
      RunKeepsInv(L, t, front, universe);
      var mid, versions := Run(L, t, front), Versions(L, t, front);
      assert Brings(universe, last.step);
      match last.step
      case EnsureDefault(d) =>
        DefaultKeepsInv(L, mid, versions, universe, d, last.now);
        assert versions + [] == versions;
      case Retire(_) =>
        assert versions + [] == versions;
      case Load(seed) => LoadKeepsInv(L, mid, versions, universe, seed, last.now);
    }
  }

  // ------------------------------------------------------------------
  // Main results

  /** Nothing of these versions has been written yet, nor anything else of this client's seeds. */
  ghost predicate Blank(L: Loader, t: Tables, universe: set<Version>) {
    && SeedOnly(L, t)
    && (forall v | v in universe :: !KeyApplied(t.receipts, L.client, SeedKey(L.hash, v)))
    && (forall id: string :: !KeyApplied(t.receipts, L.client, DefaultKey(id)))
    && (forall kind: Kind, id: string ::
        SeedRow(L.client, kind, id) !in t.rows && SeedEntity(L.client, kind, id) !in t.revisions)
  }

  lemma BlankInv(L: Loader, t: Tables, universe: set<Version>)
    requires Blank(L, t, universe)
    ensures Inv(L, t, [], universe)
  {
    forall kind: Kind, id: string ensures RowMatches(L, t, [], kind, id) && RevisionMatches(L, t, [], kind, id) {
      assert SeedRow(L.client, kind, id) !in t.rows;
    }
  }

  /** What holds after any boots from a blank start, if the versions these boots bring do not collide. */
  lemma BlankRunKeepsInv(L: Loader, t: Tables, events: seq<Event>)
    requires IsHash(L.hash, Loaded(events)) && Blank(L, t, Loaded(events)) && AllPlain(events)
    ensures Inv(L, Run(L, t, events), Versions(L, t, events), Loaded(events))
  {
    BlankInv(L, t, Loaded(events));
    forall i | 0 <= i < |events| ensures Brings(Loaded(events), events[i].step) {
    }
    RunKeepsInv(L, t, events, Loaded(events));
  }

  /**
   Over any sequence of boots and crashed boots with any overlays, each seeded row shows the last
   version that had not appeared before: loading A, then B, then A again ends at B. The revision
   counts the different versions, plus the default where that was written first.
  */
  lemma BootsConverge(L: Loader, t: Tables, events: seq<Event>, kind: Kind, id: string)
    requires IsHash(L.hash, Loaded(events)) && Blank(L, t, Loaded(events)) && AllPlain(events)
    ensures RowMatches(L, Run(L, t, events), Versions(L, t, events), kind, id)
    ensures RevisionMatches(L, Run(L, t, events), Versions(L, t, events), kind, id)
  {
    BlankRunKeepsInv(L, t, events);
  }

  lemma MutatedKeepsSound(t: Tables, req: Request, w: Write)
    requires Sound(t)
    ensures Sound(Mutated(t, req, w).db)
  {
    match MutateTx(t, req, w)
    case Committed(_, _) => MutateKeepsSound(t, req, w);
    case RolledBack(e, captured) => InsertContinues(t, req, Failed, Some(ErrorClass(e)), captured, captured);
  }

  lemma RetireRuleKeepsSound(L: Loader, t: Tables, id: string, now: nat)
    requires Sound(t)
    ensures Sound(RetireRuleTx(L, t, id, now).db)
  {
    var e := SeedEntity(L.client, Rule, id);
    MutatedKeepsSound(t, SeedRequest(e, "delete", SEED_ACTOR, RetireRuleKey(id), CurrentText(t, L.client, Rule, id),
                                     None, now),
                      Hide(SeedRow(L.client, Rule, id)));
  }

  lemma {:induction false} RetireRulesKeepSound(L: Loader, t: Tables, rules: seq<string>, n: nat, now: nat)
    requires Sound(t) && n <= |rules|
    ensures Sound(RetireRulesTx(L, t, rules, n, now).db)
  {
    if n > 0 {
      RetireRulesKeepSound(L, t, rules, n - 1, now);
      RetireRuleKeepsSound(L, RetireRulesTx(L, t, rules, n - 1, now).db, rules[n - 1], now);
    }
  }

  lemma RetireKeepsSound(L: Loader, t: Tables, rules: seq<string>, now: nat)
    requires Sound(t)
    ensures Sound(RetireTx(L, t, rules, now).db)
  {
    RetireRulesKeepSound(L, t, rules, |rules|, now);
    var mid := RetireRulesTx(L, t, rules, |rules|, now).db;
    MutatedKeepsSound(mid,
                      SeedRequest(SeedEntity(L.client, Category, CALL_LOG), "delete", SEED_ACTOR,
                                  RETIRE_CATEGORY_KEY, None, None, now),
                      Hide(SeedRow(L.client, Category, CALL_LOG)));
  }

  lemma StepKeepsSound(L: Loader, t: Tables, step: Step, now: nat)
    requires Sound(t)
    ensures Sound(StepTx(L, t, step, now).db)
  {
    match step
    case EnsureDefault(d) =>
      MutatedKeepsSound(t, SeedRequest(SeedEntity(L.client, Category, d.id), "upsert", DEFAULT_ACTOR,
                                       DefaultKey(d.id), None, Some(d.text), now),
                        DefaultPut(L, d));
    case Retire(rules) => RetireKeepsSound(L, t, rules, now);
    case Load(seed) => MutatedKeepsSound(t, SeedUpsert(L, t, seed.version, now), SeedPut(L, seed.version));
  }

  lemma {:induction false} RunKeepsSound(L: Loader, t: Tables, events: seq<Event>)
    requires Sound(t)
    ensures Sound(Run(L, t, events))
  {
    if events != [] {
      RunKeepsSound(L, t, events[..|events| - 1]);
      StepKeepsSound(L, Run(L, t, events[..|events| - 1]), events[|events| - 1].step, events[|events| - 1].now);
    }
  }

  /** A version is applied exactly when some boot offered it, and then exactly once. */
  lemma VersionsApplyOnce(L: Loader, t: Tables, events: seq<Event>, v: Version)
    requires IsHash(L.hash, Loaded(events)) && Blank(L, t, Loaded(events)) && Sound(t) && AllPlain(events)
      && v in Loaded(events)
    ensures var rs := Run(L, t, events).receipts;
      && (KeyApplied(rs, L.client, SeedKey(L.hash, v)) <==> v in Versions(L, t, events))
      && forall i, j | 0 <= i < j < |rs| ::
        !(IsApplied(rs[i], L.client, SeedKey(L.hash, v)) && IsApplied(rs[j], L.client, SeedKey(L.hash, v)))
  {
    BlankRunKeepsInv(L, t, events);
    RunKeepsSound(L, t, events);
  }

  lemma {:induction false} RunConcat(L: Loader, t: Tables, a: seq<Event>, b: seq<Event>)
    ensures Run(L, t, a + b) == Run(L, Run(L, t, a), b)
  {
    if b == [] {
      assert a + b == a;
    } else {
      assert (a + b)[..|a + b| - 1] == a + b[..|b| - 1];
      RunConcat(L, t, a, b[..|b| - 1]);
    }
  }
}
