/**
 States a boot cannot tell apart, and why every step of a boot ends alike from two of them. A
 retirement is given the rules it lists, and equal rows give equal listings.
*/
module SeedAlike {
  import opened Wrappers
  import opened Schema
  import opened StoreCore
  import opened Selection
  import opened Seeds
  import opened SeedRuns

  // ------------------------------------------------------------------
  // The rules a retirement lists

  function PinKey(t: Tables, client: string, id: string): SortKey
    requires SeedRow(client, Rule, id) in t.rows
  {
    SortKey(t.rows[SeedRow(client, Rule, id)].pin.priority, id)
  }

  function PinKeys(t: Tables, client: string): set<SortKey> {
    set k | k in t.rows && ActivePin(t, client, CALL_LOG, k) :: SortKey(t.rows[k].pin.priority, k.id)
  }

  /** `rules` are exactly the active rules that pin call_log, each once, by (priority, rule_id). */
  ghost predicate Lists(t: Tables, client: string, rules: seq<string>) {
    && (forall id :: id in rules <==> ActivePin(t, client, CALL_LOG, SeedRow(client, Rule, id)))
    && (forall i, j | 0 <= i < j < |rules| && SeedRow(client, Rule, rules[i]) in t.rows
        && SeedRow(client, Rule, rules[j]) in t.rows ::
          Before(PinKey(t, client, rules[i]), PinKey(t, client, rules[j])))
  }

  lemma PinKeyNames(t: Tables, client: string, key: SortKey)
    ensures key in PinKeys(t, client) <==>
      ActivePin(t, client, CALL_LOG, SeedRow(client, Rule, key.id)) && PinKey(t, client, key.id) == key
  {
    if ActivePin(t, client, CALL_LOG, SeedRow(client, Rule, key.id)) && PinKey(t, client, key.id) == key {
      assert SeedRow(client, Rule, key.id) in t.rows;
    }
    if key in PinKeys(t, client) {
      var k :| k in t.rows && ActivePin(t, client, CALL_LOG, k) && SortKey(t.rows[k].pin.priority, k.id) == key;
      assert k == SeedRow(client, Rule, key.id);
    }
  }

  function KeysOf(t: Tables, client: string, rules: seq<string>): seq<SortKey>
    requires forall id | id in rules :: SeedRow(client, Rule, id) in t.rows
  {
    seq(|rules|, i requires 0 <= i < |rules| => PinKey(t, client, rules[i]))
  }

  lemma ListIsFirst(t: Tables, client: string, rules: seq<string>)
    requires Lists(t, client, rules)
    ensures forall id | id in rules :: SeedRow(client, Rule, id) in t.rows
    ensures IsFirst(KeysOf(t, client, rules), PinKeys(t, client), |PinKeys(t, client)|)
  {
    var keys, all := KeysOf(t, client, rules), PinKeys(t, client);
    var taken := set i | 0 <= i < |keys| :: keys[i];
    SizeOfDistinct(keys, taken);
    forall key ensures key in taken <==> key in all {
      PinKeyNames(t, client, key);
      if key in all {
        var i :| 0 <= i < |rules| && rules[i] == key.id;
        assert keys[i] == key;
      }
      if key in taken {
        var i :| 0 <= i < |keys| && keys[i] == key;
        assert rules[i] in rules;
      }
    }
    assert taken == all;
    forall k | k in all ensures k in keys {
      var i :| 0 <= i < |keys| && keys[i] == k;
    }
  }

  /** Equal rows give equal listings. */
  lemma ListsAreEqual(t: Tables, u: Tables, client: string, rules: seq<string>, rules': seq<string>)
    requires t.rows == u.rows && Lists(t, client, rules) && Lists(u, client, rules')
    ensures rules == rules'
  {
    ListIsFirst(t, client, rules);
    ListIsFirst(u, client, rules');
    var keys, keys' := KeysOf(t, client, rules), KeysOf(u, client, rules');
    assert PinKeys(t, client) == PinKeys(u, client);
    FirstIsUnique(keys, keys', PinKeys(t, client), |PinKeys(t, client)|);
    forall i | 0 <= i < |rules| ensures rules[i] == rules'[i] {
      assert keys[i].id == rules[i] && keys'[i].id == rules'[i];
    }
  }

  lemma ListedOnce(t: Tables, client: string, rules: seq<string>, i: nat, j: nat)
    requires Lists(t, client, rules) && i < j < |rules|
    ensures rules[i] != rules[j]
  {
    assert rules[i] in rules && rules[j] in rules;
    BeforeTotal(PinKey(t, client, rules[i]), PinKey(t, client, rules[j]));
  }

  // ------------------------------------------------------------------
  // States a boot cannot tell apart

  predicate Owned(L: Loader, t: Tables, kind: Kind, id: string) {
    OperatorOwned(t, SeedEntity(L.client, kind, id))
  }

  /** The same operator-owned categories, rules and policies. */
  ghost predicate SameOwners(L: Loader, t: Tables, u: Tables) {
    forall kind: Kind, id: string | !kind.Profile? :: Owned(L, t, kind, id) <==> Owned(L, u, kind, id)
  }

  ghost predicate Alike(L: Loader, t: Tables, u: Tables) {
    && t.rows == u.rows && t.revisions == u.revisions && t.jobs == u.jobs
    && SameOwners(L, t, u)
    && (forall key: string :: KeyApplied(t.receipts, L.client, key) <==> KeyApplied(u.receipts, L.client, key))
  }

  /** A retirement has nothing to do. */
  predicate AtRest(L: Loader, t: Tables) {
    !Active(t, L.client, Category, CALL_LOG) || Owned(L, t, Category, CALL_LOG)
  }

  lemma AlikeItself(L: Loader, t: Tables)
    ensures Alike(L, t, t)
  {
  }

  lemma QuietAlike(L: Loader, t: Tables, after: Tables)
    requires Quiet(t, after)
    ensures Alike(L, t, after)
  {
    QuietLookups(t, after);
  }

  /** A seeder's write to a seed it may write changes no owner. */
  lemma WriteKeepsOwners(L: Loader, t: Tables, after: Tables, kind: Kind, id: string, actor: string, key: string,
                         rows: map<RowKey, Row>)
    requires IsSeedActor(actor) && (kind.Profile? || !Owned(L, t, kind, id))
    requires Wrote(t, after, SeedEntity(L.client, kind, id), actor, key, rows)
    ensures SameOwners(L, t, after)
  {
    WroteLookups(t, after, SeedEntity(L.client, kind, id), actor, key, rows);
    forall kind': Kind, id': string | !kind'.Profile? ensures Owned(L, t, kind', id') <==> Owned(L, after, kind', id') {
      EntitiesDiffer(L.client, kind, id, kind', id');
    }
  }

  lemma OwnersChain(L: Loader, t: Tables, t': Tables, u: Tables, u': Tables)
    requires SameOwners(L, t, u) && SameOwners(L, t, t') && SameOwners(L, u, u')
    ensures SameOwners(L, t', u')
  {
    forall kind: Kind, id: string | !kind.Profile? ensures Owned(L, t', kind, id) <==> Owned(L, u', kind, id) {
      assert Owned(L, t, kind, id) <==> Owned(L, t', kind, id);
    }
  }

  lemma AlikeChain(L: Loader, t: Tables, t': Tables, u: Tables, u': Tables)
    requires Alike(L, t, u) && Alike(L, t, t') && Alike(L, u, u')
    ensures Alike(L, t', u')
  {
    hide SameOwners;
    OwnersChain(L, t, t', u, u');
  }

  lemma BothWrote(L: Loader, t: Tables, t': Tables, u: Tables, u': Tables, kind: Kind, id: string, actor: string,
                  key: string, rows: map<RowKey, Row>)
    requires Alike(L, t, u) && SameOwners(L, t', u')
    requires Wrote(t, t', SeedEntity(L.client, kind, id), actor, key, rows)
    requires Wrote(u, u', SeedEntity(L.client, kind, id), actor, key, rows)
    ensures Alike(L, t', u')
  {
    hide SameOwners;
    WroteLookups(t, t', SeedEntity(L.client, kind, id), actor, key, rows);
    WroteLookups(u, u', SeedEntity(L.client, kind, id), actor, key, rows);
  }

  /** Two quiet writes, or two equal row writes, keep states alike. */
  lemma WritesAlike(L: Loader, t: Tables, t': Tables, u: Tables, u': Tables, kind: Kind, id: string, actor: string,
                    key: string, rows: map<RowKey, Row>)
    requires Alike(L, t, u) && IsSeedActor(actor) && (kind.Profile? || !Owned(L, t, kind, id))
    requires var e := SeedEntity(L.client, kind, id);
      if KeyApplied(t.receipts, L.client, key) then Quiet(t, t') && Quiet(u, u')
      else Wrote(t, t', e, actor, key, rows) && Wrote(u, u', e, actor, key, rows)
    ensures Alike(L, t', u')
  {
    assert kind.Profile? || (Owned(L, t, kind, id) <==> Owned(L, u, kind, id));
    hide OperatorOwned, Wrote, Quiet;
    if KeyApplied(t.receipts, L.client, key) {
      QuietAlike(L, t, t');
      QuietAlike(L, u, u');
      AlikeChain(L, t, t', u, u');
    } else {
      WriteKeepsOwners(L, t, t', kind, id, actor, key, rows);
      WriteKeepsOwners(L, u, u', kind, id, actor, key, rows);
      OwnersChain(L, t, t', u, u');
      BothWrote(L, t, t', u, u', kind, id, actor, key, rows);
    }
  }

  // ------------------------------------------------------------------
  // Retirements

  lemma RetireRuleAlike(L: Loader, t: Tables, u: Tables, rule: string, now: nat, later: nat)
    requires Alike(L, t, u)
    ensures Alike(L, RetireRuleTx(L, t, rule, now).db, RetireRuleTx(L, u, rule, later).db)
    ensures RetireRuleTx(L, t, rule, now).error == RetireRuleTx(L, u, rule, later).error
  {
    assert Owned(L, t, Rule, rule) <==> Owned(L, u, Rule, rule);
    if !Owned(L, t, Rule, rule) && Active(t, L.client, Rule, rule) {
      HideEffect(L, t, Rule, rule, RetireRuleKey(rule), CurrentText(t, L.client, Rule, rule), now);
      HideEffect(L, u, Rule, rule, RetireRuleKey(rule), CurrentText(u, L.client, Rule, rule), later);
      WritesAlike(L, t, RetireRuleTx(L, t, rule, now).db, u, RetireRuleTx(L, u, rule, later).db,
                  Rule, rule, SEED_ACTOR, RetireRuleKey(rule), HideRow(t.rows, SeedRow(L.client, Rule, rule)));
    }
  }

  /** Results that a boot cannot tell apart. */
  ghost predicate AlikeResults(L: Loader, a: StepResult, b: StepResult) {
    a.error == b.error && Alike(L, a.db, b.db)
  }

  function ThenRetire(L: Loader, r: StepResult, rule: string, now: nat): StepResult {
    if r.error.Some? then r else RetireRuleTx(L, r.db, rule, now)
  }

  lemma ThenRetireAlike(L: Loader, a: StepResult, b: StepResult, rule: string, now: nat, later: nat)
    requires AlikeResults(L, a, b)
    ensures AlikeResults(L, ThenRetire(L, a, rule, now), ThenRetire(L, b, rule, later))
  {
    if a.error.None? {
      RetireRuleAlike(L, a.db, b.db, rule, now, later);
    }
  }

  lemma {:induction false} RetireRulesAlike(L: Loader, t: Tables, u: Tables, rules: seq<string>, n: nat, now: nat,
                                            later: nat)
    requires Alike(L, t, u) && n <= |rules|
    ensures AlikeResults(L, RetireRulesTx(L, t, rules, n, now), RetireRulesTx(L, u, rules, n, later))
  {
    hide RetireRuleTx;
    if n > 0 {
      RetireRulesAlike(L, t, u, rules, n - 1, now, later);
      ThenRetireAlike(L, RetireRulesTx(L, t, rules, n - 1, now), RetireRulesTx(L, u, rules, n - 1, later),
                      rules[n - 1], now, later);
    }
  }

  lemma RetireRuleKeepsOwners(L: Loader, t: Tables, rule: string, now: nat)
    ensures SameOwners(L, t, RetireRuleTx(L, t, rule, now).db)
  {
    var after := RetireRuleTx(L, t, rule, now).db;
    if !Owned(L, t, Rule, rule) && Active(t, L.client, Rule, rule) {
      HideEffect(L, t, Rule, rule, RetireRuleKey(rule), CurrentText(t, L.client, Rule, rule), now);
      if KeyApplied(t.receipts, L.client, RetireRuleKey(rule)) {
        QuietAlike(L, t, after);
      } else {
        WriteKeepsOwners(L, t, after, Rule, rule, SEED_ACTOR, RetireRuleKey(rule), after.rows);
      }
    }
  }

  lemma {:induction false} RetireRulesKeepOwners(L: Loader, t: Tables, rules: seq<string>, n: nat, now: nat)
    requires n <= |rules|
    ensures SameOwners(L, t, RetireRulesTx(L, t, rules, n, now).db)
  {
    hide RetireRuleTx;
    if n > 0 {
      RetireRulesKeepOwners(L, t, rules, n - 1, now);
      var mid := RetireRulesTx(L, t, rules, n - 1, now).db;
      RetireRuleKeepsOwners(L, mid, rules[n - 1], now);
      AlikeItself(L, t);
      OwnersChain(L, t, t, mid, RetireRulesTx(L, t, rules, n, now).db);
    }
  }

  lemma PinnedAlike(L: Loader, t: Tables, u: Tables)
    requires t.rows == u.rows
    ensures Pinned(t, L.client, CALL_LOG) <==> Pinned(u, L.client, CALL_LOG)
  {
    forall k ensures ActivePin(t, L.client, CALL_LOG, k) <==> ActivePin(u, L.client, CALL_LOG, k) {
    }
  }

  lemma DeleteCallLogAlike(L: Loader, t: Tables, u: Tables, now: nat, later: nat)
    requires Alike(L, t, u) && !Owned(L, t, Category, CALL_LOG)
    ensures Alike(L, DeleteCategoryTx(L, t, CALL_LOG, now).db, DeleteCategoryTx(L, u, CALL_LOG, later).db)
    ensures DeleteCategoryTx(L, t, CALL_LOG, now).error == DeleteCategoryTx(L, u, CALL_LOG, later).error
  {
    HideEffect(L, t, Category, CALL_LOG, RETIRE_CATEGORY_KEY, None, now);
    HideEffect(L, u, Category, CALL_LOG, RETIRE_CATEGORY_KEY, None, later);
    PinnedAlike(L, t, u);
    var t', u' := DeleteCategoryTx(L, t, CALL_LOG, now).db, DeleteCategoryTx(L, u, CALL_LOG, later).db;
    if Active(t, L.client, Category, CALL_LOG) && !t.rows[SeedRow(L.client, Category, CALL_LOG)].system
       && !Pinned(t, L.client, CALL_LOG)
    {
      WritesAlike(L, t, t', u, u', Category, CALL_LOG, SEED_ACTOR, RETIRE_CATEGORY_KEY,
                  HideRow(t.rows, SeedRow(L.client, Category, CALL_LOG)));
    }
  }

  /** What a retirement does once it has gone through its list. */
  function Finished(L: Loader, r: StepResult, now: nat): StepResult {
    if r.error.Some? || Pinned(r.db, L.client, CALL_LOG) then r else DeleteCategoryTx(L, r.db, CALL_LOG, now)
  }

  lemma FinishedAlike(L: Loader, a: StepResult, b: StepResult, now: nat, later: nat)
    requires AlikeResults(L, a, b) && !Owned(L, a.db, Category, CALL_LOG)
    ensures AlikeResults(L, Finished(L, a, now), Finished(L, b, later))
  {
    hide DeleteCategoryTx;
    PinnedAlike(L, a.db, b.db);
    DeleteCallLogAlike(L, a.db, b.db, now, later);
  }

  lemma RetireIsFinished(L: Loader, t: Tables, rules: seq<string>, now: nat)
    requires !AtRest(L, t)
    ensures RetireTx(L, t, rules, now) == Finished(L, RetireRulesTx(L, t, rules, |rules|, now), now)
  {
  }

  lemma RetireAlike(L: Loader, t: Tables, u: Tables, rules: seq<string>, now: nat, later: nat)
    requires Alike(L, t, u) && !AtRest(L, t)
    ensures AlikeResults(L, RetireTx(L, t, rules, now), RetireTx(L, u, rules, later))
  {
    hide RetireRulesTx, RetireTx, Finished;
    RetireRulesAlike(L, t, u, rules, |rules|, now, later);
    RetireRulesKeepOwners(L, t, rules, |rules|, now);
    var mid, mid' := RetireRulesTx(L, t, rules, |rules|, now), RetireRulesTx(L, u, rules, |rules|, later);
    assert Owned(L, t, Category, CALL_LOG) <==> Owned(L, u, Category, CALL_LOG);
    assert Owned(L, t, Category, CALL_LOG) <==> Owned(L, mid.db, Category, CALL_LOG);
    FinishedAlike(L, mid, mid', now, later);
    RetireIsFinished(L, t, rules, now);
    RetireIsFinished(L, u, rules, later);
  }

  // ------------------------------------------------------------------
  // Steps

  lemma AcceptedAlike(L: Loader, t: Tables, u: Tables, seed: Seed)
    requires Alike(L, t, u)
    ensures Accepted(L, t, seed) <==> Accepted(L, u, seed)
    ensures Skipped(L, t, seed.version) <==> Skipped(L, u, seed.version)
  {
    var v := seed.version;
    assert v.kind.Profile? || (Owned(L, t, v.kind, v.id) <==> Owned(L, u, v.kind, v.id));
  }

  lemma LoadAlike(L: Loader, t: Tables, u: Tables, seed: Seed, now: nat, later: nat)
    requires Alike(L, t, u)
    ensures Alike(L, LoadTx(L, t, seed, now).db, LoadTx(L, u, seed, later).db)
    ensures LoadTx(L, t, seed, now).error == LoadTx(L, u, seed, later).error
  {
    var v := seed.version;
    AcceptedAlike(L, t, u, seed);
    if !Skipped(L, t, v) && Accepted(L, t, seed) {
      LoadEffect(L, t, v, now);
      LoadEffect(L, u, v, later);
      WritesAlike(L, t, LoadTx(L, t, seed, now).db, u, LoadTx(L, u, seed, later).db, v.kind, v.id,
                  SEED_ACTOR, SeedKey(L.hash, v), SeedRows(L, t.rows, v));
    }
  }

  /** A default that an operator wrote still has its row. */
  predicate KeepsDefault(L: Loader, t: Tables, step: Step) {
    step.EnsureDefault? && Owned(L, t, Category, step.d.id) ==> SeedRow(L.client, Category, step.d.id) in t.rows
  }

  lemma DefaultAlike(L: Loader, t: Tables, u: Tables, d: Default, now: nat, later: nat)
    requires Alike(L, t, u) && KeepsDefault(L, t, EnsureDefault(d))
    ensures AlikeResults(L, DefaultTx(L, t, d, now), DefaultTx(L, u, d, later))
  {
    if SeedRow(L.client, Category, d.id) !in t.rows {
      DefaultEffect(L, t, d, now);
      DefaultEffect(L, u, d, later);
      WritesAlike(L, t, DefaultTx(L, t, d, now).db, u, DefaultTx(L, u, d, later).db, Category, d.id,
                  DEFAULT_ACTOR, DefaultKey(d.id), DefaultRows(L, t.rows, d));
    }
  }

  /** The same step; or two retirements, whose listings matter only while they have something to do. */
  predicate SameStep(a: Step, b: Step) {
    a == b || (a.Retire? && b.Retire?)
  }

  ghost predicate ListedAt(L: Loader, t: Tables, step: Step) {
    step.Retire? && !AtRest(L, t) ==> Lists(t, L.client, step.rules)
  }

  lemma StepAlike(L: Loader, t: Tables, u: Tables, step: Step, again: Step, now: nat, later: nat)
    requires Alike(L, t, u) && KeepsDefault(L, t, step)
    requires SameStep(step, again) && ListedAt(L, t, step) && ListedAt(L, u, again)
    ensures AlikeResults(L, StepTx(L, t, step, now), StepTx(L, u, again, later))
  {
    match step
    case EnsureDefault(d) => DefaultAlike(L, t, u, d, now, later);
    case Retire(rules) =>
      assert Owned(L, t, Category, CALL_LOG) <==> Owned(L, u, Category, CALL_LOG);
      if !AtRest(L, t) {
        ListsAreEqual(t, u, L.client, rules, again.rules);
        RetireAlike(L, t, u, rules, now, later);
      }
    case Load(seed) => LoadAlike(L, t, u, seed, now, later);
  }
}
