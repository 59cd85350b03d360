/**
 Runs in which booting once more hides a rule that the boot before left active, because call_log is
 held: its own retirement key is spent, or a rule of an operator's pins it.
*/
module SeedFailures {
  import opened Wrappers
  import opened Schema
  import opened StoreCore
  import opened Selection
  import opened Seeds
  import opened SeedRuns
  import opened SeedBoots
  import opened SeedAlike
  import opened SeedRetirement
  import opened SeedCrashes

  /** One boot of the defaults, a retirement and one load. */
  function SmallBoot(rules: seq<string>, seed: Seed, now: nat): seq<Event> {
    [Event(EnsureDefault(DEFAULTS[0]), now), Event(EnsureDefault(DEFAULTS[1]), now), Event(Retire(rules), now),
     Event(Load(seed), now)]
  }

  lemma SmallBootSteps(L: Loader, t: Tables, a: Tables, b: Tables, rules: seq<string>, seed: Seed, now: nat,
                       mid: Tables, after: Tables)
    requires DefaultTx(L, t, DEFAULTS[0], now) == Seeds.Done(a) && DefaultTx(L, a, DEFAULTS[1], now) == Seeds.Done(b)
    requires RetireTx(L, b, rules, now) == Seeds.Done(mid) && LoadTx(L, mid, seed, now) == Seeds.Done(after)
    ensures Boot(L, t, SmallBoot(rules, seed, now)) == Seeds.Done(after)
  {
    hide DefaultTx, RetireTx, LoadTx;
    var boot := SmallBoot(rules, seed, now);
    BootStep(L, t, boot, 1);
    BootStep(L, t, boot, 2);
    assert boot[2].step == Retire(rules);
    BootStep(L, t, boot, 3);
    assert boot[3].step == Load(seed);
    BootStep(L, t, boot, 4);
    assert boot[..4] == boot;
  }

  lemma SmallBootIs(L: Loader, t: Tables, rules: seq<string>, seed: Seed, now: nat, mid: Tables, after: Tables)
    requires forall i | 0 <= i < |DEFAULTS| :: SeedRow(L.client, Category, DEFAULTS[i].id) in t.rows
    requires RetireTx(L, t, rules, now) == Seeds.Done(mid) && LoadTx(L, mid, seed, now) == Seeds.Done(after)
    ensures Boot(L, t, SmallBoot(rules, seed, now)) == Seeds.Done(after)
  {
    hide RetireTx, LoadTx, Boot;
    assert SeedRow(L.client, Category, DEFAULTS[0].id) in t.rows
      && SeedRow(L.client, Category, DEFAULTS[1].id) in t.rows;
    SmallBootSteps(L, t, t, t, rules, seed, now, mid, after);
  }

  // ------------------------------------------------------------------
  // A spent key

  /** A state in which call_log is active, nothing pins it, and its retirement key is spent. */
  ghost predicate Stuck(L: Loader, t: Tables) {
    && SeedOnly(L, t)
    && (forall i | 0 <= i < |DEFAULTS| :: SeedRow(L.client, Category, DEFAULTS[i].id) in t.rows)
    && Active(t, L.client, Category, CALL_LOG) && !t.rows[SeedRow(L.client, Category, CALL_LOG)].system
    && KeyApplied(t.receipts, L.client, RETIRE_CATEGORY_KEY)
    && !Pinned(t, L.client, CALL_LOG)
  }

  lemma StuckRetires(L: Loader, t: Tables, now: nat)
    requires Stuck(L, t)
    ensures RetireTx(L, t, [], now).error.None? && Quiet(t, RetireTx(L, t, [], now).db)
  {
    HideEffect(L, t, Category, CALL_LOG, RETIRE_CATEGORY_KEY, None, now);
  }

  /** With the category's own key spent, retiring its last pin is all a retirement does. */
  lemma StuckDeletes(L: Loader, t: Tables, now: nat)
    requires Active(t, L.client, Category, CALL_LOG) && !t.rows[SeedRow(L.client, Category, CALL_LOG)].system
    requires KeyApplied(t.receipts, L.client, RETIRE_CATEGORY_KEY)
    requires forall k :: !ActivePin(t, L.client, CALL_LOG, k)
    ensures Deleted(L, t, now).error.None? && Quiet(t, Deleted(L, t, now).db)
  {
    HideEffect(L, t, Category, CALL_LOG, RETIRE_CATEGORY_KEY, None, now);
  }

  lemma OnePinRetires(L: Loader, t: Tables, rule: string, now: nat) returns (hidden: Tables)
    requires SeedOnly(L, t) && Active(t, L.client, Rule, rule) && !KeyApplied(t.receipts, L.client, RetireRuleKey(rule))
    ensures RetireRulesTx(L, t, [rule], 1, now) == Seeds.Done(hidden)
    ensures Wrote(t, hidden, SeedEntity(L.client, Rule, rule), SEED_ACTOR, RetireRuleKey(rule),
                  HideRow(t.rows, SeedRow(L.client, Rule, rule)))
  {
    HideEffect(L, t, Rule, rule, RetireRuleKey(rule), CurrentText(t, L.client, Rule, rule), now);
    hidden := RetireRuleTx(L, t, rule, now).db;
    assert RetireRulesTx(L, t, [rule], 0, now) == Seeds.Done(t);
  }

  lemma StuckRetiresPin(L: Loader, t: Tables, rule: string, now: nat) returns (hidden: Tables)
    requires SeedOnly(L, t) && Active(t, L.client, Category, CALL_LOG)
      && !t.rows[SeedRow(L.client, Category, CALL_LOG)].system
    requires KeyApplied(t.receipts, L.client, RETIRE_CATEGORY_KEY)
    requires Active(t, L.client, Rule, rule) && !KeyApplied(t.receipts, L.client, RetireRuleKey(rule))
    requires forall k :: ActivePin(t, L.client, CALL_LOG, k) ==> k == SeedRow(L.client, Rule, rule)
    ensures Wrote(t, hidden, SeedEntity(L.client, Rule, rule), SEED_ACTOR, RetireRuleKey(rule),
                  HideRow(t.rows, SeedRow(L.client, Rule, rule)))
    ensures RetireTx(L, t, [rule], now).error.None? && Quiet(hidden, RetireTx(L, t, [rule], now).db)
  {
    hide RetireRuleTx, RetireRulesTx, DeleteCategoryTx, Quiet;
    hidden := OnePinRetires(L, t, rule, now);
    RetireIsFinished(L, t, [rule], now);
    WroteLookups(t, hidden, SeedEntity(L.client, Rule, rule), SEED_ACTOR, RetireRuleKey(rule), hidden.rows);
    EntitiesDiffer(L.client, Category, CALL_LOG, Rule, rule);
    forall k ensures !ActivePin(hidden, L.client, CALL_LOG, k) {
      assert ActivePin(t, L.client, CALL_LOG, k) ==> k == SeedRow(L.client, Rule, rule);
    }
    StuckDeletes(L, hidden, now);
  }

  lemma StuckLoads(L: Loader, t: Tables, seed: Seed, now: nat) returns (once: Tables)
    requires Stuck(L, t) && seed.valid && seed.version.kind.Rule? && seed.version.pin.category == CALL_LOG
    requires !KeyApplied(t.receipts, L.client, SeedKey(L.hash, seed.version))
    ensures Boot(L, t, SmallBoot([], seed, now)) == Seeds.Done(once)
    ensures once.rows == SeedRows(L, t.rows, seed.version) && SeedOnly(L, once)
    ensures forall key :: KeyApplied(once.receipts, L.client, key) <==>
      KeyApplied(t.receipts, L.client, key) || key == SeedKey(L.hash, seed.version)
  {
    var v := seed.version;
    StuckRetires(L, t, now);
    var mid := RetireTx(L, t, [], now).db;
    QuietLookups(t, mid);
    LoadEffect(L, mid, v, now);
    once := LoadTx(L, mid, seed, now).db;
    SmallBootIs(L, t, [], seed, now, mid, once);
    WroteLookups(mid, once, SeedEntity(L.client, Rule, v.id), SEED_ACTOR, SeedKey(L.hash, v), SeedRows(L, mid.rows, v));
  }

  lemma LoadReplays(L: Loader, t: Tables, seed: Seed, now: nat) returns (after: Tables)
    requires !Skipped(L, t, seed.version) && seed.valid
      && KeyApplied(t.receipts, L.client, SeedKey(L.hash, seed.version))
    requires seed.version.kind.Rule? && Active(t, L.client, Category, seed.version.pin.category)
    ensures LoadTx(L, t, seed, now) == Seeds.Done(after) && after.rows == t.rows
  {
    assert SeedRow(L.client, Category, seed.version.pin.category) in t.rows && !NoCategoryActive(t, L.client);
    LoadEffect(L, t, seed.version, now);
    after := LoadTx(L, t, seed, now).db;
  }

  lemma LoadedIsHidden(L: Loader, t: Tables, seed: Seed, now: nat) returns (twice: Tables)
    requires SeedOnly(L, t) && Active(t, L.client, Category, CALL_LOG)
      && !t.rows[SeedRow(L.client, Category, CALL_LOG)].system
    requires forall i | 0 <= i < |DEFAULTS| :: SeedRow(L.client, Category, DEFAULTS[i].id) in t.rows
    requires seed.valid && seed.version.kind.Rule? && seed.version.pin.category == CALL_LOG
    requires KeyApplied(t.receipts, L.client, RETIRE_CATEGORY_KEY)
    requires KeyApplied(t.receipts, L.client, SeedKey(L.hash, seed.version))
    requires !KeyApplied(t.receipts, L.client, RetireRuleKey(seed.version.id))
      && Active(t, L.client, Rule, seed.version.id)
    requires forall k :: ActivePin(t, L.client, CALL_LOG, k) ==> k == SeedRow(L.client, Rule, seed.version.id)
    ensures Boot(L, t, SmallBoot([seed.version.id], seed, now)) == Seeds.Done(twice)
    ensures !Active(twice, L.client, Rule, seed.version.id)
  {
    var v := seed.version;
    var hidden := StuckRetiresPin(L, t, v.id, now);
    var mid := RetireTx(L, t, [v.id], now).db;
    WroteLookups(t, hidden, SeedEntity(L.client, Rule, v.id), SEED_ACTOR, RetireRuleKey(v.id), hidden.rows);
    QuietLookups(hidden, mid);
    EntitiesDiffer(L.client, Category, CALL_LOG, Rule, v.id);
    twice := LoadReplays(L, mid, seed, now);
    SmallBootIs(L, t, [v.id], seed, now, mid, twice);
  }

  /**
   From a stuck state one boot leaves a new rule that pins call_log active, but booting the same
   overlay once more hides that rule.
  */
  lemma SpentKeyHidesRule(L: Loader, t: Tables, seed: Seed, now: nat, later: nat) returns (once: Tables, twice: Tables)
    requires Stuck(L, t) && seed.valid && seed.version.kind.Rule? && seed.version.pin.category == CALL_LOG
    requires !KeyApplied(t.receipts, L.client, SeedKey(L.hash, seed.version))
    requires !KeyApplied(t.receipts, L.client, RetireRuleKey(seed.version.id))
    ensures Boot(L, t, SmallBoot([], seed, now)) == Seeds.Done(once)
    ensures Boot(L, once, SmallBoot([seed.version.id], seed, later)) == Seeds.Done(twice)
    ensures Active(once, L.client, Rule, seed.version.id) && !Active(twice, L.client, Rule, seed.version.id)
  {
    var id := seed.version.id;
    var k := SeedRow(L.client, Rule, id);
    once := StuckLoads(L, t, seed, now);
    SeedKeyIsNotRetire(L.hash, seed.version, id);
    EntitiesDiffer(L.client, Category, CALL_LOG, Rule, id);
    forall i | 0 <= i < |DEFAULTS| ensures SeedRow(L.client, Category, DEFAULTS[i].id) in once.rows {
      EntitiesDiffer(L.client, Category, DEFAULTS[i].id, Rule, id);
    }
    forall other ensures ActivePin(once, L.client, CALL_LOG, other) ==> other == k {
      assert !ActivePin(t, L.client, CALL_LOG, other);
    }
    twice := LoadedIsHidden(L, once, seed, later);
  }

  // ------------------------------------------------------------------
  // An operator's rule

  /** A state in which only this rule, an operator's, pins the call_log that is to be retired. */
  ghost predicate HeldByOperator(L: Loader, t: Tables, pin: string) {
    && (forall i | 0 <= i < |DEFAULTS| :: SeedRow(L.client, Category, DEFAULTS[i].id) in t.rows)
    && !AtRest(L, t) && Owned(L, t, Rule, pin)
    && (forall k :: ActivePin(t, L.client, CALL_LOG, k) <==> k == SeedRow(L.client, Rule, pin))
  }

  lemma HeldRetires(L: Loader, t: Tables, pin: string, now: nat)
    requires HeldByOperator(L, t, pin)
    ensures RetireTx(L, t, [pin], now) == Seeds.Done(t)
  {
    assert RetireRulesTx(L, t, [pin], 0, now) == Seeds.Done(t);
    assert RetireRulesTx(L, t, [pin], 1, now) == Seeds.Done(t);
    assert ActivePin(t, L.client, CALL_LOG, SeedRow(L.client, Rule, pin));
  }

  lemma HeldRetiresOther(L: Loader, t: Tables, pin: string, rule: string, now: nat) returns (hidden: Tables)
    requires !AtRest(L, t) && Owned(L, t, Rule, pin) && pin != rule
    requires ActivePin(t, L.client, CALL_LOG, SeedRow(L.client, Rule, pin))
    requires Active(t, L.client, Rule, rule) && !Owned(L, t, Rule, rule)
    requires !KeyApplied(t.receipts, L.client, RetireRuleKey(rule))
    ensures RetireTx(L, t, [pin, rule], now) == Seeds.Done(hidden)
    ensures Wrote(t, hidden, SeedEntity(L.client, Rule, rule), SEED_ACTOR, RetireRuleKey(rule),
                  HideRow(t.rows, SeedRow(L.client, Rule, rule)))
  {
    var rules := [pin, rule];
    HideEffect(L, t, Rule, rule, RetireRuleKey(rule), CurrentText(t, L.client, Rule, rule), now);
    hidden := RetireRuleTx(L, t, rule, now).db;
    assert RetireRulesTx(L, t, rules, 0, now) == Seeds.Done(t);
    assert RetireRulesTx(L, t, rules, 1, now) == Seeds.Done(t);
    assert RetireRulesTx(L, t, rules, 2, now) == Seeds.Done(hidden);
    hide RetireRuleTx, RetireRulesTx, DeleteCategoryTx;
    EntitiesDiffer(L.client, Rule, pin, Rule, rule);
    assert ActivePin(hidden, L.client, CALL_LOG, SeedRow(L.client, Rule, pin));
    assert SeedRow(L.client, Rule, pin) in hidden.rows;
    RetireIsFinished(L, t, rules, now);
  }

  lemma HeldLoads(L: Loader, t: Tables, pin: string, seed: Seed, now: nat) returns (once: Tables)
    requires HeldByOperator(L, t, pin) && seed.version.id != pin && !Owned(L, t, Rule, seed.version.id)
    requires seed.valid && seed.version.kind.Rule? && seed.version.pin.category == CALL_LOG
    requires !KeyApplied(t.receipts, L.client, SeedKey(L.hash, seed.version))
    requires !KeyApplied(t.receipts, L.client, RetireRuleKey(seed.version.id))
    ensures LoadTx(L, t, seed, now) == Seeds.Done(once)
    ensures once.rows == SeedRows(L, t.rows, seed.version) && !AtRest(L, once)
    ensures Owned(L, once, Rule, pin) && ActivePin(once, L.client, CALL_LOG, SeedRow(L.client, Rule, pin))
    ensures Active(once, L.client, Rule, seed.version.id) && !Owned(L, once, Rule, seed.version.id)
    ensures KeyApplied(once.receipts, L.client, SeedKey(L.hash, seed.version))
    ensures !KeyApplied(once.receipts, L.client, RetireRuleKey(seed.version.id))
  {
    var v := seed.version;
    assert SeedRow(L.client, Category, CALL_LOG) in t.rows && !NoCategoryActive(t, L.client);
    assert ActivePin(t, L.client, CALL_LOG, SeedRow(L.client, Rule, pin));
    LoadEffect(L, t, v, now);
    once := LoadTx(L, t, seed, now).db;
    var rows := SeedRows(L, t.rows, v);
    hide OperatorOwned, LoadTx;
    WroteLookups(t, once, SeedEntity(L.client, Rule, v.id), SEED_ACTOR, SeedKey(L.hash, v), rows);
    SeedKeyIsNotRetire(L.hash, v, v.id);
    EntitiesDiffer(L.client, Rule, pin, Rule, v.id);
    EntitiesDiffer(L.client, Category, CALL_LOG, Rule, v.id);
  }

  lemma HiddenReplays(L: Loader, t: Tables, hidden: Tables, seed: Seed, now: nat) returns (twice: Tables)
    requires !AtRest(L, t) && !Owned(L, t, Rule, seed.version.id)
    requires seed.valid && seed.version.kind.Rule? && seed.version.pin.category == CALL_LOG
    requires KeyApplied(t.receipts, L.client, SeedKey(L.hash, seed.version))
    requires Wrote(t, hidden, SeedEntity(L.client, Rule, seed.version.id), SEED_ACTOR, RetireRuleKey(seed.version.id),
                   HideRow(t.rows, SeedRow(L.client, Rule, seed.version.id)))
    ensures LoadTx(L, hidden, seed, now) == Seeds.Done(twice) && !Active(twice, L.client, Rule, seed.version.id)
  {
    var id := seed.version.id;
    WroteLookups(t, hidden, SeedEntity(L.client, Rule, id), SEED_ACTOR, RetireRuleKey(id), hidden.rows);
    EntitiesDiffer(L.client, Category, CALL_LOG, Rule, id);
    twice := LoadReplays(L, hidden, seed, now);
  }

  /** The same happens while an operator's rule pins call_log. */
  lemma OperatorPinHidesRule(L: Loader, t: Tables, pin: string, seed: Seed, now: nat, later: nat)
    returns (once: Tables, twice: Tables)
    requires HeldByOperator(L, t, pin) && seed.version.id != pin && !Owned(L, t, Rule, seed.version.id)
    requires seed.valid && seed.version.kind.Rule? && seed.version.pin.category == CALL_LOG
    requires !KeyApplied(t.receipts, L.client, SeedKey(L.hash, seed.version))
    requires !KeyApplied(t.receipts, L.client, RetireRuleKey(seed.version.id))
    ensures Boot(L, t, SmallBoot([pin], seed, now)) == Seeds.Done(once)
    ensures Boot(L, once, SmallBoot([pin, seed.version.id], seed, later)) == Seeds.Done(twice)
    ensures Active(once, L.client, Rule, seed.version.id) && !Active(twice, L.client, Rule, seed.version.id)
    ensures once.rows == SeedRows(L, t.rows, seed.version) && !Inert(L, once)
  {
    hide RetireTx, Boot, StepTx;
    var id := seed.version.id;
    HeldRetires(L, t, pin, now);
    once := HeldLoads(L, t, pin, seed, now);
    SmallBootIs(L, t, [pin], seed, now, t, once);
    var hidden := HeldRetiresOther(L, once, pin, id, later);
    twice := HiddenReplays(L, once, hidden, seed, later);
    assert ActivePin(once, L.client, CALL_LOG, SeedRow(L.client, Rule, id));
    SmallBootIs(L, once, [pin, id], seed, later, hidden, twice);
  }

  // ------------------------------------------------------------------
  // Reaching such a state

  /** No applied receipt is about this entity. */
  predicate Untold(t: Tables, e: Entity) {
    Newest(t.receipts, OfEntity(e)).None?
  }

  lemma OtherStaysUntold(t: Tables, after: Tables, e: Entity, actor: string, key: string, rows: map<RowKey, Row>,
                         other: Entity)
    requires Wrote(t, after, e, actor, key, rows) && other != e && Untold(t, other)
    ensures Untold(after, other)
  {
    var r := after.receipts[|t.receipts|];
    assert after.receipts == t.receipts + [r];
    NewestAppend(t.receipts, r, OfEntity(other));
  }

  lemma FirstWriteOwns(t: Tables, after: Tables, e: Entity, actor: string, key: string, rows: map<RowKey, Row>)
    requires Wrote(t, after, e, actor, key, rows) && Untold(t, e)
    ensures OperatorOwned(after, e) <==> !IsSeedActor(actor)
  {
    var r := after.receipts[|t.receipts|];
    assert after.receipts == t.receipts + [r];
    NewestAppend(t.receipts, r, OfEntity(e));
  }

  /** Only these categories exist, all active and none an operator's, and exactly these keys are spent. */
  ghost predicate OnlyCategories(L: Loader, t: Tables, ids: set<string>, keys: set<string>) {
    && (forall k :: k in t.rows <==> k.client == L.client && k.table == TableOf(Category) && k.id in ids)
    && (forall id: string | id in ids :: Active(t, L.client, Category, id) && !Owned(L, t, Category, id))
    && (forall id: string | id !in ids :: Untold(t, SeedEntity(L.client, Category, id)))
    && (forall id: string :: Untold(t, SeedEntity(L.client, Rule, id)))
    && (forall key: string :: KeyApplied(t.receipts, L.client, key) <==> key in keys)
  }

  lemma OneMoreCategory(L: Loader, t: Tables, after: Tables, ids: set<string>, keys: set<string>, id: string,
                        actor: string, key: string, rows: map<RowKey, Row>)
    requires OnlyCategories(L, t, ids, keys) && id !in ids && IsSeedActor(actor)
    requires SeedRow(L.client, Category, id) in rows && !rows[SeedRow(L.client, Category, id)].deleted
    requires rows == t.rows[SeedRow(L.client, Category, id) := rows[SeedRow(L.client, Category, id)]]
    requires Wrote(t, after, SeedEntity(L.client, Category, id), actor, key, rows)
    ensures OnlyCategories(L, after, ids + {id}, keys + {key})
  {
    var e := SeedEntity(L.client, Category, id);
    WroteLookups(t, after, e, actor, key, rows);
    FirstWriteOwns(t, after, e, actor, key, rows);
    forall other: string
      ensures other != id && other !in ids ==> Untold(after, SeedEntity(L.client, Category, other))
      ensures Untold(after, SeedEntity(L.client, Rule, other))
      ensures other in ids ==> Active(after, L.client, Category, other) && !Owned(L, after, Category, other)
    {
      EntitiesDiffer(L.client, Category, other, Category, id);
      EntitiesDiffer(L.client, Rule, other, Category, id);
      if other != id && other !in ids {
        OtherStaysUntold(t, after, e, actor, key, rows, SeedEntity(L.client, Category, other));
      }
      OtherStaysUntold(t, after, e, actor, key, rows, SeedEntity(L.client, Rule, other));
      if other in ids {
        assert Active(t, L.client, Category, other) && !Owned(L, t, Category, other);
      }
    }
  }

  lemma OneMoreDefault(L: Loader, t: Tables, d: Default, now: nat, ids: set<string>, keys: set<string>)
    requires OnlyCategories(L, t, ids, keys) && d.id !in ids && DefaultKey(d.id) !in keys
    ensures DefaultTx(L, t, d, now).error.None?
    ensures OnlyCategories(L, DefaultTx(L, t, d, now).db, ids + {d.id}, keys + {DefaultKey(d.id)})
  {
    DefaultEffect(L, t, d, now);
    OneMoreCategory(L, t, DefaultTx(L, t, d, now).db, ids, keys, d.id, DEFAULT_ACTOR, DefaultKey(d.id),
                    DefaultRows(L, t.rows, d));
  }

  lemma OneMoreSeed(L: Loader, t: Tables, seed: Seed, now: nat, ids: set<string>, keys: set<string>)
    requires OnlyCategories(L, t, ids, keys) && seed.valid && seed.version.kind.Category?
    requires seed.version.id !in ids && SeedKey(L.hash, seed.version) !in keys
    ensures LoadTx(L, t, seed, now).error.None?
    ensures OnlyCategories(L, LoadTx(L, t, seed, now).db, ids + {seed.version.id},
                           keys + {SeedKey(L.hash, seed.version)})
  {
    var v := seed.version;
    LoadEffect(L, t, v, now);
    OneMoreCategory(L, t, LoadTx(L, t, seed, now).db, ids, keys, v.id, SEED_ACTOR, SeedKey(L.hash, v),
                    SeedRows(L, t.rows, v));
  }

  const DEFAULT_IDS := {DEFAULTS[0].id} + {DEFAULTS[1].id}
  const DEFAULT_KEYS := {DefaultKey(DEFAULTS[0].id)} + {DefaultKey(DEFAULTS[1].id)}
  const FIRST_IDS := DEFAULT_IDS + {CALL_LOG}

  /** The keys that the first boot of an overlay that seeds call_log spends. */
  function FirstKeys(L: Loader, v: Version): set<string> {
    DEFAULT_KEYS + {SeedKey(L.hash, v)}
  }

  lemma EmptyHasNone(L: Loader)
    ensures OnlyCategories(L, EMPTY, {}, {})
  {
  }

  lemma NothingToRetire(L: Loader, t: Tables, ids: set<string>, keys: set<string>, now: nat)
    requires OnlyCategories(L, t, ids, keys) && CALL_LOG !in ids
    ensures RetireTx(L, t, [], now) == Seeds.Done(t)
  {
    assert SeedRow(L.client, Category, CALL_LOG) !in t.rows;
  }

  lemma TwoDefaults(L: Loader, now: nat) returns (a: Tables, b: Tables)
    ensures DefaultTx(L, EMPTY, DEFAULTS[0], now) == Seeds.Done(a)
    ensures DefaultTx(L, a, DEFAULTS[1], now) == Seeds.Done(b)
    ensures OnlyCategories(L, b, DEFAULT_IDS, DEFAULT_KEYS)
  {
    var d0, d1 := DEFAULTS[0], DEFAULTS[1];
    if DefaultKey(d0.id) == DefaultKey(d1.id) {
      DefaultKeyInjective(d0.id, d1.id);
    }
    assert d0.id != d1.id;
    hide DefaultTx, OnlyCategories, DefaultKey;
    EmptyHasNone(L);
    OneMoreDefault(L, EMPTY, d0, now, {}, {});
    a := DefaultTx(L, EMPTY, d0, now).db;
    assert {} + {d0.id} == {d0.id} && {} + {DefaultKey(d0.id)} == {DefaultKey(d0.id)};
    OneMoreDefault(L, a, d1, now, {d0.id}, {DefaultKey(d0.id)});
    b := DefaultTx(L, a, d1, now).db;
  }

  lemma CallLogIsNew(L: Loader, v: Version)
    ensures CALL_LOG !in DEFAULT_IDS && SeedKey(L.hash, v) !in DEFAULT_KEYS
  {
    SeedKeyIsNotDefault(L.hash, v, DEFAULTS[0].id);
    SeedKeyIsNotDefault(L.hash, v, DEFAULTS[1].id);
  }

  /** The first boot, on empty tables, of an overlay that seeds call_log: its retirement finds nothing. */
  lemma FirstBoot(L: Loader, seed: Seed, now: nat) returns (t: Tables)
    requires seed.valid && seed.version.kind.Category? && seed.version.id == CALL_LOG
    ensures Boot(L, EMPTY, SmallBoot([], seed, now)) == Seeds.Done(t)
    ensures OnlyCategories(L, t, FIRST_IDS, FirstKeys(L, seed.version))
  {
    hide DefaultTx, LoadTx, RetireTx, OnlyCategories, Boot, DefaultKey, SeedKey, SmallBoot;
    var a, b := TwoDefaults(L, now);
    CallLogIsNew(L, seed.version);
    OneMoreSeed(L, b, seed, now, DEFAULT_IDS, DEFAULT_KEYS);
    t := LoadTx(L, b, seed, now).db;
    NothingToRetire(L, b, DEFAULT_IDS, DEFAULT_KEYS, now);
    SmallBootSteps(L, EMPTY, a, b, [], seed, now, b, t);
  }

  lemma SavedPinHolds(L: Loader, t: Tables, held: Tables, ids: set<string>, keys: set<string>, pin: string,
                      actor: string,
                      key: string, row: Row)
    requires OnlyCategories(L, t, ids, keys) && CALL_LOG in ids && !IsSeedActor(actor)
    requires forall i | 0 <= i < |DEFAULTS| :: DEFAULTS[i].id in ids
    requires row.pin.category == CALL_LOG && !row.deleted
    requires Wrote(t, held, SeedEntity(L.client, Rule, pin), actor, key, t.rows[SeedRow(L.client, Rule, pin) := row])
    ensures HeldByOperator(L, held, pin)
  {
    var e, k := SeedEntity(L.client, Rule, pin), SeedRow(L.client, Rule, pin);
    WroteLookups(t, held, e, actor, key, held.rows);
    FirstWriteOwns(t, held, e, actor, key, held.rows);
    assert Active(t, L.client, Category, CALL_LOG) && !Owned(L, t, Category, CALL_LOG);
    EntitiesDiffer(L.client, Category, CALL_LOG, Rule, pin);
    forall other ensures ActivePin(held, L.client, CALL_LOG, other) <==> other == k {
      EntitiesDiffer(L.client, Category, other.id, Rule, other.id);
    }
    forall i | 0 <= i < |DEFAULTS| ensures SeedRow(L.client, Category, DEFAULTS[i].id) in held.rows {
      assert SeedRow(L.client, Category, DEFAULTS[i].id) in t.rows;
    }
  }

  lemma OthersNotOwned(L: Loader, t: Tables, held: Tables, pin: string, actor: string, key: string,
                       rows: map<RowKey, Row>, id: string)
    requires Wrote(t, held, SeedEntity(L.client, Rule, pin), actor, key, rows) && id != pin
    requires Untold(t, SeedEntity(L.client, Rule, id))
    ensures !Owned(L, held, Rule, id)
  {
    EntitiesDiffer(L.client, Rule, id, Rule, pin);
    OtherStaysUntold(t, held, SeedEntity(L.client, Rule, pin), actor, key, rows, SeedEntity(L.client, Rule, id));
  }

  /** Then an operator saves a rule that pins call_log, and call_log is held. */
  lemma OperatorSavesPin(L: Loader, t: Tables, keys: set<string>, pin: string, actor: string, key: string, text: string,
                         priority: nat, now: nat, other: string)
    returns (held: Tables)
    requires OnlyCategories(L, t, FIRST_IDS, keys) && key !in keys && !IsSeedActor(actor) && other != pin
    ensures held == Mutated(t,
                            SeedRequest(SeedEntity(L.client, Rule, pin), "upsert", actor, key, None, Some(text), now),
                            Put(SeedRow(L.client, Rule, pin), text, Pin(CALL_LOG, priority), false)).db
    ensures HeldByOperator(L, held, pin) && !Owned(L, held, Rule, other)
    ensures SeedRow(L.client, Rule, pin) in held.rows
      && held.rows[SeedRow(L.client, Rule, pin)].pin.priority == priority
    ensures forall k: string :: KeyApplied(held.receipts, L.client, k) <==> k in keys + {key}
  {
    var e, k := SeedEntity(L.client, Rule, pin), SeedRow(L.client, Rule, pin);
    var req := SeedRequest(e, "upsert", actor, key, None, Some(text), now);
    var w := Put(k, text, Pin(CALL_LOG, priority), false);
    var rows := PutRow(t.rows, k, text, Pin(CALL_LOG, priority), false);
    RowWriteEffect(t, req, w, rows);
    held := Mutated(t, req, w).db;
    hide Mutated, HeldByOperator, OperatorOwned;
    assert Untold(t, SeedEntity(L.client, Rule, other));
    SavedPinHolds(L, t, held, FIRST_IDS, keys, pin, actor, key, rows[k]);
    OthersNotOwned(L, t, held, pin, actor, key, rows, other);
    WroteLookups(t, held, e, actor, key, rows);
  }

  lemma HeldLists(L: Loader, held: Tables, once: Tables, pin: string, rule: Seed)
    requires HeldByOperator(L, held, pin) && rule.version.id != pin && rule.version.kind.Rule?
    requires rule.version.pin.category == CALL_LOG
    requires once.rows == SeedRows(L, held.rows, rule.version)
    requires SeedRow(L.client, Rule, pin) in held.rows
    requires Before(SortKey(held.rows[SeedRow(L.client, Rule, pin)].pin.priority, pin),
                    SortKey(rule.version.pin.priority, rule.version.id))
    ensures Lists(held, L.client, [pin]) && Lists(once, L.client, [pin, rule.version.id])
  {
    var id := rule.version.id;
    forall x: string
      ensures x in [pin] <==> ActivePin(held, L.client, CALL_LOG, SeedRow(L.client, Rule, x))
      ensures x in [pin, id] <==> ActivePin(once, L.client, CALL_LOG, SeedRow(L.client, Rule, x))
    {
      EntitiesDiffer(L.client, Rule, x, Rule, id);
      EntitiesDiffer(L.client, Rule, x, Rule, pin);
    }
    EntitiesDiffer(L.client, Rule, id, Rule, pin);
  }

  lemma RuleKeysAreFresh(L: Loader, v: Version, w: Version)
    requires v.kind.Category? && w.kind.Rule?
    ensures SeedKey(L.hash, w) !in FirstKeys(L, v) && RetireRuleKey(w.id) !in FirstKeys(L, v)
  {
    forall id: string ensures SeedKey(L.hash, w) != DefaultKey(id) && RetireRuleKey(w.id) != DefaultKey(id) {
      SeedKeyIsNotDefault(L.hash, w, id);
      RetireKeysDiffer(w.id, id);
    }
    SeedKeyIsNotRetire(L.hash, v, w.id);
    var a, b := v.id + [':'] + L.hash(v), w.id + [':'] + L.hash(w);
    assert SeedKey(L.hash, v)[|OVERLAY|..] == "category" + [':'] + a;
    assert SeedKey(L.hash, w)[|OVERLAY|..] == "rule" + [':'] + b;
    assert SeedKey(L.hash, v)[|OVERLAY|] == 'c' && SeedKey(L.hash, w)[|OVERLAY|] == 'r';
  }

  /**
   A run from empty tables that reaches such a state, and what follows: a boot that seeds call_log, an
   operator's rule that pins it, and two boots of an overlay whose rule pins it too. The second of them
   hides that rule, because the first left call_log active and the rule movable.
  */
  lemma RunHidesRule(L: Loader, callLog: Seed, rule: Seed, pin: string, actor: string, key: string, text: string,
                     priority: nat, times: (nat, nat, nat, nat))
    returns (booted: Tables, held: Tables, once: Tables, twice: Tables)
    requires callLog.valid && callLog.version.kind.Category? && callLog.version.id == CALL_LOG
    requires rule.valid && rule.version.kind.Rule? && rule.version.pin.category == CALL_LOG && rule.version.id != pin
    requires Before(SortKey(priority, pin), SortKey(rule.version.pin.priority, rule.version.id))
    requires !IsSeedActor(actor) && key !in FirstKeys(L, callLog.version)
    requires key != SeedKey(L.hash, rule.version) && key != RetireRuleKey(rule.version.id)
    ensures Boot(L, EMPTY, SmallBoot([], callLog, times.0)) == Seeds.Done(booted)
    ensures held ==
      Mutated(booted, SeedRequest(SeedEntity(L.client, Rule, pin), "upsert", actor, key, None, Some(text), times.1),
              Put(SeedRow(L.client, Rule, pin), text, Pin(CALL_LOG, priority), false)).db
    ensures Boot(L, held, SmallBoot([pin], rule, times.2)) == Seeds.Done(once)
    ensures Boot(L, once, SmallBoot([pin, rule.version.id], rule, times.3)) == Seeds.Done(twice)
    ensures Lists(held, L.client, [pin]) && Lists(once, L.client, [pin, rule.version.id]) && !Inert(L, once)
    ensures Active(once, L.client, Rule, rule.version.id) && !Active(twice, L.client, Rule, rule.version.id)
  {
    var keys, id := FirstKeys(L, callLog.version), rule.version.id;
    hide Boot, Mutated, HeldByOperator, FirstKeys, OperatorOwned, Inert, Lists;
    booted := FirstBoot(L, callLog, times.0);
    held := OperatorSavesPin(L, booted, keys, pin, actor, key, text, priority, times.1, id);
    RuleKeysAreFresh(L, callLog.version, rule.version);
    once, twice := OperatorPinHidesRule(L, held, pin, rule, times.2, times.3);
    HeldLists(L, held, once, pin, rule);
  }
}
