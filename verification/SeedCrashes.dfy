/**
 A boot that crashed and was run again, compared with one uninterrupted boot: the same end, unless the
 retirement had been finished and would do something once more.
*/
module SeedCrashes {
  import opened Wrappers
  import opened Schema
  import opened StoreCore
  import opened Seeds
  import opened SeedRuns
  import opened SeedBoots
  import opened SeedAlike
  import opened SeedRetirement

  // ------------------------------------------------------------------
  // Boots, step by step

  /** A boot's first step makes the fallback category active, unless its row was deleted before. */
  predicate StartsBoot(L: Loader, t: Tables, events: seq<Event>) {
    && events != [] && events[0].step == EnsureDefault(DEFAULTS[0])
    && (SeedRow(L.client, Category, FALLBACK) in t.rows ==> Active(t, L.client, Category, FALLBACK))
  }

  /** The defaults, then one retirement, then the loads. */
  predicate RetiresAt(events: seq<Event>, at: nat) {
    && at < |events| && events[at].step.Retire?
    && (forall i | 0 <= i < |events| ::
        (i < at <==> events[i].step.EnsureDefault?) && (i > at <==> events[i].step.Load?))
  }

  /** The same steps; their retirements may have listed different rules. */
  predicate SameSteps(a: seq<Event>, b: seq<Event>) {
    |a| == |b| && forall i | 0 <= i < |a| :: SameStep(a[i].step, b[i].step)
  }

  /** Each retirement that finds something to do was given the rules that pin call_log then. */
  ghost predicate Listed(L: Loader, t: Tables, events: seq<Event>) {
    forall i | 0 <= i < |events| && events[i].step.Retire? && Boot(L, t, events[..i]).error.None? ::
      ListedAt(L, Boot(L, t, events[..i]).db, events[i].step)
  }

  /** A default whose key was spent still has its row. */
  ghost predicate SpentDefaultsKept(L: Loader, t: Tables) {
    forall id: string | KeyApplied(t.receipts, L.client, DefaultKey(id)) :: SeedRow(L.client, Category, id) in t.rows
  }

  /** A default that an operator wrote still has its row. */
  predicate OwnedDefaultsKept(L: Loader, t: Tables) {
    forall d | d in DEFAULTS && Owned(L, t, Category, d.id) :: SeedRow(L.client, Category, d.id) in t.rows
  }

  /** A boot of an overlay that does not seed call_log, and tables it may start from. */
  ghost predicate WellBooted(L: Loader, t: Tables, boot: seq<Event>, at: nat) {
    SpentDefaultsKept(L, t) && AllPlain(boot) && StartsBoot(L, t, boot) && RetiresAt(boot, at)
  }

  function After(L: Loader, r: StepResult, event: Event): StepResult {
    if r.error.Some? then r else StepTx(L, r.db, event.step, event.now)
  }

  lemma BootStep(L: Loader, t: Tables, events: seq<Event>, m: nat)
    requires 0 < m <= |events|
    ensures Boot(L, t, events[..m]) == After(L, Boot(L, t, events[..m - 1]), events[m - 1])
  {
    assert events[..m][..m - 1] == events[..m - 1];
  }

  lemma ListedStep(L: Loader, t: Tables, boot: seq<Event>, i: nat)
    requires Listed(L, t, boot) && i < |boot| && Boot(L, t, boot[..i]).error.None?
    ensures ListedAt(L, Boot(L, t, boot[..i]).db, boot[i].step)
  {
  }

  // ------------------------------------------------------------------
  // Settled steps

  /** Running the step again would do nothing that a boot can see. */
  ghost predicate Settled(L: Loader, t: Tables, step: Step) {
    match step
    case EnsureDefault(d) => SeedRow(L.client, Category, d.id) in t.rows
    case Retire(_) => Inert(L, t)
    case Load(seed) =>
      || Skipped(L, t, seed.version)
      || (&& seed.valid
          && (seed.version.kind.Rule? ==> Active(t, L.client, Category, seed.version.pin.category))
          && KeyApplied(t.receipts, L.client, SeedKey(L.hash, seed.version)))
  }

  /** A settled load is skipped, or replays. */
  lemma SettledLoad(L: Loader, t: Tables, seed: Seed, now: nat)
    requires Settled(L, t, Load(seed))
    ensures var r := LoadTx(L, t, seed, now);
      r.error.None? && (r.db == t || Quiet(t, r.db))
  {
    if !Skipped(L, t, seed.version) {
      var v := seed.version;
      if v.kind.Rule? {
        assert SeedRow(L.client, Category, v.pin.category) in t.rows;
        assert !NoCategoryActive(t, L.client);
      }
      LoadEffect(L, t, v, now);
    }
  }

  /** A settled step runs quietly. */
  lemma SettledIsQuiet(L: Loader, t: Tables, step: Step, now: nat)
    requires Settled(L, t, step) && ListedAt(L, t, step)
    ensures StepTx(L, t, step, now).error.None? && Alike(L, t, StepTx(L, t, step, now).db)
  {
    AlikeItself(L, t);
    match step
    case EnsureDefault(_) =>
    case Retire(rules) => InertRetires(L, t, rules, now);
    case Load(seed) =>
      SettledLoad(L, t, seed, now);
      if Quiet(t, LoadTx(L, t, seed, now).db) {
        QuietAlike(L, t, LoadTx(L, t, seed, now).db);
      }
  }

  /** Rows and applied keys stay, and only call_log and its pins may be hidden. */
  ghost predicate Grows(L: Loader, t: Tables, after: Tables) {
    && (forall k | k in t.rows :: k in after.rows)
    && (forall key: string :: KeyApplied(t.receipts, L.client, key) ==> KeyApplied(after.receipts, L.client, key))
    && (forall id: string | id != CALL_LOG && Active(t, L.client, Category, id) ::
        Active(after, L.client, Category, id))
    && (Active(after, L.client, Category, CALL_LOG) ==> Active(t, L.client, Category, CALL_LOG))
  }

  lemma WriteGrows(L: Loader, t: Tables, after: Tables, kind: Kind, id: string, actor: string, key: string,
                   rows: map<RowKey, Row>)
    requires Wrote(t, after, SeedEntity(L.client, kind, id), actor, key, rows) || Quiet(t, after)
    requires var k := SeedRow(L.client, kind, id);
      k in rows && rows == t.rows[k := rows[k]] && (kind.Category? ==> (rows[k].deleted <==> id == CALL_LOG))
    ensures Grows(L, t, after)
  {
    if Quiet(t, after) {
      QuietLookups(t, after);
    } else {
      WroteLookups(t, after, SeedEntity(L.client, kind, id), actor, key, rows);
      forall other: string
        ensures SeedRow(L.client, Category, other) == SeedRow(L.client, kind, id) <==> kind.Category? && other == id
      {
        EntitiesDiffer(L.client, Category, other, kind, id);
      }
    }
  }

  lemma GrowsTransitive(L: Loader, a: Tables, b: Tables, c: Tables)
    requires Grows(L, a, b) && Grows(L, b, c)
    ensures Grows(L, a, c)
  {
    forall k | k in a.rows ensures k in c.rows {
      assert k in b.rows;
    }
  }

  lemma RetireRuleGrows(L: Loader, t: Tables, rule: string, now: nat)
    ensures Grows(L, t, RetireRuleTx(L, t, rule, now).db)
  {
    var after, k := RetireRuleTx(L, t, rule, now).db, SeedRow(L.client, Rule, rule);
    if after != t {
      HideEffect(L, t, Rule, rule, RetireRuleKey(rule), CurrentText(t, L.client, Rule, rule), now);
      var rows := HideRow(t.rows, k);
      assert rows == t.rows[k := rows[k]];
      WriteGrows(L, t, after, Rule, rule, SEED_ACTOR, RetireRuleKey(rule), rows);
    }
  }

  lemma {:induction false} RetireRulesGrow(L: Loader, t: Tables, rules: seq<string>, n: nat, now: nat)
    requires n <= |rules|
    ensures Grows(L, t, RetireRulesTx(L, t, rules, n, now).db)
  {
    hide RetireRuleTx;
    if n > 0 {
      RetireRulesGrow(L, t, rules, n - 1, now);
      var mid := RetireRulesTx(L, t, rules, n - 1, now);
      if mid.error.None? {
        RetireRuleGrows(L, mid.db, rules[n - 1], now);
        GrowsTransitive(L, t, mid.db, RetireRulesTx(L, t, rules, n, now).db);
      }
    }
  }

  lemma RetireGrows(L: Loader, t: Tables, rules: seq<string>, now: nat)
    ensures Grows(L, t, RetireTx(L, t, rules, now).db)
  {
    RetireRulesGrow(L, t, rules, |rules|, now);
    var mid := RetireRulesTx(L, t, rules, |rules|, now).db;
    var after, k := DeleteCategoryTx(L, mid, CALL_LOG, now).db, SeedRow(L.client, Category, CALL_LOG);
    if after != mid {
      HideEffect(L, mid, Category, CALL_LOG, RETIRE_CATEGORY_KEY, None, now);
      var rows := HideRow(mid.rows, k);
      assert rows == mid.rows[k := rows[k]];
      WriteGrows(L, mid, after, Category, CALL_LOG, SEED_ACTOR, RETIRE_CATEGORY_KEY, rows);
    }
    GrowsTransitive(L, t, mid, after);
  }

  lemma StepGrows(L: Loader, t: Tables, step: Step, now: nat)
    requires Plain(step)
    ensures Grows(L, t, StepTx(L, t, step, now).db)
  {
    var after := StepTx(L, t, step, now).db;
    match step
    case EnsureDefault(d) =>
      if SeedRow(L.client, Category, d.id) !in t.rows {
        DefaultEffect(L, t, d, now);
        var rows := DefaultRows(L, t.rows, d);
        assert d.id != CALL_LOG;
        assert rows == t.rows[SeedRow(L.client, Category, d.id) := rows[SeedRow(L.client, Category, d.id)]];
        WriteGrows(L, t, after, Category, d.id, DEFAULT_ACTOR, DefaultKey(d.id), rows);
      }
    case Retire(rules) => RetireGrows(L, t, rules, now);
    case Load(seed) =>
      var v := seed.version;
      if !Skipped(L, t, v) && Accepted(L, t, seed) {
        LoadEffect(L, t, v, now);
        var rows := SeedRows(L, t.rows, v);
        assert rows == t.rows[SeedRow(L.client, v.kind, v.id) := rows[SeedRow(L.client, v.kind, v.id)]];
        WriteGrows(L, t, after, v.kind, v.id, SEED_ACTOR, SeedKey(L.hash, v), rows);
      }
  }

  lemma LoadLeavesCallLog(L: Loader, t: Tables, seed: Seed, now: nat)
    requires Plain(Load(seed))
    ensures var after := LoadTx(L, t, seed, now).db;
      && (Active(after, L.client, Category, CALL_LOG) <==> Active(t, L.client, Category, CALL_LOG))
      && Revision(after, CallLogEntity(L)) == Revision(t, CallLogEntity(L))
  {
    LoadEffect(L, t, seed.version, now);
    EntitiesDiffer(L.client, Category, CALL_LOG, seed.version.kind, seed.version.id);
  }

  lemma LoadKeepsOwners(L: Loader, t: Tables, seed: Seed, now: nat)
    ensures SameOwners(L, t, LoadTx(L, t, seed, now).db)
  {
    var v, after := seed.version, LoadTx(L, t, seed, now).db;
    if !Skipped(L, t, v) && Accepted(L, t, seed) {
      LoadEffect(L, t, v, now);
      if KeyApplied(t.receipts, L.client, SeedKey(L.hash, v)) {
        QuietAlike(L, t, after);
      } else {
        WriteKeepsOwners(L, t, after, v.kind, v.id, SEED_ACTOR, SeedKey(L.hash, v), after.rows);
      }
    }
  }

  /** A load keeps settled what was settled before it, but for retirements. */
  lemma LoadKeepsSettled(L: Loader, t: Tables, seed: Seed, now: nat, other: Step)
    requires Plain(Load(seed)) && !other.Retire? && Settled(L, t, other)
    ensures Settled(L, LoadTx(L, t, seed, now).db, other)
  {
    var after := LoadTx(L, t, seed, now).db;
    StepGrows(L, t, Load(seed), now);
    if other.Load? {
      var v := other.seed.version;
      LoadKeepsOwners(L, t, seed, now);
      LoadLeavesCallLog(L, t, seed, now);
      assert v.kind.Profile? || (Owned(L, t, v.kind, v.id) <==> Owned(L, after, v.kind, v.id));
    }
  }

  /** A load that succeeded is settled. */
  lemma LoadSettles(L: Loader, t: Tables, seed: Seed, now: nat)
    requires Plain(Load(seed)) && LoadTx(L, t, seed, now).error.None? && Active(t, L.client, Category, FALLBACK)
    ensures Settled(L, LoadTx(L, t, seed, now).db, Load(seed))
  {
    var v, after := seed.version, LoadTx(L, t, seed, now).db;
    if !Skipped(L, t, v) {
      if v.kind.Rule? {
        FallbackMakesKnownActive(L, t, v.pin.category);
        StepGrows(L, t, Load(seed), now);
        LoadLeavesCallLog(L, t, seed, now);
      }
      LoadEffect(L, t, v, now);
      if Quiet(t, after) {
        QuietLookups(t, after);
      } else {
        WroteLookups(t, after, SeedEntity(L.client, v.kind, v.id), SEED_ACTOR, SeedKey(L.hash, v),
                     SeedRows(L, t.rows, v));
      }
    }
  }

  // ------------------------------------------------------------------
  // What holds after the first steps of a boot

  /** After `n` steps: spent defaults kept until the retirement, the fallback active, the steps settled. */
  ghost predicate Booted(L: Loader, t: Tables, boot: seq<Event>, at: nat, n: nat)
    requires n <= |boot|
  {
    && (n <= at ==> SpentDefaultsKept(L, t))
    && (n > 0 ==> Active(t, L.client, Category, FALLBACK))
    && (forall i | 0 <= i < n && i != at :: Settled(L, t, boot[i].step))
  }

  lemma DefaultKeepsSpent(L: Loader, t: Tables, d: Default, now: nat)
    requires SpentDefaultsKept(L, t)
    ensures DefaultTx(L, t, d, now).error.None? && SpentDefaultsKept(L, DefaultTx(L, t, d, now).db)
    ensures SeedRow(L.client, Category, d.id) in DefaultTx(L, t, d, now).db.rows
  {
    if SeedRow(L.client, Category, d.id) !in t.rows {
      DefaultEffect(L, t, d, now);
      var after := DefaultTx(L, t, d, now).db;
      WroteLookups(t, after, SeedEntity(L.client, Category, d.id), DEFAULT_ACTOR, DefaultKey(d.id), after.rows);
      forall id: string | KeyApplied(after.receipts, L.client, DefaultKey(id))
        ensures SeedRow(L.client, Category, id) in after.rows
      {
        if DefaultKey(id) == DefaultKey(d.id) {
          DefaultKeyInjective(id, d.id);
        }
      }
    }
  }

  lemma NextBooted(L: Loader, t: Tables, boot: seq<Event>, at: nat, n: nat, r: StepResult)
    requires AllPlain(boot) && RetiresAt(boot, at) && 0 < n < |boot| && Booted(L, t, boot, at, n)
    requires r == StepTx(L, t, boot[n].step, boot[n].now) && r.error.None?
    ensures Booted(L, r.db, boot, at, n + 1)
  {
    hide Settled;
    var step, now := boot[n].step, boot[n].now;
    StepGrows(L, t, step, now);
    match step
    case EnsureDefault(d) =>
      DefaultKeepsSpent(L, t, d, now);
      EarlierDefaultsStay(L, t, boot, at, n, r.db);
    case Retire(_) => EarlierDefaultsStay(L, t, boot, at, n, r.db);
    case Load(seed) =>
      LoadSettles(L, t, seed, now);
      forall i | 0 <= i < n && i != at ensures Settled(L, r.db, boot[i].step) {
        LoadKeepsSettled(L, t, seed, now, boot[i].step);
      }
  }

  lemma EarlierDefaultsStay(L: Loader, t: Tables, boot: seq<Event>, at: nat, n: nat, after: Tables)
    requires RetiresAt(boot, at) && n <= at && Booted(L, t, boot, at, n) && Grows(L, t, after)
    requires n < at ==> SeedRow(L.client, Category, boot[n].step.d.id) in after.rows
    ensures forall i | 0 <= i <= n && i != at :: Settled(L, after, boot[i].step)
  {
    forall i | 0 <= i <= n && i != at ensures Settled(L, after, boot[i].step) {
      assert boot[i].step.EnsureDefault?;
      if i < n {
        assert Settled(L, t, boot[i].step);
      }
    }
  }

  lemma FirstBooted(L: Loader, t: Tables, boot: seq<Event>, at: nat)
    requires WellBooted(L, t, boot, at)
    ensures Booted(L, StepTx(L, t, boot[0].step, boot[0].now).db, boot, at, 1)
  {
    hide DefaultTx;
    FirstStepActivates(L, t, boot[0].now);
    DefaultKeepsSpent(L, t, DEFAULTS[0], boot[0].now);
  }

  lemma {:induction false} BootSettles(L: Loader, t: Tables, boot: seq<Event>, at: nat, n: nat)
    requires WellBooted(L, t, boot, at) && n <= |boot| && Boot(L, t, boot[..n]).error.None?
    ensures Booted(L, Boot(L, t, boot[..n]).db, boot, at, n)
  {
    hide StepTx, Settled;
    if n > 0 {
      BootStep(L, t, boot, n);
      BootSettles(L, t, boot, at, n - 1);
      if n == 1 {
        FirstBooted(L, t, boot, at);
      } else {
        NextBooted(L, Boot(L, t, boot[..n - 1]).db, boot, at, n - 1, Boot(L, t, boot[..n]));
      }
    }
  }

  // ------------------------------------------------------------------
  // Running the finished part again

  /** The defaults of a boot that got past them are not written again. */
  lemma {:induction false} DefaultsRerun(L: Loader, t: Tables, rerun: seq<Event>, m: nat)
    requires m <= |rerun|
    requires forall i | 0 <= i < m :: rerun[i].step.EnsureDefault? && Settled(L, t, rerun[i].step)
    ensures Boot(L, t, rerun[..m]) == Seeds.Done(t)
  {
    if m > 0 {
      BootStep(L, t, rerun, m);
      DefaultsRerun(L, t, rerun, m - 1);
      assert Settled(L, t, rerun[m - 1].step);
    }
  }

  /** A boot that did nothing a boot can see, so far. */
  ghost predicate RanQuietly(L: Loader, t: Tables, r: StepResult) {
    r.error.None? && Alike(L, t, r.db)
  }

  lemma QuietNext(L: Loader, t: Tables, r: StepResult, event: Event, r': StepResult)
    requires RanQuietly(L, t, r) && event.step.Load? && Settled(L, t, event.step)
    requires r' == After(L, r, event)
    ensures RanQuietly(L, t, r')
  {
    AcceptedAlike(L, t, r.db, event.step.seed);
    SettledIsQuiet(L, r.db, event.step, event.now);
    hide StepTx, Alike, Settled;
    AlikeItself(L, t);
    AlikeChain(L, t, t, r.db, r'.db);
  }

  /** From an inert state, the part of the boot that was finished runs again quietly. */
  lemma {:induction false} RerunIsQuiet(L: Loader, t: Tables, rerun: seq<Event>, at: nat, n: nat)
    requires RetiresAt(rerun, at) && at < n <= |rerun| && Inert(L, t) && Listed(L, t, rerun)
    requires forall i | 0 <= i < n && i != at :: Settled(L, t, rerun[i].step)
    ensures RanQuietly(L, t, Boot(L, t, rerun[..n]))
  {
    hide Inert, Alike, StepTx;
    BootStep(L, t, rerun, n);
    if n == at + 1 {
      DefaultsRerun(L, t, rerun, at);
      ListedStep(L, t, rerun, at);
      SettledIsQuiet(L, t, rerun[at].step, rerun[at].now);
    } else {
      RerunIsQuiet(L, t, rerun, at, n - 1);
      QuietNext(L, t, Boot(L, t, rerun[..n - 1]), rerun[n - 1], Boot(L, t, rerun[..n]));
    }
  }

  // ------------------------------------------------------------------
  // The rest of a boot, from states a boot cannot tell apart

  lemma DefaultKeepsOwned(L: Loader, t: Tables, d: Default, now: nat)
    requires OwnedDefaultsKept(L, t) && d in DEFAULTS
    ensures OwnedDefaultsKept(L, DefaultTx(L, t, d, now).db)
  {
    if SeedRow(L.client, Category, d.id) !in t.rows {
      DefaultEffect(L, t, d, now);
      var after := DefaultTx(L, t, d, now).db;
      if KeyApplied(t.receipts, L.client, DefaultKey(d.id)) {
        QuietAlike(L, t, after);
      } else {
        WriteKeepsOwners(L, t, after, Category, d.id, DEFAULT_ACTOR, DefaultKey(d.id), after.rows);
      }
      forall x | x in DEFAULTS && Owned(L, after, Category, x.id)
        ensures SeedRow(L.client, Category, x.id) in after.rows
      {
        assert Owned(L, t, Category, x.id);
      }
    }
  }

  lemma {:induction false} BootKeepsOwned(L: Loader, t: Tables, boot: seq<Event>, at: nat, m: nat)
    requires AllPlain(boot) && RetiresAt(boot, at) && OwnedDefaultsKept(L, t) && m <= at
    ensures OwnedDefaultsKept(L, Boot(L, t, boot[..m]).db)
  {
    hide DefaultTx, OwnedDefaultsKept;
    if m > 0 {
      BootStep(L, t, boot, m);
      BootKeepsOwned(L, t, boot, at, m - 1);
      DefaultKeepsOwned(L, Boot(L, t, boot[..m - 1]).db, boot[m - 1].step.d, boot[m - 1].now);
    }
  }

  lemma AfterAlike(L: Loader, a: StepResult, b: StepResult, x: Event, y: Event, a': StepResult, b': StepResult)
    requires a' == After(L, a, x) && b' == After(L, b, y)
    requires AlikeResults(L, a, b) && SameStep(x.step, y.step)
    requires a.error.None? ==>
      KeepsDefault(L, a.db, x.step) && ListedAt(L, a.db, x.step) && ListedAt(L, b.db, y.step)
    ensures AlikeResults(L, a', b')
  {
    if a.error.None? {
      StepAlike(L, a.db, b.db, x.step, y.step, x.now, y.now);
    }
  }

  /** Boots of the same steps from states a boot cannot tell apart end in such states. */
  lemma {:induction false} BootsAlike(L: Loader, t: Tables, boot: seq<Event>, at: nat, u: Tables, rerun: seq<Event>,
                                      n: nat, m: nat)
    requires AllPlain(boot) && RetiresAt(boot, at) && SameSteps(boot, rerun) && n <= m <= |boot|
    requires n <= at ==> OwnedDefaultsKept(L, t) && Listed(L, t, boot)
    requires Listed(L, u, rerun)
    requires AlikeResults(L, Boot(L, t, boot[..n]), Boot(L, u, rerun[..n]))
    ensures AlikeResults(L, Boot(L, t, boot[..m]), Boot(L, u, rerun[..m]))
  {
    hide Boot, StepTx, Alike, ListedAt;
    if m > n {
      BootsAlike(L, t, boot, at, u, rerun, n, m - 1);
      BootStep(L, t, boot, m);
      BootStep(L, u, rerun, m);
      var a, b := Boot(L, t, boot[..m - 1]), Boot(L, u, rerun[..m - 1]);
      NextIsKept(L, t, boot, at, n, m - 1);
      if a.error.None? {
        ListedStep(L, u, rerun, m - 1);
      }
      AfterAlike(L, a, b, boot[m - 1], rerun[m - 1], Boot(L, t, boot[..m]), Boot(L, u, rerun[..m]));
    }
  }

  lemma NextIsKept(L: Loader, t: Tables, boot: seq<Event>, at: nat, n: nat, m: nat)
    requires AllPlain(boot) && RetiresAt(boot, at) && n <= m < |boot|
    requires n <= at ==> OwnedDefaultsKept(L, t) && Listed(L, t, boot)
    ensures var a := Boot(L, t, boot[..m]);
      a.error.None? ==> KeepsDefault(L, a.db, boot[m].step) && ListedAt(L, a.db, boot[m].step)
  {
    if m < at {
      BootKeepsOwned(L, t, boot, at, m);
      assert boot[m].step.d in DEFAULTS;
    } else if m == at && Boot(L, t, boot[..m]).error.None? {
      ListedStep(L, t, boot, m);
    }
  }

  // ------------------------------------------------------------------
  // The rest of a boot, from states that are apart

  predicate IsLoadError(error: Option<StoreError>) {
    error.None? || error == Some(Domain("seed_invalid")) || error == Some(Domain("email_triage_category_unknown"))
  }

  lemma LoadFails(L: Loader, t: Tables, seed: Seed, now: nat)
    ensures IsLoadError(LoadTx(L, t, seed, now).error)
  {
    LoadEffect(L, t, seed.version, now);
  }

  /** Loads end a boot with errors of their own, and leave call_log's revision alone. */
  lemma {:induction false} LoadsLeaveCallLog(L: Loader, t: Tables, boot: seq<Event>, at: nat, n: nat, m: nat)
    requires AllPlain(boot) && RetiresAt(boot, at) && at < n <= m <= |boot|
    ensures Revision(Boot(L, t, boot[..m]).db, CallLogEntity(L)) == Revision(Boot(L, t, boot[..n]).db, CallLogEntity(L))
    ensures Boot(L, t, boot[..n]).error.None? ==> IsLoadError(Boot(L, t, boot[..m]).error)
    ensures Boot(L, t, boot[..n]).error.Some? ==> Boot(L, t, boot[..m]) == Boot(L, t, boot[..n])
  {
    hide Boot, LoadTx;
    if m > n {
      LoadsLeaveCallLog(L, t, boot, at, n, m - 1);
      BootStep(L, t, boot, m);
      var r := Boot(L, t, boot[..m - 1]);
      LoadLeavesCallLog(L, r.db, boot[m - 1].step.seed, boot[m - 1].now);
      LoadFails(L, r.db, boot[m - 1].step.seed, boot[m - 1].now);
    }
  }

  lemma QuietApart(L: Loader, t: Tables, u: Tables, u': Tables, e: Entity)
    requires Apart(L, t, u, e) && (u' == u || Quiet(u, u'))
    ensures Apart(L, t, u', e)
  {
    if Quiet(u, u') {
      QuietAlike(L, u, u');
      AlikeItself(L, t);
      OwnersChain(L, t, t, u, u');
      hide OperatorOwned, SameOwners;
      assert Revision(u', e) == Revision(u, e);
      forall k: RowKey | k.client == L.client && k.table == TableOf(Category) ensures SameRow(t, u', k) {
        assert SameRow(t, u, k);
      }
    }
  }

  lemma ReadsApart(L: Loader, t: Tables, u: Tables, seed: Seed, e: Entity)
    requires Apart(L, t, u, e)
    ensures Skipped(L, t, seed.version) <==> Skipped(L, u, seed.version)
    ensures forall id: string :: Active(t, L.client, Category, id) <==> Active(u, L.client, Category, id)
    ensures Accepted(L, t, seed) <==> Accepted(L, u, seed)
    ensures Settled(L, t, Load(seed)) <==> Settled(L, u, Load(seed))
  {
    var v := seed.version;
    assert v.kind.Profile? || (Owned(L, t, v.kind, v.id) <==> Owned(L, u, v.kind, v.id));
    forall id: string ensures Active(t, L.client, Category, id) <==> Active(u, L.client, Category, id) {
      assert SameRow(t, u, SeedRow(L.client, Category, id));
    }
    if NoCategoryActive(t, L.client) {
      forall k | k in u.rows && k.client == L.client && k.table == TableOf(Category) ensures u.rows[k].deleted {
        assert SameRow(t, u, k);
      }
    }
    if NoCategoryActive(u, L.client) {
      forall k | k in t.rows && k.client == L.client && k.table == TableOf(Category) ensures t.rows[k].deleted {
        assert SameRow(t, u, k);
      }
    }
  }

  /** A load that is settled in the first state is quiet in the second. */
  lemma SettledLoadApart(L: Loader, t: Tables, u: Tables, seed: Seed, now: nat, e: Entity)
    requires Apart(L, t, u, e) && Settled(L, t, Load(seed))
    ensures LoadTx(L, u, seed, now).error.None? && Apart(L, t, LoadTx(L, u, seed, now).db, e)
  {
    ReadsApart(L, t, u, seed, e);
    SettledLoad(L, u, seed, now);
    QuietApart(L, t, u, LoadTx(L, u, seed, now).db, e);
  }

  lemma WroteApart(L: Loader, t: Tables, t': Tables, u: Tables, u': Tables, v: Version, e: Entity)
    requires Apart(L, t, u, e) && (v.kind.Profile? || !Owned(L, t, v.kind, v.id))
    requires Wrote(t, t', SeedEntity(L.client, v.kind, v.id), SEED_ACTOR, SeedKey(L.hash, v), SeedRows(L, t.rows, v))
    requires Wrote(u, u', SeedEntity(L.client, v.kind, v.id), SEED_ACTOR, SeedKey(L.hash, v), SeedRows(L, u.rows, v))
    ensures Apart(L, t', u', e)
  {
    assert v.kind.Profile? || (Owned(L, t, v.kind, v.id) <==> Owned(L, u, v.kind, v.id));
    WriteKeepsOwners(L, t, t', v.kind, v.id, SEED_ACTOR, SeedKey(L.hash, v), t'.rows);
    WriteKeepsOwners(L, u, u', v.kind, v.id, SEED_ACTOR, SeedKey(L.hash, v), u'.rows);
    OwnersChain(L, t, t', u, u');
    hide OperatorOwned, SameOwners;
    WroteLookups(t, t', SeedEntity(L.client, v.kind, v.id), SEED_ACTOR, SeedKey(L.hash, v), t'.rows);
    WroteLookups(u, u', SeedEntity(L.client, v.kind, v.id), SEED_ACTOR, SeedKey(L.hash, v), u'.rows);
    forall k: RowKey | k.client == L.client && k.table == TableOf(Category) ensures SameRow(t', u', k) {
      assert SameRow(t, u, k);
    }
  }

  lemma LoadApart(L: Loader, t: Tables, u: Tables, seed: Seed, now: nat, later: nat, e: Entity)
    requires Apart(L, t, u, e)
    ensures Apart(L, LoadTx(L, t, seed, now).db, LoadTx(L, u, seed, later).db, e)
    ensures LoadTx(L, t, seed, now).error == LoadTx(L, u, seed, later).error
  {
    var v := seed.version;
    ReadsApart(L, t, u, seed, e);
    if !Skipped(L, t, v) && Accepted(L, t, seed) {
      LoadEffect(L, t, v, now);
      LoadEffect(L, u, v, later);
      var t', u' := LoadTx(L, t, seed, now).db, LoadTx(L, u, seed, later).db;
      hide Accepted, LoadTx;
      if KeyApplied(t.receipts, L.client, SeedKey(L.hash, v)) {
        QuietApart(L, t, u, u', e);
        QuietApartFirst(L, t, t', u', e);
      } else {
        WroteApart(L, t, t', u, u', v, e);
      }
    }
  }

  lemma QuietApartFirst(L: Loader, t: Tables, t': Tables, u: Tables, e: Entity)
    requires Apart(L, t, u, e) && Quiet(t, t')
    ensures Apart(L, t', u, e)
  {
    QuietAlike(L, t, t');
    AlikeItself(L, u);
    OwnersChain(L, t, t', u, u);
    hide OperatorOwned, SameOwners;
    assert Revision(t', e) == Revision(t, e);
    forall k: RowKey | k.client == L.client && k.table == TableOf(Category) ensures SameRow(t', u, k) {
      assert SameRow(t, u, k);
    }
  }

  /** The finished loads run again quietly beside the state they were finished in. */
  lemma {:induction false} RerunApart(L: Loader, t: Tables, rerun: seq<Event>, at: nat, n: nat, e: Entity)
    requires RetiresAt(rerun, at) && at < n <= |rerun|
    requires forall i | 0 <= i < n && i != at :: Settled(L, t, rerun[i].step)
    requires var r := Boot(L, t, rerun[..at + 1]); r.error.None? && Apart(L, t, r.db, e)
    ensures var r := Boot(L, t, rerun[..n]); r.error.None? && Apart(L, t, r.db, e)
  {
    hide Boot, LoadTx, Apart, Settled;
    if n > at + 1 {
      RerunApart(L, t, rerun, at, n - 1, e);
      BootStep(L, t, rerun, n);
      SettledLoadApart(L, t, Boot(L, t, rerun[..n - 1]).db, rerun[n - 1].step.seed, rerun[n - 1].now, e);
    }
  }

  ghost predicate ApartResults(L: Loader, a: StepResult, b: StepResult, e: Entity) {
    a.error == b.error && Apart(L, a.db, b.db, e)
  }

  /** Loads keep them apart. */
  lemma {:induction false} BootsApart(L: Loader, t: Tables, boot: seq<Event>, at: nat, u: Tables, rerun: seq<Event>,
                                      n: nat, m: nat, e: Entity)
    requires RetiresAt(boot, at) && SameSteps(boot, rerun) && at < n <= m <= |boot|
    requires ApartResults(L, Boot(L, t, boot[..n]), Boot(L, u, rerun[..n]), e)
    ensures ApartResults(L, Boot(L, t, boot[..m]), Boot(L, u, rerun[..m]), e)
  {
    hide Boot, LoadTx, Apart;
    if m > n {
      BootsApart(L, t, boot, at, u, rerun, n, m - 1, e);
      BootStep(L, t, boot, m);
      BootStep(L, u, rerun, m);
      var a, b := Boot(L, t, boot[..m - 1]), Boot(L, u, rerun[..m - 1]);
      assert SameStep(boot[m - 1].step, rerun[m - 1].step) && boot[m - 1].step.Load?;
      LoadApart(L, a.db, b.db, boot[m - 1].step.seed, boot[m - 1].now, rerun[m - 1].now, e);
    }
  }

  // ------------------------------------------------------------------
  // Main results

  predicate SameEnd(a: StepResult, b: StepResult) {
    a.error == b.error && a.db.rows == b.db.rows && a.db.revisions == b.db.revisions
  }

  /** The steps that were finished are settled for the rerun, its retirement aside. */
  lemma FinishedIsSettled(L: Loader, t: Tables, boot: seq<Event>, at: nat, n: nat, rerun: seq<Event>)
    requires WellBooted(L, t, boot, at) && SameSteps(boot, rerun) && n <= |boot| && Boot(L, t, boot[..n]).error.None?
    ensures RetiresAt(rerun, at) && AllPlain(rerun)
    ensures forall i | 0 <= i < n && i != at :: Settled(L, Boot(L, t, boot[..n]).db, rerun[i].step)
  {
    hide Settled;
    BootSettles(L, t, boot, at, n);
    forall i | 0 <= i < |rerun| ensures SameStep(boot[i].step, rerun[i].step) && Plain(rerun[i].step) {
      assert Plain(boot[i].step);
    }
    forall i | 0 <= i < n && i != at ensures Settled(L, Boot(L, t, boot[..n]).db, rerun[i].step) {
      assert boot[i].step == rerun[i].step;
    }
  }

  /** A boot that crashed before its retirement ended, between two of its steps, and was run again. */
  lemma EarlyCrash(L: Loader, t: Tables, boot: seq<Event>, at: nat, n: nat, rerun: seq<Event>)
    requires WellBooted(L, t, boot, at) && SameSteps(boot, rerun) && n <= at
    requires Boot(L, t, boot[..n]).error.None? && Listed(L, Boot(L, t, boot[..n]).db, rerun)
    requires OwnedDefaultsKept(L, t) && Listed(L, t, boot)
    ensures SameEnd(Boot(L, Boot(L, t, boot[..n]).db, rerun), Boot(L, t, boot))
  {
    var u := Boot(L, t, boot[..n]).db;
    FinishedIsSettled(L, t, boot, at, n, rerun);
    hide StepTx, Settled, WellBooted;
    DefaultsRerun(L, u, rerun, n);
    AlikeItself(L, u);
    BootsAlike(L, t, boot, at, u, rerun, n, |boot|);
    assert boot[..|boot|] == boot && rerun[..|rerun|] == rerun;
  }

  /** A boot that crashed in an inert state after its retirement, and was run again. */
  lemma InertCrash(L: Loader, t: Tables, boot: seq<Event>, at: nat, n: nat, rerun: seq<Event>)
    requires WellBooted(L, t, boot, at) && SameSteps(boot, rerun) && at < n <= |boot|
    requires Boot(L, t, boot[..n]).error.None? && Listed(L, Boot(L, t, boot[..n]).db, rerun)
    requires Inert(L, Boot(L, t, boot[..n]).db)
    ensures SameEnd(Boot(L, Boot(L, t, boot[..n]).db, rerun), Boot(L, t, boot))
  {
    var u := Boot(L, t, boot[..n]).db;
    FinishedIsSettled(L, t, boot, at, n, rerun);
    hide StepTx, Settled, WellBooted, Inert;
    RerunIsQuiet(L, u, rerun, at, n);
    BootsAlike(L, t, boot, at, u, rerun, n, |boot|);
    assert boot[..|boot|] == boot && rerun[..|rerun|] == rerun;
  }

  /** From any other state the rerun ends with another error, or with another revision of what it hid. */
  lemma MovingCrash(L: Loader, t: Tables, boot: seq<Event>, at: nat, n: nat, rerun: seq<Event>)
    requires WellBooted(L, t, boot, at) && SameSteps(boot, rerun) && at < n <= |boot|
    requires Boot(L, t, boot[..n]).error.None? && Listed(L, Boot(L, t, boot[..n]).db, rerun)
    requires !Inert(L, Boot(L, t, boot[..n]).db)
    ensures !SameEnd(Boot(L, Boot(L, t, boot[..n]).db, rerun), Boot(L, t, boot))
  {
    var u := Boot(L, t, boot[..n]).db;
    FinishedIsSettled(L, t, boot, at, n, rerun);
    hide StepTx, Settled, WellBooted, Inert, Apart;
    DefaultsRerun(L, u, rerun, at);
    BootStep(L, u, rerun, at + 1);
    ListedStep(L, u, rerun, at);
    var r := Boot(L, u, rerun[..at + 1]);
    var e := MovedBy(L, u, rerun[at], r);
    LoadsLeaveCallLog(L, t, boot, at, n, |boot|);
    LoadsLeaveCallLog(L, u, rerun, at, at + 1, |rerun|);
    assert boot[..|boot|] == boot && rerun[..|rerun|] == rerun;
    if r.error.None? && Apart(L, u, r.db, e) {
      RerunApart(L, u, rerun, at, n, e);
      BootsApart(L, t, boot, at, u, rerun, n, |boot|, e);
      ApartDiffers(L, Boot(L, t, boot).db, Boot(L, u, rerun).db, e);
    }
  }

  lemma MovedBy(L: Loader, u: Tables, event: Event, r: StepResult) returns (e: Entity)
    requires !Inert(L, u) && event.step.Retire? && ListedAt(L, u, event.step)
    requires r == StepTx(L, u, event.step, event.now)
    ensures r.error == Some(CALL_LOG_IS_SYSTEM)
      || (r.error.None? && e == CallLogEntity(L) && Bumped(u, r.db, e))
      || (r.error.None? && Apart(L, u, r.db, e))
  {
    e := MovingRetires(L, u, event.step.rules, event.now);
  }

  lemma ApartDiffers(L: Loader, a: Tables, b: Tables, e: Entity)
    requires Apart(L, a, b, e)
    ensures a.revisions != b.revisions
  {
  }

  /**
   A boot that crashed after any number of successful steps, and was then run again, ends like one
   uninterrupted boot: always if it had not finished its retirement, and otherwise if and only if the
   state it crashed in is inert. With `n` at the end of the boot this says when booting twice is booting once.
  */
  lemma CrashThenRerun(L: Loader, t: Tables, boot: seq<Event>, at: nat, n: nat, rerun: seq<Event>)
    requires WellBooted(L, t, boot, at) && SameSteps(boot, rerun) && n <= |boot|
    requires Boot(L, t, boot[..n]).error.None? && Listed(L, Boot(L, t, boot[..n]).db, rerun)
    requires n <= at ==> OwnedDefaultsKept(L, t) && Listed(L, t, boot)
    ensures SameEnd(Boot(L, Boot(L, t, boot[..n]).db, rerun), Boot(L, t, boot))
      <==> n <= at || Inert(L, Boot(L, t, boot[..n]).db)
  {
    hide Boot, WellBooted, Inert, SameEnd;
    if n <= at {
      EarlyCrash(L, t, boot, at, n, rerun);
    } else if Inert(L, Boot(L, t, boot[..n]).db) {
      InertCrash(L, t, boot, at, n, rerun);
    } else {
      MovingCrash(L, t, boot, at, n, rerun);
    }
  }

  /** Booting once more changes nothing exactly from an inert state. */
  lemma BootingTwiceIff(L: Loader, t: Tables, boot: seq<Event>, at: nat, once: Tables, rerun: seq<Event>)
    requires WellBooted(L, t, boot, at) && SameSteps(boot, rerun)
    requires Boot(L, t, boot) == Seeds.Done(once) && Listed(L, once, rerun)
    ensures SameEnd(Boot(L, once, rerun), Seeds.Done(once)) <==> Inert(L, once)
  {
    assert at < |boot| && boot[..|boot|] == boot;
    hide Boot, WellBooted, Inert, Listed;
    CrashThenRerun(L, t, boot, at, |boot|, rerun);
  }

  /** A crash between the transactions of the retirement never matters, whatever is owned or spent. */
  lemma CrashWhileRetiring(L: Loader, t: Tables, boot: seq<Event>, at: nat, k: nat, rerun: seq<Event>)
    requires WellBooted(L, t, boot, at) && SameSteps(boot, rerun) && Boot(L, t, boot[..at]).error.None?
    requires !AtRest(L, Boot(L, t, boot[..at]).db) && Listed(L, t, boot) && k <= |boot[at].step.rules|
    requires Listed(L, RetireRulesTx(L, Boot(L, t, boot[..at]).db, boot[at].step.rules, k, boot[at].now).db, rerun)
    ensures var mid := RetireRulesTx(L, Boot(L, t, boot[..at]).db, boot[at].step.rules, k, boot[at].now).db;
      SameEnd(Boot(L, mid, rerun), Boot(L, t, boot))
  {
    var before, rules, now := Boot(L, t, boot[..at]).db, boot[at].step.rules, boot[at].now;
    var mid := RetireRulesTx(L, before, rules, k, now).db;
    FinishedIsSettled(L, t, boot, at, at, rerun);
    ListedStep(L, t, boot, at);
    RetireRulesGrow(L, before, rules, k, now);
    forall i | 0 <= i < at ensures Settled(L, mid, rerun[i].step) {
      assert Settled(L, before, rerun[i].step) && rerun[i].step.EnsureDefault?;
    }
    hide RetireRulesTx, RetireTx, Settled, WellBooted;
    DefaultsRerun(L, mid, rerun, at);
    ListedStep(L, mid, rerun, at);
    PartlyRetiredRests(L, before, rules, k, now);
    RetireResumes(L, before, rules, k, now, rerun[at].step.rules, rerun[at].now);
    BootStep(L, t, boot, at + 1);
    BootStep(L, mid, rerun, at + 1);
    BootsAlike(L, t, boot, at, mid, rerun, at + 1, |boot|);
    assert boot[..|boot|] == boot && rerun[..|rerun|] == rerun;
  }

  lemma PartlyRetiredRests(L: Loader, t: Tables, rules: seq<string>, k: nat, now: nat)
    requires Lists(t, L.client, rules) && k <= |rules|
    ensures AtRest(L, RetireRulesTx(L, t, rules, k, now).db) <==> AtRest(L, t)
  {
    hide RetireRuleTx, Hides, AtRest;
    ListedAreRetirees(L, t, rules);
    RetireRulesHide(L, t, rules, k, now);
    HidesCategories(L, t, RetireRulesTx(L, t, rules, k, now).db, Movable(L, t, rules, k));
  }

  // ------------------------------------------------------------------
  // States from which no crash matters

  lemma RestIsInert(L: Loader, t: Tables)
    requires AtRest(L, t)
    ensures Inert(L, t)
  {
  }

  /** Loads leave a retirement nothing to do if it had nothing to do. */
  lemma {:induction false} LoadsStayAtRest(L: Loader, t: Tables, boot: seq<Event>, at: nat, m: nat)
    requires AllPlain(boot) && RetiresAt(boot, at) && at < m <= |boot| && AtRest(L, Boot(L, t, boot[..at + 1]).db)
    ensures AtRest(L, Boot(L, t, boot[..m]).db)
  {
    hide Boot, LoadTx, OperatorOwned;
    if m > at + 1 {
      LoadsStayAtRest(L, t, boot, at, m - 1);
      BootStep(L, t, boot, m);
      var r := Boot(L, t, boot[..m - 1]).db;
      var seed, now := boot[m - 1].step.seed, boot[m - 1].now;
      LoadLeavesCallLog(L, r, seed, now);
      LoadKeepsOwners(L, r, seed, now);
      assert Owned(L, r, Category, CALL_LOG) <==> Owned(L, LoadTx(L, r, seed, now).db, Category, CALL_LOG);
    }
  }

  /** No operator's rule pins call_log, and no retirement key that is needed was spent. */
  ghost predicate Retirable(L: Loader, t: Tables) {
    && !KeyApplied(t.receipts, L.client, RETIRE_CATEGORY_KEY)
    && (forall id: string | ActivePin(t, L.client, CALL_LOG, SeedRow(L.client, Rule, id)) :: !Immovable(L, t, id))
  }

  /** Then a retirement that ends without an error has nothing left to do. */
  lemma RetirementFinishes(L: Loader, t: Tables, rules: seq<string>, now: nat)
    requires ListedAt(L, t, Retire(rules)) && (AtRest(L, t) || Retirable(L, t))
    requires RetireTx(L, t, rules, now).error.None?
    ensures AtRest(L, RetireTx(L, t, rules, now).db)
  {
    if !AtRest(L, t) {
      var mid, ids := RetiresListed(L, t, rules, now);
      PinnedAfter(L, t, mid, ids);
      HidesCategories(L, t, mid, ids);
      DeletedIs(L, mid, now);
    }
  }

  /** So no crash of a boot matters that found call_log retirable. */
  lemma CleanRetirementSurvivesCrash(L: Loader, t: Tables, boot: seq<Event>, at: nat, n: nat, rerun: seq<Event>)
    requires WellBooted(L, t, boot, at) && SameSteps(boot, rerun) && n <= |boot|
    requires Boot(L, t, boot[..n]).error.None? && Listed(L, Boot(L, t, boot[..n]).db, rerun)
    requires OwnedDefaultsKept(L, t) && Listed(L, t, boot)
    requires var before := Boot(L, t, boot[..at]).db; AtRest(L, before) || Retirable(L, before)
    ensures SameEnd(Boot(L, Boot(L, t, boot[..n]).db, rerun), Boot(L, t, boot))
  {
    hide RetireTx, AtRest, Retirable, Inert, SameEnd;
    if n > at {
      EarlierSucceeds(L, t, boot, at, n);
      EarlierSucceeds(L, t, boot, at + 1, n);
      BootStep(L, t, boot, at + 1);
      ListedStep(L, t, boot, at);
      RetirementFinishes(L, Boot(L, t, boot[..at]).db, boot[at].step.rules, boot[at].now);
      LoadsStayAtRest(L, t, boot, at, n);
      RestIsInert(L, Boot(L, t, boot[..n]).db);
    }
    CrashThenRerun(L, t, boot, at, n, rerun);
  }

  lemma {:induction false} EarlierSucceeds(L: Loader, t: Tables, boot: seq<Event>, m: nat, n: nat)
    requires m <= n <= |boot| && Boot(L, t, boot[..n]).error.None?
    ensures Boot(L, t, boot[..m]).error.None?
  {
    if m < n {
      BootStep(L, t, boot, n);
      EarlierSucceeds(L, t, boot, m, n - 1);
    }
  }

  /** Boots from a blank start lead to states from which no crash matters, whatever was listed. */
  lemma ReachedStatesAreAtRest(L: Loader, t: Tables, events: seq<Event>, boot: seq<Event>)
    requires IsHash(L.hash, Loaded(events)) && Blank(L, t, Loaded(events)) && AllPlain(events)
    requires boot != [] && boot[0].step == EnsureDefault(DEFAULTS[0])
    ensures var after := Run(L, t, events);
      && SpentDefaultsKept(L, after) && OwnedDefaultsKept(L, after) && StartsBoot(L, after, boot)
      && AtRest(L, after)
  {
    BlankRunKeepsInv(L, t, events);
    var after, versions := Run(L, t, events), Versions(L, t, events);
    forall id: string | KeyApplied(after.receipts, L.client, DefaultKey(id))
      ensures SeedRow(L.client, Category, id) in after.rows
    {
      assert RowMatches(L, after, versions, Category, id);
    }
    forall d | d in DEFAULTS ensures !Owned(L, after, Category, d.id) {
    }
    assert RowMatches(L, after, versions, Category, FALLBACK);
  }
}
