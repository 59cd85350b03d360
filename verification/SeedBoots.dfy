/**
 What single boots keep: operator ownership and the pins of active rules.
*/
module SeedBoots {
  import opened Wrappers
  import opened Schema
  import opened StoreCore
  import opened Seeds
  import opened SeedRuns

  /** A boot runs its steps in order and ends at the first error. */
  function Boot(L: Loader, t: Tables, events: seq<Event>): StepResult {
    if events == [] then Seeds.Done(t)
    else
      var r := Boot(L, t, events[..|events| - 1]);
      if r.error.Some? then r else StepTx(L, r.db, events[|events| - 1].step, events[|events| - 1].now)
  }

  /** So a boot is a run of some first part of its steps. */
  lemma {:induction false} BootIsRun(L: Loader, t: Tables, events: seq<Event>) returns (n: nat)
    ensures n <= |events| && Boot(L, t, events).db == Run(L, t, events[..n])
    ensures Boot(L, t, events).error.None? ==> n == |events|
  {
    if events == [] {
      n := 0;
    } else {
      var front := events[..|events| - 1];
      n := BootIsRun(L, t, front);
      if Boot(L, t, front).error.None? {
        n := |events|;
        assert events[..n] == events && front[..|front|] == front;
      } else {
        assert events[..n] == front[..n];
      }
    }
  }

  // ------------------------------------------------------------------
  // Operator ownership

  /** Nothing about this seed has moved. */
  predicate Untouched(L: Loader, t: Tables, after: Tables, kind: Kind, id: string) {
    var e, k := SeedEntity(L.client, kind, id), SeedRow(L.client, kind, id);
    && (OperatorOwned(after, e) <==> OperatorOwned(t, e))
    && Revision(after, e) == Revision(t, e)
    && (k in after.rows <==> k in t.rows)
    && (k in t.rows ==> after.rows[k] == t.rows[k])
  }

  lemma OtherWriteLeaves(L: Loader, t: Tables, after: Tables, kind: Kind, id: string, kind': Kind, id': string,
                         actor: string, key: string, rows: map<RowKey, Row>)
    requires kind != kind' || id != id'
    requires var k := SeedRow(L.client, kind', id');
      rows == t.rows || (k in rows && rows == t.rows[k := rows[k]])
    requires Quiet(t, after) || Wrote(t, after, SeedEntity(L.client, kind', id'), actor, key, rows)
    ensures Untouched(L, t, after, kind, id)
  {
    EntitiesDiffer(L.client, kind, id, kind', id');
    if Quiet(t, after) {
      QuietLookups(t, after);
    } else {
      WroteLookups(t, after, SeedEntity(L.client, kind', id'), actor, key, rows);
    }
  }

  lemma LoadLeavesOwned(L: Loader, t: Tables, seed: Seed, now: nat, kind: Kind, id: string)
    requires !kind.Profile? && OperatorOwned(t, SeedEntity(L.client, kind, id))
    ensures Untouched(L, t, LoadTx(L, t, seed, now).db, kind, id)
  {
    var v := seed.version;
    if !Skipped(L, t, v) && Accepted(L, t, seed) {
      LoadEffect(L, t, v, now);
      OtherWriteLeaves(L, t, LoadTx(L, t, seed, now).db, kind, id, v.kind, v.id, SEED_ACTOR, SeedKey(L.hash, v),
                       SeedRows(L, t.rows, v));
    }
  }

  lemma DefaultLeavesOwned(L: Loader, t: Tables, d: Default, now: nat, kind: Kind, id: string)
    requires kind.Category? && d.id == id ==> SeedRow(L.client, kind, id) in t.rows
    ensures Untouched(L, t, DefaultTx(L, t, d, now).db, kind, id)
  {
    if SeedRow(L.client, Category, d.id) !in t.rows {
      DefaultEffect(L, t, d, now);
      OtherWriteLeaves(L, t, DefaultTx(L, t, d, now).db, kind, id, Category, d.id, DEFAULT_ACTOR, DefaultKey(d.id),
                       DefaultRows(L, t.rows, d));
    }
  }

  lemma RetireRuleLeavesOwned(L: Loader, t: Tables, rule: string, now: nat, kind: Kind, id: string)
    requires OperatorOwned(t, SeedEntity(L.client, kind, id))
    ensures Untouched(L, t, RetireRuleTx(L, t, rule, now).db, kind, id)
  {
    if !OperatorOwned(t, SeedEntity(L.client, Rule, rule)) && Active(t, L.client, Rule, rule) {
      HideEffect(L, t, Rule, rule, RetireRuleKey(rule), CurrentText(t, L.client, Rule, rule), now);
      OtherWriteLeaves(L, t, RetireRuleTx(L, t, rule, now).db, kind, id, Rule, rule, SEED_ACTOR, RetireRuleKey(rule),
                       HideRow(t.rows, SeedRow(L.client, Rule, rule)));
    }
  }

  lemma {:induction false} RetireRulesLeaveOwned(L: Loader, t: Tables, rules: seq<string>, n: nat, now: nat,
                                                 kind: Kind, id: string)
    requires n <= |rules| && OperatorOwned(t, SeedEntity(L.client, kind, id))
    ensures Untouched(L, t, RetireRulesTx(L, t, rules, n, now).db, kind, id)
  {
    if n > 0 {
      RetireRulesLeaveOwned(L, t, rules, n - 1, now, kind, id);
      var mid := RetireRulesTx(L, t, rules, n - 1, now);
      if mid.error.None? {
        RetireRuleLeavesOwned(L, mid.db, rules[n - 1], now, kind, id);
      }
    }
  }

  lemma DeleteCategoryLeaves(L: Loader, t: Tables, category: string, now: nat, kind: Kind, id: string)
    requires !(kind.Category? && id == category)
    ensures Untouched(L, t, DeleteCategoryTx(L, t, category, now).db, kind, id)
  {
    HideEffect(L, t, Category, category, RETIRE_CATEGORY_KEY, None, now);
    var k := SeedRow(L.client, Category, category);
    var req := SeedRequest(SeedEntity(L.client, Category, category), "delete", SEED_ACTOR, RETIRE_CATEGORY_KEY,
                           None, None, now);
    var after := Mutated(t, req, Hide(k)).db;
    OtherWriteLeaves(L, t, after, kind, id, Category, category, SEED_ACTOR, RETIRE_CATEGORY_KEY, HideRow(t.rows, k));
  }

  lemma RetireLeavesOwned(L: Loader, t: Tables, rules: seq<string>, now: nat, kind: Kind, id: string)
    requires OperatorOwned(t, SeedEntity(L.client, kind, id))
    ensures Untouched(L, t, RetireTx(L, t, rules, now).db, kind, id)
  {
    if Active(t, L.client, Category, CALL_LOG) && !OperatorOwned(t, SeedEntity(L.client, Category, CALL_LOG)) {
      RetireRulesLeaveOwned(L, t, rules, |rules|, now, kind, id);
      DeleteCategoryLeaves(L, RetireRulesTx(L, t, rules, |rules|, now).db, CALL_LOG, now, kind, id);
    }
  }

  /** Do these boots ensure a default category under this id? */
  predicate Ensures(events: seq<Event>, id: string) {
    exists i | 0 <= i < |events| :: events[i].step.EnsureDefault? && events[i].step.d.id == id
  }

  /**
   Operator ownership is sticky: once someone else wrote the newest applied receipt of a category, a
   rule or a policy, no boots of any overlays change its row or its revision. Only a default category
   must still have its row, because a default is ensured by its row and not by its receipts.
  */
  lemma {:induction false} OwnershipIsSticky(L: Loader, t: Tables, events: seq<Event>, kind: Kind, id: string)
    requires !kind.Profile? && OperatorOwned(t, SeedEntity(L.client, kind, id))
    requires kind.Category? && Ensures(events, id) ==> SeedRow(L.client, kind, id) in t.rows
    ensures Untouched(L, t, Run(L, t, events), kind, id)
  {
    if events != [] {
      var front, last := events[..|events| - 1], events[|events| - 1];
      if Ensures(front, id) {
        var i :| 0 <= i < |front| && front[i].step.EnsureDefault? && front[i].step.d.id == id;
        assert events[i] == front[i];
      }
      OwnershipIsSticky(L, t, front, kind, id);
      var mid := Run(L, t, front);
      match last.step
      case EnsureDefault(d) => DefaultLeavesOwned(L, mid, d, last.now, kind, id);
      case Retire(rules) => RetireLeavesOwned(L, mid, rules, last.now, kind, id);
      case Load(seed) => LoadLeavesOwned(L, mid, seed, last.now, kind, id);
    }
  }

  /** Exactly when loading a seed writes its row: not skipped, taken by its store, and not applied before. */
  lemma LoadWritesIff(L: Loader, t: Tables, seed: Seed, now: nat)
    ensures var v := seed.version;
      var e := SeedEntity(L.client, v.kind, v.id);
      Revision(LoadTx(L, t, seed, now).db, e) != Revision(t, e)
      <==> !Skipped(L, t, v) && Accepted(L, t, seed) && !KeyApplied(t.receipts, L.client, SeedKey(L.hash, v))
  {
    LoadEffect(L, t, seed.version, now);
  }

  lemma BothPutEffect(t: Tables, req: Request, a: RowKey, b: RowKey, text: string)
    requires a != b && req.expected.None? && !KeyApplied(t.receipts, req.entity.client, req.key)
    ensures var r := Mutated(t, req, Both(Put(a, text, NO_PIN, false), Put(b, text, NO_PIN, false)));
      && r.error.None?
      && Wrote(t, r.db, req.entity, req.actorId, req.key,
               PutRow(PutRow(t.rows, a, text, NO_PIN, false), b, text, NO_PIN, false))
  {
    var w := Both(Put(a, text, NO_PIN, false), Put(b, text, NO_PIN, false));
    var mid := t.(rows := PutRow(t.rows, a, text, NO_PIN, false));
    var written := mid.(rows := PutRow(mid.rows, b, text, NO_PIN, false));
    assert RunWrite(w.first, t, NextReceiptId(t)) == Ok(mid);
    assert RunWrite(w.second, mid, NextReceiptId(t)) == Ok(written);
    assert MutateTx(t, req, w) == Finish(written, req, Revision(t, req.entity));
  }

  /**
   Ownership is read from an entity's own receipts. A policy an operator saved together with its
   category has none, so the next boot whose overlay brings a new policy version replaces it.
  */
  lemma PolicySavedWithCategoryIsReplaced(L: Loader, t: Tables, actor: string, key: string, text: string,
                                          seed: Seed, now: nat)
    returns (saved: Tables, booted: Tables)
    requires seed.valid && seed.version.kind.Policy? && !IsSeedActor(actor)
    requires !OperatorOwned(t, SeedEntity(L.client, Policy, seed.version.id))
    requires SeedRow(L.client, Category, seed.version.id) !in t.rows
    requires !KeyApplied(t.receipts, L.client, key) && !KeyApplied(t.receipts, L.client, SeedKey(L.hash, seed.version))
    requires key != SeedKey(L.hash, seed.version)
    ensures var id := seed.version.id;
      var category, policy := SeedRow(L.client, Category, id), SeedRow(L.client, Policy, id);
      && saved == Mutated(t,
                          SeedRequest(SeedEntity(L.client, Category, id), "create_with_policy", actor, key, None,
                                      Some(text), now),
                          Both(Put(category, text, NO_PIN, false), Put(policy, text, NO_PIN, false))).db
      && booted == LoadTx(L, saved, seed, now).db
      && policy in saved.rows && saved.rows[policy].text == text
      && policy in booted.rows && booted.rows[policy].text == L.stored(seed.version)
  {
    var v := seed.version;
    var category, policy := SeedRow(L.client, Category, v.id), SeedRow(L.client, Policy, v.id);
    var e := SeedEntity(L.client, Category, v.id);
    var req := SeedRequest(e, "create_with_policy", actor, key, None, Some(text), now);
    EntitiesDiffer(L.client, Category, v.id, Policy, v.id);
    BothPutEffect(t, req, category, policy, text);
    saved := Mutated(t, req, Both(Put(category, text, NO_PIN, false), Put(policy, text, NO_PIN, false))).db;
    WroteLookups(t, saved, e, actor, key,
                 PutRow(PutRow(t.rows, category, text, NO_PIN, false), policy, text, NO_PIN, false));
    LoadEffect(L, saved, v, now);
    booted := LoadTx(L, saved, seed, now).db;
  }

  /** Exactly when a boot replaces a row whose newest receipt is an operator's: it is a fresh version of the profile. */
  lemma OwnedRowIsReplacedIff(L: Loader, t: Tables, seed: Seed, now: nat)
    requires OperatorOwned(t, SeedEntity(L.client, seed.version.kind, seed.version.id))
    ensures var v, after := seed.version, LoadTx(L, t, seed, now).db;
      var e, k := SeedEntity(L.client, v.kind, v.id), SeedRow(L.client, v.kind, v.id);
      var replaced := v.kind.Profile? && seed.valid && !KeyApplied(t.receipts, L.client, SeedKey(L.hash, v));
      && (Revision(after, e) != Revision(t, e) <==> replaced)
      && (if replaced then k in after.rows && after.rows[k].text == L.stored(v) && !after.rows[k].deleted
          else after.rows == t.rows)
  {
    LoadEffect(L, t, seed.version, now);
  }

  /** The latest write of an entity decides who owns it. */
  lemma OwnWriteOwns(t: Tables, after: Tables, e: Entity, actor: string, key: string, rows: map<RowKey, Row>)
    requires Wrote(t, after, e, actor, key, rows) && !IsSeedActor(actor)
    requires forall r | r in t.receipts :: r.createdAt < after.receipts[|t.receipts|].createdAt
    ensures OperatorOwned(after, e)
  {
    var r := after.receipts[|t.receipts|];
    assert after.receipts == t.receipts + [r];
    NewestAppend(t.receipts, r, OfEntity(e));
  }

  /** So the profile an operator edited gives way to the next version the overlay brings. */
  lemma EditedProfileIsReplaced(L: Loader, t: Tables, actor: string, key: string, text: string, seed: Seed, now: nat)
    returns (saved: Tables, booted: Tables)
    requires seed.valid && seed.version.kind.Profile? && !IsSeedActor(actor)
    requires !KeyApplied(t.receipts, L.client, key) && !KeyApplied(t.receipts, L.client, SeedKey(L.hash, seed.version))
    requires key != SeedKey(L.hash, seed.version)
    ensures var e, k := SeedEntity(L.client, Profile, seed.version.id), SeedRow(L.client, Profile, seed.version.id);
      && saved == Mutated(t, SeedRequest(e, "upsert", actor, key, None, Some(text), now),
                          Put(k, text, NO_PIN, false)).db
      && booted == LoadTx(L, saved, seed, now).db
      && ((forall r | r in t.receipts :: r.createdAt < now) ==> OperatorOwned(saved, e))
      && k in saved.rows && saved.rows[k].text == text
      && k in booted.rows && booted.rows[k].text == L.stored(seed.version)
  {
    var e, k := SeedEntity(L.client, Profile, seed.version.id), SeedRow(L.client, Profile, seed.version.id);
    var req := SeedRequest(e, "upsert", actor, key, None, Some(text), now);
    var rows := PutRow(t.rows, k, text, NO_PIN, false);
    RowWriteEffect(t, req, Put(k, text, NO_PIN, false), rows);
    saved := Mutated(t, req, Put(k, text, NO_PIN, false)).db;
    WroteLookups(t, saved, e, actor, key, rows);
    if forall r | r in t.receipts :: r.createdAt < now {
      OwnWriteOwns(t, saved, e, actor, key, rows);
    }
    LoadEffect(L, saved, seed.version, now);
    booted := LoadTx(L, saved, seed, now).db;
  }

  // ------------------------------------------------------------------
  // Pins

  /** Every active rule pins an active category, and the fallback category is active. */
  ghost predicate PinsActive(L: Loader, t: Tables) {
    && Active(t, L.client, Category, FALLBACK)
    && forall id: string | Active(t, L.client, Rule, id) ::
      Active(t, L.client, Category, t.rows[SeedRow(L.client, Rule, id)].pin.category)
  }

  /** Rows that only gained or changed one row that keeps the pins. */
  lemma PutKeepsPins(L: Loader, t: Tables, after: Tables, v: Version, text: string, system: bool)
    requires PinsActive(L, t)
    requires v.kind.Rule? ==> Active(t, L.client, Category, v.pin.category)
    requires after.rows == t.rows || after.rows == PutRow(t.rows, SeedRow(L.client, v.kind, v.id), text, v.pin, system)
    ensures PinsActive(L, after)
  {
    forall id: string ensures Active(t, L.client, Category, id) ==> Active(after, L.client, Category, id) {
      EntitiesDiffer(L.client, Category, id, v.kind, v.id);
    }
    forall id: string | Active(after, L.client, Rule, id)
      ensures Active(after, L.client, Category, after.rows[SeedRow(L.client, Rule, id)].pin.category)
    {
      EntitiesDiffer(L.client, Rule, id, v.kind, v.id);
    }
  }

  lemma HideRuleKeepsPins(L: Loader, t: Tables, after: Tables, rule: string)
    requires PinsActive(L, t)
    requires after.rows == t.rows || after.rows == HideRow(t.rows, SeedRow(L.client, Rule, rule))
    ensures PinsActive(L, after)
  {
    forall id: string ensures Active(t, L.client, Category, id) ==> Active(after, L.client, Category, id) {
      EntitiesDiffer(L.client, Category, id, Rule, rule);
    }
  }

  lemma HideCategoryKeepsPins(L: Loader, t: Tables, after: Tables, category: string)
    requires PinsActive(L, t) && !Pinned(t, L.client, category) && category != FALLBACK
    requires after.rows == t.rows || after.rows == HideRow(t.rows, SeedRow(L.client, Category, category))
    ensures PinsActive(L, after)
  {
    forall id: string
      ensures id != category && Active(t, L.client, Category, id) ==> Active(after, L.client, Category, id)
    {
      EntitiesDiffer(L.client, Category, id, Category, category);
    }
    forall id: string | Active(after, L.client, Rule, id)
      ensures Active(after, L.client, Category, after.rows[SeedRow(L.client, Rule, id)].pin.category)
    {
      EntitiesDiffer(L.client, Rule, id, Category, category);
      var k := SeedRow(L.client, Rule, id);
      assert !ActivePin(t, L.client, category, k);
    }
  }

  lemma FallbackMakesKnownActive(L: Loader, t: Tables, id: string)
    requires Active(t, L.client, Category, FALLBACK) && CategoryKnown(t, L.client, id)
    ensures Active(t, L.client, Category, id)
  {
    assert SeedRow(L.client, Category, FALLBACK) in t.rows;
  }

  lemma LoadKeepsPins(L: Loader, t: Tables, seed: Seed, now: nat)
    requires PinsActive(L, t)
    ensures PinsActive(L, LoadTx(L, t, seed, now).db)
  {
    var v := seed.version;
    if !Skipped(L, t, v) && Accepted(L, t, seed) {
      LoadEffect(L, t, v, now);
      if v.kind.Rule? {
        FallbackMakesKnownActive(L, t, v.pin.category);
      }
      PutKeepsPins(L, t, LoadTx(L, t, seed, now).db, v, L.stored(v), false);
    }
  }

  lemma DefaultKeepsPins(L: Loader, t: Tables, d: Default, now: nat)
    requires PinsActive(L, t)
    ensures PinsActive(L, DefaultTx(L, t, d, now).db)
  {
    if SeedRow(L.client, Category, d.id) !in t.rows {
      DefaultEffect(L, t, d, now);
      PutKeepsPins(L, t, DefaultTx(L, t, d, now).db, Version(Category, d.id, d.text, NO_PIN), d.text, d.system);
    }
  }

  lemma RetireRuleKeepsPins(L: Loader, t: Tables, rule: string, now: nat)
    requires PinsActive(L, t)
    ensures PinsActive(L, RetireRuleTx(L, t, rule, now).db)
  {
    HideEffect(L, t, Rule, rule, RetireRuleKey(rule), CurrentText(t, L.client, Rule, rule), now);
    HideRuleKeepsPins(L, t, RetireRuleTx(L, t, rule, now).db, rule);
  }

  lemma {:induction false} RetireRulesKeepPins(L: Loader, t: Tables, rules: seq<string>, n: nat, now: nat)
    requires PinsActive(L, t) && n <= |rules|
    ensures PinsActive(L, RetireRulesTx(L, t, rules, n, now).db)
  {
    if n > 0 {
      RetireRulesKeepPins(L, t, rules, n - 1, now);
      RetireRuleKeepsPins(L, RetireRulesTx(L, t, rules, n - 1, now).db, rules[n - 1], now);
    }
  }

  lemma RetireKeepsPins(L: Loader, t: Tables, rules: seq<string>, now: nat)
    requires PinsActive(L, t)
    ensures PinsActive(L, RetireTx(L, t, rules, now).db)
  {
    RetireRulesKeepPins(L, t, rules, |rules|, now);
    var mid := RetireRulesTx(L, t, rules, |rules|, now).db;
    HideEffect(L, mid, Category, CALL_LOG, RETIRE_CATEGORY_KEY, None, now);
    if !Pinned(mid, L.client, CALL_LOG) {
      HideCategoryKeepsPins(L, mid, DeleteCategoryTx(L, mid, CALL_LOG, now).db, CALL_LOG);
    }
  }

  /**
   No boots leave an active rule pinning a deleted category: retirement deletes call_log only when
   no active rule pins it any more, even when an earlier retirement's keys replay.
  */
  lemma {:induction false} BootsKeepPins(L: Loader, t: Tables, events: seq<Event>)
    requires PinsActive(L, t)
    ensures PinsActive(L, Run(L, t, events))
  {
    if events != [] {
      var front, last := events[..|events| - 1], events[|events| - 1];
      BootsKeepPins(L, t, front);
      var mid := Run(L, t, front);
      match last.step
      case EnsureDefault(d) => DefaultKeepsPins(L, mid, d, last.now);
      case Retire(rules) => RetireKeepsPins(L, mid, rules, last.now);
      case Load(seed) => LoadKeepsPins(L, mid, seed, last.now);
    }
  }

  /** No row appears or goes, and rows change only by hiding rules. */
  predicate OnlyHidesRules(t: Tables, after: Tables) {
    && after.rows.Keys == t.rows.Keys
    && (forall k | k in t.rows :: after.rows[k] == t.rows[k] || (k.table == TableOf(Rule) && after.rows[k].deleted))
  }

  lemma RetireRuleOnlyHides(L: Loader, t: Tables, rule: string, now: nat)
    ensures OnlyHidesRules(t, RetireRuleTx(L, t, rule, now).db)
  {
    HideEffect(L, t, Rule, rule, RetireRuleKey(rule), CurrentText(t, L.client, Rule, rule), now);
  }

  lemma {:induction false} RetireRulesOnlyHide(L: Loader, t: Tables, rules: seq<string>, n: nat, now: nat)
    requires n <= |rules|
    ensures OnlyHidesRules(t, RetireRulesTx(L, t, rules, n, now).db)
  {
    hide RetireRuleTx;
    if n > 0 {
      RetireRulesOnlyHide(L, t, rules, n - 1, now);
      RetireRuleOnlyHides(L, RetireRulesTx(L, t, rules, n - 1, now).db, rules[n - 1], now);
    }
  }

  /** Whatever the tables hold, a retirement that takes call_log away leaves no active rule that pins it. */
  lemma RetirementSparesPinned(L: Loader, t: Tables, rules: seq<string>, now: nat)
    ensures var after := RetireTx(L, t, rules, now).db;
      Active(t, L.client, Category, CALL_LOG) && !Active(after, L.client, Category, CALL_LOG)
      ==> !Pinned(after, L.client, CALL_LOG)
  {
    RetireRulesOnlyHide(L, t, rules, |rules|, now);
    EntitiesDiffer(L.client, Category, CALL_LOG, Rule, CALL_LOG);
    var mid := RetireRulesTx(L, t, rules, |rules|, now).db;
    HideEffect(L, mid, Category, CALL_LOG, RETIRE_CATEGORY_KEY, None, now);
    if !Pinned(mid, L.client, CALL_LOG) {
      forall k ensures !ActivePin(DeleteCategoryTx(L, mid, CALL_LOG, now).db, L.client, CALL_LOG, k) {
        assert !ActivePin(mid, L.client, CALL_LOG, k);
      }
    }
  }

  lemma FirstStepActivates(L: Loader, t: Tables, now: nat)
    requires SeedRow(L.client, Category, FALLBACK) in t.rows ==> Active(t, L.client, Category, FALLBACK)
    requires KeyApplied(t.receipts, L.client, DefaultKey(FALLBACK)) ==> SeedRow(L.client, Category, FALLBACK) in t.rows
    ensures var after := DefaultTx(L, t, DEFAULTS[0], now).db;
      && Active(after, L.client, Category, FALLBACK)
      && forall id: string :: Active(after, L.client, Rule, id) <==> Active(t, L.client, Rule, id)
  {
    if SeedRow(L.client, Category, FALLBACK) !in t.rows {
      DefaultEffect(L, t, DEFAULTS[0], now);
      forall id: string ensures SeedRow(L.client, Rule, id) != SeedRow(L.client, Category, FALLBACK) {
        EntitiesDiffer(L.client, Rule, id, Category, FALLBACK);
      }
    }
  }

  /** The first boot of a client without active rules makes the pins sound, and no later boot breaks them. */
  lemma FirstBootKeepsPins(L: Loader, t: Tables, events: seq<Event>)
    requires forall id: string :: !Active(t, L.client, Rule, id)
    requires SeedRow(L.client, Category, FALLBACK) in t.rows ==> Active(t, L.client, Category, FALLBACK)
    requires KeyApplied(t.receipts, L.client, DefaultKey(FALLBACK)) ==> SeedRow(L.client, Category, FALLBACK) in t.rows
    requires events != [] && events[0].step == EnsureDefault(DEFAULTS[0])
    ensures PinsActive(L, Run(L, t, events))
  {
    var first, rest := events[..1], events[1..];
    assert events == first + rest && first[..0] == [];
    FirstStepActivates(L, t, events[0].now);
    assert Run(L, t, first) == DefaultTx(L, t, DEFAULTS[0], events[0].now).db;
    RunConcat(L, t, first, rest);
    BootsKeepPins(L, Run(L, t, first), rest);
  }
}
