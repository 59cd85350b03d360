/**
 What retiring call_log does, as one effect: which rules a retirement hides, exactly when it changes
 nothing, what it changes otherwise, and that an interrupted retirement can be resumed.
*/
module SeedRetirement {
  import opened Wrappers
  import opened Text
  import opened Schema
  import opened StoreCore
  import opened Seeds
  import opened SeedRuns
  import opened SeedBoots
  import opened SeedAlike

  // ------------------------------------------------------------------
  // Keys

  lemma RetireKeysDiffer(id: string, other: string)
    ensures RetireRuleKey(id) == RetireRuleKey(other) ==> id == other
    ensures RetireRuleKey(id) != RETIRE_CATEGORY_KEY
    ensures RetireRuleKey(id) != DefaultKey(other) && RETIRE_CATEGORY_KEY != DefaultKey(other)
  {
    var n := |OVERLAY + "retire" + [':'] + "rule:"|;
    assert RetireRuleKey(id)[n..] == id && RetireRuleKey(other)[n..] == other;
    assert RetireRuleKey(id)[15] == 'r' && RETIRE_CATEGORY_KEY[15] == 'c';
    assert RetireRuleKey(id)[0] == 'o' && RETIRE_CATEGORY_KEY[0] == 'o' && DefaultKey(other)[0] == 's';
  }

  lemma SeedKeyIsNotRetire(hash: Version -> string, v: Version, id: string)
    ensures SeedKey(hash, v) != RetireRuleKey(id) && SeedKey(hash, v) != RETIRE_CATEGORY_KEY
  {
    var a, b := v.id + [':'] + hash(v), "rule:" + id;
    var c := "category:call_log";
    assert SeedKey(hash, v)[|OVERLAY|..] == KeyKind(v.kind) + [':'] + a;
    assert RetireRuleKey(id)[|OVERLAY|..] == "retire" + [':'] + b;
    assert RETIRE_CATEGORY_KEY[|OVERLAY|..] == "retire" + [':'] + c;
    KeyKindLacksColon(v.kind);
    if SeedKey(hash, v) == RetireRuleKey(id) {
      FirstSeparator(KeyKind(v.kind), a, "retire", b, ':');
    }
    if SeedKey(hash, v) == RETIRE_CATEGORY_KEY {
      FirstSeparator(KeyKind(v.kind), a, "retire", c, ':');
    }
  }

  // ------------------------------------------------------------------
  // The rules a retirement hides

  /** A rule that no retirement hides: an operator's, or one whose retirement key is spent. */
  predicate Immovable(L: Loader, t: Tables, id: string) {
    Owned(L, t, Rule, id) || KeyApplied(t.receipts, L.client, RetireRuleKey(id))
  }

  /** The movable ones of the first `n` listed rules. */
  function Movable(L: Loader, t: Tables, rules: seq<string>, n: nat): set<string>
    requires n <= |rules|
  {
    set i | 0 <= i < n && !Immovable(L, t, rules[i]) :: rules[i]
  }

  predicate IsRuleRow(L: Loader, k: RowKey, ids: set<string>) {
    k.client == L.client && k.table == TableOf(Rule) && k.id in ids
  }

  predicate IsRuleEntity(L: Loader, e: Entity, ids: set<string>) {
    e.client == L.client && e.kind == TableOf(Rule) && e.id in ids
  }

  predicate IsRetireKey(key: string, ids: set<string>) {
    exists id | id in ids :: key == RetireRuleKey(id)
  }

  function HiddenRows(L: Loader, rows: map<RowKey, Row>, ids: set<string>): map<RowKey, Row> {
    map k | k in rows :: if IsRuleRow(L, k, ids) then rows[k].(deleted := true) else rows[k]
  }

  /** `after` is `t` with exactly these rules hidden, each with its revision bumped and its key spent. */
  ghost predicate Hides(L: Loader, t: Tables, after: Tables, ids: set<string>) {
    && after.jobs == t.jobs && SameOwners(L, t, after)
    && after.rows == HiddenRows(L, t.rows, ids)
    && (forall e :: Revision(after, e) ==
          if IsRuleEntity(L, e, ids) then Some(Revision(t, e).GetOr(0) + 1) else Revision(t, e))
    && (forall key: string :: KeyApplied(after.receipts, L.client, key) <==>
          KeyApplied(t.receipts, L.client, key) || IsRetireKey(key, ids))
  }

  lemma HidesNothing(L: Loader, t: Tables)
    ensures Hides(L, t, t, {})
  {
    assert HiddenRows(L, t.rows, {}) == t.rows;
  }

  lemma SameRevisions(t: Tables, u: Tables)
    requires forall e :: Revision(t, e) == Revision(u, e)
    ensures t.revisions == u.revisions
  {
    forall e ensures e in t.revisions <==> e in u.revisions {
      assert Revision(t, e) == Revision(u, e);
    }
    forall e | e in t.revisions ensures t.revisions[e] == u.revisions[e] {
      assert Revision(t, e) == Revision(u, e);
    }
  }

  /** The effect determines the state, as far as a boot can tell. */
  lemma HidesSame(L: Loader, t: Tables, x: Tables, y: Tables, ids: set<string>)
    requires Hides(L, t, x, ids) && Hides(L, t, y, ids)
    ensures Alike(L, x, y)
  {
    hide OperatorOwned;
    AlikeItself(L, t);
    OwnersChain(L, t, x, t, y);
    SameRevisions(x, y);
  }

  lemma HidesQuiet(L: Loader, t: Tables, mid: Tables, after: Tables, ids: set<string>)
    requires Hides(L, t, mid, ids) && Quiet(mid, after)
    ensures Hides(L, t, after, ids)
  {
    AlikeItself(L, t);
    QuietAlike(L, mid, after);
    OwnersChain(L, t, t, mid, after);
    hide SameOwners;
    QuietLookups(mid, after);
    assert forall e :: Revision(after, e) == Revision(mid, e);
  }

  lemma HidesOneMore(L: Loader, t: Tables, mid: Tables, after: Tables, ids: set<string>, rule: string)
    requires Hides(L, t, mid, ids) && rule !in ids && !Owned(L, mid, Rule, rule)
    requires SeedRow(L.client, Rule, rule) in t.rows
    requires Wrote(mid, after, SeedEntity(L.client, Rule, rule), SEED_ACTOR, RetireRuleKey(rule),
                   HideRow(mid.rows, SeedRow(L.client, Rule, rule)))
    ensures Hides(L, t, after, ids + {rule})
  {
    var e, k := SeedEntity(L.client, Rule, rule), SeedRow(L.client, Rule, rule);
    AlikeItself(L, t);
    WriteKeepsOwners(L, mid, after, Rule, rule, SEED_ACTOR, RetireRuleKey(rule), after.rows);
    OwnersChain(L, t, t, mid, after);
    hide SameOwners;
    WroteLookups(mid, after, e, SEED_ACTOR, RetireRuleKey(rule), after.rows);
    assert forall k' :: IsRuleRow(L, k', ids + {rule}) <==> IsRuleRow(L, k', ids) || k' == k;
    assert after.rows == HiddenRows(L, t.rows, ids + {rule});
    forall e' ensures Revision(after, e') ==
      if IsRuleEntity(L, e', ids + {rule}) then Some(Revision(t, e').GetOr(0) + 1) else Revision(t, e')
    {
      assert IsRuleEntity(L, e', ids + {rule}) <==> IsRuleEntity(L, e', ids) || e' == e;
    }
    forall key: string ensures IsRetireKey(key, ids + {rule}) <==> IsRetireKey(key, ids) || key == RetireRuleKey(rule) {
      if IsRetireKey(key, ids) {
        var id :| id in ids && key == RetireRuleKey(id);
        assert id in ids + {rule};
      }
      assert rule in ids + {rule};
    }
  }

  /** Hiding some rules and then others is hiding all of them. */
  lemma HidesTwice(L: Loader, t: Tables, mid: Tables, after: Tables, ids: set<string>, more: set<string>)
    requires Hides(L, t, mid, ids) && Hides(L, mid, after, more) && ids !! more
    ensures Hides(L, t, after, ids + more)
  {
    AlikeItself(L, t);
    OwnersChain(L, t, t, mid, after);
    hide SameOwners;
    assert after.rows == HiddenRows(L, t.rows, ids + more);
    forall key: string ensures IsRetireKey(key, ids + more) <==> IsRetireKey(key, ids) || IsRetireKey(key, more) {
      if IsRetireKey(key, ids) {
        var id :| id in ids && key == RetireRuleKey(id);
        assert id in ids + more;
      }
      if IsRetireKey(key, more) {
        var id :| id in more && key == RetireRuleKey(id);
        assert id in ids + more;
      }
    }
  }

  /** Which rules are active, and which can be moved, after some were hidden. */
  lemma HidesRules(L: Loader, t: Tables, after: Tables, ids: set<string>, id: string)
    requires Hides(L, t, after, ids)
    ensures Active(after, L.client, Rule, id) <==> Active(t, L.client, Rule, id) && id !in ids
    ensures var k := SeedRow(L.client, Rule, id);
      ActivePin(after, L.client, CALL_LOG, k) <==> ActivePin(t, L.client, CALL_LOG, k) && id !in ids
    ensures Owned(L, after, Rule, id) <==> Owned(L, t, Rule, id)
    ensures Immovable(L, after, id) <==> Immovable(L, t, id) || id in ids
  {
    assert IsRuleRow(L, SeedRow(L.client, Rule, id), ids) <==> id in ids;
    assert Owned(L, after, Rule, id) <==> Owned(L, t, Rule, id);
    if IsRetireKey(RetireRuleKey(id), ids) {
      var other :| other in ids && RetireRuleKey(id) == RetireRuleKey(other);
      RetireKeysDiffer(id, other);
    }
  }

  /** Everything but rules is as it was. */
  lemma HidesCategories(L: Loader, t: Tables, after: Tables, ids: set<string>)
    requires Hides(L, t, after, ids)
    ensures SameCategories(L, t, after) && SameSeedKeys(L, t, after)
    ensures AtRest(L, after) <==> AtRest(L, t)
    ensures KeyApplied(after.receipts, L.client, RETIRE_CATEGORY_KEY) <==>
      KeyApplied(t.receipts, L.client, RETIRE_CATEGORY_KEY)
  {
    forall k: RowKey | k.client == L.client && k.table == TableOf(Category) ensures SameRow(t, after, k) {
      EntitiesDiffer(L.client, Category, k.id, Rule, k.id);
      assert !IsRuleRow(L, k, ids);
    }
    forall v: Version
      ensures KeyApplied(after.receipts, L.client, SeedKey(L.hash, v)) <==>
        KeyApplied(t.receipts, L.client, SeedKey(L.hash, v))
    {
      forall id: string ensures SeedKey(L.hash, v) != RetireRuleKey(id) {
        SeedKeyIsNotRetire(L.hash, v, id);
      }
      assert !IsRetireKey(SeedKey(L.hash, v), ids);
    }
    forall id: string ensures RETIRE_CATEGORY_KEY != RetireRuleKey(id) {
      RetireKeysDiffer(id, id);
    }
    assert !IsRetireKey(RETIRE_CATEGORY_KEY, ids);
    assert SameRow(t, after, SeedRow(L.client, Category, CALL_LOG));
    assert Owned(L, after, Category, CALL_LOG) <==> Owned(L, t, Category, CALL_LOG);
  }

  predicate SameRow(t: Tables, after: Tables, k: RowKey) {
    (k in after.rows <==> k in t.rows) && (k in t.rows ==> after.rows[k] == t.rows[k])
  }

  ghost predicate SameCategories(L: Loader, t: Tables, u: Tables) {
    forall k: RowKey | k.client == L.client && k.table == TableOf(Category) :: SameRow(t, u, k)
  }

  ghost predicate SameSeedKeys(L: Loader, t: Tables, u: Tables) {
    forall v: Version ::
      KeyApplied(u.receipts, L.client, SeedKey(L.hash, v)) <==> KeyApplied(t.receipts, L.client, SeedKey(L.hash, v))
  }

  // ------------------------------------------------------------------
  // Retiring a list of rules

  /** Each rule once, and each active. */
  predicate Retirees(L: Loader, t: Tables, rules: seq<string>) {
    && (forall i | 0 <= i < |rules| :: Active(t, L.client, Rule, rules[i]))
    && (forall i, j | 0 <= i < j < |rules| :: rules[i] != rules[j])
  }

  lemma ListedAreRetirees(L: Loader, t: Tables, rules: seq<string>)
    requires Lists(t, L.client, rules)
    ensures Retirees(L, t, rules)
  {
    forall i | 0 <= i < |rules| ensures Active(t, L.client, Rule, rules[i]) {
      assert rules[i] in rules;
    }
    forall i, j | 0 <= i < j < |rules| ensures rules[i] != rules[j] {
      ListedOnce(t, L.client, rules, i, j);
    }
  }

  /** Retiring one more rule: quiet if it is immovable, else it is hidden. */
  lemma NextRetires(L: Loader, t: Tables, mid: Tables, ids: set<string>, rule: string, now: nat)
    requires Hides(L, t, mid, ids) && rule !in ids && Active(t, L.client, Rule, rule)
    ensures var r := RetireRuleTx(L, mid, rule, now);
      r.error.None? && Hides(L, t, r.db, if Immovable(L, t, rule) then ids else ids + {rule})
  {
    HidesRules(L, t, mid, ids, rule);
    hide Hides, SameOwners;
    var after := RetireRuleTx(L, mid, rule, now).db;
    if !Owned(L, mid, Rule, rule) {
      HideEffect(L, mid, Rule, rule, RetireRuleKey(rule), CurrentText(mid, L.client, Rule, rule), now);
      if KeyApplied(mid.receipts, L.client, RetireRuleKey(rule)) {
        HidesQuiet(L, t, mid, after, ids);
      } else {
        HidesOneMore(L, t, mid, after, ids, rule);
      }
    }
  }

  /** Retiring listed rules never fails, and hides exactly the movable ones. */
  lemma {:induction false} RetireRulesHide(L: Loader, t: Tables, rules: seq<string>, n: nat, now: nat)
    requires Retirees(L, t, rules) && n <= |rules|
    ensures var r := RetireRulesTx(L, t, rules, n, now);
      r.error.None? && Hides(L, t, r.db, Movable(L, t, rules, n))
  {
    hide RetireRuleTx, Hides, Immovable;
    if n == 0 {
      HidesNothing(L, t);
      assert Movable(L, t, rules, 0) == {};
    } else {
      RetireRulesHide(L, t, rules, n - 1, now);
      var rule, ids := rules[n - 1], Movable(L, t, rules, n - 1);
      assert rule !in ids;
      NextRetires(L, t, RetireRulesTx(L, t, rules, n - 1, now).db, ids, rule, now);
      assert Movable(L, t, rules, n) == if Immovable(L, t, rule) then ids else ids + {rule};
    }
  }

  /** The active pins of call_log that can be moved. */
  ghost predicate AreMovablePins(L: Loader, t: Tables, ids: set<string>) {
    forall id: string :: id in ids <==>
      ActivePin(t, L.client, CALL_LOG, SeedRow(L.client, Rule, id)) && !Immovable(L, t, id)
  }

  lemma ListedMovable(L: Loader, t: Tables, rules: seq<string>)
    requires Lists(t, L.client, rules)
    ensures AreMovablePins(L, t, Movable(L, t, rules, |rules|))
  {
    hide Immovable, ActivePin;
    forall id: string
      ensures id in Movable(L, t, rules, |rules|) <==>
        ActivePin(t, L.client, CALL_LOG, SeedRow(L.client, Rule, id)) && !Immovable(L, t, id)
    {
      assert id in rules <==> ActivePin(t, L.client, CALL_LOG, SeedRow(L.client, Rule, id));
      if id in rules {
        var i :| 0 <= i < |rules| && rules[i] == id;
      }
    }
  }

  // ------------------------------------------------------------------
  // When a retirement changes nothing

  predicate IsSystem(L: Loader, t: Tables) {
    var k := SeedRow(L.client, Category, CALL_LOG);
    k in t.rows && t.rows[k].system
  }

  /**
   Exactly the states in which a retirement changes nothing: it has nothing to do; or every active pin
   of call_log is immovable, and either one is left, or call_log's own retirement key is spent.
  */
  ghost predicate Inert(L: Loader, t: Tables) {
    || AtRest(L, t)
    || (&& (forall id: string | ActivePin(t, L.client, CALL_LOG, SeedRow(L.client, Rule, id)) :: Immovable(L, t, id))
        && (|| Pinned(t, L.client, CALL_LOG)
            || (KeyApplied(t.receipts, L.client, RETIRE_CATEGORY_KEY) && !IsSystem(L, t))))
  }

  const CALL_LOG_IS_SYSTEM := Domain("email_triage_category_is_system")

  function Deleted(L: Loader, t: Tables, now: nat): StepResult {
    Finished(L, Seeds.Done(t), now)
  }

  /** What a retirement does after its rules: nothing while a pin is left; else it refuses, replays or hides. */
  lemma DeletedIs(L: Loader, t: Tables, now: nat)
    requires !AtRest(L, t)
    ensures var r := Deleted(L, t, now);
      if Pinned(t, L.client, CALL_LOG) then r == Seeds.Done(t)
      else if IsSystem(L, t) then r.error == Some(CALL_LOG_IS_SYSTEM) && r.db == t
      else
        && r.error.None?
        && if KeyApplied(t.receipts, L.client, RETIRE_CATEGORY_KEY) then Quiet(t, r.db)
           else Wrote(t, r.db, SeedEntity(L.client, Category, CALL_LOG), SEED_ACTOR, RETIRE_CATEGORY_KEY,
                      HideRow(t.rows, SeedRow(L.client, Category, CALL_LOG)))
  {
    HideEffect(L, t, Category, CALL_LOG, RETIRE_CATEGORY_KEY, None, now);
  }

  /** A retirement of what is listed: some rules are hidden, then call_log is dealt with. */
  lemma RetiresListed(L: Loader, t: Tables, rules: seq<string>, now: nat) returns (mid: Tables, ids: set<string>)
    requires !AtRest(L, t) && Lists(t, L.client, rules)
    ensures Hides(L, t, mid, ids) && AreMovablePins(L, t, ids) && !AtRest(L, mid)
    ensures RetireTx(L, t, rules, now) == Deleted(L, mid, now)
  {
    hide Hides, AtRest, AreMovablePins, Finished, RetireTx;
    ListedAreRetirees(L, t, rules);
    RetireRulesHide(L, t, rules, |rules|, now);
    ListedMovable(L, t, rules);
    mid, ids := RetireRulesTx(L, t, rules, |rules|, now).db, Movable(L, t, rules, |rules|);
    HidesCategories(L, t, mid, ids);
    RetireIsFinished(L, t, rules, now);
  }

  lemma PinnedAfter(L: Loader, t: Tables, mid: Tables, ids: set<string>)
    requires Hides(L, t, mid, ids) && AreMovablePins(L, t, ids)
    ensures Pinned(mid, L.client, CALL_LOG) <==>
      exists id: string :: ActivePin(t, L.client, CALL_LOG, SeedRow(L.client, Rule, id)) && Immovable(L, t, id)
    ensures Pinned(mid, L.client, CALL_LOG) ==> Pinned(t, L.client, CALL_LOG)
    ensures IsSystem(L, mid) <==> IsSystem(L, t)
  {
    HidesCategories(L, t, mid, ids);
    assert SameRow(t, mid, SeedRow(L.client, Category, CALL_LOG));
    forall id: string
      ensures ActivePin(mid, L.client, CALL_LOG, SeedRow(L.client, Rule, id)) <==>
        ActivePin(t, L.client, CALL_LOG, SeedRow(L.client, Rule, id)) && Immovable(L, t, id)
    {
      HidesRules(L, t, mid, ids, id);
    }
    hide Hides, Immovable;
    if Pinned(mid, L.client, CALL_LOG) {
      var k :| k in mid.rows && ActivePin(mid, L.client, CALL_LOG, k);
      assert k == SeedRow(L.client, Rule, k.id);
    }
    if id: string :| ActivePin(t, L.client, CALL_LOG, SeedRow(L.client, Rule, id)) && Immovable(L, t, id) {
      assert SeedRow(L.client, Rule, id) in mid.rows;
    }
  }

  /** From an inert state a retirement ends without an error in a state a boot cannot tell apart. */
  lemma InertRetires(L: Loader, t: Tables, rules: seq<string>, now: nat)
    requires Inert(L, t) && ListedAt(L, t, Retire(rules))
    ensures RetireTx(L, t, rules, now).error.None? && Alike(L, t, RetireTx(L, t, rules, now).db)
  {
    if AtRest(L, t) {
      AlikeItself(L, t);
    } else {
      var mid, ids := RetiresListed(L, t, rules, now);
      assert forall id :: id !in ids;
      assert ids == {};
      InertDeletes(L, t, mid, now);
    }
  }

  lemma InertDeletes(L: Loader, t: Tables, mid: Tables, now: nat)
    requires Inert(L, t) && !AtRest(L, t) && !AtRest(L, mid) && Hides(L, t, mid, {})
    ensures Deleted(L, mid, now).error.None? && Alike(L, t, Deleted(L, mid, now).db)
  {
    HidesNothing(L, t);
    HidesSame(L, t, t, mid, {});
    PinnedAlike(L, t, mid);
    DeletedIs(L, mid, now);
    assert KeyApplied(t.receipts, L.client, RETIRE_CATEGORY_KEY) <==>
      KeyApplied(mid.receipts, L.client, RETIRE_CATEGORY_KEY);
    hide Deleted, Hides, Immovable;
    if !Pinned(t, L.client, CALL_LOG) {
      QuietAlike(L, mid, Deleted(L, mid, now).db);
      AlikeItself(L, t);
      AlikeChain(L, t, t, mid, Deleted(L, mid, now).db);
    }
  }

  // ------------------------------------------------------------------
  // What it changes otherwise

  predicate Bumped(t: Tables, after: Tables, e: Entity) {
    Revision(after, e).GetOr(0) == Revision(t, e).GetOr(0) + 1
  }

  /** Loads cannot tell these states apart, but the second has one revision more of one entity. */
  ghost predicate Apart(L: Loader, t: Tables, u: Tables, e: Entity) {
    SameCategories(L, t, u) && SameOwners(L, t, u) && SameSeedKeys(L, t, u) && Bumped(t, u, e)
  }

  function CallLogEntity(L: Loader): Entity {
    SeedEntity(L.client, Category, CALL_LOG)
  }

  /** Otherwise it refuses to delete a system category, hides call_log, or hides a rule. */
  lemma MovingRetires(L: Loader, t: Tables, rules: seq<string>, now: nat) returns (e: Entity)
    requires !Inert(L, t) && Lists(t, L.client, rules)
    ensures var r := RetireTx(L, t, rules, now);
      || r.error == Some(CALL_LOG_IS_SYSTEM)
      || (r.error.None? && e == CallLogEntity(L) && Bumped(t, r.db, e))
      || (r.error.None? && Apart(L, t, r.db, e))
  {
    var mid, ids := RetiresListed(L, t, rules, now);
    PinnedAfter(L, t, mid, ids);
    if Pinned(mid, L.client, CALL_LOG) || (!IsSystem(L, t) && KeyApplied(mid.receipts, L.client, RETIRE_CATEGORY_KEY)) {
      HidesCategories(L, t, mid, ids);
      var id := SomeMovable(L, t, mid, ids);
      e := SeedEntity(L.client, Rule, id);
      HiddenApart(L, t, mid, ids, id, now);
    } else {
      e := CallLogEntity(L);
      DeletedBumps(L, t, mid, ids, now);
    }
  }

  lemma SomeMovable(L: Loader, t: Tables, mid: Tables, ids: set<string>) returns (id: string)
    requires !Inert(L, t) && Hides(L, t, mid, ids) && AreMovablePins(L, t, ids)
    requires Pinned(mid, L.client, CALL_LOG)
      || (!IsSystem(L, t) && KeyApplied(t.receipts, L.client, RETIRE_CATEGORY_KEY))
    ensures id in ids
  {
    PinnedAfter(L, t, mid, ids);
    hide Hides, Immovable;
    id :| ActivePin(t, L.client, CALL_LOG, SeedRow(L.client, Rule, id)) && !Immovable(L, t, id);
  }

  lemma HidesApart(L: Loader, t: Tables, mid: Tables, ids: set<string>, id: string)
    requires Hides(L, t, mid, ids) && id in ids
    ensures Apart(L, t, mid, SeedEntity(L.client, Rule, id))
  {
    HidesCategories(L, t, mid, ids);
    assert IsRuleEntity(L, SeedEntity(L.client, Rule, id), ids);
  }

  lemma HiddenApart(L: Loader, t: Tables, mid: Tables, ids: set<string>, id: string, now: nat)
    requires Hides(L, t, mid, ids) && id in ids && !AtRest(L, mid)
    requires Pinned(mid, L.client, CALL_LOG)
      || (!IsSystem(L, mid) && KeyApplied(mid.receipts, L.client, RETIRE_CATEGORY_KEY))
    ensures Deleted(L, mid, now).error.None? && Apart(L, t, Deleted(L, mid, now).db, SeedEntity(L.client, Rule, id))
  {
    var after := Deleted(L, mid, now).db;
    HidesApart(L, t, mid, ids, id);
    DeletedIs(L, mid, now);
    hide Deleted, Hides;
    if !Pinned(mid, L.client, CALL_LOG) {
      HidesQuiet(L, t, mid, after, ids);
      HidesApart(L, t, after, ids, id);
    }
  }

  lemma DeletedBumps(L: Loader, t: Tables, mid: Tables, ids: set<string>, now: nat)
    requires Hides(L, t, mid, ids) && !AtRest(L, mid) && !Pinned(mid, L.client, CALL_LOG)
    requires IsSystem(L, mid) || !KeyApplied(mid.receipts, L.client, RETIRE_CATEGORY_KEY)
    ensures var r := Deleted(L, mid, now);
      r.error == Some(CALL_LOG_IS_SYSTEM) || (r.error.None? && Bumped(t, r.db, CallLogEntity(L)))
  {
    DeletedIs(L, mid, now);
    EntitiesDiffer(L.client, Category, CALL_LOG, Rule, CALL_LOG);
    assert !IsRuleEntity(L, CallLogEntity(L), ids);
    assert Revision(mid, CallLogEntity(L)) == Revision(t, CallLogEntity(L));
  }

  // ------------------------------------------------------------------
  // Resuming

  /** A retirement that was interrupted after any of its rules, and is run again, ends as if it had not been. */
  lemma RetireResumes(L: Loader, t: Tables, rules: seq<string>, k: nat, now: nat, again: seq<string>, later: nat)
    requires !AtRest(L, t) && Lists(t, L.client, rules) && k <= |rules|
    requires Lists(RetireRulesTx(L, t, rules, k, now).db, L.client, again)
    ensures AlikeResults(L, RetireTx(L, t, rules, now),
                         RetireTx(L, RetireRulesTx(L, t, rules, k, now).db, again, later))
  {
    hide RetireRuleTx, Hides, AreMovablePins, RetireTx, Deleted, Lists;
    var mid, first := RetireRulesTx(L, t, rules, k, now).db, Movable(L, t, rules, k);
    ListedAreRetirees(L, t, rules);
    RetireRulesHide(L, t, rules, k, now);
    HidesCategories(L, t, mid, first);
    var x, all := RetiresListed(L, t, rules, now);
    var y, rest := RetiresListed(L, mid, again, later);
    ListedMovable(L, t, rules);
    RestIsMovable(L, t, mid, rules, k, all, rest);
    HidesTwice(L, t, mid, y, first, rest);
    HidesSame(L, t, x, y, all);
    DeletedAlike(L, x, y, now, later);
  }

  lemma DeletedAlike(L: Loader, x: Tables, y: Tables, now: nat, later: nat)
    requires Alike(L, x, y) && !AtRest(L, x)
    ensures AlikeResults(L, Deleted(L, x, now), Deleted(L, y, later))
  {
    FinishedAlike(L, Seeds.Done(x), Seeds.Done(y), now, later);
  }

  /** What is left to hide is what was to be hidden, less what has been. */
  lemma RestIsMovable(L: Loader, t: Tables, mid: Tables, rules: seq<string>, k: nat, all: set<string>,
                      rest: set<string>)
    requires Lists(t, L.client, rules) && k <= |rules| && Hides(L, t, mid, Movable(L, t, rules, k))
    requires AreMovablePins(L, t, all) && AreMovablePins(L, mid, rest)
    ensures Movable(L, t, rules, k) !! rest && all == Movable(L, t, rules, k) + rest
  {
    var first := Movable(L, t, rules, k);
    forall id: string
      ensures id in first ==> id in all
      ensures id in rest <==> id in all && id !in first
    {
      HidesRules(L, t, mid, first, id);
      if id in first {
        var i :| 0 <= i < k && !Immovable(L, t, rules[i]) && rules[i] == id;
        assert id in rules;
      }
    }
  }
}
