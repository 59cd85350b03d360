/** Loading an overlay into an open database, step by step, as one boot does. */
module Overlay {
  import opened Wrappers
  import opened Schema
  import opened StoreCore
  import opened Database
  import opened Selection
  import opened Seeds
  import opened SeedRuns
  import opened SeedBoots
  import opened SeedAlike
  import opened SeedRetirement
  import opened SeedCrashes

  datatype Overlay = Overlay(categories: seq<Seed>, rules: seq<Seed>, policies: seq<Seed>, profile: Option<Seed>)

  function DefaultEvents(now: nat): seq<Event> {
    seq(|DEFAULTS|, i requires 0 <= i < |DEFAULTS| => Event(EnsureDefault(DEFAULTS[i]), now))
  }

  function LoadEvents(seeds: seq<Seed>, now: nat): seq<Event> {
    seq(|seeds|, i requires 0 <= i < |seeds| => Event(Load(seeds[i]), now))
  }

  function ProfileSeeds(overlay: Overlay): seq<Seed> {
    match overlay.profile
    case None => []
    case Some(seed) => [seed]
  }

  /** Everything an overlay loads, in order. */
  function Seeded(overlay: Overlay): seq<Seed> {
    overlay.categories + overlay.rules + overlay.policies + ProfileSeeds(overlay)
  }

  /** The steps of one boot, given the rules its retirement step listed. */
  function BootEvents(overlay: Overlay, rules: seq<string>, now: nat): seq<Event> {
    DefaultEvents(now) + [Event(Retire(rules), now)]
    + LoadEvents(overlay.categories, now) + LoadEvents(overlay.rules, now) + LoadEvents(overlay.policies, now)
    + LoadEvents(ProfileSeeds(overlay), now)
  }

  function ThenBoot(L: Loader, r: StepResult, events: seq<Event>): StepResult {
    if r.error.Some? then r else Boot(L, r.db, events)
  }

  lemma {:induction false} BootConcat(L: Loader, t: Tables, a: seq<Event>, b: seq<Event>)
    ensures Boot(L, t, a + b) == ThenBoot(L, Boot(L, t, a), b)
  {
    if b == [] {
      assert a + b == a;
    } else {
      assert (a + b)[..|a + b| - 1] == a + b[..|b| - 1];
      BootConcat(L, t, a, b[..|b| - 1]);
    }
  }

  /** Every boot is the defaults, one retirement and the loads, and is plain when no category seed is call_log. */
  lemma BootEventsShape(overlay: Overlay, rules: seq<string>, now: nat)
    ensures |BootEvents(overlay, rules, now)| > 0
    ensures BootEvents(overlay, rules, now)[0].step == EnsureDefault(DEFAULTS[0])
    ensures RetiresAt(BootEvents(overlay, rules, now), |DEFAULTS|)
    ensures (forall s | s in Seeded(overlay) :: Plain(Load(s))) ==> AllPlain(BootEvents(overlay, rules, now))
  {
    var all := Seeded(overlay);
    var events := BootEvents(overlay, rules, now);
    var base := |DEFAULTS| + 1;
    assert |events| == base + |all|;
    forall i | 0 <= i < |events|
      ensures i < |DEFAULTS| ==> events[i].step == EnsureDefault(DEFAULTS[i])
      ensures i >= base ==> events[i].step == Load(all[i - base])
    {
    }
    if forall s | s in all :: Plain(Load(s)) {
      forall i | 0 <= i < |events| ensures Plain(events[i].step) {
        if i < |DEFAULTS| {
          assert DEFAULTS[i] in DEFAULTS;
        } else if i >= base {
          assert all[i - base] in all;
        }
      }
    }
  }

  lemma BootsShareSteps(overlay: Overlay, rules: seq<string>, now: nat, again: seq<string>, later: nat)
    ensures SameSteps(BootEvents(overlay, rules, now), BootEvents(overlay, again, later))
  {
  }

  /**
   A boot of an overlay that crashed after any number of successful steps and was run again later ends
   like one whole boot, unless its retirement was finished and the state it crashed in is not inert.
  */
  lemma OverlayCrashIff(L: Loader, t: Tables, overlay: Overlay, rules: seq<string>, now: nat, n: nat,
                        again: seq<string>, later: nat)
    requires SpentDefaultsKept(L, t) && OwnedDefaultsKept(L, t)
    requires SeedRow(L.client, Category, FALLBACK) in t.rows ==> Active(t, L.client, Category, FALLBACK)
    requires forall s | s in Seeded(overlay) :: Plain(Load(s))
    requires var boot := BootEvents(overlay, rules, now);
      && n <= |boot| && Boot(L, t, boot[..n]).error.None? && Listed(L, t, boot)
      && Listed(L, Boot(L, t, boot[..n]).db, BootEvents(overlay, again, later))
    ensures var boot := BootEvents(overlay, rules, now);
      SameEnd(Boot(L, Boot(L, t, boot[..n]).db, BootEvents(overlay, again, later)), Boot(L, t, boot))
      <==> n <= |DEFAULTS| || Inert(L, Boot(L, t, boot[..n]).db)
  {
    var boot, rerun := BootEvents(overlay, rules, now), BootEvents(overlay, again, later);
    BootEventsShape(overlay, rules, now);
    BootsShareSteps(overlay, rules, now, again, later);
    hide BootEvents, Boot, StepTx, Listed, Inert, SameEnd;
    CrashThenRerun(L, t, boot, |DEFAULTS|, n, rerun);
  }

  /** What a boot lists after its defaults makes its steps listed as the crash theorem asks. */
  lemma ListedBoot(L: Loader, t: Tables, overlay: Overlay, rules: seq<string>, now: nat)
    requires Boot(L, t, DefaultEvents(now)).error.None? ==> Lists(Boot(L, t, DefaultEvents(now)).db, L.client, rules)
    ensures Listed(L, t, BootEvents(overlay, rules, now))
  {
    BootEventsShape(overlay, rules, now);
    assert BootEvents(overlay, rules, now)[..|DEFAULTS|] == DefaultEvents(now);
  }

  /** Write one row through the receipt spine. */
  method Save(db: Store, req: Request, w: Write) returns (error: Option<StoreError>)
    modifies db
    ensures StepResult(db.State(), error) == Mutated(old(db.State()), req, w)
  {
    var r := db.Mutate(req, w);
    error := match r case Ok(_) => None case Err(e) => Some(e);
  }

  method EnsureOne(db: Store, L: Loader, known: set<string>, d: Default, now: nat) returns (error: Option<StoreError>)
    requires d.id in known <==> SeedRow(L.client, Category, d.id) in db.rows
    modifies db
    ensures StepResult(db.State(), error) == DefaultTx(L, old(db.State()), d, now)
  {
    error := None;
    if d.id !in known {
      error := Save(db, SeedRequest(SeedEntity(L.client, Category, d.id), "upsert", DEFAULT_ACTOR, DefaultKey(d.id),
                                    None, Some(d.text), now),
                    DefaultPut(L, d));
    }
  }

  /** A default step leaves the rows of other ids alone, so the ids read at the start stay good. */
  lemma DefaultLeavesOtherIds(L: Loader, t: Tables, d: Default, now: nat, id: string)
    requires id != d.id
    ensures SeedRow(L.client, Category, id) in DefaultTx(L, t, d, now).db.rows <==>
      SeedRow(L.client, Category, id) in t.rows
  {
    if SeedRow(L.client, Category, d.id) !in t.rows {
      DefaultEffect(L, t, d, now);
    }
  }

  /** The ids read at the start are right about the defaults from `i` on. */
  predicate KnownFrom(L: Loader, known: set<string>, t: Tables, i: nat) {
    forall j | i <= j < |DEFAULTS| :: DEFAULTS[j].id in known <==> SeedRow(L.client, Category, DEFAULTS[j].id) in t.rows
  }

  lemma KnownStays(L: Loader, known: set<string>, t: Tables, i: nat, now: nat)
    requires i < |DEFAULTS| && KnownFrom(L, known, t, i)
    ensures KnownFrom(L, known, DefaultTx(L, t, DEFAULTS[i], now).db, i + 1)
  {
    forall j | i < j < |DEFAULTS|
      ensures DEFAULTS[j].id in known <==>
        SeedRow(L.client, Category, DEFAULTS[j].id) in DefaultTx(L, t, DEFAULTS[i], now).db.rows
    {
      DefaultLeavesOtherIds(L, t, DEFAULTS[i], now, DEFAULTS[j].id);
    }
  }

  /** A boot that has not failed goes on with its next step. */
  lemma NextStep(L: Loader, t: Tables, events: seq<Event>, i: nat, before: Tables, r: StepResult)
    requires i < |events| && Boot(L, t, events[..i]) == Seeds.Done(before)
    requires r == StepTx(L, before, events[i].step, events[i].now)
    ensures r == Boot(L, t, events[..i + 1])
  {
    assert events[..i + 1][..i] == events[..i];
  }

  lemma NextDefault(L: Loader, t: Tables, now: nat, i: nat, before: Tables, r: StepResult)
    requires i < |DEFAULTS| && Boot(L, t, DefaultEvents(now)[..i]) == Seeds.Done(before)
    requires r == DefaultTx(L, before, DEFAULTS[i], now)
    ensures r == Boot(L, t, DefaultEvents(now)[..i + 1])
  {
    NextStep(L, t, DefaultEvents(now), i, before, r);
  }

  /** Seed the defaults the client has never had a row for; the known ids are read once, up front. */
  method EnsureDefaults(db: Store, L: Loader, now: nat) returns (error: Option<StoreError>)
    modifies db
    ensures StepResult(db.State(), error) == Boot(L, old(db.State()), DefaultEvents(now))
  {
    var known := set k | k in db.rows && k.client == L.client && k.table == TableOf(Category) :: k.id;
    assert forall id :: id in known <==> SeedRow(L.client, Category, id) in db.rows;
    ghost var t := db.State();
    error := None;
    var i := 0;
    while i < |DEFAULTS| && error.None?
      invariant 0 <= i <= |DEFAULTS|
      invariant StepResult(db.State(), error) == Boot(L, t, DefaultEvents(now)[..i])
      invariant KnownFrom(L, known, db.State(), i)
    {
      ghost var before := db.State();
      error := EnsureOne(db, L, known, DEFAULTS[i], now);
      NextDefault(L, t, now, i, before, StepResult(db.State(), error));
      KnownStays(L, known, before, i, now);
      i := i + 1;
    }
    StoppedBoot(L, t, DefaultEvents(now), i);
  }

  /** A boot that failed within its first `i` steps is over. */
  lemma {:induction false} StoppedBoot(L: Loader, t: Tables, events: seq<Event>, i: nat)
    requires i <= |events| && (Boot(L, t, events[..i]).error.Some? || i == |events|)
    ensures Boot(L, t, events) == Boot(L, t, events[..i])
  {
    assert events == events[..i] + events[i..];
    BootConcat(L, t, events[..i], events[i..]);
    if i == |events| {
      assert events[i..] == [];
    }
  }

  method LoadSeed(db: Store, L: Loader, seed: Seed, now: nat) returns (error: Option<StoreError>)
    modifies db
    ensures StepResult(db.State(), error) == LoadTx(L, old(db.State()), seed, now)
  {
    var v := seed.version;
    if Skipped(L, db.State(), v) {
      return None;
    }
    if !seed.valid {
      return Some(Domain("seed_invalid"));
    }
    if v.kind.Rule? && !CategoryKnown(db.State(), L.client, v.pin.category) {
      return Some(Domain("email_triage_category_unknown"));
    }
    error := Save(db, SeedUpsert(L, db.State(), v, now), SeedPut(L, v));
  }

  lemma NextLoad(L: Loader, t: Tables, seeds: seq<Seed>, now: nat, i: nat, before: Tables, r: StepResult)
    requires i < |seeds| && Boot(L, t, LoadEvents(seeds, now)[..i]) == Seeds.Done(before)
    requires r == LoadTx(L, before, seeds[i], now)
    ensures r == Boot(L, t, LoadEvents(seeds, now)[..i + 1])
  {
    NextStep(L, t, LoadEvents(seeds, now), i, before, r);
  }

  method LoadAll(db: Store, L: Loader, seeds: seq<Seed>, now: nat) returns (error: Option<StoreError>)
    modifies db
    ensures StepResult(db.State(), error) == Boot(L, old(db.State()), LoadEvents(seeds, now))
  {
    ghost var t := db.State();
    error := None;
    var i := 0;
    while i < |seeds| && error.None?
      invariant 0 <= i <= |seeds|
      invariant StepResult(db.State(), error) == Boot(L, t, LoadEvents(seeds, now)[..i])
    {
      ghost var before := db.State();
      error := LoadSeed(db, L, seeds[i], now);
      NextLoad(L, t, seeds, now, i, before, StepResult(db.State(), error));
      i := i + 1;
    }
    StoppedBoot(L, t, LoadEvents(seeds, now), i);
  }

  // ------------------------------------------------------------------
  // Retirement

  method ListPins(db: Store, client: string) returns (rules: seq<string>)
    ensures Lists(db.State(), client, rules)
  {
    ghost var t := db.State();
    var all := PinKeys(db.State(), client);
    var keys := First(all, |all|);
    rules := seq(|keys|, i requires 0 <= i < |keys| => keys[i].id);
    AllOf(keys, all);
    forall i | 0 <= i < |keys|
      ensures ActivePin(t, client, CALL_LOG, SeedRow(client, Rule, rules[i])) && PinKey(t, client, rules[i]) == keys[i]
    {
      PinKeyNames(t, client, keys[i]);
    }
    forall id | ActivePin(t, client, CALL_LOG, SeedRow(client, Rule, id)) ensures id in rules {
      PinKeyNames(t, client, PinKey(t, client, id));
      var i :| 0 <= i < |keys| && keys[i] == PinKey(t, client, id);
      assert rules[i] == id;
    }
  }

  method RetireRule(db: Store, L: Loader, id: string, now: nat) returns (error: Option<StoreError>)
    modifies db
    ensures StepResult(db.State(), error) == RetireRuleTx(L, old(db.State()), id, now)
  {
    var e := SeedEntity(L.client, Rule, id);
    if OperatorOwned(db.State(), e) {
      return None;
    }
    if !Active(db.State(), L.client, Rule, id) {
      return Some(Domain("email_triage_rule_not_found"));
    }
    error := Save(db, SeedRequest(e, "delete", SEED_ACTOR, RetireRuleKey(id),
                                  CurrentText(db.State(), L.client, Rule, id), None, now),
                  Hide(SeedRow(L.client, Rule, id)));
  }

  method RetireRules(db: Store, L: Loader, rules: seq<string>, now: nat) returns (error: Option<StoreError>)
    modifies db
    ensures StepResult(db.State(), error) == RetireRulesTx(L, old(db.State()), rules, |rules|, now)
  {
    ghost var t := db.State();
    error := None;
    var i := 0;
    while i < |rules| && error.None?
      invariant 0 <= i <= |rules|
      invariant StepResult(db.State(), error) == RetireRulesTx(L, t, rules, i, now)
    {
      error := RetireRule(db, L, rules[i], now);
      i := i + 1;
    }
    StoppedRetire(L, t, rules, i, |rules|, now);
  }

  lemma {:induction false} StoppedRetire(L: Loader, t: Tables, rules: seq<string>, i: nat, n: nat, now: nat)
    requires i <= n <= |rules| && (RetireRulesTx(L, t, rules, i, now).error.Some? || i == n)
    ensures RetireRulesTx(L, t, rules, n, now) == RetireRulesTx(L, t, rules, i, now)
  {
    if i < n {
      StoppedRetire(L, t, rules, i, n - 1, now);
    }
  }

  method DeleteCategory(db: Store, L: Loader, id: string, now: nat) returns (error: Option<StoreError>)
    modifies db
    ensures StepResult(db.State(), error) == DeleteCategoryTx(L, old(db.State()), id, now)
  {
    var k := SeedRow(L.client, Category, id);
    if !Active(db.State(), L.client, Category, id) {
      return Some(Domain("email_triage_category_not_found"));
    }
    if db.rows[k].system {
      return Some(Domain("email_triage_category_is_system"));
    }
    if Pinned(db.State(), L.client, id) {
      return Some(Domain("email_triage_category_in_use"));
    }
    error := Save(db, SeedRequest(SeedEntity(L.client, Category, id), "delete", SEED_ACTOR, RETIRE_CATEGORY_KEY,
                                  None, None, now), Hide(k));
  }

  /** Retire the seed-owned rules that pin call_log, then the category, unless an active rule still pins it. */
  method RetireCallLog(db: Store, L: Loader, now: nat) returns (error: Option<StoreError>, ghost rules: seq<string>)
    modifies db
    ensures Lists(old(db.State()), L.client, rules)
    ensures StepResult(db.State(), error) == RetireTx(L, old(db.State()), rules, now)
  {
    var listed := ListPins(db, L.client);
    rules := listed;
    error := None;
    if !Active(db.State(), L.client, Category, CALL_LOG) {
      return;
    }
    if OperatorOwned(db.State(), SeedEntity(L.client, Category, CALL_LOG)) {
      return;
    }
    error := RetireRules(db, L, listed, now);
    if error.Some? || Pinned(db.State(), L.client, CALL_LOG) {
      return;
    }
    error := DeleteCategory(db, L, CALL_LOG, now);
  }

  // ------------------------------------------------------------------
  // One boot

  lemma SingleBoot(L: Loader, t: Tables, event: Event)
    ensures Boot(L, t, [event]) == StepTx(L, t, event.step, event.now)
  {
    assert [event][..0] == [];
  }

  /** Load an overlay: the result is the boot of its steps, in order, up to the first error. */
  method ApplySeeds(db: Store, L: Loader, overlay: Overlay, now: nat)
    returns (error: Option<StoreError>, ghost rules: seq<string>)
    modifies db
    ensures StepResult(db.State(), error) == Boot(L, old(db.State()), BootEvents(overlay, rules, now))
    ensures Boot(L, old(db.State()), DefaultEvents(now)).error.None? ==>
      Lists(Boot(L, old(db.State()), DefaultEvents(now)).db, L.client, rules)
  {
    ghost var t := db.State();
    rules := [];
    ghost var events := DefaultEvents(now);
    error := EnsureDefaults(db, L, now);
    if error.None? {
      error, rules := RetireCallLog(db, L, now);
    }
    ghost var retire := [Event(Retire(rules), now)];
    BootConcat(L, t, events, retire);
    SingleBoot(L, Boot(L, t, events).db, retire[0]);
    events := events + retire;
    assert StepResult(db.State(), error) == Boot(L, t, events);
    error := LoadMore(db, L, overlay.categories, now, error, t, events);
    events := events + LoadEvents(overlay.categories, now);
    error := LoadMore(db, L, overlay.rules, now, error, t, events);
    events := events + LoadEvents(overlay.rules, now);
    error := LoadMore(db, L, overlay.policies, now, error, t, events);
    events := events + LoadEvents(overlay.policies, now);
    error := LoadMore(db, L, ProfileSeeds(overlay), now, error, t, events);
  }

  /** Go on loading unless the boot is already over. */
  method LoadMore(db: Store, L: Loader, seeds: seq<Seed>, now: nat, previous: Option<StoreError>, ghost t: Tables,
                  ghost events: seq<Event>)
    returns (error: Option<StoreError>)
    requires StepResult(db.State(), previous) == Boot(L, t, events)
    modifies db
    ensures StepResult(db.State(), error) == Boot(L, t, events + LoadEvents(seeds, now))
  {
    BootConcat(L, t, events, LoadEvents(seeds, now));
    error := previous;
    if error.None? {
      error := LoadAll(db, L, seeds, now);
    }
  }
}
