/**
 The auto-produce pump over open state: the in-flight registry, the candidate scan, one produce from
 start to end, and a whole pump cycle.
*/
module Pump {
  import opened Text
  import opened Produce

  datatype Item = Item(id: string, category: string, kinds: seq<string>)

  /** Categories that opted in, kinds with a produce flavor, and pairs a proposal run covers. */
  datatype Policy = Policy(categories: set<string>, flavors: set<string>, covered: set<Pair>)

  predicate Wanted(drafts: map<DraftId, Draft>, policy: Policy, item: Item, kind: string) {
    var pair := Pair(item.id, kind);
    && item.category in policy.categories
    && pair !in policy.covered
    && kind in policy.flavors
    && Attempts(drafts, pair) == 0
  }

  function WantedKinds(drafts: map<DraftId, Draft>, policy: Policy, item: Item, kinds: seq<string>): seq<Pair> {
    if kinds == [] then []
    else
      var kind := kinds[|kinds| - 1];
      WantedKinds(drafts, policy, item, kinds[..|kinds| - 1]) +
      if Wanted(drafts, policy, item, kind) then [Pair(item.id, kind)] else []
  }

  /** Every pair the pump may produce, in scan order. */
  function WantedItems(drafts: map<DraftId, Draft>, policy: Policy, items: seq<Item>): seq<Pair> {
    if items == [] then []
    else
      var item := items[|items| - 1];
      WantedItems(drafts, policy, items[..|items| - 1]) + WantedKinds(drafts, policy, item, item.kinds)
  }

  lemma {:induction false} WantedKindsPrefix(drafts: map<DraftId, Draft>, policy: Policy, item: Item,
                                             kinds: seq<string>, n: nat)
    requires n <= |kinds|
    ensures WantedKinds(drafts, policy, item, kinds[..n]) <= WantedKinds(drafts, policy, item, kinds)
  {
    if n == |kinds| {
      assert kinds[..n] == kinds;
    } else {
      WantedKindsPrefix(drafts, policy, item, kinds[..|kinds| - 1], n);
      assert kinds[..|kinds| - 1][..n] == kinds[..n];
    }
  }

  lemma {:induction false} WantedItemsPrefix(drafts: map<DraftId, Draft>, policy: Policy, items: seq<Item>, n: nat)
    requires n <= |items|
    ensures WantedItems(drafts, policy, items[..n]) <= WantedItems(drafts, policy, items)
  {
    if n == |items| {
      assert items[..n] == items;
    } else {
      WantedItemsPrefix(drafts, policy, items[..|items| - 1], n);
      assert items[..|items| - 1][..n] == items[..n];
    }
  }

  lemma {:induction false} NothingWanted(drafts: map<DraftId, Draft>, policy: Policy, items: seq<Item>)
    requires policy.categories == {}
    ensures WantedItems(drafts, policy, items) == []
  {
    if items != [] {
      NothingWanted(drafts, policy, items[..|items| - 1]);
      NoKindWanted(drafts, policy, items[|items| - 1], items[|items| - 1].kinds);
    }
  }

  lemma {:induction false} NoKindWanted(drafts: map<DraftId, Draft>, policy: Policy, item: Item, kinds: seq<string>)
    requires item.category !in policy.categories
    ensures WantedKinds(drafts, policy, item, kinds) == []
  {
    if kinds != [] {
      NoKindWanted(drafts, policy, item, kinds[..|kinds| - 1]);
    }
  }

  const MIN_SCAN: nat := 200
  const USIZE_MAX: nat := 0xFFFF_FFFF_FFFF_FFFF
  const I64_MAX: nat := 0x7FFF_FFFF_FFFF_FFFF

  /** How many accepted items a scan for this many candidates reads. */
  function ScanLimit(limit: nat): nat {
    if limit == USIZE_MAX then I64_MAX else if limit < MIN_SCAN then MIN_SCAN else limit
  }

  /** The part of the listing a scan sees. */
  function Scanned(listing: seq<Item>, limit: nat): seq<Item> {
    if |listing| <= ScanLimit(limit) then listing else listing[..ScanLimit(limit)]
  }

  /** The first `limit` wanted pairs, in scan order. */
  function FirstWanted(drafts: map<DraftId, Draft>, policy: Policy, items: seq<Item>, limit: nat): seq<Pair> {
    var all := WantedItems(drafts, policy, items);
    if |all| <= limit then all else all[..limit]
  }

  /** May the pump's produce of this pair stage a draft, when nothing else runs? */
  predicate Stages(shelf: Shelf, inFlight: set<Pair>, accepted: Pair -> bool, answers: Pair -> bool, pair: Pair) {
    pair !in inFlight && accepted(pair) && !HasActive(shelf.drafts, pair) && answers(pair)
      && PumpKey(pair) !in shelf.keys
  }

  function NextDraft(drafts: map<DraftId, Draft>, pair: Pair): DraftId {
    DraftId(pair, Attempts(drafts, pair) + 1)
  }

  class State {
    var shelf: Shelf
    var inFlight: set<Pair>
    var hooks: multiset<nat>

    /** Claim the slot of a pair; false when a produce of it is running. */
    method BeginProduce(pair: Pair) returns (claimed: bool)
      modifies `inFlight
      ensures claimed <==> pair !in old(inFlight)
      ensures inFlight == old(inFlight) + {pair}
    {
      claimed := pair !in inFlight;
      inFlight := inFlight + {pair};
    }

    method EndProduce(pair: Pair)
      modifies `inFlight
      ensures inFlight == old(inFlight) - {pair}
    {
      inFlight := inFlight - {pair};
    }

    /** Add the wanted kinds of one item, up to the limit. */
    method CollectKinds(policy: Policy, item: Item, limit: nat, found: seq<Pair>) returns (candidates: seq<Pair>)
      requires |found| < limit
      ensures candidates <= found + WantedKinds(shelf.drafts, policy, item, item.kinds) && |candidates| <= limit
      ensures |candidates| < limit ==> candidates == found + WantedKinds(shelf.drafts, policy, item, item.kinds)
    {
      candidates := found;
      for k := 0 to |item.kinds|
        invariant candidates == found + WantedKinds(shelf.drafts, policy, item, item.kinds[..k]) && |candidates| < limit
      {
        assert item.kinds[..k + 1][..k] == item.kinds[..k];
        if Wanted(shelf.drafts, policy, item, item.kinds[k]) {
          candidates := candidates + [Pair(item.id, item.kinds[k])];
          if |candidates| >= limit {
            WantedKindsPrefix(shelf.drafts, policy, item, item.kinds, k + 1);
            return;
          }
        }
      }
      assert item.kinds[..|item.kinds|] == item.kinds;
    }

    /** Scan the newest accepted items; stop as soon as there are `limit` candidates. */
    method CollectCandidates(policy: Policy, listing: seq<Item>, limit: nat) returns (candidates: seq<Pair>)
      ensures candidates == FirstWanted(shelf.drafts, policy, Scanned(listing, limit), limit)
    {
      var items := Scanned(listing, limit);
      candidates := [];
      if limit == 0 {
        return;
      }
      if policy.categories == {} {
        NothingWanted(shelf.drafts, policy, items);
        return;
      }
      for i := 0 to |items|
        invariant candidates == WantedItems(shelf.drafts, policy, items[..i]) && |candidates| < limit
      {
        assert items[..i + 1][..i] == items[..i];
        if items[i].category in policy.categories {
          candidates := CollectKinds(policy, items[i], limit, candidates);
          if |candidates| >= limit {
            WantedItemsPrefix(shelf.drafts, policy, items, i + 1);
            return;
          }
        } else {
          NoKindWanted(shelf.drafts, policy, items[i], items[i].kinds);
        }
      }
      assert items[..|items|] == items;
    }

    /**
     One produce from start to end with nothing else running: it never loses a race, and it stages
     exactly the next attempt, or leaves the shelf alone.
    */
    method ProduceBlocking(pair: Pair, key: string, accepted: bool, answers: bool, author: nat)
      returns (outcome: Outcome)
      requires Numbered(shelf.drafts) && OneActive(shelf.drafts)
      modifies `shelf, `hooks
      ensures outcome ==
        if !accepted then Guarded
        else if HasActive(old(shelf.drafts), pair) then AlreadyDrafted
        else if !answers then LlmFailed
        else if key in old(shelf.keys) then DraftVanished
        else Produced
      ensures shelf ==
        if outcome.Produced? then
          Shelf(old(shelf.drafts)[NextDraft(old(shelf.drafts), pair) := Draft(Staged, author)], old(shelf.keys) + {key})
        else old(shelf)
      ensures hooks == old(hooks) + if outcome.Produced? then multiset{author} else multiset{}
      ensures Numbered(shelf.drafts) && OneActive(shelf.drafts)
    {
      // Phase 1: guards and the attempt number.
      if !accepted {
        return Guarded;
      }
      if HasActive(shelf.drafts, pair) {
        return AlreadyDrafted;
      }
      var attempt := Attempts(shelf.drafts, pair) + 1;
      // Phase 2: the model's answer.
      if !answers {
        return LlmFailed;
      }
      // Phase 3: stage and read back.
      assert DraftId(pair, attempt) !in shelf.drafts;
      var (staged, fate) := StageTx(shelf, pair, attempt, key, author);
      if fate.Inserted? {
        InsertNumbers(shelf.drafts, pair, attempt, Draft(Staged, author));
        InsertKeepsOneActive(shelf.drafts, DraftId(pair, attempt), Draft(Staged, author));
        assert IsActive(staged.drafts, DraftId(pair, attempt));
      }
      shelf := staged;
      if fate.Refused? {
        return if HasActive(shelf.drafts, pair) then LostRace else StoreFailed;
      }
      if !HasActive(shelf.drafts, pair) {
        return DraftVanished;
      }
      hooks := hooks + multiset{author};
      outcome := Produced;
    }

    /**
     A pump cycle with nothing else running: it leaves the registry as it was and adds exactly the
     next attempt of each candidate that is not in flight, still accepted, without active draft,
     answered by the model, and never staged by the pump before.
    */
    method RunCycle(candidates: seq<Pair>, accepted: Pair -> bool, answers: Pair -> bool, author: nat)
      requires Numbered(shelf.drafts) && OneActive(shelf.drafts)
      requires forall pair | pair in candidates :: Lacks(pair.kind, ':')
      modifies this
      ensures inFlight == old(inFlight)
      ensures forall id | id in old(shelf.drafts) :: id in shelf.drafts && shelf.drafts[id] == old(shelf.drafts)[id]
      ensures forall id | id !in old(shelf.drafts) ::
        id in shelf.drafts <==>
          id.pair in candidates && Stages(old(shelf), old(inFlight), accepted, answers, id.pair)
            && id == NextDraft(old(shelf.drafts), id.pair)
      ensures Numbered(shelf.drafts) && OneActive(shelf.drafts)
    {
      ghost var start := shelf;
      ghost var flying := inFlight;
      for i := 0 to |candidates|
        invariant inFlight == flying
        invariant Numbered(shelf.drafts) && OneActive(shelf.drafts)
        invariant CycleState(start, flying, shelf, candidates[..i], accepted, answers)
      {
        var pair := candidates[i];
        assert candidates[..i + 1] == candidates[..i] + [pair];
        ghost var before := shelf;
        var claimed := BeginProduce(pair);
        if claimed {
          var outcome := ProduceBlocking(pair, PumpKey(pair), accepted(pair), answers(pair), author);
          EndProduce(pair);
          assert inFlight == flying;
          CycleAdvances(start, flying, before, shelf, candidates[..i], pair, accepted, answers, author, outcome);
        } else {
          assert inFlight == flying;
        }
      }
      assert candidates[..|candidates|] == candidates;
    }
  }

  /** What the pump has added after the candidates `done`: drafts, and their keys. */
  ghost predicate CycleState(start: Shelf, inFlight: set<Pair>, shelf: Shelf, done: seq<Pair>,
                             accepted: Pair -> bool, answers: Pair -> bool) {
    CycleDrafts(start, inFlight, shelf, done, accepted, answers)
      && CycleKeys(start, inFlight, shelf, done, accepted, answers)
  }

  ghost predicate CycleDrafts(start: Shelf, inFlight: set<Pair>, shelf: Shelf, done: seq<Pair>,
                              accepted: Pair -> bool, answers: Pair -> bool) {
    && (forall id | id in start.drafts :: id in shelf.drafts && shelf.drafts[id] == start.drafts[id])
    && (forall id | id in shelf.drafts && id !in start.drafts :: IsActive(shelf.drafts, id))
    && (forall id | id !in start.drafts ::
          id in shelf.drafts <==>
            && id.pair in done && Stages(start, inFlight, accepted, answers, id.pair)
            && id == NextDraft(start.drafts, id.pair))
  }

  ghost predicate CycleKeys(start: Shelf, inFlight: set<Pair>, shelf: Shelf, done: seq<Pair>,
                            accepted: Pair -> bool, answers: Pair -> bool) {
    forall pair: Pair | Lacks(pair.kind, ':') ::
      PumpKey(pair) in shelf.keys <==>
        PumpKey(pair) in start.keys || (pair in done && Stages(start, inFlight, accepted, answers, pair))
  }

  /** A pair the pump has staged is active and its attempts have moved; any other is as at the start. */
  lemma CyclePair(start: Shelf, inFlight: set<Pair>, shelf: Shelf, done: seq<Pair>, accepted: Pair -> bool,
                  answers: Pair -> bool, pair: Pair)
    requires CycleDrafts(start, inFlight, shelf, done, accepted, answers) && Numbered(start.drafts)
    ensures if pair in done && Stages(start, inFlight, accepted, answers, pair) then HasActive(shelf.drafts, pair)
      else
        && (HasActive(shelf.drafts, pair) <==> HasActive(start.drafts, pair))
        && Attempts(shelf.drafts, pair) == Attempts(start.drafts, pair)
  {
    if pair in done && Stages(start, inFlight, accepted, answers, pair) {
      var id := NextDraft(start.drafts, pair);
      assert DraftId(pair, id.attempt) !in start.drafts;
      assert id in shelf.drafts && IsActive(shelf.drafts, id);
    } else {
      assert DraftsOf(shelf.drafts, pair) == DraftsOf(start.drafts, pair);
      if HasActive(start.drafts, pair) {
        var id :| id in start.drafts && id.pair == pair && IsActive(start.drafts, id);
        assert IsActive(shelf.drafts, id);
      }
    }
  }

  /** One candidate that may stage does so exactly when it has not been staged this cycle. */
  lemma CycleStages(start: Shelf, inFlight: set<Pair>, before: Shelf, done: seq<Pair>, pair: Pair,
                    accepted: Pair -> bool, answers: Pair -> bool)
    requires CycleState(start, inFlight, before, done, accepted, answers) && Numbered(start.drafts)
      && Numbered(before.drafts)
    requires pair !in inFlight && Lacks(pair.kind, ':')
    ensures accepted(pair) && !HasActive(before.drafts, pair) && answers(pair) && PumpKey(pair) !in before.keys
      <==> Stages(start, inFlight, accepted, answers, pair) && pair !in done
    ensures Stages(start, inFlight, accepted, answers, pair) && pair !in done ==>
      NextDraft(before.drafts, pair) == NextDraft(start.drafts, pair) && NextDraft(start.drafts, pair) !in before.drafts
  {
    CyclePair(start, inFlight, before, done, accepted, answers, pair);
    var id := NextDraft(before.drafts, pair);
    assert DraftId(pair, id.attempt) !in before.drafts;
  }

  lemma CycleAdvances(start: Shelf, inFlight: set<Pair>, before: Shelf, after: Shelf, done: seq<Pair>, pair: Pair,
                      accepted: Pair -> bool, answers: Pair -> bool, author: nat, outcome: Outcome)
    requires CycleState(start, inFlight, before, done, accepted, answers) && Numbered(start.drafts)
      && Numbered(before.drafts)
    requires pair !in inFlight && Lacks(pair.kind, ':')
    requires outcome.Produced? <==>
      accepted(pair) && !HasActive(before.drafts, pair) && answers(pair) && PumpKey(pair) !in before.keys
    requires after ==
      if outcome.Produced? then
        Shelf(before.drafts[NextDraft(before.drafts, pair) := Draft(Staged, author)], before.keys + {PumpKey(pair)})
      else before
    ensures CycleState(start, inFlight, after, done + [pair], accepted, answers)
  {
    CycleStages(start, inFlight, before, done, pair, accepted, answers);
    CycleKeysAdvance(start, inFlight, before, after, done, pair, accepted, answers);
  }

  lemma CycleKeysAdvance(start: Shelf, inFlight: set<Pair>, before: Shelf, after: Shelf, done: seq<Pair>, pair: Pair,
                         accepted: Pair -> bool, answers: Pair -> bool)
    requires CycleKeys(start, inFlight, before, done, accepted, answers) && Lacks(pair.kind, ':')
    requires after.keys ==
      if Stages(start, inFlight, accepted, answers, pair) && pair !in done then before.keys + {PumpKey(pair)}
        else before.keys
    ensures CycleKeys(start, inFlight, after, done + [pair], accepted, answers)
  {
    forall other: Pair | Lacks(other.kind, ':') && PumpKey(other) == PumpKey(pair) ensures other == pair {
      PumpKeyInjective(other, pair);
    }
  }
}
