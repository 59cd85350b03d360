/**
 The produce flow as a state machine. A produce claims an in-process slot, reads the database in
 several separate transactions, calls the model unlocked, and stages its draft in one transaction;
 proposals stage without a slot, operators approve and reject, and the process may crash anywhere.
*/
module Produce {
  import opened Wrappers
  import opened Text

  datatype Pair = Pair(item: string, kind: string)

  /** Drafts of a pair are named by their attempt number. */
  datatype DraftId = DraftId(pair: Pair, attempt: nat)

  datatype Status = Staged | Approved | Rejected

  datatype Draft = Draft(status: Status, author: nat)

  /** The draft tables, and the client's applied idempotency keys. */
  datatype Shelf = Shelf(drafts: map<DraftId, Draft>, keys: set<string>)

  predicate IsActive(drafts: map<DraftId, Draft>, id: DraftId) {
    id in drafts && !drafts[id].status.Rejected?
  }

  predicate HasActive(drafts: map<DraftId, Draft>, pair: Pair) {
    exists id | id in drafts :: id.pair == pair && IsActive(drafts, id)
  }

  /** The active draft of a pair, as a read finds it. */
  ghost function ActiveOf(drafts: map<DraftId, Draft>, pair: Pair): (active: Option<DraftId>)
    ensures active.Some? <==> HasActive(drafts, pair)
    ensures active.Some? ==> active.value in drafts && active.value.pair == pair && IsActive(drafts, active.value)
  {
    if HasActive(drafts, pair) then
      var id :| id in drafts && id.pair == pair && IsActive(drafts, id);
      Some(id)
    else None
  }

  function DraftsOf(drafts: map<DraftId, Draft>, pair: Pair): set<DraftId> {
    set id | id in drafts && id.pair == pair
  }

  function Attempts(drafts: map<DraftId, Draft>, pair: Pair): nat {
    |DraftsOf(drafts, pair)|
  }

  /** What the staging transaction did. */
  datatype Fate = NotYet | Inserted | Replayed | Refused

  /**
   One staging transaction: an applied key replays; the primary key and the one-active-draft index
   refuse; otherwise the draft is inserted and its key applied.
  */
  function StageTx(s: Shelf, pair: Pair, attempt: nat, key: string, author: nat): (Shelf, Fate) {
    if key in s.keys then (s, Replayed)
    else if DraftId(pair, attempt) in s.drafts || HasActive(s.drafts, pair) then (s, Refused)
    else (Shelf(s.drafts[DraftId(pair, attempt) := Draft(Staged, author)], s.keys + {key}), Inserted)
  }

  datatype Outcome = Guarded | AlreadyDrafted | LlmFailed | LostRace | StoreFailed | DraftVanished | Produced | Killed

  /** How far a produce has come. */
  datatype Pc =
    | Started
    | NoneActive
    | Drafting(attempt: nat)
    | StageTried
    | HookDue
    | Returned(outcome: Outcome)
    | Gone(outcome: Outcome)

  /** `slotted`: it claimed the in-flight slot; `hooked`: it runs after_stage; proposals do neither. */
  datatype Proc = Proc(pair: Pair, key: string, slotted: bool, hooked: bool, pump: bool, pc: Pc, fate: Fate)

  /**
   What a produce saw: the attempt it tried to stage, the draft it read back afterwards, and the draft
   that was active when its after_stage ran, which is the one the hook acts on.
  */
  datatype Note = Note(attempt: nat, read: Option<DraftId>, acted: Option<DraftId>)

  datatype World = World(shelf: Shelf, inFlight: set<Pair>, procs: map<nat, Proc>, hooks: multiset<nat>,
                         notes: map<nat, Note>)

  const START := World(Shelf(map[], {}), {}, map[], multiset{}, map[])

  function NoteOf(w: World, p: nat): Note {
    if p in w.notes then w.notes[p] else Note(0, None, None)
  }

  function PumpKey(pair: Pair): string {
    "auto_produce:" + pair.item + [':'] + pair.kind
  }

  lemma PumpKeyInjective(a: Pair, b: Pair)
    requires Lacks(a.kind, ':') && Lacks(b.kind, ':') && PumpKey(a) == PumpKey(b)
    ensures a == b
  {
    LastSeparator("auto_produce:" + a.item, a.kind, "auto_produce:" + b.item, b.kind, ':');
    assert ("auto_produce:" + a.item)[13..] == a.item && ("auto_produce:" + b.item)[13..] == b.item;
  }

  datatype Step =
    | Begin(p: nat, pair: Pair, key: string)
    | BeginPump(p: nat, pair: Pair)
    | BeginProposal(p: nat, pair: Pair, key: string)
    | Abandon(p: nat, outcome: Outcome)
    | CheckActive(p: nat)
    | CountAttempts(p: nat)
    | Stage(p: nat)
    | Reread(p: nat)
    | RunHook(p: nat)
    | End(p: nat)
    | Decide(id: DraftId, approve: bool, key: string)
    | OtherWrite(key: string)
    | Crash

  predicate Enabled(w: World, step: Step) {
    match step
    case Begin(p, _, _) => p !in w.procs
    case BeginPump(p, _) => p !in w.procs
    case BeginProposal(p, _, _) => p !in w.procs
    case Abandon(p, outcome) =>
      p in w.procs && (w.procs[p].pc.Started? || w.procs[p].pc.NoneActive? || w.procs[p].pc.Drafting?)
      && (outcome.Guarded? || outcome.LlmFailed? || outcome.StoreFailed?)
    case CheckActive(p) => p in w.procs && w.procs[p].pc.Started?
    // A proposal may count without looking for an active draft first.
    case CountAttempts(p) => p in w.procs
      && (w.procs[p].pc.NoneActive? || (w.procs[p].pc.Started? && !w.procs[p].slotted))
    case Stage(p) => p in w.procs && w.procs[p].pc.Drafting?
    case Reread(p) => p in w.procs && w.procs[p].pc.StageTried?
    case RunHook(p) => p in w.procs && w.procs[p].pc.HookDue?
    case End(p) => p in w.procs && w.procs[p].pc.Returned?
    case Decide(id, _, _) => id in w.shelf.drafts
    case OtherWrite(_) => true
    case Crash => true
  }

  function Move(w: World, p: nat, pc: Pc): World
    requires p in w.procs
  {
    w.(procs := w.procs[p := w.procs[p].(pc := pc)])
  }

  /** Claim the slot, or do nothing when it is taken. */
  function Claim(w: World, p: nat, pair: Pair, key: string, pump: bool): World {
    if pair in w.inFlight then w
    else
      w.(inFlight := w.inFlight + {pair},
         procs := w.procs[p := Proc(pair, key, true, true, pump, Started, NotYet)])
  }

  /** What follows the staging transaction: a refused produce returns the winner's draft or fails. */
  function AfterStaging(w: World, proc: Proc): Pc {
    var active := HasActive(w.shelf.drafts, proc.pair);
    if proc.fate.Refused? then Returned(if active then LostRace else StoreFailed)
    else if !active then Returned(DraftVanished)
    else if proc.hooked then HookDue
    else Returned(Produced)
  }

  ghost function Do(w: World, step: Step): World
    requires Enabled(w, step)
  {
    match step
    case Begin(p, pair, key) => Claim(w, p, pair, key, false)
    case BeginPump(p, pair) => Claim(w, p, pair, PumpKey(pair), true)
    case BeginProposal(p, pair, key) =>
      w.(procs := w.procs[p := Proc(pair, key, false, false, false, Started, NotYet)])
    case Abandon(p, outcome) => Move(w, p, Returned(outcome))
    case CheckActive(p) =>
      Move(w, p, if HasActive(w.shelf.drafts, w.procs[p].pair) then Returned(AlreadyDrafted) else NoneActive)
    case CountAttempts(p) => Move(w, p, Drafting(Attempts(w.shelf.drafts, w.procs[p].pair) + 1))
    case Stage(p) =>
      var proc := w.procs[p];
      var (shelf, fate) := StageTx(w.shelf, proc.pair, proc.pc.attempt, proc.key, p);
      w.(shelf := shelf, procs := w.procs[p := proc.(pc := StageTried, fate := fate)],
         notes := w.notes[p := Note(proc.pc.attempt, None, None)])
    case Reread(p) =>
      var read := ActiveOf(w.shelf.drafts, w.procs[p].pair);
      Move(w, p, AfterStaging(w, w.procs[p])).(notes := w.notes[p := NoteOf(w, p).(read := read)])
    case RunHook(p) =>
      var acted := ActiveOf(w.shelf.drafts, w.procs[p].pair);
      Move(w, p, Returned(Produced)).(hooks := w.hooks + multiset{p},
                                      notes := w.notes[p := NoteOf(w, p).(acted := acted)])
    case End(p) =>
      var proc := w.procs[p];
      Move(if proc.slotted then w.(inFlight := w.inFlight - {proc.pair}) else w, p, Gone(proc.pc.outcome))
    case Decide(id, approve, key) =>
      if key in w.shelf.keys || !w.shelf.drafts[id].status.Staged? then w
      else
        w.(shelf := Shelf(w.shelf.drafts[id := w.shelf.drafts[id].(status := if approve then Approved else Rejected)],
                          w.shelf.keys + {key}))
    case OtherWrite(key) => w.(shelf := w.shelf.(keys := w.shelf.keys + {key}))
    case Crash =>
      w.(inFlight := {},
         procs := map p | p in w.procs :: if w.procs[p].pc.Gone? then w.procs[p] else w.procs[p].(pc := Gone(Killed)))
  }

  /** A step that is not enabled does not happen. */
  ghost function Next(w: World, step: Step): World {
    if Enabled(w, step) then Do(w, step) else w
  }

  ghost function Run(w: World, steps: seq<Step>): World {
    if steps == [] then w else Next(Run(w, steps[..|steps| - 1]), steps[|steps| - 1])
  }

  // ------------------------------------------------------------------
  // The invariant

  /** At most one active draft per pair. */
  predicate OneActive(drafts: map<DraftId, Draft>) {
    forall a, b | a in drafts && b in drafts && a.pair == b.pair && IsActive(drafts, a) && IsActive(drafts, b) :: a == b
  }

  /** The drafts of a pair are numbered 1 .. n without gaps. */
  ghost predicate Numbered(drafts: map<DraftId, Draft>) {
    forall pair: Pair, k: nat :: DraftId(pair, k) in drafts <==> 1 <= k <= Attempts(drafts, pair)
  }

  predicate Alive(proc: Proc) {
    !proc.pc.Gone?
  }

  predicate SlotTaken(w: World, pair: Pair) {
    exists p | p in w.procs :: w.procs[p].pair == pair && w.procs[p].slotted && Alive(w.procs[p])
  }

  /** The slots are exactly the pairs of the running slotted produces, one produce each. */
  ghost predicate Slots(w: World) {
    && (forall pair: Pair :: pair in w.inFlight <==> SlotTaken(w, pair))
    && (forall p, q | p in w.procs && q in w.procs && w.procs[p].slotted && w.procs[q].slotted
        && Alive(w.procs[p]) && Alive(w.procs[q]) && w.procs[p].pair == w.procs[q].pair :: p == q)
  }

  /** Each draft was inserted by a produce of its pair, under that produce's key. */
  predicate AuthorsKnown(w: World) {
    forall id | id in w.shelf.drafts ::
      var author := w.shelf.drafts[id].author;
      author in w.procs && w.procs[author].pair == id.pair && w.procs[author].fate.Inserted?
        && w.procs[author].key in w.shelf.keys
  }

  /** Different drafts have different authors, which used different keys. */
  predicate AuthorsDiffer(w: World) {
    forall a, b | a in w.shelf.drafts && b in w.shelf.drafts && a != b ::
      var p, q := w.shelf.drafts[a].author, w.shelf.drafts[b].author;
      p != q && (p in w.procs && q in w.procs ==> w.procs[p].key != w.procs[q].key)
  }

  predicate Authors(w: World, p: nat) {
    exists id | id in w.shelf.drafts :: w.shelf.drafts[id].author == p
  }

  predicate Authored(w: World) {
    AuthorsKnown(w) && AuthorsDiffer(w) && forall p | p in w.procs && w.procs[p].fate.Inserted? :: Authors(w, p)
  }

  /** Where a produce is says what its staging transaction did. */
  predicate Consistent(drafts: map<DraftId, Draft>, proc: Proc) {
    && (proc.pump ==> proc.key == PumpKey(proc.pair))
    && match proc.pc
      case Started => proc.fate.NotYet?
      case NoneActive => proc.fate.NotYet?
      case Drafting(attempt) => proc.fate.NotYet? && 1 <= attempt <= Attempts(drafts, proc.pair) + 1
      case StageTried => !proc.fate.NotYet?
      case HookDue => proc.hooked && (proc.fate.Inserted? || proc.fate.Replayed?)
      case Returned(outcome) => Explained(outcome, proc.fate)
      case Gone(outcome) => Explained(outcome, proc.fate)
  }

  predicate Explained(outcome: Outcome, fate: Fate) {
    match outcome
    case Guarded => fate.NotYet?
    case AlreadyDrafted => fate.NotYet?
    case LlmFailed => fate.NotYet?
    case LostRace => fate.Refused?
    case StoreFailed => fate.NotYet? || fate.Refused?
    case DraftVanished => fate.Inserted? || fate.Replayed?
    case Produced => fate.Inserted? || fate.Replayed?
    case Killed => true
  }

  /** A hook ran at most once per produce, and only after its staging transaction succeeded. */
  predicate HooksOnce(w: World) {
    forall p | p in w.hooks ::
      && w.hooks[p] == 1
      && p in w.procs && w.procs[p].hooked
      && (w.procs[p].fate.Inserted? || w.procs[p].fate.Replayed?)
      && (w.procs[p].pc == Returned(Produced) || w.procs[p].pc.Gone?)
  }

  ghost predicate ProcInv(w: World) {
    Slots(w) && Authored(w) && (forall p | p in w.procs :: Consistent(w.shelf.drafts, w.procs[p])) && HooksOnce(w)
  }

  ghost predicate Inv(w: World) {
    OneActive(w.shelf.drafts) && Numbered(w.shelf.drafts) && ProcInv(w)
  }

  /** The notes are a record only. */
  lemma NotesKeepInv(w: World, notes: map<nat, Note>)
    requires Inv(w)
    ensures Inv(w.(notes := notes))
  {
    var after := w.(notes := notes);
    SlotsSame(w, after);
    AuthoredSame(w, after);
  }

  lemma StartInv()
    ensures Inv(START)
  {
    forall pair: Pair, k: nat
      ensures DraftId(pair, k) in START.shelf.drafts <==> 1 <= k <= Attempts(START.shelf.drafts, pair)
    {
      assert DraftsOf(START.shelf.drafts, pair) == {};
    }
  }

  // ------------------------------------------------------------------
  // Each step keeps it

  /** The produces of `after` run the same slots as those of `before`. */
  lemma SlotsSame(w: World, after: World)
    requires Slots(w) && after.inFlight == w.inFlight && after.procs.Keys == w.procs.Keys
    requires forall q | q in w.procs ::
      after.procs[q].pair == w.procs[q].pair && after.procs[q].slotted == w.procs[q].slotted
        && Alive(after.procs[q]) == Alive(w.procs[q])
    ensures Slots(after)
  {
    forall pair: Pair
      ensures pair in after.inFlight <==> SlotTaken(after, pair)
    {
      if pair in w.inFlight {
        assert SlotTaken(w, pair);
        var q :| q in w.procs && w.procs[q].pair == pair && w.procs[q].slotted && Alive(w.procs[q]);
        assert after.procs[q].pair == pair && after.procs[q].slotted && Alive(after.procs[q]);
      }
    }
  }

  /** Authorship only looks at pairs, keys and fates. */
  lemma AuthoredSame(w: World, after: World)
    requires Authored(w) && after.procs.Keys == w.procs.Keys
    requires forall q | q in w.procs ::
      after.procs[q].pair == w.procs[q].pair && after.procs[q].key == w.procs[q].key
        && after.procs[q].fate == w.procs[q].fate
    requires after.shelf.drafts.Keys == w.shelf.drafts.Keys && w.shelf.keys <= after.shelf.keys
    requires forall id | id in w.shelf.drafts :: after.shelf.drafts[id].author == w.shelf.drafts[id].author
    ensures Authored(after)
  {
    forall p | p in after.procs && after.procs[p].fate.Inserted?
      ensures Authors(after, p)
    {
      assert Authors(w, p);
      var id :| id in w.shelf.drafts && w.shelf.drafts[id].author == p;
      assert after.shelf.drafts[id].author == p;
    }
  }

  /** Produce `p` is at another point, with the same fate; nothing else moved. */
  lemma MoveKeepsInv(w: World, p: nat, pc: Pc)
    requires Inv(w) && p in w.procs && Alive(w.procs[p]) && !w.procs[p].pc.Returned? && !pc.Gone?
    requires Consistent(w.shelf.drafts, w.procs[p].(pc := pc))
    ensures Inv(Move(w, p, pc))
  {
    var after := Move(w, p, pc);
    SlotsSame(w, after);
    AuthoredSame(w, after);
    assert p !in w.hooks;
  }

  lemma NewProcKeepsSlots(w: World, after: World, p: nat, proc: Proc)
    requires Slots(w) && p !in w.procs && Alive(proc) && after.procs == w.procs[p := proc]
    requires if proc.slotted then proc.pair !in w.inFlight && after.inFlight == w.inFlight + {proc.pair}
             else after.inFlight == w.inFlight
    ensures Slots(after)
  {
    forall pair: Pair
      ensures pair in after.inFlight <==> SlotTaken(after, pair)
    {
      if pair in w.inFlight {
        assert SlotTaken(w, pair);
        var q :| q in w.procs && w.procs[q].pair == pair && w.procs[q].slotted && Alive(w.procs[q]);
        assert after.procs[q].pair == pair && after.procs[q].slotted && Alive(after.procs[q]);
      } else if pair in after.inFlight {
        assert after.procs[p].pair == pair && after.procs[p].slotted && Alive(after.procs[p]);
      }
    }
  }

  lemma NewProcKeepsProcs(w: World, after: World, p: nat, proc: Proc)
    requires ProcInv(w) && p !in w.procs && proc.pc.Started? && proc.fate.NotYet?
      && (proc.pump ==> proc.key == PumpKey(proc.pair))
    requires after == w.(inFlight := after.inFlight, procs := w.procs[p := proc])
    requires if proc.slotted then proc.pair !in w.inFlight && after.inFlight == w.inFlight + {proc.pair}
             else after.inFlight == w.inFlight
    ensures ProcInv(after)
  {
    NewProcKeepsSlots(w, after, p, proc);
    NewProcKeepsAuthored(w, after, p);
  }

  lemma NewProcKeepsInv(w: World, p: nat, proc: Proc, inFlight: set<Pair>)
    requires Inv(w) && p !in w.procs && proc.pc.Started? && proc.fate.NotYet?
      && (proc.pump ==> proc.key == PumpKey(proc.pair))
    requires if proc.slotted then proc.pair !in w.inFlight && inFlight == w.inFlight + {proc.pair}
      else inFlight == w.inFlight
    ensures Inv(w.(inFlight := inFlight, procs := w.procs[p := proc]))
  {
    NewProcKeepsProcs(w, w.(inFlight := inFlight, procs := w.procs[p := proc]), p, proc);
  }

  lemma NewProcKeepsAuthored(w: World, after: World, p: nat)
    requires Authored(w) && p !in w.procs && p in after.procs && after.procs[p].fate.NotYet?
    requires after.procs == w.procs[p := after.procs[p]] && after.shelf == w.shelf
    ensures Authored(after)
  {
    forall q | q in after.procs && after.procs[q].fate.Inserted?
      ensures Authors(after, q)
    {
      assert Authors(w, q);
    }
  }

  /** Inserting the next attempt keeps the numbering. */
  lemma InsertNumbers(drafts: map<DraftId, Draft>, pair: Pair, attempt: nat, draft: Draft)
    requires Numbered(drafts) && 1 <= attempt <= Attempts(drafts, pair) + 1 && DraftId(pair, attempt) !in drafts
    ensures var after := drafts[DraftId(pair, attempt) := draft];
      && attempt == Attempts(drafts, pair) + 1
      && Numbered(after)
      && forall other: Pair :: Attempts(after, other) == Attempts(drafts, other) + if other == pair then 1 else 0
  {
    var id := DraftId(pair, attempt);
    var after := drafts[id := draft];
    assert attempt == Attempts(drafts, pair) + 1;
    assert DraftsOf(after, pair) == DraftsOf(drafts, pair) + {id};
    forall other: Pair ensures Attempts(after, other) == Attempts(drafts, other) + if other == pair then 1 else 0 {
      if other != pair {
        assert DraftsOf(after, other) == DraftsOf(drafts, other);
      }
    }
    forall other: Pair, k: nat ensures DraftId(other, k) in after <==> 1 <= k <= Attempts(after, other) {
      assert DraftId(other, k) in drafts <==> 1 <= k <= Attempts(drafts, other);
    }
  }

  lemma InsertKeepsOneActive(drafts: map<DraftId, Draft>, id: DraftId, draft: Draft)
    requires OneActive(drafts) && !HasActive(drafts, id.pair)
    ensures OneActive(drafts[id := draft])
  {
    var after := drafts[id := draft];
    forall a, b | a in after && b in after && a.pair == b.pair && IsActive(after, a) && IsActive(after, b)
      ensures a == b
    {
      if a != b {
        assert a != id ==> IsActive(drafts, a);
        assert b != id ==> IsActive(drafts, b);
      }
    }
  }

  /** Produce `p` has just inserted draft `id` under its own unused key. */
  predicate Inserts(w: World, after: World, p: nat, id: DraftId) {
    && p in w.procs && w.procs[p].fate.NotYet? && w.procs[p].key !in w.shelf.keys
    && id.pair == w.procs[p].pair && id !in w.shelf.drafts
    && after.shelf == Shelf(w.shelf.drafts[id := Draft(Staged, p)], w.shelf.keys + {w.procs[p].key})
    && after.procs == w.procs[p := w.procs[p].(pc := StageTried, fate := Inserted)]
  }

  lemma InsertKeepsAuthorsKnown(w: World, after: World, p: nat, id: DraftId)
    requires AuthorsKnown(w) && Inserts(w, after, p, id)
    ensures AuthorsKnown(after)
    ensures forall d | d in w.shelf.drafts :: w.shelf.drafts[d].author != p
  {
    assert forall d | d in w.shelf.drafts :: w.shelf.drafts[d].author != p;
  }

  lemma InsertKeepsAuthorsDiffer(w: World, after: World, p: nat, id: DraftId)
    requires AuthorsKnown(w) && AuthorsDiffer(w) && Inserts(w, after, p, id)
    ensures AuthorsDiffer(after)
  {
    InsertKeepsAuthorsKnown(w, after, p, id);
    forall a, b | a in after.shelf.drafts && b in after.shelf.drafts && a != b
      ensures after.shelf.drafts[a].author != after.shelf.drafts[b].author
      ensures after.procs[after.shelf.drafts[a].author].key != after.procs[after.shelf.drafts[b].author].key
    {
      var earlier := if a == id then b else a;
      assert earlier in w.shelf.drafts && w.procs[w.shelf.drafts[earlier].author].key in w.shelf.keys;
    }
  }

  lemma InsertKeepsAuthored(w: World, after: World, p: nat, id: DraftId)
    requires Authored(w) && Inserts(w, after, p, id)
    ensures Authored(after)
  {
    InsertKeepsAuthorsKnown(w, after, p, id);
    InsertKeepsAuthorsDiffer(w, after, p, id);
    forall q | q in after.procs && after.procs[q].fate.Inserted? ensures Authors(after, q) {
      if q == p {
        assert after.shelf.drafts[id].author == p;
      } else {
        assert Authors(w, q);
        var d :| d in w.shelf.drafts && w.shelf.drafts[d].author == q;
        assert after.shelf.drafts[d].author == q;
      }
    }
  }

  lemma InsertKeepsConsistent(w: World, after: World, p: nat, id: DraftId)
    requires forall q | q in w.procs :: Consistent(w.shelf.drafts, w.procs[q])
    requires Inserts(w, after, p, id)
    requires forall pair :: Attempts(w.shelf.drafts, pair) <= Attempts(after.shelf.drafts, pair)
    ensures forall q | q in after.procs :: Consistent(after.shelf.drafts, after.procs[q])
  {
    assert Consistent(w.shelf.drafts, w.procs[p]);
    GrowingKeepsConsistent(w, after, p);
  }

  lemma InsertKeepsProcs(w: World, after: World, p: nat, id: DraftId)
    requires ProcInv(w)
    requires Inserts(w, after, p, id) && w.procs[p].pc.Drafting? && after.inFlight == w.inFlight
      && after.hooks == w.hooks
    requires forall pair :: Attempts(w.shelf.drafts, pair) <= Attempts(after.shelf.drafts, pair)
    ensures ProcInv(after)
  {
    InsertKeepsAuthored(w, after, p, id);
    SlotsSame(w, after);
    InsertKeepsConsistent(w, after, p, id);
    HooksSame(w, after, p);
  }

  lemma InsertKeepsInv(w: World, after: World, p: nat, attempt: nat)
    requires Inv(w) && p in w.procs && w.procs[p].pc == Drafting(attempt)
    requires Inserts(w, after, p, DraftId(w.procs[p].pair, attempt)) && after.inFlight == w.inFlight
      && after.hooks == w.hooks
    requires !HasActive(w.shelf.drafts, w.procs[p].pair)
    ensures Inv(after)
  {
    var proc := w.procs[p];
    assert Consistent(w.shelf.drafts, proc);
    InsertNumbers(w.shelf.drafts, proc.pair, attempt, Draft(Staged, p));
    InsertKeepsOneActive(w.shelf.drafts, DraftId(proc.pair, attempt), Draft(Staged, p));
    InsertKeepsProcs(w, after, p, DraftId(proc.pair, attempt));
  }

  lemma GrowingKeepsConsistent(w: World, after: World, p: nat)
    requires forall q | q in w.procs :: Consistent(w.shelf.drafts, w.procs[q])
    requires forall pair :: Attempts(w.shelf.drafts, pair) <= Attempts(after.shelf.drafts, pair)
    requires p in after.procs && after.procs == w.procs[p := after.procs[p]]
      && Consistent(after.shelf.drafts, after.procs[p])
    ensures forall q | q in after.procs :: Consistent(after.shelf.drafts, after.procs[q])
  {
    forall q | q in after.procs ensures Consistent(after.shelf.drafts, after.procs[q]) {
      if q != p {
        assert Consistent(w.shelf.drafts, w.procs[q]);
      }
    }
  }

  lemma HooksSame(w: World, after: World, p: nat)
    requires HooksOnce(w) && after.hooks == w.hooks
    requires p in w.procs && p in after.procs && after.procs == w.procs[p := after.procs[p]]
    requires (Alive(w.procs[p]) && !w.procs[p].pc.Returned?)
      || (after.procs[p].pc.Gone? && after.procs[p].fate == w.procs[p].fate
          && after.procs[p].hooked == w.procs[p].hooked)
    ensures HooksOnce(after)
  {
    if Alive(w.procs[p]) && !w.procs[p].pc.Returned? {
      assert p !in w.hooks;
    }
  }

  lemma StageKeepsInv(w: World, p: nat)
    requires Inv(w) && Enabled(w, Stage(p))
    ensures Inv(Do(w, Stage(p)))
  {
    var proc := w.procs[p];
    var (shelf, fate) := StageTx(w.shelf, proc.pair, proc.pc.attempt, proc.key, p);
    if fate.Inserted? {
      assert Consistent(w.shelf.drafts, proc);
      InsertKeepsInv(w, Do(w, Stage(p)), p, proc.pc.attempt);
    } else {
      UnstagedKeepsInv(w, p, fate);
      NotesKeepInv(w.(procs := w.procs[p := w.procs[p].(pc := StageTried, fate := fate)]), Do(w, Stage(p)).notes);
    }
  }

  lemma UnstagedKeepsInv(w: World, p: nat, fate: Fate)
    requires Inv(w) && p in w.procs && w.procs[p].pc.Drafting? && (fate.Replayed? || fate.Refused?)
    ensures Inv(w.(procs := w.procs[p := w.procs[p].(pc := StageTried, fate := fate)]))
  {
    var after := w.(procs := w.procs[p := w.procs[p].(pc := StageTried, fate := fate)]);
    assert Consistent(w.shelf.drafts, w.procs[p]);
    SlotsSame(w, after);
    UnstagedKeepsAuthored(w, p, fate);
    GrowingKeepsConsistent(w, after, p);
    HooksSame(w, after, p);
  }

  lemma UnstagedKeepsAuthored(w: World, p: nat, fate: Fate)
    requires Authored(w) && p in w.procs && w.procs[p].fate.NotYet? && !fate.Inserted?
    ensures Authored(w.(procs := w.procs[p := w.procs[p].(pc := StageTried, fate := fate)]))
  {
    var after := w.(procs := w.procs[p := w.procs[p].(pc := StageTried, fate := fate)]);
    forall q | q in after.procs && after.procs[q].fate.Inserted?
      ensures Authors(after, q)
    {
      assert Authors(w, q);
    }
  }

  lemma HookKeepsInv(w: World, p: nat)
    requires Inv(w) && p in w.procs && w.procs[p].pc == Returned(Produced) && w.procs[p].hooked && p !in w.hooks
    ensures Inv(w.(hooks := w.hooks + multiset{p}))
  {
    assert Consistent(w.shelf.drafts, w.procs[p]);
    SlotsSame(w, w.(hooks := w.hooks + multiset{p}));
  }

  lemma RunHookKeepsInv(w: World, p: nat)
    requires Inv(w) && Enabled(w, RunHook(p))
    ensures Inv(Do(w, RunHook(p)))
  {
    assert Consistent(w.shelf.drafts, w.procs[p]);
    assert p !in w.hooks;
    var moved := Move(w, p, Returned(Produced));
    MoveKeepsInv(w, p, Returned(Produced));
    HookKeepsInv(moved, p);
    NotesKeepInv(moved.(hooks := w.hooks + multiset{p}), Do(w, RunHook(p)).notes);
  }

  lemma EndKeepsSlots(w: World, after: World, p: nat)
    requires Slots(w) && p in w.procs && Alive(w.procs[p]) && p in after.procs
    requires after.procs == w.procs[p := after.procs[p]] && !Alive(after.procs[p])
    requires after.inFlight == if w.procs[p].slotted then w.inFlight - {w.procs[p].pair} else w.inFlight
    ensures Slots(after)
  {
    forall pair: Pair
      ensures pair in after.inFlight <==> SlotTaken(after, pair)
    {
      if pair in after.inFlight {
        assert SlotTaken(w, pair);
        var q :| q in w.procs && w.procs[q].pair == pair && w.procs[q].slotted && Alive(w.procs[q]);
        assert q != p;
        assert after.procs[q].pair == pair && after.procs[q].slotted && Alive(after.procs[q]);
      }
    }
  }

  lemma EndKeepsInv(w: World, p: nat)
    requires Inv(w) && Enabled(w, End(p))
    ensures Inv(Do(w, End(p)))
  {
    var after := Do(w, End(p));
    assert Consistent(w.shelf.drafts, w.procs[p]);
    AuthoredSame(w, after);
    EndKeepsSlots(w, after, p);
    GrowingKeepsConsistent(w, after, p);
    HooksSame(w, after, p);
  }

  lemma CrashKeepsSlots(w: World, after: World)
    requires after == Do(w, Crash)
    ensures Slots(after)
  {
  }

  lemma CrashKeepsConsistent(w: World, after: World)
    requires (forall q | q in w.procs :: Consistent(w.shelf.drafts, w.procs[q])) && after == Do(w, Crash)
    ensures forall q | q in after.procs :: Consistent(after.shelf.drafts, after.procs[q])
  {
    forall p | p in after.procs ensures Consistent(after.shelf.drafts, after.procs[p]) {
      assert Consistent(w.shelf.drafts, w.procs[p]);
    }
  }

  lemma CrashKeepsProcs(w: World, after: World)
    requires ProcInv(w) && after == Do(w, Crash)
    ensures ProcInv(after)
  {
    AuthoredSame(w, after);
    CrashKeepsSlots(w, after);
    CrashKeepsConsistent(w, after);
  }

  lemma CrashKeepsInv(w: World)
    requires Inv(w)
    ensures Inv(Do(w, Crash))
  {
    CrashKeepsProcs(w, Do(w, Crash));
  }

  /** Deciding on a draft changes one status, never back to active. */
  predicate Decided(before: map<DraftId, Draft>, after: map<DraftId, Draft>) {
    && before.Keys == after.Keys
    && forall a | a in after :: after[a].author == before[a].author && (IsActive(after, a) ==> IsActive(before, a))
  }

  lemma DecidedKeeps(before: map<DraftId, Draft>, after: map<DraftId, Draft>)
    requires Decided(before, after)
    ensures OneActive(before) ==> OneActive(after)
    ensures forall pair: Pair :: Attempts(after, pair) == Attempts(before, pair)
    ensures Numbered(before) ==> Numbered(after)
  {
    forall pair: Pair ensures Attempts(after, pair) == Attempts(before, pair) {
      assert DraftsOf(after, pair) == DraftsOf(before, pair);
    }
  }

  lemma DecidedKeepsInv(w: World, after: World)
    requires Inv(w) && Decided(w.shelf.drafts, after.shelf.drafts) && w.shelf.keys <= after.shelf.keys
    requires after == w.(shelf := after.shelf)
    ensures Inv(after)
  {
    DecidedKeeps(w.shelf.drafts, after.shelf.drafts);
    AuthoredSame(w, after);
    SlotsSame(w, after);
    forall p | p in after.procs ensures Consistent(after.shelf.drafts, after.procs[p]) {
      assert Consistent(w.shelf.drafts, w.procs[p]);
    }
  }

  lemma ClaimKeepsInv(w: World, p: nat, pair: Pair, key: string, pump: bool)
    requires Inv(w) && p !in w.procs && (pump ==> key == PumpKey(pair))
    ensures Inv(Claim(w, p, pair, key, pump))
  {
    if pair !in w.inFlight {
      NewProcKeepsInv(w, p, Proc(pair, key, true, true, pump, Started, NotYet), w.inFlight + {pair});
    }
  }

  lemma StepKeepsInv(w: World, step: Step)
    requires Inv(w)
    ensures Inv(Next(w, step))
  {
    if Enabled(w, step) {
      DoKeepsInv(w, step);
    }
  }

  lemma DecideDecides(w: World, id: DraftId, approve: bool, key: string)
    requires Enabled(w, Decide(id, approve, key))
    ensures var after := Do(w, Decide(id, approve, key));
      Decided(w.shelf.drafts, after.shelf.drafts) && w.shelf.keys <= after.shelf.keys
        && after == w.(shelf := after.shelf)
  {
  }

  lemma DecideKeepsInv(w: World, id: DraftId, approve: bool, key: string)
    requires Inv(w) && Enabled(w, Decide(id, approve, key))
    ensures Inv(Do(w, Decide(id, approve, key)))
  {
    DecideDecides(w, id, approve, key);
    DecidedKeepsInv(w, Do(w, Decide(id, approve, key)));
  }

  lemma MovesKeepInv(w: World, step: Step)
    requires Inv(w) && Enabled(w, step)
    requires step.Abandon? || step.CheckActive? || step.CountAttempts? || step.Reread?
    ensures Inv(Do(w, step))
  {
    var p := step.p;
    assert Consistent(w.shelf.drafts, w.procs[p]);
    MoveKeepsInv(w, p, Do(w, step).procs[p].pc);
    NotesKeepInv(Move(w, p, Do(w, step).procs[p].pc), Do(w, step).notes);
  }

  lemma DoKeepsInv(w: World, step: Step)
    requires Inv(w) && Enabled(w, step)
    ensures Inv(Do(w, step))
  {
    match step
    case Begin(p, pair, key) => ClaimKeepsInv(w, p, pair, key, false);
    case BeginPump(p, pair) => ClaimKeepsInv(w, p, pair, PumpKey(pair), true);
    case BeginProposal(p, pair, key) =>
      NewProcKeepsInv(w, p, Proc(pair, key, false, false, false, Started, NotYet), w.inFlight);
    case Abandon(_, _) => MovesKeepInv(w, step);
    case CheckActive(_) => MovesKeepInv(w, step);
    case CountAttempts(_) => MovesKeepInv(w, step);
    case Stage(p) => StageKeepsInv(w, p);
    case Reread(_) => MovesKeepInv(w, step);
    case RunHook(p) => RunHookKeepsInv(w, p);
    case End(p) => EndKeepsInv(w, p);
    case Decide(id, approve, key) => DecideKeepsInv(w, id, approve, key);
    case OtherWrite(_) => DecidedKeepsInv(w, Do(w, step));
    case Crash => CrashKeepsInv(w);
  }

  lemma {:induction false} RunKeepsInv(w: World, steps: seq<Step>)
    requires Inv(w)
    ensures Inv(Run(w, steps))
  {
    if steps != [] {
      RunKeepsInv(w, steps[..|steps| - 1]);
      StepKeepsInv(Run(w, steps[..|steps| - 1]), steps[|steps| - 1]);
    }
  }

  // ------------------------------------------------------------------
  // Main results

  /**
   In every reachable state a pair has at most one active draft, and its drafts are numbered 1 .. n:
   two produces that counted the same attempts never both stage.
  */
  lemma OneActiveDraftPerPair(steps: seq<Step>, a: DraftId, b: DraftId)
    ensures var drafts := Run(START, steps).shelf.drafts;
      && (a.pair == b.pair && IsActive(drafts, a) && IsActive(drafts, b) ==> a == b)
      && (a in drafts <==> 1 <= a.attempt <= Attempts(drafts, a.pair))
  {
    StartInv();
    RunKeepsInv(START, steps);
    var drafts := Run(START, steps).shelf.drafts;
    assert DraftId(a.pair, a.attempt) == a;
    assert DraftId(a.pair, a.attempt) in drafts <==> 1 <= a.attempt <= Attempts(drafts, a.pair);
  }

  /** No two produces that claimed the slot of one pair run at the same time. */
  lemma SlotExcludes(steps: seq<Step>, p: nat, q: nat)
    ensures var w := Run(START, steps);
      (p in w.procs && q in w.procs && w.procs[p].slotted && w.procs[q].slotted && Alive(w.procs[p])
       && Alive(w.procs[q])
       && w.procs[p].pair == w.procs[q].pair) ==> p == q
  {
    StartInv();
    RunKeepsInv(START, steps);
  }

  /**
   A produce staged a draft exactly when its staging transaction inserted one, and then only one: a
   produce that lost the race, or found a draft already there, never stages.
  */
  lemma LosersNeverStage(steps: seq<Step>, p: nat)
    requires p in Run(START, steps).procs
    ensures var w := Run(START, steps);
      && (Authors(w, p) <==> w.procs[p].fate.Inserted?)
      && (forall a, b | a in w.shelf.drafts && b in w.shelf.drafts && w.shelf.drafts[a].author == p
          && w.shelf.drafts[b].author == p :: a == b)
      && (w.procs[p].pc == Gone(LostRace) || w.procs[p].pc == Gone(AlreadyDrafted) ==> !Authors(w, p))
  {
    StartInv();
    RunKeepsInv(START, steps);
    var w := Run(START, steps);
    assert Consistent(w.shelf.drafts, w.procs[p]);
  }

  // ------------------------------------------------------------------
  // Which draft after_stage acts on

  /** Was the key of `p` applied already when its staging transaction ran? */
  ghost predicate KeySpent(steps: seq<Step>, p: nat) {
    steps != [] &&
    var front, last := steps[..|steps| - 1], steps[|steps| - 1];
    var w := Run(START, front);
    KeySpent(front, p) || (last == Stage(p) && Enabled(w, last) && w.procs[p].key in w.shelf.keys)
  }

  /** The draft `p` tried to stage. */
  function Tried(w: World, p: nat): DraftId
    requires p in w.procs
  {
    DraftId(w.procs[p].pair, NoteOf(w, p).attempt)
  }

  /** Was the draft `p` tried to stage active when this step of `p` ran? */
  ghost predicate ActiveAt(steps: seq<Step>, p: nat, step: Step) {
    steps != [] &&
    var front, last := steps[..|steps| - 1], steps[|steps| - 1];
    var w := Run(START, front);
    ActiveAt(front, p, step)
      || (last == step && p in w.procs && Enabled(w, last) && IsActive(w.shelf.drafts, Tried(w, p)))
  }

  /** A produce that has staged nothing yet has seen nothing; later it has seen drafts of its pair. */
  ghost predicate Noted(w: World, p: nat) {
    && p in w.procs
    && var proc, note := w.procs[p], NoteOf(w, p);
      && (proc.fate.NotYet? ==> note == Note(0, None, None))
      && (proc.pc.StageTried? ==> note.read.None? && note.acted.None?)
      && (proc.pc.HookDue? ==> note.read.Some? && note.acted.None? && p !in w.hooks)
      && (note.read.Some? ==> note.read.value in w.shelf.drafts && note.read.value.pair == proc.pair)
      && (note.acted.Some? ==> note.acted.value in w.shelf.drafts && note.acted.value.pair == proc.pair)
      && (proc.fate.Inserted? ==> Tried(w, p) in w.shelf.drafts && w.shelf.drafts[Tried(w, p)].author == p)
      && (p in w.hooks ==> note.read.Some?)
  }

  /** No step removes a draft or changes its author. */
  lemma DraftsStay(w: World, step: Step)
    ensures forall id | id in w.shelf.drafts ::
      id in Next(w, step).shelf.drafts && Next(w, step).shelf.drafts[id].author == w.shelf.drafts[id].author
  {
  }

  /** A step of anyone else leaves a produce its pair, key, fate and notes. */
  lemma OthersLeave(w: World, step: Step, p: nat)
    requires p in w.procs && step != Stage(p) && step != Reread(p) && step != RunHook(p)
    ensures var after := Next(w, step);
      && p in after.procs
      && after.procs[p].pair == w.procs[p].pair && after.procs[p].key == w.procs[p].key
      && after.procs[p].fate == w.procs[p].fate && NoteOf(after, p) == NoteOf(w, p)
      && (p in after.hooks <==> p in w.hooks)
      && (after.procs[p].pc.StageTried? ==> w.procs[p].pc.StageTried?)
      && (after.procs[p].pc.HookDue? ==> w.procs[p].pc.HookDue?)
  {
  }

  lemma OwnStepNoted(w: World, step: Step, p: nat)
    requires Inv(w) && Noted(w, p) && Enabled(w, step)
    requires step == Stage(p) || step == Reread(p) || step == RunHook(p)
    ensures Noted(Next(w, step), p)
  {
    assert Consistent(w.shelf.drafts, w.procs[p]);
  }

  lemma StepNoted(w: World, step: Step, p: nat)
    requires Inv(w) && (p in w.procs ==> Noted(w, p)) && (p !in w.procs ==> p !in w.notes && p !in w.hooks)
    ensures var after := Next(w, step);
      (p in after.procs ==> Noted(after, p)) && (p !in after.procs ==> p !in after.notes && p !in after.hooks)
  {
    if p in w.procs {
      if (step == Stage(p) || step == Reread(p) || step == RunHook(p)) && Enabled(w, step) {
        OwnStepNoted(w, step, p);
      } else if step != Stage(p) && step != Reread(p) && step != RunHook(p) {
        OthersLeave(w, step, p);
        DraftsStay(w, step);
      }
    }
  }

  lemma {:induction false} RunNoted(steps: seq<Step>, p: nat)
    ensures var w := Run(START, steps);
      (p in w.procs ==> Noted(w, p)) && (p !in w.procs ==> p !in w.notes && p !in w.hooks)
  {
    if steps != [] {
      var front := steps[..|steps| - 1];
      RunNoted(front, p);
      StartInv();
      RunKeepsInv(START, front);
      StepNoted(Run(START, front), steps[|steps| - 1], p);
    }
  }

  /** What the run says of a produce is what it remembers. */
  ghost predicate Told(steps: seq<Step>, p: nat) {
    var w := Run(START, steps);
    if p in w.procs then
      && (KeySpent(steps, p) <==> w.procs[p].fate.Replayed?)
      && (ActiveAt(steps, p, Reread(p)) <==> NoteOf(w, p).read == Some(Tried(w, p)))
      && (ActiveAt(steps, p, RunHook(p)) <==> NoteOf(w, p).acted == Some(Tried(w, p)))
    else !KeySpent(steps, p) && !ActiveAt(steps, p, Reread(p)) && !ActiveAt(steps, p, RunHook(p))
  }

  /** The active draft of a pair is the one tried exactly when that one is active. */
  lemma ActiveIsTried(drafts: map<DraftId, Draft>, id: DraftId)
    requires OneActive(drafts)
    ensures ActiveOf(drafts, id.pair) == Some(id) <==> IsActive(drafts, id)
  {
  }

  lemma {:induction false} RunTold(steps: seq<Step>, p: nat)
    ensures Told(steps, p)
  {
    if steps != [] {
      var front, step := steps[..|steps| - 1], steps[|steps| - 1];
      var w := Run(START, front);
      RunTold(front, p);
      RunNoted(front, p);
      StartInv();
      RunKeepsInv(START, front);
      if p in w.procs && Enabled(w, step) && (step == Stage(p) || step == Reread(p) || step == RunHook(p)) {
        ActiveIsTried(w.shelf.drafts, Tried(w, p));
        OwnStepTold(steps, p);
      } else if p in w.procs && step != Stage(p) && step != Reread(p) && step != RunHook(p) {
        OthersLeave(w, step, p);
      }
    }
  }

  lemma OwnStepTold(steps: seq<Step>, p: nat)
    requires steps != [] && Told(steps[..|steps| - 1], p)
    requires var w, step := Run(START, steps[..|steps| - 1]), steps[|steps| - 1];
      && Inv(w) && Noted(w, p) && Enabled(w, step) && (step == Stage(p) || step == Reread(p) || step == RunHook(p))
      && (ActiveOf(w.shelf.drafts, w.procs[p].pair) == Some(Tried(w, p)) <==> IsActive(w.shelf.drafts, Tried(w, p)))
    ensures Told(steps, p)
  {
    var w, step := Run(START, steps[..|steps| - 1]), steps[|steps| - 1];
    assert Consistent(w.shelf.drafts, w.procs[p]);
  }

  /** after_stage runs at most once per produce, in the one that staged unless its key had been applied before. */
  lemma HookRunsInStagingProduce(steps: seq<Step>, p: nat)
    requires p in Run(START, steps).hooks
    ensures var w := Run(START, steps);
      w.hooks[p] == 1 && p in w.procs && (Authors(w, p) <==> !KeySpent(steps, p))
  {
    StartInv();
    RunKeepsInv(START, steps);
    LosersNeverStage(steps, p);
    RunTold(steps, p);
  }

  /** A produce was replayed exactly when its key had been applied before its staging transaction. */
  lemma ReplayedIffKeySpent(steps: seq<Step>, p: nat)
    requires p in Run(START, steps).procs
    ensures Run(START, steps).procs[p].fate.Replayed? <==> KeySpent(steps, p)
  {
    RunTold(steps, p);
  }

  predicate Wrote(w: World, p: nat, draft: Option<DraftId>) {
    draft.Some? && draft.value in w.shelf.drafts && w.shelf.drafts[draft.value].author == p
  }

  /** A draft of one's own is the draft one tried to stage. */
  lemma OwnIsTried(w: World, p: nat, draft: Option<DraftId>)
    requires Inv(w) && Noted(w, p) && !w.procs[p].fate.NotYet? && !w.procs[p].fate.Refused?
    requires draft.Some? ==> draft.value in w.shelf.drafts
    ensures Wrote(w, p, draft) <==> draft == Some(Tried(w, p)) && !w.procs[p].fate.Replayed?
  {
  }

  /**
   The draft a produce that runs after_stage has read back is its own if and only if its key was
   unused when it staged and the draft it staged was still active when it read it back.
  */
  lemma ReadsBackOwnDraft(steps: seq<Step>, p: nat)
    requires p in Run(START, steps).hooks
    ensures var w := Run(START, steps);
      p in w.procs && (Wrote(w, p, NoteOf(w, p).read) <==> !KeySpent(steps, p) && ActiveAt(steps, p, Reread(p)))
  {
    StartInv();
    RunKeepsInv(START, steps);
    RunNoted(steps, p);
    RunTold(steps, p);
    OwnIsTried(Run(START, steps), p, NoteOf(Run(START, steps), p).read);
  }

  /**
   after_stage runs at most once per produce, and acts on the draft that produce staged if and only if
   its key was unused when it staged and that draft is still active when the hook runs.
  */
  lemma HookActsOnOwnDraft(steps: seq<Step>, p: nat)
    requires p in Run(START, steps).hooks
    ensures var w := Run(START, steps);
      && w.hooks[p] == 1 && p in w.procs
      && (Wrote(w, p, NoteOf(w, p).acted) <==> !KeySpent(steps, p) && ActiveAt(steps, p, RunHook(p)))
  {
    StartInv();
    RunKeepsInv(START, steps);
    RunNoted(steps, p);
    RunTold(steps, p);
    OwnIsTried(Run(START, steps), p, NoteOf(Run(START, steps), p).acted);
  }

  /** Under that condition no draft gets after_stage twice. */
  lemma OneHookPerDraft(steps: seq<Step>, p: nat, q: nat)
    requires p in Run(START, steps).hooks && q in Run(START, steps).hooks
    requires !KeySpent(steps, p) && ActiveAt(steps, p, RunHook(p))
    requires !KeySpent(steps, q) && ActiveAt(steps, q, RunHook(q))
    ensures var w := Run(START, steps);
      && NoteOf(w, p).acted.Some? && NoteOf(w, q).acted.Some? && w.hooks[p] == 1
      && (NoteOf(w, p).acted == NoteOf(w, q).acted ==> p == q)
  {
    HookActsOnOwnDraft(steps, p);
    HookActsOnOwnDraft(steps, q);
  }

  /** The pump stages at most one draft per pair over the whole run. */
  lemma PumpStagesOnce(steps: seq<Step>, a: DraftId, b: DraftId)
    requires a in Run(START, steps).shelf.drafts && b in Run(START, steps).shelf.drafts
    requires a.pair == b.pair
    ensures var w := Run(START, steps);
      var p, q := w.shelf.drafts[a].author, w.shelf.drafts[b].author;
      p in w.procs && q in w.procs && (w.procs[p].pump && w.procs[q].pump ==> a == b)
  {
    StartInv();
    RunKeepsInv(START, steps);
    var w := Run(START, steps);
    assert Consistent(w.shelf.drafts, w.procs[w.shelf.drafts[a].author]);
    assert Consistent(w.shelf.drafts, w.procs[w.shelf.drafts[b].author]);
  }

  // ------------------------------------------------------------------
  // A reused key

  lemma Extend(steps: seq<Step>, step: Step) returns (longer: seq<Step>)
    ensures longer == steps + [step] && Run(START, longer) == Next(Run(START, steps), step)
  {
    longer := steps + [step];
    assert longer[..|longer| - 1] == steps;
  }

  /** A produce that runs alone from its start to the point where it stages. */
  lemma Prepare(steps: seq<Step>, p: nat) returns (longer: seq<Step>)
    requires var w := Run(START, steps);
      p in w.procs && w.procs[p].pc.Started? && !HasActive(w.shelf.drafts, w.procs[p].pair)
    ensures var w := Run(START, steps);
      Run(START, longer) == Move(w, p, Drafting(Attempts(w.shelf.drafts, w.procs[p].pair) + 1))
  {
    longer := Extend(steps, CheckActive(p));
    longer := Extend(longer, CountAttempts(p));
  }

  /** A world without its notes. */
  function Bare(w: World): World {
    w.(notes := map[])
  }

  function Alone(pair: Pair, key: string, pc: Pc, fate: Fate): map<nat, Proc> {
    map[1 := Proc(pair, key, true, true, false, pc, fate)]
  }

  lemma StageFirst(pair: Pair, key: string) returns (steps: seq<Step>)
    ensures Bare(Run(START, steps)) ==
      World(Shelf(map[DraftId(pair, 1) := Draft(Staged, 1)], {key}), {pair}, Alone(pair, key, StageTried, Inserted),
            multiset{}, map[])
  {
    steps := Extend([], Begin(1, pair, key));
    assert DraftsOf(map[], pair) == {};
    steps := Prepare(steps, 1);
    assert Bare(Run(START, steps)) ==
      World(Shelf(map[], {}), {pair}, Alone(pair, key, Drafting(1), NotYet), multiset{}, map[]);
    steps := Extend(steps, Stage(1));
  }

  lemma HookFirst(pair: Pair, key: string) returns (steps: seq<Step>)
    ensures Bare(Run(START, steps)) ==
      World(Shelf(map[DraftId(pair, 1) := Draft(Staged, 1)], {key}), {pair},
            Alone(pair, key, Returned(Produced), Inserted), multiset{1}, map[])
  {
    steps := StageFirst(pair, key);
    assert IsActive(Run(START, steps).shelf.drafts, DraftId(pair, 1));
    steps := Extend(steps, Reread(1));
    assert Run(START, steps).procs == Alone(pair, key, HookDue, Inserted);
    steps := Extend(steps, RunHook(1));
  }

  /** The first half: one produce stages, runs its hook and ends, and an operator rejects its draft. */
  lemma StageAndReject(pair: Pair, key: string, reject: string) returns (steps: seq<Step>)
    requires key != reject
    ensures Bare(Run(START, steps)) ==
      World(Shelf(map[DraftId(pair, 1) := Draft(Rejected, 1)], {key, reject}), {},
            Alone(pair, key, Gone(Produced), Inserted), multiset{1}, map[])
  {
    steps := HookFirst(pair, key);
    steps := Extend(steps, End(1));
    steps := Extend(steps, Decide(DraftId(pair, 1), false, reject));
  }

  /** The second half, up to the staging: the second produce is thinking, its key is spent. */
  lemma SecondThinks(pair: Pair, key: string, reject: string) returns (steps: seq<Step>)
    requires key != reject
    ensures var w := Run(START, steps);
      && w.shelf == Shelf(map[DraftId(pair, 1) := Draft(Rejected, 1)], {key, reject})
      && w.procs.Keys == {1, 2} && w.procs[2] == Proc(pair, key, true, true, false, Drafting(2), NotYet)
  {
    steps := StageAndReject(pair, key, reject);
    assert DraftsOf(Run(START, steps).shelf.drafts, pair) == {DraftId(pair, 1)};
    steps := Extend(steps, Begin(2, pair, key));
    steps := Prepare(steps, 2);
  }

  /** A proposal stages the second draft meanwhile. */
  lemma ProposalStages(pair: Pair, key: string, reject: string, other: string) returns (steps: seq<Step>)
    requires key != reject && other != key && other != reject
    ensures var w := Run(START, steps);
      && w.shelf == Shelf(map[DraftId(pair, 1) := Draft(Rejected, 1), DraftId(pair, 2) := Draft(Staged, 3)],
                          {key, reject, other})
      && 2 in w.procs && w.procs[2] == Proc(pair, key, true, true, false, Drafting(2), NotYet)
  {
    steps := SecondThinks(pair, key, reject);
    assert DraftsOf(Run(START, steps).shelf.drafts, pair) == {DraftId(pair, 1)};
    steps := Extend(steps, BeginProposal(3, pair, other));
    steps := Prepare(steps, 3);
    steps := Extend(steps, Stage(3));
  }

  /**
   after_stage can run in a produce that staged nothing: start a produce again under the key of one
   whose draft was rejected, and let a proposal stage while it is thinking. Its staging transaction
   replays, and the draft it then reads back is the proposal's.
  */
  lemma ReusedKeyRunsHookForAnotherDraft(pair: Pair, key: string, reject: string, other: string)
    returns (steps: seq<Step>)
    requires key != reject && other != key && other != reject
    ensures var w := Run(START, steps);
      2 in w.hooks && 2 in w.procs && !Authors(w, 2) && w.procs[2].fate.Replayed?
  {
    steps := ProposalStages(pair, key, reject, other);
    assert IsActive(Run(START, steps).shelf.drafts, DraftId(pair, 2));
    steps := Extend(steps, Stage(2));
    steps := Extend(steps, Reread(2));
    steps := Extend(steps, RunHook(2));
  }

  /** Stage a draft, have it rejected before it is read back, and let a proposal stage the next one. */
  lemma ReplacedBeforeReread(pair: Pair, key: string, reject: string, other: string) returns (steps: seq<Step>)
    requires key != reject && other != key && other != reject
    ensures var w := Run(START, steps);
      && w.shelf == Shelf(map[DraftId(pair, 1) := Draft(Rejected, 1), DraftId(pair, 2) := Draft(Staged, 3)],
                          {key, reject, other})
      && 1 in w.procs && w.procs[1] == Proc(pair, key, true, true, false, StageTried, Inserted)
      && NoteOf(w, 1) == Note(1, None, None)
  {
    steps := StageFirst(pair, key);
    RunNoted(steps, 1);
    steps := Extend(steps, Decide(DraftId(pair, 1), false, reject));
    var rejected := Run(START, steps);
    assert rejected.shelf.drafts == map[DraftId(pair, 1) := Draft(Rejected, 1)];
    assert DraftsOf(rejected.shelf.drafts, pair) == {DraftId(pair, 1)};
    steps := Extend(steps, BeginProposal(3, pair, other));
    steps := Prepare(steps, 3);
    steps := Extend(steps, Stage(3));
  }

  /**
   Even with fresh keys throughout, after_stage can act on another produce's draft: the draft its
   produce staged is rejected, and a proposal stages the next one, before it reads its draft back.
  */
  lemma FreshKeysHookForAnotherDraft(pair: Pair, key: string, reject: string, other: string) returns (steps: seq<Step>)
    requires key != reject && other != key && other != reject
    ensures var w := Run(START, steps);
      && 1 in w.hooks && !KeySpent(steps, 1) && Authors(w, 1)
      && NoteOf(w, 1).acted == Some(DraftId(pair, 2)) && DraftId(pair, 2) in w.shelf.drafts
      && w.shelf.drafts[DraftId(pair, 2)].author == 3
  {
    steps := ReplacedBeforeReread(pair, key, reject, other);
    var drafts := Run(START, steps).shelf.drafts;
    assert IsActive(drafts, DraftId(pair, 2));
    assert ActiveOf(drafts, pair) == Some(DraftId(pair, 2));
    steps := Extend(steps, Reread(1));
    steps := Extend(steps, RunHook(1));
    RunTold(steps, 1);
    assert drafts[DraftId(pair, 1)].author == 1;
  }
}
