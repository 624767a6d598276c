/** Applying one learning event to one experience (internal/learning/memory_applier.go): with
    retries on version conflicts, and a rollback when the event cannot be marked. */
module EventApplier {
  import opened BetaLedger
  import opened ExperienceStore
  import opened Interference
  import opened LearningEvents
  import opened Wrappers

  // ---------------------------------------------------------------- the books

  /** The posteriors, the event ledger, where the posteriors started, and the rewards that moved a
      posterior without their event being APPLIED for it. */
  datatype Books = Books(
    data: map<Key, Experience>,
    order: seq<Key>,
    events: Events,
    initial: map<Key, Experience>,
    leaked: map<Key, Totals>)

  /** What the ledger, and what leaked past it, say of experience k. */
  function Recorded(order: seq<Key>, events: Events, leaked: map<Key, Totals>, k: Key): Totals
    requires (forall i | 0 <= i < |order| :: order[i] in events) && k in leaked
  {
    Plus(AppliedTotals(order, events, k), leaked[k])
  }

  ghost predicate Kept(b: Books) {
    && Ordered(b.events, b.order) && SoundConfidences(b.events)
    && (forall k | k in b.data :: KeyOf(b.data[k]) == k && k in b.initial && k in b.leaked && Proper(b.leaked[k]))
  }

  /** Every posterior is its initial one plus what is recorded, except that k is ahead by d. */
  ghost predicate BalancedBut(b: Books, k: Key, d: Totals) {
    && Kept(b)
    && forall x | x in b.data ::
         Stands(b.data[x], b.initial[x], if x == k then Plus(Recorded(b.order, b.events, b.leaked, x), d) else Recorded(b.order, b.events, b.leaked, x))
  }

  ghost predicate BalancedBooks(b: Books) {
    && Kept(b)
    && forall x | x in b.data :: Stands(b.data[x], b.initial[x], Recorded(b.order, b.events, b.leaked, x))
  }

  lemma RecordedIsProper(b: Books, k: Key)
    requires Kept(b) && k in b.data
    ensures Proper(Recorded(b.order, b.events, b.leaked, k))
  {
    AppliedIsProper(b.order, b.events, k);
    SumIsProper(AppliedTotals(b.order, b.events, k), b.leaked[k]);
  }

  /** `saved` is e after the Beta update of event ev. */
  predicate Updated(e: Experience, ev: Event, saved: Experience) {
    var u := ApplyBetaUpdate(e, Amount(ev), ev.confidence);
    u.Some? && PosteriorOf(saved) == PosteriorOf(u.value) && saved.utility == u.value.utility
  }

  lemma UpdatedStands(e: Experience, ev: Event, saved: Experience, initial: Experience, t: Totals)
    requires Stands(e, initial, t) && Proper(t) && 0.0 <= ev.confidence <= 1.0 && Updated(e, ev, saved)
    ensures Stands(saved, initial, Plus(t, DeltaOf(ev)))
  {
    hide Stands, ApplyBetaUpdate, Delta, Proper, Amount;
    StandsAfter(e, initial, t, Amount(ev), ev.confidence);
    SameStanding(ApplyBetaUpdate(e, Amount(ev), ev.confidence).value, saved, initial, Plus(t, DeltaOf(ev)));
  }

  /** The Beta update of event ev was stored: its experience is ahead by the event's delta. */
  lemma UpdateLands(b: Books, ev: Event, e: Experience, saved: Experience)
    requires BalancedBooks(b) && Subject(ev) in b.data && 0.0 <= ev.confidence <= 1.0
    requires PosteriorOf(e) == PosteriorOf(b.data[Subject(ev)]) && e.utility == b.data[Subject(ev)].utility
    requires KeyOf(saved) == Subject(ev) && Updated(e, ev, saved)
    ensures BalancedBut(b.(data := b.data[Subject(ev) := saved]), Subject(ev), DeltaOf(ev))
  {
    hide Stands, DeltaOf, Updated;
    var k := Subject(ev);
    RecordedIsProper(b, k);
    SameStanding(b.data[k], e, b.initial[k], Recorded(b.order, b.events, b.leaked, k));
    UpdatedStands(e, ev, saved, b.initial[k], Recorded(b.order, b.events, b.leaked, k));
    var b' := b.(data := b.data[k := saved]);
    forall x | x in b'.data
      ensures Stands(b'.data[x], b'.initial[x], if x == k then Plus(Recorded(b'.order, b'.events, b'.leaked, x), DeltaOf(ev)) else Recorded(b'.order, b'.events, b'.leaked, x))
    {
      assert Recorded(b'.order, b'.events, b'.leaked, x) == Recorded(b.order, b.events, b.leaked, x);
    }
  }

  lemma SameStanding(a: Experience, b: Experience, initial: Experience, t: Totals)
    requires Stands(a, initial, t) && PosteriorOf(a) == PosteriorOf(b) && a.utility == b.utility
    ensures Stands(b, initial, t)
  {
  }

  /** The event was marked APPLIED: the books balance again. */
  lemma MarkLands(b: Books, ev: Event)
    requires BalancedBut(b, Subject(ev), DeltaOf(ev)) && EventKey(ev) in b.events && b.events[EventKey(ev)] == ev
    requires ev.status != Applied && 0.0 <= ev.confidence <= 1.0
    ensures BalancedBooks(b.(events := b.events[EventKey(ev) := ev.(status := Applied)]))
  {
    hide Stands, DeltaOf;
    var b' := b.(events := b.events[EventKey(ev) := ev.(status := Applied)]);
    forall x | x in b'.data ensures Stands(b'.data[x], b'.initial[x], Recorded(b'.order, b'.events, b'.leaked, x)) {
      MarkingAdds(b.order, b.events, EventKey(ev), x);
      PlusSwaps(AppliedTotals(b.order, b.events, x), DeltaOf(ev), b.leaked[x]);
    }
  }

  /** Nobody undid the update and the event was not marked: the delta has leaked. */
  lemma LeakLands(b: Books, k: Key, d: Totals)
    requires BalancedBut(b, k, d) && k in b.data && Proper(d)
    ensures BalancedBooks(b.(leaked := b.leaked[k := Plus(b.leaked[k], d)]))
  {
    hide Stands;
    var b' := b.(leaked := b.leaked[k := Plus(b.leaked[k], d)]);
    SumIsProper(b.leaked[k], d);
    forall x | x in b'.data ensures Stands(b'.data[x], b'.initial[x], Recorded(b'.order, b'.events, b'.leaked, x)) {
      PlusAssociates(AppliedTotals(b.order, b.events, x), b.leaked[x], d);
    }
  }

  /** The rollback stored the posterior the experience had before the update. */
  lemma RollbackLands(b: Books, k: Key, d: Totals, before: Experience, restored: Experience)
    requires BalancedBut(b, k, d) && k in b.data && KeyOf(restored) == k
    requires Stands(before, b.initial[k], Recorded(b.order, b.events, b.leaked, k))
    requires PosteriorOf(restored) == PosteriorOf(before) && restored.utility == before.utility
    ensures BalancedBooks(b.(data := b.data[k := restored]))
  {
    hide Stands;
    SameStanding(before, restored, b.initial[k], Recorded(b.order, b.events, b.leaked, k));
    var b' := b.(data := b.data[k := restored]);
    forall x | x in b'.data ensures Stands(b'.data[x], b'.initial[x], Recorded(b'.order, b'.events, b'.leaked, x)) {
      assert Recorded(b'.order, b'.events, b'.leaked, x) == Recorded(b.order, b.events, b.leaked, x);
    }
  }

  /** Writes of others leave the posteriors as they are. */
  ghost predicate PosteriorsKept(data: map<Key, Experience>, data': map<Key, Experience>) {
    && data'.Keys == data.Keys
    && forall k | k in data ::
         && KeyOf(data'[k]) == KeyOf(data[k])
         && PosteriorOf(data'[k]) == PosteriorOf(data[k]) && data'[k].utility == data[k].utility
  }

  /** No use is forgotten. */
  ghost predicate UsesKept(data: map<Key, Experience>, data': map<Key, Experience>) {
    data'.Keys == data.Keys && forall k | k in data :: data'[k].useCount >= data[k].useCount && data'[k].version >= data[k].version
  }

  /** After an update was stored, the event could not be marked, and undoing the update failed as
      well: a store call, or the version check. */
  predicate RollbackLost(a: Log, b: Log) {
    b.faults >= a.faults + 2 || (b.faults == a.faults + 1 && b.conflicts > a.conflicts)
  }

  lemma BooksAreKeyed(b: Books)
    requires BalancedBooks(b)
    ensures forall k | k in b.data :: KeyOf(b.data[k]) == k
  {
  }

  lemma KeptAtFirst(data: map<Key, Experience>)
    ensures PosteriorsKept(data, data)
  {
  }

  lemma KeptOn(a: map<Key, Experience>, b: map<Key, Experience>, c: map<Key, Experience>)
    requires PosteriorsKept(a, b) && PosteriorsKept(b, c)
    ensures PosteriorsKept(a, c)
  {
  }

  lemma KeptBut(data: map<Key, Experience>, mid: map<Key, Experience>, k: Key, e: Experience)
    requires PosteriorsKept(data, mid) && k in data && KeyOf(e) == KeyOf(data[k])
    requires PosteriorOf(e) == PosteriorOf(data[k]) && e.utility == data[k].utility
    ensures PosteriorsKept(data, mid[k := e])
  {
  }

  lemma OthersKeep(b: Books, data': map<Key, Experience>, k: Key, d: Totals)
    requires PosteriorsKept(b.data, data')
    ensures BalancedBut(b, k, d) ==> BalancedBut(b.(data := data'), k, d)
    ensures BalancedBooks(b) ==> BalancedBooks(b.(data := data'))
  {
    hide Stands;
    var b' := b.(data := data');
    if Kept(b) {
      forall x | x in b'.data
        ensures forall t :: Stands(b.data[x], b.initial[x], t) ==> Stands(b'.data[x], b'.initial[x], t)
        ensures Recorded(b'.order, b'.events, b'.leaked, x) == Recorded(b.order, b.events, b.leaked, x)
      {
        forall t | Stands(b.data[x], b.initial[x], t) ensures Stands(b'.data[x], b'.initial[x], t) {
          SameStanding(b.data[x], b'.data[x], b.initial[x], t);
        }
      }
    }
  }

  ghost function NoLeaks(keys: set<Key>): (leaked: map<Key, Totals>)
    ensures leaked.Keys == keys && forall k | k in keys :: leaked[k] == NOTHING
  {
    map k | k in keys :: NOTHING
  }

  lemma NewBooks(data: map<Key, Experience>, leaked: map<Key, Totals>)
    requires forall k | k in data :: KeyOf(data[k]) == k && k in leaked
    requires forall k | k in leaked :: leaked[k] == NOTHING
    ensures BalancedBooks(Books(data, [], map[], data, leaked))
  {
    hide Stands, Proper, Plus;
    NothingIsProper();
    var b := Books(data, [], map[], data, leaked);
    forall k | k in data ensures Stands(b.data[k], b.initial[k], Recorded(b.order, b.events, b.leaked, k)) {
      PlusNothing(NOTHING);
      StandsAtFirst(data[k]);
    }
  }

  lemma StandsAtFirst(e: Experience)
    ensures Stands(e, e, NOTHING)
  {
  }

  /** Without leaks the ledger alone accounts for the posterior; and only without leaks does it. */
  lemma ConservedIff(b: Books, k: Key)
    requires BalancedBooks(b) && k in b.data
    ensures Stands(b.data[k], b.initial[k], AppliedTotals(b.order, b.events, k)) <==> b.leaked[k] == NOTHING
  {
    hide Stands, Proper;
    var t := AppliedTotals(b.order, b.events, k);
    AppliedIsProper(b.order, b.events, k);
    PlusNothing(t);
    if Stands(b.data[k], b.initial[k], t) {
      SameCounts(b.data[k], b.initial[k], t, Recorded(b.order, b.events, b.leaked, k));
      NoCountsNoLeak(t, b.leaked[k]);
    }
  }

  /** One more event is always one more success or failure. */
  lemma LeakIsSomething(leaked: Totals, ev: Event)
    ensures Plus(leaked, DeltaOf(ev)) != leaked && Plus(leaked, DeltaOf(ev)) != NOTHING
  {
  }

  lemma SameCounts(e: Experience, initial: Experience, t: Totals, u: Totals)
    requires Stands(e, initial, t) && Stands(e, initial, u)
    ensures t.wins == u.wins && t.losses == u.losses
  {
  }

  lemma NoCountsNoLeak(t: Totals, d: Totals)
    requires Proper(d) && Plus(t, d).wins == t.wins && Plus(t, d).losses == t.losses
    ensures d == NOTHING
  {
  }

  lemma KeysKept(b: Books, k: Key, d: Totals)
    requires BalancedBut(b, k, d) || BalancedBooks(b)
    ensures forall x | x in b.data :: KeyOf(b.data[x]) == x && x in b.initial && x in b.leaked
    ensures forall i | 0 <= i < |b.order| :: b.order[i] in b.events
  {
  }

  // ---------------------------------------------------------------- the applier

  /** Conflict tells whether the error the caller sees is a version conflict. */
  datatype ApplyResult = Done(exp: Experience, oldUtility: real) | AlreadyApplied(exp: Experience) | Failure(conflict: bool)

  const MAX_ATTEMPTS: nat := 8

  class MemoryEventApplier {
    const experiences: MemoryRepository
    const events: MemoryEventRepository
    const world: World
    ghost var initial: map<Key, Experience>
    ghost var leaked: map<Key, Totals>

    constructor (experiences: MemoryRepository, events: MemoryEventRepository, world: World)
      ensures this.experiences == experiences && this.events == events && this.world == world
      ensures initial == experiences.data && leaked == NoLeaks(experiences.data.Keys)
    {
      this.experiences, this.events, this.world := experiences, events, world;
      initial, leaked := experiences.data, NoLeaks(experiences.data.Keys);
    }

    /** With an empty ledger a new applier's books balance. */
    lemma StartsBalanced()
      requires events.Valid() && events.byID == map[] && events.order == []
      requires forall k | k in experiences.data :: KeyOf(experiences.data[k]) == k
      requires initial == experiences.data && leaked == NoLeaks(experiences.data.Keys)
      ensures Balanced()
    {
      hide BalancedBooks, Indexed, Listed, Ordered;
      NewBooks(experiences.data, leaked);
    }

    ghost function TheBooks(): Books
      reads this, experiences, events
    {
      Books(experiences.data, events.order, events.byID, initial, leaked)
    }

    ghost predicate Balanced()
      reads this, experiences, events
    {
      events.Valid() && BalancedBooks(TheBooks())
    }

    /** Any number of accepted writes of Reinforce and RecordUsages to this record. */
    method OtherWriters(k: Key)
      modifies experiences`data, world`log
      ensures PosteriorsKept(old(experiences.data), experiences.data) && UsesKept(old(experiences.data), experiences.data)
      ensures Later(old(world.log), world.log) && world.log == old(world.log).(rivals := world.log.rivals)
      ensures world.log.rivals == old(world.log).rivals ==> experiences.data == old(experiences.data)
      ensures experiences.data == old(experiences.data)
              || (k in old(experiences.data) && experiences.data[k].version > old(experiences.data)[k].version)
    {
      var busy := world.Interferes();
      if busy && k in experiences.data {
        var writes: nat, uses: nat, confidence: real := *, *, *;
        var e := experiences.data[k];
        experiences.data := experiences.data[k := e.(version := e.version + 1 + writes, useCount := e.useCount + uses,
                                                     confidence := confidence)];
      }
    }

    /** None if the call fails or there is no such record. */
    method Read(k: Key) returns (r: Option<Experience>)
      modifies experiences`data, world`log
      ensures PosteriorsKept(old(experiences.data), experiences.data) && UsesKept(old(experiences.data), experiences.data)
      ensures Later(old(world.log), world.log) && world.log.conflicts == old(world.log).conflicts
      ensures world.log.rivals == old(world.log).rivals ==> experiences.data == old(experiences.data)
      ensures r.Some? ==> k in experiences.data && r.value == experiences.data[k] && world.log.faults == old(world.log).faults
      ensures r.None? ==> world.log.faults == old(world.log).faults + if k in old(experiences.data) then 1 else world.log.faults - old(world.log).faults
      ensures world.log.faults <= old(world.log).faults + 1
    {
      OtherWriters(k);
      var down := world.Fails();
      if down {
        return None;
      }
      r := experiences.Get(k);
    }

    /** Stores what was made of a record as it was just read; others may have written in between. None
        if the call fails. */
    method Write(e: Experience) returns (r: Option<UpdateReply>)
      requires KeyOf(e) in experiences.data && e.version == experiences.data[KeyOf(e)].version
      requires e.useCount >= experiences.data[KeyOf(e)].useCount
      modifies experiences`data, world`log
      ensures Later(old(world.log), world.log) && UsesKept(old(experiences.data), experiences.data)
      ensures world.log.faults == old(world.log).faults + if r.None? then 1 else 0
      ensures world.log.conflicts == old(world.log).conflicts + if r == Some(UpdateReply.Conflict) then 1 else 0
      ensures r == Some(UpdateReply.Conflict) ==> world.log.rivals > old(world.log).rivals
      ensures r != Some(UpdateReply.Missing)
      ensures r.Some? && r.value.Saved? ==>
                && r.value.exp == e.(version := e.version + 1)
                && experiences.data == old(experiences.data)[KeyOf(e) := r.value.exp]
      ensures !(r.Some? && r.value.Saved?) ==> PosteriorsKept(old(experiences.data), experiences.data)
    {
      OtherWriters(KeyOf(e));
      var down := world.Fails();
      if down {
        return None;
      }
      var reply := experiences.Update(e);
      if reply.Conflict? {
        world.Refuse();
      }
      r := Some(reply);
    }

    method Mark(k: Key) returns (ok: bool)
      requires events.Valid() && k in events.byID
      modifies events`byID, world`log
      ensures events.Valid()
      ensures events.byID == if ok then old(events.byID)[k := old(events.byID)[k].(status := Applied)] else old(events.byID)
      ensures world.log == old(world.log).(faults := old(world.log).faults + if ok then 0 else 1)
    {
      hide Indexed, Listed, Ordered;
      var down := world.Fails();
      if down {
        return false;
      }
      ok := events.MarkApplied(k);
    }

    /** The update of ev stays in the posterior although ev is not APPLIED. */
    ghost method Leak(ev: Event)
      requires events.Valid() && BalancedBut(TheBooks(), Subject(ev), DeltaOf(ev)) && Subject(ev) in experiences.data
      requires 0.0 <= ev.confidence <= 1.0
      modifies this`leaked
      ensures Balanced() && Subject(ev) in old(leaked)
      ensures leaked == Leaked(old(leaked), ev)
    {
      EventIsProper(ev);
      KeysKept(TheBooks(), Subject(ev), DeltaOf(ev));
      hide Stands, DeltaOf, Ordered, Indexed, Listed, Plus, BalancedBut, BalancedBooks, Recorded, Proper;
      LeakLands(TheBooks(), Subject(ev), DeltaOf(ev));
      leaked := leaked[Subject(ev) := Plus(leaked[Subject(ev)], DeltaOf(ev))];
    }

    ghost function Leaked(leaked0: map<Key, Totals>, ev: Event): map<Key, Totals> {
      if Subject(ev) in leaked0 then leaked0[Subject(ev) := Plus(leaked0[Subject(ev)], DeltaOf(ev))] else leaked0
    }

    /** The old posterior was stored over what others had made of the record meanwhile. */
    lemma RestoreLands(b: Books, ev: Event, before: Experience, saved: Experience, mid: map<Key, Experience>)
      requires BalancedBut(b, Subject(ev), DeltaOf(ev)) && PosteriorsKept(b.data, mid) && Subject(ev) in b.data
      requires Subject(ev) in b.initial && Subject(ev) in b.leaked
      requires forall i | 0 <= i < |b.order| :: b.order[i] in b.events
      requires Stands(before, b.initial[Subject(ev)], Recorded(b.order, b.events, b.leaked, Subject(ev)))
      requires KeyOf(saved) == Subject(ev) && PosteriorOf(saved) == PosteriorOf(before) && saved.utility == before.utility
      ensures BalancedBooks(b.(data := mid[Subject(ev) := saved])) && Subject(ev) in mid
    {
      hide Stands, DeltaOf, BalancedBut, BalancedBooks, Recorded;
      OthersKeep(b, mid, Subject(ev), DeltaOf(ev));
      RollbackLands(b.(data := mid), Subject(ev), DeltaOf(ev), before, saved);
      assert b.(data := mid).(data := mid[Subject(ev) := saved]) == b.(data := mid[Subject(ev) := saved]);
    }

    /** The event could not be marked: its update is undone. The record has its old posterior again if
        its read succeeds and its write is accepted; exactly otherwise the update leaks. What others
        wrote meanwhile stays either way. */
    method RollBack(ev: Event, before: Experience) returns (conflict: bool)
      requires events.Valid() && BalancedBut(TheBooks(), Subject(ev), DeltaOf(ev)) && Subject(ev) in experiences.data
      requires Stands(before, initial[Subject(ev)], Recorded(events.order, events.byID, leaked, Subject(ev)))
      requires 0.0 <= ev.confidence <= 1.0
      modifies experiences`data, this`leaked, world`log
      ensures Balanced() && Later(old(world.log), world.log) && UsesKept(old(experiences.data), experiences.data)
      ensures Subject(ev) in old(leaked) && (leaked == old(leaked) || leaked == Leaked(old(leaked), ev))
      ensures leaked == old(leaked) <==>
                world.log.faults == old(world.log).faults && world.log.conflicts == old(world.log).conflicts
      ensures leaked == old(leaked) ==>
                Subject(ev) in experiences.data && PosteriorOf(experiences.data[Subject(ev)]) == PosteriorOf(before)
      ensures conflict <==> world.log.conflicts > old(world.log).conflicts
    {
      hide Stands, DeltaOf, Ordered, Indexed, Listed, Plus, BalancedBut, BalancedBooks, Recorded, PosteriorsKept, UsesKept;
      ghost var b := TheBooks();
      var k := Subject(ev);
      KeysKept(b, k, DeltaOf(ev));
      LeakIsSomething(leaked[k], ev);
      var cur := Read(k);
      ghost var read := experiences.data;
      OthersKeep(b, read, k, DeltaOf(ev));
      SameKeys(b.data, read);
      if cur.None? {
        Leak(ev);
        return false;
      }
      KeysKept(TheBooks(), k, DeltaOf(ev));
      conflict := Restore(ev, before, cur.value.(utility := before.utility, alpha := before.alpha, beta := before.beta,
                                                 successes := before.successes, failures := before.failures));
      UsesStay(b.data, read, experiences.data);
    }

    /** The rollback's write. */
    method Restore(ev: Event, before: Experience, restored: Experience) returns (conflict: bool)
      requires events.Valid() && BalancedBut(TheBooks(), Subject(ev), DeltaOf(ev)) && Subject(ev) in experiences.data
      requires Stands(before, initial[Subject(ev)], Recorded(events.order, events.byID, leaked, Subject(ev)))
      requires 0.0 <= ev.confidence <= 1.0 && KeyOf(restored) == Subject(ev)
      requires PosteriorOf(restored) == PosteriorOf(before) && restored.utility == before.utility
      requires restored.version == experiences.data[Subject(ev)].version
      requires restored.useCount >= experiences.data[Subject(ev)].useCount
      modifies experiences`data, this`leaked, world`log
      ensures Balanced() && Later(old(world.log), world.log) && UsesKept(old(experiences.data), experiences.data)
      ensures Subject(ev) in old(leaked) && (leaked == old(leaked) || leaked == Leaked(old(leaked), ev))
      ensures leaked == old(leaked) <==>
                world.log.faults == old(world.log).faults && world.log.conflicts == old(world.log).conflicts
      ensures leaked == old(leaked) ==>
                Subject(ev) in experiences.data && PosteriorOf(experiences.data[Subject(ev)]) == PosteriorOf(before)
      ensures conflict <==> world.log.conflicts > old(world.log).conflicts
    {
      hide Stands, DeltaOf, Ordered, Indexed, Listed, Plus, BalancedBut, BalancedBooks, Recorded, PosteriorsKept, UsesKept;
      ghost var b := TheBooks();
      var k := Subject(ev);
      KeysKept(b, k, DeltaOf(ev));
      LeakIsSomething(leaked[k], ev);
      KeptAtFirst(b.data);
      var w := Write(restored);
      if w.Some? && w.value.Saved? {
        RestoreLands(b, ev, before, w.value.exp, b.data);
        conflict := false;
      } else {
        OthersKeep(b, experiences.data, k, DeltaOf(ev));
        SameKeys(b.data, experiences.data);
        Leak(ev);
        conflict := w.Some?;
      }
    }

    lemma UpdatedIs(e: Experience, ev: Event, u: Experience, version: nat)
      requires ApplyBetaUpdate(e, Amount(ev), ev.confidence) == Some(u)
      ensures Updated(e, ev, u.(version := version)) && KeyOf(u) == KeyOf(e) && u.version == e.version && u.useCount == e.useCount
      ensures 0.0 <= ev.confidence <= 1.0
    {
    }

    /** The update of `before` was stored. */
    lemma WriteLands(b: Books, ev: Event, before: Experience, saved: Experience)
      requires BalancedBooks(b) && Subject(ev) in b.data && before == b.data[Subject(ev)]
      requires KeyOf(saved) == Subject(ev) && Updated(before, ev, saved) && 0.0 <= ev.confidence <= 1.0
      ensures BalancedBut(b.(data := b.data[Subject(ev) := saved]), Subject(ev), DeltaOf(ev))
      ensures Subject(ev) in b.initial && Subject(ev) in b.leaked
      ensures forall i | 0 <= i < |b.order| :: b.order[i] in b.events
      ensures Stands(before, b.initial[Subject(ev)], Recorded(b.order, b.events, b.leaked, Subject(ev)))
    {
      Standing(b, Subject(ev));
      hide Stands, DeltaOf, BalancedBut, BalancedBooks, Recorded, Updated;
      UpdateLands(b, ev, before, saved);
    }

    lemma SameKeys(data: map<Key, Experience>, data': map<Key, Experience>)
      requires PosteriorsKept(data, data')
      ensures data'.Keys == data.Keys
    {
    }

    lemma UpdatableIff(e: Experience, ev: Event)
      ensures ApplyBetaUpdate(e, Amount(ev), ev.confidence).Some? <==> 0.0 <= ev.confidence <= 1.0
    {
    }

    lemma Standing(b: Books, k: Key)
      requires BalancedBooks(b) && k in b.data
      ensures k in b.initial && k in b.leaked && (forall i | 0 <= i < |b.order| :: b.order[i] in b.events)
      ensures Stands(b.data[k], b.initial[k], Recorded(b.order, b.events, b.leaked, k))
    {
    }

    /** The update is stored; now the event is marked, or the update undone. */
    method Finish(ev: Event, before: Experience, saved: Experience) returns (r: ApplyResult)
      requires events.Valid() && BalancedBut(TheBooks(), Subject(ev), DeltaOf(ev)) && Subject(ev) in experiences.data
      requires Stands(before, initial[Subject(ev)], Recorded(events.order, events.byID, leaked, Subject(ev)))
      requires 0.0 <= ev.confidence <= 1.0
      requires EventKey(ev) in events.byID && events.byID[EventKey(ev)] == ev && ev.status != Applied
      modifies experiences`data, events`byID, this`leaked, world`log
      ensures Balanced() && Later(old(world.log), world.log) && UsesKept(old(experiences.data), experiences.data)
      ensures leaked == if RollbackLost(old(world.log), world.log) then Leaked(old(leaked), ev) else old(leaked)
      ensures RollbackLost(old(world.log), world.log) ==> leaked != old(leaked)
      ensures r.Done? ==>
                && events.byID == old(events.byID)[EventKey(ev) := ev.(status := Applied)] && world.log == old(world.log)
                && experiences.data == old(experiences.data) && r.exp == saved
      ensures !r.Done? ==> r.Failure? && events.byID == old(events.byID) && world.log.faults > old(world.log).faults
    {
      hide Stands, DeltaOf, Ordered, Indexed, Listed, Plus, BalancedBut, BalancedBooks, Recorded;
      MarkLands(TheBooks(), ev);
      var ok := Mark(EventKey(ev));
      if ok {
        r := Done(saved, before.utility);
      } else {
        var conflict := RollBack(ev, before);
        r := Failure(conflict);
      }
    }

    /** The record of ev's experience in `at`, after ev's update. */
    ghost predicate AppliedTo(at: map<Key, Experience>, ev: Event, exp: Experience) {
      && Subject(ev) in at
      && var u := ApplyBetaUpdate(at[Subject(ev)], Amount(ev), ev.confidence);
         u.Some? && exp == u.value.(version := at[Subject(ev)].version + 1)
    }

    /** One round: None asks for another one after a version conflict. `at` is the store at its read. */
    method TryApply(ev: Event) returns (r: Option<ApplyResult>, ghost at: map<Key, Experience>)
      requires Balanced() && EventKey(ev) in events.byID && events.byID[EventKey(ev)] == ev && ev.status != Applied
      modifies experiences`data, events`byID, this`leaked, world`log
      ensures Balanced() && Later(old(world.log), world.log) && UsesKept(old(experiences.data), experiences.data)
      ensures leaked == if RollbackLost(old(world.log), world.log) then Leaked(old(leaked), ev) else old(leaked)
      ensures RollbackLost(old(world.log), world.log) ==> leaked != old(leaked)
      ensures r.Some? && r.value.Done? ==>
                && events.byID == old(events.byID)[EventKey(ev) := ev.(status := Applied)]
                && PosteriorsKept(old(experiences.data), at) && AppliedTo(at, ev, r.value.exp)
                && experiences.data == at[Subject(ev) := r.value.exp] && world.log == old(world.log).(rivals := world.log.rivals)
                && (world.log == old(world.log) ==> at == old(experiences.data))
      ensures r.Some? ==> !r.value.AlreadyApplied?
      ensures !(r.Some? && r.value.Done?) ==> events.byID == old(events.byID)
      ensures r.None? ==>
                && world.log.conflicts == old(world.log).conflicts + 1 && world.log.faults == old(world.log).faults
                && world.log.rivals > old(world.log).rivals && PosteriorsKept(old(experiences.data), experiences.data)
      ensures r.Some? && Subject(ev) in old(experiences.data) && 0.0 <= ev.confidence <= 1.0 ==>
                (r.value.Done? <==> world.log.faults == old(world.log).faults)
    {
      hide Stands, DeltaOf, Ordered, Indexed, Listed, Plus, BalancedBut, BalancedBooks, Recorded, Updated;
      hide PosteriorsKept, ApplyBetaUpdate, UsesKept, Leaked;
      ghost var b := TheBooks();
      var k := Subject(ev);
      KeysKept(b, k, NOTHING);
      var exp := Read(k);
      at := experiences.data;
      OthersKeep(b, at, k, NOTHING);
      SameKeys(b.data, at);
      if exp.None? {
        return Some(Failure(false)), at;
      }
      UpdatableIff(exp.value, ev);
      var made := ApplyBetaUpdate(exp.value, Amount(ev), ev.confidence);
      if made.None? {
        return Some(Failure(false)), at;
      }
      UpdatedIs(exp.value, ev, made.value, made.value.version + 1);
      r := StoreUpdate(ev, exp.value, made.value);
      UsesStay(b.data, at, experiences.data);
      if r.None? {
        KeptOn(b.data, at, experiences.data);
      }
    }

    /** The round's write, and what follows from it. */
    method StoreUpdate(ev: Event, exp: Experience, made: Experience) returns (r: Option<ApplyResult>)
      requires Balanced() && EventKey(ev) in events.byID && events.byID[EventKey(ev)] == ev && ev.status != Applied
      requires Subject(ev) in experiences.data && exp == experiences.data[Subject(ev)]
      requires ApplyBetaUpdate(exp, Amount(ev), ev.confidence) == Some(made)
      modifies experiences`data, events`byID, this`leaked, world`log
      ensures Balanced() && Later(old(world.log), world.log) && UsesKept(old(experiences.data), experiences.data)
      ensures leaked == if RollbackLost(old(world.log), world.log) then Leaked(old(leaked), ev) else old(leaked)
      ensures RollbackLost(old(world.log), world.log) ==> leaked != old(leaked)
      ensures r.Some? && r.value.Done? ==>
                && events.byID == old(events.byID)[EventKey(ev) := ev.(status := Applied)]
                && r.value.exp == made.(version := made.version + 1)
                && experiences.data == old(experiences.data)[Subject(ev) := r.value.exp]
                && world.log == old(world.log).(rivals := world.log.rivals)
      ensures r.Some? ==> !r.value.AlreadyApplied? && (r.value.Done? <==> world.log.faults == old(world.log).faults)
      ensures !(r.Some? && r.value.Done?) ==> events.byID == old(events.byID)
      ensures r.None? ==>
                && world.log.conflicts == old(world.log).conflicts + 1 && world.log.faults == old(world.log).faults
                && world.log.rivals > old(world.log).rivals && PosteriorsKept(old(experiences.data), experiences.data)
    {
      hide Stands, DeltaOf, Ordered, Indexed, Listed, Plus, BalancedBut, BalancedBooks, Recorded, Updated;
      hide PosteriorsKept, ApplyBetaUpdate, UsesKept, Leaked;
      ghost var b := TheBooks();
      UpdatedIs(exp, ev, made, made.version + 1);
      KeysKept(b, Subject(ev), NOTHING);
      var w := Write(made);
      if w.Some? && w.value.Saved? {
        WriteLands(b, ev, exp, w.value.exp);
        ghost var data := experiences.data;
        var done := Finish(ev, exp, w.value.exp);
        UsesStay(b.data, data, experiences.data);
        r := Some(done);
      } else {
        OthersKeep(b, experiences.data, Subject(ev), NOTHING);
        r := if w.Some? && w.value.Conflict? then None else Some(Failure(false));
      }
    }

    lemma UsesStay(a: map<Key, Experience>, b: map<Key, Experience>, c: map<Key, Experience>)
      requires UsesKept(a, b) && UsesKept(b, c)
      ensures UsesKept(a, c)
    {
    }

    lemma UsesStayAtFirst(a: map<Key, Experience>)
      ensures UsesKept(a, a)
    {
    }

    /** Applies an event that is not APPLIED yet, with a bounded number of rounds, of which `refused`
        end in a version conflict. It trusts the status in the value it is given, so that must be the
        stored one. Unless a store call fails it succeeds as soon as one round meets no conflict, with
        the update of what the record was in that round; and it leaks exactly if the event could not be
        marked and undoing its update failed as well. */
    method ApplyPendingEvent(ev: Event) returns (r: ApplyResult, ghost refused: nat, ghost at: map<Key, Experience>)
      requires Balanced() && EventKey(ev) in events.byID && events.byID[EventKey(ev)] == ev
      modifies experiences`data, events`byID, this`leaked, world`log
      ensures Balanced() && Later(old(world.log), world.log) && UsesKept(old(experiences.data), experiences.data)
      ensures refused <= MAX_ATTEMPTS && world.log.conflicts >= old(world.log).conflicts + refused
      ensures var from := old(world.log).(conflicts := old(world.log).conflicts + refused);
              && leaked == (if RollbackLost(from, world.log) then Leaked(old(leaked), ev) else old(leaked))
              && (RollbackLost(from, world.log) ==> leaked != old(leaked))
      ensures r.Done? ==>
                && ev.status != Applied && events.byID == old(events.byID)[EventKey(ev) := ev.(status := Applied)]
                && PosteriorsKept(old(experiences.data), at) && AppliedTo(at, ev, r.exp)
                && experiences.data == at[Subject(ev) := r.exp]
                && leaked == old(leaked) && world.log.faults == old(world.log).faults
                && (world.log == old(world.log) ==> at == old(experiences.data))
      ensures !r.Done? ==> events.byID == old(events.byID)
      ensures refused == MAX_ATTEMPTS ==> r == Failure(true)
      ensures ev.status == Applied ==>
                !r.Done? && PosteriorsKept(old(experiences.data), experiences.data) && leaked == old(leaked)
      ensures r.AlreadyApplied? ==> ev.status == Applied
      ensures Subject(ev) in old(experiences.data) && 0.0 <= ev.confidence <= 1.0 && refused < MAX_ATTEMPTS ==>
                (!r.Failure? <==> world.log.faults == old(world.log).faults)
    {
      hide Stands, DeltaOf, Ordered, Indexed, Listed, Plus, BalancedBooks, Leaked, PosteriorsKept, UsesKept, AppliedTo;
      refused, at := 0, experiences.data;
      KeptAtFirst(experiences.data);
      UsesStayAtFirst(experiences.data);
      if ev.status == Applied {
        ghost var b := TheBooks();
        var exp := Read(Subject(ev));
        OthersKeep(b, experiences.data, Subject(ev), NOTHING);
        return if exp.None? then Failure(false) else AlreadyApplied(exp.value), 0, experiences.data;
      }
      for attempt := 0 to MAX_ATTEMPTS
        invariant Balanced() && Later(old(world.log), world.log) && UsesKept(old(experiences.data), experiences.data)
        invariant PosteriorsKept(old(experiences.data), experiences.data)
        invariant events.byID == old(events.byID) && leaked == old(leaked) && refused == attempt
        invariant world.log.faults == old(world.log).faults && world.log.conflicts == old(world.log).conflicts + attempt
        invariant attempt > 0 ==> world.log.rivals > old(world.log).rivals
        invariant attempt == 0 ==> experiences.data == old(experiences.data) && world.log == old(world.log)
      {
        ghost var data := experiences.data;
        SameKeys(old(experiences.data), data);
        var t;
        t, at := TryApply(ev);
        UsesStay(old(experiences.data), data, experiences.data);
        if t.Some? {
          if t.value.Done? {
            KeptOn(old(experiences.data), data, at);
          }
          return t.value, refused, at;
        }
        KeptOn(old(experiences.data), data, experiences.data);
        refused := refused + 1;
      }
      return Failure(true), refused, at;
    }

    /** The posterior is the initial one plus exactly the APPLIED events. */
    ghost predicate Conserved(k: Key)
      reads this, experiences, events
    {
      && k in experiences.data && k in initial && (forall i | 0 <= i < |events.order| :: events.order[i] in events.byID)
      && Stands(experiences.data[k], initial[k], AppliedTotals(events.order, events.byID, k))
    }

    lemma ConservedUnlessLeaked(k: Key)
      requires Balanced() && k in experiences.data
      ensures k in leaked && (Conserved(k) <==> leaked[k] == NOTHING)
    {
      Standing(TheBooks(), k);
      hide BalancedBooks, Indexed, Listed, Ordered, Stands;
      ConservedIff(TheBooks(), k);
    }

    /** The law of the ledger, with its exact exception: a posterior that its APPLIED events account for
        is still accounted for after a call, unless that call could not mark its event and then could
        not undo the update. */
    method ApplyAndConserve(ev: Event) returns (r: ApplyResult, ghost refused: nat)
      requires Balanced() && EventKey(ev) in events.byID && events.byID[EventKey(ev)] == ev && Conserved(Subject(ev))
      modifies experiences`data, events`byID, this`leaked, world`log
      ensures Balanced()
      ensures Conserved(Subject(ev)) <==>
                !RollbackLost(old(world.log).(conflicts := old(world.log).conflicts + refused), world.log)
      ensures Mild(old(world.log), world.log) ==> Conserved(Subject(ev))
    {
      hide Stands, DeltaOf, Ordered, Indexed, Listed, Plus, BalancedBooks, Conserved, AppliedTo, PosteriorsKept;
      var k := Subject(ev);
      InStore(k);
      ConservedUnlessLeaked(k);
      ghost var leaked0 := leaked;
      ghost var at;
      r, refused, at := ApplyPendingEvent(ev);
      LeakIsSomething(leaked0[k], ev);
      ConservedUnlessLeaked(k);
    }

    lemma InStore(k: Key)
      requires Conserved(k)
      ensures k in experiences.data
    {
    }

    /** What a lost rollback does: when the retry then succeeds, the event counts twice, and its
        posterior is its APPLIED events and that one once more. */
    method RetryAfterLostRollback(ev: Event) returns (first: ApplyResult, second: ApplyResult, ghost lost: bool)
      requires Balanced() && EventKey(ev) in events.byID && events.byID[EventKey(ev)] == ev && Conserved(Subject(ev))
      requires ev.status != Applied && 0.0 <= ev.confidence <= 1.0
      modifies experiences`data, events`byID, this`leaked, world`log
      ensures Balanced()
      ensures world.log.faults >= old(world.log).faults + 2 && second.Done? ==> lost
      ensures lost && second.Done? ==>
                && EventKey(ev) in events.byID && events.byID[EventKey(ev)].status == Applied
                && !Conserved(Subject(ev)) && Subject(ev) in experiences.data && Subject(ev) in initial
                && (forall i | 0 <= i < |events.order| :: events.order[i] in events.byID)
                && Stands(experiences.data[Subject(ev)], initial[Subject(ev)],
                          Plus(AppliedTotals(events.order, events.byID, Subject(ev)), DeltaOf(ev)))
    {
      hide Stands, DeltaOf, Ordered, Indexed, Listed, Plus, BalancedBooks, Conserved, AppliedTo, PosteriorsKept, AppliedTotals;
      var k := Subject(ev);
      InStore(k);
      ConservedUnlessLeaked(k);
      ghost var leaked0 := leaked;
      ghost var refused, at;
      first, refused, at := ApplyPendingEvent(ev);
      lost := leaked != leaked0;
      if first.Done? {
        return first, first, false;
      }
      LeakIsSomething(leaked0[k], ev);
      second, refused, at := ApplyPendingEvent(ev);
      if lost && second.Done? {
        ConservedUnlessLeaked(k);
        Standing(TheBooks(), k);
        NothingPlus(DeltaOf(ev));
      }
    }
  }
}
