/** Deriving and applying pattern events (internal/learning/service.go,
    internal/learning/pattern_event_applier.go). */
module PatternService {
  import opened Attribution
  import opened BetaLedger
  import opened EventApplier
  import opened ExperienceStore
  import opened Interference
  import opened LearningEvents
  import opened PatternLearning

  function SupportedBy(byExp: map<string, seq<string>>, experience: string): seq<string> {
    if experience in byExp then byExp[experience] else []
  }

  /** The patterns as they are, and which of them each experience supports. */
  datatype Ground = Ground(pats: map<Key, Pattern>, byExp: map<string, seq<string>>)

  /** The patterns, and which experiences support them. */
  class MemoryPatternRepository {
    var byID: map<Key, Pattern>
    var byExp: map<string, seq<string>>

    constructor ()
      ensures byID == map[] && byExp == map[]
    {
      byID, byExp := map[], map[];
    }

    /** The tenant's patterns that the experience supports, each once. */
    method FindByExperience(tenant: string, experience: string) returns (out: seq<Pattern>)
      requires forall k | k in byID :: PatternKey(byID[k]) == k
      ensures forall i | 0 <= i < |out| :: Stored(tenant, out[i]) && out[i].id in Supported(experience)
      ensures forall i, j | 0 <= i < j < |out| :: out[i].id != out[j].id
      ensures forall id | id in Supported(experience) && (tenant, id) in byID :: byID[(tenant, id)] in out
    {
      var ids := Supported(experience);
      out := [];
      var seen: set<string> := {};
      for i := 0 to |ids|
        invariant forall j | 0 <= j < |out| :: Stored(tenant, out[j]) && out[j].id in seen && out[j].id in ids
        invariant forall a, b | 0 <= a < b < |out| :: out[a].id != out[b].id
        invariant forall id | id in seen :: (tenant, id) in byID && byID[(tenant, id)] in out
        invariant forall j | 0 <= j < i && (tenant, ids[j]) in byID :: ids[j] in seen
      {
        var pid := ids[i];
        if pid in seen {
          continue;
        }
        if (tenant, pid) !in byID {
          continue;
        }
        seen := seen + {pid};
        out := out + [byID[(tenant, pid)]];
      }
    }

    function Supported(experience: string): seq<string>
      reads this
    {
      SupportedBy(byExp, experience)
    }

    predicate Stored(tenant: string, p: Pattern)
      reads this
    {
      p.tenant == tenant && PatternKey(p) in byID && byID[PatternKey(p)] == p
    }
  }

  class PatternLearner {
    const patterns: MemoryPatternRepository
    const events: MemoryPatternEventRepository
    const world: World
    ghost var initial: map<Key, Pattern>
    ghost var leaked: map<Key, Totals>

    constructor (patterns: MemoryPatternRepository, events: MemoryPatternEventRepository, world: World)
      ensures this.patterns == patterns && this.events == events && this.world == world
      ensures initial == patterns.byID && leaked == NoLeaks(patterns.byID.Keys)
    {
      this.patterns, this.events, this.world := patterns, events, world;
      initial, leaked := patterns.byID, NoLeaks(patterns.byID.Keys);
    }

    ghost function TheBooks(): PatternBooks
      reads this, patterns, events
    {
      PatternBooks(patterns.byID, events.order, Bases(events.byID), initial, leaked)
    }

    ghost predicate Balanced()
      reads this, patterns, events
    {
      events.Valid() && PatternsBalanced(TheBooks())
    }

    /** With an empty ledger a new learner's books balance. */
    lemma StartsBalanced()
      requires events.Valid() && events.byID == map[] && events.order == []
      requires forall k | k in patterns.byID :: PatternKey(patterns.byID[k]) == k
      requires initial == patterns.byID && leaked == NoLeaks(patterns.byID.Keys)
      ensures Balanced() && Minted()
    {
      hide PatternsBalanced, PatternIndexed, Listed, Ordered;
      NewPatternBooks(patterns.byID, leaked);
      assert Bases(events.byID) == map[];
    }

    /** Every event id was minted. */
    ghost predicate Minted()
      reads events, world`minted
    {
      forall k | k in events.byID :: |k.1| < world.minted
    }

    // -------------------------------------------------------------- applying

    method Mark(k: Key, status: EventStatus) returns (ok: bool)
      requires events.Valid() && k in events.byID
      modifies events`byID, world`log
      ensures events.Valid()
      ensures events.byID == if ok then old(events.byID)[k := Restatus(old(events.byID)[k], status)] else old(events.byID)
      ensures world.log == old(world.log).(faults := old(world.log).faults + if ok then 0 else 1)
    {
      hide PatternIndexed, Listed, Ordered;
      var down := world.Fails();
      if down {
        return false;
      }
      ok := events.Mark(k, status);
    }

    /** A pattern is learnable after this exactly if it was before. */
    ghost predicate StayRetrievable(before: map<Key, Pattern>, after: map<Key, Pattern>) {
      after.Keys == before.Keys && forall k | k in before :: Retrievable(after[k]) <==> Retrievable(before[k])
    }

    /** No other pattern changed. */
    ghost predicate SparesOthers(before: map<Key, Pattern>, after: map<Key, Pattern>, k: Key) {
      forall x | x in before && x != k :: x in after && after[x] == before[x]
    }

    lemma RetrievableTwice(a: map<Key, Pattern>, b: map<Key, Pattern>, c: map<Key, Pattern>)
      requires StayRetrievable(a, b) && StayRetrievable(b, c)
      ensures StayRetrievable(a, c)
    {
    }

    lemma RetrievableStill(a: map<Key, Pattern>)
      ensures StayRetrievable(a, a)
    {
    }

    ghost function Leaked(leaked0: map<Key, Totals>, ev: Event): map<Key, Totals> {
      if Subject(ev) in leaked0 then leaked0[Subject(ev) := Plus(leaked0[Subject(ev)], DeltaOf(ev))] else leaked0
    }

    /** The event could not be marked: the pattern is as before again if its read and its write
        succeed; exactly otherwise the update leaks. */
    method RollBack(ev: Event, before: Pattern)
      requires events.Valid() && PatternsBalancedBut(TheBooks(), Subject(ev), DeltaOf(ev))
      requires Subject(ev) in patterns.byID && PatternKey(before) == Subject(ev) && 0.0 <= ev.confidence <= 1.0
      requires OnlyLearned(before, patterns.byID[Subject(ev)])
      requires PatternsBalanced(TheBooks().(data := patterns.byID[Subject(ev) := before]))
      modifies patterns`byID, this`leaked, world`log
      ensures Balanced() && FaultsOnly(old(world.log), world.log)
      ensures leaked == if world.log == old(world.log) then old(leaked) else Leaked(old(leaked), ev)
      ensures leaked == old(leaked) <==> world.log == old(world.log)
      ensures world.log == old(world.log) || world.log == old(world.log).(faults := old(world.log).faults + 1)
      ensures patterns.byID == if world.log == old(world.log) then old(patterns.byID)[Subject(ev) := before] else old(patterns.byID)
    {
      hide PatternIndexed, Listed, Ordered, PatternsBalanced, PatternsBalancedBut, Plus, DeltaOf;
      PatternKeysKept(TheBooks(), Subject(ev), DeltaOf(ev));
      LeakIsSomething(leaked[Subject(ev)], ev);
      var down := world.Fails();
      if !down {
        var cur := patterns.byID[Subject(ev)];
        down := world.Fails();
        if !down {
          patterns.byID := patterns.byID[Subject(ev) := cur.(status := before.status, utility := before.utility, alpha := before.alpha,
                                                             beta := before.beta, successes := before.successes,
                                                             failures := before.failures)];
          return;
        }
      }
      EventIsProper(ev);
      PatternLeakLands(TheBooks(), Subject(ev), DeltaOf(ev));
      leaked := leaked[Subject(ev) := Plus(leaked[Subject(ev)], DeltaOf(ev))];
    }

    /** The patterns differ only in what learning changes. */
    predicate OnlyLearned(before: Pattern, after: Pattern) {
      after == before.(status := after.status, utility := after.utility, alpha := after.alpha, beta := after.beta,
                       successes := after.successes, failures := after.failures)
    }

    /** The event could not be marked, and undoing its update failed as well. */
    predicate PatternRollbackLost(a: Log, b: Log) { b.faults >= a.faults + 2 }

    /** Applies an event that is not APPLIED yet, once. It leaks exactly if the event could not be marked
        and undoing its update failed as well. */
    method ApplyPendingPatternEvent(ev: PatternEvent) returns (ok: bool)
      requires Balanced() && EventKey(ev.base) in events.byID && events.byID[EventKey(ev.base)] == ev
      modifies patterns`byID, events`byID, this`leaked, world`log
      ensures Balanced() && StayRetrievable(old(patterns.byID), patterns.byID) && FaultsOnly(old(world.log), world.log)
      ensures SparesOthers(old(patterns.byID), patterns.byID, Subject(ev.base))
      ensures ev.base.status == Applied ==>
                events.byID == old(events.byID) && patterns.byID == old(patterns.byID) && leaked == old(leaked)
      ensures ev.base.status != Applied ==>
                events.byID == if ok then old(events.byID)[EventKey(ev.base) := Restatus(ev, Applied)] else old(events.byID)
      ensures leaked == if PatternRollbackLost(old(world.log), world.log) then Leaked(old(leaked), ev.base) else old(leaked)
      ensures PatternRollbackLost(old(world.log), world.log) ==> leaked != old(leaked)
      ensures Subject(ev.base) in old(patterns.byID) && 0.0 <= ev.base.confidence <= 1.0 ==> (ok <==> world.log == old(world.log))
    {
      hide PatternIndexed, Listed, Ordered, PatternsBalanced, PatternsBalancedBut, DeltaOf, ApplyPatternBetaUpdate, MaybePromote, Leaked;
      var k := Subject(ev.base);
      var down := world.Fails();
      if down || k !in patterns.byID {
        return false;
      }
      if ev.base.status == Applied {
        return true;
      }
      var p := patterns.byID[k];
      var u := ApplyPatternBetaUpdate(p, Amount(ev.base), ev.base.confidence);
      PatternUpdatableIff(p, Amount(ev.base), ev.base.confidence);
      if u.None? {
        return false;
      }
      down := world.Fails();
      if down {
        return false;
      }
      PatternUpdateLands(TheBooks(), ev.base);
      LearnedOnly(p, Amount(ev.base), ev.base.confidence);
      ok := Store(ev, p, MaybePromote(u.value));
    }

    lemma LearnedOnly(p: Pattern, amount: real, confidence: real)
      requires ApplyPatternBetaUpdate(p, amount, confidence).Some?
      ensures var q := MaybePromote(ApplyPatternBetaUpdate(p, amount, confidence).value);
              OnlyLearned(p, q) && (Retrievable(q) <==> Retrievable(p))
    {
    }

    method Store(ev: PatternEvent, before: Pattern, updated: Pattern) returns (ok: bool)
      requires Balanced() && EventKey(ev.base) in events.byID && events.byID[EventKey(ev.base)] == ev && ev.base.status != Applied
      requires Subject(ev.base) in patterns.byID && before == patterns.byID[Subject(ev.base)]
      requires PatternsBalancedBut(TheBooks().(data := patterns.byID[Subject(ev.base) := updated]), Subject(ev.base), DeltaOf(ev.base))
      requires PatternKey(updated) == Subject(ev.base) && 0.0 <= ev.base.confidence <= 1.0
      requires OnlyLearned(before, updated) && (Retrievable(updated) <==> Retrievable(before))
      modifies patterns`byID, events`byID, this`leaked, world`log
      ensures Balanced() && StayRetrievable(old(patterns.byID), patterns.byID) && FaultsOnly(old(world.log), world.log)
      ensures SparesOthers(old(patterns.byID), patterns.byID, Subject(ev.base))
      ensures events.byID == if ok then old(events.byID)[EventKey(ev.base) := Restatus(ev, Applied)] else old(events.byID)
      ensures ok <==> world.log == old(world.log)
      ensures leaked == if PatternRollbackLost(old(world.log), world.log) then Leaked(old(leaked), ev.base) else old(leaked)
      ensures PatternRollbackLost(old(world.log), world.log) ==> leaked != old(leaked)
    {
      hide PatternIndexed, Listed, Ordered, PatternsBalanced, PatternsBalancedBut, DeltaOf, Leaked;
      ghost var b := TheBooks();
      var k := Subject(ev.base);
      PatternKeyKept(b, k);
      patterns.byID := patterns.byID[k := updated];
      assert b.data == patterns.byID[k := before];
      RestatusBase(events.byID, EventKey(ev.base), Applied);
      PatternMarkLands(TheBooks(), ev.base);
      ok := Mark(EventKey(ev.base), Applied);
      if !ok {
        assert TheBooks().(data := patterns.byID[k := before]) == b;
        RollBack(ev.base, before);
      }
    }

    // -------------------------------------------------------------- deriving

    /** Only these events were added, none of them APPLIED; the others are as before. */
    ghost predicate OnlyAdds(before: PatternEvents, after: PatternEvents, fk: FeedbackKey, source: Source) {
      && (forall k | k in before :: k in after && after[k] == before[k])
      && (forall k | k in after && k !in before ::
            FeedbackOf(after[k].base) == fk && after[k].source == source && after[k].base.status == Pending)
    }

    /** Creates the event unless its key is taken. */
    method CreateOrLoad(ev: PatternEvent) returns (ok: bool)
      requires Balanced() && ev.base.status == Pending && EventKey(ev.base) !in events.byID
      modifies events, world`log
      ensures Balanced() && FaultsOnly(old(world.log), world.log) && (world.log == old(world.log) ==> ok)
      ensures events.byID == old(events.byID) || events.byID == old(events.byID)[EventKey(ev.base) := ev]
      ensures ok ==> HasKeyOf(events.byID, ev)
      ensures ok && !KeyTaken(old(events.memberKey), old(events.usageKey), ev) ==>
                events.byID == old(events.byID)[EventKey(ev.base) := ev]
    {
      hide PatternIndexed, Listed, Ordered, PatternsBalanced, DeltaOf, HasKeyOf;
      ghost var b := TheBooks();
      var down := world.Fails();
      if down {
        return false;
      }
      KeyTakenBy(events.byID, events.memberKey, events.usageKey, ev);
      var created := events.Create(ev);
      if created {
        assert Bases(events.byID) == b.events[EventKey(ev.base) := ev.base];
        QuietEventKeeps(b, Bases(events.byID), EventKey(ev.base));
        HasItself(events.byID, ev);
      }
      ok := true;
    }

    predicate SameKey(a: PatternEvent, b: PatternEvent) {
      if b.source.Member? then a.source.Member? && MemberKeyOf(a) == MemberKeyOf(b)
      else !a.source.Member? && UseKeyOf(a) == UseKeyOf(b)
    }

    ghost predicate HasKeyOf(byID: PatternEvents, ev: PatternEvent) {
      exists k :: k in byID && SameKey(byID[k], ev)
    }

    lemma HasItself(byID: PatternEvents, ev: PatternEvent)
      requires EventKey(ev.base) in byID && byID[EventKey(ev.base)] == ev
      ensures HasKeyOf(byID, ev)
    {
      assert SameKey(byID[EventKey(ev.base)], ev);
    }

    lemma KeyTakenBy(byID: PatternEvents, members: map<MemberKey, string>, uses: map<UseKey, string>, ev: PatternEvent)
      requires PatternIndexed(byID, members, uses)
      ensures KeyTaken(members, uses, ev) ==> HasKeyOf(byID, ev)
    {
      if KeyTaken(members, uses, ev) {
        var k := if ev.source.Member? then (MemberKeyOf(ev).0, members[MemberKeyOf(ev)]) else (UseKeyOf(ev).0, uses[UseKeyOf(ev)]);
        assert k in byID && SameKey(byID[k], ev);
      }
    }

    /** A pattern learns from an experience event what that event gave its experience, in full. */
    predicate DerivedFrom(ev: PatternEvent, source: Event) {
      && ev.source == Member(source.id) && FeedbackOf(ev.base) == FeedbackOf(source)
      && ev.base.reward == Amount(source) && ev.base.confidence == source.confidence && ev.base.credit == 1.0
      && ev.base.effective == EffectiveReward(Amount(source), source.confidence, 1.0)
    }

    /** So it moves its pattern by exactly what the experience event moves its experience. */
    lemma MemberMovesAlike(ev: PatternEvent, source: Event)
      requires DerivedFrom(ev, source)
      ensures DeltaOf(ev.base) == DeltaOf(source)
    {
    }

    /** The pattern is stored and learnable, and the experience supports it. */
    predicate Supports(g: Ground, tenant: string, experience: string, id: string) {
      && id in SupportedBy(g.byExp, experience) && (tenant, id) in g.pats
      && var status := g.pats[(tenant, id)].status; status.ActivePattern? || status.CandidatePattern?
    }

    ghost function TheGround(): Ground
      reads patterns
    {
      Ground(patterns.byID, patterns.byExp)
    }

    /** Only events derived from `source` were added, about learnable patterns that its experience supports,
        outside `skip`. */
    ghost predicate AddsOutside(before: PatternEvents, after: PatternEvents, g: Ground, source: Event, skip: set<string>) {
      && (forall k | k in before :: k in after && after[k] == before[k])
      && (forall k | k in after && k !in before ::
            && DerivedFrom(after[k], source) && after[k].base.status == Pending
            && after[k].base.experience !in skip && Supports(g, source.tenant, source.experience, after[k].base.experience))
    }

    lemma AddsOutsideTwice(a: PatternEvents, b: PatternEvents, c: PatternEvents, g: Ground, source: Event, skip: set<string>)
      requires AddsOutside(a, b, g, source, skip) && AddsOutside(b, c, g, source, skip)
      ensures AddsOutside(a, c, g, source, skip)
    {
    }

    lemma AddsNothing(a: PatternEvents, g: Ground, source: Event, skip: set<string>)
      ensures AddsOutside(a, a, g, source, skip)
    {
    }

    /** The event of one pattern that the experience supports. */
    method EnqueueMemberEvent(source: Event, p: string, reward: real, confidence: real, ghost skip: set<string>) returns (ok: bool)
      requires Balanced() && Minted() && p !in skip && reward == Amount(source) && confidence == source.confidence
      requires Supports(TheGround(), source.tenant, source.experience, p)
      modifies events, world
      ensures Balanced() && Minted() && FaultsOnly(old(world.log), world.log) && (world.log == old(world.log) ==> ok)
      ensures world.minted >= old(world.minted)
      ensures AddsOutside(old(events.byID), events.byID, TheGround(), source, skip)
      ensures (source.tenant, p) in patterns.byID && 0.0 <= confidence <= 1.0 && old(AllKnown(FeedbackOf(source))) ==>
                AllKnown(FeedbackOf(source))
      ensures ok ==> DerivedIn(events.byID, source, p)
    {
      hide PatternIndexed, Listed, Ordered, PatternsBalanced, DerivedIn, HasKeyOf, Amount, EffectiveReward;
      var id := world.Mint();
      var ev := PatternEvent(Event(source.tenant, id, source.feedback, source.episode, p, reward, confidence, 1.0,
                                   EffectiveReward(reward, confidence, 1.0), Pending), Member(source.id));
      ok := CreateOrLoad(ev);
      if ok {
        DerivedByKey(source, events.byID, ev);
      }
    }

    /** One event per retrievable pattern that the experience supports and that is not skipped. */
    method EnqueueMemberEvents(source: Event, reward: real, confidence: real, skip: set<string>) returns (ok: bool)
      requires Balanced() && Minted() && reward == Amount(source) && confidence == source.confidence
      modifies events, world
      ensures Balanced() && Minted() && FaultsOnly(old(world.log), world.log) && (world.log == old(world.log) ==> ok)
      ensures world.minted >= old(world.minted)
      ensures AddsOutside(old(events.byID), events.byID, TheGround(), source, skip)
      ensures 0.0 <= confidence <= 1.0 && old(AllKnown(FeedbackOf(source))) ==> AllKnown(FeedbackOf(source))
      ensures ok ==> MembersDone(events.byID, TheGround(), source, skip)
    {
      hide PatternIndexed, Listed, Ordered, PatternsBalanced, DerivedIn, AddsOutside, Amount, AllKnownIn;
      PatternKeysAre(TheBooks());
      AddsNothing(events.byID, TheGround(), source, skip);
      var pats := patterns.FindByExperience(source.tenant, source.experience);
      for i := 0 to |pats|
        invariant Balanced() && Minted() && FaultsOnly(old(world.log), world.log)
        invariant world.minted >= old(world.minted)
        invariant AddsOutside(old(events.byID), events.byID, TheGround(), source, skip)
        invariant 0.0 <= confidence <= 1.0 && old(AllKnown(FeedbackOf(source))) ==> AllKnown(FeedbackOf(source))
        invariant forall j | 0 <= j < i && Retrievable(pats[j]) && pats[j].id !in skip :: DerivedIn(events.byID, source, pats[j].id)
      {
        var p := pats[i];
        if p.id in skip {
          continue;
        }
        if !Retrievable(p) {
          continue;
        }
        ghost var before := events.byID;
        ok := EnqueueMemberEvent(source, p.id, reward, confidence, skip);
        AddsOutsideTwice(old(events.byID), before, events.byID, TheGround(), source, skip);
        StaysDerived(source, before, events.byID, TheGround(), skip);
        if !ok {
          return;
        }
      }
      ok := true;
    }

    /** Every learnable pattern that the experience of `source` supports, outside `skip`, has its event. */
    ghost predicate MembersDone(byID: PatternEvents, g: Ground, source: Event, skip: set<string>) {
      forall id | Supports(g, source.tenant, source.experience, id) && id !in skip :: DerivedIn(byID, source, id)
    }

    /** Whatever happens to other events and to statuses, what is derived stays derived. */
    ghost predicate Grows(before: PatternEvents, after: PatternEvents) {
      forall k | k in before ::
        k in after && after[k].source == before[k].source && after[k].base == before[k].base.(status := after[k].base.status)
    }

    lemma MembersStayDone(before: PatternEvents, after: PatternEvents, g: Ground, g': Ground, source: Event, skip: set<string>)
      requires MembersDone(before, g, source, skip) && Grows(before, after)
      requires StayRetrievable(g.pats, g'.pats) && g'.byExp == g.byExp
      ensures MembersDone(after, g', source, skip)
    {
      forall id | Supports(g', source.tenant, source.experience, id) && id !in skip ensures DerivedIn(after, source, id) {
        assert DerivedIn(before, source, id);
      }
    }

    lemma WithinGrows(a: PatternEvents, b: PatternEvents, fk: FeedbackKey, used: set<string>)
      requires AddsWithin(a, b, fk, used)
      ensures Grows(a, b)
    {
    }

    lemma RestatusGrows(a: PatternEvents, b: PatternEvents, fk: FeedbackKey)
      requires OnlyRestatus(a, b, fk)
      ensures Grows(a, b)
    {
    }

    lemma GrowsTwice(a: PatternEvents, b: PatternEvents, c: PatternEvents)
      requires Grows(a, b) && Grows(b, c)
      ensures Grows(a, c)
    {
    }

    /** There is an event of this member event for the pattern. */
    ghost predicate DerivedIn(byID: PatternEvents, source: Event, pattern: string) {
      exists k :: k in byID && byID[k].source == Member(source.id) && byID[k].base.tenant == source.tenant
                  && byID[k].base.experience == pattern
    }

    lemma DerivedByKey(source: Event, byID: PatternEvents, ev: PatternEvent)
      requires HasKeyOf(byID, ev) && ev.source == Member(source.id) && ev.base.tenant == source.tenant
      ensures DerivedIn(byID, source, ev.base.experience)
    {
    }

    lemma StaysDerived(source: Event, before: PatternEvents, after: PatternEvents, g: Ground, skip: set<string>)
      requires AddsOutside(before, after, g, source, skip)
      ensures forall pattern | DerivedIn(before, source, pattern) :: DerivedIn(after, source, pattern)
    {
    }

    // -------------------------------------------------------------- the patterns used in the episode

    /** Only PATTERN_USAGE events about these patterns were added. */
    ghost predicate AddsWithin(before: PatternEvents, after: PatternEvents, fk: FeedbackKey, used: set<string>) {
      && OnlyAdds(before, after, fk, PatternUse)
      && forall k | k in after && k !in before :: after[k].base.experience in used
    }

    lemma AddsWithinTwice(a: PatternEvents, b: PatternEvents, c: PatternEvents, fk: FeedbackKey, used: set<string>)
      requires AddsWithin(a, b, fk, used) && AddsWithin(b, c, fk, used)
      ensures AddsWithin(a, c, fk, used)
    {
    }

    /** The weight of one use: its final score, or else its retrieval score, or else 1. */
    function UseWeight(u: Usage): real {
      if u.finalScore > 0.0 then u.finalScore
      else if u.retrievalScore > 0.0 then u.retrievalScore
      else 1.0
    }

    /** All uses of one pattern. */
    function TotalUse(usages: seq<Usage>, id: string): real {
      if usages == [] then 0.0
      else
        TotalUse(usages[..|usages| - 1], id) +
        if usages[|usages| - 1].experience == id then UseWeight(usages[|usages| - 1]) else 0.0
    }

    lemma {:induction false} UnusedWeighsNothing(usages: seq<Usage>, id: string)
      requires !IsUsed(usages, id)
      ensures TotalUse(usages, id) == 0.0
    {
      if usages != [] {
        var front := usages[..|usages| - 1];
        assert usages[|usages| - 1].experience != id;
        assert forall j | 0 <= j < |front| :: usages[j].experience == front[j].experience;
        UnusedWeighsNothing(front, id);
      }
    }

    /** The weights of the patterns. */
    method UseWeights(usages: seq<Usage>) returns (weights: map<string, real>)
      ensures forall id | id in weights :: weights[id] == TotalUse(usages, id) > 0.0
      ensures forall id :: id in weights <==> IsUsed(usages, id)
    {
      hide UseWeight;
      weights := map[];
      for i := 0 to |usages|
        invariant forall id | id in weights :: weights[id] == TotalUse(usages[..i], id) > 0.0
        invariant forall id :: id in weights <==> IsUsed(usages[..i], id)
      {
        var u := usages[i];
        var w := UseWeight(u);
        WeighsSomething(u);
        UsesNext(usages, i);
        weights := weights[u.experience := (if u.experience in weights then weights[u.experience] else 0.0) + w];
      }
      assert usages[..|usages|] == usages;
    }

    lemma WeighsSomething(u: Usage)
      ensures UseWeight(u) > 0.0
      ensures u.finalScore > 0.0 ==> UseWeight(u) == u.finalScore
      ensures u.finalScore <= 0.0 < u.retrievalScore ==> UseWeight(u) == u.retrievalScore
    {
    }

    lemma UsesNext(usages: seq<Usage>, i: nat)
      requires i < |usages|
      ensures forall id :: IsUsed(usages[..i + 1], id) <==> IsUsed(usages[..i], id) || id == usages[i].experience
      ensures forall id :: TotalUse(usages[..i + 1], id) ==
                TotalUse(usages[..i], id) + if usages[i].experience == id then UseWeight(usages[i]) else 0.0
      ensures !IsUsed(usages[..i], usages[i].experience) ==> TotalUse(usages[..i], usages[i].experience) == 0.0
    {
      hide UseWeight;
      assert usages[..i + 1][..i] == usages[..i];
      if !IsUsed(usages[..i], usages[i].experience) {
        UnusedWeighsNothing(usages[..i], usages[i].experience);
      }
      forall id ensures IsUsed(usages[..i + 1], id) <==> IsUsed(usages[..i], id) || id == usages[i].experience {
        if IsUsed(usages[..i], id) {
          var j :| 0 <= j < i && usages[..i][j].experience == id;
          assert usages[..i + 1][j].experience == id;
        }
        if id == usages[i].experience {
          assert usages[..i + 1][i].experience == id;
        }
        if IsUsed(usages[..i + 1], id) {
          var j :| 0 <= j < i + 1 && usages[..i + 1][j].experience == id;
          assert j < i ==> usages[..i][j].experience == id;
        }
      }
    }

    function IdsOf(credits: seq<Credit>): set<string> {
      set c | c in credits :: c.experience
    }

    /** Shares of exactly 1 over the used patterns, each once, in proportion to their use. */
    ghost predicate SharesOf(credits: seq<Credit>, usages: seq<Usage>) {
      && DistinctIds(credits) && WeightSum(credits) == 1.0 && NonNegative(credits)
      && IdsOf(credits) == (set u | u in usages :: u.experience)
      && (forall i | 0 <= i < |credits| :: credits[i].score == TotalUse(usages, credits[i].experience))
      && (forall i, j | 0 <= i < |credits| && 0 <= j < |credits| ::
            credits[i].weight * credits[j].score == credits[j].weight * credits[i].score)
    }

    /** The weights as shares of their sum, in the order of the map's traversal. */
    method UseShares(usages: seq<Usage>, weights: map<string, real>) returns (shares: seq<Credit>)
      requires usages != [] && forall id | id in weights :: weights[id] == TotalUse(usages, id) > 0.0
      requires forall id :: id in weights <==> IsUsed(usages, id)
      ensures SharesOf(shares, usages)
    {
      hide WeightSum, PositiveSum, TotalUse;
      assert IsUsed(usages, usages[0].experience);
      var id := usages[0].experience;
      SumIsPositive(weights, weights.Keys);
      var sum := PositiveTotal(weights);
      shares := Shares(weights, sum);
      NormalizedNonNegative(shares, weights, sum);
      SameProportion(shares, weights);
      AreShares(shares, usages, weights);
    }

    lemma AreShares(shares: seq<Credit>, usages: seq<Usage>, weights: map<string, real>)
      requires Normalizes(shares, weights) && forall id | id in weights :: weights[id] == TotalUse(usages, id) > 0.0
      requires forall id :: id in weights <==> IsUsed(usages, id)
      ensures IdsOf(shares) == (set u | u in usages :: u.experience)
      ensures forall i | 0 <= i < |shares| :: shares[i].score == TotalUse(usages, shares[i].experience)
    {
      hide PositiveSum, TotalUse;
      forall i | 0 <= i < |shares|
        ensures shares[i].score == TotalUse(usages, shares[i].experience) && IsUsed(usages, shares[i].experience)
      {
        assert IsShare(shares[i], weights, PositiveSum(weights, weights.Keys));
      }
      forall id | IsUsed(usages, id) ensures id in IdsOf(shares) {
        assert weights[id] > 0.0;
        var i :| 0 <= i < |shares| && shares[i].experience == id;
        assert shares[i] in shares;
      }
    }

    /** The feedback already has an event about the use of this pattern. */
    ghost predicate HasUse(byID: PatternEvents, fk: FeedbackKey, pattern: string) {
      exists k :: k in byID && byID[k].source == PatternUse && FeedbackOf(byID[k].base) == fk && byID[k].base.experience == pattern
    }

    /** It does now, and if it had none in `before`, then with the credit c. */
    ghost predicate UseCredited(before: PatternEvents, after: PatternEvents, fk: FeedbackKey, c: Credit, reward: real, confidence: real) {
      && HasUse(after, fk, c.experience)
      && (!HasUse(before, fk, c.experience) ==> exists k :: k in after && IsUse(after[k], fk, c, reward, confidence))
    }

    /** The event credits this pattern with its share of the reward. */
    predicate IsUse(ev: PatternEvent, fk: FeedbackKey, c: Credit, reward: real, confidence: real) {
      && ev.source == PatternUse && FeedbackOf(ev.base) == fk && ev.base.experience == c.experience
      && ev.base.reward == reward && ev.base.confidence == confidence && ev.base.credit == c.weight
      && ev.base.effective == EffectiveReward(reward, confidence, c.weight)
    }

    method EnqueueUse(tenant: string, episode: string, feedback: string, c: Credit, reward: real, confidence: real)
      returns (ok: bool)
      requires Balanced() && Minted()
      modifies events, world
      ensures Balanced() && Minted() && FaultsOnly(old(world.log), world.log) && (world.log == old(world.log) ==> ok)
      ensures world.minted >= old(world.minted)
      ensures AddsWithin(old(events.byID), events.byID, (tenant, feedback), {c.experience})
      ensures (tenant, c.experience) in patterns.byID && 0.0 <= confidence <= 1.0 && old(AllKnown((tenant, feedback))) ==>
                AllKnown((tenant, feedback))
      ensures ok ==> UseCredited(old(events.byID), events.byID, (tenant, feedback), c, reward, confidence)
    {
      hide PatternIndexed, Listed, Ordered, PatternsBalanced, HasKeyOf, UseCredited;
      var id := world.Mint();
      var ev := PatternEvent(Event(tenant, id, feedback, episode, c.experience, reward, confidence, c.weight,
                                   EffectiveReward(reward, confidence, c.weight), Pending), PatternUse);
      UseKeyIs(events.byID, events.memberKey, events.usageKey, ev);
      ok := CreateOrLoad(ev);
      if ok {
        UseIsCredited(old(events.byID), events.byID, ev, c);
      }
    }

    lemma UseKeyIs(byID: PatternEvents, members: map<MemberKey, string>, uses: map<UseKey, string>, ev: PatternEvent)
      requires PatternIndexed(byID, members, uses) && ev.source == PatternUse
      ensures KeyTaken(members, uses, ev) ==> HasUse(byID, FeedbackOf(ev.base), ev.base.experience)
    {
      if KeyTaken(members, uses, ev) {
        var k := (ev.base.tenant, uses[UseKeyOf(ev)]);
        assert k in byID && UseKeyOf(byID[k]) == UseKeyOf(ev);
      }
    }

    lemma UseIsCredited(before: PatternEvents, after: PatternEvents, ev: PatternEvent, c: Credit)
      requires IsUse(ev, FeedbackOf(ev.base), c, ev.base.reward, ev.base.confidence) && HasKeyOf(after, ev)
      requires HasUse(before, FeedbackOf(ev.base), ev.base.experience) || after == before[EventKey(ev.base) := ev]
      ensures UseCredited(before, after, FeedbackOf(ev.base), c, ev.base.reward, ev.base.confidence)
    {
      var k :| k in after && SameKey(after[k], ev);
      if !HasUse(before, FeedbackOf(ev.base), ev.base.experience) {
        assert after[EventKey(ev.base)] == ev;
      }
    }

    /** Later events leave what was credited; events about other patterns do not count as credit. */
    lemma CreditStays(a: PatternEvents, b: PatternEvents, c: PatternEvents, fk: FeedbackKey, used: set<string>, x: Credit,
                      reward: real, confidence: real)
      requires AddsWithin(b, c, fk, used) && UseCredited(a, b, fk, x, reward, confidence)
      ensures UseCredited(a, c, fk, x, reward, confidence)
    {
    }

    lemma CreditIsFirst(a: PatternEvents, b: PatternEvents, c: PatternEvents, fk: FeedbackKey, used: set<string>, x: Credit,
                        reward: real, confidence: real)
      requires AddsWithin(a, b, fk, used) && x.experience !in used && UseCredited(b, c, fk, x, reward, confidence)
      ensures UseCredited(a, c, fk, x, reward, confidence)
    {
    }

    lemma AddsWithinMore(a: PatternEvents, b: PatternEvents, fk: FeedbackKey, used: set<string>, more: set<string>)
      requires AddsWithin(a, b, fk, used) && used <= more
      ensures AddsWithin(a, b, fk, more)
    {
    }

    /** The used patterns exist and the confidence is in range. */
    ghost predicate UsesKnown(tenant: string, usages: seq<Usage>, confidence: real)
      reads patterns
    {
      0.0 <= confidence <= 1.0 && forall i | 0 <= i < |usages| :: (tenant, usages[i].experience) in patterns.byID
    }

    ghost predicate SharesKnown(tenant: string, shares: seq<Credit>, confidence: real)
      reads patterns
    {
      0.0 <= confidence <= 1.0 && forall i | 0 <= i < |shares| :: (tenant, shares[i].experience) in patterns.byID
    }

    lemma KnownShares(tenant: string, usages: seq<Usage>, shares: seq<Credit>, confidence: real)
      requires UsesKnown(tenant, usages, confidence) && IdsOf(shares) == (set u | u in usages :: u.experience)
      ensures SharesKnown(tenant, shares, confidence)
    {
      forall i | 0 <= i < |shares| ensures (tenant, shares[i].experience) in patterns.byID {
        assert shares[i] in shares && shares[i].experience in IdsOf(shares);
      }
    }

    /** One event per pattern used in the episode. The credits are non-negative and sum to exactly 1,
        and every pattern that had no such event of this feedback yet gets one with its credit. */
    method EnqueuePatternUsageEvents(tenant: string, episode: string, feedback: string, usages: seq<Usage>,
                                     reward: real, confidence: real)
      returns (ok: bool, ghost credits: seq<Credit>)
      requires Balanced() && Minted() && usages != []
      modifies events, world
      ensures Balanced() && Minted() && FaultsOnly(old(world.log), world.log) && (world.log == old(world.log) ==> ok)
      ensures world.minted >= old(world.minted)
      ensures AddsWithin(old(events.byID), events.byID, (tenant, feedback), IdsOf(credits))
      ensures UsesKnown(tenant, usages, confidence) && old(AllKnown((tenant, feedback))) ==> AllKnown((tenant, feedback))
      ensures SharesOf(credits, usages)
      ensures ok ==> forall i | 0 <= i < |credits| ::
                UseCredited(old(events.byID), events.byID, (tenant, feedback), credits[i], reward, confidence)
    {
      hide PatternIndexed, Listed, Ordered, PatternsBalanced, AddsWithin, UseCredited, WeightSum, NonNegative, TotalUse, AllKnownIn;
      var weights := UseWeights(usages);
      var shares := UseShares(usages, weights);
      credits := shares;
      if UsesKnown(tenant, usages, confidence) {
        KnownShares(tenant, usages, shares, confidence);
      }
      ok := EnqueueShares(tenant, episode, feedback, shares, reward, confidence);
    }

    method EnqueueShares(tenant: string, episode: string, feedback: string, shares: seq<Credit>, reward: real, confidence: real)
      returns (ok: bool)
      requires Balanced() && Minted() && DistinctIds(shares)
      modifies events, world
      ensures Balanced() && Minted() && FaultsOnly(old(world.log), world.log) && (world.log == old(world.log) ==> ok)
      ensures world.minted >= old(world.minted)
      ensures AddsWithin(old(events.byID), events.byID, (tenant, feedback), IdsOf(shares))
      ensures SharesKnown(tenant, shares, confidence) && old(AllKnown((tenant, feedback))) ==> AllKnown((tenant, feedback))
      ensures ok ==> forall i | 0 <= i < |shares| ::
                UseCredited(old(events.byID), events.byID, (tenant, feedback), shares[i], reward, confidence)
    {
      hide PatternIndexed, Listed, Ordered, PatternsBalanced, AddsWithin, UseCredited, AllKnownIn;
      AddsNoUse(events.byID, (tenant, feedback), {});
      assert IdsOf(shares[..0]) == {};
      for i := 0 to |shares|
        invariant Balanced() && Minted() && FaultsOnly(old(world.log), world.log)
        invariant world.minted >= old(world.minted)
        invariant AddsWithin(old(events.byID), events.byID, (tenant, feedback), IdsOf(shares[..i]))
        invariant SharesKnown(tenant, shares, confidence) && old(AllKnown((tenant, feedback))) ==> AllKnown((tenant, feedback))
        invariant forall j | 0 <= j < i :: UseCredited(old(events.byID), events.byID, (tenant, feedback), shares[j], reward, confidence)
      {
        ghost var before, x := events.byID, shares[i];
        ok := EnqueueUse(tenant, episode, feedback, shares[i], reward, confidence);
        forall j | 0 <= j < i ensures UseCredited(old(events.byID), events.byID, (tenant, feedback), shares[j], reward, confidence) {
          CreditStays(old(events.byID), before, events.byID, (tenant, feedback), {x.experience}, shares[j], reward, confidence);
        }
        assert x.experience !in IdsOf(shares[..i]);
        if ok {
          CreditIsFirst(old(events.byID), before, events.byID, (tenant, feedback), IdsOf(shares[..i]), x, reward, confidence);
        }
        assert IdsOf(shares[..i + 1]) == IdsOf(shares[..i]) + {x.experience};
        AddsWithinMore(old(events.byID), before, (tenant, feedback), IdsOf(shares[..i]), IdsOf(shares[..i + 1]));
        AddsWithinMore(before, events.byID, (tenant, feedback), {x.experience}, IdsOf(shares[..i + 1]));
        AddsWithinTwice(old(events.byID), before, events.byID, (tenant, feedback), IdsOf(shares[..i + 1]));
        if !ok {
          AddsWithinMore(old(events.byID), events.byID, (tenant, feedback), IdsOf(shares[..i + 1]), IdsOf(shares));
          return;
        }
      }
      assert shares[..|shares|] == shares;
      ok := true;
    }

    lemma AddsNoUse(a: PatternEvents, fk: FeedbackKey, used: set<string>)
      ensures AddsWithin(a, a, fk, used)
    {
    }

    // -------------------------------------------------------------- retrying

    /** Only the status of events of this feedback changed, and no APPLIED one. */
    ghost predicate OnlyRestatus(before: PatternEvents, after: PatternEvents, fk: FeedbackKey) {
      && after.Keys == before.Keys
      && forall k | k in before ::
           || after[k] == before[k]
           || (FeedbackOf(before[k].base) == fk && before[k].base.status != Applied
               && after[k] == Restatus(before[k], after[k].base.status))
    }

    lemma RestatusTwice(a: PatternEvents, b: PatternEvents, c: PatternEvents, fk: FeedbackKey)
      requires OnlyRestatus(a, b, fk) && OnlyRestatus(b, c, fk)
      ensures OnlyRestatus(a, c, fk)
    {
    }

    /** Applies one event, or marks it FAILED. */
    method ApplyPatternEvent(ev: PatternEvent) returns (ok: bool)
      requires Balanced() && Minted() && EventKey(ev.base) in events.byID && events.byID[EventKey(ev.base)] == ev
      requires ev.base.status != Applied
      modifies patterns`byID, events`byID, this`leaked, world`log
      ensures Balanced() && Minted() && StayRetrievable(old(patterns.byID), patterns.byID) && FaultsOnly(old(world.log), world.log)
      ensures SparesOthers(old(patterns.byID), patterns.byID, Subject(ev.base))
      ensures exists st :: events.byID == old(events.byID)[EventKey(ev.base) := Restatus(ev, st)] && (ok ==> st == Applied)
      ensures Subject(ev.base) in old(patterns.byID) && 0.0 <= ev.base.confidence <= 1.0 ==> (ok <==> world.log == old(world.log))
      ensures world.log.faults <= old(world.log).faults + 1 ==> leaked == old(leaked)
    {
      hide PatternIndexed, Listed, Ordered, PatternsBalanced, DeltaOf, StayRetrievable, SparesOthers, Leaked;
      ok := ApplyPendingPatternEvent(ev);
      if ok {
        assert events.byID == old(events.byID)[EventKey(ev.base) := Restatus(ev, Applied)];
      } else {
        assert events.byID == old(events.byID)[EventKey(ev.base) := Restatus(ev, ev.base.status)];
        RestatusBase(events.byID, EventKey(ev.base), Failed);
        ghost var b := TheBooks();
        var marked := Mark(EventKey(ev.base), Failed);
        if marked {
          QuietEventKeeps(b, Bases(events.byID), EventKey(ev.base));
        }
      }
    }

    /** ApplyPatternEvent as a step of its feedback. */
    method RetryOne(ev: PatternEvent) returns (ok: bool)
      requires Balanced() && Minted() && EventKey(ev.base) in events.byID && events.byID[EventKey(ev.base)] == ev
      requires ev.base.status != Applied
      modifies patterns`byID, events`byID, this`leaked, world`log
      ensures Balanced() && Minted() && StayRetrievable(old(patterns.byID), patterns.byID) && FaultsOnly(old(world.log), world.log)
      ensures OnlyRestatus(old(events.byID), events.byID, FeedbackOf(ev.base))
      ensures SparesOthers(old(patterns.byID), patterns.byID, Subject(ev.base))
      ensures forall k | k in old(events.byID) && k != EventKey(ev.base) :: k in events.byID && events.byID[k] == old(events.byID)[k]
      ensures ok ==> EventKey(ev.base) in events.byID && events.byID[EventKey(ev.base)].base.status == Applied
      ensures EventKey(ev.base) in events.byID
      ensures Subject(ev.base) in old(patterns.byID) && 0.0 <= ev.base.confidence <= 1.0 ==> (ok <==> world.log == old(world.log))
      ensures world.log.faults <= old(world.log).faults + 1 ==> leaked == old(leaked)
    {
      hide PatternIndexed, Listed, Ordered, PatternsBalanced, OnlyRestatus, StayRetrievable, SparesOthers;
      ok := ApplyPatternEvent(ev);
      ghost var st :| events.byID == old(events.byID)[EventKey(ev.base) := Restatus(ev, st)] && (ok ==> st == Applied);
      RestatusOne(old(events.byID), EventKey(ev.base), st, FeedbackOf(ev.base));
    }

    /** The events of this feedback are about patterns that exist, with confidences in range. */
    ghost predicate AllKnown(fk: FeedbackKey)
      reads patterns, events
    {
      AllKnownIn(patterns.byID, events.byID, fk)
    }

    ghost predicate AllKnownIn(pats: map<Key, Pattern>, byID: PatternEvents, fk: FeedbackKey) {
      forall k | k in byID && FeedbackOf(byID[k].base) == fk ::
        Subject(byID[k].base) in pats && 0.0 <= byID[k].base.confidence <= 1.0
    }

    lemma KnownOne(pats0: map<Key, Pattern>, pats: map<Key, Pattern>, byID: PatternEvents, fk: FeedbackKey, ev: PatternEvent)
      requires StayRetrievable(pats0, pats) && EventKey(ev.base) in byID && byID[EventKey(ev.base)] == ev && FeedbackOf(ev.base) == fk
      ensures AllKnownIn(pats0, byID, fk) ==> Subject(ev.base) in pats && 0.0 <= ev.base.confidence <= 1.0
    {
    }

    /** The events of the feedback, each once. */
    method ListEvents(tenant: string, feedback: string) returns (list: seq<PatternEvent>)
      requires Balanced()
      ensures forall i | 0 <= i < |list| ::
                && EventKey(list[i].base) in events.byID && events.byID[EventKey(list[i].base)] == list[i]
                && FeedbackOf(list[i].base) == (tenant, feedback)
      ensures forall i, j | 0 <= i < j < |list| :: EventKey(list[i].base) != EventKey(list[j].base)
      ensures forall k | k in events.byID && FeedbackOf(events.byID[k].base) == (tenant, feedback) ::
                events.byID[k] in list && EventKey(events.byID[k].base) == k
    {
      hide PatternIndexed, Listed, Ordered, PatternsBalanced;
      KeyedEvents(events.byID, events.memberKey, events.usageKey);
      list := events.ListByFeedback(tenant, feedback);
    }

    /** Applies the events of the feedback that are not APPLIED yet, up to the first failure. */
    method RetryPatternEvents(tenant: string, feedback: string) returns (ok: bool)
      requires Balanced() && Minted()
      modifies patterns`byID, events`byID, this`leaked, world`log
      ensures Balanced() && Minted() && StayRetrievable(old(patterns.byID), patterns.byID) && FaultsOnly(old(world.log), world.log)
      ensures old(AllKnown((tenant, feedback))) && world.log == old(world.log) ==> ok
      ensures world.log.faults <= old(world.log).faults + 1 ==> leaked == old(leaked)
      ensures OnlyRestatus(old(events.byID), events.byID, (tenant, feedback))
      ensures OnlySubjects(old(patterns.byID), patterns.byID, old(events.byID), (tenant, feedback))
      ensures ok ==> forall k | k in events.byID && FeedbackOf(events.byID[k].base) == (tenant, feedback) ::
                events.byID[k].base.status == Applied
    {
      hide Balanced, Minted, OnlyRestatus, StayRetrievable, AllKnownIn, OnlySubjects, SparesOthers;
      RetrievableStill(patterns.byID);
      NoSubjects(patterns.byID, events.byID, (tenant, feedback));
      RestatusNothing(events.byID, (tenant, feedback));
      var down := world.Fails();
      if down {
        return false;
      }
      var list := ListEvents(tenant, feedback);
      for i := 0 to |list|
        invariant Balanced() && Minted() && StayRetrievable(old(patterns.byID), patterns.byID) && FaultsOnly(old(world.log), world.log)
        invariant world.log.faults <= old(world.log).faults + 1 ==> leaked == old(leaked)
        invariant OnlyRestatus(old(events.byID), events.byID, (tenant, feedback))
        invariant OnlySubjects(old(patterns.byID), patterns.byID, old(events.byID), (tenant, feedback))
        invariant forall j | 0 <= j < |list| :: EventKey(list[j].base) in events.byID
        invariant forall j | i <= j < |list| :: events.byID[EventKey(list[j].base)] == list[j]
        invariant forall j | 0 <= j < i :: events.byID[EventKey(list[j].base)].base.status == Applied
      {
        var ev := list[i];
        if ev.base.status == Applied {
          continue;
        }
        ghost var before, pats := events.byID, patterns.byID;
        KnownOne(old(patterns.byID), pats, old(events.byID), (tenant, feedback), ev);
        ok := RetryOne(ev);
        RetrievableTwice(old(patterns.byID), pats, patterns.byID);
        OneSubject(old(patterns.byID), pats, patterns.byID, old(events.byID), (tenant, feedback), ev);
        RestatusTwice(old(events.byID), before, events.byID, (tenant, feedback));
        if !ok {
          return;
        }
      }
      AllListed(old(events.byID), events.byID, (tenant, feedback), list);
      ok := true;
    }

    /** Only patterns that an event of this feedback is about changed. */
    ghost predicate OnlySubjects(before: map<Key, Pattern>, after: map<Key, Pattern>, byID: PatternEvents, fk: FeedbackKey) {
      forall k | k in before && !IsSubject(byID, fk, k) :: k in after && after[k] == before[k]
    }

    ghost predicate IsSubject(byID: PatternEvents, fk: FeedbackKey, k: Key) {
      exists e :: e in byID && FeedbackOf(byID[e].base) == fk && Subject(byID[e].base) == k
    }

    lemma NoSubjects(a: map<Key, Pattern>, byID: PatternEvents, fk: FeedbackKey)
      ensures OnlySubjects(a, a, byID, fk)
    {
    }

    lemma OneSubject(a: map<Key, Pattern>, b: map<Key, Pattern>, c: map<Key, Pattern>, byID: PatternEvents, fk: FeedbackKey,
                     ev: PatternEvent)
      requires OnlySubjects(a, b, byID, fk) && SparesOthers(b, c, Subject(ev.base))
      requires EventKey(ev.base) in byID && byID[EventKey(ev.base)] == ev && FeedbackOf(ev.base) == fk
      ensures OnlySubjects(a, c, byID, fk)
    {
      assert IsSubject(byID, fk, Subject(ev.base));
    }

    lemma KeyedEvents(byID: PatternEvents, members: map<MemberKey, string>, uses: map<UseKey, string>)
      requires PatternIndexed(byID, members, uses)
      ensures forall k | k in byID :: EventKey(byID[k].base) == k
    {
    }

    lemma RestatusNothing(a: PatternEvents, fk: FeedbackKey)
      ensures OnlyRestatus(a, a, fk)
    {
    }

    lemma RestatusOne(a: PatternEvents, k: Key, st: EventStatus, fk: FeedbackKey)
      requires k in a && FeedbackOf(a[k].base) == fk && a[k].base.status != Applied
      ensures OnlyRestatus(a, a[k := Restatus(a[k], st)], fk)
    {
    }

    lemma AllListed(a: PatternEvents, b: PatternEvents, fk: FeedbackKey, list: seq<PatternEvent>)
      requires OnlyRestatus(a, b, fk)
      requires forall j | 0 <= j < |list| :: EventKey(list[j].base) in b && b[EventKey(list[j].base)].base.status == Applied
      requires forall k | k in a && FeedbackOf(a[k].base) == fk :: a[k] in list && EventKey(a[k].base) == k
      ensures forall k | k in b && FeedbackOf(b[k].base) == fk :: b[k].base.status == Applied
    {
      forall k | k in b && FeedbackOf(b[k].base) == fk ensures b[k].base.status == Applied {
        var j :| 0 <= j < |list| && list[j] == a[k];
      }
    }
  }

  lemma PatternKeysAre(b: PatternBooks)
    requires PatternsBalanced(b)
    ensures forall k | k in b.data :: PatternKey(b.data[k]) == k
  {
  }

  lemma PatternKeysKept(b: PatternBooks, k: Key, d: Totals)
    requires PatternsBalancedBut(b, k, d) && k in b.data
    ensures k in b.leaked
  {
  }

  lemma PatternKeyKept(b: PatternBooks, k: Key)
    requires PatternsBalanced(b) && k in b.data
    ensures PatternKey(b.data[k]) == k
  {
  }

  lemma PatternUpdatableIff(p: Pattern, amount: real, confidence: real)
    ensures ApplyPatternBetaUpdate(p, amount, confidence).Some? <==> 0.0 <= confidence <= 1.0
  {
  }
}
