/** Learning of generalized patterns (internal/learning/pattern_event_memory.go,
    internal/learning/pattern_event_applier.go, internal/experience/pattern_utility.go and the
    pattern part of internal/learning/service.go). */
module PatternLearning {
  import opened BetaLedger
  import opened EventApplier
  import opened ExperienceStore
  import opened LearningEvents
  import opened Wrappers

  datatype PatternStatus = CandidatePattern | ActivePattern | RetiredPattern

  datatype Pattern = Pattern(
    tenant: string,
    id: string,
    status: PatternStatus,
    utility: real,
    alpha: real,
    beta: real,
    successes: nat,
    failures: nat)

  function PatternPosterior(p: Pattern): Posterior { Posterior(p.alpha, p.beta, p.successes, p.failures) }

  predicate Retrievable(p: Pattern) { p.status.ActivePattern? || p.status.CandidatePattern? }

  // ---------------------------------------------------------------- the Beta update

  function Clamp01(v: real): real {
    if v < 0.0 then 0.0 else if v > 1.0 then 1.0 else v
  }

  /** Parameters of at least 1 that express a utility. */
  function SeedBeta(utility: real): (ab: (real, real))
    ensures ab.0 >= 1.0 && ab.1 >= 1.0
    ensures 0.0 < utility < 1.0 ==> ab.0 == utility * (ab.0 + ab.1)
  {
    var u := Clamp01(utility);
    if u <= 0.0 then (1.0, 9.0)
    else if u >= 1.0 then (9.0, 1.0)
    else if u >= 0.5 then
      SeedHigh(u);
      (u / (1.0 - u), 1.0)
    else
      SeedLow(u);
      (1.0, (1.0 - u) / u)
  }

  lemma ProductBelow(q: real, y: real)
    requires y > 0.0 && q < 1.0
    ensures q * y < y
  {
    assert (1.0 - q) * y > 0.0;
  }

  lemma QuotientAtLeastOne(x: real, y: real)
    requires x >= y > 0.0
    ensures x / y >= 1.0 && (x / y) * y == x
  {
    var q := x / y;
    if q < 1.0 {
      ProductBelow(q, y);
      assert false;
    }
  }

  lemma SeedHigh(u: real)
    requires 0.5 <= u < 1.0
    ensures var a := u / (1.0 - u); a >= 1.0 && a == u * (a + 1.0)
  {
    QuotientAtLeastOne(u, 1.0 - u);
  }

  lemma SeedLow(u: real)
    requires 0.0 < u < 0.5
    ensures var b := (1.0 - u) / u; b >= 1.0 && 1.0 == u * (1.0 + b)
  {
    QuotientAtLeastOne(1.0 - u, u);
  }

  /** A posterior without positive parameters is seeded from the utility. */
  function Seeded(p: Pattern): Posterior {
    if p.alpha <= 0.0 || p.beta <= 0.0
    then Posterior(SeedBeta(p.utility).0, SeedBeta(p.utility).1, p.successes, p.failures)
    else PatternPosterior(p)
  }

  function ApplyPatternBetaUpdate(p: Pattern, reward: real, confidence: real): Option<Pattern> {
    if confidence < 0.0 || confidence > 1.0 then None
    else
      var s := Seeded(p);
      if reward >= 0.0 then
        ProductIsNonNegative(reward, confidence);
        var alpha := s.alpha + reward * confidence;
        Some(p.(alpha := alpha, beta := s.beta, successes := p.successes + 1, utility := alpha / (alpha + s.beta)))
      else
        ProductIsNonNegative(-reward, confidence);
        var beta := s.beta + -reward * confidence;
        Some(p.(alpha := s.alpha, beta := beta, failures := p.failures + 1, utility := s.alpha / (s.alpha + beta)))
  }

  /** A candidate with a utility of at least 0.75 and two successes becomes active. */
  function MaybePromote(p: Pattern): Pattern {
    if p.status.CandidatePattern? && p.utility >= 0.75 && p.successes >= 2 then p.(status := ActivePattern) else p
  }

  /** What p has become after rewards worth t in all. */
  predicate PatternStands(p: Pattern, initial: Pattern, t: Totals) {
    if t.wins + t.losses == 0 then PatternPosterior(p) == PatternPosterior(initial) && p.utility == initial.utility
    else
      var q := Shift(Seeded(initial), t);
      Positive(q) && PatternPosterior(p) == q && p.utility == Utility(q) && 0.0 < p.utility < 1.0
  }

  lemma PatternUpdateMoves(p: Pattern, reward: real, confidence: real)
    requires 0.0 <= confidence <= 1.0
    ensures var q := Shift(Seeded(p), Delta(reward, confidence));
            && Positive(q) && 0.0 < Utility(q) < 1.0
            && var u := ApplyPatternBetaUpdate(p, reward, confidence);
               u.Some? && PatternPosterior(u.value) == q && u.value.utility == Utility(q) && u.value.id == p.id && u.value.tenant == p.tenant
  {
    hide SeedBeta;
    DeltaIsProper(reward, confidence);
    UtilityIsProper(Shift(Seeded(p), Delta(reward, confidence)));
  }

  lemma PatternStandsAfter(p: Pattern, initial: Pattern, t: Totals, reward: real, confidence: real)
    requires PatternStands(p, initial, t) && Proper(t) && 0.0 <= confidence <= 1.0
    ensures var u := ApplyPatternBetaUpdate(p, reward, confidence);
            u.Some? && PatternStands(MaybePromote(u.value), initial, Plus(t, Delta(reward, confidence)))
  {
    hide ApplyPatternBetaUpdate, SeedBeta, Utility;
    PatternUpdateMoves(p, reward, confidence);
    DeltaIsProper(reward, confidence);
    hide Delta;
    assert Shift(Seeded(p), Delta(reward, confidence)) == Shift(Seeded(initial), Plus(t, Delta(reward, confidence)));
  }

  /** A promoted pattern has proved itself; nothing is demoted. */
  lemma PromotionIsEarned(p: Pattern)
    ensures var q := MaybePromote(p);
            && (q != p ==> p.status.CandidatePattern? && q == p.(status := ActivePattern) && q.utility >= 0.75 && q.successes >= 2)
            && (q.status.CandidatePattern? ==> q.utility < 0.75 || q.successes < 2)
  {
  }

  // ---------------------------------------------------------------- the event ledger

  /** Where a pattern event comes from: the event of a member experience, the pattern's own use in
      the episode, or a direct reward. */
  datatype Source = Member(event: string) | PatternUse | Direct

  /** A learning event whose subject is a pattern. */
  datatype PatternEvent = PatternEvent(base: Event, source: Source)

  type PatternEvents = map<Key, PatternEvent>

  /** The two key spaces: by member event and pattern, or by feedback, pattern and source. */
  type MemberKey = (string, string, string)
  type UseKey = (string, string, string, Source)

  function MemberKeyOf(ev: PatternEvent): MemberKey
    requires ev.source.Member?
  {
    (ev.base.tenant, ev.source.event, ev.base.experience)
  }

  function UseKeyOf(ev: PatternEvent): UseKey {
    (ev.base.tenant, ev.base.feedback, ev.base.experience, ev.source)
  }

  function Bases(events: PatternEvents): Events {
    map k | k in events :: events[k].base
  }

  /** Every event is under its own key, and under its key of either space there is no other. */
  ghost predicate PatternIndexed(byID: PatternEvents, members: map<MemberKey, string>, uses: map<UseKey, string>) {
    && (forall k | k in byID ::
          && EventKey(byID[k].base) == k
          && if byID[k].source.Member?
             then MemberKeyOf(byID[k]) in members && members[MemberKeyOf(byID[k])] == k.1
             else UseKeyOf(byID[k]) in uses && uses[UseKeyOf(byID[k])] == k.1)
    && (forall m | m in members ::
          (m.0, members[m]) in byID && byID[(m.0, members[m])].source.Member? && MemberKeyOf(byID[(m.0, members[m])]) == m)
    && (forall u | u in uses ::
          (u.0, uses[u]) in byID && !byID[(u.0, uses[u])].source.Member? && UseKeyOf(byID[(u.0, uses[u])]) == u)
  }

  predicate KeyTaken(members: map<MemberKey, string>, uses: map<UseKey, string>, ev: PatternEvent) {
    if ev.source.Member? then MemberKeyOf(ev) in members else UseKeyOf(ev) in uses
  }

  lemma PatternCreateKeeps(byID: PatternEvents, members: map<MemberKey, string>, uses: map<UseKey, string>, ev: PatternEvent)
    requires PatternIndexed(byID, members, uses) && EventKey(ev.base) !in byID && !KeyTaken(members, uses, ev)
    ensures PatternIndexed(byID[EventKey(ev.base) := ev],
                           if ev.source.Member? then members[MemberKeyOf(ev) := ev.base.id] else members,
                           if ev.source.Member? then uses else uses[UseKeyOf(ev) := ev.base.id])
  {
  }

  function Restatus(ev: PatternEvent, status: EventStatus): PatternEvent {
    ev.(base := ev.base.(status := status))
  }

  lemma PatternRestatusKeeps(byID: PatternEvents, members: map<MemberKey, string>, uses: map<UseKey, string>,
                             k: Key, status: EventStatus)
    requires PatternIndexed(byID, members, uses) && k in byID
    ensures PatternIndexed(byID[k := Restatus(byID[k], status)], members, uses)
  {
  }

  lemma RestatusBase(byID: PatternEvents, k: Key, status: EventStatus)
    requires k in byID
    ensures Bases(byID[k := Restatus(byID[k], status)]) == Bases(byID)[k := byID[k].base.(status := status)]
  {
  }

  /** Two events of one member event for the same pattern, or two of one feedback, pattern and
      source, are the same event. */
  lemma PatternEventsAreUnique(byID: PatternEvents, members: map<MemberKey, string>, uses: map<UseKey, string>, k: Key, m: Key)
    requires PatternIndexed(byID, members, uses) && k in byID && m in byID
    requires byID[k].source == byID[m].source && byID[k].base.tenant == byID[m].base.tenant
    requires byID[k].base.experience == byID[m].base.experience
    requires byID[k].source.Member? || byID[k].base.feedback == byID[m].base.feedback
    ensures k == m
  {
  }

  class MemoryPatternEventRepository {
    var byID: PatternEvents
    var memberKey: map<MemberKey, string>
    var usageKey: map<UseKey, string>
    var byFeedback: map<FeedbackKey, seq<string>>
    ghost var order: seq<Key>

    constructor ()
      ensures Valid() && byID == map[] && order == []
    {
      byID, memberKey, usageKey, byFeedback, order := map[], map[], map[], map[], [];
    }

    ghost predicate Valid()
      reads this
    {
      PatternIndexed(byID, memberKey, usageKey) && Listed(Bases(byID), byFeedback) && Ordered(Bases(byID), order)
    }

    method Create(ev: PatternEvent) returns (ok: bool)
      requires Valid() && EventKey(ev.base) !in byID
      modifies this
      ensures Valid()
      ensures ok <==> !KeyTaken(old(memberKey), old(usageKey), ev)
      ensures byID == if ok then old(byID)[EventKey(ev.base) := ev] else old(byID)
      ensures order == if ok then old(order) + [EventKey(ev.base)] else old(order)
    {
      hide PatternIndexed, Listed, Ordered;
      if KeyTaken(memberKey, usageKey, ev) {
        return false;
      }
      PatternCreateKeeps(byID, memberKey, usageKey, ev);
      BasesKeyed(byID, memberKey, usageKey);
      ListedAfterCreate(Bases(byID), byFeedback, ev.base);
      OrderedAfterCreate(Bases(byID), order, ev.base);
      if ev.source.Member? {
        memberKey := memberKey[MemberKeyOf(ev) := ev.base.id];
      } else {
        usageKey := usageKey[UseKeyOf(ev) := ev.base.id];
      }
      assert Bases(byID[EventKey(ev.base) := ev]) == Bases(byID)[EventKey(ev.base) := ev.base];
      byID := byID[EventKey(ev.base) := ev];
      byFeedback := Enlist(byFeedback, ev.base);
      order := order + [EventKey(ev.base)];
      ok := true;
    }

    /** The events of one feedback, all of them. */
    method ListByFeedback(tenant: string, feedback: string) returns (out: seq<PatternEvent>)
      requires Valid()
      ensures forall i | 0 <= i < |out| ::
                && EventKey(out[i].base) in byID && byID[EventKey(out[i].base)] == out[i]
                && FeedbackOf(out[i].base) == (tenant, feedback)
      ensures forall k | k in byID && FeedbackOf(byID[k].base) == (tenant, feedback) :: byID[k] in out
      ensures forall i, j | 0 <= i < j < |out| :: EventKey(out[i].base) != EventKey(out[j].base)
    {
      hide Ordered;
      var fk := (tenant, feedback);
      var ids := if fk in byFeedback then byFeedback[fk] else [];
      assert ListsOnly(Bases(byID), fk, ids);
      out := [];
      for i := 0 to |ids|
        invariant |out| == i && forall j | 0 <= j < i :: (tenant, ids[j]) in byID && out[j] == byID[(tenant, ids[j])]
      {
        if (tenant, ids[i]) in byID {
          out := out + [byID[(tenant, ids[i])]];
        }
      }
      forall k | k in byID && FeedbackOf(byID[k].base) == (tenant, feedback) ensures byID[k] in out {
        assert k in Bases(byID);
        var j :| 0 <= j < |ids| && ids[j] == k.1;
        assert out[j] == byID[k];
      }
    }

    /** MarkApplied and MarkFailed. */
    method Mark(k: Key, status: EventStatus) returns (ok: bool)
      requires Valid()
      modifies this`byID
      ensures Valid() && (ok <==> k in old(byID))
      ensures byID == if ok then old(byID)[k := Restatus(old(byID)[k], status)] else old(byID)
    {
      hide PatternIndexed, Listed, Ordered;
      if k !in byID {
        return false;
      }
      PatternRestatusKeeps(byID, memberKey, usageKey, k, status);
      RestatusBase(byID, k, status);
      ListedRestatus(Bases(byID), byFeedback, order, k, status);
      byID := byID[k := Restatus(byID[k], status)];
      ok := true;
    }
  }

  lemma BasesKeyed(byID: PatternEvents, members: map<MemberKey, string>, uses: map<UseKey, string>)
    requires PatternIndexed(byID, members, uses)
    ensures forall k | k in Bases(byID) :: EventKey(Bases(byID)[k]) == k
  {
  }

  lemma OrderedAfterCreate(events: Events, order: seq<Key>, ev: Event)
    requires Ordered(events, order) && EventKey(ev) !in events
    ensures Ordered(events[EventKey(ev) := ev], order + [EventKey(ev)])
  {
  }

  lemma ListedRestatus(events: Events, byFeedback: map<FeedbackKey, seq<string>>, order: seq<Key>, k: Key, status: EventStatus)
    requires Listed(events, byFeedback) && Ordered(events, order) && k in events
    ensures Listed(events[k := events[k].(status := status)], byFeedback)
    ensures Ordered(events[k := events[k].(status := status)], order)
  {
    forall f | f in byFeedback ensures ListsOnly(events[k := events[k].(status := status)], f, byFeedback[f]) {
      assert ListsOnly(events, f, byFeedback[f]);
    }
  }

  // ---------------------------------------------------------------- the books of the patterns

  datatype PatternBooks = PatternBooks(
    data: map<Key, Pattern>,
    order: seq<Key>,
    events: Events,
    initial: map<Key, Pattern>,
    leaked: map<Key, Totals>)

  function PatternKey(p: Pattern): Key { (p.tenant, p.id) }

  ghost predicate PatternsKept(b: PatternBooks) {
    && Ordered(b.events, b.order) && SoundConfidences(b.events)
    && (forall k | k in b.data :: PatternKey(b.data[k]) == k && k in b.initial && k in b.leaked && Proper(b.leaked[k]))
  }

  /** Every pattern is where its APPLIED events and the leaks put it, except that k is ahead by d. */
  ghost predicate PatternsBalancedBut(b: PatternBooks, k: Key, d: Totals) {
    && PatternsKept(b)
    && forall x | x in b.data ::
         PatternStands(b.data[x], b.initial[x],
                       if x == k then Plus(Recorded(b.order, b.events, b.leaked, x), d)
                       else Recorded(b.order, b.events, b.leaked, x))
  }

  ghost predicate PatternsBalanced(b: PatternBooks) {
    && PatternsKept(b)
    && forall x | x in b.data :: PatternStands(b.data[x], b.initial[x], Recorded(b.order, b.events, b.leaked, x))
  }

  /** An empty pattern ledger balances. */
  lemma NewPatternBooks(data: map<Key, Pattern>, leaked: map<Key, Totals>)
    requires forall k | k in data :: PatternKey(data[k]) == k && k in leaked
    requires forall k | k in leaked :: leaked[k] == NOTHING
    ensures PatternsBalanced(PatternBooks(data, [], map[], data, leaked))
  {
    hide PatternStands, Proper, Plus;
    NothingIsProper();
    var b := PatternBooks(data, [], map[], data, leaked);
    forall k | k in data ensures PatternStands(b.data[k], b.initial[k], Recorded(b.order, b.events, b.leaked, k)) {
      PlusNothing(NOTHING);
      PatternStandsAtFirst(data[k]);
    }
  }

  lemma PatternStandsAtFirst(p: Pattern)
    ensures PatternStands(p, p, NOTHING)
  {
  }

  lemma PatternUpdateLands(b: PatternBooks, ev: Event)
    requires PatternsBalanced(b) && Subject(ev) in b.data && 0.0 <= ev.confidence <= 1.0
    ensures var p := b.data[Subject(ev)];
            var u := ApplyPatternBetaUpdate(p, Amount(ev), ev.confidence);
            && u.Some? && PatternKey(MaybePromote(u.value)) == Subject(ev)
            && PatternsBalancedBut(b.(data := b.data[Subject(ev) := MaybePromote(u.value)]), Subject(ev), DeltaOf(ev))
  {
    hide PatternStands, Delta, Amount, Utility, Plus, Proper, SeedBeta;
    var k := Subject(ev);
    PatternRecordedIsProper(b, k);
    PatternStandsAfter(b.data[k], b.initial[k], Recorded(b.order, b.events, b.leaked, k), Amount(ev), ev.confidence);
    PatternUpdateMoves(b.data[k], Amount(ev), ev.confidence);
  }

  lemma PatternRecordedIsProper(b: PatternBooks, k: Key)
    requires PatternsKept(b) && k in b.data
    ensures Proper(Recorded(b.order, b.events, b.leaked, k))
  {
    AppliedIsProper(b.order, b.events, k);
    SumIsProper(AppliedTotals(b.order, b.events, k), b.leaked[k]);
  }

  lemma PatternMarkLands(b: PatternBooks, ev: Event)
    requires PatternsBalancedBut(b, Subject(ev), DeltaOf(ev)) && EventKey(ev) in b.events && b.events[EventKey(ev)] == ev
    requires ev.status != Applied && 0.0 <= ev.confidence <= 1.0
    ensures PatternsBalanced(b.(events := b.events[EventKey(ev) := ev.(status := Applied)]))
  {
    hide PatternStands, DeltaOf;
    var b' := b.(events := b.events[EventKey(ev) := ev.(status := Applied)]);
    forall x | x in b'.data
      ensures PatternStands(b'.data[x], b'.initial[x], Recorded(b'.order, b'.events, b'.leaked, x))
    {
      MarkingAdds(b.order, b.events, EventKey(ev), x);
      PlusSwaps(AppliedTotals(b.order, b.events, x), DeltaOf(ev), b.leaked[x]);
    }
  }

  lemma PatternLeakLands(b: PatternBooks, k: Key, d: Totals)
    requires PatternsBalancedBut(b, k, d) && k in b.data && Proper(d)
    ensures PatternsBalanced(b.(leaked := b.leaked[k := Plus(b.leaked[k], d)]))
  {
    hide PatternStands;
    SumIsProper(b.leaked[k], d);
    var b' := b.(leaked := b.leaked[k := Plus(b.leaked[k], d)]);
    forall x | x in b'.data
      ensures PatternStands(b'.data[x], b'.initial[x], Recorded(b'.order, b'.events, b'.leaked, x))
    {
      PlusAssociates(AppliedTotals(b.order, b.events, x), b.leaked[x], d);
    }
  }

  /** Events that move nothing yet leave the books balanced: a new one, or one marked FAILED. */
  lemma QuietEventKeeps(b: PatternBooks, events': Events, k: Key)
    requires PatternsBalanced(b) && Quiet(b.events, events', k)
    requires Ordered(events', Grown(b.order, b.events, k))
    ensures PatternsBalanced(b.(order := Grown(b.order, b.events, k), events := events'))
  {
    hide PatternStands, DeltaOf, Plus;
    var b' := b.(order := Grown(b.order, b.events, k), events := events');
    forall x | x in b'.data
      ensures PatternStands(b'.data[x], b'.initial[x], Recorded(b'.order, b'.events, b'.leaked, x))
    {
      QuietTotals(b.order, b.events, events', k, x);
    }
  }
}
