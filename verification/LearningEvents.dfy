/** The uniquely keyed ledger of learning events (internal/learning/event.go,
    internal/learning/event_memory.go). */
module LearningEvents {
  import opened BetaLedger
  import opened ExperienceStore
  import opened Wrappers

  datatype EventStatus = Pending | Applied | Failed

  /** One incremental update of one experience, derived from one feedback. */
  datatype Event = Event(
    tenant: string,
    id: string,
    feedback: string,
    episode: string,
    experience: string,
    reward: real,
    confidence: real,
    credit: real,
    effective: real,
    status: EventStatus)

  type UniqueKey = (string, string, string)
  type FeedbackKey = (string, string)
  type Events = map<Key, Event>

  function EventKey(ev: Event): Key { (ev.tenant, ev.id) }

  function Unique(ev: Event): UniqueKey { (ev.tenant, ev.feedback, ev.experience) }

  function FeedbackOf(ev: Event): FeedbackKey { (ev.tenant, ev.feedback) }

  /** The experience it moves. */
  function Subject(ev: Event): Key { (ev.tenant, ev.experience) }

  /** What it moves the experience by. */
  function DeltaOf(ev: Event): Totals { Delta(Amount(ev), ev.confidence) }

  /** The experience's share of the reward. */
  function Amount(ev: Event): real { ev.reward * ev.credit }

  // ---------------------------------------------------------------- what the applied events amount to

  function Contribution(ev: Event, target: Key): Totals {
    if ev.status == Applied && Subject(ev) == target then DeltaOf(ev) else NOTHING
  }

  /** The sum of the APPLIED events of one experience. */
  function AppliedTotals(order: seq<Key>, events: Events, target: Key): Totals
    requires forall i | 0 <= i < |order| :: order[i] in events
  {
    if order == [] then NOTHING
    else Plus(AppliedTotals(order[..|order| - 1], events, target), Contribution(events[order[|order| - 1]], target))
  }

  /** Events that are not among those summed do not matter. */
  lemma {:induction false} TotalsFrame(order: seq<Key>, events: Events, events': Events, target: Key)
    requires forall i | 0 <= i < |order| :: order[i] in events && order[i] in events'
    requires forall i | 0 <= i < |order| ::
      Contribution(events'[order[i]], target) == Contribution(events[order[i]], target)
    ensures AppliedTotals(order, events', target) == AppliedTotals(order, events, target)
  {
    if order != [] {
      TotalsFrame(order[..|order| - 1], events, events', target);
    }
  }

  lemma DeltaIgnoresStatus(ev: Event, status: EventStatus)
    ensures DeltaOf(ev.(status := status)) == DeltaOf(ev)
  {
  }

  /** Marking one event APPLIED adds exactly its delta, for its experience only. */
  lemma {:induction false} MarkingAdds(order: seq<Key>, events: Events, k: Key, target: Key)
    requires forall i | 0 <= i < |order| :: order[i] in events
    requires forall i, j | 0 <= i < j < |order| :: order[i] != order[j]
    requires k in order && k in events && events[k].status != Applied
    ensures AppliedTotals(order, events[k := events[k].(status := Applied)], target) ==
            Plus(AppliedTotals(order, events, target),
                 if Subject(events[k]) == target then DeltaOf(events[k]) else NOTHING)
  {
    hide DeltaOf, Plus;
    var n := |order| - 1;
    var events' := events[k := events[k].(status := Applied)];
    var front := AppliedTotals(order[..n], events, target);
    DeltaIgnoresStatus(events[k], Applied);
    if order[n] == k {
      TotalsFrame(order[..n], events, events', target);
      PlusNothing(front);
    } else {
      MarkingAdds(order[..n], events, k, target);
      PlusSwaps(front, if Subject(events[k]) == target then DeltaOf(events[k]) else NOTHING, Contribution(events[order[n]], target));
    }
  }

  /** Event k is new or got another status, and is not APPLIED before or after. */
  predicate Quiet(events: Events, events': Events, k: Key) {
    && k in events' && events'[k].status != Applied
    && (k in events ==> events[k].status != Applied)
    && events' == events[k := events'[k]]
  }

  function Grown(order: seq<Key>, events: Events, k: Key): seq<Key> {
    if k in events then order else order + [k]
  }

  /** Such an event does not change what the APPLIED events amount to. */
  lemma QuietTotals(order: seq<Key>, events: Events, events': Events, k: Key, target: Key)
    requires Quiet(events, events', k)
    requires forall i | 0 <= i < |order| :: order[i] in events
    ensures forall i | 0 <= i < |Grown(order, events, k)| :: Grown(order, events, k)[i] in events'
    ensures AppliedTotals(Grown(order, events, k), events', target) == AppliedTotals(order, events, target)
  {
    hide DeltaOf, Plus;
    TotalsFrame(order, events, events', target);
    if k !in events {
      var order' := order + [k];
      assert order'[..|order|] == order;
      PlusNothing(AppliedTotals(order, events', target));
    }
  }

  ghost predicate SoundConfidences(events: Events) {
    forall k | k in events && events[k].status == Applied :: 0.0 <= events[k].confidence <= 1.0
  }

  lemma NothingIsProper()
    ensures Proper(NOTHING)
  {
  }

  lemma EventIsProper(ev: Event)
    requires 0.0 <= ev.confidence <= 1.0
    ensures Proper(DeltaOf(ev))
  {
    DeltaIsProper(Amount(ev), ev.confidence);
  }

  lemma SumIsProper(a: Totals, b: Totals)
    requires Proper(a) && Proper(b)
    ensures Proper(Plus(a, b))
  {
  }

  lemma {:induction false} AppliedIsProper(order: seq<Key>, events: Events, target: Key)
    requires (forall i | 0 <= i < |order| :: order[i] in events) && SoundConfidences(events)
    ensures Proper(AppliedTotals(order, events, target))
  {
    hide DeltaOf, Proper, Plus;
    NothingIsProper();
    if order != [] {
      AppliedIsProper(order[..|order| - 1], events, target);
      var ev := events[order[|order| - 1]];
      if ev.status == Applied {
        EventIsProper(ev);
      }
      SumIsProper(AppliedTotals(order[..|order| - 1], events, target), Contribution(ev, target));
    }
  }

  // ---------------------------------------------------------------- the store

  /** Every event is under its own key, and under its unique key there is no other. */
  ghost predicate Indexed(byID: Events, unique: map<UniqueKey, string>) {
    && (forall k | k in byID :: EventKey(byID[k]) == k && Unique(byID[k]) in unique && unique[Unique(byID[k])] == k.1)
    && (forall u | u in unique :: (u.0, unique[u]) in byID && Unique(byID[(u.0, unique[u])]) == u)
  }

  ghost predicate ListsOnly(byID: Events, f: FeedbackKey, ids: seq<string>) {
    && (forall i | 0 <= i < |ids| :: (f.0, ids[i]) in byID && FeedbackOf(byID[(f.0, ids[i])]) == f)
    && (forall i, j | 0 <= i < j < |ids| :: ids[i] != ids[j])
  }

  /** The events of a feedback are exactly those listed under it. */
  ghost predicate Listed(byID: Events, byFeedback: map<FeedbackKey, seq<string>>) {
    && (forall f | f in byFeedback :: ListsOnly(byID, f, byFeedback[f]))
    && (forall k | k in byID :: FeedbackOf(byID[k]) in byFeedback && k.1 in byFeedback[FeedbackOf(byID[k])])
  }

  /** `order` lists the events in the order of their creation. */
  ghost predicate Ordered(byID: Events, order: seq<Key>) {
    && (forall i | 0 <= i < |order| :: order[i] in byID)
    && (forall i, j | 0 <= i < j < |order| :: order[i] != order[j])
    && (forall k | k in byID :: k in order)
  }

  lemma RestatusKeeps(byID: Events, unique: map<UniqueKey, string>, byFeedback: map<FeedbackKey, seq<string>>,
                      order: seq<Key>, k: Key, status: EventStatus)
    requires Indexed(byID, unique) && Listed(byID, byFeedback) && Ordered(byID, order) && k in byID
    ensures var byID' := byID[k := byID[k].(status := status)];
            Indexed(byID', unique) && Listed(byID', byFeedback) && Ordered(byID', order)
  {
    var byID' := byID[k := byID[k].(status := status)];
    forall f | f in byFeedback ensures ListsOnly(byID', f, byFeedback[f]) {
      assert ListsOnly(byID, f, byFeedback[f]);
    }
  }

  function Enlist(byFeedback: map<FeedbackKey, seq<string>>, ev: Event): map<FeedbackKey, seq<string>> {
    var f := FeedbackOf(ev);
    byFeedback[f := (if f in byFeedback then byFeedback[f] else []) + [ev.id]]
  }

  lemma CreateKeeps(byID: Events, unique: map<UniqueKey, string>, byFeedback: map<FeedbackKey, seq<string>>,
                    order: seq<Key>, ev: Event)
    requires Indexed(byID, unique) && Listed(byID, byFeedback) && Ordered(byID, order)
    requires EventKey(ev) !in byID && Unique(ev) !in unique
    ensures var byID' := byID[EventKey(ev) := ev];
            && Indexed(byID', unique[Unique(ev) := ev.id])
            && Listed(byID', Enlist(byFeedback, ev))
            && Ordered(byID', order + [EventKey(ev)])
  {
    ListedAfterCreate(byID, byFeedback, ev);
    hide Listed;
  }

  lemma ListedAfterCreate(byID: Events, byFeedback: map<FeedbackKey, seq<string>>, ev: Event)
    requires Listed(byID, byFeedback) && EventKey(ev) !in byID
    requires forall k | k in byID :: EventKey(byID[k]) == k
    ensures Listed(byID[EventKey(ev) := ev], Enlist(byFeedback, ev))
  {
    var byID', byFeedback' := byID[EventKey(ev) := ev], Enlist(byFeedback, ev);
    forall f | f in byFeedback' ensures ListsOnly(byID', f, byFeedback'[f]) {
      if f in byFeedback {
        assert ListsOnly(byID, f, byFeedback[f]);
      }
    }
    forall k | k in byID' ensures FeedbackOf(byID'[k]) in byFeedback' && k.1 in byFeedback'[FeedbackOf(byID'[k])] {
      if k == EventKey(ev) {
        var ids := byFeedback'[FeedbackOf(ev)];
        assert ids[|ids| - 1] == ev.id;
      } else {
        var f := FeedbackOf(byID[k]);
        var i :| 0 <= i < |byFeedback[f]| && byFeedback[f][i] == k.1;
        assert byFeedback'[f][i] == k.1;
      }
    }
  }

  class MemoryEventRepository {
    var byID: Events
    var unique: map<UniqueKey, string>
    var byFeedback: map<FeedbackKey, seq<string>>
    ghost var order: seq<Key>

    constructor ()
      ensures Valid() && byID == map[] && order == []
    {
      byID, unique, byFeedback, order := map[], map[], map[], [];
    }

    ghost predicate Valid()
      reads this
    {
      Indexed(byID, unique) && Listed(byID, byFeedback) && Ordered(byID, order)
    }

    /** At most one event per tenant, feedback and experience. */
    method Create(ev: Event) returns (ok: bool)
      requires Valid() && EventKey(ev) !in byID
      modifies this
      ensures Valid()
      ensures ok <==> Unique(ev) !in old(unique)
      ensures byID == if ok then old(byID)[EventKey(ev) := ev] else old(byID)
      ensures order == if ok then old(order) + [EventKey(ev)] else old(order)
      ensures unique == if ok then old(unique)[Unique(ev) := ev.id] else old(unique)
    {
      hide Indexed, Listed, Ordered;
      if Unique(ev) in unique {
        return false;
      }
      CreateKeeps(byID, unique, byFeedback, order, ev);
      byID := byID[EventKey(ev) := ev];
      unique := unique[Unique(ev) := ev.id];
      byFeedback := Enlist(byFeedback, ev);
      order := order + [EventKey(ev)];
      ok := true;
    }

    method GetByFeedbackExperience(tenant: string, feedback: string, experience: string) returns (r: Option<Event>)
      requires Valid()
      ensures r.Some? <==> (tenant, feedback, experience) in unique
      ensures r.Some? ==> EventKey(r.value) in byID && byID[EventKey(r.value)] == r.value
                          && Unique(r.value) == (tenant, feedback, experience)
    {
      hide Listed, Ordered;
      if (tenant, feedback, experience) !in unique {
        return None;
      }
      return Some(byID[(tenant, unique[(tenant, feedback, experience)])]);
    }

    method ListByFeedback(tenant: string, feedback: string) returns (out: seq<Event>)
      requires Valid()
      ensures forall i | 0 <= i < |out| ::
                EventKey(out[i]) in byID && byID[EventKey(out[i])] == out[i] && FeedbackOf(out[i]) == (tenant, feedback)
      ensures forall k | k in byID && FeedbackOf(byID[k]) == (tenant, feedback) :: byID[k] in out
      ensures forall i, j | 0 <= i < j < |out| :: EventKey(out[i]) != EventKey(out[j])
    {
      hide Ordered;
      var fk := (tenant, feedback);
      var ids := if fk in byFeedback then byFeedback[fk] else [];
      assert ListsOnly(byID, fk, ids);
      out := [];
      for i := 0 to |ids|
        invariant |out| == i && forall j | 0 <= j < i :: (tenant, ids[j]) in byID && out[j] == byID[(tenant, ids[j])]
      {
        if (tenant, ids[i]) in byID {
          out := out + [byID[(tenant, ids[i])]];
        }
      }
      forall k | k in byID && FeedbackOf(byID[k]) == (tenant, feedback) ensures byID[k] in out {
        var j :| 0 <= j < |ids| && ids[j] == k.1;
        assert out[j] == byID[k];
      }
    }

    method MarkApplied(k: Key) returns (ok: bool)
      requires Valid()
      modifies this`byID
      ensures Valid() && (ok <==> k in old(byID))
      ensures byID == if ok then old(byID)[k := old(byID)[k].(status := Applied)] else old(byID)
    {
      hide Indexed, Listed, Ordered;
      if k !in byID {
        return false;
      }
      RestatusKeeps(byID, unique, byFeedback, order, k, Applied);
      byID := byID[k := byID[k].(status := Applied)];
      ok := true;
    }

    /** Unguarded: it would also mark an APPLIED event. */
    method MarkFailed(k: Key) returns (ok: bool)
      requires Valid()
      modifies this`byID
      ensures Valid() && (ok <==> k in old(byID))
      ensures byID == if ok then old(byID)[k := old(byID)[k].(status := Failed)] else old(byID)
    {
      hide Indexed, Listed, Ordered;
      if k !in byID {
        return false;
      }
      RestatusKeeps(byID, unique, byFeedback, order, k, Failed);
      byID := byID[k := byID[k].(status := Failed)];
      ok := true;
    }
  }
}
