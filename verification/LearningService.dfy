/** Feedback becomes learning events, and each event moves a posterior once
    (internal/learning/service.go). */
module LearningService {
  import opened Attribution
  import opened BetaLedger
  import opened EventApplier
  import opened ExperienceStore
  import opened Interference
  import opened LearningEvents
  import opened PatternLearning
  import opened PatternService

  /** Episode-level feedback is about no particular experience, action or tool. */
  predicate EpisodeLevel(target: Target) { target.Episode? }

  /** What one call was asked to learn. */
  datatype Feedback = Feedback(tenant: string, episode: string, id: string, reward: real, confidence: real, target: Target)

  function KeyOfFeedback(f: Feedback): FeedbackKey { (f.tenant, f.id) }

  /** The event of one credit. */
  predicate IsEventOf(ev: Event, f: Feedback, c: Credit) {
    && FeedbackOf(ev) == KeyOfFeedback(f) && ev.experience == c.experience
    && ev.reward == f.reward && ev.confidence == f.confidence && ev.credit == c.weight
    && ev.effective == EffectiveReward(f.reward, f.confidence, c.weight)
  }

  /** A selected experience with its scores; `kept` is KEEP or COMPRESS. */
  datatype Selection = Selection(usage: Usage, kept: bool)

  /** It entered the context; an empty context list stands for no restriction. */
  predicate Enters(sel: Selection, context: set<string>) {
    sel.kept && (context != {} ==> sel.usage.experience in context)
  }

  function Entered(selections: seq<Selection>, context: set<string>): seq<Usage> {
    if selections == [] then []
    else
      Entered(selections[..|selections| - 1], context) +
      (if Enters(selections[|selections| - 1], context) then [selections[|selections| - 1].usage] else [])
  }

  function Named(used: seq<Usage>): seq<Usage> {
    if used == [] then []
    else Named(used[..|used| - 1]) + (if used[|used| - 1].experience != "" then [used[|used| - 1]] else [])
  }

  function Occurrences(used: seq<Usage>, experience: string): nat {
    if used == [] then 0
    else Occurrences(used[..|used| - 1], experience) + if used[|used| - 1].experience == experience then 1 else 0
  }

  function Used(e: Experience): Experience { e.(useCount := e.useCount + 1, version := e.version + 1) }

  predicate CountedUses(before: Experience, after: Experience, n: nat) {
    after == before.(useCount := before.useCount + n, version := before.version + n)
  }

  ghost predicate UsesCounted(tenant: string, before: map<Key, Experience>, after: map<Key, Experience>, used: seq<Usage>) {
    && after.Keys == before.Keys
    && forall k | k in before :: CountedUses(before[k], after[k], if k.0 == tenant then Occurrences(used, k.1) else 0)
  }

  /** No use of these is forgotten, whatever others write. */
  ghost predicate UsesAtLeast(tenant: string, before: map<Key, Experience>, after: map<Key, Experience>, used: seq<Usage>) {
    && after.Keys == before.Keys
    && forall k | k in before ::
         after[k].useCount >= before[k].useCount + if k.0 == tenant then Occurrences(used, k.1) else 0
  }

  lemma NothingEntered(selections: seq<Selection>, context: set<string>)
    ensures Entered(selections[..0], context) == []
  {
  }

  lemma EntersNext(selections: seq<Selection>, i: nat, context: set<string>)
    requires i < |selections|
    ensures Entered(selections[..i + 1], context) ==
            Entered(selections[..i], context) + (if Enters(selections[i], context) then [selections[i].usage] else [])
  {
    assert selections[..i + 1][..i] == selections[..i];
  }

  lemma NothingCounted(tenant: string, data: map<Key, Experience>)
    ensures UsesCounted(tenant, data, data, []) && UsesAtLeast(tenant, data, data, [])
  {
  }

  lemma CountsNext(tenant: string, data0: map<Key, Experience>, data: map<Key, Experience>, data': map<Key, Experience>,
                   used: seq<Usage>, u: Usage)
    requires UsesCounted(tenant, data0, data, used) && (tenant, u.experience) in data
    requires data' == data[(tenant, u.experience) := Used(data[(tenant, u.experience)])]
    ensures UsesCounted(tenant, data0, data', used + [u])
  {
    assert (used + [u])[..|used|] == used;
  }

  lemma AtLeastNext(tenant: string, data0: map<Key, Experience>, data: map<Key, Experience>, data': map<Key, Experience>,
                    used: seq<Usage>, u: Usage)
    requires UsesAtLeast(tenant, data0, data, used) && UsesKept(data, data') && (tenant, u.experience) in data
    requires data'[(tenant, u.experience)].useCount > data[(tenant, u.experience)].useCount
    ensures UsesAtLeast(tenant, data0, data', used + [u])
  {
    assert (used + [u])[..|used|] == used;
  }

  lemma AllAtLeast(tenant: string, data0: map<Key, Experience>, data: map<Key, Experience>, used: seq<Usage>)
    requires UsesAtLeast(tenant, data0, data, used)
    ensures forall k | k in data ::
              k in data0 && data[k].useCount >= data0[k].useCount + if k.0 == tenant then Occurrences(used, k.1) else 0
  {
    hide Occurrences;
  }

  lemma AllCounted(tenant: string, data0: map<Key, Experience>, data: map<Key, Experience>, used: seq<Usage>)
    requires UsesCounted(tenant, data0, data, used)
    ensures forall k | k in data :: k in data0 && CountedUses(data0[k], data[k], if k.0 == tenant then Occurrences(used, k.1) else 0)
  {
    hide Occurrences, CountedUses;
  }

  lemma SameRecords(tenant: string, data0: map<Key, Experience>, data: map<Key, Experience>, used: seq<Usage>)
    requires UsesAtLeast(tenant, data0, data, used)
    ensures data.Keys == data0.Keys
  {
  }

  /** Some credit is for this experience. */
  predicate HasCredit(credits: seq<Credit>, id: string) {
    exists i :: 0 <= i < |credits| && credits[i].experience == id
  }

  /** Without the credits that repeat an experience. */
  function Firsts(credits: seq<Credit>): seq<Credit> {
    if credits == [] then []
    else
      var front := credits[..|credits| - 1];
      var c := credits[|credits| - 1];
      if HasCredit(front, c.experience) then Firsts(front) else Firsts(front) + [c]
  }

  lemma FirstsNext(credits: seq<Credit>, i: nat)
    requires i < |credits|
    ensures Firsts(credits[..i + 1]) ==
            Firsts(credits[..i]) + (if HasCredit(credits[..i], credits[i].experience) then [] else [credits[i]])
  {
    assert credits[..i + 1][..i] == credits[..i];
  }

  lemma CreditsNext(credits: seq<Credit>, n: nat, id: string)
    requires n < |credits|
    ensures HasCredit(credits[..n + 1], id) <==> HasCredit(credits[..n], id) || credits[n].experience == id
  {
    if HasCredit(credits[..n], id) {
      var i :| 0 <= i < n && credits[..n][i].experience == id;
      assert credits[..n + 1][i].experience == id;
    }
    if credits[n].experience == id {
      assert credits[..n + 1][n].experience == id;
    }
    if HasCredit(credits[..n + 1], id) {
      var i :| 0 <= i < n + 1 && credits[..n + 1][i].experience == id;
      assert i < n ==> credits[..n][i].experience == id;
    }
  }

  lemma {:induction false} FirstsPrefix(credits: seq<Credit>, n: nat)
    requires n <= |credits|
    ensures Firsts(credits[..n]) <= Firsts(credits)
  {
    if n == |credits| {
      assert credits[..n] == credits;
    } else {
      var front := credits[..|credits| - 1];
      FirstsPrefix(front, n);
      assert front[..n] == credits[..n];
    }
  }

  /** Each credited experience keeps exactly one credit. */
  lemma {:induction false} FirstsCredit(credits: seq<Credit>)
    ensures DistinctIds(Firsts(credits)) && forall id :: HasCredit(Firsts(credits), id) <==> HasCredit(credits, id)
  {
    if credits != [] {
      var n := |credits| - 1;
      FirstsCredit(credits[..n]);
      assert credits[..n + 1] == credits;
      var front, heads := Firsts(credits[..n]), Firsts(credits);
      forall id ensures HasCredit(heads, id) <==> HasCredit(credits, id) {
        CreditsNext(credits, n, id);
        if !HasCredit(credits[..n], credits[n].experience) {
          assert heads[..|front|] == front && heads[|front|] == credits[n] && heads[..|front| + 1] == heads;
          CreditsNext(heads, |front|, id);
        }
      }
    }
  }

  lemma {:induction false} FirstsOfDistinct(credits: seq<Credit>)
    requires DistinctIds(credits)
    ensures Firsts(credits) == credits
  {
    if credits != [] {
      FirstsOfDistinct(credits[..|credits| - 1]);
    }
  }

  class Service {
    const applier: MemoryEventApplier
    const learner: PatternLearner
    const world: World
    var usages: map<(string, string), seq<Usage>>
    var patternUsages: map<(string, string), seq<Usage>>
    var links: map<(string, string), seq<Link>>
    const matches: (string, seq<string>) -> bool

    constructor (applier: MemoryEventApplier, learner: PatternLearner, matches: (string, seq<string>) -> bool)
      ensures this.applier == applier && this.learner == learner && this.world == applier.world
      ensures usages == map[] && patternUsages == map[] && links == map[]
    {
      this.applier, this.learner, this.world, this.matches := applier, learner, applier.world, matches;
      usages, patternUsages, links := map[], map[], map[];
    }

    /** Both ledgers balance, member events of patterns derive from APPLIED events, and all ids were
        minted. */
    ghost predicate Sound()
      reads applier, applier.experiences, applier.events, learner, learner.patterns, learner.events, world`minted
    {
      && applier.world == world && learner.world == world
      && applier.Balanced() && learner.Balanced() && learner.Minted() && Sourced()
      && forall k | k in applier.events.byID :: |k.1| < world.minted
    }

    /** A new service over empty ledgers is sound. */
    lemma StartsSound()
      requires applier.world == world && learner.world == world
      requires applier.events.Valid() && applier.events.byID == map[] && applier.events.order == []
      requires forall k | k in applier.experiences.data :: KeyOf(applier.experiences.data[k]) == k
      requires applier.initial == applier.experiences.data && applier.leaked == NoLeaks(applier.experiences.data.Keys)
      requires learner.events.Valid() && learner.events.byID == map[] && learner.events.order == []
      requires forall k | k in learner.patterns.byID :: PatternKey(learner.patterns.byID[k]) == k
      requires learner.initial == learner.patterns.byID && learner.leaked == NoLeaks(learner.patterns.byID.Keys)
      ensures Sound()
    {
      hide BalancedBooks, Indexed, Listed, Ordered, PatternsBalanced, PatternIndexed;
      applier.StartsBalanced();
      learner.StartsBalanced();
    }

    function UsagesOf(tenant: string, episode: string): seq<Usage>
      reads this`usages
    {
      if (tenant, episode) in usages then usages[(tenant, episode)] else []
    }

    function PatternUsagesOf(tenant: string, episode: string): seq<Usage>
      reads this`patternUsages
    {
      if (tenant, episode) in patternUsages then patternUsages[(tenant, episode)] else []
    }

    function LinksOf(tenant: string, episode: string): seq<Link>
      reads this`links
    {
      if (tenant, episode) in links then links[(tenant, episode)] else []
    }

    /** The patterns used in the episode: what episode-level feedback must not credit as members. */
    function Skip(f: Feedback): (used: set<string>)
      reads this`patternUsages
      ensures !f.target.Episode? ==> used == {}
    {
      if EpisodeLevel(f.target) then set u | u in PatternUsagesOf(f.tenant, f.episode) :: u.experience else {}
    }

    /** Member events of this feedback avoid the patterns in `used`; usage events stay within them. */
    ghost predicate SeparateIn(byID: PatternEvents, fk: FeedbackKey, used: set<string>) {
      forall k | k in byID && FeedbackOf(byID[k].base) == fk ::
        && (byID[k].source.Member? ==> byID[k].base.experience !in used)
        && (byID[k].source == PatternUse ==> byID[k].base.experience in used)
    }

    // -------------------------------------------------------------- what was used

    /** Notes the selected experiences that entered the context, and counts their use. A failure, also
        a version conflict, stops it where it is; the learning books are not touched. Whatever others
        write, no use is lost. */
    method RecordUsages(tenant: string, episode: string, selections: seq<Selection>, context: set<string>) returns (ok: bool)
      requires Sound()
      modifies this`usages, applier.experiences`data, world`log
      ensures Sound() && Later(old(world.log), world.log)
      ensures PosteriorsKept(old(applier.experiences.data), applier.experiences.data)
      ensures exists n :: 0 <= n <= |selections| && UsagesOf(tenant, episode) == old(UsagesOf(tenant, episode)) + Entered(selections[..n], context)
      ensures ok ==> UsagesOf(tenant, episode) == old(UsagesOf(tenant, episode)) + Entered(selections, context)
      ensures forall e | e != (tenant, episode) :: UsagesOf(e.0, e.1) == old(UsagesOf(e.0, e.1))
      ensures ok ==> forall k | k in applier.experiences.data ::
                && k in old(applier.experiences.data)
                && applier.experiences.data[k].useCount >= old(applier.experiences.data)[k].useCount
                     + if k.0 == tenant then Occurrences(Entered(selections, context), k.1) else 0
      ensures ok && world.log == old(world.log) ==>
                forall k | k in applier.experiences.data :: CountedUses(old(applier.experiences.data)[k], applier.experiences.data[k],
                  if k.0 == tenant then Occurrences(Entered(selections, context), k.1) else 0)
      ensures tenant == "" || episode == "" ==> !ok && usages == old(usages) && applier.experiences.data == old(applier.experiences.data)
      ensures tenant != "" && episode != "" && world.log == old(world.log) && old(AllStored(tenant, selections, context)) ==> ok
    {
      hide Sound, Entered, PosteriorsKept, CountedUses, Occurrences, UsesCounted, UsesAtLeast, UsesKept;
      KeptAtFirst(applier.experiences.data);
      NothingEntered(selections, context);
      NothingCounted(tenant, applier.experiences.data);
      if tenant == "" || episode == "" {
        return false;
      }
      for i := 0 to |selections|
        invariant Sound() && Later(old(world.log), world.log)
        invariant PosteriorsKept(old(applier.experiences.data), applier.experiences.data)
        invariant UsagesOf(tenant, episode) == old(UsagesOf(tenant, episode)) + Entered(selections[..i], context)
        invariant forall e | e != (tenant, episode) :: UsagesOf(e.0, e.1) == old(UsagesOf(e.0, e.1))
        invariant UsesAtLeast(tenant, old(applier.experiences.data), applier.experiences.data, Entered(selections[..i], context))
        invariant world.log == old(world.log) ==>
          UsesCounted(tenant, old(applier.experiences.data), applier.experiences.data, Entered(selections[..i], context))
      {
        EntersNext(selections, i, context);
        if !selections[i].kept || (context != {} && selections[i].usage.experience !in context) {
          assert Entered(selections[..i + 1], context) == Entered(selections[..i], context);
          continue;
        }
        ghost var entered, data := Entered(selections[..i], context), applier.experiences.data;
        SameRecords(tenant, old(applier.experiences.data), data, entered);
        ok := RecordUse(tenant, episode, selections[i].usage);
        KeptOn(old(applier.experiences.data), data, applier.experiences.data);
        if !ok {
          return;
        }
        AtLeastNext(tenant, old(applier.experiences.data), data, applier.experiences.data, entered, selections[i].usage);
        if world.log == old(world.log) {
          CountsNext(tenant, old(applier.experiences.data), data, applier.experiences.data, entered, selections[i].usage);
        }
      }
      assert selections[..|selections|] == selections;
      AllAtLeast(tenant, old(applier.experiences.data), applier.experiences.data, Entered(selections, context));
      if world.log == old(world.log) {
        AllCounted(tenant, old(applier.experiences.data), applier.experiences.data, Entered(selections, context));
      }
      ok := true;
    }

    /** Notes and counts one use. */
    method RecordUse(tenant: string, episode: string, u: Usage) returns (ok: bool)
      requires Sound()
      modifies this`usages, applier.experiences`data, world`log
      ensures Sound() && Later(old(world.log), world.log)
      ensures PosteriorsKept(old(applier.experiences.data), applier.experiences.data)
      ensures UsesKept(old(applier.experiences.data), applier.experiences.data)
      ensures UsagesOf(tenant, episode) == old(UsagesOf(tenant, episode)) + [u] || (!ok && usages == old(usages))
      ensures forall e | e != (tenant, episode) :: UsagesOf(e.0, e.1) == old(UsagesOf(e.0, e.1))
      ensures var k := (tenant, u.experience);
              && (ok ==> k in old(applier.experiences.data) && k in applier.experiences.data
                         && applier.experiences.data[k].useCount > old(applier.experiences.data)[k].useCount)
              && (ok && world.log == old(world.log) ==>
                    applier.experiences.data == old(applier.experiences.data)[k := Used(old(applier.experiences.data)[k])])
              && (world.log == old(world.log) && k in old(applier.experiences.data) ==> ok)
    {
      hide Sound, PosteriorsKept;
      KeptAtFirst(applier.experiences.data);
      var down := world.Fails();
      if down {
        return false;
      }
      usages := usages[(tenant, episode) := UsagesOf(tenant, episode) + [u]];
      ok := CountUse((tenant, u.experience));
    }

    /** Every selected experience that entered the context has its record. */
    predicate AllStored(tenant: string, selections: seq<Selection>, context: set<string>)
      reads applier.experiences
    {
      forall i | 0 <= i < |selections| && Enters(selections[i], context) ::
        (tenant, selections[i].usage.experience) in applier.experiences.data
    }

    /** Adds one use to the record as it was read. */
    method CountUse(k: Key) returns (ok: bool)
      requires Sound()
      modifies applier.experiences`data, world`log
      ensures Sound() && Later(old(world.log), world.log)
      ensures PosteriorsKept(old(applier.experiences.data), applier.experiences.data)
      ensures UsesKept(old(applier.experiences.data), applier.experiences.data)
      ensures ok ==> k in old(applier.experiences.data) && k in applier.experiences.data
                     && applier.experiences.data[k].useCount > old(applier.experiences.data)[k].useCount
      ensures ok && world.log == old(world.log) ==>
                && k in old(applier.experiences.data)
                && applier.experiences.data == old(applier.experiences.data)[k := Used(old(applier.experiences.data)[k])]
      ensures world.log == old(world.log) && k in old(applier.experiences.data) ==> ok
    {
      hide MemoryEventApplier.Balanced, PatternLearner.Balanced, SourcesApplied, PosteriorsKept, UsesKept;
      ok := CountInStore(k);
    }

    method CountInStore(k: Key) returns (ok: bool)
      requires applier.Balanced() && applier.world == world
      modifies applier.experiences`data, world`log
      ensures applier.Balanced() && Later(old(world.log), world.log)
      ensures PosteriorsKept(old(applier.experiences.data), applier.experiences.data)
      ensures UsesKept(old(applier.experiences.data), applier.experiences.data)
      ensures ok ==> k in old(applier.experiences.data) && k in applier.experiences.data
                     && applier.experiences.data[k].useCount > old(applier.experiences.data)[k].useCount
      ensures ok && world.log == old(world.log) ==>
                && k in old(applier.experiences.data)
                && applier.experiences.data == old(applier.experiences.data)[k := Used(old(applier.experiences.data)[k])]
      ensures world.log == old(world.log) && k in old(applier.experiences.data) ==> ok
    {
      hide BalancedBooks, BalancedBut, Indexed, Listed, Ordered, PosteriorsKept, UsesKept;
      ghost var b := applier.TheBooks();
      var exp := applier.Read(k);
      ghost var read := applier.experiences.data;
      OthersKeep(b, read, k, NOTHING);
      if exp.None? {
        return false;
      }
      BooksAreKeyed(b.(data := read));
      var w := applier.Write(exp.value.(useCount := exp.value.useCount + 1));
      ok := w.Some? && w.value.Saved?;
      applier.UsesStay(b.data, read, applier.experiences.data);
      if ok {
        KeptAtFirst(read);
        KeptBut(read, read, k, w.value.exp);
        KeptOn(b.data, read, applier.experiences.data);
        CountedHere(b.data, read, k);
      } else {
        KeptOn(b.data, read, applier.experiences.data);
      }
      OthersKeep(b, applier.experiences.data, k, NOTHING);
    }

    lemma CountedHere(data: map<Key, Experience>, read: map<Key, Experience>, k: Key)
      requires UsesKept(data, read) && k in read
      ensures k in data && read[k].useCount >= data[k].useCount
    {
    }

    /** The patterns that entered the context; blank ids are passed over. */
    method RecordPatternUsages(tenant: string, episode: string, used: seq<Usage>) returns (ok: bool)
      requires Sound()
      modifies this`patternUsages, world`log
      ensures Sound() && FaultsOnly(old(world.log), world.log) && (world.log == old(world.log) ==> ok)
      ensures ok ==> PatternUsagesOf(tenant, episode) == old(PatternUsagesOf(tenant, episode)) + Named(used)
      ensures forall e | e != (tenant, episode) :: PatternUsagesOf(e.0, e.1) == old(PatternUsagesOf(e.0, e.1))
    {
      hide Sound;
      for i := 0 to |used|
        invariant Sound() && FaultsOnly(old(world.log), world.log)
        invariant PatternUsagesOf(tenant, episode) == old(PatternUsagesOf(tenant, episode)) + Named(used[..i])
        invariant forall e | e != (tenant, episode) :: PatternUsagesOf(e.0, e.1) == old(PatternUsagesOf(e.0, e.1))
      {
        assert used[..i + 1][..i] == used[..i];
        if used[i].experience == "" {
          continue;
        }
        var down := world.Fails();
        if down {
          return false;
        }
        patternUsages := patternUsages[(tenant, episode) := PatternUsagesOf(tenant, episode) + [used[i]]];
      }
      assert used[..|used|] == used;
      ok := true;
    }

    // -------------------------------------------------------------- one event

    method MarkFailed(ev: Event)
      requires applier.Balanced() && EventKey(ev) in applier.events.byID && applier.events.byID[EventKey(ev)] == ev
      requires ev.status != Applied && applier.world == world
      modifies applier.events`byID, world`log
      ensures applier.Balanced() && FaultsOnly(old(world.log), world.log)
      ensures applier.events.byID == old(applier.events.byID)
              || applier.events.byID == old(applier.events.byID)[EventKey(ev) := ev.(status := Failed)]
    {
      hide Indexed, Listed, Ordered, BalancedBooks, DeltaOf;
      var down := world.Fails();
      if down {
        return;
      }
      ghost var b := applier.TheBooks();
      var ok := applier.events.MarkFailed(EventKey(ev));
      QuietKeeps(b, applier.events.byID, EventKey(ev));
    }

    /** The member events of this event, outside `skip`, are in the pattern ledger. */
    ghost predicate MembersDone(ev: Event, skip: set<string>)
      reads learner, learner.patterns, learner.events
    {
      learner.MembersDone(learner.events.byID, learner.TheGround(), ev, skip)
    }

    /** Applies an event that is not APPLIED yet, repeating after version conflicts, and derives the
        events of the patterns it supports. */
    method ApplyExistingEvent(ev: Event, skip: set<string>) returns (ok: bool)
      requires Sound() && EventKey(ev) in applier.events.byID && applier.events.byID[EventKey(ev)] == ev
      requires ev.status != Applied
      modifies applier.experiences`data, applier.events`byID, applier`leaked, learner.events, world
      ensures Sound() && applier.experiences.data.Keys == old(applier.experiences.data.Keys)
      ensures Later(old(world.log), world.log) && world.minted >= old(world.minted)
      ensures exists st :: applier.events.byID == old(applier.events.byID)[EventKey(ev) := ev.(status := st)]
                           && (ok ==> st == Applied)
      ensures learner.AddsOutside(old(learner.events.byID), learner.events.byID, learner.TheGround(), ev, skip)
      ensures old(learner.AllKnown(FeedbackOf(ev))) ==> learner.AllKnown(FeedbackOf(ev))
      ensures Mild(old(world.log), world.log) ==> applier.leaked == old(applier.leaked)
      ensures ok ==> MembersDone(ev, skip)
      ensures Ample(old(world.log), world.log) && Subject(ev) in old(applier.experiences.data) && 0.0 <= ev.confidence <= 1.0 ==> ok
    {
      hide Indexed, Listed, Ordered, BalancedBooks, PatternIndexed, PatternsBalanced, PatternLearner.AddsOutside,
           SourcesApplied, Amount, PatternLearner.MembersDone, PatternLearner.AllKnownIn;
      learner.AddsNothing(learner.events.byID, learner.TheGround(), ev, skip);
      var r := ApplyWithRetries(ev);
      if r.Failure? {
        assert applier.events.byID == applier.events.byID[EventKey(ev) := ev.(status := ev.status)];
        SourcesRestated(learner.events.byID, applier.events.byID, ev, Failed);
        MarkFailed(ev);
        assert applier.events.byID[EventKey(ev)] == ev || applier.events.byID[EventKey(ev)] == ev.(status := Failed);
        return false;
      }
      ghost var patternsBefore := learner.events.byID;
      ok := learner.EnqueueMemberEvents(ev, Amount(ev), ev.confidence, skip);
      SourcesGrow(patternsBefore, learner.events.byID, learner.TheGround(), applier.events.byID, ev, skip);
    }

    lemma SourcesRestated(a: PatternEvents, events: Events, ev: Event, st: EventStatus)
      requires SourcesApplied(a, events) && EventKey(ev) in events && events[EventKey(ev)] == ev && ev.status != Applied
      ensures SourcesApplied(a, events[EventKey(ev) := ev.(status := st)])
    {
      LedgerRestatus(events, EventKey(ev), st);
      SourcesStay(a, events, events[EventKey(ev) := ev.(status := st)], FeedbackOf(ev));
    }

    /** Repeats a call of the applier that gave up after version conflicts. Unless a store call fails, it
        can only fail by giving up every time, after as many conflicts as there are rounds in all. */
    method ApplyWithRetries(ev: Event) returns (r: ApplyResult)
      requires Sound() && EventKey(ev) in applier.events.byID && applier.events.byID[EventKey(ev)] == ev
      requires ev.status != Applied
      modifies applier.experiences`data, applier.events`byID, applier`leaked, world`log
      ensures Sound() && applier.experiences.data.Keys == old(applier.experiences.data.Keys)
      ensures Later(old(world.log), world.log)
      ensures if r.Failure? then applier.events.byID == old(applier.events.byID)
              else r.Done? && applier.events.byID == old(applier.events.byID)[EventKey(ev) := ev.(status := Applied)]
      ensures r.Done? ==> 0.0 <= ev.confidence <= 1.0
      ensures Mild(old(world.log), world.log) ==> applier.leaked == old(applier.leaked)
      ensures Ample(old(world.log), world.log) && Subject(ev) in old(applier.experiences.data) && 0.0 <= ev.confidence <= 1.0 ==> !r.Failure?
    {
      hide Indexed, Listed, Ordered, BalancedBooks, PatternIndexed, PatternsBalanced, SourcesApplied, UsesKept, PosteriorsKept,
           MemoryEventApplier.AppliedTo, MemoryEventApplier.Leaked;
      SourcesRestated(learner.events.byID, applier.events.byID, ev, Applied);
      ghost var ready := Subject(ev) in applier.experiences.data && 0.0 <= ev.confidence <= 1.0;
      for attempt := 0 to MAX_ATTEMPTS
        invariant Sound() && applier.experiences.data.Keys == old(applier.experiences.data.Keys)
        invariant applier.events.byID == old(applier.events.byID) && Later(old(world.log), world.log)
        invariant ready && world.log.faults == old(world.log).faults ==>
          world.log.conflicts >= old(world.log).conflicts + attempt * MAX_ATTEMPTS
        invariant Mild(old(world.log), world.log) ==> applier.leaked == old(applier.leaked)
      {
        r := ApplyRound(ev);
        if !r.Failure? || !r.conflict || attempt + 1 == MAX_ATTEMPTS {
          return;
        }
      }
      r := Failure(true);
    }

    /** One call of the applier. */
    method ApplyRound(ev: Event) returns (r: ApplyResult)
      requires Sound() && EventKey(ev) in applier.events.byID && applier.events.byID[EventKey(ev)] == ev
      requires ev.status != Applied && SourcesApplied(learner.events.byID, applier.events.byID[EventKey(ev) := ev.(status := Applied)])
      modifies applier.experiences`data, applier.events`byID, applier`leaked, world`log
      ensures Sound() && applier.experiences.data.Keys == old(applier.experiences.data.Keys)
      ensures Later(old(world.log), world.log)
      ensures if r.Failure? then applier.events.byID == old(applier.events.byID)
              else r.Done? && applier.events.byID == old(applier.events.byID)[EventKey(ev) := ev.(status := Applied)]
      ensures r.Done? ==> 0.0 <= ev.confidence <= 1.0
      ensures Mild(old(world.log), world.log) ==> applier.leaked == old(applier.leaked)
      ensures Subject(ev) in old(applier.experiences.data) && 0.0 <= ev.confidence <= 1.0
              && world.log.faults == old(world.log).faults && r.Failure? ==>
                r.conflict && world.log.conflicts >= old(world.log).conflicts + MAX_ATTEMPTS
    {
      hide Indexed, Listed, Ordered, BalancedBooks, PatternIndexed, PatternsBalanced, SourcesApplied, PosteriorsKept,
           MemoryEventApplier.AppliedTo, MemoryEventApplier.Leaked;
      ghost var refused, at;
      r, refused, at := applier.ApplyPendingEvent(ev);
      if r.Done? {
        AppliedInRange(at, ev, r.exp);
      }
    }

    lemma AppliedInRange(at: map<Key, Experience>, ev: Event, exp: Experience)
      requires applier.AppliedTo(at, ev, exp)
      ensures 0.0 <= ev.confidence <= 1.0
    {
      applier.UpdatableIff(at[Subject(ev)], ev);
    }

    /** Only events of this feedback were added or changed, those only in their status, and no
        APPLIED one. */
    ghost predicate LedgerStep(before: Events, after: Events, fk: FeedbackKey) {
      && (forall k | k in before :: k in after &&
            (|| after[k] == before[k]
             || (FeedbackOf(before[k]) == fk && before[k].status != Applied
                 && after[k] == before[k].(status := after[k].status))))
      && (forall k | k in after && k !in before :: FeedbackOf(after[k]) == fk)
    }

    lemma LedgerSteps(a: Events, b: Events, c: Events, fk: FeedbackKey)
      requires LedgerStep(a, b, fk) && LedgerStep(b, c, fk)
      ensures LedgerStep(a, c, fk)
    {
    }

    lemma LedgerStays(a: Events, fk: FeedbackKey)
      ensures LedgerStep(a, a, fk)
    {
    }

    lemma LedgerRestatus(a: Events, k: Key, st: EventStatus)
      requires k in a && a[k].status != Applied
      ensures LedgerStep(a, a[k := a[k].(status := st)], FeedbackOf(a[k]))
    {
    }

    /** The pattern of a member event is stored, learnable, and supported by the experience of its source. */
    predicate Backed(ev: PatternEvent, g: Ground, events: Events) {
      && ev.source.Member?
      && var source := (ev.base.tenant, ev.source.event);
         && source in events && FeedbackOf(events[source]) == FeedbackOf(ev.base)
         && learner.Supports(g, ev.base.tenant, events[source].experience, ev.base.experience)
    }

    /** Only member events of this feedback were added to the pattern ledger, each about a learnable pattern
        that the experience of its source supports, outside `skip`. */
    ghost predicate MembersOutside(before: PatternEvents, after: PatternEvents, g: Ground, events: Events, fk: FeedbackKey, skip: set<string>) {
      && (forall k | k in before :: k in after && after[k] == before[k])
      && (forall k | k in after && k !in before ::
            FeedbackOf(after[k].base) == fk && Backed(after[k], g, events) && after[k].base.experience !in skip)
    }

    lemma MembersTwice(a: PatternEvents, b: PatternEvents, c: PatternEvents, g: Ground, before: Events, after: Events, fk: FeedbackKey, skip: set<string>)
      requires MembersOutside(a, b, g, before, fk, skip) && MembersOutside(b, c, g, after, fk, skip) && LedgerStep(before, after, fk)
      ensures MembersOutside(a, c, g, after, fk, skip)
    {
    }

    lemma NoMembers(a: PatternEvents, g: Ground, events: Events, fk: FeedbackKey, skip: set<string>)
      ensures MembersOutside(a, a, g, events, fk, skip)
    {
    }

    lemma MembersOfOne(a: PatternEvents, b: PatternEvents, g: Ground, events: Events, ev: Event, skip: set<string>)
      requires learner.AddsOutside(a, b, g, ev, skip)
      requires EventKey(ev) in events && events[EventKey(ev)] == ev.(status := events[EventKey(ev)].status)
      ensures MembersOutside(a, b, g, events, FeedbackOf(ev), skip)
    {
    }

    /** Every member event of a pattern derives from an APPLIED experience event. */
    ghost predicate SourcesApplied(patternEvents: PatternEvents, events: Events) {
      forall k | k in patternEvents && patternEvents[k].source.Member? ::
        SourceApplied(patternEvents[k], events)
    }

    predicate SourceApplied(ev: PatternEvent, events: Events) {
      ev.source.Member? ==>
        var source := (ev.base.tenant, ev.source.event);
        source in events && events[source].status == Applied && learner.DerivedFrom(ev, events[source])
    }

    lemma SourcesGrow(a: PatternEvents, b: PatternEvents, g: Ground, events: Events, ev: Event, skip: set<string>)
      requires SourcesApplied(a, events) && learner.AddsOutside(a, b, g, ev, skip)
      requires EventKey(ev) in events && events[EventKey(ev)] == ev.(status := Applied)
      ensures SourcesApplied(b, events)
    {
      forall k | k in b && b[k].source.Member? ensures SourceApplied(b[k], events) {
        if k in a {
          assert SourceApplied(a[k], events);
        }
      }
    }

    lemma SourcesStay(a: PatternEvents, before: Events, after: Events, fk: FeedbackKey)
      requires SourcesApplied(a, before) && LedgerStep(before, after, fk)
      ensures SourcesApplied(a, after)
    {
      forall k | k in a && a[k].source.Member? ensures SourceApplied(a[k], after) {
        assert SourceApplied(a[k], before);
      }
    }

    lemma SourcesWithUses(a: PatternEvents, b: PatternEvents, events: Events, fk: FeedbackKey, used: set<string>)
      requires SourcesApplied(a, events) && learner.AddsWithin(a, b, fk, used)
      ensures SourcesApplied(b, events)
    {
      forall k | k in b && b[k].source.Member? ensures SourceApplied(b[k], events) {
        assert SourceApplied(a[k], events);
      }
    }

    lemma SourcesRestatus(a: PatternEvents, b: PatternEvents, events: Events, fk: FeedbackKey)
      requires SourcesApplied(a, events) && learner.OnlyRestatus(a, b, fk)
      ensures SourcesApplied(b, events)
    {
      forall k | k in b && b[k].source.Member? ensures SourceApplied(b[k], events) {
        assert SourceApplied(a[k], events);
      }
    }

    ghost predicate Sourced()
      reads learner, learner.events, applier, applier.events
    {
      SourcesApplied(learner.events.byID, applier.events.byID)
    }

    /** What applying events of a feedback keeps. */
    twostate predicate Progress(fk: FeedbackKey, skip: set<string>)
      reads this, applier, applier.experiences, applier.events, learner, learner.patterns, learner.events, world
    {
      && Sound() && applier.experiences.data.Keys == old(applier.experiences.data.Keys)
      && Later(old(world.log), world.log) && world.minted >= old(world.minted)
      && LedgerStep(old(applier.events.byID), applier.events.byID, fk)
      && MembersOutside(old(learner.events.byID), learner.events.byID, learner.TheGround(), applier.events.byID, fk, skip)
      && (Mild(old(world.log), world.log) ==> applier.leaked == old(applier.leaked))
      && (old(learner.AllKnown(fk)) ==> learner.AllKnown(fk))
    }

    /** ApplyExistingEvent as a step of its feedback. */
    method ApplyOne(ev: Event, skip: set<string>) returns (ok: bool)
      requires Sound() && EventKey(ev) in applier.events.byID && applier.events.byID[EventKey(ev)] == ev
      requires ev.status != Applied
      modifies applier.experiences`data, applier.events`byID, applier`leaked, learner.events, world
      ensures Progress(FeedbackOf(ev), skip)
      ensures applier.events.byID.Keys == old(applier.events.byID.Keys)
      ensures forall k | k in old(applier.events.byID) && k != EventKey(ev) :: applier.events.byID[k] == old(applier.events.byID)[k]
      ensures exists st :: applier.events.byID[EventKey(ev)] == ev.(status := st) && (ok ==> st == Applied)
      ensures ok ==> MembersDone(ev, skip)
      ensures Ample(old(world.log), world.log) && Subject(ev) in old(applier.experiences.data) && 0.0 <= ev.confidence <= 1.0 ==> ok
    {
      hide Sound, LedgerStep, MembersOutside, PatternLearner.AddsOutside, PatternLearner.MembersDone, PatternLearner.AllKnownIn;
      ok := ApplyExistingEvent(ev, skip);
      ghost var st :| applier.events.byID == old(applier.events.byID)[EventKey(ev) := ev.(status := st)] && (ok ==> st == Applied);
      LedgerRestatus(old(applier.events.byID), EventKey(ev), st);
      MembersOfOne(old(learner.events.byID), learner.events.byID, learner.TheGround(), applier.events.byID, ev, skip);
    }

    /** The experience exists and the confidence is in range. */
    predicate Learnable(f: Feedback, experience: string)
      reads applier.experiences
    {
      (f.tenant, experience) in applier.experiences.data && 0.0 <= f.confidence <= 1.0
    }

    ghost predicate AllLearnable(f: Feedback, credits: seq<Credit>)
      reads applier.experiences
    {
      forall i | 0 <= i < |credits| :: Learnable(f, credits[i].experience)
    }

    ghost predicate AllApplied(list: seq<Event>, byID: Events) {
      forall i | 0 <= i < |list| :: EventKey(list[i]) in byID && byID[EventKey(list[i])].status == Applied
    }

    /** So are the experiences and confidences of these events. */
    ghost predicate AllReady(list: seq<Event>)
      reads applier.experiences
    {
      forall i | 0 <= i < |list| :: Subject(list[i]) in applier.experiences.data && 0.0 <= list[i].confidence <= 1.0
    }

    /** The experiences and confidences of the events of the feedback are. */
    ghost predicate EventsReady(f: Feedback)
      reads applier.experiences, applier.events
    {
      ReadyIn(applier.events.byID, applier.experiences.data.Keys, KeyOfFeedback(f))
    }

    ghost predicate ReadyIn(byID: Events, experiences: set<Key>, fk: FeedbackKey) {
      forall k | k in byID && FeedbackOf(byID[k]) == fk :: Subject(byID[k]) in experiences && 0.0 <= byID[k].confidence <= 1.0
    }

    /** Every event of the feedback is APPLIED and has its member events. */
    ghost predicate Settled(f: Feedback, skip: set<string>)
      reads applier, applier.events, learner, learner.patterns, learner.events
    {
      SettledIn(applier.events.byID, learner.events.byID, learner.TheGround(), KeyOfFeedback(f), skip)
    }

    ghost predicate SettledIn(byID: Events, members: PatternEvents, g: Ground, fk: FeedbackKey, skip: set<string>) {
      forall k | k in byID && FeedbackOf(byID[k]) == fk ::
        byID[k].status == Applied && learner.MembersDone(members, g, byID[k], skip)
    }

    /** One event joined or became APPLIED, and has its member events now. */
    lemma SettlesOne(a: Events, b: Events, members: PatternEvents, members': PatternEvents, g: Ground, fk: FeedbackKey,
                     skip: set<string>, key: Key)
      requires SettledIn(a, members, g, fk, skip) && MembersOutside(members, members', g, b, fk, skip)
      requires forall k | k in b && k != key :: k in a && b[k] == a[k]
      requires key in b ==> b[key].status == Applied && learner.MembersDone(members', g, b[key], skip)
      ensures SettledIn(b, members', g, fk, skip)
    {
      hide PatternLearner.MembersDone, PatternLearner.Grows;
      OutsideGrows(members, members', g, b, fk, skip);
      learner.RetrievableStill(g.pats);
      forall k | k in b && FeedbackOf(b[k]) == fk
        ensures b[k].status == Applied && learner.MembersDone(members', g, b[k], skip)
      {
        if k != key {
          learner.MembersStayDone(members, members', g, g, b[k], skip);
        }
      }
    }

    lemma SettledMore(byID: Events, members: PatternEvents, members': PatternEvents, g: Ground, g': Ground, fk: FeedbackKey,
                      skip: set<string>)
      requires SettledIn(byID, members, g, fk, skip) && learner.Grows(members, members')
      requires learner.StayRetrievable(g.pats, g'.pats) && g'.byExp == g.byExp
      ensures SettledIn(byID, members', g', fk, skip)
    {
      hide PatternLearner.MembersDone, PatternLearner.Grows, PatternLearner.StayRetrievable;
      forall k | k in byID && FeedbackOf(byID[k]) == fk
        ensures byID[k].status == Applied && learner.MembersDone(members', g', byID[k], skip)
      {
        learner.MembersStayDone(members, members', g, g', byID[k], skip);
      }
    }

    lemma OutsideGrows(a: PatternEvents, b: PatternEvents, g: Ground, events: Events, fk: FeedbackKey, skip: set<string>)
      requires MembersOutside(a, b, g, events, fk, skip)
      ensures learner.Grows(a, b)
    {
    }

    /** The member events of an event do not depend on its status. */
    lemma DoneForStatus(members: PatternEvents, g: Ground, ev: Event, st: EventStatus, skip: set<string>)
      requires learner.MembersDone(members, g, ev, skip)
      ensures learner.MembersDone(members, g, ev.(status := st), skip)
    {
      forall id | learner.Supports(g, ev.tenant, ev.experience, id) && id !in skip
        ensures learner.DerivedIn(members, ev.(status := st), id)
      {
        assert learner.DerivedIn(members, ev, id);
      }
    }

    // -------------------------------------------------------------- a replay

    /** Applies the listed events that are not APPLIED yet, up to the first failure. */
    method RetryExistingEvents(f: Feedback, list: seq<Event>, skip: set<string>) returns (ok: bool)
      requires Sound() && Lists(f, list, applier.events.byID)
      modifies applier.experiences`data, applier.events`byID, applier`leaked, learner.events, world
      ensures Progress(KeyOfFeedback(f), skip)
      ensures applier.events.byID.Keys == old(applier.events.byID.Keys)
      ensures ok ==> AllApplied(list, applier.events.byID)
      ensures ok ==> forall i | 0 <= i < |list| && list[i].status != Applied :: MembersDone(list[i], skip)
      ensures Ample(old(world.log), world.log) && old(AllReady(list)) ==> ok
    {
      hide Sound, LedgerStep, MembersOutside, PatternLearner.MembersDone, PatternLearner.AllKnownIn, Lists, AppliedSoFar;
      ListedAtFirst(f, list, applier.events.byID);
      LedgerStays(applier.events.byID, KeyOfFeedback(f));
      NoMembers(learner.events.byID, learner.TheGround(), applier.events.byID, KeyOfFeedback(f), skip);
      for i := 0 to |list|
        invariant Progress(KeyOfFeedback(f), skip)
        invariant applier.events.byID.Keys == old(applier.events.byID.Keys)
        invariant AppliedSoFar(list, i, applier.events.byID)
        invariant forall j | 0 <= j < i && list[j].status != Applied :: MembersDone(list[j], skip)
      {
        NextInList(f, list, i, old(applier.events.byID), applier.events.byID);
        if list[i].status == Applied {
          var down := world.Fails();
          if down {
            return false;
          }
          continue;
        }
        ghost var before, membersBefore := applier.events.byID, learner.events.byID;
        ok := ApplyOne(list[i], skip);
        LedgerSteps(old(applier.events.byID), before, applier.events.byID, KeyOfFeedback(f));
        MembersTwice(old(learner.events.byID), membersBefore, learner.events.byID, learner.TheGround(), before, applier.events.byID,
                     KeyOfFeedback(f), skip);
        DoneStays(list[..i], membersBefore, skip, KeyOfFeedback(f));
        if !ok {
          return;
        }
        AppliedNext(f, list, i, old(applier.events.byID), before, applier.events.byID);
      }
      AppliedAtLast(list, applier.events.byID);
      ok := true;
    }

    lemma ListedAtFirst(f: Feedback, list: seq<Event>, byID: Events)
      requires Lists(f, list, byID)
      ensures AppliedSoFar(list, 0, byID)
    {
    }

    lemma AppliedAtLast(list: seq<Event>, byID: Events)
      requires AppliedSoFar(list, |list|, byID)
      ensures AllApplied(list, byID)
    {
    }

    /** The first i listed events are APPLIED; the others are as they were listed. */
    ghost predicate AppliedSoFar(list: seq<Event>, i: nat, byID: Events) {
      forall j | 0 <= j < |list| ::
        && EventKey(list[j]) in byID
        && (if j < i then byID[EventKey(list[j])].status == Applied else byID[EventKey(list[j])] == list[j])
    }

    lemma NextInList(f: Feedback, list: seq<Event>, i: nat, byID0: Events, byID: Events)
      requires Lists(f, list, byID0) && AppliedSoFar(list, i, byID) && i < |list|
      ensures EventKey(list[i]) in byID && byID[EventKey(list[i])] == list[i] && FeedbackOf(list[i]) == KeyOfFeedback(f)
      ensures list[i].status == Applied ==> AppliedSoFar(list, i + 1, byID)
    {
    }

    lemma AppliedNext(f: Feedback, list: seq<Event>, i: nat, byID0: Events, byID: Events, byID': Events)
      requires Lists(f, list, byID0) && AppliedSoFar(list, i, byID) && i < |list| && byID'.Keys == byID.Keys
      requires forall k | k in byID && k != EventKey(list[i]) :: byID'[k] == byID[k]
      requires byID'[EventKey(list[i])].status == Applied
      ensures AppliedSoFar(list, i + 1, byID')
    {
    }

    lemma DoneStays(list: seq<Event>, membersBefore: PatternEvents, skip: set<string>, fk: FeedbackKey)
      requires MembersOutside(membersBefore, learner.events.byID, learner.TheGround(), applier.events.byID, fk, skip)
      ensures forall j | 0 <= j < |list| && learner.MembersDone(membersBefore, learner.TheGround(), list[j], skip) ::
                MembersDone(list[j], skip)
    {
      hide PatternLearner.MembersDone, PatternLearner.Grows;
      OutsideGrows(membersBefore, learner.events.byID, learner.TheGround(), applier.events.byID, fk, skip);
      learner.RetrievableStill(learner.patterns.byID);
      forall j | 0 <= j < |list| && learner.MembersDone(membersBefore, learner.TheGround(), list[j], skip)
        ensures MembersDone(list[j], skip)
      {
        learner.MembersStayDone(membersBefore, learner.events.byID, learner.TheGround(), learner.TheGround(), list[j], skip);
      }
    }

    // -------------------------------------------------------------- a first delivery

    /** Creates the event of one credit and applies it; an event that exists already is only applied,
        if it is not yet. */
    method CreateAndApplyEvent(f: Feedback, c: Credit, skip: set<string>) returns (ok: bool, ghost key: Key)
      requires Sound()
      modifies applier.experiences`data, applier.events, applier`leaked, learner.events, world
      ensures Progress(KeyOfFeedback(f), skip)
      ensures (f.tenant, f.id, c.experience) in old(applier.events.unique) ==>
                applier.events.order == old(applier.events.order) && applier.events.unique == old(applier.events.unique)
      ensures (f.tenant, f.id, c.experience) !in old(applier.events.unique) ==>
                || (!ok && applier.events.order == old(applier.events.order) && applier.events.unique == old(applier.events.unique))
                || (&& applier.events.order == old(applier.events.order) + [key]
                    && applier.events.unique == old(applier.events.unique)[(f.tenant, f.id, c.experience) := key.1]
                    && key in applier.events.byID && IsEventOf(applier.events.byID[key], f, c))
      ensures ok ==> key in applier.events.byID && applier.events.byID[key].status == Applied
                     && Unique(applier.events.byID[key]) == (f.tenant, f.id, c.experience)
      ensures ok && old(Settled(f, skip)) ==> Settled(f, skip)
      ensures old(EventsReady(f)) && Learnable(f, c.experience) ==> EventsReady(f)
      ensures Ample(old(world.log), world.log) && old(EventsReady(f)) && Learnable(f, c.experience) ==> ok
    {
      hide LedgerStep, MembersOutside, BalancedBooks, Indexed, Listed, Ordered, PatternIndexed, PatternsBalanced, SourcesApplied,
           PatternLearner.MembersDone, PatternLearner.AllKnownIn, SettledIn, ReadyIn;
      LedgerStays(applier.events.byID, KeyOfFeedback(f));
      NoMembers(learner.events.byID, learner.TheGround(), applier.events.byID, KeyOfFeedback(f), skip);
      var id := world.Mint();
      var ev := Event(f.tenant, id, f.id, f.episode, c.experience, f.reward, f.confidence, c.weight,
                      EffectiveReward(f.reward, f.confidence, c.weight), Pending);
      key := EventKey(ev);
      var down := world.Fails();
      if down {
        return false, key;
      }
      var created := CreatePending(ev);
      if created {
        ghost var before := applier.events.byID;
        ReadyWith(old(applier.events.byID), ev, applier.experiences.data.Keys);
        ok := ApplyOne(ev, skip);
        LedgerSteps(old(applier.events.byID), before, applier.events.byID, KeyOfFeedback(f));
        ReadyAfter(before, applier.events.byID, applier.experiences.data.Keys, KeyOfFeedback(f), key);
        SettlesWith(f, old(applier.events.byID), old(learner.events.byID), ev, skip, ok);
        return;
      }
      ok, key := ApplyDuplicate(f, c, skip);
    }

    lemma ReadyWith(byID: Events, ev: Event, experiences: set<Key>)
      ensures ReadyIn(byID, experiences, FeedbackOf(ev)) && Subject(ev) in experiences && 0.0 <= ev.confidence <= 1.0 ==>
                ReadyIn(byID[EventKey(ev) := ev], experiences, FeedbackOf(ev))
    {
    }

    lemma ReadyAfter(a: Events, b: Events, experiences: set<Key>, fk: FeedbackKey, key: Key)
      requires b.Keys == a.Keys && key in a
      requires forall k | k in a && k != key :: b[k] == a[k]
      requires exists st :: b[key] == a[key].(status := st)
      ensures ReadyIn(a, experiences, fk) ==> ReadyIn(b, experiences, fk)
    {
    }

    lemma SettlesWith(f: Feedback, a: Events, members: PatternEvents, ev: Event, skip: set<string>, ok: bool)
      requires MembersOutside(members, learner.events.byID, learner.TheGround(), applier.events.byID, KeyOfFeedback(f), skip)
      requires forall k | k in applier.events.byID && k != EventKey(ev) :: k in a && applier.events.byID[k] == a[k]
      requires ok ==> EventKey(ev) in applier.events.byID && applier.events.byID[EventKey(ev)] == ev.(status := Applied) && MembersDone(ev, skip)
      ensures ok && SettledIn(a, members, learner.TheGround(), KeyOfFeedback(f), skip) ==> Settled(f, skip)
    {
      hide PatternLearner.MembersDone, SettledIn, MembersOutside;
      if ok && SettledIn(a, members, learner.TheGround(), KeyOfFeedback(f), skip) {
        DoneForStatus(learner.events.byID, learner.TheGround(), ev, Applied, skip);
        SettlesOne(a, applier.events.byID, members, learner.events.byID, learner.TheGround(), KeyOfFeedback(f), skip, EventKey(ev));
      }
    }

    /** The event exists already. */
    method ApplyDuplicate(f: Feedback, c: Credit, skip: set<string>) returns (ok: bool, ghost key: Key)
      requires Sound() && (f.tenant, f.id, c.experience) in applier.events.unique
      modifies applier.experiences`data, applier.events`byID, applier`leaked, learner.events, world
      ensures Progress(KeyOfFeedback(f), skip)
      ensures ok ==> key in applier.events.byID && applier.events.byID[key].status == Applied
                     && Unique(applier.events.byID[key]) == (f.tenant, f.id, c.experience)
      ensures ok && old(Settled(f, skip)) ==> Settled(f, skip)
      ensures old(EventsReady(f)) ==> EventsReady(f)
      ensures Ample(old(world.log), world.log) && old(EventsReady(f)) ==> ok
    {
      hide LedgerStep, MembersOutside, BalancedBooks, Indexed, Listed, Ordered, PatternIndexed, PatternsBalanced, SourcesApplied,
           PatternLearner.MembersDone, PatternLearner.AllKnownIn, SettledIn, ReadyIn;
      LedgerStays(applier.events.byID, KeyOfFeedback(f));
      NoMembers(learner.events.byID, learner.TheGround(), applier.events.byID, KeyOfFeedback(f), skip);
      var dup := applier.events.GetByFeedbackExperience(f.tenant, f.id, c.experience);
      key := EventKey(dup.value);
      if dup.value.status == Applied {
        var down := world.Fails();
        return !down, key;
      }
      ReadyOne(applier.events.byID, applier.experiences.data.Keys, KeyOfFeedback(f), key);
      ok := ApplyOne(dup.value, skip);
      ReadyAfter(old(applier.events.byID), applier.events.byID, applier.experiences.data.Keys, KeyOfFeedback(f), key);
      SettlesWith(f, old(applier.events.byID), old(learner.events.byID), dup.value, skip, ok);
    }

    lemma ReadyOne(byID: Events, experiences: set<Key>, fk: FeedbackKey, key: Key)
      requires key in byID && FeedbackOf(byID[key]) == fk
      ensures ReadyIn(byID, experiences, fk) ==> Subject(byID[key]) in experiences && 0.0 <= byID[key].confidence <= 1.0
    {
    }

    method CreatePending(ev: Event) returns (created: bool)
      requires Sound() && ev.status == Pending && EventKey(ev) !in applier.events.byID && |ev.id| < world.minted
      modifies applier.events
      ensures Sound()
      ensures created <==> Unique(ev) !in old(applier.events.unique)
      ensures applier.events.byID == if created then old(applier.events.byID)[EventKey(ev) := ev] else old(applier.events.byID)
      ensures applier.events.order == if created then old(applier.events.order) + [EventKey(ev)] else old(applier.events.order)
      ensures applier.events.unique == if created then old(applier.events.unique)[Unique(ev) := ev.id] else old(applier.events.unique)
      ensures LedgerStep(old(applier.events.byID), applier.events.byID, FeedbackOf(ev))
    {
      hide BalancedBooks, Indexed, Listed, Ordered, PatternIndexed, PatternsBalanced, SourcesApplied;
      ghost var b := applier.TheBooks();
      created := applier.events.Create(ev);
      if created {
        QuietKeeps(b, applier.events.byID, EventKey(ev));
        SourcesStay(learner.events.byID, b.events, applier.events.byID, FeedbackOf(ev));
      }
    }

    /** Each of these credits has one new APPLIED event, in order. */
    ghost predicate Delivered(f: Feedback, heads: seq<Credit>, keys: seq<Key>, order0: seq<Key>, order: seq<Key>, byID: Events) {
      && |keys| == |heads| && order == order0 + keys
      && forall i | 0 <= i < |heads| ::
           keys[i] in byID && IsEventOf(byID[keys[i]], f, heads[i]) && byID[keys[i]].status == Applied
    }

    /** Exactly the experiences of the first n credits have an event. */
    ghost predicate Noted(f: Feedback, credits: seq<Credit>, n: nat, unique: map<UniqueKey, string>)
      requires n <= |credits|
    {
      forall i | 0 <= i < |credits| ::
        (f.tenant, f.id, credits[i].experience) in unique <==> HasCredit(credits[..n], credits[i].experience)
    }

    /** Credits became events as far as there are keys, in order; APPLIED or not. */
    ghost predicate Begun(f: Feedback, heads: seq<Credit>, keys: seq<Key>, order0: seq<Key>, order: seq<Key>, byID: Events) {
      && |keys| <= |heads| && order == order0 + keys
      && forall i | 0 <= i < |keys| :: keys[i] in byID && IsEventOf(byID[keys[i]], f, heads[i])
    }

    lemma DeliveredIsBegun(f: Feedback, done: seq<Credit>, heads: seq<Credit>, keys: seq<Key>, order0: seq<Key>, order: seq<Key>, byID: Events)
      requires done <= heads && Delivered(f, done, keys, order0, order, byID)
      ensures Begun(f, heads, keys, order0, order, byID)
    {
    }

    lemma BegunStays(f: Feedback, heads: seq<Credit>, keys: seq<Key>, order0: seq<Key>, order: seq<Key>, byID: Events, byID': Events)
      requires Begun(f, heads, keys, order0, order, byID) && LedgerStep(byID, byID', KeyOfFeedback(f))
      ensures Begun(f, heads, keys, order0, order, byID')
    {
    }

    lemma BegunMore(f: Feedback, heads: seq<Credit>, keys: seq<Key>, order0: seq<Key>, order: seq<Key>, byID: Events, byID': Events,
                    key: Key)
      requires Begun(f, heads, keys, order0, order, byID) && LedgerStep(byID, byID', KeyOfFeedback(f)) && |keys| < |heads|
      requires key in byID' && IsEventOf(byID'[key], f, heads[|keys|])
      ensures Begun(f, heads, keys + [key], order0, order + [key], byID')
    {
    }

    lemma NotBegun(f: Feedback, heads: seq<Credit>, order: seq<Key>, byID: Events)
      ensures Begun(f, heads, [], order, order, byID)
    {
    }

    /** What these events hand out: the shares of the credits they were made for. Repeated credits get no
        event, and a delivery that was cut short has none for the rest. It is the whole reward exactly if
        there was none, or those shares are everything. */
    lemma HandedOutIff(f: Feedback, credits: seq<Credit>, keys: seq<Key>, order0: seq<Key>, order: seq<Key>, byID: Events)
      requires Begun(f, Firsts(credits), keys, order0, order, byID)
      ensures EffectiveOf(keys, byID) == f.reward * f.confidence * WeightSum(Firsts(credits)[..|keys|])
      ensures EffectiveOf(keys, byID) == f.reward * f.confidence <==>
              f.reward * f.confidence == 0.0 || WeightSum(Firsts(credits)[..|keys|]) == 1.0
    {
      hide IsEventOf, WeightSum;
      var heads := Firsts(credits)[..|keys|];
      EffectiveOfCredits(f, heads, keys, byID);
      EffectiveIsScaled(f.reward, f.confidence, heads);
      WholeIff(EffectiveOf(keys, byID), f.reward * f.confidence, WeightSum(heads));
    }

    lemma WholeIff(e: real, z: real, a: real)
      requires e == z * a
      ensures e == z <==> z == 0.0 || a == 1.0
    {
      assert z * a - z == z * (a - 1.0);
    }

    lemma DeliversOne(f: Feedback, heads: seq<Credit>, c: Credit, keys: seq<Key>, order0: seq<Key>, order: seq<Key>,
                      byID: Events, byID': Events, key: Key)
      requires Delivered(f, heads, keys, order0, order, byID)
      requires LedgerStep(byID, byID', KeyOfFeedback(f)) && key in byID' && byID'[key].status == Applied
      requires IsEventOf(byID'[key], f, c)
      ensures Delivered(f, heads + [c], keys + [key], order0, order + [key], byID')
    {
      forall i | 0 <= i < |heads| + 1
        ensures (keys + [key])[i] in byID' && IsEventOf(byID'[(keys + [key])[i]], f, (heads + [c])[i])
        ensures byID'[(keys + [key])[i]].status == Applied
      {
        if i < |heads| {
          assert byID'[keys[i]] == byID[keys[i]];
        }
      }
    }

    lemma DeliversNone(f: Feedback, heads: seq<Credit>, keys: seq<Key>, order0: seq<Key>, order: seq<Key>, byID: Events, byID': Events)
      requires Delivered(f, heads, keys, order0, order, byID) && LedgerStep(byID, byID', KeyOfFeedback(f))
      ensures Delivered(f, heads, keys, order0, order, byID')
    {
      forall i | 0 <= i < |heads| ensures keys[i] in byID' && byID'[keys[i]] == byID[keys[i]] {
        assert byID[keys[i]].status == Applied;
      }
    }

    lemma NotedNext(f: Feedback, credits: seq<Credit>, n: nat, unique: map<UniqueKey, string>, id: string)
      requires n < |credits| && Noted(f, credits, n, unique)
      ensures Noted(f, credits, n + 1, if HasCredit(credits[..n], credits[n].experience) then unique
                                       else unique[(f.tenant, f.id, credits[n].experience) := id])
    {
      forall i | 0 <= i < |credits|
        ensures HasCredit(credits[..n + 1], credits[i].experience) <==>
                HasCredit(credits[..n], credits[i].experience) || credits[i].experience == credits[n].experience
      {
        CreditsNext(credits, n, credits[i].experience);
      }
    }

    /** Every credit of an experience that has no event of this feedback yet becomes one APPLIED event, in
        order; a repeated credit finds the event of the first one. */
    method DeliverCredits(f: Feedback, credits: seq<Credit>, skip: set<string>) returns (ok: bool, ghost keys: seq<Key>)
      requires Sound() && forall i | 0 <= i < |credits| :: (f.tenant, f.id, credits[i].experience) !in applier.events.unique
      modifies applier.experiences`data, applier.events, applier`leaked, learner.events, world
      ensures Progress(KeyOfFeedback(f), skip)
      ensures ok ==> Delivered(f, Firsts(credits), keys, old(applier.events.order), applier.events.order, applier.events.byID)
      ensures Begun(f, Firsts(credits), keys, old(applier.events.order), applier.events.order, applier.events.byID)
      ensures ok && old(Settled(f, skip)) ==> Settled(f, skip)
      ensures old(EventsReady(f)) && AllLearnable(f, credits) ==> EventsReady(f)
      ensures Ample(old(world.log), world.log) && old(EventsReady(f)) && AllLearnable(f, credits) ==> ok
    {
      hide Sound, LedgerStep, MembersOutside, Delivered, IsEventOf, SettledIn, ReadyIn, PatternLearner.AllKnownIn, Begun, Firsts, Noted;
      LedgerStays(applier.events.byID, KeyOfFeedback(f));
      NoMembers(learner.events.byID, learner.TheGround(), applier.events.byID, KeyOfFeedback(f), skip);
      keys := [];
      NoneDelivered(f, credits, applier.events.order, applier.events.byID, applier.events.unique);
      for i := 0 to |credits|
        invariant Progress(KeyOfFeedback(f), skip)
        invariant Delivered(f, Firsts(credits[..i]), keys, old(applier.events.order), applier.events.order, applier.events.byID)
        invariant Noted(f, credits, i, applier.events.unique)
        invariant old(Settled(f, skip)) ==> Settled(f, skip)
        invariant old(EventsReady(f)) && AllLearnable(f, credits) ==> EventsReady(f)
      {
        ghost var before, membersBefore, unique := applier.events.byID, learner.events.byID, applier.events.unique;
        ghost var order := applier.events.order;
        ghost var key;
        ok, key := CreateAndApplyEvent(f, credits[i], skip);
        LedgerSteps(old(applier.events.byID), before, applier.events.byID, KeyOfFeedback(f));
        MembersTwice(old(learner.events.byID), membersBefore, learner.events.byID, learner.TheGround(), before, applier.events.byID,
                     KeyOfFeedback(f), skip);
        keys := AfterCredit(f, credits, i, keys, old(applier.events.order), order, before, unique, key, ok);
        if !ok {
          return;
        }
      }
      assert credits[..|credits|] == credits;
      DeliveredIsBegun(f, Firsts(credits), Firsts(credits), keys, old(applier.events.order), applier.events.order, applier.events.byID);
      ok := true;
    }

    /** The keys after credit i. */
    ghost method AfterCredit(f: Feedback, credits: seq<Credit>, i: nat, keys0: seq<Key>, order0: seq<Key>, order: seq<Key>,
                             before: Events, unique: map<UniqueKey, string>, key: Key, ok: bool)
      returns (keys: seq<Key>)
      requires i < |credits| && Delivered(f, Firsts(credits[..i]), keys0, order0, order, before) && Noted(f, credits, i, unique)
      requires LedgerStep(before, applier.events.byID, KeyOfFeedback(f))
      requires (f.tenant, f.id, credits[i].experience) in unique ==>
                 applier.events.order == order && applier.events.unique == unique
      requires (f.tenant, f.id, credits[i].experience) !in unique ==>
                 || (!ok && applier.events.order == order && applier.events.unique == unique)
                 || (&& applier.events.order == order + [key]
                     && applier.events.unique == unique[(f.tenant, f.id, credits[i].experience) := key.1]
                     && key in applier.events.byID && IsEventOf(applier.events.byID[key], f, credits[i]))
      requires ok ==> key in applier.events.byID && applier.events.byID[key].status == Applied
      ensures ok ==> Delivered(f, Firsts(credits[..i + 1]), keys, order0, applier.events.order, applier.events.byID)
      ensures ok ==> Noted(f, credits, i + 1, applier.events.unique)
      ensures !ok ==> Begun(f, Firsts(credits), keys, order0, applier.events.order, applier.events.byID)
    {
      assert (f.tenant, f.id, credits[i].experience) in unique <==> HasCredit(credits[..i], credits[i].experience);
      hide Begun, LedgerStep, IsEventOf, Delivered, Firsts, Noted;
      FirstsNext(credits, i);
      NotedNext(f, credits, i, unique, key.1);
      FirstsPrefix(credits, i);
      FirstsPrefix(credits, i + 1);
      var heads := Firsts(credits[..i]);
      DeliversNone(f, heads, keys0, order0, order, before, applier.events.byID);
      DeliveredIsBegun(f, heads, Firsts(credits), keys0, order0, order, before);
      BegunStays(f, Firsts(credits), keys0, order0, order, before, applier.events.byID);
      if applier.events.order == order {
        keys := keys0;
      } else {
        keys := keys0 + [key];
        if ok {
          DeliversOne(f, heads, credits[i], keys0, order0, order, before, applier.events.byID, key);
        } else {
          DeliveredLength(f, heads, keys0, order0, order, before);
          BegunMore(f, Firsts(credits), keys0, order0, order, before, applier.events.byID, key);
        }
      }
    }

    lemma DeliveredLength(f: Feedback, heads: seq<Credit>, keys: seq<Key>, order0: seq<Key>, order: seq<Key>, byID: Events)
      requires Delivered(f, heads, keys, order0, order, byID)
      ensures |keys| == |heads|
    {
    }

    lemma NoneDelivered(f: Feedback, credits: seq<Credit>, order: seq<Key>, byID: Events, unique: map<UniqueKey, string>)
      requires forall i | 0 <= i < |credits| :: (f.tenant, f.id, credits[i].experience) !in unique
      ensures Delivered(f, Firsts(credits[..0]), [], order, order, byID) && Noted(f, credits, 0, unique)
    {
    }

    /** The effective rewards of these events. */
    function EffectiveOf(keys: seq<Key>, byID: Events): real
      requires forall i | 0 <= i < |keys| :: keys[i] in byID
    {
      if keys == [] then 0.0 else EffectiveOf(keys[..|keys| - 1], byID) + byID[keys[|keys| - 1]].effective
    }

    lemma {:induction false} EffectiveOfCredits(f: Feedback, credits: seq<Credit>, keys: seq<Key>, byID: Events)
      requires |keys| == |credits| && forall i | 0 <= i < |keys| :: keys[i] in byID && IsEventOf(byID[keys[i]], f, credits[i])
      ensures EffectiveOf(keys, byID) == EffectiveSum(f.reward, f.confidence, credits)
    {
      hide EffectiveReward;
      if keys != [] {
        EffectiveOfCredits(f, credits[..|credits| - 1], keys[..|keys| - 1], byID);
      }
    }

    /** The events of a delivery without repeated credits hand out exactly reward times confidence. */
    lemma DeliveryConservesReward(f: Feedback, credits: seq<Credit>, keys: seq<Key>, order0: seq<Key>, order: seq<Key>, byID: Events)
      requires Delivered(f, Firsts(credits), keys, order0, order, byID)
      requires Conserves(credits) && credits != [] && DistinctIds(credits)
      ensures EffectiveOf(keys, byID) == f.reward * f.confidence
    {
      hide IsEventOf, Conserves, Firsts;
      FirstsOfDistinct(credits);
      EffectiveOfCredits(f, credits, keys, byID);
      RewardIsConserved(f.reward, f.confidence, credits);
    }

    /** What these events move posteriors by. */
    function EvidenceOf(keys: seq<Key>, byID: Events): Totals
      requires forall i | 0 <= i < |keys| :: keys[i] in byID
    {
      if keys == [] then NOTHING else Plus(EvidenceOf(keys[..|keys| - 1], byID), DeltaOf(byID[keys[|keys| - 1]]))
    }

    /** One event moves its experience by exactly the effective reward it records, on the side of its sign. */
    lemma EvidenceIsEffective(ev: Event, f: Feedback, c: Credit)
      requires IsEventOf(ev, f, c) && c.weight >= 0.0
      ensures DeltaOf(ev).gain == if f.reward >= 0.0 then ev.effective else 0.0
      ensures DeltaOf(ev).loss == if f.reward >= 0.0 then 0.0 else -ev.effective
    {
      if f.reward >= 0.0 {
        ProductIsNonNegative(f.reward, c.weight);
      } else {
        ProductIsNonNegative(-f.reward, c.weight);
        if c.weight != 0.0 {
          NegativeProduct(f.reward, c.weight);
        }
      }
    }

    lemma NegativeProduct(x: real, y: real)
      requires x < 0.0 && y > 0.0
      ensures x * y < 0.0
    {
    }

    lemma {:induction false} EvidenceOfCredits(f: Feedback, credits: seq<Credit>, keys: seq<Key>, byID: Events)
      requires |keys| == |credits| && NonNegative(credits)
      requires forall i | 0 <= i < |keys| :: keys[i] in byID && IsEventOf(byID[keys[i]], f, credits[i])
      ensures EvidenceOf(keys, byID).gain == if f.reward >= 0.0 then EffectiveOf(keys, byID) else 0.0
      ensures EvidenceOf(keys, byID).loss == if f.reward >= 0.0 then 0.0 else -EffectiveOf(keys, byID)
    {
      hide IsEventOf, DeltaOf;
      if keys != [] {
        var n := |keys| - 1;
        assert NonNegative(credits[..n]);
        EvidenceOfCredits(f, credits[..n], keys[..n], byID);
        EvidenceIsEffective(byID[keys[n]], f, credits[n]);
      }
    }

    /** A delivery without repeated credits moves posteriors by exactly the absolute reward times the confidence
        in all: alphas for a reward, betas for a punishment. */
    lemma EvidenceIsReward(f: Feedback, credits: seq<Credit>, keys: seq<Key>, order0: seq<Key>, order: seq<Key>, byID: Events)
      requires Delivered(f, Firsts(credits), keys, order0, order, byID)
      requires Conserves(credits) && credits != [] && DistinctIds(credits)
      ensures EvidenceOf(keys, byID).gain == if f.reward >= 0.0 then f.reward * f.confidence else 0.0
      ensures EvidenceOf(keys, byID).loss == if f.reward >= 0.0 then 0.0 else -(f.reward * f.confidence)
    {
      DeliveryConservesReward(f, credits, keys, order0, order, byID);
      ConservingIsValid(credits);
      FirstsOfDistinct(credits);
      hide IsEventOf, Conserves, Firsts, WeightSum;
      EvidenceOfCredits(f, credits, keys, byID);
    }

    // -------------------------------------------------------------- patterns

    /** Separation survives member events outside the used patterns, usage events within them, and
        status changes. */
    lemma MembersStaySeparate(a: PatternEvents, b: PatternEvents, g: Ground, events: Events, fk: FeedbackKey, used: set<string>)
      requires MembersOutside(a, b, g, events, fk, used) && SeparateIn(a, fk, used)
      ensures SeparateIn(b, fk, used)
    {
    }

    lemma UsesStaySeparate(a: PatternEvents, b: PatternEvents, fk: FeedbackKey, used: set<string>)
      requires learner.AddsWithin(a, b, fk, used) && SeparateIn(a, fk, used)
      ensures SeparateIn(b, fk, used)
    {
    }

    lemma RestatusStaysSeparate(a: PatternEvents, b: PatternEvents, fk: FeedbackKey, used: set<string>)
      requires learner.OnlyRestatus(a, b, fk) && SeparateIn(a, fk, used)
      ensures SeparateIn(b, fk, used)
    {
    }

    /** The feedback teaches the pattern something: it was used in the episode, or it is learnable and supported
        by an experience that the feedback credits. */
    ghost predicate Teaches(f: Feedback, used: set<string>, g: Ground, events: Events, k: Key) {
      && k.0 == f.tenant
      && (|| k.1 in used
          || exists e :: e in events && FeedbackOf(events[e]) == KeyOfFeedback(f) && events[e].status == Applied
                         && learner.Supports(g, f.tenant, events[e].experience, k.1))
    }

    /** Events were added only about patterns that the feedback teaches, and no pattern changed but those and
        the ones that the feedback had an event about already. */
    ghost predicate PatternFrame(f: Feedback, used: set<string>, before: PatternEvents, after: PatternEvents, g: Ground, g': Ground,
                                 events: Events) {
      && learner.Grows(before, after) && learner.StayRetrievable(g.pats, g'.pats) && g'.byExp == g.byExp
      && (forall k | k in after && k !in before ::
            FeedbackOf(after[k].base) == KeyOfFeedback(f) && Teaches(f, used, g, events, Subject(after[k].base)))
      && (forall k | k in g.pats && !learner.IsSubject(before, KeyOfFeedback(f), k) && !Teaches(f, used, g, events, k) ::
            k in g'.pats && g'.pats[k] == g.pats[k])
    }

    lemma FrameStill(f: Feedback, used: set<string>, a: PatternEvents, g: Ground, events: Events)
      ensures PatternFrame(f, used, a, a, g, g, events)
    {
    }

    /** Later experience events leave what the feedback teaches. */
    lemma TeachesStill(f: Feedback, used: set<string>, g: Ground, g': Ground, before: Events, after: Events, k: Key)
      requires LedgerStep(before, after, KeyOfFeedback(f)) && learner.StayRetrievable(g.pats, g'.pats) && g'.byExp == g.byExp
      ensures Teaches(f, used, g, before, k) ==> Teaches(f, used, g', after, k)
    {
      if Teaches(f, used, g, before, k) && k.1 !in used {
        var e :| e in before && FeedbackOf(before[e]) == KeyOfFeedback(f) && before[e].status == Applied
                 && learner.Supports(g, f.tenant, before[e].experience, k.1);
        assert e in after && after[e] == before[e] && learner.Supports(g', f.tenant, after[e].experience, k.1);
      }
    }

    lemma FrameTwice(f: Feedback, used: set<string>, a: PatternEvents, b: PatternEvents, c: PatternEvents,
                     g: Ground, g': Ground, g'': Ground, before: Events, after: Events)
      requires PatternFrame(f, used, a, b, g, g', before) && PatternFrame(f, used, b, c, g', g'', after)
      requires LedgerStep(before, after, KeyOfFeedback(f))
      ensures PatternFrame(f, used, a, c, g, g'', after)
    {
      learner.GrowsTwice(a, b, c);
      learner.RetrievableTwice(g.pats, g'.pats, g''.pats);
      RetrievableBack(g.pats, g'.pats);
      LedgerStays(after, KeyOfFeedback(f));
      forall k ensures Teaches(f, used, g, before, k) ==> Teaches(f, used, g, after, k) {
        learner.RetrievableStill(g.pats);
        TeachesStill(f, used, g, g, before, after, k);
      }
      forall k ensures Teaches(f, used, g', after, k) ==> Teaches(f, used, g, after, k) {
        TeachesStill(f, used, g', g, after, after, k);
      }
      hide Teaches, LedgerStep, PatternLearner.StayRetrievable, PatternLearner.Grows;
      forall k | learner.IsSubject(b, KeyOfFeedback(f), k)
        ensures learner.IsSubject(a, KeyOfFeedback(f), k) || Teaches(f, used, g, after, k)
      {
        SubjectsGrow(f, used, a, b, g, g', before, k);
      }
    }

    lemma RetrievableBack(a: map<Key, Pattern>, b: map<Key, Pattern>)
      requires learner.StayRetrievable(a, b)
      ensures learner.StayRetrievable(b, a)
    {
    }

    lemma SubjectsGrow(f: Feedback, used: set<string>, a: PatternEvents, b: PatternEvents, g: Ground, g': Ground, events: Events, k: Key)
      requires PatternFrame(f, used, a, b, g, g', events) && learner.IsSubject(b, KeyOfFeedback(f), k)
      ensures learner.IsSubject(a, KeyOfFeedback(f), k) || Teaches(f, used, g, events, k)
    {
      hide Teaches, PatternLearner.StayRetrievable;
      var e :| e in b && FeedbackOf(b[e].base) == KeyOfFeedback(f) && Subject(b[e].base) == k;
      if e in a {
        assert FeedbackOf(a[e].base) == KeyOfFeedback(f) && Subject(a[e].base) == k;
      }
    }

    /** Member events teach: their sources are APPLIED events of the feedback. */
    lemma FrameOfMembers(f: Feedback, used: set<string>, a: PatternEvents, b: PatternEvents, g: Ground, events: Events)
      requires MembersOutside(a, b, g, events, KeyOfFeedback(f), used) && SourcesApplied(b, events)
      ensures PatternFrame(f, used, a, b, g, g, events)
    {
      OutsideGrows(a, b, g, events, KeyOfFeedback(f), used);
      forall k | k in b && k !in a ensures Teaches(f, used, g, events, Subject(b[k].base)) {
        assert Backed(b[k], g, events) && SourceApplied(b[k], events);
        var source := (b[k].base.tenant, b[k].source.event);
        assert learner.Supports(g, f.tenant, events[source].experience, b[k].base.experience);
      }
    }

    /** Only events about the use of patterns in `used` were added. */
    ghost predicate AddsUses(f: Feedback, used: set<string>, before: PatternEvents, after: PatternEvents) {
      forall k | k in after && k !in before :: FeedbackOf(after[k].base) == KeyOfFeedback(f) && after[k].base.experience in used
    }

    /** So do events about the use of a pattern; and applying what is there changes its subjects only. */
    lemma FrameOfUses(f: Feedback, used: set<string>, a: PatternEvents, b: PatternEvents, g: Ground, g': Ground, events: Events)
      requires AddsUses(f, used, a, b) && learner.Grows(a, b) && learner.StayRetrievable(g.pats, g'.pats) && g'.byExp == g.byExp
      requires learner.OnlySubjects(g.pats, g'.pats, b, KeyOfFeedback(f))
      ensures PatternFrame(f, used, a, b, g, g', events)
    {
      forall k | k in g.pats && learner.IsSubject(b, KeyOfFeedback(f), k)
        ensures learner.IsSubject(a, KeyOfFeedback(f), k) || Teaches(f, used, g, events, k)
      {
        var e :| e in b && FeedbackOf(b[e].base) == KeyOfFeedback(f) && Subject(b[e].base) == k;
        if e in a {
          assert FeedbackOf(a[e].base) == KeyOfFeedback(f) && Subject(a[e].base) == k;
        }
      }
    }

    lemma FrameThrough(f: Feedback, used: set<string>, a: PatternEvents, b: PatternEvents, c: PatternEvents, g: Ground, g': Ground,
                       events: Events)
      requires PatternFrame(f, used, a, b, g, g, events) && AddsUses(f, used, b, c) && learner.Grows(b, c)
      requires learner.StayRetrievable(g.pats, g'.pats) && g'.byExp == g.byExp
      requires learner.OnlySubjects(g.pats, g'.pats, c, KeyOfFeedback(f))
      ensures PatternFrame(f, used, a, c, g, g', events)
    {
      FrameOfUses(f, used, b, c, g, g', events);
      LedgerStays(events, KeyOfFeedback(f));
      hide PatternFrame, PatternLearner.Grows, PatternLearner.StayRetrievable, PatternLearner.OnlySubjects, AddsUses;
      FrameTwice(f, used, a, b, c, g, g, g', events, events);
    }

    lemma UsesAdded(f: Feedback, shares: seq<Credit>, a: PatternEvents, b: PatternEvents)
      requires learner.AddsWithin(a, b, KeyOfFeedback(f), learner.IdsOf(shares))
      ensures AddsUses(f, learner.IdsOf(shares), a, b)
    {
    }

    lemma NoUses(f: Feedback, used: set<string>, a: PatternEvents, b: PatternEvents)
      requires a.Keys == b.Keys
      ensures AddsUses(f, used, a, b)
    {
    }

    lemma UsesTwice(f: Feedback, used: set<string>, a: PatternEvents, b: PatternEvents, c: PatternEvents)
      requires AddsUses(f, used, a, b) && AddsUses(f, used, b, c) && learner.Grows(b, c)
      ensures AddsUses(f, used, a, c)
    {
    }

    lemma RestatusKeys(a: PatternEvents, b: PatternEvents, fk: FeedbackKey)
      requires learner.OnlyRestatus(a, b, fk)
      ensures a.Keys == b.Keys
    {
    }

    lemma SameSubjects(a: PatternEvents, b: PatternEvents, pats: map<Key, Pattern>, pats': map<Key, Pattern>, fk: FeedbackKey)
      requires learner.OnlySubjects(pats, pats', a, fk) && learner.Grows(a, b)
      ensures learner.OnlySubjects(pats, pats', b, fk)
    {
      forall k | learner.IsSubject(a, fk, k) ensures learner.IsSubject(b, fk, k) {
        var e :| e in a && FeedbackOf(a[e].base) == fk && Subject(a[e].base) == k;
        assert e in b && FeedbackOf(b[e].base) == fk && Subject(b[e].base) == k;
      }
    }

    /** The experience ledger is untouched, the pattern ledger grows and stays sound and separate. */
    twostate predicate PatternProgress(f: Feedback)
      reads this, applier, applier.experiences, applier.events, learner, learner.patterns, learner.events, world
    {
      && Sound() && FaultsOnly(old(world.log), world.log) && world.minted >= old(world.minted)
      && learner.Grows(old(learner.events.byID), learner.events.byID)
      && learner.StayRetrievable(old(learner.patterns.byID), learner.patterns.byID)
      && (world.log.faults <= old(world.log).faults + 1 ==> learner.leaked == old(learner.leaked))
      && (old(PatternsKnown(f)) ==> PatternsKnown(f))
      && AddsUses(f, Skip(f), old(learner.events.byID), learner.events.byID)
      && learner.OnlySubjects(old(learner.patterns.byID), learner.patterns.byID, learner.events.byID, KeyOfFeedback(f))
      && (EpisodeLevel(f.target) && SeparateIn(old(learner.events.byID), KeyOfFeedback(f), Skip(f)) ==>
            SeparateIn(learner.events.byID, KeyOfFeedback(f), Skip(f)))
    }

    /** The patterns that this feedback is about exist, and the confidences are in range. */
    ghost predicate PatternsKnown(f: Feedback)
      reads this`patternUsages, learner, learner.patterns, learner.events
    {
      && learner.AllKnown(KeyOfFeedback(f))
      && (UsesPatterns(f) ==> learner.UsesKnown(f.tenant, PatternUsagesOf(f.tenant, f.episode), f.confidence))
    }

    /** The feedback is about the whole episode, and patterns were used in it. */
    predicate UsesPatterns(f: Feedback)
      reads this`patternUsages
    {
      EpisodeLevel(f.target) && PatternUsagesOf(f.tenant, f.episode) != []
    }

    /** The APPLIED ones among these events are still in the ledger as they are. */
    ghost predicate StillApplied(list: seq<Event>, byID: Events) {
      forall i | 0 <= i < |list| && list[i].status == Applied :: EventKey(list[i]) in byID && byID[EventKey(list[i])] == list[i]
    }

    lemma AppliedStay(f: Feedback, list: seq<Event>, before: Events, after: Events)
      requires Lists(f, list, before) && LedgerStep(before, after, KeyOfFeedback(f))
      ensures StillApplied(list, after)
    {
    }

    /** The member events of APPLIED events that are still missing. */
    method EnqueueMissingMembers(f: Feedback, list: seq<Event>, skip: set<string>) returns (ok: bool)
      requires Sound() && forall i | 0 <= i < |list| :: FeedbackOf(list[i]) == KeyOfFeedback(f)
      requires StillApplied(list, applier.events.byID)
      modifies learner.events, world
      ensures Sound() && FaultsOnly(old(world.log), world.log) && (world.log == old(world.log) ==> ok)
      ensures world.minted >= old(world.minted)
      ensures MembersOutside(old(learner.events.byID), learner.events.byID, learner.TheGround(), applier.events.byID, KeyOfFeedback(f), skip)
      ensures old(learner.AllKnown(KeyOfFeedback(f))) ==> learner.AllKnown(KeyOfFeedback(f))
      ensures ok ==> forall i | 0 <= i < |list| && list[i].status == Applied :: MembersDone(list[i], skip)
    {
      hide Sound, MembersOutside, PatternLearner.MembersDone, PatternLearner.AllKnownIn;
      NoMembers(learner.events.byID, learner.TheGround(), applier.events.byID, KeyOfFeedback(f), skip);
      for i := 0 to |list|
        invariant Sound() && FaultsOnly(old(world.log), world.log)
        invariant world.minted >= old(world.minted)
        invariant MembersOutside(old(learner.events.byID), learner.events.byID, learner.TheGround(), applier.events.byID, KeyOfFeedback(f), skip)
        invariant old(learner.AllKnown(KeyOfFeedback(f))) ==> learner.AllKnown(KeyOfFeedback(f))
        invariant forall j | 0 <= j < i && list[j].status == Applied :: MembersDone(list[j], skip)
      {
        if list[i].status != Applied {
          continue;
        }
        ghost var before := learner.events.byID;
        ok := EnqueueMembers(list[i], skip);
        MembersTwice(old(learner.events.byID), before, learner.events.byID, learner.TheGround(), applier.events.byID, applier.events.byID,
                     KeyOfFeedback(f), skip);
        DoneStays(list[..i], before, skip, KeyOfFeedback(f));
        if !ok {
          return;
        }
      }
      ok := true;
    }

    /** The member events of one APPLIED event. */
    method EnqueueMembers(ev: Event, skip: set<string>) returns (ok: bool)
      requires Sound() && EventKey(ev) in applier.events.byID && applier.events.byID[EventKey(ev)] == ev && ev.status == Applied
      modifies learner.events, world
      ensures Sound() && FaultsOnly(old(world.log), world.log) && (world.log == old(world.log) ==> ok)
      ensures world.minted >= old(world.minted)
      ensures MembersOutside(old(learner.events.byID), learner.events.byID, learner.TheGround(), applier.events.byID, FeedbackOf(ev), skip)
      ensures old(learner.AllKnown(FeedbackOf(ev))) ==> learner.AllKnown(FeedbackOf(ev))
      ensures ok ==> MembersDone(ev, skip)
    {
      hide BalancedBooks, Indexed, Listed, Ordered, PatternIndexed, PatternsBalanced, MembersOutside,
           PatternLearner.AddsOutside, SourcesApplied, Amount, PatternLearner.MembersDone, PatternLearner.AllKnownIn;
      ConfidenceInRange(applier.TheBooks(), ev);
      ok := learner.EnqueueMemberEvents(ev, Amount(ev), ev.confidence, skip);
      MembersOfOne(old(learner.events.byID), learner.events.byID, learner.TheGround(), applier.events.byID, ev, skip);
      SourcesGrow(old(learner.events.byID), learner.events.byID, learner.TheGround(), applier.events.byID, ev, skip);
    }

    lemma ConfidenceInRange(b: Books, ev: Event)
      requires BalancedBooks(b) && EventKey(ev) in b.events && b.events[EventKey(ev)] == ev && ev.status == Applied
      ensures 0.0 <= ev.confidence <= 1.0
    {
    }

    /** The used patterns share the feedback: credits of exactly 1, in proportion to the uses, one for
        each; and each pattern without an event about its use got one with its credit. */
    ghost predicate UsesShared(f: Feedback, used: seq<Usage>, shares: seq<Credit>, before: PatternEvents, after: PatternEvents) {
      && learner.SharesOf(shares, used)
      && forall i | 0 <= i < |shares| :: learner.UseCredited(before, after, KeyOfFeedback(f), shares[i], f.reward, f.confidence)
    }

    lemma SharedFrom(f: Feedback, used: seq<Usage>, shares: seq<Credit>, a: PatternEvents, b: PatternEvents, c: PatternEvents,
                     g: Ground, events: Events, skip: set<string>)
      requires MembersOutside(a, b, g, events, KeyOfFeedback(f), skip) && UsesShared(f, used, shares, b, c)
      ensures UsesShared(f, used, shares, a, c)
    {
      hide PatternLearner.SharesOf;
    }

    lemma SharedStill(f: Feedback, used: seq<Usage>, shares: seq<Credit>, a: PatternEvents, b: PatternEvents, c: PatternEvents)
      requires learner.OnlyRestatus(b, c, KeyOfFeedback(f)) && UsesShared(f, used, shares, a, b)
      ensures UsesShared(f, used, shares, a, c)
    {
      hide PatternLearner.SharesOf;
    }

    ghost predicate PatternsApplied(byID: PatternEvents, fk: FeedbackKey) {
      forall k | k in byID && FeedbackOf(byID[k].base) == fk :: byID[k].base.status == Applied
    }

    /** The usage events of an episode-level feedback. */
    method EnqueueUses(f: Feedback) returns (ok: bool, ghost shares: seq<Credit>)
      requires Sound() && UsesPatterns(f)
      modifies learner.events, world
      ensures PatternProgress(f) && (world.log == old(world.log) ==> ok)
      ensures ok ==> UsesShared(f, PatternUsagesOf(f.tenant, f.episode), shares, old(learner.events.byID), learner.events.byID)
    {
      hide BalancedBooks, Indexed, Listed, Ordered, PatternIndexed, PatternsBalanced, SeparateIn, PatternLearner.AddsWithin,
           PatternLearner.UseCredited, SourcesApplied, PatternLearner.Grows, PatternLearner.StayRetrievable, PatternLearner.AllKnownIn,
           PatternLearner.OnlySubjects, AddsUses;
      learner.RetrievableStill(learner.patterns.byID);
      var used := PatternUsagesOf(f.tenant, f.episode);
      ok, shares := learner.EnqueuePatternUsageEvents(f.tenant, f.episode, f.id, used, f.reward, f.confidence);
      assert learner.IdsOf(shares) == Skip(f);
      learner.NoSubjects(learner.patterns.byID, learner.events.byID, KeyOfFeedback(f));
      UsesAdded(f, shares, old(learner.events.byID), learner.events.byID);
      learner.WithinGrows(old(learner.events.byID), learner.events.byID, KeyOfFeedback(f), Skip(f));
      SourcesWithUses(old(learner.events.byID), learner.events.byID, applier.events.byID, KeyOfFeedback(f), Skip(f));
      if SeparateIn(old(learner.events.byID), KeyOfFeedback(f), Skip(f)) {
        UsesStaySeparate(old(learner.events.byID), learner.events.byID, KeyOfFeedback(f), Skip(f));
      }
    }

    /** Everything of the feedback in the pattern ledger that is not applied. */
    method RetryPatterns(f: Feedback) returns (ok: bool)
      requires Sound()
      modifies learner.events`byID, learner.patterns`byID, learner`leaked, world`log
      ensures PatternProgress(f) && (world.log == old(world.log) && old(PatternsKnown(f)) ==> ok)
      ensures learner.OnlyRestatus(old(learner.events.byID), learner.events.byID, KeyOfFeedback(f))
      ensures ok ==> PatternsApplied(learner.events.byID, KeyOfFeedback(f))
    {
      hide BalancedBooks, Indexed, Listed, Ordered, PatternIndexed, PatternsBalanced, SeparateIn,
           PatternLearner.OnlyRestatus, SourcesApplied, PatternLearner.Grows, PatternLearner.StayRetrievable, PatternLearner.AllKnownIn,
           PatternLearner.OnlySubjects, AddsUses;
      ok := learner.RetryPatternEvents(f.tenant, f.id);
      learner.RestatusGrows(old(learner.events.byID), learner.events.byID, KeyOfFeedback(f));
      RestatusKeys(old(learner.events.byID), learner.events.byID, KeyOfFeedback(f));
      NoUses(f, Skip(f), old(learner.events.byID), learner.events.byID);
      SameSubjects(old(learner.events.byID), learner.events.byID, old(learner.patterns.byID), learner.patterns.byID, KeyOfFeedback(f));
      KnownStill(old(learner.events.byID), learner.events.byID, old(learner.patterns.byID), learner.patterns.byID, KeyOfFeedback(f));
      SourcesRestatus(old(learner.events.byID), learner.events.byID, applier.events.byID, KeyOfFeedback(f));
      if SeparateIn(old(learner.events.byID), KeyOfFeedback(f), Skip(f)) {
        RestatusStaysSeparate(old(learner.events.byID), learner.events.byID, KeyOfFeedback(f), Skip(f));
      }
    }

    lemma KnownStill(a: PatternEvents, b: PatternEvents, pats: map<Key, Pattern>, pats': map<Key, Pattern>, fk: FeedbackKey)
      requires learner.OnlyRestatus(a, b, fk) && learner.StayRetrievable(pats, pats')
      ensures learner.AllKnownIn(pats, a, fk) ==> learner.AllKnownIn(pats', b, fk)
      ensures pats'.Keys == pats.Keys
    {
    }

    /** The usage events of an episode-level feedback, then everything of it that is not applied. */
    method LearnUsedPatterns(f: Feedback) returns (ok: bool, ghost shares: seq<Credit>)
      requires Sound()
      modifies learner.events, learner.patterns`byID, learner`leaked, world
      ensures PatternProgress(f) && (world.log == old(world.log) && old(PatternsKnown(f)) ==> ok)
      ensures ok ==> PatternsApplied(learner.events.byID, KeyOfFeedback(f))
      ensures ok && UsesPatterns(f) ==>
                UsesShared(f, PatternUsagesOf(f.tenant, f.episode), shares, old(learner.events.byID), learner.events.byID)
    {
      hide Sound, SeparateIn, PatternLearner.OnlyRestatus, UsesShared, PatternLearner.Grows, PatternLearner.StayRetrievable,
           PatternLearner.AllKnown, PatternLearner.UsesKnown, PatternsApplied, PatternLearner.OnlySubjects, AddsUses;
      shares := [];
      ghost var used := PatternUsagesOf(f.tenant, f.episode);
      if UsesPatterns(f) {
        ok, shares := EnqueueUses(f);
        if !ok {
          return;
        }
      } else {
        learner.RetrievableStill(learner.patterns.byID);
        GrowsNothing(learner.events.byID);
        NoUses(f, Skip(f), learner.events.byID, learner.events.byID);
      }
      ghost var before, pats := learner.events.byID, learner.patterns.byID;
      ok := RetryPatterns(f);
      learner.GrowsTwice(old(learner.events.byID), before, learner.events.byID);
      learner.RetrievableTwice(old(learner.patterns.byID), pats, learner.patterns.byID);
      UsesTwice(f, Skip(f), old(learner.events.byID), before, learner.events.byID);
      if UsesShared(f, used, shares, old(learner.events.byID), before) {
        SharedStill(f, used, shares, old(learner.events.byID), before, learner.events.byID);
      }
    }

    lemma GrowsNothing(a: PatternEvents)
      ensures learner.Grows(a, a)
    {
    }

    // -------------------------------------------------------------- one feedback

    /** What every call keeps. Only events of this feedback come in or change status, APPLIED ones stay.
        One failed store call leaks nothing, unless others also got in the way of a write. Separation of
        an episode-level feedback survives. */
    twostate predicate FeedbackStep(f: Feedback)
      reads this, applier, applier.experiences, applier.events, learner, learner.patterns, learner.events, world
    {
      && Sound() && applier.experiences.data.Keys == old(applier.experiences.data.Keys)
      && Later(old(world.log), world.log)
      && LedgerStep(old(applier.events.byID), applier.events.byID, KeyOfFeedback(f))
      && (Mild(old(world.log), world.log) ==> applier.leaked == old(applier.leaked))
      && (world.log.faults <= old(world.log).faults + 1 ==> learner.leaked == old(learner.leaked))
      && (old(PatternsKnown(f)) ==> PatternsKnown(f))
      && (old(EventsReady(f)) && UsagesReady(f) ==> EventsReady(f))
      && PatternFrame(f, Skip(f), old(learner.events.byID), learner.events.byID, old(learner.TheGround()), learner.TheGround(),
                      applier.events.byID)
      && (EpisodeLevel(f.target) && SeparateIn(old(learner.events.byID), KeyOfFeedback(f), Skip(f)) ==>
            SeparateIn(learner.events.byID, KeyOfFeedback(f), Skip(f)))
    }

    /** The used experiences exist, and the confidence is in range. */
    ghost predicate UsagesReady(f: Feedback)
      reads this`usages, applier.experiences
    {
      forall i | 0 <= i < |UsagesOf(f.tenant, f.episode)| :: Learnable(f, UsagesOf(f.tenant, f.episode)[i].experience)
    }

    lemma CreditsLearnable(f: Feedback, credits: seq<Credit>)
      requires OverUsed(credits, UsagesOf(f.tenant, f.episode)) && UsagesReady(f)
      ensures AllLearnable(f, credits)
    {
      forall i | 0 <= i < |credits| ensures Learnable(f, credits[i].experience) {
        var j :| 0 <= j < |UsagesOf(f.tenant, f.episode)| && UsagesOf(f.tenant, f.episode)[j].experience == credits[i].experience;
      }
    }

    /** What a complete call leaves: every experience event of the feedback APPLIED and with its member
        events, every pattern event APPLIED, and the used patterns credited in full. */
    twostate predicate Learned(f: Feedback, shares: seq<Credit>)
      reads this, applier, applier.events, learner, learner.patterns, learner.events
    {
      && Settled(f, Skip(f)) && PatternsApplied(learner.events.byID, KeyOfFeedback(f))
      && (UsesPatterns(f) ==>
            UsesShared(f, PatternUsagesOf(f.tenant, f.episode), shares, old(learner.events.byID), learner.events.byID))
    }

    /** The events of the feedback that exist. */
    ghost predicate Lists(f: Feedback, list: seq<Event>, byID: Events) {
      && (forall i | 0 <= i < |list| ::
            EventKey(list[i]) in byID && byID[EventKey(list[i])] == list[i] && FeedbackOf(list[i]) == KeyOfFeedback(f))
      && (forall i, j | 0 <= i < j < |list| :: EventKey(list[i]) != EventKey(list[j]))
      && (forall k | k in byID && FeedbackOf(byID[k]) == KeyOfFeedback(f) :: byID[k] in list)
    }

    /** The experience side of a repeated delivery. */
    method ReplayEvents(f: Feedback, list: seq<Event>) returns (ok: bool)
      requires Sound() && Lists(f, list, applier.events.byID)
      modifies applier.experiences`data, applier.events`byID, applier`leaked, learner.events, world
      ensures Progress(KeyOfFeedback(f), Skip(f)) && applier.events.byID.Keys == old(applier.events.byID.Keys)
      ensures (forall i | 0 <= i < |list| :: list[i].status == Applied) ==>
                applier.events.byID == old(applier.events.byID) && applier.experiences.data == old(applier.experiences.data)
      ensures ok ==> AllApplied(list, applier.events.byID)
      ensures ok ==> forall i | 0 <= i < |list| && list[i].status != Applied :: MembersDone(list[i], Skip(f))
      ensures Ample(old(world.log), world.log) && old(AllReady(list)) ==> ok
    {
      hide Sound, LedgerStep, MembersOutside, AllReady, PatternLearner.MembersDone, PatternLearner.AllKnownIn;
      LedgerStays(applier.events.byID, KeyOfFeedback(f));
      NoMembers(learner.events.byID, learner.TheGround(), applier.events.byID, KeyOfFeedback(f), Skip(f));
      var down := world.Fails();
      if down {
        return false;
      }
      var skip := Skip(f);
      var allApplied := true;
      for i := 0 to |list|
        invariant allApplied && forall j | 0 <= j < i :: list[j].status == Applied
      {
        if list[i].status != Applied {
          allApplied := false;
          break;
        }
      }
      if allApplied {
        down := world.Fails();
        ok := !down;
      } else {
        ok := RetryExistingEvents(f, list, skip);
      }
    }

    /** ReplayEvents, and the member events of what was APPLIED before. */
    method ReplayMembers(f: Feedback, list: seq<Event>) returns (ok: bool)
      requires Sound() && Lists(f, list, applier.events.byID)
      modifies applier.experiences`data, applier.events`byID, applier`leaked, learner.events, world
      ensures Progress(KeyOfFeedback(f), Skip(f)) && applier.events.byID.Keys == old(applier.events.byID.Keys)
      ensures (forall i | 0 <= i < |list| :: list[i].status == Applied) ==>
                applier.events.byID == old(applier.events.byID) && applier.experiences.data == old(applier.experiences.data)
      ensures ok ==> forall i | 0 <= i < |list| :: MembersDone(list[i], Skip(f))
      ensures ok || (Ample(old(world.log), world.log) && old(AllReady(list))) ==> AllApplied(list, applier.events.byID)
      ensures Ample(old(world.log), world.log) && old(AllReady(list)) ==> ok
    {
      hide Sound, LedgerStep, MembersOutside, AllReady, StillApplied, PatternLearner.MembersDone, PatternLearner.AllKnownIn;
      ok := ReplayEvents(f, list);
      if ok {
        AppliedStay(f, list, old(applier.events.byID), applier.events.byID);
        ghost var before := learner.events.byID;
        ok := EnqueueMissingMembers(f, list, Skip(f));
        MembersTwice(old(learner.events.byID), before, learner.events.byID, learner.TheGround(), applier.events.byID, applier.events.byID,
                     KeyOfFeedback(f), Skip(f));
        DoneStays(list, before, Skip(f), KeyOfFeedback(f));
      }
    }

    lemma ListSettles(f: Feedback, list: seq<Event>, before: Events, skip: set<string>)
      requires Lists(f, list, before) && LedgerStep(before, applier.events.byID, KeyOfFeedback(f))
      requires applier.events.byID.Keys == before.Keys && AllApplied(list, applier.events.byID)
      requires forall k | k in before :: EventKey(before[k]) == k
      requires forall i | 0 <= i < |list| :: MembersDone(list[i], skip)
      ensures Settled(f, skip)
    {
      hide PatternLearner.MembersDone;
      forall k | k in applier.events.byID && FeedbackOf(applier.events.byID[k]) == KeyOfFeedback(f)
        ensures applier.events.byID[k].status == Applied && MembersDone(applier.events.byID[k], skip)
      {
        var i :| 0 <= i < |list| && list[i] == before[k];
        DoneForStatus(learner.events.byID, learner.TheGround(), list[i], Applied, skip);
      }
    }

    lemma StayReady(a: Events, b: Events, experiences: set<Key>, fk: FeedbackKey)
      requires LedgerStep(a, b, fk) && b.Keys == a.Keys
      ensures ReadyIn(a, experiences, fk) ==> ReadyIn(b, experiences, fk)
    {
    }

    lemma FrameSoFar(f: Feedback, before: PatternEvents)
      requires Sound() && MembersOutside(before, learner.events.byID, learner.TheGround(), applier.events.byID, KeyOfFeedback(f), Skip(f))
      ensures PatternFrame(f, Skip(f), before, learner.events.byID, learner.TheGround(), learner.TheGround(), applier.events.byID)
    {
      hide BalancedBooks, Indexed, Listed, Ordered, PatternIndexed, PatternsBalanced, PatternFrame, MembersOutside, SourcesApplied;
      FrameOfMembers(f, Skip(f), before, learner.events.byID, learner.TheGround(), applier.events.byID);
    }

    /** LearnUsedPatterns leaves the experiences' side settled. */
    method LearnSettled(f: Feedback) returns (ok: bool, ghost shares: seq<Credit>)
      requires Sound()
      modifies learner.events, learner.patterns`byID, learner`leaked, world
      ensures PatternProgress(f) && (world.log == old(world.log) && old(PatternsKnown(f)) ==> ok)
      ensures old(Settled(f, Skip(f))) ==> Settled(f, Skip(f))
      ensures ok ==> PatternsApplied(learner.events.byID, KeyOfFeedback(f))
      ensures ok && UsesPatterns(f) ==>
                UsesShared(f, PatternUsagesOf(f.tenant, f.episode), shares, old(learner.events.byID), learner.events.byID)
    {
      hide Sound, SeparateIn, UsesShared, PatternLearner.Grows, PatternLearner.StayRetrievable, PatternLearner.AllKnownIn,
           PatternLearner.UsesKnown, SettledIn, PatternsApplied, PatternLearner.OnlySubjects, AddsUses;
      ok, shares := LearnUsedPatterns(f);
      if old(Settled(f, Skip(f))) {
        SettledMore(applier.events.byID, old(learner.events.byID), learner.events.byID, old(learner.TheGround()), learner.TheGround(),
                    KeyOfFeedback(f), Skip(f));
      }
    }

    /** The patterns' side of a call, after the experiences' side. */
    method LearnPatterns(f: Feedback, ghost before: PatternEvents) returns (ok: bool, ghost shares: seq<Credit>)
      requires Sound() && MembersOutside(before, learner.events.byID, learner.TheGround(), applier.events.byID, KeyOfFeedback(f), Skip(f))
      modifies learner.events, learner.patterns`byID, learner`leaked, world
      ensures PatternProgress(f) && (world.log == old(world.log) && old(PatternsKnown(f)) ==> ok)
      ensures old(Settled(f, Skip(f))) ==> Settled(f, Skip(f))
      ensures ok ==> PatternsApplied(learner.events.byID, KeyOfFeedback(f))
      ensures ok && UsesPatterns(f) ==> UsesShared(f, PatternUsagesOf(f.tenant, f.episode), shares, before, learner.events.byID)
      ensures EpisodeLevel(f.target) && SeparateIn(before, KeyOfFeedback(f), Skip(f)) ==>
                SeparateIn(learner.events.byID, KeyOfFeedback(f), Skip(f))
      ensures PatternFrame(f, Skip(f), before, learner.events.byID, old(learner.TheGround()), learner.TheGround(), applier.events.byID)
    {
      hide Sound, SeparateIn, UsesShared, PatternLearner.Grows, PatternLearner.StayRetrievable, PatternLearner.AllKnownIn,
           PatternLearner.UsesKnown, MembersOutside, SettledIn, PatternsApplied, PatternLearner.OnlySubjects, AddsUses, PatternFrame;
      FrameSoFar(f, before);
      if EpisodeLevel(f.target) && SeparateIn(before, KeyOfFeedback(f), Skip(f)) {
        MembersStaySeparate(before, learner.events.byID, learner.TheGround(), applier.events.byID, KeyOfFeedback(f), Skip(f));
      }
      ghost var middle, used := learner.events.byID, PatternUsagesOf(f.tenant, f.episode);
      ok, shares := LearnSettled(f);
      FrameThrough(f, Skip(f), before, middle, learner.events.byID, old(learner.TheGround()), learner.TheGround(), applier.events.byID);
      if ok && UsesPatterns(f) {
        SharedFrom(f, used, shares, before, middle, learner.events.byID, old(learner.TheGround()), applier.events.byID, Skip(f));
      }
    }

    /** A repeated delivery: it creates no event, applies what is not applied yet, and once all is
        applied changes no posterior. */
    method ReplayFeedback(f: Feedback, list: seq<Event>) returns (ok: bool, ghost shares: seq<Credit>)
      requires Sound() && Lists(f, list, applier.events.byID)
      requires forall k | k in applier.events.byID :: EventKey(applier.events.byID[k]) == k
      modifies applier.experiences`data, applier.events`byID, applier`leaked
      modifies learner.events, learner.patterns`byID, learner`leaked, world
      ensures FeedbackStep(f) && applier.events.byID.Keys == old(applier.events.byID.Keys)
      ensures (forall i | 0 <= i < |list| :: list[i].status == Applied) ==>
                applier.events.byID == old(applier.events.byID) && applier.experiences.data == old(applier.experiences.data)
      ensures ok || (Ample(old(world.log), world.log) && old(AllReady(list))) ==> AllApplied(list, applier.events.byID)
      ensures ok ==> Learned(f, shares)
      ensures Ample(old(world.log), world.log) && old(AllReady(list)) && old(PatternsKnown(f)) ==> ok
    {
      hide Sound, LedgerStep, MembersOutside, SeparateIn, AllReady, UsesShared, PatternLearner.Grows, PatternLearner.StayRetrievable,
           PatternLearner.MembersDone, PatternLearner.AllKnownIn, SettledIn, PatternsApplied, ReadyIn, Lists, AllApplied,
           PatternLearner.UsesKnown, PatternFrame;
      shares := [];
      ok := ReplayMembers(f, list);
      FrameSoFar(f, old(learner.events.byID));
      StayReady(old(applier.events.byID), applier.events.byID, applier.experiences.data.Keys, KeyOfFeedback(f));
      if EpisodeLevel(f.target) && SeparateIn(old(learner.events.byID), KeyOfFeedback(f), Skip(f)) {
        MembersStaySeparate(old(learner.events.byID), learner.events.byID, learner.TheGround(), applier.events.byID, KeyOfFeedback(f), Skip(f));
      }
      if ok {
        ListSettles(f, list, old(applier.events.byID), Skip(f));
        ok, shares := LearnPatterns(f, old(learner.events.byID));
      }
    }

    /** Every credited experience has one APPLIED event, made for its first credit. Together they hand out
        what these credits are of the reward; all of it, if no experience is credited twice. */
    ghost predicate FullyDelivered(f: Feedback, credits: seq<Credit>, keys: seq<Key>, order0: seq<Key>, order: seq<Key>, byID: Events) {
      && Delivered(f, Firsts(credits), keys, order0, order, byID)
      && EffectiveOf(keys, byID) == f.reward * f.confidence * WeightSum(Firsts(credits))
      && (DistinctIds(credits) && credits != [] ==> EffectiveOf(keys, byID) == f.reward * f.confidence)
    }

    /** What the strategy answers for this feedback. */
    ghost predicate Credited(f: Feedback, credits: seq<Credit>)
      reads this`usages, this`links
    {
      Attributed(credits, UsagesOf(f.tenant, f.episode), f.target, LinksOf(f.tenant, f.episode), matches)
    }

    /** The credits of this feedback. */
    method Credits(f: Feedback, used: seq<Usage>) returns (credits: seq<Credit>)
      requires used == UsagesOf(f.tenant, f.episode)
      ensures Conserves(credits) && OverUsed(credits, used) && Credited(f, credits)
      ensures DistinctUsages(used) || !EpisodeLevel(f.target) ==> DistinctIds(credits)
    {
      hide Conserves, OverUsed, SpreadOver, Influenced;
      credits := Attribute(used, f.target, LinksOf(f.tenant, f.episode), matches);
      if !IsSpread(f.target) {
        SortedAreDistinct(credits);
      } else {
        SpreadInOrder(credits, used);
      }
    }

    /** The credits of a first delivery become events. */
    method DeliverUsages(f: Feedback, used: seq<Usage>) returns (ok: bool, ghost credits: seq<Credit>, ghost keys: seq<Key>)
      requires Sound() && (forall x :: (f.tenant, f.id, x) !in applier.events.unique)
      requires used == UsagesOf(f.tenant, f.episode)
      modifies applier.experiences`data, applier.events, applier`leaked, learner.events, world
      ensures Progress(KeyOfFeedback(f), Skip(f))
      ensures Conserves(credits) && OverUsed(credits, used) && Credited(f, credits)
      ensures DistinctUsages(used) || !EpisodeLevel(f.target) ==> DistinctIds(credits)
      ensures ok ==> FullyDelivered(f, credits, keys, old(applier.events.order), applier.events.order, applier.events.byID)
      ensures Begun(f, Firsts(credits), keys, old(applier.events.order), applier.events.order, applier.events.byID)
      ensures ok && old(Settled(f, Skip(f))) ==> Settled(f, Skip(f))
      ensures old(EventsReady(f)) && AllLearnable(f, credits) ==> EventsReady(f)
      ensures Ample(old(world.log), world.log) && old(EventsReady(f)) && AllLearnable(f, credits) ==> ok
    {
      hide Sound, LedgerStep, MembersOutside, AllLearnable, Delivered, Conserves, OverUsed, EffectiveOf,
           DistinctUsages, DistinctIds, SettledIn, ReadyIn, PatternLearner.AllKnownIn, Attributed, Begun, Firsts, WeightSum;
      var made := Credits(f, used);
      credits := made;
      var valid := ValidateCredits(made);
      ConservingIsValid(made);
      if !valid {
        assert false;
      }
      ok, keys := DeliverCredits(f, made, Skip(f));
      if ok {
        FullyDelivers(f, credits, keys, old(applier.events.order), applier.events.order, applier.events.byID);
      }
    }

    lemma FullyDelivers(f: Feedback, credits: seq<Credit>, keys: seq<Key>, order0: seq<Key>, order: seq<Key>, byID: Events)
      requires Delivered(f, Firsts(credits), keys, order0, order, byID) && Conserves(credits)
      ensures FullyDelivered(f, credits, keys, order0, order, byID)
    {
      DeliveredLength(f, Firsts(credits), keys, order0, order, byID);
      DeliveredIsBegun(f, Firsts(credits), Firsts(credits), keys, order0, order, byID);
      hide Begun, Conserves, Firsts, IsEventOf, WeightSum;
      HandedOutIff(f, credits, keys, order0, order, byID);
      assert Firsts(credits)[..|keys|] == Firsts(credits);
      if DistinctIds(credits) && credits != [] {
        DeliveryConservesReward(f, credits, keys, order0, order, byID);
      }
    }

    /** Nothing was used, so there is nothing to learn. */
    predicate Idle(f: Feedback)
      reads this`usages, this`patternUsages
    {
      UsagesOf(f.tenant, f.episode) == [] && !UsesPatterns(f)
    }

    lemma NoneCredited(f: Feedback)
      requires UsagesOf(f.tenant, f.episode) == []
      ensures Credited(f, [])
    {
    }

    /** A first delivery: every credit of the strategy becomes one APPLIED event, unless some store fails. */
    method DeliverFirst(f: Feedback) returns (ok: bool, ghost credits: seq<Credit>, ghost keys: seq<Key>, ghost shares: seq<Credit>)
      requires Sound() && (forall x :: (f.tenant, f.id, x) !in applier.events.unique)
      requires !Known(f, applier.events.byID)
      modifies applier.experiences`data, applier.events, applier`leaked
      modifies learner.events, learner.patterns`byID, learner`leaked, world
      ensures FeedbackStep(f)
      ensures Conserves(credits) && OverUsed(credits, UsagesOf(f.tenant, f.episode))
      ensures ok || (Ample(old(world.log), world.log) && AllLearnable(f, credits)) ==>
                && Credited(f, credits) && Finished(f, applier.events.byID)
                && FullyDelivered(f, credits, keys, old(applier.events.order), applier.events.order, applier.events.byID)
      ensures DistinctUsages(UsagesOf(f.tenant, f.episode)) || !EpisodeLevel(f.target) ==> DistinctIds(credits)
      ensures Begun(f, Firsts(credits), keys, old(applier.events.order), applier.events.order, applier.events.byID)
      ensures credits != [] ==> Credited(f, credits)
      ensures ok && !Idle(f) ==> Learned(f, shares)
      ensures Ample(old(world.log), world.log) && AllLearnable(f, credits) && old(PatternsKnown(f)) ==> ok
    {
      hide Sound, LedgerStep, MembersOutside, SeparateIn, AllLearnable, FullyDelivered, Conserves, OverUsed, UsagesReady,
           DistinctUsages, DistinctIds, UsesShared, PatternLearner.Grows, PatternLearner.StayRetrievable, Attributed,
           PatternLearner.AllKnownIn, SettledIn, PatternsApplied, ReadyIn, PatternLearner.UsesKnown, Begun, PatternFrame;
      credits, keys, shares := [], [], [];
      FrameStill(f, Skip(f), learner.events.byID, learner.TheGround(), applier.events.byID);
      NotBegun(f, Firsts([]), applier.events.order, applier.events.byID);
      NothingDelivered(f, UsagesOf(f.tenant, f.episode), applier.events.order, applier.events.byID);
      LedgerStays(applier.events.byID, KeyOfFeedback(f));
      NoMembers(learner.events.byID, learner.TheGround(), applier.events.byID, KeyOfFeedback(f), Skip(f));
      NothingToSettle(f);
      var down := world.Fails();
      if down {
        return false, credits, keys, shares;
      }
      var used := UsagesOf(f.tenant, f.episode);
      if used == [] && !UsesPatterns(f) {
        NoneCredited(f);
        return true, credits, keys, shares;
      }
      ok := true;
      if used != [] {
        ok, credits, keys := DeliverUsages(f, used);
      } else {
        NoneCredited(f);
      }
      if UsagesReady(f) {
        CreditsLearnable(f, credits);
      }
      FrameSoFar(f, old(learner.events.byID));
      if EpisodeLevel(f.target) && SeparateIn(old(learner.events.byID), KeyOfFeedback(f), Skip(f)) {
        MembersStaySeparate(old(learner.events.byID), learner.events.byID, learner.TheGround(), applier.events.byID, KeyOfFeedback(f), Skip(f));
      }
      if ok {
        SettledIsFinished(f, Skip(f));
        ok, shares := LearnPatterns(f, old(learner.events.byID));
      }
    }

    lemma NothingToSettle(f: Feedback)
      requires !Known(f, applier.events.byID)
      ensures Settled(f, Skip(f)) && EventsReady(f) && Finished(f, applier.events.byID)
    {
    }

    lemma SettledIsFinished(f: Feedback, skip: set<string>)
      requires Settled(f, skip)
      ensures Finished(f, applier.events.byID)
    {
    }

    lemma NothingDelivered(f: Feedback, used: seq<Usage>, order: seq<Key>, byID: Events)
      ensures FullyDelivered(f, [], [], order, order, byID)
      ensures Conserves([]) && OverUsed([], used) && DistinctIds([])
    {
    }

    lemma ConservingIsValid(credits: seq<Credit>)
      requires Conserves(credits)
      ensures credits == [] || (NonNegative(credits) && 0.999 <= WeightSum(credits) <= 1.001)
    {
      hide WeightSum, NonNegative;
    }

    /** Learns one feedback; it may be delivered any number of times. A complete call, and also one in
        which no store call failed and not too many writes were refused, leaves every event of the
        feedback APPLIED; if it is the first delivery, one for each experience the strategy credits. */
    method ApplyFeedbackReward(f: Feedback)
      returns (ok: bool, ghost credits: seq<Credit>, ghost keys: seq<Key>, ghost shares: seq<Credit>)
      requires Sound()
      modifies applier.experiences`data, applier.events, applier`leaked
      modifies learner.events, learner.patterns`byID, learner`leaked, world
      ensures FeedbackStep(f)
      ensures Known(f, old(applier.events.byID)) ==>
                applier.events.byID.Keys == old(applier.events.byID.Keys) && applier.events.order == old(applier.events.order)
      ensures Known(f, old(applier.events.byID)) && Finished(f, old(applier.events.byID)) ==>
                applier.events.byID == old(applier.events.byID) && applier.experiences.data == old(applier.experiences.data)
      ensures Conserves(credits) && OverUsed(credits, UsagesOf(f.tenant, f.episode))
      ensures ok || (!Blank(f) && Ample(old(world.log), world.log) && old(EventsReady(f)) && AllLearnable(f, credits)) ==>
                && Finished(f, applier.events.byID)
                && (!Known(f, old(applier.events.byID)) ==>
                      && Credited(f, credits)
                      && FullyDelivered(f, credits, keys, old(applier.events.order), applier.events.order, applier.events.byID))
      ensures DistinctUsages(UsagesOf(f.tenant, f.episode)) || !EpisodeLevel(f.target) ==> DistinctIds(credits)
      ensures !Known(f, old(applier.events.byID)) ==>
                Begun(f, Firsts(credits), keys, old(applier.events.order), applier.events.order, applier.events.byID)
      ensures credits != [] ==> Credited(f, credits)
      ensures ok && (Known(f, old(applier.events.byID)) || !Idle(f)) ==> Learned(f, shares)
      ensures !Blank(f) && Ample(old(world.log), world.log) && old(EventsReady(f)) && AllLearnable(f, credits) && old(PatternsKnown(f)) ==>
                ok
    {
      hide Sound, LedgerStep, SeparateIn, AllLearnable, FullyDelivered, Conserves, OverUsed, DistinctUsages, Attributed,
           UsesShared, PatternLearner.AllKnownIn, SettledIn, PatternsApplied, ReadyIn, PatternLearner.UsesKnown, AllReady, AllApplied,
           UsagesReady, Begun, DistinctIds, PatternFrame;
      credits, keys, shares := [], [], [];
      FrameStill(f, Skip(f), learner.events.byID, learner.TheGround(), applier.events.byID);
      NotBegun(f, Firsts([]), applier.events.order, applier.events.byID);
      ghost var byID0 := applier.events.byID;
      LedgerStays(applier.events.byID, KeyOfFeedback(f));
      NothingOver(f);
      if Blank(f) {
        return false, credits, keys, shares;
      }
      var down := world.Fails();
      if down {
        return false, credits, keys, shares;
      }
      var list := ListExisting(f);
      if list != [] {
        ok, shares := ReplayFeedback(f, list);
        ListedAreAll(f, list, byID0, applier.events.byID);
      } else {
        ok, credits, keys, shares := DeliverFirst(f);
      }
    }

    lemma NothingOver(f: Feedback)
      ensures Conserves([]) && OverUsed([], UsagesOf(f.tenant, f.episode)) && DistinctIds([])
    {
    }

    /** Two deliveries in a row; `credits` and `keys` are those of the one that created events. Whatever
        the first one met, a second one in which no store call fails finishes the feedback. If the first
        created no event, the second delivers in full. But if the first was cut short after its first
        event, the second adds none: what it did not create is never handed out. */
    method Redeliver(f: Feedback)
      returns (first: bool, second: bool, ghost between: Log, ghost middle: Events, ghost credits: seq<Credit>, ghost keys: seq<Key>)
      requires Sound()
      modifies applier.experiences`data, applier.events, applier`leaked
      modifies learner.events, learner.patterns`byID, learner`leaked, world
      ensures FeedbackStep(f) && Later(old(world.log), between) && Later(between, world.log)
      ensures LedgerStep(old(applier.events.byID), middle, KeyOfFeedback(f))
      ensures LedgerStep(middle, applier.events.byID, KeyOfFeedback(f))
      ensures Known(f, middle) ==> applier.events.byID.Keys == middle.Keys
      ensures !Blank(f) && Ample(between, world.log) && old(EventsReady(f)) && UsagesReady(f) && old(PatternsKnown(f)) ==>
                && second && Finished(f, applier.events.byID)
                && (Known(f, middle) || !Idle(f) ==> Settled(f, Skip(f)) && PatternsApplied(learner.events.byID, KeyOfFeedback(f)))
      ensures !Known(f, old(applier.events.byID)) ==>
                && Begun(f, Firsts(credits), keys, old(applier.events.order), applier.events.order, applier.events.byID)
                && EffectiveOf(keys, applier.events.byID) == f.reward * f.confidence * WeightSum(Firsts(credits)[..|keys|])
                && (EffectiveOf(keys, applier.events.byID) == f.reward * f.confidence <==>
                      f.reward * f.confidence == 0.0 || WeightSum(Firsts(credits)[..|keys|]) == 1.0)
                && (credits != [] ==> Credited(f, credits))
      ensures !Known(f, middle) && second ==>
                && Credited(f, credits)
                && FullyDelivered(f, credits, keys, old(applier.events.order), applier.events.order, applier.events.byID)
    {
      hide Sound, LedgerStep, SeparateIn, AllLearnable, FullyDelivered, Conserves, OverUsed, DistinctUsages, Attributed,
           UsesShared, PatternLearner.AllKnownIn, SettledIn, PatternsApplied, ReadyIn, PatternLearner.UsesKnown, Finished, Known;
      hide WeightSum, EffectiveOf, IsEventOf, Begun, Firsts, PatternFrame;
      ghost var shares, credits2, keys2;
      first, credits, keys, shares := ApplyFeedbackReward(f);
      between, middle := world.log, applier.events.byID;
      ghost var patternEvents, ground := learner.events.byID, learner.TheGround();
      ghost var order := applier.events.order;
      second, credits2, keys2, shares := ApplyFeedbackReward(f);
      LedgerSteps(old(applier.events.byID), middle, applier.events.byID, KeyOfFeedback(f));
      FrameTwice(f, Skip(f), old(learner.events.byID), patternEvents, learner.events.byID, old(learner.TheGround()), ground,
                 learner.TheGround(), middle, applier.events.byID);
      KnownLater(f, old(applier.events.byID), middle);
      if UsagesReady(f) {
        CreditsLearnable(f, credits2);
      }
      if !Known(f, old(applier.events.byID)) {
        if Known(f, middle) {
          BegunStays(f, Firsts(credits), keys, old(applier.events.order), order, middle, applier.events.byID);
        } else {
          NoKeys(f, Firsts(credits), keys, old(applier.events.order), order, middle);
          credits, keys := credits2, keys2;
        }
        HandedOutIff(f, credits, keys, old(applier.events.order), applier.events.order, applier.events.byID);
      }
    }

    lemma KnownLater(f: Feedback, before: Events, after: Events)
      requires LedgerStep(before, after, KeyOfFeedback(f))
      ensures Known(f, before) ==> Known(f, after)
    {
      if k :| k in before && FeedbackOf(before[k]) == KeyOfFeedback(f) {
        assert k in after && FeedbackOf(after[k]) == KeyOfFeedback(f);
      }
    }

    lemma NoKeys(f: Feedback, heads: seq<Credit>, keys: seq<Key>, order0: seq<Key>, order: seq<Key>, byID: Events)
      requires Begun(f, heads, keys, order0, order, byID)
      ensures order == order0 || Known(f, byID)
    {
      if keys != [] {
        assert keys[0] in byID && FeedbackOf(byID[keys[0]]) == KeyOfFeedback(f);
      }
    }

    // -------------------------------------------------------------- what is never handed out

    /** A run: two used experiences with equal scores, a first delivery that stops after its first event,
        and another delivery. One half of the reward is never handed out. */
    method CutShortLosesHalf(f: Feedback, a: string, b: string) returns (ok: bool, ghost key: Key)
      requires Sound() && !Known(f, applier.events.byID) && (forall x :: (f.tenant, f.id, x) !in applier.events.unique)
      requires UsagesOf(f.tenant, f.episode) == [Usage(a, 1.0, 1.0), Usage(b, 1.0, 1.0)] && EpisodeLevel(f.target)
      modifies applier.experiences`data, applier.events, applier`leaked
      modifies learner.events, learner.patterns`byID, learner`leaked, world
      ensures Sound()
      ensures ok ==>
                && applier.events.order == old(applier.events.order) + [key]
                && key in applier.events.byID && applier.events.byID[key].effective == f.reward * f.confidence * 0.5
                && Finished(f, applier.events.byID)
    {
      hide Sound, LedgerStep, SeparateIn, UsesShared, PatternLearner.AllKnownIn, SettledIn, PatternsApplied, ReadyIn,
           PatternLearner.UsesKnown, Finished, FullyDelivered, Begun, AllLearnable, UsagesReady, MembersOutside;
      var used := UsagesOf(f.tenant, f.episode);
      var made := Credits(f, used);
      EqualScores(made, used);
      ok, key := CreateAndApplyEvent(f, made[0], Skip(f));
      if ok {
        ghost var middle := applier.events.byID;
        ghost var credits, keys, shares;
        assert IsEventOf(middle[key], f, made[0]);
        ok, credits, keys, shares := ApplyFeedbackReward(f);
        EventStays(f, middle, applier.events.byID, key, made[0]);
      }
    }

    lemma EqualScores(made: seq<Credit>, used: seq<Usage>)
      requires SpreadOver(made, used) && |used| == 2
      requires forall i | 0 <= i < 2 :: used[i].finalScore == 1.0 && used[i].retrievalScore == 1.0
      ensures |made| == 2 && made[0].weight == 0.5 && made[1].weight == 0.5
    {
      assert used[..1][..0] == [];
      assert ScoreSum(used[..1]) == 1.0;
      assert ScoreSum(used) == 2.0;
    }

    lemma EventStays(f: Feedback, before: Events, after: Events, key: Key, c: Credit)
      requires LedgerStep(before, after, KeyOfFeedback(f)) && key in before && IsEventOf(before[key], f, c)
      ensures key in after && IsEventOf(after[key], f, c) && Known(f, before)
    {
    }

    /** A run: one experience that was noted twice for the episode gets one event, for one half of the
        reward. */
    method RepeatedUseLosesHalf(f: Feedback, a: string) returns (ok: bool, ghost keys: seq<Key>)
      requires Sound() && !Known(f, applier.events.byID)
      requires UsagesOf(f.tenant, f.episode) == [Usage(a, 1.0, 1.0), Usage(a, 1.0, 1.0)] && EpisodeLevel(f.target)
      modifies applier.experiences`data, applier.events, applier`leaked
      modifies learner.events, learner.patterns`byID, learner`leaked, world
      ensures Sound()
      ensures ok ==>
                && |keys| == 1 && applier.events.order == old(applier.events.order) + keys
                && keys[0] in applier.events.byID && applier.events.byID[keys[0]].effective == f.reward * f.confidence * 0.5
                && Finished(f, applier.events.byID)
    {
      hide Sound, LedgerStep, SeparateIn, UsesShared, PatternLearner.AllKnownIn, SettledIn, PatternsApplied, ReadyIn,
           PatternLearner.UsesKnown, Finished, Begun, AllLearnable, UsagesReady, MembersOutside, SpreadOver, Firsts, WeightSum;
      ghost var credits, shares;
      var used := UsagesOf(f.tenant, f.episode);
      ok, credits, keys, shares := ApplyFeedbackReward(f);
      if ok {
        EqualScores(credits, used);
        SpreadInOrder(credits, used);
        OneFirst(credits);
      }
    }

    lemma OneFirst(credits: seq<Credit>)
      requires |credits| == 2 && credits[0].experience == credits[1].experience
      ensures Firsts(credits) == [credits[0]]
    {
      FirstsNext(credits, 0);
      FirstsNext(credits, 1);
      assert credits[..0] == [] && credits[..2] == credits;
      assert credits[..1][0].experience == credits[1].experience;
    }

    predicate Blank(f: Feedback) { f.tenant == "" || f.episode == "" || f.id == "" }

    ghost predicate Known(f: Feedback, byID: Events) {
      exists k :: k in byID && FeedbackOf(byID[k]) == KeyOfFeedback(f)
    }

    ghost predicate Finished(f: Feedback, byID: Events) {
      forall k | k in byID && FeedbackOf(byID[k]) == KeyOfFeedback(f) :: byID[k].status == Applied
    }

    lemma ListedAreAll(f: Feedback, list: seq<Event>, before: Events, after: Events)
      requires Lists(f, list, before) && LedgerStep(before, after, KeyOfFeedback(f)) && after.Keys == before.Keys
      requires forall k | k in before :: EventKey(before[k]) == k
      ensures AllApplied(list, after) ==> Finished(f, after)
      ensures (forall i | 0 <= i < |list| :: list[i].status == Applied) <==> Finished(f, before)
    {
    }

    method ListExisting(f: Feedback) returns (list: seq<Event>)
      requires Sound()
      ensures Lists(f, list, applier.events.byID)
      ensures list != [] <==> Known(f, applier.events.byID)
      ensures list == [] ==> forall x :: (f.tenant, f.id, x) !in applier.events.unique
      ensures EventsReady(f) ==> AllReady(list)
      ensures forall k | k in applier.events.byID :: EventKey(applier.events.byID[k]) == k
    {
      hide Listed, Ordered, BalancedBooks, PatternsBalanced, PatternIndexed, SourcesApplied;
      list := applier.events.ListByFeedback(f.tenant, f.id);
      if list != [] {
        assert EventKey(list[0]) in applier.events.byID;
      }
      forall x | (f.tenant, f.id, x) in applier.events.unique ensures list != [] {
        var k := (f.tenant, applier.events.unique[(f.tenant, f.id, x)]);
        assert applier.events.byID[k] in list;
      }
    }
  }

  /** No store call failed, and fewer writes were refused than one event has rounds. */
  predicate Ample(a: Log, b: Log) {
    b.faults == a.faults && b.conflicts < a.conflicts + MAX_ATTEMPTS * MAX_ATTEMPTS
  }

  ghost predicate DistinctUsages(used: seq<Usage>) {
    forall i, j | 0 <= i < j < |used| :: used[i].experience != used[j].experience
  }

  lemma QuietKeeps(b: Books, events': Events, k: Key)
    requires BalancedBooks(b) && Quiet(b.events, events', k)
    requires Ordered(events', Grown(b.order, b.events, k))
    ensures BalancedBooks(b.(order := Grown(b.order, b.events, k), events := events'))
  {
    hide Stands, DeltaOf, Plus;
    var b' := b.(order := Grown(b.order, b.events, k), events := events');
    forall x | x in b'.data ensures Stands(b'.data[x], b'.initial[x], Recorded(b'.order, b'.events, b'.leaked, x)) {
      QuietTotals(b.order, b.events, events', k, x);
    }
  }
}
