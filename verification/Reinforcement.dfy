/** Corroborating evidence for an experience: it raises the confidence and leaves the posterior alone
    (internal/experience/reinforce.go). */
module Reinforcement {
  import opened BetaLedger
  import opened EventApplier
  import opened ExperienceStore
  import opened Interference
  import opened LearningEvents
  import opened Wrappers

  const MAX_REINFORCE_ATTEMPTS: nat := 5

  /** What an episode brings. */
  datatype Evidence = Evidence(episode: string, source: string, support: seq<string>, confidence: real)

  /** The source episode stays; otherwise it is the evidence's, or the reinforcing episode. */
  function SourceOf(e: Experience, ev: Evidence): string {
    if e.episode != "" then e.episode else if ev.source != "" then ev.source else ev.episode
  }

  /** m is e with this evidence merged in: nothing but source, support and confidence differ, and the
      support is the union, each id once. */
  ghost predicate Merged(e: Experience, ev: Evidence, m: Experience) {
    && m == e.(episode := SourceOf(e, ev), support := m.support, confidence := BumpConfidence(e.confidence, ev.confidence))
    && Clean(m.support) && (Clean(e.support) ==> e.support <= m.support)
    && forall s :: s in m.support <==>
         s != "" && (s in e.support || s == SourceOf(e, ev) || s == ev.episode || s == ev.source || s in ev.support)
  }

  method Merge(e: Experience, ev: Evidence) returns (m: Experience)
    ensures Merged(e, ev, m)
  {
    var source := SourceOf(e, ev);
    var ids := AppendUniqueStrings(e.support, [source]);
    ids := AppendUniqueStrings(ids, [ev.episode]);
    ids := AppendUniqueStrings(ids, [ev.source]);
    ids := AppendUniqueStrings(ids, ev.support);
    m := e.(episode := source, support := ids, confidence := BumpConfidence(e.confidence, ev.confidence));
  }

  /** A successful reinforcement reaches at least the incoming confidence. */
  lemma MergedIsConfident(e: Experience, ev: Evidence, m: Experience)
    requires Merged(e, ev, m) && 0.0 <= ev.confidence <= 1.0
    ensures ev.confidence <= m.confidence <= 1.0
    ensures PosteriorOf(m) == PosteriorOf(e) && m.utility == e.utility && KeyOf(m) == KeyOf(e)
    ensures m.version == e.version && m.useCount == e.useCount
  {
  }

  class ExperienceService {
    const applier: MemoryEventApplier

    constructor (applier: MemoryEventApplier)
      ensures this.applier == applier
    {
      this.applier := applier;
    }

    /** Reads, merges and stores, again after version conflicts. The learning books stay balanced
        whatever happens. Unless a store call fails it succeeds as soon as one attempt meets no
        conflict, with the merge of what the record, in `at`, was at that attempt. */
    method Reinforce(k: Key, ev: Evidence) returns (r: Option<Experience>, ghost at: map<Key, Experience>)
      requires applier.Balanced()
      modifies applier.experiences`data, applier.world`log
      ensures applier.Balanced() && Later(old(applier.world.log), applier.world.log)
      ensures PosteriorsKept(old(applier.experiences.data), applier.experiences.data)
      ensures r.Some? ==>
                && PosteriorsKept(old(applier.experiences.data), at) && StoredMerge(at, k, ev, r.value)
                && applier.experiences.data == at[k := r.value] && ev.confidence <= r.value.confidence <= 1.0
                && (applier.world.log == old(applier.world.log) ==> at == old(applier.experiences.data))
      ensures (&& Reinforceable(k, ev) && k in old(applier.experiences.data)
               && applier.world.log.conflicts < old(applier.world.log).conflicts + MAX_REINFORCE_ATTEMPTS) ==>
                (r.Some? <==> applier.world.log.faults == old(applier.world.log).faults)
    {
      hide BalancedBooks, Indexed, Listed, Ordered, PosteriorsKept, StoredMerge;
      at := applier.experiences.data;
      KeptAtFirst(applier.experiences.data);
      if !Reinforceable(k, ev) {
        return None, at;
      }
      for attempt := 0 to MAX_REINFORCE_ATTEMPTS
        invariant applier.Balanced() && Later(old(applier.world.log), applier.world.log)
        invariant PosteriorsKept(old(applier.experiences.data), applier.experiences.data)
        invariant applier.world.log.faults == old(applier.world.log).faults
        invariant applier.world.log.conflicts == old(applier.world.log).conflicts + attempt
        invariant attempt == 0 ==> applier.experiences.data == old(applier.experiences.data) && applier.world.log == old(applier.world.log)
      {
        ghost var data := applier.experiences.data;
        SameRecords(old(applier.experiences.data), data);
        var reply;
        reply, at := TryReinforce(k, ev);
        KeptOn(old(applier.experiences.data), data, applier.experiences.data);
        if reply.Some? {
          if reply.value.Saved? {
            KeptOn(old(applier.experiences.data), data, at);
          }
          return if reply.value.Saved? then Some(reply.value.exp) else None, at;
        }
      }
      return None, at;
    }

    lemma SameRecords(a: map<Key, Experience>, b: map<Key, Experience>)
      requires PosteriorsKept(a, b)
      ensures a.Keys == b.Keys
    {
    }

    predicate Reinforceable(k: Key, ev: Evidence) {
      k.0 != "" && k.1 != "" && ev.episode != "" && 0.0 <= ev.confidence <= 1.0
    }

    /** m is the merge of the record of k in `at`, stored as its next version. */
    ghost predicate StoredMerge(at: map<Key, Experience>, k: Key, ev: Evidence, m: Experience) {
      k in at && m.version == at[k].version + 1 && Merged(at[k], ev, m.(version := at[k].version))
    }

    /** One attempt; None asks for another one after a version conflict. */
    method TryReinforce(k: Key, ev: Evidence) returns (r: Option<UpdateReply>, ghost at: map<Key, Experience>)
      requires applier.Balanced() && 0.0 <= ev.confidence <= 1.0
      modifies applier.experiences`data, applier.world`log
      ensures applier.Balanced() && Later(old(applier.world.log), applier.world.log)
      ensures PosteriorsKept(old(applier.experiences.data), applier.experiences.data)
      ensures r.None? ==>
                && applier.world.log.faults == old(applier.world.log).faults
                && applier.world.log.conflicts == old(applier.world.log).conflicts + 1
      ensures r.Some? ==> applier.world.log.conflicts == old(applier.world.log).conflicts
      ensures r.Some? && r.value.Saved? ==>
                && PosteriorsKept(old(applier.experiences.data), at) && StoredMerge(at, k, ev, r.value.exp)
                && applier.experiences.data == at[k := r.value.exp] && ev.confidence <= r.value.exp.confidence <= 1.0
                && applier.world.log.faults == old(applier.world.log).faults
                && (applier.world.log == old(applier.world.log) ==> at == old(applier.experiences.data))
      ensures r.Some? && k in old(applier.experiences.data) ==>
                (r.value.Saved? <==> applier.world.log.faults == old(applier.world.log).faults)
    {
      hide BalancedBooks, Indexed, Listed, Ordered, PosteriorsKept, UsesKept, StoredMerge;
      ghost var b := applier.TheBooks();
      var exp := applier.Read(k);
      at := applier.experiences.data;
      SameRecords(b.data, at);
      OthersKeep(b, at, k, NOTHING);
      if exp.None? {
        return Some(UpdateReply.Missing), at;
      }
      var reply := StoreMerge(k, ev, exp.value);
      KeptOn(b.data, at, applier.experiences.data);
      r := if reply.Conflict? then None else Some(reply);
    }

    /** Missing also stands for a call that failed. */
    method StoreMerge(k: Key, ev: Evidence, e: Experience) returns (r: UpdateReply)
      requires applier.Balanced() && 0.0 <= ev.confidence <= 1.0
      requires k in applier.experiences.data && e == applier.experiences.data[k]
      modifies applier.experiences`data, applier.world`log
      ensures applier.Balanced() && Later(old(applier.world.log), applier.world.log)
      ensures PosteriorsKept(old(applier.experiences.data), applier.experiences.data)
      ensures applier.world.log.faults == old(applier.world.log).faults + if r.Missing? then 1 else 0
      ensures applier.world.log.conflicts == old(applier.world.log).conflicts + if r.Conflict? then 1 else 0
      ensures r.Saved? ==>
                && StoredMerge(old(applier.experiences.data), k, ev, r.exp) && ev.confidence <= r.exp.confidence <= 1.0
                && applier.experiences.data == old(applier.experiences.data)[k := r.exp]
    {
      hide BalancedBooks, Indexed, Listed, Ordered, PosteriorsKept, UsesKept, Merged;
      ghost var b := applier.TheBooks();
      BooksAreKeyed(b);
      var merged := Merge(e, ev);
      MergedIsConfident(e, ev, merged);
      KeptAtFirst(b.data);
      var w := applier.Write(merged);
      if w.Some? && w.value.Saved? {
        KeptBut(b.data, b.data, k, w.value.exp);
        assert w.value.exp.(version := e.version) == merged;
      }
      OthersKeep(b, applier.experiences.data, k, NOTHING);
      r := if w.None? then UpdateReply.Missing else w.value;
    }
  }
}
