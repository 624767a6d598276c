/** Experiences, their Beta update and their store with optimistic locking
    (internal/experience/utility.go, internal/experience/memory.go, internal/experience/reinforce.go). */
module ExperienceStore {
  import opened BetaLedger
  import opened Wrappers

  /** Tenant and id, kept apart. */
  type Key = (string, string)

  datatype Status = Candidate | Active | Deprecated | Archived

  datatype Experience = Experience(
    tenant: string,
    id: string,
    status: Status,
    family: (string, string, string),
    utility: real,
    alpha: real,
    beta: real,
    successes: nat,
    failures: nat,
    useCount: nat,
    confidence: real,
    support: seq<string>,
    episode: string,
    dedupKey: string,
    version: nat)

  function KeyOf(e: Experience): Key { (e.tenant, e.id) }

  function PosteriorOf(e: Experience): Posterior { Posterior(e.alpha, e.beta, e.successes, e.failures) }

  function WithPosterior(e: Experience, p: Posterior, utility: real): Experience {
    e.(alpha := p.alpha, beta := p.beta, successes := p.successes, failures := p.failures, utility := utility)
  }

  /** Non-positive parameters are replaced by 1 before the first update. */
  function Normal(p: Posterior): Posterior {
    p.(alpha := if p.alpha <= 0.0 then 1.0 else p.alpha, beta := if p.beta <= 0.0 then 1.0 else p.beta)
  }

  /** None for a confidence out of range. */
  function ApplyBetaUpdate(e: Experience, reward: real, confidence: real): Option<Experience> {
    if confidence < 0.0 || confidence > 1.0 then None
    else
      var a := if e.alpha <= 0.0 then 1.0 else e.alpha;
      var b := if e.beta <= 0.0 then 1.0 else e.beta;
      if reward >= 0.0 then
        ProductIsNonNegative(reward, confidence);
        var alpha := a + reward * confidence;
        Some(e.(alpha := alpha, beta := b, successes := e.successes + 1, utility := alpha / (alpha + b)))
      else
        ProductIsNonNegative(-reward, confidence);
        var beta := b + -reward * confidence;
        Some(e.(alpha := a, beta := beta, failures := e.failures + 1, utility := a / (a + beta)))
  }

  /** An update moves the normalized posterior by the reward's delta, and the utility is its mean. */
  lemma BetaUpdateMoves(e: Experience, reward: real, confidence: real)
    requires 0.0 <= confidence <= 1.0
    ensures var p := Shift(Normal(PosteriorOf(e)), Delta(reward, confidence));
            && Positive(p) && 0.0 < Utility(p) < 1.0
            && ApplyBetaUpdate(e, reward, confidence) == Some(WithPosterior(e, p, Utility(p)))
  {
    DeltaIsProper(reward, confidence);
    UtilityIsProper(Shift(Normal(PosteriorOf(e)), Delta(reward, confidence)));
  }

  /** A number of updates one after the other, or None if one is rejected. */
  function ApplyAll(e: Experience, rs: seq<Reward>): Option<Experience> {
    if rs == [] then Some(e)
    else
      var before := ApplyAll(e, rs[..|rs| - 1]);
      if before.None? then None
      else ApplyBetaUpdate(before.value, rs[|rs| - 1].amount, rs[|rs| - 1].confidence)
  }

  predicate InRange(rs: seq<Reward>) {
    forall i | 0 <= i < |rs| :: 0.0 <= rs[i].confidence <= 1.0
  }

  /** What e has become after rewards worth t in all. */
  predicate Stands(e: Experience, initial: Experience, t: Totals) {
    if t.wins + t.losses == 0 then PosteriorOf(e) == PosteriorOf(initial) && e.utility == initial.utility
    else
      var p := Shift(Normal(PosteriorOf(initial)), t);
      Positive(p) && PosteriorOf(e) == p && e.utility == Utility(p) && 0.0 < e.utility < 1.0
  }

  lemma StandsAfter(e: Experience, initial: Experience, t: Totals, reward: real, confidence: real)
    requires Stands(e, initial, t) && Proper(t) && 0.0 <= confidence <= 1.0
    ensures ApplyBetaUpdate(e, reward, confidence).Some?
    ensures Stands(ApplyBetaUpdate(e, reward, confidence).value, initial, Plus(t, Delta(reward, confidence)))
    ensures Proper(Plus(t, Delta(reward, confidence)))
  {
    BetaUpdateMoves(e, reward, confidence);
    DeltaIsProper(reward, confidence);
    hide ApplyBetaUpdate, Delta, Utility;
    var d := Delta(reward, confidence);
    assert Shift(Normal(PosteriorOf(e)), d) == Shift(Normal(PosteriorOf(initial)), Plus(t, d));
  }

  /** After any sequence of updates the posterior is the normalized initial one plus the sum of the
      rewards; so it does not depend on their order. */
  lemma {:induction false} ApplyAllAdds(e: Experience, rs: seq<Reward>)
    requires InRange(rs)
    ensures ApplyAll(e, rs).Some? && Stands(ApplyAll(e, rs).value, e, TotalsOf(rs)) && Proper(TotalsOf(rs))
  {
    if rs != [] {
      var n := |rs| - 1;
      ApplyAllAdds(e, rs[..n]);
      StandsAfter(ApplyAll(e, rs[..n]).value, e, TotalsOf(rs[..n]), rs[n].amount, rs[n].confidence);
    }
  }

  lemma ApplyAllCommutes(e: Experience, rs: seq<Reward>, ss: seq<Reward>)
    requires InRange(rs) && InRange(ss) && multiset(rs) == multiset(ss)
    ensures var a, b := ApplyAll(e, rs), ApplyAll(e, ss);
            a.Some? && b.Some? && PosteriorOf(a.value) == PosteriorOf(b.value) && a.value.utility == b.value.utility
  {
    ApplyAllAdds(e, rs);
    ApplyAllAdds(e, ss);
    OrderIsIrrelevant(rs, ss);
  }

  // ---------------------------------------------------------------- the store

  datatype UpdateReply = Saved(exp: Experience) | Missing | Conflict

  class MemoryRepository {
    var data: map<Key, Experience>
    var dedupIdx: map<(string, string, string), string>

    constructor ()
      ensures data == map[] && dedupIdx == map[]
    {
      data, dedupIdx := map[], map[];
    }

    /** Every record is under its own key; a deduplication key points at an experience that has it. */
    ghost predicate Valid()
      reads this
    {
      && (forall k | k in data :: KeyOf(data[k]) == k)
      && (forall d | d in dedupIdx ::
            && (d.0, dedupIdx[d]) in data
            && data[(d.0, dedupIdx[d])].episode == d.1
            && data[(d.0, dedupIdx[d])].dedupKey == d.2)
    }

    /** At most one experience per tenant, source episode and deduplication key. */
    method Create(e: Experience) returns (ok: bool)
      requires Valid() && KeyOf(e) !in data
      modifies this
      ensures Valid()
      ensures ok <==> e.dedupKey == "" || e.episode == "" || (e.tenant, e.episode, e.dedupKey) !in old(dedupIdx)
      ensures data == if ok then old(data)[KeyOf(e) := e] else old(data)
      ensures dedupIdx == if ok && e.dedupKey != "" && e.episode != ""
                          then old(dedupIdx)[(e.tenant, e.episode, e.dedupKey) := e.id] else old(dedupIdx)
    {
      if e.dedupKey != "" && e.episode != "" {
        if (e.tenant, e.episode, e.dedupKey) in dedupIdx {
          return false;
        }
      }
      data := data[KeyOf(e) := e];
      if e.dedupKey != "" && e.episode != "" {
        dedupIdx := dedupIdx[(e.tenant, e.episode, e.dedupKey) := e.id];
      }
      ok := true;
    }

    /** Compare-and-swap: accepted only with the version last stored, which it advances. */
    method Update(e: Experience) returns (r: UpdateReply)
      modifies this`data
      ensures var k := KeyOf(e);
              if k !in old(data) then r == Missing && data == old(data)
              else if old(data)[k].version != e.version then r == Conflict && data == old(data)
              else r == Saved(e.(version := e.version + 1)) && data == old(data)[k := r.exp]
    {
      var k := KeyOf(e);
      if k !in data {
        return Missing;
      }
      var cur := data[k];
      if cur.version != e.version {
        return Conflict;
      }
      var saved := e.(version := cur.version + 1);
      data := data[k := saved];
      return Saved(saved);
    }

    method Get(k: Key) returns (r: Option<Experience>)
      ensures r == if k in data then Some(data[k]) else None
    {
      if k !in data {
        return None;
      }
      return Some(data[k]);
    }
  }

  // ---------------------------------------------------------------- reinforcement

  /** Raises the confidence towards 1. */
  function BumpConfidence(current: real, incoming: real): real {
    var base := if incoming > current then incoming else current;
    var bumped := base + (1.0 - base) * 0.15;
    if bumped > 1.0 then 1.0 else if bumped < 0.0 then 0.0 else bumped
  }

  /** It never lowers a confidence in range, reaches at least the incoming one, and stays in range. */
  lemma BumpRaises(current: real, incoming: real)
    requires 0.0 <= current <= 1.0 && 0.0 <= incoming <= 1.0
    ensures var c := BumpConfidence(current, incoming);
            && current <= c <= 1.0 && incoming <= c
            && (c == current ==> current == 1.0)
  {
  }

  /** Distinct ids, none of them blank. */
  predicate Clean(ids: seq<string>) {
    "" !in ids && forall i, j | 0 <= i < j < |ids| :: ids[i] != ids[j]
  }

  /** One loop over both lists, with the set of ids seen so far. */
  method AppendUniqueStrings(dst: seq<string>, add: seq<string>) returns (out: seq<string>)
    ensures Clean(out)
    ensures forall s :: s in out <==> s != "" && (s in dst || s in add)
    ensures Clean(dst) ==> dst <= out
  {
    out := [];
    var seen: set<string> := {};
    for i := 0 to |dst|
      invariant Clean(out) && (forall s :: s in seen <==> s in out)
      invariant forall s :: s in out <==> s != "" && s in dst[..i]
      invariant Clean(dst) ==> out == dst[..i]
    {
      if dst[i] == "" || dst[i] in seen {
        continue;
      }
      seen := seen + {dst[i]};
      out := out + [dst[i]];
    }
    assert dst[..|dst|] == dst;
    for i := 0 to |add|
      invariant Clean(out) && (forall s :: s in seen <==> s in out)
      invariant forall s :: s in out <==> s != "" && (s in dst || s in add[..i])
      invariant Clean(dst) ==> dst <= out
    {
      if add[i] == "" || add[i] in seen {
        continue;
      }
      seen := seen + {add[i]};
      out := out + [add[i]];
    }
    assert add[..|add|] == add;
  }
}
