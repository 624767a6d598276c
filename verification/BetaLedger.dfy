/** Beta posteriors and what moves them (internal/experience/utility.go,
    internal/experience/pattern_utility.go). */
module BetaLedger {

  datatype Posterior = Posterior(alpha: real, beta: real, successes: nat, failures: nat)

  /** The sum of a collection of rewards: how far they move a posterior. */
  datatype Totals = Totals(gain: real, loss: real, wins: nat, losses: nat)

  const NOTHING: Totals := Totals(0.0, 0.0, 0, 0)

  /** What one reward contributes: |reward| times confidence, on the side of its sign. */
  function Delta(reward: real, confidence: real): Totals {
    if reward >= 0.0 then Totals(reward * confidence, 0.0, 1, 0) else Totals(0.0, -reward * confidence, 0, 1)
  }

  function Plus(a: Totals, b: Totals): Totals {
    Totals(a.gain + b.gain, a.loss + b.loss, a.wins + b.wins, a.losses + b.losses)
  }

  function Shift(p: Posterior, t: Totals): Posterior {
    Posterior(p.alpha + t.gain, p.beta + t.loss, p.successes + t.wins, p.failures + t.losses)
  }

  /** Sums of rewards with confidence in [0, 1]. */
  predicate Proper(t: Totals) {
    t.gain >= 0.0 && t.loss >= 0.0 && (t.wins == 0 ==> t.gain == 0.0) && (t.losses == 0 ==> t.loss == 0.0)
  }

  lemma ProductIsNonNegative(x: real, y: real)
    requires x >= 0.0 && y >= 0.0
    ensures x * y >= 0.0
  {
  }

  lemma DeltaIsProper(reward: real, confidence: real)
    requires 0.0 <= confidence <= 1.0
    ensures Proper(Delta(reward, confidence))
  {
    if reward >= 0.0 {
      ProductIsNonNegative(reward, confidence);
    } else {
      ProductIsNonNegative(-reward, confidence);
    }
  }

  lemma PlusSwaps(a: Totals, d: Totals, c: Totals)
    ensures Plus(Plus(a, d), c) == Plus(Plus(a, c), d)
    ensures Plus(Plus(a, NOTHING), c) == Plus(a, c)
  {
  }

  lemma PlusAssociates(a: Totals, c: Totals, d: Totals)
    ensures Plus(a, Plus(c, d)) == Plus(Plus(a, c), d)
  {
  }

  lemma PlusNothing(a: Totals)
    ensures Plus(a, NOTHING) == a
  {
  }

  lemma NothingPlus(d: Totals)
    ensures Plus(NOTHING, d) == d
  {
  }

  function Utility(p: Posterior): real
    requires p.alpha + p.beta != 0.0
  {
    p.alpha / (p.alpha + p.beta)
  }

  predicate Positive(p: Posterior) { p.alpha > 0.0 && p.beta > 0.0 }

  /** A positive posterior's mean lies strictly between 0 and 1. */
  lemma UtilityIsProper(p: Posterior)
    requires Positive(p)
    ensures 0.0 < Utility(p) < 1.0
  {
    var u := Utility(p);
    assert u * (p.alpha + p.beta) == p.alpha;
  }

  // ---------------------------------------------------------------- sequences of rewards

  /** A reward with the confidence it was given. */
  datatype Reward = Reward(amount: real, confidence: real)

  function TotalsOf(rs: seq<Reward>): Totals {
    if rs == [] then NOTHING
    else Plus(TotalsOf(rs[..|rs| - 1]), Delta(rs[|rs| - 1].amount, rs[|rs| - 1].confidence))
  }

  lemma {:induction false} TotalsWithout(rs: seq<Reward>, i: nat)
    requires i < |rs|
    ensures TotalsOf(rs) == Plus(TotalsOf(rs[..i] + rs[i + 1..]), Delta(rs[i].amount, rs[i].confidence))
  {
    var n := |rs| - 1;
    if i == n {
      assert rs[..i] + rs[i + 1..] == rs[..n];
    } else {
      TotalsWithout(rs[..n], i);
      var rest := rs[..i] + rs[i + 1..];
      assert rest[..|rest| - 1] == rs[..n][..i] + rs[..n][i + 1..];
    }
  }

  /** The order in which rewards are applied does not matter. */
  lemma {:induction false} OrderIsIrrelevant(rs: seq<Reward>, ss: seq<Reward>)
    requires multiset(rs) == multiset(ss)
    ensures TotalsOf(rs) == TotalsOf(ss)
  {
    if rs == [] {
      assert |multiset(ss)| == 0;
    } else {
      var n := |rs| - 1;
      var last := rs[n];
      assert rs == rs[..n] + [last];
      assert last in multiset(ss);
      var i :| 0 <= i < |ss| && ss[i] == last;
      var rest := ss[..i] + ss[i + 1..];
      assert ss == ss[..i] + [last] + ss[i + 1..];
      assert multiset(rest) == multiset(ss) - multiset{last} == multiset(rs[..n]);
      OrderIsIrrelevant(rs[..n], rest);
      TotalsWithout(ss, i);
    }
  }
}
