/** How the reward of one feedback is split over the experiences that were used
    (internal/attribution/score.go, internal/attribution/targeted.go). */
module Attribution {
  datatype Usage = Usage(experience: string, finalScore: real, retrievalScore: real)

  datatype Credit = Credit(experience: string, weight: real, score: real)

  /** An influence edge from an experience to an action of the episode. */
  datatype Link = Link(experience: string, action: string, tool: string, fields: seq<string>, influence: real)

  /** What a feedback is about; Other is any type the strategy does not know. */
  datatype Target =
    | Episode
    | OneExperience(experience: string)
    | Action(action: string)
    | ActionField(action: string, field: string)
    | Tool(tool: string)
    | Other

  function WeightSum(credits: seq<Credit>): real {
    if credits == [] then 0.0 else WeightSum(credits[..|credits| - 1]) + credits[|credits| - 1].weight
  }

  ghost predicate NonNegative(credits: seq<Credit>) {
    forall i | 0 <= i < |credits| :: credits[i].weight >= 0.0
  }

  /** What every strategy promises of its credits. */
  ghost predicate Conserves(credits: seq<Credit>) {
    NonNegative(credits) && (credits != [] ==> WeightSum(credits) == 1.0)
  }

  ghost predicate OverUsed(credits: seq<Credit>, usages: seq<Usage>) {
    forall i | 0 <= i < |credits| :: IsUsed(usages, credits[i].experience)
  }

  // ---------------------------------------------------------------- by score

  /** The final score, or the retrieval score if that is not positive; never negative. */
  function Score(u: Usage): real {
    var s := if u.finalScore <= 0.0 then u.retrievalScore else u.finalScore;
    if s < 0.0 then 0.0 else s
  }

  function ScoreSum(usages: seq<Usage>): real {
    if usages == [] then 0.0 else ScoreSum(usages[..|usages| - 1]) + Score(usages[|usages| - 1])
  }

  lemma {:induction false} ScoreSumNonNegative(usages: seq<Usage>)
    ensures ScoreSum(usages) >= 0.0
  {
    if usages != [] {
      ScoreSumNonNegative(usages[..|usages| - 1]);
    }
  }

  method RawScores(usages: seq<Usage>) returns (raw: seq<real>, sum: real)
    ensures |raw| == |usages| && forall j | 0 <= j < |raw| :: raw[j] == Score(usages[j])
    ensures sum == ScoreSum(usages)
  {
    sum := 0.0;
    raw := [];
    for i := 0 to |usages|
      invariant |raw| == i && forall j | 0 <= j < i :: raw[j] == Score(usages[j])
      invariant sum == ScoreSum(usages[..i])
    {
      var score := usages[i].finalScore;
      if score <= 0.0 {
        score := usages[i].retrievalScore;
      }
      if score < 0.0 {
        score := 0.0;
      }
      raw := raw + [score];
      assert usages[..i + 1][..i] == usages[..i];
      sum := sum + score;
    }
    assert usages[..|usages|] == usages;
  }

  lemma WeightSumAppend(credits: seq<Credit>, c: Credit)
    ensures WeightSum(credits + [c]) == WeightSum(credits) + c.weight
  {
    assert (credits + [c])[..|credits|] == credits;
  }

  lemma TimesQuotient(x: real, y: real)
    requires y > 0.0
    ensures (x / y) * y == x
  {
  }

  lemma QuotientSum(w: real, x: real, y: real, total: real)
    requires y > 0.0 && w * y == total
    ensures (w + x / y) * y == total + x
  {
    TimesQuotient(x, y);
  }

  function Share(x: real, sum: real): real
    requires sum > 0.0
  {
    x / sum
  }

  /** The weights so far, in units of 1 / sum, come to `total`. */
  predicate Amounts(credits: seq<Credit>, sum: real, total: real) {
    WeightSum(credits) * sum == total
  }

  lemma ShareSum(credits: seq<Credit>, c: Credit, x: real, sum: real, total: real)
    requires sum > 0.0 && Amounts(credits, sum, total) && c.weight == Share(x, sum)
    ensures Amounts(credits + [c], sum, total + x)
  {
    WeightSumAppend(credits, c);
    QuotientSum(WeightSum(credits), x, sum, total);
  }

  lemma WholeIsOne(credits: seq<Credit>, sum: real)
    requires sum > 0.0 && Amounts(credits, sum, sum)
    ensures WeightSum(credits) == 1.0
  {
  }

  lemma NoAmount(sum: real)
    ensures Amounts([], sum, 0.0)
  {
  }

  method EqualShares(usages: seq<Usage>) returns (out: seq<Credit>)
    requires |usages| > 1
    ensures |out| == |usages| && WeightSum(out) == 1.0
    ensures forall i | 0 <= i < |out| :: out[i] == Credit(usages[i].experience, Share(1.0, |usages| as real), 0.0)
  {
    hide Share, WeightSum, Amounts;
    var n := |usages| as real;
    out := [];
    NoAmount(n);
    for i := 0 to |usages|
      invariant |out| == i && Amounts(out, n, i as real)
      invariant forall j | 0 <= j < i :: out[j] == Credit(usages[j].experience, Share(1.0, n), 0.0)
    {
      var c := Credit(usages[i].experience, Share(1.0, n), 0.0);
      ShareSum(out, c, 1.0, n, i as real);
      out := out + [c];
    }
    WholeIsOne(out, n);
  }

  method Proportional(usages: seq<Usage>, raw: seq<real>, sum: real) returns (out: seq<Credit>)
    requires |raw| == |usages| && forall j | 0 <= j < |raw| :: raw[j] == Score(usages[j])
    requires sum == ScoreSum(usages) && sum > 0.0
    ensures |out| == |usages| && WeightSum(out) == 1.0
    ensures forall i | 0 <= i < |out| :: out[i] == Credit(usages[i].experience, Share(raw[i], sum), raw[i])
  {
    hide Share, WeightSum, Amounts;
    out := [];
    NoAmount(sum);
    for i := 0 to |usages|
      invariant |out| == i && Amounts(out, sum, ScoreSum(usages[..i]))
      invariant forall j | 0 <= j < i :: out[j] == Credit(usages[j].experience, Share(raw[j], sum), raw[j])
    {
      var c := Credit(usages[i].experience, Share(raw[i], sum), raw[i]);
      ShareSum(out, c, raw[i], sum, ScoreSum(usages[..i]));
      out := out + [c];
      assert usages[..i + 1][..i] == usages[..i];
    }
    assert usages[..|usages|] == usages;
    WholeIsOne(out, sum);
  }

  lemma SharesConserve(out: seq<Credit>, raw: seq<real>, sum: real)
    requires |out| == |raw| && sum > 0.0 && WeightSum(out) == 1.0
    requires forall i | 0 <= i < |out| :: raw[i] >= 0.0 && out[i].weight == Share(raw[i], sum)
    ensures Conserves(out)
    ensures forall i | 0 <= i < |out| :: out[i].weight * sum == raw[i]
  {
    hide WeightSum;
    forall i | 0 <= i < |out| ensures out[i].weight * sum == raw[i] && out[i].weight >= 0.0 {
      TimesQuotient(raw[i], sum);
    }
  }

  lemma EqualSharesConserve(out: seq<Credit>)
    requires WeightSum(out) == 1.0 && forall i | 0 <= i < |out| :: out[i].weight == Share(1.0, |out| as real)
    ensures Conserves(out)
  {
    hide WeightSum;
  }

  lemma WholeConserves(c: Credit)
    requires c.weight == 1.0
    ensures Conserves([c])
  {
    WeightSumAppend([], c);
    assert [] + [c] == [c];
  }

  /** One credit per usage, in order, in proportion to the scores; equal ones if no score is positive. */
  ghost predicate SpreadOver(out: seq<Credit>, usages: seq<Usage>) {
    && |out| == |usages|
    && (forall i | 0 <= i < |out| :: out[i].experience == usages[i].experience)
    && (|usages| > 1 && ScoreSum(usages) > 0.0 ==>
          forall i | 0 <= i < |out| :: out[i].weight * ScoreSum(usages) == Score(usages[i]) == out[i].score
                                       && out[i].score == (if usages[i].finalScore > 0.0 then usages[i].finalScore
                                                           else if usages[i].retrievalScore > 0.0 then usages[i].retrievalScore else 0.0))
    && (|usages| > 1 && ScoreSum(usages) == 0.0 ==>
          forall i, j | 0 <= i < |out| && 0 <= j < |out| :: out[i].weight == out[j].weight)
  }

  method AttributeByScores(usages: seq<Usage>) returns (out: seq<Credit>)
    ensures Conserves(out) && SpreadOver(out, usages)
  {
    hide Share, Conserves, WeightSum, ScoreSum;
    if |usages| == 0 {
      NothingConserves();
      return [];
    }
    if |usages| == 1 {
      var score := usages[0].finalScore;
      if score <= 0.0 {
        score := usages[0].retrievalScore;
      }
      if score <= 0.0 {
        score := 1.0;
      }
      WholeConserves(Credit(usages[0].experience, 1.0, score));
      return [Credit(usages[0].experience, 1.0, score)];
    }
    ScoreSumNonNegative(usages);
    var raw, sum := RawScores(usages);
    if sum == 0.0 {
      out := EqualShares(usages);
      EqualSharesConserve(out);
    } else {
      out := Proportional(usages, raw, sum);
      SharesConserve(out, raw, sum);
    }
  }

  lemma NothingConserves()
    ensures Conserves([])
  {
  }

  // ---------------------------------------------------------------- by influence

  /** Lexicographic order of identifiers. */
  predicate Before(a: string, b: string) {
    b != [] && (a == [] || a[0] < b[0] || (a[0] == b[0] && Before(a[1..], b[1..])))
  }

  lemma {:induction false} BeforeIsTotal(a: string, b: string)
    ensures a == b || Before(a, b) || Before(b, a)
    ensures !(Before(a, b) && Before(b, a)) && !Before(a, a)
  {
    if a != [] && b != [] && a[0] == b[0] {
      BeforeIsTotal(a[1..], b[1..]);
      assert a == [a[0]] + a[1..] && b == [b[0]] + b[1..];
    }
    if a != [] {
      BeforeIsTotal(a[1..], a[1..]);
    }
  }

  lemma {:induction false} BeforeIsTransitive(a: string, b: string, c: string)
    requires Before(a, b) && Before(b, c)
    ensures Before(a, c)
  {
    if a != [] && a[0] == b[0] == c[0] {
      BeforeIsTransitive(a[1..], b[1..], c[1..]);
    }
  }

  ghost predicate SortedById(credits: seq<Credit>) {
    forall i, j | 0 <= i < j < |credits| :: Before(credits[i].experience, credits[j].experience)
  }

  ghost predicate DistinctIds(credits: seq<Credit>) {
    forall i, j | 0 <= i < j < |credits| :: credits[i].experience != credits[j].experience
  }

  lemma SortedAreDistinct(credits: seq<Credit>)
    requires SortedById(credits)
    ensures DistinctIds(credits)
  {
    forall i, j | 0 <= i < j < |credits| ensures credits[i].experience != credits[j].experience {
      BeforeIsTotal(credits[i].experience, credits[j].experience);
    }
  }

  lemma {:induction false} SplitSum(credits: seq<Credit>, k: nat)
    requires k <= |credits|
    ensures WeightSum(credits) == WeightSum(credits[..k]) + WeightSum(credits[k..])
  {
    if k == |credits| {
      assert credits[..k] == credits;
    } else {
      var n := |credits| - 1;
      SplitSum(credits[..n], k);
      assert credits[..n][..k] == credits[..k] && credits[..n][k..] == credits[k..][..n - k];
    }
  }

  lemma SwapKeepsSum(credits: seq<Credit>, i: nat, j: nat)
    requires i < j < |credits|
    ensures WeightSum(credits[i := credits[j]][j := credits[i]]) == WeightSum(credits)
  {
    hide WeightSum;
    var a, b, c := credits[..i], credits[i + 1..j], credits[j + 1..];
    var swapped := credits[i := credits[j]][j := credits[i]];
    FiveSum(a, credits[i], b, credits[j], c);
    FiveSum(a, credits[j], b, credits[i], c);
    assert credits == a + [credits[i]] + b + [credits[j]] + c;
    assert swapped == a + [credits[j]] + b + [credits[i]] + c;
  }

  lemma FiveSum(a: seq<Credit>, x: Credit, b: seq<Credit>, y: Credit, c: seq<Credit>)
    ensures WeightSum(a + [x] + b + [y] + c) == WeightSum(a) + x.weight + WeightSum(b) + y.weight + WeightSum(c)
  {
    WeightSumAppend(a, x);
    ConcatSum(a + [x], b);
    WeightSumAppend(a + [x] + b, y);
    ConcatSum(a + [x] + b + [y], c);
  }

  lemma ConcatSum(a: seq<Credit>, b: seq<Credit>)
    ensures WeightSum(a + b) == WeightSum(a) + WeightSum(b)
  {
    SplitSum(a + b, |a|);
    assert (a + b)[..|a|] == a && (a + b)[|a|..] == b;
  }

  /** The first i credits are in place. */
  ghost predicate PrefixSorted(s: seq<Credit>, i: nat) {
    forall x, y | 0 <= x < i && x < y < |s| :: Before(s[x].experience, s[y].experience)
  }

  /** Credit i precedes those between it and j. */
  ghost predicate LeastSoFar(s: seq<Credit>, i: nat, j: nat)
    requires i < |s|
  {
    forall y | i < y < j && y < |s| :: Before(s[i].experience, s[y].experience)
  }

  /** A rearrangement of s with the same weight in all. */
  ghost predicate Rearranges(s': seq<Credit>, s: seq<Credit>) {
    multiset(s') == multiset(s) && WeightSum(s') == WeightSum(s) && |s'| == |s| && DistinctIds(s')
  }

  lemma SwapStep(s: seq<Credit>, i: nat, j: nat)
    requires i < j < |s| && DistinctIds(s) && PrefixSorted(s, i) && LeastSoFar(s, i, j)
    requires Before(s[j].experience, s[i].experience)
    ensures var s' := s[i := s[j]][j := s[i]];
            Rearranges(s', s) && PrefixSorted(s', i) && LeastSoFar(s', i, j + 1)
  {
    hide Before, WeightSum;
    var s' := s[i := s[j]][j := s[i]];
    SwapKeepsSum(s, i, j);
    forall y | i < y < j + 1 ensures Before(s'[i].experience, s'[y].experience) {
      if y < j {
        BeforeIsTransitive(s[j].experience, s[i].experience, s[y].experience);
      }
    }
    forall x, y | 0 <= x < y < |s'| ensures s'[x].experience != s'[y].experience {
    }
  }

  lemma StayStep(s: seq<Credit>, i: nat, j: nat)
    requires i < j < |s| && DistinctIds(s) && LeastSoFar(s, i, j)
    requires !Before(s[j].experience, s[i].experience)
    ensures LeastSoFar(s, i, j + 1)
  {
    BeforeIsTotal(s[i].experience, s[j].experience);
  }

  lemma PlacedStep(s: seq<Credit>, i: nat)
    requires i < |s| && PrefixSorted(s, i) && LeastSoFar(s, i, |s|)
    ensures PrefixSorted(s, i + 1)
  {
  }

  /** The exchange sort, in place. */
  method SortById(a: array<Credit>)
    requires DistinctIds(a[..])
    modifies a
    ensures Rearranges(a[..], old(a[..])) && SortedById(a[..])
  {
    for i := 0 to a.Length
      invariant Rearranges(a[..], old(a[..])) && PrefixSorted(a[..], i)
    {
      PlaceAt(a, i);
    }
  }

  /** The inner loop: brings the least of the rest to position i. */
  method PlaceAt(a: array<Credit>, i: nat)
    requires i < a.Length && DistinctIds(a[..]) && PrefixSorted(a[..], i)
    modifies a
    ensures Rearranges(a[..], old(a[..])) && PrefixSorted(a[..], i + 1)
  {
    hide Before, WeightSum, PrefixSorted, LeastSoFar;
    FirstIsLeast(a[..], i);
    for j := i + 1 to a.Length
      invariant Rearranges(a[..], old(a[..])) && PrefixSorted(a[..], i) && LeastSoFar(a[..], i, j)
    {
      ghost var was := a[..];
      if Before(a[j].experience, a[i].experience) {
        SwapStep(was, i, j);
        a[i], a[j] := a[j], a[i];
        assert a[..] == was[i := was[j]][j := was[i]];
      } else {
        StayStep(was, i, j);
      }
    }
    PlacedStep(a[..], i);
  }

  lemma FirstIsLeast(s: seq<Credit>, i: nat)
    requires i < |s|
    ensures LeastSoFar(s, i, i + 1)
  {
  }

  /** The sum of the positive weights of these ids. */
  ghost function PositiveSum(weights: map<string, real>, ids: set<string>): real
    requires ids <= weights.Keys
  {
    if ids == {} then 0.0
    else
      var id :| id in ids;
      PositiveSum(weights, ids - {id}) + if weights[id] > 0.0 then weights[id] else 0.0
  }

  lemma {:induction false} PickAny(weights: map<string, real>, ids: set<string>, id: string)
    requires ids <= weights.Keys && id in ids
    ensures PositiveSum(weights, ids) ==
            PositiveSum(weights, ids - {id}) + if weights[id] > 0.0 then weights[id] else 0.0
    decreases |ids|
  {
    var x :| x in ids && PositiveSum(weights, ids) ==
                         PositiveSum(weights, ids - {x}) + if weights[x] > 0.0 then weights[x] else 0.0;
    if x != id {
      PickAny(weights, ids - {x}, id);
      PickAny(weights, ids - {id}, x);
      assert ids - {x} - {id} == ids - {id} - {x};
    }
  }

  lemma {:induction false} SumIsPositive(weights: map<string, real>, ids: set<string>)
    requires ids <= weights.Keys
    ensures PositiveSum(weights, ids) >= 0.0
    ensures PositiveSum(weights, ids) > 0.0 <==> exists id :: id in ids && weights[id] > 0.0
    decreases |ids|
  {
    if ids != {} {
      var id :| id in ids && PositiveSum(weights, ids) ==
                             PositiveSum(weights, ids - {id}) + if weights[id] > 0.0 then weights[id] else 0.0;
      SumIsPositive(weights, ids - {id});
      if weights[id] <= 0.0 {
        assert forall x | x in ids && weights[x] > 0.0 :: x in ids - {id};
      }
    }
  }

  /** One credit for each positive weight, in proportion to it. */
  ghost predicate Normalizes(out: seq<Credit>, weights: map<string, real>) {
    && (forall i | 0 <= i < |out| :: IsShare(out[i], weights, PositiveSum(weights, weights.Keys)))
    && (forall id | id in weights && weights[id] > 0.0 :: exists i :: 0 <= i < |out| && out[i].experience == id)
  }

  predicate IsShare(c: Credit, weights: map<string, real>, sum: real) {
    && c.experience in weights && weights[c.experience] > 0.0
    && c.score == weights[c.experience] && c.weight * sum == weights[c.experience]
  }

  method PositiveTotal(weights: map<string, real>) returns (sum: real)
    ensures sum == PositiveSum(weights, weights.Keys)
  {
    sum := 0.0;
    var left := weights.Keys;
    while left != {}
      invariant left <= weights.Keys && sum + PositiveSum(weights, left) == PositiveSum(weights, weights.Keys)
      decreases |left|
    {
      var id :| id in left;
      PickAny(weights, left, id);
      left := left - {id};
      if weights[id] > 0.0 {
        sum := sum + weights[id];
      }
    }
  }

  /** The credits in the order in which the map was traversed. */
  method Shares(weights: map<string, real>, sum: real) returns (out: seq<Credit>)
    requires sum == PositiveSum(weights, weights.Keys) && sum > 0.0
    ensures DistinctIds(out) && WeightSum(out) == 1.0 && Normalizes(out, weights)
  {
    hide WeightSum, Amounts, PositiveSum, Share;
    out := [];
    var left := weights.Keys;
    ghost var taken := 0.0;
    NoAmount(sum);
    while left != {}
      invariant left <= weights.Keys && taken + PositiveSum(weights, left) == sum
      invariant DistinctIds(out) && Amounts(out, sum, taken)
      invariant forall i | 0 <= i < |out| ::
        var id := out[i].experience;
        id in weights && id !in left && weights[id] > 0.0 && out[i] == Credit(id, Share(weights[id], sum), weights[id])
      invariant forall id | id in weights && id !in left && weights[id] > 0.0 ::
        exists i :: 0 <= i < |out| && out[i].experience == id
      decreases |left|
    {
      var id :| id in left;
      PickAny(weights, left, id);
      left := left - {id};
      if weights[id] <= 0.0 {
        continue;
      }
      var c := Credit(id, Share(weights[id], sum), weights[id]);
      ShareSum(out, c, weights[id], sum, taken);
      ghost var before := out;
      out := out + [c];
      taken := taken + weights[id];
      assert out[|before|].experience == id;
      assert forall i | 0 <= i < |before| :: out[i] == before[i];
    }
    NothingLeft(weights);
    WholeIsOne(out, sum);
    forall i | 0 <= i < |out| ensures IsShare(out[i], weights, sum) {
      ShareTimes(weights[out[i].experience], sum);
    }
  }

  lemma NothingLeft(weights: map<string, real>)
    ensures PositiveSum(weights, {}) == 0.0
  {
  }

  lemma ShareTimes(x: real, sum: real)
    requires sum > 0.0
    ensures Share(x, sum) * sum == x
  {
    TimesQuotient(x, sum);
  }

  method InOrder(shares: seq<Credit>) returns (out: seq<Credit>)
    requires DistinctIds(shares)
    ensures SortedById(out) && WeightSum(out) == WeightSum(shares)
    ensures forall i | 0 <= i < |out| :: out[i] in shares
    ensures forall i | 0 <= i < |shares| :: shares[i] in out
  {
    hide WeightSum;
    var a := new Credit[|shares|](i requires 0 <= i < |shares| => shares[i]);
    assert a[..] == shares;
    SortById(a);
    out := a[..];
    SameMembers(out, shares);
  }

  method NormalizeInfluence(weights: map<string, real>) returns (out: seq<Credit>)
    ensures Conserves(out) && SortedById(out) && Normalizes(out, weights)
  {
    hide WeightSum, Normalizes, NonNegative;
    SumIsPositive(weights, weights.Keys);
    var sum := PositiveTotal(weights);
    if sum <= 0.0 {
      NothingToNormalize(weights);
      return [];
    }
    var shares := Shares(weights, sum);
    out := InOrder(shares);
    StaysNormalized(out, shares, weights, sum);
  }

  lemma NothingToNormalize(weights: map<string, real>)
    requires forall id | id in weights :: weights[id] <= 0.0
    ensures Normalizes([], weights) && NonNegative([])
  {
  }

  lemma StaysNormalized(out: seq<Credit>, shares: seq<Credit>, weights: map<string, real>, sum: real)
    requires Normalizes(shares, weights) && sum == PositiveSum(weights, weights.Keys) && sum > 0.0
    requires forall i | 0 <= i < |out| :: out[i] in shares
    requires forall i | 0 <= i < |shares| :: shares[i] in out
    ensures Normalizes(out, weights) && NonNegative(out)
  {
    hide PositiveSum, IsShare;
    forall i | 0 <= i < |out| ensures IsShare(out[i], weights, sum) {
      var j :| 0 <= j < |shares| && shares[j] == out[i];
      assert IsShare(shares[j], weights, sum);
    }
    forall id | id in weights && weights[id] > 0.0
      ensures exists i :: 0 <= i < |out| && out[i].experience == id
    {
      var j :| 0 <= j < |shares| && shares[j].experience == id;
      var i :| 0 <= i < |out| && out[i] == shares[j];
    }
    NormalizedNonNegative(out, weights, sum);
  }

  /** Rearranging keeps what holds of every credit, and which ids occur. */
  lemma SameMembers(out: seq<Credit>, shares: seq<Credit>)
    requires multiset(out) == multiset(shares)
    ensures forall i | 0 <= i < |out| :: out[i] in shares
    ensures forall i | 0 <= i < |shares| :: shares[i] in out
  {
    forall i | 0 <= i < |out| ensures out[i] in shares {
      assert out[i] in multiset(out);
    }
    forall i | 0 <= i < |shares| ensures shares[i] in out {
      assert shares[i] in multiset(shares);
    }
  }

  lemma NormalizedNonNegative(out: seq<Credit>, weights: map<string, real>, sum: real)
    requires sum > 0.0 && forall i | 0 <= i < |out| :: IsShare(out[i], weights, sum)
    ensures NonNegative(out)
  {
    forall i | 0 <= i < |out| ensures out[i].weight >= 0.0 {
      assert IsShare(out[i], weights, sum);
    }
  }

  // ---------------------------------------------------------------- targets

  /** The influence of one link; unknown influence counts as 1. */
  function Influence(l: Link): real {
    if l.influence <= 0.0 then 1.0 else l.influence
  }

  predicate IsUsed(usages: seq<Usage>, id: string) {
    exists j :: 0 <= j < |usages| && usages[j].experience == id
  }

  /** The influence of an experience over the selected links. */
  function TotalInfluence(links: seq<Link>, select: Link -> bool, id: string): real {
    if links == [] then 0.0
    else
      var l := links[|links| - 1];
      TotalInfluence(links[..|links| - 1], select, id) +
      if select(l) && l.experience == id then Influence(l) else 0.0
  }

  lemma {:induction false} InfluenceIsPositive(links: seq<Link>, select: Link -> bool, id: string)
    ensures TotalInfluence(links, select, id) >= 0.0
    ensures TotalInfluence(links, select, id) > 0.0 <==>
            exists j :: 0 <= j < |links| && select(links[j]) && links[j].experience == id
  {
    if links != [] {
      InfluenceIsPositive(links[..|links| - 1], select, id);
      if exists j :: 0 <= j < |links| && select(links[j]) && links[j].experience == id {
        var j :| 0 <= j < |links| && select(links[j]) && links[j].experience == id;
        assert j < |links| - 1 ==> links[..|links| - 1][j] == links[j];
      }
    }
  }

  /** Exactly the used experiences with a selected link, in proportion to their influence. */
  ghost predicate Influenced(out: seq<Credit>, usages: seq<Usage>, links: seq<Link>, select: Link -> bool) {
    && (forall i | 0 <= i < |out| :: out[i].score == TotalInfluence(links, select, out[i].experience) > 0.0)
    && (forall i, j | 0 <= i < |out| && 0 <= j < |out| :: out[i].weight * out[j].score == out[j].weight * out[i].score)
    && (forall j | 0 <= j < |links| && select(links[j]) && IsUsed(usages, links[j].experience) ::
          exists i :: 0 <= i < |out| && out[i].experience == links[j].experience)
  }

  /** Accumulates the influence of the selected links of used experiences, and normalizes it. */
  method CreditByLinks(usages: seq<Usage>, links: seq<Link>, select: Link -> bool) returns (out: seq<Credit>)
    ensures Conserves(out) && SortedById(out) && OverUsed(out, usages) && Influenced(out, usages, links, select)
  {
    var weights := Weights(usages, links, select);
    out := NormalizeInfluence(weights);
    forall id ensures TotalInfluence(links, select, id) > 0.0 <==>
                      exists j :: 0 <= j < |links| && select(links[j]) && links[j].experience == id {
      InfluenceIsPositive(links, select, id);
    }
    SameProportion(out, weights);
  }

  lemma SameProportion(out: seq<Credit>, weights: map<string, real>)
    requires Normalizes(out, weights)
    ensures forall i, j | 0 <= i < |out| && 0 <= j < |out| :: out[i].weight * out[j].score == out[j].weight * out[i].score
  {
    var sum := PositiveSum(weights, weights.Keys);
    forall i, j | 0 <= i < |out| && 0 <= j < |out|
      ensures out[i].weight * out[j].score == out[j].weight * out[i].score
    {
      assert IsShare(out[i], weights, sum) && IsShare(out[j], weights, sum);
      CrossProduct(out[i].weight, out[j].weight, sum, out[i].score, out[j].score);
    }
  }

  lemma CrossProduct(a: real, b: real, sum: real, x: real, y: real)
    requires a * sum == x && b * sum == y
    ensures a * y == b * x
  {
    assert a * y == a * (b * sum) == b * (a * sum);
  }

  method Weights(usages: seq<Usage>, links: seq<Link>, select: Link -> bool) returns (weights: map<string, real>)
    ensures forall id | id in weights :: IsUsed(usages, id) && weights[id] == TotalInfluence(links, select, id) > 0.0
    ensures forall j | 0 <= j < |links| && select(links[j]) && IsUsed(usages, links[j].experience) ::
              links[j].experience in weights
  {
    weights := map[];
    for i := 0 to |links|
      invariant forall id | id in weights :: IsUsed(usages, id) && weights[id] == TotalInfluence(links[..i], select, id) > 0.0
      invariant forall j | 0 <= j < i && select(links[j]) && IsUsed(usages, links[j].experience) ::
        links[j].experience in weights
      invariant forall id | id !in weights && IsUsed(usages, id) :: TotalInfluence(links[..i], select, id) == 0.0
    {
      var l := links[i];
      assert links[..i + 1][..i] == links[..i];
      if !select(l) || !IsUsed(usages, l.experience) {
        continue;
      }
      var so := if l.experience in weights then weights[l.experience] else 0.0;
      weights := weights[l.experience := so + if l.influence <= 0.0 then 1.0 else l.influence];
    }
    assert links[..|links|] == links;
  }

  method CreditExactExperience(usages: seq<Usage>, id: string) returns (out: seq<Credit>)
    ensures Conserves(out) && SortedById(out) && OverUsed(out, usages)
    ensures out != [] <==> id != "" && IsUsed(usages, id)
    ensures forall i | 0 <= i < |out| :: out[i].experience == id
  {
    if id == "" {
      return [];
    }
    WholeCredit(id);
    hide WeightSum, Before, NonNegative, SortedById;
    for i := 0 to |usages|
      invariant forall j | 0 <= j < i :: usages[j].experience != id
    {
      if usages[i].experience == id {
        return [Credit(id, 1.0, 1.0)];
      }
    }
    return [];
  }

  lemma WholeCredit(id: string)
    ensures WeightSum([Credit(id, 1.0, 1.0)]) == 1.0 && NonNegative([Credit(id, 1.0, 1.0)])
    ensures SortedById([Credit(id, 1.0, 1.0)]) && SortedById([]) && NonNegative([])
  {
    WeightSumAppend([], Credit(id, 1.0, 1.0));
    assert [] + [Credit(id, 1.0, 1.0)] == [Credit(id, 1.0, 1.0)];
  }

  /** Is the credit spread over all usages, rather than pinned by evidence? */
  predicate IsSpread(target: Target) { target.Episode? }

  /** Links of this action, this field of it, or this tool. */
  function Evidence(target: Target, matches: (string, seq<string>) -> bool): Link -> bool {
    match target
    case Action(action) => (l: Link) => action != "" && l.action == action
    case ActionField(action, field) => (l: Link) => action != "" && field != "" && l.action == action && matches(field, l.fields)
    case Tool(tool) => (l: Link) => tool != "" && l.tool == tool
    case _ => (l: Link) => false
  }

  /** What the strategy answers: all usages share an episode; one named experience takes all if it was
      used; an action, a field or a tool credits exactly the used experiences linked to it. */
  ghost predicate Attributed(out: seq<Credit>, usages: seq<Usage>, target: Target, links: seq<Link>,
                             matches: (string, seq<string>) -> bool) {
    match target
    case Episode => SpreadOver(out, usages)
    case OneExperience(id) =>
      (out != [] <==> id != "" && IsUsed(usages, id)) && forall i | 0 <= i < |out| :: out[i].experience == id
    case Other => out == []
    case _ => Influenced(out, usages, links, Evidence(target, matches))
  }

  /** Precise targets are credited by evidence or not at all; only episode-level feedback is spread
      over all usages. Whatever the target, the credits are non-negative shares of exactly 1 over
      used experiences, or there are none. */
  method Attribute(usages: seq<Usage>, target: Target, links: seq<Link>, matches: (string, seq<string>) -> bool)
    returns (out: seq<Credit>)
    ensures Conserves(out) && OverUsed(out, usages)
    ensures Attributed(out, usages, target, links, matches)
    ensures !IsSpread(target) ==> SortedById(out)
  {
    NoneInfluenced(usages, links, Evidence(target, matches));
    hide Influenced, SpreadOver, Conserves, TotalInfluence;
    match target {
      case Episode =>
        out := AttributeByScores(usages);
        SpreadInOrder(out, usages);
        SpreadIsUsed(out, usages);
      case OneExperience(id) =>
        out := CreditExactExperience(usages, id);
      case Action(action) =>
        if action == "" {
          return [];
        }
        out := CreditByLinks(usages, links, Evidence(target, matches));
      case ActionField(action, field) =>
        if action == "" || field == "" {
          return [];
        }
        out := CreditByLinks(usages, links, Evidence(target, matches));
      case Tool(tool) =>
        if tool == "" {
          return [];
        }
        out := CreditByLinks(usages, links, Evidence(target, matches));
      case Other =>
        out := [];
    }
  }

  lemma {:induction false} SpreadInOrder(out: seq<Credit>, usages: seq<Usage>)
    requires SpreadOver(out, usages)
    ensures |out| == |usages| && forall i | 0 <= i < |out| :: out[i].experience == usages[i].experience
  {
  }

  lemma {:induction false} SpreadIsUsed(out: seq<Credit>, usages: seq<Usage>)
    requires |out| == |usages| && forall i | 0 <= i < |out| :: out[i].experience == usages[i].experience
    ensures OverUsed(out, usages)
  {
    forall i | 0 <= i < |out| ensures IsUsed(usages, out[i].experience) {
      assert usages[i].experience == out[i].experience;
    }
  }

  /** Feedback on an action, a field or a tool credits somebody exactly if a used experience is linked to it. */
  lemma LinkCreditsExistIff(out: seq<Credit>, usages: seq<Usage>, links: seq<Link>, select: Link -> bool)
    requires Influenced(out, usages, links, select) && OverUsed(out, usages)
    ensures out != [] <==> exists j :: 0 <= j < |links| && select(links[j]) && IsUsed(usages, links[j].experience)
  {
    if out != [] {
      InfluenceIsPositive(links, select, out[0].experience);
      var j :| 0 <= j < |links| && select(links[j]) && links[j].experience == out[0].experience;
      assert IsUsed(usages, links[j].experience);
    }
  }

  lemma NoneInfluenced(usages: seq<Usage>, links: seq<Link>, select: Link -> bool)
    ensures Conserves([]) && SortedById([]) && OverUsed([], usages)
    ensures (forall l :: !select(l)) ==> Influenced([], usages, links, select)
  {
  }

  /** The service's check of a strategy's answer. */
  method ValidateCredits(credits: seq<Credit>) returns (ok: bool)
    ensures ok <==> credits == [] || (NonNegative(credits) && 0.999 <= WeightSum(credits) <= 1.001)
  {
    if |credits| == 0 {
      return true;
    }
    var sum := 0.0;
    for i := 0 to |credits|
      invariant sum == WeightSum(credits[..i]) && NonNegative(credits[..i])
    {
      if credits[i].weight < 0.0 {
        return false;
      }
      assert credits[..i + 1] == credits[..i] + [credits[i]];
      WeightSumAppend(credits[..i], credits[i]);
      sum := sum + credits[i].weight;
    }
    assert credits[..|credits|] == credits;
    return 0.999 <= sum <= 1.001;
  }

  /** EffectiveReward: what one credited experience receives. */
  function EffectiveReward(reward: real, confidence: real, credit: real): real {
    reward * confidence * credit
  }

  function EffectiveSum(reward: real, confidence: real, credits: seq<Credit>): real {
    if credits == [] then 0.0
    else
      EffectiveSum(reward, confidence, credits[..|credits| - 1]) +
      EffectiveReward(reward, confidence, credits[|credits| - 1].weight)
  }

  lemma {:induction false} EffectiveIsScaled(reward: real, confidence: real, credits: seq<Credit>)
    ensures EffectiveSum(reward, confidence, credits) == reward * confidence * WeightSum(credits)
  {
    if credits != [] {
      var front := credits[..|credits| - 1];
      EffectiveIsScaled(reward, confidence, front);
      Distribute(reward * confidence, WeightSum(front), credits[|credits| - 1].weight);
    }
  }

  lemma Distribute(x: real, a: real, b: real)
    ensures x * a + x * b == x * (a + b)
  {
  }

  /** Credits of a strategy hand out exactly reward times confidence, neither more nor less. */
  lemma RewardIsConserved(reward: real, confidence: real, credits: seq<Credit>)
    requires Conserves(credits) && credits != []
    ensures EffectiveSum(reward, confidence, credits) == reward * confidence
  {
    EffectiveIsScaled(reward, confidence, credits);
  }
}
