/** Which experiences are generalised together: within one family, the connected components of the
    similarity graph that are large enough (internal/experience/auto_generalize.go). */
module Clustering {

  datatype Candidate = Candidate(id: string, kind: string, scope: string, scopeKey: string, embedding: seq<real>, text: string)

  datatype Family = Family(kind: string, scope: string, scopeKey: string)

  const MIN_GENERALIZE_EXPERIENCES: nat := 3

  function FamilyOf(e: Candidate): Family { Family(e.kind, e.scope, e.scopeKey) }

  /** The two similarity measures and the threshold; neither measure need be symmetric. */
  datatype Similarity = Similarity(cosine: (seq<real>, seq<real>) -> real, lexical: (string, string) -> real, min: real) {
    /** Lexical overlap only counts where an embedding is missing. */
    predicate Near(a: Candidate, b: Candidate) {
      || cosine(a.embedding, b.embedding) >= min
      || ((a.embedding == [] || b.embedding == []) && lexical(a.text, b.text) >= min)
    }
  }

  /** The graph over the indices of a group. */
  datatype Graph = Graph(exps: seq<Candidate>, sim: Similarity) {
    predicate Edge(i: nat, j: nat) {
      && i < |exps| && j < |exps|
      && ((i < j && sim.Near(exps[i], exps[j])) || (j < i && sim.Near(exps[j], exps[i])))
    }

    ghost predicate Path(p: seq<nat>) {
      && p != [] && p[0] < |exps|
      && forall k | 0 <= k < |p| - 1 :: Edge(p[k], p[k + 1])
    }

    ghost predicate Connects(p: seq<nat>, i: nat, j: nat) { Path(p) && p[0] == i && p[|p| - 1] == j }

    ghost predicate Connected(i: nat, j: nat) { exists p :: Connects(p, i, j) }

    /** No edge leaves these nodes. */
    ghost predicate ClosedUnder(nodes: seq<nat>) {
      forall x, y | x in nodes && Edge(x, y) :: y in nodes
    }

    ghost predicate Nodes(nodes: seq<nat>) {
      && (forall k | 0 <= k < |nodes| :: nodes[k] < |exps|)
      && (forall k, l | 0 <= k < l < |nodes| :: nodes[k] != nodes[l])
    }

    ghost predicate Covered(parts: seq<seq<nat>>, i: nat) { exists c :: 0 <= c < |parts| && i in parts[c] }

    /** Every node is in exactly one part, and parts are what paths reach. */
    ghost predicate Components(parts: seq<seq<nat>>) {
      && (forall c | 0 <= c < |parts| :: parts[c] != [] && Nodes(parts[c]))
      && (forall i: nat | i < |exps| :: Covered(parts, i))
      && (forall c, d, i, j | 0 <= c < |parts| && 0 <= d < |parts| && i in parts[c] && j in parts[d] ::
            Connected(i, j) <==> c == d)
    }

    function Members(nodes: seq<nat>): (r: seq<Candidate>)
      requires forall k | 0 <= k < |nodes| :: nodes[k] < |exps|
    {
      seq(|nodes|, k requires 0 <= k < |nodes| => exps[nodes[k]])
    }

    /** The parts that are large enough, in order. */
    ghost function Large(parts: seq<seq<nat>>): seq<seq<Candidate>>
      requires forall c | 0 <= c < |parts| :: forall k | 0 <= k < |parts[c]| :: parts[c][k] < |exps|
    {
      if parts == [] then []
      else
        Large(parts[..|parts| - 1]) +
        (if |parts[|parts| - 1]| >= MIN_GENERALIZE_EXPERIENCES then [Members(parts[|parts| - 1])] else [])
    }

    // ------------------------------------------------------------ paths

    lemma Stays(i: nat)
      requires i < |exps|
      ensures Connected(i, i)
    {
      assert Connects([i], i, i);
    }

    lemma Extends(i: nat, j: nat, k: nat)
      requires Connected(i, j) && Edge(j, k)
      ensures Connected(i, k)
    {
      var p :| Connects(p, i, j);
      assert Connects(p + [k], i, k);
    }

    lemma Turns(i: nat, j: nat)
      requires Connected(i, j)
      ensures Connected(j, i)
    {
      var p :| Connects(p, i, j);
      TurnsAlong(p, |p|);
      assert p[..|p|] == p;
    }

    lemma {:induction false} TurnsAlong(p: seq<nat>, n: nat)
      requires Path(p) && 0 < n <= |p|
      ensures Connected(p[n - 1], p[0])
    {
      if n == 1 {
        Stays(p[0]);
      } else {
        TurnsAlong(p, n - 1);
        var q :| Connects(q, p[n - 2], p[0]);
        assert Edge(p[n - 2], p[n - 2 + 1]);
        var r := [p[n - 1]] + q;
        forall k | 0 <= k < |r| - 1 ensures Edge(r[k], r[k + 1]) {
          if k > 0 {
            assert Edge(q[k - 1], q[k - 1 + 1]);
          }
        }
        assert Connects(r, p[n - 1], p[0]);
      }
    }

    lemma Joins(i: nat, j: nat, k: nat)
      requires Connected(i, j) && Connected(j, k)
      ensures Connected(i, k)
    {
      var p :| Connects(p, j, k);
      JoinsAlong(i, p, |p|);
    }

    lemma {:induction false} JoinsAlong(i: nat, p: seq<nat>, n: nat)
      requires Path(p) && Connected(i, p[0]) && 0 < n <= |p|
      ensures Connected(i, p[n - 1])
    {
      if n > 1 {
        JoinsAlong(i, p, n - 1);
        assert Edge(p[n - 2], p[n - 2 + 1]);
        Extends(i, p[n - 2], p[n - 1]);
      }
    }

    /** A path does not leave a closed part. */
    lemma Trapped(nodes: seq<nat>, i: nat, j: nat)
      requires ClosedUnder(nodes) && i in nodes && Connected(i, j)
      ensures j in nodes
    {
      var p :| Connects(p, i, j);
      TrappedAlong(nodes, p, |p|);
    }

    lemma {:induction false} TrappedAlong(nodes: seq<nat>, p: seq<nat>, n: nat)
      requires ClosedUnder(nodes) && Path(p) && p[0] in nodes && 0 < n <= |p|
      ensures p[n - 1] in nodes
    {
      if n > 1 {
        TrappedAlong(nodes, p, n - 1);
        assert Edge(p[n - 2], p[n - 2 + 1]);
      }
    }

    /** Distinct nodes are no more than there are. */
    lemma {:induction false} FewNodes(nodes: seq<nat>)
      requires Nodes(nodes)
      ensures |nodes| <= |exps|
    {
      FewBelow(nodes, |exps|);
    }

    /** A closed part reached from one of its nodes is a component. */
    lemma PartIsComponent(part: seq<nat>, start: nat)
      requires ClosedUnder(part) && start in part && forall x | x in part :: Connected(start, x)
      ensures forall x, y | x in part :: Connected(x, y) <==> y in part
    {
      forall x, y | x in part ensures Connected(x, y) <==> y in part {
        if y in part {
          Turns(start, x);
          Joins(x, start, y);
        } else if Connected(x, y) {
          Trapped(part, x, y);
        }
      }
    }
  }

  lemma {:induction false} FewBelow(nodes: seq<nat>, n: nat)
    requires forall k | 0 <= k < |nodes| :: nodes[k] < n
    requires forall k, l | 0 <= k < l < |nodes| :: nodes[k] != nodes[l]
    ensures |nodes| <= n
    decreases n
  {
    if nodes == [] {
      return;
    }
    assert nodes[0] < n;
    if n - 1 in nodes {
      var k :| 0 <= k < |nodes| && nodes[k] == n - 1;
      FewBelow(nodes[..k] + nodes[k + 1..], n - 1);
    } else {
      FewBelow(nodes, n - 1);
    }
  }

  // ---------------------------------------------------------------- adjacency

  /** Pairs whose smaller index is below i, or is i with the larger below j, were looked at. */
  predicate LookedAt(a: nat, b: nat, i: nat, j: nat) {
    var lo, hi := if a < b then a else b, if a < b then b else a;
    lo < i || (lo == i && hi < j)
  }

  ghost predicate Lists(adj: seq<seq<nat>>, g: Graph, i: nat, j: nat) {
    && |adj| == |g.exps|
    && forall a: nat, b: nat | a < |adj| && b < |adj| :: b in adj[a] <==> g.Edge(a, b) && LookedAt(a, b, i, j)
  }

  ghost predicate InRange(adj: seq<seq<nat>>) {
    forall a, k | 0 <= a < |adj| && 0 <= k < |adj[a]| :: adj[a][k] < |adj|
  }

  ghost predicate Adjacent(adj: seq<seq<nat>>, g: Graph) {
    && |adj| == |g.exps| && InRange(adj)
    && forall a: nat, b: nat | a < |adj| :: b in adj[a] <==> g.Edge(a, b)
  }

  method Adjacency(g: Graph) returns (adj: array<seq<nat>>)
    ensures fresh(adj) && Adjacent(adj[..], g)
  {
    var n := |g.exps|;
    adj := new seq<nat>[n](_ => []);
    for i := 0 to n
      invariant Lists(adj[..], g, i, 0) && InRange(adj[..])
    {
      for j := i + 1 to n
        invariant Lists(adj[..], g, i, j) && InRange(adj[..])
      {
        ghost var before := adj[..];
        if !g.sim.Near(g.exps[i], g.exps[j]) {
          assert Lists(adj[..], g, i, j + 1);
          continue;
        }
        adj[i] := adj[i] + [j];
        adj[j] := adj[j] + [i];
        assert adj[..] == before[i := before[i] + [j]][j := before[j] + [i]];
        LinksBoth(before, g, i, j);
      }
      assert Lists(adj[..], g, i + 1, 0);
    }
  }

  lemma LinksBoth(adj: seq<seq<nat>>, g: Graph, i: nat, j: nat)
    requires Lists(adj, g, i, j) && InRange(adj) && i < j < |adj| && g.Edge(i, j)
    ensures var adj' := adj[i := adj[i] + [j]][j := adj[j] + [i]];
            Lists(adj', g, i, j + 1) && InRange(adj')
  {
  }

  // ---------------------------------------------------------------- one component

  ghost predicate Marked(seen: seq<bool>, nodes: seq<nat>, before: seq<bool>) {
    && |seen| == |before|
    && forall x: nat | x < |seen| :: seen[x] <==> before[x] || x in nodes
  }

  /** What the walk has found was not seen before, and paths from `start` reach it. */
  ghost predicate Reached(g: Graph, start: nat, found: seq<nat>, before: seq<bool>) {
    && |before| == |g.exps| && g.Nodes(found) && found != [] && found[0] == start
    && forall x | x in found :: x < |before| && g.Connected(start, x) && !before[x]
  }

  /** The neighbours of the nodes that left the queue are found. */
  ghost predicate Expanded(g: Graph, found: seq<nat>, done: nat) {
    && done <= |found|
    && forall k, y | 0 <= k < done && g.Edge(found[k], y) :: y in found
  }

  ghost predicate Saturated(g: Graph, seen: seq<bool>) {
    forall x: nat, y: nat | x < |seen| && seen[x] && g.Edge(x, y) :: y < |seen| && seen[y]
  }

  lemma Starts(g: Graph, start: nat, before: seq<bool>)
    requires |before| == |g.exps| && start < |before| && !before[start]
    ensures Reached(g, start, [start], before) && Expanded(g, [start], 0)
    ensures Marked(before[start := true], [start], before)
  {
    g.Stays(start);
  }

  lemma Reaches(g: Graph, start: nat, found: seq<nat>, before: seq<bool>, seen: seq<bool>, done: nat, nb: nat)
    requires Reached(g, start, found, before) && Expanded(g, found, done) && Marked(seen, found, before)
    requires done < |found| && g.Edge(found[done], nb) && !seen[nb]
    ensures Reached(g, start, found + [nb], before) && Expanded(g, found + [nb], done)
    ensures Marked(seen[nb := true], found + [nb], before)
  {
    assert found[done] in found;
    g.Extends(start, found[done], nb);
  }

  /** What was seen before this component has no edge into it. */
  lemma WasFound(g: Graph, start: nat, found: seq<nat>, before: seq<bool>, seen: seq<bool>, cur: nat, nb: nat)
    requires Reached(g, start, found, before) && Saturated(g, before) && Marked(seen, found, before)
    requires cur in found && g.Edge(cur, nb) && seen[nb]
    ensures nb in found
  {
    if before[nb] {
      assert g.Edge(nb, cur);
    }
  }

  /** Finds the neighbours of the node that left the queue. */
  method Expand(g: Graph, adj: array<seq<nat>>, seen: array<bool>, queue: seq<nat>, cur: nat,
                ghost start: nat, ghost found: seq<nat>, ghost done: nat, ghost before: seq<bool>)
    returns (queue': seq<nat>, ghost found': seq<nat>)
    requires Adjacent(adj[..], g) && Saturated(g, before) && seen.Length == |g.exps|
    requires Reached(g, start, found, before) && Expanded(g, found, done) && Marked(seen[..], found, before)
    requires done < |found| && found[done] == cur && queue == found[done + 1..]
    modifies seen
    ensures Reached(g, start, found', before) && Expanded(g, found', done + 1) && Marked(seen[..], found', before)
    ensures found <= found' && queue' == found'[done + 1..]
  {
    hide Reached, Marked, Saturated, Expanded, Graph.Connected;
    InRangeOf(g, start, found, before, done);
    queue', found' := queue, found;
    for k := 0 to |adj[cur]|
      invariant Reached(g, start, found', before) && Expanded(g, found', done) && Marked(seen[..], found', before)
      invariant found <= found' && queue' == found'[done + 1..]
      invariant forall l | 0 <= l < k :: adj[cur][l] in found'
    {
      var nb := adj[cur][k];
      assert nb in adj[..][cur] && cur in found';
      if seen[nb] {
        WasFound(g, start, found', before, seen[..], cur, nb);
        continue;
      }
      Reaches(g, start, found', before, seen[..], done, nb);
      ghost var marked := seen[..][nb := true];
      seen[nb] := true;
      assert seen[..] == marked;
      queue' := queue' + [nb];
      found' := found' + [nb];
    }
    forall y | g.Edge(cur, y) ensures y in found' {
      assert y in adj[..][cur];
    }
    ExpandsOne(g, found', done);
  }

  lemma InRangeOf(g: Graph, start: nat, found: seq<nat>, before: seq<bool>, k: nat)
    requires Reached(g, start, found, before) && k < |found|
    ensures found[k] < |g.exps| && |found| <= |g.exps|
    ensures forall j | 0 <= j < |found| :: found[j] < |g.exps|
  {
    g.FewNodes(found);
  }

  lemma ExpandsOne(g: Graph, found: seq<nat>, done: nat)
    requires Expanded(g, found, done) && done < |found| && forall y | g.Edge(found[done], y) :: y in found
    ensures Expanded(g, found, done + 1)
  {
  }

  lemma WalkEnds(g: Graph, start: nat, found: seq<nat>, before: seq<bool>)
    requires Reached(g, start, found, before) && Expanded(g, found, |found|)
    ensures g.Nodes(found) && start in found && g.ClosedUnder(found)
  {
    assert found[0] in found;
  }

  /** Walks the component of `start`, breadth first, marking its nodes. */
  method Component(g: Graph, adj: array<seq<nat>>, seen: array<bool>, start: nat)
    returns (members: seq<Candidate>, ghost part: seq<nat>)
    requires Adjacent(adj[..], g) && seen.Length == |g.exps| && start < |g.exps| && !seen[start]
    requires Saturated(g, seen[..])
    modifies seen
    ensures g.Nodes(part) && start in part && g.ClosedUnder(part)
    ensures Reached(g, start, part, old(seen[..]))
    ensures Marked(seen[..], part, old(seen[..]))
    ensures members == g.Members(part)
  {
    hide Reached, Marked, Saturated, Expanded, Adjacent, Graph.Connected, Graph.ClosedUnder;
    ghost var before := seen[..];
    Starts(g, start, before);
    var queue := [start];
    seen[start] := true;
    assert seen[..] == before[start := true];
    members, part := [], [start];
    ghost var done := 0;
    while queue != []
      invariant Reached(g, start, part, before) && Marked(seen[..], part, before) && Expanded(g, part, done)
      invariant done <= |part| && queue == part[done..]
      invariant |members| == done && (forall k | 0 <= k < |part| :: part[k] < |g.exps|) && members == g.Members(part[..done])
      decreases |g.exps| - done
    {
      var cur := queue[0];
      InRangeOf(g, start, part, before, done);
      members := members + [g.exps[cur]];
      ghost var found := part;
      queue, part := Expand(g, adj, seen, queue[1..], cur, start, found, done, before);
      InRangeOf(g, start, part, before, done);
      assert part[..done] == found[..done] && part[..done + 1] == part[..done] + [cur];
      done := done + 1;
    }
    assert part[..done] == part;
    WalkEnds(g, start, part, before);
  }

  // ---------------------------------------------------------------- all clusters

  /** The parts found so far are components, and their nodes are the seen ones. */
  ghost predicate Found(g: Graph, parts: seq<seq<nat>>, seen: seq<bool>) {
    && |seen| == |g.exps|
    && (forall c | 0 <= c < |parts| :: parts[c] != [] && g.Nodes(parts[c]))
    && (forall c, x, y | 0 <= c < |parts| && x in parts[c] :: g.Connected(x, y) <==> y in parts[c])
    && (forall c, d, x | 0 <= c < d < |parts| && x in parts[c] :: x !in parts[d])
    && (forall x: nat | x < |seen| :: seen[x] <==> g.Covered(parts, x))
  }

  lemma FindsOne(g: Graph, parts: seq<seq<nat>>, before: seq<bool>, seen: seq<bool>, part: seq<nat>, start: nat)
    requires Found(g, parts, before) && Marked(seen, part, before)
    requires g.Nodes(part) && start in part && g.ClosedUnder(part) && Reached(g, start, part, before)
    ensures Found(g, parts + [part], seen)
  {
    g.PartIsComponent(part, start);
    var all := parts + [part];
    forall x: nat | x < |seen| ensures seen[x] <==> g.Covered(all, x) {
      if x in part {
        assert x in all[|parts|];
      } else if before[x] {
        var c :| 0 <= c < |parts| && x in parts[c];
        assert x in all[c];
      }
    }
  }

  lemma SeenIsClosed(g: Graph, parts: seq<seq<nat>>, seen: seq<bool>)
    requires Found(g, parts, seen)
    ensures Saturated(g, seen)
  {
    forall x: nat, y: nat | x < |seen| && seen[x] && g.Edge(x, y) ensures seen[y] {
      var c :| 0 <= c < |parts| && x in parts[c];
      g.Stays(x);
      g.Extends(x, x, y);
    }
  }

  lemma FoundAll(g: Graph, parts: seq<seq<nat>>, seen: seq<bool>)
    requires Found(g, parts, seen) && forall x: nat | x < |seen| :: seen[x]
    ensures g.Components(parts)
  {
    forall c, d, i, j | 0 <= c < |parts| && 0 <= d < |parts| && i in parts[c] && j in parts[d]
      ensures g.Connected(i, j) <==> c == d
    {
      if c != d {
        var lo, hi := if c < d then c else d, if c < d then d else c;
        assert j !in parts[c];
      }
    }
  }

  /** The clusters are exactly the components with enough members. */
  method ClusterBySimilarity(exps: seq<Candidate>, sim: Similarity) returns (clusters: seq<seq<Candidate>>, ghost parts: seq<seq<nat>>)
    ensures Graph(exps, sim).Components(parts) && clusters == Graph(exps, sim).Large(parts)
  {
    var g := Graph(exps, sim);
    clusters, parts := [], [];
    if exps == [] {
      return;
    }
    var adj := Adjacency(g);
    var seen := new bool[|exps|](_ => false);
    for i := 0 to |exps|
      invariant fresh(seen) && Adjacent(adj[..], g)
      invariant Found(g, parts, seen[..]) && clusters == g.Large(parts)
      invariant forall x | 0 <= x < i :: seen[x]
    {
      if seen[i] {
        continue;
      }
      ghost var before := seen[..];
      SeenIsClosed(g, parts, before);
      ghost var part;
      var members;
      members, part := Component(g, adj, seen, i);
      FindsOne(g, parts, before, seen[..], part, i);
      assert (parts + [part])[..|parts|] == parts;
      parts := parts + [part];
      if |members| >= MIN_GENERALIZE_EXPERIENCES {
        clusters := clusters + [members];
      }
    }
    FoundAll(g, parts, seen[..]);
  }

  // ---------------------------------------------------------------- families

  function OfFamily(exps: seq<Candidate>, f: Family): seq<Candidate> {
    if exps == [] then []
    else
      OfFamily(exps[..|exps| - 1], f) +
      (if FamilyOf(exps[|exps| - 1]) == f then [exps[|exps| - 1]] else [])
  }

  /** Every occurrence of a candidate is in the group of its own family and in no other. */
  lemma {:induction false} FamiliesPartition(exps: seq<Candidate>, f: Family, e: Candidate)
    ensures multiset(OfFamily(exps, f))[e] == if FamilyOf(e) == f then multiset(exps)[e] else 0
  {
    if exps != [] {
      FamiliesPartition(exps[..|exps| - 1], f, e);
      assert exps == exps[..|exps| - 1] + [exps[|exps| - 1]];
    }
  }

  ghost predicate Buckets(exps: seq<Candidate>, buckets: map<Family, seq<Candidate>>, order: seq<Family>) {
    && (forall i | 0 <= i < |order| :: order[i] in buckets)
    && (forall f | f in buckets :: f in order && buckets[f] == OfFamily(exps, f) && buckets[f] != [])
    && (forall i, j | 0 <= i < j < |order| :: order[i] != order[j])
    && (forall i | 0 <= i < |exps| :: FamilyOf(exps[i]) in buckets)
  }

  lemma {:induction false} NoneOfFamily(exps: seq<Candidate>, f: Family)
    requires forall i | 0 <= i < |exps| :: FamilyOf(exps[i]) != f
    ensures OfFamily(exps, f) == []
  {
    if exps != [] {
      NoneOfFamily(exps[..|exps| - 1], f);
    }
  }

  lemma OfFamilyGrows(exps: seq<Candidate>, e: Candidate, f: Family)
    ensures OfFamily(exps + [e], f) == OfFamily(exps, f) + (if FamilyOf(e) == f then [e] else [])
  {
    assert (exps + [e])[..|exps|] == exps;
  }

  lemma BucketsGrow(exps: seq<Candidate>, buckets: map<Family, seq<Candidate>>, order: seq<Family>, e: Candidate)
    requires Buckets(exps, buckets, order)
    ensures var f := FamilyOf(e);
            Buckets(exps + [e], buckets[f := (if f in buckets then buckets[f] else []) + [e]],
                    if f in buckets then order else order + [f])
  {
    hide OfFamily, FamilyOf;
    var f := FamilyOf(e);
    if f !in buckets {
      NoneOfFamily(exps, f);
    }
    var buckets' := buckets[f := (if f in buckets then buckets[f] else []) + [e]];
    var order' := if f in buckets then order else order + [f];
    forall h | h in buckets' ensures h in order' && buckets'[h] == OfFamily(exps + [e], h) && buckets'[h] != [] {
      OfFamilyGrows(exps, e, h);
      InOrder(order, h, f);
    }
  }

  lemma InOrder(order: seq<Family>, h: Family, f: Family)
    ensures h in order + [f] <==> h in order || h == f
  {
  }

  /** Some member of family f precedes all of family g. */
  ghost predicate Precedes(exps: seq<Candidate>, f: Family, g: Family) {
    exists a :: 0 <= a < |exps| && FamilyOf(exps[a]) == f && forall b | 0 <= b <= a :: FamilyOf(exps[b]) != g
  }

  /** The families are in the order of their first members. */
  ghost predicate ByFirstMember(exps: seq<Candidate>, order: seq<Family>) {
    forall i, j | 0 <= i < j < |order| :: Precedes(exps, order[i], order[j])
  }

  lemma PrecedesStill(exps: seq<Candidate>, e: Candidate, f: Family, g: Family)
    requires Precedes(exps, f, g)
    ensures Precedes(exps + [e], f, g)
  {
    hide FamilyOf;
    var a :| 0 <= a < |exps| && FamilyOf(exps[a]) == f && forall b | 0 <= b <= a :: FamilyOf(exps[b]) != g;
    assert forall b | 0 <= b <= a :: (exps + [e])[b] == exps[b];
  }

  /** A family that was not there yet comes after those that were. */
  lemma NewComesLast(exps: seq<Candidate>, buckets: map<Family, seq<Candidate>>, order: seq<Family>, e: Candidate, f: Family)
    requires Buckets(exps, buckets, order) && f in order && FamilyOf(e) !in buckets
    ensures Precedes(exps + [e], f, FamilyOf(e))
  {
    hide FamilyOf, OfFamily;
    if forall a | 0 <= a < |exps| :: FamilyOf(exps[a]) != f {
      NoneOfFamily(exps, f);
    }
    var a :| 0 <= a < |exps| && FamilyOf(exps[a]) == f;
    assert forall b | 0 <= b <= a :: (exps + [e])[b] == exps[b] && FamilyOf(exps[b]) in buckets;
  }

  lemma OrderGrows(exps: seq<Candidate>, buckets: map<Family, seq<Candidate>>, order: seq<Family>, e: Candidate)
    requires Buckets(exps, buckets, order) && ByFirstMember(exps, order)
    ensures ByFirstMember(exps + [e], if FamilyOf(e) in buckets then order else order + [FamilyOf(e)])
  {
    hide FamilyOf, OfFamily, Precedes, Buckets;
    var order' := if FamilyOf(e) in buckets then order else order + [FamilyOf(e)];
    forall i, j | 0 <= i < j < |order'| ensures Precedes(exps + [e], order'[i], order'[j]) {
      if j < |order| {
        PrecedesStill(exps, e, order[i], order[j]);
      } else {
        NewComesLast(exps, buckets, order, e, order[i]);
      }
    }
  }

  method FillBuckets(exps: seq<Candidate>) returns (buckets: map<Family, seq<Candidate>>, order: seq<Family>)
    ensures Buckets(exps, buckets, order) && ByFirstMember(exps, order)
  {
    hide Buckets, ByFirstMember;
    buckets, order := map[], [];
    NoBuckets();
    for i := 0 to |exps|
      invariant Buckets(exps[..i], buckets, order) && ByFirstMember(exps[..i], order)
    {
      var e := exps[i];
      var f := FamilyOf(e);
      BucketsGrow(exps[..i], buckets, order, e);
      OrderGrows(exps[..i], buckets, order, e);
      ghost var grown := buckets[f := (if f in buckets then buckets[f] else []) + [e]];
      if f !in buckets {
        order := order + [f];
        buckets := buckets[f := []];
      }
      buckets := buckets[f := buckets[f] + [e]];
      assert buckets == grown && exps[..i] + [e] == exps[..i + 1];
    }
    assert exps[..|exps|] == exps;
  }

  lemma NoBuckets()
    ensures Buckets([], map[], []) && ByFirstMember([], [])
  {
  }

  /** One group per family, in the order the families first appear. */
  method GroupByFamily(exps: seq<Candidate>) returns (groups: seq<seq<Candidate>>, ghost order: seq<Family>)
    ensures |groups| == |order| && forall i | 0 <= i < |order| :: groups[i] == OfFamily(exps, order[i]) && groups[i] != []
    ensures forall i, j | 0 <= i < j < |order| :: order[i] != order[j]
    ensures forall i | 0 <= i < |exps| :: FamilyOf(exps[i]) in order
    ensures ByFirstMember(exps, order)
  {
    hide OfFamily, ByFirstMember;
    var buckets, keys := FillBuckets(exps);
    order := keys;
    groups := [];
    for i := 0 to |keys|
      invariant |groups| == i && forall j | 0 <= j < i :: groups[j] == OfFamily(exps, keys[j]) && groups[j] != []
    {
      groups := groups + [buckets[keys[i]]];
    }
  }

  lemma {:induction false} OneFamily(exps: seq<Candidate>, f: Family)
    ensures forall e | e in OfFamily(exps, f) :: FamilyOf(e) == f
  {
    if exps != [] {
      OneFamily(exps[..|exps| - 1], f);
    }
  }

  lemma {:induction false} LargeAreLarge(g: Graph, parts: seq<seq<nat>>, c: nat)
    requires forall c | 0 <= c < |parts| :: forall k | 0 <= k < |parts[c]| :: parts[c][k] < |g.exps|
    requires c < |g.Large(parts)|
    ensures |g.Large(parts)[c]| >= MIN_GENERALIZE_EXPERIENCES
    ensures exists d :: 0 <= d < |parts| && g.Large(parts)[c] == g.Members(parts[d])
  {
    var front := parts[..|parts| - 1];
    if c < |g.Large(front)| {
      LargeAreLarge(g, front, c);
      var d :| 0 <= d < |front| && g.Large(front)[c] == g.Members(front[d]);
      assert g.Large(parts)[c] == g.Members(parts[d]);
    }
  }

  /** These are the large components of this group. */
  ghost predicate AreClustersOf(clusters: seq<seq<Candidate>>, exps: seq<Candidate>, sim: Similarity) {
    exists parts :: Graph(exps, sim).Components(parts) && clusters == Graph(exps, sim).Large(parts)
  }

  ghost function Concat(found: seq<seq<seq<Candidate>>>): seq<seq<Candidate>> {
    if found == [] then [] else Concat(found[..|found| - 1]) + found[|found| - 1]
  }

  ghost predicate OneFamilyEach(clusters: seq<seq<Candidate>>) {
    forall c | 0 <= c < |clusters| ::
      && |clusters[c]| >= MIN_GENERALIZE_EXPERIENCES
      && forall k, l | 0 <= k < |clusters[c]| && 0 <= l < |clusters[c]| :: FamilyOf(clusters[c][k]) == FamilyOf(clusters[c][l])
  }

  lemma ClustersOfFamily(clusters: seq<seq<Candidate>>, candidates: seq<Candidate>, f: Family, sim: Similarity)
    requires AreClustersOf(clusters, OfFamily(candidates, f), sim)
    ensures OneFamilyEach(clusters)
  {
    var g := Graph(OfFamily(candidates, f), sim);
    var parts :| g.Components(parts) && clusters == g.Large(parts);
    OneFamily(candidates, f);
    forall c | 0 <= c < |clusters|
      ensures |clusters[c]| >= MIN_GENERALIZE_EXPERIENCES && forall k | 0 <= k < |clusters[c]| :: FamilyOf(clusters[c][k]) == f
    {
      LargeAreLarge(g, parts, c);
      var d :| 0 <= d < |parts| && clusters[c] == g.Members(parts[d]);
      assert forall k | 0 <= k < |clusters[c]| :: clusters[c][k] in g.exps;
    }
  }

  /** All clusters of a scan: those of each family, family by family; so each cluster is within one
      family and large enough. */
  method Scan(candidates: seq<Candidate>, sim: Similarity)
    returns (clusters: seq<seq<Candidate>>, ghost order: seq<Family>, ghost found: seq<seq<seq<Candidate>>>)
    ensures |found| == |order| && clusters == Concat(found) && OneFamilyEach(clusters)
    ensures forall i | 0 <= i < |order| :: AreClustersOf(found[i], OfFamily(candidates, order[i]), sim)
    ensures forall i, j | 0 <= i < j < |order| :: order[i] != order[j]
    ensures forall i | 0 <= i < |candidates| :: FamilyOf(candidates[i]) in order
    ensures ByFirstMember(candidates, order)
  {
    hide AreClustersOf, OfFamily, ByFirstMember;
    var groups;
    groups, order := GroupByFamily(candidates);
    clusters, found := [], [];
    for i := 0 to |groups|
      invariant |found| == i && clusters == Concat(found) && OneFamilyEach(clusters)
      invariant forall j | 0 <= j < i :: AreClustersOf(found[j], OfFamily(candidates, order[j]), sim)
    {
      var more := ClustersOf(groups[i], sim);
      ClustersOfFamily(more, candidates, order[i], sim);
      assert (found + [more])[..i] == found;
      clusters, found := clusters + more, found + [more];
    }
  }

  method ClustersOf(exps: seq<Candidate>, sim: Similarity) returns (clusters: seq<seq<Candidate>>)
    ensures AreClustersOf(clusters, exps, sim)
  {
    ghost var parts;
    clusters, parts := ClusterBySimilarity(exps, sim);
  }
}
