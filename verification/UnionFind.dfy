/** Union-Find with path halving, and the clusters it yields (jobs/dedup.py). */
module UnionFind {
  import opened OrderedDict
  import opened Sequences

  // ---- The parent array as a forest ----

  /** Following parents lowers the rank, so it ends; the rank is the termination measure of `find`. */
  ghost predicate Forest(p: seq<nat>, rank: seq<nat>) {
    && |rank| == |p|
    && forall i :: 0 <= i < |p| ==> p[i] < |p| && (p[i] != i ==> rank[p[i]] < rank[i])
  }

  ghost function Root(p: seq<nat>, rank: seq<nat>, x: nat): (r: nat)
    requires Forest(p, rank) && x < |p|
    ensures r < |p| && p[r] == r
    decreases rank[x]
  {
    if p[x] == x then x else Root(p, rank, p[x])
  }

  ghost predicate SameRoots(p: seq<nat>, rank: seq<nat>, p': seq<nat>, rank': seq<nat>)
    requires Forest(p, rank) && Forest(p', rank')
  {
    |p| == |p'| && forall y :: 0 <= y < |p| ==> Root(p', rank', y) == Root(p, rank, y)
  }

  /** Path halving points an element at its grandparent: still a forest, and every root stays. */
  lemma Halving(p: seq<nat>, rank: seq<nat>, x: nat)
    requires Forest(p, rank) && x < |p|
    ensures Forest(p[x := p[p[x]]], rank)
    ensures SameRoots(p, rank, p[x := p[p[x]]], rank)
  {
    var p' := p[x := p[p[x]]];
    assert Forest(p', rank);
    forall y | 0 <= y < |p| ensures Root(p', rank, y) == Root(p, rank, y) {
      HalvedRoot(p, rank, x, y);
    }
  }

  lemma {:induction false} HalvedRoot(p: seq<nat>, rank: seq<nat>, x: nat, y: nat)
    requires Forest(p, rank) && x < |p| && y < |p| && Forest(p[x := p[p[x]]], rank)
    ensures Root(p[x := p[p[x]]], rank, y) == Root(p, rank, y)
    decreases rank[y]
  {
    var p' := p[x := p[p[x]]];
    if p'[y] != y {
      HalvedRoot(p, rank, x, p'[y]);
      if y == x {
        assert Root(p, rank, x) == Root(p, rank, p[x]) == Root(p, rank, p[p[x]]);
      }
    } else if y == x {
      assert p[x] == x;
    }
  }

  /** The ranks after root rx was put under root ry: everything of rx's tree rises above ry. */
  ghost function LinkedRank(p: seq<nat>, rank: seq<nat>, rx: nat, ry: nat): (rank': seq<nat>)
    requires Forest(p, rank) && rx < |p| && ry < |p|
    ensures |rank'| == |p|
    ensures forall i :: 0 <= i < |p| ==> rank'[i] == if Root(p, rank, i) == rx then rank[i] + rank[ry] + 1 else rank[i]
  {
    seq(|p|, i requires 0 <= i < |p| => if Root(p, rank, i) == rx then rank[i] + rank[ry] + 1 else rank[i])
  }

  lemma LinkedForest(p: seq<nat>, rank: seq<nat>, rx: nat, ry: nat)
    requires Forest(p, rank) && rx < |p| && ry < |p| && p[rx] == rx && p[ry] == ry && rx != ry
    ensures Forest(p[rx := ry], LinkedRank(p, rank, rx, ry))
  {
    assert Root(p, rank, rx) == rx && Root(p, rank, ry) == ry;
    forall i | 0 <= i < |p| && p[i] != i ensures Root(p, rank, p[i]) == Root(p, rank, i) {}
  }

  lemma {:induction false} LinkedRoot(p: seq<nat>, rank: seq<nat>, rx: nat, ry: nat, y: nat)
    requires Forest(p, rank) && rx < |p| && ry < |p| && p[rx] == rx && p[ry] == ry && rx != ry && y < |p|
    requires Forest(p[rx := ry], LinkedRank(p, rank, rx, ry))
    ensures Root(p[rx := ry], LinkedRank(p, rank, rx, ry), y) == if Root(p, rank, y) == rx then ry else Root(p, rank, y)
    decreases rank[y]
  {
    var p', rank' := p[rx := ry], LinkedRank(p, rank, rx, ry);
    if y == rx {
      assert Root(p', rank', ry) == ry;
    } else if p[y] != y {
      LinkedRoot(p, rank, rx, ry, p[y]);
    }
  }

  // ---- The methods ----

  /** The root of x. The loop ends because the rank of x falls; no element's root changes. */
  method Find(parent: array<nat>, ghost rank: seq<nat>, x: nat) returns (root: nat)
    requires Forest(parent[..], rank) && x < parent.Length
    modifies parent
    ensures Forest(parent[..], rank) && SameRoots(old(parent[..]), rank, parent[..], rank)
    ensures root == Root(old(parent[..]), rank, x)
  {
    root := x;
    while parent[root] != root
      invariant root < parent.Length && Forest(parent[..], rank)
      invariant SameRoots(old(parent[..]), rank, parent[..], rank)
      invariant Root(parent[..], rank, root) == Root(old(parent[..]), rank, x)
      decreases rank[root]
    {
      ghost var p: seq<nat> := parent[..];
      Halving(p, rank, root);
      parent[root] := parent[parent[root]];
      assert parent[..] == p[root := p[p[root]]];
      assert rank[p[p[root]]] <= rank[p[root]] < rank[root];
      assert Root(p, rank, root) == Root(p, rank, p[root]) == Root(p, rank, p[p[root]]);
      root := parent[root];
    }
  }

  /** Joins exactly the classes of x and y. */
  method Union(parent: array<nat>, ghost rank: seq<nat>, x: nat, y: nat) returns (ghost rank': seq<nat>)
    requires Forest(parent[..], rank) && x < parent.Length && y < parent.Length
    modifies parent
    ensures Forest(parent[..], rank')
    ensures var rx, ry := Root(old(parent[..]), rank, x), Root(old(parent[..]), rank, y);
            forall z :: 0 <= z < parent.Length ==>
              Root(parent[..], rank', z) == if Root(old(parent[..]), rank, z) == rx then ry
                  else Root(old(parent[..]), rank, z)
  {
    var rx: nat := Find(parent, rank, x);
    ghost var p1 := parent[..];
    var ry: nat := Find(parent, rank, y);
    ghost var p: seq<nat> := parent[..];
    rank' := rank;
    assert Root(p, rank, x) == rx && Root(p, rank, y) == ry;
    if rx != ry {
      rank' := LinkedRank(p, rank, rx, ry);
      LinkedForest(p, rank, rx, ry);
      parent[rx] := ry;
      assert parent[..] == p[rx := ry];
      forall z | 0 <= z < |p|
        ensures Root(parent[..], rank', z) == if Root(p, rank, z) == rx then ry else Root(p, rank, z)
      {
        LinkedRoot(p, rank, rx, ry, z);
      }
    }
  }

  // ---- Connectivity ----

  type Edge = (nat, nat)

  predicate Adjacent(edges: seq<Edge>, a: nat, b: nat) {
    (a, b) in edges || (b, a) in edges
  }

  ghost predicate IsPath(edges: seq<Edge>, path: seq<nat>, a: nat, b: nat) {
    && path != [] && path[0] == a && path[|path| - 1] == b
    && forall k :: 0 <= k < |path| - 1 ==> Adjacent(edges, path[k], path[k + 1])
  }

  /** A path of similarity edges leads from a to b. */
  ghost predicate Connected(edges: seq<Edge>, a: nat, b: nat) {
    exists path :: IsPath(edges, path, a, b)
  }

  lemma ConnectedSelf(edges: seq<Edge>, a: nat)
    ensures Connected(edges, a, a)
  {
    assert IsPath(edges, [a], a, a);
  }

  lemma ConnectedEdge(edges: seq<Edge>, a: nat, b: nat)
    requires Adjacent(edges, a, b)
    ensures Connected(edges, a, b)
  {
    assert IsPath(edges, [a, b], a, b);
  }

  lemma ConnectedTransitive(edges: seq<Edge>, a: nat, b: nat, c: nat)
    requires Connected(edges, a, b) && Connected(edges, b, c)
    ensures Connected(edges, a, c)
  {
    var p :| IsPath(edges, p, a, b);
    var q :| IsPath(edges, q, b, c);
    var path := p + q[1..];
    forall k | 0 <= k < |path| - 1 ensures Adjacent(edges, path[k], path[k + 1]) {
      if k >= |p| - 1 {
        assert path[k] == q[k - |p| + 1] && path[k + 1] == q[k - |p| + 2];
      }
    }
    assert IsPath(edges, path, a, c);
  }

  lemma ConnectedMore(edges: seq<Edge>, e: Edge, a: nat, b: nat)
    requires Connected(edges, a, b)
    ensures Connected(edges + [e], a, b)
  {
    var p :| IsPath(edges, p, a, b);
    assert IsPath(edges + [e], p, a, b);
  }

  /** Elements with one root are connected, and the two ends of every edge have one root. */
  ghost predicate RootsMatch(p: seq<nat>, rank: seq<nat>, edges: seq<Edge>)
    requires Forest(p, rank)
  {
    && (forall a: nat, b: nat :: a < |p| && b < |p| && Root(p, rank, a) == Root(p, rank, b) ==> Connected(edges, a, b))
    && (forall e :: e in edges ==> e.0 < |p| && e.1 < |p| && Root(p, rank, e.0) == Root(p, rank, e.1))
  }

  /** One more union keeps the roots in step with the edges. */
  lemma MatchStep(p: seq<nat>, rank: seq<nat>, edges: seq<Edge>, p': seq<nat>, rank': seq<nat>, e: Edge)
    requires Forest(p, rank) && Forest(p', rank') && |p| == |p'| && RootsMatch(p, rank, edges)
    requires e.0 < |p| && e.1 < |p|
    requires forall z :: 0 <= z < |p| ==>
               Root(p', rank', z) == if Root(p, rank, z) == Root(p, rank, e.0) then Root(p, rank, e.1)
                   else Root(p, rank, z)
    ensures RootsMatch(p', rank', edges + [e])
  {
    var more := edges + [e];
    forall a: nat, b: nat | a < |p| && b < |p| && Root(p', rank', a) == Root(p', rank', b)
      ensures Connected(more, a, b)
    {
      Joined(p, rank, edges, e, a, b);
    }
  }

  lemma Joined(p: seq<nat>, rank: seq<nat>, edges: seq<Edge>, e: Edge, a: nat, b: nat)
    requires Forest(p, rank) && RootsMatch(p, rank, edges) && e.0 < |p| && e.1 < |p| && a < |p| && b < |p|
    requires var rx, ry := Root(p, rank, e.0), Root(p, rank, e.1);
             (if Root(p, rank, a) == rx then ry else Root(p, rank, a))
                 == (if Root(p, rank, b) == rx then ry else Root(p, rank, b))
    ensures Connected(edges + [e], a, b)
  {
    var more := edges + [e];
    assert e in more && e == (e.0, e.1);
    ConnectedEdge(more, e.0, e.1);
    ConnectedEdge(more, e.1, e.0);
    if Root(p, rank, a) == Root(p, rank, b) {
      ConnectedMore(edges, e, a, b);
    } else if Root(p, rank, a) == Root(p, rank, e.0) {
      ConnectedMore(edges, e, a, e.0);
      ConnectedMore(edges, e, e.1, b);
      ConnectedTransitive(more, a, e.0, e.1);
      ConnectedTransitive(more, a, e.1, b);
    } else {
      ConnectedMore(edges, e, a, e.1);
      ConnectedMore(edges, e, e.0, b);
      ConnectedTransitive(more, a, e.1, e.0);
      ConnectedTransitive(more, a, e.0, b);
    }
  }

  lemma PathTail(edges: seq<Edge>, path: seq<nat>, a: nat, b: nat)
    requires IsPath(edges, path, a, b) && |path| > 1
    ensures IsPath(edges, path[1..], path[1], b)
  {
    var rest := path[1..];
    forall k | 0 <= k < |rest| - 1 ensures Adjacent(edges, rest[k], rest[k + 1]) {
      assert Adjacent(edges, path[k + 1], path[k + 1 + 1]);
    }
  }

  lemma {:induction false} PathKeepsRoot(p: seq<nat>, rank: seq<nat>, edges: seq<Edge>, path: seq<nat>, a: nat, b: nat)
    requires Forest(p, rank) && RootsMatch(p, rank, edges) && IsPath(edges, path, a, b) && a < |p|
    ensures b < |p| && Root(p, rank, a) == Root(p, rank, b)
  {
    if |path| > 1 {
      assert Adjacent(edges, path[0], path[1]);
      PathTail(edges, path, a, b);
      PathKeepsRoot(p, rank, edges, path[1..], path[1], b);
    }
  }

  /** Two elements share a root if and only if a path of edges connects them. */
  lemma RootsAreComponents(p: seq<nat>, rank: seq<nat>, edges: seq<Edge>, a: nat, b: nat)
    requires Forest(p, rank) && RootsMatch(p, rank, edges) && a < |p| && b < |p|
    ensures Root(p, rank, a) == Root(p, rank, b) <==> Connected(edges, a, b)
  {
    if Connected(edges, a, b) {
      var path :| IsPath(edges, path, a, b);
      PathKeepsRoot(p, rank, edges, path, a, b);
    }
  }

  /** parent = list(range(n)), then a union for every edge. */
  method UnionAll(n: nat, edges: seq<Edge>) returns (parent: array<nat>, ghost rank: seq<nat>)
    requires forall e :: e in edges ==> e.0 < n && e.1 < n
    ensures fresh(parent) && parent.Length == n && Forest(parent[..], rank)
    ensures forall a: nat, b: nat :: a < n && b < n ==>
              (Root(parent[..], rank, a) == Root(parent[..], rank, b) <==> Connected(edges, a, b))
  {
    parent := new nat[n](i => i);
    rank := seq(n, i => 0);
    assert RootsMatch(parent[..], rank, edges[..0]) by {
      forall a: nat | a < n ensures Connected([], a, a) { ConnectedSelf([], a); }
    }
    for k := 0 to |edges|
      invariant Forest(parent[..], rank) && RootsMatch(parent[..], rank, edges[..k])
    {
      ghost var p: seq<nat> := parent[..];
      ghost var r := rank;
      assert edges[k] in edges;
      rank := Union(parent, rank, edges[k].0, edges[k].1);
      MatchStep(p, r, edges[..k], parent[..], rank, edges[k]);
      assert edges[..k] + [edges[k]] == edges[..k + 1];
    }
    assert edges[..|edges|] == edges;
    forall a: nat, b: nat | a < n && b < n
      ensures Root(parent[..], rank, a) == Root(parent[..], rank, b) <==> Connected(edges, a, b)
    {
      RootsAreComponents(parent[..], rank, edges, a, b);
    }
  }

  // ---- Clusters ----

  type Clusters = Dict<nat, seq<nat>>

  function Members(d: Clusters, root: nat): seq<nat> {
    if Has(d, root) then Get(d, root).value else []
  }

  /** The clusters of the elements by their roots, in the order in which the roots first occur. */
  function ClusterBy(roots: seq<nat>): Clusters {
    if roots == [] then []
    else
      var d, root := ClusterBy(roots[..|roots| - 1]), roots[|roots| - 1];
      Put<nat, seq<nat>>(d, root, Members(d, root) + [|roots| - 1])
  }

  function MergeGroups(d: Clusters): seq<seq<nat>> {
    if d == [] then [] else (if |d[0].1| >= 2 then [d[0].1] else []) + MergeGroups(d[1..])
  }

  ghost function RootsOf(p: seq<nat>, rank: seq<nat>): (roots: seq<nat>)
    requires Forest(p, rank)
    ensures |roots| == |p| && forall i :: 0 <= i < |p| ==> roots[i] == Root(p, rank, i)
  {
    seq(|p|, i requires 0 <= i < |p| => Root(p, rank, i))
  }

  method BuildClusters(parent: array<nat>, ghost rank: seq<nat>) returns (clusters: Clusters)
    requires Forest(parent[..], rank)
    modifies parent
    ensures clusters == ClusterBy(RootsOf(old(parent[..]), rank))
  {
    ghost var roots := RootsOf(parent[..], rank);
    clusters := [];
    for idx := 0 to parent.Length
      invariant Forest(parent[..], rank) && RootsOf(parent[..], rank) == roots
      invariant clusters == ClusterBy(roots[..idx])
    {
      ghost var p: seq<nat> := parent[..];
      var root := Find(parent, rank, idx);
      SameRootsSameSeq(p, rank, parent[..]);
      assert roots[..idx + 1][..idx] == roots[..idx];
      clusters := Put<nat, seq<nat>>(clusters, root, Members(clusters, root) + [idx]);
    }
    assert roots[..|roots|] == roots;
  }

  lemma SameRootsSameSeq(p: seq<nat>, rank: seq<nat>, p': seq<nat>)
    requires Forest(p, rank) && Forest(p', rank) && SameRoots(p, rank, p', rank)
    ensures RootsOf(p, rank) == RootsOf(p', rank)
  {
  }

  /** A cluster lists, in ascending order, exactly the elements with its root. */
  ghost predicate ListsRoot(group: seq<nat>, roots: seq<nat>, root: nat) {
    && (forall i, j :: 0 <= i < j < |group| ==> group[i] < group[j])
    && (forall x: nat :: x in group <==> x < |roots| && roots[x] == root)
  }

  lemma ListsMore(group: seq<nat>, front: seq<nat>, root: nat, last: nat)
    requires ListsRoot(group, front, root)
    ensures ListsRoot(if root == last then group + [|front|] else group, front + [last], root)
  {
    var after: seq<nat> := if root == last then group + [|front|] else group;
    assert forall i :: 0 <= i < |group| ==> group[i] in group;
    forall x: nat ensures x in after <==> x < |front + [last]| && (front + [last])[x] == root {
      assert x in after <==> x in group || (root == last && x == |front|);
    }
  }

  lemma {:induction false} ClusterByLists(roots: seq<nat>, root: nat)
    ensures Distinct(ClusterBy(roots))
    ensures ListsRoot(Members(ClusterBy(roots), root), roots, root)
    ensures Has(ClusterBy(roots), root) <==> root in roots
  {
    if roots != [] {
      var front, last := roots[..|roots| - 1], roots[|roots| - 1];
      SplitLast(roots);
      ClusterByLists(front, root);
      ClusterByLists(front, last);
      var d := ClusterBy(front);
      var group: seq<nat> := Members(d, last) + [|front|];
      PutProperties<nat, seq<nat>>(d, last, group, root);
      PutDistinct<nat, seq<nat>>(d, last, group);
      ListsMore(Members(d, root), front, root, last);
    }
  }

  lemma {:induction false} MergeGroupsAre(d: Clusters, group: seq<nat>)
    ensures group in MergeGroups(d) <==> |group| >= 2 && exists i :: 0 <= i < |d| && d[i].1 == group
  {
    if d != [] {
      MergeGroupsAre(d[1..], group);
      assert forall i :: 1 <= i < |d| ==> d[i] == d[1..][i - 1];
      if exists i :: 0 <= i < |d| && d[i].1 == group {
        var i :| 0 <= i < |d| && d[i].1 == group;
        if i > 0 {
          assert d[1..][i - 1].1 == group;
        }
      }
    }
  }

  /** Connectivity among the elements, given by roots. */
  ghost predicate RootsDecide(roots: seq<nat>, edges: seq<Edge>) {
    forall a: nat, b: nat :: a < |roots| && b < |roots| ==> (roots[a] == roots[b] <==> Connected(edges, a, b))
  }

  /** The ascending list of everything connected to a. */
  ghost predicate IsComponent(group: seq<nat>, n: nat, edges: seq<Edge>, a: nat) {
    && (forall i, j :: 0 <= i < j < |group| ==> group[i] < group[j])
    && (forall b: nat :: b in group <==> b < n && Connected(edges, a, b))
  }

  /** Every merge group is the connected component of each of its members, and has at least two of them. */
  lemma GroupIsComponent(roots: seq<nat>, edges: seq<Edge>, group: seq<nat>, a: nat)
    requires RootsDecide(roots, edges) && group in MergeGroups(ClusterBy(roots)) && a in group
    ensures |group| >= 2 && IsComponent(group, |roots|, edges, a)
  {
    var d := ClusterBy(roots);
    MergeGroupsAre(d, group);
    var i :| 0 <= i < |d| && d[i].1 == group;
    var root := d[i].0;
    ClusterByLists(roots, root);
    GetAt(d, i);
    assert Members(d, root) == group;
  }

  lemma TwoMembers(group: seq<nat>, a: nat, b: nat)
    requires a in group && b in group && a != b
    ensures |group| >= 2
  {
  }

  /** Every element connected to another one is in a merge group. */
  lemma ComponentIsGroup(roots: seq<nat>, edges: seq<Edge>, a: nat, b: nat) returns (group: seq<nat>)
    requires RootsDecide(roots, edges) && a < |roots| && b < |roots| && a != b && Connected(edges, a, b)
    ensures group in MergeGroups(ClusterBy(roots)) && a in group && b in group
  {
    var d := ClusterBy(roots);
    ClusterByLists(roots, roots[a]);
    group := Members(d, roots[a]);
    HasIsMembership(d, roots[a]);
    assert a in group && b in group;
    var i :| 0 <= i < |d| && d[i] == (roots[a], group);
    TwoMembers(group, a, b);
    MergeGroupsAre(d, group);
  }

  /** No element is in two merge groups: the groups are disjoint, and none occurs twice. */
  lemma {:induction false} GroupsDisjoint(d: Clusters, roots: seq<nat>, i: nat, j: nat, x: nat)
    requires Distinct(d) && (forall k :: 0 <= k < |d| ==> ListsRoot(d[k].1, roots, d[k].0))
    requires i < j < |MergeGroups(d)|
    ensures !(x in MergeGroups(d)[i] && x in MergeGroups(d)[j])
  {
    var rest := MergeGroups(d[1..]);
    if |d[0].1| >= 2 {
      if i == 0 {
        MergeGroupsAre(d[1..], rest[j - 1]);
        var k :| 0 <= k < |d[1..]| && d[1..][k].1 == rest[j - 1];
        assert d[k + 1].1 == rest[j - 1] && d[k + 1].0 != d[0].0;
      } else {
        GroupsDisjoint(d[1..], roots, i - 1, j - 1, x);
      }
    } else {
      GroupsDisjoint(d[1..], roots, i, j, x);
    }
  }

  lemma ClustersListRoots(roots: seq<nat>)
    ensures Distinct(ClusterBy(roots))
    ensures forall k :: 0 <= k < |ClusterBy(roots)| ==> ListsRoot(ClusterBy(roots)[k].1, roots, ClusterBy(roots)[k].0)
  {
    var d := ClusterBy(roots);
    ClusterByLists(roots, 0);
    forall k | 0 <= k < |d| ensures ListsRoot(d[k].1, roots, d[k].0) {
      ClusterByLists(roots, d[k].0);
      GetAt(d, k);
    }
  }
}
