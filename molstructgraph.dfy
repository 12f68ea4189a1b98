/**
 * MolStructGraph (molstructgraph.h, molstructgraph.cpp): the bond graph of a
 * molecule as per-atom adjacency lists, a breadth-first shortest-path search
 * and a depth-first branch selection.
 *
 * The graph is a class whose constructor fills `atoms`. The searches keep the
 * source's local buffers (the parent vector, the two queues, the visited flags)
 * as local sequences; the ghost `dist` labels every reached atom with its
 * breadth-first level so that the results can be stated against paths.
 */
module MolStructGraphs {
  import opened MolStructs

  /** One entry of an atom's adjacency list: the bond's index and the atom at its other end. */
  datatype GraphBond = GraphBond(id: int, partner: int)

  datatype GraphAtom = GraphAtom(bonds: seq<GraphBond>)

  /** Every adjacency entry names a bond index and an atom of the graph. */
  predicate WellFormed(adj: seq<GraphAtom>) {
    forall a, k :: 0 <= a < |adj| && 0 <= k < |adj[a].bonds| ==>
      0 <= adj[a].bonds[k].id && 0 <= adj[a].bonds[k].partner < |adj|
  }

  /** `v` appears in the adjacency list of `u`. */
  predicate Adjacent(adj: seq<GraphAtom>, u: int, v: int) {
    0 <= u < |adj| && exists k :: 0 <= k < |adj[u].bonds| && adj[u].bonds[k].partner == v
  }

  /** Consecutive atoms of `p` are bonded, read from the adjacency lists. */
  predicate IsPath(adj: seq<GraphAtom>, p: seq<int>) {
    |p| >= 1 && forall k :: 0 <= k < |p| - 1 ==> Adjacent(adj, p[k], p[k + 1])
  }

  /** `p` leads from `from` to `to` over at least one bond. */
  predicate Connects(adj: seq<GraphAtom>, p: seq<int>, from: int, to: int) {
    |p| >= 2 && IsPath(adj, p) && p[0] == from && p[|p| - 1] == to
  }

  predicate Distinct(s: seq<int>) {
    forall i, j :: 0 <= i < j < |s| ==> s[i] != s[j]
  }

  // ---------------------------------------------------------------------------
  // Construction

  /** Adjacency lists after bond `i` = `b` is recorded at both of its ends. */
  function Link(adj: seq<GraphAtom>, i: int, b: Bond): (r: seq<GraphAtom>)
    requires 0 <= b.from < |adj| && 0 <= b.to < |adj|
    ensures |r| == |adj|
  {
    var once := adj[b.from := GraphAtom(adj[b.from].bonds + [GraphBond(i, b.to)])];
    once[b.to := GraphAtom(once[b.to].bonds + [GraphBond(i, b.from)])]
  }

  /** The adjacency lists of `n` atoms after recording `bonds` in order. */
  function Adjacency(bonds: seq<Bond>, n: nat): (adj: seq<GraphAtom>)
    requires BondsInRange(bonds, n)
    ensures |adj| == n
  {
    if bonds == [] then seq(n, _ => GraphAtom([]))
    else
      var i := |bonds| - 1;
      Link(Adjacency(bonds[..i], n), i, bonds[i])
  }

  lemma LinkEntries(adj: seq<GraphAtom>, i: int, b: Bond, a: int, g: GraphBond)
    requires 0 <= b.from < |adj| && 0 <= b.to < |adj| && 0 <= a < |adj|
    ensures g in Link(adj, i, b)[a].bonds <==>
      g in adj[a].bonds || (a == b.from && g == GraphBond(i, b.to)) || (a == b.to && g == GraphBond(i, b.from))
  {
  }

  /** The constructor's lists: `(i, p)` is listed at atom `a` exactly when bond `i` joins `a` and `p`. */
  lemma {:induction false} AdjacencyEntries(bonds: seq<Bond>, n: nat, a: int, g: GraphBond)
    requires BondsInRange(bonds, n) && 0 <= a < n
    ensures g in Adjacency(bonds, n)[a].bonds <==>
      0 <= g.id < |bonds| &&
      ((bonds[g.id].from == a && bonds[g.id].to == g.partner) || (bonds[g.id].to == a && bonds[g.id].from == g.partner))
  {
    if bonds != [] {
      var i := |bonds| - 1;
      AdjacencyEntries(bonds[..i], n, a, g);
      LinkEntries(Adjacency(bonds[..i], n), i, bonds[i], a, g);
    }
  }

  lemma AdjacencyWellFormed(bonds: seq<Bond>, n: nat)
    requires BondsInRange(bonds, n)
    ensures WellFormed(Adjacency(bonds, n))
  {
    var adj := Adjacency(bonds, n);
    forall a, k | 0 <= a < |adj| && 0 <= k < |adj[a].bonds|
      ensures 0 <= adj[a].bonds[k].id && 0 <= adj[a].bonds[k].partner < |adj|
    {
      AdjacencyEntries(bonds, n, a, adj[a].bonds[k]);
    }
  }

  /** Bonds are listed at both ends, so adjacency is symmetric. */
  lemma AdjacencySymmetric(bonds: seq<Bond>, n: nat, u: int, v: int)
    requires BondsInRange(bonds, n) && 0 <= u < n && 0 <= v < n
    ensures Adjacent(Adjacency(bonds, n), u, v) <==> Adjacent(Adjacency(bonds, n), v, u)
  {
    var adj := Adjacency(bonds, n);
    forall x, y | 0 <= x < n && 0 <= y < n && Adjacent(adj, x, y)
      ensures Adjacent(adj, y, x)
    {
      var k :| 0 <= k < |adj[x].bonds| && adj[x].bonds[k].partner == y;
      var g := adj[x].bonds[k];
      AdjacencyEntries(bonds, n, x, g);
      AdjacencyEntries(bonds, n, y, GraphBond(g.id, x));
      var k' :| 0 <= k' < |adj[y].bonds| && adj[y].bonds[k'] == GraphBond(g.id, x);
    }
  }

  // ---------------------------------------------------------------------------
  // Breadth-first search

  /**
   * `parent` and `dist` describe a search tree rooted at `from`: an atom is
   * reached (its parent is not -1) exactly when its level is not negative, the
   * root is the only atom at level 0, and every other reached atom has a
   * bonded parent one level lower.
   */
  ghost predicate Tree(adj: seq<GraphAtom>, from: int, parent: seq<int>, dist: seq<int>, top: int) {
    |parent| == |adj| && |dist| == |adj| && 0 <= from < |adj| && dist[from] == 0 &&
    forall v :: 0 <= v < |adj| ==>
      (parent[v] == -1 <==> dist[v] < 0) && dist[v] <= top && (dist[v] == 0 ==> v == from) &&
      (dist[v] > 0 ==>
        0 <= parent[v] < |adj| && dist[parent[v]] == dist[v] - 1 && Adjacent(adj, parent[v], v))
  }

  /** Atom `u` has been expanded: none of its neighbours is the target, and all are reached at most one level deeper. */
  ghost predicate Closed(adj: seq<GraphAtom>, dist: seq<int>, to: int, u: int) {
    0 <= u < |adj| && u < |dist| &&
    forall k :: 0 <= k < |adj[u].bonds| ==>
      adj[u].bonds[k].partner != to && 0 <= adj[u].bonds[k].partner < |dist| &&
      0 <= dist[adj[u].bonds[k].partner] <= dist[u] + 1
  }

  /** Every reached atom of level at most `d` is expanded, except the level-`d` atoms still waiting in `pending`. */
  ghost predicate Settled(adj: seq<GraphAtom>, dist: seq<int>, to: int, d: int, pending: seq<int>) {
    forall u :: 0 <= u < |adj| && u < |dist| && 0 <= dist[u] <= d && !(dist[u] == d && u in pending) ==>
      Closed(adj, dist, to, u)
  }

  lemma {:induction false} ReachedWithin(adj: seq<GraphAtom>, from: int, to: int, dist: seq<int>, d: int, p: seq<int>, k: nat)
    requires |dist| == |adj| && 0 <= from < |adj| && dist[from] == 0
    requires Settled(adj, dist, to, d - 1, [])
    requires IsPath(adj, p) && p[0] == from && k < |p| && k <= d
    ensures 0 <= p[k] < |adj| && 0 <= dist[p[k]] <= k
  {
    if k > 0 {
      ReachedWithin(adj, from, to, dist, d, p, k - 1);
      assert Closed(adj, dist, to, p[k - 1]);
      assert Adjacent(adj, p[k - 1], p[k]);
    }
  }

  /** Once every atom below level `d` is expanded without meeting `to`, no path to `to` is shorter than `d + 2` atoms. */
  lemma ShortestBound(adj: seq<GraphAtom>, from: int, to: int, dist: seq<int>, d: int)
    requires |dist| == |adj| && 0 <= from < |adj| && dist[from] == 0
    requires Settled(adj, dist, to, d - 1, [])
    ensures forall p :: Connects(adj, p, from, to) ==> |p| >= d + 2
  {
    forall p | IsPath(adj, p) && p[0] == from && 2 <= |p| < d + 2
      ensures p[|p| - 1] != to
    {
      var m := |p| - 1;
      ReachedWithin(adj, from, to, dist, d, p, m - 1);
      assert Closed(adj, dist, to, p[m - 1]);
      assert Adjacent(adj, p[m - 1], p[m]);
    }
  }

  lemma {:induction false} Confined(adj: seq<GraphAtom>, from: int, to: int, dist: seq<int>, d: int, p: seq<int>, k: nat)
    requires |dist| == |adj| && 0 <= from < |adj| && dist[from] == 0 && d > 0
    requires Settled(adj, dist, to, d - 1, [])
    requires forall v :: 0 <= v < |adj| ==> dist[v] < d
    requires IsPath(adj, p) && p[0] == from && k < |p|
    ensures 0 <= p[k] < |adj| && 0 <= dist[p[k]] < d
  {
    if k > 0 {
      Confined(adj, from, to, dist, d, p, k - 1);
      assert Closed(adj, dist, to, p[k - 1]);
      assert Adjacent(adj, p[k - 1], p[k]);
    }
  }

  /** Once the search has nothing left to expand, no path leads to `to`. */
  lemma Exhausted(adj: seq<GraphAtom>, from: int, to: int, dist: seq<int>, d: int)
    requires |dist| == |adj| && 0 <= from < |adj| && dist[from] == 0 && d > 0
    requires Settled(adj, dist, to, d - 1, [])
    requires forall v :: 0 <= v < |adj| ==> dist[v] < d
    ensures forall p :: !Connects(adj, p, from, to)
  {
    forall p | IsPath(adj, p) && p[0] == from && 2 <= |p|
      ensures p[|p| - 1] != to
    {
      var m := |p| - 1;
      Confined(adj, from, to, dist, d, p, m - 1);
      assert Closed(adj, dist, to, p[m - 1]);
      assert Adjacent(adj, p[m - 1], p[m]);
    }
  }

  /** `next` holds exactly the atoms reached at level `d + 1`. */
  ghost predicate Queued(adj: seq<GraphAtom>, dist: seq<int>, next: seq<int>, d: int) {
    |dist| == |adj| && AtLevel(adj, dist, next, d + 1) &&
    (forall v :: 0 <= v < |adj| && dist[v] == d + 1 ==> v in next)
  }

  /** The first `j` neighbours of `a` are not the target and are reached at most one level below `a`. */
  ghost predicate Scanned(adj: seq<GraphAtom>, dist: seq<int>, to: int, a: int, d: int, j: int) {
    0 <= a < |adj| &&
    forall k :: 0 <= k < j && k < |adj[a].bonds| ==>
      adj[a].bonds[k].partner != to && 0 <= adj[a].bonds[k].partner < |dist| &&
      0 <= dist[adj[a].bonds[k].partner] <= d + 1
  }

  /** Only atoms not reached in `dist` may change level. */
  ghost predicate Keeps(dist: seq<int>, dist': seq<int>) {
    |dist'| == |dist| && forall v :: 0 <= v < |dist| && 0 <= dist[v] ==> dist'[v] == dist[v]
  }

  lemma KeepsTrans(dist: seq<int>, dist': seq<int>, dist'': seq<int>)
    requires Keeps(dist, dist') && Keeps(dist', dist'')
    ensures Keeps(dist, dist'')
  {
    forall v | 0 <= v < |dist| && 0 <= dist[v]
      ensures dist''[v] == dist[v]
    {
      assert dist'[v] == dist[v];
    }
  }

  /** Every atom still marked unreached is in `unseen`. */
  ghost predicate Unseen(parent: seq<int>, unseen: set<int>) {
    forall v :: 0 <= v < |parent| && parent[v] == -1 ==> v in unseen
  }

  /** Neighbour `j` of `a` is reached already: the scan moves on. */
  lemma Skip(adj: seq<GraphAtom>, from: int, to: int, parent: seq<int>, dist: seq<int>, d: int, a: int, j: int)
    requires WellFormed(adj) && Tree(adj, from, parent, dist, d + 1) && 0 <= a < |adj|
    requires 0 <= j < |adj[a].bonds| && adj[a].bonds[j].partner != to && parent[adj[a].bonds[j].partner] != -1
    requires Scanned(adj, dist, to, a, d, j)
    ensures Scanned(adj, dist, to, a, d, j + 1)
  {
  }

  lemma MarkTree(adj: seq<GraphAtom>, from: int, parent: seq<int>, dist: seq<int>, d: int, a: int, v: int)
    requires Tree(adj, from, parent, dist, d + 1) && 0 <= a < |adj| && dist[a] == d && d >= 0
    requires 0 <= v < |adj| && parent[v] == -1 && Adjacent(adj, a, v)
    ensures Tree(adj, from, parent[v := a], dist[v := d + 1], d + 1)
  {
  }

  lemma MarkSettled(adj: seq<GraphAtom>, to: int, dist: seq<int>, d: int, pending: seq<int>, v: int)
    requires |dist| == |adj| && 0 <= v < |adj| && dist[v] < 0 && d >= 0
    requires Settled(adj, dist, to, d, pending)
    ensures Settled(adj, dist[v := d + 1], to, d, pending)
  {
    var dist' := dist[v := d + 1];
    forall u | 0 <= u < |adj| && u < |dist'| && 0 <= dist'[u] <= d && !(dist'[u] == d && u in pending)
      ensures Closed(adj, dist', to, u)
    {
      assert Closed(adj, dist, to, u);
    }
  }

  lemma MarkQueued(adj: seq<GraphAtom>, dist: seq<int>, next: seq<int>, d: int, v: int)
    requires Queued(adj, dist, next, d) && 0 <= v < |adj| && dist[v] < 0 && d >= 0
    ensures Queued(adj, dist[v := d + 1], next + [v], d)
  {
  }

  lemma MarkScanned(adj: seq<GraphAtom>, dist: seq<int>, to: int, a: int, d: int, j: int)
    requires Scanned(adj, dist, to, a, d, j) && 0 <= j < |adj[a].bonds| && adj[a].bonds[j].partner != to
    requires 0 <= adj[a].bonds[j].partner < |dist| && dist[adj[a].bonds[j].partner] < 0 && d >= 0
    ensures Scanned(adj, dist[adj[a].bonds[j].partner := d + 1], to, a, d, j + 1)
  {
  }

  /** Atom `v` leaves the unreached set when it is given level `d + 1`; reached atoms keep their level. */
  lemma MarkUnseen(parent: seq<int>, dist: seq<int>, unseen: set<int>, d: int, a: int, v: int)
    requires |parent| == |dist| && 0 <= a < |dist| && dist[a] == d && d >= 0
    requires 0 <= v < |parent| && parent[v] == -1 && dist[v] < 0 && Unseen(parent, unseen)
    ensures Keeps(dist, dist[v := d + 1]) && dist[v := d + 1][a] == d
    ensures v in unseen && Unseen(parent[v := a], unseen - {v}) && |unseen - {v}| == |unseen| - 1
  {
    assert unseen == (unseen - {v}) + {v};
  }

  /** Atoms of `s` in reverse order. */
  function Reverse(s: seq<int>): (r: seq<int>)
    ensures |r| == |s| && forall i :: 0 <= i < |s| ==> r[i] == s[|s| - 1 - i]
  {
    if s == [] then [] else Reverse(s[1..]) + [s[0]]
  }

  /** Each atom of `s` is listed as a neighbour of the next one. */
  predicate Backward(adj: seq<GraphAtom>, s: seq<int>) {
    forall k :: 0 <= k < |s| - 1 ==> Adjacent(adj, s[k + 1], s[k])
  }

  lemma ReverseBackward(adj: seq<GraphAtom>, s: seq<int>)
    requires |s| >= 1 && Backward(adj, s)
    ensures IsPath(adj, Reverse(s))
  {
    var r := Reverse(s);
    forall k | 0 <= k < |r| - 1
      ensures Adjacent(adj, r[k], r[k + 1])
    {
      assert r[k] == s[|s| - 1 - k] && r[k + 1] == s[|s| - 2 - k];
    }
  }

  /** The backtracking loop: follow parents from `a` back to `from`, then reverse. */
  method Backtrack(adj: seq<GraphAtom>, from: int, to: int, a: int, parent: seq<int>, ghost dist: seq<int>, ghost d: int)
    returns (path: seq<int>)
    requires Tree(adj, from, parent, dist, d + 1) && 0 <= a < |adj| && dist[a] == d && d >= 0
    requires Adjacent(adj, a, to)
    ensures Connects(adj, path, from, to) && |path| == d + 2
  {
    var result := [to];
    var last := a;
    while last != from
      invariant 0 <= last < |adj| && 0 <= dist[last]
      invariant |result| + dist[last] == d + 1 && result[0] == to
      invariant Backward(adj, result + [last])
      decreases dist[last]
    {
      result := result + [last];
      last := parent[last];
    }
    result := result + [from];
    ReverseBackward(adj, result);
    path := Reverse(result);
  }

  /** Every atom of the queue `q` is at level `d`. */
  ghost predicate AtLevel(adj: seq<GraphAtom>, dist: seq<int>, q: seq<int>, d: int) {
    forall i :: 0 <= i < |q| ==> 0 <= q[i] < |adj| && q[i] < |dist| && dist[q[i]] == d
  }

  lemma KeepsLevel(adj: seq<GraphAtom>, dist: seq<int>, dist': seq<int>, q: seq<int>, d: int)
    requires d >= 0 && Keeps(dist, dist') && AtLevel(adj, dist, q, d)
    ensures AtLevel(adj, dist', q, d)
  {
  }

  /** Outcome of expanding one level: the path found, or the queue of the next level. */
  datatype Level = Found(path: seq<int>) | Next(queue: seq<int>)

  /** The loop over the bonds of one dequeued atom `a` at level `d`. */
  method VisitNeighbours(adj: seq<GraphAtom>, from: int, to: int, ghost d: nat, a: int, ghost pending: seq<int>,
                         parent: seq<int>, next: seq<int>, ghost dist: seq<int>, ghost unseen: set<int>)
    returns (path: seq<int>, parent': seq<int>, next': seq<int>, ghost dist': seq<int>, ghost unseen': set<int>)
    requires WellFormed(adj) && Tree(adj, from, parent, dist, d + 1) && 0 <= a < |adj| && dist[a] == d
    requires Queued(adj, dist, next, d) && Settled(adj, dist, to, d, [a] + pending) && Unseen(parent, unseen)
    ensures Keeps(dist, dist')
    ensures path != [] ==> Connects(adj, path, from, to) && |path| == d + 2
    ensures path == [] ==>
      Tree(adj, from, parent', dist', d + 1) && Queued(adj, dist', next', d) &&
      Settled(adj, dist', to, d, pending) && Unseen(parent', unseen') && |unseen'| + |next'| == |unseen| + |next|
  {
    parent', next', dist', unseen' := parent, next, dist, unseen;
    for j := 0 to |adj[a].bonds|
      invariant Tree(adj, from, parent', dist', d + 1) && dist'[a] == d && Keeps(dist, dist')
      invariant Queued(adj, dist', next', d) && Settled(adj, dist', to, d, [a] + pending)
      invariant Scanned(adj, dist', to, a, d, j)
      invariant Unseen(parent', unseen') && |unseen'| + |next'| == |unseen| + |next|
    {
      ghost var dist0 := dist';
      path, parent', next', dist', unseen' := VisitBond(adj, from, to, d, a, pending, j, parent', next', dist', unseen');
      KeepsTrans(dist, dist0, dist');
      if path != [] {
        return;
      }
    }
    path := [];
    assert Closed(adj, dist', to, a);
  }

  /** One step of the neighbour scan: bond `j` of `a` is the target, a new atom, or one reached already. */
  method VisitBond(adj: seq<GraphAtom>, from: int, to: int, ghost d: nat, a: int, ghost pending: seq<int>, j: int,
                   parent: seq<int>, next: seq<int>, ghost dist: seq<int>, ghost unseen: set<int>)
    returns (path: seq<int>, parent': seq<int>, next': seq<int>, ghost dist': seq<int>, ghost unseen': set<int>)
    requires WellFormed(adj) && Tree(adj, from, parent, dist, d + 1) && 0 <= a < |adj| && dist[a] == d
    requires 0 <= j < |adj[a].bonds| && Scanned(adj, dist, to, a, d, j)
    requires Queued(adj, dist, next, d) && Settled(adj, dist, to, d, [a] + pending) && Unseen(parent, unseen)
    ensures Keeps(dist, dist')
    ensures path != [] ==> Connects(adj, path, from, to) && |path| == d + 2
    ensures path == [] ==>
      Tree(adj, from, parent', dist', d + 1) && dist'[a] == d &&
      Queued(adj, dist', next', d) && Settled(adj, dist', to, d, [a] + pending) &&
      Scanned(adj, dist', to, a, d, j + 1) && Unseen(parent', unseen') && |unseen'| + |next'| == |unseen| + |next|
  {
    var b := adj[a].bonds[j];
    parent', next', dist', unseen' := parent, next, dist, unseen;
    if b.partner == to {
      assert Adjacent(adj, a, to);
      path := Backtrack(adj, from, to, a, parent, dist, d);
    } else if parent[b.partner] == -1 {
      var v := b.partner;
      assert Adjacent(adj, a, v) && dist[v] < 0;
      MarkTree(adj, from, parent, dist, d, a, v);
      MarkSettled(adj, to, dist, d, [a] + pending, v);
      MarkQueued(adj, dist, next, d, v);
      MarkScanned(adj, dist, to, a, d, j);
      MarkUnseen(parent, dist, unseen, d, a, v);
      path := [];
      next' := next + [b.partner];
      parent' := parent[b.partner := a];
      dist' := dist[b.partner := d + 1];
      unseen' := unseen - {b.partner};
    } else {
      Skip(adj, from, to, parent, dist, d, a, j);
      path := [];
    }
  }

  /** The inner loop: dequeue and expand every atom of level `d`. */
  method ExpandLevel(adj: seq<GraphAtom>, from: int, to: int, ghost d: nat, current: seq<int>,
                     parent: seq<int>, ghost dist: seq<int>, ghost unseen: set<int>)
    returns (r: Level, parent': seq<int>, ghost dist': seq<int>, ghost unseen': set<int>)
    requires WellFormed(adj) && Tree(adj, from, parent, dist, d)
    requires AtLevel(adj, dist, current, d)
    requires forall v :: 0 <= v < |adj| && dist[v] == d ==> v in current
    requires Settled(adj, dist, to, d - 1, []) && Unseen(parent, unseen)
    ensures r.Found? ==> Connects(adj, r.path, from, to) && |r.path| == d + 2
    ensures r.Next? ==>
      Tree(adj, from, parent', dist', d + 1) && Queued(adj, dist', r.queue, d) &&
      Settled(adj, dist', to, d, []) && Unseen(parent', unseen') &&
      |unseen'| <= |unseen| && (r.queue != [] ==> |unseen'| < |unseen|)
  {
    parent', dist', unseen' := parent, dist, unseen;
    var queue := current;
    var next := [];
    while queue != []
      invariant Tree(adj, from, parent', dist', d + 1)
      invariant AtLevel(adj, dist', queue, d)
      invariant Queued(adj, dist', next, d) && Settled(adj, dist', to, d, queue)
      invariant Unseen(parent', unseen') && |unseen'| + |next| == |unseen|
      decreases |queue|
    {
      var a := queue[0];
      assert queue == [a] + queue[1..];
      queue := queue[1..];
      ghost var before := dist';
      var path;
      path, parent', next, dist', unseen' := VisitNeighbours(adj, from, to, d, a, queue, parent', next, dist', unseen');
      KeepsLevel(adj, before, dist', queue, d);
      if path != [] {
        r := Found(path);
        return;
      }
    }
    r := Next(next);
  }

  // ---------------------------------------------------------------------------
  // Depth-first branch selection

  /** A walk that never enters `avoid`. */
  predicate Walk(adj: seq<GraphAtom>, p: seq<int>, avoid: int) {
    IsPath(adj, p) && forall k :: 0 <= k < |p| ==> p[k] != avoid
  }

  /** `v` can be reached from `start` without passing through `avoid`. */
  ghost predicate Reaches(adj: seq<GraphAtom>, avoid: int, start: int, v: int) {
    exists p :: Walk(adj, p, avoid) && p[0] == start && p[|p| - 1] == v
  }

  lemma ReachesStep(adj: seq<GraphAtom>, avoid: int, start: int, u: int, v: int)
    requires Reaches(adj, avoid, start, u) && Adjacent(adj, u, v) && v != avoid
    ensures Reaches(adj, avoid, start, v)
  {
    var p :| Walk(adj, p, avoid) && p[0] == start && p[|p| - 1] == u;
    var q := p + [v];
    forall k | 0 <= k < |q| - 1
      ensures Adjacent(adj, q[k], q[k + 1])
    {
      if k < |p| - 1 {
        assert q[k] == p[k] && q[k + 1] == p[k + 1];
      }
    }
    assert Walk(adj, q, avoid);
  }

  /** Number of atoms not yet visited. */
  function Unvisited(visited: seq<bool>): nat {
    if visited == [] then 0
    else Unvisited(visited[..|visited| - 1]) + (if visited[|visited| - 1] then 0 else 1)
  }

  lemma {:induction false} UnvisitedMonotone(before: seq<bool>, after: seq<bool>)
    requires |before| == |after| && forall k :: 0 <= k < |before| && before[k] ==> after[k]
    ensures Unvisited(after) <= Unvisited(before)
  {
    if before != [] {
      var m := |before| - 1;
      UnvisitedMonotone(before[..m], after[..m]);
    }
  }

  lemma {:induction false} UnvisitedShrinks(before: seq<bool>, after: seq<bool>, i: int)
    requires |before| == |after| && forall k :: 0 <= k < |before| && before[k] ==> after[k]
    requires 0 <= i < |before| && !before[i] && after[i]
    ensures Unvisited(after) < Unvisited(before)
  {
    var m := |before| - 1;
    if i == m {
      UnvisitedMonotone(before[..m], after[..m]);
    } else {
      UnvisitedShrinks(before[..m], after[..m], i);
    }
  }

  /** The visited flags are set exactly on `avoid` and on the atoms already selected. */
  predicate Marks(visited: seq<bool>, avoid: int, result: seq<int>) {
    (forall v :: 0 <= v < |visited| ==> (visited[v] <==> v == avoid || v in result)) &&
    (forall v :: v in result ==> 0 <= v < |visited|)
  }

  /** Every neighbour of `u` is visited. */
  predicate Done(adj: seq<GraphAtom>, visited: seq<bool>, u: int) {
    0 <= u < |adj| &&
    forall k :: 0 <= k < |adj[u].bonds| ==> 0 <= adj[u].bonds[k].partner < |visited| && visited[adj[u].bonds[k].partner]
  }

  /** The recursive visitAtom closure: select `id`, then every unvisited neighbour in list order. */
  method VisitAtom(adj: seq<GraphAtom>, avoid: int, start: int, id: int, visited: seq<bool>, result: seq<int>)
    returns (visited': seq<bool>, result': seq<int>)
    requires WellFormed(adj) && |visited| == |adj| && 0 <= avoid < |adj| && visited[avoid]
    requires 0 <= id < |adj| && id !in result
    requires Marks(visited, avoid, result) && Distinct(result)
    requires start != avoid ==> Reaches(adj, avoid, start, id) && forall v :: v in result ==> Reaches(adj, avoid, start, v)
    ensures |visited'| == |adj| && Marks(visited', avoid, result') && Distinct(result')
    ensures forall v :: 0 <= v < |visited| && visited[v] ==> visited'[v]
    ensures |result'| > |result| && result'[..|result|] == result && result'[|result|] == id
    ensures start != avoid ==> forall v :: v in result' ==> Reaches(adj, avoid, start, v)
    ensures forall k :: |result| <= k < |result'| ==> Done(adj, visited', result'[k])
    decreases Unvisited(visited), if visited[id] then 1 else 0
  {
    result' := result + [id];
    visited' := visited[id := true];
    var bonds := adj[id].bonds;
    for j := 0 to |bonds|
      invariant |visited'| == |adj| && Marks(visited', avoid, result') && Distinct(result') && visited'[id]
      invariant forall v :: 0 <= v < |visited| && visited[v] ==> visited'[v]
      invariant |result'| > |result| && result'[..|result| + 1] == result + [id]
      invariant start != avoid ==> forall v :: v in result' ==> Reaches(adj, avoid, start, v)
      invariant forall k :: |result| + 1 <= k < |result'| ==> Done(adj, visited', result'[k])
      invariant forall k :: 0 <= k < j ==> visited'[bonds[k].partner]
    {
      var p := bonds[j].partner;
      if !visited'[p] {
        if start != avoid {
          ReachesStep(adj, avoid, start, id, p);
        }
        if visited[id] {
          UnvisitedMonotone(visited, visited');
        } else {
          UnvisitedShrinks(visited, visited', id);
        }
        ghost var before := result';
        visited', result' := VisitAtom(adj, avoid, start, p, visited', result');
        assert result'[..|result| + 1] == before[..|result| + 1];
      }
    }
    assert result'[|result|] == id;
    assert result'[..|result|] == result;
  }

  lemma {:induction false} StaysSelected(adj: seq<GraphAtom>, avoid: int, visited: seq<bool>, result: seq<int>, p: seq<int>, k: nat)
    requires Marks(visited, avoid, result) && forall v :: v in result ==> Done(adj, visited, v)
    requires Walk(adj, p, avoid) && p[0] in result && k < |p|
    ensures p[k] in result
  {
    if k > 0 {
      StaysSelected(adj, avoid, visited, result, p, k - 1);
      assert Done(adj, visited, p[k - 1]);
      assert Adjacent(adj, p[k - 1], p[k]);
    }
  }

  // ---------------------------------------------------------------------------
  // The graph object

  class MolStructGraph {
    var atoms: seq<GraphAtom>

    predicate Valid()
      reads this
    {
      WellFormed(atoms)
    }

    /** Bond `i` = (a, b) is listed as (i, b) at `a` and as (i, a) at `b`. */
    constructor (mol: Mol)
      requires BondsInRange(mol.bonds, |mol.atoms|)
      ensures atoms == Adjacency(mol.bonds, |mol.atoms|) && Valid()
    {
      var n := |mol.atoms|;
      var adj := seq(n, _ => GraphAtom([]));
      for i := 0 to |mol.bonds|
        invariant adj == Adjacency(mol.bonds[..i], n)
      {
        var b := mol.bonds[i];
        assert mol.bonds[..i + 1][..i] == mol.bonds[..i];
        adj := adj[b.from := GraphAtom(adj[b.from].bonds + [GraphBond(i, b.to)])];
        adj := adj[b.to := GraphAtom(adj[b.to].bonds + [GraphBond(i, b.from)])];
      }
      assert mol.bonds[..|mol.bonds|] == mol.bonds;
      atoms := adj;
      AdjacencyWellFormed(mol.bonds, n);
    }

    /**
     * findPath as written: `depth` is never incremented, so a positive limit
     * does not bound the search; only a limit of zero stops it before it starts.
     */
    method FindPathAsWritten(from: int, to: int, limit: int) returns (path: seq<int>)
      requires Valid() && 0 <= from < |atoms|
      ensures limit == 0 ==> path == []
      ensures path != [] ==> Connects(atoms, path, from, to) && forall p :: Connects(atoms, p, from, to) ==> |path| <= |p|
      ensures limit != 0 && path == [] ==> forall p :: !Connects(atoms, p, from, to)
    {
      var adj := atoms;
      var n := |adj|;
      var current := [from];
      var parent := seq(n, _ => -1)[from := from];
      ghost var dist := seq(n, _ => -1)[from := 0];
      ghost var unseen := set v | 0 <= v < n && parent[v] == -1;
      ghost var level: nat := 0;
      var bound := limit;
      if bound < 0 {
        bound := n + 1;
      }
      var depth := 0;
      while depth < bound && current != []
        invariant Tree(adj, from, parent, dist, level)
        invariant AtLevel(adj, dist, current, level)
        invariant forall v :: 0 <= v < n && dist[v] == level ==> v in current
        invariant Settled(adj, dist, to, level - 1, [])
        invariant Unseen(parent, unseen)
        invariant depth == 0
        decreases |unseen|, if current == [] then 0 else 1
      {
        ShortestBound(adj, from, to, dist, level);
        var r;
        r, parent, dist, unseen := ExpandLevel(adj, from, to, level, current, parent, dist, unseen);
        if r.Found? {
          return r.path;
        }
        current := r.queue;
        level := level + 1;
      }
      if limit != 0 {
        Exhausted(adj, from, to, dist, level);
      }
      return [];
    }

    /**
     * findPath with `depth` advanced after every level: the result is a
     * shortest path with at most `limit` intermediate atoms (`|atoms| + 1`
     * for a negative limit).
     */
    method FindPath(from: int, to: int, limit: int) returns (path: seq<int>)
      requires Valid() && 0 <= from < |atoms|
      ensures path != [] ==> Connects(atoms, path, from, to) && forall p :: Connects(atoms, p, from, to) ==> |path| <= |p|
      ensures path != [] ==> |path| - 2 <= (if limit < 0 then |atoms| + 1 else limit)
      ensures path == [] ==> forall p :: Connects(atoms, p, from, to) ==> |p| - 2 > (if limit < 0 then |atoms| + 1 else limit)
    {
      var adj := atoms;
      var n := |adj|;
      var current := [from];
      var parent := seq(n, _ => -1)[from := from];
      ghost var dist := seq(n, _ => -1)[from := 0];
      ghost var unseen := set v | 0 <= v < n && parent[v] == -1;
      var bound := limit;
      if bound < 0 {
        bound := n + 1;
      }
      var depth: nat := 0;
      while depth <= bound && current != []
        invariant Tree(adj, from, parent, dist, depth)
        invariant AtLevel(adj, dist, current, depth)
        invariant forall v :: 0 <= v < n && dist[v] == depth ==> v in current
        invariant Settled(adj, dist, to, depth - 1, [])
        invariant Unseen(parent, unseen)
        invariant depth <= bound + 1
        decreases |unseen|, if current == [] then 0 else 1
      {
        ShortestBound(adj, from, to, dist, depth);
        var r;
        r, parent, dist, unseen := ExpandLevel(adj, from, to, depth, current, parent, dist, unseen);
        if r.Found? {
          return r.path;
        }
        current := r.queue;
        depth := depth + 1;
      }
      if current == [] && depth > 0 {
        Exhausted(adj, from, to, dist, depth);
      } else {
        ShortestBound(adj, from, to, dist, depth);
      }
      return [];
    }

    /**
     * selectBranch: empty unless `to` is bonded to `from`; otherwise `to`
     * followed by every atom reachable from it without passing `from`.
     */
    method SelectBranch(from: int, to: int) returns (result: seq<int>)
      requires Valid() && 0 <= from < |atoms|
      ensures result == [] <==> !Adjacent(atoms, from, to)
      ensures result != [] ==> result[0] == to
      ensures Distinct(result)
      ensures from != to ==> from !in result
      ensures from != to && result != [] ==> forall v :: v in result <==> Reaches(atoms, from, to, v)
    {
      var adj := atoms;
      var visited := seq(|adj|, _ => false);
      var bond := -1;
      var bonds := adj[from].bonds;
      for j := 0 to |bonds|
        invariant bond >= 0 <==> exists k :: 0 <= k < j && bonds[k].partner == to
      {
        if bonds[j].partner == to {
          bond := bonds[j].id;
        }
      }
      if bond < 0 {
        return [];
      }
      visited := visited[from := true];
      result := [];
      if from != to {
        assert Walk(adj, [to], from);
      }
      visited, result := VisitAtom(adj, from, to, to, visited, result);
      if from != to {
        forall v | Reaches(adj, from, to, v)
          ensures v in result
        {
          var p :| Walk(adj, p, from) && p[0] == to && p[|p| - 1] == v;
          StaysSelected(adj, from, visited, result, p, |p| - 1);
        }
      }
    }
  }

  /** A chain of four atoms 0-1-2-3. */
  function Chain(): Mol {
    var atom := Atom(0.0, 0.0, 0.0, "C", 0);
    Mol([atom, atom, atom, atom], [Bond(0, 1, 1), Bond(1, 2, 1), Bond(2, 3, 1)])
  }

  lemma ChainSteps(u: int, v: int)
    requires Adjacent(Adjacency(Chain().bonds, 4), u, v)
    ensures v <= u + 1
  {
    var adj := Adjacency(Chain().bonds, 4);
    var k :| 0 <= k < |adj[u].bonds| && adj[u].bonds[k].partner == v;
    AdjacencyEntries(Chain().bonds, 4, u, adj[u].bonds[k]);
  }

  lemma {:induction false} ChainPrefix(p: seq<int>, k: nat)
    requires IsPath(Adjacency(Chain().bonds, 4), p) && p[0] == 0 && k < |p|
    ensures p[k] <= k
  {
    if k > 0 {
      ChainPrefix(p, k - 1);
      ChainSteps(p[k - 1], p[k]);
    }
  }

  lemma ChainLinks()
    ensures var adj := Adjacency(Chain().bonds, 4);
      Adjacent(adj, 0, 1) && Adjacent(adj, 1, 2) && Adjacent(adj, 2, 3)
  {
    AdjacencyEntries(Chain().bonds, 4, 0, GraphBond(0, 1));
    AdjacencyEntries(Chain().bonds, 4, 1, GraphBond(1, 2));
    AdjacencyEntries(Chain().bonds, 4, 2, GraphBond(2, 3));
  }

  /** On the chain every path from atom 0 to atom 3 passes two intermediate atoms, and one exists. */
  lemma ChainPaths()
    ensures Connects(Adjacency(Chain().bonds, 4), [0, 1, 2, 3], 0, 3)
    ensures forall p :: Connects(Adjacency(Chain().bonds, 4), p, 0, 3) ==> |p| >= 4
  {
    ChainLinks();
    forall p | Connects(Adjacency(Chain().bonds, 4), p, 0, 3)
      ensures |p| >= 4
    {
      ChainPrefix(p, |p| - 1);
    }
  }

  /**
   * With a limit of one intermediate atom, findPath as written still returns
   * the 0-1-2-3 path; the corrected search returns nothing.
   */
  method LimitIgnored() returns (asWritten: seq<int>, corrected: seq<int>)
    ensures |asWritten| - 2 > 1
    ensures corrected == []
  {
    var graph := new MolStructGraph(Chain());
    ChainPaths();
    asWritten := graph.FindPathAsWritten(0, 3, 1);
    corrected := graph.FindPath(0, 3, 1);
  }
}
