/** `TopologyManager::precomputeRoutes` (reconfigurable/network/TopologyManager.cpp): a breadth-first search from every
    device, and the routes read off its parent pointers. They are the best walks of `Paths`. */
module Routing {
  import opened Paths

  const INF := 1_000_000_000

  // ---------------------------------------------------------------------------------------------------------------
  // What a search leaves behind
  // ---------------------------------------------------------------------------------------------------------------

  /** The order in which devices were discovered, and for each the position of the device it was discovered from (-1 for
      the source). The program keeps the first only as the contents of its queue over time. */
  datatype Tree = Tree(found: seq<nat>, from: seq<int>)

  ghost predicate Distinct(s: seq<nat>) {
    forall i, j :: 0 <= i < j < |s| ==> s[i] != s[j]
  }

  /** Discovery is by edges, in the order in which the discoverers were themselves discovered, and for one discoverer in
      the order of device ids. */
  ghost predicate TreeOk(adj: Graph, s: nat, t: Tree) {
    && s < |adj| && t.found != [] && |t.from| == |t.found| && t.found[0] == s && t.from[0] == -1
    && Distinct(t.found)
    && (forall i :: 0 <= i < |t.found| ==> t.found[i] < |adj|)
    && (forall i :: 0 < i < |t.found| ==> 0 <= t.from[i] < i && Edge(adj, t.found[t.from[i]], t.found[i]))
    && (forall i, j :: 0 < i < j < |t.found| ==> ByDiscoverer(t, i, j))
  }

  ghost predicate ByDiscoverer(t: Tree, i: nat, j: nat) {
    i < |t.found| == |t.from| && j < |t.found|
    && (t.from[i] < t.from[j] || (t.from[i] == t.from[j] && t.found[i] < t.found[j]))
  }

  /** `v` was discovered, from position `k` or an earlier one. */
  ghost predicate Covered(t: Tree, v: nat, k: int) {
    exists i :: FoundAt(t, v, i) && t.from[i] <= k
  }

  ghost predicate FoundAt(t: Tree, v: nat, i: int) {
    0 <= i < |t.found| && i < |t.from| && t.found[i] == v
  }

  /** The first `h` discovered devices have been dealt with: all their neighbours were discovered no later than from
      them. */
  ghost predicate Scanned(adj: Graph, t: Tree, h: nat) {
    forall k, v :: 0 <= k < h && k < |t.found| && Edge(adj, t.found[k], v) ==> Covered(t, v, k)
  }

  /** How many hops the device at position `i` is from the source. */
  ghost function Depth(t: Tree, i: int): nat {
    if 0 < i < |t.from| && 0 <= t.from[i] < i then Depth(t, t.from[i]) + 1 else 0
  }

  /** The devices from the source to the one at position `i`, following the parents; nothing at position -1. */
  ghost function PathTo(t: Tree, i: int): seq<nat> {
    if 0 <= i < |t.from| == |t.found| && -1 <= t.from[i] < i then PathTo(t, t.from[i]) + [t.found[i]] else []
  }

  lemma {:induction false} PathIsWalk(adj: Graph, s: nat, t: Tree, i: nat)
    requires TreeOk(adj, s, t) && i < |t.found|
    ensures WalkFromTo(adj, s, t.found[i], PathTo(t, i)) && |PathTo(t, i)| == Depth(t, i) + 1
  {
    if i == 0 {
      assert PathTo(t, -1) == [];
    } else {
      PathIsWalk(adj, s, t, t.from[i]);
      assert Edge(adj, t.found[t.from[i]], t.found[i]);
    }
  }

  /** Discovery order is the order of (distance, dictionary order of the path). */
  lemma {:induction false} FoundInOrder(adj: Graph, s: nat, t: Tree, i: nat, j: nat)
    requires TreeOk(adj, s, t) && i < j < |t.found|
    ensures Depth(t, i) <= Depth(t, j)
    ensures Depth(t, i) == Depth(t, j) ==> LexBefore(PathTo(t, i), PathTo(t, j))
    decreases j
  {
    if i > 0 {
      assert ByDiscoverer(t, i, j);
      var i', j' := t.from[i], t.from[j];
      if i' < j' {
        FoundInOrder(adj, s, t, i', j');
      }
      PathIsWalk(adj, s, t, i');
      PathIsWalk(adj, s, t, j');
      if Depth(t, i') == Depth(t, j') {
        LexSnoc(PathTo(t, i'), PathTo(t, j'), t.found[i], t.found[j]);
      }
    }
  }

  /** While device `h` of the discovery order is dealt with, the devices waiting behind it are as far away as it is or one
      further. */
  lemma QueueSpan(adj: Graph, s: nat, t: Tree, h: nat, i: nat)
    requires TreeOk(adj, s, t) && h <= i < |t.found| && t.from[i] <= h
    ensures Depth(t, h) <= Depth(t, i) <= Depth(t, h) + 1
  {
    if h < i {
      FoundInOrder(adj, s, t, h, i);
      if 0 <= t.from[i] < h {
        FoundInOrder(adj, s, t, t.from[i], h);
      }
    }
  }

  /** A device next to one that was dealt with lies at most one further away, and if just as far, on a better path. */
  lemma ExtendBest(adj: Graph, s: nat, t: Tree, k: nat, i: nat, p: seq<nat>)
    requires TreeOk(adj, s, t) && k < |t.found| && i < |t.found| && t.from[i] <= k
    requires Walk(adj, p) && Better(PathTo(t, k), p)
    ensures Better(PathTo(t, i), p + [t.found[i]])
  {
    var v := t.found[i];
    PathIsWalk(adj, s, t, k);
    PathIsWalk(adj, s, t, i);
    if i > 0 {
      var h := t.from[i];
      PathIsWalk(adj, s, t, h);
      if h < k {
        FoundInOrder(adj, s, t, h, k);
      }
      assert Better(PathTo(t, h), PathTo(t, k));
      BetterTransitive(PathTo(t, h), PathTo(t, k), p);
      BetterSnoc(PathTo(t, h), p, v);
    }
  }

  lemma BetterTransitive(p: seq<nat>, q: seq<nat>, r: seq<nat>)
    requires Better(p, q) && Better(q, r)
    ensures Better(p, r)
  {
    if LexBefore(p, q) && LexBefore(q, r) {
      LexTransitive(p, q, r);
    }
  }

  lemma BetterSnoc(p: seq<nat>, q: seq<nat>, v: nat)
    requires Better(p, q)
    ensures Better(p + [v], q + [v])
  {
    if |p| == |q| && p != q {
      LexAppend(p, q, [v]);
    }
  }

  /** Everything that can be reached has been discovered, by a path as good as any. */
  lemma {:induction false} FoundIsBest(adj: Graph, s: nat, t: Tree, p: seq<nat>) returns (i: nat)
    requires TreeOk(adj, s, t) && Scanned(adj, t, |t.found|)
    requires Walk(adj, p) && p[0] == s
    ensures i < |t.found| && t.found[i] == p[|p| - 1] && Better(PathTo(t, i), p)
  {
    if |p| == 1 {
      i := 0;
      assert PathTo(t, -1) == [];
      assert p == [s];
    } else {
      var n := |p| - 1;
      var p' := p[..n];
      assert p == p' + [p[n]];
      forall k | 0 <= k < |p'| - 1 ensures Edge(adj, p'[k], p'[k + 1]) {
        assert Edge(adj, p[k], p[k + 1]);
      }
      var k := FoundIsBest(adj, s, t, p');
      assert Edge(adj, p[n - 1], p[n - 1 + 1]);
      assert Covered(t, p[n], k);
      i :| FoundAt(t, p[n], i) && t.from[i] <= k;
      ExtendBest(adj, s, t, k, i, p');
    }
  }

  lemma TreeIsBest(adj: Graph, s: nat, t: Tree, i: nat)
    requires TreeOk(adj, s, t) && Scanned(adj, t, |t.found|) && i < |t.found|
    ensures Best(adj, s, t.found[i], PathTo(t, i))
  {
    PathIsWalk(adj, s, t, i);
    forall p | WalkFromTo(adj, s, t.found[i], p) ensures Better(PathTo(t, i), p) {
      var j := FoundIsBest(adj, s, t, p);
      assert j == i;
    }
  }

  // ---------------------------------------------------------------------------------------------------------------
  // The search
  // ---------------------------------------------------------------------------------------------------------------

  /** The two work arrays agree with the tree. */
  ghost predicate Recorded(adj: Graph, t: Tree, dist: seq<int>, parent: seq<int>) {
    && |t.from| == |t.found| && |dist| == |parent| == |adj|
    && (forall i :: 0 <= i < |t.found| ==> RecordedAt(t, dist, parent, i))
    && (forall v :: 0 <= v < |adj| && v !in t.found ==> dist[v] == INF && parent[v] == -1)
  }

  ghost predicate RecordedAt(t: Tree, dist: seq<int>, parent: seq<int>, i: nat) {
    && i < |t.found| == |t.from| && -1 <= t.from[i] < i
    && t.found[i] < |dist| == |parent|
    && dist[t.found[i]] == Depth(t, i)
    && parent[t.found[i]] == if t.from[i] == -1 then -1 else t.found[t.from[i]]
  }

  lemma {:induction false} DepthBound(adj: Graph, s: nat, t: Tree, i: nat)
    requires TreeOk(adj, s, t) && i < |t.found|
    ensures Depth(t, i) <= i
  {
    if i > 0 {
      DepthBound(adj, s, t, t.from[i]);
    }
  }

  ghost function Below(n: nat): (r: set<nat>)
    ensures forall v: nat :: v in r <==> v < n
    ensures |r| == n
  {
    if n == 0 then {} else Below(n - 1) + {n - 1}
  }

  ghost function Elements(s: seq<nat>): set<nat> {
    set v | v in s
  }

  lemma {:induction false} ElementsSize(s: seq<nat>)
    requires Distinct(s)
    ensures |Elements(s)| == |s|
  {
    if s != [] {
      var n := |s| - 1;
      ElementsSize(s[..n]);
      assert s == s[..n] + [s[n]];
      assert Elements(s) == Elements(s[..n]) + {s[n]};
    }
  }

  /** No device is discovered twice, so a search discovers at most all of them. */
  lemma Pigeonhole(s: seq<nat>, n: nat)
    requires Distinct(s) && forall i :: 0 <= i < |s| ==> s[i] < n
    ensures |s| <= n
  {
    ElementsSize(s);
    SubsetSize(Elements(s), Below(n));
  }

  lemma {:induction false} SubsetSize(a: set<nat>, b: set<nat>)
    requires a <= b
    ensures |a| <= |b|
  {
    if a != {} {
      var x :| x in a;
      SubsetSize(a - {x}, b - {x});
    }
  }

  ghost function Grow(t: Tree, v: nat, k: int): Tree {
    Tree(t.found + [v], t.from + [k])
  }

  lemma {:induction false} DepthGrow(t: Tree, v: nat, k: nat, i: int)
    requires |t.from| == |t.found| && i < |t.found|
    ensures Depth(Grow(t, v, k), i) == Depth(t, i)
  {
    if 0 < i && 0 <= t.from[i] < i {
      DepthGrow(t, v, k, t.from[i]);
    }
  }

  /** Discovering one more device, from the one at hand. */
  lemma GrowKeeps(adj: Graph, s: nat, t: Tree, v: nat, k: nat)
    requires TreeOk(adj, s, t) && v < |adj| && v !in t.found && k < |t.found| && Edge(adj, t.found[k], v)
    requires forall i :: 0 <= i < |t.found| ==> t.from[i] <= k
    requires forall i :: 0 <= i < |t.found| && t.from[i] == k ==> t.found[i] < v
    ensures TreeOk(adj, s, Grow(t, v, k))
  {
    var u := Grow(t, v, k);
    forall i, j | 0 < i < j < |u.found| ensures ByDiscoverer(u, i, j) {
      if j < |t.found| {
        assert ByDiscoverer(t, i, j);
      }
    }
    assert forall i :: 0 <= i < |t.found| ==> t.found[i] in t.found;
  }

  lemma GrowRecorded(adj: Graph, t: Tree, v: nat, k: nat, dist: seq<int>, parent: seq<int>)
    requires Recorded(adj, t, dist, parent) && k < |t.found| && v < |adj| && v !in t.found
    ensures t.found[k] < |adj|
    ensures Recorded(adj, Grow(t, v, k), dist[v := dist[t.found[k]] + 1], parent[v := t.found[k]])
  {
    var u := Grow(t, v, k);
    assert RecordedAt(t, dist, parent, k);
    var dist', parent' := dist[v := dist[t.found[k]] + 1], parent[v := t.found[k]];
    forall i | 0 <= i < |u.found| ensures RecordedAt(u, dist', parent', i) {
      if i < |t.found| {
        assert RecordedAt(t, dist, parent, i) && t.found[i] in t.found;
        DepthGrow(t, v, k, i);
      } else {
        DepthGrow(t, v, k, k);
      }
    }
    assert forall w :: w in u.found <==> w in t.found || w == v;
  }

  lemma GrowCovered(t: Tree, v: nat, k: int, w: nat, l: int)
    requires |t.from| == |t.found| && Covered(t, w, l)
    ensures Covered(Grow(t, v, k), w, l)
  {
    var i :| FoundAt(t, w, i) && t.from[i] <= l;
    assert FoundAt(Grow(t, v, k), w, i);
  }

  lemma GrowScanned(adj: Graph, t: Tree, v: nat, k: int, h: nat)
    requires |t.from| == |t.found| && Scanned(adj, t, h) && h <= |t.found|
    ensures Scanned(adj, Grow(t, v, k), h)
  {
    forall l, w | 0 <= l < h && l < |t.found| + 1 && Edge(adj, Grow(t, v, k).found[l], w)
      ensures Covered(Grow(t, v, k), w, l)
    {
      assert Edge(adj, t.found[l], w);
      GrowCovered(t, v, k, w, l);
    }
  }

  /** An entry of INF marks a device as not yet discovered: no distance is that large. */
  lemma InfMeansNew(adj: Graph, s: nat, t: Tree, dist: seq<int>, parent: seq<int>, v: nat)
    requires TreeOk(adj, s, t) && Recorded(adj, t, dist, parent) && v < |adj| <= INF
    ensures dist[v] == INF <==> v !in t.found
    ensures |t.found| <= |adj|
  {
    Pigeonhole(t.found, |adj|);
    if v in t.found {
      var i :| 0 <= i < |t.found| && t.found[i] == v;
      assert RecordedAt(t, dist, parent, i);
      DepthBound(adj, s, t, i);
    }
  }

  /** What holds while the neighbours of the device at position `h` are gone through, `a` of them done. */
  ghost predicate Scanning(adj: Graph, s: nat, t: Tree, h: nat, a: nat) {
    && TreeOk(adj, s, t) && h < |t.found| == |t.from| && t.found[h] < |adj| && a <= |adj[t.found[h]]|
    && Scanned(adj, t, h)
    && (forall i :: 0 <= i < |t.found| ==> t.from[i] <= h)
    && (forall i :: 0 <= i < |t.found| && t.from[i] == h ==> t.found[i] in adj[t.found[h]][..a])
    && (forall b :: 0 <= b < a ==> Covered(t, adj[t.found[h]][b], h))
  }

  lemma ScanStart(adj: Graph, s: nat, t: Tree, h: nat)
    requires TreeOk(adj, s, t) && Scanned(adj, t, h) && h < |t.found|
    requires forall i :: 0 <= i < |t.found| ==> t.from[i] < h
    ensures t.found[h] < |adj| && Scanning(adj, s, t, h, 0)
  {
  }

  /** The test of the distance finds out whether the neighbour is new. */
  lemma ScanLook(adj: Graph, s: nat, t: Tree, h: nat, a: nat, dist: seq<int>, parent: seq<int>)
    requires GraphOk(adj) && |adj| <= INF && h < |t.found| && t.found[h] < |adj| && a < |adj[t.found[h]]|
    requires Scanning(adj, s, t, h, a) && Recorded(adj, t, dist, parent)
    ensures var v := adj[t.found[h]][a]; v < |adj| == |dist| && (dist[v] == INF <==> v !in t.found)
  {
    InfMeansNew(adj, s, t, dist, parent, adj[t.found[h]][a]);
  }

  lemma ScanNew(adj: Graph, s: nat, t: Tree, h: nat, a: nat)
    requires GraphOk(adj) && Scanning(adj, s, t, h, a) && a < |adj[t.found[h]]| && adj[t.found[h]][a] !in t.found
    ensures Scanning(adj, s, Grow(t, adj[t.found[h]][a], h), h, a + 1)
  {
    hide TreeOk, Scanned;
    var u := t.found[h];
    var v := adj[u][a];
    forall i | 0 <= i < |t.found| && t.from[i] == h ensures t.found[i] < v {
      var b :| 0 <= b < a && adj[u][b] == t.found[i];
    }
    assert Edge(adj, u, v);
    GrowKeeps(adj, s, t, v, h);
    GrowScanned(adj, t, v, h, h);
    var t' := Grow(t, v, h);
    assert adj[u][..a + 1] == adj[u][..a] + [v];
    forall b | 0 <= b < a + 1 ensures Covered(t', adj[u][b], h) {
      if b < a {
        GrowCovered(t, v, h, adj[u][b], h);
      } else {
        assert FoundAt(t', v, |t.found|);
      }
    }
  }

  lemma ScanOld(adj: Graph, s: nat, t: Tree, h: nat, a: nat)
    requires Scanning(adj, s, t, h, a) && a < |adj[t.found[h]]| && adj[t.found[h]][a] in t.found
    ensures Scanning(adj, s, t, h, a + 1)
  {
    hide TreeOk, Scanned;
    var u := t.found[h];
    var i :| 0 <= i < |t.found| && t.found[i] == adj[u][a];
    assert FoundAt(t, adj[u][a], i);
    assert adj[u][..a + 1] == adj[u][..a] + [adj[u][a]];
  }

  lemma ScanDone(adj: Graph, s: nat, t: Tree, h: nat)
    requires h < |t.found| && t.found[h] < |adj| && Scanning(adj, s, t, h, |adj[t.found[h]]|)
    ensures TreeOk(adj, s, t) && Scanned(adj, t, h + 1) && |t.found| <= |adj|
    ensures |t.from| == |t.found| && forall i :: 0 <= i < |t.found| ==> t.from[i] < h + 1
  {
    forall k, v | 0 <= k < h + 1 && k < |t.found| && Edge(adj, t.found[k], v) ensures Covered(t, v, k) {
      if k == h {
        var b :| 0 <= b < |adj[t.found[h]]| && adj[t.found[h]][b] == v;
      }
    }
    Pigeonhole(t.found, |adj|);
  }

  lemma SearchStart(adj: Graph, s: nat, dist: seq<int>, parent: seq<int>)
    requires s < |adj| == |dist| == |parent|
    requires dist[s] == 0 && parent[s] == -1
    requires forall v :: 0 <= v < |adj| && v != s ==> dist[v] == INF && parent[v] == -1
    ensures TreeOk(adj, s, Tree([s], [-1])) && Scanned(adj, Tree([s], [-1]), 0)
    ensures Recorded(adj, Tree([s], [-1]), dist, parent)
  {
  }

  /** The search from one device. */
  method Search(adj: Graph, s: nat, dist: array<int>, parent: array<int>) returns (ghost t: Tree)
    requires GraphOk(adj) && s < |adj| <= INF
    requires dist.Length == parent.Length == |adj| && dist != parent
    modifies dist, parent
    ensures TreeOk(adj, s, t) && Scanned(adj, t, |t.found|) && Recorded(adj, t, dist[..], parent[..])
  {
    hide TreeOk, Scanned, Scanning, Recorded;
    for v := 0 to |adj|
      invariant forall w :: 0 <= w < v ==> dist[w] == INF && parent[w] == -1
    {
      dist[v] := INF;
      parent[v] := -1;
    }
    dist[s] := 0;
    var q := [s];
    t := Tree([s], [-1]);
    ghost var h := 0;
    SearchStart(adj, s, dist[..], parent[..]);
    while q != []
      invariant |t.from| == |t.found| <= |adj| && h <= |t.found| && q == t.found[h..]
      invariant TreeOk(adj, s, t) && Scanned(adj, t, h) && Recorded(adj, t, dist[..], parent[..])
      invariant forall i :: 0 <= i < |t.found| ==> t.from[i] < h
      decreases |adj| - h
    {
      var u := q[0];
      q := q[1..];
      ScanStart(adj, s, t, h);
      var a := 0;
      while a < |adj[u]|
        invariant a <= |adj[u]| && h < |t.found| && u == t.found[h] && q == t.found[h + 1..]
        invariant Scanning(adj, s, t, h, a) && Recorded(adj, t, dist[..], parent[..])
      {
        var v := adj[u][a];
        ScanLook(adj, s, t, h, a, dist[..], parent[..]);
        if dist[v] == INF {
          ScanNew(adj, s, t, h, a);
          GrowRecorded(adj, t, v, h, dist[..], parent[..]);
          ghost var d, p := dist[..], parent[..];
          dist[v] := dist[u] + 1;
          parent[v] := u;
          assert dist[..] == d[v := d[u] + 1] && parent[..] == p[v := u];
          q := q + [v];
          t := Grow(t, v, h);
        } else {
          ScanOld(adj, s, t, h, a);
        }
        a := a + 1;
      }
      ScanDone(adj, s, t, h);
      h := h + 1;
    }
  }
}
