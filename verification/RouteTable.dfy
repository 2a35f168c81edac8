/** The table of routes between all devices (`precomputeRoutes`), and what following it does to a chunk
    (reconfigurable/network/Device.cpp, Chunk.cpp). */
module RouteTable {
  import opened Links
  import opened Paths
  import opened Routing

  predicate Square(bandwidths: Matrix) {
    forall i :: 0 <= i < |bandwidths| ==> |bandwidths[i]| == |bandwidths|
  }

  /** There is a link with bandwidth from `u` to `v`. */
  predicate Usable(bandwidths: Matrix, u: nat, v: nat) {
    u < |bandwidths| && v < |bandwidths[u]| && u != v && bandwidths[u][v] > 0.0
  }

  function Neighbours(bandwidths: Matrix, u: nat, n: nat): seq<nat> {
    if n == 0 then []
    else Neighbours(bandwidths, u, n - 1) + if Usable(bandwidths, u, n - 1) then [n - 1] else []
  }

  function GraphOf(bandwidths: Matrix): (adj: Graph)
    ensures |adj| == |bandwidths|
  {
    seq(|bandwidths|, u requires 0 <= u < |bandwidths| => Neighbours(bandwidths, u, |bandwidths|))
  }

  lemma {:induction false} NeighboursOk(bandwidths: Matrix, u: nat, n: nat)
    ensures forall v: nat :: v in Neighbours(bandwidths, u, n) <==> v < n && Usable(bandwidths, u, v)
    ensures forall k :: 0 <= k < |Neighbours(bandwidths, u, n)| ==> Neighbours(bandwidths, u, n)[k] < n
    ensures forall k, l :: 0 <= k < l < |Neighbours(bandwidths, u, n)| ==>
                             Neighbours(bandwidths, u, n)[k] < Neighbours(bandwidths, u, n)[l]
  {
    if n > 0 {
      NeighboursOk(bandwidths, u, n - 1);
    }
  }

  lemma GraphOfOk(bandwidths: Matrix)
    requires Square(bandwidths)
    ensures GraphOk(GraphOf(bandwidths))
    ensures forall u, v :: Edge(GraphOf(bandwidths), u, v) <==> Usable(bandwidths, u, v)
  {
    forall u, v | 0 <= u < |bandwidths|
      ensures Edge(GraphOf(bandwidths), u, v) <==> Usable(bandwidths, u, v)
    {
      NeighboursOk(bandwidths, u, |bandwidths|);
    }
    forall u, k, l | 0 <= u < |bandwidths| && 0 <= k < l < |GraphOf(bandwidths)[u]|
      ensures GraphOf(bandwidths)[u][k] < GraphOf(bandwidths)[u][l]
    {
      NeighboursOk(bandwidths, u, |bandwidths|);
    }
    forall u, k | 0 <= u < |bandwidths| && 0 <= k < |GraphOf(bandwidths)[u]|
      ensures GraphOf(bandwidths)[u][k] < |bandwidths|
    {
      NeighboursOk(bandwidths, u, |bandwidths|);
    }
  }

  /** The neighbours are listed in increasing order, so that sorting them and dropping duplicates changes nothing. */
  method BuildGraph(bandwidths: Matrix) returns (adj: Graph)
    requires Square(bandwidths)
    ensures adj == GraphOf(bandwidths)
  {
    adj := [];
    for i := 0 to |bandwidths|
      invariant |adj| == i && forall u :: 0 <= u < i ==> adj[u] == GraphOf(bandwidths)[u]
    {
      var row := [];
      for j := 0 to |bandwidths|
        invariant row == Neighbours(bandwidths, i, j)
      {
        if i != j && bandwidths[i][j] > 0.0 {
          row := row + [j];
        }
      }
      adj := adj + [row];
    }
  }

  // ---------------------------------------------------------------------------------------------------------------
  // The table
  // ---------------------------------------------------------------------------------------------------------------

  /** The best route, or the stub [source, destination] if there is none. */
  ghost predicate EntryOk(adj: Graph, s: nat, t: nat, r: seq<nat>) {
    if Reaches(adj, s, t) then Best(adj, s, t, r) else r == [s, t]
  }

  ghost predicate TableOk(adj: Graph, table: seq<seq<seq<nat>>>) {
    && |table| == |adj|
    && forall s :: 0 <= s < |adj| ==> |table[s]| == |adj| && forall t :: 0 <= t < |adj| ==> EntryOk(adj, s, t, table[s][t])
  }

  function Reversed(s: seq<nat>): seq<nat> {
    if s == [] then [] else Reversed(s[1..]) + [s[0]]
  }

  lemma {:induction false} ReversedSnoc(s: seq<nat>, x: nat)
    ensures Reversed(s + [x]) == [x] + Reversed(s)
  {
    if s == [] {
      assert ([] + [x])[1..] == [];
    } else {
      assert (s + [x])[1..] == s[1..] + [x];
      ReversedSnoc(s[1..], x);
    }
  }

  /** Following the parents from `t` to the source and reversing what was passed. */
  method Reconstruct(adj: Graph, t: nat, dist: array<int>, parent: array<int>, ghost tree: Tree, ghost i: nat)
    returns (path: seq<nat>)
    requires Recorded(adj, tree, dist[..], parent[..]) && i < |tree.found| && tree.found[i] == t
    ensures path == PathTo(tree, i)
  {
    path := [];
    var cur: int := t;
    ghost var k: int := i;
    while cur != -1
      invariant -1 <= k <= i && cur == if k == -1 then -1 else tree.found[k]
      invariant PathTo(tree, i) == PathTo(tree, k) + Reversed(path)
      decreases k + 1
    {
      assert RecordedAt(tree, dist[..], parent[..], k);
      ReversedSnoc(path, cur);
      path := path + [cur];
      cur := parent[cur];
      k := tree.from[k];
    }
    path := Reversed(path);
  }

  lemma BestSelf(adj: Graph, s: nat)
    requires s < |adj|
    ensures Best(adj, s, s, [s])
  {
  }

  lemma SelfEntry(adj: Graph, s: nat)
    requires s < |adj|
    ensures EntryOk(adj, s, s, [s])
  {
    BestSelf(adj, s);
    assert WalkFromTo(adj, s, s, [s]);
  }

  /** A parent of -1 away from the source means that there is no way there. */
  lemma StubEntry(adj: Graph, s: nat, t: nat, tree: Tree, dist: seq<int>, parent: seq<int>)
    requires TreeOk(adj, s, tree) && Scanned(adj, tree, |tree.found|) && Recorded(adj, tree, dist, parent)
    requires t < |adj| && t != s
    ensures parent[t] == -1 ==> EntryOk(adj, s, t, [s, t])
    ensures parent[t] != -1 ==> t in tree.found
  {
    if t in tree.found {
      var i :| 0 <= i < |tree.found| && tree.found[i] == t;
      assert RecordedAt(tree, dist, parent, i);
    } else {
      forall p | WalkFromTo(adj, s, t, p) ensures false {
        var i := FoundIsBest(adj, s, tree, p);
      }
    }
  }

  lemma FoundEntry(adj: Graph, s: nat, tree: Tree, i: nat)
    requires TreeOk(adj, s, tree) && Scanned(adj, tree, |tree.found|) && i < |tree.found|
    ensures EntryOk(adj, s, tree.found[i], PathTo(tree, i))
  {
    TreeIsBest(adj, s, tree, i);
  }

  method RoutesFrom(adj: Graph, s: nat, dist: array<int>, parent: array<int>) returns (row: seq<seq<nat>>)
    requires GraphOk(adj) && s < |adj| <= INF && dist.Length == parent.Length == |adj| && dist != parent
    modifies dist, parent
    ensures |row| == |adj| && forall t :: 0 <= t < |adj| ==> EntryOk(adj, s, t, row[t])
  {
    hide EntryOk, TreeOk, Scanned;
    ghost var tree := Search(adj, s, dist, parent);
    row := seq(|adj|, _ => []);
    for t := 0 to |adj|
      invariant |row| == |adj| && forall u :: 0 <= u < t ==> EntryOk(adj, s, u, row[u])
      invariant Recorded(adj, tree, dist[..], parent[..])
    {
      if s == t {
        SelfEntry(adj, s);
        row := row[t := [s]];
      } else {
        StubEntry(adj, s, t, tree, dist[..], parent[..]);
        if parent[t] == -1 {
          row := row[t := [s, t]];
        } else {
          ghost var i :| 0 <= i < |tree.found| && tree.found[i] == t;
          var path := Reconstruct(adj, t, dist, parent, tree, i);
          FoundEntry(adj, s, tree, i);
          row := row[t := path];
        }
      }
    }
  }

  // ---------------------------------------------------------------------------------------------------------------
  // The table in terms of the matrix
  // ---------------------------------------------------------------------------------------------------------------

  /** Devices one after the other, from `s` to `t`, each with bandwidth to the next. */
  ghost predicate Sequence(bandwidths: Matrix, s: nat, t: nat, p: seq<nat>) {
    && p != [] && p[0] == s && p[|p| - 1] == t && Powered(bandwidths, p)
  }

  ghost predicate Powered(bandwidths: Matrix, p: seq<nat>) {
    forall k :: 0 <= k < |p| - 1 ==> PoweredStep(bandwidths, p, k)
  }

  ghost predicate PoweredStep(bandwidths: Matrix, p: seq<nat>, k: nat) {
    && k + 1 < |p| && p[k] < |bandwidths| && p[k + 1] < |bandwidths[p[k]]|
    && bandwidths[p[k]][p[k + 1]] > 0.0
  }

  /** `r` is the shortest sequence from `s` to `t`, and among the shortest the first in dictionary order; or the stub, if
      there is no sequence. */
  ghost predicate Routed(bandwidths: Matrix, s: nat, t: nat, r: seq<nat>) {
    if exists p :: Sequence(bandwidths, s, t, p)
    then Sequence(bandwidths, s, t, r) && forall p :: Sequence(bandwidths, s, t, p) ==> Better(r, p)
    else r == [s, t]
  }

  ghost predicate AllRouted(bandwidths: Matrix, table: seq<seq<seq<nat>>>) {
    && |table| == |bandwidths|
    && forall s :: 0 <= s < |bandwidths| ==>
         |table[s]| == |bandwidths| && forall t :: 0 <= t < |bandwidths| ==> Routed(bandwidths, s, t, table[s][t])
  }

  lemma WalkIsSequence(bandwidths: Matrix, s: nat, t: nat, p: seq<nat>)
    requires Square(bandwidths) && WalkFromTo(GraphOf(bandwidths), s, t, p)
    ensures Sequence(bandwidths, s, t, p)
  {
    GraphOfOk(bandwidths);
    forall k | 0 <= k < |p| - 1 ensures PoweredStep(bandwidths, p, k) {
      assert Edge(GraphOf(bandwidths), p[k], p[k + 1]);
    }
  }

  /** A sequence is a walk, or can be made a shorter one by leaving out the steps from a device to itself. */
  lemma {:induction false} SequenceHasWalk(bandwidths: Matrix, s: nat, t: nat, p: seq<nat>) returns (q: seq<nat>)
    requires Square(bandwidths) && s < |bandwidths| && Sequence(bandwidths, s, t, p)
    ensures WalkFromTo(GraphOf(bandwidths), s, t, q) && (q == p || |q| < |p|)
    decreases |p|
  {
    if k: nat :| k < |p| - 1 && p[k] == p[k + 1] {
      var p' := p[..k] + p[k + 1..];
      Unstuttered(bandwidths, s, t, p, k);
      q := SequenceHasWalk(bandwidths, s, t, p');
    } else {
      q := p;
      GraphOfOk(bandwidths);
      forall k | 0 <= k < |p| - 1 ensures Edge(GraphOf(bandwidths), p[k], p[k + 1]) {
        assert PoweredStep(bandwidths, p, k);
        assert Usable(bandwidths, p[k], p[k + 1]);
      }
    }
  }

  lemma Unstuttered(bandwidths: Matrix, s: nat, t: nat, p: seq<nat>, k: nat)
    requires Sequence(bandwidths, s, t, p) && k < |p| - 1 && p[k] == p[k + 1]
    ensures Sequence(bandwidths, s, t, p[..k] + p[k + 1..])
  {
    var p' := p[..k] + p[k + 1..];
    assert forall i :: 0 <= i < |p'| ==> p'[i] == if i < k then p[i] else p[i + 1];
    forall i | 0 <= i < |p'| - 1 ensures PoweredStep(bandwidths, p', i) {
      if i < k {
        assert PoweredStep(bandwidths, p, i);
      } else {
        assert PoweredStep(bandwidths, p, i + 1);
      }
    }
  }

  lemma NoneShorter(bandwidths: Matrix, s: nat, t: nat, r: seq<nat>, p: seq<nat>)
    requires Routed(bandwidths, s, t, r) && Sequence(bandwidths, s, t, p)
    ensures |r| <= |p|
  {
  }

  /** The best sequence has no step from a device to itself. */
  lemma NoStutter(bandwidths: Matrix, s: nat, t: nat, r: seq<nat>, k: nat)
    requires Routed(bandwidths, s, t, r) && Sequence(bandwidths, s, t, r) && k < |r| - 1
    ensures r[k] != r[k + 1]
  {
    if r[k] == r[k + 1] {
      Unstuttered(bandwidths, s, t, r, k);
      NoneShorter(bandwidths, s, t, r, r[..k] + r[k + 1..]);
    }
  }

  lemma EntryIsRouted(bandwidths: Matrix, s: nat, t: nat, r: seq<nat>)
    requires Square(bandwidths) && s < |bandwidths| && EntryOk(GraphOf(bandwidths), s, t, r)
    ensures Routed(bandwidths, s, t, r)
  {
    hide Sequence;
    forall p | Sequence(bandwidths, s, t, p)
      ensures Reaches(GraphOf(bandwidths), s, t) && Better(r, p)
    {
      var q := SequenceHasWalk(bandwidths, s, t, p);
      assert WalkFromTo(GraphOf(bandwidths), s, t, q);
      assert Better(r, q);
    }
    if p :| WalkFromTo(GraphOf(bandwidths), s, t, p) {
      WalkIsSequence(bandwidths, s, t, r);
    }
  }

  lemma TableIsRouted(bandwidths: Matrix, table: seq<seq<seq<nat>>>)
    requires Square(bandwidths) && TableOk(GraphOf(bandwidths), table)
    ensures AllRouted(bandwidths, table)
  {
    forall s, t | 0 <= s < |bandwidths| && 0 <= t < |bandwidths| ensures Routed(bandwidths, s, t, table[s][t]) {
      EntryIsRouted(bandwidths, s, t, table[s][t]);
    }
  }

  /** For every matrix of bandwidths, the table holds for every pair of devices the lexicographically least of the
      shortest routes over links with bandwidth, and the stub exactly when there is no route. */
  method PrecomputeRoutes(bandwidths: Matrix) returns (table: seq<seq<seq<nat>>>)
    requires Square(bandwidths) && |bandwidths| <= INF
    ensures TableOk(GraphOf(bandwidths), table) && AllRouted(bandwidths, table)
  {
    hide AllRouted;
    var n := |bandwidths|;
    var adj := BuildGraph(bandwidths);
    GraphOfOk(bandwidths);
    table := seq(n, _ => []);
    var dist, parent := new int[n], new int[n];
    for s := 0 to n
      invariant |table| == n
      invariant forall u :: 0 <= u < s ==>
                  |table[u]| == n && forall t :: 0 <= t < n ==> EntryOk(adj, u, t, table[u][t])
    {
      var row := RoutesFrom(adj, s, dist, parent);
      table := table[s := row];
    }
    TableIsRouted(bandwidths, table);
  }

  // ---------------------------------------------------------------------------------------------------------------
  // What the table means for its users
  // ---------------------------------------------------------------------------------------------------------------

  /** There is only one table that will do. */
  lemma TableUnique(adj: Graph, table: seq<seq<seq<nat>>>, table': seq<seq<seq<nat>>>)
    requires TableOk(adj, table) && TableOk(adj, table')
    ensures table == table'
  {
    forall s, t | 0 <= s < |adj| && 0 <= t < |adj| ensures table[s][t] == table'[s][t] {
      if Reaches(adj, s, t) {
        BestUnique(adj, s, t, table[s][t], table'[s][t]);
      }
    }
    forall s | 0 <= s < |adj| ensures table[s] == table'[s] {
    }
  }

  /** The entries of one row form a tree, and those of one column do as well: cutting a route short at either end gives
      the entry for what is left. No route visits a device twice. */
  lemma TableConsistent(adj: Graph, table: seq<seq<seq<nat>>>, s: nat, t: nat, k: nat)
    requires GraphOk(adj) && TableOk(adj, table) && s < |adj| && t < |adj| && Reaches(adj, s, t)
    requires k < |table[s][t]|
    ensures var r := table[s][t];
            && r[k] < |adj|
            && table[s][r[k]] == r[..k + 1]
            && table[r[k]][t] == r[k..]
            && forall i :: 0 <= i < k ==> r[i] != r[k]
  {
    var r := table[s][t];
    assert EntryOk(adj, s, t, r);
    WalkInside(adj, r, k);
    BestPrefix(adj, s, t, r, k);
    BestSuffix(adj, s, t, r, k);
    assert Reaches(adj, s, r[k]) && Reaches(adj, r[k], t);
    assert EntryOk(adj, s, r[k], table[s][r[k]]) && EntryOk(adj, r[k], t, table[r[k]][t]);
    BestUnique(adj, s, r[k], r[..k + 1], table[s][r[k]]);
    BestUnique(adj, r[k], t, r[k..], table[r[k]][t]);
    forall i | 0 <= i < k ensures r[i] != r[k] {
      BestNoRepeat(adj, s, t, r, i, k);
    }
  }

  /** The first hop of a route has bandwidth exactly when the destination can be reached. */
  lemma FirstHopUsable(bandwidths: Matrix, table: seq<seq<seq<nat>>>, s: nat, t: nat)
    requires Square(bandwidths) && TableOk(GraphOf(bandwidths), table)
    requires s < |bandwidths| && t < |bandwidths| && s != t
    ensures |table[s][t]| >= 2 && table[s][t][0] == s
    ensures Usable(bandwidths, s, table[s][t][1]) <==> Reaches(GraphOf(bandwidths), s, t)
  {
    var adj, r := GraphOf(bandwidths), table[s][t];
    GraphOfOk(bandwidths);
    assert EntryOk(adj, s, t, r);
    if Reaches(adj, s, t) {
      assert Edge(adj, r[0], r[0 + 1]);
    } else {
      assert !WalkFromTo(adj, s, t, [s, t]);
      assert !Edge(adj, s, t);
    }
  }

  // ---------------------------------------------------------------------------------------------------------------
  // Following the table
  // ---------------------------------------------------------------------------------------------------------------

  /** What `Device::send` makes of a chunk's route: the entry for the next device on it, which need not be the last. */
  function Rerouted(table: seq<seq<seq<nat>>>, route: seq<nat>): seq<nat>
    requires |route| >= 2 && route[0] < |table| && route[1] < |table[route[0]]|
  {
    table[route[0]][route[1]]
  }

  /** The devices a chunk visits after the first when it is sent with `route`: at every device it is rerouted, moves one
      hop, and is done when nothing of its route is left. `hops` bounds the number of moves. */
  ghost predicate Visits(table: seq<seq<seq<nat>>>, route: seq<nat>, visited: seq<nat>)
    decreases |visited|
  {
    if |route| < 2 then visited == []
    else
      && route[0] < |table| && route[1] < |table[route[0]]|
      && var r := Rerouted(table, route);
         |r| >= 2 && visited != [] && visited[0] == r[1] && Visits(table, r[1..], visited[1..])
  }

  /** Where a chunk sent from `s` with the route [s, t] ends up: the destination if the table's route makes at most two
      hops, and otherwise the second device on it. */
  lemma Journey(adj: Graph, table: seq<seq<seq<nat>>>, s: nat, t: nat)
    requires GraphOk(adj) && TableOk(adj, table) && s < |adj| && t < |adj| && s != t && Reaches(adj, s, t)
    ensures Visits(table, [s, t], if |table[s][t]| == 2 then [t] else [table[s][t][1], table[s][t][2]])
  {
    var r := table[s][t];
    assert EntryOk(adj, s, t, r);
    if |r| >= 3 {
      var x, y := r[1], r[2];
      TableConsistent(adj, table, s, t, 1);
      TableConsistent(adj, table, s, t, 2);
      assert Edge(adj, r[1], r[1 + 1]);
      assert WalkFromTo(adj, x, y, [x, y]);
      assert EntryOk(adj, x, y, table[x][y]);
      BestOfNeighbours(adj, x, y, table[x][y]);
      assert Visits(table, [x, y][1..], []);
      assert r[1..][0] == x && r[1..][1] == y;
      assert [x, y][1..] == [y];
      assert Visits(table, r[1..], [y]);
      assert Visits(table, [s, t], [x, y]);
    } else {
      assert r == [s, t];
      assert r[1..] == [t];
      assert Visits(table, r[1..], []);
    }
  }

  lemma {:induction false} VisitsUnique(table: seq<seq<seq<nat>>>, route: seq<nat>, a: seq<nat>, b: seq<nat>)
    requires Visits(table, route, a) && Visits(table, route, b)
    ensures a == b
    decreases |a|
  {
    if |route| >= 2 {
      VisitsUnique(table, Rerouted(table, route)[1..], a[1..], b[1..]);
      assert a == [a[0]] + a[1..] && b == [b[0]] + b[1..];
    }
  }

  /** A chunk sent to a device that can be reached gets there if and only if the table's route makes at most two hops. */
  lemma DeliveredIff(adj: Graph, table: seq<seq<seq<nat>>>, s: nat, t: nat, visited: seq<nat>)
    requires GraphOk(adj) && TableOk(adj, table) && s < |adj| && t < |adj| && s != t && Reaches(adj, s, t)
    requires Visits(table, [s, t], visited)
    ensures visited != [] && (visited[|visited| - 1] == t <==> |table[s][t]| <= 3)
  {
    var r := table[s][t];
    Journey(adj, table, s, t);
    VisitsUnique(table, [s, t], visited, if |r| == 2 then [t] else [r[1], r[2]]);
    assert EntryOk(adj, s, t, r);
    if |r| > 3 {
      BestNoRepeat(adj, s, t, r, 2, |r| - 1);
    }
  }
}
