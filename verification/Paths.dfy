/** Walks in a directed graph, and which of them is the best: the shortest and, among the shortest, the first in the
    order of device ids. */
module Paths {

  /** The graph: `adj[u]` lists the devices that `u` has a link to. */
  type Graph = seq<seq<nat>>

  /** Neighbours are listed in increasing order, each once. */
  ghost predicate GraphOk(adj: Graph) {
    && (forall u, k :: 0 <= u < |adj| && 0 <= k < |adj[u]| ==> adj[u][k] < |adj|)
    && (forall u, k, l :: 0 <= u < |adj| && 0 <= k < l < |adj[u]| ==> adj[u][k] < adj[u][l])
  }

  predicate Edge(adj: Graph, u: nat, v: nat) {
    u < |adj| && v in adj[u]
  }

  ghost predicate Walk(adj: Graph, p: seq<nat>) {
    && p != [] && p[0] < |adj|
    && (forall k :: 0 <= k < |p| - 1 ==> Edge(adj, p[k], p[k + 1]))
  }

  ghost predicate WalkFromTo(adj: Graph, s: nat, t: nat, p: seq<nat>) {
    Walk(adj, p) && p[0] == s && p[|p| - 1] == t
  }

  ghost predicate Reaches(adj: Graph, s: nat, t: nat) {
    exists p :: WalkFromTo(adj, s, t, p)
  }

  /** `p` comes before `q` in the order of a dictionary. */
  ghost predicate LexBefore(p: seq<nat>, q: seq<nat>) {
    exists k: nat :: DiffersAt(p, q, k)
  }

  ghost predicate DiffersAt(p: seq<nat>, q: seq<nat>, k: nat) {
    k < |p| && k < |q| && p[..k] == q[..k] && p[k] < q[k]
  }

  ghost predicate Better(p: seq<nat>, q: seq<nat>) {
    |p| < |q| || (|p| == |q| && (p == q || LexBefore(p, q)))
  }

  /** `r` is the lexicographically least of the shortest walks from `s` to `t`. */
  ghost predicate Best(adj: Graph, s: nat, t: nat, r: seq<nat>) {
    WalkFromTo(adj, s, t, r) && forall p :: WalkFromTo(adj, s, t, p) ==> Better(r, p)
  }

  // ---------------------------------------------------------------------------------------------------------------
  // The order of a dictionary
  // ---------------------------------------------------------------------------------------------------------------

  lemma LexSnoc(p: seq<nat>, q: seq<nat>, a: nat, b: nat)
    requires |p| == |q| && (LexBefore(p, q) || (p == q && a < b))
    ensures LexBefore(p + [a], q + [b])
  {
    if LexBefore(p, q) {
      var k: nat :| DiffersAt(p, q, k);
      assert (p + [a])[..k] == p[..k] && (q + [b])[..k] == q[..k];
      assert DiffersAt(p + [a], q + [b], k);
    } else {
      assert (p + [a])[..|p|] == p && (q + [b])[..|p|] == q;
      assert DiffersAt(p + [a], q + [b], |p|);
    }
  }

  lemma LexTransitive(p: seq<nat>, q: seq<nat>, r: seq<nat>)
    requires LexBefore(p, q) && LexBefore(q, r)
    ensures LexBefore(p, r)
  {
    var k: nat :| DiffersAt(p, q, k);
    var l: nat :| DiffersAt(q, r, l);
    var m := if k < l then k else l;
    assert p[..m] == p[..k][..m] == q[..k][..m] == q[..m] == q[..l][..m] == r[..l][..m] == r[..m];
    assert k < l ==> q[k] == q[..l][k] == r[..l][k] == r[k];
    assert l < k ==> p[l] == p[..k][l] == q[..k][l] == q[l];
    assert DiffersAt(p, r, m);
  }

  lemma LexAppend(p: seq<nat>, q: seq<nat>, tail: seq<nat>)
    requires LexBefore(p, q)
    ensures LexBefore(p + tail, q + tail)
  {
    var k: nat :| DiffersAt(p, q, k);
    assert (p + tail)[..k] == p[..k] && (q + tail)[..k] == q[..k];
    assert DiffersAt(p + tail, q + tail, k);
  }

  // ---------------------------------------------------------------------------------------------------------------
  // Best walks
  // ---------------------------------------------------------------------------------------------------------------

  /** There is at most one best walk. */
  lemma BestUnique(adj: Graph, s: nat, t: nat, p: seq<nat>, q: seq<nat>)
    requires Best(adj, s, t, p) && Best(adj, s, t, q)
    ensures p == q
  {
  }

  lemma BestBeats(adj: Graph, s: nat, t: nat, r: seq<nat>, p: seq<nat>)
    requires Best(adj, s, t, r) && WalkFromTo(adj, s, t, p)
    ensures Better(r, p)
  {
  }

  lemma WalkConcat(adj: Graph, s: nat, m: nat, t: nat, p: seq<nat>, q: seq<nat>)
    requires WalkFromTo(adj, s, m, p) && WalkFromTo(adj, m, t, q)
    ensures WalkFromTo(adj, s, t, p + q[1..])
  {
  }

  lemma WalkSplit(adj: Graph, s: nat, t: nat, r: seq<nat>, k: nat)
    requires WalkFromTo(adj, s, t, r) && k < |r|
    ensures WalkFromTo(adj, s, r[k], r[..k + 1])
    ensures r[k] < |adj| ==> WalkFromTo(adj, r[k], t, r[k..])
  {
  }

  /** Every initial part of a best walk is the best walk to where it ends: the routes from one device form a tree. */
  lemma BestPrefix(adj: Graph, s: nat, t: nat, r: seq<nat>, k: nat)
    requires GraphOk(adj) && Best(adj, s, t, r) && k < |r|
    ensures Best(adj, s, r[k], r[..k + 1])
  {
    WalkInside(adj, r, k);
    WalkSplit(adj, s, t, r, k);
    var head, tail := r[..k + 1], r[k..];
    assert r == head + tail[1..];
    forall p | WalkFromTo(adj, s, r[k], p) ensures Better(head, p) {
      WalkConcat(adj, s, r[k], t, p, tail);
      BestBeats(adj, s, t, r, p + tail[1..]);
      if |p| == |head| && p != head {
        BetterPrefix(head, p, tail[1..]);
      }
    }
  }

  lemma BetterPrefix(p: seq<nat>, q: seq<nat>, tail: seq<nat>)
    requires |p| == |q| && p != q && Better(p + tail, q + tail)
    ensures LexBefore(p, q)
  {
    assert p == (p + tail)[..|p|] && q == (q + tail)[..|q|];
    var d: nat :| DiffersAt(p + tail, q + tail, d);
    PrefixDiffers(p, q, tail, d);
  }

  lemma PrefixDiffers(p: seq<nat>, q: seq<nat>, tail: seq<nat>, d: nat)
    requires |p| == |q| && DiffersAt(p + tail, q + tail, d)
    ensures LexBefore(p, q)
  {
    assert forall i :: |p| <= i < |p + tail| ==> (p + tail)[i] == (q + tail)[i];
    assert d < |p|;
    assert (p + tail)[..d] == p[..d] && (q + tail)[..d] == q[..d];
    assert DiffersAt(p, q, d);
  }

  lemma {:induction false} WalkInside(adj: Graph, r: seq<nat>, k: nat)
    requires GraphOk(adj) && Walk(adj, r) && k < |r|
    ensures r[k] < |adj|
  {
    if k > 0 {
      assert Edge(adj, r[k - 1], r[k - 1 + 1]);
      var i :| 0 <= i < |adj[r[k - 1]]| && adj[r[k - 1]][i] == r[k];
    }
  }

  /** Every final part of a best walk is the best walk from where it starts. */
  lemma BestSuffix(adj: Graph, s: nat, t: nat, r: seq<nat>, k: nat)
    requires GraphOk(adj) && Best(adj, s, t, r) && k < |r|
    ensures Best(adj, r[k], t, r[k..])
  {
    WalkInside(adj, r, k);
    WalkSplit(adj, s, t, r, k);
    var head, tail := r[..k + 1], r[k..];
    assert r == head + tail[1..];
    forall p | WalkFromTo(adj, r[k], t, p) ensures Better(tail, p) {
      WalkConcat(adj, s, r[k], t, head, p);
      BestBeats(adj, s, t, r, head + p[1..]);
      if |p| == |tail| && p != tail {
        SameStart(r[..k], r[k], tail, p);
        assert r == r[..k] + tail && head == r[..k] + [r[k]];
        BetterSuffix(r[..k], tail, p);
      }
    }
  }

  lemma SameStart(a: seq<nat>, x: nat, p: seq<nat>, q: seq<nat>)
    requires p != [] && q != [] && p[0] == x == q[0]
    ensures (a + [x]) + p[1..] == a + p && (a + [x]) + q[1..] == a + q
  {
    assert p == [x] + p[1..] && q == [x] + q[1..];
  }

  lemma BetterSuffix(a: seq<nat>, p: seq<nat>, q: seq<nat>)
    requires |p| == |q| && p != q && Better(a + p, a + q)
    ensures LexBefore(p, q)
  {
    assert p == (a + p)[|a|..] && q == (a + q)[|a|..];
    var d: nat :| DiffersAt(a + p, a + q, d);
    SuffixDiffers(a, p, q, d);
  }

  lemma SuffixDiffers(head: seq<nat>, p: seq<nat>, q: seq<nat>, d: nat)
    requires |p| == |q| && DiffersAt(head + p, head + q, d)
    ensures LexBefore(p, q)
  {
    assert forall i :: 0 <= i < |head| ==> (head + p)[i] == (head + q)[i];
    assert |head| <= d;
    var k := d - |head|;
    assert (head + p)[..d] == head + p[..k] && (head + q)[..d] == head + q[..k];
    assert p[..k] == (head + p[..k])[|head|..] == (head + q[..k])[|head|..] == q[..k];
    assert DiffersAt(p, q, k);
  }

  /** A best walk visits no device twice. */
  lemma BestNoRepeat(adj: Graph, s: nat, t: nat, r: seq<nat>, i: nat, j: nat)
    requires GraphOk(adj) && Best(adj, s, t, r) && i < j < |r|
    ensures r[i] != r[j]
  {
    WalkInside(adj, r, j);
    WalkSplit(adj, s, t, r, i);
    WalkSplit(adj, s, t, r, j);
    if r[i] == r[j] {
      WalkConcat(adj, s, r[i], t, r[..i + 1], r[j..]);
    }
  }

  /** Between neighbours the best walk is the link itself. */
  lemma BestOfNeighbours(adj: Graph, u: nat, v: nat, r: seq<nat>)
    requires Edge(adj, u, v) && u != v && Best(adj, u, v, r)
    ensures r == [u, v]
  {
    assert WalkFromTo(adj, u, v, [u, v]);
    assert Better(r, [u, v]);
  }
}
