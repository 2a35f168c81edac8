/** Names of links, and the ordered pairs of devices in the order in which loops over them go through them. */
module Links {

  datatype LinkId = LinkId(src: nat, dest: nat)

  /** A value for every ordered pair of devices. */
  type Matrix = seq<seq<real>>

  ghost predicate NoRepeat(s: seq<LinkId>) {
    forall i, j :: 0 <= i < j < |s| ==> s[i] != s[j]
  }

  /** The pairs passed when the outer loop is at device `i` and the inner one at device `j`. */
  function Visited(n: nat, i: nat, j: nat): seq<LinkId>
    decreases i, j
  {
    if j > 0 then Visited(n, i, j - 1) + (if i != j - 1 then [LinkId(i, j - 1)] else [])
    else if i > 0 then Visited(n, i - 1, n)
    else []
  }

  function Pairs(n: nat): seq<LinkId> {
    Visited(n, n, 0)
  }

  predicate IsPair(n: nat, l: LinkId) {
    l.src < n && l.dest < n && l.src != l.dest
  }

  predicate Passed(n: nat, i: nat, j: nat, l: LinkId) {
    IsPair(n, l) && (l.src < i || (l.src == i && l.dest < j))
  }

  lemma {:induction false} VisitedMembers(n: nat, i: nat, j: nat)
    requires (i < n && j <= n) || (i == n && j == 0)
    ensures forall l :: l in Visited(n, i, j) <==> Passed(n, i, j, l)
    decreases i, j
  {
    if j > 0 {
      VisitedMembers(n, i, j - 1);
    } else if i > 0 {
      VisitedMembers(n, i - 1, n);
    }
  }

  lemma {:induction false} VisitedNoRepeat(n: nat, i: nat, j: nat)
    requires (i < n && j <= n) || (i == n && j == 0)
    ensures NoRepeat(Visited(n, i, j))
    decreases i, j
  {
    if j > 0 {
      VisitedNoRepeat(n, i, j - 1);
      VisitedMembers(n, i, j - 1);
      var s := Visited(n, i, j - 1);
      assert forall k :: 0 <= k < |s| ==> s[k] in s;
    } else if i > 0 {
      VisitedNoRepeat(n, i - 1, n);
    }
  }

  lemma {:induction false} VisitedLength(n: nat, i: nat, j: nat)
    requires (i < n && j <= n) || (i == n && j == 0)
    ensures |Visited(n, i, j)| == i * (n - 1) + if j <= i then j else j - 1
    decreases i, j
  {
    if j > 0 {
      VisitedLength(n, i, j - 1);
    } else if i > 0 {
      VisitedLength(n, i - 1, n);
      assert i * (n - 1) == (i - 1) * (n - 1) + (n - 1);
    }
  }

  /** Each pair is passed once: there are n(n-1) of them. */
  lemma PairsCount(n: nat)
    ensures forall l :: l in Pairs(n) <==> IsPair(n, l)
    ensures NoRepeat(Pairs(n)) && |Pairs(n)| == n * (n - 1)
  {
    VisitedMembers(n, n, 0);
    VisitedNoRepeat(n, n, 0);
    VisitedLength(n, n, 0);
  }
}
