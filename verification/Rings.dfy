/** The ring topology of both backends: the links the congestion-aware one makes, the route it takes, and the hop count
    the congestion-unaware one computes (congestion_aware/basic-topology/Ring.cpp,
    congestion_unaware/basic-topology/Ring.cpp). */
module Rings {
  import opened Links
  import opened Network
  import opened Delays
  import opened Devices

  // ---------------------------------------------------------------------------------------------------------------
  // Distances
  // ---------------------------------------------------------------------------------------------------------------

  /** Steps from `a` to `b` going clockwise. */
  function Clockwise(n: nat, a: nat, b: nat): nat
    requires a < n && b < n
  {
    if b < a then b + n - a else b - a
  }

  /** `compute_hops_count`. */
  function HopsCount(n: nat, bidirectional: bool, src: nat, dest: nat): nat
    requires src < n && dest < n
  {
    var clockwise := Clockwise(n, src, dest);
    var anticlockwise := n - clockwise;
    if !bidirectional then clockwise
    else if clockwise < anticlockwise then clockwise else anticlockwise
  }

  /** One step along the ring, with the wrap-around. */
  function Turn(n: nat, a: nat, step: int): nat
    requires a < n && (step == 1 || step == -1)
  {
    var c := a + step;
    if c < 0 then c + n else if c >= n then c - n else c
  }

  predicate RingLink(n: nat, bidirectional: bool, l: LinkId) {
    l.src < n && l.dest < n && (l.dest == Turn(n, l.src, 1) || (bidirectional && l.dest == Turn(n, l.src, -1)))
  }

  // ---------------------------------------------------------------------------------------------------------------
  // The links
  // ---------------------------------------------------------------------------------------------------------------

  /** The connections that the constructor makes, in order. */
  function Connections(n: nat, bidirectional: bool, i: nat): seq<LinkId>
    requires i <= n
  {
    if i == 0 then []
    else
      var next := if i == n then 0 else i;
      Connections(n, bidirectional, i - 1) + [LinkId(i - 1, next)] + if bidirectional then [LinkId(next, i - 1)] else []
  }

  predicate MadeBy(n: nat, bidirectional: bool, i: nat, l: LinkId) {
    && l.src < n && l.dest < n
    && ((l.src < i && l.dest == Turn(n, l.src, 1)) || (bidirectional && l.dest < i && l.src == Turn(n, l.dest, 1)))
  }

  lemma {:induction false} ConnectionsMembers(n: nat, bidirectional: bool, i: nat)
    requires 1 <= n && i <= n
    ensures forall l :: l in Connections(n, bidirectional, i) <==> MadeBy(n, bidirectional, i, l)
  {
    if i > 0 {
      ConnectionsMembers(n, bidirectional, i - 1);
    }
  }

  lemma NoRepeatSnoc(s: seq<LinkId>, l: LinkId)
    requires NoRepeat(s) && l !in s
    ensures NoRepeat(s + [l])
  {
  }

  lemma {:induction false} ConnectionsDistinct(n: nat, bidirectional: bool, i: nat)
    requires 1 <= n && i <= n && (!bidirectional || n >= 3)
    ensures NoRepeat(Connections(n, bidirectional, i))
  {
    if i > 0 {
      ConnectionsDistinct(n, bidirectional, i - 1);
      ConnectionsMembers(n, bidirectional, i - 1);
      var next := if i == n then 0 else i;
      var s := Connections(n, bidirectional, i - 1);
      NoRepeatSnoc(s, LinkId(i - 1, next));
      if bidirectional {
        NoRepeatSnoc(s + [LinkId(i - 1, next)], LinkId(next, i - 1));
      }
    }
  }

  /** A ring can be built, that is, no connection is made twice, exactly if it is unidirectional or has at least three
      NPUs. */
  lemma BuildableIff(n: nat, bidirectional: bool)
    requires n >= 1
    ensures NoRepeat(Connections(n, bidirectional, n)) <==> !bidirectional || n >= 3
  {
    if !bidirectional || n >= 3 {
      ConnectionsDistinct(n, bidirectional, n);
    } else if n == 1 {
      assert Connections(1, true, 1) == [LinkId(0, 0), LinkId(0, 0)];
      assert Connections(1, true, 1)[0] == Connections(1, true, 1)[1];
    } else {
      assert Connections(2, true, 1) == [LinkId(0, 1), LinkId(1, 0)];
      assert Connections(2, true, 2) == [LinkId(0, 1), LinkId(1, 0), LinkId(1, 0), LinkId(0, 1)];
      assert Connections(2, true, 2)[0] == Connections(2, true, 2)[3];
    }
  }

  // ---------------------------------------------------------------------------------------------------------------
  // Shortest walks
  // ---------------------------------------------------------------------------------------------------------------

  ghost predicate RingWalk(n: nat, bidirectional: bool, p: seq<nat>) {
    && p != [] && p[0] < n
    && forall k :: 0 <= k < |p| - 1 ==> RingLink(n, bidirectional, LinkId(p[k], p[k + 1]))
  }

  /** No walk along links is shorter than the hop count. */
  lemma {:induction false} NoShorterWalk(n: nat, bidirectional: bool, p: seq<nat>)
    requires RingWalk(n, bidirectional, p)
    ensures p[|p| - 1] < n && HopsCount(n, bidirectional, p[0], p[|p| - 1]) <= |p| - 1
  {
    if |p| > 1 {
      assert RingLink(n, bidirectional, LinkId(p[0], p[0 + 1]));
      forall k | 0 <= k < |p[1..]| - 1 ensures RingLink(n, bidirectional, LinkId(p[1..][k], p[1..][k + 1])) {
        assert RingLink(n, bidirectional, LinkId(p[k + 1], p[k + 1 + 1]));
      }
      NoShorterWalk(n, bidirectional, p[1..]);
    }
  }

  // ---------------------------------------------------------------------------------------------------------------
  // The ring
  // ---------------------------------------------------------------------------------------------------------------

  /** `k` steps from `a`. */
  function At(n: nat, a: nat, step: int, k: nat): nat
    requires a < n && (step == 1 || step == -1)
    ensures At(n, a, step, k) < n
  {
    if k == 0 then a else Turn(n, At(n, a, step, k - 1), step)
  }

  /** Steps from `a` to `b` in the given direction. */
  function Ahead(n: nat, a: nat, step: int, b: nat): nat
    requires a < n && b < n && (step == 1 || step == -1)
  {
    if step == 1 then Clockwise(n, a, b) else Clockwise(n, b, a)
  }

  /** Less than one round, and one is as far away as one has gone. */
  lemma {:induction false} AtDistance(n: nat, a: nat, step: int, k: nat)
    requires a < n && (step == 1 || step == -1) && k < n
    ensures Ahead(n, a, step, At(n, a, step, k)) == k
  {
    if k > 0 {
      AtDistance(n, a, step, k - 1);
    }
  }

  /** The same in plain arithmetic. */
  lemma {:induction false} AtIs(n: nat, a: nat, step: int, k: nat)
    requires a < n && (step == 1 || step == -1) && k < n
    ensures At(n, a, step, k) == if step == 1 then (a + k) % n else (a + n - k) % n
  {
    if k == 0 {
      Wrapped(a, n);
      Wrapped(a + n, n);
    } else {
      AtIs(n, a, step, k - 1);
      Wrapped(a + k - 1, n);
      Wrapped(a + k, n);
      Wrapped(a + n - k, n);
      Wrapped(a + n - (k - 1), n);
    }
  }

  lemma Wrapped(x: nat, n: nat)
    requires 0 < n && x < 2 * n
    ensures x % n == if x < n then x else x - n
  {
    if x >= n {
      assert x == (x - n) + n;
    }
  }

  /** One is clockwise of the other by so many steps. */
  lemma ClockwiseIs(n: nat, a: nat, b: nat)
    requires a < n && b < n
    ensures Clockwise(n, a, b) == (b + n - a) % n
  {
    Wrapped(b + n - a, n);
  }

  /** The links of a ring in plain arithmetic. */
  predicate Adjacent(n: nat, bidirectional: bool, l: LinkId) {
    l.src < n && l.dest < n && (l.dest == (l.src + 1) % n || (bidirectional && l.src == (l.dest + 1) % n))
  }

  lemma NeighboursIs(n: nat, bidirectional: bool, l: LinkId)
    requires n > 0
    ensures RingLink(n, bidirectional, l) <==> Adjacent(n, bidirectional, l)
  {
    if l.src < n && l.dest < n {
      Wrapped(l.src + 1, n);
      Wrapped(l.dest + 1, n);
    }
  }

  /** Every device on the route is the next one clockwise, or every one the next one anticlockwise if that way round is
      shorter and there are links. */
  ghost predicate GoesRound(n: nat, bidirectional: bool, src: nat, dest: nat, route: seq<nat>)
    requires src < n && dest < n
  {
    forall k :: 0 <= k < |route| && k < n ==>
      route[k] == if !bidirectional || 2 * ((dest + n - src) % n) <= n then (src + k) % n else (src + n - k) % n
  }

  lemma RouteGoes(n: nat, bidirectional: bool, src: nat, dest: nat, step: int, route: seq<nat>)
    requires src < n && dest < n && |route| <= n && (step == 1 || step == -1) && AlongRing(n, src, step, route)
    requires step == 1 <==> !bidirectional || 2 * Clockwise(n, src, dest) <= n
    ensures GoesRound(n, bidirectional, src, dest, route)
  {
    hide At, Clockwise;
    ClockwiseIs(n, src, dest);
    forall k | 0 <= k < |route| ensures route[k] == if step == 1 then (src + k) % n else (src + n - k) % n {
      AtIs(n, src, step, k);
    }
  }

  ghost predicate AlongRing(n: nat, a: nat, step: int, route: seq<nat>)
    requires a < n && (step == 1 || step == -1)
  {
    forall i :: 0 <= i < |route| ==> route[i] == At(n, a, step, i)
  }

  lemma AtTarget(n: nat, a: nat, step: int, b: nat)
    requires a < n && b < n && (step == 1 || step == -1)
    ensures Ahead(n, a, step, b) < n && At(n, a, step, Ahead(n, a, step, b)) == b && At(n, a, step, 0) == a
    ensures AlongRing(n, a, step, [])
  {
    AtDistance(n, a, step, Ahead(n, a, step, b));
  }

  lemma OneFurther(n: nat, a: nat, step: int, route: seq<nat>, current: nat)
    requires a < n && (step == 1 || step == -1)
    requires AlongRing(n, a, step, route) && current == At(n, a, step, |route|)
    ensures AlongRing(n, a, step, route + [current])
    ensures Turn(n, current, step) == At(n, a, step, |route| + 1)
  {
  }

  lemma AtStart(n: nat, a: nat, step: int, route: seq<nat>)
    requires a < n && (step == 1 || step == -1) && AlongRing(n, a, step, route) && route != []
    ensures route[0] == a
  {
  }

  /** The devices passed on less than one round: no device twice, and every step over a link. */
  lemma Passing(n: nat, bidirectional: bool, a: nat, step: int, route: seq<nat>)
    requires a < n && (step == 1 || (step == -1 && bidirectional)) && |route| <= n
    requires AlongRing(n, a, step, route)
    ensures forall i, j :: 0 <= i < j < |route| ==> route[i] != route[j]
    ensures forall k :: 0 <= k < |route| - 1 ==> RingLink(n, bidirectional, LinkId(route[k], route[k + 1]))
  {
    forall i, j | 0 <= i < j < |route| ensures route[i] != route[j] {
      AtDistance(n, a, step, i);
      AtDistance(n, a, step, j);
    }
  }

  /** The connections made at `i` have not been made before. */
  lemma NextConnection(n: nat, bidirectional: bool, i: nat)
    requires i < n && (!bidirectional || n >= 3)
    ensures var next := if i + 1 == n then 0 else i + 1;
            && !MadeBy(n, bidirectional, i, LinkId(i, next))
            && (bidirectional ==> !MadeBy(n, bidirectional, i, LinkId(next, i)) && i != next)
            && forall l :: MadeBy(n, bidirectional, i + 1, l) <==>
                 MadeBy(n, bidirectional, i, l) || l == LinkId(i, next) || (bidirectional && l == LinkId(next, i))
  {
  }

  /** The ring when the loop has come to `i`. */
  ghost predicate RingMade(devices: seq<Device>, links: map<LinkId, Link>, n: nat, bidirectional: bool, wire: Wire, i: nat)
    reads devices, links.Values
  {
    && |devices| == n && Wiring(devices, links) && wire.Valid() && (!bidirectional || n >= 3)
    && (forall l :: l in links <==> MadeBy(n, bidirectional, i, l))
    && (forall l :: l in links ==> Idle(links[l]) && links[l].wire == wire)
  }

  lemma NoneMade(devices: seq<Device>, n: nat, bidirectional: bool, wire: Wire)
    requires |devices| == n && Wiring(devices, map[]) && wire.Valid() && (!bidirectional || n >= 3)
    ensures RingMade(devices, map[], n, bidirectional, wire, 0)
  {
  }

  lemma AllMade(devices: seq<Device>, links: map<LinkId, Link>, n: nat, bidirectional: bool, wire: Wire)
    requires RingMade(devices, links, n, bidirectional, wire, n) && n > 0
    ensures |devices| == n && Wiring(devices, links)
    ensures forall l :: l in links <==> RingLink(n, bidirectional, l)
    ensures forall l :: l in links <==> Adjacent(n, bidirectional, l)
    ensures forall l :: l in links ==> Idle(links[l]) && links[l].wire == wire
  {
    hide Wiring, Adjacent;
    forall l: LinkId ensures RingLink(n, bidirectional, l) <==> Adjacent(n, bidirectional, l) {
      NeighboursIs(n, bidirectional, l);
    }
  }

  method ConnectNext(devices: seq<Device>, n: nat, bidirectional: bool, wire: Wire, i: nat, next: nat,
                     ghost links: map<LinkId, Link>) returns (ghost more: map<LinkId, Link>)
    requires i < n && next == (if i + 1 == n then 0 else i + 1) && RingMade(devices, links, n, bidirectional, wire, i)
    modifies devices
    ensures RingMade(devices, more, n, bidirectional, wire, i + 1) && fresh(more.Values - links.Values)
  {
    hide Wiring, MadeBy;
    NextConnection(n, bidirectional, i);
    more := Connect(devices, i, next, wire, bidirectional, links);
  }

  class Ring {
    const npusCount: nat
    const bidirectional: bool
    const wire: Wire
    var devices: seq<Device>
    ghost var links: map<LinkId, Link>

    ghost predicate Valid()
      reads this, devices
    {
      && npusCount >= 1 && (!bidirectional || npusCount >= 3) && wire.Valid()
      && |devices| == npusCount && Wiring(devices, links)
      && (forall l :: l in links <==> RingLink(npusCount, bidirectional, l))
      && (forall l :: l in links ==> links[l].wire == wire)
    }

    constructor (npusCount: nat, wire: Wire, bidirectional: bool)
      requires npusCount > 0 && wire.Valid() && (!bidirectional || npusCount >= 3)
      ensures Valid() && this.npusCount == npusCount && this.bidirectional == bidirectional && this.wire == wire
      ensures fresh(devices) && fresh(links.Values) && forall l :: l in links ==> Idle(links[l])
      ensures forall l :: l in links <==> Adjacent(npusCount, bidirectional, l)
    {
      hide RingMade, Wiring, RingLink, Adjacent;
      this.npusCount := npusCount;
      this.bidirectional := bidirectional;
      this.wire := wire;
      new;
      devices := InstantiateDevices(npusCount);
      links := map[];
      NoneMade(devices, npusCount, bidirectional, wire);
      for i := 0 to npusCount - 1
        invariant fresh(devices) && fresh(links.Values) && RingMade(devices, links, npusCount, bidirectional, wire, i)
      {
        links := ConnectNext(devices, npusCount, bidirectional, wire, i, i + 1, links);
      }
      links := ConnectNext(devices, npusCount, bidirectional, wire, npusCount - 1, 0, links);
      AllMade(devices, links, npusCount, bidirectional, wire);
    }

    /** The route goes round the ring the shorter way (clockwise if both are as long or the ring is unidirectional). */
    method Route(src: nat, dest: nat) returns (route: seq<nat>)
      requires Valid() && src < npusCount && dest < npusCount
      ensures route != [] && route[0] == src && route[|route| - 1] == dest
      ensures Connected(FabricOf(links), route)
      ensures |route| - 1 == HopsCount(npusCount, bidirectional, src, dest)
      ensures forall i, j :: 0 <= i < j < |route| ==> route[i] != route[j]
      ensures |route| <= npusCount && GoesRound(npusCount, bidirectional, src, dest, route)
    {
      hide At, AlongRing, GoesRound, RingLink, Wiring;
      var step := 1;
      if bidirectional {
        var clockwiseDist := dest - src;
        if clockwiseDist < 0 {
          clockwiseDist := clockwiseDist + npusCount;
        }
        var anticlockwiseDist := npusCount - clockwiseDist;
        if anticlockwiseDist < clockwiseDist {
          step := -1;
        }
      }
      route := [];
      var current: int := src;
      ghost var total := Ahead(npusCount, src, step, dest);
      AtTarget(npusCount, src, step, dest);
      while current != dest
        invariant |route| <= total && 0 <= current < npusCount && current == At(npusCount, src, step, |route|)
        invariant AlongRing(npusCount, src, step, route)
        decreases total - |route|
      {
        OneFurther(npusCount, src, step, route, current);
        route := route + [current];
        current := current + step;
        if current < 0 {
          current := current + npusCount;
        } else if current >= npusCount {
          current := current - npusCount;
        }
      }
      AtDistance(npusCount, src, step, |route|);
      OneFurther(npusCount, src, step, route, dest);
      route := route + [dest];
      AtStart(npusCount, src, step, route);
      Passing(npusCount, bidirectional, src, step, route);
      RouteGoes(npusCount, bidirectional, src, dest, step, route);
    }
  }
}
