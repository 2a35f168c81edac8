/** The topology manager (reconfigurable/network/TopologyManager.cpp) over its devices. Its ghost field `net` is the state
    of the protocol of `Drain`; every method carries out one step of it. */
module TopologyManagers {
  import opened Links
  import opened Drain
  import opened Reconfigurable
  import RouteTable
  import Routing

  // ---------------------------------------------------------------------------------------------------------------
  // The devices and their links (reconfigurable/topology/Topology.cpp)
  // ---------------------------------------------------------------------------------------------------------------

  /** After the connecting loops have come to `i` and `j`, devices `a` and `b` are connected. */
  predicate Joined(i: nat, j: nat, a: nat, b: nat) {
    a != b && var lo, hi := if a < b then a else b, if a < b then b else a; lo < i || (lo == i && hi < j)
  }

  /** Only new links: idle, without bandwidth, nobody held up. */
  ghost predicate Pristine(d: Device)
    reads d
  {
    && d.topologyIteration == 0 && d.routes == map[] && d.links.Keys == d.pendingChunks.Keys
    && forall b :: b in d.links ==> d.links[b] == Link(false, 0.0, 0.0) && d.pendingChunks[b] == []
  }

  ghost predicate Apart(devices: seq<Device>) {
    forall i, j :: 0 <= i < j < |devices| ==> devices[i] != devices[j]
  }

  method InstantiateDevices(n: nat) returns (devices: seq<Device>)
    ensures |devices| == n && Apart(devices) && fresh(devices)
    ensures forall a :: 0 <= a < n ==> devices[a].id == a && Pristine(devices[a]) && devices[a].links == map[]
  {
    devices := [];
    for i := 0 to n
      invariant |devices| == i && Apart(devices) && fresh(devices)
      invariant forall a :: 0 <= a < i ==> devices[a].id == a && Pristine(devices[a]) && devices[a].links == map[]
    {
      var d := new Device(i);
      devices := devices + [d];
    }
  }

  ghost predicate LinkedTo(d: Device, a: nat, i: nat, j: nat, n: nat)
    reads d
  {
    d.id == a && Pristine(d) && forall b: nat :: b in d.links <==> b < n && Joined(i, j, a, b)
  }

  method ConnectBoth(devices: seq<Device>, i: nat, j: nat, ghost n: nat)
    requires i < j < |devices| == n && Apart(devices)
    requires LinkedTo(devices[i], i, i, j, n) && LinkedTo(devices[j], j, i, j, n)
    modifies devices[i], devices[j]
    ensures LinkedTo(devices[i], i, i, j + 1, n) && LinkedTo(devices[j], j, i, j + 1, n)
  {
    devices[i].Connect(j, 0.0, 0.0);
    devices[j].Connect(i, 0.0, 0.0);
  }

  lemma OthersLinked(devices: seq<Device>, i: nat, j: nat, n: nat)
    requires |devices| == n && i < j
    ensures forall a: nat :: a < n && a != i && a != j && LinkedTo(devices[a], a, i, j, n) ==>
                               LinkedTo(devices[a], a, i, j + 1, n)
  {
  }

  lemma RowLinked(devices: seq<Device>, i: nat, n: nat)
    requires |devices| == n && i < n
    ensures forall a :: 0 <= a < n && LinkedTo(devices[a], a, i, i, n) ==> LinkedTo(devices[a], a, i, i + 1, n)
    ensures forall a :: 0 <= a < n && LinkedTo(devices[a], a, i, n, n) ==> LinkedTo(devices[a], a, i + 1, i + 1, n)
  {
  }

  method ConnectOthers(devices: seq<Device>, n: nat)
    requires |devices| == n && Apart(devices)
    requires forall a :: 0 <= a < n ==> LinkedTo(devices[a], a, 0, 0, n)
    modifies devices
    ensures forall a :: 0 <= a < n ==> LinkedTo(devices[a], a, n, n, n)
  {
    hide LinkedTo;
    for i := 0 to n
      invariant forall a :: 0 <= a < n ==> LinkedTo(devices[a], a, i, i, n)
    {
      RowLinked(devices, i, n);
      for j := i + 1 to n
        invariant forall a :: 0 <= a < n ==> LinkedTo(devices[a], a, i, j, n)
      {
        OthersLinked(devices, i, j, n);
        ConnectBoth(devices, i, j, n);
        forall a | 0 <= a < n ensures LinkedTo(devices[a], a, i, j + 1, n) {
          if a != i && a != j {
            assert devices[a] != devices[i] && devices[a] != devices[j];
          }
        }
      }
      RowLinked(devices, i, n);
    }
  }

  method ConnectSelf(d: Device, a: nat, ghost n: nat)
    requires LinkedTo(d, a, n, n, n) && a < n
    modifies d
    ensures d.Valid(n) && Pristine(d)
  {
    d.Connect(a, 0.0, 0.0);
  }

  method ConnectSelves(devices: seq<Device>, n: nat)
    requires |devices| == n && Apart(devices)
    requires forall a :: 0 <= a < n ==> devices[a].id == a && LinkedTo(devices[a], a, n, n, n)
    modifies devices
    ensures forall a :: 0 <= a < n ==> devices[a].Valid(n) && Pristine(devices[a])
  {
    hide LinkedTo, Pristine;
    for i := 0 to n
      invariant forall a :: 0 <= a < i ==> devices[a].Valid(n) && Pristine(devices[a])
      invariant forall a :: i <= a < n ==> LinkedTo(devices[a], a, n, n, n)
    {
      ConnectSelf(devices[i], i, n);
    }
  }

  /** Every ordered pair of devices gets one link, and every device a link to itself. */
  method BuildTopology(n: nat) returns (devices: seq<Device>)
    ensures |devices| == n && Apart(devices) && fresh(devices)
    ensures forall a :: 0 <= a < n ==> devices[a].id == a && devices[a].Valid(n) && Pristine(devices[a])
  {
    devices := InstantiateDevices(n);
    ConnectOthers(devices, n);
    ConnectSelves(devices, n);
  }

  // ---------------------------------------------------------------------------------------------------------------
  // The manager
  // ---------------------------------------------------------------------------------------------------------------

  /** The part of a route table that the devices rely on. */
  ghost predicate RowsOk(n: nat, table: seq<seq<seq<nat>>>) {
    && |table| == n
    && forall s :: 0 <= s < n ==> |table[s]| == n && forall t :: 0 <= t < n && t != s ==> RouteOk(n, s, table[s][t])
  }

  lemma TableRowsOk(bandwidths: Matrix, table: seq<seq<seq<nat>>>)
    requires RouteTable.Square(bandwidths) && RouteTable.TableOk(RouteTable.GraphOf(bandwidths), table)
    ensures RowsOk(|bandwidths|, table)
  {
    var n := |bandwidths|;
    forall s, t | 0 <= s < n && 0 <= t < n && t != s ensures RouteOk(n, s, table[s][t]) {
      RouteTable.FirstHopUsable(bandwidths, table, s, t);
      assert RouteTable.EntryOk(RouteTable.GraphOf(bandwidths), s, t, table[s][t]);
    }
  }

  /** Device `d` is as the protocol's state says. */
  ghost predicate Agrees(net: Net, d: Device)
    reads d
  {
    && Shape(net) && d.Valid(net.n)
    && d.topologyIteration == net.iteration[d.id]
    && forall j: nat :: j < net.n && j != d.id ==> LinkId(d.id, j) in net.lines && d.LineTo(j) == net.lines[LinkId(d.id, j)]
  }

  /** Device `d` has been through the swap that starts from `net`. */
  ghost predicate Moved(net: Net, table: seq<seq<seq<nat>>>, d: Device)
    reads d
  {
    && Shape(net) && d.Valid(net.n) && RowsOk(net.n, table)
    && d.topologyIteration == net.iteration[d.id] + 1
    && forall j: nat :: j < net.n && j != d.id ==>
         && LinkId(d.id, j) in net.lines
         && d.LineTo(j) == Retuned(net.lines[LinkId(d.id, j)], net.bandwidths[d.id][j], net.latencies[d.id][j])
         && j in d.routes && d.routes[j] == table[d.id][j]
  }

  /** The devices follow the routes of the table. */
  ghost predicate Installed(devices: seq<Device>, table: seq<seq<seq<nat>>>)
    reads devices
  {
    forall a, j :: 0 <= a < |devices| && 0 <= j < |devices| && j != a ==> RouteInstalled(devices[a], table, a, j)
  }

  ghost predicate RouteInstalled(d: Device, table: seq<seq<seq<nat>>>, a: nat, j: nat)
    reads d
  {
    a < |table| && j < |table[a]| && j in d.routes && d.routes[j] == table[a][j]
  }

  lemma MovedAgrees(net: Net, table: seq<seq<seq<nat>>>, d: Device)
    requires Moved(net, table, d)
    ensures Agrees(Swap(net), d)
  {
  }

  function Zeros(n: nat): (m: Matrix)
    ensures MatrixOk(n, m) && NonNegative(m)
  {
    seq(n, _ => seq(n, _ => 0.0))
  }

  class TopologyManager {
    const n: nat
    const npusCount: nat
    const devices: seq<Device>
    const events: LinkEvents
    var bandwidths: Matrix
    var latencies: Matrix
    var precomputedRoutes: seq<seq<seq<nat>>>
    var reconfiguring: bool
    var topologyIteration: int
    var curTopoId: int
    var inflightColl: int
    var numDrainedLinks: int
    ghost var net: Net

    ghost predicate Wired()
      reads this
    {
      npusCount <= n == |devices| && Apart(devices) && forall a :: 0 <= a < n ==> devices[a].id == a
    }

    /** The manager's own fields are as the protocol's state says. */
    ghost predicate Mirrors()
      reads this
    {
      && Shape(net) && net.n == n && net.reconfiguring == reconfiguring && net.topologyIteration == topologyIteration
      && net.drained == numDrainedLinks && net.curTopoId == curTopoId && net.inflight == inflightColl
      && net.bandwidths == bandwidths && net.latencies == latencies
      && NonNegative(bandwidths) && NonNegative(latencies)
      && topologyIteration >= (if reconfiguring then 1 else 0)
      && (topologyIteration >= 1 ==> RowsOk(n, precomputedRoutes) && RouteTable.AllRouted(bandwidths, precomputedRoutes))
    }

    ghost predicate Valid()
      reads this, events, devices
    {
      && Wired() && Mirrors() && net.events == events.waiting
      && (forall a :: 0 <= a < n ==> Agrees(net, devices[a]))
      && (!reconfiguring && topologyIteration >= 1 ==> Installed(devices, precomputedRoutes) && FiguresSet(net))
    }

    constructor (npusCount: nat, devicesCount: nat)
      requires 0 < npusCount <= devicesCount
      ensures Valid() && n == devicesCount
      ensures net == Init(n, Zeros(n), Zeros(n))
      ensures curTopoId == -1 && !reconfiguring && topologyIteration == 0 && inflightColl == 0
      ensures fresh(events) && fresh(devices)
    {
      var topology := BuildTopology(devicesCount);
      var queue := new LinkEvents();
      this.n := devicesCount;
      this.npusCount := npusCount;
      devices := topology;
      events := queue;
      bandwidths := Zeros(devicesCount);
      latencies := Zeros(devicesCount);
      precomputedRoutes := [];
      reconfiguring := false;
      topologyIteration := 0;
      curTopoId := -1;
      inflightColl := 0;
      numDrainedLinks := 0;
      net := Init(devicesCount, Zeros(devicesCount), Zeros(devicesCount));
      PairsCount(devicesCount);
    }

    method MoveDevice(i: nat)
      requires Wired() && i < n && Shape(net) && net.n == n && RowsOk(n, precomputedRoutes)
      requires bandwidths == net.bandwidths && latencies == net.latencies && NonNegative(bandwidths) && NonNegative(latencies)
      requires MaySwap(net) && Agrees(net, devices[i])
      modifies events, devices[i]
      ensures Moved(net, precomputedRoutes, devices[i])
      ensures events.waiting == old(events.waiting) + Row(i, n)
    {
      var d := devices[i];
      forall j: nat | j < n && j != i && d.links[j].busy
        ensures bandwidths[i][j] == d.links[j].bandwidth && latencies[i][j] == d.links[j].latency
      {
        assert d.LineTo(j) == net.lines[LinkId(i, j)];
      }
      d.Reconfigure(bandwidths[i], precomputedRoutes[i], latencies[i], events, n);
    }

    method MoveAll()
      requires Wired() && Shape(net) && net.n == n && RowsOk(n, precomputedRoutes)
      requires bandwidths == net.bandwidths && latencies == net.latencies && NonNegative(bandwidths) && NonNegative(latencies)
      requires MaySwap(net) && forall a :: 0 <= a < n ==> Agrees(net, devices[a])
      modifies events, devices
      ensures forall a :: 0 <= a < n ==> Moved(net, precomputedRoutes, devices[a])
      ensures events.waiting == old(events.waiting) + multiset(Pairs(n))
    {
      hide Agrees, Moved, MaySwap, RouteTable.AllRouted, RowsOk, NonNegative, Shape, Visited, Row;
      VisitedNone(n);
      for i := 0 to n
        invariant forall a :: 0 <= a < i ==> Moved(net, precomputedRoutes, devices[a])
        invariant forall a :: i <= a < n ==> Agrees(net, devices[a])
        invariant events.waiting == old(events.waiting) + multiset(Visited(n, i, 0))
      {
        MoveDevice(i);
        VisitedNext(n, i);
      }
    }

    /** The part of `increment_callback` after the last link has been counted: every device is reconfigured. */
    method SwapAll()
      requires Valid() && MaySwap(net) && topologyIteration >= 1
      modifies this, events, devices
      ensures Valid() && net == Swap(old(net)) && Installed(devices, precomputedRoutes) && FiguresSet(net)
      ensures !reconfiguring && numDrainedLinks == 0
      ensures precomputedRoutes == old(precomputedRoutes)
    {
      hide Agrees, Moved, MaySwap, RouteTable.AllRouted, RowsOk, NonNegative;
      numDrainedLinks := 0;
      reconfiguring := false;
      MoveAll();
      ghost var was := net;
      net := Swap(was);
      SwapSets(was);
      forall a | 0 <= a < n ensures Agrees(net, devices[a]) {
        MovedAgrees(was, precomputedRoutes, devices[a]);
      }
      forall a, j | 0 <= a < n && 0 <= j < n && j != a ensures RouteInstalled(devices[a], precomputedRoutes, a, j) {
        MovedRoute(was, precomputedRoutes, devices[a], j);
      }
    }

    /** One more link has been found idle: with the last one the network is swapped, otherwise it is only counted. Outside
        a drain the count is reset. */
    method IncrementCallback()
      requires Valid()
      requires reconfiguring && numDrainedLinks + 1 >= n * (n - 1) ==> MaySwap(net)
      modifies this, events, devices
      ensures Valid() && net == Increment(old(net))
      ensures precomputedRoutes == old(precomputedRoutes)
      ensures if old(reconfiguring) && old(numDrainedLinks) + 1 < n * (n - 1)
              then reconfiguring && numDrainedLinks == old(numDrainedLinks) + 1
              else !reconfiguring && numDrainedLinks == 0
    {
      hide Swap, MaySwap, FiguresSet, RouteTable.AllRouted;
      if !reconfiguring {
        numDrainedLinks := 0;
        net := net.(drained := 0);
        StillAgrees(old(net), net);
        FiguresSame(old(net), net);
        return;
      }
      if numDrainedLinks + 1 < n * (n - 1) {
        numDrainedLinks := numDrainedLinks + 1;
        net := net.(drained := numDrainedLinks);
        StillAgrees(old(net), net);
        return;
      }
      SwapAll();
    }

    /** Where the counting stands when the loops are at `i` and `j`: `u` is the state when it began. Either it goes on, or
        the network has been swapped and there is no link left to look at. */
    ghost predicate Counting(u: Net, i: nat, j: nat)
      reads this
    {
      Shape(u) && u.n == n &&
      if reconfiguring then
        && net == u.(drained := Sum(AsIdle(u), Visited(n, i, j)))
        && (net.drained == 0 || net.drained < n * (n - 1))
      else
        && net == Swap(u) && IdleCount(u) == |Pairs(n)| > 0
        && forall l :: IsPair(n, l) ==> Passed(n, i, j, l)
    }

    /** One turn of the loop below. */
    method CountLink(ghost u: Net, i: nat, j: nat)
      requires Valid() && Counting(u, i, j) && Shape(u) && u.n == n && u.reconfiguring && i < n && j < n
      modifies this, events, devices
      ensures Valid() && Counting(u, i, j + 1) && precomputedRoutes == old(precomputedRoutes)
    {
      hide AllIdle, MaySwap, FiguresSet, RouteTable.AllRouted, RowsOk, NonNegative, IdleCount, Swap, Visited, Shape;
      CountNext(u, i, j);
      SwapForgets(u, net.drained);
      NotPassed(n, i, j);
      if i != j {
        AgreesOn(net, devices[i], j);
        if !devices[i].links[j].busy {
          if net.drained + 1 >= n * (n - 1) {
            CountIdle(u, i, j);
            IdleMaySwap(u, net);
          }
          IncrementCallback();
        }
      }
    }

    /** Every idle link is counted; if the count comes to the number of links, that is at the last of them. */
    method DrainNetwork()
      requires Valid() && reconfiguring
      modifies this, events, devices
      ensures Valid() && net == Drain.DrainNetwork(old(net))
      ensures precomputedRoutes == old(precomputedRoutes)
    {
      hide Agrees, AllIdle, MaySwap, FiguresSet, RouteTable.AllRouted, Installed, RouteInstalled, RowsOk, NonNegative, IdleCount,
        Swap, Visited;
      ghost var u := net;
      numDrainedLinks := 0;
      net := net.(drained := 0);
      StillAgrees(u, net);
      CountNone(u);
      for i := 0 to n
        invariant Valid() && Counting(u, i, 0) && precomputedRoutes == old(precomputedRoutes)
      {
        for j := 0 to n
          invariant Valid() && Counting(u, i, j) && precomputedRoutes == old(precomputedRoutes)
        {
          CountLink(u, i, j);
        }
        VisitedWrap(n, i);
      }
      CountAll(u);
    }

    /** A request to change the topology. It is turned down while the network is being drained or a collective is in
        flight, and nothing needs doing if the topology is the current one. Otherwise the new routes are computed and the
        network is drained. */
    method Reconfigure(newBandwidths: Matrix, newLatencies: Matrix, topoId: int) returns (accepted: bool)
      requires Valid() && n <= Routing.INF
      requires MatrixOk(n, newBandwidths) && MatrixOk(n, newLatencies)
      requires NonNegative(newBandwidths) && NonNegative(newLatencies)
      modifies this, events, devices
      ensures Valid() && net == Request(old(net), topoId, newBandwidths, newLatencies)
      ensures accepted <==> topoId == old(curTopoId) || !(old(reconfiguring) || old(inflightColl) > 0)
      ensures topoId == old(curTopoId) || old(reconfiguring) || old(inflightColl) > 0 ==>
                unchanged(this) && unchanged(events) && unchanged(devices)
      ensures topoId != old(curTopoId) && !old(reconfiguring) && old(inflightColl) <= 0 ==>
                && curTopoId == topoId && topologyIteration == old(topologyIteration) + 1
                && bandwidths == newBandwidths && latencies == newLatencies
                && RouteTable.AllRouted(newBandwidths, precomputedRoutes)
    {
      hide Agrees, AllIdle, IdleCount, Swap, Drain.DrainNetwork, RouteTable.TableOk, RouteTable.GraphOf, RouteTable.AllRouted,
        RowsOk, FiguresSet;
      if topoId == curTopoId {
        return true;
      }
      if reconfiguring || inflightColl > 0 {
        return false;
      }
      bandwidths := newBandwidths;
      latencies := newLatencies;
      precomputedRoutes := RouteTable.PrecomputeRoutes(bandwidths);
      TableRowsOk(bandwidths, precomputedRoutes);
      reconfiguring := true;
      curTopoId := topoId;
      topologyIteration := topologyIteration + 1;
      net := Announced(net, topoId, bandwidths, latencies);
      StillAgrees(old(net), net);
      DrainKeepsFigures(net);
      DrainNetwork();
      return true;
    }

    /** Only the link from device `i` to device `j` has changed, and the protocol's state with it. */
    lemma OneChanged(was: Net, now: Net, i: nat, j: nat)
      requires Wired() && i < n && j < n && i != j && OnlyLine(was, now, LinkId(i, j)) && was.n == n
      requires forall a :: 0 <= a < n && a != i ==> Agrees(was, devices[a])
      requires AgreesBut(was, devices[i], j) && devices[i].LineTo(j) == now.lines[LinkId(i, j)]
      ensures forall a :: 0 <= a < n ==> Agrees(now, devices[a])
    {
      forall a | 0 <= a < n && a != i ensures Agrees(now, devices[a]) {
        assert Agrees(was, devices[a]);
      }
    }

    /** Devices keep their routes when something happens to the links of one of them. */
    twostate lemma StillInstalled(i: nat)
      requires Wired() && i < n && devices[i].routes == old(devices[i].routes)
      requires forall a :: 0 <= a < n && a != i ==> unchanged(devices[a])
      ensures old(Installed(devices, precomputedRoutes)) ==> Installed(devices, old(precomputedRoutes))
    {
      if old(Installed(devices, precomputedRoutes)) {
        forall a, j | 0 <= a < n && 0 <= j < n && j != a ensures RouteInstalled(devices[a], old(precomputedRoutes), a, j) {
          assert old(RouteInstalled(devices[a], precomputedRoutes, a, j));
        }
      }
    }

    /** The protocol's state catches up with what has happened to the link from device `i` to device `j`. */
    ghost method CatchUp(now: Net, i: nat, j: nat)
      requires Wired() && Mirrors() && i < n && j < n && i != j && OnlyLine(net, now, LinkId(i, j))
      requires forall a :: 0 <= a < n && a != i ==> Agrees(net, devices[a])
      requires AgreesBut(net, devices[i], j) && devices[i].LineTo(j) == now.lines[LinkId(i, j)]
      requires events.waiting == now.events
      requires !reconfiguring && topologyIteration >= 1 ==> Installed(devices, precomputedRoutes) && FiguresSet(now)
      modifies this`net
      ensures Valid() && net == now
    {
      hide Agrees, AgreesBut, NonNegative, RowsOk, Installed, FiguresSet, RouteTable.AllRouted;
      OneChanged(net, now, i, j);
      net := now;
    }

    method FreeLink(i: nat, j: nat) returns (counted: bool)
      requires Valid() && LinkId(i, j) in net.lines
      modifies this`net, events, devices
      ensures Valid() && counted == Blocked(old(net), LinkId(i, j))
      ensures net == if counted then SetFree(old(net), LinkId(i, j)) else BecomeFree(old(net), LinkId(i, j))
    {
      hide Agrees, AgreesBut, NonNegative, RowsOk, SetFree, BecomeFree, Blocked, Installed, RouteInstalled, Shape, OnlyLine,
        FiguresSet, RouteTable.AllRouted;
      ghost var l := LinkId(i, j);
      InLines(net, l);
      ghost var now := if Blocked(net, l) then SetFree(net, l) else BecomeFree(net, l);
      FreedNet(net, l);
      events.waiting := events.waiting - multiset{LinkId(i, j)};
      counted := FreeOn(devices[i], j, events, net);
      StillInstalled(i);
      StillSet(net, now, l);
      CatchUp(now, i, j);
    }

    /** The event of the link from device `i` to device `j` happens. If that ends a drain, every other link has to be as
        `Link::reconfigure` asserts; in the states that `Inv` describes it is. */
    method LinkBecomeFree(i: nat, j: nat)
      requires Valid() && LinkId(i, j) in events.waiting && LinkId(i, j) in net.lines
      requires SwapsNow(net, LinkId(i, j)) ==> MaySwap(SetFree(net, LinkId(i, j)))
      modifies this, events, devices
      ensures Valid() && net == BecomeFree(old(net), LinkId(i, j))
    {
      hide Agrees, MaySwap, FiguresSet, RouteTable.AllRouted, IdleCount, Swap, RowsOk, NonNegative, Increment, SetFree;
      var counted := FreeLink(i, j);
      if counted {
        FreedShape(old(net), LinkId(i, j));
        IncrementCallback();
      }
    }

    /** A chunk whose tag is -1 gets the manager's tag, and a route that names only its two ends; its device then sends it,
        towards the second device of the route it knows for the second device of the chunk's route. */
    method Send(chunk: Chunk)
      requires Valid()
      requires |chunk.route| >= 2 && chunk.route[0] < n && chunk.route[1] in devices[chunk.route[0]].routes
      requires chunk.topologyIteration == -1 ==> chunk.route[0] < npusCount && chunk.route[1] < npusCount
      modifies this`net, events, devices
      ensures Valid()
      ensures var s, t := chunk.route[0], chunk.route[1];
              && t in devices[s].routes && |devices[s].routes[t]| >= 2
              && var l := LinkId(s, devices[s].routes[t][1]);
                 && l in old(net).lines
                 && net == Drain.Send(old(net), l, if chunk.topologyIteration == -1 then topologyIteration
                                                   else chunk.topologyIteration)
      ensures var d, t := devices[chunk.route[0]], chunk.route[1];
              var tag := if chunk.topologyIteration == -1 then topologyIteration else chunk.topologyIteration;
              && d.routes == old(devices[chunk.route[0]].routes)
              && (events.arrivals == old(events.arrivals) + [Chunk(d.routes[t], tag)]
                  || (events.arrivals == old(events.arrivals)
                      && d.pendingChunks[d.routes[t][1]]
                         == old(devices[chunk.route[0]].pendingChunks[devices[chunk.route[0]].routes[chunk.route[1]][1]])
                            + [Chunk(d.routes[t], tag)]))
    {
      hide Agrees, AgreesBut, NonNegative, RowsOk, Drain.Send, Shape, Installed, RouteInstalled, OnlyLine, FiguresSet,
        RouteTable.AllRouted;
      var c := chunk;
      var s, t := c.route[0], c.route[1];
      if c.topologyIteration == -1 {
        c := Chunk([s, t], topologyIteration);
      }
      ghost var l := LinkId(s, SendLine(net, devices[s], c));
      ghost var now := Drain.Send(net, l, c.topologyIteration);
      SentNet(net, l, c.topologyIteration);
      SendOn(devices[s], c, events, net);
      StillInstalled(s);
      StillSet(net, now, l);
      CatchUp(now, s, l.dest);
    }

    /** Between drains, a device's route to a device that can be reached runs over links that have bandwidth, and is the best
        such route; where there is none, the link on the stub has no bandwidth either. */
    lemma RoutesHaveBandwidth(i: nat, j: nat)
      requires Valid() && !reconfiguring && topologyIteration >= 1 && i < n && j < n && i != j
      ensures j in devices[i].routes
      ensures var r := devices[i].routes[j];
              if exists p :: RouteTable.Sequence(bandwidths, i, j, p)
              then |r| >= 2 && r[0] == i && r[|r| - 1] == j && forall k :: 0 <= k < |r| - 1 ==> LinkPowered(r[k], r[k + 1])
              else r == [i, j] && !LinkPowered(i, j)
    {
      assert RouteInstalled(devices[i], precomputedRoutes, i, j);
      var r := devices[i].routes[j];
      assert RouteTable.Routed(bandwidths, i, j, r);
      if exists p :: RouteTable.Sequence(bandwidths, i, j, p) {
        forall k | 0 <= k < |r| - 1 ensures LinkPowered(r[k], r[k + 1]) {
          assert RouteTable.PoweredStep(bandwidths, r, k);
          RouteTable.NoStutter(bandwidths, i, j, r, k);
          HasFigures(r[k], r[k + 1]);
        }
      } else {
        HasFigures(i, j);
        if bandwidths[i][j] > 0.0 {
          assert RouteTable.PoweredStep(bandwidths, [i, j], 0);
          assert RouteTable.Sequence(bandwidths, i, j, [i, j]);
        }
      }
    }

    ghost predicate LinkPowered(a: nat, b: nat)
      reads this, devices
    {
      a < |devices| && b in devices[a].links && devices[a].links[b].bandwidth > 0.0
    }

    lemma HasFigures(a: nat, b: nat)
      requires Valid() && !reconfiguring && topologyIteration >= 1 && a < n && b < n && a != b
      ensures b in devices[a].links && devices[a].links[b].bandwidth == bandwidths[a][b]
    {
      assert Agrees(net, devices[a]);
      assert devices[a].LineTo(b) == net.lines[LinkId(a, b)];
    }

    lemma StillAgrees(was: Net, now: Net)
      requires was.n == now.n && was.lines == now.lines && was.iteration == now.iteration && Shape(now)
      requires forall a :: 0 <= a < |devices| ==> Agrees(was, devices[a])
      ensures forall a :: 0 <= a < |devices| ==> Agrees(now, devices[a])
    {
    }
  }

  /** Device `d` is as the protocol's state says, but for its link to device `j`. */
  ghost predicate AgreesBut(net: Net, d: Device, j: nat)
    reads d
  {
    && Shape(net) && d.Valid(net.n)
    && d.topologyIteration == net.iteration[d.id]
    && forall m: nat :: m < net.n && m != d.id && m != j ==>
         LinkId(d.id, m) in net.lines && d.LineTo(m) == net.lines[LinkId(d.id, m)]
  }

  /** A step that concerns one link only. */
  ghost predicate OnlyLine(was: Net, now: Net, l: LinkId) {
    && Shape(was) && Shape(now) && now == was.(lines := now.lines, events := now.events)
    && l in was.lines && l in now.lines
    && forall m :: m in was.lines && m != l ==> m in now.lines && now.lines[m] == was.lines[m]
  }

  /** Every link has the figures that were asked for last. */
  ghost predicate FiguresSet(net: Net)
    requires Shape(net)
  {
    forall l :: l in net.lines ==>
      net.lines[l].bandwidth == net.bandwidths[l.src][l.dest] && net.lines[l].latency == net.latencies[l.src][l.dest]
  }

  lemma StillSet(was: Net, now: Net, l: LinkId)
    requires OnlyLine(was, now, l)
    requires now.lines[l].bandwidth == was.lines[l].bandwidth && now.lines[l].latency == was.lines[l].latency
    ensures FiguresSet(was) ==> FiguresSet(now)
  {
  }

  lemma FiguresSame(was: Net, now: Net)
    requires Shape(was) && Shape(now) && was.lines == now.lines
    requires was.bandwidths == now.bandwidths && was.latencies == now.latencies
    ensures FiguresSet(was) <==> FiguresSet(now)
  {
  }

  lemma DrainKeepsFigures(s: Net)
    requires Shape(s)
    ensures var t := Drain.DrainNetwork(s);
            && t.curTopoId == s.curTopoId && t.topologyIteration == s.topologyIteration
            && t.bandwidths == s.bandwidths && t.latencies == s.latencies
  {
  }

  lemma SwapSets(s: Net)
    requires Shape(s)
    ensures Shape(Swap(s)) && FiguresSet(Swap(s))
  {
  }

  lemma InLines(net: Net, l: LinkId)
    requires Shape(net) && l in net.lines
    ensures l.src < net.n && l.dest < net.n && l.src != l.dest
  {
  }

  lemma FreedNet(was: Net, l: LinkId)
    requires Shape(was) && l in was.lines
    ensures var now, k := if Blocked(was, l) then SetFree(was, l) else BecomeFree(was, l), was.lines[l];
            && OnlyLine(was, now, l)
            && now.lines[l] == (if Blocked(was, l) then k.(busy := false) else k.(busy := true, pending := k.pending[1..]))
            && now.events == (was.events - multiset{l}) + if Blocked(was, l) then multiset{} else multiset{l}
  {
  }

  method FreeOn(d: Device, j: nat, events: LinkEvents, ghost net: Net) returns (counted: bool)
    requires Agrees(net, d) && j < net.n && j != d.id && LinkId(d.id, j) in net.lines
    modifies d`links, d`pendingChunks, events
    ensures AgreesBut(net, d, j) && counted == Blocked(net, LinkId(d.id, j))
    ensures j in d.links && j in d.pendingChunks
    ensures var k := net.lines[LinkId(d.id, j)];
            d.LineTo(j) == if counted then k.(busy := false) else k.(busy := true, pending := k.pending[1..])
    ensures events.waiting == old(events.waiting) + if counted then multiset{} else multiset{LinkId(d.id, j)}
  {
    assert d.LineTo(j) == net.lines[LinkId(d.id, j)];
    counted := d.LinkBecomeFree(j, events, net.n);
  }

  lemma FreedShape(s: Net, l: LinkId)
    requires Shape(s) && l in s.lines && Blocked(s, l)
    ensures var t := SetFree(s, l);
            && Shape(t) && BecomeFree(s, l) == Increment(t) && t.n == s.n && t.reconfiguring == s.reconfiguring
            && t.drained == s.drained
  {
    hide Swap;
  }

  /** The link a device sends a chunk over. */
  ghost function SendLine(net: Net, d: Device, c: Chunk): (j: nat)
    requires Agrees(net, d) && |c.route| >= 2 && c.route[1] in d.routes
    reads d
    ensures |d.routes[c.route[1]]| >= 2 && j == d.routes[c.route[1]][1]
    ensures j < net.n && j != d.id && LinkId(d.id, j) in net.lines && Shape(net)
  {
    assert RouteOk(net.n, d.id, d.routes[c.route[1]]);
    var j := d.routes[c.route[1]][1];
    assert IsPair(net.n, LinkId(d.id, j));
    j
  }

  lemma SentNet(was: Net, l: LinkId, tag: int)
    requires Shape(was) && l in was.lines
    ensures var now, k, starts := Drain.Send(was, l, tag), was.lines[l], StartsNow(was, l, tag);
            && OnlyLine(was, now, l)
            && now.lines[l] == (if starts then k.(busy := true) else k.(pending := k.pending + [tag]))
            && now.events == was.events + if starts then multiset{l} else multiset{}
  {
  }

  method SendOn(d: Device, c: Chunk, events: LinkEvents, ghost net: Net)
    requires Agrees(net, d) && |c.route| >= 2 && c.route[0] == d.id && c.route[1] in d.routes
    modifies d`links, d`pendingChunks, events
    ensures var j := d.routes[c.route[1]][1];
            && AgreesBut(net, d, j) && j in d.links && j in d.pendingChunks && LinkId(d.id, j) in net.lines
            && var k, starts := net.lines[LinkId(d.id, j)], StartsNow(net, LinkId(d.id, j), c.topologyIteration);
               && d.LineTo(j) == (if starts then k.(busy := true) else k.(pending := k.pending + [c.topologyIteration]))
               && events.waiting == old(events.waiting) + (if starts then multiset{LinkId(d.id, j)} else multiset{})
               && var rerouted := Chunk(d.routes[c.route[1]], c.topologyIteration);
                  if starts then events.arrivals == old(events.arrivals) + [rerouted]
                  else events.arrivals == old(events.arrivals)
                       && j in old(d.pendingChunks) && d.pendingChunks[j] == old(d.pendingChunks)[j] + [rerouted]
  {
    ghost var j := SendLine(net, d, c);
    assert d.LineTo(j) == net.lines[LinkId(d.id, j)];
    d.Send(c, events, net.n);
  }

  lemma AgreesOn(net: Net, d: Device, j: nat)
    requires Agrees(net, d) && j < net.n && j != d.id
    ensures j in d.links && LinkId(d.id, j) in net.lines && d.links[j].busy == net.lines[LinkId(d.id, j)].busy
  {
    assert d.LineTo(j) == net.lines[LinkId(d.id, j)];
  }

  lemma VisitedWrap(n: nat, i: nat)
    ensures Visited(n, i + 1, 0) == Visited(n, i, n)
    ensures forall l :: Passed(n, i, n, l) ==> Passed(n, i + 1, 0, l)
  {
  }

  lemma CountAll(u: Net)
    ensures IdleCount(u) == Sum(AsIdle(u), Visited(u.n, u.n, 0)) <= |Pairs(u.n)| == u.n * (u.n - 1)
    ensures u.n <= 1 ==> Pairs(u.n) == []
  {
    PairsCount(u.n);
    SumBound(AsIdle(u), Pairs(u.n));
    if u.n <= 1 {
      assert |Pairs(u.n)| == 0;
    }
  }

  lemma CountNone(u: Net)
    ensures Sum(AsIdle(u), Visited(u.n, 0, 0)) == 0
  {
  }

  /** Going on by one pair adds one if that link is idle. */
  lemma CountNext(u: Net, i: nat, j: nat)
    requires Shape(u) && i < u.n && j < u.n
    ensures i != j ==> LinkId(i, j) in u.lines
    ensures Sum(AsIdle(u), Visited(u.n, i, j + 1))
         == Sum(AsIdle(u), Visited(u.n, i, j)) + if i != j && !u.lines[LinkId(i, j)].busy then 1 else 0
  {
    var l := LinkId(i, j);
    if i != j {
      assert Visited(u.n, i, j + 1) == Visited(u.n, i, j) + [l];
      SumSnoc(AsIdle(u), Visited(u.n, i, j), l);
      assert IsPair(u.n, l);
    } else {
      assert Visited(u.n, i, j + 1) == Visited(u.n, i, j);
    }
  }

  lemma SumSnoc(w: LinkId -> nat, ls: seq<LinkId>, l: LinkId)
    ensures Sum(w, ls + [l]) == Sum(w, ls) + w(l)
  {
    assert (ls + [l])[..|ls|] == ls;
  }

  lemma SwapForgets(u: Net, k: int)
    requires Shape(u)
    ensures Swap(u.(drained := k)) == Swap(u) && !Swap(u).reconfiguring
  {
  }

  /** The link the loops are at has not been passed yet. */
  lemma NotPassed(n: nat, i: nat, j: nat)
    ensures i < n && j < n && i != j ==> IsPair(n, LinkId(i, j)) && !Passed(n, i, j, LinkId(i, j))
    ensures forall l :: Passed(n, i, j, l) ==> Passed(n, i, j + 1, l)
  {
  }

  lemma IdleMaySwap(u: Net, v: Net)
    requires AllIdle(u) && u.lines == v.lines && Shape(v)
    ensures MaySwap(v)
  {
  }

  lemma LastRow(m: nat, i: nat, r: nat)
    requires m >= 1 && i <= m && r <= m && i * m + r >= (m + 1) * m
    ensures i == m && r == m
  {
  }

  /** The count can only be complete at the last pair. */
  lemma FullVisit(n: nat, i: nat, j: nat)
    requires i < n && j < n && n >= 2
    requires |Visited(n, i, j + 1)| >= n * (n - 1)
    ensures i == n - 1 && j + 1 >= n - 1
    ensures forall l :: IsPair(n, l) ==> Passed(n, i, j + 1, l)
  {
    hide Visited;
    VisitedLength(n, i, j + 1);
    LastRow(n - 1, i, if j + 1 <= i then j + 1 else j);
  }

  lemma CountFull(u: Net, i: nat, j: nat)
    requires Shape(u) && i < u.n && j < u.n && i != j && LinkId(i, j) in u.lines && !u.lines[LinkId(i, j)].busy
    requires Sum(AsIdle(u), Visited(u.n, i, j)) + 1 >= u.n * (u.n - 1)
    ensures |Visited(u.n, i, j + 1)| >= u.n * (u.n - 1)
    ensures forall l :: l in Visited(u.n, i, j + 1) ==> AsIdle(u)(l) == 1
  {
    hide Visited;
    CountNext(u, i, j);
    SumBound(AsIdle(u), Visited(u.n, i, j + 1));
    VisitLength(u.n, i, j + 1);
  }

  lemma CountIdle(u: Net, i: nat, j: nat)
    requires Shape(u) && i < u.n && j < u.n && i != j && LinkId(i, j) in u.lines && !u.lines[LinkId(i, j)].busy
    requires Sum(AsIdle(u), Visited(u.n, i, j)) + 1 >= u.n * (u.n - 1)
    ensures AllIdle(u) && IdleCount(u) == |Pairs(u.n)| > 0
    ensures forall l :: IsPair(u.n, l) ==> Passed(u.n, i, j + 1, l)
  {
    hide Visited, Pairs, IdleCount, Sum, AsIdle, AllIdle;
    CountFull(u, i, j);
    FullVisit(u.n, i, j);
    AllVisitedIdle(u, i, j + 1);
    IdleComplete(u);
    PairsCount(u.n);
    assert LinkId(i, j) in Pairs(u.n);
  }

  lemma VisitLength(n: nat, i: nat, j: nat)
    requires i < n && j <= n
    ensures |Visited(n, i, j)| <= n * (n - 1)
  {
    VisitedLength(n, i, j);
    MulMonotone(i, n - 1, n - 1);
    MulNext(n);
  }

  lemma MulMonotone(a: nat, b: nat, c: nat)
    requires a <= b
    ensures a * c <= b * c
  {
  }

  lemma MulNext(n: nat)
    requires n >= 1
    ensures (n - 1) * (n - 1) + (n - 1) == n * (n - 1)
  {
  }

  lemma AllVisitedIdle(u: Net, i: nat, j: nat)
    requires Shape(u) && i < u.n && j <= u.n
    requires forall l :: l in Visited(u.n, i, j) ==> AsIdle(u)(l) == 1
    requires forall l :: IsPair(u.n, l) ==> Passed(u.n, i, j, l)
    ensures AllIdle(u)
  {
    VisitedMembers(u.n, i, j);
    forall l | l in u.lines ensures !u.lines[l].busy {
      assert Passed(u.n, i, j, l);
      assert AsIdle(u)(l) == 1;
    }
  }

  lemma VisitedNone(n: nat)
    ensures Visited(n, 0, 0) == []
  {
  }

  lemma VisitedNext(n: nat, i: nat)
    ensures multiset(Visited(n, i + 1, 0)) == multiset(Visited(n, i, 0)) + Row(i, n)
  {
    VisitedRow(n, i, n);
  }

  lemma MovedRoute(net: Net, table: seq<seq<seq<nat>>>, d: Device, j: nat)
    requires Moved(net, table, d) && j < net.n && j != d.id
    ensures d.id < |table| && j < |table[d.id]| && j in d.routes && d.routes[j] == table[d.id][j]
  {
  }

  /** A new manager accepts a request for any topology, as topologies are numbered from 0. */
  method FirstRequest(npusCount: nat, devicesCount: nat, bandwidths: Matrix, latencies: Matrix, topoId: int)
    returns (manager: TopologyManager, accepted: bool)
    requires 0 < npusCount <= devicesCount <= Routing.INF && topoId >= 0
    requires MatrixOk(devicesCount, bandwidths) && MatrixOk(devicesCount, latencies)
    requires NonNegative(bandwidths) && NonNegative(latencies)
    ensures manager.Valid() && accepted && manager.curTopoId == topoId && manager.topologyIteration == 1
    ensures RouteTable.AllRouted(bandwidths, manager.precomputedRoutes)
  {
    hide Agrees, RouteTable.AllRouted, RowsOk, FiguresSet, Request, Installed;
    manager := new TopologyManager(npusCount, devicesCount);
    accepted := manager.Reconfigure(bandwidths, latencies, topoId);
  }
}
