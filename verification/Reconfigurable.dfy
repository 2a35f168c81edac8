/** The reconfigurable backend's device and its links (reconfigurable/network/Device.cpp, Link.cpp), step by step, in the
    terms of `Drain`. */
module Reconfigurable {
  import opened Links
  import opened Drain

  /** A chunk on its way through the devices: what is left of its route, and its topology tag. */
  datatype Chunk = Chunk(route: seq<nat>, topologyIteration: int)

  datatype Link = Link(busy: bool, bandwidth: real, latency: real) {
    /** `Link::reconfigure`. */
    function Reconfigured(bandwidth: real, latency: real): Link {
      if bandwidth == this.bandwidth && latency == this.latency then this else Link(true, bandwidth, latency)
    }
  }

  /** The event queue as far as the protocol is concerned: the link-free events that are outstanding, and the chunks whose
      arrival at the next device has ever been scheduled. */
  class LinkEvents {
    var waiting: multiset<LinkId>
    var arrivals: seq<Chunk>

    constructor ()
      ensures waiting == multiset{} && arrivals == []
    {
      waiting := multiset{};
      arrivals := [];
    }
  }

  function Tags(chunks: seq<Chunk>): (r: seq<int>)
    ensures |r| == |chunks| && forall i :: 0 <= i < |r| ==> r[i] == chunks[i].topologyIteration
  {
    seq(|chunks|, i requires 0 <= i < |chunks| => chunks[i].topologyIteration)
  }

  /** The links of device `i` to the devices before `j`. */
  ghost function Row(i: nat, j: nat): multiset<LinkId> {
    if j == 0 then multiset{} else Row(i, j - 1) + if i != j - 1 then multiset{LinkId(i, j - 1)} else multiset{}
  }

  lemma {:induction false} VisitedRow(n: nat, i: nat, j: nat)
    ensures multiset(Visited(n, i, j)) == multiset(Visited(n, i, 0)) + Row(i, j)
  {
    if j > 0 {
      VisitedRow(n, i, j - 1);
    }
  }

  /** A route that a device can follow: it starts there and goes on to another device. */
  predicate RouteOk(n: nat, id: nat, route: seq<nat>) {
    |route| >= 2 && route[0] == id && route[1] < n && route[1] != id
  }

  /** Every chunk that device `id` holds up for its link to `j` is at `id` and goes to `j` next. */
  predicate HeldFor(id: nat, j: nat, chunks: seq<Chunk>) {
    forall i :: 0 <= i < |chunks| ==> |chunks[i].route| >= 2 && chunks[i].route[0] == id && chunks[i].route[1] == j
  }

  /** The links of device `id` when those to the devices before `j` have been reconfigured. */
  ghost function Rewired(links: map<nat, Link>, id: nat, bandwidth: seq<real>, latency: seq<real>, j: nat): map<nat, Link>
    requires j <= |bandwidth| == |latency|
  {
    map m | m in links :: if m < j && m != id then links[m].Reconfigured(bandwidth[m], latency[m]) else links[m]
  }

  lemma RewiredStep(links: map<nat, Link>, id: nat, bandwidth: seq<real>, latency: seq<real>, j: nat)
    requires j < |bandwidth| == |latency| && j in links
    ensures var r := Rewired(links, id, bandwidth, latency, j);
            Rewired(links, id, bandwidth, latency, j + 1)
            == if j == id then r else r[j := r[j].Reconfigured(bandwidth[j], latency[j])]
  {
  }

  lemma RewiredNone(links: map<nat, Link>, id: nat, bandwidth: seq<real>, latency: seq<real>)
    requires |bandwidth| == |latency|
    ensures Rewired(links, id, bandwidth, latency, 0) == links
  {
  }

  lemma RewiredLater(links: map<nat, Link>, id: nat, bandwidth: seq<real>, latency: seq<real>, j: nat)
    requires j < |bandwidth| == |latency| && j in links
    ensures j in Rewired(links, id, bandwidth, latency, j) && Rewired(links, id, bandwidth, latency, j)[j] == links[j]
  {
  }

  lemma RewiredAll(links: map<nat, Link>, id: nat, bandwidth: seq<real>, latency: seq<real>)
    requires |bandwidth| == |latency|
    ensures forall j: nat :: j < |bandwidth| && j != id && j in links ==>
              j in Rewired(links, id, bandwidth, latency, |bandwidth|)
              && Rewired(links, id, bandwidth, latency, |bandwidth|)[j] == links[j].Reconfigured(bandwidth[j], latency[j])
  {
  }

  /** The routes when those to the devices before `j` have been replaced. */
  ghost predicate Redirected(routes: map<nat, seq<nat>>, id: nat, newRoutes: seq<seq<nat>>, j: nat) {
    forall m: nat :: m < j && m < |newRoutes| && m != id ==> m in routes && routes[m] == newRoutes[m]
  }

  class Device {
    const id: nat
    var topologyIteration: int
    var links: map<nat, Link>
    var pendingChunks: map<nat, seq<Chunk>>
    var routes: map<nat, seq<nat>>

    /** The device is connected to every device, itself included. */
    ghost predicate Valid(n: nat)
      reads this
    {
      && id < n
      && (forall j: nat :: j in links <==> j < n)
      && (forall j: nat :: j in pendingChunks <==> j < n)
      && (forall j: nat :: j in routes ==> j < n && j != id && RouteOk(n, id, routes[j]))
      && (forall j: nat :: j in pendingChunks ==> HeldFor(id, j, pendingChunks[j]))
    }

    ghost function LineTo(j: nat): Line
      requires j in links && j in pendingChunks
      reads this
    {
      Line(links[j].busy, links[j].bandwidth, links[j].latency, Tags(pendingChunks[j]))
    }

    constructor (id: nat)
      ensures this.id == id && topologyIteration == 0 && links == map[] && pendingChunks == map[] && routes == map[]
    {
      this.id := id;
      topologyIteration := 0;
      links := map[];
      pendingChunks := map[];
      routes := map[];
    }

    predicate Connected(dest: nat)
      reads this
    {
      dest in links
    }

    method Connect(j: nat, bandwidth: real, latency: real)
      requires bandwidth >= 0.0 && latency >= 0.0 && !Connected(j)
      modifies this
      ensures links == old(links)[j := Link(false, bandwidth, latency)]
      ensures pendingChunks == old(pendingChunks)[j := []]
      ensures topologyIteration == old(topologyIteration) && routes == old(routes)
    {
      links := links[j := Link(false, bandwidth, latency)];
      pendingChunks := pendingChunks[j := []];
    }

    /** The link's event happens. `counted` says that the link is idle now and the drain is told so. */
    method LinkBecomeFree(j: nat, events: LinkEvents, ghost n: nat) returns (counted: bool)
      requires Valid(n) && Connected(j)
      modifies this`links, this`pendingChunks, events
      ensures Valid(n)
      ensures var k := old(LineTo(j));
              && counted == (k.pending == [] || k.pending[0] > topologyIteration)
              && LineTo(j) == (if counted then k.(busy := false) else k.(busy := true, pending := k.pending[1..]))
              && events.waiting == if counted then old(events.waiting) else old(events.waiting) + multiset{LinkId(id, j)}
      ensures pendingChunks == if counted then old(pendingChunks) else old(pendingChunks)[j := old(pendingChunks[j])[1..]]
      ensures events.arrivals == if counted then old(events.arrivals) else old(events.arrivals) + [old(pendingChunks[j])[0]]
      ensures forall m: nat :: m < n && m != j ==> LineTo(m) == old(LineTo(m))
    {
      links := links[j := links[j].(busy := false)];
      if pendingChunks[j] == [] || pendingChunks[j][0].topologyIteration > topologyIteration {
        return true;
      }
      var chunk := pendingChunks[j][0];
      pendingChunks := pendingChunks[j := pendingChunks[j][1..]];
      links := links[j := links[j].(busy := true)];
      events.arrivals := events.arrivals + [chunk];
      events.waiting := events.waiting + multiset{LinkId(id, j)};
      assert LineTo(j).pending == old(LineTo(j)).pending[1..];
      return false;
    }

    /** The chunk is rerouted towards the next device of its route and sent over, or held up for, the first link of that
        route. */
    method Send(chunk: Chunk, events: LinkEvents, ghost n: nat)
      requires Valid(n)
      requires |chunk.route| >= 2 && chunk.route[0] == id && chunk.route[1] in routes
      modifies this`links, this`pendingChunks, events
      ensures Valid(n)
      ensures var j, tag, k := routes[chunk.route[1]][1], chunk.topologyIteration, old(LineTo(routes[chunk.route[1]][1]));
              var starts := !k.busy && k.bandwidth != 0.0 && tag <= topologyIteration;
              && LineTo(j) == (if starts then k.(busy := true) else k.(pending := k.pending + [tag]))
              && events.waiting == if starts then old(events.waiting) + multiset{LinkId(id, j)} else old(events.waiting)
      ensures var j, k := routes[chunk.route[1]][1], old(LineTo(routes[chunk.route[1]][1]));
              var rerouted := Chunk(routes[chunk.route[1]], chunk.topologyIteration);
              if !k.busy && k.bandwidth != 0.0 && chunk.topologyIteration <= topologyIteration
              then pendingChunks == old(pendingChunks) && events.arrivals == old(events.arrivals) + [rerouted]
              else pendingChunks == old(pendingChunks)[j := old(pendingChunks[routes[chunk.route[1]][1]]) + [rerouted]]
                   && events.arrivals == old(events.arrivals)
      ensures forall m: nat :: m < n && m != routes[chunk.route[1]][1] ==> LineTo(m) == old(LineTo(m))
    {
      var c := chunk.(route := routes[chunk.route[1]]);
      var j := c.route[1];
      if links[j].busy || links[j].bandwidth == 0.0 || c.topologyIteration > topologyIteration {
        pendingChunks := pendingChunks[j := pendingChunks[j] + [c]];
        assert LineTo(j).pending == old(LineTo(j)).pending + [c.topologyIteration];
        return;
      }
      links := links[j := links[j].(busy := true)];
      events.arrivals := events.arrivals + [c];
      events.waiting := events.waiting + multiset{LinkId(id, j)};
    }

    /** One turn of the loop below: the route is replaced and the link reconfigured, which it must not be while busy
        unless its figures stay; its event is scheduled either way. */
    method ReconfigureLink(j: nat, bandwidth: real, route: seq<nat>, latency: real, events: LinkEvents, ghost n: nat)
      requires Valid(n) && j < n && j != id && bandwidth >= 0.0 && latency >= 0.0 && RouteOk(n, id, route)
      requires links[j].busy ==> bandwidth == links[j].bandwidth && latency == links[j].latency
      modifies this`links, this`routes, events
      ensures Valid(n)
      ensures links == old(links)[j := old(links)[j].Reconfigured(bandwidth, latency)]
      ensures routes == old(routes)[j := route]
      ensures events.waiting == old(events.waiting) + multiset{LinkId(id, j)} && events.arrivals == old(events.arrivals)
    {
      routes := routes[j := route];
      links := links[j := links[j].Reconfigured(bandwidth, latency)];
      events.waiting := events.waiting + multiset{LinkId(id, j)};
    }

    /** The figures of every link but the one to the device itself are replaced. */
    method Reconfigure(bandwidth: seq<real>, newRoutes: seq<seq<nat>>, latency: seq<real>, events: LinkEvents, n: nat)
      requires Valid(n) && |bandwidth| == |newRoutes| == |latency| == n
      requires forall j :: 0 <= j < n && j != id ==>
                 bandwidth[j] >= 0.0 && latency[j] >= 0.0 && RouteOk(n, id, newRoutes[j])
      requires forall j: nat :: j < n && j != id && links[j].busy ==>
                 bandwidth[j] == links[j].bandwidth && latency[j] == links[j].latency
      modifies this, events
      ensures Valid(n)
      ensures topologyIteration == old(topologyIteration) + 1 && pendingChunks == old(pendingChunks)
      ensures forall j: nat :: j < n && j != id ==>
                LineTo(j) == Retuned(old(LineTo(j)), bandwidth[j], latency[j])
                && j in routes && routes[j] == newRoutes[j]
      ensures events.waiting == old(events.waiting) + Row(id, n) && events.arrivals == old(events.arrivals)
    {
      hide RouteOk, Rewired;
      topologyIteration := topologyIteration + 1;
      ghost var before := links;
      RewiredNone(links, id, bandwidth, latency);
      for j := 0 to n
        invariant Valid(n) && topologyIteration == old(topologyIteration) + 1 && pendingChunks == old(pendingChunks)
        invariant links == Rewired(before, id, bandwidth, latency, j) && Redirected(routes, id, newRoutes, j)
        invariant events.waiting == old(events.waiting) + Row(id, j) && events.arrivals == old(events.arrivals)
      {
        RewiredStep(before, id, bandwidth, latency, j);
        RewiredLater(before, id, bandwidth, latency, j);
        if j != id {
          ReconfigureLink(j, bandwidth[j], newRoutes[j], latency[j], events, n);
        }
      }
      RewiredAll(before, id, bandwidth, latency);
    }
  }
}
