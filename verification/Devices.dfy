/** Chunks, links and devices of the congestion-aware backend as objects (congestion_aware/network/Chunk.cpp, Link.cpp,
    Device.cpp), and how a topology makes and connects devices (congestion_aware/topology/Topology.cpp). Events name
    chunks and links by their ids. */
module Devices {
  import opened Links
  import opened StableQueue
  import opened EventQueues
  import opened Delays
  import opened Network

  class Chunk {
    const id: nat
    const size: nat
    var route: seq<nat>

    constructor (id: nat, size: nat, route: seq<nat>)
      requires size > 0 && route != []
      ensures this.id == id && this.size == size && this.route == route
    {
      this.id := id;
      this.size := size;
      this.route := route;
    }

    function CurrentDevice(): nat
      requires route != []
      reads this
    {
      route[0]
    }

    predicate ArrivedDest()
      reads this
    {
      |route| == 1
    }

    function NextDevice(): nat
      requires route != [] && !ArrivedDest()
      reads this
    {
      route[1]
    }

    method MarkArrivedNextDevice()
      requires route != [] && !ArrivedDest()
      modifies this
      ensures route == old(route)[1..]
    {
      route := route[1..];
    }
  }

  function Ids(chunks: seq<Chunk>): (r: seq<nat>)
    ensures |r| == |chunks| && forall i :: 0 <= i < |r| ==> r[i] == chunks[i].id
  {
    seq(|chunks|, i requires 0 <= i < |chunks| => chunks[i].id)
  }

  class Link {
    const id: LinkId
    const wire: Wire
    var busy: bool
    var pendingChunks: seq<Chunk>

    constructor (id: LinkId, wire: Wire)
      requires wire.Valid()
      ensures this.id == id && this.wire == wire && !busy && pendingChunks == []
    {
      this.id := id;
      this.wire := wire;
      busy := false;
      pendingChunks := [];
    }

    /** The queue after the link has taken a chunk of the given size at time `now`. */
    ghost function Scheduled(flat: seq<Entry<Event>>, now: nat, c: Chunk): seq<Entry<Event>>
      requires wire.Valid()
    {
      Insert(Insert(flat, now + wire.CommunicationDelay(c.size), Arrived(c.id)),
             now + wire.SerializationDelay(c.size), Free(id))
    }

    method ScheduleChunkTransmission(chunk: Chunk, queue: EventQueue<Event>)
      requires wire.Valid() && !busy && queue.Valid()
      modifies this`busy, queue`lists
      ensures busy && queue.Valid()
      ensures queue.Flat() == Scheduled(old(queue.Flat()), queue.currentTime, chunk)
    {
      busy := true;
      var communicationTime := wire.CommunicationDelay(chunk.size);
      queue.ScheduleEvent(queue.currentTime + communicationTime, Arrived(chunk.id));
      var serializationTime := wire.SerializationDelay(chunk.size);
      queue.ScheduleEvent(queue.currentTime + serializationTime, Free(id));
    }

    /** A busy link holds the chunk up, an idle one takes it at once. */
    method Send(chunk: Chunk, queue: EventQueue<Event>)
      requires wire.Valid() && queue.Valid()
      modifies this, queue`lists
      ensures busy && queue.Valid()
      ensures pendingChunks == if old(busy) then old(pendingChunks) + [chunk] else old(pendingChunks)
      ensures queue.Flat() == if old(busy) then old(queue.Flat())
                              else Scheduled(old(queue.Flat()), queue.currentTime, chunk)
    {
      if busy {
        pendingChunks := pendingChunks + [chunk];
      } else {
        ScheduleChunkTransmission(chunk, queue);
      }
    }

    method ProcessPendingTransmission(queue: EventQueue<Event>)
      requires wire.Valid() && !busy && queue.Valid() && pendingChunks != []
      modifies this, queue`lists
      ensures busy && queue.Valid() && pendingChunks == old(pendingChunks)[1..]
      ensures queue.Flat() == Scheduled(old(queue.Flat()), queue.currentTime, old(pendingChunks)[0])
    {
      var chunk := pendingChunks[0];
      pendingChunks := pendingChunks[1..];
      ScheduleChunkTransmission(chunk, queue);
    }

    /** A link that becomes free takes the chunk that has been held up longest, if there is one. */
    method BecomeFree(queue: EventQueue<Event>)
      requires wire.Valid() && queue.Valid()
      modifies this, queue`lists
      ensures queue.Valid()
      ensures busy <==> old(pendingChunks) != []
      ensures pendingChunks == if busy then old(pendingChunks)[1..] else []
      ensures queue.Flat() == if busy then Scheduled(old(queue.Flat()), queue.currentTime, old(pendingChunks)[0])
                              else old(queue.Flat())
    {
      busy := false;
      if pendingChunks != [] {
        ProcessPendingTransmission(queue);
      }
    }
  }

  class Device {
    const id: nat
    var links: map<nat, Link>

    constructor (id: nat)
      ensures Valid() && this.id == id && links == map[]
    {
      this.id := id;
      links := map[];
    }

    ghost predicate Valid()
      reads this
    {
      forall d :: d in links ==> links[d].id == LinkId(id, d) && links[d].wire.Valid()
    }

    predicate Connected(dest: nat)
      reads this
    {
      dest in links
    }

    /** A new idle link; the connection may not exist already. */
    method Connect(dest: nat, wire: Wire)
      requires Valid() && !Connected(dest) && wire.Valid()
      modifies this
      ensures Valid() && Connected(dest) && links == old(links)[dest := links[dest]]
      ensures fresh(links[dest]) && Idle(links[dest]) && links[dest].wire == wire
    {
      var link := new Link(LinkId(id, dest), wire);
      links := links[dest := link];
    }

    /** The chunk goes to the link to the next device of its route. */
    method Send(chunk: Chunk, queue: EventQueue<Event>)
      requires Valid() && queue.Valid()
      requires chunk.route != [] && chunk.CurrentDevice() == id && !chunk.ArrivedDest() && Connected(chunk.NextDevice())
      modifies links[chunk.NextDevice()], queue`lists
      ensures queue.Valid()
      ensures var link := links[chunk.NextDevice()];
              && link.busy
              && link.pendingChunks == (if old(link.busy) then old(link.pendingChunks) + [chunk] else old(link.pendingChunks))
              && queue.Flat() == if old(link.busy) then old(queue.Flat())
                                 else link.Scheduled(old(queue.Flat()), queue.currentTime, chunk)
    {
      var nextDest := chunk.NextDevice();
      links[nextDest].Send(chunk, queue);
    }
  }

  // ---------------------------------------------------------------------------------------------------------------
  // Topologies
  // ---------------------------------------------------------------------------------------------------------------

  ghost predicate Idle(k: Link)
    reads k
  {
    !k.busy && k.pendingChunks == []
  }

  /** `links` are the links that the devices have, by their ids. */
  ghost predicate Wiring(devices: seq<Device>, links: map<LinkId, Link>)
    reads devices
  {
    && (forall a :: 0 <= a < |devices| ==> devices[a].id == a && devices[a].Valid())
    && (forall l :: l in links <==> l.src < |devices| && l.dest in devices[l.src].links)
    && (forall l :: l in links ==> links[l] == devices[l.src].links[l.dest])
  }

  ghost function FabricOf(links: map<LinkId, Link>): Fabric {
    map l | l in links :: links[l].wire
  }

  method InstantiateDevices(n: nat) returns (devices: seq<Device>)
    ensures |devices| == n && fresh(devices) && Wiring(devices, map[])
  {
    devices := [];
    for i := 0 to n
      invariant |devices| == i && fresh(devices)
      invariant forall a :: 0 <= a < i ==> devices[a].id == a && devices[a].links == map[]
    {
      var d := new Device(i);
      devices := devices + [d];
    }
  }

  method ConnectOne(devices: seq<Device>, src: nat, dest: nat, wire: Wire, ghost links: map<LinkId, Link>)
    returns (ghost more: map<LinkId, Link>)
    requires Wiring(devices, links) && src < |devices| && wire.Valid() && LinkId(src, dest) !in links
    modifies devices[src]
    ensures Wiring(devices, more) && LinkId(src, dest) in more
    ensures var k := more[LinkId(src, dest)]; more == links[LinkId(src, dest) := k] && fresh(k) && Idle(k) && k.wire == wire
  {
    devices[src].Connect(dest, wire);
    more := links[LinkId(src, dest) := devices[src].links[dest]];
    assert forall a :: 0 <= a < |devices| && a != src ==> devices[a] != devices[src];
  }

  /** Every link of `more` that is not one of `links` is idle and made of `wire`. */
  ghost predicate Extends(more: map<LinkId, Link>, links: map<LinkId, Link>, wire: Wire)
    reads more.Values
  {
    && (forall l :: l in links ==> l in more && more[l] == links[l])
    && (forall l :: l in more && l !in links ==> Idle(more[l]) && more[l].wire == wire)
  }

  /** `Topology::connect`: no connection it is to make may exist already. */
  method Connect(devices: seq<Device>, src: nat, dest: nat, wire: Wire, bidirectional: bool, ghost links: map<LinkId, Link>)
    returns (ghost more: map<LinkId, Link>)
    requires Wiring(devices, links) && src < |devices| && dest < |devices| && wire.Valid()
    requires LinkId(src, dest) !in links && (bidirectional ==> LinkId(dest, src) !in links && src != dest)
    modifies devices
    ensures Wiring(devices, more) && Extends(more, links, wire) && fresh(more.Values - links.Values)
    ensures more.Keys == links.Keys + {LinkId(src, dest)} + if bidirectional then {LinkId(dest, src)} else {}
  {
    hide Wiring;
    more := ConnectOne(devices, src, dest, wire, links);
    if bidirectional {
      more := ConnectOne(devices, dest, src, wire, more);
    }
  }
}
