/** The congestion-aware simulator as a state machine: chunks hop over links that serve one chunk at a time
    (congestion_aware/network/Link.cpp, Chunk.cpp, Device.cpp), driven by the event queue. Devices, links and chunks
    are named by ids. `Sim` carries a little more than the program does: when a busy link becomes free, where a chunk
    is, and a log of what has happened; nothing else in a step depends on those. */
module Network {
  import opened Links
  import opened StableQueue
  import opened Delays

  datatype Event = Arrived(chunk: nat) | Free(link: LinkId)

  /** Where a chunk is: held up in front of the next link, on that link, or at its destination. */
  datatype Phase = Waiting | InFlight(at: nat) | Delivered(at: nat)

  /** `route` is what is left of the route, from the current device to the destination. */
  datatype ChunkState = ChunkState(size: nat, route: seq<nat>, phase: Phase)

  /** `freeAt` is the time of the last `link_become_free` scheduled for the link. */
  datatype LinkState = LinkState(busy: bool, freeAt: nat, pending: seq<nat>)

  /** One line of the log. `Called` is the invocation of a chunk's callback. */
  datatype Obs =
    | Sent(link: LinkId, chunk: nat)
    | Started(link: LinkId, chunk: nat, size: nat, at: nat)
    | Landed(link: LinkId, chunk: nat)
    | Called(device: nat, chunk: nat, at: nat)

  type Fabric = map<LinkId, Wire>

  datatype Sim = Sim(
    now: nat,
    queue: seq<Entry<Event>>,
    links: map<LinkId, LinkState>,
    chunks: seq<ChunkState>,
    log: seq<Obs>)

  // ---------------------------------------------------------------------------------------------------------------
  // What holds between events
  // ---------------------------------------------------------------------------------------------------------------

  /** Every two consecutive devices of a route are connected. */
  predicate Connected(f: Fabric, route: seq<nat>) {
    forall k :: 0 <= k < |route| - 1 ==> LinkId(route[k], route[k + 1]) in f
  }

  /** The link between the first two devices of a route. */
  function Hop(route: seq<nat>): LinkId
    requires |route| >= 2
  {
    LinkId(route[0], route[1])
  }

  predicate NextHop(chunks: seq<ChunkState>, c: nat, l: LinkId) {
    c < |chunks| && |chunks[c].route| >= 2 && Hop(chunks[c].route) == l
  }

  /** The next hop of chunk `c`, or the one it is making, is over `l`. */
  predicate OnLink(s: Sim, c: nat, l: LinkId) {
    NextHop(s.chunks, c, l)
  }

  ghost predicate Absent(q: seq<Entry<Event>>, e: Event) {
    forall x :: x in q ==> x.event != e
  }

  ghost predicate Distinct(q: seq<Entry<Event>>) {
    forall i, j :: 0 <= i < j < |q| ==> q[i].event != q[j].event
  }

  ghost predicate Wired(f: Fabric, s: Sim) {
    && s.links.Keys == f.Keys
    && (forall l :: l in f ==> f[l].Valid())
    && (forall c :: 0 <= c < |s.chunks| ==>
          s.chunks[c].size > 0 && s.chunks[c].route != [] && Connected(f, s.chunks[c].route))
  }

  ghost predicate QueueOk(s: Sim) {
    && Sorted(s.queue)
    && Distinct(s.queue)
    && (forall x :: x in s.queue ==> s.now <= x.time)
    && (forall x :: x in s.queue && x.event.Arrived? ==> x.event.chunk < |s.chunks|)
    && (forall x :: x in s.queue && x.event.Free? ==> x.event.link in s.links)
  }

  /** `held` is a chunk that has left one place and not yet reached the next: there is one only while an event is being
      handled. */
  datatype Held = Nothing | Holding(chunk: nat)

  ghost predicate LinkOk(s: Sim, held: Held, l: LinkId)
    requires l in s.links
  {
    var k := s.links[l];
    && (forall t :: Entry(t, Free(l)) in s.queue <==> k.busy && t == k.freeAt)
    && (!k.busy ==> k.freeAt <= s.now)
    && (!k.busy ==> k.pending == [] || (held.Holding? && OnLink(s, held.chunk, l)))
    && (forall i, j :: 0 <= i < j < |k.pending| ==> k.pending[i] != k.pending[j])
    && (forall c :: c in k.pending ==> OnLink(s, c, l) && s.chunks[c].phase == Waiting && held != Holding(c))
  }

  ghost predicate ChunkOk(s: Sim, held: Held, c: nat)
    requires c < |s.chunks|
  {
    var k := s.chunks[c];
    && (forall t :: Entry(t, Arrived(c)) in s.queue <==> k.phase == InFlight(t))
    && (k.phase.Delivered? <==> |k.route| == 1)
    && (k.phase.Delivered? ==> k.phase.at <= s.now)
    && (k.phase.Waiting? && held != Holding(c) && |k.route| >= 2 ==>
          Hop(k.route) in s.links && c in s.links[Hop(k.route)].pending)
  }

  ghost predicate InvWith(f: Fabric, s: Sim, held: Held) {
    && Wired(f, s)
    && QueueOk(s)
    && (forall l :: l in s.links ==> LinkOk(s, held, l))
    && (forall c :: 0 <= c < |s.chunks| ==> ChunkOk(s, held, c))
    && (held.Holding? ==> held.chunk < |s.chunks| && s.chunks[held.chunk].phase == Waiting)
  }

  /** Between events: a link is busy iff exactly one event is going to free it, an idle link holds up nobody, and every
      chunk is in exactly one place. */
  ghost predicate Inv(f: Fabric, s: Sim) {
    InvWith(f, s, Nothing)
  }

  // ---------------------------------------------------------------------------------------------------------------
  // Steps
  // ---------------------------------------------------------------------------------------------------------------

  function Init(f: Fabric): Sim {
    Sim(0, [], map l | l in f :: LinkState(false, 0, []), [], [])
  }

  predicate CanStart(f: Fabric, s: Sim, l: LinkId, c: nat) {
    l in f && f[l].Valid() && l in s.links && c < |s.chunks|
  }

  /** Chunk `c` occupies link `l` until `free` and reaches the far side at `arrival`; the arrival is scheduled first. */
  function Occupy(s: Sim, l: LinkId, c: nat, arrival: nat, free: nat): Sim
    requires l in s.links && c < |s.chunks|
  {
    s.(queue := Insert(Insert(s.queue, arrival, Arrived(c)), free, Free(l)),
       links := s.links[l := s.links[l].(busy := true, freeAt := free)],
       chunks := s.chunks[c := s.chunks[c].(phase := InFlight(arrival))],
       log := s.log + [Started(l, c, s.chunks[c].size, s.now)])
  }

  /** `schedule_chunk_transmission`. */
  function Transmit(f: Fabric, s: Sim, l: LinkId, c: nat): Sim
    requires CanStart(f, s, l, c)
  {
    var size := s.chunks[c].size;
    Occupy(s, l, c, s.now + f[l].CommunicationDelay(size), s.now + f[l].SerializationDelay(size))
  }

  /** `Link::send`. */
  function LinkSend(f: Fabric, s: Sim, l: LinkId, c: nat): Sim
    requires CanStart(f, s, l, c)
  {
    var t := s.(log := s.log + [Sent(l, c)]);
    if s.links[l].busy
    then t.(links := s.links[l := s.links[l].(pending := s.links[l].pending + [c])])
    else Transmit(f, t, l, c)
  }

  /** The event is taken off the queue and the clock moves to it. */
  function Taken(s: Sim): Sim
    requires s.queue != []
  {
    s.(now := s.queue[0].time, queue := s.queue[1..])
  }

  function SetFree(s: Sim, l: LinkId): Sim
    requires l in s.links
  {
    s.(links := s.links[l := s.links[l].(busy := false)])
  }

  function PopPending(s: Sim, l: LinkId): Sim
    requires l in s.links && s.links[l].pending != []
  {
    s.(links := s.links[l := s.links[l].(pending := s.links[l].pending[1..])])
  }

  /** `link_become_free`. */
  function BecomeFree(f: Fabric, s: Sim, l: LinkId): Sim
    requires l in f && f[l].Valid() && l in s.links
    requires s.links[l].pending != [] ==> s.links[l].pending[0] < |s.chunks|
  {
    var t := SetFree(s, l);
    if t.links[l].pending == [] then t
    else Transmit(f, PopPending(t, l), l, t.links[l].pending[0])
  }

  /** `mark_arrived_next_device`; a chunk with nowhere left to go has its callback invoked. */
  function Land(s: Sim, c: nat): Sim
    requires c < |s.chunks| && |s.chunks[c].route| >= 2
  {
    var route := s.chunks[c].route;
    var landed := s.log + [Landed(Hop(route), c)];
    if |route| == 2
    then s.(chunks := s.chunks[c := s.chunks[c].(route := route[1..], phase := Delivered(s.now))],
            log := landed + [Called(route[1], c, s.now)])
    else s.(chunks := s.chunks[c := s.chunks[c].(route := route[1..], phase := Waiting)],
            log := landed)
  }

  /** `chunk_arrived_next_device`. */
  function Arrive(f: Fabric, s: Sim, c: nat): Sim
    requires c < |s.chunks| && |s.chunks[c].route| >= 2
    requires |s.chunks[c].route| > 2 ==> CanStart(f, s, Hop(s.chunks[c].route[1..]), c)
  {
    var t := Land(s, c);
    if |t.chunks[c].route| == 1 then t else LinkSend(f, t, Hop(t.chunks[c].route), c)
  }

  ghost predicate CanStep(f: Fabric, s: Sim) {
    Inv(f, s) && s.queue != []
  }

  /** One event. */
  function Step(f: Fabric, s: Sim): Sim
    requires CanStep(f, s)
  {
    var x := s.queue[0];
    assert x in s.queue;
    match x.event
    case Arrived(c) =>
      assert ChunkOk(s, Nothing, c) && x == Entry(x.time, Arrived(c));
      assert |s.chunks[c].route| > 2 ==> CanStart(f, s, Hop(s.chunks[c].route[1..]), c);
      Arrive(f, Taken(s), c)
    case Free(l) =>
      assert LinkOk(s, Nothing, l);
      assert s.links[l].pending != [] ==> s.links[l].pending[0] in s.links[l].pending;
      BecomeFree(f, Taken(s), l)
  }

  /** A new chunk is handed to the first device of its route. This happens between events or from a chunk's callback,
      which is the last thing the event does. */
  predicate CanInject(f: Fabric, route: seq<nat>, size: nat) {
    |route| >= 2 && Connected(f, route) && size > 0
  }

  function Enter(s: Sim, route: seq<nat>, size: nat): Sim {
    s.(chunks := s.chunks + [ChunkState(size, route, Waiting)])
  }

  function Inject(f: Fabric, s: Sim, route: seq<nat>, size: nat): Sim
    requires Inv(f, s) && CanInject(f, route, size)
  {
    LinkSend(f, Enter(s, route, size), Hop(route), |s.chunks|)
  }

  // ---------------------------------------------------------------------------------------------------------------
  // Every step keeps the invariant
  // ---------------------------------------------------------------------------------------------------------------

  lemma InitInv(f: Fabric)
    requires forall l :: l in f ==> f[l].Valid()
    ensures Inv(f, Init(f))
  {
  }

  lemma {:induction false} InsertDistinct(q: seq<Entry<Event>>, t: nat, e: Event)
    requires Distinct(q) && Absent(q, e)
    ensures Distinct(Insert(q, t, e))
  {
    if q == [] || t < q[0].time {
      assert forall i :: 0 <= i < |q| ==> q[i] in q;
    } else {
      InsertDistinct(q[1..], t, e);
      InsertMembers(q[1..], t, e);
      assert q[0] in q;
      assert forall i :: 0 <= i < |Insert(q[1..], t, e)| ==> Insert(q[1..], t, e)[i] in Insert(q[1..], t, e);
    }
  }

  lemma InsertOk(q: seq<Entry<Event>>, t: nat, e: Event)
    requires Sorted(q) && Distinct(q) && Absent(q, e)
    ensures Sorted(Insert(q, t, e)) && Distinct(Insert(q, t, e))
    ensures forall x :: x in Insert(q, t, e) <==> x in q || x == Entry(t, e)
  {
    InsertSorted(q, t, e);
    InsertMembers(q, t, e);
    InsertDistinct(q, t, e);
  }

  lemma InsertTwoOk(q: seq<Entry<Event>>, t: nat, e: Event, t': nat, e': Event)
    requires Sorted(q) && Distinct(q) && Absent(q, e) && Absent(q, e') && e != e'
    ensures Sorted(Insert(Insert(q, t, e), t', e')) && Distinct(Insert(Insert(q, t, e), t', e'))
    ensures forall x :: x in Insert(Insert(q, t, e), t', e') <==> x in q || x == Entry(t, e) || x == Entry(t', e')
  {
    InsertOk(q, t, e);
    InsertOk(Insert(q, t, e), t', e');
  }

  lemma NoneScheduled(f: Fabric, s: Sim, held: Held, l: LinkId, c: nat)
    requires InvWith(f, s, held) && l in s.links && c < |s.chunks|
    ensures !s.links[l].busy ==> Absent(s.queue, Free(l))
    ensures !s.chunks[c].phase.InFlight? ==> Absent(s.queue, Arrived(c))
  {
    assert LinkOk(s, held, l) && ChunkOk(s, held, c);
    forall x | x in s.queue
      ensures !s.links[l].busy ==> x.event != Free(l)
      ensures !s.chunks[c].phase.InFlight? ==> x.event != Arrived(c)
    {
      assert x == Entry(x.time, x.event);
    }
  }

  lemma OccupyQueue(s: Sim, l: LinkId, c: nat, arrival: nat, free: nat)
    requires l in s.links && c < |s.chunks| && QueueOk(s) && s.now <= arrival && s.now <= free
    requires Absent(s.queue, Arrived(c)) && Absent(s.queue, Free(l))
    ensures var t := Occupy(s, l, c, arrival, free);
            && QueueOk(t)
            && forall x :: x in t.queue <==> x in s.queue || x == Entry(arrival, Arrived(c)) || x == Entry(free, Free(l))
  {
    InsertTwoOk(s.queue, arrival, Arrived(c), free, Free(l));
  }

  lemma OccupyKeeps(f: Fabric, s: Sim, l: LinkId, c: nat, arrival: nat, free: nat)
    requires InvWith(f, s, Holding(c)) && s.now <= arrival && s.now <= free
    requires l in s.links && !s.links[l].busy && OnLink(s, c, l)
    ensures Inv(f, Occupy(s, l, c, arrival, free))
  {
    var t := Occupy(s, l, c, arrival, free);
    NoneScheduled(f, s, Holding(c), l, c);
    OccupyQueue(s, l, c, arrival, free);
    forall m | m in t.links ensures LinkOk(t, Nothing, m) {
      OccupyLink(s, l, c, arrival, free, m);
    }
    forall d | 0 <= d < |t.chunks| ensures ChunkOk(t, Nothing, d) {
      OccupyChunk(s, l, c, arrival, free, d);
    }
  }

  lemma OccupyLink(s: Sim, l: LinkId, c: nat, arrival: nat, free: nat, m: LinkId)
    requires l in s.links && c < |s.chunks| && QueueOk(s) && s.now <= arrival && s.now <= free && m in s.links
    requires Absent(s.queue, Arrived(c)) && Absent(s.queue, Free(l))
    requires !s.links[l].busy && OnLink(s, c, l) && LinkOk(s, Holding(c), m)
    ensures LinkOk(Occupy(s, l, c, arrival, free), Nothing, m)
  {
    OccupyQueue(s, l, c, arrival, free);
  }

  lemma OccupyChunk(s: Sim, l: LinkId, c: nat, arrival: nat, free: nat, d: nat)
    requires l in s.links && c < |s.chunks| && QueueOk(s) && s.now <= arrival && s.now <= free && d < |s.chunks|
    requires Absent(s.queue, Arrived(c)) && Absent(s.queue, Free(l))
    requires OnLink(s, c, l) && ChunkOk(s, Holding(c), d) && ChunkOk(s, Holding(c), c)
    ensures ChunkOk(Occupy(s, l, c, arrival, free), Nothing, d)
  {
    OccupyQueue(s, l, c, arrival, free);
  }

  lemma MayStart(f: Fabric, s: Sim, held: Held, l: LinkId, c: nat)
    requires InvWith(f, s, held) && l in s.links && c < |s.chunks|
    ensures CanStart(f, s, l, c)
  {
  }

  lemma TransmitKeeps(f: Fabric, s: Sim, l: LinkId, c: nat)
    requires InvWith(f, s, Holding(c))
    requires l in s.links && !s.links[l].busy && OnLink(s, c, l)
    ensures CanStart(f, s, l, c) && Inv(f, Transmit(f, s, l, c))
  {
    hide InvWith, Inv, Occupy;
    MayStart(f, s, Holding(c), l, c);
    var size := s.chunks[c].size;
    OccupyKeeps(f, s, l, c, s.now + f[l].CommunicationDelay(size), s.now + f[l].SerializationDelay(size));
  }

  /** A busy link has its own event waiting, and so does a chunk in flight. */
  lemma OutstandingEvents(s: Sim, held: Held)
    ensures forall l :: l in s.links && LinkOk(s, held, l) && s.links[l].busy ==> Entry(s.links[l].freeAt, Free(l)) in s.queue
    ensures forall c :: 0 <= c < |s.chunks| && ChunkOk(s, held, c) && s.chunks[c].phase.InFlight? ==>
                          Entry(s.chunks[c].phase.at, Arrived(c)) in s.queue
  {
  }

  lemma SendKeeps(f: Fabric, s: Sim, l: LinkId, c: nat)
    requires InvWith(f, s, Holding(c))
    requires l in s.links && OnLink(s, c, l)
    ensures CanStart(f, s, l, c) && Inv(f, LinkSend(f, s, l, c))
  {
    hide InvWith, Inv, Transmit;
    MayStart(f, s, Holding(c), l, c);
    if s.links[l].busy {
      EnqueueKeeps(f, s, l, c);
    } else {
      var t := s.(log := s.log + [Sent(l, c)]);
      SameButLog(f, s, t, Holding(c));
      TransmitKeeps(f, t, l, c);
    }
  }

  lemma EnqueueKeeps(f: Fabric, s: Sim, l: LinkId, c: nat)
    requires InvWith(f, s, Holding(c))
    requires l in s.links && OnLink(s, c, l) && s.links[l].busy && CanStart(f, s, l, c)
    ensures Inv(f, LinkSend(f, s, l, c))
  {
    hide Transmit;
    var u := LinkSend(f, s, l, c);
    forall m | m in u.links ensures LinkOk(u, Nothing, m) {
      assert LinkOk(s, Holding(c), m);
    }
    forall d | 0 <= d < |u.chunks| ensures ChunkOk(u, Nothing, d) {
      assert ChunkOk(s, Holding(c), d);
    }
  }

  lemma SameButLog(f: Fabric, s: Sim, t: Sim, held: Held)
    requires InvWith(f, s, held) && t == s.(log := t.log)
    ensures InvWith(f, t, held)
  {
    forall l | l in t.links ensures LinkOk(t, held, l) {
      assert LinkOk(s, held, l);
    }
    forall c | 0 <= c < |t.chunks| ensures ChunkOk(t, held, c) {
      assert ChunkOk(s, held, c);
    }
  }

  /** Freeing a link: either nobody waits and the event is over, or the chunk that waited longest is in hand. */
  lemma FreeKeeps(f: Fabric, s: Sim, l: LinkId)
    requires CanStep(f, s) && s.queue[0].event == Free(l)
    ensures l in s.links && s.links[l].busy && s.links[l].freeAt == s.queue[0].time
    ensures var t := SetFree(Taken(s), l);
            if t.links[l].pending == [] then Inv(f, t)
            else InvWith(f, PopPending(t, l), Holding(t.links[l].pending[0])) && OnLink(s, t.links[l].pending[0], l)
  {
    var x := s.queue[0];
    assert x in s.queue && x == Entry(x.time, Free(l));
    assert LinkOk(s, Nothing, l);
    TakenKeeps(s);
    var t := SetFree(Taken(s), l);
    var pending := t.links[l].pending;
    var held := if pending == [] then Nothing else Holding(pending[0]);
    var u := if pending == [] then t else PopPending(t, l);
    forall m | m in u.links ensures LinkOk(u, held, m) {
      FreeLink(f, s, l, m);
    }
    forall d | 0 <= d < |u.chunks| ensures ChunkOk(u, held, d) {
      FreeChunk(f, s, l, d);
    }
  }

  lemma FreeLink(f: Fabric, s: Sim, l: LinkId, m: LinkId)
    requires CanStep(f, s) && s.queue[0].event == Free(l) && l in s.links && m in s.links
    ensures var t := SetFree(Taken(s), l);
            if t.links[l].pending == [] then LinkOk(t, Nothing, m)
            else LinkOk(PopPending(t, l), Holding(t.links[l].pending[0]), m)
  {
    TakenKeeps(s);
    var x := s.queue[0];
    assert x in s.queue && x == Entry(x.time, Free(l));
    assert LinkOk(s, Nothing, m) && LinkOk(s, Nothing, l);
  }

  lemma FreeChunk(f: Fabric, s: Sim, l: LinkId, d: nat)
    requires CanStep(f, s) && s.queue[0].event == Free(l) && l in s.links && d < |s.chunks|
    ensures var t := SetFree(Taken(s), l);
            if t.links[l].pending == [] then ChunkOk(t, Nothing, d)
            else ChunkOk(PopPending(t, l), Holding(t.links[l].pending[0]), d)
  {
    TakenKeeps(s);
    assert ChunkOk(s, Nothing, d);
  }

  lemma TakenKeeps(s: Sim)
    requires QueueOk(s) && s.queue != []
    ensures QueueOk(Taken(s)) && s.now <= s.queue[0].time
    ensures Absent(s.queue[1..], s.queue[0].event)
    ensures forall x :: x in s.queue <==> x == s.queue[0] || x in s.queue[1..]
  {
  }

  /** A chunk that has arrived is delivered, or in hand on its way to the next link. */
  lemma LandKeeps(f: Fabric, s: Sim, c: nat)
    requires CanStep(f, s) && s.queue[0].event == Arrived(c)
    ensures c < |s.chunks| && s.chunks[c].phase == InFlight(s.queue[0].time) && |s.chunks[c].route| >= 2
    ensures InvWith(f, Land(Taken(s), c), if |s.chunks[c].route| == 2 then Nothing else Holding(c))
  {
    var x := s.queue[0];
    assert x in s.queue && x == Entry(x.time, Arrived(c));
    assert ChunkOk(s, Nothing, c);
    TakenKeeps(s);
    var t := Land(Taken(s), c);
    var held := if |s.chunks[c].route| == 2 then Nothing else Holding(c);
    forall m | m in t.links ensures LinkOk(t, held, m) {
      LandLink(s, c, m);
    }
    forall d | 0 <= d < |t.chunks| ensures ChunkOk(t, held, d) {
      LandChunk(s, c, d);
    }
  }

  lemma LandChunk(s: Sim, c: nat, d: nat)
    requires QueueOk(s) && s.queue != [] && s.queue[0].event == Arrived(c)
    requires c < |s.chunks| && |s.chunks[c].route| >= 2
    requires d < |s.chunks| && ChunkOk(s, Nothing, d)
    ensures ChunkOk(Land(Taken(s), c), if |s.chunks[c].route| == 2 then Nothing else Holding(c), d)
  {
    TakenKeeps(s);
  }

  lemma LandLink(s: Sim, c: nat, m: LinkId)
    requires QueueOk(s) && s.queue != [] && s.queue[0].event == Arrived(c) && m in s.links && LinkOk(s, Nothing, m)
    requires c < |s.chunks| && |s.chunks[c].route| >= 2 && s.chunks[c].phase.InFlight?
    ensures LinkOk(Land(Taken(s), c), if |s.chunks[c].route| == 2 then Nothing else Holding(c), m)
  {
    TakenKeeps(s);
  }

  /** A step that frees a link, spelled out. */
  lemma FreeShape(f: Fabric, s: Sim, l: LinkId)
    requires CanStep(f, s) && s.queue[0].event == Free(l)
    ensures l in f && f[l].Valid() && l in s.links
    ensures var t, pending := SetFree(Taken(s), l), s.links[l].pending;
            if pending == [] then Step(f, s) == t
            else pending[0] < |s.chunks| && Step(f, s) == Transmit(f, PopPending(t, l), l, pending[0])
  {
    FreeKeeps(f, s, l);
  }

  /** A step that handles an arrival, spelled out. */
  lemma ArriveShape(f: Fabric, s: Sim, c: nat)
    requires CanStep(f, s) && s.queue[0].event == Arrived(c)
    ensures c < |s.chunks| && |s.chunks[c].route| >= 2
    ensures var t := Land(Taken(s), c);
            if |s.chunks[c].route| == 2 then Step(f, s) == t
            else CanStart(f, t, Hop(t.chunks[c].route), c) && Step(f, s) == LinkSend(f, t, Hop(t.chunks[c].route), c)
  {
    LandKeeps(f, s, c);
  }

  lemma StepKeeps(f: Fabric, s: Sim)
    requires CanStep(f, s)
    ensures Inv(f, Step(f, s))
    ensures s.now <= Step(f, s).now == s.queue[0].time
  {
    TakenKeeps(s);
    if s.queue[0].event.Arrived? {
      ArriveKeeps(f, s, s.queue[0].event.chunk);
    } else {
      BecomeFreeKeeps(f, s, s.queue[0].event.link);
    }
  }

  lemma ArriveKeeps(f: Fabric, s: Sim, c: nat)
    requires CanStep(f, s) && s.queue[0].event == Arrived(c)
    ensures Inv(f, Step(f, s))
  {
    LandKeeps(f, s, c);
    var t := Land(Taken(s), c);
    if |t.chunks[c].route| != 1 {
      SendKeeps(f, t, Hop(t.chunks[c].route), c);
    }
  }

  lemma BecomeFreeKeeps(f: Fabric, s: Sim, l: LinkId)
    requires CanStep(f, s) && s.queue[0].event == Free(l)
    ensures Inv(f, Step(f, s))
  {
    FreeKeeps(f, s, l);
    var t := SetFree(Taken(s), l);
    if t.links[l].pending != [] {
      TransmitKeeps(f, PopPending(t, l), l, t.links[l].pending[0]);
    }
  }

  lemma EnterKeeps(f: Fabric, s: Sim, route: seq<nat>, size: nat)
    requires Inv(f, s) && CanInject(f, route, size)
    ensures InvWith(f, Enter(s, route, size), Holding(|s.chunks|))
  {
    var c := |s.chunks|;
    var t := Enter(s, route, size);
    forall m | m in t.links ensures LinkOk(t, Holding(c), m) {
      assert LinkOk(s, Nothing, m);
    }
    forall d | 0 <= d < |t.chunks| ensures ChunkOk(t, Holding(c), d) {
      if d < c {
        assert ChunkOk(s, Nothing, d);
      }
    }
  }

  lemma InjectKeeps(f: Fabric, s: Sim, route: seq<nat>, size: nat)
    requires Inv(f, s) && CanInject(f, route, size)
    ensures Inv(f, Inject(f, s, route, size))
  {
    EnterKeeps(f, s, route, size);
    SendKeeps(f, Enter(s, route, size), Hop(route), |s.chunks|);
  }
}
