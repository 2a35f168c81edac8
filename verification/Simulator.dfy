/** The congestion-aware simulator step by step (congestion_aware/network/Link.cpp, Chunk.cpp, Device.cpp,
    common/event-queue/EventQueue.cpp): objects whose methods update their fields, against the state machine of `Network`. */
module Simulator {
  import opened Links
  import opened StableQueue
  import opened EventQueues
  import opened Delays
  import opened Network
  import opened Runs
  import opened Devices
  import opened Replies
  import Makespan

  // ---------------------------------------------------------------------------------------------------------------
  // Objects and states
  // ---------------------------------------------------------------------------------------------------------------

  ghost predicate LinkMirrors(k: Link, s: LinkState, chunks: seq<Chunk>)
    reads k
  {
    && k.busy == s.busy && Ids(k.pendingChunks) == s.pending
    && forall i :: 0 <= i < |k.pendingChunks| ==> Known(k.pendingChunks[i], chunks)
  }

  ghost predicate Known(c: Chunk, chunks: seq<Chunk>) {
    c.id < |chunks| && chunks[c.id] == c
  }

  ghost predicate ChunkMirrors(c: Chunk, s: ChunkState)
    reads c
  {
    c.size == s.size && c.route == s.route
  }

  ghost predicate LinksMirror(links: map<LinkId, Link>, f: Fabric, chunks: seq<Chunk>, m: Sim)
    reads links.Values
  {
    && m.links.Keys == links.Keys == f.Keys
    && forall l :: l in links ==>
         links[l].id == l && links[l].wire == f[l] && LinkMirrors(links[l], m.links[l], chunks)
  }

  ghost predicate ChunksMirror(chunks: seq<Chunk>, m: Sim)
    reads chunks
  {
    && |chunks| == |m.chunks|
    && forall c :: 0 <= c < |chunks| ==> chunks[c].id == c && ChunkMirrors(chunks[c], m.chunks[c])
  }

  /** The network with everything in it. `links` are the links of all devices; `batch` is what is left of the event list
      being executed, which `Proceed` has taken off the queue. `replies` is what the callbacks do: the chunks that the callback
      of a chunk sends when it is invoked. */
  class World {
    const queue: EventQueue<Event>
    const devices: seq<Device>
    const replies: Reply
    ghost const links: map<LinkId, Link>
    ghost const fabric: Fabric
    var chunks: seq<Chunk>
    var calls: seq<Obs>
    ghost var batch: seq<Event>
    ghost var model: Sim

    ghost predicate QueueMirrors(m: Sim)
      reads this, queue
    {
      queue.Valid() && m.now == queue.currentTime && m.queue == Entries(m.now, batch) + queue.Flat()
    }

    /** The objects are in the state `m`. */
    ghost predicate Mirrors(m: Sim)
      reads this, queue, links.Values, chunks
    {
      LinksMirror(links, fabric, chunks, m) && ChunksMirror(chunks, m) && QueueMirrors(m) && calls == CallsIn(m.log)
    }

    ghost predicate Valid()
      reads this, queue, devices, links.Values, chunks
    {
      Inv(fabric, model) && Mirrors(model) && Wiring(devices, links) && RepliesFit(fabric, replies)
    }

    /** A world of connected devices that nothing has been sent over yet. */
    constructor (devices: seq<Device>, queue: EventQueue<Event>, replies: Reply, ghost links: map<LinkId, Link>)
      requires queue.Valid() && queue.currentTime == 0 && queue.Finished()
      requires Wiring(devices, links) && RepliesFit(FabricOf(links), replies)
      requires forall l :: l in links ==> Idle(links[l])
      ensures Valid() && this.devices == devices && this.links == links && this.queue == queue && this.replies == replies
      ensures fabric == FabricOf(links) && model == Init(fabric) && batch == [] && chunks == [] && calls == []
    {
      hide Inv, Wiring, RepliesFit, LinksMirror, ChunksMirror, FabricOf, Init, RepliesFit;
      this.queue := queue;
      this.devices := devices;
      this.replies := replies;
      this.links := links;
      this.fabric := FabricOf(links);
      chunks := [];
      calls := [];
      batch := [];
      model := Init(FabricOf(links));
      new;
      StartMirrors(devices, queue, links);
    }

    /** Different links are different objects. */
    lemma LinksApart(m: Sim, l: LinkId)
      requires LinksMirror(links, fabric, chunks, m) && l in links
      ensures forall k :: k in links && k != l ==> links[k] != links[l]
    {
      forall k | k in links && k != l ensures links[k] != links[l] {
        assert links[k].id == k && links[l].id == l;
      }
    }

    /** The state follows what has happened to link `l`. */
    lemma OneLink(m: Sim, m': Sim, l: LinkId)
      requires m.links.Keys == links.Keys == fabric.Keys && l in links
      requires forall k :: k in links ==> links[k].id == k && links[k].wire == fabric[k]
      requires forall k :: k in links && k != l ==> LinkMirrors(links[k], m.links[k], chunks)
      requires m'.links.Keys == m.links.Keys && forall k :: k in m.links && k != l ==> m'.links[k] == m.links[k]
      requires LinkMirrors(links[l], m'.links[l], chunks)
      ensures LinksMirror(links, fabric, chunks, m')
    {
    }

    /** Chunks of which only the whereabouts have changed in the state still mirror it. */
    lemma SameChunks(m: Sim, m': Sim)
      requires ChunksMirror(chunks, m) && |m'.chunks| == |m.chunks|
      requires forall c :: 0 <= c < |m.chunks| ==> m'.chunks[c].size == m.chunks[c].size && m'.chunks[c].route == m.chunks[c].route
      ensures ChunksMirror(chunks, m')
    {
      forall c | 0 <= c < |chunks| ensures ChunkMirrors(chunks[c], m'.chunks[c]) {
        assert ChunkMirrors(chunks[c], m.chunks[c]);
      }
    }

    /** The device that the chunk is at sends it on. */
    method DeviceSend(ghost m: Sim, c: nat)
      requires Mirrors(m) && Wiring(devices, links)
      requires c < |m.chunks| && |m.chunks[c].route| >= 2 && CanStart(fabric, m, Hop(m.chunks[c].route), c)
      modifies links.Values, queue`lists
      ensures Mirrors(LinkSend(fabric, m, Hop(m.chunks[c].route), c))
    {
      hide Insert, Entries, Inv, LinkMirrors, LinkSend, ChunkMirrors, Wiring, CallsIn, Flatten, Wire.CommunicationDelay,
        Wire.SerializationDelay;
      ghost var l := Hop(m.chunks[c].route);
      ghost var m' := LinkSend(fabric, m, l, c);
      SendFacts(fabric, m, batch, queue.Flat(), l, c);
      LinksApart(m, l);
      ChunkSize(chunks[c], m.chunks[c]);
      DeviceHas(devices, links, l);
      var chunk := chunks[c];
      SendOver(devices[chunk.CurrentDevice()], chunk, chunks, queue, links[l], m.links[l], m'.links[l]);
      OneLink(m, m', l);
      SameChunks(m, m');
    }

    method LinkBecomeFree(ghost m: Sim, l: LinkId)
      requires Mirrors(m) && Wiring(devices, links) && l in links && fabric[l].Valid()
      requires m.links[l].pending != [] ==> m.links[l].pending[0] < |m.chunks|
      modifies links.Values, queue`lists
      ensures Mirrors(BecomeFree(fabric, m, l))
    {
      hide Insert, Entries, Inv, LinkMirrors, BecomeFree, ChunkMirrors, Wiring;
      ghost var m' := BecomeFree(fabric, m, l);
      FreeFacts(fabric, m, batch, queue.Flat(), l);
      LinksApart(m, l);
      ghost var first := m.links[l].pending;
      if first != [] {
        ChunkSize(chunks[first[0]], m.chunks[first[0]]);
      }
      DeviceHas(devices, links, l);
      FreeUp(devices[l.src].links[l.dest], chunks, queue, m.links[l], m'.links[l]);
      OneLink(m, m', l);
      SameChunks(m, m');
    }

    /** The chunk has come to the next device of its route; at the last one its callback is invoked. */
    method LandChunk(ghost m: Sim, c: nat)
      requires Mirrors(m) && c < |m.chunks| && |m.chunks[c].route| >= 2
      modifies this`calls, chunks
      ensures Mirrors(Land(m, c)) && chunks == old(chunks)
    {
      hide LinkMirrors, Land, ChunkMirrors;
      ghost var t := Land(m, c);
      LandFacts(m, c);
      ChunkSize(chunks[c], m.chunks[c]);
      Advance(chunks[c], m.chunks[c], t.chunks[c]);
      OneChunk(m, t, c);
      ChunkSize(chunks[c], t.chunks[c]);
      if chunks[c].ArrivedDest() {
        calls := calls + [Called(chunks[c].CurrentDevice(), c, queue.currentTime)];
      }
    }

    method ChunkArrived(ghost m: Sim, c: nat)
      requires Mirrors(m) && Wiring(devices, links) && c < |m.chunks| && |m.chunks[c].route| >= 2
      requires |m.chunks[c].route| > 2 ==> CanStart(fabric, m, Hop(m.chunks[c].route[1..]), c)
      modifies this`calls, links.Values, queue`lists, chunks
      ensures Mirrors(Arrive(fabric, m, c)) && chunks == old(chunks)
    {
      hide Wiring, LinksMirror, LinkMirrors, LinkSend, ChunkMirrors, Land, QueueMirrors;
      ghost var t := Land(m, c);
      LandFacts(m, c);
      LandChunk(m, c);
      ChunkSize(chunks[c], t.chunks[c]);
      if !chunks[c].ArrivedDest() {
        DeviceSend(t, c);
      }
    }

    /** The state follows what has happened to chunk `c`. */
    lemma OneChunk(m: Sim, m': Sim, c: nat)
      requires c < |chunks| == |m.chunks| == |m'.chunks|
      requires forall d :: 0 <= d < |chunks| ==> chunks[d].id == d
      requires forall d :: 0 <= d < |chunks| && d != c ==> ChunkMirrors(chunks[d], m.chunks[d]) && m'.chunks[d] == m.chunks[d]
      requires ChunkMirrors(chunks[c], m'.chunks[c])
      ensures ChunksMirror(chunks, m')
    {
    }

    /** An event list has been taken off the queue and `batch` is left of it; the state's clock may still be behind. */
    ghost predicate Loaded(m: Sim)
      reads this, queue, links.Values, chunks
    {
      && LinksMirror(links, fabric, chunks, m) && ChunksMirror(chunks, m) && calls == CallsIn(m.log)
      && queue.Valid() && m.now <= queue.currentTime && m.queue == Entries(queue.currentTime, batch) + queue.Flat()
    }

    method Dispatch(ghost m: Sim, event: Event)
      requires Mirrors(m) && Wiring(devices, links) && Ready(fabric, m, event)
      modifies this`calls, links.Values, queue`lists, chunks
      ensures Mirrors(Handle(fabric, m, event)) && chunks == old(chunks)
    {
      hide Wiring, LinksMirror, ChunksMirror, Arrive, BecomeFree;
      match event
      case Arrived(c) => ChunkArrived(m, c);
      case Free(l) =>
        LinkKnown(links, fabric, chunks, m, l);
        LinkBecomeFree(m, l);
    }

    /** The next event of the batch, up to the callback. */
    method HandleEvent(event: Event)
      requires Inv(fabric, model) && Wiring(devices, links) && RepliesFit(fabric, replies)
      requires Loaded(model) && batch != [] && event == batch[0]
      modifies this`calls, this`batch, this`model, links.Values, queue`lists, chunks
      ensures Valid() && batch == old(batch)[1..] && chunks == old(chunks)
      ensures CanStep(fabric, old(model)) && model == Step(fabric, old(model))
    {
      hide Inv, Wiring, RepliesFit, Step, Entries, Ready, Handle, LinksMirror, ChunksMirror;
      ghost var m := Taken(model);
      ghost var s := Step(fabric, model);
      BatchHead(queue.currentTime, batch, queue.Flat());
      StepIs(fabric, model);
      StepKeeps(fabric, model);
      batch := batch[1..];
      TakenMirrors(old(model));
      model := s;
      Dispatch(m, event);
    }

    lemma TakenMirrors(m: Sim)
      requires m.queue != [] && LinksMirror(links, fabric, chunks, m) && ChunksMirror(chunks, m)
      ensures LinksMirror(links, fabric, chunks, Taken(m)) && ChunksMirror(chunks, Taken(m))
    {
    }

    /** `Topology::send`: a new chunk is handed to the first device of its route, which sends it over its first link. This
        may happen between events and from callbacks. */
    method Send(route: seq<nat>, size: nat) returns (chunk: Chunk)
      requires Valid() && CanInject(fabric, route, size)
      modifies this`chunks, this`model, links.Values, queue`lists
      ensures Valid() && model == Inject(fabric, old(model), route, size) && batch == old(batch)
      ensures fresh(chunk) && chunks == old(chunks) + [chunk]
    {
      hide Inv, Wiring, RepliesFit, LinksMirror, ChunksMirror, LinkSend, Inject, Entries, CallsIn, Flatten;
      ghost var m := Enter(model, route, size);
      ghost var s := Inject(fabric, model, route, size);
      MayEnter(fabric, model, route, size);
      InjectKeeps(fabric, model, route, size);
      chunk := new Chunk(|chunks|, size, route);
      EnterMirrors(links, fabric, chunks, model, chunk, route, size);
      chunks := chunks + [chunk];
      model := s;
      DeviceSend(m, chunk.id);
    }

    /** Several chunks are sent, one after the other. */
    method SendAll(parcels: seq<Parcel>)
      requires Valid() && AllFit(fabric, parcels)
      modifies this`chunks, this`model, links.Values, queue`lists
      ensures Valid() && batch == old(batch)
      ensures forall i :: 0 <= i < |chunks| ==> chunks[i] in old(chunks) || fresh(chunks[i])
      ensures Run(fabric, old(model), Hands(parcels)) && model == After(fabric, old(model), Hands(parcels))
    {
      hide Inv, Wiring, RepliesFit, LinksMirror, ChunksMirror, Run, After, CanInject, Inject;
      ghost var s := model;
      RunNothing(fabric, s);
      assert Hands([]) == [];
      for i := 0 to |parcels|
        invariant Valid() && batch == old(batch)
        invariant forall i :: 0 <= i < |chunks| ==> chunks[i] in old(chunks) || fresh(chunks[i])
        invariant Run(fabric, s, Hands(parcels[..i])) && model == After(fabric, s, Hands(parcels[..i]))
      {
        ghost var acts := Hands(parcels[..i]);
        HandIsInject(fabric, s, acts, parcels[i]);
        RunSnoc(fabric, s, acts, Hand(parcels[i]));
        assert Hands(parcels[..i + 1]) == acts + [Hand(parcels[i])];
        var _ := Send(parcels[i].route, parcels[i].size);
      }
      assert parcels[..|parcels|] == parcels;
    }

    /** The next event of the batch. If it delivers a chunk, the callback of the chunk sends what it likes. */
    method InvokeEvent(event: Event) returns (ghost acts: seq<Action>)
      requires Inv(fabric, model) && Wiring(devices, links) && RepliesFit(fabric, replies)
      requires Loaded(model) && batch != [] && event == batch[0]
      modifies this`calls, this`batch, this`model, this`chunks, links.Values, queue`lists, chunks
      ensures Valid() && batch == old(batch)[1..]
      ensures forall i :: 0 <= i < |chunks| ==> chunks[i] in old(chunks) || fresh(chunks[i])
      ensures CanStep(fabric, old(model)) && acts == [Happen] + Hands(ReplyTo(old(model), replies))
      ensures old(calls) <= calls && Handed(acts) == Answers(calls[|old(calls)|..], replies)
      ensures Run(fabric, old(model), acts) && model == After(fabric, old(model), acts)
    {
      hide Inv, Wiring, RepliesFit, LinksMirror, ChunksMirror, Entries, Run, After, Step;
      ghost var s := model;
      BatchHead(queue.currentTime, batch, queue.Flat());
      HandleEvent(event);
      var reply: seq<Parcel> := [];
      if event.Arrived? {
        ArrivalSeen(fabric, s, chunks, model, event.chunk);
        if chunks[event.chunk].ArrivedDest() {
          reply := replies(event.chunk, queue.currentTime);
        }
      }
      ReplyFits(fabric, s, replies);
      SendAll(reply);
      acts := [Happen] + Hands(reply);
      HappenThen(fabric, s, Hands(reply));
      ghost var told := StepCalls(fabric, s, replies);
      assert calls[|old(calls)|..] == told;
      HappenFirst(reply);
    }

    /** `EventList::invoke_events`: the events of a list that has been taken off the queue, one after the other. */
    method InvokeEvents(events: seq<Event>) returns (ghost acts: seq<Action>)
      requires Inv(fabric, model) && Wiring(devices, links) && RepliesFit(fabric, replies)
      requires Loaded(model) && batch == events && events != []
      modifies this`calls, this`batch, this`model, this`chunks, links.Values, queue`lists, chunks
      ensures Valid() && batch == []
      ensures forall i :: 0 <= i < |chunks| ==> chunks[i] in old(chunks) || fresh(chunks[i])
      ensures Run(fabric, old(model), acts) && model == After(fabric, old(model), acts)
      ensures Answering(fabric, old(model), replies, acts, |events|)
    {
      hide Inv, Wiring, RepliesFit, LinksMirror, ChunksMirror, Entries, Run, After, Step, Answering, ReplyTo, CallsIn, Flatten;
      var list := events;
      acts := [];
      RunNothing(fabric, model);
      AnsweringNothing(fabric, model, replies);
      while list != []
        invariant batch == list && Inv(fabric, model) && Loaded(model) && |list| <= |events|
        invariant forall i :: 0 <= i < |chunks| ==> chunks[i] in old(chunks) || fresh(chunks[i])
        invariant Run(fabric, old(model), acts) && model == After(fabric, old(model), acts)
        invariant Answering(fabric, old(model), replies, acts, |events| - |list|)
        invariant acts == [] ==> list != []
        invariant acts != [] ==> model.now == queue.currentTime
      {
        ghost var s := model;
        ghost var more := InvokeEvent(list[0]);
        AnsweringMore(fabric, old(model), replies, acts, s, more, |events| - |list|);
        list := list[1..];
        acts := acts + more;
      }
    }

    /** `EventQueue::proceed`: the first event list is taken off the queue, the clock moves to it, and its events are
        invoked; what they schedule goes into the queue that is left. */
    method Proceed() returns (ghost acts: seq<Action>, ghost k: nat)
      requires Valid() && batch == [] && !queue.Finished()
      modifies this`calls, this`batch, this`model, this`chunks, links.Values, queue, chunks
      ensures Valid() && batch == []
      ensures forall i :: 0 <= i < |chunks| ==> chunks[i] in old(chunks) || fresh(chunks[i])
      ensures Run(fabric, old(model), acts) && model == After(fabric, old(model), acts)
      ensures k > 0 && Answering(fabric, old(model), replies, acts, k)
      ensures old(model).queue != [] && old(queue.currentTime) <= queue.currentTime == old(model).queue[0].time
    {
      hide Inv, Wiring, RepliesFit, LinksMirror, ChunksMirror, Run, After, Step, Answering;
      var list := queue.Advance();
      batch := list;
      BatchHead(queue.currentTime, batch, queue.Flat());
      NoBatch(old(queue.currentTime), old(queue.Flat()));
      acts := InvokeEvents(list);
      k := |list|;
    }

    /** The user's loop: as long as there are events, proceed. It comes to an end if only the callbacks of finitely many
        chunks send anything. */
    method Simulate(ghost bound: nat) returns (ghost acts: seq<Action>)
      requires Valid() && batch == [] && Finite(replies, bound)
      modifies this`calls, this`batch, this`model, this`chunks, links.Values, queue, chunks
      ensures Valid() && batch == []
      ensures Run(fabric, old(model), acts) && model == After(fabric, old(model), acts)
      ensures Events(acts) == Makespan.EventsLeft(old(model)) + 2 * Makespan.HopCount(Handed(acts))
      ensures old(calls) <= calls && Handed(acts) == Answers(calls[|old(calls)|..], replies)
      ensures model.queue == [] && queue.Finished()
    {
      hide Inv, Wiring, RepliesFit, LinksMirror, ChunksMirror, Run, After, Step, Makespan.EventsLeft, Answering, Finite, Answers,
        CallsIn;
      acts := [];
      NoAnswers(calls, replies);
      RunNothing(fabric, model);
      while !queue.Finished()
        invariant Valid() && batch == []
        invariant forall i :: 0 <= i < |chunks| ==> chunks[i] in old(chunks) || fresh(chunks[i])
        invariant Run(fabric, old(model), acts) && model == After(fabric, old(model), acts)
        invariant calls == CallsIn(model.log)
        invariant old(calls) <= calls && Handed(acts) == Answers(calls[|old(calls)|..], replies)
        decreases Unfinished(model.chunks, bound), Makespan.EventsLeft(model)
      {
        ghost var was := model;
        ghost var more, k := Proceed();
        ProceedProgress(fabric, was, replies, more, k, bound);
        ghost var told := AnsweringHands(fabric, was, replies, more, k);
        MoreAnswers(old(calls), CallsIn(was.log), told, replies);
        RunConcat(fabric, old(model), acts, more);
        acts := acts + more;
      }
      Makespan.NoEventsLeft(fabric, model);
      Makespan.RunEvents(fabric, old(model), acts);
    }
  }

  /** Proceeding either hands in nothing and takes the simulation closer to its end, or finishes a chunk whose callback
      sends. */
  lemma ProceedProgress(f: Fabric, s: Sim, replies: Reply, acts: seq<Action>, k: nat, bound: nat)
    requires Run(f, s, acts) && Answering(f, s, replies, acts, k) && k > 0 && Finite(replies, bound)
    ensures Unfinished(After(f, s, acts).chunks, bound) <= Unfinished(s.chunks, bound)
    ensures Handed(acts) == [] ==> Makespan.EventsLeft(After(f, s, acts)) < Makespan.EventsLeft(s)
    ensures Handed(acts) != [] ==> Unfinished(After(f, s, acts).chunks, bound) < Unfinished(s.chunks, bound)
  {
    hide Run, After, Answering, Finite, Makespan.EventsLeft;
    AnsweringEvents(f, s, replies, acts, k);
    AnsweringProgress(f, s, replies, acts, k, bound);
    RunShrinks(f, s, acts);
    ShrinksUnfinished(s.chunks, After(f, s, acts).chunks, bound);
    Makespan.RunEvents(f, s, acts);
  }

  lemma NoAnswers(calls: seq<Obs>, replies: Reply)
    ensures Answers(calls[|calls|..], replies) == []
  {
  }

  lemma MoreAnswers(start: seq<Obs>, calls: seq<Obs>, told: seq<Obs>, replies: Reply)
    requires start <= calls
    ensures start <= calls + told
    ensures Answers((calls + told)[|start|..], replies) == Answers(calls[|start|..], replies) + Answers(told, replies)
  {
    assert (calls + told)[|start|..] == calls[|start|..] + told;
    AnswersConcat(calls[|start|..], told, replies);
  }

  lemma AnsweringNothing(f: Fabric, s: Sim, replies: Reply)
    ensures Answering(f, s, replies, [], 0)
  {
  }

  lemma AnsweringMore(f: Fabric, s: Sim, replies: Reply, prior: seq<Action>, t: Sim, more: seq<Action>, k: nat)
    requires Run(f, s, prior) && Answering(f, s, replies, prior, k) && t == After(f, s, prior)
    requires CanStep(f, t) && more == [Happen] + Hands(ReplyTo(t, replies)) && Run(f, t, more)
    ensures Run(f, s, prior + more) && After(f, s, prior + more) == After(f, t, more)
    ensures Answering(f, s, replies, prior + more, k + 1)
  {
    hide Inv, Run, After, ReplyTo;
    RunConcat(f, s, prior, more);
    assert OneMore(f, s, replies, prior, prior + more);
  }

  lemma ReplyFits(f: Fabric, s: Sim, replies: Reply)
    requires RepliesFit(f, replies) && s.queue != []
    ensures AllFit(f, ReplyTo(s, replies)) && AllFit(f, [])
  {
  }

  lemma HappenThen(f: Fabric, s: Sim, rest: seq<Action>)
    requires CanStep(f, s) && Run(f, Step(f, s), rest)
    ensures Run(f, s, [Happen] + rest) && After(f, s, [Happen] + rest) == After(f, Step(f, s), rest)
  {
    hide Inv, Step;
    RunCons(f, s, Happen, rest);
  }

  /** Whether an arrival was the last one of the chunk can be told from the chunk. */
  lemma ArrivalSeen(f: Fabric, s: Sim, chunks: seq<Chunk>, m: Sim, c: nat)
    requires CanStep(f, s) && s.queue[0].event == Arrived(c) && m == Step(f, s) && ChunksMirror(chunks, m)
    ensures c < |chunks| && c < |s.chunks| && (chunks[c].ArrivedDest() <==> |s.chunks[c].route| == 2)
  {
    hide Inv, Step;
    StepShrinks(f, s);
    assert ChunkMirrors(chunks[c], m.chunks[c]);
  }

  lemma MayEnter(f: Fabric, s: Sim, route: seq<nat>, size: nat)
    requires Inv(f, s) && CanInject(f, route, size)
    ensures CanStart(f, Enter(s, route, size), Hop(route), |s.chunks|)
    ensures Inject(f, s, route, size) == LinkSend(f, Enter(s, route, size), Hop(route), |s.chunks|)
  {
    EnterKeeps(f, s, route, size);
    assert LinkId(route[0], route[0 + 1]) in f;
  }

  lemma EnterMirrors(links: map<LinkId, Link>, f: Fabric, chunks: seq<Chunk>, m: Sim, c: Chunk, route: seq<nat>, size: nat)
    requires LinksMirror(links, f, chunks, m) && ChunksMirror(chunks, m)
    requires c.id == |chunks| && c.size == size && c.route == route
    ensures LinksMirror(links, f, chunks + [c], Enter(m, route, size)) && ChunksMirror(chunks + [c], Enter(m, route, size))
  {
    forall l | l in links ensures LinkMirrors(links[l], m.links[l], chunks + [c]) {
      assert LinkMirrors(links[l], m.links[l], chunks);
      assert forall p :: Known(p, chunks) ==> Known(p, chunks + [c]);
    }
  }

  lemma NoBatch(now: nat, flat: seq<Entry<Event>>)
    ensures Entries<Event>(now, []) + flat == flat
  {
  }

  lemma LinkKnown(links: map<LinkId, Link>, f: Fabric, chunks: seq<Chunk>, m: Sim, l: LinkId)
    requires LinksMirror(links, f, chunks, m) && l in f
    ensures l in links
  {
  }

  lemma BatchHead(now: nat, batch: seq<Event>, flat: seq<Entry<Event>>)
    requires batch != []
    ensures var q := Entries(now, batch) + flat;
            q != [] && q[0] == Entry(now, batch[0]) && q[1..] == Entries(now, batch[1..]) + flat
  {
  }

  ghost predicate Ready(f: Fabric, m: Sim, event: Event) {
    match event
    case Arrived(c) =>
      && c < |m.chunks| && |m.chunks[c].route| >= 2
      && (|m.chunks[c].route| > 2 ==> CanStart(f, m, Hop(m.chunks[c].route[1..]), c))
    case Free(l) =>
      && l in f && f[l].Valid() && l in m.links
      && (m.links[l].pending != [] ==> m.links[l].pending[0] < |m.chunks|)
  }

  /** What an event does once it has been taken off the queue. */
  ghost function Handle(f: Fabric, m: Sim, event: Event): Sim
    requires Ready(f, m, event)
  {
    match event
    case Arrived(c) => Arrive(f, m, c)
    case Free(l) => BecomeFree(f, m, l)
  }

  lemma StepIs(f: Fabric, s: Sim)
    requires CanStep(f, s)
    ensures s.queue != [] && Ready(f, Taken(s), s.queue[0].event) && Step(f, s) == Handle(f, Taken(s), s.queue[0].event)
  {
    if s.queue[0].event.Arrived? {
      ArriveShape(f, s, s.queue[0].event.chunk);
    } else {
      FreeShape(f, s, s.queue[0].event.link);
    }
  }

  lemma LandFacts(m: Sim, c: nat)
    requires c < |m.chunks| && |m.chunks[c].route| >= 2
    ensures var t, route := Land(m, c), m.chunks[c].route;
            && t.now == m.now && t.queue == m.queue && t.links == m.links && |t.chunks| == |m.chunks|
            && (forall d :: 0 <= d < |m.chunks| && d != c ==> t.chunks[d] == m.chunks[d])
            && t.chunks[c].size == m.chunks[c].size && t.chunks[c].route == route[1..]
            && CallsIn(t.log) == if |route| == 2 then CallsIn(m.log) + [Called(route[1], c, m.now)] else CallsIn(m.log)
  {
    var route := m.chunks[c].route;
    CallsSnoc(m.log, Landed(Hop(route), c));
    CallsSnoc(m.log + [Landed(Hop(route), c)], Called(route[1], c, m.now));
  }

  method Advance(c: Chunk, ghost s: ChunkState, ghost s': ChunkState)
    requires ChunkMirrors(c, s) && |s.route| >= 2 && s'.size == s.size && s'.route == s.route[1..]
    modifies c
    ensures ChunkMirrors(c, s')
  {
    c.MarkArrivedNextDevice();
  }

  method FreeUp(k: Link, chunks: seq<Chunk>, queue: EventQueue<Event>, ghost s: LinkState, ghost s': LinkState)
    requires LinkMirrors(k, s, chunks) && k.wire.Valid() && queue.Valid()
    requires (s'.busy <==> s.pending != []) && s'.pending == if s'.busy then s.pending[1..] else []
    modifies k, queue`lists
    ensures LinkMirrors(k, s', chunks) && queue.Valid()
    ensures s.pending != [] ==> s.pending[0] < |chunks|
    ensures queue.Flat() == if s'.busy then k.Scheduled(old(queue.Flat()), queue.currentTime, chunks[s.pending[0]])
                            else old(queue.Flat())
  {
    assert s.pending != [] ==> Known(k.pendingChunks[0], chunks) && s.pending[0] == k.pendingChunks[0].id;
    k.BecomeFree(queue);
    assert Ids(old(k.pendingChunks)) == s.pending;
  }

  lemma FreeFacts(f: Fabric, m: Sim, batch: seq<Event>, flat: seq<Entry<Event>>, l: LinkId)
    requires l in f && f[l].Valid() && l in m.links && m.queue == Entries(m.now, batch) + flat
    requires m.links[l].pending != [] ==> m.links[l].pending[0] < |m.chunks|
    ensures var t, pending := BecomeFree(f, m, l), m.links[l].pending;
            && t.now == m.now && t.links.Keys == m.links.Keys && CallsIn(t.log) == CallsIn(m.log)
            && (forall j :: j in m.links && j != l ==> t.links[j] == m.links[j])
            && (t.links[l].busy <==> pending != [])
            && t.links[l].pending == (if pending != [] then pending[1..] else [])
            && |t.chunks| == |m.chunks|
            && (forall d :: 0 <= d < |m.chunks| ==> t.chunks[d].size == m.chunks[d].size && t.chunks[d].route == m.chunks[d].route)
            && t.queue == Entries(m.now, batch) +
                 if pending == [] then flat
                 else Insert(Insert(flat, m.now + f[l].CommunicationDelay(m.chunks[pending[0]].size), Arrived(pending[0])),
                             m.now + f[l].SerializationDelay(m.chunks[pending[0]].size), Free(l))
  {
    hide Insert, Entries, CallsIn, Transmit, Wire.CommunicationDelay, Wire.SerializationDelay;
    var t, pending := Network.SetFree(m, l), m.links[l].pending;
    if pending != [] {
      var u := PopPending(t, l);
      TransmitShape(f, u, l, pending[0]);
      TransmitFacts(f, u, batch, flat, l, pending[0]);
    }
  }

  lemma TransmitShape(f: Fabric, m: Sim, l: LinkId, c: nat)
    requires CanStart(f, m, l, c)
    ensures var t := Transmit(f, m, l, c);
            && t.now == m.now && t.links.Keys == m.links.Keys
            && (forall j :: j in m.links && j != l ==> t.links[j] == m.links[j])
            && t.links[l].busy && t.links[l].pending == m.links[l].pending
            && |t.chunks| == |m.chunks|
            && (forall d :: 0 <= d < |m.chunks| ==> t.chunks[d].size == m.chunks[d].size && t.chunks[d].route == m.chunks[d].route)
  {
  }

  lemma TransmitFacts(f: Fabric, m: Sim, batch: seq<Event>, flat: seq<Entry<Event>>, l: LinkId, c: nat)
    requires CanStart(f, m, l, c) && m.queue == Entries(m.now, batch) + flat
    ensures var t, size := Transmit(f, m, l, c), m.chunks[c].size;
            && CallsIn(t.log) == CallsIn(m.log)
            && t.queue == Entries(m.now, batch) +
                 Insert(Insert(flat, m.now + f[l].CommunicationDelay(size), Arrived(c)),
                        m.now + f[l].SerializationDelay(size), Free(l))
  {
    var size := m.chunks[c].size;
    var arrival, free := m.now + f[l].CommunicationDelay(size), m.now + f[l].SerializationDelay(size);
    CallsSnoc(m.log, Started(l, c, size, m.now));
    InsertBehind(Entries(m.now, batch), flat, arrival, Arrived(c));
    InsertBehind(Entries(m.now, batch), Insert(flat, arrival, Arrived(c)), free, Free(l));
  }

  /** A send in the state, and what its pieces are. */
  lemma SendFacts(f: Fabric, m: Sim, batch: seq<Event>, flat: seq<Entry<Event>>, l: LinkId, c: nat)
    requires CanStart(f, m, l, c) && m.queue == Entries(m.now, batch) + flat
    ensures var t, k, size := LinkSend(f, m, l, c), m.links[l], m.chunks[c].size;
            && t.now == m.now && t.links.Keys == m.links.Keys && CallsIn(t.log) == CallsIn(m.log)
            && (forall j :: j in m.links && j != l ==> t.links[j] == m.links[j])
            && t.links[l].busy
            && t.links[l].pending == (if k.busy then k.pending + [c] else k.pending)
            && |t.chunks| == |m.chunks|
            && (forall d :: 0 <= d < |m.chunks| ==> t.chunks[d].size == m.chunks[d].size && t.chunks[d].route == m.chunks[d].route)
            && t.queue == Entries(m.now, batch) +
                 if k.busy then flat
                 else Insert(Insert(flat, m.now + f[l].CommunicationDelay(size), Arrived(c)),
                             m.now + f[l].SerializationDelay(size), Free(l))
  {
    hide Entries, CallsIn, Transmit, Wire.CommunicationDelay, Wire.SerializationDelay;
    CallsSnoc(m.log, Sent(l, c));
    if !m.links[l].busy {
      var u := m.(log := m.log + [Sent(l, c)]);
      TransmitShape(f, u, l, c);
      TransmitFacts(f, u, batch, flat, l, c);
    }
  }

  lemma ChunkSize(c: Chunk, s: ChunkState)
    requires ChunkMirrors(c, s)
    ensures c.size == s.size && c.route == s.route
  {
  }

  method SendOver(d: Device, c: Chunk, chunks: seq<Chunk>, queue: EventQueue<Event>, ghost k: Link,
                  ghost s: LinkState, ghost s': LinkState)
    requires d.Valid() && |c.route| >= 2 && c.route[0] == d.id && c.route[1] in d.links && d.links[c.route[1]] == k
    requires LinkMirrors(k, s, chunks) && queue.Valid() && Known(c, chunks)
    requires s'.busy && s'.pending == if s.busy then s.pending + [c.id] else s.pending
    modifies k, queue`lists
    ensures LinkMirrors(k, s', chunks) && queue.Valid()
    ensures queue.Flat() == if s.busy then old(queue.Flat()) else k.Scheduled(old(queue.Flat()), queue.currentTime, c)
  {
    d.Send(c, queue);
  }

  lemma StartMirrors(devices: seq<Device>, queue: EventQueue<Event>, links: map<LinkId, Link>)
    requires Wiring(devices, links) && forall l :: l in links ==> Idle(links[l])
    requires queue.Valid() && queue.currentTime == 0 && queue.Finished()
    ensures var m := Init(FabricOf(links));
            && Inv(FabricOf(links), m) && LinksMirror(links, FabricOf(links), [], m) && ChunksMirror([], m)
            && m.now == 0 && m.queue == Entries<Event>(0, []) + queue.Flat() && CallsIn(m.log) == []
  {
    hide Inv;
    var f := FabricOf(links);
    forall l | l in links ensures links[l].id == l && f[l] == links[l].wire && f[l].Valid() {
      DeviceHas(devices, links, l);
    }
    InitInv(f);
  }

  lemma DeviceHas(devices: seq<Device>, links: map<LinkId, Link>, l: LinkId)
    requires Wiring(devices, links) && l in links
    ensures l.src < |devices| && devices[l.src].id == l.src && devices[l.src].Valid()
    ensures l.dest in devices[l.src].links && devices[l.src].links[l.dest] == links[l] && links[l].wire.Valid()
  {
  }
}
