/** The order of chunks on one link: who is served when, and who comes out first at the far side. */
module Ordering {
  import opened Links
  import opened StableQueue
  import opened Delays
  import opened Network
  import opened Runs
  import opened Makespan

  // ---------------------------------------------------------------------------------------------------------------
  // What the log says about one link
  // ---------------------------------------------------------------------------------------------------------------

  /** The chunks handed to the link, in order. */
  function SentOn(log: seq<Obs>, l: LinkId): seq<nat> {
    if log == [] then []
    else
      var o := log[|log| - 1];
      SentOn(log[..|log| - 1], l) + if o.Sent? && o.link == l then [o.chunk] else []
  }

  /** The chunks the link began to transmit, in order. */
  function StartedOn(log: seq<Obs>, l: LinkId): seq<nat> {
    if log == [] then []
    else
      var o := log[|log| - 1];
      StartedOn(log[..|log| - 1], l) + if o.Started? && o.link == l then [o.chunk] else []
  }

  /** The chunks that came out at the far side, in order. */
  function LandedOn(log: seq<Obs>, l: LinkId): seq<nat> {
    if log == [] then []
    else
      var o := log[|log| - 1];
      LandedOn(log[..|log| - 1], l) + if o.Landed? && o.link == l then [o.chunk] else []
  }

  lemma LogSnoc(log: seq<Obs>, o: Obs, l: LinkId)
    ensures SentOn(log + [o], l)
         == if o.Sent? && o.link == l then SentOn(log, l) + [o.chunk] else SentOn(log, l)
    ensures StartedOn(log + [o], l)
         == if o.Started? && o.link == l then StartedOn(log, l) + [o.chunk] else StartedOn(log, l)
    ensures LandedOn(log + [o], l)
         == if o.Landed? && o.link == l then LandedOn(log, l) + [o.chunk] else LandedOn(log, l)
  {
    assert (log + [o])[..|log|] == log;
  }

  /** The chunks on their way over the link, in the order in which their arrivals will be handled. */
  function Flying(q: seq<Entry<Event>>, chunks: seq<ChunkState>, l: LinkId): seq<nat> {
    if q == [] then []
    else (if q[0].event.Arrived? && NextHop(chunks, q[0].event.chunk, l) then [q[0].event.chunk] else [])
         + Flying(q[1..], chunks, l)
  }

  ghost predicate FlyingBy(q: seq<Entry<Event>>, chunks: seq<ChunkState>, l: LinkId, t: nat) {
    forall x :: x in q && x.event.Arrived? && NextHop(chunks, x.event.chunk, l) ==> x.time <= t
  }

  lemma {:induction false} FlyingFrame(q: seq<Entry<Event>>, chunks: seq<ChunkState>, chunks': seq<ChunkState>, l: LinkId)
    requires forall x :: x in q && x.event.Arrived? ==> (NextHop(chunks, x.event.chunk, l) <==> NextHop(chunks', x.event.chunk, l))
    ensures Flying(q, chunks, l) == Flying(q, chunks', l)
  {
    if q != [] {
      assert q[0] in q;
      FlyingFrame(q[1..], chunks, chunks', l);
    }
  }

  lemma {:induction false} FlyingNone(q: seq<Entry<Event>>, chunks: seq<ChunkState>, l: LinkId)
    requires forall x :: x in q && x.event.Arrived? ==> !NextHop(chunks, x.event.chunk, l)
    ensures Flying(q, chunks, l) == []
  {
    if q != [] {
      assert q[0] in q;
      FlyingNone(q[1..], chunks, l);
    }
  }

  lemma {:induction false} FlyingInsertOther(q: seq<Entry<Event>>, chunks: seq<ChunkState>, l: LinkId, t: nat, e: Event)
    requires e.Arrived? ==> !NextHop(chunks, e.chunk, l)
    ensures Flying(Insert(q, t, e), chunks, l) == Flying(q, chunks, l)
  {
    if q == [] || t < q[0].time {
      assert ([Entry(t, e)] + q)[1..] == q;
    } else {
      assert Insert(q, t, e)[1..] == Insert(q[1..], t, e);
      FlyingInsertOther(q[1..], chunks, l, t, e);
    }
  }

  /** A chunk that arrives no earlier than those ahead of it, and at equal times is scheduled later, is handled last. */
  lemma {:induction false} FlyingInsertLast(q: seq<Entry<Event>>, chunks: seq<ChunkState>, l: LinkId, t: nat, c: nat)
    requires Sorted(q) && FlyingBy(q, chunks, l, t) && NextHop(chunks, c, l)
    ensures Flying(Insert(q, t, Arrived(c)), chunks, l) == Flying(q, chunks, l) + [c]
  {
    if q == [] || t < q[0].time {
      assert ([Entry(t, Arrived(c))] + q)[1..] == q;
      forall x | x in q && x.event.Arrived? ensures !NextHop(chunks, x.event.chunk, l) {
        assert t < x.time;
      }
      FlyingNone(q, chunks, l);
    } else {
      assert Insert(q, t, Arrived(c))[1..] == Insert(q[1..], t, Arrived(c));
      FlyingInsertLast(q[1..], chunks, l, t, c);
    }
  }

  // ---------------------------------------------------------------------------------------------------------------
  // First sent, first served
  // ---------------------------------------------------------------------------------------------------------------

  ghost predicate Served(s: Sim, l: LinkId) {
    l in s.links ==> SentOn(s.log, l) == StartedOn(s.log, l) + s.links[l].pending
  }

  lemma SendServed(f: Fabric, s: Sim, m: LinkId, c: nat, l: LinkId)
    requires CanStart(f, s, m, c) && Served(s, l) && (!s.links[m].busy ==> s.links[m].pending == [])
    ensures Served(LinkSend(f, s, m, c), l)
  {
    LogSnoc(s.log, Sent(m, c), l);
    LogSnoc(s.log + [Sent(m, c)], Started(m, c, s.chunks[c].size, s.now), l);
  }

  lemma ArriveServed(f: Fabric, s: Sim, c: nat, l: LinkId)
    requires CanStep(f, s) && s.queue[0].event == Arrived(c) && Served(s, l)
    ensures Served(Step(f, s), l)
  {
    LandKeeps(f, s, c);
    var t := Land(Taken(s), c);
    LandOrder(Taken(s), c, l);
    if |t.chunks[c].route| != 1 {
      var m := Hop(t.chunks[c].route);
      assert LinkOk(s, Nothing, m);
      SendServed(f, t, m, c, l);
    }
  }

  lemma LandOrder(s: Sim, c: nat, l: LinkId)
    requires c < |s.chunks| && |s.chunks[c].route| >= 2
    ensures var t := Land(s, c);
            && SentOn(t.log, l) == SentOn(s.log, l)
            && StartedOn(t.log, l) == StartedOn(s.log, l)
            && LandedOn(t.log, l) == LandedOn(s.log, l) + if OnLink(s, c, l) then [c] else []
  {
    var k := s.chunks[c];
    var landed := s.log + [Landed(Hop(k.route), c)];
    LogSnoc(s.log, Landed(Hop(k.route), c), l);
    LogSnoc(landed, Called(k.route[1], c, s.now), l);
  }

  lemma BecomeFreeServed(f: Fabric, s: Sim, m: LinkId, l: LinkId)
    requires CanStep(f, s) && s.queue[0].event == Free(m) && Served(s, l)
    ensures Served(Step(f, s), l)
  {
    FreeShape(f, s, m);
    hide Step, CanStep;
    var t, pending := SetFree(Taken(s), m), s.links[m].pending;
    if pending != [] {
      TransmitServed(f, t, m, l);
    }
  }

  lemma TransmitServed(f: Fabric, s: Sim, m: LinkId, l: LinkId)
    requires m in s.links && s.links[m].pending != [] && CanStart(f, s, m, s.links[m].pending[0]) && Served(s, l)
    ensures Served(Transmit(f, PopPending(s, m), m, s.links[m].pending[0]), l)
  {
    var pending := s.links[m].pending;
    var o := Started(m, pending[0], s.chunks[pending[0]].size, s.now);
    LogSnoc(s.log, o, l);
    var t := Transmit(f, PopPending(s, m), m, pending[0]);
    assert t.log == s.log + [o];
    if m == l {
      ShiftHead(StartedOn(s.log, l), pending);
      assert t.links[l].pending == pending[1..];
    }
  }

  lemma ShiftHead<X>(a: seq<X>, b: seq<X>)
    requires b != []
    ensures a + b == (a + [b[0]]) + b[1..]
  {
  }

  lemma ActServed(f: Fabric, s: Sim, a: Action, l: LinkId)
    requires CanAct(f, s, a) && Served(s, l)
    ensures Served(Act(f, s, a), l)
  {
    match a
    case Happen =>
      if s.queue[0].event.Arrived? {
        ArriveServed(f, s, s.queue[0].event.chunk, l);
      } else {
        BecomeFreeServed(f, s, s.queue[0].event.link, l);
      }
    case Hand(p) =>
      assert LinkOk(s, Nothing, Hop(p.route));
      SendServed(f, Enter(s, p.route, p.size), Hop(p.route), |s.chunks|, l);
  }

  /** In every run, a link starts the chunks in the order in which it was given them, and those it has not started are
      the ones it holds up. */
  lemma {:induction false} FirstSentFirstServed(f: Fabric, s: Sim, acts: seq<Action>, l: LinkId)
    requires Run(f, s, acts) && Served(s, l)
    ensures Served(After(f, s, acts), l)
    decreases acts
  {
    hide CanAct, Act, Served;
    if acts != [] {
      ActServed(f, s, acts[0], l);
      FirstSentFirstServed(f, Act(f, s, acts[0]), acts[1..], l);
    }
  }

  // ---------------------------------------------------------------------------------------------------------------
  // First sent, first landed
  // ---------------------------------------------------------------------------------------------------------------

  ghost predicate Crosses(route: seq<nat>, l: LinkId) {
    exists k :: 0 <= k < |route| - 1 && LinkId(route[k], route[k + 1]) == l
  }

  /** A chunk of this size can be overtaken on the link by none that is at least as big as `least`. */
  predicate Fits(w: Wire, least: nat, size: nat)
    requires w.Valid()
  {
    least <= size && w.CommunicationDelay(size) <= w.SerializationDelay(size) + w.CommunicationDelay(least)
  }

  /** So it is with all chunks that have yet to cross the link. */
  ghost predicate SizesFit(w: Wire, chunks: seq<ChunkState>, l: LinkId, least: nat) {
    w.Valid() && forall c :: 0 <= c < |chunks| && Crosses(chunks[c].route, l) ==> Fits(w, least, chunks[c].size)
  }

  lemma NextFits(w: Wire, chunks: seq<ChunkState>, l: LinkId, least: nat, c: nat)
    requires SizesFit(w, chunks, l, least) && NextHop(chunks, c, l)
    ensures Fits(w, least, chunks[c].size)
  {
    var route := chunks[c].route;
    assert LinkId(route[0], route[0 + 1]) == l;
  }

  lemma CrossesLater(route: seq<nat>, l: LinkId)
    requires route != [] && Crosses(route[1..], l)
    ensures Crosses(route, l)
  {
    var k :| 0 <= k < |route[1..]| - 1 && LinkId(route[1..][k], route[1..][k + 1]) == l;
    assert LinkId(route[k + 1], route[k + 1 + 1]) == l;
  }

  lemma LandFits(s: Sim, c: nat, w: Wire, l: LinkId, least: nat)
    requires SizesFit(w, s.chunks, l, least) && c < |s.chunks| && |s.chunks[c].route| >= 2
    ensures SizesFit(w, Land(s, c).chunks, l, least)
  {
    hide Crosses, Fits;
    if Crosses(s.chunks[c].route[1..], l) {
      CrossesLater(s.chunks[c].route, l);
    }
  }

  lemma OccupyFits(s: Sim, m: LinkId, c: nat, arrival: nat, free: nat, w: Wire, l: LinkId, least: nat)
    requires SizesFit(w, s.chunks, l, least) && c < |s.chunks| && m in s.links
    ensures SizesFit(w, Occupy(s, m, c, arrival, free).chunks, l, least)
  {
    hide Crosses, Fits;
  }

  lemma SendFits(f: Fabric, s: Sim, m: LinkId, c: nat, w: Wire, l: LinkId, least: nat)
    requires SizesFit(w, s.chunks, l, least) && CanStart(f, s, m, c)
    ensures SizesFit(w, LinkSend(f, s, m, c).chunks, l, least)
  {
    hide SizesFit, Occupy;
    if !s.links[m].busy {
      var size := s.chunks[c].size;
      OccupyFits(s.(log := s.log + [Sent(m, c)]), m, c, s.now + f[m].CommunicationDelay(size),
                 s.now + f[m].SerializationDelay(size), w, l, least);
    }
  }

  lemma ActFits(f: Fabric, s: Sim, a: Action, w: Wire, l: LinkId, least: nat)
    requires CanAct(f, s, a) && SizesFit(w, s.chunks, l, least)
    requires a.Hand? && Crosses(a.parcel.route, l) ==> Fits(w, least, a.parcel.size)
    ensures SizesFit(w, Act(f, s, a).chunks, l, least)
  {
    hide LinkSend, Transmit, Crosses, Fits;
    match a
    case Happen =>
      StepFits(f, s, w, l, least);
    case Hand(p) =>
      EnterKeeps(f, s, p.route, p.size);
      assert LinkId(p.route[0], p.route[0 + 1]) in f;
      MayStart(f, Enter(s, p.route, p.size), Holding(|s.chunks|), Hop(p.route), |s.chunks|);
      SendFits(f, Enter(s, p.route, p.size), Hop(p.route), |s.chunks|, w, l, least);
  }

  lemma StepFits(f: Fabric, s: Sim, w: Wire, l: LinkId, least: nat)
    requires CanStep(f, s) && SizesFit(w, s.chunks, l, least)
    ensures SizesFit(w, Step(f, s).chunks, l, least)
  {
    hide Inv, InvWith, Step, SizesFit, LinkSend, Occupy;
    match s.queue[0].event
    case Arrived(c) =>
      ArriveShape(f, s, c);
      LandFits(Taken(s), c, w, l, least);
      var t := Land(Taken(s), c);
      if |s.chunks[c].route| > 2 {
        SendFits(f, t, Hop(t.chunks[c].route), c, w, l, least);
      }
    case Free(m) =>
      FreeShape(f, s, m);
      if s.links[m].pending != [] {
        var t, c := PopPending(SetFree(Taken(s), m), m), s.links[m].pending[0];
        var size := t.chunks[c].size;
        OccupyFits(t, m, c, t.now + f[m].CommunicationDelay(size), t.now + f[m].SerializationDelay(size), w, l, least);
      }
  }

  ghost predicate InOrder(f: Fabric, s: Sim, l: LinkId, least: nat)
    requires l in f && f[l].Valid()
  {
    l in s.links ==>
      && StartedOn(s.log, l) == LandedOn(s.log, l) + Flying(s.queue, s.chunks, l)
      && FlyingBy(s.queue, s.chunks, l, s.links[l].freeAt + f[l].CommunicationDelay(least))
  }

  lemma FlyingByInsert(q: seq<Entry<Event>>, chunks: seq<ChunkState>, l: LinkId, t: nat, e: Event, limit: nat)
    requires FlyingBy(q, chunks, l, limit) && (e.Arrived? && NextHop(chunks, e.chunk, l) ==> t <= limit)
    ensures FlyingBy(Insert(q, t, e), chunks, l, limit)
  {
    InsertMembers(q, t, e);
  }

  lemma FlyingByFrame(q: seq<Entry<Event>>, chunks: seq<ChunkState>, chunks': seq<ChunkState>, l: LinkId, limit: nat, limit': nat)
    requires FlyingBy(q, chunks, l, limit) && limit <= limit'
    requires forall c :: NextHop(chunks', c, l) ==> NextHop(chunks, c, l)
    ensures FlyingBy(q, chunks', l, limit')
  {
  }

  lemma OccupyFlyingOther(q: seq<Entry<Event>>, chunks: seq<ChunkState>, chunks': seq<ChunkState>, l: LinkId, limit: nat,
                          arrival: nat, c: nat, free: nat, m: LinkId)
    requires forall d :: NextHop(chunks', d, l) <==> NextHop(chunks, d, l)
    requires FlyingBy(q, chunks, l, limit) && !NextHop(chunks', c, l)
    ensures Flying(Insert(Insert(q, arrival, Arrived(c)), free, Free(m)), chunks', l) == Flying(q, chunks, l)
    ensures FlyingBy(Insert(Insert(q, arrival, Arrived(c)), free, Free(m)), chunks', l, limit)
  {
    hide FlyingBy;
    var q' := Insert(q, arrival, Arrived(c));
    FlyingFrame(q, chunks, chunks', l);
    FlyingInsertOther(q, chunks', l, arrival, Arrived(c));
    FlyingInsertOther(q', chunks', l, free, Free(m));
    FlyingByFrame(q, chunks, chunks', l, limit, limit);
    FlyingByInsert(q, chunks', l, arrival, Arrived(c), limit);
    FlyingByInsert(q', chunks', l, free, Free(m), limit);
  }

  lemma OccupyFlyingSame(q: seq<Entry<Event>>, chunks: seq<ChunkState>, chunks': seq<ChunkState>, l: LinkId, limit: nat, limit': nat,
                         arrival: nat, c: nat, free: nat)
    requires forall d :: NextHop(chunks', d, l) <==> NextHop(chunks, d, l)
    requires Sorted(q) && FlyingBy(q, chunks, l, limit) && NextHop(chunks', c, l) && limit <= arrival <= limit'
    ensures Flying(Insert(Insert(q, arrival, Arrived(c)), free, Free(l)), chunks', l) == Flying(q, chunks, l) + [c]
    ensures FlyingBy(Insert(Insert(q, arrival, Arrived(c)), free, Free(l)), chunks', l, limit')
  {
    hide FlyingBy, Sorted;
    var q' := Insert(q, arrival, Arrived(c));
    FlyingFrame(q, chunks, chunks', l);
    FlyingByFrame(q, chunks, chunks', l, limit, arrival);
    FlyingInsertLast(q, chunks', l, arrival, c);
    FlyingInsertOther(q', chunks', l, free, Free(l));
    FlyingByFrame(q, chunks, chunks', l, limit, limit');
    FlyingByInsert(q, chunks', l, arrival, Arrived(c), limit');
    FlyingByInsert(q', chunks', l, free, Free(l), limit');
  }

  lemma OccupyOther(f: Fabric, s: Sim, m: LinkId, c: nat, arrival: nat, free: nat, l: LinkId, least: nat)
    requires m in s.links && OnLink(s, c, m) && m != l && l in f && f[l].Valid() && InOrder(f, s, l, least)
    ensures InOrder(f, Occupy(s, m, c, arrival, free), l, least)
  {
    if l in s.links {
      hide FlyingBy, Flying, Insert;
      LogSnoc(s.log, Started(m, c, s.chunks[c].size, s.now), l);
      OccupyFlyingOther(s.queue, s.chunks, Occupy(s, m, c, arrival, free).chunks, l,
                        s.links[l].freeAt + f[l].CommunicationDelay(least), arrival, c, free, m);
    }
  }

  lemma OccupyParts(s: Sim, l: LinkId, c: nat, arrival: nat, free: nat)
    requires l in s.links && c < |s.chunks|
    ensures var t := Occupy(s, l, c, arrival, free);
            && t.queue == Insert(Insert(s.queue, arrival, Arrived(c)), free, Free(l))
            && l in t.links && t.links[l].freeAt == free
            && t.log == s.log + [Started(l, c, s.chunks[c].size, s.now)]
            && forall d, m :: NextHop(t.chunks, d, m) <==> NextHop(s.chunks, d, m)
  {
  }

  lemma OccupySame(f: Fabric, s: Sim, l: LinkId, c: nat, arrival: nat, free: nat, least: nat)
    requires l in s.links && c < |s.chunks| && OnLink(s, c, l) && l in f && f[l].Valid() && InOrder(f, s, l, least) && Sorted(s.queue)
    requires s.links[l].freeAt + f[l].CommunicationDelay(least) <= arrival <= free + f[l].CommunicationDelay(least)
    ensures InOrder(f, Occupy(s, l, c, arrival, free), l, least)
  {
    hide FlyingBy, Flying, Insert, Sorted, SentOn, StartedOn, LandedOn, Wire.CommunicationDelay, Occupy, NextHop;
    OccupyParts(s, l, c, arrival, free);
    LogSnoc(s.log, Started(l, c, s.chunks[c].size, s.now), l);
    OccupyFlyingSame(s.queue, s.chunks, Occupy(s, l, c, arrival, free).chunks, l,
                     s.links[l].freeAt + f[l].CommunicationDelay(least), free + f[l].CommunicationDelay(least), arrival, c, free);
    AppendAssoc(LandedOn(s.log, l), Flying(s.queue, s.chunks, l), [c]);
  }

  lemma AppendAssoc<X>(a: seq<X>, b: seq<X>, c: seq<X>)
    ensures (a + b) + c == a + (b + c)
  {
  }

  lemma MayTransmit(f: Fabric, s: Sim, l: LinkId, c: nat)
    requires InvWith(f, s, Holding(c)) && l in s.links && !s.links[l].busy && c < |s.chunks|
    ensures forall k :: k in f ==> f[k].Valid()
    ensures CanStart(f, s, l, c) && s.links[l].freeAt <= s.now && s.chunks[c].size > 0 && Sorted(s.queue)
  {
    assert LinkOk(s, Holding(c), l);
  }

  lemma TransmitInOrder(f: Fabric, s: Sim, m: LinkId, c: nat, l: LinkId, least: nat)
    requires InvWith(f, s, Holding(c)) && m in s.links && !s.links[m].busy && OnLink(s, c, m)
    requires l in f && SizesFit(f[l], s.chunks, l, least) && InOrder(f, s, l, least)
    ensures InOrder(f, Transmit(f, s, m, c), l, least)
  {
    hide InvWith, InOrder, Occupy;
    MayTransmit(f, s, m, c);
    var size := s.chunks[c].size;
    var arrival, free := s.now + f[m].CommunicationDelay(size), s.now + f[m].SerializationDelay(size);
    if m == l {
      NextFits(f[l], s.chunks, l, least, c);
      DelaysMonotone(f[l], least, size);
      OccupySame(f, s, l, c, arrival, free, least);
    } else {
      OccupyOther(f, s, m, c, arrival, free, l, least);
    }
  }

  lemma SendInOrder(f: Fabric, s: Sim, m: LinkId, c: nat, l: LinkId, least: nat)
    requires InvWith(f, s, Holding(c)) && m in s.links && OnLink(s, c, m)
    requires l in f && SizesFit(f[l], s.chunks, l, least) && InOrder(f, s, l, least)
    ensures InOrder(f, LinkSend(f, s, m, c), l, least)
  {
    var t := s.(log := s.log + [Sent(m, c)]);
    SameButLog(f, s, t, Holding(c));
    hide InvWith, FlyingBy, Flying, Crosses, Fits;
    LogSnoc(s.log, Sent(m, c), l);
    assert InOrder(f, t, l, least);
    if !s.links[m].busy {
      TransmitInOrder(f, t, m, c, l, least);
    }
  }

  lemma LandInOrder(f: Fabric, s: Sim, c: nat, l: LinkId, least: nat)
    requires CanStep(f, s) && s.queue[0].event == Arrived(c)
    requires l in f && InOrder(f, s, l, least)
    ensures c < |s.chunks| && |s.chunks[c].route| >= 2
    ensures InOrder(f, Land(Taken(s), c), l, least)
  {
    LandKeeps(f, s, c);
    TakenKeeps(s);
    hide InvWith;
    var t := Land(Taken(s), c);
    LandOrder(Taken(s), c, l);
    FlyingFrame(t.queue, s.chunks, t.chunks, l);
    LandedShift(LandedOn(s.log, l), c, Flying(t.queue, s.chunks, l));
  }

  lemma LandedShift(a: seq<nat>, c: nat, b: seq<nat>)
    ensures a + ([c] + b) == (a + [c]) + b
    ensures a + ([] + b) == (a + []) + b == a + b
  {
  }

  lemma ArriveInOrder(f: Fabric, s: Sim, c: nat, l: LinkId, least: nat)
    requires CanStep(f, s) && s.queue[0].event == Arrived(c)
    requires l in f && SizesFit(f[l], s.chunks, l, least) && InOrder(f, s, l, least)
    ensures InOrder(f, Step(f, s), l, least)
  {
    LandInOrder(f, s, c, l, least);
    LandKeeps(f, s, c);
    ArriveShape(f, s, c);
    var t := Land(Taken(s), c);
    hide Step, CanStep, InOrder, Crosses, Fits;
    LandFits(Taken(s), c, f[l], l, least);
    if |t.chunks[c].route| != 1 {
      SendInOrder(f, t, Hop(t.chunks[c].route), c, l, least);
    }
  }

  lemma FreeInOrder(f: Fabric, s: Sim, m: LinkId, l: LinkId, least: nat)
    requires QueueOk(s) && s.queue != [] && s.queue[0].event == Free(m) && m in s.links
    requires l in f && f[l].Valid() && InOrder(f, s, l, least)
    ensures InOrder(f, SetFree(Taken(s), m), l, least)
    ensures s.links[m].pending != [] ==> InOrder(f, PopPending(SetFree(Taken(s), m), m), l, least)
  {
    TakenKeeps(s);
  }

  lemma BecomeFreeInOrder(f: Fabric, s: Sim, m: LinkId, l: LinkId, least: nat)
    requires CanStep(f, s) && s.queue[0].event == Free(m)
    requires l in f && SizesFit(f[l], s.chunks, l, least) && InOrder(f, s, l, least)
    ensures InOrder(f, Step(f, s), l, least)
  {
    FreeKeeps(f, s, m);
    FreeShape(f, s, m);
    FreeInOrder(f, s, m, l, least);
    hide Step, CanStep, InvWith, InOrder, Crosses, Fits;
    var t := SetFree(Taken(s), m);
    if t.links[m].pending != [] {
      TransmitInOrder(f, PopPending(t, m), m, t.links[m].pending[0], l, least);
    }
  }

  lemma ActInOrder(f: Fabric, s: Sim, a: Action, l: LinkId, least: nat)
    requires CanAct(f, s, a)
    requires l in f && SizesFit(f[l], s.chunks, l, least) && InOrder(f, s, l, least)
    requires a.Hand? && Crosses(a.parcel.route, l) ==> Fits(f[l], least, a.parcel.size)
    ensures InOrder(f, Act(f, s, a), l, least)
  {
    match a
    case Happen =>
      hide InOrder, Crosses, Fits;
      if s.queue[0].event.Arrived? {
        ArriveInOrder(f, s, s.queue[0].event.chunk, l, least);
      } else {
        BecomeFreeInOrder(f, s, s.queue[0].event.link, l, least);
      }
    case Hand(p) =>
      var t := Enter(s, p.route, p.size);
      EnterKeeps(f, s, p.route, p.size);
      FlyingFrame(s.queue, s.chunks, t.chunks, l);
      assert InOrder(f, t, l, least);
      hide InOrder, Crosses, Fits, InvWith;
      SendInOrder(f, t, Hop(p.route), |s.chunks|, l, least);
  }

  ghost predicate AllFitting(w: Wire, parcels: seq<Parcel>, l: LinkId, least: nat) {
    w.Valid() && forall i :: 0 <= i < |parcels| && Crosses(parcels[i].route, l) ==> Fits(w, least, parcels[i].size)
  }

  lemma RestFits(w: Wire, acts: seq<Action>, l: LinkId, least: nat)
    requires acts != [] && AllFitting(w, Handed(acts), l, least)
    ensures AllFitting(w, Handed(acts[1..]), l, least)
    ensures acts[0].Hand? && Crosses(acts[0].parcel.route, l) ==> Fits(w, least, acts[0].parcel.size)
  {
    hide Crosses, Fits;
    var rest := Handed(acts[1..]);
    assert acts[0].Hand? ==> Handed(acts)[0] == acts[0].parcel;
    assert forall i :: 0 <= i < |rest| ==> rest[i] == Handed(acts)[if acts[0].Happen? then i else i + 1];
  }

  lemma {:induction false} RunInOrder(f: Fabric, s: Sim, acts: seq<Action>, l: LinkId, least: nat)
    requires Run(f, s, acts)
    requires l in f && f[l].Valid() && SizesFit(f[l], s.chunks, l, least) && InOrder(f, s, l, least)
    requires AllFitting(f[l], Handed(acts), l, least)
    ensures InOrder(f, After(f, s, acts), l, least)
    decreases acts
  {
    hide CanAct, Act, InOrder, SizesFit, Crosses, Fits, AllFitting;
    if acts != [] {
      RestFits(f[l], acts, l, least);
      ActInOrder(f, s, acts[0], l, least);
      ActFits(f, s, acts[0], f[l], l, least);
      RunInOrder(f, Act(f, s, acts[0]), acts[1..], l, least);
    }
  }

  /** Only chunks of these sizes are sent over the link. */
  ghost predicate OfSizes(parcels: seq<Parcel>, l: LinkId, sizes: iset<nat>) {
    forall i :: 0 <= i < |parcels| && Crosses(parcels[i].route, l) ==> parcels[i].size in sizes
  }

  /** On a link whose delays keep chunks of these sizes in order, chunks are handled at the far side in the order they were
      sent, in every run that sends only such over it; when nothing is left to happen, all of them have been. */
  lemma FirstSentFirstLanded(f: Fabric, acts: seq<Action>, l: LinkId, sizes: iset<nat>)
    requires Run(f, Init(f), acts) && l in f && f[l].Valid()
    requires KeepsOrder(f[l], sizes) && OfSizes(Handed(acts), l, sizes)
    ensures var t := After(f, Init(f), acts);
            && LandedOn(t.log, l) <= SentOn(t.log, l)
            && (t.queue == [] ==> LandedOn(t.log, l) == SentOn(t.log, l))
  {
    hide CanAct, Act, Inv;
    RunKeeps(f, Init(f), acts);
    FirstSentFirstServed(f, Init(f), acts, l);
    var least := LeastFits(f[l], sizes);
    RunInOrder(f, Init(f), acts, l, least);
    LinksStay(f, After(f, Init(f), acts), l);
  }

  lemma LeastFits(w: Wire, sizes: iset<nat>) returns (least: nat)
    requires w.Valid() && KeepsOrder(w, sizes)
    ensures forall size :: size in sizes ==> Fits(w, least, size)
  {
    if size :| size in sizes {
      least := LeastOf(sizes, size);
    } else {
      least := 0;
    }
  }

  lemma LinksStay(f: Fabric, s: Sim, l: LinkId)
    requires Inv(f, s) && l in f
    ensures l in s.links && (s.queue == [] ==> s.links[l].pending == [])
  {
    if s.queue == [] {
      QuietIsDone(f, s, PerHop());
    }
  }
}
