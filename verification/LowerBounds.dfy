/** Why a run cannot be shorter than its busiest link or its slowest chunk, and the resulting bounds on its length. */
module LowerBounds {
  import opened Links
  import opened Network
  import opened Runs
  import opened Accounting
  import opened Makespan

  function ServiceTime(f: Fabric, l: LinkId, size: nat): nat {
    if l in f && f[l].Valid() then f[l].SerializationDelay(size) else 0
  }

  /** Time taken on link `l` alone. */
  function OnWire(f: Fabric, l: LinkId): Weight {
    (m: LinkId, c: nat, size: nat) => if m == l then ServiceTime(f, m, size) else 0
  }

  /** Time chunk `c` alone spends travelling. */
  function OfChunk(f: Fabric, c: nat): Weight {
    (m: LinkId, d: nat, size: nat) => if d == c then TravelTime(f, m, size) else 0
  }

  /** When the current stage of a chunk's journey ends, as far as is known. */
  function Reached(s: Sim, c: nat): nat {
    if c >= |s.chunks| then 0
    else match s.chunks[c].phase
      case Waiting => s.now
      case InFlight(at) => at
      case Delivered(at) => at
  }

  ghost predicate LinkLower(f: Fabric, s: Sim, l: LinkId) {
    l in s.links ==> WorkDone(OnWire(f, l), s.log) <= s.links[l].freeAt
  }

  ghost predicate ChunkLower(f: Fabric, s: Sim, c: nat) {
    WorkDone(OfChunk(f, c), s.log) <= Reached(s, c)
  }

  ghost predicate BoundsOk(f: Fabric, s: Sim, l: LinkId, c: nat) {
    LinkLower(f, s, l) && ChunkLower(f, s, c)
  }

  lemma TransmitBounds(f: Fabric, s: Sim, m: LinkId, d: nat, l: LinkId, c: nat)
    requires InvWith(f, s, Holding(d)) && m in s.links && !s.links[m].busy && OnLink(s, d, m)
    requires BoundsOk(f, s, l, c)
    ensures BoundsOk(f, Transmit(f, s, m, d), l, c)
  {
    assert LinkOk(s, Holding(d), m);
    var size := s.chunks[d].size;
    var arrival, free := s.now + f[m].CommunicationDelay(size), s.now + f[m].SerializationDelay(size);
    OccupyWork(OnWire(f, l), s, m, d, arrival, free);
    OccupyWork(OfChunk(f, c), s, m, d, arrival, free);
  }

  lemma SendBounds(f: Fabric, s: Sim, m: LinkId, d: nat, l: LinkId, c: nat)
    requires InvWith(f, s, Holding(d)) && m in s.links && OnLink(s, d, m)
    requires BoundsOk(f, s, l, c)
    ensures BoundsOk(f, LinkSend(f, s, m, d), l, c)
  {
    var t := s.(log := s.log + [Sent(m, d)]);
    WorkDoneSnoc(OnWire(f, l), s.log, Sent(m, d));
    WorkDoneSnoc(OfChunk(f, c), s.log, Sent(m, d));
    if !s.links[m].busy {
      SameButLog(f, s, t, Holding(d));
      TransmitBounds(f, t, m, d, l, c);
    }
  }

  lemma BoundsSame(f: Fabric, s: Sim, t: Sim, l: LinkId, c: nat)
    requires BoundsOk(f, s, l, c) && t.chunks == s.chunks && t.log == s.log && s.now <= t.now
    requires t.links.Keys == s.links.Keys && forall k :: k in s.links ==> t.links[k].freeAt == s.links[k].freeAt
    ensures BoundsOk(f, t, l, c)
  {
    hide OnWire, OfChunk, WorkDone;
  }

  lemma NoEarlier(f: Fabric, s: Sim)
    requires CanStep(f, s)
    ensures s.now <= Taken(s).now
  {
    assert s.queue[0] in s.queue;
  }

  lemma LandBounds(f: Fabric, s: Sim, d: nat, l: LinkId, c: nat)
    requires d < |s.chunks| && |s.chunks[d].route| >= 2 && s.chunks[d].phase == InFlight(s.now) && BoundsOk(f, s, l, c)
    ensures BoundsOk(f, Land(s, d), l, c)
  {
    hide OnWire, OfChunk, WorkDone;
    LandWork(OnWire(f, l), s, d);
    LandWork(OfChunk(f, c), s, d);
  }

  lemma ArriveBounds(f: Fabric, s: Sim, d: nat, l: LinkId, c: nat)
    requires CanStep(f, s) && s.queue[0].event == Arrived(d) && BoundsOk(f, s, l, c)
    ensures BoundsOk(f, Step(f, s), l, c)
  {
    hide InvWith, Inv, BoundsOk, LinkSend, Step, OnWire, OfChunk;
    LandKeeps(f, s, d);
    ArriveShape(f, s, d);
    NoEarlier(f, s);
    var t := Land(Taken(s), d);
    BoundsSame(f, s, Taken(s), l, c);
    LandBounds(f, Taken(s), d, l, c);
    if |t.chunks[d].route| != 1 {
      SendBounds(f, t, Hop(t.chunks[d].route), d, l, c);
    }
  }

  lemma BecomeFreeBounds(f: Fabric, s: Sim, m: LinkId, l: LinkId, c: nat)
    requires CanStep(f, s) && s.queue[0].event == Free(m) && BoundsOk(f, s, l, c)
    ensures BoundsOk(f, Step(f, s), l, c)
  {
    hide InvWith, Inv, BoundsOk, Transmit, Step;
    FreeShape(f, s, m);
    FreeKeeps(f, s, m);
    NoEarlier(f, s);
    var t := SetFree(Taken(s), m);
    BoundsSame(f, s, t, l, c);
    if t.links[m].pending != [] {
      BoundsSame(f, s, PopPending(t, m), l, c);
      TransmitBounds(f, PopPending(t, m), m, t.links[m].pending[0], l, c);
    }
  }

  lemma ActBounds(f: Fabric, s: Sim, a: Action, l: LinkId, c: nat)
    requires CanAct(f, s, a) && BoundsOk(f, s, l, c)
    ensures BoundsOk(f, Act(f, s, a), l, c)
  {
    match a
    case Happen =>
      if s.queue[0].event.Arrived? {
        ArriveBounds(f, s, s.queue[0].event.chunk, l, c);
      } else {
        BecomeFreeBounds(f, s, s.queue[0].event.link, l, c);
      }
    case Hand(p) =>
      EnterKeeps(f, s, p.route, p.size);
      hide InvWith, OnWire, OfChunk;
      SendBounds(f, Enter(s, p.route, p.size), Hop(p.route), |s.chunks|, l, c);
  }

  lemma {:induction false} RunBounds(f: Fabric, s: Sim, acts: seq<Action>, l: LinkId, c: nat)
    requires Run(f, s, acts) && BoundsOk(f, s, l, c)
    ensures BoundsOk(f, After(f, s, acts), l, c)
    decreases acts
  {
    hide CanAct, Act, BoundsOk;
    if acts != [] {
      ActBounds(f, s, acts[0], l, c);
      RunBounds(f, Act(f, s, acts[0]), acts[1..], l, c);
    }
  }

  // ---------------------------------------------------------------------------------------------------------------
  // The length of a run
  // ---------------------------------------------------------------------------------------------------------------

  /** The time a chunk takes with the network to itself. */
  function Alone(f: Fabric, p: Parcel): nat {
    RouteWork(PerArrival(f), 0, p.size, p.route)
  }

  lemma {:induction false} AloneIs(f: Fabric, c: nat, d: nat, size: nat, route: seq<nat>)
    ensures RouteWork(OfChunk(f, c), d, size, route) == if d == c then RouteWork(PerArrival(f), 0, size, route) else 0
  {
    if |route| >= 2 {
      AloneIs(f, c, d, size, route[1..]);
    }
  }

  lemma {:induction false} AloneInLoad(f: Fabric, c: nat, first: nat, parcels: seq<Parcel>)
    ensures Load(OfChunk(f, c), first, parcels)
         == if first <= c < first + |parcels| then Alone(f, parcels[c - first]) else 0
    decreases parcels
  {
    if parcels != [] {
      AloneIs(f, c, first, parcels[0].size, parcels[0].route);
      AloneInLoad(f, c, first + 1, parcels[1..]);
    }
  }

  lemma QuietBounds(f: Fabric, t: Sim, l: LinkId, c: nat)
    requires Inv(f, t) && t.queue == [] && BoundsOk(f, t, l, c)
    ensures l in f ==> Total(OnWire(f, l), t) <= t.now
    ensures c < |t.chunks| ==>
              t.chunks[c].phase.Delivered? && Total(OfChunk(f, c), t) <= t.chunks[c].phase.at <= t.now
  {
    QuietIsDone(f, t, OnWire(f, l));
    QuietIsDone(f, t, OfChunk(f, c));
    if l in f {
      assert LinkOk(t, Nothing, l);
    }
    if c < |t.chunks| {
      assert ChunkOk(t, Nothing, c);
    }
  }

  lemma CompleteTotal(f: Fabric, acts: seq<Action>, w: Weight)
    requires Complete(f, acts)
    ensures Inv(f, Result(f, acts)) && Result(f, acts).queue == []
    ensures |Result(f, acts).chunks| == |Handed(acts)|
    ensures Total(w, Result(f, acts)) == Load(w, 0, Handed(acts))
  {
    hide CanAct, Act, Inv;
    RunKeeps(f, Init(f), acts);
    RunWork(f, w, Init(f), acts);
  }

  lemma CompleteBounds(f: Fabric, acts: seq<Action>, l: LinkId, c: nat)
    requires Complete(f, acts)
    ensures BoundsOk(f, Result(f, acts), l, c)
  {
    hide CanAct, Act;
    RunBounds(f, Init(f), acts, l, c);
  }

  /** No run is over before each link has had the time to serve all that crosses it. */
  lemma LinkTime(f: Fabric, acts: seq<Action>, l: LinkId)
    requires Complete(f, acts) && l in f
    ensures Load(OnWire(f, l), 0, Handed(acts)) <= Result(f, acts).now
  {
    CompleteTotal(f, acts, OnWire(f, l));
    CompleteBounds(f, acts, l, 0);
    hide Inv, BoundsOk, Complete, Result, Total;
    QuietBounds(f, Result(f, acts), l, 0);
  }

  /** No chunk is delivered sooner than with the network to itself. */
  lemma ChunkTime(f: Fabric, acts: seq<Action>, c: nat)
    requires Complete(f, acts) && c < |Handed(acts)|
    ensures var t := Result(f, acts);
            && c < |t.chunks| && t.chunks[c].phase.Delivered?
            && Alone(f, Handed(acts)[c]) <= t.chunks[c].phase.at <= t.now
  {
    CompleteTotal(f, acts, OfChunk(f, c));
    CompleteBounds(f, acts, LinkId(0, 0), c);
    AloneInLoad(f, c, 0, Handed(acts));
    hide Inv, BoundsOk, Complete, Result, Total;
    QuietBounds(f, Result(f, acts), LinkId(0, 0), c);
  }

  /** No run lasts longer than if the chunks had gone one hop at a time. */
  lemma LastTime(f: Fabric, acts: seq<Action>)
    requires Complete(f, acts)
    ensures Result(f, acts).now <= Load(PerArrival(f), 0, Handed(acts))
  {
    hide CanAct, Act;
    RunDeadline(f, Init(f), acts);
  }

  /** A lone chunk takes its hop-by-hop time exactly: both bounds meet. */
  lemma LoneChunk(f: Fabric, acts: seq<Action>, p: Parcel)
    requires Complete(f, acts) && Handed(acts) == [p]
    ensures Result(f, acts).now == Alone(f, p)
  {
    ChunkTime(f, acts, 0);
    LastTime(f, acts);
    hide Complete, Result;
    assert Load(PerArrival(f), 0, [p]) == Alone(f, p) + Load(PerArrival(f), 1, [p][1..]);
  }
}
