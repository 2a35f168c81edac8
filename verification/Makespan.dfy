/** How many events a run takes and how long it lasts. */
module Makespan {
  import opened Links
  import opened StableQueue
  import opened Delays
  import opened Network
  import opened Runs
  import opened Accounting

  // ---------------------------------------------------------------------------------------------------------------
  // What a list of chunks weighs
  // ---------------------------------------------------------------------------------------------------------------

  /** The weight of chunks numbered from `first` on. */
  function Load(w: Weight, first: nat, parcels: seq<Parcel>): nat
    decreases parcels
  {
    if parcels == [] then 0
    else RouteWork(w, first, parcels[0].size, parcels[0].route) + Load(w, first + 1, parcels[1..])
  }

  lemma {:induction false} RunWork(f: Fabric, w: Weight, s: Sim, acts: seq<Action>)
    requires Run(f, s, acts)
    ensures Total(w, After(f, s, acts)) == Total(w, s) + Load(w, |s.chunks|, Handed(acts))
    ensures |After(f, s, acts).chunks| == |s.chunks| + |Handed(acts)|
    decreases acts
  {
    hide CanAct, Act, Total;
    if acts != [] {
      RunWork(f, w, Act(f, s, acts[0]), acts[1..]);
      ActWork(f, w, s, acts[0]);
    }
  }

  lemma ActWork(f: Fabric, w: Weight, s: Sim, a: Action)
    requires CanAct(f, s, a)
    ensures Total(w, Act(f, s, a)) == Total(w, s) + if a.Happen? then 0 else RouteWork(w, |s.chunks|, a.parcel.size, a.parcel.route)
    ensures |Act(f, s, a).chunks| == |s.chunks| + if a.Happen? then 0 else 1
  {
    hide Total;
    match a
    case Happen => StepWork(f, w, s);
    case Hand(p) => InjectWork(f, w, s, p.route, p.size);
  }

  /** With no event left, every chunk is at its destination, every link is idle and nobody waits. */
  lemma QuietIsDone(f: Fabric, s: Sim, w: Weight)
    requires Inv(f, s) && s.queue == []
    ensures forall c :: 0 <= c < |s.chunks| ==> s.chunks[c].phase.Delivered? && |s.chunks[c].route| == 1
    ensures forall l :: l in s.links ==> !s.links[l].busy && s.links[l].pending == []
    ensures WorkLeft(w, s.chunks) == 0
  {
    OutstandingEvents(s, Nothing);
    forall c | 0 <= c < |s.chunks| ensures s.chunks[c].phase.Delivered? && |s.chunks[c].route| == 1 {
      assert ChunkOk(s, Nothing, c);
    }
    NothingOwed(w, s.chunks);
  }

  lemma {:induction false} NothingOwed(w: Weight, chunks: seq<ChunkState>)
    requires forall c :: 0 <= c < |chunks| ==> |chunks[c].route| == 1
    ensures WorkLeft(w, chunks) == 0
  {
    if chunks != [] {
      NothingOwed(w, chunks[..|chunks| - 1]);
    }
  }

  // ---------------------------------------------------------------------------------------------------------------
  // The number of events
  // ---------------------------------------------------------------------------------------------------------------

  /** Every hop weighs one. */
  function PerHop(): Weight {
    (l: LinkId, c: nat, size: nat) => 1
  }

  /** Two events for every hop that has not started, one for every event that is waiting. */
  function EventsLeft(s: Sim): nat {
    |s.queue| + 2 * WorkLeft(PerHop(), s.chunks)
  }

  lemma TransmitEvents(f: Fabric, s: Sim, l: LinkId, c: nat)
    requires CanStart(f, s, l, c) && OnLink(s, c, l) && s.chunks[c].phase == Waiting
    ensures EventsLeft(Transmit(f, s, l, c)) == EventsLeft(s)
  {
    var size := s.chunks[c].size;
    var arrival, free := s.now + f[l].CommunicationDelay(size), s.now + f[l].SerializationDelay(size);
    TransmitWork(f, PerHop(), s, l, c);
    InsertMembers(s.queue, arrival, Arrived(c));
    InsertMembers(Insert(s.queue, arrival, Arrived(c)), free, Free(l));
  }

  lemma SendEvents(f: Fabric, s: Sim, l: LinkId, c: nat)
    requires CanStart(f, s, l, c) && OnLink(s, c, l) && s.chunks[c].phase == Waiting
    ensures EventsLeft(LinkSend(f, s, l, c)) == EventsLeft(s)
  {
    if !s.links[l].busy {
      TransmitEvents(f, s.(log := s.log + [Sent(l, c)]), l, c);
    }
  }

  lemma ArriveEvents(f: Fabric, s: Sim, c: nat)
    requires CanStep(f, s) && s.queue[0].event == Arrived(c)
    ensures EventsLeft(Step(f, s)) + 1 == EventsLeft(s)
  {
    LandKeeps(f, s, c);
    var t := Land(Taken(s), c);
    LandWork(PerHop(), Taken(s), c);
    if |t.chunks[c].route| != 1 {
      SendEvents(f, t, Hop(t.chunks[c].route), c);
    }
  }

  lemma BecomeFreeEvents(f: Fabric, s: Sim, l: LinkId)
    requires CanStep(f, s) && s.queue[0].event == Free(l)
    ensures EventsLeft(Step(f, s)) + 1 == EventsLeft(s)
  {
    FreeKeeps(f, s, l);
    var t := SetFree(Taken(s), l);
    if t.links[l].pending != [] {
      TransmitEvents(f, PopPending(t, l), l, t.links[l].pending[0]);
    }
  }

  /** Every event brings the end one event closer: this is why a run terminates. */
  lemma StepEvents(f: Fabric, s: Sim)
    requires CanStep(f, s)
    ensures EventsLeft(Step(f, s)) + 1 == EventsLeft(s)
  {
    match s.queue[0].event
    case Arrived(c) => ArriveEvents(f, s, c);
    case Free(l) => BecomeFreeEvents(f, s, l);
  }

  lemma InjectEvents(f: Fabric, s: Sim, route: seq<nat>, size: nat)
    requires Inv(f, s) && CanInject(f, route, size)
    ensures EventsLeft(Inject(f, s, route, size)) == EventsLeft(s) + 2 * (|route| - 1)
  {
    var t := Enter(s, route, size);
    WorkLeftSnoc(PerHop(), s.chunks, ChunkState(size, route, Waiting));
    SendEvents(f, t, Hop(route), |s.chunks|);
    RouteHops(|s.chunks|, size, route);
  }

  lemma {:induction false} RouteHops(c: nat, size: nat, route: seq<nat>)
    requires route != []
    ensures RouteWork(PerHop(), c, size, route) == |route| - 1
  {
    if |route| >= 2 {
      RouteHops(c, size, route[1..]);
    }
  }

  /** How many hops a list of chunks makes. */
  function HopCount(parcels: seq<Parcel>): int {
    if parcels == [] then 0 else |parcels[0].route| - 1 + HopCount(parcels[1..])
  }

  lemma {:induction false} RunEvents(f: Fabric, s: Sim, acts: seq<Action>)
    requires Run(f, s, acts)
    ensures Events(acts) + EventsLeft(After(f, s, acts)) == EventsLeft(s) + 2 * HopCount(Handed(acts))
    decreases acts
  {
    hide CanAct, Act, EventsLeft;
    if acts != [] {
      RunEvents(f, Act(f, s, acts[0]), acts[1..]);
      ActEvents(f, s, acts[0]);
    }
  }

  lemma ActEvents(f: Fabric, s: Sim, a: Action)
    requires CanAct(f, s, a)
    ensures EventsLeft(Act(f, s, a)) + (if a.Happen? then 1 else 0)
         == EventsLeft(s) + if a.Happen? then 0 else 2 * (|a.parcel.route| - 1)
  {
    hide EventsLeft;
    match a
    case Happen => StepEvents(f, s);
    case Hand(p) => InjectEvents(f, s, p.route, p.size);
  }

  /** No events left to come is no events waiting. */
  lemma NoEventsLeft(f: Fabric, s: Sim)
    requires Inv(f, s)
    ensures s.queue == [] <==> EventsLeft(s) == 0
  {
    if s.queue == [] {
      QuietIsDone(f, s, PerHop());
    }
  }

  /** A run from the empty simulator until no event is left takes exactly two events for every hop of every chunk. */
  lemma EventCount(f: Fabric, acts: seq<Action>)
    requires Complete(f, acts)
    ensures Events(acts) == 2 * HopCount(Handed(acts))
  {
    hide CanAct, Act, Inv;
    RunEvents(f, Init(f), acts);
    CompleteInv(f, acts);
    QuietIsDone(f, Result(f, acts), PerHop());
  }

  /** Left alone, the simulator gets there: after exactly `EventsLeft` events nothing is waiting any more. */
  lemma {:induction false} RunToEnd(f: Fabric, s: Sim) returns (acts: seq<Action>)
    requires Inv(f, s)
    ensures Run(f, s, acts) && Handed(acts) == [] && |acts| == Events(acts) == EventsLeft(s)
    ensures After(f, s, acts).queue == []
    decreases EventsLeft(s)
  {
    if s.queue == [] {
      QuietIsDone(f, s, PerHop());
      acts := [];
    } else {
      StepKeeps(f, s);
      StepEvents(f, s);
      hide Step, EventsLeft;
      var rest := RunToEnd(f, Step(f, s));
      acts := [Happen] + rest;
      RunCons(f, s, Happen, rest);
      assert acts[1..] == rest;
    }
  }

  // ---------------------------------------------------------------------------------------------------------------
  // The time of the last event
  // ---------------------------------------------------------------------------------------------------------------

  function TravelTime(f: Fabric, l: LinkId, size: nat): nat {
    if l in f && f[l].Valid() then f[l].CommunicationDelay(size) else 0
  }

  /** How long the far side waits for a chunk. */
  function PerArrival(f: Fabric): Weight {
    (l: LinkId, c: nat, size: nat) => TravelTime(f, l, size)
  }

  /** The last time that is settled so far. */
  function Latest(s: Sim): nat {
    if s.queue == [] then s.now else s.queue[|s.queue| - 1].time
  }

  /** If nothing ran in parallel any more, the run would end here at the latest. */
  function Deadline(f: Fabric, s: Sim): nat {
    Latest(s) + WorkLeft(PerArrival(f), s.chunks)
  }

  lemma LatestIsMax(s: Sim)
    requires QueueOk(s)
    ensures s.now <= Latest(s) && forall x :: x in s.queue ==> x.time <= Latest(s)
    ensures s.queue != [] ==> s.queue[|s.queue| - 1] in s.queue
  {
  }

  lemma OccupyLatest(s: Sim, l: LinkId, c: nat, arrival: nat, free: nat)
    requires l in s.links && c < |s.chunks| && QueueOk(s) && s.now <= free <= arrival
    requires Absent(s.queue, Arrived(c)) && Absent(s.queue, Free(l))
    ensures Latest(Occupy(s, l, c, arrival, free)) <= if arrival <= Latest(s) then Latest(s) else arrival
  {
    OccupyQueue(s, l, c, arrival, free);
    LatestIsMax(s);
    LatestIsMax(Occupy(s, l, c, arrival, free));
  }

  lemma TransmitDeadline(f: Fabric, s: Sim, l: LinkId, c: nat)
    requires InvWith(f, s, Holding(c)) && l in s.links && !s.links[l].busy && OnLink(s, c, l)
    ensures Deadline(f, Transmit(f, s, l, c)) <= Deadline(f, s)
  {
    var size := s.chunks[c].size;
    TransmitWork(f, PerArrival(f), s, l, c);
    DelayGap(f[l], size);
    NoneScheduled(f, s, Holding(c), l, c);
    hide InvWith;
    OccupyLatest(s, l, c, s.now + f[l].CommunicationDelay(size), s.now + f[l].SerializationDelay(size));
    LatestIsMax(s);
  }

  lemma SendDeadline(f: Fabric, s: Sim, l: LinkId, c: nat)
    requires InvWith(f, s, Holding(c)) && l in s.links && OnLink(s, c, l)
    ensures Deadline(f, LinkSend(f, s, l, c)) <= Deadline(f, s)
  {
    if !s.links[l].busy {
      var t := s.(log := s.log + [Sent(l, c)]);
      SameButLog(f, s, t, Holding(c));
      TransmitDeadline(f, t, l, c);
    }
  }

  lemma ArriveDeadline(f: Fabric, s: Sim, c: nat)
    requires CanStep(f, s) && s.queue[0].event == Arrived(c)
    ensures Deadline(f, Step(f, s)) <= Deadline(f, s)
  {
    LandKeeps(f, s, c);
    var t := Land(Taken(s), c);
    LandWork(PerArrival(f), Taken(s), c);
    hide InvWith, PerArrival;
    if |t.chunks[c].route| != 1 {
      SendDeadline(f, t, Hop(t.chunks[c].route), c);
    }
  }

  lemma BecomeFreeDeadline(f: Fabric, s: Sim, l: LinkId)
    requires CanStep(f, s) && s.queue[0].event == Free(l)
    ensures Deadline(f, Step(f, s)) <= Deadline(f, s)
  {
    FreeKeeps(f, s, l);
    var t := SetFree(Taken(s), l);
    hide InvWith, PerArrival;
    if t.links[l].pending != [] {
      TransmitDeadline(f, PopPending(t, l), l, t.links[l].pending[0]);
    }
  }

  lemma ActDeadline(f: Fabric, s: Sim, a: Action)
    requires CanAct(f, s, a)
    ensures Deadline(f, Act(f, s, a))
         <= Deadline(f, s) + if a.Happen? then 0 else RouteWork(PerArrival(f), |s.chunks|, a.parcel.size, a.parcel.route)
  {
    match a
    case Happen =>
      if s.queue[0].event.Arrived? {
        ArriveDeadline(f, s, s.queue[0].event.chunk);
      } else {
        BecomeFreeDeadline(f, s, s.queue[0].event.link);
      }
    case Hand(p) =>
      var t := Enter(s, p.route, p.size);
      EnterKeeps(f, s, p.route, p.size);
      WorkLeftSnoc(PerArrival(f), s.chunks, ChunkState(p.size, p.route, Waiting));
      SendDeadline(f, t, Hop(p.route), |s.chunks|);
  }

  lemma {:induction false} RunDeadline(f: Fabric, s: Sim, acts: seq<Action>)
    requires Run(f, s, acts)
    ensures Deadline(f, After(f, s, acts)) <= Deadline(f, s) + Load(PerArrival(f), |s.chunks|, Handed(acts))
    decreases acts
  {
    hide CanAct, Act, Deadline;
    if acts != [] {
      RunDeadline(f, Act(f, s, acts[0]), acts[1..]);
      ActDeadline(f, s, acts[0]);
      ActWork(f, PerArrival(f), s, acts[0]);
    }
  }
}
