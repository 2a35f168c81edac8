/** Whole runs of the congestion-aware simulator: how many events they take, who is called back, and how long they
    last. Everything is counted by weighing hops: a weight is laid on each (link, chunk) transmission, and the weight
    still owed plus the weight already started is conserved by every event. */
module Accounting {
  import opened Links
  import opened Network

  /** The weight of sending a chunk of a given size over a link. */
  type Weight = (LinkId, nat, nat) -> nat

  function RouteWork(w: Weight, c: nat, size: nat, route: seq<nat>): nat {
    if |route| < 2 then 0 else w(Hop(route), c, size) + RouteWork(w, c, size, route[1..])
  }

  /** What chunk `c` has not started yet. */
  function Owed(w: Weight, c: nat, k: ChunkState): nat {
    if k.phase.InFlight? && k.route != [] then RouteWork(w, c, k.size, k.route[1..])
    else RouteWork(w, c, k.size, k.route)
  }

  function WorkLeft(w: Weight, chunks: seq<ChunkState>): nat {
    if chunks == [] then 0
    else WorkLeft(w, chunks[..|chunks| - 1]) + Owed(w, |chunks| - 1, chunks[|chunks| - 1])
  }

  /** What has been started. */
  function WorkDone(w: Weight, log: seq<Obs>): nat {
    if log == [] then 0
    else
      WorkDone(w, log[..|log| - 1])
      + match log[|log| - 1] case Started(l, c, size, _) => w(l, c, size) case _ => 0
  }

  function Total(w: Weight, s: Sim): nat {
    WorkLeft(w, s.chunks) + WorkDone(w, s.log)
  }

  lemma {:induction false} WorkLeftUpdate(w: Weight, chunks: seq<ChunkState>, c: nat, k: ChunkState)
    requires c < |chunks|
    ensures WorkLeft(w, chunks[c := k]) + Owed(w, c, chunks[c]) == WorkLeft(w, chunks) + Owed(w, c, k)
  {
    var n := |chunks| - 1;
    if c < n {
      assert chunks[c := k][..n] == chunks[..n][c := k];
      WorkLeftUpdate(w, chunks[..n], c, k);
    } else {
      assert chunks[c := k][..n] == chunks[..n];
    }
  }

  lemma WorkLeftSnoc(w: Weight, chunks: seq<ChunkState>, k: ChunkState)
    ensures WorkLeft(w, chunks + [k]) == WorkLeft(w, chunks) + Owed(w, |chunks|, k)
  {
    assert (chunks + [k])[..|chunks|] == chunks;
  }

  lemma WorkDoneSnoc(w: Weight, log: seq<Obs>, o: Obs)
    ensures WorkDone(w, log + [o]) == WorkDone(w, log) + match o case Started(l, c, size, _) => w(l, c, size) case _ => 0
  {
    assert (log + [o])[..|log|] == log;
  }

  lemma OccupyWork(w: Weight, s: Sim, l: LinkId, c: nat, arrival: nat, free: nat)
    requires l in s.links && OnLink(s, c, l) && s.chunks[c].phase == Waiting
    ensures var t := Occupy(s, l, c, arrival, free);
            && WorkLeft(w, t.chunks) + w(l, c, s.chunks[c].size) == WorkLeft(w, s.chunks)
            && WorkDone(w, t.log) == WorkDone(w, s.log) + w(l, c, s.chunks[c].size)
  {
    WorkLeftUpdate(w, s.chunks, c, s.chunks[c].(phase := InFlight(arrival)));
    WorkDoneSnoc(w, s.log, Started(l, c, s.chunks[c].size, s.now));
  }

  lemma LandWork(w: Weight, s: Sim, c: nat)
    requires c < |s.chunks| && |s.chunks[c].route| >= 2 && s.chunks[c].phase.InFlight?
    ensures WorkLeft(w, Land(s, c).chunks) == WorkLeft(w, s.chunks)
    ensures WorkDone(w, Land(s, c).log) == WorkDone(w, s.log)
  {
    WorkLeftUpdate(w, s.chunks, c, Land(s, c).chunks[c]);
    var k := s.chunks[c];
    var landed := s.log + [Landed(Hop(k.route), c)];
    WorkDoneSnoc(w, s.log, Landed(Hop(k.route), c));
    WorkDoneSnoc(w, landed, Called(k.route[1], c, s.now));
  }

  lemma TransmitWork(f: Fabric, w: Weight, s: Sim, l: LinkId, c: nat)
    requires CanStart(f, s, l, c) && OnLink(s, c, l) && s.chunks[c].phase == Waiting
    ensures Total(w, Transmit(f, s, l, c)) == Total(w, s)
    ensures WorkLeft(w, Transmit(f, s, l, c).chunks) + w(l, c, s.chunks[c].size) == WorkLeft(w, s.chunks)
  {
    var size := s.chunks[c].size;
    OccupyWork(w, s, l, c, s.now + f[l].CommunicationDelay(size), s.now + f[l].SerializationDelay(size));
  }

  lemma SendWork(f: Fabric, w: Weight, s: Sim, l: LinkId, c: nat)
    requires CanStart(f, s, l, c) && OnLink(s, c, l) && s.chunks[c].phase == Waiting
    ensures Total(w, LinkSend(f, s, l, c)) == Total(w, s)
  {
    var t := s.(log := s.log + [Sent(l, c)]);
    WorkDoneSnoc(w, s.log, Sent(l, c));
    if !s.links[l].busy {
      TransmitWork(f, w, t, l, c);
    }
  }

  lemma ArriveWork(f: Fabric, w: Weight, s: Sim, c: nat)
    requires CanStep(f, s) && s.queue[0].event == Arrived(c)
    ensures Total(w, Step(f, s)) == Total(w, s)
  {
    LandKeeps(f, s, c);
    var t := Land(Taken(s), c);
    LandWork(w, Taken(s), c);
    if |t.chunks[c].route| != 1 {
      SendWork(f, w, t, Hop(t.chunks[c].route), c);
    }
  }

  lemma BecomeFreeWork(f: Fabric, w: Weight, s: Sim, l: LinkId)
    requires CanStep(f, s) && s.queue[0].event == Free(l)
    ensures Total(w, Step(f, s)) == Total(w, s)
  {
    FreeKeeps(f, s, l);
    var t := SetFree(Taken(s), l);
    if t.links[l].pending != [] {
      TransmitWork(f, w, PopPending(t, l), l, t.links[l].pending[0]);
    }
  }

  /** No event creates or loses work. */
  lemma StepWork(f: Fabric, w: Weight, s: Sim)
    requires CanStep(f, s)
    ensures Total(w, Step(f, s)) == Total(w, s)
  {
    match s.queue[0].event
    case Arrived(c) => ArriveWork(f, w, s, c);
    case Free(l) => BecomeFreeWork(f, w, s, l);
  }

  lemma InjectWork(f: Fabric, w: Weight, s: Sim, route: seq<nat>, size: nat)
    requires Inv(f, s) && CanInject(f, route, size)
    ensures Total(w, Inject(f, s, route, size)) == Total(w, s) + RouteWork(w, |s.chunks|, size, route)
  {
    var t := Enter(s, route, size);
    WorkLeftSnoc(w, s.chunks, ChunkState(size, route, Waiting));
    SendWork(f, w, t, Hop(route), |s.chunks|);
  }
}
