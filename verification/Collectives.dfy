/** Whole simulations on the objects: chunks are handed in at time 0 and the simulator runs until it has no event left
    (congestion_aware/example.cpp). */
module Collectives {
  import opened Links
  import opened EventQueues
  import opened Delays
  import opened Network
  import opened Runs
  import opened Makespan
  import opened LowerBounds
  import opened Delivery
  import opened Devices
  import opened Simulator
  import opened Replies
  import opened Rings

  // ---------------------------------------------------------------------------------------------------------------
  // What has been observed
  // ---------------------------------------------------------------------------------------------------------------

  /** The callback of chunk `c` was invoked once: at the last device of its route, not
      sooner than the chunk could have got there and not later than the end of the run. */
  ghost predicate CalledOnce(f: Fabric, calls: seq<Obs>, end: nat, p: Parcel, c: nat) {
    var told := Calls(calls, c);
    && p.route != [] && |told| == 1 && told[0].Called? && Alone(f, p) <= told[0].at <= end
    && told[0] == Called(p.route[|p.route| - 1], c, told[0].at)
  }

  lemma {:induction false} CallsAmongCalls(log: seq<Obs>, c: nat)
    ensures Calls(CallsIn(log), c) == Calls(log, c)
  {
    if log != [] {
      var n := |log| - 1;
      CallsAmongCalls(log[..n], c);
      CallsSnoc(log[..n], log[n]);
      LogSnoc(CallsIn(log[..n]), log[n], c);
      LogSnoc(log[..n], log[n], c);
      assert log[..n] + [log[n]] == log;
    }
  }

  /** A call is found among those of its chunk. */
  lemma {:induction false} CallsHas(log: seq<Obs>, i: nat)
    requires i < |log| && log[i].Called?
    ensures Calls(log, log[i].chunk) != []
  {
    var n := |log| - 1;
    if i < n {
      CallsHas(log[..n], i);
    }
  }

  lemma {:induction false} OnlyCalls(log: seq<Obs>)
    ensures forall i :: 0 <= i < |CallsIn(log)| ==> CallsIn(log)[i].Called?
  {
    if log != [] {
      OnlyCalls(log[..|log| - 1]);
    }
  }

  /** Every call was that of one of the first `n` chunks. */
  ghost predicate CalledOf(calls: seq<Obs>, n: nat) {
    forall i :: 0 <= i < |calls| ==> calls[i].Called? && calls[i].chunk < n
  }

  lemma NoOtherCalls(f: Fabric, acts: seq<Action>)
    requires Complete(f, acts)
    ensures CalledOf(CallsIn(Result(f, acts).log), |Handed(acts)|)
  {
    hide Complete, Result, CallsIn, Calls;
    var calls := CallsIn(Result(f, acts).log);
    OnlyCalls(Result(f, acts).log);
    forall i | 0 <= i < |calls| ensures calls[i].chunk < |Handed(acts)| {
      if calls[i].chunk >= |Handed(acts)| {
        NobodyElse(f, acts, calls[i].chunk);
        CallsAmongCalls(Result(f, acts).log, calls[i].chunk);
        CallsHas(calls, i);
      }
    }
  }

  /** What is known of a run over fabric `f` that has handled all events of the given chunks. */
  ghost predicate Finale(f: Fabric, parcels: seq<Parcel>, acts: seq<Action>, calls: seq<Obs>, end: nat) {
    && Events(acts) == 2 * HopCount(parcels)
    && (forall c :: 0 <= c < |parcels| ==> CalledOnce(f, calls, end, parcels[c], c))
    && CalledOf(calls, |parcels|)
    && (forall l :: l in f ==> Load(OnWire(f, l), 0, parcels) <= end)
    && end <= Load(PerArrival(f), 0, parcels)
  }

  lemma CompleteFinale(f: Fabric, acts: seq<Action>)
    requires Complete(f, acts)
    ensures Finale(f, Handed(acts), acts, CallsIn(Result(f, acts).log), Result(f, acts).now)
  {
    hide Complete, Result, Alone, HopCount, CalledOf;
    EventCount(f, acts);
    NoOtherCalls(f, acts);
    LastTime(f, acts);
    forall l | l in f ensures Load(OnWire(f, l), 0, Handed(acts)) <= Result(f, acts).now {
      LinkTime(f, acts, l);
    }
    forall c | 0 <= c < |Handed(acts)|
      ensures CalledOnce(f, CallsIn(Result(f, acts).log), Result(f, acts).now, Handed(acts)[c], c)
    {
      CallsAmongCalls(Result(f, acts).log, c);
      DeliveredOnce(f, acts, c);
      ChunkTime(f, acts, c);
    }
  }

  // ---------------------------------------------------------------------------------------------------------------
  // Simulations
  // ---------------------------------------------------------------------------------------------------------------

  /** Everything is handed in and the simulation run to its end, callbacks that send chunks of their own included. */
  method RunAll(w: World, parcels: seq<Parcel>, ghost bound: nat) returns (ghost acts: seq<Action>)
    requires w.Valid() && w.batch == [] && w.chunks == [] && w.model == Init(w.fabric)
    requires AllFit(w.fabric, parcels) && Finite(w.replies, bound)
    modifies w`chunks, w`calls, w`batch, w`model, w.links.Values, w.queue
    ensures w.queue.Finished() && Complete(w.fabric, acts)
    ensures Handed(acts) == parcels + Answers(w.calls, w.replies) && (bound == 0 ==> Handed(acts) == parcels)
    ensures Finale(w.fabric, Handed(acts), acts, w.calls, w.queue.currentTime)
  {
    hide Inv, Run, After, Finale, AllFit, LinksMirror, ChunksMirror, Wiring, RepliesFit, Finite;
    w.SendAll(parcels);
    HandsFacts(parcels);
    ghost var more := w.Simulate(bound);
    assert w.calls[0..] == w.calls;
    RunConcat(w.fabric, Init(w.fabric), Hands(parcels), more);
    acts := Hands(parcels) + more;
    CompleteFinale(w.fabric, acts);
    if bound == 0 {
      NothingSent(w.calls, w.replies);
      assert parcels + [] == parcels;
    }
  }

  // ---------------------------------------------------------------------------------------------------------------
  // All-gather on a ring
  // ---------------------------------------------------------------------------------------------------------------

  /** Parcel `p` is the chunk that goes from one NPU of the ring to another. */
  ghost predicate Carries(n: nat, bidirectional: bool, f: Fabric, size: nat, p: Parcel, l: LinkId) {
    && l.src < n && l.dest < n && l.src != l.dest && p.size == size && CanInject(f, p.route, p.size)
    && p.route[0] == l.src && p.route[|p.route| - 1] == l.dest
    && |p.route| - 1 == HopsCount(n, bidirectional, l.src, l.dest)
  }

  ghost predicate CarryAll(n: nat, bidirectional: bool, f: Fabric, size: nat, parcels: seq<Parcel>, pairs: seq<LinkId>) {
    |parcels| == |pairs| && forall k :: 0 <= k < |parcels| ==> Carries(n, bidirectional, f, size, parcels[k], pairs[k])
  }

  method Parcels(ring: Ring, size: nat) returns (parcels: seq<Parcel>)
    requires ring.Valid() && size > 0
    ensures CarryAll(ring.npusCount, ring.bidirectional, FabricOf(ring.links), size, parcels, Pairs(ring.npusCount))
  {
    hide Ring.Valid, Carries;
    var n := ring.npusCount;
    ghost var f := FabricOf(ring.links);
    parcels := [];
    for i := 0 to n
      invariant CarryAll(n, ring.bidirectional, f, size, parcels, Visited(n, i, 0))
    {
      for j := 0 to n
        invariant CarryAll(n, ring.bidirectional, f, size, parcels, Visited(n, i, j))
      {
        if i != j {
          var p := Between(ring, i, j, size);
          parcels := parcels + [p];
        }
      }
    }
  }

  method Between(ring: Ring, i: nat, j: nat, size: nat) returns (p: Parcel)
    requires ring.Valid() && i < ring.npusCount && j < ring.npusCount && i != j && size > 0
    ensures Carries(ring.npusCount, ring.bidirectional, FabricOf(ring.links), size, p, LinkId(i, j))
  {
    var route := ring.Route(i, j);
    p := Parcel(route, size);
  }

  /** Every NPU sends a chunk to every other one. */
  method AllGather(npusCount: nat, wire: Wire, bidirectional: bool, size: nat)
    returns (w: World, parcels: seq<Parcel>, ghost acts: seq<Action>)
    requires npusCount > 0 && wire.Valid() && (!bidirectional || npusCount >= 3) && size > 0
    ensures forall l :: l in w.fabric <==> RingLink(npusCount, bidirectional, l)
    ensures forall l :: l in w.fabric ==> w.fabric[l] == wire
    ensures CarryAll(npusCount, bidirectional, w.fabric, size, parcels, Pairs(npusCount))
    ensures w.queue.Finished() && Finale(w.fabric, parcels, acts, w.calls, w.queue.currentTime)
  {
    hide Finale, RingLink, Carries, LinksMirror, ChunksMirror, Inv, Wiring, AllFit, Answers, Adjacent, RepliesFit;
    var ring := new Ring(npusCount, wire, bidirectional);
    parcels := Parcels(ring, size);
    NoReplies(FabricOf(ring.links));
    CarriedFit(npusCount, bidirectional, FabricOf(ring.links), size, parcels, Pairs(npusCount));
    var queue := new EventQueue<Event>();
    w := new World(ring.devices, queue, (c, t) => [], ring.links);
    acts := RunAll(w, parcels, 0);
  }

  lemma CarriedFit(n: nat, bidirectional: bool, f: Fabric, size: nat, parcels: seq<Parcel>, pairs: seq<LinkId>)
    requires CarryAll(n, bidirectional, f, size, parcels, pairs)
    ensures AllFit(f, parcels)
  {
  }

  lemma NoReplies(f: Fabric)
    ensures RepliesFit(f, (c, t) => []) && Finite((c, t) => [], 0)
  {
  }

  lemma {:induction false} NothingSent(calls: seq<Obs>, replies: Reply)
    requires Finite(replies, 0)
    ensures Answers(calls, replies) == []
  {
    if calls != [] {
      NothingSent(calls[..|calls| - 1], replies);
    }
  }
}
