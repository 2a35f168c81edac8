/** Every chunk follows its route, link by link, and its callback is invoked once, at the end of it. */
module Delivery {
  import opened Links
  import opened StableQueue
  import opened Network
  import opened Runs
  import opened Makespan

  /** The links a chunk has come out of, in order. */
  function Trail(log: seq<Obs>, c: nat): seq<LinkId> {
    if log == [] then []
    else
      var o := log[|log| - 1];
      Trail(log[..|log| - 1], c) + if o.Landed? && o.chunk == c then [o.link] else []
  }

  /** The invocations of a chunk's callback. */
  function Calls(log: seq<Obs>, c: nat): seq<Obs> {
    if log == [] then []
    else
      var o := log[|log| - 1];
      Calls(log[..|log| - 1], c) + if o.Called? && o.chunk == c then [o] else []
  }

  lemma LogSnoc(log: seq<Obs>, o: Obs, c: nat)
    ensures Trail(log + [o], c) == Trail(log, c) + if o.Landed? && o.chunk == c then [o.link] else []
    ensures Calls(log + [o], c) == Calls(log, c) + if o.Called? && o.chunk == c then [o] else []
  {
    assert (log + [o])[..|log|] == log;
  }

  function HopsOf(route: seq<nat>): seq<LinkId>
    requires route != []
  {
    seq(|route| - 1, i requires 0 <= i < |route| - 1 => LinkId(route[i], route[i + 1]))
  }

  /** What the log tells of chunk `c`, made as parcel `p`, agrees with where the chunk is on its way. */
  ghost predicate Told(s: Sim, p: Parcel, c: nat)
    requires p.route != []
  {
    if c < |s.chunks| then
      var k := s.chunks[c];
      var done := |p.route| - |k.route|;
      && k.size == p.size
      && 1 <= |k.route| <= |p.route|
      && k.route == p.route[done..]
      && Trail(s.log, c) == HopsOf(p.route)[..done]
      && Calls(s.log, c) == if k.phase.Delivered? then [Called(p.route[|p.route| - 1], c, k.phase.at)] else []
    else Trail(s.log, c) == [] && Calls(s.log, c) == []
  }

  lemma OccupyTold(s: Sim, l: LinkId, d: nat, arrival: nat, free: nat, p: Parcel, c: nat)
    requires l in s.links && d < |s.chunks| && s.chunks[d].phase == Waiting && p.route != [] && Told(s, p, c)
    ensures Told(Occupy(s, l, d, arrival, free), p, c)
  {
    hide Trail, Calls, HopsOf, Insert;
    LogSnoc(s.log, Started(l, d, s.chunks[d].size, s.now), c);
  }

  lemma TransmitTold(f: Fabric, s: Sim, l: LinkId, d: nat, p: Parcel, c: nat)
    requires CanStart(f, s, l, d) && s.chunks[d].phase == Waiting && p.route != [] && Told(s, p, c)
    ensures Told(Transmit(f, s, l, d), p, c)
  {
    hide Told;
    var size := s.chunks[d].size;
    OccupyTold(s, l, d, s.now + f[l].CommunicationDelay(size), s.now + f[l].SerializationDelay(size), p, c);
  }

  lemma SendTold(f: Fabric, s: Sim, l: LinkId, d: nat, p: Parcel, c: nat)
    requires CanStart(f, s, l, d) && s.chunks[d].phase == Waiting && p.route != [] && Told(s, p, c)
    ensures Told(LinkSend(f, s, l, d), p, c)
  {
    LogSnoc(s.log, Sent(l, d), c);
    if !s.links[l].busy {
      TransmitTold(f, s.(log := s.log + [Sent(l, d)]), l, d, p, c);
    }
  }

  lemma HopsSnoc(route: seq<nat>, done: nat)
    requires done + 1 < |route|
    ensures HopsOf(route)[..done + 1] == HopsOf(route)[..done] + [LinkId(route[done], route[done + 1])]
  {
  }

  lemma LandLog(s: Sim, d: nat, c: nat)
    requires d < |s.chunks| && |s.chunks[d].route| >= 2
    ensures var k, t := s.chunks[d], Land(s, d);
            && Trail(t.log, c) == Trail(s.log, c) + (if d == c then [Hop(k.route)] else [])
            && Calls(t.log, c) == Calls(s.log, c) + if d == c && |k.route| == 2 then [Called(k.route[1], d, s.now)] else []
  {
    var k := s.chunks[d];
    var landed := s.log + [Landed(Hop(k.route), d)];
    LogSnoc(s.log, Landed(Hop(k.route), d), c);
    LogSnoc(landed, Called(k.route[1], d, s.now), c);
  }

  lemma LandTold(s: Sim, d: nat, p: Parcel, c: nat)
    requires d < |s.chunks| && |s.chunks[d].route| >= 2 && s.chunks[d].phase.InFlight?
    requires p.route != [] && Told(s, p, c)
    ensures Told(Land(s, d), p, c)
  {
    hide Trail, Calls, HopsOf;
    LandLog(s, d, c);
    if d == c {
      HopsSnoc(p.route, |p.route| - |s.chunks[d].route|);
    }
  }

  lemma ToldSame(s: Sim, t: Sim, p: Parcel, c: nat)
    requires t.chunks == s.chunks && t.log == s.log && p.route != [] && Told(s, p, c)
    ensures Told(t, p, c)
  {
  }

  lemma HeldWaits(f: Fabric, s: Sim, c: nat)
    requires InvWith(f, s, Holding(c))
    ensures c < |s.chunks| && s.chunks[c].phase == Waiting
  {
  }

  lemma ArriveTold(f: Fabric, s: Sim, d: nat, p: Parcel, c: nat)
    requires CanStep(f, s) && s.queue[0].event == Arrived(d) && p.route != [] && Told(s, p, c)
    ensures Told(Step(f, s), p, c)
  {
    hide Told, InvWith, Inv, Step, LinkSend;
    LandKeeps(f, s, d);
    ArriveShape(f, s, d);
    ToldSame(s, Taken(s), p, c);
    var t := Land(Taken(s), d);
    LandTold(Taken(s), d, p, c);
    if |t.chunks[d].route| != 1 {
      SendTold(f, t, Hop(t.chunks[d].route), d, p, c);
    }
  }

  lemma BecomeFreeTold(f: Fabric, s: Sim, l: LinkId, p: Parcel, c: nat)
    requires CanStep(f, s) && s.queue[0].event == Free(l) && p.route != [] && Told(s, p, c)
    ensures Told(Step(f, s), p, c)
  {
    hide Told, InvWith, Inv, Step, Transmit;
    FreeShape(f, s, l);
    FreeKeeps(f, s, l);
    var t := SetFree(Taken(s), l);
    ToldSame(s, t, p, c);
    if t.links[l].pending != [] {
      HeldWaits(f, PopPending(t, l), t.links[l].pending[0]);
      ToldSame(s, PopPending(t, l), p, c);
      TransmitTold(f, PopPending(t, l), l, t.links[l].pending[0], p, c);
    }
  }

  lemma ActTold(f: Fabric, s: Sim, a: Action, p: Parcel, c: nat)
    requires CanAct(f, s, a) && p.route != [] && Told(s, p, c)
    requires a.Hand? && c == |s.chunks| ==> a.parcel == p
    ensures Told(Act(f, s, a), p, c)
  {
    match a
    case Happen =>
      if s.queue[0].event.Arrived? {
        ArriveTold(f, s, s.queue[0].event.chunk, p, c);
      } else {
        BecomeFreeTold(f, s, s.queue[0].event.link, p, c);
      }
    case Hand(q) =>
      assert p.route[0..] == p.route;
      SendTold(f, Enter(s, q.route, q.size), Hop(q.route), |s.chunks|, p, c);
  }

  lemma {:induction false} RunTold(f: Fabric, s: Sim, acts: seq<Action>, p: Parcel, c: nat)
    requires Run(f, s, acts) && p.route != [] && Told(s, p, c)
    requires |s.chunks| <= c < |s.chunks| + |Handed(acts)| ==> Handed(acts)[c - |s.chunks|] == p
    ensures Told(After(f, s, acts), p, c)
    decreases acts
  {
    hide CanAct, Act, Told;
    if acts != [] {
      var t := Act(f, s, acts[0]);
      ActTold(f, s, acts[0], p, c);
      ActWork(f, PerHop(), s, acts[0]);
      RunTold(f, t, acts[1..], p, c);
    }
  }

  /** Once no event is left, each chunk has crossed the links of its route in order, each once, and its callback has been
      invoked exactly once, at the last device of the route. */
  lemma DeliveredOnce(f: Fabric, acts: seq<Action>, c: nat)
    requires Complete(f, acts) && c < |Handed(acts)|
    ensures var t, route := Result(f, acts), Handed(acts)[c].route;
            && c < |t.chunks| && t.chunks[c].phase.Delivered? && route != []
            && Trail(t.log, c) == HopsOf(route)
            && Calls(t.log, c) == [Called(route[|route| - 1], c, t.chunks[c].phase.at)]
  {
    hide CanAct, Act, Inv;
    var p := Handed(acts)[c];
    HandedCanInject(f, Init(f), acts, c);
    RunTold(f, Init(f), acts, p, c);
    RunWork(f, PerHop(), Init(f), acts);
    CompleteInv(f, acts);
    QuietIsDone(f, Result(f, acts), PerHop());
    assert HopsOf(p.route)[..|p.route| - 1] == HopsOf(p.route);
  }

  /** And no other callback has been invoked. */
  lemma NobodyElse(f: Fabric, acts: seq<Action>, c: nat)
    requires Complete(f, acts) && c >= |Handed(acts)|
    ensures Trail(Result(f, acts).log, c) == [] && Calls(Result(f, acts).log, c) == []
  {
    hide CanAct, Act, Inv;
    RunTold(f, Init(f), acts, Parcel([0], 1), c);
    RunWork(f, PerHop(), Init(f), acts);
  }

  lemma {:induction false} HandedCanInject(f: Fabric, s: Sim, acts: seq<Action>, i: nat)
    requires Run(f, s, acts) && i < |Handed(acts)|
    ensures CanInject(f, Handed(acts)[i].route, Handed(acts)[i].size)
    decreases acts
  {
    hide Inv, Act;
    if acts[0].Happen? {
      HandedCanInject(f, Act(f, s, acts[0]), acts[1..], i);
    } else if i > 0 {
      HandedCanInject(f, Act(f, s, acts[0]), acts[1..], i - 1);
    }
  }
}
