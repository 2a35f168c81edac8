/** Exactly which links deliver in order, for chunks of which sizes: a link on which a chunk could be overtaken is overtaken
    on, in a run of two chunks. */
module Overtaking {
  import opened Links
  import opened StableQueue
  import opened Delays
  import opened Network
  import opened Runs
  import opened Ordering

  /** In every run that sends only chunks of these sizes over the link, what has come out of it is a prefix of what was sent
      into it. */
  ghost predicate AlwaysInOrder(f: Fabric, l: LinkId, sizes: iset<nat>) {
    forall acts :: Run(f, Init(f), acts) && OfSizes(Handed(acts), l, sizes) ==>
      LandedOn(After(f, Init(f), acts).log, l) <= SentOn(After(f, Init(f), acts).log, l)
  }

  /** The state of the two-chunk run after the first chunk has been handed in: it is on the link. */
  ghost predicate First(f: Fabric, s: Sim, l: LinkId, size: nat)
    requires l in f && f[l].Valid()
  {
    && Inv(f, s) && l in s.links && s.now == 0
    && s.queue == [Entry(f[l].SerializationDelay(size), Free(l)), Entry(f[l].CommunicationDelay(size), Arrived(0))]
    && s.links[l] == LinkState(true, f[l].SerializationDelay(size), [])
    && s.chunks == [ChunkState(size, [l.src, l.dest], InFlight(f[l].CommunicationDelay(size)))]
    && SentOn(s.log, l) == [0] && LandedOn(s.log, l) == []
  }

  lemma InitLink(f: Fabric, l: LinkId)
    requires Inv(f, Init(f)) && l in f
    ensures f[l].Valid()
  {
  }

  lemma HandFirst(f: Fabric, l: LinkId, size: nat)
    requires Inv(f, Init(f)) && l in f && size > 0
    requires f[l].SerializationDelay(size) < f[l].CommunicationDelay(size)
    ensures CanInject(f, [l.src, l.dest], size)
    ensures First(f, Inject(f, Init(f), [l.src, l.dest], size), l, size)
  {
    hide Wire.SerializationDelay, Wire.CommunicationDelay, Inv, InvWith;
    InitLink(f, l);
    var s, route := Init(f), [l.src, l.dest];
    InjectKeeps(f, s, route, size);
    var arrival, free := f[l].CommunicationDelay(size), f[l].SerializationDelay(size);
    var t := Inject(f, s, route, size);
    assert Insert([], arrival, Arrived(0)) == [Entry(arrival, Arrived(0))];
    assert t.queue == [Entry(free, Free(l)), Entry(arrival, Arrived(0))];
    LogSnoc([], Sent(l, 0), l);
    LogSnoc([Sent(l, 0)], Started(l, 0, size, 0), l);
    assert t.log == [] + [Sent(l, 0)] + [Started(l, 0, size, 0)];
  }

  /** The second chunk, of size `next`, waits behind the first. */
  ghost predicate Second(f: Fabric, s: Sim, l: LinkId, size: nat, next: nat)
    requires l in f && f[l].Valid()
  {
    && Inv(f, s) && l in s.links && s.now == 0
    && s.queue == [Entry(f[l].SerializationDelay(size), Free(l)), Entry(f[l].CommunicationDelay(size), Arrived(0))]
    && s.links[l] == LinkState(true, f[l].SerializationDelay(size), [1])
    && s.chunks == [ChunkState(size, [l.src, l.dest], InFlight(f[l].CommunicationDelay(size))),
                    ChunkState(next, [l.src, l.dest], Waiting)]
    && SentOn(s.log, l) == [0, 1] && LandedOn(s.log, l) == []
  }

  lemma HandSecond(f: Fabric, s: Sim, l: LinkId, size: nat, next: nat)
    requires l in f && f[l].Valid() && First(f, s, l, size) && next > 0
    ensures CanInject(f, [l.src, l.dest], next)
    ensures Second(f, Inject(f, s, [l.src, l.dest], next), l, size, next)
  {
    hide Wire.SerializationDelay, Wire.CommunicationDelay, InvWith, Inv, Transmit, SentOn, LandedOn, StartedOn;
    InjectKeeps(f, s, [l.src, l.dest], next);
    LogSnoc(s.log, Sent(l, 1), l);
    var t := Inject(f, s, [l.src, l.dest], next);
    assert t.chunks == s.chunks + [ChunkState(next, [l.src, l.dest], Waiting)];
    assert t.links[l].pending == [] + [1] == [1];
  }

  /** Both chunks are on the link, and the second one is going to arrive first. */
  ghost predicate Third(f: Fabric, s: Sim, l: LinkId) {
    && Inv(f, s) && l in s.links && s.links[l].pending == []
    && |s.chunks| == 2 && s.chunks[1].route == [l.src, l.dest]
    && s.queue != []
    && (s.queue[0].event == Arrived(1) || (s.queue[0].event == Free(l) && |s.queue| >= 2 && s.queue[1].event == Arrived(1)))
    && SentOn(s.log, l) == [0, 1] && LandedOn(s.log, l) == []
  }

  lemma FreeFirst(f: Fabric, s: Sim, l: LinkId, size: nat, next: nat)
    requires l in f && f[l].Valid() && Second(f, s, l, size, next)
    requires f[l].SerializationDelay(size) + f[l].CommunicationDelay(next) < f[l].CommunicationDelay(size)
    requires f[l].SerializationDelay(next) <= f[l].CommunicationDelay(next)
    ensures CanStep(f, s) && Third(f, Step(f, s), l)
  {
    hide Wire.SerializationDelay, Wire.CommunicationDelay, InvWith;
    StepKeeps(f, s);
    FreeShape(f, s, l);
    var t := Step(f, s);
    var now := f[l].SerializationDelay(size);
    var arrival, free := now + f[l].CommunicationDelay(next), now + f[l].SerializationDelay(next);
    var q0 := [Entry(f[l].CommunicationDelay(size), Arrived(0))];
    assert Taken(s).queue == q0;
    var q1 := [Entry(arrival, Arrived(1))] + q0;
    assert Insert(q0, arrival, Arrived(1)) == q1;
    TwoAhead(q1, free, Free(l));
    LogSnoc(s.log, Started(l, 1, next, now), l);
  }

  lemma TwoAhead(q: seq<Entry<Event>>, t: nat, e: Event)
    requires |q| == 2 && t <= q[0].time < q[1].time
    ensures Insert(q, t, e) == if t < q[0].time then [Entry(t, e)] + q else [q[0], Entry(t, e), q[1]]
  {
    assert q == [q[0], q[1]];
    assert Insert([q[1]], t, e) == [Entry(t, e), q[1]];
  }

  lemma LandSecond(f: Fabric, s: Sim, l: LinkId)
    requires Third(f, s, l) && s.queue[0].event == Arrived(1)
    ensures CanStep(f, s)
    ensures SentOn(Step(f, s).log, l) == [0, 1] && LandedOn(Step(f, s).log, l) == [1]
  {
    hide InvWith;
    ArriveShape(f, s, 1);
    LandOrder(Taken(s), 1, l);
  }

  lemma FreeAgain(f: Fabric, s: Sim, l: LinkId)
    requires Third(f, s, l) && s.queue[0].event == Free(l)
    ensures CanStep(f, s)
    ensures Third(f, Step(f, s), l) && Step(f, s).queue[0].event == Arrived(1)
  {
    hide InvWith;
    FreeShape(f, s, l);
    StepKeeps(f, s);
  }

  lemma TwoChunks(f: Fabric, l: LinkId, size: nat, next: nat) returns (acts: seq<Action>)
    requires Inv(f, Init(f)) && l in f && f[l].Valid() && size > 0 && next > 0
    requires f[l].SerializationDelay(size) + f[l].CommunicationDelay(next) < f[l].CommunicationDelay(size)
    ensures Handed(acts) == [Parcel([l.src, l.dest], size), Parcel([l.src, l.dest], next)]
    ensures Run(f, Init(f), acts) && Third(f, After(f, Init(f), acts), l)
  {
    hide Inv, Step, Inject, First, Second, Third, Run, After, CanStep;
    DelayGap(f[l], next);
    var p, p' := Parcel([l.src, l.dest], size), Parcel([l.src, l.dest], next);
    HandFirst(f, l, size);
    var s1 := Inject(f, Init(f), p.route, size);
    RunOne(f, Init(f), Hand(p));
    SecondInv(f, s1, l, size);
    HandSecond(f, s1, l, size, next);
    var s2 := Inject(f, s1, p'.route, next);
    RunSnoc(f, Init(f), [Hand(p)], Hand(p'));
    FreeFirst(f, s2, l, size, next);
    ThirdReady(f, s2);
    RunSnoc(f, Init(f), [Hand(p)] + [Hand(p')], Happen);
    acts := [Hand(p)] + [Hand(p')] + [Happen];
    HandedSnoc([Hand(p)], Hand(p'));
    HandedSnoc([Hand(p)] + [Hand(p')], Happen);
  }

  lemma SecondInv(f: Fabric, s: Sim, l: LinkId, size: nat)
    requires l in f && f[l].Valid() && First(f, s, l, size)
    ensures Inv(f, s)
  {
  }

  lemma ThirdReady(f: Fabric, s: Sim)
    requires CanStep(f, s)
    ensures CanAct(f, s, Happen)
  {
  }

  /** Where the delays do not keep order, two chunks of those sizes are enough for the second to come out first. */
  lemma Overtaken(f: Fabric, l: LinkId, sizes: iset<nat>) returns (acts: seq<Action>)
    requires Inv(f, Init(f)) && l in f && f[l].Valid() && 0 !in sizes && !KeepsOrder(f[l], sizes)
    ensures Run(f, Init(f), acts) && OfSizes(Handed(acts), l, sizes) && |Handed(acts)| == 2
    ensures !(LandedOn(After(f, Init(f), acts).log, l) <= SentOn(After(f, Init(f), acts).log, l))
  {
    hide Run, After, Inv, Third, Step, CanStep;
    var size: nat, next: nat :| size in sizes && next in sizes
      && f[l].SerializationDelay(size) + f[l].CommunicationDelay(next) < f[l].CommunicationDelay(size);
    acts := TwoChunks(f, l, size, next);
    acts := ToSecondLanding(f, l, acts);
  }

  lemma ToSecondLanding(f: Fabric, l: LinkId, acts: seq<Action>) returns (more: seq<Action>)
    requires Inv(f, Init(f)) && Run(f, Init(f), acts) && Third(f, After(f, Init(f), acts), l)
    ensures Run(f, Init(f), more) && Handed(more) == Handed(acts)
    ensures !(LandedOn(After(f, Init(f), more).log, l) <= SentOn(After(f, Init(f), more).log, l))
  {
    hide Run, After, Inv, CanStep, Step;
    var s := After(f, Init(f), acts);
    more := acts;
    if s.queue[0].event == Free(l) {
      FreeAgain(f, s, l);
      ThirdReady(f, s);
      RunSnoc(f, Init(f), acts, Happen);
      HandedSnoc(acts, Happen);
      more := acts + [Happen];
      s := Step(f, s);
    }
    LandSecond(f, s, l);
    ThirdReady(f, s);
    RunSnoc(f, Init(f), more, Happen);
    HandedSnoc(more, Happen);
    more := more + [Happen];
    assert [1][0] != [0, 1][0];
  }

  lemma {:induction false} HandedSnoc(acts: seq<Action>, a: Action)
    ensures Handed(acts + [a]) == Handed(acts) + if a.Hand? then [a.parcel] else []
  {
    if acts == [] {
      assert [a][1..] == [];
    } else {
      assert (acts + [a])[1..] == acts[1..] + [a];
      HandedSnoc(acts[1..], a);
    }
  }

  /** A link delivers chunks of these sizes in order, in every run, if and only if its delays keep them in order. */
  lemma InOrderIff(f: Fabric, l: LinkId, sizes: iset<nat>)
    requires (forall m :: m in f ==> f[m].Valid()) && l in f && 0 !in sizes
    ensures AlwaysInOrder(f, l, sizes) <==> KeepsOrder(f[l], sizes)
  {
    hide Run, After, KeepsOrder, Inv;
    InitInv(f);
    if KeepsOrder(f[l], sizes) {
      forall acts | Run(f, Init(f), acts) && OfSizes(Handed(acts), l, sizes)
        ensures LandedOn(After(f, Init(f), acts).log, l) <= SentOn(After(f, Init(f), acts).log, l)
      {
        FirstSentFirstLanded(f, acts, l, sizes);
      }
    } else {
      var acts := Overtaken(f, l, sizes);
    }
  }
}
