/** Callbacks that send chunks. What the callback of a chunk hands in is a function of the chunk and of the time of its
    delivery; it does so as the last thing of the event. */
module Replies {
  import opened Links
  import opened Network
  import opened Runs

  type Reply = (nat, nat) -> seq<Parcel>

  ghost predicate RepliesFit(f: Fabric, replies: Reply) {
    forall c, t :: AllFit(f, replies(c, t))
  }

  /** Only the callbacks of chunks numbered below `bound` send anything. */
  ghost predicate Finite(replies: Reply, bound: nat) {
    forall c, t :: c >= bound ==> replies(c, t) == []
  }

  /** What is handed in by the callback, if there is one, of the event that is next. */
  function ReplyTo(s: Sim, replies: Reply): seq<Parcel>
    requires s.queue != []
  {
    match s.queue[0].event
    case Arrived(c) => if c < |s.chunks| && |s.chunks[c].route| == 2 then replies(c, s.queue[0].time) else []
    case Free(_) => []
  }

  /** The actions are `k` events, each followed by what its callback hands in. */
  ghost predicate Answering(f: Fabric, s: Sim, replies: Reply, acts: seq<Action>, k: nat)
    decreases k
  {
    if k == 0 then acts == []
    else exists prior :: Answering(f, s, replies, prior, k - 1) && OneMore(f, s, replies, prior, acts)
  }

  ghost predicate OneMore(f: Fabric, s: Sim, replies: Reply, prior: seq<Action>, acts: seq<Action>) {
    && Run(f, s, prior) && CanStep(f, After(f, s, prior))
    && acts == prior + ([Happen] + Hands(ReplyTo(After(f, s, prior), replies)))
  }

  lemma {:induction false} AnsweringEvents(f: Fabric, s: Sim, replies: Reply, acts: seq<Action>, k: nat)
    requires Run(f, s, acts) && Answering(f, s, replies, acts, k)
    ensures Events(acts) == k
    decreases k
  {
    hide Run, After, Inv;
    if k > 0 {
      var prior :| Answering(f, s, replies, prior, k - 1) && OneMore(f, s, replies, prior, acts);
      var more := [Happen] + Hands(ReplyTo(After(f, s, prior), replies));
      AnsweringEvents(f, s, replies, prior, k - 1);
      EventsConcat(prior, more);
      HappenFirst(ReplyTo(After(f, s, prior), replies));
    }
  }

  lemma HappenFirst(parcels: seq<Parcel>)
    ensures Events([Happen] + Hands(parcels)) == 1 && Handed([Happen] + Hands(parcels)) == parcels
  {
    HandsFacts(parcels);
    assert ([Happen] + Hands(parcels))[1..] == Hands(parcels);
  }

  lemma {:induction false} EventsConcat(a: seq<Action>, b: seq<Action>)
    ensures Events(a + b) == Events(a) + Events(b) && Handed(a + b) == Handed(a) + Handed(b)
  {
    if a == [] {
      assert a + b == b;
    } else {
      assert (a + b)[1..] == a[1..] + b;
      EventsConcat(a[1..], b);
    }
  }

  // ---------------------------------------------------------------------------------------------------------------
  // What is handed in, told from the calls
  // ---------------------------------------------------------------------------------------------------------------

  /** The callback invocations in a log, in order. */
  function CallsIn(log: seq<Obs>): seq<Obs> {
    if log == [] then []
    else CallsIn(log[..|log| - 1]) + if log[|log| - 1].Called? then [log[|log| - 1]] else []
  }

  lemma CallsSnoc(log: seq<Obs>, o: Obs)
    ensures CallsIn(log + [o]) == if o.Called? then CallsIn(log) + [o] else CallsIn(log)
  {
    assert (log + [o])[..|log|] == log;
  }

  /** All that was sent by the callbacks that were invoked, in order. */
  function Answers(calls: seq<Obs>, replies: Reply): seq<Parcel> {
    if calls == [] then []
    else
      var o := calls[|calls| - 1];
      Answers(calls[..|calls| - 1], replies) + if o.Called? then replies(o.chunk, o.at) else []
  }

  lemma {:induction false} AnswersConcat(a: seq<Obs>, b: seq<Obs>, replies: Reply)
    ensures Answers(a + b, replies) == Answers(a, replies) + Answers(b, replies)
  {
    if b == [] {
      assert a + b == a;
    } else {
      var n := |b| - 1;
      assert (a + b)[..|a + b| - 1] == a + b[..n];
      AnswersConcat(a, b[..n], replies);
    }
  }

  lemma SendCalls(f: Fabric, s: Sim, l: LinkId, c: nat)
    requires CanStart(f, s, l, c)
    ensures CallsIn(LinkSend(f, s, l, c).log) == CallsIn(s.log)
  {
    hide Transmit;
    CallsSnoc(s.log, Sent(l, c));
    if !s.links[l].busy {
      TransmitCalls(f, s.(log := s.log + [Sent(l, c)]), l, c);
    }
  }

  lemma TransmitCalls(f: Fabric, s: Sim, l: LinkId, c: nat)
    requires CanStart(f, s, l, c)
    ensures CallsIn(Transmit(f, s, l, c).log) == CallsIn(s.log)
  {
    hide CallsIn;
    CallsSnoc(s.log, Started(l, c, s.chunks[c].size, s.now));
  }

  lemma LandCalls(s: Sim, c: nat)
    requires c < |s.chunks| && |s.chunks[c].route| >= 2
    ensures CallsIn(Land(s, c).log)
         == CallsIn(s.log) + if |s.chunks[c].route| == 2 then [Called(s.chunks[c].route[1], c, s.now)] else []
  {
    hide CallsIn;
    var route := s.chunks[c].route;
    CallsSnoc(s.log, Landed(Hop(route), c));
    CallsSnoc(s.log + [Landed(Hop(route), c)], Called(route[1], c, s.now));
  }

  /** An event invokes at most one callback, and what that one sends is what follows the event. */
  lemma StepCalls(f: Fabric, s: Sim, replies: Reply) returns (told: seq<Obs>)
    requires CanStep(f, s)
    ensures CallsIn(Step(f, s).log) == CallsIn(s.log) + told && Answers(told, replies) == ReplyTo(s, replies)
  {
    hide InvWith, Step, LinkSend, Transmit, CallsIn;
    match s.queue[0].event
    case Arrived(c) =>
      ArriveShape(f, s, c);
      LandCalls(Taken(s), c);
      told := if |s.chunks[c].route| == 2 then [Called(s.chunks[c].route[1], c, s.queue[0].time)] else [];
      OneAnswer(told, replies);
      var t := Land(Taken(s), c);
      if |s.chunks[c].route| > 2 {
        SendCalls(f, t, Hop(t.chunks[c].route), c);
      }
    case Free(l) =>
      FreeShape(f, s, l);
      told := [];
      if s.links[l].pending != [] {
        TransmitCalls(f, PopPending(SetFree(Taken(s), l), l), l, s.links[l].pending[0]);
      }
  }

  lemma OneAnswer(told: seq<Obs>, replies: Reply)
    requires |told| <= 1
    ensures Answers(told, replies) == if |told| == 1 && told[0].Called? then replies(told[0].chunk, told[0].at) else []
  {
    if |told| == 1 {
      assert told[..0] == [];
    }
  }

  lemma {:induction false} HandsCalls(f: Fabric, s: Sim, parcels: seq<Parcel>)
    requires Run(f, s, Hands(parcels))
    ensures CallsIn(After(f, s, Hands(parcels)).log) == CallsIn(s.log)
    decreases parcels
  {
    hide Inv, CallsIn, Inject;
    if parcels != [] {
      var acts := Hands(parcels);
      assert acts[0] == Hand(parcels[0]) && acts[1..] == Hands(parcels[1..]);
      InjectCalls(f, s, parcels[0].route, parcels[0].size);
      HandsCalls(f, Act(f, s, acts[0]), parcels[1..]);
    }
  }

  lemma InjectCalls(f: Fabric, s: Sim, route: seq<nat>, size: nat)
    requires Inv(f, s) && CanInject(f, route, size)
    ensures CallsIn(Inject(f, s, route, size).log) == CallsIn(s.log)
  {
    hide CallsIn, LinkSend;
    EnterKeeps(f, s, route, size);
    assert LinkId(route[0], route[0 + 1]) in f;
    SendCalls(f, Enter(s, route, size), Hop(route), |s.chunks|);
  }

  /** So the chunks handed in by a run of events and callbacks can be told from the callbacks it invoked. */
  lemma {:induction false} AnsweringHands(f: Fabric, s: Sim, replies: Reply, acts: seq<Action>, k: nat) returns (told: seq<Obs>)
    requires Run(f, s, acts) && Answering(f, s, replies, acts, k)
    ensures CallsIn(After(f, s, acts).log) == CallsIn(s.log) + told && Handed(acts) == Answers(told, replies)
    decreases k
  {
    hide Run, After, Inv, CallsIn, Answers, Step, ReplyTo;
    if k == 0 {
      NothingRun(f, s);
      told := [];
      OneAnswer([], replies);
    } else {
      var prior :| Answering(f, s, replies, prior, k - 1) && OneMore(f, s, replies, prior, acts);
      var first := AnsweringHands(f, s, replies, prior, k - 1);
      var more := OneMoreHands(f, s, replies, prior, acts);
      told := first + more;
      AnswersConcat(first, more, replies);
      assert CallsIn(s.log) + first + more == CallsIn(s.log) + told;
    }
  }

  lemma NothingRun(f: Fabric, s: Sim)
    requires Run(f, s, [])
    ensures After(f, s, []) == s
  {
  }

  lemma OneMoreHands(f: Fabric, s: Sim, replies: Reply, prior: seq<Action>, acts: seq<Action>) returns (told: seq<Obs>)
    requires Run(f, s, acts) && OneMore(f, s, replies, prior, acts)
    ensures CallsIn(After(f, s, acts).log) == CallsIn(After(f, s, prior).log) + told
    ensures Handed(acts) == Handed(prior) + Answers(told, replies)
  {
    hide Run, After, Inv, CallsIn, Answers, Step, ReplyTo;
    var u := After(f, s, prior);
    var reply := ReplyTo(u, replies);
    RunSplit(f, s, prior, [Happen] + Hands(reply));
    EventsConcat(prior, [Happen] + Hands(reply));
    HappenFirst(reply);
    told := StepCalls(f, u, replies);
    AfterHappen(f, u, Hands(reply));
    HandsCalls(f, Step(f, u), reply);
  }

  lemma AfterHappen(f: Fabric, s: Sim, rest: seq<Action>)
    requires CanStep(f, s) && Run(f, s, [Happen] + rest)
    ensures Run(f, Step(f, s), rest) && After(f, s, [Happen] + rest) == After(f, Step(f, s), rest)
  {
    hide Inv, Step;
    assert ([Happen] + rest)[1..] == rest;
  }

  // ---------------------------------------------------------------------------------------------------------------
  // Why that comes to an end
  // ---------------------------------------------------------------------------------------------------------------

  /** How many of the first `n` chunks have not been delivered, or not even been made. */
  function Unfinished(chunks: seq<ChunkState>, n: nat): nat {
    if n == 0 then 0
    else Unfinished(chunks, n - 1) + if n - 1 < |chunks| && |chunks[n - 1].route| == 1 then 0 else 1
  }

  /** Routes only get shorter, and never empty. */
  ghost predicate Shrinks(before: seq<ChunkState>, after: seq<ChunkState>) {
    && |before| <= |after|
    && forall c :: 0 <= c < |before| ==> 1 <= |after[c].route| <= |before[c].route|
  }

  lemma {:induction false} ShrinksUnfinished(before: seq<ChunkState>, after: seq<ChunkState>, n: nat)
    requires Shrinks(before, after)
    ensures Unfinished(after, n) <= Unfinished(before, n)
  {
    if n > 0 {
      ShrinksUnfinished(before, after, n - 1);
    }
  }

  lemma {:induction false} OneFinished(before: seq<ChunkState>, after: seq<ChunkState>, n: nat, c: nat)
    requires Shrinks(before, after) && c < n && c < |before| && |before[c].route| > 1 == |after[c].route|
    ensures Unfinished(after, n) < Unfinished(before, n)
  {
    if c == n - 1 {
      ShrinksUnfinished(before, after, n - 1);
    } else {
      OneFinished(before, after, n - 1, c);
    }
  }

  lemma SendShrinks(f: Fabric, s: Sim, l: LinkId, c: nat)
    requires CanStart(f, s, l, c)
    ensures |LinkSend(f, s, l, c).chunks| == |s.chunks|
    ensures forall d :: 0 <= d < |s.chunks| ==> LinkSend(f, s, l, c).chunks[d].route == s.chunks[d].route
  {
  }

  lemma StepShrinks(f: Fabric, s: Sim)
    requires CanStep(f, s)
    ensures Shrinks(s.chunks, Step(f, s).chunks)
    ensures forall c: nat :: s.queue[0].event == Arrived(c) ==>
              c < |s.chunks| && |s.chunks[c].route| > 1
              && |Step(f, s).chunks| == |s.chunks| && |Step(f, s).chunks[c].route| == |s.chunks[c].route| - 1
  {
    hide InvWith, Step, LinkSend, Occupy;
    Nonempty(f, s);
    match s.queue[0].event
    case Arrived(c) =>
      ArriveShape(f, s, c);
      var t := Land(Taken(s), c);
      if |s.chunks[c].route| > 2 {
        SendShrinks(f, t, Hop(t.chunks[c].route), c);
      }
    case Free(l) =>
      FreeShape(f, s, l);
      if s.links[l].pending != [] {
        TransmitShrinks(f, PopPending(SetFree(Taken(s), l), l), l, s.links[l].pending[0]);
      }
  }

  lemma TransmitShrinks(f: Fabric, s: Sim, l: LinkId, c: nat)
    requires CanStart(f, s, l, c)
    ensures |Transmit(f, s, l, c).chunks| == |s.chunks|
    ensures forall d :: 0 <= d < |s.chunks| ==> Transmit(f, s, l, c).chunks[d].route == s.chunks[d].route
  {
  }

  lemma Nonempty(f: Fabric, s: Sim)
    requires Inv(f, s)
    ensures forall c :: 0 <= c < |s.chunks| ==> s.chunks[c].route != []
  {
  }

  lemma ActShrinks(f: Fabric, s: Sim, a: Action)
    requires CanAct(f, s, a)
    ensures Shrinks(s.chunks, Act(f, s, a).chunks)
  {
    match a
    case Happen => StepShrinks(f, s);
    case Hand(p) =>
      EnterKeeps(f, s, p.route, p.size);
      assert LinkId(p.route[0], p.route[0 + 1]) in f;
      SendShrinks(f, Enter(s, p.route, p.size), Hop(p.route), |s.chunks|);
  }

  lemma {:induction false} RunShrinks(f: Fabric, s: Sim, acts: seq<Action>)
    requires Run(f, s, acts)
    ensures Shrinks(s.chunks, After(f, s, acts).chunks)
    decreases acts
  {
    hide CanAct, Act, Inv;
    if acts == [] {
      Nonempty(f, s);
    } else {
      ActShrinks(f, s, acts[0]);
      RunShrinks(f, Act(f, s, acts[0]), acts[1..]);
    }
  }

  /** Events either hand in nothing, or finish one of the chunks whose callbacks send. */
  lemma {:induction false} AnsweringProgress(f: Fabric, s: Sim, replies: Reply, acts: seq<Action>, k: nat, bound: nat)
    requires Run(f, s, acts) && Answering(f, s, replies, acts, k) && Finite(replies, bound)
    ensures Handed(acts) == [] || Unfinished(After(f, s, acts).chunks, bound) < Unfinished(s.chunks, bound)
    decreases k
  {
    hide Run, After, Unfinished, Inv;
    if k > 0 {
      var prior :| Answering(f, s, replies, prior, k - 1) && OneMore(f, s, replies, prior, acts);
      var u := After(f, s, prior);
      var reply := ReplyTo(u, replies);
      AnsweringProgress(f, s, replies, prior, k - 1, bound);
      EventsConcat(prior, [Happen] + Hands(reply));
      HappenFirst(reply);
      RunSplit(f, s, prior, [Happen] + Hands(reply));
      RunShrinks(f, s, prior);
      RunShrinks(f, u, [Happen] + Hands(reply));
      ShrinksUnfinished(s.chunks, u.chunks, bound);
      ShrinksUnfinished(u.chunks, After(f, s, acts).chunks, bound);
      if reply != [] {
        ReplyFinishes(f, u, replies, bound);
      }
    }
  }

  lemma {:induction false} RunSplit(f: Fabric, s: Sim, a: seq<Action>, b: seq<Action>)
    requires Run(f, s, a) && Run(f, s, a + b)
    ensures Run(f, After(f, s, a), b) && After(f, After(f, s, a), b) == After(f, s, a + b)
    decreases a
  {
    hide CanAct, Act, Inv;
    if a == [] {
      assert a + b == b;
    } else {
      assert (a + b)[1..] == a[1..] + b;
      RunSplit(f, Act(f, s, a[0]), a[1..], b);
    }
  }

  lemma ReplyFinishes(f: Fabric, u: Sim, replies: Reply, bound: nat)
    requires CanStep(f, u) && ReplyTo(u, replies) != [] && Finite(replies, bound)
    requires Run(f, u, [Happen] + Hands(ReplyTo(u, replies)))
    ensures Unfinished(After(f, u, [Happen] + Hands(ReplyTo(u, replies))).chunks, bound) < Unfinished(u.chunks, bound)
  {
    hide Unfinished, InvWith, Step;
    var acts := [Happen] + Hands(ReplyTo(u, replies));
    var c := u.queue[0].event.chunk;
    StepShrinks(f, u);
    assert acts[1..] == Hands(ReplyTo(u, replies));
    RunShrinks(f, Step(f, u), acts[1..]);
    RunShrinks(f, u, acts);
    OneFinished(u.chunks, After(f, u, acts).chunks, bound, c);
  }
}
