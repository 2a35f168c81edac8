/** Where the drain-then-swap protocol ends: exactly which requests and sends make it swap under a busy link, exactly when a
    link without bandwidth serves a chunk, and runs in which it happens. */
module DrainLimits {
  import opened Links
  import opened Drain
  import opened DrainTheorems

  // ---------------------------------------------------------------------------------------------------------------
  // Too few devices
  // ---------------------------------------------------------------------------------------------------------------

  /** With fewer than two devices there is no link to count: a drain never ends, whatever is done. */
  lemma {:induction false} LoneDeviceNeverSwaps(s: Net, acts: seq<Action>)
    requires Shape(s) && s.n <= 1 && s.reconfiguring && Run(s, acts)
    ensures After(s, acts).reconfiguring
    decreases acts
  {
    if acts != [] {
      PairsCount(s.n);
      LoneDeviceNeverSwaps(Do(s, acts[0]), acts[1..]);
    }
  }

  lemma LoneDeviceRequest(s: Net, topoId: int, bandwidths: Matrix, latencies: Matrix)
    requires Shape(s) && s.n <= 1 && Can(s, DoRequest(topoId, bandwidths, latencies)) && Accepts(s, topoId)
    ensures Request(s, topoId, bandwidths, latencies).reconfiguring
  {
    PairsCount(s.n);
    assert |Pairs(s.n)| == 0;
  }

  // ---------------------------------------------------------------------------------------------------------------
  // Swapping under a busy link
  // ---------------------------------------------------------------------------------------------------------------

  /** The links' events can happen in this order, and one of them swaps the network while a link is busy. */
  ghost predicate SwapsBusy(s: Net, frees: seq<LinkId>)
    decreases frees
  {
    && frees != [] && Can(s, DoFree(frees[0]))
    && ((SwapsNow(s, frees[0]) && !AllIdle(SetFree(s, frees[0]))) || SwapsBusy(BecomeFree(s, frees[0]), frees[1..]))
  }

  lemma {:induction false} NeverWithInv(s: Net, frees: seq<LinkId>)
    requires Inv(s)
    ensures !SwapsBusy(s, frees)
    decreases frees
  {
    if frees != [] && Can(s, DoFree(frees[0])) {
      if SwapsNow(s, frees[0]) {
        CountIsRight(s, frees[0]);
      }
      FreeKeeps(s, frees[0]);
      hide Inv, BecomeFree, Can;
      NeverWithInv(BecomeFree(s, frees[0]), frees[1..]);
    }
  }

  lemma {:induction false} NeverOutsideDrain(s: Net, frees: seq<LinkId>)
    requires !s.reconfiguring
    ensures !SwapsBusy(s, frees)
    decreases frees
  {
    if frees != [] && Can(s, DoFree(frees[0])) {
      NeverOutsideDrain(BecomeFree(s, frees[0]), frees[1..]);
    }
  }

  /** More links have been counted than are idle, and some are still to be counted. */
  ghost predicate Overcounted(s: Net) {
    && Shape(s) && s.n >= 2 && s.reconfiguring && IdleCount(s) < s.drained < s.n * (s.n - 1)
    && forall l :: l in s.lines && s.lines[l].busy ==> l in s.events
  }

  /** It is then only a matter of time. */
  lemma {:induction false} OvercountedSwaps(s: Net) returns (frees: seq<LinkId>)
    requires Overcounted(s)
    ensures SwapsBusy(s, frees)
    decreases Remaining(s)
  {
    hide IdleCount, Remaining, Swap, AllIdle, Increment, BecomeFree;
    var l := SomeBusy(s);
    if SwapsNow(s, l) {
      LastCounted(s, l);
      frees := [l];
    } else {
      OvercountedStep(s, l);
      var rest := OvercountedSwaps(BecomeFree(s, l));
      frees := [l] + rest;
      assert frees[1..] == rest;
    }
  }

  lemma SomeBusy(s: Net) returns (l: LinkId)
    requires Shape(s) && IdleCount(s) < s.n * (s.n - 1)
    ensures l in s.lines && s.lines[l].busy
  {
    IdleComplete(s);
    l :| l in s.lines && s.lines[l].busy;
  }

  lemma LastCounted(s: Net, l: LinkId)
    requires Overcounted(s) && l in s.lines && s.lines[l].busy
    ensures !AllIdle(SetFree(s, l))
  {
    hide IdleCount, AllIdle;
    IdleChange(s, SetFree(s, l), l);
    IdleComplete(SetFree(s, l));
  }

  lemma OvercountedStep(s: Net, l: LinkId)
    requires Overcounted(s) && l in s.lines && s.lines[l].busy && !SwapsNow(s, l)
    ensures Overcounted(BecomeFree(s, l)) && Remaining(BecomeFree(s, l)) < Remaining(s)
  {
    hide IdleCount, Remaining, Swap;
    var t := BecomeFree(s, l);
    IdleChange(s, t, l);
    RemainingChange(s, t, l);
  }

  /** A link that is idle and has an event outstanding will be counted twice, or serve a chunk although it was counted. */
  lemma KickOvercounts(s: Net, l: LinkId) returns (frees: seq<LinkId>)
    requires Shape(s) && s.n >= 2 && s.reconfiguring && s.drained == IdleCount(s) < s.n * (s.n - 1)
    requires forall m :: m in s.lines && s.lines[m].busy ==> m in s.events
    requires l in s.lines && !s.lines[l].busy && l in s.events
    ensures SwapsBusy(s, frees)
  {
    hide IdleCount, AllIdle, Swap;
    var t := BecomeFree(s, l);
    IdleChange(s, SetFree(s, l), l);
    if SwapsNow(s, l) {
      IdleComplete(SetFree(s, l));
      frees := [l];
    } else {
      IdleChange(s, t, l);
      var rest := OvercountedSwaps(t);
      frees := [l] + rest;
      assert frees[1..] == rest;
    }
  }

  /** A request that is accepted can lead to a swap under a busy link if and only if some link is busy and another is idle
      with its event still outstanding. */
  lemma RequestSafeIff(s: Net, topoId: int, bandwidths: Matrix, latencies: Matrix)
    requires Inv(s) && Can(s, DoRequest(topoId, bandwidths, latencies)) && Accepts(s, topoId)
    ensures (forall frees :: !SwapsBusy(Request(s, topoId, bandwidths, latencies), frees)) <==>
              AllIdle(s) || forall l :: l in s.lines && !s.lines[l].busy ==> l !in s.events
  {
    hide Inv, IdleCount, AllIdle, Swap, DrainNetwork, SwapsBusy;
    var a := DoRequest(topoId, bandwidths, latencies);
    var t := Request(s, topoId, bandwidths, latencies);
    RequestSwapsWhenQuiet(s, topoId, bandwidths, latencies);
    if AllIdle(s) {
      forall frees ensures !SwapsBusy(t, frees) {
        NeverOutsideDrain(t, frees);
      }
    } else if Respects(s, a) {
      DoKeeps(s, a);
      forall frees ensures !SwapsBusy(t, frees) {
        NeverWithInv(t, frees);
      }
    } else {
      var l :| l in s.lines && !s.lines[l].busy && l in s.events;
      RequestCounts(s, topoId, bandwidths, latencies);
      var frees := KickOvercounts(t, l);
    }
  }

  lemma RequestCounts(s: Net, topoId: int, bandwidths: Matrix, latencies: Matrix)
    requires Inv(s) && Can(s, DoRequest(topoId, bandwidths, latencies)) && Accepts(s, topoId) && !AllIdle(s)
    ensures var t := Request(s, topoId, bandwidths, latencies);
            && Shape(t) && t.n >= 2 && t.reconfiguring && t.drained == IdleCount(t) < t.n * (t.n - 1)
            && t.lines == s.lines && t.events == s.events
            && forall m :: m in t.lines && t.lines[m].busy ==> m in t.events
  {
    hide IdleCount, AllIdle, Swap;
    var t := Announced(s, topoId, bandwidths, latencies);
    PairsCount(s.n);
    assert AllIdle(s) <==> AllIdle(t) by {
      SameIdle(s, t);
    }
    IdleComplete(t);
    SameLines(t, DrainNetwork(t));
  }

  lemma SameIdle(s: Net, t: Net)
    requires s.lines == t.lines
    ensures AllIdle(s) <==> AllIdle(t)
  {
  }

  /** A send during a drain can lead to one if and only if it starts a chunk. */
  lemma SendSafeIff(s: Net, l: LinkId, tag: int)
    requires Inv(s) && Can(s, DoSend(l, tag)) && s.reconfiguring
    ensures (forall frees :: !SwapsBusy(Send(s, l, tag), frees)) <==> !StartsNow(s, l, tag)
  {
    hide IdleCount, SwapsBusy;
    var t := Send(s, l, tag);
    if StartsNow(s, l, tag) {
      IdleChange(s, t, l);
      var frees := OvercountedSwaps(t);
    } else {
      SendKeeps(s, l, tag);
      forall frees ensures !SwapsBusy(t, frees) {
        NeverWithInv(t, frees);
      }
    }
  }

  // ---------------------------------------------------------------------------------------------------------------
  // Starting a chunk ahead of an event of its link
  // ---------------------------------------------------------------------------------------------------------------

  /** The links' events can happen in this order, and at some time link `l` is idle and has an event outstanding: it was set
      free before the chunk on it was through. */
  ghost predicate FreedEarly(s: Net, l: LinkId, frees: seq<LinkId>)
    decreases frees
  {
    || (l in s.lines && !s.lines[l].busy && l in s.events)
    || (frees != [] && Can(s, DoFree(frees[0])) && FreedEarly(BecomeFree(s, frees[0]), l, frees[1..]))
  }

  lemma {:induction false} NeverFreedEarly(s: Net, l: LinkId, frees: seq<LinkId>)
    requires Shape(s) && !s.reconfiguring && l in s.lines && s.events[l] == if s.lines[l].busy then 1 else 0
    ensures !FreedEarly(s, l, frees)
    decreases frees
  {
    if frees != [] && Can(s, DoFree(frees[0])) {
      NeverFreedEarly(BecomeFree(s, frees[0]), l, frees[1..]);
    }
  }

  lemma {:induction false} TwoEventsFreeEarly(s: Net, l: LinkId) returns (frees: seq<LinkId>)
    requires Shape(s) && !s.reconfiguring && l in s.lines && s.lines[l].busy && s.events[l] >= 2
    ensures FreedEarly(s, l, frees)
    decreases s.lines[l].pending
  {
    hide Swap;
    var t := BecomeFree(s, l);
    if Blocked(s, l) {
      assert FreedEarly(t, l, []);
      frees := [l];
    } else {
      var rest := TwoEventsFreeEarly(t, l);
      frees := [l] + rest;
      assert frees[1..] == rest;
    }
  }

  /** A chunk that is sent outside a drain and started can see its link set free too early if and only if an event of the
      link is outstanding. */
  lemma StartSafeIff(s: Net, l: LinkId, tag: int)
    requires Inv(s) && Can(s, DoSend(l, tag)) && !s.reconfiguring && StartsNow(s, l, tag)
    ensures (forall frees :: !FreedEarly(Send(s, l, tag), l, frees)) <==> l !in s.events
  {
    hide FreedEarly, IdleCount;
    var t := Send(s, l, tag);
    if l in s.events {
      var frees := TwoEventsFreeEarly(t, l);
    } else {
      forall frees ensures !FreedEarly(t, l, frees) {
        NeverFreedEarly(t, l, frees);
      }
    }
  }

  // ---------------------------------------------------------------------------------------------------------------
  // A run that swaps under a busy link
  // ---------------------------------------------------------------------------------------------------------------

  /** Two devices; the link from 0 to 1 keeps its figures in the first topology, the one back does not. */
  function FirstTopology(): Matrix {
    [[0.0, 0.0], [1.0, 0.0]]
  }

  function SecondTopology(): Matrix {
    [[0.0, 0.0], [2.0, 0.0]]
  }

  function NoLatency(): Matrix {
    [[0.0, 0.0], [0.0, 0.0]]
  }

  lemma TwoDevices()
    ensures Pairs(2) == [LinkId(0, 1), LinkId(1, 0)]
  {
  }

  /** After the first topology is in place: the unchanged link is idle and yet has an event coming. */
  ghost predicate Kicked(s: Net) {
    && Inv(s) && s.n == 2 && !s.reconfiguring && s.curTopoId == 1 && s.inflight == 0
    && s.lines == map[LinkId(0, 1) := Line(false, 0.0, 0.0, []), LinkId(1, 0) := Line(true, 1.0, 0.0, [])]
    && s.events == multiset{LinkId(0, 1), LinkId(1, 0)}
  }

  lemma FirstRequest(s: Net, a: Action)
    requires s == Init(2, NoLatency(), NoLatency()) && a == DoRequest(1, FirstTopology(), NoLatency())
    ensures Inv(s) && Can(s, a) && Respects(s, a) && Accepts(s, 1) && AllIdle(s)
  {
  }

  lemma SwapFirst(t: Net)
    requires Shape(t) && t.n == 2 && t.bandwidths == FirstTopology() && t.latencies == NoLatency()
    requires t.lines == map l | l in Pairs(2) :: Line(false, 0.0, 0.0, [])
    requires t.events == multiset{} && t.curTopoId == 1 && t.inflight == 0
    ensures var u := Swap(t);
            && u.n == 2 && !u.reconfiguring && u.curTopoId == 1 && u.inflight == 0
            && u.lines == map[LinkId(0, 1) := Line(false, 0.0, 0.0, []), LinkId(1, 0) := Line(true, 1.0, 0.0, [])]
            && u.events == multiset{LinkId(0, 1), LinkId(1, 0)}
  {
  }

  lemma FirstSwap()
    ensures var s, a := Init(2, NoLatency(), NoLatency()), DoRequest(1, FirstTopology(), NoLatency());
            Inv(s) && Can(s, a) && Respects(s, a) && Kicked(Do(s, a))
  {
    hide Inv, Respects, AllIdle, Swap, Pairs, DrainNetwork;
    var s, a := Init(2, NoLatency(), NoLatency()), DoRequest(1, FirstTopology(), NoLatency());
    FirstRequest(s, a);
    DoKeeps(s, a);
    RequestSwapsWhenQuiet(s, 1, FirstTopology(), NoLatency());
    SwapFirst(Announced(s, 1, FirstTopology(), NoLatency()));
  }

  lemma SecondAccepted(s: Net)
    requires Kicked(s)
    ensures var a := DoRequest(2, SecondTopology(), NoLatency());
            && Can(s, a) && Accepts(s, 2) && !Respects(s, a)
            && Do(s, a) == Announced(s, 2, SecondTopology(), NoLatency()).(drained := 1)
  {
    TwoDevices();
    hide Swap, Pairs;
    var u := Announced(s, 2, SecondTopology(), NoLatency());
    assert [LinkId(0, 1), LinkId(1, 0)][..1] == [LinkId(0, 1)];
    assert [LinkId(0, 1)][..0] == [];
    assert Sum(AsIdle(u), [LinkId(0, 1)]) == 1;
    assert IdleCount(u) == 1;
    assert LinkId(0, 1) in s.lines && !s.lines[LinkId(0, 1)].busy && LinkId(0, 1) in s.events;
  }

  /** What that looks like. If a second reconfiguration is accepted at once, the unchanged link
      is counted as idle when the drain starts and again when its event happens: the network is swapped while the other
      link is busy, although its figures change. With times, that takes a reconfiguration time of at least one nanosecond:
      the unchanged link's event comes one nanosecond after the swap, and before the other link's if both are due at once. */
  lemma CountedTwice(s: Net)
    requires Kicked(s)
    ensures var a, b := DoRequest(2, SecondTopology(), NoLatency()), DoFree(LinkId(0, 1));
            && Can(s, a) && Accepts(s, 2) && !Respects(s, a)
            && Can(Do(s, a), b) && Do(s, a).reconfiguring
            && var t := SetFree(Do(s, a), LinkId(0, 1));
               && Do(Do(s, a), b) == Swap(t)
               && t.lines[LinkId(1, 0)].busy && t.lines[LinkId(1, 0)].bandwidth != t.bandwidths[1][0]
  {
    hide Swap, Pairs, Respects, DrainNetwork;
    SecondAccepted(s);
  }

  // ---------------------------------------------------------------------------------------------------------------
  // Service without bandwidth
  // ---------------------------------------------------------------------------------------------------------------

  /** The links' events can happen in this order, and one of them starts a chunk on a link without bandwidth. */
  ghost predicate ServesWithout(s: Net, frees: seq<LinkId>)
    decreases frees
  {
    && frees != [] && Can(s, DoFree(frees[0]))
    && ((s.lines[frees[0]].bandwidth == 0.0 && !Blocked(s, frees[0]))
        || ServesWithout(BecomeFree(s, frees[0]), frees[1..]))
  }

  /** Link `l` has an event outstanding that finds it without bandwidth and with a chunk to serve. */
  ghost predicate Starved(s: Net, l: LinkId)
    requires Shape(s) && l in s.lines
  {
    l in s.events && s.lines[l].bandwidth == 0.0 && !Blocked(s, l)
  }

  /** What a link still holds up when the drain is over. */
  function LeftOver(s: Net, l: LinkId): seq<int>
    requires Shape(s) && l in s.lines
  {
    var k := s.lines[l];
    if k.busy then k.pending[Eligible(k.pending, s.iteration[l.src])..] else k.pending
  }

  /** The topology to come takes the bandwidth away from link `l`, and leaves it with a chunk it would serve. */
  ghost predicate StarvedBySwap(s: Net, l: LinkId)
    requires Shape(s) && l in s.lines
  {
    && s.reconfiguring && s.bandwidths[l.src][l.dest] == 0.0
    && LeftOver(s, l) != [] && LeftOver(s, l)[0] <= s.iteration[l.src] + 1
  }

  ghost predicate WillStarve(s: Net, l: LinkId)
    requires Shape(s)
  {
    l in s.lines && (Starved(s, l) || StarvedBySwap(s, l))
  }

  lemma StarvingStays(s: Net, l: LinkId, m: LinkId)
    requires Inv(s) && Can(s, DoFree(l)) && !Starved(s, l)
    ensures Shape(BecomeFree(s, l)) && (WillStarve(s, m) <==> WillStarve(BecomeFree(s, l), m))
  {
    hide Swap, IdleCount, WillStarve, AllIdle;
    if SwapsNow(s, l) {
      CountIsRight(s, l);
      SetFreeFacts(s, l);
      StarvingSwapped(s, l, m);
    } else if m == l {
      StarvingHere(s, l);
    } else {
      StarvingElsewhere(s, l, m);
    }
  }

  lemma StarvingHere(s: Net, l: LinkId)
    requires Inv(s) && Can(s, DoFree(l)) && !Starved(s, l) && !SwapsNow(s, l)
    ensures Shape(BecomeFree(s, l)) && (WillStarve(s, l) <==> WillStarve(BecomeFree(s, l), l))
  {
    hide IdleCount, Swap;
  }

  lemma StarvingElsewhere(s: Net, l: LinkId, m: LinkId)
    requires Shape(s) && Can(s, DoFree(l)) && !SwapsNow(s, l) && m != l
    ensures Shape(BecomeFree(s, l)) && (WillStarve(s, m) <==> WillStarve(BecomeFree(s, l), m))
  {
    hide IdleCount, Swap, WillStarve;
    StarvingSame(s, BecomeFree(s, l), m);
  }

  lemma StarvingSame(s: Net, t: Net, m: LinkId)
    requires Shape(s) && Shape(t) && s.n == t.n && s.reconfiguring == t.reconfiguring && s.bandwidths == t.bandwidths
    requires s.iteration == t.iteration && (m in s.events <==> m in t.events)
    requires m in s.lines ==> s.lines[m] == t.lines[m]
    ensures WillStarve(s, m) <==> WillStarve(t, m)
  {
  }

  lemma StarvingSwapped(s: Net, l: LinkId, m: LinkId)
    requires Shape(s) && s.reconfiguring && l in s.lines && l in s.events && SwapsNow(s, l) && s.lines[l].busy
    requires AllIdle(SetFree(s, l)) && forall k :: k in s.lines && !s.lines[k].busy ==> k !in s.events
    ensures Shape(Swap(SetFree(s, l))) && (WillStarve(s, m) <==> WillStarve(Swap(SetFree(s, l)), m))
  {
    var t := SetFree(s, l);
    if m in s.lines {
      SwapInstalls(t, m);
      assert m != l ==> !t.lines[m].busy;
    }
  }

  lemma {:induction false} ServedWereStarving(s: Net, frees: seq<LinkId>)
    requires Inv(s) && ServesWithout(s, frees)
    ensures exists l :: WillStarve(s, l)
    decreases frees
  {
    var l := frees[0];
    if Starved(s, l) {
      assert WillStarve(s, l);
    } else {
      FreeKeeps(s, l);
      ServedWereStarving(BecomeFree(s, l), frees[1..]);
      var m :| WillStarve(BecomeFree(s, l), m);
      StarvingStays(s, l, m);
    }
  }

  lemma {:induction false} StarvingAreServed(s: Net, l: LinkId) returns (frees: seq<LinkId>)
    requires Inv(s) && WillStarve(s, l)
    ensures ServesWithout(s, frees)
    decreases if s.reconfiguring then Remaining(s) + 1 else 0
  {
    hide Remaining, BecomeFree, AllIdle, IdleCount;
    if Starved(s, l) {
      frees := [l];
    } else {
      DrainNotStuck(s);
      var m :| m in s.lines && s.lines[m].busy && Can(s, DoFree(m));
      if Starved(s, m) {
        frees := [m];
      } else {
        FreeKeeps(s, m);
        StarvingStays(s, m, l);
        FreeProgress(s, m);
        hide Inv;
        var rest := StarvingAreServed(BecomeFree(s, m), l);
        frees := [m] + rest;
        assert frees[1..] == rest;
      }
    }
  }

  /** A link without bandwidth can come to serve a chunk if and only if one has an event outstanding and a chunk its device
      would let go now, or the drain that is on will leave one that way. */
  lemma ServedWithoutBandwidthIff(s: Net)
    requires Inv(s)
    ensures (exists frees :: ServesWithout(s, frees)) <==> exists l :: WillStarve(s, l)
  {
    hide ServesWithout, WillStarve;
    if frees :| ServesWithout(s, frees) {
      ServedWereStarving(s, frees);
    }
    if l :| WillStarve(s, l) {
      var frees := StarvingAreServed(s, l);
    }
  }

  /** Nobody has to break the rules for that. Between two devices without any bandwidth from 0 to 1, a request is made and
      takes effect at once; a chunk for the new topology is held up for want of bandwidth; and the event of the link, which
      the swap left unchanged, serves it. */
  lemma ServedWithoutBandwidth() returns (s: Net, t: Net)
    ensures s == Init(2, NoLatency(), NoLatency()) && Inv(s)
    ensures var acts := [DoRequest(1, FirstTopology(), NoLatency()), DoSend(LinkId(0, 1), 1)];
            Run(s, acts) && t == After(s, acts) && Inv(t)
    ensures LinkId(0, 1) in t.lines && t.lines[LinkId(0, 1)] == Line(false, 0.0, 0.0, [1])
    ensures Can(t, DoFree(LinkId(0, 1))) && Starved(t, LinkId(0, 1))
    ensures Do(t, DoFree(LinkId(0, 1))).lines[LinkId(0, 1)] == Line(true, 0.0, 0.0, [])
  {
    hide Pairs, Swap, DrainNetwork, Inv, Respects, IdleCount;
    var a, b := DoRequest(1, FirstTopology(), NoLatency()), DoSend(LinkId(0, 1), 1);
    s := Init(2, NoLatency(), NoLatency());
    FirstSwap();
    var u := Do(s, a);
    KickedInv(u);
    FirstIteration(s, u);
    HeldUpAndServed(u);
    DoKeeps(u, b);
    t := Do(u, b);
    TwoActs(s, a, b);
  }

  lemma KickedInv(u: Net)
    requires Kicked(u)
    ensures Inv(u)
  {
  }

  lemma HeldUpAndServed(u: Net)
    requires Kicked(u) && u.iteration[0] == 1
    ensures var l, b := LinkId(0, 1), DoSend(LinkId(0, 1), 1);
            && Can(u, b) && Respects(u, b)
            && var t := Do(u, b);
               && l in t.lines && t.lines[l] == Line(false, 0.0, 0.0, [1])
               && Can(t, DoFree(l)) && Starved(t, l)
               && Do(t, DoFree(l)).lines[l] == Line(true, 0.0, 0.0, [])
  {
    hide Pairs, Swap, IdleCount;
  }

  lemma FirstIteration(s: Net, u: Net)
    requires s == Init(2, NoLatency(), NoLatency()) && u.n == 2 && Inv(u) && !u.reconfiguring
    requires Can(s, DoRequest(1, FirstTopology(), NoLatency()))
    requires u == Do(s, DoRequest(1, FirstTopology(), NoLatency()))
    ensures u.iteration[0] == 1
  {
    hide Pairs, IdleCount;
  }

  lemma TwoActs(s: Net, a: Action, b: Action)
    requires Can(s, a) && Respects(s, a) && Can(Do(s, a), b) && Respects(Do(s, a), b)
    ensures Run(s, [a, b]) && After(s, [a, b]) == Do(Do(s, a), b)
  {
    hide Can, Respects, Do;
    assert [a, b][1..] == [b] && [b][1..] == [];
    assert Run(Do(Do(s, a), b), []) && Run(Do(s, a), [b]);
    assert After(Do(s, a), [b]) == After(Do(Do(s, a), b), []);
  }
}
