/** The drain-then-swap protocol of the reconfigurable backend as a state machine
    (reconfigurable/network/TopologyManager.cpp, Device.cpp, Link.cpp). Devices are numbered; a link is named by its two
    ends and each ordered pair of devices has one (reconfigurable/topology/Topology.cpp). A chunk is its topology tag.
    Link-free events may happen in any order: the times they are scheduled for pick one of the orders. */
module Drain {
  import opened Links

  /** A link with the chunks its device holds up for it. */
  datatype Line = Line(busy: bool, bandwidth: real, latency: real, pending: seq<int>)

  datatype Net = Net(
    n: nat,
    lines: map<LinkId, Line>,
    iteration: seq<int>,
    events: multiset<LinkId>,
    reconfiguring: bool,
    topologyIteration: int,
    drained: int,
    curTopoId: int,
    inflight: int,
    bandwidths: Matrix,
    latencies: Matrix)

  // ---------------------------------------------------------------------------------------------------------------
  // Sums over links
  // ---------------------------------------------------------------------------------------------------------------

  function Sum(w: LinkId -> nat, ls: seq<LinkId>): nat {
    if ls == [] then 0 else Sum(w, ls[..|ls| - 1]) + w(ls[|ls| - 1])
  }

  lemma {:induction false} SumSame(w: LinkId -> nat, v: LinkId -> nat, ls: seq<LinkId>)
    requires forall l :: l in ls ==> w(l) == v(l)
    ensures Sum(w, ls) == Sum(v, ls)
  {
    if ls != [] {
      assert ls[|ls| - 1] in ls;
      SumSame(w, v, ls[..|ls| - 1]);
    }
  }

  /** Changing the weight of one link. */
  lemma {:induction false} SumChange(w: LinkId -> nat, v: LinkId -> nat, ls: seq<LinkId>, l: LinkId)
    requires NoRepeat(ls) && l in ls && forall m :: m in ls && m != l ==> w(m) == v(m)
    ensures Sum(w, ls) + v(l) == Sum(v, ls) + w(l)
  {
    var n := |ls| - 1;
    var last, front := ls[n], ls[..n];
    assert ls == front + [last];
    if last == l {
      forall m | m in front ensures w(m) == v(m) {
        var i :| 0 <= i < n && front[i] == m;
        assert ls[i] != ls[n];
      }
      SumSame(w, v, front);
    } else {
      SumChange(w, v, front, l);
    }
  }

  lemma {:induction false} SumBound(w: LinkId -> nat, ls: seq<LinkId>)
    requires forall l :: l in ls ==> w(l) <= 1
    ensures Sum(w, ls) <= |ls|
    ensures Sum(w, ls) == |ls| <==> forall l :: l in ls ==> w(l) == 1
  {
    if ls != [] {
      var n := |ls| - 1;
      assert ls == ls[..n] + [ls[n]];
      SumBound(w, ls[..n]);
    }
  }

  lemma {:induction false} SumZero(w: LinkId -> nat, ls: seq<LinkId>)
    ensures Sum(w, ls) == 0 <==> forall l :: l in ls ==> w(l) == 0
  {
    if ls != [] {
      var n := |ls| - 1;
      assert ls == ls[..n] + [ls[n]];
      SumZero(w, ls[..n]);
    }
  }

  // ---------------------------------------------------------------------------------------------------------------
  // Steps
  // ---------------------------------------------------------------------------------------------------------------

  function AsIdle(s: Net): LinkId -> nat {
    (l: LinkId) => if l in s.lines && !s.lines[l].busy then 1 else 0
  }

  /** The number of idle links. */
  function IdleCount(s: Net): nat {
    Sum(AsIdle(s), Pairs(s.n))
  }

  ghost predicate AllIdle(s: Net) {
    forall l :: l in s.lines ==> !s.lines[l].busy
  }

  /** What `Link::reconfigure` asserts, for every link: it may be busy only if its figures stay as they are. */
  ghost predicate MaySwap(s: Net)
    requires Shape(s)
  {
    forall l :: l in s.lines && s.lines[l].busy ==>
      s.lines[l].bandwidth == s.bandwidths[l.src][l.dest] && s.lines[l].latency == s.latencies[l.src][l.dest]
  }

  ghost predicate Shape(s: Net) {
    && (forall l :: l in s.lines <==> IsPair(s.n, l))
    && |s.iteration| == s.n
    && |s.bandwidths| == |s.latencies| == s.n
    && (forall i :: 0 <= i < s.n ==> |s.bandwidths[i]| == |s.latencies[i]| == s.n)
  }

  /** `Link::reconfigure`: a link whose figures do not change is left alone; any other is busy until it is set up. Either
      way its device schedules a link-free event. */
  function Retuned(line: Line, bandwidth: real, latency: real): Line {
    if bandwidth == line.bandwidth && latency == line.latency then line
    else line.(busy := true, bandwidth := bandwidth, latency := latency)
  }

  /** The swap at the end of a drain: every device moves to the next iteration and reconfigures its links. */
  function Swap(s: Net): Net
    requires Shape(s)
  {
    s.(drained := 0,
       reconfiguring := false,
       iteration := seq(s.n, i requires 0 <= i < s.n => s.iteration[i] + 1),
       lines := map l | l in s.lines :: Retuned(s.lines[l], s.bandwidths[l.src][l.dest], s.latencies[l.src][l.dest]),
       events := s.events + multiset(Pairs(s.n)))
  }

  /** `increment_callback`. */
  function Increment(s: Net): Net
    requires Shape(s)
  {
    if !s.reconfiguring then s.(drained := 0)
    else if s.drained + 1 < s.n * (s.n - 1) then s.(drained := s.drained + 1)
    else Swap(s)
  }

  predicate StartsNow(s: Net, l: LinkId, tag: int)
    requires Shape(s) && l in s.lines
  {
    !s.lines[l].busy && s.lines[l].bandwidth != 0.0 && tag <= s.iteration[l.src]
  }

  /** `Device::send` of a chunk whose next hop is over `l`. */
  function Send(s: Net, l: LinkId, tag: int): Net
    requires Shape(s) && l in s.lines
  {
    var k := s.lines[l];
    if StartsNow(s, l, tag)
    then s.(lines := s.lines[l := k.(busy := true)], events := s.events + multiset{l})
    else s.(lines := s.lines[l := k.(pending := k.pending + [tag])])
  }

  predicate Blocked(s: Net, l: LinkId)
    requires Shape(s) && l in s.lines
  {
    s.lines[l].pending == [] || s.lines[l].pending[0] > s.iteration[l.src]
  }

  /** The event is taken and the link set free. */
  function SetFree(s: Net, l: LinkId): Net
    requires Shape(s) && l in s.lines
  {
    s.(events := s.events - multiset{l}, lines := s.lines[l := s.lines[l].(busy := false)])
  }

  /** `Device::link_become_free`. */
  function BecomeFree(s: Net, l: LinkId): Net
    requires Shape(s) && l in s.lines
  {
    var t := SetFree(s, l);
    if Blocked(s, l) then Increment(t)
    else t.(lines := t.lines[l := t.lines[l].(busy := true, pending := t.lines[l].pending[1..])],
            events := t.events + multiset{l})
  }

  /** The event of link `l` brings the count to its target. */
  predicate SwapsNow(s: Net, l: LinkId)
    requires Shape(s) && l in s.lines
  {
    s.reconfiguring && Blocked(s, l) && s.drained + 1 >= s.n * (s.n - 1)
  }

  /** `drain_network`: every idle link is counted, and the count reaches the number of links, if at all, at the last one. */
  function DrainNetwork(s: Net): Net
    requires Shape(s)
  {
    if Pairs(s.n) != [] && IdleCount(s) == |Pairs(s.n)| then Swap(s) else s.(drained := IdleCount(s))
  }

  predicate Accepts(s: Net, topoId: int) {
    topoId != s.curTopoId && !s.reconfiguring && s.inflight <= 0
  }

  ghost predicate MatrixOk(n: nat, m: Matrix) {
    |m| == n && forall i :: 0 <= i < n ==> |m[i]| == n
  }

  predicate NonNegative(m: Matrix) {
    forall i, j :: 0 <= i < |m| && 0 <= j < |m[i]| && i != j ==> m[i][j] >= 0.0
  }

  function Announced(s: Net, topoId: int, bandwidths: Matrix, latencies: Matrix): Net {
    s.(bandwidths := bandwidths, latencies := latencies, reconfiguring := true, curTopoId := topoId,
       topologyIteration := s.topologyIteration + 1)
  }

  /** `TopologyManager::reconfigure`; a request for the current topology, or one that comes while the network is being
      drained or a collective is in flight, changes nothing. */
  function Request(s: Net, topoId: int, bandwidths: Matrix, latencies: Matrix): Net
    requires Shape(s) && MatrixOk(s.n, bandwidths) && MatrixOk(s.n, latencies)
  {
    if Accepts(s, topoId) then DrainNetwork(Announced(s, topoId, bandwidths, latencies)) else s
  }

  datatype Action =
    | DoSend(link: LinkId, tag: int)
    | DoFree(link: LinkId)
    | DoRequest(topoId: int, bandwidths: Matrix, latencies: Matrix)
    | DoSet(topoId: int, inflight: int)

  ghost predicate Can(s: Net, a: Action) {
    Shape(s) && match a
    case DoSend(l, _) => l in s.lines
    case DoFree(l) => l in s.lines && l in s.events
    case DoRequest(_, b, t) => MatrixOk(s.n, b) && MatrixOk(s.n, t) && NonNegative(b) && NonNegative(t)
    case DoSet(_, _) => true
  }

  ghost function Do(s: Net, a: Action): Net
    requires Can(s, a)
  {
    match a
    case DoSend(l, tag) => Send(s, l, tag)
    case DoFree(l) => BecomeFree(s, l)
    case DoRequest(id, b, t) => Request(s, id, b, t)
    case DoSet(id, k) => s.(curTopoId := id, inflight := k)
  }

  // ---------------------------------------------------------------------------------------------------------------
  // What users have to respect, and what then holds
  // ---------------------------------------------------------------------------------------------------------------

  /** While the network is being drained, no chunk is started by sending it: it comes with the tag of the topology to come,
      or its link is busy or has no bandwidth. And as long as the event that the last swap scheduled for an unchanged link
      is outstanding, nothing is started on that link and no reconfiguration is accepted. */
  ghost predicate Respects(s: Net, a: Action)
    requires Can(s, a)
  {
    match a
    case DoSend(l, tag) =>
      StartsNow(s, l, tag) ==> !s.reconfiguring && l !in s.events
    case DoFree(_) => true
    case DoRequest(id, _, _) => Accepts(s, id) ==> forall l :: l in s.lines && !s.lines[l].busy ==> l !in s.events
    case DoSet(_, _) => true
  }

  ghost predicate Inv(s: Net) {
    && Shape(s) && s.n >= 2
    && (forall l :: l in s.events ==> l in s.lines && s.events[l] == 1)
    && (forall l :: l in s.lines && s.lines[l].busy ==> l in s.events)
    && (s.reconfiguring ==>
          && s.drained == IdleCount(s) < s.n * (s.n - 1)
          && (forall l :: l in s.lines && !s.lines[l].busy ==> l !in s.events))
    && (forall i :: 0 <= i < s.n ==>
          s.iteration[i] == if s.reconfiguring then s.topologyIteration - 1 else s.topologyIteration)
  }

  function Init(n: nat, bandwidths: Matrix, latencies: Matrix): Net {
    Net(n, map l | l in Pairs(n) :: Line(false, 0.0, 0.0, []), seq(n, _ => 0), multiset{}, false, 0, 0, -1, 0,
        bandwidths, latencies)
  }

  lemma InitInv(n: nat, bandwidths: Matrix, latencies: Matrix)
    requires n >= 2 && MatrixOk(n, bandwidths) && MatrixOk(n, latencies)
    ensures Inv(Init(n, bandwidths, latencies))
  {
    PairsCount(n);
  }

  lemma IdleChange(s: Net, t: Net, l: LinkId)
    requires s.n == t.n && IsPair(s.n, l)
    requires s.lines.Keys == t.lines.Keys && forall m :: m in s.lines && m != l ==> s.lines[m].busy == t.lines[m].busy
    ensures IdleCount(s) + AsIdle(t)(l) == IdleCount(t) + AsIdle(s)(l)
  {
    PairsCount(s.n);
    SumChange(AsIdle(s), AsIdle(t), Pairs(s.n), l);
  }

  /** The count of idle links is complete exactly when the network is quiet. */
  lemma IdleComplete(s: Net)
    requires Shape(s)
    ensures IdleCount(s) <= s.n * (s.n - 1)
    ensures IdleCount(s) == s.n * (s.n - 1) <==> AllIdle(s)
  {
    PairsCount(s.n);
    SumBound(AsIdle(s), Pairs(s.n));
    if AllIdle(s) {
      assert forall l :: l in Pairs(s.n) ==> l in s.lines;
    }
  }

  lemma SwapKeeps(s: Net)
    requires Shape(s) && s.n >= 2 && AllIdle(s)
    requires forall l :: l !in s.events
    requires forall i :: 0 <= i < s.n ==> s.iteration[i] == s.topologyIteration - 1
    ensures Inv(Swap(s))
  {
    PairsCount(s.n);
    var t := Swap(s);
    forall l | l in t.events ensures l in t.lines && t.events[l] == 1 {
      OnceInPairs(s.n, l);
    }
    forall l | l in t.lines && t.lines[l].busy ensures l in t.events {
      assert l in Pairs(s.n);
    }
  }

  lemma {:induction false} OnceIn(ls: seq<LinkId>, l: LinkId)
    requires NoRepeat(ls)
    ensures multiset(ls)[l] <= 1
  {
    if ls != [] {
      var n := |ls| - 1;
      assert ls == ls[..n] + [ls[n]];
      OnceIn(ls[..n], l);
      assert forall i :: 0 <= i < n ==> ls[..n][i] != ls[n];
    }
  }

  lemma OnceInPairs(n: nat, l: LinkId)
    ensures multiset(Pairs(n))[l] == if IsPair(n, l) then 1 else 0
  {
    PairsCount(n);
    OnceIn(Pairs(n), l);
    assert l in Pairs(n) <==> IsPair(n, l);
  }

  lemma SendKeeps(s: Net, l: LinkId, tag: int)
    requires Inv(s) && Can(s, DoSend(l, tag)) && Respects(s, DoSend(l, tag))
    ensures Inv(Send(s, l, tag))
  {
    hide IdleCount;
    var t := Send(s, l, tag);
    IdleChange(s, t, l);
  }

  /** With its event taken and the link idle, a drain is one link further. */
  lemma SetFreeFacts(s: Net, l: LinkId)
    requires Inv(s) && l in s.lines && l in s.events
    ensures var t := SetFree(s, l);
            && Shape(t)
            && (forall m :: m in t.events ==> m in t.lines && t.events[m] == 1)
            && l !in t.events
            && (forall m :: m in t.lines && t.lines[m].busy ==> m in t.events)
            && (s.reconfiguring ==>
                  && s.lines[l].busy
                  && IdleCount(t) == IdleCount(s) + 1
                  && (forall m :: m in t.lines && !t.lines[m].busy ==> m !in t.events))
  {
    hide IdleCount;
    IdleChange(s, SetFree(s, l), l);
  }

  lemma FreeServes(s: Net, l: LinkId)
    requires Inv(s) && l in s.lines && l in s.events && !Blocked(s, l)
    ensures Inv(BecomeFree(s, l))
  {
    hide IdleCount, AllIdle, Swap;
    SetFreeFacts(s, l);
    var t, u := SetFree(s, l), BecomeFree(s, l);
    IdleChange(s, u, l);
    assert u.lines.Keys == s.lines.Keys && u.lines[l].busy && u.events == t.events + multiset{l};
  }

  lemma FreeCounts(s: Net, l: LinkId)
    requires Inv(s) && l in s.lines && l in s.events && Blocked(s, l)
    ensures Inv(BecomeFree(s, l))
  {
    hide IdleCount, Swap;
    var t := SetFree(s, l);
    SetFreeFacts(s, l);
    IdleComplete(t);
    if !s.reconfiguring {
    } else if s.drained + 1 < s.n * (s.n - 1) {
      SameLines(t, Increment(t));
    } else {
      SwapKeeps(t);
    }
  }

  lemma SameLines(s: Net, t: Net)
    requires s.n == t.n && s.lines == t.lines
    ensures IdleCount(s) == IdleCount(t)
  {
    SumSame(AsIdle(s), AsIdle(t), Pairs(s.n));
  }

  lemma FreeKeeps(s: Net, l: LinkId)
    requires Inv(s) && Can(s, DoFree(l))
    ensures Inv(BecomeFree(s, l))
  {
    hide Inv, BecomeFree;
    if Blocked(s, l) {
      FreeCounts(s, l);
    } else {
      FreeServes(s, l);
    }
  }

  lemma RequestKeeps(s: Net, topoId: int, bandwidths: Matrix, latencies: Matrix)
    requires Inv(s) && Can(s, DoRequest(topoId, bandwidths, latencies))
    requires Respects(s, DoRequest(topoId, bandwidths, latencies))
    ensures Inv(Request(s, topoId, bandwidths, latencies))
  {
    hide IdleCount, Swap;
    if Accepts(s, topoId) {
      var t := Announced(s, topoId, bandwidths, latencies);
      PairsCount(s.n);
      assert LinkId(0, 1) in Pairs(s.n);
      IdleComplete(t);
      if IdleCount(t) == |Pairs(t.n)| {
        SwapKeeps(t);
      } else {
        SameLines(t, DrainNetwork(t));
      }
    }
  }

  /** The protocol's invariant is kept by users who respect it. */
  lemma DoKeeps(s: Net, a: Action)
    requires Inv(s) && Can(s, a) && Respects(s, a)
    ensures Inv(Do(s, a))
  {
    match a
    case DoSend(l, tag) => SendKeeps(s, l, tag);
    case DoFree(l) => FreeKeeps(s, l);
    case DoRequest(id, b, t) => RequestKeeps(s, id, b, t);
    case DoSet(id, k) =>
      var t := Do(s, a);
      SumSame(AsIdle(s), AsIdle(t), Pairs(s.n));
  }

  /** And by no others: whoever does not respect the protocol breaks it with that very step. */
  lemma KeepsIffRespects(s: Net, a: Action)
    requires Inv(s) && Can(s, a)
    ensures Inv(Do(s, a)) <==> Respects(s, a)
  {
    hide IdleCount;
    if Respects(s, a) {
      DoKeeps(s, a);
    } else {
      match a
      case DoSend(l, tag) => IdleChange(s, Send(s, l, tag), l);
      case DoRequest(id, b, t) => RequestBreaks(s, id, b, t);
    }
  }

  lemma RequestBreaks(s: Net, topoId: int, bandwidths: Matrix, latencies: Matrix)
    requires Inv(s) && Can(s, DoRequest(topoId, bandwidths, latencies))
    requires !Respects(s, DoRequest(topoId, bandwidths, latencies))
    ensures !Inv(Request(s, topoId, bandwidths, latencies))
  {
    hide IdleCount;
    var l :| l in s.lines && !s.lines[l].busy && l in s.events;
    var t := Announced(s, topoId, bandwidths, latencies);
    if DrainNetwork(t) == Swap(t) {
      OnceInPairs(s.n, l);
      assert Swap(t).events[l] == 2;
    }
  }
}
