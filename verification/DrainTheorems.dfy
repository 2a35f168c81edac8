/** What the drain-then-swap protocol achieves for users who respect it: it swaps exactly when the network is quiet, after a
    number of events that is settled when the drain starts. */
module DrainTheorems {
  import opened Links
  import opened Drain

  // ---------------------------------------------------------------------------------------------------------------
  // Safety: no link is reconfigured while it is busy
  // ---------------------------------------------------------------------------------------------------------------

  /** A drain ends in the very event after which every link is idle, and in no other; the swap starts from there. */
  lemma SwapsWhenQuiet(s: Net, l: LinkId)
    requires Inv(s) && Can(s, DoFree(l)) && s.reconfiguring
    ensures var t := SetFree(s, l);
            && (!BecomeFree(s, l).reconfiguring <==> Blocked(s, l) && AllIdle(t))
            && (!BecomeFree(s, l).reconfiguring ==> BecomeFree(s, l) == Swap(t))
  {
    hide IdleCount, Swap;
    SetFreeFacts(s, l);
    IdleComplete(SetFree(s, l));
    SwapEnds(SetFree(s, l));
  }

  lemma CountIsRight(s: Net, l: LinkId)
    requires Inv(s) && Can(s, DoFree(l)) && SwapsNow(s, l)
    ensures AllIdle(SetFree(s, l))
  {
    hide IdleCount, AllIdle;
    SetFreeFacts(s, l);
    IdleComplete(SetFree(s, l));
  }

  /** So `Link::reconfigure` never meets a busy link. */
  lemma SwapIsLegal(s: Net, l: LinkId)
    requires Inv(s) && Can(s, DoFree(l)) && SwapsNow(s, l)
    ensures Shape(SetFree(s, l)) && MaySwap(SetFree(s, l))
  {
    CountIsRight(s, l);
  }

  lemma SwapEnds(s: Net)
    requires Shape(s)
    ensures !Swap(s).reconfiguring
  {
  }

  /** A request that is accepted swaps at once exactly when the network is quiet already. */
  lemma RequestSwapsWhenQuiet(s: Net, topoId: int, bandwidths: Matrix, latencies: Matrix)
    requires Inv(s) && Can(s, DoRequest(topoId, bandwidths, latencies)) && Accepts(s, topoId)
    ensures var t := Request(s, topoId, bandwidths, latencies);
            && (!t.reconfiguring <==> AllIdle(s))
            && (!t.reconfiguring ==> t == Swap(Announced(s, topoId, bandwidths, latencies)))
  {
    hide IdleCount, Swap;
    var t := Announced(s, topoId, bandwidths, latencies);
    PairsCount(s.n);
    assert LinkId(0, 1) in Pairs(s.n);
    IdleComplete(t);
    SwapEnds(t);
  }

  /** Nothing else ends a drain. */
  lemma OnlyEventsEndDrains(s: Net, a: Action)
    requires Inv(s) && Can(s, a) && s.reconfiguring && !a.DoFree?
    ensures Do(s, a).reconfiguring
  {
  }

  /** A swap gives every link the figures of the topology that was asked for, moves every device to its iteration, and
      leaves what is held up alone. */
  lemma SwapInstalls(s: Net, l: LinkId)
    requires Shape(s) && l in s.lines
    ensures var t := Swap(s);
            && l in t.lines
            && t.lines[l].bandwidth == s.bandwidths[l.src][l.dest]
            && t.lines[l].latency == s.latencies[l.src][l.dest]
            && t.lines[l].pending == s.lines[l].pending
            && t.iteration[l.src] == s.iteration[l.src] + 1
            && (t.lines[l].busy <==>
                  s.lines[l].busy || t.lines[l].bandwidth != s.lines[l].bandwidth || t.lines[l].latency != s.lines[l].latency)
            && t.events[l] == s.events[l] + 1
  {
    PairsCount(s.n);
    OnceInPairs(s.n, l);
  }

  // ---------------------------------------------------------------------------------------------------------------
  // Progress: a drain takes a number of events that is settled when it starts
  // ---------------------------------------------------------------------------------------------------------------

  /** How many held-up chunks are served before one that has to wait for a later topology. */
  function Eligible(pending: seq<int>, iteration: int): (k: nat)
    ensures k <= |pending|
  {
    if pending == [] || pending[0] > iteration then 0 else 1 + Eligible(pending[1..], iteration)
  }

  lemma {:induction false} EligibleSnoc(pending: seq<int>, iteration: int, tag: int)
    ensures Eligible(pending + [tag], iteration)
         == Eligible(pending, iteration) + if Eligible(pending, iteration) == |pending| && tag <= iteration then 1 else 0
  {
    if pending == [] {
      assert [tag][1..] == [];
    } else {
      assert (pending + [tag])[1..] == pending[1..] + [tag];
      EligibleSnoc(pending[1..], iteration, tag);
    }
  }

  function Owing(s: Net): LinkId -> nat {
    (l: LinkId) =>
      if l in s.lines && s.lines[l].busy && l.src < |s.iteration|
      then 1 + Eligible(s.lines[l].pending, s.iteration[l.src]) else 0
  }

  /** The link-free events that a drain has to wait for: on every busy link the one outstanding, and one for each chunk
      still to be served by the old topology. */
  function Remaining(s: Net): nat {
    Sum(Owing(s), Pairs(s.n))
  }

  lemma RemainingChange(s: Net, t: Net, l: LinkId)
    requires s.n == t.n && s.iteration == t.iteration && IsPair(s.n, l)
    requires s.lines.Keys == t.lines.Keys && forall m :: m in s.lines && m != l ==> s.lines[m] == t.lines[m]
    ensures Remaining(s) + Owing(t)(l) == Remaining(t) + Owing(s)(l)
  {
    PairsCount(s.n);
    SumChange(Owing(s), Owing(t), Pairs(s.n), l);
  }

  lemma RemainingSame(s: Net, t: Net)
    requires s.n == t.n && s.iteration == t.iteration && s.lines == t.lines
    ensures Remaining(s) == Remaining(t)
  {
    SumSame(Owing(s), Owing(t), Pairs(s.n));
  }

  lemma RemainingZero(s: Net)
    requires Shape(s)
    ensures Remaining(s) == 0 <==> AllIdle(s)
  {
    PairsCount(s.n);
    SumZero(Owing(s), Pairs(s.n));
    if Remaining(s) == 0 {
      forall l | l in s.lines ensures !s.lines[l].busy {
        assert l in Pairs(s.n) && Owing(s)(l) == 0;
      }
    }
  }

  /** Every link-free event brings a drain one event closer to its end, and the last one ends it. */
  lemma FreeProgress(s: Net, l: LinkId)
    requires Inv(s) && Can(s, DoFree(l)) && s.reconfiguring
    ensures Remaining(s) >= 1
    ensures Remaining(s) == 1 ==> !BecomeFree(s, l).reconfiguring
    ensures Remaining(s) > 1 ==> BecomeFree(s, l).reconfiguring && Remaining(BecomeFree(s, l)) == Remaining(s) - 1
  {
    hide Inv, Remaining, BecomeFree, AllIdle;
    if Blocked(s, l) {
      CountedProgress(s, l);
    } else {
      ServedProgress(s, l);
    }
  }

  lemma ServedProgress(s: Net, l: LinkId)
    requires Inv(s) && Can(s, DoFree(l)) && s.reconfiguring && !Blocked(s, l)
    ensures Remaining(s) > 1
    ensures BecomeFree(s, l).reconfiguring && Remaining(BecomeFree(s, l)) == Remaining(s) - 1
  {
    hide IdleCount, Remaining, AllIdle;
    SetFreeFacts(s, l);
    var t := BecomeFree(s, l);
    RemainingChange(s, t, l);
    RemainingZero(t);
    assert !AllIdle(t) by {
      assert t.lines[l].busy;
      StillBusy(t, l);
    }
  }

  lemma StillBusy(s: Net, l: LinkId)
    requires l in s.lines && s.lines[l].busy
    ensures !AllIdle(s)
  {
  }

  lemma CountedProgress(s: Net, l: LinkId)
    requires Inv(s) && Can(s, DoFree(l)) && s.reconfiguring && Blocked(s, l)
    ensures Remaining(s) >= 1
    ensures Remaining(s) == 1 ==> !BecomeFree(s, l).reconfiguring
    ensures Remaining(s) > 1 ==> BecomeFree(s, l).reconfiguring && Remaining(BecomeFree(s, l)) == Remaining(s) - 1
  {
    hide IdleCount, Remaining, Swap, AllIdle;
    var t := SetFree(s, l);
    SetFreeFacts(s, l);
    RemainingChange(s, t, l);
    RemainingZero(t);
    SwapsWhenQuiet(s, l);
    SwapEnds(t);
    if BecomeFree(s, l).reconfiguring {
      RemainingSame(t, BecomeFree(s, l));
    }
  }

  /** One if the action adds to a drain: a chunk of the old topology that queues behind a busy link, with nobody in front
      of it who has to wait for the next topology. */
  ghost function Joins(s: Net, a: Action): nat
    requires Can(s, a)
  {
    match a
    case DoSend(l, tag) =>
      var k, iteration := s.lines[l], s.iteration[l.src];
      if k.busy && Eligible(k.pending, iteration) == |k.pending| && tag <= iteration then 1 else 0
    case _ => 0
  }

  /** Nothing else that users do during a drain makes a difference to it. */
  lemma OtherProgress(s: Net, a: Action)
    requires Inv(s) && Can(s, a) && Respects(s, a) && s.reconfiguring && !a.DoFree?
    ensures Do(s, a).reconfiguring && Remaining(Do(s, a)) == Remaining(s) + Joins(s, a)
  {
    hide IdleCount, Remaining;
    var t := Do(s, a);
    match a
    case DoSend(l, tag) =>
      EligibleSnoc(s.lines[l].pending, s.iteration[l.src], tag);
      RemainingChange(s, t, l);
    case DoRequest(_, _, _) =>
    case DoSet(_, _) => RemainingSame(s, t);
  }

  /** A drain is never stuck: there is always a busy link, and its event is outstanding. */
  lemma DrainNotStuck(s: Net)
    requires Inv(s) && s.reconfiguring
    ensures exists l :: l in s.lines && s.lines[l].busy && Can(s, DoFree(l))
  {
    IdleComplete(s);
    var l :| l in s.lines && s.lines[l].busy;
    assert Can(s, DoFree(l));
  }

  // ---------------------------------------------------------------------------------------------------------------
  // Runs
  // ---------------------------------------------------------------------------------------------------------------

  /** The users may do these things one after the other, and respect the protocol. */
  ghost predicate Run(s: Net, acts: seq<Action>)
    decreases acts
  {
    acts != [] ==> Can(s, acts[0]) && Respects(s, acts[0]) && Run(Do(s, acts[0]), acts[1..])
  }

  ghost function After(s: Net, acts: seq<Action>): Net
    requires Run(s, acts)
    decreases acts
  {
    if acts == [] then s else After(Do(s, acts[0]), acts[1..])
  }

  lemma {:induction false} RunKeeps(s: Net, acts: seq<Action>)
    requires Inv(s) && Run(s, acts)
    ensures Inv(After(s, acts))
    decreases acts
  {
    hide Inv, Can, Respects, Do;
    if acts != [] {
      DoKeeps(s, acts[0]);
      RunKeeps(Do(s, acts[0]), acts[1..]);
    }
  }

  /** The number of link-free events among the actions. */
  function Frees(acts: seq<Action>): nat {
    if acts == [] then 0 else (if acts[0].DoFree? then 1 else 0) + Frees(acts[1..])
  }

  /** The drain that is on in `s` is not over after any of the actions. */
  ghost predicate StillDraining(s: Net, acts: seq<Action>)
    requires Run(s, acts)
    decreases acts
  {
    s.reconfiguring && (acts != [] ==> StillDraining(Do(s, acts[0]), acts[1..]))
  }

  /** How many chunks join the drain. */
  ghost function Joining(s: Net, acts: seq<Action>): nat
    requires Run(s, acts)
    decreases acts
  {
    if acts == [] then 0 else Joins(s, acts[0]) + Joining(Do(s, acts[0]), acts[1..])
  }

  /** A supply of `owed` that every link-free event uses one of, and every chunk that joins adds one to, is never used
      up. */
  ghost predicate Lasts(s: Net, acts: seq<Action>, owed: int)
    requires Run(s, acts)
    decreases acts
  {
    owed > 0 && (acts != [] ==>
      Lasts(Do(s, acts[0]), acts[1..], owed + Joins(s, acts[0]) - if acts[0].DoFree? then 1 else 0))
  }

  /** A drain goes on exactly as long as the link-free events owing at its start, and those of the chunks that join it,
      have not all happened. */
  lemma {:induction false} Draining(s: Net, acts: seq<Action>)
    requires Inv(s) && s.reconfiguring && Run(s, acts)
    ensures StillDraining(s, acts) <==> Lasts(s, acts, Remaining(s))
    ensures StillDraining(s, acts) ==> Remaining(After(s, acts)) + Frees(acts) == Remaining(s) + Joining(s, acts)
    decreases acts
  {
    hide Inv, Can, Respects, Do, Remaining, Joins;
    RemainingSome(s);
    if acts != [] {
      DoKeeps(s, acts[0]);
      StepProgress(s, acts[0]);
      if Do(s, acts[0]).reconfiguring {
        Draining(Do(s, acts[0]), acts[1..]);
      }
    }
  }

  lemma RemainingSome(s: Net)
    requires Inv(s) && s.reconfiguring
    ensures Remaining(s) > 0
  {
    hide IdleCount, Remaining;
    RemainingZero(s);
    IdleComplete(s);
  }

  lemma StepProgress(s: Net, a: Action)
    requires Inv(s) && Can(s, a) && Respects(s, a) && s.reconfiguring
    ensures a.DoFree? ==> Remaining(s) >= 1 && Joins(s, a) == 0
    ensures a.DoFree? && Remaining(s) == 1 ==> !Do(s, a).reconfiguring
    ensures a.DoFree? && Remaining(s) > 1 ==> Do(s, a).reconfiguring && Remaining(Do(s, a)) == Remaining(s) - 1
    ensures !a.DoFree? ==> Do(s, a).reconfiguring && Remaining(Do(s, a)) == Remaining(s) + Joins(s, a)
  {
    hide Inv, Respects, Remaining;
    if a.DoFree? {
      FreeProgress(s, a.link);
    } else {
      OtherProgress(s, a);
    }
  }

  /** The event that completes the number ends the drain. */
  lemma DrainEnds(s: Net, acts: seq<Action>, l: LinkId)
    requires Inv(s) && s.reconfiguring && Run(s, acts) && StillDraining(s, acts)
    requires Frees(acts) + 1 == Remaining(s) + Joining(s, acts) && Can(After(s, acts), DoFree(l))
    ensures !Do(After(s, acts), DoFree(l)).reconfiguring
  {
    hide Inv, Respects, Remaining, Joins;
    Draining(s, acts);
    RunKeeps(s, acts);
    StillAfter(s, acts);
    FreeProgress(After(s, acts), l);
  }

  lemma {:induction false} StillAfter(s: Net, acts: seq<Action>)
    requires Run(s, acts) && StillDraining(s, acts)
    ensures After(s, acts).reconfiguring
    decreases acts
  {
    hide Can, Respects, Do;
    if acts != [] {
      StillAfter(Do(s, acts[0]), acts[1..]);
    }
  }

  /** Chunks for the topology to come do not join. */
  lemma {:induction false} NewChunksDoNotJoin(s: Net, acts: seq<Action>)
    requires Inv(s) && Run(s, acts) && StillDraining(s, acts)
    requires forall i :: 0 <= i < |acts| && acts[i].DoSend? ==> acts[i].tag >= s.topologyIteration
    ensures Joining(s, acts) == 0
    decreases acts
  {
    if acts != [] {
      DoKeeps(s, acts[0]);
      SameIteration(s, acts[0]);
      hide Inv, Respects, Do;
      NewChunksDoNotJoin(Do(s, acts[0]), acts[1..]);
    }
  }

  lemma SameIteration(s: Net, a: Action)
    requires Inv(s) && Can(s, a) && s.reconfiguring
    ensures Do(s, a).topologyIteration == s.topologyIteration
    ensures a.DoSend? && a.tag >= s.topologyIteration ==> Joins(s, a) == 0
  {
  }

  /** What a drain owes at its start is read off the state in which it was asked for; with nothing owing it is over at
      once. */
  lemma DrainStarts(s: Net, topoId: int, bandwidths: Matrix, latencies: Matrix)
    requires Inv(s) && Can(s, DoRequest(topoId, bandwidths, latencies)) && Accepts(s, topoId)
    ensures var t := Request(s, topoId, bandwidths, latencies);
            && (Remaining(s) == 0 <==> !t.reconfiguring)
            && (t.reconfiguring ==> Remaining(t) == Remaining(s))
  {
    hide IdleCount, Remaining, AllIdle;
    RequestSwapsWhenQuiet(s, topoId, bandwidths, latencies);
    RemainingZero(s);
    var t := Request(s, topoId, bandwidths, latencies);
    if t.reconfiguring {
      RemainingSame(s, t);
    }
  }
}
