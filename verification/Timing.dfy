/** When a link serves and delivers chunks: its services never overlap, a later chunk overtakes an earlier one by at most
    one nanosecond, and the time a chunk comes out of a link is settled the moment it is sent. */
module Timing {
  import opened Links
  import opened Delays
  import opened Network
  import opened Runs
  import opened Makespan

  // ---------------------------------------------------------------------------------------------------------------
  // Services do not overlap
  // ---------------------------------------------------------------------------------------------------------------

  predicate StartedHere(o: Obs, l: LinkId) {
    o.Started? && o.link == l
  }

  function EndOf(w: Wire, o: Obs): nat
    requires w.Valid() && o.Started?
  {
    o.at + w.SerializationDelay(o.size)
  }

  function ArrivalOf(w: Wire, o: Obs): nat
    requires w.Valid() && o.Started?
  {
    o.at + w.CommunicationDelay(o.size)
  }

  /** Every service in the log has ended before the next on the same link begins, and the last by `limit`. */
  ghost predicate Spaced(w: Wire, log: seq<Obs>, l: LinkId, limit: nat)
    requires w.Valid()
  {
    && (forall i :: 0 <= i < |log| && StartedHere(log[i], l) ==> EndOf(w, log[i]) <= limit)
    && (forall i, j :: 0 <= i < j < |log| && StartedHere(log[i], l) && StartedHere(log[j], l) ==>
          EndOf(w, log[i]) <= log[j].at)
  }

  lemma SpacedOther(w: Wire, log: seq<Obs>, l: LinkId, limit: nat, o: Obs)
    requires w.Valid() && Spaced(w, log, l, limit) && !StartedHere(o, l)
    ensures Spaced(w, log + [o], l, limit)
  {
  }

  lemma SpacedSame(w: Wire, log: seq<Obs>, l: LinkId, limit: nat, o: Obs)
    requires w.Valid() && Spaced(w, log, l, limit) && StartedHere(o, l) && limit <= o.at
    ensures Spaced(w, log + [o], l, EndOf(w, o))
  {
  }

  ghost predicate OneAtATime(f: Fabric, s: Sim, l: LinkId)
    requires l in f && f[l].Valid()
  {
    l in s.links ==> Spaced(f[l], s.log, l, s.links[l].freeAt)
  }

  lemma TransmitSpaced(f: Fabric, s: Sim, m: LinkId, c: nat, l: LinkId)
    requires CanStart(f, s, m, c) && l in f && f[l].Valid() && OneAtATime(f, s, l)
    requires s.links[m].freeAt <= s.now
    ensures OneAtATime(f, Transmit(f, s, m, c), l)
  {
    if l in s.links {
      var o := Started(m, c, s.chunks[c].size, s.now);
      hide Spaced;
      if l == m {
        SpacedSame(f[l], s.log, l, s.links[l].freeAt, o);
      } else {
        SpacedOther(f[l], s.log, l, s.links[l].freeAt, o);
      }
    }
  }

  lemma SendSpaced(f: Fabric, s: Sim, m: LinkId, c: nat, l: LinkId)
    requires CanStart(f, s, m, c) && l in f && f[l].Valid() && OneAtATime(f, s, l)
    requires !s.links[m].busy ==> s.links[m].freeAt <= s.now
    ensures OneAtATime(f, LinkSend(f, s, m, c), l)
  {
    var t := s.(log := s.log + [Sent(m, c)]);
    if l in s.links {
      SpacedOther(f[l], s.log, l, s.links[l].freeAt, Sent(m, c));
    }
    hide Spaced;
    if !s.links[m].busy {
      TransmitSpaced(f, t, m, c, l);
    }
  }

  lemma LandSpaced(f: Fabric, s: Sim, c: nat, l: LinkId)
    requires c < |s.chunks| && |s.chunks[c].route| >= 2
    requires l in f && f[l].Valid() && OneAtATime(f, s, l)
    ensures OneAtATime(f, Land(s, c), l)
  {
    if l in s.links {
      hide Spaced;
      var k := s.chunks[c];
      var landed := s.log + [Landed(Hop(k.route), c)];
      SpacedOther(f[l], s.log, l, s.links[l].freeAt, Landed(Hop(k.route), c));
      SpacedOther(f[l], landed, l, s.links[l].freeAt, Called(k.route[1], c, s.now));
    }
  }

  lemma ArriveSpaced(f: Fabric, s: Sim, c: nat, l: LinkId)
    requires CanStep(f, s) && s.queue[0].event == Arrived(c) && l in f && OneAtATime(f, s, l)
    ensures OneAtATime(f, Step(f, s), l)
  {
    ArriveShape(f, s, c);
    TakenKeeps(s);
    LandSpaced(f, Taken(s), c, l);
    var t := Land(Taken(s), c);
    if |t.chunks[c].route| != 1 {
      var m := Hop(t.chunks[c].route);
      assert LinkOk(s, Nothing, m);
      hide CanStep, Step, OneAtATime;
      SendSpaced(f, t, m, c, l);
    }
  }

  lemma BecomeFreeSpaced(f: Fabric, s: Sim, m: LinkId, l: LinkId)
    requires CanStep(f, s) && s.queue[0].event == Free(m) && l in f && OneAtATime(f, s, l)
    ensures OneAtATime(f, Step(f, s), l)
  {
    FreeShape(f, s, m);
    FreeKeeps(f, s, m);
    hide CanStep, Step, Spaced, InvWith;
    var t := SetFree(Taken(s), m);
    if t.links[m].pending != [] {
      TransmitSpaced(f, PopPending(t, m), m, t.links[m].pending[0], l);
    }
  }

  lemma ActSpaced(f: Fabric, s: Sim, a: Action, l: LinkId)
    requires CanAct(f, s, a) && l in f && OneAtATime(f, s, l)
    ensures OneAtATime(f, Act(f, s, a), l)
  {
    match a
    case Happen =>
      hide OneAtATime;
      if s.queue[0].event.Arrived? {
        ArriveSpaced(f, s, s.queue[0].event.chunk, l);
      } else {
        BecomeFreeSpaced(f, s, s.queue[0].event.link, l);
      }
    case Hand(p) =>
      assert LinkOk(s, Nothing, Hop(p.route));
      hide Spaced;
      SendSpaced(f, Enter(s, p.route, p.size), Hop(p.route), |s.chunks|, l);
  }

  lemma {:induction false} RunSpaced(f: Fabric, s: Sim, acts: seq<Action>, l: LinkId)
    requires Run(f, s, acts) && l in f && f[l].Valid() && OneAtATime(f, s, l)
    ensures OneAtATime(f, After(f, s, acts), l)
    decreases acts
  {
    hide CanAct, Act, OneAtATime;
    if acts != [] {
      ActSpaced(f, s, acts[0], l);
      RunSpaced(f, Act(f, s, acts[0]), acts[1..], l);
    }
  }

  /** In every run, of two chunks a link served one after the other, the first had left it when the second began, and
      the second comes out at most one nanosecond before the first. */
  lemma ServedApart(f: Fabric, acts: seq<Action>, l: LinkId, i: nat, j: nat)
    requires Run(f, Init(f), acts) && l in f && f[l].Valid() && i < j < |After(f, Init(f), acts).log|
    requires StartedHere(After(f, Init(f), acts).log[i], l) && StartedHere(After(f, Init(f), acts).log[j], l)
    ensures var log := After(f, Init(f), acts).log;
            && EndOf(f[l], log[i]) <= log[j].at
            && ArrivalOf(f[l], log[i]) <= ArrivalOf(f[l], log[j]) + 1
  {
    hide CanAct, Act, Inv;
    RunKeeps(f, Init(f), acts);
    RunSpaced(f, Init(f), acts, l);
    var t := After(f, Init(f), acts);
    InvLinks(f, t, l);
    DelayGap(f[l], t.log[i].size);
    DelayGap(f[l], t.log[j].size);
  }

  lemma InvLinks(f: Fabric, s: Sim, l: LinkId)
    requires Inv(f, s) && l in f
    ensures l in s.links && f[l].Valid()
  {
  }

  // ---------------------------------------------------------------------------------------------------------------
  // The time of a landing is settled when the chunk is sent
  // ---------------------------------------------------------------------------------------------------------------

  function SizeOf(chunks: seq<ChunkState>, c: nat): nat {
    if c < |chunks| then chunks[c].size else 0
  }

  /** How long a link is taken by the chunks it holds up. */
  function Backlog(w: Wire, chunks: seq<ChunkState>, pending: seq<nat>): nat
    requires w.Valid()
  {
    if pending == [] then 0
    else w.SerializationDelay(SizeOf(chunks, pending[0])) + Backlog(w, chunks, pending[1..])
  }

  lemma {:induction false} BacklogFrame(w: Wire, chunks: seq<ChunkState>, chunks': seq<ChunkState>, pending: seq<nat>)
    requires w.Valid() && forall c :: c in pending ==> SizeOf(chunks, c) == SizeOf(chunks', c)
    ensures Backlog(w, chunks, pending) == Backlog(w, chunks', pending)
  {
    if pending != [] {
      assert pending[0] in pending;
      BacklogFrame(w, chunks, chunks', pending[1..]);
    }
  }

  lemma {:induction false} BacklogSnoc(w: Wire, chunks: seq<ChunkState>, pending: seq<nat>, c: nat)
    requires w.Valid()
    ensures Backlog(w, chunks, pending + [c]) == Backlog(w, chunks, pending) + w.SerializationDelay(SizeOf(chunks, c))
  {
    if pending == [] {
      assert ([] + [c])[1..] == [];
    } else {
      assert (pending + [c])[1..] == pending[1..] + [c];
      BacklogSnoc(w, chunks, pending[1..], c);
    }
  }

  /** When a link will have served everything it has been given so far. */
  function Horizon(w: Wire, now: nat, k: LinkState, chunks: seq<ChunkState>): nat
    requires w.Valid()
  {
    (if k.busy then k.freeAt else now) + Backlog(w, chunks, k.pending)
  }

  /** Chunk `c` is held up at position `j`: it is due at the far side once everybody in front of it has been served. */
  ghost predicate HeldUp(w: Wire, k: LinkState, chunks: seq<ChunkState>, c: nat, j: nat, t: nat)
    requires w.Valid()
  {
    && k.busy && j < |k.pending| && k.pending[j] == c
    && t == k.freeAt + Backlog(w, chunks, k.pending[..j]) + w.CommunicationDelay(SizeOf(chunks, c))
  }

  /** Chunk `c` is on its way over its next hop, in flight or held up, and due at the far side at `t`. */
  ghost predicate Due(f: Fabric, s: Sim, c: nat, t: nat) {
    && c < |s.chunks| && |s.chunks[c].route| >= 2
    && var k, l := s.chunks[c], Hop(s.chunks[c].route);
       && l in f && f[l].Valid() && l in s.links
       && (k.phase == InFlight(t)
           || (k.phase == Waiting && exists j :: HeldUp(f[l], s.links[l], s.chunks, c, j, t)))
  }

  lemma QueueSettles(f: Fabric, s: Sim, l: LinkId, c: nat)
    requires CanStart(f, s, l, c) && OnLink(s, c, l) && s.chunks[c].phase == Waiting && s.links[l].busy
    ensures var h, size, t := Horizon(f[l], s.now, s.links[l], s.chunks), s.chunks[c].size, LinkSend(f, s, l, c);
            && Due(f, t, c, h + f[l].CommunicationDelay(size))
            && Horizon(f[l], t.now, t.links[l], t.chunks) == h + f[l].SerializationDelay(size)
  {
    var k, size, t := s.links[l], s.chunks[c].size, LinkSend(f, s, l, c);
    var k' := t.links[l];
    assert t.chunks == s.chunks && k' == k.(pending := k.pending + [c]);
    assert k'.pending[..|k.pending|] == k.pending;
    BacklogSnoc(f[l], s.chunks, k.pending, c);
    var due := Horizon(f[l], s.now, k, s.chunks) + f[l].CommunicationDelay(size);
    assert HeldUp(f[l], k', t.chunks, c, |k.pending|, due);
  }

  lemma TransmitSettles(f: Fabric, s: Sim, l: LinkId, c: nat)
    requires CanStart(f, s, l, c) && OnLink(s, c, l) && !s.links[l].busy && s.links[l].pending == []
    ensures var h, size, t := Horizon(f[l], s.now, s.links[l], s.chunks), s.chunks[c].size, LinkSend(f, s, l, c);
            && Due(f, t, c, h + f[l].CommunicationDelay(size))
            && Horizon(f[l], t.now, t.links[l], t.chunks) == h + f[l].SerializationDelay(size)
  {
  }

  /** A chunk's landing is settled when it is handed to a link: after everything the link has been given before. */
  lemma SendSettles(f: Fabric, s: Sim, l: LinkId, c: nat)
    requires CanStart(f, s, l, c) && OnLink(s, c, l) && s.chunks[c].phase == Waiting
    requires !s.links[l].busy ==> s.links[l].pending == []
    ensures var h, size, t := Horizon(f[l], s.now, s.links[l], s.chunks), s.chunks[c].size, LinkSend(f, s, l, c);
            && Due(f, t, c, h + f[l].CommunicationDelay(size))
            && Horizon(f[l], t.now, t.links[l], t.chunks) == h + f[l].SerializationDelay(size)
  {
    if s.links[l].busy {
      QueueSettles(f, s, l, c);
    } else {
      TransmitSettles(f, s, l, c);
    }
  }

  // ---- what other chunks do changes nothing ----

  lemma HeldUpFrame(w: Wire, k: LinkState, chunks: seq<ChunkState>, chunks': seq<ChunkState>, c: nat, j: nat, t: nat)
    requires w.Valid() && HeldUp(w, k, chunks, c, j, t)
    requires forall d :: d in k.pending ==> SizeOf(chunks, d) == SizeOf(chunks', d)
    ensures HeldUp(w, k, chunks', c, j, t)
  {
    assert c in k.pending;
    assert forall d :: d in k.pending[..j] ==> d in k.pending;
    BacklogFrame(w, chunks, chunks', k.pending[..j]);
  }

  lemma HeldUpSnoc(w: Wire, k: LinkState, chunks: seq<ChunkState>, c: nat, j: nat, t: nat, d: nat)
    requires w.Valid() && HeldUp(w, k, chunks, c, j, t)
    ensures HeldUp(w, k.(pending := k.pending + [d]), chunks, c, j, t)
  {
    assert (k.pending + [d])[..j] == k.pending[..j];
  }

  /** The chunk in front of a held-up one is taken: the wait gets shorter by its service. */
  lemma HeldUpPop(w: Wire, k: LinkState, chunks: seq<ChunkState>, c: nat, j: nat, t: nat)
    requires w.Valid() && HeldUp(w, k, chunks, c, j, t) && j > 0
    ensures var free := k.freeAt + w.SerializationDelay(SizeOf(chunks, k.pending[0]));
            HeldUp(w, LinkState(true, free, k.pending[1..]), chunks, c, j - 1, t)
  {
    assert k.pending[..j][1..] == k.pending[1..][..j - 1];
  }

  /** `s` and `t` look the same to a chunk on its way over its next hop. */
  lemma DueFrame(f: Fabric, s: Sim, t: Sim, c: nat, due: nat)
    requires Due(f, s, c, due) && |s.chunks| <= |t.chunks|
    requires forall d :: 0 <= d < |s.chunks| ==> s.chunks[d].size == t.chunks[d].size
    requires t.chunks[c] == s.chunks[c]
    requires var l := Hop(s.chunks[c].route);
             l in t.links && (s.chunks[c].phase == Waiting ==>
               && t.links[l] == s.links[l]
               && forall d :: d in s.links[l].pending ==> d < |s.chunks|)
    ensures Due(f, t, c, due)
  {
    var k, l := s.chunks[c], Hop(s.chunks[c].route);
    if k.phase == Waiting {
      var j: nat :| HeldUp(f[l], s.links[l], s.chunks, c, j, due);
      HeldUpFrame(f[l], s.links[l], s.chunks, t.chunks, c, j, due);
    }
  }

  lemma TransmitDue(f: Fabric, s: Sim, m: LinkId, d: nat, c: nat, due: nat)
    requires CanStart(f, s, m, d) && d != c && !s.links[m].busy && Due(f, s, c, due)
    requires forall l, e :: l in s.links && e in s.links[l].pending ==> e < |s.chunks|
    ensures Due(f, Transmit(f, s, m, d), c, due)
  {
    var t := Transmit(f, s, m, d);
    var k, l := s.chunks[c], Hop(s.chunks[c].route);
    if k.phase == Waiting {
      var j: nat :| HeldUp(f[l], s.links[l], s.chunks, c, j, due);
      assert l != m;
    }
    hide Due;
    DueFrame(f, s, t, c, due);
  }

  lemma SendDue(f: Fabric, s: Sim, m: LinkId, d: nat, c: nat, due: nat)
    requires CanStart(f, s, m, d) && d != c && Due(f, s, c, due)
    requires forall l, e :: l in s.links && e in s.links[l].pending ==> e < |s.chunks|
    ensures Due(f, LinkSend(f, s, m, d), c, due)
  {
    var t := s.(log := s.log + [Sent(m, d)]);
    if !s.links[m].busy {
      TransmitDue(f, t, m, d, c, due);
    } else {
      var k, l := s.chunks[c], Hop(s.chunks[c].route);
      if k.phase == Waiting {
        var j: nat :| HeldUp(f[l], s.links[l], s.chunks, c, j, due);
        HeldUpSnoc(f[l], s.links[l], s.chunks, c, j, due, d);
      }
    }
  }

  lemma PendingKnown(f: Fabric, s: Sim, held: Held)
    requires InvWith(f, s, held)
    ensures forall l, e :: l in s.links && e in s.links[l].pending ==> e < |s.chunks|
  {
    forall l, e | l in s.links && e in s.links[l].pending ensures e < |s.chunks| {
      assert LinkOk(s, held, l);
    }
  }

  lemma ArriveDue(f: Fabric, s: Sim, d: nat, c: nat, due: nat)
    requires CanStep(f, s) && s.queue[0].event == Arrived(d) && d != c && Due(f, s, c, due)
    ensures Due(f, Step(f, s), c, due)
  {
    ArriveShape(f, s, d);
    PendingKnown(f, s, Nothing);
    hide CanStep, Step;
    var t := Land(Taken(s), d);
    DueFrame(f, s, t, c, due);
    if |t.chunks[d].route| != 1 {
      hide Due;
      SendDue(f, t, Hop(t.chunks[d].route), d, c, due);
    }
  }

  lemma FreeFacts(f: Fabric, s: Sim, m: LinkId)
    requires CanStep(f, s) && s.queue[0].event == Free(m)
    ensures s.queue != [] && m in s.links && s.links[m].freeAt == s.queue[0].time
    ensures forall i, j :: 0 <= i < j < |s.links[m].pending| ==> s.links[m].pending[i] != s.links[m].pending[j]
    ensures forall d :: d in s.links[m].pending ==> OnLink(s, d, m) && s.chunks[d].phase == Waiting
    ensures forall l, e :: l in s.links && e in s.links[l].pending ==> e < |s.chunks|
  {
    FreeKeeps(f, s, m);
    PendingKnown(f, s, Nothing);
    assert LinkOk(s, Nothing, m);
  }

  /** A link that becomes free lets its queue move up by one: nobody's landing changes. */
  lemma BecomeFreeDue(f: Fabric, s: Sim, m: LinkId, c: nat, due: nat)
    requires CanStep(f, s) && s.queue[0].event == Free(m) && Due(f, s, c, due)
    ensures Due(f, Step(f, s), c, due)
  {
    hide CanStep, Step;
    FreeShape(f, s, m);
    FreeFacts(f, s, m);
    if s.chunks[c].phase == Waiting && Hop(s.chunks[c].route) == m {
      MovesUp(f, s, m, c, due);
    } else {
      PassesBy(f, s, m, c, due);
    }
  }

  lemma PassesBy(f: Fabric, s: Sim, m: LinkId, c: nat, due: nat)
    requires s.queue != [] && Due(f, s, c, due) && m in f && f[m].Valid() && m in s.links
    requires s.chunks[c].phase != Waiting || Hop(s.chunks[c].route) != m
    requires forall d :: d in s.links[m].pending ==> OnLink(s, d, m) && s.chunks[d].phase == Waiting
    requires forall l, e :: l in s.links && e in s.links[l].pending ==> e < |s.chunks|
    ensures var t, pending := SetFree(Taken(s), m), s.links[m].pending;
            if pending == [] then Due(f, t, c, due)
            else CanStart(f, PopPending(t, m), m, pending[0]) && Due(f, Transmit(f, PopPending(t, m), m, pending[0]), c, due)
  {
    var t, pending := SetFree(Taken(s), m), s.links[m].pending;
    DueFrame(f, s, t, c, due);
    if pending != [] {
      assert pending[0] in pending;
      var u := PopPending(t, m);
      DueFrame(f, s, u, c, due);
      PopKnown(s, m);
      TransmitDue(f, u, m, pending[0], c, due);
    }
  }

  lemma PopKnown(s: Sim, m: LinkId)
    requires s.queue != [] && m in s.links && s.links[m].pending != []
    requires forall l, e :: l in s.links && e in s.links[l].pending ==> e < |s.chunks|
    ensures var u := PopPending(SetFree(Taken(s), m), m);
            forall l, e :: l in u.links && e in u.links[l].pending ==> e < |u.chunks|
  {
    assert forall e :: e in s.links[m].pending[1..] ==> e in s.links[m].pending;
  }

  lemma MovesUp(f: Fabric, s: Sim, m: LinkId, c: nat, due: nat)
    requires s.queue != [] && Due(f, s, c, due) && s.chunks[c].phase == Waiting && Hop(s.chunks[c].route) == m
    requires s.links[m].freeAt == s.queue[0].time
    requires forall d :: d in s.links[m].pending ==> d < |s.chunks|
    requires forall i, j :: 0 <= i < j < |s.links[m].pending| ==> s.links[m].pending[i] != s.links[m].pending[j]
    ensures s.links[m].pending != [] && CanStart(f, s, m, s.links[m].pending[0])
    ensures Due(f, Transmit(f, PopPending(SetFree(Taken(s), m), m), m, s.links[m].pending[0]), c, due)
  {
    var k := s.links[m];
    var j: nat :| HeldUp(f[m], k, s.chunks, c, j, due);
    var d := k.pending[0];
    assert d in k.pending;
    var t := Transmit(f, PopPending(SetFree(Taken(s), m), m), m, d);
    if j == 0 {
      assert t.chunks[c].phase == InFlight(due);
    } else {
      HeldUpPop(f[m], k, s.chunks, c, j, due);
      HeldUpFrame(f[m], t.links[m], s.chunks, t.chunks, c, j - 1, due);
    }
  }

  /** Chunk `c` is on its last hop and due at `due`, or was delivered then. */
  ghost predicate Settled(f: Fabric, s: Sim, c: nat, due: nat) {
    && c < |s.chunks|
    && (s.chunks[c].phase == Delivered(due) || (Due(f, s, c, due) && |s.chunks[c].route| == 2))
  }

  lemma ArriveSettled(f: Fabric, s: Sim, d: nat, c: nat, due: nat)
    requires CanStep(f, s) && s.queue[0].event == Arrived(d) && Settled(f, s, c, due)
    ensures Settled(f, Step(f, s), c, due)
  {
    ArriveShape(f, s, d);
    LandKeeps(f, s, d);
    if s.chunks[c].phase == Delivered(due) {
      assert d != c;
    } else if d != c {
      ArriveDue(f, s, d, c, due);
    }
  }

  lemma BecomeFreeSettled(f: Fabric, s: Sim, m: LinkId, c: nat, due: nat)
    requires CanStep(f, s) && s.queue[0].event == Free(m) && Settled(f, s, c, due)
    ensures Settled(f, Step(f, s), c, due)
  {
    FreeShape(f, s, m);
    FreeKeeps(f, s, m);
    if s.chunks[c].phase != Delivered(due) {
      BecomeFreeDue(f, s, m, c, due);
    }
  }

  lemma HandSettled(f: Fabric, s: Sim, p: Parcel, c: nat, due: nat)
    requires Inv(f, s) && CanInject(f, p.route, p.size) && Settled(f, s, c, due)
    ensures Settled(f, Inject(f, s, p.route, p.size), c, due)
  {
    var t := Enter(s, p.route, p.size);
    PendingKnown(f, s, Nothing);
    hide InvWith;
    if s.chunks[c].phase != Delivered(due) {
      DueFrame(f, s, t, c, due);
      SendDue(f, t, Hop(p.route), |s.chunks|, c, due);
    }
  }

  lemma {:induction false} RunSettled(f: Fabric, s: Sim, acts: seq<Action>, c: nat, due: nat)
    requires Run(f, s, acts) && Settled(f, s, c, due)
    ensures Settled(f, After(f, s, acts), c, due)
    decreases acts
  {
    if acts != [] {
      ActSettled(f, s, acts[0], c, due);
      hide CanAct, Act, Settled;
      RunSettled(f, Act(f, s, acts[0]), acts[1..], c, due);
    }
  }

  lemma ActSettled(f: Fabric, s: Sim, a: Action, c: nat, due: nat)
    requires CanAct(f, s, a) && Settled(f, s, c, due)
    ensures Settled(f, Act(f, s, a), c, due)
  {
    hide Settled;
    match a
    case Happen =>
      if s.queue[0].event.Arrived? {
        ArriveSettled(f, s, s.queue[0].event.chunk, c, due);
      } else {
        BecomeFreeSettled(f, s, s.queue[0].event.link, c, due);
      }
    case Hand(p) => HandSettled(f, s, p, c, due);
  }

  /** A chunk on its last hop is delivered exactly when it is due, whatever else is handed in and happens meanwhile. */
  lemma DeliveredWhenDue(f: Fabric, s: Sim, acts: seq<Action>, c: nat, due: nat)
    requires Run(f, s, acts) && After(f, s, acts).queue == []
    requires Due(f, s, c, due) && |s.chunks[c].route| == 2
    ensures c < |After(f, s, acts).chunks| && After(f, s, acts).chunks[c].phase == Delivered(due)
  {
    hide CanAct, Act, Inv;
    RunSettled(f, s, acts, c, due);
    RunKeeps(f, s, acts);
    QuietIsDone(f, After(f, s, acts), PerHop());
  }

  // ---------------------------------------------------------------------------------------------------------------
  // A burst over one link
  // ---------------------------------------------------------------------------------------------------------------

  /** Chunks of the given sizes handed in one after the other, all for the one hop over `l`, and then `rest`. */
  function Burst(l: LinkId, sizes: seq<nat>, rest: seq<Action>): seq<Action> {
    if sizes == [] then rest else [Hand(Parcel([l.src, l.dest], sizes[0]))] + Burst(l, sizes[1..], rest)
  }

  function ServiceTime(w: Wire, sizes: seq<nat>): nat
    requires w.Valid()
  {
    if sizes == [] then 0 else w.SerializationDelay(sizes[0]) + ServiceTime(w, sizes[1..])
  }

  /** From `s` to `t` one chunk has been handed in for the last hop over `l`; it is due after all that `l` had before. */
  ghost predicate HandedIn(f: Fabric, s: Sim, t: Sim, l: LinkId, size: nat) {
    && l in f && f[l].Valid() && l in s.links && l in t.links
    && |t.chunks| == |s.chunks| + 1 && |t.chunks[|s.chunks|].route| == 2
    && var h := Horizon(f[l], s.now, s.links[l], s.chunks);
       && Due(f, t, |s.chunks|, h + f[l].CommunicationDelay(size))
       && Horizon(f[l], t.now, t.links[l], t.chunks) == h + f[l].SerializationDelay(size)
  }

  lemma EnteredAt(f: Fabric, s: Sim, l: LinkId, size: nat)
    requires Inv(f, s) && l in f
    ensures f[l].Valid() && l in s.links && (!s.links[l].busy ==> s.links[l].pending == [])
    ensures Horizon(f[l], s.now, s.links[l], s.chunks)
         == Horizon(f[l], s.now, s.links[l], Enter(s, [l.src, l.dest], size).chunks)
  {
    assert LinkOk(s, Nothing, l);
    BacklogFrame(f[l], s.chunks, Enter(s, [l.src, l.dest], size).chunks, s.links[l].pending);
  }

  lemma SendRoute(f: Fabric, s: Sim, l: LinkId, c: nat)
    requires CanStart(f, s, l, c)
    ensures l in LinkSend(f, s, l, c).links
    ensures c < |LinkSend(f, s, l, c).chunks| && LinkSend(f, s, l, c).chunks[c].route == s.chunks[c].route
  {
  }

  lemma HandIsDue(f: Fabric, s: Sim, l: LinkId, size: nat)
    requires Inv(f, s) && l in f && size > 0
    ensures CanInject(f, [l.src, l.dest], size)
    ensures HandedIn(f, s, Inject(f, s, [l.src, l.dest], size), l, size)
  {
    hide Inv, LinkSend, Due;
    var route := [l.src, l.dest];
    var t := Enter(s, route, size);
    EnteredAt(f, s, l, size);
    SendSettles(f, t, l, |s.chunks|);
    SendRoute(f, t, l, |s.chunks|);
    ActWork(f, PerHop(), s, Hand(Parcel(route, size)));
  }

  lemma BurstHead(f: Fabric, s: Sim, l: LinkId, sizes: seq<nat>, rest: seq<Action>)
    requires sizes != [] && Run(f, s, Burst(l, sizes, rest))
    ensures var a := Hand(Parcel([l.src, l.dest], sizes[0]));
            && CanAct(f, s, a)
            && HandedIn(f, s, Act(f, s, a), l, sizes[0])
            && Run(f, Act(f, s, a), Burst(l, sizes[1..], rest))
            && After(f, s, Burst(l, sizes, rest)) == After(f, Act(f, s, a), Burst(l, sizes[1..], rest))
  {
    var p := Parcel([l.src, l.dest], sizes[0]);
    var acts := Burst(l, sizes, rest);
    assert acts[0] == Hand(p) && acts[1..] == Burst(l, sizes[1..], rest);
    assert CanAct(f, s, Hand(p));
    assert LinkId(p.route[0], p.route[1]) in f;
    HandIsDue(f, s, l, sizes[0]);
    hide HandedIn, Inject, Inv;
  }

  /** Chunk `j` of a burst handed in at `s` is delivered, in `t`, at the time by which the link has served all it had
      before the burst and the chunks of the burst in front of `j`, plus the time `j` itself takes. */
  ghost predicate OutOnTime(f: Fabric, s: Sim, t: Sim, l: LinkId, sizes: seq<nat>, j: nat) {
    && l in f && f[l].Valid() && l in s.links && j < |sizes| && |s.chunks| + j < |t.chunks|
    && t.chunks[|s.chunks| + j].phase == Delivered(Horizon(f[l], s.now, s.links[l], s.chunks)
                                                   + ServiceTime(f[l], sizes[..j]) + f[l].CommunicationDelay(sizes[j]))
  }

  /** This holds for any sizes, at any moment, and whatever is handed in and happens afterwards. */
  lemma {:induction false} BurstTimes(f: Fabric, s: Sim, l: LinkId, sizes: seq<nat>, rest: seq<Action>, j: nat)
    requires Run(f, s, Burst(l, sizes, rest)) && After(f, s, Burst(l, sizes, rest)).queue == []
    requires j < |sizes|
    ensures OutOnTime(f, s, After(f, s, Burst(l, sizes, rest)), l, sizes, j)
    decreases j
  {
    hide Run, After, Inv, Due, Horizon, Act, CanAct, Burst, OutOnTime, HandedIn;
    BurstHead(f, s, l, sizes, rest);
    var t := Act(f, s, Hand(Parcel([l.src, l.dest], sizes[0])));
    var acts := Burst(l, sizes[1..], rest);
    if j == 0 {
      FirstOut(f, s, t, l, sizes, acts);
    } else {
      BurstTimes(f, t, l, sizes[1..], rest, j - 1);
      NextOut(f, s, t, After(f, t, acts), l, sizes, j);
    }
  }

  lemma FirstOut(f: Fabric, s: Sim, t: Sim, l: LinkId, sizes: seq<nat>, acts: seq<Action>)
    requires sizes != [] && HandedIn(f, s, t, l, sizes[0]) && Run(f, t, acts) && After(f, t, acts).queue == []
    ensures OutOnTime(f, s, After(f, t, acts), l, sizes, 0)
  {
    hide Run, After, Due, Horizon;
    DeliveredWhenDue(f, t, acts, |s.chunks|,
                     Horizon(f[l], s.now, s.links[l], s.chunks) + f[l].CommunicationDelay(sizes[0]));
  }

  lemma NextOut(f: Fabric, s: Sim, t: Sim, u: Sim, l: LinkId, sizes: seq<nat>, j: nat)
    requires 0 < j < |sizes| && HandedIn(f, s, t, l, sizes[0]) && OutOnTime(f, t, u, l, sizes[1..], j - 1)
    ensures OutOnTime(f, s, u, l, sizes, j)
  {
    hide Due, Horizon;
    ServiceTimeHead(f[l], sizes, j);
  }

  lemma ServiceTimeHead(w: Wire, sizes: seq<nat>, j: nat)
    requires w.Valid() && 0 < j <= |sizes|
    ensures ServiceTime(w, sizes[..j]) == w.SerializationDelay(sizes[0]) + ServiceTime(w, sizes[1..][..j - 1])
  {
    assert sizes[..j][1..] == sizes[1..][..j - 1];
  }
}
