/** What the two backends say about the same chunk: the congestion-aware simulation of a chunk that has the network to
    itself, and the congestion-unaware estimate. */
module Backends {
  import opened Links
  import opened Delays
  import opened Network
  import opened Runs
  import opened LowerBounds
  import Rings
  import MultiDim

  /** Every link of the route is made of `w`. */
  ghost predicate Alike(f: Fabric, route: seq<nat>, w: Wire) {
    w.Valid() && forall k :: 0 <= k < |route| - 1 ==>
                   LinkId(route[k], route[k + 1]) in f && f[LinkId(route[k], route[k + 1])] == w
  }

  lemma {:induction false} AloneOnAlike(f: Fabric, p: Parcel, w: Wire)
    requires p.route != [] && Alike(f, p.route, w)
    ensures Alone(f, p) == (|p.route| - 1) * w.CommunicationDelay(p.size)
    decreases p.route
  {
    if |p.route| >= 2 {
      var rest := p.route[1..];
      assert Hop(p.route) == LinkId(p.route[0], p.route[0 + 1]);
      forall k | 0 <= k < |rest| - 1
        ensures LinkId(rest[k], rest[k + 1]) in f && f[LinkId(rest[k], rest[k + 1])] == w
      {
        assert rest[k] == p.route[k + 1] && rest[k + 1] == p.route[k + 1 + 1];
      }
      AloneOnAlike(f, Parcel(rest, p.size), w);
      OneMore(|rest| - 1, w.CommunicationDelay(p.size));
    }
  }

  lemma OneMore(h: int, t: int)
    ensures t + h * t == (h + 1) * t
  {
  }

  /** A chunk alone on `h` links of a kind takes `h` times the delay of one. */
  lemma LoneChunkTime(f: Fabric, acts: seq<Action>, p: Parcel, w: Wire)
    requires Complete(f, acts) && Handed(acts) == [p] && p.route != [] && Alike(f, p.route, w)
    ensures Result(f, acts).now == (|p.route| - 1) * w.CommunicationDelay(p.size)
  {
    LoneChunk(f, acts, p);
    AloneOnAlike(f, p, w);
  }

  // ---------------------------------------------------------------------------------------------------------------
  // The estimate
  // ---------------------------------------------------------------------------------------------------------------

  /** The estimate is hardly ever above the simulated time: at most by the fractions that the links truncate. */
  lemma EstimateBound(w: Wire, hops: nat, size: nat)
    requires w.Valid() && hops >= 1
    ensures MultiDim.UnawareDelay(w, hops, size) <= hops * w.CommunicationDelay(size) + (hops - 1)
    ensures w.latency == Truncate(w.latency) as real ==>
              MultiDim.UnawareDelay(w, hops, size) <= hops * w.CommunicationDelay(size)
  {
    MultiDim.UnawareNonNegative(w, hops, size);
    TruncatedHops(hops, w.latency, w.TransferTime(size));
    if w.latency == Truncate(w.latency) as real {
      WholeHops(hops, Truncate(w.latency), w.TransferTime(size));
    }
  }

  lemma TruncatedHops(h: nat, latency: real, x: real)
    requires h >= 1 && latency >= 0.0 && x >= 0.0 && h as real * latency + x >= 0.0
    ensures Truncate(h as real * latency + x) <= h * Truncate(latency + x) + (h - 1)
  {
    BelowHops(h, latency, x, Truncate(latency + x));
  }

  lemma {:induction false} BelowHops(h: nat, latency: real, x: real, t: nat)
    requires h >= 1 && x >= 0.0 && latency + x < t as real + 1.0
    ensures h as real * latency + x < (h * t + h) as real
  {
    if h > 1 {
      BelowHops(h - 1, latency, x, t);
      assert h as real * latency == (h - 1) as real * latency + latency;
      assert h * t + h == (h - 1) * t + (h - 1) + (t + 1);
    }
  }

  lemma WholeHops(h: nat, latency: nat, x: real)
    requires h >= 1 && x >= 0.0 && h as real * latency as real + x >= 0.0
    ensures Truncate(h as real * latency as real + x) <= h * Truncate(latency as real + x)
  {
    RealProduct(h, latency);
    TruncateShift(h * latency, x);
    TruncateShift(latency, x);
    Distribute(h, latency, Truncate(x));
  }

  lemma RealProduct(a: nat, b: nat)
    ensures a as real * b as real == (a * b) as real
  {
  }

  lemma TruncateShift(n: nat, x: real)
    requires x >= 0.0
    ensures Truncate(n as real + x) == n + Truncate(x)
  {
  }

  lemma Distribute(h: nat, a: nat, b: nat)
    requires h >= 1
    ensures h * a + b <= h * (a + b)
  {
    assert h * (a + b) == h * a + h * b;
    assert h * b == b + (h - 1) * b;
    MulNonNegative(h - 1, b);
  }

  lemma MulNonNegative(a: nat, b: nat)
    ensures a * b >= 0
  {
  }

  /** For every number of hops there are links on which the estimate is that much above. */
  lemma EstimateBoundReached(hops: nat) returns (w: Wire)
    requires hops >= 1
    ensures w.Valid() && MultiDim.UnawareDelay(w, hops, 1) == hops * w.CommunicationDelay(1) + (hops - 1)
  {
    var h := hops as real;
    assert 4.0 * h > 0.0;
    var step := 1.0 / (4.0 * h);
    assert step * (4.0 * h) == 1.0;
    assert 0.0 < step <= 0.25;
    w := Wire(4.0 * h, 1.0 - 2.0 * step);
    assert w.TransferTime(1) == step;
    assert w.CommunicationDelay(1) == 0;
    assert h * w.latency == h - 2.0 * (h * step);
    assert h * step == 0.25;
    assert h * w.latency + step == h - 0.5 + step;
  }

  // ---------------------------------------------------------------------------------------------------------------
  // Rings
  // ---------------------------------------------------------------------------------------------------------------

  /** On a ring, a lone chunk sent along the route of the one backend takes as many hops as the other one computes: the
      simulated time is that many link delays, and bounds the estimate. */
  lemma RingBackends(f: Fabric, acts: seq<Action>, t: MultiDim.BasicTopology, p: Parcel, src: nat, dest: nat)
    requires t.Valid() && t.shape.Ring? && src < t.npusCount && dest < t.npusCount && src != dest
    requires Complete(f, acts) && Handed(acts) == [p] && p.size > 0 && |p.route| >= 1
    requires Alike(f, p.route, Wire(BytesPerNs(t.bandwidth), t.latency))
    requires |p.route| - 1 == Rings.HopsCount(t.npusCount, t.shape.bidirectional, src, dest)
    ensures var hops, delay := t.HopsCount(src, dest), Wire(BytesPerNs(t.bandwidth), t.latency).CommunicationDelay(p.size);
            && Result(f, acts).now == hops * delay
            && t.Send(src, dest, p.size) <= Result(f, acts).now + (hops - 1)
            && (t.latency == Truncate(t.latency) as real ==> t.Send(src, dest, p.size) <= Result(f, acts).now)
  {
    var w := Wire(BytesPerNs(t.bandwidth), t.latency);
    LoneChunkTime(f, acts, p, w);
    EstimateBound(w, t.HopsCount(src, dest), p.size);
  }

  /** The figures the repository expects of a megabyte from NPU 1 to NPU 4 of 16, at 50 GB/s and 500 ns. */
  lemma ExpectedFigures()
    ensures var w := Wire(BytesPerNs(50.0), 500.0);
            && Rings.HopsCount(16, true, 1, 4) * w.CommunicationDelay(1048576) == 60093
            && MultiDim.BasicTopology(16, 50.0, 500.0, MultiDim.Ring(true)).Send(1, 4, 1048576) == 21031
            && MultiDim.BasicTopology(16, 50.0, 500.0, MultiDim.FullyConnected).Send(1, 4, 1048576) == 20031
            && MultiDim.BasicTopology(16, 50.0, 500.0, MultiDim.Switch).Send(1, 4, 1048576) == 20531
  {
  }
}
