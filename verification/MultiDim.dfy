/** The congestion-unaware backend: basic topologies and their combination along several dimensions
    (congestion_unaware/basic-topology, congestion_unaware/multi-dim-topology/MultiDimTopology.cpp). */
module MultiDim {
  import opened Delays
  import Rings

  datatype Option<T> = None | Some(value: T)

  // ---------------------------------------------------------------------------------------------------------------
  // One dimension
  // ---------------------------------------------------------------------------------------------------------------

  datatype Shape = Ring(bidirectional: bool) | FullyConnected | Switch

  datatype BasicTopology = BasicTopology(npusCount: nat, bandwidth: real, latency: real, shape: Shape) {
    predicate Valid() {
      npusCount > 0 && bandwidth > 0.0 && latency >= 0.0
    }

    function HopsCount(src: nat, dest: nat): nat
      requires src < npusCount && dest < npusCount && src != dest
    {
      match shape
      case Ring(bidirectional) => Rings.HopsCount(npusCount, bidirectional, src, dest)
      case FullyConnected => 1
      case Switch => 2
    }

    function CommunicationDelay(hopsCount: nat, size: nat): nat
      requires Valid()
    {
      UnawareDelay(Wire(BytesPerNs(bandwidth), latency), hopsCount, size)
    }

    function Send(src: nat, dest: nat, size: nat): nat
      requires Valid() && src < npusCount && dest < npusCount && src != dest && size > 0
    {
      CommunicationDelay(HopsCount(src, dest), size)
    }
  }

  /** The estimate of the congestion-unaware backend: the latency counts once per hop, the transfer once. */
  function UnawareDelay(w: Wire, hopsCount: nat, size: nat): nat
    requires w.Valid()
  {
    UnawareNonNegative(w, hopsCount, size);
    Truncate(hopsCount as real * w.latency + w.TransferTime(size))
  }

  lemma UnawareNonNegative(w: Wire, hopsCount: nat, size: nat)
    requires w.Valid()
    ensures hopsCount as real * w.latency + w.TransferTime(size) >= 0.0
  {
  }

  /** The latency of every hop and the time to send the chunk once, and it is the sum that is truncated. */
  lemma UnawareIs(w: Wire, hopsCount: nat, size: nat)
    requires w.Valid()
    ensures UnawareDelay(w, hopsCount, size) as real <= hopsCount as real * w.latency + size as real / w.bandwidth
    ensures hopsCount as real * w.latency + size as real / w.bandwidth < UnawareDelay(w, hopsCount, size) as real + 1.0
  {
    UnawareNonNegative(w, hopsCount, size);
  }

  /** What a send takes, in plain arithmetic: the way round a ring is the shorter one, if there are links for it; two hops
      over a switch; one otherwise. */
  lemma SendIs(t: BasicTopology, src: nat, dest: nat, size: nat)
    requires t.Valid() && src < t.npusCount && dest < t.npusCount && src != dest && size > 0
    ensures var n, delay := t.npusCount, t.Send(src, dest, size);
            var clockwise: nat := (dest + n - src) % n;
            var hops := match t.shape
                        case Ring(bidirectional) =>
                          if !bidirectional || 2 * clockwise <= n then clockwise else n - clockwise
                        case FullyConnected => 1
                        case Switch => 2;
            && delay as real <= hops as real * t.latency + size as real / BytesPerNs(t.bandwidth)
            && hops as real * t.latency + size as real / BytesPerNs(t.bandwidth) < delay as real + 1.0
  {
    hide UnawareDelay, BytesPerNs;
    Rings.ClockwiseIs(t.npusCount, src, dest);
    UnawareIs(Wire(BytesPerNs(t.bandwidth), t.latency), t.HopsCount(src, dest), size);
  }

  /** A delay is the same there and back unless the topology is a unidirectional ring, and then only half-way round. */
  lemma HopsSymmetricIff(t: BasicTopology, src: nat, dest: nat)
    requires src < t.npusCount && dest < t.npusCount && src != dest
    ensures t.HopsCount(src, dest) == t.HopsCount(dest, src) <==>
              t.shape != Ring(false) || 2 * Rings.Clockwise(t.npusCount, src, dest) == t.npusCount
  {
  }

  // ---------------------------------------------------------------------------------------------------------------
  // Addresses
  // ---------------------------------------------------------------------------------------------------------------

  function Product(sizes: seq<nat>): nat {
    if sizes == [] then 1 else Product(sizes[..|sizes| - 1]) * sizes[|sizes| - 1]
  }

  ghost predicate AllPositive(sizes: seq<nat>) {
    forall i :: 0 <= i < |sizes| ==> sizes[i] > 0
  }

  ghost predicate InRange(sizes: seq<nat>, address: seq<nat>) {
    |address| == |sizes| && forall i :: 0 <= i < |sizes| ==> address[i] < sizes[i]
  }

  /** The NPU with the given address: digit `i` counts for the product of the sizes below `i`. */
  function IdOf(sizes: seq<nat>, address: seq<nat>): nat
    requires |address| == |sizes|
  {
    if sizes == [] then 0
    else
      var n := |sizes| - 1;
      IdOf(sizes[..n], address[..n]) + address[n] * Product(sizes[..n])
  }

  /** The digits of an id, the last one being what is left of it after division by the product of the others. */
  function Address(sizes: seq<nat>, id: nat): seq<nat>
    requires AllPositive(sizes)
    ensures |Address(sizes, id)| == |sizes|
  {
    if sizes == [] then []
    else
      var n := |sizes| - 1;
      ProductPositive(sizes[..n]);
      Address(sizes[..n], id % Product(sizes[..n])) + [id / Product(sizes[..n])]
  }

  lemma {:induction false} ProductPositive(sizes: seq<nat>)
    requires AllPositive(sizes)
    ensures Product(sizes) > 0
  {
    if sizes != [] {
      var n := |sizes| - 1;
      ProductPositive(sizes[..n]);
      MulPositive(Product(sizes[..n]), sizes[n]);
    }
  }

  lemma MulPositive(a: nat, b: nat)
    requires a > 0 && b > 0
    ensures a * b > 0
  {
  }

  lemma {:induction false} MulStep(a: nat, b: nat, c: nat)
    requires a < b
    ensures a * c + c <= c * b
  {
    if a + 1 < b {
      MulStep(a, b - 1, c);
    }
  }

  lemma Recompose(x: nat, m: nat)
    requires m > 0
    ensures x % m + x / m * m == x
  {
  }

  lemma DivMod(x: nat, m: nat, q: nat, r: nat)
    requires m > 0 && r < m && x == r + q * m
    ensures x / m == q && x % m == r
  {
    DivBound(x, m, q);
    DivBound(x, m, q + 1);
    assert x < m * (q + 1);
    assert !(x < m * q);
    assert x == m * (x / m) + x % m;
  }

  lemma DivBound(x: nat, m: nat, k: nat)
    requires m > 0
    ensures x < m * k <==> x / m < k
  {
    assert x == m * (x / m) + x % m;
    if x / m < k {
      assert m * (x / m + 1) <= m * k;
    } else {
      assert m * k <= m * (x / m);
    }
  }

  lemma ProductSnoc(sizes: seq<nat>, k: nat)
    ensures Product(sizes + [k]) == Product(sizes) * k
  {
    assert (sizes + [k])[..|sizes|] == sizes;
  }

  /** The ids of NPUs have addresses in range: what the program asserts at the end of the translation holds for an id
      exactly if there is an NPU with that id. */
  lemma {:induction false} AddressInRangeIff(sizes: seq<nat>, id: nat)
    requires AllPositive(sizes) && sizes != []
    ensures InRange(sizes, Address(sizes, id)) <==> id < Product(sizes)
  {
    var n := |sizes| - 1;
    var below := sizes[..n];
    ProductPositive(below);
    DivBound(id, Product(below), sizes[n]);
    var head := Address(below, id % Product(below));
    if n == 0 {
      assert Product(below) == 1;
    } else {
      AddressInRangeIff(below, id % Product(below));
      assert forall i :: 0 <= i < n ==> below[i] == sizes[i] && Address(sizes, id)[i] == head[i];
    }
    assert Address(sizes, id)[n] == id / Product(below);
    if InRange(sizes, Address(sizes, id)) {
      assert Address(sizes, id)[n] < sizes[n];
    }
  }

  /** The digits in closed form. */
  lemma {:induction false} DigitIs(sizes: seq<nat>, id: nat, i: nat)
    requires AllPositive(sizes) && id < Product(sizes) && i < |sizes|
    ensures Product(sizes[..i]) > 0 && Address(sizes, id)[i] == id / Product(sizes[..i]) % sizes[i]
  {
    var n := |sizes| - 1;
    var below := sizes[..n];
    ProductPositive(below);
    if i == n {
      DivBound(id, Product(below), sizes[n]);
      SmallMod(id / Product(below), sizes[n]);
    } else {
      ModBound(id, Product(below));
      DigitIs(below, id % Product(below), i);
      assert below[..i] == sizes[..i];
      var k := Multiple(below, i);
      DigitBelow(id, Product(sizes[..i]), sizes[i], k);
    }
  }

  lemma SmallMod(x: nat, m: nat)
    requires x < m
    ensures x % m == x
  {
  }

  lemma ModBound(x: nat, m: nat)
    requires m > 0
    ensures x % m < m
  {
  }

  /** The product of all sizes is a multiple of that of the lowest `i + 1`. */
  lemma {:induction false} Multiple(sizes: seq<nat>, i: nat) returns (k: nat)
    requires AllPositive(sizes) && i < |sizes|
    ensures k > 0 && Product(sizes) == Product(sizes[..i]) * sizes[i] * k
  {
    var n := |sizes| - 1;
    if i == n {
      k := 1;
    } else {
      var k' := Multiple(sizes[..n], i);
      assert sizes[..n][..i] == sizes[..i];
      k := k' * sizes[n];
      MulPositive(k', sizes[n]);
      MulAssoc(Product(sizes[..i]) * sizes[i], k', sizes[n]);
    }
  }

  lemma MulAssoc(a: nat, b: nat, c: nat)
    ensures a * b * c == a * (b * c)
  {
  }

  /** A digit does not see multiples of what lies above it. */
  lemma DigitBelow(x: nat, p: nat, s: nat, k: nat)
    requires p > 0 && s > 0 && k > 0 && p * s * k > 0
    ensures x % (p * s * k) / p % s == x / p % s
  {
    var m := p * s * k;
    var q, r := x / m, x % m;
    Recompose(x, m);
    Recompose(r, p);
    ModBound(r, p);
    Regroup(r, q, p, s, k);
    DivMod(x, p, r / p + q * (s * k), r % p);
    SameMod(r / p, q * k, s);
    Swapped(q, s, k);
  }

  lemma Regroup(r: nat, q: nat, p: nat, s: nat, k: nat)
    requires p > 0
    ensures r % p + (r / p + q * (s * k)) * p == r + q * (p * s * k)
  {
    Recompose(r, p);
    assert q * (s * k) * p == q * (p * s * k);
    assert (r / p + q * (s * k)) * p == r / p * p + q * (s * k) * p;
  }

  lemma Swapped(q: nat, s: nat, k: nat)
    ensures q * (s * k) == q * k * s
  {
  }

  lemma SameMod(x: nat, y: nat, s: nat)
    requires s > 0
    ensures (x + y * s) % s == x % s
  {
    Recompose(x, s);
    ModBound(x, s);
    assert x + y * s == x % s + (x / s + y) * s;
    DivMod(x + y * s, s, x / s + y, x % s);
  }

  /** Translating an id and reading the address off again gives the id. */
  lemma {:induction false} IdOfAddress(sizes: seq<nat>, id: nat)
    requires AllPositive(sizes) && id < Product(sizes)
    ensures IdOf(sizes, Address(sizes, id)) == id
  {
    if sizes != [] {
      var n := |sizes| - 1;
      var below := sizes[..n];
      ProductPositive(below);
      var m := Product(below);
      IdOfAddress(below, id % m);
      assert Address(sizes, id)[..n] == Address(below, id % m);
      Recompose(id, m);
    }
  }

  lemma {:induction false} IdOfBound(sizes: seq<nat>, address: seq<nat>)
    requires InRange(sizes, address)
    ensures IdOf(sizes, address) < Product(sizes)
  {
    if sizes != [] {
      var n := |sizes| - 1;
      IdOfBound(sizes[..n], address[..n]);
      MulStep(address[n], sizes[n], Product(sizes[..n]));
    }
  }

  /** Every address in range is the address of exactly the NPU it denotes. */
  lemma {:induction false} AddressOfId(sizes: seq<nat>, address: seq<nat>)
    requires InRange(sizes, address) && AllPositive(sizes)
    ensures Address(sizes, IdOf(sizes, address)) == address
  {
    if sizes != [] {
      var n := |sizes| - 1;
      var below := sizes[..n];
      IdOfBound(below, address[..n]);
      ProductPositive(below);
      DivMod(IdOf(sizes, address), Product(below), address[n], IdOf(below, address[..n]));
      AddressOfId(below, address[..n]);
    }
  }

  /** Different NPUs have different addresses. */
  lemma AddressInjective(sizes: seq<nat>, a: nat, b: nat)
    requires AllPositive(sizes) && a < Product(sizes) && b < Product(sizes) && a != b
    ensures Address(sizes, a) != Address(sizes, b)
  {
    IdOfAddress(sizes, a);
    IdOfAddress(sizes, b);
  }

  /** Another dimension leaves the digits below it as they were and adds one on top. */
  lemma AddressAppend(sizes: seq<nat>, k: nat, id: nat)
    requires AllPositive(sizes) && k > 0
    ensures AllPositive(sizes + [k]) && Product(sizes) > 0
    ensures Address(sizes + [k], id) == Address(sizes, id % Product(sizes)) + [id / Product(sizes)]
  {
    ProductPositive(sizes);
    assert (sizes + [k])[..|sizes|] == sizes;
  }

  // ---------------------------------------------------------------------------------------------------------------
  // The topology
  // ---------------------------------------------------------------------------------------------------------------

  class MultiDimTopology {
    var npusCount: nat
    var dimsCount: nat
    var topologyPerDim: seq<BasicTopology>
    var npusCountPerDim: seq<nat>
    var bandwidthPerDim: seq<real>

    ghost predicate Valid()
      reads this
    {
      && dimsCount == |topologyPerDim| == |npusCountPerDim| == |bandwidthPerDim|
      && npusCount == Product(npusCountPerDim) && AllPositive(npusCountPerDim)
      && forall i :: 0 <= i < dimsCount ==>
           && topologyPerDim[i].Valid() && npusCountPerDim[i] == topologyPerDim[i].npusCount
           && bandwidthPerDim[i] == topologyPerDim[i].bandwidth
    }

    constructor ()
      ensures Valid() && dimsCount == 0 && npusCount == 1
    {
      npusCount := 1;
      dimsCount := 0;
      topologyPerDim := [];
      npusCountPerDim := [];
      bandwidthPerDim := [];
    }

    method AppendDimension(topology: BasicTopology)
      requires Valid() && topology.Valid()
      modifies this
      ensures Valid() && topologyPerDim == old(topologyPerDim) + [topology]
      ensures npusCountPerDim == old(npusCountPerDim) + [topology.npusCount]
      ensures npusCount == old(npusCount) * topology.npusCount
      ensures forall id: nat :: old(npusCount) > 0 &&
                Address(npusCountPerDim, id)
                == Address(old(npusCountPerDim), id % old(npusCount)) + [id / old(npusCount)]
    {
      dimsCount := dimsCount + 1;
      var topologySize := topology.npusCount;
      npusCount := npusCount * topologySize;
      bandwidthPerDim := bandwidthPerDim + [topology.bandwidth];
      topologyPerDim := topologyPerDim + [topology];
      npusCountPerDim := npusCountPerDim + [topologySize];
      ProductSnoc(old(npusCountPerDim), topologySize);
      forall id: nat
        ensures old(npusCount) > 0 &&
                Address(npusCountPerDim, id) == Address(old(npusCountPerDim), id % old(npusCount)) + [id / old(npusCount)]
      {
        AddressAppend(old(npusCountPerDim), topologySize, id);
      }
    }

    method TranslateAddress(npuId: nat) returns (address: seq<nat>)
      requires Valid() && npuId < npusCount
      ensures address == Address(npusCountPerDim, npuId) && InRange(npusCountPerDim, address)
      ensures forall i :: 0 <= i < dimsCount ==>
                && Product(npusCountPerDim[..i]) > 0
                && address[i] == npuId / Product(npusCountPerDim[..i]) % npusCountPerDim[i]
    {
      hide Address, Product, InRange;
      address := seq(dimsCount, _ => 0);
      var leftover, denominator := npuId, npusCount;
      ghost var target := Address(npusCountPerDim, npuId);
      NothingRead(npusCountPerDim, npuId);
      for dim := dimsCount downto 0
        invariant |address| == dimsCount == |target| && denominator == Product(npusCountPerDim[..dim])
        invariant target[..dim] == Address(npusCountPerDim[..dim], leftover)
        invariant forall i :: dim <= i < dimsCount ==> address[i] == target[i]
      {
        Divides(npusCountPerDim, dim);
        NextDigit(npusCountPerDim, dim, leftover, target);
        denominator := denominator / npusCountPerDim[dim];
        var quotient := leftover / denominator;
        leftover := leftover % denominator;
        address := address[dim := quotient];
      }
      assert address == target;
      forall i | 0 <= i < dimsCount
        ensures Product(npusCountPerDim[..i]) > 0
        ensures address[i] == npuId / Product(npusCountPerDim[..i]) % npusCountPerDim[i]
      {
        DigitIs(npusCountPerDim, npuId, i);
      }
    }

    /** The lowest dimension in which the addresses differ; there is none only if they are the same, where the program
        gives up. */
    method GetDimToTransfer(srcAddress: seq<nat>, destAddress: seq<nat>) returns (dim: Option<nat>)
      requires Valid() && |srcAddress| == |destAddress| == dimsCount
      ensures dim.None? <==> srcAddress == destAddress
      ensures dim.Some? ==> LowestDifference(srcAddress, destAddress, dim.value)
      ensures dim.Some? ==>
                && dim.value < dimsCount && srcAddress[dim.value] != destAddress[dim.value]
                && forall i :: 0 <= i < dim.value ==> srcAddress[i] == destAddress[i]
    {
      for d := 0 to dimsCount
        invariant forall i :: 0 <= i < d ==> srcAddress[i] == destAddress[i]
      {
        if srcAddress[d] != destAddress[d] {
          return Some(d);
        }
      }
      assert srcAddress == destAddress;
      return None;
    }

    /** The program gives up exactly if an NPU is to send to itself. Otherwise the chunk takes as long as between the
        local ids in the lowest dimension in which the addresses differ, and both are ids of that dimension. */
    method Send(src: nat, dest: nat, chunkSize: nat) returns (delay: Option<nat>)
      requires Valid() && src < npusCount && dest < npusCount && chunkSize > 0
      ensures delay.None? <==> src == dest
      ensures forall d: nat :: LowestDifference(Address(npusCountPerDim, src), Address(npusCountPerDim, dest), d) ==>
                var from, to := Address(npusCountPerDim, src)[d], Address(npusCountPerDim, dest)[d];
                && from < topologyPerDim[d].npusCount && to < topologyPerDim[d].npusCount
                && delay == Some(topologyPerDim[d].Send(from, to, chunkSize))
    {
      hide Address, Product, UnawareDelay;
      var srcAddress := TranslateAddress(src);
      var destAddress := TranslateAddress(dest);
      SameNpuIff(npusCountPerDim, src, dest);
      var dim := GetDimToTransfer(srcAddress, destAddress);
      match dim {
        case None =>
          delay := None;
        case Some(d) =>
          assert forall e: nat :: LowestDifference(srcAddress, destAddress, e) ==> e == d;
          var topology := topologyPerDim[d];
          delay := Some(topology.Send(srcAddress[d], destAddress[d], chunkSize));
      }
    }
  }

  ghost predicate LowestDifference(a: seq<nat>, b: seq<nat>, d: nat) {
    |a| == |b| && d < |a| && a[d] != b[d] && forall i :: 0 <= i < d ==> a[i] == b[i]
  }

  /** NPUs are the same if their addresses are, and otherwise there is a lowest dimension in which these differ, with
      local ids in range. */
  lemma {:induction false} SameNpuIff(sizes: seq<nat>, a: nat, b: nat)
    requires AllPositive(sizes) && a < Product(sizes) && b < Product(sizes)
    ensures a == b <==> Address(sizes, a) == Address(sizes, b)
    ensures a != b ==> exists d: nat :: LowestDifference(Address(sizes, a), Address(sizes, b), d) &&
                         Address(sizes, a)[d] < sizes[d] && Address(sizes, b)[d] < sizes[d]
  {
    hide Address, Product;
    if a != b {
      AddressInjective(sizes, a, b);
      var d := Difference(Address(sizes, a), Address(sizes, b), 0);
      AddressInRangeIff(sizes, a);
      AddressInRangeIff(sizes, b);
      assert LowestDifference(Address(sizes, a), Address(sizes, b), d);
    }
  }

  lemma {:induction false} Difference(a: seq<nat>, b: seq<nat>, from: nat) returns (d: nat)
    requires |a| == |b| && from <= |a| && a != b && forall i :: 0 <= i < from ==> a[i] == b[i]
    ensures LowestDifference(a, b, d)
    decreases |a| - from
  {
    if a[from] != b[from] {
      d := from;
    } else {
      d := Difference(a, b, from + 1);
    }
  }

  /** The way back takes as long in every dimension but a unidirectional ring. */
  lemma DelaySymmetric(topologies: seq<BasicTopology>, a: seq<nat>, b: seq<nat>, d: nat, e: nat, size: nat)
    requires |a| == |b| == |topologies| && LowestDifference(a, b, d) && LowestDifference(b, a, e) && size > 0
    requires a[d] < topologies[d].npusCount && b[d] < topologies[d].npusCount && topologies[d].Valid()
    requires topologies[d].shape != Ring(false)
    ensures d == e && topologies[e].Send(b[e], a[e], size) == topologies[d].Send(a[d], b[d], size)
  {
  }

  lemma NothingRead(sizes: seq<nat>, id: nat)
    requires AllPositive(sizes) && id < Product(sizes)
    ensures sizes[..|sizes|] == sizes && Address(sizes, id)[..|sizes|] == Address(sizes, id)
    ensures InRange(sizes, Address(sizes, id))
  {
    if sizes != [] {
      AddressInRangeIff(sizes, id);
    }
  }

  /** The topmost of the remaining digits is a quotient by the product of the sizes below it. */
  lemma NextDigit(sizes: seq<nat>, dim: nat, leftover: nat, target: seq<nat>)
    requires AllPositive(sizes) && dim < |sizes| == |target|
    requires target[..dim + 1] == Address(sizes[..dim + 1], leftover)
    ensures Product(sizes[..dim]) > 0 && target[dim] == leftover / Product(sizes[..dim])
    ensures target[..dim] == Address(sizes[..dim], leftover % Product(sizes[..dim]))
  {
    assert sizes[..dim + 1][..dim] == sizes[..dim];
    ProductPositive(sizes[..dim]);
    assert target[..dim] == target[..dim + 1][..dim];
    assert target[dim] == target[..dim + 1][dim];
  }

  /** Dropping the topmost of the remaining dimensions divides the denominator without remainder. */
  lemma Divides(sizes: seq<nat>, dim: nat)
    requires AllPositive(sizes) && dim < |sizes|
    ensures Product(sizes[..dim]) > 0
    ensures Product(sizes[..dim + 1]) == Product(sizes[..dim]) * sizes[dim]
    ensures Product(sizes[..dim + 1]) / sizes[dim] == Product(sizes[..dim])
    ensures Product(sizes[..dim + 1]) % sizes[dim] == 0
  {
    assert sizes[..dim + 1][..dim] == sizes[..dim];
    ProductPositive(sizes[..dim]);
    DivMod(Product(sizes[..dim + 1]), sizes[dim], Product(sizes[..dim]), 0);
  }
}
