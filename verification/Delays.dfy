/** Link timing: bandwidth conversion and the two delays of a link
    (common/NetworkFunction.cpp, congestion_aware/network/Link.cpp). Times are whole nanoseconds; a delay is truncated. */
module Delays {

  const BYTES_PER_GB := 1073741824.0
  const NS_PER_SECOND := 1000000000.0

  function BytesPerNs(gbPerSecond: real): (r: real)
    ensures gbPerSecond > 0.0 ==> r > 0.0
  {
    gbPerSecond * BYTES_PER_GB / NS_PER_SECOND
  }

  /** Conversion of a non-negative double to EventTime drops the fraction. */
  function Truncate(x: real): (t: nat)
    requires x >= 0.0
    ensures t as real <= x < t as real + 1.0
  {
    x.Floor
  }

  /** What a link is made of; `bandwidth` is in bytes per nanosecond, `latency` in nanoseconds. */
  datatype Wire = Wire(bandwidth: real, latency: real) {
    predicate Valid() {
      bandwidth > 0.0 && latency >= 0.0
    }

    function TransferTime(size: nat): (r: real)
      requires Valid()
      ensures r >= 0.0
    {
      DivNonNegative(size as real, bandwidth);
      size as real / bandwidth
    }

    function SerializationDelay(size: nat): (t: nat)
      requires Valid()
    {
      Truncate(TransferTime(size))
    }

    function CommunicationDelay(size: nat): (t: nat)
      requires Valid()
    {
      Truncate(latency + TransferTime(size))
    }
  }

  lemma DivNonNegative(x: real, b: real)
    requires x >= 0.0 && b > 0.0
    ensures x / b >= 0.0
  {
  }

  lemma DivMonotone(x: real, y: real, b: real)
    requires x <= y && b > 0.0
    ensures x / b <= y / b
  {
  }

  /** A link is busy for as long as it takes to send the chunk, in whole nanoseconds; the far side hears of it after the
      latency on top of that, and it is the sum that is truncated. */
  lemma DelaysAre(w: Wire, size: nat)
    requires w.Valid()
    ensures w.SerializationDelay(size) as real <= size as real / w.bandwidth < w.SerializationDelay(size) as real + 1.0
    ensures w.CommunicationDelay(size) as real <= w.latency + size as real / w.bandwidth
    ensures w.latency + size as real / w.bandwidth < w.CommunicationDelay(size) as real + 1.0
  {
  }

  /** A gigabyte is 2^30 bytes. */
  lemma GigabytesPerSecond(gbPerSecond: real)
    ensures BytesPerNs(gbPerSecond) * 1000000000.0 == gbPerSecond * 1073741824.0
  {
  }

  /** The far side hears of a chunk no earlier than the link is done with it, and by how much at most. */
  lemma DelayGap(w: Wire, size: nat)
    requires w.Valid()
    ensures w.SerializationDelay(size) + Truncate(w.latency) <= w.CommunicationDelay(size)
    ensures w.CommunicationDelay(size) <= w.SerializationDelay(size) + Truncate(w.latency) + 1
  {
  }

  lemma DelaysMonotone(w: Wire, small: nat, big: nat)
    requires w.Valid() && small <= big
    ensures w.SerializationDelay(small) <= w.SerializationDelay(big)
    ensures w.CommunicationDelay(small) <= w.CommunicationDelay(big)
  {
    DivMonotone(small as real, big as real, w.bandwidth);
  }

  /** Chunks of the given sizes leave the link at the far end in the order they entered it, even if one follows the other at
      once. */
  ghost predicate KeepsOrder(w: Wire, sizes: iset<nat>)
    requires w.Valid()
  {
    forall a, b :: a in sizes && b in sizes ==> w.CommunicationDelay(a) <= w.SerializationDelay(a) + w.CommunicationDelay(b)
  }

  /** The sizes that a chunk may have. */
  ghost function AnySize(): iset<nat> {
    iset size: nat | Positive(size)
  }

  predicate Positive(size: nat) {
    size > 0
  }

  lemma WholeLatencyKeepsOrder(w: Wire, sizes: iset<nat>)
    requires w.Valid() && w.latency == Truncate(w.latency) as real
    ensures KeepsOrder(w, sizes)
  {
    forall a, b | a in sizes && b in sizes
      ensures w.CommunicationDelay(a) <= w.SerializationDelay(a) + w.CommunicationDelay(b)
    {
      DelayGap(w, b);
      assert w.CommunicationDelay(a) == Truncate(w.latency) + w.SerializationDelay(a);
    }
  }

  /** So do chunks that are all of one size, whatever the latency. */
  lemma OneSizeKeepsOrder(w: Wire, size: nat)
    requires w.Valid()
    ensures KeepsOrder(w, iset{size})
  {
  }

  /** And chunks of any sizes: if the smallest takes more than the whole nanoseconds of the latency, or the fraction of the
      latency never tips a delay over, and not otherwise. */
  lemma KeepsOrderIff(w: Wire)
    requires w.Valid()
    ensures KeepsOrder(w, AnySize()) <==>
              || w.CommunicationDelay(1) > Truncate(w.latency)
              || forall size: nat :: size > 0 ==> w.CommunicationDelay(size) == w.SerializationDelay(size) + Truncate(w.latency)
  {
    forall size: nat | size in AnySize()
      ensures w.SerializationDelay(size) + Truncate(w.latency) <= w.CommunicationDelay(size)
      ensures w.CommunicationDelay(size) <= w.SerializationDelay(size) + Truncate(w.latency) + 1
      ensures w.CommunicationDelay(1) <= w.CommunicationDelay(size)
    {
      DelayGap(w, size);
      DelaysMonotone(w, 1, size);
    }
    assert 1 in AnySize();
  }

  /** Sets of sizes have a least one. */
  lemma {:induction false} LeastOf(sizes: iset<nat>, size: nat) returns (least: nat)
    requires size in sizes
    ensures least in sizes && forall n :: n in sizes ==> least <= n
    decreases size
  {
    if n :| n in sizes && n < size {
      least := LeastOf(sizes, n);
    } else {
      least := size;
    }
  }
}
