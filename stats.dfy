/**
 * The statistics counter of the capture subsystem (`NetworkStats`).
 *
 * `Instant::now()` is replaced by explicit readings of a monotonic clock,
 * given as natural numbers (clock ticks); a `Duration` is a number of ticks.
 */
module Stats {

  /** The largest value of a Rust `u64`. */
  const U64_MAX: nat := 0xFFFF_FFFF_FFFF_FFFF

  /** What `get_stats` returns: packets, bytes and the elapsed duration. */
  datatype StatsSnapshot = StatsSnapshot(packets: nat, bytes: nat, elapsed: nat)

  /** Total of a sequence of packet sizes. */
  function Sum(sizes: seq<nat>): nat
  {
    if sizes == [] then 0 else sizes[0] + Sum(sizes[1..])
  }

  /** Taking the element at `j` out of a sequence takes its value out of the total. */
  lemma {:induction false} SumRemove(ys: seq<nat>, j: nat)
    requires j < |ys|
    ensures Sum(ys) == ys[j] + Sum(ys[..j] + ys[j+1..])
  {
    if j > 0 {
      SumRemove(ys[1..], j - 1);
      assert ys[1..][..j-1] + ys[1..][j..] == (ys[..j] + ys[j+1..])[1..];
    } else {
      assert ys[..j] + ys[j+1..] == ys[1..];
    }
  }

  /**
   * The byte total does not depend on the order in which the sizes are
   * recorded: any interleaving of the same packets gives the same sum.
   */
  lemma {:induction false} SumOfPermutation(xs: seq<nat>, ys: seq<nat>)
    requires multiset(xs) == multiset(ys)
    ensures Sum(xs) == Sum(ys)
  {
    if xs == [] {
      assert |ys| == |multiset(ys)| == 0;
    } else {
      var x := xs[0];
      assert x in multiset(ys) by {
        assert x in xs;
      }
      var j :| 0 <= j < |ys| && ys[j] == x;
      var rest := ys[..j] + ys[j+1..];
      MultisetRemove(ys, j);
      assert multiset(xs[1..]) == multiset(rest) by {
        assert xs == [x] + xs[1..];
        assert multiset(xs) == multiset{x} + multiset(xs[1..]);
        forall e ensures multiset(xs[1..])[e] == multiset(rest)[e] {
          assert (multiset{x} + multiset(xs[1..]))[e] == (multiset{x} + multiset(rest))[e];
        }
      }
      SumOfPermutation(xs[1..], rest);
      SumRemove(ys, j);
    }
  }

  lemma MultisetRemove<T>(ys: seq<T>, j: nat)
    requires j < |ys|
    ensures multiset(ys) == multiset{ys[j]} + multiset(ys[..j] + ys[j+1..])
  {
    assert ys == ys[..j] + [ys[j]] + ys[j+1..];
  }

  /** `times` are successive readings of a monotonic clock, none earlier than `t0`. */
  predicate ClockFrom(t0: nat, times: seq<nat>)
  {
    && (forall i, j :: 0 <= i <= j < |times| ==> times[i] <= times[j])
    && (times != [] ==> t0 <= times[0])
  }

  class NetworkStats {
    var startTime: nat
    var packetsReceived: nat
    var bytesReceived: nat
    var lastUpdate: nat

    /** Both counters fit in a `u64`, and the last update is not before the start. */
    ghost predicate Valid()
      reads this
    {
      packetsReceived <= U64_MAX && bytesReceived <= U64_MAX && startTime <= lastUpdate
    }

    /** `new`: two clock readings `t0 <= t1`, one for each timestamp. */
    constructor (t0: nat, t1: nat)
      requires t0 <= t1
      ensures Valid()
      ensures startTime == t0 && lastUpdate == t1
      ensures packetsReceived == 0 && bytesReceived == 0
      ensures GetStats() == StatsSnapshot(0, 0, t1 - t0)
    {
      startTime := t0;
      packetsReceived := 0;
      bytesReceived := 0;
      lastUpdate := t1;
    }

    /** `update`: one more packet of `packetSize` bytes, stamped at `now`. */
    method Update(packetSize: nat, now: nat)
      requires packetsReceived + 1 <= U64_MAX && bytesReceived + packetSize <= U64_MAX
      requires lastUpdate <= now
      modifies this
      ensures packetsReceived == old(packetsReceived) + 1
      ensures bytesReceived == old(bytesReceived) + packetSize
      ensures startTime == old(startTime) && lastUpdate == now
      ensures old(Valid()) ==> Valid()
    {
      packetsReceived := packetsReceived + 1;
      bytesReceived := bytesReceived + packetSize;
      lastUpdate := now;
    }

    /**
     * `get_stats`: the counters and the time from the start to the LAST
     * UPDATE (not to the present). `duration_since` saturates at zero.
     */
    function GetStats(): (s: StatsSnapshot)
      reads this
      ensures s.packets == packetsReceived && s.bytes == bytesReceived
      ensures startTime <= lastUpdate ==> startTime + s.elapsed == lastUpdate
      ensures lastUpdate < startTime ==> s.elapsed == 0
    {
      var elapsed := if startTime <= lastUpdate then lastUpdate - startTime else 0;
      StatsSnapshot(packetsReceived, bytesReceived, elapsed)
    }

    /** `reset`: zero counters, both timestamps restamped from readings `t0 <= t1`. */
    method Reset(t0: nat, t1: nat)
      requires t0 <= t1
      modifies this
      ensures Valid()
      ensures startTime == t0 && lastUpdate == t1
      ensures packetsReceived == 0 && bytesReceived == 0
      ensures GetStats() == StatsSnapshot(0, 0, t1 - t0)
    {
      startTime := t0;
      packetsReceived := 0;
      bytesReceived := 0;
      lastUpdate := t1;
    }
  }
}
