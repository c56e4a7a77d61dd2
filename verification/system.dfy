/** Hardware parameters of the chiplet package and the hop-latency model
    (package/system.py). */
module System {

  /** The hardware parameter record; every field is a Python float. */
  datatype SystemParams = SystemParams(
    intraLatencyNs: real,
    intraBandwidthGBs: real,
    interBandwidthGBs: real,
    minInterLatencyNs: real,
    maxInterLatencyNs: real,
    powerPerChipletW: real,
    commPowerPerUnitW: real)

  /** `SystemParams()` with every default. */
  const DefaultParams := SystemParams(45.0, 512.0, 128.0, 85.0, 850.0, 50.0, 15.0)

  /** Parameters that describe a physically meaningful package: positive local
      latency and static power, a non-empty latency range, non-negative
      communication power. The defaults are physical. */
  predicate Physical(p: SystemParams) {
    && 0.0 < p.intraLatencyNs
    && 0.0 < p.minInterLatencyNs <= p.maxInterLatencyNs
    && 0.0 < p.powerPerChipletW
    && 0.0 <= p.commPowerPerUnitW
  }

  // ---------------------------------------------------------------------------
  // Powers of two: `math.log2` is only ever applied to chiplet counts 2, 4, 8,
  // 16, ..., where it is an exact integer exponent.
  // ---------------------------------------------------------------------------

  function Pow2(k: nat): (n: nat)
    ensures 1 <= n
  {
    if k == 0 then 1 else 2 * Pow2(k - 1)
  }

  predicate IsPowerOfTwo(n: int)
    decreases if 0 < n then n else 0
  {
    n == 1 || (1 < n && n % 2 == 0 && IsPowerOfTwo(n / 2))
  }

  /** The exact base-2 logarithm of a power of two. */
  function Log2(n: int): (k: nat)
    requires IsPowerOfTwo(n)
    ensures Pow2(k) == n
    decreases if 0 < n then n else 0
  {
    if n == 1 then 0 else 1 + Log2(n / 2)
  }

  lemma {:induction false} Pow2IsPowerOfTwo(k: nat)
    ensures IsPowerOfTwo(Pow2(k))
  {
    if k > 0 {
      Pow2IsPowerOfTwo(k - 1);
      assert Pow2(k) / 2 == Pow2(k - 1);
    }
  }

  lemma {:induction false} Pow2StrictlyIncreasing(i: nat, j: nat)
    requires i < j
    ensures Pow2(i) < Pow2(j)
  {
    if i + 1 < j {
      Pow2StrictlyIncreasing(i, j - 1);
    }
  }

  /** Log2 undoes Pow2. */
  lemma Log2OfPow2(k: nat)
    ensures IsPowerOfTwo(Pow2(k)) && Log2(Pow2(k)) == k
  {
    Pow2IsPowerOfTwo(k);
    var j := Log2(Pow2(k));
    if j < k {
      Pow2StrictlyIncreasing(j, k);
    } else if k < j {
      Pow2StrictlyIncreasing(k, j);
    }
  }

  // ---------------------------------------------------------------------------
  // hop_latency
  // ---------------------------------------------------------------------------

  /** Chiplet counts whose `log2(max(n, 2))` the model can state exactly: any
      count up to 2 (clamped to 2) and every power of two. */
  predicate HopCountDefined(n: int) {
    n <= 2 || IsPowerOfTwo(n)
  }

  /** `log2(max(n, 2))`, the average hop count of a 2D mesh of n chiplets. */
  function AvgHops(n: int): (h: nat)
    requires HopCountDefined(n)
    ensures 1 <= h
    ensures Pow2(h) == (if n < 2 then 2 else n)
  {
    if n < 2 then 1 else Log2(n)
  }

  /** AvgHops is monotone in the chiplet count and equals 4 exactly at 16. */
  lemma AvgHopsMonotone(a: int, b: int)
    requires HopCountDefined(a) && HopCountDefined(b) && a <= b
    ensures AvgHops(a) <= AvgHops(b)
  {
    if AvgHops(b) < AvgHops(a) {
      Pow2StrictlyIncreasing(AvgHops(b), AvgHops(a));
    }
  }

  lemma AvgHopsFourIffSixteen(n: int)
    requires HopCountDefined(n)
    ensures AvgHops(n) == 4 <==> n == 16
  {
    var h := AvgHops(n);
    assert Pow2(4) == 16;
    if h < 4 {
      Pow2StrictlyIncreasing(h, 4);
    } else if 4 < h {
      Pow2StrictlyIncreasing(4, h);
    }
  }

  /** Spread between the slowest and the one-hop inter-chiplet latency. */
  function LatencyRange(p: SystemParams): real {
    p.maxInterLatencyNs - p.minInterLatencyNs
  }

  /** Extra latency of `hops` hops over a latency range: a quarter of the
      range per hop. */
  function HopSpread(hops: nat, range: real): real {
    (hops as real) * range / 4.0
  }

  /** Average hop latency of a package of n chiplets: the one-hop minimum plus
      the spread of the average hop count. */
  function HopLatency(p: SystemParams, n: int): real
    requires HopCountDefined(n)
  {
    p.minInterLatencyNs + HopSpread(AvgHops(n), LatencyRange(p))
  }

  lemma HopSpreadNonNegative(hops: nat, range: real)
    requires 0.0 <= range
    ensures 0.0 <= HopSpread(hops, range)
  {}

  lemma HopSpreadMonotone(h1: nat, h2: nat, range: real)
    requires h1 <= h2 && 0.0 <= range
    ensures HopSpread(h1, range) <= HopSpread(h2, range)
  {}

  /** With a proper range, the spread covers the whole range exactly at 4 hops. */
  lemma HopSpreadIsRange(hops: nat, range: real)
    requires 0.0 < range
    ensures HopSpread(hops, range) == range <==> hops == 4
  {}

  /** With a non-empty latency range, hop latency never drops below the
      one-hop minimum. */
  lemma HopLatencyAtLeastMin(p: SystemParams, n: int)
    requires HopCountDefined(n)
    requires p.minInterLatencyNs <= p.maxInterLatencyNs
    ensures p.minInterLatencyNs <= HopLatency(p, n)
  {
    HopSpreadNonNegative(AvgHops(n), LatencyRange(p));
  }

  /** Counts below two are clamped to two. */
  lemma HopLatencyClamp(p: SystemParams, n: int)
    requires n <= 2
    ensures HopLatency(p, n) == HopLatency(p, 2)
  {
    Log2OfPow2(1);
  }

  /** More chiplets never shorten the average hop latency. */
  lemma HopLatencyMonotone(p: SystemParams, a: int, b: int)
    requires HopCountDefined(a) && HopCountDefined(b) && a <= b
    requires p.minInterLatencyNs <= p.maxInterLatencyNs
    ensures HopLatency(p, a) <= HopLatency(p, b)
  {
    AvgHopsMonotone(a, b);
    HopSpreadMonotone(AvgHops(a), AvgHops(b), LatencyRange(p));
  }

  /** The latency range is normalised against a 16-chiplet (4-hop) mesh: with
      a proper range the maximum latency is reached exactly at 16 chiplets. */
  lemma HopLatencyMaxAtSixteen(p: SystemParams, n: int)
    requires HopCountDefined(n)
    requires p.minInterLatencyNs < p.maxInterLatencyNs
    ensures HopLatency(p, n) == p.maxInterLatencyNs <==> n == 16
  {
    HopSpreadIsRange(AvgHops(n), LatencyRange(p));
    AvgHopsFourIffSixteen(n);
  }

  /** The default parameters give 276.25 ns at 2 chiplets up to 850 ns at 16. */
  lemma DefaultHopLatencies()
    ensures Physical(DefaultParams)
    ensures HopLatency(DefaultParams, 2) == 276.25
    ensures HopLatency(DefaultParams, 4) == 467.5
    ensures HopLatency(DefaultParams, 8) == 658.75
    ensures HopLatency(DefaultParams, 16) == 850.0
  {
    Log2OfPow2(1);
    Log2OfPow2(2);
    Log2OfPow2(3);
    Log2OfPow2(4);
  }
}
