/** The six closed-form accelerator metrics (metrics.py). Every metric is a
    pure function of the partitioning quality q, the chiplet count n, the
    workload profile and, where used, the hardware parameters.

    Each metric is written in two layers: a formula over plain reals (the
    arithmetic of the source line) and the metric itself, which feeds the
    formula with the traffic ratio, hop latency, congestion and so on. The
    properties of a formula are proved once over arbitrary reals; the
    properties of a metric follow by combining them. */
module Metrics {
  import opened System
  import opened Workloads

  /** Optimal partitioning removes at most 70% of cross-chiplet traffic. */
  const MaxReduction: real := 0.70
  const CongestionCap: real := 95.0
  /** Congestion above this percentage is "unsustainable" and changes both
      the throughput penalty and the overhead multiplier. */
  const CongestionThreshold: real := 70.0
  const OverheadCap: real := 85.0
  /** The images-per-second baseline `compute_throughput` uses by default. */
  const DefaultBaseline: real := 100.0

  /** The range `inter_chiplet_traffic_ratio` asserts; anything else is an
      AssertionError. */
  predicate ValidQuality(q: real) {
    0.0 <= q <= 1.0
  }

  function Min(a: real, b: real): (m: real)
    ensures m <= a && m <= b && (m == a || m == b)
  {
    if a <= b then a else b
  }

  // ---------------------------------------------------------------------------
  // Products of non-negative reals
  // ---------------------------------------------------------------------------

  lemma MulLeft(a: real, x: real, y: real)
    requires 0.0 <= a && x <= y
    ensures a * x <= a * y
  {}

  lemma MulLeftStrict(a: real, x: real, y: real)
    requires 0.0 < a && x < y
    ensures a * x < a * y
  {}

  lemma MulRight(x: real, y: real, a: real)
    requires 0.0 <= a && x <= y
    ensures x * a <= y * a
  {}

  lemma MulRightStrict(x: real, y: real, a: real)
    requires 0.0 < a && x < y
    ensures x * a < y * a
  {}

  // ---------------------------------------------------------------------------
  // Traffic
  // ---------------------------------------------------------------------------

  /** `base * (1 - q * 0.7)`. */
  function TrafficFormula(base: real, q: real): real {
    base * (1.0 - q * MaxReduction)
  }

  lemma TrafficFormulaBounds(base: real, q: real)
    requires 0.0 <= base && ValidQuality(q)
    ensures 0.3 * base <= TrafficFormula(base, q) <= base
  {
    MulLeft(base, 0.3, 1.0 - q * MaxReduction);
    MulLeft(base, 1.0 - q * MaxReduction, 1.0);
  }

  lemma TrafficFormulaStrictlyDecreasing(base: real, q1: real, q2: real)
    requires 0.0 < base && q1 < q2
    ensures TrafficFormula(base, q2) < TrafficFormula(base, q1)
  {
    MulLeftStrict(base, 1.0 - q2 * MaxReduction, 1.0 - q1 * MaxReduction);
  }

  /** Fraction of traffic crossing chiplet boundaries: the pattern's base
      ratio, reduced by up to 70% as the partitioning improves. */
  function TrafficRatio(q: real, w: WorkloadProfile): (r: real)
    requires ValidQuality(q)
    ensures 0.3 * BaseTrafficRatio(w) <= r <= BaseTrafficRatio(w)
    ensures 0.0 < r < 1.0
  {
    TrafficFormulaBounds(BaseTrafficRatio(w), q);
    TrafficFormula(BaseTrafficRatio(w), q)
  }

  /** Better partitioning strictly reduces cross-chiplet traffic. */
  lemma TrafficStrictlyDecreasing(q1: real, q2: real, w: WorkloadProfile)
    requires ValidQuality(q1) && ValidQuality(q2) && q1 < q2
    ensures TrafficRatio(q2, w) < TrafficRatio(q1, w)
  {
    TrafficFormulaStrictlyDecreasing(BaseTrafficRatio(w), q1, q2);
  }

  /** Random partitioning keeps all of the base traffic; optimal keeps 30%. */
  lemma TrafficEndpoints(w: WorkloadProfile)
    ensures TrafficRatio(0.0, w) == BaseTrafficRatio(w)
    ensures TrafficRatio(1.0, w) == 0.3 * BaseTrafficRatio(w)
  {}

  // ---------------------------------------------------------------------------
  // Latency
  // ---------------------------------------------------------------------------

  /** `intra + traffic * hop`. */
  function LatencyFormula(intra: real, traffic: real, hop: real): real {
    intra + traffic * hop
  }

  lemma LatencyFormulaAboveIntra(intra: real, traffic: real, hop: real)
    requires 0.0 < traffic && 0.0 < hop
    ensures intra < LatencyFormula(intra, traffic, hop)
  {
    MulLeftStrict(traffic, 0.0, hop);
  }

  lemma LatencyFormulaTraffic(intra: real, t1: real, t2: real, hop: real)
    requires t1 < t2 && 0.0 < hop
    ensures LatencyFormula(intra, t1, hop) < LatencyFormula(intra, t2, hop)
  {
    MulLeftStrict(hop, t1, t2);
  }

  lemma LatencyFormulaHop(intra: real, traffic: real, h1: real, h2: real)
    requires 0.0 <= traffic && h1 <= h2
    ensures LatencyFormula(intra, traffic, h1) <= LatencyFormula(intra, traffic, h2)
  {
    MulLeft(traffic, h1, h2);
  }

  /** Average inference latency (ns): local latency plus the traffic-weighted
      hop latency. */
  function Latency(q: real, n: int, w: WorkloadProfile, p: SystemParams): real
    requires ValidQuality(q) && HopCountDefined(n)
  {
    LatencyFormula(p.intraLatencyNs, TrafficRatio(q, w), HopLatency(p, n))
  }

  /** Cross-chiplet traffic always adds to the local latency, so latency is
      above the intra-chiplet latency and hence positive. */
  lemma LatencyAboveIntra(q: real, n: int, w: WorkloadProfile, p: SystemParams)
    requires ValidQuality(q) && HopCountDefined(n) && Physical(p)
    ensures 0.0 < p.intraLatencyNs < Latency(q, n, w, p)
  {
    HopLatencyAtLeastMin(p, n);
    LatencyFormulaAboveIntra(p.intraLatencyNs, TrafficRatio(q, w), HopLatency(p, n));
  }

  /** Better partitioning strictly lowers latency. */
  lemma LatencyStrictlyDecreasingInQuality(q1: real, q2: real, n: int, w: WorkloadProfile, p: SystemParams)
    requires ValidQuality(q1) && ValidQuality(q2) && q1 < q2 && HopCountDefined(n)
    requires Physical(p)
    ensures Latency(q2, n, w, p) < Latency(q1, n, w, p)
  {
    TrafficStrictlyDecreasing(q1, q2, w);
    HopLatencyAtLeastMin(p, n);
    LatencyFormulaTraffic(p.intraLatencyNs, TrafficRatio(q2, w), TrafficRatio(q1, w), HopLatency(p, n));
  }

  /** More chiplets never lower latency (the hop count grows). */
  lemma LatencyNonDecreasingInChiplets(q: real, a: int, b: int, w: WorkloadProfile, p: SystemParams)
    requires ValidQuality(q) && HopCountDefined(a) && HopCountDefined(b) && a <= b
    requires p.minInterLatencyNs <= p.maxInterLatencyNs
    ensures Latency(q, a, w, p) <= Latency(q, b, w, p)
  {
    HopLatencyMonotone(p, a, b);
    LatencyFormulaHop(p.intraLatencyNs, TrafficRatio(q, w), HopLatency(p, a), HopLatency(p, b));
  }

  // ---------------------------------------------------------------------------
  // Congestion
  // ---------------------------------------------------------------------------

  /** `x / (n * 0.1) * 100`: a load x spread over 0.1 links per chiplet, as a
      percentage. */
  function LinkShare(x: real, n: real): real
    requires n != 0.0
  {
    x / (n * 0.1) * 100.0
  }

  lemma LinkShareNonNegative(x: real, n: real)
    requires 0.0 <= x && 0.0 < n
    ensures 0.0 <= LinkShare(x, n)
  {}

  lemma LinkShareLoad(x1: real, x2: real, n: real)
    requires x1 <= x2 && 0.0 < n
    ensures LinkShare(x1, n) <= LinkShare(x2, n)
  {}

  lemma LinkShareLinks(x: real, n1: real, n2: real)
    requires 0.0 <= x && 0.0 < n1 <= n2
    ensures LinkShare(x, n2) <= LinkShare(x, n1)
  {
    MulLeft(x / (n1 * 0.1) / (n2 * 0.1), n1 * 0.1, n2 * 0.1);
  }

  lemma LinkShareLinksStrict(x: real, n1: real, n2: real)
    requires 0.0 < x && 0.0 < n1 < n2
    ensures LinkShare(x, n2) < LinkShare(x, n1)
  {
    MulLeftStrict(x / (n1 * 0.1) / (n2 * 0.1), n1 * 0.1, n2 * 0.1);
  }

  /** `min(95, traffic * memory / (n * 0.1) * 100)`. */
  function CongestionFormula(traffic: real, memory: real, n: real): (r: real)
    requires n != 0.0
    ensures r <= CongestionCap
  {
    Min(CongestionCap, LinkShare(traffic * memory, n))
  }

  lemma CongestionFormulaNonNegative(traffic: real, memory: real, n: real)
    requires 0.0 <= traffic && 0.0 <= memory && 0.0 < n
    ensures 0.0 <= CongestionFormula(traffic, memory, n)
  {
    MulRight(0.0, traffic, memory);
    LinkShareNonNegative(traffic * memory, n);
  }

  lemma CongestionFormulaLinks(traffic: real, memory: real, n1: real, n2: real)
    requires 0.0 <= traffic && 0.0 <= memory && 0.0 < n1 <= n2
    ensures CongestionFormula(traffic, memory, n2) <= CongestionFormula(traffic, memory, n1)
  {
    MulRight(0.0, traffic, memory);
    LinkShareLinks(traffic * memory, n1, n2);
  }

  lemma CongestionFormulaLinksStrict(traffic: real, memory: real, n1: real, n2: real)
    requires 0.0 < traffic && 0.0 < memory && 0.0 < n1 < n2
    requires CongestionFormula(traffic, memory, n1) < CongestionCap
    ensures CongestionFormula(traffic, memory, n2) < CongestionFormula(traffic, memory, n1)
  {
    MulRightStrict(0.0, traffic, memory);
    LinkShareLinksStrict(traffic * memory, n1, n2);
  }

  lemma CongestionFormulaTraffic(t1: real, t2: real, memory: real, n: real)
    requires t1 <= t2 && 0.0 <= memory && 0.0 < n
    ensures CongestionFormula(t1, memory, n) <= CongestionFormula(t2, memory, n)
  {
    MulRight(t1, t2, memory);
    LinkShareLoad(t1 * memory, t2 * memory, n);
  }

  /** Network congestion percentage: memory-weighted traffic spread over
      0.1 links per chiplet, never reported above 95%. */
  function Congestion(q: real, n: int, w: WorkloadProfile): (r: real)
    requires ValidQuality(q) && n != 0
    ensures r <= CongestionCap
  {
    CongestionFormula(TrafficRatio(q, w), w.memoryIntensity, n as real)
  }

  /** Congestion lies in [0, 95] for a real package and workload. */
  lemma CongestionBounds(q: real, n: int, w: WorkloadProfile)
    requires ValidQuality(q) && 0 < n && 0.0 <= w.memoryIntensity
    ensures 0.0 <= Congestion(q, n, w) <= CongestionCap
  {
    CongestionFormulaNonNegative(TrafficRatio(q, w), w.memoryIntensity, n as real);
  }

  /** More chiplets dilute congestion per link. */
  lemma CongestionNonIncreasingInChiplets(q: real, a: int, b: int, w: WorkloadProfile)
    requires ValidQuality(q) && 0 < a <= b && 0.0 <= w.memoryIntensity
    ensures Congestion(q, b, w) <= Congestion(q, a, w)
  {
    CongestionFormulaLinks(TrafficRatio(q, w), w.memoryIntensity, a as real, b as real);
  }

  /** Below the cap, strictly more chiplets give strictly less congestion for
      a workload that touches memory. */
  lemma CongestionStrictlyDecreasingInChiplets(q: real, a: int, b: int, w: WorkloadProfile)
    requires ValidQuality(q) && 0 < a < b && 0.0 < w.memoryIntensity
    requires Congestion(q, a, w) < CongestionCap
    ensures Congestion(q, b, w) < Congestion(q, a, w)
  {
    CongestionFormulaLinksStrict(TrafficRatio(q, w), w.memoryIntensity, a as real, b as real);
  }

  /** Better partitioning never raises congestion. */
  lemma CongestionNonIncreasingInQuality(q1: real, q2: real, n: int, w: WorkloadProfile)
    requires ValidQuality(q1) && ValidQuality(q2) && q1 <= q2
    requires 0 < n && 0.0 <= w.memoryIntensity
    ensures Congestion(q2, n, w) <= Congestion(q1, n, w)
  {
    if q1 < q2 {
      TrafficStrictlyDecreasing(q1, q2, w);
    }
    CongestionFormulaTraffic(TrafficRatio(q2, w), TrafficRatio(q1, w), w.memoryIntensity, n as real);
  }

  // ---------------------------------------------------------------------------
  // Throughput
  // ---------------------------------------------------------------------------

  /** Parallel efficiency: a 15% floor for random partitioning, 100% for
      optimal. */
  function ParallelEfficiency(q: real): (r: real)
    requires ValidQuality(q)
    ensures 0.15 <= r <= 1.0
    ensures r == 0.15 <==> q == 0.0
    ensures r == 1.0 <==> q == 1.0
  {
    q * 0.85 + 0.15
  }

  /** Better partitioning strictly raises parallel efficiency. */
  lemma EfficiencyStrictlyIncreasing(q1: real, q2: real)
    requires ValidQuality(q1) && ValidQuality(q2) && q1 < q2
    ensures ParallelEfficiency(q1) < ParallelEfficiency(q2)
  {}

  /** Throughput penalty for a congestion level: a flat 0.9 up to the 70%
      threshold, then the uncongested fraction, which is already below 0.3. */
  function CongestionPenalty(c: real): (r: real)
    ensures r <= 0.9
    ensures c <= CongestionThreshold <==> r == 0.9
    ensures CongestionThreshold < c ==> r < 0.3
  {
    if c > CongestionThreshold then (100.0 - c) / 100.0 else 0.9
  }

  /** Above the threshold the penalty is the uncongested fraction: penalty and
      congestion share out the whole link. */
  lemma PenaltyIsUncongestedFraction(c: real)
    requires CongestionThreshold < c
    ensures CongestionPenalty(c) + c / 100.0 == 1.0
  {}

  /** Congestion never exceeds the 95% cap, so the penalty keeps at least 5%. */
  lemma PenaltyPositive(c: real)
    requires c <= CongestionCap
    ensures 0.05 <= CongestionPenalty(c)
  {}

  /** More congestion never means a milder penalty. */
  lemma PenaltyNonIncreasing(c1: real, c2: real)
    requires c1 <= c2
    ensures CongestionPenalty(c2) <= CongestionPenalty(c1)
  {}

  /** `baseline * n * efficiency * penalty`. */
  function ThroughputFormula(baseline: real, n: real, efficiency: real, penalty: real): real {
    baseline * n * efficiency * penalty
  }

  lemma ThroughputFormulaPositive(baseline: real, n: real, efficiency: real, penalty: real)
    requires 0.0 < baseline && 0.0 < n && 0.0 < efficiency && 0.0 < penalty
    ensures 0.0 < ThroughputFormula(baseline, n, efficiency, penalty)
  {
    MulLeftStrict(baseline, 0.0, n);
    MulLeftStrict(baseline * n, 0.0, efficiency);
    MulLeftStrict(baseline * n * efficiency, 0.0, penalty);
  }

  lemma ThroughputFormulaScales(baseline: real, n: real, efficiency: real, penalty: real)
    ensures ThroughputFormula(baseline, n, efficiency, penalty)
         == baseline * ThroughputFormula(1.0, n, efficiency, penalty)
  {}

  /** The product grows strictly when one of n and the efficiency grows
      strictly and no factor shrinks. */
  lemma ThroughputFormulaGrows(b: real, n1: real, n2: real, e1: real, e2: real, p1: real, p2: real)
    requires 0.0 < b && 0.0 < n1 <= n2 && 0.0 < e1 <= e2 && 0.0 < p1 <= p2
    requires n1 < n2 || e1 < e2
    ensures ThroughputFormula(b, n1, e1, p1) < ThroughputFormula(b, n2, e2, p2)
  {
    MulLeftStrict(b, 0.0, n1);
    MulLeft(b, n1, n2);
    MulLeftStrict(b * n1, 0.0, e1);
    if n1 < n2 {
      MulLeftStrict(b, n1, n2);
      MulLeftStrict(e1, b * n1, b * n2);
      MulLeft(b * n2, e1, e2);
    } else {
      MulLeftStrict(b * n1, e1, e2);
    }
    MulLeftStrict(p1, b * n1 * e1, b * n2 * e2);
    MulLeft(b * n2 * e2, p1, p2);
  }

  /** System throughput (images/s) for a given baseline rate per chiplet. */
  function Throughput(q: real, n: int, w: WorkloadProfile, baseline: real): real
    requires ValidQuality(q) && n != 0
  {
    ThroughputFormula(baseline, n as real, ParallelEfficiency(q), CongestionPenalty(Congestion(q, n, w)))
  }

  /** Throughput is positive for a positive baseline and chiplet count. */
  lemma ThroughputPositive(q: real, n: int, w: WorkloadProfile, baseline: real)
    requires ValidQuality(q) && 0 < n && 0.0 < baseline
    ensures 0.0 < Throughput(q, n, w, baseline)
  {
    PenaltyPositive(Congestion(q, n, w));
    ThroughputFormulaPositive(baseline, n as real, ParallelEfficiency(q), CongestionPenalty(Congestion(q, n, w)));
  }

  /** Throughput is proportional to the baseline rate. */
  lemma ThroughputLinearInBaseline(q: real, n: int, w: WorkloadProfile, baseline: real)
    requires ValidQuality(q) && n != 0
    ensures Throughput(q, n, w, baseline) == baseline * Throughput(q, n, w, 1.0)
  {
    ThroughputFormulaScales(baseline, n as real, ParallelEfficiency(q), CongestionPenalty(Congestion(q, n, w)));
  }

  /** More chiplets never worsen the congestion penalty. */
  lemma PenaltyImprovesWithChiplets(q: real, a: int, b: int, w: WorkloadProfile)
    requires ValidQuality(q) && 0 < a <= b && 0.0 <= w.memoryIntensity
    ensures 0.0 < CongestionPenalty(Congestion(q, a, w)) <= CongestionPenalty(Congestion(q, b, w))
  {
    PenaltyPositive(Congestion(q, a, w));
    CongestionNonIncreasingInChiplets(q, a, b, w);
    PenaltyNonIncreasing(Congestion(q, b, w), Congestion(q, a, w));
  }

  /** Better partitioning never worsens the congestion penalty. */
  lemma PenaltyImprovesWithQuality(q1: real, q2: real, n: int, w: WorkloadProfile)
    requires ValidQuality(q1) && ValidQuality(q2) && q1 <= q2
    requires 0 < n && 0.0 <= w.memoryIntensity
    ensures 0.0 < CongestionPenalty(Congestion(q1, n, w)) <= CongestionPenalty(Congestion(q2, n, w))
  {
    PenaltyPositive(Congestion(q1, n, w));
    CongestionNonIncreasingInQuality(q1, q2, n, w);
    PenaltyNonIncreasing(Congestion(q2, n, w), Congestion(q1, n, w));
  }

  /** For a fixed workload and quality, strictly more chiplets give strictly
      more throughput, across the 70% threshold too: n grows and the penalty
      never worsens. */
  lemma ThroughputStrictlyIncreasingInChiplets(q: real, a: int, b: int, w: WorkloadProfile, baseline: real)
    requires ValidQuality(q) && 0 < a < b && 0.0 <= w.memoryIntensity && 0.0 < baseline
    ensures Throughput(q, a, w, baseline) < Throughput(q, b, w, baseline)
  {
    PenaltyImprovesWithChiplets(q, a, b, w);
    ThroughputFormulaGrows(baseline, a as real, b as real, ParallelEfficiency(q), ParallelEfficiency(q),
                           CongestionPenalty(Congestion(q, a, w)), CongestionPenalty(Congestion(q, b, w)));
  }

  /** Better partitioning strictly increases throughput: efficiency rises and
      congestion, hence the penalty, never worsens. */
  lemma ThroughputStrictlyIncreasingInQuality(q1: real, q2: real, n: int, w: WorkloadProfile, baseline: real)
    requires ValidQuality(q1) && ValidQuality(q2) && q1 < q2
    requires 0 < n && 0.0 <= w.memoryIntensity && 0.0 < baseline
    ensures Throughput(q1, n, w, baseline) < Throughput(q2, n, w, baseline)
  {
    EfficiencyStrictlyIncreasing(q1, q2);
    PenaltyImprovesWithQuality(q1, q2, n, w);
    ThroughputFormulaGrows(baseline, n as real, n as real, ParallelEfficiency(q1), ParallelEfficiency(q2),
                           CongestionPenalty(Congestion(q1, n, w)), CongestionPenalty(Congestion(q2, n, w)));
  }

  // ---------------------------------------------------------------------------
  // Energy efficiency
  // ---------------------------------------------------------------------------

  /** `n * power + traffic * n * commPower`. */
  function PowerFormula(n: real, traffic: real, power: real, commPower: real): real {
    n * power + traffic * n * commPower
  }

  lemma PowerFormulaPositive(n: real, traffic: real, power: real, commPower: real)
    requires 0.0 < n && 0.0 <= traffic && 0.0 < power && 0.0 <= commPower
    ensures 0.0 < PowerFormula(n, traffic, power, commPower)
  {
    MulLeftStrict(n, 0.0, power);
    MulLeft(traffic, 0.0, n);
    MulLeft(traffic * n, 0.0, commPower);
  }

  /** Total package power (W): static power per chiplet plus
      traffic-proportional communication power. */
  function TotalPower(q: real, n: int, w: WorkloadProfile, p: SystemParams): real
    requires ValidQuality(q)
  {
    PowerFormula(n as real, TrafficRatio(q, w), p.powerPerChipletW, p.commPowerPerUnitW)
  }

  /** A real package of at least one chiplet draws power. */
  lemma TotalPowerPositive(q: real, n: int, w: WorkloadProfile, p: SystemParams)
    requires ValidQuality(q) && 0 < n && Physical(p)
    ensures 0.0 < TotalPower(q, n, w, p)
  {
    PowerFormulaPositive(n as real, TrafficRatio(q, w), p.powerPerChipletW, p.commPowerPerUnitW);
  }

  /** `throughput * flops / 1e12 / power`. */
  function EfficiencyFormula(throughput: real, flops: real, power: real): real
    requires power != 0.0
  {
    throughput * flops / 1000000000000.0 / power
  }

  lemma EfficiencyFormulaPositive(throughput: real, flops: real, power: real)
    requires 0.0 < throughput && 0.0 < flops && 0.0 < power
    ensures 0.0 < EfficiencyFormula(throughput, flops, power)
  {
    MulLeftStrict(throughput, 0.0, flops);
  }

  /** Energy efficiency (TOPS/W). It always evaluates throughput at the
      default 100 images/s baseline, whatever baseline the caller uses. */
  function EnergyEfficiency(q: real, n: int, w: WorkloadProfile, p: SystemParams): real
    requires ValidQuality(q) && n != 0 && TotalPower(q, n, w, p) != 0.0
  {
    EfficiencyFormula(Throughput(q, n, w, DefaultBaseline), w.flopsPerImage, TotalPower(q, n, w, p))
  }

  /** Energy efficiency is positive for a real package and workload. */
  lemma EnergyEfficiencyPositive(q: real, n: int, w: WorkloadProfile, p: SystemParams)
    requires ValidQuality(q) && 0 < n && Physical(p) && 0.0 < w.flopsPerImage
    ensures TotalPower(q, n, w, p) != 0.0
    ensures 0.0 < EnergyEfficiency(q, n, w, p)
  {
    TotalPowerPositive(q, n, w, p);
    ThroughputPositive(q, n, w, DefaultBaseline);
    EfficiencyFormulaPositive(Throughput(q, n, w, DefaultBaseline), w.flopsPerImage, TotalPower(q, n, w, p));
  }

  // ---------------------------------------------------------------------------
  // Communication overhead
  // ---------------------------------------------------------------------------

  /** Overhead amplification: 1 up to the 70% threshold, then growing by one
      per further 30 percentage points of congestion. */
  function OverheadMultiplier(c: real): (r: real)
    ensures 1.0 <= r
    ensures r == 1.0 <==> c <= CongestionThreshold
    ensures CongestionThreshold < c ==> 30.0 * (r - 1.0) == c - CongestionThreshold
  {
    if c > CongestionThreshold then 1.0 + (c - CongestionThreshold) / 30.0 else 1.0
  }

  /** `min(85, traffic * (latency / intra) * multiplier * 100)`. */
  function OverheadFormula(traffic: real, latency: real, intra: real, multiplier: real): (r: real)
    requires intra != 0.0
    ensures r <= OverheadCap
    ensures var raw := traffic * (latency / intra) * multiplier * 100.0;
            (raw <= OverheadCap ==> r == raw) && (OverheadCap < raw ==> r == OverheadCap)
  {
    Min(OverheadCap, traffic * (latency / intra) * multiplier * 100.0)
  }

  lemma OverheadFormulaPositive(traffic: real, latency: real, intra: real, multiplier: real)
    requires 0.0 < traffic && 0.0 < latency && 0.0 < intra && 0.0 < multiplier
    ensures 0.0 < OverheadFormula(traffic, latency, intra, multiplier)
  {
    MulLeftStrict(traffic, 0.0, latency / intra);
    MulLeftStrict(traffic * (latency / intra), 0.0, multiplier);
  }

  /** Communication overhead as a percentage of execution time, capped at 85%
      after the multiplier is applied. */
  function CommOverhead(q: real, n: int, w: WorkloadProfile, p: SystemParams): (r: real)
    requires ValidQuality(q) && HopCountDefined(n) && n != 0 && p.intraLatencyNs != 0.0
    ensures r <= OverheadCap
  {
    OverheadFormula(TrafficRatio(q, w), Latency(q, n, w, p), p.intraLatencyNs,
                    OverheadMultiplier(Congestion(q, n, w)))
  }

  /** Communication overhead is positive for a real package. */
  lemma CommOverheadPositive(q: real, n: int, w: WorkloadProfile, p: SystemParams)
    requires ValidQuality(q) && HopCountDefined(n) && n != 0 && Physical(p)
    ensures 0.0 < CommOverhead(q, n, w, p) <= OverheadCap
  {
    LatencyAboveIntra(q, n, w, p);
    OverheadFormulaPositive(TrafficRatio(q, w), Latency(q, n, w, p), p.intraLatencyNs,
                            OverheadMultiplier(Congestion(q, n, w)));
  }

  /** The worked example: ResNet-50 on 4 chiplets at quality 0.5 with the
      default parameters. The overhead formula yields about 168.5%, so the 85%
      cap is what is reported. */
  lemma ResNetOnFourChiplets()
    ensures TrafficRatio(0.5, ResNet50) == 0.3575
    ensures Latency(0.5, 4, ResNet50, DefaultParams) == 212.13125
    ensures Congestion(0.5, 4, ResNet50) == 44.6875
    ensures Throughput(0.5, 4, ResNet50, DefaultBaseline) == 207.0
    ensures TotalPower(0.5, 4, ResNet50, DefaultParams) == 221.45
    ensures EnergyEfficiency(0.5, 4, ResNet50, DefaultParams) == 0.7866 / 221.45
    ensures CommOverhead(0.5, 4, ResNet50, DefaultParams) == OverheadCap
  {
    DefaultHopLatencies();
  }

  /** VGG-16 on 8 chiplets with random partitioning: congestion passes the 70%
      threshold, so throughput keeps only the uncongested 26.875% and the
      overhead multiplier grows past 1. */
  lemma Vgg16OnEightChiplets()
    ensures TrafficRatio(0.0, Vgg16) == 0.65
    ensures Latency(0.0, 8, Vgg16, DefaultParams) == 473.1875
    ensures Congestion(0.0, 8, Vgg16) == 73.125
    ensures CongestionPenalty(Congestion(0.0, 8, Vgg16)) == 0.26875
    ensures Throughput(0.0, 8, Vgg16, DefaultBaseline) == 32.25
    ensures TotalPower(0.0, 8, Vgg16, DefaultParams) == 478.0
    ensures EnergyEfficiency(0.0, 8, Vgg16, DefaultParams) == 0.499875 / 478.0
    ensures OverheadMultiplier(Congestion(0.0, 8, Vgg16)) == 1.0 + 3.125 / 30.0
    ensures CommOverhead(0.0, 8, Vgg16, DefaultParams) == OverheadCap
  {
    DefaultHopLatencies();
  }

  /** DarkNet-19 on 2 chiplets with optimal partitioning: congestion stays low
      and the overhead, 24.688125%, is reported below the cap. */
  lemma DarkNet19OnTwoChiplets()
    ensures TrafficRatio(1.0, DarkNet19) == 0.135
    ensures Latency(1.0, 2, DarkNet19, DefaultParams) == 82.29375
    ensures Congestion(1.0, 2, DarkNet19) == 27.0
    ensures Throughput(1.0, 2, DarkNet19, DefaultBaseline) == 180.0
    ensures TotalPower(1.0, 2, DarkNet19, DefaultParams) == 104.05
    ensures EnergyEfficiency(1.0, 2, DarkNet19, DefaultParams) == 1.008 / 104.05
    ensures CommOverhead(1.0, 2, DarkNet19, DefaultParams) == 24.688125
  {
    DefaultHopLatencies();
  }
}
