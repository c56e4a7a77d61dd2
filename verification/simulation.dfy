/** The simulation driver (simulator.py): a simulator bundles the hardware
    parameters with a baseline rate, `Run` validates one design point and
    evaluates the six metrics on it, and `Sweep` runs an evenly spaced grid of
    partitioning qualities. Python exceptions become `Failure` values. */
module Simulation {
  import opened Wrappers
  import opened System
  import opened Workloads
  import opened Metrics

  /** One simulation point: the echoed inputs and the six metrics. */
  datatype SimulationResult = SimulationResult(
    numChiplets: int,
    coresPerChiplet: int,
    workload: string,
    quality: real,
    latencyNs: real,
    trafficPct: real,
    congestionPct: real,
    throughputImgPerSec: real,
    energyEfficiencyTopsPerW: real,
    commOverheadPct: real)

  /** The exceptions a run or a sweep can raise: the two ValueErrors `run`
      raises itself, the ZeroDivisionError a degenerate package causes inside
      the metrics, and the ValueError numpy raises for a negative sample
      count. */
  datatype SimError =
    | UnknownWorkload(name: string)
    | QualityOutOfRange(quality: real)
    | DivisionByZero
    | NegativeSampleCount(steps: int)

  datatype ChipletSimulator = ChipletSimulator(params: SystemParams, baseline: real)

  /** `ChipletSimulator()`: default parameters, 100 images/s per chiplet. */
  const DefaultSimulator := ChipletSimulator(DefaultParams, DefaultBaseline)

  /** Cores per chiplet when a run or a sweep does not say. */
  const DefaultCoresPerChiplet := 16

  /** Grid points of a sweep that does not say how many. */
  const DefaultQualitySteps := 11

  /** The constructor: missing parameters mean the defaults, which describe a
      physical package, so a simulator built without parameters is the default
      simulator once its baseline is the default one. */
  function NewSimulator(params: Option<SystemParams> := None, baseline: real := DefaultBaseline): (sim: ChipletSimulator)
    ensures params.Some? ==> sim.params == params.value
    ensures params.None? ==> sim.params == DefaultParams && Physical(sim.params)
    ensures sim.baseline == baseline
    ensures params.None? && baseline == DefaultBaseline ==> sim == DefaultSimulator
  {
    ChipletSimulator(if params.Some? then params.value else DefaultParams, baseline)
  }

  /** The metrics divide by `n * 0.1`, by the total power and by the local
      latency; a design point is computable when none of these is zero. */
  predicate Computable(p: SystemParams, n: int, w: WorkloadProfile, q: real)
    requires ValidQuality(q)
  {
    n != 0 && TotalPower(q, n, w, p) != 0.0 && p.intraLatencyNs != 0.0
  }

  /** A physical package with at least one chiplet never divides by zero. */
  lemma PhysicalIsComputable(p: SystemParams, n: int, w: WorkloadProfile, q: real)
    requires ValidQuality(q) && 0 < n && Physical(p)
    ensures Computable(p, n, w, q)
  {
    TotalPowerPositive(q, n, w, p);
  }

  /** Evaluates the six metrics on a validated, computable design point. */
  function Evaluate(sim: ChipletSimulator, n: int, workload: string, w: WorkloadProfile, q: real, cores: int): (r: SimulationResult)
    requires ValidQuality(q) && HopCountDefined(n) && Computable(sim.params, n, w, q)
    ensures r.numChiplets == n && r.coresPerChiplet == cores
    ensures r.workload == workload && r.quality == q
    ensures r.trafficPct == TrafficRatio(q, w) * 100.0
    ensures 0.0 < r.trafficPct < 100.0
    ensures r.congestionPct <= CongestionCap
    ensures r.commOverheadPct <= OverheadCap
  {
    SimulationResult(
      n, cores, workload, q,
      Latency(q, n, w, sim.params),
      TrafficRatio(q, w) * 100.0,
      Congestion(q, n, w),
      Throughput(q, n, w, sim.baseline),
      EnergyEfficiency(q, n, w, sim.params),
      CommOverhead(q, n, w, sim.params))
  }

  /** `ChipletSimulator.run`. The workload is checked before the quality; a
      run succeeds exactly when the workload is registered, the quality lies
      in [0, 1] and the design point is computable, and then the result is
      the evaluation of the profile registered under the name. */
  function Run(sim: ChipletSimulator, n: int, workload: string, q: real, cores: int := DefaultCoresPerChiplet): (r: Result<SimulationResult, SimError>)
    requires HopCountDefined(n)
    ensures workload !in Registry ==> r == Failure(UnknownWorkload(workload))
    ensures workload in Registry && !ValidQuality(q) ==> r == Failure(QualityOutOfRange(q))
    ensures r.Success? <==>
              workload in Registry && ValidQuality(q) && Computable(sim.params, n, Registry[workload], q)
    ensures r.Failure? && workload in Registry && ValidQuality(q) ==> r.error == DivisionByZero
    ensures r.Success? ==> r.value == Evaluate(sim, n, workload, Registry[workload], q, cores)
  {
    match Lookup(workload)
    case None => Failure(UnknownWorkload(workload))
    case Some(w) =>
      if !ValidQuality(q) then Failure(QualityOutOfRange(q))
      else if !Computable(sim.params, n, w, q) then Failure(DivisionByZero)
      else Success(Evaluate(sim, n, workload, w, q, cores))
  }

  /** A registered workload at a valid quality on a physical package of at
      least one chiplet always runs, and every metric has the sign and range
      the tests expect: latency above the local latency, traffic and
      congestion within bounds, positive throughput (for a positive baseline),
      energy efficiency and overhead. */
  lemma RunSucceedsOnValidInputs(sim: ChipletSimulator, n: int, workload: string, q: real, cores: int)
    requires HopCountDefined(n) && 0 < n && Physical(sim.params) && 0.0 < sim.baseline
    requires workload in Registry && ValidQuality(q)
    ensures Run(sim, n, workload, q, cores).Success?
    ensures var r := Run(sim, n, workload, q, cores).value;
            && sim.params.intraLatencyNs < r.latencyNs
            && 0.0 < r.trafficPct < 100.0
            && 0.0 <= r.congestionPct <= CongestionCap
            && 0.0 < r.throughputImgPerSec
            && 0.0 < r.energyEfficiencyTopsPerW
            && 0.0 < r.commOverheadPct <= OverheadCap
  {
    var w := Registry[workload];
    RegistryContents();
    PhysicalIsComputable(sim.params, n, w, q);
    LatencyAboveIntra(q, n, w, sim.params);
    CongestionBounds(q, n, w);
    ThroughputPositive(q, n, w, sim.baseline);
    EnergyEfficiencyPositive(q, n, w, sim.params);
    CommOverheadPositive(q, n, w, sim.params);
  }

  /** A simulator built without parameters runs every registered workload at
      every valid quality on any positive chiplet count with a defined hop
      count, whatever its baseline. */
  lemma DefaultSimulatorRuns(baseline: real, n: int, workload: string, q: real, cores: int)
    requires HopCountDefined(n) && 0 < n
    requires workload in Registry && ValidQuality(q)
    ensures Run(NewSimulator(None, baseline), n, workload, q, cores).Success?
  {
    PhysicalIsComputable(DefaultParams, n, Registry[workload], q);
  }

  /** The core count is only a label: it changes no metric. */
  lemma RunIgnoresCores(sim: ChipletSimulator, n: int, workload: string, q: real, c1: int, c2: int)
    requires HopCountDefined(n)
    ensures Run(sim, n, workload, q, c1).Success? <==> Run(sim, n, workload, q, c2).Success?
    ensures Run(sim, n, workload, q, c1).Success? ==>
              Run(sim, n, workload, q, c1).value.(coresPerChiplet := c2) == Run(sim, n, workload, q, c2).value
  {}

  /** Evaluating the same point under two baselines changes the throughput
      field only. */
  lemma EvaluateBaselineFields(p: SystemParams, b1: real, b2: real, n: int, workload: string, w: WorkloadProfile, q: real, cores: int)
    requires ValidQuality(q) && HopCountDefined(n) && Computable(p, n, w, q)
    ensures Evaluate(ChipletSimulator(p, b1), n, workload, w, q, cores).(throughputImgPerSec := 0.0)
         == Evaluate(ChipletSimulator(p, b2), n, workload, w, q, cores).(throughputImgPerSec := 0.0)
  {}

  /** The simulator's baseline reaches throughput only, and proportionally:
      energy efficiency is evaluated at the default baseline whatever the
      simulator's is. */
  lemma BaselineAffectsOnlyThroughput(p: SystemParams, b1: real, b2: real, n: int, workload: string, q: real, cores: int)
    requires HopCountDefined(n)
    ensures Run(ChipletSimulator(p, b1), n, workload, q, cores).Success?
        <==> Run(ChipletSimulator(p, b2), n, workload, q, cores).Success?
    ensures Run(ChipletSimulator(p, b1), n, workload, q, cores).Success? ==>
              Run(ChipletSimulator(p, b1), n, workload, q, cores).value.(throughputImgPerSec := 0.0)
              == Run(ChipletSimulator(p, b2), n, workload, q, cores).value.(throughputImgPerSec := 0.0)
  {
    if workload in Registry && ValidQuality(q) && Computable(p, n, Registry[workload], q) {
      EvaluateBaselineFields(p, b1, b2, n, workload, Registry[workload], q, cores);
    }
  }

  lemma EvaluateThroughput(sim: ChipletSimulator, n: int, workload: string, w: WorkloadProfile, q: real, cores: int)
    requires ValidQuality(q) && HopCountDefined(n) && Computable(sim.params, n, w, q)
    ensures Evaluate(sim, n, workload, w, q, cores).throughputImgPerSec == sim.baseline * Throughput(q, n, w, 1.0)
  {
    ThroughputLinearInBaseline(q, n, w, sim.baseline);
  }

  /** Throughput is proportional to the simulator's baseline: it is the
      baseline times the registered profile's throughput at one image per
      second per chiplet. */
  lemma ThroughputProportionalToBaseline(sim: ChipletSimulator, n: int, workload: string, w: WorkloadProfile, q: real, cores: int)
    requires HopCountDefined(n)
    requires workload in Registry && Registry[workload] == w
    requires Run(sim, n, workload, q, cores).Success?
    ensures Run(sim, n, workload, q, cores).value.throughputImgPerSec == sim.baseline * Throughput(q, n, w, 1.0)
  {
    EvaluateThroughput(sim, n, workload, w, q, cores);
  }

  /** Along a fixed workload and chiplet count, better partitioning strictly
      raises throughput. */
  lemma RunThroughputIncreasingInQuality(sim: ChipletSimulator, n: int, workload: string, q1: real, q2: real, cores: int)
    requires HopCountDefined(n) && 0 < n && 0.0 < sim.baseline && q1 < q2
    requires Run(sim, n, workload, q1, cores).Success? && Run(sim, n, workload, q2, cores).Success?
    ensures Run(sim, n, workload, q1, cores).value.throughputImgPerSec
          < Run(sim, n, workload, q2, cores).value.throughputImgPerSec
  {
    RegistryContents();
    ThroughputStrictlyIncreasingInQuality(q1, q2, n, Registry[workload], sim.baseline);
  }

  /** For a fixed workload and quality, more chiplets strictly raise
      throughput and never raise congestion. */
  lemma RunScalesWithChiplets(sim: ChipletSimulator, a: int, b: int, workload: string, q: real, cores: int)
    requires HopCountDefined(a) && HopCountDefined(b) && 0 < a < b && 0.0 < sim.baseline
    requires Run(sim, a, workload, q, cores).Success? && Run(sim, b, workload, q, cores).Success?
    ensures Run(sim, a, workload, q, cores).value.throughputImgPerSec
          < Run(sim, b, workload, q, cores).value.throughputImgPerSec
    ensures Run(sim, b, workload, q, cores).value.congestionPct
         <= Run(sim, a, workload, q, cores).value.congestionPct
  {
    RegistryContents();
    ThroughputStrictlyIncreasingInChiplets(q, a, b, Registry[workload], sim.baseline);
    CongestionNonIncreasingInChiplets(q, a, b, Registry[workload]);
  }

  /** The worked example through the driver: ResNet-50 on 4 chiplets at
      quality 0.5 with the default simulator. */
  lemma RunResNetOnFourChiplets()
    ensures Run(DefaultSimulator, 4, "ResNet-50", 0.5, 16)
         == Success(SimulationResult(4, 16, "ResNet-50", 0.5,
                                     212.13125, 35.75, 44.6875, 207.0, 0.7866 / 221.45, 85.0))
  {
    ResNetOnFourChiplets();
    Log2OfPow2(2);
  }

  /** The error cases the tests exercise. */
  lemma RunRejectsBadInputs()
    ensures Run(DefaultSimulator, 4, "UnknownNet", 0.5, 16) == Failure(UnknownWorkload("UnknownNet"))
    ensures Run(DefaultSimulator, 4, "ResNet-50", 1.5, 16) == Failure(QualityOutOfRange(1.5))
    ensures Run(DefaultSimulator, 4, "ResNet-50", -0.1, 16) == Failure(QualityOutOfRange(-0.1))
  {
    Log2OfPow2(2);
    RegistryContents();
  }

  // ---------------------------------------------------------------------------
  // sweep
  // ---------------------------------------------------------------------------

  /** The i-th of `steps` evenly spaced points of [0, 1]; a single point is 0. */
  function GridPoint(i: nat, steps: nat): real {
    if steps <= 1 then 0.0 else (i as real) / ((steps - 1) as real)
  }

  lemma GridPointInRange(i: nat, steps: nat)
    requires i < steps
    ensures ValidQuality(GridPoint(i, steps))
  {}

  lemma GridPointLast(steps: nat)
    requires 2 <= steps
    ensures GridPoint(steps - 1, steps) == 1.0
  {}

  lemma GridPointAscending(i: nat, j: nat, steps: nat)
    requires i < j < steps
    ensures GridPoint(i, steps) < GridPoint(j, steps)
  {}

  /** `numpy.linspace(0.0, 1.0, steps)` over the reals. */
  function Linspace(steps: nat): (qs: seq<real>)
    ensures |qs| == steps
  {
    seq(steps, i requires 0 <= i < steps => GridPoint(i, steps))
  }

  /** The grid lies in [0, 1], ascends strictly, starts at 0, ends at 1 for two
      or more points and has the i-th point at i / (steps - 1). */
  lemma LinspaceShape(steps: nat)
    ensures forall i :: 0 <= i < steps ==> ValidQuality(Linspace(steps)[i])
    ensures forall i, j :: 0 <= i < j < steps ==> Linspace(steps)[i] < Linspace(steps)[j]
    ensures 1 <= steps ==> Linspace(steps)[0] == 0.0
    ensures 2 <= steps ==> Linspace(steps)[steps - 1] == 1.0
    ensures 2 <= steps ==> forall i :: 0 <= i < steps ==> Linspace(steps)[i] == (i as real) / ((steps - 1) as real)
  {
    var qs := Linspace(steps);
    forall i | 0 <= i < steps
      ensures ValidQuality(qs[i])
    {
      GridPointInRange(i, steps);
    }
    forall i, j | 0 <= i < j < steps
      ensures qs[i] < qs[j]
    {
      GridPointAscending(i, j, steps);
    }
    if 2 <= steps {
      GridPointLast(steps);
    }
  }

  /** A sweep that does not say how many points it takes runs the eleven
      qualities 0, 0.1, ..., 1. */
  lemma DefaultGrid()
    ensures Linspace(DefaultQualitySteps)
         == [0.0, 0.1, 0.2, 0.3, 0.4, 0.5, 0.6, 0.7, 0.8, 0.9, 1.0]
  {
    LinspaceShape(DefaultQualitySteps);
  }

  /** `ChipletSimulator.sweep`: one run per grid point, in order. A negative
      sample count is rejected before anything runs; otherwise the first run
      that fails decides the error. */
  method Sweep(sim: ChipletSimulator, n: int, workload: string,
               steps: int := DefaultQualitySteps, cores: int := DefaultCoresPerChiplet)
    returns (r: Result<seq<SimulationResult>, SimError>)
    requires HopCountDefined(n)
    ensures steps < 0 <==> r == Failure(NegativeSampleCount(steps))
    ensures 0 <= steps ==>
              (r.Success? <==> forall i :: 0 <= i < steps ==> Run(sim, n, workload, Linspace(steps)[i], cores).Success?)
    ensures r.Success? ==>
              && |r.value| == steps
              && forall i :: 0 <= i < steps ==> Run(sim, n, workload, Linspace(steps)[i], cores) == Success(r.value[i])
    ensures r.Success? ==> forall i, j :: 0 <= i < j < |r.value| ==> r.value[i].quality < r.value[j].quality
    ensures 0 <= steps && r.Failure? ==>
              exists k :: 0 <= k < steps
                && Run(sim, n, workload, Linspace(steps)[k], cores) == Failure(r.error)
                && forall i :: 0 <= i < k ==> Run(sim, n, workload, Linspace(steps)[i], cores).Success?
  {
    if steps < 0 {
      return Failure(NegativeSampleCount(steps));
    }
    var qs := Linspace(steps);
    LinspaceShape(steps);
    var results: seq<SimulationResult> := [];
    var i := 0;
    while i < steps
      invariant 0 <= i <= steps
      invariant |results| == i
      invariant forall j :: 0 <= j < i ==> Run(sim, n, workload, qs[j], cores) == Success(results[j])
      invariant forall j :: 0 <= j < i ==> results[j].quality == qs[j]
    {
      var result :- Run(sim, n, workload, qs[i], cores);
      results := results + [result];
      i := i + 1;
    }
    return Success(results);
  }

  /** On a registered workload and a physical package, every grid point runs,
      so the sweep succeeds with `steps` results. */
  lemma SweepGridSucceeds(sim: ChipletSimulator, n: int, workload: string, steps: nat, cores: int)
    requires HopCountDefined(n) && 0 < n && Physical(sim.params)
    requires workload in Registry
    ensures forall i :: 0 <= i < steps ==> Run(sim, n, workload, Linspace(steps)[i], cores).Success?
  {
    LinspaceShape(steps);
    forall i | 0 <= i < steps
      ensures Run(sim, n, workload, Linspace(steps)[i], cores).Success?
    {
      PhysicalIsComputable(sim.params, n, Registry[workload], Linspace(steps)[i]);
    }
  }
}
