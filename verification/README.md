# ChipletSim metrics engine in Dafny

ChipletSim is an analytic model of a chiplet-based DNN accelerator. Its inputs
are a partitioning quality `q` in [0, 1], a chiplet count `n` and a named
workload profile. From these it computes six metrics with closed-form
formulas:

- inter-chiplet latency
- cross-chiplet traffic
- network congestion
- throughput
- energy efficiency
- communication overhead

`ChipletSimulator.run` validates one design point and bundles the six metrics.
`ChipletSimulator.sweep` runs an evenly spaced grid of qualities.

This project models that engine over Dafny's exact `real` arithmetic and proves
its bounds, monotonicity, positivity, validation and sweep properties.

It has five modules, one file each:

- `wrappers.dfy` (`Wrappers`): `Option` and `Result`. The exceptions `run`
  and `sweep` raise are `Failure` values of `Run` and `Sweep`. The metric
  functions called directly are modelled differently: the assertion on the
  quality (metrics.py:22) is their precondition `ValidQuality(q)`.
- `system.dfy` (`System`): the `SystemParams` record with its defaults, exact
  powers of two and base-2 logarithms, and `hop_latency`.
- `workloads.dfy` (`Workloads`): the communication-pattern enumeration, the
  workload profile record, `base_traffic_ratio` and the three-entry registry.
- `metrics.dfy` (`Metrics`): the six metric functions. Each one is written in
  two layers:
  - A formula over plain reals, such as `CongestionFormula(traffic, memory, n)`.
    Its properties are proved once for arbitrary reals.
  - The metric itself, such as `Congestion(q, n, w)`, which feeds that formula
    with the traffic ratio, hop latency, congestion and so on.
- `simulation.dfy` (`Simulation`): the `SimulationResult` record, the
  simulator, `Run`, `Linspace` and the `Sweep` method.

Conventions used by the model:

- **Chiplet counts.** `math.log2(max(n, 2))` is modelled exactly when it is an
  integer: any count up to 2, which is clamped to 2, or any power of two. The
  predicate `HopCountDefined` states this, and every function that needs the
  hop count requires it.
- **Division by zero.** Python raises `ZeroDivisionError` when the metrics
  divide by `n * 0.1`, by the total power or by the intra-chiplet latency.
  `Run` reports each of these as `DivisionByZero`. The metric functions
  instead require the divisor to be non-zero.
- **Validation order.** `Run` checks the workload name before the quality, as
  the source does. A sweep with a negative sample count fails before any run,
  because `numpy.linspace` rejects it first.

Facts about the code that the model relies on:

- **Quality scale.** Quality is a fraction in [0, 1] (simulator.py:72-73,
  metrics.py:22).
- **Traffic lookup.** `base_traffic_ratio` indexes a three-entry dictionary
  with no fallback (workloads.py:25-30). With a closed enumeration it is
  total.
- **Validation.** `run` raises `ValueError` for an unknown workload and then
  for a quality outside [0, 1] (simulator.py:69-73).
- **Sweep grid.** `sweep` runs `numpy.linspace(0.0, 1.0, quality_steps)`
  (simulator.py:102). The default of 11 steps gives 0, 0.1, ..., 1
  (`Simulation.DefaultGrid`).
- **Default arguments.** `cores_per_chiplet` defaults to 16 and
  `quality_steps` to 11 (simulator.py:55, 95-96). `Run` and `Sweep` carry the
  same defaults.
- **Baseline.** Throughput uses the simulator's configurable baseline
  (simulator.py:86). Energy efficiency calls `compute_throughput` without one,
  so it always uses the default of 100 images/s (metrics.py:75).
- **Worked example.** ResNet-50 on 4 chiplets at quality 0.5 gives
  0.7866 TOPS, and its energy efficiency is 0.7866 / 221.45 TOPS/W. The
  communication overhead evaluates to about 168.5% and is capped at 85%
  (`Metrics.ResNetOnFourChiplets`).
- **Throughput in quality.** Congestion never rises with quality, so the
  penalty of metrics.py:64 never worsens, and throughput is strictly
  increasing in quality (`Metrics.ThroughputStrictlyIncreasingInQuality`).

## Model

| member | source | states |
|---|---|---|
| System.Log2 | package/system.py:26 | the exact base-2 logarithm of a power of two: 2 raised to the result gives the input back |
| System.AvgHops | package/system.py:26 | `log2(max(n, 2))` is at least one hop, and 2 raised to it is `n` clamped below at 2 |
| System.AvgHopsMonotone | package/system.py:26 | the average hop count never decreases as the chiplet count grows |
| System.HopLatencyAtLeastMin | package/system.py:26-28 | hop latency is never below the one-hop minimum latency when min <= max |
| System.HopLatencyClamp | package/system.py:26 | every chiplet count up to 2 has the hop latency of 2 chiplets |
| System.HopLatencyMonotone | package/system.py:26-28 | hop latency is non-decreasing in the chiplet count |
| System.HopLatencyMaxAtSixteen | package/system.py:26-28 | with min < max, hop latency equals the maximum latency exactly at 16 chiplets (4 hops) |
| System.DefaultHopLatencies | package/system.py:12-28 | the default parameters are physical, and their hop latency is 276.25, 467.5, 658.75 and 850 ns at 2, 4, 8 and 16 chiplets |
| Workloads.BaseTrafficRatio | workloads.py:19-30 | the base traffic ratio lies in [0.45, 0.65], is 0.45 exactly for sparse, 0.65 exactly for memory-bound and 0.55 exactly for balanced |
| Workloads.Lookup | workloads.py:33-58 | a name is found exactly when it is one of the three network names, and every hit is the registered, well-formed profile filed under its own name; `Run` looks the workload up through it |
| Workloads.RegistryContents | workloads.py:33-58 | the registry has exactly the keys ResNet-50 (balanced), VGG-16 (memory-bound) and DarkNet-19 (sparse), all with intensities in [0, 1] and positive counts |
| Metrics.TrafficRatio | metrics.py:22-24 | for a quality in [0, 1] the traffic ratio lies between 30% of the base ratio and the base ratio, and strictly inside (0, 1) |
| Metrics.TrafficStrictlyDecreasing | metrics.py:24 | better partitioning strictly lowers the traffic ratio |
| Metrics.TrafficEndpoints | metrics.py:23-24 | quality 0 keeps the whole base ratio and quality 1 keeps 30% of it |
| Metrics.LatencyAboveIntra | metrics.py:34-36 | for physical parameters, latency is strictly above the intra-chiplet latency, which is positive |
| Metrics.LatencyStrictlyDecreasingInQuality | metrics.py:34-36 | better partitioning strictly lowers latency |
| Metrics.LatencyNonDecreasingInChiplets | metrics.py:34-36 | more chiplets never lower latency |
| Metrics.Congestion | metrics.py:49-51 | congestion never exceeds the 95% cap |
| Metrics.CongestionBounds | metrics.py:49-51 | for a positive chiplet count and non-negative memory intensity, congestion lies in [0, 95] |
| Metrics.CongestionNonIncreasingInChiplets | metrics.py:50-51 | for fixed quality and workload, more chiplets never raise congestion |
| Metrics.CongestionStrictlyDecreasingInChiplets | metrics.py:50-51 | below the cap and with positive memory intensity, more chiplets strictly lower congestion |
| Metrics.CongestionNonIncreasingInQuality | metrics.py:49-51 | better partitioning never raises congestion |
| Metrics.ParallelEfficiency | metrics.py:63 | parallel efficiency lies in [0.15, 1], is 0.15 exactly at quality 0 and 1 exactly at quality 1 |
| Metrics.EfficiencyStrictlyIncreasing | metrics.py:63 | better partitioning strictly raises parallel efficiency |
| Metrics.CongestionPenalty | metrics.py:64 | the penalty is at most 0.9, is 0.9 exactly when congestion is at most 70, and is below 0.3 above the threshold |
| Metrics.PenaltyIsUncongestedFraction | metrics.py:64 | above the 70% threshold the penalty plus the congestion fraction c/100 is exactly 1 |
| Metrics.PenaltyPositive | metrics.py:51-64 | for congestion within the 95% cap, the penalty is at least 0.05 |
| Metrics.PenaltyNonIncreasing | metrics.py:64 | more congestion never gives a milder penalty, across the threshold too |
| Metrics.ThroughputPositive | metrics.py:62-65 | throughput is positive for a positive baseline and chiplet count |
| Metrics.ThroughputLinearInBaseline | metrics.py:59-65 | throughput is the baseline times the throughput at baseline 1 |
| Metrics.ThroughputStrictlyIncreasingInChiplets | metrics.py:62-65 | for fixed quality and workload, more chiplets strictly raise throughput |
| Metrics.ThroughputStrictlyIncreasingInQuality | metrics.py:62-65 | for a fixed chiplet count and workload, better partitioning strictly raises throughput |
| Metrics.TotalPowerPositive | metrics.py:77-79 | a physical package with at least one chiplet draws positive total power |
| Metrics.EnergyEfficiencyPositive | metrics.py:75-81 | for physical parameters and positive FLOPs, total power is non-zero and energy efficiency is positive |
| Metrics.OverheadMultiplier | metrics.py:95 | the overhead multiplier is at least 1, exactly 1 when congestion is at most 70, and above that grows by one per further 30 points |
| Metrics.OverheadFormula | metrics.py:94-96 | the overhead is the raw traffic x latency-ratio x multiplier percentage when that is at most 85, and 85 otherwise |
| Metrics.CommOverhead | metrics.py:91-96 | communication overhead never exceeds the 85% cap |
| Metrics.CommOverheadPositive | metrics.py:91-96 | for physical parameters, communication overhead lies in (0, 85] |
| Metrics.ResNetOnFourChiplets | metrics.py:22-96 | ResNet-50, 4 chiplets, quality 0.5: traffic 0.3575, latency 212.13125 ns, congestion 44.6875%, throughput 207, power 221.45 W, efficiency 0.7866/221.45, overhead capped at 85% |
| Metrics.Vgg16OnEightChiplets | metrics.py:22-96 | VGG-16, 8 chiplets, quality 0: traffic 0.65, latency 473.1875 ns, congestion 73.125% above the threshold, penalty 0.26875, throughput 32.25, power 478 W, efficiency 0.499875/478, multiplier 1 + 3.125/30, overhead capped at 85% |
| Metrics.DarkNet19OnTwoChiplets | metrics.py:22-96 | DarkNet-19, 2 chiplets, quality 1: traffic 0.135, latency 82.29375 ns, congestion 27%, throughput 180, power 104.05 W, efficiency 1.008/104.05, overhead 24.688125% below the cap |
| Simulation.NewSimulator | simulator.py:42-48 | with no arguments it is the default simulator; missing parameters become the defaults, which describe a physical package; given ones are kept; with the default baseline too, the result is the default simulator |
| Simulation.DefaultSimulatorRuns | simulator.py:42-89 | a simulator built without parameters, whatever its baseline, runs every registered workload at every valid quality on any positive chiplet count with a defined hop count |
| Simulation.PhysicalIsComputable | metrics.py:50-94 | a physical package with at least one chiplet never divides by zero |
| Simulation.Evaluate | simulator.py:78-88 | the result echoes count, cores, workload and quality, traffic is 100 times the traffic ratio and lies in (0, 100), congestion is at most 95 and overhead at most 85 |
| Simulation.Run | simulator.py:50-89 | an unknown workload fails first, then an out-of-range quality; otherwise only division by zero fails; success exactly for a registered workload, valid quality and computable point, with the registered profile's metrics |
| Simulation.RunSucceedsOnValidInputs | simulator.py:69-89 | a registered workload at a valid quality on a physical package always runs, with latency above local latency and positive throughput, efficiency and overhead |
| Simulation.RunIgnoresCores | simulator.py:64-82 | the cores-per-chiplet value changes neither success nor any field other than its own echo |
| Simulation.BaselineAffectsOnlyThroughput | simulator.py:86-87 | two simulators differing only in baseline succeed together and agree on every field except throughput |
| Simulation.ThroughputProportionalToBaseline | simulator.py:86 | a run's throughput is the simulator's baseline times the profile's throughput at baseline 1 |
| Simulation.RunThroughputIncreasingInQuality | simulator.py:83-88 | between two successful runs, better partitioning gives strictly more throughput |
| Simulation.RunScalesWithChiplets | simulator.py:83-88 | between two successful runs, more chiplets give strictly more throughput and no more congestion |
| Simulation.RunResNetOnFourChiplets | simulator.py:78-88 | the default simulator on ResNet-50, 4 chiplets, quality 0.5 returns exactly the worked-example result |
| Simulation.RunRejectsBadInputs | simulator.py:69-73 | an unknown workload and qualities 1.5 and -0.1 are rejected with the matching errors |
| Simulation.LinspaceShape | simulator.py:102 | the grid lies in [0, 1], ascends strictly, starts at 0, ends at 1 and has its i-th point at i/(s-1) when s >= 2 |
| Simulation.DefaultGrid | simulator.py:95-102 | the default sweep of 11 steps runs the qualities 0, 0.1, ..., 1 |
| Simulation.Sweep | simulator.py:91-106 | with the defaults of 11 steps and 16 cores, a negative count fails; otherwise success iff every grid point runs; then s results with the i-th equal to the run at the i-th point, qualities ascending; on failure, the first failing run's error |
| Simulation.SweepGridSucceeds | simulator.py:102-105 | on a registered workload and a physical package, whatever the baseline, every grid point runs |

## Left out

- Plotting and figure export (experiments/reproduce_paper_figures.py):
  presentation only.
- The command-line scripts (scripts/run_single.py, run_sweep.py,
  run_comparison.py): argument parsing and CSV/JSON output around `run` and
  `sweep`.
- Packaging (setup.py, `__init__.py`): metadata and re-exports.
- The `AssertionError` that a metric function raises for a quality outside
  [0, 1] when called directly (metrics.py:22): each metric function requires
  `ValidQuality(q)` instead of returning a failure. `Run` rejects such a
  quality first (simulator.py:72-73), so from the simulator it never fires.
- `SimulationResult.to_dict`: a library serialiser with no logic of its own.
- IEEE-754 rounding: every quantity is an exact `real`, including the
  `numpy.linspace` grid, which is modelled as exactly `i / (steps - 1)`.
- `math.log2` on chiplet counts above 2 that are not powers of two (3, 5, 6,
  ...): its value is irrational there. Every member that needs the hop count
  requires `HopCountDefined`.
- The bandwidth parameters, `compute_intensity` and `mem_access_bytes`: carried
  in the records, but no formula reads them.
- Python's dynamic typing: a non-integer chiplet count or a non-numeric
  quality cannot be expressed in the model.
