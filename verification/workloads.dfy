/** DNN workload profiles and the registry of the three modelled networks
    (workloads.py). */
module Workloads {
  import opened Wrappers

  /** How a workload's data moves between chiplets. The Python type is a
      string literal restricted to these three values. */
  datatype CommunicationPattern = Balanced | MemoryBound | Sparse

  datatype WorkloadProfile = WorkloadProfile(
    name: string,
    computeIntensity: real,
    memoryIntensity: real,
    pattern: CommunicationPattern,
    flopsPerImage: real,
    memAccessBytes: real)

  /** Fraction of traffic that crosses chiplet boundaries before any
      partitioning. The Python dictionary lookup has no fallback; with a
      closed enumeration it is total. */
  function BaseTrafficRatio(w: WorkloadProfile): (r: real)
    ensures 0.45 <= r <= 0.65
    ensures r == 0.45 <==> w.pattern == Sparse
    ensures r == 0.65 <==> w.pattern == MemoryBound
    ensures r == 0.55 <==> w.pattern == Balanced
  {
    match w.pattern
    case Sparse => 0.45
    case MemoryBound => 0.65
    case Balanced => 0.55
  }

  /** The ranges the field comments promise: intensities in [0, 1], positive
      operation and memory-access counts. */
  predicate WellFormedProfile(w: WorkloadProfile) {
    && 0.0 <= w.computeIntensity <= 1.0
    && 0.0 <= w.memoryIntensity <= 1.0
    && 0.0 < w.flopsPerImage
    && 0.0 < w.memAccessBytes
  }

  const ResNet50 := WorkloadProfile("ResNet-50", 0.7, 0.5, Balanced, 3800000000.0, 25500000.0)
  const Vgg16 := WorkloadProfile("VGG-16", 0.6, 0.9, MemoryBound, 15500000000.0, 138000000.0)
  const DarkNet19 := WorkloadProfile("DarkNet-19", 0.5, 0.4, Sparse, 5600000000.0, 32000000.0)

  /** WORKLOAD_REGISTRY: workload name to profile. */
  const Registry: map<string, WorkloadProfile> :=
    map["ResNet-50" := ResNet50, "VGG-16" := Vgg16, "DarkNet-19" := DarkNet19]

  /** Looking a name up in the registry, as `run` does before it reads the
      profile: exactly the three network names hit, and every hit is the
      registered, well-formed profile carrying the name it is filed under. */
  function Lookup(name: string): (r: Option<WorkloadProfile>)
    ensures r.Some? <==> name == "ResNet-50" || name == "VGG-16" || name == "DarkNet-19"
    ensures r.Some? <==> name in Registry
    ensures r.Some? ==> r.value.name == name && WellFormedProfile(r.value)
    ensures r.Some? ==> r.value == Registry[name]
  {
    if name in Registry then Some(Registry[name]) else None
  }

  /** The registry holds exactly three networks with their communication
      patterns, and every entry is well formed. */
  lemma RegistryContents()
    ensures Registry.Keys == {"ResNet-50", "VGG-16", "DarkNet-19"}
    ensures |Registry| == 3
    ensures Registry["ResNet-50"].pattern == Balanced
    ensures Registry["VGG-16"].pattern == MemoryBound
    ensures Registry["DarkNet-19"].pattern == Sparse
    ensures forall k :: k in Registry ==> Registry[k].name == k && WellFormedProfile(Registry[k])
  {
    assert Registry.Keys == {"ResNet-50", "VGG-16", "DarkNet-19"};
    assert "ResNet-50" != "VGG-16" && "VGG-16" != "DarkNet-19" && "ResNet-50" != "DarkNet-19";
  }
}
