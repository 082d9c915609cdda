/** Build parallelism from host facts. Memory is counted in hundredths of a GB. */
module BuildOptimization {
  import opened Basics
  import opened Specs
  import opened Profiles
  import Compatibility

  const DEFAULT_JOBS := 2
  const DEFAULT_MEMORY := 400
  const SYSTEM_HEADROOM := 200
  const MIN_BUDGET := 150
  const PER_JOB_MEMORY := 150
  const BASE_BUILD_MEMORY := 150

  datatype Risk = Low | Medium | High
  datatype Route = Aggressive | Balanced
  datatype Optimization = Optimization(jobs: int, budget: int, estimate: int, risk: Risk)

  function Max(a: int, b: int): int { if a < b then b else a }
  function Min(a: int, b: int): int { if a < b then a else b }

  function RouteOf(p: Profile): Route {
    if Lower(Strip(Or(p.gpu.vendorId, p.gpu.vendor))) in {"nvidia", "amd", "intel"} then Aggressive else Balanced
  }

  /** `estimate_build_memory_gb`. */
  function EstimateMemory(s: Stack): nat {
    BASE_BUILD_MEMORY + 25 * |s.components.pip| + 35 * |s.components.npm| + 20 * |s.components.apt| + 5 * |s.copyItems|
  }

  /** Python's `x or default`: a count of zero is as good as none. */
  function Known(x: Option<nat>, default: nat): nat { if x.Some? && x.value != 0 then x.value else default }

  function Budget(memory: Option<nat>): int {
    if Known(memory, 0) != 0 then Max(MIN_BUDGET, Known(memory, 0) - SYSTEM_HEADROOM) else DEFAULT_MEMORY
  }

  function RiskOf(estimate: int, budget: int): Risk {
    if 100 * estimate > 85 * budget then High else if 100 * estimate > 65 * budget then Medium else Low
  }

  /** As many jobs as CPUs and memory allow, with one CPU spared on CPU-only hosts and at most two under high risk. */
  function Jobs(route: Route, cpus: Option<nat>, memory: Option<nat>, estimate: int): int {
    var cpuLimit := Max(1, Known(cpus, DEFAULT_JOBS));
    var cpuJobs := Max(1, if route == Aggressive then cpuLimit else cpuLimit - 1);
    var memoryJobs := Max(1, Budget(memory) / PER_JOB_MEMORY);
    var jobs := Min(cpuJobs, memoryJobs);
    if RiskOf(estimate, Budget(memory)) == High then Min(jobs, 2) else jobs
  }

  /** A requirement value that counts as given: a mapping always, a text unless empty. */
  predicate Given(v: Compatibility.ReqValue) { v.Text? ==> v.text != "" }

  /** `_stack_requires_gpu`. */
  predicate RequiresGpu(layers: seq<Compatibility.LayerNeeds>) {
    exists l, n :: l in layers && n in l.needs &&
      ((n.0 in {"gpu_vendor", "cuda_runtime"} && Given(n.1)) || n == ("container_runtime", Compatibility.Text("nvidia")))
  }

  function Missed(present: bool, fact: string): seq<string> { if present then [] else [fact] }

  /** The facts `_validate_strict_host_facts` misses for a GPU stack. */
  function MissingFacts(p: Profile): seq<string> {
    Missed(Known(p.facts.cpus, 0) != 0, "cpus") + Missed(Known(p.facts.memory, 0) != 0, "memory")
    + Missed(p.facts.driverNamed, "driver") + Missed(p.gpu.capabilityNamed, "compute_capability")
  }

  /** Strict host optimisation needs all facts for a GPU stack, except on curated profiles. */
  predicate StrictHostRefused(p: Profile, layers: seq<Compatibility.LayerNeeds>, strict: bool) {
    strict && RequiresGpu(layers) && MissingFacts(p) != [] && !p.curated
  }

  /** The arithmetic of `compute_build_optimization`. */
  method BoundJobs(route: Route, cpus: Option<nat>, memory: Option<nat>, estimate: nat) returns (o: Optimization)
    ensures o == Optimization(Jobs(route, cpus, memory, estimate), Budget(memory), estimate, RiskOf(estimate, Budget(memory)))
  {
    var cpuLimit := Max(1, if cpus.Some? && cpus.value != 0 then cpus.value else DEFAULT_JOBS);
    var budget := DEFAULT_MEMORY;
    if memory.Some? && memory.value != 0 {
      budget := Max(MIN_BUDGET, memory.value - SYSTEM_HEADROOM);
    }
    var memoryJobs := Max(1, budget / PER_JOB_MEMORY);
    var cpuJobs := Max(1, if route == Aggressive then cpuLimit else cpuLimit - 1);
    var jobs := Max(1, Min(cpuJobs, memoryJobs));
    var risk := Low;
    if 100 * estimate > 85 * budget {
      risk := High;
    } else if 100 * estimate > 65 * budget {
      risk := Medium;
    }
    if risk == High {
      jobs := Max(1, Min(jobs, 2));
    }
    o := Optimization(jobs, budget, estimate, risk);
  }

  /** `compute_build_optimization`, up to the constant tables. */
  method ComputeBuildOptimization(p: Profile, s: Stack, layers: seq<Compatibility.LayerNeeds>, strict: bool) returns (r: Result<Optimization, seq<string>>)
    ensures r.Err? <==> StrictHostRefused(p, layers, strict)
    ensures r.Err? ==> r.error == MissingFacts(p)
    ensures r.Ok? ==> var o := r.value;
      && o.jobs == Jobs(RouteOf(p), p.facts.cpus, p.facts.memory, EstimateMemory(s))
      && o.budget == Budget(p.facts.memory) && o.estimate == EstimateMemory(s) && o.risk == RiskOf(o.estimate, o.budget)
      && 1 <= o.jobs <= Max(1, Known(p.facts.cpus, DEFAULT_JOBS)) && o.jobs * PER_JOB_MEMORY <= o.budget
      && (o.risk == High ==> o.jobs <= 2)
  {
    if strict && RequiresGpu(layers) {
      var missing := MissingFacts(p);
      if missing != [] && !p.curated { return Err(missing); }
    }
    JobsBounded(RouteOf(p), p.facts.cpus, p.facts.memory, EstimateMemory(s));
    var o := BoundJobs(RouteOf(p), p.facts.cpus, p.facts.memory, EstimateMemory(s));
    r := Ok(o);
  }

  /** Never more jobs than CPUs, never more memory than budgeted, and always at least one job. */
  lemma {:induction false} JobsBounded(route: Route, cpus: Option<nat>, memory: Option<nat>, estimate: int)
    ensures 1 <= Jobs(route, cpus, memory, estimate) <= Max(1, Known(cpus, DEFAULT_JOBS))
    ensures Jobs(route, cpus, memory, estimate) * PER_JOB_MEMORY <= Budget(memory)
    ensures RiskOf(estimate, Budget(memory)) == High ==> Jobs(route, cpus, memory, estimate) <= 2
  {
    var b := Budget(memory);
    assert b / PER_JOB_MEMORY * PER_JOB_MEMORY <= b;
    assert b / PER_JOB_MEMORY >= 1;
  }

  /** Nor fewer jobs than that: one more would exceed the CPUs, the budget, or the cap under high risk. */
  lemma {:induction false} JobsMaximal(route: Route, cpus: Option<nat>, memory: Option<nat>, estimate: int)
    ensures var more := Jobs(route, cpus, memory, estimate) + 1;
      || more > Max(1, if route == Aggressive then Known(cpus, DEFAULT_JOBS) else Known(cpus, DEFAULT_JOBS) - 1)
      || more * PER_JOB_MEMORY > Budget(memory)
      || (RiskOf(estimate, Budget(memory)) == High && more > 2)
  {
    var b := Budget(memory);
    assert (b / PER_JOB_MEMORY + 1) * PER_JOB_MEMORY > b;
  }

  /** The budget leaves 2 GB of the host free but never falls below 1.5 GB; a host of unknown memory gets 4 GB. */
  lemma {:induction false} BudgetInNumbers(memory: nat)
    ensures Budget(None) == 400 && Budget(Some(0)) == 400
    ensures 0 < memory <= 350 ==> Budget(Some(memory)) == 150
    ensures memory > 350 ==> Budget(Some(memory)) == memory - 200
  {
  }

  /** The risk is high above 85 percent of the budget, and low up to 65 percent. */
  lemma {:induction false} RiskInNumbers(estimate: int, budget: int)
    ensures RiskOf(estimate, budget) == High <==> 20 * estimate > 17 * budget
    ensures budget >= 0 ==> (RiskOf(estimate, budget) == Low <==> 20 * estimate <= 13 * budget)
  {
  }

  /** One more package or copied file of a kind adds its share to the estimate: 0.25, 0.35, 0.2 and 0.05 GB, on top of 1.5 GB. */
  lemma {:induction false} EveryPackageCounts(s: Stack, pip: PipDep, npm: NpmDep, apt: string, copy: CopyItem)
    ensures EstimateMemory(s.(components := s.components.(pip := s.components.pip + [pip]))) == EstimateMemory(s) + 25
    ensures EstimateMemory(s.(components := s.components.(npm := s.components.npm + [npm]))) == EstimateMemory(s) + 35
    ensures EstimateMemory(s.(components := s.components.(apt := s.components.apt + [apt]))) == EstimateMemory(s) + 20
    ensures EstimateMemory(s.(copyItems := s.copyItems + [copy])) == EstimateMemory(s) + 5
    ensures s.components.pip == [] && s.components.npm == [] && s.components.apt == [] && s.copyItems == [] ==> EstimateMemory(s) == 150
  {
  }

  /** GPU vendors make a host aggressive. */
  lemma {:induction false} AcceleratorsAreAggressive(p: Profile)
    ensures var vendor := Lower(Strip(if p.gpu.vendorId != "" then p.gpu.vendorId else p.gpu.vendor));
      RouteOf(p) == Aggressive <==> vendor == "nvidia" || vendor == "amd" || vendor == "intel"
  {
  }

  /** With memory to spare, all CPUs of an accelerated host are used and all but one of any other. */
  lemma {:induction false} CpusAreUsed(route: Route, cpus: nat, memory: nat, estimate: nat)
    requires cpus >= 2 && memory >= 200 + 150 * cpus && 20 * estimate <= 17 * (memory - 200)
    ensures Jobs(route, Some(cpus), Some(memory), estimate) == if route == Aggressive then cpus else cpus - 1
  {
    assert (memory - 200) / PER_JOB_MEMORY >= cpus;
  }

  /** Unknown CPUs count as two. */
  lemma {:induction false} UnknownCpus(route: Route, memory: Option<nat>, estimate: nat)
    ensures Jobs(route, None, memory, estimate) == Jobs(route, Some(0), memory, estimate) == Jobs(route, Some(2), memory, estimate)
  {
  }

  predicate AtMost(x: Option<nat>, y: Option<nat>) { Known(x, 0) != 0 && Known(x, 0) <= Known(y, 0) }

  /** More CPUs or more known memory never mean fewer jobs. */
  lemma {:induction false} JobsGrow(route: Route, cpus: Option<nat>, cpus': Option<nat>, memory: Option<nat>, memory': Option<nat>, estimate: nat)
    requires cpus == cpus' || AtMost(cpus, cpus')
    requires memory == memory' || AtMost(memory, memory')
    ensures Jobs(route, cpus, memory, estimate) <= Jobs(route, cpus', memory', estimate)
  {
    var b, b' := Budget(memory), Budget(memory');
    assert b <= b';
    assert b / PER_JOB_MEMORY <= b' / PER_JOB_MEMORY;
    assert RiskOf(estimate, b') == High ==> RiskOf(estimate, b) == High;
  }

  /** A heavier stack never builds with more jobs. */
  lemma {:induction false} JobsShrinkWithEstimate(route: Route, cpus: Option<nat>, memory: Option<nat>, light: nat, heavy: nat)
    requires light <= heavy
    ensures Jobs(route, cpus, memory, heavy) <= Jobs(route, cpus, memory, light)
  {
    JobsBounded(route, cpus, memory, light);
  }

  /** As many jobs as the CPUs alone would allow. */
  function CpuJobs(route: Route, cpus: Option<nat>): int {
    Max(1, if route == Aggressive then Max(1, Known(cpus, DEFAULT_JOBS)) else Max(1, Known(cpus, DEFAULT_JOBS)) - 1)
  }

  /**
   Learning a host's memory reduces the jobs exactly when it has less than 5 GB and CPUs
   for two jobs: an unknown host, and one of 0 GB, gets the 4 GB budget of a host of 6 GB.
   */
  lemma {:induction false} KnowingReducesIff(route: Route, cpus: Option<nat>, memory: nat, estimate: nat)
    ensures Jobs(route, cpus, Some(memory), estimate) < Jobs(route, cpus, None, estimate)
      <==> 0 < memory < 500 && CpuJobs(route, cpus) >= 2
  {
    assert Budget(None) == 400 && 400 / PER_JOB_MEMORY == 2;
    if 0 < memory < 500 {
      assert Budget(Some(memory)) < 300;
      assert Budget(Some(memory)) / PER_JOB_MEMORY == 1;
    } else {
      assert memory == 0 || Budget(Some(memory)) / PER_JOB_MEMORY >= 2;
    }
  }
}
