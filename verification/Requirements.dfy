/** When a layer's requirement, a tuple's selector and a catalog rule are met, in terms of the profile's facts. */
module Requirements {
  import opened Basics
  import opened Specs
  import opened Profiles
  import opened Compatibility

  predicate SameWord(a: string, b: string) { Lower(a) == Lower(b) }

  /** The first non-empty of an id, a name and a last resort. */
  predicate FirstNamed(value: string, id: string, name: string, last: string) {
    value == (if id != "" then id else if name != "" then name else last)
  }

  predicate AtLeast(x: Option<real>, bound: Option<real>) { x.Some? && bound.Some? ==> x.value >= bound.value }
  predicate AtMost(x: Option<real>, bound: Option<real>) { x.Some? && bound.Some? ==> x.value <= bound.value }

  /** The os family, os version, gpu vendor and gpu family a profile goes by: its id before its name. */
  lemma {:induction false} FactsAre(p: Profile)
    ensures FirstNamed(OsFamily(p), p.osFamilyId, p.osFamily, p.os) && FirstNamed(OsVersion(p), p.osVersionId, p.osVersion, "")
    ensures FirstNamed(GpuVendor(p), p.gpu.vendorId, p.gpu.vendor, "") && FirstNamed(GpuFamily(p), p.gpu.familyId, p.gpu.family, "")
  {
  }

  /** A hardware id is looked up in lower case without surrounding space; what the catalog does not know stands for itself. */
  lemma {:induction false} IdIs(t: Tables, kind: string, raw: string)
    ensures Lower(Strip(raw)) == "" ==> ResolveId(t, kind, raw) == ""
    ensures Lower(Strip(raw)) != "" && t.resolve(kind, Lower(Strip(raw))) != "" ==>
      ResolveId(t, kind, raw) == Lower(Strip(t.resolve(kind, Lower(Strip(raw)))))
    ensures Lower(Strip(raw)) != "" && t.resolve(kind, Lower(Strip(raw))) == "" ==> ResolveId(t, kind, raw) == Lower(Strip(Lower(Strip(raw))))
  {
  }

  // ----- requirements -----

  /** What each key of a layer's requirements asks of a profile; a fact that is unknown is not held against it, except os and container runtime. */
  predicate Met(t: Tables, p: Profile, n: Need) {
    var text := t.text(n.value);
    var cuda := CudaVersion(p);
    && (n.key in {"arch", "arch_id"} ==>
          ResolveId(t, "arch", p.arch) == "" || ResolveId(t, "arch", text) == "" || ResolveId(t, "arch", p.arch) == ResolveId(t, "arch", text))
    && (n.key == "os" ==> SameWord(p.os, text))
    && (n.key == "os_family_id" ==>
          ResolveId(t, "os_family", OsFamily(p)) == "" || ResolveId(t, "os_family", OsFamily(p)) == ResolveId(t, "os_family", text))
    && (n.key == "os_version_id" ==>
          ResolveId(t, "os_version", OsVersion(p)) == "" || ResolveId(t, "os_version", OsVersion(p)) == ResolveId(t, "os_version", text))
    && (n.key in {"gpu_vendor", "gpu_vendor_id"} ==> GpuVendor(p) == "" || SameWord(GpuVendor(p), text))
    && (n.key == "gpu_family_id" ==> GpuFamily(p) == "" || SameWord(GpuFamily(p), text))
    && (n.key == "container_runtime" ==> SameWord(p.runtime, text))
    && (n.key == "driver_min" ==> AtLeast(p.facts.driver, t.number(text)))
    && (n.key == "cuda_runtime" && n.value.Range? ==> AtLeast(cuda, n.value.min) && AtMost(cuda, n.value.max))
    && (n.key == "cuda_runtime" && n.value.OneOf? ==> p.cuda.None? || p.cuda.value.variant == "" || p.cuda.value.variant in n.value.values)
  }

  /** The error code of each key. */
  predicate CodeOf(n: Need, code: string) {
    && (n.key in {"arch", "arch_id"} ==> code == "ARCH_MISMATCH") && (n.key == "os" ==> code == "OS_MISMATCH")
    && (n.key == "os_family_id" ==> code == "OS_FAMILY_MISMATCH") && (n.key == "os_version_id" ==> code == "OS_VERSION_MISMATCH")
    && (n.key in {"gpu_vendor", "gpu_vendor_id"} ==> code == "GPU_VENDOR_MISMATCH")
    && (n.key == "gpu_family_id" ==> code == "GPU_FAMILY_MISMATCH") && (n.key == "container_runtime" ==> code == "RUNTIME_MISMATCH")
    && (n.key == "driver_min" ==> code == "DRIVER_TOO_OLD")
    && (n.key == "cuda_runtime" ==> code == if n.value.OneOf? then "CUDA_VARIANT_UNSUPPORTED" else "CUDA_RANGE_UNSUPPORTED")
  }

  lemma {:induction false} EmptyLower(s: string)
    ensures Lower(s) == "" <==> s == ""
  {
  }

  /** A requirement is met exactly when its handler reports nothing. */
  lemma {:induction false} MetIff(t: Tables, p: Profile, n: Need)
    ensures NeedErrors(t, p, n) == [] <==> Met(t, p, n)
  {
    EmptyLower(GpuVendor(p));
    EmptyLower(GpuFamily(p));
  }

  /** And otherwise it reports the key's own error, once, under the layer that asked; a CUDA range once per broken bound. */
  lemma {:induction false} UnmetGivesItsCode(t: Tables, p: Profile, n: Need, e: Issue)
    requires e in NeedErrors(t, p, n)
    ensures e.severity == Error && e.origin == n.layer && e.field == n.key && CodeOf(n, e.code)
  {
  }

  lemma {:induction false} ErrorsAreFew(t: Tables, p: Profile, n: Need)
    ensures |NeedErrors(t, p, n)| > 1 ==> n.key == "cuda_runtime" && n.value.Range?
  {
  }

  lemma {:induction false} BoundsAreCounted(t: Tables, p: Profile, n: Need)
    requires n.key == "cuda_runtime" && n.value.Range?
    ensures |NeedErrors(t, p, n)| == (if AtLeast(CudaVersion(p), n.value.min) then 0 else 1) + (if AtMost(CudaVersion(p), n.value.max) then 0 else 1)
  {
  }

  // ----- tuples -----

  /** A selector's word, if it has one, is the profile's, which must be known. */
  predicate Demanded(expected: string, actual: string) { expected != "" ==> actual != "" && SameWord(expected, actual) }

  lemma {:induction false} FactIff(expected: string, actual: string)
    ensures FactMatches(expected, actual) <==> Demanded(expected, actual)
  {
  }

  lemma {:induction false} FamilyIff(expected: string, actual: string)
    ensures expected == "" || LenientEqual(Lower(actual), Lower(expected)) <==> (expected != "" && actual != "" ==> SameWord(expected, actual))
  {
    EmptyLower(actual);
  }

  lemma {:induction false} BoundIff(x: Option<real>, bound: Option<real>)
    ensures !Below(x, bound) <==> AtLeast(x, bound)
    ensures !Above(x, bound) <==> AtMost(x, bound)
  {
  }

  /** What a tuple's selector asks; only the gpu family and the versions may be unknown. */
  lemma {:induction false} TupleMatchesIff(t: Tables, p: Profile, s: Selector)
    ensures TupleMatches(t, p, s) <==>
      && Demanded(s.arch, ResolveId(t, "arch", p.arch)) && Demanded(s.osFamily, ResolveId(t, "os_family", OsFamily(p)))
      && Demanded(s.osVersion, ResolveId(t, "os_version", OsVersion(p))) && Demanded(s.runtime, Lower(p.runtime))
      && Demanded(s.gpuVendor, if ResolveId(t, "gpu_vendor", GpuVendor(p)) == "" then "cpu" else ResolveId(t, "gpu_vendor", GpuVendor(p)))
      && (s.gpuFamily != "" && ResolveId(t, "gpu_family", GpuFamily(p)) != "" ==> SameWord(s.gpuFamily, ResolveId(t, "gpu_family", GpuFamily(p))))
      && AtLeast(CudaVersion(p), s.cudaMin) && AtMost(CudaVersion(p), s.cudaMax) && AtLeast(p.facts.driver, s.driverMin)
  {
    FactIff(s.arch, ResolveId(t, "arch", p.arch));
    FactIff(s.osFamily, ResolveId(t, "os_family", OsFamily(p)));
    FactIff(s.osVersion, ResolveId(t, "os_version", OsVersion(p)));
    FactIff(s.runtime, Lower(p.runtime));
    FactIff(s.gpuVendor, Or(ResolveId(t, "gpu_vendor", GpuVendor(p)), "cpu"));
    FamilyIff(s.gpuFamily, ResolveId(t, "gpu_family", GpuFamily(p)));
    BoundIff(CudaVersion(p), s.cudaMin);
    BoundIff(CudaVersion(p), s.cudaMax);
    BoundIff(p.facts.driver, s.driverMin);
  }

  /** What a resolution takes from the tuple it chose, and from none. */
  lemma {:induction false} DecisionIs(s: SupportedTuple)
    ensures var d := Resolved(s);
      && d.enabled && d.matched && d.id == s.id && d.baseHint == s.baseImage && d.wheelhouseHint == s.wheelhousePath
      && (s.status == Supported ==> d.status == "supported") && (s.status == Experimental ==> d.status == "experimental")
      && (s.status == Unsupported ==> d.status == "unsupported")
    ensures NoMatch.enabled && NoMatch.status == "unsupported" && Disabled.status == "disabled"
    ensures !NoMatch.matched && NoMatch.baseHint == "" && NoMatch.wheelhouseHint == "" && NoMatch.id == ""
    ensures Disabled.matched && !Disabled.enabled && Disabled.baseHint == "" && Disabled.wheelhouseHint == "" && Disabled.id == ""
  {
  }

  // ----- catalog rules -----

  /** The rule is in force and speaks of profiles like this one. */
  predicate Concerns(r: Rule, p: Profile) {
    && r.enabled && !r.deprecated && (r.when.arch != "" ==> r.when.arch == p.arch)
    && (r.when.osFamily != "" ==> SameWord(r.when.osFamily, if p.osFamily != "" then p.osFamily else p.os))
    && (r.when.gpuVendor != "" ==> SameWord(r.when.gpuVendor, GpuVendor(p)))
    && (r.when.gpuFamily != "" ==> SameWord(r.when.gpuFamily, GpuFamily(p)))
    && AtLeast(p.gpu.computeCapability, r.when.ccMin) && AtMost(p.gpu.computeCapability, r.when.ccMax)
  }

  predicate WrongRuntime(r: Rule, p: Profile) { r.needs.runtime.Some? && !SameWord(r.needs.runtime.value, p.runtime) }

  /** Too old, or unknown though marked detected where a hard rule is judged strictly. */
  predicate WrongDriver(r: Rule, p: Profile, strict: bool) {
    && r.needs.driverMin.Some?
    && (p.facts.driver.Some? ==> p.facts.driver.value < r.needs.driverMin.value)
    && (p.facts.driver.None? ==>
          strict && r.strictHard && "driver_version" in p.facts.confidence && p.facts.confidence["driver_version"] == "detected")
  }

  predicate WrongCuda(r: Rule, p: Profile) { !AtLeast(CudaVersion(p), r.needs.cudaMin) || !AtMost(CudaVersion(p), r.needs.cudaMax) }

  predicate Breaks(r: Rule, p: Profile, strict: bool) {
    Concerns(r, p) && (WrongRuntime(r, p) || WrongDriver(r, p, strict) || WrongCuda(r, p))
  }

  lemma {:induction false} ViolationIs(r: Rule, p: Profile, strict: bool)
    ensures Active(r) && Applies(r, p) <==> Concerns(r, p)
    ensures RuntimeViolated(r, p) <==> WrongRuntime(r, p)
    ensures DriverViolated(r, p, strict) <==> WrongDriver(r, p, strict)
    ensures CudaViolated(r, p) <==> WrongCuda(r, p)
    ensures Active(r) && Applies(r, p) && Violation(r, p, strict) != "" <==> Breaks(r, p, strict)
  {
  }

  /** The first thing wrong is blamed: runtime, then driver, then CUDA. */
  lemma {:induction false} BlamedField(r: Rule, p: Profile, strict: bool)
    ensures WrongRuntime(r, p) ==> Violation(r, p, strict) == "container_runtime"
    ensures !WrongRuntime(r, p) && WrongDriver(r, p, strict) ==> Violation(r, p, strict) == "driver_version"
    ensures !WrongRuntime(r, p) && !WrongDriver(r, p, strict) && WrongCuda(r, p) ==> Violation(r, p, strict) == "cuda_runtime"
  {
  }

  /**
   What a rule adds: a broken hard error rule an error in strict mode, any other broken
   error or warning rule a warning, an information rule that concerns the profile its note.
   */
  lemma {:induction false} RuleAdds(f: Findings, r: Rule, p: Profile, strict: bool)
    ensures var g, hard := ApplyRule(f, r, p, strict), r.severity == Error && r.strictHard && strict;
      && g.errors == f.errors + (if Breaks(r, p, strict) && hard then [Issue(r.code, Error, r.id, Violation(r, p, strict))] else [])
      && g.warnings == f.warnings
           + (if Breaks(r, p, strict) && !hard && r.severity != Info then [Issue(r.code, Warning, r.id, Violation(r, p, strict))] else [])
      && g.info == f.info + (if Concerns(r, p) && r.severity == Info then [Issue(r.code, Info, r.id, Violation(r, p, strict))] else [])
  {
    ViolationIs(r, p, strict);
  }
}
