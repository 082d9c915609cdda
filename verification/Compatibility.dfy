/** Compatibility of a profile with a stack's layers, the tuple catalog and the rule catalog. */
module Compatibility {
  import opened Basics
  import opened Specs
  import opened Profiles

  datatype Severity = Error | Warning | Info
  datatype Issue = Issue(code: string, severity: Severity, origin: string, field: string)

  /** The hardware catalog's id lookup and Python's number parsing and `str`. */
  datatype Tables = Tables(
    resolve: (string, string) -> string, number: string -> Option<real>, text: ReqValue -> string)

  datatype ReqValue = Text(text: string) | Range(min: Option<real>, max: Option<real>) | OneOf(values: seq<string>)
  datatype Need = Need(layer: string, key: string, value: ReqValue)
  datatype LayerNeeds = LayerNeeds(id: string, needs: seq<(string, ReqValue)>, incompatibleWith: seq<string>)

  // ----- facts -----

  /** `_resolve_hardware_id`. */
  function ResolveId(t: Tables, kind: string, raw: string): string {
    var value := Lower(Strip(raw));
    if value == "" then "" else Lower(Strip(Or(t.resolve(kind, value), value)))
  }

  function PowerOfTen(n: nat): (r: nat)
    ensures r > 0
  {
    if n == 0 then 1 else 10 * PowerOfTen(n - 1)
  }

  function Digits(n: nat): nat { if n < 10 then 1 else 1 + Digits(n / 10) }

  /** `float(f"{major}.{minor}")`: the minor number is read as decimals. */
  function Decimal(major: nat, minor: nat): real {
    major as real + minor as real / PowerOfTen(Digits(minor)) as real
  }

  function CudaVersion(p: Profile): Option<real> {
    if p.cuda.None? then None else Some(Decimal(p.cuda.value.major, p.cuda.value.minor))
  }

  function OsFamily(p: Profile): string { Or(p.osFamilyId, Or(p.osFamily, p.os)) }
  function OsVersion(p: Profile): string { Or(p.osVersionId, p.osVersion) }
  function GpuVendor(p: Profile): string { Or(p.gpu.vendorId, p.gpu.vendor) }
  function GpuFamily(p: Profile): string { Or(p.gpu.familyId, p.gpu.family) }

  predicate Below(x: Option<real>, bound: Option<real>) { x.Some? && bound.Some? && x.value < bound.value }
  predicate Above(x: Option<real>, bound: Option<real>) { x.Some? && bound.Some? && x.value > bound.value }

  // ----- layer requirements -----

  function Unless(ok: bool, code: string, n: Need): seq<Issue> {
    if ok then [] else [Issue(code, Error, n.layer, n.key)]
  }

  predicate LenientEqual(actual: string, expected: string) { actual == "" || actual == expected }

  /** The handler registered for the requirement's key; unknown keys are ignored. */
  function NeedErrors(t: Tables, p: Profile, n: Need): seq<Issue> {
    var text := t.text(n.value);
    if n.key == "arch" || n.key == "arch_id" then
      var expected, actual := ResolveId(t, "arch", text), ResolveId(t, "arch", p.arch);
      Unless(actual == "" || expected == "" || expected == actual, "ARCH_MISMATCH", n)
    else if n.key == "os" then Unless(Lower(text) == Lower(p.os), "OS_MISMATCH", n)
    else if n.key == "os_family_id" then
      Unless(LenientEqual(ResolveId(t, "os_family", OsFamily(p)), ResolveId(t, "os_family", text)), "OS_FAMILY_MISMATCH", n)
    else if n.key == "os_version_id" then
      Unless(LenientEqual(ResolveId(t, "os_version", OsVersion(p)), ResolveId(t, "os_version", text)), "OS_VERSION_MISMATCH", n)
    else if n.key == "gpu_vendor" || n.key == "gpu_vendor_id" then
      Unless(LenientEqual(Lower(GpuVendor(p)), Lower(text)), "GPU_VENDOR_MISMATCH", n)
    else if n.key == "gpu_family_id" then
      Unless(LenientEqual(Lower(GpuFamily(p)), Lower(text)), "GPU_FAMILY_MISMATCH", n)
    else if n.key == "container_runtime" then Unless(Lower(p.runtime) == Lower(text), "RUNTIME_MISMATCH", n)
    else if n.key == "driver_min" then Unless(!Below(p.facts.driver, t.number(text)), "DRIVER_TOO_OLD", n)
    else if n.key == "cuda_runtime" then
      match n.value
      case Text(_) => []
      case Range(min, max) =>
        Unless(!Below(CudaVersion(p), min), "CUDA_RANGE_UNSUPPORTED", n)
        + Unless(!Above(CudaVersion(p), max), "CUDA_RANGE_UNSUPPORTED", n)
      case OneOf(values) =>
        var actual := if p.cuda.Some? then p.cuda.value.variant else "";
        Unless(actual == "" || actual in values, "CUDA_VARIANT_UNSUPPORTED", n)
    else []
  }

  function LayerNeedsOf(l: LayerNeeds): seq<Need> {
    Map((kv: (string, ReqValue)) => Need(l.id, kv.0, kv.1), l.needs)
  }

  function NeedsOf(layers: seq<LayerNeeds>): seq<Need> {
    if layers == [] then []
    else LayerNeedsOf(layers[0]) + NeedsOf(layers[1..])
  }

  function LayerConflicts(id: string, others: seq<string>, stackLayers: seq<string>): seq<Issue> {
    if others == [] then []
    else
      (if others[0] in stackLayers then [Issue("LAYER_CONFLICT", Error, id, "incompatible_with")] else [])
      + LayerConflicts(id, others[1..], stackLayers)
  }

  function ConflictsOf(layers: seq<LayerNeeds>, stackLayers: seq<string>): seq<Issue> {
    if layers == [] then []
    else LayerConflicts(layers[0].id, layers[0].incompatibleWith, stackLayers) + ConflictsOf(layers[1..], stackLayers)
  }

  // ----- tuples -----

  datatype Mode = Off | Shadow | Warn | Enforce
  datatype TupleStatus = Supported | Experimental | Unsupported
  datatype Selector = Selector(
    arch: string, osFamily: string, osVersion: string, runtime: string, gpuVendor: string,
    gpuFamily: string, cudaMin: Option<real>, cudaMax: Option<real>, driverMin: Option<real>)
  datatype SupportedTuple = SupportedTuple(
    id: string, status: TupleStatus, selector: Selector, baseImage: string, wheelhousePath: string)

  /** What resolution reads of `_evaluate_tuple_resolution`'s result; absent keys are "". */
  datatype Decision = Decision(
    enabled: bool, matched: bool, id: string, status: string, baseHint: string, wheelhouseHint: string)

  predicate FactMatches(expected: string, actual: string) {
    expected == "" || (actual != "" && Lower(expected) == Lower(actual))
  }

  /** `_tuple_matches`. */
  predicate TupleMatches(t: Tables, p: Profile, s: Selector) {
    && FactMatches(s.arch, ResolveId(t, "arch", p.arch))
    && FactMatches(s.osFamily, ResolveId(t, "os_family", OsFamily(p)))
    && FactMatches(s.osVersion, ResolveId(t, "os_version", OsVersion(p)))
    && FactMatches(s.runtime, Lower(p.runtime))
    && FactMatches(s.gpuVendor, Or(ResolveId(t, "gpu_vendor", GpuVendor(p)), "cpu"))
    && (s.gpuFamily == "" || LenientEqual(Lower(ResolveId(t, "gpu_family", GpuFamily(p))), Lower(s.gpuFamily)))
    && !Below(CudaVersion(p), s.cudaMin) && !Above(CudaVersion(p), s.cudaMax)
    && !Below(p.facts.driver, s.driverMin)
  }

  function StatusName(s: TupleStatus): string {
    match s
    case Supported => "supported"
    case Experimental => "experimental"
    case Unsupported => "unsupported"
  }

  function Resolved(s: SupportedTuple): Decision {
    Decision(true, true, s.id, StatusName(s.status), s.baseImage, s.wheelhousePath)
  }

  const Disabled := Decision(false, true, "", "disabled", "", "")
  const NoMatch := Decision(true, false, "", "unsupported", "", "")

  /** The first supported match, or else the first match of another status (or the one found before). */
  function Search(matches: Selector -> bool, tuples: seq<SupportedTuple>, other: Option<SupportedTuple>): Decision {
    if tuples == [] then if other.Some? then Resolved(other.value) else NoMatch
    else if !matches(tuples[0].selector) then Search(matches, tuples[1..], other)
    else if tuples[0].status == Supported then Resolved(tuples[0])
    else Search(matches, tuples[1..], OrElse(other, Some(tuples[0])))
  }

  function Matcher(t: Tables, p: Profile): Selector -> bool { s => TupleMatches(t, p, s) }

  function ResolveTuple(t: Tables, p: Profile, mode: Mode, tuples: seq<SupportedTuple>): Decision {
    if mode == Off then Disabled else Search(Matcher(t, p), tuples, None)
  }

  /** `_evaluate_tuple_resolution`. */
  method EvaluateTuples(t: Tables, p: Profile, mode: Mode, tuples: seq<SupportedTuple>) returns (d: Decision)
    ensures d == ResolveTuple(t, p, mode, tuples)
  {
    if mode == Off { return Disabled; }
    var firstOther: Option<SupportedTuple> := None;
    for i := 0 to |tuples|
      invariant Search(Matcher(t, p), tuples[i..], firstOther) == Search(Matcher(t, p), tuples, None)
    {
      assert tuples[i..][1..] == tuples[i + 1..];
      if TupleMatches(t, p, tuples[i].selector) {
        if tuples[i].status == Supported { return Resolved(tuples[i]); }
        if firstOther.None? { firstOther := Some(tuples[i]); }
      }
    }
    d := if firstOther.Some? then Resolved(firstOther.value) else NoMatch;
  }

  // ----- catalog rules -----

  datatype When = When(
    arch: string, osFamily: string, gpuVendor: string, gpuFamily: string, ccMin: Option<real>, ccMax: Option<real>)
  datatype RuleNeeds = RuleNeeds(runtime: Option<string>, driverMin: Option<real>, cudaMin: Option<real>, cudaMax: Option<real>)
  datatype Rule = Rule(
    id: string, enabled: bool, deprecated: bool, strictHard: bool, when: When, needs: RuleNeeds,
    code: string, severity: Severity)

  predicate Active(r: Rule) { r.enabled && !r.deprecated }

  predicate Applies(r: Rule, p: Profile) {
    && (r.when.arch == "" || r.when.arch == p.arch)
    && (r.when.osFamily == "" || Lower(Or(p.osFamily, p.os)) == Lower(r.when.osFamily))
    && (r.when.gpuVendor == "" || Lower(GpuVendor(p)) == Lower(r.when.gpuVendor))
    && (r.when.gpuFamily == "" || Lower(GpuFamily(p)) == Lower(r.when.gpuFamily))
    && !Below(p.gpu.computeCapability, r.when.ccMin) && !Above(p.gpu.computeCapability, r.when.ccMax)
  }

  predicate DriverDetected(p: Profile) {
    "driver_version" in p.facts.confidence && p.facts.confidence["driver_version"] == "detected"
  }

  predicate RuntimeViolated(r: Rule, p: Profile) {
    r.needs.runtime.Some? && Lower(p.runtime) != Lower(r.needs.runtime.value)
  }

  /** An unknown driver counts as too old only for a hard rule in strict mode, when it was marked detected. */
  predicate DriverViolated(r: Rule, p: Profile, strict: bool) {
    r.needs.driverMin.Some? &&
    if p.facts.driver.None? then r.strictHard && strict && DriverDetected(p)
    else p.facts.driver.value < r.needs.driverMin.value
  }

  predicate CudaViolated(r: Rule, p: Profile) {
    Below(CudaVersion(p), r.needs.cudaMin) || Above(CudaVersion(p), r.needs.cudaMax)
  }

  /** The field a violated rule blames, "" when it is met. */
  function Violation(r: Rule, p: Profile, strict: bool): string {
    if RuntimeViolated(r, p) then "container_runtime"
    else if DriverViolated(r, p, strict) then "driver_version"
    else if CudaViolated(r, p) then "cuda_runtime"
    else ""
  }

  datatype Findings = Findings(errors: seq<Issue>, warnings: seq<Issue>, info: seq<Issue>)

  /** `_apply_catalog_rule`. */
  function ApplyRule(f: Findings, r: Rule, p: Profile, strict: bool): Findings {
    var field := Violation(r, p, strict);
    if !Active(r) || !Applies(r, p) || (field == "" && r.severity != Info) then f
    else
      var issue := Issue(r.code, r.severity, r.id, field);
      match r.severity
      case Error =>
        if r.strictHard && strict then f.(errors := f.errors + [issue])
        else f.(warnings := f.warnings + [issue.(severity := Warning)])
      case Warning => f.(warnings := f.warnings + [issue])
      case Info => f.(info := f.info + [issue])
  }

  function Applier(p: Profile, strict: bool): (Findings, Rule) -> Findings {
    (f, r) => ApplyRule(f, r, p, strict)
  }

  function ApplyAll(apply: (Findings, Rule) -> Findings, f: Findings, rules: seq<Rule>): Findings
    decreases rules
  {
    if rules == [] then f else ApplyAll(apply, apply(f, rules[0]), rules[1..])
  }

  // ----- the report -----

  datatype Catalogs = Catalogs(tables: Tables, tuples: seq<SupportedTuple>, rules: seq<Rule>)
  datatype Report = Report(compatible: bool, errors: seq<Issue>, warnings: seq<Issue>, info: seq<Issue>, decision: Decision)

  function Handler(t: Tables, p: Profile): Need -> seq<Issue> { n => NeedErrors(t, p, n) }

  function Handled(handler: Need -> seq<Issue>, needs: seq<Need>): seq<Issue> {
    if needs == [] then [] else handler(needs[0]) + Handled(handler, needs[1..])
  }

  function LayerErrors(t: Tables, p: Profile, layers: seq<LayerNeeds>, stackLayers: seq<string>): seq<Issue> {
    ConflictsOf(layers, stackLayers) + Handled(Handler(t, p), NeedsOf(layers))
  }

  function TupleFindings(errors: seq<Issue>, d: Decision, mode: Mode): Findings {
    var mismatch := Issue("TUPLE_UNSUPPORTED", if mode == Enforce then Error else Warning, "tuple_catalog", "profile");
    if d.matched then Findings(errors, [], [Issue("TUPLE_MATCHED", Info, "tuple_catalog", "")])
    else if mode == Enforce then Findings(errors + [mismatch], [], [])
    else Findings(errors, if mode == Off then [] else [mismatch], [])
  }

  /** `evaluate_compatibility`. */
  function Evaluate(c: Catalogs, p: Profile, layers: seq<LayerNeeds>, stackLayers: seq<string>, mode: Mode, strict: bool): Report {
    var d := ResolveTuple(c.tables, p, mode, c.tuples);
    var f := ApplyAll(Applier(p, strict), TupleFindings(LayerErrors(c.tables, p, layers, stackLayers), d, mode), c.rules);
    Report(f.errors == [], f.errors, f.warnings,
           f.info + (if f.errors == [] then [Issue("COMPAT_OK", Info, "", "")] else []), d)
  }

  /** The three lists `evaluate_compatibility` appends to. */
  class ReportBuilder {
    var errors: seq<Issue>
    var warnings: seq<Issue>
    var info: seq<Issue>

    function State(): Findings
      reads this
    {
      Findings(errors, warnings, info)
    }

    constructor ()
      ensures State() == Findings([], [], [])
    {
      errors, warnings, info := [], [], [];
    }

    method CheckConflicts(l: LayerNeeds, stackLayers: seq<string>)
      modifies `errors
      ensures errors == old(errors) + LayerConflicts(l.id, l.incompatibleWith, stackLayers)
    {
      for j := 0 to |l.incompatibleWith|
        invariant errors + LayerConflicts(l.id, l.incompatibleWith[j..], stackLayers)
                  == old(errors) + LayerConflicts(l.id, l.incompatibleWith, stackLayers)
      {
        assert l.incompatibleWith[j..][1..] == l.incompatibleWith[j + 1..];
        if l.incompatibleWith[j] in stackLayers {
          errors := errors + [Issue("LAYER_CONFLICT", Error, l.id, "incompatible_with")];
        }
      }
    }

    method CheckNeeds(handler: Need -> seq<Issue>, needs: seq<Need>)
      modifies `errors
      ensures errors == old(errors) + Handled(handler, needs)
    {
      for i := 0 to |needs|
        invariant errors + Handled(handler, needs[i..]) == old(errors) + Handled(handler, needs)
      {
        assert needs[i..][1..] == needs[i + 1..];
        errors := errors + handler(needs[i]);
      }
    }

    method CheckLayers(handler: Need -> seq<Issue>, layers: seq<LayerNeeds>, stackLayers: seq<string>)
      modifies `errors
      ensures errors == old(errors) + (ConflictsOf(layers, stackLayers) + Handled(handler, NeedsOf(layers)))
    {
      var needs := CollectNeeds(layers, stackLayers);
      CheckNeeds(handler, needs);
    }

    method CollectNeeds(layers: seq<LayerNeeds>, stackLayers: seq<string>) returns (needs: seq<Need>)
      modifies `errors
      ensures errors == old(errors) + ConflictsOf(layers, stackLayers) && needs == NeedsOf(layers)
    {
      needs := [];
      for i := 0 to |layers|
        invariant needs + NeedsOf(layers[i..]) == NeedsOf(layers)
        invariant errors + ConflictsOf(layers[i..], stackLayers) == old(errors) + ConflictsOf(layers, stackLayers)
      {
        assert layers[i..][1..] == layers[i + 1..];
        needs := needs + LayerNeedsOf(layers[i]);
        CheckConflicts(layers[i], stackLayers);
      }
      assert layers[|layers|..] == [];
    }

    method CheckRules(rules: seq<Rule>, p: Profile, strict: bool)
      modifies this
      ensures State() == ApplyAll(Applier(p, strict), old(State()), rules)
    {
      for i := 0 to |rules|
        invariant ApplyAll(Applier(p, strict), State(), rules[i..]) == ApplyAll(Applier(p, strict), old(State()), rules)
      {
        CheckRule(rules[i], p, strict);
        assert rules[i..][1..] == rules[i + 1..];
      }
    }

    method CheckRule(r: Rule, p: Profile, strict: bool)
      modifies this
      ensures State() == ApplyRule(old(State()), r, p, strict)
    {
      if !Active(r) || !Applies(r, p) { return; }
      var violated, field := false, "";
      if r.needs.runtime.Some? {
        if Lower(p.runtime) != Lower(r.needs.runtime.value) { violated, field := true, "container_runtime"; }
      }
      if !violated && r.needs.driverMin.Some? {
        if p.facts.driver.None? {
          if r.strictHard && strict && DriverDetected(p) { violated, field := true, "driver_version"; }
        } else if p.facts.driver.value < r.needs.driverMin.value {
          violated, field := true, "driver_version";
        }
      }
      if !violated {
        if Below(CudaVersion(p), r.needs.cudaMin) { violated, field := true, "cuda_runtime"; }
        if Above(CudaVersion(p), r.needs.cudaMax) { violated, field := true, "cuda_runtime"; }
      }
      if !violated && r.severity != Info { return; }
      var issue := Issue(r.code, r.severity, r.id, field);
      if r.severity == Error {
        if r.strictHard && strict {
          errors := errors + [issue];
        } else {
          warnings := warnings + [issue.(severity := Warning)];
        }
      } else if r.severity == Warning {
        warnings := warnings + [issue];
      } else {
        info := info + [issue];
      }
    }
  }

  method EvaluateCompatibility(c: Catalogs, p: Profile, layers: seq<LayerNeeds>, stackLayers: seq<string>, mode: Mode, strict: bool)
    returns (r: Report)
    ensures r == Evaluate(c, p, layers, stackLayers, mode, strict)
  {
    var b := new ReportBuilder();
    b.CheckLayers(Handler(c.tables, p), layers, stackLayers);
    var d := EvaluateTuples(c.tables, p, mode, c.tuples);
    if d.matched {
      b.info := b.info + [Issue("TUPLE_MATCHED", Info, "tuple_catalog", "")];
    } else if mode == Enforce {
      b.errors := b.errors + [Issue("TUPLE_UNSUPPORTED", Error, "tuple_catalog", "profile")];
    } else if mode == Warn || mode == Shadow {
      b.warnings := b.warnings + [Issue("TUPLE_UNSUPPORTED", Warning, "tuple_catalog", "profile")];
    }
    assert b.State() == TupleFindings(LayerErrors(c.tables, p, layers, stackLayers), d, mode);
    b.CheckRules(c.rules, p, strict);
    assert b.info + [] == b.info;
    if b.errors == [] {
      r := Report(true, b.errors, b.warnings, b.info + [Issue("COMPAT_OK", Info, "", "")], d);
    } else {
      r := Report(false, b.errors, b.warnings, b.info, d);
    }
  }
}
