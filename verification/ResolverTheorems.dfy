/** When resolution succeeds, and when asking for an explanation changes the plan. */
module ResolverTheorems {
  import opened Basics
  import opened Ordering
  import opened Specs
  import opened Profiles
  import opened Hashing
  import opened Labels
  import opened Selection
  import opened Rules
  import opened Resolver
  import BuildOptimization
  import Compatibility
  import CompatibilityTheorems

  /** The candidates and wishes a resolution selects from. */
  function Offered(p: Profile, s: Stack, o: Options): seq<BaseCandidate> {
    CandidatesFor(p, WithHints(s, DecisionOf(p, o)).policyOverrides)
  }

  function Wished(p: Profile, s: Stack, o: Options): Wanted { WantedOf(p, WithHints(s, DecisionOf(p, o))) }

  function Chosen(p: Profile, s: Stack, o: Options, explain: bool): Option<Choice> {
    if explain then SelectDetailed(Wished(p, s, o), Offered(p, s, o)) else Select(Wished(p, s, o), Offered(p, s, o))
  }

  /** Candidates are always found. */
  lemma {:induction false} SomeChoice(p: Profile, s: Stack, o: Options, explain: bool)
    ensures Chosen(p, s, o, explain).Some?
  {
    var w, cs := Wished(p, s, o), Offered(p, s, o);
    AlwaysSomeCandidate(p, WithHints(s, DecisionOf(p, o)).policyOverrides);
    var i := SelectPicksWinner(w, cs);
    var _ := DetailedPicksName(w, cs, i);
  }

  // ----- what is asked of profile, stack and host -----

  /** Some base to start from, tags for each, and CUDA details that go with a declared CUDA capability. */
  predicate ProfileSound(p: Profile) {
    && (p.baseCandidates == [] ==> p.schemaVersion > 1) && (forall c :: c in p.baseCandidates ==> |c.tags| > 0)
    && ("cuda" in p.capabilities && p.cuda.Some? ==> p.cuda.value.major != 0)
    && ("cuda" in p.capabilities && p.cuda.None? ==> p.schemaVersion <= 2)
  }

  /** Base role and command where no layers of schema 2 supply them, and requirements beside capabilities from schema 3 on. */
  predicate StackSound(s: Stack) {
    && (s.schemaVersion <= 1 || s.layers == [] ==> s.components.baseRole.Some? && s.components.baseRole.value != "" && s.entrypoint != [])
    && (s.schemaVersion > 2 && s.needs == map[] ==> s.capabilities == [])
  }

  predicate Servable(p: Profile, s: Stack) {
    && s.serve !in p.disallowedServe
    && (s.serve == "triton" || s.serve == "vllm" ==>
          "cuda" in p.capabilities || (p.cuda.Some? && p.cuda.value.major >= 1) || Lower(p.runtime) == "nvidia")
  }

  /** A GPU vendor, a CUDA runtime, or the nvidia container runtime. */
  predicate GpuNeed(key: string, value: Compatibility.ReqValue) {
    || (key == "gpu_vendor" && value != Compatibility.Text(""))
    || (key == "cuda_runtime" && value != Compatibility.Text(""))
    || (key == "container_runtime" && value == Compatibility.Text("nvidia"))
  }

  predicate AsksForGpu(layers: seq<Compatibility.LayerNeeds>) { exists l, n :: l in layers && n in l.needs && GpuNeed(n.0, n.1) }

  /** Strict host optimisation of a GPU stack knows CPUs, memory, driver and compute capability, unless the profile is curated. */
  predicate HostKnown(p: Profile, o: Options) {
    o.strictHost && AsksForGpu(o.layers) && !p.curated ==>
      && p.facts.cpus.Some? && p.facts.cpus.value > 0 && p.facts.memory.Some? && p.facts.memory.value > 0
      && p.facts.driverNamed && p.gpu.capabilityNamed
  }

  ghost predicate Verdict(p: Profile, s: Stack, o: Options) {
    Servable(p, s) && CompatibilityTheorems.Suits(o.catalogs, p, o.layers, s.layers, o.mode, o.strict)
  }

  ghost predicate Resolvable(p: Profile, s: Stack, o: Options) {
    && ProfileSound(p) && StackSound(s) && Verdict(p, s, o) && HostKnown(p, o)
    && (s.buildStrategy == Overlay || s.buildStrategy == Pull)
  }

  lemma {:induction false} ValidityIs(p: Profile, s: Stack)
    ensures ValidProfile(p) <==> ProfileSound(p)
    ensures ValidStack(s) <==> StackSound(s)
    ensures ServeRefused(p, s) <==> !Servable(p, s)
  {
    assert forall c: BaseCandidate :: c.tags != [] <==> |c.tags| > 0;
  }

  lemma {:induction false} GpuIs(layers: seq<Compatibility.LayerNeeds>)
    ensures BuildOptimization.RequiresGpu(layers) <==> AsksForGpu(layers)
  {
    if BuildOptimization.RequiresGpu(layers) {
      var l, n :| l in layers && n in l.needs &&
        ((n.0 in {"gpu_vendor", "cuda_runtime"} && BuildOptimization.Given(n.1)) || n == ("container_runtime", Compatibility.Text("nvidia")));
      assert GpuNeed(n.0, n.1);
    }
    if l, n :| l in layers && n in l.needs && GpuNeed(n.0, n.1) {
      assert n == (n.0, n.1);
      assert (n.0 in {"gpu_vendor", "cuda_runtime"} && BuildOptimization.Given(n.1)) || n == ("container_runtime", Compatibility.Text("nvidia"));
    }
  }

  lemma {:induction false} HostIs(p: Profile, o: Options)
    ensures BuildOptimization.StrictHostRefused(p, o.layers, o.strictHost) <==> !HostKnown(p, o)
  {
    GpuIs(o.layers);
    var missing := BuildOptimization.MissingFacts(p);
    assert |missing| == (if BuildOptimization.Known(p.facts.cpus, 0) != 0 then 0 else 1) + (if BuildOptimization.Known(p.facts.memory, 0) != 0 then 0 else 1)
      + (if p.facts.driverNamed then 0 else 1) + (if p.gpu.capabilityNamed then 0 else 1);
  }

  /** Why resolution fails, in the order of its checks. */
  function Obstacle(p: Profile, s: Stack, o: Options): Option<ResolveError> {
    if Refusal(p, s, o).Some? then Refusal(p, s, o)
    else if BuildOptimization.StrictHostRefused(p, o.layers, o.strictHost) then Some(HostFactsMissing)
    else if s.buildStrategy !in {Overlay, Pull} then Some(UnknownStrategy)
    else None
  }

  /** The first thing in the way. */
  lemma {:induction false} ObstacleIs(p: Profile, s: Stack, o: Options)
    ensures Obstacle(p, s, o) == Some(InvalidProfile) <==> !ProfileSound(p)
    ensures Obstacle(p, s, o) == Some(InvalidStackSpec) <==> ProfileSound(p) && !StackSound(s)
    ensures Obstacle(p, s, o) == Some(Incompatible) <==> ProfileSound(p) && StackSound(s) && !Verdict(p, s, o)
    ensures Obstacle(p, s, o) == Some(HostFactsMissing) <==> ProfileSound(p) && StackSound(s) && Verdict(p, s, o) && !HostKnown(p, o)
    ensures Obstacle(p, s, o).None? <==> Resolvable(p, s, o)
    ensures Obstacle(p, s, o) != Some(NoCandidates)
  {
    ValidityIs(p, s);
    CompatibilityTheorems.CompatibleIff(o.catalogs, p, o.layers, s.layers, o.mode, o.strict);
    HostIs(p, o);
  }

  /** None of the checks reads the wish for an explanation. */
  lemma {:induction false} ChecksIgnoreExplain(p: Profile, s: Stack, o: Options, explain: bool)
    ensures Refusal(p, s, o.(explain := explain)) == Refusal(p, s, o)
    ensures Obstacle(p, s, o.(explain := explain)) == Obstacle(p, s, o)
  {
  }

  lemma {:induction false} ChoiceIs(p: Profile, s: Stack, o: Options, explain: bool)
    ensures ChooseBase(p, WithHints(s, DecisionOf(p, o.(explain := explain))), explain) == Chosen(p, s, o, explain)
  {
  }

  lemma {:induction false} ResolveIs(c: Context, p: Profile, s: Stack, o: Options, choice: Option<Choice>)
    requires choice == ChooseBase(p, WithHints(s, DecisionOf(p, o)), o.explain) && choice.Some?
    ensures Resolve(c, p, s, o) == Outcome(c, p, s, o, Obstacle(p, s, o), choice.value)
  {
  }

  lemma {:induction false} ResolveUnfolds(c: Context, p: Profile, s: Stack, o: Options, explain: bool)
    requires Chosen(p, s, o, explain).Some?
    ensures Resolve(c, p, s, o.(explain := explain)) == Outcome(c, p, s, o.(explain := explain), Obstacle(p, s, o), Chosen(p, s, o, explain).value)
  {
    ChecksIgnoreExplain(p, s, o, explain);
    ChoiceIs(p, s, o, explain);
    ResolveIs(c, p, s, o.(explain := explain), Chosen(p, s, o, explain));
  }

  function Outcome(c: Context, p: Profile, s: Stack, o: Options, obstacle: Option<ResolveError>, choice: Choice): Result<Plan, ResolveError> {
    if obstacle.Some? then Err(obstacle.value) else Ok(PlanFor(c, p, s, o, choice))
  }

  /**
   Resolution succeeds exactly when profile and stack are sound, the profile may serve the
   stack and suits its layers, strict host optimisation has its facts, and the strategy is
   overlay or pull; the selection never comes up empty.
   */
  lemma {:induction false} ResolveSucceedsIff(c: Context, p: Profile, s: Stack, o: Options)
    ensures Resolve(c, p, s, o).Ok? <==> Resolvable(p, s, o)
    ensures Resolve(c, p, s, o) != Err(NoCandidates)
  {
    SomeChoice(p, s, o, o.explain);
    assert o.(explain := o.explain) == o;
    ResolveUnfolds(c, p, s, o, o.explain);
    ObstacleIs(p, s, o);
  }

  /** Otherwise the first of these that fails names the error. */
  lemma {:induction false} ResolveErrorIs(c: Context, p: Profile, s: Stack, o: Options)
    ensures var r := Resolve(c, p, s, o);
      && (r == Err(InvalidProfile) <==> !ProfileSound(p))
      && (r == Err(InvalidStackSpec) <==> ProfileSound(p) && !StackSound(s))
      && (r == Err(Incompatible) <==> ProfileSound(p) && StackSound(s) && !Verdict(p, s, o))
      && (r == Err(HostFactsMissing) <==> ProfileSound(p) && StackSound(s) && Verdict(p, s, o) && !HostKnown(p, o))
  {
    SomeChoice(p, s, o, o.explain);
    assert o.(explain := o.explain) == o;
    ResolveUnfolds(c, p, s, o, o.explain);
    ObstacleIs(p, s, o);
  }

  // ----- what a plan says -----

  lemma {:induction false} PlanChosen(c: Context, p: Profile, s: Stack, o: Options)
    requires Resolve(c, p, s, o).Ok?
    ensures Chosen(p, s, o, o.explain).Some? && Resolve(c, p, s, o).value == PlanFor(c, p, s, o, Chosen(p, s, o, o.explain).value)
  {
    SomeChoice(p, s, o, o.explain);
    assert o.(explain := o.explain) == o;
    ResolveUnfolds(c, p, s, o, o.explain);
  }

  /** The plan is for this profile and stack, on the chosen base, under the fingerprint of the hinted stack on that very base. */
  lemma {:induction false} PlanSays(c: Context, p: Profile, s: Stack, o: Options)
    requires Resolve(c, p, s, o).Ok?
    ensures Chosen(p, s, o, o.explain).Some?
    ensures var plan, choice := Resolve(c, p, s, o).value, Chosen(p, s, o, o.explain).value;
      && plan.profile == p.id && plan.stack == s.id && plan.baseDigest == o.baseDigest
      && plan.baseImage == choice.candidate.name + ":" + choice.tag
      && plan.fingerprint == Fingerprint(c.hash, p, WithHints(s, DecisionOf(p, o)),
                                         Inputs(plan.baseImage, o.baseDigest, o.templateHash, o.variants, c.builderVersion))
      && plan.tag == GenerateTag(WithHints(s, DecisionOf(p, o)), p, plan.fingerprint)
      && (s.buildStrategy == Overlay ==> plan.builder == "overlay") && (s.buildStrategy == Pull ==> plan.builder == "pull")
  {
    PlanChosen(c, p, s, o);
  }

  /** The texts of the two modes among the labels. */
  predicate ModesSay(labels: LabelMap, s: Stack, mode: Compatibility.Mode) {
    && (s.components.pipMode == Index ==> Get(labels, PipMode) == "index")
    && (s.components.pipMode == WheelhousePrefer ==> Get(labels, PipMode) == "wheelhouse_prefer")
    && (s.components.pipMode == WheelhouseOnly ==> Get(labels, PipMode) == "wheelhouse_only")
    && (mode == Compatibility.Off ==> Get(labels, TupleMode) == "off") && (mode == Compatibility.Shadow ==> Get(labels, TupleMode) == "shadow")
    && (mode == Compatibility.Warn ==> Get(labels, TupleMode) == "warn") && (mode == Compatibility.Enforce ==> Get(labels, TupleMode) == "enforce")
  }

  lemma {:induction false} DetailsSay(c: Context, s: Stack, o: Options, d: Compatibility.Decision)
    ensures var m := DetailLabels(c, s, o, d);
      && Get(m, PipWheelhousePath) == s.components.wheelhousePath && Get(m, Strategy) == StrategyName(s.buildStrategy) && ModesSay(m, s, o.mode)
      && Get(m, TupleId) == d.id && Get(m, TupleStatus) == d.status && Get(m, TupleBaseHint) == d.baseHint
      && Get(m, TupleWheelhouseHint) == d.wheelhouseHint && Get(m, CreatedAt) == c.now
      && Get(m, BuildOptimizationKey) == c.optimization && Get(m, HostOptimization) == c.host
  {
  }

  lemma {:induction false} DetailKeys(c: Context, s: Stack, o: Options, d: Compatibility.Decision)
    ensures DetailLabels(c, s, o, d).Keys == {Strategy, PipMode, PipWheelhousePath, TupleId, TupleStatus, TupleMode, TupleBaseHint,
                                              TupleWheelhouseHint, CreatedAt, BuildOptimizationKey, HostOptimization}
  {
  }

  /** The labels of the identity. */
  predicate Identifies(key: LabelKey) {
    match key
    case ProfileId | StackId | FingerprintKey | BaseDigest | TemplateHash | BuilderVersion => true
    case StackSchema | ProfileSchema | LayerSchema | BlockSchema => true
    case _ => false
  }

  lemma {:induction false} IdentityKeys(c: Context, p: Profile, s: Stack, o: Options, fp: string, key: LabelKey)
    requires !Identifies(key)
    ensures key !in IdentityLabels(c, p, s, o, fp)
  {
  }

  lemma {:induction false} OptionalKeys(c: Context, o: Options, d: Compatibility.Decision, key: LabelKey)
    requires !key.VariantsKey? && !key.WheelhouseHint?
    ensures key !in OptionalLabels(c, o, d)
  {
  }

  /** The details have names of their own. */
  lemma {:induction false} DetailsApart(c: Context, s: Stack, o: Options, d: Compatibility.Decision, key: LabelKey)
    requires key in DetailLabels(c, s, o, d)
    ensures !Identifies(key) && !key.VariantsKey? && !key.WheelhouseHint?
  {
    DetailKeys(c, s, o, d);
  }

  lemma {:induction false} FrontStays(a: LabelMap, b: LabelMap, c: LabelMap, key: LabelKey)
    requires key in a && key !in b && key !in c
    ensures Get(a + b + c, key) == Get(a, key)
  {
  }

  lemma {:induction false} DetailStays(c: Context, p: Profile, s: Stack, o: Options, d: Compatibility.Decision, fp: string, key: LabelKey)
    requires key in DetailLabels(c, s, o, d)
    ensures Get(LabelsFor(c, p, s, o, d, fp), key) == Get(DetailLabels(c, s, o, d), key)
  {
    DetailsApart(c, s, o, d, key);
    OptionalKeys(c, o, d, key);
    IdentityKeys(c, p, s, o, fp, key);
    FrontStays(DetailLabels(c, s, o, d), OptionalLabels(c, o, d), IdentityLabels(c, p, s, o, fp), key);
  }

  /** Beside the identity, the labels of a plan give its settings, the tuple it was resolved with, and the time. */
  lemma {:induction false} LabelsSay(c: Context, p: Profile, s: Stack, o: Options)
    requires Resolve(c, p, s, o).Ok?
    ensures var labels, d := Resolve(c, p, s, o).value.labels, DecisionOf(p, o);
      && Get(labels, Strategy) == Resolve(c, p, s, o).value.builder && ModesSay(labels, s, o.mode)
      && Get(labels, PipWheelhousePath) == s.components.wheelhousePath
      && Get(labels, TupleId) == d.id && Get(labels, TupleStatus) == d.status && Get(labels, TupleBaseHint) == d.baseHint
      && Get(labels, TupleWheelhouseHint) == d.wheelhouseHint && Get(labels, CreatedAt) == c.now
      && Get(labels, BuildOptimizationKey) == c.optimization && Get(labels, HostOptimization) == c.host
  {
    var d := DecisionOf(p, o);
    var t := WithHints(s, d);
    var plan := Resolve(c, p, s, o).value;
    PlanChosen(c, p, s, o);
    HintsChangeIff(s, d);
    DetailsSay(c, t, o, d);
    DetailKeys(c, t, o, d);
    var m := DetailLabels(c, t, o, d);
    forall key | key in m ensures Get(plan.labels, key) == Get(m, key) {
      DetailStays(c, p, t, o, d, plan.fingerprint, key);
    }
  }

  lemma {:induction false} OptionalIs(c: Context, o: Options, d: Compatibility.Decision)
    ensures var m, hint := OptionalLabels(c, o, d), Strip(d.wheelhouseHint);
      && (VariantsKey in m <==> |o.variants| > 0) && (VariantsKey in m ==> m[VariantsKey] == c.codec.encode(o.variants))
      && (WheelhouseHint in m <==> |hint| > 0) && (WheelhouseHint in m ==> m[WheelhouseHint] == hint)
  {
  }

  lemma {:induction false} MiddleStays(a: LabelMap, b: LabelMap, c: LabelMap, key: LabelKey)
    requires key !in a && key !in c
    ensures (key in a + b + c <==> key in b) && (key in b ==> (a + b + c)[key] == b[key])
  {
  }

  lemma {:induction false} NoDetail(c: Context, s: Stack, o: Options, d: Compatibility.Decision, key: LabelKey)
    requires key.VariantsKey? || key.WheelhouseHint?
    ensures key !in DetailLabels(c, s, o, d)
  {
    DetailKeys(c, s, o, d);
  }

  lemma {:induction false} OptionalStays(c: Context, p: Profile, s: Stack, o: Options, d: Compatibility.Decision, fp: string, key: LabelKey)
    requires key.VariantsKey? || key.WheelhouseHint?
    ensures var m, labels := OptionalLabels(c, o, d), LabelsFor(c, p, s, o, d, fp);
      (key in labels <==> key in m) && (key in m ==> labels[key] == m[key])
  {
    NoDetail(c, s, o, d, key);
    IdentityKeys(c, p, s, o, fp, key);
    MiddleStays(DetailLabels(c, s, o, d), OptionalLabels(c, o, d), IdentityLabels(c, p, s, o, fp), key);
  }

  /** Two labels are there only with something to say: the variants, and the wheelhouse hint of the tuple. */
  lemma {:induction false} OptionalSay(c: Context, p: Profile, s: Stack, o: Options)
    requires Resolve(c, p, s, o).Ok?
    ensures var labels, hint := Resolve(c, p, s, o).value.labels, Strip(DecisionOf(p, o).wheelhouseHint);
      && (VariantsKey in labels <==> |o.variants| > 0) && (VariantsKey in labels ==> labels[VariantsKey] == c.codec.encode(o.variants))
      && (WheelhouseHint in labels <==> |hint| > 0) && (WheelhouseHint in labels ==> labels[WheelhouseHint] == hint)
  {
    var d := DecisionOf(p, o);
    PlanChosen(c, p, s, o);
    OptionalIs(c, o, d);
    OptionalStays(c, p, WithHints(s, d), o, d, Resolve(c, p, s, o).value.fingerprint, VariantsKey);
    OptionalStays(c, p, WithHints(s, d), o, d, Resolve(c, p, s, o).value.fingerprint, WheelhouseHint);
  }

  /** A base is wished for by the role of the stack and the CUDA variant of the profile, as far as there are any. */
  lemma {:induction false} WishedIs(p: Profile, s: Stack, o: Options)
    ensures var w := Wished(p, s, o);
      && (match s.components.baseRole case None => w.role == "" case Some(role) => w.role == role)
      && (match p.cuda case None => w.cuda == "" case Some(cuda) => w.cuda == cuda.variant)
  {
    HintsChangeIff(s, DecisionOf(p, o));
  }

  // ----- explaining -----

  predicate FirstBearer(cs: seq<BaseCandidate>, f: nat, name: string) {
    f < |cs| && cs[f].name == name && forall j :: 0 <= j < f ==> cs[j].name != name
  }

  /** The first candidate to bear the winner's name has the winner's best tag. */
  ghost predicate NamesakeTagAgrees(w: Wanted, cs: seq<BaseCandidate>) {
    forall i: nat, f: nat :: Wins(w, cs, i) && FirstBearer(cs, f, cs[i].name) ==> BestTag(w, cs[f]).0 == BestTag(w, cs[i]).0
  }

  lemma {:induction false} OneWinner(w: Wanted, cs: seq<BaseCandidate>, i: nat, j: nat)
    requires Wins(w, cs, i) && Wins(w, cs, j)
    ensures i == j
  {
    assert Better(w, cs[i], cs[j]) && Better(w, cs[j], cs[i]);
  }

  /** Both procedures choose the winner's name, and the same tag exactly when the namesake's tag agrees. */
  lemma {:induction false} ChoicesCompared(w: Wanted, cs: seq<BaseCandidate>)
    requires cs != []
    ensures Select(w, cs).Some? && SelectDetailed(w, cs).Some?
    ensures Select(w, cs).value.candidate.name == SelectDetailed(w, cs).value.candidate.name
    ensures Select(w, cs).value.tag == SelectDetailed(w, cs).value.tag <==> NamesakeTagAgrees(w, cs)
  {
    var i := SelectPicksWinner(w, cs);
    var f := DetailedPicksName(w, cs, i);
    assert FirstBearer(cs, f, cs[i].name);
    forall j: nat, g: nat | Wins(w, cs, j) && FirstBearer(cs, g, cs[j].name) ensures j == i && g == f {
      OneWinner(w, cs, i, j);
    }
  }

  lemma {:induction false} ImagesCompared(a: Choice, b: Choice)
    requires a.candidate.name == b.candidate.name
    ensures a.candidate.name + ":" + a.tag == b.candidate.name + ":" + b.tag <==> a.tag == b.tag
  {
    var x, y := a.candidate.name + ":" + a.tag, b.candidate.name + ":" + b.tag;
    assert x[|a.candidate.name| + 1..] == a.tag && y[|b.candidate.name| + 1..] == b.tag;
  }

  lemma {:induction false} PlansCompared(c: Context, p: Profile, s: Stack, o: Options, a: Choice, b: Choice)
    requires a.candidate.name == b.candidate.name
    ensures var told, silent := PlanFor(c, p, s, o.(explain := true), a), PlanFor(c, p, s, o.(explain := false), b);
      (told == silent <==> a.tag == b.tag) && (told.baseImage == silent.baseImage <==> a.tag == b.tag)
  {
    ImagesCompared(a, b);
  }

  lemma {:induction false} OutcomesCompared(c: Context, p: Profile, s: Stack, o: Options)
    requires Resolvable(p, s, o)
    ensures var told, silent := Resolve(c, p, s, o.(explain := true)), Resolve(c, p, s, o.(explain := false));
      && told.Ok? && silent.Ok?
      && (told == silent <==> NamesakeTagAgrees(Wished(p, s, o), Offered(p, s, o)))
      && (told.value.baseImage == silent.value.baseImage <==> NamesakeTagAgrees(Wished(p, s, o), Offered(p, s, o)))
  {
    AlwaysSomeCandidate(p, WithHints(s, DecisionOf(p, o)).policyOverrides);
    ChoicesCompared(Wished(p, s, o), Offered(p, s, o));
    ResolveUnfolds(c, p, s, o, true);
    ResolveUnfolds(c, p, s, o, false);
    ObstacleIs(p, s, o);
    PlansCompared(c, p, s, o, Chosen(p, s, o, true).value, Chosen(p, s, o, false).value);
  }

  lemma {:induction false} RefusedAlike(c: Context, p: Profile, s: Stack, o: Options)
    requires !Resolvable(p, s, o)
    ensures Resolve(c, p, s, o.(explain := true)) == Resolve(c, p, s, o.(explain := false))
  {
    SomeChoice(p, s, o, true);
    SomeChoice(p, s, o, false);
    ResolveUnfolds(c, p, s, o, true);
    ResolveUnfolds(c, p, s, o, false);
    ObstacleIs(p, s, o);
  }

  /**
   Asking for an explanation changes nothing if and only if resolution fails anyway, or the
   first offered candidate with the winner's name has the winner's best tag.
   */
  lemma {:induction false} ExplainIsHarmlessIff(c: Context, p: Profile, s: Stack, o: Options)
    ensures Resolve(c, p, s, o.(explain := true)) == Resolve(c, p, s, o.(explain := false)) <==>
      !Resolvable(p, s, o) || NamesakeTagAgrees(Wished(p, s, o), Offered(p, s, o))
  {
    if Resolvable(p, s, o) {
      OutcomesCompared(c, p, s, o);
    } else {
      RefusedAlike(c, p, s, o);
    }
  }

  // ----- a profile where it does change the plan -----

  /** One base image listed twice, the later entry preferred. */
  const TWICE := [BaseCandidate("base", ["old"], 0), BaseCandidate("base", ["new"], 5)]

  const TwiceProfile := Profile(
    "p", 1, "amd64", "runc", "linux", "", "", "", "", None, Gpu("", "", "", "", None, false),
    HostFacts(None, None, None, false, map[]), TWICE, [], [], false)

  const PlainStack := Stack(
    "s", "custom", "custom", "custom", 1, Overlay, Components(Some("python"), [], [], [], map[], Repo, Index, "", FromSpec),
    [], [], ["run"], [], map[], [], map[], [], map[])

  function PlainOptions(t: Compatibility.Tables): Options {
    Options([], [], "", "", map[], false, false, false, Compatibility.Off, Compatibility.Catalogs(t, [], []))
  }

  lemma {:induction false} TwiceResolvable(t: Compatibility.Tables)
    ensures Resolvable(TwiceProfile, PlainStack, PlainOptions(t))
  {
    assert forall c :: c in TWICE ==> c == TWICE[0] || c == TWICE[1];
    assert "custom"[0] != "triton"[0] && "custom"[0] != "vllm"[0];
  }

  lemma {:induction false} TwiceOffered(t: Compatibility.Tables)
    ensures Offered(TwiceProfile, PlainStack, PlainOptions(t)) == TWICE && Wished(TwiceProfile, PlainStack, PlainOptions(t)) == Wanted("python", "")
  {
    assert Strip("") == "";
  }

  lemma {:induction false} TwiceTags(w: Wanted)
    requires w.cuda == ""
    ensures Wins(w, TWICE, 1) && FirstBearer(TWICE, 0, TWICE[1].name) && !NamesakeTagAgrees(w, TWICE)
  {
    var first, later := TWICE[0], TWICE[1];
    assert Score(w, first) < Score(w, later);
    assert Better(w, later, first) && !Better(w, first, later) && Better(w, later, later) by { StrOrder(); }
    assert "old"[0] != "new"[0];
    assert BestTag(w, first).0 == "old" && BestTag(w, later).0 == "new";
  }

  /** On this profile asking for an explanation changes the base image. */
  lemma {:induction false} ExplainChangesThePlan(c: Context, t: Compatibility.Tables)
    ensures var o := PlainOptions(t);
      var told, silent := Resolve(c, TwiceProfile, PlainStack, o.(explain := true)), Resolve(c, TwiceProfile, PlainStack, o.(explain := false));
      told.Ok? && silent.Ok? && told.value.baseImage != silent.value.baseImage
  {
    var o := PlainOptions(t);
    TwiceResolvable(t);
    TwiceOffered(t);
    TwiceTags(Wanted("python", ""));
    OutcomesCompared(c, TwiceProfile, PlainStack, o);
  }
}
