/** From profile and stack to a plan: tuple hints, base image, fingerprint, tag and labels. */
module Resolver {
  import opened Basics
  import opened Specs
  import opened Profiles
  import opened Hashing
  import opened Selection
  import opened Labels
  import opened Rules
  import BuildOptimization
  import Compatibility

  datatype Plan = Plan(
    profile: string, stack: string, baseImage: string, baseDigest: string, builder: string,
    tag: string, fingerprint: string, labels: LabelMap)

  datatype ResolveError = InvalidProfile | InvalidStackSpec | Incompatible | NoCandidates | HostFactsMissing | UnknownStrategy

  /** The hash, the JSON codec, this build's version and the texts that come from the clock and the host. */
  datatype Context = Context(
    hash: Hash, codec: VariantCodec, builderVersion: string, now: string, optimization: string, host: string)

  /** The keyword arguments of `resolve`; a missing digest or template hash is "". */
  datatype Options = Options(
    layers: seq<Compatibility.LayerNeeds>, layerSchemas: seq<int>, baseDigest: string, templateHash: string,
    variants: Variants, explain: bool, strict: bool, strictHost: bool, mode: Compatibility.Mode, catalogs: Compatibility.Catalogs)

  // ----- hints -----

  function LastColon(s: string): Option<nat> {
    if s == "" then None
    else if s[|s| - 1] == ':' then Some(|s| - 1)
    else LastColon(s[..|s| - 1])
  }

  lemma {:induction false} LastColonIs(s: string)
    ensures LastColon(s).Some? ==> LastColon(s).value < |s| && s[LastColon(s).value] == ':' && ':' !in s[LastColon(s).value + 1..]
    ensures LastColon(s).None? ==> ':' !in s
  {
    if s != "" && s[|s| - 1] != ':' {
      LastColonIs(s[..|s| - 1]);
      assert s == s[..|s| - 1] + [s[|s| - 1]];
      if LastColon(s).Some? {
        var i := LastColon(s).value;
        assert s[i + 1..] == s[..|s| - 1][i + 1..] + [s[|s| - 1]];
      }
    }
  }

  datatype ImageRef = ImageRef(name: string, tag: Option<string>)

  /** `_split_image_ref`: a colon before a slash is a port, not a tag. */
  function SplitImageRef(text: string): (r: ImageRef)
    ensures |r.name| <= |Strip(text)|
  {
    var value := Strip(text);
    LastColonIs(value);
    match LastColon(value)
    case None => ImageRef(value, None)
    case Some(i) =>
      if '/' in value[i + 1..] then ImageRef(value, None) else ImageRef(value[..i], Some(value[i + 1..]))
  }

  /** The parts of a reference make up the reference again, and a tag holds neither slash nor colon. */
  lemma {:induction false} SplitRejoins(text: string)
    ensures var r := SplitImageRef(text);
      Strip(text) == (if r.tag.Some? then r.name + ":" + r.tag.value else r.name)
    ensures SplitImageRef(text).tag.Some? ==> '/' !in SplitImageRef(text).tag.value && ':' !in SplitImageRef(text).tag.value
  {
    var value := Strip(text);
    LastColonIs(value);
    if LastColon(value).Some? {
      var i := LastColon(value).value;
      assert value == value[..i] + ":" + value[i + 1..];
    }
  }

  /** A reference without a colon has no tag, and one with colons has what follows the last, unless a slash is in it. */
  lemma {:induction false} SplitOf(text: string, name: string, tag: string)
    requires ':' !in tag && Strip(text) == name + ":" + tag
    ensures SplitImageRef(text) == if '/' in tag then ImageRef(Strip(text), None) else ImageRef(name, Some(tag))
  {
    var value := Strip(text);
    LastColonOf(name, tag);
    assert value[..|name|] == name && value[|name| + 1..] == tag;
  }

  lemma {:induction false} LastColonOf(name: string, tag: string)
    requires ':' !in tag
    ensures LastColon(name + ":" + tag) == Some(|name|)
  {
    var s := name + ":" + tag;
    if tag == "" {
      assert s[|s| - 1] == ':';
    } else {
      var n := |tag| - 1;
      assert tag[n] in tag && s[..|s| - 1] == name + ":" + tag[..n];
      LastColonOf(name, tag[..n]);
    }
  }

  lemma {:induction false} SplitPlain(text: string)
    requires ':' !in Strip(text)
    ensures SplitImageRef(text) == ImageRef(Strip(text), None)
  {
    LastColonIs(Strip(text));
  }

  /** An override per hint, none for a blank part. */
  function Hinted(overrides: map<string, string>, d: Compatibility.Decision): map<string, string> {
    var ref := SplitImageRef(d.baseHint);
    var wheelhouse := Strip(d.wheelhouseHint);
    var withImage := if ref.name != "" then overrides["base_image" := ref.name] else overrides;
    var withTag := if ref.tag.GetOr("") != "" then withImage["base_tag" := ref.tag.value] else withImage;
    if wheelhouse != "" then withTag["pip_wheelhouse_path_hint" := wheelhouse] else withTag
  }

  /** `_stack_with_tuple_hints`. */
  function WithHints(s: Stack, d: Compatibility.Decision): Stack {
    if Strip(d.baseHint) == "" && Strip(d.wheelhouseHint) == "" then s
    else s.(policyOverrides := Hinted(s.policyOverrides, d))
  }

  predicate Agrees(overrides: map<string, string>, key: string, hint: string) {
    hint != "" ==> key in overrides && overrides[key] == hint
  }

  /** Every hint already stands in the overrides. */
  predicate HintsAgree(s: Stack, d: Compatibility.Decision) {
    && Agrees(s.policyOverrides, "base_image", SplitImageRef(d.baseHint).name)
    && Agrees(s.policyOverrides, "base_tag", SplitImageRef(d.baseHint).tag.GetOr(""))
    && Agrees(s.policyOverrides, "pip_wheelhouse_path_hint", Strip(d.wheelhouseHint))
  }

  lemma {:induction false} OverrideNamesDiffer()
    ensures "base_image" != "base_tag" && "base_image" != "pip_wheelhouse_path_hint" && "base_tag" != "pip_wheelhouse_path_hint"
  {
    assert |"base_image"| == 10 && |"base_tag"| == 8 && |"pip_wheelhouse_path_hint"| == 24;
  }

  /** The hints change the stack exactly when some hint does not already stand in its overrides. */
  lemma {:induction false} HintsChangeIff(s: Stack, d: Compatibility.Decision)
    ensures WithHints(s, d).policyOverrides == s.policyOverrides <==> HintsAgree(s, d)
    ensures WithHints(s, d) == s.(policyOverrides := WithHints(s, d).policyOverrides)
  {
    OverrideNamesDiffer();
    assert Strip(d.baseHint) == "" ==> SplitImageRef(d.baseHint) == ImageRef("", None);
    var before, after := s.policyOverrides, Hinted(s.policyOverrides, d);
    var ref := SplitImageRef(d.baseHint);
    assert ref.name != "" ==> "base_image" in after && after["base_image"] == ref.name;
    assert ref.tag.GetOr("") != "" ==> "base_tag" in after && after["base_tag"] == ref.tag.value;
    assert Strip(d.wheelhouseHint) != "" ==> "pip_wheelhouse_path_hint" in after && after["pip_wheelhouse_path_hint"] == Strip(d.wheelhouseHint);
    if HintsAgree(s, d) {
      assert after == before;
    }
  }

  /** Applying the same hints again changes nothing. */
  lemma {:induction false} HintsSettle(s: Stack, d: Compatibility.Decision)
    ensures HintsAgree(WithHints(s, d), d) && WithHints(WithHints(s, d), d) == WithHints(s, d)
  {
    OverrideNamesDiffer();
    assert Strip(d.baseHint) == "" ==> SplitImageRef(d.baseHint) == ImageRef("", None);
    var t := WithHints(s, d);
    assert HintsAgree(t, d);
    HintsChangeIff(t, d);
  }

  /** The overrides the hints do not name stay. */
  lemma {:induction false} HintsKeep(s: Stack, d: Compatibility.Decision, key: string)
    requires key == "base_image" ==> SplitImageRef(d.baseHint).name == ""
    requires key == "base_tag" ==> SplitImageRef(d.baseHint).tag.GetOr("") == ""
    requires key == "pip_wheelhouse_path_hint" ==> Strip(d.wheelhouseHint) == ""
    ensures var before, after := s.policyOverrides, WithHints(s, d).policyOverrides;
      (key in after <==> key in before) && (key in before ==> after[key] == before[key])
  {
  }

  lemma {:induction false} StripKeepsFirst(s: string)
    requires s != "" && !IsSpace(s[0])
    ensures Strip(s) != "" && Strip(s)[0] == s[0]
  {
    RStripKeepsFirst(s);
  }

  lemma {:induction false} RStripKeepsFirst(s: string)
    requires s != "" && !IsSpace(s[0])
    ensures RStrip(s) != "" && RStrip(s)[0] == s[0]
  {
    if IsSpace(s[|s| - 1]) {
      RStripKeepsFirst(s[..|s| - 1]);
    }
  }

  lemma {:induction false} NameIsNotBlank(text: string)
    requires SplitImageRef(text).name != ""
    ensures Strip(SplitImageRef(text).name) != ""
  {
    var name := SplitImageRef(text).name;
    SplitRejoins(text);
    LStripSettles(text);
    RStripSettles(LStrip(text));
    assert Strip(text) <= LStrip(text) && name[0] == Strip(text)[0] == LStrip(text)[0];
    StripKeepsFirst(name);
  }

  // ----- labels -----

  function StrategyName(b: BuildStrategy): string {
    match b
    case Pull => "pull"
    case Overlay => "overlay"
    case DockerfileTemplate => "dockerfile_template"
    case CustomStrategy => "custom"
  }

  function WheelhouseModeName(m: WheelhouseMode): string {
    match m
    case Index => "index"
    case WheelhousePrefer => "wheelhouse_prefer"
    case WheelhouseOnly => "wheelhouse_only"
  }

  function TupleModeName(m: Compatibility.Mode): string {
    match m
    case Off => "off"
    case Shadow => "shadow"
    case Warn => "warn"
    case Enforce => "enforce"
  }

  /** `max(..., default=1)`. */
  function MaxSchema(schemas: seq<int>): int {
    if schemas == [] then 1
    else if |schemas| == 1 then schemas[0]
    else
      var rest := MaxSchema(schemas[1..]);
      if schemas[0] > rest then schemas[0] else rest
  }

  /** The labels that drift detection and verification read. */
  function IdentityLabels(c: Context, p: Profile, s: Stack, o: Options, fp: string): LabelMap {
    var layerSchema := ShowInt(MaxSchema(o.layerSchemas));
    map[ProfileId := p.id, StackId := s.id, FingerprintKey := fp, BaseDigest := o.baseDigest,
        StackSchema := ShowInt(s.schemaVersion), ProfileSchema := ShowInt(p.schemaVersion),
        LayerSchema := layerSchema, BlockSchema := layerSchema, TemplateHash := o.templateHash,
        BuilderVersion := c.builderVersion]
  }

  function DetailLabels(c: Context, s: Stack, o: Options, d: Compatibility.Decision): LabelMap {
    map[Strategy := StrategyName(s.buildStrategy), PipMode := WheelhouseModeName(s.components.pipMode),
        PipWheelhousePath := s.components.wheelhousePath,
        TupleId := d.id, TupleStatus := d.status, TupleMode := TupleModeName(o.mode),
        TupleBaseHint := d.baseHint, TupleWheelhouseHint := d.wheelhouseHint,
        CreatedAt := c.now, BuildOptimizationKey := c.optimization, HostOptimization := c.host]
  }

  function OptionalLabels(c: Context, o: Options, d: Compatibility.Decision): LabelMap {
    (if o.variants == map[] then map[] else map[VariantsKey := c.codec.encode(o.variants)])
    + (if Strip(d.wheelhouseHint) == "" then map[] else map[WheelhouseHint := Strip(d.wheelhouseHint)])
  }

  function LabelsFor(c: Context, p: Profile, s: Stack, o: Options, d: Compatibility.Decision, fp: string): LabelMap {
    DetailLabels(c, s, o, d) + OptionalLabels(c, o, d) + IdentityLabels(c, p, s, o, fp)
  }

  // ----- resolve -----

  function WantedOf(p: Profile, s: Stack): Wanted {
    Wanted(s.components.baseRole.GetOr(""), if p.cuda.Some? then p.cuda.value.variant else "")
  }

  function ChooseBase(p: Profile, s: Stack, explain: bool): Option<Choice> {
    var candidates := CandidatesFor(p, s.policyOverrides);
    if explain then SelectDetailed(WantedOf(p, s), candidates) else Select(WantedOf(p, s), candidates)
  }

  function InputsOf(c: Context, o: Options, baseImage: string): Inputs {
    Inputs(baseImage, o.baseDigest, o.templateHash, o.variants, c.builderVersion)
  }

  function DecisionOf(p: Profile, o: Options): Compatibility.Decision {
    Compatibility.ResolveTuple(o.catalogs.tables, p, o.mode, o.catalogs.tuples)
  }

  function PlanFor(c: Context, p: Profile, s: Stack, o: Options, choice: Choice): Plan {
    var d := DecisionOf(p, o);
    var effective := WithHints(s, d);
    var baseImage := choice.candidate.name + ":" + choice.tag;
    var fp := Fingerprint(c.hash, p, effective, InputsOf(c, o, baseImage));
    Plan(p.id, s.id, baseImage, o.baseDigest, StrategyName(s.buildStrategy),
         GenerateTag(effective, p, fp), fp, LabelsFor(c, p, effective, o, d, fp))
  }

  /** What the validators, the serve rules and the compatibility verdict object to. */
  function Refusal(p: Profile, s: Stack, o: Options): Option<ResolveError> {
    if !ValidProfile(p) then Some(InvalidProfile)
    else if !ValidStack(s) then Some(InvalidStackSpec)
    else if ServeRefused(p, s) || !Compatibility.Evaluate(o.catalogs, p, o.layers, s.layers, o.mode, o.strict).compatible
    then Some(Incompatible)
    else None
  }

  /** `resolve`. */
  function Resolve(c: Context, p: Profile, s: Stack, o: Options): Result<Plan, ResolveError> {
    var refusal := Refusal(p, s, o);
    if refusal.Some? then Err(refusal.value)
    else
      match ChooseBase(p, WithHints(s, DecisionOf(p, o)), o.explain)
      case None => Err(NoCandidates)
      case Some(choice) =>
        if BuildOptimization.StrictHostRefused(p, o.layers, o.strictHost) then Err(HostFactsMissing)
        else if s.buildStrategy != Overlay && s.buildStrategy != Pull then Err(UnknownStrategy)
        else Ok(PlanFor(c, p, s, o, choice))
  }

  lemma {:induction false} OneCandidate(w: Wanted, name: string, tag: string, bias: int)
    ensures Select(w, [BaseCandidate(name, [tag], bias)]) == Some(Choice(BaseCandidate(name, [tag], bias), tag))
    ensures SelectDetailed(w, [BaseCandidate(name, [tag], bias)]) == Some(Choice(BaseCandidate(name, [tag], bias), tag))
  {
    var cs := [BaseCandidate(name, [tag], bias)];
    var i := SelectPicksWinner(w, cs);
    var f := DetailedPicksName(w, cs, i);
    assert [tag][1..] == [] && FirstMatching(w.cuda, [tag][1..]) == None;
    assert BestTag(w, cs[0]).0 == tag;
  }

  /** The tag that goes with a hinted image: the hint's own, else one overridden before, else `latest`. */
  function HintedTag(s: Stack, d: Compatibility.Decision): string {
    var tag := Or(SplitImageRef(d.baseHint).tag.GetOr(""), Lookup(s.policyOverrides, "base_tag"));
    if tag != "" then Strip(tag) else "latest"
  }

  /** A tuple's base image hint decides the base image, whatever the profile offers and however it is explained. */
  lemma {:induction false} HintDecidesBase(c: Context, p: Profile, s: Stack, o: Options)
    requires Resolve(c, p, s, o).Ok? && SplitImageRef(DecisionOf(p, o).baseHint).name != ""
    ensures Resolve(c, p, s, o).value.baseImage
      == Strip(SplitImageRef(DecisionOf(p, o).baseHint).name) + ":" + HintedTag(s, DecisionOf(p, o))
  {
    var d := DecisionOf(p, o);
    HintedCandidates(p, s, d);
    OneCandidate(WantedOf(p, WithHints(s, d)), Strip(SplitImageRef(d.baseHint).name), HintedTag(s, d), OVERRIDE_BIAS);
  }

  lemma {:induction false} HintedCandidates(p: Profile, s: Stack, d: Compatibility.Decision)
    requires SplitImageRef(d.baseHint).name != ""
    ensures CandidatesFor(p, WithHints(s, d).policyOverrides)
      == [BaseCandidate(Strip(SplitImageRef(d.baseHint).name), [HintedTag(s, d)], OVERRIDE_BIAS)]
  {
    OverrideNamesDiffer();
    NameIsNotBlank(d.baseHint);
    var after := Hinted(s.policyOverrides, d);
    assert Strip(d.baseHint) != "";
    assert Lookup(after, "base_image") == SplitImageRef(d.baseHint).name;
    assert Lookup(after, "base_tag") == Or(SplitImageRef(d.baseHint).tag.GetOr(""), Lookup(s.policyOverrides, "base_tag"));
  }
}
