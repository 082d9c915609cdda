/** Concrete recipes that mark the limits of the composition results. */
module CompositionExamples {
  import opened Basics
  import opened Specs
  import opened LastWriter
  import opened Composition
  import opened CompositionLaws
  import opened ConflictReports
  import opened CompositionTheorems
  import PipConstraints

  const Plain := Components(None, [], [], [], map[], Repo, Index, "", FromSpec)
  const EmptyPart := Part(None, Plain, [], [], None, [], map[])

  function LayerOf(id: string, part: Part): Layer { Layer(id, part, map[], []) }
  function RecipeOf(ids: seq<string>, part: Part): Recipe { Recipe("r", 1, ids, part, map[], []) }

  lemma {:induction false} TwoParts(a: Layer, b: Layer, ids: seq<string>, part: Part)
    requires a.id == "a" && b.id == "b" && (ids == ["a", "b"] || ids == ["b", "a"])
    ensures Distinct(ids) && ReferencesResolve(RecipeOf(ids, part), [a, b])
    ensures var first, second := if ids[0] == "a" then a else b, if ids[0] == "a" then b else a;
      PartsOf(RecipeOf(ids, part), [a, b])
      == [Sourced("layer:" + first.id, first.part), Sourced("layer:" + second.id, second.part), Sourced("recipe:r", part)]
  {
    assert "a"[0] != "b"[0];
    var first, second := if ids[0] == "a" then a else b, if ids[0] == "a" then b else a;
    var ls := [a, b];
    assert ls[..1] == [a] && [a][..0] == [];
    assert ById([]) == map[];
    assert ById([a]) == map["a" := a];
    var byId := ById(ls);
    assert byId == map["a" := a, "b" := b];
    assert ids[1..][1..] == [];
    assert Referenced(ids[1..], byId) == [second];
    assert Referenced(ids, byId) == [first, second];
    var head := Map((l: Layer) => Sourced("layer:" + l.id, l.part), [first, second]);
    assert head == [Sourced("layer:" + first.id, first.part), Sourced("layer:" + second.id, second.part)];
    assert "recipe:" + "r" == "recipe:r";
  }

  // ----- what the reports do not cover -----

  function Tool(cmd: seq<string>, strategy: BuildStrategy, pin: string, flag: bool): Part {
    EmptyPart.(
      buildStrategy := Some(strategy), entrypoint := Some(cmd), variants := map["v" := BoolVariant(flag)],
      components := Plain.(apt := ["curl"], aptConstraints := map["curl" := pin]))
  }

  const LayerA := LayerOf("a", Tool(["run x"], Pull, "=1", true))
  const LayerB := LayerOf("b", Tool(["run", "x"], Overlay, "=2", false))

  lemma {:induction false} ToolConsumes(lib: Pep440, acc: Accum, s: Sourced)
    requires s.part.components.pip == [] && s.part.components.npm == []
    ensures var r := Consume(lib, acc, s);
      && r.Ok?
      && r.value.buildStrategy == OrElse(s.part.buildStrategy, acc.buildStrategy) && r.value.entrypoint == OrElse(s.part.entrypoint, acc.entrypoint)
      && r.value.aptConstraints == acc.aptConstraints + s.part.components.aptConstraints && r.value.variants == acc.variants + s.part.variants
  {
  }

  lemma {:induction false} ToolsConsume(lib: Pep440, recipe: Recipe, a: Layer, b: Layer, parts: seq<Sourced>)
    requires parts == [Sourced("layer:" + a.id, a.part), Sourced("layer:" + b.id, b.part), Sourced("recipe:r", EmptyPart)]
    requires recipe.part == EmptyPart
    requires a.part.components.pip == [] && b.part.components.pip == []
    requires a.part.components.npm == [] && b.part.components.npm == []
    ensures var r := ConsumeAll(lib, InitialAccum(recipe), parts);
      && r.Ok?
      && r.value.buildStrategy == OrElse(b.part.buildStrategy, a.part.buildStrategy)
      && r.value.entrypoint == OrElse(b.part.entrypoint, a.part.entrypoint)
      && r.value.aptConstraints == a.part.components.aptConstraints + b.part.components.aptConstraints
      && r.value.variants == a.part.variants + b.part.variants
  {
    var acc := InitialAccum(recipe);
    ToolConsumes(lib, acc, parts[0]);
    var acc1 := Consume(lib, acc, parts[0]).value;
    ToolConsumes(lib, acc1, parts[1]);
    var acc2 := Consume(lib, acc1, parts[1]).value;
    ToolConsumes(lib, acc2, parts[2]);
    var acc3 := Consume(lib, acc2, parts[2]).value;
    assert parts[1..][0] == parts[1] && parts[1..][1..][0] == parts[2] && parts[1..][1..][1..] == [];
    assert ConsumeAll(lib, acc2, parts[1..][1..]) == Ok(acc3);
    assert ConsumeAll(lib, acc1, parts[1..]) == Ok(acc3);
  }

  lemma {:induction false} ToolsValid()
    ensures ValidPart(EmptyPart) && ValidPart(LayerA.part) && ValidPart(LayerB.part)
  {
    assert "curl" in LayerA.part.components.apt && "curl" in LayerB.part.components.apt;
  }

  lemma {:induction false} ToolEntries(parts: seq<Sourced>)
    requires |parts| == 3 && parts[2].part == EmptyPart
    requires (parts[0].part == LayerA.part && parts[1].part == LayerB.part) || (parts[0].part == LayerB.part && parts[1].part == LayerA.part)
    ensures Gather(PipE, parts) == [] && Gather(NpmE, parts) == [] && Gather(EnvE, parts) == [] && Gather(RoleE, parts) == []
    ensures Gather(CmdE, parts) == [Entry((), "run x"), Entry((), "run x")]
  {
    assert Join(["run", "x"]) == "run x" by { assert ["run", "x"][1..] == ["x"]; assert "run" + " " + "x" == "run x"; }
    GatherThree(PipE, parts); GatherThree(NpmE, parts); GatherThree(EnvE, parts); GatherThree(RoleE, parts); GatherThree(CmdE, parts);
  }

  lemma {:induction false} ToolsClean(lib: Pep440, ids: seq<string>)
    requires ids == ["a", "b"] || ids == ["b", "a"]
    ensures ValidSpecs(RecipeOf(ids, EmptyPart), [LayerA, LayerB])
    ensures CleanReports(lib, RecipeOf(ids, EmptyPart), [LayerA, LayerB])
    ensures !Mentions(AnalyzeRuntime(RecipeOf(ids, EmptyPart), [LayerA, LayerB]), EntrypointCmd)
  {
    var recipe, layers := RecipeOf(ids, EmptyPart), [LayerA, LayerB];
    ToolsValid();
    TwoParts(LayerA, LayerB, ids, EmptyPart);
    var parts := PartsOf(recipe, layers);
    ToolEntries(parts);
    CleanReportsMean(lib, recipe, layers);
    NoCommandReport(recipe, layers, parts);
  }

  lemma {:induction false} NoCommandReport(recipe: Recipe, layers: seq<Layer>, parts: seq<Sourced>)
    requires parts == PartsOf(recipe, layers) && Gather(CmdE, parts) == [Entry((), "run x"), Entry((), "run x")]
    ensures !Mentions(AnalyzeRuntime(recipe, layers), EntrypointCmd)
  {
    PushRuntimesOutcome(NoRuntime, parts);
    SteadyTwo(Gather(CmdE, parts));
    assert !Mentions([], EntrypointCmd);
  }

  lemma {:induction false} ToolsCompose(lib: Pep440, ids: seq<string>)
    requires ids == ["a", "b"] || ids == ["b", "a"]
    ensures var last := if ids[1] == "a" then LayerA else LayerB;
      var r := Compose(lib, RecipeOf(ids, EmptyPart), [LayerA, LayerB]);
      && r.Ok? && r.value.buildStrategy == last.part.buildStrategy.value && r.value.entrypoint == last.part.entrypoint.value
      && r.value.components.aptConstraints == last.part.components.aptConstraints && r.value.variants == last.part.variants
  {
    var recipe, layers := RecipeOf(ids, EmptyPart), [LayerA, LayerB];
    assert "a"[0] != "b"[0];
    var first, last := if ids[0] == "a" then LayerA else LayerB, if ids[0] == "a" then LayerB else LayerA;
    TwoParts(LayerA, LayerB, ids, EmptyPart);
    ToolsConsume(lib, recipe, first, last, PartsOf(recipe, layers));
    ToolsSucceed(lib, ids);
    ComposeUnfolds(lib, recipe, layers);
    var acc := ConsumeAll(lib, InitialAccum(recipe), PartsOf(recipe, layers)).value;
    BuildFields(recipe, acc, ListingsFor(acc));
    LaterPinWins();
  }

  lemma {:induction false} LaterPinWins()
    ensures map["curl" := "=1"] + map["curl" := "=2"] == map["curl" := "=2"]
    ensures map["curl" := "=2"] + map["curl" := "=1"] == map["curl" := "=1"]
    ensures map["v" := BoolVariant(true)] + map["v" := BoolVariant(false)] == map["v" := BoolVariant(false)]
    ensures map["v" := BoolVariant(false)] + map["v" := BoolVariant(true)] == map["v" := BoolVariant(true)]
  {
  }

  lemma {:induction false} ToolsSucceed(lib: Pep440, ids: seq<string>)
    requires ids == ["a", "b"] || ids == ["b", "a"]
    ensures Compose(lib, RecipeOf(ids, EmptyPart), [LayerA, LayerB]).Ok?
  {
    var recipe, layers := RecipeOf(ids, EmptyPart), [LayerA, LayerB];
    TwoParts(LayerA, LayerB, ids, EmptyPart);
    ToolsClean(lib, ids);
    ComposeSucceedsIff(lib, recipe, layers);
    CleanIsNotBlocked(AnalyzeDependencies(lib, recipe, layers).value);
  }

  lemma {:induction false} GatherThree<K, V>(f: Sourced -> seq<Entry<K, V>>, parts: seq<Sourced>)
    requires |parts| == 3
    ensures Gather(f, parts) == f(parts[0]) + f(parts[1]) + f(parts[2])
  {
    assert parts[1..][1..][1..] == [];
    assert Gather(f, parts[1..][1..]) == f(parts[2]);
    assert Gather(f, parts[1..]) == f(parts[1]) + f(parts[2]);
  }

  lemma {:induction false} SteadyTwo(es: seq<Entry<(), string>>)
    requires |es| == 2 && es[0] == es[1]
    ensures Steady(map[], es)
  {
    SteadyIffAgree<(), string>(map[], es);
  }

  lemma {:induction false} BuildFields(recipe: Recipe, acc: Accum, l: Listings)
    requires Lists(acc, l) && Build(recipe, acc, l).Ok?
    ensures var s := Build(recipe, acc, l).value;
      s.buildStrategy == acc.buildStrategy.GetOr(Overlay) && s.entrypoint == acc.entrypoint.GetOr(DEFAULT_CMD)
      && s.components.aptConstraints == acc.aptConstraints && s.variants == acc.variants
  {
  }

  /**
   With clean reports, and not even an entrypoint entry, swapping two layers still
   changes the build strategy, the apt constraints, the variants and the entrypoint
   words (`run x` as one word or as two).
   */
  lemma {:induction false} OrderStillShows(lib: Pep440)
    ensures var ab, ba := RecipeOf(["a", "b"], EmptyPart), RecipeOf(["b", "a"], EmptyPart);
      var x, y := Compose(lib, ab, [LayerA, LayerB]), Compose(lib, ba, [LayerA, LayerB]);
      && CleanReports(lib, ab, [LayerA, LayerB]) && !Mentions(AnalyzeRuntime(ab, [LayerA, LayerB]), EntrypointCmd)
      && x.Ok? && y.Ok?
      && x.value.buildStrategy != y.value.buildStrategy
      && x.value.components.aptConstraints != y.value.components.aptConstraints
      && x.value.variants != y.value.variants
      && x.value.entrypoint != y.value.entrypoint
  {
    ToolsClean(lib, ["a", "b"]);
    ToolsCompose(lib, ["a", "b"]);
    ToolsCompose(lib, ["b", "a"]);
    assert "a"[0] != "b"[0];
    assert "=1"[1] != "=2"[1];
    assert map["curl" := "=1"]["curl"] != map["curl" := "=2"]["curl"];
    assert map["v" := BoolVariant(true)]["v"] != map["v" := BoolVariant(false)]["v"];
    assert |["run x"]| != |["run", "x"]|;
  }

  // ----- adjacent checks only -----

  function Needs(version: string): Part {
    EmptyPart.(components := Plain.(pip := [PipDep("numpy", version, if version == "" then Latest else Custom)]))
  }

  /** A recipe outside pin_only composes when its declarations chain. */
  lemma {:induction false} ChainsCompose(lib: Pep440, recipe: Recipe, layers: seq<Layer>, parts: seq<Sourced>)
    requires ValidSpecs(recipe, layers) && Distinct(recipe.layers) && ReferencesResolve(recipe, layers)
    requires parts == PartsOf(recipe, layers) && recipe.part.components.aptMode != PinOnly
    requires PipChain(lib, map[], Gather(PipE, parts)) && NpmChain(map[], Gather(NpmE, parts))
    ensures Compose(lib, recipe, layers).Ok? && NoHardConflict(lib, recipe, layers)
  {
    ReportOutcome(lib, recipe, layers);
    ComposeSucceedsIff(lib, recipe, layers);
  }

  lemma {:induction false} NeedsValid(version: string)
    ensures ValidPart(Needs(version))
  {
  }

  lemma {:induction false} NeedsEntries(s: Sourced, version: string)
    requires s.part == Needs(version)
    ensures PipE(s) == [Entry("numpy", PipDep("numpy", version, if version == "" then Latest else Custom))]
    ensures NpmE(s) == []
  {
  }

  lemma {:induction false} ChainOfThree(lib: Pep440, a: Entry<string, PipDep>, b: Entry<string, PipDep>, c: Entry<string, PipDep>)
    requires a.key == b.key == c.key && b.value.version == ""
    ensures PipChain(lib, map[], [a, b, c])
  {
    var es := [a, b, c];
    assert es[1..] == [b, c] && es[1..][1..] == [c] && es[1..][1..][1..] == [];
    var m1: map<string, PipDep> := map[a.key := a.value];
    var m2 := m1[b.key := b.value];
    assert PipChain(lib, m2, [c]);
    assert PipChain(lib, m1, [b, c]);
  }

  lemma {:induction false} OneAndTwo(lib: Pep440)
    requires lib.parse("==1") == Some([PipConstraints.Clause("==", "1")]) && lib.parse("==2") == Some([PipConstraints.Clause("==", "2")])
    ensures PipConstraints.Compatible(lib, "==1", "==2") == Ok(false)
  {
    var one, two := PipConstraints.Clause("==", "1"), PipConstraints.Clause("==", "2");
    assert one in [one] && two in [two];
    assert PipConstraints.Pins([one]) == {"1"} && PipConstraints.Pins([two]) == {"2"};
    assert "1"[0] != "2"[0];
  }

  /**
   Merging checks each pip declaration only against the one it replaces: pinned,
   unpinned, pinned differently is accepted although the two pins exclude each other.
   */
  lemma {:induction false} PinsApartAreAccepted(lib: Pep440, recipe: Recipe, layers: seq<Layer>)
    requires lib.parse("==1") == Some([PipConstraints.Clause("==", "1")]) && lib.parse("==2") == Some([PipConstraints.Clause("==", "2")])
    requires layers == [LayerOf("a", Needs("==1")), LayerOf("b", Needs(""))]
    requires recipe == RecipeOf(["a", "b"], Needs("==2"))
    ensures Compose(lib, recipe, layers).Ok?
    ensures PipConstraints.Compatible(lib, "==1", "==2") == Ok(false)
  {
    OneAndTwo(lib);
    TwoParts(layers[0], layers[1], ["a", "b"], Needs("==2"));
    NeedsValid("==1"); NeedsValid(""); NeedsValid("==2");
    var parts := PartsOf(recipe, layers);
    NeedsEntries(parts[0], "==1"); NeedsEntries(parts[1], ""); NeedsEntries(parts[2], "==2");
    GatherThree(PipE, parts); GatherThree(NpmE, parts);
    ChainOfThree(lib, PipE(parts[0])[0], PipE(parts[1])[0], PipE(parts[2])[0]);
    assert Gather(PipE, parts) == [PipE(parts[0])[0], PipE(parts[1])[0], PipE(parts[2])[0]];
    ChainsCompose(lib, recipe, layers, parts);
  }

  // ----- wheelhouse errors never block -----

  function Wheels(path: string): Part {
    EmptyPart.(components := Plain.(pipMode := WheelhouseOnly, wheelhousePath := path))
  }

  lemma {:induction false} WheelhouseReport(lib: Pep440, parts: seq<Sourced>)
    requires parts == [Sourced("layer:a", Wheels("/x")), Sourced("layer:b", Wheels("/y")), Sourced("recipe:r", EmptyPart)]
    ensures PushParts(lib, NoDeps, parts).Ok?
    ensures exists c :: c in PushParts(lib, NoDeps, parts).value.conflicts && c.severity == Error
  {
    assert Strip("/x") == "/x" && Strip("/y") == "/y" && Strip("") == "";
    assert "/x"[1] != "/y"[1];
    var st1 := PushPart(lib, NoDeps, parts[0]).value;
    var st2 := PushPart(lib, st1, parts[1]).value;
    var st3 := PushPart(lib, st2, parts[2]).value;
    assert parts[1..][0] == parts[1] && parts[1..][1..][0] == parts[2] && parts[1..][1..][1..] == [];
    assert PushParts(lib, st2, parts[1..][1..]) == Ok(st3);
    assert PushParts(lib, st1, parts[1..]) == Ok(st3);
    assert st3.conflicts[0] in st3.conflicts && st3.conflicts[0].severity == Error;
  }

  lemma {:induction false} WheelsValid(path: string)
    requires Strip(path) == path && path != ""
    ensures ValidPart(Wheels(path)) && ValidPart(EmptyPart)
  {
  }

  lemma {:induction false} NothingDeclared(parts: seq<Sourced>)
    requires |parts| == 3 && forall i :: 0 <= i < 3 ==> parts[i].part.components.pip == [] && parts[i].part.components.npm == []
    ensures Gather(PipE, parts) == [] && Gather(NpmE, parts) == []
  {
    GatherThree(PipE, parts);
    GatherThree(NpmE, parts);
    assert PipE(parts[0]) == PipE(parts[1]) == PipE(parts[2]) == [];
    assert NpmE(parts[0]) == NpmE(parts[1]) == NpmE(parts[2]) == [];
  }

  lemma {:induction false} WheelsCompose(lib: Pep440, recipe: Recipe, layers: seq<Layer>, x: string, y: string)
    requires Strip(x) == x && x != "" && Strip(y) == y && y != ""
    requires layers == [LayerOf("a", Wheels(x)), LayerOf("b", Wheels(y))] && recipe == RecipeOf(["a", "b"], EmptyPart)
    ensures Compose(lib, recipe, layers).Ok?
  {
    TwoParts(layers[0], layers[1], ["a", "b"], EmptyPart);
    WheelsValid(x);
    WheelsValid(y);
    NothingDeclared(PartsOf(recipe, layers));
    ChainsCompose(lib, recipe, layers, PartsOf(recipe, layers));
  }

  /** The report calls two wheelhouse-only paths an error; composition ignores it. */
  lemma {:induction false} WheelhouseErrorIsIgnored(lib: Pep440, recipe: Recipe, layers: seq<Layer>)
    requires layers == [LayerOf("a", Wheels("/x")), LayerOf("b", Wheels("/y"))]
    requires recipe == RecipeOf(["a", "b"], EmptyPart)
    ensures AnalyzeDependencies(lib, recipe, layers).Ok?
    ensures exists c :: c in AnalyzeDependencies(lib, recipe, layers).value && c.severity == Error
    ensures Compose(lib, recipe, layers).Ok?
  {
    assert Strip("/x") == "/x" && Strip("/y") == "/y";
    WheelsCompose(lib, recipe, layers, "/x", "/y");
    TwoParts(layers[0], layers[1], ["a", "b"], EmptyPart);
    assert "layer:" + "a" == "layer:a" && "layer:" + "b" == "layer:b";
    WheelhouseReport(lib, PartsOf(recipe, layers));
  }
}
