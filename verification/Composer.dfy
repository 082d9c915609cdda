/**
 The loops of the composition engine as they run: dictionaries filled in place,
 conflicts appended, and the first bad merge ending the call.
 */
module Composer {
  import opened Basics
  import opened Specs
  import opened Ordering
  import opened Composition
  import PipConstraints

  /** The working state of `analyze_recipe_dependency_conflicts`. */
  class DependencyAnalyzer {
    const lib: Pep440
    var pipSeen: map<string, SeenPip>
    var npmSeen: map<Key, SeenNpm>
    var wheelhouseSeen: Option<SeenWheel>
    var conflicts: seq<Conflict>

    function State(): DepState
      reads this
    {
      DepState(pipSeen, npmSeen, wheelhouseSeen, conflicts)
    }

    constructor (lib: Pep440)
      ensures State() == NoDeps && this.lib == lib
    {
      this.lib := lib;
      pipSeen, npmSeen, wheelhouseSeen, conflicts := map[], map[], None, [];
    }

    method PushOnePip(dep: PipDep, source: string) returns (ok: bool)
      modifies this
      ensures ok <==> PushPip(lib, old(State()), dep, source).Ok?
      ensures ok ==> PushPip(lib, old(State()), dep, source) == Ok(State())
    {
      if dep.name !in pipSeen {
        pipSeen := pipSeen[dep.name := SeenPip(dep.version, source)];
        return true;
      }
      var prev := pipSeen[dep.name];
      if prev.version == dep.version { return true; }
      var compatible := PipConstraints.Compatible(lib, prev.version, dep.version);
      if compatible.Err? { return false; }
      conflicts := conflicts + [Conflict(
        Pip, dep.name, if compatible.value then Warning else Error,
        OrLatest(prev.version), OrLatest(dep.version), prev.source, source)];
      pipSeen := pipSeen[dep.name := SeenPip(dep.version, source)];
      return true;
    }

    method PushOneNpm(dep: NpmDep, source: string)
      modifies this
      ensures State() == PushNpm(old(State()), dep, source)
    {
      var key := NpmKey(dep);
      var incoming := if dep.mode == Custom then dep.version else "";
      if key !in npmSeen {
        npmSeen := npmSeen[key := SeenNpm(incoming, dep.mode, source)];
        return;
      }
      var prev := npmSeen[key];
      if prev.version == incoming && prev.mode == dep.mode { return; }
      var hard := prev.mode == Custom && dep.mode == Custom && prev.version != incoming;
      conflicts := conflicts + [Conflict(
        Npm, dep.name, if hard then Error else Warning,
        OrLatest(prev.version), OrLatest(incoming), prev.source, source)];
      npmSeen := npmSeen[key := SeenNpm(incoming, dep.mode, source)];
    }

    method PushOneWheelhouse(mode: WheelhouseMode, rawPath: string, source: string)
      modifies this
      ensures State() == PushWheelhouse(old(State()), mode, rawPath, source)
    {
      var path := Strip(rawPath);
      if wheelhouseSeen.Some? {
        var prev := wheelhouseSeen.value;
        if prev.mode == mode && prev.path == path { return; }
        var hard := prev.mode == WheelhouseOnly && mode == WheelhouseOnly && prev.path != path;
        conflicts := conflicts + [Conflict(
          Wheelhouse, "pip_install_mode", if hard then Error else Warning,
          WheelName(prev.mode, prev.path), WheelName(mode, path), prev.source, source)];
      }
      wheelhouseSeen := Some(SeenWheel(mode, path, source));
    }

    method PushOnePart(s: Sourced) returns (ok: bool)
      modifies this
      ensures ok <==> PushPart(lib, old(State()), s).Ok?
      ensures ok ==> PushPart(lib, old(State()), s) == Ok(State())
    {
      var c := s.part.components;
      PushOneWheelhouse(c.pipMode, c.wheelhousePath, s.source);
      ghost var start := State();
      for i := 0 to |c.pip|
        invariant PushPips(lib, State(), c.pip[i..], s.source) == PushPips(lib, start, c.pip, s.source)
      {
        ok := PushOnePip(c.pip[i], s.source);
        if !ok { return; }
        assert c.pip[i..][1..] == c.pip[i + 1..];
      }
      ghost var pips := State();
      for i := 0 to |c.npm|
        invariant PushNpms(State(), c.npm[i..], s.source) == PushNpms(pips, c.npm, s.source)
      {
        PushOneNpm(c.npm[i], s.source);
        assert c.npm[i..][1..] == c.npm[i + 1..];
      }
      ok := true;
    }
  }

  method OrderedLayers(ids: seq<string>, layers: seq<Layer>) returns (ordered: seq<Layer>, known: bool)
    ensures ordered == Referenced(ids, ById(layers))
    ensures known <==> forall id :: id in ids ==> id in ById(layers)
  {
    var byId := IndexLayers(layers);
    ordered, known := PickLayers(ids, byId);
  }

  method IndexLayers(layers: seq<Layer>) returns (byId: map<string, Layer>)
    ensures byId == ById(layers)
  {
    byId := map[];
    for i := 0 to |layers|
      invariant byId == ById(layers[..i])
    {
      assert layers[..i + 1][..i] == layers[..i];
      byId := byId[layers[i].id := layers[i]];
    }
    assert layers[..|layers|] == layers;
  }

  method PickLayers(ids: seq<string>, byId: map<string, Layer>) returns (ordered: seq<Layer>, known: bool)
    ensures ordered == Referenced(ids, byId)
    ensures known <==> forall id :: id in ids ==> id in byId
  {
    ordered, known := [], true;
    for i := 0 to |ids|
      invariant ordered + Referenced(ids[i..], byId) == Referenced(ids, byId)
      invariant known <==> forall j :: 0 <= j < i ==> ids[j] in byId
    {
      assert ids[i..][0] == ids[i] && ids[i..][1..] == ids[i + 1..];
      if ids[i] in byId {
        ordered := ordered + [byId[ids[i]]];
      } else {
        known := false;
      }
    }
    assert ids[|ids|..] == [];
  }

  /** `analyze_recipe_dependency_conflicts`. */
  method ReportDependencies(lib: Pep440, recipe: Recipe, layers: seq<Layer>) returns (r: Result<seq<Conflict>, ComposeError>)
    ensures r.Ok? <==> AnalyzeDependencies(lib, recipe, layers).Ok?
    ensures r.Ok? ==> r == AnalyzeDependencies(lib, recipe, layers)
  {
    var ordered, _ := OrderedLayers(recipe.layers, layers);
    var parts := Sources(recipe, ordered);
    var analyzer := new DependencyAnalyzer(lib);
    for i := 0 to |parts|
      invariant analyzer.lib == lib
      invariant PushParts(lib, analyzer.State(), parts[i..]) == PushParts(lib, NoDeps, parts)
    {
      var ok := analyzer.PushOnePart(parts[i]);
      if !ok { return Err(BadSpecifier); }
      assert parts[i..][1..] == parts[i + 1..];
    }
    r := Ok(analyzer.conflicts);
  }

  /** The working state of `analyze_recipe_runtime_conflicts`. */
  class RuntimeAnalyzer {
    var envSeen: map<string, Seen>
    var entrypointSeen: Option<Seen>
    var baseRoleSeen: Option<Seen>
    var conflicts: seq<Conflict>

    function State(): RunState
      reads this
    {
      RunState(envSeen, entrypointSeen, baseRoleSeen, conflicts)
    }

    constructor ()
      ensures State() == NoRuntime
    {
      envSeen, entrypointSeen, baseRoleSeen, conflicts := map[], None, None, [];
    }

    method PushOneEnv(entry: string, source: string)
      modifies this
      ensures State() == PushEnv(old(State()), entry, source)
    {
      var key := EnvKey(entry);
      if key in envSeen {
        var prev := envSeen[key];
        if prev.value == entry { return; }
        conflicts := conflicts + [Conflict(Env, key, Warning, prev.value, entry, prev.source, source)];
      }
      envSeen := envSeen[key := Seen(entry, source)];
    }

    method PushOneEntrypoint(cmd: Option<seq<string>>, source: string)
      modifies this
      ensures State() == PushEntrypoint(old(State()), cmd, source)
    {
      if cmd.None? { return; }
      var incoming := Join(cmd.value);
      if entrypointSeen.Some? {
        var prev := entrypointSeen.value;
        if prev.value == incoming { return; }
        conflicts := conflicts + [Conflict(EntrypointCmd, "entrypoint.cmd", Warning, prev.value, incoming, prev.source, source)];
      }
      entrypointSeen := Some(Seen(incoming, source));
    }

    method PushOneBaseRole(role: Option<string>, source: string)
      modifies this
      ensures State() == PushBaseRole(old(State()), role, source)
    {
      if !IsSet(role) { return; }
      if baseRoleSeen.Some? {
        var prev := baseRoleSeen.value;
        if prev.value == role.value { return; }
        conflicts := conflicts + [Conflict(BaseRole, "components.base_role", Warning, prev.value, role.value, prev.source, source)];
      }
      baseRoleSeen := Some(Seen(role.value, source));
    }

    method PushOneRuntime(s: Sourced)
      modifies this
      ensures State() == PushRuntime(old(State()), s)
    {
      for i := 0 to |s.part.env|
        invariant PushEnvs(State(), s.part.env[i..], s.source) == PushEnvs(old(State()), s.part.env, s.source)
      {
        PushOneEnv(s.part.env[i], s.source);
        assert s.part.env[i..][1..] == s.part.env[i + 1..];
      }
      PushOneEntrypoint(s.part.entrypoint, s.source);
      PushOneBaseRole(s.part.components.baseRole, s.source);
    }
  }

  /** `analyze_recipe_runtime_conflicts`. */
  method ReportRuntime(recipe: Recipe, layers: seq<Layer>) returns (r: seq<Conflict>)
    ensures r == AnalyzeRuntime(recipe, layers)
  {
    var ordered, _ := OrderedLayers(recipe.layers, layers);
    var parts := Sources(recipe, ordered);
    var analyzer := new RuntimeAnalyzer();
    for i := 0 to |parts|
      invariant PushRuntimes(analyzer.State(), parts[i..]) == PushRuntimes(NoRuntime, parts)
    {
      analyzer.PushOneRuntime(parts[i]);
      assert parts[i..][1..] == parts[i + 1..];
    }
    r := analyzer.conflicts;
  }

  /** `analyze_recipe_tuple_conflicts`. */
  method ReportTuples(recipe: Recipe, layers: seq<Layer>) returns (r: seq<Conflict>)
    ensures r == AnalyzeTuples(recipe, layers)
  {
    var ordered, _ := OrderedLayers(recipe.layers, layers);
    var seen: map<string, Seen> := map[];
    r := [];
    for i := 0 to |ordered|
      invariant PushAllNeeds(TupleState(seen, r), ordered[i..]) == PushAllNeeds(TupleState(map[], []), ordered)
    {
      var l := ordered[i];
      ghost var start := TupleState(seen, r);
      assert ordered[i..][1..] == ordered[i + 1..];
      for j := 0 to |WATCHED|
        invariant PushNeeds(TupleState(seen, r), WATCHED[j..], l) == PushNeeds(start, WATCHED, l)
      {
        var key := WATCHED[j];
        assert WATCHED[j..][0] == key && WATCHED[j..][1..] == WATCHED[j + 1..];
        var value := if key in l.needs then Strip(l.needs[key]) else "";
        var source := "layer:" + l.id;
        if value == "" { continue; }
        if key in seen {
          if seen[key].value == value { continue; }
          r := r + [Conflict(Tuple, key, Error, seen[key].value, value, seen[key].source, source)];
        }
        seen := seen[key := Seen(value, source)];
      }
    }
  }

  /** `_merge_pip`; stops at the first incompatible pair. */
  method MergePipInto(lib: Pep440, start: map<string, Origin<PipDep>>, incoming: seq<PipDep>, source: string)
    returns (r: Result<map<string, Origin<PipDep>>, ComposeError>)
    ensures r == MergePip(lib, start, incoming, source)
  {
    var accum := start;
    for i := 0 to |incoming|
      invariant MergePip(lib, accum, incoming[i..], source) == MergePip(lib, start, incoming, source)
    {
      var dep := incoming[i];
      assert incoming[i..][1..] == incoming[i + 1..];
      if dep.name in accum {
        var prev := accum[dep.name];
        if prev.dep.version == dep.version { continue; }
        var compatible := PipConstraints.Compatible(lib, prev.dep.version, dep.version);
        if compatible.Err? { return Err(BadSpecifier); }
        if !compatible.value { return Err(PipConflict); }
      }
      accum := accum[dep.name := Origin(dep, source)];
    }
    r := Ok(accum);
  }

  /** `_merge_npm`; stops at the first pair of different custom versions. */
  method MergeNpmInto(start: map<Key, Origin<NpmDep>>, incoming: seq<NpmDep>, source: string)
    returns (r: Result<map<Key, Origin<NpmDep>>, ComposeError>)
    ensures r == MergeNpm(start, incoming, source)
  {
    var accum := start;
    for i := 0 to |incoming|
      invariant MergeNpm(accum, incoming[i..], source) == MergeNpm(start, incoming, source)
    {
      var dep := incoming[i];
      var key := NpmKey(dep);
      assert incoming[i..][1..] == incoming[i + 1..];
      if key in accum {
        var prev := accum[key];
        if prev.dep.mode == dep.mode && prev.dep.version == dep.version { continue; }
        if prev.dep.mode == Custom && dep.mode == Custom && prev.dep.version != dep.version { return Err(NpmConflict); }
      }
      accum := accum[key := Origin(dep, source)];
    }
    r := Ok(accum);
  }

  /** The accumulators of `compose_stack`, which its inner function rebinds. */
  class StackComposer {
    const lib: Pep440
    var baseRole: string
    var buildStrategy: Option<BuildStrategy>
    var entrypoint: Option<seq<string>>
    var pipMode: WheelhouseMode
    var wheelhousePath: string
    var npmMode: NpmMode
    var aptMode: AptMode
    var pip: map<string, Origin<PipDep>>
    var npm: map<Key, Origin<NpmDep>>
    var apt: set<string>
    var aptConstraints: map<string, string>
    var env: map<string, string>
    var ports: set<int>
    var copies: map<Key, CopyItem>
    var variants: map<string, VariantDef>

    function State(): Accum
      reads this
    {
      Accum(baseRole, buildStrategy, entrypoint, pipMode, wheelhousePath, npmMode, aptMode,
            pip, npm, apt, aptConstraints, env, ports, copies, variants)
    }

    constructor (lib: Pep440, recipe: Recipe)
      ensures State() == InitialAccum(recipe) && this.lib == lib
    {
      this.lib := lib;
      baseRole, buildStrategy, entrypoint := "", recipe.part.buildStrategy, None;
      pipMode, wheelhousePath, npmMode, aptMode := Index, "", FromSpec, Repo;
      pip, npm, apt, aptConstraints := map[], map[], {}, map[];
      env, ports, copies, variants := map[], {}, map[], map[];
    }

    method TakeScalars(p: Part)
      modifies `baseRole, `buildStrategy, `entrypoint, `pipMode, `wheelhousePath, `npmMode, `aptMode
      ensures baseRole == if IsSet(p.components.baseRole) then p.components.baseRole.value else old(baseRole)
      ensures buildStrategy == OrElse(p.buildStrategy, old(buildStrategy))
      ensures entrypoint == OrElse(p.entrypoint, old(entrypoint))
      ensures pipMode == p.components.pipMode && wheelhousePath == p.components.wheelhousePath
      ensures npmMode == p.components.npmMode && aptMode == p.components.aptMode
    {
      if IsSet(p.components.baseRole) { baseRole := p.components.baseRole.value; }
      if p.buildStrategy.Some? { buildStrategy := p.buildStrategy; }
      if p.entrypoint.Some? { entrypoint := p.entrypoint; }
      pipMode, wheelhousePath := p.components.pipMode, p.components.wheelhousePath;
      npmMode, aptMode := p.components.npmMode, p.components.aptMode;
    }

    method TakePackages(p: Part)
      modifies `apt, `aptConstraints, `ports, `variants
      ensures apt == old(apt) + (set x | x in p.components.apt)
      ensures aptConstraints == old(aptConstraints) + p.components.aptConstraints
      ensures ports == old(ports) + (set x | x in p.ports)
      ensures variants == old(variants) + p.variants
    {
      for i := 0 to |p.components.apt|
        invariant apt == old(apt) + (set x | x in p.components.apt[..i])
        invariant aptConstraints == old(aptConstraints) && ports == old(ports) && variants == old(variants)
      {
        apt := apt + {p.components.apt[i]};
      }
      for i := 0 to |p.ports|
        invariant apt == old(apt) + (set x | x in p.components.apt)
        invariant ports == old(ports) + (set x | x in p.ports[..i])
        invariant aptConstraints == old(aptConstraints) && variants == old(variants)
      {
        ports := ports + {p.ports[i]};
      }
      aptConstraints := aptConstraints + p.components.aptConstraints;
      variants := variants + p.variants;
    }

    method TakeFiles(p: Part)
      modifies `copies, `env
      ensures copies == MergeCopies(old(copies), p.copyItems)
      ensures env == MergeEnv(old(env), p.env)
    {
      for i := 0 to |p.copyItems|
        invariant MergeCopies(copies, p.copyItems[i..]) == MergeCopies(old(copies), p.copyItems) && env == old(env)
      {
        copies := copies[CopyKey(p.copyItems[i]) := p.copyItems[i]];
        assert p.copyItems[i..][1..] == p.copyItems[i + 1..];
      }
      for i := 0 to |p.env|
        invariant MergeEnv(env, p.env[i..]) == MergeEnv(old(env), p.env) && copies == MergeCopies(old(copies), p.copyItems)
      {
        env := env[EnvKey(p.env[i]) := p.env[i]];
        assert p.env[i..][1..] == p.env[i + 1..];
      }
    }

    method MergeDependencies(s: Sourced) returns (r: Result<Merged, ComposeError>)
      modifies `pip, `npm
      ensures r == MergeBoth(lib, old(pip), old(npm), s)
      ensures r.Ok? ==> r.value == Merged(pip, npm)
    {
      var mergedPip := MergePipInto(lib, pip, s.part.components.pip, s.source);
      if mergedPip.Err? { return Err(mergedPip.error); }
      pip := mergedPip.value;
      var mergedNpm := MergeNpmInto(npm, s.part.components.npm, s.source);
      if mergedNpm.Err? { return Err(mergedNpm.error); }
      npm := mergedNpm.value;
      r := Ok(Merged(pip, npm));
    }

    /** `_consume_layer`, and the same steps for the recipe itself. */
    method ConsumePart(s: Sourced) returns (r: Result<(), ComposeError>)
      modifies this
      ensures r.Ok? ==> Consume(lib, old(State()), s) == Ok(State())
      ensures r.Err? ==> Consume(lib, old(State()), s) == Err(r.error)
    {
      ghost var before := State();
      TakeScalars(s.part);
      var merged := MergeDependencies(s);
      if merged.Err? { return Err(merged.error); }
      TakeRest(s.part, before);
      r := Ok(());
    }

    method TakeRest(p: Part, ghost before: Accum)
      requires before.apt == apt && before.aptConstraints == aptConstraints && before.env == env
      requires before.ports == ports && before.copies == copies && before.variants == variants
      requires baseRole == if IsSet(p.components.baseRole) then p.components.baseRole.value else before.baseRole
      requires buildStrategy == OrElse(p.buildStrategy, before.buildStrategy) && entrypoint == OrElse(p.entrypoint, before.entrypoint)
      requires pipMode == p.components.pipMode && wheelhousePath == p.components.wheelhousePath
      requires npmMode == p.components.npmMode && aptMode == p.components.aptMode
      modifies `apt, `aptConstraints, `ports, `variants, `copies, `env
      ensures State() == Taken(before, p, Merged(old(pip), old(npm)))
    {
      TakePackages(p);
      TakeFiles(p);
      TakenTogether(before, p, State());
    }
  }

  lemma {:induction false} TakenTogether(acc: Accum, p: Part, after: Accum)
    requires after.baseRole == if IsSet(p.components.baseRole) then p.components.baseRole.value else acc.baseRole
    requires after.buildStrategy == OrElse(p.buildStrategy, acc.buildStrategy)
    requires after.entrypoint == OrElse(p.entrypoint, acc.entrypoint)
    requires after.pipMode == p.components.pipMode && after.wheelhousePath == p.components.wheelhousePath
    requires after.npmMode == p.components.npmMode && after.aptMode == p.components.aptMode
    requires after.apt == acc.apt + (set x | x in p.components.apt)
    requires after.aptConstraints == acc.aptConstraints + p.components.aptConstraints
    requires after.env == MergeEnv(acc.env, p.env)
    requires after.ports == acc.ports + (set x | x in p.ports)
    requires after.copies == MergeCopies(acc.copies, p.copyItems)
    requires after.variants == acc.variants + p.variants
    ensures after == Taken(acc, p, Merged(after.pip, after.npm))
  {
  }

  method HasDuplicate(ids: seq<string>) returns (duplicate: bool)
    ensures duplicate <==> !Distinct(ids)
  {
    var seen: set<string> := {};
    for i := 0 to |ids|
      invariant seen == set id | id in ids[..i]
      invariant Distinct(ids[..i])
    {
      if ids[i] in seen {
        var j :| 0 <= j < i && ids[j] == ids[i];
        return true;
      }
      seen := seen + {ids[i]};
    }
    assert ids[..|ids|] == ids;
    duplicate := false;
  }

  method SortedListings(acc: Accum) returns (l: Listings)
    ensures ListingsOf(acc, l)
  {
    StrOrder(); TupleOrder(); IntOrder();
    var pip := SortKeys(StrLe, acc.pip.Keys);
    var npm := SortKeys(TupleLe, acc.npm.Keys);
    var apt := SortKeys(StrLe, acc.apt);
    var env := SortKeys(StrLe, acc.env.Keys);
    var ports := SortKeys(IntLe, acc.ports);
    var copies := SortKeys(TupleLe, acc.copies.Keys);
    l := Listings(pip, npm, apt, env, ports, copies);
  }

  /** The loop of `compose_stack` over the layers, and the recipe as its last part. */
  method ConsumeParts(lib: Pep440, recipe: Recipe, parts: seq<Sourced>) returns (r: Result<Accum, ComposeError>)
    ensures r == ConsumeAll(lib, InitialAccum(recipe), parts)
  {
    var composer := new StackComposer(lib, recipe);
    for i := 0 to |parts|
      invariant composer.lib == lib
      invariant ConsumeAll(lib, composer.State(), parts[i..]) == ConsumeAll(lib, InitialAccum(recipe), parts)
    {
      var step := composer.ConsumePart(parts[i]);
      if step.Err? { return Err(step.error); }
      assert parts[i..][1..] == parts[i + 1..];
    }
    r := Ok(composer.State());
  }

  /** `compose_stack`: the loops compute exactly `Compose`. */
  method ComposeStack(lib: Pep440, recipe: Recipe, layers: seq<Layer>) returns (r: Result<Stack, ComposeError>)
    ensures r == Compose(lib, recipe, layers)
  {
    var duplicate := HasDuplicate(recipe.layers);
    if duplicate { return Err(DuplicateLayer); }
    var ordered, known := OrderedLayers(recipe.layers, layers);
    if !known { return Err(UnknownLayer); }
    var merged := ConsumeParts(lib, recipe, Sources(recipe, ordered));
    if merged.Err? { return Err(merged.error); }
    var listings := SortedListings(merged.value);
    ListingsUnique(merged.value, listings);
    r := Build(recipe, merged.value, listings);
  }
}
