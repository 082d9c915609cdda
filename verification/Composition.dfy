/**
 Assembling a stack from a recipe and its layers: the merge performed by
 `compose_stack` and the loops that predict its conflicts.
 */
module Composition {
  import opened Basics
  import opened Specs
  import opened Ordering
  import PipConstraints

  type Pep440 = PipConstraints.Pep440

  datatype Severity = Warning | Error
  datatype Kind = Pip | Npm | Wheelhouse | Env | EntrypointCmd | BaseRole | Tuple
  datatype Conflict = Conflict(
    kind: Kind, name: string, severity: Severity, existing: string, incoming: string,
    existingSource: string, incomingSource: string)

  datatype ComposeError =
    | DuplicateLayer | UnknownLayer | PipConflict | NpmConflict | BadSpecifier
    | InvalidStack(reason: string)

  type Key = seq<string>

  function NpmKey(d: NpmDep): Key { [d.name, d.manager, d.scope] }
  function CopyKey(c: CopyItem): Key { [c.src, c.dst] }

  function EnvKey(entry: string): string {
    if entry == "" || entry[0] == '=' then "" else [entry[0]] + EnvKey(entry[1..])
  }

  function OrLatest(version: string): string { if version == "" then "latest" else version }

  // ----- layer references -----

  /** `{layer.id: layer for layer in layers}`: a later layer with the same id wins. */
  function ById(layers: seq<Layer>): map<string, Layer> {
    if layers == [] then map[] else ById(layers[..|layers| - 1])[layers[|layers| - 1].id := layers[|layers| - 1]]
  }

  /** The referenced layers in order; unknown references are skipped. */
  function Referenced(ids: seq<string>, byId: map<string, Layer>): seq<Layer> {
    if ids == [] then []
    else (if ids[0] in byId then [byId[ids[0]]] else []) + Referenced(ids[1..], byId)
  }

  /** A layer or the recipe, under the name used in conflict reports. */
  datatype Sourced = Sourced(source: string, part: Part)

  function Sources(recipe: Recipe, ordered: seq<Layer>): seq<Sourced> {
    Map((l: Layer) => Sourced("layer:" + l.id, l.part), ordered) + [Sourced("recipe:" + recipe.id, recipe.part)]
  }

  // ----- dependency analysis -----

  datatype SeenPip = SeenPip(version: string, source: string)
  datatype SeenNpm = SeenNpm(version: string, mode: VersionMode, source: string)
  datatype SeenWheel = SeenWheel(mode: WheelhouseMode, path: string, source: string)

  datatype DepState = DepState(
    pip: map<string, SeenPip>, npm: map<Key, SeenNpm>, wheel: Option<SeenWheel>, conflicts: seq<Conflict>)

  const NoDeps := DepState(map[], map[], None, [])

  function PushPip(lib: Pep440, st: DepState, dep: PipDep, source: string): Result<DepState, ComposeError> {
    var seen := st.(pip := st.pip[dep.name := SeenPip(dep.version, source)]);
    if dep.name !in st.pip then Ok(seen)
    else
      var prev := st.pip[dep.name];
      if prev.version == dep.version then Ok(st)
      else
        match PipConstraints.Compatible(lib, prev.version, dep.version)
        case Err(_) => Err(BadSpecifier)
        case Ok(compatible) =>
          Ok(seen.(conflicts := st.conflicts + [Conflict(
            Pip, dep.name, if compatible then Warning else Error,
            OrLatest(prev.version), OrLatest(dep.version), prev.source, source)]))
  }

  function PushNpm(st: DepState, dep: NpmDep, source: string): DepState {
    var incoming := if dep.mode == Custom then dep.version else "";
    var seen := st.(npm := st.npm[NpmKey(dep) := SeenNpm(incoming, dep.mode, source)]);
    if NpmKey(dep) !in st.npm then seen
    else
      var prev := st.npm[NpmKey(dep)];
      if prev.version == incoming && prev.mode == dep.mode then st
      else
        var hard := prev.mode == Custom && dep.mode == Custom && prev.version != incoming;
        seen.(conflicts := st.conflicts + [Conflict(
          Npm, dep.name, if hard then Error else Warning,
          OrLatest(prev.version), OrLatest(incoming), prev.source, source)])
  }

  function ModeName(m: WheelhouseMode): string {
    match m
    case Index => "index"
    case WheelhousePrefer => "wheelhouse_prefer"
    case WheelhouseOnly => "wheelhouse_only"
  }

  function WheelName(m: WheelhouseMode, path: string): string {
    ModeName(m) + ":" + (if path == "" then "-" else path)
  }

  function PushWheelhouse(st: DepState, mode: WheelhouseMode, rawPath: string, source: string): DepState {
    var path := Strip(rawPath);
    var seen := st.(wheel := Some(SeenWheel(mode, path, source)));
    match st.wheel
    case None => seen
    case Some(prev) =>
      if prev.mode == mode && prev.path == path then st
      else
        var hard := prev.mode == WheelhouseOnly && mode == WheelhouseOnly && prev.path != path;
        seen.(conflicts := st.conflicts + [Conflict(
          Wheelhouse, "pip_install_mode", if hard then Error else Warning,
          WheelName(prev.mode, prev.path), WheelName(mode, path), prev.source, source)])
  }

  function PushPips(lib: Pep440, st: DepState, deps: seq<PipDep>, source: string): Result<DepState, ComposeError>
    decreases deps
  {
    if deps == [] then Ok(st)
    else
      match PushPip(lib, st, deps[0], source)
      case Err(e) => Err(e)
      case Ok(st') => PushPips(lib, st', deps[1..], source)
  }

  function PushNpms(st: DepState, deps: seq<NpmDep>, source: string): DepState
    decreases deps
  {
    if deps == [] then st else PushNpms(PushNpm(st, deps[0], source), deps[1..], source)
  }

  function PushPart(lib: Pep440, st: DepState, s: Sourced): Result<DepState, ComposeError> {
    var c := s.part.components;
    match PushPips(lib, PushWheelhouse(st, c.pipMode, c.wheelhousePath, s.source), c.pip, s.source)
    case Err(e) => Err(e)
    case Ok(st') => Ok(PushNpms(st', c.npm, s.source))
  }

  function PushParts(lib: Pep440, st: DepState, parts: seq<Sourced>): Result<DepState, ComposeError>
    decreases parts
  {
    if parts == [] then Ok(st)
    else
      match PushPart(lib, st, parts[0])
      case Err(e) => Err(e)
      case Ok(st') => PushParts(lib, st', parts[1..])
  }

  /** `analyze_recipe_dependency_conflicts`. */
  function AnalyzeDependencies(lib: Pep440, recipe: Recipe, layers: seq<Layer>): Result<seq<Conflict>, ComposeError> {
    match PushParts(lib, NoDeps, Sources(recipe, Referenced(recipe.layers, ById(layers))))
    case Err(e) => Err(e)
    case Ok(st) => Ok(st.conflicts)
  }

  // ----- runtime analysis -----

  datatype Seen = Seen(value: string, source: string)
  datatype RunState = RunState(
    env: map<string, Seen>, entrypoint: Option<Seen>, role: Option<Seen>, conflicts: seq<Conflict>)

  const NoRuntime := RunState(map[], None, None, [])

  function Join(words: seq<string>): string {
    if words == [] then "" else if |words| == 1 then words[0] else words[0] + " " + Join(words[1..])
  }

  function PushEnv(st: RunState, entry: string, source: string): RunState {
    var key := EnvKey(entry);
    var seen := st.(env := st.env[key := Seen(entry, source)]);
    if key !in st.env then seen
    else if st.env[key].value == entry then st
    else seen.(conflicts := st.conflicts
               + [Conflict(Env, key, Warning, st.env[key].value, entry, st.env[key].source, source)])
  }

  function PushEntrypoint(st: RunState, cmd: Option<seq<string>>, source: string): RunState {
    match cmd
    case None => st
    case Some(words) =>
      var incoming := Join(words);
      var seen := st.(entrypoint := Some(Seen(incoming, source)));
      match st.entrypoint
      case None => seen
      case Some(prev) =>
        if prev.value == incoming then st
        else seen.(conflicts := st.conflicts
               + [Conflict(EntrypointCmd, "entrypoint.cmd", Warning, prev.value, incoming, prev.source, source)])
  }

  /** A base role that counts as set: neither missing nor empty. */
  predicate IsSet(role: Option<string>) { role.Some? && role.value != "" }

  function PushBaseRole(st: RunState, role: Option<string>, source: string): RunState {
    if !IsSet(role) then st
    else
      var seen := st.(role := Some(Seen(role.value, source)));
      match st.role
      case None => seen
      case Some(prev) =>
        if prev.value == role.value then st
        else seen.(conflicts := st.conflicts
               + [Conflict(BaseRole, "components.base_role", Warning, prev.value, role.value, prev.source, source)])
  }

  function PushEnvs(st: RunState, env: seq<string>, source: string): RunState
    decreases env
  {
    if env == [] then st else PushEnvs(PushEnv(st, env[0], source), env[1..], source)
  }

  function PushRuntime(st: RunState, s: Sourced): RunState {
    PushBaseRole(PushEntrypoint(PushEnvs(st, s.part.env, s.source), s.part.entrypoint, s.source),
                 s.part.components.baseRole, s.source)
  }

  function PushRuntimes(st: RunState, parts: seq<Sourced>): RunState
    decreases parts
  {
    if parts == [] then st else PushRuntimes(PushRuntime(st, parts[0]), parts[1..])
  }

  /** `analyze_recipe_runtime_conflicts`. */
  function AnalyzeRuntime(recipe: Recipe, layers: seq<Layer>): seq<Conflict> {
    PushRuntimes(NoRuntime, Sources(recipe, Referenced(recipe.layers, ById(layers)))).conflicts
  }

  // ----- tuple analysis -----

  const WATCHED := ["arch", "os_family_id", "os_version_id", "container_runtime", "gpu_vendor_id", "gpu_family_id"]

  datatype TupleState = TupleState(seen: map<string, Seen>, conflicts: seq<Conflict>)

  function PushNeed(st: TupleState, key: string, l: Layer): TupleState {
    var value := if key in l.needs then Strip(l.needs[key]) else "";
    var source := "layer:" + l.id;
    var seen := st.(seen := st.seen[key := Seen(value, source)]);
    if value == "" then st
    else if key !in st.seen then seen
    else if st.seen[key].value == value then st
    else seen.(conflicts := st.conflicts
               + [Conflict(Tuple, key, Error, st.seen[key].value, value, st.seen[key].source, source)])
  }

  function PushNeeds(st: TupleState, keys: seq<string>, l: Layer): TupleState
    decreases keys
  {
    if keys == [] then st else PushNeeds(PushNeed(st, keys[0], l), keys[1..], l)
  }

  function PushAllNeeds(st: TupleState, layers: seq<Layer>): TupleState
    decreases layers
  {
    if layers == [] then st else PushAllNeeds(PushNeeds(st, WATCHED, layers[0]), layers[1..])
  }

  /** `analyze_recipe_tuple_conflicts`. */
  function AnalyzeTuples(recipe: Recipe, layers: seq<Layer>): seq<Conflict> {
    PushAllNeeds(TupleState(map[], []), Referenced(recipe.layers, ById(layers))).conflicts
  }

  // ----- merging -----

  datatype Origin<T> = Origin(dep: T, source: string)

  datatype Accum = Accum(
    baseRole: string, buildStrategy: Option<BuildStrategy>, entrypoint: Option<seq<string>>,
    pipMode: WheelhouseMode, wheelhousePath: string, npmMode: NpmMode, aptMode: AptMode,
    pip: map<string, Origin<PipDep>>, npm: map<Key, Origin<NpmDep>>,
    apt: set<string>, aptConstraints: map<string, string>,
    env: map<string, string>, ports: set<int>, copies: map<Key, CopyItem>,
    variants: map<string, VariantDef>)

  function InitialAccum(recipe: Recipe): Accum {
    Accum("", recipe.part.buildStrategy, None, Index, "", FromSpec, Repo,
          map[], map[], {}, map[], map[], {}, map[], map[])
  }

  function MergePip(lib: Pep440, accum: map<string, Origin<PipDep>>, incoming: seq<PipDep>, source: string)
    : Result<map<string, Origin<PipDep>>, ComposeError>
    decreases incoming
  {
    if incoming == [] then Ok(accum)
    else
      var dep := incoming[0];
      var replaced := accum[dep.name := Origin(dep, source)];
      if dep.name !in accum then MergePip(lib, replaced, incoming[1..], source)
      else if accum[dep.name].dep.version == dep.version then MergePip(lib, accum, incoming[1..], source)
      else
        match PipConstraints.Compatible(lib, accum[dep.name].dep.version, dep.version)
        case Err(_) => Err(BadSpecifier)
        case Ok(compatible) =>
          if compatible then MergePip(lib, replaced, incoming[1..], source) else Err(PipConflict)
  }

  function MergeNpm(accum: map<Key, Origin<NpmDep>>, incoming: seq<NpmDep>, source: string)
    : Result<map<Key, Origin<NpmDep>>, ComposeError>
    decreases incoming
  {
    if incoming == [] then Ok(accum)
    else
      var dep := incoming[0];
      var key := NpmKey(dep);
      var replaced := accum[key := Origin(dep, source)];
      if key !in accum then MergeNpm(replaced, incoming[1..], source)
      else
        var prev := accum[key].dep;
        if prev.mode == dep.mode && prev.version == dep.version then MergeNpm(accum, incoming[1..], source)
        else if prev.mode == Custom && dep.mode == Custom && prev.version != dep.version then Err(NpmConflict)
        else MergeNpm(replaced, incoming[1..], source)
  }

  function MergeEnv(accum: map<string, string>, env: seq<string>): map<string, string>
    decreases env
  {
    if env == [] then accum else MergeEnv(accum[EnvKey(env[0]) := env[0]], env[1..])
  }

  function MergeCopies(accum: map<Key, CopyItem>, items: seq<CopyItem>): map<Key, CopyItem>
    decreases items
  {
    if items == [] then accum else MergeCopies(accum[CopyKey(items[0]) := items[0]], items[1..])
  }

  datatype Merged = Merged(pip: map<string, Origin<PipDep>>, npm: map<Key, Origin<NpmDep>>)

  function MergeBoth(lib: Pep440, pip: map<string, Origin<PipDep>>, npm: map<Key, Origin<NpmDep>>, s: Sourced): Result<Merged, ComposeError> {
    match MergePip(lib, pip, s.part.components.pip, s.source)
    case Err(e) => Err(e)
    case Ok(mergedPip) =>
      match MergeNpm(npm, s.part.components.npm, s.source)
      case Err(e) => Err(e)
      case Ok(mergedNpm) => Ok(Merged(mergedPip, mergedNpm))
  }

  /** The accumulators after a part whose dependencies merged. */
  function Taken(acc: Accum, p: Part, m: Merged): Accum {
    var c := p.components;
    Accum(
      if IsSet(c.baseRole) then c.baseRole.value else acc.baseRole,
      OrElse(p.buildStrategy, acc.buildStrategy),
      OrElse(p.entrypoint, acc.entrypoint),
      c.pipMode, c.wheelhousePath, c.npmMode, c.aptMode, m.pip, m.npm,
      acc.apt + (set x | x in c.apt), acc.aptConstraints + c.aptConstraints,
      MergeEnv(acc.env, p.env), acc.ports + (set x | x in p.ports),
      MergeCopies(acc.copies, p.copyItems), acc.variants + p.variants)
  }

  /** `_consume_layer`, and the recipe-level overrides applied after the layers. */
  function Consume(lib: Pep440, acc: Accum, s: Sourced): Result<Accum, ComposeError> {
    match MergeBoth(lib, acc.pip, acc.npm, s)
    case Err(e) => Err(e)
    case Ok(m) => Ok(Taken(acc, s.part, m))
  }

  function ConsumeAll(lib: Pep440, acc: Accum, parts: seq<Sourced>): Result<Accum, ComposeError>
    decreases parts
  {
    if parts == [] then Ok(acc)
    else
      match Consume(lib, acc, parts[0])
      case Err(e) => Err(e)
      case Ok(acc') => ConsumeAll(lib, acc', parts[1..])
  }

  // ----- the composed stack -----

  const DEFAULT_CMD := ["python", "-c", "import time; time.sleep(3600)"]

  predicate IntLe(a: int, b: int) { a <= b }

  function Values<K, V>(keys: seq<K>, m: map<K, V>): seq<V>
    requires forall k :: k in keys ==> k in m
  {
    seq(|keys|, i requires 0 <= i < |keys| => m[keys[i]])
  }

  function Deps<K, T>(m: map<K, Origin<T>>): map<K, T> {
    map k | k in m :: m[k].dep
  }

  /** The key listings `sorted(...)` produces for the accumulators. */
  datatype Listings = Listings(pip: seq<string>, npm: seq<Key>, apt: seq<string>, env: seq<string>, ports: seq<int>, copies: seq<Key>)

  ghost predicate ListingsOf(acc: Accum, l: Listings) {
    && SortedOf(StrLe, acc.pip.Keys, l.pip) && SortedOf(TupleLe, acc.npm.Keys, l.npm)
    && SortedOf(StrLe, acc.apt, l.apt) && SortedOf(StrLe, acc.env.Keys, l.env)
    && SortedOf(IntLe, acc.ports, l.ports) && SortedOf(TupleLe, acc.copies.Keys, l.copies)
  }

  predicate Lists(acc: Accum, l: Listings) {
    && (forall k :: k in l.pip ==> k in acc.pip) && (forall k :: k in l.npm ==> k in acc.npm)
    && (forall k :: k in l.env ==> k in acc.env) && (forall k :: k in l.copies ==> k in acc.copies)
  }

  /** The StackSpec constructor call, validators included. */
  function Build(recipe: Recipe, acc: Accum, l: Listings): Result<Stack, ComposeError>
    requires Lists(acc, l)
  {
    var role := if acc.baseRole == "" then "python" else acc.baseRole;
    var components := Components(
      Some(role), Values(l.pip, Deps(acc.pip)), Values(l.npm, Deps(acc.npm)), l.apt,
      acc.aptConstraints, acc.aptMode, acc.pipMode, acc.wheelhousePath, acc.npmMode);
    var copies := Values(l.copies, acc.copies);
    match ValidateComponents(components)
    case Err(reason) => Err(InvalidStack(reason))
    case Ok(validated) =>
      if !LockPolicyHolds(acc.npmMode, copies) then Err(InvalidStack("lock_only needs a lockfile"))
      else Ok(Stack(
        recipe.id, "custom", "custom", "custom", recipe.schemaVersion, acc.buildStrategy.GetOr(Overlay), validated,
        Values(l.env, acc.env), l.ports, acc.entrypoint.GetOr(DEFAULT_CMD), copies,
        acc.variants, recipe.layers, recipe.needs, recipe.capabilities, map[]))
  }

  lemma {:induction false} IntOrder()
    ensures TotalOrder(IntLe)
  {
  }

  ghost function ListingsFor(acc: Accum): (l: Listings)
    ensures ListingsOf(acc, l) && Lists(acc, l)
  {
    StrOrder(); TupleOrder(); IntOrder();
    Listings(Listing(StrLe, acc.pip.Keys), Listing(TupleLe, acc.npm.Keys), Listing(StrLe, acc.apt),
             Listing(StrLe, acc.env.Keys), Listing(IntLe, acc.ports), Listing(TupleLe, acc.copies.Keys))
  }

  /** `compose_stack`. */
  ghost function Compose(lib: Pep440, recipe: Recipe, layers: seq<Layer>): Result<Stack, ComposeError> {
    var byId := ById(layers);
    if !Distinct(recipe.layers) then Err(DuplicateLayer)
    else if exists id :: id in recipe.layers && id !in byId then Err(UnknownLayer)
    else
      match ConsumeAll(lib, InitialAccum(recipe), Sources(recipe, Referenced(recipe.layers, byId)))
      case Err(e) => Err(e)
      case Ok(acc) => Build(recipe, acc, ListingsFor(acc))
  }

  /** Whoever sorts the keys, the listing is the same. */
  lemma {:induction false} ListingsUnique(acc: Accum, l: Listings)
    requires ListingsOf(acc, l)
    ensures l == ListingsFor(acc)
  {
    StrOrder(); TupleOrder(); IntOrder();
    var m := ListingsFor(acc);
    SortedOfUnique(StrLe, acc.pip.Keys, l.pip, m.pip);
    SortedOfUnique(TupleLe, acc.npm.Keys, l.npm, m.npm);
    SortedOfUnique(StrLe, acc.apt, l.apt, m.apt);
    SortedOfUnique(StrLe, acc.env.Keys, l.env, m.env);
    SortedOfUnique(IntLe, acc.ports, l.ports, m.ports);
    SortedOfUnique(TupleLe, acc.copies.Keys, l.copies, m.copies);
  }
}
