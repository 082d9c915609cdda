/** Every entry of a conflict report tells of two declarations that are really there, the earlier one first. */
module ReportEntries {
  import opened Basics
  import opened Specs
  import opened LastWriter
  import opened Composition
  import opened ConflictReports
  import opened CompositionTheorems
  import PipConstraints

  datatype Said = Word(text: string) | NpmVersion(version: string, mode: VersionMode) | Wheels(install: WheelhouseMode, path: string)

  /** One declaration: what it is about, under which name, what it says, how the report shows that, and who says it. */
  datatype Told = Told(kind: Kind, slot: Key, name: string, value: Said, shown: string, source: string)

  predicate Alike(a: Told, b: Told) { a.kind == b.kind && a.slot == b.slot }

  /**
   What two different declarations amount to: an error where pip specifiers exclude each
   other, two custom npm versions differ, two installs from wheelhouses alone differ, or two
   layers ask for different tuples; else a warning.
   */
  function Gravity(lib: Pep440, a: Told, b: Told): Severity {
    match (a.value, b.value)
    case (Word(x), Word(y)) =>
      if b.kind == Tuple || (b.kind == Pip && PipConstraints.Compatible(lib, x, y) != Ok(true)) then Error else Warning
    case (NpmVersion(_, m), NpmVersion(_, n)) => if m == n == Custom then Error else Warning
    case (Wheels(m, _), Wheels(n, _)) => if m == n == WheelhouseOnly then Error else Warning
    case _ => Warning
  }

  /** The entry tells of `ds[i]` and the later, different `ds[j]`, with nothing different about it between them. */
  ghost predicate Tells(lib: Pep440, ds: seq<Told>, c: Conflict, i: nat, j: nat) {
    && i < j < |ds| && Alike(ds[i], ds[j]) && ds[i].value != ds[j].value
    && (forall k :: i < k < j && Alike(ds[k], ds[i]) ==> ds[k].value == ds[i].value)
    && c == Conflict(ds[j].kind, ds[j].name, Gravity(lib, ds[i], ds[j]), ds[i].shown, ds[j].shown, ds[i].source, ds[j].source)
  }

  ghost predicate True(lib: Pep440, ds: seq<Told>, c: Conflict) { exists i: nat, j: nat :: Tells(lib, ds, c, i, j) }

  /** `d` was told, and nothing different about it since. */
  ghost predicate Known(ds: seq<Told>, d: Told) {
    exists i: nat :: i < |ds| && ds[i] == d && forall k :: i < k < |ds| && Alike(ds[k], d) ==> ds[k].value == d.value
  }

  lemma {:induction false} StaysKnown(ds: seq<Told>, d: Told, next: Told)
    requires Known(ds, d) && (Alike(next, d) ==> next.value == d.value)
    ensures Known(ds + [next], d)
  {
    var i: nat :| i < |ds| && ds[i] == d && forall k :: i < k < |ds| && Alike(ds[k], d) ==> ds[k].value == d.value;
    assert (ds + [next])[i] == d;
  }

  lemma {:induction false} JustTold(ds: seq<Told>, d: Told)
    ensures Known(ds + [d], d)
  {
    assert (ds + [d])[|ds|] == d;
  }

  lemma {:induction false} Regrouped<T>(a: seq<T>, b: seq<T>, c: seq<T>)
    ensures (a + b) + c == a + (b + c)
  {
  }

  lemma {:induction false} StaysTrue(lib: Pep440, ds: seq<Told>, c: Conflict, next: Told)
    requires True(lib, ds, c)
    ensures True(lib, ds + [next], c)
  {
    var i: nat, j: nat :| Tells(lib, ds, c, i, j);
    assert Tells(lib, ds + [next], c, i, j);
  }

  /** A known declaration and a different one make a true entry. */
  lemma {:induction false} NewEntry(lib: Pep440, ds: seq<Told>, d: Told, next: Told)
    requires Known(ds, d) && Alike(d, next) && d.value != next.value
    ensures True(lib, ds + [next], Conflict(next.kind, next.name, Gravity(lib, d, next), d.shown, next.shown, d.source, next.source))
  {
    var i: nat :| i < |ds| && ds[i] == d && forall k :: i < k < |ds| && Alike(ds[k], d) ==> ds[k].value == d.value;
    assert Tells(lib, ds + [next], Conflict(next.kind, next.name, Gravity(lib, d, next), d.shown, next.shown, d.source, next.source), i, |ds|);
  }

  ghost predicate AllTrue(lib: Pep440, ds: seq<Told>, cs: seq<Conflict>) { forall c :: c in cs ==> True(lib, ds, c) }

  lemma {:induction false} StayTrue(lib: Pep440, ds: seq<Told>, cs: seq<Conflict>, next: Told)
    requires AllTrue(lib, ds, cs)
    ensures AllTrue(lib, ds + [next], cs)
  {
    forall c | c in cs ensures True(lib, ds + [next], c) { StaysTrue(lib, ds, c, next); }
  }

  lemma {:induction false} OneMore(lib: Pep440, ds: seq<Told>, cs: seq<Conflict>, d: Told, next: Told)
    requires AllTrue(lib, ds, cs) && Known(ds, d) && Alike(d, next) && d.value != next.value
    ensures AllTrue(lib, ds + [next], cs + [Conflict(next.kind, next.name, Gravity(lib, d, next), d.shown, next.shown, d.source, next.source)])
  {
    StayTrue(lib, ds, cs, next);
    NewEntry(lib, ds, d, next);
  }

  // ----- the dependency report -----

  function Latest(version: string): string { if version == "" then "latest" else version }
  function Dashed(path: string): string { if path == "" then "-" else path }

  function WheelWord(m: WheelhouseMode): string {
    match m
    case Index => "index"
    case WheelhousePrefer => "wheelhouse_prefer"
    case WheelhouseOnly => "wheelhouse_only"
  }

  function PipTold(name: string, version: string, source: string): Told {
    Told(Pip, [name], name, Word(version), Latest(version), source)
  }

  /** A version that is not custom counts as none. */
  function NpmTold(slot: Key, name: string, version: string, mode: VersionMode, source: string): Told {
    Told(Npm, slot, name, NpmVersion(version, mode), Latest(version), source)
  }

  function WheelTold(mode: WheelhouseMode, path: string, source: string): Told {
    Told(Wheelhouse, [], "pip_install_mode", Wheels(mode, path), WheelWord(mode) + ":" + Dashed(path), source)
  }

  function PipsTold(ds: seq<PipDep>, source: string): seq<Told> { Map((d: PipDep) => PipTold(d.name, d.version, source), ds) }

  function OneNpmTold(d: NpmDep, source: string): Told {
    NpmTold([d.name, d.manager, d.scope], d.name, if d.mode == Custom then d.version else "", d.mode, source)
  }

  function NpmsTold(ds: seq<NpmDep>, source: string): seq<Told> { Map((d: NpmDep) => OneNpmTold(d, source), ds) }

  /** A part tells its wheelhouse setting, then its pip and its npm packages. */
  function DepsTold(s: Sourced): seq<Told> {
    var c := s.part.components;
    [WheelTold(c.pipMode, Strip(c.wheelhousePath), s.source)] + PipsTold(c.pip, s.source) + NpmsTold(c.npm, s.source)
  }

  function AllDepsTold(parts: seq<Sourced>): seq<Told> { if parts == [] then [] else DepsTold(parts[0]) + AllDepsTold(parts[1..]) }

  /** The analyzer remembers what was told last of everything, and has reported nothing untrue. */
  ghost predicate Remembers(lib: Pep440, st: DepState, ds: seq<Told>) {
    && AllTrue(lib, ds, st.conflicts)
    && (forall k :: k in st.pip ==> Known(ds, PipTold(k, st.pip[k].version, st.pip[k].source)))
    && (forall k :: k in st.npm ==> k != [] && Known(ds, NpmTold(k, k[0], st.npm[k].version, st.npm[k].mode, st.npm[k].source)))
    && (st.wheel.Some? ==> Known(ds, WheelTold(st.wheel.value.mode, st.wheel.value.path, st.wheel.value.source)))
  }

  lemma {:induction false} OthersStay(lib: Pep440, st: DepState, ds: seq<Told>, d: Told)
    requires Remembers(lib, st, ds)
    ensures forall k :: k in st.pip && (Alike(d, PipTold(k, "", "")) ==> d.value == Word(st.pip[k].version)) ==>
      Known(ds + [d], PipTold(k, st.pip[k].version, st.pip[k].source))
    ensures forall k :: k in st.npm && (d.kind == Npm && d.slot == k ==> d.value == NpmVersion(st.npm[k].version, st.npm[k].mode)) ==>
      Known(ds + [d], NpmTold(k, k[0], st.npm[k].version, st.npm[k].mode, st.npm[k].source))
    ensures st.wheel.Some? && d.kind != Wheelhouse ==> Known(ds + [d], WheelTold(st.wheel.value.mode, st.wheel.value.path, st.wheel.value.source))
  {
    forall k | k in st.pip && (Alike(d, PipTold(k, "", "")) ==> d.value == Word(st.pip[k].version))
      ensures Known(ds + [d], PipTold(k, st.pip[k].version, st.pip[k].source))
    {
      StaysKnown(ds, PipTold(k, st.pip[k].version, st.pip[k].source), d);
    }
    forall k | k in st.npm && (d.kind == Npm && d.slot == k ==> d.value == NpmVersion(st.npm[k].version, st.npm[k].mode))
      ensures Known(ds + [d], NpmTold(k, k[0], st.npm[k].version, st.npm[k].mode, st.npm[k].source))
    {
      StaysKnown(ds, NpmTold(k, k[0], st.npm[k].version, st.npm[k].mode, st.npm[k].source), d);
    }
    if st.wheel.Some? && d.kind != Wheelhouse {
      StaysKnown(ds, WheelTold(st.wheel.value.mode, st.wheel.value.path, st.wheel.value.source), d);
    }
  }

  lemma {:induction false} PipEntryTrue(lib: Pep440, st: DepState, ds: seq<Told>, d: PipDep, source: string)
    requires Remembers(lib, st, ds) && PushPip(lib, st, d, source).Ok?
    ensures AllTrue(lib, ds + [PipTold(d.name, d.version, source)], PushPip(lib, st, d, source).value.conflicts)
  {
    var next := PipTold(d.name, d.version, source);
    StayTrue(lib, ds, st.conflicts, next);
    if d.name in st.pip && st.pip[d.name].version != d.version {
      OneMore(lib, ds, st.conflicts, PipTold(d.name, st.pip[d.name].version, st.pip[d.name].source), next);
    }
  }

  lemma {:induction false} PipsKnown(lib: Pep440, st: DepState, ds: seq<Told>, d: PipDep, source: string, k: string)
    requires Remembers(lib, st, ds) && PushPip(lib, st, d, source).Ok? && k in PushPip(lib, st, d, source).value.pip
    ensures var seen := PushPip(lib, st, d, source).value.pip[k];
      Known(ds + [PipTold(d.name, d.version, source)], PipTold(k, seen.version, seen.source))
  {
    var next := PipTold(d.name, d.version, source);
    if k == d.name && (k !in st.pip || st.pip[k].version != d.version) {
      JustTold(ds, next);
    } else {
      assert k != d.name ==> [k][0] != [d.name][0];
      StaysKnown(ds, PipTold(k, st.pip[k].version, st.pip[k].source), next);
    }
  }

  lemma {:induction false} PipRemembered(lib: Pep440, st: DepState, ds: seq<Told>, d: PipDep, source: string)
    requires Remembers(lib, st, ds) && PushPip(lib, st, d, source).Ok?
    ensures Remembers(lib, PushPip(lib, st, d, source).value, ds + [PipTold(d.name, d.version, source)])
  {
    var next, after := PipTold(d.name, d.version, source), PushPip(lib, st, d, source).value;
    PipEntryTrue(lib, st, ds, d, source);
    OthersStay(lib, st, ds, next);
    forall k | k in after.pip ensures Known(ds + [next], PipTold(k, after.pip[k].version, after.pip[k].source)) {
      PipsKnown(lib, st, ds, d, source, k);
    }
    assert after.npm == st.npm && after.wheel == st.wheel;
  }

  lemma {:induction false} NpmRemembered(lib: Pep440, st: DepState, ds: seq<Told>, d: NpmDep, source: string)
    requires Remembers(lib, st, ds)
    ensures Remembers(lib, PushNpm(st, d, source), ds + [OneNpmTold(d, source)])
  {
    var next, key := OneNpmTold(d, source), NpmKey(d);
    OthersStay(lib, st, ds, next);
    StayTrue(lib, ds, st.conflicts, next);
    JustTold(ds, next);
    if key in st.npm && !(st.npm[key].version == next.value.version && st.npm[key].mode == d.mode) {
      OneMore(lib, ds, st.conflicts, NpmTold(key, key[0], st.npm[key].version, st.npm[key].mode, st.npm[key].source), next);
    }
  }

  lemma {:induction false} WheelRemembered(lib: Pep440, st: DepState, ds: seq<Told>, mode: WheelhouseMode, rawPath: string, source: string)
    requires Remembers(lib, st, ds)
    ensures Remembers(lib, PushWheelhouse(st, mode, rawPath, source), ds + [WheelTold(mode, Strip(rawPath), source)])
  {
    var next := WheelTold(mode, Strip(rawPath), source);
    OthersStay(lib, st, ds, next);
    StayTrue(lib, ds, st.conflicts, next);
    JustTold(ds, next);
    if st.wheel.Some? {
      var before := WheelTold(st.wheel.value.mode, st.wheel.value.path, st.wheel.value.source);
      if before.value != next.value {
        OneMore(lib, ds, st.conflicts, before, next);
      } else {
        StaysKnown(ds, before, next);
      }
    }
  }

  lemma {:induction false} PipsRemembered(lib: Pep440, st: DepState, ds: seq<Told>, deps: seq<PipDep>, source: string)
    requires Remembers(lib, st, ds) && PushPips(lib, st, deps, source).Ok?
    ensures Remembers(lib, PushPips(lib, st, deps, source).value, ds + PipsTold(deps, source))
    decreases deps
  {
    if deps == [] {
      assert ds + PipsTold(deps, source) == ds;
    } else {
      var d := PipTold(deps[0].name, deps[0].version, source);
      PipRemembered(lib, st, ds, deps[0], source);
      PipsRemembered(lib, PushPip(lib, st, deps[0], source).value, ds + [d], deps[1..], source);
      assert ds + [d] + PipsTold(deps[1..], source) == ds + PipsTold(deps, source);
    }
  }

  lemma {:induction false} NpmsRemembered(lib: Pep440, st: DepState, ds: seq<Told>, deps: seq<NpmDep>, source: string)
    requires Remembers(lib, st, ds)
    ensures Remembers(lib, PushNpms(st, deps, source), ds + NpmsTold(deps, source))
    decreases deps
  {
    if deps == [] {
      assert ds + NpmsTold(deps, source) == ds;
    } else {
      var d := OneNpmTold(deps[0], source);
      NpmRemembered(lib, st, ds, deps[0], source);
      NpmsRemembered(lib, PushNpm(st, deps[0], source), ds + [d], deps[1..], source);
      assert ds + [d] + NpmsTold(deps[1..], source) == ds + NpmsTold(deps, source);
    }
  }

  lemma {:induction false} PartRemembered(lib: Pep440, st: DepState, ds: seq<Told>, s: Sourced)
    requires Remembers(lib, st, ds) && PushPart(lib, st, s).Ok?
    ensures Remembers(lib, PushPart(lib, st, s).value, ds + DepsTold(s))
  {
    var c := s.part.components;
    var wheel := WheelTold(c.pipMode, Strip(c.wheelhousePath), s.source);
    var st1 := PushWheelhouse(st, c.pipMode, c.wheelhousePath, s.source);
    WheelRemembered(lib, st, ds, c.pipMode, c.wheelhousePath, s.source);
    PipsRemembered(lib, st1, ds + [wheel], c.pip, s.source);
    NpmsRemembered(lib, PushPips(lib, st1, c.pip, s.source).value, ds + [wheel] + PipsTold(c.pip, s.source), c.npm, s.source);
    Regrouped(ds, [wheel], PipsTold(c.pip, s.source));
    Regrouped(ds, [wheel] + PipsTold(c.pip, s.source), NpmsTold(c.npm, s.source));
  }

  lemma {:induction false} PartsRemembered(lib: Pep440, st: DepState, ds: seq<Told>, parts: seq<Sourced>)
    requires Remembers(lib, st, ds) && PushParts(lib, st, parts).Ok?
    ensures Remembers(lib, PushParts(lib, st, parts).value, ds + AllDepsTold(parts))
    decreases parts
  {
    if parts == [] {
      assert ds + AllDepsTold(parts) == ds;
    } else {
      PartRemembered(lib, st, ds, parts[0]);
      PartsRemembered(lib, PushPart(lib, st, parts[0]).value, ds + DepsTold(parts[0]), parts[1..]);
      Regrouped(ds, DepsTold(parts[0]), AllDepsTold(parts[1..]));
    }
  }

  /** Every entry of the dependency report names two differing declarations and their sources, the replaced one as existing. */
  lemma {:induction false} DependencyEntriesAreTrue(lib: Pep440, recipe: Recipe, layers: seq<Layer>)
    requires AnalyzeDependencies(lib, recipe, layers).Ok?
    ensures AllTrue(lib, AllDepsTold(PartsOf(recipe, layers)), AnalyzeDependencies(lib, recipe, layers).value)
  {
    var parts := PartsOf(recipe, layers);
    PartsRemembered(lib, NoDeps, [], parts);
    assert [] + AllDepsTold(parts) == AllDepsTold(parts);
  }

  // ----- the runtime report -----

  function EnvTold(entry: string, source: string): Told { Told(Env, [EnvKey(entry)], EnvKey(entry), Word(entry), entry, source) }
  function CmdTold(words: string, source: string): Told { Told(EntrypointCmd, [], "entrypoint.cmd", Word(words), words, source) }
  function RoleTold(role: string, source: string): Told { Told(BaseRole, [], "components.base_role", Word(role), role, source) }

  function EnvsTold(entries: seq<string>, source: string): seq<Told> { Map((e: string) => EnvTold(e, source), entries) }

  /** A part tells its environment, then its entrypoint and its base role if it sets them. */
  function RunTold(s: Sourced): seq<Told> {
    EnvsTold(s.part.env, s.source)
    + (if s.part.entrypoint.Some? then [CmdTold(Join(s.part.entrypoint.value), s.source)] else [])
    + (if s.part.components.baseRole.GetOr("") != "" then [RoleTold(s.part.components.baseRole.value, s.source)] else [])
  }

  function AllRunTold(parts: seq<Sourced>): seq<Told> { if parts == [] then [] else RunTold(parts[0]) + AllRunTold(parts[1..]) }

  ghost predicate Recalls(lib: Pep440, st: RunState, ds: seq<Told>) {
    && AllTrue(lib, ds, st.conflicts)
    && (forall k :: k in st.env ==> EnvKey(st.env[k].value) == k && Known(ds, EnvTold(st.env[k].value, st.env[k].source)))
    && (st.entrypoint.Some? ==> Known(ds, CmdTold(st.entrypoint.value.value, st.entrypoint.value.source)))
    && (st.role.Some? ==> Known(ds, RoleTold(st.role.value.value, st.role.value.source)))
  }

  lemma {:induction false} OthersRecalled(lib: Pep440, st: RunState, ds: seq<Told>, d: Told)
    requires Recalls(lib, st, ds)
    ensures forall k :: k in st.env && (d.kind == Env && d.slot == [k] ==> d.value == Word(st.env[k].value)) ==>
      Known(ds + [d], EnvTold(st.env[k].value, st.env[k].source))
    ensures st.entrypoint.Some? && (d.kind == EntrypointCmd ==> d.value == Word(st.entrypoint.value.value)) ==>
      Known(ds + [d], CmdTold(st.entrypoint.value.value, st.entrypoint.value.source))
    ensures st.role.Some? && (d.kind == BaseRole ==> d.value == Word(st.role.value.value)) ==>
      Known(ds + [d], RoleTold(st.role.value.value, st.role.value.source))
  {
    forall k | k in st.env && (d.kind == Env && d.slot == [k] ==> d.value == Word(st.env[k].value))
      ensures Known(ds + [d], EnvTold(st.env[k].value, st.env[k].source))
    {
      StaysKnown(ds, EnvTold(st.env[k].value, st.env[k].source), d);
    }
    if st.entrypoint.Some? && (d.kind == EntrypointCmd ==> d.value == Word(st.entrypoint.value.value)) {
      StaysKnown(ds, CmdTold(st.entrypoint.value.value, st.entrypoint.value.source), d);
    }
    if st.role.Some? && (d.kind == BaseRole ==> d.value == Word(st.role.value.value)) {
      StaysKnown(ds, RoleTold(st.role.value.value, st.role.value.source), d);
    }
  }

  lemma {:induction false} EnvRecalled(lib: Pep440, st: RunState, ds: seq<Told>, entry: string, source: string)
    requires Recalls(lib, st, ds)
    ensures Recalls(lib, PushEnv(st, entry, source), ds + [EnvTold(entry, source)])
  {
    var next, key := EnvTold(entry, source), EnvKey(entry);
    OthersRecalled(lib, st, ds, next);
    StayTrue(lib, ds, st.conflicts, next);
    JustTold(ds, next);
    if key in st.env && st.env[key].value != entry {
      OneMore(lib, ds, st.conflicts, EnvTold(st.env[key].value, st.env[key].source), next);
    }
    assert forall k: string :: [k][0] == k;
  }

  lemma {:induction false} CmdRecalled(lib: Pep440, st: RunState, ds: seq<Told>, cmd: seq<string>, source: string)
    requires Recalls(lib, st, ds)
    ensures Recalls(lib, PushEntrypoint(st, Some(cmd), source), ds + [CmdTold(Join(cmd), source)])
  {
    var next := CmdTold(Join(cmd), source);
    OthersRecalled(lib, st, ds, next);
    StayTrue(lib, ds, st.conflicts, next);
    JustTold(ds, next);
    if st.entrypoint.Some? && st.entrypoint.value.value != Join(cmd) {
      OneMore(lib, ds, st.conflicts, CmdTold(st.entrypoint.value.value, st.entrypoint.value.source), next);
    }
  }

  lemma {:induction false} RoleRecalled(lib: Pep440, st: RunState, ds: seq<Told>, role: string, source: string)
    requires Recalls(lib, st, ds) && role != ""
    ensures Recalls(lib, PushBaseRole(st, Some(role), source), ds + [RoleTold(role, source)])
  {
    var next := RoleTold(role, source);
    OthersRecalled(lib, st, ds, next);
    StayTrue(lib, ds, st.conflicts, next);
    JustTold(ds, next);
    if st.role.Some? && st.role.value.value != role {
      OneMore(lib, ds, st.conflicts, RoleTold(st.role.value.value, st.role.value.source), next);
    }
  }

  lemma {:induction false} EnvsRecalled(lib: Pep440, st: RunState, ds: seq<Told>, env: seq<string>, source: string)
    requires Recalls(lib, st, ds)
    ensures Recalls(lib, PushEnvs(st, env, source), ds + EnvsTold(env, source))
    decreases env
  {
    if env == [] {
      assert ds + EnvsTold(env, source) == ds;
    } else {
      EnvRecalled(lib, st, ds, env[0], source);
      EnvsRecalled(lib, PushEnv(st, env[0], source), ds + [EnvTold(env[0], source)], env[1..], source);
      assert ds + [EnvTold(env[0], source)] + EnvsTold(env[1..], source) == ds + EnvsTold(env, source);
    }
  }

  lemma {:induction false} RunRecalled(lib: Pep440, st: RunState, ds: seq<Told>, s: Sourced)
    requires Recalls(lib, st, ds)
    ensures Recalls(lib, PushRuntime(st, s), ds + RunTold(s))
  {
    var a, ds1 := PushEnvs(st, s.part.env, s.source), ds + EnvsTold(s.part.env, s.source);
    EnvsRecalled(lib, st, ds, s.part.env, s.source);
    var cmd := if s.part.entrypoint.Some? then [CmdTold(Join(s.part.entrypoint.value), s.source)] else [];
    var role := if s.part.components.baseRole.GetOr("") != "" then [RoleTold(s.part.components.baseRole.value, s.source)] else [];
    assert ds1 + [] == ds1 && ds1 + cmd + [] == ds1 + cmd;
    var b := PushEntrypoint(a, s.part.entrypoint, s.source);
    if s.part.entrypoint.Some? { CmdRecalled(lib, a, ds1, s.part.entrypoint.value, s.source); }
    assert Recalls(lib, b, ds1 + cmd);
    if s.part.components.baseRole.GetOr("") != "" { RoleRecalled(lib, b, ds1 + cmd, s.part.components.baseRole.value, s.source); }
    assert ds1 + cmd + role == ds + RunTold(s);
  }

  lemma {:induction false} RunsRecalled(lib: Pep440, st: RunState, ds: seq<Told>, parts: seq<Sourced>)
    requires Recalls(lib, st, ds)
    ensures Recalls(lib, PushRuntimes(st, parts), ds + AllRunTold(parts))
    decreases parts
  {
    if parts == [] {
      assert ds + AllRunTold(parts) == ds;
    } else {
      RunRecalled(lib, st, ds, parts[0]);
      RunsRecalled(lib, PushRuntime(st, parts[0]), ds + RunTold(parts[0]), parts[1..]);
      Regrouped(ds, RunTold(parts[0]), AllRunTold(parts[1..]));
    }
  }

  /** And so does every entry of the runtime report. */
  lemma {:induction false} RuntimeEntriesAreTrue(lib: Pep440, recipe: Recipe, layers: seq<Layer>)
    ensures AllTrue(lib, AllRunTold(PartsOf(recipe, layers)), AnalyzeRuntime(recipe, layers))
  {
    var parts := PartsOf(recipe, layers);
    RunsRecalled(lib, NoRuntime, [], parts);
    assert [] + AllRunTold(parts) == AllRunTold(parts);
  }

  // ----- the tuple report -----

  /** The layer asks for this value of a fact, surrounding space aside. */
  predicate AsksFor(l: Layer, key: string, value: string) { key in l.needs && Strip(l.needs[key]) == value && value != "" }

  function NeedTold(l: Layer, key: string): seq<Told> {
    var value := if key in l.needs then Strip(l.needs[key]) else "";
    if value == "" then [] else [Told(Tuple, [key], key, Word(value), value, "layer:" + l.id)]
  }

  function NeedsTold(l: Layer, keys: seq<string>): seq<Told> { if keys == [] then [] else NeedTold(l, keys[0]) + NeedsTold(l, keys[1..]) }

  /** A layer tells the six facts a tuple is made of. */
  function TupleTold(l: Layer): seq<Told> {
    NeedsTold(l, ["arch", "os_family_id", "os_version_id", "container_runtime", "gpu_vendor_id", "gpu_family_id"])
  }

  function AllTupleTold(layers: seq<Layer>): seq<Told> { if layers == [] then [] else TupleTold(layers[0]) + AllTupleTold(layers[1..]) }

  ghost predicate Notes(lib: Pep440, st: TupleState, ds: seq<Told>) {
    && AllTrue(lib, ds, st.conflicts)
    && (forall k :: k in st.seen ==> Known(ds, Told(Tuple, [k], k, Word(st.seen[k].value), st.seen[k].value, st.seen[k].source)))
  }

  lemma {:induction false} NeedNoted(lib: Pep440, st: TupleState, ds: seq<Told>, key: string, l: Layer)
    requires Notes(lib, st, ds)
    ensures Notes(lib, PushNeed(st, key, l), ds + NeedTold(l, key))
  {
    if NeedTold(l, key) == [] {
      assert ds + [] == ds;
    } else {
      var next, after := NeedTold(l, key)[0], PushNeed(st, key, l);
      StayTrue(lib, ds, st.conflicts, next);
      JustTold(ds, next);
      if key in st.seen && Word(st.seen[key].value) != next.value {
        OneMore(lib, ds, st.conflicts, Told(Tuple, [key], key, Word(st.seen[key].value), st.seen[key].value, st.seen[key].source), next);
      }
      forall k | k in after.seen ensures Known(ds + [next], Told(Tuple, [k], k, Word(after.seen[k].value), after.seen[k].value, after.seen[k].source)) {
        if k != key || (k in st.seen && after.seen[k] == st.seen[k]) {
          assert k != key ==> [k][0] != [key][0];
          StaysKnown(ds, Told(Tuple, [k], k, Word(st.seen[k].value), st.seen[k].value, st.seen[k].source), next);
        }
      }
    }
  }

  lemma {:induction false} NeedsNoted(lib: Pep440, st: TupleState, ds: seq<Told>, keys: seq<string>, l: Layer)
    requires Notes(lib, st, ds)
    ensures Notes(lib, PushNeeds(st, keys, l), ds + NeedsTold(l, keys))
    decreases keys
  {
    if keys == [] {
      assert ds + NeedsTold(l, keys) == ds;
    } else {
      NeedNoted(lib, st, ds, keys[0], l);
      NeedsNoted(lib, PushNeed(st, keys[0], l), ds + NeedTold(l, keys[0]), keys[1..], l);
      Regrouped(ds, NeedTold(l, keys[0]), NeedsTold(l, keys[1..]));
    }
  }

  lemma {:induction false} LayersNoted(lib: Pep440, st: TupleState, ds: seq<Told>, layers: seq<Layer>)
    requires Notes(lib, st, ds)
    ensures Notes(lib, PushAllNeeds(st, layers), ds + AllTupleTold(layers))
    decreases layers
  {
    if layers == [] {
      assert ds + AllTupleTold(layers) == ds;
    } else {
      NeedsNoted(lib, st, ds, WATCHED, layers[0]);
      LayersNoted(lib, PushNeeds(st, WATCHED, layers[0]), ds + TupleTold(layers[0]), layers[1..]);
      Regrouped(ds, TupleTold(layers[0]), AllTupleTold(layers[1..]));
    }
  }

  /** And so does every entry of the tuple report. */
  lemma {:induction false} TupleEntriesAreTrue(lib: Pep440, recipe: Recipe, layers: seq<Layer>)
    ensures AllTrue(lib, AllTupleTold(Referenced(recipe.layers, ById(layers))), AnalyzeTuples(recipe, layers))
  {
    var ordered := Referenced(recipe.layers, ById(layers));
    LayersNoted(lib, TupleState(map[], []), [], ordered);
    assert [] + AllTupleTold(ordered) == AllTupleTold(ordered);
  }

  lemma {:induction false} NeedsOfMember(l: Layer, keys: seq<string>, e: Entry<string, string>)
    ensures e in NeedsOf(l, keys) <==> e.key in keys && AsksFor(l, e.key, e.value)
  {
    if keys != [] {
      NeedsOfMember(l, keys[1..], e);
      assert keys == [keys[0]] + keys[1..];
    }
  }

  const TUPLE_FACTS := {"arch", "os_family_id", "os_version_id", "container_runtime", "gpu_vendor_id", "gpu_family_id"}

  lemma {:induction false} WatchedAre(key: string)
    ensures key in WATCHED <==> key in TUPLE_FACTS
  {
    assert WATCHED[0] == "arch" && WATCHED[1] == "os_family_id" && WATCHED[2] == "os_version_id";
    assert WATCHED[3] == "container_runtime" && WATCHED[4] == "gpu_vendor_id" && WATCHED[5] == "gpu_family_id";
  }

  /** Two referenced layers ask for different values of one of the six facts. */
  ghost predicate Disagree(ordered: seq<Layer>) {
    exists a, b, key, x, y :: a in ordered && b in ordered && key in TUPLE_FACTS && AsksFor(a, key, x) && AsksFor(b, key, y) && x != y
  }

  lemma {:induction false} AsksAreEntries(ordered: seq<Layer>, e: Entry<string, string>)
    ensures e in Gather(NeedE, ordered) <==> exists l :: l in ordered && e.key in TUPLE_FACTS && AsksFor(l, e.key, e.value)
  {
    GatherMember(NeedE, ordered, e);
    WatchedAre(e.key);
    forall l | l in ordered ensures e in NeedE(l) <==> e.key in TUPLE_FACTS && AsksFor(l, e.key, e.value) {
      NeedsOfMember(l, WATCHED, e);
    }
  }

  lemma {:induction false} DisagreementIs(ordered: seq<Layer>)
    ensures Agree(Gather(NeedE, ordered)) <==> !Disagree(ordered)
  {
    var es := Gather(NeedE, ordered);
    if Disagree(ordered) {
      var a, b, key, x, y :| a in ordered && b in ordered && key in TUPLE_FACTS && AsksFor(a, key, x) && AsksFor(b, key, y) && x != y;
      AsksAreEntries(ordered, Entry(key, x));
      AsksAreEntries(ordered, Entry(key, y));
      assert Entry(key, x) in es && Entry(key, y) in es;
    } else {
      forall e, f | e in es && f in es && e.key == f.key ensures e.value == f.value {
        AsksAreEntries(ordered, e);
        AsksAreEntries(ordered, f);
      }
    }
  }

  /** The tuple report is empty exactly when no two referenced layers ask for different values of one of the six facts. */
  lemma {:induction false} TupleReportEmptyIff(recipe: Recipe, layers: seq<Layer>)
    ensures AnalyzeTuples(recipe, layers) == [] <==> !Disagree(Referenced(recipe.layers, ById(layers)))
  {
    TupleReportIgnoresOrder(recipe, layers, recipe.layers);
    DisagreementIs(Referenced(recipe.layers, ById(layers)));
  }
}
