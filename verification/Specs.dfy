/** Stack, layer and recipe specifications, with the after-validators that normalise them. */
module Specs {
  import opened Basics

  datatype BuildStrategy = Pull | Overlay | DockerfileTemplate | CustomStrategy
  datatype VersionMode = Latest | Custom
  datatype AptMode = Repo | PinPrefer | PinOnly
  datatype WheelhouseMode = Index | WheelhousePrefer | WheelhouseOnly
  datatype NpmMode = FromSpec | LockPrefer | LockOnly

  datatype PipDep = PipDep(name: string, version: string, mode: VersionMode)
  datatype NpmDep = NpmDep(name: string, version: string, mode: VersionMode, manager: string, scope: string)
  datatype CopyItem = CopyItem(src: string, dst: string)
  datatype VariantDef = BoolVariant(on: bool) | EnumVariant(options: seq<string>, default: string)

  datatype Components = Components(
    baseRole: Option<string>,
    pip: seq<PipDep>, npm: seq<NpmDep>, apt: seq<string>,
    aptConstraints: map<string, string>, aptMode: AptMode,
    pipMode: WheelhouseMode, wheelhousePath: string, npmMode: NpmMode)

  /** What layers and recipes have in common. */
  datatype Part = Part(
    buildStrategy: Option<BuildStrategy>, components: Components,
    env: seq<string>, ports: seq<int>, entrypoint: Option<seq<string>>,
    copyItems: seq<CopyItem>, variants: map<string, VariantDef>)

  datatype Layer = Layer(id: string, part: Part, needs: map<string, string>, incompatibleWith: seq<string>)
  datatype Recipe = Recipe(
    id: string, schemaVersion: int, layers: seq<string>, part: Part, needs: map<string, string>, capabilities: seq<string>)

  datatype Stack = Stack(
    id: string, task: string, serve: string, api: string,
    schemaVersion: int, buildStrategy: BuildStrategy, components: Components,
    env: seq<string>, ports: seq<int>, entrypoint: seq<string>,
    copyItems: seq<CopyItem>, variants: map<string, VariantDef>,
    layers: seq<string>, needs: map<string, string>, capabilities: seq<string>, policyOverrides: map<string, string>)

  // ----- whitespace -----

  /** Python's `str.isspace` on one character, which `\s` also matches. */
  predicate IsSpace(c: char) {
    || c == ' ' || '\t' <= c <= '\r' || '\U{1c}' <= c <= '\U{1f}'
    || c in {'\U{85}', '\U{a0}', '\U{1680}', '\U{2028}', '\U{2029}', '\U{202f}', '\U{205f}', '\U{3000}'}
    || '\U{2000}' <= c <= '\U{200a}'
  }

  function LStrip(s: string): string {
    if s != "" && IsSpace(s[0]) then LStrip(s[1..]) else s
  }

  function RStrip(s: string): string {
    if s != "" && IsSpace(s[|s| - 1]) then RStrip(s[..|s| - 1]) else s
  }

  /** Python's `str.strip()`. */
  function Strip(s: string): string { RStrip(LStrip(s)) }

  // ----- dependency validators -----

  function ValidatePip(d: PipDep): Result<PipDep, string> {
    var mode := if d.version != "" && d.mode == Latest then Custom else d.mode;
    if mode == Custom && Strip(d.version) == "" then Err("custom pip version is blank")
    else Ok(d.(mode := mode, version := if mode == Latest then "" else d.version))
  }

  function ValidateNpm(d: NpmDep): Result<NpmDep, string> {
    var mode := if d.version != "" && d.mode == Latest then Custom else d.mode;
    if mode == Custom && Strip(d.version) == "" then Err("custom npm version is blank")
    else Ok(d.(mode := mode, version := if mode == Latest then "" else d.version))
  }

  /** The shape every validated dependency has: `latest` exactly when no version is written. */
  predicate ValidPip(d: PipDep) { d.mode == Latest <==> d.version == "" }
  predicate ValidNpm(d: NpmDep) { d.mode == Latest <==> d.version == "" }

  // ----- lockfiles -----

  function Slashes(s: string): string {
    Map(c => if c == '\\' then '/' else c, s)
  }

  function TrimSlashes(s: string): string {
    if s != "" && s[|s| - 1] == '/' then TrimSlashes(s[..|s| - 1]) else s
  }

  function Leaf(s: string): string {
    if s == "" || s[|s| - 1] == '/' then "" else Leaf(s[..|s| - 1]) + [s[|s| - 1]]
  }

  predicate IsLockfile(src: string) {
    Leaf(TrimSlashes(Slashes(src))) in {"package-lock.json", "pnpm-lock.yaml", "yarn.lock"}
  }

  predicate HasLockfile(items: seq<CopyItem>) {
    exists item :: item in items && IsLockfile(item.src)
  }

  // ----- component and part validators -----

  predicate NoNewline(s: string) { '\n' !in s && '\r' !in s }

  /** `_StackComponentsBase._validate_component_policies`. */
  function ValidateComponents(c: Components): Result<Components, string> {
    if exists k :: k in c.aptConstraints && k !in c.apt then Err("apt constraint references unknown package")
    else if exists k :: k in c.aptConstraints && !NoNewline(c.aptConstraints[k]) then Err("apt constraint has newlines")
    else if c.aptMode == PinOnly && exists p :: p in c.apt && p !in c.aptConstraints then Err("pin_only misses constraints")
    else if c.pipMode != Index && Strip(c.wheelhousePath) == "" then Err("wheelhouse path required")
    else Ok(c.(wheelhousePath := if c.pipMode == Index then "" else Strip(c.wheelhousePath)))
  }

  predicate ValidComponents(c: Components) {
    && (forall d :: d in c.pip ==> ValidPip(d))
    && (forall d :: d in c.npm ==> ValidNpm(d))
    && ValidateComponents(c) == Ok(c)
  }

  /** `_validate_npm_lock_policy`. */
  predicate LockPolicyHolds(mode: NpmMode, items: seq<CopyItem>) {
    mode == LockOnly ==> HasLockfile(items)
  }

  predicate ValidPart(p: Part) {
    ValidComponents(p.components) && LockPolicyHolds(p.components.npmMode, p.copyItems)
  }

  // ----- what validation guarantees -----

  /** Validation yields the normal shape and changes nothing the second time. */
  lemma {:induction false} PipValidationNormalises(d: PipDep)
    ensures ValidatePip(d).Ok? ==>
      ValidPip(ValidatePip(d).value) && ValidatePip(ValidatePip(d).value) == ValidatePip(d)
    ensures ValidatePip(d).Err? <==> (d.mode == Custom || d.version != "") && Strip(d.version) == ""
  {
  }

  lemma {:induction false} LStripSettles(s: string)
    ensures LStrip(s) != "" ==> !IsSpace(LStrip(s)[0])
  {
    if s != "" && IsSpace(s[0]) {
      LStripSettles(s[1..]);
    }
  }

  lemma {:induction false} RStripSettles(s: string)
    ensures RStrip(RStrip(s)) == RStrip(s) && RStrip(s) <= s
  {
    if s != "" && IsSpace(s[|s| - 1]) {
      RStripSettles(s[..|s| - 1]);
    }
  }

  lemma {:induction false} StripSettles(s: string)
    ensures Strip(Strip(s)) == Strip(s)
  {
    var left := LStrip(s);
    LStripSettles(s);
    RStripSettles(left);
    assert RStrip(left) != "" ==> RStrip(left)[0] == left[0];
    assert LStrip(RStrip(left)) == RStrip(left);
  }

  /** Validated components validate again to themselves. */
  lemma {:induction false} ComponentsValidationSettles(c: Components)
    ensures ValidateComponents(c).Ok? ==> ValidateComponents(ValidateComponents(c).value) == ValidateComponents(c)
  {
    StripSettles(c.wheelhousePath);
  }
}
