/** Everything a composed stack consists of, field by field. */
module ComposedStack {
  import opened Basics
  import opened Specs
  import opened Ordering
  import opened LastWriter
  import opened Composition
  import opened CompositionLaws
  import opened CompositionTheorems

  /** `vs` lists the last entry of every key, once each, in key order. */
  ghost predicate LastOfEach<K, V(!new)>(le: (K, K) -> bool, keyOf: V -> K, es: seq<Entry<K, V>>, vs: seq<V>) {
    && (forall v :: v in vs <==> LastOfKey(es, Entry(keyOf(v), v)))
    && (forall i, j :: 0 <= i < j < |vs| ==> le(keyOf(vs[i]), keyOf(vs[j])) && keyOf(vs[i]) != keyOf(vs[j]))
  }

  lemma {:induction false} ValueListed<K, V>(es: seq<Entry<K, V>>, m: map<K, V>, keys: seq<K>, keyOf: V -> K, v: V)
    requires m == Put(map[], es) && (forall k :: k in keys <==> k in m) && forall k :: k in m ==> keyOf(m[k]) == k
    ensures v in Values(keys, m) <==> LastOfKey(es, Entry(keyOf(v), v))
  {
    PutKeys<K, V>(map[], es);
    var vs := Values(keys, m);
    if v in vs {
      var i :| 0 <= i < |vs| && vs[i] == v;
      assert keys[i] in keys && keys[i] in m;
      var e :| e in es && e.key == keys[i];
      PutKeepsLast<K, V>(map[], es, keys[i]);
    }
    if LastOfKey(es, Entry(keyOf(v), v)) {
      var k := keyOf(v);
      assert Entry(k, v) in es && k in m;
      PutKeepsLast<K, V>(map[], es, k);
      LastOfKeyUnique(es, Entry(k, v), Entry(k, m[k]));
      assert k in keys;
      var i :| 0 <= i < |keys| && keys[i] == k;
      assert vs[i] == v;
    }
  }

  lemma {:induction false} ListedValues<K(!new), V(!new)>(le: (K, K) -> bool, keyOf: V -> K, es: seq<Entry<K, V>>, m: map<K, V>, keys: seq<K>)
    requires m == Put(map[], es) && SortedOf(le, m.Keys, keys) && forall k :: k in m ==> keyOf(m[k]) == k
    ensures LastOfEach(le, keyOf, es, Values(keys, m))
  {
    forall v ensures v in Values(keys, m) <==> LastOfKey(es, Entry(keyOf(v), v)) {
      ValueListed(es, m, keys, keyOf, v);
    }
    assert forall i :: 0 <= i < |keys| ==> keys[i] in keys && keyOf(Values(keys, m)[i]) == keys[i];
  }

  // ----- dictionaries -----

  lemma {:induction false} EnvKeyed(parts: seq<Sourced>, env: map<string, string>)
    requires env == Put(map[], Gather(EnvE, parts))
    ensures forall k :: k in env ==> EnvKey(env[k]) == k
  {
    forall k | k in env ensures EnvKey(env[k]) == k {
      PutKeys<string, string>(map[], Gather(EnvE, parts));
      PutKeepsLast<string, string>(map[], Gather(EnvE, parts), k);
      GatherMember(EnvE, parts, Entry(k, env[k]));
    }
  }

  lemma {:induction false} CopiesKeyedBy(parts: seq<Sourced>, copies: map<Key, CopyItem>)
    requires copies == Put(map[], Gather(CopyE, parts))
    ensures forall k :: k in copies ==> CopyKey(copies[k]) == k
  {
    CopiesKeyed(parts);
    forall k | k in copies ensures CopyKey(copies[k]) == k {
      PutKeys<Key, CopyItem>(map[], Gather(CopyE, parts));
      PutKeepsLast<Key, CopyItem>(map[], Gather(CopyE, parts), k);
      assert Entry(k, copies[k]) in Gather(CopyE, parts);
    }
  }

  function PipName(d: PipDep): string { d.name }

  /** The lists of a composed stack: last declarations in key order, and the sorted sets of packages and ports. */
  ghost predicate ListsOf(parts: seq<Sourced>, s: Stack) {
    && LastOfEach(StrLe, PipName, Gather(PipE, parts), s.components.pip)
    && LastOfEach(TupleLe, NpmKey, Gather(NpmE, parts), s.components.npm)
    && LastOfEach(StrLe, EnvKey, Gather(EnvE, parts), s.env)
    && LastOfEach(TupleLe, CopyKey, Gather(CopyE, parts), s.copyItems)
    && SortedOf(StrLe, AptOf(parts), s.components.apt) && SortedOf(IntLe, PortsOf(parts), s.ports)
  }

  ghost predicate DictionariesOf(parts: seq<Sourced>, acc: Accum) {
    && Deps(acc.pip) == Put(map[], Gather(PipE, parts)) && Deps(acc.npm) == Put(map[], Gather(NpmE, parts))
    && acc.env == Put(map[], Gather(EnvE, parts)) && acc.copies == Put(map[], Gather(CopyE, parts))
    && acc.apt == AptOf(parts) && acc.ports == PortsOf(parts)
    && GoodAccum(acc)
  }

  lemma {:induction false} DictionariesFromParts(recipe: Recipe, parts: seq<Sourced>, acc: Accum)
    requires FromParts(recipe, parts, acc)
    ensures DictionariesOf(parts, acc)
  {
  }

  lemma {:induction false} DependencyLists(parts: seq<Sourced>, acc: Accum, l: Listings)
    requires DictionariesOf(parts, acc) && ListingsOf(acc, l) && Lists(acc, l)
    ensures LastOfEach(StrLe, PipName, Gather(PipE, parts), Values(l.pip, Deps(acc.pip)))
    ensures LastOfEach(TupleLe, NpmKey, Gather(NpmE, parts), Values(l.npm, Deps(acc.npm)))
  {
    assert Deps(acc.pip).Keys == acc.pip.Keys && Deps(acc.npm).Keys == acc.npm.Keys;
    ListedValues(StrLe, PipName, Gather(PipE, parts), Deps(acc.pip), l.pip);
    ListedValues(TupleLe, NpmKey, Gather(NpmE, parts), Deps(acc.npm), l.npm);
  }

  lemma {:induction false} FileLists(parts: seq<Sourced>, acc: Accum, l: Listings)
    requires DictionariesOf(parts, acc) && ListingsOf(acc, l) && Lists(acc, l)
    ensures LastOfEach(StrLe, EnvKey, Gather(EnvE, parts), Values(l.env, acc.env))
    ensures LastOfEach(TupleLe, CopyKey, Gather(CopyE, parts), Values(l.copies, acc.copies))
  {
    EnvKeyed(parts, acc.env);
    CopiesKeyedBy(parts, acc.copies);
    ListedValues(StrLe, EnvKey, Gather(EnvE, parts), acc.env, l.env);
    ListedValues(TupleLe, CopyKey, Gather(CopyE, parts), acc.copies, l.copies);
  }

  // ----- the last part to say something -----

  /** `r` is what the last part with a value says, or None when no part has one. */
  ghost predicate IsLastSome<T>(f: Sourced -> Option<T>, parts: seq<Sourced>, r: Option<T>) {
    if r.None? then forall p :: p in parts ==> f(p) == None
    else exists i :: 0 <= i < |parts| && f(parts[i]) == r && forall j :: i < j < |parts| ==> f(parts[j]) == None
  }

  function LastSome<T>(f: Sourced -> Option<T>, parts: seq<Sourced>, before: Option<T>): Option<T>
    decreases parts
  {
    if parts == [] then before else LastSome(f, parts[1..], OrElse(f(parts[0]), before))
  }

  lemma {:induction false} LastSomeIs<T>(f: Sourced -> Option<T>, parts: seq<Sourced>, before: Option<T>)
    ensures LastSome(f, parts, before) == before || IsLastSome(f, parts, LastSome(f, parts, before))
    ensures (exists p :: p in parts && f(p).Some?) ==> IsLastSome(f, parts, LastSome(f, parts, before))
    ensures (forall p :: p in parts ==> f(p) == None) ==> LastSome(f, parts, before) == before
    decreases parts
  {
    if parts != [] {
      var rest, next := parts[1..], OrElse(f(parts[0]), before);
      assert parts == [parts[0]] + rest;
      LastSomeIs(f, rest, next);
      var r := LastSome(f, rest, next);
      if exists p :: p in rest && f(p).Some? {
        LaterSome(f, parts, r);
      } else {
        assert r == next;
        if f(parts[0]).Some? {
          assert forall j :: 0 < j < |parts| ==> parts[j] in rest;
          assert f(parts[0]) == r;
        }
      }
    }
  }

  lemma {:induction false} LaterSome<T>(f: Sourced -> Option<T>, parts: seq<Sourced>, r: Option<T>)
    requires parts != [] && IsLastSome(f, parts[1..], r) && exists p :: p in parts[1..] && f(p).Some?
    ensures IsLastSome(f, parts, r)
  {
    var rest := parts[1..];
    if r.Some? {
      var i :| 0 <= i < |rest| && f(rest[i]) == r && forall j :: i < j < |rest| ==> f(rest[j]) == None;
      assert f(parts[i + 1]) == r;
      assert forall j :: i + 1 < j < |parts| ==> parts[j] == rest[j - 1];
    }
  }

  function ConstraintFor(k: string): Sourced -> Option<string> {
    (s: Sourced) => if k in s.part.components.aptConstraints then Some(s.part.components.aptConstraints[k]) else None
  }

  function VariantFor(k: string): Sourced -> Option<VariantDef> {
    (s: Sourced) => if k in s.part.variants then Some(s.part.variants[k]) else None
  }

  function StrategyIn(s: Sourced): Option<BuildStrategy> { s.part.buildStrategy }
  function EntrypointIn(s: Sourced): Option<seq<string>> { s.part.entrypoint }
  function RoleIn(s: Sourced): Option<string> { if IsSet(s.part.components.baseRole) then s.part.components.baseRole else None }

  function At<V>(m: map<string, V>, k: string): Option<V> { if k in m then Some(m[k]) else None }

  function Named(role: string): Option<string> { if role == "" then None else Some(role) }

  lemma {:induction false} ConsumeScalars(lib: Pep440, acc: Accum, s: Sourced)
    requires Consume(lib, acc, s).Ok?
    ensures var after := Consume(lib, acc, s).value;
      && after.buildStrategy == OrElse(StrategyIn(s), acc.buildStrategy) && after.entrypoint == OrElse(EntrypointIn(s), acc.entrypoint)
      && Named(after.baseRole) == OrElse(RoleIn(s), Named(acc.baseRole))
  {
  }

  lemma {:induction false} ConsumeMaps(lib: Pep440, acc: Accum, s: Sourced, k: string)
    requires Consume(lib, acc, s).Ok?
    ensures var after := Consume(lib, acc, s).value;
      && At(after.aptConstraints, k) == OrElse(ConstraintFor(k)(s), At(acc.aptConstraints, k))
      && At(after.variants, k) == OrElse(VariantFor(k)(s), At(acc.variants, k))
  {
  }

  lemma {:induction false} ScalarsAre(lib: Pep440, acc: Accum, parts: seq<Sourced>)
    requires ConsumeAll(lib, acc, parts).Ok?
    ensures var after := ConsumeAll(lib, acc, parts).value;
      && after.buildStrategy == LastSome(StrategyIn, parts, acc.buildStrategy)
      && after.entrypoint == LastSome(EntrypointIn, parts, acc.entrypoint)
      && Named(after.baseRole) == LastSome(RoleIn, parts, Named(acc.baseRole))
    decreases parts
  {
    if parts != [] {
      ConsumeScalars(lib, acc, parts[0]);
      ScalarsAre(lib, Consume(lib, acc, parts[0]).value, parts[1..]);
    }
  }

  lemma {:induction false} MapsAre(lib: Pep440, acc: Accum, parts: seq<Sourced>, k: string)
    requires ConsumeAll(lib, acc, parts).Ok?
    ensures var after := ConsumeAll(lib, acc, parts).value;
      && At(after.aptConstraints, k) == LastSome(ConstraintFor(k), parts, At(acc.aptConstraints, k))
      && At(after.variants, k) == LastSome(VariantFor(k), parts, At(acc.variants, k))
    decreases parts
  {
    if parts != [] {
      ConsumeMaps(lib, acc, parts[0], k);
      MapsAre(lib, Consume(lib, acc, parts[0]).value, parts[1..], k);
    }
  }

  lemma {:induction false} LastSomeFromNone<T>(f: Sourced -> Option<T>, parts: seq<Sourced>)
    ensures IsLastSome(f, parts, LastSome(f, parts, None))
  {
    LastSomeIs(f, parts, None);
    if !(exists p :: p in parts && f(p).Some?) {
      assert forall p :: p in parts ==> f(p) == None;
    }
  }

  // ----- the composed stack -----

  ghost predicate ConstraintsOf(parts: seq<Sourced>, m: map<string, string>) {
    forall k :: IsLastSome(ConstraintFor(k), parts, At(m, k))
  }

  ghost predicate VariantsOf(parts: seq<Sourced>, m: map<string, VariantDef>) {
    forall k :: IsLastSome(VariantFor(k), parts, At(m, k))
  }

  /** Scalars come from the last part that sets them, with fixed defaults; install modes always from the recipe. */
  ghost predicate ScalarsOf(recipe: Recipe, parts: seq<Sourced>, s: Stack) {
    && (exists role :: IsLastSome(RoleIn, parts, role) && s.components.baseRole == Some(role.GetOr("python")))
    && (exists strategy :: IsLastSome(StrategyIn, parts, strategy) && s.buildStrategy == strategy.GetOr(Overlay))
    && (exists cmd :: IsLastSome(EntrypointIn, parts, cmd) && s.entrypoint == cmd.GetOr(DEFAULT_CMD))
    && s.id == recipe.id && s.schemaVersion == recipe.schemaVersion && s.layers == recipe.layers
    && s.needs == recipe.needs && s.capabilities == recipe.capabilities
    && s.components.aptMode == recipe.part.components.aptMode && s.components.npmMode == recipe.part.components.npmMode
    && s.components.pipMode == recipe.part.components.pipMode && s.components.wheelhousePath == recipe.part.components.wheelhousePath
  }

  lemma {:induction false} BuiltFields(recipe: Recipe, acc: Accum, l: Listings, model: Components)
    requires Lists(acc, l) && Build(recipe, acc, l).Ok? && EndsWith(acc, model) && ValidComponents(model)
    ensures var s := Build(recipe, acc, l).value;
      && s.components == Assembled(acc, l) && s.env == Values(l.env, acc.env) && s.ports == l.ports
      && s.copyItems == Values(l.copies, acc.copies) && s.variants == acc.variants
      && s.buildStrategy == acc.buildStrategy.GetOr(Overlay) && s.entrypoint == acc.entrypoint.GetOr(DEFAULT_CMD)
      && s.id == recipe.id && s.schemaVersion == recipe.schemaVersion && s.layers == recipe.layers
      && s.needs == recipe.needs && s.capabilities == recipe.capabilities
  {
    var c := Assembled(acc, l);
    assert ValidateComponents(c).Ok?;
    assert ValidateComponents(c).value == c by { WheelhouseKept(c, model); }
  }

  lemma {:induction false} WheelhouseKept(c: Components, model: Components)
    requires ValidateComponents(c).Ok? && ValidComponents(model)
    requires c.pipMode == model.pipMode && c.wheelhousePath == model.wheelhousePath
    ensures ValidateComponents(c).value == c
  {
    assert ValidateComponents(model).value == model;
    assert model.wheelhousePath == if model.pipMode == Index then "" else Strip(model.wheelhousePath);
  }

  /** What `compose_stack` returns, field by field, in terms of the layers and the recipe alone. */
  lemma {:induction false} ComposedStackIs(lib: Pep440, recipe: Recipe, layers: seq<Layer>)
    requires ValidSpecs(recipe, layers) && Compose(lib, recipe, layers).Ok?
    ensures var s, parts := Compose(lib, recipe, layers).value, PartsOf(recipe, layers);
      && ListsOf(parts, s) && ScalarsOf(recipe, parts, s)
      && ConstraintsOf(parts, s.components.aptConstraints) && VariantsOf(parts, s.variants)
  {
    var parts := PartsOf(recipe, layers);
    ComposeUnfolds(lib, recipe, layers);
    ComposeOutcome(lib, recipe, layers);
    var acc := ConsumeAll(lib, InitialAccum(recipe), parts).value;
    ListsBuilt(recipe, parts, acc, ListingsFor(acc));
    RestBuilt(lib, recipe, parts, acc, ListingsFor(acc));
  }

  lemma {:induction false} ListsBuilt(recipe: Recipe, parts: seq<Sourced>, acc: Accum, l: Listings)
    requires FromParts(recipe, parts, acc) && ValidPart(recipe.part) && ListingsOf(acc, l) && Lists(acc, l) && Build(recipe, acc, l).Ok?
    ensures ListsOf(parts, Build(recipe, acc, l).value)
  {
    BuiltFields(recipe, acc, l, recipe.part.components);
    DictionariesFromParts(recipe, parts, acc);
    DependencyLists(parts, acc, l);
    FileLists(parts, acc, l);
  }

  lemma {:induction false} RestBuilt(lib: Pep440, recipe: Recipe, parts: seq<Sourced>, acc: Accum, l: Listings)
    requires ConsumeAll(lib, InitialAccum(recipe), parts) == Ok(acc)
    requires parts != [] && parts[|parts| - 1].part == recipe.part && ValidPart(recipe.part) && EndsWith(acc, recipe.part.components)
    requires Lists(acc, l) && Build(recipe, acc, l).Ok?
    ensures var s := Build(recipe, acc, l).value;
      ScalarsOf(recipe, parts, s) && ConstraintsOf(parts, s.components.aptConstraints) && VariantsOf(parts, s.variants)
  {
    BuiltFields(recipe, acc, l, recipe.part.components);
    ScalarsAre(lib, InitialAccum(recipe), parts);
    LastSomeFromNone(RoleIn, parts);
    LastSomeFromNone(EntrypointIn, parts);
    StrategyFromParts(recipe, parts);
    forall k ensures IsLastSome(ConstraintFor(k), parts, At(acc.aptConstraints, k)) && IsLastSome(VariantFor(k), parts, At(acc.variants, k)) {
      MapsAre(lib, InitialAccum(recipe), parts, k);
      LastSomeFromNone(ConstraintFor(k), parts);
      LastSomeFromNone(VariantFor(k), parts);
    }
  }

  /** The recipe's own strategy comes last, so starting from it changes nothing. */
  lemma {:induction false} StrategyFromParts(recipe: Recipe, parts: seq<Sourced>)
    requires parts != [] && parts[|parts| - 1].part == recipe.part
    ensures IsLastSome(StrategyIn, parts, LastSome(StrategyIn, parts, recipe.part.buildStrategy))
  {
    LastSomeIs(StrategyIn, parts, recipe.part.buildStrategy);
    var last := parts[|parts| - 1];
    if recipe.part.buildStrategy.Some? {
      assert last in parts && StrategyIn(last).Some?;
    } else {
      LastSomeFromNone(StrategyIn, parts);
    }
  }
}
