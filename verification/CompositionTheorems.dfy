/** The main results about `compose_stack` and the reports that predict it. */
module CompositionTheorems {
  import opened Basics
  import opened Specs
  import opened LastWriter
  import opened Composition
  import opened CompositionLaws
  import opened ConflictReports

  ghost predicate ValidSpecs(recipe: Recipe, layers: seq<Layer>) {
    ValidPart(recipe.part) && forall l :: l in layers ==> ValidPart(l.part)
  }

  function PartsOf(recipe: Recipe, layers: seq<Layer>): seq<Sourced> {
    Sources(recipe, Referenced(recipe.layers, ById(layers)))
  }

  // ----- layer references -----

  lemma {:induction false} ByIdMember(layers: seq<Layer>, id: string)
    ensures id in ById(layers) ==> ById(layers)[id] in layers && ById(layers)[id].id == id
  {
    if layers != [] {
      var init := layers[..|layers| - 1];
      ByIdMember(init, id);
      assert layers == init + [layers[|layers| - 1]];
    }
  }

  lemma {:induction false} ReferencedMember(ids: seq<string>, byId: map<string, Layer>, l: Layer)
    ensures l in Referenced(ids, byId) <==> exists id :: id in ids && id in byId && byId[id] == l
  {
    if ids != [] {
      ReferencedMember(ids[1..], byId, l);
      assert ids == [ids[0]] + ids[1..];
    }
  }

  lemma {:induction false} SourcesMember(recipe: Recipe, ordered: seq<Layer>, s: Sourced)
    ensures s in Sources(recipe, ordered) <==>
      s == Sourced("recipe:" + recipe.id, recipe.part) || exists l :: l in ordered && s == Sourced("layer:" + l.id, l.part)
  {
    var head := Map((l: Layer) => Sourced("layer:" + l.id, l.part), ordered);
    if s in Sources(recipe, ordered) && s != Sourced("recipe:" + recipe.id, recipe.part) {
      assert s in head;
      var i :| 0 <= i < |head| && head[i] == s;
      assert ordered[i] in ordered;
    }
    if l :| l in ordered && s == Sourced("layer:" + l.id, l.part) {
      var i :| 0 <= i < |ordered| && ordered[i] == l;
      assert head[i] == s;
      assert Sources(recipe, ordered)[i] == s;
    }
    assert Sources(recipe, ordered)[|ordered|] == Sourced("recipe:" + recipe.id, recipe.part);
  }

  lemma {:induction false} PartsAreValid(recipe: Recipe, layers: seq<Layer>)
    requires ValidSpecs(recipe, layers)
    ensures ValidParts(PartsOf(recipe, layers))
  {
    var ordered := Referenced(recipe.layers, ById(layers));
    forall s | s in PartsOf(recipe, layers) ensures ValidPart(s.part) {
      SourcesMember(recipe, ordered, s);
      if l :| l in ordered && s == Sourced("layer:" + l.id, l.part) {
        ReferencedMember(recipe.layers, ById(layers), l);
        var id :| id in recipe.layers && id in ById(layers) && ById(layers)[id] == l;
        ByIdMember(layers, id);
      }
    }
  }

  // ----- building the final stack -----

  lemma {:induction false} CopiesKeyed(parts: seq<Sourced>)
    ensures forall e :: e in Gather(CopyE, parts) ==> e.key == CopyKey(e.value)
    ensures Agree(Gather(CopyE, parts))
  {
    forall e | e in Gather(CopyE, parts) ensures e.key == CopyKey(e.value) {
      GatherMember(CopyE, parts, e);
    }
    forall a, b | a in Gather(CopyE, parts) && b in Gather(CopyE, parts) && a.key == b.key ensures a.value == b.value {
      assert a.key[0] == a.value.src && a.key[1] == a.value.dst;
      assert b.key[0] == b.value.src && b.key[1] == b.value.dst;
    }
  }

  ghost predicate FromParts(recipe: Recipe, parts: seq<Sourced>, acc: Accum) {
    && GoodAccum(acc) && Sums(InitialAccum(recipe), parts, acc) && EndsWith(acc, recipe.part.components)
  }

  lemma {:induction false} CopyKept(parts: seq<Sourced>, copies: map<Key, CopyItem>, keys: seq<Key>, item: CopyItem)
    requires copies == Put(map[], Gather(CopyE, parts)) && forall k :: k in keys <==> k in copies
    requires parts != [] && item in parts[|parts| - 1].part.copyItems
    ensures item in Values(keys, copies)
  {
    var last := parts[|parts| - 1];
    var e := Entry(CopyKey(item), item);
    var j :| 0 <= j < |last.part.copyItems| && last.part.copyItems[j] == item;
    assert CopyE(last)[j] == e;
    GatherMember(CopyE, parts, e);
    CopiesKeyed(parts);
    PutUnderAgreement<Key, CopyItem>(map[], Gather(CopyE, parts));
    assert e.key in keys;
    var i :| 0 <= i < |keys| && keys[i] == e.key;
    assert Values(keys, copies)[i] == item;
  }

  lemma {:induction false} LockPolicyKept(recipe: Recipe, parts: seq<Sourced>, acc: Accum, l: Listings)
    requires FromParts(recipe, parts, acc) && ValidPart(recipe.part) && ListingsOf(acc, l) && Lists(acc, l)
    requires parts != [] && parts[|parts| - 1].part == recipe.part
    ensures LockPolicyHolds(acc.npmMode, Values(l.copies, acc.copies))
  {
    if acc.npmMode == LockOnly {
      var item :| item in recipe.part.copyItems && IsLockfile(item.src);
      CopyKept(parts, acc.copies, l.copies, item);
    }
  }

  function Assembled(acc: Accum, l: Listings): Components
    requires Lists(acc, l)
  {
    Components(
      Some(if acc.baseRole == "" then "python" else acc.baseRole), Values(l.pip, Deps(acc.pip)), Values(l.npm, Deps(acc.npm)),
      l.apt, acc.aptConstraints, acc.aptMode, acc.pipMode, acc.wheelhousePath, acc.npmMode)
  }

  lemma {:induction false} BuildUnfolds(recipe: Recipe, acc: Accum, l: Listings)
    requires Lists(acc, l)
    ensures Build(recipe, acc, l).Ok? <==>
      ValidateComponents(Assembled(acc, l)).Ok? && LockPolicyHolds(acc.npmMode, Values(l.copies, acc.copies))
  {
  }

  /** The StackSpec validators object only to a pin_only recipe with an unpinned apt package. */
  lemma {:induction false} BuildOutcome(recipe: Recipe, parts: seq<Sourced>, acc: Accum, l: Listings)
    requires FromParts(recipe, parts, acc) && ValidPart(recipe.part) && ListingsOf(acc, l) && Lists(acc, l)
    requires parts != [] && parts[|parts| - 1].part == recipe.part
    ensures Build(recipe, acc, l).Ok? <==>
      (recipe.part.components.aptMode == PinOnly ==> AptOf(parts) <= PinnedOf(parts))
  {
    BuildUnfolds(recipe, acc, l);
    LockPolicyKept(recipe, parts, acc, l);
    AptMembers(acc, l);
    AssembledValid(acc, l, recipe.part.components);
    AptTotals(recipe, parts, acc);
  }

  lemma {:induction false} AptMembers(acc: Accum, l: Listings)
    requires ListingsOf(acc, l)
    ensures forall p :: p in l.apt <==> p in acc.apt
  {
  }

  lemma {:induction false} AptTotals(recipe: Recipe, parts: seq<Sourced>, acc: Accum)
    requires Sums(InitialAccum(recipe), parts, acc)
    ensures acc.apt == AptOf(parts) && acc.aptConstraints.Keys == PinnedOf(parts)
  {
  }

  lemma {:induction false} AssembledValid(acc: Accum, l: Listings, model: Components)
    requires Lists(acc, l) && (forall p :: p in l.apt <==> p in acc.apt)
    requires ValidComponents(model) && EndsWith(acc, model)
    requires acc.aptConstraints.Keys <= acc.apt
    requires forall k :: k in acc.aptConstraints ==> NoNewline(acc.aptConstraints[k])
    ensures ValidateComponents(Assembled(acc, l)).Ok? <==> (model.aptMode == PinOnly ==> acc.apt <= acc.aptConstraints.Keys)
  {
    var c := Assembled(acc, l);
    ValidationOutcome(c, model);
    assert c.apt == l.apt && c.aptConstraints == acc.aptConstraints && c.aptMode == model.aptMode;
  }

  lemma {:induction false} ValidationOutcome(c: Components, model: Components)
    requires ValidComponents(model) && c.aptMode == model.aptMode && c.pipMode == model.pipMode
    requires c.wheelhousePath == model.wheelhousePath
    requires forall k :: k in c.aptConstraints ==> k in c.apt && NoNewline(c.aptConstraints[k])
    ensures ValidateComponents(c).Ok? <==> (c.aptMode == PinOnly ==> forall p :: p in c.apt ==> p in c.aptConstraints)
    ensures ValidateComponents(c).Ok? ==> ValidateComponents(c).value == c
  {
  }

  lemma {:induction false} ComposeOutcome(lib: Pep440, recipe: Recipe, layers: seq<Layer>)
    requires ValidSpecs(recipe, layers)
    ensures var parts, consumed := PartsOf(recipe, layers), ConsumeAll(lib, InitialAccum(recipe), PartsOf(recipe, layers));
      && ValidParts(parts) && parts != [] && parts[|parts| - 1].part == recipe.part
      && (consumed.Ok? <==> PipChain(lib, map[], Gather(PipE, parts)) && NpmChain(map[], Gather(NpmE, parts)))
      && (consumed.Ok? ==> FromParts(recipe, parts, consumed.value))
  {
    var parts := PartsOf(recipe, layers);
    PartsAreValid(recipe, layers);
    assert Deps(InitialAccum(recipe).pip) == map[] && Deps(InitialAccum(recipe).npm) == map[];
    ConsumeAllOutcome(lib, InitialAccum(recipe), parts);
  }

  // ----- when composition succeeds -----

  predicate ReferencesResolve(recipe: Recipe, layers: seq<Layer>) {
    forall id :: id in recipe.layers ==> id in ById(layers)
  }

  ghost predicate NoHardConflict(lib: Pep440, recipe: Recipe, layers: seq<Layer>) {
    AnalyzeDependencies(lib, recipe, layers).Ok? && !Blocked(AnalyzeDependencies(lib, recipe, layers).value)
  }

  lemma {:induction false} ReportOutcome(lib: Pep440, recipe: Recipe, layers: seq<Layer>)
    requires ValidSpecs(recipe, layers)
    ensures var pips, npms := Gather(PipE, PartsOf(recipe, layers)), Gather(NpmE, PartsOf(recipe, layers));
      var r := AnalyzeDependencies(lib, recipe, layers);
      && (NoHardConflict(lib, recipe, layers) <==> PipChain(lib, map[], pips) && NpmChain(map[], npms))
      && (r.Ok? && !Touched(r.value) <==> Steady(map[], pips) && Steady(map[], npms))
  {
    PartsAreValid(recipe, layers);
    PushPartsOutcome(lib, NoDeps, map[], map[], PartsOf(recipe, layers));
    assert !Blocked([]) && !Touched([]);
  }

  lemma {:induction false} ComposeUnfolds(lib: Pep440, recipe: Recipe, layers: seq<Layer>)
    ensures var consumed := ConsumeAll(lib, InitialAccum(recipe), PartsOf(recipe, layers));
      && (Compose(lib, recipe, layers).Ok? <==>
          && Distinct(recipe.layers) && ReferencesResolve(recipe, layers)
          && consumed.Ok? && Build(recipe, consumed.value, ListingsFor(consumed.value)).Ok?)
      && (Compose(lib, recipe, layers).Ok? ==>
          Compose(lib, recipe, layers) == Build(recipe, consumed.value, ListingsFor(consumed.value)))
  {
  }

  /**
   Composition succeeds exactly when the references are distinct and known, the
   dependency report has no pip or npm error, and a pin_only recipe pins every
   merged apt package.
   */
  lemma {:induction false} ComposeSucceedsIff(lib: Pep440, recipe: Recipe, layers: seq<Layer>)
    requires ValidSpecs(recipe, layers)
    ensures Compose(lib, recipe, layers).Ok? <==>
      && Distinct(recipe.layers) && ReferencesResolve(recipe, layers)
      && NoHardConflict(lib, recipe, layers)
      && (recipe.part.components.aptMode == PinOnly ==>
            AptOf(PartsOf(recipe, layers)) <= PinnedOf(PartsOf(recipe, layers)))
  {
    var parts := PartsOf(recipe, layers);
    ComposeOutcome(lib, recipe, layers);
    ReportOutcome(lib, recipe, layers);
    var consumed := ConsumeAll(lib, InitialAccum(recipe), parts);
    ComposeUnfolds(lib, recipe, layers);
    if consumed.Ok? {
      BuildOutcome(recipe, parts, consumed.value, ListingsFor(consumed.value));
    }
  }

  // ----- what composition merges to -----

  /** `e` is the last entry with its key. */
  ghost predicate LastOfKey<K, V>(es: seq<Entry<K, V>>, e: Entry<K, V>) {
    exists i :: 0 <= i < |es| && es[i] == e && forall j :: i < j < |es| ==> es[j].key != e.key
  }

  lemma {:induction false} PutKeepsLast<K, V>(m: map<K, V>, es: seq<Entry<K, V>>, k: K)
    requires k in Put(m, es) && (forall e :: e in es ==> e.key != k) ==> k in m
    ensures (exists e :: e in es && e.key == k) ==> k in Put(m, es) && LastOfKey(es, Entry(k, Put(m, es)[k]))
    ensures (forall e :: e in es ==> e.key != k) ==> (k in Put(m, es) <==> k in m) && (k in m ==> Put(m, es)[k] == m[k])
    decreases es
  {
    if es != [] {
      var m', rest := m[es[0].key := es[0].value], es[1..];
      assert es == [es[0]] + rest;
      PutKeepsLast(m', rest, k);
      if exists e :: e in rest && e.key == k {
        var i :| 0 <= i < |rest| && rest[i] == Entry(k, Put(m', rest)[k]) && forall j :: i < j < |rest| ==> rest[j].key != k;
        assert es[i + 1] == rest[i];
        assert forall j :: i + 1 < j < |es| ==> es[j] == rest[j - 1];
        assert LastOfKey(es, Entry(k, Put(m, es)[k]));
      } else if es[0].key == k {
        assert forall j :: 0 < j < |es| ==> es[j] in rest;
        assert LastOfKey(es, Entry(k, Put(m, es)[k]));
      } else {
        assert forall e :: e in es ==> e.key != k;
      }
    }
  }

  lemma {:induction false} LastOfKeyUnique<K, V>(es: seq<Entry<K, V>>, a: Entry<K, V>, b: Entry<K, V>)
    requires LastOfKey(es, a) && LastOfKey(es, b) && a.key == b.key
    ensures a == b
  {
    var i :| 0 <= i < |es| && es[i] == a && forall j :: i < j < |es| ==> es[j].key != a.key;
    var j :| 0 <= j < |es| && es[j] == b && forall k :: j < k < |es| ==> es[k].key != b.key;
    assert i == j;
  }

  // ----- layer order -----

  /** The reports list no pip, npm, env or base_role entry. */
  ghost predicate CleanReports(lib: Pep440, recipe: Recipe, layers: seq<Layer>) {
    && AnalyzeDependencies(lib, recipe, layers).Ok?
    && !Touched(AnalyzeDependencies(lib, recipe, layers).value)
    && !Mentions(AnalyzeRuntime(recipe, layers), Env)
    && !Mentions(AnalyzeRuntime(recipe, layers), BaseRole)
  }

  lemma {:induction false} CleanReportsMean(lib: Pep440, recipe: Recipe, layers: seq<Layer>)
    requires ValidSpecs(recipe, layers)
    ensures var parts := PartsOf(recipe, layers);
      CleanReports(lib, recipe, layers) <==>
      && Steady(map[], Gather(PipE, parts)) && Steady(map[], Gather(NpmE, parts))
      && Steady(map[], Gather(EnvE, parts)) && Steady(map[], Gather(RoleE, parts))
  {
    ReportOutcome(lib, recipe, layers);
    PushRuntimesOutcome(NoRuntime, PartsOf(recipe, layers));
    assert SeenEnv(NoRuntime.env) == map[];
    assert !Mentions([], Env) && !Mentions([], BaseRole);
  }

  lemma {:induction false} SameParts(a: Recipe, b: Recipe, layers: seq<Layer>)
    requires b == a.(layers := b.layers) && multiset(a.layers) == multiset(b.layers)
    ensures forall s :: s in PartsOf(a, layers) <==> s in PartsOf(b, layers)
  {
    var byId := ById(layers);
    forall id ensures id in a.layers <==> id in b.layers {
      assert id in multiset(a.layers) <==> id in multiset(b.layers);
    }
    forall s ensures s in PartsOf(a, layers) <==> s in PartsOf(b, layers) {
      SourcesMember(a, Referenced(a.layers, byId), s);
      SourcesMember(b, Referenced(b.layers, byId), s);
      forall l ensures l in Referenced(a.layers, byId) <==> l in Referenced(b.layers, byId) {
        ReferencedMember(a.layers, byId, l);
        ReferencedMember(b.layers, byId, l);
      }
    }
  }

  lemma {:induction false} PermutedDistinct<T>(a: seq<T>, b: seq<T>)
    requires multiset(a) == multiset(b) && Distinct(a)
    ensures Distinct(b)
  {
    DistinctCounts(a);
    forall i, j | 0 <= i < j < |b| ensures b[i] != b[j] {
      PairCounts(b, i, j);
    }
  }

  lemma {:induction false} PairCounts<T>(b: seq<T>, i: nat, j: nat)
    requires i < j < |b|
    ensures b[i] == b[j] ==> multiset(b)[b[i]] >= 2
  {
    assert b == b[..i] + [b[i]] + b[i + 1..j] + [b[j]] + b[j + 1..];
  }

  lemma {:induction false} DistinctCounts<T>(a: seq<T>)
    requires Distinct(a)
    ensures forall x :: multiset(a)[x] <= 1
  {
    if a != [] {
      assert a == [a[0]] + a[1..];
      DistinctCounts(a[1..]);
      assert a[0] !in a[1..];
    }
  }

  /** Equal up to build strategy, apt constraints, variants, entrypoint and the layer list itself. */
  predicate SameAssembly(a: Stack, b: Stack) {
    && a.components.baseRole == b.components.baseRole
    && a.components.pip == b.components.pip && a.components.npm == b.components.npm
    && a.components.apt == b.components.apt
    && a.components.aptMode == b.components.aptMode && a.components.pipMode == b.components.pipMode
    && a.components.wheelhousePath == b.components.wheelhousePath && a.components.npmMode == b.components.npmMode
    && a.env == b.env && a.ports == b.ports && a.copyItems == b.copyItems
  }

  lemma {:induction false} SameAccums(a: Recipe, b: Recipe, parts: seq<Sourced>, parts': seq<Sourced>, acc: Accum, acc': Accum)
    requires FromParts(a, parts, acc) && FromParts(b, parts', acc') && b == a.(layers := b.layers)
    requires forall s :: s in parts <==> s in parts'
    requires Steady(map[], Gather(PipE, parts)) && Steady(map[], Gather(NpmE, parts))
    requires Steady(map[], Gather(EnvE, parts)) && Steady(map[], Gather(RoleE, parts))
    ensures Deps(acc.pip) == Deps(acc'.pip) && Deps(acc.npm) == Deps(acc'.npm)
    ensures acc.env == acc'.env && acc.copies == acc'.copies && acc.baseRole == acc'.baseRole
    ensures acc.apt == acc'.apt && acc.aptConstraints.Keys == acc'.aptConstraints.Keys && acc.ports == acc'.ports
  {
    SteadyPartsIgnoreOrder(PipE, parts, parts');
    SteadyPartsIgnoreOrder(NpmE, parts, parts');
    SteadyPartsIgnoreOrder(EnvE, parts, parts');
    SteadyPartsIgnoreOrder(RoleE, parts, parts');
    CopiesKeyed(parts);
    SteadyIffAgree<Key, CopyItem>(map[], Gather(CopyE, parts));
    SteadyPartsIgnoreOrder(CopyE, parts, parts');
    assert AptOf(parts) == AptOf(parts') && PinnedOf(parts) == PinnedOf(parts') && PortsOf(parts) == PortsOf(parts');
    assert RoleMap(acc.baseRole) == RoleMap(acc'.baseRole);
    assert acc.baseRole == acc'.baseRole by {
      if acc.baseRole != "" { assert RoleMap(acc.baseRole)[()] == acc.baseRole; }
      if acc'.baseRole != "" { assert RoleMap(acc'.baseRole)[()] == acc'.baseRole; }
    }
  }

  lemma {:induction false} SameBuilds(a: Recipe, b: Recipe, acc: Accum, acc': Accum, l: Listings)
    requires b == a.(layers := b.layers) && Lists(acc, l) && Lists(acc', l)
    requires EndsWith(acc, a.part.components) && EndsWith(acc', a.part.components)
    requires Deps(acc.pip) == Deps(acc'.pip) && Deps(acc.npm) == Deps(acc'.npm)
    requires acc.env == acc'.env && acc.copies == acc'.copies && acc.baseRole == acc'.baseRole
    requires Build(a, acc, l).Ok? && Build(b, acc', l).Ok?
    ensures SameAssembly(Build(a, acc, l).value, Build(b, acc', l).value)
  {
  }

  /**
   Under clean reports the order of the layers is immaterial: every permutation also
   has clean reports, succeeds or fails alike, and composes to the same assembly.
   */
  lemma {:induction false} LayerOrderIsImmaterial(lib: Pep440, recipe: Recipe, layers: seq<Layer>, order: seq<string>)
    requires ValidSpecs(recipe, layers) && CleanReports(lib, recipe, layers)
    requires multiset(order) == multiset(recipe.layers)
    ensures var permuted := recipe.(layers := order);
      && CleanReports(lib, permuted, layers)
      && (Compose(lib, permuted, layers).Ok? <==> Compose(lib, recipe, layers).Ok?)
      && (Compose(lib, recipe, layers).Ok? ==>
            SameAssembly(Compose(lib, recipe, layers).value, Compose(lib, permuted, layers).value))
  {
    var permuted := recipe.(layers := order);
    var parts, parts' := PartsOf(recipe, layers), PartsOf(permuted, layers);
    SameParts(recipe, permuted, layers);
    CleanReportsMean(lib, recipe, layers);
    CleanReportsMean(lib, permuted, layers);
    SteadyPartsIgnoreOrder(PipE, parts, parts');
    SteadyPartsIgnoreOrder(NpmE, parts, parts');
    SteadyPartsIgnoreOrder(EnvE, parts, parts');
    SteadyPartsIgnoreOrder(RoleE, parts, parts');
    SameSuccess(lib, recipe, permuted, layers);
    if Compose(lib, recipe, layers).Ok? {
      SameResult(lib, recipe, permuted, layers);
    }
  }

  lemma {:induction false} SameResult(lib: Pep440, a: Recipe, b: Recipe, layers: seq<Layer>)
    requires b == a.(layers := b.layers) && multiset(a.layers) == multiset(b.layers)
    requires ValidSpecs(a, layers) && CleanReports(lib, a, layers)
    requires Compose(lib, a, layers).Ok? && Compose(lib, b, layers).Ok?
    ensures SameAssembly(Compose(lib, a, layers).value, Compose(lib, b, layers).value)
  {
    ComposeUnfolds(lib, a, layers);
    ComposeUnfolds(lib, b, layers);
    ComposeOutcome(lib, a, layers);
    ComposeOutcome(lib, b, layers);
    SameParts(a, b, layers);
    CleanReportsMean(lib, a, layers);
    var acc := ConsumeAll(lib, InitialAccum(a), PartsOf(a, layers)).value;
    var acc' := ConsumeAll(lib, InitialAccum(b), PartsOf(b, layers)).value;
    SameAccums(a, b, PartsOf(a, layers), PartsOf(b, layers), acc, acc');
    SameListings(acc, acc');
    SameBuilds(a, b, acc, acc', ListingsFor(acc));
  }

  lemma {:induction false} SameListings(acc: Accum, acc': Accum)
    requires Deps(acc.pip) == Deps(acc'.pip) && Deps(acc.npm) == Deps(acc'.npm)
    requires acc.env == acc'.env && acc.copies == acc'.copies && acc.apt == acc'.apt && acc.ports == acc'.ports
    ensures ListingsFor(acc) == ListingsFor(acc')
  {
    assert acc.pip.Keys == Deps(acc.pip).Keys == acc'.pip.Keys;
    assert acc.npm.Keys == Deps(acc.npm).Keys == acc'.npm.Keys;
    ListingsUnique(acc', ListingsFor(acc));
  }

  lemma {:induction false} SameSuccess(lib: Pep440, a: Recipe, b: Recipe, layers: seq<Layer>)
    requires b == a.(layers := b.layers) && multiset(a.layers) == multiset(b.layers)
    requires ValidSpecs(a, layers) && CleanReports(lib, a, layers) && CleanReports(lib, b, layers)
    ensures Compose(lib, a, layers).Ok? <==> Compose(lib, b, layers).Ok?
  {
    ComposeSucceedsIff(lib, a, layers);
    ComposeSucceedsIff(lib, b, layers);
    SameParts(a, b, layers);
    assert forall id :: id in a.layers <==> id in multiset(a.layers);
    assert forall id :: id in b.layers <==> id in multiset(b.layers);
    if Distinct(a.layers) { PermutedDistinct(a.layers, b.layers); }
    if Distinct(b.layers) { PermutedDistinct(b.layers, a.layers); }
    assert AptOf(PartsOf(a, layers)) == AptOf(PartsOf(b, layers));
    assert PinnedOf(PartsOf(a, layers)) == PinnedOf(PartsOf(b, layers));
    CleanIsNotBlocked(AnalyzeDependencies(lib, a, layers).value);
    CleanIsNotBlocked(AnalyzeDependencies(lib, b, layers).value);
  }

  lemma {:induction false} CleanIsNotBlocked(cs: seq<Conflict>)
    requires !Touched(cs)
    ensures !Blocked(cs)
  {
    if c :| c in cs && IsHard(c) {
      assert IsDep(c);
    }
  }

  /** The tuple report is empty exactly when no two layers disagree on a watched key, in whatever order. */
  lemma {:induction false} TupleReportIgnoresOrder(recipe: Recipe, layers: seq<Layer>, order: seq<string>)
    requires multiset(order) == multiset(recipe.layers)
    ensures AnalyzeTuples(recipe, layers) == [] <==> Agree(Gather(NeedE, Referenced(recipe.layers, ById(layers))))
    ensures AnalyzeTuples(recipe, layers) == [] <==> AnalyzeTuples(recipe.(layers := order), layers) == []
  {
    var byId := ById(layers);
    var a, b := Referenced(recipe.layers, byId), Referenced(order, byId);
    assert forall id :: id in order <==> id in multiset(order);
    assert forall id :: id in recipe.layers <==> id in multiset(recipe.layers);
    forall l ensures l in a <==> l in b {
      ReferencedMember(recipe.layers, byId, l);
      ReferencedMember(order, byId, l);
    }
    var start := TupleState(map[], []);
    assert SeenEnv(start.seen) == map[];
    PushAllNeedsOutcome(start, a);
    PushAllNeedsOutcome(start, b);
    SteadyIffAgree<string, string>(map[], Gather(NeedE, a));
    SteadyPartsIgnoreOrder(NeedE, a, b);
  }
}
