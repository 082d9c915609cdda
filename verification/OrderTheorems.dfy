/** Exactly when the order of the layers shows in what the reports do not cover. */
module OrderTheorems {
  import opened Basics
  import opened Specs
  import opened Composition
  import opened CompositionTheorems
  import opened ComposedStack

  ghost predicate Permutes(recipe: Recipe, order: seq<string>) { multiset(order) == multiset(recipe.layers) }

  function Reorder(recipe: Recipe, order: seq<string>): Recipe { recipe.(layers := order) }

  ghost predicate ComposesInEveryOrder(lib: Pep440, recipe: Recipe, layers: seq<Layer>) {
    forall order :: Permutes(recipe, order) ==> Compose(lib, Reorder(recipe, order), layers).Ok?
  }

  /** Clean reports and one composition suffice. */
  lemma {:induction false} CleanComposesInEveryOrder(lib: Pep440, recipe: Recipe, layers: seq<Layer>)
    requires ValidSpecs(recipe, layers) && CleanReports(lib, recipe, layers) && Compose(lib, recipe, layers).Ok?
    ensures ComposesInEveryOrder(lib, recipe, layers)
  {
    forall order | Permutes(recipe, order) ensures Compose(lib, Reorder(recipe, order), layers).Ok? {
      LayerOrderIsImmaterial(lib, recipe, layers, order);
    }
  }

  function RecipeSource(recipe: Recipe): Sourced { Sourced("recipe:" + recipe.id, recipe.part) }
  function LayerSource(l: Layer): Sourced { Sourced("layer:" + l.id, l.part) }

  /** The recipe has the last word, or all referenced layers that say something say the same. */
  ghost predicate SettersAgree<T>(f: Sourced -> Option<T>, recipe: Recipe, layers: seq<Layer>) {
    || f(RecipeSource(recipe)).Some?
    || var ls := Referenced(recipe.layers, ById(layers));
       forall a, b :: a in ls && b in ls && f(LayerSource(a)).Some? && f(LayerSource(b)).Some? ==> f(LayerSource(a)) == f(LayerSource(b))
  }

  function Said<T>(f: Sourced -> Option<T>, recipe: Recipe, layers: seq<Layer>, order: seq<string>): Option<T> {
    LastSome(f, PartsOf(Reorder(recipe, order), layers), None)
  }

  lemma {:induction false} LastSomeUnique<T>(f: Sourced -> Option<T>, parts: seq<Sourced>, r: Option<T>, q: Option<T>)
    requires IsLastSome(f, parts, r) && IsLastSome(f, parts, q)
    ensures r == q
  {
    if r.Some? && q.Some? {
      var i :| 0 <= i < |parts| && f(parts[i]) == r && forall j :: i < j < |parts| ==> f(parts[j]) == None;
      var k :| 0 <= k < |parts| && f(parts[k]) == q && forall j :: k < j < |parts| ==> f(parts[j]) == None;
      assert i == k;
    }
  }

  lemma {:induction false} SaidIs<T>(f: Sourced -> Option<T>, recipe: Recipe, layers: seq<Layer>, order: seq<string>, r: Option<T>)
    requires IsLastSome(f, PartsOf(Reorder(recipe, order), layers), r)
    ensures r == Said(f, recipe, layers, order)
  {
    var parts := PartsOf(Reorder(recipe, order), layers);
    LastSomeFromNone(f, parts);
    LastSomeUnique(f, parts, r, LastSome(f, parts, None));
  }

  // ----- agreement suffices -----

  lemma {:induction false} LastPart(recipe: Recipe, layers: seq<Layer>)
    ensures var parts := PartsOf(recipe, layers); parts != [] && parts[|parts| - 1] == RecipeSource(recipe)
  {
  }

  lemma {:induction false} RecipeDecides<T>(f: Sourced -> Option<T>, recipe: Recipe, layers: seq<Layer>, order: seq<string>)
    requires f(RecipeSource(recipe)).Some?
    ensures Said(f, recipe, layers, order) == f(RecipeSource(recipe))
  {
    var parts := PartsOf(Reorder(recipe, order), layers);
    LastPart(Reorder(recipe, order), layers);
    assert parts[|parts| - 1] == RecipeSource(recipe);
    assert IsLastSome(f, parts, f(RecipeSource(recipe)));
    SaidIs(f, recipe, layers, order, f(RecipeSource(recipe)));
  }

  /** Some part speaks, in whatever order. */
  ghost predicate Spoken<T>(f: Sourced -> Option<T>, parts: seq<Sourced>, v: Option<T>) { exists p :: p in parts && f(p) == v }

  lemma {:induction false} SaidBySomeone<T>(f: Sourced -> Option<T>, recipe: Recipe, layers: seq<Layer>, order: seq<string>)
    requires Permutes(recipe, order)
    ensures var v, parts := Said(f, recipe, layers, order), PartsOf(recipe, layers);
      if v.None? then forall p :: p in parts ==> f(p) == None else Spoken(f, parts, v)
  {
    var parts := PartsOf(Reorder(recipe, order), layers);
    LastSomeFromNone(f, parts);
    SameParts(recipe, Reorder(recipe, order), layers);
    var v := Said(f, recipe, layers, order);
    if v.Some? {
      var i :| 0 <= i < |parts| && f(parts[i]) == v;
      assert parts[i] in parts;
    }
  }

  lemma {:induction false} SpeakerIsLayer<T>(f: Sourced -> Option<T>, recipe: Recipe, layers: seq<Layer>, v: Option<T>) returns (l: Layer)
    requires Spoken(f, PartsOf(recipe, layers), v) && v.Some? && f(RecipeSource(recipe)).None?
    ensures l in Referenced(recipe.layers, ById(layers)) && f(LayerSource(l)) == v
  {
    var p :| p in PartsOf(recipe, layers) && f(p) == v;
    SourcesMember(recipe, Referenced(recipe.layers, ById(layers)), p);
    l :| l in Referenced(recipe.layers, ById(layers)) && p == LayerSource(l);
  }

  lemma {:induction false} AgreementSuffices<T>(f: Sourced -> Option<T>, recipe: Recipe, layers: seq<Layer>, x: seq<string>, y: seq<string>)
    requires SettersAgree(f, recipe, layers) && Permutes(recipe, x) && Permutes(recipe, y)
    ensures Said(f, recipe, layers, x) == Said(f, recipe, layers, y)
  {
    if f(RecipeSource(recipe)).Some? {
      RecipeDecides(f, recipe, layers, x);
      RecipeDecides(f, recipe, layers, y);
    } else {
      SaidBySomeone(f, recipe, layers, x);
      SaidBySomeone(f, recipe, layers, y);
      var u, v := Said(f, recipe, layers, x), Said(f, recipe, layers, y);
      if u.Some? && v.Some? {
        var a := SpeakerIsLayer(f, recipe, layers, u);
        var b := SpeakerIsLayer(f, recipe, layers, v);
      }
    }
  }

  // ----- and is needed -----

  lemma {:induction false} ReferencedLast(ids: seq<string>, byId: map<string, Layer>, id: string)
    requires id in byId
    ensures Referenced(ids + [id], byId) == Referenced(ids, byId) + [byId[id]]
  {
    if ids == [] {
      assert ids + [id] == [id] && [id][1..] == [];
    } else {
      assert (ids + [id])[0] == ids[0] && (ids + [id])[1..] == ids[1..] + [id];
      ReferencedLast(ids[1..], byId, id);
      var first := if ids[0] in byId then [byId[ids[0]]] else [];
      assert Referenced(ids, byId) == first + Referenced(ids[1..], byId);
      assert first + (Referenced(ids[1..], byId) + [byId[id]]) == first + Referenced(ids[1..], byId) + [byId[id]];
    }
  }

  lemma {:induction false} LastButRecipe<T>(f: Sourced -> Option<T>, recipe: Recipe, ordered: seq<Layer>, l: Layer)
    requires f(RecipeSource(recipe)).None? && f(LayerSource(l)).Some?
    ensures IsLastSome(f, Sources(recipe, ordered + [l]), f(LayerSource(l)))
  {
    var parts := Sources(recipe, ordered + [l]);
    assert (ordered + [l])[|ordered|] == l;
    assert parts[|ordered|] == LayerSource(l) && parts[|ordered| + 1] == RecipeSource(recipe);
  }

  /** A silent recipe lets any referenced layer have the last word. */
  lemma {:induction false} LastWord<T>(f: Sourced -> Option<T>, recipe: Recipe, layers: seq<Layer>, l: Layer) returns (order: seq<string>)
    requires l in Referenced(recipe.layers, ById(layers)) && f(RecipeSource(recipe)).None? && f(LayerSource(l)).Some?
    ensures Permutes(recipe, order) && Said(f, recipe, layers, order) == f(LayerSource(l))
  {
    var byId := ById(layers);
    ReferencedMember(recipe.layers, byId, l);
    var id :| id in recipe.layers && id in byId && byId[id] == l;
    var i :| 0 <= i < |recipe.layers| && recipe.layers[i] == id;
    var others := recipe.layers[..i] + recipe.layers[i + 1..];
    order := others + [id];
    TakenOut(recipe.layers, i);
    ReferencedLast(others, byId, id);
    LastButRecipe(f, Reorder(recipe, order), Referenced(others, byId), l);
    SaidIs(f, recipe, layers, order, f(LayerSource(l)));
  }

  ghost predicate SaidAlike<T>(f: Sourced -> Option<T>, recipe: Recipe, layers: seq<Layer>, x: seq<string>, y: seq<string>) {
    Said(f, recipe, layers, x) == Said(f, recipe, layers, y)
  }

  ghost predicate AlwaysAlike<T>(f: Sourced -> Option<T>, recipe: Recipe, layers: seq<Layer>) {
    forall x, y :: Permutes(recipe, x) && Permutes(recipe, y) ==> SaidAlike(f, recipe, layers, x, y)
  }

  /** What the layers say last is the same in every order if and only if the setters agree. */
  lemma {:induction false} SaidAlikeIff<T>(f: Sourced -> Option<T>, recipe: Recipe, layers: seq<Layer>)
    ensures SettersAgree(f, recipe, layers) <==> AlwaysAlike(f, recipe, layers)
  {
    if SettersAgree(f, recipe, layers) {
      forall x, y | Permutes(recipe, x) && Permutes(recipe, y) ensures SaidAlike(f, recipe, layers, x, y) {
        AgreementSuffices(f, recipe, layers, x, y);
      }
    } else {
      var ls := Referenced(recipe.layers, ById(layers));
      var a, b :| a in ls && b in ls && f(LayerSource(a)).Some? && f(LayerSource(b)).Some? && f(LayerSource(a)) != f(LayerSource(b));
      var x := LastWord(f, recipe, layers, a);
      var y := LastWord(f, recipe, layers, b);
      assert !SaidAlike(f, recipe, layers, x, y);
    }
  }

  /** A default changes nothing: some part speaks in every order or in none. */
  lemma {:induction false} DefaultHidesNothing<T>(f: Sourced -> Option<T>, recipe: Recipe, layers: seq<Layer>, x: seq<string>, y: seq<string>, d: T)
    requires Permutes(recipe, x) && Permutes(recipe, y)
    ensures Said(f, recipe, layers, x).GetOr(d) == Said(f, recipe, layers, y).GetOr(d) <==> Said(f, recipe, layers, x) == Said(f, recipe, layers, y)
  {
    SaidBySomeone(f, recipe, layers, x);
    SaidBySomeone(f, recipe, layers, y);
  }

  // ----- the four fields -----

  lemma {:induction false} FieldsAreSaid(lib: Pep440, recipe: Recipe, layers: seq<Layer>, order: seq<string>, k: string)
    requires ValidSpecs(recipe, layers) && Compose(lib, Reorder(recipe, order), layers).Ok?
    ensures var s := Compose(lib, Reorder(recipe, order), layers).value;
      && s.buildStrategy == Said(StrategyIn, recipe, layers, order).GetOr(Overlay)
      && s.entrypoint == Said(EntrypointIn, recipe, layers, order).GetOr(DEFAULT_CMD)
      && At(s.components.aptConstraints, k) == Said(ConstraintFor(k), recipe, layers, order)
      && At(s.variants, k) == Said(VariantFor(k), recipe, layers, order)
  {
    var r := Reorder(recipe, order);
    ComposedStackIs(lib, r, layers);
    var s, parts := Compose(lib, r, layers).value, PartsOf(r, layers);
    var strategy :| IsLastSome(StrategyIn, parts, strategy) && s.buildStrategy == strategy.GetOr(Overlay);
    var cmd :| IsLastSome(EntrypointIn, parts, cmd) && s.entrypoint == cmd.GetOr(DEFAULT_CMD);
    SaidIs(StrategyIn, recipe, layers, order, strategy);
    SaidIs(EntrypointIn, recipe, layers, order, cmd);
    SaidIs(ConstraintFor(k), recipe, layers, order, At(s.components.aptConstraints, k));
    SaidIs(VariantFor(k), recipe, layers, order, At(s.variants, k));
  }

  /** A field of the composed stack is the same in every order of the layers. */
  ghost predicate OrderFree<T>(lib: Pep440, recipe: Recipe, layers: seq<Layer>, field: Stack -> T)
    requires ComposesInEveryOrder(lib, recipe, layers)
  {
    forall x, y :: Permutes(recipe, x) && Permutes(recipe, y) ==> SameField(lib, recipe, layers, field, x, y)
  }

  ghost predicate SameField<T>(lib: Pep440, recipe: Recipe, layers: seq<Layer>, field: Stack -> T, x: seq<string>, y: seq<string>)
    requires ComposesInEveryOrder(lib, recipe, layers) && Permutes(recipe, x) && Permutes(recipe, y)
  {
    field(Compose(lib, Reorder(recipe, x), layers).value) == field(Compose(lib, Reorder(recipe, y), layers).value)
  }

  /**
   The build strategy is the same in every order of the layers if and only if the recipe
   sets it or all referenced layers that set it agree.
   */
  lemma {:induction false} StrategyOrderFreeIff(lib: Pep440, recipe: Recipe, layers: seq<Layer>)
    requires ValidSpecs(recipe, layers) && ComposesInEveryOrder(lib, recipe, layers)
    ensures OrderFree(lib, recipe, layers, (s: Stack) => s.buildStrategy) <==> SettersAgree(StrategyIn, recipe, layers)
  {
    var field := (s: Stack) => s.buildStrategy;
    SaidAlikeIff(StrategyIn, recipe, layers);
    forall x, y | Permutes(recipe, x) && Permutes(recipe, y)
      ensures SameField(lib, recipe, layers, field, x, y) <==> SaidAlike(StrategyIn, recipe, layers, x, y)
    {
      FieldsAreSaid(lib, recipe, layers, x, "");
      FieldsAreSaid(lib, recipe, layers, y, "");
      DefaultHidesNothing(StrategyIn, recipe, layers, x, y, Overlay);
    }
  }

  /** The same holds of the entrypoint, word by word. */
  lemma {:induction false} EntrypointOrderFreeIff(lib: Pep440, recipe: Recipe, layers: seq<Layer>)
    requires ValidSpecs(recipe, layers) && ComposesInEveryOrder(lib, recipe, layers)
    ensures OrderFree(lib, recipe, layers, (s: Stack) => s.entrypoint) <==> SettersAgree(EntrypointIn, recipe, layers)
  {
    var field := (s: Stack) => s.entrypoint;
    SaidAlikeIff(EntrypointIn, recipe, layers);
    forall x, y | Permutes(recipe, x) && Permutes(recipe, y)
      ensures SameField(lib, recipe, layers, field, x, y) <==> SaidAlike(EntrypointIn, recipe, layers, x, y)
    {
      FieldsAreSaid(lib, recipe, layers, x, "");
      FieldsAreSaid(lib, recipe, layers, y, "");
      DefaultHidesNothing(EntrypointIn, recipe, layers, x, y, DEFAULT_CMD);
    }
  }

  /** And of the constraint of every apt package, and of every variant. */
  lemma {:induction false} ConstraintOrderFreeIff(lib: Pep440, recipe: Recipe, layers: seq<Layer>, package: string)
    requires ValidSpecs(recipe, layers) && ComposesInEveryOrder(lib, recipe, layers)
    ensures OrderFree(lib, recipe, layers, (s: Stack) => At(s.components.aptConstraints, package))
      <==> SettersAgree(ConstraintFor(package), recipe, layers)
  {
    var field := (s: Stack) => At(s.components.aptConstraints, package);
    SaidAlikeIff(ConstraintFor(package), recipe, layers);
    forall x, y | Permutes(recipe, x) && Permutes(recipe, y)
      ensures SameField(lib, recipe, layers, field, x, y) <==> SaidAlike(ConstraintFor(package), recipe, layers, x, y)
    {
      FieldsAreSaid(lib, recipe, layers, x, package);
      FieldsAreSaid(lib, recipe, layers, y, package);
    }
  }

  lemma {:induction false} VariantOrderFreeIff(lib: Pep440, recipe: Recipe, layers: seq<Layer>, name: string)
    requires ValidSpecs(recipe, layers) && ComposesInEveryOrder(lib, recipe, layers)
    ensures OrderFree(lib, recipe, layers, (s: Stack) => At(s.variants, name)) <==> SettersAgree(VariantFor(name), recipe, layers)
  {
    var field := (s: Stack) => At(s.variants, name);
    SaidAlikeIff(VariantFor(name), recipe, layers);
    forall x, y | Permutes(recipe, x) && Permutes(recipe, y)
      ensures SameField(lib, recipe, layers, field, x, y) <==> SaidAlike(VariantFor(name), recipe, layers, x, y)
    {
      FieldsAreSaid(lib, recipe, layers, x, name);
      FieldsAreSaid(lib, recipe, layers, y, name);
    }
  }
  // ----- the whole stack -----

  ghost predicate AllSettersAgree(recipe: Recipe, layers: seq<Layer>) {
    && SettersAgree(StrategyIn, recipe, layers) && SettersAgree(EntrypointIn, recipe, layers)
    && (forall package :: SettersAgree(ConstraintFor(package), recipe, layers))
    && (forall name :: SettersAgree(VariantFor(name), recipe, layers))
  }

  /** What composition writes the same into every stack. */
  lemma {:induction false} FixedFields(lib: Pep440, recipe: Recipe, layers: seq<Layer>)
    requires Compose(lib, recipe, layers).Ok?
    ensures var s := Compose(lib, recipe, layers).value;
      s == Stack(recipe.id, "custom", "custom", "custom", recipe.schemaVersion, s.buildStrategy, s.components, s.env, s.ports,
                 s.entrypoint, s.copyItems, s.variants, recipe.layers, recipe.needs, recipe.capabilities, map[])
  {
    ComposeUnfolds(lib, recipe, layers);
  }

  predicate SameRest(a: Stack, b: Stack) {
    && a.buildStrategy == b.buildStrategy && a.entrypoint == b.entrypoint
    && a.components.aptConstraints == b.components.aptConstraints && a.variants == b.variants
  }

  lemma {:induction false} SameMaps<V>(a: map<string, V>, b: map<string, V>)
    requires forall k :: At(a, k) == At(b, k)
    ensures a == b
  {
    forall k ensures k in a <==> k in b {
      assert At(a, k) == At(b, k);
    }
    forall k | k in a ensures a[k] == b[k] {
      assert At(a, k) == At(b, k);
    }
  }

  ghost predicate RestAlike(recipe: Recipe, layers: seq<Layer>, x: seq<string>, y: seq<string>) {
    && SaidAlike(StrategyIn, recipe, layers, x, y) && SaidAlike(EntrypointIn, recipe, layers, x, y)
    && (forall k :: SaidAlike(ConstraintFor(k), recipe, layers, x, y)) && (forall k :: SaidAlike(VariantFor(k), recipe, layers, x, y))
  }

  lemma {:induction false} MapsAlike(lib: Pep440, recipe: Recipe, layers: seq<Layer>, x: seq<string>, y: seq<string>, k: string)
    requires ValidSpecs(recipe, layers)
    requires Compose(lib, Reorder(recipe, x), layers).Ok? && Compose(lib, Reorder(recipe, y), layers).Ok?
    ensures var a, b := Compose(lib, Reorder(recipe, x), layers).value, Compose(lib, Reorder(recipe, y), layers).value;
      && (At(a.components.aptConstraints, k) == At(b.components.aptConstraints, k) <==> SaidAlike(ConstraintFor(k), recipe, layers, x, y))
      && (At(a.variants, k) == At(b.variants, k) <==> SaidAlike(VariantFor(k), recipe, layers, x, y))
  {
    FieldsAreSaid(lib, recipe, layers, x, k);
    FieldsAreSaid(lib, recipe, layers, y, k);
  }

  lemma {:induction false} ScalarsAlike(lib: Pep440, recipe: Recipe, layers: seq<Layer>, x: seq<string>, y: seq<string>)
    requires ValidSpecs(recipe, layers) && Permutes(recipe, x) && Permutes(recipe, y)
    requires Compose(lib, Reorder(recipe, x), layers).Ok? && Compose(lib, Reorder(recipe, y), layers).Ok?
    ensures var a, b := Compose(lib, Reorder(recipe, x), layers).value, Compose(lib, Reorder(recipe, y), layers).value;
      && (a.buildStrategy == b.buildStrategy <==> SaidAlike(StrategyIn, recipe, layers, x, y))
      && (a.entrypoint == b.entrypoint <==> SaidAlike(EntrypointIn, recipe, layers, x, y))
  {
    FieldsAreSaid(lib, recipe, layers, x, "");
    FieldsAreSaid(lib, recipe, layers, y, "");
    DefaultHidesNothing(StrategyIn, recipe, layers, x, y, Overlay);
    DefaultHidesNothing(EntrypointIn, recipe, layers, x, y, DEFAULT_CMD);
  }

  lemma {:induction false} ConstraintMapsAlike(lib: Pep440, recipe: Recipe, layers: seq<Layer>, x: seq<string>, y: seq<string>)
    requires ValidSpecs(recipe, layers)
    requires Compose(lib, Reorder(recipe, x), layers).Ok? && Compose(lib, Reorder(recipe, y), layers).Ok?
    ensures var a, b := Compose(lib, Reorder(recipe, x), layers).value, Compose(lib, Reorder(recipe, y), layers).value;
      a.components.aptConstraints == b.components.aptConstraints <==> forall k :: SaidAlike(ConstraintFor(k), recipe, layers, x, y)
  {
    var a, b := Compose(lib, Reorder(recipe, x), layers).value, Compose(lib, Reorder(recipe, y), layers).value;
    forall k
      ensures At(a.components.aptConstraints, k) == At(b.components.aptConstraints, k) <==> SaidAlike(ConstraintFor(k), recipe, layers, x, y)
    {
      MapsAlike(lib, recipe, layers, x, y, k);
    }
    if forall k :: SaidAlike(ConstraintFor(k), recipe, layers, x, y) {
      SameMaps(a.components.aptConstraints, b.components.aptConstraints);
    }
  }

  lemma {:induction false} VariantMapsAlike(lib: Pep440, recipe: Recipe, layers: seq<Layer>, x: seq<string>, y: seq<string>)
    requires ValidSpecs(recipe, layers)
    requires Compose(lib, Reorder(recipe, x), layers).Ok? && Compose(lib, Reorder(recipe, y), layers).Ok?
    ensures var a, b := Compose(lib, Reorder(recipe, x), layers).value, Compose(lib, Reorder(recipe, y), layers).value;
      a.variants == b.variants <==> forall k :: SaidAlike(VariantFor(k), recipe, layers, x, y)
  {
    var a, b := Compose(lib, Reorder(recipe, x), layers).value, Compose(lib, Reorder(recipe, y), layers).value;
    forall k ensures At(a.variants, k) == At(b.variants, k) <==> SaidAlike(VariantFor(k), recipe, layers, x, y) {
      MapsAlike(lib, recipe, layers, x, y, k);
    }
    if forall k :: SaidAlike(VariantFor(k), recipe, layers, x, y) {
      SameMaps(a.variants, b.variants);
    }
  }

  lemma {:induction false} SameRestIff(lib: Pep440, recipe: Recipe, layers: seq<Layer>, x: seq<string>, y: seq<string>)
    requires ValidSpecs(recipe, layers) && Permutes(recipe, x) && Permutes(recipe, y)
    requires Compose(lib, Reorder(recipe, x), layers).Ok? && Compose(lib, Reorder(recipe, y), layers).Ok?
    ensures SameRest(Compose(lib, Reorder(recipe, x), layers).value, Compose(lib, Reorder(recipe, y), layers).value)
      <==> RestAlike(recipe, layers, x, y)
  {
    ScalarsAlike(lib, recipe, layers, x, y);
    ConstraintMapsAlike(lib, recipe, layers, x, y);
    VariantMapsAlike(lib, recipe, layers, x, y);
  }

  lemma {:induction false} SameStacksIff(lib: Pep440, recipe: Recipe, layers: seq<Layer>, x: seq<string>, y: seq<string>)
    requires ValidSpecs(recipe, layers) && CleanReports(lib, recipe, layers) && Compose(lib, recipe, layers).Ok?
    requires ComposesInEveryOrder(lib, recipe, layers) && Permutes(recipe, x) && Permutes(recipe, y)
    ensures SameField(lib, recipe, layers, (s: Stack) => s.(layers := []), x, y) <==> RestAlike(recipe, layers, x, y)
  {
    LayerOrderIsImmaterial(lib, recipe, layers, x);
    LayerOrderIsImmaterial(lib, recipe, layers, y);
    FixedFields(lib, Reorder(recipe, x), layers);
    FixedFields(lib, Reorder(recipe, y), layers);
    SameRestIff(lib, recipe, layers, x, y);
  }

  ghost predicate RestAlwaysAlike(recipe: Recipe, layers: seq<Layer>) {
    forall x, y :: Permutes(recipe, x) && Permutes(recipe, y) ==> RestAlike(recipe, layers, x, y)
  }

  lemma {:induction false} SettersSuffice(recipe: Recipe, layers: seq<Layer>, x: seq<string>, y: seq<string>)
    requires AllSettersAgree(recipe, layers) && Permutes(recipe, x) && Permutes(recipe, y)
    ensures RestAlike(recipe, layers, x, y)
  {
    AgreementSuffices(StrategyIn, recipe, layers, x, y);
    AgreementSuffices(EntrypointIn, recipe, layers, x, y);
    forall k ensures SaidAlike(ConstraintFor(k), recipe, layers, x, y) && SaidAlike(VariantFor(k), recipe, layers, x, y) {
      AgreementSuffices(ConstraintFor(k), recipe, layers, x, y);
      AgreementSuffices(VariantFor(k), recipe, layers, x, y);
    }
  }

  lemma {:induction false} EachAlwaysAlike(recipe: Recipe, layers: seq<Layer>, k: string)
    requires RestAlwaysAlike(recipe, layers)
    ensures AlwaysAlike(StrategyIn, recipe, layers) && AlwaysAlike(EntrypointIn, recipe, layers)
    ensures AlwaysAlike(ConstraintFor(k), recipe, layers) && AlwaysAlike(VariantFor(k), recipe, layers)
  {
    forall x, y | Permutes(recipe, x) && Permutes(recipe, y)
      ensures SaidAlike(StrategyIn, recipe, layers, x, y) && SaidAlike(EntrypointIn, recipe, layers, x, y)
      ensures SaidAlike(ConstraintFor(k), recipe, layers, x, y) && SaidAlike(VariantFor(k), recipe, layers, x, y)
    {
      assert RestAlike(recipe, layers, x, y);
    }
  }

  lemma {:induction false} SettersNeeded(recipe: Recipe, layers: seq<Layer>, k: string)
    requires RestAlwaysAlike(recipe, layers)
    ensures SettersAgree(StrategyIn, recipe, layers) && SettersAgree(EntrypointIn, recipe, layers)
    ensures SettersAgree(ConstraintFor(k), recipe, layers) && SettersAgree(VariantFor(k), recipe, layers)
  {
    EachAlwaysAlike(recipe, layers, k);
    SaidAlikeIff(StrategyIn, recipe, layers);
    SaidAlikeIff(EntrypointIn, recipe, layers);
    SaidAlikeIff(ConstraintFor(k), recipe, layers);
    SaidAlikeIff(VariantFor(k), recipe, layers);
  }

  lemma {:induction false} RestAlikeIff(recipe: Recipe, layers: seq<Layer>)
    ensures AllSettersAgree(recipe, layers) <==> RestAlwaysAlike(recipe, layers)
  {
    if AllSettersAgree(recipe, layers) {
      forall x, y | Permutes(recipe, x) && Permutes(recipe, y) ensures RestAlike(recipe, layers, x, y) {
        SettersSuffice(recipe, layers, x, y);
      }
    }
    if RestAlwaysAlike(recipe, layers) {
      forall k ensures SettersAgree(ConstraintFor(k), recipe, layers) && SettersAgree(VariantFor(k), recipe, layers) {
        SettersNeeded(recipe, layers, k);
      }
      SettersNeeded(recipe, layers, "");
    }
  }

  lemma {:induction false} WholeStackIff(lib: Pep440, recipe: Recipe, layers: seq<Layer>)
    requires ValidSpecs(recipe, layers) && CleanReports(lib, recipe, layers) && Compose(lib, recipe, layers).Ok?
    requires ComposesInEveryOrder(lib, recipe, layers)
    ensures OrderFree(lib, recipe, layers, (s: Stack) => s.(layers := [])) <==> RestAlwaysAlike(recipe, layers)
  {
    var field := (s: Stack) => s.(layers := []);
    if OrderFree(lib, recipe, layers, field) {
      forall x, y | Permutes(recipe, x) && Permutes(recipe, y) ensures RestAlike(recipe, layers, x, y) {
        SameStacksIff(lib, recipe, layers, x, y);
      }
    }
    if RestAlwaysAlike(recipe, layers) {
      forall x, y | Permutes(recipe, x) && Permutes(recipe, y) ensures SameField(lib, recipe, layers, field, x, y) {
        SameStacksIff(lib, recipe, layers, x, y);
      }
    }
  }

  /**
   Under clean reports the composed stack is the same in every order of the layers, but for
   the list of layers itself, if and only if the setters of build strategy, entrypoint, every
   apt constraint and every variant agree.
   */
  lemma {:induction false} StackOrderFreeIff(lib: Pep440, recipe: Recipe, layers: seq<Layer>)
    requires ValidSpecs(recipe, layers) && CleanReports(lib, recipe, layers) && Compose(lib, recipe, layers).Ok?
    ensures ComposesInEveryOrder(lib, recipe, layers)
    ensures OrderFree(lib, recipe, layers, (s: Stack) => s.(layers := [])) <==> AllSettersAgree(recipe, layers)
  {
    CleanComposesInEveryOrder(lib, recipe, layers);
    WholeStackIff(lib, recipe, layers);
    RestAlikeIff(recipe, layers);
  }
}
