/** A composed stack told from its layers and recipe alone: which parts count in which order, and what each list holds. */
module ComposedParts {
  import opened Basics
  import opened Specs
  import opened Ordering
  import opened LastWriter
  import opened Composition
  import opened CompositionLaws
  import opened CompositionTheorems
  import opened ComposedStack

  // ----- the orders -----

  /** A text comes before every longer one it begins, and otherwise the first difference decides, by code point. */
  lemma {:induction false} StrLeIs(front: string, a: string, b: string)
    ensures StrLe(front, front + b)
    ensures b != "" ==> !StrLe(front + b, front)
    ensures a != "" && b != "" && a[0] != b[0] ==> (StrLe(front + a, front + b) <==> a[0] as int < b[0] as int)
  {
    if front == "" {
      assert front + a == a && front + b == b;
    } else {
      StrLeIs(front[1..], a, b);
      assert (front + a)[1..] == front[1..] + a && (front + b)[1..] == front[1..] + b;
    }
  }

  /** Tuples are compared by their first difference. */
  lemma {:induction false} TupleCons(x: string, y: string, xs: seq<string>, ys: seq<string>)
    ensures TupleLe([x] + xs, [y] + ys) <==> if x == y then TupleLe(xs, ys) else StrLe(x, y)
  {
    assert ([x] + xs)[1..] == xs && ([y] + ys)[1..] == ys;
  }

  lemma {:induction false} LastText(x: string, y: string)
    ensures TupleLe([x], [y]) <==> StrLe(x, y)
  {
    TupleCons(x, y, [], []);
    StrOrder();
    assert [x] + [] == [x] && [y] + [] == [y];
  }

  // ----- the parts -----

  /** The last of the layers given under this id. */
  ghost predicate LastUnder(layers: seq<Layer>, id: string, l: Layer) {
    exists i :: 0 <= i < |layers| && layers[i] == l && l.id == id && forall j :: i < j < |layers| ==> layers[j].id != id
  }

  ghost predicate Offered(layers: seq<Layer>, id: string) { exists i :: 0 <= i < |layers| && layers[i].id == id }

  lemma {:induction false} StaysLast(layers: seq<Layer>, next: Layer, id: string, l: Layer)
    requires LastUnder(layers, id, l) && next.id != id
    ensures LastUnder(layers + [next], id, l)
  {
    var i :| 0 <= i < |layers| && layers[i] == l && l.id == id && forall j :: i < j < |layers| ==> layers[j].id != id;
    assert (layers + [next])[i] == l;
  }

  lemma {:induction false} ByIdIs(layers: seq<Layer>, id: string)
    ensures id in ById(layers) <==> Offered(layers, id)
    ensures id in ById(layers) ==> LastUnder(layers, id, ById(layers)[id])
  {
    if layers != [] {
      var n := |layers| - 1;
      var init, last := layers[..n], layers[n];
      assert layers == init + [last];
      ByIdIs(init, id);
      if last.id == id {
        assert layers[n] == last;
      } else if id in ById(init) {
        StaysLast(init, last, id, ById(init)[id]);
        var i :| 0 <= i < |init| && init[i].id == id;
        assert layers[i].id == id;
      }
    }
  }

  lemma {:induction false} ReferencedAre(ids: seq<string>, byId: map<string, Layer>)
    requires forall id :: id in ids ==> id in byId
    ensures |Referenced(ids, byId)| == |ids| && forall i :: 0 <= i < |ids| ==> Referenced(ids, byId)[i] == byId[ids[i]]
  {
    if ids != [] {
      ReferencedAre(ids[1..], byId);
      assert ids == [ids[0]] + ids[1..];
      assert ids[0] in ids;
    }
  }

  /** The layers in the order of the recipe, each the last one given under its id, and then the recipe itself. */
  ghost predicate InOrder(recipe: Recipe, layers: seq<Layer>, parts: seq<Sourced>) {
    && |parts| == |recipe.layers| + 1 && parts[|recipe.layers|] == Sourced("recipe:" + recipe.id, recipe.part)
    && forall i :: 0 <= i < |recipe.layers| ==> PartOf(layers, recipe.layers[i], parts[i])
  }

  ghost predicate PartOf(layers: seq<Layer>, id: string, s: Sourced) {
    s.source == "layer:" + id && exists l :: LastUnder(layers, id, l) && s.part == l.part
  }

  lemma {:induction false} PartsAre(recipe: Recipe, layers: seq<Layer>)
    requires forall id :: id in recipe.layers ==> Offered(layers, id)
    ensures InOrder(recipe, layers, PartsOf(recipe, layers))
  {
    var byId := ById(layers);
    forall id | id in recipe.layers ensures id in byId { ByIdIs(layers, id); }
    ReferencedAre(recipe.layers, byId);
    forall i | 0 <= i < |recipe.layers| ensures PartOf(layers, recipe.layers[i], PartsOf(recipe, layers)[i]) {
      var id := recipe.layers[i];
      assert id in recipe.layers;
      ByIdIs(layers, id);
      assert LastUnder(layers, id, byId[id]);
      assert PartsOf(recipe, layers)[i] == Sourced("layer:" + byId[id].id, byId[id].part);
    }
  }

  lemma {:induction false} PipNamesNoLayer(lib: Pep440, accum: map<string, Origin<PipDep>>, incoming: seq<PipDep>, source: string)
    ensures var r := MergePip(lib, accum, incoming, source); r != Err(DuplicateLayer) && r != Err(UnknownLayer)
    decreases incoming
  {
    if incoming != [] {
      PipNamesNoLayer(lib, accum, incoming[1..], source);
      PipNamesNoLayer(lib, accum[incoming[0].name := Origin(incoming[0], source)], incoming[1..], source);
    }
  }

  lemma {:induction false} NpmNamesNoLayer(accum: map<Key, Origin<NpmDep>>, incoming: seq<NpmDep>, source: string)
    ensures var r := MergeNpm(accum, incoming, source); r != Err(DuplicateLayer) && r != Err(UnknownLayer)
    decreases incoming
  {
    if incoming != [] {
      NpmNamesNoLayer(accum, incoming[1..], source);
      NpmNamesNoLayer(accum[NpmKey(incoming[0]) := Origin(incoming[0], source)], incoming[1..], source);
    }
  }

  lemma {:induction false} MergesNameNoLayer(lib: Pep440, acc: Accum, parts: seq<Sourced>)
    ensures var r := ConsumeAll(lib, acc, parts); r != Err(DuplicateLayer) && r != Err(UnknownLayer)
    decreases parts
  {
    if parts != [] {
      PipNamesNoLayer(lib, acc.pip, parts[0].part.components.pip, parts[0].source);
      NpmNamesNoLayer(acc.npm, parts[0].part.components.npm, parts[0].source);
      if Consume(lib, acc, parts[0]).Ok? {
        MergesNameNoLayer(lib, Consume(lib, acc, parts[0]).value, parts[1..]);
      }
    }
  }

  predicate NamesLayers(e: ComposeError) { e == DuplicateLayer || e == UnknownLayer }

  lemma {:induction false} BuildNamesNoLayer(recipe: Recipe, acc: Accum, l: Listings)
    requires Lists(acc, l) && Build(recipe, acc, l).Err?
    ensures !NamesLayers(Build(recipe, acc, l).error)
  {
  }

  lemma {:induction false} ComposeNamesNoLayer(lib: Pep440, recipe: Recipe, layers: seq<Layer>)
    requires Distinct(recipe.layers) && (forall id :: id in recipe.layers ==> id in ById(layers)) && Compose(lib, recipe, layers).Err?
    ensures !NamesLayers(Compose(lib, recipe, layers).error)
  {
    var consumed := ConsumeAll(lib, InitialAccum(recipe), PartsOf(recipe, layers));
    MergesNameNoLayer(lib, InitialAccum(recipe), PartsOf(recipe, layers));
    if consumed.Ok? {
      BuildNamesNoLayer(recipe, consumed.value, ListingsFor(consumed.value));
    }
  }

  /** A layer referenced twice is refused, then one that is not given, and nothing else gives these two errors. */
  lemma {:induction false} ReferencesChecked(lib: Pep440, recipe: Recipe, layers: seq<Layer>)
    ensures Compose(lib, recipe, layers) == Err(DuplicateLayer)
      <==> exists i, j :: 0 <= i < j < |recipe.layers| && recipe.layers[i] == recipe.layers[j]
    ensures Compose(lib, recipe, layers) == Err(UnknownLayer)
      <==> Distinct(recipe.layers) && exists id :: id in recipe.layers && !Offered(layers, id)
  {
    forall id ensures id in ById(layers) <==> Offered(layers, id) { ByIdIs(layers, id); }
    if Distinct(recipe.layers) && (forall id :: id in recipe.layers ==> id in ById(layers)) && Compose(lib, recipe, layers).Err? {
      ComposeNamesNoLayer(lib, recipe, layers);
    }
  }

  // ----- the lists -----

  predicate SamePip(a: PipDep, b: PipDep) { a.name == b.name }
  predicate PipBefore(a: PipDep, b: PipDep) { StrLe(a.name, b.name) }

  /** One npm package is one name under one package manager in one scope. */
  predicate SameNpm(a: NpmDep, b: NpmDep) { a.name == b.name && a.manager == b.manager && a.scope == b.scope }

  predicate NpmBefore(a: NpmDep, b: NpmDep) {
    if a.name != b.name then StrLe(a.name, b.name) else if a.manager != b.manager then StrLe(a.manager, b.manager) else StrLe(a.scope, b.scope)
  }

  predicate SameCopy(a: CopyItem, b: CopyItem) { a == b }
  predicate CopyBefore(a: CopyItem, b: CopyItem) { if a.src != b.src then StrLe(a.src, b.src) else StrLe(a.dst, b.dst) }

  /** The last of the declarations about the same thing. */
  ghost predicate LastSaid<T(!new)>(same: (T, T) -> bool, declared: seq<T>, d: T) {
    exists i :: 0 <= i < |declared| && declared[i] == d && forall j :: i < j < |declared| ==> !same(declared[j], d)
  }

  /** Exactly the last declarations, in strict order. */
  ghost predicate LastsOf<T(!new)>(same: (T, T) -> bool, before: (T, T) -> bool, declared: seq<T>, list: seq<T>) {
    && (forall d :: d in list <==> LastSaid(same, declared, d))
    && (forall i, j :: 0 <= i < j < |list| ==> before(list[i], list[j]) && !same(list[i], list[j]))
  }

  /** The entries are the declarations under their keys. */
  ghost predicate Keyed<K, T>(keyOf: T -> K, declared: seq<T>, es: seq<Entry<K, T>>) {
    |es| == |declared| && forall i :: 0 <= i < |es| ==> es[i] == Entry(keyOf(declared[i]), declared[i])
  }

  lemma {:induction false} LastSaidIff<K, T(!new)>(keyOf: T -> K, same: (T, T) -> bool, declared: seq<T>, es: seq<Entry<K, T>>, d: T)
    requires Keyed(keyOf, declared, es) && forall a, b :: same(a, b) <==> keyOf(a) == keyOf(b)
    ensures LastSaid(same, declared, d) <==> LastOfKey(es, Entry(keyOf(d), d))
  {
    if LastSaid(same, declared, d) {
      var i :| 0 <= i < |declared| && declared[i] == d && forall j :: i < j < |declared| ==> !same(declared[j], d);
      assert es[i] == Entry(keyOf(d), d);
    }
    if LastOfKey(es, Entry(keyOf(d), d)) {
      var i :| 0 <= i < |es| && es[i] == Entry(keyOf(d), d) && forall j :: i < j < |es| ==> es[j].key != keyOf(d);
      assert declared[i] == d;
    }
  }

  lemma {:induction false} LastsFromKeys<K, T(!new)>(
    le: (K, K) -> bool, keyOf: T -> K, same: (T, T) -> bool, before: (T, T) -> bool, declared: seq<T>, es: seq<Entry<K, T>>, list: seq<T>)
    requires LastOfEach(le, keyOf, es, list) && Keyed(keyOf, declared, es)
    requires forall a, b :: same(a, b) <==> keyOf(a) == keyOf(b)
    requires forall a, b :: le(keyOf(a), keyOf(b)) ==> before(a, b)
    ensures LastsOf(same, before, declared, list)
  {
    forall d ensures d in list <==> LastSaid(same, declared, d) { LastSaidIff(keyOf, same, declared, es, d); }
  }

  // ----- what the parts declare -----

  function PipsDeclared(parts: seq<Sourced>): seq<PipDep> { if parts == [] then [] else parts[0].part.components.pip + PipsDeclared(parts[1..]) }
  function NpmsDeclared(parts: seq<Sourced>): seq<NpmDep> { if parts == [] then [] else parts[0].part.components.npm + NpmsDeclared(parts[1..]) }
  function CopiesDeclared(parts: seq<Sourced>): seq<CopyItem> { if parts == [] then [] else parts[0].part.copyItems + CopiesDeclared(parts[1..]) }

  lemma {:induction false} KeyedConcat<K, T>(keyOf: T -> K, a: seq<T>, b: seq<T>, es: seq<Entry<K, T>>, fs: seq<Entry<K, T>>)
    requires Keyed(keyOf, a, es) && Keyed(keyOf, b, fs)
    ensures Keyed(keyOf, a + b, es + fs)
  {
  }

  lemma {:induction false} PipsKeyed(parts: seq<Sourced>)
    ensures Keyed(PipName, PipsDeclared(parts), Gather(PipE, parts))
  {
    if parts != [] {
      PipsKeyed(parts[1..]);
      KeyedConcat(PipName, parts[0].part.components.pip, PipsDeclared(parts[1..]), PipE(parts[0]), Gather(PipE, parts[1..]));
    }
  }

  lemma {:induction false} NpmsKeyed(parts: seq<Sourced>)
    ensures Keyed(NpmKey, NpmsDeclared(parts), Gather(NpmE, parts))
  {
    if parts != [] {
      NpmsKeyed(parts[1..]);
      KeyedConcat(NpmKey, parts[0].part.components.npm, NpmsDeclared(parts[1..]), NpmE(parts[0]), Gather(NpmE, parts[1..]));
    }
  }

  lemma {:induction false} CopiesKeyedAs(parts: seq<Sourced>)
    ensures Keyed(CopyKey, CopiesDeclared(parts), Gather(CopyE, parts))
  {
    if parts != [] {
      CopiesKeyedAs(parts[1..]);
      KeyedConcat(CopyKey, parts[0].part.copyItems, CopiesDeclared(parts[1..]), CopyE(parts[0]), Gather(CopyE, parts[1..]));
    }
  }

  lemma {:induction false} NpmKeyIs(a: NpmDep, b: NpmDep)
    ensures SameNpm(a, b) <==> NpmKey(a) == NpmKey(b)
    ensures TupleLe(NpmKey(a), NpmKey(b)) <==> NpmBefore(a, b)
  {
    assert NpmKey(a)[0] == a.name && NpmKey(a)[1] == a.manager && NpmKey(a)[2] == a.scope;
    assert NpmKey(b)[0] == b.name && NpmKey(b)[1] == b.manager && NpmKey(b)[2] == b.scope;
    assert NpmKey(a) == [a.name] + ([a.manager] + [a.scope]) && NpmKey(b) == [b.name] + ([b.manager] + [b.scope]);
    TupleCons(a.name, b.name, [a.manager] + [a.scope], [b.manager] + [b.scope]);
    TupleCons(a.manager, b.manager, [a.scope], [b.scope]);
    LastText(a.scope, b.scope);
  }

  lemma {:induction false} CopyKeyIs(a: CopyItem, b: CopyItem)
    ensures SameCopy(a, b) <==> CopyKey(a) == CopyKey(b)
    ensures TupleLe(CopyKey(a), CopyKey(b)) <==> CopyBefore(a, b)
  {
    assert CopyKey(a)[0] == a.src && CopyKey(a)[1] == a.dst && CopyKey(b)[0] == b.src && CopyKey(b)[1] == b.dst;
    assert CopyKey(a) == [a.src] + [a.dst] && CopyKey(b) == [b.src] + [b.dst];
    TupleCons(a.src, b.src, [a.dst], [b.dst]);
    LastText(a.dst, b.dst);
  }

  lemma {:induction false} NpmLasts(parts: seq<Sourced>, list: seq<NpmDep>)
    requires LastOfEach(TupleLe, NpmKey, Gather(NpmE, parts), list)
    ensures LastsOf(SameNpm, NpmBefore, NpmsDeclared(parts), list)
  {
    NpmsKeyed(parts);
    forall a, b ensures (SameNpm(a, b) <==> NpmKey(a) == NpmKey(b)) && (TupleLe(NpmKey(a), NpmKey(b)) ==> NpmBefore(a, b)) { NpmKeyIs(a, b); }
    LastsFromKeys(TupleLe, NpmKey, SameNpm, NpmBefore, NpmsDeclared(parts), Gather(NpmE, parts), list);
  }

  lemma {:induction false} CopyLasts(parts: seq<Sourced>, list: seq<CopyItem>)
    requires LastOfEach(TupleLe, CopyKey, Gather(CopyE, parts), list)
    ensures LastsOf(SameCopy, CopyBefore, CopiesDeclared(parts), list)
  {
    CopiesKeyedAs(parts);
    forall a, b ensures (SameCopy(a, b) <==> CopyKey(a) == CopyKey(b)) && (TupleLe(CopyKey(a), CopyKey(b)) ==> CopyBefore(a, b)) { CopyKeyIs(a, b); }
    LastsFromKeys(TupleLe, CopyKey, SameCopy, CopyBefore, CopiesDeclared(parts), Gather(CopyE, parts), list);
  }

  /** The packages and files of a composed stack: of every declaration of one thing by any layer or the recipe the last, in strict order. */
  lemma {:induction false} ComposedLists(lib: Pep440, recipe: Recipe, layers: seq<Layer>)
    requires ValidSpecs(recipe, layers) && Compose(lib, recipe, layers).Ok?
    ensures var s, parts := Compose(lib, recipe, layers).value, PartsOf(recipe, layers);
      && LastsOf(SamePip, PipBefore, PipsDeclared(parts), s.components.pip)
      && LastsOf(SameNpm, NpmBefore, NpmsDeclared(parts), s.components.npm)
      && LastsOf(SameCopy, CopyBefore, CopiesDeclared(parts), s.copyItems)
  {
    var s, parts := Compose(lib, recipe, layers).value, PartsOf(recipe, layers);
    ComposedStackIs(lib, recipe, layers);
    PipsKeyed(parts);
    LastsFromKeys(StrLe, PipName, SamePip, PipBefore, PipsDeclared(parts), Gather(PipE, parts), s.components.pip);
    NpmLasts(parts, s.components.npm);
    CopyLasts(parts, s.copyItems);
  }

  /** Its apt packages and ports: all that any part names, once each, in order. */
  lemma {:induction false} ComposedSets(lib: Pep440, recipe: Recipe, layers: seq<Layer>)
    requires ValidSpecs(recipe, layers) && Compose(lib, recipe, layers).Ok?
    ensures var s, parts := Compose(lib, recipe, layers).value, PartsOf(recipe, layers);
      && (forall p :: p in s.components.apt <==> exists part :: part in parts && p in part.part.components.apt)
      && (forall p :: p in s.ports <==> exists part :: part in parts && p in part.part.ports)
      && (forall i, j :: 0 <= i < j < |s.components.apt| ==> StrLe(s.components.apt[i], s.components.apt[j]) && s.components.apt[i] != s.components.apt[j])
      && (forall i, j :: 0 <= i < j < |s.ports| ==> s.ports[i] < s.ports[j])
  {
    ComposedStackIs(lib, recipe, layers);
    var s := Compose(lib, recipe, layers).value;
    forall i, j | 0 <= i < j < |s.ports| ensures s.ports[i] < s.ports[j] {
      assert IntLe(s.ports[i], s.ports[j]);
    }
  }

  /** What composition leaves open: task, serving and interface are custom, and no policy is overridden. */
  lemma {:induction false} ComposedIsCustom(lib: Pep440, recipe: Recipe, layers: seq<Layer>)
    requires Compose(lib, recipe, layers).Ok?
    ensures var s := Compose(lib, recipe, layers).value;
      s.task == "custom" && s.serve == "custom" && s.api == "custom" && s.policyOverrides == map[]
  {
  }
}
