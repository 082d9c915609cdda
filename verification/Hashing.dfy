/** The canonical payload behind an artifact's fingerprint, and its image tag. */
module Hashing {
  import opened Basics
  import opened Ordering
  import opened Specs
  import opened Profiles
  import opened Composition

  datatype PipEntry = PipEntry(name: string, version: string)
  datatype NpmEntry = NpmEntry(name: string, version: string, mode: VersionMode, manager: string, scope: string)
  datatype VariantValue = Flag(on: bool) | Text(text: string)
  type Variants = map<string, VariantValue>

  datatype ProfilePart = ProfilePart(arch: string, cudaVariant: string, id: string)
  datatype StackPart = StackPart(
    api: string, apt: seq<string>, aptConstraints: map<string, string>, aptMode: AptMode,
    baseRole: Option<string>, buildStrategy: BuildStrategy, env: seq<string>, id: string,
    npm: seq<NpmEntry>, npmMode: NpmMode, pip: seq<PipEntry>, pipMode: WheelhouseMode, wheelhousePath: string,
    ports: seq<int>, serve: string, task: string, policyOverrides: map<string, string>)
  datatype Payload = Payload(
    baseDigest: string, baseImage: string, builderVersion: string, copyItems: seq<CopyItem>,
    profile: ProfilePart, stack: StackPart, templateHash: string, variants: map<string, string>)

  /** What besides profile and stack enters a fingerprint. */
  datatype Inputs = Inputs(
    baseImage: string, baseDigest: string, templateHash: string, variants: Variants, builderVersion: string)

  /** `_normalize_version`: all whitespace removed. */
  function NormalizeVersion(v: string): string { Filter(c => !IsSpace(c), v) }

  function ShowVariant(v: VariantValue): string {
    match v
    case Flag(on) => if on then "True" else "False"
    case Text(text) => text
  }

  function PipKeyed(d: PipDep): PipEntry { PipEntry(d.name, NormalizeVersion(d.version)) }
  function NpmKeyed(d: NpmDep): NpmEntry { NpmEntry(d.name, NormalizeVersion(d.version), d.mode, d.manager, d.scope) }

  predicate PipByName(a: PipEntry, b: PipEntry) { StrLe(a.name, b.name) }
  predicate NpmByKey(a: NpmEntry, b: NpmEntry) {
    TupleLe([a.name, a.manager, a.scope], [b.name, b.manager, b.scope])
  }
  predicate CopyBySource(a: CopyItem, b: CopyItem) { StrLe(a.src, b.src) }

  function CanonicalStack(s: Stack): StackPart {
    StackPart(
      s.api, SortBy(StrLe, s.components.apt), s.components.aptConstraints, s.components.aptMode,
      s.components.baseRole, s.buildStrategy, SortBy(StrLe, s.env), s.id,
      SortBy(NpmByKey, Map(NpmKeyed, s.components.npm)), s.components.npmMode,
      SortBy(PipByName, Map(PipKeyed, s.components.pip)), s.components.pipMode, s.components.wheelhousePath,
      SortBy(IntLe, s.ports), s.serve, s.task, s.policyOverrides)
  }

  function CudaName(p: Profile): string { if p.cuda.Some? then p.cuda.value.variant else "none" }

  function ShownVariants(v: Variants): map<string, string> { map k | k in v :: ShowVariant(v[k]) }

  /** `canonicalize`, before it is written out as sorted JSON. */
  function Canonicalize(p: Profile, s: Stack, inputs: Inputs): Payload {
    Payload(
      inputs.baseDigest, inputs.baseImage, inputs.builderVersion, SortBy(CopyBySource, s.copyItems),
      ProfilePart(p.arch, CudaName(p), p.id), CanonicalStack(s), inputs.templateHash, ShownVariants(inputs.variants))
  }

  /** SHA-256 of the JSON text of a payload. */
  type Hash = Payload -> string

  ghost predicate Injective(hash: Hash) {
    forall a, b :: hash(a) == hash(b) ==> a == b
  }

  function Fingerprint(hash: Hash, p: Profile, s: Stack, inputs: Inputs): string {
    hash(Canonicalize(p, s, inputs))
  }

  function JoinDashes(parts: seq<string>): string {
    if parts == [] then "" else if |parts| == 1 then parts[0] else parts[0] + "-" + JoinDashes(parts[1..])
  }

  function Prefix(s: string, n: nat): string { if |s| <= n then s else s[..n] }

  /** `generate_tag`. */
  function GenerateTag(s: Stack, p: Profile, fp: string): string {
    "local/stackwarden:" + JoinDashes([
      s.id, p.id, if p.cuda.Some? then p.cuda.value.variant else "nocuda", s.serve, s.api, Prefix(fp, 12)])
  }

  lemma {:induction false} JoinLast(parts: seq<string>, last: string)
    requires parts != []
    ensures JoinDashes(parts + [last]) == JoinDashes(parts) + "-" + last
  {
    assert (parts + [last])[0] == parts[0] && (parts + [last])[1..] == parts[1..] + [last];
    if |parts| > 1 {
      JoinLast(parts[1..], last);
      assert JoinDashes(parts) == parts[0] + "-" + JoinDashes(parts[1..]);
    }
  }

  /** Tags of one stack and profile coincide exactly when the fingerprints share their first twelve characters. */
  lemma {:induction false} SameTagIff(s: Stack, p: Profile, a: string, b: string)
    ensures GenerateTag(s, p, a) == GenerateTag(s, p, b) <==> Prefix(a, 12) == Prefix(b, 12)
  {
    var parts := [s.id, p.id, if p.cuda.Some? then p.cuda.value.variant else "nocuda", s.serve, s.api];
    JoinLast(parts, Prefix(a, 12));
    JoinLast(parts, Prefix(b, 12));
    var head := "local/stackwarden:" + JoinDashes(parts) + "-";
    TagText(s, p, a, parts);
    TagText(s, p, b, parts);
    if GenerateTag(s, p, a) == GenerateTag(s, p, b) {
      assert Prefix(a, 12) == (head + Prefix(a, 12))[|head|..];
      assert Prefix(b, 12) == (head + Prefix(b, 12))[|head|..];
    }
  }

  lemma {:induction false} TagText(s: Stack, p: Profile, fp: string, parts: seq<string>)
    requires parts == [s.id, p.id, if p.cuda.Some? then p.cuda.value.variant else "nocuda", s.serve, s.api]
    ensures GenerateTag(s, p, fp) == "local/stackwarden:" + JoinDashes(parts) + "-" + Prefix(fp, 12)
  {
    JoinLast(parts, Prefix(fp, 12));
    assert parts + [Prefix(fp, 12)] ==
      [s.id, p.id, if p.cuda.Some? then p.cuda.value.variant else "nocuda", s.serve, s.api, Prefix(fp, 12)];
    assert "local/stackwarden:" + (JoinDashes(parts) + "-" + Prefix(fp, 12)) == "local/stackwarden:" + JoinDashes(parts) + "-" + Prefix(fp, 12);
  }

  // ----- what order can change -----

  /** The same specification with its lists written in another order. */
  ghost predicate Reordered(a: Stack, b: Stack) {
    && multiset(b.components.pip) == multiset(a.components.pip)
    && multiset(b.components.npm) == multiset(a.components.npm)
    && multiset(b.components.apt) == multiset(a.components.apt)
    && multiset(b.env) == multiset(a.env) && multiset(b.ports) == multiset(a.ports)
    && multiset(b.copyItems) == multiset(a.copyItems)
    && b == a.(
         components := a.components.(pip := b.components.pip, npm := b.components.npm, apt := b.components.apt),
         env := b.env, ports := b.ports, copyItems := b.copyItems)
  }

  /** No two entries with one sort key differ. */
  ghost predicate Unambiguous(s: Stack) {
    && TieFree(PipByName, Map(PipKeyed, s.components.pip))
    && TieFree(NpmByKey, Map(NpmKeyed, s.components.npm))
    && TieFree(CopyBySource, s.copyItems)
  }

  lemma {:induction false} KeyOrders()
    ensures Preorder(PipByName) && Preorder(NpmByKey) && Preorder(CopyBySource)
  {
    StrOrder();
    TupleOrder();
  }

  /** Taking the first of `a` out of `a` and out of its permutation `b`. */
  lemma {:induction false} TakeHeads<T>(a: seq<T>, b: seq<T>) returns (i: nat)
    requires multiset(a) == multiset(b) && a != []
    ensures i < |b| && b[i] == a[0] && multiset(a[1..]) == multiset(b[..i] + b[i + 1..])
  {
    assert a[0] in multiset(b);
    i :| 0 <= i < |b| && b[i] == a[0];
    TakenOut(a, 0);
    TakenOut(b, i);
    assert a[..0] + a[1..] == a[1..];
  }

  lemma {:induction false} MapMiddle<T, U>(f: T -> U, s: seq<T>, i: nat)
    requires i < |s|
    ensures Map(f, s)[..i] + Map(f, s)[i + 1..] == Map(f, s[..i] + s[i + 1..])
  {
  }

  lemma {:induction false} MapMultiset<T, U>(f: T -> U, a: seq<T>, b: seq<T>)
    requires multiset(a) == multiset(b)
    ensures multiset(Map(f, a)) == multiset(Map(f, b))
  {
    assert |a| == |multiset(a)| == |multiset(b)| == |b|;
    if a == [] {
      assert Map(f, a) == Map(f, b);
    } else {
      var i := TakeHeads(a, b);
      MapMultiset(f, a[1..], b[..i] + b[i + 1..]);
      MapMiddle(f, b, i);
      TakenOut(Map(f, b), i);
      assert Map(f, a) == [f(a[0])] + Map(f, a[1..]);
      assert f(a[0]) == Map(f, b)[i] && Map(f, b)[i] in multiset(Map(f, b));
    }
  }

  /** Every reordering of the images comes from a reordering of the sources. */
  lemma {:induction false} LiftReordering<T(!new), U(!new)>(f: T -> U, s: seq<T>, images: seq<U>) returns (r: seq<T>)
    requires multiset(images) == multiset(Map(f, s))
    ensures multiset(r) == multiset(s) && Map(f, r) == images
    decreases images
  {
    assert |images| == |multiset(images)| == |multiset(Map(f, s))| == |s|;
    if images == [] {
      r := [];
    } else {
      var i := TakeHeads(images, Map(f, s));
      MapMiddle(f, s, i);
      var tail := LiftReordering(f, s[..i] + s[i + 1..], images[1..]);
      r := [s[i]] + tail;
      TakenOut(s, i);
      assert s[i] in multiset(s);
      assert Map(f, r) == [f(s[i])] + Map(f, tail);
    }
  }

  lemma {:induction false} UnambiguousForgetsOrder(p: Profile, a: Stack, b: Stack, inputs: Inputs)
    requires Unambiguous(a) && Reordered(a, b)
    ensures Canonicalize(p, b, inputs) == Canonicalize(p, a, inputs)
  {
    KeyOrders(); StrOrder(); IntOrder();
    MapMultiset(PipKeyed, a.components.pip, b.components.pip);
    MapMultiset(NpmKeyed, a.components.npm, b.components.npm);
    SortPermutation(PipByName, Map(PipKeyed, a.components.pip), Map(PipKeyed, b.components.pip));
    SortPermutation(NpmByKey, Map(NpmKeyed, a.components.npm), Map(NpmKeyed, b.components.npm));
    SortPermutation(StrLe, a.components.apt, b.components.apt);
    SortPermutation(StrLe, a.env, b.env);
    SortPermutation(IntLe, a.ports, b.ports);
    SortPermutation(CopyBySource, a.copyItems, b.copyItems);
  }

  lemma {:induction false} AmbiguousPipShowsOrder(p: Profile, s: Stack, inputs: Inputs) returns (t: Stack)
    requires !TieFree(PipByName, Map(PipKeyed, s.components.pip))
    ensures Reordered(s, t) && Canonicalize(p, t, inputs) != Canonicalize(p, s, inputs)
  {
    KeyOrders();
    var entries := Map(PipKeyed, s.components.pip);
    OrderBlindIffTieFree(PipByName, entries);
    var images :| multiset(images) == multiset(entries) && SortBy(PipByName, images) != SortBy(PipByName, entries);
    var pips := LiftReordering(PipKeyed, s.components.pip, images);
    t := s.(components := s.components.(pip := pips));
    assert CanonicalStack(t).pip != CanonicalStack(s).pip;
  }

  lemma {:induction false} AmbiguousNpmShowsOrder(p: Profile, s: Stack, inputs: Inputs) returns (t: Stack)
    requires !TieFree(NpmByKey, Map(NpmKeyed, s.components.npm))
    ensures Reordered(s, t) && Canonicalize(p, t, inputs) != Canonicalize(p, s, inputs)
  {
    KeyOrders();
    var entries := Map(NpmKeyed, s.components.npm);
    OrderBlindIffTieFree(NpmByKey, entries);
    var images :| multiset(images) == multiset(entries) && SortBy(NpmByKey, images) != SortBy(NpmByKey, entries);
    var npms := LiftReordering(NpmKeyed, s.components.npm, images);
    t := s.(components := s.components.(npm := npms));
    assert CanonicalStack(t).npm != CanonicalStack(s).npm;
  }

  lemma {:induction false} AmbiguousCopiesShowOrder(p: Profile, s: Stack, inputs: Inputs) returns (t: Stack)
    requires !TieFree(CopyBySource, s.copyItems)
    ensures Reordered(s, t) && Canonicalize(p, t, inputs) != Canonicalize(p, s, inputs)
  {
    KeyOrders();
    OrderBlindIffTieFree(CopyBySource, s.copyItems);
    var items :| multiset(items) == multiset(s.copyItems) && SortBy(CopyBySource, items) != SortBy(CopyBySource, s.copyItems);
    t := s.(copyItems := items);
  }

  /** Every reordering of the specification fingerprints alike. */
  ghost predicate OrderFree(hash: Hash, p: Profile, s: Stack, inputs: Inputs) {
    forall t :: Reordered(s, t) ==> Fingerprint(hash, p, t, inputs) == Fingerprint(hash, p, s, inputs)
  }

  /**
   The fingerprint forgets the order of all lists exactly when no two pip entries of
   one name, no two npm entries of one key and no two copies of one source differ.
   */
  lemma {:induction false} OrderFreeIffUnambiguous(hash: Hash, p: Profile, s: Stack, inputs: Inputs)
    requires Injective(hash)
    ensures OrderFree(hash, p, s, inputs) <==> Unambiguous(s)
  {
    if Unambiguous(s) {
      forall t | Reordered(s, t) ensures Fingerprint(hash, p, t, inputs) == Fingerprint(hash, p, s, inputs) {
        UnambiguousForgetsOrder(p, s, t, inputs);
      }
    } else {
      var t: Stack;
      if !TieFree(PipByName, Map(PipKeyed, s.components.pip)) {
        t := AmbiguousPipShowsOrder(p, s, inputs);
      } else if !TieFree(NpmByKey, Map(NpmKeyed, s.components.npm)) {
        t := AmbiguousNpmShowsOrder(p, s, inputs);
      } else {
        t := AmbiguousCopiesShowOrder(p, s, inputs);
      }
      assert Reordered(s, t) && Fingerprint(hash, p, t, inputs) != Fingerprint(hash, p, s, inputs);
    }
  }

  /** Distinct names, keys and sources are enough. */
  lemma {:induction false} DistinctKeysAreUnambiguous(s: Stack)
    requires Distinct(Map((d: PipDep) => d.name, s.components.pip))
    requires Distinct(Map(NpmKey, s.components.npm))
    requires Distinct(Map((c: CopyItem) => c.src, s.copyItems))
    ensures Unambiguous(s)
  {
    StrOrder(); TupleOrder();
    var pips, npms := Map(PipKeyed, s.components.pip), Map(NpmKeyed, s.components.npm);
    forall x, y | x in pips && y in pips && Tied(PipByName, x, y) ensures x == y {
      var i :| 0 <= i < |pips| && pips[i] == x;
      var j :| 0 <= j < |pips| && pips[j] == y;
      var names := Map((d: PipDep) => d.name, s.components.pip);
      assert names[i] == names[j];
      assert i == j;
    }
    forall x, y | x in npms && y in npms && Tied(NpmByKey, x, y) ensures x == y {
      var i :| 0 <= i < |npms| && npms[i] == x;
      var j :| 0 <= j < |npms| && npms[j] == y;
      var keys := Map(NpmKey, s.components.npm);
      assert keys[i] == [x.name, x.manager, x.scope] && keys[j] == [y.name, y.manager, y.scope];
      assert keys[i] == keys[j];
      assert i == j;
    }
    forall x, y | x in s.copyItems && y in s.copyItems && Tied(CopyBySource, x, y) ensures x == y {
      var i :| 0 <= i < |s.copyItems| && s.copyItems[i] == x;
      var j :| 0 <= j < |s.copyItems| && s.copyItems[j] == y;
      var sources := Map((c: CopyItem) => c.src, s.copyItems);
      assert sources[i] == sources[j];
      assert i == j;
    }
  }

  /**
   What a fingerprint sees of profile, stack and inputs. Entrypoint, layer list,
   variant definitions and schema versions are not part of it.
   */
  ghost predicate SameContent(p: Profile, a: Stack, x: Inputs, q: Profile, b: Stack, y: Inputs) {
    && multiset(Map(PipKeyed, a.components.pip)) == multiset(Map(PipKeyed, b.components.pip))
    && multiset(Map(NpmKeyed, a.components.npm)) == multiset(Map(NpmKeyed, b.components.npm))
    && multiset(a.components.apt) == multiset(b.components.apt)
    && multiset(a.env) == multiset(b.env) && multiset(a.ports) == multiset(b.ports)
    && multiset(a.copyItems) == multiset(b.copyItems)
    && b.components == a.components.(pip := b.components.pip, npm := b.components.npm, apt := b.components.apt)
    && a.id == b.id && a.task == b.task && a.serve == b.serve && a.api == b.api
    && a.buildStrategy == b.buildStrategy && a.policyOverrides == b.policyOverrides
    && ProfilePart(p.arch, CudaName(p), p.id) == ProfilePart(q.arch, CudaName(q), q.id)
    && x.(variants := y.variants) == y && ShownVariants(x.variants) == ShownVariants(y.variants)
  }

  lemma {:induction false} SortedListsEqual<T(!new)>(le: (T, T) -> bool, a: seq<T>, b: seq<T>)
    requires Preorder(le)
    ensures SortBy(le, a) == SortBy(le, b) ==> multiset(a) == multiset(b)
    ensures multiset(a) == multiset(b) && TieFree(le, a) ==> SortBy(le, a) == SortBy(le, b)
  {
    SortByMultiset(le, a);
    SortByMultiset(le, b);
    if multiset(a) == multiset(b) && TieFree(le, a) {
      SortPermutation(le, a, b);
    }
  }

  /** Equal fingerprints mean equal content, and for unambiguous stacks the converse holds too. */
  lemma {:induction false} FingerprintsEqualIff(hash: Hash, p: Profile, a: Stack, x: Inputs, q: Profile, b: Stack, y: Inputs)
    requires Injective(hash)
    ensures Fingerprint(hash, p, a, x) == Fingerprint(hash, q, b, y) ==> SameContent(p, a, x, q, b, y)
    ensures Unambiguous(a) && SameContent(p, a, x, q, b, y) ==> Fingerprint(hash, p, a, x) == Fingerprint(hash, q, b, y)
  {
    KeyOrders(); StrOrder(); IntOrder();
    SortedListsEqual(PipByName, Map(PipKeyed, a.components.pip), Map(PipKeyed, b.components.pip));
    SortedListsEqual(NpmByKey, Map(NpmKeyed, a.components.npm), Map(NpmKeyed, b.components.npm));
    SortedListsEqual(StrLe, a.components.apt, b.components.apt);
    SortedListsEqual(StrLe, a.env, b.env);
    SortedListsEqual(IntLe, a.ports, b.ports);
    SortedListsEqual(CopyBySource, a.copyItems, b.copyItems);
    PayloadsEqualIff(p, a, x, q, b, y);
  }

  lemma {:induction false} PayloadsEqualIff(p: Profile, a: Stack, x: Inputs, q: Profile, b: Stack, y: Inputs)
    ensures Canonicalize(p, a, x) == Canonicalize(q, b, y) <==>
      && CanonicalStack(a) == CanonicalStack(b) && SortBy(CopyBySource, a.copyItems) == SortBy(CopyBySource, b.copyItems)
      && ProfilePart(p.arch, CudaName(p), p.id) == ProfilePart(q.arch, CudaName(q), q.id)
      && x.(variants := y.variants) == y && ShownVariants(x.variants) == ShownVariants(y.variants)
  {
  }

  /** Only whitespace is lost from a version. */
  lemma {:induction false} NormalizedVersion(v: string)
    ensures forall c :: c in NormalizeVersion(v) ==> !IsSpace(c)
    ensures NormalizeVersion(NormalizeVersion(v)) == NormalizeVersion(v)
    ensures NormalizeVersion(v) == v <==> forall c :: c in v ==> !IsSpace(c)
  {
    if v != "" {
      NormalizedVersion(v[1..]);
      assert v == [v[0]] + v[1..];
      var rest := NormalizeVersion(v[1..]);
      assert |rest| <= |v[1..]| by { FilterShrinks((c: char) => !IsSpace(c), v[1..]); }
      if !IsSpace(v[0]) {
        assert NormalizeVersion(v) == [v[0]] + rest;
        assert NormalizeVersion(v)[1..] == rest;
      }
    }
  }

  lemma {:induction false} FilterShrinks<T>(p: T -> bool, s: seq<T>)
    ensures |Filter(p, s)| <= |s|
  {
    if s != [] {
      FilterShrinks(p, s[1..]);
    }
  }

  /** Two copies of one source to two places: their order shows in the fingerprint. */
  lemma {:induction false} SharedSourceShowsOrder(hash: Hash, p: Profile, s: Stack, inputs: Inputs)
    requires Injective(hash)
    requires CopyItem("a", "x") in s.copyItems && CopyItem("a", "y") in s.copyItems
    ensures !OrderFree(hash, p, s, inputs)
  {
    StrOrder();
    assert "x"[0] != "y"[0];
    assert Tied(CopyBySource, CopyItem("a", "x"), CopyItem("a", "y"));
    OrderFreeIffUnambiguous(hash, p, s, inputs);
  }
}
