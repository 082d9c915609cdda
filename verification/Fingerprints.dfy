/** What fingerprints and tags tell apart, said of profiles, stacks and inputs themselves. */
module Fingerprints {
  import opened Basics
  import opened Ordering
  import opened Specs
  import opened Profiles
  import opened Hashing

  // ----- versions -----

  /** Whitespace counts for nothing in a version, and everything else stays in its place. */
  lemma {:induction false} VersionsConcat(a: string, b: string, c: char)
    ensures NormalizeVersion(a + b) == NormalizeVersion(a) + NormalizeVersion(b)
    ensures NormalizeVersion([c]) == if IsSpace(c) then "" else [c]
  {
    if a == "" {
      assert a + b == b;
    } else {
      assert (a + b)[0] == a[0] && (a + b)[1..] == a[1..] + b;
      VersionsConcat(a[1..], b, c);
    }
    assert NormalizeVersion([c][1..]) == "";
  }

  // ----- what counts of a package -----

  /** Of a pip package its name and version. */
  function PipFacts(d: PipDep): (string, string) { (d.name, NormalizeVersion(d.version)) }

  /** Of an npm package everything. */
  function NpmFacts(d: NpmDep): (string, string, VersionMode, string, string) { (d.name, NormalizeVersion(d.version), d.mode, d.manager, d.scope) }

  lemma {:induction false} Recounted<T, U, V>(f: T -> U, g: U -> V, h: T -> V, a: seq<T>, b: seq<T>)
    requires (forall x :: g(f(x)) == h(x)) && multiset(Map(f, a)) == multiset(Map(f, b))
    ensures multiset(Map(h, a)) == multiset(Map(h, b))
  {
    MapMultiset(g, Map(f, a), Map(f, b));
    assert Map(g, Map(f, a)) == Map(h, a) && Map(g, Map(f, b)) == Map(h, b);
  }

  lemma {:induction false} PipsAlike(a: seq<PipDep>, b: seq<PipDep>)
    ensures multiset(Map(PipKeyed, a)) == multiset(Map(PipKeyed, b)) <==> multiset(Map(PipFacts, a)) == multiset(Map(PipFacts, b))
  {
    var out, back := (e: PipEntry) => (e.name, e.version), (t: (string, string)) => PipEntry(t.0, t.1);
    if multiset(Map(PipKeyed, a)) == multiset(Map(PipKeyed, b)) { Recounted(PipKeyed, out, PipFacts, a, b); }
    if multiset(Map(PipFacts, a)) == multiset(Map(PipFacts, b)) { Recounted(PipFacts, back, PipKeyed, a, b); }
  }

  lemma {:induction false} NpmsAlike(a: seq<NpmDep>, b: seq<NpmDep>)
    ensures multiset(Map(NpmKeyed, a)) == multiset(Map(NpmKeyed, b)) <==> multiset(Map(NpmFacts, a)) == multiset(Map(NpmFacts, b))
  {
    var out := (e: NpmEntry) => (e.name, e.version, e.mode, e.manager, e.scope);
    var back := (t: (string, string, VersionMode, string, string)) => NpmEntry(t.0, t.1, t.2, t.3, t.4);
    if multiset(Map(NpmKeyed, a)) == multiset(Map(NpmKeyed, b)) { Recounted(NpmKeyed, out, NpmFacts, a, b); }
    if multiset(Map(NpmFacts, a)) == multiset(Map(NpmFacts, b)) { Recounted(NpmFacts, back, NpmKeyed, a, b); }
  }

  // ----- what counts of profile and variants -----

  /** One CUDA variant; a profile without CUDA is one of variant `none`. */
  predicate SameCuda(p: Profile, q: Profile) {
    match (p.cuda, q.cuda)
    case (None, None) => true
    case (Some(c), None) => c.variant == "none"
    case (None, Some(d)) => d.variant == "none"
    case (Some(c), Some(d)) => c.variant == d.variant
  }

  /** Equal choices, or a flag and its text: a flag is written True or False. */
  predicate SameChoice(v: VariantValue, w: VariantValue) {
    v == w || (v == Flag(true) && w == Text("True")) || (v == Flag(false) && w == Text("False"))
    || (v == Text("True") && w == Flag(true)) || (v == Text("False") && w == Flag(false))
  }

  predicate SameChoices(v: Variants, w: Variants) {
    v.Keys == w.Keys && forall k :: k in v && k in w ==> SameChoice(v[k], w[k])
  }

  lemma {:induction false} ChoiceIs(v: VariantValue, w: VariantValue)
    ensures SameChoice(v, w) <==> ShowVariant(v) == ShowVariant(w)
  {
    assert "True"[0] != "False"[0];
  }

  lemma {:induction false} ChoicesAre(v: Variants, w: Variants)
    ensures SameChoices(v, w) <==> ShownVariants(v) == ShownVariants(w)
  {
    forall k | k in v && k in w ensures SameChoice(v[k], w[k]) <==> ShownVariants(v)[k] == ShownVariants(w)[k] { ChoiceIs(v[k], w[k]); }
    assert ShownVariants(v).Keys == v.Keys && ShownVariants(w).Keys == w.Keys;
  }

  // ----- equal fingerprints -----

  /** The same packages, files, ports and environment in any order. */
  ghost predicate SameLists(a: Stack, b: Stack) {
    && multiset(Map(PipFacts, a.components.pip)) == multiset(Map(PipFacts, b.components.pip))
    && multiset(Map(NpmFacts, a.components.npm)) == multiset(Map(NpmFacts, b.components.npm))
    && multiset(a.components.apt) == multiset(b.components.apt) && multiset(a.env) == multiset(b.env)
    && multiset(a.ports) == multiset(b.ports) && multiset(a.copyItems) == multiset(b.copyItems)
  }

  predicate SameSettings(a: Stack, b: Stack) {
    var c, d := a.components, b.components;
    && a.id == b.id && a.task == b.task && a.serve == b.serve && a.api == b.api && a.buildStrategy == b.buildStrategy
    && a.policyOverrides == b.policyOverrides && c.baseRole == d.baseRole && c.aptConstraints == d.aptConstraints && c.aptMode == d.aptMode
    && c.pipMode == d.pipMode && c.wheelhousePath == d.wheelhousePath && c.npmMode == d.npmMode
  }

  predicate SameInputs(x: Inputs, y: Inputs) {
    && x.baseImage == y.baseImage && x.baseDigest == y.baseDigest && x.templateHash == y.templateHash && x.builderVersion == y.builderVersion
    && SameChoices(x.variants, y.variants)
  }

  /** Everything a fingerprint can tell apart; entrypoint, layer list, variant definitions and schema versions are not among it. */
  ghost predicate Alike(p: Profile, a: Stack, x: Inputs, q: Profile, b: Stack, y: Inputs) {
    p.id == q.id && p.arch == q.arch && SameCuda(p, q) && SameLists(a, b) && SameSettings(a, b) && SameInputs(x, y)
  }

  lemma {:induction false} AlikeIff(p: Profile, a: Stack, x: Inputs, q: Profile, b: Stack, y: Inputs)
    ensures SameContent(p, a, x, q, b, y) <==> Alike(p, a, x, q, b, y)
  {
    PipsAlike(a.components.pip, b.components.pip);
    NpmsAlike(a.components.npm, b.components.npm);
    ChoicesAre(x.variants, y.variants);
  }

  /** Packages of one name have one version, npm packages of one key one version and mode, and copies of one source one destination. */
  predicate Settled(s: Stack) {
    && (forall d, e :: d in s.components.pip && e in s.components.pip && d.name == e.name ==> NormalizeVersion(d.version) == NormalizeVersion(e.version))
    && (forall d, e :: d in s.components.npm && e in s.components.npm && d.name == e.name && d.manager == e.manager && d.scope == e.scope ==>
          NormalizeVersion(d.version) == NormalizeVersion(e.version) && d.mode == e.mode)
    && (forall c, d :: c in s.copyItems && d in s.copyItems && c.src == d.src ==> c.dst == d.dst)
  }

  lemma {:induction false} Listed<T, U>(f: T -> U, s: seq<T>, x: T)
    ensures x in s ==> f(x) in Map(f, s)
  {
    if x in s {
      var i :| 0 <= i < |s| && s[i] == x;
      assert Map(f, s)[i] == f(x);
    }
  }

  lemma {:induction false} PipTies(s: seq<PipDep>)
    ensures TieFree(PipByName, Map(PipKeyed, s)) <==>
      forall d, e :: d in s && e in s && d.name == e.name ==> NormalizeVersion(d.version) == NormalizeVersion(e.version)
  {
    StrOrder();
    if TieFree(PipByName, Map(PipKeyed, s)) {
      forall d, e | d in s && e in s && d.name == e.name ensures NormalizeVersion(d.version) == NormalizeVersion(e.version) {
        Listed(PipKeyed, s, d);
        Listed(PipKeyed, s, e);
        assert Tied(PipByName, PipKeyed(d), PipKeyed(e));
      }
    }
  }

  lemma {:induction false} NpmTied(x: NpmEntry, y: NpmEntry)
    ensures Tied(NpmByKey, x, y) <==> x.name == y.name && x.manager == y.manager && x.scope == y.scope
  {
    var v, w := [x.name, x.manager, x.scope], [y.name, y.manager, y.scope];
    LexTies(v, w);
    assert v == w <==> v[0] == w[0] && v[1] == w[1] && v[2] == w[2];
  }

  lemma {:induction false} LexTies(v: seq<string>, w: seq<string>)
    ensures TupleLe(v, w) && TupleLe(w, v) <==> v == w
  {
    TupleOrder();
  }

  lemma {:induction false} NpmTies(s: seq<NpmDep>)
    ensures TieFree(NpmByKey, Map(NpmKeyed, s)) <==>
      forall d, e :: d in s && e in s && d.name == e.name && d.manager == e.manager && d.scope == e.scope ==>
        NormalizeVersion(d.version) == NormalizeVersion(e.version) && d.mode == e.mode
  {
    forall d, e | d in s && e in s ensures Tied(NpmByKey, NpmKeyed(d), NpmKeyed(e)) <==> d.name == e.name && d.manager == e.manager && d.scope == e.scope {
      NpmTied(NpmKeyed(d), NpmKeyed(e));
    }
    forall d | d in s ensures NpmKeyed(d) in Map(NpmKeyed, s) { Listed(NpmKeyed, s, d); }
    if !TieFree(NpmByKey, Map(NpmKeyed, s)) {
      var x, y :| x in Map(NpmKeyed, s) && y in Map(NpmKeyed, s) && Tied(NpmByKey, x, y) && x != y;
      var i :| 0 <= i < |s| && Map(NpmKeyed, s)[i] == x;
      var j :| 0 <= j < |s| && Map(NpmKeyed, s)[j] == y;
      assert s[i] in s && s[j] in s && NpmKeyed(s[i]) == x && NpmKeyed(s[j]) == y;
    }
  }

  lemma {:induction false} CopyTies(s: seq<CopyItem>)
    ensures TieFree(CopyBySource, s) <==> forall c, d :: c in s && d in s && c.src == d.src ==> c.dst == d.dst
  {
    StrOrder();
    if TieFree(CopyBySource, s) {
      forall c, d | c in s && d in s && c.src == d.src ensures c.dst == d.dst {
        assert Tied(CopyBySource, c, d);
      }
    }
  }

  lemma {:induction false} SettledIff(s: Stack)
    ensures Unambiguous(s) <==> Settled(s)
  {
    PipTies(s.components.pip);
    NpmTies(s.components.npm);
    CopyTies(s.copyItems);
  }

  /** Of settled stacks fingerprints are equal exactly when profiles, stacks and inputs are alike; equal fingerprints are always of alike ones. */
  lemma {:induction false} EqualIff(hash: Hash, p: Profile, a: Stack, x: Inputs, q: Profile, b: Stack, y: Inputs)
    requires Injective(hash)
    ensures Fingerprint(hash, p, a, x) == Fingerprint(hash, q, b, y) ==> Alike(p, a, x, q, b, y)
    ensures Settled(a) ==> (Fingerprint(hash, p, a, x) == Fingerprint(hash, q, b, y) <==> Alike(p, a, x, q, b, y))
  {
    FingerprintsEqualIff(hash, p, a, x, q, b, y);
    AlikeIff(p, a, x, q, b, y);
    SettledIff(a);
  }

  /** The order of its lists never shows in the fingerprint exactly when the stack is settled. */
  lemma {:induction false} OrderHiddenIff(hash: Hash, p: Profile, s: Stack, inputs: Inputs)
    requires Injective(hash)
    ensures OrderFree(hash, p, s, inputs) <==> Settled(s)
  {
    OrderFreeIffUnambiguous(hash, p, s, inputs);
    SettledIff(s);
  }

  // ----- tags -----

  function TagWith(s: Stack, p: Profile, cuda: string, fp: string): string {
    "local/stackwarden:" + (s.id + "-" + (p.id + "-" + (cuda + "-" + (s.serve + "-" + (s.api + "-" + (if |fp| < 12 then fp else fp[..12]))))))
  }

  lemma {:induction false} Dashed(word: string, rest: seq<string>)
    requires rest != []
    ensures JoinDashes([word] + rest) == word + "-" + JoinDashes(rest)
  {
    assert ([word] + rest)[1..] == rest;
  }

  lemma {:induction false} SixDashed(a: string, b: string, c: string, d: string, e: string, f: string)
    ensures JoinDashes([a, b, c, d, e, f]) == a + "-" + (b + "-" + (c + "-" + (d + "-" + (e + "-" + f))))
  {
    Dashed(e, [f]);
    Dashed(d, [e] + [f]);
    Dashed(c, [d] + ([e] + [f]));
    Dashed(b, [c] + ([d] + ([e] + [f])));
    Dashed(a, [b] + ([c] + ([d] + ([e] + [f]))));
    assert [a, b, c, d, e, f] == [a] + ([b] + ([c] + ([d] + ([e] + [f]))));
  }

  /** A tag names stack, profile, CUDA variant, serving and interface, and ends in the first twelve characters of the fingerprint. */
  lemma {:induction false} TagIs(s: Stack, p: Profile, fp: string)
    ensures p.cuda.None? ==> GenerateTag(s, p, fp) == TagWith(s, p, "nocuda", fp)
    ensures p.cuda.Some? ==> GenerateTag(s, p, fp) == TagWith(s, p, p.cuda.value.variant, fp)
  {
    SixDashed(s.id, p.id, if p.cuda.Some? then p.cuda.value.variant else "nocuda", s.serve, s.api, Prefix(fp, 12));
  }
}
