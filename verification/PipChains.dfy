/** When checking each pip declaration only against the one it replaces misses a conflict. */
module PipChains {
  import opened Basics
  import opened Specs
  import opened LastWriter
  import opened Composition
  import opened CompositionLaws
  import opened CompositionTheorems
  import PipConstraints

  type Declarations = seq<Entry<string, PipDep>>

  /** The text of a single `==` pin. */
  function PinOf(lib: Pep440, version: string): Option<string> {
    match lib.parse(version)
    case Some(clauses) => if |clauses| == 1 && clauses[0].op == "==" then Some(clauses[0].text) else None
    case None => None
  }

  predicate Pinned(lib: Pep440, es: Declarations, i: nat) {
    i < |es| && es[i].value.version != "" && PinOf(lib, es[i].value.version).Some?
  }

  predicate Unpinned(es: Declarations, i: nat) { i < |es| && es[i].value.version == "" }

  /** Every declaration is a single pin or leaves the version open. */
  ghost predicate PinsOnly(lib: Pep440, es: Declarations) {
    forall i: nat :: i < |es| ==> Unpinned(es, i) || Pinned(lib, es, i)
  }

  predicate SameName(es: Declarations, i: nat, j: nat) { i < j < |es| && es[i].key == es[j].key }

  /** Declarations of one name that do not exclude each other, whatever stands between them. */
  predicate Accepted(lib: Pep440, a: string, b: string) { a == b || PipConstraints.Compatible(lib, a, b) == Ok(true) }

  ghost predicate PairwiseCompatible(lib: Pep440, es: Declarations) {
    forall i: nat, j: nat :: SameName(es, i, j) ==> Accepted(lib, es[i].value.version, es[j].value.version)
  }

  /** An unpinned declaration stands between two different pins of its name. */
  predicate Shields(lib: Pep440, es: Declarations, i: nat, k: nat, j: nat) {
    && SameName(es, i, k) && SameName(es, k, j) && Pinned(lib, es, i) && Unpinned(es, k) && Pinned(lib, es, j)
    && PinOf(lib, es[i].value.version) != PinOf(lib, es[j].value.version)
  }

  lemma {:induction false} SinglePinIs(clauses: seq<PipConstraints.Clause>)
    requires |clauses| == 1 && clauses[0].op == "=="
    ensures PipConstraints.Pins(clauses) == {clauses[0].text}
  {
    assert clauses[0] in clauses;
  }

  /** Two pins pass the check exactly when they are the same text. */
  lemma {:induction false} PinsAcceptedIff(lib: Pep440, a: string, b: string)
    requires a != "" && b != "" && PinOf(lib, a).Some? && PinOf(lib, b).Some?
    ensures Accepted(lib, a, b) <==> PinOf(lib, a) == PinOf(lib, b)
  {
    SinglePinIs(lib.parse(a).value);
    SinglePinIs(lib.parse(b).value);
    var x, y := PinOf(lib, a).value, PinOf(lib, b).value;
    if x == y { assert x in {x} * {y}; }
  }

  lemma {:induction false} LastWrite(es: Declarations, k: nat)
    requires k < |es| && forall m: nat :: k < m < |es| ==> es[m].key != es[k].key
    ensures es[k].key in Put(map[], es) && Put(map[], es)[es[k].key] == es[k].value
  {
    var key := es[k].key;
    assert es[k] in es;
    PutKeepsLast<string, PipDep>(map[], es, key);
    assert LastOfKey(es, es[k]);
    LastOfKeyUnique(es, es[k], Entry(key, Put(map[], es)[key]));
  }

  /** In an accepted chain, neighbours of one name are accepted. */
  lemma {:induction false} NeighboursAccepted(lib: Pep440, es: Declarations, k: nat, j: nat)
    requires PipChain(lib, map[], es) && SameName(es, k, j) && forall m: nat :: k < m < j ==> es[m].key != es[j].key
    ensures Accepted(lib, es[k].value.version, es[j].value.version)
  {
    var before, after := es[..j], es[j..];
    assert es == before + after;
    PipChainConcat(lib, map[], before, after);
    LastWrite(before, k);
  }

  lemma {:induction false} LastBefore(es: Declarations, i: nat, j: nat) returns (k: nat)
    requires SameName(es, i, j)
    ensures i <= k < j && SameName(es, k, j) && forall m: nat :: k < m < j ==> es[m].key != es[j].key
    decreases j - i
  {
    if m :| i < m < j && es[m].key == es[j].key {
      k := LastBefore(es, m, j);
    } else {
      k := i;
    }
  }

  /** Pins with no unpinned declaration of their name between them are one pin. */
  lemma {:induction false} PinCarries(lib: Pep440, es: Declarations, i: nat, j: nat)
    requires PipChain(lib, map[], es) && PinsOnly(lib, es) && SameName(es, i, j) && Pinned(lib, es, i) && Pinned(lib, es, j)
    requires forall m: nat :: SameName(es, i, m) && m < j ==> !Unpinned(es, m)
    ensures PinOf(lib, es[i].value.version) == PinOf(lib, es[j].value.version)
    decreases j
  {
    var k := LastBefore(es, i, j);
    NeighboursAccepted(lib, es, k, j);
    if i < k {
      assert SameName(es, i, k);
      PinCarries(lib, es, i, k);
    }
    PinsAcceptedIff(lib, es[k].value.version, es[j].value.version);
  }

  lemma {:induction false} OpenIsAccepted(lib: Pep440, a: string, b: string)
    requires a == "" || b == ""
    ensures Accepted(lib, a, b)
  {
  }

  lemma {:induction false} UnshieldedPair(lib: Pep440, es: Declarations, i: nat, j: nat)
    requires PipChain(lib, map[], es) && PinsOnly(lib, es) && SameName(es, i, j)
    requires forall k: nat :: !Shields(lib, es, i, k, j)
    ensures Accepted(lib, es[i].value.version, es[j].value.version)
  {
    if Unpinned(es, i) || Unpinned(es, j) {
      OpenIsAccepted(lib, es[i].value.version, es[j].value.version);
    } else {
      PinsAcceptedIff(lib, es[i].value.version, es[j].value.version);
      if m: nat :| SameName(es, i, m) && m < j && Unpinned(es, m) {
        assert !Shields(lib, es, i, m, j);
      } else {
        PinCarries(lib, es, i, j);
      }
    }
  }

  /**
   An accepted chain of pins and open versions is pairwise compatible if and only if no open
   declaration stands between two different pins of its name.
   */
  lemma {:induction false} ChainIsPairwiseIff(lib: Pep440, es: Declarations)
    requires PipChain(lib, map[], es) && PinsOnly(lib, es)
    ensures PairwiseCompatible(lib, es) <==> forall i: nat, k: nat, j: nat :: !Shields(lib, es, i, k, j)
  {
    if i: nat, k: nat, j: nat :| Shields(lib, es, i, k, j) {
      PinsAcceptedIff(lib, es[i].value.version, es[j].value.version);
      assert SameName(es, i, j);
    } else {
      forall i: nat, j: nat | SameName(es, i, j) ensures Accepted(lib, es[i].value.version, es[j].value.version) {
        UnshieldedPair(lib, es, i, j);
      }
    }
  }

  /** So a composed stack of such declarations hides no conflict exactly when no open declaration shields one. */
  lemma {:induction false} ComposedIsPairwiseIff(lib: Pep440, recipe: Recipe, layers: seq<Layer>)
    requires ValidSpecs(recipe, layers) && Compose(lib, recipe, layers).Ok?
    requires PinsOnly(lib, Gather(PipE, PartsOf(recipe, layers)))
    ensures var es := Gather(PipE, PartsOf(recipe, layers));
      PairwiseCompatible(lib, es) <==> forall i: nat, k: nat, j: nat :: !Shields(lib, es, i, k, j)
  {
    ComposeUnfolds(lib, recipe, layers);
    ComposeOutcome(lib, recipe, layers);
    ChainIsPairwiseIff(lib, Gather(PipE, PartsOf(recipe, layers)));
  }
}
