/**
 The pip version-specifier check used while merging layers, and its meaning
 under the "Version matching" rules of PEP 440.
 */
module PipConstraints {
  import opened Basics

  datatype Clause = Clause(op: string, text: string)

  /** A parsed version: `suffix` stands for the pre-, post- and dev-release part. */
  datatype Version = Version(epoch: nat, release: seq<nat>, suffix: string, local: string)

  /** The `packaging` library: parsing, and the ordered comparisons (`>=`, `<`, `~=`, ...). */
  datatype Pep440 = Pep440(
    parse: string -> Option<seq<Clause>>,
    version: string -> Option<Version>,
    ordered: (Clause, Version) -> bool,
    show: Version -> string)

  // ----- PEP 440 matching -----

  /** Release segment `i`, zero-padded. */
  function Segment(r: seq<nat>, i: nat): nat {
    if i < |r| then r[i] else 0
  }

  /** Equal once release segments are zero-padded and local labels are ignored. */
  predicate SamePublic(a: Version, b: Version) {
    && a.epoch == b.epoch && a.suffix == b.suffix
    && (forall i :: 0 <= i < |a.release| + |b.release| ==> Segment(a.release, i) == Segment(b.release, i))
  }

  predicate IsWildcard(text: string) {
    |text| >= 2 && text[|text| - 2..] == ".*"
  }

  /** `==` of PEP 440: prefix matching for `.*`, else equality; a local label counts only if the specifier has one. */
  predicate EqualsClause(lib: Pep440, text: string, v: Version) {
    if IsWildcard(text) then
      match lib.version(text[..|text| - 2])
      case None => false
      case Some(p) => p.epoch == v.epoch && forall i :: 0 <= i < |p.release| ==> Segment(v.release, i) == p.release[i]
    else
      match lib.version(text)
      case None => false
      case Some(p) => SamePublic(p, v) && (p.local != "" ==> p.local == v.local)
  }

  predicate Admits(lib: Pep440, c: Clause, v: Version) {
    if c.op == "==" then EqualsClause(lib, c.text, v)
    else if c.op == "!=" then !EqualsClause(lib, c.text, v)
    else if c.op == "===" then lib.show(v) == c.text
    else lib.ordered(c, v)
  }

  predicate AdmitsAll(lib: Pep440, clauses: seq<Clause>, v: Version) {
    forall c :: c in clauses ==> Admits(lib, c, v)
  }

  // ----- the check -----

  function Pins(clauses: seq<Clause>): set<string> {
    set c | c in clauses && c.op in {"==", "==="} :: c.text
  }

  /** Some pin parses as a version that the other side admits; unparsable pins are skipped. */
  predicate SomePinAdmitted(lib: Pep440, pins: set<string>, clauses: seq<Clause>) {
    exists p :: p in pins && lib.version(p).Some? && AdmitsAll(lib, clauses, lib.version(p).value)
  }

  /** `_pip_constraints_compatible`; `Err` is the ValueError for an unparsable specifier. */
  function Compatible(lib: Pep440, existing: string, incoming: string): Result<bool, string> {
    if existing == "" || incoming == "" then Ok(true)
    else
      match (lib.parse(existing), lib.parse(incoming))
      case (Some(e), Some(i)) =>
        if Pins(e) != {} && Pins(i) != {} then Ok(Pins(e) * Pins(i) != {})
        else if Pins(e) != {} then Ok(SomePinAdmitted(lib, Pins(e), i))
        else if Pins(i) != {} then Ok(SomePinAdmitted(lib, Pins(i), e))
        else Ok(true)
      case _ => Err("Invalid pip version specifier")
  }

  /** The verdict does not depend on which side was declared first. */
  lemma {:induction false} CompatibleSymmetric(lib: Pep440, a: string, b: string)
    ensures Compatible(lib, a, b) == Compatible(lib, b, a)
  {
    if a != "" && b != "" && lib.parse(a).Some? && lib.parse(b).Some? {
      var e, i := Pins(lib.parse(a).value), Pins(lib.parse(b).value);
      assert e * i == i * e;
    }
  }

  // ----- soundness of a rejection -----

  /** An ordered comparison that admits a version admits its public version, however padded. */
  ghost predicate Conforming(lib: Pep440) {
    forall c, v, p :: SamePublic(p, v) && p.local == "" && lib.ordered(c, v) ==> lib.ordered(c, p)
  }

  /** A pin `== X.Y.Z`: no wildcard, no local label. */
  predicate ExactPin(lib: Pep440, c: Clause) {
    c.op == "==" && !IsWildcard(c.text) && lib.version(c.text).Some? && lib.version(c.text).value.local == ""
  }

  predicate ExactPins(lib: Pep440, clauses: seq<Clause>) {
    forall c :: c in clauses && c.op in {"==", "==="} ==> ExactPin(lib, c)
  }

  /** One version is never spelled in two ways across the two specifiers (`1.0` against `1.0.0`). */
  predicate SpelledAlike(lib: Pep440, a: seq<Clause>, b: seq<Clause>) {
    forall p, q ::
      (p in Pins(a) && q in Pins(b) && lib.version(p).Some? && lib.version(q).Some?
       && SamePublic(lib.version(p).value, lib.version(q).value)) ==> p == q
  }

  lemma {:induction false} SegmentsAgree(a: Version, b: Version, i: nat)
    requires SamePublic(a, b)
    ensures Segment(a.release, i) == Segment(b.release, i)
  {
    if i < |a.release| + |b.release| {
      assert Segment(a.release, i) == Segment(b.release, i);
    }
  }

  lemma {:induction false} SamePublicMeets(a: Version, b: Version, v: Version)
    requires SamePublic(a, v) && SamePublic(b, v)
    ensures SamePublic(a, b)
  {
    forall i | 0 <= i < |a.release| + |b.release| ensures Segment(a.release, i) == Segment(b.release, i) {
      SegmentsAgree(a, v, i);
      SegmentsAgree(b, v, i);
    }
  }

  /** `==` cannot separate a version from a label-free version with the same public part. */
  lemma {:induction false} EqualsClauseWidens(lib: Pep440, text: string, p: Version, v: Version)
    requires SamePublic(p, v) && p.local == "" && EqualsClause(lib, text, p)
    ensures EqualsClause(lib, text, v)
  {
    if IsWildcard(text) {
      var w := lib.version(text[..|text| - 2]).value;
      forall i | 0 <= i < |w.release| ensures Segment(v.release, i) == w.release[i] {
        SegmentsAgree(p, v, i);
      }
    } else {
      var w := lib.version(text).value;
      forall i | 0 <= i < |w.release| + |v.release| ensures Segment(w.release, i) == Segment(v.release, i) {
        SegmentsAgree(w, p, i);
        SegmentsAgree(p, v, i);
      }
    }
  }

  lemma {:induction false} PinListed(c: Clause, clauses: seq<Clause>)
    requires c in clauses && c.op in {"==", "==="}
    ensures c.text in Pins(clauses)
  {
  }

  lemma {:induction false} PinAdmittedByRange(lib: Pep440, pin: Clause, clauses: seq<Clause>, v: Version)
    requires Conforming(lib) && ExactPin(lib, pin) && Pins(clauses) == {}
    requires Admits(lib, pin, v) && AdmitsAll(lib, clauses, v)
    ensures AdmitsAll(lib, clauses, lib.version(pin.text).value)
  {
    var p := lib.version(pin.text).value;
    forall c | c in clauses ensures Admits(lib, c, p) {
      if c.op in {"==", "==="} {
        PinListed(c, clauses);
      }
      if c.op == "!=" && EqualsClause(lib, c.text, p) {
        EqualsClauseWidens(lib, c.text, p, v);
      }
    }
  }

  lemma {:induction false} CommonVersionSharesPin(lib: Pep440, e: seq<Clause>, i: seq<Clause>, v: Version)
    requires ExactPins(lib, e) && ExactPins(lib, i) && SpelledAlike(lib, e, i)
    requires AdmitsAll(lib, e, v) && AdmitsAll(lib, i, v)
    requires Pins(e) != {} && Pins(i) != {}
    ensures Pins(e) * Pins(i) != {}
  {
    var c :| c in e && c.op in {"==", "==="};
    var d :| d in i && d.op in {"==", "==="};
    assert Admits(lib, c, v) && Admits(lib, d, v);
    SamePublicMeets(lib.version(c.text).value, lib.version(d.text).value, v);
    assert c.text in Pins(e) && d.text in Pins(i);
    assert c.text in Pins(e) * Pins(i);
  }

  lemma {:induction false} CommonVersionAdmitsPin(lib: Pep440, e: seq<Clause>, i: seq<Clause>, v: Version)
    requires Conforming(lib) && ExactPins(lib, e)
    requires AdmitsAll(lib, e, v) && AdmitsAll(lib, i, v)
    requires Pins(e) != {} && Pins(i) == {}
    ensures SomePinAdmitted(lib, Pins(e), i)
  {
    var c :| c in e && c.op in {"==", "==="};
    assert c.text in Pins(e);
    PinAdmittedByRange(lib, c, i, v);
  }

  /** A rejection between exact, consistently spelled pins means no version satisfies both specifiers. */
  lemma {:induction false} RejectionIsSound(lib: Pep440, existing: string, incoming: string, v: Version)
    requires Conforming(lib) && Compatible(lib, existing, incoming) == Ok(false)
    requires ExactPins(lib, lib.parse(existing).value) && ExactPins(lib, lib.parse(incoming).value)
    requires SpelledAlike(lib, lib.parse(existing).value, lib.parse(incoming).value)
    ensures !(AdmitsAll(lib, lib.parse(existing).value, v) && AdmitsAll(lib, lib.parse(incoming).value, v))
  {
    var e, i := lib.parse(existing).value, lib.parse(incoming).value;
    if AdmitsAll(lib, e, v) && AdmitsAll(lib, i, v) {
      if Pins(e) == {} {
        CommonVersionAdmitsPin(lib, i, e, v);
      } else if Pins(i) == {} {
        CommonVersionAdmitsPin(lib, e, i, v);
      } else {
        CommonVersionSharesPin(lib, e, i, v);
      }
    }
  }

  /** Two local labels can hold of one version. */
  predicate LabelsMeet(a: string, b: string) { a == "" || b == "" || a == b }

  ghost predicate Satisfiable(lib: Pep440, a: seq<Clause>, b: seq<Clause>) {
    exists v :: AdmitsAll(lib, a, v) && AdmitsAll(lib, b, v)
  }

  /**
   For two single exact pins the check is right exactly when no version goes by two
   names: texts equal, or public parts different, or local labels that clash.
   */
  lemma {:induction false} SinglePinVerdict(lib: Pep440, existing: string, incoming: string, p: string, q: string)
    requires existing != "" && incoming != ""
    requires lib.parse(existing) == Some([Clause("==", p)]) && lib.parse(incoming) == Some([Clause("==", q)])
    requires !IsWildcard(p) && !IsWildcard(q) && lib.version(p).Some? && lib.version(q).Some?
    ensures var vp, vq := lib.version(p).value, lib.version(q).value;
      (Compatible(lib, existing, incoming) == Ok(Satisfiable(lib, [Clause("==", p)], [Clause("==", q)])))
      <==> (p == q || !SamePublic(vp, vq) || !LabelsMeet(vp.local, vq.local))
  {
    var a, b := [Clause("==", p)], [Clause("==", q)];
    var vp, vq := lib.version(p).value, lib.version(q).value;
    assert Pins(a) == {p} && Pins(b) == {q} by {
      assert a[0] in a && b[0] in b;
    }
    assert Compatible(lib, existing, incoming) == Ok(p == q);
    assert SamePublic(vp, vp);
    if SamePublic(vp, vq) && LabelsMeet(vp.local, vq.local) {
      var v := if vp.local != "" then vp else vq;
      assert SamePublic(vq, vp) && SamePublic(vp, vp) && SamePublic(vq, vq);
      assert AdmitsAll(lib, a, v) && AdmitsAll(lib, b, v);
    } else {
      forall v ensures !(AdmitsAll(lib, a, v) && AdmitsAll(lib, b, v)) {
        if AdmitsAll(lib, a, v) && AdmitsAll(lib, b, v) {
          assert Admits(lib, a[0], v) && Admits(lib, b[0], v);
          SamePublicMeets(vp, vq, v);
        }
      }
    }
  }

  /** Matching a wildcard depends on the public part alone. */
  lemma {:induction false} WildcardSeesPublicPart(lib: Pep440, text: string, a: Version, b: Version)
    requires IsWildcard(text) && SamePublic(a, b)
    ensures EqualsClause(lib, text, a) <==> EqualsClause(lib, text, b)
  {
    forall i: nat ensures Segment(a.release, i) == Segment(b.release, i) {
      SegmentsAgree(a, b, i);
    }
  }

  lemma {:induction false} SinglePins(p: string, q: string)
    ensures Pins([Clause("==", p)]) == {p} && Pins([Clause("==", q)]) == {q}
  {
    assert [Clause("==", p)][0] in [Clause("==", p)] && [Clause("==", q)][0] in [Clause("==", q)];
  }

  lemma {:induction false} AdmitsOne(lib: Pep440, text: string, v: Version)
    ensures AdmitsAll(lib, [Clause("==", text)], v) <==> EqualsClause(lib, text, v)
  {
    assert [Clause("==", text)][0] == Clause("==", text);
    if AdmitsAll(lib, [Clause("==", text)], v) {
      assert Admits(lib, [Clause("==", text)][0], v);
    }
  }

  /**
   Pins are compared as texts, so a wildcard pin against an exact pin is always rejected;
   some version satisfies both, and the rejection is wrong, if and only if the exact version matches the wildcard.
   */
  lemma {:induction false} WildcardVerdict(lib: Pep440, existing: string, incoming: string, wild: string, q: string)
    requires existing != "" && incoming != ""
    requires lib.parse(existing) == Some([Clause("==", wild)]) && lib.parse(incoming) == Some([Clause("==", q)])
    requires IsWildcard(wild) && !IsWildcard(q) && lib.version(q).Some?
    ensures Compatible(lib, existing, incoming) == Ok(false)
    ensures Satisfiable(lib, [Clause("==", wild)], [Clause("==", q)]) <==> EqualsClause(lib, wild, lib.version(q).value)
  {
    SinglePins(wild, q);
    var a, b, vq := [Clause("==", wild)], [Clause("==", q)], lib.version(q).value;
    forall v ensures AdmitsAll(lib, a, v) && AdmitsAll(lib, b, v) ==> EqualsClause(lib, wild, vq) {
      AdmitsOne(lib, wild, v);
      AdmitsOne(lib, q, v);
      if SamePublic(vq, v) { WildcardSeesPublicPart(lib, wild, vq, v); }
    }
    AdmitsOne(lib, wild, vq);
    AdmitsOne(lib, q, vq);
    assert SamePublic(vq, vq);
  }

  /** Two prefixes that some version has both. */
  predicate PrefixesMeet(a: Version, b: Version) {
    a.epoch == b.epoch && forall i :: 0 <= i < |a.release| && i < |b.release| ==> a.release[i] == b.release[i]
  }

  lemma {:induction false} PrefixAdmits(lib: Pep440, wild: string, v: Version)
    requires IsWildcard(wild) && lib.version(wild[..|wild| - 2]).Some?
    ensures EqualsClause(lib, wild, v) <==>
      var p := lib.version(wild[..|wild| - 2]).value; p.epoch == v.epoch && forall i :: 0 <= i < |p.release| ==> Segment(v.release, i) == p.release[i]
  {
  }

  /** Two differently written wildcard pins are rejected too; rightly if and only if no version has both prefixes. */
  lemma {:induction false} TwoWildcardsVerdict(lib: Pep440, existing: string, incoming: string, wild: string, other: string)
    requires existing != "" && incoming != "" && wild != other
    requires lib.parse(existing) == Some([Clause("==", wild)]) && lib.parse(incoming) == Some([Clause("==", other)])
    requires IsWildcard(wild) && IsWildcard(other)
    requires lib.version(wild[..|wild| - 2]).Some? && lib.version(other[..|other| - 2]).Some?
    ensures Compatible(lib, existing, incoming) == Ok(false)
    ensures Satisfiable(lib, [Clause("==", wild)], [Clause("==", other)])
      <==> PrefixesMeet(lib.version(wild[..|wild| - 2]).value, lib.version(other[..|other| - 2]).value)
  {
    SinglePins(wild, other);
    var a, b := [Clause("==", wild)], [Clause("==", other)];
    var p, q := lib.version(wild[..|wild| - 2]).value, lib.version(other[..|other| - 2]).value;
    forall v ensures AdmitsAll(lib, a, v) && AdmitsAll(lib, b, v) ==> PrefixesMeet(p, q) {
      AdmitsOne(lib, wild, v);
      AdmitsOne(lib, other, v);
      PrefixAdmits(lib, wild, v);
      PrefixAdmits(lib, other, v);
    }
    if PrefixesMeet(p, q) {
      var v := if |p.release| >= |q.release| then p else q;
      AdmitsOne(lib, wild, v);
      AdmitsOne(lib, other, v);
      PrefixAdmits(lib, wild, v);
      PrefixAdmits(lib, other, v);
    }
  }

  /** Comparisons only, no pin. */
  predicate RangeOnly(clauses: seq<Clause>) { forall c :: c in clauses ==> c.op != "==" && c.op != "===" }

  lemma {:induction false} NoPins(clauses: seq<Clause>)
    ensures RangeOnly(clauses) <==> Pins(clauses) == {}
  {
    if c :| c in clauses && (c.op == "==" || c.op == "===") {
      assert c.text in Pins(clauses);
    }
  }

  /** A single exact pin against a range is accepted exactly when the range admits its version, and without a local label that verdict is right. */
  lemma {:induction false} PinRangeVerdict(lib: Pep440, existing: string, incoming: string, p: string, range: seq<Clause>)
    requires existing != "" && incoming != "" && RangeOnly(range)
    requires lib.parse(existing) == Some([Clause("==", p)]) && lib.parse(incoming) == Some(range)
    requires !IsWildcard(p) && lib.version(p).Some?
    ensures Compatible(lib, existing, incoming) == Ok(AdmitsAll(lib, range, lib.version(p).value))
    ensures Compatible(lib, existing, incoming) == Ok(true) ==> Satisfiable(lib, [Clause("==", p)], range)
    ensures Conforming(lib) && lib.version(p).value.local == "" ==>
      Compatible(lib, existing, incoming) == Ok(Satisfiable(lib, [Clause("==", p)], range))
  {
    var pin, v := [Clause("==", p)], lib.version(p).value;
    SinglePins(p, p);
    NoPins(range);
    assert SamePublic(v, v);
    AdmitsOne(lib, p, v);
    if Conforming(lib) && v.local == "" {
      forall u | AdmitsAll(lib, pin, u) && AdmitsAll(lib, range, u) ensures AdmitsAll(lib, range, v) {
        assert Admits(lib, pin[0], u);
        PinAdmittedByRange(lib, pin[0], range, u);
      }
    }
  }

  /** Two ranges always pass, an open version always passes, and the check fails exactly on a written specifier that does not parse. */
  lemma {:induction false} UncheckedPass(lib: Pep440, existing: string, incoming: string)
    ensures existing == "" || incoming == "" ==> Compatible(lib, existing, incoming) == Ok(true)
    ensures existing != "" && incoming != "" ==>
      (Compatible(lib, existing, incoming).Err? <==> lib.parse(existing).None? || lib.parse(incoming).None?)
    ensures lib.parse(existing).Some? && lib.parse(incoming).Some? && RangeOnly(lib.parse(existing).value) && RangeOnly(lib.parse(incoming).value) ==>
      Compatible(lib, existing, incoming) == Ok(true)
  {
    if lib.parse(existing).Some? { NoPins(lib.parse(existing).value); }
    if lib.parse(incoming).Some? { NoPins(lib.parse(incoming).value); }
  }

  /** A wildcard pin is not matched as a pattern: `==1.*` against `==1.2` is rejected although 1.2 satisfies both. */
  lemma {:induction false} WildcardFalseAlarm(lib: Pep440, existing: string, incoming: string)
    requires existing != "" && incoming != ""
    requires lib.parse(existing) == Some([Clause("==", "1.*")]) && lib.parse(incoming) == Some([Clause("==", "1.2")])
    requires lib.version("1") == Some(Version(0, [1], "", "")) && lib.version("1.2") == Some(Version(0, [1, 2], "", ""))
    ensures Compatible(lib, existing, incoming) == Ok(false)
    ensures Satisfiable(lib, [Clause("==", "1.*")], [Clause("==", "1.2")])
  {
    var a, b := [Clause("==", "1.*")], [Clause("==", "1.2")];
    assert Pins(a) == {"1.*"} && Pins(b) == {"1.2"} by {
      assert a[0] in a && b[0] in b;
    }
    assert "1.*"[1] != "1.2"[1] || "1.*"[2] != "1.2"[2];
    var v := Version(0, [1, 2], "", "");
    assert "1.*"[|"1.*"| - 2..] == ".*" && "1.*"[..|"1.*"| - 2] == "1";
    assert !IsWildcard("1.2") by { assert "1.2"[1..] == ".2"; assert ".2"[1] != ".*"[1]; }
    assert AdmitsAll(lib, a, v) && AdmitsAll(lib, b, v);
  }
}
