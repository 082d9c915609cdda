/** How verdicts move with strictness, mode and catalog size. */
module CompatibilityTheorems {
  import opened Basics
  import opened Specs
  import opened Profiles
  import opened Compatibility
  import opened Requirements

  // ----- tuples -----

  ghost predicate Matching(matches: Selector -> bool, tuples: seq<SupportedTuple>, i: nat) {
    i < |tuples| && matches(tuples[i].selector)
  }

  ghost predicate FirstMatch(matches: Selector -> bool, tuples: seq<SupportedTuple>, i: nat) {
    Matching(matches, tuples, i) && forall j :: 0 <= j < i ==> !Matching(matches, tuples, j)
  }

  ghost predicate FirstSupported(matches: Selector -> bool, tuples: seq<SupportedTuple>, i: nat) {
    && Matching(matches, tuples, i) && tuples[i].status == Supported
    && forall j :: 0 <= j < i && tuples[j].status == Supported ==> !Matching(matches, tuples, j)
  }

  ghost predicate SomeSupported(matches: Selector -> bool, tuples: seq<SupportedTuple>) {
    exists i: nat :: Matching(matches, tuples, i) && tuples[i].status == Supported
  }

  ghost predicate SomeMatch(matches: Selector -> bool, tuples: seq<SupportedTuple>) {
    exists i: nat :: Matching(matches, tuples, i)
  }

  lemma {:induction false} Shift(matches: Selector -> bool, tuples: seq<SupportedTuple>, i: nat)
    requires tuples != []
    ensures Matching(matches, tuples[1..], i) <==> Matching(matches, tuples, i + 1)
    ensures i + 1 < |tuples| ==> tuples[1..][i] == tuples[i + 1]
  {
  }

  lemma {:induction false} SearchUnfolds(matches: Selector -> bool, tuples: seq<SupportedTuple>, other: Option<SupportedTuple>)
    requires tuples != []
    ensures !Matching(matches, tuples, 0) ==> Search(matches, tuples, other) == Search(matches, tuples[1..], other)
    ensures Matching(matches, tuples, 0) && tuples[0].status == Supported ==> Search(matches, tuples, other) == Resolved(tuples[0])
    ensures Matching(matches, tuples, 0) && tuples[0].status != Supported ==>
      Search(matches, tuples, other) == Search(matches, tuples[1..], OrElse(other, Some(tuples[0])))
  {
  }

  lemma {:induction false} SearchFindsSupported(matches: Selector -> bool, tuples: seq<SupportedTuple>, other: Option<SupportedTuple>, i: nat)
    requires FirstSupported(matches, tuples, i)
    ensures Search(matches, tuples, other) == Resolved(tuples[i])
    decreases i
  {
    SearchUnfolds(matches, tuples, other);
    if i > 0 {
      Shift(matches, tuples, i - 1);
      forall j | 0 <= j < i - 1 && tuples[1..][j].status == Supported ensures !Matching(matches, tuples[1..], j) {
        Shift(matches, tuples, j);
      }
      SearchFindsSupported(matches, tuples[1..], if Matching(matches, tuples, 0) then OrElse(other, Some(tuples[0])) else other, i - 1);
    }
  }

  lemma {:induction false} SearchWithoutSupported(matches: Selector -> bool, tuples: seq<SupportedTuple>, other: Option<SupportedTuple>)
    requires !SomeSupported(matches, tuples)
    ensures other.Some? ==> Search(matches, tuples, other) == Resolved(other.value)
    ensures other.None? ==> forall i: nat :: FirstMatch(matches, tuples, i) ==> Search(matches, tuples, other) == Resolved(tuples[i])
    ensures other.None? && !SomeMatch(matches, tuples) ==> Search(matches, tuples, other) == NoMatch
    decreases tuples
  {
    if tuples != [] {
      SearchUnfolds(matches, tuples, other);
      forall i: nat | Matching(matches, tuples[1..], i) ensures tuples[1..][i].status != Supported && SomeMatch(matches, tuples) {
        Shift(matches, tuples, i);
      }
      var next := if Matching(matches, tuples, 0) then OrElse(other, Some(tuples[0])) else other;
      SearchWithoutSupported(matches, tuples[1..], next);
      if other.None? {
        forall i: nat | FirstMatch(matches, tuples, i) ensures Search(matches, tuples, other) == Resolved(tuples[i]) {
          if i > 0 {
            FirstMatchShifts(matches, tuples, i);
          }
        }
      }
    }
  }

  lemma {:induction false} FirstMatchShifts(matches: Selector -> bool, tuples: seq<SupportedTuple>, i: nat)
    requires FirstMatch(matches, tuples, i) && i > 0
    ensures FirstMatch(matches, tuples[1..], i - 1) && tuples[1..][i - 1] == tuples[i] && !Matching(matches, tuples, 0)
  {
    Shift(matches, tuples, i - 1);
    forall j | 0 <= j < i - 1 ensures !Matching(matches, tuples[1..], j) {
      Shift(matches, tuples, j);
    }
  }

  lemma {:induction false} LeastMatching(matches: Selector -> bool, tuples: seq<SupportedTuple>, i: nat) returns (f: nat)
    requires Matching(matches, tuples, i)
    ensures FirstMatch(matches, tuples, f)
    decreases i
  {
    if j :| 0 <= j < i && Matching(matches, tuples, j) {
      f := LeastMatching(matches, tuples, j);
    } else {
      f := i;
    }
  }

  lemma {:induction false} LeastSupported(matches: Selector -> bool, tuples: seq<SupportedTuple>, i: nat) returns (f: nat)
    requires Matching(matches, tuples, i) && tuples[i].status == Supported
    ensures FirstSupported(matches, tuples, f)
    decreases i
  {
    if j :| 0 <= j < i && Matching(matches, tuples, j) && tuples[j].status == Supported {
      f := LeastSupported(matches, tuples, j);
    } else {
      f := i;
    }
  }

  /**
   The chosen tuple is the first supported match, or without one the first match of
   any other status; a tuple is chosen exactly when some tuple matches.
   */
  lemma {:induction false} ChosenTuple(matches: Selector -> bool, tuples: seq<SupportedTuple>)
    ensures forall i: nat :: FirstSupported(matches, tuples, i) ==> Search(matches, tuples, None) == Resolved(tuples[i])
    ensures forall i: nat :: FirstMatch(matches, tuples, i) && !SomeSupported(matches, tuples) ==> Search(matches, tuples, None) == Resolved(tuples[i])
    ensures Search(matches, tuples, None).matched <==> SomeMatch(matches, tuples)
    ensures Search(matches, tuples, None).status == "supported" <==> SomeSupported(matches, tuples)
  {
    forall i: nat | FirstSupported(matches, tuples, i) ensures Search(matches, tuples, None) == Resolved(tuples[i]) {
      SearchFindsSupported(matches, tuples, None, i);
    }
    StatusNamesDiffer();
    if SomeSupported(matches, tuples) {
      var i: nat :| Matching(matches, tuples, i) && tuples[i].status == Supported;
      var f := LeastSupported(matches, tuples, i);
      SearchFindsSupported(matches, tuples, None, f);
    } else {
      SearchWithoutSupported(matches, tuples, None);
      if i: nat :| Matching(matches, tuples, i) {
        var f := LeastMatching(matches, tuples, i);
        assert tuples[f].status != Supported;
      }
    }
  }

  lemma {:induction false} StatusNamesDiffer()
    ensures "supported"[0] != "experimental"[0] && "supported"[0] != "unsupported"[0]
    ensures forall s: TupleStatus :: StatusName(s) == "supported" <==> s == Supported
  {
  }

  lemma {:induction false} StillListed(matches: Selector -> bool, tuples: seq<SupportedTuple>, more: seq<SupportedTuple>, i: nat) returns (j: nat)
    requires Matching(matches, tuples, i) && tuples[i] in more
    ensures Matching(matches, more, j) && more[j] == tuples[i]
  {
    j :| 0 <= j < |more| && more[j] == tuples[i];
  }

  /** Adding tuples anywhere in the catalog never loses a match, nor a supported one. */
  lemma {:induction false} MoreTuplesKeepMatch(matches: Selector -> bool, tuples: seq<SupportedTuple>, more: seq<SupportedTuple>)
    requires forall s :: s in tuples ==> s in more
    ensures Search(matches, tuples, None).matched ==> Search(matches, more, None).matched
    ensures Search(matches, tuples, None).status == "supported" ==> Search(matches, more, None).status == "supported"
  {
    MatchedIff(matches, tuples);
    MatchedIff(matches, more);
    if i: nat :| Matching(matches, tuples, i) {
      var _ := StillListed(matches, tuples, more, i);
    }
    if i: nat :| Matching(matches, tuples, i) && tuples[i].status == Supported {
      var j := StillListed(matches, tuples, more, i);
      assert more[j].status == Supported;
    }
  }

  lemma {:induction false} MatchedIff(matches: Selector -> bool, tuples: seq<SupportedTuple>)
    ensures Search(matches, tuples, None).matched <==> SomeMatch(matches, tuples)
    ensures Search(matches, tuples, None).status == "supported" <==> SomeSupported(matches, tuples)
  {
    ChosenTuple(matches, tuples);
  }

  /** Facts that are optional to know: without them a match cannot be lost. */
  lemma {:induction false} ForgettingFactsKeepsMatch(t: Tables, p: Profile, s: Selector)
    requires TupleMatches(t, p, s)
    ensures TupleMatches(t, p.(cuda := None), s)
    ensures TupleMatches(t, p.(facts := p.facts.(driver := None)), s)
    ensures TupleMatches(t, p.(gpu := p.gpu.(family := "", familyId := "")), s)
  {
    assert Strip("") == "" && Lower("") == "";
  }

  // ----- rules -----

  /** What one rule adds to the errors. */
  function RuleErrors(r: Rule, p: Profile, strict: bool): seq<Issue> {
    if Active(r) && Applies(r, p) && Violation(r, p, strict) != "" && r.severity == Error && r.strictHard && strict
    then [Issue(r.code, Error, r.id, Violation(r, p, strict))] else []
  }

  function RuleWarnings(r: Rule, p: Profile, strict: bool): seq<Issue> {
    if Active(r) && Applies(r, p) && Violation(r, p, strict) != ""
       && (r.severity == Warning || (r.severity == Error && !(r.strictHard && strict)))
    then [Issue(r.code, Warning, r.id, Violation(r, p, strict))] else []
  }

  function Total(f: Rule -> seq<Issue>, rules: seq<Rule>): seq<Issue> {
    if rules == [] then [] else f(rules[0]) + Total(f, rules[1..])
  }

  lemma {:induction false} TotalMember(f: Rule -> seq<Issue>, rules: seq<Rule>, e: Issue)
    ensures e in Total(f, rules) <==> exists r :: r in rules && e in f(r)
  {
    if rules != [] {
      TotalMember(f, rules[1..], e);
      assert rules == [rules[0]] + rules[1..];
    }
  }

  lemma {:induction false} ApplyRuleAdds(f: Findings, r: Rule, p: Profile, strict: bool)
    ensures ApplyRule(f, r, p, strict).errors == f.errors + RuleErrors(r, p, strict)
    ensures ApplyRule(f, r, p, strict).warnings == f.warnings + RuleWarnings(r, p, strict)
  {
  }

  lemma {:induction false} ApplyAllAdds(apply: (Findings, Rule) -> Findings, f: Findings, rules: seq<Rule>, errors: Rule -> seq<Issue>, warnings: Rule -> seq<Issue>)
    requires forall g, r :: apply(g, r).errors == g.errors + errors(r) && apply(g, r).warnings == g.warnings + warnings(r)
    ensures ApplyAll(apply, f, rules).errors == f.errors + Total(errors, rules)
    ensures ApplyAll(apply, f, rules).warnings == f.warnings + Total(warnings, rules)
    decreases rules
  {
    if rules != [] {
      ApplyAllAdds(apply, apply(f, rules[0]), rules[1..], errors, warnings);
    }
  }

  lemma {:induction false} NoErrorsUnlessStrict(rules: seq<Rule>, p: Profile)
    ensures Total(r => RuleErrors(r, p, false), rules) == []
  {
    if rules != [] {
      NoErrorsUnlessStrict(rules[1..], p);
    }
  }

  lemma {:induction false} EvaluateUnfolds(c: Catalogs, p: Profile, layers: seq<LayerNeeds>, stackLayers: seq<string>, mode: Mode, strict: bool)
    ensures var r, start := Evaluate(c, p, layers, stackLayers, mode, strict),
      TupleFindings(LayerErrors(c.tables, p, layers, stackLayers), ResolveTuple(c.tables, p, mode, c.tuples), mode);
      && r.errors == start.errors + Total(q => RuleErrors(q, p, strict), c.rules)
      && r.warnings == start.warnings + Total(q => RuleWarnings(q, p, strict), c.rules)
      && (r.compatible <==> r.errors == []) && r.decision == ResolveTuple(c.tables, p, mode, c.tuples)
  {
    var d := ResolveTuple(c.tables, p, mode, c.tuples);
    var errors, warnings, apply := r => RuleErrors(r, p, strict), r => RuleWarnings(r, p, strict), Applier(p, strict);
    forall g, r ensures apply(g, r).errors == g.errors + errors(r) && apply(g, r).warnings == g.warnings + warnings(r) {
      ApplyRuleAdds(g, r, p, strict);
    }
    ApplyAllAdds(apply, TupleFindings(LayerErrors(c.tables, p, layers, stackLayers), d, mode), c.rules, errors, warnings);
  }

  /** Strictness only appends errors: the lenient error list is a prefix of the strict one. */
  lemma {:induction false} StrictErrorsExtend(c: Catalogs, p: Profile, layers: seq<LayerNeeds>, stackLayers: seq<string>, mode: Mode)
    ensures Evaluate(c, p, layers, stackLayers, mode, false).errors <= Evaluate(c, p, layers, stackLayers, mode, true).errors
    ensures Evaluate(c, p, layers, stackLayers, mode, true).compatible ==> Evaluate(c, p, layers, stackLayers, mode, false).compatible
  {
    EvaluateUnfolds(c, p, layers, stackLayers, mode, false);
    EvaluateUnfolds(c, p, layers, stackLayers, mode, true);
    NoErrorsUnlessStrict(c.rules, p);
  }

  /** Enforcing the tuple catalog is the strictest mode. */
  lemma {:induction false} EnforceIsStrictest(c: Catalogs, p: Profile, layers: seq<LayerNeeds>, stackLayers: seq<string>, mode: Mode, strict: bool)
    requires Evaluate(c, p, layers, stackLayers, Enforce, strict).compatible
    ensures Evaluate(c, p, layers, stackLayers, mode, strict).compatible
  {
    EvaluateUnfolds(c, p, layers, stackLayers, Enforce, strict);
    EvaluateUnfolds(c, p, layers, stackLayers, mode, strict);
  }

  /** A hard error rule is broken in strict mode. */
  ghost predicate HardRuleBroken(rules: seq<Rule>, p: Profile) {
    exists r :: r in rules && r.severity == Error && r.strictHard && Breaks(r, p, true)
  }

  /** What a positive verdict asks for. */
  ghost predicate Suits(c: Catalogs, p: Profile, layers: seq<LayerNeeds>, stackLayers: seq<string>, mode: Mode, strict: bool) {
    && (forall l, other :: l in layers && other in l.incompatibleWith ==> other !in stackLayers)
    && (forall l, kv :: l in layers && kv in l.needs ==> Met(c.tables, p, Need(l.id, kv.0, kv.1)))
    && (mode == Enforce ==> exists tuple :: tuple in c.tuples && TupleMatches(c.tables, p, tuple.selector))
    && (strict ==> !HardRuleBroken(c.rules, p))
  }

  /**
   When the verdict is positive: no layer conflict, every requirement met, a matching tuple
   if the catalog is enforced, and no broken hard rule if the mode is strict.
   */
  lemma {:induction false} CompatibleIff(c: Catalogs, p: Profile, layers: seq<LayerNeeds>, stackLayers: seq<string>, mode: Mode, strict: bool)
    ensures Evaluate(c, p, layers, stackLayers, mode, strict).compatible <==> Suits(c, p, layers, stackLayers, mode, strict)
  {
    EvaluateUnfolds(c, p, layers, stackLayers, mode, strict);
    ChosenTuple(Matcher(c.tables, p), c.tuples);
    SomeTupleMatches(c.tables, p, c.tuples);
    NoConflictsIff(layers, stackLayers);
    NoNeedErrorsIff(Handler(c.tables, p), NeedsOf(layers));
    AllMetIff(c.tables, p, layers);
    NoRuleErrorsIff(c.rules, p, strict);
  }

  lemma {:induction false} SomeTupleMatches(t: Tables, p: Profile, tuples: seq<SupportedTuple>)
    ensures SomeMatch(Matcher(t, p), tuples) <==> exists tuple :: tuple in tuples && TupleMatches(t, p, tuple.selector)
  {
    if i: nat :| Matching(Matcher(t, p), tuples, i) {
      assert tuples[i] in tuples && TupleMatches(t, p, tuples[i].selector);
    }
    if tuple :| tuple in tuples && TupleMatches(t, p, tuple.selector) {
      var i: nat :| i < |tuples| && tuples[i] == tuple;
      assert Matching(Matcher(t, p), tuples, i);
    }
  }

  lemma {:induction false} NeedsMember(layers: seq<LayerNeeds>, n: Need)
    ensures n in NeedsOf(layers) <==> exists l, kv :: l in layers && kv in l.needs && n == Need(l.id, kv.0, kv.1)
  {
    if layers != [] {
      NeedsMember(layers[1..], n);
      assert layers == [layers[0]] + layers[1..];
      LayerNeedsMember(layers[0], n);
    }
  }

  lemma {:induction false} LayerNeedsMember(l: LayerNeeds, n: Need)
    ensures n in LayerNeedsOf(l) <==> exists kv :: kv in l.needs && n == Need(l.id, kv.0, kv.1)
  {
    var needs := LayerNeedsOf(l);
    if n in needs {
      var i :| 0 <= i < |needs| && needs[i] == n;
      assert l.needs[i] in l.needs;
    }
    if kv :| kv in l.needs && n == Need(l.id, kv.0, kv.1) {
      var i :| 0 <= i < |l.needs| && l.needs[i] == kv;
      assert needs[i] == n;
    }
  }

  lemma {:induction false} AllMetIff(t: Tables, p: Profile, layers: seq<LayerNeeds>)
    ensures (forall n :: n in NeedsOf(layers) ==> Handler(t, p)(n) == [])
      <==> forall l, kv :: l in layers && kv in l.needs ==> Met(t, p, Need(l.id, kv.0, kv.1))
  {
    forall n ensures Handler(t, p)(n) == [] <==> Met(t, p, n) { MetIff(t, p, n); }
    forall n ensures n in NeedsOf(layers) <==> exists l, kv :: l in layers && kv in l.needs && n == Need(l.id, kv.0, kv.1) {
      NeedsMember(layers, n);
    }
  }

  lemma {:induction false} NoLayerConflictsIff(id: string, others: seq<string>, stackLayers: seq<string>)
    ensures LayerConflicts(id, others, stackLayers) == [] <==> forall other :: other in others ==> other !in stackLayers
  {
    if others != [] {
      NoLayerConflictsIff(id, others[1..], stackLayers);
      assert others == [others[0]] + others[1..];
    }
  }

  lemma {:induction false} NoConflictsIff(layers: seq<LayerNeeds>, stackLayers: seq<string>)
    ensures ConflictsOf(layers, stackLayers) == []
      <==> forall l, other :: l in layers && other in l.incompatibleWith ==> other !in stackLayers
  {
    if layers != [] {
      NoLayerConflictsIff(layers[0].id, layers[0].incompatibleWith, stackLayers);
      NoConflictsIff(layers[1..], stackLayers);
      assert layers == [layers[0]] + layers[1..];
    }
  }

  lemma {:induction false} NoNeedErrorsIff(handler: Need -> seq<Issue>, needs: seq<Need>)
    ensures Handled(handler, needs) == [] <==> forall n :: n in needs ==> handler(n) == []
  {
    if needs != [] {
      NoNeedErrorsIff(handler, needs[1..]);
      assert needs == [needs[0]] + needs[1..];
    }
  }

  lemma {:induction false} NoRuleErrorsIff(rules: seq<Rule>, p: Profile, strict: bool)
    ensures Total(r => RuleErrors(r, p, strict), rules) == [] <==> (strict ==> !HardRuleBroken(rules, p))
  {
    var f := (r: Rule) => RuleErrors(r, p, strict);
    if Total(f, rules) == [] {
      forall r | r in rules ensures f(r) == [] {
        if f(r) != [] {
          TotalMember(f, rules, f(r)[0]);
        }
      }
      forall r | r in rules && r.severity == Error && r.strictHard && strict ensures !Breaks(r, p, true) {
        assert f(r) == [];
        ViolationIs(r, p, true);
      }
    } else {
      var e := Total(f, rules)[0];
      TotalMember(f, rules, e);
      var r :| r in rules && e in f(r);
      ViolationIs(r, p, strict);
    }
  }

  /** A hard rule whose only violation is a driver that is unknown though marked detected, which strict mode alone calls too old. */
  predicate UnknownDriverOnly(r: Rule, p: Profile) {
    && Active(r) && Applies(r, p) && r.severity == Error && r.strictHard && !RuntimeViolated(r, p)
    && r.needs.driverMin.Some? && p.facts.driver.None? && DriverDetected(p)
  }

  function AsWarning(e: Issue): Issue { e.(severity := Warning) }

  /** Of one rule: the error of strict mode is no warning of lenient mode exactly for an unknown driver. */
  lemma {:induction false} RuleInventsIff(r: Rule, p: Profile)
    ensures (exists e :: e in RuleErrors(r, p, true) && AsWarning(e) !in RuleWarnings(r, p, false)) <==> UnknownDriverOnly(r, p)
    ensures UnknownDriverOnly(r, p) ==> RuleErrors(r, p, true) == [Issue(r.code, Error, r.id, "driver_version")]
  {
    assert "driver_version"[0] != "cuda_runtime"[0] && "driver_version"[0] != "container_runtime"[0];
    if UnknownDriverOnly(r, p) {
      assert Issue(r.code, Error, r.id, "driver_version") in RuleErrors(r, p, true);
    }
  }

  /** With the driver unknown, no lenient warning blames it. */
  lemma {:induction false} NoDriverWarning(r: Rule, p: Profile, e: Issue)
    requires p.facts.driver.None? && e in RuleWarnings(r, p, false)
    ensures e.field != "driver_version"
  {
    assert "driver_version"[0] != "cuda_runtime"[0] && "driver_version"[0] != "container_runtime"[0];
  }

  lemma {:induction false} InventedByRule(rules: seq<Rule>, p: Profile, e: Issue) returns (r: Rule)
    requires e in Total(q => RuleErrors(q, p, true), rules) && AsWarning(e) !in Total(q => RuleWarnings(q, p, false), rules)
    ensures r in rules && UnknownDriverOnly(r, p)
  {
    TotalMember(q => RuleErrors(q, p, true), rules, e);
    r :| r in rules && e in RuleErrors(r, p, true);
    TotalMember(q => RuleWarnings(q, p, false), rules, AsWarning(e));
    RuleInventsIff(r, p);
  }

  lemma {:induction false} RuleInvents(rules: seq<Rule>, p: Profile, r: Rule)
    requires r in rules && UnknownDriverOnly(r, p)
    ensures var e := Issue(r.code, Error, r.id, "driver_version");
      e in Total(q => RuleErrors(q, p, true), rules) && AsWarning(e) !in Total(q => RuleWarnings(q, p, false), rules)
  {
    var e := Issue(r.code, Error, r.id, "driver_version");
    RuleInventsIff(r, p);
    TotalMember(q => RuleErrors(q, p, true), rules, e);
    TotalMember(q => RuleWarnings(q, p, false), rules, AsWarning(e));
    if q :| q in rules && AsWarning(e) in RuleWarnings(q, p, false) {
      NoDriverWarning(q, p, AsWarning(e));
    }
  }

  /**
   Strictness adds an error that is no warning of the lenient report if and only if some
   active, applicable hard rule asks for a minimum driver, its container runtime is met, and
   the driver version is unknown though marked detected.
   */
  lemma {:induction false} StrictInventsIff(rules: seq<Rule>, p: Profile)
    ensures (exists e :: e in Total(q => RuleErrors(q, p, true), rules) && AsWarning(e) !in Total(q => RuleWarnings(q, p, false), rules))
      <==> exists r :: r in rules && UnknownDriverOnly(r, p)
  {
    if e :| e in Total(q => RuleErrors(q, p, true), rules) && AsWarning(e) !in Total(q => RuleWarnings(q, p, false), rules) {
      var r := InventedByRule(rules, p, e);
    }
    if r :| r in rules && UnknownDriverOnly(r, p) {
      RuleInvents(rules, p, r);
      assert Issue(r.code, Error, r.id, "driver_version") in Total(q => RuleErrors(q, p, true), rules);
    }
  }

  /** A rule that asks for driver 535 of any profile. */
  const DRIVER_RULE := Rule(
    "driver", true, false, true, When("", "", "", "", None, None), RuleNeeds(None, Some(535.0), None, None), "DRIVER", Error)

  /** It refuses every profile whose driver is marked detected but unknown in strict mode, and does not even warn in lenient mode. */
  lemma {:induction false} UnknownDriverIsRefused(c: Catalogs, p: Profile, layers: seq<LayerNeeds>, stackLayers: seq<string>, mode: Mode)
    requires c.rules == [DRIVER_RULE] && p.facts.driver.None? && DriverDetected(p)
    ensures !Evaluate(c, p, layers, stackLayers, mode, true).compatible
    ensures Total(q => RuleWarnings(q, p, false), c.rules) == []
  {
    EvaluateUnfolds(c, p, layers, stackLayers, mode, true);
    RuleInvents(c.rules, p, DRIVER_RULE);
    assert c.rules[1..] == [];
  }
}
