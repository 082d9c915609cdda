/** Everything a compatibility report lists, and why. */
module VerdictReports {
  import opened Profiles
  import opened Compatibility
  import opened Requirements
  import opened CompatibilityTheorems

  /** A layer excludes another layer of the stack. */
  ghost predicate FromConflict(layers: seq<LayerNeeds>, stackLayers: seq<string>, e: Issue) {
    exists l, other :: Excludes(layers, stackLayers, l, other) && e == Issue("LAYER_CONFLICT", Error, l.id, "incompatible_with")
  }

  predicate Excludes(layers: seq<LayerNeeds>, stackLayers: seq<string>, l: LayerNeeds, other: string) {
    l in layers && other in l.incompatibleWith && other in stackLayers
  }

  lemma {:induction false} LayerConflictMember(id: string, others: seq<string>, stackLayers: seq<string>, e: Issue)
    ensures e in LayerConflicts(id, others, stackLayers)
      <==> e == Issue("LAYER_CONFLICT", Error, id, "incompatible_with") && exists other :: other in others && other in stackLayers
  {
    if others != [] {
      LayerConflictMember(id, others[1..], stackLayers, e);
      assert others == [others[0]] + others[1..];
    }
  }

  lemma {:induction false} ConflictMember(layers: seq<LayerNeeds>, stackLayers: seq<string>, e: Issue)
    ensures e in ConflictsOf(layers, stackLayers) <==> FromConflict(layers, stackLayers, e)
  {
    if layers != [] {
      var l, rest := layers[0], layers[1..];
      LayerConflictMember(l.id, l.incompatibleWith, stackLayers, e);
      ConflictMember(rest, stackLayers, e);
      assert layers == [l] + rest;
      if other :| other in l.incompatibleWith && other in stackLayers {
        assert Excludes(layers, stackLayers, l, other);
      }
      if k, other :| Excludes(rest, stackLayers, k, other) && e == Issue("LAYER_CONFLICT", Error, k.id, "incompatible_with") {
        assert Excludes(layers, stackLayers, k, other);
      }
      if k, other :| Excludes(layers, stackLayers, k, other) && e == Issue("LAYER_CONFLICT", Error, k.id, "incompatible_with") {
        assert k == l || Excludes(rest, stackLayers, k, other);
      }
    }
  }

  /** A requirement of a layer is not met. */
  ghost predicate FromNeed(t: Tables, p: Profile, layers: seq<LayerNeeds>, e: Issue) {
    exists l, kv :: l in layers && kv in l.needs && e in NeedErrors(t, p, Need(l.id, kv.0, kv.1))
  }

  lemma {:induction false} HandledMember(handler: Need -> seq<Issue>, needs: seq<Need>, e: Issue)
    ensures e in Handled(handler, needs) <==> exists n :: n in needs && e in handler(n)
  {
    if needs != [] {
      HandledMember(handler, needs[1..], e);
      assert needs == [needs[0]] + needs[1..];
    }
  }

  lemma {:induction false} NeedMember(t: Tables, p: Profile, layers: seq<LayerNeeds>, e: Issue)
    ensures e in Handled(Handler(t, p), NeedsOf(layers)) <==> FromNeed(t, p, layers, e)
  {
    HandledMember(Handler(t, p), NeedsOf(layers), e);
    if n :| n in NeedsOf(layers) && e in Handler(t, p)(n) {
      NeedsMember(layers, n);
    }
    if l, kv :| l in layers && kv in l.needs && e in NeedErrors(t, p, Need(l.id, kv.0, kv.1)) {
      NeedsMember(layers, Need(l.id, kv.0, kv.1));
      assert e in Handler(t, p)(Need(l.id, kv.0, kv.1));
    }
  }

  /** Errors of requirements are told by key and layer, and only of requirements not met. */
  lemma {:induction false} NeedErrorIs(t: Tables, p: Profile, layers: seq<LayerNeeds>, e: Issue)
    requires FromNeed(t, p, layers, e)
    ensures exists l, kv :: l in layers && kv in l.needs && NeedFails(t, p, Need(l.id, kv.0, kv.1), e)
  {
    var l, kv :| l in layers && kv in l.needs && e in NeedErrors(t, p, Need(l.id, kv.0, kv.1));
    var n := Need(l.id, kv.0, kv.1);
    MetIff(t, p, n);
    UnmetGivesItsCode(t, p, n, e);
    assert NeedFails(t, p, n, e);
  }

  predicate NeedFails(t: Tables, p: Profile, n: Need, e: Issue) {
    !Met(t, p, n) && e.severity == Error && e.origin == n.layer && e.field == n.key && CodeOf(n, e.code)
  }

  /** No tuple of the catalog matches, and someone asked. */
  ghost predicate Unmatched(c: Catalogs, p: Profile, mode: Mode) {
    mode != Off && forall tuple :: tuple in c.tuples ==> !TupleMatches(c.tables, p, tuple.selector)
  }

  lemma {:induction false} MatchedIff(c: Catalogs, p: Profile, mode: Mode)
    ensures ResolveTuple(c.tables, p, mode, c.tuples).matched <==> !Unmatched(c, p, mode)
  {
    ChosenTuple(Matcher(c.tables, p), c.tuples);
    SomeTupleMatches(c.tables, p, c.tuples);
  }

  function Mismatch(severity: Severity): Issue { Issue("TUPLE_UNSUPPORTED", severity, "tuple_catalog", "profile") }

  lemma {:induction false} TupleFindingsAre(errors: seq<Issue>, d: Decision, mode: Mode)
    requires mode == Off ==> d.matched
    ensures var f := TupleFindings(errors, d, mode);
      && f.errors == errors + (if !d.matched && mode == Enforce then [Mismatch(Error)] else [])
      && f.warnings == (if !d.matched && mode != Enforce then [Mismatch(Warning)] else [])
      && f.info == (if d.matched then [Issue("TUPLE_MATCHED", Info, "tuple_catalog", "")] else [])
  {
  }

  // ----- rules -----

  predicate HardIn(r: Rule, strict: bool) { r.severity == Error && r.strictHard && strict }

  /** A broken hard error rule, judged strictly. */
  ghost predicate FromHardRule(rules: seq<Rule>, p: Profile, strict: bool, e: Issue) {
    exists r :: r in rules && HardIn(r, strict) && Breaks(r, p, strict) && e == Issue(r.code, Error, r.id, Violation(r, p, strict))
  }

  /** Any other broken error or warning rule. */
  ghost predicate FromSoftRule(rules: seq<Rule>, p: Profile, strict: bool, e: Issue) {
    exists r :: r in rules && !HardIn(r, strict) && r.severity != Info && Breaks(r, p, strict) && e == Issue(r.code, Warning, r.id, Violation(r, p, strict))
  }

  /** An information rule that concerns the profile. */
  ghost predicate FromInfoRule(rules: seq<Rule>, p: Profile, strict: bool, e: Issue) {
    exists r :: r in rules && r.severity == Info && Concerns(r, p) && e == Issue(r.code, Info, r.id, Violation(r, p, strict))
  }

  lemma {:induction false} RulesAdd(f: Findings, rules: seq<Rule>, p: Profile, strict: bool, e: Issue)
    ensures var g := ApplyAll(Applier(p, strict), f, rules);
      && (e in g.errors <==> e in f.errors || FromHardRule(rules, p, strict, e))
      && (e in g.warnings <==> e in f.warnings || FromSoftRule(rules, p, strict, e))
      && (e in g.info <==> e in f.info || FromInfoRule(rules, p, strict, e))
    decreases rules
  {
    if rules != [] {
      var first, rest := rules[0], rules[1..];
      assert rules == [first] + rest;
      RuleAdds(f, first, p, strict);
      RulesAdd(Applier(p, strict)(f, first), rest, p, strict, e);
      RuleOrRest(first, rest, p, strict, e);
    }
  }

  lemma {:induction false} RuleOrRest(first: Rule, rest: seq<Rule>, p: Profile, strict: bool, e: Issue)
    ensures FromHardRule([first] + rest, p, strict, e) <==> FromHardRule([first], p, strict, e) || FromHardRule(rest, p, strict, e)
    ensures FromSoftRule([first] + rest, p, strict, e) <==> FromSoftRule([first], p, strict, e) || FromSoftRule(rest, p, strict, e)
    ensures FromInfoRule([first] + rest, p, strict, e) <==> FromInfoRule([first], p, strict, e) || FromInfoRule(rest, p, strict, e)
  {
    assert first in [first] && first in [first] + rest;
    assert forall r :: r in rest ==> r in [first] + rest;
  }

  // ----- the report -----

  /**
   The errors of a report: layers that exclude each other, requirements not met, a missing
   tuple where tuples are enforced, and broken hard rules where judgement is strict.
   */
  lemma {:induction false} ErrorsListed(c: Catalogs, p: Profile, layers: seq<LayerNeeds>, stackLayers: seq<string>, mode: Mode, strict: bool, e: Issue)
    ensures e in Evaluate(c, p, layers, stackLayers, mode, strict).errors <==>
      || FromConflict(layers, stackLayers, e) || FromNeed(c.tables, p, layers, e)
      || (mode == Enforce && Unmatched(c, p, mode) && e == Mismatch(Error)) || FromHardRule(c.rules, p, strict, e)
  {
    var d := ResolveTuple(c.tables, p, mode, c.tuples);
    MatchedIff(c, p, mode);
    TupleFindingsAre(LayerErrors(c.tables, p, layers, stackLayers), d, mode);
    RulesAdd(TupleFindings(LayerErrors(c.tables, p, layers, stackLayers), d, mode), c.rules, p, strict, e);
    ConflictMember(layers, stackLayers, e);
    NeedMember(c.tables, p, layers, e);
  }

  /** Its warnings: a missing tuple where tuples are only watched, and the other broken rules. */
  lemma {:induction false} WarningsListed(c: Catalogs, p: Profile, layers: seq<LayerNeeds>, stackLayers: seq<string>, mode: Mode, strict: bool, e: Issue)
    ensures e in Evaluate(c, p, layers, stackLayers, mode, strict).warnings <==>
      (mode != Enforce && Unmatched(c, p, mode) && e == Mismatch(Warning)) || FromSoftRule(c.rules, p, strict, e)
  {
    var d := ResolveTuple(c.tables, p, mode, c.tuples);
    MatchedIff(c, p, mode);
    TupleFindingsAre(LayerErrors(c.tables, p, layers, stackLayers), d, mode);
    RulesAdd(TupleFindings(LayerErrors(c.tables, p, layers, stackLayers), d, mode), c.rules, p, strict, e);
  }

  /** Its notes: a tuple that matched or was not asked for, the information rules, and that all is well when there is no error. */
  lemma {:induction false} NotesListed(c: Catalogs, p: Profile, layers: seq<LayerNeeds>, stackLayers: seq<string>, mode: Mode, strict: bool, e: Issue)
    ensures var r := Evaluate(c, p, layers, stackLayers, mode, strict);
      e in r.info <==>
      || (!Unmatched(c, p, mode) && e == Issue("TUPLE_MATCHED", Info, "tuple_catalog", "")) || FromInfoRule(c.rules, p, strict, e)
      || (r.errors == [] && e == Issue("COMPAT_OK", Info, "", ""))
  {
    var d := ResolveTuple(c.tables, p, mode, c.tuples);
    MatchedIff(c, p, mode);
    TupleFindingsAre(LayerErrors(c.tables, p, layers, stackLayers), d, mode);
    RulesAdd(TupleFindings(LayerErrors(c.tables, p, layers, stackLayers), d, mode), c.rules, p, strict, e);
  }
}
