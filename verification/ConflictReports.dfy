/** What a conflict report contains, in terms of the declarations it walked over. */
module ConflictReports {
  import opened Basics
  import opened Specs
  import opened LastWriter
  import opened Composition
  import opened CompositionLaws
  import PipConstraints

  // ----- the dependency report -----

  predicate IsHard(c: Conflict) { c.kind in {Pip, Npm} && c.severity == Error }
  predicate IsDep(c: Conflict) { c.kind in {Pip, Npm} }

  /** The report holds an error about a pip or npm package. */
  predicate Blocked(cs: seq<Conflict>) { exists c :: c in cs && IsHard(c) }

  /** The report mentions a pip or npm package at all. */
  predicate Touched(cs: seq<Conflict>) { exists c :: c in cs && IsDep(c) }

  lemma {:induction false} ReportGrows(cs: seq<Conflict>, c: Conflict)
    ensures Blocked(cs + [c]) <==> Blocked(cs) || IsHard(c)
    ensures Touched(cs + [c]) <==> Touched(cs) || IsDep(c)
  {
    assert forall x :: x in cs + [c] <==> x in cs || x == c;
  }

  ghost predicate GoodDeps(m: map<string, PipDep>, n: map<Key, NpmDep>) {
    && (forall k :: k in m ==> m[k].name == k && ValidPip(m[k]))
    && (forall k :: k in n ==> NpmKey(n[k]) == k && ValidNpm(n[k]))
  }

  /** The analysis has seen the same last declarations as the merge. */
  ghost predicate Tracks(st: DepState, m: map<string, PipDep>, n: map<Key, NpmDep>) {
    && st.pip.Keys == m.Keys && (forall k :: k in m ==> st.pip[k].version == m[k].version)
    && st.npm.Keys == n.Keys && (forall k :: k in n ==> st.npm[k].version == n[k].version && st.npm[k].mode == n[k].mode)
    && GoodDeps(m, n)
  }

  predicate Broken(lib: Pep440, m: map<string, PipDep>, d: PipDep) {
    d.name in m && m[d.name].version != d.version
    && PipConstraints.Compatible(lib, m[d.name].version, d.version) != Ok(true)
  }

  lemma {:induction false} PushPipOutcome(lib: Pep440, st: DepState, m: map<string, PipDep>, n: map<Key, NpmDep>, d: PipDep, source: string)
    requires Tracks(st, m, n) && ValidPip(d)
    ensures var r := PushPip(lib, st, d, source);
      var clash := d.name in m && m[d.name].version != d.version;
      && (clash <==> d.name in m && m[d.name] != d)
      && (r.Err? ==> clash && PipConstraints.Compatible(lib, m[d.name].version, d.version).Err?)
      && (r.Ok? ==> Tracks(r.value, m[d.name := d], n))
      && (r.Ok? ==> (Touched(r.value.conflicts) <==> Touched(st.conflicts) || clash))
      && (r.Ok? ==> (Blocked(r.value.conflicts) <==> Blocked(st.conflicts) || Broken(lib, m, d)))
  {
    var r := PushPip(lib, st, d, source);
    if d.name in m && m[d.name].version == d.version {
      SamePip(m[d.name], d);
      assert m[d.name := d] == m;
    }
    if r.Ok? && r.value.conflicts != st.conflicts {
      ReportGrows(st.conflicts, r.value.conflicts[|st.conflicts|]);
    }
  }

  lemma {:induction false} PushPipsOutcome(lib: Pep440, st: DepState, m: map<string, PipDep>, n: map<Key, NpmDep>, ds: seq<PipDep>, source: string)
    requires Tracks(st, m, n) && forall d :: d in ds ==> ValidPip(d)
    ensures var r, es := PushPips(lib, st, ds, source), PipEntries(ds);
      && (r.Err? ==> !PipChain(lib, m, es) && !Steady(m, es))
      && (r.Ok? ==> Tracks(r.value, Put(m, es), n))
      && (r.Ok? ==> (Blocked(r.value.conflicts) <==> Blocked(st.conflicts) || !PipChain(lib, m, es)))
      && (r.Ok? ==> (Touched(r.value.conflicts) <==> Touched(st.conflicts) || !Steady(m, es)))
    decreases ds
  {
    if ds != [] {
      PushPipOutcome(lib, st, m, n, ds[0], source);
      assert PipEntries(ds)[1..] == PipEntries(ds[1..]) && PipEntries(ds)[0] == Entry(ds[0].name, ds[0]);
      if PushPip(lib, st, ds[0], source).Ok? {
        PushPipsOutcome(lib, PushPip(lib, st, ds[0], source).value, m[ds[0].name := ds[0]], n, ds[1..], source);
      }
    }
  }

  predicate Torn(n: map<Key, NpmDep>, d: NpmDep) {
    var k := NpmKey(d);
    k in n && n[k].mode == Custom && d.mode == Custom && n[k].version != d.version
  }

  lemma {:induction false} PushNpmOutcome(st: DepState, m: map<string, PipDep>, n: map<Key, NpmDep>, d: NpmDep, source: string)
    requires Tracks(st, m, n) && ValidNpm(d)
    ensures var r, k := PushNpm(st, d, source), NpmKey(d);
      && Tracks(r, m, n[k := d])
      && (Touched(r.conflicts) <==> Touched(st.conflicts) || (k in n && n[k] != d))
      && (Blocked(r.conflicts) <==> Blocked(st.conflicts) || Torn(n, d))
  {
    var r, k := PushNpm(st, d, source), NpmKey(d);
    if k in n && n[k].version == d.version && n[k].mode == d.mode {
      SameNpm(n[k], d);
      assert n[k := d] == n;
    }
    if r.conflicts != st.conflicts {
      ReportGrows(st.conflicts, r.conflicts[|st.conflicts|]);
    }
  }

  lemma {:induction false} PushNpmsOutcome(st: DepState, m: map<string, PipDep>, n: map<Key, NpmDep>, ds: seq<NpmDep>, source: string)
    requires Tracks(st, m, n) && forall d :: d in ds ==> ValidNpm(d)
    ensures var r, es := PushNpms(st, ds, source), NpmEntries(ds);
      && Tracks(r, m, Put(n, es))
      && (Blocked(r.conflicts) <==> Blocked(st.conflicts) || !NpmChain(n, es))
      && (Touched(r.conflicts) <==> Touched(st.conflicts) || !Steady(n, es))
    decreases ds
  {
    if ds != [] {
      PushNpmOutcome(st, m, n, ds[0], source);
      assert NpmEntries(ds)[1..] == NpmEntries(ds[1..]) && NpmEntries(ds)[0] == Entry(NpmKey(ds[0]), ds[0]);
      PushNpmsOutcome(PushNpm(st, ds[0], source), m, n[NpmKey(ds[0]) := ds[0]], ds[1..], source);
    }
  }

  lemma {:induction false} PushWheelhouseOutcome(st: DepState, mode: WheelhouseMode, path: string, source: string)
    ensures var r := PushWheelhouse(st, mode, path, source);
      r.pip == st.pip && r.npm == st.npm
      && (Blocked(r.conflicts) <==> Blocked(st.conflicts)) && (Touched(r.conflicts) <==> Touched(st.conflicts))
  {
    var r := PushWheelhouse(st, mode, path, source);
    if r.conflicts != st.conflicts {
      ReportGrows(st.conflicts, r.conflicts[|st.conflicts|]);
    }
  }

  lemma {:induction false} PushPartOutcome(lib: Pep440, st: DepState, m: map<string, PipDep>, n: map<Key, NpmDep>, s: Sourced)
    requires Tracks(st, m, n) && ValidPart(s.part)
    ensures var r := PushPart(lib, st, s);
      && (r.Err? ==> !PipChain(lib, m, PipE(s)) && !Steady(m, PipE(s)))
      && (r.Ok? ==> Tracks(r.value, Put(m, PipE(s)), Put(n, NpmE(s))))
      && (r.Ok? ==> (Blocked(r.value.conflicts) <==>
                       Blocked(st.conflicts) || !PipChain(lib, m, PipE(s)) || !NpmChain(n, NpmE(s))))
      && (r.Ok? ==> (Touched(r.value.conflicts) <==>
                       Touched(st.conflicts) || !Steady(m, PipE(s)) || !Steady(n, NpmE(s))))
  {
    var c := s.part.components;
    ValidPartFacts(s.part);
    PushWheelhouseOutcome(st, c.pipMode, c.wheelhousePath, s.source);
    var st1 := PushWheelhouse(st, c.pipMode, c.wheelhousePath, s.source);
    PushPipsOutcome(lib, st1, m, n, c.pip, s.source);
    if PushPips(lib, st1, c.pip, s.source).Ok? {
      PushNpmsOutcome(PushPips(lib, st1, c.pip, s.source).value, Put(m, PipE(s)), n, c.npm, s.source);
    }
  }

  lemma {:induction false} PushPartsOutcome(lib: Pep440, st: DepState, m: map<string, PipDep>, n: map<Key, NpmDep>, parts: seq<Sourced>)
    requires Tracks(st, m, n) && ValidParts(parts)
    ensures var r, pips, npms := PushParts(lib, st, parts), Gather(PipE, parts), Gather(NpmE, parts);
      && (r.Err? ==> !PipChain(lib, m, pips) && !Steady(m, pips))
      && (r.Ok? ==> (Blocked(r.value.conflicts) <==>
                       Blocked(st.conflicts) || !PipChain(lib, m, pips) || !NpmChain(n, npms)))
      && (r.Ok? ==> (Touched(r.value.conflicts) <==>
                       Touched(st.conflicts) || !Steady(m, pips) || !Steady(n, npms)))
    decreases parts
  {
    if parts != [] {
      var s, rest := parts[0], parts[1..];
      assert parts == [s] + rest;
      PushPartOutcome(lib, st, m, n, s);
      PipChainConcat(lib, m, PipE(s), Gather(PipE, rest));
      NpmChainConcat(n, NpmE(s), Gather(NpmE, rest));
      SteadyConcat(m, PipE(s), Gather(PipE, rest));
      SteadyConcat(n, NpmE(s), Gather(NpmE, rest));
      if PushPart(lib, st, s).Ok? {
        PushPartsOutcome(lib, PushPart(lib, st, s).value, Put(m, PipE(s)), Put(n, NpmE(s)), rest);
      }
    }
  }

  // ----- the runtime report -----

  predicate Mentions(cs: seq<Conflict>, k: Kind) { exists c :: c in cs && c.kind == k }

  lemma {:induction false} MentionsGrows(cs: seq<Conflict>, c: Conflict, k: Kind)
    ensures Mentions(cs + [c], k) <==> Mentions(cs, k) || c.kind == k
  {
    assert forall x :: x in cs + [c] <==> x in cs || x == c;
  }

  function SeenMap(s: Option<Seen>): map<(), string> {
    if s.None? then map[] else map[() := s.value.value]
  }

  function SeenEnv(m: map<string, Seen>): map<string, string> {
    map k | k in m :: m[k].value
  }

  lemma {:induction false} MentionsStep(before: seq<Conflict>, after: seq<Conflict>)
    requires after == before || (|after| == |before| + 1 && after[..|before|] == before)
    ensures forall k :: Mentions(after, k) <==> Mentions(before, k) || (after != before && after[|before|].kind == k)
  {
    if after != before {
      assert after == before + [after[|before|]];
      forall k { MentionsGrows(before, after[|before|], k); }
    }
  }

  /** Which kinds a report mentions, given what it mentioned before. */
  ghost predicate Reports(before: RunState, env: seq<Entry<string, string>>, cmds: seq<Entry<(), string>>, roles: seq<Entry<(), string>>, after: RunState) {
    && SeenEnv(after.env) == Put(SeenEnv(before.env), env)
    && SeenMap(after.entrypoint) == Put(SeenMap(before.entrypoint), cmds)
    && SeenMap(after.role) == Put(SeenMap(before.role), roles)
    && (Mentions(after.conflicts, Env) <==> Mentions(before.conflicts, Env) || !Steady(SeenEnv(before.env), env))
    && (Mentions(after.conflicts, EntrypointCmd) <==>
          Mentions(before.conflicts, EntrypointCmd) || !Steady(SeenMap(before.entrypoint), cmds))
    && (Mentions(after.conflicts, BaseRole) <==>
          Mentions(before.conflicts, BaseRole) || !Steady(SeenMap(before.role), roles))
  }

  lemma {:induction false} ReportsChain(a: RunState, e1: seq<Entry<string, string>>, c1: seq<Entry<(), string>>, r1: seq<Entry<(), string>>,
                     b: RunState, e2: seq<Entry<string, string>>, c2: seq<Entry<(), string>>, r2: seq<Entry<(), string>>, c: RunState)
    requires Reports(a, e1, c1, r1, b) && Reports(b, e2, c2, r2, c)
    ensures Reports(a, e1 + e2, c1 + c2, r1 + r2, c)
  {
    PutConcat(SeenEnv(a.env), e1, e2);
    PutConcat(SeenMap(a.entrypoint), c1, c2);
    PutConcat(SeenMap(a.role), r1, r2);
    SteadyConcat(SeenEnv(a.env), e1, e2);
    SteadyConcat(SeenMap(a.entrypoint), c1, c2);
    SteadyConcat(SeenMap(a.role), r1, r2);
  }

  lemma {:induction false} PushEnvOutcome(st: RunState, entry: string, source: string)
    ensures Reports(st, [Entry(EnvKey(entry), entry)], [], [], PushEnv(st, entry, source))
  {
    var next := PushEnv(st, entry, source);
    MentionsStep(st.conflicts, next.conflicts);
    var es := [Entry(EnvKey(entry), entry)];
    assert es[1..] == [];
    assert SeenEnv(next.env) == SeenEnv(st.env)[EnvKey(entry) := entry];
    assert Put(SeenEnv(st.env), es) == SeenEnv(st.env)[EnvKey(entry) := entry];
  }

  lemma {:induction false} PushEnvsOutcome(st: RunState, env: seq<string>, source: string)
    ensures Reports(st, EnvEntries(env), [], [], PushEnvs(st, env, source))
    decreases env
  {
    if env != [] {
      var next := PushEnv(st, env[0], source);
      PushEnvOutcome(st, env[0], source);
      PushEnvsOutcome(next, env[1..], source);
      ReportsChain(st, [Entry(EnvKey(env[0]), env[0])], [], [], next, EnvEntries(env[1..]), [], [], PushEnvs(next, env[1..], source));
      assert EnvEntries(env) == [Entry(EnvKey(env[0]), env[0])] + EnvEntries(env[1..]);
    }
  }

  lemma {:induction false} PushEntrypointOutcome(st: RunState, s: Sourced)
    ensures Reports(st, [], CmdE(s), [], PushEntrypoint(st, s.part.entrypoint, s.source))
  {
    MentionsStep(st.conflicts, PushEntrypoint(st, s.part.entrypoint, s.source).conflicts);
  }

  lemma {:induction false} PushBaseRoleOutcome(st: RunState, s: Sourced)
    ensures Reports(st, [], [], RoleE(s), PushBaseRole(st, s.part.components.baseRole, s.source))
  {
    MentionsStep(st.conflicts, PushBaseRole(st, s.part.components.baseRole, s.source).conflicts);
  }

  lemma {:induction false} PushRuntimeOutcome(st: RunState, s: Sourced)
    ensures Reports(st, EnvE(s), CmdE(s), RoleE(s), PushRuntime(st, s))
  {
    var a := PushEnvs(st, s.part.env, s.source);
    var b := PushEntrypoint(a, s.part.entrypoint, s.source);
    PushEnvsOutcome(st, s.part.env, s.source);
    PushEntrypointOutcome(a, s);
    PushBaseRoleOutcome(b, s);
    ReportsChain(st, EnvE(s), [], [], a, [], CmdE(s), [], b);
    ReportsChain(st, EnvE(s) + [], [] + CmdE(s), [] + [], b, [], [], RoleE(s), PushRuntime(st, s));
    assert EnvE(s) + [] + [] == EnvE(s) && [] + CmdE(s) + [] == CmdE(s);
    assert ([] + []) + RoleE(s) == RoleE(s);
  }

  lemma {:induction false} PushRuntimesOutcome(st: RunState, parts: seq<Sourced>)
    ensures Reports(st, Gather(EnvE, parts), Gather(CmdE, parts), Gather(RoleE, parts), PushRuntimes(st, parts))
    decreases parts
  {
    if parts != [] {
      var s, rest := parts[0], parts[1..];
      PushRuntimeOutcome(st, s);
      PushRuntimesOutcome(PushRuntime(st, s), rest);
      ReportsChain(st, EnvE(s), CmdE(s), RoleE(s), PushRuntime(st, s),
                   Gather(EnvE, rest), Gather(CmdE, rest), Gather(RoleE, rest), PushRuntimes(st, parts));
    }
  }

  // ----- the tuple report -----

  function NeedE(l: Layer): seq<Entry<string, string>> {
    NeedsOf(l, WATCHED)
  }

  function NeedOf(l: Layer, key: string): seq<Entry<string, string>> {
    var value := if key in l.needs then Strip(l.needs[key]) else "";
    if value == "" then [] else [Entry(key, value)]
  }

  function NeedsOf(l: Layer, keys: seq<string>): seq<Entry<string, string>> {
    if keys == [] then [] else NeedOf(l, keys[0]) + NeedsOf(l, keys[1..])
  }

  lemma {:induction false} PushNeedOutcome(st: TupleState, key: string, l: Layer)
    ensures var r, es := PushNeed(st, key, l), NeedOf(l, key);
      && SeenEnv(r.seen) == Put(SeenEnv(st.seen), es)
      && (r.conflicts == [] <==> st.conflicts == [] && Steady(SeenEnv(st.seen), es))
  {
    var r, es := PushNeed(st, key, l), NeedOf(l, key);
    if es != [] {
      assert es[1..] == [];
      assert Put(SeenEnv(st.seen), es) == SeenEnv(st.seen)[key := es[0].value];
      assert SeenEnv(r.seen) == SeenEnv(st.seen)[key := es[0].value];
    }
  }

  lemma {:induction false} PushNeedsOutcome(st: TupleState, keys: seq<string>, l: Layer)
    ensures var r := PushNeeds(st, keys, l);
      SeenEnv(r.seen) == Put(SeenEnv(st.seen), NeedsOf(l, keys))
      && (r.conflicts == [] <==> st.conflicts == [] && Steady(SeenEnv(st.seen), NeedsOf(l, keys)))
    decreases keys
  {
    if keys != [] {
      var next := PushNeed(st, keys[0], l);
      PushNeedOutcome(st, keys[0], l);
      PushNeedsOutcome(next, keys[1..], l);
      PutConcat(SeenEnv(st.seen), NeedOf(l, keys[0]), NeedsOf(l, keys[1..]));
      SteadyConcat(SeenEnv(st.seen), NeedOf(l, keys[0]), NeedsOf(l, keys[1..]));
    }
  }

  lemma {:induction false} PushAllNeedsOutcome(st: TupleState, layers: seq<Layer>)
    ensures PushAllNeeds(st, layers).conflicts == [] <==> st.conflicts == [] && Steady(SeenEnv(st.seen), Gather(NeedE, layers))
    decreases layers
  {
    if layers != [] {
      var next := PushNeeds(st, WATCHED, layers[0]);
      PushNeedsOutcome(st, WATCHED, layers[0]);
      PushAllNeedsOutcome(next, layers[1..]);
      SteadyConcat(SeenEnv(st.seen), NeedE(layers[0]), Gather(NeedE, layers[1..]));
    }
  }
}
