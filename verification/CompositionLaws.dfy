/**
 What the conflict reports say about composition: when `compose_stack` succeeds,
 what it merges to, and when the order of the layers does not matter.
 */
module CompositionLaws {
  import opened Basics
  import opened Specs
  import opened LastWriter
  import opened Composition

  // ----- what one part declares -----

  function PipE(s: Sourced): seq<Entry<string, PipDep>> { PipEntries(s.part.components.pip) }
  function NpmE(s: Sourced): seq<Entry<Key, NpmDep>> { NpmEntries(s.part.components.npm) }
  function EnvE(s: Sourced): seq<Entry<string, string>> { EnvEntries(s.part.env) }
  function CopyE(s: Sourced): seq<Entry<Key, CopyItem>> { CopyEntries(s.part.copyItems) }

  function RoleE(s: Sourced): seq<Entry<(), string>> {
    if IsSet(s.part.components.baseRole) then [Entry((), s.part.components.baseRole.value)] else []
  }

  function CmdE(s: Sourced): seq<Entry<(), string>> {
    if s.part.entrypoint.Some? then [Entry((), Join(s.part.entrypoint.value))] else []
  }

  function PipEntries(ds: seq<PipDep>): seq<Entry<string, PipDep>> { Map((d: PipDep) => Entry(d.name, d), ds) }
  function NpmEntries(ds: seq<NpmDep>): seq<Entry<Key, NpmDep>> { Map((d: NpmDep) => Entry(NpmKey(d), d), ds) }
  function EnvEntries(es: seq<string>): seq<Entry<string, string>> { Map((e: string) => Entry(EnvKey(e), e), es) }
  function CopyEntries(cs: seq<CopyItem>): seq<Entry<Key, CopyItem>> { Map((c: CopyItem) => Entry(CopyKey(c), c), cs) }

  function AptOf(parts: seq<Sourced>): set<string> {
    set s, p | s in parts && p in s.part.components.apt :: p
  }

  function PinnedOf(parts: seq<Sourced>): set<string> {
    set s, p | s in parts && p in s.part.components.aptConstraints :: p
  }

  function PortsOf(parts: seq<Sourced>): set<int> {
    set s, p | s in parts && p in s.part.ports :: p
  }

  ghost predicate ValidParts(parts: seq<Sourced>) {
    forall s :: s in parts ==> ValidPart(s.part)
  }

  // ----- conditions on chains of declarations -----

  /** Every pip declaration passes the check against the one it replaces. */
  predicate PipChain(lib: Pep440, m: map<string, PipDep>, es: seq<Entry<string, PipDep>>)
    decreases es
  {
    es == [] ||
    var e := es[0];
    ((e.key in m && m[e.key].version != e.value.version ==>
        PipConstraints.Compatible(lib, m[e.key].version, e.value.version) == Ok(true))
     && PipChain(lib, m[e.key := e.value], es[1..]))
  }

  /** No npm declaration replaces a custom version by a different custom version. */
  predicate NpmChain(m: map<Key, NpmDep>, es: seq<Entry<Key, NpmDep>>)
    decreases es
  {
    es == [] ||
    var e := es[0];
    ((e.key in m && m[e.key].mode == Custom && e.value.mode == Custom ==> m[e.key].version == e.value.version)
     && NpmChain(m[e.key := e.value], es[1..]))
  }

  lemma {:induction false} PipChainConcat(lib: Pep440, m: map<string, PipDep>, a: seq<Entry<string, PipDep>>, b: seq<Entry<string, PipDep>>)
    ensures PipChain(lib, m, a + b) <==> PipChain(lib, m, a) && PipChain(lib, Put(m, a), b)
    decreases a
  {
    if a == [] {
      assert a + b == b;
    } else {
      assert (a + b)[0] == a[0] && (a + b)[1..] == a[1..] + b;
      PipChainConcat(lib, m[a[0].key := a[0].value], a[1..], b);
    }
  }

  lemma {:induction false} NpmChainConcat(m: map<Key, NpmDep>, a: seq<Entry<Key, NpmDep>>, b: seq<Entry<Key, NpmDep>>)
    ensures NpmChain(m, a + b) <==> NpmChain(m, a) && NpmChain(Put(m, a), b)
    decreases a
  {
    if a == [] {
      assert a + b == b;
    } else {
      assert (a + b)[0] == a[0] && (a + b)[1..] == a[1..] + b;
      NpmChainConcat(m[a[0].key := a[0].value], a[1..], b);
    }
  }

  // ----- merging, independently of the loop -----

  ghost predicate GoodPip(accum: map<string, Origin<PipDep>>) {
    forall k :: k in accum ==> accum[k].dep.name == k && ValidPip(accum[k].dep)
  }

  ghost predicate GoodNpm(accum: map<Key, Origin<NpmDep>>) {
    forall k :: k in accum ==> NpmKey(accum[k].dep) == k && ValidNpm(accum[k].dep)
  }

  lemma {:induction false} SamePip(a: PipDep, b: PipDep)
    requires ValidPip(a) && ValidPip(b) && a.name == b.name && a.version == b.version
    ensures a == b
  {
    assert a.mode == Latest || a.mode == Custom;
  }

  lemma {:induction false} SameNpm(a: NpmDep, b: NpmDep)
    requires NpmKey(a) == NpmKey(b) && a.version == b.version && a.mode == b.mode
    ensures a == b
  {
    assert NpmKey(a)[0] == NpmKey(b)[0] && NpmKey(a)[1] == NpmKey(b)[1] && NpmKey(a)[2] == NpmKey(b)[2];
  }

  /** `_merge_pip` succeeds exactly on a chain, and then the last declaration of each package wins. */
  lemma {:induction false} MergePipOutcome(lib: Pep440, accum: map<string, Origin<PipDep>>, ds: seq<PipDep>, source: string)
    requires GoodPip(accum) && forall d :: d in ds ==> ValidPip(d)
    ensures MergePip(lib, accum, ds, source).Ok? <==> PipChain(lib, Deps(accum), PipEntries(ds))
    ensures MergePip(lib, accum, ds, source).Ok? ==>
      GoodPip(MergePip(lib, accum, ds, source).value)
      && Deps(MergePip(lib, accum, ds, source).value) == Put(Deps(accum), PipEntries(ds))
    decreases ds
  {
    if ds != [] {
      var d := ds[0];
      var same := d.name in accum && accum[d.name].dep.version == d.version;
      var next := if same then accum else accum[d.name := Origin(d, source)];
      if same {
        SamePip(accum[d.name].dep, d);
      }
      assert Deps(next) == Deps(accum)[d.name := d];
      assert PipEntries(ds)[1..] == PipEntries(ds[1..]);
      MergePipOutcome(lib, next, ds[1..], source);
    }
  }

  lemma {:induction false} MergeNpmOutcome(accum: map<Key, Origin<NpmDep>>, ds: seq<NpmDep>, source: string)
    requires GoodNpm(accum) && forall d :: d in ds ==> ValidNpm(d)
    ensures MergeNpm(accum, ds, source).Ok? <==> NpmChain(Deps(accum), NpmEntries(ds))
    ensures MergeNpm(accum, ds, source).Ok? ==>
      GoodNpm(MergeNpm(accum, ds, source).value)
      && Deps(MergeNpm(accum, ds, source).value) == Put(Deps(accum), NpmEntries(ds))
    decreases ds
  {
    if ds != [] {
      var d := ds[0];
      var key := NpmKey(d);
      var same := key in accum && accum[key].dep.mode == d.mode && accum[key].dep.version == d.version;
      var next := if same then accum else accum[key := Origin(d, source)];
      if same {
        SameNpm(accum[key].dep, d);
      }
      assert Deps(next) == Deps(accum)[key := d];
      assert NpmEntries(ds)[1..] == NpmEntries(ds[1..]);
      MergeNpmOutcome(next, ds[1..], source);
    }
  }

  lemma {:induction false} MergeEnvIsPut(accum: map<string, string>, env: seq<string>)
    ensures MergeEnv(accum, env) == Put(accum, EnvEntries(env))
    decreases env
  {
    if env != [] {
      assert EnvEntries(env)[1..] == EnvEntries(env[1..]);
      MergeEnvIsPut(accum[EnvKey(env[0]) := env[0]], env[1..]);
    }
  }

  lemma {:induction false} MergeCopiesIsPut(accum: map<Key, CopyItem>, items: seq<CopyItem>)
    ensures MergeCopies(accum, items) == Put(accum, CopyEntries(items))
    decreases items
  {
    if items != [] {
      assert CopyEntries(items)[1..] == CopyEntries(items[1..]);
      MergeCopiesIsPut(accum[CopyKey(items[0]) := items[0]], items[1..]);
    }
  }

  /** The accumulated base role and entrypoint as one-entry dictionaries. */
  function RoleMap(role: string): map<(), string> {
    if role == "" then map[] else map[() := role]
  }

  function CmdMap(cmd: Option<seq<string>>): map<(), string> {
    if cmd.None? then map[] else map[() := Join(cmd.value)]
  }

  ghost predicate GoodAccum(acc: Accum) {
    && GoodPip(acc.pip) && GoodNpm(acc.npm)
    && acc.aptConstraints.Keys <= acc.apt
    && (forall k :: k in acc.aptConstraints ==> NoNewline(acc.aptConstraints[k]))
  }

  /** What consuming all parts adds up to, field by field. */
  ghost predicate Sums(before: Accum, parts: seq<Sourced>, after: Accum) {
    && Deps(after.pip) == Put(Deps(before.pip), Gather(PipE, parts))
    && Deps(after.npm) == Put(Deps(before.npm), Gather(NpmE, parts))
    && after.env == Put(before.env, Gather(EnvE, parts))
    && after.copies == Put(before.copies, Gather(CopyE, parts))
    && RoleMap(after.baseRole) == Put(RoleMap(before.baseRole), Gather(RoleE, parts))
    && CmdMap(after.entrypoint) == Put(CmdMap(before.entrypoint), Gather(CmdE, parts))
    && after.apt == before.apt + AptOf(parts)
    && after.aptConstraints.Keys == before.aptConstraints.Keys + PinnedOf(parts)
    && after.ports == before.ports + PortsOf(parts)
  }

  ghost predicate Adds(before: Accum, s: Sourced, after: Accum) {
    && Deps(after.pip) == Put(Deps(before.pip), PipE(s))
    && Deps(after.npm) == Put(Deps(before.npm), NpmE(s))
    && after.env == Put(before.env, EnvE(s))
    && after.copies == Put(before.copies, CopyE(s))
    && RoleMap(after.baseRole) == Put(RoleMap(before.baseRole), RoleE(s))
    && CmdMap(after.entrypoint) == Put(CmdMap(before.entrypoint), CmdE(s))
    && after.apt == before.apt + (set p | p in s.part.components.apt)
    && after.aptConstraints.Keys == before.aptConstraints.Keys + s.part.components.aptConstraints.Keys
    && after.ports == before.ports + (set p | p in s.part.ports)
  }

  ghost predicate EndsWith(after: Accum, c: Components) {
    after.pipMode == c.pipMode && after.wheelhousePath == c.wheelhousePath
    && after.npmMode == c.npmMode && after.aptMode == c.aptMode
  }

  lemma {:induction false} ValidPartFacts(p: Part)
    requires ValidPart(p)
    ensures forall d :: d in p.components.pip ==> ValidPip(d)
    ensures forall d :: d in p.components.npm ==> ValidNpm(d)
    ensures p.components.aptConstraints.Keys <= (set x | x in p.components.apt)
    ensures forall k :: k in p.components.aptConstraints ==> NoNewline(p.components.aptConstraints[k])
  {
  }

  lemma {:induction false} ConsumeSucceeds(lib: Pep440, acc: Accum, s: Sourced)
    requires GoodAccum(acc) && ValidPart(s.part)
    ensures Consume(lib, acc, s).Ok? <==> PipChain(lib, Deps(acc.pip), PipE(s)) && NpmChain(Deps(acc.npm), NpmE(s))
  {
    ValidPartFacts(s.part);
    MergePipOutcome(lib, acc.pip, s.part.components.pip, s.source);
    MergeNpmOutcome(acc.npm, s.part.components.npm, s.source);
  }

  lemma {:induction false} ConsumeKeepsGood(lib: Pep440, acc: Accum, s: Sourced)
    requires GoodAccum(acc) && ValidPart(s.part) && Consume(lib, acc, s).Ok?
    ensures GoodAccum(Consume(lib, acc, s).value)
  {
    var after := Consume(lib, acc, s).value;
    ValidPartFacts(s.part);
    assert after.apt == acc.apt + (set p | p in s.part.components.apt);
    assert after.aptConstraints == acc.aptConstraints + s.part.components.aptConstraints;
    MergePipOutcome(lib, acc.pip, s.part.components.pip, s.source);
    MergeNpmOutcome(acc.npm, s.part.components.npm, s.source);
  }

  lemma {:induction false} ConsumeOutcome(lib: Pep440, acc: Accum, s: Sourced)
    requires GoodAccum(acc) && ValidPart(s.part) && Consume(lib, acc, s).Ok?
    ensures GoodAccum(Consume(lib, acc, s).value) && Adds(acc, s, Consume(lib, acc, s).value)
    ensures EndsWith(Consume(lib, acc, s).value, s.part.components)
  {
    ConsumeKeepsGood(lib, acc, s);
    ConsumeAdds(lib, acc, s);
  }

  lemma {:induction false} ConsumeAdds(lib: Pep440, acc: Accum, s: Sourced)
    requires GoodPip(acc.pip) && GoodNpm(acc.npm) && ValidPart(s.part) && Consume(lib, acc, s).Ok?
    ensures Adds(acc, s, Consume(lib, acc, s).value)
  {
    var after := Consume(lib, acc, s).value;
    ValidPartFacts(s.part);
    MergePipOutcome(lib, acc.pip, s.part.components.pip, s.source);
    MergeNpmOutcome(acc.npm, s.part.components.npm, s.source);
    MergeEnvIsPut(acc.env, s.part.env);
    MergeCopiesIsPut(acc.copies, s.part.copyItems);
    RoleAdds(acc.baseRole, s);
    CmdAdds(acc.entrypoint, s);
  }

  lemma {:induction false} RoleAdds(role: string, s: Sourced)
    ensures RoleMap(if IsSet(s.part.components.baseRole) then s.part.components.baseRole.value else role)
         == Put(RoleMap(role), RoleE(s))
  {
  }

  lemma {:induction false} CmdAdds(cmd: Option<seq<string>>, s: Sourced)
    ensures CmdMap(OrElse(s.part.entrypoint, cmd)) == Put(CmdMap(cmd), CmdE(s))
  {
  }

  lemma {:induction false} SumsCons(a: Accum, b: Accum, parts: seq<Sourced>, c: Accum)
    requires parts != [] && Adds(a, parts[0], b) && Sums(b, parts[1..], c)
    ensures Sums(a, parts, c)
  {
    PutGather(Deps(a.pip), PipE, parts);
    PutGather(Deps(a.npm), NpmE, parts);
    PutGather(a.env, EnvE, parts);
    PutGather(a.copies, CopyE, parts);
    PutGather(RoleMap(a.baseRole), RoleE, parts);
    PutGather(CmdMap(a.entrypoint), CmdE, parts);
    SetsCons(parts);
  }

  lemma {:induction false} SetsCons(parts: seq<Sourced>)
    requires parts != []
    ensures AptOf(parts) == (set p | p in parts[0].part.components.apt) + AptOf(parts[1..])
    ensures PinnedOf(parts) == parts[0].part.components.aptConstraints.Keys + PinnedOf(parts[1..])
    ensures PortsOf(parts) == (set p | p in parts[0].part.ports) + PortsOf(parts[1..])
  {
    var s, rest := parts[0], parts[1..];
    assert parts == [s] + rest;
    assert forall x :: x in parts <==> x == s || x in rest;
    forall p: int ensures p in PortsOf(parts) <==> p in s.part.ports || p in PortsOf(rest) {
      if p in PortsOf(parts) {
        var x :| x in parts && p in x.part.ports;
      }
      if p in PortsOf(rest) {
        var x :| x in rest && p in x.part.ports;
        assert x in parts;
      }
      assert s in parts;
    }
  }

  lemma {:induction false} ConsumeAllUnfolds(lib: Pep440, acc: Accum, parts: seq<Sourced>)
    requires parts != []
    ensures Consume(lib, acc, parts[0]).Err? ==> ConsumeAll(lib, acc, parts).Err?
    ensures Consume(lib, acc, parts[0]).Ok? ==>
      ConsumeAll(lib, acc, parts) == ConsumeAll(lib, Consume(lib, acc, parts[0]).value, parts[1..])
  {
  }

  lemma {:induction false} ConsumeAllSucceeds(lib: Pep440, acc: Accum, parts: seq<Sourced>)
    requires GoodAccum(acc) && ValidParts(parts)
    ensures ConsumeAll(lib, acc, parts).Ok? <==>
      PipChain(lib, Deps(acc.pip), Gather(PipE, parts)) && NpmChain(Deps(acc.npm), Gather(NpmE, parts))
    decreases parts
  {
    if parts != [] {
      var s, rest := parts[0], parts[1..];
      assert parts == [s] + rest;
      ConsumeAllUnfolds(lib, acc, parts);
      ConsumeSucceeds(lib, acc, s);
      PipChainConcat(lib, Deps(acc.pip), PipE(s), Gather(PipE, rest));
      NpmChainConcat(Deps(acc.npm), NpmE(s), Gather(NpmE, rest));
      if Consume(lib, acc, s).Ok? {
        ConsumeOutcome(lib, acc, s);
        ConsumeAllSucceeds(lib, Consume(lib, acc, s).value, rest);
      }
    }
  }

  lemma {:induction false} ConsumeAllTotals(lib: Pep440, acc: Accum, parts: seq<Sourced>)
    requires GoodAccum(acc) && ValidParts(parts) && ConsumeAll(lib, acc, parts).Ok?
    ensures GoodAccum(ConsumeAll(lib, acc, parts).value) && Sums(acc, parts, ConsumeAll(lib, acc, parts).value)
    ensures parts != [] ==> EndsWith(ConsumeAll(lib, acc, parts).value, parts[|parts| - 1].part.components)
    decreases parts
  {
    if parts == [] {
      SumsEmpty(acc);
    } else {
      var s, rest := parts[0], parts[1..];
      ConsumeAllUnfolds(lib, acc, parts);
      var next := Consume(lib, acc, s).value;
      ConsumeOutcome(lib, acc, s);
      PartsBehind(parts);
      ConsumeAllTotals(lib, next, rest);
      SumsCons(acc, next, parts, ConsumeAll(lib, next, rest).value);
    }
  }

  lemma {:induction false} SumsEmpty(acc: Accum)
    ensures Sums(acc, [], acc)
  {
    assert AptOf([]) == {} && PinnedOf([]) == {} && PortsOf([]) == {};
  }

  lemma {:induction false} PartsBehind(parts: seq<Sourced>)
    requires ValidParts(parts) && parts != []
    ensures ValidPart(parts[0].part) && ValidParts(parts[1..])
    ensures parts[1..] != [] ==> parts[1..][|parts[1..]| - 1] == parts[|parts| - 1]
    ensures parts[1..] == [] ==> parts[0] == parts[|parts| - 1]
  {
    assert parts[0] in parts;
    assert forall s :: s in parts[1..] ==> s in parts;
  }

  lemma {:induction false} ConsumeAllOutcome(lib: Pep440, acc: Accum, parts: seq<Sourced>)
    requires GoodAccum(acc) && ValidParts(parts)
    ensures ConsumeAll(lib, acc, parts).Ok? <==>
      PipChain(lib, Deps(acc.pip), Gather(PipE, parts)) && NpmChain(Deps(acc.npm), Gather(NpmE, parts))
    ensures ConsumeAll(lib, acc, parts).Ok? ==>
      GoodAccum(ConsumeAll(lib, acc, parts).value) && Sums(acc, parts, ConsumeAll(lib, acc, parts).value)
      && (parts != [] ==> EndsWith(ConsumeAll(lib, acc, parts).value, parts[|parts| - 1].part.components))
  {
    ConsumeAllSucceeds(lib, acc, parts);
    if ConsumeAll(lib, acc, parts).Ok? {
      ConsumeAllTotals(lib, acc, parts);
    }
  }
}
