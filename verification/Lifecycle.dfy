/**
 All builds at once: rows in the catalog, builds in flight between their separate
 transactions, the lock each holds, and the commands that touch rows from outside.
 */
module Lifecycle {
  import opened Basics
  import opened Catalog
  import opened Locking

  type BuildId = nat

  /** Where a lock-holding build stands between its catalog transactions. */
  datatype Stage =
    | Holding                             // has the lock, nothing written
    | Marked                              // marked the pair's rows stale
    | Looked(previous: Option<string>)    // looked up the row of its fingerprint
    | Dropped                             // removed that row
    | Inserted(record: Record)            // inserted its own row as building
    | Written(record: Record)             // wrote a final status at least once

  datatype InFlight = InFlight(target: Target, tag: string, fingerprint: string, stage: Stage)

  /** `targets` remembers what every row was ever built for; rows themselves never store the variant. */
  datatype State = State(rows: Rows, targets: map<string, Target>, builds: map<BuildId, InFlight>)

  const Initial := State(map[], map[], map[])

  /**
   The lock of a target, the target a fingerprint was computed for, and the fingerprint
   behind a tag, which carries its first twelve characters.
   */
  datatype World = World(lock: Target -> string, owner: string -> Target, fingerprintOf: string -> string)

  /**
   One transaction each. A build leaves by Release, or by Crash at any point: the process
   dies or the builder raises an exception that is passed through, and the lock is freed.
   */
  datatype Action =
    | Acquire(b: BuildId, target: Target, tag: string, fingerprint: string)
    | AgeDrifted(b: BuildId, record: Record)
    | Mark(b: BuildId)
    | Look(b: BuildId)
    | Drop(b: BuildId)
    | InsertRow(b: BuildId, record: Record)
    | Write(b: BuildId, record: Record)
    | Release(b: BuildId)
    | Crash(b: BuildId)
    | ManualStale(profile: string, stack: string)
    | FixStale(record: Record)
    | PruneOne(id: string)
    | PruneAll(status: Status)

  /** A row written as stale from a record read at any earlier time. */
  function AsStale(r: Record): Record { r.(core := r.core.(status := Stale)) }

  /** No writer fills in the variant column: records are made without one and otherwise read from rows. */
  predicate Variantless(r: Record) { r.core.variantJson == None }

  predicate OwnRecord(st: State, b: BuildId, r: Record)
    requires b in st.builds
  {
    match st.builds[b].stage
    case Inserted(own) => r.core.id == own.core.id
    case Written(own) => r.core.id == own.core.id
    case _ => false
  }

  ghost predicate Enabled(w: World, st: State, a: Action) {
    match a
    case Acquire(b, target, tag, fp) =>
      && b !in st.builds && w.owner(fp) == target && w.fingerprintOf(tag) == fp
      && forall c :: c in st.builds ==> w.lock(st.builds[c].target) != w.lock(target)
    case AgeDrifted(b, r) => b in st.builds && st.builds[b].stage.Holding? && Variantless(r)
    case Mark(b) => b in st.builds && st.builds[b].stage.Holding?
    case Look(b) => b in st.builds && st.builds[b].stage.Marked?
    case Drop(b) => b in st.builds && st.builds[b].stage.Looked?
    case InsertRow(b, r) =>
      && b in st.builds && st.builds[b].stage.Dropped? && r.core.id != "" && r.core.id !in st.targets && r.core.status == Building && Variantless(r)
      && r.core.profile == st.builds[b].target.profile && r.core.stack == st.builds[b].target.stack
      && r.core.tag == st.builds[b].tag && r.core.fingerprint == st.builds[b].fingerprint
      && !Collides(st.rows, r)
    case Write(b, r) =>
      b in st.builds && OwnRecord(st, b, r) && Variantless(r) && (r.core.status == Built || (r.core.status == Failed && r.core.errorDetail.Some?))
    case Release(b) => b in st.builds && !st.builds[b].stage.Inserted?
    case Crash(b) => b in st.builds
    case ManualStale(_, _) => true
    case FixStale(r) => Variantless(r)
    case PruneOne(_) => true
    case PruneAll(_) => true
  }

  function AtStage(st: State, b: BuildId, stage: Stage): map<BuildId, InFlight>
    requires b in st.builds
  {
    st.builds[b := st.builds[b].(stage := stage)]
  }

  ghost function After(w: World, st: State, a: Action): State
    requires Enabled(w, st, a)
  {
    match a
    case Acquire(b, target, tag, fp) => st.(builds := st.builds[b := InFlight(target, tag, fp, Holding)])
    case AgeDrifted(b, r) => st.(rows := Update(st.rows, AsStale(r)))
    case Mark(b) =>
      st.(rows := MarkStale(st.rows, st.builds[b].target.profile, st.builds[b].target.stack, ""), builds := AtStage(st, b, Marked))
    case Look(b) => st.(builds := AtStage(st, b, Looked(IdByFingerprint(st.rows, st.builds[b].fingerprint))))
    case Drop(b) =>
      var previous := st.builds[b].stage.previous;
      st.(rows := if previous.Some? then Prune(st.rows, previous.value) else st.rows, builds := AtStage(st, b, Dropped))
    case InsertRow(b, r) =>
      State(Insert(st.rows, r), st.targets[r.core.id := st.builds[b].target], AtStage(st, b, Inserted(r)))
    case Write(b, r) => st.(rows := Update(st.rows, r), builds := AtStage(st, b, Written(r)))
    case Release(b) => st.(builds := st.builds - {b})
    case Crash(b) => st.(builds := st.builds - {b})
    case ManualStale(profile, stack) => st.(rows := MarkStale(st.rows, profile, stack, "manual"))
    case FixStale(r) => st.(rows := Update(st.rows, AsStale(r)))
    case PruneOne(id) => st.(rows := Prune(st.rows, id))
    case PruneAll(status) => st.(rows := PruneByStatus(st.rows, status))
  }

  ghost predicate Run(w: World, states: seq<State>, actions: seq<Action>) {
    && |states| == |actions| + 1 && states[0] == Initial
    && forall i :: 0 <= i < |actions| ==> Enabled(w, states[i], actions[i]) && states[i + 1] == After(w, states[i], actions[i])
  }

  // ----- what is kept -----

  predicate Active(st: State, id: string) { id in st.rows && st.rows[id].core.status in {Building, Built} }

  /** Builds in flight never share a group. */
  ghost predicate Apart<G>(group: Target -> G, st: State) {
    forall b, c :: b in st.builds && c in st.builds && b != c ==> group(st.builds[b].target) != group(st.builds[c].target)
  }

  /** Targets of one group have one profile and stack, the reach of marking stale. */
  ghost predicate WithinPair<G>(group: Target -> G) {
    forall s, t :: group(s) == group(t) ==> s.profile == t.profile && s.stack == t.stack
  }

  predicate ActiveIn<G(==)>(group: Target -> G, st: State, i: string, j: string) {
    Active(st, i) && Active(st, j) && i in st.targets && j in st.targets && group(st.targets[i]) == group(st.targets[j])
  }

  /** At most one row per group is building or built. */
  ghost predicate OneActive<G>(group: Target -> G, st: State) {
    forall i, j :: ActiveIn(group, st, i, j) ==> i == j
  }

  ghost predicate WellFormed(w: World, st: State) {
    && Catalog.Valid(st.rows) && "" !in st.rows
    && (forall id :: id in st.rows ==> id in st.targets && RowFits(w, st.rows[id], st.targets[id]))
    && (forall b :: b in st.builds ==> BuildFits(w, st, st.builds[b]))
    && (forall b, c :: b in st.builds && c in st.builds && b != c ==> OwnId(st.builds[b]) == None || OwnId(st.builds[b]) != OwnId(st.builds[c]))
  }

  predicate RowFits(w: World, row: Row, target: Target) {
    && row.core.profile == target.profile && row.core.stack == target.stack
    && w.owner(row.core.fingerprint) == target && w.fingerprintOf(row.core.tag) == row.core.fingerprint
    && row.core.variantJson == None
  }

  function OwnId(f: InFlight): Option<string> {
    match f.stage
    case Inserted(r) => Some(r.core.id)
    case Written(r) => Some(r.core.id)
    case _ => None
  }

  predicate BuildFits(w: World, st: State, f: InFlight) {
    && w.owner(f.fingerprint) == f.target && w.fingerprintOf(f.tag) == f.fingerprint
    && (OwnId(f).Some? ==> OwnId(f).value in st.targets && st.targets[OwnId(f).value] == f.target)
  }

  /** From marking on, a build tolerates no active row of its group but its own. */
  ghost predicate Cleared<G>(group: Target -> G, st: State, f: InFlight) {
    !f.stage.Holding? ==>
      forall id :: Active(st, id) && id in st.targets && group(st.targets[id]) == group(f.target) ==> OwnId(f) == Some(id)
  }

  ghost predicate Invariant<G>(w: World, group: Target -> G, st: State) {
    && WellFormed(w, st) && OneActive(group, st)
    && forall b :: b in st.builds ==> Cleared(group, st, st.builds[b])
  }

  // ----- every step keeps it -----

  lemma {:induction false} TargetsGrow(w: World, st: State, a: Action)
    requires Enabled(w, st, a)
    ensures forall id :: id in st.targets ==> id in After(w, st, a).targets && After(w, st, a).targets[id] == st.targets[id]
  {
  }

  /** Only an insert or a final write can make a row active. */
  lemma {:induction false} ActiveAfter(w: World, st: State, a: Action, id: string)
    requires Enabled(w, st, a) && Active(After(w, st, a), id)
    ensures Active(st, id) || (a.InsertRow? && id == a.record.core.id) || (a.Write? && id == a.record.core.id && id in st.rows)
  {
  }

  lemma {:induction false} RowsStayValid(w: World, st: State, a: Action)
    requires WellFormed(w, st) && Enabled(w, st, a)
    ensures Catalog.Valid(After(w, st, a).rows) && "" !in After(w, st, a).rows
    ensures forall id :: id in After(w, st, a).rows ==> id in st.rows || (a.InsertRow? && id == a.record.core.id)
  {
    match a
    case InsertRow(_, r) => InsertKeepsValid(st.rows, r);
    case AgeDrifted(_, r) => UpdateKeepsValid(st.rows, AsStale(r));
    case FixStale(r) => UpdateKeepsValid(st.rows, AsStale(r));
    case Write(_, r) => UpdateKeepsValid(st.rows, r);
    case Mark(b) => MarkKeepsValid(st.rows, st.builds[b].target.profile, st.builds[b].target.stack, "");
    case ManualStale(p, s) => MarkKeepsValid(st.rows, p, s, "manual");
    case Drop(b) => PruneKeepsValid(st.rows, st.builds[b].stage.previous.GetOr(""), Built);
    case PruneOne(id) => PruneKeepsValid(st.rows, id, Built);
    case PruneAll(status) => PruneKeepsValid(st.rows, "", status);
    case _ =>
  }

  /** Identity columns never change, and the variant column stays empty. */
  lemma {:induction false} IdentityStays(w: World, st: State, a: Action, id: string)
    requires Enabled(w, st, a) && id in st.rows && id in After(w, st, a).rows && !(a.InsertRow? && id == a.record.core.id)
    ensures var x, y := st.rows[id].core, After(w, st, a).rows[id].core;
      x.profile == y.profile && x.stack == y.stack && x.tag == y.tag && x.fingerprint == y.fingerprint
      && (x.variantJson == None ==> y.variantJson == None)
  {
  }

  lemma {:induction false} RowsStayFitting(w: World, st: State, a: Action, id: string)
    requires WellFormed(w, st) && Enabled(w, st, a) && id in After(w, st, a).rows
    ensures id in After(w, st, a).targets && RowFits(w, After(w, st, a).rows[id], After(w, st, a).targets[id])
  {
    RowsStayValid(w, st, a);
    TargetsGrow(w, st, a);
    if a.InsertRow? && id == a.record.core.id {
      assert BuildFits(w, st, st.builds[a.b]);
    } else {
      IdentityStays(w, st, a, id);
    }
  }

  lemma {:induction false} BuildsStayFitting(w: World, st: State, a: Action, b: BuildId)
    requires WellFormed(w, st) && Enabled(w, st, a) && b in After(w, st, a).builds
    ensures BuildFits(w, After(w, st, a), After(w, st, a).builds[b])
  {
    TargetsGrow(w, st, a);
    if b in st.builds {
      assert BuildFits(w, st, st.builds[b]);
    }
  }

  /** A build owns a row only from its insert on, and that row's id is new. */
  lemma {:induction false} OwnIdAfter(w: World, st: State, a: Action, b: BuildId)
    requires Enabled(w, st, a) && b in After(w, st, a).builds
    ensures var now := OwnId(After(w, st, a).builds[b]);
      if a.InsertRow? && a.b == b then now == Some(a.record.core.id)
      else now == if b in st.builds then OwnId(st.builds[b]) else None
  {
  }

  lemma {:induction false} OwnIdsStayApart(w: World, st: State, a: Action, b: BuildId, c: BuildId)
    requires WellFormed(w, st) && Enabled(w, st, a) && b in After(w, st, a).builds && c in After(w, st, a).builds && b != c
    ensures OwnId(After(w, st, a).builds[b]) == None || OwnId(After(w, st, a).builds[b]) != OwnId(After(w, st, a).builds[c])
  {
    OwnIdAfter(w, st, a, b);
    OwnIdAfter(w, st, a, c);
    if b in st.builds { assert BuildFits(w, st, st.builds[b]); }
    if c in st.builds { assert BuildFits(w, st, st.builds[c]); }
  }

  lemma {:induction false} WellFormedAfter(w: World, st: State, a: Action)
    requires WellFormed(w, st) && Enabled(w, st, a)
    ensures WellFormed(w, After(w, st, a))
  {
    RowsStayValid(w, st, a);
    forall id | id in After(w, st, a).rows ensures id in After(w, st, a).targets && RowFits(w, After(w, st, a).rows[id], After(w, st, a).targets[id]) {
      RowsStayFitting(w, st, a, id);
    }
    forall b | b in After(w, st, a).builds ensures BuildFits(w, After(w, st, a), After(w, st, a).builds[b]) {
      BuildsStayFitting(w, st, a, b);
    }
    forall b, c | b in After(w, st, a).builds && c in After(w, st, a).builds && b != c
      ensures OwnId(After(w, st, a).builds[b]) == None || OwnId(After(w, st, a).builds[b]) != OwnId(After(w, st, a).builds[c])
    {
      OwnIdsStayApart(w, st, a, b, c);
    }
  }

  /** The build that can make `id` active by this action, if it is not active already. */
  lemma {:induction false} Activator(w: World, st: State, a: Action, id: string)
    requires WellFormed(w, st) && Enabled(w, st, a) && Active(After(w, st, a), id) && !Active(st, id)
    ensures (a.InsertRow? || a.Write?) && a.b in st.builds && id == a.record.core.id
    ensures id in After(w, st, a).targets && After(w, st, a).targets[id] == st.builds[a.b].target
    ensures !st.builds[a.b].stage.Holding? && (OwnId(st.builds[a.b]) == None || OwnId(st.builds[a.b]) == Some(id))
    ensures OwnId(After(w, st, a).builds[a.b]) == Some(id)
  {
    ActiveAfter(w, st, a, id);
    assert BuildFits(w, st, st.builds[a.b]);
  }

  /** Marking leaves no active row of the pair. */
  lemma {:induction false} MarkClears(w: World, st: State, b: BuildId, id: string)
    requires WellFormed(w, st) && Enabled(w, st, Mark(b)) && Active(After(w, st, Mark(b)), id) && id in st.targets
    ensures st.targets[id].profile != st.builds[b].target.profile || st.targets[id].stack != st.builds[b].target.stack
  {
    assert RowFits(w, st.rows[id], st.targets[id]);
  }

  /** A row that was active before bothers a build no more than before; marking leaves none of the group. */
  lemma {:induction false} StillActive<G>(w: World, group: Target -> G, st: State, a: Action, c: BuildId, id: string)
    requires Invariant(w, group, st) && Enabled(w, st, a) && WithinPair(group)
    requires c in After(w, st, a).builds && !After(w, st, a).builds[c].stage.Holding?
    requires Active(st, id) && Active(After(w, st, a), id)
    requires group(st.targets[id]) == group(After(w, st, a).builds[c].target)
    ensures c in st.builds && !st.builds[c].stage.Holding? && OwnId(st.builds[c]) == Some(id)
  {
    if a == Mark(c) {
      MarkClears(w, st, c, id);
    } else {
      assert Cleared(group, st, st.builds[c]);
    }
  }

  /** A row that became active belongs to the acting build, and no other build shares its group. */
  lemma {:induction false} NewlyActive<G>(w: World, group: Target -> G, st: State, a: Action, c: BuildId, id: string)
    requires Invariant(w, group, st) && Enabled(w, st, a) && Apart(group, After(w, st, a))
    requires c in After(w, st, a).builds && Active(After(w, st, a), id) && !Active(st, id) && id in After(w, st, a).targets
    requires group(After(w, st, a).targets[id]) == group(After(w, st, a).builds[c].target)
    ensures OwnId(After(w, st, a).builds[c]) == Some(id)
  {
    Activator(w, st, a, id);
    assert a.b in After(w, st, a).builds && After(w, st, a).builds[a.b].target == st.builds[a.b].target;
  }

  lemma {:induction false} ClearedAfter<G>(w: World, group: Target -> G, st: State, a: Action, c: BuildId)
    requires Invariant(w, group, st) && Enabled(w, st, a) && WithinPair(group) && Apart(group, After(w, st, a))
    requires c in After(w, st, a).builds
    ensures Cleared(group, After(w, st, a), After(w, st, a).builds[c])
  {
    var st' := After(w, st, a);
    TargetsGrow(w, st, a);
    OwnIdAfter(w, st, a, c);
    if !st'.builds[c].stage.Holding? {
      forall id | Active(st', id) && id in st'.targets && group(st'.targets[id]) == group(st'.builds[c].target)
        ensures OwnId(st'.builds[c]) == Some(id)
      {
        if Active(st, id) {
          assert id in st.targets;
          StillActive(w, group, st, a, c, id);
        } else {
          NewlyActive(w, group, st, a, c, id);
        }
      }
    }
  }

  lemma {:induction false} OneActiveAfter<G>(w: World, group: Target -> G, st: State, a: Action)
    requires Invariant(w, group, st) && Enabled(w, st, a)
    ensures OneActive(group, After(w, st, a))
  {
    var st' := After(w, st, a);
    TargetsGrow(w, st, a);
    forall i, j | ActiveIn(group, st', i, j) ensures i == j {
      if !Active(st, i) { NewlyActiveIsAlone(w, group, st, a, i, j); }
      else if !Active(st, j) { NewlyActiveIsAlone(w, group, st, a, j, i); }
      else {
        assert i in st.targets && j in st.targets;
        assert ActiveIn(group, st, i, j);
      }
    }
  }

  lemma {:induction false} NewlyActiveIsAlone<G>(w: World, group: Target -> G, st: State, a: Action, i: string, j: string)
    requires Invariant(w, group, st) && Enabled(w, st, a) && ActiveIn(group, After(w, st, a), i, j) && !Active(st, i)
    ensures i == j
  {
    TargetsGrow(w, st, a);
    Activator(w, st, a, i);
    if !Active(st, j) {
      Activator(w, st, a, j);
    } else {
      assert j in st.targets;
      assert Cleared(group, st, st.builds[a.b]);
    }
  }

  lemma {:induction false} InvariantAfter<G>(w: World, group: Target -> G, st: State, a: Action)
    requires Invariant(w, group, st) && Enabled(w, st, a) && WithinPair(group) && Apart(group, After(w, st, a))
    ensures Invariant(w, group, After(w, st, a))
  {
    WellFormedAfter(w, st, a);
    OneActiveAfter(w, group, st, a);
    forall c | c in After(w, st, a).builds ensures Cleared(group, After(w, st, a), After(w, st, a).builds[c]) {
      ClearedAfter(w, group, st, a, c);
    }
  }

  // ----- over whole runs -----

  lemma {:induction false} RunKeepsInvariant<G>(w: World, group: Target -> G, states: seq<State>, actions: seq<Action>, n: nat)
    requires Run(w, states, actions) && n < |states| && WithinPair(group)
    requires forall i :: 0 <= i < |states| ==> Apart(group, states[i])
    ensures Invariant(w, group, states[n])
  {
    if n == 0 {
      InitialInvariant(w, group);
    } else {
      RunKeepsInvariant(w, group, states, actions, n - 1);
      var last, step := states[n - 1], actions[n - 1];
      RunStep(w, states, actions, n - 1);
      assert Apart(group, states[n]);
      InvariantAfter(w, group, last, step);
    }
  }

  lemma {:induction false} RunStep(w: World, states: seq<State>, actions: seq<Action>, i: nat)
    requires Run(w, states, actions) && i < |actions|
    ensures Enabled(w, states[i], actions[i]) && states[i + 1] == After(w, states[i], actions[i])
  {
  }

  lemma {:induction false} InitialInvariant<G>(w: World, group: Target -> G)
    ensures Invariant(w, group, Initial)
  {
  }

  /** The lock keeps targets apart. */
  ghost predicate Locked(w: World, st: State) {
    forall b, c :: b in st.builds && c in st.builds && b != c ==> w.lock(st.builds[b].target) != w.lock(st.builds[c].target)
  }

  lemma {:induction false} LocksHeld(w: World, states: seq<State>, actions: seq<Action>, n: nat)
    requires Run(w, states, actions) && n < |states|
    ensures Locked(w, states[n])
  {
    if n > 0 {
      LocksHeld(w, states, actions, n - 1);
      LockedAfter(w, states[n - 1], actions[n - 1]);
    }
  }

  lemma {:induction false} LockedAfter(w: World, st: State, a: Action)
    requires Locked(w, st) && Enabled(w, st, a)
    ensures Locked(w, After(w, st, a))
  {
  }

  function ByTarget(t: Target): Target { t }
  function ByPair(t: Target): (string, string) { (t.profile, t.stack) }

  /**
   Over every interleaving of builds, prunes and manual changes, at most one row per
   profile, stack and variant is building or built.
   */
  lemma {:induction false} OneActivePerVariant(w: World, states: seq<State>, actions: seq<Action>, n: nat)
    requires Run(w, states, actions) && n < |states|
    ensures OneActive(ByTarget, states[n])
  {
    forall i | 0 <= i < |states| ensures Apart(ByTarget, states[i]) {
      LocksHeld(w, states, actions, i);
      assert Locked(w, states[i]);
    }
    RunKeepsInvariant(w, ByTarget, states, actions, n);
  }

  /** Where builds of one profile and stack never overlap, even one row per profile and stack. */
  lemma {:induction false} OneActivePerPairWithoutOverlap(w: World, states: seq<State>, actions: seq<Action>, n: nat)
    requires Run(w, states, actions) && n < |states|
    requires forall i :: 0 <= i < |states| ==> Apart(ByPair, states[i])
    ensures OneActive(ByPair, states[n])
  {
    RunKeepsInvariant(w, ByPair, states, actions, n);
  }
}
