/** What else holds over all interleavings, and a run that marks the limit. */
module LifecycleTheorems {
  import opened Basics
  import opened Catalog
  import opened Locking
  import opened Lifecycle
  import Executor
  import ExecutorTheorems
  import Resolver
  import Hashing
  import Specs
  import Profiles

  // ----- inserts never collide -----

  /** Between looking and inserting, only the row found may stand in the way of the insert. */
  ghost predicate PathClear(st: State, f: InFlight) {
    match f.stage
    case Looked(previous) => forall id :: id in st.rows && st.rows[id].core.fingerprint == f.fingerprint ==> previous == Some(id)
    case Dropped => !FingerprintTaken(st.rows, f.fingerprint)
    case _ => true
  }

  ghost predicate AllClear(st: State) { forall b :: b in st.builds ==> PathClear(st, st.builds[b]) }

  lemma {:induction false} LookFindsAll(st: State, fp: string, id: string)
    requires Catalog.Valid(st.rows) && id in st.rows && st.rows[id].core.fingerprint == fp
    ensures IdByFingerprint(st.rows, fp) == Some(id)
  {
  }

  /** A build's fingerprint names its target, so another lock holder inserts under another fingerprint. */
  lemma {:induction false} OtherBuildsOtherFingerprints(w: World, st: State, b: BuildId, c: BuildId)
    requires WellFormed(w, st) && Locked(w, st) && b in st.builds && c in st.builds && b != c
    ensures st.builds[b].fingerprint != st.builds[c].fingerprint
  {
    assert BuildFits(w, st, st.builds[b]) && BuildFits(w, st, st.builds[c]);
  }

  /** A row that carries a waiting build's fingerprint was there before, under the same fingerprint. */
  lemma {:induction false} WaitingRowIsOld(w: World, st: State, a: Action, b: BuildId, id: string)
    requires WellFormed(w, st) && Locked(w, st) && Enabled(w, st, a) && b in st.builds && !(a.InsertRow? && a.b == b)
    requires id in After(w, st, a).rows && After(w, st, a).rows[id].core.fingerprint == st.builds[b].fingerprint
    ensures id in st.rows && st.rows[id].core.fingerprint == st.builds[b].fingerprint
  {
    RowsStayValid(w, st, a);
    if a.InsertRow? { OtherBuildsOtherFingerprints(w, st, b, a.b); }
    assert id in st.rows && id in st.targets;
    IdentityStays(w, st, a, id);
  }

  lemma {:induction false} WaitingBuild(w: World, st: State, a: Action, b: BuildId)
    requires Enabled(w, st, a) && b in After(w, st, a).builds
    requires After(w, st, a).builds[b].stage.Looked? || After(w, st, a).builds[b].stage.Dropped?
    ensures b in st.builds && After(w, st, a).builds[b].fingerprint == st.builds[b].fingerprint && !(a.InsertRow? && a.b == b)
    ensures After(w, st, a).builds[b].stage == st.builds[b].stage || a == Look(b) || a == Drop(b)
  {
  }

  /** What a waiting build looked up, or cleared away, covers every row of its fingerprint also after the next action. */
  lemma {:induction false} WaitingRowIsKnown(w: World, st: State, a: Action, b: BuildId, id: string)
    requires WellFormed(w, st) && Locked(w, st) && AllClear(st) && Enabled(w, st, a) && b in After(w, st, a).builds
    requires After(w, st, a).builds[b].stage.Looked? || After(w, st, a).builds[b].stage.Dropped?
    requires id in After(w, st, a).rows && After(w, st, a).rows[id].core.fingerprint == After(w, st, a).builds[b].fingerprint
    ensures After(w, st, a).builds[b].stage == Looked(Some(id))
  {
    WaitingBuild(w, st, a, b);
    WaitingRowIsOld(w, st, a, b, id);
    LookFindsAll(st, st.builds[b].fingerprint, id);
    assert PathClear(st, st.builds[b]);
  }

  lemma {:induction false} PathClearAfter(w: World, st: State, a: Action, b: BuildId)
    requires WellFormed(w, st) && Locked(w, st) && AllClear(st) && Enabled(w, st, a) && b in After(w, st, a).builds
    ensures PathClear(After(w, st, a), After(w, st, a).builds[b])
  {
    var rows, f := After(w, st, a).rows, After(w, st, a).builds[b];
    if f.stage.Looked? || f.stage.Dropped? {
      forall id | id in rows && rows[id].core.fingerprint == f.fingerprint ensures f.stage == Looked(Some(id)) {
        WaitingRowIsKnown(w, st, a, b, id);
      }
    }
  }

  lemma {:induction false} RunStaysClear(w: World, states: seq<State>, actions: seq<Action>, n: nat)
    requires Run(w, states, actions) && n < |states|
    ensures WellFormed(w, states[n]) && Locked(w, states[n]) && AllClear(states[n])
  {
    LocksHeld(w, states, actions, n);
    if n > 0 {
      RunStaysClear(w, states, actions, n - 1);
      RunStep(w, states, actions, n - 1);
      var st, a := states[n - 1], actions[n - 1];
      WellFormedAfter(w, st, a);
      forall b | b in After(w, st, a).builds ensures PathClear(After(w, st, a), After(w, st, a).builds[b]) {
        PathClearAfter(w, st, a, b);
      }
    }
  }

  /** A build that has cleared its way never finds its id, tag or fingerprint taken. */
  lemma {:induction false} InsertNeverCollides(w: World, states: seq<State>, actions: seq<Action>, n: nat, b: BuildId, r: Record)
    requires Run(w, states, actions) && n < |states| && b in states[n].builds && states[n].builds[b].stage.Dropped?
    requires r.core.id !in states[n].targets
    requires r.core.tag == states[n].builds[b].tag && r.core.fingerprint == states[n].builds[b].fingerprint
    ensures !Collides(states[n].rows, r)
  {
    RunStaysClear(w, states, actions, n);
    var st := states[n];
    assert PathClear(st, st.builds[b]) && BuildFits(w, st, st.builds[b]);
    forall id | id in st.rows ensures st.rows[id].core.tag != r.core.tag && id != r.core.id {
      assert RowFits(w, st.rows[id], st.targets[id]);
    }
  }

  /** A fingerprint determines the profile, stack and variants it was computed for. */
  lemma {:induction false} FingerprintDeterminesTarget(hash: Hashing.Hash, p: Profiles.Profile, a: Specs.Stack, x: Hashing.Inputs,
                                                       q: Profiles.Profile, b: Specs.Stack, y: Hashing.Inputs)
    requires Hashing.Injective(hash) && Hashing.Fingerprint(hash, p, a, x) == Hashing.Fingerprint(hash, q, b, y)
    ensures Target(p.id, a.id, Hashing.ShownVariants(x.variants)) == Target(q.id, b.id, Hashing.ShownVariants(y.variants))
  {
    Hashing.FingerprintsEqualIff(hash, p, a, x, q, b, y);
  }

  // ----- no build leaves its row building -----

  /** After its first final write, a build's row shows that write, unless it is stale or gone. */
  ghost predicate Settled(st: State, f: InFlight) {
    f.stage.Written? && f.stage.record.core.id in st.rows ==>
      var row, own := st.rows[f.stage.record.core.id].core, f.stage.record.core;
      && (own.status == Built || (own.status == Failed && own.errorDetail.Some?))
      && (row.status == Stale || (row.status == own.status && row.errorDetail == own.errorDetail))
  }

  /** Only its own build writes anything but stale to a row. */
  lemma {:induction false} RowStatusAfter(w: World, st: State, a: Action, id: string)
    requires Enabled(w, st, a) && id in st.targets && id in After(w, st, a).rows && !(a.Write? && a.record.core.id == id)
    ensures id in st.rows
    ensures var x, y := st.rows[id].core, After(w, st, a).rows[id].core;
      y.status == Stale || (y.status == x.status && y.errorDetail == x.errorDetail)
  {
  }

  lemma {:induction false} OwnWrite(w: World, st: State, a: Action)
    requires Enabled(w, st, a) && a.Write?
    ensures Settled(After(w, st, a), After(w, st, a).builds[a.b])
    ensures OwnId(st.builds[a.b]) == Some(a.record.core.id)
  {
  }

  lemma {:induction false} StillWritten(w: World, st: State, a: Action, b: BuildId)
    requires Enabled(w, st, a) && b in After(w, st, a).builds && After(w, st, a).builds[b].stage.Written? && !(a.Write? && a.b == b)
    ensures b in st.builds && After(w, st, a).builds[b] == st.builds[b]
  {
  }

  lemma {:induction false} SettledAfter(w: World, st: State, a: Action, b: BuildId)
    requires WellFormed(w, st) && Enabled(w, st, a) && b in After(w, st, a).builds
    requires forall c :: c in st.builds ==> Settled(st, st.builds[c])
    ensures Settled(After(w, st, a), After(w, st, a).builds[b])
  {
    var f := After(w, st, a).builds[b];
    if f.stage.Written? && f.stage.record.core.id in After(w, st, a).rows {
      if a.Write? { OwnWrite(w, st, a); }
      if !(a.Write? && a.b == b) {
        StillWritten(w, st, a, b);
        assert Settled(st, st.builds[b]) && BuildFits(w, st, st.builds[b]);
        assert OwnId(st.builds[b]) == Some(f.stage.record.core.id);
        RowStatusAfter(w, st, a, f.stage.record.core.id);
      }
    }
  }

  lemma {:induction false} RunSettles(w: World, states: seq<State>, actions: seq<Action>, n: nat)
    requires Run(w, states, actions) && n < |states|
    ensures forall b :: b in states[n].builds ==> Settled(states[n], states[n].builds[b])
  {
    if n > 0 {
      RunSettles(w, states, actions, n - 1);
      RunStaysClear(w, states, actions, n - 1);
      RunStep(w, states, actions, n - 1);
      forall b | b in states[n].builds ensures Settled(states[n], states[n].builds[b]) {
        SettledAfter(w, states[n - 1], actions[n - 1], b);
      }
    }
  }

  /**
   Whatever happens around it, a build that releases its lock after its insert leaves
   its row gone, stale, built, or failed with a reason; never building.
   */
  lemma {:induction false} ReleasedRowIsSettled(w: World, states: seq<State>, actions: seq<Action>, n: nat, b: BuildId, own: Record)
    requires Run(w, states, actions) && n < |actions| && actions[n] == Release(b)
    requires OwnId(states[n].builds[b]) == Some(own.core.id)
    ensures own.core.id in states[n + 1].rows ==>
      var row := states[n + 1].rows[own.core.id].core;
      row.status in {Stale, Built} || (row.status == Failed && row.errorDetail.Some?)
  {
    RunStep(w, states, actions, n);
    RunSettles(w, states, actions, n);
    assert Settled(states[n], states[n].builds[b]);
  }

  // ----- one build alone -----

  /** Marking, looking and dropping alone clear the catalog as the executor does. */
  lemma {:induction false} SoloClears(w: World, st: State, b: BuildId, plan: Resolver.Plan)
    requires b in st.builds && st.builds[b].stage.Holding? && st.builds[b].fingerprint == plan.fingerprint
    requires st.builds[b].target.profile == plan.profile && st.builds[b].target.stack == plan.stack
    ensures var s1 := After(w, st, Mark(b));
      Enabled(w, s1, Look(b)) && Enabled(w, After(w, s1, Look(b)), Drop(b))
      && var s3 := After(w, After(w, s1, Look(b)), Drop(b));
      s3.rows == Executor.Cleared(st.rows, plan) && s3.targets == st.targets && s3.builds == st.builds[b := st.builds[b].(stage := Dropped)]
  {
  }

  /** Undisturbed, these transactions leave the catalog exactly as the executor's specification says. */
  lemma {:induction false} SoloBuildIsExecutorBuild(w: World, st: State, b: BuildId, plan: Resolver.Plan, e: Executor.Effects, id: string, now: int)
    requires b in st.builds && st.builds[b].stage.Holding? && id != "" && id !in st.targets
    requires st.builds[b].target.profile == plan.profile && st.builds[b].target.stack == plan.stack
    requires st.builds[b].tag == plan.tag && st.builds[b].fingerprint == plan.fingerprint
    requires ExecutorTheorems.Inserts(st.rows, plan, e, id, now) && !ExecutorTheorems.PassesThrough(plan, e)
    ensures var s1 := After(w, st, Mark(b));
      Enabled(w, s1, Look(b)) && Enabled(w, After(w, s1, Look(b)), Drop(b))
      && var s3 := After(w, After(w, s1, Look(b)), Drop(b));
      var r := Executor.MakeRecord(plan, id, now).value;
      var final := Executor.Finish(plan, r, e).record;
      Enabled(w, s3, InsertRow(b, r)) && Enabled(w, After(w, s3, InsertRow(b, r)), Write(b, final))
      && After(w, After(w, s3, InsertRow(b, r)), Write(b, final)).rows == Executor.Build(st.rows, plan, e, id, now).rows
  {
    SoloClears(w, st, b, plan);
    ExecutorTheorems.MadeRecord(plan, id, now);
    ExecutorTheorems.EndingStatus(plan, Executor.MakeRecord(plan, id, now).value, e);
    ExecutorTheorems.FinishKeepsInputs(plan, Executor.MakeRecord(plan, id, now).value, e);
  }

  // ----- two variants at once -----

  lemma {:induction false} Extend(w: World, states: seq<State>, actions: seq<Action>, a: Action)
    requires Run(w, states, actions) && Enabled(w, states[|actions|], a)
    ensures Run(w, states + [After(w, states[|actions|], a)], actions + [a])
  {
    var longer, more := states + [After(w, states[|actions|], a)], actions + [a];
    forall i | 0 <= i < |more| ensures Enabled(w, longer[i], more[i]) && longer[i + 1] == After(w, longer[i], more[i]) {
      if i < |actions| { RunStep(w, states, actions, i); }
    }
  }

  ghost predicate Reaches(w: World, st: State) {
    exists states, actions :: Run(w, states, actions) && states[|actions|] == st
  }

  lemma {:induction false} ReachesNext(w: World, st: State, a: Action)
    requires Reaches(w, st) && Enabled(w, st, a)
    ensures Reaches(w, After(w, st, a))
  {
    var states, actions :| Run(w, states, actions) && states[|actions|] == st;
    Extend(w, states, actions, a);
    assert (states + [After(w, st, a)])[|actions + [a]|] == After(w, st, a);
  }

  lemma {:induction false} ReachesInitial(w: World)
    ensures Reaches(w, Initial)
  {
    var none: seq<Action> := [];
    assert Run(w, [Initial], none) && [Initial][|none|] == Initial;
  }

  /** A record that a build of `t` under this tag and fingerprint would insert. */
  predicate RecordFor(r: Record, t: Target, tag: string, fp: string) {
    && r.core.id != "" && r.core.status == Building && Variantless(r) && r.core.profile == t.profile && r.core.stack == t.stack
    && r.core.tag == tag && r.core.fingerprint == fp
  }

  lemma {:induction false} ReachMarked(w: World, st: State, b: BuildId, t: Target, tag: string, fp: string)
    requires Reaches(w, st) && Enabled(w, st, Acquire(b, t, tag, fp))
    ensures Reaches(w, State(MarkStale(st.rows, t.profile, t.stack, ""), st.targets, st.builds[b := InFlight(t, tag, fp, Marked)]))
  {
    var s1 := After(w, st, Acquire(b, t, tag, fp));
    ReachesNext(w, st, Acquire(b, t, tag, fp));
    ReachesNext(w, s1, Mark(b));
    var s2 := After(w, s1, Mark(b));
    assert s2.builds == st.builds[b := InFlight(t, tag, fp, Marked)];
  }

  lemma {:induction false} ReachDropped(w: World, st: State, b: BuildId)
    requires Reaches(w, st) && b in st.builds && st.builds[b].stage.Marked? && !FingerprintTaken(st.rows, st.builds[b].fingerprint)
    ensures Reaches(w, st.(builds := st.builds[b := st.builds[b].(stage := Dropped)]))
  {
    var s1 := After(w, st, Look(b));
    ReachesNext(w, st, Look(b));
    assert s1.builds[b].stage == Looked(None);
    ReachesNext(w, s1, Drop(b));
    assert After(w, s1, Drop(b)).builds == st.builds[b := st.builds[b].(stage := Dropped)];
  }

  lemma {:induction false} MarkedTakesNothing(rows: Rows, p: string, s: string, tag: string, fp: string)
    ensures TagTaken(MarkStale(rows, p, s, ""), tag) ==> TagTaken(rows, tag)
    ensures FingerprintTaken(MarkStale(rows, p, s, ""), fp) ==> FingerprintTaken(rows, fp)
  {
  }

  /** From any state a new build can get as far as its inserted row. */
  lemma {:induction false} ReachInsert(w: World, st: State, b: BuildId, t: Target, r: Record)
    requires Reaches(w, st) && RecordFor(r, t, r.core.tag, r.core.fingerprint) && r.core.id !in st.targets && r.core.id !in st.rows
    requires Enabled(w, st, Acquire(b, t, r.core.tag, r.core.fingerprint))
    requires !TagTaken(st.rows, r.core.tag) && !FingerprintTaken(st.rows, r.core.fingerprint)
    ensures Reaches(w, State(Insert(MarkStale(st.rows, t.profile, t.stack, ""), r), st.targets[r.core.id := t],
                             st.builds[b := InFlight(t, r.core.tag, r.core.fingerprint, Inserted(r))]))
  {
    var f := InFlight(t, r.core.tag, r.core.fingerprint, Marked);
    var marked := MarkStale(st.rows, t.profile, t.stack, "");
    MarkedTakesNothing(st.rows, t.profile, t.stack, r.core.tag, r.core.fingerprint);
    ReachMarked(w, st, b, t, r.core.tag, r.core.fingerprint);
    var s2 := State(marked, st.targets, st.builds[b := f]);
    ReachDropped(w, s2, b);
    var s4 := s2.(builds := s2.builds[b := f.(stage := Dropped)]);
    ReachesNext(w, s4, InsertRow(b, r));
    assert After(w, s4, InsertRow(b, r)).builds == st.builds[b := f.(stage := Inserted(r))];
  }

  function AsBuilt(r: Record): Record { r.(core := r.core.(status := Built)) }

  /** Two overlapping builds of one pair whose locks, tags and fingerprints differ. */
  ghost predicate Overlapping(w: World, s: Target, t: Target, x: Record, y: Record) {
    && ByPair(s) == ByPair(t) && w.lock(s) != w.lock(t)
    && RecordFor(x, s, x.core.tag, x.core.fingerprint) && RecordFor(y, t, y.core.tag, y.core.fingerprint)
    && x.core.id != y.core.id && x.core.tag != y.core.tag && x.core.fingerprint != y.core.fingerprint
    && w.owner(x.core.fingerprint) == s && w.fingerprintOf(x.core.tag) == x.core.fingerprint
    && w.owner(y.core.fingerprint) == t && w.fingerprintOf(y.core.tag) == y.core.fingerprint
  }

  function OneInserted(s: Target, x: Record): State {
    State(map[x.core.id := ToRow(x)], map[x.core.id := s], map[0 := InFlight(s, x.core.tag, x.core.fingerprint, Inserted(x))])
  }

  lemma {:induction false} ReachOne(w: World, s: Target, x: Record)
    requires RecordFor(x, s, x.core.tag, x.core.fingerprint)
    requires w.owner(x.core.fingerprint) == s && w.fingerprintOf(x.core.tag) == x.core.fingerprint
    ensures Reaches(w, OneInserted(s, x))
  {
    ReachesInitial(w);
    ReachInsert(w, Initial, 0, s, x);
    assert MarkStale(map[], s.profile, s.stack, "") == map[];
    assert map[][x.core.id := ToRow(x)] == map[x.core.id := ToRow(x)];
  }

  /** The second build has marked the first one's row stale and inserted its own. */
  function TwoInserted(s: Target, t: Target, x: Record, y: Record): State {
    State(map[x.core.id := Staled(ToRow(x), ""), y.core.id := ToRow(y)], map[x.core.id := s, y.core.id := t],
          map[0 := InFlight(s, x.core.tag, x.core.fingerprint, Inserted(x)), 1 := InFlight(t, y.core.tag, y.core.fingerprint, Inserted(y))])
  }

  lemma {:induction false} ReachTwo(w: World, s: Target, t: Target, x: Record, y: Record)
    requires Overlapping(w, s, t, x, y)
    ensures Reaches(w, TwoInserted(s, t, x, y))
  {
    ReachOne(w, s, x);
    var s1 := OneInserted(s, x);
    ReachInsert(w, s1, 1, t, y);
    assert Insert(MarkStale(s1.rows, t.profile, t.stack, ""), y) == TwoInserted(s, t, x, y).rows;
  }

  /** The first build's own write has made its row built again. */
  function FirstBuilt(s: Target, t: Target, x: Record, y: Record): State {
    State(map[x.core.id := ToRow(AsBuilt(x)), y.core.id := ToRow(y)], map[x.core.id := s, y.core.id := t],
          map[0 := InFlight(s, x.core.tag, x.core.fingerprint, Written(AsBuilt(x))), 1 := InFlight(t, y.core.tag, y.core.fingerprint, Inserted(y))])
  }

  lemma {:induction false} BuiltAgain(x: Record, y: Record)
    requires x.core.id != y.core.id
    ensures Update(map[x.core.id := Staled(ToRow(x), ""), y.core.id := ToRow(y)], AsBuilt(x))
      == map[x.core.id := ToRow(AsBuilt(x)), y.core.id := ToRow(y)]
  {
    assert Copied(Staled(ToRow(x), ""), AsBuilt(x)) == ToRow(AsBuilt(x));
  }

  lemma {:induction false} ReachFirstBuilt(w: World, s: Target, t: Target, x: Record, y: Record)
    requires Overlapping(w, s, t, x, y)
    ensures Reaches(w, FirstBuilt(s, t, x, y))
  {
    ReachTwo(w, s, t, x, y);
    var s2 := TwoInserted(s, t, x, y);
    ReachesNext(w, s2, Write(0, AsBuilt(x)));
    BuiltAgain(x, y);
    assert After(w, s2, Write(0, AsBuilt(x))).builds == FirstBuilt(s, t, x, y).builds;
  }

  function BothBuilt(s: Target, t: Target, x: Record, y: Record): State {
    State(map[x.core.id := ToRow(AsBuilt(x)), y.core.id := ToRow(AsBuilt(y))], map[x.core.id := s, y.core.id := t],
          map[0 := InFlight(s, x.core.tag, x.core.fingerprint, Written(AsBuilt(x))), 1 := InFlight(t, y.core.tag, y.core.fingerprint, Written(AsBuilt(y)))])
  }

  lemma {:induction false} ReachBothBuilt(w: World, s: Target, t: Target, x: Record, y: Record)
    requires Overlapping(w, s, t, x, y)
    ensures Reaches(w, BothBuilt(s, t, x, y))
  {
    ReachFirstBuilt(w, s, t, x, y);
    var s3 := FirstBuilt(s, t, x, y);
    ReachesNext(w, s3, Write(1, AsBuilt(y)));
    assert After(w, s3, Write(1, AsBuilt(y))).rows == BothBuilt(s, t, x, y).rows;
    assert After(w, s3, Write(1, AsBuilt(y))).builds == BothBuilt(s, t, x, y).builds;
  }

  /** Two builds whose locks let them overlap end with two active rows of one pair. */
  lemma {:induction false} TwoVariantsBothActive(w: World, s: Target, t: Target, x: Record, y: Record)
    requires Overlapping(w, s, t, x, y)
    ensures exists st :: Reaches(w, st) && !OneActive(ByPair, st)
  {
    ReachBothBuilt(w, s, t, x, y);
    var st := BothBuilt(s, t, x, y);
    assert Active(st, x.core.id) && Active(st, y.core.id);
    assert ActiveIn(ByPair, st, x.core.id, y.core.id);
  }

  // ----- commands from outside -----

  /** The commands that mark a pair stale or prune are possible in every state, and touch no row but those they name. */
  lemma {:induction false} OutsideCommands(w: World, st: State, profile: string, stack: string, id: string, status: Status, k: string)
    requires k in st.rows
    ensures Enabled(w, st, ManualStale(profile, stack)) && Enabled(w, st, PruneOne(id)) && Enabled(w, st, PruneAll(status))
    ensures var row, marked := st.rows[k], After(w, st, ManualStale(profile, stack)).rows;
      k in marked && marked[k] == if PendingRow(row, profile, stack) then row.(core := row.core.(status := Stale, staleReason := Some("manual"))) else row
    ensures var pruned := After(w, st, PruneOne(id)).rows;
      (k in pruned <==> id == "" || k != id) && (k in pruned ==> pruned[k] == st.rows[k])
    ensures var pruned := After(w, st, PruneAll(status)).rows;
      (k in pruned <==> st.rows[k].core.status != status) && (k in pruned ==> pruned[k] == st.rows[k])
  {
    MarkedRow(st.rows, profile, stack, "manual", k);
  }
}
