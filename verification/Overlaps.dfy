/** Exactly when two builds of one profile and stack can overlap, and what that means for pruning. */
module Overlaps {
  import opened Basics
  import opened Catalog
  import opened Locking
  import opened Lifecycle
  import opened LifecycleTheorems

  // ----- one active row per pair -----

  /** Some tag leads to a fingerprint computed for this target, so a build of it can start. */
  ghost predicate Named(w: World, t: Target) { exists tag :: w.owner(w.fingerprintOf(tag)) == t }

  /** Targets of one profile and stack share their lock. */
  ghost predicate LocksCover(w: World) {
    forall s, t :: Named(w, s) && Named(w, t) && ByPair(s) == ByPair(t) ==> w.lock(s) == w.lock(t)
  }

  lemma {:induction false} CoveringLocksKeepApart(w: World, st: State)
    requires WellFormed(w, st) && Locked(w, st) && LocksCover(w)
    ensures Apart(ByPair, st)
  {
    forall b | b in st.builds ensures Named(w, st.builds[b].target) {
      assert BuildFits(w, st, st.builds[b]);
      assert w.owner(w.fingerprintOf(st.builds[b].tag)) == st.builds[b].target;
    }
  }

  lemma {:induction false} CoveredRun(w: World, st: State)
    requires Reaches(w, st) && LocksCover(w)
    ensures OneActive(ByPair, st)
  {
    var states, actions :| Run(w, states, actions) && states[|actions|] == st;
    forall i | 0 <= i < |states| ensures Apart(ByPair, states[i]) {
      RunStaysClear(w, states, actions, i);
      CoveringLocksKeepApart(w, states[i]);
    }
    OneActivePerPairWithoutOverlap(w, states, actions, |actions|);
  }

  /** A fresh record of a build of `t`. */
  function FreshRecord(id: string, t: Target, tag: string, fp: string, now: int): Record {
    Record(Core(id, t.profile, t.stack, tag, fp, None, None, "", None, "overlay", None, None, None, None, None, None, None,
                Building, None, None, now), Schemas(1, 1, 1))
  }

  lemma {:induction false} UncoveredOverlap(w: World) returns (s: Target, t: Target, x: Record, y: Record)
    requires !LocksCover(w)
    ensures Overlapping(w, s, t, x, y) && x.core.createdAt < y.core.createdAt
  {
    s, t :| Named(w, s) && Named(w, t) && ByPair(s) == ByPair(t) && w.lock(s) != w.lock(t);
    var a :| w.owner(w.fingerprintOf(a)) == s;
    var b :| w.owner(w.fingerprintOf(b)) == t;
    x, y := FreshRecord("first", s, a, w.fingerprintOf(a), 0), FreshRecord("second", t, b, w.fingerprintOf(b), 1);
    assert "first" != "second" by { assert |"first"| != |"second"|; }
  }

  /**
   At most one row per profile and stack is ever active if and only if any two targets
   of a pair that can be built share their lock.
   */
  lemma {:induction false} OneActivePerPairIff(w: World)
    ensures (forall st :: Reaches(w, st) ==> OneActive(ByPair, st)) <==> LocksCover(w)
  {
    if LocksCover(w) {
      forall st | Reaches(w, st) ensures OneActive(ByPair, st) {
        CoveredRun(w, st);
      }
    } else {
      var s, t, x, y := UncoveredOverlap(w);
      TwoVariantsBothActive(w, s, t, x, y);
    }
  }

  // ----- with the real lock names -----

  ghost predicate UsesLockNames(w: World, short: ShortHash) { forall t :: w.lock(t) == LockName(short, t) }

  lemma {:induction false} NamedLocksCoverIff(w: World, short: ShortHash)
    requires UsesLockNames(w, short)
    ensures LocksCover(w) <==> forall s, t :: Named(w, s) && Named(w, t) && ByPair(s) == ByPair(t) ==>
      Sanitize(VariantHash(short, s.variants)) == Sanitize(VariantHash(short, t.variants))
  {
    forall s: Target, t: Target | ByPair(s) == ByPair(t)
      ensures w.lock(s) == w.lock(t) <==> Sanitize(VariantHash(short, s.variants)) == Sanitize(VariantHash(short, t.variants))
    {
      SamePairLocks(short, s, t);
    }
  }

  /**
   Under the real lock names, with hashes that tell variants apart, at most one row per
   profile and stack is ever active if and only if no pair has two buildable variant choices.
   */
  lemma {:induction false} OneActivePerPairIffOneVariant(w: World, short: ShortHash)
    requires UsesLockNames(w, short) && Separates(short)
    ensures (forall st :: Reaches(w, st) ==> OneActive(ByPair, st)) <==>
      forall s, t :: Named(w, s) && Named(w, t) && ByPair(s) == ByPair(t) ==> s.variants == t.variants
  {
    OneActivePerPairIff(w);
    NamedLocksCoverIff(w, short);
    forall s: Target, t: Target | Sanitize(VariantHash(short, s.variants)) == Sanitize(VariantHash(short, t.variants))
      ensures s.variants == t.variants
    {
      SeparateVariants(short, s.variants, t.variants);
    }
  }

  // ----- what pruning protects -----

  function TargetOf(st: State, row: Row): Option<Target> {
    if row.core.id in st.targets then Some(st.targets[row.core.id]) else None
  }

  function ByVariant(st: State): Row -> Option<Target> { (row: Row) => TargetOf(st, row) }

  /** As documented: exactly the newest built row of every profile, stack and variant is protected. */
  ghost predicate ProtectsEachVariant(st: State, built: seq<Row>) {
    forall row :: IsBuilt(st.rows, row) ==>
      (IsProtected(st.rows, built, row) <==> IsNewest(st.rows, ByVariant(st), row))
  }

  /** No profile and stack has built rows of two variants. */
  ghost predicate OneVariantBuilt(st: State) {
    forall a, b :: IsBuilt(st.rows, a) && IsBuilt(st.rows, b) && KeyOf(a) == KeyOf(b) ==> TargetOf(st, a) == TargetOf(st, b)
  }

  /** Rows of one target share their key, as no row stores its variant. */
  lemma {:induction false} TargetGivesKey(w: World, st: State, a: Row, b: Row)
    requires WellFormed(w, st) && IsBuilt(st.rows, a) && IsBuilt(st.rows, b) && TargetOf(st, a) == TargetOf(st, b)
    ensures KeyOf(a) == KeyOf(b)
  {
    assert RowFits(w, st.rows[a.core.id], st.targets[a.core.id]);
    assert RowFits(w, st.rows[b.core.id], st.targets[b.core.id]);
  }

  lemma {:induction false} SameGroupsSameNewest(w: World, st: State, row: Row)
    requires WellFormed(w, st) && OneVariantBuilt(st) && IsBuilt(st.rows, row)
    ensures IsNewest(st.rows, KeyOf, row) <==> IsNewest(st.rows, ByVariant(st), row)
  {
    forall other | IsBuilt(st.rows, other) ensures KeyOf(other) == KeyOf(row) <==> TargetOf(st, other) == TargetOf(st, row) {
      if TargetOf(st, other) == TargetOf(st, row) { TargetGivesKey(w, st, other, row); }
    }
  }

  /** Among built rows of one key but two targets, some newest row of its target is not protected. */
  lemma {:induction false} UnprotectedNewest(w: World, st: State, built: seq<Row>, a: Row, b: Row) returns (row: Row)
    requires WellFormed(w, st) && NewestFirst(st.rows, built) && Timestamped(st.rows)
    requires IsBuilt(st.rows, a) && IsBuilt(st.rows, b) && KeyOf(a) == KeyOf(b) && TargetOf(st, a) != TargetOf(st, b)
    ensures IsNewest(st.rows, ByVariant(st), row) && row in Unprotected(built, ProtectedIds(built))
  {
    var byTarget := ByVariant(st);
    var x := NewestExists(st.rows, built, byTarget, a);
    var y := NewestExists(st.rows, built, byTarget, b);
    TargetGivesKey(w, st, x, a);
    TargetGivesKey(w, st, y, b);
    ProtectedIffNewest(st.rows, built, x);
    ProtectedIffNewest(st.rows, built, y);
    UnusedOrProtected(st.rows, built, x);
    UnusedOrProtected(st.rows, built, y);
    row := if Newer(x, y) then y else x;
  }

  /** Per-variant protection holds exactly where no profile and stack has built rows of two variants. */
  lemma {:induction false} ProtectsEachVariantIff(w: World, st: State, built: seq<Row>)
    requires WellFormed(w, st) && NewestFirst(st.rows, built) && Timestamped(st.rows)
    ensures ProtectsEachVariant(st, built) <==> OneVariantBuilt(st)
  {
    if OneVariantBuilt(st) {
      forall row | IsBuilt(st.rows, row)
        ensures IsProtected(st.rows, built, row) <==> IsNewest(st.rows, ByVariant(st), row)
      {
        ProtectedIffNewest(st.rows, built, row);
        SameGroupsSameNewest(w, st, row);
      }
    } else {
      var a, b :| IsBuilt(st.rows, a) && IsBuilt(st.rows, b) && KeyOf(a) == KeyOf(b) && TargetOf(st, a) != TargetOf(st, b);
      var row := UnprotectedNewest(w, st, built, a, b);
      UnusedOrProtected(st.rows, built, row);
      assert IsNewest(st.rows, ByVariant(st), row) && !IsProtected(st.rows, built, row);
    }
  }

  lemma {:induction false} ReachedIsWellFormed(w: World, st: State)
    requires Reaches(w, st)
    ensures WellFormed(w, st)
  {
    var states, actions :| Run(w, states, actions) && states[|actions|] == st;
    RunStaysClear(w, states, actions, |actions|);
  }

  lemma {:induction false} OneActiveOneVariant(w: World, st: State)
    requires WellFormed(w, st) && OneActive(ByPair, st)
    ensures OneVariantBuilt(st)
  {
    forall a, b | IsBuilt(st.rows, a) && IsBuilt(st.rows, b) && KeyOf(a) == KeyOf(b) ensures a == b {
      assert RowFits(w, st.rows[a.core.id], st.targets[a.core.id]) && RowFits(w, st.rows[b.core.id], st.targets[b.core.id]);
      assert ActiveIn(ByPair, st, a.core.id, b.core.id);
    }
  }

  /** The answer of the query in the state the overlapping run ends in. */
  lemma {:induction false} OverlapQuery(s: Target, t: Target, x: Record, y: Record)
    requires x.core.id != y.core.id && x.core.createdAt < y.core.createdAt
    ensures NewestFirst(BothBuilt(s, t, x, y).rows, [ToRow(AsBuilt(y)), ToRow(AsBuilt(x))])
    ensures Timestamped(BothBuilt(s, t, x, y).rows)
  {
    var rows, first, second := BothBuilt(s, t, x, y).rows, ToRow(AsBuilt(x)), ToRow(AsBuilt(y));
    assert IsBuilt(rows, first) && IsBuilt(rows, second);
    assert forall row :: IsBuilt(rows, row) ==> row == first || row == second;
  }

  /** Two variants built at once: the older one is the only row of its variant, and yet unused. */
  lemma {:induction false} OverlapLosesAVariant(w: World, s: Target, t: Target, x: Record, y: Record)
    requires Overlapping(w, s, t, x, y) && x.core.createdAt < y.core.createdAt
    ensures var st, built := BothBuilt(s, t, x, y), [ToRow(AsBuilt(y)), ToRow(AsBuilt(x))];
      && Reaches(w, st) && NewestFirst(st.rows, built) && Timestamped(st.rows)
      && IsNewest(st.rows, ByVariant(st), ToRow(AsBuilt(x)))
      && Unprotected(built, ProtectedIds(built)) == [ToRow(AsBuilt(x))]
  {
    ReachBothBuilt(w, s, t, x, y);
    OverlapQuery(s, t, x, y);
    OlderIsUnused(ToRow(AsBuilt(y)), ToRow(AsBuilt(x)));
    var st := BothBuilt(s, t, x, y);
    assert TargetOf(st, ToRow(AsBuilt(x))) == Some(s) && TargetOf(st, ToRow(AsBuilt(y))) == Some(t);
  }

  lemma {:induction false} OnlyNewerProtected(newer: Row, older: Row)
    requires KeyOf(newer) == KeyOf(older)
    ensures ProtectedIds([newer, older]) == {newer.core.id}
  {
    assert [newer, older][..1] == [newer] && [newer][..0] == [];
    assert SeenKeys([newer]) == SeenKeys([]) + {KeyOf(newer)};
    assert ProtectedIds([newer]) == ProtectedIds([]) + {newer.core.id};
  }

  lemma {:induction false} OlderIsUnused(newer: Row, older: Row)
    requires KeyOf(newer) == KeyOf(older) && newer.core.id != older.core.id
    ensures Unprotected([newer, older], ProtectedIds([newer, older])) == [older]
  {
    OnlyNewerProtected(newer, older);
    var protected := ProtectedIds([newer, older]);
    assert [newer, older][1..] == [older] && [older][1..] == [];
    assert Unprotected([older], protected) == [older] + Unprotected([], protected);
  }

  lemma {:induction false} OverlapBreaksProtection(w: World, s: Target, t: Target, x: Record, y: Record)
    requires Overlapping(w, s, t, x, y) && x.core.createdAt < y.core.createdAt
    ensures var st, built := BothBuilt(s, t, x, y), [ToRow(AsBuilt(y)), ToRow(AsBuilt(x))];
      Reaches(w, st) && NewestFirst(st.rows, built) && Timestamped(st.rows) && !ProtectsEachVariant(st, built)
  {
    OverlapLosesAVariant(w, s, t, x, y);
    var st, built, older := BothBuilt(s, t, x, y), [ToRow(AsBuilt(y)), ToRow(AsBuilt(x))], ToRow(AsBuilt(x));
    assert older in Unprotected(built, ProtectedIds(built));
    UnusedOrProtected(st.rows, built, older);
    assert IsBuilt(st.rows, older) && !IsProtected(st.rows, built, older);
  }

  ghost predicate PruningKeepsItsPromise(w: World) {
    forall st, built :: Reaches(w, st) && NewestFirst(st.rows, built) && Timestamped(st.rows) ==> ProtectsEachVariant(st, built)
  }

  lemma {:induction false} CoveredPruning(w: World, st: State, built: seq<Row>)
    requires LocksCover(w) && Reaches(w, st) && NewestFirst(st.rows, built) && Timestamped(st.rows)
    ensures ProtectsEachVariant(st, built)
  {
    ReachedIsWellFormed(w, st);
    CoveredRun(w, st);
    OneActiveOneVariant(w, st);
    ProtectsEachVariantIff(w, st, built);
  }

  /** Pruning keeps its documented promise in every reachable state if and only if locks cover the pairs. */
  lemma {:induction false} PruningProtectsVariantsIff(w: World)
    ensures PruningKeepsItsPromise(w) <==> LocksCover(w)
  {
    if LocksCover(w) {
      forall st, built | Reaches(w, st) && NewestFirst(st.rows, built) && Timestamped(st.rows) ensures ProtectsEachVariant(st, built) {
        CoveredPruning(w, st, built);
      }
    } else {
      var s, t, x, y := UncoveredOverlap(w);
      OverlapBreaksProtection(w, s, t, x, y);
    }
  }
}
