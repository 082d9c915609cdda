/** What an execution decides before its builder runs, and what it does to every row but its own. */
module ExecutionSteps {
  import opened Basics
  import opened Specs
  import opened Profiles
  import opened Labels
  import opened Catalog
  import opened Drift
  import opened Resolver
  import opened Executor
  import opened ExecutorTheorems

  // ----- the freshness check -----

  /** The row under the plan's tag. */
  ghost predicate Tagged(rows: Rows, plan: Plan, id: string) { id in rows && rows[id].core.tag == plan.tag }

  ghost predicate TaggedBuilt(rows: Rows, plan: Plan) { exists id :: Tagged(rows, plan, id) && rows[id].core.status == Built }

  /** The image agrees with plan, catalog record and builder version. */
  ghost predicate Current(labels: LabelMap, record: Option<Record>, plan: Plan, version: string) {
    && Marked(labels) && SameInputs(labels, plan) && SameSchemas(labels, record, plan)
    && (Get(labels, BuilderVersion) == "" || Get(labels, BuilderVersion) == version)
  }

  lemma {:induction false} Found(rows: Rows, plan: Plan, id: string)
    requires Valid(rows) && Tagged(rows, plan, id)
    ensures ByTag(rows, plan.tag) == Some(ToRecord(rows[id])) && ToRecord(rows[id]).core == rows[id].core
    ensures TaggedBuilt(rows, plan) <==> rows[id].core.status == Built
  {
    LookupUnique(rows, id);
  }

  /** The row with nothing changed but status and reason. */
  function AgedFor(row: Row, reason: string): Row { row.(core := row.core.(status := Stale, staleReason := Some(reason))) }

  /** With a row under the tag: it is returned, the build goes on, or drift is raised, and only a built row that drifted is aged, under the drift's names. */
  lemma {:induction false} CheckOfRow(rows: Rows, labels: LabelMap, plan: Plan, version: string, immutable: bool, id: string)
    requires Valid(rows) && Tagged(rows, plan, id)
    ensures var check, row := CheckExisting(rows, Some(labels), plan, version, immutable), rows[id];
      var current := Current(labels, Some(ToRecord(row)), plan, version);
      && (check.Fresh? <==> current) && (check.Fresh? ==> check.record == ToRecord(row))
      && (check.DriftRaised? <==> !current && immutable)
      && (check.Rebuild? && row.core.status != Built ==> check.rows == rows)
      && (check.Rebuild? && row.core.status == Built ==>
            check.rows == rows[id := AgedFor(row, Summary(Detect(labels, Some(ToRecord(row)), plan, version)))])
  {
    Found(rows, plan, id);
    NoDriftIff(labels, Some(ToRecord(rows[id])), plan, version);
  }

  /** Without one, or without an image, nothing is ever returned or aged. */
  lemma {:induction false} CheckOfNothing(rows: Rows, image: Option<LabelMap>, plan: Plan, version: string, immutable: bool)
    requires Valid(rows) && (image.None? || !TagTaken(rows, plan.tag))
    ensures var check := CheckExisting(rows, image, plan, version, immutable);
      && (check.DriftRaised? <==> immutable && if image.None? then TaggedBuilt(rows, plan) else !Current(image.value, None, plan, version))
      && (!check.DriftRaised? ==> check == Rebuild(rows))
  {
    if id :| Tagged(rows, plan, id) {
      Found(rows, plan, id);
    }
    if image.Some? {
      NoDriftIff(image.value, None, plan, version);
    }
  }

  /** The names of the reasons, separated by commas. */
  lemma {:induction false} SummaryIs(reasons: seq<Reason>, last: Reason)
    ensures Summary([last]) == ReasonName(last)
    ensures reasons != [] ==> Summary(reasons + [last]) == Summary(reasons) + ", " + ReasonName(last)
  {
    if |reasons| > 0 {
      var all := reasons + [last];
      assert all[1..] == reasons[1..] + [last];
      SummaryIs(reasons[1..], last);
    }
  }

  /** An execution is canceled, stopped by the check, or builds on what the check left. */
  lemma {:induction false} ExecuteDecides(rows: Rows, image: Option<LabelMap>, plan: Plan, version: string, rebuild: bool, immutable: bool,
                                          e: Effects, id: string, now: int)
    ensures var ended, check := Execute(rows, image, plan, version, rebuild, immutable, e, id, now), CheckExisting(rows, image, plan, version, immutable);
      && (e.cancelAtStart ==> ended == Ended(rows, Canceled))
      && (!e.cancelAtStart && rebuild ==> ended == Build(rows, plan, e, id, now))
      && (!e.cancelAtStart && !rebuild && check.Fresh? ==> ended == Ended(rows, Returned(check.record)))
      && (!e.cancelAtStart && !rebuild && check.DriftRaised? ==> ended == Ended(rows, Drifted))
      && (!e.cancelAtStart && !rebuild && check.Rebuild? ==> ended == Build(check.rows, plan, e, id, now))
  {
  }

  // ----- clearing the way -----

  /** The row with nothing but its status changed. */
  function Retired(row: Row, plan: Plan): Row { if PendingRow(row, plan.profile, plan.stack) then row.(core := row.core.(status := Stale)) else row }

  /** Of the other rows the one with the plan's fingerprint goes, pending rows of the pair turn stale, and all else stays. */
  lemma {:induction false} ClearedRow(rows: Rows, plan: Plan, k: string)
    requires Valid(rows) && k in rows && k != ""
    ensures var cleared := Cleared(rows, plan);
      && (k in cleared <==> rows[k].core.fingerprint != plan.fingerprint)
      && (k in cleared ==> cleared[k] == Retired(rows[k], plan))
  {
    var marked := MarkStale(rows, plan.profile, plan.stack, "");
    MarkKeepsValid(rows, plan.profile, plan.stack, "");
    if rows[k].core.fingerprint == plan.fingerprint {
      LookupUnique(marked, k);
    }
  }

  lemma {:induction false} ClearedAddsNothing(rows: Rows, plan: Plan)
    ensures Cleared(rows, plan).Keys <= rows.Keys
  {
  }

  /** Row ids are never empty. */
  ghost predicate Named(rows: Rows) { "" !in rows }

  /** No row but one with the plan's fingerprint has the new id or the plan's tag. */
  ghost predicate WayClears(rows: Rows, plan: Plan, id: string) {
    forall k :: k in rows && rows[k].core.fingerprint != plan.fingerprint ==> k != id && rows[k].core.tag != plan.tag
  }

  lemma {:induction false} CollidesIff(rows: Rows, plan: Plan, id: string, r: Record)
    requires Valid(rows) && Named(rows) && r.core.id == id && r.core.tag == plan.tag && r.core.fingerprint == plan.fingerprint
    ensures Collides(Cleared(rows, plan), r) <==> !WayClears(rows, plan, id)
  {
    var cleared := Cleared(rows, plan);
    ClearedAddsNothing(rows, plan);
    forall k | k in rows ensures k in cleared <==> rows[k].core.fingerprint != plan.fingerprint {
      ClearedRow(rows, plan, k);
    }
    forall k | k in cleared ensures cleared[k].core.tag == rows[k].core.tag && cleared[k].core.fingerprint == rows[k].core.fingerprint {
      ClearedRow(rows, plan, k);
    }
    if k :| k in rows && rows[k].core.fingerprint != plan.fingerprint && (k == id || rows[k].core.tag == plan.tag) {
      assert k in cleared && (k == id || cleared[k].core.tag == plan.tag);
    }
  }

  /** The insert succeeds exactly when no cancel comes before it, the schema labels are numbers, and nothing but the plan's own fingerprint is in the way. */
  lemma {:induction false} InsertsIff(rows: Rows, plan: Plan, e: Effects, id: string, now: int)
    requires Valid(rows) && Named(rows)
    ensures Inserts(rows, plan, e, id, now) <==> !e.cancelBeforeUpdates && MakeRecord(plan, id, now).Some? && WayClears(rows, plan, id)
  {
    if MakeRecord(plan, id, now).Some? {
      MadeRecord(plan, id, now);
      CollidesIff(rows, plan, id, MakeRecord(plan, id, now).value);
    }
  }

  /** A build that does not insert leaves by the first thing in its way, with the way cleared but for a cancel before that. */
  lemma {:induction false} NotInserted(rows: Rows, plan: Plan, e: Effects, id: string, now: int)
    requires !Inserts(rows, plan, e, id, now)
    ensures Build(rows, plan, e, id, now) ==
      if e.cancelBeforeUpdates then Ended(rows, Canceled)
      else Ended(Cleared(rows, plan), if MakeRecord(plan, id, now).None? then LabelsMalformed else CatalogFailed)
  {
  }

  /** Whatever the way out, every other row is gone, retired or as it was. */
  lemma {:induction false} OthersAre(rows: Rows, plan: Plan, e: Effects, id: string, now: int, k: string)
    requires Valid(rows) && Named(rows) && !e.cancelBeforeUpdates && k != id
    ensures var out := Build(rows, plan, e, id, now).rows;
      && (k in out <==> k in rows && rows[k].core.fingerprint != plan.fingerprint)
      && (k in out ==> out[k] == Retired(rows[k], plan))
  {
    ClearedAddsNothing(rows, plan);
    if k in rows { ClearedRow(rows, plan, k); }
    if Inserts(rows, plan, e, id, now) {
      var r := MakeRecord(plan, id, now).value;
      MadeRecord(plan, id, now);
      FinishKeepsInputs(plan, r, e);
      WrittenRow(Cleared(rows, plan), r, Finish(plan, r, e).record);
    } else {
      NotInserted(rows, plan, e, id, now);
    }
  }

  // ----- the files -----

  /** The insert succeeded, the builder returned, and no cancel came around it. */
  ghost predicate CapturesMade(rows: Rows, plan: Plan, e: Effects, id: string, now: int) {
    && Inserts(rows, plan, e, id, now) && plan.builder in {"overlay", "pull"}
    && !e.cancelBeforeBuilder && e.outcome.Done? && !e.cancelAfterBuilder
  }

  lemma {:induction false} NothingThere(files: Files, fp: string)
    requires fp !in files
    ensures var d := DirOf(files, fp); d.profile == None && d.stack == None && !d.manifest && !d.plan
  {
  }

  /** The captures that succeed write the profile and stack the executor was given, under the plan's fingerprint; all other files stay. */
  lemma {:induction false} FilesLeft(rows: Rows, files: Files, plan: Plan, p: Profile, s: Stack, e: Effects, id: string, now: int, fp: string)
    ensures var out, made := BuildFiles(rows, files, plan, p, s, e, id, now), CapturesMade(rows, plan, e, id, now);
      var before, after := DirOf(files, fp), DirOf(out, fp);
      && (fp != plan.fingerprint || !made ==> after == before)
      && (fp == plan.fingerprint && made ==> after.manifest == (e.manifest.Some? || before.manifest))
      && (fp == plan.fingerprint && made && e.snapshots.Some? ==> after.profile == Some(p) && after.stack == Some(s) && after.plan)
      && (fp == plan.fingerprint && made && e.snapshots.None? ==> after == before.(manifest := after.manifest))
  {
  }
}
