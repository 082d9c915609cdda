/** What an execution writes into its row, and how it leaves, from the plan and what happened around the builder. */
module BuildRecords {
  import opened Basics
  import opened Specs
  import opened Profiles
  import opened Labels
  import opened Catalog
  import opened Drift
  import opened Resolver
  import opened Executor
  import opened ExecutorTheorems

  /** The row of the execution. */
  ghost function OwnRow(rows: Rows, plan: Plan, e: Effects, id: string, now: int): Core
    requires Inserts(rows, plan, e, id, now)
  {
    OwnRowSettles(rows, plan, e, id, now);
    Build(rows, plan, e, id, now).rows[id].core
  }

  lemma {:induction false} OwnRowIs(rows: Rows, plan: Plan, e: Effects, id: string, now: int)
    requires Inserts(rows, plan, e, id, now)
    ensures var r := MakeRecord(plan, id, now).value;
      OwnRow(rows, plan, e, id, now) == Copied(ToRow(r), Finish(plan, r, e).record).core
      && Build(rows, plan, e, id, now).exit == Finish(plan, r, e).exit
  {
    var r := MakeRecord(plan, id, now).value;
    MadeRecord(plan, id, now);
    FinishKeepsInputs(plan, r, e);
    WrittenRow(Cleared(rows, plan), r, Finish(plan, r, e).record);
  }

  lemma {:induction false} MadeFromPlan(plan: Plan, id: string, now: int)
    requires MakeRecord(plan, id, now).Some?
    ensures var c := MakeRecord(plan, id, now).value.core;
      c == Core(id, plan.profile, plan.stack, plan.tag, plan.fingerprint, None, None, plan.baseImage,
                if plan.baseDigest == "" then None else Some(plan.baseDigest), plan.builder, None,
                None, None, None, None, None, None, Building, None, None, now)
  {
  }

  /** A text that is empty or a number. */
  predicate Numeric(text: string) { text == "" || ReadInt(text).Some? }

  lemma {:induction false} LabelIntIs(text: string)
    ensures LabelInt(text).Some? <==> Numeric(text)
    ensures LabelInt(text).Some? ==> Holds(LabelInt(text), text)
  {
    ReadDigits("1");
    assert ReadInt("").None?;
  }

  /** A record is made exactly of schema labels that are empty or numbers, and holds those numbers, 1 for an empty one. */
  lemma {:induction false} SchemasMade(plan: Plan, id: string, now: int)
    ensures var stack, profile, layer := Get(plan.labels, StackSchema), Get(plan.labels, ProfileSchema), LayerText(plan.labels);
      && (MakeRecord(plan, id, now).Some? <==> Numeric(stack) && Numeric(profile) && Numeric(layer))
      && (MakeRecord(plan, id, now).Some? ==>
            var schemas := MakeRecord(plan, id, now).value.schemas;
            Holds(Some(schemas.stack), stack) && Holds(Some(schemas.profile), profile) && Holds(Some(schemas.layer), layer))
  {
    LabelIntIs(Get(plan.labels, StackSchema));
    LabelIntIs(Get(plan.labels, ProfileSchema));
    LabelIntIs(LayerLabel(plan.labels, "1"));
    LabelIntIs(LayerText(plan.labels));
    ReadDigits("1");
  }

  lemma {:induction false} CopyKeepsInputs(r: Record, x: Record)
    requires x.core.variantJson == r.core.variantJson && x.core.staleReason == r.core.staleReason
    ensures var c := Copied(ToRow(r), x).core;
      && c.id == r.core.id && c.profile == r.core.profile && c.stack == r.core.stack && c.tag == r.core.tag
      && c.fingerprint == r.core.fingerprint && c.buildStrategy == r.core.buildStrategy && c.createdAt == r.core.createdAt
      && c.baseImage == r.core.baseImage && c.baseDigest == r.core.baseDigest && c.templateHash == r.core.templateHash
      && c.variantJson == r.core.variantJson && c.staleReason == r.core.staleReason
  {
  }

  /** However it ends, the row says what was built from what, when, and under which names. */
  lemma {:induction false} InputsRecorded(rows: Rows, plan: Plan, e: Effects, id: string, now: int)
    requires Inserts(rows, plan, e, id, now)
    ensures var row := OwnRow(rows, plan, e, id, now);
      && row.id == id && row.profile == plan.profile && row.stack == plan.stack && row.tag == plan.tag
      && row.fingerprint == plan.fingerprint && row.buildStrategy == plan.builder && row.createdAt == now
      && row.baseImage == plan.baseImage && row.baseDigest.GetOr("") == plan.baseDigest && row.baseDigest != Some("")
      && row.templateHash == None && row.variantJson == None && row.staleReason == None
  {
    var r := MakeRecord(plan, id, now).value;
    OwnRowIs(rows, plan, e, id, now);
    MadeFromPlan(plan, id, now);
    FinishKeepsInputs(plan, r, e);
    CopyKeepsInputs(r, Finish(plan, r, e).record);
  }

  predicate NoPaths(row: Core) {
    row.manifestPath == None && row.sbomPath == None && row.profileSnapshot == None && row.stackSnapshot == None && row.planPath == None
  }

  /** The paths of the captures that succeeded, each in its own column. */
  predicate PathsOf(row: Core, e: Effects) {
    && row.manifestPath == e.manifest && row.sbomPath == e.sbom
    && (e.snapshots.None? ==> row.profileSnapshot == None && row.stackSnapshot == None && row.planPath == None)
    && (e.snapshots.Some? ==>
          row.profileSnapshot == Some(e.snapshots.value.profile) && row.stackSnapshot == Some(e.snapshots.value.stack)
          && row.planPath == Some(e.snapshots.value.plan))
  }

  predicate ResultOf(row: Core, o: Outcome)
    requires o.Done?
  {
    row.imageId == o.imageId && row.digest == o.digest
  }

  /** A successful build records the builder's image and digest and the captured paths, and returns that very record. */
  lemma {:induction false} SuccessRecorded(rows: Rows, plan: Plan, e: Effects, id: string, now: int)
    requires Inserts(rows, plan, e, id, now) && Succeeds(plan, e)
    ensures var row, exit := OwnRow(rows, plan, e, id, now), Build(rows, plan, e, id, now).exit;
      && row.status == Built && row.errorDetail == None && ResultOf(row, e.outcome) && PathsOf(row, e)
      && exit.Returned? && exit.record.core == row
  {
    OwnRowIs(rows, plan, e, id, now);
    ReturnedIsStored(rows, plan, e, id, now);
  }

  /** A row failed for this reason without the builder having returned. */
  predicate FailedUnbuilt(row: Core, detail: string) {
    row.status == Failed && row.errorDetail == Some(detail) && row.imageId == None && row.digest == None && NoPaths(row)
  }

  /** What goes wrong before or in the builder. */
  lemma {:induction false} FailureRecorded(rows: Rows, plan: Plan, e: Effects, id: string, now: int)
    requires Inserts(rows, plan, e, id, now)
    ensures var row, exit := OwnRow(rows, plan, e, id, now), Build(rows, plan, e, id, now).exit;
      && (plan.builder !in {"overlay", "pull"} ==> FailedUnbuilt(row, "Unknown builder: " + plan.builder) && exit == BuildFailed)
      && (plan.builder in {"overlay", "pull"} ==>
            && (e.cancelBeforeBuilder ==> FailedUnbuilt(row, "Build canceled before builder execution") && exit == Canceled)
            && (!e.cancelBeforeBuilder ==>
                  && (e.outcome.RaisedOther? ==> FailedUnbuilt(row, e.outcome.detail) && exit == BuildFailed)
                  && (e.outcome.RaisedBuildError? ==> row.status == Building && row.errorDetail == None && exit == BuildFailed)
                  && (e.outcome.RaisedCancel? ==> row.status == Building && row.errorDetail == None && exit == Canceled)))
  {
    OwnRowIs(rows, plan, e, id, now);
  }

  /** What goes wrong after the builder returned: its result is recorded all the same. */
  lemma {:induction false} LateFailureRecorded(rows: Rows, plan: Plan, e: Effects, id: string, now: int)
    requires Inserts(rows, plan, e, id, now) && KnownBuilder(plan.builder) && !e.cancelBeforeBuilder && e.outcome.Done?
    ensures var row, exit := OwnRow(rows, plan, e, id, now), Build(rows, plan, e, id, now).exit;
      && ResultOf(row, e.outcome)
      && (e.cancelAfterBuilder ==>
            row.status == Failed && row.errorDetail == Some("Build canceled after builder execution") && NoPaths(row) && exit == Canceled)
      && (!e.cancelAfterBuilder && e.runHooks && e.hookFailures != [] ==>
            row.status == Failed && row.errorDetail == Some("Hook failures:\n" + Executor.Lines(e.hookFailures)) && PathsOf(row, e) && exit.Returned?)
  {
    OwnRowIs(rows, plan, e, id, now);
  }

  /** Hook failures stand one to a line, in order. */
  lemma {:induction false} LinesAre(words: seq<string>, last: string)
    ensures Executor.Lines([last]) == last
    ensures words != [] ==> Executor.Lines(words + [last]) == Executor.Lines(words) + "\n" + last
  {
    if words != [] {
      assert (words + [last])[0] == words[0] && (words + [last])[1..] == words[1..] + [last];
      LinesAre(words[1..], last);
      assert words[1..] == [] ==> words[1..] + [last] == [last];
    }
  }

  // ----- which builder -----

  /** A resolved plan names the builder of its stack's strategy, which the executor knows. */
  lemma {:induction false} BuilderFollowsStrategy(c: Context, p: Profile, s: Stack, o: Options)
    requires Resolve(c, p, s, o).Ok?
    ensures var builder := Resolve(c, p, s, o).value.builder;
      && (builder == "overlay" <==> s.buildStrategy == Overlay) && (builder == "pull" <==> s.buildStrategy == Pull)
      && builder in {"overlay", "pull"} && KnownBuilder(builder)
  {
    assert "overlay"[0] != "pull"[0];
  }
}
