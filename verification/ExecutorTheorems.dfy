/** How executions end, and why executing a plan again changes nothing. */
module ExecutorTheorems {
  import opened Basics
  import opened Specs
  import opened Profiles
  import opened Labels
  import opened Catalog
  import opened Resolver
  import opened Drift
  import opened Executor
  import Compatibility

  // ----- exits -----

  /** The execution reaches its insert and the insert succeeds. */
  ghost predicate Inserts(rows: Rows, plan: Plan, e: Effects, id: string, now: int) {
    && !e.cancelBeforeUpdates && MakeRecord(plan, id, now).Some?
    && !Collides(Cleared(rows, plan), MakeRecord(plan, id, now).value)
  }

  /** The one gap: the builder itself raises one of the two exceptions that pass through untouched. */
  predicate PassesThrough(plan: Plan, e: Effects) {
    KnownBuilder(plan.builder) && !e.cancelBeforeBuilder && (e.outcome.RaisedBuildError? || e.outcome.RaisedCancel?)
  }

  predicate Succeeds(plan: Plan, e: Effects) {
    && KnownBuilder(plan.builder) && !e.cancelBeforeBuilder && e.outcome.Done? && !e.cancelAfterBuilder
    && (e.runHooks ==> e.hookFailures == [])
  }

  lemma {:induction false} EndingStatus(plan: Plan, r: Record, e: Effects)
    requires r.core.status == Building
    ensures var x := Finish(plan, r, e).record.core;
      && x.id == r.core.id
      && (x.status == Building <==> PassesThrough(plan, e))
      && (x.status == Built <==> Succeeds(plan, e))
      && (x.status == Failed <==> !PassesThrough(plan, e) && !Succeeds(plan, e))
      && (x.status == Failed ==> x.errorDetail.Some?)
  {
  }

  lemma {:induction false} MadeRecord(plan: Plan, id: string, now: int)
    requires MakeRecord(plan, id, now).Some?
    ensures var c := MakeRecord(plan, id, now).value.core;
      c.id == id && c.status == Building && c.profile == plan.profile && c.stack == plan.stack
      && c.tag == plan.tag && c.fingerprint == plan.fingerprint && c.variantJson == None
  {
  }

  lemma {:induction false} WrittenRow(rows: Rows, r: Record, x: Record)
    requires x.core.id == r.core.id
    ensures var out := Update(Insert(rows, r), x);
      && r.core.id in out && out.Keys == rows.Keys + {r.core.id}
      && out[r.core.id] == Copied(ToRow(r), x)
      && forall k :: k in rows && k != r.core.id ==> out[k] == rows[k]
  {
  }

  /**
   Past the insert, every way out leaves the build's own row built exactly on success
   and failed with a reason otherwise; it stays building only if the builder itself
   raises an exception that is passed through.
   */
  lemma {:induction false} OwnRowSettles(rows: Rows, plan: Plan, e: Effects, id: string, now: int)
    requires Inserts(rows, plan, e, id, now)
    ensures var out := Build(rows, plan, e, id, now).rows;
      && id in out
      && (out[id].core.status == Building <==> PassesThrough(plan, e))
      && (out[id].core.status == Built <==> Succeeds(plan, e))
      && (out[id].core.status == Failed <==> !PassesThrough(plan, e) && !Succeeds(plan, e))
      && (out[id].core.status == Failed ==> out[id].core.errorDetail.Some?)
  {
    var r := MakeRecord(plan, id, now).value;
    MadeRecord(plan, id, now);
    EndingStatus(plan, r, e);
    WrittenRow(Cleared(rows, plan), r, Finish(plan, r, e).record);
  }

  /** Whatever is returned is what the catalog holds. */
  lemma {:induction false} ReturnedIsStored(rows: Rows, plan: Plan, e: Effects, id: string, now: int)
    requires Inserts(rows, plan, e, id, now) && Build(rows, plan, e, id, now).exit.Returned?
    ensures var b := Build(rows, plan, e, id, now); id in b.rows && b.rows[id].core == b.exit.record.core
  {
    var r := MakeRecord(plan, id, now).value;
    MadeRecord(plan, id, now);
    EndingStatus(plan, r, e);
    WrittenRow(Cleared(rows, plan), r, Finish(plan, r, e).record);
    FinishKeepsInputs(plan, r, e);
  }

  lemma {:induction false} FinishKeepsInputs(plan: Plan, r: Record, e: Effects)
    ensures var x := Finish(plan, r, e).record;
      && x.schemas == r.schemas
      && x.core.(status := r.core.status, imageId := r.core.imageId, digest := r.core.digest,
                 manifestPath := r.core.manifestPath, sbomPath := r.core.sbomPath,
                 profileSnapshot := r.core.profileSnapshot, stackSnapshot := r.core.stackSnapshot, planPath := r.core.planPath,
                 errorDetail := r.core.errorDetail) == r.core
  {
  }

  /** Rows of other profiles or stacks are untouched, and rows of the same pair are at most marked stale or removed. */
  lemma {:induction false} OthersKept(rows: Rows, plan: Plan, e: Effects, id: string, now: int, k: string)
    requires Valid(rows) && Inserts(rows, plan, e, id, now) && k in rows && k != id
    requires rows[k].core.fingerprint != plan.fingerprint
    ensures var out := Build(rows, plan, e, id, now).rows;
      k in out && out[k] == if Markable(rows[k], plan.profile, plan.stack) then Staled(rows[k], "") else rows[k]
  {
    var r := MakeRecord(plan, id, now).value;
    MadeRecord(plan, id, now);
    EndingStatus(plan, r, e);
    WrittenRow(Cleared(rows, plan), r, Finish(plan, r, e).record);
  }

  lemma {:induction false} BuildKeepsValid(rows: Rows, plan: Plan, e: Effects, id: string, now: int)
    requires Valid(rows)
    ensures Valid(Build(rows, plan, e, id, now).rows)
  {
    var marked := MarkStale(rows, plan.profile, plan.stack, "");
    assert Valid(marked);
    var cleared := Cleared(rows, plan);
    assert Valid(cleared);
    if Inserts(rows, plan, e, id, now) {
      var r := MakeRecord(plan, id, now).value;
      MadeRecord(plan, id, now);
      EndingStatus(plan, r, e);
      InsertKeepsValid(cleared, r);
      UpdateKeepsValid(Insert(cleared, r), Finish(plan, r, e).record);
    }
  }

  /** Rows written by executions carry no variant, so all variants of one profile and stack form one group. */
  lemma {:induction false} VariantsShareTheirGroup(rows: Rows, plan: Plan, e: Effects, id: string, now: int)
    requires Inserts(rows, plan, e, id, now)
    ensures var out := Build(rows, plan, e, id, now).rows; id in out && KeyOf(out[id]) == GroupKey(plan.profile, plan.stack, None)
  {
    var r := MakeRecord(plan, id, now).value;
    MadeRecord(plan, id, now);
    FinishKeepsInputs(plan, r, e);
    WrittenRow(Cleared(rows, plan), r, Finish(plan, r, e).record);
  }

  // ----- executing again -----

  /** A plan as `resolve` makes it, under a hash whose values are never empty. */
  ghost predicate Resolved(c: Context, p: Profile, s: Stack, o: Options, plan: Plan) {
    Resolve(c, p, s, o) == Ok(plan) && plan.fingerprint != ""
  }

  const IDENTITY := {ProfileId, FingerprintKey, BuilderVersion, BaseDigest, TemplateHash, StackSchema, ProfileSchema, LayerSchema, BlockSchema}

  lemma {:induction false} NoVariantDetail(c: Context, s: Stack, o: Options, d: Compatibility.Decision)
    ensures VariantsKey !in DetailLabels(c, s, o, d)
  {
  }

  lemma {:induction false} VariantLabel(c: Context, o: Options, d: Compatibility.Decision)
    ensures if o.variants == map[] then VariantsKey !in OptionalLabels(c, o, d)
            else VariantsKey in OptionalLabels(c, o, d) && OptionalLabels(c, o, d)[VariantsKey] == c.codec.encode(o.variants)
  {
  }

  lemma {:induction false} IdentityRead(c: Context, p: Profile, s: Stack, o: Options, fp: string)
    ensures var m := IdentityLabels(c, p, s, o, fp);
      && IDENTITY <= m.Keys && VariantsKey !in m && m[FingerprintKey] == fp && m[BuilderVersion] == c.builderVersion
      && m[ProfileId] == p.id && m[StackId] == s.id && m[BaseDigest] == o.baseDigest && m[TemplateHash] == o.templateHash
      && m[StackSchema] == ShowInt(s.schemaVersion) && m[ProfileSchema] == ShowInt(p.schemaVersion)
      && m[LayerSchema] == m[BlockSchema] == ShowInt(MaxSchema(o.layerSchemas))
  {
  }

  lemma {:induction false} LabelsRead(c: Context, p: Profile, s: Stack, o: Options, d: Compatibility.Decision, fp: string)
    ensures var m := LabelsFor(c, p, s, o, d, fp);
      && IDENTITY <= m.Keys && m[FingerprintKey] == fp && m[BuilderVersion] == c.builderVersion
      && m[ProfileId] == p.id && m[StackId] == s.id && m[BaseDigest] == o.baseDigest && m[TemplateHash] == o.templateHash
      && m[StackSchema] == ShowInt(s.schemaVersion) && m[ProfileSchema] == ShowInt(p.schemaVersion)
      && m[LayerSchema] == m[BlockSchema] == ShowInt(MaxSchema(o.layerSchemas))
      && (if o.variants == map[] then VariantsKey !in m else VariantsKey in m && m[VariantsKey] == c.codec.encode(o.variants))
  {
    IdentityRead(c, p, s, o, fp);
    NoVariantDetail(c, s, o, d);
    VariantLabel(c, o, d);
    LastWins(DetailLabels(c, s, o, d), OptionalLabels(c, o, d), IdentityLabels(c, p, s, o, fp));
  }

  lemma {:induction false} LastWins(a: LabelMap, b: LabelMap, c: LabelMap)
    ensures forall k :: k in c ==> k in a + b + c && (a + b + c)[k] == c[k]
    ensures VariantsKey !in c && VariantsKey !in a ==>
      (VariantsKey in a + b + c <==> VariantsKey in b) && (VariantsKey in b ==> (a + b + c)[VariantsKey] == b[VariantsKey])
  {
  }

  /** The greatest schema of the layers, 1 without any. */
  lemma {:induction false} LargestSchema(schemas: seq<int>)
    ensures schemas == [] ==> MaxSchema(schemas) == 1
    ensures schemas != [] ==> MaxSchema(schemas) in schemas && forall n :: n in schemas ==> n <= MaxSchema(schemas)
  {
    if |schemas| > 1 {
      LargestSchema(schemas[1..]);
      assert schemas == [schemas[0]] + schemas[1..];
    }
  }

  lemma {:induction false} PlanLabels(c: Context, p: Profile, s: Stack, o: Options, plan: Plan)
    requires Resolved(c, p, s, o, plan)
    ensures Get(plan.labels, FingerprintKey) == plan.fingerprint && Get(plan.labels, BuilderVersion) == c.builderVersion
    ensures Get(plan.labels, BaseDigest) == plan.baseDigest == o.baseDigest && Get(plan.labels, TemplateHash) == o.templateHash
    ensures Get(plan.labels, StackSchema) == ShowInt(s.schemaVersion) && Get(plan.labels, ProfileSchema) == ShowInt(p.schemaVersion)
    ensures LayerLabel(plan.labels, "") == ShowInt(MaxSchema(o.layerSchemas)) && LayerLabel(plan.labels, "1") == LayerLabel(plan.labels, "")
    ensures ProfileId in plan.labels && HasOwnLabel(plan.labels)
  {
    var d := DecisionOf(p, o);
    HintsChangeIff(s, d);
    PlanLabelsAre(c, p, s, o, plan);
    LabelsRead(c, p, WithHints(s, d), o, d, plan.fingerprint);
    assert !ProfileId.Foreign?;
  }

  /** A plan's labels name its profile and its stack. */
  lemma {:induction false} PlanNamesItsPair(c: Context, p: Profile, s: Stack, o: Options, plan: Plan)
    requires Resolved(c, p, s, o, plan)
    ensures Get(plan.labels, ProfileId) == p.id && Get(plan.labels, StackId) == s.id
    ensures Get(plan.labels, BlockSchema) == Get(plan.labels, LayerSchema) == ShowInt(MaxSchema(o.layerSchemas))
  {
    HintsChangeIff(s, DecisionOf(p, o));
    PlanLabelsAre(c, p, s, o, plan);
    LabelsRead(c, p, WithHints(s, DecisionOf(p, o)), o, DecisionOf(p, o), plan.fingerprint);
  }

  lemma {:induction false} PlanLabelsAre(c: Context, p: Profile, s: Stack, o: Options, plan: Plan)
    requires Resolved(c, p, s, o, plan)
    ensures plan.labels == LabelsFor(c, p, WithHints(s, DecisionOf(p, o)), o, DecisionOf(p, o), plan.fingerprint)
    ensures plan.baseDigest == o.baseDigest
  {
  }

  /** The schema numbers of the specifications reach the record through the labels. */
  lemma {:induction false} SchemasSurviveLabels(c: Context, p: Profile, s: Stack, o: Options, plan: Plan, id: string, now: int)
    requires Resolved(c, p, s, o, plan)
    ensures MakeRecord(plan, id, now).Some?
    ensures MakeRecord(plan, id, now).value.schemas == Schemas(s.schemaVersion, p.schemaVersion, MaxSchema(o.layerSchemas))
    ensures ExpectedVersion(Get(plan.labels, StackSchema)) == s.schemaVersion
    ensures ExpectedVersion(Get(plan.labels, ProfileSchema)) == p.schemaVersion
    ensures ExpectedVersion(LayerLabel(plan.labels, "")) == MaxSchema(o.layerSchemas)
  {
    PlanLabels(c, p, s, o, plan);
    ReadShownInt(s.schemaVersion);
    ReadShownInt(p.schemaVersion);
    ReadShownInt(MaxSchema(o.layerSchemas));
  }

  predicate SchemasPositive(p: Profile, s: Stack, o: Options) {
    s.schemaVersion != 0 && p.schemaVersion != 0 && MaxSchema(o.layerSchemas) >= 1
  }

  /** Resolving the same inputs at another time. */
  predicate SamePlan(a: Plan, b: Plan) {
    && b == a.(labels := b.labels)
    && Get(a.labels, FingerprintKey) == Get(b.labels, FingerprintKey) && Get(a.labels, BuilderVersion) == Get(b.labels, BuilderVersion)
    && Get(a.labels, BaseDigest) == Get(b.labels, BaseDigest) && Get(a.labels, TemplateHash) == Get(b.labels, TemplateHash)
    && Get(a.labels, StackSchema) == Get(b.labels, StackSchema) && Get(a.labels, ProfileSchema) == Get(b.labels, ProfileSchema)
    && LayerLabel(a.labels, "") == LayerLabel(b.labels, "")
  }

  lemma {:induction false} ResolvedAgain(c: Context, later: string, p: Profile, s: Stack, o: Options, plan: Plan)
    requires Resolved(c, p, s, o, plan)
    ensures Resolve(c.(now := later), p, s, o).Ok? && SamePlan(plan, Resolve(c.(now := later), p, s, o).value)
  {
    SameButLabels(c, later, p, s, o);
    var again := Resolve(c.(now := later), p, s, o).value;
    PlanLabels(c, p, s, o, plan);
    PlanLabels(c.(now := later), p, s, o, again);
  }

  lemma {:induction false} SameButLabels(c: Context, later: string, p: Profile, s: Stack, o: Options)
    requires Resolve(c, p, s, o).Ok?
    ensures Resolve(c.(now := later), p, s, o).Ok?
    ensures var a, b := Resolve(c, p, s, o).value, Resolve(c.(now := later), p, s, o).value; b == a.(labels := b.labels)
  {
  }

  lemma {:induction false} HoldsShown(k: int, n: int)
    ensures Holds(Some(k), ShowInt(n)) <==> k == n
  {
    ReadShownInt(n);
  }

  /** A live image carrying a plan's labels is fresh for that plan exactly when the stored schemas read back. */
  lemma {:induction false} FreshIff(c: Context, p: Profile, s: Stack, o: Options, plan: Plan, again: Plan, record: Record)
    requires Resolved(c, p, s, o, plan) && SamePlan(plan, again)
    ensures Detect(plan.labels, Some(record), again, c.builderVersion) == [] <==>
      record.schemas == Schemas(s.schemaVersion, p.schemaVersion, MaxSchema(o.layerSchemas))
  {
    PlanLabels(c, p, s, o, plan);
    LayerIs(plan.labels);
    LayerIs(again.labels);
    HoldsShown(record.schemas.stack, s.schemaVersion);
    HoldsShown(record.schemas.profile, p.schemaVersion);
    HoldsShown(record.schemas.layer, MaxSchema(o.layerSchemas));
    MarkedIff(plan.labels);
    NoDriftIff(plan.labels, Some(record), again, c.builderVersion);
  }

  lemma {:induction false} StoredRow(rows: Rows, plan: Plan, e: Effects, id: string, now: int)
    requires Valid(rows) && Inserts(rows, plan, e, id, now)
    ensures var out := Build(rows, plan, e, id, now).rows;
      && Valid(out) && id in out && ByTag(out, plan.tag) == Some(ToRecord(out[id]))
      && out[id].columns == ToRow(MakeRecord(plan, id, now).value).columns
  {
    var r := MakeRecord(plan, id, now).value;
    MadeRecord(plan, id, now);
    EndingStatus(plan, r, e);
    BuildKeepsValid(rows, plan, e, id, now);
    WrittenRow(Cleared(rows, plan), r, Finish(plan, r, e).record);
    LookupUnique(Build(rows, plan, e, id, now).rows, id);
  }

  /**
   Executing a plan again finds the image fresh and returns the stored row unchanged
   exactly when no schema version is 0 and the layer schema is at least 1.
   */
  lemma {:induction false} SecondRunIsFreshIff(c: Context, p: Profile, s: Stack, o: Options, plan: Plan, again: Plan,
                                               rows: Rows, e: Effects, id: string, now: int, immutable: bool)
    requires Resolved(c, p, s, o, plan) && SamePlan(plan, again) && Valid(rows) && Inserts(rows, plan, e, id, now)
    ensures var out := Build(rows, plan, e, id, now).rows;
      && id in out
      && (CheckExisting(out, Some(plan.labels), again, c.builderVersion, immutable) == Fresh(ToRecord(out[id]))
          <==> SchemasPositive(p, s, o))
  {
    var out := Build(rows, plan, e, id, now).rows;
    StoredRow(rows, plan, e, id, now);
    SchemasSurviveLabels(c, p, s, o, plan, id, now);
    var r := MakeRecord(plan, id, now).value;
    FreshIff(c, p, s, o, plan, again, ToRecord(out[id]));
    RecordRoundTrip(r);
    assert ToRecord(out[id]).schemas == ToRecord(ToRow(r)).schemas;
    assert ToRecord(ToRow(r)) == r <==> ToRecord(ToRow(r)).schemas == r.schemas;
  }

  /** So the second execution leaves the catalog as it is. */
  lemma {:induction false} SecondRunIsIdle(c: Context, p: Profile, s: Stack, o: Options, plan: Plan, again: Plan,
                                           rows: Rows, e: Effects, id: string, now: int, immutable: bool, e2: Effects, id2: string, later: int)
    requires Resolved(c, p, s, o, plan) && SamePlan(plan, again) && Valid(rows) && Inserts(rows, plan, e, id, now)
    requires SchemasPositive(p, s, o) && !e2.cancelAtStart
    ensures var out := Build(rows, plan, e, id, now).rows;
      id in out && Execute(out, Some(plan.labels), again, c.builderVersion, false, immutable, e2, id2, later) == Ended(out, Returned(ToRecord(out[id])))
  {
    SecondRunIsFreshIff(c, p, s, o, plan, again, rows, e, id, now, immutable);
  }

  /** So what a second execution serves is built exactly when the first one succeeded: a failed row is served too, and nothing is built. */
  lemma {:induction false} ServedAsItEnded(c: Context, p: Profile, s: Stack, o: Options, plan: Plan, again: Plan, rows: Rows, e: Effects,
                                           id: string, now: int, immutable: bool, e2: Effects, id2: string, later: int)
    requires Resolved(c, p, s, o, plan) && SamePlan(plan, again) && Valid(rows) && Inserts(rows, plan, e, id, now)
    requires SchemasPositive(p, s, o) && !e2.cancelAtStart
    ensures var first := Build(rows, plan, e, id, now).rows;
      var second := Execute(first, Some(plan.labels), again, c.builderVersion, false, immutable, e2, id2, later);
      && second.exit.Returned? && second.rows == first
      && (second.exit.record.core.status == Built <==> Succeeds(plan, e))
      && (second.exit.record.core.status == Failed <==> !Succeeds(plan, e) && !PassesThrough(plan, e))
  {
    SecondRunIsIdle(c, p, s, o, plan, again, rows, e, id, now, immutable, e2, id2, later);
    OwnRowSettles(rows, plan, e, id, now);
  }

  function WithStatus(rows: Rows, id: string, status: Status): Rows
    requires id in rows
  {
    rows[id := rows[id].(core := rows[id].core.(status := status))]
  }

  /** Whether a build is skipped does not depend on the status of any row. */
  lemma {:induction false} SkipIgnoresStatus(rows: Rows, id: string, status: Status, image: Option<LabelMap>, plan: Plan, version: string)
    requires Valid(rows) && id in rows
    ensures CheckExisting(rows, image, plan, version, false).Fresh? <==>
      CheckExisting(WithStatus(rows, id, status), image, plan, version, false).Fresh?
  {
    var changed := WithStatus(rows, id, status);
    assert Valid(changed);
    if found :| found in rows && rows[found].core.tag == plan.tag {
      LookupUnique(rows, found);
      LookupUnique(changed, found);
      DetectIgnoresCore(image, ToRecord(rows[found]), ToRecord(changed[found]), plan, version);
    } else {
      assert !TagTaken(rows, plan.tag) && !TagTaken(changed, plan.tag);
    }
  }

  lemma {:induction false} DetectIgnoresCore(image: Option<LabelMap>, a: Record, b: Record, plan: Plan, version: string)
    requires a.schemas == b.schemas
    ensures image.Some? ==> Detect(image.value, Some(a), plan, version) == Detect(image.value, Some(b), plan, version)
  {
  }
}
