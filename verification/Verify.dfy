/** Verifying a stored artifact against its image, its snapshots and a recomputed fingerprint. */
module Verify {
  import opened Basics
  import opened Specs
  import opened Profiles
  import opened Hashing
  import opened Labels
  import opened Catalog
  import opened Resolver
  import opened Executor
  import opened ExecutorTheorems
  import Compatibility

  datatype Code = FingerprintMismatch | LabelMissing | ImageMissing | CatalogMissing | RecomputeDiverged
  datatype Problem =
    | NoRecord | NotBuilt(status: Status) | NoImage | NoLabel(key: LabelKey) | LabelDiffers
    | NoSnapshot(name: string) | DiffersFromLabel | DiffersFromCatalog

  datatype Report = Report(
    ok: bool, errors: seq<Problem>, codes: seq<Code>, warnings: seq<string>,
    recomputed: Option<string>, labelFp: Option<string>, catalogFp: Option<string>)

  const REQUIRED := [ProfileId, StackId, FingerprintKey, BaseDigest, TemplateHash, BuilderVersion]

  /** `_resolve_artifact`: by tag, then fingerprint, then id. */
  ghost function Find(rows: Rows, key: string): Option<Record> {
    var record := OrElse(ByTag(rows, key), ByFingerprint(rows, key));
    if record.Some? then record else if key in rows then Some(ToRecord(rows[key])) else None
  }

  function Missing(labels: LabelMap, keys: seq<LabelKey>): seq<Problem> {
    if keys == [] then []
    else (if keys[0] in labels then [] else [NoLabel(keys[0])]) + Missing(labels, keys[1..])
  }

  function LabelFingerprint(labels: LabelMap): Option<string> {
    if FingerprintKey in labels then Some(labels[FingerprintKey]) else None
  }

  /** A label fingerprint that is present, non-empty and different. */
  predicate LabelConflicts(labels: LabelMap, fp: string) {
    Get(labels, FingerprintKey) != "" && Get(labels, FingerprintKey) != fp
  }

  function Gone(files: Snapshots): seq<string> {
    (if files.profile.Some? then [] else ["profile.json"]) + (if files.stack.Some? then [] else ["stack.json"])
    + (if files.manifest then [] else ["manifest.json"]) + (if files.plan then [] else ["plan.json"])
  }

  function GoneProblems(names: seq<string>): seq<Problem> { Map((n: string) => NoSnapshot(n), names) }

  // ----- recomputing -----

  function StoredVariants(codec: VariantCodec, labels: LabelMap, record: Record): Option<Variants> {
    if Get(labels, VariantsKey) != "" then codec.decode(labels[VariantsKey])
    else if record.core.variantJson.GetOr("") != "" then codec.decode(record.core.variantJson.value)
    else Some(map[])
  }

  /** None when a file is missing or the variants do not parse. */
  function Recompute(c: Context, labels: LabelMap, record: Record, files: Snapshots): Option<string> {
    var variants := StoredVariants(c.codec, labels, record);
    if files.profile.None? || files.stack.None? || variants.None? then None
    else Some(Fingerprint(c.hash, files.profile.value, files.stack.value, Inputs(
      record.core.baseImage, Or(Get(labels, BaseDigest), record.core.baseDigest.GetOr("")),
      Or(Get(labels, TemplateHash), record.core.templateHash.GetOr("")), variants.value,
      Or(Get(labels, BuilderVersion), c.builderVersion))))
  }

  function RecomputeProblems(labels: LabelMap, fp: string, recomputed: Option<string>): seq<Problem> {
    if recomputed.None? then []
    else (if LabelConflicts(labels, recomputed.value) then [DiffersFromLabel] else [])
         + (if recomputed.value != fp then [DiffersFromCatalog] else [])
  }

  function Unverifiable(problem: Problem, code: Code, catalog: Option<string>): Report {
    Report(false, [problem], [code], [], None, None, catalog)
  }

  function ErrorsOf(missing: seq<Problem>, conflicts: bool, gone: seq<string>, strict: bool, diverged: seq<Problem>): seq<Problem> {
    missing + (if conflicts then [LabelDiffers] else []) + (if strict then GoneProblems(gone) else []) + diverged
  }

  function CodesOf(missing: seq<Problem>, conflicts: bool, diverged: seq<Problem>): seq<Code> {
    (if missing != [] then [LabelMissing] else []) + (if conflicts then [FingerprintMismatch] else [])
    + (if diverged != [] then [RecomputeDiverged] else [])
  }

  function WarningsOf(gone: seq<string>, strict: bool, unknown: bool): seq<string> {
    (if strict then [] else gone) + (if unknown then ["not recomputed"] else [])
  }

  function CheckImage(fp: string, missing: seq<Problem>, labels: LabelMap, files: Snapshots, strict: bool, recomputed: Option<string>): Report {
    var conflicts, diverged := LabelConflicts(labels, fp), RecomputeProblems(labels, fp, recomputed);
    var errors := ErrorsOf(missing, conflicts, Gone(files), strict, diverged);
    Report(errors == [], errors, CodesOf(missing, conflicts, diverged), WarningsOf(Gone(files), strict, recomputed.None?),
           recomputed, LabelFingerprint(labels), Some(fp))
  }

  function CheckRecord(c: Context, record: Record, labels: LabelMap, files: Snapshots, strict: bool): Report {
    CheckImage(record.core.fingerprint, Missing(labels, REQUIRED), labels, files, strict, Recompute(c, labels, record, files))
  }

  /** `verify_artifact`; `image` holds the labels of the image under the record's tag. */
  ghost function VerifyReport(c: Context, rows: Rows, key: string, image: Option<LabelMap>, files: Snapshots, strict: bool): Report {
    match Find(rows, key)
    case None => Unverifiable(NoRecord, CatalogMissing, None)
    case Some(record) =>
      if record.core.status != Built then Unverifiable(NotBuilt(record.core.status), ImageMissing, None)
      else if image.None? then Unverifiable(NoImage, ImageMissing, Some(record.core.fingerprint))
      else CheckRecord(c, record, image.value, files, strict)
  }

  method ResolveArtifact(store: CatalogStore, key: string) returns (r: Option<Record>)
    requires Valid(store.rows)
    ensures r == Find(store.rows, key)
  {
    r := store.FindByTag(key);
    if r.None? { r := store.FindByFingerprint(key); }
    if r.None? && key in store.rows { r := Some(ToRecord(store.rows[key])); }
  }

  method CheckLabels(labels: LabelMap, required: seq<LabelKey>) returns (errors: seq<Problem>, codes: seq<Code>)
    ensures errors == Missing(labels, required)
    ensures codes == if errors != [] then [LabelMissing] else []
  {
    errors, codes := [], [];
    for i := 0 to |required|
      invariant errors + Missing(labels, required[i..]) == Missing(labels, required)
      invariant codes == if errors != [] then [LabelMissing] else []
    {
      var key := required[i];
      assert required[i..][0] == key && required[i..][1..] == required[i + 1..];
      if key !in labels {
        errors := errors + [NoLabel(key)];
        if codes == [] { codes := [LabelMissing]; }
      }
    }
    assert required[|required|..] == [];
  }

  method VerifyArtifact(c: Context, store: CatalogStore, key: string, image: Option<LabelMap>, files: Snapshots, strict: bool) returns (r: Report)
    requires Valid(store.rows)
    ensures r == VerifyReport(c, store.rows, key, image, files, strict)
  {
    var found := ResolveArtifact(store, key);
    if found.None? { return Report(false, [NoRecord], [CatalogMissing], [], None, None, None); }
    var record := found.value;
    if record.core.status != Built {
      return Report(false, [NotBuilt(record.core.status)], [ImageMissing], [], None, None, None);
    }
    var fp := record.core.fingerprint;
    if image.None? { return Report(false, [NoImage], [ImageMissing], [], None, None, Some(fp)); }
    var errors, codes := CheckLabels(image.value, REQUIRED);
    var recomputed := Recompute(c, image.value, record, files);
    r := InspectImage(fp, errors, codes, image.value, files, strict, recomputed);
  }

  method InspectImage(fp: string, missing: seq<Problem>, found: seq<Code>, labels: LabelMap, files: Snapshots, strict: bool, recomputed: Option<string>)
    returns (r: Report)
    requires found == if missing != [] then [LabelMissing] else []
    ensures r == CheckImage(fp, missing, labels, files, strict, recomputed)
  {
    var conflicts, diverged := LabelConflicts(labels, fp), RecomputeProblems(labels, fp, recomputed);
    var gone := Gone(files);
    var errors, warnings := CollectProblems(missing, conflicts, gone, strict, diverged, recomputed.None?);
    var codes := found;
    if conflicts { codes := codes + [FingerprintMismatch]; }
    if diverged != [] { codes := codes + [RecomputeDiverged]; }
    r := Report(errors == [], errors, codes, warnings, recomputed, LabelFingerprint(labels), Some(fp));
  }

  method CollectProblems(missing: seq<Problem>, conflicts: bool, gone: seq<string>, strict: bool, diverged: seq<Problem>, unknown: bool)
    returns (errors: seq<Problem>, warnings: seq<string>)
    ensures errors == ErrorsOf(missing, conflicts, gone, strict, diverged)
    ensures warnings == WarningsOf(gone, strict, unknown)
  {
    errors, warnings := missing, [];
    if conflicts { errors := errors + [LabelDiffers]; }
    if strict {
      errors := errors + GoneProblems(gone);
    } else {
      warnings := gone;
    }
    if unknown { warnings := warnings + ["not recomputed"]; }
    errors := errors + diverged;
  }

  // ----- fixing -----

  /** `_classify_reason`: the first code in order of priority. */
  function Classify(codes: seq<Code>): string {
    if RecomputeDiverged in codes || FingerprintMismatch in codes then "fingerprint_mismatch"
    else if LabelMissing in codes then "MISSING_LABELS"
    else if ImageMissing in codes then "IMAGE_MISSING"
    else if CatalogMissing in codes then "CATALOG_MISSING"
    else "VERIFICATION_FAILED"
  }

  ghost function Fixed(rows: Rows, key: string, report: Report): Rows {
    var found := Find(rows, key);
    if report.ok || found.None? then rows
    else Update(rows, found.value.(core := found.value.core.(status := Stale, staleReason := Some("verify:" + Classify(report.codes)))))
  }

  /** `apply_fix`. */
  method ApplyFix(store: CatalogStore, key: string, report: Report) returns (acted: bool)
    requires Valid(store.rows)
    modifies store
    ensures store.rows == Fixed(old(store.rows), key, report)
    ensures acted <==> !report.ok && Find(old(store.rows), key).Some?
  {
    if report.ok { return false; }
    var found := ResolveArtifact(store, key);
    if found.None? { return false; }
    var record := found.value;
    record := record.(core := record.core.(status := Stale, staleReason := Some("verify:" + Classify(report.codes))));
    store.UpdateArtifact(record);
    acted := true;
  }

  // ----- verifying what was just built -----

  lemma {:induction false} FingerprintSeesOverrides(hash: Hash, p: Profile, s: Stack, overrides: map<string, string>, inputs: Inputs)
    requires Injective(hash)
    ensures Fingerprint(hash, p, s, inputs) == Fingerprint(hash, p, s.(policyOverrides := overrides), inputs)
      <==> overrides == s.policyOverrides
  {
    var t := s.(policyOverrides := overrides);
    assert CanonicalStack(t) == CanonicalStack(s).(policyOverrides := overrides);
    assert Canonicalize(p, t, inputs) == Canonicalize(p, s, inputs).(stack := CanonicalStack(t));
  }

  lemma {:induction false} PlanParts(c: Context, p: Profile, s: Stack, o: Options, plan: Plan)
    requires Resolved(c, p, s, o, plan)
    ensures plan.fingerprint == Fingerprint(c.hash, p, WithHints(s, DecisionOf(p, o)), InputsOf(c, o, plan.baseImage))
    ensures plan.baseDigest == o.baseDigest
  {
  }

  lemma {:induction false} PlanVariants(c: Context, p: Profile, s: Stack, o: Options, plan: Plan, record: Record)
    requires Resolved(c, p, s, o, plan) && Faithful(c.codec) && record.core.variantJson == None
    ensures StoredVariants(c.codec, plan.labels, record) == Some(o.variants)
  {
    var d := DecisionOf(p, o);
    PlanLabelsAre(c, p, s, o, plan);
    LabelsRead(c, p, WithHints(s, d), o, d, plan.fingerprint);
    VariantsRead(c.codec, plan.labels, o.variants, record);
  }

  lemma {:induction false} VariantsRead(codec: VariantCodec, labels: LabelMap, variants: Variants, record: Record)
    requires Faithful(codec) && record.core.variantJson == None
    requires if variants == map[] then VariantsKey !in labels else VariantsKey in labels && labels[VariantsKey] == codec.encode(variants)
    ensures StoredVariants(codec, labels, record) == Some(variants)
  {
  }

  /** The record as an execution of the plan leaves it. */
  ghost predicate BuiltFrom(plan: Plan, record: Record) {
    && record.core.status == Built && record.core.fingerprint == plan.fingerprint && record.core.baseImage == plan.baseImage
    && record.core.baseDigest.GetOr("") == plan.baseDigest && record.core.templateHash == None && record.core.variantJson == None
  }

  /** With its own labels and snapshots, the recomputation differs from the plan only by the hints. */
  lemma {:induction false} RecomputedFrom(c: Context, p: Profile, s: Stack, o: Options, plan: Plan, record: Record, files: Snapshots)
    requires Resolved(c, p, s, o, plan) && Faithful(c.codec) && BuiltFrom(plan, record)
    requires files.profile == Some(p) && files.stack == Some(s)
    ensures Recompute(c, plan.labels, record, files) == Some(Fingerprint(c.hash, p, s, InputsOf(c, o, plan.baseImage)))
  {
    PlanLabels(c, p, s, o, plan);
    PlanVariants(c, p, s, o, plan, record);
  }

  lemma {:induction false} NoLabelMissing(c: Context, p: Profile, s: Stack, o: Options, plan: Plan)
    requires Resolved(c, p, s, o, plan)
    ensures Missing(plan.labels, REQUIRED) == [] && !LabelConflicts(plan.labels, plan.fingerprint)
  {
    var d := DecisionOf(p, o);
    PlanLabelsAre(c, p, s, o, plan);
    LabelsRead(c, p, WithHints(s, d), o, d, plan.fingerprint);
    StackLabelled(c, p, WithHints(s, d), o, d, plan.fingerprint);
    NoneMissing(plan.labels, REQUIRED);
  }

  lemma {:induction false} StackLabelled(c: Context, p: Profile, s: Stack, o: Options, d: Compatibility.Decision, fp: string)
    ensures StackId in LabelsFor(c, p, s, o, d, fp)
  {
    assert StackId in IdentityLabels(c, p, s, o, fp);
  }

  lemma {:induction false} NoneMissing(labels: LabelMap, keys: seq<LabelKey>)
    requires forall k :: k in keys ==> k in labels
    ensures Missing(labels, keys) == []
  {
    if keys != [] {
      NoneMissing(labels, keys[1..]);
    }
  }

  /** A record built from a plan, checked with the plan's labels and the snapshots of the plan's inputs. */
  lemma {:induction false} BuiltRecordVerifiesIff(c: Context, p: Profile, s: Stack, o: Options, plan: Plan, record: Record, files: Snapshots, strict: bool)
    requires Injective(c.hash) && Faithful(c.codec) && Resolved(c, p, s, o, plan) && BuiltFrom(plan, record)
    requires files.profile == Some(p) && files.stack == Some(s) && (strict ==> files.manifest && files.plan)
    ensures var r := CheckRecord(c, record, plan.labels, files, strict);
      && (r.recomputed == Some(record.core.fingerprint) <==> HintsAgree(s, DecisionOf(p, o)))
      && (r.ok <==> HintsAgree(s, DecisionOf(p, o)))
      && (r.codes == if r.ok then [] else [RecomputeDiverged])
  {
    var d := DecisionOf(p, o);
    HintsChangeIff(s, d);
    PlanParts(c, p, s, o, plan);
    RecomputedFrom(c, p, s, o, plan, record, files);
    NoLabelMissing(c, p, s, o, plan);
    FingerprintSeesOverrides(c.hash, p, s, WithHints(s, d).policyOverrides, InputsOf(c, o, plan.baseImage));
  }

  lemma {:induction false} RowBuiltFrom(rows: Rows, plan: Plan, e: Effects, id: string, now: int)
    requires Valid(rows) && Inserts(rows, plan, e, id, now) && Succeeds(plan, e)
    ensures var out := Build(rows, plan, e, id, now).rows;
      && Valid(out) && id in out && Find(out, plan.tag) == Some(ToRecord(out[id])) && BuiltFrom(plan, ToRecord(out[id]))
  {
    var r := MakeRecord(plan, id, now).value;
    MadeRecord(plan, id, now);
    OwnRowSettles(rows, plan, e, id, now);
    StoredRow(rows, plan, e, id, now);
    FinishKeepsInputs(plan, r, e);
    WrittenRow(Cleared(rows, plan), r, Finish(plan, r, e).record);
  }

  lemma {:induction false} ReportOnBuilt(c: Context, rows: Rows, key: string, record: Record, labels: LabelMap, files: Snapshots, strict: bool)
    requires Find(rows, key) == Some(record) && record.core.status == Built
    ensures VerifyReport(c, rows, key, Some(labels), files, strict) == CheckRecord(c, record, labels, files, strict)
  {
  }

  /** The snapshots in the artifact's directory after a build for `p` and `s`. */
  ghost function LeftBehind(rows: Rows, files: Files, plan: Plan, p: Profile, s: Stack, e: Effects, id: string, now: int): Snapshots {
    DirOf(BuildFiles(rows, files, plan, p, s, e, id, now), plan.fingerprint)
  }

  lemma {:induction false} SnapshotsLeft(rows: Rows, files: Files, plan: Plan, p: Profile, s: Stack, e: Effects, id: string, now: int)
    requires Inserts(rows, plan, e, id, now) && Succeeds(plan, e)
    ensures var left := LeftBehind(rows, files, plan, p, s, e, id, now);
      && (e.snapshots.Some? ==> left.profile == Some(p) && left.stack == Some(s) && left.plan)
      && (e.manifest.Some? ==> left.manifest)
      && (e.snapshots.None? ==> left.profile == DirOf(files, plan.fingerprint).profile && left.stack == DirOf(files, plan.fingerprint).stack)
  {
  }

  /** The verification of a freshly built artifact under its own tag. */
  ghost function FreshReport(c: Context, rows: Rows, files: Files, plan: Plan, p: Profile, s: Stack, e: Effects, id: string, now: int, strict: bool): Report {
    VerifyReport(c, Build(rows, plan, e, id, now).rows, plan.tag, Some(plan.labels), LeftBehind(rows, files, plan, p, s, e, id, now), strict)
  }

  lemma {:induction false} FreshReportIs(c: Context, rows: Rows, files: Files, plan: Plan, p: Profile, s: Stack, e: Effects, id: string, now: int, strict: bool)
    requires Valid(rows) && Inserts(rows, plan, e, id, now) && Succeeds(plan, e)
    ensures id in Build(rows, plan, e, id, now).rows
    ensures FreshReport(c, rows, files, plan, p, s, e, id, now, strict)
      == CheckRecord(c, ToRecord(Build(rows, plan, e, id, now).rows[id]), plan.labels, LeftBehind(rows, files, plan, p, s, e, id, now), strict)
  {
    RowBuiltFrom(rows, plan, e, id, now);
    var out := Build(rows, plan, e, id, now).rows;
    ReportOnBuilt(c, out, plan.tag, ToRecord(out[id]), plan.labels, LeftBehind(rows, files, plan, p, s, e, id, now), strict);
  }

  /**
   Right after a successful build whose captures succeeded, verification recomputes the
   catalog's fingerprint, and passes, exactly when the tuple hints changed no policy
   override: the plan hashes the hinted stack, while the executor snapshots the stack it
   was called with.
   */
  lemma {:induction false} FreshBuildVerifiesIff(c: Context, p: Profile, s: Stack, o: Options, plan: Plan,
                                                 rows: Rows, files: Files, e: Effects, id: string, now: int, strict: bool)
    requires Injective(c.hash) && Faithful(c.codec) && Resolved(c, p, s, o, plan)
    requires Valid(rows) && Inserts(rows, plan, e, id, now) && Succeeds(plan, e)
    requires e.snapshots.Some? && (strict ==> e.manifest.Some?)
    ensures var r := FreshReport(c, rows, files, plan, p, s, e, id, now, strict);
      && (r.recomputed == Some(plan.fingerprint) <==> HintsAgree(s, DecisionOf(p, o)))
      && (r.ok <==> HintsAgree(s, DecisionOf(p, o)))
      && (r.codes == if r.ok then [] else [RecomputeDiverged])
  {
    RowBuiltFrom(rows, plan, e, id, now);
    FreshReportIs(c, rows, files, plan, p, s, e, id, now, strict);
    SnapshotsLeft(rows, files, plan, p, s, e, id, now);
    BuiltRecordVerifiesIff(c, p, s, o, plan, ToRecord(Build(rows, plan, e, id, now).rows[id]), LeftBehind(rows, files, plan, p, s, e, id, now), strict);
  }

  lemma {:induction false} NothingToRecompute(c: Context, record: Record, labels: LabelMap, files: Snapshots)
    requires files.stack.None? && Missing(labels, REQUIRED) == [] && !LabelConflicts(labels, record.core.fingerprint)
    ensures CheckRecord(c, record, labels, files, false).ok && CheckRecord(c, record, labels, files, false).recomputed.None?
  {
  }

  /** A failed capture hides the mismatch: without snapshots the lenient verification passes whatever the hints changed. */
  lemma {:induction false} UncapturedBuildPasses(c: Context, p: Profile, s: Stack, o: Options, plan: Plan,
                                                 rows: Rows, files: Files, e: Effects, id: string, now: int)
    requires Resolved(c, p, s, o, plan) && Valid(rows) && Inserts(rows, plan, e, id, now) && Succeeds(plan, e)
    requires e.snapshots.None? && plan.fingerprint !in files
    ensures FreshReport(c, rows, files, plan, p, s, e, id, now, false).ok
    ensures FreshReport(c, rows, files, plan, p, s, e, id, now, false).recomputed.None?
  {
    RowBuiltFrom(rows, plan, e, id, now);
    FreshReportIs(c, rows, files, plan, p, s, e, id, now, false);
    SnapshotsLeft(rows, files, plan, p, s, e, id, now);
    NoLabelMissing(c, p, s, o, plan);
    NothingToRecompute(c, ToRecord(Build(rows, plan, e, id, now).rows[id]), plan.labels, LeftBehind(rows, files, plan, p, s, e, id, now));
  }

  /** End to end: after building, capturing, verifying and fixing, the artifact is still built exactly when the hints changed nothing. */
  lemma {:induction false} VerifyFixAfterBuild(c: Context, p: Profile, s: Stack, o: Options, plan: Plan,
                                               rows: Rows, files: Files, e: Effects, id: string, now: int)
    requires Injective(c.hash) && Faithful(c.codec) && Resolved(c, p, s, o, plan)
    requires Valid(rows) && Inserts(rows, plan, e, id, now) && Succeeds(plan, e) && e.snapshots.Some?
    ensures var out := Build(rows, plan, e, id, now).rows;
      FixOutcome(out, Fixed(out, plan.tag, FreshReport(c, rows, files, plan, p, s, e, id, now, false)), id, HintsAgree(s, DecisionOf(p, o)))
  {
    RowBuiltFrom(rows, plan, e, id, now);
    FreshBuildVerifiesIff(c, p, s, o, plan, rows, files, e, id, now, false);
    FixOf(Build(rows, plan, e, id, now).rows, plan.tag, id, FreshReport(c, rows, files, plan, p, s, e, id, now, false));
  }

  /** Nothing happens to an artifact that verifies; any other becomes stale for a fingerprint mismatch. */
  ghost predicate FixOutcome(before: Rows, after: Rows, id: string, agrees: bool) {
    && id in after
    && (agrees ==> after == before && after[id].core.status == Built)
    && (!agrees ==> after[id].core.status == Stale && after[id].core.staleReason == Some("verify:" + "fingerprint_mismatch"))
  }

  lemma {:induction false} FixOf(rows: Rows, key: string, id: string, report: Report)
    requires Valid(rows) && id in rows && Find(rows, key) == Some(ToRecord(rows[id])) && rows[id].core.status == Built
    requires report.codes == if report.ok then [] else [RecomputeDiverged]
    ensures FixOutcome(rows, Fixed(rows, key, report), id, report.ok)
  {
    FixedRow(rows, key, id, report);
    if !report.ok { ClassifyDiverged(report.codes); }
  }

  lemma {:induction false} ClassifyDiverged(codes: seq<Code>)
    requires codes == [RecomputeDiverged]
    ensures Classify(codes) == "fingerprint_mismatch"
  {
    assert codes[0] in codes;
  }

  lemma {:induction false} FixedRow(rows: Rows, key: string, id: string, report: Report)
    requires Valid(rows) && id in rows && Find(rows, key) == Some(ToRecord(rows[id]))
    ensures id in Fixed(rows, key, report)
    ensures report.ok ==> Fixed(rows, key, report) == rows
    ensures !report.ok ==> Fixed(rows, key, report)[id].core.status == Stale
    ensures !report.ok ==> Fixed(rows, key, report)[id].core.staleReason == Some("verify:" + Classify(report.codes))
  {
  }
}
