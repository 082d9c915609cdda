/** When verification passes, and what a failing report says, in terms of record, labels and files. */
module VerifyReports {
  import opened Basics
  import opened Specs
  import opened Profiles
  import opened Hashing
  import opened Labels
  import opened Catalog
  import opened Resolver
  import opened Executor
  import opened Verify

  /** The record is built and its image is there to look at. */
  predicate Checkable(record: Record, image: Option<LabelMap>) { record.core.status == Built && image.Some? }

  predicate HasRequiredLabels(labels: LabelMap) {
    && ProfileId in labels && StackId in labels && FingerprintKey in labels && BaseDigest in labels
    && TemplateHash in labels && BuilderVersion in labels
  }

  /** A fingerprint label says something else than `fp`. */
  predicate LabelSaysOther(labels: LabelMap, fp: string) {
    FingerprintKey in labels && labels[FingerprintKey] != "" && labels[FingerprintKey] != fp
  }

  predicate AllFiles(files: Snapshots) { files.profile.Some? && files.stack.Some? && files.manifest && files.plan }

  /** The recomputation contradicts the catalog or the label. */
  predicate Diverges(labels: LabelMap, fp: string, recomputed: Option<string>) {
    recomputed.Some? && (recomputed.value != fp || LabelSaysOther(labels, recomputed.value))
  }

  lemma {:induction false} LabelSays(labels: LabelMap, fp: string)
    ensures LabelConflicts(labels, fp) <==> LabelSaysOther(labels, fp)
  {
  }

  lemma {:induction false} MissingMember(labels: LabelMap, keys: seq<LabelKey>, p: Problem)
    ensures p in Missing(labels, keys) <==> p.NoLabel? && p.key in keys && p.key !in labels
  {
    if keys != [] {
      MissingMember(labels, keys[1..], p);
      assert keys == [keys[0]] + keys[1..];
    }
  }

  lemma {:induction false} RequiredMember(key: LabelKey)
    ensures key in REQUIRED <==> key in {ProfileId, StackId, FingerprintKey, BaseDigest, TemplateHash, BuilderVersion}
  {
    assert REQUIRED[0] == ProfileId && REQUIRED[1] == StackId && REQUIRED[2] == FingerprintKey;
    assert REQUIRED[3] == BaseDigest && REQUIRED[4] == TemplateHash && REQUIRED[5] == BuilderVersion;
  }

  lemma {:induction false} NothingMissingIff(labels: LabelMap)
    ensures Missing(labels, REQUIRED) == [] <==> HasRequiredLabels(labels)
  {
    var missing := Missing(labels, REQUIRED);
    if missing != [] {
      MissingMember(labels, REQUIRED, missing[0]);
      RequiredMember(missing[0].key);
    } else {
      forall key | key in REQUIRED ensures key in labels { MissingMember(labels, REQUIRED, NoLabel(key)); }
      RequiredMember(ProfileId);
      RequiredMember(StackId);
      RequiredMember(FingerprintKey);
      RequiredMember(BaseDigest);
      RequiredMember(TemplateHash);
      RequiredMember(BuilderVersion);
    }
  }

  predicate FileGone(files: Snapshots, name: string) {
    || (name == "profile.json" && files.profile.None?) || (name == "stack.json" && files.stack.None?)
    || (name == "manifest.json" && !files.manifest) || (name == "plan.json" && !files.plan)
  }

  lemma {:induction false} GoneMember(files: Snapshots, name: string)
    ensures name in Gone(files) <==> FileGone(files, name)
    ensures Gone(files) == [] <==> AllFiles(files)
  {
    var parts := [if files.profile.Some? then [] else ["profile.json"], if files.stack.Some? then [] else ["stack.json"],
                  if files.manifest then [] else ["manifest.json"], if files.plan then [] else ["plan.json"]];
    assert Gone(files) == parts[0] + parts[1] + parts[2] + parts[3];
    assert name in Gone(files) <==> name in parts[0] || name in parts[1] || name in parts[2] || name in parts[3];
  }

  lemma {:induction false} ProblemMember(files: Snapshots, p: Problem)
    ensures p in GoneProblems(Gone(files)) <==> p.NoSnapshot? && FileGone(files, p.name)
    ensures GoneProblems(Gone(files)) == [] <==> AllFiles(files)
  {
    var names := Gone(files);
    GoneMember(files, if p.NoSnapshot? then p.name else "");
    if p in GoneProblems(names) {
      var i :| 0 <= i < |names| && GoneProblems(names)[i] == p;
      assert names[i] in names;
    }
    if p.NoSnapshot? && p.name in names {
      var i :| 0 <= i < |names| && names[i] == p.name;
      assert GoneProblems(names)[i] == p;
    }
  }

  lemma {:induction false} DivergenceIs(labels: LabelMap, fp: string, recomputed: Option<string>)
    ensures RecomputeProblems(labels, fp, recomputed) != [] <==> Diverges(labels, fp, recomputed)
    ensures DiffersFromLabel in RecomputeProblems(labels, fp, recomputed) <==> recomputed.Some? && LabelSaysOther(labels, recomputed.value)
    ensures DiffersFromCatalog in RecomputeProblems(labels, fp, recomputed) <==> recomputed.Some? && recomputed.value != fp
    ensures forall p :: p in RecomputeProblems(labels, fp, recomputed) ==> p == DiffersFromLabel || p == DiffersFromCatalog
  {
  }

  // ----- one record -----

  function CodeList(unlabelled: bool, differs: bool, diverges: bool): seq<Code> {
    (if unlabelled then [LabelMissing] else []) + (if differs then [FingerprintMismatch] else []) + (if diverges then [RecomputeDiverged] else [])
  }

  /** What `CheckRecord` finds in order. */
  lemma {:induction false} RecordReportIs(c: Context, record: Record, labels: LabelMap, files: Snapshots, strict: bool)
    ensures var r, fp, recomputed := CheckRecord(c, record, labels, files, strict), record.core.fingerprint, Recompute(c, labels, record, files);
      && r.errors == Missing(labels, REQUIRED) + (if LabelSaysOther(labels, fp) then [LabelDiffers] else [])
                     + (if strict then GoneProblems(Gone(files)) else []) + RecomputeProblems(labels, fp, recomputed)
      && r.codes == CodeList(!HasRequiredLabels(labels), LabelSaysOther(labels, fp), Diverges(labels, fp, recomputed))
      && r.warnings == (if strict then [] else Gone(files)) + (if recomputed.None? then ["not recomputed"] else [])
      && (r.ok <==> r.errors == []) && r.recomputed == recomputed && r.catalogFp == Some(fp)
  {
    var recomputed := Recompute(c, labels, record, files);
    LabelSays(labels, record.core.fingerprint);
    NothingMissingIff(labels);
    DivergenceIs(labels, record.core.fingerprint, recomputed);
  }

  /** Labels and files agree with the record. */
  predicate Agrees(c: Context, record: Record, labels: LabelMap, files: Snapshots, strict: bool) {
    && HasRequiredLabels(labels) && !LabelSaysOther(labels, record.core.fingerprint) && (strict ==> AllFiles(files))
    && !Diverges(labels, record.core.fingerprint, Recompute(c, labels, record, files))
  }

  lemma {:induction false} RecordPassesIff(c: Context, record: Record, labels: LabelMap, files: Snapshots, strict: bool)
    ensures CheckRecord(c, record, labels, files, strict).ok <==> Agrees(c, record, labels, files, strict)
  {
    RecordReportIs(c, record, labels, files, strict);
    NothingMissingIff(labels);
    ProblemMember(files, NoRecord);
    DivergenceIs(labels, record.core.fingerprint, Recompute(c, labels, record, files));
  }

  lemma {:induction false} AnyOf<T>(x: T, a: seq<T>, b: seq<T>, c: seq<T>, d: seq<T>)
    ensures x in a + b + c + d <==> x in a || x in b || x in c || x in d
  {
  }

  lemma {:induction false} ErrorIn(c: Context, record: Record, labels: LabelMap, files: Snapshots, strict: bool, p: Problem)
    ensures p in CheckRecord(c, record, labels, files, strict).errors <==>
      || (p.NoLabel? && p.key in REQUIRED && p.key !in labels)
      || (p == LabelDiffers && LabelSaysOther(labels, record.core.fingerprint))
      || (p.NoSnapshot? && strict && FileGone(files, p.name))
      || p in RecomputeProblems(labels, record.core.fingerprint, Recompute(c, labels, record, files))
  {
    RecordReportIs(c, record, labels, files, strict);
    MissingMember(labels, REQUIRED, p);
    ProblemMember(files, p);
    AnyOf(p, Missing(labels, REQUIRED), if LabelSaysOther(labels, record.core.fingerprint) then [LabelDiffers] else [],
          if strict then GoneProblems(Gone(files)) else [],
          RecomputeProblems(labels, record.core.fingerprint, Recompute(c, labels, record, files)));
  }

  /** When each problem is listed among the errors. */
  lemma {:induction false} ErrorsAre(c: Context, record: Record, labels: LabelMap, files: Snapshots, strict: bool, key: LabelKey, name: string)
    ensures var r, fp, recomputed := CheckRecord(c, record, labels, files, strict), record.core.fingerprint, Recompute(c, labels, record, files);
      && (NoLabel(key) in r.errors <==> key in {ProfileId, StackId, FingerprintKey, BaseDigest, TemplateHash, BuilderVersion} && key !in labels)
      && (LabelDiffers in r.errors <==> LabelSaysOther(labels, fp))
      && (NoSnapshot(name) in r.errors <==> strict && FileGone(files, name))
      && (DiffersFromLabel in r.errors <==> recomputed.Some? && LabelSaysOther(labels, recomputed.value))
      && (DiffersFromCatalog in r.errors <==> recomputed.Some? && recomputed.value != fp)
  {
    DivergenceIs(labels, record.core.fingerprint, Recompute(c, labels, record, files));
    RequiredMember(key);
    ErrorIn(c, record, labels, files, strict, NoLabel(key));
    ErrorIn(c, record, labels, files, strict, LabelDiffers);
    ErrorIn(c, record, labels, files, strict, NoSnapshot(name));
    ErrorIn(c, record, labels, files, strict, DiffersFromLabel);
    ErrorIn(c, record, labels, files, strict, DiffersFromCatalog);
  }

  /** Without strictness missing files are warned about, and so is a recomputation that could not be made. */
  lemma {:induction false} WarningsAre(c: Context, record: Record, labels: LabelMap, files: Snapshots, strict: bool, name: string)
    ensures var r := CheckRecord(c, record, labels, files, strict);
      && (name != "not recomputed" ==> (name in r.warnings <==> !strict && FileGone(files, name)))
      && ("not recomputed" in r.warnings <==> Recompute(c, labels, record, files).None?)
  {
    RecordReportIs(c, record, labels, files, strict);
    GoneMember(files, name);
    GoneMember(files, "not recomputed");
    assert "not recomputed"[0] == 'n' && "profile.json"[0] == 'p' && "stack.json"[0] == 's' && "manifest.json"[0] == 'm' && "plan.json"[0] == 'p';
  }

  lemma {:induction false} CodeListed(unlabelled: bool, differs: bool, diverges: bool)
    ensures var codes := CodeList(unlabelled, differs, diverges);
      && CatalogMissing !in codes && ImageMissing !in codes && (LabelMissing in codes <==> unlabelled)
      && (FingerprintMismatch in codes <==> differs) && (RecomputeDiverged in codes <==> diverges)
  {
  }

  lemma {:induction false} RecordCodesAre(c: Context, record: Record, labels: LabelMap, files: Snapshots, strict: bool)
    ensures var codes, fp := CheckRecord(c, record, labels, files, strict).codes, record.core.fingerprint;
      && CatalogMissing !in codes && ImageMissing !in codes && (LabelMissing in codes <==> !HasRequiredLabels(labels))
      && (FingerprintMismatch in codes <==> LabelSaysOther(labels, fp))
      && (RecomputeDiverged in codes <==> Diverges(labels, fp, Recompute(c, labels, record, files)))
  {
    var fp, recomputed := record.core.fingerprint, Recompute(c, labels, record, files);
    RecordReportIs(c, record, labels, files, strict);
    CodeListed(!HasRequiredLabels(labels), LabelSaysOther(labels, fp), Diverges(labels, fp, recomputed));
  }

  // ----- all reports -----

  lemma {:induction false} ReportOf(c: Context, rows: Rows, key: string, image: Option<LabelMap>, files: Snapshots, strict: bool)
    ensures var r, found := VerifyReport(c, rows, key, image, files, strict), Find(rows, key);
      && (found.None? ==> !r.ok && r.errors == [NoRecord] && r.codes == [CatalogMissing])
      && (found.Some? && found.value.core.status != Built ==> !r.ok && r.errors == [NotBuilt(found.value.core.status)] && r.codes == [ImageMissing])
      && (found.Some? && found.value.core.status == Built && image.None? ==> !r.ok && r.errors == [NoImage] && r.codes == [ImageMissing])
      && (found.Some? && Checkable(found.value, image) ==> r == CheckRecord(c, found.value, image.value, files, strict))
  {
  }

  /** The record is found, and its image is there to check. */
  ghost predicate Reached(rows: Rows, key: string, image: Option<LabelMap>) { Find(rows, key).Some? && Checkable(Find(rows, key).value, image) }

  /**
   Verification passes exactly when the record is found and built, its image is there with
   every required label, no non-empty fingerprint label differs from the catalog, strictness
   misses no file, and a recomputation agrees with catalog and label.
   */
  lemma {:induction false} PassesIff(c: Context, rows: Rows, key: string, image: Option<LabelMap>, files: Snapshots, strict: bool)
    ensures VerifyReport(c, rows, key, image, files, strict).ok
      <==> Reached(rows, key, image) && Agrees(c, Find(rows, key).value, image.value, files, strict)
  {
    ReportOf(c, rows, key, image, files, strict);
    if Reached(rows, key, image) {
      RecordPassesIff(c, Find(rows, key).value, image.value, files, strict);
    }
  }

  /** When each code occurs. */
  lemma {:induction false} CodesAre(c: Context, rows: Rows, key: string, image: Option<LabelMap>, files: Snapshots, strict: bool)
    ensures var codes, found := VerifyReport(c, rows, key, image, files, strict).codes, Find(rows, key);
      && (CatalogMissing in codes <==> found.None?)
      && (ImageMissing in codes <==> found.Some? && !Checkable(found.value, image))
      && (LabelMissing in codes <==> Reached(rows, key, image) && !HasRequiredLabels(image.value))
      && (FingerprintMismatch in codes <==> Reached(rows, key, image) && LabelSaysOther(image.value, found.value.core.fingerprint))
      && (RecomputeDiverged in codes <==>
            Reached(rows, key, image) && Diverges(image.value, found.value.core.fingerprint, Recompute(c, image.value, found.value, files)))
  {
    ReportOf(c, rows, key, image, files, strict);
    if Reached(rows, key, image) {
      RecordCodesAre(c, Find(rows, key).value, image.value, files, strict);
    }
  }

  /** A record that is not found, not built, or without its image is reported as just that. */
  lemma {:induction false} UnreachedReport(c: Context, rows: Rows, key: string, image: Option<LabelMap>, files: Snapshots, strict: bool)
    requires !Reached(rows, key, image)
    ensures var r, found := VerifyReport(c, rows, key, image, files, strict), Find(rows, key);
      && (found.None? ==> r.errors == [NoRecord])
      && (found.Some? && found.value.core.status != Built ==> r.errors == [NotBuilt(found.value.core.status)])
      && (found.Some? && found.value.core.status == Built ==> r.errors == [NoImage])
      && r.warnings == []
  {
  }

  /** The fingerprints a report shows: the catalog's of every built record, the label's and the recomputed one of every image looked at. */
  lemma {:induction false} FingerprintsShown(c: Context, rows: Rows, key: string, image: Option<LabelMap>, files: Snapshots, strict: bool, fp: string)
    ensures var r, found := VerifyReport(c, rows, key, image, files, strict), Find(rows, key);
      && (r.catalogFp == Some(fp) <==> found.Some? && found.value.core.status == Built && found.value.core.fingerprint == fp)
      && (r.labelFp == Some(fp) <==> Reached(rows, key, image) && FingerprintKey in image.value && image.value[FingerprintKey] == fp)
      && (r.recomputed == Some(fp) <==> Reached(rows, key, image) && Recompute(c, image.value, found.value, files) == Some(fp))
  {
  }

  // ----- what is looked up and recomputed -----

  /** The key is tried as a tag, then as a fingerprint, then as an id. */
  lemma {:induction false} FoundBy(rows: Rows, key: string, id: string)
    requires Valid(rows)
    ensures id in rows && rows[id].core.tag == key ==> Find(rows, key) == Some(ToRecord(rows[id]))
    ensures id in rows && rows[id].core.fingerprint == key && !TagTaken(rows, key) ==> Find(rows, key) == Some(ToRecord(rows[id]))
    ensures key in rows && !TagTaken(rows, key) && !FingerprintTaken(rows, key) ==> Find(rows, key) == Some(ToRecord(rows[key]))
    ensures Find(rows, key).None? <==> !TagTaken(rows, key) && !FingerprintTaken(rows, key) && key !in rows
  {
    if id in rows { LookupUnique(rows, id); }
  }

  /** A non-empty label, or else what the record says, or else nothing. */
  predicate LabelFirst(value: string, shown: string, recorded: Option<string>) {
    (shown != "" ==> value == shown) && (shown == "" ==> value == recorded.GetOr(""))
  }

  /** The record's base image, and digest, template hash and builder version from the labels where these have them. */
  predicate InputsFrom(c: Context, labels: LabelMap, record: Record, inputs: Inputs) {
    && inputs.baseImage == record.core.baseImage && Some(inputs.variants) == StoredVariants(c.codec, labels, record)
    && LabelFirst(inputs.baseDigest, Get(labels, BaseDigest), record.core.baseDigest)
    && LabelFirst(inputs.templateHash, Get(labels, TemplateHash), record.core.templateHash)
    && LabelFirst(inputs.builderVersion, Get(labels, BuilderVersion), Some(c.builderVersion))
  }

  /** The recomputation hashes the stored profile and stack with those inputs, whenever it can. */
  lemma {:induction false} RecomputedFromFiles(c: Context, labels: LabelMap, record: Record, files: Snapshots, inputs: Inputs)
    ensures Recompute(c, labels, record, files).None?
      <==> files.profile.None? || files.stack.None? || StoredVariants(c.codec, labels, record).None?
    ensures InputsFrom(c, labels, record, inputs) && files.profile.Some? && files.stack.Some? ==>
      Recompute(c, labels, record, files) == Some(Fingerprint(c.hash, files.profile.value, files.stack.value, inputs))
  {
  }

  /** The variants come from the label, without one from the record, without either there are none. */
  lemma {:induction false} VariantsFrom(codec: VariantCodec, labels: LabelMap, record: Record)
    ensures Get(labels, VariantsKey) != "" ==> StoredVariants(codec, labels, record) == codec.decode(Get(labels, VariantsKey))
    ensures Get(labels, VariantsKey) == "" && record.core.variantJson.GetOr("") != "" ==>
      StoredVariants(codec, labels, record) == codec.decode(record.core.variantJson.GetOr(""))
    ensures Get(labels, VariantsKey) == "" && record.core.variantJson.GetOr("") == "" ==> StoredVariants(codec, labels, record) == Some(map[])
  {
  }

  // ----- the reason a fix records -----

  /** The gravest codes first: a fingerprint, labels, the image, the record. */
  const GRAVE := [{RecomputeDiverged, FingerprintMismatch}, {LabelMissing}, {ImageMissing}, {CatalogMissing}]
  const REASONS := ["fingerprint_mismatch", "MISSING_LABELS", "IMAGE_MISSING", "CATALOG_MISSING", "VERIFICATION_FAILED"]

  /** `k` is the rank of the gravest code, the last rank where there is none. */
  predicate Gravest(codes: seq<Code>, k: nat) {
    k <= 4 && (k < 4 ==> exists code :: code in GRAVE[k] && code in codes) && forall j, code :: 0 <= j < k && code in GRAVE[j] ==> code !in codes
  }

  /** The reason names the gravest code. */
  lemma {:induction false} ReasonIs(codes: seq<Code>, k: nat)
    requires Gravest(codes, k)
    ensures Classify(codes) == REASONS[k]
  {
    assert RecomputeDiverged in GRAVE[0] && FingerprintMismatch in GRAVE[0] && LabelMissing in GRAVE[1] && ImageMissing in GRAVE[2] && CatalogMissing in GRAVE[3];
  }

  /** A report that fails marks the found row stale under that reason, and touches no other row. */
  lemma {:induction false} FixMarks(rows: Rows, key: string, id: string, other: string, report: Report)
    requires Valid(rows) && id in rows && rows[id].core.tag == key && !report.ok && other in rows && other != id
    ensures var fixed := Fixed(rows, key, report);
      && id in fixed && fixed[id].core.status == Stale && fixed[id].core.staleReason == Some("verify:" + Classify(report.codes))
      && other in fixed && fixed[other] == rows[other]
  {
    FoundBy(rows, key, id);
  }

  /** An image whose fingerprint label contradicts the record is reported and, with a fix, its row becomes stale. */
  lemma {:induction false} WrongLabelIsFixed(c: Context, rows: Rows, id: string, labels: LabelMap, files: Snapshots, strict: bool)
    requires Valid(rows) && id in rows && rows[id].core.status == Built && LabelSaysOther(labels, rows[id].core.fingerprint)
    ensures var key := rows[id].core.tag;
      var report := VerifyReport(c, rows, key, Some(labels), files, strict);
      && !report.ok && FingerprintMismatch in report.codes
      && id in Fixed(rows, key, report) && Fixed(rows, key, report)[id].core.status == Stale
      && Fixed(rows, key, report)[id].core.staleReason == Some("verify:" + "fingerprint_mismatch")
  {
    var key := rows[id].core.tag;
    var report := VerifyReport(c, rows, key, Some(labels), files, strict);
    FoundBy(rows, key, id);
    PassesIff(c, rows, key, Some(labels), files, strict);
    CodesAre(c, rows, key, Some(labels), files, strict);
    assert FingerprintMismatch in GRAVE[0];
    ReasonIs(report.codes, 0);
  }
}
