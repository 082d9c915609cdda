/** Executing a plan: the freshness check, the row's life from building to its final status, and hooks. */
module Executor {
  import opened Basics
  import opened Specs
  import opened Profiles
  import opened Labels
  import opened Catalog
  import opened Resolver
  import opened Drift

  // ----- the record a plan gives rise to -----

  /** `int(text or "1")`. */
  function LabelInt(text: string): Option<int> { ReadInt(if text == "" then "1" else text) }

  /** `_make_record`; malformed schema labels raise. Template hash and variants are never filled in. */
  function MakeRecord(plan: Plan, id: string, now: int): Option<Record> {
    var stack := LabelInt(Get(plan.labels, StackSchema));
    var profile := LabelInt(Get(plan.labels, ProfileSchema));
    var layer := LabelInt(LayerLabel(plan.labels, "1"));
    if stack.None? || profile.None? || layer.None? then None
    else Some(Record(
      Core(id, plan.profile, plan.stack, plan.tag, plan.fingerprint, None, None, plan.baseImage,
           if plan.baseDigest == "" then None else Some(plan.baseDigest), plan.builder, None,
           None, None, None, None, None, None, Building, None, None, now),
      Schemas(stack.value, profile.value, layer.value)))
  }

  // ----- is there a usable image? -----

  function ReasonName(r: Reason): string {
    match r
    case FingerprintMismatch => "fingerprint_mismatch"
    case BaseDigestChanged => "base_digest_changed"
    case TemplateHashChanged => "template_hash_changed"
    case StackSchemaChanged => "stack_schema_changed"
    case ProfileSchemaChanged => "profile_schema_changed"
    case BlockSchemaChanged => "block_schema_changed"
    case BuilderVersionChanged => "builder_version_changed"
    case LabelsMissing => "labels_missing"
  }

  function Summary(reasons: seq<Reason>): string {
    if reasons == [] then "" else if |reasons| == 1 then ReasonName(reasons[0]) else ReasonName(reasons[0]) + ", " + Summary(reasons[1..])
  }

  datatype Check = Fresh(record: Record) | Rebuild(rows: Rows) | DriftRaised

  function Aged(r: Record, reason: string): Record { r.(core := r.core.(status := Stale, staleReason := Some(reason))) }

  /** `check_existing`; `image` holds the labels of the image under the plan's tag. */
  ghost function CheckExisting(rows: Rows, image: Option<LabelMap>, plan: Plan, version: string, immutable: bool): Check {
    var record := ByTag(rows, plan.tag);
    match image
    case None =>
      if immutable && record.Some? && record.value.core.status == Built then DriftRaised else Rebuild(rows)
    case Some(labels) =>
      var reasons := Detect(labels, record, plan, version);
      if reasons == [] then if record.Some? then Fresh(record.value) else Rebuild(rows)
      else if immutable then DriftRaised
      else if record.Some? && record.value.core.status == Built then Rebuild(Update(rows, Aged(record.value, Summary(reasons))))
      else Rebuild(rows)
  }

  // ----- what happens around the builder -----

  datatype Outcome = Done(imageId: Option<string>, digest: Option<string>) | RaisedBuildError | RaisedCancel | RaisedOther(detail: string)

  datatype SnapshotPaths = SnapshotPaths(profile: string, stack: string, plan: string)

  /**
   Everything the executor learns while it runs: the answers of the four cancel checks,
   the builder's outcome, the files the captures managed to write, and the hook failures.
   */
  datatype Effects = Effects(
    cancelAtStart: bool, cancelBeforeUpdates: bool, cancelBeforeBuilder: bool, cancelAfterBuilder: bool,
    outcome: Outcome, manifest: Option<string>, optimization: bool, snapshots: Option<SnapshotPaths>, sbom: Option<string>,
    runHooks: bool, hookFailures: seq<string>)

  datatype Exit =
    | Returned(record: Record)
    | Canceled
    | BuildFailed
    | Drifted
    | CatalogFailed
    | LabelsMalformed

  predicate KnownBuilder(name: string) { name == "overlay" || name == "pull" }

  function Lines(words: seq<string>): string {
    if words == [] then "" else if |words| == 1 then words[0] else words[0] + "\n" + Lines(words[1..])
  }

  function FailedWith(r: Record, detail: string): Record {
    r.(core := r.core.(status := Failed, errorDetail := Some(detail)))
  }

  function BuiltAs(r: Record, o: Outcome): Record
    requires o.Done?
  {
    r.(core := r.core.(status := Built, imageId := o.imageId, digest := o.digest))
  }

  /** The capture steps only fill in paths. */
  function Captured(r: Record, e: Effects): Record {
    var withManifest := r.core.(manifestPath := OrElse(e.manifest, r.core.manifestPath));
    var withSnapshots :=
      if e.snapshots.None? then withManifest
      else withManifest.(profileSnapshot := Some(e.snapshots.value.profile),
                         stackSnapshot := Some(e.snapshots.value.stack), planPath := Some(e.snapshots.value.plan));
    r.(core := withSnapshots.(sbomPath := OrElse(e.sbom, withSnapshots.sbomPath)))
  }

  function Hooked(r: Record, e: Effects): Record {
    if e.runHooks && e.hookFailures != [] then FailedWith(r, "Hook failures:\n" + Lines(e.hookFailures)) else r
  }

  datatype Ending = Ending(record: Record, exit: Exit)

  /** From the inserted record to its last value and the way out. */
  function Finish(plan: Plan, r: Record, e: Effects): Ending {
    if !KnownBuilder(plan.builder) then Ending(FailedWith(r, "Unknown builder: " + plan.builder), BuildFailed)
    else if e.cancelBeforeBuilder then Ending(FailedWith(r, "Build canceled before builder execution"), Canceled)
    else
      match e.outcome
      case RaisedBuildError => Ending(r, BuildFailed)
      case RaisedCancel => Ending(r, Canceled)
      case RaisedOther(detail) => Ending(FailedWith(r, detail), BuildFailed)
      case Done(_, _) =>
        var built := BuiltAs(r, e.outcome);
        if e.cancelAfterBuilder then Ending(FailedWith(built, "Build canceled after builder execution"), Canceled)
        else
          var final := Hooked(Captured(built, e), e);
          Ending(final, Returned(final))
  }

  datatype Ended = Ended(rows: Rows, exit: Exit)

  ghost function Cleared(rows: Rows, plan: Plan): Rows {
    var marked := MarkStale(rows, plan.profile, plan.stack, "");
    var previous := IdByFingerprint(marked, plan.fingerprint);
    if previous.Some? then Prune(marked, previous.value) else marked
  }

  /** The part after the freshness check, under the id and time of the new record. */
  ghost function Build(rows: Rows, plan: Plan, e: Effects, id: string, now: int): Ended {
    if e.cancelBeforeUpdates then Ended(rows, Canceled)
    else
      var cleared := Cleared(rows, plan);
      match MakeRecord(plan, id, now)
      case None => Ended(cleared, LabelsMalformed)
      case Some(r) =>
        if Collides(cleared, r) then Ended(cleared, CatalogFailed)
        else
          var ending := Finish(plan, r, e);
          Ended(Update(Insert(cleared, r), ending.record), ending.exit)
  }

  /** `_do_execute`. */
  ghost function Execute(rows: Rows, image: Option<LabelMap>, plan: Plan, version: string, rebuild: bool, immutable: bool,
                         e: Effects, id: string, now: int): Ended {
    if e.cancelAtStart then Ended(rows, Canceled)
    else if rebuild then Build(rows, plan, e, id, now)
    else
      match CheckExisting(rows, image, plan, version, immutable)
      case Fresh(record) => Ended(rows, Returned(record))
      case DriftRaised => Ended(rows, Drifted)
      case Rebuild(checked) => Build(checked, plan, e, id, now)
  }

  // ----- the files it leaves -----

  /** The files of an artifact directory; profile and stack are read back as values. */
  datatype Snapshots = Snapshots(profile: Option<Profile>, stack: Option<Stack>, manifest: bool, plan: bool)

  /** Artifact directories by fingerprint. */
  type Files = map<string, Snapshots>

  function DirOf(files: Files, fp: string): Snapshots { if fp in files then files[fp] else Snapshots(None, None, false, false) }

  /** The manifest and the snapshots of the profile, stack and plan the executor was called with; a failed capture writes nothing. */
  function CapturedFiles(files: Files, fp: string, p: Profile, s: Stack, e: Effects): Files {
    var withManifest := if e.manifest.Some? then files[fp := DirOf(files, fp).(manifest := true)] else files;
    if e.snapshots.None? then withManifest
    else withManifest[fp := DirOf(withManifest, fp).(profile := Some(p), stack := Some(s), plan := true)]
  }

  /** Captures follow only a builder that returned and no cancel after it. */
  predicate Captures(plan: Plan, e: Effects) {
    KnownBuilder(plan.builder) && !e.cancelBeforeBuilder && e.outcome.Done? && !e.cancelAfterBuilder
  }

  function FinishFiles(files: Files, plan: Plan, p: Profile, s: Stack, e: Effects): Files {
    if Captures(plan, e) then CapturedFiles(files, plan.fingerprint, p, s, e) else files
  }

  ghost function BuildFiles(rows: Rows, files: Files, plan: Plan, p: Profile, s: Stack, e: Effects, id: string, now: int): Files {
    if e.cancelBeforeUpdates || MakeRecord(plan, id, now).None? || Collides(Cleared(rows, plan), MakeRecord(plan, id, now).value) then files
    else FinishFiles(files, plan, p, s, e)
  }

  ghost function ExecuteFiles(rows: Rows, files: Files, image: Option<LabelMap>, plan: Plan, p: Profile, s: Stack, version: string,
                              rebuild: bool, immutable: bool, e: Effects, id: string, now: int): Files {
    if e.cancelAtStart then files
    else if rebuild then BuildFiles(rows, files, plan, p, s, e, id, now)
    else
      match CheckExisting(rows, image, plan, version, immutable)
      case Fresh(_) => files
      case DriftRaised => files
      case Rebuild(checked) => BuildFiles(checked, files, plan, p, s, e, id, now)
  }

  // ----- the executor itself -----

  class ArtifactDirs {
    var files: Files

    constructor ()
      ensures files == map[]
    {
      files := map[];
    }

    method SaveManifest(fp: string)
      modifies this
      ensures files == old(files)[fp := DirOf(old(files), fp).(manifest := true)]
    {
      files := files[fp := DirOf(files, fp).(manifest := true)];
    }

    method WriteSnapshots(fp: string, p: Profile, s: Stack)
      modifies this
      ensures files == old(files)[fp := DirOf(old(files), fp).(profile := Some(p), stack := Some(s), plan := true)]
    {
      files := files[fp := DirOf(files, fp).(profile := Some(p), stack := Some(s), plan := true)];
    }
  }

  /** The record object the executor fills in as it goes. */
  class LiveRecord {
    var core: Core
    const schemas: Schemas

    function Value(): Record
      reads this
    {
      Record(core, schemas)
    }

    constructor (r: Record)
      ensures Value() == r
    {
      core, schemas := r.core, r.schemas;
    }
  }

  method CheckForImage(store: CatalogStore, image: Option<LabelMap>, plan: Plan, version: string, immutable: bool) returns (r: Check)
    requires Valid(store.rows)
    modifies store
    ensures r == CheckExisting(old(store.rows), image, plan, version, immutable)
    ensures store.rows == if r.Rebuild? then r.rows else old(store.rows)
  {
    if image.None? {
      if immutable {
        var existing := store.FindByTag(plan.tag);
        if existing.Some? && existing.value.core.status == Built { return DriftRaised; }
      }
      return Rebuild(store.rows);
    }
    var record := store.FindByTag(plan.tag);
    var reasons := DetectDrift(image.value, record, plan, version);
    if reasons == [] {
      if record.Some? { return Fresh(record.value); }
      return Rebuild(store.rows);
    }
    if immutable { return DriftRaised; }
    if record.Some? && record.value.core.status == Built {
      store.UpdateArtifact(Aged(record.value, Summary(reasons)));
    }
    r := Rebuild(store.rows);
  }

  /** A later write of the same record hides the earlier one. */
  lemma {:induction false} UpdateTwice(rows: Rows, r: Record, s: Record)
    requires s.core.id == r.core.id
    ensures Update(Update(rows, r), s) == Update(rows, s)
  {
  }

  lemma {:induction false} UpdateInserted(rows: Rows, r: Record)
    ensures Update(Insert(rows, r), r) == Insert(rows, r)
  {
  }

  method Capture(store: CatalogStore, disk: ArtifactDirs, record: LiveRecord, p: Profile, s: Stack, e: Effects)
    modifies store, disk, record
    ensures record.Value() == Captured(old(record.Value()), e)
    ensures disk.files == CapturedFiles(old(disk.files), old(record.core.fingerprint), p, s, e)
    ensures store.rows == old(store.rows) || store.rows == Update(old(store.rows), record.Value())
    ensures store.rows == Update(old(store.rows), record.Value()) || record.Value() == old(record.Value())
  {
    ghost var start := store.rows;
    if e.manifest.Some? {
      disk.SaveManifest(record.core.fingerprint);
      record.core := record.core.(manifestPath := e.manifest);
      store.UpdateArtifact(record.Value());
    }
    if e.optimization {
      UpdateTwice(start, record.Value(), record.Value());
      store.UpdateArtifact(record.Value());
    }
    if e.snapshots.Some? {
      ghost var before := record.Value();
      var paths := e.snapshots.value;
      disk.WriteSnapshots(record.core.fingerprint, p, s);
      record.core := record.core.(profileSnapshot := Some(paths.profile), stackSnapshot := Some(paths.stack), planPath := Some(paths.plan));
      UpdateTwice(start, before, record.Value());
      store.UpdateArtifact(record.Value());
    }
    if e.sbom.Some? {
      ghost var before := record.Value();
      record.core := record.core.(sbomPath := e.sbom);
      UpdateTwice(start, before, record.Value());
      store.UpdateArtifact(record.Value());
    }
  }

  method RunHooks(store: CatalogStore, record: LiveRecord, e: Effects)
    modifies store, record
    ensures record.Value() == Hooked(old(record.Value()), e)
    ensures store.rows == if e.runHooks && e.hookFailures != [] then Update(old(store.rows), record.Value()) else old(store.rows)
  {
    if e.runHooks && e.hookFailures != [] {
      record.core := record.core.(status := Failed, errorDetail := Some("Hook failures:\n" + Lines(e.hookFailures)));
      store.UpdateArtifact(record.Value());
    }
  }

  /** From the inserted row to the end. */
  method RunBuild(store: CatalogStore, disk: ArtifactDirs, record: LiveRecord, plan: Plan, p: Profile, s: Stack, e: Effects) returns (exit: Exit)
    requires record.core.fingerprint == plan.fingerprint
    modifies store, disk, record
    ensures disk.files == FinishFiles(old(disk.files), plan, p, s, e)
    ensures Ending(record.Value(), exit) == Finish(plan, old(record.Value()), e)
    ensures store.rows == Update(old(store.rows), record.Value()) || (store.rows == old(store.rows) && record.Value() == old(record.Value()))
  {
    ghost var start := store.rows;
    if !KnownBuilder(plan.builder) {
      record.core := record.core.(status := Failed, errorDetail := Some("Unknown builder: " + plan.builder));
      store.UpdateArtifact(record.Value());
      return BuildFailed;
    }
    if e.cancelBeforeBuilder {
      record.core := record.core.(status := Failed, errorDetail := Some("Build canceled before builder execution"));
      store.UpdateArtifact(record.Value());
      return Canceled;
    }
    match e.outcome {
      case RaisedBuildError => return BuildFailed;
      case RaisedCancel => return Canceled;
      case RaisedOther(detail) =>
        record.core := record.core.(status := Failed, errorDetail := Some(detail));
        store.UpdateArtifact(record.Value());
        return BuildFailed;
      case Done(imageId, digest) =>
        record.core := record.core.(status := Built, imageId := imageId, digest := digest);
        store.UpdateArtifact(record.Value());
    }
    ghost var built := record.Value();
    if e.cancelAfterBuilder {
      record.core := record.core.(status := Failed, errorDetail := Some("Build canceled after builder execution"));
      UpdateTwice(start, built, record.Value());
      store.UpdateArtifact(record.Value());
      return Canceled;
    }
    Capture(store, disk, record, p, s, e);
    UpdateTwice(start, built, record.Value());
    ghost var captured := record.Value();
    RunHooks(store, record, e);
    UpdateTwice(start, captured, record.Value());
    exit := Returned(record.Value());
  }

  /** `_do_execute`: the steps compute exactly `Execute` and `ExecuteFiles`. */
  method DoExecute(store: CatalogStore, disk: ArtifactDirs, image: Option<LabelMap>, plan: Plan, p: Profile, s: Stack, version: string,
                   rebuild: bool, immutable: bool, e: Effects, id: string, now: int) returns (exit: Exit)
    requires Valid(store.rows)
    modifies store, disk
    ensures disk.files == ExecuteFiles(old(store.rows), old(disk.files), image, plan, p, s, version, rebuild, immutable, e, id, now)
    ensures Ended(store.rows, exit) == Execute(old(store.rows), image, plan, version, rebuild, immutable, e, id, now)
  {
    if e.cancelAtStart { return Canceled; }
    if !rebuild {
      var check := CheckForImage(store, image, plan, version, immutable);
      if check.Fresh? { return Returned(check.record); }
      if check.DriftRaised? { return Drifted; }
      CheckKeepsValid(old(store.rows), image, plan, version, immutable);
    }
    exit := BuildAnew(store, disk, plan, p, s, e, id, now);
  }

  lemma {:induction false} CheckKeepsValid(rows: Rows, image: Option<LabelMap>, plan: Plan, version: string, immutable: bool)
    requires Valid(rows)
    ensures var c := CheckExisting(rows, image, plan, version, immutable); c.Rebuild? ==> Valid(c.rows)
  {
  }

  method BuildAnew(store: CatalogStore, disk: ArtifactDirs, plan: Plan, p: Profile, s: Stack, e: Effects, id: string, now: int) returns (exit: Exit)
    requires Valid(store.rows)
    modifies store, disk
    ensures disk.files == BuildFiles(old(store.rows), old(disk.files), plan, p, s, e, id, now)
    ensures Ended(store.rows, exit) == Build(old(store.rows), plan, e, id, now)
  {
    if e.cancelBeforeUpdates { return Canceled; }
    var _ := store.MarkAllStale(plan.profile, plan.stack, "");
    var existing := store.FindByFingerprint(plan.fingerprint);
    if existing.Some? {
      store.PruneArtifact(existing.value.core.id);
    }
    var made := MakeRecord(plan, id, now);
    if made.None? { return LabelsMalformed; }
    var inserted := store.InsertArtifact(made.value);
    if !inserted { return CatalogFailed; }
    UpdateInserted(Cleared(old(store.rows), plan), made.value);
    exit := BuildRow(store, disk, made.value, plan, p, s, e);
  }

  /** The part after the insert of the new row. */
  method BuildRow(store: CatalogStore, disk: ArtifactDirs, r: Record, plan: Plan, p: Profile, s: Stack, e: Effects) returns (exit: Exit)
    requires r.core.fingerprint == plan.fingerprint && Update(store.rows, r) == store.rows
    modifies store, disk
    ensures disk.files == FinishFiles(old(disk.files), plan, p, s, e)
    ensures store.rows == Update(old(store.rows), Finish(plan, r, e).record) && exit == Finish(plan, r, e).exit
  {
    var record := new LiveRecord(r);
    exit := RunBuild(store, disk, record, plan, p, s, e);
    assert Ending(record.Value(), exit) == Finish(plan, r, e);
  }
}
