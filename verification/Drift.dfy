/** Comparing a live image with the plan, and the record a plan gives rise to. */
module Drift {
  import opened Basics
  import opened Labels
  import opened Catalog
  import opened Resolver

  datatype Reason =
    | FingerprintMismatch | BaseDigestChanged | TemplateHashChanged | StackSchemaChanged
    | ProfileSchemaChanged | BlockSchemaChanged | BuilderVersionChanged | LabelsMissing

  predicate HasOwnLabel(labels: LabelMap) { exists k :: k in labels && !k.Foreign? }

  /** The layer schema label, or the legacy block label in its absence. */
  function LayerLabel(labels: LabelMap, default: string): string {
    if LayerSchema in labels then labels[LayerSchema]
    else if BlockSchema in labels then labels[BlockSchema]
    else default
  }

  /** Two non-empty values that differ. */
  predicate Differs(live: string, expected: string) { live != "" && expected != "" && live != expected }

  /** `int(text) if text else 1`, 1 when it is no number. */
  function ExpectedVersion(text: string): int { if text == "" then 1 else ReadInt(text).GetOr(1) }

  function When(b: bool, r: Reason): seq<Reason> { if b then [r] else [] }

  function InputReasons(labels: LabelMap, plan: Plan): seq<Reason> {
    When(Get(labels, FingerprintKey) != plan.fingerprint || plan.fingerprint == "", FingerprintMismatch)
    + When(Differs(Get(labels, BaseDigest), plan.baseDigest), BaseDigestChanged)
    + When(Differs(Get(labels, TemplateHash), Get(plan.labels, TemplateHash)), TemplateHashChanged)
  }

  function SchemaReasons(labels: LabelMap, plan: Plan): seq<Reason> {
    When(Differs(Get(labels, StackSchema), Get(plan.labels, StackSchema)), StackSchemaChanged)
    + When(Differs(Get(labels, ProfileSchema), Get(plan.labels, ProfileSchema)), ProfileSchemaChanged)
    + When(Differs(LayerLabel(labels, ""), LayerLabel(plan.labels, "")), BlockSchemaChanged)
  }

  /** What the catalog record adds to the label reasons. */
  function RecordReasons(record: Option<Record>, plan: Plan, found: seq<Reason>): seq<Reason> {
    if record.None? then []
    else
      var s := record.value.schemas;
      When(s.stack != ExpectedVersion(Get(plan.labels, StackSchema)) && StackSchemaChanged !in found, StackSchemaChanged)
      + When(s.profile != ExpectedVersion(Get(plan.labels, ProfileSchema)) && ProfileSchemaChanged !in found, ProfileSchemaChanged)
      + When(s.layer != ExpectedVersion(LayerLabel(plan.labels, "")) && BlockSchemaChanged !in found, BlockSchemaChanged)
  }

  /** `detect_drift`; `version` is the running builder's version. */
  function Detect(labels: LabelMap, record: Option<Record>, plan: Plan, version: string): seq<Reason> {
    if !HasOwnLabel(labels) then [LabelsMissing]
    else
      var found := InputReasons(labels, plan) + SchemaReasons(labels, plan);
      found + RecordReasons(record, plan, found)
      + When(Get(labels, BuilderVersion) != "" && Get(labels, BuilderVersion) != version, BuilderVersionChanged)
  }

  method DetectDrift(labels: LabelMap, record: Option<Record>, plan: Plan, version: string) returns (reasons: seq<Reason>)
    ensures reasons == Detect(labels, record, plan, version)
  {
    if !HasOwnLabel(labels) { return [LabelsMissing]; }
    reasons := CompareInputs(labels, plan);
    reasons := CompareSchemas(labels, plan, reasons);
    if record.Some? {
      reasons := CompareRecord(record.value, plan, reasons);
    }
    var builder := Get(labels, BuilderVersion);
    if builder != "" && builder != version { reasons := reasons + [BuilderVersionChanged]; }
  }

  method CompareInputs(labels: LabelMap, plan: Plan) returns (reasons: seq<Reason>)
    ensures reasons == InputReasons(labels, plan)
  {
    reasons := [];
    var liveFp := Get(labels, FingerprintKey);
    if liveFp == "" || liveFp != plan.fingerprint { reasons := reasons + [FingerprintMismatch]; }
    if Differs(Get(labels, BaseDigest), plan.baseDigest) { reasons := reasons + [BaseDigestChanged]; }
    if Differs(Get(labels, TemplateHash), Get(plan.labels, TemplateHash)) { reasons := reasons + [TemplateHashChanged]; }
  }

  method CompareSchemas(labels: LabelMap, plan: Plan, found: seq<Reason>) returns (reasons: seq<Reason>)
    ensures reasons == found + SchemaReasons(labels, plan)
  {
    reasons := found;
    if Differs(Get(labels, StackSchema), Get(plan.labels, StackSchema)) { reasons := reasons + [StackSchemaChanged]; }
    if Differs(Get(labels, ProfileSchema), Get(plan.labels, ProfileSchema)) { reasons := reasons + [ProfileSchemaChanged]; }
    if Differs(LayerLabel(labels, ""), LayerLabel(plan.labels, "")) { reasons := reasons + [BlockSchemaChanged]; }
  }

  method CompareRecord(record: Record, plan: Plan, found: seq<Reason>) returns (reasons: seq<Reason>)
    ensures reasons == found + RecordReasons(Some(record), plan, found)
  {
    reasons := found;
    if record.schemas.stack != ExpectedVersion(Get(plan.labels, StackSchema)) {
      if StackSchemaChanged !in reasons { reasons := reasons + [StackSchemaChanged]; }
    }
    if record.schemas.profile != ExpectedVersion(Get(plan.labels, ProfileSchema)) {
      if ProfileSchemaChanged !in reasons { reasons := reasons + [ProfileSchemaChanged]; }
    }
    if record.schemas.layer != ExpectedVersion(LayerLabel(plan.labels, "")) {
      if BlockSchemaChanged !in reasons { reasons := reasons + [BlockSchemaChanged]; }
    }
  }

  // ----- when an image is fresh, and what each reason means -----

  /** One of the texts is missing, or they are the same. */
  predicate Agree(live: string, expected: string) { live == "" || expected == "" || live == expected }

  /** The number a record holds is the one the text says, 1 for a text that is no number. */
  predicate Holds(recorded: Option<int>, text: string) {
    recorded.None? || ReadInt(text) == recorded || (ReadInt(text).None? && recorded.value == 1)
  }

  predicate SchemaAgrees(live: string, expected: string, recorded: Option<int>) { Agree(live, expected) && Holds(recorded, expected) }

  /** The text of the layer schema, under its legacy name where only that is present. */
  function LayerText(labels: LabelMap): string { Get(labels, if LayerSchema in labels then LayerSchema else BlockSchema) }

  ghost predicate Marked(labels: LabelMap) { exists key :: key in labels && forall name :: key != Foreign(name) }

  lemma {:induction false} DiffersIff(live: string, expected: string)
    ensures Differs(live, expected) <==> !Agree(live, expected)
  {
  }

  lemma {:induction false} VersionIs(recorded: Option<int>, text: string)
    ensures recorded.Some? && recorded.value != ExpectedVersion(text) <==> !Holds(recorded, text)
  {
  }

  lemma {:induction false} LayerIs(labels: LabelMap)
    ensures LayerLabel(labels, "") == LayerText(labels)
  {
  }

  lemma {:induction false} MarkedIff(labels: LabelMap)
    ensures HasOwnLabel(labels) <==> Marked(labels)
  {
    if key :| key in labels && !key.Foreign? {
      assert key != Foreign("");
    }
  }

  predicate SameInputs(labels: LabelMap, plan: Plan) {
    && plan.fingerprint != "" && Get(labels, FingerprintKey) == plan.fingerprint
    && Agree(Get(labels, BaseDigest), plan.baseDigest) && Agree(Get(labels, TemplateHash), Get(plan.labels, TemplateHash))
  }

  predicate SameSchemas(labels: LabelMap, record: Option<Record>, plan: Plan) {
    && SchemaAgrees(Get(labels, StackSchema), Get(plan.labels, StackSchema), StackOf(record))
    && SchemaAgrees(Get(labels, ProfileSchema), Get(plan.labels, ProfileSchema), ProfileOf(record))
    && SchemaAgrees(LayerText(labels), LayerText(plan.labels), LayerOf(record))
  }

  /** Exactly when an image is taken as fresh. */
  lemma {:induction false} NoDriftIff(labels: LabelMap, record: Option<Record>, plan: Plan, version: string)
    ensures Detect(labels, record, plan, version) == [] <==>
      && Marked(labels) && SameInputs(labels, plan) && SameSchemas(labels, record, plan)
      && (Get(labels, BuilderVersion) == "" || Get(labels, BuilderVersion) == version)
  {
    MarkedIff(labels);
    NoInputReasonsIff(labels, plan);
    NoSchemaReasonsIff(labels, plan);
    if SchemaReasons(labels, plan) == [] && InputReasons(labels, plan) == [] {
      NoRecordReasonsIff(record, plan);
    }
  }

  lemma {:induction false} NoInputReasonsIff(labels: LabelMap, plan: Plan)
    ensures InputReasons(labels, plan) == [] <==> SameInputs(labels, plan)
  {
    DiffersIff(Get(labels, BaseDigest), plan.baseDigest);
    DiffersIff(Get(labels, TemplateHash), Get(plan.labels, TemplateHash));
  }

  lemma {:induction false} NoSchemaReasonsIff(labels: LabelMap, plan: Plan)
    ensures SchemaReasons(labels, plan) == [] <==> SameSchemas(labels, None, plan)
  {
    SchemaDiffers(labels, plan);
  }

  lemma {:induction false} SchemaDiffers(labels: LabelMap, plan: Plan)
    ensures Differs(Get(labels, StackSchema), Get(plan.labels, StackSchema)) <==> !Agree(Get(labels, StackSchema), Get(plan.labels, StackSchema))
    ensures Differs(Get(labels, ProfileSchema), Get(plan.labels, ProfileSchema))
      <==> !Agree(Get(labels, ProfileSchema), Get(plan.labels, ProfileSchema))
    ensures Differs(LayerLabel(labels, ""), LayerLabel(plan.labels, "")) <==> !Agree(LayerText(labels), LayerText(plan.labels))
  {
    LayerIs(labels);
    LayerIs(plan.labels);
    DiffersIff(Get(labels, StackSchema), Get(plan.labels, StackSchema));
    DiffersIff(Get(labels, ProfileSchema), Get(plan.labels, ProfileSchema));
    DiffersIff(LayerText(labels), LayerText(plan.labels));
  }

  /** The three schema numbers of the record are those of the plan. */
  predicate RecordKeeps(record: Option<Record>, plan: Plan) {
    && Holds(StackOf(record), Get(plan.labels, StackSchema)) && Holds(ProfileOf(record), Get(plan.labels, ProfileSchema))
    && Holds(LayerOf(record), LayerText(plan.labels))
  }

  lemma {:induction false} VersionsAre(record: Record, plan: Plan)
    ensures record.schemas.stack == ExpectedVersion(Get(plan.labels, StackSchema)) <==> Holds(StackOf(Some(record)), Get(plan.labels, StackSchema))
    ensures record.schemas.profile == ExpectedVersion(Get(plan.labels, ProfileSchema))
      <==> Holds(ProfileOf(Some(record)), Get(plan.labels, ProfileSchema))
    ensures record.schemas.layer == ExpectedVersion(LayerLabel(plan.labels, "")) <==> Holds(LayerOf(Some(record)), LayerText(plan.labels))
  {
    LayerIs(plan.labels);
    VersionIs(Some(record.schemas.stack), Get(plan.labels, StackSchema));
    VersionIs(Some(record.schemas.profile), Get(plan.labels, ProfileSchema));
    VersionIs(Some(record.schemas.layer), LayerText(plan.labels));
  }

  lemma {:induction false} NoRecordReasonsIff(record: Option<Record>, plan: Plan)
    ensures RecordReasons(record, plan, []) == [] <==> RecordKeeps(record, plan)
  {
    if record.Some? { VersionsAre(record.value, plan); }
  }

  /** The condition behind each reason, for an image with labels of its own. */
  predicate Justified(r: Reason, labels: LabelMap, record: Option<Record>, plan: Plan, version: string) {
    match r
    case FingerprintMismatch => Get(labels, FingerprintKey) == "" || Get(labels, FingerprintKey) != plan.fingerprint
    case BaseDigestChanged => !Agree(Get(labels, BaseDigest), plan.baseDigest)
    case TemplateHashChanged => !Agree(Get(labels, TemplateHash), Get(plan.labels, TemplateHash))
    case StackSchemaChanged => !SchemaAgrees(Get(labels, StackSchema), Get(plan.labels, StackSchema), StackOf(record))
    case ProfileSchemaChanged => !SchemaAgrees(Get(labels, ProfileSchema), Get(plan.labels, ProfileSchema), ProfileOf(record))
    case BlockSchemaChanged => !SchemaAgrees(LayerText(labels), LayerText(plan.labels), LayerOf(record))
    case BuilderVersionChanged => Get(labels, BuilderVersion) != "" && Get(labels, BuilderVersion) != version
    case LabelsMissing => false
  }

  lemma {:induction false} SchemaReasonsMember(labels: LabelMap, plan: Plan, r: Reason)
    ensures r in SchemaReasons(labels, plan) <==>
      && r in {StackSchemaChanged, ProfileSchemaChanged, BlockSchemaChanged} && Justified(r, labels, None, plan, "")
  {
    SchemaDiffers(labels, plan);
  }

  lemma {:induction false} InputReasonsMember(labels: LabelMap, plan: Plan, r: Reason)
    ensures r in InputReasons(labels, plan) <==>
      && r in {FingerprintMismatch, BaseDigestChanged, TemplateHashChanged} && Justified(r, labels, None, plan, "")
  {
    DiffersIff(Get(labels, BaseDigest), plan.baseDigest);
    DiffersIff(Get(labels, TemplateHash), Get(plan.labels, TemplateHash));
  }

  lemma {:induction false} RecordReasonsMember(record: Option<Record>, plan: Plan, found: seq<Reason>, r: Reason)
    ensures r in RecordReasons(record, plan, found) <==> r !in found && !SchemaKept(record, plan, r)
  {
    if record.Some? { VersionsAre(record.value, plan); }
  }

  predicate SchemaKept(record: Option<Record>, plan: Plan, r: Reason) {
    match r
    case StackSchemaChanged => Holds(StackOf(record), Get(plan.labels, StackSchema))
    case ProfileSchemaChanged => Holds(ProfileOf(record), Get(plan.labels, ProfileSchema))
    case BlockSchemaChanged => Holds(LayerOf(record), LayerText(plan.labels))
    case _ => true
  }

  /** An image with labels of its own gets exactly the justified reasons, any other only the missing labels. */
  lemma {:induction false} ReasonsAreExact(labels: LabelMap, record: Option<Record>, plan: Plan, version: string, r: Reason)
    ensures r in Detect(labels, record, plan, version) <==>
      if Marked(labels) then Justified(r, labels, record, plan, version) else r == LabelsMissing
  {
    var inputs, schemas := InputReasons(labels, plan), SchemaReasons(labels, plan);
    MarkedIff(labels);
    InputReasonsMember(labels, plan, r);
    SchemaReasonsMember(labels, plan, r);
    RecordReasonsMember(record, plan, inputs + schemas, r);
  }

  lemma {:induction false} ConcatDistinct<T>(a: seq<T>, b: seq<T>)
    requires Distinct(a) && Distinct(b) && forall x :: x in b ==> x !in a
    ensures Distinct(a + b)
  {
    forall i, j | 0 <= i < j < |a + b| ensures (a + b)[i] != (a + b)[j] {
      if i < |a| <= j {
        assert (a + b)[j] == b[j - |a|] && b[j - |a|] in b && (a + b)[i] in a;
      }
    }
  }

  lemma {:induction false} ThreeDistinct(a: bool, b: bool, c: bool, x: Reason, y: Reason, z: Reason)
    requires x != y && x != z && y != z
    ensures Distinct(When(a, x) + When(b, y) + When(c, z))
  {
  }

  lemma {:induction false} LabelPartsDistinct(labels: LabelMap, plan: Plan)
    ensures Distinct(InputReasons(labels, plan)) && Distinct(SchemaReasons(labels, plan))
  {
    ThreeDistinct(Get(labels, FingerprintKey) != plan.fingerprint || plan.fingerprint == "", Differs(Get(labels, BaseDigest), plan.baseDigest),
                  Differs(Get(labels, TemplateHash), Get(plan.labels, TemplateHash)), FingerprintMismatch, BaseDigestChanged, TemplateHashChanged);
    ThreeDistinct(Differs(Get(labels, StackSchema), Get(plan.labels, StackSchema)), Differs(Get(labels, ProfileSchema), Get(plan.labels, ProfileSchema)),
                  Differs(LayerLabel(labels, ""), LayerLabel(plan.labels, "")), StackSchemaChanged, ProfileSchemaChanged, BlockSchemaChanged);
  }

  lemma {:induction false} RecordPartDistinct(record: Option<Record>, plan: Plan, found: seq<Reason>)
    ensures Distinct(RecordReasons(record, plan, found))
  {
    if record.Some? {
      var s := record.value.schemas;
      ThreeDistinct(s.stack != ExpectedVersion(Get(plan.labels, StackSchema)) && StackSchemaChanged !in found,
                    s.profile != ExpectedVersion(Get(plan.labels, ProfileSchema)) && ProfileSchemaChanged !in found,
                    s.layer != ExpectedVersion(LayerLabel(plan.labels, "")) && BlockSchemaChanged !in found,
                    StackSchemaChanged, ProfileSchemaChanged, BlockSchemaChanged);
    }
  }

  lemma {:induction false} LabelReasonsDistinct(labels: LabelMap, plan: Plan)
    ensures Distinct(InputReasons(labels, plan) + SchemaReasons(labels, plan))
  {
    LabelPartsDistinct(labels, plan);
    forall r | r in SchemaReasons(labels, plan) ensures r !in InputReasons(labels, plan) {
      InputReasonsMember(labels, plan, r);
      SchemaReasonsMember(labels, plan, r);
    }
    ConcatDistinct(InputReasons(labels, plan), SchemaReasons(labels, plan));
  }

  lemma {:induction false} RecordedReasonsDistinct(record: Option<Record>, plan: Plan, found: seq<Reason>)
    requires Distinct(found)
    ensures Distinct(found + RecordReasons(record, plan, found))
    ensures BuilderVersionChanged !in found ==> BuilderVersionChanged !in found + RecordReasons(record, plan, found)
  {
    RecordPartDistinct(record, plan, found);
    forall r | r in RecordReasons(record, plan, found) ensures r !in found && r != BuilderVersionChanged {
      RecordReasonsMember(record, plan, found, r);
    }
    ConcatDistinct(found, RecordReasons(record, plan, found));
  }

  /** And none of them twice. */
  lemma {:induction false} ReasonsAreDistinct(labels: LabelMap, record: Option<Record>, plan: Plan, version: string)
    ensures Distinct(Detect(labels, record, plan, version))
  {
    if HasOwnLabel(labels) {
      var found := InputReasons(labels, plan) + SchemaReasons(labels, plan);
      LabelReasonsDistinct(labels, plan);
      InputReasonsMember(labels, plan, BuilderVersionChanged);
      SchemaReasonsMember(labels, plan, BuilderVersionChanged);
      RecordedReasonsDistinct(record, plan, found);
      ConcatDistinct(found + RecordReasons(record, plan, found),
                     When(Get(labels, BuilderVersion) != "" && Get(labels, BuilderVersion) != version, BuilderVersionChanged));
    }
  }

  function StackOf(r: Option<Record>): Option<int> { if r.Some? then Some(r.value.schemas.stack) else None }
  function ProfileOf(r: Option<Record>): Option<int> { if r.Some? then Some(r.value.schemas.profile) else None }
  function LayerOf(r: Option<Record>): Option<int> { if r.Some? then Some(r.value.schemas.layer) else None }
}
