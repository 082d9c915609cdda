/** The artifact table and the store's operations, each one atomic step. */
module Catalog {
  import opened Basics
  import opened Ordering

  datatype Status = Planned | Building | Built | Failed | Stale

  /** The fields a record and a row share. */
  datatype Core = Core(
    id: string, profile: string, stack: string, tag: string, fingerprint: string,
    imageId: Option<string>, digest: Option<string>, baseImage: string, baseDigest: Option<string>,
    buildStrategy: string, templateHash: Option<string>,
    manifestPath: Option<string>, sbomPath: Option<string>,
    profileSnapshot: Option<string>, stackSnapshot: Option<string>, planPath: Option<string>,
    variantJson: Option<string>, status: Status, staleReason: Option<string>, errorDetail: Option<string>,
    createdAt: int)

  datatype Schemas = Schemas(stack: int, profile: int, layer: int)
  datatype Record = Record(core: Core, schemas: Schemas)

  /** Integer columns may be NULL in rows written by older versions. */
  datatype Columns = Columns(stack: Option<int>, profile: Option<int>, layer: Option<int>, block: Option<int>)
  datatype Row = Row(core: Core, columns: Columns)

  type Rows = map<string, Row>

  /** Rows are stored under their id, and tags and fingerprints are unique. */
  ghost predicate Valid(rows: Rows) {
    && (forall id :: id in rows ==> rows[id].core.id == id)
    && (forall a, b :: a in rows && b in rows && a != b ==>
          rows[a].core.tag != rows[b].core.tag && rows[a].core.fingerprint != rows[b].core.fingerprint)
  }

  // ----- rows and records -----

  /** `_resolve_layer_schema_value`: the first schema above 1, else the first above 0, else 1. */
  function ResolveLayerSchema(layer: Option<int>, block: Option<int>): int {
    var l, b := layer.GetOr(0), block.GetOr(0);
    if l > 1 then l else if b > 1 then b else if l > 0 then l else if b > 0 then b else 1
  }

  /** `value or 1`. */
  function OrOne(v: Option<int>): int { if v.GetOr(0) == 0 then 1 else v.value }

  function ToRow(r: Record): Row {
    var layer := ResolveLayerSchema(Some(r.schemas.layer), None);
    Row(r.core, Columns(Some(r.schemas.stack), Some(r.schemas.profile), Some(layer), Some(layer)))
  }

  function ToRecord(r: Row): Record {
    Record(r.core, Schemas(OrOne(r.columns.stack), OrOne(r.columns.profile), ResolveLayerSchema(r.columns.layer, r.columns.block)))
  }

  /** A record survives being stored exactly when no schema version is 0 and the layer schema is at least 1. */
  lemma {:induction false} RecordRoundTrip(r: Record)
    ensures ToRecord(ToRow(r)) == r <==> r.schemas.stack != 0 && r.schemas.profile != 0 && r.schemas.layer >= 1
  {
  }

  /** The layer schema is always positive and prefers either column above the default of 1. */
  lemma {:induction false} LayerSchemaResolved(layer: Option<int>, block: Option<int>)
    ensures ResolveLayerSchema(layer, block) >= 1
    ensures ResolveLayerSchema(layer, block) == 1 <==> layer.GetOr(0) <= 1 && block.GetOr(0) <= 1
    ensures ResolveLayerSchema(Some(ResolveLayerSchema(layer, block)), Some(ResolveLayerSchema(layer, block))) == ResolveLayerSchema(layer, block)
  {
  }

  /** A layer schema above 1 counts, without one a block schema above 1, and otherwise it is 1. */
  lemma {:induction false} LayerSchemaIs(layer: Option<int>, block: Option<int>)
    ensures layer.Some? && layer.value > 1 ==> ResolveLayerSchema(layer, block) == layer.value
    ensures (layer.None? || layer.value <= 1) && block.Some? && block.value > 1 ==> ResolveLayerSchema(layer, block) == block.value
    ensures (layer.None? || layer.value <= 1) && (block.None? || block.value <= 1) ==> ResolveLayerSchema(layer, block) == 1
  {
  }

  /** Reading a row keeps what it shares with a record; a stack or profile schema that is absent or 0 reads as 1. */
  lemma {:induction false} ReadRow(r: Row)
    ensures ToRecord(r).core == r.core && ToRecord(r).schemas.layer == ResolveLayerSchema(r.columns.layer, r.columns.block)
    ensures r.columns.stack in {None, Some(0)} ==> ToRecord(r).schemas.stack == 1
    ensures r.columns.stack !in {None, Some(0)} ==> Some(ToRecord(r).schemas.stack) == r.columns.stack
    ensures r.columns.profile in {None, Some(0)} ==> ToRecord(r).schemas.profile == 1
    ensures r.columns.profile !in {None, Some(0)} ==> Some(ToRecord(r).schemas.profile) == r.columns.profile
  {
  }

  // ----- lookups -----

  ghost predicate TagTaken(rows: Rows, tag: string) { exists id :: id in rows && rows[id].core.tag == tag }
  ghost predicate FingerprintTaken(rows: Rows, fp: string) { exists id :: id in rows && rows[id].core.fingerprint == fp }

  ghost function IdByTag(rows: Rows, tag: string): (r: Option<string>)
    ensures r.Some? ==> r.value in rows && rows[r.value].core.tag == tag
    ensures r.None? <==> !TagTaken(rows, tag)
  {
    if id :| id in rows && rows[id].core.tag == tag then Some(id) else None
  }

  ghost function IdByFingerprint(rows: Rows, fp: string): (r: Option<string>)
    ensures r.Some? ==> r.value in rows && rows[r.value].core.fingerprint == fp
    ensures r.None? <==> !FingerprintTaken(rows, fp)
  {
    if id :| id in rows && rows[id].core.fingerprint == fp then Some(id) else None
  }

  ghost function ByTag(rows: Rows, tag: string): Option<Record> {
    var id := IdByTag(rows, tag);
    if id.Some? then Some(ToRecord(rows[id.value])) else None
  }

  ghost function ByFingerprint(rows: Rows, fp: string): Option<Record> {
    var id := IdByFingerprint(rows, fp);
    if id.Some? then Some(ToRecord(rows[id.value])) else None
  }

  // ----- changes -----

  ghost predicate Collides(rows: Rows, r: Record) {
    r.core.id in rows || TagTaken(rows, r.core.tag) || FingerprintTaken(rows, r.core.fingerprint)
  }

  function Insert(rows: Rows, r: Record): Rows { rows[r.core.id := ToRow(r)] }

  /** The fields `update_artifact` copies; identity, inputs and schema columns stay. */
  function Copied(row: Row, r: Record): Row {
    row.(core := row.core.(
      status := r.core.status, imageId := r.core.imageId, digest := r.core.digest,
      manifestPath := r.core.manifestPath, sbomPath := r.core.sbomPath,
      profileSnapshot := r.core.profileSnapshot, stackSnapshot := r.core.stackSnapshot, planPath := r.core.planPath,
      variantJson := r.core.variantJson, staleReason := r.core.staleReason, errorDetail := r.core.errorDetail))
  }

  function Update(rows: Rows, r: Record): Rows {
    if r.core.id in rows then rows[r.core.id := Copied(rows[r.core.id], r)] else rows
  }

  predicate Markable(row: Row, profile: string, stack: string) {
    row.core.profile == profile && row.core.stack == stack && row.core.status in {Built, Building, Planned}
  }

  function Staled(row: Row, reason: string): Row {
    row.(core := row.core.(status := Stale, staleReason := if reason == "" then row.core.staleReason else Some(reason)))
  }

  /** `mark_stale`; without a reason the old one stays. */
  function MarkStale(rows: Rows, profile: string, stack: string, reason: string): Rows {
    map id | id in rows :: if Markable(rows[id], profile, stack) then Staled(rows[id], reason) else rows[id]
  }

  function MarkedIds(rows: Rows, profile: string, stack: string): set<string> {
    set id | id in rows && Markable(rows[id], profile, stack)
  }

  /** A row of the pair that is planned, building or built. */
  predicate PendingRow(row: Row, profile: string, stack: string) {
    row.core.profile == profile && row.core.stack == stack && row.core.status != Failed && row.core.status != Stale
  }

  /** Exactly the pending rows of the pair turn stale and are counted, with the reason if one is given; nothing else changes. */
  lemma {:induction false} MarkedRow(rows: Rows, profile: string, stack: string, reason: string, id: string)
    ensures var marked := MarkStale(rows, profile, stack, reason);
      && (id in marked <==> id in rows)
      && (id in MarkedIds(rows, profile, stack) <==> id in rows && PendingRow(rows[id], profile, stack))
      && (id in rows && PendingRow(rows[id], profile, stack) ==>
            && (reason == "" ==> marked[id] == rows[id].(core := rows[id].core.(status := Stale)))
            && (reason != "" ==> marked[id] == rows[id].(core := rows[id].core.(status := Stale, staleReason := Some(reason)))))
      && (id in rows && !PendingRow(rows[id], profile, stack) ==> marked[id] == rows[id])
  {
  }

  function Prune(rows: Rows, id: string): Rows { if id == "" then rows else rows - {id} }

  function PruneByStatus(rows: Rows, status: Status): Rows {
    map id | id in rows && rows[id].core.status != status :: rows[id]
  }

  /** Every store operation keeps ids, tags and fingerprints consistent; an insert does when nothing collides. */
  lemma {:induction false} UpdateKeepsValid(rows: Rows, r: Record)
    requires Valid(rows)
    ensures Valid(Update(rows, r)) && Update(rows, r).Keys == rows.Keys
  {
  }

  lemma {:induction false} MarkKeepsValid(rows: Rows, profile: string, stack: string, reason: string)
    requires Valid(rows)
    ensures Valid(MarkStale(rows, profile, stack, reason)) && MarkStale(rows, profile, stack, reason).Keys == rows.Keys
  {
  }

  lemma {:induction false} PruneKeepsValid(rows: Rows, id: string, status: Status)
    requires Valid(rows)
    ensures Valid(Prune(rows, id)) && Valid(PruneByStatus(rows, status))
  {
  }

  /** An insert keeps the table consistent exactly when no other row has its tag or fingerprint. */
  lemma {:induction false} InsertKeepsValid(rows: Rows, r: Record)
    requires Valid(rows)
    ensures Valid(Insert(rows, r)) <==>
      forall id :: id in rows && id != r.core.id ==> rows[id].core.tag != r.core.tag && rows[id].core.fingerprint != r.core.fingerprint
    ensures !Collides(rows, r) ==> Valid(Insert(rows, r))
  {
    var after := Insert(rows, r);
    forall id | id in rows && id != r.core.id && Valid(after)
      ensures rows[id].core.tag != r.core.tag && rows[id].core.fingerprint != r.core.fingerprint
    {
      assert id in after && r.core.id in after && after[id] == rows[id];
    }
  }

  /** With unique tags and fingerprints a lookup has one answer. */
  lemma {:induction false} LookupUnique(rows: Rows, id: string)
    requires Valid(rows) && id in rows
    ensures IdByTag(rows, rows[id].core.tag) == Some(id) && IdByFingerprint(rows, rows[id].core.fingerprint) == Some(id)
  {
  }

  // ----- what is protected from pruning -----

  /** Rows are grouped by profile, stack and stored variant. */
  datatype GroupKey = GroupKey(profile: string, stack: string, variantJson: Option<string>)

  function KeyOf(row: Row): GroupKey { GroupKey(row.core.profile, row.core.stack, row.core.variantJson) }

  predicate Newer(a: Row, b: Row) { a.core.createdAt >= b.core.createdAt }

  predicate IsBuilt(rows: Rows, row: Row) {
    row.core.id in rows && rows[row.core.id] == row && row.core.status == Built
  }

  /** The answer to `status == built ORDER BY created_at DESC`, with ties in any order. */
  ghost predicate NewestFirst(rows: Rows, built: seq<Row>) {
    Distinct(built) && Sorted(Newer, built) && forall row :: row in built <==> IsBuilt(rows, row)
  }

  function SeenKeys(built: seq<Row>): set<GroupKey> {
    if built == [] then {} else SeenKeys(built[..|built| - 1]) + {KeyOf(built[|built| - 1])}
  }

  /** The ids of the rows that come first for their key. */
  function ProtectedIds(built: seq<Row>): set<string> {
    if built == [] then {}
    else
      var init, last := built[..|built| - 1], built[|built| - 1];
      ProtectedIds(init) + if KeyOf(last) in SeenKeys(init) then {} else {last.core.id}
  }

  function Unprotected(built: seq<Row>, protected: set<string>): seq<Row> {
    if built == [] then []
    else (if built[0].core.id in protected then [] else [built[0]]) + Unprotected(built[1..], protected)
  }

  method Protect(built: seq<Row>) returns (protected: set<string>)
    ensures protected == ProtectedIds(built)
  {
    var seen: set<GroupKey> := {};
    protected := {};
    for i := 0 to |built|
      invariant seen == SeenKeys(built[..i]) && protected == ProtectedIds(built[..i])
    {
      var key := KeyOf(built[i]);
      assert built[..i + 1][..i] == built[..i];
      if key !in seen {
        seen := seen + {key};
        protected := protected + {built[i].core.id};
      }
    }
    assert built[..|built|] == built;
  }

  /** `find_unused` on the answer of its query. */
  method FindUnused(built: seq<Row>, force: bool) returns (unused: seq<Row>)
    ensures unused == Unprotected(built, if force then {} else ProtectedIds(built))
  {
    var protected: set<string> := {};
    if !force { protected := Protect(built); }
    unused := OutsideOf(built, protected);
  }

  lemma {:induction false} UnprotectedStep(built: seq<Row>, protected: set<string>, i: nat, before: seq<Row>)
    requires i < |built|
    ensures before + Unprotected(built[i..], protected)
      == before + (if built[i].core.id in protected then [] else [built[i]]) + Unprotected(built[i + 1..], protected)
  {
    assert built[i..][0] == built[i] && built[i..][1..] == built[i + 1..];
  }

  method OutsideOf(built: seq<Row>, protected: set<string>) returns (unused: seq<Row>)
    ensures unused == Unprotected(built, protected)
  {
    unused := [];
    for i := 0 to |built|
      invariant unused + Unprotected(built[i..], protected) == Unprotected(built, protected)
    {
      UnprotectedStep(built, protected, i, unused);
      if built[i].core.id !in protected { unused := unused + [built[i]]; }
    }
    assert built[|built|..] == [];
  }

  /** `count_protected`. */
  method CountProtected(rows: Rows, built: seq<Row>) returns (count: nat)
    requires NewestFirst(rows, built)
    ensures count == |ProtectedIds(built)|
  {
    var seen: set<GroupKey> := {};
    count := 0;
    for i := 0 to |built|
      invariant seen == SeenKeys(built[..i]) && count == |ProtectedIds(built[..i])|
    {
      ProtectedGrows(rows, built, i);
      if KeyOf(built[i]) !in seen {
        seen := seen + {KeyOf(built[i])};
        count := count + 1;
      }
    }
    assert built[..|built|] == built;
  }

  lemma {:induction false} ProtectedGrows(rows: Rows, built: seq<Row>, i: nat)
    requires NewestFirst(rows, built) && i < |built|
    ensures SeenKeys(built[..i + 1]) == SeenKeys(built[..i]) + {KeyOf(built[i])}
    ensures |ProtectedIds(built[..i + 1])| == |ProtectedIds(built[..i])| + if KeyOf(built[i]) in SeenKeys(built[..i]) then 0 else 1
  {
    assert built[..i + 1][..i] == built[..i];
    LaterIdIsNew(rows, built, i);
  }

  ghost predicate FirstOfKey(built: seq<Row>, i: nat) {
    i < |built| && forall j :: 0 <= j < i ==> KeyOf(built[j]) != KeyOf(built[i])
  }

  lemma {:induction false} SeenKeyMember(built: seq<Row>, key: GroupKey)
    ensures key in SeenKeys(built) <==> exists i :: 0 <= i < |built| && KeyOf(built[i]) == key
  {
    if built != [] {
      SeenKeyMember(built[..|built| - 1], key);
    }
  }

  lemma {:induction false} ProtectedMember(built: seq<Row>, id: string)
    ensures id in ProtectedIds(built) <==> exists i: nat :: FirstOfKey(built, i) && built[i].core.id == id
  {
    if built != [] {
      var n := |built| - 1;
      var init, last := built[..n], built[n];
      ProtectedMember(init, id);
      SeenKeyMember(init, KeyOf(last));
      assert forall i: nat | i < n :: FirstOfKey(init, i) <==> FirstOfKey(built, i);
      assert FirstOfKey(built, n) <==> KeyOf(last) !in SeenKeys(init);
    }
  }

  lemma {:induction false} LaterIdIsNew(rows: Rows, built: seq<Row>, i: nat)
    requires NewestFirst(rows, built) && i < |built|
    ensures built[i].core.id !in ProtectedIds(built[..i])
  {
    ProtectedMember(built[..i], built[i].core.id);
    forall j: nat | FirstOfKey(built[..i], j) ensures built[..i][j].core.id != built[i].core.id {
      assert built[j] in built && built[i] in built && built[j] != built[i];
      assert IsBuilt(rows, built[j]) && IsBuilt(rows, built[i]);
    }
  }

  lemma {:induction false} UnprotectedMember(built: seq<Row>, protected: set<string>, row: Row)
    ensures row in Unprotected(built, protected) <==> row in built && row.core.id !in protected
  {
    if built != [] {
      UnprotectedMember(built[1..], protected, row);
      assert built == [built[0]] + built[1..];
    }
  }

  lemma {:induction false} FirstIndex(built: seq<Row>, i: nat) returns (f: nat)
    requires i < |built|
    ensures f <= i && KeyOf(built[f]) == KeyOf(built[i]) && FirstOfKey(built, f)
    decreases i
  {
    if j :| 0 <= j < i && KeyOf(built[j]) == KeyOf(built[i]) {
      f := FirstIndex(built, j);
    } else {
      f := i;
    }
  }

  /** Every built row is either unused or protected. */
  lemma {:induction false} UnusedOrProtected(rows: Rows, built: seq<Row>, row: Row)
    requires NewestFirst(rows, built)
    ensures row in Unprotected(built, ProtectedIds(built)) <==> IsBuilt(rows, row) && row.core.id !in ProtectedIds(built)
    ensures row in Unprotected(built, {}) <==> IsBuilt(rows, row)
  {
    UnprotectedMember(built, ProtectedIds(built), row);
    UnprotectedMember(built, {}, row);
  }

  lemma {:induction false} KeyIsProtected(rows: Rows, built: seq<Row>, row: Row)
    requires NewestFirst(rows, built) && IsBuilt(rows, row)
    ensures exists p :: IsProtected(rows, built, p) && KeyOf(p) == KeyOf(row)
  {
    assert row in built;
    var i: nat :| i < |built| && built[i] == row;
    var f := FirstIndex(built, i);
    ProtectedMember(built, built[f].core.id);
    assert built[f] in built && IsProtected(rows, built, built[f]);
  }

  lemma {:induction false} ProtectedOnce(rows: Rows, built: seq<Row>, p: Row, q: Row)
    requires NewestFirst(rows, built) && IsProtected(rows, built, p) && IsProtected(rows, built, q) && KeyOf(p) == KeyOf(q)
    ensures p == q
  {
    var m, n := ProtectedPosition(rows, built, p), ProtectedPosition(rows, built, q);
    assert m == n;
  }

  lemma {:induction false} ProtectedIsNewer(rows: Rows, built: seq<Row>, row: Row, other: Row)
    requires NewestFirst(rows, built) && IsProtected(rows, built, row) && IsBuilt(rows, other) && KeyOf(other) == KeyOf(row)
    ensures Newer(row, other)
  {
    var m := ProtectedPosition(rows, built, row);
    assert other in built;
    var k: nat :| k < |built| && built[k] == other;
    assert m <= k;
  }

  /** Each key with a built row protects exactly one row, and that row is a newest one of its key. */
  lemma {:induction false} OneProtectedPerKey(rows: Rows, built: seq<Row>, row: Row)
    requires NewestFirst(rows, built) && IsBuilt(rows, row)
    ensures exists p :: IsProtected(rows, built, p) && KeyOf(p) == KeyOf(row)
    ensures forall p, q :: IsProtected(rows, built, p) && IsProtected(rows, built, q) && KeyOf(p) == KeyOf(q) ==> p == q
    ensures IsProtected(rows, built, row) ==> forall other :: IsBuilt(rows, other) && KeyOf(other) == KeyOf(row) ==> Newer(row, other)
  {
    KeyIsProtected(rows, built, row);
    forall p, q | IsProtected(rows, built, p) && IsProtected(rows, built, q) && KeyOf(p) == KeyOf(q) ensures p == q {
      ProtectedOnce(rows, built, p, q);
    }
    if IsProtected(rows, built, row) {
      forall other | IsBuilt(rows, other) && KeyOf(other) == KeyOf(row) ensures Newer(row, other) {
        ProtectedIsNewer(rows, built, row, other);
      }
    }
  }

  ghost predicate IsProtected(rows: Rows, built: seq<Row>, row: Row) {
    IsBuilt(rows, row) && row.core.id in ProtectedIds(built)
  }

  ghost function ProtectedPosition(rows: Rows, built: seq<Row>, row: Row): (i: nat)
    requires NewestFirst(rows, built) && IsProtected(rows, built, row)
    ensures FirstOfKey(built, i) && built[i] == row
  {
    ProtectedMember(built, row.core.id);
    var i: nat :| FirstOfKey(built, i) && built[i].core.id == row.core.id;
    assert built[i] in built && IsBuilt(rows, built[i]);
    i
  }

  /** No other built row of the group is as new. */
  ghost predicate IsNewest<K>(rows: Rows, group: Row -> K, row: Row) {
    IsBuilt(rows, row) && forall other :: IsBuilt(rows, other) && group(other) == group(row) ==> Newer(row, other)
  }

  /** No two built rows were created at the same time. */
  ghost predicate Timestamped(rows: Rows) {
    forall a, b :: IsBuilt(rows, a) && IsBuilt(rows, b) && a.core.createdAt == b.core.createdAt ==> a == b
  }

  /** Every group with a built row has a newest one. */
  lemma {:induction false} NewestExists<K>(rows: Rows, built: seq<Row>, group: Row -> K, row: Row) returns (newest: Row)
    requires NewestFirst(rows, built) && IsBuilt(rows, row)
    ensures IsNewest(rows, group, newest) && group(newest) == group(row)
  {
    assert row in built;
    var i: nat :| i < |built| && built[i] == row;
    var f := FirstOfGroup(built, group, i);
    newest := built[f];
    assert newest in built;
    forall other | IsBuilt(rows, other) && group(other) == group(newest) ensures Newer(newest, other) {
      assert other in built;
      var k :| 0 <= k < |built| && built[k] == other;
      assert f <= k;
    }
  }

  lemma {:induction false} FirstOfGroup<K>(built: seq<Row>, group: Row -> K, i: nat) returns (f: nat)
    requires i < |built|
    ensures f <= i && group(built[f]) == group(built[i]) && forall j :: 0 <= j < f ==> group(built[j]) != group(built[f])
    decreases i
  {
    if j :| 0 <= j < i && group(built[j]) == group(built[i]) {
      f := FirstOfGroup(built, group, j);
    } else {
      f := i;
    }
  }

  /** With distinct creation times, a built row is protected exactly when it is the newest of its key. */
  lemma {:induction false} ProtectedIffNewest(rows: Rows, built: seq<Row>, row: Row)
    requires NewestFirst(rows, built) && IsBuilt(rows, row) && Timestamped(rows)
    ensures IsProtected(rows, built, row) <==> IsNewest(rows, KeyOf, row)
  {
    OneProtectedPerKey(rows, built, row);
    var p :| IsProtected(rows, built, p) && KeyOf(p) == KeyOf(row);
    OneProtectedPerKey(rows, built, p);
    assert Newer(p, row);
  }

  ghost predicate IsNewestBuild(rows: Rows, profile: string, stack: string, row: Row) {
    && IsBuilt(rows, row) && row.core.profile == profile && row.core.stack == stack
    && forall other :: IsBuilt(rows, other) && other.core.profile == profile && other.core.stack == stack ==> Newer(row, other)
  }

  // ----- the store -----

  class CatalogStore {
    var rows: Rows

    constructor ()
      ensures rows == map[]
    {
      rows := map[];
    }

    method InsertArtifact(r: Record) returns (ok: bool)
      modifies this
      ensures ok <==> !Collides(old(rows), r)
      ensures rows == if ok then Insert(old(rows), r) else old(rows)
    {
      if r.core.id in rows || (exists id :: id in rows && rows[id].core.tag == r.core.tag)
         || (exists id :: id in rows && rows[id].core.fingerprint == r.core.fingerprint) {
        return false;
      }
      rows := rows[r.core.id := ToRow(r)];
      ok := true;
    }

    method UpdateArtifact(r: Record)
      modifies this
      ensures rows == Update(old(rows), r)
    {
      if r.core.id in rows {
        var row := rows[r.core.id];
        rows := rows[r.core.id := Copied(row, r)];
      }
    }

    method MarkAllStale(profile: string, stack: string, reason: string) returns (count: nat)
      modifies this
      ensures rows == MarkStale(old(rows), profile, stack, reason)
      ensures count == |MarkedIds(old(rows), profile, stack)|
    {
      var marked := MarkedIds(rows, profile, stack);
      count := |marked|;
      rows := rows + map id | id in marked :: Staled(rows[id], reason);
    }

    method FindByTag(tag: string) returns (r: Option<Record>)
      requires Valid(rows)
      ensures r == ByTag(rows, tag)
    {
      if id :| id in rows && rows[id].core.tag == tag {
        LookupUnique(rows, id);
        return Some(ToRecord(rows[id]));
      }
      return None;
    }

    method FindByFingerprint(fp: string) returns (r: Option<Record>)
      requires Valid(rows)
      ensures r == ByFingerprint(rows, fp)
    {
      if id :| id in rows && rows[id].core.fingerprint == fp {
        LookupUnique(rows, id);
        return Some(ToRecord(rows[id]));
      }
      return None;
    }

    method PruneArtifact(id: string)
      modifies this
      ensures rows == Prune(old(rows), id)
    {
      if id == "" { return; }
      if id in rows { rows := rows - {id}; }
    }

    method PruneStatus(status: Status) returns (count: nat)
      modifies this
      ensures rows == PruneByStatus(old(rows), status)
      ensures count == |set id | id in old(rows) && old(rows)[id].core.status == status|
    {
      var doomed := set id | id in rows && rows[id].core.status == status;
      count := |doomed|;
      rows := rows - doomed;
    }

    /** The query behind `find_unused`, `count_protected` and `get_newest_build`. */
    method QueryBuilt() returns (built: seq<Row>)
      requires Valid(rows)
      ensures NewestFirst(rows, built)
    {
      var todo := rows.Keys;
      built := [];
      while todo != {}
        invariant todo <= rows.Keys && Distinct(built) && Sorted(Newer, built)
        invariant forall row :: row in built <==> row.core.id !in todo && IsBuilt(rows, row)
        decreases todo
      {
        var id :| id in todo;
        todo := todo - {id};
        if rows[id].core.status == Built {
          InsertByDistinct(Newer, rows[id], built);
          InsertBySorted(Newer, rows[id], built);
          built := InsertBy(Newer, rows[id], built);
        }
      }
    }

    /** `get_newest_build`. */
    method NewestBuild(profile: string, stack: string) returns (r: Option<Record>)
      requires Valid(rows)
      ensures r.None? <==> forall row :: IsBuilt(rows, row) ==> row.core.profile != profile || row.core.stack != stack
      ensures r.Some? ==> exists row :: r == Some(ToRecord(row)) && IsNewestBuild(rows, profile, stack, row)
    {
      var built := QueryBuilt();
      for i := 0 to |built|
        invariant forall j :: 0 <= j < i ==> built[j].core.profile != profile || built[j].core.stack != stack
      {
        if built[i].core.profile == profile && built[i].core.stack == stack {
          assert built[i] in built;
          forall other | IsBuilt(rows, other) && other.core.profile == profile && other.core.stack == stack ensures Newer(built[i], other) {
            assert other in built;
            var k :| 0 <= k < |built| && built[k] == other;
            assert i <= k;
          }
          assert IsNewestBuild(rows, profile, stack, built[i]);
          return Some(ToRecord(built[i]));
        }
      }
      r := None;
    }
  }
}
