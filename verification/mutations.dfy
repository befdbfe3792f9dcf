/** The mutation coordinator as functions on the database: what each committed
    transaction of internal/objects, internal/blobs, internal/collections and
    internal/jobs does to the tables, and what it answers. The methods of
    server.dfy are proved against these functions; the run theorems are about
    them. A transaction that fails in SQL rolls back and is not a step. */
module Mutations {
  import opened Tables

  const DAY: Millis := 86_400_000

  /** What a coordinator call answers. */
  datatype Outcome<+R> =
    | OK(response: R)
    | NotFound
    | VersionConflict(conflict: Conflict)
    | BlobNotStaged
    | MutationMismatch
    | MutationPending

  /** What a committed transaction did to collection contents. */
  datatype Effect =
    | Quiet
    | Created(row: Object)
    | Updated(before: Object, row: Object)
    | Removed(before: Object, row: Object)

  datatype Tx<+R> = Tx(db: Database, outcome: Outcome<R>, effect: Effect)

  /** The clock readings of one transaction: the staging check, the row
      timestamps and the result row's own reading. */
  datatype Clock = Clock(check: Millis, write: Millis, save: Millis)

  // ---- Mutation results ----------------------------------------------------

  const NO_CONFLICT := Conflict(0, None)
  const NO_OBJECT := Object("", "", "", 0, 0, false, None, None, 0, 0)

  /** Only these calls leave a row in mutation_results. */
  predicate Recordable(mid: string, intent: Intent) {
    mid != "" && ValidUuid(intent.collection) && (intent.objectId.Some? ==> ValidUuid(intent.objectId.value))
  }

  predicate Matches(row: ResultRow, intent: Intent) {
    row.kind == intent.kind && row.collection == intent.collection &&
    (intent.kind != Create ==> row.objectId == intent.objectId && row.requestedVersion == intent.requestedVersion)
  }

  /** Fresh: no recorded answer, so the mutation runs. */
  datatype Replay = Fresh | Mismatch | Recorded(stored: StoredResult)

  function Lookup(results: Results, user: string, mid: string, intent: Intent): Replay {
    if mid == "" || (user, mid) !in results then Fresh
    else if !Matches(results[(user, mid)], intent) then Mismatch
    else Recorded(results[(user, mid)].result)
  }

  /** The request that inserted the pending row may pass through it. */
  function Gate(results: Results, user: string, mid: string, intent: Intent, prepared: bool): Replay {
    var found := Lookup(results, user, mid, intent);
    if prepared && found.Recorded? && found.stored.status == 102 then Fresh else found
  }

  function PrepareMutation(db: Database, user: string, mid: string, intent: Intent,
                           now: Millis): (r: (Database, bool)) {
    if !Recordable(mid, intent) || (user, mid) in db.results then (db, false)
    else
      var row := ResultRow(intent.kind, intent.collection, intent.objectId, intent.requestedVersion,
                           StoredResult(102, PendingBody), now);
      (db.(results := db.results[(user, mid) := row]), true)
  }

  function SaveResult(results: Results, user: string, mid: string, intent: Intent, stored: StoredResult,
                      resultingObject: Option<string>, now: Millis): Results
  {
    if !Recordable(mid, intent) then results
    else
      var objectId := if intent.kind == Create then resultingObject else intent.objectId;
      var row := if (user, mid) in results
                 then results[(user, mid)].(objectId := objectId, requestedVersion := intent.requestedVersion,
                   result := stored)
                 else ResultRow(intent.kind, intent.collection, objectId, intent.requestedVersion, stored, now);
      results[(user, mid) := row]
  }

  /** Decoding a recorded body as a mutation response; a body of another shape
      decodes to the fields the two share. */
  function DecodeMutation(body: Body, create: bool): MutationResponse {
    var decoded := match body
      case MutationBody(response) => response
      case DeleteBody(d) =>
        MutationResponse(NO_OBJECT.(id := d.row.id, version := d.row.version,
                                    changeSeq := d.row.changeSeq, deleted := d.row.deleted),
                         d.collectionVersion, None)
      case _ => MutationResponse(NO_OBJECT, 0, None);
    if create then decoded.(replayed := Some(true)) else decoded
  }

  function DecodeDelete(body: Body): DeleteResponse {
    match body
    case DeleteBody(response) => response
    case MutationBody(m) =>
      DeleteResponse(DeletedObject(m.row.id, m.row.version, m.row.changeSeq, m.row.deleted), m.collectionVersion)
    case _ => DeleteResponse(DeletedObject("", 0, 0, false), 0)
  }

  function DecodeConflict(body: Body): Conflict {
    if body.ConflictBody? then body.conflict else NO_CONFLICT
  }

  function MutationOutcomeFromStored(stored: StoredResult, create: bool): Outcome<MutationResponse> {
    match stored.status
    case 404 => NotFound
    case 409 => if stored.body == NotStagedBody then BlobNotStaged else VersionConflict(DecodeConflict(stored.body))
    case 102 => MutationPending
    case _ => OK(DecodeMutation(stored.body, create))
  }

  function DeleteOutcomeFromStored(stored: StoredResult): Outcome<DeleteResponse> {
    match stored.status
    case 102 => MutationPending
    case 409 => VersionConflict(DecodeConflict(stored.body))
    case 404 => NotFound
    case _ => OK(DecodeDelete(stored.body))
  }

  // ---- The table changes of an accepted mutation ---------------------------

  predicate CollectionFound(db: Database, user: string, id: string) {
    ValidUuid(id) && id in db.collections && db.collections[id].user == user
  }

  predicate ObjectFound(db: Database, user: string, collection: string, id: string) {
    id in db.objects && db.objects[id].collection == collection && db.objects[id].user == user
  }

  /** A blob row a mutation may claim: staged, the user's own, inserted less
      than 24 hours before this clock reading. */
  predicate Claimable(ledger: Ledger, user: string, key: string, now: Millis) {
    key in ledger && ledger[key].user == user && ledger[key].state == Staged && ledger[key].createdAt > now - DAY
  }

  function Bump(collections: Collections, id: string): Collections
    requires id in collections
  {
    collections[id := collections[id].(currentVersion := collections[id].currentVersion + 1)]
  }

  function Claim(ledger: Ledger, key: string, row: Object, now: Millis): Ledger
    requires key in ledger
  {
    ledger[key := ledger[key].(state := Claimed, collection := Some(row.collection), objectId := Some(row.id),
                               objectVersion := Some(row.version), stateChangedAt := now)]
  }

  /** Keyed on the blob key and the claimed state only, as the statement is. */
  function Release(ledger: Ledger, key: Option<string>, now: Millis): Ledger {
    if key.Some? && key.value in ledger && ledger[key.value].state == Claimed then
      var row := ledger[key.value];
      ledger[key.value := row.(state := Retained, objectId := None, objectVersion := None, stateChangedAt := now)]
    else ledger
  }

  function NewObject(db: Database, user: string, collection: string, id: string, key: string, now: Millis): Object
    requires collection in db.collections && key in db.ledger
  {
    Object(id, collection, user, 1, db.collections[collection].currentVersion + 1, false,
           Some(key), Some(db.ledger[key].size), now, now)
  }

  function AcceptCreate(db: Database, o: Object): Database
    requires o.collection in db.collections && o.blobKey.Some? && o.blobKey.value in db.ledger
  {
    db.(collections := Bump(db.collections, o.collection),
        objects := db.objects[o.id := o],
        ledger := Claim(db.ledger, o.blobKey.value, o, o.updatedAt))
  }

  function NextRow(db: Database, id: string, key: string, now: Millis): Object
    requires id in db.objects && db.objects[id].collection in db.collections && key in db.ledger
  {
    var o := db.objects[id];
    o.(id := id, version := o.version + 1, changeSeq := db.collections[o.collection].currentVersion + 1,
       blobKey := Some(key), sizeBytes := Some(db.ledger[key].size), updatedAt := now)
  }

  function AcceptUpdate(db: Database, o: Object): Database
    requires o.id in db.objects && o.collection in db.collections && o.blobKey.Some? && o.blobKey.value in db.ledger
  {
    var released := Release(db.ledger, db.objects[o.id].blobKey, o.updatedAt);
    db.(collections := Bump(db.collections, o.collection),
        objects := db.objects[o.id := o],
        ledger := Claim(released, o.blobKey.value, o, o.updatedAt))
  }

  function Tombstone(db: Database, id: string, now: Millis): Object
    requires id in db.objects && db.objects[id].collection in db.collections
  {
    var o := db.objects[id];
    o.(id := id, deleted := true, version := o.version + 1,
       changeSeq := db.collections[o.collection].currentVersion + 1, updatedAt := now)
  }

  function AcceptDelete(db: Database, o: Object): Database
    requires o.id in db.objects && o.collection in db.collections
  {
    db.(collections := Bump(db.collections, o.collection),
        objects := db.objects[o.id := o],
        ledger := Release(db.ledger, db.objects[o.id].blobKey, o.updatedAt))
  }

  // ---- Coordinator transactions --------------------------------------------

  function CreateIntent(collection: string): Intent { Intent(Create, collection, None, None) }

  function UpdateIntent(collection: string, objectId: string, version: int): Intent {
    Intent(Update, collection, Some(objectId), Some(version))
  }

  function DeleteIntent(collection: string, objectId: string, expected: Option<int>): Intent {
    Intent(Delete, collection, Some(objectId), expected)
  }

  /** The read ReserveCreate makes when the mutation id was already taken;
      None lets the create run. */
  function ReservedAnswer(results: Results, user: string, collection: string,
                          mid: string): Option<Outcome<MutationResponse>> {
    match Lookup(results, user, mid, CreateIntent(collection))
    case Mismatch => Some(MutationMismatch)
    case Fresh => None
    case Recorded(stored) => Some(MutationOutcomeFromStored(stored, true))
  }

  /** How a fresh outcome is recorded. The last two are never recorded. */
  function RecordMutation(kind: Kind, outcome: Outcome<MutationResponse>): StoredResult {
    match outcome
    case OK(response) => StoredResult(if kind == Create then 201 else 200, MutationBody(response))
    case NotFound => StoredResult(404, NotFoundBody)
    case BlobNotStaged => StoredResult(409, NotStagedBody)
    case VersionConflict(conflict) => StoredResult(409, ConflictBody(conflict))
    case MutationMismatch => StoredResult(102, PendingBody)
    case MutationPending => StoredResult(102, PendingBody)
  }

  function RecordDelete(outcome: Outcome<DeleteResponse>): StoredResult {
    match outcome
    case OK(response) => StoredResult(200, DeleteBody(response))
    case NotFound => StoredResult(404, NotFoundBody)
    case BlobNotStaged => StoredResult(409, NotStagedBody)
    case VersionConflict(conflict) => StoredResult(409, ConflictBody(conflict))
    case MutationMismatch => StoredResult(102, PendingBody)
    case MutationPending => StoredResult(102, PendingBody)
  }

  /** The replay check in front of a create or update, and the recording behind it. */
  function GuardMutation(db: Database, user: string, mid: string, intent: Intent, prepared: bool,
                         run: Tx<MutationResponse>, save: Millis): Tx<MutationResponse>
  {
    match Gate(db.results, user, mid, intent, prepared)
    case Mismatch => Tx(db, MutationMismatch, Quiet)
    case Recorded(stored) => Tx(db, MutationOutcomeFromStored(stored, intent.kind == Create), Quiet)
    case Fresh =>
      var resulting := if intent.kind == Create && run.outcome.OK? then Some(run.outcome.response.row.id) else None;
      var stored := RecordMutation(intent.kind, run.outcome);
      run.(db := run.db.(results := SaveResult(db.results, user, mid, intent, stored, resulting, save)))
  }

  function GuardDelete(db: Database, user: string, mid: string, intent: Intent, prepared: bool,
                       run: Tx<DeleteResponse>, save: Millis): Tx<DeleteResponse>
  {
    match Gate(db.results, user, mid, intent, prepared)
    case Mismatch => Tx(db, MutationMismatch, Quiet)
    case Recorded(stored) => Tx(db, DeleteOutcomeFromStored(stored), Quiet)
    case Fresh =>
      run.(db := run.db.(results := SaveResult(db.results, user, mid, intent, RecordDelete(run.outcome), None, save)))
  }

  /** A create past its replay check. */
  function RunCreate(db: Database, user: string, collection: string, key: string, id: string,
                     clock: Clock): Tx<MutationResponse> {
    if !CollectionFound(db, user, collection) then Tx(db, NotFound, Quiet)
    else if !Claimable(db.ledger, user, key, clock.check) then Tx(db, BlobNotStaged, Quiet)
    else
      var o := NewObject(db, user, collection, id, key, clock.write);
      Tx(AcceptCreate(db, o), OK(MutationResponse(o, o.changeSeq, Some(false))), Created(o))
  }

  function CreateTx(db: Database, user: string, collection: string, mid: string, key: string,
                    prepared: bool, id: string, clock: Clock): Tx<MutationResponse>
  {
    GuardMutation(db, user, mid, CreateIntent(collection), prepared, RunCreate(db, user, collection, key, id, clock),
      clock.save)
  }

  /** An update past its replay check. */
  function RunUpdate(db: Database, user: string, collection: string, objectId: string, key: string,
                     version: int, clock: Clock): Tx<MutationResponse>
  {
    if !CollectionFound(db, user, collection) || !ValidUuid(objectId) ||
      !ObjectFound(db, user, collection, objectId) then
      Tx(db, NotFound, Quiet)
    else
      var current := db.objects[objectId];
      if version != current.version + 1 then Tx(db, VersionConflict(Conflict(current.version, current.blobKey)), Quiet)
      else if !Claimable(db.ledger, user, key, clock.check) then Tx(db, BlobNotStaged, Quiet)
      else
        var o := NextRow(db, objectId, key, clock.write);
        Tx(AcceptUpdate(db, o), OK(MutationResponse(o, o.changeSeq, None)), Updated(current, o))
  }

  function UpdateTx(db: Database, user: string, collection: string, objectId: string, mid: string, key: string,
                    version: int, prepared: bool, clock: Clock): Tx<MutationResponse>
  {
    GuardMutation(db, user, mid, UpdateIntent(collection, objectId, version), prepared,
                  RunUpdate(db, user, collection, objectId, key, version, clock), clock.save)
  }

  function Projection(o: Object): DeletedObject { DeletedObject(o.id, o.version, o.changeSeq, o.deleted) }

  /** A delete past its replay check. The version guard comes before the
      re-delete answer, which bumps nothing. */
  function RunDelete(db: Database, user: string, collection: string, objectId: string,
                     expected: Option<int>, clock: Clock): Tx<DeleteResponse>
  {
    if !CollectionFound(db, user, collection) || !ValidUuid(objectId) ||
      !ObjectFound(db, user, collection, objectId) then
      Tx(db, NotFound, Quiet)
    else
      var current := db.objects[objectId];
      if expected.Some? && expected.value != current.version then
        Tx(db, VersionConflict(Conflict(current.version, current.blobKey)), Quiet)
      else if current.deleted then
        Tx(db, OK(DeleteResponse(Projection(current), db.collections[collection].currentVersion)), Quiet)
      else
        var o := Tombstone(db, objectId, clock.write);
        Tx(AcceptDelete(db, o), OK(DeleteResponse(Projection(o), o.changeSeq)), Removed(current, o))
  }

  function DeleteTx(db: Database, user: string, collection: string, objectId: string, mid: string,
                    expected: Option<int>, prepared: bool, clock: Clock): Tx<DeleteResponse>
  {
    GuardDelete(db, user, mid, DeleteIntent(collection, objectId, expected), prepared,
                RunDelete(db, user, collection, objectId, expected, clock), clock.save)
  }

  function RecoverCreate(db: Database, user: string, collection: string, mid: string): Outcome<MutationResponse> {
    if !CollectionFound(db, user, collection) || (user, mid) !in db.results then NotFound
    else
      var row := db.results[(user, mid)];
      if row.collection != collection || row.kind != Create then NotFound
      else if row.result.status == 102 then MutationPending
      else if 200 <= row.result.status < 300 then OK(DecodeMutation(row.result.body, true))
      else if row.result.status == 409 then VersionConflict(NO_CONFLICT)
      else if row.result.status == 404 then NotFound
      else OK(MutationResponse(NO_OBJECT, 0, None))
  }

  // ---- Collections ---------------------------------------------------------

  function CollectionsOf(db: Database, user: string): set<string> {
    set id | id in db.collections && db.collections[id].user == user
  }

  function ClaimCollectionTx(db: Database, user: string, id: string, now: Millis): Database {
    if CollectionsOf(db, user) != {} then db
    else db.(collections := db.collections[id := Collection(user, now, 0)])
  }

  function ObjectsOf(objects: Objects, collection: string): set<string> {
    set id | id in objects && objects[id].collection == collection
  }

  /** The purgeable transition, then the objects foreign key's "set null". */
  function CascadeRow(row: LedgerRow, collection: string, gone: set<string>, now: Millis): LedgerRow {
    var purged := if row.collection == Some(collection) && row.state in {Claimed, Retained}
                  then row.(state := Purgeable, stateChangedAt := now) else row;
    if purged.objectId.Some? && purged.objectId.value in gone then purged.(objectId := None) else purged
  }

  function DeleteCollectionTx(db: Database, user: string, id: string, now: Millis): Database {
    if !CollectionFound(db, user, id) then db
    else
      var gone := ObjectsOf(db.objects, id);
      db.(collections := db.collections - {id},
          objects := db.objects - gone,
          ledger := map key | key in db.ledger :: CascadeRow(db.ledger[key], id, gone, now),
          results := map k | k in db.results && !(k.0 == user && db.results[k].collection == id) :: db.results[k])
  }

  // ---- Blobs and background jobs -------------------------------------------

  function StagedRow(user: string, size: nat, now: Millis): LedgerRow {
    LedgerRow(user, size, Staged, None, None, None, now, now)
  }

  function InsertStagedTx(db: Database, user: string, key: string, size: nat, now: Millis): Database {
    db.(ledger := db.ledger[key := StagedRow(user, size, now)])
  }

  predicate HasPrefix(s: string, prefix: string) { |prefix| <= |s| && s[..|prefix|] == prefix }

  /** The row half of blobs.Delete: whether the file may be removed. */
  function DropBlobRowTx(db: Database, user: string, key: string): (Database, bool) {
    if !HasPrefix(key, user + "/") then (db, false)
    else if key !in db.ledger then (db, true)
    else if db.ledger[key].state != Staged then (db, false)
    else (db.(ledger := db.ledger - {key}), true)
  }

  /** The cleanup predicate of both garbage-collection statements. */
  predicate Collectable(row: LedgerRow, now: Millis) {
    (row.state == Staged && row.stateChangedAt < now - DAY) ||
    (row.state == Retained && row.stateChangedAt < now - 365 * DAY) ||
    row.state == Purgeable
  }

  function PurgeRowTx(db: Database, key: string, now: Millis): (Database, bool) {
    if key in db.ledger && Collectable(db.ledger[key], now) then (db.(ledger := db.ledger - {key}), true)
      else (db, false)
  }

  /** The part of a storage key before its first slash. */
  function OwnerOf(key: string): Option<string> {
    if key == "" then None
    else if key[0] == '/' then Some("")
    else
      match OwnerOf(key[1..])
      case None => None
      case Some(rest) => Some([key[0]] + rest)
  }

  predicate Adoptable(db: Database, key: string) {
    var owner := OwnerOf(key);
    owner.Some? && ValidUuid(owner.value) && owner.value in db.users
  }

  function AdoptTx(db: Database, key: string, size: nat, now: Millis): (Database, bool) {
    if !Adoptable(db, key) || key in db.ledger then (db, false)
    else (InsertStagedTx(db, OwnerOf(key).value, key, size, now), true)
  }

  /** The 24-hour statement compares ->> with a text. On Postgres the status is a
      text; on SQLite it is an integer, which equals no text. retention.dfy
      evaluates both statements on the JSON. */
  predicate PendingExpired(engine: Engine, row: ResultRow, now: Millis) {
    engine.Postgres? && row.createdAt < now - DAY && row.result.status == 102
  }

  /** Thirty days, except that a successful create is kept. */
  predicate OtherExpired(engine: Engine, row: ResultRow, now: Millis) {
    row.createdAt < now - 30 * DAY && (engine.SQLite? || row.result.status != 102) &&
    !(row.kind == Create && 200 <= row.result.status < 300)
  }

  function ExpirePendingTx(db: Database, engine: Engine, now: Millis): Database {
    db.(results := map k | k in db.results && !PendingExpired(engine, db.results[k], now) :: db.results[k])
  }

  function ExpireOtherTx(db: Database, engine: Engine, now: Millis): Database {
    db.(results := map k | k in db.results && !OtherExpired(engine, db.results[k], now) :: db.results[k])
  }
}
