/** The rows the server keeps, one datatype per SQL table, and the identifiers
    that name them. A row is a value; the tables that hold rows are fields of
    the classes in server.dfy and of the run states in worlds.dfy. */
module Tables {

  datatype Option<+T> = None | Some(value: T)

  newtype byte = x: int | 0 <= x < 256

  /** The two database engines; SQLite is the default. */
  datatype Engine = SQLite | Postgres

  /** Milliseconds since the epoch. timestamps.dfy shows why the text columns
      compare like these integers. */
  type Millis = int

  // ---- Identifiers ---------------------------------------------------------

  predicate HexDigit(c: char) {
    '0' <= c <= '9' || 'a' <= c <= 'f' || 'A' <= c <= 'F'
  }

  /** The canonical 8-4-4-4-12 form. */
  predicate ValidUuid(s: string) {
    |s| == 36 &&
    forall i | 0 <= i < |s| :: if i in {8, 13, 18, 23} then s[i] == '-' else HexDigit(s[i])
  }

  // ---- Rows ----------------------------------------------------------------

  datatype Collection = Collection(user: string, createdAt: Millis, currentVersion: nat)

  datatype Object = Object(
    id: string, collection: string, user: string,
    version: int, changeSeq: nat, deleted: bool,
    blobKey: Option<string>, sizeBytes: Option<nat>,
    createdAt: Millis, updatedAt: Millis)

  datatype BlobState = Staged | Claimed | Retained | Purgeable | LegacyShared

  datatype LedgerRow = LedgerRow(
    user: string, size: nat, state: BlobState,
    collection: Option<string>, objectId: Option<string>, objectVersion: Option<int>,
    createdAt: Millis, stateChangedAt: Millis)

  datatype Kind = Create | Update | Delete

  datatype Intent = Intent(kind: Kind, collection: string, objectId: Option<string>, requestedVersion: Option<int>)

  datatype Conflict = Conflict(currentVersion: int, currentBlobKey: Option<string>)

  datatype MutationResponse = MutationResponse(row: Object, collectionVersion: nat, replayed: Option<bool>)

  datatype DeletedObject = DeletedObject(id: string, version: int, changeSeq: nat, deleted: bool)

  datatype DeleteResponse = DeleteResponse(row: DeletedObject, collectionVersion: nat)

  /** The JSON bodies the coordinator records. */
  datatype Body =
    | PendingBody
    | NotFoundBody
    | NotStagedBody
    | ConflictBody(conflict: Conflict)
    | MutationBody(response: MutationResponse)
    | DeleteBody(deleteResponse: DeleteResponse)

  datatype StoredResult = StoredResult(status: int, body: Body)

  datatype ResultRow = ResultRow(
    kind: Kind, collection: string, objectId: Option<string>, requestedVersion: Option<int>,
    result: StoredResult, createdAt: Millis)

  /** mutation_results is keyed on (user_id, mutation_id). */
  type ResultKey = (string, string)

  type Collections = map<string, Collection>
  type Objects = map<string, Object>
  type Ledger = map<string, LedgerRow>
  type Results = map<ResultKey, ResultRow>

  datatype Database = Database(
    users: set<string>, collections: Collections, objects: Objects, ledger: Ledger, results: Results)

  /** A doorbell notification: a collection of this user reached this version. */
  datatype Note = Note(user: string, collection: string, version: nat)
}
