/** The coordinator in the form the program has it: one object whose tables and
    blob directory the methods update statement by statement. Each method is
    proved to leave exactly the state the functions of mutations.dfy give, so
    the run theorems hold of it. */
module Servers {
  import opened Tables
  import opened Pages
  import M = Mutations
  import P = Promises
  import W = Worlds

  method IsUuid(s: string) returns (valid: bool)
    ensures valid == ValidUuid(s)
  {
    if |s| != 36 { return false; }
    for i := 0 to |s|
      invariant forall j | 0 <= j < i :: if j in {8, 13, 18, 23} then s[j] == '-' else HexDigit(s[j])
    {
      if i == 8 || i == 13 || i == 18 || i == 23 {
        if s[i] != '-' { return false; }
      } else if !HexDigit(s[i]) {
        return false;
      }
    }
    return true;
  }

  /** ON DELETE SET NULL. */
  function Unlinked(row: LedgerRow, gone: set<string>): LedgerRow {
    if row.objectId.Some? && row.objectId.value in gone then row.(objectId := None) else row
  }

  lemma CascadesCompose(before: Ledger, purgeable: Ledger, after: Ledger, id: string, gone: set<string>, now: Millis)
    requires before.Keys == purgeable.Keys == after.Keys
    requires forall key | key in before :: purgeable[key] == M.CascadeRow(before[key], id, {}, now)
    requires forall key | key in before :: after[key] == Unlinked(purgeable[key], gone)
    ensures after == map key | key in before :: M.CascadeRow(before[key], id, gone, now)
  {
  }

  /** The notification an accepted mutation queues. */
  function NoteOf(effect: M.Effect, user: string): Option<Note> {
    if effect.Quiet? then None else Some(Note(user, effect.row.collection, effect.row.changeSeq))
  }

  /** An accepted mutation rings for its collection's new version, and nothing else rings. */
  lemma CreateRings(db: Database, user: string, collection: string, mid: string, key: string, prepared: bool,
                    id: string,
                    clock: M.Clock)
    ensures var tx := M.CreateTx(db, user, collection, mid, key, prepared, id, clock);
            P.Rings(db, tx.db, user, collection, NoteOf(tx.effect, user))
  {
    W.NewCursor(db.collections, collection);
    hide ValidUuid, M.Lookup, M.SaveResult, M.Bump;
  }

  lemma UpdateRings(db: Database, user: string, collection: string, id: string, mid: string, key: string, version: int,
                    prepared: bool, clock: M.Clock)
    ensures var tx := M.UpdateTx(db, user, collection, id, mid, key, version, prepared, clock);
            P.Rings(db, tx.db, user, collection, NoteOf(tx.effect, user))
  {
    W.NewCursor(db.collections, collection);
    hide ValidUuid, M.Lookup, M.SaveResult, M.Bump;
  }

  lemma DeleteRings(db: Database, user: string, collection: string, id: string, mid: string, expected: Option<int>,
                    prepared: bool, clock: M.Clock)
    ensures var tx := M.DeleteTx(db, user, collection, id, mid, expected, prepared, clock);
            P.Rings(db, tx.db, user, collection, NoteOf(tx.effect, user))
  {
    W.NewCursor(db.collections, collection);
    hide ValidUuid, M.Lookup, M.SaveResult, M.Bump;
  }

  /** The commits of the runs queue exactly the note the methods return. */
  lemma CreateQueues(w: W.World, user: string, collection: string, mid: string, key: string, prepared: bool, id: string,
                     clock: M.Clock)
    requires user in w.db.users && ValidUuid(id) && id !in w.minted
    ensures W.CreateStep(w, user, collection, mid, key, prepared, id, clock).log.queued ==
            w.log.queued + Bag(NoteOf(M.CreateTx(w.db, user, collection, mid, key, prepared, id, clock).effect, user))
  {
    hide ValidUuid, M.CreateTx;
  }

  lemma UpdateQueues(w: W.World, user: string, collection: string, id: string, mid: string, key: string, version: int,
                     prepared: bool, clock: M.Clock)
    requires user in w.db.users
    ensures W.UpdateStep(w, user, collection, id, mid, key, version, prepared, clock).log.queued ==
            w.log.queued + Bag(NoteOf(M.UpdateTx(w.db, user, collection, id, mid, key, version, prepared, clock).effect,
              user))
  {
    hide M.UpdateTx;
  }

  lemma DeleteQueues(w: W.World, user: string, collection: string, id: string, mid: string, expected: Option<int>,
                     prepared: bool, clock: M.Clock)
    requires user in w.db.users
    ensures W.DeleteStep(w, user, collection, id, mid, expected, prepared, clock).log.queued ==
            w.log.queued + Bag(NoteOf(M.DeleteTx(w.db, user, collection, id, mid, expected, prepared, clock).effect,
              user))
  {
    hide M.DeleteTx;
  }

  function Bag(note: Option<Note>): multiset<Note> { if note.Some? then multiset{note.value} else multiset{} }

  /** What the deleted collection's objects held is garbage at once. */
  lemma DroppedIsCollectable(db: Database, user: string, id: string, now: Millis)
    requires P.Owns(db, user, id)
    ensures forall k, t | k in db.ledger && db.ledger[k].collection == Some(id) &&
            db.ledger[k].state in {Claimed, Retained} ::
              M.Collectable(M.DeleteCollectionTx(db, user, id, now).ledger[k], t)
  {
    hide ValidUuid;
  }

  lemma Found(db: Database, user: string, collection: string, id: string)
    ensures M.CollectionFound(db, user, collection) ==> ValidUuid(collection) && collection in db.collections
    ensures M.ObjectFound(db, user, collection, id) ==> id in db.objects && db.objects[id].collection == collection
  {
  }

  class Server {
    var users: set<string>
    var collections: Collections
    var objects: Objects
    var ledger: Ledger
    var results: Results
    var files: map<string, seq<byte>>

    function Db(): Database
      reads this
    {
      Database(users, collections, objects, ledger, results)
    }

    constructor (users: set<string>)
      ensures Db() == Database(users, map[], map[], map[], map[]) && files == map[]
    {
      this.users := users;
      collections, objects, ledger, results, files := map[], map[], map[], map[], map[];
    }

    // ---- internal/objects -----------------------------------------------------

    method PrepareMutation(user: string, mid: string, intent: Intent, now: Millis) returns (prepared: bool)
      modifies this`results
      ensures (Db(), prepared) == M.PrepareMutation(old(Db()), user, mid, intent, now)
      ensures P.PrepareKept(old(Db()), Db(), user, mid, intent, now, prepared)
    {
      P.PrepareIsKept(Db(), user, mid, intent, now);
      if mid == "" { return false; }
      var valid := IsUuid(intent.collection);
      if valid && intent.objectId.Some? { valid := IsUuid(intent.objectId.value); }
      if !valid || (user, mid) in results { return false; }
      results := results[(user, mid) :=
        ResultRow(intent.kind, intent.collection, intent.objectId, intent.requestedVersion,
                                                  StoredResult(102, PendingBody), now)];
      return true;
    }

    method SaveResult(user: string, mid: string, intent: Intent, stored: StoredResult, resulting: Option<string>,
                      now: Millis)
      modifies this`results
      ensures results == M.SaveResult(old(results), user, mid, intent, stored, resulting, now)
      ensures P.Runs(old(Db()), user, mid, intent, true) ==>
              P.Records(old(results), results, user, mid, intent, stored,
                        if intent.kind == Create then resulting else intent.objectId, now)
    {
      if P.Runs(Db(), user, mid, intent, true) { P.SavesRecord(Db(), user, mid, intent, true, stored, resulting, now); }
      if mid == "" { return; }
      var valid := IsUuid(intent.collection);
      if valid && intent.objectId.Some? { valid := IsUuid(intent.objectId.value); }
      if !valid { return; }
      var objectId := intent.objectId;
      if intent.kind == Create { objectId := resulting; }
      if (user, mid) in results {
        var row := results[(user, mid)];
        results := results[(user, mid) :=
          row.(objectId := objectId, requestedVersion := intent.requestedVersion, result := stored)];
      } else {
        results := results[(user, mid) :=
          ResultRow(intent.kind, intent.collection, objectId, intent.requestedVersion, stored, now)];
      }
    }

    /** Some(outcome) is a settled reservation: nothing may be staged for it. */
    method ReserveCreate(user: string, collection: string, mid: string, now: Millis)
      returns (prepared: bool, settled: Option<M.Outcome<MutationResponse>>)
      modifies this`results
      ensures (Db(), prepared) == M.PrepareMutation(old(Db()), user, mid, M.CreateIntent(collection), now)
      ensures settled == if prepared || mid == "" || !ValidUuid(collection) then None
                         else M.ReservedAnswer(results, user, collection, mid)
      ensures P.PrepareKept(old(Db()), Db(), user, mid, Intent(Create, collection, None, None), now, prepared)
      ensures settled.Some? <==> !prepared && ValidUuid(collection) && P.Seen(Db(), user, mid)
      ensures settled.Some? ==> P.Replayed(Db(), Db(), user, mid, Intent(Create, collection, None, None), settled.value)
    {
      hide P.PrepareKept, P.Replayed, ValidUuid;
      var intent := M.CreateIntent(collection);
      prepared := PrepareMutation(user, mid, intent, now);
      P.ReservedIsReplayed(Db(), user, collection, mid);
      var valid := IsUuid(collection);
      if prepared || mid == "" || !valid { return prepared, None; }
      match M.Lookup(results, user, mid, intent)
      case Mismatch => settled := Some(M.MutationMismatch);
      case Fresh => settled := None;
      case Recorded(stored) => settled := Some(M.MutationOutcomeFromStored(stored, true));
    }

    method CreateReserved(user: string, collection: string, mid: string, key: string, prepared: bool, id: string,
                          clock: M.Clock)
      returns (outcome: M.Outcome<MutationResponse>, note: Option<Note>)
      modifies this`collections, this`objects, this`ledger, this`results
      ensures var tx := M.CreateTx(old(Db()), user, collection, mid, key, prepared, id, clock);
        Db() == tx.db && outcome == tx.outcome && note == NoteOf(tx.effect, user)
      ensures P.CreateKept(old(Db()), Db(), user, collection, mid, key, prepared, id, clock, outcome)
      ensures P.Rings(old(Db()), Db(), user, collection, note)
    {
      P.CreateIsKept(Db(), user, collection, mid, key, prepared, id, clock);
      CreateRings(Db(), user, collection, mid, key, prepared, id, clock);
      hide P.CreateKept, P.Rings, ValidUuid, M.SaveResult, M.Lookup, M.MutationOutcomeFromStored;
      var intent := M.CreateIntent(collection);
      match M.Lookup(results, user, mid, intent) {
        case Mismatch => return M.MutationMismatch, None;
        case Recorded(stored) =>
          if !(prepared && stored.status == 102) { return M.MutationOutcomeFromStored(stored, true), None; }
        case Fresh =>
      }
      var valid := IsUuid(collection);
      if !valid || collection !in collections || collections[collection].user != user {
        SaveResult(user, mid, intent, StoredResult(404, NotFoundBody), None, clock.save);
        return M.NotFound, None;
      }
      if !M.Claimable(ledger, user, key, clock.check) {
        SaveResult(user, mid, intent, StoredResult(409, NotStagedBody), None, clock.save);
        return M.BlobNotStaged, None;
      }
      var version := collections[collection].currentVersion + 1;
      collections := collections[collection := collections[collection].(currentVersion := version)];
      var o := Object(id, collection, user, 1, version, false, Some(key), Some(ledger[key].size), clock.write,
        clock.write);
      objects := objects[id := o];
      ledger := ledger[key := ledger[key].(state := Claimed, collection := Some(collection), objectId := Some(id),
                                           objectVersion := Some(1), stateChangedAt := clock.write)];
      var response := MutationResponse(o, version, Some(false));
      SaveResult(user, mid, intent, StoredResult(201, MutationBody(response)), Some(id), clock.save);
      return M.OK(response), Some(Note(user, collection, version));
    }

    method Update(user: string, collection: string, objectId: string, mid: string, key: string, version: int,
                  prepareAt: Millis, clock: M.Clock)
      returns (outcome: M.Outcome<MutationResponse>, note: Option<Note>)
      modifies this`collections, this`objects, this`ledger, this`results
      ensures var (db, prepared) :=
              M.PrepareMutation(old(Db()), user, mid, M.UpdateIntent(collection, objectId, version), prepareAt);
        var tx := M.UpdateTx(db, user, collection, objectId, mid, key, version, prepared, clock);
        Db() == tx.db && outcome == tx.outcome && note == NoteOf(tx.effect, user) &&
        P.PrepareKept(old(Db()), db, user, mid, M.UpdateIntent(collection, objectId, version), prepareAt, prepared) &&
        P.UpdateKept(db, Db(), user, collection, objectId, mid, key, version, prepared, clock, outcome)
      ensures P.Rings(old(Db()), Db(), user, collection, note)
    {
      hide P.PrepareKept, P.UpdateKept;
      var prepared := PrepareMutation(user, mid, M.UpdateIntent(collection, objectId, version), prepareAt);
      outcome, note := UpdatePrepared(user, collection, objectId, mid, key, version, prepared, clock);
    }

    /** The transaction of an update, after its Mutation-Id was prepared. */
    method UpdatePrepared(user: string, collection: string, objectId: string, mid: string, key: string, version: int,
                          prepared: bool, clock: M.Clock)
      returns (outcome: M.Outcome<MutationResponse>, note: Option<Note>)
      modifies this`collections, this`objects, this`ledger, this`results
      ensures var tx := M.UpdateTx(old(Db()), user, collection, objectId, mid, key, version, prepared, clock);
        Db() == tx.db && outcome == tx.outcome && note == NoteOf(tx.effect, user)
      ensures P.UpdateKept(old(Db()), Db(), user, collection, objectId, mid, key, version, prepared, clock, outcome)
      ensures P.Rings(old(Db()), Db(), user, collection, note)
    {
      P.UpdateIsKept(Db(), user, collection, objectId, mid, key, version, prepared, clock);
      UpdateRings(Db(), user, collection, objectId, mid, key, version, prepared, clock);
      Found(Db(), user, collection, objectId);
      hide P.UpdateKept, P.Rings, M.CollectionFound, M.ObjectFound, ValidUuid, M.SaveResult, M.Lookup,
        M.MutationOutcomeFromStored;
      var intent := M.UpdateIntent(collection, objectId, version);
      match M.Lookup(results, user, mid, intent) {
        case Mismatch => return M.MutationMismatch, None;
        case Recorded(stored) =>
          if !(prepared && stored.status == 102) { return M.MutationOutcomeFromStored(stored, false), None; }
        case Fresh =>
      }
      var valid := IsUuid(collection);
      if valid { valid := IsUuid(objectId); }
      if !valid || !M.CollectionFound(Db(), user, collection) || !M.ObjectFound(Db(), user, collection, objectId) {
        SaveResult(user, mid, intent, StoredResult(404, NotFoundBody), None, clock.save);
        return M.NotFound, None;
      }
      var current := objects[objectId];
      if version != current.version + 1 {
        var conflict := Conflict(current.version, current.blobKey);
        SaveResult(user, mid, intent, StoredResult(409, ConflictBody(conflict)), None, clock.save);
        return M.VersionConflict(conflict), None;
      }
      if !M.Claimable(ledger, user, key, clock.check) {
        SaveResult(user, mid, intent, StoredResult(409, NotStagedBody), None, clock.save);
        return M.BlobNotStaged, None;
      }
      var size := ledger[key].size;
      var cursor := collections[collection].currentVersion + 1;
      collections := collections[collection := collections[collection].(currentVersion := cursor)];
      var o := current.(id := objectId, version := version, changeSeq := cursor, blobKey := Some(key),
        sizeBytes := Some(size), updatedAt := clock.write);
      objects := objects[objectId := o];
      ReleaseClaim(current.blobKey, clock.write);
      ledger := ledger[key := ledger[key].(state := Claimed, collection := Some(collection), objectId := Some(objectId),
                                           objectVersion := Some(version), stateChangedAt := clock.write)];
      var response := MutationResponse(o, cursor, None);
      SaveResult(user, mid, intent, StoredResult(200, MutationBody(response)), None, clock.save);
      return M.OK(response), Some(Note(user, collection, cursor));
    }

    method ReleaseClaim(key: Option<string>, now: Millis)
      modifies this`ledger
      ensures ledger == M.Release(old(ledger), key, now)
    {
      if key.Some? {
        if key.value in ledger && ledger[key.value].state == Claimed {
          ledger := ledger[key.value :=
            ledger[key.value].(state := Retained, objectId := None, objectVersion := None, stateChangedAt := now)];
        }
      }
    }

    method Delete(user: string, collection: string, objectId: string, mid: string, expected: Option<int>,
                  prepareAt: Millis, clock: M.Clock)
      returns (outcome: M.Outcome<DeleteResponse>, note: Option<Note>)
      modifies this`collections, this`objects, this`ledger, this`results
      ensures var (db, prepared) :=
              M.PrepareMutation(old(Db()), user, mid, M.DeleteIntent(collection, objectId, expected), prepareAt);
        var tx := M.DeleteTx(db, user, collection, objectId, mid, expected, prepared, clock);
        Db() == tx.db && outcome == tx.outcome && note == NoteOf(tx.effect, user) &&
        P.PrepareKept(old(Db()), db, user, mid, M.DeleteIntent(collection, objectId, expected), prepareAt, prepared) &&
        P.DeleteKept(db, Db(), user, collection, objectId, mid, expected, prepared, clock, outcome)
      ensures P.Rings(old(Db()), Db(), user, collection, note)
    {
      hide P.PrepareKept, P.DeleteKept;
      var prepared := PrepareMutation(user, mid, M.DeleteIntent(collection, objectId, expected), prepareAt);
      outcome, note := DeletePrepared(user, collection, objectId, mid, expected, prepared, clock);
    }

    method DeletePrepared(user: string, collection: string, objectId: string, mid: string, expected: Option<int>,
                          prepared: bool, clock: M.Clock)
      returns (outcome: M.Outcome<DeleteResponse>, note: Option<Note>)
      modifies this`collections, this`objects, this`ledger, this`results
      ensures var tx := M.DeleteTx(old(Db()), user, collection, objectId, mid, expected, prepared, clock);
        Db() == tx.db && outcome == tx.outcome && note == NoteOf(tx.effect, user)
      ensures P.DeleteKept(old(Db()), Db(), user, collection, objectId, mid, expected, prepared, clock, outcome)
      ensures P.Rings(old(Db()), Db(), user, collection, note)
    {
      P.DeleteIsKept(Db(), user, collection, objectId, mid, expected, prepared, clock);
      DeleteRings(Db(), user, collection, objectId, mid, expected, prepared, clock);
      Found(Db(), user, collection, objectId);
      hide P.DeleteKept, P.Rings, M.CollectionFound, M.ObjectFound, ValidUuid, M.SaveResult, M.Release, M.Lookup,
        M.DeleteOutcomeFromStored;
      var intent := M.DeleteIntent(collection, objectId, expected);
      match M.Lookup(results, user, mid, intent) {
        case Mismatch => return M.MutationMismatch, None;
        case Recorded(stored) =>
          if !(prepared && stored.status == 102) { return M.DeleteOutcomeFromStored(stored), None; }
        case Fresh =>
      }
      var valid := IsUuid(collection);
      if valid { valid := IsUuid(objectId); }
      if !valid || !M.CollectionFound(Db(), user, collection) || !M.ObjectFound(Db(), user, collection, objectId) {
        SaveResult(user, mid, intent, StoredResult(404, NotFoundBody), None, clock.save);
        return M.NotFound, None;
      }
      var current := objects[objectId];
      if expected.Some? && expected.value != current.version {
        var conflict := Conflict(current.version, current.blobKey);
        SaveResult(user, mid, intent, StoredResult(409, ConflictBody(conflict)), None, clock.save);
        return M.VersionConflict(conflict), None;
      }
      if current.deleted {
        var response := DeleteResponse(DeletedObject(current.id, current.version, current.changeSeq, true),
                                       collections[collection].currentVersion);
        SaveResult(user, mid, intent, StoredResult(200, DeleteBody(response)), None, clock.save);
        return M.OK(response), None;
      }
      var cursor := collections[collection].currentVersion + 1;
      collections := collections[collection := collections[collection].(currentVersion := cursor)];
      objects := objects[objectId := current.(id := objectId, deleted := true, version := current.version + 1,
                                              changeSeq := cursor, updatedAt := clock.write)];
      ReleaseClaim(current.blobKey, clock.write);
      var response := DeleteResponse(DeletedObject(objectId, current.version + 1, cursor, true), cursor);
      SaveResult(user, mid, intent, StoredResult(200, DeleteBody(response)), None, clock.save);
      return M.OK(response), Some(Note(user, collection, cursor));
    }

    method RecoverCreate(user: string, collection: string, mid: string) returns (outcome: M.Outcome<MutationResponse>)
      ensures outcome == M.RecoverCreate(Db(), user, collection, mid)
      ensures P.RecoveryKept(Db(), user, collection, mid, outcome)
    {
      P.RecoveryIsKept(Db(), user, collection, mid);
      var valid := IsUuid(collection);
      if !valid || collection !in collections || collections[collection].user != user { return M.NotFound; }
      if (user, mid) !in results || results[(user, mid)].collection != collection { return M.NotFound; }
      var row := results[(user, mid)];
      if row.kind != Create { return M.NotFound; }
      if row.result.status == 102 { return M.MutationPending; }
      if row.result.status < 200 || row.result.status >= 300 {
        if row.result.status == 404 { return M.NotFound; }
        if row.result.status == 409 { return M.VersionConflict(M.NO_CONFLICT); }
        return M.OK(MutationResponse(M.NO_OBJECT, 0, None));
      }
      return M.OK(M.DecodeMutation(row.result.body, true));
    }

    /** Objects are filed under their own id. */
    predicate Keyed()
      reads this
    {
      forall id | id in objects :: objects[id].id == id
    }

    method List(user: string, collection: string, since: int, limit: Option<nat>)
      returns (found: bool, rows: seq<Object>, hasMore: bool)
      requires Keyed()
      ensures found == M.CollectionFound(Db(), user, collection)
      ensures found ==> IsPage(objects, user, collection, since, limit, rows, hasMore)
      ensures found <==> P.Owns(Db(), user, collection)
      ensures found ==> forall o | o in rows ::
        o.id in objects && o == objects[o.id] && o.collection == collection && o.user == user && o.changeSeq > since
      ensures found && !hasMore ==>
        forall id | id in objects && objects[id].collection == collection && objects[id].user == user &&
                    objects[id].changeSeq > since :: objects[id] in rows
    {
      hide ValidUuid, IsPage, Before, Taken;
      rows, hasMore := [], false;
      var valid := IsUuid(collection);
      found := valid && collection in collections && collections[collection].user == user;
      if !found { return; }
      var selected := Selected(objects, user, collection, since);
      var remaining := selected;
      NoneTaken(objects, selected);
      while remaining != {} && (limit.None? || |rows| < limit.value + 1)
        invariant remaining <= selected && (limit.Some? ==> |rows| <= limit.value + 1)
        invariant Taken(objects, selected, rows, remaining)
        decreases remaining
      {
        var next := Earliest(remaining);
        TakeNext(objects, selected, rows, remaining, next);
        rows := rows + [objects[next]];
        remaining := remaining - {next};
      }
      TakenIsPage(objects, user, collection, since, limit, rows, remaining);
      hasMore := limit.Some? && |rows| > limit.value;
      if hasMore { rows := rows[..limit.value]; }
      PageIsWhole(objects, user, collection, since, limit, rows, hasMore);
    }

    method Earliest(ids: set<string>) returns (first: string)
      requires ids != {} && Keyed() && forall id | id in ids :: id in objects
      ensures first in ids && forall id | id in ids && id != first :: Before(objects[first], objects[id])
    {
      first :| first in ids;
      var rest := ids - {first};
      while rest != {}
        invariant rest <= ids && first in ids && first !in rest
        invariant forall id | id in ids - rest && id != first :: Before(objects[first], objects[id])
        decreases rest
      {
        var next :| next in rest;
        BeforeTotal(objects[first], objects[next]);
        if Before(objects[next], objects[first]) {
          forall id | id in ids - rest && id != first ensures Before(objects[next], objects[id]) {
            BeforeTransitive(objects[next], objects[first], objects[id]);
          }
          first := next;
        }
        rest := rest - {next};
      }
    }

    // ---- internal/blobs ---------------------------------------------------------

    /** The row first, then the bytes. */
    method Stage(user: string, blobId: string, data: seq<byte>, now: Millis) returns (key: string)
      modifies this`ledger, this`files
      ensures key == user + "/" + blobId && Db() == M.InsertStagedTx(old(Db()), user, key, |data|, now)
      ensures files == old(files)[key := data]
      ensures ledger == old(ledger)[key := LedgerRow(user, |data|, Staged, None, None, None, now, now)]
    {
      key := user + "/" + blobId;
      ledger := ledger[key := LedgerRow(user, |data|, Staged, None, None, None, now, now)];
      files := files[key := data];
    }

    /** A staged or unrecorded blob is deleted, row first; removable says whether
        the file system lets the file go. */
    method DeleteBlob(user: string, key: string, removable: bool) returns (granted: bool)
      modifies this`ledger, this`files
      ensures (Db(), granted) == M.DropBlobRowTx(old(Db()), user, key)
      ensures files == if granted && removable then old(files) - {key} else old(files)
      ensures granted <==> |user| < |key| && key[..|user|] == user && key[|user|] == '/' &&
                           (key in old(ledger) ==> old(ledger)[key].state == Staged)
      ensures ledger == if granted then old(ledger) - {key} else old(ledger)
    {
      assert |user| < |key| ==> key[..|user| + 1] == key[..|user|] + [key[|user|]];
      if !M.HasPrefix(key, user + "/") { return false; }
      if key in ledger {
        if ledger[key].state != Staged { return false; }
        ledger := ledger - {key};
      }
      if removable { files := files - {key}; }
      return true;
    }

    // ---- internal/collections -----------------------------------------------------

    /** The user's oldest collection, created if there is none. */
    method ClaimCollection(user: string, id: string, now: Millis) returns (claimed: string, created: bool)
      requires id !in collections
      modifies this`collections
      ensures Db() == M.ClaimCollectionTx(old(Db()), user, id, now)
      ensures created <==> forall c | c in old(collections) :: old(collections)[c].user != user
      ensures claimed in collections && collections[claimed].user == user && (created ==> claimed == id)
      ensures collections == if created then old(collections)[id := Collection(user, now, 0)] else old(collections)
      ensures created == (M.CollectionsOf(old(Db()), user) == {}) && claimed in M.CollectionsOf(Db(), user)
      ensures forall other | other in M.CollectionsOf(Db(), user) && other != claimed ::
        collections[claimed].createdAt < collections[other].createdAt ||
        (collections[claimed].createdAt == collections[other].createdAt && TextBefore(claimed, other))
    {
      var mine := M.CollectionsOf(Db(), user);
      assert forall c | c in collections && collections[c].user == user :: c in mine;
      if mine == {} {
        collections := collections[id := Collection(user, now, 0)];
        return id, true;
      }
      claimed :| claimed in mine;
      var rest := mine - {claimed};
      while rest != {}
        invariant collections == old(collections) && rest <= mine && claimed in mine && claimed !in rest
        invariant forall other | other in mine - rest && other != claimed ::
          collections[claimed].createdAt < collections[other].createdAt ||
          (collections[claimed].createdAt == collections[other].createdAt && TextBefore(claimed, other))
        decreases rest
      {
        var next :| next in rest;
        TextTotal(claimed, next);
        if collections[next].createdAt < collections[claimed].createdAt ||
           (collections[next].createdAt == collections[claimed].createdAt && TextBefore(next, claimed)) {
          forall other | other in mine - rest && other != claimed && TextBefore(next, claimed) &&
            TextBefore(claimed, other)
            ensures TextBefore(next, other)
          {
            TextTransitive(next, claimed, other);
          }
          claimed := next;
        }
        rest := rest - {next};
      }
      return claimed, false;
    }

    method DeleteCollection(user: string, id: string, now: Millis) returns (found: bool)
      modifies this`collections, this`objects, this`ledger, this`results
      ensures found == M.CollectionFound(old(Db()), user, id) && Db() == M.DeleteCollectionTx(old(Db()), user, id, now)
      ensures found <==> P.Owns(old(Db()), user, id)
      ensures if found then P.Dropped(old(Db()), Db(), user, id, now) else Db() == old(Db())
      ensures found ==> forall k, t | k in old(ledger) && old(ledger)[k].collection == Some(id) &&
                                      old(ledger)[k].state in {Claimed, Retained} :: M.Collectable(ledger[k], t)
    {
      P.DropIsKept(Db(), user, id, now);
      if P.Owns(Db(), user, id) { DroppedIsCollectable(Db(), user, id, now); }
      hide P.Dropped, M.Collectable, ValidUuid;
      var valid := IsUuid(id);
      if !valid || id !in collections || collections[id].user != user { return false; }
      ghost var before, gone := ledger, M.ObjectsOf(objects, id);
      MakePurgeable(id, now);
      ghost var purgeable := ledger;
      results := map k | k in results && !(k.0 == user && results[k].collection == id) :: results[k];
      collections := collections - {id};
      CascadeObjects(id);
      CascadesCompose(before, purgeable, ledger, id, gone, now);
      return true;
    }

    method MakePurgeable(id: string, now: Millis)
      modifies this`ledger
      ensures ledger.Keys == old(ledger.Keys)
      ensures forall key | key in ledger :: ledger[key] == M.CascadeRow(old(ledger)[key], id, {}, now)
    {
      ledger := map key | key in ledger ::
        if ledger[key].collection == Some(id) && ledger[key].state in {Claimed, Retained}
        then ledger[key].(state := Purgeable, stateChangedAt := now) else ledger[key];
    }

    /** The foreign keys: a deleted collection takes its objects along, and ledger
        rows stop naming them. */
    method CascadeObjects(id: string)
      modifies this`objects, this`ledger
      ensures var gone := M.ObjectsOf(old(objects), id);
        objects == old(objects) - gone && ledger.Keys == old(ledger.Keys) &&
        forall key | key in ledger :: ledger[key] == Unlinked(old(ledger)[key], gone)
    {
      var gone := M.ObjectsOf(objects, id);
      objects := objects - gone;
      ledger := map key | key in ledger :: Unlinked(ledger[key], gone);
    }

    // ---- cmd/server ----------------------------------------------------------------

    /** The inline create: reserve, stage, commit. A settled reservation is
        answered before anything is staged. */
    method CreateBlobObject(user: string, collection: string, mid: string, data: seq<byte>, blobId: string, id: string,
                            prepareAt: Millis, stageAt: Millis, clock: M.Clock)
      returns (outcome: M.Outcome<MutationResponse>, note: Option<Note>)
      modifies this`collections, this`objects, this`ledger, this`results, this`files
      ensures var (db, prepared) := M.PrepareMutation(old(Db()), user, mid, M.CreateIntent(collection), prepareAt);
        var answer := M.ReservedAnswer(db.results, user, collection, mid);
        if !prepared && mid != "" && ValidUuid(collection) && answer.Some? then
          Db() == old(Db()) && files == old(files) && outcome == answer.value && note == None
        else
          var staged := M.InsertStagedTx(db, user, user + "/" + blobId, |data|, stageAt);
          var tx := M.CreateTx(staged, user, collection, mid, user + "/" + blobId, prepared, id, clock);
          Db() == tx.db && files == old(files)[user + "/" + blobId := data] && outcome == tx.outcome &&
            note == NoteOf(tx.effect, user)
      ensures P.Rings(old(Db()), Db(), user, collection, note)
      ensures ValidUuid(collection) && P.Seen(old(Db()), user, mid) ==>
              P.Replayed(old(Db()), Db(), user, mid, Intent(Create, collection, None, None), outcome) &&
                files == old(files)
      ensures !(ValidUuid(collection) && P.Seen(old(Db()), user, mid)) ==>
              files == old(files)[user + "/" + blobId := data]
    {
      var prepared, settled := ReserveCreate(user, collection, mid, prepareAt);
      if settled.Some? { return settled.value, None; }
      var key := Stage(user, blobId, data, stageAt);
      outcome, note := CreateReserved(user, collection, mid, key, prepared, id, clock);
    }
  }
}
