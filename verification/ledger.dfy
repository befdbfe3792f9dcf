/** Ledger correspondence over every run: a claimed blob names exactly one
    object version, and rows quarantined as legacy_shared are left alone. */
module LedgerRuns {
  import opened Tables
  import opened Mutations
  import opened Worlds

  /** The claim of a row is the claim of the object whose key it is. */
  predicate ClaimMatches(row: LedgerRow, key: string, objects: Objects) {
    row.objectId.Some? && row.objectId.value in objects &&
    var o := objects[row.objectId.value];
    o.blobKey == Some(key) && row.objectVersion == Some(o.version) && row.collection == Some(o.collection) &&
    o.sizeBytes == Some(row.size) && row.user == o.user
  }

  predicate Corresponds(ledger: Ledger, objects: Objects) {
    forall k | k in ledger ::
      (ledger[k].state == Claimed ==> ClaimMatches(ledger[k], k, objects)) &&
      (ledger[k].state == LegacyShared ==> ledger[k].objectId == None) &&
      (ledger[k].state == Staged ==> ledger[k].createdAt == ledger[k].stateChangedAt)
  }

  predicate LegacyKept(ledger: Ledger, ledger': Ledger) {
    forall k | k in ledger && ledger[k].state == LegacyShared :: k in ledger' && ledger'[k] == ledger[k]
  }

  /** Storage keys in use were minted. */
  predicate KeysMinted(w: World) {
    w.db.ledger.Keys <= w.minted && w.disk.files.Keys <= w.minted && w.disk.puts.Keys <= w.minted &&
    (forall s | s in w.disk.sightings :: s.0 in w.minted)
  }

  predicate Bookkept(w: World) {
    Rooted(w.db) && AllMinted(w) && KeysMinted(w) && Corresponds(w.db.ledger, w.db.objects)
  }

  lemma ReleaseCorresponds(ledger: Ledger, objects: Objects, key: Option<string>, now: Millis)
    requires Corresponds(ledger, objects)
    ensures Corresponds(Release(ledger, key, now), objects) && LegacyKept(ledger, Release(ledger, key, now))
    ensures key.Some? && key.value in ledger ==> Release(ledger, key, now)[key.value].state != Claimed
  {
  }

  /** The moved object's only possible claim was on its old key, just released. */
  lemma MoveCorresponds(ledger: Ledger, objects: Objects, o: Object)
    requires Corresponds(ledger, objects)
    requires o.id in objects && objects[o.id].blobKey.Some? && objects[o.id].blobKey.value in ledger ==>
             ledger[objects[o.id].blobKey.value].state != Claimed
    ensures Corresponds(ledger, objects[o.id := o])
  {
  }

  lemma ClaimCorresponds(ledger: Ledger, objects: Objects, o: Object, now: Millis)
    requires Corresponds(ledger, objects) && o.id in objects && objects[o.id] == o && o.blobKey.Some?
    requires o.blobKey.value in ledger && ledger[o.blobKey.value].state == Staged
    requires o.sizeBytes == Some(ledger[o.blobKey.value].size) && o.user == ledger[o.blobKey.value].user
    ensures Corresponds(Claim(ledger, o.blobKey.value, o, now), objects)
    ensures LegacyKept(ledger, Claim(ledger, o.blobKey.value, o, now))
  {
  }

  lemma CreateCorresponds(db: Database, user: string, collection: string, mid: string, key: string,
                          prepared: bool, id: string, clock: Clock)
    requires Corresponds(db.ledger, db.objects) && id !in db.objects
    ensures var db' := CreateTx(db, user, collection, mid, key, prepared, id, clock).db;
            Corresponds(db'.ledger, db'.objects) && LegacyKept(db.ledger, db'.ledger) &&
              db'.ledger.Keys == db.ledger.Keys
  {
    var tx := CreateTx(db, user, collection, mid, key, prepared, id, clock);
    if tx.effect.Created? {
      var o := tx.effect.row;
      MoveCorresponds(db.ledger, db.objects, o);
      ClaimCorresponds(db.ledger, db.objects[o.id := o], o, o.updatedAt);
    }
  }

  lemma UpdateCorresponds(db: Database, user: string, collection: string, id: string, mid: string, key: string,
                          version: int, prepared: bool, clock: Clock)
    requires Rooted(db) && Corresponds(db.ledger, db.objects)
    ensures var db' := UpdateTx(db, user, collection, id, mid, key, version, prepared, clock).db;
            Corresponds(db'.ledger, db'.objects) && LegacyKept(db.ledger, db'.ledger) &&
              db'.ledger.Keys == db.ledger.Keys
  {
    var tx := UpdateTx(db, user, collection, id, mid, key, version, prepared, clock);
    if tx.effect.Updated? {
      var o := tx.effect.row;
      var released := Release(db.ledger, db.objects[id].blobKey, o.updatedAt);
      ReleaseCorresponds(db.ledger, db.objects, db.objects[id].blobKey, o.updatedAt);
      MoveCorresponds(released, db.objects, o);
      ClaimCorresponds(released, db.objects[o.id := o], o, o.updatedAt);
    }
  }

  lemma DeleteCorresponds(db: Database, user: string, collection: string, id: string, mid: string,
                          expected: Option<int>, prepared: bool, clock: Clock)
    requires Rooted(db) && Corresponds(db.ledger, db.objects)
    ensures var db' := DeleteTx(db, user, collection, id, mid, expected, prepared, clock).db;
            Corresponds(db'.ledger, db'.objects) && LegacyKept(db.ledger, db'.ledger) &&
              db'.ledger.Keys == db.ledger.Keys
  {
    var tx := DeleteTx(db, user, collection, id, mid, expected, prepared, clock);
    if tx.effect.Removed? {
      var o := tx.effect.row;
      ReleaseCorresponds(db.ledger, db.objects, db.objects[id].blobKey, o.updatedAt);
      MoveCorresponds(Release(db.ledger, db.objects[id].blobKey, o.updatedAt), db.objects, o);
    }
  }

  lemma DropCorresponds(db: Database, user: string, id: string, now: Millis)
    requires Rooted(db) && Corresponds(db.ledger, db.objects)
    ensures var db' := DeleteCollectionTx(db, user, id, now);
            Corresponds(db'.ledger, db'.objects) && LegacyKept(db.ledger, db'.ledger) &&
              db'.ledger.Keys == db.ledger.Keys
  {
    if CollectionFound(db, user, id) {
      var gone := ObjectsOf(db.objects, id);
      forall k | k in db.ledger ensures CascadedMatches(db.objects, gone, CascadeRow(db.ledger[k], id, gone, now), k) {
        Cascades(db.objects, db.ledger[k], k, id, gone, now);
      }
    }
  }

  predicate CascadedMatches(objects: Objects, gone: set<string>, row: LedgerRow, key: string) {
    (row.state == Claimed ==> ClaimMatches(row, key, objects - gone)) &&
      (row.state == LegacyShared ==> row.objectId == None) &&
    (row.state == Staged ==> row.createdAt == row.stateChangedAt)
  }

  lemma Cascades(objects: Objects, row: LedgerRow, key: string, collection: string, gone: set<string>, now: Millis)
    requires gone == ObjectsOf(objects, collection) && CascadedMatches(objects, {}, row, key)
    ensures CascadedMatches(objects, gone, CascadeRow(row, collection, gone, now), key)
    ensures row.state == LegacyShared ==> CascadeRow(row, collection, gone, now) == row
  {
    assert objects - {} == objects;
  }

  lemma BlobCorresponds(w: World, step: BlobStep)
    requires Corresponds(w.db.ledger, w.db.objects) && KeysMinted(w)
    ensures var w' := BlobNext(w, step);
            Corresponds(w'.db.ledger, w'.db.objects) && LegacyKept(w.db.ledger, w'.db.ledger)
  {
    hide ClaimMatches;
  }

  lemma BlobMinted(w: World, step: BlobStep)
    requires KeysMinted(w)
    ensures KeysMinted(BlobNext(w, step))
  {
    if step.AdoptFile? && (step.key, step.size) in w.disk.sightings {
      assert (step.key, step.size).0 in w.minted;
    }
  }

  lemma BookkeptStep(w: World, step: Step)
    requires Bookkept(w)
    ensures Bookkept(Next(w, step)) && LegacyKept(w.db.ledger, Next(w, step).db.ledger)
  {
    RootedStep(w, step);
    match step
    case CommitCreate(user, collection, mid, key, prepared, id, clock) =>
      if id !in w.minted { CreateCorresponds(w.db, user, collection, mid, key, prepared, id, clock); }
    case CommitUpdate(user, collection, id, mid, key, version, prepared, clock) =>
      UpdateCorresponds(w.db, user, collection, id, mid, key, version, prepared, clock);
    case CommitDelete(user, collection, id, mid, expected, prepared, clock) =>
      DeleteCorresponds(w.db, user, collection, id, mid, expected, prepared, clock);
    case DeleteCollection(user, id, now) => DropCorresponds(w.db, user, id, now);
    case Blob(blob) => BlobCorresponds(w, blob); BlobMinted(w, blob);
    case _ =>
  }

  /** In every run, claimed rows correspond to objects and legacy rows are as they were. */
  lemma {:induction false} LedgerCorrespondence(w: World, steps: seq<Step>)
    requires Bookkept(w)
    ensures Bookkept(Exec(w, steps)) && LegacyKept(w.db.ledger, Exec(w, steps).db.ledger)
    decreases |steps|
  {
    if steps != [] {
      BookkeptStep(w, steps[0]);
      LedgerCorrespondence(Next(w, steps[0]), steps[1..]);
    }
  }

  /** So an object never has two claimed blobs. */
  lemma OneClaimPerObject(w: World, steps: seq<Step>, a: string, b: string)
    requires Bookkept(w)
    requires var ledger := Exec(w, steps).db.ledger;
      a in ledger && b in ledger && ledger[a].state == Claimed && ledger[b].state == Claimed &&
      ledger[a].objectId == ledger[b].objectId
    ensures a == b
  {
    LedgerCorrespondence(w, steps);
    var ledger := Exec(w, steps).db.ledger;
    assert ClaimMatches(ledger[a], a, Exec(w, steps).db.objects);
    assert ClaimMatches(ledger[b], b, Exec(w, steps).db.objects);
  }

  /** Staged rows keep their insertion time, so in every run no row can be claimed
      and collected at one reading of the clock. */
  lemma NeverClaimableAndCollectable(w: World, steps: seq<Step>, user: string, key: string, now: Millis)
    requires Bookkept(w) && Claimable(Exec(w, steps).db.ledger, user, key, now)
    ensures !Collectable(Exec(w, steps).db.ledger[key], now)
  {
    LedgerCorrespondence(w, steps);
  }

  /** And on a server that started empty, a claimed row names an object that
      exists, whose current key, version, collection, size and owner are the row's. */
  lemma EveryClaimIsAnObject(users: set<string>, steps: seq<Step>, key: string)
    requires var ledger := Exec(Empty(users), steps).db.ledger; key in ledger && ledger[key].state == Claimed
    ensures var db := Exec(Empty(users), steps).db;
      var row := db.ledger[key];
      row.objectId.Some? && row.objectId.value in db.objects &&
      var o := db.objects[row.objectId.value];
      o.blobKey == Some(key) && row.objectVersion == Some(o.version) && row.collection == Some(o.collection) &&
      o.sizeBytes == Some(row.size) && row.user == o.user
  {
    LedgerCorrespondence(Empty(users), steps);
    assert ClaimMatches(Exec(Empty(users), steps).db.ledger[key], key, Exec(Empty(users), steps).db.objects);
  }
}
