/** Live data safety. If clients only use keys that Stage returned, file removals
    succeed, and no key is adopted while a removal of its file is outstanding or
    from a sighting of a file since removed, then in every run each live object's
    blob is claimed for that object and version, its file holds exactly
    size_bytes bytes, and no two objects share a key. Without those conditions a
    release can hit another object's claim; when exactly is stated at the end. */
module LiveData {
  import opened Tables
  import opened Mutations
  import opened Worlds
  import opened LedgerRuns

  /** The side conditions, one by one. careless.dfy shows that none can be spared. */
  datatype Rule =
    | CreatesUseReturned | UpdatesUseReturned | DropsUseReturned   // clients use only keys Stage returned
    | RemovalsSucceed
    | AdoptsFindFile       // what is adopted is still there, and was not removed since it was seen
    | AdoptsAfterRemoval   // nothing is adopted while a removal of its file is outstanding

  predicate Obeys(w: World, step: Step, rule: Rule) {
    match rule
    case CreatesUseReturned => step.CommitCreate? ==> step.key in w.disk.returned
    case UpdatesUseReturned => step.CommitUpdate? ==> step.key in w.disk.returned
    case DropsUseReturned => step.Blob? && step.step.DropBlobRow? ==> step.step.key in w.disk.returned
    case RemovalsSucceed => step.Blob? && step.step.RemoveFile? ==> step.step.ok
    case AdoptsFindFile => step.Blob? && step.step.AdoptFile? ==> step.step.key in w.disk.files
    case AdoptsAfterRemoval => step.Blob? && step.step.AdoptFile? ==> step.step.key !in w.disk.removals
  }

  predicate RunObeys(w: World, steps: seq<Step>, rule: Rule)
    decreases |steps|
  {
    steps == [] || (Obeys(w, steps[0], rule) && RunObeys(Next(w, steps[0]), steps[1..], rule))
  }

  lemma {:induction false} RunObeysSnoc(w: World, steps: seq<Step>, step: Step, rule: Rule)
    ensures RunObeys(w, steps + [step], rule) <==> RunObeys(w, steps, rule) && Obeys(Exec(w, steps), step, rule)
    decreases |steps|
  {
    hide Next, Obeys;
    if steps == [] {
      assert [] + [step] == [step] && [step][1..] == [];
    } else {
      assert (steps + [step])[1..] == steps[1..] + [step];
      RunObeysSnoc(Next(w, steps[0]), steps[1..], step, rule);
    }
  }

  /** All of them. */
  predicate Careful(w: World, step: Step) {
    Obeys(w, step, CreatesUseReturned) && Obeys(w, step, UpdatesUseReturned) && Obeys(w, step, DropsUseReturned) &&
    Obeys(w, step, RemovalsSucceed) && Obeys(w, step, AdoptsFindFile) && Obeys(w, step, AdoptsAfterRemoval)
  }

  predicate CarefulRun(w: World, steps: seq<Step>)
    decreases |steps|
  {
    steps == [] || (Careful(w, steps[0]) && CarefulRun(Next(w, steps[0]), steps[1..]))
  }

  /** Files behind ledger rows. */
  predicate Backed(ledger: Ledger, disk: Disk, minted: set<string>) {
    (forall k | k in ledger && k in disk.returned :: k in disk.files && |disk.files[k]| == ledger[k].size) &&
    (forall k | k in disk.removals :: k !in ledger && k in minted) &&
    (forall k | k in disk.puts ::
      k !in disk.returned && k !in disk.files && (k in ledger ==> ledger[k].size == |disk.puts[k]|)) &&
    (forall s | s in disk.sightings :: s.0 !in disk.puts && (s.0 in disk.files ==> s.1 == |disk.files[s.0]|)) &&
    disk.returned <= minted
  }

  /** What holds of the key of an object, live or not. */
  predicate KeyHeld(ledger: Ledger, disk: Disk, o: Object) {
    o.blobKey.Some? &&
    var k := o.blobKey.value;
    k in disk.returned &&
    (!o.deleted ==> k in ledger && ledger[k].state == Claimed) &&
    (k in ledger ==> ledger[k].state != Staged && (ledger[k].state == Claimed ==> ledger[k].objectId == Some(o.id))) &&
    (k !in ledger ==> k !in disk.files || k in disk.removals)
  }

  predicate KeysHeld(objects: Objects, ledger: Ledger, disk: Disk) {
    forall id | id in objects :: KeyHeld(ledger, disk, objects[id])
  }

  predicate Unshared(objects: Objects) {
    forall a, b | a in objects && b in objects && a != b :: objects[a].blobKey != objects[b].blobKey
  }

  predicate Safe(w: World) {
    Bookkept(w) && Backed(w.db.ledger, w.disk, w.minted) && KeysHeld(w.db.objects, w.db.ledger, w.disk) &&
      Unshared(w.db.objects)
  }

  // ---- Coordinator steps ------------------------------------------------------

  /** What a coordinator transaction does to the ledger keeps keys and sizes,
      and stages nothing. */
  predicate Reworks(ledger: Ledger, ledger': Ledger) {
    ledger'.Keys == ledger.Keys && forall k | k in ledger ::
      ledger'[k].size == ledger[k].size && ledger'[k].createdAt == ledger[k].createdAt
  }

  lemma ReworkBacked(ledger: Ledger, ledger': Ledger, disk: Disk, minted: set<string>, minted': set<string>)
    requires Backed(ledger, disk, minted) && Reworks(ledger, ledger') && minted <= minted'
    ensures Backed(ledger', disk, minted')
  {
  }

  predicate AllHeld(objects: Objects, ledger: Ledger, disk: Disk) {
    KeysHeld(objects, ledger, disk) && Unshared(objects)
  }

  /** A staged, returned key is nobody's key. */
  lemma StagedUnused(objects: Objects, ledger: Ledger, disk: Disk, key: string, id: string)
    requires KeysHeld(objects, ledger, disk) && key in ledger && ledger[key].state == Staged && id in objects
    ensures objects[id].blobKey != Some(key)
  {
    assert KeyHeld(ledger, disk, objects[id]);
  }

  lemma ClaimHeld(objects: Objects, ledger: Ledger, disk: Disk, o: Object, now: Millis)
    requires KeysHeld(objects, ledger, disk) && Unshared(objects)
    requires o.blobKey.Some? && o.blobKey.value in ledger && ledger[o.blobKey.value].state == Staged &&
             o.blobKey.value in disk.returned
    ensures AllHeld(objects[o.id := o], Claim(ledger, o.blobKey.value, o, now), disk)
  {
    forall a | a in objects ensures objects[a].blobKey != o.blobKey {
      StagedUnused(objects, ledger, disk, o.blobKey.value, a);
    }
    forall a | a in objects && a != o.id ensures KeyHeld(Claim(ledger, o.blobKey.value, o, now), disk, objects[a]) {
      assert KeyHeld(ledger, disk, objects[a]);
    }
  }

  /** Releasing an object's key, as it moves on or dies, touches no other object. */
  lemma ReleaseHeld(objects: Objects, ledger: Ledger, disk: Disk, o: Object, now: Millis)
    requires KeysHeld(objects, ledger, disk) && Unshared(objects)
    requires o.id in objects && objects[o.id].id == o.id && o.deleted && o.blobKey == objects[o.id].blobKey
    ensures AllHeld(objects[o.id := o], Release(ledger, o.blobKey, now), disk)
  {
    assert KeyHeld(ledger, disk, objects[o.id]);
    forall a | a in objects && a != o.id ensures KeyHeld(Release(ledger, o.blobKey, now), disk, objects[a]) {
      assert KeyHeld(ledger, disk, objects[a]);
    }
  }

  lemma MoveHeld(objects: Objects, ledger: Ledger, disk: Disk, o: Object, now: Millis)
    requires KeysHeld(objects, ledger, disk) && Unshared(objects) && o.id in objects && objects[o.id].id == o.id
    requires o.blobKey.Some? && o.blobKey.value in ledger && ledger[o.blobKey.value].state == Staged &&
             o.blobKey.value in disk.returned
    ensures AllHeld(objects[o.id := o], Claim(Release(ledger, objects[o.id].blobKey, now), o.blobKey.value, o, now),
            disk)
  {
    var dying := objects[o.id].(deleted := true);
    ReleaseHeld(objects, ledger, disk, dying, now);
    StagedUnused(objects, ledger, disk, o.blobKey.value, o.id);
    ClaimHeld(objects[o.id := dying], Release(ledger, objects[o.id].blobKey, now), disk, o, now);
    assert objects[o.id := dying][o.id := o] == objects[o.id := o];
  }

  lemma CreateHeld(w: World, user: string, collection: string, mid: string, key: string, prepared: bool, id: string,
                   clock: Clock)
    requires Safe(w) && key in w.disk.returned && id !in w.minted
    ensures var db := CreateTx(w.db, user, collection, mid, key, prepared, id, clock).db;
      Reworks(w.db.ledger, db.ledger) && AllHeld(db.objects, db.ledger, w.disk)
  {
    var tx := CreateTx(w.db, user, collection, mid, key, prepared, id, clock);
    if tx.effect.Created? { ClaimHeld(w.db.objects, w.db.ledger, w.disk, tx.effect.row, clock.write); }
  }

  lemma UpdateTables(db: Database, user: string, collection: string, id: string, mid: string, key: string,
                     version: int, prepared: bool, clock: Clock)
    ensures var tx := UpdateTx(db, user, collection, id, mid, key, version, prepared, clock);
      if !tx.effect.Updated? then tx.db.objects == db.objects && tx.db.ledger == db.ledger
      else
        var o := tx.effect.row;
        id in db.objects && o.id == id && o.blobKey == Some(key) && key in db.ledger &&
          db.ledger[key].state == Staged &&
        tx.db.objects == db.objects[id := o] &&
          tx.db.ledger == Claim(Release(db.ledger, db.objects[id].blobKey, clock.write), key, o, clock.write)
  {
    hide SaveResult, Lookup, ValidUuid;
  }

  lemma UpdateHeld(w: World, user: string, collection: string, id: string, mid: string, key: string,
                   version: int, prepared: bool, clock: Clock)
    requires Safe(w) && key in w.disk.returned
    ensures var db := UpdateTx(w.db, user, collection, id, mid, key, version, prepared, clock).db;
      Reworks(w.db.ledger, db.ledger) && AllHeld(db.objects, db.ledger, w.disk)
  {
    hide UpdateTx;
    UpdateTables(w.db, user, collection, id, mid, key, version, prepared, clock);
    var tx := UpdateTx(w.db, user, collection, id, mid, key, version, prepared, clock);
    if tx.effect.Updated? {
      MoveHeld(w.db.objects, w.db.ledger, w.disk, tx.effect.row, clock.write);
    }
  }

  lemma DeleteHeld(w: World, user: string, collection: string, id: string, mid: string,
                   expected: Option<int>, prepared: bool, clock: Clock)
    requires Safe(w)
    ensures var db := DeleteTx(w.db, user, collection, id, mid, expected, prepared, clock).db;
      Reworks(w.db.ledger, db.ledger) && AllHeld(db.objects, db.ledger, w.disk)
  {
    var tx := DeleteTx(w.db, user, collection, id, mid, expected, prepared, clock);
    if tx.effect.Removed? { ReleaseHeld(w.db.objects, w.db.ledger, w.disk, tx.effect.row, clock.write); }
  }

  /** The key of an object of another collection is held as before. */
  lemma CascadedHeld(ledger: Ledger, ledger': Ledger, disk: Disk, o: Object, collection: string, gone: set<string>,
                     now: Millis)
    requires KeyHeld(ledger, disk, o) && o.id !in gone && o.collection != collection && ledger'.Keys == ledger.Keys
    requires var k := o.blobKey.value;
             k in ledger ==> ledger'[k] == CascadeRow(ledger[k], collection, gone, now) &&
                             (ledger[k].state == Claimed ==> ledger[k].collection == Some(o.collection))
    ensures KeyHeld(ledger', disk, o)
  {
  }

  lemma DropHeld(w: World, user: string, id: string, now: Millis)
    requires Safe(w)
    ensures var db := DeleteCollectionTx(w.db, user, id, now);
      Reworks(w.db.ledger, db.ledger) && AllHeld(db.objects, db.ledger, w.disk)
  {
    var db := DeleteCollectionTx(w.db, user, id, now);
    DropUnshared(w.db, user, id, now);
    if CollectionFound(w.db, user, id) {
      forall a | a in db.objects ensures KeyHeld(db.ledger, w.disk, db.objects[a]) {
        DropHeldOne(w, user, id, now, a);
      }
    }
  }

  lemma DropHeldOne(w: World, user: string, id: string, now: Millis, a: string)
    requires Safe(w) && CollectionFound(w.db, user, id) && a in DeleteCollectionTx(w.db, user, id, now).objects
    ensures var db := DeleteCollectionTx(w.db, user, id, now); KeyHeld(db.ledger, w.disk, db.objects[a])
  {
    var db, o := DeleteCollectionTx(w.db, user, id, now), w.db.objects[a];
    hide KeyHeld, CascadeRow, Unshared, Backed, KeysMinted, ValidUuid;
    assert KeyHeld(w.db.ledger, w.disk, o);
    HeldMatches(w, a);
    CascadedHeld(w.db.ledger, db.ledger, w.disk, o, id, ObjectsOf(w.db.objects, id), now);
  }

  /** A claimed key is claimed in the collection of its object. */
  lemma HeldMatches(w: World, a: string)
    requires Safe(w) && a in w.db.objects
    ensures var o := w.db.objects[a];
            o.id == a && o.blobKey.Some? &&
            (o.blobKey.value in w.db.ledger && w.db.ledger[o.blobKey.value].state == Claimed ==>
              w.db.ledger[o.blobKey.value].collection == Some(o.collection))
  {
    var o := w.db.objects[a];
    assert KeyHeld(w.db.ledger, w.disk, o);
    var k := o.blobKey.value;
    if k in w.db.ledger && w.db.ledger[k].state == Claimed { assert ClaimMatches(w.db.ledger[k], k, w.db.objects); }
  }

  lemma DropUnshared(db: Database, user: string, id: string, now: Millis)
    requires Unshared(db.objects)
    ensures var db' := DeleteCollectionTx(db, user, id, now); Unshared(db'.objects) && Reworks(db.ledger, db'.ledger)
  {
  }

  // ---- Blob steps -------------------------------------------------------------

  lemma InsertSafe(w: World, step: BlobStep)
    requires Safe(w) && step.InsertStaged?
    ensures var w' := BlobNext(w, step);
            Backed(w'.db.ledger, w'.disk, w'.minted) && KeysHeld(w'.db.objects, w'.db.ledger, w'.disk)
  {
    var w', key := BlobNext(w, step), step.user + "/" + step.blobId;
    if key !in w.minted {
      forall a | a in w.db.objects ensures KeyHeld(w'.db.ledger, w'.disk, w.db.objects[a]) {
        assert KeyHeld(w.db.ledger, w.disk, w.db.objects[a]);
      }
    }
  }

  lemma WriteSafe(w: World, step: BlobStep)
    requires Safe(w) && step.WriteStaged?
    ensures var w' := BlobNext(w, step);
            Backed(w'.db.ledger, w'.disk, w'.minted) && KeysHeld(w'.db.objects, w'.db.ledger, w'.disk)
  {
  }

  /** A row that no object claims goes, and its file's removal becomes outstanding. */
  lemma RowGone(w: World, key: string)
    requires Safe(w) && key in w.minted && (key in w.db.ledger ==> w.db.ledger[key].state != Claimed)
    ensures var disk := w.disk.(removals := w.disk.removals + multiset{key});
      Backed(w.db.ledger - {key}, disk, w.minted) && KeysHeld(w.db.objects, w.db.ledger - {key}, disk)
  {
    var disk := w.disk.(removals := w.disk.removals + multiset{key});
    forall a | a in w.db.objects ensures KeyHeld(w.db.ledger - {key}, disk, w.db.objects[a]) {
      assert KeyHeld(w.db.ledger, w.disk, w.db.objects[a]);
    }
  }

  lemma RowSafe(w: World, step: BlobStep)
    requires Safe(w) && Careful(w, Blob(step)) && (step.DropBlobRow? || step.PurgeRow?)
    ensures var w' := BlobNext(w, step);
            Backed(w'.db.ledger, w'.disk, w'.minted) && KeysHeld(w'.db.objects, w'.db.ledger, w'.disk)
  {
    var w' := BlobNext(w, step);
    if w' != w {
      RowGone(w, step.key);
      assert w'.db.ledger == w.db.ledger - {step.key};
    }
  }

  lemma RemoveSafe(w: World, key: string)
    requires Safe(w) && key in w.disk.removals
    ensures var disk := w.disk.(removals := w.disk.removals - multiset{key}, files := w.disk.files - {key});
            Backed(w.db.ledger, disk, w.minted) && KeysHeld(w.db.objects, w.db.ledger, disk)
  {
    var disk := w.disk.(removals := w.disk.removals - multiset{key}, files := w.disk.files - {key});
    hide Bookkept, Unshared;
    forall a | a in w.db.objects ensures KeyHeld(w.db.ledger, disk, w.db.objects[a]) {
      assert KeyHeld(w.db.ledger, w.disk, w.db.objects[a]);
    }
  }

  lemma SizeSafe(w: World, key: string)
    requires Safe(w) && key in w.disk.files
    ensures var disk := w.disk.(sightings := w.disk.sightings + {(key, |w.disk.files[key]|)});
            Backed(w.db.ledger, disk, w.minted) && KeysHeld(w.db.objects, w.db.ledger, disk)
  {
    var disk := w.disk.(sightings := w.disk.sightings + {(key, |w.disk.files[key]|)});
    hide Bookkept, Unshared;
    forall a | a in w.db.objects ensures KeyHeld(w.db.ledger, disk, w.db.objects[a]) {
      assert KeyHeld(w.db.ledger, w.disk, w.db.objects[a]);
    }
  }

  lemma FileSafe(w: World, step: BlobStep)
    requires Safe(w) && Careful(w, Blob(step)) && (step.RemoveFile? || step.SizeFile?)
    ensures var w' := BlobNext(w, step);
            Backed(w'.db.ledger, w'.disk, w'.minted) && KeysHeld(w'.db.objects, w'.db.ledger, w'.disk)
  {
    hide Backed, KeysHeld, Bookkept, Unshared;
    if step.RemoveFile? && step.key in w.disk.removals { RemoveSafe(w, step.key); }
    if step.SizeFile? && step.key in w.disk.files { SizeSafe(w, step.key); }
  }

  lemma AdoptSafe(w: World, step: BlobStep)
    requires Safe(w) && Careful(w, Blob(step)) && step.AdoptFile?
    ensures var w' := BlobNext(w, step);
            Backed(w'.db.ledger, w'.disk, w'.minted) && KeysHeld(w'.db.objects, w'.db.ledger, w'.disk)
  {
    var w' := BlobNext(w, step);
    forall a | a in w.db.objects ensures KeyHeld(w'.db.ledger, w'.disk, w.db.objects[a]) {
      assert KeyHeld(w.db.ledger, w.disk, w.db.objects[a]);
    }
  }

  lemma BlobSafe(w: World, step: BlobStep)
    requires Safe(w) && Careful(w, Blob(step))
    ensures var w' := BlobNext(w, step);
            Backed(w'.db.ledger, w'.disk, w'.minted) && KeysHeld(w'.db.objects, w'.db.ledger, w'.disk)
  {
    match step
    case InsertStaged(_, _, _, _) => InsertSafe(w, step);
    case WriteStaged(_) => WriteSafe(w, step);
    case DropBlobRow(_, _) => RowSafe(w, step);
    case PurgeRow(_, _) => RowSafe(w, step);
    case RemoveFile(_, _) => FileSafe(w, step);
    case SizeFile(_) => FileSafe(w, step);
    case AdoptFile(_, _, _) => AdoptSafe(w, step);
  }

  lemma CommitSafe(w: World, step: Step)
    requires Safe(w) && Careful(w, step) &&
             (step.CommitCreate? || step.CommitUpdate? || step.CommitDelete? || step.DeleteCollection?)
    ensures Reworks(w.db.ledger, Next(w, step).db.ledger) &&
            AllHeld(Next(w, step).db.objects, Next(w, step).db.ledger, w.disk)
  {
    match step
    case CommitCreate(user, collection, mid, key, prepared, id, clock) =>
      if id !in w.minted { CreateHeld(w, user, collection, mid, key, prepared, id, clock); }
    case CommitUpdate(user, collection, id, mid, key, version, prepared, clock) =>
      UpdateHeld(w, user, collection, id, mid, key, version, prepared, clock);
    case CommitDelete(user, collection, id, mid, expected, prepared, clock) =>
      DeleteHeld(w, user, collection, id, mid, expected, prepared, clock);
    case DeleteCollection(user, id, now) => DropHeld(w, user, id, now);
  }

  lemma OtherSafe(w: World, step: Step)
    requires !step.CommitCreate? && !step.CommitUpdate? && !step.CommitDelete? && !step.DeleteCollection? && !step.Blob?
    ensures var w' := Next(w, step);
      w'.db.ledger == w.db.ledger && w'.db.objects == w.db.objects && w'.disk == w.disk && w.minted <= w'.minted
  {
  }

  lemma MintedGrows(w: World, step: Step)
    requires !step.Blob?
    ensures Next(w, step).disk == w.disk && w.minted <= Next(w, step).minted
  {
  }

  lemma SafeStep(w: World, step: Step)
    requires Safe(w) && Careful(w, step)
    ensures Safe(Next(w, step))
  {
    BookkeptStep(w, step);
    var w' := Next(w, step);
    if step.Blob? {
      BlobSafe(w, step.step);
      BlobChanges(w, step.step);
    } else {
      MintedGrows(w, step);
      if step.CommitCreate? || step.CommitUpdate? || step.CommitDelete? || step.DeleteCollection? {
        CommitSafe(w, step);
      } else {
        OtherSafe(w, step);
      }
      ReworkBacked(w.db.ledger, w'.db.ledger, w.disk, w.minted, w'.minted);
    }
  }

  lemma {:induction false} SafeInEveryCarefulRun(w: World, steps: seq<Step>)
    requires Safe(w) && CarefulRun(w, steps)
    ensures Safe(Exec(w, steps))
    decreases |steps|
  {
    if steps != [] {
      SafeStep(w, steps[0]);
      SafeInEveryCarefulRun(Next(w, steps[0]), steps[1..]);
    }
  }

  /** The blob of this object is claimed for exactly its version, and its file is
      there, complete, and nobody else's. */
  predicate Readable(w: World, id: string)
    requires id in w.db.objects
  {
    var o := w.db.objects[id];
    o.blobKey.Some? && o.blobKey.value in w.db.ledger && o.blobKey.value in w.disk.files &&
    var row := w.db.ledger[o.blobKey.value];
    row.state == Claimed && row.objectId == Some(id) && row.objectVersion == Some(o.version) &&
    o.sizeBytes == Some(|w.disk.files[o.blobKey.value]|) &&
    (forall other | other in w.db.objects && other != id :: w.db.objects[other].blobKey != o.blobKey)
  }

  /** In every run from an empty store that obeys every rule, every live object can be read. */
  lemma LiveObjectsReadable(users: set<string>, steps: seq<Step>, id: string)
    requires forall rule :: RunObeys(Empty(users), steps, rule)
    requires var db := Exec(Empty(users), steps).db; id in db.objects && !db.objects[id].deleted
    ensures Readable(Exec(Empty(users), steps), id)
  {
    EveryRuleIsCareful(Empty(users), steps);
    SafeInEveryCarefulRun(Empty(users), steps);
    var w := Exec(Empty(users), steps);
    assert KeyHeld(w.db.ledger, w.disk, w.db.objects[id]);
    var key := w.db.objects[id].blobKey.value;
    assert ClaimMatches(w.db.ledger[key], key, w.db.objects);
  }

  lemma {:induction false} EveryRuleIsCareful(w: World, steps: seq<Step>)
    requires forall rule :: RunObeys(w, steps, rule)
    ensures CarefulRun(w, steps)
    decreases |steps|
  {
    hide Next, Obeys;
    if steps != [] {
      forall rule ensures Obeys(w, steps[0], rule) && RunObeys(Next(w, steps[0]), steps[1..], rule) {
        assert RunObeys(w, steps, rule);
      }
      EveryRuleIsCareful(Next(w, steps[0]), steps[1..]);
    }
  }

  // ---- When a release harms another object -------------------------------------

  predicate LiveClaimed(db: Database) {
    forall id | id in db.objects && !db.objects[id].deleted ::
      db.objects[id].blobKey.Some? && db.objects[id].blobKey.value in db.ledger &&
      db.ledger[db.objects[id].blobKey.value].state == Claimed &&
        db.ledger[db.objects[id].blobKey.value].objectId == Some(id)
  }

  /** The old key of this object is claimed by another, live, object. */
  predicate HoldsForeignClaim(db: Database, id: string)
    requires id in db.objects
  {
    db.objects[id].blobKey.Some? && db.objects[id].blobKey.value in db.ledger &&
    var row := db.ledger[db.objects[id].blobKey.value];
    row.state == Claimed && row.objectId.Some? && row.objectId.value != id &&
    row.objectId.value in db.objects && !db.objects[row.objectId.value].deleted
  }

  /** The release names the blob key but not the object, so an accepted update
      keeps every live object claimed exactly when the old key is not a live
      claim of another object. */
  lemma UpdateKeepsClaims(db: Database, user: string, collection: string, id: string, key: string, version: int,
                          clock: Clock)
    requires Rooted(db) && Corresponds(db.ledger, db.objects) && LiveClaimed(db)
    requires RunUpdate(db, user, collection, id, key, version, clock).effect.Updated?
    ensures LiveClaimed(RunUpdate(db, user, collection, id, key, version, clock).db) <==> !HoldsForeignClaim(db, id)
  {
    var db' := RunUpdate(db, user, collection, id, key, version, clock).db;
    if HoldsForeignClaim(db, id) {
      var other := db.ledger[db.objects[id].blobKey.value].objectId.value;
      assert ClaimMatches(db.ledger[db.objects[id].blobKey.value], db.objects[id].blobKey.value, db.objects);
      assert db'.objects[other] == db.objects[other];
      assert db'.ledger[db.objects[other].blobKey.value].state == Retained;
    }
  }

  /** A live object always claims its own key, so only a tombstone can hold a
      foreign claim, and deleting a live object harms no other. */
  lemma DeleteKeepsClaims(db: Database, user: string, collection: string, id: string, expected: Option<int>,
                          clock: Clock)
    requires Rooted(db) && Corresponds(db.ledger, db.objects) && LiveClaimed(db)
    ensures LiveClaimed(RunDelete(db, user, collection, id, expected, clock).db)
    ensures id in db.objects && HoldsForeignClaim(db, id) ==> db.objects[id].deleted
  {
  }
}
