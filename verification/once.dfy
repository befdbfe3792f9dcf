/** Exactly-once creates over every run: the objects created under a Mutation-Id
    and the create/201 result rows name each other one to one. */
module CreateOnce {
  import opened Tables
  import opened Mutations
  import opened Worlds

  predicate Settled(results: Results, k: ResultKey) {
    k in results && results[k].result.status != 102
  }

  /** A transaction writes at most one result row, never over a settled one. */
  predicate Writes(results: Results, results': Results, k: ResultKey) {
    results'.Keys <= results.Keys + {k} && results.Keys <= results'.Keys &&
    (forall j | j in results && (j != k || results[j].result.status != 102) :: results'[j] == results[j])
  }

  /** A row saying that this create succeeded and made object id. */
  predicate Made(row: ResultRow, id: string) {
    row.kind == Create && row.result.status == 201 && row.objectId == Some(id) &&
    row.result.body.MutationBody? && row.result.body.response.row.id == id &&
    row.result.body.response.row.collection == row.collection
  }

  predicate SuccessfulCreate(row: ResultRow) { row.kind == Create && 200 <= row.result.status < 300 }

  /** Each existing object created under a Mutation-Id has its row, and each
      successful create row has its object. */
  predicate Durable(db: Database, madeBy: map<string, ResultKey>) {
    (forall id | id in db.objects && id in madeBy ::
      madeBy[id] in db.results && Made(db.results[madeBy[id]], id) &&
      db.results[madeBy[id]].collection == db.objects[id].collection && madeBy[id].0 == db.objects[id].user) &&
    (forall k | k in db.results && SuccessfulCreate(db.results[k]) ::
      db.results[k].objectId.Some? &&
      var id := db.results[k].objectId.value;
      Made(db.results[k], id) && id in db.objects && id in madeBy && madeBy[id] == k)
  }

  /** Every row the coordinator writes has one of these forms. */
  predicate Shaped(row: ResultRow) {
    match row.result.body
    case PendingBody => row.result.status == 102
    case NotFoundBody => row.result.status == 404
    case NotStagedBody => row.result.status == 409 && row.kind != Delete
    case ConflictBody(_) => row.result.status == 409 && row.kind != Create
    case MutationBody(_) => row.kind != Delete && row.result.status == (if row.kind == Create then 201 else 200)
    case DeleteBody(_) => row.kind == Delete && row.result.status == 200
  }

  predicate AllShaped(results: Results) {
    forall k | k in results :: Shaped(results[k])
  }

  predicate OnceOnly(w: World) {
    Rooted(w.db) && AllMinted(w) && AllShaped(w.db.results) && Durable(w.db, w.log.madeBy)
  }

  /** The outcomes a fresh mutation of this kind can have. */
  predicate Proper<R>(kind: Kind, outcome: Outcome<R>) {
    !outcome.MutationMismatch? && !outcome.MutationPending? &&
    (outcome.BlobNotStaged? ==> kind != Delete) && (outcome.VersionConflict? ==> kind != Create)
  }

  lemma SaveWrites(results: Results, user: string, mid: string, intent: Intent, prepared: bool,
                   stored: StoredResult, resulting: Option<string>, now: Millis)
    requires Gate(results, user, mid, intent, prepared) == Fresh
    ensures var results' := SaveResult(results, user, mid, intent, stored, resulting, now);
      Writes(results, results', (user, mid)) &&
      if !Recordable(mid, intent) then results' == results
      else
        (user, mid) in results' && !Settled(results, (user, mid)) &&
        var row := results'[(user, mid)];
        row.kind == intent.kind && row.collection == intent.collection && row.result == stored &&
        row.objectId == (if intent.kind == Create then resulting else intent.objectId) &&
        row.requestedVersion == intent.requestedVersion
  {
  }

  lemma GuardedMutation(db: Database, user: string, mid: string, intent: Intent, prepared: bool,
                        run: Tx<MutationResponse>, save: Millis)
    requires AllShaped(db.results) && intent.kind != Delete && Proper(intent.kind, run.outcome)
    requires run.effect.Quiet? ==> run.db == db && (intent.kind == Create ==> !run.outcome.OK?)
    ensures var tx := GuardMutation(db, user, mid, intent, prepared, run, save);
      AllShaped(tx.db.results) && Writes(db.results, tx.db.results, (user, mid)) &&
      (tx.effect.Quiet? || intent.kind == Update ==>
        tx.db.results == db.results || !SuccessfulCreate(tx.db.results[(user, mid)]))
  {
    hide SaveResult, Lookup;
    if Gate(db.results, user, mid, intent, prepared) == Fresh {
      var resulting := if intent.kind == Create && run.outcome.OK? then Some(run.outcome.response.row.id) else None;
      SaveWrites(db.results, user, mid, intent, prepared, RecordMutation(intent.kind, run.outcome), resulting, save);
    }
  }

  lemma GuardedDelete(db: Database, user: string, mid: string, intent: Intent, prepared: bool,
                      run: Tx<DeleteResponse>, save: Millis)
    requires AllShaped(db.results) && intent.kind == Delete && Proper(Delete, run.outcome)
    ensures var tx := GuardDelete(db, user, mid, intent, prepared, run, save);
      AllShaped(tx.db.results) && Writes(db.results, tx.db.results, (user, mid)) &&
      (tx.db.results == db.results || !SuccessfulCreate(tx.db.results[(user, mid)]))
  {
    if Gate(db.results, user, mid, intent, prepared) == Fresh {
      SaveWrites(db.results, user, mid, intent, prepared, RecordDelete(run.outcome), None, save);
    }
  }

  lemma CreateWrites(db: Database, user: string, collection: string, mid: string, key: string,
                     prepared: bool, id: string, clock: Clock)
    requires AllShaped(db.results)
    ensures var tx := CreateTx(db, user, collection, mid, key, prepared, id, clock);
      AllShaped(tx.db.results) && Writes(db.results, tx.db.results, (user, mid)) &&
      (tx.effect.Quiet? ==> tx.db.results == db.results || !SuccessfulCreate(tx.db.results[(user, mid)])) &&
      (tx.effect.Created? ==>
        if mid == "" then tx.db.results == db.results
        else (user, mid) in tx.db.results && Made(tx.db.results[(user, mid)], id) &&
             tx.db.results[(user, mid)].collection == collection && !Settled(db.results, (user, mid)))
  {
    var intent, run := CreateIntent(collection), RunCreate(db, user, collection, key, id, clock);
    GuardedMutation(db, user, mid, intent, prepared, run, clock.save);
    if Gate(db.results, user, mid, intent, prepared) == Fresh && run.effect.Created? {
      SaveWrites(db.results, user, mid, intent, prepared, RecordMutation(Create, run.outcome), Some(id), clock.save);
    }
  }

  lemma UpdateWrites(db: Database, user: string, collection: string, id: string, mid: string, key: string,
                     version: int, prepared: bool, clock: Clock)
    requires AllShaped(db.results)
    ensures var results' := UpdateTx(db, user, collection, id, mid, key, version, prepared, clock).db.results;
      AllShaped(results') && Writes(db.results, results', (user, mid)) &&
      (results' == db.results || !SuccessfulCreate(results'[(user, mid)]))
  {
    var run := RunUpdate(db, user, collection, id, key, version, clock);
    GuardedMutation(db, user, mid, UpdateIntent(collection, id, version), prepared, run, clock.save);
  }

  lemma DeleteWrites(db: Database, user: string, collection: string, id: string, mid: string,
                     expected: Option<int>, prepared: bool, clock: Clock)
    requires AllShaped(db.results)
    ensures var results' := DeleteTx(db, user, collection, id, mid, expected, prepared, clock).db.results;
      AllShaped(results') && Writes(db.results, results', (user, mid)) &&
      (results' == db.results || !SuccessfulCreate(results'[(user, mid)]))
  {
    var run := RunDelete(db, user, collection, id, expected, clock);
    GuardedDelete(db, user, mid, DeleteIntent(collection, id, expected), prepared, run, clock.save);
  }

  /** Objects keep their collection and owner while they exist. */
  predicate Placed(objects: Objects, objects': Objects) {
    forall id | id in objects ::
      id in objects' && objects'[id].collection == objects[id].collection && objects'[id].user == objects[id].user
  }

  lemma WriteDurable(db: Database, db': Database, madeBy: map<string, ResultKey>, k: ResultKey)
    requires Durable(db, madeBy) && Placed(db.objects, db'.objects) && db'.objects.Keys == db.objects.Keys
    requires Writes(db.results, db'.results, k)
    requires db'.results == db.results || (k in db'.results && !SuccessfulCreate(db'.results[k]))
    ensures Durable(db', madeBy)
  {
  }

  lemma NewDurable(db: Database, db': Database, madeBy: map<string, ResultKey>, k: ResultKey, o: Object)
    requires Durable(db, madeBy) && o.id !in db.objects && db'.objects == db.objects[o.id := o] && k.0 == o.user
    requires Writes(db.results, db'.results, k) && !Settled(db.results, k)
    requires k in db'.results && Made(db'.results[k], o.id) && db'.results[k].collection == o.collection
    ensures Durable(db', madeBy[o.id := k])
  {
  }

  lemma AnonymousDurable(db: Database, db': Database, madeBy: map<string, ResultKey>, o: Object)
    requires Durable(db, madeBy) && o.id !in db.objects && o.id !in madeBy
    requires db'.objects == db.objects[o.id := o] && db'.results == db.results
    ensures Durable(db', madeBy)
  {
  }

  lemma CreateDurable(w: World, user: string, collection: string, mid: string, key: string,
                      prepared: bool, id: string, clock: Clock)
    requires OnceOnly(w)
    ensures var w' := CreateStep(w, user, collection, mid, key, prepared, id, clock);
            AllShaped(w'.db.results) && Durable(w'.db, w'.log.madeBy)
  {
    if user in w.db.users && ValidUuid(id) && id !in w.minted {
      CreateWrites(w.db, user, collection, mid, key, prepared, id, clock);
      CreateEffect(w.db, user, collection, mid, key, prepared, id, clock);
      var tx := CreateTx(w.db, user, collection, mid, key, prepared, id, clock);
      if tx.effect.Quiet? {
        WriteDurable(w.db, tx.db, w.log.madeBy, (user, mid));
      } else if mid == "" {
        AnonymousDurable(w.db, tx.db, w.log.madeBy, tx.effect.row);
      } else {
        NewDurable(w.db, tx.db, w.log.madeBy, (user, mid), tx.effect.row);
      }
    }
  }

  lemma UpdateDurable(w: World, user: string, collection: string, id: string, mid: string, key: string,
                      version: int, prepared: bool, clock: Clock)
    requires OnceOnly(w)
    ensures var w' := UpdateStep(w, user, collection, id, mid, key, version, prepared, clock);
            AllShaped(w'.db.results) && Durable(w'.db, w'.log.madeBy)
  {
    if user in w.db.users {
      UpdateWrites(w.db, user, collection, id, mid, key, version, prepared, clock);
      UpdateEffect(w.db, user, collection, id, mid, key, version, prepared, clock);
      var db' := UpdateTx(w.db, user, collection, id, mid, key, version, prepared, clock).db;
      WriteDurable(w.db, db', w.log.madeBy, (user, mid));
    }
  }

  lemma DeleteDurable(w: World, user: string, collection: string, id: string, mid: string,
                      expected: Option<int>, prepared: bool, clock: Clock)
    requires OnceOnly(w)
    ensures var w' := DeleteStep(w, user, collection, id, mid, expected, prepared, clock);
            AllShaped(w'.db.results) && Durable(w'.db, w'.log.madeBy)
  {
    if user in w.db.users {
      DeleteWrites(w.db, user, collection, id, mid, expected, prepared, clock);
      DeleteEffect(w.db, user, collection, id, mid, expected, prepared, clock);
      var db' := DeleteTx(w.db, user, collection, id, mid, expected, prepared, clock).db;
      WriteDurable(w.db, db', w.log.madeBy, (user, mid));
    }
  }

  lemma DropDurable(db: Database, madeBy: map<string, ResultKey>, user: string, id: string, now: Millis)
    requires Rooted(db) && AllShaped(db.results) && Durable(db, madeBy)
    ensures Durable(DeleteCollectionTx(db, user, id, now), madeBy) &&
            AllShaped(DeleteCollectionTx(db, user, id, now).results)
  {
  }

  lemma PrepareDurable(db: Database, madeBy: map<string, ResultKey>, user: string, mid: string, intent: Intent,
                       now: Millis)
    requires Durable(db, madeBy) && AllShaped(db.results)
    ensures var db' := PrepareMutation(db, user, mid, intent, now).0; Durable(db', madeBy) && AllShaped(db'.results)
  {
  }

  lemma ExpireDurable(db: Database, madeBy: map<string, ResultKey>, engine: Engine, now: Millis)
    requires Durable(db, madeBy) && AllShaped(db.results)
    ensures Durable(ExpirePendingTx(db, engine, now), madeBy) && AllShaped(ExpirePendingTx(db, engine, now).results)
    ensures Durable(ExpireOtherTx(db, engine, now), madeBy) && AllShaped(ExpireOtherTx(db, engine, now).results)
  {
  }

  lemma OnceStep(w: World, step: Step)
    requires OnceOnly(w)
    ensures OnceOnly(Next(w, step))
  {
    RootedStep(w, step);
    match step
    case CommitCreate(user, collection, mid, key, prepared, id, clock) =>
      CreateDurable(w, user, collection, mid, key, prepared, id, clock);
    case CommitUpdate(user, collection, id, mid, key, version, prepared, clock) =>
      UpdateDurable(w, user, collection, id, mid, key, version, prepared, clock);
    case CommitDelete(user, collection, id, mid, expected, prepared, clock) =>
      DeleteDurable(w, user, collection, id, mid, expected, prepared, clock);
    case DeleteCollection(user, id, now) => DropDurable(w.db, w.log.madeBy, user, id, now);
    case Prepare(user, mid, intent, now) => PrepareDurable(w.db, w.log.madeBy, user, mid, intent, now);
    case ExpirePending(engine, now) => ExpireDurable(w.db, w.log.madeBy, engine, now);
    case ExpireOther(engine, now) => ExpireDurable(w.db, w.log.madeBy, engine, now);
    case Blob(blob) => BlobChanges(w, blob);
    case _ =>
  }

  lemma {:induction false} OnceInEveryRun(w: World, steps: seq<Step>)
    requires OnceOnly(w)
    ensures OnceOnly(Exec(w, steps))
    decreases |steps|
  {
    if steps != [] {
      OnceStep(w, steps[0]);
      OnceInEveryRun(Next(w, steps[0]), steps[1..]);
    }
  }

  /** In every run, no two existing objects were created under one Mutation-Id. */
  lemma NoDuplicateCreate(users: set<string>, steps: seq<Step>, a: string, b: string)
    requires var w := Exec(Empty(users), steps);
      a in w.db.objects && b in w.db.objects && a in w.log.madeBy && b in w.log.madeBy &&
        w.log.madeBy[a] == w.log.madeBy[b]
    ensures a == b
  {
    OnceInEveryRun(Empty(users), steps);
  }

  /** While the collection exists, a lookup finds exactly the committed creates:
      a 404 proves that nothing was committed there under this Mutation-Id. */
  lemma RecoveryDefinitive(users: set<string>, steps: seq<Step>, user: string, collection: string, mid: string)
    requires CollectionFound(Exec(Empty(users), steps).db, user, collection)
    ensures var w := Exec(Empty(users), steps);
      var outcome := RecoverCreate(w.db, user, collection, mid);
      var made := set id | id in w.db.objects && w.db.objects[id].collection == collection && id in w.log.madeBy &&
        w.log.madeBy[id] == (user, mid);
      (outcome.OK? ==> outcome.response.row.id in made && outcome.response.replayed == Some(true)) &&
      ((outcome.NotFound? || outcome.VersionConflict?) ==> made == {})
  {
    OnceInEveryRun(Empty(users), steps);
  }
}
