/** Runs of the whole server. A world is the database, the blob directory and
    what is under way between two steps; each step is one committed SQL
    transaction, one file operation or one after-commit callback. Requests are
    not tied together: a commit may come with any arguments at any time, so a
    run may interleave, repeat or abandon requests at every point where the
    program can be interrupted. Every step carries its own clock readings, in
    any order. */
module Worlds {
  import opened Tables
  import opened Mutations

  /** One accepted mutation and the row it left. */
  datatype Accepted = Accepted(kind: Kind, row: Object)

  /** What a client knows of an object: the row, or only that it is a tombstone. */
  datatype Seen = Live(row: Object) | Gone(version: int, changeSeq: nat)

  /** The part of a successful response a syncing client uses. */
  datatype Answer = Answer(collection: string, id: string, seen: Seen, changeSeq: nat, collectionVersion: nat)

  /** The blob directory and the file operations under way. */
  datatype Disk = Disk(
    files: map<string, seq<byte>>,
    puts: map<string, seq<byte>>,       // ledger row inserted, file not yet written
    removals: multiset<string>,         // row step done, file removal outstanding
    sightings: set<(string, nat)>,      // files a reconciliation walk has sized but not yet recorded
    returned: set<string>)              // keys Stage has returned

  /** What has been answered, published and accepted so far. */
  datatype Log = Log(
    queued: multiset<Note>,             // after-commit callbacks not yet run
    published: multiset<Note>,
    history: map<string, seq<Accepted>>,
    madeBy: map<string, ResultKey>,     // the Mutation-Id an object was created under
    answers: set<Answer>)

  /** minted holds every id and storage key ever minted. */
  datatype World = World(db: Database, disk: Disk, log: Log, minted: set<string>)

  datatype BlobStep =
    | InsertStaged(user: string, blobId: string, data: seq<byte>, now: Millis)
    | WriteStaged(key: string)
    | DropBlobRow(user: string, key: string)
    | PurgeRow(key: string, now: Millis)
    | RemoveFile(key: string, ok: bool)
    | SizeFile(key: string)
    | AdoptFile(key: string, size: nat, now: Millis)

  datatype Step =
    | ClaimCollection(user: string, id: string, now: Millis)
    | DeleteCollection(user: string, id: string, now: Millis)
    | Prepare(user: string, mid: string, intent: Intent, now: Millis)
    | CommitCreate(user: string, collection: string, mid: string, key: string, prepared: bool, id: string, clock: Clock)
    | CommitUpdate(user: string, collection: string, id: string, mid: string, key: string, version: int, prepared: bool,
      clock: Clock)
    | CommitDelete(user: string, collection: string, id: string, mid: string, expected: Option<int>, prepared: bool,
      clock: Clock)
    | Blob(step: BlobStep)
    | ExpirePending(engine: Engine, now: Millis)
    | ExpireOther(engine: Engine, now: Millis)
    | RunCallback(note: Note)

  function View(o: Object): Seen {
    if o.deleted then Gone(o.version, o.changeSeq) else Live(o)
  }

  function AnswerTo(r: MutationResponse): Answer {
    Answer(r.row.collection, r.row.id, View(r.row), r.row.changeSeq, r.collectionVersion)
  }

  function DeleteAnswer(collection: string, r: DeleteResponse): Answer {
    Answer(collection, r.row.id, Gone(r.row.version, r.row.changeSeq), r.row.changeSeq, r.collectionVersion)
  }

  function HistoryOf(log: Log, id: string): seq<Accepted> {
    if id in log.history then log.history[id] else []
  }

  function Logged(log: Log, kind: Kind, user: string, o: Object): Log {
    log.(queued := log.queued + multiset{Note(user, o.collection, o.changeSeq)},
         history := log.history[o.id := HistoryOf(log, o.id) + [Accepted(kind, o)]])
  }

  /** Commit: the notification is queued on the transaction's after-commit
      list, and the answer is on its way. */
  function Committed(log: Log, effect: Effect, user: string, mid: string, answers: set<Answer>): Log {
    var after := match effect
      case Quiet => log
      case Created(o) => Logged(log, Create, user, o).(madeBy := if mid == "" then log.madeBy
        else log.madeBy[o.id := (user, mid)])
      case Updated(_, o) => Logged(log, Update, user, o)
      case Removed(_, o) => Logged(log, Delete, user, o);
    after.(answers := log.answers + answers)
  }

  function MutationAnswers(outcome: Outcome<MutationResponse>): set<Answer> {
    if outcome.OK? then {AnswerTo(outcome.response)} else {}
  }

  function RemovalAnswers(collection: string, outcome: Outcome<DeleteResponse>): set<Answer> {
    if outcome.OK? then {DeleteAnswer(collection, outcome.response)} else {}
  }

  function CreateStep(w: World, user: string, collection: string, mid: string, key: string,
                      prepared: bool, id: string, clock: Clock): World
  {
    if user !in w.db.users || !ValidUuid(id) || id in w.minted then w
    else
      var tx := CreateTx(w.db, user, collection, mid, key, prepared, id, clock);
      World(tx.db, w.disk, Committed(w.log, tx.effect, user, mid, MutationAnswers(tx.outcome)), w.minted + {id})
  }

  function UpdateStep(w: World, user: string, collection: string, id: string, mid: string, key: string,
                      version: int, prepared: bool, clock: Clock): World
  {
    if user !in w.db.users then w
    else
      var tx := UpdateTx(w.db, user, collection, id, mid, key, version, prepared, clock);
      World(tx.db, w.disk, Committed(w.log, tx.effect, user, mid, MutationAnswers(tx.outcome)), w.minted)
  }

  function DeleteStep(w: World, user: string, collection: string, id: string, mid: string,
                      expected: Option<int>, prepared: bool, clock: Clock): World
  {
    if user !in w.db.users then w
    else
      var tx := DeleteTx(w.db, user, collection, id, mid, expected, prepared, clock);
      World(tx.db, w.disk, Committed(w.log, tx.effect, user, mid, RemovalAnswers(collection, tx.outcome)), w.minted)
  }

  function BlobNext(w: World, step: BlobStep): World {
    match step
    case InsertStaged(user, blobId, data, now) =>
      var key := user + "/" + blobId;
      if user !in w.db.users || !ValidUuid(blobId) || key in w.minted then w
      else World(InsertStagedTx(w.db, user, key, |data|, now), w.disk.(puts := w.disk.puts[key := data]), w.log,
        w.minted + {key})
    case WriteStaged(key) =>
      if key !in w.disk.puts then w
      else w.(disk := w.disk.(files := w.disk.files[key := w.disk.puts[key]], puts := w.disk.puts - {key},
                              returned := w.disk.returned + {key}))
    case DropBlobRow(user, key) =>
      var (db, granted) := DropBlobRowTx(w.db, user, key);
      if granted then World(db, w.disk.(removals := w.disk.removals + multiset{key}), w.log, w.minted) else w
    case PurgeRow(key, now) =>
      var (db, purged) := PurgeRowTx(w.db, key, now);
      if purged then World(db, w.disk.(removals := w.disk.removals + multiset{key}), w.log, w.minted) else w
    case RemoveFile(key, ok) =>
      if key !in w.disk.removals then w
      else w.(disk := w.disk.(removals := w.disk.removals - multiset{key},
                              files := if ok then w.disk.files - {key} else w.disk.files))
    case SizeFile(key) =>
      if key !in w.disk.files then w
      else w.(disk := w.disk.(sightings := w.disk.sightings + {(key, |w.disk.files[key]|)}))
    case AdoptFile(key, size, now) =>
      if (key, size) !in w.disk.sightings then w
      else World(AdoptTx(w.db, key, size, now).0, w.disk.(sightings := w.disk.sightings - {(key, size)}), w.log,
        w.minted)
  }

  /** A step that is not possible in w leaves it alone. */
  function Next(w: World, step: Step): World {
    match step
    case ClaimCollection(user, id, now) =>
      if user !in w.db.users || !ValidUuid(id) || id in w.minted then w
      else w.(db := ClaimCollectionTx(w.db, user, id, now), minted := w.minted + {id})
    case DeleteCollection(user, id, now) => w.(db := DeleteCollectionTx(w.db, user, id, now))
    case Prepare(user, mid, intent, now) =>
      if user !in w.db.users then w else w.(db := PrepareMutation(w.db, user, mid, intent, now).0)
    case CommitCreate(user, collection, mid, key, prepared, id, clock) =>
      CreateStep(w, user, collection, mid, key, prepared, id, clock)
    case CommitUpdate(user, collection, id, mid, key, version, prepared, clock) =>
      UpdateStep(w, user, collection, id, mid, key, version, prepared, clock)
    case CommitDelete(user, collection, id, mid, expected, prepared, clock) =>
      DeleteStep(w, user, collection, id, mid, expected, prepared, clock)
    case Blob(blob) => BlobNext(w, blob)
    case ExpirePending(engine, now) => w.(db := ExpirePendingTx(w.db, engine, now))
    case ExpireOther(engine, now) => w.(db := ExpireOtherTx(w.db, engine, now))
    case RunCallback(note) =>
      if note !in w.log.queued then w
      else w.(log := w.log.(queued := w.log.queued - multiset{note}, published := w.log.published + multiset{note}))
  }

  /** A run from w. */
  function Exec(w: World, steps: seq<Step>): World
    decreases |steps|
  {
    if steps == [] then w else Exec(Next(w, steps[0]), steps[1..])
  }

  /** A server whose users have stored nothing yet. */
  function Empty(users: set<string>): World {
    World(Database(users, map[], map[], map[], map[]), Disk(map[], map[], multiset{}, {}, {}),
          Log(multiset{}, multiset{}, map[], map[], {}), {})
  }

  // ---- What one step can do to collection contents --------------------------

  datatype Change =
    | Same
    | Advance(kind: Kind, row: Object)
    | NewCollection(id: string, collection: Collection)
    | DropCollection(id: string)

  /** The row an accepted mutation leaves, against the row it found. */
  predicate Follows(objects: Objects, kind: Kind, row: Object) {
    match kind
    case Create => row.id !in objects && row.version == 1 && !row.deleted
    case Update =>
      row.id in objects &&
      var was := objects[row.id];
      row == was.(id := row.id, version := was.version + 1, changeSeq := row.changeSeq, blobKey := row.blobKey,
                  sizeBytes := row.sizeBytes, updatedAt := row.updatedAt)
    case Delete =>
      row.id in objects &&
      var was := objects[row.id];
      !was.deleted &&
      row == was.(id := row.id, version := was.version + 1, changeSeq := row.changeSeq, deleted := true,
        updatedAt := row.updatedAt)
  }

  predicate Advances(db: Database, db': Database, kind: Kind, row: Object) {
    row.collection in db.collections && row.user == db.collections[row.collection].user &&
    Follows(db.objects, kind, row) &&
    row.changeSeq == db.collections[row.collection].currentVersion + 1 &&
    db'.collections == Bump(db.collections, row.collection) &&
    db'.objects == db.objects[row.id := row]
  }

  function Notes(log: Log): multiset<Note> { log.queued + log.published }

  predicate Changes(w: World, w': World, change: Change) {
    w'.db.users == w.db.users && w.minted <= w'.minted &&
    match change
    case Same =>
      w'.db.collections == w.db.collections && w'.db.objects == w.db.objects &&
      Notes(w'.log) == Notes(w.log) && w'.log.history == w.log.history && w'.log.madeBy == w.log.madeBy
    case Advance(kind, row) =>
      Advances(w.db, w'.db, kind, row) && (kind == Create ==> row.id !in w.minted && row.id in w'.minted) &&
      Notes(w'.log) == Notes(w.log) + multiset{Note(row.user, row.collection, row.changeSeq)} &&
      w'.log.history == w.log.history[row.id := HistoryOf(w.log, row.id) + [Accepted(kind, row)]] &&
      (kind != Create ==> w'.log.madeBy == w.log.madeBy) && w'.log.madeBy.Keys <= w.log.madeBy.Keys + {row.id} &&
      (forall i | i in w.log.madeBy :: i in w'.log.madeBy && w'.log.madeBy[i] == w.log.madeBy[i])
    case NewCollection(id, collection) =>
      id !in w.minted && id in w'.minted && collection.currentVersion == 0 &&
      w'.db.collections == w.db.collections[id := collection] && w'.db.objects == w.db.objects && w'.log == w.log
    case DropCollection(id) =>
      id in w.db.collections &&
      w'.db.collections == w.db.collections - {id} && w'.db.objects == w.db.objects - ObjectsOf(w.db.objects, id) &&
        w'.log == w.log
  }

  /** Objects are filed under their own id, in a collection of their owner. */
  predicate Rooted(db: Database) {
    forall id | id in db.objects ::
      db.objects[id].id == id && db.objects[id].collection in db.collections &&
      db.collections[db.objects[id].collection].user == db.objects[id].user
  }

  /** Nothing in use was left unminted. */
  predicate AllMinted(w: World) {
    w.db.objects.Keys <= w.minted && w.db.collections.Keys <= w.minted && w.log.history.Keys <= w.minted &&
    w.log.madeBy.Keys <= w.minted
  }

  /** A bump is a change, to the next version. */
  lemma NewCursor(collections: Collections, id: string)
    ensures id in collections ==>
            Bump(collections, id) != collections && id in Bump(collections, id) &&
            Bump(collections, id)[id].currentVersion == collections[id].currentVersion + 1
  {
    if id in collections { assert Bump(collections, id)[id] != collections[id]; }
  }

  lemma CreateEffect(db: Database, user: string, collection: string, mid: string, key: string,
                     prepared: bool, id: string, clock: Clock)
    requires id !in db.objects
    ensures var tx := CreateTx(db, user, collection, mid, key, prepared, id, clock);
      match tx.effect
      case Quiet => tx.db == db.(results := tx.db.results)
      case Created(o) =>
        Advances(db, tx.db, Create, o) && o.id == id && o.user == user && o.blobKey == Some(key) &&
          tx.db.users == db.users
      case _ => false
  {
  }

  lemma UpdateEffect(db: Database, user: string, collection: string, id: string, mid: string, key: string,
                     version: int, prepared: bool, clock: Clock)
    requires Rooted(db)
    ensures var tx := UpdateTx(db, user, collection, id, mid, key, version, prepared, clock);
      match tx.effect
      case Quiet => tx.db == db.(results := tx.db.results)
      case Updated(before, o) => Advances(db, tx.db, Update, o) && o.id == id && o.user == user &&
        before == db.objects[id]
      case _ => false
  {
  }

  lemma DeleteEffect(db: Database, user: string, collection: string, id: string, mid: string,
                     expected: Option<int>, prepared: bool, clock: Clock)
    requires Rooted(db)
    ensures var tx := DeleteTx(db, user, collection, id, mid, expected, prepared, clock);
      match tx.effect
      case Quiet => tx.db == db.(results := tx.db.results)
      case Removed(before, o) => Advances(db, tx.db, Delete, o) && o.id == id && o.user == user &&
        before == db.objects[id]
      case _ => false
  {
  }

  /** Every step is one of four changes to collection contents. */
  function ChangeOf(w: World, step: Step): Change {
    match step
    case ClaimCollection(user, id, now) =>
      if user !in w.db.users || !ValidUuid(id) || id in w.minted || CollectionsOf(w.db, user) != {} then Same
      else NewCollection(id, Collection(user, now, 0))
    case DeleteCollection(user, id, now) => if CollectionFound(w.db, user, id) then DropCollection(id) else Same
    case CommitCreate(user, collection, mid, key, prepared, id, clock) =>
      if user !in w.db.users || !ValidUuid(id) || id in w.minted then Same
      else
        var tx := CreateTx(w.db, user, collection, mid, key, prepared, id, clock);
        if tx.effect.Created? then Advance(Create, tx.effect.row) else Same
    case CommitUpdate(user, collection, id, mid, key, version, prepared, clock) =>
      if user !in w.db.users then Same
      else
        var tx := UpdateTx(w.db, user, collection, id, mid, key, version, prepared, clock);
        if tx.effect.Updated? then Advance(Update, tx.effect.row) else Same
    case CommitDelete(user, collection, id, mid, expected, prepared, clock) =>
      if user !in w.db.users then Same
      else
        var tx := DeleteTx(w.db, user, collection, id, mid, expected, prepared, clock);
        if tx.effect.Removed? then Advance(Delete, tx.effect.row) else Same
    case _ => Same
  }

  lemma CreateChanges(w: World, user: string, collection: string, mid: string, key: string,
                      prepared: bool, id: string, clock: Clock)
    requires AllMinted(w)
    ensures Changes(w, CreateStep(w, user, collection, mid, key, prepared, id, clock),
                    ChangeOf(w, CommitCreate(user, collection, mid, key, prepared, id, clock)))
  {
    if user in w.db.users && ValidUuid(id) && id !in w.minted {
      CreateEffect(w.db, user, collection, mid, key, prepared, id, clock);
      hide CreateTx, ValidUuid, Changes, Committed;
      var tx := CreateTx(w.db, user, collection, mid, key, prepared, id, clock);
      EffectChanges(w, CreateStep(w, user, collection, mid, key, prepared, id, clock), tx, user, mid, id);
    }
  }

  /** What a create's transaction did is what the step changes. */
  lemma EffectChanges(w: World, w': World, tx: Tx<MutationResponse>, user: string, mid: string, id: string)
    requires AllMinted(w) && id !in w.minted
    requires w' == World(tx.db, w.disk, Committed(w.log, tx.effect, user, mid, MutationAnswers(tx.outcome)),
             w.minted + {id})
    requires match tx.effect
             case Quiet => tx.db == w.db.(results := tx.db.results)
             case Created(o) => Advances(w.db, tx.db, Create, o) && o.id == id && o.user == user &&
               tx.db.users == w.db.users
             case _ => false
    ensures Changes(w, w', if tx.effect.Created? then Advance(Create, tx.effect.row) else Same)
  {
    hide Advances;
    LoggedNote(w.log, tx.effect, user, mid, MutationAnswers(tx.outcome));
  }

  lemma LoggedNote(log: Log, effect: Effect, user: string, mid: string, answers: set<Answer>)
    ensures Notes(Committed(log, effect, user, mid, answers)) ==
            Notes(log) + (if effect.Quiet? then multiset{}
              else multiset{Note(user, effect.row.collection, effect.row.changeSeq)})
  {
  }

  lemma UpdateChanges(w: World, user: string, collection: string, id: string, mid: string, key: string,
                      version: int, prepared: bool, clock: Clock)
    requires Rooted(w.db)
    ensures Changes(w, UpdateStep(w, user, collection, id, mid, key, version, prepared, clock),
                    ChangeOf(w, CommitUpdate(user, collection, id, mid, key, version, prepared, clock)))
  {
    UpdateEffect(w.db, user, collection, id, mid, key, version, prepared, clock);
    var tx := UpdateTx(w.db, user, collection, id, mid, key, version, prepared, clock);
    LoggedNote(w.log, tx.effect, user, mid, MutationAnswers(tx.outcome));
  }

  lemma DeleteChanges(w: World, user: string, collection: string, id: string, mid: string,
                      expected: Option<int>, prepared: bool, clock: Clock)
    requires Rooted(w.db)
    ensures Changes(w, DeleteStep(w, user, collection, id, mid, expected, prepared, clock),
                    ChangeOf(w, CommitDelete(user, collection, id, mid, expected, prepared, clock)))
  {
    DeleteEffect(w.db, user, collection, id, mid, expected, prepared, clock);
    var tx := DeleteTx(w.db, user, collection, id, mid, expected, prepared, clock);
    LoggedNote(w.log, tx.effect, user, mid, RemovalAnswers(collection, tx.outcome));
  }

  lemma BlobChanges(w: World, step: BlobStep)
    ensures var w' := BlobNext(w, step);
      w'.log == w.log && w.minted <= w'.minted && w'.db == w.db.(ledger := w'.db.ledger)
  {
  }

  lemma CollectionChanges(w: World, step: Step)
    requires step.ClaimCollection? || step.DeleteCollection?
    ensures Changes(w, Next(w, step), ChangeOf(w, step))
  {
  }

  lemma QuietChanges(w: World, step: Step)
    requires step.Prepare? || step.ExpirePending? || step.ExpireOther? || step.RunCallback?
    ensures Changes(w, Next(w, step), Same)
  {
    if step.RunCallback? && step.note in w.log.queued {
      CallbackNotes(w.log, step.note);
      hide Notes;
    }
  }

  lemma CallbackNotes(log: Log, note: Note)
    requires note in log.queued
    ensures Notes(log.(queued := log.queued - multiset{note},
            published := log.published + multiset{note})) == Notes(log)
  {
    assert log.queued == log.queued - multiset{note} + multiset{note};
  }

  lemma StepChanges(w: World, step: Step)
    requires Rooted(w.db) && AllMinted(w)
    ensures Changes(w, Next(w, step), ChangeOf(w, step))
  {
    match step
    case CommitCreate(user, collection, mid, key, prepared, id, clock) =>
      CreateChanges(w, user, collection, mid, key, prepared, id, clock);
    case CommitUpdate(user, collection, id, mid, key, version, prepared, clock) =>
      UpdateChanges(w, user, collection, id, mid, key, version, prepared, clock);
    case CommitDelete(user, collection, id, mid, expected, prepared, clock) =>
      DeleteChanges(w, user, collection, id, mid, expected, prepared, clock);
    case Blob(blob) => BlobChanges(w, blob);
    case ClaimCollection(_, _, _) => CollectionChanges(w, step);
    case DeleteCollection(_, _, _) => CollectionChanges(w, step);
    case _ => QuietChanges(w, step);
  }

  lemma RootedStep(w: World, step: Step)
    requires Rooted(w.db) && AllMinted(w)
    ensures Rooted(Next(w, step).db) && AllMinted(Next(w, step))
  {
    StepChanges(w, step);
  }
}
