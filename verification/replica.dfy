/** Replica convergence: a client that pulls pages from its cursor, or advances on
    its own response when change_seq = collectionVersion = cursor + 1, agrees with
    the server on every object up to its cursor, with any steps of the server in
    between; a last page makes the replica the collection. */
module Replica {
  import opened Tables
  import opened Mutations
  import opened Pages
  import opened Worlds
  import opened Conservation
  import opened CreateOnce

  // ---- The client ----------------------------------------------------------------

  datatype Client = Client(user: string, collection: string, cursor: nat, rows: map<string, Seen>)

  function Apply(rows: map<string, Seen>, page: seq<Object>): map<string, Seen> {
    if page == [] then rows else Apply(rows, page[..|page| - 1])[page[|page| - 1].id := View(page[|page| - 1])]
  }

  function Pulled(client: Client, page: seq<Object>): Client {
    client.(rows := Apply(client.rows, page), cursor := if page == [] then client.cursor
      else page[|page| - 1].changeSeq)
  }

  function Learned(client: Client, a: Answer): Client {
    client.(rows := client.rows[a.id := a.seen], cursor := a.collectionVersion)
  }

  function SeqOf(seen: Seen): nat {
    match seen case Live(row) => row.changeSeq case Gone(_, changeSeq) => changeSeq
  }

  predicate InCollection(db: Database, client: Client, id: string) {
    id in db.objects && db.objects[id].collection == client.collection
  }

  predicate Knows(db: Database, client: Client, id: string) {
    InCollection(db, client, id) && db.objects[id].changeSeq <= client.cursor ==>
      id in client.rows && client.rows[id] == View(db.objects[id])
  }

  predicate Real(db: Database, client: Client, id: string) {
    id in client.rows ==> InCollection(db, client, id) && SeqOf(client.rows[id]) <= client.cursor
  }

  /** The collection as a client that has pulled everything knows it. */
  function Shown(objects: Objects, collection: string): map<string, Seen> {
    map id | id in ObjectsOf(objects, collection) :: View(objects[id])
  }

  /** The client knows exactly the server's rows up to its cursor. */
  ghost predicate Agrees(db: Database, client: Client) {
    CollectionFound(db, client.user, client.collection) ==>
      client.cursor <= db.collections[client.collection].currentVersion &&
      forall id :: Knows(db, client, id) && Real(db, client, id)
  }

  lemma {:induction false} ApplyKnows(rows: map<string, Seen>, page: seq<Object>, id: string)
    ensures id in Apply(rows, page) ==> id in rows || exists i :: 0 <= i < |page| && page[i].id == id
    ensures (forall i | 0 <= i < |page| :: page[i].id != id) && id in rows ==>
            id in Apply(rows, page) && Apply(rows, page)[id] == rows[id]
  {
    if page != [] {
      ApplyKnows(rows, page[..|page| - 1], id);
      assert page[|page| - 1] == page[|page| - 1];
    }
  }

  lemma {:induction false} ApplyHas(rows: map<string, Seen>, page: seq<Object>, i: nat)
    requires i < |page| && forall j, k | 0 <= j < k < |page| :: page[j].id != page[k].id
    ensures page[i].id in Apply(rows, page) && Apply(rows, page)[page[i].id] == View(page[i])
  {
    if i < |page| - 1 {
      ApplyHas(rows, page[..|page| - 1], i);
    }
  }

  /** A page keeps agreement; the last page makes the replica the collection. */
  lemma PullAgrees(db: Database, client: Client, limit: Option<nat>, rows: seq<Object>, hasMore: bool)
    requires Rooted(db) && Conserved(db) && Agrees(db, client) && CollectionFound(db, client.user, client.collection)
    requires IsPage(db.objects, client.user, client.collection, client.cursor, limit, rows, hasMore)
    ensures Agrees(db, Pulled(client, rows))
    ensures !hasMore ==> Pulled(client, rows).cursor == db.collections[client.collection].currentVersion
    ensures !hasMore ==> Pulled(client, rows).rows == Shown(db.objects, client.collection)
  {
    var after := Pulled(client, rows);
    forall j, k | 0 <= j < k < |rows| ensures rows[j].id != rows[k].id {
      PageIdsDiffer(db.objects, client.user, client.collection, client.cursor, limit, rows, hasMore, j, k);
    }
    if rows != [] { assert rows[|rows| - 1].id in Selected(db.objects, client.user, client.collection, client.cursor); }
    forall id ensures Knows(db, after, id) && Real(db, after, id) {
      if InCollection(db, client, id) && db.objects[id].changeSeq <= after.cursor {
        PulledRow(db, client, limit, rows, hasMore, id);
      }
      if id in after.rows { PulledKnown(db, client, limit, rows, hasMore, id); }
    }
    if !hasMore {
      LastPageCursor(db, client, limit, rows);
      forall id | InCollection(db, client, id) ensures id in after.rows && after.rows[id] == View(db.objects[id]) {
        PulledRow(db, client, limit, rows, hasMore, id);
      }
      forall id | id in after.rows ensures InCollection(db, client, id) { assert Real(db, after, id); }
    }
  }

  /** The last page brings the cursor to the collection's version: the object that
      carries it was known already or is on the page. */
  lemma LastPageCursor(db: Database, client: Client, limit: Option<nat>, rows: seq<Object>)
    requires Rooted(db) && Conserved(db) && Agrees(db, client) && CollectionFound(db, client.user, client.collection)
    requires IsPage(db.objects, client.user, client.collection, client.cursor, limit, rows, false)
    ensures Pulled(client, rows).cursor == db.collections[client.collection].currentVersion
  {
    var version := db.collections[client.collection].currentVersion;
    if rows != [] { assert rows[|rows| - 1].id in Selected(db.objects, client.user, client.collection, client.cursor); }
    if client.cursor < version {
      assert HasSeq(db.objects, client.collection, version);
      var id :| id in db.objects && db.objects[id].collection == client.collection &&
        db.objects[id].changeSeq == version;
      assert id in Selected(db.objects, client.user, client.collection, client.cursor);
      var i :| 0 <= i < |rows| && rows[i] == db.objects[id];
      if i < |rows| - 1 { assert Before(rows[i], rows[|rows| - 1]); }
    }
  }

  /** What a page leaves out comes after all it holds. */
  lemma LeftOutIsLater(db: Database, user: string, collection: string, since: int, limit: Option<nat>,
                       rows: seq<Object>, hasMore: bool, id: string)
    requires Distinct(db.objects) && IsPage(db.objects, user, collection, since, limit, rows, hasMore)
    requires id in Selected(db.objects, user, collection, since) && db.objects[id] !in rows
    ensures hasMore && (rows == [] || db.objects[id].changeSeq > rows[|rows| - 1].changeSeq)
  {
    if rows != [] {
      var last := rows[|rows| - 1];
      assert Before(last, db.objects[id]);
      assert last.id in db.objects && db.objects[last.id] == last;
    }
  }

  lemma PulledRow(db: Database, client: Client, limit: Option<nat>, rows: seq<Object>, hasMore: bool, id: string)
    requires Rooted(db) && Conserved(db) && Agrees(db, client) && CollectionFound(db, client.user, client.collection)
    requires IsPage(db.objects, client.user, client.collection, client.cursor, limit, rows, hasMore)
    requires forall j, k | 0 <= j < k < |rows| :: rows[j].id != rows[k].id
    requires InCollection(db, client, id) && (db.objects[id].changeSeq <= Pulled(client, rows).cursor || !hasMore)
    ensures id in Pulled(client, rows).rows && Pulled(client, rows).rows[id] == View(db.objects[id])
  {
    var o := db.objects[id];
    if o in rows {
      var i :| 0 <= i < |rows| && rows[i] == o;
      ApplyHas(client.rows, rows, i);
    } else {
      if id in Selected(db.objects, client.user, client.collection, client.cursor) {
        LeftOutIsLater(db, client.user, client.collection, client.cursor, limit, rows, hasMore, id);
        assert false;
      }
      forall i | 0 <= i < |rows| ensures rows[i].id != id { assert rows[i] == db.objects[rows[i].id]; }
      assert Knows(db, client, id);
      ApplyKnows(client.rows, rows, id);
    }
  }

  lemma PulledKnown(db: Database, client: Client, limit: Option<nat>, rows: seq<Object>, hasMore: bool, id: string)
    requires Rooted(db) && Agrees(db, client) && CollectionFound(db, client.user, client.collection)
    requires IsPage(db.objects, client.user, client.collection, client.cursor, limit, rows, hasMore)
    requires forall j, k | 0 <= j < k < |rows| :: rows[j].id != rows[k].id
    requires id in Pulled(client, rows).rows
    ensures InCollection(db, client, id) && SeqOf(Pulled(client, rows).rows[id]) <= Pulled(client, rows).cursor
  {
    if i :| 0 <= i < |rows| && rows[i].id == id {
      ApplyHas(client.rows, rows, i);
      if i < |rows| - 1 { assert Before(rows[i], rows[|rows| - 1]); }
    } else {
      ApplyKnows(client.rows, rows, id);
      assert Real(db, client, id);
      if rows != [] {
        assert rows[|rows| - 1].id in Selected(db.objects, client.user, client.collection, client.cursor);
      }
    }
  }

  // ---- Answers -------------------------------------------------------------------

  /** The answer still tells the truth about its object, or the object has moved on. */
  predicate Truthful(db: Database, a: Answer) {
    a.collection in db.collections ==>
      a.id in db.objects && db.objects[a.id].collection == a.collection &&
      a.changeSeq <= db.objects[a.id].changeSeq &&
        a.changeSeq <= a.collectionVersion <= db.collections[a.collection].currentVersion &&
      (if db.objects[a.id].changeSeq == a.changeSeq then View(db.objects[a.id]) == a.seen
       else db.objects[a.id].changeSeq > a.collectionVersion) &&
      SeqOf(a.seen) == a.changeSeq &&
      (forall id | id in db.objects && db.objects[id].collection == a.collection &&
        db.objects[id].changeSeq == a.changeSeq :: id == a.id)
  }

  /** The answer a successful result row gives to a retry. */
  function RowAnswer(row: ResultRow): Option<Answer> {
    match row.result.body
    case MutationBody(response) => Some(AnswerTo(response))
    case DeleteBody(response) => Some(DeleteAnswer(row.collection, response))
    case _ => None
  }

  predicate RowsAnswered(results: Results, answers: set<Answer>) {
    forall k | k in results && RowAnswer(results[k]).Some? :: RowAnswer(results[k]).value in answers
  }

  ghost predicate AllTruthful(w: World) {
    forall a | a in w.log.answers :: Truthful(w.db, a) && a.collection in w.minted
  }

  ghost predicate Replicable(w: World) {
    Sound(w) && AllShaped(w.db.results) && RowsAnswered(w.db.results, w.log.answers) && AllTruthful(w)
  }

  lemma TruthKept(w: World, w': World, change: Change, a: Answer)
    requires Sound(w) && Changes(w, w', change) && Truthful(w.db, a) && a.collection in w.minted
    ensures Truthful(w'.db, a) && a.collection in w'.minted
  {
  }

  /** The answer to a mutation just committed. */
  lemma FreshTruth(db: Database, db': Database, kind: Kind, row: Object, a: Answer)
    requires Rooted(db) && Conserved(db) && Advances(db, db', kind, row)
    requires a == Answer(row.collection, row.id, View(row), row.changeSeq, row.changeSeq)
    ensures Truthful(db', a)
  {
  }

  lemma CreateAnswered(w: World, user: string, collection: string, mid: string, key: string,
                       prepared: bool, id: string, clock: Clock)
    requires Replicable(w) && id !in w.minted
    ensures var tx := CreateTx(w.db, user, collection, mid, key, prepared, id, clock);
      var answers := MutationAnswers(tx.outcome);
      RowsAnswered(tx.db.results, w.log.answers + answers) &&
      forall a | a in answers :: a in w.log.answers || (Truthful(tx.db, a) && a.collection in w.minted)
  {
    var run := RunCreate(w.db, user, collection, key, id, clock);
    MutationAnswered(w, user, mid, CreateIntent(collection), prepared, run, clock.save);
    CreateEffect(w.db, user, collection, mid, key, prepared, id, clock);
    var tx := CreateTx(w.db, user, collection, mid, key, prepared, id, clock);
    if tx.effect.Created? {
      FreshTruth(w.db, tx.db, Create, tx.effect.row, AnswerTo(tx.outcome.response));
    }
  }

  /** A replayed answer was given before; a recorded answer is given now. */
  lemma MutationAnswered(w: World, user: string, mid: string, intent: Intent, prepared: bool, run: Tx<MutationResponse>,
                         save: Millis)
    requires AllShaped(w.db.results) && RowsAnswered(w.db.results, w.log.answers) && intent.kind != Delete
    requires run.effect.Quiet? ==> !run.outcome.OK? && run.db == w.db
    ensures var tx := GuardMutation(w.db, user, mid, intent, prepared, run, save);
      RowsAnswered(tx.db.results, w.log.answers + MutationAnswers(tx.outcome)) &&
      (tx.effect.Quiet? ==> MutationAnswers(tx.outcome) <= w.log.answers)
  {
    var tx := GuardMutation(w.db, user, mid, intent, prepared, run, save);
    match Gate(w.db.results, user, mid, intent, prepared)
    case Mismatch =>
    case Recorded(stored) => assert Shaped(w.db.results[(user, mid)]);
    case Fresh =>
  }

  lemma UpdateAnswered(w: World, user: string, collection: string, id: string, mid: string, key: string,
                       version: int, prepared: bool, clock: Clock)
    requires Replicable(w)
    ensures var tx := UpdateTx(w.db, user, collection, id, mid, key, version, prepared, clock);
      var answers := MutationAnswers(tx.outcome);
      RowsAnswered(tx.db.results, w.log.answers + answers) &&
      forall a | a in answers :: a in w.log.answers || (Truthful(tx.db, a) && a.collection in w.minted)
  {
    var run := RunUpdate(w.db, user, collection, id, key, version, clock);
    MutationAnswered(w, user, mid, UpdateIntent(collection, id, version), prepared, run, clock.save);
    UpdateEffect(w.db, user, collection, id, mid, key, version, prepared, clock);
    var tx := UpdateTx(w.db, user, collection, id, mid, key, version, prepared, clock);
    if tx.effect.Updated? {
      FreshTruth(w.db, tx.db, Update, tx.effect.row, AnswerTo(tx.outcome.response));
    }
  }

  lemma RemovalAnswered(w: World, user: string, collection: string, id: string, mid: string,
                        expected: Option<int>, prepared: bool, clock: Clock)
    requires Replicable(w)
    ensures var tx := DeleteTx(w.db, user, collection, id, mid, expected, prepared, clock);
      RowsAnswered(tx.db.results, w.log.answers + RemovalAnswers(collection, tx.outcome))
  {
    hide RunDelete, Sound, AllTruthful;
    var intent := DeleteIntent(collection, id, expected);
    match Gate(w.db.results, user, mid, intent, prepared)
    case Mismatch =>
    case Recorded(stored) => assert Shaped(w.db.results[(user, mid)]);
    case Fresh =>
  }

  lemma DeleteAnswered(w: World, user: string, collection: string, id: string, mid: string,
                       expected: Option<int>, prepared: bool, clock: Clock)
    requires Replicable(w)
    ensures var tx := DeleteTx(w.db, user, collection, id, mid, expected, prepared, clock);
      forall a | a in RemovalAnswers(collection, tx.outcome) ::
        a in w.log.answers || (Truthful(tx.db, a) && a.collection in w.minted)
  {
    DeleteEffect(w.db, user, collection, id, mid, expected, prepared, clock);
    var tx := DeleteTx(w.db, user, collection, id, mid, expected, prepared, clock);
    if tx.effect.Removed? {
      FreshTruth(w.db, tx.db, Delete, tx.effect.row, DeleteAnswer(collection, tx.outcome.response));
    } else if Gate(w.db.results, user, mid, DeleteIntent(collection, id, expected), prepared).Recorded? {
      assert Shaped(w.db.results[(user, mid)]);
    }
  }

  lemma CommitTruthful(w: World, answers: set<Answer>, w': World, change: Change)
    requires Sound(w) && AllTruthful(w) && Changes(w, w', change) && w'.log.answers == w.log.answers + answers
    requires forall a | a in answers :: a in w.log.answers || (Truthful(w'.db, a) && a.collection in w.minted)
    ensures AllTruthful(w')
  {
    forall a | a in w'.log.answers ensures Truthful(w'.db, a) && a.collection in w'.minted {
      if a in w.log.answers { TruthKept(w, w', change, a); }
    }
  }

  lemma QuietReplicable(w: World, step: Step)
    requires Replicable(w) && !step.CommitCreate? && !step.CommitUpdate? && !step.CommitDelete?
    ensures Next(w, step).log.answers == w.log.answers
    ensures AllShaped(Next(w, step).db.results) && RowsAnswered(Next(w, step).db.results, w.log.answers)
  {
    if step.Blob? { BlobChanges(w, step.step); }
  }

  /** From a step with these answers, when the rows are shaped and answered. */
  lemma StepReplicable(w: World, step: Step, answers: set<Answer>, w': World)
    requires Replicable(w) && w' == Next(w, step) && w'.log.answers == w.log.answers + answers
    requires AllShaped(w'.db.results) && RowsAnswered(w'.db.results, w.log.answers + answers)
    requires forall a | a in answers :: a in w.log.answers || (Truthful(w'.db, a) && a.collection in w.minted)
    ensures Replicable(w')
  {
    SoundStep(w, step);
    StepChanges(w, step);
    hide Next, Changes, Truthful, AllShaped, RowsAnswered, Conserved, Announced;
    CommitTruthful(w, answers, w', ChangeOf(w, step));
  }

  lemma ReplicableStep(w: World, step: Step)
    requires Replicable(w)
    ensures Replicable(Next(w, step))
  {
    hide CreateTx, UpdateTx, DeleteTx, Conserved, Announced, Truthful, RowsAnswered, AllShaped, MutationAnswers,
      RemovalAnswers;
    var w' := Next(w, step);
    match step
    case CommitCreate(user, collection, mid, key, prepared, id, clock) =>
      if user in w.db.users && ValidUuid(id) && id !in w.minted {
        CreateWrites(w.db, user, collection, mid, key, prepared, id, clock);
        CreateAnswered(w, user, collection, mid, key, prepared, id, clock);
        StepReplicable(w, step,
          MutationAnswers(CreateTx(w.db, user, collection, mid, key, prepared, id, clock).outcome), w');
      }
    case CommitUpdate(user, collection, id, mid, key, version, prepared, clock) =>
      if user in w.db.users {
        UpdateWrites(w.db, user, collection, id, mid, key, version, prepared, clock);
        UpdateAnswered(w, user, collection, id, mid, key, version, prepared, clock);
        StepReplicable(w, step,
          MutationAnswers(UpdateTx(w.db, user, collection, id, mid, key, version, prepared, clock).outcome), w');
      }
    case CommitDelete(user, collection, id, mid, expected, prepared, clock) =>
      if user in w.db.users {
        DeleteWrites(w.db, user, collection, id, mid, expected, prepared, clock);
        RemovalAnswered(w, user, collection, id, mid, expected, prepared, clock);
        DeleteAnswered(w, user, collection, id, mid, expected, prepared, clock);
        StepReplicable(w, step,
          RemovalAnswers(collection, DeleteTx(w.db, user, collection, id, mid, expected, prepared, clock).outcome), w');
      }
    case _ =>
      QuietReplicable(w, step);
      assert w.log.answers + {} == w.log.answers;
      StepReplicable(w, step, {}, w');
  }

  // ---- A client beside a running server ---------------------------------------------

  datatype Joint = Joint(w: World, client: Client)

  datatype Action =
    | Serve(step: Step)
    | Pull(limit: Option<nat>, page: seq<Object>, hasMore: bool)
    | Learn(answer: Answer)

  /** A pull the server answers with this page. */
  predicate PullPossible(j: Joint, limit: Option<nat>, page: seq<Object>, hasMore: bool) {
    CollectionFound(j.w.db, j.client.user, j.client.collection) &&
    IsPage(j.w.db.objects, j.client.user, j.client.collection, j.client.cursor, limit, page, hasMore)
  }

  /** The client's rule for advancing on a response: change_seq, collectionVersion
      and cursor + 1 are one number. */
  predicate Adjacent(client: Client, a: Answer) {
    a.collection == client.collection && a.changeSeq == a.collectionVersion == client.cursor + 1
  }

  function Act(j: Joint, action: Action): Joint {
    match action
    case Serve(step) => j.(w := Next(j.w, step))
    case Pull(limit, page, hasMore) =>
      if PullPossible(j, limit, page, hasMore) then j.(client := Pulled(j.client, page)) else j
    case Learn(a) => if a in j.w.log.answers && Adjacent(j.client, a) then j.(client := Learned(j.client, a)) else j
  }

  function Play(j: Joint, actions: seq<Action>): Joint
    decreases |actions|
  {
    if actions == [] then j else Play(Act(j, actions[0]), actions[1..])
  }

  ghost predicate Following(j: Joint) {
    Replicable(j.w) && Agrees(j.w.db, j.client) && j.client.collection in j.w.minted
  }

  lemma ServeKnows(w: World, w': World, change: Change, client: Client, id: string)
    requires Sound(w) && Changes(w, w', change) && Agrees(w.db, client) && client.collection in w.minted
    requires CollectionFound(w'.db, client.user, client.collection)
    ensures CollectionFound(w.db, client.user, client.collection)
    ensures Knows(w'.db, client, id) && Real(w'.db, client, id)
  {
    hide Announced, Attained, Summed, Notes;
    assert CollectionFound(w.db, client.user, client.collection);
    assert Knows(w.db, client, id) && Real(w.db, client, id);
  }

  lemma ServeAgrees(w: World, w': World, change: Change, client: Client)
    requires Sound(w) && Changes(w, w', change) && Agrees(w.db, client) && client.collection in w.minted
    ensures Agrees(w'.db, client)
  {
    if CollectionFound(w'.db, client.user, client.collection) {
      forall id ensures Knows(w'.db, client, id) && Real(w'.db, client, id) { ServeKnows(w, w', change, client, id); }
      ServeKnows(w, w', change, client, "");
      hide Knows, Real, Announced, Attained, Summed, Notes, ValidUuid;
    }
  }

  lemma LearnAgrees(db: Database, client: Client, a: Answer)
    requires Agrees(db, client) && Truthful(db, a) && Adjacent(client, a)
    ensures Agrees(db, Learned(client, a))
  {
    forall id ensures CollectionFound(db, client.user, client.collection) ==>
      Knows(db, Learned(client, a), id) && Real(db, Learned(client, a), id) {
      assert CollectionFound(db, client.user, client.collection) ==> Knows(db, client, id) && Real(db, client, id);
    }
  }

  lemma ActFollows(j: Joint, action: Action)
    requires Following(j)
    ensures Following(Act(j, action))
  {
    match action
    case Serve(step) =>
      StepChanges(j.w, step);
      ReplicableStep(j.w, step);
      ServeAgrees(j.w, Next(j.w, step), ChangeOf(j.w, step), j.client);
    case Pull(limit, page, hasMore) =>
      if PullPossible(j, limit, page, hasMore) { PullAgrees(j.w.db, j.client, limit, page, hasMore); }
    case Learn(a) =>
      if a in j.w.log.answers && Adjacent(j.client, a) { LearnAgrees(j.w.db, j.client, a); }
  }

  /** Through every interleaving of server steps, pulls and responses, in any
      order and however late, the client agrees with the server up to its cursor. */
  lemma {:induction false} ReplicaConverges(j: Joint, actions: seq<Action>)
    requires Following(j)
    ensures Following(Play(j, actions))
    decreases |actions|
  {
    if actions != [] {
      ActFollows(j, actions[0]);
      ReplicaConverges(Act(j, actions[0]), actions[1..]);
    }
  }

  /** Each time a pull reports no more, the replica is the collection at that
      moment, and the cursor its version. */
  lemma LastPageIsCollection(start: Joint, actions: seq<Action>, j: Joint, limit: Option<nat>, page: seq<Object>)
    requires Following(start) && j == Play(start, actions) && PullPossible(j, limit, page, false)
    ensures start.client.collection in j.w.db.collections
    ensures Act(j, Pull(limit, page, false)).client.cursor == j.w.db.collections[start.client.collection].currentVersion
    ensures Act(j, Pull(limit, page, false)).client.rows == Shown(j.w.db.objects, start.client.collection)
  {
    ReplicaConverges(start, actions);
    ClientKept(start, actions);
    PullAgrees(j.w.db, j.client, limit, page, false);
  }

  /** A client that knows nothing may start following any server that ran from empty. */
  lemma NewClientFollows(users: set<string>, steps: seq<Step>, user: string, collection: string)
    requires collection in Exec(Empty(users), steps).minted
    ensures Following(Joint(Exec(Empty(users), steps), Client(user, collection, 0, map[])))
  {
    ReplicableInEveryRun(Empty(users), steps);
    var w, client := Exec(Empty(users), steps), Client(user, collection, 0, map[]);
    forall id ensures Knows(w.db, client, id) && Real(w.db, client, id) {
    }
  }

  lemma {:induction false} ReplicableInEveryRun(w: World, steps: seq<Step>)
    requires Replicable(w)
    ensures Replicable(Exec(w, steps))
    decreases |steps|
  {
    if steps != [] {
      ReplicableStep(w, steps[0]);
      ReplicableInEveryRun(Next(w, steps[0]), steps[1..]);
    }
  }

  lemma {:induction false} ClientKept(j: Joint, actions: seq<Action>)
    ensures Play(j, actions).client.user == j.client.user && Play(j, actions).client.collection == j.client.collection
    decreases |actions|
  {
    if actions != [] { ClientKept(Act(j, actions[0]), actions[1..]); }
  }

  // ---- The documented rule -----------------------------------------------------------

  /** docs/API.md and docs/openapi.yaml let a client advance whenever
      collectionVersion is cursor + 1. For a delete answered at this moment that is
      sound exactly when change_seq is collectionVersion too: a re-delete answers
      with the tombstone's old change_seq and skips the change that moved the
      cursor. advance.dfy has the rule for every other answer. */
  lemma DocumentedRule(db: Database, client: Client, collection: string, id: string, expected: Option<int>,
                       clock: Clock)
    requires Rooted(db) && Conserved(db) && Agrees(db, client) && CollectionFound(db, client.user, client.collection)
    requires collection == client.collection
    requires RunDelete(db, client.user, collection, id, expected, clock).outcome.OK?
    requires RunDelete(db, client.user, collection, id, expected,
             clock).outcome.response.collectionVersion == client.cursor + 1
    ensures var tx := RunDelete(db, client.user, collection, id, expected, clock);
      var a := DeleteAnswer(collection, tx.outcome.response);
      Agrees(tx.db, Learned(client, a)) <==> a.changeSeq == a.collectionVersion
  {
    var tx := RunDelete(db, client.user, collection, id, expected, clock);
    var a := DeleteAnswer(collection, tx.outcome.response);
    if tx.effect.Removed? {
      assert Advances(db, tx.db, Delete, tx.effect.row);
      RemovedAgrees(db, tx.db, client, tx.effect.row, a);
    } else if a.changeSeq == a.collectionVersion {
      RedeleteAgrees(db, client, a);
    } else {
      RedeleteSkips(db, client, a);
    }
  }

  lemma RemovedAgrees(db: Database, db': Database, client: Client, row: Object, a: Answer)
    requires Rooted(db) && Conserved(db) && Agrees(db, client) && Advances(db, db', Delete, row) &&
             row.collection == client.collection
    requires CollectionFound(db, client.user, client.collection) && row.changeSeq == client.cursor + 1
    requires a == Answer(row.collection, row.id, View(row), row.changeSeq, row.changeSeq)
    ensures Agrees(db', Learned(client, a))
  {
    forall id ensures Knows(db', Learned(client, a), id) && Real(db', Learned(client, a), id) {
      assert Knows(db, client, id) && Real(db, client, id);
    }
  }

  lemma RedeleteAgrees(db: Database, client: Client, a: Answer)
    requires Rooted(db) && Conserved(db) && Agrees(db, client) && CollectionFound(db, client.user, client.collection)
    requires InCollection(db, client, a.id) && a.seen == View(db.objects[a.id]) &&
             a.changeSeq == db.objects[a.id].changeSeq
    requires Adjacent(client, a) && SeqOf(a.seen) == a.changeSeq &&
             a.collectionVersion == db.collections[a.collection].currentVersion
    ensures Agrees(db, Learned(client, a))
  {
    forall id ensures Knows(db, Learned(client, a), id) && Real(db, Learned(client, a), id) {
      assert Knows(db, client, id) && Real(db, client, id);
    }
  }

  /** Some object holds the change the client would skip. */
  lemma RedeleteSkips(db: Database, client: Client, a: Answer)
    requires Rooted(db) && Conserved(db) && Agrees(db, client) && CollectionFound(db, client.user, client.collection)
    requires a.collection == client.collection &&
             a.collectionVersion == client.cursor + 1 == db.collections[client.collection].currentVersion
    requires InCollection(db, client, a.id) && a.changeSeq == db.objects[a.id].changeSeq != a.collectionVersion
    ensures !Agrees(db, Learned(client, a))
  {
    assert HasSeq(db.objects, client.collection, client.cursor + 1);
    var missed :| missed in db.objects && db.objects[missed].collection == client.collection &&
      db.objects[missed].changeSeq == client.cursor + 1;
    assert Real(db, client, missed);
    assert !Knows(db, Learned(client, a), missed);
  }
}
