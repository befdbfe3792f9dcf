/** The documented rule for advancing a cursor on a response: only if
    collectionVersion is cursor + 1. It is sound on creates and updates; on
    deletes, also late and replayed ones, it is not, and this module says when. */
module AdvanceRule {
  import opened Tables
  import opened Mutations
  import opened Pages
  import opened Worlds
  import opened Conservation
  import opened CreateOnce
  import opened Replica
  import opened Scripts
  import Live = LiveData
  import Histories

  // ---- Any answer, however late -------------------------------------------------

  /** For every answer the server gave at any time, fresh or replayed, whose
      collectionVersion is the client's cursor + 1: advancing keeps agreement exactly
      if change_seq is collectionVersion, or the change the client skips has since
      been overtaken by a later one of the same object. */
  lemma AdvancesExactly(j: Joint, a: Answer)
    requires Following(j) && a in j.w.log.answers && a.collection == j.client.collection
    requires CollectionFound(j.w.db, j.client.user, j.client.collection) && a.collectionVersion == j.client.cursor + 1
    ensures Agrees(j.w.db, Learned(j.client, a)) <==>
            a.changeSeq == a.collectionVersion || !HasSeq(j.w.db.objects, a.collection, a.collectionVersion)
  {
    var db := j.w.db;
    assert Truthful(db, a);
    if a.changeSeq == a.collectionVersion {
      LearnAgrees(db, j.client, a);
    } else if HasSeq(db.objects, a.collection, a.collectionVersion) {
      SkipsChange(db, j.client, a);
    } else {
      SkipsNothing(db, j.client, a);
    }
  }

  lemma SkipsChange(db: Database, client: Client, a: Answer)
    requires Agrees(db, client) && Truthful(db, a) && CollectionFound(db, client.user, client.collection)
    requires a.collection == client.collection && a.collectionVersion == client.cursor + 1 &&
             a.changeSeq != a.collectionVersion
    requires HasSeq(db.objects, a.collection, a.collectionVersion)
    ensures !Agrees(db, Learned(client, a))
  {
    var missed :| missed in db.objects && db.objects[missed].collection == a.collection &&
                  db.objects[missed].changeSeq == a.collectionVersion;
    assert Real(db, client, missed);
    assert !Knows(db, Learned(client, a), missed);
  }

  lemma SkipsNothing(db: Database, client: Client, a: Answer)
    requires Agrees(db, client) && Truthful(db, a) && CollectionFound(db, client.user, client.collection)
    requires a.collection == client.collection && a.collectionVersion == client.cursor + 1
    requires !HasSeq(db.objects, a.collection, a.collectionVersion)
    ensures Agrees(db, Learned(client, a))
  {
    forall id ensures Knows(db, Learned(client, a), id) && Real(db, Learned(client, a), id) {
      assert Knows(db, client, id) && Real(db, client, id);
    }
  }

  // ---- Creates and updates ---------------------------------------------------------

  /** Recorded creates and updates answer with the version of their own change. */
  predicate Own(row: ResultRow) {
    row.result.body.MutationBody? ==>
      row.result.body.response.row.changeSeq == row.result.body.response.collectionVersion
  }

  predicate AllOwn(results: Results) { forall k | k in results :: Own(results[k]) }

  predicate OwnAnswer(outcome: Outcome<MutationResponse>) {
    outcome.OK? ==> outcome.response.row.changeSeq == outcome.response.collectionVersion
  }

  lemma GuardedOwn(db: Database, user: string, mid: string, intent: Intent, prepared: bool,
                   run: Tx<MutationResponse>, save: Millis)
    requires AllShaped(db.results) && AllOwn(db.results) && intent.kind != Delete
    requires OwnAnswer(run.outcome) && run.db.results == db.results
    ensures var tx := GuardMutation(db, user, mid, intent, prepared, run, save);
            AllOwn(tx.db.results) && OwnAnswer(tx.outcome)
  {
    if Gate(db.results, user, mid, intent, prepared).Recorded? {
      assert Shaped(db.results[(user, mid)]) && Own(db.results[(user, mid)]);
    }
  }

  lemma CreateOwn(db: Database, user: string, collection: string, mid: string, key: string, prepared: bool, id: string,
                  clock: Clock)
    requires AllShaped(db.results) && AllOwn(db.results)
    ensures var tx := CreateTx(db, user, collection, mid, key, prepared, id, clock);
            AllOwn(tx.db.results) && OwnAnswer(tx.outcome)
  {
    hide GuardMutation, ValidUuid;
    GuardedOwn(db, user, mid, CreateIntent(collection), prepared, RunCreate(db, user, collection, key, id, clock),
      clock.save);
  }

  lemma UpdateOwn(db: Database, user: string, collection: string, id: string, mid: string, key: string,
                  version: int, prepared: bool, clock: Clock)
    requires AllShaped(db.results) && AllOwn(db.results)
    ensures var tx := UpdateTx(db, user, collection, id, mid, key, version, prepared, clock);
            AllOwn(tx.db.results) && OwnAnswer(tx.outcome)
  {
    hide GuardMutation, ValidUuid;
    var run := RunUpdate(db, user, collection, id, key, version, clock);
    GuardedOwn(db, user, mid, UpdateIntent(collection, id, version), prepared, run, clock.save);
  }

  lemma DeleteOwn(db: Database, user: string, collection: string, id: string, mid: string,
                  expected: Option<int>, prepared: bool, clock: Clock)
    requires AllOwn(db.results)
    ensures AllOwn(DeleteTx(db, user, collection, id, mid, expected, prepared, clock).db.results)
  {
    hide ValidUuid;
  }

  lemma OwnStep(w: World, step: Step)
    requires OnceOnly(w) && AllOwn(w.db.results)
    ensures AllOwn(Next(w, step).db.results)
  {
    hide CreateTx, UpdateTx, DeleteTx, ValidUuid, Shaped;
    match step
    case CommitCreate(user, collection, mid, key, prepared, id, clock) =>
      CreateOwn(w.db, user, collection, mid, key, prepared, id, clock);
    case CommitUpdate(user, collection, id, mid, key, version, prepared, clock) =>
      UpdateOwn(w.db, user, collection, id, mid, key, version, prepared, clock);
    case CommitDelete(user, collection, id, mid, expected, prepared, clock) =>
      DeleteOwn(w.db, user, collection, id, mid, expected, prepared, clock);
    case Blob(blob) => BlobChanges(w, blob);
    case _ =>
  }

  lemma {:induction false} OwnInEveryRun(w: World, steps: seq<Step>)
    requires OnceOnly(w) && AllOwn(w.db.results)
    ensures OnceOnly(Exec(w, steps)) && AllOwn(Exec(w, steps).db.results)
    decreases |steps|
  {
    hide Next, OnceOnly, AllOwn;
    if steps != [] {
      OnceStep(w, steps[0]);
      OwnStep(w, steps[0]);
      OwnInEveryRun(Next(w, steps[0]), steps[1..]);
    }
  }

  /** In every run, a successful create or update, fresh or replayed, answers with
      change_seq equal to collectionVersion. So on these the documented rule is the
      rule of Replica.Adjacent, under which the client stays in agreement. */
  lemma MutationsAnswerOwnChange(users: set<string>, steps: seq<Step>, user: string, collection: string, id: string,
                                 mid: string,
                                 key: string, version: int, prepared: bool, newId: string, clock: Clock)
    ensures var db := Exec(Empty(users), steps).db;
            OwnAnswer(CreateTx(db, user, collection, mid, key, prepared, newId, clock).outcome) &&
            OwnAnswer(UpdateTx(db, user, collection, id, mid, key, version, prepared, clock).outcome)
  {
    OwnInEveryRun(Empty(users), steps);
    hide Exec, CreateTx, UpdateTx;
    var db := Exec(Empty(users), steps).db;
    CreateOwn(db, user, collection, mid, key, prepared, newId, clock);
    UpdateOwn(db, user, collection, id, mid, key, version, prepared, clock);
  }

  // ---- Deletes ------------------------------------------------------------------

  /** The tombstone of the first object, as the client pulls it. */
  function Tomb(d: Ids): Object { DeadState(d).objects[d.first] }

  function Blank(d: Ids): Client { Client(d.user, d.collection, 0, map[]) }

  /** The client of this user, having pulled everything at cursor 2. */
  function Informed(d: Ids): Client { Pulled(Blank(d), [Tomb(d)]) }

  lemma TombstonePage(d: Ids, w: World)
    requires Usable(d) && At(w, d, DeadState(d))
    ensures PullPossible(Joint(w, Blank(d)), None, [Tomb(d)], false) && Informed(d).cursor == 2
  {
    hide ValidUuid, KeyOf;
    assert Selected(w.db.objects, d.user, d.collection, 0) == {d.first};
  }

  predicate SecondThere(d: Ids, s: Small) {
    s.cursor == 3 && s.objects.Keys == {d.first, d.second} && s.objects[d.first] == Tomb(d) &&
    s.objects[d.second].changeSeq == 3 && s.objects[d.second].collection == d.collection
  }

  /** The second blob is staged beside the tombstone, */
  function BothStaged(d: Ids): Small {
    var s, key := DeadState(d), KeyOf(d, d.blobB);
    s.(ledger := s.ledger[key := StagedRow(d.user, |d.content|, 0)], files := s.files[key := d.content],
      returned := s.returned + {key},
       minted := s.minted + {key})
  }

  lemma StagesSecond(d: Ids, before: seq<Step>) returns (all: seq<Step>, s: Small)
    requires Usable(d) && Leads(d, before, DeadState(d), Live.RemovalsSucceed)
    ensures Leads(d, all, s, Live.RemovalsSucceed) && s == BothStaged(d)
    ensures all == before + [StepOf(d, Stage(d.blobB, 0)), StepOf(d, Write(d.blobB))]
  {
    KeysDiffer(d);
    hide KeyOf, ValidUuid, Leads, StepOf;
    all, s := Extend(d, before, DeadState(d), Live.RemovalsSucceed, Stage(d.blobB, 0));
    all, s := Extend(d, all, s, Live.RemovalsSucceed, Write(d.blobB));
  }

  /** and claimed. */
  lemma MakesSecond(d: Ids, before: seq<Step>) returns (all: seq<Step>, s: Small)
    requires Usable(d) && Leads(d, before, DeadState(d), Live.RemovalsSucceed)
    ensures Leads(d, all, s, Live.RemovalsSucceed) && SecondThere(d, s)
    ensures all == before + [StepOf(d, Stage(d.blobB, 0)), StepOf(d, Write(d.blobB)),
            StepOf(d, Make(d.second, d.blobB, 0))]
  {
    KeysDiffer(d);
    hide KeyOf, ValidUuid, Leads, StepOf;
    all, s := StagesSecond(d, before);
    all, s := Extend(d, all, s, Live.RemovalsSucceed, Make(d.second, d.blobB, 0));
  }

  /** And then a second object is created. */
  lemma SecondMade(d: Ids) returns (before: seq<Step>, after: seq<Step>, s: Small)
    requires Usable(d)
    ensures At(Exec(Empty({d.user}), before), d, DeadState(d))
    ensures At(Exec(Exec(Empty({d.user}), before), after), d, s) && SecondThere(d, s)
  {
    var s0, all;
    before, s0 := Died(d, Live.RemovalsSucceed);
    LeadsAt(d, before, s0, Live.RemovalsSucceed);
    hide Leads, At, Exec, StepOf;
    all, s := MakesSecond(d, before);
    after := [StepOf(d, Stage(d.blobB, 0)), StepOf(d, Write(d.blobB)), StepOf(d, Make(d.second, d.blobB, 0))];
    Histories.ExecSplits(Empty({d.user}), before, after);
    LeadsAt(d, all, s, Live.RemovalsSucceed);
  }

  lemma LeadsAt(d: Ids, steps: seq<Step>, s: Small, broken: Live.Rule)
    requires Leads(d, steps, s, broken)
    ensures At(Exec(Empty({d.user}), steps), d, s)
  {
  }

  /** The client deletes the first object again. */
  function Redelete(d: Ids): Step { CommitDelete(d.user, d.collection, d.first, "", None, false, At3(0)) }

  function Told(d: Ids): Answer { Answer(d.collection, d.first, Gone(2, 2), 2, 3) }

  lemma RedeleteAnswered(d: Ids, w: World, s: Small)
    requires Usable(d) && At(w, d, s) && SecondThere(d, s)
    ensures var w' := Next(w, Redelete(d)); w'.db == w.db && w'.log.answers == w.log.answers + {Told(d)}
  {
    hide ValidUuid, KeyOf, GuardDelete;
    var run := RunDelete(w.db, d.user, d.collection, d.first, None, At3(0));
    assert run == Tx(w.db, OK(DeleteResponse(DeletedObject(d.first, 2, 2, true), 3)), Quiet);
    UnguardedDelete(w.db, d.user, DeleteIntent(d.collection, d.first, None), run, 0);
  }

  /** A client goes on following while the server takes any steps. */
  lemma {:induction false} ServedFollows(j: Joint, steps: seq<Step>)
    requires Following(j)
    ensures Following(Joint(Exec(j.w, steps), j.client))
    decreases |steps|
  {
    hide Following, Next;
    if steps != [] {
      ActFollows(j, Serve(steps[0]));
      ServedFollows(Joint(Next(j.w, steps[0]), j.client), steps[1..]);
    }
  }

  lemma InformedFollows(d: Ids, before: seq<Step>)
    requires Usable(d) && At(Exec(Empty({d.user}), before), d, DeadState(d))
    ensures PullPossible(Joint(Exec(Empty({d.user}), before), Blank(d)), None, [Tomb(d)], false)
    ensures Following(Joint(Exec(Empty({d.user}), before), Informed(d))) && Informed(d).cursor == 2
    ensures Informed(d).user == d.user && Informed(d).collection == d.collection
  {
    var w := Exec(Empty({d.user}), before);
    TombstonePage(d, w);
    NewClientFollows({d.user}, before, d.user, d.collection);
    hide Exec, KeyOf, Following, PullPossible, Pulled;
    ActFollows(Joint(w, Blank(d)), Pull(None, [Tomb(d)], false));
    PulledKeeps(Blank(d), [Tomb(d)]);
  }

  lemma PulledKeeps(client: Client, page: seq<Object>)
    ensures Pulled(client, page).user == client.user && Pulled(client, page).collection == client.collection
  {
  }

  /** The answer skips the creation of the second object. */
  lemma SkipsSecond(d: Ids, w: World, s: Small)
    requires Usable(d) && At(w, d, s) && SecondThere(d, s) && Told(d) in w.log.answers
    requires var client := Informed(d); client.cursor == 2 && client.user == d.user && client.collection == d.collection
    requires Following(Joint(w, Informed(d)))
    ensures !Agrees(w.db, Learned(Informed(d), Told(d)))
  {
    assert w.db.objects[d.second].changeSeq == 3;
    assert HasSeq(w.db.objects, d.collection, 3) && CollectionFound(w.db, d.user, d.collection);
    hide ValidUuid, KeyOf, Following, Agrees, HasSeq, Informed;
    AdvancesExactly(Joint(w, Informed(d)), Told(d));
  }

  /** A run the server can make on which the documented rule fails: one object is
      created and deleted, the client pulls, another object is created, and the
      first is deleted again. The answer to that last step carries collectionVersion
      3 and change_seq 2, the client's cursor is 2, and on advancing it would never
      hear of the second object. */
  lemma DocumentedRuleFails(d: Ids) returns (before: seq<Step>, after: seq<Step>)
    requires Usable(d)
    ensures PullPossible(Joint(Exec(Empty({d.user}), before), Blank(d)), None, [Tomb(d)], false)
    ensures var w := Exec(Exec(Empty({d.user}), before), after);
            var w', a := Next(w, Redelete(d)), Told(d);
            w'.log.answers == w.log.answers + {a} && Following(Joint(w', Informed(d))) &&
            a.collectionVersion == Informed(d).cursor + 1 && a.changeSeq < a.collectionVersion &&
            !Agrees(w'.db, Learned(Informed(d), a))
  {
    var s;
    before, after, s := SecondMade(d);
    var w1 := Exec(Empty({d.user}), before);
    var w := Exec(w1, after);
    var w' := Next(w, Redelete(d));
    InformedFollows(d, before);
    hide Exec, Next, Following, Agrees, PullPossible, Informed;
    ServedFollows(Joint(w1, Informed(d)), after);
    FollowsOn(Joint(w, Informed(d)), Redelete(d));
    RedeleteAnswered(d, w, s);
    RedeleteKeeps(d, w, s);
    SkipsSecond(d, w', s);
  }

  lemma FollowsOn(j: Joint, step: Step)
    requires Following(j)
    ensures Following(Joint(Next(j.w, step), j.client))
  {
    ActFollows(j, Serve(step));
  }

  lemma RedeleteKeeps(d: Ids, w: World, s: Small)
    requires Usable(d) && At(w, d, s) && SecondThere(d, s)
    ensures At(Next(w, Redelete(d)), d, s)
  {
    RedeleteAnswered(d, w, s);
    hide DeleteTx;
  }
}
