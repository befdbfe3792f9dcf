/** Replay stability: a settled result row outlives every step but its own expiry
    and its collection's deletion, and until then a retry gets the recorded
    outcome and changes nothing. */
module Replays {
  import opened Tables
  import opened Mutations
  import opened Worlds
  import opened CreateOnce
  import Histories

  /** The outcome a retry sees: only a create's replayed flag differs. */
  function Again(kind: Kind, outcome: Outcome<MutationResponse>): Outcome<MutationResponse> {
    if kind == Create && outcome.OK? then OK(outcome.response.(replayed := Some(true))) else outcome
  }

  predicate Answered<R>(outcome: Outcome<R>) {
    !outcome.MutationMismatch? && !outcome.MutationPending?
  }

  /** The two steps that remove a settled row. */
  predicate Removes(step: Step, k: ResultKey, row: ResultRow) {
    match step
    case ExpireOther(engine, now) => OtherExpired(engine, row, now)
    case DeleteCollection(user, id, _) => user == k.0 && id == row.collection
    case _ => false
  }

  lemma SettledStep(w: World, step: Step, k: ResultKey)
    requires AllShaped(w.db.results) && Settled(w.db.results, k) && !Removes(step, k, w.db.results[k])
    ensures Settled(Next(w, step).db.results, k) && Next(w, step).db.results[k] == w.db.results[k]
  {
    hide ValidUuid, CreateTx, UpdateTx, DeleteTx, Shaped;
    match step
    case CommitCreate(user, collection, mid, key, prepared, id, clock) =>
      CreateWrites(w.db, user, collection, mid, key, prepared, id, clock);
    case CommitUpdate(user, collection, id, mid, key, version, prepared, clock) =>
      UpdateWrites(w.db, user, collection, id, mid, key, version, prepared, clock);
    case CommitDelete(user, collection, id, mid, expected, prepared, clock) =>
      DeleteWrites(w.db, user, collection, id, mid, expected, prepared, clock);
    case Blob(blob) => BlobChanges(w, blob);
    case _ =>
  }

  /** In every run that neither expires the row nor deletes its collection, a
      settled row stays as it is. */
  lemma {:induction false} SettledInEveryRun(w: World, steps: seq<Step>, k: ResultKey)
    requires OnceOnly(w) && Settled(w.db.results, k) && Spares(steps, w.db.results, k)
    ensures var w' := Exec(w, steps);
      OnceOnly(w') && Settled(w'.db.results, k) && w'.db.results[k] == w.db.results[k]
    decreases |steps|
  {
    if steps != [] {
      OnceStep(w, steps[0]);
      SettledStep(w, steps[0], k);
      SettledInEveryRun(Next(w, steps[0]), steps[1..], k);
    }
  }

  /** None of these steps removes the row at k. */
  predicate Spares(steps: seq<Step>, results: Results, k: ResultKey)
    requires k in results
  {
    forall i | 0 <= i < |steps| :: !Removes(steps[i], k, results[k])
  }

  // ---- A retry against a settled row -----------------------------------------

  lemma CreateFromRow(db: Database, user: string, collection: string, mid: string, key: string,
                      prepared: bool, id: string, clock: Clock)
    requires mid != "" && Settled(db.results, (user, mid)) && Matches(db.results[(user, mid)], CreateIntent(collection))
    ensures CreateTx(db, user, collection, mid, key, prepared, id, clock) ==
            Tx(db, MutationOutcomeFromStored(db.results[(user, mid)].result, true), Quiet)
  {
  }

  lemma UpdateFromRow(db: Database, user: string, collection: string, id: string, mid: string, key: string,
                      version: int, prepared: bool, clock: Clock)
    requires mid != "" && Settled(db.results, (user, mid)) &&
             Matches(db.results[(user, mid)], UpdateIntent(collection, id, version))
    ensures UpdateTx(db, user, collection, id, mid, key, version, prepared, clock) ==
            Tx(db, MutationOutcomeFromStored(db.results[(user, mid)].result, false), Quiet)
  {
  }

  lemma DeleteFromRow(db: Database, user: string, collection: string, id: string, mid: string,
                      expected: Option<int>, prepared: bool, clock: Clock)
    requires mid != "" && Settled(db.results, (user, mid)) &&
             Matches(db.results[(user, mid)], DeleteIntent(collection, id, expected))
    ensures DeleteTx(db, user, collection, id, mid, expected, prepared, clock) ==
            Tx(db, DeleteOutcomeFromStored(db.results[(user, mid)].result), Quiet)
  {
  }

  lemma RecordedMutation(db: Database, user: string, mid: string, intent: Intent, prepared: bool,
                         run: Tx<MutationResponse>, save: Millis)
    requires AllShaped(db.results) && Recordable(mid, intent) && intent.kind != Delete &&
             Proper(intent.kind, run.outcome)
    requires run.outcome.OK? && intent.kind == Update ==> run.outcome.response.replayed == None
    ensures var tx := GuardMutation(db, user, mid, intent, prepared, run, save);
      Answered(tx.outcome) ==>
        Settled(tx.db.results, (user, mid)) && Matches(tx.db.results[(user, mid)], intent) &&
        MutationOutcomeFromStored(tx.db.results[(user, mid)].result, intent.kind == Create) == Again(intent.kind,
          tx.outcome)
  {
    if Gate(db.results, user, mid, intent, prepared) == Fresh {
      var resulting := if intent.kind == Create && run.outcome.OK? then Some(run.outcome.response.row.id) else None;
      SaveWrites(db.results, user, mid, intent, prepared, RecordMutation(intent.kind, run.outcome), resulting, save);
    }
  }

  lemma RecordedDelete(db: Database, user: string, mid: string, intent: Intent, prepared: bool,
                       run: Tx<DeleteResponse>, save: Millis)
    requires AllShaped(db.results) && Recordable(mid, intent) && intent.kind == Delete && Proper(Delete, run.outcome)
    ensures var tx := GuardDelete(db, user, mid, intent, prepared, run, save);
      Answered(tx.outcome) ==>
        Settled(tx.db.results, (user, mid)) && Matches(tx.db.results[(user, mid)], intent) &&
        DeleteOutcomeFromStored(tx.db.results[(user, mid)].result) == tx.outcome
  {
    if Gate(db.results, user, mid, intent, prepared) == Fresh {
      SaveWrites(db.results, user, mid, intent, prepared, RecordDelete(run.outcome), None, save);
    }
  }

  lemma OnceAfter(w: World, step: Step, w1: World)
    requires OnceOnly(w) && w1 == Next(w, step)
    ensures OnceOnly(w1)
  {
    OnceStep(w, step);
  }

  /** A create answered now (w1 is the world after it) is answered alike after
      every run that spares its row, whatever blob the retry names, and the retry
      changes nothing. The reservation already knows the answer, so an inline
      create stages no blob for it. */
  lemma CreateRetried(w: World, user: string, collection: string, mid: string, key: string, prepared: bool, id: string,
                      clock: Clock,
                      w1: World, between: seq<Step>, key': string, prepared': bool, id': string, clock': Clock)
    requires OnceOnly(w) && mid != "" && ValidUuid(collection) && user in w.db.users && ValidUuid(id) && id !in w.minted
    requires w1 == CreateStep(w, user, collection, mid, key, prepared, id, clock)
    requires (user, mid) in w1.db.results && Spares(between, w1.db.results, (user, mid))
    requires Answered(CreateTx(w.db, user, collection, mid, key, prepared, id, clock).outcome)
    ensures var first, db :=
            CreateTx(w.db, user, collection, mid, key, prepared, id, clock).outcome, Exec(w1, between).db;
      CreateTx(db, user, collection, mid, key', prepared', id', clock') == Tx(db, Again(Create, first), Quiet) &&
      ReservedAnswer(db.results, user, collection, mid) == Some(Again(Create, first))
  {
    CreateRecorded(w, user, collection, mid, key, prepared, id, clock, w1);
    SettledInEveryRun(w1, between, (user, mid));
    CreateFromRow(Exec(w1, between).db, user, collection, mid, key', prepared', id', clock');
  }

  lemma CreateRecorded(w: World, user: string, collection: string, mid: string, key: string, prepared: bool, id: string,
                       clock: Clock, w1: World)
    requires OnceOnly(w) && mid != "" && ValidUuid(collection) && user in w.db.users && ValidUuid(id) && id !in w.minted
    requires w1 == CreateStep(w, user, collection, mid, key, prepared, id, clock)
    requires Answered(CreateTx(w.db, user, collection, mid, key, prepared, id, clock).outcome)
    ensures OnceOnly(w1) && Settled(w1.db.results, (user, mid)) &&
            Matches(w1.db.results[(user, mid)], CreateIntent(collection))
    ensures MutationOutcomeFromStored(w1.db.results[(user, mid)].result, true) ==
            Again(Create, CreateTx(w.db, user, collection, mid, key, prepared, id, clock).outcome)
  {
    var tx := CreateTx(w.db, user, collection, mid, key, prepared, id, clock);
    CreateRecords(w.db, user, collection, mid, key, prepared, id, clock, tx);
    OnceAfter(w, CommitCreate(user, collection, mid, key, prepared, id, clock), w1);
  }

  lemma CreateRecords(db: Database, user: string, collection: string, mid: string, key: string, prepared: bool,
                      id: string,
                      clock: Clock, tx: Tx<MutationResponse>)
    requires AllShaped(db.results) && mid != "" && ValidUuid(collection)
    requires tx == CreateTx(db, user, collection, mid, key, prepared, id, clock) && Answered(tx.outcome)
    ensures Settled(tx.db.results, (user, mid)) && Matches(tx.db.results[(user, mid)], CreateIntent(collection))
    ensures MutationOutcomeFromStored(tx.db.results[(user, mid)].result, true) == Again(Create, tx.outcome)
  {
    RecordedMutation(db, user, mid, CreateIntent(collection), prepared, RunCreate(db, user, collection, key, id, clock),
      clock.save);
  }

  lemma UpdateRetried(w: World, user: string, collection: string, id: string, mid: string, key: string, version: int,
                      prepared: bool,
                      clock: Clock, w1: World, between: seq<Step>, key': string, prepared': bool, clock': Clock)
    requires OnceOnly(w) && Recordable(mid, UpdateIntent(collection, id, version)) && user in w.db.users
    requires w1 == UpdateStep(w, user, collection, id, mid, key, version, prepared, clock)
    requires (user, mid) in w1.db.results && Spares(between, w1.db.results, (user, mid))
    requires Answered(UpdateTx(w.db, user, collection, id, mid, key, version, prepared, clock).outcome)
    ensures UpdateTx(Exec(w1, between).db, user, collection, id, mid, key', version, prepared', clock') ==
            Tx(Exec(w1, between).db, UpdateTx(w.db, user, collection, id, mid, key, version, prepared, clock).outcome,
              Quiet)
  {
    var tx := UpdateTx(w.db, user, collection, id, mid, key, version, prepared, clock);
    UpdateRecords(w.db, user, collection, id, mid, key, version, prepared, clock, tx);
    OnceAfter(w, CommitUpdate(user, collection, id, mid, key, version, prepared, clock), w1);
    SettledInEveryRun(w1, between, (user, mid));
    UpdateFromRow(Exec(w1, between).db, user, collection, id, mid, key', version, prepared', clock');
  }

  lemma UpdateRecords(db: Database, user: string, collection: string, id: string, mid: string, key: string,
                      version: int,
                      prepared: bool, clock: Clock, tx: Tx<MutationResponse>)
    requires AllShaped(db.results) && Recordable(mid, UpdateIntent(collection, id, version))
    requires tx == UpdateTx(db, user, collection, id, mid, key, version, prepared, clock) && Answered(tx.outcome)
    ensures Settled(tx.db.results, (user, mid)) &&
            Matches(tx.db.results[(user, mid)], UpdateIntent(collection, id, version))
    ensures MutationOutcomeFromStored(tx.db.results[(user, mid)].result, false) == tx.outcome
  {
    var run := RunUpdate(db, user, collection, id, key, version, clock);
    RecordedMutation(db, user, mid, UpdateIntent(collection, id, version), prepared, run, clock.save);
  }

  lemma DeleteRetried(w: World, user: string, collection: string, id: string, mid: string, expected: Option<int>,
                      prepared: bool,
                      clock: Clock, w1: World, between: seq<Step>, prepared': bool, clock': Clock)
    requires OnceOnly(w) && Recordable(mid, DeleteIntent(collection, id, expected)) && user in w.db.users
    requires w1 == DeleteStep(w, user, collection, id, mid, expected, prepared, clock)
    requires (user, mid) in w1.db.results && Spares(between, w1.db.results, (user, mid))
    requires Answered(DeleteTx(w.db, user, collection, id, mid, expected, prepared, clock).outcome)
    ensures DeleteTx(Exec(w1, between).db, user, collection, id, mid, expected, prepared', clock') ==
            Tx(Exec(w1, between).db, DeleteTx(w.db, user, collection, id, mid, expected, prepared, clock).outcome,
              Quiet)
  {
    var tx := DeleteTx(w.db, user, collection, id, mid, expected, prepared, clock);
    DeleteRecords(w.db, user, collection, id, mid, expected, prepared, clock, tx);
    OnceAfter(w, CommitDelete(user, collection, id, mid, expected, prepared, clock), w1);
    SettledInEveryRun(w1, between, (user, mid));
    DeleteFromRow(Exec(w1, between).db, user, collection, id, mid, expected, prepared', clock');
  }

  lemma DeleteRecords(db: Database, user: string, collection: string, id: string, mid: string, expected: Option<int>,
                      prepared: bool, clock: Clock, tx: Tx<DeleteResponse>)
    requires AllShaped(db.results) && Recordable(mid, DeleteIntent(collection, id, expected))
    requires tx == DeleteTx(db, user, collection, id, mid, expected, prepared, clock) && Answered(tx.outcome)
    ensures Settled(tx.db.results, (user, mid)) &&
            Matches(tx.db.results[(user, mid)], DeleteIntent(collection, id, expected))
    ensures DeleteOutcomeFromStored(tx.db.results[(user, mid)].result) == tx.outcome
  {
    var run := RunDelete(db, user, collection, id, expected, clock);
    RecordedDelete(db, user, mid, DeleteIntent(collection, id, expected), prepared, run, clock.save);
  }

  /** In every run that spares a settled row, a different intent under its
      Mutation-Id is a mismatch and changes nothing. */
  lemma {:induction false} OtherIntentsMismatch(w: World, steps: seq<Step>, user: string, mid: string,
                                                collection: string, id: string, key: string,
                             version: int, expected: Option<int>, prepared: bool, newId: string, clock: Clock)
    requires OnceOnly(w) && mid != "" && Settled(w.db.results, (user, mid)) && Spares(steps, w.db.results, (user, mid))
    ensures var row, db := w.db.results[(user, mid)], Exec(w, steps).db;
      (!Matches(row, CreateIntent(collection)) ==>
        CreateTx(db, user, collection, mid, key, prepared, newId, clock) == Tx(db, MutationMismatch, Quiet) &&
        ReservedAnswer(db.results, user, collection, mid) == Some(MutationMismatch)) &&
      (!Matches(row, UpdateIntent(collection, id, version)) ==>
        UpdateTx(db, user, collection, id, mid, key, version, prepared, clock) == Tx(db, MutationMismatch, Quiet)) &&
      (!Matches(row, DeleteIntent(collection, id, expected)) ==>
        DeleteTx(db, user, collection, id, mid, expected, prepared, clock) == Tx(db, MutationMismatch, Quiet))
  {
    hide RunCreate, RunUpdate, RunDelete, OnceOnly, SaveResult, Exec;
    SettledInEveryRun(w, steps, (user, mid));
  }

  // ---- Recovery -----------------------------------------------------------------

  /** The result row of a successful create lasts as long as its collection. */
  lemma {:induction false} CreateRowLasts(w: World, steps: seq<Step>, k: ResultKey)
    requires OnceOnly(w) && k in w.db.results && SuccessfulCreate(w.db.results[k])
    requires var c := w.db.results[k].collection; CollectionFound(w.db, k.0, c) && c in Exec(w, steps).db.collections
    ensures k in Exec(w, steps).db.results && Exec(w, steps).db.results[k] == w.db.results[k]
    decreases |steps|
  {
    if steps != [] {
      var c, next := w.db.results[k].collection, Next(w, steps[0]);
      OnceStep(w, steps[0]);
      CollectionLasts(w, steps[0], k.0, c);
      if c !in next.db.collections {
        Histories.CollectionsNeverReturn(next, steps[1..], c);
        assert false;
      } else {
        SettledStep(w, steps[0], k);
        CreateRowLasts(next, steps[1..], k);
      }
    }
  }

  /** A step leaves a collection to its user or removes it, and removes it when it is its deletion. */
  lemma CollectionLasts(w: World, step: Step, user: string, c: string)
    requires Rooted(w.db) && AllMinted(w) && CollectionFound(w.db, user, c)
    ensures c in Next(w, step).db.collections ==> CollectionFound(Next(w, step).db, user, c)
    ensures step.DeleteCollection? && step.user == user && step.id == c ==> c !in Next(w, step).db.collections
    ensures c in w.minted && w.minted <= Next(w, step).minted
  {
    StepChanges(w, step);
  }

  /** A create that succeeded is recovered with the very response it had, whatever
      happens in between and whatever expires, as long as its collection exists. */
  lemma RecoveredAsAnswered(w: World, user: string, collection: string, mid: string, key: string, prepared: bool,
                            id: string,
                            clock: Clock, w1: World, between: seq<Step>)
    requires OnceOnly(w) && mid != "" && ValidUuid(collection) && user in w.db.users && ValidUuid(id) && id !in w.minted
    requires w1 == CreateStep(w, user, collection, mid, key, prepared, id, clock)
    requires CreateTx(w.db, user, collection, mid, key, prepared, id, clock).outcome.OK?
    requires CollectionFound(w1.db, user, collection) && CollectionFound(Exec(w1, between).db, user, collection)
    ensures var first := CreateTx(w.db, user, collection, mid, key, prepared, id, clock).outcome;
      RecoverCreate(Exec(w1, between).db, user, collection, mid) == OK(first.response.(replayed := Some(true)))
  {
    CreateRecorded(w, user, collection, mid, key, prepared, id, clock, w1);
    hide CreateTx, CreateStep, ValidUuid, Exec;
    assert Shaped(w1.db.results[(user, mid)]);
    CreateRowLasts(w1, between, (user, mid));
  }
}
