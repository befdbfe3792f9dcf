/** How long blobs live: a released blob keeps its ledger row for 365 days after
    the release, as long as its collection exists; a deleted collection's blobs are
    garbage at once. */
module Lifetimes {
  import opened Tables
  import opened Mutations
  import opened Worlds
  import opened LedgerRuns
  import P = Promises
  import Live = LiveData

  const YEAR: Millis := 365 * P.A_DAY

  /** This row is garbage exactly when it was released more than a year ago. */
  ghost predicate KeptForAYear(row: LedgerRow, at: Millis) {
    row.state == Retained && forall now :: Collectable(row, now) <==> now - at > YEAR
  }

  predicate Released(before: Ledger, after: Ledger, k: string) {
    k in before && before[k].state == Claimed && k in after && after[k].state == Retained
  }

  lemma YearStarts(before: LedgerRow, after: LedgerRow, at: Millis)
    requires P.ReleasedAt(before, after, at)
    ensures KeptForAYear(after, at)
  {
  }

  lemma ExchangeReleases(before: Ledger, after: Ledger, o: Object, taken: Option<string>, left: Option<string>,
                         at: Millis, k: string)
    requires P.Exchanged(before, after, o, taken, left, at) && Released(before, after, k)
    ensures KeptForAYear(after[k], at)
  {
    assert P.ReleasedAt(before[k], after[k], at);
    YearStarts(before[k], after[k], at);
  }

  /** An update that releases a blob starts its year. */
  lemma UpdateReleases(db: Database, user: string, collection: string, id: string, mid: string, key: string,
                       version: int,
                       prepared: bool, clock: Clock, k: string)
    requires Released(db.ledger, UpdateTx(db, user, collection, id, mid, key, version, prepared, clock).db.ledger, k)
    ensures KeptForAYear(UpdateTx(db, user, collection, id, mid, key, version, prepared, clock).db.ledger[k],
            clock.write)
  {
    var tx := UpdateTx(db, user, collection, id, mid, key, version, prepared, clock);
    P.UpdateIsKept(db, user, collection, id, mid, key, version, prepared, clock);
    hide UpdateTx, P.Exchanged, P.Records, P.AnswersFor, P.Runs, P.Free;
    ExchangeReleases(db.ledger, tx.db.ledger, tx.outcome.response.row, Some(key), db.objects[id].blobKey, clock.write,
      k);
  }

  /** So does a delete. */
  lemma DeleteReleases(db: Database, user: string, collection: string, id: string, mid: string, expected: Option<int>,
                       prepared: bool, clock: Clock, k: string)
    requires Released(db.ledger, DeleteTx(db, user, collection, id, mid, expected, prepared, clock).db.ledger, k)
    ensures KeptForAYear(DeleteTx(db, user, collection, id, mid, expected, prepared, clock).db.ledger[k], clock.write)
  {
    var tx := DeleteTx(db, user, collection, id, mid, expected, prepared, clock);
    P.DeleteIsKept(db, user, collection, id, mid, expected, prepared, clock);
    hide DeleteTx, P.Exchanged, P.Records, P.AnswersDelete, P.Runs;
    var was, r := db.objects[id], tx.outcome.response;
    var o := Object(id, collection, user, was.version + 1, r.collectionVersion, true, was.blobKey, was.sizeBytes,
                    was.createdAt, clock.write);
    ExchangeReleases(db.ledger, tx.db.ledger, o, None, was.blobKey, clock.write, k);
  }

  // ---- Over runs ----------------------------------------------------------------

  /** A retained row as it was released. */
  predicate RetainedSince(ledger: Ledger, k: string, at: Millis, size: nat, collection: Option<string>) {
    k in ledger && ledger[k].state == Retained && ledger[k].stateChangedAt == at && ledger[k].size == size &&
    ledger[k].collection == collection
  }

  /** The only steps that touch it: garbage collection more than a year later, and
      the end of its collection. */
  predicate Ends(step: Step, k: string, at: Millis, collection: Option<string>) {
    match step
    case Blob(PurgeRow(key, now)) => key == k && now - at > YEAR
    case DeleteCollection(_, id, _) => collection == Some(id)
    case _ => false
  }

  lemma ExchangeKeeps(before: Ledger, after: Ledger, o: Object, taken: Option<string>, left: Option<string>, at: Millis,
                      k: string, since: Millis, size: nat, collection: Option<string>)
    requires P.Exchanged(before, after, o, taken, left, at) && RetainedSince(before, k, since, size, collection)
    requires taken.Some? ==> taken.value in before && before[taken.value].state == Staged
    ensures RetainedSince(after, k, since, size, collection)
  {
  }

  lemma CreateRetains(db: Database, user: string, collection: string, mid: string, key: string, prepared: bool,
                      id: string,
                      clock: Clock, k: string, since: Millis, size: nat, home: Option<string>)
    requires RetainedSince(db.ledger, k, since, size, home)
    ensures RetainedSince(CreateTx(db, user, collection, mid, key, prepared, id, clock).db.ledger, k, since, size, home)
  {
    var tx := CreateTx(db, user, collection, mid, key, prepared, id, clock);
    P.CreateIsKept(db, user, collection, mid, key, prepared, id, clock);
    hide CreateTx, P.Exchanged, P.Records, P.AnswersFor, P.Owns, RetainedSince;
    if P.Runs(db, user, mid, Intent(Create, collection, None, None), prepared) && tx.outcome.OK? {
      ExchangeKeeps(db.ledger, tx.db.ledger, tx.outcome.response.row, Some(key), None, clock.write, k, since, size,
        home);
    }
  }

  lemma UpdateRetains(db: Database, user: string, collection: string, id: string, mid: string, key: string,
                      version: int,
                      prepared: bool, clock: Clock, k: string, since: Millis, size: nat, home: Option<string>)
    requires RetainedSince(db.ledger, k, since, size, home)
    ensures RetainedSince(UpdateTx(db, user, collection, id, mid, key, version, prepared, clock).db.ledger, k, since,
            size, home)
  {
    var tx := UpdateTx(db, user, collection, id, mid, key, version, prepared, clock);
    P.UpdateIsKept(db, user, collection, id, mid, key, version, prepared, clock);
    hide UpdateTx, P.Exchanged, P.Records, P.AnswersFor, RetainedSince;
    var intent := Intent(Update, collection, Some(id), Some(version));
    if P.Runs(db, user, mid, intent, prepared) && P.Has(db, user, collection, id) && tx.outcome.OK? {
      ExchangeKeeps(db.ledger, tx.db.ledger, tx.outcome.response.row, Some(key), db.objects[id].blobKey, clock.write,
                    k, since, size, home);
    }
  }

  lemma DeleteRetains(db: Database, user: string, collection: string, id: string, mid: string, expected: Option<int>,
                      prepared: bool, clock: Clock, k: string, since: Millis, size: nat, home: Option<string>)
    requires RetainedSince(db.ledger, k, since, size, home)
    ensures RetainedSince(DeleteTx(db, user, collection, id, mid, expected, prepared, clock).db.ledger, k, since, size,
            home)
  {
    var tx := DeleteTx(db, user, collection, id, mid, expected, prepared, clock);
    P.DeleteIsKept(db, user, collection, id, mid, expected, prepared, clock);
    hide DeleteTx, P.Exchanged, P.Records, P.AnswersDelete, RetainedSince;
    var intent := Intent(Delete, collection, Some(id), expected);
    if P.Runs(db, user, mid, intent, prepared) && P.Has(db, user, collection, id) && tx.outcome.OK? &&
      !db.objects[id].deleted {
      var was, r := db.objects[id], tx.outcome.response;
      var o := Object(id, collection, user, was.version + 1, r.collectionVersion, true, was.blobKey, was.sizeBytes,
                      was.createdAt, clock.write);
      ExchangeKeeps(db.ledger, tx.db.ledger, o, None, was.blobKey, clock.write, k, since, size, home);
    }
  }

  lemma BlobRetains(w: World, step: BlobStep, k: string, since: Millis, size: nat, home: Option<string>)
    requires KeysMinted(w) && RetainedSince(w.db.ledger, k, since, size, home) && !Ends(Blob(step), k, since, home)
    ensures RetainedSince(BlobNext(w, step).db.ledger, k, since, size, home)
  {
    hide ValidUuid, OwnerOf, HasPrefix;
  }

  lemma DropRetains(db: Database, user: string, id: string, now: Millis, k: string, since: Millis, size: nat,
                    home: Option<string>)
    requires RetainedSince(db.ledger, k, since, size, home) && home != Some(id)
    ensures RetainedSince(DeleteCollectionTx(db, user, id, now).ledger, k, since, size, home)
  {
    hide ValidUuid;
  }

  lemma StepRetains(w: World, step: Step, k: string, since: Millis, size: nat, home: Option<string>)
    requires Bookkept(w) && RetainedSince(w.db.ledger, k, since, size, home) && !Ends(step, k, since, home)
    ensures RetainedSince(Next(w, step).db.ledger, k, since, size, home)
  {
    hide CreateTx, UpdateTx, DeleteTx, DeleteCollectionTx, BlobNext, RetainedSince, ValidUuid;
    match step
    case CommitCreate(user, collection, mid, key, prepared, id, clock) =>
      CreateRetains(w.db, user, collection, mid, key, prepared, id, clock, k, since, size, home);
    case CommitUpdate(user, collection, id, mid, key, version, prepared, clock) =>
      UpdateRetains(w.db, user, collection, id, mid, key, version, prepared, clock, k, since, size, home);
    case CommitDelete(user, collection, id, mid, expected, prepared, clock) =>
      DeleteRetains(w.db, user, collection, id, mid, expected, prepared, clock, k, since, size, home);
    case DeleteCollection(user, id, now) => DropRetains(w.db, user, id, now, k, since, size, home);
    case Blob(blob) => BlobRetains(w, blob, k, since, size, home);
    case _ =>
  }

  /** In every run a retained row stays as it was released until garbage is collected
      more than 365 days later or its collection is deleted. */
  lemma {:induction false} RetainedForAYear(w: World, steps: seq<Step>, k: string, since: Millis, size: nat,
                                            home: Option<string>)
    requires Bookkept(w) && RetainedSince(w.db.ledger, k, since, size, home)
    requires forall i | 0 <= i < |steps| :: !Ends(steps[i], k, since, home)
    ensures RetainedSince(Exec(w, steps).db.ledger, k, since, size, home)
    decreases |steps|
  {
    hide Next, Bookkept, RetainedSince, Ends;
    if steps != [] {
      StepRetains(w, steps[0], k, since, size, home);
      BookkeptStep(w, steps[0]);
      RetainedForAYear(Next(w, steps[0]), steps[1..], k, since, size, home);
    }
  }

  /** And in a run that obeys every rule its file stays too, complete: a superseded
      version can be read for a year. */
  lemma AncestorReadable(users: set<string>, steps: seq<Step>, k: string)
    requires forall rule :: Live.RunObeys(Empty(users), steps, rule)
    requires var w := Exec(Empty(users), steps); k in w.db.ledger && k in w.disk.returned
    ensures var w := Exec(Empty(users), steps); k in w.disk.files && |w.disk.files[k]| == w.db.ledger[k].size
  {
    Live.EveryRuleIsCareful(Empty(users), steps);
    Live.SafeInEveryCarefulRun(Empty(users), steps);
  }
}
