/** Live claims over whole runs, careful or not: every live object keeps its own
    blob claimed exactly until an accepted update releases a claim that is another
    live object's. */
module LiveClaims {
  import opened Tables
  import opened Mutations
  import opened Worlds
  import opened LedgerRuns
  import opened LiveData

  /** An accepted update of an object whose old key is another live object's claim. */
  predicate Harms(w: World, step: Step) {
    match step
    case CommitUpdate(user, collection, id, mid, key, version, prepared, clock) =>
      user in w.db.users && id in w.db.objects && HoldsForeignClaim(w.db, id) &&
      UpdateTx(w.db, user, collection, id, mid, key, version, prepared, clock).effect.Updated?
    case _ => false
  }

  predicate HarmlessRun(w: World, steps: seq<Step>)
    decreases |steps|
  {
    steps == [] || (!Harms(w, steps[0]) && HarmlessRun(Next(w, steps[0]), steps[1..]))
  }

  /** At every moment of the run every live object's blob is claimed for it. */
  predicate AlwaysClaimed(w: World, steps: seq<Step>)
    decreases |steps|
  {
    LiveClaimed(w.db) && (steps == [] || AlwaysClaimed(Next(w, steps[0]), steps[1..]))
  }

  lemma SameClaims(db: Database, db': Database)
    requires db'.objects == db.objects && db'.ledger == db.ledger
    ensures LiveClaimed(db') <==> LiveClaimed(db)
  {
  }

  lemma CreateClaims(w: World, user: string, collection: string, mid: string, key: string, prepared: bool, id: string,
                     clock: Clock)
    requires Bookkept(w) && LiveClaimed(w.db) && id !in w.minted
    ensures LiveClaimed(CreateTx(w.db, user, collection, mid, key, prepared, id, clock).db)
  {
    hide SaveResult, Lookup, ValidUuid;
    var tx := CreateTx(w.db, user, collection, mid, key, prepared, id, clock);
    if tx.effect.Created? {
      assert tx.db.ledger == Claim(w.db.ledger, key, tx.effect.row, clock.write);
    }
  }

  lemma UpdateClaims(w: World, user: string, collection: string, id: string, mid: string, key: string,
                     version: int, prepared: bool, clock: Clock)
    requires Bookkept(w) && LiveClaimed(w.db) && user in w.db.users
    ensures LiveClaimed(UpdateTx(w.db, user, collection, id, mid, key, version, prepared, clock).db) <==>
            !Harms(w, CommitUpdate(user, collection, id, mid, key, version, prepared, clock))
  {
    UpdateTables(w.db, user, collection, id, mid, key, version, prepared, clock);
    var tx := UpdateTx(w.db, user, collection, id, mid, key, version, prepared, clock);
    if tx.effect.Updated? {
      UpdateRan(w.db, user, collection, id, mid, key, version, prepared, clock);
      hide UpdateTx, RunUpdate;
      UpdateKeepsClaims(w.db, user, collection, id, key, version, clock);
      SameClaims(RunUpdate(w.db, user, collection, id, key, version, clock).db, tx.db);
    } else {
      hide UpdateTx;
      SameClaims(w.db, tx.db);
    }
  }

  /** The effect of the transaction is the effect of the update past its replay check. */
  lemma UpdateRan(db: Database, user: string, collection: string, id: string, mid: string, key: string,
                  version: int, prepared: bool, clock: Clock)
    requires UpdateTx(db, user, collection, id, mid, key, version, prepared, clock).effect.Updated?
    ensures var tx := UpdateTx(db, user, collection, id, mid, key, version, prepared, clock);
            var run := RunUpdate(db, user, collection, id, key, version, clock);
            run.effect == tx.effect && run.db.objects == tx.db.objects && run.db.ledger == tx.db.ledger &&
              id in db.objects
  {
    hide SaveResult, Lookup, ValidUuid;
  }

  lemma DeleteClaims(w: World, user: string, collection: string, id: string, mid: string,
                     expected: Option<int>, prepared: bool, clock: Clock)
    requires Bookkept(w) && LiveClaimed(w.db)
    ensures LiveClaimed(DeleteTx(w.db, user, collection, id, mid, expected, prepared, clock).db)
  {
    DeleteKeepsClaims(w.db, user, collection, id, expected, clock);
    DeleteRan(w.db, user, collection, id, mid, expected, prepared, clock);
    hide DeleteTx, RunDelete;
    var tx := DeleteTx(w.db, user, collection, id, mid, expected, prepared, clock);
    if tx.effect.Quiet? { SameClaims(w.db, tx.db); } else {
      SameClaims(RunDelete(w.db, user, collection, id, expected, clock).db, tx.db);
    }
  }

  lemma DeleteRan(db: Database, user: string, collection: string, id: string, mid: string,
                  expected: Option<int>, prepared: bool, clock: Clock)
    ensures var tx := DeleteTx(db, user, collection, id, mid, expected, prepared, clock);
            var run := RunDelete(db, user, collection, id, expected, clock);
            if tx.effect.Quiet? then tx.db.objects == db.objects && tx.db.ledger == db.ledger
            else run.db.objects == tx.db.objects && run.db.ledger == tx.db.ledger
  {
    hide SaveResult, Lookup, ValidUuid;
  }

  lemma DropClaims(db: Database, user: string, id: string, now: Millis)
    requires Rooted(db) && Corresponds(db.ledger, db.objects) && LiveClaimed(db)
    ensures LiveClaimed(DeleteCollectionTx(db, user, id, now))
  {
    var db' := DeleteCollectionTx(db, user, id, now);
    forall a | a in db'.objects && !db'.objects[a].deleted
      ensures db'.objects[a].blobKey.Some? && db'.objects[a].blobKey.value in db'.ledger
      ensures db'.ledger[db'.objects[a].blobKey.value].state == Claimed
      ensures db'.ledger[db'.objects[a].blobKey.value].objectId == Some(a)
    {
      var k := db.objects[a].blobKey.value;
      assert ClaimMatches(db.ledger[k], k, db.objects);
    }
  }

  lemma BlobClaims(w: World, step: BlobStep)
    requires Bookkept(w) && LiveClaimed(w.db)
    ensures LiveClaimed(BlobNext(w, step).db)
  {
    hide ValidUuid, OwnerOf, HasPrefix, ClaimMatches;
    if step.AdoptFile? && (step.key, step.size) in w.disk.sightings {
      assert (step.key, step.size).0 in w.minted;
    }
  }

  /** One step keeps every live object's claim exactly if it does not harm. */
  lemma ClaimsStep(w: World, step: Step)
    requires Bookkept(w) && LiveClaimed(w.db)
    ensures LiveClaimed(Next(w, step).db) <==> !Harms(w, step)
  {
    hide CreateTx, UpdateTx, DeleteTx, DeleteCollectionTx, BlobNext, ValidUuid;
    match step
    case CommitCreate(user, collection, mid, key, prepared, id, clock) =>
      if id !in w.minted { CreateClaims(w, user, collection, mid, key, prepared, id, clock); }
    case CommitUpdate(user, collection, id, mid, key, version, prepared, clock) =>
      if user in w.db.users { UpdateClaims(w, user, collection, id, mid, key, version, prepared, clock); }
    case CommitDelete(user, collection, id, mid, expected, prepared, clock) =>
      DeleteClaims(w, user, collection, id, mid, expected, prepared, clock);
    case DeleteCollection(user, id, now) => DropClaims(w.db, user, id, now);
    case Blob(blob) => BlobClaims(w, blob);
    case _ => SameClaims(w.db, Next(w, step).db);
  }

  lemma {:induction false} ClaimsRun(w: World, steps: seq<Step>)
    requires Bookkept(w) && LiveClaimed(w.db)
    ensures AlwaysClaimed(w, steps) <==> HarmlessRun(w, steps)
    decreases |steps|
  {
    hide Next, LiveClaimed, Harms, Bookkept;
    if steps != [] {
      ClaimsStep(w, steps[0]);
      BookkeptStep(w, steps[0]);
      var next := Next(w, steps[0]);
      if Harms(w, steps[0]) {
        assert !AlwaysClaimed(next, steps[1..]);
      } else {
        ClaimsRun(next, steps[1..]);
      }
    }
  }

  /** In any run from an empty server, whatever keys are used and whatever removals
      fail, live objects keep their claims throughout exactly if no accepted update
      harms. */
  lemma ClaimsHoldExactly(users: set<string>, steps: seq<Step>)
    ensures AlwaysClaimed(Empty(users), steps) <==> HarmlessRun(Empty(users), steps)
  {
    ClaimsRun(Empty(users), steps);
  }
}
