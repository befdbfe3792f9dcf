/** What a caller of the coordinator is promised, said on the tables alone: who
    gets which answer, and what each answer means for every row. The transactions
    of mutations.dfy are proved to keep it, and the methods of server.dfy carry it
    in their contracts. */
module Promises {
  import opened Tables
  import M = Mutations

  const A_DAY: Millis := 24 * 60 * 60 * 1000

  // ---- Conditions ---------------------------------------------------------------

  predicate Owns(db: Database, user: string, collection: string) {
    ValidUuid(collection) && collection in db.collections && db.collections[collection].user == user
  }

  predicate Has(db: Database, user: string, collection: string, id: string) {
    Owns(db, user, collection) && ValidUuid(id) && id in db.objects &&
    db.objects[id].collection == collection && db.objects[id].user == user
  }

  /** The user's own blob, staged less than a day ago. */
  predicate Free(db: Database, user: string, key: string, at: Millis) {
    key in db.ledger && db.ledger[key].user == user && db.ledger[key].state == Staged &&
      at - db.ledger[key].createdAt < A_DAY
  }

  predicate Seen(db: Database, user: string, mid: string) { mid != "" && (user, mid) in db.results }

  /** A row for this very request; a create is any create in the collection. */
  predicate SameRequest(row: ResultRow, intent: Intent) {
    row.kind == intent.kind && row.collection == intent.collection &&
    (row.kind.Create? || (row.objectId == intent.objectId && row.requestedVersion == intent.requestedVersion))
  }

  /** The request runs: its Mutation-Id is unused, or holds its own reservation. */
  predicate Runs(db: Database, user: string, mid: string, intent: Intent, prepared: bool) {
    !Seen(db, user, mid) ||
    (SameRequest(db.results[(user, mid)], intent) && prepared && db.results[(user, mid)].result.status == 102)
  }

  /** The ids a result can be recorded under. */
  predicate Recorded(mid: string, intent: Intent) {
    mid != "" && ValidUuid(intent.collection) && (intent.objectId.Some? ==> ValidUuid(intent.objectId.value))
  }

  // ---- Changes ------------------------------------------------------------------

  predicate SameTables(db: Database, db': Database) {
    db'.users == db.users && db'.collections == db.collections && db'.objects == db.objects && db'.ledger == db.ledger
  }

  /** Only this collection moved, by one. */
  predicate Advanced(before: Collections, after: Collections, collection: string) {
    after.Keys == before.Keys &&
    forall c | c in before ::
      after[c].user == before[c].user && after[c].createdAt == before[c].createdAt &&
      after[c].currentVersion == before[c].currentVersion + (if c == collection then 1 else 0)
  }

  predicate OnlyRow(before: Objects, after: Objects, o: Object) {
    after.Keys == before.Keys + {o.id} && after[o.id] == o && forall id | id in before && id != o.id ::
      after[id] == before[id]
  }

  predicate ClaimedBy(before: LedgerRow, after: LedgerRow, o: Object, at: Millis) {
    after == LedgerRow(before.user, before.size, Claimed, Some(o.collection), Some(o.id), Some(o.version),
      before.createdAt, at)
  }

  predicate ReleasedAt(before: LedgerRow, after: LedgerRow, at: Millis) {
    after == LedgerRow(before.user, before.size, Retained, before.collection, None, None, before.createdAt, at)
  }

  /** One blob is claimed by o, the one it had before is released, no other row changes. */
  predicate Exchanged(before: Ledger, after: Ledger, o: Object, taken: Option<string>, left: Option<string>,
                      at: Millis) {
    after.Keys == before.Keys &&
    forall k | k in before ::
      if taken == Some(k) then ClaimedBy(before[k], after[k], o, at)
      else if left == Some(k) && before[k].state == Claimed then ReleasedAt(before[k], after[k], at)
      else after[k] == before[k]
  }

  /** An accepted mutation that leaves row o. */
  predicate Accepts(db: Database, db': Database, o: Object, taken: Option<string>, left: Option<string>, at: Millis) {
    db'.users == db.users && o.collection in db.collections &&
    o.changeSeq == db.collections[o.collection].currentVersion + 1 &&
    Advanced(db.collections, db'.collections, o.collection) && OnlyRow(db.objects, db'.objects, o) &&
    Exchanged(db.ledger, db'.ledger, o, taken, left, at)
  }

  /** The result row of this request, and no other, now says this. */
  predicate Records(before: Results, after: Results, user: string, mid: string, intent: Intent, stored: StoredResult,
                    objectId: Option<string>, at: Millis)
  {
    if !Recorded(mid, intent) then after == before
    else
      var k := (user, mid);
      after.Keys == before.Keys + {k} && (forall j | j in before && j != k :: after[j] == before[j]) &&
      after[k] == ResultRow(intent.kind, intent.collection, objectId, intent.requestedVersion, stored,
                            if k in before then before[k].createdAt else at)
  }

  // ---- Answers ------------------------------------------------------------------

  /** What a recorded row answers to a create or update. */
  predicate AnswersFor(row: ResultRow, outcome: M.Outcome<MutationResponse>) {
    (row.result.status == 102 ==> outcome == M.MutationPending) &&
    (row.result == StoredResult(404, NotFoundBody) ==> outcome == M.NotFound) &&
    (row.result == StoredResult(409, NotStagedBody) ==> outcome == M.BlobNotStaged) &&
    (row.result.status == 409 && row.result.body.ConflictBody? ==>
      outcome == M.VersionConflict(row.result.body.conflict)) &&
    (row.result.status in {200, 201} && row.result.body.MutationBody? ==>
      var r := row.result.body.response;
      outcome == M.OK(if row.kind.Create? then r.(replayed := Some(true)) else r))
  }

  /** And to a delete. */
  predicate AnswersDelete(row: ResultRow, outcome: M.Outcome<DeleteResponse>) {
    (row.result.status == 102 ==> outcome == M.MutationPending) &&
    (row.result == StoredResult(404, NotFoundBody) ==> outcome == M.NotFound) &&
    (row.result.status == 409 && row.result.body.ConflictBody? ==>
      outcome == M.VersionConflict(row.result.body.conflict)) &&
    (row.result.status == 200 && row.result.body.DeleteBody? ==> outcome == M.OK(row.result.body.deleteResponse))
  }

  /** A request that does not run gets a mismatch or the recorded answer, and changes nothing. */
  predicate Replayed(db: Database, db': Database, user: string, mid: string, intent: Intent,
                     outcome: M.Outcome<MutationResponse>)
    requires Seen(db, user, mid)
  {
    var row := db.results[(user, mid)];
    db' == db && if SameRequest(row, intent) then AnswersFor(row, outcome) else outcome == M.MutationMismatch
  }

  predicate ReplayedDelete(db: Database, db': Database, user: string, mid: string, intent: Intent,
                           outcome: M.Outcome<DeleteResponse>)
    requires Seen(db, user, mid)
  {
    var row := db.results[(user, mid)];
    db' == db && if SameRequest(row, intent) then AnswersDelete(row, outcome) else outcome == M.MutationMismatch
  }

  /** A notification exactly for a moved collection, with its new version. */
  predicate Rings(db: Database, db': Database, user: string, collection: string, note: Option<Note>) {
    (note.Some? <==> db'.collections != db.collections) &&
    (note.Some? ==> note.value.user == user && note.value.collection == collection) &&
    (note.Some? && collection in db'.collections ==>
      note.value.version == db'.collections[collection].currentVersion) &&
    (note.Some? ==> collection in db'.collections)
  }

  // ---- The mutations ------------------------------------------------------------

  predicate CreateKept(db: Database, db': Database, user: string, collection: string, mid: string, key: string,
                       prepared: bool,
                       id: string, clock: M.Clock, outcome: M.Outcome<MutationResponse>)
  {
    var intent := Intent(Create, collection, None, None);
    if !Runs(db, user, mid, intent, prepared) then Replayed(db, db', user, mid, intent, outcome)
    else
      (outcome.NotFound? <==> !Owns(db, user, collection)) &&
      (outcome.BlobNotStaged? <==> Owns(db, user, collection) && !Free(db, user, key, clock.check)) &&
      (outcome.OK? <==> Owns(db, user, collection) && Free(db, user, key, clock.check)) &&
      (!outcome.OK? ==> SameTables(db, db')) &&
      (outcome.NotFound? ==>
        Records(db.results, db'.results, user, mid, intent, StoredResult(404, NotFoundBody), None, clock.save)) &&
      (outcome.BlobNotStaged? ==>
        Records(db.results, db'.results, user, mid, intent, StoredResult(409, NotStagedBody), None, clock.save)) &&
      (outcome.OK? ==>
        var r := outcome.response;
        r.row == Object(id, collection, user, 1, r.collectionVersion, false, Some(key), Some(db.ledger[key].size),
          clock.write, clock.write) &&
        r.replayed == Some(false) && Accepts(db, db', r.row, Some(key), None, clock.write) &&
        Records(db.results, db'.results, user, mid, intent, StoredResult(201, MutationBody(r)), Some(id), clock.save))
  }

  predicate UpdateKept(db: Database, db': Database, user: string, collection: string, id: string, mid: string,
                       key: string,
                       version: int, prepared: bool, clock: M.Clock, outcome: M.Outcome<MutationResponse>)
  {
    var intent := Intent(Update, collection, Some(id), Some(version));
    if !Runs(db, user, mid, intent, prepared) then Replayed(db, db', user, mid, intent, outcome)
    else if !Has(db, user, collection, id) then
      outcome == M.NotFound && SameTables(db, db') &&
      Records(db.results, db'.results, user, mid, intent, StoredResult(404, NotFoundBody), Some(id), clock.save)
    else
      var was := db.objects[id];
      var conflict := Conflict(was.version, was.blobKey);
      (outcome.VersionConflict? <==> version != was.version + 1) &&
      (outcome.BlobNotStaged? <==> version == was.version + 1 && !Free(db, user, key, clock.check)) &&
      (outcome.OK? <==> version == was.version + 1 && Free(db, user, key, clock.check)) &&
      (!outcome.OK? ==> SameTables(db, db')) &&
      (outcome.VersionConflict? ==>
        outcome.conflict == conflict &&
        Records(db.results, db'.results, user, mid, intent, StoredResult(409, ConflictBody(conflict)), Some(id),
          clock.save)) &&
      (outcome.BlobNotStaged? ==>
        Records(db.results, db'.results, user, mid, intent, StoredResult(409, NotStagedBody), Some(id), clock.save)) &&
      (outcome.OK? ==>
        var r := outcome.response;
        r.row == Object(id, collection, user, version, r.collectionVersion, was.deleted, Some(key),
          Some(db.ledger[key].size),
                        was.createdAt, clock.write) &&
        r.replayed == None && Accepts(db, db', r.row, Some(key), was.blobKey, clock.write) &&
        Records(db.results, db'.results, user, mid, intent, StoredResult(200, MutationBody(r)), Some(id), clock.save))
  }

  predicate DeleteKept(db: Database, db': Database, user: string, collection: string, id: string, mid: string,
                       expected: Option<int>, prepared: bool, clock: M.Clock, outcome: M.Outcome<DeleteResponse>)
  {
    var intent := Intent(Delete, collection, Some(id), expected);
    if !Runs(db, user, mid, intent, prepared) then ReplayedDelete(db, db', user, mid, intent, outcome)
    else if !Has(db, user, collection, id) then
      outcome == M.NotFound && SameTables(db, db') &&
      Records(db.results, db'.results, user, mid, intent, StoredResult(404, NotFoundBody), Some(id), clock.save)
    else
      var was := db.objects[id];
      var conflict := Conflict(was.version, was.blobKey);
      (outcome.VersionConflict? <==> expected.Some? && expected.value != was.version) &&
      (outcome.OK? <==> expected.None? || expected.value == was.version) &&
      (outcome.VersionConflict? ==>
        outcome.conflict == conflict && SameTables(db, db') &&
        Records(db.results, db'.results, user, mid, intent, StoredResult(409, ConflictBody(conflict)), Some(id),
          clock.save)) &&
      (outcome.OK? ==>
        var r := outcome.response;
        Records(db.results, db'.results, user, mid, intent, StoredResult(200, DeleteBody(r)), Some(id), clock.save) &&
        if was.deleted then
          SameTables(db, db') && r.row == DeletedObject(was.id, was.version, was.changeSeq, true) &&
          r.collectionVersion == db.collections[collection].currentVersion
        else
          r.row == DeletedObject(id, was.version + 1, r.collectionVersion, true) &&
          Accepts(db, db', Object(id, collection, user, was.version + 1, r.collectionVersion, true, was.blobKey,
            was.sizeBytes,
                                  was.createdAt, clock.write), None, was.blobKey, clock.write))
  }

  // ---- They are kept --------------------------------------------------------------

  lemma RunsIsFresh(db: Database, user: string, mid: string, intent: Intent, prepared: bool)
    ensures Runs(db, user, mid, intent, prepared) <==> M.Gate(db.results, user, mid, intent, prepared).Fresh?
  {
  }

  lemma ReplayIsKept(db: Database, user: string, mid: string, intent: Intent, prepared: bool,
                     run: M.Tx<MutationResponse>, save: Millis)
    requires !Runs(db, user, mid, intent, prepared)
    ensures var tx := M.GuardMutation(db, user, mid, intent, prepared, run, save);
            Seen(db, user, mid) && Replayed(db, tx.db, user, mid, intent, tx.outcome) && tx.effect.Quiet?
  {
  }

  lemma DeleteReplayIsKept(db: Database, user: string, mid: string, intent: Intent, prepared: bool,
                           run: M.Tx<DeleteResponse>, save: Millis)
    requires !Runs(db, user, mid, intent, prepared)
    ensures var tx := M.GuardDelete(db, user, mid, intent, prepared, run, save);
            Seen(db, user, mid) && ReplayedDelete(db, tx.db, user, mid, intent, tx.outcome) && tx.effect.Quiet?
  {
  }

  lemma SavesRecord(db: Database, user: string, mid: string, intent: Intent, prepared: bool, stored: StoredResult,
                    resulting: Option<string>, save: Millis)
    requires Runs(db, user, mid, intent, prepared)
    ensures Records(db.results, M.SaveResult(db.results, user, mid, intent, stored, resulting, save), user, mid, intent,
            stored,
                    if intent.kind == Create then resulting else intent.objectId, save)
  {
  }

  lemma FreshMutation(db: Database, user: string, mid: string, intent: Intent, prepared: bool,
                      run: M.Tx<MutationResponse>, save: Millis)
    requires Runs(db, user, mid, intent, prepared) && !run.outcome.MutationMismatch? && !run.outcome.MutationPending?
    ensures var tx := M.GuardMutation(db, user, mid, intent, prepared, run, save);
            tx.outcome == run.outcome && tx.effect == run.effect && SameTables(run.db, tx.db) &&
            Records(db.results, tx.db.results, user, mid, intent,
                    match run.outcome
                    case OK(r) => StoredResult(if intent.kind == Create then 201 else 200, MutationBody(r))
                    case NotFound => StoredResult(404, NotFoundBody)
                    case BlobNotStaged => StoredResult(409, NotStagedBody)
                    case VersionConflict(c) => StoredResult(409, ConflictBody(c)),
                    if intent.kind != Create then intent.objectId
                    else if run.outcome.OK? then Some(run.outcome.response.row.id) else None, save)
  {
    RunsIsFresh(db, user, mid, intent, prepared);
    var resulting := if intent.kind == Create && run.outcome.OK? then Some(run.outcome.response.row.id) else None;
    SavesRecord(db, user, mid, intent, prepared, M.RecordMutation(intent.kind, run.outcome), resulting, save);
    hide M.SaveResult, Records, Runs, ValidUuid;
  }

  lemma FreshDelete(db: Database, user: string, mid: string, intent: Intent, prepared: bool, run: M.Tx<DeleteResponse>,
                    save: Millis)
    requires Runs(db, user, mid, intent, prepared) && intent.kind == Delete
    requires run.outcome.OK? || run.outcome.NotFound? || run.outcome.VersionConflict?
    ensures var tx := M.GuardDelete(db, user, mid, intent, prepared, run, save);
            tx.outcome == run.outcome && tx.effect == run.effect && SameTables(run.db, tx.db) &&
            Records(db.results, tx.db.results, user, mid, intent,
                    match run.outcome
                    case OK(r) => StoredResult(200, DeleteBody(r))
                    case NotFound => StoredResult(404, NotFoundBody)
                    case VersionConflict(c) => StoredResult(409, ConflictBody(c)),
                    intent.objectId, save)
  {
    RunsIsFresh(db, user, mid, intent, prepared);
    SavesRecord(db, user, mid, intent, prepared, M.RecordDelete(run.outcome), None, save);
    hide M.SaveResult, Records, Runs, ValidUuid;
  }

  lemma CreateIsKept(db: Database, user: string, collection: string, mid: string, key: string, prepared: bool,
                     id: string, clock: M.Clock)
    ensures var tx := M.CreateTx(db, user, collection, mid, key, prepared, id, clock);
            CreateKept(db, tx.db, user, collection, mid, key, prepared, id, clock, tx.outcome)
  {
    var intent, run := Intent(Create, collection, None, None), M.RunCreate(db, user, collection, key, id, clock);
    if Runs(db, user, mid, intent, prepared) {
      FreshMutation(db, user, mid, intent, prepared, run, clock.save);
      hide M.GuardMutation, Records, Runs, ValidUuid;
    } else {
      ReplayIsKept(db, user, mid, intent, prepared, run, clock.save);
      hide M.GuardMutation, Replayed, Runs, M.RunCreate;
    }
  }

  lemma UpdateIsKept(db: Database, user: string, collection: string, id: string, mid: string, key: string, version: int,
                     prepared: bool, clock: M.Clock)
    ensures var tx := M.UpdateTx(db, user, collection, id, mid, key, version, prepared, clock);
            UpdateKept(db, tx.db, user, collection, id, mid, key, version, prepared, clock, tx.outcome)
  {
    var intent, run := Intent(Update, collection, Some(id), Some(version)),
      M.RunUpdate(db, user, collection, id, key, version, clock);
    if Runs(db, user, mid, intent, prepared) {
      FreshMutation(db, user, mid, intent, prepared, run, clock.save);
      hide M.GuardMutation, Records, Runs, ValidUuid;
    } else {
      ReplayIsKept(db, user, mid, intent, prepared, run, clock.save);
      hide M.GuardMutation, Replayed, Runs, M.RunUpdate;
    }
  }

  lemma DeleteIsKept(db: Database, user: string, collection: string, id: string, mid: string, expected: Option<int>,
                     prepared: bool, clock: M.Clock)
    ensures var tx := M.DeleteTx(db, user, collection, id, mid, expected, prepared, clock);
            DeleteKept(db, tx.db, user, collection, id, mid, expected, prepared, clock, tx.outcome)
  {
    var intent, run := Intent(Delete, collection, Some(id), expected),
      M.RunDelete(db, user, collection, id, expected, clock);
    if Runs(db, user, mid, intent, prepared) {
      FreshDelete(db, user, mid, intent, prepared, run, clock.save);
      hide M.GuardDelete, Records, Runs, ValidUuid;
    } else {
      DeleteReplayIsKept(db, user, mid, intent, prepared, run, clock.save);
      hide M.GuardDelete, ReplayedDelete, Runs, M.RunDelete;
    }
  }

  // ---- The other operations -----------------------------------------------------

  /** A reservation is made exactly for an unused, well-formed Mutation-Id. */
  predicate PrepareKept(db: Database, db': Database, user: string, mid: string, intent: Intent, now: Millis,
                        prepared: bool) {
    SameTables(db, db') && (prepared <==> Recorded(mid, intent) && (user, mid) !in db.results) &&
    if !prepared then db'.results == db.results
    else Records(db.results, db'.results, user, mid, intent, StoredResult(102, PendingBody), intent.objectId, now)
  }

  /** A lookup finds the outcome of a create in this collection: its own response,
      marked as replayed, or its failure. */
  predicate RecoveryKept(db: Database, user: string, collection: string, mid: string,
                         outcome: M.Outcome<MutationResponse>) {
    if !(Owns(db, user, collection) && (user, mid) in db.results) then outcome == M.NotFound
    else
      var row := db.results[(user, mid)];
      var status := row.result.status;
      if row.collection != collection || row.kind != Create then outcome == M.NotFound
      else
        (outcome.MutationPending? <==> status == 102) && (status == 404 ==> outcome.NotFound?) &&
        (status == 409 <==> outcome.VersionConflict?) && (outcome.NotFound? ==> status == 404) &&
        (200 <= status < 300 && row.result.body.MutationBody? ==>
          outcome == M.OK(row.result.body.response.(replayed := Some(true))))
  }

  /** A collection goes with its objects and results; its claimed and retained blobs
      become purgeable now, and rows stop naming its objects. */
  predicate Dropped(db: Database, db': Database, user: string, id: string, now: Millis) {
    db'.users == db.users && db'.collections == db.collections - {id} &&
    db'.objects.Keys == (set o | o in db.objects && db.objects[o].collection != id) &&
    (forall o | o in db'.objects :: db'.objects[o] == db.objects[o]) &&
    db'.results.Keys == (set k | k in db.results && !(k.0 == user && db.results[k].collection == id)) &&
    (forall k | k in db'.results :: db'.results[k] == db.results[k]) &&
    db'.ledger.Keys == db.ledger.Keys && forall k | k in db.ledger :: Orphaned(db, db.ledger[k], db'.ledger[k], id, now)
  }

  predicate Orphaned(db: Database, before: LedgerRow, after: LedgerRow, id: string, now: Millis) {
    var named := before.objectId.Some? && before.objectId.value in db.objects &&
      db.objects[before.objectId.value].collection == id;
    var purged := before.collection == Some(id) && (before.state == Claimed || before.state == Retained);
    after == LedgerRow(before.user, before.size, if purged then Purgeable else before.state, before.collection,
                       if named then None else before.objectId, before.objectVersion, before.createdAt,
                       if purged then now else before.stateChangedAt)
  }

  lemma PrepareIsKept(db: Database, user: string, mid: string, intent: Intent, now: Millis)
    ensures var (db', prepared) := M.PrepareMutation(db, user, mid, intent, now);
            PrepareKept(db, db', user, mid, intent, now, prepared)
  {
    hide ValidUuid;
  }

  lemma RecoveryIsKept(db: Database, user: string, collection: string, mid: string)
    ensures RecoveryKept(db, user, collection, mid, M.RecoverCreate(db, user, collection, mid))
  {
    hide ValidUuid;
  }

  lemma DropIsKept(db: Database, user: string, id: string, now: Millis)
    ensures var db' := M.DeleteCollectionTx(db, user, id, now);
            if Owns(db, user, id) then Dropped(db, db', user, id, now) else db' == db
  {
    hide ValidUuid;
  }

  /** A create whose Mutation-Id is taken is settled by the row it finds. */
  lemma ReservedIsReplayed(db: Database, user: string, collection: string, mid: string)
    ensures var answer := M.ReservedAnswer(db.results, user, collection, mid);
            (answer.Some? <==> Seen(db, user, mid)) &&
            (answer.Some? ==> Replayed(db, db, user, mid, Intent(Create, collection, None, None), answer.value))
  {
  }

  // ---- Identifiers --------------------------------------------------------------

  predicate Hex(s: string) { forall i | 0 <= i < |s| :: s[i] in "0123456789abcdefABCDEF" }

  /** A canonical UUID is five groups of hexadecimal digits between dashes. */
  predicate Grouped(s: string) {
    |s| == 36 && Hex(s[..8]) && Hex(s[9..13]) && Hex(s[14..18]) && Hex(s[19..23]) && Hex(s[24..]) &&
    s[8] == '-' && s[13] == '-' && s[18] == '-' && s[23] == '-'
  }

  lemma UuidGroups(s: string)
    ensures ValidUuid(s) <==> Grouped(s)
  {
    if |s| == 36 && Grouped(s) {
      forall i | 0 <= i < 36 ensures if i in {8, 13, 18, 23} then s[i] == '-' else HexDigit(s[i]) {
        if i < 8 { assert s[..8][i] == s[i]; HexIs(s[i]); }
        else if 9 <= i < 13 { assert s[9..13][i - 9] == s[i]; HexIs(s[i]); }
        else if 14 <= i < 18 { assert s[14..18][i - 14] == s[i]; HexIs(s[i]); }
        else if 19 <= i < 23 { assert s[19..23][i - 19] == s[i]; HexIs(s[i]); }
        else if 24 <= i { assert s[24..][i - 24] == s[i]; HexIs(s[i]); }
      }
    }
    if ValidUuid(s) {
      Part(s, 0, 8);
      Part(s, 9, 13);
      Part(s, 14, 18);
      Part(s, 19, 23);
      Part(s, 24, 36);
      assert s[0..8] == s[..8] && s[24..36] == s[24..];
    }
  }

  lemma HexIs(c: char)
    ensures HexDigit(c) <==> c in "0123456789abcdefABCDEF"
  {
  }

  lemma Part(s: string, from: nat, to: nat)
    requires from <= to <= |s| && forall i | from <= i < to :: HexDigit(s[i])
    ensures Hex(s[from..to])
  {
    forall i | 0 <= i < to - from ensures s[from..to][i] in "0123456789abcdefABCDEF" { HexIs(s[from + i]); }
  }
}
