/** No lost update, over every run: the accepted mutations of an object form a
    chain with versions 1, 2, 3, ..., each applied to the row before it, and a
    tombstone stays a tombstone. */
module Histories {
  import opened Tables
  import opened Mutations
  import opened Worlds
  import opened CreateOnce
  import P = Promises

  /** One accepted mutation applied to the row its predecessor left. */
  predicate Link(before: Object, next: Accepted) {
    var row := next.row;
    row.version == before.version + 1 && row.changeSeq > before.changeSeq &&
    row.id == before.id && row.collection == before.collection && row.user == before.user &&
      row.createdAt == before.createdAt &&
    match next.kind
    case Create => false
    case Update => row.deleted == before.deleted && row.blobKey.Some?
    case Delete => !before.deleted && row.deleted && row.blobKey == before.blobKey && row.sizeBytes == before.sizeBytes
  }

  predicate Chain(h: seq<Accepted>) {
    |h| > 0 && h[0].kind == Create && h[0].row.version == 1 && !h[0].row.deleted &&
    forall i | 0 < i < |h| :: Link(h[i - 1].row, h[i])
  }

  /** The history of every object ends in its row. */
  predicate Told(w: World) {
    forall id | id in w.db.objects ::
      id in w.log.history && Chain(w.log.history[id]) && |w.log.history[id]| == w.db.objects[id].version &&
      w.log.history[id][|w.log.history[id]| - 1].row == w.db.objects[id]
  }

  predicate Cursored(db: Database) {
    forall i | i in db.objects :: db.objects[i].collection in db.collections &&
      db.objects[i].changeSeq <= db.collections[db.objects[i].collection].currentVersion
  }

  predicate Historic(w: World) {
    Rooted(w.db) && AllMinted(w) && Cursored(w.db) && Told(w)
  }

  lemma ChainGrows(h: seq<Accepted>, next: Accepted)
    requires Chain(h) && Link(h[|h| - 1].row, next)
    ensures Chain(h + [next])
  {
  }

  lemma AdvanceTold(w: World, w': World, kind: Kind, row: Object)
    requires Historic(w) && Changes(w, w', Advance(kind, row)) && (kind == Update ==> row.blobKey.Some?)
    ensures Told(w') && Cursored(w'.db)
  {
    var h := HistoryOf(w.log, row.id);
    if kind == Create {
      assert h == [];
    } else {
      assert Chain(h);
      ChainGrows(h, Accepted(kind, row));
    }
    assert w'.log.history[row.id] == h + [Accepted(kind, row)];
  }

  lemma HistoricStep(w: World, step: Step)
    requires Historic(w)
    ensures Historic(Next(w, step))
  {
    StepChanges(w, step);
    RootedStep(w, step);
    var w', change := Next(w, step), ChangeOf(w, step);
    match change
    case Advance(kind, row) => AdvanceTold(w, w', kind, row);
    case _ =>
  }

  lemma {:induction false} HistoryOfEveryRun(w: World, steps: seq<Step>)
    requires Historic(w)
    ensures Historic(Exec(w, steps))
    decreases |steps|
  {
    if steps != [] {
      HistoricStep(w, steps[0]);
      HistoryOfEveryRun(Next(w, steps[0]), steps[1..]);
    }
  }

  lemma {:induction false} VersionsCount(h: seq<Accepted>, i: nat)
    requires Chain(h) && i < |h|
    ensures h[i].row.version == i + 1
  {
    if i > 0 {
      VersionsCount(h, i - 1);
      assert Link(h[i - 1].row, h[i]);
    }
  }

  lemma {:induction false} DeletedStays(h: seq<Accepted>, i: nat, j: nat)
    requires Chain(h) && i <= j < |h| && h[i].row.deleted
    ensures h[j].row.deleted
    decreases j
  {
    if i < j {
      DeletedStays(h, i, j - 1);
      assert Link(h[j - 1].row, h[j]);
    }
  }

  /** The versions of an object run 1, 2, 3, ..., one accepted mutation each, and
      at most one of them deletes it. */
  lemma NoLostUpdate(users: set<string>, steps: seq<Step>, id: string)
    requires id in Exec(Empty(users), steps).db.objects
    ensures var w := Exec(Empty(users), steps);
      id in w.log.history &&
      var h := w.log.history[id];
      |h| == w.db.objects[id].version && |h| > 0 && h[|h| - 1].row == w.db.objects[id] &&
      (forall i | 0 <= i < |h| :: h[i].row.version == i + 1 && (h[i].kind == Create <==> i == 0)) &&
      (forall i | 0 < i < |h| :: Link(h[i - 1].row, h[i])) &&
      (forall i, j | 0 <= i < j < |h| :: h[i].kind == Delete ==> h[j].kind != Delete && h[j].row.deleted)
  {
    HistoryOfEveryRun(Empty(users), steps);
    var h := Exec(Empty(users), steps).log.history[id];
    forall i | 0 <= i < |h| ensures h[i].row.version == i + 1 && (h[i].kind == Create <==> i == 0) {
      VersionsCount(h, i);
      if i > 0 { assert Link(h[i - 1].row, h[i]); }
    }
    forall i, j | 0 <= i < j < |h| && h[i].kind == Delete ensures h[j].kind != Delete && h[j].row.deleted {
      assert Link(h[i - 1].row, h[i]);
      DeletedStays(h, i, j - 1);
      assert Link(h[j - 1].row, h[j]);
    }
  }

  /** An update answered fresh with OK asked for the version after the one it
      found, and its row is the next entry of the object's history. */
  lemma AcceptedUpdateIsNext(w: World, user: string, collection: string, id: string, key: string, version: int,
                             clock: Clock)
    requires Historic(w)
    ensures var tx := RunUpdate(w.db, user, collection, id, key, version, clock);
      if tx.outcome.OK? then
        id in w.log.history && version == |w.log.history[id]| + 1 &&
        Link(w.log.history[id][version - 2].row, Accepted(Update, tx.db.objects[id])) &&
          tx.db.objects[id] == tx.outcome.response.row
      else tx.db == w.db
  {
    if ObjectFound(w.db, user, collection, id) { assert Chain(w.log.history[id]); }
  }

  /** A delete that names the version it expects is accepted only on that version:
      the number of mutations accepted so far. On any other, of a live object or a
      tombstone, it is a conflict that tells the version and blob key it found, and
      nothing changes. So no delete buries an edit it has not seen. */
  lemma DeleteIsExpected(w: World, user: string, collection: string, id: string, expected: int, clock: Clock)
    requires Historic(w) && P.Has(w.db, user, collection, id)
    ensures id in w.log.history
    ensures var run, o := RunDelete(w.db, user, collection, id, Some(expected), clock), w.db.objects[id];
      if expected == |w.log.history[id]| then run.outcome.OK?
      else run == Tx(w.db, VersionConflict(Conflict(o.version, o.blobKey)), Quiet)
  {
    hide ValidUuid;
    assert Chain(w.log.history[id]);
  }

  /** An update is accepted only for the version after the last accepted one; on any
      other it is a conflict that tells the version and blob key it found. */
  lemma UpdateIsExpected(w: World, user: string, collection: string, id: string, key: string, version: int,
                         clock: Clock)
    requires Historic(w) && P.Has(w.db, user, collection, id)
    ensures id in w.log.history
    ensures var run, o := RunUpdate(w.db, user, collection, id, key, version, clock), w.db.objects[id];
      if version == |w.log.history[id]| + 1 then run.outcome.OK? || run.outcome.BlobNotStaged?
      else run == Tx(w.db, VersionConflict(Conflict(o.version, o.blobKey)), Quiet)
  {
    hide ValidUuid;
    assert Chain(w.log.history[id]);
  }

  // ---- Objects last as long as their collection ------------------------------

  lemma StayStep(w: World, step: Step, id: string)
    requires Rooted(w.db) && AllMinted(w) && id in w.db.objects &&
             w.db.objects[id].collection in Next(w, step).db.collections
    ensures var w' := Next(w, step);
      id in w'.db.objects && w'.db.objects[id].collection == w.db.objects[id].collection &&
      (id in w.log.madeBy ==> id in w'.log.madeBy && w'.log.madeBy[id] == w.log.madeBy[id])
  {
    StepChanges(w, step);
  }

  /** A collection found at the end of a run, and minted at its start, was there all along. */
  lemma {:induction false} CollectionsNeverReturn(w: World, steps: seq<Step>, c: string)
    requires Rooted(w.db) && AllMinted(w) && c in w.minted && c !in w.db.collections
    ensures c !in Exec(w, steps).db.collections
    decreases |steps|
  {
    if steps != [] {
      StepChanges(w, steps[0]);
      RootedStep(w, steps[0]);
      CollectionsNeverReturn(Next(w, steps[0]), steps[1..], c);
    }
  }

  lemma {:induction false} ObjectsStay(w: World, steps: seq<Step>, id: string)
    requires Rooted(w.db) && AllMinted(w) && id in w.db.objects &&
             w.db.objects[id].collection in Exec(w, steps).db.collections
    ensures var w' := Exec(w, steps);
      id in w'.db.objects && w'.db.objects[id].collection == w.db.objects[id].collection &&
      (id in w.log.madeBy ==> id in w'.log.madeBy && w'.log.madeBy[id] == w.log.madeBy[id])
    decreases |steps|
  {
    if steps != [] {
      var c, next := w.db.objects[id].collection, Next(w, steps[0]);
      StepChanges(w, steps[0]);
      RootedStep(w, steps[0]);
      if c !in next.db.collections {
        CollectionsNeverReturn(next, steps[1..], c);
        assert false;
      } else {
        StayStep(w, steps[0], id);
        ObjectsStay(next, steps[1..], id);
      }
    }
  }

  lemma {:induction false} ExecSplits(w: World, before: seq<Step>, after: seq<Step>)
    ensures Exec(w, before + after) == Exec(Exec(w, before), after)
    decreases |before|
  {
    if before == [] {
      assert before + after == after;
    } else {
      assert (before + after)[1..] == before[1..] + after;
      ExecSplits(Next(w, before[0]), before[1..], after);
    }
  }

  lemma ExecSnoc(w: World, before: seq<Step>, step: Step)
    ensures Exec(w, before + [step]) == Next(Exec(w, before), step)
  {
    hide Next;
    ExecSplits(w, before, [step]);
    assert [step][1..] == [];
  }

  /** A create committed under a Mutation-Id is recovered at any later moment at
      which its collection still exists, whatever expired meanwhile. */
  lemma CommittedCreateRecovered(users: set<string>, before: seq<Step>, after: seq<Step>,
                                 id: string, user: string, collection: string, mid: string)
    requires var w := Exec(Empty(users), before);
      id in w.db.objects && w.db.objects[id].collection == collection && id in w.log.madeBy &&
        w.log.madeBy[id] == (user, mid)
    requires CollectionFound(Exec(Empty(users), before + after).db, user, collection)
    ensures var outcome := RecoverCreate(Exec(Empty(users), before + after).db, user, collection, mid);
      outcome.OK? && outcome.response.row.id == id
  {
    var w := Exec(Empty(users), before);
    OnceInEveryRun(Empty(users), before);
    ExecSplits(Empty(users), before, after);
    ObjectsStay(w, after, id);
    OnceInEveryRun(w, after);
  }
}
