/** Conservation of versions over every run: a collection's cursor is the sum of
    its objects' versions and the largest change_seq, change_seqs are distinct,
    and each cursor value is announced exactly once. */
module Conservation {
  import opened Tables
  import opened Mutations
  import opened Worlds

  ghost function SumVersions(objects: Objects, ids: set<string>): int
    requires ids <= objects.Keys
  {
    if ids == {} then 0
    else
      var i :| i in ids;
      objects[i].version + SumVersions(objects, ids - {i})
  }

  lemma SumPick(objects: Objects, ids: set<string>, i: string)
    requires ids <= objects.Keys && i in ids
    ensures SumVersions(objects, ids) == objects[i].version + SumVersions(objects, ids - {i})
  {
    var j :| j in ids && SumVersions(objects, ids) == objects[j].version + SumVersions(objects, ids - {j});
    if i != j {
      SumPick(objects, ids - {j}, i);
      SumPick(objects, ids - {i}, j);
      assert ids - {j} - {i} == ids - {i} - {j};
    }
  }

  lemma SumAgrees(a: Objects, b: Objects, ids: set<string>)
    requires ids <= a.Keys && ids <= b.Keys
    requires forall i | i in ids :: a[i].version == b[i].version
    ensures SumVersions(a, ids) == SumVersions(b, ids)
  {
    if ids != {} {
      var i :| i in ids;
      SumPick(a, ids, i);
      SumPick(b, ids, i);
      SumAgrees(a, b, ids - {i});
    }
  }

  predicate Distinct(objects: Objects) {
    forall i, j | i in objects && j in objects && i != j && objects[i].collection == objects[j].collection ::
      objects[i].changeSeq != objects[j].changeSeq
  }

  predicate Ranged(db: Database) {
    forall i | i in db.objects ::
      db.objects[i].version >= 1 && db.objects[i].collection in db.collections &&
      1 <= db.objects[i].changeSeq <= db.collections[db.objects[i].collection].currentVersion
  }

  predicate HasSeq(objects: Objects, collection: string, version: nat) {
    exists i :: i in objects && objects[i].collection == collection && objects[i].changeSeq == version
  }

  predicate Attained(db: Database) {
    forall c | c in db.collections && db.collections[c].currentVersion > 0 ::
      HasSeq(db.objects, c, db.collections[c].currentVersion)
  }

  ghost function VersionTotal(objects: Objects, collection: string): int {
    SumVersions(objects, ObjectsOf(objects, collection))
  }

  ghost predicate Summed(db: Database) {
    forall c | c in db.collections :: VersionTotal(db.objects, c) == db.collections[c].currentVersion
  }

  /** Per collection: the cursor is both the sum of versions and the largest
      change_seq (0 if there is none), and no two objects share a change_seq. */
  ghost predicate Conserved(db: Database) {
    Distinct(db.objects) && Ranged(db) && Attained(db) && Summed(db)
  }

  /** Published or awaiting its callback: each version of an existing collection once. */
  ghost predicate Announced(w: World) {
    (forall n: Note | n.collection in w.db.collections ::
      Notes(w.log)[n] ==
        if n.user == w.db.collections[n.collection].user &&
          1 <= n.version <= w.db.collections[n.collection].currentVersion
        then 1 else 0) &&
    (forall n: Note | n in Notes(w.log) :: n.collection in w.minted)
  }

  ghost predicate Sound(w: World) {
    Rooted(w.db) && AllMinted(w) && Conserved(w.db) && Announced(w)
  }

  lemma AdvanceTotal(objects: Objects, row: Object, c: string)
    requires row.id in objects ==> objects[row.id].collection == row.collection
    requires row.version == 1 + (if row.id in objects then objects[row.id].version else 0)
    ensures VersionTotal(objects[row.id := row], c) == VersionTotal(objects, c) + (if c == row.collection then 1 else 0)
  {
    var objects' := objects[row.id := row];
    var before, after := ObjectsOf(objects, c), ObjectsOf(objects', c);
    if c == row.collection {
      assert after == before + {row.id};
      assert after - {row.id} == before - {row.id};
      SumPick(objects', after, row.id);
      if row.id in objects {
        SumPick(objects, before, row.id);
      } else {
        assert before - {row.id} == before;
      }
      SumAgrees(objects, objects', before - {row.id});
    } else {
      assert after == before;
      SumAgrees(objects, objects', before);
    }
  }

  lemma AdvanceAttains(db: Database, db': Database, kind: Kind, row: Object)
    requires Attained(db) && Ranged(db) && Advances(db, db', kind, row)
    ensures Attained(db')
  {
    forall c | c in db'.collections && db'.collections[c].currentVersion > 0
      ensures HasSeq(db'.objects, c, db'.collections[c].currentVersion)
    {
      if c == row.collection {
        assert db'.objects[row.id] == row;
      } else {
        assert HasSeq(db.objects, c, db.collections[c].currentVersion);
        var i :| i in db.objects && db.objects[i].collection == c &&
          db.objects[i].changeSeq == db.collections[c].currentVersion;
        assert i in db'.objects && db'.objects[i] == db.objects[i];
      }
    }
  }

  lemma AdvanceRanges(db: Database, db': Database, kind: Kind, row: Object)
    requires Rooted(db) && Ranged(db) && Distinct(db.objects) && Advances(db, db', kind, row)
    ensures Ranged(db') && Distinct(db'.objects)
  {
  }

  lemma AdvanceSums(db: Database, db': Database, kind: Kind, row: Object)
    requires Summed(db) && Ranged(db) && Advances(db, db', kind, row)
    ensures Summed(db')
  {
    forall c | c in db'.collections ensures VersionTotal(db'.objects, c) == db'.collections[c].currentVersion {
      AdvanceTotal(db.objects, row, c);
    }
  }

  lemma AdvanceConserves(db: Database, db': Database, kind: Kind, row: Object)
    requires Rooted(db) && Conserved(db) && Advances(db, db', kind, row)
    ensures Conserved(db')
  {
    AdvanceAttains(db, db', kind, row);
    AdvanceRanges(db, db', kind, row);
    AdvanceSums(db, db', kind, row);
  }

  lemma DropTotal(objects: Objects, id: string, c: string)
    requires c != id
    ensures VersionTotal(objects - ObjectsOf(objects, id), c) == VersionTotal(objects, c)
  {
    var objects' := objects - ObjectsOf(objects, id);
    assert ObjectsOf(objects', c) == ObjectsOf(objects, c);
    SumAgrees(objects, objects', ObjectsOf(objects, c));
  }

  lemma DropConserves(db: Database, db': Database, id: string)
    requires Rooted(db) && Conserved(db)
    requires db'.collections == db.collections - {id} && db'.objects == db.objects - ObjectsOf(db.objects, id)
    ensures Conserved(db')
  {
    DropAttains(db, db', id);
    DropSums(db, db', id);
    hide Attained, Summed;
  }

  lemma DropSums(db: Database, db': Database, id: string)
    requires Summed(db) && db'.collections == db.collections - {id} &&
             db'.objects == db.objects - ObjectsOf(db.objects, id)
    ensures Summed(db')
  {
    hide VersionTotal, ObjectsOf;
    forall c | c in db'.collections ensures VersionTotal(db'.objects, c) == db'.collections[c].currentVersion {
      DropTotal(db.objects, id, c);
    }
  }

  lemma DropAttains(db: Database, db': Database, id: string)
    requires Attained(db) && db'.collections == db.collections - {id} &&
             db'.objects == db.objects - ObjectsOf(db.objects, id)
    ensures Attained(db')
  {
    forall c | c in db'.collections && db'.collections[c].currentVersion > 0
      ensures HasSeq(db'.objects, c, db'.collections[c].currentVersion)
    {
      assert HasSeq(db.objects, c, db.collections[c].currentVersion);
      var i :| i in db.objects && db.objects[i].collection == c &&
        db.objects[i].changeSeq == db.collections[c].currentVersion;
      assert i in db'.objects;
    }
  }

  lemma NewConserves(db: Database, db': Database, id: string, collection: Collection)
    requires Rooted(db) && Conserved(db) && id !in db.collections && collection.currentVersion == 0
    requires db'.collections == db.collections[id := collection] && db'.objects == db.objects
    ensures Conserved(db')
  {
    assert ObjectsOf(db.objects, id) == {};
    assert VersionTotal(db.objects, id) == 0;
  }

  lemma SoundStep(w: World, step: Step)
    requires Sound(w)
    ensures Sound(Next(w, step))
  {
    var w', change := Next(w, step), ChangeOf(w, step);
    StepChanges(w, step);
    RootedStep(w, step);
    match change {
      case Same => ConservedSame(w.db, w'.db);
      case Advance(kind, row) => AdvanceConserves(w.db, w'.db, kind, row);
      case NewCollection(id, collection) => NewConserves(w.db, w'.db, id, collection);
      case DropCollection(id) => DropConserves(w.db, w'.db, id);
    }
    AnnouncedStep(w, w', change);
  }

  lemma ConservedSame(db: Database, db': Database)
    requires Conserved(db) && db'.collections == db.collections && db'.objects == db.objects
    ensures Conserved(db')
  {
  }

  lemma AnnouncedStep(w: World, w': World, change: Change)
    requires AllMinted(w) && Announced(w) && Changes(w, w', change)
    ensures Announced(w')
  {
  }

  /** In every run from a sound world, versions stay conserved and announced. */
  lemma {:induction false} VersionsConserved(w: World, steps: seq<Step>)
    requires Sound(w)
    ensures Sound(Exec(w, steps))
    decreases |steps|
  {
    if steps != [] {
      SoundStep(w, steps[0]);
      VersionsConserved(Next(w, steps[0]), steps[1..]);
    }
  }

  lemma EmptySound(users: set<string>)
    ensures Sound(Empty(users))
  {
  }

  /** So on every server that started empty: the cursor of a collection is the sum
      of its objects' versions and their largest change_seq, no two objects share
      a change_seq, and exactly the versions 1 to the cursor were announced, each once. */
  lemma CursorsOfEveryRun(users: set<string>, steps: seq<Step>, c: string)
    requires c in Exec(Empty(users), steps).db.collections
    ensures var w := Exec(Empty(users), steps);
      var cursor := w.db.collections[c].currentVersion;
      cursor == VersionTotal(w.db.objects, c) &&
      (forall id | id in w.db.objects && w.db.objects[id].collection == c ::
        1 <= w.db.objects[id].changeSeq <= cursor) &&
      (cursor > 0 ==> HasSeq(w.db.objects, c, cursor)) && Distinct(w.db.objects) &&
      (forall v: nat :: OnceIfUpTo(cursor, v, (w.log.queued + w.log.published)[Note(w.db.collections[c].user, c, v)]))
  {
    EmptySound(users);
    VersionsConserved(Empty(users), steps);
    var w := Exec(Empty(users), steps);
    var user, cursor := w.db.collections[c].user, w.db.collections[c].currentVersion;
    hide Exec, Next, VersionTotal;
    forall v: nat ensures OnceIfUpTo(cursor, v, (w.log.queued + w.log.published)[Note(user, c, v)]) {
      assert Notes(w.log)[Note(user, c, v)] == if 1 <= v <= cursor then 1 else 0;
    }
  }

  /** A version occurs once from 1 to the cursor, and otherwise not at all. */
  predicate OnceIfUpTo(cursor: nat, v: nat, count: nat) { count == if 1 <= v <= cursor then 1 else 0 }
}
