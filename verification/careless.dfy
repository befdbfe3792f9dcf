/** Why live data needs each of its rules: for every rule a run from an empty
    server that breaks this one alone, at one step, and leaves a live object
    whose blob cannot be read. */
module CarelessRuns {
  import opened Tables
  import opened Mutations
  import opened Worlds
  import opened LiveData
  import opened Scripts

  const YEAR: Millis := 366 * DAY

  predicate Lost(w: World, id: string) { id in w.db.objects && !w.db.objects[id].deleted && !Readable(w, id) }

  /** A create names a key whose file is not written yet. In this run and the next
      two the client names a key before Stage has returned it, so it has guessed the
      random part of it. */
  lemma CreateBeforeWrite(d: Ids) returns (steps: seq<Step>, s: Small)
    requires Usable(d)
    ensures Leads(d, steps, s, CreatesUseReturned) && Lost(Exec(Empty({d.user}), steps), d.first)
  {
    KeysDiffer(d);
    hide KeyOf, ValidUuid, Leads;
    steps, s := Opening(d, CreatesUseReturned);
    steps, s := Extend(d, steps, s, CreatesUseReturned, Stage(d.blobA, 0));
    steps, s := Extend(d, steps, s, CreatesUseReturned, Make(d.first, d.blobA, 0));
    NoFile(d, steps, s, CreatesUseReturned, d.first);
  }

  /** Where a script ends with a live object and no file under its key. */
  lemma NoFile(d: Ids, steps: seq<Step>, s: Small, broken: Rule, id: string)
    requires Leads(d, steps, s, broken) && id in s.objects && !s.objects[id].deleted
    requires s.objects[id].blobKey.Some? && s.objects[id].blobKey.value !in s.files
    ensures Lost(Exec(Empty({d.user}), steps), id)
  {
    hide Exec;
  }

  /** An update does. */
  lemma UpdateBeforeWrite(d: Ids) returns (steps: seq<Step>, s: Small)
    requires Usable(d)
    ensures Leads(d, steps, s, UpdatesUseReturned) && Lost(Exec(Empty({d.user}), steps), d.first)
  {
    KeysDiffer(d);
    hide KeyOf, ValidUuid, Leads;
    steps, s := Lived(d, UpdatesUseReturned);
    steps, s := Extend(d, steps, s, UpdatesUseReturned, Stage(d.blobB, 0));
    steps, s := Extend(d, steps, s, UpdatesUseReturned, Remake(d.first, d.blobB, 2, 0));
    NoFile(d, steps, s, UpdatesUseReturned, d.first);
  }

  /** A client deletes a key before it is staged; the file removal comes last. */
  lemma DropBeforeStage(d: Ids) returns (steps: seq<Step>, s: Small)
    requires Usable(d)
    ensures Leads(d, steps, s, DropsUseReturned) && Lost(Exec(Empty({d.user}), steps), d.first)
  {
    KeysDiffer(d);
    hide KeyOf, ValidUuid, Leads;
    steps, s := Opening(d, DropsUseReturned);
    steps, s := Extend(d, steps, s, DropsUseReturned, Drop(d.blobA));
    steps, s := Extend(d, steps, s, DropsUseReturned, Stage(d.blobA, 0));
    steps, s := Extend(d, steps, s, DropsUseReturned, Write(d.blobA));
    steps, s := Extend(d, steps, s, DropsUseReturned, Make(d.first, d.blobA, 0));
    steps, s := Extend(d, steps, s, DropsUseReturned, Unlink(d.blobA, true));
    NoFile(d, steps, s, DropsUseReturned, d.first);
  }

  /** A file is adopted after its row is dropped and before it is removed. */
  lemma AdoptBeforeRemoval(d: Ids) returns (steps: seq<Step>, s: Small)
    requires Usable(d)
    ensures Leads(d, steps, s, AdoptsAfterRemoval) && Lost(Exec(Empty({d.user}), steps), d.first)
  {
    KeysDiffer(d);
    hide KeyOf, ValidUuid, Leads;
    steps, s := StagedA(d, AdoptsAfterRemoval);
    steps, s := Extend(d, steps, s, AdoptsAfterRemoval, Look(d.blobA));
    steps, s := Extend(d, steps, s, AdoptsAfterRemoval, Drop(d.blobA));
    steps, s := Extend(d, steps, s, AdoptsAfterRemoval, Adopt(d.blobA, 0));
    steps, s := Extend(d, steps, s, AdoptsAfterRemoval, Make(d.first, d.blobA, 0));
    steps, s := Extend(d, steps, s, AdoptsAfterRemoval, Unlink(d.blobA, true));
    NoFile(d, steps, s, AdoptsAfterRemoval, d.first);
  }

  /** A file is adopted after it is removed, from a walk that saw it before. */
  lemma AdoptFromStaleSighting(d: Ids) returns (steps: seq<Step>, s: Small)
    requires Usable(d)
    ensures Leads(d, steps, s, AdoptsFindFile) && Lost(Exec(Empty({d.user}), steps), d.first)
  {
    KeysDiffer(d);
    hide KeyOf, ValidUuid, Leads;
    steps, s := StagedA(d, AdoptsFindFile);
    steps, s := Extend(d, steps, s, AdoptsFindFile, Look(d.blobA));
    steps, s := Extend(d, steps, s, AdoptsFindFile, Drop(d.blobA));
    steps, s := Extend(d, steps, s, AdoptsFindFile, Unlink(d.blobA, true));
    steps, s := Extend(d, steps, s, AdoptsFindFile, Adopt(d.blobA, 0));
    steps, s := Extend(d, steps, s, AdoptsFindFile, Make(d.first, d.blobA, 0));
    NoFile(d, steps, s, AdoptsFindFile, d.first);
  }

  /** A deleted object's blob file outlives its row, because its removal fails; */
  lemma FileOutlives(d: Ids) returns (steps: seq<Step>, s: Small)
    requires Usable(d)
    ensures Leads(d, steps, s, RemovalsSucceed)
    ensures var key := KeyOf(d, d.blobA);
            var o := Object(d.first, d.collection, d.user, 2, 2, true, Some(key), Some(|d.content|), 0, 0);
            s == Small(2, map[d.first := o], map[], map[key := d.content], map[], multiset{}, {}, {key},
              {d.collection, key, d.first})
  {
    KeysDiffer(d);
    hide KeyOf, ValidUuid, Leads;
    steps, s := Died(d, RemovalsSucceed);
    steps, s := Extend(d, steps, s, RemovalsSucceed, Purge(d.blobA, YEAR));
    steps, s := Extend(d, steps, s, RemovalsSucceed, Unlink(d.blobA, false));
  }

  /** a year later it is adopted and claimed again, */
  lemma BlobReused(d: Ids) returns (steps: seq<Step>, s: Small)
    requires Usable(d)
    ensures Leads(d, steps, s, RemovalsSucceed) && s.objects.Keys == {d.first, d.second}
    ensures Ours(d, s, d.first) && s.objects[d.first].version == 2 && !s.objects[d.second].deleted
    ensures s.objects[d.first].blobKey == s.objects[d.second].blobKey == Some(KeyOf(d, d.blobA))
    ensures KeyOf(d, d.blobA) in s.ledger && s.ledger[KeyOf(d, d.blobA)].state == Claimed
    ensures KeyOf(d, d.blobB) !in s.minted
  {
    KeysDiffer(d);
    steps, s := FileOutlives(d);
    hide KeyOf, ValidUuid, Leads;
    steps, s := Extend(d, steps, s, RemovalsSucceed, Look(d.blobA));
    steps, s := Extend(d, steps, s, RemovalsSucceed, Adopt(d.blobA, YEAR));
    steps, s := Extend(d, steps, s, RemovalsSucceed, Make(d.second, d.blobA, YEAR));
  }

  /** and an update of the deleted object then releases the live one's claim:
      its blob is only retained, and garbage collection will take it. */
  lemma LiveBlobCanBeLost(d: Ids) returns (steps: seq<Step>, s: Small)
    requires Usable(d)
    ensures Leads(d, steps, s, RemovalsSucceed) && Lost(Exec(Empty({d.user}), steps), d.second)
    ensures KeyOf(d, d.blobA) in s.ledger && s.ledger[KeyOf(d, d.blobA)].state == Retained
  {
    KeysDiffer(d);
    steps, s := BlobReused(d);
    hide KeyOf, ValidUuid, Leads;
    steps, s := Extend(d, steps, s, RemovalsSucceed, Stage(d.blobB, YEAR));
    steps, s := Extend(d, steps, s, RemovalsSucceed, Write(d.blobB));
    steps, s := Extend(d, steps, s, RemovalsSucceed, Remake(d.first, d.blobB, 3, YEAR));
    NotClaimed(d, steps, s, RemovalsSucceed, d.second);
  }

  lemma NotClaimed(d: Ids, steps: seq<Step>, s: Small, broken: Rule, id: string)
    requires Leads(d, steps, s, broken) && id in s.objects && !s.objects[id].deleted && s.objects[id].blobKey.Some?
    requires s.objects[id].blobKey.value in s.ledger && s.ledger[s.objects[id].blobKey.value].state != Claimed
    ensures Lost(Exec(Empty({d.user}), steps), id)
  {
    hide Exec;
  }

  /** Every rule is needed: a run may break it alone and lose a live object's data. */
  lemma EveryRuleIsNeeded(d: Ids, broken: Rule) returns (steps: seq<Step>, id: string)
    requires Usable(d)
    ensures forall rule | rule != broken :: RunObeys(Empty({d.user}), steps, rule)
    ensures Lost(Exec(Empty({d.user}), steps), id)
  {
    hide Exec, RunObeys, Lost, Usable;
    var s;
    id := if broken.RemovalsSucceed? then d.second else d.first;
    match broken
    case CreatesUseReturned => steps, s := CreateBeforeWrite(d);
    case UpdatesUseReturned => steps, s := UpdateBeforeWrite(d);
    case DropsUseReturned => steps, s := DropBeforeStage(d);
    case RemovalsSucceed => steps, s := LiveBlobCanBeLost(d);
    case AdoptsFindFile => steps, s := AdoptFromStaleSighting(d);
    case AdoptsAfterRemoval => steps, s := AdoptBeforeRemoval(d);
  }
}
