/** Runs written out act by act, for the lemmas that show what can happen. One
    user with one collection stages blobs of one content, without Mutation-Ids; an act is
    one step of the server, and a small state keeps the part of the world the
    acts work on. */
module Scripts {
  import opened Tables
  import opened Mutations
  import opened Worlds
  import opened LiveData
  import Histories

  /** The identifiers of a script, all different, and the content of its blobs, which
      is not empty: the server takes no empty body. */
  datatype Ids = Ids(user: string, collection: string, first: string, second: string, blobA: string, blobB: string,
                     content: seq<byte>)

  predicate Usable(d: Ids) {
    ValidUuid(d.user) && ValidUuid(d.collection) && ValidUuid(d.first) && ValidUuid(d.second) &&
    ValidUuid(d.blobA) && ValidUuid(d.blobB) &&
    d.collection != d.first && d.collection != d.second && d.first != d.second && d.blobA != d.blobB &&
    d.content != []
  }

  function KeyOf(d: Ids, blob: string): string { d.user + "/" + blob }

  datatype Small = Small(
    cursor: nat, objects: Objects, ledger: Ledger, files: map<string, seq<byte>>, puts: map<string, seq<byte>>,
    removals: multiset<string>, sightings: set<(string, nat)>, returned: set<string>, minted: set<string>)

  predicate At(w: World, d: Ids, s: Small) {
    w.db.users == {d.user} && w.db.collections == map[d.collection := Collection(d.user, 0, s.cursor)] &&
    w.db.objects == s.objects && w.db.ledger == s.ledger &&
    w.disk == Disk(s.files, s.puts, s.removals, s.sightings, s.returned) && w.minted == s.minted
  }

  datatype Act =
    | Stage(blob: string, now: Millis)
    | Write(blob: string)
    | Make(id: string, blob: string, now: Millis)
    | Remake(id: string, blob: string, version: int, now: Millis)
    | Kill(id: string, now: Millis)
    | Drop(blob: string)
    | Purge(blob: string, now: Millis)
    | Unlink(blob: string, ok: bool)
    | Look(blob: string)
    | Adopt(blob: string, now: Millis)

  function At3(now: Millis): Clock { Clock(now, now, now) }

  function StepOf(d: Ids, act: Act): Step {
    match act
    case Stage(blob, now) => Blob(InsertStaged(d.user, blob, d.content, now))
    case Write(blob) => Blob(WriteStaged(KeyOf(d, blob)))
    case Make(id, blob, now) => CommitCreate(d.user, d.collection, "", KeyOf(d, blob), false, id, At3(now))
    case Remake(id, blob, version, now) =>
      CommitUpdate(d.user, d.collection, id, "", KeyOf(d, blob), version, false, At3(now))
    case Kill(id, now) => CommitDelete(d.user, d.collection, id, "", None, false, At3(now))
    case Drop(blob) => Blob(DropBlobRow(d.user, KeyOf(d, blob)))
    case Purge(blob, now) => Blob(PurgeRow(KeyOf(d, blob), now))
    case Unlink(blob, ok) => Blob(RemoveFile(KeyOf(d, blob), ok))
    case Look(blob) => Blob(SizeFile(KeyOf(d, blob)))
    case Adopt(blob, now) => Blob(AdoptFile(KeyOf(d, blob), |d.content|, now))
  }

  /** Staged at this very time, so that it can be claimed. */
  predicate Ready(d: Ids, s: Small, blob: string, now: Millis) {
    KeyOf(d, blob) in s.ledger && s.ledger[KeyOf(d, blob)] == StagedRow(d.user, |d.content|, now)
  }

  predicate Ours(d: Ids, s: Small, id: string) {
    ValidUuid(id) && id in s.objects && s.objects[id].id == id && s.objects[id].user == d.user &&
    s.objects[id].collection == d.collection
  }

  predicate Enabled(d: Ids, s: Small, act: Act) {
    match act
    case Stage(blob, _) => ValidUuid(blob) && KeyOf(d, blob) !in s.minted
    case Write(blob) => KeyOf(d, blob) in s.puts
    case Make(id, blob, now) => ValidUuid(id) && id !in s.minted && Ready(d, s, blob, now)
    case Remake(id, blob, version, now) => Ours(d, s, id) && version == s.objects[id].version + 1 &&
      Ready(d, s, blob, now)
    case Kill(id, _) => Ours(d, s, id) && !s.objects[id].deleted
    case Drop(blob) => KeyOf(d, blob) in s.ledger ==> s.ledger[KeyOf(d, blob)].state == Staged
    case Purge(blob, now) => KeyOf(d, blob) in s.ledger && Collectable(s.ledger[KeyOf(d, blob)], now)
    case Unlink(blob, _) => KeyOf(d, blob) in s.removals
    case Look(blob) => KeyOf(d, blob) in s.files
    case Adopt(blob, _) => (KeyOf(d, blob), |d.content|) in s.sightings && KeyOf(d, blob) !in s.ledger
  }

  /** The row this act leaves. */
  function RowAfter(d: Ids, s: Small, act: Act): Object
    requires act.Make? || act.Remake? || act.Kill?
    requires Enabled(d, s, act)
  {
    match act
    case Make(id, blob, now) =>
      Object(id, d.collection, d.user, 1, s.cursor + 1, false, Some(KeyOf(d, blob)), Some(|d.content|), now, now)
    case Remake(id, blob, version, now) =>
      s.objects[id].(version := version, changeSeq := s.cursor + 1, blobKey := Some(KeyOf(d, blob)),
        sizeBytes := Some(|d.content|),
                     updatedAt := now)
    case Kill(id, now) =>
      s.objects[id].(version := s.objects[id].version + 1, changeSeq := s.cursor + 1, deleted := true, updatedAt := now)
  }

  function Done(d: Ids, s: Small, act: Act): Small
    requires Enabled(d, s, act)
  {
    match act
    case Stage(blob, now) =>
      var key := KeyOf(d, blob);
      s.(ledger := s.ledger[key := StagedRow(d.user, |d.content|, now)], puts := s.puts[key := d.content],
        minted := s.minted + {key})
    case Write(blob) =>
      var key := KeyOf(d, blob);
      s.(files := s.files[key := s.puts[key]], puts := s.puts - {key}, returned := s.returned + {key})
    case Make(id, blob, now) =>
      var o := RowAfter(d, s, act);
      s.(cursor := s.cursor + 1, objects := s.objects[id := o], ledger := Claim(s.ledger, KeyOf(d, blob), o, now),
         minted := s.minted + {id})
    case Remake(id, blob, _, now) =>
      var o := RowAfter(d, s, act);
      s.(cursor := s.cursor + 1, objects := s.objects[id := o],
         ledger := Claim(Release(s.ledger, s.objects[id].blobKey, now), KeyOf(d, blob), o, now))
    case Kill(id, now) =>
      s.(cursor := s.cursor + 1, objects := s.objects[id := RowAfter(d, s, act)],
         ledger := Release(s.ledger, s.objects[id].blobKey, now))
    case Drop(blob) => s.(ledger := s.ledger - {KeyOf(d, blob)}, removals := s.removals + multiset{KeyOf(d, blob)})
    case Purge(blob, _) => s.(ledger := s.ledger - {KeyOf(d, blob)}, removals := s.removals + multiset{KeyOf(d, blob)})
    case Unlink(blob, ok) =>
      s.(removals := s.removals - multiset{KeyOf(d, blob)}, files := if ok then s.files - {KeyOf(d, blob)} else s.files)
    case Look(blob) => s.(sightings := s.sightings + {(KeyOf(d, blob), |s.files[KeyOf(d, blob)]|)})
    case Adopt(blob, now) =>
      s.(ledger := s.ledger[KeyOf(d, blob) := StagedRow(d.user, |d.content|, now)],
        sightings := s.sightings - {(KeyOf(d, blob), |d.content|)})
  }

  // ---- Acts are steps -----------------------------------------------------------

  lemma {:induction false} OwnerOfKey(user: string, rest: string)
    requires forall i | 0 <= i < |user| :: user[i] != '/'
    ensures OwnerOf(user + "/" + rest) == Some(user)
  {
    var key := user + "/" + rest;
    if user != "" {
      OwnerOfKey(user[1..], rest);
      assert key[1..] == user[1..] + "/" + rest && user == [user[0]] + user[1..];
    }
  }

  lemma OwnKey(d: Ids, blob: string)
    requires Usable(d)
    ensures HasPrefix(KeyOf(d, blob), d.user + "/") && OwnerOf(KeyOf(d, blob)) == Some(d.user)
  {
    forall i | 0 <= i < |d.user| ensures d.user[i] != '/' {
      assert d.user[i] == '-' || HexDigit(d.user[i]);
    }
    OwnerOfKey(d.user, blob);
    assert KeyOf(d, blob)[..|d.user + "/"|] == d.user + "/";
  }

  /** Without a Mutation-Id nothing is looked up or recorded. */
  lemma Unguarded(db: Database, user: string, intent: Intent, run: Tx<MutationResponse>, save: Millis)
    requires run.db.results == db.results
    ensures GuardMutation(db, user, "", intent, false, run, save) == run
  {
  }

  lemma UnguardedDelete(db: Database, user: string, intent: Intent, run: Tx<DeleteResponse>, save: Millis)
    requires run.db.results == db.results
    ensures GuardDelete(db, user, "", intent, false, run, save) == run
  {
  }

  lemma Makes(d: Ids, w: World, s: Small, act: Act)
    requires Usable(d) && At(w, d, s) && act.Make? && Enabled(d, s, act)
    ensures At(Next(w, StepOf(d, act)), d, Done(d, s, act))
  {
    hide ValidUuid, KeyOf, GuardMutation, Committed;
    var run := RunCreate(w.db, d.user, d.collection, KeyOf(d, act.blob), act.id, At3(act.now));
    assert run.effect == Created(RowAfter(d, s, act));
    Unguarded(w.db, d.user, CreateIntent(d.collection), run, act.now);
  }

  lemma Remakes(d: Ids, w: World, s: Small, act: Act)
    requires Usable(d) && At(w, d, s) && act.Remake? && Enabled(d, s, act)
    ensures At(Next(w, StepOf(d, act)), d, Done(d, s, act))
  {
    hide ValidUuid, KeyOf, GuardMutation, Committed;
    var run := RunUpdate(w.db, d.user, d.collection, act.id, KeyOf(d, act.blob), act.version, At3(act.now));
    assert run.effect == Updated(s.objects[act.id], RowAfter(d, s, act));
    Unguarded(w.db, d.user, UpdateIntent(d.collection, act.id, act.version), run, act.now);
  }

  lemma Kills(d: Ids, w: World, s: Small, act: Act)
    requires Usable(d) && At(w, d, s) && act.Kill? && Enabled(d, s, act)
    ensures At(Next(w, StepOf(d, act)), d, Done(d, s, act))
  {
    hide ValidUuid, KeyOf, GuardDelete, Committed;
    var run := RunDelete(w.db, d.user, d.collection, act.id, None, At3(act.now));
    assert run.effect == Removed(s.objects[act.id], RowAfter(d, s, act));
    UnguardedDelete(w.db, d.user, DeleteIntent(d.collection, act.id, None), run, act.now);
  }

  lemma BlobStepIs(w: World, step: BlobStep)
    ensures Next(w, Blob(step)) == BlobNext(w, step)
  {
  }

  lemma Stages(d: Ids, w: World, s: Small, act: Act)
    requires Usable(d) && At(w, d, s) && act.Stage? && Enabled(d, s, act)
    ensures At(Next(w, StepOf(d, act)), d, Done(d, s, act))
  {
    OwnKey(d, act.blob);
    BlobStepIs(w, StepOf(d, act).step);
    hide Next, ValidUuid, OwnerOf, HasPrefix;
  }

  lemma Removes(d: Ids, w: World, s: Small, act: Act)
    requires Usable(d) && At(w, d, s) && (act.Drop? || act.Purge?) && Enabled(d, s, act)
    ensures At(Next(w, StepOf(d, act)), d, Done(d, s, act))
  {
    OwnKey(d, act.blob);
    BlobStepIs(w, StepOf(d, act).step);
    hide Next, ValidUuid, OwnerOf, HasPrefix, KeyOf;
  }

  lemma Files(d: Ids, w: World, s: Small, act: Act)
    requires Usable(d) && At(w, d, s) && (act.Write? || act.Unlink?) && Enabled(d, s, act)
    ensures At(Next(w, StepOf(d, act)), d, Done(d, s, act))
  {
    OwnKey(d, act.blob);
    BlobStepIs(w, StepOf(d, act).step);
    hide Next, ValidUuid, OwnerOf, HasPrefix, KeyOf;
  }

  lemma Finds(d: Ids, w: World, s: Small, act: Act)
    requires Usable(d) && At(w, d, s) && (act.Look? || act.Adopt?) && Enabled(d, s, act)
    ensures At(Next(w, StepOf(d, act)), d, Done(d, s, act))
  {
    OwnKey(d, act.blob);
    BlobStepIs(w, StepOf(d, act).step);
    hide Next, ValidUuid, OwnerOf, HasPrefix, KeyOf;
  }

  lemma Plays(d: Ids, w: World, s: Small, act: Act)
    requires Usable(d) && At(w, d, s) && Enabled(d, s, act)
    ensures At(Next(w, StepOf(d, act)), d, Done(d, s, act))
  {
    hide Next, At, Enabled, StepOf, Done;
    match act
    case Make(_, _, _) => Makes(d, w, s, act);
    case Remake(_, _, _, _) => Remakes(d, w, s, act);
    case Kill(_, _) => Kills(d, w, s, act);
    case Stage(_, _) => Stages(d, w, s, act);
    case Drop(_) => Removes(d, w, s, act);
    case Purge(_, _) => Removes(d, w, s, act);
    case Write(_) => Files(d, w, s, act);
    case Unlink(_, _) => Files(d, w, s, act);
    case Look(_) => Finds(d, w, s, act);
    case Adopt(_, _) => Finds(d, w, s, act);
  }

  // ---- Scripts under rules ------------------------------------------------------

  /** What a rule of careful runs asks of an act. */
  predicate Heeds(d: Ids, s: Small, act: Act, rule: Rule) {
    match rule
    case CreatesUseReturned => act.Make? ==> KeyOf(d, act.blob) in s.returned
    case UpdatesUseReturned => act.Remake? ==> KeyOf(d, act.blob) in s.returned
    case DropsUseReturned => act.Drop? ==> KeyOf(d, act.blob) in s.returned
    case RemovalsSucceed => act.Unlink? ==> act.ok
    case AdoptsFindFile => act.Adopt? ==> KeyOf(d, act.blob) in s.files
    case AdoptsAfterRemoval => act.Adopt? ==> KeyOf(d, act.blob) !in s.removals
  }

  lemma HeedsIsObeys(d: Ids, w: World, s: Small, act: Act, rule: Rule)
    requires At(w, d, s)
    ensures Obeys(w, StepOf(d, act), rule) <==> Heeds(d, s, act, rule)
  {
    hide ValidUuid, KeyOf, Enabled, Done;
  }

  /** These steps lead from an empty server to s, and break no rule but this one. */
  ghost predicate Leads(d: Ids, steps: seq<Step>, s: Small, broken: Rule) {
    At(Exec(Empty({d.user}), steps), d, s) && forall rule | rule != broken :: RunObeys(Empty({d.user}), steps, rule)
  }

  lemma Opening(d: Ids, broken: Rule) returns (steps: seq<Step>, s: Small)
    requires Usable(d)
    ensures Leads(d, steps, s, broken)
    ensures s == Small(0, map[], map[], map[], map[], multiset{}, {}, {}, {d.collection})
  {
    var w, step := Empty({d.user}), ClaimCollection(d.user, d.collection, 0);
    steps, s := [step], Small(0, map[], map[], map[], map[], multiset{}, {}, {}, {d.collection});
    assert steps == [] + [step] && Exec(w, []) == w;
    Histories.ExecSnoc(w, [], step);
    assert CollectionsOf(w.db, d.user) == {};
    forall rule | rule != broken ensures RunObeys(w, steps, rule) { RunObeysSnoc(w, [], step, rule); }
  }

  /** One more act. */
  lemma Extend(d: Ids, steps0: seq<Step>, s0: Small, broken: Rule, act: Act) returns (steps: seq<Step>, s: Small)
    requires Usable(d) && Leads(d, steps0, s0, broken) && Enabled(d, s0, act)
    requires forall rule | rule != broken :: Heeds(d, s0, act, rule)
    ensures Leads(d, steps, s, broken) && s == Done(d, s0, act) && steps == steps0 + [StepOf(d, act)]
  {
    hide Next, At, Enabled, StepOf, Done, Heeds, Obeys;
    var w := Exec(Empty({d.user}), steps0);
    steps, s := steps0 + [StepOf(d, act)], Done(d, s0, act);
    Plays(d, w, s0, act);
    Histories.ExecSnoc(Empty({d.user}), steps0, StepOf(d, act));
    forall rule | rule != broken ensures RunObeys(Empty({d.user}), steps, rule) {
      HeedsIsObeys(d, w, s0, act, rule);
      RunObeysSnoc(Empty({d.user}), steps0, StepOf(d, act), rule);
    }
  }

  lemma KeysDiffer(d: Ids)
    requires Usable(d)
    ensures KeyOf(d, d.blobA) != KeyOf(d, d.blobB)
    ensures KeyOf(d, d.blobA) !in {d.collection, d.first, d.second} &&
            KeyOf(d, d.blobB) !in {d.collection, d.first, d.second}
  {
    KeyLength(d, d.blobA);
    KeyLength(d, d.blobB);
    assert KeyOf(d, d.blobA)[|d.user| + 1..] == d.blobA && KeyOf(d, d.blobB)[|d.user| + 1..] == d.blobB;
  }

  lemma KeyLength(d: Ids, blob: string)
    requires Usable(d) && ValidUuid(blob)
    ensures |KeyOf(d, blob)| == 73 && |d.collection| == 36 && |d.first| == 36 && |d.second| == 36
  {
  }

  // ---- Common beginnings ----------------------------------------------------------

  function StagedState(d: Ids): Small {
    var key := KeyOf(d, d.blobA);
    Small(0, map[], map[key := StagedRow(d.user, |d.content|, 0)], map[key := d.content], map[], multiset{}, {}, {key},
      {d.collection, key})
  }

  function LiveState(d: Ids): Small {
    var key := KeyOf(d, d.blobA);
    var o := Object(d.first, d.collection, d.user, 1, 1, false, Some(key), Some(|d.content|), 0, 0);
    var row := LedgerRow(d.user, |d.content|, Claimed, Some(d.collection), Some(d.first), Some(1), 0, 0);
    StagedState(d).(cursor := 1, objects := map[d.first := o], ledger := map[key := row],
      minted := {d.collection, key, d.first})
  }

  function DeadState(d: Ids): Small {
    var key := KeyOf(d, d.blobA);
    var o := Object(d.first, d.collection, d.user, 2, 2, true, Some(key), Some(|d.content|), 0, 0);
    LiveState(d).(cursor := 2, objects := map[d.first := o],
                  ledger := map[key := LedgerRow(d.user, |d.content|, Retained, Some(d.collection), None, None, 0, 0)])
  }

  /** A blob is staged, */
  lemma StagedA(d: Ids, broken: Rule) returns (steps: seq<Step>, s: Small)
    requires Usable(d)
    ensures Leads(d, steps, s, broken) && s == StagedState(d)
  {
    KeysDiffer(d);
    hide KeyOf, ValidUuid, Leads;
    steps, s := Opening(d, broken);
    steps, s := Extend(d, steps, s, broken, Stage(d.blobA, 0));
    steps, s := Extend(d, steps, s, broken, Write(d.blobA));
  }

  /** becomes the first object's, */
  lemma Lived(d: Ids, broken: Rule) returns (steps: seq<Step>, s: Small)
    requires Usable(d)
    ensures Leads(d, steps, s, broken) && s == LiveState(d)
  {
    KeysDiffer(d);
    hide KeyOf, ValidUuid, Leads;
    steps, s := StagedA(d, broken);
    steps, s := Extend(d, steps, s, broken, Make(d.first, d.blobA, 0));
  }

  /** which is deleted. */
  lemma Died(d: Ids, broken: Rule) returns (steps: seq<Step>, s: Small)
    requires Usable(d)
    ensures Leads(d, steps, s, broken) && s == DeadState(d)
  {
    KeysDiffer(d);
    hide KeyOf, ValidUuid, Leads;
    steps, s := Lived(d, broken);
    steps, s := Extend(d, steps, s, broken, Kill(d.first, 0));
  }
}
