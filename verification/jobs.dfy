/** The background jobs, in their loops: blob garbage collection, storage
    reconciliation and result expiry. */
module Jobs {
  import opened Tables
  import opened Pages
  import opened Servers
  import M = Mutations
  import P = Promises

  const BATCH := 500
  const ADOPTION_LIMIT := 500

  function CollectableKeys(ledger: Ledger, now: Millis): set<string> {
    set key | key in ledger && M.Collectable(ledger[key], now)
  }

  /** The first keys of the selection in text order, at most a batch. */
  method EligibleBlobKeys(s: Server, now: Millis) returns (keys: seq<string>)
    ensures |keys| <= BATCH && forall i, j | 0 <= i < j < |keys| :: keys[i] != keys[j]
    ensures forall i | 0 <= i < |keys| :: keys[i] in CollectableKeys(s.ledger, now)
    ensures |keys| < BATCH ==> forall key | key in CollectableKeys(s.ledger, now) :: key in keys
    ensures forall key, i | key in CollectableKeys(s.ledger, now) && key !in keys && 0 <= i < |keys| ::
            TextBefore(keys[i], key)
  {
    keys := [];
    var rest := CollectableKeys(s.ledger, now);
    while rest != {} && |keys| < BATCH
      invariant rest <= CollectableKeys(s.ledger, now) && |keys| <= BATCH
      invariant forall i, j | 0 <= i < j < |keys| :: keys[i] != keys[j]
      invariant forall i | 0 <= i < |keys| :: keys[i] in CollectableKeys(s.ledger, now) - rest
      invariant forall key | key in CollectableKeys(s.ledger, now) - rest :: key in keys
      invariant forall key, i | key in rest && 0 <= i < |keys| :: TextBefore(keys[i], key)
      decreases rest
    {
      var next := FirstInText(rest);
      keys := keys + [next];
      rest := rest - {next};
    }
  }

  method PurgeBlobRow(s: Server, key: string, now: Millis) returns (purged: bool)
    modifies s`ledger
    ensures (s.Db(), purged) == M.PurgeRowTx(old(s.Db()), key, now)
  {
    if key !in s.ledger || !M.Collectable(s.ledger[key], now) { return false; }
    s.ledger := s.ledger - {key};
    return true;
  }

  datatype BlobGcResult = BlobGcResult(rowsPurged: nat, filesRemoved: nat, errors: nat)

  function Counted(result: BlobGcResult, existed: bool, failed: bool): BlobGcResult {
    BlobGcResult(result.rowsPurged + 1, result.filesRemoved + (if existed && !failed then 1 else 0),
                 result.errors + (if failed then 1 else 0))
  }

  predicate NoRepeats(keys: seq<string>) {
    forall i, j | 0 <= i < j < |keys| :: keys[i] != keys[j]
  }

  /** These rows are gone and the others as they were. */
  ghost predicate RowsLeft(ledger0: Ledger, purged: seq<string>, ledger: Ledger) {
    (forall key :: key in ledger <==> key in ledger0 && key !in purged) &&
    (forall key | key in ledger :: ledger[key] == ledger0[key]) && (forall key | key in purged :: key in ledger0)
  }

  /** Their files are gone, but for those the file system did not let go. */
  ghost predicate FilesLeft(files0: map<string, seq<byte>>, purged: seq<string>, stuck: set<string>,
                            files: map<string, seq<byte>>) {
    (forall key :: key in files <==> key in files0 && (key in purged ==> key in stuck)) &&
    forall key | key in files :: files[key] == files0[key]
  }

  ghost predicate Collected(ledger0: Ledger, files0: map<string, seq<byte>>, stuck: set<string>, purged: seq<string>,
                            ledger: Ledger, files: map<string, seq<byte>>, result: BlobGcResult)
  {
    NoRepeats(purged) && RowsLeft(ledger0, purged, ledger) && FilesLeft(files0, purged, stuck, files) &&
    Accounts(ledger0, files0, stuck, purged, ledger, files, result)
  }

  /** Every row that went is counted, every file that went, and every file that was refused. */
  ghost predicate Accounts(ledger0: Ledger, files0: map<string, seq<byte>>, stuck: set<string>, purged: seq<string>,
                           ledger: Ledger, files: map<string, seq<byte>>, result: BlobGcResult)
  {
    result.rowsPurged + |ledger| == |ledger0| && result.filesRemoved + |files| == |files0| &&
    result.errors == |set key | key in purged && key in stuck|
  }

  lemma AccountsGrow(ledger0: Ledger, files0: map<string, seq<byte>>, stuck: set<string>, purged: seq<string>,
                     ledger: Ledger, files: map<string, seq<byte>>, result: BlobGcResult, key: string)
    requires Accounts(ledger0, files0, stuck, purged, ledger, files, result) && key in ledger && key !in purged
    ensures Accounts(ledger0, files0, stuck, purged + [key], ledger - {key}, if key in stuck then files
            else files - {key},
                     Counted(result, key in files, key in stuck))
  {
    OneRowLess(ledger, key);
    if key in files { OneFileLess(files, key); } else { assert files - {key} == files; }
    RefusalsGrow(stuck, purged, key);
  }

  lemma RefusalsGrow(stuck: set<string>, purged: seq<string>, key: string)
    requires key !in purged
    ensures |set k | k in purged + [key] && k in stuck| == |set k | k in purged &&
            k in stuck| + (if key in stuck then 1 else 0)
  {
    var before, after := set k | k in purged && k in stuck, set k | k in purged + [key] && k in stuck;
    if key in stuck { assert after == before + {key}; } else { assert after == before; }
  }

  lemma OneFileLess(files: map<string, seq<byte>>, key: string)
    requires key in files
    ensures |files - {key}| == |files| - 1
  {
    assert (files - {key}).Keys == files.Keys - {key};
    assert |(files - {key}).Keys| == |files - {key}|;
  }

  lemma CollectedGrows(ledger0: Ledger, files0: map<string, seq<byte>>, stuck: set<string>, purged: seq<string>,
                       ledger: Ledger, files: map<string, seq<byte>>, result: BlobGcResult, key: string)
    requires Collected(ledger0, files0, stuck, purged, ledger, files, result) && key in ledger
    ensures Collected(ledger0, files0, stuck, purged + [key], ledger - {key}, if key in stuck then files
            else files - {key},
                      Counted(result, key in files, key in stuck))
  {
    AccountsGrow(ledger0, files0, stuck, purged, ledger, files, result, key);
    hide Accounts;
  }

  /** One key of a batch: its row goes if it is still collectable, then its file. */
  method CollectKey(s: Server, key: string, now: Millis, stuck: set<string>, before: BlobGcResult)
    returns (purged: bool, result: BlobGcResult)
    modifies s`ledger, s`files
    ensures purged <==> key in old(s.ledger) && M.Collectable(old(s.ledger)[key], now)
    ensures !purged ==> s.ledger == old(s.ledger) && s.files == old(s.files) && result == before
    ensures purged ==>
      s.ledger == old(s.ledger) - {key} && s.files == (if key in stuck then old(s.files) else old(s.files) - {key}) &&
      result == BlobGcResult(before.rowsPurged + 1,
                             before.filesRemoved + (if key in old(s.files) && key !in stuck then 1 else 0),
                             before.errors + (if key in stuck then 1 else 0))
  {
    result := before;
    purged := PurgeBlobRow(s, key, now);
    if !purged { return; }
    result := result.(rowsPurged := result.rowsPurged + 1);
    var existed := key in s.files;
    if key in stuck {
      result := result.(errors := result.errors + 1);
      return;
    }
    s.files := s.files - {key};
    if existed { result := result.(filesRemoved := result.filesRemoved + 1); }
  }

  predicate EverCollectable(row: LedgerRow, clock: nat -> Millis, ticks: nat) {
    exists i :: 0 <= i < ticks && M.Collectable(row, clock(i))
  }

  predicate AllEver(ledger: Ledger, keys: seq<string>, clock: nat -> Millis, ticks: nat) {
    forall key | key in keys :: key in ledger && EverCollectable(ledger[key], clock, ticks)
  }

  /** The same, with the account of the whole collection so far. */
  method CollectOne(s: Server, key: string, clock: nat -> Millis, tick: nat, stuck: set<string>, result0: BlobGcResult,
                    ghost ledger0: Ledger, ghost files0: map<string, seq<byte>>, ghost purged0: seq<string>)
    returns (gone: bool, ghost purged: seq<string>, result: BlobGcResult)
    requires Collected(ledger0, files0, stuck, purged0, s.ledger, s.files, result0) &&
             AllEver(ledger0, purged0, clock, tick)
    modifies s`ledger, s`files
    ensures Collected(ledger0, files0, stuck, purged, s.ledger, s.files, result) &&
            AllEver(ledger0, purged, clock, tick + 1)
    ensures gone <==> key in old(s.ledger) && M.Collectable(old(s.ledger)[key], clock(tick))
    ensures |s.ledger| + (if gone then 1 else 0) == |old(s.ledger)|
    ensures forall k | k in old(s.ledger) && k != key :: k in s.ledger && s.ledger[k] == old(s.ledger)[k]
  {
    purged := purged0;
    gone, result := CollectKey(s, key, clock(tick), stuck, result0);
    if gone {
      CollectedGrows(ledger0, files0, stuck, purged, old(s.ledger), old(s.files), result0, key);
      EverGrows(ledger0, purged, clock, tick, key);
      OneRowLess(old(s.ledger), key);
      purged := purged + [key];
    } else {
      EverLater(ledger0, purged, clock, tick);
    }
  }

  /** One batch, each key in its own transaction. */
  method CollectBatch(s: Server, keys: seq<string>, clock: nat -> Millis, tick0: nat, stuck: set<string>,
                      result0: BlobGcResult,
                      ghost ledger0: Ledger, ghost files0: map<string, seq<byte>>, ghost purged0: seq<string>,
                        ghost now: Millis)
    returns (ghost purged: seq<string>, result: BlobGcResult, tick: nat, count: nat)
    requires Collected(ledger0, files0, stuck, purged0, s.ledger, s.files, result0) &&
             AllEver(ledger0, purged0, clock, tick0)
    requires NoRepeats(keys)
    modifies s`ledger, s`files
    ensures Collected(ledger0, files0, stuck, purged, s.ledger, s.files, result) &&
            AllEver(ledger0, purged, clock, tick)
    ensures |s.ledger| + count == |old(s.ledger)|
    ensures Steady(clock, now) && AllCollectable(old(s.ledger), keys, now) ==> count == |keys|
  {
    purged, result, tick, count := purged0, result0, tick0, 0;
    for i := 0 to |keys|
      invariant Collected(ledger0, files0, stuck, purged, s.ledger, s.files, result) &&
                AllEver(ledger0, purged, clock, tick)
      invariant |s.ledger| + count == |old(s.ledger)|
      invariant forall j | i <= j < |keys| && keys[j] in old(s.ledger) ::
                keys[j] in s.ledger && s.ledger[keys[j]] == old(s.ledger)[keys[j]]
      invariant Steady(clock, now) && AllCollectable(old(s.ledger), keys, now) ==> count == i
    {
      var gone;
      gone, purged, result := CollectOne(s, keys[i], clock, tick, stuck, result, ledger0, files0, purged);
      tick := tick + 1;
      if gone { count := count + 1; }
    }
  }

  ghost predicate Steady(clock: nat -> Millis, now: Millis) { forall i :: clock(i) == now }

  predicate AllCollectable(ledger: Ledger, keys: seq<string>, now: Millis) {
    forall i | 0 <= i < |keys| :: keys[i] in ledger && M.Collectable(ledger[keys[i]], now)
  }

  lemma EverLater(ledger: Ledger, keys: seq<string>, clock: nat -> Millis, ticks: nat)
    requires AllEver(ledger, keys, clock, ticks)
    ensures AllEver(ledger, keys, clock, ticks + 1)
  {
    forall key | key in keys ensures EverCollectable(ledger[key], clock, ticks + 1) {
      assert EverCollectable(ledger[key], clock, ticks);
    }
  }

  lemma EverGrows(ledger: Ledger, keys: seq<string>, clock: nat -> Millis, ticks: nat, key: string)
    requires AllEver(ledger, keys, clock, ticks) && key in ledger && M.Collectable(ledger[key], clock(ticks))
    ensures AllEver(ledger, keys + [key], clock, ticks + 1)
  {
    EverLater(ledger, keys, clock, ticks);
    assert EverCollectable(ledger[key], clock, ticks + 1);
  }

  lemma SteadyIsExact(ledger0: Ledger, purged: seq<string>, ledger: Ledger, clock: nat -> Millis, ticks: nat,
                      now: Millis)
    requires RowsLeft(ledger0, purged, ledger) && AllEver(ledger0, purged, clock, ticks)
    requires Steady(clock, now) && CollectableKeys(ledger, now) == {}
    ensures (set key | key in purged) == CollectableKeys(ledger0, now)
  {
    forall key | key in purged ensures key in CollectableKeys(ledger0, now) {
      assert EverCollectable(ledger0[key], clock, ticks);
    }
    forall key | key in CollectableKeys(ledger0, now) ensures key in purged {
      assert key in ledger ==> key in CollectableKeys(ledger, now);
    }
  }

  /** clock(i) is the i-th reading the job takes; the file system refuses to let
      go of the stuck files. Every row purged was collectable at some reading,
      and a steady clock purges exactly the collectable rows and their files. */
  method GarbageCollectBlobs(s: Server, clock: nat -> Millis, stuck: set<string>)
    returns (ghost purged: seq<string>, result: BlobGcResult, ghost ticks: nat)
    modifies s`ledger, s`files
    ensures Collected(old(s.ledger), old(s.files), stuck, purged, s.ledger, s.files, result)
    ensures AllEver(old(s.ledger), purged, clock, ticks)
    ensures result.rowsPurged == |old(s.ledger)| - |s.ledger| && result.filesRemoved == |old(s.files)| - |s.files|
    ensures result.errors == |set key | key in purged && key in stuck|
    ensures forall now | Steady(clock, now) :: (set key | key in purged) == CollectableKeys(old(s.ledger), now)
  {
    purged, result := [], BlobGcResult(0, 0, 0);
    assert (set key | key in purged && key in stuck) == {};
    ghost var ledger0, files0 := s.ledger, s.files;
    var tick := 0;
    while true
      invariant Collected(ledger0, files0, stuck, purged, s.ledger, s.files, result) &&
                AllEver(ledger0, purged, clock, tick)
      decreases |s.ledger|
    {
      var keys := EligibleBlobKeys(s, clock(tick));
      ghost var now := clock(tick);
      tick := tick + 1;
      ticks := tick;
      if keys == [] {
        if Steady(clock, now) { SteadyIsExact(ledger0, purged, s.ledger, clock, tick, now); }
        return;
      }
      var purgedThisPass;
      purged, result, tick, purgedThisPass :=
        CollectBatch(s, keys, clock, tick, stuck, result, ledger0, files0, purged, now);
      ticks := tick;
      if purgedThisPass == 0 {
        return;
      }
    }
  }

  /** After a collection is deleted, garbage collection at a steady clock leaves none of
      the rows its objects held, and none of their files but those it was refused. */
  lemma DeletedCollectionIsCollected(db: Database, user: string, id: string, now: Millis, later: Millis,
                                     files: map<string, seq<byte>>, stuck: set<string>, purged: seq<string>,
                                     ledger': Ledger, files': map<string, seq<byte>>, result: BlobGcResult, key: string)
    requires P.Owns(db, user, id) && key in db.ledger && db.ledger[key].collection == Some(id)
    requires db.ledger[key].state == Claimed || db.ledger[key].state == Retained
    requires var ledger := M.DeleteCollectionTx(db, user, id, now).ledger;
             Collected(ledger, files, stuck, purged, ledger', files', result) &&
             (set k | k in purged) == CollectableKeys(ledger, later)
    ensures key !in ledger' && (key in files' ==> key in stuck)
  {
    DroppedIsCollectable(db, user, id, now);
    P.DropIsKept(db, user, id, now);
    hide M.DeleteCollectionTx, ValidUuid, Accounts;
    assert key in CollectableKeys(M.DeleteCollectionTx(db, user, id, now).ledger, later);
  }

  lemma OneRowLess(ledger: Ledger, key: string)
    requires key in ledger
    ensures |ledger - {key}| == |ledger| - 1
  {
    assert (ledger - {key}).Keys == ledger.Keys - {key};
    assert |(ledger - {key}).Keys| == |ledger - {key}|;
  }

  // ---- Storage reconciliation -----------------------------------------------------

  predicate Orphan(db: Database, key: string) {
    M.Adoptable(db, key) && key !in db.ledger
  }

  /** The files of a walk that have no ledger row although their owner exists. */
  function Orphans(db: Database, walk: seq<string>): seq<string> {
    if walk == [] then []
    else
      var last := walk[|walk| - 1];
      Orphans(db, walk[..|walk| - 1]) + (if Orphan(db, last) then [last] else [])
  }

  /** Some existing user's directory holds this file. */
  ghost predicate Owned(users: set<string>, key: string) { exists owner :: owner in users && OwnedBy(key, owner) }

  /** How many files of a walk have no existing owner. */
  ghost function Strangers(users: set<string>, walk: seq<string>): nat {
    if walk == [] then 0
    else Strangers(users, walk[..|walk| - 1]) + (if Owned(users, walk[|walk| - 1]) then 0 else 1)
  }

  /** The ledger with the orphans of this walk adopted as staged, each at its own
      reading of the clock. */
  ghost predicate Adopted(db0: Database, walk: seq<string>, files: map<string, seq<byte>>, ledger: Ledger,
                          clock: nat -> Millis)
  {
    (forall key :: key in ledger <==> key in db0.ledger || key in Orphans(db0, walk)) &&
    (forall key | key in db0.ledger :: ledger[key] == db0.ledger[key]) &&
    forall i | 0 <= i < |walk| && Orphan(db0, walk[i]) ::
      walk[i] in files && walk[i] in ledger &&
      ledger[walk[i]] == M.StagedRow(M.OwnerOf(walk[i]).value, |files[walk[i]]|, clock(i))
  }

  /** The file lies in the directory of this user. */
  predicate OwnedBy(key: string, owner: string) {
    ValidUuid(owner) && |key| > 36 && key[..36] == owner && key[36] == '/'
  }

  predicate FreshlyStaged(row: LedgerRow, owner: string, size: nat) {
    row == LedgerRow(owner, size, Staged, None, None, None, row.createdAt, row.createdAt)
  }

  /** Every walked file of an existing user has a row; the new rows are such files,
      staged with their size; the old rows are as they were. */
  ghost predicate WellAdopted(users: set<string>, ledger0: Ledger, files: map<string, seq<byte>>, walk: seq<string>,
                              ledger: Ledger) {
    (forall key | key in ledger0 :: key in ledger && ledger[key] == ledger0[key]) &&
    (forall key | key in ledger && key !in ledger0 :: key in walk && key in files &&
      ledger[key].user in users && OwnedBy(key, ledger[key].user) &&
        FreshlyStaged(ledger[key], ledger[key].user, |files[key]|)) &&
    forall key, owner | key in walk && owner in users && OwnedBy(key, owner) :: key in ledger
  }

  /** The part before the first slash. */
  lemma {:induction false} OwnerIsPrefix(key: string, owner: string)
    ensures M.OwnerOf(key) == Some(owner) <==>
            |owner| < |key| && key[..|owner|] == owner && key[|owner|] == '/' && forall i | 0 <= i < |owner| ::
              owner[i] != '/'
  {
    if key != "" && key[0] != '/' {
      if owner == "" {
        assert M.OwnerOf(key) != Some("");
      } else {
        OwnerIsPrefix(key[1..], owner[1..]);
        assert owner == [owner[0]] + owner[1..];
        assert |owner| < |key| ==>
          (key[..|owner|] == owner <==> key[0] == owner[0] && key[1..][..|owner| - 1] == owner[1..]);
        if M.OwnerOf(key) == Some(owner) { assert M.OwnerOf(key[1..]) == Some(owner[1..]); }
      }
    } else if key != "" && owner != "" {
      assert |owner| < |key| && key[..|owner|] == owner ==> owner[0] == key[0];
    }
  }

  lemma AdoptableIsOwned(db: Database, key: string, owner: string)
    ensures owner in db.users && OwnedBy(key, owner) ==> M.Adoptable(db, key)
    ensures M.Adoptable(db, key) ==> M.OwnerOf(key).value in db.users && OwnedBy(key, M.OwnerOf(key).value)
  {
    OwnerIsPrefix(key, owner);
    if ValidUuid(owner) {
      forall i | 0 <= i < |owner| ensures owner[i] != '/' { assert owner[i] == '-' || HexDigit(owner[i]); }
    }
    if M.OwnerOf(key).Some? { OwnerIsPrefix(key, M.OwnerOf(key).value); }
  }

  lemma OwnedIsAdoptable(db: Database, key: string)
    ensures Owned(db.users, key) <==> M.Adoptable(db, key)
  {
    hide ValidUuid, M.OwnerOf;
    if Owned(db.users, key) {
      var owner :| owner in db.users && OwnedBy(key, owner);
      AdoptableIsOwned(db, key, owner);
    }
    AdoptableIsOwned(db, key, "");
  }

  lemma {:induction false} WalkedOrphans(db: Database, walk: seq<string>, key: string)
    ensures key in Orphans(db, walk) <==> key in walk && Orphan(db, key)
  {
    if walk != [] {
      var last := |walk| - 1;
      WalkedOrphans(db, walk[..last], key);
      assert walk == walk[..last] + [walk[last]];
    }
  }

  lemma AdoptsWell(db0: Database, walk: seq<string>, files: map<string, seq<byte>>, ledger: Ledger,
                   clock: nat -> Millis)
    requires Adopted(db0, walk, files, ledger, clock)
    ensures WellAdopted(db0.users, db0.ledger, files, walk, ledger)
  {
    hide ValidUuid, M.OwnerOf, Orphans;
    forall key | key in ledger && key !in db0.ledger
      ensures key in walk && key in files && ledger[key].user in db0.users && OwnedBy(key, ledger[key].user)
      ensures FreshlyStaged(ledger[key], ledger[key].user, |files[key]|)
    {
      WalkedOrphans(db0, walk, key);
      AdoptableIsOwned(db0, key, "");
      var i :| 0 <= i < |walk| && walk[i] == key;
      assert Orphan(db0, walk[i]);
    }
    forall key, owner | key in walk && owner in db0.users && OwnedBy(key, owner) ensures key in ledger {
      WalkedOrphans(db0, walk, key);
      AdoptableIsOwned(db0, key, owner);
    }
  }

  datatype Visit = Taken | Skipped | Known

  /** One file of the walk, in its own transaction. */
  method VisitFile(s: Server, key: string, now: Millis) returns (visit: Visit)
    requires key in s.files
    modifies s`ledger
    ensures s.Db() == M.AdoptTx(old(s.Db()), key, |s.files[key]|, now).0
    ensures |s.ledger| == |old(s.ledger)| + (if visit == Taken then 1 else 0)
    ensures visit == if !M.Adoptable(old(s.Db()), key) then Skipped else if key in old(s.ledger) then Known else Taken
  {
    var owner := M.OwnerOf(key);
    if owner.None? || !ValidUuid(owner.value) || owner.value !in s.users { return Skipped; }
    if key in s.ledger { return Known; }
    s.ledger := s.ledger[key := M.StagedRow(owner.value, |s.files[key]|, now)];
    return Taken;
  }

  lemma AdoptedGrows(db0: Database, walk: seq<string>, files: map<string, seq<byte>>, db: Database,
                     clock: nat -> Millis, i: nat)
    requires NoRepeats(walk) && i < |walk| && walk[i] in files && db.users == db0.users
    requires Adopted(db0, walk[..i], files, db.ledger, clock)
    ensures Adopted(db0, walk[..i + 1], files, M.AdoptTx(db, walk[i], |files[walk[i]]|, clock(i)).0.ledger, clock)
    ensures walk[i] in db.ledger <==> walk[i] in db0.ledger
  {
    OneMore(db0, walk, i);
    if walk[i] in Orphans(db0, walk[..i]) { OrphansAreWalked(db0, walk[..i], walk[i]); }
    hide M.OwnerOf, ValidUuid, Orphans, Strangers;
    var part, more := walk[..i], walk[..i + 1];
    var ledger := M.AdoptTx(db, walk[i], |files[walk[i]]|, clock(i)).0.ledger;
    assert ledger == if Orphan(db0, walk[i])
      then db.ledger[walk[i] := M.StagedRow(M.OwnerOf(walk[i]).value, |files[walk[i]]|, clock(i))] else db.ledger;
    hide M.AdoptTx;
    forall k | 0 <= k < |more| && Orphan(db0, more[k])
      ensures more[k] in files && more[k] in ledger
      ensures ledger[more[k]] == M.StagedRow(M.OwnerOf(more[k]).value, |files[more[k]]|, clock(k))
    {
      if k < i { assert more[k] == part[k]; }
    }
  }

  lemma OneMore(db: Database, walk: seq<string>, i: nat)
    requires i < |walk|
    ensures Orphans(db, walk[..i + 1]) == Orphans(db, walk[..i]) + (if Orphan(db, walk[i]) then [walk[i]] else [])
    ensures Strangers(db.users, walk[..i + 1]) == Strangers(db.users, walk[..i]) + (if M.Adoptable(db, walk[i]) then 0
            else 1)
  {
    OwnedIsAdoptable(db, walk[i]);
    hide M.OwnerOf, ValidUuid;
    assert walk[..i + 1][..i] == walk[..i];
  }

  lemma {:induction false} OrphansAreWalked(db: Database, walk: seq<string>, key: string)
    requires key in Orphans(db, walk)
    ensures key in walk
  {
    if key != walk[|walk| - 1] { OrphansAreWalked(db, walk[..|walk| - 1], key); }
  }

  /** The walk visits the files in this order and reads the clock at each. Files
      without a ledger row whose owner exists are adopted as staged, up to the cap;
      nothing else changes. */
  method ReconcileStorage(s: Server, walk: seq<string>, clock: nat -> Millis)
    returns (ghost visited: nat, adopted: nat, skipped: nat, capHit: bool)
    requires NoRepeats(walk) && forall key | key in walk :: key in s.files
    modifies s`ledger
    ensures visited <= |walk| && Adopted(old(s.Db()), walk[..visited], s.files, s.ledger, clock)
    ensures adopted == |Orphans(old(s.Db()), walk[..visited])| && skipped == Strangers(s.users, walk[..visited])
    ensures adopted == |s.ledger| - |old(s.ledger)|
    ensures WellAdopted(s.users, old(s.ledger), s.files, walk[..visited], s.ledger)
    ensures adopted <= ADOPTION_LIMIT && (capHit <==> adopted == ADOPTION_LIMIT) && (!capHit ==> visited == |walk|)
  {
    hide Adopted, Orphans, Strangers, M.OwnerOf, ValidUuid, WellAdopted;
    adopted, skipped, capHit := 0, 0, false;
    ghost var db0 := s.Db();
    visited := 0;
    NothingAdopted(db0, walk, s.files, clock);
    for i := 0 to |walk|
      invariant visited == i && !capHit && adopted < ADOPTION_LIMIT && s.users == db0.users
      invariant Adopted(db0, walk[..i], s.files, s.ledger, clock)
      invariant |s.ledger| == |db0.ledger| + adopted
      invariant adopted == |Orphans(db0, walk[..i])| && skipped == Strangers(db0.users, walk[..i])
    {
      OneMore(db0, walk, i);
      AdoptedGrows(db0, walk, s.files, s.Db(), clock, i);
      var visit := VisitFile(s, walk[i], clock(i));
      visited := i + 1;
      match visit {
        case Skipped => skipped := skipped + 1;
        case Known =>
        case Taken =>
          adopted := adopted + 1;
          if adopted == ADOPTION_LIMIT {
            capHit := true;
            AdoptsWell(db0, walk[..visited], s.files, s.ledger, clock);
            return;
          }
      }
    }
    AdoptsWell(db0, walk[..visited], s.files, s.ledger, clock);
  }

  lemma NothingAdopted(db: Database, walk: seq<string>, files: map<string, seq<byte>>, clock: nat -> Millis)
    ensures Adopted(db, walk[..0], files, db.ledger, clock) && Orphans(db, walk[..0]) == [] &&
            Strangers(db.users, walk[..0]) == 0
  {
  }

  // ---- Result expiry ----------------------------------------------------------------

  method ExpireMutationResults(s: Server, engine: Engine, now: Millis) returns (pendingExpired: nat, otherExpired: nat)
    modifies s`results
    ensures s.Db() == M.ExpireOtherTx(M.ExpirePendingTx(old(s.Db()), engine, now), engine, now)
    ensures pendingExpired + otherExpired == |old(s.results)| - |s.results|
    ensures pendingExpired == |set k | k in old(s.results) && M.PendingExpired(engine, old(s.results)[k], now)|
  {
    hide M.PendingExpired, M.OtherExpired;
    ghost var results0 := s.results;
    var stale := set k | k in s.results && M.PendingExpired(engine, s.results[k], now);
    s.results := map k | k in s.results && !M.PendingExpired(engine, s.results[k], now) :: s.results[k];
    pendingExpired := |stale|;
    MapSizes(results0, s.results, stale);
    ghost var results1 := s.results;
    stale := set k | k in s.results && M.OtherExpired(engine, s.results[k], now);
    s.results := map k | k in s.results && !M.OtherExpired(engine, s.results[k], now) :: s.results[k];
    otherExpired := |stale|;
    MapSizes(results1, s.results, stale);
  }

  lemma MapSizes(before: Results, after: Results, stale: set<ResultKey>)
    requires stale <= before.Keys && after.Keys == before.Keys - stale
    ensures |after| == |before| - |stale|
  {
    assert |after.Keys| == |after| && |before.Keys| == |before|;
    assert before.Keys == after.Keys + stale;
  }
}
