/** Vault keys: a compare-and-swap on the revision token of the stored key,
    whatever the clock does. */
module KeyRevision {
  import opened Tables
  import opened Timestamps
  import opened Tokens
  import opened TimestampScan

  datatype KeyInput = KeyInput(salt: string, kdf: string, vaultKey: string)
  datatype KeyMaterial = KeyMaterial(input: KeyInput, at: Instant)

  /** The key columns of a collection are set together or not at all. */
  datatype KeyRow = KeyRow(user: string, key: Option<KeyMaterial>)
  type KeyRows = map<string, KeyRow>

  /** Failed is an error from the database layer, which rolls back. */
  datatype PutKeyOutcome = PutOK | PutNotFound | PutConflict | PutNoCurrentKey | PutFailed

  /** What is stored was read back once, so it can be read. */
  predicate Readable(rows: KeyRows) {
    forall id | id in rows && rows[id].key.Some? :: Writable(rows[id].key.value.at)
  }

  function ToMilli(t: Instant): Instant { MillisOf(t) * NANOS_PER_MILLI }

  /** The clock, to the millisecond, but at least one past the stored revision. */
  function NextRevision(current: Option<KeyMaterial>, now: Instant): (next: Instant)
    ensures current.Some? ==> next > current.value.at
    ensures next >= ToMilli(now) && next == ToMilli(next)
    ensures next == ToMilli(now) || (current.Some? && next <= current.value.at + NANOS_PER_MILLI)
  {
    if current.None? then ToMilli(now)
    else
      var earliest := ToMilli(current.value.at) + NANOS_PER_MILLI;
      if ToMilli(now) < earliest then earliest else ToMilli(now)
  }

  /** What the UPDATE returns: the timestamp as written and scanned again. */
  function StoredAs(t: Instant): Option<Instant> {
    if !Dated(MillisOf(t)) then None
    else
      match Scan(Timestamp(t))
      case None => None
      case Some(millis) => Some(millis * NANOS_PER_MILLI)
  }

  lemma StoredUnchanged(t: Instant)
    ensures StoredAs(t) == if Writable(t) then Some(ToMilli(t)) else None
    ensures Writable(t) ==> Writable(ToMilli(t))
  {
    if Dated(MillisOf(t)) { ScanOfTimestamp(t); }
  }

  lemma NextStored(current: Option<KeyMaterial>, now: Instant)
    ensures var next := NextRevision(current, now); StoredAs(next) == if Writable(next) then Some(next) else None
  {
    StoredUnchanged(NextRevision(current, now));
  }

  class KeyTable {
    var rows: KeyRows

    constructor ()
      ensures rows == map[]
    {
      rows := map[];
    }

    /** Whether the collection is the user's, and its key if one is stored. */
    method GetKey(user: string, id: string) returns (found: bool, key: Option<KeyMaterial>)
      ensures found <==> ValidUuid(id) && id in rows && rows[id].user == user
      ensures key == if found then rows[id].key else None
    {
      if !ValidUuid(id) || id !in rows || rows[id].user != user { return false, None; }
      return true, rows[id].key;
    }

    method PutKey(user: string, id: string, input: KeyInput, prevToken: Option<string>, now: Instant)
        returns (outcome: PutKeyOutcome, key: Option<KeyMaterial>)
      requires Readable(rows)
      modifies this
      ensures Readable(rows) && (outcome, key, rows) == Put(old(rows), user, id, input, prevToken, now)
      ensures key.Some? ==> id in old(rows) && old(rows)[id].user == user
      ensures id !in old(rows) || old(rows)[id].user != user ==>
              outcome == PutNotFound && key == None && rows == old(rows)
      ensures KeyKept(old(rows), rows, user, id, input, prevToken, now, outcome, key)
    {
      PutIsKept(rows, user, id, input, prevToken, now);
      hide NextRevision, StoredAs, Token, Writable, ValidUuid, KeyKept;
      if !ValidUuid(id) || id !in rows || rows[id].user != user { return PutNotFound, None; }
      var current := rows[id].key;
      if prevToken.None? {
        if current.Some? { return PutOK, current; }
      } else {
        if current.None? { return PutNoCurrentKey, None; }
        if Token(current.value.at) != prevToken.value { return PutConflict, current; }
      }
      NextStored(current, now);
      var at := StoredAs(NextRevision(current, now));
      if at.None? { return PutFailed, None; }
      key := Some(KeyMaterial(input, at.value));
      rows := rows[id := rows[id].(key := key)];
      return PutOK, key;
    }
  }

  /** A token that fits: none for a first claim, the stored one for a rotation. */
  predicate Presents(current: Option<KeyMaterial>, prevToken: Option<string>)
    requires current.Some? ==> Writable(current.value.at)
  {
    if current.None? then prevToken.None? else prevToken == Some(Token(current.value.at))
  }

  function Put(rows: KeyRows, user: string, id: string, input: KeyInput, prevToken: Option<string>, now: Instant)
    : (r: (PutKeyOutcome, Option<KeyMaterial>, KeyRows))
    requires Readable(rows)
  {
    if !ValidUuid(id) || id !in rows || rows[id].user != user then (PutNotFound, None, rows)
    else
      var current := rows[id].key;
      if !Presents(current, prevToken) then
        if prevToken.None? then (PutOK, current, rows)
        else if current.None? then (PutNoCurrentKey, None, rows)
        else (PutConflict, current, rows)
      else
        var next := NextRevision(current, now);
        if !Writable(next) then (PutFailed, None, rows)
        else
          var key := Some(KeyMaterial(input, next));
          (PutOK, key, rows[id := rows[id].(key := key)])
  }

  /** What a caller is promised. Only the owner is ever shown a key. Without a token
      the stored key is returned, or the input stored as the first; with the stored
      key's token the input replaces it; with another token the stored key is
      returned as a conflict. Nothing else is stored. */
  predicate KeyKept(rows: KeyRows, rows': KeyRows, user: string, id: string, input: KeyInput, prevToken: Option<string>,
                    now: Instant, outcome: PutKeyOutcome, key: Option<KeyMaterial>)
    requires Readable(rows)
  {
    if !(ValidUuid(id) && id in rows && rows[id].user == user) then outcome == PutNotFound && key == None &&
      rows' == rows
    else
      var stored := rows[id].key;
      var fits := if stored.Some? then prevToken == Some(Token(stored.value.at)) else prevToken == None;
      (outcome.PutNoCurrentKey? <==> stored.None? && prevToken.Some?) &&
      (outcome.PutConflict? <==> stored.Some? && prevToken.Some? && !fits) && !outcome.PutNotFound? &&
      (outcome.PutConflict? || (stored.Some? && prevToken.None?) ==> key == stored && rows' == rows) &&
      (stored.Some? && prevToken.None? ==> outcome.PutOK?) &&
      (outcome.PutNoCurrentKey? || outcome.PutFailed? ==> key == None && rows' == rows) &&
      (fits && outcome.PutOK? ==>
        key.Some? && key.value.input == input && rows' == rows[id := KeyRow(user, key)] &&
          Stored(stored, key.value.at, now)) &&
      (fits && !outcome.PutOK? ==> outcome.PutFailed?) && (outcome.PutFailed? ==> fits && PastYear9999(stored, now))
  }

  /** The clock's millisecond, or one millisecond past the stored one if that is later. */
  predicate Stored(stored: Option<KeyMaterial>, at: Instant, now: Instant) {
    var clock := now / 1_000_000 * 1_000_000;
    at == if stored.None? then clock
          else if clock > stored.value.at / 1_000_000 * 1_000_000 then clock
            else (stored.value.at / 1_000_000 + 1) * 1_000_000
  }

  /** The revision to store, by that rule, has no four-digit year. */
  predicate PastYear9999(stored: Option<KeyMaterial>, now: Instant) {
    var clock := now / 1_000_000;
    var millis := if stored.Some? && stored.value.at / 1_000_000 >= clock then stored.value.at / 1_000_000 + 1
      else clock;
    !(Dated(millis) && YearOf(millis) < 10_000)
  }

  lemma PutIsKept(rows: KeyRows, user: string, id: string, input: KeyInput, prevToken: Option<string>, now: Instant)
    requires Readable(rows)
    ensures var (outcome, key, rows') := Put(rows, user, id, input, prevToken, now);
            KeyKept(rows, rows', user, id, input, prevToken, now, outcome, key)
  {
    hide Token, ValidUuid, YearOf, Dated;
    if id in rows { NextIsStored(rows[id].key, now); }
  }

  lemma NextIsStored(stored: Option<KeyMaterial>, now: Instant)
    ensures Stored(stored, NextRevision(stored, now), now)
    ensures !Writable(NextRevision(stored, now)) <==> PastYear9999(stored, now)
  {
    hide YearOf, Dated;
    var next := NextRevision(stored, now);
    if stored.Some? { assert MillisOf(ToMilli(stored.value.at) + NANOS_PER_MILLI) == MillisOf(stored.value.at) + 1; }
    assert MillisOf(ToMilli(now)) == MillisOf(now);
  }

  // ---- One call ---------------------------------------------------------------------

  /** From current to next: nothing, a first claim, or a replacement by a strictly
      later revision whose call presented the token of the one replaced. */
  predicate Replaces(current: Option<KeyMaterial>, next: Option<KeyMaterial>, prevToken: Option<string>)
    requires current.Some? ==> Writable(current.value.at)
  {
    next.Some? && Presents(current, prevToken) && (current.Some? ==> next.value.at > current.value.at)
  }

  lemma PutKeepsOrReplaces(rows: KeyRows, user: string, id: string, input: KeyInput, prevToken: Option<string>,
                           now: Instant)
    requires Readable(rows)
    ensures var (outcome, key, rows') := Put(rows, user, id, input, prevToken, now);
            Readable(rows') && rows'.Keys == rows.Keys &&
            (forall other | other in rows && other != id :: rows'[other] == rows[other]) &&
            (rows' != rows ==> id in rows && rows[id].user == user && outcome.PutOK? &&
                               Replaces(rows[id].key, rows'[id].key, prevToken) &&
                                 rows'[id].key.value.input == input) &&
            (outcome.PutOK? ==> id in rows' && key.Some? && key == rows'[id].key) &&
            (outcome.PutOK? && prevToken.Some? ==>
              rows'[id].key.value.input == input && Replaces(rows[id].key, rows'[id].key, prevToken))
  {
    hide Token, ToMilli, Writable, ValidUuid;
  }

  /** A claim without a token: the first one stores, and every later one gets
      what is stored, which stays. */
  lemma ClaimNeverOverwrites(rows: KeyRows, user: string, id: string, input: KeyInput, now: Instant)
    requires Readable(rows) && id in rows && ValidUuid(id) && rows[id].user == user && rows[id].key.Some?
    ensures Put(rows, user, id, input, None, now) == (PutOK, rows[id].key, rows)
  {
  }

  /** A rotation succeeds exactly on the current token, unless the year 9999 is
      over; when it does not, nothing changes. */
  lemma RotatesExactly(rows: KeyRows, user: string, id: string, input: KeyInput, token: string, now: Instant)
    requires Readable(rows) && id in rows && ValidUuid(id) && rows[id].user == user && rows[id].key.Some?
    ensures var (outcome, _, rows') := Put(rows, user, id, input, Some(token), now);
            (outcome.PutOK? <==> token == Token(rows[id].key.value.at) && Writable(NextRevision(rows[id].key, now))) &&
            (outcome.PutOK? <==> rows' != rows)
  {
    assert NextRevision(rows[id].key, now) != rows[id].key.value.at;
  }

  // ---- Runs of calls ---------------------------------------------------------------

  datatype Call = Call(user: string, id: string, input: KeyInput, prevToken: Option<string>, now: Instant)

  function PutCall(rows: KeyRows, c: Call): (r: (PutKeyOutcome, Option<KeyMaterial>, KeyRows))
    requires Readable(rows)
    ensures Readable(r.2)
  {
    PutKeepsOrReplaces(rows, c.user, c.id, c.input, c.prevToken, c.now);
    Put(rows, c.user, c.id, c.input, c.prevToken, c.now)
  }

  function Run(rows: KeyRows, calls: seq<Call>): (rows': KeyRows)
    requires Readable(rows)
    ensures Readable(rows')
  {
    if calls == [] then rows else PutCall(Run(rows, calls[..|calls| - 1]), calls[|calls| - 1]).2
  }

  lemma RunStep(rows: KeyRows, calls: seq<Call>, i: nat)
    requires Readable(rows) && i < |calls|
    ensures Run(rows, calls[..i + 1]) == PutCall(Run(rows, calls[..i]), calls[i]).2
  {
    assert calls[..i + 1][..i] == calls[..i];
  }

  /** The stored revision after i calls, and after j later ones: no earlier, and
      the same key if it is the same. */
  predicate Later(a: Option<KeyMaterial>, b: Option<KeyMaterial>) {
    a == b || (b.Some? && (a.Some? ==> a.value.at < b.value.at))
  }

  lemma {:induction false} RevisionsRise(rows: KeyRows, calls: seq<Call>, i: nat, j: nat, id: string)
    requires Readable(rows) && i <= j <= |calls| && id in rows
    ensures var (before, after) := (Run(rows, calls[..i]), Run(rows, calls[..j]));
            id in before && id in after && Later(before[id].key, after[id].key)
  {
    if i == j {
      KeysStay(rows, calls[..i]);
    } else {
      RevisionsRise(rows, calls, i, j - 1, id);
      RunStep(rows, calls, j - 1);
      var c := calls[j - 1];
      PutKeepsOrReplaces(Run(rows, calls[..j - 1]), c.user, c.id, c.input, c.prevToken, c.now);
    }
  }

  lemma {:induction false} KeysStay(rows: KeyRows, calls: seq<Call>)
    requires Readable(rows)
    ensures Run(rows, calls).Keys == rows.Keys
  {
    if calls != [] {
      KeysStay(rows, calls[..|calls| - 1]);
      var c := calls[|calls| - 1];
      PutKeepsOrReplaces(Run(rows, calls[..|calls| - 1]), c.user, c.id, c.input, c.prevToken, c.now);
    }
  }

  /** The i-th call rotated the key of this collection. */
  predicate Rotated(rows: KeyRows, calls: seq<Call>, i: nat, id: string)
    requires Readable(rows) && i < |calls|
  {
    calls[i].id == id && calls[i].prevToken.Some? && PutCall(Run(rows, calls[..i]), calls[i]).0.PutOK?
  }

  /** One token admits one rotation, in any run, under any clock. */
  lemma {:induction false} OneRotationPerToken(rows: KeyRows, calls: seq<Call>, i: nat, j: nat, id: string)
    requires Readable(rows) && i < j < |calls| && id in rows
    ensures Rotated(rows, calls, i, id) && Rotated(rows, calls, j, id) ==> calls[i].prevToken != calls[j].prevToken
  {
    if Rotated(rows, calls, i, id) && Rotated(rows, calls, j, id) {
      var (before, between) := (Run(rows, calls[..i]), Run(rows, calls[..j]));
      var (a, b) := (calls[i], calls[j]);
      KeysStay(rows, calls[..i]);
      PutKeepsOrReplaces(before, a.user, a.id, a.input, a.prevToken, a.now);
      PutKeepsOrReplaces(between, b.user, b.id, b.input, b.prevToken, b.now);
      RunStep(rows, calls, i);
      RevisionsRise(rows, calls, i + 1, j, id);
      if a.prevToken == b.prevToken {
        TokenInjective(before[id].key.value.at, between[id].key.value.at);
      }
    }
  }

  /** Whatever stands after a run was put there by a call of the run, made on the
      predecessor's token, or was there before. */
  lemma {:induction false} EveryKeyWasPresented(rows: KeyRows, calls: seq<Call>, id: string) returns (i: nat)
    requires Readable(rows) && id in rows && id in Run(rows, calls) && Run(rows, calls)[id] != rows[id]
    ensures i < |calls| && calls[i].id == id && id in Run(rows, calls[..i]) && id in Run(rows, calls[..i + 1])
    ensures Presents(Run(rows, calls[..i])[id].key, calls[i].prevToken)
    ensures Run(rows, calls[..i + 1])[id] == Run(rows, calls)[id] && Run(rows, calls)[id].key.Some?
    ensures Run(rows, calls)[id].key.value.input == calls[i].input
  {
    hide Put, Token, Writable, Readable;
    var n := |calls| - 1;
    var c := calls[n];
    var before := Run(rows, calls[..n]);
    KeysStay(rows, calls[..n]);
    PutKeepsOrReplaces(before, c.user, c.id, c.input, c.prevToken, c.now);
    assert calls[..n + 1] == calls;
    if Run(rows, calls)[id] == before[id] {
      i := EveryKeyWasPresented(rows, calls[..n], id);
      assert calls[..n][..i] == calls[..i] && calls[..n][..i + 1] == calls[..i + 1];
    } else {
      i := n;
    }
  }
}
