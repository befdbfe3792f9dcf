/** Which stored results expire. jobs.go decides on the JSON text with SQL's
    three truth values; objects.go decodes the same JSON in Go. This module
    evaluates both, on either database engine, and says for exactly which JSON
    they agree. */
module Retention {
  import opened Tables
  import M = Mutations
  import W = Worlds
  import Once = CreateOnce
  import T = Timestamps

  // ---- A stored result as JSON --------------------------------------------------

  /** One field: an integer is one Go's int can hold; Other is any other JSON
      value, with the text Postgres and the one SQLite shows for it (true and 1, for
      instance). */
  datatype Field = Absent | Null | Num(n: int) | Str(s: string) | Other(text: string, shown: string)

  /** The three fields both sides look at, under exactly these names: Go would also
      take names in other cases, which ->> does not find. Of the body, only whether
      it is there. */
  datatype Json = Json(status: Field, hasBody: bool, error: Field)

  const NOT_FOUND := "not found"
  const CONFLICT := "version conflict"
  const NOT_STAGED := "blob is not staged"
  const MISMATCH := "Mutation-Id reused for different intent"
  const MESSAGES := [NOT_FOUND, CONFLICT, NOT_STAGED, MISMATCH]

  // ---- Go ---------------------------------------------------------------------------

  /** decodeStoredResult: the status, or None for an error. */
  function Decode(j: Json): (status: Option<int>) {
    match j.status
    case Str(s) => if s == "pending" then Some(102) else None
    case Other(_, _) => None
    case Num(n) => if n != 0 && j.hasBody then Some(n) else DecodeUnwrapped(j.error)
    case _ => DecodeUnwrapped(j.error)
  }

  function DecodeUnwrapped(error: Field): (status: Option<int>) {
    match error
    case Num(_) => None
    case Other(_, _) => None
    case Str(s) =>
      if s == NOT_FOUND then Some(404) else if s in [CONFLICT, NOT_STAGED, MISMATCH] then Some(409) else Some(200)
    case _ => Some(200)
  }

  // ---- SQL --------------------------------------------------------------------------

  datatype Truth = True | False | Unknown

  /** Untext is a value that equals no text in these statements: a number, or an
      array or object. LIKE sees the text it shows. */
  datatype Value = NULL | Text(s: string) | Untext(shown: string)

  /** The ->> operator. Postgres yields text for every JSON value; SQLite yields an
      integer or real for a number, and 1 or 0 for a boolean. */
  function Extract(engine: Engine, f: Field): Value {
    match f
    case Absent => NULL
    case Null => NULL
    case Num(n) => if engine.Postgres? then Text(Decimal(n)) else Untext(Decimal(n))
    case Str(s) => Text(s)
    case Other(text, shown) => if engine.Postgres? then Text(text) else Untext(shown)
  }

  function Not(a: Truth): Truth {
    match a case True => False case False => True case Unknown => Unknown
  }

  function And(a: Truth, b: Truth): Truth {
    if a.False? || b.False? then False else if a.Unknown? || b.Unknown? then Unknown else True
  }

  function Or(a: Truth, b: Truth): Truth { Not(And(Not(a), Not(b))) }

  function Holds(b: bool): Truth { if b then True else False }

  /** v IN (texts) */
  function In(v: Value, texts: seq<string>): Truth {
    match v case NULL => Unknown case Text(s) => Holds(s in texts) case Untext(_) => False
  }

  /** v LIKE '2%' */
  function StartsWithTwo(v: Value): Truth {
    match v
    case NULL => Unknown
    case Text(s) => Holds(BeginsTwo(s))
    case Untext(shown) => Holds(BeginsTwo(shown))
  }

  predicate BeginsTwo(s: string) { s != "" && s[0] == '2' }

  function IsNull(v: Value): Truth { Holds(v.NULL?) }

  /** The predicates of the two DELETE statements, age aside. */
  function PendingRule(engine: Engine, j: Json): Truth {
    In(Extract(engine, j.status), ["102", "pending"])
  }

  function OtherRule(engine: Engine, kind: Kind, j: Json): Truth {
    var status, error := Extract(engine, j.status), Extract(engine, j.error);
    And(Or(IsNull(status), Not(In(status, ["102", "pending"]))),
        Not(And(Holds(kind.Create?),
                Or(And(Not(IsNull(status)), StartsWithTwo(status)),
                   And(IsNull(status),
                       Or(IsNull(error), Not(In(error, MESSAGES))))))))
  }

  // ---- Decimal text -----------------------------------------------------------------

  function Digits(n: nat): (s: string)
    ensures s != "" && forall i | 0 <= i < |s| :: '0' <= s[i] <= '9'
  {
    (if n < 10 then "" else Digits(n / 10)) + [T.Digit(n % 10)]
  }

  function Decimal(n: int): (s: string)
    ensures s != ""
  {
    if n < 0 then "-" + Digits(-n) else Digits(n)
  }

  lemma {:induction false} DigitsDiffer(a: nat, b: nat)
    requires Digits(a) == Digits(b)
    ensures a == b
  {
    var n := |Digits(a)| - 1;
    assert Digits(a)[n] == T.Digit(a % 10) && Digits(b)[n] == T.Digit(b % 10);
    assert a % 10 == b % 10;
    if a >= 10 && b >= 10 {
      assert Digits(a)[..n] == Digits(a / 10) && Digits(b)[..n] == Digits(b / 10);
      DigitsDiffer(a / 10, b / 10);
    }
  }

  lemma IsOneHundredTwo(n: int)
    ensures Decimal(n) == "102" <==> n == 102
    ensures Decimal(n) != "pending"
  {
    assert Digits(102) == "102" by { assert Digits(10) == "10" by { assert Digits(1) == "1"; } }
    if n < 0 {
      assert Decimal(n)[0] == '-';
    } else {
      if Decimal(n) == "102" { DigitsDiffer(n, 102); }
      assert '0' <= Digits(n)[0] <= '9';
    }
  }

  /** The numbers whose decimal text begins with 2: 2, 20 to 29, 200 to 299, ... */
  predicate TwoLed(n: int) { n == 2 || (n >= 10 && TwoLed(n / 10)) }

  lemma {:induction false} FirstDigit(n: int)
    ensures BeginsTwo(Decimal(n)) <==> TwoLed(n)
  {
    if n >= 10 {
      FirstDigit(n / 10);
      assert Digits(n)[0] == Digits(n / 10)[0];
    }
  }

  lemma ThreeDigits(n: int)
    requires 100 <= n <= 999
    ensures TwoLed(n) <==> 200 <= n < 300
  {
    assert TwoLed(n) <==> TwoLed(n / 10);
    assert TwoLed(n / 10) <==> TwoLed(n / 10 / 10);
    assert n / 10 / 10 == n / 100 && (TwoLed(n / 100) <==> n / 100 == 2);
  }

  /** What the two rules need of a number's text. */
  lemma NumberShown(n: int)
    ensures Decimal(n) == "102" <==> n == 102
    ensures Decimal(n) != "pending" && Decimal(n) !in MESSAGES
    ensures BeginsTwo(Decimal(n)) <==> TwoLed(n)
    ensures 200 <= n < 300 ==> TwoLed(n)
    ensures !TwoLed(102)
  {
    IsOneHundredTwo(n);
    FirstDigit(n);
    if 200 <= n < 300 { ThreeDigits(n); }
    ThreeDigits(102);
    assert Decimal(n)[0] == '-' || '0' <= Decimal(n)[0] <= '9';
  }

  // ---- The day rule -----------------------------------------------------------------

  /** On Postgres the statement that removes what is still pending removes exactly
      what decodes as 102, except for a 102 without a body and a status that is no
      integer yet shows as 102. On SQLite it misses the very form the coordinator
      writes, a 102 with a body, and agrees with the decoder on all other numbers. */
  lemma PendingRuleIsDecode(engine: Engine, j: Json)
    ensures (PendingRule(engine, j).True? <==> Decode(j) == Some(102)) <==>
            j.status != Str("102") &&
            match engine
            case Postgres =>
              !(j.status == Num(102) && !j.hasBody) && !(j.status.Other? && j.status.text in {"102", "pending"})
            case SQLite => !(j.status == Num(102) && j.hasBody)
  {
    hide Decimal;
    if j.status.Num? { NumberShown(j.status.n); }
  }

  // ---- The month rule ---------------------------------------------------------------

  /** What the month rule must leave alone: pending work and successful creates. */
  predicate Kept(kind: Kind, j: Json) {
    Decode(j) == Some(102) || (kind.Create? && Decode(j).Some? && 200 <= Decode(j).value < 300)
  }

  /** The forms results have had: a three-digit status with a body, the legacy
      pending marker, and a bare body whose error, if any, is a text. */
  predicate WellFormed(j: Json) {
    match j.status
    case Num(n) => 100 <= n <= 999 && j.hasBody
    case Str(s) => s == "pending"
    case Other(_, _) => false
    case _ => !j.error.Num? && !j.error.Other?
  }

  /** On SQLite the month rule also takes what the day rule could not see. */
  lemma OtherRuleIsDecode(engine: Engine, kind: Kind, j: Json)
    requires WellFormed(j)
    ensures OtherRule(engine, kind, j).True? <==> !Kept(kind, j) || (engine.SQLite? && j.status == Num(102))
  {
    hide Decimal, TwoLed;
    if j.status.Num? {
      NumberShown(j.status.n);
      ThreeDigits(j.status.n);
    }
  }

  /** No error, or a text that is none of the server's messages. */
  predicate NoKnownError(error: Field) {
    error.Absent? || error.Null? || (error.Str? && error.s !in MESSAGES)
  }

  /** The JSON of any form that the month rule judges as the decoder does.
      A number with a body: no create whose status begins with 2 outside 200 to
      299, and on SQLite no 102. A number the decoder passes over: for a create the
      first digit must say what the error says; for others it must not be the 102
      that Postgres spares. A text or other status decodes to nothing, so it must
      read neither as pending nor as a success of a create. Without a status, a
      create's error must be readable. */
  predicate JudgedAlike(engine: Engine, kind: Kind, j: Json) {
    match j.status
    case Num(n) =>
      if n != 0 && j.hasBody then
        !(engine.SQLite? && n == 102) && !(kind.Create? && TwoLed(n) && !(200 <= n < 300))
      else if kind.Create? then
        (TwoLed(n) || (engine.Postgres? && n == 102) <==> NoKnownError(j.error))
      else !(engine.Postgres? && n == 102)
    case Str(s) => s == "pending" || (s != "102" && !(kind.Create? && BeginsTwo(s)))
    case Other(text, shown) =>
      !(engine.Postgres? && text in {"102", "pending"}) &&
      !(kind.Create? && BeginsTwo(if engine.Postgres? then text else shown))
    case _ =>
      kind.Create? && (j.error.Num? || j.error.Other?) ==>
        engine.Postgres? && j.error.Other? && j.error.text in MESSAGES
  }

  lemma OtherRuleExactly(engine: Engine, kind: Kind, j: Json)
    ensures (OtherRule(engine, kind, j).True? <==> !Kept(kind, j)) <==> JudgedAlike(engine, kind, j)
  {
    if j.status.Num? {
      NumberedExactly(engine, kind, j);
    } else {
      hide Decimal, TwoLed;
      if j.error.Num? { NumberShown(j.error.n); }
    }
  }

  lemma NumberedExactly(engine: Engine, kind: Kind, j: Json)
    requires j.status.Num?
    ensures (OtherRule(engine, kind, j).True? <==> !Kept(kind, j)) <==> JudgedAlike(engine, kind, j)
  {
    hide Decimal, TwoLed;
    NumberShown(j.status.n);
  }

  /** A created row's outcome lost its body: the decoder reads the bare form as a
      success and would keep it, the month rule removes it by its status. */
  lemma StatusWithoutBody(engine: Engine)
    ensures var j := Json(Num(404), false, Absent);
            Decode(j) == Some(200) && Kept(Create, j) && OtherRule(engine, Create, j).True?
  {
    hide Decimal, TwoLed;
    NumberShown(404);
    ThreeDigits(404);
  }

  /** No row goes by both rules, whatever its JSON. */
  lemma RulesDisjoint(engine: Engine, kind: Kind, j: Json)
    ensures !(PendingRule(engine, j).True? && OtherRule(engine, kind, j).True?)
  {
  }

  /** What SQLite does with a numeric status: the day rule never finds it, and the
      month rule takes it, pending or not, unless a create's text begins with 2. */
  lemma NumbersAreNotFound(kind: Kind, j: Json)
    requires j.status.Num?
    ensures !PendingRule(SQLite, j).True?
    ensures OtherRule(SQLite, kind, j).True? <==> !(kind.Create? && TwoLed(j.status.n))
    ensures Decode(j) == Some(102) ==> Kept(kind, j) && OtherRule(SQLite, kind, j).True?
  {
    hide Decimal, TwoLed;
    NumberShown(j.status.n);
  }

  // ---- The rows the coordinator writes --------------------------------------------

  /** saveResult and prepareMutation write the status as a number beside a body. */
  function Stored(row: ResultRow): Json { Json(Num(row.result.status), true, Absent) }

  /** So on every row of a run, on either engine, the two statements delete what
      the transactions of the model delete. */
  lemma ExpiryIsTheStatements(engine: Engine, row: ResultRow, now: Millis)
    requires Once.Shaped(row)
    ensures M.PendingExpired(engine, row, now) <==>
            row.createdAt < now - M.DAY && PendingRule(engine, Stored(row)).True?
    ensures M.OtherExpired(engine, row, now) <==>
            row.createdAt < now - 30 * M.DAY && OtherRule(engine, row.kind, Stored(row)).True?
  {
    PendingRuleIsDecode(engine, Stored(row));
    OtherRuleIsDecode(engine, row.kind, Stored(row));
  }

  /** On SQLite the day statement deletes no row of a run, and the month statement
      deletes what Postgres deletes by either, a pending row 29 days later. */
  lemma SQLiteExpiresLater(row: ResultRow, now: Millis)
    requires Once.Shaped(row)
    ensures !PendingRule(SQLite, Stored(row)).True?
    ensures row.createdAt < now - 30 * M.DAY && OtherRule(SQLite, row.kind, Stored(row)).True? <==>
            M.PendingExpired(Postgres, row, now - 29 * M.DAY) || M.OtherExpired(Postgres, row, now)
  {
    hide PendingRule, OtherRule;
    PendingRuleIsDecode(SQLite, Stored(row));
    OtherRuleIsDecode(SQLite, row.kind, Stored(row));
  }

  /** docs/API.md promises that an abandoned claim becomes missing after 24 hours.
      After both statements it is missing exactly when it is a day old on Postgres,
      and thirty days old on SQLite; until then it is still pending. */
  lemma AbandonedClaim(db: Database, engine: Engine, user: string, collection: string, mid: string, now: Millis)
    requires M.CollectionFound(db, user, collection) && (user, mid) in db.results
    requires var row := db.results[(user, mid)];
             row.kind == Create && row.collection == collection && row.result.status == 102
    ensures var after := M.ExpireOtherTx(M.ExpirePendingTx(db, engine, now), engine, now);
            M.RecoverCreate(after, user, collection, mid) ==
              if db.results[(user, mid)].createdAt < now - (if engine.Postgres? then M.DAY else 30 * M.DAY)
              then M.NotFound else M.MutationPending
  {
    var expired := M.ExpirePendingTx(db, engine, now);
    var after := M.ExpireOtherTx(expired, engine, now);
    assert after.collections == db.collections;
  }

  /** A user claims a collection and reserves a create, which is abandoned; later
      the two statements run. */
  function Abandonment(user: string, collection: string, mid: string, engine: Engine, now: Millis): seq<W.Step> {
    [W.ClaimCollection(user, collection, 0), W.Prepare(user, mid, M.CreateIntent(collection), 0),
     W.ExpirePending(engine, now), W.ExpireOther(engine, now)]
  }

  /** So on a server that started empty, a claim more than a day old is still
      pending on SQLite, until it is thirty days old, and missing on Postgres. */
  lemma AbandonedInRun(user: string, collection: string, mid: string, engine: Engine, now: Millis)
    requires ValidUuid(collection) && mid != ""
    ensures var db := W.Exec(W.Empty({user}), Abandonment(user, collection, mid, engine, now)).db;
            M.CollectionFound(db, user, collection) &&
            M.RecoverCreate(db, user, collection, mid) ==
              if now > (if engine.Postgres? then M.DAY else 30 * M.DAY) then M.NotFound else M.MutationPending
  {
    hide ValidUuid;
    var steps := Abandonment(user, collection, mid, engine, now);
    var w := W.Empty({user});
    assert M.CollectionsOf(w.db, user) == {};
    var w1 := W.Next(w, steps[0]);
    var w2 := W.Next(w1, steps[1]);
    Four(w, steps[0], steps[1], steps[2], steps[3]);
    AbandonedClaim(w2.db, engine, user, collection, mid, now);
  }

  lemma Four(w: W.World, a: W.Step, b: W.Step, c: W.Step, e: W.Step)
    ensures W.Exec(w, [a, b, c, e]) == W.Next(W.Next(W.Next(W.Next(w, a), b), c), e)
  {
    hide W.Next;
    var w1, w2, w3 := W.Next(w, a), W.Next(W.Next(w, a), b), W.Next(W.Next(W.Next(w, a), b), c);
    assert [a, b, c, e][1..] == [b, c, e] && [b, c, e][1..] == [c, e] && [c, e][1..] == [e] && [e][1..] == [];
    assert W.Exec(w3, [e]) == W.Next(w3, e);
    assert W.Exec(w2, [c, e]) == W.Exec(w3, [e]);
    assert W.Exec(w1, [b, c, e]) == W.Exec(w2, [c, e]);
  }
}
