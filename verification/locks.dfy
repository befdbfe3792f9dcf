/** Prefix visibility on the engine with row locks. A mutation locks its
    collection's row, bumps the cursor, writes one object and commits or rolls
    back; other transactions interleave at every point. A snapshot is the
    committed rows at any moment. */
module Locks {
  import opened Tables

  datatype Phase = Locked | Bumped(version: nat) | Written(version: nat, id: string)

  datatype Txn = Txn(collection: string, phase: Phase)

  /** A committed object row, as far as ordering goes. */
  datatype Place = Place(collection: string, changeSeq: nat)

  datatype Engine = Engine(
    cursors: map<string, nat>,            // committed current_version
    rows: map<string, Place>,             // committed objects
    holders: map<string, nat>,            // collection row locks
    running: map<nat, Txn>,
    accepted: map<string, seq<string>>)   // the object each version of a collection went to

  datatype Move =
    | LockCollection(t: nat, collection: string)
    | BumpCursor(t: nat)
    | WriteObject(t: nat, id: string)
    | Commit(t: nat)
    | Rollback(t: nat)

  function Released(e: Engine, t: nat): Engine
    requires t in e.running
  {
    e.(running := e.running - {t}, holders := e.holders - {e.running[t].collection})
  }

  function Step(e: Engine, move: Move): Engine {
    match move
    case LockCollection(t, c) =>
      if t in e.running || c !in e.cursors || c in e.holders then e
      else e.(running := e.running[t := Txn(c, Locked)], holders := e.holders[c := t])
    case BumpCursor(t) =>
      if t !in e.running || !e.running[t].phase.Locked? || e.running[t].collection !in e.cursors then e
      else
        var c := e.running[t].collection;
        e.(running := e.running[t := Txn(c, Bumped(e.cursors[c] + 1))])
    case WriteObject(t, id) =>
      if t !in e.running || !e.running[t].phase.Bumped? ||
        (id in e.rows && e.rows[id].collection != e.running[t].collection) then e
      else e.(running := e.running[t := e.running[t].(phase := Written(e.running[t].phase.version, id))])
    case Commit(t) =>
      if t !in e.running || e.running[t].phase.Bumped? then e
      else
        (match e.running[t].phase
         case Written(version, id) =>
           var c := e.running[t].collection;
           if id in e.rows && e.rows[id].collection != c then e
           else
             Released(e, t).(cursors := e.cursors[c := version], rows := e.rows[id := Place(c, version)],
                             accepted := e.accepted[c := AcceptedIn(e, c) + [id]])
         case _ => Released(e, t))
    case Rollback(t) => if t in e.running then Released(e, t) else e
  }

  function Exec(e: Engine, moves: seq<Move>): Engine
    decreases |moves|
  {
    if moves == [] then e else Exec(Step(e, moves[0]), moves[1..])
  }

  function AcceptedIn(e: Engine, c: string): seq<string> {
    if c in e.accepted then e.accepted[c] else []
  }

  function NewVersion(phase: Phase): nat {
    match phase
    case Locked => 0
    case Bumped(version) => version
    case Written(version, _) => version
  }

  /** Each running transaction holds its collection alone, and its new version is
      the one after everything committed there. */
  predicate Serial(e: Engine) {
    forall t | t in e.running ::
      e.running[t].collection in e.cursors && e.running[t].collection in e.holders &&
        e.holders[e.running[t].collection] == t &&
      (!e.running[t].phase.Locked? ==> NewVersion(e.running[t].phase) == e.cursors[e.running[t].collection] + 1)
  }

  /** The row carries the last version its object got. */
  predicate Latest(accepted: seq<string>, id: string, changeSeq: nat) {
    1 <= changeSeq <= |accepted| && accepted[changeSeq - 1] == id && forall v | changeSeq <= v < |accepted| ::
      accepted[v] != id
  }

  /** Each version up to the cursor went to one committed mutation, and each row
      carries the version its object got last: no gap and no duplicate. */
  predicate Gapless(e: Engine) {
    (forall c | c in e.cursors :: |AcceptedIn(e, c)| == e.cursors[c]) &&
    (forall id | id in e.rows ::
      e.rows[id].collection in e.cursors && Latest(AcceptedIn(e, e.rows[id].collection), id, e.rows[id].changeSeq))
  }

  predicate Orderly(e: Engine) {
    Serial(e) && Gapless(e)
  }

  lemma SerialStep(e: Engine, move: Move)
    requires Serial(e)
    ensures Serial(Step(e, move))
  {
  }

  lemma CommitGapless(e: Engine, t: nat, c: string, version: nat, id: string)
    requires Orderly(e) && t in e.running && e.running[t] == Txn(c, Written(version, id))
    requires id in e.rows ==> e.rows[id].collection == c
    ensures Gapless(Step(e, Commit(t)))
  {
    var e' := Step(e, Commit(t));
    forall other | other in e'.rows
      ensures e'.rows[other].collection in e'.cursors &&
              Latest(AcceptedIn(e', e'.rows[other].collection), other, e'.rows[other].changeSeq)
    {
      if other != id {
        assert Latest(AcceptedIn(e, e.rows[other].collection), other, e.rows[other].changeSeq);
      }
    }
  }

  lemma GaplessStep(e: Engine, move: Move)
    requires Orderly(e)
    ensures Gapless(Step(e, move))
  {
    if move.Commit? && move.t in e.running && e.running[move.t].phase.Written? {
      var id := e.running[move.t].phase.id;
      if id in e.rows ==> e.rows[id].collection == e.running[move.t].collection {
        CommitGapless(e, move.t, e.running[move.t].collection, e.running[move.t].phase.version, id);
      }
    } else {
      var e' := Step(e, move);
      assert e'.cursors == e.cursors && e'.rows == e.rows && e'.accepted == e.accepted;
    }
  }

  lemma OrderlyStep(e: Engine, move: Move)
    requires Orderly(e)
    ensures Orderly(Step(e, move))
  {
    SerialStep(e, move);
    GaplessStep(e, move);
  }

  /** Committed change_seqs of one collection are distinct. */
  lemma SeqsDistinct(e: Engine, a: string, b: string)
    requires Gapless(e) && a in e.rows && b in e.rows && e.rows[a] == e.rows[b]
    ensures a == b
  {
    assert Latest(AcceptedIn(e, e.rows[a].collection), a, e.rows[a].changeSeq);
    assert Latest(AcceptedIn(e, e.rows[b].collection), b, e.rows[b].changeSeq);
  }

  predicate AllDistinct(rows: map<string, Place>) {
    forall a, b | a in rows && b in rows && a != b :: rows[a] != rows[b]
  }

  lemma RowsDistinct(e: Engine)
    requires Gapless(e)
    ensures AllDistinct(e.rows)
  {
    forall a, b | a in e.rows && b in e.rows && a != b ensures e.rows[a] != e.rows[b] {
      if e.rows[a] == e.rows[b] { SeqsDistinct(e, a, b); }
    }
  }

  lemma {:induction false} OrderlyInEveryRun(e: Engine, moves: seq<Move>)
    requires Orderly(e)
    ensures Orderly(Exec(e, moves))
    decreases |moves|
  {
    if moves != [] {
      OrderlyStep(e, moves[0]);
      OrderlyInEveryRun(Step(e, moves[0]), moves[1..]);
    }
  }

  /** An engine whose collections are empty and where nothing runs. */
  lemma FreshIsOrderly(e: Engine)
    requires e.rows == map[] && e.holders == map[] && e.running == map[] && e.accepted == map[]
    requires forall c | c in e.cursors :: e.cursors[c] == 0
    ensures Orderly(e)
  {
  }

  /** No snapshot shows a change_seq while a write with a smaller one in that
      collection is still uncommitted. */
  lemma PrefixVisible(e: Engine, moves: seq<Move>, id: string, t: nat)
    requires Orderly(e)
    requires var now := Exec(e, moves);
      id in now.rows && t in now.running && !now.running[t].phase.Locked? &&
        now.running[t].collection == now.rows[id].collection
    ensures var now := Exec(e, moves); now.rows[id].changeSeq < NewVersion(now.running[t].phase)
  {
    OrderlyInEveryRun(e, moves);
  }

  lemma StepComesLater(e: Engine, move: Move, id: string)
    requires Orderly(e)
    ensures var e' := Step(e, move);
      (id in e.rows ==> id in e'.rows && e'.rows[id].collection == e.rows[id].collection) &&
      (id in e'.rows && (id !in e.rows || e'.rows[id] != e.rows[id]) ==>
        e'.rows[id].changeSeq > e.cursors[e'.rows[id].collection]) &&
      e.cursors.Keys == e'.cursors.Keys && forall c | c in e.cursors :: e.cursors[c] <= e'.cursors[c]
  {
  }

  /** So what a snapshot does not show comes later than all it shows: a pull
      from the largest change_seq seen misses nothing. No two rows of a collection
      ever share a change_seq. */
  lemma {:induction false} LaterCommitsComeLater(e: Engine, moves: seq<Move>, id: string)
    requires Orderly(e)
    ensures var later := Exec(e, moves);
      Orderly(later) && AllDistinct(later.rows) && e.cursors.Keys == later.cursors.Keys &&
      (id in later.rows && (id !in e.rows || later.rows[id] != e.rows[id]) ==>
        later.rows[id].changeSeq > e.cursors[later.rows[id].collection])
    decreases |moves|
  {
    if moves == [] {
      RowsDistinct(e);
    } else {
      var next := Step(e, moves[0]);
      OrderlyStep(e, moves[0]);
      StepComesLater(e, moves[0], id);
      LaterCommitsComeLater(next, moves[1..], id);
    }
  }
}
