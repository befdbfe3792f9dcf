/** Pull pages: the rows objects.List answers with, in order and complete. */
module Pages {
  import opened Tables

  /** SQL's text order. */
  predicate TextBefore(a: string, b: string) {
    if b == "" then false
    else if a == "" then true
    else a[0] < b[0] || (a[0] == b[0] && TextBefore(a[1..], b[1..]))
  }

  /** ORDER BY change_seq, id. */
  predicate Before(a: Object, b: Object) {
    a.changeSeq < b.changeSeq || (a.changeSeq == b.changeSeq && TextBefore(a.id, b.id))
  }

  /** The ids a pull from this cursor selects. */
  function Selected(objects: Objects, user: string, collection: string, since: int): set<string> {
    set id | id in objects && objects[id].collection == collection && objects[id].user == user &&
      objects[id].changeSeq > since
  }

  /** rows are the first rows of the selection, all of them unless hasMore. */
  predicate IsPage(objects: Objects, user: string, collection: string, since: int, limit: Option<nat>,
                   rows: seq<Object>, hasMore: bool)
  {
    var selected := Selected(objects, user, collection, since);
    (forall i | 0 <= i < |rows| :: rows[i].id in selected && rows[i] == objects[rows[i].id]) &&
    (forall i, j | 0 <= i < j < |rows| :: Before(rows[i], rows[j])) &&
    (hasMore ==> limit.Some? && |rows| == limit.value) && (limit.Some? ==> |rows| <= limit.value) &&
    (hasMore <==> exists id :: id in selected && objects[id] !in rows) &&
    (forall id, i | id in selected && objects[id] !in rows && 0 <= i < |rows| :: Before(rows[i], objects[id]))
  }

  lemma {:induction false} TextIrreflexive(a: string)
    ensures !TextBefore(a, a)
  {
    if a != "" { TextIrreflexive(a[1..]); }
  }

  lemma PageIdsDiffer(objects: Objects, user: string, collection: string, since: int, limit: Option<nat>,
                      rows: seq<Object>, hasMore: bool, j: nat, k: nat)
    requires IsPage(objects, user, collection, since, limit, rows, hasMore) && j < k < |rows|
    ensures rows[j].id != rows[k].id
  {
    assert Before(rows[j], rows[k]);
    TextIrreflexive(rows[j].id);
  }

  lemma {:induction false} TextTotal(a: string, b: string)
    ensures a == b || TextBefore(a, b) || TextBefore(b, a)
  {
    if a != "" && b != "" {
      if a[0] == b[0] {
        TextTotal(a[1..], b[1..]);
        assert a == [a[0]] + a[1..] && b == [b[0]] + b[1..];
      }
    }
  }

  lemma {:induction false} TextTransitive(a: string, b: string, c: string)
    requires TextBefore(a, b) && TextBefore(b, c)
    ensures TextBefore(a, c)
  {
    if a != "" && a[0] == b[0] == c[0] { TextTransitive(a[1..], b[1..], c[1..]); }
  }

  method FirstInText(keys: set<string>) returns (first: string)
    requires keys != {}
    ensures first in keys && forall key | key in keys && key != first :: TextBefore(first, key)
  {
    first :| first in keys;
    var rest := keys - {first};
    while rest != {}
      invariant rest <= keys && first in keys && first !in rest
      invariant forall key | key in keys - rest && key != first :: TextBefore(first, key)
      decreases rest
    {
      var next :| next in rest;
      TextTotal(first, next);
      if TextBefore(next, first) {
        forall key | key in keys - rest && key != first ensures TextBefore(next, key) {
          TextTransitive(next, first, key);
        }
        first := next;
      }
      rest := rest - {next};
    }
  }

  lemma BeforeTransitive(a: Object, b: Object, c: Object)
    requires Before(a, b) && Before(b, c)
    ensures Before(a, c)
  {
    if a.changeSeq == b.changeSeq == c.changeSeq { TextTransitive(a.id, b.id, c.id); }
  }

  lemma BeforeTotal(a: Object, b: Object)
    ensures a.id == b.id || Before(a, b) || Before(b, a)
  {
    TextTotal(a.id, b.id);
  }

  lemma LastIsLeftOut(rows: seq<Object>)
    requires rows != [] && forall i, j | 0 <= i < j < |rows| :: Before(rows[i], rows[j])
    ensures rows[|rows| - 1] !in rows[..|rows| - 1]
  {
    if i :| 0 <= i < |rows| - 1 && rows[i] == rows[|rows| - 1] {
      assert Before(rows[i], rows[|rows| - 1]);
      TextIrreflexive(rows[i].id);
    }
  }

  /** rows are the earliest of the selected, in order, and these remain. */
  ghost predicate Taken(objects: Objects, selected: set<string>, rows: seq<Object>, remaining: set<string>)
    requires selected <= objects.Keys
  {
    remaining <= selected &&
    (forall i | 0 <= i < |rows| :: rows[i].id in selected - remaining && rows[i] == objects[rows[i].id]) &&
    (forall id | id in selected - remaining :: objects[id] in rows) &&
    (forall i, j | 0 <= i < j < |rows| :: Before(rows[i], rows[j])) &&
    (forall i, id | 0 <= i < |rows| && id in remaining :: Before(rows[i], objects[id]))
  }

  lemma NoneTaken(objects: Objects, selected: set<string>)
    requires selected <= objects.Keys
    ensures Taken(objects, selected, [], selected)
  {
  }

  lemma TakeNext(objects: Objects, selected: set<string>, rows: seq<Object>, remaining: set<string>, next: string)
    requires selected <= objects.Keys && Taken(objects, selected, rows, remaining)
    requires next in remaining && objects[next].id == next
    requires forall id | id in remaining && id != next :: Before(objects[next], objects[id])
    ensures Taken(objects, selected, rows + [objects[next]], remaining - {next})
  {
    hide Before;
  }

  /** Reading one row more than the limit tells whether there are more. */
  lemma TakenIsPage(objects: Objects, user: string, collection: string, since: int, limit: Option<nat>,
                    rows: seq<Object>, remaining: set<string>)
    requires Taken(objects, Selected(objects, user, collection, since), rows, remaining)
    requires remaining == {} || (limit.Some? && |rows| == limit.value + 1)
    requires limit.Some? ==> |rows| <= limit.value + 1
    ensures var hasMore := limit.Some? && |rows| > limit.value;
            IsPage(objects, user, collection, since, limit, if hasMore then rows[..limit.value] else rows, hasMore)
  {
    hide Before;
    if limit.Some? && |rows| > limit.value {
      LastIsLeftOut(rows);
      assert objects[rows[limit.value].id] == rows[limit.value];
    }
  }

  /** Every row of a page is a whole row of the collection after the cursor; without
      more there is no other. */
  lemma PageIsWhole(objects: Objects, user: string, collection: string, since: int, limit: Option<nat>,
                    rows: seq<Object>, hasMore: bool)
    requires IsPage(objects, user, collection, since, limit, rows, hasMore)
    ensures forall o | o in rows ::
      o.id in objects && o == objects[o.id] && o.collection == collection && o.user == user && o.changeSeq > since
    ensures !hasMore ==>
      forall id | id in objects && objects[id].collection == collection && objects[id].user == user &&
                  objects[id].changeSeq > since :: objects[id] in rows
  {
    hide Before;
    forall id | !hasMore && id in objects && objects[id].collection == collection && objects[id].user == user &&
                objects[id].changeSeq > since
      ensures objects[id] in rows
    {
      assert id in Selected(objects, user, collection, since);
    }
  }
}
