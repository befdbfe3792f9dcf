/** The sync doorbell: a hub fans notifications out to subscriptions, each of
    which coalesces them and keeps one wake token. */
module Doorbell {
  import opened Tables
  import opened Pages

  datatype Change = Change(collection: string, version: nat)

  /** A subscription as a value: what is pending, whether a token is buffered. */
  datatype Sub = Sub(pending: map<string, nat>, token: bool, closed: bool)

  function Enqueued(s: Sub, collection: string, version: nat): (r: Sub)
    ensures r.closed == s.closed
  {
    if s.closed then s
    else
      s.(pending := if collection in s.pending && s.pending[collection] >= version then s.pending
        else s.pending[collection := version],
         token := true)
  }

  function Drained(s: Sub): Sub { if s.closed then s else s.(pending := map[]) }

  function Closed(s: Sub): Sub { s.(closed := true) }

  /** The notifications of one user, in order. */
  function EnqueuedAll(s: Sub, user: string, notes: seq<Note>): Sub {
    if notes == [] then s
    else
      var last, before := notes[|notes| - 1], EnqueuedAll(s, user, notes[..|notes| - 1]);
      if last.user == user then Enqueued(before, last.collection, last.version) else before
  }

  /** changes lists the pending versions once each, in collection order. */
  ghost predicate Lists(changes: seq<Change>, pending: map<string, nat>) {
    (forall i | 0 <= i < |changes| ::
      changes[i].collection in pending && changes[i].version == pending[changes[i].collection]) &&
    (forall c | c in pending :: Change(c, pending[c]) in changes) &&
    (forall i, j | 0 <= i < j < |changes| :: TextBefore(changes[i].collection, changes[j].collection))
  }

  class Subscription {
    const user: string
    var pending: map<string, nat>
    var token: bool         // the wake channel's one buffered value
    var wakeClosed: bool    // whether the wake channel was closed
    var closed: bool

    predicate Valid()
      reads this
    {
      wakeClosed == closed
    }

    function State(): Sub
      reads this
    {
      Sub(pending, token, closed)
    }

    constructor (user: string)
      ensures Valid() && this.user == user && State() == Sub(map[], false, false)
    {
      this.user := user;
      pending, token, wakeClosed, closed := map[], false, false, false;
    }

    /** A send on a closed channel would panic, so the caller must rule it out. */
    method TrySend()
      requires !wakeClosed
      modifies this`token
      ensures token
    {
      if !token { token := true; }
    }

    /** So would closing it twice. */
    method CloseWake()
      requires !wakeClosed
      modifies this`wakeClosed
      ensures wakeClosed
    {
      wakeClosed := true;
    }

    method Enqueue(collection: string, version: nat)
      requires Valid()
      modifies this
      ensures Valid() && State() == Enqueued(old(State()), collection, version)
    {
      if closed { return; }
      if collection !in pending || version > pending[collection] {
        pending := pending[collection := version];
      }
      TrySend();
    }

    method Close()
      requires Valid()
      modifies this
      ensures Valid() && State() == Closed(old(State()))
    {
      if closed { return; }
      closed := true;
      CloseWake();
    }

    method Drain() returns (changes: seq<Change>, open: bool)
      requires Valid()
      modifies this`pending
      ensures Valid() && open == !closed && State() == Drained(old(State()))
      ensures if open then Lists(changes, old(pending)) else changes == []
    {
      if closed { return [], false; }
      changes, open := [], true;
      var rest := pending.Keys;
      while rest != {}
        invariant rest <= pending.Keys && pending == old(pending)
        invariant forall i | 0 <= i < |changes| ::
                  changes[i].collection in pending.Keys - rest && changes[i].version == pending[changes[i].collection]
        invariant forall c | c in pending.Keys - rest :: Change(c, pending[c]) in changes
        invariant forall i, j | 0 <= i < j < |changes| :: TextBefore(changes[i].collection, changes[j].collection)
        invariant forall i, c | 0 <= i < |changes| && c in rest :: TextBefore(changes[i].collection, c)
        decreases rest
      {
        var next := FirstInText(rest);
        changes := changes + [Change(next, pending[next])];
        rest := rest - {next};
      }
      pending := map[];
    }
  }

  class Hub {
    var subscribers: map<string, set<Subscription>>

    function All(): set<Subscription>
      reads this
    {
      set user, sub | user in subscribers && sub in subscribers[user] :: sub
    }

    function Of(user: string): set<Subscription>
      reads this
    {
      if user in subscribers then subscribers[user] else {}
    }

    ghost predicate Valid()
      reads this, All()
    {
      forall user, sub | user in subscribers && sub in subscribers[user] :: sub.user == user && sub.Valid()
    }

    constructor ()
      ensures Valid() && subscribers == map[]
    {
      subscribers := map[];
    }

    method Subscribe(user: string) returns (sub: Subscription)
      requires Valid()
      modifies this
      ensures Valid() && fresh(sub) && sub.user == user && sub.State() == Sub(map[], false, false)
      ensures Of(user) == old(Of(user)) + {sub}
      ensures forall other | other != user :: Of(other) == old(Of(other))
    {
      sub := new Subscription(user);
      subscribers := subscribers[user := Of(user) + {sub}];
    }

    method Unsubscribe(sub: Subscription)
      requires Valid() && sub.Valid()
      modifies this, sub
      ensures Valid() && sub.Valid() && sub.State() == Closed(old(sub.State()))
      ensures forall user :: Of(user) == old(Of(user)) - (if user == sub.user then {sub} else {})
    {
      if sub.user in subscribers {
        var rest := subscribers[sub.user] - {sub};
        subscribers := if rest == {} then subscribers - {sub.user} else subscribers[sub.user := rest];
      }
      sub.Close();
    }

    /** Every subscription of the owning user gets the notification, and no other. */
    method Publish(note: Note)
      requires Valid()
      modifies Of(note.user)
      ensures Valid() && forall sub | sub in Of(note.user) ::
              sub.State() == Enqueued(old(sub.State()), note.collection, note.version)
    {
      var rest := Of(note.user);
      while rest != {}
        invariant rest <= Of(note.user) && Valid()
        invariant forall sub | sub in Of(note.user) ::
          sub.State() == if sub in rest then old(sub.State())
            else Enqueued(old(sub.State()), note.collection, note.version)
        decreases rest
      {
        var sub :| sub in rest;
        sub.Enqueue(note.collection, note.version);
        rest := rest - {sub};
      }
    }

    /** Every subscription ends. */
    method CloseAll()
      requires Valid()
      modifies this, All()
      ensures Valid() && subscribers == map[]
      ensures forall sub | sub in old(All()) :: sub.Valid() && sub.State() == Closed(old(sub.State()))
    {
      var rest := All();
      subscribers := map[];
      while rest != {}
        invariant rest <= old(All()) && subscribers == map[]
        invariant forall sub | sub in old(All()) :: sub.Valid() && sub.State() == if sub in rest then old(sub.State())
                  else Closed(old(sub.State()))
        decreases rest
      {
        var sub :| sub in rest;
        sub.Close();
        rest := rest - {sub};
      }
    }
  }

  /** A transaction's after-commit list. Callbacks run in order, and only after
      the commit itself succeeded. */
  class Tx {
    var afterCommit: seq<Note>

    constructor ()
      ensures afterCommit == []
    {
      afterCommit := [];
    }

    method AfterCommit(note: Note)
      modifies this
      ensures afterCommit == old(afterCommit) + [note]
    {
      afterCommit := afterCommit + [note];
    }

    method Commit(hub: Hub, committed: bool) returns (ok: bool)
      requires hub.Valid()
      modifies hub.All()
      ensures hub.Valid() && ok == committed
      ensures forall sub | sub in hub.All() ::
        sub.State() == if ok then EnqueuedAll(old(sub.State()), sub.user, afterCommit) else old(sub.State())
    {
      if !committed { return false; }
      for i := 0 to |afterCommit|
        invariant hub.Valid()
        invariant forall sub | sub in hub.All() ::
                  sub.State() == EnqueuedAll(old(sub.State()), sub.user, afterCommit[..i])
      {
        assert afterCommit[..i + 1][..i] == afterCommit[..i];
        hub.Publish(afterCommit[i]);
      }
      assert afterCommit[..|afterCommit|] == afterCommit;
      return true;
    }
  }
}
