/** No lost wakeups: one subscription of a user, its consumer goroutine and its
    client, beside a server that keeps committing. Commits, after-commit
    callbacks, drains, event writes, pulls and the end of the subscription
    interleave at every point. */
module DoorbellRuns {
  import opened Tables
  import opened Doorbell

  datatype Event = Ready | Changed(change: Change)

  /** Where the consumer is: not subscribed; subscribed but ready not yet sent;
      in its select; between receiving the token and Drain; writing what it
      drained; gone. */
  datatype Consumer = Absent | Opening | Selecting | Woken | Writing(changes: seq<Change>) | Ended

  datatype Bell = Bell(
    current: map<string, nat>,             // the user's collections
    awaiting: multiset<Change>,            // committed, callback not yet run
    sub: Sub,
    consumer: Consumer,
    wire: seq<Event>,                      // written, not yet handled by the client
    cursors: map<string, nat>,             // the client's
    published: map<string, nat>,           // largest version published since Subscribe
    drained: map<string, nat>)             // largest version drained since Subscribe

  datatype Turn =
    | NewCollection(collection: string)
    | DropCollection(collection: string)
    | CommitMutation(collection: string)
    | RunCallback(change: Change)
    | Subscribe
    | SendReady
    | ReceiveToken
    | DrainPending(changes: seq<Change>)
    | WriteEvent
    | CloseSubscription
    | NoticeClosed
    | PullPart(collection: string, version: nat)   // a page that is not the last
    | HandleEvent

  predicate Listening(b: Bell) { !b.consumer.Absent? && !b.consumer.Ended? }

  function Raised(m: map<string, nat>, c: string, v: nat): map<string, nat> {
    if c in m && m[c] >= v then m else m[c := v]
  }

  /** The larger version per collection. */
  function Merged(a: map<string, nat>, b: map<string, nat>): map<string, nat> {
    map c | c in a.Keys + b.Keys :: if c in a && (c !in b || a[c] >= b[c]) then a[c] else b[c]
  }

  function CalledBack(b: Bell, change: Change): Bell {
    if change !in b.awaiting then b
    else
      var heard := Listening(b);
      b.(awaiting := b.awaiting - multiset{change},
         sub := if heard then Enqueued(b.sub, change.collection, change.version) else b.sub,
         published := if heard then Raised(b.published, change.collection, change.version) else b.published)
  }

  ghost function DrainedBy(b: Bell, changes: seq<Change>): Bell {
    if !b.consumer.Woken? then b
    else if b.sub.closed then b.(consumer := Ended)
    else if Lists(changes, b.sub.pending)
    then b.(consumer := Writing(changes), sub := Drained(b.sub), drained := Merged(b.drained, b.sub.pending)) else b
  }

  function WroteOne(b: Bell): Bell {
    if !b.consumer.Writing? then b
    else if b.consumer.changes == [] then b.(consumer := Selecting)
    else b.(consumer := Writing(b.consumer.changes[1..]), wire := b.wire + [Changed(b.consumer.changes[0])])
  }

  /** The client pulls everything on ready, and one collection on a change. */
  function HandledOne(b: Bell): Bell {
    if b.wire == [] then b
    else
      var rest := b.(wire := b.wire[1..]);
      match b.wire[0]
      case Ready => rest.(cursors := b.current)
      case Changed(change) =>
        if change.collection !in b.current then rest
        else rest.(cursors := b.cursors[change.collection := b.current[change.collection]])
  }

  ghost function Take(b: Bell, turn: Turn): Bell {
    match turn
    case NewCollection(c) =>
      if c in b.current || c in b.cursors then b else b.(current := b.current[c := 0], cursors := b.cursors[c := 0])
    case DropCollection(c) => b.(current := b.current - {c}, cursors := b.cursors - {c})
    case CommitMutation(c) =>
      if c !in b.current then b
      else b.(current := b.current[c := b.current[c] + 1],
        awaiting := b.awaiting + multiset{Change(c, b.current[c] + 1)})
    case RunCallback(change) => CalledBack(b, change)
    case Subscribe =>
      if Listening(b) then b
      else b.(sub := Sub(map[], false, false), consumer := Opening, wire := [], published := map[], drained := map[])
    case SendReady => if b.consumer.Opening? then b.(consumer := Selecting, wire := b.wire + [Ready]) else b
    case ReceiveToken =>
      if b.consumer.Selecting? && b.sub.token then b.(consumer := Woken, sub := b.sub.(token := false)) else b
    case DrainPending(changes) => DrainedBy(b, changes)
    case WriteEvent => WroteOne(b)
    case CloseSubscription => b.(sub := Closed(b.sub))
    case NoticeClosed => if Listening(b) && b.sub.closed then b.(consumer := Ended) else b
    case PullPart(c, v) =>
      if c in b.current && c in b.cursors && b.cursors[c] <= v <= b.current[c] then b.(cursors := b.cursors[c := v])
        else b
    case HandleEvent => HandledOne(b)
  }

  ghost function Exec(b: Bell, turns: seq<Turn>): Bell
    decreases |turns|
  {
    if turns == [] then b else Exec(Take(b, turns[0]), turns[1..])
  }

  /** Something pending is never without a token or a consumer about to drain. */
  predicate TokenHeld(b: Bell) {
    Listening(b) && !b.sub.closed && b.sub.pending != map[] ==> b.sub.token || b.consumer.Woken?
  }

  /** The larger of drained and pending covers what was published since Subscribe. */
  predicate Covered(b: Bell) {
    Listening(b) && !b.sub.closed ==>
      forall c | c in b.published ::
        (c in b.sub.pending && b.sub.pending[c] >= b.published[c]) || (c in b.drained && b.drained[c] >= b.published[c])
  }

  predicate Mentions(changes: seq<Change>, c: string) { exists i :: 0 <= i < |changes| && changes[i].collection == c }

  predicate OnWire(wire: seq<Event>, c: string) {
    exists i :: 0 <= i < |wire| && (wire[i].Ready? || wire[i].change.collection == c)
  }

  /** The client is up to date in c, or news of c is on its way. */
  predicate Notified(b: Bell, c: string) {
    (c in b.current && c in b.cursors && b.cursors[c] == b.current[c]) ||
    b.consumer.Opening? || (c in b.current && Change(c, b.current[c]) in b.awaiting) || c in b.sub.pending ||
    (b.consumer.Writing? && Mentions(b.consumer.changes, c)) || OnWire(b.wire, c)
  }

  predicate AllNotified(b: Bell) {
    Listening(b) && !b.sub.closed ==> forall c | c in b.current :: Notified(b, c)
  }

  predicate Rings(b: Bell) {
    TokenHeld(b) && Covered(b) && AllNotified(b) && b.cursors.Keys == b.current.Keys
  }

  lemma WireMoves(wire: seq<Event>, c: string)
    requires wire != [] && OnWire(wire, c)
    ensures wire[0].Ready? || wire[0].change.collection == c || OnWire(wire[1..], c)
  {
    var i :| 0 <= i < |wire| && (wire[i].Ready? || wire[i].change.collection == c);
    if i > 0 { assert wire[1..][i - 1] == wire[i]; }
  }

  lemma WireGrows(wire: seq<Event>, e: Event, c: string)
    ensures OnWire(wire, c) ==> OnWire(wire + [e], c)
    ensures e.Ready? || e.change.collection == c ==> OnWire(wire + [e], c)
  {
    if OnWire(wire, c) {
      var i :| 0 <= i < |wire| && (wire[i].Ready? || wire[i].change.collection == c);
      assert (wire + [e])[i] == wire[i];
    }
    assert (wire + [e])[|wire|] == e;
  }

  lemma MentionsMoves(changes: seq<Change>, c: string)
    requires changes != [] && Mentions(changes, c)
    ensures changes[0].collection == c || Mentions(changes[1..], c)
  {
    var i :| 0 <= i < |changes| && changes[i].collection == c;
    if i > 0 { assert changes[1..][i - 1] == changes[i]; }
  }

  lemma NotifiedWriting(b: Bell, c: string)
    requires b.consumer.Writing? && Notified(b, c)
    ensures Notified(Take(b, WriteEvent), c)
  {
    var changes := b.consumer.changes;
    if changes != [] {
      WireGrows(b.wire, Changed(changes[0]), c);
      if Mentions(changes, c) { MentionsMoves(changes, c); }
    }
  }

  lemma NotifiedHandling(b: Bell, c: string)
    requires Notified(b, c) && c in b.current
    ensures Notified(Take(b, HandleEvent), c)
  {
    if b.wire != [] && OnWire(b.wire, c) { WireMoves(b.wire, c); }
  }

  lemma NotifiedDraining(b: Bell, changes: seq<Change>, c: string)
    requires Notified(b, c) && !b.sub.closed
    ensures Notified(Take(b, DrainPending(changes)), c)
  {
    if b.consumer.Woken? && c in b.sub.pending && Lists(changes, b.sub.pending) {
      assert Change(c, b.sub.pending[c]) in changes;
      assert Mentions(changes, c);
    }
  }

  lemma NotifiedCallback(b: Bell, change: Change, c: string)
    requires Notified(b, c) && Listening(b) && !b.sub.closed
    ensures Notified(Take(b, RunCallback(change)), c)
  {
  }

  lemma NotifiedReady(b: Bell, c: string)
    requires Notified(b, c)
    ensures Notified(Take(b, SendReady), c)
  {
    if b.consumer.Opening? { WireGrows(b.wire, Ready, c); }
  }

  lemma NotifiedElsewhere(b: Bell, turn: Turn, c: string)
    requires Elsewhere(turn)
    requires Listening(b) && c in b.current ==> Notified(b, c)
    requires Listening(Take(b, turn)) && c in Take(b, turn).current && b.cursors.Keys == b.current.Keys
    ensures Notified(Take(b, turn), c)
  {
  }

  predicate Elsewhere(turn: Turn) {
    turn.NewCollection? || turn.DropCollection? || turn.CommitMutation? || turn.Subscribe? || turn.ReceiveToken? ||
      turn.PullPart?
  }

  lemma CallbackKeeps(b: Bell, change: Change)
    ensures var b' := CalledBack(b, change);
            b'.consumer == b.consumer && b'.current == b.current && b'.cursors == b.cursors &&
            b'.sub.closed == b.sub.closed
  {
    hide Raised, Listening, Enqueued;
    if change in b.awaiting {
      assert CalledBack(b, change).consumer == b.consumer;
    }
  }

  lemma DrainKeeps(b: Bell, changes: seq<Change>)
    ensures var b' := DrainedBy(b, changes);
            b'.current == b.current && b'.cursors == b.cursors && b'.sub.closed == b.sub.closed &&
              (Listening(b') ==> Listening(b))
  {
    hide Merged, Lists;
  }

  lemma WriteKeeps(b: Bell)
    ensures SameHearing(b, WroteOne(b)) && WroteOne(b).current == b.current && WroteOne(b).cursors == b.cursors
    ensures WroteOne(b).sub == b.sub && (WroteOne(b).consumer.Woken? <==> b.consumer.Woken?)
  {
  }

  lemma HandleKeeps(b: Bell)
    ensures SameHearing(b, HandledOne(b)) && HandledOne(b).current == b.current
    ensures HandledOne(b).sub == b.sub && HandledOne(b).consumer == b.consumer
  {
  }

  /** The other turns open nothing and add no collection. */
  lemma OpenBefore(b: Bell, turn: Turn)
    requires !Elsewhere(turn) && Listening(Take(b, turn)) && !Take(b, turn).sub.closed
    ensures Listening(b) && !b.sub.closed && Take(b, turn).current == b.current && !turn.CloseSubscription?
  {
    hide CalledBack, DrainedBy, WroteOne, HandledOne;
    match turn
    case RunCallback(change) => CallbackKeeps(b, change);
    case DrainPending(changes) => DrainKeeps(b, changes);
    case WriteEvent => WriteKeeps(b);
    case HandleEvent => HandleKeeps(b);
    case SendReady =>
    case CloseSubscription =>
    case NoticeClosed =>
  }

  lemma NotifiedTurn(b: Bell, turn: Turn, c: string)
    requires AllNotified(b) && b.cursors.Keys == b.current.Keys
    requires Listening(Take(b, turn)) && !Take(b, turn).sub.closed && c in Take(b, turn).current
    ensures Notified(Take(b, turn), c)
  {
    if Elsewhere(turn) {
      hide Notified;
      NotifiedElsewhere(b, turn, c);
    } else {
      OpenBefore(b, turn);
      NotifiedHere(b, turn, c);
    }
  }

  lemma NotifiedHere(b: Bell, turn: Turn, c: string)
    requires !Elsewhere(turn) && Notified(b, c) && c in b.current && Listening(b) && !b.sub.closed &&
             !turn.CloseSubscription?
    ensures Notified(Take(b, turn), c)
  {
    match turn
    case SendReady => NotifiedReady(b, c);
    case WriteEvent => if b.consumer.Writing? { NotifiedWriting(b, c); }
    case HandleEvent => NotifiedHandling(b, c);
    case DrainPending(changes) => NotifiedDraining(b, changes, c);
    case RunCallback(change) => NotifiedCallback(b, change, c);
    case NoticeClosed =>
  }

  lemma RingsTurn(b: Bell, turn: Turn)
    requires Rings(b)
    ensures Rings(Take(b, turn))
  {
    var b' := Take(b, turn);
    if Listening(b') && !b'.sub.closed {
      forall c | c in b'.current ensures Notified(b', c) { NotifiedTurn(b, turn, c); }
    }
    CoveredTurn(b, turn);
    CursorsTurn(b, turn);
    TokenTurn(b, turn);
  }

  lemma CoveredDraining(b: Bell, changes: seq<Change>)
    requires Covered(b)
    ensures Covered(Take(b, DrainPending(changes)))
  {
  }

  lemma CoveredCallback(b: Bell, change: Change)
    requires Covered(b)
    ensures Covered(Take(b, RunCallback(change)))
  {
  }

  /** The turns that neither publish, drain nor open or close the subscription. */
  predicate Apart(turn: Turn) {
    turn.NewCollection? || turn.DropCollection? || turn.CommitMutation? || turn.SendReady? || turn.ReceiveToken? ||
    turn.WriteEvent? || turn.PullPart? || turn.HandleEvent?
  }

  predicate SameHearing(b: Bell, b': Bell) {
    b'.published == b.published && b'.drained == b.drained && b'.sub.pending == b.sub.pending &&
      b'.sub.closed == b.sub.closed &&
    (Listening(b') <==> Listening(b))
  }

  lemma ApartTurn(b: Bell, turn: Turn)
    requires Apart(turn)
    ensures SameHearing(b, Take(b, turn))
  {
    hide CalledBack, DrainedBy, WroteOne, HandledOne;
    match turn
    case WriteEvent => WriteKeeps(b);
    case HandleEvent => HandleKeeps(b);
    case _ =>
  }

  lemma CoveredTurn(b: Bell, turn: Turn)
    requires Covered(b)
    ensures Covered(Take(b, turn))
  {
    if Apart(turn) {
      ApartTurn(b, turn);
    } else {
      match turn
      case DrainPending(changes) => CoveredDraining(b, changes);
      case RunCallback(change) => CoveredCallback(b, change);
      case Subscribe =>
      case CloseSubscription =>
      case NoticeClosed =>
    }
  }

  lemma CursorsTurn(b: Bell, turn: Turn)
    requires b.cursors.Keys == b.current.Keys
    ensures Take(b, turn).cursors.Keys == Take(b, turn).current.Keys
  {
    hide CalledBack, DrainedBy, WroteOne, Listening;
    match turn
    case RunCallback(change) => CallbackKeeps(b, change);
    case DrainPending(changes) => DrainKeeps(b, changes);
    case WriteEvent => WriteKeeps(b);
    case _ =>
  }

  lemma TokenCallback(b: Bell, change: Change)
    requires TokenHeld(b)
    ensures TokenHeld(CalledBack(b, change))
  {
    hide Raised;
  }

  lemma TokenDrain(b: Bell, changes: seq<Change>)
    requires TokenHeld(b)
    ensures TokenHeld(DrainedBy(b, changes))
  {
    hide Merged, Lists;
  }

  /** No turn but a receive takes the token, and no turn but a drain ends Woken. */
  lemma TokenTurn(b: Bell, turn: Turn)
    requires TokenHeld(b)
    ensures TokenHeld(Take(b, turn))
  {
    hide CalledBack, DrainedBy, WroteOne, HandledOne;
    match turn
    case RunCallback(change) => TokenCallback(b, change);
    case DrainPending(changes) => TokenDrain(b, changes);
    case WriteEvent => WriteKeeps(b);
    case HandleEvent => HandleKeeps(b);
    case _ =>
  }

  lemma {:induction false} RingsInEveryRun(b: Bell, turns: seq<Turn>)
    requires Rings(b)
    ensures Rings(Exec(b, turns))
    decreases |turns|
  {
    if turns != [] {
      RingsTurn(b, turns[0]);
      RingsInEveryRun(Take(b, turns[0]), turns[1..]);
    }
  }

  /** Nothing is under way, and the stream is still open. */
  predicate Quiescent(b: Bell) {
    b.awaiting == multiset{} && b.wire == [] && b.consumer == Selecting && !b.sub.token && !b.sub.closed
  }

  /** A client that pulls on ready and on every change is up to date in every
      collection whenever nothing is under way. */
  lemma NoLostWakeup(current: map<string, nat>, awaiting: multiset<Change>, cursors: map<string, nat>, turns: seq<Turn>)
    requires cursors.Keys == current.Keys
    requires Quiescent(Exec(Bell(current, awaiting, Sub(map[], false, false), Absent, [], cursors, map[], map[]),
             turns))
    ensures var b := Exec(Bell(current, awaiting, Sub(map[], false, false), Absent, [], cursors, map[], map[]), turns);
      b.cursors == b.current
  {
    var start := Bell(current, awaiting, Sub(map[], false, false), Absent, [], cursors, map[], map[]);
    RingsInEveryRun(start, turns);
    var b := Exec(start, turns);
    forall c | c in b.current ensures c in b.cursors && b.cursors[c] == b.current[c] {
      assert Notified(b, c);
    }
  }
}
