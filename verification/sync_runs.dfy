/** End to end: a running server, the event stream of one user and that user's
    replica of every collection, all at once. Each commit of the server is the
    doorbell's commit, each pull the replica's; when nothing is under way the
    replica is the server's state. */
module SyncRuns {
  import opened Tables
  import opened Mutations
  import opened Worlds
  import opened Conservation
  import opened Pages
  import opened Replica
  import B = DoorbellRuns
  import D = Doorbell

  datatype Sync = Sync(w: World, bell: B.Bell, replicas: map<string, Client>)

  /** Handle is the client's reaction to the next event on the wire, with the last
      page of each collection it pulls; Page is any other pull, also in between.
      OwnAnswer is an advance on a response to the client's own mutation. */
  datatype Move =
    | Server(step: Step)
    | Stream(turn: B.Turn)
    | Page(collection: string, limit: Option<nat>, page: seq<Object>, hasMore: bool)
    | OwnAnswer(answer: Answer)
    | Handle(pages: map<string, seq<Object>>)

  /** What a step of the server is to the doorbell of this user. */
  function TurnOf(w: World, user: string, step: Step): Option<B.Turn> {
    if step.RunCallback? then
      if step.note in w.log.queued && step.note.user == user
      then Some(B.RunCallback(D.Change(step.note.collection, step.note.version))) else None
    else
      match ChangeOf(w, step)
      case Advance(_, row) => if row.user == user then Some(B.CommitMutation(row.collection)) else None
      case NewCollection(id, collection) => if collection.user == user then Some(B.Turn.NewCollection(id)) else None
      case DropCollection(id) =>
        if id in w.db.collections && w.db.collections[id].user == user then Some(B.Turn.DropCollection(id)) else None
      case Same => None
  }

  function Replicas(replicas: map<string, Client>, user: string, turn: B.Turn): map<string, Client> {
    match turn
    case NewCollection(id) => if id in replicas then replicas else replicas[id := Client(user, id, 0, map[])]
    case DropCollection(id) => replicas - {id}
    case _ => replicas
  }

  /** The turns of the stream and its consumer. */
  predicate OfStream(turn: B.Turn) {
    turn.Subscribe? || turn.SendReady? || turn.ReceiveToken? || turn.DrainPending? || turn.WriteEvent? ||
    turn.CloseSubscription? || turn.NoticeClosed?
  }

  /** The collections the client pulls on this event. */
  function Due(bell: B.Bell): set<string> {
    if bell.wire == [] then {}
    else if bell.wire[0].Ready? then bell.current.Keys
    else bell.current.Keys * {bell.wire[0].change.collection}
  }

  predicate Answers(s: Sync, pages: map<string, seq<Object>>) {
    forall c | c in Due(s.bell) ::
      c in pages && c in s.replicas && PullPossible(Joint(s.w, s.replicas[c]), None, pages[c], false)
  }

  ghost function Served(s: Sync, user: string, w': World, turn: Option<B.Turn>): Sync {
    match turn
    case None => s.(w := w')
    case Some(turn) => Sync(w', B.Take(s.bell, turn), Replicas(s.replicas, user, turn))
  }

  ghost function Act(s: Sync, user: string, move: Move): Sync {
    match move
    case Server(step) => Served(s, user, Next(s.w, step), TurnOf(s.w, user, step))
    case Stream(turn) => if OfStream(turn) then s.(bell := B.Take(s.bell, turn)) else s
    case Page(c, limit, page, hasMore) =>
      if c in s.replicas && PullPossible(Joint(s.w, s.replicas[c]), limit, page, hasMore) then
        var client := Pulled(s.replicas[c], page);
        Sync(s.w, B.Take(s.bell, B.PullPart(c, client.cursor)), s.replicas[c := client])
      else s
    case OwnAnswer(a) =>
      var c := a.collection;
      if c in s.replicas && a in s.w.log.answers && Adjacent(s.replicas[c], a) then
        var client := Learned(s.replicas[c], a);
        Sync(s.w, B.Take(s.bell, B.PullPart(c, client.cursor)), s.replicas[c := client])
      else s
    case Handle(pages) =>
      if s.bell.wire != [] && Answers(s, pages) then
        Sync(s.w, B.Take(s.bell, B.HandleEvent),
             map c | c in s.replicas :: if c in Due(s.bell) then Pulled(s.replicas[c], pages[c]) else s.replicas[c])
      else s
  }

  ghost function Play(s: Sync, user: string, moves: seq<Move>): Sync
    decreases |moves|
  {
    if moves == [] then s else Play(Act(s, user, moves[0]), user, moves[1..])
  }

  // ---- The invariant ------------------------------------------------------------

  /** The doorbell counts what the server counts, for this user's collections. */
  predicate CountsAlike(collections: Collections, current: map<string, nat>, user: string, c: string) {
    if c in collections && collections[c].user == user then c in current && current[c] == collections[c].currentVersion
    else c !in current
  }

  ghost predicate Mirrors(w: World, bell: B.Bell, user: string) {
    (forall c :: CountsAlike(w.db.collections, bell.current, user, c)) &&
    forall c, v: nat :: bell.awaiting[D.Change(c, v)] == w.log.queued[Note(user, c, v)]
  }

  ghost predicate Follows(s: Sync, user: string, c: string)
    requires c in s.replicas
  {
    var client := s.replicas[c];
    client.user == user && client.collection == c && c in s.bell.cursors && client.cursor == s.bell.cursors[c] &&
    c in s.w.minted && Agrees(s.w.db, client)
  }

  ghost predicate Synced(s: Sync, user: string) {
    Replicable(s.w) && B.Rings(s.bell) && Mirrors(s.w, s.bell, user) && s.replicas.Keys == s.bell.current.Keys &&
    forall c | c in s.replicas :: Follows(s, user, c)
  }

  // ---- Server steps -------------------------------------------------------------

  lemma CommitQueued(log: Log, effect: Effect, user: string, mid: string, answers: set<Answer>)
    ensures Committed(log, effect, user, mid, answers).queued ==
            log.queued + (if effect.Quiet? then multiset{}
              else multiset{Note(user, effect.row.collection, effect.row.changeSeq)})
  {
  }

  /** Commits of this change queue one note, other steps but callbacks none. */
  predicate Queues(w: World, w': World, change: Change) {
    w'.log.queued == w.log.queued + if change.Advance?
      then multiset{Note(change.row.user, change.row.collection, change.row.changeSeq)} else multiset{}
  }

  lemma CreateQueues(w: World, user: string, collection: string, mid: string, key: string, prepared: bool, id: string,
                     clock: Clock)
    requires AllMinted(w)
    ensures var step := CommitCreate(user, collection, mid, key, prepared, id, clock);
            Queues(w, Next(w, step), ChangeOf(w, step))
  {
    if user in w.db.users && ValidUuid(id) && id !in w.minted {
      CreateEffect(w.db, user, collection, mid, key, prepared, id, clock);
      hide CreateTx, ValidUuid, Committed;
      var tx := CreateTx(w.db, user, collection, mid, key, prepared, id, clock);
      CommitQueued(w.log, tx.effect, user, mid, MutationAnswers(tx.outcome));
    }
  }

  lemma UpdateQueues(w: World, user: string, collection: string, id: string, mid: string, key: string,
                     version: int, prepared: bool, clock: Clock)
    requires Rooted(w.db)
    ensures var step := CommitUpdate(user, collection, id, mid, key, version, prepared, clock);
            Queues(w, Next(w, step), ChangeOf(w, step))
  {
    UpdateEffect(w.db, user, collection, id, mid, key, version, prepared, clock);
    hide UpdateTx, Committed;
    var tx := UpdateTx(w.db, user, collection, id, mid, key, version, prepared, clock);
    CommitQueued(w.log, tx.effect, user, mid, MutationAnswers(tx.outcome));
  }

  lemma DeleteQueues(w: World, user: string, collection: string, id: string, mid: string,
                     expected: Option<int>, prepared: bool, clock: Clock)
    requires Rooted(w.db)
    ensures var step := CommitDelete(user, collection, id, mid, expected, prepared, clock);
            Queues(w, Next(w, step), ChangeOf(w, step))
  {
    DeleteEffect(w.db, user, collection, id, mid, expected, prepared, clock);
    hide DeleteTx, Committed;
    var tx := DeleteTx(w.db, user, collection, id, mid, expected, prepared, clock);
    CommitQueued(w.log, tx.effect, user, mid, RemovalAnswers(collection, tx.outcome));
  }

  lemma StepQueues(w: World, step: Step)
    requires Rooted(w.db) && AllMinted(w) && !step.RunCallback?
    ensures Queues(w, Next(w, step), ChangeOf(w, step))
  {
    hide CreateTx, UpdateTx, DeleteTx, ValidUuid, Queues;
    match step
    case CommitCreate(user, collection, mid, key, prepared, id, clock) =>
      CreateQueues(w, user, collection, mid, key, prepared, id, clock);
    case CommitUpdate(user, collection, id, mid, key, version, prepared, clock) =>
      UpdateQueues(w, user, collection, id, mid, key, version, prepared, clock);
    case CommitDelete(user, collection, id, mid, expected, prepared, clock) =>
      DeleteQueues(w, user, collection, id, mid, expected, prepared, clock);
    case _ => QuietQueues(w, step);
  }

  lemma QuietQueues(w: World, step: Step)
    requires !step.RunCallback? && !step.CommitCreate? && !step.CommitUpdate? && !step.CommitDelete?
    ensures Queues(w, Next(w, step), ChangeOf(w, step))
  {
    if step.Blob? { BlobChanges(w, step.step); }
  }

  /** The doorbell goes on mirroring the server when it takes the step's turn. */
  lemma ChangeMirrored(w: World, w': World, change: Change, bell: B.Bell, user: string)
    requires AllMinted(w) && Mirrors(w, bell, user) && bell.cursors.Keys == bell.current.Keys
    requires Changes(w, w', change) && Queues(w, w', change)
    ensures match change
            case Advance(_, row) =>
              Mirrors(w', if row.user == user then B.Take(bell, B.CommitMutation(row.collection)) else bell, user)
            case NewCollection(id, collection) =>
              Mirrors(w', if collection.user == user then B.Take(bell, B.Turn.NewCollection(id)) else bell, user)
            case DropCollection(id) =>
              Mirrors(w', if w.db.collections[id].user == user then B.Take(bell, B.Turn.DropCollection(id))
                else bell, user)
            case Same => Mirrors(w', bell, user)
  {
    match change
    case Advance(_, row) => AdvanceMirrored(w, w', change, bell, user);
    case NewCollection(id, _) => NewMirrored(w, w', change, bell, user);
    case DropCollection(id) => DropMirrored(w, w', change, bell, user);
    case Same =>
      forall c ensures CountsAlike(w'.db.collections, bell.current, user, c) {
        assert CountsAlike(w.db.collections, bell.current, user, c);
      }
  }

  lemma AdvanceMirrored(w: World, w': World, change: Change, bell: B.Bell, user: string)
    requires Mirrors(w, bell, user) && change.Advance? && Changes(w, w', change) && Queues(w, w', change)
    ensures var row := change.row;
            Mirrors(w', if row.user == user then B.Take(bell, B.CommitMutation(row.collection)) else bell, user)
  {
    var row := change.row;
    assert CountsAlike(w.db.collections, bell.current, user, row.collection);
    var bell' := if row.user == user then B.Take(bell, B.CommitMutation(row.collection)) else bell;
    forall c ensures CountsAlike(w'.db.collections, bell'.current, user, c) {
      assert CountsAlike(w.db.collections, bell.current, user, c);
    }
  }

  lemma NewMirrored(w: World, w': World, change: Change, bell: B.Bell, user: string)
    requires AllMinted(w) && Mirrors(w, bell, user) && bell.cursors.Keys == bell.current.Keys
    requires change.NewCollection? && Changes(w, w', change)
    ensures Mirrors(w', if change.collection.user == user then B.Take(bell, B.Turn.NewCollection(change.id))
            else bell, user)
  {
    assert CountsAlike(w.db.collections, bell.current, user, change.id);
    var bell' := if change.collection.user == user then B.Take(bell, B.Turn.NewCollection(change.id)) else bell;
    forall c ensures CountsAlike(w'.db.collections, bell'.current, user, c) {
      assert CountsAlike(w.db.collections, bell.current, user, c);
    }
  }

  lemma DropMirrored(w: World, w': World, change: Change, bell: B.Bell, user: string)
    requires Mirrors(w, bell, user) && change.DropCollection? && Changes(w, w', change)
    ensures var id := change.id;
            Mirrors(w', if w.db.collections[id].user == user then B.Take(bell, B.Turn.DropCollection(id))
              else bell, user)
  {
    var id := change.id;
    var bell' := if w.db.collections[id].user == user then B.Take(bell, B.Turn.DropCollection(id)) else bell;
    forall c ensures CountsAlike(w'.db.collections, bell'.current, user, c) {
      assert CountsAlike(w.db.collections, bell.current, user, c);
    }
  }

  lemma CallbackMirrored(w: World, note: Note, bell: B.Bell, user: string)
    requires Mirrors(w, bell, user) && note in w.log.queued
    ensures Mirrors(Next(w, RunCallback(note)),
                    if note.user == user then B.Take(bell, B.RunCallback(D.Change(note.collection, note.version)))
                      else bell, user)
  {
    var change := D.Change(note.collection, note.version);
    B.CallbackKeeps(bell, change);
    var w' := Next(w, RunCallback(note));
    if note.user == user { assert bell.awaiting[change] == w.log.queued[note]; }
    var bell' := if note.user == user then B.CalledBack(bell, change) else bell;
    forall c ensures CountsAlike(w'.db.collections, bell'.current, user, c) {
      assert CountsAlike(w.db.collections, bell.current, user, c);
    }
  }

  predicate OfServer(turn: B.Turn) {
    turn.CommitMutation? || turn.NewCollection? || turn.DropCollection? || turn.RunCallback?
  }

  lemma ServerTurnKeeps(bell: B.Bell, turn: B.Turn, c: string)
    requires OfServer(turn) && c in bell.cursors && turn != B.Turn.DropCollection(c)
    ensures var bell' := B.Take(bell, turn); c in bell'.cursors && bell'.cursors[c] == bell.cursors[c]
  {
    if turn.RunCallback? { B.CallbackKeeps(bell, turn.change); }
    hide B.CalledBack;
  }

  /** Who knows nothing agrees with every collection at cursor 0. */
  lemma BlankAgrees(db: Database, user: string, c: string)
    requires Conserved(db)
    ensures Agrees(db, Client(user, c, 0, map[]))
  {
    var blank := Client(user, c, 0, map[]);
    forall id ensures Knows(db, blank, id) && Real(db, blank, id) {
    }
  }

  lemma TurnIsServers(w: World, user: string, step: Step)
    requires Rooted(w.db) && AllMinted(w)
    ensures TurnOf(w, user, step).Some? ==> OfServer(TurnOf(w, user, step).value)
    ensures w.minted <= Next(w, step).minted
    ensures var turn := TurnOf(w, user, step);
            turn.Some? && turn.value.NewCollection? ==> turn.value.collection in Next(w, step).minted
  {
    StepChanges(w, step);
    hide ChangeOf, Next;
  }

  lemma NewTurn(s: Sync, user: string, w': World, turn: Option<B.Turn>, c: string)
    requires c !in s.replicas && c in Served(s, user, w', turn).replicas
    ensures turn == Some(B.Turn.NewCollection(c))
  {
    hide B.Take;
  }

  /** A replica that was there before the step. */
  lemma KeptFollows(s: Sync, user: string, w': World, turn: Option<B.Turn>, c: string)
    requires c in s.replicas && Follows(s, user, c) && Agrees(w'.db, s.replicas[c]) && s.w.minted <= w'.minted
    requires (turn.Some? ==> OfServer(turn.value)) && c in Served(s, user, w', turn).replicas
    ensures Follows(Served(s, user, w', turn), user, c)
  {
    hide Agrees, B.Take;
    if turn.Some? { ServerTurnKeeps(s.bell, turn.value, c); }
  }

  /** A replica the step begins. */
  lemma NewFollows(s: Sync, user: string, w': World, turn: B.Turn, c: string)
    requires c !in s.replicas && c in Served(s, user, w', Some(turn)).replicas && c in w'.minted && Conserved(w'.db)
    requires s.replicas.Keys == s.bell.current.Keys == s.bell.cursors.Keys
    ensures Follows(Served(s, user, w', Some(turn)), user, c)
  {
    BlankAgrees(w'.db, user, c);
    hide Agrees, Conserved;
  }

  lemma ReplicaKeys(s: Sync, user: string, w': World, turn: Option<B.Turn>)
    requires s.replicas.Keys == s.bell.current.Keys == s.bell.cursors.Keys && (turn.Some? ==> OfServer(turn.value))
    ensures var s' := Served(s, user, w', turn); s'.replicas.Keys == s'.bell.current.Keys
  {
    if turn.Some? && turn.value.RunCallback? { B.CallbackKeeps(s.bell, turn.value.change); }
    hide B.CalledBack;
  }

  lemma ServerMirrors(s: Sync, user: string, step: Step)
    requires Rooted(s.w.db) && AllMinted(s.w) && Mirrors(s.w, s.bell, user) &&
             s.bell.cursors.Keys == s.bell.current.Keys
    ensures var s' := Served(s, user, Next(s.w, step), TurnOf(s.w, user, step)); Mirrors(s'.w, s'.bell, user)
  {
    if step.RunCallback? {
      if step.note in s.w.log.queued { CallbackMirrored(s.w, step.note, s.bell, user); }
    } else {
      StepChanges(s.w, step);
      StepQueues(s.w, step);
      hide Next, ChangeOf, Changes, Queues, Mirrors;
      ChangeMirrored(s.w, Next(s.w, step), ChangeOf(s.w, step), s.bell, user);
    }
  }

  lemma AgreesAfter(s: Sync, user: string, step: Step, c: string)
    requires Synced(s, user) && c in s.replicas
    ensures Agrees(Next(s.w, step).db, s.replicas[c]) && s.w.minted <= Next(s.w, step).minted
  {
    StepChanges(s.w, step);
    hide Next, ChangeOf, B.Rings, Mirrors, Agrees, Conserved, Announced, AllTruthful;
    assert Follows(s, user, c);
    ServeAgrees(s.w, Next(s.w, step), ChangeOf(s.w, step), s.replicas[c]);
  }

  lemma ConservedAfter(w: World, step: Step)
    requires Replicable(w)
    ensures Conserved(Next(w, step).db)
  {
    SoundStep(w, step);
    hide Next, Conserved;
  }

  lemma ServerKeeps(s: Sync, user: string, step: Step, c: string)
    requires Synced(s, user) && c in s.replicas && c in Act(s, user, Server(step)).replicas
    ensures Follows(Act(s, user, Server(step)), user, c)
  {
    TurnIsServers(s.w, user, step);
    AgreesAfter(s, user, step, c);
    hide Next, TurnOf, B.Take, OfServer, Conserved, Announced, AllTruthful, Mirrors, Agrees, B.Rings, Served;
    assert Follows(s, user, c);
    KeptFollows(s, user, Next(s.w, step), TurnOf(s.w, user, step), c);
  }

  lemma ServerBegins(s: Sync, user: string, step: Step, c: string)
    requires Synced(s, user) && c !in s.replicas && c in Act(s, user, Server(step)).replicas
    ensures Follows(Act(s, user, Server(step)), user, c)
  {
    TurnIsServers(s.w, user, step);
    ConservedAfter(s.w, step);
    hide Next, TurnOf, B.Take, OfServer, Conserved, Announced, AllTruthful, Mirrors, Agrees, Served;
    NewTurn(s, user, Next(s.w, step), TurnOf(s.w, user, step), c);
    NewFollows(s, user, Next(s.w, step), B.Turn.NewCollection(c), c);
  }

  lemma ServerSynced(s: Sync, user: string, step: Step)
    requires Synced(s, user)
    ensures Synced(Act(s, user, Server(step)), user)
  {
    var s' := Act(s, user, Server(step));
    forall c | c in s'.replicas ensures Follows(s', user, c) {
      if c in s.replicas { ServerKeeps(s, user, step, c); } else { ServerBegins(s, user, step, c); }
    }
    ServerMirrors(s, user, step);
    TurnIsServers(s.w, user, step);
    ReplicableStep(s.w, step);
    var turn := TurnOf(s.w, user, step);
    if turn.Some? { B.RingsTurn(s.bell, turn.value); }
    ReplicaKeys(s, user, Next(s.w, step), turn);
    hide Next, TurnOf, Mirrors, B.Take, Follows, OfServer, Replicable;
  }

  // ---- The stream and the client ------------------------------------------------

  lemma StreamKeeps(bell: B.Bell, turn: B.Turn)
    requires OfStream(turn)
    ensures var bell' := B.Take(bell, turn);
            bell'.current == bell.current && bell'.cursors == bell.cursors && bell'.awaiting == bell.awaiting
  {
    hide B.CalledBack, B.HandledOne, B.Merged, D.Lists, D.Drained, D.Closed;
  }

  lemma StreamSynced(s: Sync, user: string, turn: B.Turn)
    requires Synced(s, user)
    ensures Synced(Act(s, user, Stream(turn)), user)
  {
    if OfStream(turn) {
      StreamKeeps(s.bell, turn);
      B.RingsTurn(s.bell, turn);
      hide B.Take, B.Rings, Replicable, Agrees, OfStream;
      var s' := Act(s, user, Stream(turn));
      forall c | c in s'.replicas ensures Follows(s', user, c) { assert Follows(s, user, c); }
    }
  }

  lemma PageFollows(s: Sync, user: string, c: string, limit: Option<nat>, page: seq<Object>, hasMore: bool)
    requires Synced(s, user) && c in s.replicas && PullPossible(Joint(s.w, s.replicas[c]), limit, page, hasMore)
    ensures var client := Pulled(s.replicas[c], page);
            client.user == user && client.collection == c && Agrees(s.w.db, client) && c in s.w.minted &&
            c in s.bell.current && c in s.bell.cursors && s.bell.cursors[c] <= client.cursor <= s.bell.current[c]
  {
    assert Follows(s, user, c);
    PullAgrees(s.w.db, s.replicas[c], limit, page, hasMore);
    PageGrows(s.w.db, s.replicas[c], limit, page, hasMore);
    assert CountsAlike(s.w.db.collections, s.bell.current, user, c);
    hide B.Rings, Pulled;
  }

  lemma PageSynced(s: Sync, user: string, c: string, limit: Option<nat>, page: seq<Object>, hasMore: bool)
    requires Synced(s, user)
    ensures Synced(Act(s, user, Page(c, limit, page, hasMore)), user)
  {
    if c in s.replicas && PullPossible(Joint(s.w, s.replicas[c]), limit, page, hasMore) {
      PageFollows(s, user, c, limit, page, hasMore);
      hide Pulled, PullPossible, Agrees, Replicable, B.Rings, B.Take, Mirrors;
      ReplicaPulled(s, user, c, Pulled(s.replicas[c], page));
    }
  }

  lemma ReplicaPulled(s: Sync, user: string, c: string, client: Client)
    requires Synced(s, user) && client.user == user && client.collection == c && Agrees(s.w.db, client) &&
             c in s.w.minted
    requires c in s.replicas && c in s.bell.current && c in s.bell.cursors
    requires s.bell.cursors[c] <= client.cursor <= s.bell.current[c]
    ensures Synced(Sync(s.w, B.Take(s.bell, B.PullPart(c, client.cursor)), s.replicas[c := client]), user)
  {
    B.RingsTurn(s.bell, B.PullPart(c, client.cursor));
    PartTaken(s.bell, c, client.cursor);
    hide B.Rings, B.Take, Replicable, Agrees;
    var s' := Sync(s.w, B.Take(s.bell, B.PullPart(c, client.cursor)), s.replicas[c := client]);
    forall other | other in s'.replicas ensures Follows(s', user, other) {
      if other != c { assert Follows(s, user, other); }
    }
  }

  lemma LearnFollows(s: Sync, user: string, a: Answer)
    requires Synced(s, user) && a.collection in s.replicas && a in s.w.log.answers
    requires Adjacent(s.replicas[a.collection], a)
    ensures var c, client := a.collection, Learned(s.replicas[a.collection], a);
            client.user == user && client.collection == c && Agrees(s.w.db, client) && c in s.w.minted &&
            c in s.bell.current && c in s.bell.cursors && s.bell.cursors[c] <= client.cursor <= s.bell.current[c]
  {
    var c := a.collection;
    assert Follows(s, user, c);
    assert Truthful(s.w.db, a);
    assert CountsAlike(s.w.db.collections, s.bell.current, user, c);
    LearnAgrees(s.w.db, s.replicas[c], a);
    hide Agrees, B.Rings;
  }

  lemma LearnSynced(s: Sync, user: string, a: Answer)
    requires Synced(s, user)
    ensures Synced(Act(s, user, OwnAnswer(a)), user)
  {
    var c := a.collection;
    if c in s.replicas && a in s.w.log.answers && Adjacent(s.replicas[c], a) {
      LearnFollows(s, user, a);
      hide Learned, Adjacent, Agrees, Replicable, B.Rings, B.Take, Mirrors;
      ReplicaPulled(s, user, c, Learned(s.replicas[c], a));
    }
  }

  lemma PartTaken(bell: B.Bell, c: string, version: nat)
    requires c in bell.current && c in bell.cursors && bell.cursors[c] <= version <= bell.current[c]
    ensures B.Take(bell, B.PullPart(c, version)) == bell.(cursors := bell.cursors[c := version])
  {
  }

  lemma PageGrows(db: Database, client: Client, limit: Option<nat>, page: seq<Object>, hasMore: bool)
    requires IsPage(db.objects, client.user, client.collection, client.cursor, limit, page, hasMore)
    ensures Pulled(client, page).cursor >= client.cursor
    ensures Pulled(client, page).user == client.user && Pulled(client, page).collection == client.collection
  {
    if page != [] { assert page[|page| - 1].id in Selected(db.objects, client.user, client.collection, client.cursor); }
  }

  /** A collection of the event: the last page brings the replica up to date, as the
      doorbell says. */
  lemma DueFollows(s: Sync, user: string, pages: map<string, seq<Object>>, c: string)
    requires Synced(s, user) && s.bell.wire != [] && Answers(s, pages) && c in Due(s.bell) && c in s.replicas
    ensures var client, bell' := Pulled(s.replicas[c], pages[c]), B.Take(s.bell, B.HandleEvent);
            client.user == user && client.collection == c && Agrees(s.w.db, client) &&
            c in bell'.cursors && client.cursor == bell'.cursors[c]
  {
    assert Follows(s, user, c);
    PullAgrees(s.w.db, s.replicas[c], None, pages[c], false);
    PageGrows(s.w.db, s.replicas[c], None, pages[c], false);
    assert CountsAlike(s.w.db.collections, s.bell.current, user, c);
    hide Agrees, Replicable, B.Rings, Pulled;
  }

  lemma HandleSynced(s: Sync, user: string, pages: map<string, seq<Object>>)
    requires Synced(s, user)
    ensures Synced(Act(s, user, Handle(pages)), user)
  {
    if s.bell.wire != [] && Answers(s, pages) {
      var s' := Act(s, user, Handle(pages));
      B.RingsTurn(s.bell, B.HandleEvent);
      B.HandleKeeps(s.bell);
      HandleQueues(s.bell);
      forall c | c in s'.replicas ensures Follows(s', user, c) {
        assert Follows(s, user, c);
        if c in Due(s.bell) { DueFollows(s, user, pages, c); } else { NotDue(s.bell, c); }
      }
      hide B.Take, B.Rings, Replicable, Agrees, Answers, Due;
    }
  }

  lemma HandleQueues(bell: B.Bell)
    ensures B.Take(bell, B.HandleEvent).awaiting == bell.awaiting
  {
  }

  lemma NotDue(bell: B.Bell, c: string)
    requires c !in Due(bell) && c in bell.current && bell.cursors.Keys == bell.current.Keys
    ensures var bell' := B.Take(bell, B.HandleEvent); c in bell'.cursors && bell'.cursors[c] == bell.cursors[c]
  {
  }

  lemma {:induction false} SyncedInEveryRun(s: Sync, user: string, moves: seq<Move>)
    requires Synced(s, user)
    ensures Synced(Play(s, user, moves), user)
    decreases |moves|
  {
    hide Act, Synced;
    if moves != [] {
      match moves[0] {
        case Server(step) => ServerSynced(s, user, step);
        case Stream(turn) => StreamSynced(s, user, turn);
        case Page(c, limit, page, hasMore) => PageSynced(s, user, c, limit, page, hasMore);
        case OwnAnswer(a) => LearnSynced(s, user, a);
        case Handle(pages) => HandleSynced(s, user, pages);
      }
      SyncedInEveryRun(Act(s, user, moves[0]), user, moves[1..]);
    }
  }

  // ---- End to end ----------------------------------------------------------------

  /** An empty server and a client without a subscription. */
  function Start(users: set<string>): Sync {
    Sync(Empty(users), B.Bell(map[], multiset{}, D.Sub(map[], false, false), B.Absent, [], map[], map[], map[]), map[])
  }

  /** Whatever the server does meanwhile: whenever the user's stream is open and
      nothing is under way, the replica of each of the user's collections is that
      collection, and its cursor the collection's version. */
  lemma ReplicaIsServer(users: set<string>, user: string, moves: seq<Move>, c: string)
    requires B.Quiescent(Play(Start(users), user, moves).bell)
    requires CollectionFound(Play(Start(users), user, moves).w.db, user, c)
    ensures var s := Play(Start(users), user, moves);
            c in s.replicas && s.replicas[c].cursor == s.w.db.collections[c].currentVersion &&
            s.replicas[c].rows == Shown(s.w.db.objects, c)
  {
    StartSynced(users, user);
    SyncedInEveryRun(Start(users), user, moves);
    hide Play;
    QuiescentUpToDate(Play(Start(users), user, moves), user, c);
  }

  lemma QuiescentUpToDate(s: Sync, user: string, c: string)
    requires Synced(s, user) && B.Quiescent(s.bell) && CollectionFound(s.w.db, user, c)
    ensures c in s.replicas && s.replicas[c].cursor == s.w.db.collections[c].currentVersion &&
            s.replicas[c].rows == Shown(s.w.db.objects, c)
  {
    assert CountsAlike(s.w.db.collections, s.bell.current, user, c);
    assert Follows(s, user, c);
    assert B.Notified(s.bell, c);
    hide Agrees, Mirrors, Conserved, Announced;
    UpToDate(s.w.db, s.replicas[c]);
  }

  lemma StartSynced(users: set<string>, user: string)
    ensures Synced(Start(users), user)
  {
    StartRings();
    hide Replicable, B.Rings;
    StartReplicable(users);
  }

  lemma StartRings()
    ensures B.Rings(Start({}).bell)
  {
  }

  lemma StartReplicable(users: set<string>)
    ensures Replicable(Empty(users))
  {
  }

  lemma UpToDate(db: Database, client: Client)
    requires Rooted(db) && Conserved(db) && Agrees(db, client) && CollectionFound(db, client.user, client.collection)
    requires client.cursor == db.collections[client.collection].currentVersion
    ensures client.rows == Shown(db.objects, client.collection)
  {
    forall id | InCollection(db, client, id) ensures id in client.rows && client.rows[id] == View(db.objects[id]) {
      assert Knows(db, client, id);
    }
    forall id | id in client.rows ensures InCollection(db, client, id) { assert Real(db, client, id); }
  }
}
