/** The Postgres listener: it dials, listens, closes every subscription, delivers,
    and on any loss closes every subscription again and backs off. The link can
    drop at any moment, before the listener notices; commits, subscriptions and
    the one-by-one closing of CloseAll interleave with it. */
module Listener {
  import opened Tables

  const INITIAL_DELAY: Millis := 1000
  const MAX_DELAY: Millis := 30000

  /** Where the listener goroutine is. Listening: LISTEN done, CloseAll not begun.
      Sweeping: the hub's table swapped, the old subscriptions being closed.
      Returned, EndSweeping: the same CloseAll after a lost or failed connection. */
  datatype Phase =
    | Trying | Listening | Sweeping | Serving | Returned(connected: bool) | EndSweeping(connected: bool) | Waiting

  /** since: how many commits there had been when it subscribed. */
  datatype Stream = Stream(user: string, since: nat, heard: set<nat>)

  datatype Net = Net(
    log: seq<string>,               // the user of every commit so far
    linked: bool,                   // the database still feeds this connection
    queue: seq<Option<nat>>,        // commits notified on it, None for a payload that does not parse
    phase: Phase,
    delay: Millis,
    streams: map<nat, Stream>,
    open: set<nat>,
    registered: set<nat>,           // in the hub's table
    victims: set<nat>,              // taken out by CloseAll, not closed yet
    deaf: set<nat>)                 // open at some moment without a link

  datatype Move =
    | Dial(ok: bool)
    | SwapTable
    | CloseVictim(id: nat)
    | FinishCloseAll
    | Retry
    | CommitFor(user: string)
    | NotifyGarbage
    | Deliver
    | Drop(kept: nat)
    | NoticeLoss
    | Subscribe(id: nat, user: string)
    | Unsubscribe(id: nat)

  function Hearing(n: Net, commit: nat): map<nat, Stream>
    requires commit < |n.log|
  {
    map id | id in n.streams ::
      if id in n.registered && n.streams[id].user == n.log[commit]
      then n.streams[id].(heard := n.streams[id].heard + {commit}) else n.streams[id]
  }

  function Act(n: Net, move: Move): Net {
    match move
    case Dial(ok) =>
      if !n.phase.Trying? then n
      else if ok then n.(linked := true, queue := [], phase := Listening)
      else n.(phase := Returned(false))
    case SwapTable =>
      if n.phase.Listening? then n.(phase := Sweeping, victims := n.victims + n.registered, registered := {})
      else if n.phase.Returned? then n.(phase := EndSweeping(n.phase.connected), victims := n.victims + n.registered,
        registered := {})
      else n
    case CloseVictim(id) => n.(victims := n.victims - {id}, open := if id in n.victims then n.open - {id} else n.open)
    case FinishCloseAll =>
      if n.victims != {} then n
      else if n.phase.Sweeping? then n.(phase := Serving)
      else if n.phase.EndSweeping? then n.(phase := Waiting, delay := if n.phase.connected then INITIAL_DELAY
        else n.delay)
      else n
    case Retry =>
      if n.phase.Waiting? then n.(phase := Trying, delay := if n.delay * 2 < MAX_DELAY then n.delay * 2 else MAX_DELAY)
        else n
    case CommitFor(user) => n.(log := n.log + [user], queue := if n.linked then n.queue + [Some(|n.log|)] else n.queue)
    case NotifyGarbage => if n.linked then n.(queue := n.queue + [None]) else n
    case Deliver =>
      if !n.phase.Serving? || n.queue == [] then n
      else if n.queue[0].None? || n.queue[0].value >= |n.log| then n.(queue := n.queue[1..])
      else n.(queue := n.queue[1..], streams := Hearing(n, n.queue[0].value))
    case Drop(kept) =>
      if !n.linked then n
      else n.(linked := false, queue := if kept < |n.queue| then n.queue[..kept] else n.queue, deaf := n.deaf + n.open)
    case NoticeLoss => if n.phase.Serving? && !n.linked then n.(phase := Returned(true)) else n
    case Subscribe(id, user) =>
      if id in n.streams then n
      else n.(streams := n.streams[id := Stream(user, |n.log|, {})], open := n.open + {id},
        registered := n.registered + {id},
              deaf := if n.linked then n.deaf else n.deaf + {id})
    case Unsubscribe(id) => n.(open := n.open - {id}, registered := n.registered - {id})
  }

  function Exec(n: Net, moves: seq<Move>): Net
    decreases |moves|
  {
    if moves == [] then n else Exec(Act(n, moves[0]), moves[1..])
  }

  const START := Net([], false, [], Trying, INITIAL_DELAY, map[], {}, {}, {}, {})

  /** Each commit for this stream's user since it subscribed is queued or heard. */
  predicate Hears(n: Net, id: nat)
    requires id in n.streams
  {
    forall c | n.streams[id].since <= c < |n.log| && n.log[c] == n.streams[id].user ::
      Some(c) in n.queue || c in n.streams[id].heard
  }

  predicate Attentive(n: Net) {
    n.linked && (n.phase.Sweeping? || n.phase.Serving?) ==>
      forall id | id in n.registered :: id in n.streams && Hears(n, id) && id !in n.deaf
  }

  predicate Tabled(n: Net) {
    n.open <= n.registered + n.victims && n.registered <= n.streams.Keys &&
    n.deaf <= n.streams.Keys && n.victims <= n.streams.Keys &&
    (forall id | id in n.streams :: n.streams[id].since <= |n.log|) &&
    (n.victims != {} ==> n.phase.Sweeping? || n.phase.EndSweeping?) &&
    (n.linked ==> n.phase.Listening? || n.phase.Sweeping? || n.phase.Serving?) &&
    INITIAL_DELAY <= n.delay <= MAX_DELAY
  }

  lemma TabledStep(n: Net, move: Move)
    requires Tabled(n)
    ensures Tabled(Act(n, move))
  {
  }

  lemma AttentiveStep(n: Net, move: Move)
    requires Tabled(n) && Attentive(n)
    ensures Attentive(Act(n, move))
  {
    var n' := Act(n, move);
    if n'.linked && (n'.phase.Sweeping? || n'.phase.Serving?) {
      forall id | id in n'.registered ensures id in n'.streams && Hears(n', id) && id !in n'.deaf {
        StreamStep(n, move, id);
      }
    }
  }

  lemma StreamStep(n: Net, move: Move, id: nat)
    requires Tabled(n) && Attentive(n)
    requires var n' := Act(n, move); n'.linked && (n'.phase.Sweeping? || n'.phase.Serving?) && id in n'.registered
    ensures var n' := Act(n, move); id in n'.streams && Hears(n', id) && id !in n'.deaf
  {
    if id in n.registered && n.linked && (n.phase.Sweeping? || n.phase.Serving?) { assert Hears(n, id); }
    if move.CommitFor? && n.linked { assert (n.queue + [Some(|n.log|)])[|n.queue|] == Some(|n.log|); }
    if move.Deliver? && n.phase.Serving? && n.queue != [] { assert n.queue == [n.queue[0]] + n.queue[1..]; }
  }

  lemma {:induction false} AttentiveInEveryRun(n: Net, moves: seq<Move>)
    requires Tabled(n) && Attentive(n)
    ensures Tabled(Exec(n, moves)) && Attentive(Exec(n, moves))
    decreases |moves|
  {
    if moves != [] {
      TabledStep(n, moves[0]);
      AttentiveStep(n, moves[0]);
      AttentiveInEveryRun(Act(n, moves[0]), moves[1..]);
    }
  }

  /** Whenever the listener is connected and past its CloseAll, every open stream
      has each commit made since it subscribed queued or heard, and none of them
      was open at a moment without a link. */
  lemma NoGapSurvives(moves: seq<Move>, id: nat)
    requires var n := Exec(START, moves); n.linked && n.phase.Serving? && id in n.open
    ensures var n := Exec(START, moves); id in n.streams && Hears(n, id) && id !in n.deaf
    ensures INITIAL_DELAY <= Exec(START, moves).delay <= MAX_DELAY
  {
    AttentiveInEveryRun(START, moves);
  }
}
