/** The login rate limiter: a fixed window of 60 seconds that opens with a
    client's first attempt and admits ten. */
module RateLimit {
  import opened Tables

  const LIMIT := 10
  /** Nanoseconds. */
  const WINDOW := 60_000_000_000

  type Instant = int

  datatype Window = Window(start: Instant, count: nat)
  type Windows = map<string, Window>

  /** The windows that are still open. */
  function Open(windows: Windows, now: Instant): Windows {
    map k | k in windows && now - windows[k].start < WINDOW :: windows[k]
  }

  /** The window this attempt counts in, with the attempt. */
  function Counted(windows: Windows, key: string, now: Instant): Window {
    if key in Open(windows, now) then windows[key].(count := windows[key].count + 1) else Window(now, 1)
  }

  function After(windows: Windows, key: string, now: Instant): Windows {
    Open(windows, now)[key := Counted(windows, key, now)]
  }

  class RateLimiter {
    var windows: Windows

    constructor ()
      ensures windows == map[]
    {
      windows := map[];
    }

    method Allow(key: string, now: Instant) returns (ok: bool, retryAfter: int)
      modifies this
      ensures windows == After(old(windows), key, now)
      ensures ok <==> windows[key].count <= LIMIT
      ensures retryAfter == if ok then 0 else windows[key].start + WINDOW - now
    {
      var unseen := windows.Keys;
      while unseen != {}
        invariant windows.Keys <= old(windows).Keys && unseen <= windows.Keys
        invariant forall k | k in windows :: windows[k] == old(windows)[k]
        invariant forall k | k in old(windows) :: k in windows <==> k in unseen || now - old(windows)[k].start < WINDOW
        decreases unseen
      {
        var k :| k in unseen;
        unseen := unseen - {k};
        if now - windows[k].start >= WINDOW { windows := windows - {k}; }
      }
      assert windows == Open(old(windows), now);
      if key !in windows { windows := windows[key := Window(now, 0)]; }
      var w := windows[key];
      w := w.(count := w.count + 1);
      windows := windows[key := w];
      if w.count > LIMIT { return false, WINDOW - (now - w.start); }
      return true, 0;
    }
  }

  // ---- Runs ---------------------------------------------------------------------------

  datatype Call = Call(key: string, now: Instant)

  predicate InOrder(calls: seq<Call>) { forall i, j | 0 <= i < j < |calls| :: calls[i].now <= calls[j].now }

  function Run(calls: seq<Call>): Windows {
    if calls == [] then map[] else After(Run(Before(calls)), Last(calls).key, Last(calls).now)
  }

  function Before(calls: seq<Call>): seq<Call>
    requires calls != []
  {
    calls[..|calls| - 1]
  }

  function Last(calls: seq<Call>): Call
    requires calls != []
  {
    calls[|calls| - 1]
  }

  predicate Admitted(calls: seq<Call>)
    requires calls != []
  {
    Counted(Run(Before(calls)), Last(calls).key, Last(calls).now).count <= LIMIT
  }

  /** Attempts of this key admitted from t on, before t + WINDOW. */
  function AdmittedIn(calls: seq<Call>, key: string, t: Instant): nat {
    if calls == [] then 0
    else
      AdmittedIn(Before(calls), key, t) +
      (if Last(calls).key == key && t <= Last(calls).now < t + WINDOW && Admitted(calls) then 1 else 0)
  }

  /** After each call only windows younger than a minute remain, none opened later. */
  lemma {:induction false} OnlyYoung(calls: seq<Call>)
    requires calls != [] && InOrder(calls)
    ensures forall k | k in Run(calls) ::
            0 <= Last(calls).now - Run(calls)[k].start < WINDOW && Run(calls)[k].count >= 1
  {
    if |calls| > 1 { OnlyYoung(Before(calls)); }
  }

  // ---- At most nineteen a minute ----------------------------------------------------

  function Least(a: int, b: int): int { if a < b then a else b }

  /** What is known of the admitted count n by the window the key is in. A window
      opened before t lost at least its first attempt to the time before t; one
      opened within leaves no room for another. */
  predicate Accounted(windows: Windows, key: string, t: Instant, now: Instant, n: nat) {
    n <= 2 * LIMIT - 1 && (now < t ==> n == 0) &&
    if key !in windows then n <= LIMIT - 1 || now >= t + WINDOW
    else
      var w := windows[key];
      w.start <= now && w.count >= 1 &&
      (w.start < t ==> n <= Least(w.count, LIMIT) - 1) &&
      (t <= w.start < t + WINDOW ==> n <= LIMIT - 1 + Least(w.count, LIMIT))
  }

  lemma AccountedStep(windows: Windows, key: string, t: Instant, now: Instant, n: nat, call: Call)
    requires Accounted(windows, key, t, now, n) && now <= call.now
    ensures var admitted := call.key == key && t <= call.now < t + WINDOW &&
            Counted(windows, key, call.now).count <= LIMIT;
            Accounted(After(windows, call.key, call.now), key, t, call.now, if admitted then n + 1 else n)
  {
  }

  lemma {:induction false} Bounded(calls: seq<Call>, key: string, t: Instant)
    requires calls != [] && InOrder(calls)
    ensures Accounted(Run(calls), key, t, Last(calls).now, AdmittedIn(calls, key, t))
  {
    if |calls| > 1 {
      Bounded(Before(calls), key, t);
      AccountedStep(Run(Before(calls)), key, t, Last(Before(calls)).now, AdmittedIn(Before(calls), key, t),
        Last(calls));
    } else {
      AccountedStep(map[], key, t, Last(calls).now, 0, Last(calls));
      assert Before(calls) == [];
    }
  }

  /** In any minute, wherever it starts, a client gets at most nineteen attempts. */
  lemma AtMostNineteen(calls: seq<Call>, key: string, t: Instant)
    requires InOrder(calls)
    ensures AdmittedIn(calls, key, t) <= 19
  {
    if calls != [] { Bounded(calls, key, t); }
  }

  /** This many attempts at one time. */
  function Burst(key: string, now: Instant, m: nat): (b: seq<Call>)
    ensures |b| == m && forall i | 0 <= i < m :: b[i] == Call(key, now)
  {
    if m == 0 then [] else Burst(key, now, m - 1) + [Call(key, now)]
  }

  lemma {:induction false} BurstCounts(calls: seq<Call>, key: string, now: Instant, t: Instant, m: nat)
    requires key in Run(calls) && now - Run(calls)[key].start < WINDOW && t <= now < t + WINDOW
    requires Run(calls)[key].count + m <= LIMIT
    ensures var after := calls + Burst(key, now, m);
            key in Run(after) && Run(after)[key] == Window(Run(calls)[key].start, Run(calls)[key].count + m) &&
            AdmittedIn(after, key, t) == AdmittedIn(calls, key, t) + m
  {
    if m == 0 {
      assert calls + Burst(key, now, 0) == calls;
    } else {
      BurstCounts(calls, key, now, t, m - 1);
      var after := calls + Burst(key, now, m);
      assert Before(after) == calls + Burst(key, now, m - 1);
    }
  }

  /** An attempt that finds its window over opens the next. */
  lemma WindowTurns(calls: seq<Call>, key: string, now: Instant, t: Instant)
    requires key in Run(calls) && now - Run(calls)[key].start >= WINDOW && t <= now < t + WINDOW
    ensures var after := calls + [Call(key, now)];
            key in Run(after) && Run(after)[key] == Window(now, 1) &&
              AdmittedIn(after, key, t) == AdmittedIn(calls, key, t) + 1
  {
    assert Before(calls + [Call(key, now)]) == calls;
  }

  /** And nineteen is reached: one attempt, nine more just before its window
      closes, ten when it has. */
  lemma NineteenReached(key: string) returns (calls: seq<Call>)
    ensures InOrder(calls) && AdmittedIn(calls, key, WINDOW - 1) == 19
  {
    hide Run, AdmittedIn, Burst;
    var t := WINDOW - 1;
    OneCall(key, t);
    BurstCounts([Call(key, 0)], key, t, t, 9);
    var ten := [Call(key, 0)] + Burst(key, t, 9);
    WindowTurns(ten, key, WINDOW, t);
    BurstCounts(ten + [Call(key, WINDOW)], key, WINDOW, t, 9);
    calls := ten + [Call(key, WINDOW)] + Burst(key, WINDOW, 9);
  }

  lemma OneCall(key: string, t: Instant)
    requires t > 0
    ensures Run([Call(key, 0)]) == map[key := Window(0, 1)] && AdmittedIn([Call(key, 0)], key, t) == 0
  {
    assert Before([Call(key, 0)]) == [];
  }

  // ---- The answer to a refused attempt ----------------------------------------------

  /** Until the window closes it stays as full as it is; afterwards it is this
      window or none, unless the client came again. */
  predicate Refusing(windows: Windows, key: string, start: Instant, now: Instant) {
    if now < start + WINDOW then key in windows && windows[key].start == start && windows[key].count > LIMIT
    else key in windows ==> windows[key].start == start
  }

  lemma {:induction false} StaysRefusing(calls: seq<Call>, i: nat, start: Instant, key: string)
    requires InOrder(calls) && i < |calls|
    requires Refusing(Run(calls[..i + 1]), key, start, calls[i].now)
    requires forall k | i < k < |calls| && calls[k].key == key :: calls[k].now < start + WINDOW
    ensures Refusing(Run(calls), key, start, Last(calls).now)
    decreases |calls|
  {
    if i + 1 == |calls| {
      assert calls[..i + 1] == calls;
    } else {
      var earlier := Before(calls);
      assert earlier[..i + 1] == calls[..i + 1];
      StaysRefusing(earlier, i, start, key);
    }
  }

  /** retryAfter is exact: after a refusal at the end of calls[..i + 1], the
      client's attempts are refused until that long has passed, and the first
      one from then on is admitted. */
  lemma RetryAfterIsExact(calls: seq<Call>, i: nat)
    requires InOrder(calls) && i + 1 < |calls| && !Admitted(calls[..i + 1]) && Last(calls).key == calls[i].key
    requires forall k | i < k < |calls| - 1 && calls[k].key == calls[i].key ::
               calls[k].now < Run(calls[..i + 1])[calls[i].key].start + WINDOW
    ensures var retryAfter := Run(calls[..i + 1])[calls[i].key].start + WINDOW - calls[i].now;
            retryAfter > 0 && (Admitted(calls) <==> Last(calls).now >= calls[i].now + retryAfter)
  {
    var refused := calls[..i + 1];
    var start := Run(refused)[calls[i].key].start;
    var earlier := Before(calls);
    assert earlier[..i + 1] == refused;
    OnlyYoung(refused);
    StaysRefusing(earlier, i, start, calls[i].key);
  }
}
