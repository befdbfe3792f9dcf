/** The statements compare timestamps as text; the transactions of mutations.dfy
    compare milliseconds. For what is written from the year 0 to 9999 the two
    agree. */
module Cutoffs {
  import opened Tables
  import opened Pages
  import T = Timestamps
  import M = Mutations

  predicate Written(at: Millis) { T.Dated(at) && T.YearOf(at) < 10_000 }

  /** The text stored for this millisecond, and for every instant within it. */
  function Stamp(at: Millis): string
    requires Written(at)
  {
    T.Timestamp(at * T.NANOS_PER_MILLI)
  }

  lemma StampOrder(a: Millis, b: Millis)
    requires Written(a) && Written(b)
    ensures TextBefore(Stamp(a), Stamp(b)) <==> a < b
  {
    T.TextOrderIsTimeOrder(a * T.NANOS_PER_MILLI, b * T.NANOS_PER_MILLI);
  }

  /** The cutoff of a clock read at t is the text of its millisecond, less the span. */
  lemma CutoffStamp(t: T.Instant, span: Millis)
    requires Written(T.MillisOf(t) - span)
    ensures T.MillisOf(t - span * T.NANOS_PER_MILLI) == T.MillisOf(t) - span
    ensures T.Timestamp(t - span * T.NANOS_PER_MILLI) == Stamp(T.MillisOf(t) - span)
  {
    assert T.MillisOf(t - span * T.NANOS_PER_MILLI) == T.MillisOf(t) - span;
    assert T.MillisOf((T.MillisOf(t) - span) * T.NANOS_PER_MILLI) == T.MillisOf(t) - span;
  }

  /** The text a statement compares with: the clock less the span, as written. */
  function Cutoff(t: T.Instant, span: Millis): string
    requires Written(T.MillisOf(t) - span)
  {
    CutoffStamp(t, span);
    T.Timestamp(t - span * T.NANOS_PER_MILLI)
  }

  /** What is stored for an instant is the text of its millisecond. */
  lemma StoredStamp(t: T.Instant)
    requires Written(T.MillisOf(t))
    ensures T.Timestamp(t) == Stamp(T.MillisOf(t))
  {
    CutoffStamp(t, 0);
  }

  lemma CutoffOrder(at: Millis, t: T.Instant, span: Millis)
    requires Written(at) && Written(T.MillisOf(t) - span)
    ensures TextBefore(Stamp(at), Cutoff(t, span)) <==> at < T.MillisOf(t) - span
    ensures TextBefore(Cutoff(t, span), Stamp(at)) <==> T.MillisOf(t) - span < at
  {
    CutoffStamp(t, span);
    StampOrder(at, T.MillisOf(t) - span);
    StampOrder(T.MillisOf(t) - span, at);
  }

  /** The age test of a claim, at a clock reading in nanoseconds. */
  lemma ClaimableByText(ledger: Ledger, user: string, key: string, t: T.Instant)
    requires key in ledger && Written(ledger[key].createdAt) && Written(T.MillisOf(t) - M.DAY)
    ensures M.Claimable(ledger, user, key, T.MillisOf(t)) <==>
            ledger[key].user == user && ledger[key].state == Staged &&
            TextBefore(Cutoff(t, M.DAY), Stamp(ledger[key].createdAt))
  {
    CutoffOrder(ledger[key].createdAt, t, M.DAY);
  }

  lemma CollectableByText(row: LedgerRow, t: T.Instant)
    requires Written(row.stateChangedAt) && Written(T.MillisOf(t) - M.DAY) && Written(T.MillisOf(t) - 365 * M.DAY)
    ensures M.Collectable(row, T.MillisOf(t)) <==>
            (row.state == Staged && TextBefore(Stamp(row.stateChangedAt), Cutoff(t, M.DAY))) ||
            (row.state == Retained && TextBefore(Stamp(row.stateChangedAt), Cutoff(t, 365 * M.DAY))) ||
            row.state == Purgeable
  {
    CutoffOrder(row.stateChangedAt, t, M.DAY);
    CutoffOrder(row.stateChangedAt, t, 365 * M.DAY);
  }

  lemma ExpiryByText(row: ResultRow, t: T.Instant)
    requires Written(row.createdAt) && Written(T.MillisOf(t) - M.DAY) && Written(T.MillisOf(t) - 30 * M.DAY)
    ensures row.createdAt < T.MillisOf(t) - M.DAY <==> TextBefore(Stamp(row.createdAt), Cutoff(t, M.DAY))
    ensures row.createdAt < T.MillisOf(t) - 30 * M.DAY <==> TextBefore(Stamp(row.createdAt), Cutoff(t, 30 * M.DAY))
  {
    CutoffOrder(row.createdAt, t, M.DAY);
    CutoffOrder(row.createdAt, t, 30 * M.DAY);
  }
}
