/** When to refresh which subscriptions (src/lib/subscription-refresh.ts); times in milliseconds, without rounding. */
module Refresh {
  import opened Wrappers

  const MS_PER_HOUR := 3600000.0

  /** A subscription; a date that does not parse and an interval that is no finite number read as nothing. */
  datatype Candidate = Candidate(id: string, lastSuccess: Option<real>, intervalHours: Option<real>)

  datatype Batch = Batch(at: real, ids: seq<string>)

  function Max(a: real, b: real): real {
    if a < b then b else a
  }

  function IntervalMs(hours: real): real {
    hours * MS_PER_HOUR
  }

  /** The `k`-th boundary of a schedule. */
  function Boundary(last: real, intervalMs: real, k: int): real {
    last + k as real * intervalMs
  }

  function Steps(last: real, intervalMs: real, now: real): int
    requires intervalMs > 0.0
  {
    (Max(0.0, now - last) / intervalMs).Floor + 1
  }

  /** The next boundary, or nothing where the source throws. */
  function NextFutureRefresh(last: Option<real>, hours: real, now: real): Option<real> {
    if last.None? || IntervalMs(hours) <= 0.0 then None
    else Some(Boundary(last.value, IntervalMs(hours), Steps(last.value, IntervalMs(hours), now)))
  }

  lemma Scaled(a: real, b: real, factor: real)
    requires factor > 0.0
    ensures a < b <==> a * factor < b * factor
  {}

  lemma Quotient(elapsed: real, intervalMs: real)
    requires intervalMs > 0.0
    ensures elapsed / intervalMs * intervalMs == elapsed
  {}

  /** A boundary lies after an instant exactly when it is more than the whole intervals up to it away. */
  lemma BoundaryAfter(elapsed: real, intervalMs: real, k: int)
    requires intervalMs > 0.0
    ensures elapsed < k as real * intervalMs <==> k >= (elapsed / intervalMs).Floor + 1
    ensures elapsed >= 0.0 ==> (elapsed / intervalMs).Floor >= 0
  {
    var quotient := elapsed / intervalMs;
    Quotient(elapsed, intervalMs);
    Scaled(quotient, k as real, intervalMs);
    Scaled(quotient, 0.0, intervalMs);
    Whole(quotient, k);
  }

  lemma Whole(x: real, k: int)
    ensures x < k as real <==> k >= x.Floor + 1
  {}

  /**
   The boundaries after now and after the last success are exactly those from the step chosen on: the chosen one is
   the least.
   */
  lemma NextIsLeastFutureBoundary(last: real, hours: real, now: real, k: int)
    requires IntervalMs(hours) > 0.0
    ensures NextFutureRefresh(Some(last), hours, now)
            == Some(Boundary(last, IntervalMs(hours), Steps(last, IntervalMs(hours), now)))
    ensures Boundary(last, IntervalMs(hours), k) > Max(now, last) <==> k >= Steps(last, IntervalMs(hours), now)
    ensures Steps(last, IntervalMs(hours), now) >= 1
  {
    hide IntervalMs;
    var elapsed := Max(0.0, now - last);
    BoundaryAfter(elapsed, IntervalMs(hours), k);
    assert Max(now, last) == last + elapsed;
  }

  predicate Usable(candidate: Candidate, now: real) {
    candidate.intervalHours.Some? && candidate.intervalHours.value > 0.0 && candidate.lastSuccess.Some?
  }

  /** The next refresh of a usable candidate. */
  function Due(candidate: Candidate, now: real): real
    requires Usable(candidate, now)
  {
    Boundary(candidate.lastSuccess.value, IntervalMs(candidate.intervalHours.value),
             Steps(candidate.lastSuccess.value, IntervalMs(candidate.intervalHours.value), now))
  }

  /** The candidates due at a time, in order. */
  function IdsDueAt(candidates: seq<Candidate>, now: real, at: real): seq<string> {
    if candidates == [] then []
    else
      var last := candidates[|candidates| - 1];
      IdsDueAt(candidates[..|candidates| - 1], now, at)
        + (if Usable(last, now) && Due(last, now) == at then [last.id] else [])
  }

  lemma {:induction false} NoneDueBefore(candidates: seq<Candidate>, now: real, at: real)
    requires forall i | 0 <= i < |candidates| && Usable(candidates[i], now) :: Due(candidates[i], now) > at
    ensures IdsDueAt(candidates, now, at) == []
  {
    hide Due, Usable;
    if candidates != [] {
      NoneDueBefore(candidates[..|candidates| - 1], now, at);
    }
  }

  /**
   The earliest refresh of all usable candidates, with exactly those due then, in order; nothing if none is usable.
   */
  method NextRefreshBatch(candidates: seq<Candidate>, now: real) returns (batch: Option<Batch>)
    ensures batch.None? <==> forall i | 0 <= i < |candidates| :: !Usable(candidates[i], now)
    ensures batch.Some? ==>
      && (forall i | 0 <= i < |candidates| && Usable(candidates[i], now) :: batch.value.at <= Due(candidates[i], now))
      && (exists i | 0 <= i < |candidates| && Usable(candidates[i], now) :: batch.value.at == Due(candidates[i], now))
      && batch.value.ids == IdsDueAt(candidates, now, batch.value.at)
      && batch.value.at > now
  {
    hide Due, Usable, NextFutureRefresh;
    var at: Option<real> := None;
    var ids: seq<string> := [];
    for n := 0 to |candidates|
      invariant at.None? <==> forall i | 0 <= i < n :: !Usable(candidates[i], now)
      invariant at.Some? ==>
        && (forall i | 0 <= i < n && Usable(candidates[i], now) :: at.value <= Due(candidates[i], now))
        && (exists i | 0 <= i < n && Usable(candidates[i], now) :: at.value == Due(candidates[i], now))
        && ids == IdsDueAt(candidates[..n], now, at.value)
        && at.value > now
    {
      var candidate := candidates[n];
      assert candidates[..n + 1][..n] == candidates[..n];
      DueMeans(candidate, now);
      if candidate.intervalHours.None? || candidate.intervalHours.value <= 0.0 {
        continue;
      }
      var next := NextFutureRefresh(candidate.lastSuccess, candidate.intervalHours.value, now);
      if next.None? {
        continue;
      }
      if at.None? || next.value < at.value {
        NoneDueBefore(candidates[..n], now, next.value);
        at := next;
        ids := [candidate.id];
      } else if next.value == at.value {
        ids := ids + [candidate.id];
      }
    }
    assert candidates[..|candidates|] == candidates;
    batch := if at.Some? then Some(Batch(at.value, ids)) else None;
  }

  lemma DueMeans(candidate: Candidate, now: real)
    ensures Usable(candidate, now) <==>
              && candidate.intervalHours.Some? && candidate.intervalHours.value > 0.0
              && NextFutureRefresh(candidate.lastSuccess, candidate.intervalHours.value, now).Some?
    ensures Usable(candidate, now) ==>
              && NextFutureRefresh(candidate.lastSuccess, candidate.intervalHours.value, now)
                 == Some(Due(candidate, now))
              && Due(candidate, now) > now
  {
    if Usable(candidate, now) {
      var last, hours := candidate.lastSuccess.value, candidate.intervalHours.value;
      NextIsLeastFutureBoundary(last, hours, now, Steps(last, IntervalMs(hours), now));
    }
  }
}
