/** How long the retries of one job are spread out, over whole runs from an empty store. */
module Backoff {
  import opened Wrappers
  import opened GatewayQueue
  import opened GatewayRuns

  /** When one job was claimed and when it was successfully retried. */
  datatype History = History(claims: seq<int>, retries: seq<int>)

  function HistoryOf(calls: seq<Call>, n: nat, id: nat): History
    requires n <= |calls|
  {
    if n == 0 then History([], [])
    else
      var h := HistoryOf(calls, n - 1, id);
      if ClaimedAt(EMPTY, calls, n - 1, id) then h.(claims := h.claims + [calls[n - 1].at])
      else if RetriedAt(EMPTY, calls, n - 1, id) then h.(retries := h.retries + [calls[n - 1].at])
      else h
  }

  /** The clock does not run backwards between a claim of the job and a later retry of it. */
  ghost predicate ClockMoves(calls: seq<Call>, id: nat)
  {
    forall i, j :: 0 <= i < j < |calls| && ClaimedAt(EMPTY, calls, i, id) && RetriedAt(EMPTY, calls, j, id) ==>
      calls[i].at <= calls[j].at
  }

  /** Successive retries are at least the doubling, capped delay apart. */
  predicate Spaced(times: seq<int>)
  {
    forall i, j :: 0 <= i && j == i + 1 < |times| ==> times[j] - times[i] >= Delay(j)
  }

  /** What a job's history so far says about its row. */
  predicate RowFits(row: Row, h: History)
  {
    && row.attempts == |h.retries|
    && row.attempts + (if row.status.Leased? then 1 else 0) <= row.leaseToken
    && (h.retries != [] ==> row.availableAt == h.retries[|h.retries| - 1] + Delay(|h.retries|))
    && (row.status.Leased? ==> exists c :: c in h.claims && row.availableAt <= c)
    && Spaced(h.retries)
  }

  ghost predicate BackoffInv(s: Store, id: nat, h: History)
  {
    if id < |s.jobs| then RowFits(s.jobs[id], h) else h.retries == []
  }

  lemma ClaimFits(row: Row, h: History, at: int)
    requires RowFits(row, h) && Runnable(row, at)
    ensures RowFits(LeasedRow(row, at), h.(claims := h.claims + [at]))
  {
    assert at in h.claims + [at];
  }

  /** A retry no earlier than every claim keeps the counters and the spacing. */
  lemma RetryFits(row: Row, h: History, error: string, at: int)
    requires RowFits(row, h) && row.status.Leased?
    requires forall c :: c in h.claims ==> c <= at
    ensures RowFits(ReleasedRow(row, error, at), h.(retries := h.retries + [at]))
  {
  }

  lemma {:induction false} ClaimsBefore(calls: seq<Call>, n: nat, id: nat, j: nat)
    requires n <= j < |calls| && ClockMoves(calls, id) && RetriedAt(EMPTY, calls, j, id)
    ensures forall c :: c in HistoryOf(calls, n, id).claims ==> c <= calls[j].at
  {
    if n > 0 {
      ClaimsBefore(calls, n - 1, id, j);
    }
  }

  /** How call n changes the row of the job, told by what it adds to the job's history. */
  lemma RowAt(calls: seq<Call>, n: nat, id: nat)
    requires n < |calls|
    ensures var before, after := After(EMPTY, calls[..n]), After(EMPTY, calls[..n + 1]);
      && (id < |before.jobs| ==>
            && id < |after.jobs|
            && var row, row' := before.jobs[id], after.jobs[id];
            && (ClaimedAt(EMPTY, calls, n, id) ==> Runnable(row, calls[n].at) && row' == LeasedRow(row, calls[n].at))
            && (RetriedAt(EMPTY, calls, n, id) ==>
              row.status.Leased? && row' == ReleasedRow(row, calls[n].error, calls[n].at))
            && (!ClaimedAt(EMPTY, calls, n, id) && !RetriedAt(EMPTY, calls, n, id) ==>
                  row' == row || row' == FailedRow(row, row'.lastError.GetOr(""), calls[n].at) ||
                    row' == CompletedRow(row, calls[n].at)))
      && (id >= |before.jobs| ==> !ClaimedAt(EMPTY, calls, n, id) && !RetriedAt(EMPTY, calls, n, id))
      && (|before.jobs| <= id < |after.jobs| ==>
        RowFits(after.jobs[id], History([], [])) && !after.jobs[id].status.Leased?)
  {
    AfterStep(EMPTY, calls, n);
    var before := After(EMPTY, calls[..n]);
    ExecRows(before, calls[n]);
    if id < |before.jobs| {
      assert RowStep(calls[n], ReplyAt(EMPTY, calls, n), id, before.jobs[id], After(EMPTY, calls[..n + 1]).jobs[id]);
    }
  }

  lemma BackoffStep(calls: seq<Call>, n: nat, id: nat)
    requires n < |calls| && ClockMoves(calls, id)
    requires BackoffInv(After(EMPTY, calls[..n]), id, HistoryOf(calls, n, id))
    ensures BackoffInv(After(EMPTY, calls[..n + 1]), id, HistoryOf(calls, n + 1, id))
  {
    RowAt(calls, n, id);
    var before, h := After(EMPTY, calls[..n]), HistoryOf(calls, n, id);
    if id < |before.jobs| {
      if ClaimedAt(EMPTY, calls, n, id) {
        ClaimFits(before.jobs[id], h, calls[n].at);
      } else if RetriedAt(EMPTY, calls, n, id) {
        ClaimsBefore(calls, n, id, n);
        RetryFits(before.jobs[id], h, calls[n].error, calls[n].at);
      }
    }
  }

  lemma {:induction false} BackoffHolds(calls: seq<Call>, n: nat, id: nat)
    requires n <= |calls| && ClockMoves(calls, id)
    ensures BackoffInv(After(EMPTY, calls[..n]), id, HistoryOf(calls, n, id))
  {
    if n > 0 {
      BackoffHolds(calls, n - 1, id);
      BackoffStep(calls, n - 1, id);
    }
  }

  /** The least spread of k retries. */
  function BackoffSum(k: nat): int
  {
    if k <= 1 then 0 else BackoffSum(k - 1) + Delay(k - 1)
  }

  lemma {:induction false} Spread(times: seq<int>, k: nat)
    requires Spaced(times) && 1 <= k <= |times|
    ensures times[k - 1] - times[0] >= BackoffSum(k)
  {
    if k > 1 {
      Spread(times, k - 1);
      assert times[k - 1] - times[k - 2] >= Delay(k - 1);
    }
  }

  lemma {:induction false} Pow2Grows(n: nat)
    requires n >= 9
    ensures Pow2(n) >= 512
  {
    if n == 9 {
      assert Pow2(5) == 32;
      assert Pow2(9) == 512;
    } else {
      Pow2Grows(n - 1);
    }
  }

  lemma {:induction false} Pow2Below(n: nat)
    requires n <= 8
    ensures Pow2(n) <= 256
    decreases 8 - n
  {
    if n == 8 {
      assert Pow2(4) == 16;
      assert Pow2(8) == 256;
    } else {
      Pow2Below(n + 1);
    }
  }

  /** The closed form: doubling up to the ninth retry, then a fixed five minutes each. */
  lemma {:induction false} BackoffSumClosed(k: nat)
    requires k >= 1
    ensures k <= 9 ==> BackoffSum(k) == Pow2(k) - 2
    ensures k >= 9 ==> BackoffSum(k) == 510 + MAX_RETRY_SECONDS * (k - 9)
  {
    if k > 1 {
      BackoffSumClosed(k - 1);
      if k <= 9 {
        Pow2Below(k - 1);
      } else {
        Pow2Grows(k - 1);
      }
    }
    if k == 9 {
      assert Pow2(5) == 32;
      assert Pow2(9) == 512;
    }
  }

  /**
   * Over any run, a job's attempts counter is the number of its successful retries and never exceeds its
   * fencing token; k retries are spread over at least the sum of the k - 1 capped exponential delays.
   */
  lemma RetriesAreSpread(calls: seq<Call>, id: nat)
    requires ClockMoves(calls, id)
    ensures var s, times := After(EMPTY, calls), HistoryOf(calls, |calls|, id).retries;
      && (id < |s.jobs| ==> s.jobs[id].attempts == |times| <= s.jobs[id].leaseToken)
      && (times != [] ==> times[|times| - 1] - times[0] >= BackoffSum(|times|))
  {
    assert calls[..|calls|] == calls;
    BackoffHolds(calls, |calls|, id);
    var times := HistoryOf(calls, |calls|, id).retries;
    if times != [] {
      Spread(times, |times|);
    }
  }
}
