/**
 The client's session loop: run a session, retry with growing waits, start over
 after every session that was established, give up after too many that were not.
 */
module RetryLoop {
  import opened PowersOfTwo

  const MAX_RETRIES := 5
  const MAX_WAIT := 30

  /** One call of runSession.  It returns no error only when ctx is done. */
  datatype Run = Run(
    established: bool,      // the success callback ran
    cancelled: bool,        // ctx is done when it returns
    cancelledWaiting: bool  // ctx ends during the wait that follows
  )

  datatype End = FailedAtStart | GaveUp | Stopped | StillRunning

  function Min(a: nat, b: nat): nat {
    if a < b then a else b
  }

  /** Runs since the last established one. */
  function Since(runs: seq<Run>, i: nat): nat
    requires i < |runs|
  {
    if runs[i].established || i == 0 then 0 else 1 + Since(runs, i - 1)
  }

  predicate EverEstablished(runs: seq<Run>, n: nat)
    requires n <= |runs|
  {
    exists i | 0 <= i < n :: runs[i].established
  }

  /** Run `i` is at least the fifth in a row, up to `i`, that was not established; it is not among the first five. */
  predicate FiveFailures(runs: seq<Run>, i: nat)
    requires i < |runs|
  {
    i >= 5 && forall j | i - 5 < j <= i :: !runs[j].established
  }

  lemma {:induction false} SinceSpan(runs: seq<Run>, i: nat)
    requires i < |runs|
    ensures Since(runs, i) <= i
    ensures forall j | i - Since(runs, i) < j <= i :: !runs[j].established
    ensures var last := i - Since(runs, i); last == 0 || runs[last].established
  {
    if !(runs[i].established || i == 0) {
      SinceSpan(runs, i - 1);
    }
  }

  /** With the first run established, the counter reaches the limit exactly after five failures in a row. */
  lemma SinceIsFailures(runs: seq<Run>, i: nat)
    requires i < |runs| && runs[0].established
    ensures Since(runs, i) >= 5 <==> FiveFailures(runs, i)
  {
    SinceSpan(runs, i);
    var last := i - Since(runs, i);
    assert runs[last].established;
  }

  /** The loop, over the outcomes of its first |runs| sessions. */
  method Retry(runs: seq<Run>) returns (end: End, n: nat, waits: seq<nat>, closes: nat)
    ensures n <= |runs| && (end != StillRunning ==> n > 0)
    // ready is closed at most once, and exactly when some session was established
    ensures closes == if EverEstablished(runs, n) then 1 else 0
    // the waits are 1, 2, 4, ... seconds since the last established session
    ensures |waits| == (if end.StillRunning? then n else if end.Stopped? && !runs[n - 1].cancelled then n else n - 1)
    ensures forall i | 0 <= i < |waits| :: waits[i] == Pow2(Since(runs, i)) && waits[i] <= 16
    // how it ends
    ensures end.StillRunning? ==> n == |runs|
    ensures end.FailedAtStart? <==> n == 1 && !runs[0].established && !runs[0].cancelled
    ensures end.GaveUp? <==> n > 0 && runs[0].established && !runs[n - 1].cancelled && FiveFailures(runs, n - 1)
    ensures end.Stopped? <==> n > 0 && (runs[n - 1].cancelled || (|waits| == n && runs[n - 1].cancelledWaiting))
    // and that it did not end before
    ensures n > 1 || (end.StillRunning? && n > 0) ==> runs[0].established
    ensures forall i | 0 <= i < |waits| :: !runs[i].cancelled && !FiveFailures(runs, i)
    ensures forall i | 0 <= i < |waits| && i + 1 < n :: !runs[i].cancelledWaiting
  {
    hide Pow2, FiveFailures, EverEstablished, Since;
    var establishable := false;
    var attempt := 0;
    waits, closes, n := [], 0, 0;
    while n < |runs|
      invariant n <= |runs| && |waits| == n
      invariant n == 0 ==> attempt == 0
      invariant n > 0 ==> attempt == Since(runs, n - 1) + 1 <= MAX_RETRIES && runs[0].established
      invariant establishable <==> n > 0
      invariant closes == if n > 0 then 1 else 0
      invariant forall i | 0 <= i < n :: waits[i] == Pow2(Since(runs, i)) && waits[i] <= 16
      invariant forall i | 0 <= i < n :: !runs[i].cancelled && !FiveFailures(runs, i) && !runs[i].cancelledWaiting
    {
      var run := runs[n];
      if run.established {
        attempt := 0;
        establishable := true;
        if closes == 0 {
          closes := 1;
        }
      }
      SinceStep(runs, n);
      assert attempt == Since(runs, n);
      n := n + 1;
      Witness(runs, n);
      if run.cancelled {
        return Stopped, n, waits, closes;
      }
      if !establishable {
        return FailedAtStart, n, waits, closes;
      }
      SinceIsFailures(runs, n - 1);
      if attempt >= MAX_RETRIES {
        return GaveUp, n, waits, closes;
      }
      Small(attempt);
      var wait := Min(Pow2(Min(attempt, 5)), MAX_WAIT);
      waits := waits + [wait];
      if run.cancelledWaiting {
        return Stopped, n, waits, closes;
      }
      attempt := attempt + 1;
    }
    end := StillRunning;
    Witness(runs, n);
  }

  /** One established session, then failures, and nobody interrupts: five retries with doubling waits, then the end. */
  method FiveRetries(runs: seq<Run>) returns (end: End, n: nat, waits: seq<nat>, closes: nat)
    requires |runs| >= 6 && runs[0].established
    requires forall i | 1 <= i < 6 :: !runs[i].established
    requires forall i | 0 <= i < 6 :: !runs[i].cancelled && !runs[i].cancelledWaiting
    ensures end == GaveUp && n == 6 && waits == [1, 2, 4, 8, 16] && closes == 1
  {
    end, n, waits, closes := Retry(runs);
    assert FiveFailures(runs, 5);
    assert !FiveFailures(runs, 4) && n <= 6;
    Counting(runs);
    assert EverEstablished(runs, n);
  }

  lemma Counting(runs: seq<Run>)
    requires |runs| >= 6 && runs[0].established
    requires forall i | 1 <= i < 6 :: !runs[i].established
    ensures forall i | 0 <= i < 6 :: Since(runs, i) == i
    ensures Pow2(0) == 1 && Pow2(1) == 2 && Pow2(2) == 4 && Pow2(3) == 8 && Pow2(4) == 16
  {
    assert Since(runs, 1) == 1 && Since(runs, 2) == 2 && Since(runs, 3) == 3;
    assert Since(runs, 4) == 4 && Since(runs, 5) == 5;
    assert Pow2(2) == 4 && Pow2(3) == 8;
  }

  lemma SinceStep(runs: seq<Run>, i: nat)
    requires i < |runs|
    ensures Since(runs, i) == if runs[i].established || i == 0 then 0 else 1 + Since(runs, i - 1)
  {
  }

  lemma Witness(runs: seq<Run>, n: nat)
    requires n <= |runs|
    ensures n > 0 && runs[0].established ==> EverEstablished(runs, n)
    ensures n == 1 && !runs[0].established ==> !EverEstablished(runs, n)
    ensures n == 0 ==> !EverEstablished(runs, n)
  {
  }

  lemma Small(attempt: nat)
    requires attempt < MAX_RETRIES
    ensures Pow2(attempt) <= 16 && Pow2(Min(attempt, 5)) == Pow2(attempt)
  {
    assert Pow2(1) == 2 && Pow2(2) == 4;
    assert Pow2(3) == 8 && Pow2(4) == 16;
  }
}
