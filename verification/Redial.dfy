/**
 redial: exponential backoff within a budget.  Times are nanoseconds; dial
 durations, jitter, oversleeping and outcomes are whatever `env` says.
 */
module Redialing {
  import opened Bytes
  import opened PowersOfTwo

  const SECOND := 1_000_000_000
  const JITTER := 500_000_000
  const RECONNECT_BUDGET := 5 * SECOND
  const MAX_INT64 := 0x7fff_ffff_ffff_ffff

  datatype DialOutcome = Attached | Gone | Failed

  datatype Attempt = Attempt(
    hasConn: bool,        // a connection is already there
    outcome: DialOutcome,
    duration: nat,        // of dial and attach
    jitter: nat,
    overslept: nat,
    cancelled: bool       // ctx ends while waiting
  )

  datatype Result = Reconnected | SessionGone | BudgetExhausted | Cancelled

  /** How a run went: its result, the dials, the waits it asked for and when each of them was due. */
  datatype Trace = Trace(result: Result, dials: nat, waits: seq<nat>, ends: seq<nat>)

  /** Wrap-around of a 64-bit signed integer. */
  function Int64(x: int): int {
    (x + 0x8000_0000_0000_0000) % 0x1_0000_0000_0000_0000 - 0x8000_0000_0000_0000
  }

  predicate Env(env: nat -> Attempt, k: nat) {
    env(k).jitter < JITTER
  }

  /** The mathematical schedule from attempt `k` at time `now`. */
  function Play(now: nat, deadline: nat, k: nat, env: nat -> Attempt): Trace
    decreases deadline - now
  {
    var a := env(k);
    if a.hasConn then Trace(Reconnected, 0, [], [])
    else
      var now1 := now + a.duration;
      var wait := SECOND * Pow2(k) + a.jitter;
      if a.outcome.Attached? then Trace(Reconnected, 1, [], [])
      else if a.outcome.Gone? then Trace(SessionGone, 1, [], [])
      else if now1 + wait > deadline then Trace(BudgetExhausted, 1, [], [])
      else if a.cancelled then Trace(Cancelled, 1, [wait], [now1 + wait])
      else
        Pow2Positive(k);
        var rest := Play(now1 + wait + a.overslept, deadline, k + 1, env);
        Trace(rest.result, 1 + rest.dials, [wait] + rest.waits, [now1 + wait] + rest.ends)
  }

  /** The waits of a run add up to at least a geometric sum, and each is due by the deadline. */
  lemma {:induction false} Budgeted(now: nat, deadline: nat, k: nat, env: nat -> Attempt)
    ensures var t := Play(now, deadline, k, env);
      && t.dials <= |t.waits| + 1
      && |t.ends| == |t.waits|
      && (t.waits != [] ==> now + SECOND * (Pow2(k + |t.waits|) - Pow2(k)) <= deadline)
      && (forall i | 0 <= i < |t.ends| :: t.ends[i] <= deadline)
    decreases deadline - now
  {
    var a := env(k);
    var now1 := now + a.duration;
    var wait := SECOND * Pow2(k) + a.jitter;
    assert Pow2(k + 1) - Pow2(k) == Pow2(k);
    if !a.hasConn && a.outcome.Failed? && now1 + wait <= deadline && !a.cancelled {
      Pow2Positive(k);
      var later := now1 + wait + a.overslept;
      Budgeted(later, deadline, k + 1, env);
      var rest := Play(later, deadline, k + 1, env);
      assert k + (1 + |rest.waits|) == k + 1 + |rest.waits|;
    }
  }

  /** The waits themselves: 1 s, 2 s, 4 s, ... each with its own jitter. */
  lemma {:induction false} WaitsDouble(now: nat, deadline: nat, k: nat, env: nat -> Attempt, i: nat)
    requires i < |Play(now, deadline, k, env).waits|
    ensures Play(now, deadline, k, env).waits[i] == SECOND * Pow2(k + i) + env(k + i).jitter
    decreases i
  {
    var a := env(k);
    var wait := SECOND * Pow2(k) + a.jitter;
    if i > 0 {
      Pow2Positive(k);
      WaitsDouble(now + a.duration + wait + a.overslept, deadline, k + 1, env, i - 1);
      assert k + 1 + (i - 1) == k + i;
    }
  }

  /**
   A run that sleeps n times satisfies 2^n - 1 <= B for a budget of B seconds:
   it makes at most log2(B + 1) + 1 dials, and every wait is due by the deadline.
   */
  lemma RedialBound(start: nat, budget: nat, env: nat -> Attempt)
    ensures var t := Play(start, start + budget, 0, env);
      && (Pow2(|t.waits|) - 1) * SECOND <= budget
      && t.dials <= |t.waits| + 1
      && (t.dials > 0 ==> (Pow2(t.dials - 1) - 1) * SECOND <= budget)
      && (forall i | 0 <= i < |t.ends| :: t.ends[i] <= start + budget)
  {
    Budgeted(start, start + budget, 0, env);
    var t := Play(start, start + budget, 0, env);
    if t.dials > 0 {
      Pow2Monotone(t.dials - 1, |t.waits|);
    }
  }

  /** Attempt `i` failed in a way that is worth another attempt. */
  predicate Retriable(env: nat -> Attempt, i: nat) {
    !env(i).hasConn && env(i).outcome.Failed?
  }

  /** When the attempt after the last wait of `t` starts. */
  function LastStart(now: nat, k: nat, env: nat -> Attempt, t: Trace): nat
    requires |t.ends| == |t.waits|
  {
    if t.waits == [] then now else t.ends[|t.ends| - 1] + env(k + |t.waits| - 1).overslept
  }

  ghost predicate Explained(now: nat, deadline: nat, k: nat, env: nat -> Attempt, t: Trace) {
    var n := |t.waits|;
    var last := env(k + n);
    && |t.ends| == n
    && (forall i | k <= i < k + n :: Retriable(env, i))
    && (t.result.Cancelled? <==> n > 0 && env(k + n - 1).cancelled)
    && (!t.result.Cancelled? ==>
         && (t.result.Reconnected? <==> last.hasConn || last.outcome.Attached?)
         && (t.result.SessionGone? <==> !last.hasConn && last.outcome.Gone?)
         && (t.result.BudgetExhausted? <==> Retriable(env, k + n))
         && (Retriable(env, k + n) ==>
              LastStart(now, k, env, t) + last.duration + SECOND * Pow2(k + n) + last.jitter > deadline))
    && t.dials == n + (if t.result.Cancelled? || last.hasConn then 0 else 1)
  }

  lemma ExplainedNext(now: nat, deadline: nat, k: nat, env: nat -> Attempt, wait: nat, end: nat, rest: Trace)
    requires Retriable(env, k) && !env(k).cancelled
    requires Explained(end + env(k).overslept, deadline, k + 1, env, rest)
    ensures Explained(now, deadline, k, env,
                      Trace(rest.result, 1 + rest.dials, [wait] + rest.waits, [end] + rest.ends))
  {
    var t := Trace(rest.result, 1 + rest.dials, [wait] + rest.waits, [end] + rest.ends);
    hide Pow2;
    assert k + 1 + |rest.waits| == k + |t.waits|;
    assert LastStart(end + env(k).overslept, k + 1, env, rest) == LastStart(now, k, env, t);
  }

  /**
   What the result says: every attempt followed by a wait was a plain failure;
   unless ctx ended in a wait, the attempt after the last wait decides: a connection
   (found or attached), a session that is gone, or a failure whose next wait would
   end after the deadline.  Every attempt is a dial unless a connection is found.
   */
  lemma {:induction false} ResultMeans(now: nat, deadline: nat, k: nat, env: nat -> Attempt)
    ensures Explained(now, deadline, k, env, Play(now, deadline, k, env))
    decreases deadline - now
  {
    var a := env(k);
    var now1 := now + a.duration;
    var wait := SECOND * Pow2(k) + a.jitter;
    PlayTurn(now, deadline, k, env);
    hide Play, Pow2;
    if Retriable(env, k) && now1 + wait <= deadline && !a.cancelled {
      Pow2Positive(k);
      var later := now1 + wait + a.overslept;
      hide Explained;
      ResultMeans(later, deadline, k + 1, env);
      ExplainedNext(now, deadline, k, env, wait, now1 + wait, Play(later, deadline, k + 1, env));
    }
  }

  /** When each wait is due: the dial starts when the wait before is over, and the wait begins when the dial has failed. */
  lemma {:induction false} DueTimes(now: nat, deadline: nat, k: nat, env: nat -> Attempt, i: nat)
    requires i < |Play(now, deadline, k, env).waits|
    ensures var t := Play(now, deadline, k, env);
      && |t.ends| == |t.waits|
      && t.ends[i] == (if i == 0 then now else t.ends[i - 1] + env(k + i - 1).overslept) + env(k + i).duration + t.waits[i]
    decreases i
  {
    Budgeted(now, deadline, k, env);
    PlayTurn(now, deadline, k, env);
    hide Play, Pow2;
    if i > 0 {
      var a := env(k);
      var wait := SECOND * Pow2(k) + a.jitter;
      Pow2Positive(k);
      var later := now + a.duration + wait + a.overslept;
      DueTimes(later, deadline, k + 1, env, i - 1);
      Budgeted(later, deadline, k + 1, env);
      assert k + 1 + (i - 1) == k + i && (i > 1 ==> k + 1 + (i - 1) - 1 == k + i - 1);
    }
  }

  /** Dials that fail at once, no jitter, no oversleeping. */
  predicate FailsFast(env: nat -> Attempt, k: nat) {
    env(k) == Attempt(false, Failed, 0, 0, 0, false)
  }

  /** The bound is attained: when every dial fails at once, the run sleeps as often as 2^n - 1 <= B allows. */
  lemma {:induction false} BoundAttained(now: nat, deadline: nat, k: nat, env: nat -> Attempt)
    requires forall i :: FailsFast(env, i)
    ensures var t := Play(now, deadline, k, env);
      && t.result == BudgetExhausted
      && t.dials == |t.waits| + 1
      && now + SECOND * (Pow2(k + |t.waits| + 1) - Pow2(k)) > deadline
    decreases deadline - now
  {
    assert FailsFast(env, k);
    var wait := SECOND * Pow2(k);
    if now + wait <= deadline {
      Pow2Positive(k);
      BoundAttained(now + wait, deadline, k + 1, env);
      var rest := Play(now + wait, deadline, k + 1, env);
      assert k + 1 + |rest.waits| + 1 == k + |Play(now, deadline, k, env).waits| + 1;
    } else {
      assert Pow2(k + 1) - Pow2(k) == Pow2(k);
    }
  }

  /**
   With the code's 5 s: at most 3 dials and 2 waits, the first of 1 s and the
   second of 2 s, each with less than half a second of jitter.
   */
  lemma FiveSeconds(start: nat, env: nat -> Attempt)
    ensures RECONNECT_BUDGET == 5_000_000_000
    ensures var t := Play(start, start + RECONNECT_BUDGET, 0, env);
      && t.dials <= 3 && |t.waits| <= 2
      && (|t.waits| >= 1 && Env(env, 0) ==> 1_000_000_000 <= t.waits[0] < 1_500_000_000)
      && (|t.waits| == 2 && Env(env, 1) ==> 2_000_000_000 <= t.waits[1] < 2_500_000_000)
  {
    RedialBound(start, RECONNECT_BUDGET, env);
    assert Pow2(3) == 2 * Pow2(2) && Pow2(2) == 2 * Pow2(1) && Pow2(1) == 2;
    var t := Play(start, start + RECONNECT_BUDGET, 0, env);
    if |t.waits| >= 3 {
      Pow2Monotone(3, |t.waits|);
    }
    if |t.waits| >= 1 {
      WaitsDouble(start, start + RECONNECT_BUDGET, 0, env, 0);
    }
    if |t.waits| == 2 {
      WaitsDouble(start, start + RECONNECT_BUDGET, 0, env, 1);
    }
  }

  lemma AtMostFour(n: nat)
    ensures n <= 2 ==> Pow2(n) <= 4
  {
    if n <= 2 {
      Pow2Monotone(n, 2);
      assert Pow2(2) == 2 * Pow2(1) && Pow2(1) == 2;
    }
  }

  /** And when every dial fails at once, without jitter, exactly 3 dials and the waits of 1 s and 2 s. */
  lemma ThreeDials(start: nat, env: nat -> Attempt)
    requires forall i :: FailsFast(env, i)
    ensures var t := Play(start, start + RECONNECT_BUDGET, 0, env);
      t.result == BudgetExhausted && t.dials == 3 && t.waits == [1_000_000_000, 2_000_000_000]
  {
    FiveSeconds(start, env);
    BoundAttained(start, start + RECONNECT_BUDGET, 0, env);
    var t := Play(start, start + RECONNECT_BUDGET, 0, env);
    assert Pow2(1) == 2 && Pow2(2) == 4;
    assert FailsFast(env, 0) && FailsFast(env, 1);
    AtMostFour(|t.waits| + 1);
    WaitsDouble(start, start + RECONNECT_BUDGET, 0, env, 0);
    WaitsDouble(start, start + RECONNECT_BUDGET, 0, env, 1);
  }

  /** A backoff that fits any 64-bit budget cannot overflow the shift, even with its jitter. */
  lemma ShiftFits(n: nat, budget: nat, jitter: nat)
    requires (Pow2(n) - 1) * SECOND <= budget <= MAX_INT64 && jitter < JITTER
    ensures SECOND * Pow2(n) + jitter <= MAX_INT64
    ensures Int64(SECOND * Pow2(n)) + jitter == SECOND * Pow2(n) + jitter
  {
    if n >= 34 {
      Pow2Monotone(34, n);
      Powers();
    } else {
      Pow2Monotone(n, 33);
      Powers();
    }
  }

  lemma Powers()
    ensures Pow2(33) == 0x2_0000_0000 && Pow2(34) == 0x4_0000_0000
  {
    assert Pow2(4) == 16;
    assert Pow2(8) == 256;
    assert Pow2(12) == 0x1000;
    assert Pow2(16) == 0x1_0000;
    assert Pow2(20) == 0x10_0000;
    assert Pow2(24) == 0x100_0000;
    assert Pow2(28) == 0x1000_0000;
    assert Pow2(32) == 0x1_0000_0000;
  }

  /** `t` after a run that already made `dials` dials and asked for `waits`. */
  function After(dials: nat, waits: seq<nat>, ends: seq<nat>, t: Trace): Trace {
    Trace(t.result, dials + t.dials, waits + t.waits, ends + t.ends)
  }

  lemma AfterOne(dials: nat, waits: seq<nat>, ends: seq<nat>, wait: nat, end: nat, t: Trace)
    ensures After(dials, waits, ends, Trace(t.result, 1 + t.dials, [wait] + t.waits, [end] + t.ends)) ==
            After(dials + 1, waits + [wait], ends + [end], t)
  {
    assert waits + ([wait] + t.waits) == waits + [wait] + t.waits;
    assert ends + ([end] + t.ends) == ends + [end] + t.ends;
  }

  lemma AfterNothing(t: Trace)
    ensures After(0, [], [], t) == t
  {
  }

  lemma AfterLast(dials: nat, waits: seq<nat>, ends: seq<nat>, t: Trace)
    ensures After(dials, waits, ends, t) == Trace(t.result, dials + t.dials, waits + t.waits, ends + t.ends)
    ensures waits + [] == waits && ends + [] == ends
  {
  }

  lemma Pow2Next(n: nat)
    ensures Pow2(0) == 1 && Pow2(n + 1) == 2 * Pow2(n)
  {
  }

  /** What one turn of the loop contributes. */
  lemma PlayTurn(now: nat, deadline: nat, k: nat, env: nat -> Attempt)
    ensures var a, t := env(k), Play(now, deadline, k, env);
      var wait, now1 := SECOND * Pow2(k) + a.jitter, now + a.duration;
      && (a.hasConn ==> t == Trace(Reconnected, 0, [], []))
      && (!a.hasConn && a.outcome.Attached? ==> t == Trace(Reconnected, 1, [], []))
      && (!a.hasConn && a.outcome.Gone? ==> t == Trace(SessionGone, 1, [], []))
      && (!a.hasConn && a.outcome.Failed? && now1 + wait > deadline ==> t == Trace(BudgetExhausted, 1, [], []))
      && (!a.hasConn && a.outcome.Failed? && now1 + wait <= deadline ==>
           if a.cancelled then t == Trace(Cancelled, 1, [wait], [now1 + wait])
           else var rest := Play(now1 + wait + a.overslept, deadline, k + 1, env);
             t == Trace(rest.result, 1 + rest.dials, [wait] + rest.waits, [now1 + wait] + rest.ends))
  {
  }

  /** The loop as written, with its 64-bit shift. */
  method Redial(start: nat, budget: nat, env: nat -> Attempt) returns (t: Trace)
    requires budget <= MAX_INT64
    requires forall k :: Env(env, k)
    ensures t == Play(start, start + budget, 0, env)
  {
    var deadline := start + budget;
    var now := start;
    var attempt := 0;
    var waits: seq<nat>, ends: seq<nat> := [], [];
    hide Play, Int64, Pow2, After;
    AfterNothing(Play(start, deadline, 0, env));
    Pow2Next(0);
    while true
      invariant |waits| == |ends| == attempt
      invariant start + SECOND * (Pow2(attempt) - 1) <= now
      invariant SECOND * (Pow2(attempt) - 1) <= budget
      invariant Play(start, deadline, 0, env) == After(attempt, waits, ends, Play(now, deadline, attempt, env))
      decreases deadline - now
    {
      var a := env(attempt);
      assert Env(env, attempt);
      PlayTurn(now, deadline, attempt, env);
      ghost var turn := Play(now, deadline, attempt, env);
      if a.hasConn {
        AfterLast(attempt, waits, ends, turn);
        return Trace(Reconnected, attempt, waits, ends);
      }
      now := now + a.duration;
      if a.outcome.Attached? {
        AfterLast(attempt, waits, ends, turn);
        return Trace(Reconnected, attempt + 1, waits, ends);
      }
      if a.outcome.Gone? {
        AfterLast(attempt, waits, ends, turn);
        return Trace(SessionGone, attempt + 1, waits, ends);
      }
      ShiftFits(attempt, budget, a.jitter);
      var wait: nat := Int64(SECOND * Pow2(attempt)) + a.jitter;
      if now + wait > deadline {
        AfterLast(attempt, waits, ends, turn);
        return Trace(BudgetExhausted, attempt + 1, waits, ends);
      }
      if a.cancelled {
        AfterLast(attempt, waits, ends, turn);
        return Trace(Cancelled, attempt + 1, waits + [wait], ends + [now + wait]);
      }
      Pow2Positive(attempt);
      Pow2Next(attempt);
      AfterOne(attempt, waits, ends, wait, now + wait, Play(now + wait + a.overslept, deadline, attempt + 1, env));
      waits, ends := waits + [wait], ends + [now + wait];
      now := now + wait + a.overslept;
      attempt := attempt + 1;
    }
  }
}
