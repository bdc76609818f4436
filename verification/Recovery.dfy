/**
 Waking up: the capacity-1 `lost` channel, the supervisor, and the `changed`
 channel that is closed to broadcast a new connection or the end.  One step is
 one critical section or one channel operation of some goroutine.
 */
module Recovery {
  import opened Bytes

  type ChanId = nat
  type Goroutine = nat

  datatype Supervisor =
    | Listening              // select on ctx and lost
    | Recovering             // in redial or awaitResume, no connection seen yet
    | Asleep(ch: ChanId)     // awaitResume blocked on the changed channel it read
    | Done                   // saw or attached a connection, about to return to the select
    | Stopped                // returned for good

  datatype State = State(
    ws: Option<nat>,
    cancelled: bool,
    closed: bool,                        // Close's critical section has run
    lost: bool,                          // the token is in the channel
    owed: nat,                           // goroutines between clearing ws and signalLost
    sup: Supervisor,
    changed: ChanId,                     // the current broadcast channel
    closings: seq<ChanId>,               // history: every close of a broadcast channel
    waiting: map<Goroutine, ChanId>      // goroutines blocked in current(), and on what
  )

  datatype Step =
    | Clear                      // broken or detach finds a connection and drops it
    | Signal                     // signalLost: a send that never blocks
    | TakeToken
    | SupervisorAttach(ws: nat)  // commit of redial's attach (client)
    | HandlerAttach(ws: nat)     // commit of UpdateWsConn (server)
    | Look                       // hasConn, or the loop head of awaitResume
    | Sleep                      // awaitResume found no connection
    | Wake
    | GiveUp                     // budget or grace exhausted: closeWith
    | Return
    | Stop                       // supervisor sees ctx.Done
    | Cancel
    | Close
    | Block(g: Goroutine)        // current() found no connection
    | Unblock(g: Goroutine)

  function Init(): State {
    State(Some(0), false, false, false, 0, Listening, 0, [], map[])
  }

  predicate Enabled(s: State, st: Step) {
    match st
    case Clear => s.ws.Some?
    case Signal => s.owed > 0
    case TakeToken => s.sup.Listening? && s.lost
    case SupervisorAttach(_) => s.sup.Recovering? && s.ws.None? && !s.cancelled
    case HandlerAttach(_) => s.ws.None? && !s.cancelled
    case Look => s.sup.Recovering? && s.ws.Some?
    case Sleep => s.sup.Recovering? && s.ws.None?
    case Wake => s.sup.Asleep? && s.sup.ch in s.closings
    case GiveUp => s.sup.Recovering? || s.sup.Asleep?
    case Return => s.sup.Done?
    case Stop => s.cancelled
    case Cancel => true
    case Close => s.cancelled && !s.closed
    case Block(g) => s.ws.None? && g !in s.waiting
    case Unblock(g) => g in s.waiting && (s.waiting[g] in s.closings || s.cancelled)
  }

  /** ws becomes current: the broadcast channel is closed and replaced under mu. */
  function Install(s: State, ws: nat): State {
    s.(ws := Some(ws), closings := s.closings + [s.changed], changed := s.changed + 1)
  }

  function Apply(s: State, st: Step): State
    requires Enabled(s, st)
  {
    match st
    case Clear => s.(ws := None, owed := s.owed + 1)
    case Signal => s.(owed := s.owed - 1, lost := true)
    case TakeToken => s.(lost := false, sup := Recovering)
    case SupervisorAttach(ws) => Install(s, ws).(sup := Done)
    case HandlerAttach(ws) => Install(s, ws)
    case Look => s.(sup := Done)
    case Sleep => s.(sup := Asleep(s.changed))
    case Wake => s.(sup := Recovering)
    case GiveUp => s.(cancelled := true, sup := Stopped)
    case Return => s.(sup := if s.cancelled then Stopped else Listening)
    case Stop => s.(sup := Stopped)
    case Cancel => s.(cancelled := true)
    case Close => s.(ws := None, closed := true, closings := s.closings + [s.changed])
    case Block(g) => s.(waiting := s.waiting[g := s.changed])
    case Unblock(g) => s.(waiting := s.waiting - {g})
  }

  predicate Legal(s: State, run: seq<Step>)
    decreases |run|
  {
    run == [] || (Enabled(s, run[0]) && Legal(Apply(s, run[0]), run[1..]))
  }

  function Exec(s: State, run: seq<Step>): State
    requires Legal(s, run)
    decreases |run|
  {
    if run == [] then s else Exec(Apply(s, run[0]), run[1..])
  }

  /** Someone is responsible for a missing connection. */
  predicate Attended(s: State) {
    s.lost || s.owed > 0 || s.sup.Recovering? || s.sup.Asleep?
  }

  /** A goroutine blocked on `ch` missed nothing: the channel is closed, or there is still no connection. */
  predicate Justified(s: State, ch: ChanId) {
    ch in s.closings || (ch == s.changed && s.ws.None? && !s.closed)
  }

  ghost predicate Inv(s: State) {
    && (!s.cancelled && s.ws.None? ==> Attended(s))
    && (s.sup.Stopped? ==> s.cancelled)
    && (s.closed ==> s.cancelled && s.ws.None?)
    && (forall i | 0 <= i < |s.closings| :: s.closings[i] <= s.changed)
    && (s.changed in s.closings <==> s.closed)
    && (forall i, j | 0 <= i < j < |s.closings| :: s.closings[i] != s.closings[j])
    && (forall g | g in s.waiting :: Justified(s, s.waiting[g]))
    && (s.sup.Asleep? ==> Justified(s, s.sup.ch))
  }

  predicate Closing(st: Step) {
    st.SupervisorAttach? || st.HandlerAttach? || st.Close?
  }

  /** Closing a channel that is not closed yet keeps the closings distinct and every sleeper justified. */
  lemma ClosedNow(s: State, s': State)
    requires Inv(s) && s.changed !in s.closings
    requires s'.closings == s.closings + [s.changed] && s'.waiting == s.waiting
    ensures forall i, j | 0 <= i < j < |s'.closings| :: s'.closings[i] != s'.closings[j]
    ensures forall i | 0 <= i < |s'.closings| :: s'.closings[i] <= s.changed
    ensures forall ch | Justified(s, ch) :: ch in s'.closings
    ensures s.changed in s'.closings && s.changed + 1 !in s'.closings
  {
    assert s'.closings[|s.closings|] == s.changed;
    forall ch | Justified(s, ch) ensures ch in s'.closings {
      if ch in s.closings {
        var i :| 0 <= i < |s.closings| && s.closings[i] == ch;
        assert s'.closings[i] == ch;
      }
    }
  }

  lemma KeepClosing(s: State, st: Step)
    requires Inv(s) && Enabled(s, st) && Closing(st)
    ensures Inv(Apply(s, st))
  {
    ClosedNow(s, Apply(s, st));
  }

  lemma StillJustified(s: State, s': State)
    requires s'.closings == s.closings && s'.changed == s.changed && s'.closed == s.closed
    requires s.ws.None? ==> s'.ws.None?
    ensures forall ch | Justified(s, ch) :: Justified(s', ch)
    ensures s.ws.None? && (s.closed ==> s.changed in s.closings) ==> Justified(s', s.changed)
  {
  }

  lemma KeepOther(s: State, st: Step)
    requires Inv(s) && Enabled(s, st) && !Closing(st)
    ensures Inv(Apply(s, st))
  {
    StillJustified(s, Apply(s, st));
    hide Justified;
  }

  lemma KeepInv(s: State, st: Step)
    requires Inv(s) && Enabled(s, st)
    ensures Inv(Apply(s, st))
  {
    hide Inv, Apply, Enabled;
    if Closing(st) {
      KeepClosing(s, st);
    } else {
      KeepOther(s, st);
    }
  }

  lemma {:induction false} KeepRun(s: State, run: seq<Step>)
    requires Inv(s) && Legal(s, run)
    ensures Inv(Exec(s, run))
    decreases |run|
  {
    hide Inv;
    if run != [] {
      KeepInv(s, run[0]);
      KeepRun(Apply(s, run[0]), run[1..]);
    }
  }

  lemma {:induction false} Reachable(run: seq<Step>)
    requires Legal(Init(), run)
    ensures Inv(Exec(Init(), run))
  {
    KeepRun(Init(), run);
  }

  /**
   No lost wakeup: while open without a connection, the token is there, or the
   supervisor is in recovery, or a goroutine sits between clearing ws and signalling.
   */
  lemma {:induction false} NoLostWakeup(run: seq<Step>)
    requires Legal(Init(), run)
    ensures var s := Exec(Init(), run);
      !s.cancelled && s.ws == None ==> s.lost || s.owed > 0 || s.sup.Recovering? || s.sup.Asleep?
  {
    Reachable(run);
  }

  /** And then at most three steps of the goroutines already under way bring the supervisor into recovery. */
  lemma {:induction false} RecoveryIsNear(run: seq<Step>) returns (more: seq<Step>)
    requires Legal(Init(), run)
    requires var s := Exec(Init(), run); !s.cancelled && s.ws == None
    ensures |more| <= 3 && forall st | st in more :: st.Signal? || st.Return? || st.TakeToken?
    ensures Legal(Exec(Init(), run), more)
    ensures var t := Exec(Exec(Init(), run), more); t.sup.Recovering? || t.sup.Asleep?
  {
    Reachable(run);
    var s := Exec(Init(), run);
    more := [];
    if !(s.sup.Recovering? || s.sup.Asleep?) {
      var a: seq<Step> := if s.lost then [] else [Signal];
      var b: seq<Step> := if s.sup.Done? then [Return] else [];
      Chain(s, a, b);
      more := a + b + [TakeToken];
    }
  }

  lemma Chain(s: State, a: seq<Step>, b: seq<Step>)
    requires Inv(s) && !s.cancelled && s.ws == None && !s.sup.Recovering? && !s.sup.Asleep?
    requires a == (if s.lost then [] else [Signal]) && b == (if s.sup.Done? then [Return] else [])
    ensures Legal(s, a + b + [TakeToken]) && Exec(s, a + b + [TakeToken]).sup.Recovering?
  {
    var run := a + b + [TakeToken];
    var s1 := if s.lost then s else Apply(s, Signal);
    var s2 := if s.sup.Done? then Apply(s1, Return) else s1;
    assert s2.sup.Listening? && s2.lost;
    Single(s2);
    if s.sup.Done? {
      assert ([Return] + [TakeToken])[1..] == [TakeToken];
      assert Legal(s1, [Return] + [TakeToken]) && Exec(s1, [Return] + [TakeToken]) == Apply(s2, TakeToken);
    }
    assert Legal(s1, b + [TakeToken]) && Exec(s1, b + [TakeToken]) == Apply(s2, TakeToken) by {
      if !s.sup.Done? {
        assert b + [TakeToken] == [TakeToken];
      }
    }
    if s.lost {
      assert run == b + [TakeToken];
    } else {
      assert run[1..] == b + [TakeToken];
    }
  }

  lemma Single(s: State)
    requires s.sup.Listening? && s.lost
    ensures Legal(s, [TakeToken]) && Exec(s, [TakeToken]) == Apply(s, TakeToken)
  {
    assert [TakeToken][1..] == [];
    assert Legal(Apply(s, TakeToken), []);
  }

  /** No goroutine stays blocked on an open channel while a connection is installed or after Close. */
  lemma {:induction false} NobodySleepsThrough(run: seq<Step>, g: Goroutine)
    requires Legal(Init(), run)
    requires g in Exec(Init(), run).waiting
    ensures var s := Exec(Init(), run);
      s.ws.Some? || s.closed ==> Enabled(s, Unblock(g))
    ensures var s := Exec(Init(), run);
      s.sup.Asleep? && (s.ws.Some? || s.closed) ==> Enabled(s, Wake)
  {
    Reachable(run);
  }

  /** Every broadcast channel is closed at most once, also when Close races with attach. */
  lemma {:induction false} ClosedOnce(run: seq<Step>, i: nat, j: nat)
    requires Legal(Init(), run)
    requires i < j < |Exec(Init(), run).closings|
    ensures Exec(Init(), run).closings[i] != Exec(Init(), run).closings[j]
  {
    Reachable(run);
  }

  /** After Close no connection is ever installed again and no channel is closed again. */
  lemma {:induction false} CloseIsFinal(s: State, run: seq<Step>)
    requires Inv(s) && s.closed && Legal(s, run)
    ensures var t := Exec(s, run); t.closed && t.ws == None && t.closings == s.closings
    decreases |run|
  {
    if run != [] {
      KeepInv(s, run[0]);
      CloseIsFinal(Apply(s, run[0]), run[1..]);
    }
  }

  // ---------------------------------------------- what a state says of its run

  /** The last step of a run acts on the state before it. */
  lemma {:induction false} ExecLast(s: State, run: seq<Step>)
    requires Legal(s, run) && run != []
    ensures var front := run[..|run| - 1];
      && Legal(s, front) && Enabled(Exec(s, front), run[|run| - 1])
      && Exec(s, run) == Apply(Exec(s, front), run[|run| - 1])
    decreases |run|
  {
    if |run| == 1 {
      assert run[..0] == [];
    } else {
      ExecLast(Apply(s, run[0]), run[1..]);
      assert run[1..][..|run| - 2] == run[..|run| - 1][1..];
    }
  }

  predicate SetsConn(st: Step) {
    st.SupervisorAttach? || st.HandlerAttach? || st.Clear? || st.Close?
  }

  predicate Attaches(st: Step, d: nat) {
    st == SupervisorAttach(d) || st == HandlerAttach(d)
  }

  /** The last step that sets or drops a connection is an attach of `d`; 0 is there from the start. */
  ghost predicate LastAttached(run: seq<Step>, d: nat) {
    || (exists k :: 0 <= k < |run| && Attaches(run[k], d) && (forall j | k < j < |run| :: !SetsConn(run[j])))
    || (d == 0 && (forall j | 0 <= j < |run| :: !SetsConn(run[j])))
  }

  lemma LastAttachedGrows(front: seq<Step>, last: Step, d: nat)
    requires if SetsConn(last) then Attaches(last, d) else LastAttached(front, d)
    ensures LastAttached(front + [last], d)
  {
    var run := front + [last];
    hide SetsConn, Attaches;
    if SetsConn(last) {
      assert run[|front|] == last;
    } else if k :| 0 <= k < |front| && Attaches(front[k], d) && (forall j | k < j < |front| :: !SetsConn(front[j])) {
      assert run[k] == front[k];
    }
  }

  lemma LastAttachedShrinks(front: seq<Step>, last: Step, d: nat)
    requires LastAttached(front + [last], d)
    ensures if SetsConn(last) then Attaches(last, d) else LastAttached(front, d)
  {
    var run := front + [last];
    assert run[|front|] == last && (Attaches(last, d) ==> SetsConn(last));
    hide SetsConn, Attaches;
    assert forall j | 0 <= j < |front| :: front[j] == run[j];
    if k :| 0 <= k < |run| && Attaches(run[k], d) && (forall j | k < j < |run| :: !SetsConn(run[j])) {
      if k < |front| {
        assert Attaches(front[k], d);
      }
    }
  }

  /** The current connection is the one attached last, unless it was dropped or Close has run since. */
  lemma {:induction false} CurrentIsLastAttached(run: seq<Step>, d: nat)
    requires Legal(Init(), run)
    ensures Exec(Init(), run).ws == Some(d) <==> LastAttached(run, d)
    decreases |run|
  {
    if run != [] {
      ExecLast(Init(), run);
      var front, last := run[..|run| - 1], run[|run| - 1];
      CurrentIsLastAttached(front, d);
      assert run == front + [last];
      hide LastAttached;
      var stays := if SetsConn(last) then Attaches(last, d) else LastAttached(front, d);
      if stays {
        LastAttachedGrows(front, last, d);
      } else if LastAttached(run, d) {
        LastAttachedShrinks(front, last, d);
      }
    }
  }

  function Count(run: seq<Step>, p: Step -> bool): nat {
    if run == [] then 0 else Count(run[..|run| - 1], p) + (if p(run[|run| - 1]) then 1 else 0)
  }

  /** The last of the steps in `among` is one of `these`. */
  predicate LastOf(run: seq<Step>, among: Step -> bool, these: Step -> bool) {
    run != [] &&
    var last := run[|run| - 1];
    if among(last) then these(last) else LastOf(run[..|run| - 1], among, these)
  }

  predicate IsSignal(st: Step) { st.Signal? }
  predicate IsClear(st: Step) { st.Clear? }
  predicate MovesToken(st: Step) { st.Signal? || st.TakeToken? }

  /** What one step does to these parts of the state. */
  lemma OneStep(s: State, st: Step)
    requires Enabled(s, st)
    ensures var t := Apply(s, st);
      && (t.lost <==> if MovesToken(st) then IsSignal(st) else s.lost)
      && t.owed == s.owed + (if IsClear(st) then 1 else 0) - (if IsSignal(st) then 1 else 0)
      && |t.closings| == |s.closings| + (if Closing(st) then 1 else 0)
      && (t.closed <==> s.closed || st == Close)
      && (t.cancelled <==> s.cancelled || st == Cancel || st == GiveUp)
  {
  }

  /**
   The rest of the state: the token is there if it was put in last, a goroutine
   owes a signal for every drop not signalled, every attach and Close broadcasts
   once, and Close and cancellation are never undone.
   */
  lemma {:induction false} StateIsHistory(run: seq<Step>)
    requires Legal(Init(), run)
    ensures var s := Exec(Init(), run);
      && (s.lost <==> LastOf(run, MovesToken, IsSignal))
      && s.owed + Count(run, IsSignal) == Count(run, IsClear)
      && |s.closings| == Count(run, Closing)
      && (s.closed <==> Close in run)
      && (s.cancelled <==> Cancel in run || GiveUp in run)
    decreases |run|
  {
    if run != [] {
      var front, last := run[..|run| - 1], run[|run| - 1];
      ExecLast(Init(), run);
      OneStep(Exec(Init(), front), last);
      assert run == front + [last];
      hide Apply, Enabled, Legal, Exec, MovesToken, IsSignal, IsClear, Closing;
      StateIsHistory(front);
    }
  }

  lemma OneStepWaiting(s: State, st: Step, g: Goroutine)
    requires Enabled(s, st)
    ensures g in Apply(s, st).waiting <==>
            if st == Block(g) || st == Unblock(g) then st == Block(g) else g in s.waiting
  {
  }

  /** A goroutine waits in current() exactly from its Block to its Unblock. */
  lemma {:induction false} WaitsSinceBlock(run: seq<Step>, g: Goroutine)
    requires Legal(Init(), run)
    ensures g in Exec(Init(), run).waiting <==>
            LastOf(run, (st: Step) => st == Block(g) || st == Unblock(g), (st: Step) => st == Block(g))
    decreases |run|
  {
    if run != [] {
      ExecLast(Init(), run);
      OneStepWaiting(Exec(Init(), run[..|run| - 1]), run[|run| - 1], g);
      hide Apply, Enabled, Legal, Exec;
      WaitsSinceBlock(run[..|run| - 1], g);
    }
  }

  /** Once a connection is there, at most three steps bring the supervisor back to listening. */
  lemma {:induction false} ListeningIsNear(run: seq<Step>) returns (more: seq<Step>)
    requires Legal(Init(), run)
    requires var s := Exec(Init(), run); !s.cancelled && s.ws.Some?
    ensures |more| <= 3 && forall st | st in more :: st.Wake? || st.Look? || st.Return?
    ensures Legal(Exec(Init(), run), more)
    ensures Exec(Exec(Init(), run), more).sup.Listening?
  {
    Reachable(run);
    var s := Exec(Init(), run);
    match s.sup {
      case Listening => more := [];
      case Done => more := [Return];
      case Recovering => more := [Look, Return];
      case Asleep(_) => more := [Wake, Look, Return];
      case Stopped => more := [];
    }
    Back(s);
  }

  lemma Back(s: State)
    requires Inv(s) && !s.cancelled && s.ws.Some?
    ensures !s.sup.Stopped?
    ensures s.sup.Done? ==> Legal(s, [Return]) && Exec(s, [Return]).sup.Listening?
    ensures s.sup.Recovering? ==> Legal(s, [Look, Return]) && Exec(s, [Look, Return]).sup.Listening?
    ensures s.sup.Asleep? ==> Legal(s, [Wake, Look, Return]) && Exec(s, [Wake, Look, Return]).sup.Listening?
  {
    assert [Return][1..] == [] && [Look, Return][1..] == [Return] && [Wake, Look, Return][1..] == [Look, Return];
    var s1 := if s.sup.Asleep? then Apply(s, Wake) else s;
    var s2 := if s1.sup.Recovering? then Apply(s1, Look) else s1;
    if s2.sup.Done? {
      assert Legal(Apply(s2, Return), []);
      assert Legal(s2, [Return]) && Exec(s2, [Return]).sup.Listening?;
    }
    if s1.sup.Recovering? {
      assert Legal(s1, [Look, Return]) && Exec(s1, [Look, Return]).sup.Listening?;
    }
  }

  /** The client's own attach ends its recovery at once. */
  lemma OwnAttachReturns(s: State, d: nat)
    requires Enabled(s, SupervisorAttach(d))
    ensures var run := [SupervisorAttach(d), Return];
      Legal(s, run) && Exec(s, run).ws == Some(d) && Exec(s, run).sup.Listening?
  {
    var run := [SupervisorAttach(d), Return];
    TwoSteps(s, SupervisorAttach(d), Return);
  }

  lemma TwoSteps(s: State, a: Step, b: Step)
    requires Enabled(s, a) && Enabled(Apply(s, a), b)
    ensures Legal(s, [a, b]) && Exec(s, [a, b]) == Apply(Apply(s, a), b)
  {
    var s2 := Apply(Apply(s, a), b);
    assert [a, b][1..] == [b] && [b][1..] == [];
    assert Legal(s2, []) && Exec(s2, []) == s2;
    assert Legal(Apply(s, a), [b]) && Exec(Apply(s, a), [b]) == s2;
  }

  /** Cancellation can stop the supervisor wherever it is, and it stays stopped. */
  lemma CancelStops(s: State, more: seq<Step>)
    requires Legal(s, [Cancel, Stop] + more)
    ensures Exec(s, [Cancel, Stop] + more).sup.Stopped?
  {
    var run := [Cancel, Stop] + more;
    assert run[1..] == [Stop] + more && run[1..][1..] == more;
    NoListeningAfterCancel(Apply(Apply(s, Cancel), Stop), more);
  }

  /** After cancellation a supervisor that comes out of recovery stops: it never listens again. */
  lemma {:induction false} NoListeningAfterCancel(s: State, run: seq<Step>)
    requires Legal(s, run) && s.cancelled && !s.sup.Listening?
    ensures var t := Exec(s, run); t.cancelled && !t.sup.Listening? && (s.sup.Stopped? ==> t.sup.Stopped?)
    decreases |run|
  {
    if run != [] {
      NoListeningAfterCancel(Apply(s, run[0]), run[1..]);
    }
  }

  /** A supervisor that gives up ends the session, and stays stopped. */
  lemma GiveUpEnds(s: State, more: seq<Step>)
    requires Legal(s, [GiveUp] + more)
    ensures Exec(s, [GiveUp] + more).cancelled && Exec(s, [GiveUp] + more).sup.Stopped?
  {
    assert ([GiveUp] + more)[1..] == more;
    NoListeningAfterCancel(Apply(s, GiveUp), more);
  }

  /** After cancellation, even before Close has run, no attach succeeds: a connection can only be lost. */
  lemma {:induction false} NoAttachAfterCancel(s: State, run: seq<Step>)
    requires Legal(s, run) && s.cancelled
    ensures var t := Exec(s, run); t.cancelled && (t.ws == s.ws || t.ws == None)
    decreases |run|
  {
    if run != [] {
      NoAttachAfterCancel(Apply(s, run[0]), run[1..]);
    }
  }

  /** Nobody is woken for nothing: without an attach, a Close or cancellation a goroutine that blocks stays blocked. */
  lemma {:induction false} NoFalseAlarm(s: State, run: seq<Step>, g: Goroutine)
    requires Inv(s) && Legal(s, run) && g in s.waiting && s.waiting[g] == s.changed
    requires !Exec(s, run).cancelled && Count(run, Closing) == 0
    ensures g in Exec(s, run).waiting && !Enabled(Exec(s, run), Unblock(g))
    decreases |run|
  {
    if run == [] {
      assert s.changed !in s.closings;
    } else {
      var front := run[..|run| - 1];
      ExecLast(s, run);
      NoFalseAlarm(s, front, g);
    }
  }

  /** The same for the supervisor in awaitResume. */
  lemma SleepsOnCurrent(s: State)
    requires Inv(s) && Enabled(s, Sleep) && !s.cancelled
    ensures !Enabled(Apply(s, Sleep), Wake)
  {
  }
}
