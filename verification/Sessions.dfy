/**
 The session registry and the HTTP handlers that race on it.  Any number of
 handlers; one step is one operation on the shared map or one response.
 */
module Sessions {
  import opened Bytes

  type SessionId = string
  type HandlerId = nat

  /** A registered session: the handler whose serveSession inserted it, and its option. */
  datatype UserSession = UserSession(owner: HandlerId, forwardTraffic: bool)

  /** SessionManager: a map with atomic operations. */
  class SessionManager {
    var sessions: map<SessionId, UserSession>

    constructor ()
      ensures sessions == map[]
    {
      sessions := map[];
    }

    /** LoadOrStore. */
    method AddSession(id: SessionId, us: UserSession) returns (ok: bool)
      modifies this
      ensures ok <==> id !in old(sessions)
      ensures sessions == if id in old(sessions) then old(sessions) else old(sessions)[id := us]
      ensures sessions == Added(old(sessions), id, us)
    {
      if id in sessions {
        return false;
      }
      sessions := sessions[id := us];
      return true;
    }

    method RemoveSession(id: SessionId)
      modifies this
      ensures sessions == old(sessions) - {id}
    {
      sessions := map k | k in sessions && k != id :: sessions[k];
    }

    method Get(id: SessionId) returns (us: Option<UserSession>)
      ensures us.Some? <==> id in sessions
      ensures us.Some? ==> us.value == sessions[id]
    {
      us := if id in sessions then Some(sessions[id]) else None;
    }
  }

  function Added(m: map<SessionId, UserSession>, id: SessionId, us: UserSession): map<SessionId, UserSession> {
    if id in m then m else m[id := us]
  }

  function Lookup(m: map<SessionId, UserSession>, id: SessionId): Option<UserSession> {
    if id in m then Some(m[id]) else None
  }

  datatype Phase =
    | Arrived
    | Answered(status: nat)               // an HTTP error; nothing was upgraded
    | Upgraded(target: Option<UserSession>) // what Get returned; None for a fresh session
    | Serving                             // AddSession succeeded
    | Over                                // RemoveSession ran, AddSession lost, or the resume was handed over

  datatype Handler = Handler(id: SessionId, wantsUpgrade: bool, resume: bool, forward: bool, phase: Phase)

  datatype State = State(sessions: map<SessionId, UserSession>, handlers: seq<Handler>)

  datatype Step =
    | Request(id: SessionId, wantsUpgrade: bool, resume: bool, forward: bool)
    | Decide(h: HandlerId)        // Get and the checks before upgrading
    | FailUpgrade(h: HandlerId)
    | Register(h: HandlerId)      // AddSession in serveSession
    | HandOver(h: HandlerId)      // UpdateWsConn on the session found by Decide
    | Unregister(h: HandlerId)    // the deferred RemoveSession

  function Init(): State {
    State(map[], [])
  }

  predicate In(s: State, h: HandlerId) {
    h < |s.handlers|
  }

  predicate Enabled(s: State, st: Step) {
    match st
    case Request(_, _, _, _) => true
    case Decide(h) => In(s, h) && s.handlers[h].phase.Arrived?
    case FailUpgrade(h) => In(s, h) && s.handlers[h].phase.Upgraded?
    case Register(h) => In(s, h) && s.handlers[h].phase.Upgraded? && !s.handlers[h].resume
    case HandOver(h) => In(s, h) && s.handlers[h].phase.Upgraded? && s.handlers[h].resume
    case Unregister(h) => In(s, h) && s.handlers[h].phase.Serving?
  }

  /** The checks of the handler, in its order. */
  function Decision(h: Handler, found: Option<UserSession>): Phase {
    if !h.wantsUpgrade || h.id == "" then Answered(400)
    else if h.resume && found.None? then Answered(410)
    else if !h.resume && found.Some? then Answered(409)
    else if h.resume && found.value.forwardTraffic != h.forward then Answered(409)
    else Upgraded(found)
  }

  function At(s: State, h: HandlerId, p: Phase): State
    requires In(s, h)
  {
    s.(handlers := s.handlers[h := s.handlers[h].(phase := p)])
  }

  function Apply(s: State, st: Step): State
    requires Enabled(s, st)
  {
    match st
    case Request(id, up, resume, forward) => s.(handlers := s.handlers + [Handler(id, up, resume, forward, Arrived)])
    case Decide(h) => At(s, h, Decision(s.handlers[h], Lookup(s.sessions, s.handlers[h].id)))
    case FailUpgrade(h) => At(s, h, Over)
    case Register(h) =>
      var id, us := s.handlers[h].id, UserSession(h, s.handlers[h].forward);
      At(s, h, if id in s.sessions then Over else Serving).(sessions := Added(s.sessions, id, us))
    case HandOver(h) => At(s, h, Over)
    case Unregister(h) => At(s, h, Over).(sessions := s.sessions - {s.handlers[h].id})
  }

  predicate Legal(s: State, run: seq<Step>)
    decreases |run|
  {
    run == [] || (Enabled(s, run[0]) && Legal(Apply(s, run[0]), run[1..]))
  }

  function Exec(s: State, run: seq<Step>): State
    requires Legal(s, run)
    decreases |run|
  {
    if run == [] then s else Exec(Apply(s, run[0]), run[1..])
  }

  /** An entry belongs to the handler that serves it. */
  ghost predicate EntryOk(s: State, id: SessionId)
    requires id in s.sessions
  {
    var us := s.sessions[id];
    && In(s, us.owner)
    && s.handlers[us.owner].phase.Serving? && s.handlers[us.owner].id == id
    && s.handlers[us.owner].forward == us.forwardTraffic && !s.handlers[us.owner].resume
  }

  /** A serving handler has its entry; a resuming one holds a session of the same id and option. */
  ghost predicate HandlerOk(s: State, h: HandlerId)
    requires In(s, h)
  {
    var me := s.handlers[h];
    && (me.phase.Serving? ==> me.id in s.sessions && s.sessions[me.id].owner == h)
    && (me.phase.Upgraded? ==> me.id != "" && (me.resume <==> me.phase.target.Some?))
    && (me.phase.Upgraded? && me.resume ==>
         var us := me.phase.target.value;
         && In(s, us.owner) && s.handlers[us.owner].id == me.id && us.forwardTraffic == me.forward
         && !s.handlers[us.owner].resume && (s.handlers[us.owner].phase.Serving? || s.handlers[us.owner].phase.Over?))
  }

  ghost predicate Inv(s: State) {
    && (forall id | id in s.sessions :: EntryOk(s, id))
    && (forall h | 0 <= h < |s.handlers| :: HandlerOk(s, h))
  }

  /** The handler a step is about, if any. */
  function Actor(st: Step): Option<HandlerId> {
    if st.Request? then None else Some(st.h)
  }

  lemma KeepEntry(s: State, st: Step, id: SessionId)
    requires Enabled(s, st) && id in Apply(s, st).sessions
    requires id in s.sessions ==> EntryOk(s, id)
    requires Actor(st).Some? ==> HandlerOk(s, st.h)
    ensures EntryOk(Apply(s, st), id)
  {
  }

  lemma KeepHandler(s: State, st: Step, h: HandlerId)
    requires Enabled(s, st) && In(s, h) && HandlerOk(s, h)
    requires Actor(st).Some? ==> HandlerOk(s, st.h)
    requires s.handlers[h].id in s.sessions ==> EntryOk(s, s.handlers[h].id)
    ensures HandlerOk(Apply(s, st), h)
  {
  }

  lemma KeepInv(s: State, st: Step)
    requires Inv(s) && Enabled(s, st)
    ensures Inv(Apply(s, st))
  {
    var s' := Apply(s, st);
    hide EntryOk, HandlerOk;
    forall id | id in s'.sessions ensures EntryOk(s', id) {
      KeepEntry(s, st, id);
    }
    forall h | 0 <= h < |s'.handlers| ensures HandlerOk(s', h) {
      if h < |s.handlers| {
        KeepHandler(s, st, h);
      } else {
        NewHandler(s, st);
      }
    }
  }

  lemma NewHandler(s: State, st: Step)
    requires Enabled(s, st) && st.Request?
    ensures HandlerOk(Apply(s, st), |s.handlers|)
  {
  }

  lemma {:induction false} KeepRun(s: State, run: seq<Step>)
    requires Inv(s) && Legal(s, run)
    ensures Inv(Exec(s, run))
    decreases |run|
  {
    hide Inv;
    if run != [] {
      KeepInv(s, run[0]);
      KeepRun(Apply(s, run[0]), run[1..]);
    }
  }

  /**
   Ownership: with any number of racing handlers each id maps to at most one
   session, the one whose serveSession inserted it, and no two handlers ever
   serve the same id at the same time.
   */
  lemma {:induction false} OneOwner(run: seq<Step>)
    requires Legal(Init(), run)
    ensures var s := Exec(Init(), run);
      && (forall id | id in s.sessions ::
            var h := s.sessions[id].owner; In(s, h) && s.handlers[h].phase.Serving? && s.handlers[h].id == id)
      && (forall h, k | 0 <= h < |s.handlers| && 0 <= k < |s.handlers| &&
            s.handlers[h].phase.Serving? && s.handlers[k].phase.Serving? && s.handlers[h].id == s.handlers[k].id :: h == k)
  {
    KeepRun(Init(), run);
    var s := Exec(Init(), run);
    assert forall id | id in s.sessions :: EntryOk(s, id);
    forall h, k | 0 <= h < |s.handlers| && 0 <= k < |s.handlers| &&
      s.handlers[h].phase.Serving? && s.handlers[k].phase.Serving? && s.handlers[h].id == s.handlers[k].id
      ensures h == k
    {
      assert HandlerOk(s, h) && HandlerOk(s, k);
    }
  }

  /** The unconditional delete removes exactly the remover's own entry. */
  lemma {:induction false} DeleteOwnOnly(run: seq<Step>, h: HandlerId)
    requires Legal(Init(), run) && Enabled(Exec(Init(), run), Unregister(h))
    ensures var s := Exec(Init(), run); var s' := Apply(s, Unregister(h)); var id := s.handlers[h].id;
      && id in s.sessions && s.sessions[id].owner == h
      && id !in s'.sessions
      && (forall other | other != id :: Lookup(s'.sessions, other) == Lookup(s.sessions, other))
  {
    KeepRun(Init(), run);
    assert HandlerOk(Exec(Init(), run), h);
  }

  /** Of two fresh handlers that both passed the check, the second to register loses while the first serves. */
  lemma {:induction false} SecondRacerLoses(run: seq<Step>, h: HandlerId, k: HandlerId)
    requires Legal(Init(), run)
    requires var s := Exec(Init(), run);
      && Enabled(s, Register(k)) && In(s, h) && s.handlers[h].phase.Serving? && s.handlers[h].id == s.handlers[k].id
    ensures var s := Exec(Init(), run); var s' := Apply(s, Register(k));
      s'.sessions == s.sessions && s'.handlers[k].phase.Over? && s'.handlers[h] == s.handlers[h]
  {
    KeepRun(Init(), run);
    assert HandlerOk(Exec(Init(), run), h);
  }

  /** And a racer that finds the id free wins, whatever Get told it before. */
  lemma {:induction false} FreeIdWins(run: seq<Step>, h: HandlerId)
    requires Legal(Init(), run) && Enabled(Exec(Init(), run), Register(h))
    ensures var s := Exec(Init(), run); var s' := Apply(s, Register(h)); var id := s.handlers[h].id;
      s'.handlers[h].phase.Serving? <==>
        forall k | 0 <= k < |s.handlers| && s.handlers[k].phase.Serving? :: s.handlers[k].id != id
  {
    KeepRun(Init(), run);
    var s := Exec(Init(), run);
    var id := s.handlers[h].id;
    if id in s.sessions {
      assert EntryOk(s, id);
    }
    forall k | 0 <= k < |s.handlers| && s.handlers[k].phase.Serving? && s.handlers[k].id == id ensures id in s.sessions {
      assert HandlerOk(s, k);
    }
  }

  /** A resume reaches only a session of its own id and option, registered by a fresh request. */
  lemma {:induction false} ResumeReachesItsSession(run: seq<Step>, h: HandlerId)
    requires Legal(Init(), run) && Enabled(Exec(Init(), run), HandOver(h))
    ensures var s := Exec(Init(), run); var me := s.handlers[h];
      && me.phase.target.Some?
      && var us := me.phase.target.value;
      && In(s, us.owner) && s.handlers[us.owner].id == me.id && us.forwardTraffic == me.forward
      && !s.handlers[us.owner].resume
  {
    KeepRun(Init(), run);
    assert HandlerOk(Exec(Init(), run), h);
  }

  /** What Get finds under an id is whom it is served by: the handler and its option, or nobody. */
  lemma {:induction false} GetFindsServer(run: seq<Step>, id: SessionId, us: UserSession)
    requires Legal(Init(), run)
    ensures var s := Exec(Init(), run);
      Lookup(s.sessions, id) == Some(us) <==>
        && In(s, us.owner) && s.handlers[us.owner].phase.Serving? && s.handlers[us.owner].id == id
        && s.handlers[us.owner].forward == us.forwardTraffic
  {
    KeepRun(Init(), run);
    var s := Exec(Init(), run);
    if id in s.sessions {
      assert EntryOk(s, id);
    }
    if In(s, us.owner) {
      assert HandlerOk(s, us.owner);
    }
  }

  /** Some handler serves `id` now, with the given option. */
  ghost predicate ServedWith(s: State, id: SessionId, forward: bool) {
    exists k :: 0 <= k < |s.handlers| && s.handlers[k].phase.Serving? && s.handlers[k].id == id && s.handlers[k].forward == forward
  }

  ghost predicate Served(s: State, id: SessionId) {
    ServedWith(s, id, true) || ServedWith(s, id, false)
  }

  lemma ServedIffRegistered(s: State, id: SessionId, forward: bool)
    requires Inv(s)
    ensures ServedWith(s, id, forward) <==> id in s.sessions && s.sessions[id].forwardTraffic == forward
  {
    if id in s.sessions {
      assert EntryOk(s, id);
    }
    forall k | 0 <= k < |s.handlers| && s.handlers[k].phase.Serving? && s.handlers[k].id == id
      ensures id in s.sessions && s.sessions[id].forwardTraffic == s.handlers[k].forward
    {
      assert HandlerOk(s, k);
      assert EntryOk(s, id);
    }
  }

  /**
   The answers in terms of the request and of who is serving: 400 exactly for a
   request that is no upgrade or names no session; of the others, a resume is told
   "gone" exactly when nobody serves its id, and "conflict" exactly when it is
   served with the other option; a fresh request is told "conflict" exactly when
   its id is served; all the rest are upgraded.
   */
  lemma {:induction false} AnswersMean(run: seq<Step>, h: HandlerId)
    requires Legal(Init(), run) && Enabled(Exec(Init(), run), Decide(h))
    ensures var s := Exec(Init(), run); var me := s.handlers[h]; var p := Apply(s, Decide(h)).handlers[h].phase;
      var proper := me.wantsUpgrade && me.id != "";
      && (p == Answered(400) <==> !me.wantsUpgrade || me.id == "")
      && (p == Answered(410) <==> proper && me.resume && !Served(s, me.id))
      && (p == Answered(409) <==>
           proper && if me.resume then ServedWith(s, me.id, !me.forward) else Served(s, me.id))
      && (p.Upgraded? <==>
           proper && if me.resume then ServedWith(s, me.id, me.forward) else !Served(s, me.id))
  {
    KeepRun(Init(), run);
    var s := Exec(Init(), run);
    ServedIffRegistered(s, s.handlers[h].id, true);
    ServedIffRegistered(s, s.handlers[h].id, false);
    hide ServedWith, Inv;
  }

  // ------------------------------------------------------ requests and phases

  /** What a request asked for: its session id, and whether it is an upgrade, a resume, and forwards traffic. */
  function Asked(h: Handler): (SessionId, bool, bool, bool) {
    (h.id, h.wantsUpgrade, h.resume, h.forward)
  }

  /** The requests of a run, in order of arrival. */
  function Requests(run: seq<Step>): seq<(SessionId, bool, bool, bool)> {
    if run == [] then []
    else
      (if run[0].Request? then [(run[0].id, run[0].wantsUpgrade, run[0].resume, run[0].forward)] else []) +
      Requests(run[1..])
  }

  /** Each request gets one handler, which never forgets or confuses what it was asked. */
  lemma {:induction false} HandlersAreRequests(s: State, run: seq<Step>)
    requires Legal(s, run)
    ensures var t := Exec(s, run);
      && |t.handlers| == |s.handlers| + |Requests(run)|
      && (forall i | 0 <= i < |s.handlers| :: Asked(t.handlers[i]) == Asked(s.handlers[i]))
      && (forall i | 0 <= i < |Requests(run)| :: Asked(t.handlers[|s.handlers| + i]) == Requests(run)[i])
    decreases |run|
  {
    if run != [] {
      var s1 := Apply(s, run[0]);
      HandlersAreRequests(s1, run[1..]);
      var t := Exec(s, run);
      if run[0].Request? {
        assert Asked(t.handlers[|s.handlers|]) == Requests(run)[0];
        forall i | 1 <= i < |Requests(run)| ensures Asked(t.handlers[|s.handlers| + i]) == Requests(run)[i] {
          assert Requests(run)[i] == Requests(run[1..])[i - 1];
          assert |s.handlers| + i == |s1.handlers| + (i - 1);
        }
      }
    }
  }

  /** How far a handler has come. */
  function Rank(p: Phase): nat {
    match p
    case Arrived => 0
    case Upgraded(_) => 1
    case Serving => 2
    case Answered(_) => 3
    case Over => 3
  }

  /** A handler only moves forward, at its own steps and at no other: it is decided once, and what is over stays over. */
  lemma OnlyForward(s: State, st: Step, h: HandlerId)
    requires Enabled(s, st) && In(s, h)
    ensures var p, p' := s.handlers[h].phase, Apply(s, st).handlers[h].phase;
      if Actor(st) == Some(h) then Rank(p) < Rank(p') else p' == p
  {
  }

  /** The steps that handler `h` took in a run. */
  function OwnSteps(run: seq<Step>, h: HandlerId): seq<Step> {
    if run == [] then []
    else (if Actor(run[0]) == Some(h) then [run[0]] else []) + OwnSteps(run[1..], h)
  }

  /** So in any run a handler takes at most three steps, and its phase is where they led it. */
  lemma {:induction false} AtMostThreeSteps(s: State, run: seq<Step>, h: HandlerId)
    requires Legal(s, run) && In(s, h)
    ensures In(Exec(s, run), h)
    ensures var p, p' := s.handlers[h].phase, Exec(s, run).handlers[h].phase;
      Rank(p) + |OwnSteps(run, h)| <= Rank(p') <= 3 && (OwnSteps(run, h) == [] ==> p' == p)
    decreases |run|
  {
    if run != [] {
      OnlyForward(s, run[0], h);
      hide Apply, Enabled, Rank;
      assert In(Apply(s, run[0]), h) by { StillIn(s, run[0], h); }
      AtMostThreeSteps(Apply(s, run[0]), run[1..], h);
    }
  }

  lemma StillIn(s: State, st: Step, h: HandlerId)
    requires Enabled(s, st) && In(s, h)
    ensures In(Apply(s, st), h)
  {
  }
}
