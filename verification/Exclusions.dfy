/**
 The states from which the two ends cannot get back together: exactly those that
 resume completeness excludes.
 */
module Exclusions {
  import opened Bytes
  import opened Endpoints
  import opened Protocol
  import opened Invariant
  import opened Preservation
  import opened HonestPeers
  import opened Reconnection
  import opened Schedules

  /** From a doomed state the server waits for its commit or is cancelled, without a connection. */
  ghost predicate Stuck(n: Node) {
    n.e.ws == None && (n.e.cancelled || Doomed(n))
  }

  lemma StuckLocal(me: Node, peer: Node, a: Action)
    requires Enabled(me, peer, a) && Stuck(me) && !a.Commit?
    ensures Stuck(Apply(me, peer, a)) && Apply(me, peer, a).e.recvSeq == me.e.recvSeq
  {
    hide Data, Carry, DoCommit, Trim, AckLocked;
  }

  lemma StuckCommit(me: Node, peer: Node)
    requires Inv(me, peer) && me.writer.HelloGot? && Stuck(me)
    ensures Stuck(DoCommit(me)) && DoCommit(me).e.recvSeq == me.e.recvSeq
  {
    if !me.e.cancelled {
      CommitRefusedIff(me, peer);
    }
    hide Inv, Trim;
  }

  lemma StuckStep(s: System, st: Step, x: Side)
    requires SystemInv(s) && CanStep(s, st) && Stuck(Get(s, x))
    ensures var n := Get(DoStep(s, st), x);
      Stuck(n) && n.e.recvSeq == Get(s, x).e.recvSeq
  {
    var me, peer := Get(s, x), Get(s, Other(x));
    OneSide(s, x);
    hide SystemInv, Inv, Enabled, Apply;
    if !st.Local? || st.x != x {
      Bystander(s, st, x);
    } else {
      hide Stuck;
      if st.a.Commit? {
        CommitIs(me, peer);
        StuckCommit(me, peer);
      } else {
        StuckLocal(me, peer, st.a);
      }
    }
  }

  lemma {:induction false} StuckRun(s: System, run: seq<Step>, x: Side)
    requires SystemInv(s) && Legal(s, run) && Stuck(Get(s, x))
    ensures Stuck(Get(Exec(s, run), x)) && Get(Exec(s, run), x).e.recvSeq == Get(s, x).e.recvSeq
    decreases |run|
  {
    hide SystemInv, Stuck;
    if run != [] {
      StuckStep(s, run[0], x);
      KeepStep(s, run[0]);
      StuckRun(DoStep(s, run[0]), run[1..], x);
    }
  }

  /** A doomed server never has a connection again and never receives another byte. */
  lemma {:induction false} DoomedNeverRejoins(run: seq<Step>, more: seq<Step>)
    ensures Legal(Init(), run) && Legal(Exec(Init(), run), more) ==>
      var s := Exec(Init(), run);
      Doomed(s.server) ==>
        Exec(s, more).server.e.ws == None && Exec(s, more).server.e.recvSeq == s.server.e.recvSeq
  {
    if Legal(Init(), run) && Legal(Exec(Init(), run), more) && Doomed(Exec(Init(), run).server) {
      var s := Exec(Init(), run);
      Reachable(run);
      OneSide(s, Server);
      ShakingDetached(s.server, s.client);
      hide SystemInv, Inv, Legal, Exec;
      StuckRun(s, more, Server);
    }
  }

  lemma {:induction false} CancelledAction(me: Node, peer: Node, a: Action)
    requires Enabled(me, peer, a) && me.e.cancelled
    ensures Apply(me, peer, a).e.cancelled
  {
    hide Data, Carry, Trim;
  }

  lemma {:induction false} CancelledStays(s: System, run: seq<Step>, x: Side)
    requires Legal(s, run) && Get(s, x).e.cancelled
    ensures Get(Exec(s, run), x).e.cancelled
    decreases |run|
  {
    hide Apply, Enabled;
    if run != [] {
      if run[0].Local? && run[0].x == x {
        CancelledAction(Get(s, x), Get(s, Other(x)), run[0].a);
      } else {
        Bystander(s, run[0], x);
      }
      CancelledStays(DoStep(s, run[0]), run[1..], x);
    }
  }

  /** The exclusions of ResumeCompletes are exact. */
  lemma {:induction false} ResumesIff(run: seq<Step>)
    ensures Legal(Init(), run) ==>
      var s := Exec(Init(), run);
      (exists t, c :: Recovered(s, t, c)) <==>
      !s.client.e.cancelled && !s.server.e.cancelled && !Doomed(s.server)
  {
    if Legal(Init(), run) {
      var s := Exec(Init(), run);
      if !s.client.e.cancelled && !s.server.e.cancelled && !Doomed(s.server) {
        ResumeCompletes(run);
      } else {
        forall t, c | Recovered(s, t, c) ensures false {
          NotRecovered(run, t, c);
        }
      }
    }
  }

  lemma {:induction false} NotRecovered(run: seq<Step>, t: System, c: ConnId)
    requires Legal(Init(), run)
    requires var s := Exec(Init(), run); s.client.e.cancelled || s.server.e.cancelled || Doomed(s.server)
    ensures !Recovered(Exec(Init(), run), t, c)
  {
    var s := Exec(Init(), run);
    if Reaches(s, t) {
      var more :| Legal(s, more) && Exec(s, more) == t;
      DoomedNeverRejoins(run, more);
      if s.client.e.cancelled {
        CancelledStays(s, more, Client);
      }
      if s.server.e.cancelled {
        CancelledStays(s, more, Server);
      }
      hide Legal, Exec;
    }
  }
}
