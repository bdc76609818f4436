/**
 Runs that get two ends back onto one connection: let go of everything in
 progress, close what is given up, redial, exchange hellos, commit.
 */
module Reconnection {
  import opened Bytes
  import opened Endpoints
  import opened Protocol
  import opened Invariant
  import opened Preservation
  import opened HonestPeers

  /** `t` is reachable from `s`. */
  ghost predicate Reaches(s: System, t: System) {
    exists run :: Legal(s, run) && Exec(s, run) == t
  }

  ghost predicate Good(t: System) {
    SystemInv(t) && Honest(t)
  }

  /** `t` is reachable from `s` and is in good order. */
  ghost predicate Way(s: System, t: System) {
    Reaches(s, t) && Good(t)
  }

  lemma Here(s: System)
    ensures Reaches(s, s)
  {
    assert Legal(s, []) && Exec(s, []) == s;
  }

  /** One more step at the end of a run. */
  lemma {:induction false} OneMore(s: System, run: seq<Step>, st: Step)
    requires Legal(s, run) && CanStep(Exec(s, run), st)
    ensures Legal(s, run + [st]) && Exec(s, run + [st]) == DoStep(Exec(s, run), st)
  {
    var t := Exec(s, run);
    assert [st][1..] == [];
    assert Legal(DoStep(t, st), []);
    assert Legal(t, [st]) && Exec(t, [st]) == DoStep(t, st);
    Concat(s, run, [st]);
  }

  lemma {:induction false} Further(s: System, t: System, st: Step)
    requires Way(s, t) && CanStep(t, st)
    ensures Way(s, DoStep(t, st))
  {
    hide SystemInv, Honest;
    var run :| Legal(s, run) && Exec(s, run) == t;
    OneMore(s, run, st);
    KeepStep(t, st);
    KeepHonest(t, st);
  }

  /** One action of side `x`. */
  lemma {:induction false} Act(s: System, t: System, x: Side, a: Action) returns (t': System)
    requires Way(s, t) && Enabled(Get(t, x), Get(t, Other(x)), a)
    requires a.BeginAttach? && x == Client ==> a.conn + 1 == |t.client.out|
    ensures Way(s, t')
    ensures Get(t', x) == Apply(Get(t, x), Get(t, Other(x)), a)
    ensures Get(t', Other(x)) == Get(t, Other(x))
  {
    hide Way, Enabled, Apply;
    t' := DoStep(t, Local(x, a));
    Further(s, t, Local(x, a));
  }

  /** The invariant of a state on the way, seen from side `x`. */
  lemma {:induction false} OnTheWay(s: System, t: System, x: Side)
    requires Way(s, t)
    ensures Inv(Get(t, x), Get(t, Other(x)))
  {
    hide Honest, Reaches, Half;
  }

  lemma {:induction false} Sizes(s: System, t: System, x: Side)
    requires Way(s, t)
    ensures var n := Get(t, x); |n.out| == |n.got| == |n.mark| == |Get(t, Other(x)).out|
  {
    OnTheWay(s, t, x);
    hide Way, BufferOk, DeliveryOk, ReaderOk, WriterOk, ConnOk;
  }

  /** A connection not dialled yet is unknown to both sides. */
  lemma {:induction false} Unknown(s: System, t: System, x: Side)
    requires Way(s, t)
    ensures |Get(t, x).out| !in Get(t, x).begun && |Get(t, x).out| !in Get(t, x).shut
  {
    OnTheWay(s, t, x);
    hide Way, BufferOk, DeliveryOk, ReaderOk, WriterOk, ConnOk;
  }

  // -------------------------------------------------- letting go

  /** A refused commit is pending: the hello in hand is behind an ack already processed. */
  ghost predicate Doomed(n: Node) {
    n.writer.HelloGot? && n.writer.peerAck < n.e.unackedAt
  }

  ghost predicate Freed(s: System, t: System, t': System, x: Side) {
    && Way(s, t') && Get(t', Other(x)) == Get(t, Other(x))
    && !Get(t', x).e.cancelled && Get(t', x).segs == Get(t, x).segs
  }

  lemma {:induction false} WriterConn(s: System, t: System, x: Side)
    requires Way(s, t)
    ensures Get(t, x).writer.Framing() ==> Get(t, x).writer.conn < |Get(t, x).out|
  {
    OnTheWay(s, t, x);
    hide Way, Inv;
    CurrentInstalled(Get(t, x), Get(t, Other(x)));
  }

  /** A frame in progress is written into a dead connection. */
  lemma {:induction false} FreeFraming(s: System, t: System, x: Side) returns (t': System)
    requires Way(s, t) && !Get(t, x).e.cancelled && !Get(t, x).writer.Shaking()
    ensures Freed(s, t, t', x) && Get(t', x).writer.Idle?
  {
    hide Way, Carry;
    t' := t;
    if Get(t', x).writer.Sent? {
      t' := Act(s, t', x, NoteSent);
    }
    if Get(t', x).writer.Transmit? {
      t' := Act(s, t', x, LoadAck);
    }
    if Get(t', x).writer.Loaded? {
      WriterConn(s, t', x);
      t' := Act(s, t', x, PutFrame(ErrorLost));
    }
  }

  lemma CommitNow(me: Node, peer: Node)
    requires me.writer.HelloGot?
    ensures Enabled(me, peer, Commit) && Apply(me, peer, Commit) == DoCommit(me)
  {
  }

  lemma {:induction false} FreeCommit(s: System, t: System, x: Side) returns (t': System)
    requires Way(s, t) && !Get(t, x).e.cancelled && Get(t, x).writer.HelloGot? && !Doomed(Get(t, x))
    ensures Freed(s, t, t', x) && !Get(t', x).writer.Shaking()
  {
    OnTheWay(s, t, x);
    CommitOutcome(Get(t, x), Get(t, Other(x)));
    CommitNow(Get(t, x), Get(t, Other(x)));
    hide Way, Inv, DoCommit, Other, Apply, Enabled;
    t' := Act(s, t, x, Commit);
  }

  lemma {:induction false} BegunHere(s: System, t: System, x: Side)
    requires Way(s, t)
    ensures var n := Get(t, x);
      && (n.e.ws.Some? ==> n.e.ws.value in n.begun)
      && (n.writer.Shaking() ==> n.writer.conn in n.begun)
  {
    OnTheWay(s, t, x);
    hide Way, Inv;
    UsedBegun(Get(t, x), Get(t, Other(x)));
  }

  lemma CloseEffect(me: Node, peer: Node, c: ConnId)
    requires c in me.begun
    ensures Enabled(me, peer, Shut(c)) && Apply(me, peer, Shut(c)) == me.(shut := me.shut + {c})
  {
  }

  lemma DropEffect(me: Node, peer: Node)
    ensures Enabled(me, peer, Drop) && Apply(me, peer, Drop) == me.(e := Detach(me.e))
  {
  }

  lemma TimeoutEffect(me: Node, peer: Node)
    requires me.writer.Shaking() && !me.writer.HelloGot?
    ensures Enabled(me, peer, FailAttach) && Apply(me, peer, FailAttach) == me.(writer := Idle)
  {
  }

  /** `x` closes a connection it has used. */
  lemma {:induction false} Closes(s: System, t: System, x: Side, c: ConnId) returns (t': System)
    requires Way(s, t) && c in Get(t, x).begun
    ensures Way(s, t') && Get(t', Other(x)) == Get(t, Other(x))
    ensures Get(t', x) == Get(t, x).(shut := Get(t, x).shut + {c})
  {
    CloseEffect(Get(t, x), Get(t, Other(x)), c);
    hide Way, Get, Other, Apply, Enabled;
    t' := Act(s, t, x, Shut(c));
  }

  /** A handshake times out and its connection is closed. */
  lemma {:induction false} FreeShaking(s: System, t: System, x: Side) returns (t': System)
    requires Way(s, t) && Get(t, x).writer.Shaking() && !Get(t, x).writer.HelloGot?
    ensures Way(s, t') && Get(t', Other(x)) == Get(t, Other(x))
    ensures Get(t', x) == Get(t, x).(writer := Idle, shut := Get(t, x).shut + {Get(t, x).writer.conn})
  {
    BegunHere(s, t, x);
    TimeoutEffect(Get(t, x), Get(t, Other(x)));
    hide Way, Get, Other, Apply, Enabled;
    t' := Act(s, t, x, FailAttach);
    t' := Closes(s, t', x, Get(t, x).writer.conn);
  }

  function GivenUp(n: Node): Node {
    n.(e := Detach(n.e), shut := if n.e.ws.Some? then n.shut + {n.e.ws.value} else n.shut)
  }

  /** The current connection, if there is one, is dropped and closed. */
  lemma {:induction false} GiveUp(s: System, t: System, x: Side) returns (t': System)
    requires Way(s, t)
    ensures Way(s, t') && Get(t', Other(x)) == Get(t, Other(x))
    ensures Get(t', x) == GivenUp(Get(t, x))
  {
    BegunHere(s, t, x);
    DropEffect(Get(t, x), Get(t, Other(x)));
    hide Way, Get, Other, Apply, Enabled;
    t' := Act(s, t, x, Drop);
    if Get(t, x).e.ws.Some? {
      t' := Closes(s, t', x, Get(t, x).e.ws.value);
    }
  }

  /** Finish whatever holds writeMu. */
  lemma {:induction false} FreeWriter(s: System, t: System, x: Side) returns (t': System)
    requires Way(s, t) && !Get(t, x).e.cancelled && !Doomed(Get(t, x))
    ensures Freed(s, t, t', x) && Get(t', x).writer.Idle?
  {
    hide Way;
    if Get(t, x).writer.HelloGot? {
      t' := FreeCommit(s, t, x);
      t' := FreeFraming(s, t', x);
    } else if Get(t, x).writer.Shaking() {
      t' := FreeShaking(s, t, x);
    } else {
      t' := FreeFraming(s, t, x);
    }
  }

  /** The reader's own ack goes into a dead connection. */
  lemma {:induction false} FreeReader(s: System, t: System, x: Side) returns (t': System)
    requires Way(s, t) && !Get(t, x).e.cancelled && Get(t, x).writer.Idle? && Get(t, x).reader.Owing?
    ensures Freed(s, t, t', x) && Get(t', x).writer.Idle? && Get(t', x).reader.Resting?
    ensures Get(t', x).e == Get(t, x).e
  {
    hide Way, Carry;
    t' := Act(s, t, x, TryAck);
    t' := Act(s, t', x, LoadAck);
    WriterConn(s, t', x);
    t' := Act(s, t', x, PutFrame(ErrorLost));
  }

  ghost predicate Settled(n: Node) {
    && n.writer.Idle? && n.reader.Resting? && n.e.pending == []
    && n.e.ws == None && !n.e.cancelled
  }

  /** Give up and close the current connection, let the reader discard what it holds, and hand out what is pending. */
  lemma {:induction false} Settle(s: System, t: System, x: Side) returns (t': System)
    requires Way(s, t) && !Get(t, x).e.cancelled && !Doomed(Get(t, x))
    ensures Way(s, t') && Get(t', Other(x)) == Get(t, Other(x))
    ensures Settled(Get(t', x)) && Get(t', x).segs == Get(t, x).segs
  {
    hide Way, Inv, Doomed, Honest;
    t' := FreeWriter(s, t, x);
    t' := GiveUp(s, t', x);
    if Get(t', x).reader.Reading? {
      t' := Act(s, t', x, FailRead);
    }
    if Get(t', x).reader.Holding? {
      t' := Act(s, t', x, Process);
    }
    if Get(t', x).reader.Owing? {
      t' := FreeReader(s, t', x);
    }
    t' := Act(s, t', x, HandOutBytes(|Get(t', x).e.pending|));
  }

  // ----------------------------------------------- redial and handshake

  /** Nothing in progress but this side's handshake on `c`, or nothing at all. */
  ghost predicate Still(n: Node, c: ConnId) {
    && n.reader.Resting? && n.e.pending == [] && !n.e.cancelled
    && c < |n.out| && c < |n.got| && !n.out[c].cut && c !in n.shut
  }

  ghost predicate Begun(n: Node, c: ConnId) {
    Still(n, c) && n.writer.HelloOut? && n.writer.conn == c && n.out[c].log == [] && n.got[c] == 0
  }

  ghost predicate Greeted(n: Node, c: ConnId) {
    Still(n, c) && n.writer.HelloWait? && n.writer.conn == c && |n.out[c].log| == 1 && n.got[c] == 0
  }

  ghost predicate Heard(n: Node, c: ConnId) {
    Still(n, c) && n.writer.HelloGot? && n.writer.conn == c && |n.out[c].log| == 1 && n.got[c] == 1
  }

  ghost predicate Joined(n: Node, c: ConnId) {
    && Still(n, c) && n.e.ws == Some(c)
    && (n.writer.Idle? || (n.writer.Transmit? && n.writer.conn == c))
  }

  lemma {:induction false} BeginOn(s: System, t: System, x: Side, c: ConnId) returns (t': System)
    requires Way(s, t) && c + 1 == |Get(t, x).out| && c !in Get(t, x).begun && c !in Get(t, x).shut
    requires Settled(Get(t, x)) && Get(t, x).out[c] == Pipe([], false)
    ensures Way(s, t') && Get(t', Other(x)) == Get(t, Other(x))
    ensures Begun(Get(t', x), c) && Get(t', x).segs == Get(t, x).segs
    ensures |Get(t', x).out| == |Get(t, x).out|
  {
    var me, peer := Get(t, x), Get(t, Other(x));
    assert x == Client ==> |me.out| == |t.client.out|;
    hide Way, Inv, Get, Other;
    assert |me.out| == |me.got| == |me.mark| by { Sizes(s, t, x); }
    assert me.got[c] == 0 by {
      OnTheWay(s, t, x);
      NotYetTaken(me, peer, c);
    }
    BeginEffect(me, peer, c);
    hide Apply, Begun, Settled;
    t' := Act(s, t, x, BeginAttach(c));
  }

  lemma BeginEffect(me: Node, peer: Node, c: ConnId)
    requires Settled(me) && c !in me.begun && c !in me.shut
    requires c < |me.out| == |me.got| == |me.mark| && me.out[c] == Pipe([], false) && me.got[c] == 0
    ensures Enabled(me, peer, BeginAttach(c))
    ensures var n := Apply(me, peer, BeginAttach(c)); Begun(n, c) && n.segs == me.segs && |n.out| == |me.out|
  {
  }

  lemma NotYetTaken(me: Node, peer: Node, c: ConnId)
    requires Inv(me, peer) && c < |me.out| && c !in me.begun
    ensures me.got[c] == 0 && me.mark[c] == 0
  {
    assert ConnOk(me, peer, c);
  }

  lemma {:induction false} Redial(s: System, t: System) returns (t': System, c: ConnId)
    requires Way(s, t) && Settled(t.client) && Settled(t.server)
    ensures Way(s, t') && Begun(t'.client, c) && Begun(t'.server, c)
    ensures c + 1 == |t'.client.out|
    ensures t'.client.segs == t.client.segs && t'.server.segs == t.server.segs
  {
    Sizes(s, t, Client);
    Unknown(s, t, Client);
    Unknown(s, t, Server);
    hide Way, Begun;
    c := |t.client.out|;
    Further(s, t, Dial);
    t' := DoStep(t, Dial);
    t' := BeginOn(s, t', Client, c);
    t' := BeginOn(s, t', Server, c);
  }

  lemma {:induction false} Greet(s: System, t: System, x: Side, c: ConnId) returns (t': System)
    requires Way(s, t) && Begun(Get(t, x), c)
    ensures Way(s, t') && Get(t', Other(x)) == Get(t, Other(x))
    ensures Greeted(Get(t', x), c) && Get(t', x).segs == Get(t, x).segs
    ensures |Get(t', x).out| == |Get(t, x).out|
  {
    hide Way;
    t' := Act(s, t, x, PutHello(Arrives));
  }

  lemma HearEffect(me: Node, peer: Node, c: ConnId)
    requires Greeted(me, c) && c < |peer.out| && |peer.out[c].log| == 1 && peer.out[c].log[0].payload == []
    ensures Enabled(me, peer, TakeHello)
    ensures var me' := Apply(me, peer, TakeHello);
      Heard(me', c) && me'.segs == me.segs && |me'.out| == |me.out|
  {
  }

  lemma {:induction false} HelloThere(s: System, t: System, x: Side, c: ConnId)
    requires Way(s, t) && 0 < c < |Get(t, x).out| && Get(t, x).out[c].log != []
    ensures Get(t, x).out[c].log[0].payload == []
  {
    OnTheWay(s, t, x);
    hide Way, Inv;
    FirstIsHello(Get(t, x), Get(t, Other(x)), c);
  }

  lemma {:induction false} Hear(s: System, t: System, x: Side, c: ConnId) returns (t': System)
    requires Way(s, t) && Greeted(Get(t, x), c)
    requires c < |Get(t, Other(x)).out| && |Get(t, Other(x)).out[c].log| == 1 && c != 0
    ensures Way(s, t') && Get(t', Other(x)) == Get(t, Other(x))
    ensures Heard(Get(t', x), c) && Get(t', x).segs == Get(t, x).segs
    ensures |Get(t', x).out| == |Get(t, x).out|
  {
    hide Way, Get, Greeted, Heard, Apply, Enabled;
    HelloThere(s, t, Other(x), c);
    HearEffect(Get(t, x), Get(t, Other(x)), c);
    t' := Act(s, t, x, TakeHello);
  }

  lemma {:induction false} InstalledBefore(s: System, t: System, c: ConnId)
    requires Way(s, t) && c + 1 == |t.client.out| && c !in t.server.installed
    ensures AllInstalledBefore(t.server, c)
  {
    OnTheWay(s, t, Server);
    hide Way;
    InstalledRange(t.server, t.client);
    assert forall d | d in t.server.installed :: d < c;
  }

  lemma InstalledRange(me: Node, peer: Node)
    requires Inv(me, peer)
    ensures |me.out| == |peer.out| && forall d | d in me.installed :: d < |me.out|
  {
    hide BufferOk, DeliveryOk, ReaderOk, WriterOk, ConnOk;
  }

  /** On the newest connection neither side refuses. */
  lemma {:induction false} NotRefused(s: System, t: System, x: Side, c: ConnId)
    requires Way(s, t) && Heard(Get(t, x), c) && c + 1 == |t.client.out|
    ensures Get(t, x).writer.peerAck >= Get(t, x).e.unackedAt
  {
    OnTheWay(s, t, Server);
    hide Reaches, SystemInv, Honest, Inv, AllInstalledBefore;
    if x == Client {
      ClientNotRefused(t);
    } else {
      HelloValue(t.server, t.client);
      InstalledBefore(s, t, c);
      ServerNotRefused(t);
    }
  }

  lemma {:induction false} Join(s: System, t: System, x: Side, c: ConnId) returns (t': System)
    requires Way(s, t) && Heard(Get(t, x), c) && c + 1 == |t.client.out|
    ensures Way(s, t') && Get(t', Other(x)) == Get(t, Other(x))
    ensures Joined(Get(t', x), c) && Get(t', x).segs == Get(t, x).segs
    ensures |Get(t', x).out| == |Get(t, x).out|
  {
    OnTheWay(s, t, x);
    hide Way, Inv, Trim;
    NotRefused(s, t, x, c);
    CommitRefusedIff(Get(t, x), Get(t, Other(x)));
    t' := Act(s, t, x, Commit);
  }

  lemma {:induction false} Resume(s: System, t: System) returns (t': System, c: ConnId)
    requires Way(s, t) && Settled(t.client) && Settled(t.server)
    ensures Way(s, t') && Joined(t'.client, c) && Joined(t'.server, c)
    ensures t'.client.segs == t.client.segs && t'.server.segs == t.server.segs
  {
    t', c := Redial(s, t);
    WriterPositive(s, t', c);
    hide Way, Joined, Still;
    t' := Greet(s, t', Client, c);
    t' := Greet(s, t', Server, c);
    assert c < |t'.client.out| && c < |t'.server.out| by { SizeOf(t'.client, c); SizeOf(t'.server, c); }
    t' := Hear(s, t', Client, c);
    t' := Hear(s, t', Server, c);
    t' := Join(s, t', Client, c);
    t' := Join(s, t', Server, c);
  }

  lemma SizeOf(n: Node, c: ConnId)
    requires Still(n, c)
    ensures c < |n.out|
  {
  }

  lemma {:induction false} WriterPositive(s: System, t: System, c: ConnId)
    requires Way(s, t) && Begun(t.client, c)
    ensures c != 0
  {
    OnTheWay(s, t, Client);
    hide Way, ConnOk;
  }
}
