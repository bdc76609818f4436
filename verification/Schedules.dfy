/**
 Resume completeness: whatever happened so far, if no side is closed there is a
 finite continuation after which each side has received everything the other
 accepted.  The schedule is explicit: let go of everything in progress, redial,
 exchange hellos, commit, replay, read.
 */
module Schedules {
  import opened Bytes
  import opened Endpoints
  import opened Protocol
  import opened Invariant
  import opened Preservation
  import opened HonestPeers
  import opened Reconnection

  /** writeFrame as a whole, when its frame arrives. */
  function FrameSent(n: Node): Node
    requires n.writer.Transmit? && n.writer.conn < |n.out|
  {
    var Transmit(c, todo) := n.writer;
    var n' := n.(e := NoteAck(n.e, n.e.recvSeq),
                 out := n.out[c := Pipe(n.out[c].log + [Frame(n.e.recvSeq, Next(todo))], false)]);
    if Rest(todo) == [] then Release(n') else n'.(writer := Transmit(c, Rest(todo)))
  }

  ghost predicate CanSend(n: Node) {
    && n.writer.Transmit? && n.writer.conn < |n.out|
    && !n.out[n.writer.conn].cut && n.writer.conn !in n.shut
  }

  lemma FrameSteps(me: Node, peer: Node)
    requires CanSend(me)
    ensures Enabled(me, peer, LoadAck)
    ensures var m1 := Apply(me, peer, LoadAck);
      && Enabled(m1, peer, PutFrame(Arrives))
      && var m2 := Apply(m1, peer, PutFrame(Arrives));
      && Enabled(m2, peer, NoteSent)
      && Apply(m2, peer, NoteSent) == FrameSent(me)
  {
  }

  lemma {:induction false} SendFrame(s: System, t: System, x: Side) returns (t': System)
    requires Way(s, t) && CanSend(Get(t, x))
    ensures Way(s, t') && Get(t', Other(x)) == Get(t, Other(x))
    ensures Get(t', x) == FrameSent(Get(t, x))
  {
    FrameSteps(Get(t, x), Get(t, Other(x)));
    hide Way, Apply, Enabled, CanSend, FrameSent;
    t' := Act(s, t, x, LoadAck);
    t' := Act(s, t', x, PutFrame(Arrives));
    t' := Act(s, t', x, NoteSent);
  }

  /** The one frame that writeFrame is about to send arrives. */
  lemma {:induction false} SendOne(s: System, t: System, x: Side, c: ConnId) returns (t': System)
    requires Way(s, t) && Joined(Get(t, x), c) && Get(t, x).writer.Transmit?
    ensures Way(s, t') && Get(t', Other(x)) == Get(t, Other(x))
    ensures Joined(Get(t', x), c) && Get(t', x).segs == Get(t, x).segs
    ensures Get(t', x).writer.Transmit? ==> |Get(t', x).writer.todo| < |Get(t, x).writer.todo|
  {
    hide Way, Get;
    t' := SendFrame(s, t, x);
  }

  lemma {:induction false} SendAll(s: System, t: System, x: Side, c: ConnId) returns (t': System)
    requires Way(s, t) && Joined(Get(t, x), c)
    ensures Way(s, t') && Get(t', Other(x)) == Get(t, Other(x))
    ensures Joined(Get(t', x), c) && Get(t', x).segs == Get(t, x).segs && Get(t', x).writer.Idle?
    decreases if Get(t, x).writer.Transmit? then 1 + |Get(t, x).writer.todo| else 0
  {
    hide Way;
    t' := t;
    if Get(t, x).writer.Transmit? {
      t' := SendOne(s, t, x, c);
      t' := SendAll(s, t', x, c);
    }
  }

  lemma {:induction false} Acceptable(s: System, t: System, x: Side)
    requires Way(s, t) && Get(t, x).reader.Holding?
    requires Get(t, x).e.ws == Some(Get(t, x).reader.conn)
    ensures var me := Get(t, x); var me' := DoProcess(me);
      && Accept(me.e, me.reader.conn, me.reader.frame).Accepted?
  {
    OnTheWay(s, t, x);
    hide Way, Inv, Trim;
    FramesAccepted(Get(t, x), Get(t, Other(x)));
  }

  ghost predicate Caught(n: Node, c: ConnId) {
    Joined(n, c) && n.writer.Idle?
  }

  /** Nothing but messages without payload was added. */
  ghost predicate OnlyAcks(p: Pipe, p': Pipe) {
    p.log <= p'.log && Data(p'.log) == Data(p.log)
  }

  /** A frame was accepted on `c`; its payload is pending and an ack may be due. */
  ghost predicate Fed(n: Node, c: ConnId) {
    && Caught(n.(reader := Resting, e := n.e.(pending := [])), c)
    && (n.reader.Resting? || n.reader == Owing(c))
  }

  lemma FeedEffect(me: Node, peer: Node, c: ConnId)
    requires Caught(me.(reader := Resting), c) && me.reader.Holding? && me.reader.conn == c
    requires Accept(me.e, me.reader.conn, me.reader.frame).Accepted?
    ensures Enabled(me, peer, Process)
    ensures var n := Apply(me, peer, Process);
      Fed(n, c) && n.segs == me.segs && n.out == me.out && n.got == me.got
  {
    hide Trim;
  }

  lemma {:induction false} Feed(s: System, t: System, x: Side, c: ConnId) returns (t': System)
    requires Way(s, t) && Caught(Get(t, x), c)
    requires c < |Get(t, Other(x)).out| && Get(t, x).got[c] < |Get(t, Other(x)).out[c].log|
    ensures Way(s, t') && Get(t', Other(x)) == Get(t, Other(x)) && Fed(Get(t', x), c)
    ensures Get(t', x).segs == Get(t, x).segs && Get(t', x).out == Get(t, x).out
    ensures Get(t', x).got == Get(t, x).got[c := Get(t, x).got[c] + 1]
  {
    hide Way, Get, Other, Trim, Fed, Accept;
    t' := Act(s, t, x, PickConn);
    t' := Act(s, t', x, Take);
    Acceptable(s, t', x);
    FeedEffect(Get(t', x), Get(t', Other(x)), c);
    hide Apply, Enabled, Caught;
    t' := Act(s, t', x, Process);
  }

  /** The reader's TryLock succeeds and its ack arrives. */
  lemma {:induction false} SendOwed(s: System, t: System, x: Side, c: ConnId) returns (t': System)
    requires Way(s, t) && Fed(Get(t, x), c) && Get(t, x).reader.Owing?
    ensures Way(s, t') && Get(t', Other(x)) == Get(t, Other(x))
    ensures Fed(Get(t', x), c) && Get(t', x).reader.Resting?
    ensures Get(t', x).segs == Get(t, x).segs && Get(t', x).got == Get(t, x).got
    ensures Get(t', x).out[c].log == Get(t, x).out[c].log + [Frame(Get(t, x).e.recvSeq, [])]
  {
    hide Way;
    t' := Act(s, t, x, TryAck);
    t' := SendFrame(s, t', x);
  }

  lemma {:induction false} ReceiveOne(s: System, t: System, x: Side, c: ConnId) returns (t': System)
    requires Way(s, t) && Caught(Get(t, x), c)
    requires c < |Get(t, Other(x)).out| && Get(t, x).got[c] < |Get(t, Other(x)).out[c].log|
    ensures Way(s, t') && Get(t', Other(x)) == Get(t, Other(x))
    ensures Caught(Get(t', x), c) && Get(t', x).segs == Get(t, x).segs
    ensures OnlyAcks(Get(t, x).out[c], Get(t', x).out[c])
    ensures Get(t', x).got[c] == Get(t, x).got[c] + 1
  {
    hide Way, Get, Other, Data;
    t' := Feed(s, t, x, c);
    if Get(t', x).reader.Owing? {
      DataSnoc(Get(t', x).out[c].log, Frame(Get(t', x).e.recvSeq, []));
      t' := SendOwed(s, t', x, c);
    }
    t' := Act(s, t', x, HandOutBytes(|Get(t', x).e.pending|));
  }

  lemma {:induction false} ReceiveAll(s: System, t: System, x: Side, c: ConnId) returns (t': System)
    requires Way(s, t) && Caught(Get(t, x), c)
    requires c < |Get(t, Other(x)).out| && Get(t, x).got[c] <= |Get(t, Other(x)).out[c].log|
    ensures Way(s, t') && Get(t', Other(x)) == Get(t, Other(x))
    ensures Caught(Get(t', x), c) && Get(t', x).segs == Get(t, x).segs
    ensures OnlyAcks(Get(t, x).out[c], Get(t', x).out[c])
    ensures Get(t', x).got[c] == |Get(t, Other(x)).out[c].log|
    decreases |Get(t, Other(x)).out[c].log| - Get(t, x).got[c]
  {
    hide Way, Get;
    t' := t;
    if Get(t, x).got[c] < |Get(t, Other(x)).out[c].log| {
      t' := ReceiveOne(s, t, x, c);
      t' := ReceiveAll(s, t', x, c);
    }
  }

  /** Everything `sender` ever accepted has been returned by `receiver`. */
  ghost predicate Complete(sender: Node, receiver: Node) {
    && receiver.e.recvSeq == sender.e.sendSeq
    && receiver.returned == Flat(sender.segs)
    && !sender.e.cancelled && !receiver.e.cancelled
  }

  lemma NothingMissing(s: Node, r: Node, c: ConnId)
    requires Inv(s, r) && Caught(s, c) && Caught(r, c)
    requires r.got[c] <= |s.out[c].log| && Data(s.out[c].log[..r.got[c]]) == Data(s.out[c].log)
    ensures Complete(s, r)
  {
    assert ConnOk(s, r, c);
    assert Waiting(s, c) == [] && Processed(r, c) == r.got[c];
    hide Data, Total, Flat;
    assert |r.delivered| == |s.segs|;
    RunAtSlice(r.delivered, s.segs, 0);
    assert r.delivered == s.segs;
    assert r.returned + [] == r.returned;
  }

  lemma {:induction false} GotBound(s: System, t: System, x: Side, c: ConnId)
    requires Way(s, t) && c < |Get(t, x).out|
    ensures var me, peer := Get(t, x), Get(t, Other(x));
      c < |me.got| && c < |peer.out| && me.got[c] <= |peer.out[c].log|
  {
    Sizes(s, t, x);
    OnTheWay(s, t, Other(x));
    assert ConnOk(Get(t, Other(x)), Get(t, x), c);
    hide Way, BufferOk, DeliveryOk, ReaderOk, WriterOk, StreamOk, PositionOk, AcksOk;
  }

  lemma CaughtSize(n: Node, c: ConnId)
    requires Caught(n, c)
    ensures c < |n.out| && c < |n.got|
  {
  }

  /** First the client reads all it can, then the server; what the client has not read by then are acks. */
  lemma {:induction false} DrainBoth(s: System, t: System, c: ConnId) returns (t': System)
    requires Way(s, t) && Caught(t.client, c) && Caught(t.server, c)
    ensures Way(s, t') && t'.client.segs == t.client.segs && t'.server.segs == t.server.segs
    ensures Caught(t'.client, c) && Caught(t'.server, c)
    ensures Complete(t'.client, t'.server) && Complete(t'.server, t'.client)
  {
    hide Way, Caught, Complete, Data;
    CaughtSize(t.client, c);
    CaughtSize(t.server, c);
    GotBound(s, t, Client, c);
    var t1 := ReceiveAll(s, t, Client, c);
    CaughtSize(t1.client, c);
    GotBound(s, t1, Server, c);
    t' := ReceiveAll(s, t1, Server, c);
    CaughtSize(t'.server, c);
    OnTheWay(s, t', Client);
    OnTheWay(s, t', Server);
    assert t'.server.out[c].log[..t'.client.got[c]] == t.server.out[c].log;
    assert t'.client.out[c].log[..t'.server.got[c]] == t'.client.out[c].log;
    NothingMissing(t'.server, t'.client, c);
    NothingMissing(t'.client, t'.server, c);
  }

  /**
   `t` continues `s` without any new Write; there both ends share the live
   connection `c`, and each has returned every byte the other accepted.
   */
  ghost predicate Recovered(s: System, t: System, c: ConnId) {
    && Reaches(s, t) && t.client.segs == s.client.segs && t.server.segs == s.server.segs
    && Caught(t.client, c) && Caught(t.server, c)
    && Complete(t.client, t.server) && Complete(t.server, t.client)
  }

  /**
   Resume completeness: from every reachable state with both ends open (and no
   refused commit already in the server's hands) there is such a finite
   continuation.
   */
  lemma {:induction false} ResumeCompletes(run: seq<Step>)
    requires Legal(Init(), run)
    requires var s := Exec(Init(), run);
      !s.client.e.cancelled && !s.server.e.cancelled && !Doomed(s.server)
    ensures exists t, c :: Recovered(Exec(Init(), run), t, c)
  {
    var s := Exec(Init(), run);
    InitOk();
    InitHonest();
    KeepRun(Init(), run);
    HonestRun(Init(), run);
    Here(s);
    assert Way(s, s);
    if s.client.writer.HelloGot? {
      ClientNotRefused(s);
    }
    hide SystemInv, Honest, Reaches, Legal, Exec, Complete, Settled, Joined;
    var t := Settle(s, s, Client);
    t := Settle(s, t, Server);
    var c: ConnId;
    t, c := Resume(s, t);
    t := SendAll(s, t, Client, c);
    t := SendAll(s, t, Server, c);
    t := DrainBoth(s, t, c);
    assert Recovered(s, t, c);
  }
}
