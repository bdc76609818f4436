/** Concrete runs of two honest endpoints that show where a promise of the code stops. */
module Scenarios {
  import opened Bytes
  import opened Endpoints
  import opened Protocol
  import opened Invariant
  import opened Preservation
  import opened HonestPeers
  import opened Reconnection
  import opened Schedules

  const HELLO := Frame(0, [])
  const OPEN := Pipe([], false)
  const GREETED := Pipe([HELLO], false)

  function Plain(e: Endpoint, out: seq<Pipe>, got: seq<nat>, begun: set<ConnId>, installed: set<ConnId>): Node {
    Node(e, Idle, Resting, {}, Nobody, out, got, begun, installed, {}, Zeros(|out|), [], [], [], false)
  }

  function Zeros(n: nat): seq<nat> {
    seq(n, _ => 0)
  }

  function Written(n: Node, data: Segment): Node
    requires n.e.ws.Some? && n.e.ws.value < |n.out|
  {
    var c := n.e.ws.value;
    Release(n.(e := NoteAck(Append(n.e, data), n.e.recvSeq), segs := n.segs + [data],
               out := n.out[c := Pipe(n.out[c].log + [Frame(n.e.recvSeq, data)], false)]))
  }

  /** A whole Write on a live connection, whose frame arrives. */
  lemma WriteArrives(t: System, x: Side, data: Segment) returns (t': System)
    requires Way(Init(), t) && data != []
    requires Get(t, x).writer.Idle? && !Get(t, x).e.cancelled && Get(t, x).e.ws.Some?
    requires CanSend(Get(t, x).(writer := Transmit(Get(t, x).e.ws.value, [data])))
    ensures Way(Init(), t') && Get(t', Other(x)) == Get(t, Other(x))
    ensures Get(t', x) == Written(Get(t, x), data)
  {
    hide Way;
    t' := Act(Init(), t, x, Write(data));
    t' := SendFrame(Init(), t', x);
  }

  function Hailing(n: Node, c: ConnId): Node
    requires c < |n.out| && c < |n.mark|
  {
    n.(e := Detach(n.e), begun := n.begun + {c}, mark := n.mark[c := |n.delivered|],
       out := n.out[c := Pipe([Frame(n.e.recvSeq, [])], false)], writer := HelloWait(c, n.e.recvSeq))
  }

  /** The second detach of an attach, and its hello arrives. */
  lemma Hails(t: System, x: Side, c: ConnId) returns (t': System)
    requires Way(Init(), t) && Enabled(Get(t, x), Get(t, Other(x)), BeginAttach(c))
    requires x == Client ==> c + 1 == |t.client.out|
    requires Get(t, x).out[c] == OPEN && c !in Get(t, x).shut
    ensures Way(Init(), t') && Get(t', Other(x)) == Get(t, Other(x))
    ensures Get(t', x) == Hailing(Get(t, x), c)
  {
    hide Way;
    t' := Act(Init(), t, x, BeginAttach(c));
    assert [] + [Frame(Get(t, x).e.recvSeq, [])] == [Frame(Get(t, x).e.recvSeq, [])];
    t' := Act(Init(), t', x, PutHello(Arrives));
    assert Get(t, x).out[c := Pipe([], false)] == Get(t, x).out;
  }

  /**
   The client gave up connection 0, and then connection 1 when its handshake timed
   out.  The server still uses connection 0; its handler of connection 1 is slow.
   */
  function SlowHandler(): System {
    System(Plain(Fresh.(ws := None), [OPEN, GREETED], [0, 0], {0, 1}, {0}).(shut := {0, 1}),
           Plain(Fresh, [OPEN, OPEN], [0, 0], {0}, {0}))
  }

  lemma SameNode(a: Node, b: Node)
    requires a.e == b.e && a.writer == b.writer && a.reader == b.reader && a.out == b.out && a.got == b.got
    requires a.beats == b.beats && a.flusher == b.flusher
    requires a.begun == b.begun && a.installed == b.installed && a.shut == b.shut
    requires a.mark == b.mark
    requires a.segs == b.segs && a.delivered == b.delivered && a.returned == b.returned && a.accused == b.accused
    ensures a == b
  {
  }

  lemma StartOf()
    ensures Way(Init(), Init())
  {
    Here(Init());
    InitOk();
    InitHonest();
  }

  /** The client closes connection 0, dials connection 1, and closes that too when the handshake times out. */
  lemma TryFirst(t: System) returns (t': System)
    requires Way(Init(), t) && t.client.e.ws == Some(0) && t.client.writer.Idle?
    requires |t.client.out| == |t.client.got| == |t.client.mark| == 1
    requires t.client.begun == {0} && t.client.shut == {}
    ensures Way(Init(), t') && t'.server == AddConn(t.server)
    ensures t'.client == t.client.(e := Detach(t.client.e), out := t.client.out + [Pipe([Frame(t.client.e.recvSeq, [])], false)],
                                   got := t.client.got + [0], mark := t.client.mark + [|t.client.delivered|],
                                   begun := {0, 1}, shut := {0, 1})
  {
    hide Way;
    t' := GiveUp(Init(), t, Client);
    Further(Init(), t', Dial);
    t' := DoStep(t', Dial);
    t' := Hails(t', Client, 1);
    t' := FreeShaking(Init(), t', Client);
  }

  lemma ReachSlowHandler()
    ensures Way(Init(), SlowHandler())
  {
    StartOf();
    hide Way;
    var t := TryFirst(Init());
    SameNode(t.client, SlowHandler().client);
    SameNode(t.server, SlowHandler().server);
  }

  /** Both sides have said hello on connection 2. */
  function BothGreeted(): System {
    System(Plain(Fresh.(ws := None), [OPEN, GREETED, GREETED], [0, 0, 0], {0, 1, 2}, {0})
             .(shut := {0, 1}, writer := HelloWait(2, 0)),
           Plain(Fresh.(ws := None), [OPEN, OPEN, GREETED], [0, 0, 0], {0, 2}, {0})
             .(shut := {0}, writer := HelloWait(2, 0)))
  }

  lemma ReachBothGreeted()
    ensures Way(Init(), BothGreeted())
  {
    ReachSlowHandler();
    hide Way;
    Further(Init(), SlowHandler(), Dial);
    var t := DoStep(SlowHandler(), Dial);
    t := Hails(t, Client, 2);
    SameNode(t.client, BothGreeted().client);
    t := GiveUp(Init(), t, Server);
    t := Hails(t, Server, 2);
    SameNode(t.server, BothGreeted().server);
  }

  function OnSecond(): System {
    System(Plain(Fresh.(ws := Some(2)), [OPEN, GREETED, GREETED], [0, 0, 1], {0, 1, 2}, {0, 2}).(shut := {0, 1}),
           Plain(Fresh.(ws := Some(2)), [OPEN, OPEN, GREETED], [0, 0, 1], {0, 2}, {0, 2}).(shut := {0}))
  }

  lemma ReachOnSecond()
    ensures Way(Init(), OnSecond())
  {
    ReachBothGreeted();
    hide Way;
    var t := Act(Init(), BothGreeted(), Client, TakeHello);
    t := Act(Init(), t, Server, TakeHello);
    t := Act(Init(), t, Client, Commit);
    SameNode(t.client, OnSecond().client);
    t := Act(Init(), t, Server, Commit);
    SameNode(t.server, OnSecond().server);
  }

  const BYTE: Segment := [7]
  const DATA := Frame(0, BYTE)
  const CONFIRM := Frame(1, [])

  /** The server wrote one byte on connection 2 and the client received it. */
  function OneByte(): System {
    System(OnSecond().client.(e := Endpoint(Some(2), 1, 0, [], 0, 0, BYTE, false, false), got := [0, 0, 2], delivered := [BYTE]),
           OnSecond().server.(e := Endpoint(Some(2), 0, 0, [BYTE], 0, 1, [], false, false),
                              out := [OPEN, OPEN, Pipe([HELLO, DATA], false)], segs := [BYTE]))
  }

  lemma ReachByteSent()
    ensures Way(Init(), OneByte().(client := OnSecond().client))
  {
    ReachOnSecond();
    hide Way;
    var t := WriteArrives(OnSecond(), Server, BYTE);
    assert [HELLO] + [DATA] == [HELLO, DATA] && [] + [BYTE] == [BYTE];
    SameNode(t.server, OneByte().server);
  }

  lemma ReachOneByte()
    ensures Way(Init(), OneByte())
  {
    ReachByteSent();
    hide Way;
    var t := Act(Init(), OneByte().(client := OnSecond().client), Client, PickConn);
    t := Act(Init(), t, Client, Take);
    t := Act(Init(), t, Client, Process);
    SameNode(t.client, OneByte().client);
  }

  /** The client confirmed the byte and the server processed that ack. */
  function Confirmed(): System {
    System(OneByte().client.(e := OneByte().client.e.(ackSent := 1),
                             out := [OPEN, GREETED, Pipe([HELLO, CONFIRM], false)]),
           OneByte().server.(e := Endpoint(Some(2), 0, 0, [], 1, 1, [], false, false), got := [0, 0, 2]))
  }

  lemma ReachAckSent()
    ensures Way(Init(), Confirmed().(server := OneByte().server))
  {
    ReachOneByte();
    hide Way;
    var t := Act(Init(), OneByte(), Client, SeeBehind(2));
    t := Act(Init(), t, Client, StartAck(2));
    t := SendFrame(Init(), t, Client);
    assert [HELLO] + [CONFIRM] == [HELLO, CONFIRM];
    SameNode(t.client, Confirmed().client);
  }

  lemma ReachConfirmed()
    ensures Way(Init(), Confirmed())
  {
    ReachAckSent();
    hide Way;
    var t := Act(Init(), Confirmed().(server := OneByte().server), Server, PickConn);
    t := Act(Init(), t, Server, Take);
    t := Act(Init(), t, Server, Process);
    SameNode(t.server, Confirmed().server);
  }

  /**
   An honest client can be accused: the slow handler of connection 1 attaches
   after connection 2 has carried data and an ack.  It closes connection 2, reads
   the old hello (its own goes into a connection the client has left), and the
   session is closed with a protocol violation.
   */
  lemma StaleHelloIsAccused()
    ensures exists t :: Reaches(Init(), t) && t.server.accused && !t.client.accused
  {
    ReachConfirmed();
    var t := Confirmed();
    hide Way;
    t := GiveUp(Init(), t, Server);
    t := Act(Init(), t, Server, BeginAttach(1));
    t := Act(Init(), t, Server, PutHello(Vanishes));
    t := Act(Init(), t, Server, TakeHello);
    t := Act(Init(), t, Server, Commit);
    assert t.server.accused && !t.client.accused;
    WayReaches(t);
  }

  lemma WayReaches(t: System)
    requires Way(Init(), t)
    ensures Reaches(Init(), t)
  {
  }

  // ------------------------------------------------ two handlers that overlap

  /**
   The server received and returned one byte on connection 0, whose heartbeat
   found that byte not acknowledged and now waits for writeMu.
   */
  function Waiting0(): System {
    System(Plain(Endpoint(Some(0), 0, 0, [BYTE], 0, 1, [], false, false), [Pipe([DATA], false)], [0], {0}, {0})
             .(segs := [BYTE]),
           Plain(Endpoint(Some(0), 1, 0, [], 0, 0, [], false, false), [OPEN], [1], {0}, {0})
             .(delivered := [BYTE], returned := BYTE, beats := {0}))
  }

  lemma ReachFirstByte()
    ensures Way(Init(), Waiting0().(server := FreshNode()))
  {
    StartOf();
    hide Way;
    var t := WriteArrives(Init(), Client, BYTE);
    assert [] + [DATA] == [DATA] && [] + [BYTE] == [BYTE];
    SameNode(t.client, Waiting0().client);
  }

  lemma ReachWaiting0()
    ensures Way(Init(), Waiting0())
  {
    ReachFirstByte();
    hide Way;
    var t := Act(Init(), Waiting0().(server := FreshNode()), Server, PickConn);
    t := Act(Init(), t, Server, Take);
    t := Act(Init(), t, Server, Process);
    t := Act(Init(), t, Server, SeeBehind(0));
    t := Act(Init(), t, Server, HandOutBytes(1));
    SameNode(t.server, Waiting0().server);
  }

  /**
   The client gave up connection 0, and connection 1 when its handshake timed out,
   and dialled connection 2.  On the server the handler of connection 1 has run
   the first half of its first detach: it cleared `ws` and has not closed
   connection 0 yet.  The handler of connection 2 found nothing to close and said
   hello.  The reader waits for a connection.
   */
  function Overtaking(): System {
    System(Plain(Endpoint(None, 0, 0, [BYTE], 0, 1, [], false, false), [Pipe([DATA], false), GREETED, GREETED], [0, 0, 0],
                 {0, 1, 2}, {0})
             .(segs := [BYTE], shut := {0, 1}, writer := HelloWait(2, 0)),
           Plain(Endpoint(None, 1, 0, [], 0, 0, [], false, false), [OPEN, OPEN, Pipe([CONFIRM], false)], [1, 0, 0], {0, 2}, {0})
             .(delivered := [BYTE], returned := BYTE, beats := {0}, mark := [0, 0, 1], writer := HelloWait(2, 1)))
  }

  lemma ReachOvertaking()
    ensures Way(Init(), Overtaking())
  {
    ReachWaiting0();
    hide Way;
    var t := TryFirst(Waiting0());
    t := Act(Init(), t, Server, Drop);
    Further(Init(), t, Dial);
    t := DoStep(t, Dial);
    t := Hails(t, Client, 2);
    SameNode(t.client, Overtaking().client);
    t := Hails(t, Server, 2);
    SameNode(t.server, Overtaking().server);
  }

  /** Connection 2 is current on both sides. */
  function Rejoined(): System {
    System(Overtaking().client.(e := Endpoint(Some(2), 0, 0, [], 1, 1, [], false, false), got := [0, 0, 1],
                                installed := {0, 2}, writer := Idle),
           Overtaking().server.(e := Endpoint(Some(2), 1, 1, [], 0, 0, [], false, false), got := [1, 0, 1],
                                installed := {0, 2}, writer := Idle))
  }

  lemma ReachRejoined()
    ensures Way(Init(), Rejoined())
  {
    ReachOvertaking();
    hide Way;
    var t := Act(Init(), Overtaking(), Client, TakeHello);
    t := Act(Init(), t, Server, TakeHello);
    t := Act(Init(), t, Client, Commit);
    SameNode(t.client, Rejoined().client);
    t := Act(Init(), t, Server, Commit);
    SameNode(t.server, Rejoined().server);
  }

  /** The client wrote a second byte, on connection 2, and the server received it. */
  function SecondByte(): System {
    System(Rejoined().client.(e := Endpoint(Some(2), 0, 0, [BYTE], 1, 2, [], false, false),
                              out := [Pipe([DATA], false), GREETED, Pipe([HELLO, DATA], false)], segs := [BYTE, BYTE]),
           Rejoined().server.(e := Endpoint(Some(2), 2, 1, [], 0, 0, BYTE, false, false), got := [1, 0, 2],
                              delivered := [BYTE, BYTE]))
  }

  lemma ReachSecondSent()
    ensures Way(Init(), SecondByte().(server := Rejoined().server))
  {
    ReachRejoined();
    hide Way;
    var t := WriteArrives(Rejoined(), Client, BYTE);
    assert [HELLO] + [DATA] == [HELLO, DATA] && [BYTE] + [BYTE] == [BYTE, BYTE] && [] + [BYTE] == [BYTE];
    SameNode(t.client, SecondByte().client);
  }

  lemma ReachSecondByte()
    ensures Way(Init(), SecondByte())
  {
    ReachSecondSent();
    hide Way;
    var t := Act(Init(), SecondByte().(server := Rejoined().server), Server, PickConn);
    t := Act(Init(), t, Server, Take);
    t := Act(Init(), t, Server, Process);
    assert [BYTE] + [BYTE] == [BYTE, BYTE];
    SameNode(t.server, SecondByte().server);
  }

  ghost predicate Overstated(t: System) {
    && t.server.e.ws == Some(2) && |t.server.out| == 3
    && !t.server.out[2].cut && t.server.writer.Idle?
    && t.server.e.recvSeq == t.server.e.ackSent > LastAck(t.server.out[2].log)
    && t.client.e.unacked != []
  }

  /**
   `ackSent` can overstate what went out on the current connection: connection 0
   is still open while its closer is overtaken, and its heartbeat gets writeMu
   only after connection 2 was made current and carried a byte.  Its ack goes into
   connection 0 and is lost; as long as connection 2 lives and nothing is
   received, `recvSeq > ackSent` is false while the client still holds the segment.
   */
  lemma StaleHeartbeatOverstates()
    ensures exists t :: Reaches(Init(), t) && Overstated(t)
  {
    ReachSecondByte();
    var t := SecondByte();
    hide Way;
    t := Act(Init(), t, Server, StartAck(0));
    t := Act(Init(), t, Server, LoadAck);
    t := Act(Init(), t, Server, PutFrame(Vanishes));
    t := Act(Init(), t, Server, NoteSent);
    assert LastAck(t.server.out[2].log) == 1 && Overstated(t);
    WayReaches(t);
  }
}
