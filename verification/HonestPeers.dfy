/**
 Honest peers and the protocol-violation checks.  The client never accuses the
 server.  The server refuses a resume exactly when the hello it read is older
 than an ack it has already processed, and that needs an attach out of dial order.
 */
module HonestPeers {
  import opened Bytes
  import opened Endpoints
  import opened Protocol
  import opened Invariant
  import opened Preservation

  /** The newest connection the client has dialled. */
  function Newest(s: System): int {
    |s.client.out| - 1
  }

  ghost predicate AllInstalledBefore(n: Node, c: ConnId) {
    forall d | d in n.installed :: d < c
  }

  /** The client works on its newest connection only. */
  ghost predicate ClientOrder(s: System) {
    && (s.client.e.ws.Some? ==> s.client.e.ws.value == Newest(s))
    && (s.client.writer.Shaking() ==> s.client.writer.conn == Newest(s))
    && (Newest(s) !in s.client.installed ==> s.client.e.ws == None)
  }

  /** What the client has been told is confirmed is within what the server announces on the newest connection. */
  ghost predicate ServerHello(s: System) {
    var n := Newest(s);
    n >= 1 && n < |s.server.mark| && n in s.server.begun && n !in s.client.installed && !s.client.e.closed ==>
      && s.server.mark[n] <= |s.client.segs|
      && s.client.e.unackedAt <= Total(s.client.segs[..s.server.mark[n]])
  }

  /** The client's receive position stands still until the server attaches that connection or a newer one. */
  ghost predicate ClientHello(s: System) {
    forall c | c in s.client.begun && c < |s.client.mark| && AllInstalledBefore(s.server, c) ::
      s.client.mark[c] == |s.client.delivered|
  }

  ghost predicate Honest(s: System) {
    ClientOrder(s) && ServerHello(s) && ClientHello(s) && !s.client.accused
  }

  /** Commit in a reachable state is refused exactly when the hello is behind an ack already processed. */
  lemma CommitRefusedIff(me: Node, peer: Node)
    requires Inv(me, peer) && me.writer.HelloGot? && !me.e.cancelled
    ensures Install(me.e, me.writer.conn, me.writer.myAck, me.writer.peerAck).Refused? <==>
            me.writer.peerAck < me.e.unackedAt
    ensures DoCommit(me).accused <==> me.accused || me.writer.peerAck < me.e.unackedAt
  {
    hide ConnOk, BufferOk, DeliveryOk, WriterOk, ReaderOk, Trim;
    GotFacts(me, peer);
    HelloMeans(me, peer, me.writer.conn);
    OpenNotClosed(me);
    AckEffect(me, peer, me.writer.peerAck);
  }

  /** No frame is ever rejected: "ack beyond sent" cannot happen between two endpoints that run this code. */
  lemma FramesAccepted(me: Node, peer: Node)
    requires Inv(me, peer) && me.reader.Holding?
    ensures !Accept(me.e, me.reader.conn, me.reader.frame).Violation?
    ensures DoProcess(me).accused == me.accused
    ensures me.e.ws != Some(me.reader.conn) ==> DoProcess(me).e == me.e
    ensures DoProcess(me).e.ws == me.e.ws
    ensures me.e.ws == None ==> DoProcess(me) == me.(reader := Resting)
  {
    hide ConnOk, BufferOk, DeliveryOk, WriterOk, ReaderOk, Trim, Data, AcksOk, RunAt, Total;
    if me.e.ws == Some(me.reader.conn) {
      HoldingFacts(me, peer);
      NextSegment(peer, me);
      AckEffect(me, peer, me.reader.frame.ack);
    }
  }

  /** What the hello of the peer says, once read. */
  lemma HelloValue(me: Node, peer: Node)
    requires Inv(me, peer) && me.writer.HelloGot?
    ensures var c := me.writer.conn;
      && 0 < c < |me.out| && c < |peer.mark| && c in peer.begun && c !in me.installed
      && peer.mark[c] <= |peer.delivered| <= |me.segs|
      && me.writer.peerAck == Total(me.segs[..peer.mark[c]]) == Total(peer.delivered[..peer.mark[c]])
  {
    var c := me.writer.conn;
    assert ConnOk(peer, me, c);
    hide ConnOk, BufferOk, Data;
    GotFacts(me, peer);
    HelloMeans(me, peer, c);
    assert peer.delivered <= me.segs;
    assert peer.delivered[..peer.mark[c]] == me.segs[..peer.mark[c]];
  }

  lemma ClientNotRefused(s: System)
    requires SystemInv(s) && Honest(s) && s.client.writer.HelloGot? && !s.client.e.cancelled
    ensures s.client.writer.peerAck >= s.client.e.unackedAt
  {
    HelloValue(s.client, s.server);
    OpenNotClosed(s.client);
    hide ClientHello, Total;
  }

  lemma ServerNotRefused(s: System)
    requires SystemInv(s) && Honest(s) && s.server.writer.HelloGot? && !s.server.e.cancelled
    requires AllInstalledBefore(s.server, s.server.writer.conn)
    ensures s.server.writer.peerAck >= s.server.e.unackedAt
  {
    var c := s.server.writer.conn;
    HelloValue(s.server, s.client);
    OpenNotClosed(s.server);
    assert s.client.delivered[..|s.client.delivered|] == s.client.delivered;
    hide Total, ConnOk;
  }

  // ------------------------------------------------ preservation, client steps

  lemma DataNeedsInstall(s: System)
    requires SystemInv(s) && ClientOrder(s)
    requires s.client.reader.Holding? && s.client.e.ws == Some(s.client.reader.conn)
    ensures Newest(s) in s.server.installed
    ensures forall c | c in s.client.begun :: !AllInstalledBefore(s.server, c)
  {
    var c := s.client.reader.conn;
    assert ConnOk(s.server, s.client, c);
    hide ConnOk, Data, Total, Flat, RunAt, Boundary, AcksOk;
    forall b | b in s.client.begun ensures !AllInstalledBefore(s.server, b) {
      assert b <= Newest(s);
    }
  }

  /** Processing a frame changes the current connection's state or nothing but the reader. */
  lemma ProcessOutcome(me: Node, peer: Node)
    requires Inv(me, peer) && me.reader.Holding?
    ensures var n := DoProcess(me);
      && n == me.(e := n.e, delivered := n.delivered, reader := n.reader)
      && n.e.ws == me.e.ws && n.e.closed == me.e.closed
      && (me.e.ws != Some(me.reader.conn) ==> n == me.(reader := Resting))
  {
    FramesAccepted(me, peer);
    hide Inv, Trim;
  }

  lemma ClientReceived(s: System, s': System)
    requires Honest(s) && s.client.e.ws.Some? && s.client.e.ws.value in s.client.installed
    requires s'.client == s.client.(e := s'.client.e, delivered := s'.client.delivered, reader := s'.client.reader)
    requires s'.server == s.server && s'.client.e.ws == s.client.e.ws
    requires forall c | c in s.client.begun :: !AllInstalledBefore(s.server, c)
    ensures Honest(s')
  {
    hide AllInstalledBefore, Total;
  }

  lemma ClientDiscarded(s: System, s': System)
    requires Honest(s) && s' == s.(client := s.client.(reader := Resting))
    ensures Honest(s')
  {
    hide AllInstalledBefore, Total;
  }

  lemma OrderOf(s: System)
    requires Honest(s)
    ensures ClientOrder(s)
  {
  }

  lemma ClientProcess(s: System, s': System)
    requires SystemInv(s) && Honest(s) && s.client.reader.Holding?
    requires s' == s.(client := DoProcess(s.client))
    ensures Honest(s')
  {
    OneSide(s, Client);
    hide SystemInv, AllInstalledBefore, Honest, ClientOrder, Inv, DoProcess;
    ProcessOutcome(s.client, s.server);
    if s.client.e.ws != Some(s.client.reader.conn) {
      ClientDiscarded(s, s');
    } else {
      OrderOf(s);
      DataNeedsInstall(s);
      CurrentInstalled(s.client, s.server);
      ClientReceived(s, s');
    }
  }

  /** A commit that is not refused either changes nothing but the writer, or makes the connection current. */
  lemma CommitOutcome(me: Node, peer: Node)
    requires Inv(me, peer) && me.writer.HelloGot?
    requires !me.e.cancelled ==> me.writer.peerAck >= me.e.unackedAt
    ensures var n := DoCommit(me);
      || n == me.(writer := Idle)
      || (&& n == me.(e := n.e, installed := me.installed + {me.writer.conn}, writer := n.writer)
          && n.e.ws == Some(me.writer.conn) && n.e.cancelled == me.e.cancelled && !n.writer.Shaking())
  {
    if !me.e.cancelled {
      CommitRefusedIff(me, peer);
    }
    hide Inv, Trim;
  }

  lemma ClientIdle(s: System, s': System)
    requires Honest(s) && s' == s.(client := s.client.(writer := Idle))
    ensures Honest(s')
  {
    hide AllInstalledBefore, Total;
  }

  lemma ClientInstalled(s: System, s': System)
    requires Honest(s) && s.client.writer.HelloGot?
    requires var c := s.client.writer.conn;
      && s'.client == s.client.(e := s'.client.e, installed := s.client.installed + {c}, writer := s'.client.writer)
      && s'.server == s.server
      && s'.client.e.ws == Some(c) && !s'.client.writer.Shaking()
    ensures Honest(s')
  {
    hide AllInstalledBefore, Total;
  }

  lemma ClientCommit(s: System, s': System)
    requires SystemInv(s) && Honest(s) && s.client.writer.HelloGot?
    requires s' == s.(client := DoCommit(s.client))
    ensures Honest(s')
  {
    if !s.client.e.cancelled {
      ClientNotRefused(s);
    }
    OneSide(s, Client);
    CommitOutcome(s.client, s.server);
    hide SystemInv, Honest, DoCommit, Inv;
    if s'.client == s.client.(writer := Idle) {
      ClientIdle(s, s');
    } else {
      ClientInstalled(s, s');
    }
  }

  lemma ClientBegin(s: System, s': System, c: ConnId)
    requires SystemInv(s) && Honest(s) && Enabled(s.client, s.server, BeginAttach(c))
    requires c == Newest(s)
    requires s' == s.(client := Apply(s.client, s.server, BeginAttach(c)))
    ensures Honest(s')
  {
    hide SystemInv, AllInstalledBefore, Total;
  }

  lemma ClientWrite(s: System, s': System, data: Segment)
    requires SystemInv(s) && Honest(s) && Enabled(s.client, s.server, Write(data))
    requires s' == s.(client := Apply(s.client, s.server, Write(data)))
    ensures Honest(s')
  {
    hide SystemInv, AllInstalledBefore, Total;
    var n := Newest(s);
    if 0 <= n < |s.server.mark| && s.server.mark[n] <= |s.client.segs| {
      assert s'.client.segs[..s.server.mark[n]] == s.client.segs[..s.server.mark[n]];
    }
  }

  predicate Neutral(a: Action) {
    !(a.Write? || a.Process? || a.Commit? || a.BeginAttach?)
  }

  /** What a neutral action leaves alone. */
  ghost predicate LeftAlone(me: Node, n: Node) {
    && n.installed == me.installed && n.begun == me.begun && n.mark == me.mark
    && n.segs == me.segs && n.delivered == me.delivered && n.accused == me.accused
    && |n.out| == |me.out|
    && (n.e.ws == me.e.ws || n.e.ws == None)
    && n.e.unackedAt == me.e.unackedAt
    && (me.e.closed ==> n.e.closed)
    && (n.writer.Shaking() ==> me.writer.Shaking() && n.writer.conn == me.writer.conn)
  }

  lemma NeutralPut(me: Node, fate: Fate)
    requires me.writer.Loaded? && me.writer.conn < |me.out|
    ensures LeftAlone(me, DoPut(me, fate))
  {
    hide Carry;
  }

  lemma NeutralNote(me: Node)
    requires me.writer.Sent?
    ensures LeftAlone(me, DoNote(me))
  {
  }

  lemma NeutralFrame(me: Node, peer: Node, a: Action)
    requires Neutral(a) && Enabled(me, peer, a)
    ensures LeftAlone(me, Apply(me, peer, a))
  {
    hide Data, Carry, DoPut, DoNote, DoCommit, DoProcess;
    match a
    case PutFrame(fate) => NeutralPut(me, fate);
    case NoteSent => NeutralNote(me);
    case _ =>
  }

  lemma ClientNeutral(s: System, s': System, a: Action)
    requires SystemInv(s) && Honest(s) && Neutral(a) && Enabled(s.client, s.server, a)
    requires s' == s.(client := Apply(s.client, s.server, a))
    ensures Honest(s')
  {
    NeutralFrame(s.client, s.server, a);
    hide SystemInv, AllInstalledBefore, Total, Apply, Enabled, Neutral;
  }

  // ------------------------------------------------ preservation, server steps

  lemma ServerBegin(s: System, s': System, c: ConnId)
    requires SystemInv(s) && Honest(s) && Enabled(s.server, s.client, BeginAttach(c))
    requires s' == s.(server := Apply(s.server, s.client, BeginAttach(c)))
    ensures Honest(s')
  {
    hide ConnOk;
    assert s.server.delivered <= s.client.segs;
    assert s.client.segs[..|s.server.delivered|] == s.server.delivered;
    hide SystemInv, Total;
  }

  lemma ServerCommit(s: System, s': System)
    requires SystemInv(s) && Honest(s) && s.server.writer.HelloGot?
    requires s' == s.(server := DoCommit(s.server))
    ensures Honest(s')
  {
    hide SystemInv, Total, Trim;
    assert s'.server.installed >= s.server.installed && s'.server.mark == s.server.mark && s'.server.begun == s.server.begun;
  }

  lemma ServerOther(s: System, s': System, a: Action)
    requires SystemInv(s) && Honest(s) && !a.BeginAttach? && !a.Commit? && Enabled(s.server, s.client, a)
    requires s' == s.(server := Apply(s.server, s.client, a))
    ensures Honest(s')
  {
    hide SystemInv, Total, Trim, AllInstalledBefore, Data;
    assert s'.server.installed == s.server.installed && s'.server.mark == s.server.mark && s'.server.begun == s.server.begun;
    SameInstalled(s.server, s'.server);
  }

  lemma SameInstalled(n: Node, n': Node)
    requires n'.installed == n.installed
    ensures forall c :: AllInstalledBefore(n', c) <==> AllInstalledBefore(n, c)
  {
  }

  lemma DialHonest(s: System)
    requires SystemInv(s) && Honest(s) && CanStep(s, Dial)
    ensures Honest(DoStep(s, Dial))
  {
    var s' := DoStep(s, Dial);
    SameInstalled(s.server, s'.server);
    assert Newest(s') !in s'.server.begun;
    hide SystemInv, Total, AllInstalledBefore;
  }

  lemma LoseHonest(s: System, x: Side, c: ConnId, keep: nat)
    requires SystemInv(s) && Honest(s) && CanStep(s, Lose(x, c, keep))
    ensures Honest(DoStep(s, Lose(x, c, keep)))
  {
    hide SystemInv, Total, AllInstalledBefore, Data;
    SameInstalled(s.server, DoStep(s, Lose(x, c, keep)).server);
  }

  lemma ProcessIs(me: Node, peer: Node)
    requires Enabled(me, peer, Process)
    ensures me.reader.Holding? && Apply(me, peer, Process) == DoProcess(me)
  {
  }

  lemma PutIs(me: Node, peer: Node, fate: Fate)
    requires Enabled(me, peer, PutFrame(fate))
    ensures me.writer.Loaded? && me.writer.conn < |me.out| && Apply(me, peer, PutFrame(fate)) == DoPut(me, fate)
  {
  }

  lemma NoteIs(me: Node, peer: Node)
    requires Enabled(me, peer, NoteSent)
    ensures me.writer.Sent? && Apply(me, peer, NoteSent) == DoNote(me)
  {
  }

  lemma CommitIs(me: Node, peer: Node)
    requires Enabled(me, peer, Commit)
    ensures me.writer.HelloGot? && Apply(me, peer, Commit) == DoCommit(me)
  {
  }

  lemma ClientStep(s: System, a: Action)
    requires SystemInv(s) && Honest(s) && CanStep(s, Local(Client, a))
    ensures Honest(DoStep(s, Local(Client, a)))
  {
    var s' := DoStep(s, Local(Client, a));
    hide SystemInv, Honest, Apply, Enabled, DoProcess, DoCommit;
    if a.Process? {
      ProcessIs(s.client, s.server);
      ClientProcess(s, s');
    } else if a.Commit? {
      CommitIs(s.client, s.server);
      ClientCommit(s, s');
    } else if a.Write? {
      ClientWrite(s, s', a.data);
    } else if a.BeginAttach? {
      ClientBegin(s, s', a.conn);
    } else {
      ClientNeutral(s, s', a);
    }
  }

  lemma KeepHonest(s: System, st: Step)
    requires SystemInv(s) && Honest(s) && CanStep(s, st)
    ensures Honest(DoStep(s, st))
  {
    hide SystemInv, Honest;
    match st
    case Dial => DialHonest(s);
    case Lose(x, c, keep) => LoseHonest(s, x, c, keep);
    case Local(x, a) =>
      if x == Client {
        ClientStep(s, a);
      } else {
        var s' := DoStep(s, st);
        match a
        case BeginAttach(c) => ServerBegin(s, s', c);
        case Commit => ServerCommit(s, s');
        case _ => ServerOther(s, s', a);
      }
  }

  lemma InitHonest()
    ensures Honest(Init())
  {
  }

  lemma {:induction false} HonestRun(s: System, run: seq<Step>)
    requires SystemInv(s) && Honest(s) && Legal(s, run)
    ensures Honest(Exec(s, run))
    decreases |run|
  {
    hide SystemInv, Honest;
    if run != [] {
      KeepStep(s, run[0]);
      KeepHonest(s, run[0]);
      HonestRun(DoStep(s, run[0]), run[1..]);
    }
  }

  /** The client never closes a session with a protocol violation, in any run. */
  lemma {:induction false} ClientNeverAccuses(run: seq<Step>)
    requires Legal(Init(), run)
    ensures !Exec(Init(), run).client.accused
  {
    InitOk();
    InitHonest();
    HonestRun(Init(), run);
    hide SystemInv;
  }

  /** Server attaches take effect in dial order: nothing newer was made current before. */
  ghost predicate OrderlyStep(s: System, st: Step) {
    st == Local(Server, Commit) && s.server.writer.HelloGot? ==>
      AllInstalledBefore(s.server, s.server.writer.conn)
  }

  ghost predicate Orderly(s: System, run: seq<Step>)
    requires Legal(s, run)
    decreases |run|
  {
    run == [] || (OrderlyStep(s, run[0]) && Orderly(DoStep(s, run[0]), run[1..]))
  }

  lemma OnlyTwoAccuse(me: Node, peer: Node, a: Action)
    requires Enabled(me, peer, a) && !a.Process? && !a.Commit?
    ensures Apply(me, peer, a).accused == me.accused
  {
    hide Data, Carry;
  }

  lemma ServerStepAccuses(s: System, st: Step)
    requires SystemInv(s) && Honest(s) && CanStep(s, st) && OrderlyStep(s, st) && !s.server.accused
    ensures !DoStep(s, st).server.accused
  {
    hide SystemInv, Honest, Apply, Enabled, DoProcess, DoCommit;
    if st.Local? && st.x == Server {
      var me, peer := s.server, s.client;
      OneSide(s, Server);
      match st.a
      case Process =>
        assert me.reader.Holding? && Apply(me, peer, st.a) == DoProcess(me) by { ProcessIs(me, peer); }
        FramesAccepted(me, peer);
      case Commit =>
        assert me.writer.HelloGot? && Apply(me, peer, st.a) == DoCommit(me) by { CommitIs(me, peer); }
        if me.e.cancelled {
          CancelledCommit(me);
        } else {
          ServerNotRefused(s);
          CommitRefusedIff(me, peer);
        }
      case _ => OnlyTwoAccuse(me, peer, st.a);
    }
  }

  lemma CancelledCommit(me: Node)
    requires me.writer.HelloGot? && me.e.cancelled
    ensures DoCommit(me) == me.(writer := Idle)
  {
  }

  lemma {:induction false} OrderlyRun(s: System, run: seq<Step>)
    requires SystemInv(s) && Honest(s) && Legal(s, run) && Orderly(s, run) && !s.server.accused
    ensures !Exec(s, run).server.accused
    decreases |run|
  {
    hide SystemInv, Honest, OrderlyStep;
    if run != [] {
      ServerStepAccuses(s, run[0]);
      KeepStep(s, run[0]);
      KeepHonest(s, run[0]);
      OrderlyRun(DoStep(s, run[0]), run[1..]);
    }
  }

  /** When server attaches take effect in dial order, the server never accuses the client either. */
  lemma {:induction false} ServerNeverAccusesInOrder(run: seq<Step>)
    requires Legal(Init(), run) && Orderly(Init(), run)
    ensures !Exec(Init(), run).server.accused
  {
    InitOk();
    InitHonest();
    OrderlyRun(Init(), run);
    hide SystemInv, Orderly;
  }
}
