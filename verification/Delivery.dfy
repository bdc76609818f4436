/**
 The promises of the byte stream, for every run: any interleaving of writes,
 reads, heartbeats, drops, half-open connections, one-sided failed handshakes,
 late attaches and closes.
 */
module Delivery {
  import opened Bytes
  import opened Endpoints
  import opened Protocol
  import opened Invariant
  import opened Preservation

  /** The invariant, seen from either side. */
  lemma {:induction false} BothWays(run: seq<Step>, x: Side)
    requires Legal(Init(), run)
    ensures var s := Exec(Init(), run); Inv(Get(s, x), Get(s, Other(x)))
  {
    Reachable(run);
    hide Half;
  }

  /**
   Exactly-once, in-order delivery: what Read has returned, followed by what it
   holds, is the first `recvSeq` bytes the peer accepted in Write.
   */
  lemma {:induction false} ExactlyOnce(run: seq<Step>, x: Side)
    requires Legal(Init(), run)
    ensures var s := Exec(Init(), run);
      var me, peer := Get(s, x), Get(s, Other(x));
      && me.e.recvSeq <= |Flat(peer.segs)| == peer.e.sendSeq
      && me.returned + me.e.pending == Flat(peer.segs)[..me.e.recvSeq]
  {
    BothWays(run, x);
    var s := Exec(Init(), run);
    var me, peer := Get(s, x), Get(s, Other(x));
    PrefixBytes(peer.segs, |me.delivered|);
    assert me.delivered == peer.segs[..|me.delivered|];
    FlatLength(me.delivered);
    FlatLength(peer.segs);
    hide Flat, Total, ConnOk;
  }

  lemma PrefixBytes(segs: seq<Segment>, k: nat)
    ensures k <= |segs| ==> Flat(segs[..k]) <= Flat(segs)
  {
    if k <= |segs| {
      assert segs == segs[..k] + segs[k..];
      FlatAppend(segs[..k], segs[k..]);
    }
  }

  /**
   Nothing undelivered is forgotten: while open, the replay buffer is exactly
   the accepted bytes from `unackedAt` on, and that is no later than what the
   peer has received.
   */
  lemma {:induction false} NothingForgotten(run: seq<Step>, x: Side)
    requires Legal(Init(), run)
    ensures var s := Exec(Init(), run);
      var me, peer := Get(s, x), Get(s, Other(x));
      !me.e.closed ==>
        && me.e.unackedAt <= peer.e.recvSeq <= me.e.sendSeq == |Flat(me.segs)|
        && Flat(me.e.unacked) == Flat(me.segs)[me.e.unackedAt..]
  {
    BothWays(run, x);
    ExactlyOnce(run, Other(x));
    var s := Exec(Init(), run);
    var me, peer := Get(s, x), Get(s, Other(x));
    if !me.e.closed {
      var d := |me.segs| - |me.e.unacked|;
      assert me.e.unacked == me.segs[d..];
      assert me.segs == me.segs[..d] + me.segs[d..];
      FlatAppend(me.segs[..d], me.segs[d..]);
      FlatLength(me.segs[..d]);
      hide Flat, Total, ConnOk;
    }
  }

  /** Every ack ever put on any connection is at most what its issuer has received, hence what the peer has sent. */
  lemma {:induction false} AcksAreHonest(run: seq<Step>, x: Side, c: ConnId, i: nat)
    requires Legal(Init(), run)
    ensures var s := Exec(Init(), run);
      var me, peer := Get(s, x), Get(s, Other(x));
      c < |me.out| && i < |me.out[c].log| ==>
        me.out[c].log[i].ack <= me.e.recvSeq <= peer.e.sendSeq
  {
    BothWays(run, x);
    ExactlyOnce(run, x);
    var s := Exec(Init(), run);
    if c < |Get(s, x).out| {
      AcksBelow(Get(s, x), Get(s, Other(x)), c);
    }
  }

  /**
   Contiguity: the non-empty payloads put on any connection are consecutive
   whole segments of the sender's history, starting at the position the receiver
   held when it began its handshake on that connection (0 on the first), and
   the receiver of the current connection stands exactly behind what it processed.
   */
  lemma {:induction false} Contiguity(run: seq<Step>, x: Side, c: ConnId)
    requires Legal(Init(), run)
    ensures var s := Exec(Init(), run);
      var me, peer := Get(s, x), Get(s, Other(x));
      c < |me.out| ==>
        var data := Data(me.out[c].log);
        && c < |peer.mark| && c < |peer.got|
        && peer.mark[c] + |data| <= |me.segs|
        && data == me.segs[peer.mark[c]..peer.mark[c] + |data|]
        && (peer.e.ws == Some(c) ==>
             && 0 <= Processed(peer, c) <= |me.out[c].log|
             && |peer.delivered| == peer.mark[c] + |Data(me.out[c].log[..Processed(peer, c)])|)
  {
    BothWays(run, x);
    var s := Exec(Init(), run);
    var me, peer := Get(s, x), Get(s, Other(x));
    hide Legal, Exec, Inv, Data, Processed;
    if c < |me.out| {
      Consecutive(me, peer, c);
    }
  }

  lemma Consecutive(me: Node, peer: Node, c: ConnId)
    requires Inv(me, peer) && c < |me.out|
    ensures c < |peer.mark| && c < |peer.got|
    ensures var data := Data(me.out[c].log);
      && peer.mark[c] + |data| <= |me.segs|
      && data == me.segs[peer.mark[c]..peer.mark[c] + |data|]
    ensures peer.e.ws == Some(c) ==>
      && 0 <= Processed(peer, c) <= |me.out[c].log|
      && |peer.delivered| == peer.mark[c] + |Data(me.out[c].log[..Processed(peer, c)])|
  {
    assert ConnOk(me, peer, c);
    hide Data, Total, Flat, BufferOk, DeliveryOk, WriterOk, ReaderOk;
    RunAtSlice(Data(me.out[c].log), me.segs, peer.mark[c]);
  }

  /**
   Replay snapshot: on an uncut connection the frames sent since commit followed
   by the rest of the replay (or of the write in flight) are exactly the
   segments from the announced position to the end of the history, so replay is
   complete, in order, and every later Write comes behind it, however much the
   reader trims the buffer in between.
   */
  lemma {:induction false} ReplayThenWrites(run: seq<Step>, x: Side, c: ConnId)
    requires Legal(Init(), run)
    ensures var s := Exec(Init(), run);
      var me, peer := Get(s, x), Get(s, Other(x));
      me.e.ws == Some(c) ==>
        && c < |me.out| && c < |peer.mark| && peer.mark[c] <= |me.segs|
        && (!me.out[c].cut ==> Data(me.out[c].log) + Waiting(me, c) == me.segs[peer.mark[c]..])
  {
    BothWays(run, x);
    var s := Exec(Init(), run);
    var me, peer := Get(s, x), Get(s, Other(x));
    hide Legal, Exec, Get, Other, Data, Waiting, Inv;
    if me.e.ws == Some(c) {
      CurrentStream(me, peer, c);
    }
  }

  lemma CurrentStream(me: Node, peer: Node, c: ConnId)
    requires Inv(me, peer) && me.e.ws == Some(c)
    ensures c < |me.out| && c < |peer.mark| && peer.mark[c] <= |me.segs|
    ensures !me.out[c].cut ==> Data(me.out[c].log) + Waiting(me, c) == me.segs[peer.mark[c]..]
  {
    assert ConnOk(me, peer, c);
    assert RunAt(Waiting(me, c), me.segs, |me.segs| - |Waiting(me, c)|) by { WaitingIsTail(me, peer, c); }
    hide Data, Total, Flat, Waiting, NodesOk, HelloOk, PositionOk, AcksOk;
    if !me.out[c].cut {
      RunAtSlice(Data(me.out[c].log), me.segs, peer.mark[c]);
      RunAtSlice(Waiting(me, c), me.segs, |me.segs| - |Waiting(me, c)|);
    }
  }

  lemma WaitingIsTail(me: Node, peer: Node, c: ConnId)
    requires Inv(me, peer)
    ensures RunAt(Waiting(me, c), me.segs, |me.segs| - |Waiting(me, c)|)
  {
    EmptyRun(me.segs, |me.segs|);
    hide Data, Total, Flat, ConnOk, RunAt;
  }

  /**
   Ack exactness: acks on one connection never decrease and fall on boundaries of
   the peer's writes, so that on the current connection `unackedAt` equals the
   last ack processed (the hello's included), although only whole segments are dropped.
   */
  lemma {:induction false} AckExactness(run: seq<Step>, x: Side, c: ConnId)
    requires Legal(Init(), run)
    ensures var s := Exec(Init(), run);
      var me, peer := Get(s, x), Get(s, Other(x));
      c < |me.out| ==>
        && (forall i | 0 <= i < |me.out[c].log| :: Boundary(peer.segs, me.out[c].log[i].ack))
        && (forall i, j | 0 <= i < j < |me.out[c].log| :: me.out[c].log[i].ack <= me.out[c].log[j].ack)
        && (peer.e.ws == Some(c) ==>
             && c < |peer.got| && 0 <= Processed(peer, c) <= |me.out[c].log|
             && peer.e.unackedAt == LastAck(me.out[c].log[..Processed(peer, c)]))
  {
    BothWays(run, x);
    var s := Exec(Init(), run);
    var me, peer := Get(s, x), Get(s, Other(x));
    if c < |me.out| {
      assert ConnOk(me, peer, c);
      assert RunAt(me.delivered, peer.segs, 0);
      RunAtSlice(me.delivered, peer.segs, 0);
      hide Data, Total, Flat, Boundary, NodesOk;
      forall i | 0 <= i < |me.out[c].log| ensures Boundary(peer.segs, me.out[c].log[i].ack) {
        BoundaryExtends(me.delivered, peer.segs, me.out[c].log[i].ack);
      }
    }
  }

  /**
   Frozen receive position: from the second detach until commit or failure there
   is no current connection and the receive position is the one in the hello,
   whatever other attaches or an old reader do meanwhile.
   */
  lemma {:induction false} FrozenPosition(run: seq<Step>, x: Side)
    requires Legal(Init(), run)
    ensures var me := Get(Exec(Init(), run), x);
      me.writer.Shaking() ==>
        && me.e.ws == None
        && me.e.recvSeq == me.writer.myAck
        && me.writer.conn < |me.out|
        && (forall i | 0 <= i < |me.out[me.writer.conn].log| ::
              me.out[me.writer.conn].log[i] == Frame(me.writer.myAck, []))
  {
    BothWays(run, x);
    var s := Exec(Init(), run);
    var me, peer := Get(s, x), Get(s, Other(x));
    if me.writer.Shaking() {
      var c := me.writer.conn;
      assert ConnOk(me, peer, c);
      assert me.delivered[..|me.delivered|] == me.delivered;
      hide Data, Total, Flat, Boundary, RunAt;
    }
  }

  /** A handshake is begun once per connection, and what the reader accepted stays accepted. */
  ghost predicate Continues(n: Node, n': Node, c: ConnId) {
    && c in n'.begun && c < |n.mark| && c < |n'.mark| && n'.mark[c] == n.mark[c]
    && n.delivered <= n'.delivered
  }

  lemma ContinuesLocal(me: Node, peer: Node, a: Action, c: ConnId)
    requires Enabled(me, peer, a) && c in me.begun && c < |me.mark|
    ensures Continues(me, Apply(me, peer, a), c)
  {
    hide Trim, Data, Carry, Install, AckLocked;
  }

  lemma ContinuesStep(s: System, st: Step, x: Side, c: ConnId)
    requires CanStep(s, st) && c in Get(s, x).begun && c < |Get(s, x).mark|
    ensures Continues(Get(s, x), Get(DoStep(s, st), x), c)
  {
    hide Enabled, Apply;
    if st.Local? && st.x == x {
      ContinuesLocal(Get(s, x), Get(s, Other(x)), st.a, c);
    }
  }

  lemma {:induction false} ContinuesRun(s: System, run: seq<Step>, x: Side, c: ConnId)
    requires Legal(s, run) && c in Get(s, x).begun && c < |Get(s, x).mark|
    ensures Continues(Get(s, x), Get(Exec(s, run), x), c)
    decreases |run|
  {
    if run != [] {
      ContinuesStep(s, run[0], x, c);
      ContinuesRun(DoStep(s, run[0]), run[1..], x, c);
    }
  }

  /**
   The same across time: as long as the handshake on `c` goes on, whatever the
   other goroutines do, the receive position and the announced value do not move.
   */
  lemma {:induction false} FrozenThroughout(run: seq<Step>, more: seq<Step>, x: Side)
    requires Legal(Init(), run) && Legal(Exec(Init(), run), more)
    ensures var n, n' := Get(Exec(Init(), run), x), Get(Exec(Exec(Init(), run), more), x);
      n.writer.Shaking() && n'.writer.Shaking() && n.writer.conn == n'.writer.conn ==>
        n'.e.recvSeq == n.e.recvSeq == n.writer.myAck == n'.writer.myAck && n'.delivered == n.delivered
  {
    var s := Exec(Init(), run);
    var t := Exec(s, more);
    var n, n' := Get(s, x), Get(t, x);
    if n.writer.Shaking() && n'.writer.Shaking() && n.writer.conn == n'.writer.conn {
      Concat(Init(), run, more);
      FrozenPosition(run, x);
      FrozenPosition(run + more, x);
      ShakingMark(run, x);
      ShakingMark(run + more, x);
      ContinuesRun(s, more, x, n.writer.conn);
      hide Total, Legal, Exec, Get;
      assert n.delivered <= n'.delivered && |n'.delivered| == |n.delivered|;
      assert n'.delivered == n.delivered;
    }
  }

  lemma {:induction false} ShakingMark(run: seq<Step>, x: Side)
    requires Legal(Init(), run) && Get(Exec(Init(), run), x).writer.Shaking()
    ensures var n := Get(Exec(Init(), run), x); var c := n.writer.conn;
      c in n.begun && c < |n.mark| && n.mark[c] == |n.delivered| && n.e.recvSeq == Total(n.delivered)
  {
    BothWays(run, x);
    var s := Exec(Init(), run);
    hide Legal, Exec, Inv;
    MarkOf(Get(s, x), Get(s, Other(x)));
  }

  lemma MarkOf(me: Node, peer: Node)
    requires Inv(me, peer) && me.writer.Shaking()
    ensures var c := me.writer.conn;
      c in me.begun && c < |me.mark| && me.mark[c] == |me.delivered| && me.e.recvSeq == Total(me.delivered)
  {
    hide ConnOk, BufferOk, ReaderOk, Total, Flat, RunAt;
  }

  /**
   Arithmetic stays in 64 bits: as long as both sides wrote less than 2^64 bytes,
   every counter and every sum and difference the code forms is in range.
   */
  lemma {:induction false} NoWrapAround(run: seq<Step>, x: Side)
    requires Legal(Init(), run)
    requires var s := Exec(Init(), run);
      s.client.e.sendSeq < 0x1_0000_0000_0000_0000 && s.server.e.sendSeq < 0x1_0000_0000_0000_0000
    ensures var s := Exec(Init(), run);
      var me := Get(s, x);
      && me.e.ackSent <= me.e.recvSeq < 0x1_0000_0000_0000_0000
      && (!me.e.closed && me.e.unacked != [] ==>
           me.e.unackedAt + |me.e.unacked[0]| <= me.e.sendSeq < 0x1_0000_0000_0000_0000)
      && (!me.e.closed ==>
           forall k | 0 <= k <= |me.e.unacked| ::
             me.e.unackedAt + Total(me.e.unacked[..k]) <= me.e.sendSeq)
      && (me.reader.Holding? && me.e.ws == Some(me.reader.conn) ==>
           me.e.recvSeq + |me.reader.frame.payload| < 0x1_0000_0000_0000_0000)
  {
    BothWays(run, x);
    ExactlyOnce(run, x);
    NothingForgotten(run, x);
    var s := Exec(Init(), run);
    var me, peer := Get(s, x), Get(s, Other(x));
    if !me.e.closed && me.e.unacked != [] {
      assert |Flat(me.e.unacked)| >= |me.e.unacked[0]|;
    }
    if !me.e.closed {
      FlatLength(me.e.unacked);
      forall k | 0 <= k <= |me.e.unacked| ensures Total(me.e.unacked[..k]) <= Total(me.e.unacked) {
        TakeMonotone(me.e.unacked, k, |me.e.unacked|);
      }
    }
    if me.reader.Holding? && me.e.ws == Some(me.reader.conn) {
      HoldingFacts(me, peer);
      NextSegment(peer, me);
      NextFits(me, peer, me.reader.frame.payload);
    }
    hide Flat, Total, ConnOk;
  }

  lemma NextFits(me: Node, peer: Node, p: Segment)
    requires RunAt(me.delivered + Solid(p), peer.segs, 0)
    requires me.e.recvSeq == Total(me.delivered) && peer.e.sendSeq == Total(peer.segs)
    ensures me.e.recvSeq + |p| <= peer.e.sendSeq
  {
    var more := me.delivered + Solid(p);
    RunAtSlice(more, peer.segs, 0);
    SplitTotal(peer.segs, |more|);
    assert peer.segs[..|more|] == more;
    TotalAppend(me.delivered, Solid(p));
  }

  /** Once the critical section of Close has run, no continuation changes that state again. */
  ghost predicate Dead(n: Node) {
    n.e.closed && n.e.cancelled && n.e.ws == None && n.e.unacked == []
  }

  lemma DeadLocal(me: Node, peer: Node, a: Action)
    requires Enabled(me, peer, a) && Dead(me)
    ensures var n := Apply(me, peer, a);
      Dead(n) && n.segs == me.segs && n.e.sendSeq == me.e.sendSeq && n.e.recvSeq == me.e.recvSeq
  {
    hide Trim, Data, Carry;
  }

  lemma DeadStep(s: System, st: Step, x: Side)
    requires CanStep(s, st) && Dead(Get(s, x))
    ensures var n := Get(DoStep(s, st), x);
      Dead(n) && n.segs == Get(s, x).segs && n.e.sendSeq == Get(s, x).e.sendSeq &&
      n.e.recvSeq == Get(s, x).e.recvSeq
  {
    hide Apply, Enabled;
    if st.Local? && st.x == x {
      DeadLocal(Get(s, x), Get(s, Other(x)), st.a);
    } else {
      Bystander(s, st, x);
    }
  }

  lemma {:induction false} CloseIsTerminal(s: System, run: seq<Step>, x: Side)
    requires Legal(s, run) && Dead(Get(s, x))
    ensures var n := Get(Exec(s, run), x);
      Dead(n) && n.segs == Get(s, x).segs && n.e.sendSeq == Get(s, x).e.sendSeq &&
      n.e.recvSeq == Get(s, x).e.recvSeq
    decreases |run|
  {
    if run != [] {
      DeadStep(s, run[0], x);
      CloseIsTerminal(DoStep(s, run[0]), run[1..], x);
    }
  }

  /** A closed endpoint of any run is dead, so the two lemmas above apply to it. */
  lemma {:induction false} ClosedIsDead(run: seq<Step>, x: Side)
    requires Legal(Init(), run) && Get(Exec(Init(), run), x).e.closed
    ensures Dead(Get(Exec(Init(), run), x))
  {
    BothWays(run, x);
  }

  /** Close can always be carried through, and leaves a dead endpoint. */
  lemma CloseWorks(s: System, x: Side)
    ensures var run := [Local(x, Cancel), Local(x, CloseCritical)];
      Legal(s, run) && Dead(Get(Exec(s, run), x))
  {
    var run := [Local(x, Cancel), Local(x, CloseCritical)];
    var s1 := DoStep(s, run[0]);
    var s2 := DoStep(s1, run[1]);
    assert run[1..] == [run[1]] && run[1..][1..] == [];
    assert Legal(s2, []) && Exec(s2, []) == s2;
    assert Legal(s1, run[1..]) && Exec(s1, run[1..]) == s2;
  }

  /** What a cancelled endpoint can still do: let go of its connection and trim its buffer, but not accept data or join a connection. */
  ghost predicate Closing(n: Node, n': Node) {
    && n'.e.cancelled && n'.segs == n.segs && n'.installed == n.installed
    && (n'.e.ws == n.e.ws || n'.e.ws == None)
    && (n.e.closed ==> n'.e.closed)
  }

  lemma ClosingLocal(me: Node, peer: Node, a: Action)
    requires Enabled(me, peer, a) && me.e.cancelled
    ensures Closing(me, Apply(me, peer, a))
  {
    hide Trim, Data, Carry;
  }

  lemma ClosingBystander(s: System, st: Step, x: Side)
    requires CanStep(s, st) && !(st.Local? && st.x == x) && Get(s, x).e.cancelled
    ensures Closing(Get(s, x), Get(DoStep(s, st), x))
  {
    hide Apply, Enabled;
  }

  /**
   From cancellation on, even before Close has run, no Write is accepted and no
   attach makes a connection current.
   */
  lemma {:induction false} CancelIsFinal(s: System, run: seq<Step>, x: Side)
    requires Legal(s, run) && Get(s, x).e.cancelled
    ensures Closing(Get(s, x), Get(Exec(s, run), x))
    decreases |run|
  {
    hide Apply, Enabled;
    if run != [] {
      if run[0].Local? && run[0].x == x {
        ClosingLocal(Get(s, x), Get(s, Other(x)), run[0].a);
      } else {
        ClosingBystander(s, run[0], x);
      }
      CancelIsFinal(DoStep(s, run[0]), run[1..], x);
    }
  }
}
