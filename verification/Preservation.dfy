/** Every action of every goroutine, and of the adversary, keeps the invariant. */
module Preservation {
  import opened Bytes
  import opened Endpoints
  import opened Protocol
  import opened Invariant

  lemma DataSnoc(log: seq<Frame>, f: Frame)
    ensures Data(log + [f]) == Data(log) + Solid(f.payload)
  {
    assert (log + [f])[..|log|] == log;
  }

  lemma {:induction false} DataTake(log: seq<Frame>, k: nat)
    requires k <= |log|
    ensures Data(log[..k]) <= Data(log)
    decreases |log|
  {
    if k == |log| {
      assert log[..k] == log;
    } else {
      DataTake(log[..|log| - 1], k);
      assert log[..|log| - 1][..k] == log[..k];
    }
  }

  lemma DataStep(log: seq<Frame>, k: nat)
    requires k < |log|
    ensures Data(log[..k + 1]) == Data(log[..k]) + Solid(log[k].payload)
  {
    assert log[..k + 1] == log[..k] + [log[k]];
    DataSnoc(log[..k], log[k]);
  }


  /** What ConnOk(s, r, c) depends on. */
  lemma Unaffected(s: Node, r: Node, s': Node, r': Node, c: ConnId)
    requires Shapes(s, r) && Shapes(r, s) && Shapes(s', r') && Shapes(r', s')
    requires c < |s.out| <= |s'.out| && ConnOk(s, r, c)
    requires s'.out[c] == s.out[c] && (r.out[c].log != [] ==> r'.out[c].log != [])
    requires s'.got[c] == s.got[c] && s'.mark[c] == s.mark[c] && s'.delivered == s.delivered
    requires (c in s'.begun <==> c in s.begun) && (c in s'.installed <==> c in s.installed)
    requires r'.got[c] == r.got[c] && r'.mark[c] == r.mark[c]
    requires s'.segs == s.segs
    requires !s'.out[c].cut && OnDuty(s', c) ==> OnDuty(s, c) && Waiting(s', c) == Waiting(s, c)
    requires r'.e.ws == Some(c) ==>
      r.e.ws == Some(c) && r'.delivered == r.delivered && r'.e.unackedAt == r.e.unackedAt &&
      Processed(r', c) == Processed(r, c)
    ensures ConnOk(s', r', c)
  {
  }

  /** No ack on any connection is beyond the issuer's receive position. */
  lemma AcksBelow(me: Node, peer: Node, c: ConnId)
    requires Inv(me, peer) && c < |me.out|
    ensures forall i | 0 <= i < |me.out[c].log| :: me.out[c].log[i].ack <= me.e.recvSeq
  {
    assert ConnOk(me, peer, c);
    forall i | 0 <= i < |me.out[c].log| ensures me.out[c].log[i].ack <= Total(me.delivered) {
      BoundaryBound(me.delivered, me.out[c].log[i].ack);
    }
  }

  lemma KeepDrop(me: Node, peer: Node)
    requires Inv(me, peer)
    ensures Inv(me.(e := Detach(me.e)), peer)
  {
    hide ConnOk, Total, Flat, Data, RunAt, AllNonEmpty, Boundary, AcksOk;
    var me' := me.(e := Detach(me.e));
    forall c | 0 <= c < |me.out| ensures ConnOk(me', peer, c) && ConnOk(peer, me', c) {
      Unaffected(me, peer, me', peer, c);
      Unaffected(peer, me, peer, me', c);
    }
  }

  lemma KeepCancel(me: Node, peer: Node)
    requires Inv(me, peer)
    ensures Inv(me.(e := me.e.(cancelled := true)), peer)
  {
    hide ConnOk, Total, Flat, Data, RunAt, AllNonEmpty, Boundary, AcksOk;
    var me' := me.(e := me.e.(cancelled := true));
    forall c | 0 <= c < |me.out| ensures ConnOk(me', peer, c) && ConnOk(peer, me', c) {
      Unaffected(me, peer, me', peer, c);
      Unaffected(peer, me, peer, me', c);
    }
  }

  lemma KeepClose(me: Node, peer: Node)
    requires Inv(me, peer) && me.e.cancelled
    ensures Inv(me.(e := CloseNow(me.e)), peer)
  {
    hide ConnOk, Total, Flat, Data, RunAt, AllNonEmpty, Boundary, AcksOk;
    var me' := me.(e := CloseNow(me.e));
    forall c | 0 <= c < |me.out| ensures ConnOk(me', peer, c) && ConnOk(peer, me', c) {
      Unaffected(me, peer, me', peer, c);
      Unaffected(peer, me, peer, me', c);
    }
  }

  lemma KeepShut(me: Node, peer: Node, conn: ConnId)
    requires Inv(me, peer) && conn in me.begun
    ensures Inv(me.(shut := me.shut + {conn}), peer)
  {
    hide ConnOk, Total, Flat, Data, RunAt, AllNonEmpty, Boundary, AcksOk;
    var me' := me.(shut := me.shut + {conn});
    forall c | 0 <= c < |me.out| ensures ConnOk(me', peer, c) && ConnOk(peer, me', c) {
      Unaffected(me, peer, me', peer, c);
      Unaffected(peer, me, peer, me', c);
    }
  }

  lemma KeepResting(me: Node, peer: Node)
    requires Inv(me, peer) && (me.reader.Holding? ==> me.e.ws != Some(me.reader.conn))
    ensures Inv(me.(reader := Resting), peer)
  {
    hide ConnOk, Total, Flat, Data, RunAt, AllNonEmpty, Boundary, AcksOk;
    var me' := me.(reader := Resting);
    forall c | 0 <= c < |me.out| ensures ConnOk(me', peer, c) && ConnOk(peer, me', c) {
      Unaffected(me, peer, me', peer, c);
      Unaffected(peer, me, peer, me', c);
    }
  }

  /** Who waits for writeMu, who holds it, and whether the reader is busy with an ack. */
  lemma KeepNotes(me: Node, peer: Node, me': Node)
    requires Inv(me, peer) && me'.beats <= me.installed
    requires me' == me.(beats := me'.beats, flusher := me'.flusher, reader := me'.reader)
    requires me'.reader == me.reader || (!me.reader.Holding? && me'.reader.Resting?)
          || (me.reader.Resting? && me'.reader.Owing? && me'.reader.conn in me.installed)
    ensures Inv(me', peer)
  {
    hide ConnOk, Total, Flat, Data, RunAt, AllNonEmpty, Boundary, AcksOk;
    forall c | 0 <= c < |me.out| ensures ConnOk(me', peer, c) && ConnOk(peer, me', c) {
      Unaffected(me, peer, me', peer, c);
      Unaffected(peer, me, peer, me', c);
    }
  }

  lemma BeatsInstalled(me: Node, peer: Node)
    requires Inv(me, peer)
    ensures me.beats <= me.installed && (me.reader.Owing? ==> me.reader.conn in me.installed)
  {
    hide ConnOk, BufferOk, DeliveryOk, WriterOk;
  }

  lemma KeepRelease(me: Node, peer: Node)
    requires Inv(me.(writer := Idle), peer)
    ensures Inv(Release(me), peer)
  {
    hide Inv;
    BeatsInstalled(me.(writer := Idle), peer);
    KeepNotes(me.(writer := Idle), peer, Release(me));
  }

  lemma KeepReading(me: Node, peer: Node, conn: ConnId)
    requires Inv(me, peer) && me.reader.Resting? && me.e.pending == [] && conn in me.installed
    ensures Inv(me.(reader := Reading(conn)), peer)
  {
    hide ConnOk, Total, Flat, Data, RunAt, AllNonEmpty, Boundary, AcksOk;
    var me' := me.(reader := Reading(conn));
    forall c | 0 <= c < |me.out| ensures ConnOk(me', peer, c) && ConnOk(peer, me', c) {
      Unaffected(me, peer, me', peer, c);
      Unaffected(peer, me, peer, me', c);
    }
  }

  lemma KeepHandOut(me: Node, peer: Node, n: nat)
    requires Inv(me, peer) && me.reader.Resting? && n <= |me.e.pending|
    ensures Inv(me.(e := HandOut(me.e, n), returned := me.returned + me.e.pending[..n]), peer)
  {
    hide ConnOk, Total, Flat, Data, RunAt, AllNonEmpty, Boundary, AcksOk;
    var me' := me.(e := HandOut(me.e, n), returned := me.returned + me.e.pending[..n]);
    forall c | 0 <= c < |me.out| ensures ConnOk(me', peer, c) && ConnOk(peer, me', c) {
      Unaffected(me, peer, me', peer, c);
      Unaffected(peer, me, peer, me', c);
    }
  }

  lemma KeepIdle(me: Node, peer: Node)
    requires Inv(me, peer) && (me.writer.Framing() && me.writer.todo != [] ==> me.out[me.writer.conn].cut)
    ensures Inv(me.(writer := Idle), peer)
  {
    hide ConnOk, Total, Flat, Data, RunAt, AllNonEmpty, Boundary, AcksOk;
    var me' := me.(writer := Idle);
    forall c | 0 <= c < |me.out| ensures ConnOk(me', peer, c) && ConnOk(peer, me', c) {
      Unaffected(me, peer, me', peer, c);
      Unaffected(peer, me, peer, me', c);
    }
  }

  /** Only the writer differs, and it has the same payloads to put on the same connection. */
  ghost predicate SameTask(me: Node, me': Node) {
    && me' == me.(writer := me'.writer)
    && (forall c :: Waiting(me', c) == Waiting(me, c))
  }

  lemma TaskConn(me: Node, peer: Node, me': Node, c: ConnId)
    requires Shapes(me, peer) && Shapes(peer, me) && Shapes(me', peer) && Shapes(peer, me')
    requires SameTask(me, me') && c < |me.out| && ConnOk(me, peer, c) && ConnOk(peer, me, c)
    ensures ConnOk(me', peer, c) && ConnOk(peer, me', c)
  {
    hide ConnOk;
    Unaffected(me, peer, me', peer, c);
    Unaffected(peer, me, peer, me', c);
  }

  lemma KeepTask(me: Node, peer: Node, me': Node)
    requires Inv(me, peer) && SameTask(me, me')
    requires NodesOk(me', peer) && NodesOk(peer, me')
    ensures Inv(me', peer)
  {
    assert |me'.out| == |me.out|;
    hide ConnOk, NodesOk, Shapes, SameTask;
    NodesShapes(me, peer);
    NodesShapes(me', peer);
    forall c | 0 <= c < |me.out| ensures ConnOk(me', peer, c) && ConnOk(peer, me', c) {
      TaskConn(me, peer, me', c);
    }
  }

  lemma WriterLocal(me: Node, peer: Node, me': Node)
    requires NodesOk(me, peer) && NodesOk(peer, me) && me' == me.(writer := me'.writer)
    requires WriterOk(me', peer)
    ensures NodesOk(me', peer) && NodesOk(peer, me')
  {
    hide Total, Flat, Data, RunAt, AllNonEmpty, Boundary, FramingOk;
    assert Shapes(me', peer) && Shapes(peer, me');
    assert BufferOk(me') && DeliveryOk(me', peer) && DeliveryOk(peer, me');
    hide BufferOk, DeliveryOk;
    assert ReaderOk(me', peer) && ReaderOk(peer, me');
    assert WriterOk(peer, me');
  }

  lemma KeepAckOnly(me: Node, peer: Node, conn: ConnId)
    requires Inv(me, peer) && me.writer.Idle? && conn in me.installed
    ensures Inv(me.(writer := Transmit(conn, [])), peer)
  {
    var me' := me.(writer := Transmit(conn, []));
    EmptyRun(me.segs, |me.segs|);
    hide ConnOk, BufferOk, DeliveryOk, ReaderOk, RunAt;
    WriterLocal(me, peer, me');
    KeepTask(me, peer, me');
  }

  predicate OfFlusher(a: Action) {
    a.SeeBehind? || a.StartAck? || a.TryAck?
  }

  lemma KeepFlusher(me: Node, peer: Node, a: Action)
    requires Inv(me, peer) && Enabled(me, peer, a) && OfFlusher(a)
    ensures Inv(Apply(me, peer, a), peer)
  {
    CurrentInstalled(me, peer);
    BeatsInstalled(me, peer);
    hide Inv;
    var me' := Apply(me, peer, a);
    if a.StartAck? {
      KeepAckOnly(me, peer, a.conn);
    } else if a.TryAck? && me.writer.Idle? {
      KeepAckOnly(me, peer, me.reader.conn);
    }
    KeepNotes(me.(writer := me'.writer), peer, me');
  }

  lemma EmptyRun(segs: seq<Segment>, from: nat)
    requires from <= |segs|
    ensures RunAt([], segs, from)
  {
  }

  lemma KeepLoad(me: Node, peer: Node)
    requires Inv(me, peer) && me.writer.Transmit?
    ensures Inv(me.(writer := Loaded(me.writer.conn, me.writer.todo, me.e.recvSeq)), peer)
  {
    var me' := me.(writer := Loaded(me.writer.conn, me.writer.todo, me.e.recvSeq));
    LoadWriter(me, peer, me');
    hide ConnOk, NodesOk, WriterOk;
    WriterLocal(me, peer, me');
    KeepTask(me, peer, me');
  }

  lemma LoadWriter(me: Node, peer: Node, me': Node)
    requires Inv(me, peer) && me.writer.Transmit?
    requires me' == me.(writer := Loaded(me.writer.conn, me.writer.todo, me.e.recvSeq))
    ensures WriterOk(me', peer)
  {
    hide ConnOk, BufferOk, ReaderOk, RunAt, Flat, Total, Boundary;
    BoundaryEnd(me.delivered);
    AcksBelow(me, peer, me.writer.conn);
  }

  lemma KeepNoteAck(me: Node, peer: Node, w: Writer)
    requires Inv(me, peer) && me.writer.Sent?
    requires w == if me.writer.todo == [] then Idle else Transmit(me.writer.conn, me.writer.todo)
    ensures Inv(me.(e := NoteAck(me.e, me.writer.ack), writer := w), peer)
  {
    hide ConnOk, Total, Flat, Data, RunAt, AllNonEmpty, Boundary, AcksOk;
    var me' := me.(e := NoteAck(me.e, me.writer.ack), writer := w);
    forall c | 0 <= c < |me.out| ensures ConnOk(me', peer, c) && ConnOk(peer, me', c) {
      Unaffected(me, peer, me', peer, c);
      Unaffected(peer, me, peer, me', c);
    }
  }

  lemma KeepNoteSent(me: Node, peer: Node)
    requires Inv(me, peer) && me.writer.Sent?
    ensures Inv(DoNote(me), peer)
  {
    hide Inv;
    if me.writer.todo == [] {
      KeepNoteAck(me, peer, Idle);
      KeepRelease(me.(e := NoteAck(me.e, me.writer.ack)), peer);
    } else {
      KeepNoteAck(me, peer, Transmit(me.writer.conn, me.writer.todo));
    }
  }

  /** Only what `me` put on `d`, and its writer, differ. */
  ghost predicate OnlyPipe(me: Node, me': Node, d: ConnId) {
    && d < |me.out| && |me'.out| == |me.out|
    && me' == me.(out := me'.out, writer := me'.writer)
    && (forall c | 0 <= c < |me.out| && c != d :: me'.out[c] == me.out[c])
  }

  lemma OtherPipe(me: Node, peer: Node, me': Node, d: ConnId, c: ConnId)
    requires Shapes(me, peer) && Shapes(peer, me) && OnlyPipe(me, me', d)
    requires Shapes(me', peer) && Shapes(peer, me')
    requires c < |me.out| && c != d && ConnOk(me, peer, c) && ConnOk(peer, me, c)
    requires Waiting(me', c) == Waiting(me, c)
    ensures ConnOk(me', peer, c) && ConnOk(peer, me', c)
  {
    hide ConnOk;
    Unaffected(me, peer, me', peer, c);
    Unaffected(peer, me, peer, me', c);
  }

  lemma BackwardPipe(me: Node, peer: Node, me': Node, d: ConnId)
    requires Shapes(me, peer) && Shapes(peer, me) && OnlyPipe(me, me', d)
    requires Shapes(me', peer) && Shapes(peer, me')
    requires me.out[d].log != [] ==> me'.out[d].log != []
    requires ConnOk(peer, me, d)
    ensures ConnOk(peer, me', d)
  {
    hide ConnOk;
    Unaffected(peer, me, peer, me', d);
  }

  /** Away from `d` the writer has the same payloads to put. */
  ghost predicate SameElsewhere(me: Node, me': Node, d: ConnId) {
    forall c | c != d :: Waiting(me', c) == Waiting(me, c)
  }

  lemma SameElsewhereAt(me: Node, me': Node, d: ConnId, c: ConnId)
    requires SameElsewhere(me, me', d) && c != d
    ensures Waiting(me', c) == Waiting(me, c)
  {
  }

  lemma NodesShapes(me: Node, peer: Node)
    requires NodesOk(me, peer)
    ensures Shapes(me, peer) && Shapes(peer, me) && |me.out| == |peer.out|
  {
    hide BufferOk, DeliveryOk, WriterOk, ReaderOk;
  }

  lemma OnlyPipeSize(me: Node, me': Node, d: ConnId)
    requires OnlyPipe(me, me', d)
    ensures d < |me.out| == |me'.out|
  {
  }

  /** The invariant after a step that touches one pipe and the writer only. */
  lemma KeepPipe(me: Node, peer: Node, me': Node, d: ConnId)
    requires Inv(me, peer) && OnlyPipe(me, me', d) && SameElsewhere(me, me', d)
    requires NodesOk(me', peer) && NodesOk(peer, me')
    requires d < |me'.out| == |peer.out| && Shapes(me', peer) && Shapes(peer, me')
    requires ConnOk(me', peer, d) && ConnOk(peer, me', d)
    ensures Inv(me', peer)
  {
    hide ConnOk, NodesOk, Shapes, OnlyPipe, SameElsewhere;
    NodesShapes(me, peer);
    OnlyPipeSize(me, me', d);
    forall c | 0 <= c < |me'.out| ensures ConnOk(me', peer, c) && ConnOk(peer, me', c) {
      if c != d {
        SameElsewhereAt(me, me', d, c);
        OtherPipe(me, peer, me', d, c);
      }
    }
  }

  // ---------------------------------------------------------------- Write

  lemma GrowHistory(part: seq<Segment>, segs: seq<Segment>, data: Segment, from: int)
    requires RunAt(part, segs, from)
    ensures RunAt(part, segs + [data], from)
  {
  }

  lemma WriteConn(me: Node, peer: Node, me': Node, c: ConnId, data: Segment)
    requires Shapes(me, peer) && Shapes(peer, me) && Shapes(me', peer) && Shapes(peer, me')
    requires c < |me.out| && ConnOk(me, peer, c)
    requires me.writer.Idle? && data != []
    requires me' == me.(e := Append(me.e, data), segs := me.segs + [data],
                        writer := if me.e.ws.Some? then Transmit(me.e.ws.value, [data]) else Idle)
    ensures ConnOk(me', peer, c)
  {
    hide Total, Flat, Data, RunAt, AllNonEmpty, Boundary, AcksOk;
    GrowHistory(Data(me.out[c].log), me.segs, data, peer.mark[c]);
    assert HelloOk(me', peer, c) && PositionOk(me', peer, c);
    assert StreamOk(me', peer, c);
  }

  lemma WriteBuffer(me: Node, me': Node, data: Segment)
    requires BufferOk(me) && !me.e.cancelled && data != []
    requires me'.segs == me.segs + [data] && me'.e == Append(me.e, data)
    ensures BufferOk(me')
  {
    TotalSnoc(me.segs, data);
    assert me'.segs[..|me.segs| - |me.e.unacked|] == me.segs[..|me.segs| - |me.e.unacked|];
  }

  ghost predicate IsWritten(me: Node, me': Node, data: Segment) {
    && me.writer.Idle? && data != [] && !me.e.cancelled
    && me' == me.(e := Append(me.e, data), segs := me.segs + [data],
                  writer := if me.e.ws.Some? then Transmit(me.e.ws.value, [data]) else Idle)
  }

  lemma WriteLocal(me: Node, peer: Node, me': Node, data: Segment)
    requires NodesOk(me, peer) && NodesOk(peer, me) && IsWritten(me, me', data)
    ensures NodesOk(me', peer) && NodesOk(peer, me')
  {
    WriteBuffer(me, me', data);
    assert RunAt([data], me'.segs, |me'.segs| - 1);
    assert RunAt(peer.delivered, me'.segs, 0);
    hide Total, Flat, Data, RunAt, AllNonEmpty, Boundary, BufferOk;
    assert Shapes(me', peer) && Shapes(peer, me');
    assert DeliveryOk(me', peer) && DeliveryOk(peer, me') by { hide WriterOk, ReaderOk; OpenUnacked(me); }
    assert WriterOk(me', peer) && WriterOk(peer, me');
    assert ReaderOk(me', peer) && ReaderOk(peer, me');
  }

  lemma OpenUnacked(me: Node)
    requires BufferOk(me)
    ensures me.e.closed ==> me.e.cancelled
  {
  }

  lemma WriteBoth(me: Node, peer: Node, me': Node, c: ConnId, data: Segment)
    requires Shapes(me, peer) && Shapes(peer, me) && Shapes(me', peer) && Shapes(peer, me')
    requires IsWritten(me, me', data) && c < |me.out| && ConnOk(me, peer, c) && ConnOk(peer, me, c)
    ensures ConnOk(me', peer, c) && ConnOk(peer, me', c)
  {
    hide ConnOk;
    WriteConn(me, peer, me', c, data);
    Unaffected(peer, me, peer, me', c);
  }

  lemma KeepWrite(me: Node, peer: Node, me': Node, data: Segment)
    requires Inv(me, peer) && IsWritten(me, me', data)
    ensures Inv(me', peer)
  {
    assert |me'.out| == |me.out|;
    hide ConnOk, NodesOk, Shapes, IsWritten;
    WriteLocal(me, peer, me', data);
    NodesShapes(me, peer);
    NodesShapes(me', peer);
    forall c | 0 <= c < |me.out| ensures ConnOk(me', peer, c) && ConnOk(peer, me', c) {
      WriteBoth(me, peer, me', c, data);
    }
  }

  // ------------------------------------------------- messages put on the wire

  lemma PutAcks(log: seq<Frame>, f: Frame, delivered: seq<Segment>)
    requires AcksOk(log, delivered) && Boundary(delivered, f.ack)
    requires forall i | 0 <= i < |log| :: log[i].ack <= f.ack
    ensures AcksOk(log + [f], delivered)
  {
  }

  lemma RestRun(todo: seq<Segment>, segs: seq<Segment>)
    requires RunAt(todo, segs, |segs| - |todo|)
    ensures RunAt(Rest(todo), segs, |segs| - |Rest(todo)|)
  {
  }

  lemma PutRun(data: seq<Segment>, todo: seq<Segment>, segs: seq<Segment>, from: nat)
    requires RunAt(data, segs, from) && RunAt(todo, segs, |segs| - |todo|)
    requires todo != [] ==> from + |data| + |todo| == |segs|
    ensures RunAt(data + Solid(Next(todo)), segs, from)
  {
  }

  /** The message is lost, or the pipe was cut before. */
  lemma PutLost(me: Node, peer: Node, me': Node, c: ConnId)
    requires Shapes(me, peer) && Shapes(peer, me) && Shapes(me', peer) && Shapes(peer, me')
    requires c < |me.out| && ConnOk(me, peer, c)
    requires me' == me.(out := me.out[c := Pipe(me.out[c].log, true)], writer := me'.writer)
    ensures ConnOk(me', peer, c)
  {
    hide Total, Flat, Data, RunAt, AllNonEmpty, Boundary, AcksOk;
  }

  /** The message is put on the wire, whatever the writer is told. */
  ghost predicate IsArrived(me: Node, me': Node, cut: bool) {
    && me.writer.Loaded? && me.writer.conn < |me.out|
    && var Loaded(c, todo, ack) := me.writer;
    && !me.out[c].cut
    && me' == me.(out := me.out[c := Pipe(me.out[c].log + [Frame(ack, Next(todo))], cut)], writer := me'.writer)
    && (!cut ==> me'.writer == Sent(c, Rest(todo), ack))
  }

  lemma ArrivedStream(me: Node, peer: Node, me': Node, cut: bool)
    requires IsArrived(me, me', cut) && me.writer.conn < |peer.mark|
    requires FramingOk(me, me.writer.conn, me.writer.todo)
    requires me.writer.todo != [] ==> me.writer.todo[0] != []
    requires StreamOk(me, peer, me.writer.conn)
    ensures StreamOk(me', peer, me.writer.conn)
  {
    hide Data, RunAt;
    var c, todo := me.writer.conn, me.writer.todo;
    var log := me.out[c].log;
    var f := Frame(me.writer.ack, Next(todo));
    DataSnoc(log, f);
    assert todo != [] ==> peer.mark[c] + |Data(log)| + |todo| == |me.segs|;
    PutRun(Data(log), todo, me.segs, peer.mark[c]);
    assert |Solid(Next(todo))| == |todo| - |Rest(todo)|;
    assert |Data(log + [f])| == |Data(log)| + |todo| - |Rest(todo)|;
    if !cut {
      assert me'.out[c] == Pipe(log + [f], false);
      assert Waiting(me', c) == Rest(todo);
      assert OnDuty(me', c) ==> OnDuty(me, c);
    }
  }

  lemma ArrivedPosition(me: Node, peer: Node, me': Node, cut: bool)
    requires IsArrived(me, me', cut) && me.writer.conn < |peer.mark| && me.writer.conn < |peer.got|
    requires PositionOk(me, peer, me.writer.conn)
    ensures PositionOk(me', peer, me.writer.conn)
  {
    var Loaded(c, todo, ack) := me.writer;
    var log := me.out[c].log;
    if peer.e.ws == Some(c) {
      assert (log + [Frame(ack, Next(todo))])[..Processed(peer, c)] == log[..Processed(peer, c)];
    }
    hide Data;
  }

  lemma PutArrived(me: Node, peer: Node, me': Node, cut: bool)
    requires Shapes(me, peer) && Shapes(peer, me) && Shapes(me', peer) && Shapes(peer, me')
    requires IsArrived(me, me', cut) && ConnOk(me, peer, me.writer.conn)
    requires var Loaded(c, todo, ack) := me.writer;
      && FramingOk(me, c, todo)
      && AcksOk(me.out[c].log + [Frame(ack, Next(todo))], me.delivered)
      && (todo != [] ==> todo[0] != [])
    ensures ConnOk(me', peer, me.writer.conn)
  {
    hide Total, Flat, Data, RunAt, AllNonEmpty, Boundary, AcksOk, StreamOk, PositionOk;
    ArrivedStream(me, peer, me', cut);
    ArrivedPosition(me, peer, me', cut);
  }

  ghost predicate IsFramePut(me: Node, me': Node, p: Pipe) {
    && me.writer.Loaded?
    && var Loaded(c, todo, ack) := me.writer;
    && c < |me.out| && me.out[c].log <= p.log
    && me' == me.(out := me.out[c := p], writer := me'.writer)
    && (me'.writer == Sent(c, Rest(todo), ack) || me'.writer == Idle)
  }

  lemma PutWriter(me: Node, peer: Node, me': Node, p: Pipe)
    requires Shapes(me, peer) && Shapes(me', peer) && IsFramePut(me, me', p)
    requires WriterOk(me, peer) && me.writer.ack <= me.e.recvSeq
    ensures WriterOk(me', peer)
  {
    RestRun(me.writer.todo, me.segs);
  }

  lemma PutLocal(me: Node, peer: Node, me': Node, p: Pipe)
    requires NodesOk(me, peer) && NodesOk(peer, me) && IsFramePut(me, me', p)
    ensures NodesOk(me', peer) && NodesOk(peer, me')
    ensures AllNonEmpty(me.segs)
  {
    hide Total, Flat, Data, RunAt, AllNonEmpty, Boundary, AcksOk, FramingOk;
    BoundaryBound(me.delivered, me.writer.ack);
    assert Shapes(me', peer) && Shapes(peer, me');
    PutWriter(me, peer, me', p);
    assert BufferOk(me') && DeliveryOk(me', peer) && DeliveryOk(peer, me');
    hide BufferOk, DeliveryOk;
    assert ReaderOk(me', peer);
    assert WriterOk(peer, me') && ReaderOk(peer, me');
  }

  ghost predicate IsPut(me: Node, me': Node, fate: Fate) {
    && me.writer.Loaded? && me.writer.conn < |me.out|
    && var Loaded(c, todo, ack) := me.writer;
    && me' == me.(out := me.out[c := Carry(me.out[c], Frame(ack, Next(todo)), fate)],
                  writer := if Succeeds(fate) then Sent(c, Rest(todo), ack) else Idle)
  }

  lemma LoadedFacts(me: Node, peer: Node)
    requires Shapes(me, peer) && me.writer.Loaded? && WriterOk(me, peer) && AllNonEmpty(me.segs)
    ensures var Loaded(c, todo, ack) := me.writer;
      && c < |me.out| && FramingOk(me, c, todo) && Boundary(me.delivered, ack)
      && (forall i | 0 <= i < |me.out[c].log| :: me.out[c].log[i].ack <= ack)
      && (todo != [] ==> todo[0] != [])
  {
    var todo := me.writer.todo;
    hide Total;
    if todo != [] {
      assert todo[0] == me.segs[|me.segs| - |todo|];
    }
  }

  lemma PutConn(me: Node, peer: Node, me': Node, fate: Fate)
    requires Shapes(me, peer) && Shapes(peer, me) && Shapes(me', peer) && Shapes(peer, me')
    requires me.writer.Loaded? && WriterOk(me, peer) && ConnOk(me, peer, me.writer.conn)
    requires AllNonEmpty(me.segs) && IsPut(me, me', fate)
    ensures ConnOk(me', peer, me.writer.conn)
  {
    hide ConnOk, WriterOk, AllNonEmpty, AcksOk, RunAt, Boundary, FramingOk;
    LoadedFacts(me, peer);
    var Loaded(c, todo, ack) := me.writer;
    var p := me.out[c];
    if p.cut || fate.Vanishes? || fate.ErrorLost? {
      assert me'.out[c] == Pipe(p.log, true);
      PutLost(me, peer, me', c);
    } else {
      SeenAcks(me, peer, c);
      PutAcks(p.log, Frame(ack, Next(todo)), me.delivered);
      PutArrived(me, peer, me', fate.ErrorArrives?);
    }
  }

  lemma SeenAcks(me: Node, peer: Node, c: ConnId)
    requires Shapes(me, peer) && Shapes(peer, me) && c < |me.out| && ConnOk(me, peer, c)
    ensures AcksOk(me.out[c].log, me.delivered)
  {
    hide AcksOk, HelloOk, StreamOk, PositionOk;
  }

  lemma PutEverywhere(me: Node, peer: Node, me': Node, fate: Fate)
    requires Inv(me, peer) && IsPut(me, me', fate)
    ensures NodesOk(me', peer) && NodesOk(peer, me')
    ensures OnlyPipe(me, me', me.writer.conn)
    ensures ConnOk(me', peer, me.writer.conn)
    ensures me.out[me.writer.conn].log != [] ==> me'.out[me.writer.conn].log != []
  {
    hide ConnOk, BufferOk, DeliveryOk, WriterOk, ReaderOk, Total, Data, AllNonEmpty;
    PutLocal(me, peer, me', me'.out[me.writer.conn]);
    PutConn(me, peer, me', fate);
  }

  lemma PutElsewhere(me: Node, me': Node, fate: Fate)
    requires IsPut(me, me', fate)
    ensures SameElsewhere(me, me', me.writer.conn)
  {
    hide Carry;
  }

  lemma KeepPutFrame(me: Node, peer: Node, me': Node, d: ConnId, fate: Fate)
    requires Inv(me, peer) && IsPut(me, me', fate) && d == me.writer.conn
    ensures Inv(me', peer)
  {
    hide ConnOk, NodesOk, Shapes, OnlyPipe, IsPut, SameElsewhere, Inv;
    PutEverywhere(me, peer, me', fate);
    PutElsewhere(me, me', fate);
    BothNodes(me, peer);
    NodesShapes(me, peer);
    NodesShapes(me', peer);
    OnlyPipeSize(me, me', d);
    ConnAt(peer, me, d);
    BackwardPipe(me, peer, me', d);
    KeepPipe(me, peer, me', d);
  }

  lemma KeepPut(me: Node, peer: Node, fate: Fate)
    requires Inv(me, peer) && me.writer.Loaded? && me.writer.conn < |me.out|
    ensures Inv(DoPut(me, fate), peer)
  {
    hide Inv, Carry;
    var Loaded(c, todo, ack) := me.writer;
    var put := me.(out := me.out[c := Carry(me.out[c], Frame(ack, Next(todo)), fate)]);
    var me' := put.(writer := if Succeeds(fate) then Sent(c, Rest(todo), ack) else Idle);
    KeepPutFrame(me, peer, me', c, fate);
    if !Succeeds(fate) {
      KeepRelease(put, peer);
    }
  }

  lemma BothNodes(me: Node, peer: Node)
    requires Inv(me, peer)
    ensures NodesOk(me, peer) && NodesOk(peer, me)
  {
    hide NodesOk;
  }

  lemma ConnAt(me: Node, peer: Node, c: ConnId)
    requires Inv(peer, me) && c < |me.out| && Shapes(me, peer) && Shapes(peer, me)
    ensures ConnOk(me, peer, c)
  {
    hide ConnOk, Shapes;
  }

  ghost predicate IsHelloPut(me: Node, me': Node, p: Pipe) {
    && me.writer.HelloOut?
    && var HelloOut(c, myAck) := me.writer;
    && c < |me.out|
    && ((p.cut && p.log == []) || p.log == [Frame(myAck, [])])
    && me' == me.(out := me.out[c := p], writer := me'.writer)
    && (me'.writer == Idle || (me'.writer == HelloWait(c, myAck) && (p.cut || p.log != [])))
  }

  lemma HelloConn(me: Node, peer: Node, me': Node, p: Pipe)
    requires Shapes(me, peer) && Shapes(peer, me) && Shapes(me', peer) && Shapes(peer, me')
    requires IsHelloPut(me, me', p) && WriterOk(me, peer)
    requires ConnOk(me, peer, me.writer.conn) && ConnOk(peer, me, me.writer.conn)
    requires me.e.recvSeq == Total(me.delivered)
    ensures ConnOk(me', peer, me.writer.conn)
  {
    var HelloOut(c, myAck) := me.writer;
    assert AcksOk(p.log, me.delivered) by {
      BoundaryEnd(me.delivered);
    }
    assert me.delivered[..|me.delivered|] == me.delivered;
    assert Data(p.log) == [] by {
      if p.log != [] {
        HelloData(p.log);
        assert p.log[..1] == p.log;
      }
    }
    hide Total, Flat, Data, RunAt, AllNonEmpty, Boundary, AcksOk;
    assert Data(me.out[c].log) == [] by { assert me.out[c].log == []; NoFrames(); }
    assert HelloOk(me', peer, c) && StreamOk(me', peer, c) && PositionOk(me', peer, c);
  }

  lemma NoFrames()
    ensures Data([]) == []
  {
  }

  lemma HelloLocal(me: Node, peer: Node, me': Node, p: Pipe)
    requires NodesOk(me, peer) && NodesOk(peer, me) && IsHelloPut(me, me', p)
    ensures NodesOk(me', peer) && NodesOk(peer, me')
    ensures me.e.recvSeq == Total(me.delivered) && me.out[me.writer.conn].log == []
  {
    hide Total, Flat, Data, RunAt, AllNonEmpty, Boundary, AcksOk;
    assert Shapes(me', peer) && Shapes(peer, me');
    assert BufferOk(me') && DeliveryOk(me', peer) && DeliveryOk(peer, me');
    assert WriterOk(me', peer) && ReaderOk(me', peer);
    assert WriterOk(peer, me') && ReaderOk(peer, me');
  }

  lemma KeepPutHello(me: Node, peer: Node, me': Node, p: Pipe)
    requires Inv(me, peer) && IsHelloPut(me, me', p)
    ensures Inv(me', peer)
  {
    hide BufferOk, DeliveryOk, WriterOk, ReaderOk, ConnOk, Total;
    HelloLocal(me, peer, me', p);
    HelloConn(me, peer, me', p);
    BackwardPipe(me, peer, me', me.writer.conn);
    KeepPipe(me, peer, me', me.writer.conn);
  }

  // ------------------------------------------------------------ attach

  /** Before this side's hello is out, the peer cannot have put data on the connection. */
  lemma NoDataYet(s: Node, r: Node, c: ConnId)
    requires Inv(s, r) && c < |s.out| && c !in s.installed
    ensures Data(s.out[c].log) == [] && !OnDuty(s, c)
  {
    assert ConnOk(s, r, c);
    var log := s.out[c].log;
    if log != [] {
      assert log == [] + [log[0]];
      DataSnoc([], log[0]);
    }
  }

  lemma BeginConn(me: Node, peer: Node, me': Node, d: ConnId)
    requires Shapes(me, peer) && Shapes(peer, me) && Shapes(me', peer) && Shapes(peer, me')
    requires me.writer.Idle? && d < |me.out| && d !in me.begun
    requires ConnOk(me, peer, d) && ConnOk(peer, me, d)
    requires Data(peer.out[d].log) == [] && !OnDuty(peer, d)
    requires |me.delivered| <= |peer.segs|
    requires me' == me.(e := Detach(me.e), writer := HelloOut(d, me.e.recvSeq),
                        begun := me.begun + {d}, mark := me.mark[d := |me.delivered|])
    ensures ConnOk(me', peer, d) && ConnOk(peer, me', d)
    ensures me.out[d].log == [] && me.got[d] == 0
  {
    assert RunAt([], peer.segs, |me.delivered|);
    hide Total, Flat, Data, RunAt, AllNonEmpty, Boundary, AcksOk;
  }

  lemma BeginLocal(me: Node, peer: Node, me': Node, d: ConnId)
    requires NodesOk(me, peer) && NodesOk(peer, me) && me.writer.Idle? && d < |me.out| && d !in me.begun
    requires me.out[d].log == [] && me.got[d] == 0
    requires me' == me.(e := Detach(me.e), writer := HelloOut(d, me.e.recvSeq),
                        begun := me.begun + {d}, mark := me.mark[d := |me.delivered|])
    ensures NodesOk(me', peer) && NodesOk(peer, me')
    ensures |me.delivered| <= |peer.segs|
  {
    hide Total, Flat, Data, AllNonEmpty, Boundary, AcksOk;
  }

  lemma KeepBegin(me: Node, peer: Node, d: ConnId)
    requires Inv(me, peer) && me.writer.Idle? && d < |me.out| && d !in me.begun
    ensures Inv(me.(e := Detach(me.e), writer := HelloOut(d, me.e.recvSeq),
                    begun := me.begun + {d}, mark := me.mark[d := |me.delivered|]), peer)
  {
    var me' := me.(e := Detach(me.e), writer := HelloOut(d, me.e.recvSeq),
                   begun := me.begun + {d}, mark := me.mark[d := |me.delivered|]);
    hide ConnOk, BufferOk, DeliveryOk, WriterOk, ReaderOk, Data;
    NothingInstalled(me, peer, d);
    NoDataYet(peer, me, d);
    BeginLocal(me, peer, me', d);
    BeginConn(me, peer, me', d);
    forall c | 0 <= c < |me.out| ensures ConnOk(me', peer, c) && ConnOk(peer, me', c) {
      if c != d {
        Unaffected(me, peer, me', peer, c);
        Unaffected(peer, me, peer, me', c);
      }
    }
  }

  lemma NothingInstalled(me: Node, peer: Node, d: ConnId)
    requires Inv(me, peer) && d < |me.out| && d !in me.begun
    ensures d !in peer.installed && me.out[d].log == [] && me.got[d] == 0
  {
    assert ConnOk(me, peer, d) && ConnOk(peer, me, d);
  }

  lemma TakenConns(me: Node, peer: Node, me': Node, c: ConnId)
    requires Inv(me, peer) && Shapes(me', peer) && Shapes(peer, me') && c < |me.out|
    requires me' == me.(got := me'.got, writer := me'.writer, reader := me'.reader)
    requires OnDuty(me', c) ==> OnDuty(me, c) && Waiting(me', c) == Waiting(me, c)
    requires me'.got[c] >= me.got[c]
    requires c !in me.installed ==> me'.got[c] <= 1
    requires c !in me.begun ==> me'.got[c] == me.got[c]
    requires me'.got[c] <= |peer.out[c].log|
    requires me.e.ws == Some(c) ==> Processed(me', c) == Processed(me, c)
    ensures ConnOk(me', peer, c) && ConnOk(peer, me', c)
  {
    hide Total, Flat, Data, RunAt, AllNonEmpty, Boundary, AcksOk;
    assert ConnOk(me, peer, c) && ConnOk(peer, me, c);
  }

  lemma TakeHelloLocal(me: Node, peer: Node, me': Node)
    requires NodesOk(me, peer) && NodesOk(peer, me) && me.writer.HelloWait?
    requires var HelloWait(d, myAck) := me.writer;
      && me.got[d] < |peer.out[d].log|
      && me' == me.(got := me.got[d := me.got[d] + 1],
                    writer := HelloGot(d, myAck, peer.out[d].log[me.got[d]].ack))
    ensures NodesOk(me', peer) && NodesOk(peer, me')
  {
    hide Total, Flat, Data, RunAt, AllNonEmpty, Boundary, AcksOk;
    assert Shapes(me', peer) && Shapes(peer, me');
    assert BufferOk(me') && DeliveryOk(me', peer) && DeliveryOk(peer, me');
    assert WriterOk(me', peer) && ReaderOk(me', peer);
    assert WriterOk(peer, me') && ReaderOk(peer, me');
  }

  lemma HelloWaits(me: Node, peer: Node)
    requires NodesOk(me, peer) && me.writer.HelloWait?
    ensures 0 < me.writer.conn < |me.out| && me.got[me.writer.conn] == 0
    ensures me.writer.conn !in me.installed && me.writer.conn in me.begun
  {
    hide BufferOk, DeliveryOk, ReaderOk;
  }

  lemma KeepTakeHello(me: Node, peer: Node)
    requires Inv(me, peer) && me.writer.HelloWait? && |peer.out[me.writer.conn].log| > me.got[me.writer.conn]
    ensures var HelloWait(d, myAck) := me.writer;
      && peer.out[d].log[me.got[d]].payload == []
      && Inv(me.(got := me.got[d := me.got[d] + 1],
                 writer := HelloGot(d, myAck, peer.out[d].log[me.got[d]].ack)), peer)
  {
    var HelloWait(d, myAck) := me.writer;
    var me' := me.(got := me.got[d := me.got[d] + 1],
                   writer := HelloGot(d, myAck, peer.out[d].log[me.got[d]].ack));
    hide ConnOk, BufferOk, DeliveryOk, WriterOk, ReaderOk, Data;
    HelloWaits(me, peer);
    FirstIsHello(peer, me, d);
    TakeHelloLocal(me, peer, me');
    forall c | 0 <= c < |me.out| ensures ConnOk(me', peer, c) && ConnOk(peer, me', c) {
      if c == d {
        TakenConns(me, peer, me', c);
      } else {
        Unaffected(me, peer, me', peer, c);
        Unaffected(peer, me, peer, me', c);
      }
    }
  }

  /** The first message on a resumed connection is the hello: an ack and nothing else. */
  lemma FirstIsHello(s: Node, r: Node, c: ConnId)
    requires Inv(s, r) && 0 < c < |s.out| && s.out[c].log != []
    ensures s.out[c].log[0].payload == []
  {
    assert ConnOk(s, r, c);
  }

  lemma InstalledGot(me: Node, peer: Node, c: ConnId)
    requires Inv(me, peer) && c < |me.out| && c in me.installed
    ensures c != 0 ==> me.got[c] >= 1
  {
    assert ConnOk(me, peer, c);
  }

  lemma TakeLocal(me: Node, peer: Node, me': Node)
    requires NodesOk(me, peer) && NodesOk(peer, me) && me.reader.Reading?
    requires var d := me.reader.conn;
      && me.got[d] < |peer.out[d].log|
      && (d != 0 ==> me.got[d] >= 1)
      && me' == me.(got := me.got[d := me.got[d] + 1], reader := Holding(d, peer.out[d].log[me.got[d]]))
    ensures NodesOk(me', peer) && NodesOk(peer, me')
  {
    hide Total, Flat, Data, RunAt, AllNonEmpty, Boundary, AcksOk;
    assert Shapes(me', peer) && Shapes(peer, me');
    assert BufferOk(me') && DeliveryOk(me', peer) && DeliveryOk(peer, me');
    assert WriterOk(me', peer) && ReaderOk(me', peer);
    assert WriterOk(peer, me') && ReaderOk(peer, me');
  }

  lemma KeepTake(me: Node, peer: Node)
    requires Inv(me, peer) && me.reader.Reading? && |peer.out[me.reader.conn].log| > me.got[me.reader.conn]
    ensures var d := me.reader.conn;
      Inv(me.(got := me.got[d := me.got[d] + 1], reader := Holding(d, peer.out[d].log[me.got[d]])), peer)
  {
    var d := me.reader.conn;
    var me' := me.(got := me.got[d := me.got[d] + 1], reader := Holding(d, peer.out[d].log[me.got[d]]));
    assert d in me.installed;
    hide ConnOk, BufferOk, DeliveryOk, WriterOk, ReaderOk, Data;
    InstalledGot(me, peer, d);
    TakeLocal(me, peer, me');
    forall c | 0 <= c < |me.out| ensures ConnOk(me', peer, c) && ConnOk(peer, me', c) {
      if c == d {
        TakenConns(me, peer, me', c);
      } else {
        Unaffected(me, peer, me', peer, c);
        Unaffected(peer, me, peer, me', c);
      }
    }
  }

  // -------------------------------------------------------- acks and commit

  /**
   An ack of the peer is a segment boundary within what was sent: ackLocked
   accepts it and moves the buffer exactly to it.
   */
  lemma AckEffect(me: Node, peer: Node, ack: nat)
    requires BufferOk(me) && DeliveryOk(me, peer) && !me.e.closed
    requires Boundary(peer.delivered, ack)
    ensures AckLocked(me.e, ack).Some?
    ensures var e' := AckLocked(me.e, ack).value;
      && e' == me.e.(unacked := e'.unacked, unackedAt := Max(me.e.unackedAt, ack))
      && BufferOk(me.(e := e'))
      && e'.unackedAt <= peer.e.recvSeq
  {
    hide Total, Trim, Flat, AllNonEmpty, Boundary, RunAt;
    RunAtSlice(peer.delivered, me.segs, 0);
    BoundaryExtends(peer.delivered, me.segs, ack);
    BoundaryBound(me.segs, ack);
    BoundaryBound(peer.delivered, ack);
    var d := |me.segs| - |me.e.unacked|;
    RunAtSlice(me.e.unacked, me.segs, d);
    assert me.segs[d..] == me.segs[d..|me.segs|] == me.e.unacked;
    TrimExact(me.segs, d, ack);
    var rest := Trim(me.e.unacked, me.e.unackedAt, ack).0;
    assert me.segs[|me.segs| - |rest|..] == me.segs[|me.segs| - |rest|..|me.segs|];
    RunAtSlice(rest, me.segs, |me.segs| - |rest|);
  }

  /** What the receiver announced in its hello, in segments and in bytes. */
  lemma HelloMeans(me: Node, peer: Node, c: ConnId)
    requires Inv(me, peer) && 0 < c < |me.out| && peer.out[c].log != []
    ensures peer.mark[c] <= |peer.delivered| <= |me.segs|
    ensures peer.out[c].log[0].ack == Total(me.segs[..peer.mark[c]])
    ensures Boundary(peer.delivered, peer.out[c].log[0].ack)
  {
    assert ConnOk(peer, me, c);
    assert peer.delivered <= me.segs;
    assert peer.delivered[..peer.mark[c]] == me.segs[..peer.mark[c]];
  }

  /** At commit the replay starts at the segment the peer is waiting for. */
  lemma ReplayStart(me: Node, peer: Node, c: ConnId, e': Endpoint)
    requires Inv(me, peer) && 0 < c < |me.out| && peer.out[c].log != []
    requires BufferOk(me.(e := e')) && !e'.closed
    requires e'.unackedAt == peer.out[c].log[0].ack
    ensures peer.mark[c] + |e'.unacked| == |me.segs|
    ensures RunAt(e'.unacked, me.segs, |me.segs| - |e'.unacked|)
  {
    HelloMeans(me, peer, c);
    OffsetInjective(me.segs, peer.mark[c], |me.segs| - |e'.unacked|);
  }

  lemma KeepRefused(me: Node, peer: Node, e': Endpoint)
    requires Inv(me, peer) && me.writer.HelloGot?
    requires e' == me.e.(unacked := e'.unacked, unackedAt := e'.unackedAt, cancelled := true)
    requires BufferOk(me.(e := e')) && !e'.closed && e'.unackedAt <= peer.e.recvSeq
    ensures Inv(me.(e := e', writer := Idle, accused := true), peer)
  {
    var me' := me.(e := e', writer := Idle, accused := true);
    hide ConnOk, Total, Flat, Data, RunAt, AllNonEmpty, Boundary, AcksOk;
    forall c | 0 <= c < |me.out| ensures ConnOk(me', peer, c) && ConnOk(peer, me', c) {
      Unaffected(me, peer, me', peer, c);
      Unaffected(peer, me, peer, me', c);
    }
  }

  lemma CommitConn(me: Node, peer: Node, me': Node)
    requires Shapes(me, peer) && Shapes(peer, me) && Shapes(me', peer) && Shapes(peer, me')
    requires me.writer.HelloGot? && WriterOk(me, peer) && Shapes(peer, me)
    requires ConnOk(me, peer, me.writer.conn) && ConnOk(peer, me, me.writer.conn)
    requires me.reader.Resting? || me.reader.conn != me.writer.conn
    requires var HelloGot(c, myAck, peerAck) := me.writer;
      && Data(me.out[c].log) == [] && peer.out[c].log[0].payload == []
      && me' == me.(e := me'.e, installed := me.installed + {c}, writer := me'.writer)
      && me'.e.ws == Some(c) && me'.e.unackedAt == peerAck
      && peer.mark[c] <= |me.segs| && peer.mark[c] + |Waiting(me', c)| == |me.segs|
    ensures ConnOk(me', peer, me.writer.conn) && ConnOk(peer, me', me.writer.conn)
  {
    hide Total, Flat, Data, RunAt, AllNonEmpty, Boundary, AcksOk;
    var c := me.writer.conn;
    HelloData(peer.out[c].log);
    EmptyRun(me.segs, peer.mark[c]);
    assert HelloOk(me', peer, c) && StreamOk(me', peer, c);
    assert HelloOk(peer, me', c) && StreamOk(peer, me', c);
    assert PositionOk(peer, me', c) && PositionOk(me', peer, c);
  }

  lemma HelloData(log: seq<Frame>)
    requires log != [] && log[0].payload == []
    ensures Data(log[..1]) == [] && LastAck(log[..1]) == log[0].ack
  {
    assert log[..1] == [] + [log[0]];
    DataSnoc([], log[0]);
  }

  lemma NotReading(me: Node, peer: Node)
    requires NodesOk(me, peer) && NodesOk(peer, me) && me.writer.Shaking()
    ensures me.reader.Resting? || me.reader.conn != me.writer.conn
  {
  }

  /** Only connections this side has begun to use can be its current one or in a handshake. */
  lemma UsedBegun(me: Node, peer: Node)
    requires Inv(me, peer)
    ensures me.e.ws.Some? ==> me.e.ws.value in me.begun
    ensures me.writer.Shaking() ==> me.writer.conn in me.begun
  {
    hide ConnOk, BufferOk, DeliveryOk, ReaderOk, Total, RunAt;
  }

  lemma ShakingDetached(me: Node, peer: Node)
    requires Inv(me, peer) && me.writer.Shaking()
    ensures me.e.ws == None
  {
    hide ConnOk, BufferOk, DeliveryOk, ReaderOk, Total, RunAt;
  }

  lemma CommitLocal(me: Node, peer: Node, me': Node, e': Endpoint)
    requires NodesOk(me, peer) && NodesOk(peer, me) && me.writer.HelloGot?
    requires BufferOk(me.(e := e')) && e'.unackedAt <= peer.e.recvSeq && !e'.closed
    requires var HelloGot(c, myAck, peerAck) := me.writer;
      && e' == me.e.(unacked := e'.unacked, unackedAt := e'.unackedAt)
      && me' == me.(e := e'.(ackSent := myAck, ws := Some(c)), installed := me.installed + {c},
                    writer := if e'.unacked == [] then Idle else Transmit(c, e'.unacked))
    ensures NodesOk(me', peer) && NodesOk(peer, me')
  {
    hide Total, Flat, Data, RunAt, AllNonEmpty, Boundary, AcksOk;
    assert Shapes(me', peer) && Shapes(peer, me');
    assert BufferOk(me') && DeliveryOk(me', peer) && DeliveryOk(peer, me');
    assert WriterOk(me', peer) && ReaderOk(me', peer);
    assert WriterOk(peer, me') && ReaderOk(peer, me');
  }

  lemma GotFacts(me: Node, peer: Node)
    requires NodesOk(me, peer) && me.writer.HelloGot?
    ensures var HelloGot(c, myAck, peerAck) := me.writer;
      && 0 < c < |me.out| && c !in me.installed
      && peer.out[c].log != [] && peer.out[c].log[0].ack == peerAck
  {
  }

  ghost predicate IsInstalled(me: Node, me': Node, e': Endpoint) {
    && me.writer.HelloGot?
    && var HelloGot(c, myAck, peerAck) := me.writer;
    && e' == me.e.(unacked := e'.unacked, unackedAt := peerAck)
    && me' == me.(e := e'.(ackSent := myAck, ws := Some(c)), installed := me.installed + {c},
                  writer := if e'.unacked == [] then Idle else Transmit(c, e'.unacked))
  }

  lemma InstalledConn(me: Node, peer: Node, me': Node, e': Endpoint)
    requires Inv(me, peer) && IsInstalled(me, me', e') && !e'.closed
    requires BufferOk(me.(e := e')) && Shapes(me', peer) && Shapes(peer, me')
    ensures ConnOk(me', peer, me.writer.conn) && ConnOk(peer, me', me.writer.conn)
  {
    hide BufferOk, DeliveryOk, WriterOk, ReaderOk, ConnOk, Data, RunAt, AllNonEmpty, Total, Boundary;
    var d := me.writer.conn;
    GotFacts(me, peer);
    ReplayStart(me, peer, d, e');
    HelloMeans(me, peer, d);
    NotReading(me, peer);
    NoDataYet(me, peer, d);
    FirstIsHello(peer, me, d);
    CommitConn(me, peer, me');
  }

  lemma InstalledOther(me: Node, peer: Node, me': Node, e': Endpoint, c: ConnId)
    requires Shapes(me, peer) && Shapes(peer, me) && IsInstalled(me, me', e')
    requires Shapes(me', peer) && Shapes(peer, me')
    requires c < |me.out| && c != me.writer.conn && ConnOk(me, peer, c) && ConnOk(peer, me, c)
    ensures ConnOk(me', peer, c) && ConnOk(peer, me', c)
  {
    hide ConnOk;
    Unaffected(me, peer, me', peer, c);
    Unaffected(peer, me, peer, me', c);
  }

  lemma KeepInstalled(me: Node, peer: Node, me': Node, e': Endpoint)
    requires Inv(me, peer) && IsInstalled(me, me', e')
    requires BufferOk(me.(e := e')) && e'.unackedAt <= peer.e.recvSeq && !e'.closed
    ensures Inv(me', peer)
  {
    hide BufferOk, DeliveryOk, WriterOk, ReaderOk, ConnOk;
    CommitLocal(me, peer, me', e');
    InstalledConn(me, peer, me', e');
    hide IsInstalled;
    forall c | 0 <= c < |me.out| ensures ConnOk(me', peer, c) && ConnOk(peer, me', c) {
      if c != me.writer.conn {
        InstalledOther(me, peer, me', e', c);
      }
    }
  }

  lemma KeepCommit(me: Node, peer: Node)
    requires Inv(me, peer) && me.writer.HelloGot?
    ensures Inv(DoCommit(me), peer)
  {
    if me.e.cancelled {
      KeepIdle(me, peer);
    } else {
      var HelloGot(c, myAck, peerAck) := me.writer;
      assert 0 < c < |me.out| && peer.out[c].log != [] && peer.out[c].log[0].ack == peerAck;
      hide ConnOk, BufferOk, DeliveryOk, ReaderOk, Trim;
      HelloMeans(me, peer, c);
      OpenNotClosed(me);
      AckEffect(me, peer, peerAck);
      var e' := AckLocked(me.e, peerAck).value;
      if e'.unackedAt == peerAck {
        KeepInstalled(me, peer, DoCommit(me), e');
      } else {
        CancelledBuffer(me, e');
        KeepRefused(me, peer, e'.(cancelled := true));
      }
    }
  }

  lemma OpenNotClosed(me: Node)
    requires BufferOk(me) && !me.e.cancelled
    ensures !me.e.closed
  {
  }

  lemma CancelledBuffer(me: Node, e': Endpoint)
    requires BufferOk(me.(e := e'))
    ensures BufferOk(me.(e := e'.(cancelled := true)))
  {
  }

  // ------------------------------------------------------------ receiving

  /** The frame in hand carries exactly the next segment of the sender's history. */
  lemma NextSegment(peer: Node, me: Node)
    requires Shapes(peer, me) && Shapes(me, peer) && ReaderOk(peer, me)
    requires me.reader.Holding? && me.e.ws == Some(me.reader.conn)
    requires me.reader.conn < |me.out| && ConnOk(peer, me, me.reader.conn)
    requires RunAt(me.delivered, peer.segs, 0)
    ensures var Holding(c, f) := me.reader;
      && me.got[c] >= 1 && me.got[c] <= |peer.out[c].log| && peer.out[c].log[me.got[c] - 1] == f
      && |me.delivered + Solid(f.payload)| == me.mark[c] + |Data(peer.out[c].log[..me.got[c]])|
      && RunAt(me.delivered + Solid(f.payload), peer.segs, 0)
      && Boundary(peer.delivered, f.ack)
      && LastAck(peer.out[c].log[..me.got[c]]) == f.ack >= me.e.unackedAt
  {
    var Holding(c, f) := me.reader;
    var log := peer.out[c].log;
    var k := me.got[c] - 1;
    DataStep(log, k);
    assert Data(log[..k + 1]) <= Data(log) by { DataTake(log, k + 1); }
    if f.payload != [] {
      ExtendRun(me.delivered, f.payload, peer.segs, Data(log), me.mark[c], |Data(log[..k])|);
    }
    assert Boundary(peer.delivered, f.ack);
    assert LastAck(log[..k + 1]) == f.ack;
    hide Total, Flat, Data, RunAt, AllNonEmpty, Boundary;
    assert f.ack >= me.e.unackedAt by {
      if k > 0 { assert log[..k][k - 1] == log[k - 1]; }
    }
  }

  lemma ExtendRun(done: seq<Segment>, p: Segment, segs: seq<Segment>, data: seq<Segment>, from: nat, i: nat)
    requires RunAt(done, segs, 0) && RunAt(data, segs, from)
    requires i < |data| && data[i] == p && |done| == from + i
    ensures RunAt(done + [p], segs, 0)
  {
    assert segs[from + i] == p;
  }

  lemma AcceptBytes(me: Node, me': Node, p: Segment)
    requires me.e.recvSeq == Total(me.delivered) && me.returned == Flat(me.delivered)
    requires me'.delivered == me.delivered + Solid(p) && me'.returned == me.returned
    requires me'.e.recvSeq == me.e.recvSeq + |p| && me'.e.pending == p
    ensures me'.e.recvSeq == Total(me'.delivered)
    ensures me'.returned + me'.e.pending == Flat(me'.delivered)
  {
    TotalAppend(me.delivered, Solid(p));
    FlatAppend(me.delivered, Solid(p));
    if p != [] {
      assert Flat([p]) == p + Flat([]) == p;
    }
  }

  /** More delivered data does not disturb what was said about the other direction. */
  lemma GrowDelivered(me: Node, peer: Node, me': Node, c: ConnId)
    requires Shapes(me, peer) && Shapes(peer, me) && Shapes(me', peer) && Shapes(peer, me')
    requires c < |me.out| && ConnOk(me, peer, c) && me.delivered <= me'.delivered
    requires me' == me.(e := me'.e, delivered := me'.delivered, reader := me'.reader)
    requires me'.e.ws == me.e.ws
    ensures ConnOk(me', peer, c)
  {
    var log := me.out[c].log;
    assert AcksOk(log, me'.delivered) by {
      forall i | 0 <= i < |log| ensures Boundary(me'.delivered, log[i].ack) {
        BoundaryExtends(me.delivered, me'.delivered, log[i].ack);
      }
    }
    assert me'.delivered[..me.mark[c]] == me.delivered[..me.mark[c]];
    hide Total, Flat, Data, RunAt, AllNonEmpty, Boundary, AcksOk;
  }

  lemma ProcessLocal(me: Node, peer: Node, me': Node, e': Endpoint)
    requires NodesOk(me, peer) && NodesOk(peer, me) && me.reader.Holding? && me.e.ws.Some?
    requires BufferOk(me.(e := e')) && e'.unackedAt <= peer.e.recvSeq && !e'.closed
    requires e' == me.e.(unacked := e'.unacked, unackedAt := e'.unackedAt)
    requires var p := me.reader.frame.payload;
      && me' == me.(e := e'.(recvSeq := e'.recvSeq + |p|, pending := p),
                    delivered := me.delivered + Solid(p), reader := Resting)
      && RunAt(me'.delivered, peer.segs, 0)
    ensures NodesOk(me', peer) && NodesOk(peer, me')
  {
    assert me.returned + me.e.pending == me.returned;
    AcceptBytes(me, me', me.reader.frame.payload);
    if me.writer.Loaded? {
      BoundaryExtends(me.delivered, me'.delivered, me.writer.ack);
    }
    hide Total, Flat, Data, RunAt, AllNonEmpty, Boundary, AcksOk;
    assert Shapes(me', peer) && Shapes(peer, me');
    assert BufferOk(me') && DeliveryOk(me', peer) && DeliveryOk(peer, me');
    assert WriterOk(me', peer) && ReaderOk(me', peer);
    assert WriterOk(peer, me') && ReaderOk(peer, me');
  }

  lemma ProcessConn(me: Node, peer: Node, me': Node)
    requires Inv(me, peer) && me.reader.Holding? && me.e.ws == Some(me.reader.conn)
    requires Shapes(me', peer) && Shapes(peer, me')
    requires var Holding(c, f) := me.reader;
      && me' == me.(e := me'.e, delivered := me.delivered + Solid(f.payload), reader := Resting)
      && me'.e.unackedAt == Max(me.e.unackedAt, f.ack)
    ensures ConnOk(peer, me', me.reader.conn)
  {
    assert RunAt(me.delivered, peer.segs, 0) && me.reader.conn < |me.out|;
    NextSegment(peer, me);
    assert ConnOk(peer, me, me.reader.conn);
    hide Total, Flat, Data, RunAt, AllNonEmpty, Boundary, AcksOk, WriterOk, BufferOk, DeliveryOk;
  }

  lemma AcceptedFrame(me: Node, peer: Node, me': Node, e': Endpoint)
    requires Inv(me, peer) && me.reader.Holding? && me.e.ws == Some(me.reader.conn)
    requires BufferOk(me.(e := e')) && e'.unackedAt <= peer.e.recvSeq && !e'.closed
    requires e' == me.e.(unacked := e'.unacked, unackedAt := Max(me.e.unackedAt, me.reader.frame.ack))
    requires var p := me.reader.frame.payload;
      me' == me.(e := e'.(recvSeq := e'.recvSeq + |p|, pending := p),
                 delivered := me.delivered + Solid(p), reader := Resting)
    requires RunAt(me'.delivered, peer.segs, 0)
    ensures Inv(me', peer)
  {
    hide ConnOk, BufferOk, DeliveryOk, WriterOk, ReaderOk, Data, AcksOk, RunAt, Total, Flat, AllNonEmpty;
    ProcessLocal(me, peer, me', e');
    ProcessConn(me, peer, me');
    forall c | 0 <= c < |me.out| ensures ConnOk(me', peer, c) && ConnOk(peer, me', c) {
      GrowDelivered(me, peer, me', c);
      if c != me.reader.conn {
        Unaffected(peer, me, peer, me', c);
      }
    }
  }

  lemma HoldingFacts(me: Node, peer: Node)
    requires NodesOk(me, peer) && NodesOk(peer, me) && me.reader.Holding? && me.e.ws.Some?
    ensures !me.e.closed && me.reader.conn < |me.out| && RunAt(me.delivered, peer.segs, 0)
  {
    hide RunAt, Total, AllNonEmpty, Flat, WriterOk;
  }

  /** The state after an accepted frame, before the reader looks whether an ack is due. */
  function Received(me: Node, e': Endpoint): Node
    requires me.reader.Holding?
  {
    var p := me.reader.frame.payload;
    me.(e := e'.(recvSeq := e'.recvSeq + |p|, pending := p), delivered := me.delivered + Solid(p), reader := Resting)
  }

  lemma ReceivedNext(me: Node)
    requires me.reader.Holding? && me.e.ws == Some(me.reader.conn)
    requires AckLocked(me.e, me.reader.frame.ack).Some?
    ensures var n := Received(me, AckLocked(me.e, me.reader.frame.ack).value);
      DoProcess(me) == n || DoProcess(me) == n.(reader := Owing(me.reader.conn))
  {
    hide Trim;
  }

  lemma KeepReceived(me: Node, peer: Node)
    requires Inv(me, peer) && me.reader.Holding? && me.e.ws == Some(me.reader.conn)
    ensures AckLocked(me.e, me.reader.frame.ack).Some?
    ensures Inv(Received(me, AckLocked(me.e, me.reader.frame.ack).value), peer)
  {
    hide ConnOk, BufferOk, DeliveryOk, WriterOk, ReaderOk, Trim, Data, AcksOk, RunAt, Total, Flat, AllNonEmpty;
    var f := me.reader.frame;
    HoldingFacts(me, peer);
    NextSegment(peer, me);
    AckEffect(me, peer, f.ack);
    var e' := AckLocked(me.e, f.ack).value;
    AcceptedFrame(me, peer, Received(me, e'), e');
  }

  lemma KeepProcess(me: Node, peer: Node)
    requires Inv(me, peer) && me.reader.Holding?
    ensures Inv(DoProcess(me), peer)
  {
    CurrentInstalled(me, peer);
    BeatsInstalled(me, peer);
    hide Inv, AckLocked;
    if me.e.ws != Some(me.reader.conn) {
      KeepResting(me, peer);
    } else {
      KeepReceived(me, peer);
      ReceivedNext(me);
      hide DoProcess;
      KeepNotes(Received(me, AckLocked(me.e, me.reader.frame.ack).value), peer, DoProcess(me));
    }
  }

  // ------------------------------------------- the network and the dialler

  lemma NewConn(me: Node, peer: Node, me': Node, peer': Node)
    requires Shapes(me, peer) && Shapes(peer, me) && Shapes(me', peer') && Shapes(peer', me')
    requires FramingInstalled(me)
    requires me' == AddConn(me) && peer' == AddConn(peer)
    ensures ConnOk(me', peer', |me.out|)
  {
    assert RunAt([], me.segs, 0);
    hide Total, Flat, RunAt, AllNonEmpty, Boundary;
  }

  ghost predicate FramingInstalled(me: Node) {
    me.writer.Framing() ==> me.writer.conn in me.installed
  }

  lemma DialLocal(me: Node, peer: Node, me': Node, peer': Node)
    requires NodesOk(me, peer) && NodesOk(peer, me)
    requires me' == AddConn(me) && peer' == AddConn(peer)
    ensures NodesOk(me', peer') && NodesOk(peer', me')
    ensures FramingInstalled(me) && FramingInstalled(peer)
  {
    hide Total, Flat, Data, RunAt, AllNonEmpty, Boundary, AcksOk;
    assert Shapes(me', peer') && Shapes(peer', me');
    assert BufferOk(me') && DeliveryOk(me', peer') && BufferOk(peer') && DeliveryOk(peer', me');
    assert WriterOk(me', peer') && ReaderOk(me', peer');
    assert WriterOk(peer', me') && ReaderOk(peer', me');
  }

  lemma KeepDial(me: Node, peer: Node)
    requires Inv(me, peer)
    ensures Inv(AddConn(me), AddConn(peer))
  {
    var me', peer' := AddConn(me), AddConn(peer);
    var n := |me.out|;
    hide ConnOk, BufferOk, DeliveryOk, WriterOk, ReaderOk, Data;
    DialLocal(me, peer, me', peer');
    NewConn(me, peer, me', peer');
    NewConn(peer, me, peer', me');
    forall c | 0 <= c < |me'.out| ensures ConnOk(me', peer', c) && ConnOk(peer', me', c) {
      if c < n {
        Unaffected(me, peer, me', peer', c);
        Unaffected(peer, me, peer', me', c);
      }
    }
  }

  lemma LoseConn(me: Node, peer: Node, me': Node, d: ConnId, keep: nat)
    requires Shapes(me, peer) && Shapes(peer, me) && Shapes(me', peer) && Shapes(peer, me')
    requires d < |me.out| && peer.got[d] <= keep <= |me.out[d].log|
    requires ConnOk(me, peer, d) && ConnOk(peer, me, d)
    requires me' == LoseTail(me, d, keep)
    ensures ConnOk(me', peer, d) && ConnOk(peer, me', d)
  {
    hide Total, Flat, Data, RunAt, AllNonEmpty, Boundary, AcksOk, StreamOk;
    var log := me.out[d].log;
    assert AcksOk(log[..keep], me.delivered) by { FewerAcks(log, keep, me.delivered); }
    assert StreamOk(me', peer, d) by { ShorterStream(me, peer, me', d, keep); }
    if peer.e.ws == Some(d) {
      assert log[..keep][..Processed(peer, d)] == log[..Processed(peer, d)];
    }
    assert StreamOk(peer, me', d) by { SameStream(peer, me, me', d); }
  }

  lemma FewerAcks(log: seq<Frame>, keep: nat, delivered: seq<Segment>)
    requires keep <= |log| && AcksOk(log, delivered)
    ensures AcksOk(log[..keep], delivered)
  {
  }

  lemma ShorterStream(s: Node, r: Node, s': Node, c: ConnId, keep: nat)
    requires c < |s.out| && c < |r.mark| && keep <= |s.out[c].log| && StreamOk(s, r, c)
    requires s' == LoseTail(s, c, keep)
    ensures StreamOk(s', r, c)
  {
    DataTake(s.out[c].log, keep);
  }

  lemma SameStream(s: Node, r: Node, r': Node, c: ConnId)
    requires c < |s.out| && c < |r.mark| && c < |r'.mark| && r'.mark[c] == r.mark[c]
    requires StreamOk(s, r, c)
    ensures StreamOk(s, r', c)
  {
  }

  lemma SameWaiting(me: Node, me': Node, c: ConnId)
    requires me'.writer == me.writer
    ensures Waiting(me', c) == Waiting(me, c)
  {
  }

  lemma LoseLocal(me: Node, peer: Node, me': Node, d: ConnId, keep: nat)
    requires NodesOk(me, peer) && NodesOk(peer, me)
    requires d < |me.out| && peer.got[d] <= keep <= |me.out[d].log| && me' == LoseTail(me, d, keep)
    ensures NodesOk(me', peer) && NodesOk(peer, me')
  {
    hide Total, Flat, Data, RunAt, AllNonEmpty, Boundary, AcksOk;
    assert Shapes(me', peer) && Shapes(peer, me');
    assert BufferOk(me') && DeliveryOk(me', peer) && DeliveryOk(peer, me');
    assert WriterOk(me', peer) && ReaderOk(me', peer);
    assert WriterOk(peer, me') && ReaderOk(peer, me');
  }

  lemma KeepLose(me: Node, peer: Node, d: ConnId, keep: nat)
    requires Inv(me, peer) && d < |me.out| && peer.got[d] <= keep <= |me.out[d].log|
    ensures Inv(LoseTail(me, d, keep), peer)
  {
    var me' := LoseTail(me, d, keep);
    hide BufferOk, DeliveryOk, WriterOk, ReaderOk, ConnOk, Waiting;
    LoseLocal(me, peer, me', d, keep);
    LoseConn(me, peer, me', d, keep);
    forall c | c != d ensures Waiting(me', c) == Waiting(me, c) {
      SameWaiting(me, me', c);
    }
    KeepPipe(me, peer, me', d);
  }

  // -------------------------------------------------------- every step

  lemma CurrentInstalled(me: Node, peer: Node)
    requires Inv(me, peer)
    ensures me.e.ws.Some? ==> me.e.ws.value in me.installed
    ensures me.writer.Framing() ==> me.writer.conn < |me.out|
  {
  }

  lemma HelloIsPut(me: Node, peer: Node, fate: Fate)
    requires Inv(me, peer) && Enabled(me, peer, PutHello(fate))
    ensures Inv(Apply(me, peer, PutHello(fate)), peer)
  {
    var me' := Apply(me, peer, PutHello(fate));
    hide BufferOk, DeliveryOk, ReaderOk, ConnOk;
    assert me.out[me.writer.conn].log == [];
    KeepPutHello(me, peer, me', me'.out[me.writer.conn]);
  }

  predicate OfWriter(a: Action) {
    a.Write? || a.LoadAck? || a.PutFrame? || a.NoteSent? || a.PutHello? || a.FailAttach?
  }

  lemma KeepSender(me: Node, peer: Node, a: Action)
    requires Inv(me, peer) && Enabled(me, peer, a) && OfWriter(a)
    ensures Inv(Apply(me, peer, a), peer)
  {
    hide Inv, Half;
    match a
    case Write(data) => KeepWrite(me, peer, Apply(me, peer, a), data);
    case LoadAck => KeepLoad(me, peer);
    case PutFrame(fate) => KeepPut(me, peer, fate);
    case NoteSent => KeepNoteSent(me, peer);
    case PutHello(fate) => HelloIsPut(me, peer, fate);
    case FailAttach => KeepIdle(me, peer);
    case _ =>
  }

  lemma KeepOther(me: Node, peer: Node, a: Action)
    requires Inv(me, peer) && Enabled(me, peer, a) && !OfWriter(a) && !OfFlusher(a)
    ensures Inv(Apply(me, peer, a), peer)
  {
    CurrentInstalled(me, peer);
    hide Inv, Half;
    match a
    case BeginAttach(c) => KeepBegin(me, peer, c);
    case TakeHello => KeepTakeHello(me, peer);
    case Commit => KeepCommit(me, peer);
    case Drop => KeepDrop(me, peer);
    case Shut(c) => KeepShut(me, peer, c);
    case PickConn => KeepReading(me, peer, me.e.ws.value);
    case Take => KeepTake(me, peer);
    case FailRead => KeepResting(me, peer);
    case Process => KeepProcess(me, peer);
    case HandOutBytes(n) => KeepHandOut(me, peer, n);
    case Cancel => KeepCancel(me, peer);
    case CloseCritical => KeepClose(me, peer);
    case _ =>
  }

  lemma KeepLocal(me: Node, peer: Node, a: Action)
    requires Inv(me, peer) && Enabled(me, peer, a)
    ensures Inv(Apply(me, peer, a), peer)
  {
    hide Inv, Apply;
    if OfFlusher(a) {
      KeepFlusher(me, peer, a);
    } else if OfWriter(a) {
      KeepSender(me, peer, a);
    } else {
      KeepOther(me, peer, a);
    }
  }

  lemma {:induction false} KeepStep(s: System, st: Step)
    requires SystemInv(s) && CanStep(s, st)
    ensures SystemInv(DoStep(s, st))
  {
    hide Half;
    match st
    case Local(x, a) => KeepLocal(Get(s, x), Get(s, Other(x)), a);
    case Dial => KeepDial(s.client, s.server);
    case Lose(x, c, keep) => KeepLose(Get(s, x), Get(s, Other(x)), c, keep);
  }

  lemma InitLocal(n: Node)
    requires n == FreshNode()
    ensures NodesOk(n, n)
  {
    assert Total([]) == 0 && Flat([]) == [];
    EmptyRun([], 0);
    hide Total, Flat, RunAt;
    assert BufferOk(n) && DeliveryOk(n, n) && WriterOk(n, n) && ReaderOk(n, n);
  }

  lemma InitConn(n: Node)
    requires n == FreshNode()
    ensures Shapes(n, n) && ConnOk(n, n, 0)
  {
    hide Data, Total, Flat, RunAt, AcksOk;
    NoFrames();
    NoAcks();
    EmptyRun([], 0);
    assert HelloOk(n, n, 0) && StreamOk(n, n, 0) && PositionOk(n, n, 0);
  }

  lemma InitOk()
    ensures SystemInv(Init())
  {
    var n := FreshNode();
    InitLocal(n);
    InitConn(n);
    hide NodesOk, ConnOk;
    forall c | 0 <= c < |n.out| ensures ConnOk(n, n, c) {
      assert c == 0;
    }
  }

  lemma NoAcks()
    ensures AcksOk([], [])
  {
  }

  lemma {:induction false} KeepRun(s: System, run: seq<Step>)
    requires SystemInv(s) && Legal(s, run)
    ensures SystemInv(Exec(s, run))
    decreases |run|
  {
    hide SystemInv;
    if run != [] {
      KeepStep(s, run[0]);
      KeepRun(DoStep(s, run[0]), run[1..]);
    }
  }

  /** The invariant holds in every reachable state. */
  lemma {:induction false} Reachable(run: seq<Step>)
    requires Legal(Init(), run)
    ensures SystemInv(Exec(Init(), run))
  {
    InitOk();
    KeepRun(Init(), run);
  }

  /** The invariant of a system, seen from side `x`. */
  lemma OneSide(s: System, x: Side)
    requires SystemInv(s)
    ensures Inv(Get(s, x), Get(s, Other(x)))
  {
    hide Half;
  }
}
