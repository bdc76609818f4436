/**
 The inductive invariant of the protocol.  `Half(s, r)` is about the bytes that
 flow from `s` to `r`; the system satisfies it in both directions.
 */
module Invariant {
  import opened Bytes
  import opened Endpoints
  import opened Protocol

  /** Messages of `c` whose critical section in Read (or in attach, for the hello) is over. */
  function Processed(r: Node, c: ConnId): int
    requires c < |r.got|
  {
    if r.reader.Holding? && r.reader.conn == c then r.got[c] as int - 1 else r.got[c]
  }

  function LastAck(log: seq<Frame>): nat {
    if log == [] then 0 else log[|log| - 1].ack
  }

  /** Segments the writeMu holder still has to put on `c`. */
  function Waiting(s: Node, c: ConnId): seq<Segment> {
    if s.writer.Framing() && s.writer.conn == c then s.writer.todo else []
  }

  /** New payloads of `s` go to `c`, or a replay or write on `c` is in progress. */
  predicate OnDuty(s: Node, c: ConnId) {
    s.e.ws == Some(c) || Waiting(s, c) != []
  }

  ghost predicate Shapes(s: Node, r: Node) {
    && |s.out| == |s.got| == |s.mark| == |r.out|
    && |s.out| > 0
    && 0 in s.installed && s.beats <= s.installed <= s.begun && s.shut <= s.begun
    && s.mark[0] == 0
    && (forall c | c in s.begun :: c < |s.out|)
    && (s.e.ws.Some? ==> s.e.ws.value in s.installed)
  }

  /** The replay buffer of an open endpoint is the unconfirmed tail of its write history. */
  ghost predicate BufferOk(s: Node) {
    && AllNonEmpty(s.segs)
    && s.e.sendSeq == Total(s.segs)
    && (s.e.closed ==> s.e.cancelled && s.e.ws == None && s.e.unacked == [])
    && (!s.e.closed ==>
         && RunAt(s.e.unacked, s.segs, |s.segs| - |s.e.unacked|)
         && s.e.unackedAt == Total(s.segs[..|s.segs| - |s.e.unacked|]))
  }

  /** Exactly-once, in-order delivery, in segments and in bytes. */
  ghost predicate DeliveryOk(s: Node, r: Node) {
    && RunAt(r.delivered, s.segs, 0)
    && r.e.recvSeq == Total(r.delivered)
    && r.returned + r.e.pending == Flat(r.delivered)
    && (!s.e.closed ==> s.e.unackedAt <= r.e.recvSeq)
    && r.e.ackSent <= r.e.recvSeq
  }

  ghost predicate AcksOk(log: seq<Frame>, delivered: seq<Segment>) {
    && (forall i | 0 <= i < |log| :: Boundary(delivered, log[i].ack))
    && (forall i, j | 0 <= i < j < |log| :: log[i].ack <= log[j].ack)
  }

  /** What holds of the writer's connection between its steps. */
  ghost predicate WriterOk(s: Node, r: Node)
    requires Shapes(s, r)
  {
    match s.writer
    case Idle => true
    case Transmit(c, todo) =>
      && FramingOk(s, c, todo)
    case Loaded(c, todo, ack) =>
      && FramingOk(s, c, todo)
      && Boundary(s.delivered, ack)
      && (forall i | 0 <= i < |s.out[c].log| :: s.out[c].log[i].ack <= ack)
    case Sent(c, todo, ack) =>
      && FramingOk(s, c, todo)
      && ack <= s.e.recvSeq
    case HelloOut(c, myAck) => ShakingOk(s, c, myAck) && s.out[c].log == [] && s.got[c] == 0
    case HelloWait(c, myAck) => ShakingOk(s, c, myAck) && (s.out[c].cut || s.out[c].log != []) && s.got[c] == 0
    case HelloGot(c, myAck, peerAck) =>
      && ShakingOk(s, c, myAck) && (s.out[c].cut || s.out[c].log != []) && s.got[c] == 1
      && r.out[c].log != [] && r.out[c].log[0].ack == peerAck
  }

  /** What is still to be put is the tail of the history, and no newer connection can have been installed. */
  ghost predicate FramingOk(s: Node, c: ConnId, todo: seq<Segment>) {
    && c in s.installed
    && RunAt(todo, s.segs, |s.segs| - |todo|)
    && (todo != [] ==> s.e.ws == None || s.e.ws == Some(c))
  }

  /** From the second detach to commit: no current connection, and the receive position is frozen. */
  ghost predicate ShakingOk(s: Node, c: ConnId, myAck: nat) {
    && 0 < c < |s.out| && c < |s.mark| && c < |s.got|
    && c in s.begun && c !in s.installed
    && s.e.ws == None
    && s.e.recvSeq == myAck
    && s.mark[c] == |s.delivered|
  }

  ghost predicate ReaderOk(s: Node, r: Node)
    requires Shapes(r, s)
  {
    match r.reader
    case Resting => true
    case Reading(c) => c in r.installed && r.e.pending == []
    case Holding(c, f) =>
      && c in r.installed && r.e.pending == []
      && (if c == 0 then 1 else 2) <= r.got[c] <= |s.out[c].log|
      && s.out[c].log[r.got[c] - 1] == f
    case Owing(c) => c in r.installed
  }

  /** Control messages and bookkeeping of what `s` put on `c`. */
  ghost predicate HelloOk(s: Node, r: Node, c: ConnId)
    requires c < |s.out| && c < |s.got| && c < |s.mark| && c < |r.out| && c < |r.got|
  {
    var log := s.out[c].log;
    && r.got[c] <= |log|
    && s.mark[c] <= |s.delivered|
    && (c != 0 && log != [] ==> log[0] == Frame(Total(s.delivered[..s.mark[c]]), []))
    && (c !in s.begun ==> log == [] && s.got[c] == 0 && s.mark[c] == 0)
    && (c !in s.installed ==> |log| <= 1 && s.got[c] <= 1)
    && (c in s.installed && c != 0 ==> r.out[c].log != [] && s.got[c] >= 1 && (s.out[c].cut || log != []))
  }

  /**
   Contiguity: the payloads on `c` are consecutive segments of the sender's
   history, starting at the position the receiver announced on `c`, and an uncut
   connection on duty, together with what is waiting, reaches the end of the
   history.
   */
  ghost predicate StreamOk(s: Node, r: Node, c: ConnId)
    requires c < |s.out| && c < |r.mark|
  {
    var data := Data(s.out[c].log);
    && RunAt(data, s.segs, r.mark[c])
    && (!s.out[c].cut && OnDuty(s, c) ==> r.mark[c] + |data| + |Waiting(s, c)| == |s.segs|)
  }

  /** Where the receiver stands on its current connection, in data and in acks. */
  ghost predicate PositionOk(s: Node, r: Node, c: ConnId)
    requires c < |s.out| && c < |r.mark| && c < |r.got|
  {
    r.e.ws == Some(c) ==>
      && 0 <= Processed(r, c) <= |s.out[c].log|
      && |r.delivered| == r.mark[c] + |Data(s.out[c].log[..Processed(r, c)])|
      && r.e.unackedAt == LastAck(s.out[c].log[..Processed(r, c)])
  }

  ghost predicate ConnOk(s: Node, r: Node, c: ConnId)
    requires Shapes(s, r) && Shapes(r, s) && c < |s.out|
  {
    && AcksOk(s.out[c].log, s.delivered)
    && HelloOk(s, r, c)
    && StreamOk(s, r, c)
    && PositionOk(s, r, c)
  }

  ghost predicate NodesOk(s: Node, r: Node) {
    && Shapes(s, r) && Shapes(r, s)
    && BufferOk(s)
    && DeliveryOk(s, r)
    && WriterOk(s, r)
    && ReaderOk(s, r)
  }

  ghost predicate Half(s: Node, r: Node) {
    && NodesOk(s, r)
    && (forall c | 0 <= c < |s.out| :: ConnOk(s, r, c))
  }

  ghost predicate Inv(a: Node, b: Node) {
    Half(a, b) && Half(b, a)
  }

  ghost predicate SystemInv(s: System) {
    Inv(s.client, s.server)
  }
}
