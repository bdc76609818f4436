/**
 One endpoint as the code has it: an object whose methods update its fields in
 place.  Each method is one critical section (or a loop of the reader or writer),
 proved equal to the endpoint function that the protocol's steps use.
 */
module ResumableConns {
  import opened Bytes
  import opened Endpoints
  import opened FrameCodec

  datatype Cause = ProtocolViolation | SessionGone | BudgetExhausted | NotResumed

  datatype ReadOutcome =
    | TooShort                  // closed with errProtocol
    | Stale                     // arrived on a connection that was replaced
    | Rejected                  // ack beyond what was sent; closed with errProtocol
    | Took(needAck: bool)       // payload is pending; an ack is due

  datatype AttachOutcome =
    | ConnClosed
    | Mismatch
    | Attached(replay: seq<Segment>)

  class ResumableConn {
    var ws: Option<ConnId>
    var recvSeq: nat
    var ackSent: nat
    var unacked: seq<Segment>
    var unackedAt: nat
    var sendSeq: nat
    var pending: seq<Byte>
    var cancelled: bool
    var closed: bool
    var cause: Option<Cause>

    ghost function State(): Endpoint
      reads this
    {
      Endpoint(ws, recvSeq, ackSent, unacked, unackedAt, sendSeq, pending, cancelled, closed)
    }

    /** The difference `recvSeq - ackSent` never wraps; once Close has run, nothing of the stream is left. */
    ghost predicate Valid()
      reads this
    {
      ackSent <= recvSeq && (closed ==> cancelled && ws == None && unacked == [])
    }

    constructor ()
      ensures Valid() && State() == Fresh && cause == None
    {
      ws, recvSeq, ackSent, unacked, unackedAt, sendSeq := Some(0), 0, 0, [], 0, 0;
      pending, cancelled, closed, cause := [], false, false, None;
    }

    /** ackLocked, loop and all. */
    method AckLocked(ack: nat) returns (ok: bool)
      modifies this`unacked, this`unackedAt
      ensures ok <==> ack <= sendSeq
      ensures ok <==> Endpoints.AckLocked(old(State()), ack).Some?
      ensures State() == if ok then Endpoints.AckLocked(old(State()), ack).value else old(State())
    {
      if ack > sendSeq {
        return false;
      }
      while |unacked| > 0 && unackedAt + |unacked[0]| <= ack
        invariant Trim(unacked, unackedAt, ack) == Trim(old(unacked), old(unackedAt), ack)
        decreases |unacked|
      {
        unackedAt := unackedAt + |unacked[0]|;
        unacked := unacked[1..];
      }
      return true;
    }

    /** Write up to the release of mu: `target` is the connection to transmit on, if there is one. */
    method Append(p: array<Byte>) returns (ok: bool, target: Option<ConnId>)
      requires Valid()
      modifies this`unacked, this`sendSeq
      ensures Valid()
      ensures ok <==> p.Length == 0 || !old(cancelled)
      ensures State() == if ok && p.Length > 0 then Endpoints.Append(old(State()), p[..]) else old(State())
      ensures target == if ok && p.Length > 0 then ws else None
      ensures ok && p.Length > 0 ==> unacked == old(unacked) + [p[..]] && sendSeq == old(sendSeq) + p.Length
      ensures !ok || p.Length == 0 ==> unacked == old(unacked) && sendSeq == old(sendSeq)
    {
      if p.Length == 0 {
        return true, None;
      }
      var data := p[..];
      if cancelled {
        return false, None;
      }
      unacked := unacked + [data];
      sendSeq := sendSeq + |data|;
      return true, ws;
    }

    /** Read on a message that ReadMessage returned for connection `conn`. */
    method OnMessage(conn: ConnId, msg: seq<Byte>) returns (r: ReadOutcome)
      requires Valid()
      modifies this
      ensures Valid()
      ensures r.TooShort? <==> DecodeFrame(msg).None?
      ensures r.TooShort? ==> State() == CloseNow(old(State()).(cancelled := true))
      ensures DecodeFrame(msg).Some? ==>
        match Accept(old(State()), conn, DecodeFrame(msg).value)
        case Discarded => r == Stale && State() == old(State())
        case Violation => r == Rejected && State() == CloseNow(old(State()).(cancelled := true))
        case Accepted(e') => State() == e' && r == Took(e'.recvSeq - e'.ackSent >= ACK_EVERY)
      ensures r.TooShort? <==> |msg| < 8
      ensures r.Stale? <==> |msg| >= 8 && old(ws) != Some(conn)
      ensures r.Rejected? <==> |msg| >= 8 && old(ws) == Some(conn) && BigEndian.Decode(msg[..8]) > old(sendSeq)
      ensures r.Took? ==>
        && recvSeq == old(recvSeq) + |msg| - 8 && pending == msg[8..]
        && (r.needAck <==> recvSeq - ackSent >= 262_144)
        && ws == old(ws) && ackSent == old(ackSent) && sendSeq == old(sendSeq)
        && cancelled == old(cancelled) && closed == old(closed)
      ensures r.TooShort? || r.Rejected? ==>
        && closed && cancelled && ws == None && unacked == []
        && recvSeq == old(recvSeq) && sendSeq == old(sendSeq) && ackSent == old(ackSent) && pending == old(pending)
      ensures r.TooShort? || r.Rejected? ==> cause == if old(cause).None? then Some(ProtocolViolation) else old(cause)
    {
      if |msg| < ACK_SIZE {
        CloseWith(ProtocolViolation);
        return TooShort;
      }
      if ws != Some(conn) {
        return Stale;
      }
      var ok := AckLocked(DecodeFrame(msg).value.ack);
      if !ok {
        CloseWith(ProtocolViolation);
        return Rejected;
      }
      recvSeq := recvSeq + (|msg| - ACK_SIZE);
      var needAck := recvSeq - ackSent >= ACK_EVERY;
      pending := msg[ACK_SIZE..];
      return Took(needAck);
    }

    /** The copy at the end of Read. */
    method CopyOut(p: array<Byte>) returns (n: nat)
      requires Valid()
      modifies this`pending, p
      ensures Valid()
      ensures n == if p.Length < |old(pending)| then p.Length else |old(pending)|
      ensures p[..n] == old(pending)[..n] && p[n..] == old(p[n..])
      ensures State() == HandOut(old(State()), n) && pending == old(pending)[n..]
    {
      n := 0;
      while n < p.Length && n < |pending|
        invariant pending == old(pending) && n <= p.Length && n <= |pending|
        invariant p[..n] == pending[..n]
        invariant forall k | n <= k < p.Length :: p[k] == old(p[k])
      {
        p[n] := pending[n];
        n := n + 1;
      }
      pending := pending[n..];
    }

    /** writeFrame after a successful write of a header that carried `ack`. */
    method NoteSent(ack: nat)
      requires Valid() && ack <= recvSeq
      modifies this`ackSent
      ensures Valid() && State() == NoteAck(old(State()), ack)
      ensures ackSent == if old(ackSent) < ack then ack else old(ackSent)
    {
      ackSent := if ackSent < ack then ack else ackSent;
    }

    /** The message writeFrame puts on the wire for `payload`. */
    method Header(payload: Segment) returns (msg: seq<Byte>)
      requires Valid() && recvSeq < LIMIT
      ensures DecodeFrame(msg) == Some(Frame(recvSeq, payload))
      ensures |msg| == 8 + |payload| && msg[8..] == payload
      ensures forall i | 0 <= i < 8 :: msg[i] == recvSeq / BigEndian.Pow256(7 - i) % 256
    {
      msg := BigEndian.Encode(recvSeq, ACK_SIZE) + payload;
      FrameRoundTrip(Frame(recvSeq, payload));
      forall i | 0 <= i < 8 ensures msg[i] == recvSeq / BigEndian.Pow256(7 - i) % 256 {
        FrameLayout(Frame(recvSeq, payload), i);
      }
    }

    /** broken: only the first caller for a given connection acts. */
    method Broken(conn: ConnId) returns (acted: bool)
      requires Valid()
      modifies this`ws
      ensures Valid() && State() == Endpoints.Broken(old(State()), conn)
      ensures acted <==> old(ws) == Some(conn)
      ensures ws == if old(ws) == Some(conn) then None else old(ws)
    {
      if ws != Some(conn) {
        return false;
      }
      ws := None;
      return true;
    }

    method Detach() returns (ack: nat, previous: Option<ConnId>)
      requires Valid()
      modifies this`ws
      ensures Valid() && State() == Endpoints.Detach(old(State()))
      ensures ws == None && ack == recvSeq && previous == old(ws)
    {
      previous := ws;
      ws := None;
      ack := recvSeq;
    }

    /** attach from the peer's hello on; `myAck` is what this side announced. */
    method Commit(conn: ConnId, myAck: nat, peerAck: nat) returns (r: AttachOutcome)
      requires Valid() && myAck <= recvSeq
      modifies this
      ensures Valid()
      ensures old(cancelled) ==> r == ConnClosed && State() == old(State())
      ensures !old(cancelled) ==>
        match Install(old(State()), conn, myAck, peerAck)
        case Installed(e', replay) => r == Attached(replay) && State() == e'
        case Refused(e') => r == Mismatch && State() == CloseNow(e'.(cancelled := true))
      ensures r.ConnClosed? <==> old(cancelled)
      ensures r.Attached? ==>
        && ws == Some(conn) && ackSent == myAck && unackedAt == peerAck && r.replay == unacked
        && |unacked| <= |old(unacked)| && unacked == old(unacked)[|old(unacked)| - |unacked|..]
      ensures r.Mismatch? ==> closed && cancelled && ws == None && unacked == []
      ensures recvSeq == old(recvSeq) && sendSeq == old(sendSeq) && pending == old(pending)
    {
      if cancelled {
        return ConnClosed;
      }
      TrimIsMaximal(unacked, unackedAt, peerAck);
      var ok := AckLocked(peerAck);
      if !ok || unackedAt != peerAck {
        CloseWith(ProtocolViolation);
        return Mismatch;
      }
      ackSent := myAck;
      ws := Some(conn);
      return Attached(unacked);
    }

    /**
     The replay loop of attach, with the outcome of each write given, and the
     position `positions[i]` that the reader has reached when frame `i` is built:
     the frames written are the outstanding segments in order, up to the first
     failure, and a failure gives the connection up.
     */
    method Replay(conn: ConnId, replay: seq<Segment>, succeeds: seq<bool>, positions: seq<nat>)
      returns (wire: seq<seq<Byte>>)
      requires Valid() && |succeeds| == |replay| == |positions|
      requires forall i | 0 <= i < |positions| :: recvSeq <= positions[i] < LIMIT
      requires forall i, j | 0 <= i < j < |positions| :: positions[i] <= positions[j]
      modifies this`recvSeq, this`ackSent, this`ws
      ensures Valid()
      ensures |wire| <= |replay| && (forall i | 0 <= i < |wire| :: succeeds[i])
      ensures |wire| < |replay| ==> !succeeds[|wire|]
      ensures forall i | 0 <= i < |wire| :: DecodeFrame(wire[i]) == Some(Frame(positions[i], replay[i]))
      ensures State() ==
        if |wire| == |replay| then ReplayedTo(old(State()), positions)
        else Endpoints.Broken(ReplayedTo(old(State()), positions[..|wire|]).(recvSeq := positions[|wire|]), conn)
    {
      wire := [];
      for i := 0 to |replay|
        invariant Valid() && |wire| == i
        invariant i < |replay| ==> recvSeq <= positions[i]
        invariant forall k | 0 <= k < i :: succeeds[k] && DecodeFrame(wire[k]) == Some(Frame(positions[k], replay[k]))
        invariant State() == ReplayedTo(old(State()), positions[..i])
      {
        recvSeq := positions[i];
        var msg := Header(replay[i]);
        if !succeeds[i] {
          var _ := Broken(conn);
          return;
        }
        wire := wire + [msg];
        NoteSent(recvSeq);
        assert positions[..i + 1][..i] == positions[..i];
      }
      assert positions[..|replay|] == positions;
    }

    /** Close: the body runs once, and closes the connection it found. */
    method Close() returns (previous: Option<ConnId>)
      requires Valid()
      modifies this`ws, this`unacked, this`cancelled, this`closed
      ensures Valid() && closed && cancelled && ws == None && unacked == []
      ensures State() == CloseNow(old(State()).(cancelled := true))
      ensures previous == old(ws)
    {
      if closed {
        return None;
      }
      cancelled := true;
      previous := ws;
      ws := None;
      unacked := [];
      closed := true;
    }

    /** closeWith: the first cause wins. */
    method CloseWith(why: Cause)
      requires Valid()
      modifies this`ws, this`unacked, this`cancelled, this`closed, this`cause
      ensures Valid() && closed && cancelled && ws == None && unacked == []
      ensures State() == CloseNow(old(State()).(cancelled := true))
      ensures cause == if old(cause).None? then Some(why) else old(cause)
    {
      if cause.None? {
        cause := Some(why);
      }
      var _ := Close();
    }
  }

  /** After frames that carried the receive positions `acks`, oldest first. */
  function ReplayedTo(e: Endpoint, acks: seq<nat>): Endpoint {
    if acks == [] then e
    else
      var last := acks[|acks| - 1];
      NoteAck(e.(recvSeq := last), last)
  }

  /**
   A frame that one endpoint wrote has the same effect on the other as the
   abstract frame of the protocol: bytes on the wire refine frames.
   */
  lemma WireRefinesFrame(e: Endpoint, conn: ConnId, f: Frame)
    requires f.ack < LIMIT
    ensures DecodeFrame(EncodeFrame(f)).Some?
    ensures Accept(e, conn, DecodeFrame(EncodeFrame(f)).value) == Accept(e, conn, f)
  {
    FrameRoundTrip(f);
  }
}
