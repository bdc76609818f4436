/**
 The state one endpoint keeps under `mu`, and what each of its critical
 sections does to it.  These functions are the specification of the methods of
 class ResumableConn and the endpoint half of every step of the protocol.
 */
module Endpoints {
  import opened Bytes

  /** A connection, named by its place in the client's dial order; 0 is the one both sides start with. */
  type ConnId = nat

  /** One WebSocket message after decoding: the 8-byte ack and the rest. */
  datatype Frame = Frame(ack: nat, payload: Segment)

  datatype Endpoint = Endpoint(
    ws: Option<ConnId>,
    recvSeq: nat,
    ackSent: nat,
    unacked: seq<Segment>,
    unackedAt: nat,
    sendSeq: nat,
    pending: seq<Byte>,
    cancelled: bool,   // ctx is done
    closed: bool       // the critical section of Close has run
  )

  /** Read sends a standalone ack after receiving this many bytes. */
  const ACK_EVERY := 256 * 1024

  const Fresh := Endpoint(Some(0), 0, 0, [], 0, 0, [], false, false)

  datatype Outcome =
    | Discarded
    | Violation
    | Accepted(e: Endpoint)

  datatype InstallResult =
    | Refused(e: Endpoint)
    | Installed(e: Endpoint, replay: seq<Segment>)

  /** The loop of ackLocked: drop leading segments that end at or before `ack`. */
  function Trim(unacked: seq<Segment>, at: nat, ack: nat): (r: (seq<Segment>, nat)) {
    if unacked != [] && at + |unacked[0]| <= ack
    then Trim(unacked[1..], at + |unacked[0]|, ack)
    else (unacked, at)
  }

  /** ackLocked; None is the error "ack beyond sent". */
  function AckLocked(e: Endpoint, ack: nat): Option<Endpoint> {
    if ack > e.sendSeq then None
    else
      var (rest, at) := Trim(e.unacked, e.unackedAt, ack);
      Some(e.(unacked := rest, unackedAt := at))
  }

  /** First critical section of Write, when ctx is not done. */
  function Append(e: Endpoint, data: Segment): Endpoint {
    e.(unacked := e.unacked + [data], sendSeq := e.sendSeq + |data|)
  }

  /** Critical section of Read on a frame that arrived on `conn`. */
  function Accept(e: Endpoint, conn: ConnId, f: Frame): Outcome {
    if e.ws != Some(conn) then Discarded
    else match AckLocked(e, f.ack)
      case None => Violation
      case Some(e') => Accepted(e'.(recvSeq := e.recvSeq + |f.payload|, pending := f.payload))
  }

  function NoteAck(e: Endpoint, ack: nat): Endpoint {
    e.(ackSent := Max(e.ackSent, ack))
  }

  function Detach(e: Endpoint): Endpoint {
    e.(ws := None)
  }

  function Broken(e: Endpoint, conn: ConnId): Endpoint {
    if e.ws == Some(conn) then Detach(e) else e
  }

  /** Second critical section of attach, when ctx is not done. */
  function Install(e: Endpoint, conn: ConnId, myAck: nat, peerAck: nat): InstallResult {
    match AckLocked(e, peerAck)
    case None => Refused(e)
    case Some(e') =>
      if e'.unackedAt != peerAck then Refused(e')
      else Installed(e'.(ackSent := myAck, ws := Some(conn)), e'.unacked)
  }

  /** Critical section of Close; ctx was cancelled before. */
  function CloseNow(e: Endpoint): Endpoint {
    e.(ws := None, unacked := [], closed := true)
  }

  /** Read hands out the first `n` pending bytes. */
  function HandOut(e: Endpoint, n: nat): Endpoint
    requires n <= |e.pending|
  {
    e.(pending := e.pending[n..])
  }

  /** An ack is refused exactly when it is beyond what was sent. */
  lemma AckRefusedIff(e: Endpoint, ack: nat)
    ensures AckLocked(e, ack).None? <==> ack > e.sendSeq
  {
  }

  /** A failure on the current connection drops it; on any other it changes nothing at all. */
  lemma BrokenOne(e: Endpoint, conn: ConnId)
    ensures e.ws == Some(conn) ==> Broken(e, conn) == e.(ws := None)
    ensures e.ws != Some(conn) ==> Broken(e, conn) == e
  {
  }

  /** Failures reported one after the other, by whatever goroutines. */
  function BrokenAll(e: Endpoint, failures: seq<ConnId>): Endpoint
    decreases |failures|
  {
    if failures == [] then e else BrokenAll(Broken(e, failures[0]), failures[1..])
  }

  /** Any number of failures costs the endpoint its connection exactly when that connection is among them. */
  lemma {:induction false} OnlyOwnFailures(e: Endpoint, failures: seq<ConnId>)
    ensures BrokenAll(e, failures) ==
            if e.ws.Some? && e.ws.value in failures then e.(ws := None) else e
    decreases |failures|
  {
    if failures != [] {
      BrokenOne(e, failures[0]);
      OnlyOwnFailures(Broken(e, failures[0]), failures[1..]);
      assert forall c :: c in failures <==> c == failures[0] || c in failures[1..];
    }
  }

  /** A connection just made current survives all late failures of older connections. */
  lemma InstalledSurvives(e: Endpoint, conn: ConnId, myAck: nat, peerAck: nat, failures: seq<ConnId>)
    requires Install(e, conn, myAck, peerAck).Installed? && conn !in failures
    ensures BrokenAll(Install(e, conn, myAck, peerAck).e, failures) == Install(e, conn, myAck, peerAck).e
    ensures Install(e, conn, myAck, peerAck).e.ws == Some(conn)
  {
    hide Trim;
    OnlyOwnFailures(Install(e, conn, myAck, peerAck).e, failures);
  }

  /** What Trim keeps is a suffix, its new offset is the end of what it dropped, and it drops as much as `ack` covers. */
  lemma {:induction false} TrimIsMaximal(unacked: seq<Segment>, at: nat, ack: nat)
    ensures var r := Trim(unacked, at, ack);
            var j := |unacked| - |r.0|;
            && 0 <= j <= |unacked|
            && r.0 == unacked[j..]
            && r.1 == at + Total(unacked[..j])
            && (j == 0 || r.1 <= ack)
            && (j < |unacked| ==> ack < r.1 + |unacked[j]|)
  {
    if unacked != [] && at + |unacked[0]| <= ack {
      TrimIsMaximal(unacked[1..], at + |unacked[0]|, ack);
      var j := |unacked| - |Trim(unacked, at, ack).0|;
      assert unacked[..j] == [unacked[0]] + unacked[1..][..j - 1];
      TotalAppend([unacked[0]], unacked[1..][..j - 1]);
      assert Total([unacked[0]]) == |unacked[0]|;
    } else {
      assert unacked[..0] == [];
    }
  }

  lemma SplitHistory(segs: seq<Segment>, d: nat, e: nat)
    requires d <= e <= |segs|
    ensures segs[d..][e - d..] == segs[e..]
    ensures Total(segs[..e]) == Total(segs[..d]) + Total(segs[d..][..e - d])
  {
    hide Total;
    assert segs[..e] == segs[..d] + segs[d..][..e - d];
    TotalAppend(segs[..d], segs[d..][..e - d]);
  }

  lemma NextEnd(segs: seq<Segment>, e: nat)
    requires e < |segs|
    ensures Total(segs[..e + 1]) == Total(segs[..e]) + |segs[e]|
  {
    hide Total;
    assert segs[..e + 1] == segs[..e] + [segs[e]];
    TotalSnoc(segs[..e], segs[e]);
  }

  /** The same in terms of the whole write history, of which `unacked` is the part from segment `d` on. */
  lemma TrimInHistory(segs: seq<Segment>, d: nat, ack: nat)
    requires d <= |segs|
    ensures var r := Trim(segs[d..], Total(segs[..d]), ack);
            var e := |segs| - |r.0|;
            && d <= e <= |segs|
            && r.0 == segs[e..]
            && r.1 == Total(segs[..e])
            && (e == d || Total(segs[..e]) <= ack)
            && (e < |segs| ==> ack < Total(segs[..e + 1]))
  {
    var r := Trim(segs[d..], Total(segs[..d]), ack);
    TrimIsMaximal(segs[d..], Total(segs[..d]), ack);
    hide Trim, Total;
    var e := |segs| - |r.0|;
    SplitHistory(segs, d, e);
    if e < |segs| {
      assert segs[d..][e - d] == segs[e];
      NextEnd(segs, e);
    }
  }

  /**
   ackLocked cannot split a segment, yet for an ack that falls on a segment
   boundary of the write history it moves `unackedAt` exactly to that ack (or
   leaves it, when the ack is old).
   */
  lemma TrimExact(segs: seq<Segment>, d: nat, ack: nat)
    requires AllNonEmpty(segs) && d <= |segs| && Boundary(segs, ack)
    ensures var r := Trim(segs[d..], Total(segs[..d]), ack);
            && r.1 == Max(Total(segs[..d]), ack)
            && |r.0| <= |segs| - d
            && r.0 == segs[|segs| - |r.0|..]
            && r.1 == Total(segs[..|segs| - |r.0|])
  {
    TrimInHistory(segs, d, ack);
    var e := |segs| - |Trim(segs[d..], Total(segs[..d]), ack).0|;
    var k :| 0 <= k <= |segs| && Total(segs[..k]) == ack;
    hide Trim, Total, AllNonEmpty;
    OffsetInjective(segs, k, e);
    OffsetInjective(segs, k, d);
    OffsetInjective(segs, d, e);
    if e < |segs| {
      OffsetInjective(segs, k, e + 1);
    }
  }
}
