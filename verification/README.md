# Verification of NetoKeep's resumable transport

NetoKeep tunnels SSH and TCP through WebSocket connections that may die at any
moment. `ResumableConn` turns a sequence of such connections into one reliable
byte stream in each direction: every message carries an 8-byte ack, unconfirmed
payloads are kept, and after a reconnect both sides exchange receive positions
and replay what is missing. This project models that protocol, its recovery
goroutines, the server's session registry, the stream header and the client's
retry loop, and proves what they promise.

## How the model is organised

| file | contents |
|---|---|
| `Bytes.dfy` | bytes, segments (the payload of one `Write`), stream offsets |
| `Endpoint.dfy` | the fields one endpoint keeps under `mu` and what each critical section does to them |
| `ResumableConn.dfy` | the class with those fields; every method is proved equal to an `Endpoint` function |
| `Protocol.dfy` | two endpoints, their goroutines and the connections as a state machine built from the same `Endpoint` functions |
| `Invariant.dfy`, `Preservation.dfy` | the inductive invariant and its proof, step by step |
| `Delivery.dfy` | the promises of the byte stream, for every run |
| `HonestPeers.dfy` | when a protocol violation can be reported between two endpoints that run this code |
| `Reconnection.dfy` | letting go, redialling and the handshake, as explicit runs |
| `Schedules.dfy` | resume completeness: a finite schedule that delivers everything |
| `Exclusions.dfy` | the states without such a schedule |
| `AckAccounting.dfy` | `ackSent`, the heartbeat's test, draining of replay buffers |
| `Scenarios.dfy` | two concrete runs in which a promise stops to hold |
| `Recovery.dfy` | the `lost` token, the supervisor, the `changed` broadcast channel |
| `PowersOfTwo.dfy`, `Redial.dfy` | exponential backoff within a budget, with the 64-bit shift |
| `Sessions.dfy` | the session map and any number of racing HTTP handlers |
| `BigEndian.dfy`, `FrameCodec.dfy`, `ConnProperty.dfy` | wire formats, parsed from a connection cut into arbitrary chunks |
| `RetryLoop.dfy` | the client's session loop |

A step of the protocol is one critical section of `mu`, one message put on or
taken off a connection, or one move of the network. The holder of `writeMu` is
explicit, so Write, the handshake, replay, ack-only frames and the reader
interleave freely. A connection is two FIFO queues of whole messages. The network
may cut a direction at any time and lose any suffix of it; a put on a cut
direction may still look successful to the writer, a put that reports an error
may still arrive, and a put on a connection closed by its own side fails.
Connections are numbered in the client's dial order; the server may attach them
late, in any order, or never. The history of each side (`segs`, `delivered`,
`returned`, `mark`) is recorded next to the real fields and never read by the
steps.

A standalone ack has its cause: the heartbeat of a connection must have found that
connection current and `recvSeq > ackSent` (`SeeBehind`) and then waits for
`writeMu`, by which time the connection may be an old one; the reader tries the
lock when 256 KiB are unacknowledged (`Owing`, `TryAck`) and does nothing else
until that is settled.

The steps allow more than the code does, which only adds runs to the claims about
all runs:

* the current connection may be dropped at any time, and whoever dropped it may go
  on without closing it;
* a connection that was used may be closed at any time, and messages may still be
  taken from it afterwards;
* a Write need not wait for a connection before the next one;
* a goroutine whose write failed may go on before the drop that follows, and a
  later write on that connection may report success;
* the client may dial again while its own replay is still in progress.

The runs that existence claims build use none of this. In `Reconnection.dfy`,
`Schedules.dfy` and `Scenarios.dfy` a connection that was dropped, or whose handshake failed, is closed
before its side does anything else, with one exception that the code has too: in
`StaleHeartbeatOverstates` the handler that dropped connection 0 is overtaken by
another handler before it closes it, and takes no further step.

## Findings

* `ack > sendSeq` never fires between two endpoints that run this code. The check
  `unackedAt != peerAck` never fires on the client, in any run. On the server it
  fires exactly when the hello it read is older than an ack it has processed, and
  only when a handler attaches after a newer connection was made current
  (`ServerNeverAccusesInOrder`, `CommitRefusedIff`); `StaleHelloIsAccused` is such
  a run. Delivery is exact in all runs, including those.
* `ackSent` is documented as the highest ack sent to the peer
  (internal/transport/resume_conn.go:57). In every run it is the larger of the
  highest ack on the current connection and the highest stray one, that is, one
  sent on another connection since the last commit; so it is the highest ack on
  the current connection if and only if no stray ack exceeds that
  (`AckSentMeans`). It suffices that, whenever data is accepted, every other
  connection with an ack about to be built is closed by then (`CalmIsExact`);
  closing earlier connections before a commit rules stray acks out altogether
  (`AckSentExact`). On the server it can fail when two attach handlers overlap
  (`StaleHeartbeatOverstates`): the first clears `ws` and is overtaken before
  `old.Close()`, the second finds nothing to close and makes its connection current,
  data arrives there, and then the heartbeat of the oldest connection flushes into
  that one. Now `recvSeq > ackSent` is false although the peer holds segments, and a
  heartbeat leaves them there: the exact condition for it to drain them is in
  `HeartbeatRound`.
* Both ends can get back to a shared live connection with everything delivered
  exactly when neither is cancelled and the server does not hold a hello that its
  commit will refuse (`ResumesIff`).
* The comment at internal/transport/resume_conn.go:443 mentions waits of 1, 2 and
  4 s. With the 5 s budget the 4 s wait is never reached: at most 3 dials and 2
  waits (`FiveSeconds`).
* The 30 s cap in internal/services/traffic_client.go:193 never binds: no wait
  exceeds 16 s (`Retry`).

## Model

| member | source | states |
|---|---|---|
| Delivery.ExactlyOnce | internal/transport/resume_conn.go:38-46 | in every reachable state, what Read returned followed by `pending` is the first `recvSeq` bytes the peer accepted in Write |
| Delivery.NothingForgotten | internal/transport/resume_conn.go:56-60 | while open the replay buffer holds exactly the accepted bytes from `unackedAt` on, and `unackedAt` <= peer `recvSeq` <= `sendSeq` |
| Delivery.AcksAreHonest | internal/transport/resume_conn.go:325-332 | every ack ever put on any connection is at most its issuer's `recvSeq`, hence at most the peer's `sendSeq` |
| Delivery.Contiguity | internal/transport/resume_conn.go:110-121 | the payloads on any connection are consecutive whole segments from the receiver's announced position on, and the receiver stands exactly behind what it processed |
| Delivery.ReplayThenWrites | internal/transport/resume_conn.go:293-307 | on an uncut current connection, frames sent plus the rest of the replay or write are the history from the announced position to its end, so replay is complete, ordered, and before later writes |
| Delivery.AckExactness | internal/transport/resume_conn.go:311-322 | acks on one connection never decrease and fall on the peer's write boundaries, so `unackedAt` equals the last ack processed on the current connection |
| Delivery.FrozenPosition | internal/transport/resume_conn.go:250-264 | from the second detach until commit or failure no connection is current and `recvSeq` is the value in the hello |
| Delivery.FrozenThroughout | internal/transport/resume_conn.go:267-296 | as long as one handshake goes on, no continuation changes the receive position, the announced value or what was delivered |
| Delivery.NoWrapAround | internal/transport/resume_conn.go:121-122 | with less than 2^64 bytes written per side, `recvSeq - ackSent` never wraps, and `recvSeq`, `unackedAt`, every sum of the trimming loop and the next receive position stay in 64 bits |
| Delivery.CloseIsTerminal | internal/transport/resume_conn.go:176-190 | after Close's critical section every continuation keeps `ws` nil, `unacked` empty, `sendSeq` and `recvSeq` fixed |
| Delivery.ClosedIsDead | internal/transport/resume_conn.go:147-151 | every closed endpoint of any run is in that terminal state, whatever attach and Write raced with Close |
| Delivery.CloseWorks | internal/transport/resume_conn.go:176-190 | from every state, cancellation and the critical section of Close can run and leave such an endpoint |
| Delivery.CancelIsFinal | internal/transport/resume_conn.go:147-151 | from cancellation on, even before Close has run, no continuation accepts a Write or makes a connection current |
| Preservation.Reachable | internal/transport/resume_conn.go:93-174 | the two-sided invariant of buffers, positions, pipes, writer and reader holds in every reachable state |
| Preservation.KeepStep | internal/transport/resume_conn.go:267-309 | each step of each goroutine and of the network keeps that invariant |
| Preservation.AckEffect | internal/transport/resume_conn.go:312-322 | an ack that the peer issued is accepted, moves `unackedAt` exactly to the larger of the two, and leaves the buffer a tail of the history |
| Preservation.NextSegment | internal/transport/resume_conn.go:110-121 | a frame accepted on the current connection carries exactly the next segment, and an ack not below the previous one |
| Preservation.FirstIsHello | internal/transport/resume_conn.go:349-367 | the first message on a resumed connection is an ack without payload, so the length check of the handshake never fails between two such endpoints |
| Preservation.ReplayStart | internal/transport/resume_conn.go:286-293 | at commit the kept segments start at the very segment the peer is waiting for |
| Endpoints.TrimIsMaximal | internal/transport/resume_conn.go:316-320 | the trimming loop keeps a suffix, reports its offset, and drops all segments the ack covers and no other |
| Endpoints.TrimExact | internal/transport/resume_conn.go:311-322 | for an ack on a segment boundary the new offset is the larger of the old one and the ack |
| Endpoints.AckRefusedIff | internal/transport/resume_conn.go:313-315 | an ack is refused exactly when it is beyond `sendSeq` |
| Endpoints.OnlyOwnFailures | internal/transport/resume_conn.go:231-241 | any number of failures, reported by whatever goroutines, costs the endpoint its connection exactly when that connection is among them, and changes nothing else |
| Endpoints.InstalledSurvives | internal/transport/resume_conn.go:231-236 | a connection just made current survives all late failures of other connections |
| HonestPeers.CommitRefusedIff | internal/transport/resume_conn.go:286-292 | a commit is refused, and the session closed, if and only if the peer's hello is below `unackedAt` |
| HonestPeers.FramesAccepted | internal/transport/resume_conn.go:116-120 | no frame is rejected as acknowledging more than was sent; a frame from a replaced connection changes nothing |
| HonestPeers.ClientNeverAccuses | internal/transport/resume_conn.go:286-292 | in every run the client never closes with a protocol violation |
| HonestPeers.ServerNeverAccusesInOrder | internal/transport/resume_conn.go:286-292 | neither does the server when its attaches take effect in dial order |
| Scenarios.StaleHelloIsAccused | internal/transport/resume_conn.go:286-291 | a late handler of an older connection makes the server close the session of an honest client |
| Schedules.ResumeCompletes | internal/transport/resume_conn.go:169-173 | from every reachable state with both ends open and no refused commit pending, some finite continuation without new writes ends with both sides idle on the same live connection and each having returned every byte the other accepted |
| Exclusions.ResumesIff | internal/transport/resume_conn.go:267-309 | such a continuation exists if and only if neither side is cancelled and the server holds no hello behind its `unackedAt` |
| Exclusions.DoomedNeverRejoins | internal/transport/resume_conn.go:286-291 | with a refused commit pending, the server has no connection and receives nothing in any continuation |
| Schedules.SendAll | internal/transport/resume_conn.go:302-307 | the replay in progress can be finished on a live connection, leaving it current and the writer idle |
| Schedules.SendOwed | internal/transport/resume_conn.go:127-133 | when an ack is due and nobody holds `writeMu`, the reader can put an ack-only frame with its receive position on the connection |
| Schedules.ReceiveAll | internal/transport/resume_conn.go:93-138 | the reader can take, accept and hand out everything queued on the shared connection |
| Reconnection.Resume | internal/transport/resume_conn.go:267-300 | from two idle ends without a connection, one redial and handshake makes the same connection current on both |
| AckAccounting.AckSentMeans | internal/transport/resume_conn.go:343-345 | in every run `ackSent` is the larger of the highest ack on the current uncut connection and the highest one sent elsewhere since the last commit; it is the former if and only if the latter does not exceed it |
| AckAccounting.AckSentExact | internal/transport/resume_conn.go:252-263 | when this side closes earlier connections before it makes a new one current, no ack is sent elsewhere and `ackSent` is the highest ack on the current connection |
| AckAccounting.CalmIsExact | internal/transport/resume_conn.go:388-402 | `ackSent` is the highest ack on the current connection in every run in which, whenever data is accepted, all other connections with a waiting heartbeat or an ack not built yet are closed on this side |
| AckAccounting.BehindIsExact | internal/transport/resume_conn.go:388-391 | in every run, with all data received and all acks processed, the heartbeat's test `recvSeq > ackSent` holds exactly when the peer still keeps segments and no stray ack reaches `recvSeq` |
| AckAccounting.HeartbeatRound | internal/transport/resume_conn.go:388-402 | with all data received on a shared live connection, one tick on each side sends at most one ack-only frame, only where `recvSeq > ackSent`; once received, a replay buffer is empty exactly when it was empty before or the other side's stray acks stay below its `recvSeq` |
| AckAccounting.HeartbeatsDrain | internal/transport/resume_conn.go:399-402 | in that situation, when no stray ack exceeds what the current connection carried, the explicit run of one tick each way empties both replay buffers |
| AckAccounting.DrainedIff | internal/transport/resume_conn.go:311-322 | an open endpoint's buffer is empty exactly when `unackedAt` equals `sendSeq` |
| AckAccounting.AckIsDue | internal/transport/resume_conn.go:121-127 | after an accepted frame the reader owes an ack exactly when 262144 bytes or more are unacknowledged |
| AckAccounting.AcksHaveCauses | internal/transport/resume_conn.go:388-402 | in every run a heartbeat flushes only a connection that was once current and behind, and the reader only one on which 262144 bytes were once unacknowledged |
| Scenarios.StaleHeartbeatOverstates | internal/transport/resume_conn.go:252-263 | when one attach handler is overtaken by another between clearing `ws` and `old.Close()`, a heartbeat of the old connection raises `ackSent` above every ack on the current connection while the peer still keeps a segment |
| ResumableConns.ResumableConn.constructor | internal/transport/resume_conn.go:71-80 | both sides start at offset 0 on the first connection, without a hello |
| ResumableConns.ResumableConn.AckLocked | internal/transport/resume_conn.go:312-322 | the loop over `unacked` computes the specified trimming, and fails exactly beyond `sendSeq` |
| ResumableConns.ResumableConn.Append | internal/transport/resume_conn.go:140-156 | an empty write does nothing, a write after cancel is refused, any other is buffered and counted |
| ResumableConns.ResumableConn.OnMessage | internal/transport/resume_conn.go:104-125 | fewer than 8 bytes or an ack beyond `sendSeq` closes the stream, a message from a replaced connection changes nothing, any other adds its payload to `pending` and `recvSeq`; an ack is due from 262144 bytes on |
| ResumableConns.ResumableConn.CopyOut | internal/transport/resume_conn.go:135-137 | the copy hands out the longest prefix of `pending` that fits and keeps the rest |
| ResumableConns.ResumableConn.NoteSent | internal/transport/resume_conn.go:343-346 | `ackSent` only grows |
| ResumableConns.ResumableConn.Header | internal/transport/resume_conn.go:326-338 | the message put on the wire is the current `recvSeq` in eight bytes, the most significant first, and the payload |
| ResumableConns.ResumableConn.Broken | internal/transport/resume_conn.go:231-241 | `ws` is cleared if the caller names the current connection and is unchanged otherwise |
| ResumableConns.ResumableConn.Detach | internal/transport/resume_conn.go:252-264 | the connection is dropped and the receive position returned unchanged |
| ResumableConns.ResumableConn.Commit | internal/transport/resume_conn.go:280-299 | after cancel nothing changes; otherwise the connection is made current with the outstanding segments to replay, or the stream is closed |
| ResumableConns.ResumableConn.Replay | internal/transport/resume_conn.go:302-307 | the frames written are the outstanding segments in order up to the first failure, each with the receive position reached by then; a failure gives the connection up |
| ResumableConns.ResumableConn.Close | internal/transport/resume_conn.go:176-190 | the whole state after Close and the connection it closes, and that a second Close changes nothing |
| ResumableConns.ResumableConn.CloseWith | internal/transport/resume_conn.go:193-200 | the stream is closed and the first cause wins |
| ResumableConns.WireRefinesFrame | internal/transport/resume_conn.go:116-125 | a frame sent as bytes has the same effect on the receiver as the abstract frame |
| FrameCodec.FrameRoundTrip | internal/transport/resume_conn.go:330-338 | header and payload decode to what was encoded, for every 64-bit ack |
| FrameCodec.FrameUnique | internal/transport/resume_conn.go:104-116 | a message decodes exactly when it has at least 8 bytes, and then it is the encoding of what it decodes to |
| FrameCodec.FrameLayout | internal/transport/resume_conn.go:330-338 | byte i of the header is the i-th most significant byte of the ack, and the payload follows from byte 8 on |
| BigEndian.DecodeEncode | internal/protocol/conn_property.go:53 | a value that fits the width survives encoding |
| BigEndian.EncodeDecode | internal/protocol/conn_property.go:31 | every byte string of the width is the encoding of its value |
| BigEndian.Digits | internal/protocol/conn_property.go:53 | byte i of w is n / 256^(w-1-i) mod 256: the most significant byte comes first |
| BigEndian.MostSignificantFirst | internal/protocol/conn_property.go:31 | in reading, the first of w bytes counts 256^(w-1) times |
| Recovery.NoLostWakeup | internal/transport/resume_conn.go:231-248 | while open without a connection, the token is present, the supervisor is in recovery, or a goroutine is between clearing and signalling |
| Recovery.RecoveryIsNear | internal/transport/resume_conn.go:412-435 | then at most three steps of goroutines already under way bring the supervisor into recovery |
| Recovery.NobodySleepsThrough | internal/transport/resume_conn.go:211-228 | whoever is blocked on a broadcast channel can wake once a connection is installed or Close has run |
| Recovery.ClosedOnce | internal/transport/resume_conn.go:297-298 | no broadcast channel is closed twice, in any race of Close and attach |
| Recovery.CloseIsFinal | internal/transport/resume_conn.go:280-285 | after Close no connection is installed and no channel closed again |
| Recovery.CurrentIsLastAttached | internal/transport/resume_conn.go:293-299 | in every run `ws` is d exactly when the last attach, drop or Close was an attach of d (or there was none and d is the first connection) |
| Recovery.ListeningIsNear | internal/transport/resume_conn.go:412-435 | once a connection is there, at most three steps bring the supervisor back to listening, from wherever it is |
| Recovery.OwnAttachReturns | internal/transport/resume_conn.go:452-457 | the client's own successful attach ends its recovery at once |
| Recovery.StateIsHistory | internal/transport/resume_conn.go:176-190 | every attach and Close broadcasts exactly once, every drop not signalled yet is owed, the token is what was last done to it, Close and cancellation are never undone |
| Recovery.WaitsSinceBlock | internal/transport/resume_conn.go:210-228 | a goroutine waits in `current` exactly from its block to its wake-up |
| Recovery.NoFalseAlarm | internal/transport/resume_conn.go:222-226 | without an attach, a Close or cancellation a goroutine that blocked stays blocked |
| Recovery.NoListeningAfterCancel | internal/transport/resume_conn.go:425-433 | after cancellation a supervisor that comes out of recovery stops for good |
| Recovery.CancelStops | internal/transport/resume_conn.go:414-417 | cancellation can stop the supervisor wherever it is |
| Recovery.GiveUpEnds | internal/transport/resume_conn.go:425-433 | a supervisor that gives up cancels the session and stays stopped |
| Recovery.NoAttachAfterCancel | internal/transport/resume_conn.go:280-285 | from cancellation on, even before Close has run, no attach makes a connection current |
| Redialing.Redial | internal/transport/resume_conn.go:445-473 | the loop with its 64-bit shift follows the unbounded schedule for every budget that is a Duration |
| Redialing.RedialBound | internal/transport/resume_conn.go:464-467 | a run that sleeps n times has 2^n - 1 <= B seconds, makes at most n + 1 dials, and every wait is due by the deadline |
| Redialing.FiveSeconds | internal/transport/resume_conn.go:25 | with the 5 s budget at most 3 dials and 2 waits, of 1 s and 2 s with less than 0.5 s of jitter each |
| Redialing.ThreeDials | internal/transport/resume_conn.go:443-473 | when every dial fails at once and there is no jitter, exactly 3 dials and waits of 1 s and 2 s |
| Redialing.BoundAttained | internal/transport/resume_conn.go:464-467 | when every dial fails at once the next doubling would not have fitted: the bound is tight |
| Redialing.ResultMeans | internal/transport/resume_conn.go:447-472 | every attempt before the last was a plain failure; the last decides: found or attached, session gone, or a failure after which the next wait would end past the deadline, each in both directions; every attempt is a dial unless a connection is found |
| Redialing.DueTimes | internal/transport/resume_conn.go:464-470 | a wait is due its length after the dial failed, and the next dial starts when it is over |
| Redialing.WaitsDouble | internal/transport/resume_conn.go:464 | the i-th wait is 2^i seconds plus its own jitter |
| Redialing.ShiftFits | internal/transport/resume_conn.go:464 | a backoff within any 64-bit budget, with jitter, never overflows |
| Sessions.OneOwner | internal/services/traffic_server.go:65-73 | with any number of racing handlers each id has at most one session, owned by the handler that inserted it |
| Sessions.DeleteOwnOnly | internal/sessions/index.go:31-33 | the unconditional delete removes exactly the remover's own entry |
| Sessions.SecondRacerLoses | internal/sessions/index.go:24-29 | a second handler that also passed the check fails to register and disturbs nothing |
| Sessions.FreeIdWins | internal/sessions/index.go:24-29 | registration succeeds exactly when nobody serves the id at that moment |
| Sessions.ResumeReachesItsSession | internal/services/traffic_server.go:101-127 | a resume is handed only to a session with its id and option that a fresh request created |
| Sessions.AnswersMean | internal/services/traffic_server.go:91-112 | 400 exactly for a request that is no upgrade or has no session id; of the others a resume gets 410 exactly when nobody serves its id and 409 exactly when the option differs, a fresh request gets 409 exactly when its id is served, and all the rest go on to the upgrade |
| Sessions.HandlersAreRequests | internal/services/traffic_server.go:91-98 | each request gets one handler, which keeps exactly what the request asked for |
| Sessions.AtMostThreeSteps | internal/services/traffic_server.go:114-130 | a handler only moves forward: it is decided once and takes at most three steps in any run |
| Sessions.SessionManager.AddSession | internal/sessions/index.go:24-29 | inserts exactly when the id is free and reports which |
| Sessions.SessionManager.RemoveSession | internal/sessions/index.go:31-33 | removes one id and nothing else |
| Sessions.GetFindsServer | internal/sessions/index.go:36-42 | in every run, what is found under an id is the handler that serves it now, with its option, and nothing when nobody does |
| ConnProperties.RoundTrip | internal/protocol/conn_property.go:25-58 | encoding succeeds exactly for hosts up to 255 bytes; parsing the encoding followed by anything gives the property and consumes exactly the header |
| ConnProperties.HeaderLayout | internal/protocol/conn_property.go:47-58 | byte 0 is the pattern, bytes 1 and 2 the port with its high byte first, byte 3 the host length, then the host; only hosts over 255 bytes fail |
| ConnProperties.ParseInverts | internal/protocol/conn_property.go:25-45 | whatever parses is an encoding followed by the rest |
| ConnProperties.PrefixFree | internal/protocol/conn_property.go:47-58 | no encoding is a prefix of a different one |
| ConnProperties.ProperPrefixFails | internal/protocol/conn_property.go:27-37 | a stream that ends inside the header fails to parse |
| ConnProperties.EncodeConnProperty | internal/protocol/conn_property.go:47-58 | the appends build pattern, high and low byte of the port, host length and host, or fail exactly for a host over 255 bytes |
| ConnProperties.ResolveConnProperty | internal/protocol/conn_property.go:25-45 | over a connection cut into any chunks it reads these fields from these bytes and leaves what follows, and fails exactly when the stream ends inside the header |
| ConnProperties.Conn.ReadFull | internal/protocol/conn_property.go:27-35 | succeeds exactly when enough bytes arrive, and takes exactly those |
| RetryLoop.Retry | internal/services/traffic_client.go:170-201 | stops exactly when cancelled in the last run or wait, fails at once exactly when the first run failed to establish, gives up exactly when the last run, not cancelled, is the fifth failure in a row; waits double since the last established session; `ready` is closed at most once |
| RetryLoop.FiveRetries | internal/services/traffic_client.go:33 | one established session and then five failures: waits of 1, 2, 4, 8, 16 s, and the sixth run is the last |
| RetryLoop.SinceIsFailures | internal/services/traffic_client.go:174-192 | the counter reset by the callback reaches the limit exactly after five consecutive runs that were not established |

## Left out

- WebSocket internals, TCP, pings, pongs and read deadlines: a connection is a pair of FIFO queues; a timeout is a failure that may happen at any time.
- Back-pressure and bounded socket buffers: puts never block, so nothing is claimed about deadlock.
- Blocking: `ReadMessage`, channel waits and lock waits are steps that happen when they can; the class holds the critical sections and loops, and the interleaving is in the protocol.
- Taking `writeMu` and the first critical section behind it are one step; the code between them reads and writes nothing shared.
- Redialing.Redial: the clock is an explicit number, so the arithmetic of `time.Now` itself is not modelled.
- Delivery.NoWrapAround: assumes less than 2^64 bytes written per side, because the code gives no meaning to a wrapped sequence number.
- Recovery: the timers of redial and awaitResume are a step that may end recovery at any time; the bound on redialing is in `Redial.dfy`.
- RetryLoop.Retry: stated over the outcomes of a finite number of sessions, because the loop itself need not end.
- ResumableConns.ResumableConn.Close: the close of the broadcast channel is in `Recovery.dfy`, that of the socket is a step of `Protocol.dfy`.
- ResumableConns.ResumableConn.Replay: of what the reader does between two frames only its receive position is given; the rest is in `Protocol.dfy`.
- yamux, relaying, the proxy dialer, `pick` and `OpenStream`: libraries or simple plumbing whose properties would be easy ones.
- sshd management, process detection, state and configuration files, logging, commands and scripts: input and output only.
