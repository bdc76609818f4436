/**
 Two endpoints and the connections between them as a state machine.

 One action is one `mu` critical section, one message put on or taken off a
 connection, or one move of the adversary.  The holder of `writeMu` is explicit
 (`Writer`), so that Write, attach, replay, ack-only frames and the reader
 interleave as the goroutines do.
 */
module Protocol {
  import opened Bytes
  import opened Endpoints

  datatype Side = Client | Server

  /**
   One direction of one connection: every message put on it that is not lost,
   oldest first.  Once `cut`, nothing put later arrives.
   */
  datatype Pipe = Pipe(log: seq<Frame>, cut: bool)

  /** What the holder of writeMu is about to do.  `todo == []` is one frame without payload. */
  datatype Writer =
    | Idle
    | Transmit(conn: ConnId, todo: seq<Segment>)              // writeFrame called
    | Loaded(conn: ConnId, todo: seq<Segment>, ack: nat)      // recvSeq read, nothing on the wire
    | Sent(conn: ConnId, todo: seq<Segment>, ack: nat)        // on the wire, ackSent not updated
    | HelloOut(conn: ConnId, myAck: nat)                      // second detach done
    | HelloWait(conn: ConnId, myAck: nat)                     // hello written
    | HelloGot(conn: ConnId, myAck: nat, peerAck: nat)        // peer's hello read
  {
    predicate Shaking() { HelloOut? || HelloWait? || HelloGot? }
    predicate Framing() { Transmit? || Loaded? || Sent? }
  }

  datatype Reader =
    | Resting
    | Reading(conn: ConnId)                // blocked in ReadMessage
    | Holding(conn: ConnId, frame: Frame)  // message read, mu not yet taken
    | Owing(conn: ConnId)                  // needAck: at TryLock, or sending that ack

  /** Whose ack-only frame it is that holds writeMu. */
  datatype Flusher =
    | Nobody
    | Heartbeat(conn: ConnId)
    | ReadLoop

  /** An endpoint with its goroutines, its ends of the connections and its history. */
  datatype Node = Node(
    e: Endpoint,
    writer: Writer,
    reader: Reader,
    beats: set<ConnId>,        // heartbeats that saw `behind` and wait for writeMu
    flusher: Flusher,
    out: seq<Pipe>,            // per connection: what this side put on it
    got: seq<nat>,             // per connection: how many of the peer's messages this side took
    begun: set<ConnId>,        // connections whose handshake reached the second detach
    installed: set<ConnId>,    // connections that were made current
    shut: set<ConnId>,         // connections closed by this side
    mark: seq<nat>,            // history: |delivered| when the handshake began
    segs: seq<Segment>,        // history: every payload Write accepted
    delivered: seq<Segment>,   // history: every non-empty payload the reader accepted
    returned: seq<Byte>,       // history: every byte Read handed out
    accused: bool              // history: closed the session with errProtocol
  )

  datatype System = System(client: Node, server: Node)

  function Get(s: System, x: Side): Node {
    if x == Client then s.client else s.server
  }

  function Other(x: Side): Side {
    if x == Client then Server else Client
  }

  function Put(s: System, x: Side, n: Node): System {
    if x == Client then s.(client := n) else s.(server := n)
  }

  function FreshNode(): Node {
    Node(Fresh, Idle, Resting, {}, Nobody, [Pipe([], false)], [0], {0}, {0}, {}, [0], [], [], [], false)
  }

  function Init(): System {
    System(FreshNode(), FreshNode())
  }

  /** Does the message arrive, and what does the writer see? */
  datatype Fate = Arrives | Vanishes | ErrorArrives | ErrorLost

  datatype Action =
    | Write(data: Segment)
    | SeeBehind(conn: ConnId)      // the heartbeat of conn finds it current and an ack unsent
    | StartAck(conn: ConnId)       // that heartbeat has writeMu; conn may be stale by now
    | TryAck                       // Read's TryLock
    | LoadAck
    | PutFrame(fate: Fate)
    | NoteSent
    | BeginAttach(conn: ConnId)    // writeMu taken, second detach
    | PutHello(fate: Fate)
    | TakeHello
    | FailAttach                   // handshake error or timeout
    | Commit
    | Drop                         // broken, or the first detach of any attach
    | Shut(conn: ConnId)           // ws.Close on a connection this side has used
    | PickConn
    | Take
    | FailRead
    | Process
    | HandOutBytes(n: nat)
    | Cancel
    | CloseCritical

  datatype Step =
    | Local(x: Side, a: Action)
    | Dial                                        // a new connection reaches both machines
    | Lose(x: Side, conn: ConnId, keep: nat)      // of what x put on conn only the first `keep` arrive

  function Solid(p: Segment): seq<Segment> {
    if p == [] then [] else [p]
  }

  /** The non-empty payloads of a list of messages. */
  function Data(log: seq<Frame>): seq<Segment> {
    if log == [] then [] else Data(log[..|log| - 1]) + Solid(log[|log| - 1].payload)
  }

  function Next(todo: seq<Segment>): Segment {
    if todo == [] then [] else todo[0]
  }

  function Rest(todo: seq<Segment>): seq<Segment> {
    if todo == [] then [] else todo[1..]
  }

  predicate Succeeds(fate: Fate) {
    fate.Arrives? || fate.Vanishes?
  }

  /** The effect of one put on a pipe; anything but a clean arrival cuts it. */
  function Carry(p: Pipe, f: Frame, fate: Fate): Pipe {
    if p.cut then p
    else match fate
      case Arrives => Pipe(p.log + [f], false)
      case Vanishes => Pipe(p.log, true)
      case ErrorArrives => Pipe(p.log + [f], true)
      case ErrorLost => Pipe(p.log, true)
  }

  predicate Enabled(me: Node, peer: Node, a: Action) {
    match a
    case Write(data) => me.writer.Idle? && data != [] && !me.e.cancelled
    case SeeBehind(c) =>
      && me.e.ws == Some(c) && me.e.recvSeq > me.e.ackSent
      && (me.writer.Idle? || me.flusher != Heartbeat(c))
    case StartAck(c) => me.writer.Idle? && c in me.beats
    case TryAck => me.reader.Owing? && (me.writer.Idle? || me.flusher != ReadLoop)
    case LoadAck => me.writer.Transmit?
    case PutFrame(fate) =>
      && me.writer.Loaded? && me.writer.conn < |me.out|
      && (Succeeds(fate) ==> me.writer.conn !in me.shut)
    case NoteSent => me.writer.Sent?
    case BeginAttach(c) =>
      && me.writer.Idle? && c < |me.out| && c < |me.mark| && c !in me.begun
    case PutHello(fate) =>
      && me.writer.HelloOut? && me.writer.conn < |me.out|
      && (Succeeds(fate) ==> me.writer.conn !in me.shut)
    case TakeHello =>
      && me.writer.HelloWait?
      && var c := me.writer.conn;
      && c < |me.got| && c < |peer.out| && me.got[c] < |peer.out[c].log|
    case FailAttach => me.writer.HelloOut? || me.writer.HelloWait?
    case Commit => me.writer.HelloGot?
    case Drop => true
    case Shut(c) => c in me.begun
    case PickConn => me.reader.Resting? && me.e.pending == [] && me.e.ws.Some?
    case Take =>
      && me.reader.Reading?
      && var c := me.reader.conn;
      && c < |me.got| && c < |peer.out| && me.got[c] < |peer.out[c].log|
    case FailRead => me.reader.Reading?
    case Process => me.reader.Holding?
    case HandOutBytes(n) => me.reader.Resting? && n <= |me.e.pending|
    case Cancel => true
    case CloseCritical => me.e.cancelled
  }

  function DoCommit(me: Node): Node
    requires me.writer.HelloGot?
  {
    var HelloGot(c, myAck, peerAck) := me.writer;
    if me.e.cancelled then me.(writer := Idle)
    else match Install(me.e, c, myAck, peerAck)
      case Refused(e') => me.(e := e'.(cancelled := true), writer := Idle, accused := true)
      case Installed(e', replay) =>
        me.(e := e', installed := me.installed + {c},
            writer := if replay == [] then Idle else Transmit(c, replay))
  }

  function DoProcess(me: Node): Node
    requires me.reader.Holding?
  {
    match Accept(me.e, me.reader.conn, me.reader.frame)
    case Discarded => me.(reader := Resting)
    case Violation => me.(reader := Resting, e := me.e.(cancelled := true), accused := true)
    case Accepted(e') =>
      me.(reader := if e'.recvSeq - e'.ackSent >= ACK_EVERY then Owing(me.reader.conn) else Resting,
          e := e', delivered := me.delivered + Solid(me.reader.frame.payload))
  }

  /** writeMu is given back; a reader that sent the ack goes on. */
  function Release(me: Node): Node {
    me.(writer := Idle, flusher := Nobody,
        reader := if me.flusher == ReadLoop && me.reader.Owing? then Resting else me.reader)
  }

  function DoPut(me: Node, fate: Fate): Node
    requires me.writer.Loaded? && me.writer.conn < |me.out|
  {
    var Loaded(c, todo, ack) := me.writer;
    var me' := me.(out := me.out[c := Carry(me.out[c], Frame(ack, Next(todo)), fate)]);
    if Succeeds(fate) then me'.(writer := Sent(c, Rest(todo), ack)) else Release(me')
  }

  function DoNote(me: Node): Node
    requires me.writer.Sent?
  {
    var me' := me.(e := NoteAck(me.e, me.writer.ack));
    if me.writer.todo == [] then Release(me') else me'.(writer := Transmit(me.writer.conn, me.writer.todo))
  }

  function Apply(me: Node, peer: Node, a: Action): Node
    requires Enabled(me, peer, a)
  {
    match a
    case Write(data) =>
      me.(e := Append(me.e, data), segs := me.segs + [data],
          writer := if me.e.ws.Some? then Transmit(me.e.ws.value, [data]) else Idle)
    case SeeBehind(c) => me.(beats := me.beats + {c})
    case StartAck(c) => me.(writer := Transmit(c, []), beats := me.beats - {c}, flusher := Heartbeat(c))
    case TryAck =>
      if me.writer.Idle?
      then me.(writer := Transmit(me.reader.conn, []), flusher := ReadLoop)
      else me.(reader := Resting)
    case LoadAck => me.(writer := Loaded(me.writer.conn, me.writer.todo, me.e.recvSeq))
    case PutFrame(fate) => DoPut(me, fate)
    case NoteSent => DoNote(me)
    case BeginAttach(c) =>
      me.(e := Detach(me.e), writer := HelloOut(c, me.e.recvSeq),
          begun := me.begun + {c}, mark := me.mark[c := |me.delivered|])
    case PutHello(fate) =>
      var HelloOut(c, myAck) := me.writer;
      me.(out := me.out[c := Carry(me.out[c], Frame(myAck, []), fate)],
          writer := if Succeeds(fate) then HelloWait(c, myAck) else Idle)
    case TakeHello =>
      var HelloWait(c, myAck) := me.writer;
      var f := peer.out[c].log[me.got[c]];
      me.(got := me.got[c := me.got[c] + 1],
          writer := if f.payload == [] then HelloGot(c, myAck, f.ack) else Idle)
    case FailAttach => me.(writer := Idle)
    case Commit => DoCommit(me)
    case Drop => me.(e := Detach(me.e))
    case Shut(c) => me.(shut := me.shut + {c})
    case PickConn => me.(reader := Reading(me.e.ws.value))
    case Take =>
      var c := me.reader.conn;
      me.(got := me.got[c := me.got[c] + 1], reader := Holding(c, peer.out[c].log[me.got[c]]))
    case FailRead => me.(reader := Resting)
    case Process => DoProcess(me)
    case HandOutBytes(n) => me.(e := HandOut(me.e, n), returned := me.returned + me.e.pending[..n])
    case Cancel => me.(e := me.e.(cancelled := true))
    case CloseCritical => me.(e := CloseNow(me.e))
  }

  /** Connections are dialled by the client's supervisor only: one attach at a time, the newest connection, no current one. */
  predicate ClientMay(me: Node, a: Action) {
    a.BeginAttach? ==> a.conn + 1 == |me.out|
  }

  predicate CanStep(s: System, st: Step) {
    match st
    case Local(x, a) => Enabled(Get(s, x), Get(s, Other(x)), a) && (x == Client ==> ClientMay(s.client, a))
    case Dial => s.client.e.ws == None && !s.client.writer.Shaking()
    case Lose(x, c, keep) =>
      var me, peer := Get(s, x), Get(s, Other(x));
      c < |me.out| && c < |peer.got| && peer.got[c] <= keep <= |me.out[c].log|
  }

  function AddConn(n: Node): Node {
    n.(out := n.out + [Pipe([], false)], got := n.got + [0], mark := n.mark + [0])
  }

  function LoseTail(n: Node, c: ConnId, keep: nat): Node
    requires c < |n.out| && keep <= |n.out[c].log|
  {
    n.(out := n.out[c := Pipe(n.out[c].log[..keep], true)])
  }

  function DoStep(s: System, st: Step): System
    requires CanStep(s, st)
  {
    match st
    case Local(x, a) => Put(s, x, Apply(Get(s, x), Get(s, Other(x)), a))
    case Dial => System(AddConn(s.client), AddConn(s.server))
    case Lose(x, c, keep) => Put(s, x, LoseTail(Get(s, x), c, keep))
  }

  /** Everything but the side's own actions leaves its endpoint and its writer alone. */
  lemma {:induction false} Bystander(s: System, st: Step, x: Side)
    requires CanStep(s, st) && !(st.Local? && st.x == x)
    ensures var n, n' := Get(s, x), Get(DoStep(s, st), x);
      n'.e == n.e && n'.writer == n.writer && n'.segs == n.segs
  {
    hide Apply, Enabled;
  }

  /** `run` can be executed from `s`, step after step. */
  predicate Legal(s: System, run: seq<Step>)
    decreases |run|
  {
    run == [] || (CanStep(s, run[0]) && Legal(DoStep(s, run[0]), run[1..]))
  }

  function Exec(s: System, run: seq<Step>): System
    requires Legal(s, run)
    decreases |run|
  {
    if run == [] then s else Exec(DoStep(s, run[0]), run[1..])
  }

  lemma {:induction false} Concat(s: System, a: seq<Step>, b: seq<Step>)
    requires Legal(s, a) && Legal(Exec(s, a), b)
    ensures Legal(s, a + b) && Exec(s, a + b) == Exec(Exec(s, a), b)
    decreases |a|
  {
    if a == [] {
      assert a + b == b;
    } else {
      assert (a + b)[1..] == a[1..] + b;
      Concat(DoStep(s, a[0]), a[1..], b);
    }
  }
}
