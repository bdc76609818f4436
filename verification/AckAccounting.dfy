/**
 `ackSent`, the heartbeat's `behind` test and the draining of replay buffers.
 */
module AckAccounting {
  import opened Bytes
  import opened Endpoints
  import opened Protocol
  import opened Invariant
  import opened Preservation
  import opened HonestPeers
  import opened Reconnection
  import opened Schedules

  /** One step of Stray. */
  function StrayStep(s: System, st: Step, x: Side, stray: nat): nat
    requires CanStep(s, st)
  {
    var n := Get(s, x);
    if st == Local(x, Commit) then 0
    else if st == Local(x, NoteSent) && n.writer.Sent? && n.e.ws != Some(n.writer.conn) then Max(stray, n.writer.ack)
    else stray
  }

  function StrayFrom(s: System, run: seq<Step>, x: Side, stray: nat): nat
    requires Legal(s, run)
    decreases |run|
  {
    if run == [] then stray else StrayFrom(DoStep(s, run[0]), run[1..], x, StrayStep(s, run[0], x, stray))
  }

  /** The highest ack that `x` sent on a connection other than its current one, since its last commit. */
  function Stray(run: seq<Step>, x: Side): nat
    requires Legal(Init(), run)
  {
    StrayFrom(Init(), run, x, 0)
  }

  /**
   `ackSent` is the larger of the last ack put on the current connection and the
   stray ones; while a frame is on the wire and not noted yet, it is between.
   */
  ghost predicate AckCounted(n: Node, c: ConnId, stray: nat)
    requires c < |n.out|
  {
    var last := LastAck(n.out[c].log);
    !n.out[c].cut ==>
      if n.writer.Sent? && n.writer.conn == c
      then stray <= n.e.ackSent <= Max(last, stray) && last == n.writer.ack
      else n.e.ackSent == Max(last, stray)
  }

  ghost predicate Counted(n: Node, stray: nat) {
    n.e.ws.Some? ==> n.e.ws.value < |n.out| && AckCounted(n, n.e.ws.value, stray)
  }

  lemma CountPut(me: Node, peer: Node, fate: Fate, stray: nat)
    requires Inv(me, peer) && Counted(me, stray) && me.writer.Loaded? && me.writer.conn < |me.out|
    ensures Counted(DoPut(me, fate), stray)
  {
    hide BufferOk, DeliveryOk, ReaderOk, ConnOk, RunAt, AllNonEmpty, Boundary;
    var log := me.out[me.writer.conn].log;
    assert log != [] ==> LastAck(log) == log[|log| - 1].ack;
  }

  lemma CountNote(me: Node, stray: nat)
    requires Counted(me, stray) && me.writer.Sent?
    ensures Counted(DoNote(me), if me.e.ws == Some(me.writer.conn) then stray else Max(stray, me.writer.ack))
  {
    hide LastAck;
  }

  /** The last thing this side put on a connection it is about to make current is its hello. */
  lemma HelloIsLast(me: Node, peer: Node)
    requires Inv(me, peer) && me.writer.HelloGot?
    ensures me.writer.conn < |me.out| && me.e.ws == None
    ensures !me.out[me.writer.conn].cut ==> LastAck(me.out[me.writer.conn].log) == me.writer.myAck
  {
    var c := me.writer.conn;
    assert ConnOk(me, peer, c);
    assert me.delivered[..|me.delivered|] == me.delivered;
    hide BufferOk, ReaderOk, ConnOk, RunAt, AllNonEmpty, Boundary, Data, Total, Flat, StreamOk, PositionOk, AcksOk;
  }

  lemma CountCommit(me: Node, peer: Node)
    requires Inv(me, peer) && me.writer.HelloGot?
    ensures Counted(DoCommit(me), 0)
  {
    HelloIsLast(me, peer);
    hide Inv, LastAck, Trim;
  }

  lemma CountOther(me: Node, peer: Node, a: Action, stray: nat)
    requires Inv(me, peer) && Counted(me, stray) && Enabled(me, peer, a)
    requires !a.Commit? && !a.PutFrame? && !a.NoteSent? && !a.Process?
    ensures Counted(Apply(me, peer, a), stray)
  {
    hide BufferOk, DeliveryOk, ReaderOk, ConnOk, RunAt, AllNonEmpty, Boundary, Data, Total, Flat, Carry, LastAck;
  }

  lemma CountProcess(me: Node, stray: nat)
    requires Counted(me, stray) && me.reader.Holding?
    ensures Counted(DoProcess(me), stray)
  {
    hide Trim, LastAck;
  }

  lemma CountLocal(s: System, x: Side, a: Action, stray: nat)
    requires SystemInv(s) && Counted(Get(s, x), stray) && CanStep(s, Local(x, a))
    ensures Counted(Get(DoStep(s, Local(x, a)), x), StrayStep(s, Local(x, a), x, stray))
  {
    OneSide(s, x);
    hide SystemInv, Inv, Counted, DoPut, DoNote, DoCommit, DoProcess, Apply, Enabled;
    var me, peer := Get(s, x), Get(s, Other(x));
    if a.PutFrame? {
      PutIs(me, peer, a.fate);
      CountPut(me, peer, a.fate, stray);
    } else if a.NoteSent? {
      NoteIs(me, peer);
      CountNote(me, stray);
    } else if a.Commit? {
      CommitIs(me, peer);
      CountCommit(me, peer);
    } else if a.Process? {
      ProcessIs(me, peer);
      CountProcess(me, stray);
    } else {
      CountOther(me, peer, a, stray);
    }
  }

  /** The network and the peer can only cut what this side put on a connection. */
  lemma CountBystander(s: System, st: Step, x: Side, stray: nat)
    requires Counted(Get(s, x), stray) && CanStep(s, st) && !(st.Local? && st.x == x)
    ensures Counted(Get(DoStep(s, st), x), stray) && StrayStep(s, st, x, stray) == stray
  {
    hide Apply, Enabled, LastAck;
  }

  lemma {:induction false} CountRun(s: System, run: seq<Step>, x: Side, stray: nat)
    requires SystemInv(s) && Counted(Get(s, x), stray) && Legal(s, run)
    ensures Counted(Get(Exec(s, run), x), StrayFrom(s, run, x, stray))
    decreases |run|
  {
    hide SystemInv, Counted, StrayStep, Apply, Enabled;
    if run != [] {
      if run[0].Local? && run[0].x == x {
        CountLocal(s, x, run[0].a, stray);
      } else {
        CountBystander(s, run[0], x, stray);
      }
      KeepStep(s, run[0]);
      CountRun(DoStep(s, run[0]), run[1..], x, StrayStep(s, run[0], x, stray));
    }
  }

  lemma CountedHere(n: Node, c: ConnId, stray: nat)
    requires Counted(n, stray) && n.e.ws == Some(c)
    ensures c < |n.out| && AckCounted(n, c, stray)
  {
  }

  /**
   What `ackSent` is, in every run: whenever no writer is between its write and
   its bookkeeping, the larger of the highest ack on the current (uncut)
   connection and the highest stray one.  So it is what it is meant to be exactly
   when no stray ack exceeds what went out on the current connection.
   */
  lemma {:induction false} AckSentMeans(run: seq<Step>, x: Side, c: ConnId)
    requires Legal(Init(), run)
    requires var n := Get(Exec(Init(), run), x); n.e.ws == Some(c) && c < |n.out| && !n.out[c].cut && !n.writer.Sent?
    ensures var n := Get(Exec(Init(), run), x);
      && (forall i | 0 <= i < |n.out[c].log| :: n.out[c].log[i].ack <= LastAck(n.out[c].log))
      && n.e.ackSent == Max(LastAck(n.out[c].log), Stray(run, x))
      && (n.e.ackSent == LastAck(n.out[c].log) <==> Stray(run, x) <= LastAck(n.out[c].log))
  {
    InitOk();
    CountRun(Init(), run, x, 0);
    KeepRun(Init(), run);
    OneSide(Exec(Init(), run), x);
    var n, peer := Get(Exec(Init(), run), x), Get(Exec(Init(), run), Other(x));
    hide SystemInv, Legal, Exec;
    hide Inv, Boundary, Counted, StrayFrom;
    CountedHere(n, c, Stray(run, x));
    LogMonotone(n, peer, c);
  }

  lemma LogMonotone(me: Node, peer: Node, c: ConnId)
    requires Inv(me, peer) && c < |me.out|
    ensures forall i | 0 <= i < |me.out[c].log| :: me.out[c].log[i].ack <= LastAck(me.out[c].log)
  {
    assert ConnOk(me, peer, c);
    hide NodesOk, HelloOk, StreamOk, PositionOk, Boundary;
  }

  // ------------------------------------------------- why an ack is sent

  /** After a frame was accepted the reader owes an ack exactly when 256 KiB or more are unacknowledged. */
  lemma AckIsDue(me: Node)
    requires me.reader.Holding? && Accept(me.e, me.reader.conn, me.reader.frame).Accepted?
    ensures var n := DoProcess(me);
      && n.e.recvSeq == me.e.recvSeq + |me.reader.frame.payload| && n.e.ackSent == me.e.ackSent
      && n.reader == if n.e.recvSeq - n.e.ackSent >= 262_144 then Owing(me.reader.conn) else Resting
  {
    hide Trim;
  }

  /** At some point of the run `c` was current on `x`, with at least `gap` bytes received and not acknowledged. */
  ghost predicate WasBehind(s: System, run: seq<Step>, x: Side, c: ConnId, gap: nat)
    requires Legal(s, run)
    decreases |run|
  {
    var e := Get(s, x).e;
    || (e.ws == Some(c) && e.recvSeq >= e.ackSent + gap)
    || (run != [] && WasBehind(DoStep(s, run[0]), run[1..], x, c, gap))
  }

  /** The heartbeat of `c` waits for writeMu, or holds it. */
  predicate Flushing(n: Node, c: ConnId) {
    c in n.beats || n.flusher == Heartbeat(c)
  }

  lemma CauseLocal(me: Node, peer: Node, a: Action, c: ConnId)
    requires Enabled(me, peer, a)
    ensures var n := Apply(me, peer, a);
      && (Flushing(n, c) ==> Flushing(me, c) || (me.e.ws == Some(c) && me.e.recvSeq > me.e.ackSent))
      && (n.reader == Owing(c) ==> me.reader == Owing(c) || (n.e.ws == Some(c) && n.e.recvSeq >= n.e.ackSent + 262_144))
  {
    hide Trim, Data, Carry, Install;
  }

  lemma CauseBystander(s: System, st: Step, x: Side, c: ConnId)
    requires CanStep(s, st) && !(st.Local? && st.x == x)
    ensures var me, n := Get(s, x), Get(DoStep(s, st), x);
      (Flushing(n, c) <==> Flushing(me, c)) && n.reader == me.reader
  {
    hide Apply, Enabled;
  }

  lemma {:induction false} CauseRun(s: System, run: seq<Step>, x: Side, c: ConnId)
    requires Legal(s, run)
    ensures var me, n := Get(s, x), Get(Exec(s, run), x);
      && (Flushing(n, c) ==> Flushing(me, c) || WasBehind(s, run, x, c, 1))
      && (n.reader == Owing(c) ==> me.reader == Owing(c) || WasBehind(s, run, x, c, 262_144))
    decreases |run|
  {
    hide Flushing, Apply, Enabled;
    if run != [] {
      if run[0].Local? && run[0].x == x {
        CauseLocal(Get(s, x), Get(s, Other(x)), run[0].a, c);
      } else {
        CauseBystander(s, run[0], x, c);
      }
      CauseRun(DoStep(s, run[0]), run[1..], x, c);
    }
  }

  /**
   No ack without a cause: a heartbeat flushes only a connection on which it was
   once behind, and the reader only one on which 256 KiB were once unacknowledged.
   */
  lemma {:induction false} AcksHaveCauses(run: seq<Step>, x: Side, c: ConnId)
    requires Legal(Init(), run)
    ensures var n := Get(Exec(Init(), run), x);
      && (Flushing(n, c) ==> WasBehind(Init(), run, x, c, 1))
      && (n.reader == Owing(c) ==> WasBehind(Init(), run, x, c, 262_144))
  {
    hide WasBehind;
    CauseRun(Init(), run, x, c);
  }

  // ------------------------------------------------- no stray acks

  /** No connection is made current while an earlier one is still open on this side. */
  predicate TidyStep(s: System, st: Step, x: Side) {
    st == Local(x, Commit) ==> Get(s, x).installed <= Get(s, x).shut
  }

  predicate Tidy(s: System, run: seq<Step>, x: Side)
    requires Legal(s, run)
    decreases |run|
  {
    run == [] || (TidyStep(s, run[0], x) && Tidy(DoStep(s, run[0]), run[1..], x))
  }

  /** Only the current connection can carry a frame. */
  ghost predicate Neat(n: Node, stray: nat) {
    n.e.ws.Some? ==>
      var c := n.e.ws.value;
      && stray == 0
      && (forall d | d in n.installed && d != c :: d in n.shut)
      && (n.writer.Sent? ==> n.writer.conn == c)
  }

  lemma NeatPut(me: Node, peer: Node, fate: Fate, stray: nat)
    requires Inv(me, peer) && Neat(me, stray) && Enabled(me, peer, PutFrame(fate))
    ensures Neat(DoPut(me, fate), stray)
  {
    assert me.writer.conn in me.installed by { hide BufferOk, DeliveryOk, ReaderOk, ConnOk, RunAt; }
    hide Inv, Carry;
  }

  lemma NeatCommit(me: Node, peer: Node)
    requires Inv(me, peer) && me.writer.HelloGot? && me.installed <= me.shut
    ensures Neat(DoCommit(me), 0)
  {
    assert me.e.ws == None by { hide BufferOk, DeliveryOk, ReaderOk, ConnOk; }
    hide Inv, Trim;
  }

  lemma NeatProcess(me: Node, stray: nat)
    requires Neat(me, stray) && me.reader.Holding?
    ensures Neat(DoProcess(me), stray)
  {
    hide Trim;
  }

  lemma NeatNote(me: Node, stray: nat)
    requires Neat(me, stray) && me.writer.Sent?
    ensures Neat(DoNote(me), if me.e.ws == Some(me.writer.conn) then stray else Max(stray, me.writer.ack))
  {
  }

  lemma NeatOther(me: Node, peer: Node, a: Action, stray: nat)
    requires Neat(me, stray) && Enabled(me, peer, a)
    requires !a.Commit? && !a.PutFrame? && !a.NoteSent? && !a.Process?
    ensures Neat(Apply(me, peer, a), stray)
  {
    hide Carry, Trim;
  }

  lemma NeatLocal(s: System, x: Side, a: Action, stray: nat)
    requires SystemInv(s) && Neat(Get(s, x), stray) && CanStep(s, Local(x, a)) && TidyStep(s, Local(x, a), x)
    ensures Neat(Get(DoStep(s, Local(x, a)), x), StrayStep(s, Local(x, a), x, stray))
  {
    OneSide(s, x);
    hide SystemInv, Inv, Neat, DoPut, DoNote, DoCommit, DoProcess, Apply, Enabled;
    var me, peer := Get(s, x), Get(s, Other(x));
    if a.PutFrame? {
      PutIs(me, peer, a.fate);
      NeatPut(me, peer, a.fate, stray);
    } else if a.NoteSent? {
      NoteIs(me, peer);
      NeatNote(me, stray);
    } else if a.Commit? {
      CommitIs(me, peer);
      NeatCommit(me, peer);
    } else if a.Process? {
      ProcessIs(me, peer);
      NeatProcess(me, stray);
    } else {
      NeatOther(me, peer, a, stray);
    }
  }

  lemma NeatBystander(s: System, st: Step, x: Side, stray: nat)
    requires Neat(Get(s, x), stray) && CanStep(s, st) && !(st.Local? && st.x == x)
    ensures Neat(Get(DoStep(s, st), x), stray) && StrayStep(s, st, x, stray) == stray
  {
    hide Apply, Enabled;
  }

  lemma {:induction false} NeatRun(s: System, run: seq<Step>, x: Side, stray: nat)
    requires SystemInv(s) && Neat(Get(s, x), stray) && Legal(s, run) && Tidy(s, run, x)
    ensures Neat(Get(Exec(s, run), x), StrayFrom(s, run, x, stray))
    decreases |run|
  {
    hide SystemInv, Neat, TidyStep, StrayStep, Apply, Enabled;
    if run != [] {
      if run[0].Local? && run[0].x == x {
        NeatLocal(s, x, run[0].a, stray);
      } else {
        NeatBystander(s, run[0], x, stray);
      }
      KeepStep(s, run[0]);
      NeatRun(DoStep(s, run[0]), run[1..], x, StrayStep(s, run[0], x, stray));
    }
  }

  /**
   When this side never makes a connection current before it has closed the
   earlier ones, there is no stray ack, and `ackSent` is the highest ack put on
   the current connection.
   */
  lemma {:induction false} AckSentExact(run: seq<Step>, x: Side, c: ConnId)
    requires Legal(Init(), run) && Tidy(Init(), run, x)
    requires var n := Get(Exec(Init(), run), x); n.e.ws == Some(c) && c < |n.out| && !n.out[c].cut && !n.writer.Sent?
    ensures Stray(run, x) == 0
    ensures var n := Get(Exec(Init(), run), x);
      && n.e.ackSent == LastAck(n.out[c].log)
      && (forall i | 0 <= i < |n.out[c].log| :: n.out[c].log[i].ack <= n.e.ackSent)
  {
    InitOk();
    NeatRun(Init(), run, x, 0);
    AckSentMeans(run, x, c);
    hide SystemInv, Legal, Exec, Tidy, StrayFrom;
  }

  // ------------------------------------- stray acks that are not too high

  /** Whoever is about to read `recvSeq` for a frame on another connection than `c` finds that one closed. */
  ghost predicate OthersClosed(n: Node, c: ConnId) {
    && (forall d | d in n.beats && d != c :: d in n.shut)
    && (n.writer.Transmit? && n.writer.conn != c ==> n.writer.conn in n.shut)
  }

  /** Data is accepted only when no other connection can still carry an ack for it. */
  ghost predicate CalmStep(s: System, st: Step, x: Side) {
    var n := Get(s, x);
    st == Local(x, Process) && n.reader.Holding? && n.e.ws == Some(n.reader.conn) && n.reader.frame.payload != [] ==>
      OthersClosed(n, n.reader.conn)
  }

  ghost predicate Calm(s: System, run: seq<Step>, x: Side)
    requires Legal(s, run)
    decreases |run|
  {
    run == [] || (CalmStep(s, run[0], x) && Calm(DoStep(s, run[0]), run[1..], x))
  }

  /**
   Acks on their way to other connections are within what the current one has
   carried, and when data came in since, no more can be made for them.
   */
  ghost predicate ContainedOn(n: Node, c: ConnId, stray: nat)
    requires c < |n.out|
  {
    var last := LastAck(n.out[c].log);
    !n.out[c].cut ==>
      && stray <= last
      && (n.writer.Sent? && n.writer.conn != c ==> n.writer.ack <= last)
      && (n.writer.Loaded? && n.writer.conn != c ==> n.writer.ack <= last || n.writer.conn in n.shut)
      && (n.e.recvSeq > last ==> OthersClosed(n, c) && (n.reader.Owing? ==> n.reader.conn == c))
  }

  ghost predicate Contained(n: Node, stray: nat) {
    n.e.ws.Some? ==> n.e.ws.value < |n.out| && ContainedOn(n, n.e.ws.value, stray)
  }

  lemma ContainedPut(me: Node, peer: Node, fate: Fate, stray: nat)
    requires Inv(me, peer) && Contained(me, stray) && Enabled(me, peer, PutFrame(fate))
    ensures Contained(DoPut(me, fate), stray)
  {
    hide BufferOk, DeliveryOk, ReaderOk, ConnOk, RunAt, AllNonEmpty, Boundary;
    var log := me.out[me.writer.conn].log;
    assert log != [] ==> LastAck(log) == log[|log| - 1].ack;
  }

  lemma ContainedNote(me: Node, peer: Node, stray: nat)
    requires Inv(me, peer) && Contained(me, stray) && me.writer.Sent?
    ensures Contained(DoNote(me), if me.e.ws == Some(me.writer.conn) then stray else Max(stray, me.writer.ack))
  {
    hide LastAck, BufferOk, DeliveryOk, ReaderOk, ConnOk, RunAt, Total;
  }

  lemma ContainedCommit(me: Node, peer: Node)
    requires Inv(me, peer) && me.writer.HelloGot?
    ensures Contained(DoCommit(me), 0)
  {
    HelloIsLast(me, peer);
    assert me.e.recvSeq == me.writer.myAck by { hide ConnOk, BufferOk, DeliveryOk, ReaderOk; }
    hide Inv, LastAck, Trim;
  }

  lemma ContainedProcess(me: Node, stray: nat)
    requires Contained(me, stray) && me.reader.Holding?
    requires me.e.ws == Some(me.reader.conn) && me.reader.frame.payload != [] ==> OthersClosed(me, me.reader.conn)
    ensures Contained(DoProcess(me), stray)
  {
    hide Trim, LastAck;
  }

  lemma ContainedOther(me: Node, peer: Node, a: Action, stray: nat)
    requires Inv(me, peer) && Contained(me, stray) && Enabled(me, peer, a)
    requires !a.Commit? && !a.PutFrame? && !a.NoteSent? && !a.Process?
    ensures Contained(Apply(me, peer, a), stray)
  {
    hide BufferOk, DeliveryOk, ReaderOk, ConnOk, RunAt, AllNonEmpty, Boundary, Data, Total, Flat, Carry, LastAck;
  }

  lemma ContainedLocal(s: System, x: Side, a: Action, stray: nat)
    requires SystemInv(s) && Contained(Get(s, x), stray) && CanStep(s, Local(x, a)) && CalmStep(s, Local(x, a), x)
    ensures Contained(Get(DoStep(s, Local(x, a)), x), StrayStep(s, Local(x, a), x, stray))
  {
    OneSide(s, x);
    hide SystemInv, Inv, Contained, OthersClosed, DoPut, DoNote, DoCommit, DoProcess, Apply, Enabled;
    var me, peer := Get(s, x), Get(s, Other(x));
    if a.PutFrame? {
      PutIs(me, peer, a.fate);
      ContainedPut(me, peer, a.fate, stray);
    } else if a.NoteSent? {
      NoteIs(me, peer);
      ContainedNote(me, peer, stray);
    } else if a.Commit? {
      CommitIs(me, peer);
      ContainedCommit(me, peer);
    } else if a.Process? {
      ProcessIs(me, peer);
      ContainedProcess(me, stray);
    } else {
      ContainedOther(me, peer, a, stray);
    }
  }

  lemma ContainedBystander(s: System, st: Step, x: Side, stray: nat)
    requires Contained(Get(s, x), stray) && CanStep(s, st) && !(st.Local? && st.x == x)
    ensures Contained(Get(DoStep(s, st), x), stray) && StrayStep(s, st, x, stray) == stray
  {
    hide Apply, Enabled, LastAck;
  }

  lemma {:induction false} ContainedRun(s: System, run: seq<Step>, x: Side, stray: nat)
    requires SystemInv(s) && Contained(Get(s, x), stray) && Legal(s, run) && Calm(s, run, x)
    ensures Contained(Get(Exec(s, run), x), StrayFrom(s, run, x, stray))
    decreases |run|
  {
    hide SystemInv, Contained, CalmStep, StrayStep, Apply, Enabled;
    if run != [] {
      if run[0].Local? && run[0].x == x {
        ContainedLocal(s, x, run[0].a, stray);
      } else {
        ContainedBystander(s, run[0], x, stray);
      }
      KeepStep(s, run[0]);
      ContainedRun(DoStep(s, run[0]), run[1..], x, StrayStep(s, run[0], x, stray));
    }
  }

  lemma ContainedHere(n: Node, c: ConnId, stray: nat)
    requires Contained(n, stray) && n.e.ws == Some(c) && c < |n.out| && !n.out[c].cut
    ensures stray <= LastAck(n.out[c].log)
  {
  }

  /**
   Earlier connections may stay open for a while: `ackSent` is still the highest
   ack on the current connection if, whenever data is accepted, every other
   connection with an ack-only frame about to be built is closed by then.
   */
  lemma {:induction false} CalmIsExact(run: seq<Step>, x: Side, c: ConnId)
    requires Legal(Init(), run)
    ensures var n := Get(Exec(Init(), run), x);
      Calm(Init(), run, x) && n.e.ws == Some(c) && c < |n.out| && !n.out[c].cut && !n.writer.Sent? ==>
        Stray(run, x) <= LastAck(n.out[c].log) && n.e.ackSent == LastAck(n.out[c].log)
  {
    var n := Get(Exec(Init(), run), x);
    if Calm(Init(), run, x) && n.e.ws == Some(c) && c < |n.out| && !n.out[c].cut && !n.writer.Sent? {
      InitOk();
      ContainedRun(Init(), run, x, 0);
      AckSentMeans(run, x, c);
      hide SystemInv, Legal, Exec, Calm, StrayFrom, Contained;
      ContainedHere(n, c, Stray(run, x));
    }
  }

  /** An open endpoint has an empty replay buffer exactly when everything it sent is confirmed. */
  lemma DrainedIff(me: Node)
    requires BufferOk(me) && !me.e.closed
    ensures me.e.unacked == [] <==> me.e.unackedAt == me.e.sendSeq
  {
    var d := |me.segs| - |me.e.unacked|;
    assert me.segs[..|me.segs|] == me.segs;
    OffsetInjective(me.segs, d, |me.segs|);
  }

  /**
   The heartbeat's test, in every run: when this side has received all data and
   the peer has processed everything put on the shared connection, `recvSeq >
   ackSent` holds exactly when the peer still holds segments and no stray ack
   covers them.  Without stray acks above what the current connection carried, it
   holds exactly when the peer still holds segments.
   */
  lemma {:induction false} BehindIsExact(run: seq<Step>, x: Side, c: ConnId)
    requires Legal(Init(), run)
    requires var s := Exec(Init(), run); var me, peer := Get(s, x), Get(s, Other(x));
      && me.e.ws == Some(c) && peer.e.ws == Some(c) && c < |me.out| && c < |peer.got|
      && !me.out[c].cut && !me.writer.Sent?
      && !peer.reader.Holding? && peer.got[c] == |me.out[c].log|
      && me.e.recvSeq == peer.e.sendSeq
    ensures var s := Exec(Init(), run); var me, peer := Get(s, x), Get(s, Other(x));
      && (me.e.recvSeq > me.e.ackSent <==> peer.e.unacked != [] && Stray(run, x) < me.e.recvSeq)
      && (Stray(run, x) <= LastAck(me.out[c].log) ==> (me.e.recvSeq > me.e.ackSent <==> peer.e.unacked != []))
  {
    AckSentMeans(run, x, c);
    Reachable(run);
    var s := Exec(Init(), run);
    OneSide(s, x);
    var me, peer := Get(s, x), Get(s, Other(x));
    hide SystemInv, Legal, Exec, Stray;
    CurrentPosition(me, peer, c);
    OpenBuffer(peer, me);
    NotBeyond(peer);
    DrainedIff(peer);
    hide Inv, BufferOk;
  }

  lemma CurrentPosition(me: Node, peer: Node, c: ConnId)
    requires Inv(me, peer) && peer.e.ws == Some(c) && c < |me.out| && c < |peer.got|
    requires !peer.reader.Holding? && peer.got[c] == |me.out[c].log|
    ensures peer.e.unackedAt == LastAck(me.out[c].log)
    ensures me.e.ackSent <= me.e.recvSeq
  {
    assert ConnOk(me, peer, c);
    assert me.out[c].log[..|me.out[c].log|] == me.out[c].log;
    hide Data, Total, Flat, Boundary, RunAt;
  }

  lemma OpenBuffer(me: Node, peer: Node)
    requires Inv(me, peer) && me.e.ws.Some?
    ensures BufferOk(me) && !me.e.closed
  {
    hide ConnOk, RunAt, Total;
  }

  lemma NotBeyond(me: Node)
    requires BufferOk(me) && !me.e.closed
    ensures me.e.unackedAt <= me.e.sendSeq
  {
    TakeMonotone(me.segs, |me.segs| - |me.e.unacked|, |me.segs|);
  }

  // -------------------------------------------------------------- draining

  /** `run` leads from `s` to `t`. */
  ghost predicate Ran(s: System, run: seq<Step>, t: System) {
    Legal(s, run) && Exec(s, run) == t && Good(t)
  }

  lemma {:induction false} Do(s: System, run: seq<Step>, t: System, x: Side, a: Action) returns (t': System)
    requires Ran(s, run, t) && Enabled(Get(t, x), Get(t, Other(x)), a) && !a.BeginAttach?
    ensures Ran(s, run + [Local(x, a)], t')
    ensures Get(t', x) == Apply(Get(t, x), Get(t, Other(x)), a)
    ensures Get(t', Other(x)) == Get(t, Other(x))
  {
    hide SystemInv, Honest, Enabled, Apply;
    OneMore(s, run, Local(x, a));
    t' := DoStep(t, Local(x, a));
    KeepStep(t, Local(x, a));
    KeepHonest(t, Local(x, a));
  }

  /** Nothing is going on at this side of the live connection `c`; its reader may already wait for a message. */
  ghost predicate Quiet(n: Node, c: ConnId) {
    Caught(n.(reader := Resting), c) && (n.reader.Resting? || n.reader == Reading(c))
  }

  /** One tick of the heartbeat of `c`: silent unless an ack is unsent. */
  function Beat(n: Node, x: Side, c: ConnId): seq<Step> {
    if n.e.recvSeq > n.e.ackSent
    then [Local(x, SeeBehind(c)), Local(x, StartAck(c)), Local(x, LoadAck), Local(x, PutFrame(Arrives)), Local(x, NoteSent)]
    else []
  }

  function Pick(m: Node, y: Side): seq<Step> {
    if m.reader.Resting? then [Local(y, PickConn)] else []
  }

  /** The other side `m` receives what the tick of `n` sent, if anything. */
  function Hear(n: Node, m: Node, y: Side): seq<Step> {
    if n.e.recvSeq > n.e.ackSent
    then Pick(m, y) + [Local(y, Take), Local(y, Process)]
    else []
  }

  /** One tick on each side, then each receives what the other's sent. */
  function Round(s: System, c: ConnId): seq<Step> {
    Beat(s.client, Client, c) + Beat(s.server, Server, c) +
    Hear(s.client, s.server, Server) + Hear(s.server, s.client, Client)
  }

  /** A side after its tick sent one ack-only frame. */
  function Flushed(n: Node, c: ConnId): Node
    requires c < |n.out|
  {
    n.(e := NoteAck(n.e, n.e.recvSeq), out := n.out[c := Pipe(n.out[c].log + [Frame(n.e.recvSeq, [])], false)],
       beats := n.beats - {c}, flusher := Nobody)
  }

  function Ticked(n: Node, c: ConnId): Node
    requires c < |n.out|
  {
    if n.e.recvSeq > n.e.ackSent then Flushed(n, c) else n
  }

  lemma BeatSteps(me: Node, peer: Node, c: ConnId)
    requires Quiet(me, c) && me.e.recvSeq > me.e.ackSent
    ensures Enabled(me, peer, SeeBehind(c))
    ensures var m1 := Apply(me, peer, SeeBehind(c));
      && Enabled(m1, peer, StartAck(c))
      && var m2 := Apply(m1, peer, StartAck(c));
      && CanSend(m2) && FrameSent(m2) == Ticked(me, c)
  {
  }

  lemma {:induction false} RunBeat(s: System, run: seq<Step>, t: System, x: Side, c: ConnId) returns (t': System)
    requires Ran(s, run, t) && Quiet(Get(t, x), c)
    ensures c < |Get(t, x).out|
    ensures Ran(s, run + Beat(Get(t, x), x, c), t')
    ensures Get(t', x) == Ticked(Get(t, x), c) && Get(t', Other(x)) == Get(t, Other(x))
  {
    hide Ran;
    var b := Beat(Get(t, x), x, c);
    t' := t;
    if b != [] {
      BeatSteps(Get(t, x), Get(t, Other(x)), c);
      hide Quiet, Apply, Enabled, CanSend, FrameSent, Ticked;
      t' := Do(s, run, t', x, SeeBehind(c));
      t' := Do(s, run + [b[0]], t', x, StartAck(c));
      FrameSteps(Get(t', x), Get(t', Other(x)));
      t' := Do(s, run + [b[0]] + [b[1]], t', x, LoadAck);
      t' := Do(s, run + [b[0]] + [b[1]] + [b[2]], t', x, PutFrame(Arrives));
      t' := Do(s, run + [b[0]] + [b[1]] + [b[2]] + [b[3]], t', x, NoteSent);
      assert run + [b[0]] + [b[1]] + [b[2]] + [b[3]] + [b[4]] == run + b;
    } else {
      assert run + b == run;
    }
  }

  lemma {:induction false} RanWay(s: System, run: seq<Step>, t: System)
    requires Ran(s, run, t)
    ensures Way(s, t)
  {
    hide Good;
  }

  /** A frame that acknowledges everything empties the buffer. */
  lemma FullAck(s: System, t: System, x: Side)
    requires Way(s, t) && Get(t, x).reader.Holding? && Get(t, x).e.ws == Some(Get(t, x).reader.conn)
    requires Get(t, x).reader.frame.ack == Get(t, x).e.sendSeq
    ensures var me := Get(t, x);
      && Accept(me.e, me.reader.conn, me.reader.frame).Accepted?
      && Accept(me.e, me.reader.conn, me.reader.frame).e.unacked == []
  {
    Acceptable(s, t, x);
    OnTheWay(s, t, x);
    var me, peer := Get(t, x), Get(t, Other(x));
    hide Way, ConnOk, BufferOk, DeliveryOk, WriterOk, ReaderOk, Trim, Data, Total, RunAt, AllNonEmpty;
    HoldingFacts(me, peer);
    NextSegment(peer, me);
    AckEffect(me, peer, me.reader.frame.ack);
    var e' := AckLocked(me.e, me.reader.frame.ack).value;
    DrainedIff(me.(e := e'));
    NotBeyond(me.(e := e'));
  }

  /** The peer's ack-only frame is next, and it acknowledges everything this side sent. */
  ghost predicate AckArrived(n: Node, peer: Node, c: ConnId) {
    && Quiet(n, c) && n.e.recvSeq == n.e.ackSent
    && c < |peer.out| && n.got[c] + 1 == |peer.out[c].log|
    && peer.out[c].log[n.got[c]] == Frame(n.e.sendSeq, [])
  }

  lemma PickEffect(me: Node, peer: Node, c: ConnId)
    requires Quiet(me, c) && me.reader.Resting?
    ensures Enabled(me, peer, PickConn) && Apply(me, peer, PickConn) == me.(reader := Reading(c))
  {
  }

  lemma TakeEffect(me: Node, peer: Node, c: ConnId)
    requires AckArrived(me, peer, c)
    ensures c < |me.got| && Enabled(me.(reader := Reading(c)), peer, Take)
    ensures Apply(me.(reader := Reading(c)), peer, Take) == AckInHand(me, c)
  {
  }

  lemma ProcessEffect(me: Node, peer: Node)
    requires me.reader.Holding? && me.reader.frame.payload == [] && me.e.ws == Some(me.reader.conn)
    requires me.e.pending == [] && me.e.recvSeq == me.e.ackSent
    requires Accept(me.e, me.reader.conn, me.reader.frame).Accepted?
    ensures Enabled(me, peer, Process)
    ensures Apply(me, peer, Process) ==
            me.(e := Accept(me.e, me.reader.conn, me.reader.frame).e, reader := Resting)
    ensures var e' := Accept(me.e, me.reader.conn, me.reader.frame).e;
      e' == me.e.(unacked := e'.unacked, unackedAt := e'.unackedAt)
  {
    hide Trim;
    assert me.delivered + [] == me.delivered;
  }

  ghost predicate HeardAck(n: Node, n': Node, c: ConnId) {
    && c < |n.got| && n' == n.(e := n'.e, got := n.got[c := n.got[c] + 1], reader := Resting)
    && n'.e == n.e.(unacked := [], unackedAt := n'.e.unackedAt)
  }

  function AckInHand(n: Node, c: ConnId): Node
    requires c < |n.got|
  {
    n.(got := n.got[c := n.got[c] + 1], reader := Holding(c, Frame(n.e.sendSeq, [])))
  }

  lemma {:induction false} RunTake(s: System, run: seq<Step>, t: System, y: Side, c: ConnId) returns (t': System)
    requires Ran(s, run, t) && AckArrived(Get(t, y), Get(t, Other(y)), c)
    ensures Ran(s, run + Pick(Get(t, y), y) + [Local(y, Take)], t')
    ensures Get(t', Other(y)) == Get(t, Other(y)) && c < |Get(t, y).got|
    ensures Get(t', y) == AckInHand(Get(t, y), c)
  {
    var n, peer := Get(t, y), Get(t, Other(y));
    assert Quiet(n, c);
    TakeEffect(n, peer, c);
    hide Ran, Apply, Enabled, AckArrived, Get, Other;
    t' := t;
    if n.reader.Resting? {
      PickEffect(n, peer, c);
      t' := Do(s, run, t, y, PickConn);
    } else {
      assert n == n.(reader := Reading(c));
      assert run + [] == run;
    }
    t' := Do(s, run + Pick(n, y), t', y, Take);
  }

  /** The ack in hand is accepted and empties the buffer. */
  lemma Heard(s: System, t: System, y: Side, n: Node, c: ConnId)
    requires Way(s, t) && AckArrived(n, Get(t, Other(y)), c) && Get(t, y) == AckInHand(n, c)
    ensures Enabled(Get(t, y), Get(t, Other(y)), Process)
    ensures HeardAck(n, Apply(Get(t, y), Get(t, Other(y)), Process), c)
  {
    assert Quiet(n, c);
    hide Way, Get, Accept, Apply, Enabled;
    FullAck(s, t, y);
    ProcessEffect(Get(t, y), Get(t, Other(y)));
  }

  /** Reading the ack empties the buffer and changes nothing else. */
  lemma {:induction false} RunHear(s: System, run: seq<Step>, t: System, y: Side, c: ConnId) returns (t': System)
    requires Ran(s, run, t) && AckArrived(Get(t, y), Get(t, Other(y)), c)
    ensures Ran(s, run + Pick(Get(t, y), y) + [Local(y, Take)] + [Local(y, Process)], t')
    ensures Get(t', Other(y)) == Get(t, Other(y))
    ensures HeardAck(Get(t, y), Get(t', y), c)
  {
    hide Ran, Apply, Enabled, AckArrived, HeardAck, Get, Other, Pick;
    t' := RunTake(s, run, t, y, c);
    RanWay(s, run + Pick(Get(t, y), y) + [Local(y, Take)], t');
    Heard(s, t', y, Get(t, y), c);
    t' := Do(s, run + Pick(Get(t, y), y) + [Local(y, Take)], t', y, Process);
  }

  lemma {:induction false} RunHearIf(s: System, run: seq<Step>, t: System, n: Node, y: Side, c: ConnId) returns (t': System)
    requires Ran(s, run, t)
    requires n.e.recvSeq > n.e.ackSent ==> AckArrived(Get(t, y), Get(t, Other(y)), c)
    ensures Ran(s, run + Hear(n, Get(t, y), y), t') && Get(t', Other(y)) == Get(t, Other(y))
    ensures if n.e.recvSeq > n.e.ackSent then HeardAck(Get(t, y), Get(t', y), c) else Get(t', y) == Get(t, y)
  {
    hide Ran;
    t' := t;
    if n.e.recvSeq > n.e.ackSent {
      t' := RunHear(s, run, t, y, c);
      assert run + Pick(Get(t, y), y) + [Local(y, Take)] + [Local(y, Process)] == run + Hear(n, Get(t, y), y);
    } else {
      assert run + [] == run;
    }
  }

  /** What one tick puts on the connection. */
  function Sends(n: Node): seq<Frame> {
    if n.e.recvSeq > n.e.ackSent then [Frame(n.e.recvSeq, [])] else []
  }

  /** Both sides are idle on the live connection `c` and have processed everything the other ever sent. */
  ghost predicate AllReceived(s: System, c: ConnId) {
    && Quiet(s.client, c) && Quiet(s.server, c)
    && c < |s.client.out| && c < |s.client.got| && c < |s.server.out| && c < |s.server.got|
    && s.client.got[c] == |s.server.out[c].log| && s.server.got[c] == |s.client.out[c].log|
    && s.client.e.recvSeq == s.server.e.sendSeq && s.server.e.recvSeq == s.client.e.sendSeq
  }

  /** The state after one heartbeat on each side: `n` was `n0`, and `peer0` was its peer. */
  ghost predicate AfterRound(n0: Node, peer0: Node, n: Node, c: ConnId)
    requires c < |n0.out|
  {
    && Quiet(n, c) && c < |n.out| && n.out[c].log == n0.out[c].log + Sends(n0)
    && n.e.unacked == (if peer0.e.recvSeq > peer0.e.ackSent then [] else n0.e.unacked)
    && n.e.recvSeq == n.e.ackSent == n0.e.recvSeq && n.e.sendSeq == n0.e.sendSeq
  }

  /** `n0` has received everything `peer0` sent, and confirmation of all it sent itself is what the peer's tick brings. */
  ghost predicate Abreast(n0: Node, peer0: Node, c: ConnId) {
    && Quiet(n0, c) && Quiet(peer0, c) && n0.e.ackSent <= n0.e.recvSeq
    && c < |n0.got| && c < |peer0.out| && n0.got[c] == |peer0.out[c].log|
    && peer0.e.recvSeq == n0.e.sendSeq
  }

  lemma TickArrives(n0: Node, peer0: Node, peer: Node, c: ConnId)
    requires Abreast(n0, peer0, c) && peer0.e.recvSeq > peer0.e.ackSent
    requires peer.out == Ticked(peer0, c).out
    ensures c < |n0.out| && AckArrived(Ticked(n0, c), peer, c)
  {
  }

  lemma RoundOver(n0: Node, peer0: Node, n: Node, c: ConnId)
    requires Abreast(n0, peer0, c) && c < |n0.out|
    requires if peer0.e.recvSeq > peer0.e.ackSent then HeardAck(Ticked(n0, c), n, c) else n == Ticked(n0, c)
    ensures AfterRound(n0, peer0, n, c)
  {
  }

  lemma SameReader(n: Node, c: ConnId)
    requires c < |n.out|
    ensures Ticked(n, c).reader == n.reader
    ensures forall m, y :: Hear(m, Ticked(n, c), y) == Hear(m, n, y)
  {
  }

  lemma RunRound(s: System, c: ConnId) returns (t: System)
    requires Good(s) && Abreast(s.client, s.server, c) && Abreast(s.server, s.client, c)
    requires c < |s.client.out| && c < |s.server.out|
    ensures Ran(s, Round(s, c), t)
    ensures AfterRound(s.client, s.server, t.client, c) && AfterRound(s.server, s.client, t.server, c)
  {
    assert Legal(s, []) && Exec(s, []) == s;
    assert Ran(s, [], s);
    hide Ran, Quiet, Ticked, Beat, Hear, AckArrived, AfterRound, Good;
    var b1, b2, h1 := Beat(s.client, Client, c), Beat(s.server, Server, c), Hear(s.client, s.server, Server);
    t := RunBeat(s, [], s, Client, c);
    assert [] + b1 == b1;
    t := RunBeat(s, b1, t, Server, c);
    if s.client.e.recvSeq > s.client.e.ackSent {
      TickArrives(s.server, s.client, t.client, c);
    }
    assert Hear(s.client, t.server, Server) == h1 by { SameReader(s.server, c); }
    t := RunHearIf(s, b1 + b2, t, s.client, Server, c);
    if s.server.e.recvSeq > s.server.e.ackSent {
      TickArrives(s.client, s.server, t.server, c);
    }
    RoundOver(s.server, s.client, t.server, c);
    assert Hear(s.server, t.client, Client) == Hear(s.server, s.client, Client) by { SameReader(s.client, c); }
    t := RunHearIf(s, b1 + b2 + h1, t, s.server, Client, c);
    RoundOver(s.client, s.server, t.client, c);
  }

  /**
   One heartbeat, in every run: both ends share a live connection, are idle and
   have received everything.  One tick on each side puts at most one ack-only
   frame on the connection, and only where `recvSeq > ackSent`; once these are
   received a replay buffer is empty exactly when it was before, or no stray ack
   of the other side reaches that side's receive position.
   */
  lemma {:induction false} HeartbeatRound(run: seq<Step>, c: ConnId)
    requires Legal(Init(), run) && AllReceived(Exec(Init(), run), c)
    ensures var s := Exec(Init(), run);
      && Legal(s, Round(s, c))
      && var t := Exec(s, Round(s, c));
      && AfterRound(s.client, s.server, t.client, c) && AfterRound(s.server, s.client, t.server, c)
      && (t.server.e.unacked == [] <==> s.server.e.unacked == [] || Stray(run, Client) < s.client.e.recvSeq)
      && (t.client.e.unacked == [] <==> s.client.e.unacked == [] || Stray(run, Server) < s.server.e.recvSeq)
  {
    var s := Exec(Init(), run);
    BehindIsExact(run, Client, c);
    BehindIsExact(run, Server, c);
    InitOk();
    InitHonest();
    KeepRun(Init(), run);
    HonestRun(Init(), run);
    OneSide(s, Client);
    OneSide(s, Server);
    AckSentBound(s.client, s.server);
    AckSentBound(s.server, s.client);
    hide SystemInv, Honest, Inv, Stray, Round, Legal, Exec;
    var t := RunRound(s, c);
  }

  lemma AckSentBound(me: Node, peer: Node)
    requires Inv(me, peer)
    ensures me.e.ackSent <= me.e.recvSeq
  {
    hide ConnOk, BufferOk, WriterOk, ReaderOk;
  }

  /**
   Drain: in that situation, when no stray ack exceeds what the current connection
   carried, one heartbeat each way empties both replay buffers.
   */
  lemma {:induction false} HeartbeatsDrain(run: seq<Step>, c: ConnId)
    requires Legal(Init(), run) && AllReceived(Exec(Init(), run), c)
    requires var s := Exec(Init(), run);
      Stray(run, Client) <= LastAck(s.client.out[c].log) && Stray(run, Server) <= LastAck(s.server.out[c].log)
    ensures var s := Exec(Init(), run);
      && Legal(s, Round(s, c))
      && Exec(s, Round(s, c)).client.e.unacked == [] && Exec(s, Round(s, c)).server.e.unacked == []
  {
    HeartbeatRound(run, c);
    BehindIsExact(run, Client, c);
    BehindIsExact(run, Server, c);
    hide Legal, Exec, Round, Stray;
  }
}
