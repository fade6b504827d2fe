/**
 net/TcpConnection.cc and the dispatch in net/Channel.cc: the life of one connection in its loop thread.

 `Conn` is a connection with its channel's interest and poller slot, what it still has to write, and
 what it has done: the bytes given to the kernel, the messages accepted, the write sides shut down, the
 callbacks made.  The functions on it are the member functions; a call to the user's code is a mark in
 the log or a notice queued in the loop.  The class `TcpConnection` does the same with the objects.
 */
module TcpConnections {
  import opened Endian
  import opened Options
  import opened Pollers
  import Buffers

  datatype Phase = Disconnected | Connecting | Connected | Disconnecting

  /** The milestones of a connection, in the order they must come. */
  datatype Mark = Made | Up | Down | Notified | Erased | Destroyed

  datatype Notice = WriteComplete | HighWater(len: nat) | ForceCloseInLoop

  datatype Conn = Conn(
    state: Phase,
    reading: bool,
    readOn: bool,              // the channel's interest
    writeOn: bool,
    index: Index,              // the channel's slot in the poller
    out: seq<byte>,            // readable bytes of outputBuffer_
    input: seq<byte>,          // readable bytes of inputBuffer_
    consumed: seq<byte>,       // what message callbacks have retrieved from it
    wire: seq<byte>,           // given to the kernel
    accepted: seq<byte>,       // the messages accepted and not refused, in order
    shutdowns: nat,            // calls of shutdownWrite
    cut: nat,                  // how many bytes were on the wire at the last of them
    queue: seq<Notice>,        // functors queued in the loop
    log: seq<Mark>
  )

  /** What the user has set. */
  datatype Config = Config(writeComplete: bool, highWater: bool, mark: nat)

  datatype Errno = EWOULDBLOCK | EPIPE | ECONNRESET | OtherError
  /** The answer of write: it took `n` bytes, or all if there were fewer. */
  datatype WriteResult = Wrote(n: nat) | WriteFailed(errno: Errno)
  datatype ReadResult = GotBytes(bytes: seq<byte>) | EndOfFile | ReadFailed

  function NewConn(): Conn {
    Conn(Connecting, true, false, false, New, [], [], [], [], [], 0, 0, [], [Made])
  }

  function Taken(n: nat, len: nat): (r: nat)
    ensures r <= n && r <= len
  {
    if n <= len then n else len
  }

  predicate Alive(c: Conn) {
    c.state == Connected || c.state == Disconnecting
  }

  function Mask(readOn: bool, writeOn: bool): bv16 {
    (if readOn then READ_EVENT else NONE_EVENT) | (if writeOn then WRITE_EVENT else NONE_EVENT)
  }

  /** Changing the interest and calling update(). */
  function WithInterest(c: Conn, readOn: bool, writeOn: bool): Conn {
    c.(readOn := readOn, writeOn := writeOn, index := IndexAfterUpdate(c.index, Mask(readOn, writeOn)))
  }

  // ---------- the member functions ----------

  function Established(c: Conn): Conn {
    WithInterest(c, true, c.writeOn).(state := Connected, log := c.log + [Up])
  }

  predicate Refused(r: WriteResult) {
    r == WriteFailed(EPIPE) || r == WriteFailed(ECONNRESET)
  }

  function Written(r: WriteResult, len: nat): (k: nat)
    ensures k <= len
  {
    if r.Wrote? then Taken(r.n, len) else 0
  }

  function SentInLoop(c: Conn, cfg: Config, data: seq<byte>, r: WriteResult): Conn {
    if c.state == Disconnected then c
    else if c.writeOn || c.out != [] then Kept(c.(accepted := c.accepted + data), cfg, data)
    else if Refused(r) then c
    else Kept(DirectlyWritten(c, cfg, data, r), cfg, data[Written(r, |data|)..])
  }

  /** The message is accepted, and as much of it as the kernel took is on the wire. */
  function DirectlyWritten(c: Conn, cfg: Config, data: seq<byte>, r: WriteResult): Conn {
    var k := Written(r, |data|);
    c.(wire := c.wire + data[..k], accepted := c.accepted + data,
       queue := if r.Wrote? && k == |data| && cfg.writeComplete then c.queue + [WriteComplete] else c.queue)
  }

  /** What was not written is buffered, and the channel watches for writability. */
  function Kept(c: Conn, cfg: Config, rest: seq<byte>): Conn {
    if rest == [] then c
    else
      var len := |c.out| + |rest|;
      var kept := c.(out := c.out + rest,
                     queue := if cfg.highWater && len >= cfg.mark && |c.out| < cfg.mark
                              then c.queue + [HighWater(len)] else c.queue);
      if c.writeOn then kept else WithInterest(kept, c.readOn, true)
  }

  function Sent(c: Conn, cfg: Config, data: seq<byte>, r: WriteResult): Conn {
    if c.state == Connected then SentInLoop(c, cfg, data, r) else c
  }

  function ShutInLoop(c: Conn): Conn {
    if c.writeOn then c else c.(shutdowns := c.shutdowns + 1, cut := |c.wire|)
  }

  function Shut(c: Conn): Conn {
    if c.state == Connected then ShutInLoop(c.(state := Disconnecting)) else c
  }

  function ForceClosing(c: Conn): Conn {
    if Alive(c) then c.(state := Disconnecting, queue := c.queue + [ForceCloseInLoop]) else c
  }

  /** forceCloseWithDelay: the timer makes a forceClose later, if the connection still exists. */
  function ForceClosingLater(c: Conn): Conn {
    if Alive(c) then c.(state := Disconnecting) else c
  }

  function ReadStarted(c: Conn): Conn {
    if !c.reading || !c.readOn then WithInterest(c, true, c.writeOn).(reading := true) else c
  }

  function ReadStopped(c: Conn): Conn {
    if c.reading || c.readOn then WithInterest(c, false, c.writeOn).(reading := false) else c
  }

  /** handleClose up to closeCallback_. */
  function Closed(c: Conn): Conn {
    WithInterest(c, false, false).(state := Disconnected, log := c.log + [Down])
  }

  /** The kernel has taken the first `k` bytes of the output buffer. */
  function Drained(c: Conn, cfg: Config, k: nat): Conn
    requires k <= |c.out|
  {
    var sent := c.(wire := c.wire + c.out[..k], out := c.out[k..]);
    if sent.out != [] then sent
    else
      var quiet := WithInterest(sent, c.readOn, false).(
        queue := if cfg.writeComplete then c.queue + [WriteComplete] else c.queue);
      if c.state == Disconnecting then ShutInLoop(quiet) else quiet
  }

  function WriteHandled(c: Conn, cfg: Config, r: WriteResult): Conn {
    if !c.writeOn then c
    else match r
      case WriteFailed(_) => c
      case Wrote(n) =>
        var k := Taken(n, |c.out|);
        if k == 0 then c else Drained(c, cfg, k)
  }

  /** inputBuffer_.readFd. */
  function Received(c: Conn, r: ReadResult): Conn {
    if r.GotBytes? && r.bytes != [] then c.(input := c.input + r.bytes) else c
  }

  function ReadHandled(c: Conn, r: ReadResult): Conn {
    if Eof(r) then Closed(c) else Received(c, r)
  }

  /** The message callback retrieves `n` bytes from the buffer it is given. */
  function Consumed(c: Conn, n: nat): Conn
    requires n <= |c.input|
  {
    c.(consumed := c.consumed + c.input[..n], input := c.input[n..])
  }

  /** handleRead with a message callback that retrieves `n` bytes. */
  function MessageHandled(c: Conn, r: ReadResult, n: nat): Conn
    requires r.GotBytes? ==> n <= |c.input| + |r.bytes|
  {
    if r.GotBytes? && r.bytes != [] then Consumed(Received(c, r), n) else ReadHandled(c, r)
  }

  /** connectDestroyed. */
  function DestroyedNow(c: Conn): Conn {
    var d := if c.state == Connected then Closed(c) else c;
    d.(index := New, log := d.log + [Destroyed])
  }

  predicate Eof(r: ReadResult) {
    r.EndOfFile? || (r.GotBytes? && r.bytes == [])
  }

  // ---------- the invariant of one connection ----------

  ghost predicate ConnInv(c: Conn) {
    && c.wire + c.out == c.accepted
    && (Alive(c) ==> (c.writeOn <==> c.out != []))
    && (Alive(c) ==> c.index == if c.readOn || c.writeOn then Added else Deleted)
    && (Alive(c) ==> c.reading == c.readOn)
    && (c.state == Connecting ==> c.index == New && c.reading && c.accepted == [] && c.shutdowns == 0)
    && (!Alive(c) ==> !c.readOn && !c.writeOn)
    && c.shutdowns <= 1
    && (c.shutdowns == 1 ==> (c.state == Disconnecting || c.state == Disconnected) && c.out == [] && c.cut == |c.wire|)
  }

  datatype Op =
    | Establish
    | Send(data: seq<byte>, written: WriteResult)
    | Shutdown
    | ForceClose
    | ForceCloseWithDelay
    | StartRead
    | StopRead
    | HandleRead(read: ReadResult)
    | Consume(n: nat)
    | HandleWrite(wrote: WriteResult)
    | HandleClose
    | Destroy

  /** When the loop can make the call: connections are established first and destroyed last, the user
      starts and stops reading while the connection is up, and handleClose asserts that it is up. */
  predicate Allowed(c: Conn, op: Op) {
    match op
    case Establish => c.state == Connecting
    case Send(_, _) => true
    case Shutdown => true
    case ForceClose => true
    case ForceCloseWithDelay => true
    case StartRead => Alive(c)
    case StopRead => Alive(c)
    case HandleRead(r) => Alive(c)
    case Consume(n) => n <= |c.input|
    case HandleWrite(_) => true
    case HandleClose => Alive(c)
    case Destroy => c.state == Connected || (c.state == Disconnected && c.index != New)
  }

  function Apply(c: Conn, cfg: Config, op: Op): Conn
    requires Allowed(c, op)
  {
    match op
    case Establish => Established(c)
    case Send(data, r) => Sent(c, cfg, data, r)
    case Shutdown => Shut(c)
    case ForceClose => ForceClosing(c)
    case ForceCloseWithDelay => ForceClosingLater(c)
    case StartRead => ReadStarted(c)
    case StopRead => ReadStopped(c)
    case HandleRead(r) => ReadHandled(c, r)
    case Consume(n) => Consumed(c, n)
    case HandleWrite(r) => WriteHandled(c, cfg, r)
    case HandleClose => Closed(c)
    case Destroy => DestroyedNow(c)
  }

  lemma MaskIsInterest(readOn: bool, writeOn: bool)
    ensures Mask(readOn, writeOn) == NONE_EVENT <==> !readOn && !writeOn
  {
  }

  lemma KeptKeepsInv(c: Conn, cfg: Config, rest: seq<byte>)
    requires c.state == Connected && c.wire + c.out + rest == c.accepted
    requires ConnInv(c.(accepted := c.wire + c.out))
    ensures ConnInv(Kept(c, cfg, rest))
  {
    MaskIsInterest(c.readOn, true);
    assert c.wire + (c.out + rest) == c.wire + c.out + rest;
  }

  lemma SentInLoopKeepsInv(c: Conn, cfg: Config, data: seq<byte>, r: WriteResult)
    requires ConnInv(c) && c.state == Connected
    ensures ConnInv(SentInLoop(c, cfg, data, r))
  {
    if c.writeOn || c.out != [] {
      KeptKeepsInv(c.(accepted := c.accepted + data), cfg, data);
    } else if !Refused(r) {
      var k := Written(r, |data|);
      var d := DirectlyWritten(c, cfg, data, r);
      assert d.wire + d.out + data[k..] == d.accepted;
      KeptKeepsInv(d, cfg, data[k..]);
    }
  }

  lemma WriteHandledKeepsInv(c: Conn, cfg: Config, r: WriteResult)
    requires ConnInv(c)
    ensures ConnInv(WriteHandled(c, cfg, r))
  {
    MaskIsInterest(c.readOn, false);
    if r.Wrote? {
      var k := Taken(r.n, |c.out|);
      assert c.out == c.out[..k] + c.out[k..];
      assert (c.wire + c.out[..k]) + c.out[k..] == c.wire + c.out;
    }
  }

  lemma ApplyKeepsInv(c: Conn, cfg: Config, op: Op)
    requires ConnInv(c) && Allowed(c, op)
    ensures ConnInv(Apply(c, cfg, op))
  {
    MaskIsInterest(true, c.writeOn);
    MaskIsInterest(false, c.writeOn);
    assert |c.wire + c.out| == |c.wire| + |c.out|;
    match op {
      case Send(data, r) =>
        if c.state == Connected {
          SentInLoopKeepsInv(c, cfg, data, r);
        }
      case HandleWrite(r) => WriteHandledKeepsInv(c, cfg, r);
      case _ =>
    }
  }

  /** A call that cannot happen changes nothing. */
  ghost function Run(c: Conn, cfg: Config, ops: seq<Op>): Conn
    decreases |ops|
  {
    if ops == [] then c
    else Run(if Allowed(c, ops[0]) then Apply(c, cfg, ops[0]) else c, cfg, ops[1..])
  }

  lemma {:induction false} RunKeepsInv(c: Conn, cfg: Config, ops: seq<Op>)
    requires ConnInv(c)
    ensures ConnInv(Run(c, cfg, ops))
    decreases |ops|
  {
    if ops != [] {
      if Allowed(c, ops[0]) {
        ApplyKeepsInv(c, cfg, ops[0]);
        RunKeepsInv(Apply(c, cfg, ops[0]), cfg, ops[1..]);
      } else {
        RunKeepsInv(c, cfg, ops[1..]);
      }
    }
  }

  /** `op` sends a message that is not refused: the connection is connected, and there was no direct write,
      or it did not meet EPIPE or ECONNRESET. */
  predicate Accepts(c: Conn, op: Op) {
    op.Send? && c.state == Connected
    && !(c.out == [] && (op.written == WriteFailed(EPIPE) || op.written == WriteFailed(ECONNRESET)))
  }

  lemma AcceptedIsWhatWasSent(c: Conn, cfg: Config, op: Op)
    requires ConnInv(c) && Allowed(c, op)
    ensures Apply(c, cfg, op).accepted == if Accepts(c, op) then c.accepted + op.data else c.accepted
  {
  }

  /** The messages that the run sends and that are not refused, one after the other. */
  ghost function Messages(c: Conn, cfg: Config, ops: seq<Op>): seq<byte>
    decreases |ops|
  {
    if ops == [] then []
    else
      (if Accepts(c, ops[0]) then ops[0].data else [])
      + Messages(if Allowed(c, ops[0]) then Apply(c, cfg, ops[0]) else c, cfg, ops[1..])
  }

  lemma {:induction false} AcceptedOverRuns(c: Conn, cfg: Config, ops: seq<Op>)
    requires ConnInv(c)
    ensures Run(c, cfg, ops).accepted == c.accepted + Messages(c, cfg, ops)
    decreases |ops|
  {
    if ops != [] {
      var d := if Allowed(c, ops[0]) then Apply(c, cfg, ops[0]) else c;
      if Allowed(c, ops[0]) {
        ApplyKeepsInv(c, cfg, ops[0]);
        AcceptedIsWhatWasSent(c, cfg, ops[0]);
      }
      AcceptedOverRuns(d, cfg, ops[1..]);
      var first := if Accepts(c, ops[0]) then ops[0].data else [];
      assert c.accepted + first + Messages(d, cfg, ops[1..]) == c.accepted + (first + Messages(d, cfg, ops[1..]));
    }
  }

  /** Through every run, the bytes given to the kernel followed by those still buffered are all the messages
      that were not refused, in order; and while the connection is up it watches for writability exactly
      when something is buffered. */
  lemma StreamOverRuns(cfg: Config, ops: seq<Op>)
    ensures var c := Run(NewConn(), cfg, ops);
            && c.wire + c.out == Messages(NewConn(), cfg, ops) == c.accepted
            && (Alive(c) ==> (c.writeOn <==> c.out != []))
  {
    RunKeepsInv(NewConn(), cfg, ops);
    AcceptedOverRuns(NewConn(), cfg, ops);
    assert [] + Messages(NewConn(), cfg, ops) == Messages(NewConn(), cfg, ops);
  }

  /** sendInLoop, by what write answers: the kernel gets the first bytes of the message, as many as it takes, only
      when nothing is buffered; what it did not take is buffered behind what was there; and a message that meets
      EPIPE or ECONNRESET is dropped. */
  lemma SendDecides(c: Conn, cfg: Config, data: seq<byte>, r: WriteResult)
    requires ConnInv(c)
    ensures var d := SentInLoop(c, cfg, data, r);
            && d == c.(wire := d.wire, out := d.out, accepted := d.accepted, writeOn := d.writeOn, index := d.index, queue := d.queue)
            && (c.state == Disconnected || (c.out == [] && (r == WriteFailed(EPIPE) || r == WriteFailed(ECONNRESET))) ==> d == c)
            && (c.state != Disconnected ==>
                  && (d.writeOn <==> d.out != [])
                  && (c.out != [] ==> d.wire == c.wire && d.out == c.out + data)
                  && (c.out == [] && (r == WriteFailed(EWOULDBLOCK) || r == WriteFailed(OtherError)) ==> d.wire == c.wire && d.out == data)
                  && (c.out == [] && r.Wrote? && r.n < |data| ==> d.wire == c.wire + data[..r.n] && d.out == data[r.n..])
                  && (c.out == [] && r.Wrote? && |data| <= r.n ==> d.wire == c.wire + data && d.out == []))
  {
    MaskIsInterest(c.readOn, true);
    if c.out == [] {
      assert [] + data == data;
      if r.Wrote? && |data| <= r.n {
        assert data[..|data|] == data;
      }
    }
  }

  /** handleWrite: the buffer gives its first bytes, as many as the kernel takes. */
  lemma WriteDecides(c: Conn, cfg: Config, r: WriteResult)
    requires ConnInv(c)
    ensures var d := WriteHandled(c, cfg, r);
            && d == c.(wire := d.wire, out := d.out, writeOn := d.writeOn, index := d.index, queue := d.queue,
                       shutdowns := d.shutdowns, cut := d.cut)
            && (!c.writeOn || r.WriteFailed? || r == Wrote(0) ==> d == c)
            && (c.writeOn && r.Wrote? && r.n < |c.out| ==> d.wire == c.wire + c.out[..r.n] && d.out == c.out[r.n..] && d.writeOn)
            && (c.writeOn && r.Wrote? && |c.out| <= r.n ==> d.wire == c.wire + c.out && d.out == [] && !d.writeOn)
  {
    if c.writeOn && r.Wrote? {
      assert c.out[..|c.out|] == c.out;
    }
  }

  /** How many bytes `op` asks the kernel to take: a whole message when nothing is buffered, and on a write
      event the whole buffer. */
  function Offered(c: Conn, op: Op): nat {
    match op
    case Send(data, _) => if c.state == Connected && c.out == [] then |data| else 0
    case HandleWrite(_) => if Alive(c) then |c.out| else 0
    case _ => 0
  }

  /** How many it takes, by its answer. */
  function Takes(c: Conn, op: Op): nat {
    var answer := match op case Send(_, r) => r case HandleWrite(r) => r case _ => Wrote(0);
    match answer
    case WriteFailed(_) => 0
    case Wrote(n) => if n < Offered(c, op) then n else Offered(c, op)
  }

  ghost function TakenOver(c: Conn, cfg: Config, ops: seq<Op>): nat
    decreases |ops|
  {
    if ops == [] then 0 else Takes(c, ops[0]) + TakenOver(if Allowed(c, ops[0]) then Apply(c, cfg, ops[0]) else c, cfg, ops[1..])
  }

  lemma WireStep(c: Conn, cfg: Config, op: Op)
    requires ConnInv(c) && Allowed(c, op)
    ensures |Apply(c, cfg, op).wire| == |c.wire| + Takes(c, op)
  {
    match op
    case Send(data, r) => SendDecides(c, cfg, data, r);
    case HandleWrite(r) => WriteDecides(c, cfg, r);
    case _ =>
  }

  lemma {:induction false} WireGrowsByWhatIsTaken(c: Conn, cfg: Config, ops: seq<Op>)
    requires ConnInv(c)
    ensures |Run(c, cfg, ops).wire| == |c.wire| + TakenOver(c, cfg, ops)
    decreases |ops|
  {
    if ops != [] {
      if Allowed(c, ops[0]) {
        ApplyKeepsInv(c, cfg, ops[0]);
        WireStep(c, cfg, ops[0]);
        WireGrowsByWhatIsTaken(Apply(c, cfg, ops[0]), cfg, ops[1..]);
      } else {
        assert Takes(c, ops[0]) == 0;
        WireGrowsByWhatIsTaken(c, cfg, ops[1..]);
      }
    }
  }

  /** Nothing is sent twice and nothing is skipped: cut what has been accepted where the kernel's answers add up
      to; what is before is on the wire, and what is after is in the output buffer. */
  lemma KernelDecidesTheCut(cfg: Config, ops: seq<Op>)
    ensures var c, all, k := Run(NewConn(), cfg, ops), Messages(NewConn(), cfg, ops), TakenOver(NewConn(), cfg, ops);
            k <= |all| && c.wire == all[..k] && c.out == all[k..]
  {
    StreamOverRuns(cfg, ops);
    WireGrowsByWhatIsTaken(NewConn(), cfg, ops);
  }

  /** What the run's reads have found, one after the other. */
  ghost function ReadBytes(c: Conn, cfg: Config, ops: seq<Op>): seq<byte>
    decreases |ops|
  {
    if ops == [] then []
    else
      (if Allowed(c, ops[0]) && ops[0].HandleRead? && ops[0].read.GotBytes? then ops[0].read.bytes else [])
      + ReadBytes(if Allowed(c, ops[0]) then Apply(c, cfg, ops[0]) else c, cfg, ops[1..])
  }

  /** Through every run, what message callbacks have retrieved followed by what is still readable is all that
      the reads have found, in order. */
  lemma {:induction false} InputOverRuns(c: Conn, cfg: Config, ops: seq<Op>)
    ensures var r := Run(c, cfg, ops);
            r.consumed + r.input == c.consumed + c.input + ReadBytes(c, cfg, ops)
    decreases |ops|
  {
    if ops == [] {
      assert c.consumed + c.input + [] == c.consumed + c.input;
    } else {
      var d := if Allowed(c, ops[0]) then Apply(c, cfg, ops[0]) else c;
      var first := if Allowed(c, ops[0]) && ops[0].HandleRead? && ops[0].read.GotBytes? then ops[0].read.bytes else [];
      if Allowed(c, ops[0]) {
        InputStep(c, cfg, ops[0]);
      }
      InputOverRuns(d, cfg, ops[1..]);
      assert c.consumed + c.input + first + ReadBytes(d, cfg, ops[1..])
          == c.consumed + c.input + (first + ReadBytes(d, cfg, ops[1..]));
    }
  }

  lemma InputStep(c: Conn, cfg: Config, op: Op)
    requires Allowed(c, op)
    ensures var d := Apply(c, cfg, op);
            d.consumed + d.input == c.consumed + c.input + if op.HandleRead? && op.read.GotBytes? then op.read.bytes else []
  {
    match op
    case HandleRead(r) =>
      if r.GotBytes? {
        assert c.consumed + (c.input + r.bytes) == c.consumed + c.input + r.bytes;
      } else {
        assert c.consumed + c.input + [] == c.consumed + c.input;
      }
    case Consume(n) =>
      assert c.input[..n] + c.input[n..] == c.input;
      assert c.consumed + c.input[..n] + c.input[n..] == c.consumed + (c.input[..n] + c.input[n..]);
      assert c.consumed + c.input + [] == c.consumed + c.input;
    case _ =>
      var d := Apply(c, cfg, op);
      assert d.consumed == c.consumed && d.input == c.input;
      assert c.consumed + c.input + [] == c.consumed + c.input;
  }

  /** How many bytes its message callbacks have asked to retrieve. */
  ghost function Retrieved(c: Conn, cfg: Config, ops: seq<Op>): nat
    decreases |ops|
  {
    if ops == [] then 0
    else
      (if Allowed(c, ops[0]) && ops[0].Consume? then ops[0].n else 0)
      + Retrieved(if Allowed(c, ops[0]) then Apply(c, cfg, ops[0]) else c, cfg, ops[1..])
  }

  lemma {:induction false} RetrievedOverRuns(c: Conn, cfg: Config, ops: seq<Op>)
    ensures |Run(c, cfg, ops).consumed| == |c.consumed| + Retrieved(c, cfg, ops)
    decreases |ops|
  {
    if ops != [] {
      RetrievedOverRuns(if Allowed(c, ops[0]) then Apply(c, cfg, ops[0]) else c, cfg, ops[1..]);
    }
  }

  /** Over every run from a new connection, cut what the reads have found where the message callbacks have got to:
      they have retrieved what is before, and what is after is readable. */
  lemma CallbacksDecideTheCut(cfg: Config, ops: seq<Op>)
    ensures var c, all, k := Run(NewConn(), cfg, ops), ReadBytes(NewConn(), cfg, ops), Retrieved(NewConn(), cfg, ops);
            k <= |all| && c.consumed == all[..k] && c.input == all[k..]
  {
    InputOverRuns(NewConn(), cfg, ops);
    RetrievedOverRuns(NewConn(), cfg, ops);
    assert [] + [] + ReadBytes(NewConn(), cfg, ops) == ReadBytes(NewConn(), cfg, ops);
  }

  /** shutdownWrite is called at most once, when everything accepted is on the wire, and nothing is
      written after it. */
  lemma ShutdownOverRuns(cfg: Config, ops: seq<Op>)
    ensures var c := Run(NewConn(), cfg, ops);
            c.shutdowns == 0 || (c.shutdowns == 1 && c.wire == Messages(NewConn(), cfg, ops) && |c.wire| == c.cut)
  {
    RunKeepsInv(NewConn(), cfg, ops);
    StreamOverRuns(cfg, ops);
  }

  /** A shut-down connection that is writing still drains: it stays disconnecting, and the write event
      that empties the buffer shuts the write side down. */
  lemma DrainingShutsDown(c: Conn, cfg: Config, n: nat)
    requires ConnInv(c) && c.state == Disconnecting && c.out != []
    ensures n < |c.out| ==> var r := WriteHandled(c, cfg, Wrote(n));
                            r.out == c.out[n..] && r.writeOn && r.shutdowns == c.shutdowns && r.state == Disconnecting
    ensures |c.out| <= n ==> var r := WriteHandled(c, cfg, Wrote(n));
                             r.out == [] && r.wire == r.accepted && r.shutdowns == 1 && r.state == Disconnecting
  {
    WriteHandledKeepsInv(c, cfg, Wrote(n));
  }

  /** The state_ that a call leaves, whatever else the connection holds. */
  function PhaseAfter(p: Phase, op: Op): Phase {
    match op
    case Establish => Connected
    case Shutdown | ForceClose | ForceCloseWithDelay => if p == Connected then Disconnecting else p
    case HandleRead(r) => if r == EndOfFile || r == GotBytes([]) then Disconnected else p
    case HandleClose | Destroy => Disconnected
    case Send(_, _) | HandleWrite(_) | StartRead | StopRead | Consume(_) => p
  }

  /** Whether the connection watches for input after a call. */
  function ReadingAfter(on: bool, op: Op): bool {
    match op
    case Establish | StartRead => true
    case StopRead | HandleClose | Destroy => false
    case HandleRead(r) => on && r != EndOfFile && r != GotBytes([])
    case Send(_, _) | HandleWrite(_) | Shutdown | ForceClose | ForceCloseWithDelay | Consume(_) => on
  }

  ghost function PhaseOver(p: Phase, c: Conn, cfg: Config, ops: seq<Op>): Phase
    decreases |ops|
  {
    if ops == [] then p
    else if Allowed(c, ops[0]) then PhaseOver(PhaseAfter(p, ops[0]), Apply(c, cfg, ops[0]), cfg, ops[1..])
    else PhaseOver(p, c, cfg, ops[1..])
  }

  ghost function ReadingOver(on: bool, c: Conn, cfg: Config, ops: seq<Op>): bool
    decreases |ops|
  {
    if ops == [] then on
    else if Allowed(c, ops[0]) then ReadingOver(ReadingAfter(on, ops[0]), Apply(c, cfg, ops[0]), cfg, ops[1..])
    else ReadingOver(on, c, cfg, ops[1..])
  }

  lemma CallDecides(c: Conn, cfg: Config, op: Op)
    requires ConnInv(c) && Allowed(c, op)
    ensures Apply(c, cfg, op).state == PhaseAfter(c.state, op) && Apply(c, cfg, op).readOn == ReadingAfter(c.readOn, op)
  {
    match op
    case Send(data, r) => SendDecides(c, cfg, data, r);
    case HandleWrite(r) => WriteDecides(c, cfg, r);
    case _ =>
  }

  lemma {:induction false} CallsDecide(c: Conn, cfg: Config, ops: seq<Op>)
    requires ConnInv(c)
    ensures Run(c, cfg, ops).state == PhaseOver(c.state, c, cfg, ops)
    ensures Run(c, cfg, ops).readOn == ReadingOver(c.readOn, c, cfg, ops)
    decreases |ops|
  {
    if ops != [] {
      if Allowed(c, ops[0]) {
        ApplyKeepsInv(c, cfg, ops[0]);
        CallDecides(c, cfg, ops[0]);
        CallsDecide(Apply(c, cfg, ops[0]), cfg, ops[1..]);
      } else {
        CallsDecide(c, cfg, ops[1..]);
      }
    }
  }

  /** The four states, and the interest in input, over every run from a new connection: no byte, no answer of the
      kernel but the end of input, and no callback has a say in them. */
  lemma PhaseOverRuns(cfg: Config, ops: seq<Op>)
    ensures var c := Run(NewConn(), cfg, ops);
            c.state == PhaseOver(Connecting, NewConn(), cfg, ops) && c.readOn == ReadingOver(false, NewConn(), cfg, ops)
  {
    CallsDecide(NewConn(), cfg, ops);
  }

  /** Shutting down has been asked for: what is left of the output drains, or the write side is shut down. */
  ghost predicate ShuttingDown(c: Conn) {
    c.state == Disconnected || (c.state == Disconnecting && (c.out != [] || c.shutdowns == 1))
  }

  lemma StaysShuttingDown(c: Conn, cfg: Config, op: Op)
    requires ConnInv(c) && ShuttingDown(c) && Allowed(c, op)
    ensures ShuttingDown(Apply(c, cfg, op))
  {
    CallDecides(c, cfg, op);
    match op
    case HandleWrite(r) =>
      if c.state == Disconnecting && c.out != [] && r.Wrote? {
        DrainingShutsDown(c, cfg, r.n);
      }
    case _ =>
  }

  lemma {:induction false} ShuttingDownOverRuns(c: Conn, cfg: Config, ops: seq<Op>)
    requires ConnInv(c) && ShuttingDown(c)
    ensures ShuttingDown(Run(c, cfg, ops))
    decreases |ops|
  {
    if ops != [] {
      if Allowed(c, ops[0]) {
        ApplyKeepsInv(c, cfg, ops[0]);
        StaysShuttingDown(c, cfg, ops[0]);
        ShuttingDownOverRuns(Apply(c, cfg, ops[0]), cfg, ops[1..]);
      } else {
        ShuttingDownOverRuns(c, cfg, ops[1..]);
      }
    }
  }

  /** shutdown is not forgotten: called on a connected connection, whatever happens afterwards, as long as it is not
      closed the write side has been shut down once, or there is output that the kernel has not taken. */
  lemma ShutdownArrives(c: Conn, cfg: Config, ops: seq<Op>)
    requires ConnInv(c) && c.state == Connected
    ensures var r := Run(Apply(c, cfg, Op.Shutdown), cfg, ops);
            (r.state == Disconnecting && (r.out != [] || r.shutdowns == 1)) || r.state == Disconnected
  {
    ApplyKeepsInv(c, cfg, Op.Shutdown);
    ShuttingDownOverRuns(Apply(c, cfg, Op.Shutdown), cfg, ops);
  }

  /** What is queued in the loop: the forced close, once for each call on a connection that is up, and the notice
      that everything has been written, when the kernel has taken the last byte. */
  lemma NoticesDecide(c: Conn, cfg: Config, op: Op)
    requires ConnInv(c) && Allowed(c, op) && !op.Send?
    ensures var d := Apply(c, cfg, op);
            d.queue == c.queue
              + (if op.ForceClose? && (c.state == Connected || c.state == Disconnecting) then [ForceCloseInLoop] else [])
              + (if op.HandleWrite? && cfg.writeComplete && d.out == [] && d.out != c.out then [WriteComplete] else [])
  {
    if op.HandleWrite? {
      WriteDecides(c, cfg, op.wrote);
    }
  }

  /** handleRead with a callback that retrieves is the read and then the retrieval. */
  lemma MessageIsReadAndConsumed(c: Conn, cfg: Config, r: ReadResult, n: nat)
    requires Alive(c) && (r.GotBytes? ==> n <= |c.input| + |r.bytes|)
    ensures var d := Apply(c, cfg, Op.HandleRead(r));
            MessageHandled(c, r, n) == if r.GotBytes? && r.bytes != [] then Apply(d, cfg, Op.Consume(n)) else d
  {
  }

  /** The high-water notice is queued exactly when a send takes the buffer across the mark. */
  lemma HighWaterExactly(c: Conn, cfg: Config, data: seq<byte>, r: WriteResult)
    requires ConnInv(c) && c.state == Connected
    ensures var d := Sent(c, cfg, data, r);
            d.queue == c.queue
              + (if cfg.writeComplete && c.out == [] && d.out == [] && d.wire == c.wire + data && r.Wrote?
                 then [WriteComplete] else [])
              + (if cfg.highWater && |c.out| < cfg.mark <= |d.out| && c.out != d.out then [HighWater(|d.out|)] else [])
  {
  }

  // ---------- Channel::handleEvent ----------

  predicate CallsClose(revents: bv16) {
    revents & POLLHUP != 0 && revents & POLLIN == 0
  }

  predicate CallsRead(revents: bv16) {
    revents & (POLLIN | POLLPRI | POLLRDHUP) != 0
  }

  predicate CallsWrite(revents: bv16) {
    revents & POLLOUT != 0
  }

  /** The callbacks in the order of handleEventWithGuard; `script` is what the user's message callback
      does.  None: an assertion failed. */
  ghost function HandledEvent(c: Conn, cfg: Config, revents: bv16, read: ReadResult, script: seq<Op>, wrote: WriteResult): Option<Conn> {
    if CallsClose(revents) && !Alive(c) then None
    else
      var c1 := if CallsClose(revents) then Closed(c) else c;
      if CallsRead(revents) && Eof(read) && !Alive(c1) then None
      else
        var c2 := if CallsRead(revents) then ReadHandled(c1, read) else c1;
        var c3 := if CallsRead(revents) && read.GotBytes? && read.bytes != [] then Run(c2, cfg, script) else c2;
        Some(if CallsWrite(revents) then WriteHandled(c3, cfg, wrote) else c3)
  }

  /** The assertion of handleClose fails in the dispatch of an event on a connection that is up exactly
      when the kernel reports HUP without IN but with PRI or RDHUP, and the read then finds the end.  On one that
      is not, it fails exactly when the event closes or the read finds the end. */
  lemma CloseThenReadFails(c: Conn, cfg: Config, revents: bv16, read: ReadResult, script: seq<Op>, wrote: WriteResult)
    ensures HandledEvent(c, cfg, revents, read, script, wrote) == None
       <==> if Alive(c) then
              revents & POLLHUP != 0 && revents & POLLIN == 0 && (revents & POLLPRI != 0 || revents & POLLRDHUP != 0) && Eof(read)
            else
              || (revents & POLLHUP != 0 && revents & POLLIN == 0)
              || ((revents & POLLIN != 0 || revents & POLLPRI != 0 || revents & POLLRDHUP != 0) && Eof(read))
  {
    ReadBits(revents);
  }

  lemma DrainsBy(c: Conn, cfg: Config, n: nat)
    requires ConnInv(c)
    ensures var m, d := if !Alive(c) then 0 else if n < |c.out| then n else |c.out|, WriteHandled(c, cfg, Wrote(n));
            d.wire == c.wire + c.out[..m] && d.out == c.out[m..]
  {
    WriteDecides(c, cfg, Wrote(n));
    assert c.wire + c.out[..0] == c.wire && c.out[0..] == c.out && c.out[..|c.out|] == c.out;
  }

  lemma WithoutPollout(revents: bv16)
    ensures var rest := revents & !POLLOUT;
            && (CallsClose(rest) <==> CallsClose(revents)) && (CallsRead(rest) <==> CallsRead(revents)) && !CallsWrite(rest)
            && (revents & (POLLHUP | POLLIN | POLLPRI | POLLRDHUP) == 0 ==> !CallsClose(revents) && !CallsRead(revents))
  {
  }

  lemma HandledKeepsInv(c: Conn, cfg: Config, revents: bv16, read: ReadResult, script: seq<Op>, wrote: WriteResult)
    requires ConnInv(c) && !CallsWrite(revents)
    requires HandledEvent(c, cfg, revents, read, script, wrote).Some?
    ensures ConnInv(HandledEvent(c, cfg, revents, read, script, wrote).value)
  {
    var c1 := if CallsClose(revents) then Closed(c) else c;
    if CallsClose(revents) {
      ApplyKeepsInv(c, cfg, Op.HandleClose);
    }
    if CallsRead(revents) {
      var c2 := ReadHandled(c1, read);
      if Alive(c1) {
        ApplyKeepsInv(c1, cfg, Op.HandleRead(read));
      }
      RunKeepsInv(c2, cfg, script);
    }
  }

  /** What the callbacks before the write callback leave. */
  lemma WriteComesLast(c: Conn, cfg: Config, revents: bv16, read: ReadResult, script: seq<Op>, wrote: WriteResult)
    requires HandledEvent(c, cfg, revents & !POLLOUT, read, script, wrote).Some?
    ensures var before := HandledEvent(c, cfg, revents & !POLLOUT, read, script, wrote).value;
            && HandledEvent(c, cfg, revents, read, script, wrote) ==
               Some(if CallsWrite(revents) then WriteHandled(before, cfg, wrote) else before)
            && (revents & (POLLHUP | POLLIN | POLLPRI | POLLRDHUP) == 0 ==> before == c)
  {
    WithoutPollout(revents);
  }

  /** The write callback comes last, and exactly when POLLOUT is reported: what an event with POLLOUT leaves is
      what the same event leaves without it, and then the bytes that the kernel takes go from the buffer to the
      wire. */
  lemma PolloutDrains(c: Conn, cfg: Config, revents: bv16, read: ReadResult, script: seq<Op>, n: nat)
    requires ConnInv(c)
    requires HandledEvent(c, cfg, revents & !POLLOUT, read, script, Wrote(n)).Some?
    ensures var before := HandledEvent(c, cfg, revents & !POLLOUT, read, script, Wrote(n)).value;
            var after := HandledEvent(c, cfg, revents, read, script, Wrote(n));
            && after.Some?
            && (revents & (POLLHUP | POLLIN | POLLPRI | POLLRDHUP) == 0 ==> before == c)
            && (revents & POLLOUT == 0 ==> after.value == before)
            && (revents & POLLOUT != 0 ==>
                  var m := if !Alive(before) then 0 else if n < |before.out| then n else |before.out|;
                  after.value.wire == before.wire + before.out[..m] && after.value.out == before.out[m..])
  {
    WriteComesLast(c, cfg, revents, read, script, Wrote(n));
    var rest := revents & !POLLOUT;
    assert !CallsWrite(rest) by {
      WithoutPollout(revents);
    }
    HandledKeepsInv(c, cfg, rest, read, script, Wrote(n));
    DrainsBy(HandledEvent(c, cfg, rest, read, script, Wrote(n)).value, cfg, n);
  }

  /** An event during which the user does nothing. */
  lemma PlainEvent(c: Conn, cfg: Config, revents: bv16, read: ReadResult, wrote: WriteResult)
    requires Alive(c) && !(CallsClose(revents) && CallsRead(revents))
    ensures var d := if CallsRead(revents) then ReadHandled(c, read) else c;
            HandledEvent(c, cfg, revents, read, [], wrote) ==
            Some(if CallsClose(revents) || (CallsRead(revents) && Eof(read)) then Closed(c)
                 else if CallsWrite(revents) then WriteHandled(d, cfg, wrote) else d)
    ensures Alive(HandledEvent(c, cfg, revents, read, [], wrote).value) <==> !CallsClose(revents) && !(CallsRead(revents) && Eof(read))
  {
    assert WriteHandled(Closed(c), cfg, wrote) == Closed(c);
  }

  /** The callbacks that come first, for a connection that is up: none without IN, PRI and RDHUP, and without HUP;
      the read callback for IN, PRI or RDHUP; the close callback for HUP without IN. */
  lemma OtherBitsDecide(c: Conn, cfg: Config, revents: bv16, read: ReadResult, wrote: WriteResult)
    requires ConnInv(c) && Alive(c) && revents & POLLOUT == 0
    ensures var d := HandledEvent(c, cfg, revents, read, [], wrote);
            var toRead := revents & POLLIN != 0 || revents & POLLPRI != 0 || revents & POLLRDHUP != 0;
            var toClose := revents & POLLHUP != 0 && revents & POLLIN == 0;
            && (!toRead && !toClose ==> d == Some(c))
            && (toRead && !toClose && read.GotBytes? && read.bytes != [] ==> d == Some(c.(input := c.input + read.bytes)))
            && (toRead && !toClose && (read == EndOfFile || read == GotBytes([])) ==>
                  d.Some? && d.value.state == Disconnected && d.value.log == c.log + [Down] && !d.value.readOn && !d.value.writeOn)
            && (toClose && !toRead ==>
                  d.Some? && d.value.state == Disconnected && d.value.log == c.log + [Down] && !d.value.readOn && !d.value.writeOn)
  {
    ReadBits(revents);
  }

  lemma ReadBits(revents: bv16)
    ensures CallsRead(revents) <==> revents & POLLIN != 0 || revents & POLLPRI != 0 || revents & POLLRDHUP != 0
  {
  }

  // ---------- the class ----------

  lemma MaskOperations(readOn: bool, writeOn: bool)
    ensures var m := Mask(readOn, writeOn);
            && m | READ_EVENT == Mask(true, writeOn) && m & !READ_EVENT == Mask(false, writeOn)
            && m | WRITE_EVENT == Mask(readOn, true) && m & !WRITE_EVENT == Mask(readOn, false)
            && (m & READ_EVENT != 0 <==> readOn) && (m & WRITE_EVENT != 0 <==> writeOn)
  {
  }

  predicate IsMask(events: bv16) {
    events == Mask(events & READ_EVENT != 0, events & WRITE_EVENT != 0)
  }

  class TcpConnection {
    const channel: Channel
    const inputBuffer: Buffers.Buffer
    const outputBuffer: Buffers.Buffer
    const cfg: Config
    var state: Phase
    var reading: bool
    var queue: seq<Notice>
    ghost var out: seq<byte>       // what outputBuffer and inputBuffer hold
    ghost var input: seq<byte>
    ghost var consumed: seq<byte>
    ghost var wire: seq<byte>
    ghost var accepted: seq<byte>
    ghost var shutdowns: nat
    ghost var cut: nat
    ghost var log: seq<Mark>

    ghost function Model(): Conn
      reads this, channel
    {
      Conn(state, reading, channel.events & READ_EVENT != 0, channel.events & WRITE_EVENT != 0, channel.index,
           out, input, consumed, wire, accepted, shutdowns, cut, queue, log)
    }

    ghost predicate BuffersOk()
      reads this`out, this`input, inputBuffer, inputBuffer.data, outputBuffer, outputBuffer.data
    {
      && inputBuffer != outputBuffer && inputBuffer.data != outputBuffer.data
      && inputBuffer.Valid() && Buffers.Readable(inputBuffer.Model()) == input
      && outputBuffer.Valid() && Buffers.Readable(outputBuffer.Model()) == out
    }

    ghost predicate ChannelOk()
      reads channel, channel.poller, channel.poller.owned
    {
      channel.Valid() && IsMask(channel.events)
    }

    ghost predicate Valid()
      reads this, channel, channel.poller, channel.poller.owned
      reads inputBuffer, inputBuffer.data, outputBuffer, outputBuffer.data
    {
      BuffersOk() && ChannelOk()
    }

    constructor (channel: Channel, cfg: Config)
      requires channel.Valid() && channel.index == New && channel.events == NONE_EVENT
      ensures Valid() && Model() == NewConn() && this.channel == channel && this.cfg == cfg
    {
      this.channel, this.cfg := channel, cfg;
      var inBuffer := new Buffers.Buffer(Buffers.INITIAL_SIZE);
      var outBuffer := new Buffers.Buffer(Buffers.INITIAL_SIZE);
      inputBuffer, outputBuffer := inBuffer, outBuffer;
      state, reading, queue := Connecting, true, [];
      out, this.input, consumed, wire, accepted, shutdowns, cut, log := [], [], [], [], [], 0, 0, [Made];
      new;
      MaskOperations(false, false);
      assert Model() == NewConn();
    }

    method ConnectEstablished()
      requires Valid() && ConnInv(Model()) && state == Connecting && channel.fd !in channel.poller.channels
      modifies this, channel, channel.poller
      ensures Valid() && Model() == Established(old(Model()))
    {
      ghost var c := Model();
      MaskOperations(c.readOn, c.writeOn);
      MaskOperations(true, c.writeOn);
      state := Connected;
      channel.EnableReading();
      log := log + [Up];
      assert Model() == Established(c);
    }

    method SendInLoop(data: seq<byte>, r: WriteResult)
      requires Valid() && ConnInv(Model()) && Buffers.Fits(|data|)
      requires channel.index == New ==> channel.fd !in channel.poller.channels
      modifies this, channel, channel.poller, outputBuffer, outputBuffer.data
      ensures Valid() && Model() == SentInLoop(old(Model()), cfg, data, r)
      ensures old(state) != Disconnected && old(out) != [] ==> wire == old(wire) && out == old(out) + data
      ensures old(state) != Disconnected && old(out) == [] && r.Wrote? ==>
                var n := if r.n < |data| then r.n else |data|; wire == old(wire) + data[..n] && out == data[n..]
    {
      if state == Disconnected {
        return;
      }
      SendDecides(Model(), cfg, data, r);
      SendNow(data, r);
    }

    method SendNow(data: seq<byte>, r: WriteResult)
      requires Valid() && ConnInv(Model()) && Buffers.Fits(|data|) && state != Disconnected
      requires channel.index == New ==> channel.fd !in channel.poller.channels
      modifies this, channel, channel.poller, outputBuffer, outputBuffer.data
      ensures Valid() && Model() == SentInLoop(old(Model()), cfg, data, r)
    {
      MaskOperations(Model().readOn, Model().writeOn);
      var nwrote, faultError := 0, false;
      if channel.events & WRITE_EVENT == 0 && outputBuffer.writer == outputBuffer.reader {
        nwrote, faultError := WriteDirectly(data, r);
      } else {
        accepted := accepted + data;
      }
      var remaining := |data| - nwrote;
      assert remaining <= |data|;
      if !faultError && remaining > 0 {
        KeepAndWatch(data[nwrote..]);
      }
    }

    /** The write before anything is buffered. */
    method WriteDirectly(data: seq<byte>, r: WriteResult) returns (nwrote: nat, faultError: bool)
      modifies this`wire, this`accepted, this`queue
      ensures nwrote == Written(r, |data|) && (faultError <==> Refused(r))
      ensures Model() == if faultError then old(Model()) else DirectlyWritten(old(Model()), cfg, data, r)
    {
      nwrote, faultError := 0, false;
      match r {
        case Wrote(n) =>
          nwrote := Taken(n, |data|);
          if |data| - nwrote == 0 && cfg.writeComplete {
            queue := queue + [WriteComplete];
          }
        case WriteFailed(e) =>
          faultError := e == EPIPE || e == ECONNRESET;
      }
      if !faultError {
        wire := wire + data[..nwrote];
        accepted := accepted + data;
      }
    }

    /** The end of sendInLoop. */
    method KeepAndWatch(rest: seq<byte>)
      requires BuffersOk() && ChannelOk() && Buffers.Fits(|rest|) && rest != []
      requires channel.index == New ==> channel.fd !in channel.poller.channels
      modifies this`queue, this`out, channel, channel.poller, outputBuffer, outputBuffer.data
      ensures BuffersOk() && ChannelOk() && Model() == Kept(old(Model()), cfg, rest)
    {
      Keep(rest);
      StartWriting();
    }

    /** What was not written goes to the output buffer. */
    method Keep(rest: seq<byte>)
      requires BuffersOk() && Buffers.Fits(|rest|)
      modifies this`queue, this`out, outputBuffer, outputBuffer.data
      ensures BuffersOk()
      ensures var c := old(Model());
              var len := |c.out| + |rest|;
              Model() == c.(out := c.out + rest,
                            queue := if cfg.highWater && len >= cfg.mark && |c.out| < cfg.mark
                                     then c.queue + [HighWater(len)] else c.queue)
    {
      var oldLen := outputBuffer.writer - outputBuffer.reader;
      if oldLen + |rest| >= cfg.mark && oldLen < cfg.mark && cfg.highWater {
        queue := queue + [HighWater(oldLen + |rest|)];
      }
      out := out + rest;
      outputBuffer.Append(rest);
    }

    method StartWriting()
      requires ChannelOk() && (channel.index == New ==> channel.fd !in channel.poller.channels)
      modifies channel, channel.poller
      ensures ChannelOk()
      ensures var c := old(Model()); Model() == if c.writeOn then c else WithInterest(c, c.readOn, true)
    {
      ghost var c := Model();
      MaskOperations(c.readOn, c.writeOn);
      MaskOperations(c.readOn, true);
      if channel.events & WRITE_EVENT == 0 {
        channel.EnableWriting();
      }
    }

    method Send(data: seq<byte>, r: WriteResult)
      requires Valid() && ConnInv(Model()) && Buffers.Fits(|data|)
      modifies this, channel, channel.poller, outputBuffer, outputBuffer.data
      ensures Valid() && Model() == Sent(old(Model()), cfg, data, r)
    {
      if state == Connected {
        SendInLoop(data, r);
      }
    }

    method ShutdownInLoop()
      modifies this`shutdowns, this`cut
      ensures Model() == ShutInLoop(old(Model()))
    {
      if channel.events & WRITE_EVENT == 0 {
        shutdowns, cut := shutdowns + 1, |wire|;
      }
    }

    method Shutdown()
      requires Valid() && ConnInv(Model())
      modifies this
      ensures Valid() && Model() == Shut(old(Model()))
    {
      if state == Connected {
        state := Disconnecting;
        ShutdownInLoop();
      }
    }

    method ForceClose()
      requires Valid() && ConnInv(Model())
      modifies this
      ensures Valid() && Model() == ForceClosing(old(Model()))
    {
      if state == Connected || state == Disconnecting {
        state := Disconnecting;
        queue := queue + [ForceCloseInLoop];
      }
    }

    method StartRead()
      requires Valid() && ConnInv(Model()) && Alive(Model())
      modifies this, channel, channel.poller
      ensures Valid() && Model() == ReadStarted(old(Model()))
    {
      ghost var c := Model();
      MaskOperations(c.readOn, c.writeOn);
      MaskOperations(true, c.writeOn);
      if !reading || channel.events & READ_EVENT == 0 {
        channel.EnableReading();
        reading := true;
      }
      assert Model() == ReadStarted(c);
    }

    method StopRead()
      requires Valid() && ConnInv(Model()) && Alive(Model())
      modifies this, channel, channel.poller
      ensures Valid() && Model() == ReadStopped(old(Model()))
    {
      ghost var c := Model();
      MaskOperations(c.readOn, c.writeOn);
      MaskOperations(false, c.writeOn);
      if reading || channel.events & READ_EVENT != 0 {
        channel.DisableReading();
        reading := false;
      }
      assert Model() == ReadStopped(c);
    }

    /** handleClose up to closeCallback_. */
    method HandleClose()
      requires ChannelOk() && Alive(Model()) && channel.index != New
      modifies this`state, this`log, channel, channel.poller
      ensures ChannelOk() && Model() == Closed(old(Model()))
    {
      ghost var c := Model();
      MaskOperations(false, false);
      assert state == Connected || state == Disconnecting;
      state := Disconnected;
      channel.DisableAll();
      log := log + [Down];
      assert Model() == Closed(c);
    }

    /** The message callback, if it is called, retrieves `n` bytes. */
    method HandleRead(r: ReadResult, n: nat)
      requires Valid() && Alive(Model()) && channel.index != New
      requires r.GotBytes? ==> Buffers.CanRead(inputBuffer.Model(), r.bytes) && n <= |input| + |r.bytes|
      modifies this`input, this`consumed, this`state, this`log, channel, channel.poller, inputBuffer, inputBuffer.data
      ensures Valid() && Model() == MessageHandled(old(Model()), r, n)
    {
      var got := TakeIn(r);
      if got > 0 {
        Consume(n);
      } else if got == 0 {
        HandleClose();
      }
    }

    /** What a message callback does with its buffer. */
    method Consume(n: nat)
      requires BuffersOk() && n <= |input|
      modifies this`input, this`consumed, inputBuffer
      ensures BuffersOk() && Model() == Consumed(old(Model()), n) && inputBuffer.data == old(inputBuffer.data)
    {
      consumed := consumed + input[..n];
      input := input[n..];
      inputBuffer.Retrieve(n);
    }

    /** inputBuffer_.readFd. */
    method TakeIn(r: ReadResult) returns (n: int)
      requires BuffersOk() && (r.GotBytes? ==> Buffers.CanRead(inputBuffer.Model(), r.bytes))
      modifies this`input, inputBuffer, inputBuffer.data
      ensures BuffersOk() && (n == 0 <==> Eof(r)) && (n > 0 <==> r.GotBytes? && r.bytes != [])
      ensures Model() == Received(old(Model()), r)
    {
      var result := match r case GotBytes(bytes) => Some(bytes) case EndOfFile => Some([]) case ReadFailed => None;
      n := inputBuffer.ReadFd(result);
      if n > 0 {
        input := input + r.bytes;
      }
    }

    method HandleWrite(r: WriteResult)
      requires Valid() && (channel.events & WRITE_EVENT != 0 ==> channel.index != New)
      modifies this`wire, this`out, this`queue, this`shutdowns, this`cut, channel, channel.poller, outputBuffer
      ensures Valid() && Model() == WriteHandled(old(Model()), cfg, r)
    {
      var n := 0;
      if channel.events & WRITE_EVENT != 0 && r.Wrote? {
        n := Taken(r.n, outputBuffer.writer - outputBuffer.reader);
      }
      if n > 0 {
        Drain(n);
      }
    }

    method Drain(n: nat)
      requires BuffersOk() && ChannelOk() && n <= |out| && channel.index != New
      modifies this`wire, this`out, this`queue, this`shutdowns, this`cut, channel, channel.poller, outputBuffer
      ensures BuffersOk() && ChannelOk() && Model() == Drained(old(Model()), cfg, n)
    {
      TakeOut(n);
      if outputBuffer.writer == outputBuffer.reader {
        StopWriting();
      }
    }

    /** The kernel has taken the first `n` bytes of the output buffer. */
    method TakeOut(n: nat)
      requires BuffersOk() && n <= |out|
      modifies this`wire, this`out, outputBuffer
      ensures BuffersOk() && outputBuffer.data == old(outputBuffer.data)
      ensures var c := old(Model()); Model() == c.(wire := c.wire + c.out[..n], out := c.out[n..])
    {
      wire := wire + out[..n];
      out := out[n..];
      outputBuffer.Retrieve(n);
    }

    method DisableWriting()
      requires ChannelOk() && channel.index != New
      modifies channel, channel.poller
      ensures ChannelOk() && Model() == WithInterest(old(Model()), old(Model()).readOn, false)
    {
      ghost var c := Model();
      MaskOperations(c.readOn, c.writeOn);
      MaskOperations(c.readOn, false);
      channel.DisableWriting();
    }

    /** The output buffer is empty. */
    method StopWriting()
      requires ChannelOk() && channel.index != New
      modifies this`queue, this`shutdowns, this`cut, channel, channel.poller
      ensures ChannelOk()
      ensures var c := old(Model());
              var quiet := WithInterest(c, c.readOn, false).(queue := if cfg.writeComplete then c.queue + [WriteComplete] else c.queue);
              Model() == if c.state == Disconnecting then ShutInLoop(quiet) else quiet
    {
      DisableWriting();
      if cfg.writeComplete {
        queue := queue + [WriteComplete];
      }
      if state == Disconnecting {
        ShutdownInLoop();
      }
    }

    method ConnectDestroyed()
      requires Valid() && channel.index != New && (state == Connected || channel.events == NONE_EVENT)
      modifies this, channel, channel.poller
      ensures Valid() && Model() == DestroyedNow(old(Model()))
    {
      if state == Connected {
        HandleClose();
      }
      log := log + [Destroyed];
      RemoveChannel();
    }

    method RemoveChannel()
      requires ChannelOk() && channel.index != New && !Model().readOn && !Model().writeOn
      modifies channel, channel.poller
      ensures ChannelOk() && Model() == old(Model()).(index := New)
    {
      MaskOperations(false, false);
      assert channel.events == NONE_EVENT;
      channel.Remove();
    }
  }
}
