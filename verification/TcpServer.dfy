/**
 net/TcpServer.cc: how connections are handed between the acceptor's loop and their I/O loops.

 `Server` is the server with the functor queues of the loops, which run their functors in queue order.
 `State` adds the connections and what each loop thread is in the middle of; an event is one callback or
 one functor of one thread, so a run is any interleaving of the threads.
 */
module TcpServers {
  import opened Options
  import Pollers
  import opened TcpConnections

  type Id = nat       // nextConnId_ at creation, which the connection's name ends with
  type LoopId = nat

  datatype Task = EstablishConn(id: Id) | RemoveConn(id: Id) | DestroyConn(id: Id) | ForceCloseConn(id: Id)

  datatype Server = Server(
    acceptor: LoopId,
    nextConnId: Id,
    connections: map<Id, LoopId>,      // ConnectionMap, with the loop of each connection
    tasks: map<LoopId, seq<Task>>      // functors waiting in each loop
  )

  function Queue(sv: Server, l: LoopId, t: Task): Server
    requires l in sv.tasks
  {
    sv.(tasks := sv.tasks[l := sv.tasks[l] + [t]])
  }

  /** newConnection, after getNextLoop answered `l`.  runInLoop(connectEstablished) queues, unless `l` is
      the acceptor's own loop. */
  function Accepted(sv: Server, l: LoopId): Server
    requires l in sv.tasks
  {
    var id := sv.nextConnId;
    var r := sv.(nextConnId := id + 1, connections := sv.connections[id := l]);
    if l == sv.acceptor then r else Queue(r, l, EstablishConn(id))
  }

  function RemovedInLoop(sv: Server, id: Id, l: LoopId): Server
    requires l in sv.tasks
  {
    Queue(sv.(connections := sv.connections - {id}), l, DestroyConn(id))
  }

  /** removeConnection, called in loop `here` for a connection of loop `l`. */
  function Removed(sv: Server, id: Id, l: LoopId, here: LoopId): Server
    requires l in sv.tasks && sv.acceptor in sv.tasks
  {
    if here == sv.acceptor then RemovedInLoop(sv, id, l) else Queue(sv, sv.acceptor, RemoveConn(id))
  }

  // ---------- the system ----------

  /** A loop thread between callbacks, or inside handleEvent or forceCloseInLoop of one connection, with
      the callbacks still to come: closeCallback_, then the channel's close, read and write callbacks. */
  datatype Frame = Idle | Busy(id: Id, notify: bool, close: bool, read: bool, write: bool)

  /** A channel in activeChannels_, with the revents_ that poll has stored in it. */
  datatype Report = Report(id: Id, revents: bv16)

  /** A turn of a loop: the dispatch that follows a poll, and then the functors of one batch, of which `left`
      have still to run.  They are the first in the loop's queue; what is pushed meanwhile comes after them. */
  datatype Turn = Dispatching | Functors(left: nat)

  datatype State = State(
    server: Server,
    home: map<Id, LoopId>,
    conns: map<Id, Conn>,
    frames: map<LoopId, Frame>,
    waiting: map<LoopId, seq<Report>>,    // the active connections that each loop has still to visit
    turns: map<LoopId, Turn>,
    cfg: Config
  )

  /** poll fills the list of active channels; Begin visits the next of them.  In between, other callbacks and
      timers run, so a report can be out of date when it is handled.  When all are visited, the swap in
      doPendingFunctors takes the queue as it is, and RunTask runs it functor by functor. */
  datatype Event =
    | Poll(l: LoopId, reports: seq<Report>)
    | Begin(l: LoopId)
    | Accept(l: LoopId)
    | Swap(l: LoopId)
    | RunTask(l: LoopId)
    | Callback(l: LoopId, readResult: ReadResult, writeResult: WriteResult)
    | User(id: Id, op: Op)

  const ORDER: seq<Mark> := [Made, Up, Down, Notified, Erased, Destroyed]

  predicate UserOp(op: Op) {
    op.Send? || op.Shutdown? || op.ForceClose? || op.ForceCloseWithDelay? || op.StartRead? || op.StopRead? || op.Consume?
  }

  /** epoll reports what was asked for, and ERR and HUP unasked. */
  predicate Reports(mask: bv16, revents: bv16) {
    revents != 0 && revents & !(mask | Pollers.POLLERR | Pollers.POLLHUP) == 0
  }

  /** User code runs from functors and timers, or inside a callback that has passed the reading. */
  predicate UserRuns(f: Frame) {
    f.Idle? || (!f.close && !f.read)
  }

  predicate DistinctIds(q: seq<Report>) {
    forall i, j :: 0 <= i < j < |q| ==> q[i].id != q[j].id
  }

  /** What epoll_wait can report to loop `l` now. */
  ghost predicate Reportable(s: State, l: LoopId, r: Report) {
    && r.id in s.conns && r.id in s.home && s.home[r.id] == l
    && s.conns[r.id].index == Pollers.Added && Reports(Mask(s.conns[r.id].readOn, s.conns[r.id].writeOn), r.revents)
  }

  ghost predicate Enabled(s: State, ev: Event) {
    match ev
    case Poll(l, reports) =>
      && IdleLoop(s, l) && s.turns[l] == Functors(0)
      && DistinctIds(reports) && (forall r :: r in reports ==> Reportable(s, l, r))
    case Begin(l) => IdleLoop(s, l) && s.turns[l].Dispatching? && s.waiting[l] != []
    case Accept(l) => l in s.server.tasks && IdleLoop(s, s.server.acceptor) && s.turns[s.server.acceptor].Dispatching?
    case Swap(l) => IdleLoop(s, l) && s.turns[l].Dispatching? && s.waiting[l] == [] && l in s.server.tasks
    case RunTask(l) =>
      && IdleLoop(s, l) && s.turns[l].Functors? && 0 < s.turns[l].left
      && l in s.server.tasks && s.server.tasks[l] != []
    case Callback(l, _, _) => l in s.frames && s.frames[l].Busy?
    case User(id, op) =>
      && UserOp(op) && id in s.conns && |s.conns[id].log| >= 2 && TcpConnections.Allowed(s.conns[id], op)
      && id in s.home && s.home[id] in s.frames && UserRuns(s.frames[s.home[id]])
  }

  ghost predicate IdleLoop(s: State, l: LoopId) {
    l in s.frames && s.frames[l].Idle? && l in s.waiting && l in s.turns
  }

  /** The connection that `ev` closes: forceCloseInLoop, the close callback, or a read that finds the end. */
  ghost function ClosedBy(s: State, ev: Event): Option<Id> {
    if ev.RunTask? && Enabled(s, ev) && s.server.tasks[ev.l][0].ForceCloseConn?
       && s.server.tasks[ev.l][0].id in s.conns && Alive(s.conns[s.server.tasks[ev.l][0].id])
    then Some(s.server.tasks[ev.l][0].id)
    else if ev.Callback? && Enabled(s, ev) && !s.frames[ev.l].notify
            && (s.frames[ev.l].close || (s.frames[ev.l].read && Eof(ev.readResult)))
    then Some(s.frames[ev.l].id)
    else None
  }

  predicate WatchesNothing(c: Conn) {
    !c.readOn && !c.writeOn
  }

  /** The kernel reports HUP with IN, or without PRI and RDHUP. */
  predicate GoodReports(ev: Event) {
    ev.Poll? ==> forall r :: r in ev.reports ==> !(CallsClose(r.revents) && CallsRead(r.revents))
  }

  ghost predicate ClosesInTheDark(s: State, ev: Event) {
    ClosedBy(s, ev).Some? && ClosedBy(s, ev).value in s.conns && WatchesNothing(s.conns[ClosedBy(s, ev).value])
  }

  /** That, and a connection that watches for nothing is closed only by an outdated report, in the acceptor's
      loop.  There connectDestroyed is queued during the dispatch, and runs before the next poll. */
  ghost predicate Legal(s: State, ev: Event) {
    GoodReports(ev) && (ClosesInTheDark(s, ev) ==> ev.Callback? && ev.l == s.server.acceptor)
  }

  /** The assertions the source makes while `ev` happens: the state_ checks of connectEstablished and
      handleClose, erase returning 1, and those of Channel::remove and EPollPoller::removeChannel. */
  ghost predicate Asserts(s: State, ev: Event)
    requires Enabled(s, ev)
  {
    match ev
    case RunTask(l) =>
      (match s.server.tasks[l][0]
       case EstablishConn(id) => id in s.conns && s.conns[id].state == Connecting
       case RemoveConn(id) => id in s.server.connections
       case DestroyConn(id) =>
         id in s.conns && s.conns[id].index != Pollers.New && (s.conns[id].state == Connected || (!s.conns[id].readOn && !s.conns[id].writeOn))
       case ForceCloseConn(id) => true)
    case Callback(l, r, _) =>
      var f := s.frames[l];
      && f.id in s.conns
      && (f.notify && l == s.server.acceptor ==> f.id in s.server.connections)
      && (!f.notify && (f.close || (f.read && Eof(r))) ==> Alive(s.conns[f.id]))
    case _ => true
  }

  function Logged(c: Conn, m: Mark): Conn {
    c.(log := c.log + [m])
  }

  ghost function Made1(s: State, l: LoopId): State
    requires l in s.server.tasks
  {
    var id := s.server.nextConnId;
    s.(server := Accepted(s.server, l),
       home := s.home[id := l],
       conns := s.conns[id := if l == s.server.acceptor then Established(NewConn()) else NewConn()])
  }

  ghost function RanTask(s: State, l: LoopId): State
    requires l in s.server.tasks && s.server.tasks[l] != []
    requires l in s.turns && s.turns[l].Functors? && 0 < s.turns[l].left
  {
    var t := s.server.tasks[l][0];
    var sv := s.server.(tasks := s.server.tasks[l := s.server.tasks[l][1..]]);
    var r := s.(server := sv, turns := s.turns[l := Functors(s.turns[l].left - 1)]);
    if t.id !in s.conns || t.id !in s.home || s.home[t.id] !in sv.tasks then r
    else
      var c := s.conns[t.id];
      match t
      case EstablishConn(id) => r.(conns := s.conns[id := Established(c)])
      case RemoveConn(id) =>
        r.(server := RemovedInLoop(sv, id, s.home[id]), conns := s.conns[id := Logged(c, Erased)])
      case DestroyConn(id) => r.(conns := s.conns[id := DestroyedNow(c)])
      case ForceCloseConn(id) =>
        if Alive(c) then
          r.(conns := s.conns[id := Closed(c)], frames := s.frames[l := Busy(id, true, false, false, false)])
        else r
  }

  ghost function CalledBack(s: State, l: LoopId, r: ReadResult, w: WriteResult): State
    requires l in s.frames && s.frames[l].Busy?
  {
    var f := s.frames[l];
    if f.id !in s.conns || l !in s.server.tasks || s.server.acceptor !in s.server.tasks then s
    else
      var c := s.conns[f.id];
      if f.notify then
        s.(server := Removed(s.server, f.id, l, l),
           conns := s.conns[f.id := if l == s.server.acceptor then Logged(Logged(c, Notified), Erased) else Logged(c, Notified)],
           frames := s.frames[l := f.(notify := false)])
      else if f.close then
        s.(conns := s.conns[f.id := Closed(c)], frames := s.frames[l := f.(close := false, notify := true)])
      else if f.read then
        s.(conns := s.conns[f.id := ReadHandled(c, r)], frames := s.frames[l := f.(read := false, notify := Eof(r))])
      else if f.write then
        s.(conns := s.conns[f.id := WriteHandled(c, s.cfg, w)], frames := s.frames[l := f.(write := false)])
      else s.(frames := s.frames[l := Idle])
  }

  ghost function UserCalled(s: State, id: Id, op: Op): State
    requires id in s.conns && id in s.home && TcpConnections.Allowed(s.conns[id], op)
  {
    var c := s.conns[id];
    s.(conns := s.conns[id := TcpConnections.Apply(c, s.cfg, op)],
       server := if op.ForceClose? && Alive(c) && s.home[id] in s.server.tasks
                 then Queue(s.server, s.home[id], ForceCloseConn(id)) else s.server)
  }

  ghost function Visited(s: State, l: LoopId): State
    requires l in s.waiting && s.waiting[l] != []
  {
    var r := s.waiting[l][0];
    s.(waiting := s.waiting[l := s.waiting[l][1..]],
       frames := s.frames[l := Busy(r.id, false, CallsClose(r.revents), CallsRead(r.revents), CallsWrite(r.revents))])
  }

  ghost function Apply(s: State, ev: Event): State {
    if !Enabled(s, ev) then s
    else match ev
      case Accept(l) => Made1(s, l)
      case RunTask(l) => RanTask(s, l)
      case Poll(l, reports) => s.(waiting := s.waiting[l := reports], turns := s.turns[l := Dispatching])
      case Swap(l) => s.(turns := s.turns[l := Functors(|s.server.tasks[l]|)])
      case Begin(l) => Visited(s, l)
      case Callback(l, r, w) => CalledBack(s, l, r, w)
      case User(id, op) => UserCalled(s, id, op)
  }

  // ---------- the invariant ----------

  function Count(q: seq<Task>, t: Task): nat {
    multiset(q)[t]
  }

  /** How far a connection has come: the number of its marks. */
  ghost predicate StageOk(c: Conn) {
    && 1 <= |c.log| <= 6 && c.log == ORDER[..|c.log|]
    && ConnInv(c)
    && (|c.log| == 1 <==> c.state == Connecting)
    && (|c.log| == 2 <==> Alive(c))
    && (|c.log| == 1 || |c.log| == 6 <==> c.index == Pollers.New)
  }

  ghost predicate ConnOk(s: State, id: Id) {
    if id in s.conns then
      var c := s.conns[id];
      && id < s.server.nextConnId
      && StageOk(c)
      && id in s.home && s.home[id] in s.frames && s.home[id] in s.server.tasks
      && (id in s.server.connections <==> |c.log| <= 4)
      && (id in s.server.connections ==> s.server.connections[id] == s.home[id])
      && (|c.log| == 3 <==> s.frames[s.home[id]].Busy? && s.frames[s.home[id]].id == id && s.frames[s.home[id]].notify)
    else id !in s.server.connections && id !in s.home
  }

  function Stage(s: State, id: Id): nat {
    if id in s.conns then |s.conns[id].log| else 0
  }

  /** What waits in a loop's queue for a connection follows from how far the connection has come. */
  ghost predicate Waits(q: seq<Task>, id: Id, stage: nat, at: bool, acceptor: bool) {
    && Count(q, EstablishConn(id)) == (if stage == 1 && at then 1 else 0)
    && Count(q, RemoveConn(id)) == (if stage == 4 && acceptor then 1 else 0)
    && Count(q, DestroyConn(id)) == (if stage == 5 && at then 1 else 0)
    && (0 < Count(q, ForceCloseConn(id)) ==> stage >= 2 && at)
  }

  ghost predicate TaskOk(s: State, l: LoopId, id: Id) {
    l in s.server.tasks ==>
      Waits(s.server.tasks[l], id, Stage(s, id), id in s.home && s.home[id] == l, l == s.server.acceptor)
  }

  ghost predicate LoopOk(s: State, l: LoopId) {
    && (l in s.frames <==> l in s.server.tasks) && (l in s.waiting <==> l in s.server.tasks)
    && (l in s.turns <==> l in s.server.tasks)
    && (l in s.turns && s.turns[l].Functors? ==> s.turns[l].left <= |s.server.tasks[l]| && s.waiting[l] == [])
    && (l in s.frames && s.frames[l].Busy? ==>
          var f := s.frames[l];
          && f.id in s.conns && f.id in s.home && s.home[f.id] == l
          && (f.notify ==> |s.conns[f.id].log| == 3 && !f.close && !f.read)
          && (f.close || f.read ==> Alive(s.conns[f.id]))
          && !(f.close && f.read)
          && (s.turns[l].Functors? ==> !f.close && !f.read))
  }

  /** An active connection that has not been visited is up, whatever it watches for by now. */
  ghost predicate ReportOk(s: State, l: LoopId, r: Report) {
    && r.id in s.conns && r.id in s.home && s.home[r.id] == l && Alive(s.conns[r.id])
    && !(CallsClose(r.revents) && CallsRead(r.revents))
    && (l in s.frames && s.frames[l].Busy? ==> s.frames[l].id != r.id)
  }

  ghost predicate WaitingOk(s: State, l: LoopId) {
    l in s.waiting ==>
      DistinctIds(s.waiting[l]) && forall r {:trigger ReportOk(s, l, r)} {:trigger r in s.waiting[l]} :: r in s.waiting[l] ==> ReportOk(s, l, r)
  }

  /** A closed connection is still in the kernel's set only in the acceptor's loop, and only until the batch
      after the dispatch that closed it: connectDestroyed will be in that batch, or is. */
  ghost predicate DarkOk(s: State, id: Id) {
    id in s.conns && id in s.home && 3 <= |s.conns[id].log| <= 5 && s.conns[id].index == Pollers.Added ==>
      var l := s.home[id];
      && l == s.server.acceptor && l in s.turns && l in s.server.tasks
      && |s.conns[id].log| != 4
      && (s.turns[l].Functors? ==>
            |s.conns[id].log| == 5 && s.turns[l].left <= |s.server.tasks[l]| && DestroyConn(id) in s.server.tasks[l][..s.turns[l].left])
  }

  ghost predicate Inv(s: State) {
    && s.server.acceptor in s.server.tasks
    && (forall id {:trigger ConnOk(s, id)} :: ConnOk(s, id))
    && (forall id {:trigger DarkOk(s, id)} :: DarkOk(s, id))
    && (forall l {:trigger LoopOk(s, l)} :: LoopOk(s, l))
    && (forall l {:trigger WaitingOk(s, l)} :: WaitingOk(s, l))
    && (forall l, id {:trigger TaskOk(s, l, id)} :: TaskOk(s, l, id))
  }

  // ---------- every event keeps the invariant ----------

  /** Taking the first functor of a queue: others are untouched, and its connection moves on. */
  lemma Pop(q: seq<Task>, id: Id, stage: nat, at: bool, acceptor: bool)
    requires q != [] && Waits(q, id, stage, at, acceptor)
    ensures q[0].id != id ==> Waits(q[1..], id, stage, at, acceptor)
    ensures q[0] == EstablishConn(id) ==> Waits(q[1..], id, 2, at, acceptor)
    ensures q[0] == RemoveConn(id) && !at ==> Waits(q[1..], id, 5, false, acceptor)
    ensures q[0] == RemoveConn(id) && at ==> Waits(q[1..] + [DestroyConn(id)], id, 5, true, acceptor)
    ensures q[0] == DestroyConn(id) ==> Waits(q[1..], id, 6, at, acceptor)
    ensures q[0] == ForceCloseConn(id) ==> Waits(q[1..], id, stage, at, acceptor)
  {
    assert q == [q[0]] + q[1..];
    assert multiset(q) == multiset{q[0]} + multiset(q[1..]);
  }

  /** Queueing the functor that takes the connection on. */
  lemma PushOwn(q: seq<Task>, id: Id, stage: nat, at: bool, acceptor: bool)
    requires Waits(q, id, stage, at, acceptor)
    ensures stage == 3 && acceptor ==> Waits(q + [RemoveConn(id)], id, 4, at, true)
    ensures (stage == 3 || (stage == 4 && !acceptor)) && at ==> Waits(q + [DestroyConn(id)], id, 5, true, acceptor)
    ensures stage == 3 && !acceptor ==> Waits(q, id, 4, at, false)
    ensures (stage == 3 || (stage == 4 && !acceptor)) && !at ==> Waits(q, id, 5, false, acceptor)
  {
  }

  /** Queueing a functor for another connection. */
  lemma Push(q: seq<Task>, t: Task, id: Id, stage: nat, at: bool, acceptor: bool)
    requires Waits(q, id, stage, at, acceptor) && t.id != id
    ensures Waits(q + [t], id, stage, at, acceptor)
  {
  }

  lemma NextMark(log: seq<Mark>, m: Mark)
    requires |log| < 6 && log == ORDER[..|log|] && m == ORDER[|log|]
    ensures log + [m] == ORDER[..|log| + 1]
  {
  }

  lemma MadeIsOk()
    ensures StageOk(NewConn()) && StageOk(Established(NewConn()))
  {
    MaskIsInterest(true, false);
    NextMark([Made], Up);
  }

  lemma EstablishedIsOk(c: Conn)
    requires StageOk(c) && |c.log| == 1
    ensures StageOk(Established(c)) && |Established(c).log| == 2
  {
    TcpConnections.ApplyKeepsInv(c, Config(false, false, 0), TcpConnections.Op.Establish);
    MaskIsInterest(true, c.writeOn);
    NextMark(c.log, Up);
  }

  lemma ClosedIsOk(c: Conn)
    requires StageOk(c) && |c.log| == 2
    ensures StageOk(Closed(c)) && |Closed(c).log| == 3
    ensures Closed(c).index == if WatchesNothing(c) then Pollers.Added else Pollers.Deleted
  {
    TcpConnections.ApplyKeepsInv(c, Config(false, false, 0), TcpConnections.Op.HandleClose);
    MaskIsInterest(false, false);
    NextMark(c.log, Down);
  }

  lemma LoggedIsOk(c: Conn, m: Mark)
    requires StageOk(c) && 3 <= |c.log| <= 4 && m == ORDER[|c.log|]
    ensures StageOk(Logged(c, m))
  {
    NextMark(c.log, m);
  }

  lemma DestroyedIsOk(c: Conn)
    requires StageOk(c) && |c.log| == 5
    ensures StageOk(DestroyedNow(c)) && |DestroyedNow(c).log| == 6
  {
    TcpConnections.ApplyKeepsInv(c, Config(false, false, 0), TcpConnections.Op.Destroy);
    NextMark(c.log, Destroyed);
  }

  lemma AcceptKeepsTasks(s: State, l: LoopId, m: LoopId, id: Id)
    requires Inv(s) && Enabled(s, Accept(l))
    ensures TaskOk(Made1(s, l), m, id)
  {
    assert TaskOk(s, m, id) && ConnOk(s, id);
    if m in s.server.tasks && id != s.server.nextConnId {
      Push(s.server.tasks[m], EstablishConn(s.server.nextConnId), id, Stage(s, id),
           id in s.home && s.home[id] == m, m == s.server.acceptor);
    }
  }

  // A connection that has not been visited stays up: only its own loop closes it, from its own callback or
  // from a functor.

  lemma AcceptKeepsWaiting(s: State, l: LoopId, m: LoopId)
    requires Inv(s) && Enabled(s, Accept(l))
    ensures WaitingOk(Made1(s, l), m)
  {
    var r := Made1(s, l);
    assert WaitingOk(s, m) && ConnOk(s, s.server.nextConnId);
    forall p | m in r.waiting && p in r.waiting[m] ensures ReportOk(r, m, p) {
      assert ReportOk(s, m, p) && ConnOk(s, p.id);
    }
  }

  lemma UserKeepsWaiting(s: State, id: Id, op: Op, m: LoopId)
    requires Inv(s) && Enabled(s, User(id, op))
    ensures WaitingOk(UserCalled(s, id, op), m)
  {
    var r := UserCalled(s, id, op);
    assert WaitingOk(s, m) && ConnOk(s, id);
    UserOpIsOk(s.conns[id], s.cfg, op);
    forall p | m in r.waiting && p in r.waiting[m] ensures ReportOk(r, m, p) {
      assert ReportOk(s, m, p);
    }
  }

  lemma RunTaskKeepsWaiting(s: State, l: LoopId, m: LoopId)
    requires Inv(s) && Enabled(s, RunTask(l))
    ensures WaitingOk(RanTask(s, l), m)
  {
    var r := RanTask(s, l);
    HeadFacts(s, l);
    assert WaitingOk(s, m) && LoopOk(s, l);
    forall p | m in r.waiting && p in r.waiting[m] ensures ReportOk(r, m, p) {
      assert ReportOk(s, m, p) && ConnOk(s, p.id);
    }
  }

  lemma CallbackKeepsWaiting(s: State, l: LoopId, rd: ReadResult, w: WriteResult, m: LoopId)
    requires Inv(s) && Enabled(s, Callback(l, rd, w))
    ensures WaitingOk(CalledBack(s, l, rd, w), m)
  {
    var r := CalledBack(s, l, rd, w);
    assert WaitingOk(s, m) && LoopOk(s, l);
    forall p | m in r.waiting && p in r.waiting[m] ensures ReportOk(r, m, p) {
      assert ReportOk(s, m, p);
    }
  }

  // A closed connection in the kernel's set keeps its place in the turn of its loop.

  lemma PushedAfter(q: seq<Task>, t: Task, k: nat)
    requires k <= |q|
    ensures (q + [t])[..k] == q[..k]
  {
  }

  lemma AcceptKeepsDark(s: State, l: LoopId, id: Id)
    requires Inv(s) && Enabled(s, Accept(l))
    ensures DarkOk(Made1(s, l), id)
  {
    assert DarkOk(s, id) && ConnOk(s, s.server.nextConnId) && ConnOk(s, id);
    if id in s.home && s.home[id] in s.turns && s.turns[s.home[id]].Functors? && LoopOk(s, s.home[id]) {
      PushedAfter(s.server.tasks[s.home[id]], EstablishConn(s.server.nextConnId), s.turns[s.home[id]].left);
    }
  }

  lemma UserKeepsDark(s: State, id: Id, op: Op, j: Id)
    requires Inv(s) && Enabled(s, User(id, op))
    ensures DarkOk(UserCalled(s, id, op), j)
  {
    assert DarkOk(s, j) && ConnOk(s, id);
    UserOpIsOk(s.conns[id], s.cfg, op);
    if j in s.home && s.home[j] in s.turns && s.turns[s.home[j]].Functors? && LoopOk(s, s.home[j]) {
      PushedAfter(s.server.tasks[s.home[j]], ForceCloseConn(id), s.turns[s.home[j]].left);
    }
  }

  lemma SwapKeepsDark(s: State, l: LoopId, id: Id)
    requires Inv(s) && Enabled(s, Swap(l))
    ensures DarkOk(Apply(s, Swap(l)), id)
  {
    assert DarkOk(s, id) && ConnOk(s, id) && TaskOk(s, l, id);
    if id in s.home && s.home[id] == l && Stage(s, id) == 5 {
      assert DestroyConn(id) in multiset(s.server.tasks[l]);
      assert s.server.tasks[l][..|s.server.tasks[l]|] == s.server.tasks[l];
    }
  }

  /** Where a functor of the batch is after the first has been taken, and perhaps another pushed. */
  lemma InRestOfBatch(q: seq<Task>, left: nat, t: Task, pushed: Task)
    requires 0 < left <= |q| && t in q[..left] && q[0] != t
    ensures t in q[1..][..left - 1] && t in (q[1..] + [pushed])[..left - 1]
  {
    var i :| 0 <= i < left && q[i] == t;
    assert q[1..][i - 1] == t && (q[1..] + [pushed])[i - 1] == t;
  }

  /** The connection whose functor has run is not in the kernel's set any more, unless it is up. */
  lemma RunTaskKeepsOwnDark(s: State, l: LoopId)
    requires Inv(s) && Enabled(s, RunTask(l)) && Legal(s, RunTask(l)) && !s.server.tasks[l][0].ForceCloseConn?
    ensures DarkOk(RanTask(s, l), s.server.tasks[l][0].id)
  {
    HeadFacts(s, l);
    assert DarkOk(s, s.server.tasks[l][0].id);
  }

  lemma RunTaskKeepsOtherDark(s: State, l: LoopId, id: Id)
    requires Inv(s) && Enabled(s, RunTask(l)) && s.server.tasks[l][0] != DestroyConn(id)
    requires id != s.server.tasks[l][0].id || (s.server.tasks[l][0].ForceCloseConn? && Stage(s, id) >= 3)
    ensures DarkOk(RanTask(s, l), id)
  {
    HeadFacts(s, l);
    var t, q := s.server.tasks[l][0], s.server.tasks[l];
    assert DarkOk(s, id) && ConnOk(s, id) && LoopOk(s, l);
    if id in s.home && s.home[id] in s.turns && s.turns[s.home[id]].Functors? && LoopOk(s, s.home[id]) {
      var h := s.home[id];
      if h != l {
        PushedAfter(s.server.tasks[h], DestroyConn(t.id), s.turns[h].left);
      } else if DestroyConn(id) in q[..s.turns[l].left] {
        InRestOfBatch(q, s.turns[l].left, DestroyConn(id), DestroyConn(t.id));
      }
    }
  }

  lemma RunTaskKeepsDark(s: State, l: LoopId, id: Id)
    requires Inv(s) && Enabled(s, RunTask(l)) && Legal(s, RunTask(l))
    ensures DarkOk(RanTask(s, l), id)
  {
    HeadFacts(s, l);
    var t := s.server.tasks[l][0];
    if id != t.id {
      RunTaskKeepsOtherDark(s, l, id);
    } else if !t.ForceCloseConn? {
      RunTaskKeepsOwnDark(s, l);
    } else if Alive(s.conns[id]) {
      ClosedIsOk(s.conns[id]);
    } else {
      RunTaskKeepsOtherDark(s, l, id);
    }
  }

  lemma CallbackKeepsDark(s: State, l: LoopId, rd: ReadResult, w: WriteResult, id: Id)
    requires Inv(s) && Enabled(s, Callback(l, rd, w)) && Legal(s, Callback(l, rd, w))
    ensures DarkOk(CalledBack(s, l, rd, w), id)
  {
    var f := s.frames[l];
    assert LoopOk(s, l) && DarkOk(s, id) && DarkOk(s, f.id) && ConnOk(s, f.id) && ConnOk(s, id);
    if !f.notify && (f.close || (f.read && Eof(rd))) {
      ClosedIsOk(s.conns[f.id]);
    }
    if id in s.home && s.home[id] in s.turns && s.turns[s.home[id]].Functors? && LoopOk(s, s.home[id]) {
      var q, k := s.server.tasks[s.home[id]], s.turns[s.home[id]].left;
      PushedAfter(q, DestroyConn(f.id), k);
      PushedAfter(q, RemoveConn(f.id), k);
    }
  }

  lemma AcceptKeepsInv(s: State, l: LoopId)
    requires Inv(s) && Enabled(s, Accept(l))
    ensures Inv(Made1(s, l))
  {
    var r := Made1(s, l);
    var n := s.server.nextConnId;
    MadeIsOk();
    assert ConnOk(s, n) && LoopOk(s, l);
    forall id ensures ConnOk(r, id) && DarkOk(r, id) {
      assert ConnOk(s, id);
      AcceptKeepsDark(s, l, id);
    }
    forall m ensures LoopOk(r, m) {
      assert LoopOk(s, m);
    }
    forall m ensures WaitingOk(r, m) {
      AcceptKeepsWaiting(s, l, m);
    }
    forall m, id ensures TaskOk(r, m, id) {
      AcceptKeepsTasks(s, l, m, id);
    }
  }

  lemma PollKeepsInv(s: State, l: LoopId, reports: seq<Report>)
    requires Inv(s) && Enabled(s, Poll(l, reports)) && Legal(s, Poll(l, reports))
    ensures Inv(Apply(s, Poll(l, reports)))
  {
    var r := Apply(s, Poll(l, reports));
    forall j ensures ConnOk(r, j) && DarkOk(r, j) {
      assert ConnOk(s, j) && DarkOk(s, j);
    }
    forall m ensures LoopOk(r, m) && WaitingOk(r, m) {
      assert LoopOk(s, m) && WaitingOk(s, m);
      forall p | m in r.waiting && p in r.waiting[m] ensures ReportOk(r, m, p) {
        if m == l {
          PolledIsUp(s, l, p);
        } else {
          assert ReportOk(s, m, p);
        }
      }
    }
    forall m, j ensures TaskOk(r, m, j) {
      assert TaskOk(s, m, j);
    }
  }

  /** When its batch is done, what a loop finds in the kernel's set is up. */
  lemma PolledIsUp(s: State, l: LoopId, p: Report)
    requires Inv(s) && l in s.turns && s.turns[l] == Functors(0) && Reportable(s, l, p)
    ensures Alive(s.conns[p.id])
  {
    assert ConnOk(s, p.id) && DarkOk(s, p.id);
  }

  lemma SwapKeepsInv(s: State, l: LoopId)
    requires Inv(s) && Enabled(s, Swap(l))
    ensures Inv(Apply(s, Swap(l)))
  {
    var r := Apply(s, Swap(l));
    forall j ensures ConnOk(r, j) && DarkOk(r, j) {
      assert ConnOk(s, j);
      SwapKeepsDark(s, l, j);
    }
    forall m ensures LoopOk(r, m) && WaitingOk(r, m) {
      assert LoopOk(s, m) && WaitingOk(s, m);
      forall p | m in r.waiting && p in r.waiting[m] ensures ReportOk(r, m, p) {
        assert ReportOk(s, m, p);
      }
    }
    forall m, j ensures TaskOk(r, m, j) {
      assert TaskOk(s, m, j);
    }
  }

  lemma BeginKeepsInv(s: State, l: LoopId)
    requires Inv(s) && Enabled(s, Begin(l))
    ensures Inv(Visited(s, l))
  {
    var r, first := Visited(s, l), s.waiting[l][0];
    assert WaitingOk(s, l) && ReportOk(s, l, first) && ConnOk(s, first.id);
    forall j ensures ConnOk(r, j) && DarkOk(r, j) {
      assert ConnOk(s, j) && DarkOk(s, j);
    }
    forall m ensures LoopOk(r, m) && WaitingOk(r, m) {
      assert LoopOk(s, m) && WaitingOk(s, m);
      forall p | m in r.waiting && p in r.waiting[m] ensures ReportOk(r, m, p) {
        assert p in s.waiting[m] && ReportOk(s, m, p);
        if m == l {
          var i :| 1 <= i < |s.waiting[l]| && s.waiting[l][i] == p;
          assert s.waiting[l][0].id != s.waiting[l][i].id;
        }
      }
    }
    forall m, j ensures TaskOk(r, m, j) {
      assert TaskOk(s, m, j);
    }
  }

  lemma UserOpIsOk(c: Conn, cfg: Config, op: Op)
    requires StageOk(c) && |c.log| >= 2 && UserOp(op) && TcpConnections.Allowed(c, op)
    ensures var d := TcpConnections.Apply(c, cfg, op);
            StageOk(d) && d.log == c.log && (|c.log| >= 3 ==> d.index == c.index)
  {
    TcpConnections.ApplyKeepsInv(c, cfg, op);
  }

  lemma UserKeepsTasks(s: State, id: Id, op: Op, m: LoopId, j: Id)
    requires Inv(s) && Enabled(s, User(id, op))
    ensures TaskOk(UserCalled(s, id, op), m, j)
  {
    assert TaskOk(s, m, j) && ConnOk(s, id);
    UserOpIsOk(s.conns[id], s.cfg, op);
  }

  lemma UserKeepsInv(s: State, id: Id, op: Op)
    requires Inv(s) && Enabled(s, User(id, op))
    ensures Inv(UserCalled(s, id, op))
  {
    var r := UserCalled(s, id, op);
    var l := s.home[id];
    assert ConnOk(s, id) && LoopOk(s, l);
    UserOpIsOk(s.conns[id], s.cfg, op);
    forall j ensures ConnOk(r, j) && DarkOk(r, j) {
      assert ConnOk(s, j);
      UserKeepsDark(s, id, op, j);
    }
    forall m ensures LoopOk(r, m) && WaitingOk(r, m) {
      assert LoopOk(s, m);
      UserKeepsWaiting(s, id, op, m);
    }
    forall m, j ensures TaskOk(r, m, j) {
      UserKeepsTasks(s, id, op, m, j);
    }
  }

  // The head of a queue belongs to a connection that is waiting for it.

  lemma HeadFacts(s: State, l: LoopId)
    requires Inv(s) && Enabled(s, RunTask(l))
    ensures var t := s.server.tasks[l][0];
            && t.id in s.conns && t.id in s.home && s.home[t.id] in s.server.tasks && s.home[t.id] in s.frames
            && StageOk(s.conns[t.id])
            && match t
               case EstablishConn(_) => |s.conns[t.id].log| == 1 && s.home[t.id] == l
               case RemoveConn(_) => |s.conns[t.id].log| == 4 && l == s.server.acceptor
               case DestroyConn(_) => |s.conns[t.id].log| == 5 && s.home[t.id] == l
               case ForceCloseConn(_) => |s.conns[t.id].log| >= 2 && s.home[t.id] == l
  {
    var q := s.server.tasks[l];
    assert q[0] in multiset(q);
    assert 0 < Count(q, q[0]);
    assert TaskOk(s, l, q[0].id) && ConnOk(s, q[0].id);
  }

  lemma RunTaskKeepsConns(s: State, l: LoopId, id: Id)
    requires Inv(s) && Enabled(s, RunTask(l))
    ensures ConnOk(RanTask(s, l), id)
  {
    HeadFacts(s, l);
    var t := s.server.tasks[l][0];
    var c := s.conns[t.id];
    assert ConnOk(s, t.id) && ConnOk(s, id);
    match t
    case EstablishConn(_) => EstablishedIsOk(c);
    case RemoveConn(_) => LoggedIsOk(c, Erased);
    case DestroyConn(_) => DestroyedIsOk(c);
    case ForceCloseConn(_) =>
      if Alive(c) {
        ClosedIsOk(c);
      }
  }

  lemma RunTaskKeepsLoops(s: State, l: LoopId, m: LoopId)
    requires Inv(s) && Enabled(s, RunTask(l))
    ensures LoopOk(RanTask(s, l), m)
  {
    HeadFacts(s, l);
    var t := s.server.tasks[l][0];
    assert LoopOk(s, m) && LoopOk(s, l) && LoopOk(s, s.home[t.id]);
    assert m in s.frames && s.frames[m].Busy? ==> ConnOk(s, s.frames[m].id);
  }

  lemma RemoveKeepsOwnTasks(s: State, l: LoopId, m: LoopId)
    requires Inv(s) && Enabled(s, RunTask(l)) && s.server.tasks[l][0].RemoveConn?
    ensures TaskOk(RanTask(s, l), m, s.server.tasks[l][0].id)
  {
    HeadFacts(s, l);
    var own := s.server.tasks[l][0].id;
    assert TaskOk(s, m, own);
    if m in s.server.tasks {
      if m == l {
        Pop(s.server.tasks[m], own, 4, s.home[own] == m, true);
      } else {
        PushOwn(s.server.tasks[m], own, 4, s.home[own] == m, false);
      }
    }
  }

  /** The queue of loop `m` after the RemoveConn at the head of loop `l`'s queue has run. */
  lemma RemoveQueues(s: State, l: LoopId, m: LoopId)
    requires Inv(s) && Enabled(s, RunTask(l)) && s.server.tasks[l][0].RemoveConn? && m in s.server.tasks
    ensures var own := s.server.tasks[l][0].id;
            var r := RanTask(s, l);
            var q := if m == l then s.server.tasks[m][1..] else s.server.tasks[m];
            && own in s.home && m in r.server.tasks && r.home == s.home && r.server.acceptor == s.server.acceptor
            && r.server.tasks[m] == (if m == s.home[own] then q + [DestroyConn(own)] else q)
  {
    HeadFacts(s, l);
  }

  /** One queue: the waiting functors of another connection stay, whether or not the head is taken and
      something for `own` is put at the end. */
  lemma OtherWaits(q: seq<Task>, pop: bool, t: Task, push: bool, id: Id, stage: nat, at: bool, acceptor: bool)
    requires Waits(q, id, stage, at, acceptor) && t.id != id && (pop ==> q != [] && q[0].id != id)
    ensures var p := if pop then q[1..] else q;
            Waits(if push then p + [t] else p, id, stage, at, acceptor)
  {
    if pop {
      Pop(q, id, stage, at, acceptor);
    }
    Push(if pop then q[1..] else q, t, id, stage, at, acceptor);
  }

  lemma RemoveKeepsOtherTasks(s: State, l: LoopId, m: LoopId, id: Id)
    requires Inv(s) && Enabled(s, RunTask(l)) && s.server.tasks[l][0].RemoveConn? && id != s.server.tasks[l][0].id
    ensures TaskOk(RanTask(s, l), m, id)
  {
    assert TaskOk(s, m, id);
    if m in s.server.tasks {
      RemoveQueues(s, l, m);
      StageOfOthers(s, l, id);
      var own := s.server.tasks[l][0].id;
      OtherWaits(s.server.tasks[m], m == l, DestroyConn(own), m == s.home[own], id, Stage(s, id),
                 id in s.home && s.home[id] == m, m == s.server.acceptor);
    }
  }

  lemma StageOfOthers(s: State, l: LoopId, id: Id)
    requires Enabled(s, RunTask(l)) && id != s.server.tasks[l][0].id
    ensures Stage(RanTask(s, l), id) == Stage(s, id)
  {
  }

  /** The queues after the head of loop `l`'s queue, which is not a RemoveConn, has run. */
  lemma PoppedQueues(s: State, l: LoopId, m: LoopId)
    requires Inv(s) && Enabled(s, RunTask(l)) && !s.server.tasks[l][0].RemoveConn?
    ensures var r := RanTask(s, l);
            && r.home == s.home && r.server.acceptor == s.server.acceptor
            && r.server.tasks == s.server.tasks[l := s.server.tasks[l][1..]]
  {
    HeadFacts(s, l);
  }

  lemma StageOfOwn(s: State, l: LoopId)
    requires Inv(s) && Enabled(s, RunTask(l)) && !s.server.tasks[l][0].RemoveConn?
    ensures var t, now := s.server.tasks[l][0], Stage(RanTask(s, l), s.server.tasks[l][0].id);
            match t
            case EstablishConn(id) => now == 2
            case DestroyConn(id) => now == 6
            case ForceCloseConn(id) => now == Stage(s, id) || (Stage(s, id) == 2 && now == 3)
            case RemoveConn(_) => true
  {
    HeadFacts(s, l);
  }

  lemma PoppedKeepsTasks(s: State, l: LoopId, m: LoopId, id: Id)
    requires Inv(s) && Enabled(s, RunTask(l)) && !s.server.tasks[l][0].RemoveConn?
    ensures TaskOk(RanTask(s, l), m, id)
  {
    HeadFacts(s, l);
    assert TaskOk(s, m, id);
    PoppedQueues(s, l, m);
    if id == s.server.tasks[l][0].id {
      StageOfOwn(s, l);
    } else {
      StageOfOthers(s, l, id);
    }
    if m == l {
      Pop(s.server.tasks[l], id, Stage(s, id), id in s.home && s.home[id] == l, l == s.server.acceptor);
    }
  }

  lemma RunTaskKeepsTasks(s: State, l: LoopId, m: LoopId, id: Id)
    requires Inv(s) && Enabled(s, RunTask(l))
    ensures TaskOk(RanTask(s, l), m, id)
  {
    if !s.server.tasks[l][0].RemoveConn? {
      PoppedKeepsTasks(s, l, m, id);
    } else if id == s.server.tasks[l][0].id {
      RemoveKeepsOwnTasks(s, l, m);
    } else {
      RemoveKeepsOtherTasks(s, l, m, id);
    }
  }

  lemma NotifyKeepsConns(s: State, l: LoopId, rd: ReadResult, w: WriteResult, id: Id)
    requires Inv(s) && Enabled(s, Callback(l, rd, w)) && s.frames[l].notify
    ensures ConnOk(CalledBack(s, l, rd, w), id)
  {
    var own := s.frames[l].id;
    assert LoopOk(s, l) && ConnOk(s, own) && ConnOk(s, id);
    LoggedIsOk(s.conns[own], Notified);
    LoggedIsOk(Logged(s.conns[own], Notified), Erased);
  }

  /** A callback changes its own connection to `d` and its own frame to `g`. */
  lemma StepKeepsConns(s: State, l: LoopId, d: Conn, g: Frame, id: Id)
    requires Inv(s) && l in s.frames && s.frames[l].Busy? && !s.frames[l].notify
    requires StageOk(d) && s.frames[l].id in s.conns
    requires |d.log| == |s.conns[s.frames[l].id].log| || (|s.conns[s.frames[l].id].log| == 2 && |d.log| == 3)
    requires |d.log| == 3 <==> g.Busy? && g.notify
    requires g.Busy? ==> g.id == s.frames[l].id
    ensures ConnOk(s.(conns := s.conns[s.frames[l].id := d], frames := s.frames[l := g]), id)
  {
    assert LoopOk(s, l) && ConnOk(s, s.frames[l].id) && ConnOk(s, id);
  }

  lemma CallbackKeepsConns(s: State, l: LoopId, rd: ReadResult, w: WriteResult, id: Id)
    requires Inv(s) && Enabled(s, Callback(l, rd, w))
    ensures ConnOk(CalledBack(s, l, rd, w), id)
  {
    var f := s.frames[l];
    assert LoopOk(s, l) && ConnOk(s, f.id);
    var c := s.conns[f.id];
    if f.notify {
      NotifyKeepsConns(s, l, rd, w, id);
    } else if f.close {
      ClosedIsOk(c);
      StepKeepsConns(s, l, Closed(c), f.(close := false, notify := true), id);
    } else if f.read {
      if Eof(rd) {
        ClosedIsOk(c);
      }
      StepKeepsConns(s, l, ReadHandled(c, rd), f.(read := false, notify := Eof(rd)), id);
    } else if f.write {
      WriteHandledKeepsInv(c, s.cfg, w);
      StepKeepsConns(s, l, WriteHandled(c, s.cfg, w), f.(write := false), id);
    } else {
      StepKeepsConns(s, l, c, Idle, id);
      assert s.conns[f.id := c] == s.conns;
    }
  }

  lemma CallbackKeepsLoops(s: State, l: LoopId, rd: ReadResult, w: WriteResult, m: LoopId)
    requires Inv(s) && Enabled(s, Callback(l, rd, w))
    ensures LoopOk(CalledBack(s, l, rd, w), m)
  {
    var f := s.frames[l];
    assert LoopOk(s, l) && LoopOk(s, m) && ConnOk(s, f.id);
    assert LoopOk(s, s.server.acceptor) && LoopOk(s, s.home[f.id]);
  }

  /** The queue of loop `m` after removeConnection has been called from handleClose in loop `l`. */
  lemma NotifyQueues(s: State, l: LoopId, rd: ReadResult, w: WriteResult, m: LoopId)
    requires Inv(s) && Enabled(s, Callback(l, rd, w)) && s.frames[l].notify && m in s.server.tasks
    ensures var own := s.frames[l].id;
            var r := CalledBack(s, l, rd, w);
            && Stage(s, own) == 3 && Stage(r, own) == (if l == s.server.acceptor then 5 else 4)
            && own in s.home && s.home[own] == l
            && m in r.server.tasks && r.home == s.home && r.server.acceptor == s.server.acceptor
            && r.server.tasks[m] ==
               if l == s.server.acceptor then
                 if m == l then s.server.tasks[m] + [DestroyConn(own)] else s.server.tasks[m]
               else if m == s.server.acceptor then s.server.tasks[m] + [RemoveConn(own)]
               else s.server.tasks[m]
  {
    assert LoopOk(s, l);
  }

  lemma NotifyKeepsTasks(s: State, l: LoopId, rd: ReadResult, w: WriteResult, m: LoopId, id: Id)
    requires Inv(s) && Enabled(s, Callback(l, rd, w)) && s.frames[l].notify
    ensures TaskOk(CalledBack(s, l, rd, w), m, id)
  {
    assert TaskOk(s, m, id);
    if m in s.server.tasks {
      NotifyQueues(s, l, rd, w, m);
      var own, was := s.frames[l].id, s.server.tasks[m];
      var at, acceptor := id in s.home && s.home[id] == m, m == s.server.acceptor;
      if id == own {
        PushOwn(was, id, 3, at, acceptor);
      } else {
        assert Stage(CalledBack(s, l, rd, w), id) == Stage(s, id);
        OtherWaits(was, false, if l == s.server.acceptor then DestroyConn(own) else RemoveConn(own), acceptor,
                   id, Stage(s, id), at, acceptor);
      }
    }
  }

  lemma CallbackKeepsTasks(s: State, l: LoopId, rd: ReadResult, w: WriteResult, m: LoopId, id: Id)
    requires Inv(s) && Enabled(s, Callback(l, rd, w))
    ensures TaskOk(CalledBack(s, l, rd, w), m, id)
  {
    assert LoopOk(s, l) && TaskOk(s, m, id) && ConnOk(s, s.frames[l].id);
    if s.frames[l].notify {
      NotifyKeepsTasks(s, l, rd, w, m, id);
    }
  }

  lemma ApplyKeepsInv(s: State, ev: Event)
    requires Inv(s) && Legal(s, ev)
    ensures Inv(Apply(s, ev))
    ensures Enabled(s, ev) ==> Asserts(s, ev)
  {
    if Enabled(s, ev) {
      match ev
      case Accept(l) => AcceptKeepsInv(s, l);
      case RunTask(l) =>
        HeadFacts(s, l);
        assert ConnOk(s, s.server.tasks[l][0].id);
        forall id ensures ConnOk(RanTask(s, l), id) { RunTaskKeepsConns(s, l, id); }
        forall id ensures DarkOk(RanTask(s, l), id) { RunTaskKeepsDark(s, l, id); }
        forall m ensures LoopOk(RanTask(s, l), m) { RunTaskKeepsLoops(s, l, m); }
        forall m ensures WaitingOk(RanTask(s, l), m) { RunTaskKeepsWaiting(s, l, m); }
        forall m, id ensures TaskOk(RanTask(s, l), m, id) { RunTaskKeepsTasks(s, l, m, id); }
      case Poll(l, reports) => PollKeepsInv(s, l, reports);
      case Swap(l) => SwapKeepsInv(s, l);
      case Begin(l) => BeginKeepsInv(s, l);
      case Callback(l, r, w) =>
        assert LoopOk(s, l) && ConnOk(s, s.frames[l].id);
        forall id ensures ConnOk(CalledBack(s, l, r, w), id) { CallbackKeepsConns(s, l, r, w, id); }
        forall id ensures DarkOk(CalledBack(s, l, r, w), id) { CallbackKeepsDark(s, l, r, w, id); }
        forall m ensures LoopOk(CalledBack(s, l, r, w), m) { CallbackKeepsLoops(s, l, r, w, m); }
        forall m ensures WaitingOk(CalledBack(s, l, r, w), m) { CallbackKeepsWaiting(s, l, r, w, m); }
        forall m, id ensures TaskOk(CalledBack(s, l, r, w), m, id) { CallbackKeepsTasks(s, l, r, w, m, id); }
      case User(id, op) => UserKeepsInv(s, id, op);
    }
  }

  // ---------- what holds over every run ----------

  function Start(acceptor: LoopId, loops: set<LoopId>, cfg: Config): State {
    var all := loops + {acceptor};
    State(Server(acceptor, 1, map[], map l | l in all :: []), map[], map[],
          map l | l in all :: Idle, map l | l in all :: [], map l | l in all :: Functors(0), cfg)
  }

  lemma StartIsSound(acceptor: LoopId, loops: set<LoopId>, cfg: Config)
    ensures Inv(Start(acceptor, loops, cfg))
  {
    var s := Start(acceptor, loops, cfg);
    forall id ensures ConnOk(s, id) && DarkOk(s, id) {}
    forall l ensures LoopOk(s, l) && WaitingOk(s, l) {}
    forall l, id ensures TaskOk(s, l, id) {}
  }

  ghost predicate LegalRun(s: State, evs: seq<Event>)
    decreases |evs|
  {
    evs == [] || (Legal(s, evs[0]) && LegalRun(Apply(s, evs[0]), evs[1..]))
  }

  ghost function Run(s: State, evs: seq<Event>): State
    decreases |evs|
  {
    if evs == [] then s else Run(Apply(s, evs[0]), evs[1..])
  }

  lemma {:induction false} RunKeepsInv(s: State, evs: seq<Event>)
    requires Inv(s) && LegalRun(s, evs)
    ensures Inv(Run(s, evs))
    decreases |evs|
  {
    if evs != [] {
      ApplyKeepsInv(s, evs[0]);
      RunKeepsInv(Apply(s, evs[0]), evs[1..]);
    }
  }

  /** In every interleaving, each connection passes its milestones in order, each at most once; while it
      is on its way from one to the next, the work that takes it there is queued or about to run; and
      every assertion on the way holds. */
  lemma LifecycleOverRuns(acceptor: LoopId, loops: set<LoopId>, cfg: Config, evs: seq<Event>, id: Id)
    requires LegalRun(Start(acceptor, loops, cfg), evs)
    ensures var s := Run(Start(acceptor, loops, cfg), evs);
            && (id in s.conns ==>
                  var c := s.conns[id];
                  && |c.log| <= 6 && c.log == ORDER[..|c.log|]
                  && id in s.home && s.home[id] in s.server.tasks && s.home[id] in s.frames
                  && acceptor in s.server.tasks
                  && (c.log == ORDER[..1] ==> EstablishConn(id) in s.server.tasks[s.home[id]])
                  && (c.log == ORDER[..2] <==> Alive(c))
                  && (c.log == ORDER[..3] ==> s.frames[s.home[id]].Busy? && s.frames[s.home[id]].id == id && s.frames[s.home[id]].notify)
                  && (c.log == ORDER[..4] ==> RemoveConn(id) in s.server.tasks[acceptor])
                  && (c.log == ORDER[..5] ==> DestroyConn(id) in s.server.tasks[s.home[id]])
                  && (id in s.server.connections <==> Erased !in c.log)
                  && (id in s.server.connections ==> s.server.connections[id] == s.home[id]))
            && (forall ev :: Legal(s, ev) && Enabled(s, ev) ==> Asserts(s, ev))
  {
    var s0, s := Start(acceptor, loops, cfg), Run(Start(acceptor, loops, cfg), evs);
    StartIsSound(acceptor, loops, cfg);
    RunKeepsInv(s0, evs);
    AcceptorStays(s0, evs);
    forall ev | Legal(s, ev) && Enabled(s, ev) ensures Asserts(s, ev) {
      ApplyKeepsInv(s, ev);
    }
    assert ConnOk(s, id);
    if id in s.conns {
      var c, l := s.conns[id], s.home[id];
      assert TaskOk(s, l, id) && TaskOk(s, acceptor, id);
      MarksSoFar(c);
    }
  }

  lemma MarksSoFar(c: Conn)
    requires |c.log| <= 6 && c.log == ORDER[..|c.log|]
    ensures forall k: nat :: k <= 6 && c.log == ORDER[..k] ==> |c.log| == k
    ensures Erased in c.log <==> 5 <= |c.log|
  {
    assert 5 <= |c.log| ==> c.log[4] == Erased;
  }

  lemma AcceptorStep(s: State, ev: Event)
    ensures Apply(s, ev).server.acceptor == s.server.acceptor
  {
  }

  lemma {:induction false} AcceptorStays(s: State, evs: seq<Event>)
    ensures Run(s, evs).server.acceptor == s.server.acceptor
    decreases |evs|
  {
    if evs != [] {
      AcceptorStep(s, evs[0]);
      AcceptorStays(Apply(s, evs[0]), evs[1..]);
    }
  }

  ghost function Accepts(s: State, evs: seq<Event>): nat
    decreases |evs|
  {
    if evs == [] then 0 else (if evs[0].Accept? && Enabled(s, evs[0]) then 1 else 0) + Accepts(Apply(s, evs[0]), evs[1..])
  }

  ghost predicate Numbered(s: State) {
    forall id {:trigger id in s.conns} :: id in s.conns <==> 1 <= id < s.server.nextConnId
  }

  lemma NumberedStep(s: State, ev: Event)
    requires Numbered(s) && 1 <= s.server.nextConnId && Enabled(s, ev)
    ensures Numbered(Apply(s, ev)) && Apply(s, ev).server.nextConnId == s.server.nextConnId + if ev.Accept? then 1 else 0
  {
    if !ev.Accept? {
      OthersAcceptNobody(s, ev);
    }
  }

  lemma OthersAcceptNobody(s: State, ev: Event)
    requires Enabled(s, ev) && !ev.Accept?
    ensures Apply(s, ev).conns.Keys == s.conns.Keys && Apply(s, ev).server.nextConnId == s.server.nextConnId
  {
    match ev
    case RunTask(_) =>
    case Callback(_, _, _) =>
    case _ =>
  }

  lemma {:induction false} NumberedOver(s: State, evs: seq<Event>)
    requires Numbered(s) && 1 <= s.server.nextConnId
    ensures Numbered(Run(s, evs)) && Run(s, evs).server.nextConnId == s.server.nextConnId + Accepts(s, evs)
    decreases |evs|
  {
    if evs != [] {
      if Enabled(s, evs[0]) {
        NumberedStep(s, evs[0]);
      }
      NumberedOver(Apply(s, evs[0]), evs[1..]);
    }
  }

  /** The connections are numbered 1, 2, 3 and so on, in the order in which they were accepted, and no number is
      used twice. */
  lemma ConnectionsAreNumbered(acceptor: LoopId, loops: set<LoopId>, cfg: Config, evs: seq<Event>, id: Id)
    ensures var s0 := Start(acceptor, loops, cfg);
            id in Run(s0, evs).conns <==> 1 <= id <= Accepts(s0, evs)
  {
    NumberedOver(Start(acceptor, loops, cfg), evs);
  }

  ghost predicate Referenced(s: State, id: Id) {
    || id in s.server.connections
    || (exists l :: l in s.frames && s.frames[l].Busy? && s.frames[l].id == id)
    || (exists l, t :: l in s.server.tasks && t in s.server.tasks[l] && t.id == id)
  }

  lemma HeldUntilDestroyed(s: State, id: Id)
    requires Inv(s) && id in s.conns
    ensures StageOk(s.conns[id])
    ensures |s.conns[id].log| <= 5 ==> Referenced(s, id)
  {
    assert ConnOk(s, id);
    if |s.conns[id].log| == 5 {
      var l := s.home[id];
      assert TaskOk(s, l, id);
      assert DestroyConn(id) in multiset(s.server.tasks[l]);
      assert DestroyConn(id) in s.server.tasks[l] && DestroyConn(id).id == id;
    }
  }

  /** When the library holds no more references to a connection, it is disconnected, as its destructor
      asserts, and its channel is out of the poller. */
  lemma DroppedIsOutOfThePoller(acceptor: LoopId, loops: set<LoopId>, cfg: Config, evs: seq<Event>, id: Id)
    requires LegalRun(Start(acceptor, loops, cfg), evs)
    requires var s := Run(Start(acceptor, loops, cfg), evs); id in s.conns && !Referenced(s, id)
    ensures var c := Run(Start(acceptor, loops, cfg), evs).conns[id];
            c.state == Disconnected && c.index == Pollers.New && c.log == ORDER
  {
    StartIsSound(acceptor, loops, cfg);
    RunKeepsInv(Start(acceptor, loops, cfg), evs);
    HeldUntilDestroyed(Run(Start(acceptor, loops, cfg), evs), id);
    assert ORDER[..6] == ORDER;
  }

  // ---------- a visit is the dispatch of one event ----------

  lemma RunFive(s: State, a: Event, b: Event)
    ensures Run(s, [a, b, b, b, b]) == Apply(Apply(Apply(Apply(Apply(s, a), b), b), b), b)
  {
    var s1 := Apply(s, a);
    var s2 := Apply(s1, b);
    var s3 := Apply(s2, b);
    var s4 := Apply(s3, b);
    assert Run(s4, [b]) == Run(Apply(s4, b), []) == Apply(s4, b);
    assert [b, b][1..] == [b] && [b, b, b][1..] == [b, b] && [b, b, b, b][1..] == [b, b, b];
    assert Run(s3, [b, b]) == Run(s4, [b]);
    assert Run(s2, [b, b, b]) == Run(s3, [b, b]);
    assert Run(s1, [b, b, b, b]) == Run(s2, [b, b, b]);
    assert [a, b, b, b, b][1..] == [b, b, b, b];
  }

  /** The callbacks that a visit to a report has to make. */
  lemma VisitOwes(s: State, l: LoopId)
    requires Inv(s) && Enabled(s, Begin(l))
    ensures var r := s.waiting[l][0];
            && Apply(s, Begin(l)).frames[l] ==
               Busy(r.id, false, r.revents & Pollers.POLLHUP != 0 && r.revents & Pollers.POLLIN == 0,
                    r.revents & Pollers.POLLIN != 0 || r.revents & Pollers.POLLPRI != 0 || r.revents & Pollers.POLLRDHUP != 0,
                    r.revents & Pollers.POLLOUT != 0)
            && r.id in s.conns && Apply(s, Begin(l)).conns == s.conns
  {
    assert WaitingOk(s, l) && ReportOk(s, l, s.waiting[l][0]);
    ReadBits(s.waiting[l][0].revents);
  }

  /** What a loop is in the middle of, and the connection it is about. */
  datatype Visit = Visit(frame: Frame, conn: Conn)

  /** The marks that closeCallback_ leaves at once. */
  function Closing(here: bool): seq<Mark> {
    if here then [Notified, Erased] else [Notified]
  }

  /** One callback of a visit, as its connection sees it; `here`: in the acceptor's loop. */
  function Next(v: Visit, cfg: Config, here: bool, rd: ReadResult, w: WriteResult): Visit {
    var f, c := v.frame, v.conn;
    if f.Idle? then v
    else if f.notify then Visit(f.(notify := false), c.(log := c.log + Closing(here)))
    else if f.close then Visit(f.(close := false, notify := true), Closed(c))
    else if f.read then Visit(f.(read := false, notify := Eof(rd)), ReadHandled(c, rd))
    else if f.write then Visit(f.(write := false), WriteHandled(c, cfg, w))
    else Visit(Idle, c)
  }

  /** Loop `l` of `s` is at `v`, which is about connection `id`. */
  ghost predicate At(s: State, l: LoopId, id: Id, v: Visit) {
    && l in s.server.tasks && s.server.acceptor in s.server.tasks
    && l in s.frames && s.frames[l] == v.frame && (v.frame.Busy? ==> v.frame.id == id)
    && id in s.conns && s.conns[id] == v.conn
  }

  lemma CallbackIsNext(s: State, l: LoopId, id: Id, v: Visit, rd: ReadResult, w: WriteResult)
    requires At(s, l, id, v)
    ensures var r := Apply(s, Callback(l, rd, w));
            && At(r, l, id, Next(v, s.cfg, l == s.server.acceptor, rd, w))
            && r.cfg == s.cfg && r.server.acceptor == s.server.acceptor
  {
    assert v.conn.log + [Notified] + [Erased] == v.conn.log + [Notified, Erased];
  }

  /** The end of a visit. */
  lemma WriteIsLast(id: Id, write: bool, c: Conn, cfg: Config, here: bool, rd: ReadResult, w: WriteResult)
    ensures var end := Visit(Idle, if write then WriteHandled(c, cfg, w) else c);
            var v2 := Next(Next(Visit(Busy(id, false, false, false, write), c), cfg, here, rd, w), cfg, here, rd, w);
            v2 == end && Next(end, cfg, here, rd, w) == end
  {
  }

  /** The end of a visit that closes: the write callback finds nothing to do. */
  lemma NotifyThenNothing(id: Id, write: bool, c: Conn, cfg: Config, here: bool, rd: ReadResult, w: WriteResult)
    requires !c.writeOn
    ensures var v1 := Next(Visit(Busy(id, true, false, false, write), c), cfg, here, rd, w);
            Next(Next(v1, cfg, here, rd, w), cfg, here, rd, w) == Visit(Idle, c.(log := c.log + Closing(here)))
  {
    var d := c.(log := c.log + Closing(here));
    WriteIsLast(id, write, d, cfg, here, rd, w);
    assert WriteHandled(d, cfg, w) == d;
  }

  /** What four callbacks leave. */
  function Visited4(v: Visit, cfg: Config, here: bool, rd: ReadResult, w: WriteResult): Visit {
    Next(Next(Next(Next(v, cfg, here, rd, w), cfg, here, rd, w), cfg, here, rd, w), cfg, here, rd, w)
  }

  /** A visit that closes, and one that does not. */
  lemma ClosingVisit(id: Id, c: Conn, cfg: Config, here: bool, close: bool, read: bool, write: bool, rd: ReadResult, w: WriteResult)
    requires !(close && read) && (close || (read && Eof(rd)))
    ensures Visited4(Visit(Busy(id, false, close, read, write), c), cfg, here, rd, w) ==
            Visit(Idle, Closed(c).(log := Closed(c).log + Closing(here)))
  {
    NotifyThenNothing(id, write, Closed(c), cfg, here, rd, w);
  }

  lemma OtherVisit(id: Id, c: Conn, cfg: Config, here: bool, read: bool, write: bool, rd: ReadResult, w: WriteResult)
    requires !(read && Eof(rd))
    ensures var d := if read then ReadHandled(c, rd) else c;
            Visited4(Visit(Busy(id, false, false, read, write), c), cfg, here, rd, w) ==
            Visit(Idle, if write then WriteHandled(d, cfg, w) else d)
  {
    WriteIsLast(id, write, if read then ReadHandled(c, rd) else c, cfg, here, rd, w);
  }

  /** A visit as a whole. */
  lemma FourCallbacks(id: Id, c: Conn, cfg: Config, here: bool, revents: bv16, rd: ReadResult, w: WriteResult)
    requires Alive(c) && !(CallsClose(revents) && CallsRead(revents))
    ensures var v := Visit(Busy(id, false, CallsClose(revents), CallsRead(revents), CallsWrite(revents)), c);
            var d := HandledEvent(c, cfg, revents, rd, [], w);
            && d.Some?
            && Visited4(v, cfg, here, rd, w) == Visit(Idle, d.value.(log := d.value.log + if Alive(d.value) then [] else Closing(here)))
  {
    PlainEvent(c, cfg, revents, rd, w);
    if CallsClose(revents) || (CallsRead(revents) && Eof(rd)) {
      ClosingVisit(id, c, cfg, here, CallsClose(revents), CallsRead(revents), CallsWrite(revents), rd, w);
    } else {
      OtherVisit(id, c, cfg, here, CallsRead(revents), CallsWrite(revents), rd, w);
      var e := HandledEvent(c, cfg, revents, rd, [], w).value;
      assert e == e.(log := e.log + []);
    }
  }

  /** The callbacks of a visit, one at a time, do to the connection what Channel::handleEvent does to it when
      nothing else happens in between; then the loop is free again. */
  lemma VisitIsHandledEvent(s: State, l: LoopId, rd: ReadResult, w: WriteResult)
    requires Inv(s) && Enabled(s, Begin(l))
    ensures var rep, cb := s.waiting[l][0], Callback(l, rd, w);
            var r := Run(s, [Begin(l), cb, cb, cb, cb]);
            && rep.id in s.conns && rep.id in r.conns && l in r.frames && r.frames[l] == Idle
            && var d := HandledEvent(s.conns[rep.id], s.cfg, rep.revents, rd, [], w);
               d.Some? && r.conns[rep.id] == d.value.(log := d.value.log + if Alive(d.value) then [] else Closing(l == s.server.acceptor))
  {
    var rep, cb, here := s.waiting[l][0], Callback(l, rd, w), l == s.server.acceptor;
    assert WaitingOk(s, l) && ReportOk(s, l, rep) && LoopOk(s, l);
    var v := Visit(Busy(rep.id, false, CallsClose(rep.revents), CallsRead(rep.revents), CallsWrite(rep.revents)), s.conns[rep.id]);
    var s1 := Apply(s, Begin(l));
    assert At(s1, l, rep.id, v) && s1.cfg == s.cfg && s1.server == s.server;
    CallbackIsNext(s1, l, rep.id, v, rd, w);
    var v2, s2 := Next(v, s.cfg, here, rd, w), Apply(s1, cb);
    CallbackIsNext(s2, l, rep.id, v2, rd, w);
    var v3, s3 := Next(v2, s.cfg, here, rd, w), Apply(s2, cb);
    CallbackIsNext(s3, l, rep.id, v3, rd, w);
    var v4, s4 := Next(v3, s.cfg, here, rd, w), Apply(s3, cb);
    CallbackIsNext(s4, l, rep.id, v4, rd, w);
    FourCallbacks(rep.id, s.conns[rep.id], s.cfg, here, rep.revents, rd, w);
    RunFive(s, Begin(l), cb);
  }

  // ---------- what each event moves ----------

  /** The loop whose thread takes the step; None for the user's calls. */
  function LoopOf(s: State, ev: Event): Option<LoopId> {
    match ev
    case Poll(l, _) => Some(l)
    case Begin(l) => Some(l)
    case Accept(_) => Some(s.server.acceptor)
    case Swap(l) => Some(l)
    case RunTask(l) => Some(l)
    case Callback(l, _, _) => Some(l)
    case User(_, _) => None
  }

  /** A loop's turn: where it is, what it has still to visit, and what it is in the middle of. */
  datatype Progress = Progress(turn: Turn, waiting: seq<Report>, frame: Frame)

  ghost function ProgressOf(s: State, l: LoopId): Progress
    requires l in s.turns && l in s.waiting && l in s.frames
  {
    Progress(s.turns[l], s.waiting[l], s.frames[l])
  }

  /** poll fills the list, each visit takes the first from it, the swap fixes how many functors run, and each functor
      is one less; forceCloseInLoop goes on to closeCallback_ when the connection is up. */
  ghost function Moved(p: Progress, s: State, ev: Event): Progress
    requires Enabled(s, ev) && !ev.Callback?
  {
    match ev
    case Poll(_, reports) => p.(turn := Dispatching, waiting := reports)
    case Begin(l) => p.(waiting := s.waiting[l][1..], frame := Apply(s, ev).frames[l])
    case Swap(l) => p.(turn := Functors(|s.server.tasks[l]|))
    case RunTask(l) =>
      var t := s.server.tasks[l][0];
      p.(turn := Functors(s.turns[l].left - 1),
         frame := if t.ForceCloseConn? && t.id in s.conns && Alive(s.conns[t.id]) then Busy(t.id, true, false, false, false) else p.frame)
    case Accept(_) | User(_, _) => p
  }

  /** Only a loop's own thread moves it. */
  lemma LoopsMoveThemselves(s: State, ev: Event, l: LoopId)
    requires Inv(s) && Enabled(s, ev) && l in s.server.tasks
    ensures LoopOk(s, l) && l in Apply(s, ev).turns && l in Apply(s, ev).waiting && l in Apply(s, ev).frames
    ensures LoopOf(s, ev) != Some(l) ==> ProgressOf(Apply(s, ev), l) == ProgressOf(s, l)
    ensures LoopOf(s, ev) == Some(l) && !ev.Callback? ==> ProgressOf(Apply(s, ev), l) == Moved(ProgressOf(s, l), s, ev)
    ensures ev.Callback? ==> Apply(s, ev).turns == s.turns && Apply(s, ev).waiting == s.waiting
  {
    assert LoopOk(s, l);
    match ev
    case RunTask(m) => HeadFacts(s, m);
    case _ =>
  }

  /** A call of the user is made on its connection; a forceClose of a connection that is up also queues one
      forceCloseInLoop in the connection's loop.  Nothing else changes. */
  lemma UserCallIsMade(s: State, id: Id, op: Op)
    requires Inv(s) && Enabled(s, User(id, op))
    ensures var r, l := Apply(s, User(id, op)), s.home[id];
            && r.conns == s.conns[id := TcpConnections.Apply(s.conns[id], s.cfg, op)]
            && l in s.server.tasks
            && r.server == s.server.(tasks := if op == TcpConnections.Op.ForceClose && s.conns[id].state in {Connected, Disconnecting}
                                              then s.server.tasks[l := s.server.tasks[l] + [ForceCloseConn(id)]] else s.server.tasks)
            && r == s.(conns := r.conns, server := r.server)
  {
    assert ConnOk(s, id);
  }

  // ---------- closing a connection that watches for nothing ----------

  /** A run that the kernel and the threads can make, in which the last event meets a failing assertion. */
  ghost predicate FailingRun(s: State, evs: seq<Event>)
    decreases |evs|
  {
    && evs != [] && Enabled(s, evs[0]) && GoodReports(evs[0])
    && if |evs| == 1 then !Asserts(s, evs[0]) else FailingRun(Apply(s, evs[0]), evs[1..])
  }

  /** Connection `id` of loop `l` is closed and yet in the kernel's set, nothing that the loop has still to
      visit is about it, and its connectDestroyed is not in the batch that the loop runs before it polls. */
  ghost predicate Exposed(s: State, l: LoopId, id: Id) {
    && s.server.acceptor in s.server.tasks && l in s.server.tasks && l in s.frames && l in s.waiting && l in s.turns
    && id in s.conns && id in s.home && s.home[id] == l
    && s.conns[id].state == Disconnected && s.conns[id].index == Pollers.Added && WatchesNothing(s.conns[id])
    && (s.frames[l].Busy? ==> s.frames[l].id in s.conns && (s.frames[l].id == id ==> !s.frames[l].close && !s.frames[l].read))
    && (forall r :: r in s.waiting[l] ==> r.id in s.conns && r.id != id)
    && match s.turns[l]
       case Dispatching => l != s.server.acceptor && DestroyConn(id) !in s.server.tasks[l]
       case Functors(left) =>
         left <= |s.server.tasks[l]| && s.waiting[l] == [] && DestroyConn(id) !in s.server.tasks[l][..left]
  }

  ghost function Weight(f: Frame): nat {
    match f
    case Idle => 0
    case Busy(_, notify, close, read, write) =>
      1 + (if notify then 1 else 0) + (if close then 2 else 0) + (if read then 2 else 0) + (if write then 1 else 0)
  }

  /** How much the loop has to do before it swaps, or before it polls. */
  ghost function ToDo(s: State, l: LoopId): nat
    requires l in s.frames && l in s.waiting && l in s.turns
  {
    7 * |s.waiting[l]| + Weight(s.frames[l]) + if s.turns[l].Functors? then 8 * s.turns[l].left else 0
  }

  lemma CallbackKeepsExposed(s: State, l: LoopId, id: Id)
    requires Exposed(s, l, id) && s.frames[l].Busy?
    ensures var r := CalledBack(s, l, ReadFailed, WriteFailed(EWOULDBLOCK));
            Exposed(r, l, id) && r.turns == s.turns && ToDo(r, l) < ToDo(s, l)
  {
    if s.turns[l].Functors? {
      PushedAfter(s.server.tasks[l], DestroyConn(s.frames[l].id), s.turns[l].left);
      PushedAfter(s.server.tasks[l], RemoveConn(s.frames[l].id), s.turns[l].left);
    }
  }

  lemma VisitKeepsExposed(s: State, l: LoopId, id: Id)
    requires Exposed(s, l, id) && Enabled(s, Begin(l))
    ensures var r := Visited(s, l); Exposed(r, l, id) && r.turns == s.turns && ToDo(r, l) < ToDo(s, l)
  {
    assert s.waiting[l][0] in s.waiting[l];
    assert forall r :: r in s.waiting[l][1..] ==> r in s.waiting[l];
  }

  lemma SwapKeepsExposed(s: State, l: LoopId, id: Id)
    requires Exposed(s, l, id) && Enabled(s, Swap(l))
    ensures Exposed(Apply(s, Swap(l)), l, id)
  {
    assert s.server.tasks[l][..|s.server.tasks[l]|] == s.server.tasks[l];
  }

  lemma NotInRestOfBatch(q: seq<Task>, left: nat, t: Task, pushed: Task)
    requires 0 < left <= |q| && t !in q[..left]
    ensures q[0] != t && t !in q[1..][..left - 1] && (q[1..] + [pushed])[..left - 1] == q[1..][..left - 1]
  {
    assert q[..left] == [q[0]] + q[1..][..left - 1];
  }

  lemma RunTaskKeepsExposed(s: State, l: LoopId, id: Id)
    requires Exposed(s, l, id) && Enabled(s, RunTask(l)) && Asserts(s, RunTask(l))
    ensures var r := RanTask(s, l); Exposed(r, l, id) && r.turns[l].Functors? && ToDo(r, l) < ToDo(s, l)
  {
    var t := s.server.tasks[l][0];
    NotInRestOfBatch(s.server.tasks[l], s.turns[l].left, DestroyConn(id), DestroyConn(t.id));
  }

  lemma HupAlone()
    ensures Reports(Mask(false, false), Pollers.POLLHUP)
    ensures CallsClose(Pollers.POLLHUP) && !CallsRead(Pollers.POLLHUP) && !CallsWrite(Pollers.POLLHUP)
  {
  }

  /** The batch is done, the kernel reports the hang-up, the close callback runs again, and its assertion
      fails. */
  lemma HangUpFails(s: State, l: LoopId, id: Id)
    requires Exposed(s, l, id) && s.frames[l].Idle? && s.turns[l] == Functors(0)
    ensures FailingRun(s, [Poll(l, [Report(id, Pollers.POLLHUP)]), Begin(l), Callback(l, ReadFailed, Wrote(0))])
  {
    HupAlone();
    var hup := Report(id, Pollers.POLLHUP);
    var evs := [Poll(l, [hup]), Begin(l), Callback(l, ReadFailed, Wrote(0))];
    assert Reportable(s, l, hup);
    var s1 := Apply(s, evs[0]);
    assert s1.waiting[l] == [hup];
    var s2 := Apply(s1, evs[1]);
    assert s2.frames[l] == Busy(id, false, true, false, false);
    assert !Asserts(s2, evs[2]);
    assert evs[1..] == [Begin(l), Callback(l, ReadFailed, Wrote(0))] && evs[1..][1..] == [Callback(l, ReadFailed, Wrote(0))];
    assert FailingRun(s2, evs[1..][1..]);
    assert FailingRun(s1, evs[1..]);
  }

  lemma Prepend(s: State, ev: Event)
    requires Enabled(s, ev) && GoodReports(ev) && exists evs :: FailingRun(Apply(s, ev), evs)
    ensures exists evs :: FailingRun(s, evs)
  {
    var evs :| FailingRun(Apply(s, ev), evs);
    assert ([ev] + evs)[1..] == evs;
    assert FailingRun(s, [ev] + evs);
  }

  lemma {:induction false} ExposedFails(s: State, l: LoopId, id: Id)
    requires Exposed(s, l, id)
    ensures exists evs :: FailingRun(s, evs)
    decreases if s.turns[l].Dispatching? then 1 else 0, ToDo(s, l)
  {
    var ev := NextOf(s, l);
    if s.frames[l].Idle? && s.turns[l] == Functors(0) {
      HangUpFails(s, l, id);
    } else if !Asserts(s, ev) {
      assert FailingRun(s, [ev]);
    } else {
      match ev {
        case Callback(_, _, _) => CallbackKeepsExposed(s, l, id);
        case Begin(_) => VisitKeepsExposed(s, l, id);
        case Swap(_) => SwapKeepsExposed(s, l, id);
        case RunTask(_) => RunTaskKeepsExposed(s, l, id);
      }
      ExposedFails(Apply(s, ev), l, id);
      Prepend(s, ev);
    }
  }

  /** What the loop does next on its way to poll, when reads and writes find nothing. */
  ghost function NextOf(s: State, l: LoopId): (ev: Event)
    requires l in s.server.tasks && l in s.frames && l in s.waiting && l in s.turns
    requires s.turns[l].Functors? ==> s.turns[l].left <= |s.server.tasks[l]| && s.waiting[l] == []
    ensures (s.frames[l].Idle? && s.turns[l] == Functors(0)) || Enabled(s, ev)
    ensures ev.Callback? || ev.Begin? || ev.Swap? || ev.RunTask?
  {
    if s.frames[l].Busy? then Callback(l, ReadFailed, WriteFailed(EWOULDBLOCK))
    else if s.turns[l].Functors? then RunTask(l)
    else if s.waiting[l] != [] then Begin(l)
    else Swap(l)
  }

  lemma ClosingExposes(s: State, ev: Event, id: Id)
    requires Inv(s) && ClosesInTheDark(s, ev) && ClosedBy(s, ev) == Some(id) && !(ev.Callback? && ev.l == s.server.acceptor)
    ensures Exposed(Apply(s, ev), ev.l, id)
  {
    var l := ev.l;
    assert ConnOk(s, id) && LoopOk(s, l) && WaitingOk(s, l) && TaskOk(s, l, id);
    ClosedIsOk(s.conns[id]);
    assert DestroyConn(id) !in multiset(s.server.tasks[l]);
    assert DestroyConn(id) !in s.server.tasks[l];
    if ev.RunTask? {
      NotInRestOfBatch(s.server.tasks[l], s.turns[l].left, DestroyConn(id), DestroyConn(id));
    }
    forall r | r in s.waiting[l] ensures r.id in s.conns && r.id != id {
      assert ReportOk(s, l, r);
    }
  }

  /** Closing a connection that watches for nothing puts it back into the kernel's set without interest.  If
      forceCloseInLoop does it, or an outdated report in a loop other than the acceptor's, connectDestroyed is
      not in the batch that the loop runs before it polls again, and the run can go on to fail an assertion,
      with a kernel that reports as it should.  In all other cases none fails: `ApplyKeepsInv`. */
  lemma DarkCloseCanFail(s: State, ev: Event)
    requires Inv(s) && ClosesInTheDark(s, ev) && !(ev.Callback? && ev.l == s.server.acceptor)
    ensures Apply(s, ev).conns[ClosedBy(s, ev).value].index == Pollers.Added
    ensures exists evs :: FailingRun(Apply(s, ev), evs)
  {
    ClosingExposes(s, ev, ClosedBy(s, ev).value);
    ExposedFails(Apply(s, ev), ev.l, ClosedBy(s, ev).value);
  }

  // The three ways to close in the dark are reachable.

  /** From `s0`, the legal run `evs` ends in `s`. */
  ghost predicate Reaches(s0: State, evs: seq<Event>, s: State) {
    LegalRun(s0, evs) && Run(s0, evs) == s
  }

  lemma {:induction false} ReachNext(s0: State, evs: seq<Event>, s: State, ev: Event)
    requires Reaches(s0, evs, s) && Legal(s, ev)
    ensures Reaches(s0, evs + [ev], Apply(s, ev))
    decreases |evs|
  {
    if evs == [] {
      assert evs + [ev] == [ev] && [ev][1..] == [];
    } else {
      assert (evs + [ev])[1..] == evs[1..] + [ev];
      ReachNext(Apply(s0, evs[0]), evs[1..], s, ev);
    }
  }

  lemma InAlone()
    ensures Reports(Mask(true, false), Pollers.POLLIN)
    ensures !CallsClose(Pollers.POLLIN) && CallsRead(Pollers.POLLIN) && !CallsWrite(Pollers.POLLIN)
  {
  }

  /** The only connection, number 1, is up in loop `l`, which has nothing to do before it polls. */
  ghost predicate JustUp(s: State, l: LoopId) {
    && IdleLoop(s, l) && s.turns[l] == Functors(0) && s.waiting[l] == [] && l in s.server.tasks && s.server.tasks[l] == []
    && s.home == map[1 := l] && s.conns == map[1 := Established(NewConn())]
  }

  lemma UpInTheAcceptorsLoop(cfg: Config)
    ensures exists evs, s :: Reaches(Start(0, {}, cfg), evs, s) && JustUp(s, 0) && s.server.acceptor == 0
  {
    var s0 := Start(0, {}, cfg);
    var s1 := Apply(s0, Poll(0, []));
    var s2 := Apply(s1, Accept(0));
    assert Reaches(s0, [], s0);
    ReachNext(s0, [], s0, Poll(0, []));
    ReachNext(s0, [] + [Poll(0, [])], s1, Accept(0));
    ReachNext(s0, [] + [Poll(0, [])] + [Accept(0)], s2, Swap(0));
    assert JustUp(Apply(s2, Swap(0)), 0);
  }

  /** The acceptor's loop has made the connection, and loop 1 is to establish it. */
  ghost predicate JustMade(s: State) {
    && IdleLoop(s, 1) && s.turns[1] == Functors(0) && s.waiting[1] == []
    && 1 in s.server.tasks && s.server.tasks[1] == [EstablishConn(1)] && s.server.acceptor == 0
    && s.home == map[1 := 1] && s.conns == map[1 := NewConn()]
  }

  lemma MadeForAnotherLoop(cfg: Config)
    ensures exists evs, s :: Reaches(Start(0, {1}, cfg), evs, s) && JustMade(s)
  {
    var s0 := Start(0, {1}, cfg);
    var s1 := Apply(s0, Poll(0, []));
    assert Reaches(s0, [], s0);
    ReachNext(s0, [], s0, Poll(0, []));
    ReachNext(s0, [] + [Poll(0, [])], s1, Accept(1));
    assert JustMade(Apply(s1, Accept(1)));
  }

  lemma UpInAnotherLoop(s0: State, evs: seq<Event>, s: State)
    requires Reaches(s0, evs, s) && JustMade(s)
    ensures exists e, r :: Reaches(s0, e, r) && JustUp(r, 1) && r.server.acceptor == 0
  {
    var s1 := Apply(s, Poll(1, []));
    var s2 := Apply(s1, Swap(1));
    assert s2.turns[1] == Functors(1);
    ReachNext(s0, evs, s, Poll(1, []));
    ReachNext(s0, evs + [Poll(1, [])], s1, Swap(1));
    assert ClosedBy(s2, RunTask(1)) == None;
    ReachNext(s0, evs + [Poll(1, [])] + [Swap(1)], s2, RunTask(1));
    EstablishedInItsLoop(s2);
  }

  lemma EstablishedInItsLoop(s: State)
    requires Enabled(s, RunTask(1)) && s.turns[1] == Functors(1) && s.waiting[1] == []
    requires s.server.tasks[1] == [EstablishConn(1)] && s.home == map[1 := 1] && s.conns == map[1 := NewConn()]
    ensures JustUp(RanTask(s, 1), 1) && RanTask(s, 1).server.acceptor == s.server.acceptor
  {
  }

  /** The user has stopped reading and asked for a forced close. */
  ghost predicate JustForced(s: State, l: LoopId) {
    && IdleLoop(s, l) && s.turns[l] == Functors(0) && s.waiting[l] == []
    && l in s.server.tasks && s.server.tasks[l] == [ForceCloseConn(1)]
    && s.home == map[1 := l] && 1 in s.conns && Alive(s.conns[1]) && WatchesNothing(s.conns[1])
  }

  lemma StoppedAndForced(s0: State, evs: seq<Event>, s: State, l: LoopId)
    requires Reaches(s0, evs, s) && JustUp(s, l)
    ensures exists r :: Reaches(s0, evs + [User(1, StopRead), User(1, ForceClose)], r) && JustForced(r, l)
  {
    MaskIsInterest(true, false);
    MaskIsInterest(false, false);
    var s1 := Apply(s, User(1, StopRead));
    ReachNext(s0, evs, s, User(1, StopRead));
    ReachNext(s0, evs + [User(1, StopRead)], s1, User(1, ForceClose));
    assert evs + [User(1, StopRead)] + [User(1, ForceClose)] == evs + [User(1, StopRead), User(1, ForceClose)];
    assert JustForced(Apply(s1, User(1, ForceClose)), l);
  }

  lemma ForcedWayIn(s0: State, evs: seq<Event>, s: State, l: LoopId)
    requires Reaches(s0, evs, s) && JustForced(s, l)
    ensures exists r :: Reaches(s0, evs + [Poll(l, []), Swap(l)], r) && ClosesInTheDark(r, RunTask(l))
  {
    var s1 := Apply(s, Poll(l, []));
    var s2 := Apply(s1, Swap(l));
    assert s2.turns[l] == Functors(1);
    ReachNext(s0, evs, s, Poll(l, []));
    ReachNext(s0, evs + [Poll(l, [])], s1, Swap(l));
    assert evs + [Poll(l, [])] + [Swap(l)] == evs + [Poll(l, []), Swap(l)];
    assert ClosesInTheDark(s2, RunTask(l));
  }

  /** A report of the connection waits, and the user has stopped reading since. */
  ghost predicate JustOutdated(s: State, l: LoopId) {
    && IdleLoop(s, l) && s.turns[l].Dispatching? && s.waiting[l] == [Report(1, Pollers.POLLIN)]
    && s.home == map[1 := l] && 1 in s.conns && Alive(s.conns[1]) && WatchesNothing(s.conns[1])
  }

  lemma PolledAndStopped(s0: State, evs: seq<Event>, s: State, l: LoopId)
    requires Reaches(s0, evs, s) && JustUp(s, l)
    ensures exists r :: Reaches(s0, evs + [Poll(l, [Report(1, Pollers.POLLIN)]), User(1, StopRead)], r)
                        && JustOutdated(r, l) && r.server.acceptor == s.server.acceptor
  {
    MaskIsInterest(true, false);
    MaskIsInterest(false, false);
    InAlone();
    var poll := Poll(l, [Report(1, Pollers.POLLIN)]);
    assert Reportable(s, l, Report(1, Pollers.POLLIN));
    var s1 := Apply(s, poll);
    assert s1.waiting[l] == [Report(1, Pollers.POLLIN)];
    ReachNext(s0, evs, s, poll);
    ReachNext(s0, evs + [poll], s1, User(1, StopRead));
    assert evs + [poll] + [User(1, StopRead)] == evs + [poll, User(1, StopRead)];
    assert JustOutdated(Apply(s1, User(1, StopRead)), l);
  }

  /** The visit is about to read, and finds the end. */
  lemma OutdatedWayIn(s0: State, evs: seq<Event>, s: State, l: LoopId)
    requires Reaches(s0, evs, s) && JustOutdated(s, l)
    ensures exists r :: Reaches(s0, evs + [Begin(l)], r) && ClosesInTheDark(r, Callback(l, EndOfFile, Wrote(0)))
                        && r.server.acceptor == s.server.acceptor
  {
    InAlone();
    ReachNext(s0, evs, s, Begin(l));
    var r := Apply(s, Begin(l));
    assert r.frames[l] == Busy(1, false, false, true, false);
    assert ClosesInTheDark(r, Callback(l, EndOfFile, Wrote(0)));
  }

  lemma ForcedFrom(s0: State, evs: seq<Event>, s: State, l: LoopId)
    requires Reaches(s0, evs, s) && JustUp(s, l)
    ensures exists e, r :: Reaches(s0, e, r) && ClosesInTheDark(r, RunTask(l))
  {
    StoppedAndForced(s0, evs, s, l);
    var e := evs + [User(1, StopRead), User(1, ForceClose)];
    var t :| Reaches(s0, e, t) && JustForced(t, l);
    ForcedWayIn(s0, e, t, l);
  }

  lemma OutdatedFrom(s0: State, evs: seq<Event>, s: State, l: LoopId)
    requires Reaches(s0, evs, s) && JustUp(s, l)
    ensures exists e, r :: Reaches(s0, e, r) && ClosesInTheDark(r, Callback(l, EndOfFile, Wrote(0)))
                           && r.server.acceptor == s.server.acceptor
  {
    PolledAndStopped(s0, evs, s, l);
    var e := evs + [Poll(l, [Report(1, Pollers.POLLIN)]), User(1, StopRead)];
    var t :| Reaches(s0, e, t) && JustOutdated(t, l) && t.server.acceptor == s.server.acceptor;
    OutdatedWayIn(s0, e, t, l);
  }

  /** Legal events lead to a forced close in the dark, after which a run can fail. */
  lemma ForcedDarkCloseIsReachable(cfg: Config)
    ensures exists evs, s :: Reaches(Start(0, {}, cfg), evs, s) && ClosesInTheDark(s, RunTask(0))
  {
    UpInTheAcceptorsLoop(cfg);
    var evs, s :| Reaches(Start(0, {}, cfg), evs, s) && JustUp(s, 0) && s.server.acceptor == 0;
    ForcedFrom(Start(0, {}, cfg), evs, s, 0);
  }

  /** With a second loop they lead to an outdated report that closes in the dark, after which a run can fail. */
  lemma OutdatedDarkCloseIsReachable(cfg: Config)
    ensures exists evs, s :: Reaches(Start(0, {1}, cfg), evs, s) && s.server.acceptor == 0
                             && ClosesInTheDark(s, Callback(1, EndOfFile, Wrote(0)))
  {
    MadeForAnotherLoop(cfg);
    var first, s :| Reaches(Start(0, {1}, cfg), first, s) && JustMade(s);
    UpInAnotherLoop(Start(0, {1}, cfg), first, s);
    var evs, t :| Reaches(Start(0, {1}, cfg), evs, t) && JustUp(t, 1) && t.server.acceptor == 0;
    OutdatedFrom(Start(0, {1}, cfg), evs, t, 1);
  }

  /** In the acceptor's own loop the same outdated report is legal: no run fails because of it. */
  lemma OutdatedReportInTheAcceptorsLoop(cfg: Config)
    ensures exists evs, s :: Reaches(Start(0, {}, cfg), evs, s)
                             && ClosesInTheDark(s, Callback(0, EndOfFile, Wrote(0))) && Legal(s, Callback(0, EndOfFile, Wrote(0)))
  {
    UpInTheAcceptorsLoop(cfg);
    var evs, s :| Reaches(Start(0, {}, cfg), evs, s) && JustUp(s, 0) && s.server.acceptor == 0;
    OutdatedFrom(Start(0, {}, cfg), evs, s, 0);
  }

  // ---------- the class ----------

  class TcpServer {
    const acceptorLoop: LoopId
    var nextConnId: Id
    var connections: map<Id, LoopId>
    var tasks: map<LoopId, seq<Task>>

    ghost function Model(): Server
      reads this
    {
      Server(acceptorLoop, nextConnId, connections, tasks)
    }

    constructor (acceptor: LoopId, loops: set<LoopId>)
      ensures Model() == Start(acceptor, loops, Config(false, false, 0)).server
    {
      acceptorLoop := acceptor;
      nextConnId, connections := 1, map[];
      tasks := map l | l in loops + {acceptor} :: [];
    }

    /** EventLoop::queueInLoop of loop `l`. */
    method QueueInLoop(l: LoopId, t: Task)
      requires l in tasks
      modifies this`tasks
      ensures Model() == Queue(old(Model()), l, t)
    {
      tasks := tasks[l := tasks[l] + [t]];
    }

    /** `l` is getNextLoop's answer; `here` says that connectEstablished runs before runInLoop returns. */
    method NewConnection(l: LoopId) returns (id: Id, here: bool)
      requires l in tasks
      modifies this
      ensures id == old(nextConnId) && here == (l == acceptorLoop)
      ensures Model() == Accepted(old(Model()), l)
    {
      id, here := nextConnId, l == acceptorLoop;
      nextConnId := nextConnId + 1;
      connections := connections[id := l];
      if !here {
        QueueInLoop(l, EstablishConn(id));
      }
    }

    method RemoveConnection(id: Id, l: LoopId, here: LoopId) returns (n: nat)
      requires l in tasks && acceptorLoop in tasks
      modifies this
      ensures Model() == Removed(old(Model()), id, l, here)
      ensures here == acceptorLoop && id in old(connections) ==> n == 1
    {
      n := 0;
      if here == acceptorLoop {
        n := RemoveConnectionInLoop(id, l);
      } else {
        QueueInLoop(acceptorLoop, RemoveConn(id));
      }
    }

    /** `n` is what erase returned, which the source asserts to be 1. */
    method RemoveConnectionInLoop(id: Id, l: LoopId) returns (n: nat)
      requires l in tasks
      modifies this
      ensures Model() == RemovedInLoop(old(Model()), id, l)
      ensures |connections| == |old(connections)| - n
      ensures n == 1 <==> id in old(connections)
    {
      Erase(connections, id);
      n := if id in connections then 1 else 0;
      connections := connections - {id};
      QueueInLoop(l, DestroyConn(id));
    }
  }

  lemma Erase(m: map<Id, LoopId>, id: Id)
    ensures |m - {id}| == |m| - if id in m then 1 else 0
  {
    assert (m - {id}).Keys == m.Keys - {id};
    assert |m.Keys - {id}| == |m.Keys| - if id in m then 1 else 0;
    assert |(m - {id}).Keys| == |m - {id}| && |m.Keys| == |m|;
  }
}
