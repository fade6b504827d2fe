/**
 net/Connector.cc: connecting to a server, with retries.

 `State` is a connector with what it has asked of its loop and of the kernel: functors and timers that have
 not run yet, and what has become of each socket it made.  Sockets are numbered in the order of their
 creation, since the kernel reuses descriptors.
 */
module Connectors {
  import opened Options

  const INIT_RETRY_DELAY_MS: nat := 500
  const MAX_RETRY_DELAY_MS: nat := 30 * 1000

  datatype Phase = Disconnected | Connecting | Connected

  /** What connect(2) may answer; `Success` is a return value of 0. */
  datatype Errno =
    | Success | EINPROGRESS | EINTR | EISCONN
    | EAGAIN | EADDRINUSE | EADDRNOTAVAIL | ECONNREFUSED | ENETUNREACH
    | EACCES | EPERM | EAFNOSUPPORT | EALREADY | EBADF | EFAULT | ENOTSOCK
    | Unexpected

  datatype Job = StartInLoop | StopInLoop | ResetChannel

  type Sock = nat

  datatype Chan = Chan(fd: Sock, registered: bool)

  datatype State = State(
    connect: bool,
    phase: Phase,                      // state_
    channel: Option<Chan>,
    retryDelayMs: nat,
    jobs: seq<Job>,                    // functors of this connector queued in the loop
    timers: seq<nat>,                  // retry timers that have not fired, with their delays
    made: nat,                         // sockets created so far
    closed: multiset<Sock>,            // how often each has been closed
    handed: multiset<Sock>,            // how often each has been given to newConnectionCallback_
    delays: seq<nat>,                  // delays of the retries since construction or restart
    started: bool,                     // start has been called
    starting: bool,                    // start has set connect_ and not yet passed startInLoop to the loop
    stopping: nat                      // threads in stop that have cleared connect_ and not yet queued stopInLoop
  )

  /** start and stop may be called in any thread: each writes connect_ first and turns to the loop after. */
  datatype Event =
    | SetConnect
    | Launch(inLoop: bool, result: Errno)
    | ClearConnect
    | QueueStop
    | RunJob(result: Errno)            // the next functor
    | TimerFires(result: Errno)
    | Dispatch(error: bool, write: bool, soError: bool, selfConnect: bool)
    | Restart(result: Errno)

  const NEW := State(false, Disconnected, None, INIT_RETRY_DELAY_MS, [], [], 0, multiset{}, multiset{}, [], false, false, 0)

  predicate InProgress(e: Errno) {
    e.Success? || e.EINPROGRESS? || e.EINTR? || e.EISCONN?
  }

  predicate Retryable(e: Errno) {
    e.EAGAIN? || e.EADDRINUSE? || e.EADDRNOTAVAIL? || e.ECONNREFUSED? || e.ENETUNREACH?
  }

  function Min(a: nat, b: nat): nat {
    if a < b then a else b
  }

  // ---------- the operations ----------

  function Closing(s: State, fd: Sock): State {
    s.(closed := s.closed + multiset{fd})
  }

  function Retried(s: State, fd: Sock): State {
    var r := Closing(s, fd).(phase := Disconnected);
    if r.connect then
      r.(timers := r.timers + [r.retryDelayMs], delays := r.delays + [r.retryDelayMs],
         retryDelayMs := Min(r.retryDelayMs * 2, MAX_RETRY_DELAY_MS))
    else r
  }

  function ConnectingTo(s: State, fd: Sock): State {
    s.(phase := Connecting, channel := Some(Chan(fd, true)))
  }

  function ConnectAnswered(s: State, result: Errno): State {
    var fd, r := s.made, s.(made := s.made + 1);
    if InProgress(result) then ConnectingTo(r, fd)
    else if Retryable(result) then Retried(r, fd)
    else Closing(r, fd)
  }

  function StartedInLoop(s: State, result: Errno): State {
    if s.connect then ConnectAnswered(s, result) else s
  }

  function RemovedAndReset(s: State): State
    requires s.channel.Some?
  {
    s.(channel := Some(s.channel.value.(registered := false)), jobs := s.jobs + [ResetChannel])
  }

  function StoppedInLoop(s: State): State {
    if s.phase.Connecting? && s.channel.Some? then Retried(RemovedAndReset(s.(phase := Disconnected)), s.channel.value.fd) else s
  }

  function ErrorHandled(s: State): State {
    if s.phase.Connecting? && s.channel.Some? then Retried(RemovedAndReset(s), s.channel.value.fd) else s
  }

  function WriteHandled(s: State, soError: bool, selfConnect: bool): State {
    if s.phase.Connecting? && s.channel.Some? then
      var fd, r := s.channel.value.fd, RemovedAndReset(s);
      if soError || selfConnect then Retried(r, fd)
      else if r.connect then r.(phase := Connected, handed := r.handed + multiset{fd})
      else Closing(r.(phase := Connected), fd)
    else s
  }

  function Restarted(s: State, result: Errno): State {
    StartedInLoop(s.(phase := Disconnected, retryDelayMs := INIT_RETRY_DELAY_MS, connect := true, delays := []), result)
  }

  function RanJob(s: State, result: Errno): State
    requires s.jobs != []
  {
    var r := s.(jobs := s.jobs[1..]);
    match s.jobs[0]
    case StartInLoop => StartedInLoop(r, result)
    case StopInLoop => StoppedInLoop(r)
    case ResetChannel => r.(channel := None)
  }

  /** start is called once, restart by TcpClient once the connection has gone. */
  predicate Enabled(s: State, ev: Event) {
    match ev
    case SetConnect => !s.started
    case Launch(_, _) => s.starting
    case ClearConnect => true
    case QueueStop => s.stopping > 0
    case RunJob(_) => s.jobs != []
    case TimerFires(_) => s.timers != []
    case Dispatch(_, _, _, _) => s.channel.Some? && s.channel.value.registered
    case Restart(_) => s.phase.Connected?
  }

  /** A retry timer and restart come after the pending functors of the iteration that asked for them. */
  predicate Legal(s: State, ev: Event) {
    ev.TimerFires? || ev.Restart? ==> ResetChannel !in s.jobs
  }

  function Apply(s: State, ev: Event): State {
    if !Enabled(s, ev) then s
    else match ev
      case SetConnect => s.(connect := true, started := true, starting := true)
      case Launch(inLoop, result) =>
        var r := s.(starting := false);
        if inLoop then StartedInLoop(r, result) else r.(jobs := r.jobs + [StartInLoop])
      case ClearConnect => s.(connect := false, stopping := s.stopping + 1)
      case QueueStop => s.(jobs := s.jobs + [StopInLoop], stopping := s.stopping - 1)
      case RunJob(result) => RanJob(s, result)
      case TimerFires(result) => StartedInLoop(s.(timers := s.timers[1..]), result)
      case Dispatch(error, write, soError, selfConnect) =>
        var r := if error then ErrorHandled(s) else s;
        if write then WriteHandled(r, soError, selfConnect) else r
      case Restart(result) => Restarted(s, result)
  }

  /** startInLoop's assertion and connecting's, when `result` is what connect(2) will answer. */
  predicate StartAsserts(s: State, result: Errno) {
    s.phase.Disconnected? && (s.connect && InProgress(result) ==> s.channel.None?)
  }

  /** The assertions that `ev` runs into. */
  predicate Asserts(s: State, ev: Event)
    requires Enabled(s, ev)
  {
    match ev
    case SetConnect => true
    case Launch(inLoop, result) => inLoop ==> StartAsserts(s, result)
    case RunJob(result) => s.jobs[0].StartInLoop? ==> StartAsserts(s, result)
    case TimerFires(result) => StartAsserts(s, result)
    case Restart(result) => StartAsserts(s.(phase := Disconnected, connect := true), result)
    case Dispatch(error, write, _, _) =>
      write ==> var r := if error then ErrorHandled(s) else s; r.phase.Connecting? || r.phase.Disconnected?
    case ClearConnect => true
    case QueueStop => true
  }

  // ---------- the invariant ----------

  /** The k-th delay, counted from 0. */
  function Backoff(k: nat): nat {
    Min(INIT_RETRY_DELAY_MS * Pow2(k), MAX_RETRY_DELAY_MS)
  }

  function Pow2(k: nat): nat {
    if k == 0 then 1 else 2 * Pow2(k - 1)
  }

  lemma BackoffDoubles(k: nat)
    ensures Backoff(k + 1) == Min(Backoff(k) * 2, MAX_RETRY_DELAY_MS)
  {
  }

  predicate Holds(s: State, fd: Sock) {
    s.channel.Some? && s.channel.value.registered && s.channel.value.fd == fd
  }

  /** A socket is held by the registered channel, or has been closed once, or handed over once. */
  ghost predicate SocketOk(s: State, fd: Sock) {
    s.closed[fd] + s.handed[fd] + (if Holds(s, fd) then 1 else 0) == if fd < s.made then 1 else 0
  }

  ghost predicate DelaysOk(s: State) {
    && s.retryDelayMs == Backoff(|s.delays|)
    && (forall k {:trigger s.delays[k]} :: 0 <= k < |s.delays| ==> s.delays[k] == Backoff(k))
  }

  ghost predicate PhaseOk(s: State) {
    && (s.phase.Connecting? <==> s.channel.Some? && s.channel.value.registered)
    && multiset(s.jobs)[ResetChannel] == (if s.channel.Some? && !s.channel.value.registered then 1 else 0)
    && |s.timers| <= (if s.phase.Disconnected? then 1 else 0)
    && (s.timers != [] ==> s.delays != [] && s.timers[0] == s.delays[|s.delays| - 1])
    && multiset(s.jobs)[StartInLoop] <= 1
    && (0 < multiset(s.jobs)[StartInLoop] || !s.started || s.starting ==> s.phase.Disconnected? && s.channel.None? && s.timers == [])
    && (!s.started || s.starting ==> StartInLoop !in s.jobs)
    && (s.starting ==> s.started)
  }

  ghost predicate Inv(s: State) {
    PhaseOk(s) && DelaysOk(s) && (forall fd {:trigger SocketOk(s, fd)} :: SocketOk(s, fd))
  }

  // ---------- every event keeps the invariant ----------

  lemma Queued(q: seq<Job>, j: Job)
    ensures forall k {:trigger multiset(q + [j])[k]} :: multiset(q + [j])[k] == multiset(q)[k] + if j == k then 1 else 0
  {
  }

  lemma Unqueued(q: seq<Job>)
    requires q != []
    ensures forall k {:trigger multiset(q[1..])[k]} :: multiset(q[1..])[k] == multiset(q)[k] - if q[0] == k then 1 else 0
  {
    assert q == [q[0]] + q[1..];
    assert multiset(q) == multiset{q[0]} + multiset(q[1..]);
  }

  lemma RetriedKeepsDelays(s: State, fd: Sock)
    requires DelaysOk(s)
    ensures DelaysOk(Retried(s, fd))
  {
    BackoffDoubles(|s.delays|);
  }

  /** What the invariant needs of the fields when a connection attempt begins. */
  ghost predicate Ready(s: State) {
    && s.phase.Disconnected? && s.channel.None? && s.timers == [] && s.started && !s.starting
    && multiset(s.jobs)[ResetChannel] == 0 && multiset(s.jobs)[StartInLoop] == 0
    && DelaysOk(s) && (forall fd {:trigger SocketOk(s, fd)} :: SocketOk(s, fd))
  }

  lemma StartedKeepsInv(s: State, result: Errno)
    requires Ready(s)
    ensures Inv(StartedInLoop(s, result))
  {
    var r := StartedInLoop(s, result);
    if s.connect {
      RetriedKeepsDelays(s.(made := s.made + 1), s.made);
    }
    forall fd ensures SocketOk(r, fd) {
      assert SocketOk(s, fd);
    }
  }

  /** The connecting channel has reported, or stopInLoop gives it up: its socket is closed, and retried. */
  lemma GivenUpKeepsInv(s: State, phase: Phase)
    requires Inv(s) && s.phase.Connecting? && s.channel.Some?
    ensures Inv(Retried(RemovedAndReset(s.(phase := phase)), s.channel.value.fd))
  {
    var t := RemovedAndReset(s.(phase := phase));
    var r := Retried(t, s.channel.value.fd);
    Queued(s.jobs, ResetChannel);
    RetriedKeepsDelays(t, s.channel.value.fd);
    forall fd ensures SocketOk(r, fd) {
      assert SocketOk(s, fd) && SocketOk(s, s.channel.value.fd);
    }
  }

  lemma WrittenKeepsInv(s: State, soError: bool, selfConnect: bool)
    requires Inv(s)
    ensures Inv(WriteHandled(s, soError, selfConnect))
  {
    if s.phase.Connecting? {
      if soError || selfConnect {
        GivenUpKeepsInv(s, Connecting);
        assert s.(phase := Connecting) == s;
      } else {
        var r := WriteHandled(s, soError, selfConnect);
        Queued(s.jobs, ResetChannel);
        forall fd ensures SocketOk(r, fd) {
          assert SocketOk(s, fd) && SocketOk(s, s.channel.value.fd);
        }
      }
    }
  }

  lemma ErrorKeepsInv(s: State)
    requires Inv(s)
    ensures Inv(ErrorHandled(s))
  {
    if s.phase.Connecting? {
      GivenUpKeepsInv(s, Connecting);
      assert s.(phase := Connecting) == s;
    }
  }

  lemma RunJobKeepsInv(s: State, result: Errno)
    requires Inv(s) && s.jobs != []
    ensures Inv(RanJob(s, result))
  {
    var r := s.(jobs := s.jobs[1..]);
    Unqueued(s.jobs);
    assert s.jobs[0] in multiset(s.jobs);
    forall fd ensures SocketOk(r, fd) {
      assert SocketOk(s, fd);
    }
    match s.jobs[0]
    case StartInLoop => StartedKeepsInv(r, result);
    case StopInLoop =>
      assert Inv(r);
      if r.phase.Connecting? {
        GivenUpKeepsInv(r, Disconnected);
      }
    case ResetChannel =>
      forall fd ensures SocketOk(r.(channel := None), fd) {
        assert SocketOk(s, fd);
      }
  }

  lemma ApplyKeepsInv(s: State, ev: Event)
    requires Inv(s) && Legal(s, ev)
    ensures Inv(Apply(s, ev))
    ensures Enabled(s, ev) ==> Asserts(s, ev)
  {
    if Enabled(s, ev) {
      match ev
      case SetConnect => FlagsKeepInv(s, SetConnect);
      case Launch(inLoop, result) => LaunchKeepsInv(s, inLoop, result);
      case ClearConnect => FlagsKeepInv(s, ClearConnect);
      case QueueStop => QueueStopKeepsInv(s);
      case RunJob(result) =>
        assert s.jobs[0] in multiset(s.jobs);
        RunJobKeepsInv(s, result);
      case TimerFires(result) => TimerKeepsInv(s, result);
      case Dispatch(error, write, soError, selfConnect) =>
        ErrorKeepsInv(s);
        WrittenKeepsInv(if error then ErrorHandled(s) else s, soError, selfConnect);
      case Restart(result) => RestartKeepsInv(s, result);
    }
  }

  lemma LaunchKeepsInv(s: State, inLoop: bool, result: Errno)
    requires Inv(s) && s.starting
    ensures Inv(Apply(s, Launch(inLoop, result)))
  {
    var r := s.(starting := false);
    Queued(s.jobs, StartInLoop);
    forall fd ensures SocketOk(r, fd) && SocketOk(r.(jobs := r.jobs + [StartInLoop]), fd) {
      assert SocketOk(s, fd);
    }
    if inLoop {
      StartedKeepsInv(r, result);
    }
  }

  lemma FlagsKeepInv(s: State, ev: Event)
    requires Inv(s) && Enabled(s, ev) && (ev.SetConnect? || ev.ClearConnect?)
    ensures Inv(Apply(s, ev))
  {
    forall fd ensures SocketOk(Apply(s, ev), fd) {
      assert SocketOk(s, fd);
    }
  }

  lemma QueueStopKeepsInv(s: State)
    requires Inv(s) && s.stopping > 0
    ensures Inv(Apply(s, QueueStop))
  {
    Queued(s.jobs, StopInLoop);
    forall fd ensures SocketOk(Apply(s, QueueStop), fd) {
      assert SocketOk(s, fd);
    }
  }

  lemma TimerKeepsInv(s: State, result: Errno)
    requires Inv(s) && s.timers != [] && ResetChannel !in s.jobs
    ensures Inv(Apply(s, TimerFires(result)))
  {
    var r := s.(timers := s.timers[1..]);
    forall fd ensures SocketOk(r, fd) {
      assert SocketOk(s, fd);
    }
    StartedKeepsInv(r, result);
  }

  lemma RestartKeepsInv(s: State, result: Errno)
    requires Inv(s) && s.phase.Connected? && ResetChannel !in s.jobs
    ensures Inv(Restarted(s, result))
  {
    var r := s.(phase := Disconnected, retryDelayMs := INIT_RETRY_DELAY_MS, connect := true, delays := []);
    forall fd ensures SocketOk(r, fd) {
      assert SocketOk(s, fd);
    }
    StartedKeepsInv(r, result);
  }

  // ---------- what holds over every run ----------

  predicate LegalRun(s: State, evs: seq<Event>)
    decreases |evs|
  {
    evs == [] || (Legal(s, evs[0]) && LegalRun(Apply(s, evs[0]), evs[1..]))
  }

  function Run(s: State, evs: seq<Event>): State
    decreases |evs|
  {
    if evs == [] then s else Run(Apply(s, evs[0]), evs[1..])
  }

  lemma {:induction false} RunKeepsInv(s: State, evs: seq<Event>)
    requires Inv(s) && LegalRun(s, evs)
    ensures Inv(Run(s, evs))
    decreases |evs|
  {
    if evs != [] {
      ApplyKeepsInv(s, evs[0]);
      RunKeepsInv(Apply(s, evs[0]), evs[1..]);
    }
  }

  lemma ReachableIsSound(evs: seq<Event>)
    requires LegalRun(NEW, evs)
    ensures Inv(Run(NEW, evs))
  {
    forall f ensures SocketOk(NEW, f) {}
    RunKeepsInv(NEW, evs);
  }

  /** Every socket made so far is in exactly one place: held by the registered channel, closed once, or
      handed over once; nothing else is closed or handed over. */
  lemma SocketsAreConserved(evs: seq<Event>, fd: Sock)
    requires LegalRun(NEW, evs)
    ensures var s := Run(NEW, evs);
            && (fd < s.made ==>
                  || (Holds(s, fd) && s.closed[fd] == 0 && s.handed[fd] == 0)
                  || (!Holds(s, fd) && s.closed[fd] == 1 && s.handed[fd] == 0)
                  || (!Holds(s, fd) && s.closed[fd] == 0 && s.handed[fd] == 1))
            && (fd >= s.made ==> !Holds(s, fd) && s.closed[fd] == 0 && s.handed[fd] == 0)
  {
    ReachableIsSound(evs);
    assert SocketOk(Run(NEW, evs), fd);
  }

  /** The channel is registered exactly while the state is kConnecting; when nothing is queued and no
      attempt is in progress it is gone, as the destructor asserts; and whatever event comes next, the
      assertions it meets hold. */
  lemma RegisteredWhileConnecting(evs: seq<Event>, ev: Event)
    requires LegalRun(NEW, evs)
    ensures var s := Run(NEW, evs);
            && (s.phase.Connecting? <==> s.channel.Some? && s.channel.value.registered)
            && (s.jobs == [] && !s.phase.Connecting? ==> s.channel.None?)
            && (Legal(s, ev) && Enabled(s, ev) ==> Asserts(s, ev))
  {
    ReachableIsSound(evs);
    if Legal(Run(NEW, evs), ev) {
      ApplyKeepsInv(Run(NEW, evs), ev);
    }
  }

  /** `ev` calls startInLoop, and the connector wants to connect. */
  predicate Attempts(s: State, ev: Event) {
    Enabled(s, ev) &&
    match ev
    case Launch(inLoop, _) => inLoop && s.connect
    case RunJob(_) => s.jobs[0] == StartInLoop && s.connect
    case TimerFires(_) => s.connect
    case Restart(_) => true
    case _ => false
  }

  /** What becomes of an attempt, from `s` to `r`, by the answer of connect(2): the channel is registered with the
      new socket; or the socket is closed and one retry waits, with the delay due, and the next delay is twice as
      long, up to 30 s; or it is closed and nothing waits. */
  ghost predicate Outcome(s: State, r: State, e: Errno) {
    && r.made == s.made + 1 && r.handed == s.handed
    && if e == Success || e == EINPROGRESS || e == EINTR || e == EISCONN then
         && r.phase == Connecting && r.channel == Some(Chan(s.made, true)) && r.closed == s.closed
         && r.timers == [] && r.delays == s.delays && r.retryDelayMs == s.retryDelayMs
       else
         && r.phase == Disconnected && r.channel == None && r.closed == s.closed + multiset{s.made}
         && if e == EAGAIN || e == EADDRINUSE || e == EADDRNOTAVAIL || e == ECONNREFUSED || e == ENETUNREACH then
              && r.timers == [s.retryDelayMs] && r.delays == s.delays + [s.retryDelayMs]
              && r.retryDelayMs == if 2 * s.retryDelayMs <= 30000 then 2 * s.retryDelayMs else 30000
            else r.timers == [] && r.delays == s.delays && r.retryDelayMs == s.retryDelayMs
  }

  lemma StartDecides(s: State, e: Errno)
    requires s.connect && s.phase.Disconnected? && s.channel == None && s.timers == []
    ensures Outcome(s, StartedInLoop(s, e), e)
  {
  }

  /** Every attempt has this outcome: in start, for a queued start, for a retry, and in restart, which begins with
      the delay of 500 ms again. */
  lemma AnswerDecides(s: State, ev: Event)
    requires Inv(s) && Legal(s, ev) && Attempts(s, ev)
    ensures Outcome(if ev.Restart? then s.(retryDelayMs := 500, delays := []) else s, Apply(s, ev), ev.result)
  {
    match ev
    case Launch(_, e) => StartDecides(s.(starting := false), e);
    case RunJob(e) =>
      assert s.jobs[0] in multiset(s.jobs);
      StartDecides(s.(jobs := s.jobs[1..]), e);
    case TimerFires(e) => StartDecides(s.(timers := s.timers[1..]), e);
    case Restart(e) => StartDecides(s.(phase := Disconnected, retryDelayMs := 500, connect := true, delays := []), e);
  }

  /** The connecting channel has reported an error, or is writable and its socket has one or is connected to
      itself: the channel is unregistered, its socket closed, and one retry waits if the connector still wants
      to connect. */
  lemma FailureRetries(s: State, ev: Event)
    requires Inv(s) && Enabled(s, ev) && ev.Dispatch? && (ev.error || (ev.write && (ev.soError || ev.selfConnect)))
    ensures var r := Apply(s, ev);
            && r.phase == Disconnected && r.channel == Some(Chan(s.channel.value.fd, false)) && r.jobs == s.jobs + [ResetChannel]
            && r.closed == s.closed + multiset{s.channel.value.fd} && r.handed == s.handed && r.made == s.made
            && (s.connect ==> r.timers == [s.retryDelayMs] && r.delays == s.delays + [s.retryDelayMs])
            && (!s.connect ==> r.timers == [] && r.delays == s.delays)
  {
  }

  /** A socket is handed over exactly when its channel reports writability without an error, the socket has
      none and is not connected to itself, and the connector still wants to connect; if it does not, the socket
      is closed.  Either way the state is then kConnected, and nothing is retried. */
  lemma HandedExactlyOnSuccess(s: State, ev: Event)
    requires Inv(s)
    ensures var r := Apply(s, ev);
            var connected := Enabled(s, ev) && ev.Dispatch? && ev.write && !ev.error && !ev.soError && !ev.selfConnect;
            && (connected ==>
                  && r.phase == Connected && r.channel == Some(Chan(s.channel.value.fd, false)) && r.jobs == s.jobs + [ResetChannel]
                  && r.timers == [] && r.delays == s.delays && r.made == s.made
                  && r.handed == s.handed + (if s.connect then multiset{s.channel.value.fd} else multiset{})
                  && r.closed == s.closed + (if s.connect then multiset{} else multiset{s.channel.value.fd}))
            && (r.handed != s.handed ==> connected && s.connect)
  {
  }

  /** The k-th retry since construction or restart is scheduled min(500 * 2^k, 30000) ms ahead, and at most
      one retry is waiting, the last. */
  lemma BackoffIsCapped(evs: seq<Event>, k: nat)
    requires LegalRun(NEW, evs)
    ensures var s := Run(NEW, evs);
            && (k < |s.delays| ==> s.delays[k] == Min(500 * Pow2(k), 30000))
            && (s.timers != [] ==> s.delays != [] && s.timers == [s.delays[|s.delays| - 1]])
  {
    ReachableIsSound(evs);
    assert DelaysOk(Run(NEW, evs));
  }

  /** What the code needs of a retry timer: when the connector still wants to connect and connect(2) does
      not fail at once, connecting's assertion holds exactly when resetChannel has run since the last
      attempt. A timer that fires earlier, in the same iteration, breaks it. */
  lemma TimerBeforeResetFails(s: State, result: Errno)
    requires Inv(s) && Enabled(s, TimerFires(result))
    ensures Asserts(s, TimerFires(result)) <==> (s.connect && InProgress(result) ==> ResetChannel !in s.jobs)
  {
  }

  /** Such a timer is reachable: the connecting channel reports an error, and the retry waits together with
      resetChannel. */
  lemma EarlyTimerIsReachable()
    ensures var evs := [SetConnect, Launch(true, EINPROGRESS), Dispatch(true, false, false, false)];
            var s := Run(NEW, evs);
            && LegalRun(NEW, evs) && Enabled(s, TimerFires(EINPROGRESS)) && ResetChannel in s.jobs && s.connect
            && !Asserts(s, TimerFires(EINPROGRESS))
  {
    var evs := [SetConnect, Launch(true, EINPROGRESS), Dispatch(true, false, false, false)];
    var s1 := Apply(NEW, evs[0]);
    var s2 := Apply(s1, evs[1]);
    var s3 := Apply(s2, evs[2]);
    assert evs[1..] == [evs[1], evs[2]] && evs[1..][1..] == [evs[2]] && evs[1..][1..][1..] == [];
    assert Run(s2, [evs[2]]) == Run(s3, []) == s3 && LegalRun(s2, [evs[2]]);
    assert Run(s1, evs[1..]) == s3 && LegalRun(s1, evs[1..]);
  }

  /** startInLoop, called in the loop, by a retry timer or as a functor, does nothing when the connector does not
      want to connect. */
  lemma UnwantedStartDoesNothing(s: State, ev: Event)
    requires Enabled(s, ev) && !s.connect
    requires (ev.Launch? && ev.inLoop) || (ev.RunJob? && s.jobs[0] == StartInLoop) || ev.TimerFires?
    ensures Apply(s, ev) == match ev
                            case Launch(_, _) => s.(starting := false)
                            case RunJob(_) => s.(jobs := s.jobs[1..])
                            case _ => s.(timers := s.timers[1..])
  {
  }

  /** Calls in other threads reach the loop as functors, at the end of its queue. */
  lemma CallsAreQueued(s: State, ev: Event)
    requires Enabled(s, ev) && (ev.QueueStop? || (ev.Launch? && !ev.inLoop))
    ensures Apply(s, ev) == if ev.QueueStop? then s.(jobs := s.jobs + [StopInLoop], stopping := s.stopping - 1)
                            else s.(jobs := s.jobs + [StartInLoop], starting := false)
  {
  }

  /** Once connect_ is cleared, nothing but restart makes a new socket or schedules a retry, and after stopInLoop
      has run no attempt is in progress. */
  lemma {:induction false} OnceCleared(s: State, evs: seq<Event>)
    requires Inv(s) && LegalRun(s, evs) && s.started && !s.connect
    requires forall ev :: ev in evs ==> !ev.Restart?
    ensures var r := Run(s, evs);
            && !r.connect && r.made == s.made && r.delays == s.delays && r.handed == s.handed
            && (!s.phase.Connecting? ==> !r.phase.Connecting?)
    decreases |evs|
  {
    if evs != [] {
      var s1 := Apply(s, evs[0]);
      assert evs[0] in evs && forall ev :: ev in evs[1..] ==> ev in evs;
      ApplyKeepsInv(s, evs[0]);
      OnceCleared(s1, evs[1..]);
    }
  }

  /** So it is from the moment stop is called, in whatever state the connector is. */
  lemma StoppedStaysStopped(s: State, evs: seq<Event>)
    requires Inv(s) && s.started && LegalRun(Apply(s, ClearConnect), evs)
    requires forall ev :: ev in evs ==> !ev.Restart?
    ensures var r := Run(Apply(s, ClearConnect), evs);
            && !r.connect && r.made == s.made && r.delays == s.delays && r.handed == s.handed
            && (!s.phase.Connecting? ==> !r.phase.Connecting?)
  {
    ApplyKeepsInv(s, ClearConnect);
    OnceCleared(Apply(s, ClearConnect), evs);
  }

  // Nothing that was asked for is forgotten.

  /** The functors of a kind that have been asked for and not run: queued, or about to be. */
  ghost function Owed(s: State, job: Job): nat {
    multiset(s.jobs)[job] + match job
                            case StartInLoop => if s.starting then 1 else 0
                            case StopInLoop => s.stopping
                            case ResetChannel => 0
  }

  predicate HoldsChannel(s: State) {
    s.channel.Some? && s.channel.value.registered
  }

  /** How many `ev` asks for, and how many it runs. */
  ghost function Asks(s: State, ev: Event, job: Job): nat {
    if !Enabled(s, ev) then 0
    else match job
      case StartInLoop => if ev.SetConnect? then 1 else 0
      case StopInLoop => if ev.ClearConnect? then 1 else 0
      case ResetChannel => if HoldsChannel(s) && !HoldsChannel(Apply(s, ev)) then 1 else 0
  }

  ghost function Runs(s: State, ev: Event, job: Job): nat {
    if Enabled(s, ev) && ((ev.RunJob? && s.jobs[0] == job) || (ev.Launch? && ev.inLoop && job.StartInLoop?)) then 1 else 0
  }

  ghost function AsksOver(s: State, evs: seq<Event>, job: Job): nat
    decreases |evs|
  {
    if evs == [] then 0 else Asks(s, evs[0], job) + AsksOver(Apply(s, evs[0]), evs[1..], job)
  }

  ghost function RunsOver(s: State, evs: seq<Event>, job: Job): nat
    decreases |evs|
  {
    if evs == [] then 0 else Runs(s, evs[0], job) + RunsOver(Apply(s, evs[0]), evs[1..], job)
  }

  lemma StartTouchesNoQueue(s: State, result: Errno)
    ensures var r := StartedInLoop(s, result);
            && r.jobs == s.jobs && r.starting == s.starting && r.stopping == s.stopping
            && (HoldsChannel(s) ==> HoldsChannel(r))
  {
  }

  lemma GivingUpQueues(s: State, fd: Sock, phase: Phase)
    requires s.channel.Some?
    ensures var r := Retried(RemovedAndReset(s.(phase := phase)), fd);
            && r.jobs == s.jobs + [ResetChannel] && r.starting == s.starting && r.stopping == s.stopping && !HoldsChannel(r)
  {
  }

  lemma DispatchQueues(s: State, error: bool, write: bool, soError: bool, selfConnect: bool)
    requires s.phase.Connecting? && HoldsChannel(s)
    ensures var r := Apply(s, Dispatch(error, write, soError, selfConnect));
            && r.starting == s.starting && r.stopping == s.stopping && (HoldsChannel(r) <==> !error && !write)
            && r.jobs == if error || write then s.jobs + [ResetChannel] else s.jobs
  {
    GivingUpQueues(s, s.channel.value.fd, s.phase);
    assert s == s.(phase := s.phase);
  }

  lemma Counted(q: seq<Job>, j: Job, job: Job)
    ensures multiset(q + [j])[job] == multiset(q)[job] + if j == job then 1 else 0
    ensures q != [] ==> multiset(q[1..])[job] == multiset(q)[job] - if q[0] == job then 1 else 0
  {
    if q != [] {
      Unqueued(q);
    }
  }

  lemma JobOwed(s: State, result: Errno, job: Job)
    requires s.jobs != [] && (s.phase.Connecting? <==> HoldsChannel(s)) && (s.jobs[0] == ResetChannel ==> !HoldsChannel(s))
    ensures var r, ev := RanJob(s, result), RunJob(result);
            Owed(r, job) + Runs(s, ev, job) == Owed(s, job) + Asks(s, ev, job)
  {
    var t := s.(jobs := s.jobs[1..]);
    Counted(s.jobs, ResetChannel, job);
    Counted(t.jobs, ResetChannel, job);
    match s.jobs[0]
    case StartInLoop => StartTouchesNoQueue(t, result);
    case StopInLoop =>
      if s.phase.Connecting? {
        GivingUpQueues(t, t.channel.value.fd, Disconnected);
      }
    case ResetChannel =>
  }

  lemma CallOwed(s: State, ev: Event, job: Job)
    requires PhaseOk(s) && Enabled(s, ev) && (ev.SetConnect? || ev.ClearConnect? || ev.QueueStop?)
    ensures Owed(Apply(s, ev), job) + Runs(s, ev, job) == Owed(s, job) + Asks(s, ev, job)
  {
    Counted(s.jobs, StopInLoop, job);
  }

  lemma StartOwed(s: State, ev: Event, job: Job)
    requires Enabled(s, ev) && (ev.Launch? || ev.TimerFires? || ev.Restart?)
    ensures Owed(Apply(s, ev), job) + Runs(s, ev, job) == Owed(s, job) + Asks(s, ev, job)
  {
    Counted(s.jobs, StartInLoop, job);
    match ev
    case Launch(_, result) => StartTouchesNoQueue(s.(starting := false), result);
    case TimerFires(result) => StartTouchesNoQueue(s.(timers := s.timers[1..]), result);
    case Restart(result) =>
      StartTouchesNoQueue(s.(phase := Disconnected, retryDelayMs := INIT_RETRY_DELAY_MS, connect := true, delays := []), result);
  }

  lemma DispatchOwed(s: State, ev: Event, job: Job)
    requires Enabled(s, ev) && ev.Dispatch? && s.phase.Connecting?
    ensures Owed(Apply(s, ev), job) + Runs(s, ev, job) == Owed(s, job) + Asks(s, ev, job)
  {
    DispatchQueues(s, ev.error, ev.write, ev.soError, ev.selfConnect);
    Counted(s.jobs, ResetChannel, job);
  }

  lemma OwedStep(s: State, ev: Event, job: Job)
    requires PhaseOk(s) && Enabled(s, ev)
    ensures Owed(Apply(s, ev), job) + Runs(s, ev, job) == Owed(s, job) + Asks(s, ev, job)
  {
    match ev
    case RunJob(result) =>
      assert s.jobs[0] in multiset(s.jobs);
      JobOwed(s, result, job);
    case Dispatch(_, _, _, _) => DispatchOwed(s, ev, job);
    case Launch(_, _) => StartOwed(s, ev, job);
    case TimerFires(_) => StartOwed(s, ev, job);
    case Restart(_) => StartOwed(s, ev, job);
    case _ => CallOwed(s, ev, job);
  }

  lemma {:induction false} OwedOverRuns(s: State, evs: seq<Event>, job: Job)
    requires Inv(s) && LegalRun(s, evs)
    ensures Owed(Run(s, evs), job) + RunsOver(s, evs, job) == Owed(s, job) + AsksOver(s, evs, job)
    decreases |evs|
  {
    if evs != [] {
      if Enabled(s, evs[0]) {
        OwedStep(s, evs[0], job);
      }
      ApplyKeepsInv(s, evs[0]);
      OwedOverRuns(Apply(s, evs[0]), evs[1..], job);
    }
  }

  /** In every run, each call of start brings one startInLoop, each call of stop one stopInLoop, and each channel
      that is unregistered one resetChannel: run already, queued, or about to be queued by the thread that calls. */
  lemma CallsArriveOnce(evs: seq<Event>, job: Job)
    requires LegalRun(NEW, evs)
    ensures RunsOver(NEW, evs, job) + Owed(Run(NEW, evs), job) == AsksOver(NEW, evs, job)
  {
    forall f ensures SocketOk(NEW, f) {}
    OwedOverRuns(NEW, evs, job);
  }

  /** Whether the connector wants to connect is what the last call said. */
  ghost function Wants(s: State, evs: seq<Event>, wants: bool): bool
    decreases |evs|
  {
    if evs == [] then wants
    else Wants(Apply(s, evs[0]), evs[1..],
               if !Enabled(s, evs[0]) then wants
               else if evs[0].SetConnect? || evs[0].Restart? then true
               else if evs[0].ClearConnect? then false
               else wants)
  }

  lemma CallDecides(s: State, ev: Event)
    requires Enabled(s, ev)
    ensures Apply(s, ev).connect ==
            if ev.SetConnect? || ev.Restart? then true else if ev.ClearConnect? then false else s.connect
  {
    match ev
    case RunJob(_) =>
    case Dispatch(_, _, _, _) =>
    case _ =>
  }

  lemma {:induction false} LastCallDecides(s: State, evs: seq<Event>)
    ensures Run(s, evs).connect == Wants(s, evs, s.connect)
    decreases |evs|
  {
    if evs != [] {
      if Enabled(s, evs[0]) {
        CallDecides(s, evs[0]);
      }
      LastCallDecides(Apply(s, evs[0]), evs[1..]);
    }
  }

  lemma StopInLoopEndsTheAttempt(s: State, result: Errno)
    requires Inv(s) && s.jobs != [] && s.jobs[0] == StopInLoop
    ensures var r := Apply(s, RunJob(result));
            && !r.phase.Connecting?
            && (s.phase.Connecting? ==> s.channel.Some? && r.closed == s.closed + multiset{s.channel.value.fd} && r.phase.Disconnected?)
            && (r.delays != s.delays <==> s.phase.Connecting? && s.connect)
  {
  }

  // ---------- the class ----------

  /** The three ways out of the switch in `connect`. */
  datatype Next = ToConnecting | ToRetry | ToClose

  /** `all` also holds what the loop and the kernel have been asked to do. */
  class Connector {
    var connect: bool
    var phase: Phase
    var channel: Option<Chan>
    var retryDelayMs: nat
    var made: nat                      // the kernel's count of the sockets made
    ghost var all: State

    ghost predicate Valid()
      reads this
    {
      connect == all.connect && phase == all.phase && channel == all.channel && retryDelayMs == all.retryDelayMs && made == all.made
    }

    constructor ()
      ensures Valid() && all == NEW && Inv(all)
    {
      connect, phase, channel, retryDelayMs, made := false, Disconnected, None, INIT_RETRY_DELAY_MS, 0;
      all := NEW;
      new;
      forall f ensures SocketOk(NEW, f) {}
    }

    /** `inLoop`: the caller is the loop's thread, so startInLoop runs at once. */
    method Start(inLoop: bool, result: Errno)
      requires Valid() && Inv(all) && !all.started
      modifies this
      ensures Valid() && Inv(all) && all == Apply(Apply(old(all), SetConnect), Launch(inLoop, result))
    {
      FlagsKeepInv(all, SetConnect);
      connect := true;
      all := Apply(all, SetConnect);
      LaunchKeepsInv(all, inLoop, result);
      all := all.(starting := false);
      if inLoop {
        BeginInLoop(result);
      } else {
        all := all.(jobs := all.jobs + [StartInLoop]);
      }
    }

    method Stop()
      requires Valid() && Inv(all)
      modifies this
      ensures Valid() && Inv(all) && all == Apply(Apply(old(all), ClearConnect), QueueStop)
    {
      FlagsKeepInv(all, ClearConnect);
      connect := false;
      all := Apply(all, ClearConnect);
      QueueStopKeepsInv(all);
      all := Apply(all, QueueStop);
    }

    /** startInLoop */
    method BeginInLoop(result: Errno)
      requires Valid() && StartAsserts(all, result)
      modifies this
      ensures Valid() && all == StartedInLoop(old(all), result)
    {
      assert phase == Disconnected;
      if connect {
        Connect(result);
      }
    }

    method Connect(result: Errno)
      requires Valid() && (InProgress(result) ==> channel.None?)
      modifies this
      ensures Valid() && all == ConnectAnswered(old(all), result) && made == old(made) + 1
      ensures result == Success || result == EINPROGRESS || result == EINTR || result == EISCONN
         <==> all.closed == old(all).closed
      ensures all.closed == old(all).closed ==> phase == Connecting && channel == Some(Chan(old(made), true))
      ensures all.closed != old(all).closed ==> all.closed == old(all).closed + multiset{old(made)} && channel == old(channel)
      ensures connect && (result == EAGAIN || result == EADDRINUSE || result == EADDRNOTAVAIL || result == ECONNREFUSED || result == ENETUNREACH)
         <==> all.timers == old(all).timers + [old(retryDelayMs)]
    {
      var fd := NewSocket();
      var next := match result
        case Success | EINPROGRESS | EINTR | EISCONN => ToConnecting
        case EAGAIN | EADDRINUSE | EADDRNOTAVAIL | ECONNREFUSED | ENETUNREACH => ToRetry
        case EACCES | EPERM | EAFNOSUPPORT | EALREADY | EBADF | EFAULT | ENOTSOCK => ToClose
        case Unexpected => ToClose;
      match next
      case ToConnecting => BeginConnecting(fd);
      case ToRetry => Retry(fd);
      case ToClose => CloseSocket(fd);
    }

    method NewSocket() returns (fd: Sock)
      requires Valid()
      modifies this`all, this`made
      ensures Valid() && fd == old(made) && all == old(all).(made := fd + 1)
    {
      fd := made;
      made := made + 1;
      all := all.(made := made);
    }

    method CloseSocket(fd: Sock)
      requires Valid()
      modifies this`all
      ensures Valid() && all == Closing(old(all), fd)
    {
      all := Closing(all, fd);
    }

    /** connecting */
    method BeginConnecting(fd: Sock)
      requires Valid() && channel.None?
      modifies this
      ensures Valid() && all == ConnectingTo(old(all), fd)
    {
      phase := Connecting;
      channel := Some(Chan(fd, true));
      all := all.(phase := phase, channel := channel);
    }

    method RemoveAndResetChannel() returns (fd: Sock)
      requires Valid() && channel.Some?
      modifies this
      ensures Valid() && fd == old(channel).value.fd && all == RemovedAndReset(old(all))
    {
      fd := channel.value.fd;
      channel := Some(channel.value.(registered := false));
      all := all.(channel := channel, jobs := all.jobs + [ResetChannel]);
    }

    method Reset()
      requires Valid()
      modifies this
      ensures Valid() && all == old(all).(channel := None)
    {
      channel := None;
      all := all.(channel := None);
    }

    method Retry(fd: Sock)
      requires Valid()
      modifies this
      ensures Valid() && all == Retried(old(all), fd)
    {
      CloseSocket(fd);
      phase := Disconnected;
      all := all.(phase := phase);
      if connect {
        all := all.(timers := all.timers + [retryDelayMs], delays := all.delays + [retryDelayMs]);
        retryDelayMs := Min(retryDelayMs * 2, MAX_RETRY_DELAY_MS);
        all := all.(retryDelayMs := retryDelayMs);
      }
    }

    method StopInLoopNow()
      requires Valid() && Inv(all)
      modifies this
      ensures Valid() && all == StoppedInLoop(old(all))
    {
      if phase == Connecting {
        phase := Disconnected;
        all := all.(phase := phase);
        var fd := RemoveAndResetChannel();
        Retry(fd);
      }
    }

    method HandleError()
      requires Valid() && Inv(all)
      modifies this
      ensures Valid() && Inv(all) && all == ErrorHandled(old(all))
    {
      ErrorKeepsInv(all);
      if phase == Connecting {
        var fd := RemoveAndResetChannel();
        Retry(fd);
      }
    }

    /** Gives the socket to newConnectionCallback_ when `handed` is Some. */
    method HandleWrite(soError: bool, selfConnect: bool) returns (handed: Option<Sock>)
      requires Valid() && Inv(all) && (phase == Connecting || phase == Disconnected)
      modifies this
      ensures Valid() && Inv(all) && all == WriteHandled(old(all), soError, selfConnect)
      ensures handed.Some? <==> old(phase) == Connecting && !soError && !selfConnect && connect
      ensures handed.Some? ==> old(channel) == Some(Chan(handed.value, true)) && all.handed == old(all).handed + multiset{handed.value}
      ensures handed.None? ==> all.handed == old(all).handed
    {
      WrittenKeepsInv(all, soError, selfConnect);
      handed := None;
      if phase == Connecting {
        var fd := RemoveAndResetChannel();
        if soError {
          Retry(fd);
        } else if selfConnect {
          Retry(fd);
        } else {
          phase := Connected;
          all := all.(phase := phase);
          if connect {
            handed := Some(fd);
            all := all.(handed := all.handed + multiset{fd});
          } else {
            CloseSocket(fd);
          }
        }
      } else {
        assert phase == Disconnected;
      }
    }

    method Restart(result: Errno)
      requires Valid() && Inv(all) && phase == Connected && ResetChannel !in all.jobs
      modifies this
      ensures Valid() && Inv(all) && all == Restarted(old(all), result)
    {
      RestartKeepsInv(all, result);
      phase := Disconnected;
      retryDelayMs := INIT_RETRY_DELAY_MS;
      connect := true;
      all := all.(phase := phase, retryDelayMs := retryDelayMs, connect := true, delays := []);
      BeginInLoop(result);
    }
  }
}
