/**
 net/EventLoop.cc:83-107 and 192-202: which channels exist, and are registered with the poller, while the
 loop goes through its active channels.

 Three kinds of owner matter.  The loop's own channels and the acceptor's stay for as long as the loop runs.
 A TcpConnection's channel is removed by connectDestroyed, which removeConnectionInLoop queues, and freed with
 the connection.  A Connector removes its channel from handleWrite, handleError or stopInLoop, when its state_
 is kConnecting, and frees it in a functor queued then.
 */
module Dispatches {
  import opened Options

  type Ch = nat                          // the address of a Channel
  type Cid = nat                         // a Connector

  datatype Kind = Fixed | Connection | OfConnector(id: Cid)

  /** A connector: whether state_ is kConnecting, and channel_. */
  datatype Connector = Connector(connecting: bool, channel: Option<Ch>)

  datatype Job =
    | DestroyJob(ch: Ch)                 // TcpConnection::connectDestroyed
    | CloseJob(ch: Ch)                   // TcpConnection::forceCloseInLoop
    | StopJob(id: Cid)                   // Connector::stopInLoop
    | ResetJob(id: Cid)                  // Connector::resetChannel

  /** Where the loop thread is; `at` counts the active channels whose handleEvent has begun. */
  datatype Pc = Waiting | Dispatching(at: nat) | InFunctors

  datatype State = State(
    live: map<Ch, Kind>,                 // the Channel objects
    registered: set<Ch>,                 // those in the poller's channels_
    connectors: map<Cid, Connector>,
    closed: set<Ch>,                     // connections that have been through handleClose
    elsewhere: set<Ch>,                  // closed ones whose removal waits in the acceptor's loop
    destroyed: set<Ch>,                  // connections that have been through connectDestroyed
    queue: seq<Job>,
    eventHandling: bool,
    active: seq<Ch>,                     // activeChannels_
    current: Option<Ch>,                 // currentActiveChannel_
    pc: Pc
  )

  datatype Event =
    | Create(ch: Ch, kind: Kind)         // made and registered, in any callback or functor
    | Connect(id: Cid, ch: Ch)           // Connector::connecting
    | QueueClose(ch: Ch)                 // forceClose
    | QueueStop(id: Cid)
    | Poll(ready: seq<Ch>)
    | Visit
    | HandleClose(here: bool)            // in the callback of a connection; `here`: the acceptor has this loop
    | ConnectorCallback                  // handleWrite or handleError, in the callback of a connector's channel
    | RemovedElsewhere(ch: Ch)           // removeConnectionInLoop has run in the acceptor's loop
    | EndHandling
    | RunJob(here: bool)
    | EndFunctors
    | Drop(ch: Ch)                       // the last reference to a destroyed connection goes

  predicate Distinct(q: seq<Ch>) {
    forall i, j :: 0 <= i < j < |q| ==> q[i] != q[j]
  }

  predicate IsConnection(s: State, ch: Ch) {
    ch in s.live && s.live[ch] == Connection
  }

  /** Connector::connecting asserts that channel_ is null; a connection closes once, and goes away when it is
      destroyed and no functor holds it. */
  predicate Enabled(s: State, ev: Event) {
    match ev
    case Create(ch, kind) => ch !in s.live && !kind.OfConnector?
    case Connect(id, ch) => ch !in s.live && (id in s.connectors ==> !s.connectors[id].connecting && s.connectors[id].channel.None?)
    case QueueClose(ch) => IsConnection(s, ch)
    case QueueStop(id) => true
    case Poll(ready) => s.pc.Waiting? && Distinct(ready) && (forall ch :: ch in ready ==> ch in s.registered)
    case Visit => s.pc.Dispatching? && s.pc.at < |s.active|
    case HandleClose(_) => s.current.Some? && IsConnection(s, s.current.value) && s.current.value !in s.closed
    case ConnectorCallback => s.current.Some? && s.current.value in s.live && s.live[s.current.value].OfConnector?
    case RemovedElsewhere(ch) => ch in s.elsewhere
    case EndHandling => s.pc.Dispatching? && s.pc.at == |s.active|
    case RunJob(_) => s.pc.InFunctors? && s.queue != []
    case EndFunctors => s.pc.InFunctors?
    case Drop(ch) => ch in s.destroyed && CloseJob(ch) !in s.queue
  }

  /** handleClose: closeCallback_ is removeConnection, which passes removeConnectionInLoop to runInLoop of the
      acceptor's loop; that queues connectDestroyed in this one. */
  function Closed(s: State, ch: Ch, here: bool): State {
    var r := s.(closed := s.closed + {ch});
    if here then r.(queue := r.queue + [DestroyJob(ch)]) else r.(elsewhere := r.elsewhere + {ch})
  }

  /** removeAndResetChannel, if state_ is kConnecting; what state_ becomes is not kConnecting. */
  function GivenUp(s: State, id: Cid): State {
    if id in s.connectors && s.connectors[id].connecting && s.connectors[id].channel.Some? then
      s.(registered := s.registered - {s.connectors[id].channel.value},
         connectors := s.connectors[id := Connector(false, s.connectors[id].channel)],
         queue := s.queue + [ResetJob(id)])
    else s
  }

  function RanJob(s: State, here: bool): State
    requires s.queue != []
  {
    var r := s.(queue := s.queue[1..]);
    match s.queue[0]
    case DestroyJob(ch) => r.(registered := r.registered - {ch}, destroyed := r.destroyed + {ch})
    case CloseJob(ch) => if ch in s.closed then r else Closed(r, ch, here)
    case StopJob(id) => GivenUp(r, id)
    case ResetJob(id) =>
      if id in s.connectors && s.connectors[id].channel.Some? then
        r.(live := r.live - {s.connectors[id].channel.value}, connectors := r.connectors[id := s.connectors[id].(channel := None)])
      else r
  }

  function Apply(s: State, ev: Event): State {
    if !Enabled(s, ev) then s
    else match ev
      case Create(ch, kind) => s.(live := s.live[ch := kind], registered := s.registered + {ch})
      case Connect(id, ch) =>
        s.(live := s.live[ch := OfConnector(id)], registered := s.registered + {ch},
           connectors := s.connectors[id := Connector(true, Some(ch))])
      case QueueClose(ch) => s.(queue := s.queue + [CloseJob(ch)])
      case QueueStop(id) => s.(queue := s.queue + [StopJob(id)])
      case Poll(ready) => s.(active := ready, eventHandling := true, pc := Dispatching(0))
      case Visit => s.(current := Some(s.active[s.pc.at]), pc := Dispatching(s.pc.at + 1))
      case HandleClose(here) => Closed(s, s.current.value, here)
      case ConnectorCallback => GivenUp(s, s.live[s.current.value].id)
      case RemovedElsewhere(ch) => s.(elsewhere := s.elsewhere - {ch}, queue := s.queue + [DestroyJob(ch)])
      case EndHandling => s.(current := None, eventHandling := false, pc := InFunctors)
      case RunJob(here) => RanJob(s, here)
      case EndFunctors => s.(pc := Waiting)
      case Drop(ch) => s.(live := s.live - {ch}, closed := s.closed - {ch}, destroyed := s.destroyed - {ch})
  }

  // ---------- the source's assertions ----------

  /** The channels that `ev` passes to EventLoop::removeChannel. */
  function Removes(s: State, ev: Event): set<Ch> {
    s.registered - Apply(s, ev).registered
  }

  /** The channels that `ev` destroys. */
  function Frees(s: State, ev: Event): set<Ch> {
    s.live.Keys - Apply(s, ev).live.Keys
  }

  /** EventLoop::removeChannel asserts this. */
  predicate MayRemove(s: State, ch: Ch) {
    s.eventHandling ==> s.current == Some(ch) || ch !in s.active
  }

  /** Channel's destructor asserts this. */
  predicate MayFree(s: State, ch: Ch) {
    ch !in s.registered && s.current != Some(ch)
  }

  // ---------- the invariant ----------

  function Count(q: seq<Job>, j: Job): nat {
    multiset(q)[j]
  }

  /** A connector is connecting exactly while its channel is registered; between removing and resetting it,
      one resetChannel is queued. */
  ghost predicate ConnectorOk(s: State, id: Cid) {
    if id in s.connectors then
      var c := s.connectors[id];
      && (c.channel.Some? ==> c.channel.value in s.live && s.live[c.channel.value] == OfConnector(id))
      && (c.connecting <==> c.channel.Some? && c.channel.value in s.registered)
      && Count(s.queue, ResetJob(id)) == (if c.channel.Some? && !c.connecting then 1 else 0)
    else Count(s.queue, ResetJob(id)) == 0
  }

  /** A connection is registered until destroyed; once closed, exactly one removal is under way or done. */
  ghost predicate ConnectionOk(s: State, ch: Ch) {
    if IsConnection(s, ch) then
      && (ch in s.registered <==> ch !in s.destroyed)
      && Count(s.queue, DestroyJob(ch)) + (if ch in s.elsewhere then 1 else 0) + (if ch in s.destroyed then 1 else 0)
         == (if ch in s.closed then 1 else 0)
    else
      && ch !in s.closed && ch !in s.elsewhere && ch !in s.destroyed
      && Count(s.queue, DestroyJob(ch)) == 0 && Count(s.queue, CloseJob(ch)) == 0
  }

  ghost predicate ChannelOk(s: State, ch: Ch) {
    && (ch in s.registered ==> ch in s.live)
    && (ch in s.live && s.live[ch] == Fixed ==> ch in s.registered)
    && (ch in s.live && s.live[ch].OfConnector? ==>
          s.live[ch].id in s.connectors && s.connectors[s.live[ch].id].channel == Some(ch))
  }

  ghost predicate ActiveOk(s: State) {
    && s.eventHandling == s.pc.Dispatching?
    && (s.current.Some? <==> s.pc.Dispatching? && s.pc.at > 0)
    && (s.pc.Dispatching? ==>
          && s.pc.at <= |s.active| && Distinct(s.active)
          && (forall k {:trigger s.active[k]} :: s.pc.at <= k < |s.active| ==> s.active[k] in s.registered)
          && (s.pc.at > 0 ==>
                && s.current == Some(s.active[s.pc.at - 1])
                && s.current.value in s.live
                && (s.current.value in s.registered || s.live[s.current.value].OfConnector?)))
  }

  ghost predicate Inv(s: State) {
    && (forall ch {:trigger ChannelOk(s, ch)} :: ChannelOk(s, ch))
    && (forall ch {:trigger ConnectionOk(s, ch)} :: ConnectionOk(s, ch))
    && (forall id {:trigger ConnectorOk(s, id)} :: ConnectorOk(s, id))
    && ActiveOk(s)
  }

  lemma Queued(q: seq<Job>, j: Job, k: Job)
    ensures Count(q + [j], k) == Count(q, k) + if j == k then 1 else 0
    ensures k in q <==> Count(q, k) > 0
  {
  }

  lemma Unqueued(q: seq<Job>, k: Job)
    requires q != []
    ensures Count(q[1..], k) == Count(q, k) - if q[0] == k then 1 else 0
    ensures Count(q, q[0]) > 0
  {
    assert q == [q[0]] + q[1..];
    assert multiset(q) == multiset{q[0]} + multiset(q[1..]);
  }

  /** The channel a connector holds is held by no other. */
  lemma HeldByOne(s: State, id: Cid)
    requires Inv(s) && id in s.connectors && s.connectors[id].channel.Some?
    ensures var ch := s.connectors[id].channel.value;
            && ch in s.live && s.live[ch] == OfConnector(id)
            && (ch in s.registered <==> s.connectors[id].connecting)
            && forall j :: j in s.connectors && j != id ==> s.connectors[j].channel != Some(ch)
  {
    assert ConnectorOk(s, id);
    forall j | j in s.connectors && j != id ensures s.connectors[j].channel != Some(s.connectors[id].channel.value) {
      assert ConnectorOk(s, j);
    }
  }

  // ---------- every event keeps it ----------

  lemma GivenUpKeepsOk(s: State, id: Cid, ch: Ch, j: Cid)
    requires Inv(s)
    ensures var r := GivenUp(s, id); ChannelOk(r, ch) && ConnectionOk(r, ch) && ConnectorOk(r, j)
  {
    assert ChannelOk(s, ch) && ConnectionOk(s, ch) && ConnectorOk(s, j) && ConnectorOk(s, id);
    Queued(s.queue, ResetJob(id), ResetJob(j));
    Queued(s.queue, ResetJob(id), DestroyJob(ch));
    Queued(s.queue, ResetJob(id), CloseJob(ch));
    if id in s.connectors && s.connectors[id].channel.Some? {
      HeldByOne(s, id);
    }
  }

  lemma ClosedKeepsOk(s: State, own: Ch, here: bool, ch: Ch, j: Cid)
    requires Inv(s) && IsConnection(s, own) && own !in s.closed
    ensures var r := Closed(s, own, here); ChannelOk(r, ch) && ConnectionOk(r, ch) && ConnectorOk(r, j)
  {
    assert ChannelOk(s, ch) && ConnectionOk(s, ch) && ConnectorOk(s, j);
    Queued(s.queue, DestroyJob(own), ResetJob(j));
    Queued(s.queue, DestroyJob(own), DestroyJob(ch));
    Queued(s.queue, DestroyJob(own), CloseJob(ch));
  }

  /** A functor has been taken from the queue, and not yet run; connectDestroyed and resetChannel run. */
  lemma TakenKeepsOk(s: State, here: bool, ch: Ch, j: Cid)
    requires Inv(s) && s.pc.InFunctors? && s.queue != []
    ensures var r := if s.queue[0].CloseJob? || s.queue[0].StopJob? then s.(queue := s.queue[1..]) else RanJob(s, here);
            ChannelOk(r, ch) && ConnectionOk(r, ch) && ConnectorOk(r, j)
  {
    assert ChannelOk(s, ch) && ConnectionOk(s, ch) && ConnectorOk(s, j);
    Unqueued(s.queue, ResetJob(j));
    Unqueued(s.queue, DestroyJob(ch));
    Unqueued(s.queue, CloseJob(ch));
    match s.queue[0]
    case DestroyJob(own) => assert ConnectionOk(s, own);
    case CloseJob(_) =>
    case StopJob(_) =>
    case ResetJob(id) =>
      assert ConnectorOk(s, id);
      HeldByOne(s, id);
  }

  lemma RunJobKeepsOk(s: State, here: bool, ch: Ch, j: Cid)
    requires Inv(s) && s.pc.InFunctors? && s.queue != []
    ensures var r := RanJob(s, here); ChannelOk(r, ch) && ConnectionOk(r, ch) && ConnectorOk(r, j)
  {
    TakenKeepsOk(s, here, ch, j);
    if s.queue[0].CloseJob? || s.queue[0].StopJob? {
      var t := s.(queue := s.queue[1..]);
      forall c ensures ChannelOk(t, c) && ConnectionOk(t, c) { TakenKeepsOk(s, here, c, j); }
      forall i ensures ConnectorOk(t, i) { TakenKeepsOk(s, here, ch, i); }
      if s.queue[0].StopJob? {
        GivenUpKeepsOk(t, s.queue[0].id, ch, j);
      } else {
        Unqueued(s.queue, s.queue[0]);
        assert ConnectionOk(s, s.queue[0].ch);
        if s.queue[0].ch !in s.closed {
          ClosedKeepsOk(t, s.queue[0].ch, here, ch, j);
        }
      }
    }
  }

  lemma QueuedOthers(s: State, job: Job, ch: Ch, j: Cid)
    ensures Count(s.queue + [job], ResetJob(j)) == Count(s.queue, ResetJob(j)) + if job == ResetJob(j) then 1 else 0
    ensures Count(s.queue + [job], DestroyJob(ch)) == Count(s.queue, DestroyJob(ch)) + if job == DestroyJob(ch) then 1 else 0
    ensures Count(s.queue + [job], CloseJob(ch)) == Count(s.queue, CloseJob(ch)) + if job == CloseJob(ch) then 1 else 0
  {
  }

  lemma CreateKeepsOk(s: State, own: Ch, kind: Kind, ch: Ch, j: Cid)
    requires Inv(s) && Enabled(s, Create(own, kind))
    ensures var r := Apply(s, Create(own, kind)); ChannelOk(r, ch) && ConnectionOk(r, ch) && ConnectorOk(r, j)
  {
    assert ChannelOk(s, ch) && ConnectionOk(s, ch) && ConnectorOk(s, j);
  }

  lemma ConnectKeepsOk(s: State, id: Cid, own: Ch, ch: Ch, j: Cid)
    requires Inv(s) && Enabled(s, Connect(id, own))
    ensures var r := Apply(s, Connect(id, own)); ChannelOk(r, ch) && ConnectionOk(r, ch) && ConnectorOk(r, j)
  {
    assert ChannelOk(s, ch) && ConnectionOk(s, ch) && ConnectorOk(s, j);
    assert ConnectorOk(s, id) && ChannelOk(s, own);
  }

  lemma QueueKeepsOk(s: State, job: Job, ch: Ch, j: Cid)
    requires Inv(s) && (job.StopJob? || (job.CloseJob? && IsConnection(s, job.ch)))
    ensures var r := s.(queue := s.queue + [job]); ChannelOk(r, ch) && ConnectionOk(r, ch) && ConnectorOk(r, j)
  {
    assert ChannelOk(s, ch) && ConnectionOk(s, ch) && ConnectorOk(s, j);
    QueuedOthers(s, job, ch, j);
  }

  lemma RemovedElsewhereKeepsOk(s: State, own: Ch, ch: Ch, j: Cid)
    requires Inv(s) && own in s.elsewhere
    ensures var r := Apply(s, RemovedElsewhere(own)); ChannelOk(r, ch) && ConnectionOk(r, ch) && ConnectorOk(r, j)
  {
    assert ChannelOk(s, ch) && ConnectionOk(s, ch) && ConnectorOk(s, j) && ConnectionOk(s, own);
    QueuedOthers(s, DestroyJob(own), ch, j);
  }

  lemma DropKeepsOk(s: State, own: Ch, ch: Ch, j: Cid)
    requires Inv(s) && Enabled(s, Drop(own))
    ensures var r := Apply(s, Drop(own)); ChannelOk(r, ch) && ConnectionOk(r, ch) && ConnectorOk(r, j)
  {
    assert ChannelOk(s, ch) && ConnectionOk(s, ch) && ConnectorOk(s, j) && ConnectionOk(s, own) && ChannelOk(s, own);
    Queued(s.queue, CloseJob(own), CloseJob(own));
  }

  /** Poll, Visit, EndHandling and EndFunctors only move the loop thread. */
  lemma MovingKeepsOk(s: State, ev: Event, ch: Ch, j: Cid)
    requires Inv(s) && Enabled(s, ev) && (ev.Poll? || ev.Visit? || ev.EndHandling? || ev.EndFunctors?)
    ensures var r := Apply(s, ev); ChannelOk(r, ch) && ConnectionOk(r, ch) && ConnectorOk(r, j)
  {
    assert ChannelOk(s, ch) && ConnectionOk(s, ch) && ConnectorOk(s, j);
  }

  lemma KeepsOk(s: State, ev: Event, ch: Ch, j: Cid)
    requires Inv(s) && Enabled(s, ev)
    ensures var r := Apply(s, ev); ChannelOk(r, ch) && ConnectionOk(r, ch) && ConnectorOk(r, j)
  {
    match ev
    case Create(own, kind) => CreateKeepsOk(s, own, kind, ch, j);
    case Connect(id, own) => ConnectKeepsOk(s, id, own, ch, j);
    case QueueClose(own) => QueueKeepsOk(s, CloseJob(own), ch, j);
    case QueueStop(id) => QueueKeepsOk(s, StopJob(id), ch, j);
    case RemovedElsewhere(own) => RemovedElsewhereKeepsOk(s, own, ch, j);
    case Drop(own) => DropKeepsOk(s, own, ch, j);
    case RunJob(here) => RunJobKeepsOk(s, here, ch, j);
    case HandleClose(here) => ClosedKeepsOk(s, s.current.value, here, ch, j);
    case ConnectorCallback => GivenUpKeepsOk(s, s.live[s.current.value].id, ch, j);
    case _ => MovingKeepsOk(s, ev, ch, j);
  }

  lemma KeepsActive(s: State, ev: Event)
    requires Inv(s) && Enabled(s, ev)
    ensures ActiveOk(Apply(s, ev))
  {
    match ev
    case Visit => assert ChannelOk(s, s.active[s.pc.at]);
    case ConnectorCallback => CallbackKeepsActive(s);
    case Drop(ch) => assert ConnectionOk(s, ch);
    case _ =>
  }

  lemma CallbackKeepsActive(s: State)
    requires Inv(s) && Enabled(s, ConnectorCallback)
    ensures ActiveOk(Apply(s, ConnectorCallback))
  {
    CallbackRemovesItsOwn(s);
    forall k | s.pc.at <= k < |s.active| ensures s.active[k] in Apply(s, ConnectorCallback).registered {
      assert s.active[s.pc.at - 1] != s.active[k];
      assert s.active[k] !in Removes(s, ConnectorCallback);
    }
  }

  /** A connector's callback runs on the channel that the connector holds. */
  lemma CallbackRemovesItsOwn(s: State)
    requires Inv(s) && Enabled(s, ConnectorCallback)
    ensures Removes(s, ConnectorCallback) <= {s.current.value}
  {
    assert ChannelOk(s, s.current.value);
  }

  lemma RemovedMayBeRemoved(s: State, ev: Event, ch: Ch)
    requires Inv(s) && ch in Removes(s, ev)
    ensures MayRemove(s, ch)
  {
    if ev.ConnectorCallback? {
      CallbackRemovesItsOwn(s);
    }
  }

  lemma FreedMayBeFreed(s: State, ev: Event, ch: Ch)
    requires Inv(s) && ch in Frees(s, ev)
    ensures MayFree(s, ch)
  {
    assert ConnectionOk(s, ch) && ChannelOk(s, ch);
    if ev.RunJob? && s.queue[0].ResetJob? {
      Unqueued(s.queue, s.queue[0]);
      assert ConnectorOk(s, s.queue[0].id);
    }
  }

  /** Every event keeps the invariant, and the assertions hold of every channel it removes or destroys. */
  lemma ApplyKeepsInv(s: State, ev: Event)
    requires Inv(s)
    ensures Inv(Apply(s, ev))
    ensures forall ch :: ch in Removes(s, ev) ==> MayRemove(s, ch)
    ensures forall ch :: ch in Frees(s, ev) ==> MayFree(s, ch)
  {
    forall ch | ch in Removes(s, ev) ensures MayRemove(s, ch) { RemovedMayBeRemoved(s, ev, ch); }
    forall ch | ch in Frees(s, ev) ensures MayFree(s, ch) { FreedMayBeFreed(s, ev, ch); }
    if Enabled(s, ev) {
      var r := Apply(s, ev);
      KeepsActive(s, ev);
      forall ch ensures ChannelOk(r, ch) && ConnectionOk(r, ch) { KeepsOk(s, ev, ch, 0); }
      forall id ensures ConnectorOk(r, id) { KeepsOk(s, ev, 0, id); }
    }
  }
}
