/**
 Whole runs of the dispatch in net/EventLoop.cc:83-107: what holds in every one of them, and what one poll's
 dispatch amounts to.
 */
module DispatchRuns {
  import opened Dispatches
  import opened Options

  function Run(s: State, evs: seq<Event>): State
    decreases |evs|
  {
    if evs == [] then s else Run(Apply(s, evs[0]), evs[1..])
  }

  const START := State(map[], {}, map[], {}, {}, {}, [], false, [], None, Waiting)

  lemma StartIsSound()
    ensures Inv(START)
  {
    forall ch ensures ChannelOk(START, ch) && ConnectionOk(START, ch) {}
    forall id ensures ConnectorOk(START, id) {}
  }

  lemma {:induction false} RunKeepsInv(s: State, evs: seq<Event>)
    requires Inv(s)
    ensures Inv(Run(s, evs))
    decreases |evs|
  {
    if evs != [] {
      ApplyKeepsInv(s, evs[0]);
      RunKeepsInv(Apply(s, evs[0]), evs[1..]);
    }
  }

  /** The channel is live and registered, and neither removed nor about to be freed. */
  predicate Sound(s: State, ch: Ch) {
    ch in s.live && ch in s.registered && ch !in s.destroyed
    && (s.live[ch].OfConnector? ==> ResetJob(s.live[ch].id) !in s.queue)
  }

  lemma RegisteredIsSound(s: State, ch: Ch)
    requires Inv(s) && ch in s.registered
    ensures Sound(s, ch)
  {
    assert ChannelOk(s, ch) && ConnectionOk(s, ch);
    if s.live[ch].OfConnector? {
      assert ConnectorOk(s, s.live[ch].id);
      Queued(s.queue, ResetJob(s.live[ch].id), ResetJob(s.live[ch].id));
    }
  }

  /** In every run, each active channel still to be visited is sound, and the one being visited is live; and
      whatever happens next, the assertions of removeChannel and of the destructor hold. */
  lemma DispatchIsSafe(evs: seq<Event>, ev: Event)
    ensures var s := Run(START, evs);
            && (s.pc.Dispatching? ==> forall k :: s.pc.at <= k < |s.active| ==> Sound(s, s.active[k]))
            && (s.current.Some? ==> s.current.value in s.live)
            && (forall ch :: ch in Removes(s, ev) ==> MayRemove(s, ch))
            && (forall ch :: ch in Frees(s, ev) ==> MayFree(s, ch))
  {
    StartIsSound();
    RunKeepsInv(START, evs);
    var s := Run(START, evs);
    ApplyKeepsInv(s, ev);
    if s.pc.Dispatching? {
      forall k | s.pc.at <= k < |s.active| ensures Sound(s, s.active[k]) {
        RegisteredIsSound(s, s.active[k]);
      }
    }
  }

  /** No channel is forgotten: one that a connector has removed waits for exactly one resetChannel, and a closed
      connection for exactly one connectDestroyed, here or from the acceptor's loop, until it has run. */
  lemma RemovedChannelsAreFreedOnce(evs: seq<Event>, ch: Ch)
    ensures var s := Run(START, evs);
            && (ch in s.live && s.live[ch].OfConnector? && ch !in s.registered ==> Count(s.queue, ResetJob(s.live[ch].id)) == 1)
            && (IsConnection(s, ch) && ch in s.closed && ch !in s.destroyed ==>
                  Count(s.queue, DestroyJob(ch)) + (if ch in s.elsewhere then 1 else 0) == 1)
  {
    StartIsSound();
    RunKeepsInv(START, evs);
    var s := Run(START, evs);
    assert ChannelOk(s, ch) && ConnectionOk(s, ch);
    if ch in s.live && s.live[ch].OfConnector? {
      assert ConnectorOk(s, s.live[ch].id);
    }
  }

  // ---------- the life of a channel ----------

  /** A channel is made open, that is registered; `closed` says that its connection has been through handleClose.
      When it is removed from the poller it is shut, until it is freed. */
  datatype Life = Absent | Open(kind: Kind, closed: bool) | Shut(kind: Kind)

  predicate LifeOf(s: State, ch: Ch, life: Life) {
    match life
    case Absent => ch !in s.live && ch !in s.registered
    case Open(kind, closed) => ch in s.live && s.live[ch] == kind && ch in s.registered && (closed <==> ch in s.closed)
    case Shut(kind) => ch in s.live && s.live[ch] == kind && ch !in s.registered
  }

  /** What `ev` does to the channel: nothing but its owner's own steps touch it. */
  function LifeAfter(life: Life, ch: Ch, s: State, ev: Event): Life
    requires Enabled(s, ev)
  {
    match ev
    case Create(c, kind) => if c == ch then Open(kind, false) else life
    case Connect(id, c) => if c == ch then Open(OfConnector(id), false) else life
    case HandleClose(_) => if s.current == Some(ch) && life.Open? then life.(closed := true) else life
    case ConnectorCallback => if s.current == Some(ch) && life.Open? then Shut(life.kind) else life
    case RunJob(_) =>
      (match s.queue[0]
       case CloseJob(c) => if c == ch && life.Open? then life.(closed := true) else life
       case DestroyJob(c) => if c == ch && life.Open? then Shut(life.kind) else life
       case StopJob(id) => if life == Open(OfConnector(id), false) then Shut(life.kind) else life
       case ResetJob(id) => if life == Shut(OfConnector(id)) then Absent else life)
    case Drop(c) => if c == ch then Absent else life
    case QueueClose(_) | QueueStop(_) | Poll(_) | Visit | RemovedElsewhere(_) | EndHandling | EndFunctors => life
  }

  function LifeOver(life: Life, ch: Ch, s: State, evs: seq<Event>): Life
    decreases |evs|
  {
    if evs == [] then life
    else LifeOver(if Enabled(s, evs[0]) then LifeAfter(life, ch, s, evs[0]) else life, ch, Apply(s, evs[0]), evs[1..])
  }

  lemma JobKeepsLife(s: State, ch: Ch, life: Life, here: bool)
    requires Inv(s) && LifeOf(s, ch, life) && Enabled(s, RunJob(here))
    ensures LifeOf(Apply(s, RunJob(here)), ch, LifeAfter(life, ch, s, RunJob(here)))
  {
    assert ChannelOk(s, ch) && ConnectionOk(s, ch);
    Unqueued(s.queue, s.queue[0]);
    match s.queue[0]
    case DestroyJob(c) => assert ConnectionOk(s, c);
    case CloseJob(c) => assert ConnectionOk(s, c);
    case StopJob(id) => assert ConnectorOk(s, id);
    case ResetJob(id) => assert ConnectorOk(s, id);
  }

  lemma EventKeepsLife(s: State, ch: Ch, life: Life, ev: Event)
    requires Inv(s) && LifeOf(s, ch, life) && Enabled(s, ev)
    ensures LifeOf(Apply(s, ev), ch, LifeAfter(life, ch, s, ev))
  {
    assert ChannelOk(s, ch) && ConnectionOk(s, ch);
    match ev
    case RunJob(here) => JobKeepsLife(s, ch, life, here);
    case ConnectorCallback => assert ChannelOk(s, s.current.value) && ConnectorOk(s, s.live[s.current.value].id);
    case Drop(c) => assert ConnectionOk(s, c);
    case _ =>
  }

  lemma {:induction false} LifeFrom(s: State, ch: Ch, life: Life, evs: seq<Event>)
    requires Inv(s) && LifeOf(s, ch, life)
    ensures LifeOf(Run(s, evs), ch, LifeOver(life, ch, s, evs))
    decreases |evs|
  {
    if evs != [] {
      ApplyKeepsInv(s, evs[0]);
      if Enabled(s, evs[0]) {
        EventKeepsLife(s, ch, life, evs[0]);
        LifeFrom(Apply(s, evs[0]), ch, LifeAfter(life, ch, s, evs[0]), evs[1..]);
      } else {
        LifeFrom(s, ch, life, evs[1..]);
      }
    }
  }

  /** In every run, at every address, channels are made, registered, closed, removed and freed as their owners'
      steps say, and by nothing else. */
  lemma ChannelLifeOverRuns(evs: seq<Event>, ch: Ch)
    ensures LifeOf(Run(START, evs), ch, LifeOver(Absent, ch, START, evs))
  {
    StartIsSound();
    LifeFrom(START, ch, Absent, evs);
  }

  // ---------- what waits, and where the loop is ----------

  /** What the loop still has to do: its functors in order, the removals that wait in the acceptor's loop, and how
      far it is with its active channels. */
  datatype Agenda = Agenda(queue: seq<Job>, elsewhere: set<Ch>, active: seq<Ch>, current: Option<Ch>, pc: Pc)

  /** The agenda after handleClose of `ch`. */
  function AfterClose(g: Agenda, ch: Ch, here: bool): Agenda {
    if here then g.(queue := g.queue + [DestroyJob(ch)]) else g.(elsewhere := g.elsewhere + {ch})
  }

  function AgendaAfter(g: Agenda, s: State, ev: Event): Agenda
    requires Enabled(s, ev) && g.queue == s.queue && g.active == s.active && g.current == s.current && g.pc == s.pc
  {
    match ev
    case QueueClose(ch) => g.(queue := g.queue + [CloseJob(ch)])
    case QueueStop(id) => g.(queue := g.queue + [StopJob(id)])
    case HandleClose(here) => AfterClose(g, g.current.value, here)
    case ConnectorCallback =>
      if g.current.value in s.registered then g.(queue := g.queue + [ResetJob(s.live[g.current.value].id)]) else g
    case RemovedElsewhere(ch) => g.(queue := g.queue + [DestroyJob(ch)], elsewhere := g.elsewhere - {ch})
    case RunJob(here) =>
      var rest := g.(queue := g.queue[1..]);
      (match g.queue[0]
       case CloseJob(ch) => if ch in s.closed then rest else AfterClose(rest, ch, here)
       case StopJob(id) =>
         if id in s.connectors && s.connectors[id].connecting then rest.(queue := rest.queue + [ResetJob(id)]) else rest
       case DestroyJob(_) => rest
       case ResetJob(_) => rest)
    case Poll(ready) => g.(active := ready, pc := Dispatching(0))
    case Visit => g.(current := Some(g.active[g.pc.at]), pc := Dispatching(g.pc.at + 1))
    case EndHandling => g.(current := None, pc := InFunctors)
    case EndFunctors => g.(pc := Waiting)
    case Create(_, _) | Connect(_, _) | Drop(_) => g
  }

  /** Each removal of a connector's channel queues one resetChannel, each close one connectDestroyed, here or by way
      of the acceptor's loop, each call its functor; the loop visits the active channels in their order, and runs
      the functors in the order in which they were queued. */
  lemma AgendaIsKept(s: State, ev: Event)
    requires Inv(s) && Enabled(s, ev)
    ensures var r, g := Apply(s, ev), Agenda(s.queue, s.elsewhere, s.active, s.current, s.pc);
            AgendaAfter(g, s, ev) == Agenda(r.queue, r.elsewhere, r.active, r.current, r.pc)
  {
    match ev
    case ConnectorCallback =>
      assert ChannelOk(s, s.current.value) && ConnectorOk(s, s.live[s.current.value].id);
    case RunJob(_) =>
      if s.queue[0].StopJob? {
        assert ConnectorOk(s, s.queue[0].id);
      }
    case _ =>
  }

  // ---------- one dispatch ----------

  /** What can happen while a callback runs: its own calls, and what other threads do. */
  predicate InCallback(ev: Event) {
    !ev.Poll? && !ev.Visit? && !ev.EndHandling? && !ev.RunJob? && !ev.EndFunctors?
  }

  /** The visits of the first channels, with what happens during each. */
  function Visits(scripts: seq<seq<Event>>): seq<Event> {
    if scripts == [] then [] else Visits(scripts[..|scripts| - 1]) + [Visit] + scripts[|scripts| - 1]
  }

  lemma CallbackKeepsPlace(s: State, ev: Event)
    requires InCallback(ev)
    ensures var r := Apply(s, ev);
            r.pc == s.pc && r.active == s.active && r.current == s.current && r.eventHandling == s.eventHandling
  {
  }

  lemma {:induction false} RunConcat(s: State, a: seq<Event>, b: seq<Event>)
    ensures Run(s, a + b) == Run(Run(s, a), b)
    decreases |a|
  {
    if a == [] {
      assert a + b == b;
    } else {
      assert (a + b)[1..] == a[1..] + b;
      RunConcat(Apply(s, a[0]), a[1..], b);
    }
  }

  lemma RunOne(s: State, a: seq<Event>, ev: Event)
    ensures Run(s, a + [ev]) == Apply(Run(s, a), ev)
  {
    RunConcat(s, a, [ev]);
    assert Run(Apply(Run(s, a), ev), []) == Apply(Run(s, a), ev);
  }

  lemma VisitStep(s: State, scripts: seq<seq<Event>>, i: nat)
    requires i < |scripts|
    ensures Run(s, Visits(scripts[..i + 1])) == Run(Apply(Run(s, Visits(scripts[..i])), Visit), scripts[i])
  {
    assert scripts[..i + 1][..i] == scripts[..i];
    RunConcat(s, Visits(scripts[..i]) + [Visit], scripts[i]);
    RunOne(s, Visits(scripts[..i]), Visit);
  }
}
