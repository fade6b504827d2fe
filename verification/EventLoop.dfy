/**
 net/EventLoop.cc: the pending functors, the eventfd that wakes the loop, and the dispatch of active channels.

 `State` is one loop with any number of threads around it.  An event is one indivisible step of one thread;
 queueInLoop is two of them, the push under the mutex and the write to the eventfd, and so is quit.
 */
module EventLoops {
  import opened Options
  import DispatchRuns
  import Dispatches

  type Tid = nat
  type Fn = nat                         // a functor

  const LOOP: Tid := 0                  // the thread that created the loop
  const EVENTFD_MAX: nat := 0xFFFF_FFFF_FFFF_FFFE

  /** Where the loop thread is: before `while (!quit_)`, in poll, dispatching, in doPendingFunctors before
      and after the swap, and after the loop. */
  datatype Pc = AtTest | AtPoll | Handling(wake: bool) | Entering | Running | Stopped

  datatype State = State(
    pc: Pc,
    quit: bool,
    calling: bool,                      // callingPendingFunctors_
    pending: seq<Fn>,                   // pendingFunctors_
    batch: seq<Fn>,                     // `functors` of doPendingFunctors
    next: nat,                          // its loop variable
    counter: nat,                       // what the eventfd holds
    awaiting: set<Tid>,                 // threads between a push, or setting quit_, and their wakeup
    pushed: seq<Fn>,                    // everything ever pushed, in order
    executed: seq<Fn>,                  // everything ever begun, in order
    mark: nat                           // how much had been pushed at the last swap
  )

  datatype Event =
    | Push(t: Tid, f: Fn)               // queueInLoop up to the unlock
    | SetQuit(t: Tid)
    | Wakeup(t: Tid)                    // the write to the eventfd
    | LoopAgain                         // loop() is called once more: it clears quit_
    | Test
    | Poll(wake: bool)                  // poll returns, with or without the wakeup channel
    | HandleRead
    | Enter                             // dispatch is over; doPendingFunctors sets its flag
    | Swap
    | RunNext
    | Leave

  predicate InHandlerOrFunctor(pc: Pc) {
    pc.Handling? || pc.Running?
  }

  predicate Enabled(s: State, ev: Event) {
    match ev
    case Push(t, _) => t !in s.awaiting && (t == LOOP ==> InHandlerOrFunctor(s.pc))
    case SetQuit(t) => t !in s.awaiting && (t == LOOP ==> InHandlerOrFunctor(s.pc))
    case Wakeup(t) => t in s.awaiting
    case LoopAgain => s.pc.Stopped?
    case Test => s.pc.AtTest? && LOOP !in s.awaiting
    case Poll(wake) => s.pc.AtPoll? && (wake ==> s.counter > 0)
    case HandleRead => s.pc.Handling? && s.pc.wake && LOOP !in s.awaiting
    case Enter => s.pc.Handling? && LOOP !in s.awaiting
    case Swap => s.pc.Entering?
    case RunNext => s.pc.Running? && s.next < |s.batch| && LOOP !in s.awaiting
    case Leave => s.pc.Running? && s.next == |s.batch| && LOOP !in s.awaiting
  }

  function PushedBy(s: State, t: Tid, f: Fn): State {
    s.(pending := s.pending + [f], pushed := s.pushed + [f],
       awaiting := if t != LOOP || s.calling then s.awaiting + {t} else s.awaiting)
  }

  function QuitBy(s: State, t: Tid): State {
    s.(quit := true, awaiting := if t != LOOP then s.awaiting + {t} else s.awaiting)
  }

  /** A write that would overflow the counter fails with EAGAIN and leaves it as it is. */
  function WokenBy(s: State, t: Tid): State {
    s.(counter := if s.counter < EVENTFD_MAX then s.counter + 1 else s.counter, awaiting := s.awaiting - {t})
  }

  function Swapped(s: State): State {
    s.(pc := Running, batch := s.pending, pending := [], next := 0, mark := |s.pushed|)
  }

  function RanNext(s: State): State
    requires s.next < |s.batch|
  {
    s.(executed := s.executed + [s.batch[s.next]], next := s.next + 1)
  }

  function Apply(s: State, ev: Event): State {
    if !Enabled(s, ev) then s
    else match ev
      case Push(t, f) => PushedBy(s, t, f)
      case SetQuit(t) => QuitBy(s, t)
      case Wakeup(t) => WokenBy(s, t)
      case LoopAgain => s.(pc := AtTest, quit := false)
      case Test => s.(pc := if s.quit then Stopped else AtPoll)
      case Poll(wake) => s.(pc := Handling(wake))
      case HandleRead => s.(counter := 0, pc := Handling(false))
      case Enter => s.(pc := Entering, calling := true)
      case Swap => Swapped(s)
      case RunNext => RanNext(s)
      case Leave => s.(pc := AtTest, calling := false)
  }

  function Run(s: State, evs: seq<Event>): State
    decreases |evs|
  {
    if evs == [] then s else Run(Apply(s, evs[0]), evs[1..])
  }

  lemma {:induction false} RunConcat(s: State, a: seq<Event>, b: seq<Event>)
    ensures Run(s, a + b) == Run(Run(s, a), b)
    decreases |a|
  {
    if a == [] {
      assert a + b == b;
    } else {
      assert (a + b)[1..] == a[1..] + b;
      RunConcat(Apply(s, a[0]), a[1..], b);
    }
  }

  lemma RunOne(s: State, a: seq<Event>, ev: Event)
    ensures Run(s, a + [ev]) == Apply(Run(s, a), ev)
  {
    RunConcat(s, a, [ev]);
    assert Run(Apply(Run(s, a), ev), []) == Apply(Run(s, a), ev);
  }

  /** loop() has set quit_ to false. */
  const START := State(AtTest, false, false, [], [], 0, 0, {}, [], [], 0)

  // ---------- the invariant ----------

  ghost predicate WakeOnTheWay(s: State) {
    s.counter > 0 || s.awaiting != {}
  }

  ghost predicate Inv(s: State) {
    && (s.calling <==> s.pc.Entering? || s.pc.Running?)
    && (s.pc.AtPoll? && (s.pending != [] || s.quit) ==> WakeOnTheWay(s))
    && ((s.pc.Running? || s.pc.AtTest? || s.pc.Stopped?) && s.pending != [] ==> WakeOnTheWay(s))
    && (LOOP in s.awaiting ==> s.pc.Running?)
    && s.next <= |s.batch| && (!s.pc.Running? ==> s.next == |s.batch|)
    && s.pushed == s.executed + s.batch[s.next..] + s.pending
    && s.mark <= |s.pushed|
    && (s.pc.Running? || s.pc.AtTest? || s.pc.AtPoll? || s.pc.Stopped? ==> |s.executed| + |s.batch| - s.next == s.mark)
  }

  lemma ApplyKeepsInv(s: State, ev: Event)
    requires Inv(s)
    ensures Inv(Apply(s, ev))
  {
    if Enabled(s, ev) {
      var r := Apply(s, ev);
      match ev
      case Push(t, f) =>
        assert s.executed + s.batch[s.next..] + (s.pending + [f]) == s.pushed + [f];
        assert t in r.awaiting || !s.calling;
      case SetQuit(t) => assert t != LOOP ==> t in r.awaiting;
      case Swap =>
        assert s.batch[s.next..] == [] && r.batch[0..] == s.pending;
        assert r.executed + r.batch[0..] + [] == s.executed + [] + s.pending;
      case RunNext =>
        assert s.batch[s.next..] == [s.batch[s.next]] + s.batch[s.next + 1..];
        assert r.executed + s.batch[s.next + 1..] + s.pending == s.executed + ([s.batch[s.next]] + s.batch[s.next + 1..]) + s.pending;
      case _ =>
    }
  }

  lemma {:induction false} RunKeepsInv(s: State, evs: seq<Event>)
    requires Inv(s)
    ensures Inv(Run(s, evs))
    decreases |evs|
  {
    if evs != [] {
      ApplyKeepsInv(s, evs[0]);
      RunKeepsInv(Apply(s, evs[0]), evs[1..]);
    }
  }

  // ---------- what holds over every run ----------

  /** When the loop thread is in poll with functors pending, or with quit_ set, the eventfd is readable or
      some other thread is about to write it. */
  lemma NoLostWakeup(evs: seq<Event>)
    ensures var s := Run(START, evs);
            s.pc.AtPoll? && (s.pending != [] || s.quit) ==>
              s.counter > 0 || (exists t :: t in s.awaiting && t != LOOP)
  {
    RunKeepsInv(START, evs);
    var s := Run(START, evs);
    if s.pc.AtPoll? && (s.pending != [] || s.quit) && s.counter == 0 {
      var t :| t in s.awaiting;
    }
  }

  /** Every functor pushed is executed once, in the order of the pushes, or waits at its place. */
  lemma ExactlyOnceInOrder(evs: seq<Event>)
    ensures var s := Run(START, evs);
            && s.next <= |s.batch|
            && s.pushed == s.executed + s.batch[s.next..] + s.pending
  {
    RunKeepsInv(START, evs);
  }

  /** What was pushed before the swap has run when the batch is done, and nothing else has. */
  lemma BatchIsWhatWasPushedBefore(evs: seq<Event>)
    ensures var s := Run(START, evs);
            Enabled(s, Leave) ==> s.mark <= |s.pushed| && s.executed == s.pushed[..s.mark] && s.pending == s.pushed[s.mark..]
    ensures var s := Run(START, evs);
            Enabled(s, Swap) ==> Apply(s, Swap).mark == |s.pushed|
  {
    RunKeepsInv(START, evs);
    var s := Run(START, evs);
    if Enabled(s, Leave) {
      assert s.batch[s.next..] == [];
      assert s.pushed == s.executed + s.pending;
    }
  }

  function CallsIn(s: State, evs: seq<Event>): nat
    decreases |evs|
  {
    if evs == [] then 0
    else (if evs[0].RunNext? && Enabled(s, evs[0]) then 1 else 0) + CallsIn(Apply(s, evs[0]), evs[1..])
  }

  lemma StepInBatch(s: State, ev: Event)
    requires s.pc.Running? && s.next <= |s.batch| && !ev.Leave?
    ensures var r := Apply(s, ev);
            && r.pc.Running? && r.batch == s.batch && r.mark == s.mark && s.pending <= r.pending
            && r.next == (if ev.RunNext? && Enabled(s, ev) then s.next + 1 else s.next) <= |s.batch|
            && r.executed == s.executed + s.batch[s.next..r.next]
  {
  }

  /** Until doPendingFunctors leaves, it calls exactly the functors that were in the batch at the swap, one
      after the other, however many functors are pushed meanwhile, by the functors or by other threads. */
  lemma {:induction false} BatchIsFixedAtTheSwap(s: State, evs: seq<Event>)
    requires s.pc.Running? && s.next <= |s.batch| && Leave !in evs
    ensures var r := Run(s, evs);
            && r.pc.Running? && r.batch == s.batch && r.mark == s.mark
            && s.next <= r.next <= |s.batch| && CallsIn(s, evs) == r.next - s.next
            && r.executed == s.executed + s.batch[s.next..r.next]
            && s.pending <= r.pending
    decreases |evs|
  {
    if evs != [] {
      var s1, r := Apply(s, evs[0]), Run(s, evs);
      assert evs[0] in evs && forall ev :: ev in evs[1..] ==> ev in evs;
      StepInBatch(s, evs[0]);
      BatchIsFixedAtTheSwap(s1, evs[1..]);
      Slices(s.batch, s.next, s1.next, r.next);
    }
  }

  lemma Slices<T>(s: seq<T>, i: nat, j: nat, k: nat)
    requires i <= j <= k <= |s|
    ensures forall p :: p + s[i..j] + s[j..k] == p + s[i..k]
  {
    assert s[i..j] + s[j..k] == s[i..k];
    assert forall p :: p + s[i..j] + s[j..k] == p + (s[i..j] + s[j..k]);
  }

  function Calls(n: nat): seq<Event> {
    if n == 0 then [] else [RunNext] + Calls(n - 1)
  }

  lemma {:induction false} CallsRunTheBatch(s: State)
    requires s.pc.Running? && s.next <= |s.batch| && LOOP !in s.awaiting
    ensures Run(s, Calls(|s.batch| - s.next)) == s.(next := |s.batch|, executed := s.executed + s.batch[s.next..])
    decreases |s.batch| - s.next
  {
    if s.next == |s.batch| {
      assert s.executed + s.batch[s.next..] == s.executed;
    } else {
      CallsRunTheBatch(RanNext(s));
      assert s.batch[s.next..] == [s.batch[s.next]] + s.batch[s.next + 1..];
      assert Calls(|s.batch| - s.next)[1..] == Calls(|s.batch| - s.next - 1);
    }
  }

  /** A loop that waits in poll while functors are pending comes to run them all: when the threads that
      have pushed have also written the eventfd, poll can return, and one turn of the loop that nothing
      interrupts executes everything pushed so far. */
  lemma WokenLoopRunsEverything(evs: seq<Event>)
    requires Run(START, evs).pc.AtPoll? && Run(START, evs).pending != [] && Run(START, evs).awaiting == {}
    ensures var s := Run(START, evs);
            var turn := [Poll(true), HandleRead, Enter, Swap] + Calls(|s.pending|);
            && Enabled(s, Poll(true)) && Enabled(Run(s, turn), Leave)
            && Run(s, turn).executed == s.pushed && Run(s, turn).pending == []
  {
    RunKeepsInv(START, evs);
    var s := Run(START, evs);
    OneTurn(s);
    assert s.batch[s.next..] == [];
    assert s.executed + [] + s.pending == s.executed + s.pending;
  }

  lemma OneTurn(s: State)
    requires s.pc.AtPoll? && s.counter > 0 && s.awaiting == {}
    ensures var r := Run(s, [Poll(true), HandleRead, Enter, Swap] + Calls(|s.pending|));
            Enabled(r, Leave) && r.executed == s.executed + s.pending && r.pending == []
  {
    var first := [Poll(true), HandleRead, Enter, Swap];
    WokenLoopSwaps(s);
    RunConcat(s, first, Calls(|s.pending|));
    CallsRunTheBatch(Run(s, first));
    assert s.pending[0..] == s.pending;
  }

  lemma WokenLoopSwaps(s: State)
    requires s.pc.AtPoll? && s.counter > 0 && s.awaiting == {}
    ensures Run(s, [Poll(true), HandleRead, Enter, Swap]) ==
            s.(pc := Running, calling := true, counter := 0, batch := s.pending, next := 0, pending := [], mark := |s.pushed|)
  {
    FourSteps(s, Poll(true), HandleRead, Enter, Swap);
  }

  lemma FourSteps(s: State, a: Event, b: Event, c: Event, d: Event)
    ensures Run(s, [a, b, c, d]) == Apply(Apply(Apply(Apply(s, a), b), c), d)
  {
    RunOne(s, [a, b, c], d);
    RunOne(s, [a, b], c);
    RunOne(s, [a], b);
    RunOne(s, [], a);
    assert [a, b, c, d] == [a, b, c] + [d] && [a, b, c] == [a, b] + [c] && [a, b] == [a] + [b] && [a] == [] + [a];
  }

  /** The loop without its functors: where the loop thread is, quit_, the threads that still have to write the
      eventfd, how many writes it holds; and everything that has been pushed. */
  datatype Control = Control(at: Pc, quit: bool, awaiting: set<Tid>, writes: nat, pushed: seq<Fn>)

  /** The loop thread goes through its turn in order.  quit by any thread stays until loop() is called again.  A
      thread owes the eventfd a write when it has pushed or quit from outside the loop thread, or pushed in a
      functor, until it writes; the wakeup channel's callback takes all writes at once. */
  function ControlAfter(g: Control, ev: Event): Control {
    match ev
    case Push(t, f) =>
      g.(pushed := g.pushed + [f], awaiting := if t != LOOP || g.at == Running then g.awaiting + {t} else g.awaiting)
    case SetQuit(t) => g.(quit := true, awaiting := if t != LOOP then g.awaiting + {t} else g.awaiting)
    case Wakeup(t) => g.(awaiting := g.awaiting - {t}, writes := if g.writes == EVENTFD_MAX then g.writes else g.writes + 1)
    case LoopAgain => g.(at := AtTest, quit := false)
    case Test => g.(at := if g.quit then Stopped else AtPoll)
    case Poll(wake) => g.(at := Handling(wake))
    case HandleRead => g.(at := Handling(false), writes := 0)
    case Enter => g.(at := Entering)
    case Swap => g.(at := Running)
    case RunNext => g
    case Leave => g.(at := AtTest)
  }

  function ControlOver(g: Control, s: State, evs: seq<Event>): Control
    decreases |evs|
  {
    if evs == [] then g
    else ControlOver(if Enabled(s, evs[0]) then ControlAfter(g, evs[0]) else g, Apply(s, evs[0]), evs[1..])
  }

  ghost predicate ControlOf(s: State, g: Control) {
    g == Control(s.pc, s.quit, s.awaiting, s.counter, s.pushed) && s.counter <= EVENTFD_MAX
  }

  lemma ControlStep(s: State, g: Control, ev: Event)
    requires Inv(s) && ControlOf(s, g) && Enabled(s, ev)
    ensures ControlOf(Apply(s, ev), ControlAfter(g, ev))
  {
  }

  lemma {:induction false} ControlFrom(s: State, g: Control, evs: seq<Event>)
    requires Inv(s) && ControlOf(s, g)
    ensures ControlOf(Run(s, evs), ControlOver(g, s, evs))
    decreases |evs|
  {
    if evs != [] {
      ApplyKeepsInv(s, evs[0]);
      if Enabled(s, evs[0]) {
        ControlStep(s, g, evs[0]);
        ControlFrom(Apply(s, evs[0]), ControlAfter(g, evs[0]), evs[1..]);
      } else {
        ControlFrom(s, g, evs[1..]);
      }
    }
  }

  /** In every interleaving no push, no quit and no wakeup is lost or made up, and the loop thread keeps to its
      order. */
  lemma ControlOverRuns(evs: seq<Event>)
    ensures var s := Run(START, evs);
            ControlOver(Control(AtTest, false, {}, 0, []), START, evs) == Control(s.pc, s.quit, s.awaiting, s.counter, s.pushed)
  {
    ControlFrom(START, Control(AtTest, false, {}, 0, []), evs);
  }

  /** Once quit_ is set and the loop is out of poll, it does not go back to poll, unless loop() is called
      again. */
  lemma {:induction false} QuitIsFinal(s: State, evs: seq<Event>)
    requires s.quit && !s.pc.AtPoll? && LoopAgain !in evs
    ensures Run(s, evs).quit && !Run(s, evs).pc.AtPoll?
    decreases |evs|
  {
    if evs != [] {
      assert evs[0] in evs && forall ev :: ev in evs[1..] ==> ev in evs;
      QuitIsFinal(Apply(s, evs[0]), evs[1..]);
    }
  }

  /** The loop thread waits in poll with functors pending, and nothing but the time limit of poll, or an event
      of some other channel, will wake it. */
  predicate Lost(s: State) {
    s.pc.AtPoll? && s.pending != [] && s.counter == 0 && s.awaiting == {}
  }

  lemma NotLostWhenSafe(s: State, f: Fn, evs: seq<Event>)
    requires Inv(s) && !s.calling && (s.pc.Handling? || WakeOnTheWay(s))
    ensures !Lost(Run(PushedBy(s, LOOP, f), evs))
  {
    assert s.executed + s.batch[s.next..] + (s.pending + [f]) == s.pushed + [f];
    RunKeepsInv(PushedBy(s, LOOP, f), evs);
  }

  /** How the loop comes to poll from outside it. */
  function WayToPoll(s: State): seq<Event> {
    (if s.pc.AtTest? && s.quit then [Test, LoopAgain, Test]
     else if s.pc.AtTest? then [Test]
     else if s.pc.Stopped? then [LoopAgain, Test]
     else [])
  }

  lemma LostOnTheWayToPoll(s: State)
    requires !s.calling && !s.pc.Handling? && !s.pc.Entering? && !s.pc.Running?
    requires s.pending != [] && s.counter == 0 && s.awaiting == {}
    ensures Lost(Run(s, WayToPoll(s)))
  {
    if s.pc.AtTest? && s.quit {
      RunOne(s, [Test, LoopAgain], Test);
      RunOne(s, [Test], LoopAgain);
      RunOne(s, [], Test);
      assert [] + [Test] == [Test] && [Test] + [LoopAgain] == [Test, LoopAgain] && [Test, LoopAgain] + [Test] == [Test, LoopAgain, Test];
    } else if s.pc.AtTest? {
      RunOne(s, [], Test);
      assert [] + [Test] == [Test];
    } else if s.pc.Stopped? {
      RunOne(s, [LoopAgain], Test);
      RunOne(s, [], LoopAgain);
      assert [] + [LoopAgain] == [LoopAgain] && [LoopAgain] + [Test] == [LoopAgain, Test];
    }
  }

  /** A push by the loop thread outside its functors is not followed by a wakeup.  No continuation loses it
      exactly when it is made in a handler, or with a wakeup on its way anyway.  Otherwise, as before loop() is
      called for the first time or again, the loop can go to poll and leave it behind. */
  lemma QuietPushIsSafe(s: State, f: Fn)
    requires Inv(s) && !s.calling && LOOP !in s.awaiting
    ensures (forall evs :: !Lost(Run(PushedBy(s, LOOP, f), evs))) <==> s.pc.Handling? || WakeOnTheWay(s)
  {
    var r := PushedBy(s, LOOP, f);
    if s.pc.Handling? || WakeOnTheWay(s) {
      forall evs ensures !Lost(Run(r, evs)) {
        NotLostWhenSafe(s, f, evs);
      }
    } else {
      LostOnTheWayToPoll(r);
      assert exists evs :: Lost(Run(r, evs));
    }
  }

  lemma QuietPushCanBeLost(f: Fn)
    ensures Lost(Apply(PushedBy(START, LOOP, f), Test)) && Apply(PushedBy(START, LOOP, f), Test).pending == [f]
  {
  }

  // ---------- the class ----------

  /** A call of queueInLoop or of quit, made by the loop thread or by another. */
  datatype Act = Queues(t: Tid, f: Fn) | Quits(t: Tid)

  function ActSteps(acts: seq<Act>): seq<Event> {
    if acts == [] then []
    else
      var last := acts[|acts| - 1];
      ActSteps(acts[..|acts| - 1]) + [if last.Queues? then Push(last.t, last.f) else SetQuit(last.t), Wakeup(last.t)]
  }

  function Functors(acts: seq<Act>): seq<Fn> {
    if acts == [] then []
    else
      var last := acts[|acts| - 1];
      Functors(acts[..|acts| - 1]) + if last.Queues? then [last.f] else []
  }

  predicate HasQuit(acts: seq<Act>) {
    acts != [] && (HasQuit(acts[..|acts| - 1]) || acts[|acts| - 1].Quits?)
  }

  /** The threads that act are not inside an earlier call, and the loop thread acts where it may. */
  ghost predicate CanAct(s: State, acts: seq<Act>) {
    forall a :: a in acts ==> a.t !in s.awaiting && (a.t == LOOP ==> InHandlerOrFunctor(s.pc))
  }

  /** A batch in which `plan[i]` happens while the i-th functor runs. */
  function BatchSteps(plan: seq<seq<Act>>): seq<Event> {
    if plan == [] then [Enter, Swap] else BatchSteps(plan[..|plan| - 1]) + [RunNext] + ActSteps(plan[|plan| - 1])
  }

  function AllFunctors(plan: seq<seq<Act>>): seq<Fn> {
    if plan == [] then [] else AllFunctors(plan[..|plan| - 1]) + Functors(plan[|plan| - 1])
  }

  predicate PlanQuits(plan: seq<seq<Act>>) {
    plan != [] && (PlanQuits(plan[..|plan| - 1]) || HasQuit(plan[|plan| - 1]))
  }

  /** One turn of the loop: what other threads do while it is in poll, and what happens while the handlers run
      and while each functor runs. */
  datatype Turn = Turn(arrivals: seq<Act>, handled: seq<Act>, plan: seq<seq<Act>>)

  ghost predicate FromOthers(turn: Turn) {
    forall a :: a in turn.arrivals ==> a.t != LOOP
  }

  /** `plan` for a batch of `n` functors. */
  function Padded(plan: seq<seq<Act>>, n: nat): (r: seq<seq<Act>>)
    ensures |r| == n
  {
    seq(n, i requires 0 <= i < n => if i < |plan| then plan[i] else [])
  }

  /** The batch of a turn that finds `pending`. */
  function BatchOf(turn: Turn, pending: seq<Fn>): seq<Fn> {
    pending + Functors(turn.arrivals) + Functors(turn.handled)
  }

  function PlanOf(turn: Turn, pending: seq<Fn>): seq<seq<Act>> {
    Padded(turn.plan, |BatchOf(turn, pending)|)
  }

  predicate TurnQuits(turn: Turn, pending: seq<Fn>) {
    HasQuit(turn.arrivals) || HasQuit(turn.handled) || PlanQuits(PlanOf(turn, pending))
  }

  /** What loop() has executed, and leaves pending: each turn executes what was pending, what arrived in poll
      and what the handlers queued, and leaves what was queued during its functors; the first turn in which
      quit is called is the last. */
  function LoopResult(turns: seq<Turn>, executed: seq<Fn>, pending: seq<Fn>): (seq<Fn>, seq<Fn>)
    decreases |turns|
  {
    if turns == [] then (executed, pending)
    else
      var e, p := executed + BatchOf(turns[0], pending), AllFunctors(PlanOf(turns[0], pending));
      if TurnQuits(turns[0], pending) then (e, p) else LoopResult(turns[1..], e, p)
  }

  /** Quit is called in the last turn, at the latest. */
  ghost predicate EndsWithQuit(turns: seq<Turn>) {
    && turns != [] && (HasQuit(turns[|turns| - 1].arrivals) || HasQuit(turns[|turns| - 1].handled))
    && forall t :: t in turns ==> FromOthers(t)
  }

  class EventLoop {
    var looping: bool
    var quit: bool
    var callingPendingFunctors: bool
    var pendingFunctors: seq<Fn>
    var eventHandling: bool
    var activeChannels: seq<Dispatches.Ch>
    var currentActiveChannel: Option<Dispatches.Ch>
    ghost var steps: State                  // the functors, the eventfd and the threads
    var channels: Dispatches.State          // the channels with their owners

    ghost predicate Valid()
      reads this
    {
      && quit == steps.quit && callingPendingFunctors == steps.calling && pendingFunctors == steps.pending
      && Inv(steps)
    }

    ghost predicate DispatchValid()
      reads this
    {
      && eventHandling == channels.eventHandling && activeChannels == channels.active
      && currentActiveChannel == channels.current
      && Dispatches.Inv(channels)
    }

    constructor ()
      ensures Valid() && steps == START && !looping
      ensures DispatchValid() && channels == DispatchRuns.START
    {
      looping, quit, callingPendingFunctors, pendingFunctors := false, false, false, [];
      eventHandling, activeChannels, currentActiveChannel := false, [], None;
      steps, channels := START, DispatchRuns.START;
      new;
      DispatchRuns.StartIsSound();
    }

    method Wakeup(ghost t: Tid)
      requires Valid() && t in steps.awaiting
      modifies this`steps
      ensures Valid() && steps == Apply(old(steps), Event.Wakeup(t))
    {
      ApplyKeepsInv(steps, Event.Wakeup(t));
      steps := WokenBy(steps, t);
    }

    method QueueInLoop(t: Tid, f: Fn)
      requires Valid() && Enabled(steps, Push(t, f))
      modifies this`pendingFunctors, this`steps
      ensures Valid()
      ensures steps == if t != LOOP || callingPendingFunctors
                       then Apply(Apply(old(steps), Push(t, f)), Event.Wakeup(t)) else Apply(old(steps), Push(t, f))
      ensures pendingFunctors == old(pendingFunctors) + [f] && steps.awaiting == old(steps).awaiting
      ensures t != LOOP || callingPendingFunctors ==> steps.counter > 0
    {
      ApplyKeepsInv(steps, Push(t, f));
      pendingFunctors := pendingFunctors + [f];
      steps := PushedBy(steps, t, f);
      if t != LOOP || callingPendingFunctors {
        Wakeup(t);
      }
    }

    method Quit(t: Tid)
      requires Valid() && Enabled(steps, SetQuit(t))
      modifies this`quit, this`steps
      ensures Valid() && quit && steps.awaiting == old(steps).awaiting
      ensures t != LOOP ==> steps == Apply(Apply(old(steps), SetQuit(t)), Event.Wakeup(t)) && steps.counter > 0
      ensures t == LOOP ==> steps == Apply(old(steps), SetQuit(t))
    {
      ApplyKeepsInv(steps, SetQuit(t));
      quit := true;
      steps := QuitBy(steps, t);
      if t != LOOP {
        Wakeup(t);
      }
    }

    /** The wakeup channel's read callback. */
    method HandleRead()
      requires Valid() && Enabled(steps, Event.HandleRead)
      modifies this`steps
      ensures Valid() && steps == Apply(old(steps), Event.HandleRead) && steps.counter == 0
    {
      ApplyKeepsInv(steps, Event.HandleRead);
      steps := Apply(steps, Event.HandleRead);
    }

    method Perform(act: Act)
      requires Valid() && CanAct(steps, [act])
      modifies this`quit, this`pendingFunctors, this`steps
      ensures Valid() && steps == Run(old(steps), ActSteps([act]))
      ensures pendingFunctors == old(pendingFunctors) + Functors([act]) && (quit <==> old(quit) || HasQuit([act]))
      ensures SamePlace(old(steps), steps)
    {
      ghost var s0 := steps;
      assert act in [act];
      OneActSteps(s0, act);
      match act
      case Queues(t, f) => QueueInLoop(t, f);
      case Quits(t) => Quit(t);
    }

    /** The calls in `acts`, one after the other. */
    method PerformAll(acts: seq<Act>)
      requires Valid() && CanAct(steps, acts)
      modifies this`quit, this`pendingFunctors, this`steps
      ensures Valid() && steps == Run(old(steps), ActSteps(acts))
      ensures pendingFunctors == old(pendingFunctors) + Functors(acts) && (quit <==> old(quit) || HasQuit(acts))
      ensures SamePlace(old(steps), steps)
    {
      ghost var s0, was, q0 := steps, pendingFunctors, quit;
      var i := 0;
      while i < |acts|
        invariant 0 <= i <= |acts| && Valid()
        invariant steps == Run(s0, ActSteps(acts[..i]))
        invariant pendingFunctors == was + Functors(acts[..i]) && (quit <==> q0 || HasQuit(acts[..i]))
        invariant SamePlace(s0, steps)
      {
        assert acts[i] in acts;
        ActStep(s0, acts, i);
        Perform(acts[i]);
        i := i + 1;
      }
      assert acts[..|acts|] == acts;
    }

    /** doPendingFunctors up to the end of its critical section. */
    method TakeBatch() returns (functors: seq<Fn>)
      requires Valid() && steps.pc.Handling?
      modifies this`callingPendingFunctors, this`pendingFunctors, this`steps
      ensures Valid() && functors == old(pendingFunctors) && pendingFunctors == []
      ensures steps == Run(old(steps), BatchSteps([])) && steps.pc.Running?
      ensures steps.batch == functors && steps.next == 0
      ensures steps.executed == old(steps).executed && steps.awaiting == old(steps).awaiting
    {
      ghost var s0 := steps;
      ApplyKeepsInv(steps, Enter);
      callingPendingFunctors := true;
      steps := Apply(steps, Enter);
      ApplyKeepsInv(steps, Swap);
      functors := pendingFunctors;
      pendingFunctors := [];
      steps := Swapped(steps);
      RunOne(s0, [Enter], Swap);
      RunOne(s0, [], Enter);
      assert [Enter] + [Swap] == [Enter, Swap] && [] + [Enter] == [Enter];
    }

    /** One call of a functor, while `acts` happen. */
    method CallFunctor(acts: seq<Act>)
      requires Valid() && Enabled(steps, RunNext) && CanAct(steps, acts)
      modifies this`quit, this`pendingFunctors, this`steps
      ensures Valid() && steps == Run(Apply(old(steps), RunNext), ActSteps(acts)) && steps.pc.Running?
      ensures steps.batch == old(steps).batch && steps.next == old(steps).next + 1 && steps.awaiting == old(steps).awaiting
      ensures steps.executed == old(steps).executed + [steps.batch[old(steps).next]]
      ensures pendingFunctors == old(pendingFunctors) + Functors(acts) && (quit <==> old(quit) || HasQuit(acts))
    {
      ApplyKeepsInv(steps, RunNext);
      steps := RanNext(steps);
      PerformAll(acts);
    }

    method EndBatch()
      requires Valid() && Enabled(steps, Leave)
      modifies this`callingPendingFunctors, this`steps
      ensures Valid() && !callingPendingFunctors && steps == Apply(old(steps), Leave)
    {
      ApplyKeepsInv(steps, Leave);
      callingPendingFunctors := false;
      steps := Apply(steps, Leave);
    }

    /** `plan` says what happens while each functor of the batch runs. */
    method DoPendingFunctors(plan: seq<seq<Act>>)
      requires Valid() && steps.pc.Handling? && |plan| == |pendingFunctors|
      requires forall acts, a :: acts in plan && a in acts ==> a.t !in steps.awaiting
      modifies this`quit, this`callingPendingFunctors, this`pendingFunctors, this`steps
      ensures Valid() && !callingPendingFunctors
      ensures steps == Run(old(steps), BatchSteps(plan) + [Leave])
      ensures steps.pc.AtTest? && steps.awaiting == old(steps).awaiting
      ensures steps.executed == old(steps).executed + old(pendingFunctors)
      ensures pendingFunctors == AllFunctors(plan) && (quit <==> old(quit) || PlanQuits(plan))
    {
      ghost var s0 := steps;
      var functors := TakeBatch();
      CallAll(s0, functors, plan);
      RunOne(s0, BatchSteps(plan), Leave);
      EndBatch();
    }

    /** The loop over the batch taken at `s0`. */
    method CallAll(ghost s0: State, functors: seq<Fn>, plan: seq<seq<Act>>)
      requires Valid() && steps.pc.Running? && steps.batch == functors && steps.next == 0 && |plan| == |functors|
      requires steps == Run(s0, BatchSteps([])) && pendingFunctors == [] && LOOP !in steps.awaiting
      requires forall acts, a :: acts in plan && a in acts ==> a.t !in steps.awaiting
      modifies this`quit, this`pendingFunctors, this`steps
      ensures Valid() && Enabled(steps, Leave) && steps == Run(s0, BatchSteps(plan))
      ensures steps.awaiting == old(steps).awaiting && steps.executed == old(steps).executed + functors
      ensures pendingFunctors == AllFunctors(plan) && (quit <==> old(quit) || PlanQuits(plan))
    {
      ghost var s1, q1 := steps, quit;
      var i := 0;
      while i < |functors|
        invariant 0 <= i <= |functors| && Called(s0, s1, q1, plan, i)
      {
        assert plan[i] in plan;
        CallNext(s0, s1, q1, plan, i);
        i := i + 1;
      }
      assert plan[..|plan|] == plan && functors[..|functors|] == functors;
    }

    /** The first `i` functors of the batch have been called, from `s1` on. */
    ghost predicate Called(s0: State, s1: State, q1: bool, plan: seq<seq<Act>>, i: nat)
      requires i <= |plan| == |s1.batch|
      reads this
    {
      && Valid() && steps.pc.Running? && steps.awaiting == s1.awaiting && steps.batch == s1.batch && steps.next == i
      && steps.executed == s1.executed + s1.batch[..i]
      && pendingFunctors == AllFunctors(plan[..i]) && (quit <==> q1 || PlanQuits(plan[..i]))
      && steps == Run(s0, BatchSteps(plan[..i]))
    }

    method CallNext(ghost s0: State, ghost s1: State, ghost q1: bool, plan: seq<seq<Act>>, i: nat)
      requires i < |plan| == |s1.batch| && Called(s0, s1, q1, plan, i)
      requires LOOP !in s1.awaiting && forall a :: a in plan[i] ==> a.t !in s1.awaiting
      modifies this`quit, this`pendingFunctors, this`steps
      ensures Called(s0, s1, q1, plan, i + 1)
    {
      BatchStep(s0, plan, i, steps);
      assert s1.batch[..i + 1] == s1.batch[..i] + [s1.batch[i]];
      CallFunctor(plan[i]);
    }

    /** One turn of the loop, up to the dispatch. */
    method WaitForEvents(arrivals: seq<Act>)
      requires Valid() && steps.pc.AtTest? && !quit && steps.awaiting == {}
      requires forall a :: a in arrivals ==> a.t != LOOP
      modifies this`quit, this`pendingFunctors, this`steps
      ensures Valid() && steps.pc.Handling? && steps.awaiting == {} && (quit <==> HasQuit(arrivals))
      ensures steps.executed == old(steps).executed && pendingFunctors == old(pendingFunctors) + Functors(arrivals)
    {
      ApplyKeepsInv(steps, Test);
      steps := Apply(steps, Test);
      PerformAll(arrivals);
      ReturnFromPoll();
    }

    /** One turn of the loop. */
    method TakeTurn(turn: Turn)
      requires Valid() && steps.pc.AtTest? && !quit && steps.awaiting == {} && FromOthers(turn)
      modifies this`quit, this`callingPendingFunctors, this`pendingFunctors, this`steps
      ensures Valid() && steps.pc.AtTest? && steps.awaiting == {}
      ensures quit <==> TurnQuits(turn, old(pendingFunctors))
      ensures steps.executed == old(steps).executed + BatchOf(turn, old(pendingFunctors))
      ensures pendingFunctors == AllFunctors(PlanOf(turn, old(pendingFunctors)))
    {
      WaitForEvents(turn.arrivals);
      PerformAll(turn.handled);
      DoPendingFunctors(Padded(turn.plan, |pendingFunctors|));
    }

    /** poll and the wakeup channel's callback: when something is pending or quit_ is set, the eventfd is
        readable. */
    method ReturnFromPoll()
      requires Valid() && steps.pc.AtPoll? && steps.awaiting == {}
      modifies this`steps
      ensures Valid() && steps.pc.Handling? && steps.awaiting == {}
      ensures steps.executed == old(steps).executed
      ensures pendingFunctors != [] || quit ==> old(steps).counter > 0 && steps.counter == 0
    {
      var wake := pendingFunctors != [] || quit;
      ApplyKeepsInv(steps, Poll(wake));
      steps := Apply(steps, Poll(wake));
      if wake {
        HandleRead();
      }
    }

    /** loop(), called for the first time or again. */
    method Loop(turns: seq<Turn>)
      requires Valid() && (steps.pc.AtTest? || steps.pc.Stopped?) && steps.awaiting == {} && !looping
      requires EndsWithQuit(turns)
      modifies this`looping, this`quit, this`callingPendingFunctors, this`pendingFunctors, this`steps
      ensures Valid() && !looping && quit && steps.pc.Stopped?
      ensures (steps.executed, pendingFunctors) == LoopResult(turns, old(steps).executed, old(pendingFunctors))
    {
      BeginLoop();
      ghost var goal := LoopResult(turns, steps.executed, pendingFunctors);
      var rest := turns;
      while !quit
        invariant Valid() && steps.pc.AtTest? && steps.awaiting == {} && looping
        invariant !quit ==> EndsWithQuit(rest) && LoopResult(rest, steps.executed, pendingFunctors) == goal
        invariant quit ==> (steps.executed, pendingFunctors) == goal
        decreases |rest|
      {
        var turn := rest[0];
        TurnsGoOn(rest, pendingFunctors);
        TakeTurn(turn);
        rest := rest[1..];
      }
      EndLoop();
    }

    method BeginLoop()
      requires Valid() && (steps.pc.AtTest? || steps.pc.Stopped?) && !looping
      modifies this`looping, this`quit, this`steps
      ensures Valid() && looping && !quit && steps == old(steps).(pc := AtTest, quit := false)
    {
      looping, quit := true, false;
      steps := steps.(pc := AtTest, quit := false);
    }

    method EndLoop()
      requires Valid() && steps.pc.AtTest? && quit && steps.awaiting == {}
      modifies this`looping, this`steps
      ensures Valid() && !looping && steps.pc.Stopped? && steps.executed == old(steps).executed
    {
      ApplyKeepsInv(steps, Test);
      steps := Apply(steps, Test);
      looping := false;
    }

    // ---------- dispatch ----------

    method RemoveChannel(ch: Dispatches.Ch)
      requires DispatchValid() && Dispatches.MayRemove(channels, ch)
      modifies this`channels
      ensures channels == old(channels).(registered := old(channels).registered - {ch})
    {
      if eventHandling {
        assert currentActiveChannel == Some(ch) || ch !in activeChannels;
      }
      channels := channels.(registered := channels.registered - {ch});
    }

    /** What happens in a callback or functor: it may remove a channel. */
    method Do(ev: Dispatches.Event)
      requires DispatchValid() && (DispatchRuns.InCallback(ev) || ev.RunJob?)
      modifies this`channels
      ensures DispatchValid() && channels == Dispatches.Apply(old(channels), ev)
      ensures DispatchRuns.InCallback(ev) ==> channels.pc == old(channels).pc
    {
      ghost var c0 := channels;
      Dispatches.ApplyKeepsInv(channels, ev);
      if DispatchRuns.InCallback(ev) {
        DispatchRuns.CallbackKeepsPlace(channels, ev);
      }
      var next := Dispatches.Apply(channels, ev);
      var gone := channels.registered - next.registered;
      if gone != {} {
        var ch :| ch in gone;
        assert ch in Dispatches.Removes(c0, ev);
        RemoveChannel(ch);
      }
      channels := next;
    }

    method DoAll(script: seq<Dispatches.Event>)
      requires DispatchValid() && forall ev :: ev in script ==> DispatchRuns.InCallback(ev)
      modifies this`channels
      ensures DispatchValid() && channels == DispatchRuns.Run(old(channels), script) && channels.pc == old(channels).pc
    {
      ghost var c0 := channels;
      var i := 0;
      while i < |script|
        invariant 0 <= i <= |script| && DispatchValid() && channels.pc == c0.pc
        invariant channels == DispatchRuns.Run(c0, script[..i])
      {
        assert script[i] in script;
        assert script[..i + 1] == script[..i] + [script[i]];
        DispatchRuns.RunOne(c0, script[..i], script[i]);
        Do(script[i]);
        i := i + 1;
      }
      assert script[..|script|] == script;
    }

    method VisitNext(script: seq<Dispatches.Event>)
      requires DispatchValid() && channels.pc.Dispatching? && channels.pc.at < |activeChannels|
      requires forall ev :: ev in script ==> DispatchRuns.InCallback(ev)
      modifies this`currentActiveChannel, this`channels
      ensures DispatchValid() && channels == DispatchRuns.Run(Dispatches.Apply(old(channels), Dispatches.Visit), script)
      ensures channels.pc == Dispatches.Dispatching(old(channels).pc.at + 1)
    {
      Dispatches.ApplyKeepsInv(channels, Dispatches.Visit);
      currentActiveChannel := Some(activeChannels[channels.pc.at]);
      channels := Dispatches.Apply(channels, Dispatches.Visit);
      DoAll(script);
    }

    /** The dispatch of one poll; `scripts[i]` happens while the i-th active channel handles its event. */
    method HandleEvents(ready: seq<Dispatches.Ch>, scripts: seq<seq<Dispatches.Event>>)
      requires DispatchValid() && Dispatches.Enabled(channels, Dispatches.Poll(ready)) && |scripts| == |ready|
      requires forall q, ev :: q in scripts && ev in q ==> DispatchRuns.InCallback(ev)
      modifies this`eventHandling, this`activeChannels, this`currentActiveChannel, this`channels
      ensures DispatchValid() && !eventHandling && currentActiveChannel == None && channels.pc.InFunctors?
      ensures channels == Dispatches.Apply(
                            DispatchRuns.Run(Dispatches.Apply(old(channels), Dispatches.Poll(ready)), DispatchRuns.Visits(scripts)),
                            Dispatches.EndHandling)
    {
      Dispatches.ApplyKeepsInv(channels, Dispatches.Poll(ready));
      activeChannels := ready;
      eventHandling := true;
      channels := Dispatches.Apply(channels, Dispatches.Poll(ready));
      ghost var c0 := channels;
      var i := 0;
      while i < |activeChannels|
        invariant 0 <= i <= |ready| && activeChannels == ready && DispatchValid()
        invariant channels.pc == Dispatches.Dispatching(i)
        invariant channels == DispatchRuns.Run(c0, DispatchRuns.Visits(scripts[..i]))
      {
        assert scripts[i] in scripts;
        DispatchRuns.VisitStep(c0, scripts, i);
        VisitNext(scripts[i]);
        i := i + 1;
      }
      assert scripts[..|scripts|] == scripts;
      Dispatches.ApplyKeepsInv(channels, Dispatches.EndHandling);
      currentActiveChannel := None;
      eventHandling := false;
      channels := Dispatches.Apply(channels, Dispatches.EndHandling);
    }
  }

  /** The calls have left the loop thread where it was. */
  ghost predicate SamePlace(s: State, r: State) {
    && r.pc == s.pc && r.awaiting == s.awaiting
    && r.batch == s.batch && r.next == s.next && r.executed == s.executed
  }

  lemma TurnsGoOn(turns: seq<Turn>, pending: seq<Fn>)
    requires EndsWithQuit(turns)
    ensures FromOthers(turns[0])
    ensures !TurnQuits(turns[0], pending) ==> EndsWithQuit(turns[1..])
  {
    assert turns[0] in turns;
    if !TurnQuits(turns[0], pending) {
      assert turns[1..][|turns| - 2] == turns[|turns| - 1];
      assert forall t :: t in turns[1..] ==> t in turns;
    }
  }

  lemma OneActSteps(s: State, act: Act)
    ensures Run(s, ActSteps([act])) ==
            Apply(Apply(s, if act.Queues? then Push(act.t, act.f) else SetQuit(act.t)), Wakeup(act.t))
    ensures Functors([act]) == (if act.Queues? then [act.f] else []) && (HasQuit([act]) <==> act.Quits?)
  {
    var first, second := if act.Queues? then Push(act.t, act.f) else SetQuit(act.t), Wakeup(act.t);
    assert [act][..0] == [];
    assert ActSteps([act]) == [] + [first, second] == [first] + [second];
    RunOne(s, [first], second);
    RunOne(s, [], first);
    assert [] + [first] == [first];
  }

  lemma ActStep(s0: State, acts: seq<Act>, i: nat)
    requires i < |acts|
    ensures Run(s0, ActSteps(acts[..i + 1])) == Run(Run(s0, ActSteps(acts[..i])), ActSteps([acts[i]]))
    ensures Functors(acts[..i + 1]) == Functors(acts[..i]) + Functors([acts[i]])
    ensures HasQuit(acts[..i + 1]) <==> HasQuit(acts[..i]) || HasQuit([acts[i]])
  {
    OneActSteps(s0, acts[i]);
    assert acts[..i + 1][..i] == acts[..i] && [acts[i]][..0] == [];
    var last := [if acts[i].Queues? then Push(acts[i].t, acts[i].f) else SetQuit(acts[i].t), Wakeup(acts[i].t)];
    assert ActSteps([acts[i]]) == [] + last == last;
    RunConcat(s0, ActSteps(acts[..i]), last);
  }

  lemma BatchStep(s0: State, plan: seq<seq<Act>>, i: nat, s1: State)
    requires i < |plan| && s1 == Run(s0, BatchSteps(plan[..i]))
    ensures Run(s0, BatchSteps(plan[..i + 1])) == Run(Apply(s1, RunNext), ActSteps(plan[i]))
    ensures AllFunctors(plan[..i + 1]) == AllFunctors(plan[..i]) + Functors(plan[i])
    ensures PlanQuits(plan[..i + 1]) <==> PlanQuits(plan[..i]) || HasQuit(plan[i])
  {
    assert plan[..i + 1][..i] == plan[..i];
    RunOne(s0, BatchSteps(plan[..i]), RunNext);
    RunConcat(s0, BatchSteps(plan[..i]) + [RunNext], ActSteps(plan[i]));
  }
}
