/**
 base/ThreadPool.cc: a bounded queue with two condition variables, any number of worker threads and any
 number of producer threads.

 Each critical section is one step.  A thread that finds its wait condition false falls asleep in that
 step; notify_one moves one sleeper, chosen arbitrarily, to `Notified`, and so does a spurious wakeup.
 */
module ThreadPools {
  import opened Options

  type Tid = nat
  type Task = nat

  /** A worker is about to read running_, about to enter take, asleep on notEmpty_, woken but without the
      lock yet, inside a task, or returned from runInThread. */
  datatype Worker = Testing | Entering | Asleep | Notified | Working | Exited

  /** A producer is outside run, about to enter its critical section, asleep on notFull_, or woken. */
  datatype Producer = Outside | Enters(task: Task) | Sleeps(task: Task) | Woken(task: Task)

  datatype State = State(
    max: nat,                          // maxQueueSize_
    running: bool,
    queue: seq<Task>,
    workers: map<Tid, Worker>,         // one for each thread of threads_
    producers: map<Tid, Producer>,
    submitted: seq<Task>,              // what run has accepted, in order
    started: seq<Task>                 // what workers have begun, in order
  )

  datatype Event =
    | Test(w: Tid)
    | Take(w: Tid, wakes: Option<Tid>)
    | Finish(w: Tid)
    | Call(p: Tid, task: Task)
    | Put(p: Tid, wakes: Option<Tid>)
    | Stop
    | Spurious(w: Tid)
    | SpuriousProducer(p: Tid)

  predicate Full(s: State) {
    s.max > 0 && |s.queue| >= s.max
  }

  function Sleepers(m: map<Tid, Worker>): set<Tid> {
    set w | w in m && m[w].Asleep?
  }

  function SleepingProducers(m: map<Tid, Producer>): set<Tid> {
    set p | p in m && m[p].Sleeps?
  }

  /** Workers that are awake, or woken, and on their way to the queue. */
  function Coming(m: map<Tid, Worker>): set<Tid> {
    set w | w in m && (m[w].Testing? || m[w].Entering? || m[w].Notified?)
  }

  /** Producers that are awake, or woken, and on their way to the queue. */
  function ComingProducers(m: map<Tid, Producer>): set<Tid> {
    set p | p in m && (m[p].Enters? || m[p].Woken?)
  }

  /** notify_one wakes one of the sleepers, unless there are none. */
  predicate NotifiesOne(sleepers: set<Tid>, wakes: Option<Tid>) {
    match wakes
    case None => sleepers == {}
    case Some(t) => t in sleepers
  }

  // ---------- the critical sections ----------

  function NotifiedOne(s: State, wakes: Option<Tid>): State {
    match wakes
    case None => s
    case Some(w) => s.(workers := s.workers[w := Notified])
  }

  function NotifiedProducer(s: State, wakes: Option<Tid>): State {
    match wakes
    case None => s
    case Some(p) => if p in s.producers && s.producers[p].Sleeps? then s.(producers := s.producers[p := Woken(s.producers[p].task)]) else s
  }

  /** take, from the moment the worker holds the lock. */
  function Taken(s: State, w: Tid, wakes: Option<Tid>): State
    requires w in s.workers
  {
    if s.queue != [] then
      var r := s.(queue := s.queue[1..], started := s.started + [s.queue[0]], workers := s.workers[w := Working]);
      if s.max > 0 then NotifiedProducer(r, wakes) else r
    else if !s.running then s.(workers := s.workers[w := Testing])
    else s.(workers := s.workers[w := Asleep])
  }

  /** run with threads, from the moment the producer holds the lock. */
  function PutBy(s: State, p: Tid, task: Task, wakes: Option<Tid>): State {
    if Full(s) then s.(producers := s.producers[p := Sleeps(task)])
    else
      NotifiedOne(s.(queue := s.queue + [task], submitted := s.submitted + [task], producers := s.producers[p := Outside]), wakes)
  }

  /** run: without threads the task runs in the caller. */
  function Called(s: State, p: Tid, task: Task): State {
    if s.workers == map[] then s.(submitted := s.submitted + [task], started := s.started + [task])
    else s.(producers := s.producers[p := Enters(task)])
  }

  function Stopped(s: State): State {
    s.(running := false, workers := map w | w in s.workers :: if s.workers[w].Asleep? then Notified else s.workers[w])
  }

  predicate Enabled(s: State, ev: Event) {
    match ev
    case Test(w) => w in s.workers && s.workers[w].Testing?
    case Take(w, wakes) =>
      && w in s.workers && (s.workers[w].Entering? || s.workers[w].Notified?)
      && (s.queue != [] && s.max > 0 ==> NotifiesOne(SleepingProducers(s.producers), wakes))
    case Finish(w) => w in s.workers && s.workers[w].Working?
    case Call(p, _) => p in s.producers && s.producers[p].Outside?
    case Put(p, wakes) =>
      && p in s.producers && (s.producers[p].Enters? || s.producers[p].Woken?)
      && (!Full(s) ==> NotifiesOne(Sleepers(s.workers), wakes))
    case Stop => true
    case Spurious(w) => w in s.workers && s.workers[w].Asleep?
    case SpuriousProducer(p) => p in s.producers && s.producers[p].Sleeps?
  }

  function Apply(s: State, ev: Event): State {
    if !Enabled(s, ev) then s
    else match ev
      case Test(w) => s.(workers := s.workers[w := if s.running then Entering else Exited])
      case Take(w, wakes) => Taken(s, w, wakes)
      case Finish(w) => s.(workers := s.workers[w := Testing])
      case Call(p, task) => Called(s, p, task)
      case Put(p, wakes) => PutBy(s, p, s.producers[p].task, wakes)
      case Stop => Stopped(s)
      case Spurious(w) => s.(workers := s.workers[w := Notified])
      case SpuriousProducer(p) => s.(producers := s.producers[p := Woken(s.producers[p].task)])
  }

  // ---------- the invariant ----------

  /** If a worker sleeps, then every queued task has an awake or woken worker of its own on the way. */
  ghost predicate NoWorkerMissed(s: State) {
    s.running && Sleepers(s.workers) != {} ==> |Coming(s.workers)| >= |s.queue|
  }

  /** If a producer sleeps, then every free slot has an awake or woken producer of its own on the way. */
  ghost predicate NoProducerMissed(s: State) {
    s.max > 0 && SleepingProducers(s.producers) != {} ==> |ComingProducers(s.producers)| >= s.max - |s.queue|
  }

  ghost predicate Inv(s: State) {
    && NoWorkerMissed(s)
    && NoProducerMissed(s)
    && s.submitted == s.started + s.queue
    && (s.max > 0 ==> |s.queue| <= s.max)
    && (s.max == 0 ==> SleepingProducers(s.producers) == {})
    && (!s.running ==> Sleepers(s.workers) == {})
    && (s.workers == map[] ==> s.queue == [] && ComingProducers(s.producers) == {} && SleepingProducers(s.producers) == {})
  }

  /** One worker or producer has moved: the sets change by that thread only. */
  lemma WorkerMoves(s: State, r: State, w: Tid, v: Worker)
    requires w in s.workers && r.workers == s.workers[w := v]
    ensures Sleepers(r.workers) == if v.Asleep? then Sleepers(s.workers) + {w} else Sleepers(s.workers) - {w}
    ensures Coming(r.workers) == if v.Testing? || v.Entering? || v.Notified? then Coming(s.workers) + {w} else Coming(s.workers) - {w}
  {
  }

  lemma ProducerMoves(s: State, r: State, p: Tid, v: Producer)
    requires p in s.producers && r.producers == s.producers[p := v]
    ensures SleepingProducers(r.producers) == if v.Sleeps? then SleepingProducers(s.producers) + {p} else SleepingProducers(s.producers) - {p}
    ensures ComingProducers(r.producers) == if v.Enters? || v.Woken? then ComingProducers(s.producers) + {p} else ComingProducers(s.producers) - {p}
  {
  }

  lemma TakeKeepsInv(s: State, w: Tid, wakes: Option<Tid>)
    requires Inv(s) && Enabled(s, Take(w, wakes))
    ensures Inv(Taken(s, w, wakes))
  {
    var r := Taken(s, w, wakes);
    assert w in Coming(s.workers);
    WorkerMoves(s, r, w, r.workers[w]);
    if s.queue != [] {
      assert s.started + s.queue == s.started + [s.queue[0]] + s.queue[1..];
      if s.max > 0 && wakes.Some? {
        ProducerMoves(s, r, wakes.value, r.producers[wakes.value]);
        assert wakes.value !in ComingProducers(s.producers);
      }
    }
  }

  lemma PutKeepsInv(s: State, p: Tid, wakes: Option<Tid>)
    requires Inv(s) && Enabled(s, Put(p, wakes))
    ensures Inv(PutBy(s, p, s.producers[p].task, wakes))
  {
    var r := PutBy(s, p, s.producers[p].task, wakes);
    assert p in ComingProducers(s.producers);
    ProducerMoves(s, r, p, r.producers[p]);
    if !Full(s) {
      var task := s.producers[p].task;
      assert s.started + (s.queue + [task]) == s.submitted + [task];
      if wakes.Some? {
        WorkerMoves(s, r, wakes.value, Notified);
        assert wakes.value !in Coming(s.workers);
      }
    }
  }

  lemma WorkerStepKeepsInv(s: State, w: Tid, v: Worker)
    requires Inv(s) && w in s.workers
    requires || (s.workers[w].Testing? && v == if s.running then Entering else Exited)
             || (s.workers[w].Working? && v.Testing?)
             || (s.workers[w].Asleep? && v.Notified?)
    ensures Inv(s.(workers := s.workers[w := v]))
  {
    var r := s.(workers := s.workers[w := v]);
    WorkerMoves(s, r, w, v);
    assert w in r.workers;
    var coming := Coming(s.workers);
    assert if w in coming then coming + {w} == coming else |coming + {w}| == |coming| + 1;
  }

  lemma ProducerStepKeepsInv(s: State, p: Tid, v: Producer)
    requires Inv(s) && p in s.producers && s.workers != map[]
    requires (s.producers[p].Outside? && v.Enters?) || (s.producers[p].Sleeps? && v.Woken?)
    ensures Inv(s.(producers := s.producers[p := v]))
  {
    ProducerMoves(s, s.(producers := s.producers[p := v]), p, v);
  }

  lemma StopKeepsInv(s: State)
    requires Inv(s)
    ensures Inv(Stopped(s))
  {
    assert Sleepers(Stopped(s).workers) == {};
  }

  lemma ApplyKeepsInv(s: State, ev: Event)
    requires Inv(s)
    ensures Inv(Apply(s, ev))
  {
    if Enabled(s, ev) {
      match ev
      case Test(w) => WorkerStepKeepsInv(s, w, if s.running then Entering else Exited);
      case Take(w, wakes) => TakeKeepsInv(s, w, wakes);
      case Finish(w) => WorkerStepKeepsInv(s, w, Testing);
      case Call(p, task) =>
        if s.workers != map[] {
          ProducerStepKeepsInv(s, p, Enters(task));
        }
      case Put(p, wakes) => PutKeepsInv(s, p, wakes);
      case Stop => StopKeepsInv(s);
      case Spurious(w) => WorkerStepKeepsInv(s, w, Notified);
      case SpuriousProducer(p) =>
        assert p in SleepingProducers(s.producers);
        ProducerStepKeepsInv(s, p, Woken(s.producers[p].task));
    }
  }

  // ---------- over whole runs ----------

  function Run(s: State, evs: seq<Event>): State
    decreases |evs|
  {
    if evs == [] then s else Run(Apply(s, evs[0]), evs[1..])
  }

  /** start has returned, with one worker for each of `threads`; no producer is inside run. */
  function Started(max: nat, threads: set<Tid>, producers: set<Tid>): State {
    State(max, true, [], map w | w in threads :: Testing, map p | p in producers :: Outside, [], [])
  }

  lemma {:induction false} RunKeepsInv(s: State, evs: seq<Event>)
    requires Inv(s)
    ensures Inv(Run(s, evs))
    decreases |evs|
  {
    if evs != [] {
      ApplyKeepsInv(s, evs[0]);
      RunKeepsInv(Apply(s, evs[0]), evs[1..]);
    }
  }

  lemma {:induction false} RunAppends(s: State, evs: seq<Event>, ev: Event)
    ensures Run(s, evs + [ev]) == Apply(Run(s, evs), ev)
    decreases |evs|
  {
    if evs == [] {
      assert Run(Apply(s, ev), []) == Apply(s, ev);
    } else {
      assert (evs + [ev])[1..] == evs[1..] + [ev];
      RunAppends(Apply(s, evs[0]), evs[1..], ev);
    }
  }

  lemma {:induction false} MaxStays(s: State, evs: seq<Event>)
    ensures Run(s, evs).max == s.max
    decreases |evs|
  {
    if evs != [] {
      MaxStays(Apply(s, evs[0]), evs[1..]);
    }
  }

  lemma StartedIsSound(max: nat, threads: set<Tid>, producers: set<Tid>)
    ensures Inv(Started(max, threads, producers))
  {
    var s := Started(max, threads, producers);
    assert Sleepers(s.workers) == {} && SleepingProducers(s.producers) == {} && ComingProducers(s.producers) == {};
  }

  /** No notification is lost on either side, tasks are conserved and start in the order in which they
      were submitted, and the queue keeps its bound. */
  lemma PoolOverRuns(max: nat, threads: set<Tid>, producers: set<Tid>, evs: seq<Event>)
    ensures var s := Run(Started(max, threads, producers), evs);
            && (s.running && Sleepers(s.workers) != {} ==> |Coming(s.workers)| >= |s.queue|)
            && (max > 0 && SleepingProducers(s.producers) != {} ==> |ComingProducers(s.producers)| >= max - |s.queue|)
            && s.submitted == s.started + s.queue
            && (max > 0 ==> |s.queue| <= max)
            && (max == 0 ==> SleepingProducers(s.producers) == {})
  {
    StartedIsSound(max, threads, producers);
    RunKeepsInv(Started(max, threads, producers), evs);
    MaxStays(Started(max, threads, producers), evs);
  }

  // ---------- what each call decides ----------

  /** run runs the task in its caller when there are no threads; otherwise the caller goes for the lock with it. */
  lemma CallDecides(s: State, p: Tid, task: Task)
    requires Enabled(s, Call(p, task))
    ensures Apply(s, Call(p, task)) ==
            if s.workers == map[] then s.(submitted := s.submitted + [task], started := s.started + [task])
            else s.(producers := s.producers[p := Enters(task)])
  {
  }

  /** run with threads: the caller sleeps exactly when the queue is full; otherwise its task is the last, and
      one sleeping worker is woken, if there is one. Nobody else is disturbed. */
  lemma PutDecides(s: State, p: Tid, wakes: Option<Tid>)
    requires Inv(s) && Enabled(s, Put(p, wakes))
    ensures var r := Apply(s, Put(p, wakes));
            var task := s.producers[p].task;
            && r.started == s.started && r.running == s.running && r.max == s.max
            && r.producers.Keys == s.producers.Keys && r.workers.Keys == s.workers.Keys
            && (forall q :: q in s.producers && q != p ==> r.producers[q] == s.producers[q])
            && (s.max > 0 && |s.queue| == s.max ==>
                  r.producers[p] == Sleeps(task) && r.queue == s.queue && r.submitted == s.submitted && r.workers == s.workers)
            && (s.max == 0 || |s.queue| < s.max ==>
                  && r.producers[p] == Outside && r.queue == s.queue + [task] && r.submitted == s.submitted + [task]
                  && (Sleepers(s.workers) == {} ==> r.workers == s.workers)
                  && (Sleepers(s.workers) != {} ==>
                        exists w :: w in Sleepers(s.workers) && r.workers == s.workers[w := Notified]))
  {
  }

  /** take: a worker gets the oldest task exactly when there is one, sleeps exactly when there is none and the
      pool is running, and goes back to read running_ otherwise.  It wakes one sleeping producer when it has made
      room in a bounded queue, and no worker. */
  lemma TakeDecides(s: State, w: Tid, wakes: Option<Tid>)
    requires Inv(s) && Enabled(s, Take(w, wakes))
    ensures var r := Apply(s, Take(w, wakes));
            && r.submitted == s.submitted && r.running == s.running && r.max == s.max
            && r.producers.Keys == s.producers.Keys && r.workers.Keys == s.workers.Keys
            && (forall v :: v in s.workers && v != w ==> r.workers[v] == s.workers[v])
            && (r.workers[w] == Working <==> s.queue != [])
            && (r.workers[w] == Asleep <==> s.queue == [] && s.running)
            && (r.workers[w] == Testing <==> s.queue == [] && !s.running)
            && (s.queue != [] ==> [s.queue[0]] + r.queue == s.queue && r.started == s.started + [s.queue[0]])
            && (s.queue == [] ==> r.queue == [] && r.started == s.started)
            && (s.queue == [] || SleepingProducers(s.producers) == {} ==> r.producers == s.producers)
            && (s.queue != [] && SleepingProducers(s.producers) != {} ==>
                  exists p :: p in SleepingProducers(s.producers) && r.producers == s.producers[p := Woken(s.producers[p].task)])
  {
    if s.queue != [] && SleepingProducers(s.producers) != {} {
      assert s.max > 0;
      assert wakes.value in SleepingProducers(s.producers);
    }
  }

  /** stop always ends the running, and wakes every sleeping worker; it touches nothing else. */
  lemma StopDecides(s: State)
    ensures var r := Apply(s, Stop);
            && !r.running && r.workers.Keys == s.workers.Keys
            && (forall w :: w in s.workers ==> r.workers[w] == if s.workers[w] == Asleep then Notified else s.workers[w])
            && r.max == s.max && r.queue == s.queue && r.producers == s.producers
            && r.submitted == s.submitted && r.started == s.started
  {
  }

  /** The pool is running until stop is called, and never again. */
  lemma {:induction false} RunningUntilStop(s: State, evs: seq<Event>)
    ensures Run(s, evs).running <==> s.running && Stop !in evs
    decreases |evs|
  {
    if evs != [] {
      assert Stop in evs <==> evs[0] == Stop || Stop in evs[1..];
      RunningUntilStop(Apply(s, evs[0]), evs[1..]);
    }
  }

  /** Workers return only after stop. */
  ghost predicate NoneLeft(s: State) {
    s.running ==> forall w {:trigger s.workers[w]} :: w in s.workers ==> !s.workers[w].Exited?
  }

  lemma {:induction false} NobodyLeaves(s: State, evs: seq<Event>)
    requires NoneLeft(s)
    ensures NoneLeft(Run(s, evs))
    decreases |evs|
  {
    if evs != [] {
      NobodyLeaves(Apply(s, evs[0]), evs[1..]);
    }
  }

  /** How a worker that is not asleep comes to take a task. */
  function WayToTake(v: Worker, w: Tid): seq<Event> {
    match v
    case Testing => [Test(w)]
    case Working => [Finish(w), Test(w)]
    case _ => []
  }

  lemma WayLeadsToTake(s: State, w: Tid)
    requires s.running && w in s.workers && !s.workers[w].Asleep? && !s.workers[w].Exited?
    ensures var r := Run(s, WayToTake(s.workers[w], w));
            && w in r.workers && (r.workers[w].Entering? || r.workers[w].Notified?)
            && r.queue == s.queue && r.max == s.max && r.started == s.started && r.producers == s.producers
  {
    if s.workers[w].Working? {
      RunAppends(s, [Finish(w)], Test(w));
      RunAppends(s, [], Finish(w));
      assert [Finish(w)] + [Test(w)] == [Finish(w), Test(w)] && [] + [Finish(w)] == [Finish(w)];
    } else if s.workers[w].Testing? {
      RunAppends(s, [], Test(w));
      assert [] + [Test(w)] == [Test(w)];
    }
  }

  /** No task is left behind: in every run without a stop, when tasks are queued and there are workers, the
      workers' own steps can start the oldest of them; nobody else has to do anything. */
  lemma QueuedTaskCanStart(max: nat, threads: set<Tid>, producers: set<Tid>, evs: seq<Event>)
    requires Stop !in evs && Run(Started(max, threads, producers), evs).queue != []
    ensures var s := Run(Started(max, threads, producers), evs);
            exists more: seq<Event> :: (forall ev :: ev in more ==> ev.Test? || ev.Take? || ev.Finish?)
                           && Run(s, more).started == s.started + [s.queue[0]]
  {
    var s := Run(Started(max, threads, producers), evs);
    StartedIsSound(max, threads, producers);
    RunKeepsInv(Started(max, threads, producers), evs);
    RunningUntilStop(Started(max, threads, producers), evs);
    NobodyLeaves(Started(max, threads, producers), evs);
    var w := AwakeWorker(s);
    WayLeadsToTake(s, w);
    var way := WayToTake(s.workers[w], w);
    var r := Run(s, way);
    var wakes := if t :| t in SleepingProducers(r.producers) then Some(t) else None;
    RunAppends(s, way, Take(w, wakes));
    assert Run(s, way + [Take(w, wakes)]).started == s.started + [s.queue[0]];
  }

  lemma AwakeWorker(s: State) returns (w: Tid)
    requires Inv(s) && NoneLeft(s) && s.running && s.queue != []
    ensures w in s.workers && !s.workers[w].Asleep? && !s.workers[w].Exited?
  {
    if Sleepers(s.workers) == {} {
      w :| w in s.workers;
      assert w !in Sleepers(s.workers);
    } else {
      assert Coming(s.workers) != {};
      w :| w in Coming(s.workers);
    }
  }

  // ---------- after stop ----------

  /** How many steps a worker can still take once running_ is false. */
  function StepsLeft(v: Worker): nat {
    match v
    case Exited => 0
    case Testing => 1
    case Working => 2
    case Entering => 3
    case Notified => 3
    case Asleep => 4
  }

  function StepsOf(evs: seq<Event>, s: State, w: Tid): nat
    decreases |evs|
  {
    if evs == [] then 0
    else
      (if Enabled(s, evs[0]) && ((evs[0].Test? || evs[0].Take? || evs[0].Finish?) && evs[0].w == w) then 1 else 0)
      + StepsOf(evs[1..], Apply(s, evs[0]), w)
  }

  function TasksBegun(evs: seq<Event>, s: State, w: Tid): nat
    decreases |evs|
  {
    if evs == [] then 0
    else
      (if Enabled(s, evs[0]) && evs[0].Take? && evs[0].w == w && s.queue != [] then 1 else 0)
      + TasksBegun(evs[1..], Apply(s, evs[0]), w)
  }

  function TasksFinished(evs: seq<Event>, s: State, w: Tid): nat
    decreases |evs|
  {
    if evs == [] then 0
    else (if Enabled(s, evs[0]) && evs[0] == Finish(w) then 1 else 0) + TasksFinished(evs[1..], Apply(s, evs[0]), w)
  }

  predicate Busy(s: State, w: Tid) {
    w in s.workers && s.workers[w].Working?
  }

  lemma BusyStep(s: State, ev: Event, w: Tid)
    requires w in s.workers && Enabled(s, ev)
    ensures var r := Apply(s, ev);
            && w in r.workers
            && (Busy(r, w) <==> if ev.Take? && ev.w == w then s.queue != [] else Busy(s, w) && ev != Finish(w))
  {
  }

  lemma {:induction false} BusyOver(s: State, evs: seq<Event>, w: Tid)
    requires w in s.workers
    ensures TasksBegun(evs, s, w) + (if Busy(s, w) then 1 else 0) == TasksFinished(evs, s, w) + if Busy(Run(s, evs), w) then 1 else 0
    decreases |evs|
  {
    if evs != [] {
      if Enabled(s, evs[0]) {
        BusyStep(s, evs[0], w);
      }
      BusyOver(Apply(s, evs[0]), evs[1..], w);
    }
  }

  /** In every run a worker is inside a task exactly when it has begun one more than it has finished. */
  lemma OneTaskEach(max: nat, threads: set<Tid>, producers: set<Tid>, evs: seq<Event>, w: Tid)
    requires w in threads
    ensures var s0 := Started(max, threads, producers);
            TasksBegun(evs, s0, w) == TasksFinished(evs, s0, w) + if Busy(Run(s0, evs), w) then 1 else 0
  {
    BusyOver(Started(max, threads, producers), evs, w);
  }

  /** Once stopped, a worker's step always brings it closer to its end, and other steps leave it alone. */
  lemma StepAfterStop(s: State, ev: Event, w: Tid)
    requires Inv(s) && !s.running && w in s.workers
    ensures var r := Apply(s, ev);
            && !r.running && w in r.workers
            && StepsLeft(r.workers[w]) + StepsOf([ev], s, w) <= StepsLeft(s.workers[w])
            && (TasksBegun([ev], s, w) == 1 ==> r.workers[w].Working?)
            && (s.workers[w].Working? || s.workers[w].Testing? || s.workers[w].Exited? ==>
                  TasksBegun([ev], s, w) == 0 && (r.workers[w].Working? || r.workers[w].Testing? || r.workers[w].Exited?))
  {
    assert forall v :: v in s.workers && s.workers[v].Asleep? ==> v in Sleepers(s.workers);
    assert StepsOf([], Apply(s, ev), w) == 0 == TasksBegun([], Apply(s, ev), w);
    assert [ev][1..] == [];
  }

  /** Once running_ is false, for every worker and every continuation: the worker never sleeps again, can
      always make its next step until it has returned, makes at most three more steps in all, and starts at
      most one more task. */
  lemma {:induction false} JoinsOnceStopped(s: State, evs: seq<Event>, w: Tid)
    requires Inv(s) && !s.running && w in s.workers
    ensures var r := Run(s, evs);
            && w in r.workers && !r.workers[w].Asleep?
            && StepsOf(evs, s, w) + StepsLeft(r.workers[w]) <= 3
            && TasksBegun(evs, s, w) <= 1
            && (s.workers[w].Working? || s.workers[w].Testing? || s.workers[w].Exited? ==> TasksBegun(evs, s, w) == 0)
            && StepsOf(evs, s, w) + StepsLeft(r.workers[w]) <= StepsLeft(s.workers[w])
    ensures CanStep(Run(s, evs), w)
    decreases |evs|
  {
    assert !s.workers[w].Asleep? by {
      assert s.workers[w].Asleep? ==> w in Sleepers(s.workers);
    }
    if evs == [] {
      AlwaysAStep(s, w);
    } else {
      var s1 := Apply(s, evs[0]);
      ApplyKeepsInv(s, evs[0]);
      StepAfterStop(s, evs[0], w);
      OneStep(evs[0], s, w);
      JoinsOnceStopped(s1, evs[1..], w);
    }
  }

  lemma OneStep(ev: Event, s: State, w: Tid)
    ensures StepsOf([ev], s, w) == if Enabled(s, ev) && (ev.Test? || ev.Take? || ev.Finish?) && ev.w == w then 1 else 0
    ensures TasksBegun([ev], s, w) == if Enabled(s, ev) && ev.Take? && ev.w == w && s.queue != [] then 1 else 0
  {
    assert [ev][1..] == [];
  }

  /** Some step of worker `w` is possible, or it has returned. */
  ghost predicate CanStep(s: State, w: Tid)
    requires w in s.workers
  {
    || s.workers[w].Exited?
    || Enabled(s, Test(w)) || Enabled(s, Finish(w)) || (exists wakes :: Enabled(s, Take(w, wakes)))
  }

  lemma AlwaysAStep(s: State, w: Tid)
    requires w in s.workers && !s.workers[w].Asleep?
    ensures CanStep(s, w)
  {
    if s.workers[w].Entering? || s.workers[w].Notified? {
      if p :| p in SleepingProducers(s.producers) {
        assert Enabled(s, Take(w, Some(p)));
      } else {
        assert Enabled(s, Take(w, None));
      }
    }
  }

  /** So it is after stop's critical section, in whatever state it is called, and every join returns if the
      tasks do. */
  lemma JoinsAfterStop(s: State, evs: seq<Event>, w: Tid)
    requires Inv(s) && w in s.workers
    ensures var r := Run(Apply(s, Stop), evs);
            && !r.running && w in r.workers && !r.workers[w].Asleep? && CanStep(r, w)
            && StepsOf(evs, Apply(s, Stop), w) <= 3 && TasksBegun(evs, Apply(s, Stop), w) <= 1
            && (StepsOf(evs, Apply(s, Stop), w) == 3 || s.workers[w].Exited? ==> r.workers[w].Exited?)
  {
    ApplyKeepsInv(s, Stop);
    RunningUntilStop(Apply(s, Stop), evs);
    JoinsOnceStopped(Apply(s, Stop), evs, w);
  }

  /** The producer is inside run. */
  predicate InsideRun(s: State, p: Tid) {
    p in s.producers && !s.producers[p].Outside?
  }

  /** Some worker is on its way into take or out of its wait. */
  predicate SomeoneTakes(s: State) {
    exists w :: w in s.workers && (s.workers[w].Entering? || s.workers[w].Notified?)
  }

  lemma {:induction false} StaysInside(s: State, evs: seq<Event>, p: Tid)
    requires !s.running && Full(s) && InsideRun(s, p) && Sleepers(s.workers) == {} && !SomeoneTakes(s)
    ensures InsideRun(Run(s, evs), p)
    decreases |evs|
  {
    if evs != [] {
      var r := Apply(s, evs[0]);
      assert forall w :: w in s.workers && s.workers[w].Asleep? ==> w in Sleepers(s.workers);
      assert forall w :: w in r.workers ==> r.workers[w].Exited? || r.workers[w].Testing? || r.workers[w].Working?;
      StaysInside(r, evs[1..], p);
    }
  }

  lemma LeavesWhenNotFull(s: State, p: Tid)
    requires InsideRun(s, p) && !Full(s) && Sleepers(s.workers) == {}
    ensures !InsideRun(Run(s, [SpuriousProducer(p), Put(p, None)]), p)
  {
    var s1 := Apply(s, SpuriousProducer(p));
    var s2 := Apply(s1, Put(p, None));
    assert [SpuriousProducer(p), Put(p, None)][1..] == [Put(p, None)] && [Put(p, None)][1..] == [];
    assert Run(s1, [Put(p, None)]) == Run(s2, []) == s2;
  }

  lemma CanLeave(s: State, p: Tid)
    requires Inv(s) && !s.running && InsideRun(s, p) && (!Full(s) || SomeoneTakes(s))
    ensures exists evs :: !InsideRun(Run(s, evs), p)
  {
    if !Full(s) {
      LeavesWhenNotFull(s, p);
    } else {
      var w :| w in s.workers && (s.workers[w].Entering? || s.workers[w].Notified?);
      var wakes := if t :| t in SleepingProducers(s.producers) then Some(t) else None;
      var r := Apply(s, Take(w, wakes));
      ApplyKeepsInv(s, Take(w, wakes));
      LeavesWhenNotFull(r, p);
      var out := [Take(w, wakes)] + [SpuriousProducer(p), Put(p, None)];
      assert out[1..] == [SpuriousProducer(p), Put(p, None)];
      assert Run(s, out) == Run(r, out[1..]);
    }
  }

  /** Once running_ is false, a producer inside run can never leave exactly when the queue is full and no
      worker is on its way into take or out of its wait. */
  lemma StrandedOnceStopped(s: State, p: Tid)
    requires Inv(s) && !s.running && InsideRun(s, p)
    ensures (forall evs :: InsideRun(Run(s, evs), p)) <==> Full(s) && !SomeoneTakes(s)
  {
    if Full(s) && !SomeoneTakes(s) {
      forall evs ensures InsideRun(Run(s, evs), p) {
        StaysInside(s, evs, p);
      }
    } else {
      CanLeave(s, p);
    }
  }

  /** stop makes no promise to producers.  Called in any state, it strands a producer inside run exactly when
      the queue is full and no worker sleeps or is on its way into take or out of its wait. */
  lemma StopStrandsProducers(s: State, p: Tid)
    requires Inv(s) && InsideRun(s, p)
    ensures (forall evs :: InsideRun(Run(Apply(s, Stop), evs), p))
       <==> s.max > 0 && |s.queue| == s.max
            && (forall w :: w in s.workers ==> s.workers[w].Testing? || s.workers[w].Working? || s.workers[w].Exited?)
  {
    var r := Apply(s, Stop);
    ApplyKeepsInv(s, Stop);
    StopDecides(s);
    StrandedOnceStopped(r, p);
    assert SomeoneTakes(r) <==> exists w :: w in s.workers && (s.workers[w].Entering? || s.workers[w].Notified? || s.workers[w].Asleep?) by {
      if w :| w in s.workers && (s.workers[w].Entering? || s.workers[w].Notified? || s.workers[w].Asleep?) {
        assert r.workers[w].Entering? || r.workers[w].Notified?;
      }
    }
  }

  /** It happens: one worker, one slot, two producers, and a stop before the worker looks at the queue. */
  lemma StrandedProducerIsReachable(a: Task, b: Task)
    ensures var s := Run(Started(1, {0}, {1, 2}), [Call(1, a), Put(1, None), Call(2, b), Put(2, None), Stop]);
            Inv(s) && !s.running && InsideRun(s, 2) && Full(s) && !SomeoneTakes(s)
  {
    var s0 := Started(1, {0}, {1, 2});
    StartedIsSound(1, {0}, {1, 2});
    RunKeepsInv(s0, [Call(1, a), Put(1, None), Call(2, b), Put(2, None), Stop]);
    RunFive(s0, Call(1, a), Put(1, None), Call(2, b), Put(2, None), Stop);
    assert 0 in s0.workers && Sleepers(s0.workers) == {};
    var s2 := Apply(Apply(s0, Call(1, a)), Put(1, None));
    assert s2.queue == [a] && s2.workers == s0.workers;
    var s4 := Apply(Apply(s2, Call(2, b)), Put(2, None));
    assert s4.producers[2] == Sleeps(b);
  }

  lemma RunFive(s: State, a: Event, b: Event, c: Event, d: Event, e: Event)
    ensures Run(s, [a, b, c, d, e]) == Apply(Apply(Apply(Apply(Apply(s, a), b), c), d), e)
  {
    RunAppends(s, [], a);
    RunAppends(s, [a], b);
    RunAppends(s, [a, b], c);
    RunAppends(s, [a, b, c], d);
    RunAppends(s, [a, b, c, d], e);
    assert [] + [a] == [a] && [a] + [b] == [a, b] && [a, b] + [c] == [a, b, c] && [a, b, c] + [d] == [a, b, c, d]
        && [a, b, c, d] + [e] == [a, b, c, d, e];
  }

  // ---------- the class ----------

  /** The monitor. The thread maps are what the scheduler knows; the methods are the critical sections,
      with the thread that notify_one picks as an argument. */
  class ThreadPool {
    const maxQueueSize: nat
    var running: bool
    var queue: seq<Task>
    ghost var workers: map<Tid, Worker>
    ghost var producers: map<Tid, Producer>
    ghost var submitted: seq<Task>
    ghost var started: seq<Task>

    ghost function Model(): State
      reads this
    {
      State(maxQueueSize, running, queue, workers, producers, submitted, started)
    }

    constructor (max: nat, threads: set<Tid>, ghost callers: set<Tid>)
      ensures Model() == Started(max, threads, callers) && Inv(Model())
    {
      maxQueueSize, running, queue := max, true, [];
      workers := map w | w in threads :: Testing;
      producers := map p | p in callers :: Outside;
      submitted, started := [], [];
      new;
      StartedIsSound(max, threads, callers);
    }

    predicate IsFull()
      reads this
      ensures IsFull() == Full(Model())
    {
      maxQueueSize > 0 && |queue| >= maxQueueSize
    }

    /** run with threads, under the lock: false says that the caller waits. */
    method Put(ghost p: Tid, task: Task, ghost wakes: Option<Tid>) returns (done: bool)
      requires Inv(Model()) && Enabled(Model(), Event.Put(p, wakes)) && producers[p].task == task
      modifies this
      ensures Inv(Model()) && Model() == Apply(old(Model()), Event.Put(p, wakes))
      ensures done <==> submitted == old(submitted) + [task]
      ensures done ==> queue == old(queue) + [task]
      ensures !done ==> queue == old(queue) && |queue| == maxQueueSize && p in SleepingProducers(producers)
    {
      ApplyKeepsInv(Model(), Event.Put(p, wakes));
      if IsFull() {
        producers := producers[p := Sleeps(task)];
        return false;
      }
      queue := queue + [task];
      submitted := submitted + [task];
      producers := producers[p := Outside];
      if wakes.Some? {
        workers := workers[wakes.value := Notified];
      }
      return true;
    }

    /** take, under the lock: the task, or None with `sleeps` or with an empty Task when stopped. */
    method Take(ghost w: Tid, ghost wakes: Option<Tid>) returns (task: Option<Task>, sleeps: bool)
      requires Inv(Model()) && Enabled(Model(), Event.Take(w, wakes))
      modifies this
      ensures Inv(Model()) && Model() == Apply(old(Model()), Event.Take(w, wakes))
      ensures old(queue) != [] ==> task == Some(old(queue)[0]) && started == old(started) + [old(queue)[0]]
      ensures old(queue) == [] ==> task == None && (sleeps <==> running)
    {
      ApplyKeepsInv(Model(), Event.Take(w, wakes));
      task, sleeps := None, false;
      if queue != [] {
        task := Some(queue[0]);
        started := started + [queue[0]];
        queue := queue[1..];
        workers := workers[w := Working];
        if maxQueueSize > 0 && wakes.Some? {
          producers := producers[wakes.value := Woken(producers[wakes.value].task)];
        }
      } else if !running {
        workers := workers[w := Testing];
      } else {
        sleeps := true;
        workers := workers[w := Asleep];
      }
    }

    /** The critical section of stop. */
    method Stop()
      requires Inv(Model())
      modifies this
      ensures Inv(Model()) && Model() == Stopped(old(Model()))
      ensures !running && queue == old(queue) && Sleepers(workers) == {}
    {
      StopKeepsInv(Model());
      running := false;
      workers := map w | w in workers :: if workers[w].Asleep? then Notified else workers[w];
    }
  }
}
