/**
 The timer queue of an event loop: net/TimerQueue.cc, net/Timer.h, net/Timer.cc, net/TimerId.h and
 the integer part of base/Timestamp.h.

 `State` is the queue with its heap of timers and the kernel's timerfd; the functions on it say what
 each entry point does, callbacks of a running batch included.  The class `TimerQueue` at the end does
 the same step by step, as the source does.
 */
module TimerQueues {
  import opened Options

  const MICROSECONDS_PER_SECOND := 1_000_000
  const MIN_DELAY := 100
  const UINTPTR_MAX := 0xFFFF_FFFF_FFFF_FFFF

  type Address = nat  // a Timer*; 0 is the null pointer

  datatype Timer = Timer(expiration: int, interval: nat, repeat: bool, sequence: int)
  datatype Entry = Entry(when: int, timer: Address)
  datatype TimerId = TimerId(timer: Address, sequence: int)
  datatype TimeSpec = TimeSpec(sec: int, nsec: int)
  datatype Start = Start(sequence: int, due: int, at: int)

  datatype State = State(
    heap: map<Address, Timer>,   // the live timers
    timers: set<Entry>,
    active: set<TimerId>,
    calling: bool,
    canceling: set<TimerId>,
    expired: seq<Entry>,         // the batch of the handleRead in progress
    next: nat,                   // how many callbacks of the batch have started
    now: int,                    // the clock reading of that handleRead
    created: nat,                // Timer::s_numCreated_
    alarm: Option<int>,          // the deadline programmed into the timerfd
    armedAt: int,                // when it was programmed
    issued: map<int, Address>,   // every sequence number ever given out, with its address
    freed: set<int>,             // the sequence numbers of deleted timers
    starts: seq<Start>           // the callbacks that have started
  )

  // ---------- timespecs ----------

  function HowMuchTimeFromNow(when: int, now: int): TimeSpec {
    var microseconds := if when - now < MIN_DELAY then MIN_DELAY else when - now;
    TimeSpec(microseconds / MICROSECONDS_PER_SECOND, microseconds % MICROSECONDS_PER_SECOND * 1000)
  }

  lemma TimeSpecIsExact(when: int, now: int)
    ensures var ts := HowMuchTimeFromNow(when, now);
            && 0 <= ts.sec && 0 <= ts.nsec < 1_000_000_000
            && ts.sec * 1_000_000_000 + ts.nsec == 1000 * (if when <= now + 100 then 100 else when - now)
  {
    var microseconds := if when - now < MIN_DELAY then MIN_DELAY else when - now;
    assert microseconds / MICROSECONDS_PER_SECOND * MICROSECONDS_PER_SECOND + microseconds % MICROSECONDS_PER_SECOND == microseconds;
  }

  /** The instant at which a timerfd programmed at `now` with a relative `ts` expires. */
  function Deadline(now: int, ts: TimeSpec): int {
    now + ts.sec * MICROSECONDS_PER_SECOND + ts.nsec / 1000
  }

  /** The alarm rings at `when`, or 100 us from now if that is later. */
  lemma DeadlineIsExact(when: int, now: int)
    ensures Deadline(now, HowMuchTimeFromNow(when, now)) == if when <= now + 100 then now + 100 else when
  {
    TimeSpecIsExact(when, now);
  }

  // ---------- std::set<Entry>: a set, with the order its iterators follow ----------

  predicate Before(e: Entry, f: Entry) {
    e.when < f.when || (e.when == f.when && e.timer < f.timer)
  }

  ghost predicate Sorted(ts: seq<Entry>) {
    forall i, j {:trigger Before(ts[i], ts[j])} :: 0 <= i < j < |ts| ==> Before(ts[i], ts[j])
  }

  ghost predicate IsFirst(ts: set<Entry>, e: Entry) {
    e in ts && forall f :: f in ts && f != e ==> Before(e, f)
  }

  lemma FirstExists(ts: set<Entry>)
    requires ts != {}
    ensures exists e :: IsFirst(ts, e)
  {
    var x :| x in ts;
    if ts == {x} {
      assert IsFirst(ts, x);
    } else {
      FirstExists(ts - {x});
      var y :| IsFirst(ts - {x}, y);
      assert forall f :: f in ts ==> f == x || f in ts - {x};
      assert IsFirst(ts, if Before(x, y) then x else y);
    }
  }

  /** begin() of a non-empty set. */
  function First(ts: set<Entry>): (e: Entry)
    requires ts != {}
    ensures IsFirst(ts, e)
  {
    FirstExists(ts);
    var e :| e in ts && forall f | f in ts :: f != e ==> Before(e, f);
    e
  }

  lemma HeadLeaves(ts: seq<Entry>)
    requires Sorted(ts) && ts != []
    ensures ts[0] !in ts[1..] && Sorted(ts[1..])
  {
    assert forall j :: 1 <= j < |ts| ==> Before(ts[0], ts[j]);
  }

  lemma NotInPrefix(ts: seq<Entry>, i: nat)
    requires Sorted(ts) && i < |ts|
    ensures ts[i] !in ts[..i]
  {
    assert forall j :: 0 <= j < i ==> Before(ts[j], ts[i]);
  }

  ghost predicate Enumerates(r: seq<Entry>, ts: set<Entry>) {
    Sorted(r) && forall e :: e in r <==> e in ts
  }

  lemma OrderExists(ts: set<Entry>)
    ensures exists r :: Enumerates(r, ts)
    decreases |ts|
  {
    if ts == {} {
      assert Enumerates([], ts);
    } else {
      var e := First(ts);
      OrderExists(ts - {e});
      var rest :| Enumerates(rest, ts - {e});
      assert forall i :: 0 <= i < |rest| ==> rest[i] in ts - {e};
      assert Enumerates([e] + rest, ts);
    }
  }

  lemma HeadIsIn(ts: seq<Entry>)
    requires ts != []
    ensures ts[0] in ts
  {
  }

  lemma SameHead(a: seq<Entry>, b: seq<Entry>)
    requires Sorted(a) && Sorted(b) && a != [] && b != [] && a[0] in b && b[0] in a
    ensures a[0] == b[0]
  {
    var i :| 0 <= i < |a| && a[i] == b[0];
    var j :| 0 <= j < |b| && b[j] == a[0];
    assert 0 < i ==> Before(a[0], a[i]);
    assert 0 < j ==> Before(b[0], b[j]);
  }

  lemma InTail(ts: seq<Entry>, e: Entry)
    requires Sorted(ts) && ts != []
    ensures e in ts[1..] <==> e in ts && e != ts[0]
  {
    HeadLeaves(ts);
    assert ts == [ts[0]] + ts[1..];
  }

  /** A sorted enumeration is determined by its elements. */
  lemma SortedIsUnique(a: seq<Entry>, b: seq<Entry>)
    requires Sorted(a) && Sorted(b) && forall e :: e in a <==> e in b
    ensures a == b
  {
    if a == [] || b == [] {
      if a != [] {
        HeadIsIn(a);
      }
      if b != [] {
        HeadIsIn(b);
      }
    } else {
      assert a[0] in a && b[0] in b;
      SameHead(a, b);
      HeadLeaves(a);
      HeadLeaves(b);
      forall e ensures e in a[1..] <==> e in b[1..] {
        InTail(a, e);
        InTail(b, e);
      }
      SortedIsUnique(a[1..], b[1..]);
      assert a == [a[0]] + a[1..] && b == [b[0]] + b[1..];
    }
  }

  /** The elements in iteration order. */
  ghost function InOrder(ts: set<Entry>): (r: seq<Entry>)
    ensures Enumerates(r, ts)
  {
    OrderExists(ts);
    var r :| Enumerates(r, ts);
    r
  }

  function Due(ts: set<Entry>, now: int): set<Entry> {
    set e | e in ts && e.when <= now
  }

  // ---------- the invariant ----------

  function EntryOf(s: State, a: Address): Entry
    requires a in s.heap
  {
    Entry(s.heap[a].expiration, a)
  }

  function IdOf(s: State, a: Address): TimerId
    requires a in s.heap
  {
    TimerId(a, s.heap[a].sequence)
  }

  /** What the indexes and the batch say about address `a`.  A live timer is either in both indexes, under
      its current expiration and its sequence number, or in the batch.  Nothing mentions a dead address. */
  ghost predicate Home(s: State, a: Address) {
    if a in s.heap then
      var e := EntryOf(s, a);
      && (forall w :: Entry(w, a) in s.timers ==> w == e.when)
      && (forall w :: Entry(w, a) in s.expired ==> w == e.when && w <= s.now)
      && (forall q :: TimerId(a, q) in s.active <==> q == s.heap[a].sequence && e in s.timers)
      && (e in s.timers <==> e !in s.expired)
    else
      && (forall w :: Entry(w, a) !in s.timers && Entry(w, a) !in s.expired)
      && (forall q :: TimerId(a, q) !in s.active)
  }

  ghost predicate Core(s: State) {
    && s.next <= |s.expired|
    && forall a {:trigger Home(s, a)} :: Home(s, a)
  }

  lemma EntryIsLive(s: State, e: Entry)
    requires Core(s) && (e in s.timers || e in s.expired)
    ensures e.timer in s.heap && e == EntryOf(s, e.timer)
  {
    assert Home(s, e.timer);
    assert e == Entry(e.when, e.timer);
  }

  /** A sequence number is freed or belongs to a live timer, at the address it was issued with. */
  ghost predicate Owned(s: State) {
    && (forall q :: q in s.issued <==> 1 <= q <= s.created)
    && s.freed <= s.issued.Keys
    && (forall q {:trigger q in s.issued} :: q in s.issued ==>
          (q in s.freed <==> !(s.issued[q] in s.heap && s.heap[s.issued[q]].sequence == q)))
    && (forall a {:trigger a in s.heap} :: a in s.heap ==>
          && 0 < a < UINTPTR_MAX
          && s.heap[a].sequence in s.issued && s.issued[s.heap[a].sequence] == a)
  }

  /** The alarm rings no later than the earliest timer, or MIN_DELAY after it was last set. */
  ghost predicate Covered(s: State) {
    forall e {:trigger e in s.timers} :: e in s.timers ==>
      s.alarm.Some? && (s.alarm.value <= e.when || s.alarm.value <= s.armedAt + MIN_DELAY)
  }

  ghost predicate AllAfter(s: State, t: int) {
    forall e {:trigger e in s.timers} :: e in s.timers ==> t < e.when
  }

  ghost predicate Inv(s: State) {
    && Core(s) && Owned(s) && Sorted(s.expired)
    && (s.calling ==> 0 < s.now && (AllAfter(s, s.now) || Covered(s)))
    && (!s.calling ==> s.expired == [] && Covered(s))
    && (forall st :: st in s.starts ==> st.due <= st.at && st.sequence <= s.created)
  }

  // ---------- the steps ----------

  predicate CanAllocate(s: State, a: Address) {
    0 < a < UINTPTR_MAX && a !in s.heap
  }

  /** resetTimerfd: the clock read there shows `t`. */
  function Armed(s: State, when: int, t: int): State {
    s.(alarm := Some(Deadline(t, HowMuchTimeFromNow(when, t))), armedAt := t)
  }

  predicate EarliestChanged(s: State, when: int) {
    forall e {:trigger e in s.timers} :: e in s.timers ==> when < e.when
  }

  function Inserted(s: State, a: Address): State
    requires a in s.heap
  {
    s.(timers := s.timers + {EntryOf(s, a)}, active := s.active + {IdOf(s, a)})
  }

  function Allocated(s: State, a: Address, when: int, interval: nat, repeat: bool): State {
    s.(heap := s.heap[a := Timer(when, interval, repeat, s.created + 1)],
       issued := s.issued[s.created + 1 := a],
       created := s.created + 1)
  }

  /** addTimer in the loop thread: `new` answered `a`, the clock read when arming shows `t`. */
  function TimerAdded(s: State, a: Address, when: int, interval: nat, repeat: bool, t: int): State {
    var r := Inserted(Allocated(s, a, when, interval, repeat), a);
    if EarliestChanged(s, when) then Armed(r, when, t) else r
  }

  function Deleted(s: State, a: Address): State
    requires a in s.heap
  {
    s.(heap := s.heap - {a}, freed := s.freed + {s.heap[a].sequence})
  }

  function Cancelled(s: State, id: TimerId): State
    requires Inv(s)
  {
    if id in s.active then
      assert Home(s, id.timer) && id == TimerId(id.timer, id.sequence);
      Deleted(s, id.timer).(
        timers := s.timers - {EntryOf(s, id.timer)},
        active := s.active - {id})
    else if s.calling then s.(canceling := s.canceling + {id})
    else s
  }

  function IdsOf(heap: map<Address, Timer>, batch: seq<Entry>): set<TimerId> {
    set e | e in batch && e.timer in heap :: TimerId(e.timer, heap[e.timer].sequence)
  }

  /** handleRead up to the first callback; `rang` says whether reading the timerfd found it expired. */
  ghost function Begun(s: State, now: int, rang: bool): State {
    var due := Due(s.timers, now);
    s.(expired := InOrder(due), timers := s.timers - due,
       active := s.active - IdsOf(s.heap, InOrder(due)),
       calling := true, canceling := {}, next := 0, now := now,
       alarm := if rang then None else s.alarm)
  }

  function Started(s: State): State
    requires Inv(s) && s.next < |s.expired|
  {
    var e := s.expired[s.next];
    EntryIsLive(s, e);
    s.(next := s.next + 1,
       starts := s.starts + [Start(s.heap[e.timer].sequence, e.when, s.now)])
  }

  predicate Restarts(s: State, a: Address)
    requires a in s.heap
  {
    s.heap[a].repeat && IdOf(s, a) !in s.canceling
  }

  /** One turn of the loop in `reset`. */
  function ResetStep(s: State): State
    requires s.expired != [] && s.expired[0].timer in s.heap
  {
    var a := s.expired[0].timer;
    var r := s.(expired := s.expired[1..]);
    if Restarts(s, a) then
      Inserted(r.(heap := s.heap[a := s.heap[a].(expiration := s.now + s.heap[a].interval)]), a)
    else Deleted(r, a)
  }

  function ResetDone(s: State): (r: State)
    requires Core(s) && Owned(s) && Sorted(s.expired) && s.next == 0
    ensures Core(r) && Owned(r) && r.expired == []
    decreases |s.expired|
  {
    if s.expired == [] then s
    else
      HeadLeaves(s.expired);
      EntryIsLive(s, s.expired[0]);
      ResetOneKeepsCore(s);
      ResetOneKeepsOwned(s);
      ResetDone(ResetStep(s))
  }

  function CloseBatch(s: State): State {
    s.(calling := false, next := 0)
  }

  /** handleRead after the last callback. */
  function Finished(s: State, t: int): State
    requires Inv(s)
  {
    CloseBatchKeepsCore(s);
    var r := ResetDone(CloseBatch(s));
    if r.timers != {} && 0 < First(r.timers).when then Armed(r, First(r.timers).when, t) else r
  }

  // ---------- each step keeps the invariant ----------

  lemma ArmCovers(s: State, when: int, t: int)
    requires forall e :: e in s.timers ==> when <= e.when
    ensures Covered(Armed(s, when, t))
  {
    TimeSpecIsExact(when, t);
  }

  lemma NewTimerKeepsOwned(s: State, a: Address, when: int, interval: nat, repeat: bool)
    requires Owned(s) && CanAllocate(s, a)
    ensures Owned(Allocated(s, a, when, interval, repeat))
  {
    assert s.created + 1 !in s.issued;
  }

  lemma DeleteKeepsOwned(s: State, a: Address)
    requires Owned(s) && a in s.heap
    ensures Owned(Deleted(s, a))
  {
  }

  lemma AddTimerKeepsCore(s: State, a: Address, when: int, interval: nat, repeat: bool)
    requires Core(s) && CanAllocate(s, a)
    ensures Core(Inserted(Allocated(s, a, when, interval, repeat), a))
  {
    var r := Inserted(Allocated(s, a, when, interval, repeat), a);
    forall b ensures Home(r, b) {
      assert Home(s, b);
    }
  }

  lemma AddTimerKeepsInv(s: State, a: Address, when: int, interval: nat, repeat: bool, t: int)
    requires Inv(s) && CanAllocate(s, a)
    ensures Inv(TimerAdded(s, a, when, interval, repeat, t))
  {
    var r := Inserted(Allocated(s, a, when, interval, repeat), a);
    AddTimerKeepsCore(s, a, when, interval, repeat);
    NewTimerKeepsOwned(s, a, when, interval, repeat);
    if EarliestChanged(s, when) {
      ArmCovers(r, when, t);
      ArmKeepsCore(r, when, t);
    }
  }

  lemma ArmKeepsCore(s: State, when: int, t: int)
    requires Core(s)
    ensures Core(Armed(s, when, t))
  {
    forall b ensures Home(Armed(s, when, t), b) {
      assert Home(s, b);
    }
  }

  lemma CancelKeepsInv(s: State, id: TimerId)
    requires Inv(s)
    ensures Inv(Cancelled(s, id))
  {
    var r := Cancelled(s, id);
    assert Home(s, id.timer) && id == TimerId(id.timer, id.sequence);
    forall b ensures Home(r, b) {
      assert Home(s, b);
    }
    if id in s.active {
      DeleteKeepsOwned(s, id.timer);
    }
  }

  lemma BeginKeepsInv(s: State, now: int, rang: bool)
    requires Inv(s) && !s.calling && 0 < now
    ensures Inv(Begun(s, now, rang))
  {
    var r := Begun(s, now, rang);
    forall b ensures Home(r, b) {
      assert Home(s, b);
    }
  }

  lemma ResetOneKeepsCore(s: State)
    requires Core(s) && s.expired != [] && s.next == 0 && s.expired[0] !in s.expired[1..]
    requires s.expired[0].timer in s.heap
    ensures Core(ResetStep(s))
  {
    var e := s.expired[0];
    var r := ResetStep(s);
    EntryIsLive(s, e);
    assert s.expired == [e] + r.expired;
    assert Home(s, e.timer);
    forall b ensures Home(r, b) {
      assert Home(s, b);
    }
  }

  lemma ResetOneKeepsOwned(s: State)
    requires Owned(s) && s.expired != [] && s.expired[0].timer in s.heap
    ensures Owned(ResetStep(s))
  {
  }

  lemma CloseBatchKeepsCore(s: State)
    requires Core(s)
    ensures Core(CloseBatch(s))
  {
    forall b ensures Home(CloseBatch(s), b) {
      assert Home(s, b);
    }
  }

  /** Re-inserting without arming is safe: such a timer is due after the epoch, where `reset` looks. */
  lemma ResetAllKeepsAlarm(s: State)
    requires Core(s) && Owned(s) && Sorted(s.expired) && s.next == 0 && 0 < s.now
    requires AllAfter(s, 0) || Covered(s)
    ensures var r := ResetDone(s); (AllAfter(r, 0) || Covered(r)) && r.starts == s.starts && r.calling == s.calling
    decreases |s.expired|
  {
    if s.expired != [] {
      HeadLeaves(s.expired);
      EntryIsLive(s, s.expired[0]);
      ResetOneKeepsCore(s);
      ResetOneKeepsOwned(s);
      ResetAllKeepsAlarm(ResetStep(s));
    }
  }

  lemma FinishKeepsInv(s: State, t: int)
    requires Inv(s) && s.calling
    ensures Inv(Finished(s, t))
  {
    CloseBatchKeepsCore(s);
    ResetAllKeepsAlarm(CloseBatch(s));
    ResetAllFrame(CloseBatch(s));
    var r := ResetDone(CloseBatch(s));
    if r.timers != {} && 0 < First(r.timers).when {
      ArmCovers(r, First(r.timers).when, t);
      ArmKeepsCore(r, First(r.timers).when, t);
    }
  }

  // ---------- runs ----------

  datatype Event =
    | Add(timer: Address, when: int, interval: nat, repeat: bool, at: int)
    | Cancels(id: TimerId)
    | Rings(now: int, rang: bool)  // handleRead is entered
    | Calls                        // the next callback of the batch starts
    | Ends(at: int)                // the last callback has returned

  /** What can happen.  Callbacks may add and cancel, so Add and Cancels are possible at any time; the
      allocator never answers the address of a live object. */
  ghost predicate Enabled(s: State, ev: Event) {
    match ev
    case Add(a, _, _, _, _) => CanAllocate(s, a)
    case Cancels(_) => true
    case Rings(now, _) => !s.calling && 0 < now
    case Calls => s.calling && s.next < |s.expired|
    case Ends(_) => s.calling && s.next == |s.expired|
  }

  ghost function Apply(s: State, ev: Event): (r: State)
    requires Inv(s)
    ensures Inv(r)
  {
    if !Enabled(s, ev) then s
    else match ev
      case Add(a, when, interval, repeat, at) =>
        AddTimerKeepsInv(s, a, when, interval, repeat, at);
        TimerAdded(s, a, when, interval, repeat, at)
      case Cancels(id) => CancelKeepsInv(s, id); Cancelled(s, id)
      case Rings(now, rang) => BeginKeepsInv(s, now, rang); Begun(s, now, rang)
      case Calls => StartNextKeepsInv(s); Started(s)
      case Ends(at) => FinishKeepsInv(s, at); Finished(s, at)
  }

  lemma StartNextKeepsInv(s: State)
    requires Inv(s) && s.calling && s.next < |s.expired|
    ensures Inv(Started(s))
  {
    forall b ensures Home(Started(s), b) {
      assert Home(s, b);
    }
    EntryIsLive(s, s.expired[s.next]);
    assert Home(s, s.expired[s.next].timer);
    assert s.expired[s.next] == Entry(s.expired[s.next].when, s.expired[s.next].timer);
  }

  ghost function Run(s: State, evs: seq<Event>): (r: State)
    requires Inv(s)
    ensures Inv(r)
    decreases |evs|
  {
    if evs == [] then s else Run(Apply(s, evs[0]), evs[1..])
  }

  function Empty(): State {
    State(map[], {}, {}, false, {}, [], 0, 0, 0, None, 0, map[], {}, [])
  }

  lemma EmptyIsSound()
    ensures Inv(Empty())
  {
    forall a ensures Home(Empty(), a) {}
  }

  /** The state a new queue reaches through `evs`. */
  ghost function Reached(evs: seq<Event>): (r: State)
    ensures Inv(r)
  {
    EmptyIsSound();
    Run(Empty(), evs)
  }

  // ---------- what holds over every run ----------

  ghost predicate Live(s: State, id: TimerId) {
    id.timer in s.heap && s.heap[id.timer].sequence == id.sequence
  }

  ghost predicate InIndexes(s: State, id: TimerId) {
    Live(s, id) && id in s.active && EntryOf(s, id.timer) in s.timers
  }

  ghost predicate InBatch(s: State, id: TimerId) {
    Live(s, id) && EntryOf(s, id.timer) in s.expired
  }

  /** Every timer ever created is in both indexes, or in the batch, or freed, and in only one of these;
      the batch is non-empty only while callbacks run. */
  lemma OneHomeOverRuns(evs: seq<Event>, q: int)
    requires 1 <= q <= Reached(evs).created
    ensures var s := Reached(evs);
            q in s.issued &&
            var id := TimerId(s.issued[q], q);
            && (InIndexes(s, id) || InBatch(s, id) || q in s.freed)
            && !(InIndexes(s, id) && InBatch(s, id))
            && !(InIndexes(s, id) && q in s.freed)
            && !(InBatch(s, id) && q in s.freed)
            && (id in s.active <==> InIndexes(s, id))
            && (InBatch(s, id) ==> s.calling)
  {
    var s := Reached(evs);
    assert Home(s, s.issued[q]);
  }

  /** Both indexes have the same size, which is what the source's size assertions compare. */
  lemma SizesAgree(s: State)
    requires Core(s)
    ensures |s.timers| == |s.active|
  {
    forall e | e in s.timers ensures e.timer in s.heap && e == EntryOf(s, e.timer) && IdOf(s, e.timer) in s.active {
      EntryIsLive(s, e);
      assert Home(s, e.timer);
    }
    forall id | id in s.active ensures id.timer in s.heap && id == IdOf(s, id.timer) && EntryOf(s, id.timer) in s.timers {
      assert Home(s, id.timer) && id == TimerId(id.timer, id.sequence);
    }
    Pairing(s, s.timers, s.active);
  }

  lemma Pairing(s: State, ts: set<Entry>, ids: set<TimerId>)
    requires forall e :: e in ts ==> e.timer in s.heap && e == EntryOf(s, e.timer) && IdOf(s, e.timer) in ids
    requires forall id :: id in ids ==> id.timer in s.heap && id == IdOf(s, id.timer) && EntryOf(s, id.timer) in ts
    ensures |ts| == |ids|
  {
    if ts != {} {
      var e :| e in ts;
      Pairing(s, ts - {e}, ids - {IdOf(s, e.timer)});
    } else {
      assert ids == {};
    }
  }

  /** The alarm never forgets a timer. */
  lemma AlarmOverRuns(evs: seq<Event>)
    ensures var s := Reached(evs);
            !s.calling && s.timers != {} ==>
              && s.alarm.Some?
              && (s.alarm.value <= First(s.timers).when || s.alarm.value <= s.armedAt + MIN_DELAY)
  {
  }

  /** No callback starts before its expiration. */
  lemma NeverEarlyOverRuns(evs: seq<Event>, i: nat)
    requires i < |Reached(evs).starts|
    ensures Reached(evs).starts[i].due <= Reached(evs).starts[i].at
  {
    assert Reached(evs).starts[i] in Reached(evs).starts;
  }

  /** getExpired moves out exactly the timers due by `now`, in order of expiration and address. */
  lemma BatchIsExactlyTheDue(s: State, now: int, rang: bool)
    requires Inv(s) && !s.calling && 0 < now
    ensures var r := Begun(s, now, rang);
            && Sorted(r.expired)
            && (forall e :: e in r.expired <==> e in s.timers && e.when <= now)
            && (forall e :: e in r.timers <==> e in s.timers && now < e.when)
            && (forall a :: a in s.heap ==> (IdOf(s, a) in r.active <==> IdOf(s, a) in s.active && now < s.heap[a].expiration))
            && r.calling && r.canceling == {} && r.now == now && r.alarm == (if rang then None else s.alarm)
            && r.heap == s.heap && r.freed == s.freed && r.starts == s.starts && r.created == s.created
  {
    BeginKeepsInv(s, now, rang);
    var r := Begun(s, now, rang);
    assert forall e :: e in r.expired <==> e in Due(s.timers, now);
    forall a | a in s.heap ensures IdOf(s, a) in r.active <==> IdOf(s, a) in s.active && now < s.heap[a].expiration {
      assert Home(s, a);
      assert Home(r, a);
    }
  }

  lemma ResetAllFrame(s: State)
    requires Core(s) && Owned(s) && Sorted(s.expired) && s.next == 0
    ensures var r := ResetDone(s);
            && r == s.(heap := r.heap, timers := r.timers, active := r.active, freed := r.freed, expired := [])
            && s.freed <= r.freed
    decreases |s.expired|
  {
    if s.expired != [] {
      HeadLeaves(s.expired);
      EntryIsLive(s, s.expired[0]);
      ResetOneKeepsCore(s);
      ResetOneKeepsOwned(s);
      ResetAllFrame(ResetStep(s));
    }
  }

  lemma ResetOneAt(s: State, a: Address)
    requires Core(s) && s.expired != [] && s.next == 0 && s.expired[0] !in s.expired[1..]
    requires s.expired[0].timer in s.heap
    ensures var m := ResetStep(s);
            if a != s.expired[0].timer then
              && (a in m.heap <==> a in s.heap)
              && (a in s.heap ==>
                    && m.heap[a] == s.heap[a]
                    && (EntryOf(s, a) in m.timers <==> EntryOf(s, a) in s.timers)
                    && (EntryOf(s, a) in m.expired <==> EntryOf(s, a) in s.expired))
            else EntryOf(s, a) in s.expired &&
                 if Restarts(s, a) then
                   && m.heap == s.heap[a := s.heap[a].(expiration := s.now + s.heap[a].interval)]
                   && EntryOf(m, a) in m.timers && IdOf(s, a) in m.active
                 else a !in m.heap && s.heap[a].sequence in m.freed
  {
    EntryIsLive(s, s.expired[0]);
    assert s.expired == [s.expired[0]] + ResetStep(s).expired;
  }

  /** What `reset` must do to address `a`, from `s` to `r`: nothing, outside the batch; a timer of the
      batch is indexed again, at now + interval, if it repeats and was not cancelled, and is freed if not. */
  ghost predicate ResetOutcome(s: State, r: State, a: Address) {
    if a !in s.heap then a !in r.heap
    else if EntryOf(s, a) !in s.expired then
      a in r.heap && r.heap[a] == s.heap[a] && (EntryOf(s, a) in r.timers <==> EntryOf(s, a) in s.timers)
    else if Restarts(s, a) then
      && a in r.heap && r.heap[a] == s.heap[a].(expiration := s.now + s.heap[a].interval)
      && EntryOf(r, a) in r.timers && IdOf(s, a) in r.active
    else a !in r.heap && s.heap[a].sequence in r.freed
  }

  lemma ResetOutcomeStep(s: State, r: State, a: Address)
    requires Core(s) && s.expired != [] && s.next == 0 && s.expired[0] !in s.expired[1..]
    requires s.expired[0].timer in s.heap
    requires ResetOutcome(ResetStep(s), r, a) && Home(ResetStep(s), a) && Home(r, a)
    requires ResetStep(s).freed <= r.freed
    ensures ResetOutcome(s, r, a)
  {
    ResetOneAt(s, a);
    if a in r.heap {
      assert IdOf(r, a) == TimerId(a, r.heap[a].sequence);
    }
  }

  lemma ResetAllOutcome(s: State, a: Address)
    requires Core(s) && Owned(s) && Sorted(s.expired) && s.next == 0
    ensures ResetOutcome(s, ResetDone(s), a)
    decreases |s.expired|
  {
    if s.expired != [] {
      HeadLeaves(s.expired);
      EntryIsLive(s, s.expired[0]);
      ResetOneKeepsCore(s);
      ResetOneKeepsOwned(s);
      ResetAllOutcome(ResetStep(s), a);
      ResetAllFrame(ResetStep(s));
      assert Home(ResetStep(s), a);
      assert Home(ResetDone(s), a);
      ResetOutcomeStep(s, ResetDone(s), a);
    }
  }

  /** After the last callback returns, each address has met its `reset` outcome and the batch is gone. */
  lemma FinishOutcome(s: State, t: int, a: Address)
    requires Inv(s) && s.calling
    ensures var r := Finished(s, t);
            && ResetOutcome(s, r, a)
            && r.expired == [] && r.starts == s.starts && r.issued == s.issued && !r.calling
            && s.freed <= r.freed
  {
    CloseBatchKeepsCore(s);
    ResetAllOutcome(CloseBatch(s), a);
    ResetAllFrame(CloseBatch(s));
  }

  // ---------- a cancelled timer ----------

  function StartsOf(starts: seq<Start>, q: int): nat {
    if starts == [] then 0
    else StartsOf(starts[..|starts| - 1], q) + if starts[|starts| - 1].sequence == q then 1 else 0
  }

  /** 1 when the timer is in the batch and its turn has not come. */
  ghost function TurnsLeft(s: State, id: TimerId): nat
    requires s.next <= |s.expired|
  {
    if Live(s, id) && EntryOf(s, id.timer) in s.expired[s.next..] then 1 else 0
  }

  /** `id` was issued, and its timer is dead or about to be deleted at the end of the batch. */
  ghost predicate Retired(s: State, id: TimerId) {
    && id.sequence in s.issued && s.issued[id.sequence] == id.timer
    && id !in s.active
    && (Live(s, id) ==> s.calling && id in s.canceling)
  }

  lemma CancelRetires(s: State, id: TimerId)
    requires Inv(s) && id.sequence in s.issued && s.issued[id.sequence] == id.timer
    ensures Retired(Cancelled(s, id), id)
    ensures Cancelled(s, id).starts == s.starts
  {
    CancelKeepsInv(s, id);
    assert Home(s, id.timer) && id == TimerId(id.timer, id.sequence);
  }

  /** cancelInLoop deletes an indexed timer at once, and takes it out of both indexes; any other id is noted while
      callbacks run, and ignored otherwise.  No other timer is touched, and the alarm stays as it is. */
  lemma CancelDecides(s: State, id: TimerId)
    requires Inv(s)
    ensures var r := Apply(s, Cancels(id));
            if InIndexes(s, id) then
              r == s.(heap := s.heap - {id.timer}, timers := s.timers - {Entry(s.heap[id.timer].expiration, id.timer)},
                      active := s.active - {id}, freed := s.freed + {id.sequence})
            else r == s.(canceling := if s.calling then s.canceling + {id} else s.canceling)
  {
    assert Home(s, id.timer) && id == TimerId(id.timer, id.sequence);
  }

  lemma RetiredAfterEnds(s: State, id: TimerId, t: int)
    requires Inv(s) && s.calling && s.next == |s.expired| && Retired(s, id)
    ensures var r := Finished(s, t);
            Inv(r) && Retired(r, id) && TurnsLeft(r, id) == 0 && r.starts == s.starts
  {
    FinishKeepsInv(s, t);
    FinishOutcome(s, t, id.timer);
    var r := Finished(s, t);
    assert Home(s, id.timer) && Home(r, id.timer) && id == TimerId(id.timer, id.sequence);
  }

  lemma RetiredAfterCalls(s: State, id: TimerId)
    requires Inv(s) && s.calling && s.next < |s.expired| && Retired(s, id)
    ensures var r := Started(s);
            && Retired(r, id) && r.next <= |r.expired|
            && StartsOf(r.starts, id.sequence) + TurnsLeft(r, id) <= StartsOf(s.starts, id.sequence) + TurnsLeft(s, id)
  {
    var r := Started(s);
    var e := s.expired[s.next];
    EntryIsLive(s, e);
    assert r.starts[..|r.starts| - 1] == s.starts;
    assert s.expired[s.next..] == [e] + s.expired[s.next + 1..];
    assert forall j :: s.next < j < |s.expired| ==> Before(s.expired[s.next], s.expired[j]);
    assert e !in s.expired[s.next + 1..];
  }

  lemma RetiredAfterCancels(s: State, id: TimerId, other: TimerId)
    requires Inv(s) && Retired(s, id)
    ensures var r := Cancelled(s, other);
            Retired(r, id) && r.next <= |r.expired| && TurnsLeft(r, id) <= TurnsLeft(s, id) && r.starts == s.starts
  {
    assert Home(s, id.timer) && id == TimerId(id.timer, id.sequence);
    assert Home(s, other.timer) && other == TimerId(other.timer, other.sequence);
  }

  /** No event brings a retired timer back, and each start of its callback uses up its turn. */
  lemma RetiredStays(s: State, id: TimerId, ev: Event)
    requires Inv(s) && Retired(s, id)
    ensures var r := Apply(s, ev);
            && Retired(r, id)
            && StartsOf(r.starts, id.sequence) + TurnsLeft(r, id) <= StartsOf(s.starts, id.sequence) + TurnsLeft(s, id)
  {
    assert Home(s, id.timer) && id == TimerId(id.timer, id.sequence);
    if Enabled(s, ev) {
      match ev
      case Add(a, _, _, _, _) =>
      case Cancels(other) => RetiredAfterCancels(s, id, other);
      case Rings(_, _) =>
      case Calls => RetiredAfterCalls(s, id);
      case Ends(t) => RetiredAfterEnds(s, id, t);
    }
  }

  lemma {:induction false} RetiredOverRuns(s: State, id: TimerId, evs: seq<Event>)
    requires Inv(s) && Retired(s, id)
    ensures var r := Run(s, evs);
            && Retired(r, id)
            && StartsOf(r.starts, id.sequence) + TurnsLeft(r, id) <= StartsOf(s.starts, id.sequence) + TurnsLeft(s, id)
    decreases |evs|
  {
    if evs != [] {
      RetiredStays(s, id, evs[0]);
      RetiredOverRuns(Apply(s, evs[0]), id, evs[1..]);
    }
  }

  /** After cancel(id) the timer is never indexed again, and its callback starts at most once more: only
      if the timer is in the batch being run and has not been reached. */
  lemma CancelledTimer(s: State, id: TimerId, evs: seq<Event>)
    requires Inv(s) && id.sequence in s.issued && s.issued[id.sequence] == id.timer
    ensures Inv(Cancelled(s, id))
    ensures var r := Run(Cancelled(s, id), evs);
            && !InIndexes(r, id)
            && StartsOf(r.starts, id.sequence) <= StartsOf(s.starts, id.sequence) + TurnsLeft(s, id)
  {
    CancelKeepsInv(s, id);
    CancelRetires(s, id);
    RetiredOverRuns(Cancelled(s, id), id, evs);
  }

  // ---------- a batch ----------

  function CallsTimes(n: nat): seq<Event> {
    if n == 0 then [] else [Calls] + CallsTimes(n - 1)
  }

  function StartsFor(heap: map<Address, Timer>, batch: seq<Entry>, now: int): seq<Start>
    requires forall e :: e in batch ==> e.timer in heap
  {
    if batch == [] then [] else [Start(heap[batch[0].timer].sequence, batch[0].when, now)] + StartsFor(heap, batch[1..], now)
  }

  lemma BatchIsLive(s: State)
    requires Inv(s)
    ensures forall e :: e in s.expired[s.next..] ==> e.timer in s.heap
  {
    forall e | e in s.expired[s.next..] ensures e.timer in s.heap {
      assert e in s.expired;
      EntryIsLive(s, e);
    }
  }

  /** When the callbacks make no calls of their own, the rest of a batch starts once each, in order, and then
      handleRead can end. */
  lemma {:induction false} BatchRunsThrough(s: State)
    requires Inv(s) && s.calling
    ensures forall e :: e in s.expired[s.next..] ==> e.timer in s.heap
    ensures Run(s, CallsTimes(|s.expired| - s.next)) ==
            s.(next := |s.expired|, starts := s.starts + StartsFor(s.heap, s.expired[s.next..], s.now))
    decreases |s.expired| - s.next
  {
    BatchIsLive(s);
    if s.next == |s.expired| {
      assert s.starts + [] == s.starts;
    } else {
      var r, rest := Apply(s, Calls), s.expired[s.next..];
      BatchRunsThrough(r);
      assert rest[1..] == s.expired[s.next + 1..];
      assert CallsTimes(|rest|)[1..] == CallsTimes(|rest| - 1);
      assert s.starts + [StartsFor(s.heap, rest, s.now)[0]] + StartsFor(s.heap, rest[1..], s.now) == s.starts + StartsFor(s.heap, rest, s.now);
    }
  }

  // ---------- the life of a timer ----------

  /** A timer waits for `due`; or its expiration is past and it is in the batch of the handleRead that began at
      `now`; or it is deleted. */
  datatype Place = Waiting(due: int) | Batched(due: int, now: int) | Gone

  /** `rounds` counts the batches it has been in. */
  datatype Life = Life(place: Place, rounds: nat)

  /** What an event does to a timer that is not cancelled. */
  ghost function Lived(life: Life, interval: nat, repeat: bool, s: State, ev: Event): Life {
    match ev
    case Rings(now, _) =>
      if Enabled(s, ev) && life.place.Waiting? && life.place.due <= now
      then Life(Batched(life.place.due, now), life.rounds + 1) else life
    case Ends(_) =>
      if Enabled(s, ev) && life.place.Batched?
      then life.(place := if repeat then Waiting(life.place.now + interval) else Gone) else life
    case _ => life
  }

  ghost function LivedThrough(life: Life, interval: nat, repeat: bool, s: State, evs: seq<Event>): Life
    requires Inv(s)
    decreases |evs|
  {
    if evs == [] then life
    else LivedThrough(Lived(life, interval, repeat, s, evs[0]), interval, repeat, Apply(s, evs[0]), evs[1..])
  }

  /** The queue has the timer where its life says: in both indexes, in the batch, or freed. */
  ghost predicate Placed(s: State, id: TimerId, interval: nat, repeat: bool, place: Place) {
    && id.sequence in s.issued && s.issued[id.sequence] == id.timer
    && match place
       case Waiting(due) =>
         && id.timer in s.heap && s.heap[id.timer] == Timer(due, interval, repeat, id.sequence)
         && Entry(due, id.timer) in s.timers && id in s.active
       case Batched(due, now) =>
         && id.timer in s.heap && s.heap[id.timer] == Timer(due, interval, repeat, id.sequence)
         && s.calling && s.now == now && Entry(due, id.timer) in s.expired && id !in s.canceling
       case Gone => id.sequence in s.freed
  }

  /** Its callback has started once for each of its batches, but for the one in which its turn is still to
      come. */
  ghost predicate Is(s: State, id: TimerId, interval: nat, repeat: bool, life: Life)
    requires s.next <= |s.expired|
  {
    Placed(s, id, interval, repeat, life.place) && StartsOf(s.starts, id.sequence) + TurnsLeft(s, id) == life.rounds
  }

  lemma NotStartedYet(starts: seq<Start>, q: int)
    requires forall st :: st in starts ==> st.sequence < q
    ensures StartsOf(starts, q) == 0
  {
    if starts != [] {
      assert starts[|starts| - 1] in starts;
      NotStartedYet(starts[..|starts| - 1], q);
    }
  }

  /** Add moves the alarm exactly when no other timer is due as early. */
  lemma AddArms(s: State, a: Address, when: int, interval: nat, repeat: bool, t: int)
    requires Inv(s) && CanAllocate(s, a)
    ensures var r := Apply(s, Add(a, when, interval, repeat, t));
            && ((exists e :: e in s.timers && e.when <= when) ==> r.alarm == s.alarm && r.armedAt == s.armedAt)
            && ((forall e :: e in s.timers ==> when < e.when) ==>
                  r.alarm == Some(if when <= t + 100 then t + 100 else when) && r.armedAt == t)
  {
    DeadlineIsExact(when, t);
  }

  /** Add makes exactly one timer, with what it was given, and the next number; everything else stays. */
  lemma AddDecides(s: State, a: Address, when: int, interval: nat, repeat: bool, t: int)
    requires Inv(s) && CanAllocate(s, a)
    ensures var r, id := Apply(s, Add(a, when, interval, repeat, t)), TimerId(a, s.created + 1);
            && r.heap.Keys == s.heap.Keys + {a} && r.heap[a] == Timer(when, interval, repeat, id.sequence)
            && (forall b :: b in s.heap ==> r.heap[b] == s.heap[b])
            && r.timers == s.timers + {Entry(when, a)} && r.active == s.active + {id} && r.created == id.sequence
            && r.issued.Keys == s.issued.Keys + {id.sequence} && (forall q :: q in s.issued ==> r.issued[q] == s.issued[q])
            && r == s.(heap := r.heap, timers := r.timers, active := r.active, created := r.created, issued := r.issued,
                       alarm := r.alarm, armedAt := r.armedAt)
  {
  }

  lemma AddedIsWaiting(s: State, a: Address, when: int, interval: nat, repeat: bool, t: int)
    requires Inv(s) && CanAllocate(s, a)
    ensures Is(Apply(s, Add(a, when, interval, repeat, t)), TimerId(a, s.created + 1), interval, repeat, Life(Waiting(when), 0))
  {
    AddDecides(s, a, when, interval, repeat, t);
    var r := Apply(s, Add(a, when, interval, repeat, t));
    assert Home(r, a);
    NotStartedYet(s.starts, s.created + 1);
  }

  lemma LifeAfterAdd(s: State, id: TimerId, interval: nat, repeat: bool, life: Life, ev: Event)
    requires Inv(s) && Is(s, id, interval, repeat, life) && ev.Add?
    ensures Is(Apply(s, ev), id, interval, repeat, life)
  {
  }

  lemma LifeAfterCancels(s: State, id: TimerId, interval: nat, repeat: bool, life: Life, other: TimerId)
    requires Inv(s) && Is(s, id, interval, repeat, life) && other != id
    ensures Is(Apply(s, Cancels(other)), id, interval, repeat, life)
  {
    assert Home(s, id.timer) && Home(s, other.timer) && other == TimerId(other.timer, other.sequence);
  }

  lemma LifeAfterRings(s: State, id: TimerId, interval: nat, repeat: bool, life: Life, now: int, rang: bool)
    requires Inv(s) && Is(s, id, interval, repeat, life) && !s.calling && 0 < now
    ensures var r := Begun(s, now, rang);
            r.next <= |r.expired| && Is(r, id, interval, repeat, Lived(life, interval, repeat, s, Rings(now, rang)))
  {
    BatchIsExactlyTheDue(s, now, rang);
    assert Home(s, id.timer);
    var r := Begun(s, now, rang);
    assert r.expired[0..] == r.expired;
  }

  lemma LifeAfterCalls(s: State, id: TimerId, interval: nat, repeat: bool, life: Life)
    requires Inv(s) && Is(s, id, interval, repeat, life) && s.calling && s.next < |s.expired|
    ensures Started(s).next <= |s.expired| && Is(Started(s), id, interval, repeat, life)
  {
    var r := Started(s);
    var e := s.expired[s.next];
    EntryIsLive(s, e);
    assert r.starts[..|r.starts| - 1] == s.starts;
    assert s.expired[s.next..] == [e] + s.expired[s.next + 1..];
    assert forall j :: s.next < j < |s.expired| ==> Before(s.expired[s.next], s.expired[j]);
    assert e !in s.expired[s.next + 1..];
  }

  lemma LifeAfterEnds(s: State, id: TimerId, interval: nat, repeat: bool, life: Life, t: int)
    requires Inv(s) && Is(s, id, interval, repeat, life) && s.calling && s.next == |s.expired|
    ensures Inv(Finished(s, t))
    ensures Is(Finished(s, t), id, interval, repeat, Lived(life, interval, repeat, s, Ends(t)))
  {
    FinishKeepsInv(s, t);
    FinishOutcome(s, t, id.timer);
    assert Home(s, id.timer) && Home(Finished(s, t), id.timer);
  }

  lemma LifeStep(s: State, id: TimerId, interval: nat, repeat: bool, life: Life, ev: Event)
    requires Inv(s) && Is(s, id, interval, repeat, life) && ev != Cancels(id)
    ensures Is(Apply(s, ev), id, interval, repeat, Lived(life, interval, repeat, s, ev))
  {
    if Enabled(s, ev) {
      match ev
      case Add(_, _, _, _, _) => LifeAfterAdd(s, id, interval, repeat, life, ev);
      case Cancels(other) => LifeAfterCancels(s, id, interval, repeat, life, other);
      case Rings(now, rang) => LifeAfterRings(s, id, interval, repeat, life, now, rang);
      case Calls => LifeAfterCalls(s, id, interval, repeat, life);
      case Ends(t) => LifeAfterEnds(s, id, interval, repeat, life, t);
    }
  }

  lemma {:induction false} LifeOverRuns(s: State, id: TimerId, interval: nat, repeat: bool, life: Life, evs: seq<Event>)
    requires Inv(s) && Is(s, id, interval, repeat, life) && Cancels(id) !in evs
    ensures Is(Run(s, evs), id, interval, repeat, LivedThrough(life, interval, repeat, s, evs))
    decreases |evs|
  {
    if evs != [] {
      assert evs[0] in evs && forall ev :: ev in evs[1..] ==> ev in evs;
      LifeStep(s, id, interval, repeat, life, evs[0]);
      LifeOverRuns(Apply(s, evs[0]), id, interval, repeat, Lived(life, interval, repeat, s, evs[0]), evs[1..]);
    }
  }

  /** A timer that is added at any moment of any run and never cancelled, whatever is added and cancelled
      besides: it waits for its time; the first batch that begins no earlier takes it, and in each of its batches
      its callback starts once; when the batch ends it waits for the interval to pass since the batch began, if it
      repeats, and is deleted if it does not. */
  lemma TimerLife(s: State, a: Address, when: int, interval: nat, repeat: bool, t: int, evs: seq<Event>)
    requires Inv(s) && CanAllocate(s, a) && Cancels(TimerId(a, s.created + 1)) !in evs
    ensures var s1 := Apply(s, Add(a, when, interval, repeat, t));
            Is(Run(s1, evs), TimerId(a, s.created + 1), interval, repeat,
               LivedThrough(Life(Waiting(when), 0), interval, repeat, s1, evs))
  {
    AddedIsWaiting(s, a, when, interval, repeat, t);
    LifeOverRuns(Apply(s, Add(a, when, interval, repeat, t)), TimerId(a, s.created + 1), interval, repeat,
                 Life(Waiting(when), 0), evs);
  }

  // ---------- a stale id ----------

  /** `id` names no timer of the running batch. */
  ghost predicate Foreign(s: State, id: TimerId) {
    Live(s, id) ==> EntryOf(s, id.timer) !in s.expired
  }

  /** The two states differ at most in cancellations that name no timer of the running batch. */
  ghost predicate Agree(s: State, r: State) {
    && r == s.(canceling := r.canceling)
    && (forall id {:trigger Foreign(s, id)} :: (id in s.canceling) != (id in r.canceling) ==> Foreign(s, id))
  }

  lemma AgreeOnRestarts(s: State, r: State, a: Address)
    requires Agree(s, r) && a in s.heap && EntryOf(s, a) in s.expired
    ensures Restarts(s, a) == Restarts(r, a)
  {
    assert IdOf(s, a) == IdOf(r, a);
    assert !Foreign(s, IdOf(s, a));
  }

  lemma ForeignAfterReset(s: State, id: TimerId)
    requires Core(s) && Owned(s) && Sorted(s.expired) && s.next == 0 && s.expired != []
    requires s.expired[0].timer in s.heap && Foreign(s, id)
    ensures Foreign(ResetStep(s), id)
  {
    HeadLeaves(s.expired);
    ResetOneAt(s, id.timer);
    ResetOneKeepsCore(s);
    assert Home(ResetStep(s), id.timer);
  }

  lemma ResetStepAgrees(s: State, r: State)
    requires Core(s) && Owned(s) && Sorted(s.expired) && s.next == 0 && s.expired != [] && Agree(s, r)
    requires s.expired[0].timer in s.heap && s.expired[0] == EntryOf(s, s.expired[0].timer)
    ensures Agree(ResetStep(s), ResetStep(r))
  {
    AgreeOnRestarts(s, r, s.expired[0].timer);
    forall id | Foreign(s, id) ensures Foreign(ResetStep(s), id) {
      ForeignAfterReset(s, id);
    }
  }

  lemma ResetAllAgrees(s: State, r: State)
    requires Core(s) && Owned(s) && Sorted(s.expired) && s.next == 0
    requires Core(r) && Owned(r)
    requires Agree(s, r)
    ensures Agree(ResetDone(s), ResetDone(r))
    decreases |s.expired|
  {
    if s.expired != [] {
      HeadLeaves(s.expired);
      EntryIsLive(s, s.expired[0]);
      ResetOneKeepsCore(s);
      ResetOneKeepsOwned(s);
      ResetOneKeepsCore(r);
      ResetOneKeepsOwned(r);
      ResetStepAgrees(s, r);
      ResetAllAgrees(ResetStep(s), ResetStep(r));
    }
  }

  lemma AgreeAfterEnds(s: State, r: State, t: int)
    requires Inv(s) && Inv(r) && Agree(s, r)
    ensures Agree(Finished(s, t), Finished(r, t))
  {
    CloseBatchKeepsCore(s);
    CloseBatchKeepsCore(r);
    assert forall id :: Foreign(s, id) ==> Foreign(CloseBatch(s), id);
    ResetAllAgrees(CloseBatch(s), CloseBatch(r));
    ResetAllFrame(CloseBatch(s));
    var d, t1 := ResetDone(CloseBatch(s)), Finished(s, t);
    assert forall id :: Foreign(d, id) ==> Foreign(t1, id);
  }

  lemma AgreeAfterAdd(s: State, r: State, a: Address, when: int, interval: nat, repeat: bool, t: int)
    requires Inv(s) && CanAllocate(s, a) && Agree(s, r)
    ensures Agree(TimerAdded(s, a, when, interval, repeat, t), TimerAdded(r, a, when, interval, repeat, t))
  {
    var m := TimerAdded(s, a, when, interval, repeat, t);
    assert Allocated(r, a, when, interval, repeat) == Allocated(s, a, when, interval, repeat).(canceling := r.canceling);
    assert Home(s, a);
    forall id | Foreign(s, id) ensures Foreign(m, id) {
      assert Home(s, id.timer);
    }
  }

  lemma AgreeAfterCancels(s: State, r: State, id: TimerId)
    requires Inv(s) && Inv(r) && Agree(s, r)
    ensures Agree(Cancelled(s, id), Cancelled(r, id))
  {
    assert Home(s, id.timer) && id == TimerId(id.timer, id.sequence);
    var m := Cancelled(s, id);
    assert forall j :: Foreign(s, j) ==> Foreign(m, j);
  }

  lemma AgreeStep(s: State, r: State, ev: Event)
    requires Inv(s) && Inv(r) && Agree(s, r)
    ensures Agree(Apply(s, ev), Apply(r, ev))
  {
    if Enabled(s, ev) {
      match ev
      case Add(a, when, interval, repeat, t) => AgreeAfterAdd(s, r, a, when, interval, repeat, t);
      case Cancels(id) => AgreeAfterCancels(s, r, id);
      case Rings(_, _) =>
      case Calls => assert forall id :: Foreign(s, id) ==> Foreign(Started(s), id);
      case Ends(t) => AgreeAfterEnds(s, r, t);
    }
  }

  lemma {:induction false} AgreeOverRuns(s: State, r: State, evs: seq<Event>)
    requires Inv(s) && Inv(r) && Agree(s, r)
    ensures Agree(Run(s, evs), Run(r, evs))
    decreases |evs|
  {
    if evs != [] {
      AgreeStep(s, r, evs[0]);
      AgreeOverRuns(Apply(s, evs[0]), Apply(r, evs[0]), evs[1..]);
    }
  }

  /** Cancelling an id that names no live timer, whether the timer is freed, with its address in use again
      or not, or was never created, changes nothing that any later run can show: the same timers live, are
      indexed, fire and are freed. */
  lemma StaleCancelIsHarmless(s: State, id: TimerId, evs: seq<Event>)
    requires Inv(s) && !Live(s, id)
    ensures Inv(Cancelled(s, id))
    ensures var with, without := Run(Cancelled(s, id), evs), Run(s, evs);
            with == without.(canceling := with.canceling)
  {
    CancelKeepsInv(s, id);
    assert Home(s, id.timer) && id == TimerId(id.timer, id.sequence);
    assert id !in s.active;
    AgreeOverRuns(s, Cancelled(s, id), evs);
  }

  /** Among these are every id whose timer is freed, every id never given out, and the id that TimerId's
      default constructor makes. */
  lemma StaleIds(s: State, id: TimerId)
    requires Inv(s)
    ensures id.sequence in s.freed || id.sequence !in s.issued || s.issued[id.sequence] != id.timer <==> !Live(s, id)
    ensures !Live(s, TimerId(0, 0))
  {
    assert id.timer in s.heap ==> s.heap[id.timer].sequence in s.issued;
  }

  // ---------- the class ----------

  lemma {:induction false} RunExtends(s: State, evs: seq<Event>, more: seq<Event>)
    requires Inv(s)
    ensures Run(s, evs + more) == Run(Run(s, evs), more)
    decreases |evs|
  {
    if evs == [] {
      assert evs + more == more;
    } else {
      assert (evs + more)[1..] == evs[1..] + more;
      RunExtends(Apply(s, evs[0]), evs[1..], more);
    }
  }

  lemma RunOne(s: State, evs: seq<Event>, ev: Event)
    requires Inv(s)
    ensures Run(s, evs + [ev]) == Apply(Run(s, evs), ev)
  {
    RunExtends(s, evs, [ev]);
    assert [ev][1..] == [];
  }

  /** The calls a callback makes on the queue while it runs. */
  predicate FromCallback(script: seq<Event>) {
    forall ev :: ev in script ==> ev.Add? || ev.Cancels?
  }

  function ScriptOf(scripts: seq<seq<Event>>, j: nat): seq<Event> {
    if j < |scripts| then scripts[j] else []
  }

  /** What happens while the first `k` callbacks of a batch run, the j-th making the calls scripts[j]. */
  function BatchTrace(scripts: seq<seq<Event>>, k: nat): seq<Event> {
    if k == 0 then [] else BatchTrace(scripts, k - 1) + [Calls] + ScriptOf(scripts, k - 1)
  }

  lemma BatchStep(s: State, evs: seq<Event>, scripts: seq<seq<Event>>, k: nat)
    requires Inv(s)
    ensures Run(s, evs + BatchTrace(scripts, k + 1)) == Run(Run(s, evs + BatchTrace(scripts, k)), [Calls] + ScriptOf(scripts, k))
  {
    var a, b := evs + BatchTrace(scripts, k), [Calls] + ScriptOf(scripts, k);
    assert a + b == evs + BatchTrace(scripts, k + 1);
    RunExtends(s, a, b);
  }

  // What a method may rely on at each entry point.

  lemma AddTimerFacts(s: State, a: Address, when: int, interval: nat, repeat: bool, t: int)
    requires Inv(s) && CanAllocate(s, a)
    ensures |s.timers| == |s.active|
    ensures Entry(when, a) !in s.timers && TimerId(a, s.created + 1) !in s.active
    ensures Inv(TimerAdded(s, a, when, interval, repeat, t))
  {
    AddTimerKeepsInv(s, a, when, interval, repeat, t);
    assert Home(s, a);
    SizesAgree(s);
  }

  lemma CancelFacts(s: State, id: TimerId)
    requires Inv(s)
    ensures |s.timers| == |s.active|
    ensures id in s.active ==>
              Live(s, id) && EntryOf(s, id.timer) in s.timers && IdOf(s, id.timer) == id
    ensures Inv(Cancelled(s, id)) && |Cancelled(s, id).timers| == |Cancelled(s, id).active|
  {
    CancelKeepsInv(s, id);
    SizesAgree(s);
    SizesAgree(Cancelled(s, id));
    assert Home(s, id.timer) && id == TimerId(id.timer, id.sequence);
  }

  ghost predicate IndexesMatch(heap: map<Address, Timer>, timers: set<Entry>, active: set<TimerId>) {
    forall e {:trigger e in timers} :: e in timers ==>
      && e.timer in heap && e.when == heap[e.timer].expiration
      && TimerId(e.timer, heap[e.timer].sequence) in active
      && e.timer < UINTPTR_MAX
  }

  lemma IndexFacts(s: State)
    requires Core(s) && Owned(s)
    ensures IndexesMatch(s.heap, s.timers, s.active)
  {
    forall e | e in s.timers
      ensures e.timer in s.heap && e == EntryOf(s, e.timer) && IdOf(s, e.timer) in s.active
    {
      EntryIsLive(s, e);
      assert Home(s, e.timer);
    }
  }

  lemma ResetFacts(s: State)
    requires Core(s) && Owned(s) && Sorted(s.expired) && s.expired != [] && s.next == 0
    ensures var e := s.expired[0];
            && e.timer in s.heap && e == EntryOf(s, e.timer)
            && IdOf(s, e.timer) !in s.active
            && (forall w :: Entry(w, e.timer) !in s.timers)
            && |s.timers| == |s.active|
            && Core(ResetStep(s)) && Owned(ResetStep(s)) && Sorted(ResetStep(s).expired)
            && ResetDone(s) == ResetDone(ResetStep(s))
  {
    var e := s.expired[0];
    HeadLeaves(s.expired);
    EntryIsLive(s, e);
    ResetOneKeepsCore(s);
    ResetOneKeepsOwned(s);
    SizesAgree(s);
    assert Home(s, e.timer) && e == Entry(e.when, e.timer);
  }

  lemma HandleReadFacts(s: State, now: int, rang: bool)
    requires Inv(s) && !s.calling && 0 < now
    ensures Inv(Begun(s, now, rang))
    ensures Run(s, [Rings(now, rang)]) == Begun(s, now, rang)
  {
    BeginKeepsInv(s, now, rang);
    RunOne(s, [], Rings(now, rang));
    assert [] + [Rings(now, rang)] == [Rings(now, rang)];
  }

  lemma EndFacts(s: State, at: int)
    requires Inv(s) && s.calling && s.next == |s.expired|
    ensures Core(CloseBatch(s)) && Apply(s, Ends(at)) == Finished(s, at)
    ensures Inv(Finished(s, at)) && !Finished(s, at).calling
  {
    CloseBatchKeepsCore(s);
    ResetAllFrame(CloseBatch(s));
    FinishKeepsInv(s, at);
  }

  /** lower_bound(sentry), then copying and erasing [begin, lower_bound). */
  method SplitAtLowerBound(ts: set<Entry>, t: int) returns (batch: seq<Entry>, rest: set<Entry>)
    requires forall e {:trigger e in ts} :: e in ts ==> e.timer < UINTPTR_MAX
    ensures Enumerates(batch, Due(ts, t))
    ensures rest == ts - Due(ts, t)
    ensures rest == {} || t < First(rest).when
  {
    var sentry := Entry(t, UINTPTR_MAX);
    batch, rest := [], ts;
    while rest != {} && Before(First(rest), sentry)
      invariant rest <= ts && Sorted(batch)
      invariant forall e :: e in batch <==> e in ts && e !in rest
      invariant forall e, f :: e in batch && f in rest ==> Before(e, f)
      invariant forall e :: e in batch ==> e.when <= t
      decreases |rest|
    {
      var e := First(rest);
      SortedAppend(batch, e);
      batch, rest := batch + [e], rest - {e};
    }
  }

  lemma SortedAppend(ts: seq<Entry>, e: Entry)
    requires Sorted(ts) && forall x :: x in ts ==> Before(x, e)
    ensures Sorted(ts + [e])
  {
    assert forall i :: 0 <= i < |ts| ==> ts[i] in ts;
  }

  class TimerQueue {
    var heap: map<Address, Timer>
    var timers: set<Entry>
    var active: set<TimerId>
    var calling: bool
    var canceling: set<TimerId>
    var created: nat
    ghost var expired: seq<Entry>
    ghost var next: nat
    ghost var now: int
    ghost var alarm: Option<int>
    ghost var armedAt: int
    ghost var issued: map<int, Address>
    ghost var freed: set<int>
    ghost var starts: seq<Start>

    ghost function Model(): State
      reads this
    {
      State(heap, timers, active, calling, canceling, expired, next, now, created, alarm, armedAt, issued, freed, starts)
    }

    ghost predicate Valid()
      reads this
    {
      Inv(Model())
    }

    constructor ()
      ensures Valid() && Model() == Empty()
    {
      heap, timers, active, calling, canceling, created := map[], {}, {}, false, {}, 0;
      expired, next, now, alarm, armedAt, issued, freed, starts := [], 0, 0, None, 0, map[], {}, [];
      new;
      EmptyIsSound();
    }

    method ResetTimerfd(when: int, t: int)
      modifies this`alarm, this`armedAt
      ensures alarm == Some(if when <= t + 100 then t + 100 else when) && armedAt == t
      ensures Model() == Armed(old(Model()), when, t)
    {
      DeadlineIsExact(when, t);
      alarm, armedAt := Some(Deadline(t, HowMuchTimeFromNow(when, t))), t;
    }

    method Insert(a: Address) returns (earliestChanged: bool)
      requires a in heap && EntryOf(Model(), a) !in timers && IdOf(Model(), a) !in active
      requires |timers| == |active|
      modifies this`timers, this`active
      ensures Model() == Inserted(old(Model()), a)
      ensures earliestChanged == EarliestChanged(old(Model()), heap[a].expiration)
      ensures |timers| == |active|
    {
      var when := heap[a].expiration;
      earliestChanged := timers == {} || when < First(timers).when;
      timers := timers + {Entry(when, a)};
      active := active + {TimerId(a, heap[a].sequence)};
    }

    /** new Timer, and Timer's constructor. */
    method Allocate(a: Address, when: int, interval: nat, repeat: bool)
      modifies this`created, this`heap, this`issued
      ensures Model() == Allocated(old(Model()), a, when, interval, repeat)
    {
      created := created + 1;
      heap := heap[a := Timer(when, interval, repeat, created)];
      issued := issued[created := a];
    }

    /** addTimer and addTimerInLoop, in the loop thread; `a` is the answer of the allocator. */
    method AddTimer(a: Address, when: int, interval: nat, repeat: bool, t: int) returns (id: TimerId)
      requires Valid() && CanAllocate(Model(), a)
      modifies this
      ensures Valid() && Model() == TimerAdded(old(Model()), a, when, interval, repeat, t)
      ensures id == TimerId(a, old(created) + 1) && id in active && Entry(when, a) in timers
      ensures a in heap && heap[a] == Timer(when, interval, repeat, id.sequence)
    {
      AddTimerFacts(Model(), a, when, interval, repeat, t);
      Allocate(a, when, interval, repeat);
      var earliestChanged := Insert(a);
      if earliestChanged {
        ResetTimerfd(heap[a].expiration, t);
      }
      id := TimerId(a, created);
    }

    /** delete, of a timer that is alive. */
    method Delete(a: Address)
      requires a in heap
      modifies this`freed, this`heap
      ensures Model() == Deleted(old(Model()), a)
    {
      freed := freed + {heap[a].sequence};
      heap := heap - {a};
    }

    method CancelInLoop(id: TimerId)
      requires Valid()
      modifies this
      ensures Valid() && Model() == Cancelled(old(Model()), id)
    {
      CancelFacts(Model(), id);
      assert |timers| == |active|;
      if id in active {
        var e := Entry(heap[id.timer].expiration, id.timer);
        assert e in timers;
        timers := timers - {e};
        Delete(id.timer);
        active := active - {id};
      } else if calling {
        canceling := canceling + {id};
      }
      assert |timers| == |active|;
    }

    /** The loop that takes the batch out of activeTimers_. */
    method EraseActive(batch: seq<Entry>)
      requires Sorted(batch)
      requires forall i :: 0 <= i < |batch| ==> var e := batch[i];
                 e.timer in heap && e.when == heap[e.timer].expiration && TimerId(e.timer, heap[e.timer].sequence) in active
      modifies this`active
      ensures active == old(active) - IdsOf(heap, batch)
    {
      var i := 0;
      while i < |batch|
        invariant 0 <= i <= |batch|
        invariant active == old(active) - IdsOf(heap, batch[..i])
      {
        var e := batch[i];
        var id := TimerId(e.timer, heap[e.timer].sequence);
        NotInPrefix(batch, i);
        assert id in active;
        active := active - {id};
        assert batch[..i + 1] == batch[..i] + [e];
        i := i + 1;
      }
      assert batch[..|batch|] == batch;
    }

    method GetExpired(t: int) returns (batch: seq<Entry>)
      requires IndexesMatch(heap, timers, active)
      modifies this`timers, this`active, this`expired, this`next, this`now
      ensures Enumerates(batch, Due(old(timers), t))
      ensures timers == old(timers) - Due(old(timers), t)
      ensures active == old(active) - IdsOf(heap, batch)
      ensures expired == batch && next == 0 && now == t
    {
      batch, timers := SplitAtLowerBound(timers, t);
      expired, next, now := batch, 0, t;
      assert forall i :: 0 <= i < |batch| ==> batch[i] in Due(old(timers), t);
      EraseActive(batch);
    }

    /** A call that user code makes, if it can. */
    method Call(ev: Event)
      requires Valid() && (ev.Add? || ev.Cancels?)
      modifies this
      ensures Valid() && Model() == Apply(old(Model()), ev)
      ensures calling == old(calling) && expired == old(expired) && next == old(next) && now == old(now)
    {
      match ev
      case Add(a, when, interval, repeat, at) =>
        if 0 < a < UINTPTR_MAX && a !in heap {
          var _ := AddTimer(a, when, interval, repeat, at);
        }
      case Cancels(id) => CancelInLoop(id);
    }

    method StartCallback()
      requires Valid() && calling && next < |expired|
      modifies this`starts, this`next
      ensures Valid() && Model() == Run(old(Model()), [Calls])
      ensures next == old(next) + 1
    {
      ghost var s := Model();
      EntryIsLive(s, expired[next]);
      RunOne(s, [], Calls);
      assert [] + [Calls] == [Calls];
      starts := starts + [Start(heap[expired[next].timer].sequence, expired[next].when, now)];
      next := next + 1;
    }

    /** it->second->run(): the callback starts and makes the calls in `script`. */
    method RunCallback(script: seq<Event>)
      requires Valid() && calling && next < |expired| && FromCallback(script)
      modifies this
      ensures Valid() && Model() == Run(old(Model()), [Calls] + script)
      ensures calling && expired == old(expired) && next == old(next) + 1 && now == old(now)
    {
      ghost var s := Model();
      StartCallback();
      assert [Calls] == [Calls] + script[..0];
      var i := 0;
      while i < |script|
        invariant 0 <= i <= |script| && Valid()
        invariant Model() == Run(s, [Calls] + script[..i])
        invariant calling && expired == s.expired && next == s.next + 1 && now == s.now
      {
        assert script[i] in script;
        RunOne(s, [Calls] + script[..i], script[i]);
        assert [Calls] + script[..i] + [script[i]] == [Calls] + script[..i + 1];
        Call(script[i]);
        i := i + 1;
      }
      assert script[..|script|] == script;
    }

    method Reset(batch: seq<Entry>, t: int, at: int)
      requires Core(Model()) && Owned(Model()) && Sorted(expired) && !calling
      requires batch == expired && next == 0 && now == t
      modifies this
      ensures var r := ResetDone(old(Model()));
              Model() == if r.timers != {} && 0 < First(r.timers).when then Armed(r, First(r.timers).when, at) else r
    {
      ghost var s := Model();
      ghost var m := s;
      var i := 0;
      while i < |batch|
        invariant 0 <= i <= |batch|
        invariant Model() == m && m.expired == batch[i..] && m.now == t && m.next == 0
        invariant Core(m) && Owned(m) && Sorted(m.expired)
        invariant ResetDone(m) == ResetDone(s)
      {
        ResetFacts(m);
        ResetOne(batch[i].timer, t);
        m := ResetStep(m);
        i := i + 1;
      }
      if timers != {} {
        var nextExpire := First(timers).when;
        if 0 < nextExpire {
          ResetTimerfd(nextExpire, at);
        }
      }
    }

    /** The body of the loop in `reset`. */
    method ResetOne(a: Address, t: int)
      requires expired != [] && expired[0].timer == a && a in heap && now == t
      requires TimerId(a, heap[a].sequence) !in active && forall w :: Entry(w, a) !in timers
      requires |timers| == |active|
      modifies this`expired, this`heap, this`timers, this`active, this`freed
      ensures Model() == ResetStep(old(Model()))
    {
      expired := expired[1..];
      if heap[a].repeat && TimerId(a, heap[a].sequence) !in canceling {
        heap := heap[a := heap[a].(expiration := t + heap[a].interval)];
        var _ := Insert(a);
      } else {
        freed := freed + {heap[a].sequence};
        heap := heap - {a};
      }
    }

    /** What precedes the first callback. */
    method StartBatch(t: int, rang: bool) returns (batch: seq<Entry>)
      requires Valid() && !calling && 0 < t
      modifies this
      ensures Model() == Run(old(Model()), [Rings(t, rang)])
      ensures calling && next == 0 && expired == batch && now == t && batch == InOrder(Due(old(timers), t))
    {
      ghost var s := Model();
      HandleReadFacts(s, t, rang);
      IndexFacts(s);
      if rang {
        alarm := None;
      }
      batch := GetExpired(t);
      calling := true;
      canceling := {};
      SortedIsUnique(batch, InOrder(Due(s.timers, t)));
      assert Model() == Begun(s, t, rang);
    }

    /** The alarm has rung at `t`; scripts[j] are the calls the j-th callback makes. */
    method HandleRead(t: int, rang: bool, scripts: seq<seq<Event>>, at: int)
      requires Valid() && !calling && 0 < t
      requires forall j :: 0 <= j < |scripts| ==> FromCallback(scripts[j])
      modifies this
      ensures Valid() && !calling
      ensures var k := |InOrder(Due(old(timers), t))|;
              Model() == Run(old(Model()), [Rings(t, rang)] + BatchTrace(scripts, k) + [Ends(at)])
    {
      ghost var s := Model();
      var batch := StartBatch(t, rang);
      RunCallbacks(s, [Rings(t, rang)], batch, scripts);
      RunOne(s, [Rings(t, rang)] + BatchTrace(scripts, |batch|), Ends(at));
      FinishBatch(batch, t, at);
    }

    /** The loop over the batch, which begins when `evs` have happened since `s`. */
    method RunCallbacks(ghost s: State, ghost evs: seq<Event>, batch: seq<Entry>, scripts: seq<seq<Event>>)
      requires Inv(s) && Model() == Run(s, evs) && calling && next == 0 && expired == batch
      requires forall j :: 0 <= j < |scripts| ==> FromCallback(scripts[j])
      modifies this
      ensures Valid() && Model() == Run(s, evs + BatchTrace(scripts, |batch|))
      ensures calling && next == |batch| && expired == batch && now == old(now)
    {
      assert evs + BatchTrace(scripts, 0) == evs;
      var k := 0;
      while k < |batch|
        invariant 0 <= k <= |batch| && calling && next == k && expired == batch && now == old(now)
        invariant Model() == Run(s, evs + BatchTrace(scripts, k))
      {
        RunNext(s, evs, scripts, k);
        k := k + 1;
      }
    }

    /** One turn of that loop. */
    method RunNext(ghost s: State, ghost evs: seq<Event>, scripts: seq<seq<Event>>, k: nat)
      requires Inv(s) && Model() == Run(s, evs + BatchTrace(scripts, k))
      requires calling && next == k && k < |expired| && FromCallback(ScriptOf(scripts, k))
      modifies this
      ensures Valid() && Model() == Run(s, evs + BatchTrace(scripts, k + 1))
      ensures calling && next == k + 1 && expired == old(expired) && now == old(now)
    {
      BatchStep(s, evs, scripts, k);
      RunCallback(ScriptOf(scripts, k));
    }

    /** What follows the last callback. */
    method FinishBatch(batch: seq<Entry>, t: int, at: int)
      requires Valid() && calling && next == |expired| && batch == expired && now == t
      modifies this
      ensures Valid() && !calling && Model() == Apply(old(Model()), Ends(at))
    {
      ghost var m := Model();
      EndFacts(m, at);
      calling := false;
      next := 0;
      assert Model() == CloseBatch(m);
      Reset(batch, t, at);
    }
  }
}
