/**
 net/Channel.h, net/Channel.cc and net/EPollPoller.cc: channels, the poller's indexes of them, and the
 interest set the kernel keeps for the epoll descriptor.

 `State` holds all three as values, over any type of channel identities; `Mirrors` says how they agree.
 The classes do the same with channel objects.
 */
module Pollers {
  const POLLIN: bv16 := 0x1
  const POLLPRI: bv16 := 0x2
  const POLLOUT: bv16 := 0x4
  const POLLERR: bv16 := 0x8
  const POLLHUP: bv16 := 0x10
  const POLLNVAL: bv16 := 0x20
  const POLLRDHUP: bv16 := 0x2000

  const NONE_EVENT: bv16 := 0
  const READ_EVENT: bv16 := POLLIN | POLLPRI
  const WRITE_EVENT: bv16 := POLLOUT

  datatype Index = New | Added | Deleted

  /** Poller slot of a channel that has just changed its events and calls update(). */
  function IndexAfterUpdate(index: Index, events: bv16): Index {
    if index == Added && events == NONE_EVENT then Deleted else Added
  }

  datatype Chan = Chan(fd: int, events: bv16, index: Index)
  datatype Interest<Id> = Interest(mask: bv16, ptr: Id)
  datatype State<Id(==)> = State(
    chans: map<Id, Chan>,                // every channel of the loop
    channels: map<int, Id>,              // Poller::channels_
    kernel: map<int, Interest<Id>>       // what epoll_ctl has built
  )

  datatype Op<Id> = Create(id: Id, fd: int) | SetEvents(id: Id, events: bv16) | Remove(id: Id) | Destroy(id: Id)

  // ---------- epoll_ctl ----------

  datatype Ctl<Id> = CtlAdd(fd: int, interest: Interest<Id>) | CtlMod(fd: int, interest: Interest<Id>) | CtlDel(fd: int)

  /** The kernel answers EEXIST or ENOENT otherwise. */
  predicate CtlSucceeds<Id>(kernel: map<int, Interest<Id>>, c: Ctl<Id>) {
    match c
    case CtlAdd(fd, _) => fd !in kernel
    case CtlMod(fd, _) => fd in kernel
    case CtlDel(fd) => fd in kernel
  }

  function AfterCtl<Id>(kernel: map<int, Interest<Id>>, c: Ctl<Id>): map<int, Interest<Id>> {
    if !CtlSucceeds(kernel, c) then kernel
    else match c
      case CtlAdd(fd, i) => kernel[fd := i]
      case CtlMod(fd, i) => kernel[fd := i]
      case CtlDel(fd) => kernel - {fd}
  }

  // ---------- the operations ----------

  /** The call updateChannel makes for a channel whose events are now `events`. */
  function UpdateCtl<Id>(c: Chan, id: Id, events: bv16): Ctl<Id> {
    if c.index != Added then CtlAdd(c.fd, Interest(events, id))
    else if events == NONE_EVENT then CtlDel(c.fd)
    else CtlMod(c.fd, Interest(events, id))
  }

  function Updated<Id>(s: State<Id>, id: Id, events: bv16): State<Id>
    requires id in s.chans
  {
    var c := s.chans[id];
    State(s.chans[id := Chan(c.fd, events, IndexAfterUpdate(c.index, events))],
          if c.index == New then s.channels[c.fd := id] else s.channels,
          AfterCtl(s.kernel, UpdateCtl(c, id, events)))
  }

  function Removed<Id>(s: State<Id>, id: Id): State<Id>
    requires id in s.chans
  {
    var c := s.chans[id];
    State(s.chans[id := c.(index := New)],
          s.channels - {c.fd},
          if c.index == Added then AfterCtl(s.kernel, CtlDel(c.fd)) else s.kernel)
  }

  /** What the operations need: a new channel registers a descriptor that no other channel has, a channel is
      removed once, without interest, and it is destroyed when it is not in the poller.  Its address can then
      be used again. */
  ghost predicate Allowed<Id>(s: State<Id>, op: Op<Id>) {
    match op
    case Create(id, _) => id !in s.chans
    case SetEvents(id, _) => id in s.chans && (s.chans[id].index == New ==> s.chans[id].fd !in s.channels)
    case Remove(id) => id in s.chans && s.chans[id].index != New && s.chans[id].events == NONE_EVENT
    case Destroy(id) => id in s.chans && s.chans[id].index == New
  }

  ghost function Apply<Id>(s: State<Id>, op: Op<Id>): State<Id>
    requires Allowed(s, op)
  {
    match op
    case Create(id, fd) => s.(chans := s.chans[id := Chan(fd, NONE_EVENT, New)])
    case SetEvents(id, events) => Updated(s, id, events)
    case Remove(id) => Removed(s, id)
    case Destroy(id) => s.(chans := s.chans - {id})
  }

  // ---------- the indexes mirror the kernel ----------

  ghost predicate Registered<Id>(s: State<Id>, id: Id) {
    id in s.chans && s.chans[id].fd in s.channels && s.channels[s.chans[id].fd] == id
  }

  ghost predicate InKernel<Id>(s: State<Id>, id: Id) {
    id in s.chans && s.chans[id].fd in s.kernel && s.kernel[s.chans[id].fd].ptr == id
  }

  ghost predicate ChanOk<Id>(s: State<Id>, id: Id)
    requires id in s.chans
  {
    var c := s.chans[id];
    && (c.index == New <==> !Registered(s, id))
    && (c.index == Added <==> InKernel(s, id))
    && (c.index == Added ==> s.kernel[c.fd].mask == c.events)
    && (c.index == Deleted <==> Registered(s, id) && !InKernel(s, id))
    && (c.index == Deleted ==> c.events == NONE_EVENT)
  }

  ghost predicate FdOk<Id>(s: State<Id>, fd: int) {
    && (fd in s.channels ==> s.channels[fd] in s.chans && s.chans[s.channels[fd]].fd == fd)
    && (fd in s.kernel ==> fd in s.channels && s.kernel[fd].ptr == s.channels[fd])
  }

  ghost predicate Mirrors<Id>(s: State<Id>) {
    && (forall id {:trigger ChanOk(s, id)} :: id in s.chans ==> ChanOk(s, id))
    && (forall fd {:trigger FdOk(s, fd)} :: FdOk(s, fd))
  }

  lemma ApplyKeepsFds<Id>(s: State<Id>, op: Op<Id>, fd: int)
    requires Mirrors(s) && Allowed(s, op)
    ensures FdOk(Apply(s, op), fd)
  {
    assert FdOk(s, fd);
    assert op.id in s.chans ==> ChanOk(s, op.id) && FdOk(s, s.chans[op.id].fd);
  }

  lemma DestroyKeepsChans<Id>(s: State<Id>, own: Id, id: Id)
    requires Mirrors(s) && Allowed(s, Destroy(own)) && id in s.chans && id != own
    ensures ChanOk(Apply(s, Destroy(own)), id)
  {
    assert ChanOk(s, id);
  }

  lemma ApplyKeepsChans<Id>(s: State<Id>, op: Op<Id>, id: Id)
    requires Mirrors(s) && Allowed(s, op) && id in Apply(s, op).chans
    ensures ChanOk(Apply(s, op), id)
  {
    if op.Destroy? {
      DestroyKeepsChans(s, op.id, id);
    } else {
      OthersKeepChans(s, op, id);
    }
  }

  lemma OthersKeepChans<Id>(s: State<Id>, op: Op<Id>, id: Id)
    requires Mirrors(s) && Allowed(s, op) && !op.Destroy? && id in Apply(s, op).chans
    ensures ChanOk(Apply(s, op), id)
  {
    assert op.id in s.chans ==> ChanOk(s, op.id) && FdOk(s, s.chans[op.id].fd);
    if id in s.chans {
      assert ChanOk(s, id) && FdOk(s, s.chans[id].fd);
    } else {
      assert FdOk(s, op.fd);
    }
  }

  /** Each operation keeps the mirror, and its epoll_ctl call is one the kernel accepts. */
  lemma ApplyKeepsMirror<Id>(s: State<Id>, op: Op<Id>)
    requires Mirrors(s) && Allowed(s, op)
    ensures Mirrors(Apply(s, op))
    ensures op.SetEvents? ==> CtlSucceeds(s.kernel, UpdateCtl(s.chans[op.id], op.id, op.events))
    ensures op.Remove? && s.chans[op.id].index == Added ==> CtlSucceeds(s.kernel, CtlDel(s.chans[op.id].fd))
  {
    forall id | id in Apply(s, op).chans ensures ChanOk(Apply(s, op), id) {
      ApplyKeepsChans(s, op, id);
    }
    forall fd ensures FdOk(Apply(s, op), fd) {
      ApplyKeepsFds(s, op, fd);
    }
    assert op.id in s.chans ==> ChanOk(s, op.id) && FdOk(s, s.chans[op.id].fd);
  }

  ghost predicate AllowedRun<Id>(s: State<Id>, ops: seq<Op<Id>>)
    decreases |ops|
  {
    ops == [] || (Allowed(s, ops[0]) && AllowedRun(Apply(s, ops[0]), ops[1..]))
  }

  ghost function Run<Id>(s: State<Id>, ops: seq<Op<Id>>): State<Id>
    requires AllowedRun(s, ops)
    decreases |ops|
  {
    if ops == [] then s else Run(Apply(s, ops[0]), ops[1..])
  }

  lemma {:induction false} MirrorOverRuns<Id>(s: State<Id>, ops: seq<Op<Id>>)
    requires Mirrors(s) && AllowedRun(s, ops)
    ensures Mirrors(Run(s, ops))
    decreases |ops|
  {
    if ops != [] {
      ApplyKeepsMirror(s, ops[0]);
      MirrorOverRuns(Apply(s, ops[0]), ops[1..]);
    }
  }

  /** From an empty poller, whatever operations have run, with channels destroyed and their addresses used
      again: the pointer that epoll_wait reports for any descriptor is a channel that is alive, the one
      channels_ has there, with that descriptor and those events. */
  lemma ReportedPointersAreGood<Id>(ops: seq<Op<Id>>, fd: int)
    requires AllowedRun(State(map[], map[], map[]), ops)
    ensures var s := Run(State(map[], map[], map[]), ops);
            fd in s.kernel ==>
              var id := s.kernel[fd].ptr;
              && fd in s.channels && s.channels[fd] == id
              && id in s.chans && s.chans[id] == Chan(fd, s.kernel[fd].mask, Added)
  {
    var empty: State<Id> := State(map[], map[], map[]);
    assert Mirrors(empty) by {
      forall fd ensures FdOk(empty, fd) {}
    }
    MirrorOverRuns(empty, ops);
    var s := Run(empty, ops);
    if fd in s.kernel {
      assert FdOk(s, fd);
      assert ChanOk(s, s.kernel[fd].ptr);
    }
  }

  /** What a channel's owner has last asked for. */
  datatype Wish = NoChannel | Wants(events: bv16)

  ghost function WishAfter<Id>(wish: Wish, id: Id, ops: seq<Op<Id>>): Wish
    decreases |ops|
  {
    if ops == [] then wish
    else WishAfter(match ops[0]
                   case Create(j, _) => if j == id then Wants(NONE_EVENT) else wish
                   case SetEvents(j, events) => if j == id then Wants(events) else wish
                   case Remove(_) => wish
                   case Destroy(j) => if j == id then NoChannel else wish, id, ops[1..])
  }

  lemma {:induction false} WishIsKept<Id>(s: State<Id>, id: Id, ops: seq<Op<Id>>)
    requires Mirrors(s) && AllowedRun(s, ops)
    ensures var r, wish := Run(s, ops), if id in s.chans then Wants(s.chans[id].events) else NoChannel;
            WishAfter(wish, id, ops) == if id in r.chans then Wants(r.chans[id].events) else NoChannel
    decreases |ops|
  {
    if ops != [] {
      ApplyKeepsMirror(s, ops[0]);
      WishIsKept(Apply(s, ops[0]), id, ops[1..]);
    }
  }

  /** The kernel watches for what was last asked for: after any operations on a new poller, a descriptor is in its
      set exactly when the channel registered for it is added, and then with the channel's pointer, and the events
      of the last update. */
  lemma KernelFollowsTheLastUpdate<Id>(ops: seq<Op<Id>>, fd: int)
    requires AllowedRun(State(map[], map[], map[]), ops)
    ensures var s := Run(State(map[], map[], map[]), ops);
            && (fd in s.kernel ==> Wants(s.kernel[fd].mask) == WishAfter(NoChannel, s.kernel[fd].ptr, ops))
            && (fd in s.kernel <==>
                  fd in s.channels && s.channels[fd] in s.chans && s.chans[s.channels[fd]].index == Added)
  {
    var empty: State<Id> := State(map[], map[], map[]);
    assert Mirrors(empty) by {
      forall fd ensures FdOk(empty, fd) {}
    }
    MirrorOverRuns(empty, ops);
    ReportedPointersAreGood(ops, fd);
    var s := Run(empty, ops);
    assert FdOk(s, fd);
    if fd in s.kernel {
      WishIsKept(empty, s.kernel[fd].ptr, ops);
    }
    if fd in s.channels {
      assert ChanOk(s, s.channels[fd]);
    }
  }

  /** A removed channel is new again, its descriptor is in neither index and not in the kernel's set, and no other
      channel or descriptor is touched. */
  lemma RemovedIsGone<Id>(s: State<Id>, id: Id)
    requires Mirrors(s) && Allowed(s, Remove(id))
    ensures var r, fd := Apply(s, Remove(id)), s.chans[id].fd;
            && r.chans == s.chans[id := Chan(fd, s.chans[id].events, New)]
            && r.channels == s.channels - {fd} && r.kernel == s.kernel - {fd}
  {
    assert ChanOk(s, id) && FdOk(s, s.chans[id].fd);
  }

  /** An added channel need not be interested in anything: disabling a disabled one adds it again. */
  lemma DisablingTwiceAddsAgain<Id>(s: State<Id>, id: Id)
    requires Mirrors(s) && id in s.chans && s.chans[id].index == Added && s.chans[id].events != NONE_EVENT
    ensures var once := Updated(s, id, NONE_EVENT);
            var twice := Updated(once, id, NONE_EVENT);
            && once.chans[id].index == Deleted && s.chans[id].fd !in once.kernel
            && twice.chans[id].index == Added
            && s.chans[id].fd in twice.kernel && twice.kernel[s.chans[id].fd] == Interest(NONE_EVENT, id)
  {
    assert ChanOk(s, id);
  }

  /** Which updates leave a channel added without interest: exactly those that clear the events of a channel
      that was not added. */
  lemma AddedWithoutInterest<Id>(s: State<Id>, id: Id, events: bv16)
    requires id in s.chans
    ensures var c := Updated(s, id, events).chans[id];
            c.index == Added && c.events == NONE_EVENT <==> s.chans[id].index != Added && events == NONE_EVENT
  {
  }

  // ---------- the classes ----------

  ghost predicate HasPointer<Id>(kernel: map<int, Interest<Id>>, id: Id) {
    exists fd :: fd in kernel && kernel[fd].ptr == id
  }

  /** epoll_wait reports each descriptor of its set at most once, with the pointer given for it. */
  ghost predicate Reportable<Id>(kernel: map<int, Interest<Id>>, reports: seq<Interest<Id>>) {
    && (forall i :: 0 <= i < |reports| ==> HasPointer(kernel, reports[i].ptr))
    && (forall i, j :: 0 <= i < j < |reports| ==> reports[i].ptr != reports[j].ptr)
  }

  class Channel {
    const fd: int
    const poller: EPollPoller
    var events: bv16
    var revents: bv16
    var index: Index
    var addedToLoop: bool

    ghost predicate Valid()
      reads this, poller, poller.owned
    {
      this in poller.owned && poller.Valid()
    }

    constructor (fd: int, poller: EPollPoller)
      requires poller.Valid()
      modifies poller`owned
      ensures Valid() && this.fd == fd && this.poller == poller && !addedToLoop
      ensures this !in old(poller.owned)
      ensures poller.Model() == Apply(old(poller.Model()), Create(this, fd))
    {
      this.fd, this.poller := fd, poller;
      events, revents, index, addedToLoop := NONE_EVENT, NONE_EVENT, New, false;
      new;
      ghost var was := poller.Model();
      poller.owned := poller.owned + {this};
      assert poller.Model() == Apply(was, Create(this, fd));
      ApplyKeepsMirror(was, Create(this, fd));
    }

    /** events_ changes and update() follows. */
    method SetEvents(e: bv16)
      requires Valid() && (index == New ==> fd !in poller.channels)
      modifies this`events, this`index, this`addedToLoop, poller`channels, poller`kernel
      ensures Valid() && addedToLoop && events == e && index == IndexAfterUpdate(old(index), e)
      ensures poller.Model() == Apply(old(poller.Model()), Op.SetEvents(this, e))
    {
      ghost var was := poller.Model();
      events := e;
      addedToLoop := true;
      assert poller.Model() == was.(chans := was.chans[this := was.chans[this].(events := e)]);
      poller.UpdateChannel(this, was);
    }

    method EnableReading()
      requires Valid() && (index == New ==> fd !in poller.channels)
      modifies this`events, this`index, this`addedToLoop, poller`channels, poller`kernel
      ensures Valid() && addedToLoop && events == old(events) | READ_EVENT && index == IndexAfterUpdate(old(index), events)
      ensures poller.Model() == Apply(old(poller.Model()), Op.SetEvents(this, old(events) | READ_EVENT))
    {
      SetEvents(events | READ_EVENT);
    }

    method DisableReading()
      requires Valid() && (index == New ==> fd !in poller.channels)
      modifies this`events, this`index, this`addedToLoop, poller`channels, poller`kernel
      ensures Valid() && addedToLoop && events == old(events) & !READ_EVENT && index == IndexAfterUpdate(old(index), events)
      ensures poller.Model() == Apply(old(poller.Model()), Op.SetEvents(this, old(events) & !READ_EVENT))
    {
      SetEvents(events & !READ_EVENT);
    }

    method EnableWriting()
      requires Valid() && (index == New ==> fd !in poller.channels)
      modifies this`events, this`index, this`addedToLoop, poller`channels, poller`kernel
      ensures Valid() && addedToLoop && events == old(events) | WRITE_EVENT && index == IndexAfterUpdate(old(index), events)
      ensures poller.Model() == Apply(old(poller.Model()), Op.SetEvents(this, old(events) | WRITE_EVENT))
    {
      SetEvents(events | WRITE_EVENT);
    }

    method DisableWriting()
      requires Valid() && (index == New ==> fd !in poller.channels)
      modifies this`events, this`index, this`addedToLoop, poller`channels, poller`kernel
      ensures Valid() && addedToLoop && events == old(events) & !WRITE_EVENT && index == IndexAfterUpdate(old(index), events)
      ensures poller.Model() == Apply(old(poller.Model()), Op.SetEvents(this, old(events) & !WRITE_EVENT))
    {
      SetEvents(events & !WRITE_EVENT);
    }

    method DisableAll()
      requires Valid() && (index == New ==> fd !in poller.channels)
      modifies this`events, this`index, this`addedToLoop, poller`channels, poller`kernel
      ensures Valid() && addedToLoop && events == NONE_EVENT && index == IndexAfterUpdate(old(index), events)
      ensures poller.Model() == Apply(old(poller.Model()), Op.SetEvents(this, NONE_EVENT))
    {
      SetEvents(NONE_EVENT);
    }

    method Remove()
      requires Valid() && index != New && events == NONE_EVENT
      modifies this`index, this`addedToLoop, poller`channels, poller`kernel
      ensures Valid() && !addedToLoop && index == New
      ensures poller.Model() == Apply(old(poller.Model()), Op.Remove(this))
    {
      ghost var was := poller.Model();
      addedToLoop := false;
      assert poller.Model() == was;
      poller.RemoveChannel(this);
      assert poller.Model().chans[this].index == New;
    }

    /** The destructor, whose assertions are about the poller. */
    ghost method Destroy()
      requires Valid() && index == New
      modifies poller`owned
      ensures poller.Valid() && this !in poller.owned
      ensures poller.Model() == Apply(old(poller.Model()), Op.Destroy(this))
      ensures fd in poller.channels ==> poller.channels[fd] != this
    {
      ghost var was := poller.Model();
      ApplyKeepsMirror(was, Op.Destroy(this));
      assert ChanOk(was, this);
      poller.owned := poller.owned - {this};
      assert poller.Model() == Apply(was, Op.Destroy(this));
    }
  }

  class EPollPoller {
    var channels: map<int, Channel>
    var capacity: nat                               // events_.size()
    ghost var kernel: map<int, Interest<Channel>>
    ghost var owned: set<Channel>

    ghost function Model(): State<Channel>
      reads this, owned
    {
      State(map c | c in owned :: Chan(c.fd, c.events, c.index), channels, kernel)
    }

    ghost predicate Valid()
      reads this, owned
    {
      && Mirrors(Model())
      && (forall c :: c in owned ==> c.poller == this)
      && 0 < capacity
    }

    constructor ()
      ensures Valid() && Model() == State(map[], map[], map[]) && capacity == 16
    {
      channels, kernel, owned, capacity := map[], map[], {}, 16;
      new;
      forall fd ensures FdOk(Model(), fd) {}
    }

    /** The channel has new events since `was`, in which the poller mirrored the kernel; now it does again. */
    method UpdateChannel(c: Channel, ghost was: State<Channel>)
      requires Mirrors(was) && Allowed(was, Op.SetEvents(c, c.events))
      requires forall d :: d in owned ==> d.poller == this
      requires Model() == was.(chans := was.chans[c := was.chans[c].(events := c.events)]) && 0 < capacity
      modifies c`index, this`channels, this`kernel
      ensures c.index == IndexAfterUpdate(old(c.index), c.events)
      ensures Valid() && Model() == Updated(was, c, c.events)
    {
      ApplyKeepsMirror(was, Op.SetEvents(c, c.events));
      ghost var chans := Model().chans;
      assert c in chans;
      assert chans[c] == Chan(c.fd, c.events, c.index) && chans[c] == was.chans[c].(events := c.events);
      assert c in owned && was.chans[c].index == c.index && was.chans[c].fd == c.fd;
      assert ChanOk(was, c) && FdOk(was, c.fd);
      Switch(c);
      assert Model() == Updated(was, c, c.events);
    }

    /** The three cases of updateChannel. */
    method Switch(c: Channel)
      requires c in owned
      requires c.index == New ==> c.fd !in channels
      requires c.index != New ==> c.fd in channels && channels[c.fd] == c
      requires CtlSucceeds(kernel, UpdateCtl(Chan(c.fd, c.events, c.index), c, c.events))
      modifies c`index, this`channels, this`kernel
      ensures c.index == IndexAfterUpdate(old(c.index), c.events)
      ensures channels == if old(c.index) == New then old(channels)[c.fd := c] else old(channels)
      ensures kernel == AfterCtl(old(kernel), UpdateCtl(Chan(c.fd, c.events, old(c.index)), c, c.events))
    {
      if c.index == New || c.index == Deleted {
        if c.index == New {
          assert c.fd !in channels;
          channels := channels[c.fd := c];
        } else {
          assert c.fd in channels && channels[c.fd] == c;
        }
        c.index := Added;
        Update(CtlAdd(c.fd, Interest(c.events, c)));
      } else {
        assert c.fd in channels && channels[c.fd] == c && c.index == Added;
        if c.events == NONE_EVENT {
          Update(CtlDel(c.fd));
          c.index := Deleted;
        } else {
          Update(CtlMod(c.fd, Interest(c.events, c)));
        }
      }
    }

    ghost method Update(ctl: Ctl<Channel>)
      requires CtlSucceeds(kernel, ctl)
      modifies this`kernel
      ensures kernel == AfterCtl(old(kernel), ctl)
    {
      kernel := AfterCtl(kernel, ctl);
    }

    method RemoveChannel(c: Channel)
      requires Valid() && c in owned && c.index != New && c.events == NONE_EVENT
      modifies c`index, this`channels, this`kernel
      ensures Valid() && Model() == Removed(old(Model()), c)
    {
      ghost var was := Model();
      ApplyKeepsMirror(was, Op.Remove(c));
      assert ChanOk(was, c) && FdOk(was, c.fd);
      assert c.fd in channels && channels[c.fd] == c;
      assert c.index == Added || c.index == Deleted;
      channels := channels - {c.fd};
      if c.index == Added {
        Update(CtlDel(c.fd));
      }
      c.index := New;
      assert Model() == Removed(was, c);
    }

    /** `reports` is what epoll_wait has put into events_. */
    method FillActiveChannels(reports: seq<Interest<Channel>>) returns (active: seq<Channel>)
      requires Valid() && |reports| <= capacity
      requires Reportable(kernel, reports)
      modifies (set c | c in owned)`revents
      ensures Valid() && Model() == old(Model())
      ensures |active| == |reports|
      ensures forall i :: 0 <= i < |active| ==> active[i] == reports[i].ptr && active[i] in owned
      ensures forall i :: 0 <= i < |active| ==> active[i].revents == reports[i].mask
    {
      ghost var s := Model();
      active := [];
      var i := 0;
      while i < |reports|
        invariant 0 <= i <= |reports| && |active| == i
        invariant Model() == s
        invariant forall j :: 0 <= j < i ==> active[j] == reports[j].ptr && active[j] in owned
        invariant forall j :: 0 <= j < i ==> active[j].revents == reports[j].mask
      {
        var c := reports[i].ptr;
        assert HasPointer(kernel, c);
        ghost var fd :| fd in kernel && kernel[fd].ptr == c;
        assert FdOk(s, fd) && ChanOk(s, c);
        assert c.fd in channels;
        assert channels[c.fd] == c;
        c.revents := reports[i].mask;
        active := active + [c];
        i := i + 1;
      }
    }

    /** The branch of poll() in which epoll_wait answered with events: a full array doubles. */
    method Poll(reports: seq<Interest<Channel>>) returns (active: seq<Channel>)
      requires Valid() && |reports| <= capacity
      requires Reportable(kernel, reports)
      modifies (set c | c in owned)`revents, this`capacity
      ensures Valid() && Model() == old(Model())
      ensures |active| == |reports|
      ensures forall i :: 0 <= i < |active| ==> active[i] == reports[i].ptr && active[i].revents == reports[i].mask
      ensures capacity == if |reports| == old(capacity) then 2 * old(capacity) else old(capacity)
    {
      active := [];
      if 0 < |reports| {
        ghost var s := Model();
        active := FillActiveChannels(reports);
        if |reports| == capacity {
          capacity := capacity * 2;
        }
        assert Model() == s;
      }
    }
  }
}
