/**
 net/Buffer.h and net/Buffer.cc: a growing array with an area in front for prepending.

 `State` is the vector with its two indexes, and the functions on it say what each operation leaves.
 `Readable` forgets everything but the bytes a reader can see; `RefinesBytes` says that on these every
 operation is the plain one on sequences.  The class `Buffer` works in place on an array.
 */
module Buffers {
  import opened Endian
  import opened Options

  const CHEAP_PREPEND := 8
  const INITIAL_SIZE := 1024
  const EXTRA_BUFFER := 65536
  const SIZE_MAX := 0xFFFF_FFFF_FFFF_FFFF
  const INT_MAX := 0x7FFF_FFFF
  const VECTOR_MAX := 0x7FFF_FFFF_FFFF_FFFF   // no vector of bytes is longer

  datatype State = State(store: seq<byte>, reader: nat, writer: nat)

  predicate Sound(s: State) {
    s.reader <= s.writer <= |s.store| && CHEAP_PREPEND <= |s.store|
  }

  function Readable(s: State): (r: seq<byte>)
    requires Sound(s)
    ensures |r| == s.writer - s.reader
  {
    s.store[s.reader..s.writer]
  }

  function Writable(s: State): (r: nat)
    requires Sound(s)
    ensures s.writer + r == |s.store|
  {
    |s.store| - s.writer
  }

  function Zeros(n: nat): (r: seq<byte>)
    ensures |r| == n
  {
    seq(n, _ => 0)
  }

  function Fresh(size: nat): State {
    State(Zeros(CHEAP_PREPEND + size), CHEAP_PREPEND, CHEAP_PREPEND)
  }

  // ---------- the operations ----------

  function Retrieved(s: State, len: nat): (r: State)
    requires Sound(s) && len <= |Readable(s)|
    ensures Sound(r) && Readable(r) == Readable(s)[len..]
  {
    if len < |Readable(s)| then s.(reader := s.reader + len)
    else s.(reader := CHEAP_PREPEND, writer := CHEAP_PREPEND)
  }

  function Overwritten(store: seq<byte>, at: nat, bytes: seq<byte>): (r: seq<byte>)
    requires at + |bytes| <= |store|
    ensures |r| == |store|
  {
    store[..at] + bytes + store[at + |bytes|..]
  }

  /** The test in makeSpace; `len + kCheapPrepend` is computed in size_t. */
  predicate NeedsResize(s: State, len: nat)
    requires Sound(s)
  {
    Writable(s) + s.reader < (len + CHEAP_PREPEND) % (SIZE_MAX + 1)
  }

  /** What a caller can ask for: no memory block is longer. */
  predicate Fits(len: nat) {
    len <= SIZE_MAX - CHEAP_PREPEND
  }

  function SpaceMade(s: State, len: nat): State
    requires Sound(s) && Fits(len) && Writable(s) < len
  {
    if NeedsResize(s, len) then s.(store := s.store + Zeros(s.writer + len - |s.store|))
    else
      State(Overwritten(s.store, CHEAP_PREPEND, Readable(s)), CHEAP_PREPEND, CHEAP_PREPEND + |Readable(s)|)
  }

  function Ensured(s: State, len: nat): (r: State)
    requires Sound(s) && Fits(len)
    ensures Sound(r) && Writable(r) >= len
    ensures Readable(r) == Readable(s)
  {
    if Writable(s) < len then SpaceMade(s, len) else s
  }

  function Appended(s: State, bytes: seq<byte>): (r: State)
    requires Sound(s) && Fits(|bytes|)
    ensures Sound(r) && Readable(r) == Readable(s) + bytes
  {
    var m := Ensured(s, |bytes|);
    m.(store := Overwritten(m.store, m.writer, bytes), writer := m.writer + |bytes|)
  }

  function Unwritten(s: State, len: nat): (r: State)
    requires Sound(s) && len <= |Readable(s)|
    ensures Sound(r) && Readable(r) == Readable(s)[..|Readable(s)| - len]
  {
    s.(writer := s.writer - len)
  }

  function Prepended(s: State, bytes: seq<byte>): (r: State)
    requires Sound(s) && |bytes| <= s.reader
    ensures Sound(r) && Readable(r) == bytes + Readable(s)
  {
    s.(store := Overwritten(s.store, s.reader - |bytes|, bytes), reader := s.reader - |bytes|)
  }

  /** The low 32 bits of a length. */
  function Low32(n: nat): (r: nat)
    ensures r < 0x1_0000_0000 && r <= n && (n < 0x1_0000_0000 ==> r == n)
  {
    if n < 0x1_0000_0000 then n else Low32(n - 0x1_0000_0000)
  }

  lemma {:induction false} Low32IsTheRemainder(n: nat)
    ensures Low32(n) == n % 0x1_0000_0000
  {
    if n >= 0x1_0000_0000 {
      Low32IsTheRemainder(n - 0x1_0000_0000);
    }
  }

  /** The length that shrink copies: toStringPiece narrows readableBytes() to int, and append widens that to
      size_t again. */
  function ShrinkLength(readable: nat): nat {
    var low := Low32(readable);
    if low <= INT_MAX then low else low + (SIZE_MAX + 1 - 0x1_0000_0000)
  }

  /** Otherwise the length is that of a negative int, and append does not return. */
  predicate ShrinkReturns(s: State)
    requires Sound(s)
  {
    ShrinkLength(|Readable(s)|) <= |Readable(s)|
  }

  datatype ShrinkOutcome = Returned | Threw | AssertionFailed

  /** How shrink ends.  A length from -8 to -1 wraps in makeSpace, whose assertion fails; smaller ones make the
      vector throw, with the buffer as it was. */
  function OutcomeOfShrink(s: State): ShrinkOutcome
    requires Sound(s)
  {
    if ShrinkReturns(s) then Returned else if Fits(ShrinkLength(|Readable(s)|)) then Threw else AssertionFailed
  }

  function Shrunk(s: State, reserve: nat): (r: State)
    requires Sound(s) && Fits(|Readable(s)| + reserve) && ShrinkReturns(s)
    ensures Sound(r) && Readable(r) == Readable(s)[..ShrinkLength(|Readable(s)|)] && Writable(r) >= reserve
    ensures |r.store| == CHEAP_PREPEND + if |Readable(s)| + reserve < INITIAL_SIZE then INITIAL_SIZE else |Readable(s)| + reserve
  {
    Appended(Ensured(Fresh(INITIAL_SIZE), |Readable(s)| + reserve), Readable(s)[..ShrinkLength(|Readable(s)|)])
  }

  /** What readv can answer when it succeeds: no more than the two blocks it was given hold. */
  predicate CanRead(s: State, bytes: seq<byte>)
    requires Sound(s)
  {
    |bytes| <= Writable(s) + if Writable(s) < EXTRA_BUFFER then EXTRA_BUFFER else 0
  }

  function FdRead(s: State, bytes: seq<byte>): (r: State)
    requires Sound(s) && CanRead(s, bytes)
    ensures Sound(r) && Readable(r) == Readable(s) + bytes
  {
    if |bytes| <= Writable(s) then
      s.(store := Overwritten(s.store, s.writer, bytes), writer := s.writer + |bytes|)
    else
      var w := Writable(s);
      var full := s.(store := s.store[..s.writer] + bytes[..w], writer := |s.store|);
      assert Readable(full) == Readable(s) + bytes[..w];
      assert bytes == bytes[..w] + bytes[w..];
      Appended(full, bytes[w..])
  }

  // ---------- the assertion in makeSpace ----------

  /** makeSpace asserts kCheapPrepend < readerIndex_ before it compacts.  The assertion can fail for one
      family of requests only: those so long that adding kCheapPrepend wraps around. */
  lemma CompactionAssertion(s: State, len: nat)
    requires Sound(s) && |s.store| <= SIZE_MAX && Writable(s) < len <= SIZE_MAX
    ensures (!NeedsResize(s, len) ==> CHEAP_PREPEND < s.reader)
       <==> (Fits(len) || CHEAP_PREPEND < s.reader || Writable(s) + s.reader < len - (SIZE_MAX + 1 - CHEAP_PREPEND))
  {
    if Fits(len) {
      assert (len + CHEAP_PREPEND) % (SIZE_MAX + 1) == len + CHEAP_PREPEND;
    } else {
      assert (len + CHEAP_PREPEND) % (SIZE_MAX + 1) == len + CHEAP_PREPEND - (SIZE_MAX + 1);
    }
  }

  /** It does fail: a new buffer asked for SIZE_MAX - 7 bytes. */
  lemma CompactionAssertionFails()
    ensures var s, len := Fresh(INITIAL_SIZE), SIZE_MAX - 7;
            Writable(s) < len && !NeedsResize(s, len) && !(CHEAP_PREPEND < s.reader)
  {
    assert (SIZE_MAX - 7 + CHEAP_PREPEND) % (SIZE_MAX + 1) == 0;
  }

  // ---------- the narrowing in shrink ----------

  /** shrink returns and keeps the readable bytes exactly when their number is an int. */
  lemma ShrinkKeepsTheBytes(s: State, reserve: nat)
    requires Sound(s) && |s.store| <= VECTOR_MAX && Fits(|Readable(s)| + reserve)
    ensures OutcomeOfShrink(s) == Returned && Readable(Shrunk(s, reserve)) == Readable(s) <==> |Readable(s)| <= INT_MAX
  {
    if ShrinkReturns(s) && INT_MAX < |Readable(s)| {
      assert ShrinkLength(|Readable(s)|) < |Readable(s)|;
    }
  }

  /** How shrink ends depends on the low 32 bits of the number of readable bytes: it returns when they are an int
      that is not negative, an assertion fails when they are one from -8 to -1, and it throws when they are a
      smaller one. */
  lemma LowBitsDecide(s: State)
    requires Sound(s) && |s.store| <= VECTOR_MAX
    ensures var low := |Readable(s)| % 0x1_0000_0000;
            && (OutcomeOfShrink(s) == Returned <==> low <= INT_MAX)
            && (OutcomeOfShrink(s) == AssertionFailed <==> 0xFFFF_FFF8 <= low)
            && (OutcomeOfShrink(s) == Threw <==> INT_MAX < low < 0xFFFF_FFF8)
  {
    Low32IsTheRemainder(|Readable(s)|);
  }

  /** 2^32 + 5 readable bytes shrink to 5; with 2^31 of them shrink throws, and with 2^32 - 1 an assertion
      fails. */
  lemma ShrinkLosesBytes(s: State, reserve: nat)
    requires Sound(s) && Fits(|Readable(s)| + reserve)
    ensures |Readable(s)| == 0x1_0000_0005 ==> ShrinkReturns(s) && Readable(Shrunk(s, reserve)) == Readable(s)[..5]
    ensures |Readable(s)| == 0x8000_0000 ==> OutcomeOfShrink(s) == Threw
    ensures |Readable(s)| == 0xFFFF_FFFF ==> OutcomeOfShrink(s) == AssertionFailed
  {
  }

  /** Why it ends so: the new buffer has less room than append asks for, and makeSpace either asks the vector
      for more than it can hold, or finds nothing to compact. */
  lemma ShrinkEndsInMakeSpace(s: State, reserve: nat)
    requires Sound(s) && |s.store| <= VECTOR_MAX && |Readable(s)| + reserve <= VECTOR_MAX - CHEAP_PREPEND
    requires !ShrinkReturns(s)
    ensures var other := Ensured(Fresh(INITIAL_SIZE), |Readable(s)| + reserve);
            var len := ShrinkLength(|Readable(s)|);
            && Writable(other) < len <= SIZE_MAX
            && (OutcomeOfShrink(s) == Threw ==> NeedsResize(other, len) && VECTOR_MAX < other.writer + len <= SIZE_MAX)
            && (OutcomeOfShrink(s) == AssertionFailed ==> !NeedsResize(other, len) && !(CHEAP_PREPEND < other.reader))
  {
    var len := ShrinkLength(|Readable(s)|);
    if Fits(len) {
      assert (len + CHEAP_PREPEND) % (SIZE_MAX + 1) == len + CHEAP_PREPEND;
    } else {
      assert (len + CHEAP_PREPEND) % (SIZE_MAX + 1) == len + CHEAP_PREPEND - (SIZE_MAX + 1);
    }
  }

  // ---------- every run of operations ----------

  datatype Op =
    | Append(bytes: seq<byte>)
    | Retrieve(len: nat)
    | RetrieveAll
    | Unwrite(len: nat)
    | Prepend(bytes: seq<byte>)
    | Shrink(reserve: nat)
    | ReadFd(bytes: seq<byte>)
    | EnsureWritable(len: nat)

  /** What the operations assert of their callers. */
  ghost predicate Allowed(s: State, op: Op)
    requires Sound(s)
  {
    match op
    case Append(bytes) => Fits(|bytes|)
    case Retrieve(len) => len <= |Readable(s)|
    case RetrieveAll => true
    case Unwrite(len) => len <= |Readable(s)|
    case Prepend(bytes) => |bytes| <= s.reader
    case Shrink(reserve) => Fits(|Readable(s)| + reserve) && OutcomeOfShrink(s) != AssertionFailed
    case ReadFd(bytes) => CanRead(s, bytes)
    case EnsureWritable(len) => Fits(len)
  }

  ghost function Step(s: State, op: Op): State
    requires Sound(s) && Allowed(s, op)
  {
    match op
    case Append(bytes) => Appended(s, bytes)
    case Retrieve(len) => Retrieved(s, len)
    case RetrieveAll => Retrieved(s, |Readable(s)|)
    case Unwrite(len) => Unwritten(s, len)
    case Prepend(bytes) => Prepended(s, bytes)
    case Shrink(reserve) => if ShrinkReturns(s) then Shrunk(s, reserve) else s
    case ReadFd(bytes) => FdRead(s, bytes)
    case EnsureWritable(len) => Ensured(s, len)
  }

  /** The same operation on the bytes alone. */
  ghost function OnBytes(content: seq<byte>, op: Op): seq<byte> {
    match op
    case Append(bytes) => content + bytes
    case Retrieve(len) => if len <= |content| then content[len..] else content
    case RetrieveAll => []
    case Unwrite(len) => if len <= |content| then content[..|content| - len] else content
    case Prepend(bytes) => bytes + content
    case Shrink(_) => if ShrinkLength(|content|) <= |content| then content[..ShrinkLength(|content|)] else content
    case ReadFd(bytes) => content + bytes
    case EnsureWritable(_) => content
  }

  lemma StepRefines(s: State, op: Op)
    requires Sound(s) && Allowed(s, op)
    ensures var r := Step(s, op);
            && Sound(r)
            && Readable(r) == OnBytes(Readable(s), op)
            && (CHEAP_PREPEND <= s.reader && !op.Prepend? ==> CHEAP_PREPEND <= r.reader)
            && (op.EnsureWritable? ==> op.len <= Writable(r))
  {
  }

  ghost predicate AllowedRun(s: State, ops: seq<Op>)
    requires Sound(s)
    decreases |ops|
  {
    ops == [] || (Allowed(s, ops[0]) && (StepRefines(s, ops[0]); AllowedRun(Step(s, ops[0]), ops[1..])))
  }

  ghost function Run(s: State, ops: seq<Op>): (r: State)
    requires Sound(s) && AllowedRun(s, ops)
    ensures Sound(r)
    decreases |ops|
  {
    if ops == [] then s
    else
      StepRefines(s, ops[0]);
      Run(Step(s, ops[0]), ops[1..])
  }

  ghost function RunOnBytes(content: seq<byte>, ops: seq<Op>): seq<byte>
    decreases |ops|
  {
    if ops == [] then content else RunOnBytes(OnBytes(content, ops[0]), ops[1..])
  }

  /** Through every run of operations the buffer holds what a plain byte sequence would.  A shrink that throws
      leaves the buffer as it was. */
  lemma {:induction false} RefinesBytes(s: State, ops: seq<Op>)
    requires Sound(s) && AllowedRun(s, ops)
    ensures Readable(Run(s, ops)) == RunOnBytes(Readable(s), ops)
    decreases |ops|
  {
    if ops != [] {
      StepRefines(s, ops[0]);
      RefinesBytes(Step(s, ops[0]), ops[1..]);
    }
  }

  /** Only a prepend can take the prependable area below kCheapPrepend. */
  lemma {:induction false} OnlyPrependTakesTheArea(s: State, ops: seq<Op>)
    requires Sound(s) && AllowedRun(s, ops) && CHEAP_PREPEND <= s.reader && forall op :: op in ops ==> !op.Prepend?
    ensures CHEAP_PREPEND <= Run(s, ops).reader
    decreases |ops|
  {
    if ops != [] {
      StepRefines(s, ops[0]);
      assert ops[0] in ops && forall op :: op in ops[1..] ==> op in ops;
      OnlyPrependTakesTheArea(Step(s, ops[0]), ops[1..]);
    }
  }

  // ---------- how the array is used ----------

  /** When there is too little room behind the readable bytes, but enough together with what is free in front of
      them, they are moved to the front and the array stays as long as it is; when that is too little as well it
      grows to exactly what is needed, and nothing moves; when there is room nothing happens. */
  lemma GrowsOnlyWhenItMust(s: State, len: nat)
    requires Sound(s) && Fits(len)
    ensures var r, behind := Ensured(s, len), |s.store| - s.writer;
            && (len <= behind ==> r == s)
            && (behind < len && len + 8 <= behind + s.reader ==>
                  |r.store| == |s.store| && r.reader == 8 && r.writer == 8 + (s.writer - s.reader))
            && (behind < len && behind + s.reader < len + 8 ==>
                  |r.store| == s.writer + len && r.reader == s.reader && r.writer == s.writer)
  {
    assert (len + CHEAP_PREPEND) % (SIZE_MAX + 1) == len + CHEAP_PREPEND;
  }

  /** Taking out some of the readable bytes moves the reading index only; taking out all of them makes the whole
      array but for the prependable area writable again. */
  lemma EmptyStartsOver(s: State, len: nat)
    requires Sound(s) && len <= |Readable(s)|
    ensures var r := Retrieved(s, len);
            && r.store == s.store
            && (len < s.writer - s.reader ==> r.reader == s.reader + len && r.writer == s.writer)
            && (len == s.writer - s.reader ==> r.reader == 8 && r.writer == 8)
  {
  }

  predicate PassesThrough(op: Op) {
    op.Append? || op.ReadFd? || op.Retrieve? || op.RetrieveAll? || op.Unwrite?
  }

  /** There are never more than `most` readable bytes. */
  ghost predicate AtMost(s: State, ops: seq<Op>, most: nat)
    requires Sound(s) && AllowedRun(s, ops)
    decreases |ops|
  {
    |Readable(s)| <= most && (ops != [] ==> (StepRefines(s, ops[0]); AtMost(Step(s, ops[0]), ops[1..], most)))
  }

  lemma StepStaysSmall(s: State, op: Op, most: nat)
    requires Sound(s) && Allowed(s, op) && PassesThrough(op)
    requires |Readable(s)| <= most && Sound(Step(s, op)) && |Readable(Step(s, op))| <= most
    ensures |Step(s, op).store| <= |s.store| || |Step(s, op).store| < 2 * most + 8
  {
    match op
    case Append(bytes) => GrowsOnlyWhenItMust(s, |bytes|);
    case ReadFd(bytes) =>
      if Writable(s) < |bytes| {
        var w := Writable(s);
        GrowsOnlyWhenItMust(s.(store := s.store[..s.writer] + bytes[..w], writer := |s.store|), |bytes| - w);
      }
    case _ =>
  }

  /** However many bytes pass through the buffer, when it never holds more than `most` at a time its array does
      not become longer than twice that and the prependable area, unless it was longer before. */
  lemma {:induction false} StreamStaysSmall(s: State, ops: seq<Op>, most: nat)
    requires Sound(s) && AllowedRun(s, ops) && AtMost(s, ops, most) && forall op :: op in ops ==> PassesThrough(op)
    ensures |Run(s, ops).store| <= |s.store| || |Run(s, ops).store| < 2 * most + 8
    decreases |ops|
  {
    if ops != [] {
      StepRefines(s, ops[0]);
      assert ops[0] in ops && forall op :: op in ops[1..] ==> op in ops;
      StepStaysSmall(s, ops[0], most);
      StreamStaysSmall(Step(s, ops[0]), ops[1..], most);
    }
  }

  // ---------- integers ----------

  /** appendIntN for each of `xs` in turn, each with its own growth or compaction. */
  ghost function AppendedAll(s: State, xs: seq<Typed>): (r: State)
    requires Sound(s) && AllHold(xs)
    ensures Sound(r)
    decreases |xs|
  {
    if xs == [] then s else AppendedAll(Appended(s, Encode(xs[0].width, xs[0].value)), xs[1..])
  }

  /** readIntN for each of `widths` in turn, as far as there are bytes: the integers, and the buffer left. */
  function ReadAll(s: State, widths: seq<Width>): (seq<Typed>, State)
    requires Sound(s)
    decreases |widths|
  {
    if widths == [] || |Readable(s)| < widths[0].Size() then ([], s)
    else
      var n := widths[0].Size();
      var (xs, r) := ReadAll(Retrieved(s, n), widths[1..]);
      ([Typed(widths[0], Decode(widths[0], Readable(s)[..n]))] + xs, r)
  }

  lemma Regroup(a: seq<byte>, b: seq<byte>, c: seq<byte>)
    ensures (a + b) + c == a + (b + c)
  {
  }

  lemma {:induction false} AppendsAddTheEncoding(s: State, xs: seq<Typed>)
    requires Sound(s) && AllHold(xs)
    ensures Readable(AppendedAll(s, xs)) == Readable(s) + EncodeAll(xs)
    decreases |xs|
  {
    if xs == [] {
      assert Readable(s) + [] == Readable(s);
    } else {
      var head := Encode(xs[0].width, xs[0].value);
      AppendsAddTheEncoding(Appended(s, head), xs[1..]);
      Regroup(Readable(s), head, EncodeAll(xs[1..]));
    }
  }

  lemma {:induction false} ReadsDecode(s: State, widths: seq<Width>)
    requires Sound(s)
    ensures ReadAll(s, widths).0 == DecodeAll(widths, Readable(s)).0
    ensures Sound(ReadAll(s, widths).1) && Readable(ReadAll(s, widths).1) == DecodeAll(widths, Readable(s)).1
    decreases |widths|
  {
    if widths != [] && widths[0].Size() <= |Readable(s)| {
      ReadsDecode(Retrieved(s, widths[0].Size()), widths[1..]);
    }
  }

  /** Integers appended one by one, of any widths, come back one by one when what was readable before has
      been retrieved; and nothing is left. */
  lemma AppendedIntegersReadBack(s: State, xs: seq<Typed>)
    requires Sound(s) && AllHold(xs)
    ensures var r := AppendedAll(s, xs);
            && |Readable(s)| <= |Readable(r)| && Readable(r)[..|Readable(s)|] == Readable(s)
            && var (ys, t) := ReadAll(Retrieved(r, |Readable(s)|), WidthsOf(xs));
               ys == xs && Sound(t) && Readable(t) == []
  {
    var r := AppendedAll(s, xs);
    AppendsAddTheEncoding(s, xs);
    var t := Retrieved(r, |Readable(s)|);
    assert Readable(t) == EncodeAll(xs) + [];
    ReadsDecode(t, WidthsOf(xs));
    MixedListRoundTrip(xs, []);
  }

  lemma SliceOfSlice(s: seq<byte>, i: nat, j: nat, k: nat)
    requires i + k <= j <= |s|
    ensures s[i..j][..k] == s[i..i + k]
  {
  }

  lemma TakeAndDrop(a: seq<byte>, b: seq<byte>)
    ensures (a + b)[..|a|] == a && (a + b)[|a|..] == b
  {
  }

  /** Reading a prepended integer gives it back and leaves the readable bytes as they were; the indexes
      too, unless nothing else was readable, when reading resets them. */
  lemma PrependedIntegerReadsBack(s: State, w: Width, x: int)
    requires Sound(s) && w.Holds(x) && w.Size() <= s.reader
    ensures var p := Prepended(s, Encode(w, x));
            var r := Retrieved(p, w.Size());
            && Decode(w, Readable(p)[..w.Size()]) == x
            && Sound(p) && Readable(r) == Readable(s)
            && (Readable(s) != [] ==> r.reader == s.reader && r.writer == s.writer)
  {
    DecodesWhatWasEncoded(w, x);
    TakeAndDrop(Encode(w, x), Readable(s));
  }

  // ---------- searching ----------

  const CR: byte := 13
  const LF: byte := 10

  ghost predicate CrlfAt(bytes: seq<byte>, i: int) {
    0 <= i && i + 1 < |bytes| && bytes[i] == CR && bytes[i + 1] == LF
  }

  // ---------- the class ----------

  /** The first `i` bytes from `reader` on have been moved to kCheapPrepend. */
  ghost function Moved(was: seq<byte>, reader: nat, i: nat): (r: seq<byte>)
    requires CHEAP_PREPEND < reader && reader + i <= |was|
    ensures |r| == |was|
  {
    Overwritten(was, CHEAP_PREPEND, was[reader..reader + i])
  }

  lemma MovedNone(was: seq<byte>, reader: nat)
    requires CHEAP_PREPEND < reader <= |was|
    ensures Moved(was, reader, 0) == was
  {
  }

  /** Moving the next byte: it is still where it was, since the copy goes down. */
  lemma MovedOne(was: seq<byte>, reader: nat, i: nat)
    requires CHEAP_PREPEND < reader && reader + i < |was|
    ensures Moved(was, reader, i)[CHEAP_PREPEND + i := Moved(was, reader, i)[reader + i]] == Moved(was, reader, i + 1)
  {
  }

  class Buffer {
    var data: array<byte>
    var reader: nat
    var writer: nat

    ghost function Model(): State
      reads this, data
    {
      State(data[..], reader, writer)
    }

    ghost predicate Valid()
      reads this, data
    {
      Sound(Model())
    }

    constructor (initialSize: nat)
      ensures Valid() && Model() == Fresh(initialSize) && fresh(data)
    {
      data := new byte[CHEAP_PREPEND + initialSize](_ => 0);
      reader, writer := CHEAP_PREPEND, CHEAP_PREPEND;
    }

    method Swap(rhs: Buffer)
      modifies this, rhs
      ensures Model() == old(rhs.Model()) && rhs.Model() == old(Model())
      ensures data == old(rhs.data) && rhs.data == old(data)
    {
      data, rhs.data := rhs.data, data;
      reader, rhs.reader := rhs.reader, reader;
      writer, rhs.writer := rhs.writer, writer;
    }

    method RetrieveAll()
      requires Valid()
      modifies this`reader, this`writer
      ensures Valid() && Model() == Retrieved(old(Model()), old(writer - reader))
    {
      reader, writer := CHEAP_PREPEND, CHEAP_PREPEND;
    }

    method Retrieve(len: nat)
      requires Valid() && len <= writer - reader
      modifies this`reader, this`writer
      ensures Valid() && Model() == Retrieved(old(Model()), len)
    {
      if len < writer - reader {
        reader := reader + len;
      } else {
        RetrieveAll();
      }
    }

    method RetrieveAsString(len: nat) returns (s: seq<byte>)
      requires Valid() && len <= writer - reader
      modifies this`reader, this`writer
      ensures s == Readable(old(Model()))[..len]
      ensures Valid() && Model() == Retrieved(old(Model()), len)
    {
      s := data[reader..reader + len];
      Retrieve(len);
    }

    method Unwrite(len: nat)
      requires Valid() && len <= writer - reader
      modifies this`writer
      ensures Valid() && Model() == Unwritten(old(Model()), len)
    {
      writer := writer - len;
    }

    /** std::copy of `bytes` to position `at`. */
    method Write(at: nat, bytes: seq<byte>)
      requires at + |bytes| <= data.Length
      modifies data
      ensures data[..] == Overwritten(old(data[..]), at, bytes)
    {
      forall i | 0 <= i < |bytes| {
        data[at + i] := bytes[i];
      }
    }

    method Set(at: nat, x: byte)
      requires at < data.Length
      modifies data
      ensures data[..] == old(data[..])[at := x]
    {
      data[at] := x;
    }

    /** std::copy of [reader, writer) to kCheapPrepend: front to back, over itself. */
    method MoveDown(readable: nat)
      requires CHEAP_PREPEND < reader && reader + readable <= data.Length
      modifies data
      ensures data[..] == Overwritten(old(data[..]), CHEAP_PREPEND, old(data[..])[reader..reader + readable])
    {
      ghost var was := data[..];
      MovedNone(was, reader);
      var i := 0;
      while i < readable
        invariant 0 <= i <= readable
        invariant data[..] == Moved(was, reader, i)
      {
        MovedOne(was, reader, i);
        Set(CHEAP_PREPEND + i, data[reader + i]);
        i := i + 1;
      }
    }

    /** The second branch of makeSpace. */
    method Compact()
      requires Valid() && CHEAP_PREPEND < reader
      modifies this`reader, this`writer, data
      ensures data == old(data) && reader == CHEAP_PREPEND && writer == CHEAP_PREPEND + old(writer - reader)
      ensures data[..] == Overwritten(old(data[..]), CHEAP_PREPEND, Readable(old(Model())))
    {
      var readable := writer - reader;
      MoveDown(readable);
      reader := CHEAP_PREPEND;
      writer := reader + readable;
    }

    /** vector::resize to a greater size. */
    method Grow(size: nat)
      requires data.Length <= size
      modifies this`data
      ensures fresh(data) && data[..] == old(data[..]) + Zeros(size - old(data.Length))
    {
      var larger := new byte[size](_ => 0);
      forall i | 0 <= i < data.Length {
        larger[i] := data[i];
      }
      data := larger;
    }

    method MakeSpace(len: nat)
      requires Valid() && Fits(len) && data.Length - writer < len
      modifies this, data
      ensures Valid() && Model() == SpaceMade(old(Model()), len)
      ensures len + 8 <= old(data.Length - writer + reader) ==> data == old(data) && reader == 8 && writer == 8 + old(writer - reader)
      ensures old(data.Length - writer + reader) < len + 8 ==> fresh(data) && data.Length == old(writer) + len && reader == old(reader)
    {
      if data.Length - writer + reader < (len + CHEAP_PREPEND) % (SIZE_MAX + 1) {
        Grow(writer + len);
      } else {
        assert CHEAP_PREPEND < reader;
        Compact();
      }
    }

    method EnsureWritableBytes(len: nat)
      requires Valid() && Fits(len)
      modifies this, data
      ensures Valid() && Model() == Ensured(old(Model()), len)
      ensures data == old(data) || fresh(data)
    {
      if data.Length - writer < len {
        MakeSpace(len);
      }
      assert len <= data.Length - writer;
    }

    method Append(bytes: seq<byte>)
      requires Valid() && Fits(|bytes|)
      modifies this, data
      ensures Valid() && Model() == Appended(old(Model()), bytes)
      ensures data == old(data) || fresh(data)
    {
      EnsureWritableBytes(|bytes|);
      Write(writer, bytes);
      writer := writer + |bytes|;
    }

    method Prepend(bytes: seq<byte>)
      requires Valid() && |bytes| <= reader
      modifies this`reader, data
      ensures Valid() && Model() == Prepended(old(Model()), bytes)
    {
      reader := reader - |bytes|;
      Write(reader, bytes);
    }

    /** When it does not return, the buffer is still as it was. */
    method Shrink(reserve: nat) returns (outcome: ShrinkOutcome)
      requires Valid() && Fits(writer - reader + reserve)
      modifies this
      ensures Valid() && outcome == OutcomeOfShrink(old(Model()))
      ensures Model() == if outcome.Returned? then Shrunk(old(Model()), reserve) else old(Model())
      ensures outcome.Returned? ==> fresh(data)
    {
      assert |Readable(Model())| == writer - reader;
      var len := ShrinkLength(writer - reader);
      if len <= writer - reader {
        ReplaceByCopy(len, writer - reader + reserve);
        outcome := Returned;
      } else {
        outcome := if Fits(len) then Threw else AssertionFailed;
      }
    }

    /** `other` with the first `len` bytes, and the swap. */
    method ReplaceByCopy(len: nat, size: nat)
      requires Valid() && len <= writer - reader <= size && Fits(size)
      modifies this
      ensures Valid() && fresh(data)
      ensures Model() == Appended(Ensured(Fresh(INITIAL_SIZE), size), Readable(old(Model()))[..len])
    {
      ghost var s := Model();
      SliceOfSlice(data[..], reader, writer, len);
      var bytes := data[reader..reader + len];
      assert bytes == data[..][reader..reader + len] == Readable(s)[..len];
      var other := Copy(size, bytes);
      Swap(other);
    }

    /** A new buffer with room for `size` bytes, and `bytes` in it. */
    method Copy(size: nat, bytes: seq<byte>) returns (other: Buffer)
      requires |bytes| <= size && Fits(size)
      ensures fresh(other) && fresh(other.data) && other.Valid()
      ensures other.Model() == Appended(Ensured(Fresh(INITIAL_SIZE), size), bytes)
    {
      other := new Buffer(INITIAL_SIZE);
      other.EnsureWritableBytes(size);
      other.Append(bytes);
    }

    method AppendInt(host: Host, w: Width, x: int)
      requires Valid() && w.Holds(x)
      modifies this, data
      ensures Valid() && Model() == Appended(old(Model()), Encode(w, x))
      ensures data == old(data) || fresh(data)
    {
      var be := HostToNetwork(host, ToUnsigned(w, x), w.Size());
      WireImage(host, ToUnsigned(w, x), w.Size());
      Append(Stored(host, be, w.Size()));
    }

    method PrependInt(host: Host, w: Width, x: int)
      requires Valid() && w.Holds(x) && w.Size() <= reader
      modifies this`reader, data
      ensures Valid() && Model() == Prepended(old(Model()), Encode(w, x))
    {
      var be := HostToNetwork(host, ToUnsigned(w, x), w.Size());
      WireImage(host, ToUnsigned(w, x), w.Size());
      Prepend(Stored(host, be, w.Size()));
    }

    method PeekInt(host: Host, w: Width) returns (x: int)
      requires Valid() && w.Size() <= writer - reader
      ensures x == Decode(w, Readable(Model())[..w.Size()])
    {
      var bytes := data[reader..reader + w.Size()];
      SliceOfSlice(data[..], reader, writer, w.Size());
      assert bytes == data[..][reader..reader + w.Size()];
      BigEndianEncodes(bytes);
      WireImage(host, FromBigEndian(bytes), w.Size());
      x := ToSigned(w, NetworkToHost(host, Loaded(host, bytes), w.Size()));
    }

    method ReadInt(host: Host, w: Width) returns (x: int)
      requires Valid() && w.Size() <= writer - reader
      modifies this`reader, this`writer
      ensures x == Decode(w, Readable(old(Model()))[..w.Size()])
      ensures Valid() && Model() == Retrieved(old(Model()), w.Size())
    {
      x := PeekInt(host, w);
      Retrieve(w.Size());
    }

    /** findCRLF from readable position `start`: the first "\r\n" there or later. */
    method FindCRLF(start: nat) returns (found: Option<nat>)
      requires Valid() && start <= writer - reader
      ensures var r := Readable(Model());
              match found
              case Some(i) => start <= i && CrlfAt(r, i) && forall k :: start <= k < i ==> !CrlfAt(r, k)
              case None => forall k :: start <= k ==> !CrlfAt(r, k)
    {
      var i := start;
      while i + 1 < writer - reader
        invariant start <= i <= writer - reader
        invariant forall k :: start <= k < i ==> !CrlfAt(Readable(Model()), k)
      {
        if data[reader + i] == CR && data[reader + i + 1] == LF {
          assert CrlfAt(Readable(Model()), i);
          return Some(i);
        }
        i := i + 1;
      }
      return None;
    }

    /** findEOL from readable position `start`. */
    method FindEOL(start: nat) returns (found: Option<nat>)
      requires Valid() && start <= writer - reader
      ensures var r := Readable(Model());
              match found
              case Some(i) => start <= i < |r| && r[i] == LF && LF !in r[start..i]
              case None => LF !in r[start..]
    {
      var i := start;
      while i < writer - reader
        invariant start <= i <= writer - reader
        invariant forall k :: start <= k < i ==> Readable(Model())[k] != LF
      {
        if data[reader + i] == LF {
          return Some(i);
        }
        i := i + 1;
      }
      return None;
    }

    /** `result` is what readv does: None is -1, Some(bytes) are the bytes it scatters. */
    method ReadFd(result: Option<seq<byte>>) returns (n: int)
      requires Valid() && (result.Some? ==> CanRead(Model(), result.value))
      modifies this, data
      ensures Valid()
      ensures result.None? ==> n == -1 && Model() == old(Model())
      ensures result.Some? ==> n == |result.value| && Model() == FdRead(old(Model()), result.value)
      ensures data == old(data) || fresh(data)
    {
      var writable := data.Length - writer;
      if result.None? {
        return -1;
      }
      n := |result.value|;
      var first := if n <= writable then result.value else result.value[..writable];
      var extra := result.value[|first|..];
      Write(writer, first);
      if n <= writable {
        writer := writer + n;
      } else {
        writer := data.Length;
        assert data[..] == old(data[..])[..old(writer)] + first;
        Append(extra);
      }
    }
  }
}
