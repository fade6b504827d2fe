/**
 net/Endian.h and the integer forms of net/Buffer.h: what the bytes of an integer look like in the
 memory of the host, and on the wire, where the most significant byte comes first
 (Appendix B of RFC 791).
 */
module Endian {
  type byte = b: int | 0 <= b < 256

  datatype Host = LittleEndianHost | BigEndianHost

  function Power256(n: nat): (r: nat)
    ensures 0 < r
  {
    if n == 0 then 1 else 256 * Power256(n - 1)
  }

  function BigEndian(u: nat, n: nat): (r: seq<byte>)
    ensures |r| == n
  {
    if n == 0 then [] else BigEndian(u / 256, n - 1) + [u % 256]
  }

  function LittleEndian(u: nat, n: nat): (r: seq<byte>)
    ensures |r| == n
  {
    if n == 0 then [] else [u % 256] + LittleEndian(u / 256, n - 1)
  }

  function FromBigEndian(bytes: seq<byte>): nat {
    if bytes == [] then 0
    else FromBigEndian(bytes[..|bytes| - 1]) * 256 + bytes[|bytes| - 1]
  }

  function FromLittleEndian(bytes: seq<byte>): nat {
    if bytes == [] then 0 else bytes[0] + 256 * FromLittleEndian(bytes[1..])
  }

  function Reverse(bytes: seq<byte>): (r: seq<byte>)
    ensures |r| == |bytes|
  {
    if bytes == [] then [] else Reverse(bytes[1..]) + [bytes[0]]
  }

  /** The memory image of an n-byte unsigned integer, and the integer of a memory image. */
  function Stored(host: Host, u: nat, n: nat): (r: seq<byte>)
    ensures |r| == n
  {
    if host.LittleEndianHost? then LittleEndian(u, n) else BigEndian(u, n)
  }

  function Loaded(host: Host, bytes: seq<byte>): nat {
    if host.LittleEndianHost? then FromLittleEndian(bytes) else FromBigEndian(bytes)
  }

  /** bswap: the integer whose memory image is reversed. */
  function ByteSwap(u: nat, n: nat): nat {
    FromLittleEndian(Reverse(LittleEndian(u, n)))
  }

  /** htobe16, htobe32, htobe64, and their inverses. */
  function HostToNetwork(host: Host, u: nat, n: nat): nat {
    if host.LittleEndianHost? then ByteSwap(u, n) else u
  }

  function NetworkToHost(host: Host, u: nat, n: nat): nat {
    if host.LittleEndianHost? then ByteSwap(u, n) else u
  }

  lemma {:induction false} ReverseAppend(a: seq<byte>, x: byte)
    ensures Reverse(a + [x]) == [x] + Reverse(a)
  {
    if a == [] {
      assert a + [x] == [x];
      assert [x][1..] == [];
      assert Reverse([x]) == Reverse([]) + [x];
    } else {
      assert (a + [x])[1..] == a[1..] + [x];
      ReverseAppend(a[1..], x);
    }
  }

  lemma {:induction false} BigEndianIsReversed(u: nat, n: nat)
    ensures BigEndian(u, n) == Reverse(LittleEndian(u, n))
  {
    if n > 0 {
      BigEndianIsReversed(u / 256, n - 1);
      assert LittleEndian(u, n)[1..] == LittleEndian(u / 256, n - 1);
    }
  }

  lemma {:induction false} ReverseTwice(a: seq<byte>)
    ensures Reverse(Reverse(a)) == a
  {
    if a != [] {
      ReverseAppend(Reverse(a[1..]), a[0]);
      ReverseTwice(a[1..]);
    }
  }

  lemma {:induction false} LittleEndianDecodes(u: nat, n: nat)
    requires u < Power256(n)
    ensures FromLittleEndian(LittleEndian(u, n)) == u
  {
    if n > 0 {
      assert u / 256 < Power256(n - 1);
      LittleEndianDecodes(u / 256, n - 1);
      assert LittleEndian(u, n)[1..] == LittleEndian(u / 256, n - 1);
    }
  }

  lemma {:induction false} LittleEndianEncodes(bytes: seq<byte>)
    ensures FromLittleEndian(bytes) < Power256(|bytes|)
    ensures LittleEndian(FromLittleEndian(bytes), |bytes|) == bytes
  {
    if bytes != [] {
      LittleEndianEncodes(bytes[1..]);
      assert FromLittleEndian(bytes) / 256 == FromLittleEndian(bytes[1..]);
      assert FromLittleEndian(bytes) % 256 == bytes[0];
    }
  }

  lemma {:induction false} BigEndianDecodes(u: nat, n: nat)
    requires u < Power256(n)
    ensures FromBigEndian(BigEndian(u, n)) == u
  {
    if n > 0 {
      assert u / 256 < Power256(n - 1);
      BigEndianDecodes(u / 256, n - 1);
      assert BigEndian(u, n)[..n - 1] == BigEndian(u / 256, n - 1);
    }
  }

  lemma {:induction false} BigEndianEncodes(bytes: seq<byte>)
    ensures FromBigEndian(bytes) < Power256(|bytes|)
    ensures BigEndian(FromBigEndian(bytes), |bytes|) == bytes
  {
    if bytes != [] {
      var front := bytes[..|bytes| - 1];
      BigEndianEncodes(front);
      assert FromBigEndian(bytes) / 256 == FromBigEndian(front);
      assert bytes == front + [bytes[|bytes| - 1]];
    }
  }

  /** Byte k of the wire image has weight 256^(n-1-k). */
  lemma {:induction false} MostSignificantFirst(u: nat, n: nat, k: nat)
    requires k < n
    ensures BigEndian(u, n)[k] == u / Power256(n - 1 - k) % 256
  {
    if k < n - 1 {
      MostSignificantFirst(u / 256, n - 1, k);
      var m := Power256(n - 2 - k);
      assert Power256(n - 1 - k) == 256 * m;
      DivideTwice(u, m);
    }
  }

  lemma DivideTwice(u: nat, m: nat)
    requires 0 < m
    ensures u / 256 / m == u / (256 * m)
  {
    var q := u / 256 / m;
    var r := u / 256 % m;
    assert u / 256 == q * m + r;
    assert u == 256 * (q * m + r) + u % 256;
    assert u == (256 * m) * q + (256 * r + u % 256);
    assert 256 * r + u % 256 < 256 * m;
    QuotientIsUnique(u, 256 * m, q, 256 * r + u % 256);
  }

  lemma QuotientIsUnique(u: nat, d: nat, q: nat, r: nat)
    requires 0 < d && u == d * q + r && r < d
    ensures u / d == q
  {
    var q' := u / d;
    assert u == d * q' + u % d;
    assert q' < q ==> d * (q' + 1) <= d * q;
    assert q < q' ==> d * (q + 1) <= d * q';
  }

  /** On either kind of host, storing hostToNetwork(u) puts the most significant byte first, and
      networkToHost of what was loaded from such bytes is the integer again. */
  lemma WireImage(host: Host, u: nat, n: nat)
    requires u < Power256(n)
    ensures Stored(host, HostToNetwork(host, u, n), n) == BigEndian(u, n)
    ensures NetworkToHost(host, Loaded(host, BigEndian(u, n)), n) == u
  {
    if host.LittleEndianHost? {
      var image := LittleEndian(u, n);
      BigEndianIsReversed(u, n);
      LittleEndianEncodes(Reverse(image));
      LittleEndianDecodes(u, n);
      ReverseTwice(image);
    } else {
      BigEndianDecodes(u, n);
    }
  }

  // ---------- signed integers of 1, 2, 4 and 8 bytes ----------

  datatype Width = Int8 | Int16 | Int32 | Int64
  {
    function Size(): (n: nat)
      ensures n == 1 || n == 2 || n == 4 || n == 8
    {
      match this case Int8 => 1 case Int16 => 2 case Int32 => 4 case Int64 => 8
    }

    /** The range of the type: two's complement. */
    predicate Holds(x: int) {
      0 - Power256(Size()) <= 2 * x < Power256(Size())
    }
  }

  /** The conversions between intN_t and uintN_t. */
  function ToUnsigned(w: Width, x: int): (u: nat)
    requires w.Holds(x)
    ensures u < Power256(w.Size())
  {
    if x < 0 then x + Power256(w.Size()) else x
  }

  function ToSigned(w: Width, u: nat): int {
    if 2 * u < Power256(w.Size()) then u else u - Power256(w.Size())
  }

  function Encode(w: Width, x: int): (r: seq<byte>)
    requires w.Holds(x)
    ensures |r| == w.Size()
  {
    BigEndian(ToUnsigned(w, x), w.Size())
  }

  function Decode(w: Width, bytes: seq<byte>): int
    requires |bytes| == w.Size()
  {
    ToSigned(w, FromBigEndian(bytes))
  }

  lemma DecodesWhatWasEncoded(w: Width, x: int)
    requires w.Holds(x)
    ensures Decode(w, Encode(w, x)) == x
  {
    BigEndianDecodes(ToUnsigned(w, x), w.Size());
  }

  // ---------- mixed lists of integers ----------

  datatype Typed = Typed(width: Width, value: int)

  ghost predicate AllHold(xs: seq<Typed>) {
    forall i :: 0 <= i < |xs| ==> xs[i].width.Holds(xs[i].value)
  }

  ghost function EncodeAll(xs: seq<Typed>): seq<byte>
    requires AllHold(xs)
  {
    if xs == [] then [] else Encode(xs[0].width, xs[0].value) + EncodeAll(xs[1..])
  }

  /** Reads one integer of each width in turn: the integers and the bytes left over. */
  function DecodeAll(widths: seq<Width>, bytes: seq<byte>): (seq<Typed>, seq<byte>) {
    if widths == [] || |bytes| < widths[0].Size() then ([], bytes)
    else
      var n := widths[0].Size();
      var (xs, rest) := DecodeAll(widths[1..], bytes[n..]);
      ([Typed(widths[0], Decode(widths[0], bytes[..n]))] + xs, rest)
  }

  function WidthsOf(xs: seq<Typed>): (r: seq<Width>)
    ensures |r| == |xs|
  {
    if xs == [] then [] else [xs[0].width] + WidthsOf(xs[1..])
  }

  /** Reading the first integer. */
  lemma OneInteger(x: Typed, widths: seq<Width>, rest: seq<byte>)
    requires x.width.Holds(x.value)
    ensures DecodeAll([x.width] + widths, Encode(x.width, x.value) + rest) ==
            ([x] + DecodeAll(widths, rest).0, DecodeAll(widths, rest).1)
  {
    var all := Encode(x.width, x.value) + rest;
    DecodesWhatWasEncoded(x.width, x.value);
    assert all[..x.width.Size()] == Encode(x.width, x.value) && all[x.width.Size()..] == rest;
    assert ([x.width] + widths)[1..] == widths;
  }

  lemma {:induction false} MixedListRoundTrip(xs: seq<Typed>, rest: seq<byte>)
    requires AllHold(xs)
    ensures DecodeAll(WidthsOf(xs), EncodeAll(xs) + rest) == (xs, rest)
  {
    if xs == [] {
      assert EncodeAll(xs) + rest == rest;
    } else {
      var head, tail := Encode(xs[0].width, xs[0].value), EncodeAll(xs[1..]) + rest;
      assert EncodeAll(xs) + rest == head + tail;
      OneInteger(xs[0], WidthsOf(xs[1..]), tail);
      MixedListRoundTrip(xs[1..], rest);
      assert [xs[0]] + xs[1..] == xs;
    }
  }
}
