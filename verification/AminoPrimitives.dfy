/** Varints, zigzag, fixed-width integers and length-prefixed bytes. */
module AminoPrimitives {

  type Byte = b: int | 0 <= b < 0x100

  datatype Option<+T> = None | Some(value: T)

  const TWO_8: int := 0x100
  const TWO_16: int := 0x1_0000
  const TWO_31: int := 0x8000_0000
  const TWO_32: int := 0x1_0000_0000
  const TWO_63: int := 0x8000_0000_0000_0000
  const TWO_64: int := 0x1_0000_0000_0000_0000

  lemma CatAssoc(a: seq<Byte>, b: seq<Byte>, c: seq<Byte>)
    ensures a + b + c == a + (b + c)
  {
  }

  // ---------------------------------------------------------------- base-128 varints

  /** Seven bits a byte, least significant first, with a continuation bit. */
  function PutUvarint(u: nat): (r: seq<Byte>)
    ensures |r| >= 1
  {
    if u < 0x80 then [u] else [u % 0x80 + 0x80] + PutUvarint(u / 0x80)
  }

  /** The bits a varint has left from its byte `i` on: 64 in all. */
  function Room(i: nat): nat
    requires i <= 9
    decreases 9 - i
  {
    if i == 9 then 2 else 0x80 * Room(i + 1)
  }

  lemma RoomIs64Bits()
    ensures Room(0) == TWO_64
  {
    assert Room(8) == 0x100;
    assert Room(7) == 0x8000;
    assert Room(6) == 0x40_0000;
    assert Room(5) == 0x2000_0000;
    assert Room(4) == 0x10_0000_0000;
    assert Room(3) == 0x800_0000_0000;
    assert Room(2) == 0x4_0000_0000_0000;
    assert Room(1) == 0x200_0000_0000_0000;
  }

  /** A 64-bit varint and its length; None when the bytes end early or overflow. */
  function Uvarint(bz: seq<Byte>): (r: Option<(nat, nat)>)
    ensures r.Some? ==> r.value.0 < TWO_64 && 1 <= r.value.1 <= |bz|
  {
    RoomIs64Bits();
    UvarintFrom(bz, 0)
  }

  function UvarintFrom(bz: seq<Byte>, i: nat): (r: Option<(nat, nat)>)
    requires i <= 9
    ensures r.Some? ==> r.value.0 < Room(i) && 1 <= r.value.1 <= |bz|
    decreases 9 - i
  {
    if bz == [] then None
    else if bz[0] < 0x80 then
      if i == 9 && bz[0] > 1 then None
      else
        RoomAtLeast(i);
        Some((bz[0], 1))
    else if i == 9 then None
    else match UvarintFrom(bz[1..], i + 1)
      case None => None
      case Some((u, n)) => Some((bz[0] - 0x80 + 0x80 * u, n + 1))
  }

  lemma RoomAtLeast(i: nat)
    requires i <= 9
    ensures Room(i) >= 2 && (i < 9 ==> Room(i) >= 0x100)
    decreases 9 - i
  {
    if i < 9 {
      RoomAtLeast(i + 1);
    }
  }

  lemma {:induction false} UvarintFromPut(u: nat, i: nat, rest: seq<Byte>)
    requires i <= 9 && u < Room(i)
    ensures UvarintFrom(PutUvarint(u) + rest, i) == Some((u, |PutUvarint(u)|))
    decreases 9 - i
  {
    var bz := PutUvarint(u) + rest;
    if u >= 0x80 {
      assert i < 9;
      UvarintFromPut(u / 0x80, i + 1, rest);
      assert bz[1..] == PutUvarint(u / 0x80) + rest;
    }
  }

  /** Reading back what was written, whatever follows it. */
  lemma UvarintRoundTrip(u: nat, rest: seq<Byte>)
    requires u < TWO_64
    ensures Uvarint(PutUvarint(u) + rest) == Some((u, |PutUvarint(u)|))
  {
    RoomIs64Bits();
    UvarintFromPut(u, 0, rest);
  }

  /** A varint read takes at least as many bytes as writing its value would. */
  lemma {:induction false} PutIsShortest(bz: seq<Byte>, i: nat)
    requires i <= 9 && UvarintFrom(bz, i).Some?
    ensures |PutUvarint(UvarintFrom(bz, i).value.0)| <= UvarintFrom(bz, i).value.1
    decreases 9 - i
  {
    if bz[0] >= 0x80 {
      PutIsShortest(bz[1..], i + 1);
      var u := UvarintFrom(bz[1..], i + 1).value.0;
      var v := bz[0] - 0x80 + 0x80 * u;
      if v >= 0x80 {
        assert v / 0x80 == u;
      }
    }
  }

  /** bits.Len64. */
  function BitLen(u: nat): nat {
    if u == 0 then 0 else 1 + BitLen(u / 2)
  }

  function UvarintSize(u: nat): nat {
    if u == 0 then 1 else (BitLen(u) + 6) / 7
  }

  lemma BitLenShift7(u: nat)
    requires u >= 0x80
    ensures BitLen(u) == BitLen(u / 0x80) + 7
  {
    var u1 := u / 2;
    var u2 := u1 / 2;
    var u3 := u2 / 2;
    var u4 := u3 / 2;
    var u5 := u4 / 2;
    var u6 := u5 / 2;
    assert BitLen(u) == 1 + BitLen(u1) && BitLen(u1) == 1 + BitLen(u2) && BitLen(u2) == 1 + BitLen(u3);
    assert BitLen(u3) == 1 + BitLen(u4) && BitLen(u4) == 1 + BitLen(u5) && BitLen(u5) == 1 + BitLen(u6);
    assert BitLen(u6) == 1 + BitLen(u6 / 2);
    assert u6 / 2 == u / 0x80;
  }

  lemma BitLenSmall(u: nat)
    requires 0 < u < 0x80
    ensures 1 <= BitLen(u) <= 7
  {
    var u1 := u / 2;
    var u2 := u1 / 2;
    var u3 := u2 / 2;
    var u4 := u3 / 2;
    var u5 := u4 / 2;
    var u6 := u5 / 2;
    assert BitLen(u6) <= 1;
    assert BitLen(u5) <= 2;
    assert BitLen(u4) <= 3;
    assert BitLen(u3) <= 4;
    assert BitLen(u2) <= 5;
    assert BitLen(u1) <= 6;
  }

  /** The computed size is the number of bytes written. */
  lemma {:induction false} UvarintSizeIsLength(u: nat)
    ensures UvarintSize(u) == |PutUvarint(u)|
  {
    if u >= 0x80 {
      UvarintSizeIsLength(u / 0x80);
      BitLenShift7(u);
    } else if u > 0 {
      BitLenSmall(u);
    }
  }

  // ---------------------------------------------------------------- signed varints

  predicate IsInt64(x: int) {
    -TWO_63 <= x < TWO_63
  }

  function ZigZag(x: int): (u: nat)
    ensures IsInt64(x) ==> u < TWO_64
  {
    if x >= 0 then 2 * x else -2 * x - 1
  }

  function UnZigZag(u: nat): (x: int)
    ensures u < TWO_64 ==> IsInt64(x)
  {
    if u % 2 == 0 then u / 2 else -(u / 2) - 1
  }

  function PutVarint(x: int): seq<Byte> {
    PutUvarint(ZigZag(x))
  }

  function Varint(bz: seq<Byte>): (r: Option<(int, nat)>)
    ensures r.Some? ==> IsInt64(r.value.0) && 1 <= r.value.1 <= |bz|
  {
    match Uvarint(bz)
    case None => None
    case Some((u, n)) => Some((UnZigZag(u), n))
  }

  lemma VarintRoundTrip(x: int, rest: seq<Byte>)
    requires IsInt64(x)
    ensures Varint(PutVarint(x) + rest) == Some((x, |PutVarint(x)|))
  {
    UvarintRoundTrip(ZigZag(x), rest);
  }

  /** Zigzag covers the 64-bit integers exactly once. */
  lemma ZigZagBijective(x: int, u: nat)
    requires IsInt64(x) && u < TWO_64
    ensures UnZigZag(ZigZag(x)) == x && ZigZag(UnZigZag(u)) == u
  {
  }

  // ---------------------------------------------------------------- fixed width

  function Pow256(k: nat): (r: nat)
    ensures r > 0
  {
    if k == 0 then 1 else 0x100 * Pow256(k - 1)
  }

  /** `k` bytes, least significant first. */
  function PutFixed(k: nat, u: nat): (r: seq<Byte>)
    ensures |r| == k
  {
    if k == 0 then [] else [u % 0x100] + PutFixed(k - 1, u / 0x100)
  }

  function Fixed(k: nat, bz: seq<Byte>): (u: nat)
    requires k <= |bz|
    ensures u < Pow256(k)
  {
    if k == 0 then 0 else bz[0] + 0x100 * Fixed(k - 1, bz[1..])
  }

  lemma {:induction false} FixedRoundTrip(k: nat, u: nat, rest: seq<Byte>)
    requires u < Pow256(k)
    ensures Fixed(k, PutFixed(k, u) + rest) == u
  {
    if k > 0 {
      FixedRoundTrip(k - 1, u / 0x100, rest);
      assert (PutFixed(k, u) + rest)[1..] == PutFixed(k - 1, u / 0x100) + rest;
    }
  }

  lemma Pow256Is()
    ensures Pow256(4) == TWO_32 && Pow256(8) == TWO_64
  {
    assert Pow256(1) == 0x100;
    assert Pow256(2) == 0x1_0000;
    assert Pow256(3) == 0x100_0000;
    assert Pow256(4) == 0x1_0000_0000;
    assert Pow256(5) == 0x100_0000_0000;
    assert Pow256(6) == 0x1_0000_0000_0000;
    assert Pow256(7) == 0x100_0000_0000_0000;
  }

  // ---------------------------------------------------------------- byte slices

  function PutBytes(bs: seq<Byte>): (r: seq<Byte>)
    ensures |r| > |bs|
  {
    PutUvarint(|bs|) + bs
  }

  /** A length-prefixed byte slice and the bytes it took; the length must be an int. */
  function Bytes(bz: seq<Byte>): (r: Option<(seq<Byte>, nat)>)
    ensures r.Some? ==> |r.value.0| < r.value.1 <= |bz|
  {
    match Uvarint(bz)
    case None => None
    case Some((count, n)) =>
      if count >= TWO_63 || |bz| - n < count then None
      else Some((bz[n..n + count], n + count))
  }

  lemma BytesRoundTrip(bs: seq<Byte>, rest: seq<Byte>)
    requires |bs| < TWO_63
    ensures Bytes(PutBytes(bs) + rest) == Some((bs, |PutBytes(bs)|))
  {
    UvarintRoundTrip(|bs|, bs + rest);
    var bz := PutBytes(bs) + rest;
    assert bz == PutUvarint(|bs|) + (bs + rest);
    var n := |PutUvarint(|bs|)|;
    assert bz[n..n + |bs|] == bs;
  }

  // ---------------------------------------------------------------- field keys

  datatype Typ3 = Varint3 | EightByte | ByteLength | FourByte

  function Code(t: Typ3): nat {
    match t
    case Varint3 => 0
    case EightByte => 1
    case ByteLength => 2
    case FourByte => 5
  }

  const MAX_FIELD: nat := 0x1fff_ffff

  function PutKey(num: nat, t: Typ3): seq<Byte> {
    PutUvarint(8 * num + Code(t))
  }

  datatype KeyResult = Key(num: nat, code: nat, n: nat) | BadKey

  /** The field number, wire type code and length of a key. */
  function ReadKey(bz: seq<Byte>): (r: KeyResult)
    ensures r.Key? ==> r.num <= MAX_FIELD && 1 <= r.n <= |bz|
  {
    match Uvarint(bz)
    case None => BadKey
    case Some((u, n)) => if u / 8 > MAX_FIELD then BadKey else Key(u / 8, u % 8, n)
  }

  lemma KeyRoundTrip(num: nat, t: Typ3, rest: seq<Byte>)
    requires num <= MAX_FIELD
    ensures ReadKey(PutKey(num, t) + rest) == Key(num, Code(t), |PutKey(num, t)|)
  {
    UvarintRoundTrip(8 * num + Code(t), rest);
  }
}
