/** Length-prefixed messages, in a byte slice and read one after the other from a
    stream. */
module AminoFraming {
  import opened AminoPrimitives
  import opened AminoTypes
  import opened AminoCodec
  import opened AminoRoundTrip
  import AminoBinary

  /** MarshalSized. */
  function Sized(t: Typ, v: Val): Option<seq<Byte>>
    requires t.TStruct? && HasType(v, t)
  {
    match Marshal(t, v)
    case None => None
    case Some(bz) => Some(PutBytes(bz))
  }

  /** UnmarshalSized: the prefix must announce exactly the bytes that follow. */
  function Unsized(t: Typ, bz: seq<Byte>): Option<Val>
    requires t.TStruct?
  {
    match Uvarint(bz)
    case None => None
    case Some((u, n)) => if u != |bz| - n then None else Unmarshal(t, bz[n..])
  }

  lemma SizedRoundTrip(t: Typ, v: Val)
    requires t.TStruct? && Legal(t) && HasType(v, t) && Sized(t, v).Some? && |Sized(t, v).value| < TWO_63
    ensures Unsized(t, Sized(t, v).value) == Some(Collapse(t, v))
  {
    var bz := Marshal(t, v).value;
    UvarintRoundTrip(|bz|, bz);
    assert PutBytes(bz)[|PutUvarint(|bz|)|..] == bz;
    MarshalRoundTrip(t, v);
  }

  // ---------------------------------------------------------------- the stream

  const MAX_PREFIX: nat := 10

  /** How many bytes the reader takes as the prefix: up to the first byte without a
      continuation bit, at most ten; None when the stream ends before that. */
  function PrefixLength(bz: seq<Byte>, from: nat): (r: Option<nat>)
    requires from <= MAX_PREFIX
    ensures r.Some? ==> from <= r.value <= MAX_PREFIX && r.value <= from + |bz|
    decreases MAX_PREFIX - from
  {
    if from == MAX_PREFIX then Some(from)
    else if bz == [] then None
    else if bz[0] < 0x80 then Some(from + 1)
    else PrefixLength(bz[1..], from + 1)
  }

  /** The announced length; an overlong or overflowing prefix counts as zero. */
  function Announced(prefix: seq<Byte>): nat {
    match Uvarint(prefix)
    case None => 0
    case Some((u, _)) => u
  }

  datatype Read = Message(v: Val, n: nat) | Failed

  /** UnmarshalSizedReader on the bytes a stream has left; 0 is no limit. */
  function ReadSized(t: Typ, bz: seq<Byte>, maxSize: nat): (r: Read)
    requires t.TStruct?
    ensures r.Message? ==> r.n <= |bz|
  {
    match PrefixLength(bz, 0)
    case None => Failed
    case Some(n) =>
      var u := Announced(bz[..n]);
      if n == MAX_PREFIX && bz[n - 1] >= 0x80 && n >= maxSize then Failed
      else if maxSize > 0 && (maxSize < u || maxSize - n < u) then Failed
      else if u >= TWO_63 || |bz| - n < u then Failed
      else match Unmarshal(t, bz[n..n + u])
        case None => Failed
        case Some(v) => Message(v, n + u)
  }

  /** With a limit, a message that is read took no more bytes than that, the prefix
      included. */
  lemma ReadWithinLimit(t: Typ, bz: seq<Byte>, maxSize: nat)
    requires t.TStruct? && maxSize > 0 && ReadSized(t, bz, maxSize).Message?
    ensures ReadSized(t, bz, maxSize).n <= maxSize
  {
  }

  lemma {:induction false} PrefixOfPut(u: nat, i: nat, rest: seq<Byte>)
    requires i <= 9 && u < Room(i)
    ensures PrefixLength(PutUvarint(u) + rest, i) == Some(i + |PutUvarint(u)|)
    decreases 9 - i
  {
    var bz := PutUvarint(u) + rest;
    if u >= 0x80 {
      assert bz[1..] == PutUvarint(u / 0x80) + rest;
      PrefixOfPut(u / 0x80, i + 1, rest);
    }
  }

  /** A sized message in front of a stream is read, to exactly its own length, when
      and only when it is within the limit. */
  lemma ReadsSized(t: Typ, v: Val, rest: seq<Byte>, maxSize: nat)
    requires t.TStruct? && Legal(t) && HasType(v, t) && Sized(t, v).Some? && |Sized(t, v).value| < TWO_63
    ensures var sized := Sized(t, v).value;
            ReadSized(t, sized + rest, maxSize) ==
              if maxSize == 0 || |sized| <= maxSize then Message(Collapse(t, v), |sized|) else Failed
  {
    var bz := Marshal(t, v).value;
    var n := |PutUvarint(|bz|)|;
    FramedPrefix(bz, rest);
    MarshalRoundTrip(t, v);
    assert (PutBytes(bz) + rest)[n..n + |bz|] == bz;
  }

  lemma FramedPrefix(bz: seq<Byte>, rest: seq<Byte>)
    requires |bz| < TWO_63
    ensures var all, n := PutBytes(bz) + rest, |PutUvarint(|bz|)|;
            && PrefixLength(all, 0) == Some(n) && n <= |all|
            && Announced(all[..n]) == |bz|
            && all[n - 1] < 0x80
  {
    var all, p := PutBytes(bz) + rest, PutUvarint(|bz|);
    RoomIs64Bits();
    CatAssoc(p, bz, rest);
    PrefixOfPut(|bz|, 0, bz + rest);
    UvarintRoundTrip(|bz|, []);
    assert all[..|p|] == p == p + [];
    LastByteEnds(|bz|);
  }

  lemma {:induction false} LastByteEnds(u: nat)
    ensures PutUvarint(u)[|PutUvarint(u)| - 1] < 0x80
  {
    if u >= 0x80 {
      LastByteEnds(u / 0x80);
    }
  }

  // ---------------------------------------------------------------- many messages

  function SizedAll(t: Typ, vs: seq<Val>): seq<Byte>
    requires t.TStruct? && forall v | v in vs :: HasType(v, t) && Sized(t, v).Some?
  {
    if vs == [] then [] else Sized(t, vs[0]).value + SizedAll(t, vs[1..])
  }

  /** Reads `count` messages; the total number of bytes taken, or None. */
  function ReadAll(t: Typ, bz: seq<Byte>, count: nat, maxSize: nat): Option<(seq<Val>, nat)>
    requires t.TStruct?
    decreases count
  {
    if count == 0 then Some(([], 0))
    else match ReadSized(t, bz, maxSize)
      case Failed => None
      case Message(v, n) =>
        match ReadAll(t, bz[n..], count - 1, maxSize)
        case None => None
        case Some((vs, m)) => Some(([v] + vs, n + m))
  }

  function CollapseAll(t: Typ, vs: seq<Val>): seq<Val>
    requires forall v | v in vs :: HasType(v, t)
  {
    seq(|vs|, i requires 0 <= i < |vs| => assert vs[i] in vs; Collapse(t, vs[i]))
  }

  /** Sized messages written one after the other are read back as the same list, and
      take exactly the bytes written. */
  lemma {:induction false} StreamRoundTrip(t: Typ, vs: seq<Val>, rest: seq<Byte>, maxSize: nat)
    requires t.TStruct? && Legal(t)
    requires forall v | v in vs ::
               HasType(v, t) && Sized(t, v).Some? && |Sized(t, v).value| < TWO_63
               && (maxSize == 0 || |Sized(t, v).value| <= maxSize)
    ensures ReadAll(t, SizedAll(t, vs) + rest, |vs|, maxSize) == Some((CollapseAll(t, vs), |SizedAll(t, vs)|))
    decreases |vs|
  {
    hide *;
    if vs == [] {
      StreamEnd(t, vs, rest, maxSize);
    } else {
      assert vs[0] in vs;
      SizedUnfold(t, vs);
      var s, tail := Sized(t, vs[0]).value, SizedAll(t, vs[1..]);
      ReadsSized(t, vs[0], tail + rest, maxSize);
      CatAssoc(s, tail, rest);
      assert (s + (tail + rest))[|s|..] == tail + rest;
      StreamRoundTrip(t, vs[1..], rest, maxSize);
      ReadUnfold(t, s + (tail + rest), |vs|, maxSize, Collapse(t, vs[0]), |s|, CollapseAll(t, vs[1..]), |tail|);
    }
  }

  lemma StreamEnd(t: Typ, vs: seq<Val>, rest: seq<Byte>, maxSize: nat)
    requires t.TStruct? && vs == []
    ensures ReadAll(t, SizedAll(t, vs) + rest, |vs|, maxSize) == Some((CollapseAll(t, vs), |SizedAll(t, vs)|))
  {
    assert CollapseAll(t, vs) == [];
  }

  lemma SizedUnfold(t: Typ, vs: seq<Val>)
    requires t.TStruct? && vs != [] && forall v | v in vs :: HasType(v, t) && Sized(t, v).Some?
    ensures vs[0] in vs && SizedAll(t, vs) == Sized(t, vs[0]).value + SizedAll(t, vs[1..])
    ensures CollapseAll(t, vs) == [Collapse(t, vs[0])] + CollapseAll(t, vs[1..])
  {
  }

  lemma ReadUnfold(t: Typ, bz: seq<Byte>, count: nat, maxSize: nat, v: Val, n: nat, vs: seq<Val>, m: nat)
    requires t.TStruct? && count > 0 && ReadSized(t, bz, maxSize) == Message(v, n)
    requires n <= |bz| && ReadAll(t, bz[n..], count - 1, maxSize) == Some((vs, m))
    ensures ReadAll(t, bz, count, maxSize) == Some(([v] + vs, n + m))
  {
    hide ReadSized;
  }

  // ---------------------------------------------------------------- overlong prefixes

  lemma {:induction false} PrefixIsVarint(bz: seq<Byte>, i: nat)
    requires i <= 9 && PrefixLength(bz, i).Some?
    ensures var n := PrefixLength(bz, i).value - i;
            && 1 <= n <= |bz|
            && (UvarintFrom(bz[..n], i).Some? <==> bz[n - 1] < (if n + i == 10 then 2 else 0x80))
    decreases 9 - i
  {
    hide Room;
    var n := PrefixLength(bz, i).value - i;
    if bz[0] < 0x80 {
      assert n == 1 && bz[..1][0] == bz[0];
    } else if i < 9 {
      PrefixIsVarint(bz[1..], i + 1);
      assert bz[..n][0] == bz[0] && bz[..n][1..] == bz[1..][..n - 1];
      assert bz[1..][n - 2] == bz[n - 1];
    }
  }

  /** A message that is read had its length announced by a proper varint exactly when
      the last byte of the prefix ends it without overflow. Otherwise, when ten bytes
      do not end a varint of 64 bits, the message read is the empty one. */
  lemma PrefixProperIff(t: Typ, bz: seq<Byte>, maxSize: nat)
    requires t.TStruct? && ReadSized(t, bz, maxSize).Message?
    ensures PrefixLength(bz, 0).Some? && 1 <= PrefixLength(bz, 0).value <= |bz|
    ensures var n, r := PrefixLength(bz, 0).value, ReadSized(t, bz, maxSize);
            var last := bz[n - 1];
            && (Uvarint(bz[..n]).Some? <==> last < (if n == 10 then 2 else 0x80))
            && (Uvarint(bz[..n]).None? ==> n == 10 && r == Message(Default(t), 10))
  {
    hide UvarintFrom, PrefixLength, DecFields;
    PrefixIsVarint(bz, 0);
    var n := PrefixLength(bz, 0).value;
    if Uvarint(bz[..n]).None? {
      NoBytesIsDefaults(t.fields, 1, 0);
      assert bz[n..n + 0] == [];
      PrefixEnds(bz, 0);
    }
  }

  lemma {:induction false} PrefixEnds(bz: seq<Byte>, i: nat)
    requires i <= 9 && PrefixLength(bz, i).Some?
    ensures var n := PrefixLength(bz, i).value - i;
            1 <= n <= |bz| && (n + i < 10 ==> bz[n - 1] < 0x80)
    decreases 9 - i
  {
    if bz[0] >= 0x80 && i < 9 {
      PrefixEnds(bz[1..], i + 1);
    }
  }

  /** Such a prefix is accepted: any ten continuation bytes stand for an empty message
      when the limit is above ten, whatever follows. */
  lemma OverlongPrefixIsRead(t: Typ, bz: seq<Byte>, maxSize: nat)
    requires t.TStruct? && maxSize > 10 && |bz| >= 10 && forall k | 0 <= k < 10 :: bz[k] >= 0x80
    ensures ReadSized(t, bz, maxSize) == Message(Default(t), 10)
  {
    hide UvarintFrom, PrefixLength;
    AllContinue(bz, 0);
    PrefixIsVarint(bz, 0);
    NoBytesIsDefaults(t.fields, 1, 0);
    assert bz[10..10 + 0] == [];
  }

  lemma {:induction false} AllContinue(bz: seq<Byte>, i: nat)
    requires i <= 10 && |bz| >= 10 - i && forall k | 0 <= k < 10 - i :: bz[k] >= 0x80
    ensures PrefixLength(bz, i) == Some(10)
    decreases 10 - i
  {
    if i < 10 {
      AllContinue(bz[1..], i + 1);
    }
  }

  // ---------------------------------------------------------------- the code

  method MarshalSized(t: Typ, v: Val) returns (r: Option<seq<Byte>>)
    requires t.TStruct? && Legal(t) && HasType(v, t)
    ensures r == Sized(t, v)
  {
    var bz := AminoBinary.MarshalStruct(t, v);
    if bz.None? {
      return None;
    }
    var buf := new AminoBinary.Buffer();
    buf.Write(PutUvarint(|bz.value|));
    buf.Write(bz.value);
    assert buf.data == PutBytes(bz.value);
    r := Some(buf.data);
  }

  method UnmarshalSized(t: Typ, bz: seq<Byte>) returns (r: Option<Val>)
    requires t.TStruct?
    ensures r == Unsized(t, bz)
  {
    if |bz| == 0 {
      return None;
    }
    var u := Uvarint(bz);
    if u.None? {
      return None;
    }
    var (u64, n) := u.value;
    if u64 > |bz| - n {
      return None;
    } else if u64 < |bz| - n {
      return None;
    }
    r := AminoBinary.UnmarshalStruct(t, bz[n..]);
  }

  /** A stream of bytes. */
  class Reader {
    var rest: seq<Byte>

    constructor (data: seq<Byte>)
      ensures rest == data
    {
      rest := data;
    }

    /** Takes `k` bytes; at the end of the stream, what is left, and an error. */
    method ReadFull(k: nat) returns (bz: seq<Byte>, ok: bool)
      modifies this
      ensures ok <==> k <= |old(rest)|
      ensures ok ==> bz == old(rest)[..k] && rest == old(rest)[k..]
    {
      ok := k <= |rest|;
      if ok {
        bz, rest := rest[..k], rest[k..];
      } else {
        bz, rest := rest, [];
      }
    }
  }

  /** Reads the prefix a byte at a time. The error a long prefix sets is lost when the
      next byte is read, so only the tenth can leave it set. */
  method ReadPrefix(r: Reader, maxSize: nat) returns (buf: seq<Byte>, ok: bool)
    modifies r
    ensures ok ==> |old(r.rest)| >= |buf| && old(r.rest)[..|buf|] == buf && r.rest == old(r.rest)[|buf|..]
    ensures ok ==> PrefixLength(old(r.rest), 0) == Some(|buf|) && |buf| >= 1
    ensures ok <==> PrefixLength(old(r.rest), 0).Some?
                    && !(PrefixLength(old(r.rest), 0) == Some(MAX_PREFIX) && old(r.rest)[MAX_PREFIX - 1] >= 0x80 && MAX_PREFIX >= maxSize)
  {
    hide PrefixLength;
    ghost var all := r.rest;
    buf, ok := [], true;
    var n := 0;
    assert all[0..] == all;
    while n < MAX_PREFIX
      invariant 0 <= n <= MAX_PREFIX && |buf| == n <= |all|
      invariant buf == all[..n] && r.rest == all[n..]
      invariant PrefixLength(all, 0) == PrefixLength(all[n..], n)
      invariant n > 0 ==> all[n - 1] >= 0x80 && (ok <==> n < maxSize)
      invariant n == 0 ==> ok
    {
      PrefixStep(all[n..], n);
      var b, got := r.ReadFull(1);
      if !got {
        return buf, false;
      }
      ok := true;
      assert all[n..][1..] == all[n + 1..] && all[n..][0] == all[n];
      assert all[..n + 1] == all[..n] + [all[n]];
      buf := buf + b;
      n := n + 1;
      if buf[n - 1] < 0x80 {
        return;
      }
      if n >= maxSize {
        ok := false;
      }
    }
    PrefixStep(all[n..], n);
  }

  lemma PrefixStep(bz: seq<Byte>, i: nat)
    requires i <= MAX_PREFIX
    ensures i == MAX_PREFIX ==> PrefixLength(bz, i) == Some(i)
    ensures i < MAX_PREFIX && bz == [] ==> PrefixLength(bz, i) == None
    ensures i < MAX_PREFIX && bz != [] ==>
              PrefixLength(bz, i) == if bz[0] < 0x80 then Some(i + 1) else PrefixLength(bz[1..], i + 1)
  {
  }

  /** Reads one sized message off the stream. */
  method UnmarshalSizedReader(r: Reader, t: Typ, maxSize: nat) returns (m: Read)
    requires t.TStruct?
    modifies r
    ensures m == ReadSized(t, old(r.rest), maxSize)
    ensures m.Message? ==> r.rest == old(r.rest)[m.n..]
  {
    hide PrefixLength, Uvarint, Unmarshal;
    ghost var all := r.rest;
    var buf, ok := ReadPrefix(r, maxSize);
    if !ok {
      return Failed;
    }
    var n := |buf|;
    var u64 := Announced(buf);
    assert all[..n] == buf;
    if maxSize > 0 {
      if maxSize < u64 {
        return Failed;
      }
      if maxSize - n < u64 {
        return Failed;
      }
    }
    if u64 >= TWO_63 {
      return Failed;
    }
    var bz, got := r.ReadFull(u64);
    if !got {
      return Failed;
    }
    assert bz == all[n..n + u64];
    assert r.rest == all[n + u64..];
    var v := AminoBinary.UnmarshalStruct(t, bz);
    m := if v.None? then Failed else Message(v.value, n + u64);
  }
}
