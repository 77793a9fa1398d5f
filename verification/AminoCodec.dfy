/** What the binary codec writes and reads, as functions of types and values. */
module AminoCodec {
  import opened AminoPrimitives
  import opened AminoTypes

  // ---------------------------------------------------------------- encoding

  function Unsigned(n: int, modulus: int): (u: nat)
    requires modulus > 0 && -modulus <= n < modulus
    ensures u < modulus
  {
    if n < 0 then n + modulus else n
  }

  function EncInt(k: Kind, n: int): seq<Byte>
    requires InKind(k, n)
  {
    match k
    case FixedI32 => PutFixed(4, Unsigned(n, TWO_32))
    case FixedU32 => PutFixed(4, n)
    case FixedI64 => PutFixed(8, Unsigned(n, TWO_64))
    case FixedU64 => PutFixed(8, n)
    case U8 => PutUvarint(n)
    case U16 => PutUvarint(n)
    case U32 => PutUvarint(n)
    case U64 => PutUvarint(n)
    case _ => PutVarint(n)
  }

  /** Whether encoding succeeds: a nil list element needs the nil_elements option,
      and a nil pointer field must not have the write_empty option. */
  predicate Encodable(t: Typ, v: Val)
    requires HasType(v, t)
    decreases t, 1
  {
    match t
    case TStruct(fields) => EncodableFields(fields, v.fs)
    case TList(_, _, _) => forall e | e in v.es :: EncodableElem(t, e)
    case _ => true
  }

  predicate EncodableElem(t: Typ, e: Val)
    requires t.TList? && ElemHasType(e, t)
    decreases t, 0
  {
    if t.ptr then (if e.VNil? then t.nilElems else Encodable(t.elem, e.v)) else Encodable(t.elem, e)
  }

  predicate EncodableFields(fields: seq<Field>, vs: seq<Val>)
    requires FieldsHaveType(vs, fields)
    decreases fields
  {
    fields == [] || (EncodableField(fields[0], vs[0]) && EncodableFields(fields[1..], vs[1..]))
  }

  predicate EncodableField(f: Field, v: Val)
    requires FieldHasType(v, f)
    decreases f
  {
    if f.ptr then (if v.VNil? then !f.writeEmpty else Encodable(f.typ, v.v)) else Encodable(f.typ, v)
  }

  /** The encoding with a length prefix where the type has one. */
  function Enc(t: Typ, v: Val): (r: seq<Byte>)
    requires HasType(v, t)
    ensures |r| >= 1
    decreases t, 1, 0
  {
    match t
    case TBool => [if v.b then 1 else 0]
    case TInt(k) => EncInt(k, v.n)
    case TBytes => PutBytes(v.bs)
    case TString => PutBytes(v.bs)
    case TStruct(fields) => PutBytes(EncFields(fields, v.fs, 1))
    case TList(_, _, _) => PutBytes(EncElems(t, v.es, 1))
  }

  /** The elements of a list: packed one after the other, or each under field `num`. */
  function EncElems(t: Typ, es: seq<Val>, num: nat): seq<Byte>
    requires t.TList? && forall e | e in es :: ElemHasType(e, t)
    decreases t, 0, |es|
  {
    if es == [] then []
    else if Unpacked(t) then PutKey(num, ByteLength) + EncElem(t, es[0]) + EncElems(t, es[1..], num)
    else EncPacked(t, es[0]) + EncElems(t, es[1..], num)
  }

  /** One element of a packed list. */
  function EncPacked(t: Typ, e: Val): seq<Byte>
    requires t.TList? && ElemHasType(e, t)
    decreases t, 0, 0
  {
    if !t.ptr then Enc(t.elem, e) else if e.VNil? then [] else Enc(t.elem, e.v)
  }

  /** One element of an unpacked list. */
  function EncElem(t: Typ, e: Val): seq<Byte>
    requires t.TList? && ElemHasType(e, t)
    decreases t, 0, 0
  {
    if NonstructDefault(e) then [0]
    else if t.ptr then Enc(t.elem, e.v)
    else if Implicit(t.elem) then PutBytes(PutKey(1, ByteLength) + Enc(t.elem, e))
    else Enc(t.elem, e)
  }

  /** The fields of a struct, numbered from `num`. */
  function EncFields(fields: seq<Field>, vs: seq<Val>, num: nat): seq<Byte>
    requires FieldsHaveType(vs, fields)
    decreases fields
  {
    if fields == [] then []
    else EncField(fields[0], vs[0], num) + EncFields(fields[1..], vs[1..], num + 1)
  }

  /** Defaults are elided, and so is a struct that turns out empty, unless the field
      is a pointer or has the write_empty option. */
  function EncField(f: Field, v: Val, num: nat): seq<Byte>
    requires FieldHasType(v, f)
    decreases f
  {
    if f.ptr then
      if v.VNil? then [] else PutKey(num, Typ3Of(f.typ)) + Enc(f.typ, v.v)
    else if !f.writeEmpty && NonstructDefault(v) then []
    else if Unpacked(f.typ) then
      assert HasType(v, f.typ);
      EncElems(f.typ, v.es, num)
    else
      var bz := Enc(f.typ, v);
      if !f.writeEmpty && bz == [0] then [] else PutKey(num, Typ3Of(f.typ)) + bz
  }

  // ---------------------------------------------------------------- decoding

  datatype Decoded<+T> = Got(v: T, n: nat) | Bad

  function Signed(u: nat, modulus: int): int {
    if u >= modulus / 2 then u - modulus else u
  }

  /** Wrap-around of a 64-bit integer stored into 32 signed bits. */
  function Truncate32(n: int): int {
    Signed(n % TWO_32, TWO_32)
  }

  function DecInt(k: Kind, bz: seq<Byte>): (r: Decoded<Val>)
    ensures r.Got? ==> 1 <= r.n <= |bz|
  {
    match k
    case FixedI32 => if |bz| < 4 then Bad else Got(VInt(Signed(Fixed(4, bz), TWO_32)), 4)
    case FixedU32 => if |bz| < 4 then Bad else Got(VInt(Fixed(4, bz)), 4)
    case FixedI64 => if |bz| < 8 then Bad else Got(VInt(Signed(Fixed(8, bz), TWO_64)), 8)
    case FixedU64 => if |bz| < 8 then Bad else Got(VInt(Fixed(8, bz)), 8)
    case U8 => DecUvarint(bz, TWO_8)
    case U16 => DecUvarint(bz, TWO_16)
    case U32 =>
      (match Uvarint(bz)
       case None => Bad
       case Some((u, n)) => Got(VInt(u % TWO_32), n))
    case U64 => DecUvarint(bz, TWO_64)
    case I8 => DecVarint(bz, 0x80)
    case I16 => DecVarint(bz, 0x8000)
    case I32 =>
      (match Varint(bz)
       case None => Bad
       case Some((x, n)) => Got(VInt(Truncate32(x)), n))
    case I64 => DecVarint(bz, TWO_63)
  }

  function DecUvarint(bz: seq<Byte>, limit: int): (r: Decoded<Val>)
    ensures r.Got? ==> 1 <= r.n <= |bz|
  {
    match Uvarint(bz)
    case None => Bad
    case Some((u, n)) => if u >= limit then Bad else Got(VInt(u), n)
  }

  function DecVarint(bz: seq<Byte>, limit: int): (r: Decoded<Val>)
    ensures r.Got? ==> 1 <= r.n <= |bz|
  {
    match Varint(bz)
    case None => Bad
    case Some((x, n)) => if x < -limit || x >= limit then Bad else Got(VInt(x), n)
  }

  /** Decodes a value with its length prefix; `n` counts the prefix by its shortest form. */
  function Dec(t: Typ, bz: seq<Byte>): (r: Decoded<Val>)
    ensures r.Got? ==> r.n <= |bz|
    ensures r.Got? && !Typ3Of(t).ByteLength? ==> r.n >= 1
    decreases t, |bz|, 1
  {
    match t
    case TBool =>
      if bz == [] || bz[0] > 1 then Bad else Got(VBool(bz[0] == 1), 1)
    case TInt(k) => DecInt(k, bz)
    case TBytes =>
      if bz == [] then Got(VBytes([]), 0) else (
      match Bytes(bz)
      case None => Bad
      case Some((bs, n)) => Got(VBytes(bs), n))
    case TString =>
      (match Bytes(bz)
       case None => Bad
       case Some((bs, n)) => Got(VBytes(bs), n))
    case TStruct(fields) =>
      (match Bytes(bz)
       case None => Bad
       case Some((body, n)) =>
         PrefixFits(bz);
         match DecFields(fields, body, 1, 0)
         case None => Bad
         case Some(vs) => Got(VStruct(vs), UvarintSize(|body|) + |body|))
    case TList(_, _, _) =>
      (match Bytes(bz)
       case None => Bad
       case Some((body, n)) =>
         PrefixFits(bz);
         match DecElems(t, body, 1)
         case Bad => Bad
         case Got(es, m) => Got(VList(es), UvarintSize(|body|) + m))
  }

  lemma PrefixFits(bz: seq<Byte>)
    requires Bytes(bz).Some?
    ensures UvarintSize(|Bytes(bz).value.0|) + |Bytes(bz).value.0| <= Bytes(bz).value.1
  {
    RoomIs64Bits();
    PutIsShortest(bz, 0);
    UvarintSizeIsLength(|Bytes(bz).value.0|);
  }

  /** The elements of a list up to the end, or up to a higher field number. */
  function DecElems(t: Typ, bz: seq<Byte>, num: nat): (r: Decoded<seq<Val>>)
    requires t.TList?
    ensures r.Got? ==> r.n <= |bz|
    decreases t, |bz|, 0
  {
    if bz == [] then Got([], 0)
    else if !Unpacked(t) then
      match Dec(t.elem, bz)
      case Bad => Bad
      case Got(e, n) =>
        (match DecElems(t, bz[n..], num)
         case Bad => Bad
         case Got(es, m) => Got([if t.ptr then VPtr(e) else e] + es, n + m))
    else
      match ReadKey(bz)
      case BadKey => Bad
      case Key(f, code, k) =>
        if f > num then Got([], 0)
        else if f < num || code != Code(ByteLength) then Bad
        else
          match DecElem(t, bz[k..])
          case Bad => Bad
          case Got(e, n) =>
            match DecElems(t, bz[k + n..], num)
            case Bad => Bad
            case Got(es, m) => Got([e] + es, k + n + m)
  }

  /** One element of an unpacked list; a zero byte is the default element, except
      that without nil_elements it is a pointer to an empty struct. */
  function DecElem(t: Typ, bz: seq<Byte>): (r: Decoded<Val>)
    requires t.TList?
    ensures r.Got? ==> r.n <= |bz|
    decreases t, |bz|, 0
  {
    if bz != [] && bz[0] == 0 && (!t.ptr || t.nilElems) then
      Got(if t.ptr then VNil else Default(t.elem), 1)
    else if Implicit(t.elem) then
      match Bytes(bz)
      case None => Bad
      case Some((ibz, _)) =>
        PrefixFits(bz);
        match ReadKey(ibz)
        case BadKey => Bad
        case Key(f, _, k) =>
          if f != 1 then Bad else
          match Dec(t.elem, ibz[k..])
          case Bad => Bad
          case Got(e, m) => if k + m < |ibz| then Bad else Got(e, UvarintSize(|ibz|) + k + m)
    else
      match Dec(t.elem, bz)
      case Bad => Bad
      case Got(e, n) => Got(if t.ptr then VPtr(e) else e, n)
  }

  /** The fields of a struct, in order from number `num`; `last` is the last number
      seen. Anything after the known fields is skipped. All of `bz` is consumed. */
  function DecFields(fields: seq<Field>, bz: seq<Byte>, num: nat, last: nat): (r: Option<seq<Val>>)
    ensures r.Some? ==> |r.value| == |fields|
    decreases fields
  {
    if fields == [] then
      if Skip(bz, last) then Some([]) else None
    else
      var f := fields[0];
      if bz == [] then Prepend(DefaultOf(f), DecFields(fields[1..], bz, num + 1, last))
      else match ReadKey(bz)
        case BadKey => None
        case Key(fnum, code, k) =>
          if num < fnum then Prepend(DefaultOf(f), DecFields(fields[1..], bz, num + 1, last))
          else if Unpacked(f.typ) then
            match DecRepeated(f, bz, num)
            case Bad => None
            case Got(es, n) => Prepend(VList(es), DecFields(fields[1..], bz[n..], num + 1, last))
          else if fnum <= last || fnum != num || code != Code(Typ3Of(f.typ)) then None
          else
            match DecField(f, bz[k..])
            case Bad => None
            case Got(v, n) => Prepend(v, DecFields(fields[1..], bz[k + n..], num + 1, fnum))
  }

  function DecField(f: Field, bz: seq<Byte>): (r: Decoded<Val>)
    ensures r.Got? ==> r.n <= |bz|
    decreases f
  {
    match Dec(f.typ, bz)
    case Bad => Bad
    case Got(v, n) => Got(if f.ptr then VPtr(v) else v, n)
  }

  function DecRepeated(f: Field, bz: seq<Byte>, num: nat): (r: Decoded<seq<Val>>)
    requires f.typ.TList?
    ensures r.Got? ==> r.n <= |bz|
    decreases f
  {
    DecElems(f.typ, bz, num)
  }

  function Prepend(v: Val, r: Option<seq<Val>>): (s: Option<seq<Val>>)
    ensures s.Some? <==> r.Some?
    ensures s.Some? ==> s.value == [v] + r.value
  {
    match r
    case None => None
    case Some(vs) => Some([v] + vs)
  }

  /** The bytes of one value of a wire type; None if there is no such value. */
  function ConsumeAny(code: nat, bz: seq<Byte>): (r: Option<nat>)
    ensures r.Some? ==> 1 <= r.value <= |bz|
  {
    if code == Code(Varint3) then (match Varint(bz) case None => None case Some((_, n)) => Some(n))
    else if code == Code(EightByte) then if |bz| < 8 then None else Some(8)
    else if code == Code(ByteLength) then (match Bytes(bz) case None => None case Some((_, n)) => Some(n))
    else if code == Code(FourByte) then if |bz| < 4 then None else Some(4)
    else None
  }

  /** Whether the rest of a struct is a list of unknown fields with rising numbers. */
  predicate Skip(bz: seq<Byte>, last: nat)
    decreases |bz|
  {
    bz == [] ||
    match ReadKey(bz)
    case BadKey => false
    case Key(f, code, k) =>
      f > last &&
      match ConsumeAny(code, bz[k..])
      case None => false
      case Some(n) => Skip(bz[k + n..], f)
  }

  // ---------------------------------------------------------------- top level

  /** Marshal of a struct: its fields, without a length prefix. */
  function Marshal(t: Typ, v: Val): Option<seq<Byte>>
    requires t.TStruct? && HasType(v, t)
  {
    if Encodable(t, v) then Some(EncFields(t.fields, v.fs, 1)) else None
  }

  function Unmarshal(t: Typ, bz: seq<Byte>): Option<Val>
    requires t.TStruct?
  {
    match DecFields(t.fields, bz, 1, 0)
    case None => None
    case Some(vs) => Some(VStruct(vs))
  }
}
