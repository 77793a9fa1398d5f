/** Decoding an encoding gives the value back. */
module AminoRoundTrip {
  import opened AminoPrimitives
  import opened AminoTypes
  import opened AminoCodec

  // ---------------------------------------------------------------- what survives

  /** What decoding recovers: the value itself, except that in a list with
      nil_elements a pointer to a struct that encodes to nothing becomes nil. */
  function Collapse(t: Typ, v: Val): Val
    requires HasType(v, t)
    decreases t, 1, 0
  {
    match t
    case TStruct(fields) => VStruct(CollapseFields(fields, v.fs))
    case TList(_, _, _) => VList(CollapseElems(t, v.es))
    case _ => v
  }

  function CollapseElems(t: Typ, es: seq<Val>): (r: seq<Val>)
    requires t.TList? && forall e | e in es :: ElemHasType(e, t)
    ensures |r| == |es|
    decreases t, 0, |es|
  {
    if es == [] then [] else [CollapseElem(t, es[0])] + CollapseElems(t, es[1..])
  }

  function CollapseElem(t: Typ, e: Val): Val
    requires t.TList? && ElemHasType(e, t)
    decreases t, 0, 0
  {
    if !t.ptr then Collapse(t.elem, e)
    else if e.VNil? || (t.nilElems && Enc(t.elem, e.v) == [0]) then VNil
    else VPtr(Collapse(t.elem, e.v))
  }

  function CollapseFields(fields: seq<Field>, vs: seq<Val>): (r: seq<Val>)
    requires FieldsHaveType(vs, fields)
    ensures |r| == |vs|
    decreases fields
  {
    if fields == [] then [] else [CollapseField(fields[0], vs[0])] + CollapseFields(fields[1..], vs[1..])
  }

  function CollapseField(f: Field, v: Val): Val
    requires FieldHasType(v, f)
    decreases f
  {
    if !f.ptr then Collapse(f.typ, v) else if v.VNil? then VNil else VPtr(Collapse(f.typ, v.v))
  }

  // ---------------------------------------------------------------- integers

  lemma IntRoundTrip(k: Kind, n: int, rest: seq<Byte>)
    requires InKind(k, n)
    ensures DecInt(k, EncInt(k, n) + rest) == Got(VInt(n), |EncInt(k, n)|)
  {
    hide Uvarint, PutUvarint;
    if k.FixedI32? || k.FixedU32? || k.FixedI64? || k.FixedU64? {
      FixedKindRoundTrip(k, n, rest);
    } else if k.U8? || k.U16? || k.U32? || k.U64? {
      UvarintRoundTrip(n, rest);
    } else {
      VarintRoundTrip(n, rest);
    }
  }

  lemma FixedKindRoundTrip(k: Kind, n: int, rest: seq<Byte>)
    requires InKind(k, n) && (k.FixedI32? || k.FixedU32? || k.FixedI64? || k.FixedU64?)
    ensures DecInt(k, EncInt(k, n) + rest) == Got(VInt(n), |EncInt(k, n)|)
  {
    hide Fixed, PutFixed;
    if k.FixedI32? || k.FixedU32? {
      FixedInt(4, n, TWO_32, rest);
    } else {
      FixedInt(8, n, TWO_64, rest);
    }
  }

  lemma FixedInt(k: nat, n: int, modulus: int, rest: seq<Byte>)
    requires (k == 4 && modulus == TWO_32) || (k == 8 && modulus == TWO_64)
    requires -modulus / 2 <= n < modulus
    ensures Fixed(k, PutFixed(k, Unsigned(n, modulus)) + rest) == Unsigned(n, modulus)
    ensures n < modulus / 2 ==> Signed(Unsigned(n, modulus), modulus) == n
  {
    Pow256Is();
    FixedRoundTrip(k, Unsigned(n, modulus), rest);
  }

  // ---------------------------------------------------------------- defaults

  /** An empty body is a struct of defaults. */
  lemma {:induction false} NoBytesIsDefaults(fields: seq<Field>, num: nat, last: nat)
    ensures DecFields(fields, [], num, last) == Some(Defaults(fields))
    decreases fields
  {
    if fields != [] {
      NoBytesIsDefaults(fields[1..], num + 1, last);
    }
  }

  /** A zero byte decodes, if at all, to the default. */
  lemma ZeroIsDefault(t: Typ, rest: seq<Byte>)
    ensures var r := Dec(t, [0] + rest); r.Got? && r.n == 1 ==> r.v == Default(t)
  {
    UvarintRoundTrip(0, rest);
    assert PutUvarint(0) == [0];
    match t {
      case TStruct(fields) =>
        BytesRoundTrip([], rest);
        assert PutBytes([]) == [0];
        NoBytesIsDefaults(fields, 1, 0);
      case TList(_, _, _) =>
        BytesRoundTrip([], rest);
        assert PutBytes([]) == [0];
      case TBytes =>
        BytesRoundTrip([], rest);
        assert PutBytes([]) == [0];
      case TString =>
        BytesRoundTrip([], rest);
        assert PutBytes([]) == [0];
      case _ =>
    }
  }

  lemma DefaultCollapses(t: Typ, v: Val)
    requires HasType(v, t) && NonstructDefault(v)
    ensures v == Default(t) && Collapse(t, v) == v
  {
  }

  /** A length prefix starts with a zero byte exactly when nothing follows it. */
  lemma PrefixByte(bs: seq<Byte>)
    ensures PutBytes(bs)[0] == 0 <==> bs == []
    ensures bs == [] ==> PutBytes(bs) == [0]
  {
    assert PutBytes(bs)[0] == PutUvarint(|bs|)[0];
  }

  // ---------------------------------------------------------------- field numbers

  /** Nothing, or a field numbered `num` or higher. */
  ghost predicate StartsAt(bz: seq<Byte>, num: nat) {
    bz == [] || (ReadKey(bz).Key? && ReadKey(bz).num >= num)
  }

  lemma SkipForgets(bz: seq<Byte>, a: nat, b: nat, num: nat)
    requires a < num && b < num && StartsAt(bz, num)
    ensures Skip(bz, a) == Skip(bz, b)
  {
  }

  lemma {:induction false} FieldsStart(fields: seq<Field>, vs: seq<Val>, num: nat, more: seq<Byte>)
    requires FieldsHaveType(vs, fields) && num + |fields| <= MAX_FIELD + 1
    requires StartsAt(more, num + |fields|)
    ensures StartsAt(EncFields(fields, vs, num) + more, num)
    decreases fields
  {
    if fields == [] {
      assert EncFields(fields, vs, num) + more == more;
    } else {
      FieldsUnfold(fields, vs, num);
      hide EncFields, EncField, ReadKey;
      var e, es := EncField(fields[0], vs[0], num), EncFields(fields[1..], vs[1..], num + 1);
      FieldsStart(fields[1..], vs[1..], num + 1, more);
      CatAssoc(e, es, more);
      FieldStart(fields[0], vs[0], num, es + more);
      if e == [] {
        assert e + (es + more) == es + more;
      }
    }
  }

  /** What a field writes, if anything, starts with its number. */
  lemma FieldStart(f: Field, v: Val, num: nat, tail: seq<Byte>)
    requires FieldHasType(v, f) && num <= MAX_FIELD
    ensures var e := EncField(f, v, num);
            e != [] ==> ReadKey(e + tail).Key? && ReadKey(e + tail).num == num
  {
    hide ReadKey, PutKey;
    var e := EncField(f, v, num);
    if e != [] {
      if Unpacked(f.typ) && !f.ptr {
        assert HasType(v, f.typ);
        var es := v.es;
        assert e == EncElems(f.typ, es, num);
        if es != [] {
          ElemsUnfold(f.typ, es, num);
          CatAssoc(PutKey(num, ByteLength), EncElem(f.typ, es[0]), EncElems(f.typ, es[1..], num));
          KeyFirst(num, ByteLength, EncElem(f.typ, es[0]) + EncElems(f.typ, es[1..], num), tail);
        }
      } else {
        KeyFirst(num, Typ3Of(f.typ), Enc(f.typ, if f.ptr then v.v else v), tail);
      }
    }
  }

  lemma KeyFirst(num: nat, t: Typ3, r: seq<Byte>, tail: seq<Byte>)
    requires num <= MAX_FIELD
    ensures ReadKey(PutKey(num, t) + r + tail) == Key(num, Code(t), |PutKey(num, t)|)
  {
    KeyRoundTrip(num, t, r + tail);
    CatAssoc(PutKey(num, t), r, tail);
  }

  // ---------------------------------------------------------------- the round trip

  /** Whatever follows it, an encoding is read back and consumed to exactly its
      own length. */
  lemma {:induction false} DecodesEncoding(t: Typ, v: Val, rest: seq<Byte>)
    requires Legal(t) && HasType(v, t) && Encodable(t, v) && |Enc(t, v)| < TWO_63
    ensures Dec(t, Enc(t, v) + rest) == Got(Collapse(t, v), |Enc(t, v)|)
    decreases t, 3, 0
  {
    match t {
      case TBool =>
      case TInt(k) => IntRoundTrip(k, v.n, rest);
      case TBytes => BytesRoundTrip(v.bs, rest);
      case TString => BytesRoundTrip(v.bs, rest);
      case TStruct(fields) =>
        var body := EncFields(fields, v.fs, 1);
        BytesRoundTrip(body, rest);
        UvarintSizeIsLength(|body|);
        DecodesFields(fields, v.fs, 1, 0, []);
        assert body + [] == body;
      case TList(_, _, _) =>
        var body := EncElems(t, v.es, 1);
        BytesRoundTrip(body, rest);
        UvarintSizeIsLength(|body|);
        DecodesElems(t, v.es, 1, []);
        assert body + [] == body;
    }
  }

  lemma {:induction false} DecodesElems(t: Typ, es: seq<Val>, num: nat, rest: seq<Byte>)
    requires t.TList? && Legal(t) && forall e | e in es :: ElemHasType(e, t) && EncodableElem(t, e)
    requires num <= MAX_FIELD && |EncElems(t, es, num)| < TWO_63
    requires if Unpacked(t) then StartsAt(rest, num + 1) else rest == []
    ensures DecElems(t, EncElems(t, es, num) + rest, num) == Got(CollapseElems(t, es), |EncElems(t, es, num)|)
    decreases t, 2, |es|
  {
    if es == [] {
      assert EncElems(t, es, num) + rest == rest;
    } else {
      assert es[0] in es;
      var tail := EncElems(t, es[1..], num);
      DecodesElems(t, es[1..], num, rest);
      if Unpacked(t) {
        ElemsUnfold(t, es, num);
        DecodesElem(t, es[0], tail + rest);
        UnpackedElem(t, es, num, rest);
      } else {
        PackedElem(t, es, num);
      }
    }
  }

  lemma {:induction false} PackedElem(t: Typ, es: seq<Val>, num: nat)
    requires t.TList? && Legal(t) && !Unpacked(t) && es != []
    requires forall e | e in es :: ElemHasType(e, t) && EncodableElem(t, e)
    requires |EncElems(t, es, num)| < TWO_63
    requires DecElems(t, EncElems(t, es[1..], num) + [], num) == Got(CollapseElems(t, es[1..]), |EncElems(t, es[1..], num)|)
    ensures DecElems(t, EncElems(t, es, num) + [], num) == Got(CollapseElems(t, es), |EncElems(t, es, num)|)
    decreases t, 1, 0
  {
    assert es[0] in es;
    var e, tail := EncPacked(t, es[0]), EncElems(t, es[1..], num);
    assert !t.ptr;
    DecodesEncoding(t.elem, es[0], tail);
    assert EncElems(t, es, num) + [] == e + tail;
    assert (e + tail)[|e|..] == tail == tail + [];
  }

  lemma UnpackedElem(t: Typ, es: seq<Val>, num: nat, rest: seq<Byte>)
    requires t.TList? && Unpacked(t) && es != [] && num <= MAX_FIELD
    requires forall e | e in es :: ElemHasType(e, t)
    requires var e, tail := EncElem(t, es[0]), EncElems(t, es[1..], num);
             && DecElem(t, e + (tail + rest)) == Got(CollapseElem(t, es[0]), |e|)
             && DecElems(t, tail + rest, num) == Got(CollapseElems(t, es[1..]), |tail|)
    ensures DecElems(t, EncElems(t, es, num) + rest, num) == Got(CollapseElems(t, es), |EncElems(t, es, num)|)
  {
    hide *;
    ElemsUnfold(t, es, num);
    var e, tail := EncElem(t, es[0]), EncElems(t, es[1..], num);
    ElemsStep(t, num, e, CollapseElem(t, es[0]), tail + rest);
    CatAssoc(PutKey(num, ByteLength) + e, tail, rest);
  }

  lemma ElemsUnfold(t: Typ, es: seq<Val>, num: nat)
    requires t.TList? && Unpacked(t) && es != [] && forall e | e in es :: ElemHasType(e, t)
    ensures EncElems(t, es, num) == PutKey(num, ByteLength) + EncElem(t, es[0]) + EncElems(t, es[1..], num)
    ensures CollapseElems(t, es) == [CollapseElem(t, es[0])] + CollapseElems(t, es[1..])
  {
  }

  /** One turn of the loop over repeated fields. */
  lemma ElemsStep(t: Typ, num: nat, e: seq<Byte>, v: Val, rest: seq<Byte>)
    requires t.TList? && Unpacked(t) && num <= MAX_FIELD
    requires DecElem(t, e + rest) == Got(v, |e|)
    ensures var bz, key := PutKey(num, ByteLength) + e + rest, PutKey(num, ByteLength);
            DecElems(t, bz, num) ==
              match DecElems(t, rest, num)
              case Bad => Bad
              case Got(es, m) => Got([v] + es, |key| + |e| + m)
  {
    hide DecElem, DecElems, ReadKey, PutKey, Unpacked;
    var key := PutKey(num, ByteLength);
    var bz := key + e + rest;
    KeyNotEmpty(num, ByteLength);
    KeyRoundTrip(num, ByteLength, e + rest);
    assert bz == key + (e + rest);
    assert bz[|key|..] == e + rest;
    assert bz[|key| + |e|..] == rest;
    ElemsTurn(t, num, bz, |key|, |e|, v);
  }

  lemma KeyNotEmpty(num: nat, t: Typ3)
    ensures |PutKey(num, t)| >= 1
  {
  }

  lemma ElemsTurn(t: Typ, num: nat, bz: seq<Byte>, k: nat, n: nat, v: Val)
    requires t.TList? && Unpacked(t) && bz != [] && k + n <= |bz|
    requires ReadKey(bz) == Key(num, Code(ByteLength), k) && DecElem(t, bz[k..]) == Got(v, n)
    ensures DecElems(t, bz, num) ==
            match DecElems(t, bz[k + n..], num)
            case Bad => Bad
            case Got(es, m) => Got([v] + es, k + n + m)
  {
    hide DecElem, ReadKey;
  }

  lemma {:induction false} DecodesElem(t: Typ, e: Val, rest: seq<Byte>)
    requires t.TList? && Legal(t) && Unpacked(t) && ElemHasType(e, t) && EncodableElem(t, e)
    requires |EncElem(t, e)| < TWO_63
    ensures DecElem(t, EncElem(t, e) + rest) == Got(CollapseElem(t, e), |EncElem(t, e)|)
    decreases t, 0, 1
  {
    var bz := EncElem(t, e) + rest;
    if t.ptr {
      DecodesPointer(t, e, rest);
    } else if NonstructDefault(e) {
      DefaultCollapses(t.elem, e);
    } else if Implicit(t.elem) {
      DecodesImplicit(t, e, rest);
    } else {
      DecodesEncoding(t.elem, e, rest);
      ZeroIsDefault(t.elem, rest);
      ElemZeroByte(t.elem, e);
      assert bz[0] == Enc(t.elem, e)[0];
    }
  }

  lemma {:induction false} DecodesPointer(t: Typ, e: Val, rest: seq<Byte>)
    requires t.TList? && Legal(t) && t.ptr && ElemHasType(e, t) && EncodableElem(t, e)
    requires |EncElem(t, e)| < TWO_63
    ensures DecElem(t, EncElem(t, e) + rest) == Got(CollapseElem(t, e), |EncElem(t, e)|)
    decreases t, 0, 0
  {
    var bz := EncElem(t, e) + rest;
    if e.VPtr? {
      var enc := Enc(t.elem, e.v);
      assert t.elem.TStruct? && HasType(e.v, t.elem);
      assert e.v.VStruct? && !NonstructDefault(e);
      assert EncElem(t, e) == enc;
      DecodesEncoding(t.elem, e.v, rest);
      ElemZeroByte(t.elem, e.v);
      assert bz[0] == enc[0];
    }
  }

  /** A length-prefixed encoding that starts with zero is that zero. */
  lemma ElemZeroByte(t: Typ, v: Val)
    requires HasType(v, t) && Typ3Of(t).ByteLength?
    ensures Enc(t, v)[0] == 0 ==> Enc(t, v) == [0]
  {
    match t {
      case TBytes => PrefixByte(v.bs);
      case TString => PrefixByte(v.bs);
      case TStruct(fields) => PrefixByte(EncFields(fields, v.fs, 1));
      case TList(_, _, _) => PrefixByte(EncElems(t, v.es, 1));
      case _ =>
    }
  }

  lemma {:induction false} DecodesImplicit(t: Typ, e: Val, rest: seq<Byte>)
    requires t.TList? && Legal(t) && !t.ptr && Implicit(t.elem) && ElemHasType(e, t) && EncodableElem(t, e)
    requires !NonstructDefault(e) && |EncElem(t, e)| < TWO_63
    ensures DecElem(t, EncElem(t, e) + rest) == Got(CollapseElem(t, e), |EncElem(t, e)|)
    decreases t, 0, 0
  {
    var key, enc := PutKey(1, ByteLength), Enc(t.elem, e);
    var ibz := key + enc;
    BytesRoundTrip(ibz, rest);
    UvarintSizeIsLength(|ibz|);
    PrefixByte(ibz);
    KeyRoundTrip(1, ByteLength, enc);
    DecodesEncoding(t.elem, e, []);
    assert enc + [] == enc;
    assert ibz[|key|..] == enc;
    assert (EncElem(t, e) + rest)[0] == PutBytes(ibz)[0];
  }

  /** A struct's fields are read back, and what follows is skipped or refused. */
  lemma {:induction false} DecodesFields(fields: seq<Field>, vs: seq<Val>, num: nat, last: nat, more: seq<Byte>)
    requires FieldsHaveType(vs, fields) && EncodableFields(fields, vs)
    requires forall f | f in fields :: Legal(f.typ) && (f.ptr ==> f.typ.TStruct?)
    requires last < num && num + |fields| <= MAX_FIELD + 1
    requires |EncFields(fields, vs, num)| < TWO_63
    requires StartsAt(more, num + |fields|)
    ensures DecFields(fields, EncFields(fields, vs, num) + more, num, last) ==
            if Skip(more, num + |fields| - 1) then Some(CollapseFields(fields, vs)) else None
    decreases fields, 1
  {
    hide *;
    if fields == [] {
      DecodesNone(fields, vs, num, last, more);
    } else {
      assert fields[0] in fields;
      FieldsSplit(fields, vs);
      FieldsUnfold(fields, vs, num);
      var e, es := EncField(fields[0], vs[0], num), EncFields(fields[1..], vs[1..], num + 1);
      FieldsStart(fields[1..], vs[1..], num + 1, more);
      var last2 := DecodesHead(fields, vs[0], num, last, es + more);
      DecodesFields(fields[1..], vs[1..], num + 1, last2, more);
      CatAssoc(e, es, more);
      var d, c := DecFields(fields[1..], es + more, num + 1, last2), CollapseField(fields[0], vs[0]);
      assert DecFields(fields, EncFields(fields, vs, num) + more, num, last) == Prepend(c, d);
      assert num + 1 + |fields[1..]| - 1 == num + |fields| - 1;
      if Skip(more, num + |fields| - 1) {
        assert d == Some(CollapseFields(fields[1..], vs[1..]));
      } else {
        assert d == None;
      }
    }
  }

  lemma DecodesNone(fields: seq<Field>, vs: seq<Val>, num: nat, last: nat, more: seq<Byte>)
    requires fields == [] && FieldsHaveType(vs, fields) && last < num && StartsAt(more, num)
    ensures DecFields(fields, EncFields(fields, vs, num) + more, num, last) ==
            if Skip(more, num - 1) then Some(CollapseFields(fields, vs)) else None
  {
    assert EncFields(fields, vs, num) + more == more;
    SkipForgets(more, last, num - 1, num);
  }

  /** The first field is read back from the front of whatever the others wrote. */
  lemma {:induction false} DecodesHead(fields: seq<Field>, v: Val, num: nat, last: nat, tail: seq<Byte>) returns (last2: nat)
    requires fields != [] && FieldHasType(v, fields[0]) && EncodableField(fields[0], v)
    requires Legal(fields[0].typ) && (fields[0].ptr ==> fields[0].typ.TStruct?)
    requires last < num <= MAX_FIELD && |EncField(fields[0], v, num)| < TWO_63 && StartsAt(tail, num + 1)
    ensures last2 <= num
    ensures DecFields(fields, EncField(fields[0], v, num) + tail, num, last) ==
            Prepend(CollapseField(fields[0], v), DecFields(fields[1..], tail, num + 1, last2))
    decreases fields, 0
  {
    hide DecFields, EncField, CollapseField, EncodableField, FieldHasType, Legal;
    var f := fields[0];
    var e := EncField(f, v, num);
    FieldStart(f, v, num, tail);
    last2 := last;
    if e == [] {
      assert e + tail == tail;
      ElidedIsDefault(f, v, num);
      StepElided(fields, tail, num, last);
    } else if Unpacked(f.typ) {
      DecodesRepeated(f, v, num, tail);
      StepRepeated(fields, e, tail, num, last, CollapseElems(f.typ, v.es));
    } else {
      DecodesField(f, v, num, tail);
      StepPlain(fields, e, tail, num, last, CollapseField(f, v));
      last2 := num;
    }
  }

  lemma FieldsUnfold(fields: seq<Field>, vs: seq<Val>, num: nat)
    requires FieldsHaveType(vs, fields) && fields != []
    ensures EncFields(fields, vs, num) == EncField(fields[0], vs[0], num) + EncFields(fields[1..], vs[1..], num + 1)
    ensures CollapseFields(fields, vs) == [CollapseField(fields[0], vs[0])] + CollapseFields(fields[1..], vs[1..])
  {
  }

  lemma FieldsSplit(fields: seq<Field>, vs: seq<Val>)
    requires FieldsHaveType(vs, fields) && EncodableFields(fields, vs) && fields != []
    ensures |vs| == |fields|
    ensures FieldHasType(vs[0], fields[0]) && EncodableField(fields[0], vs[0])
    ensures FieldsHaveType(vs[1..], fields[1..]) && EncodableFields(fields[1..], vs[1..])
  {
  }

  lemma StepElided(fields: seq<Field>, bz: seq<Byte>, num: nat, last: nat)
    requires fields != [] && StartsAt(bz, num + 1)
    ensures DecFields(fields, bz, num, last) ==
            Prepend(DefaultOf(fields[0]), DecFields(fields[1..], bz, num + 1, last))
  {
  }

  lemma StepRepeated(fields: seq<Field>, e: seq<Byte>, tail: seq<Byte>, num: nat, last: nat, es: seq<Val>)
    requires fields != [] && Unpacked(fields[0].typ) && e != []
    requires ReadKey(e + tail).Key? && ReadKey(e + tail).num == num
    requires DecRepeated(fields[0], e + tail, num) == Got(es, |e|)
    ensures DecFields(fields, e + tail, num, last) == Prepend(VList(es), DecFields(fields[1..], tail, num + 1, last))
  {
    assert (e + tail)[|e|..] == tail;
  }

  lemma StepPlain(fields: seq<Field>, e: seq<Byte>, tail: seq<Byte>, num: nat, last: nat, v: Val)
    requires fields != [] && !Unpacked(fields[0].typ) && e != [] && last < num
    requires var k := ReadKey(e + tail);
             && k.Key? && k.num == num && k.code == Code(Typ3Of(fields[0].typ)) && k.n <= |e|
             && DecField(fields[0], (e + tail)[k.n..]) == Got(v, |e| - k.n)
    ensures DecFields(fields, e + tail, num, last) == Prepend(v, DecFields(fields[1..], tail, num + 1, num))
  {
    assert (e + tail)[|e|..] == tail;
  }

  /** A field that writes nothing holds the default. */
  lemma {:induction false} ElidedIsDefault(f: Field, v: Val, num: nat)
    requires Legal(f.typ) && FieldHasType(v, f) && EncodableField(f, v) && EncField(f, v, num) == []
    ensures CollapseField(f, v) == DefaultOf(f)
    decreases f, 0
  {
    if !f.ptr {
      assert HasType(v, f.typ);
      if NonstructDefault(v) {
        DefaultCollapses(f.typ, v);
      } else if !Unpacked(f.typ) {
        DecodesEncoding(f.typ, v, []);
        ZeroIsDefault(f.typ, []);
      }
    }
  }

  lemma {:induction false} DecodesRepeated(f: Field, v: Val, num: nat, tail: seq<Byte>)
    requires Legal(f.typ) && Unpacked(f.typ) && !f.ptr && num <= MAX_FIELD
    requires FieldHasType(v, f) && EncodableField(f, v) && EncField(f, v, num) != []
    requires |EncField(f, v, num)| < TWO_63 && StartsAt(tail, num + 1)
    ensures HasType(v, f.typ)
    ensures DecRepeated(f, EncField(f, v, num) + tail, num) == Got(CollapseElems(f.typ, v.es), |EncField(f, v, num)|)
    ensures CollapseField(f, v) == VList(CollapseElems(f.typ, v.es))
    decreases f, 0
  {
    assert HasType(v, f.typ) && Encodable(f.typ, v);
    DecodesElems(f.typ, v.es, num, tail);
  }

  lemma {:induction false} DecodesField(f: Field, v: Val, num: nat, tail: seq<Byte>)
    requires Legal(f.typ) && (f.ptr ==> f.typ.TStruct?) && !Unpacked(f.typ) && num <= MAX_FIELD
    requires FieldHasType(v, f) && EncodableField(f, v) && EncField(f, v, num) != []
    requires |EncField(f, v, num)| < TWO_63
    ensures var bz, k := EncField(f, v, num) + tail, |PutKey(num, Typ3Of(f.typ))|;
            && k <= |bz|
            && ReadKey(bz) == Key(num, Code(Typ3Of(f.typ)), k)
            && DecField(f, bz[k..]) == Got(CollapseField(f, v), |EncField(f, v, num)| - k)
    decreases f, 0
  {
    var key, enc := PutKey(num, Typ3Of(f.typ)), Enc(f.typ, if f.ptr then v.v else v);
    KeyRoundTrip(num, Typ3Of(f.typ), enc + tail);
    var bz := EncField(f, v, num) + tail;
    assert bz == key + (enc + tail);
    assert bz[|key|..] == enc + tail;
    DecodesEncoding(f.typ, if f.ptr then v.v else v, tail);
  }

  // ---------------------------------------------------------------- structs

  /** Every encodable struct comes back from Marshal and Unmarshal as it was, but for
      the collapsed elements. */
  lemma {:induction false} MarshalRoundTrip(t: Typ, v: Val)
    requires t.TStruct? && Legal(t) && HasType(v, t)
    requires Marshal(t, v).Some? && |Marshal(t, v).value| < TWO_63
    ensures Unmarshal(t, Marshal(t, v).value) == Some(Collapse(t, v))
  {
    var bz := Marshal(t, v).value;
    DecodesFields(t.fields, v.fs, 1, 0, []);
    assert bz + [] == bz;
  }

  // ---------------------------------------------------------------- when nothing collapses

  /** Fields that all hold what encodes to nothing. */
  predicate Empty(fields: seq<Field>, vs: seq<Val>)
    requires FieldsHaveType(vs, fields)
    decreases fields
  {
    fields == [] || (EmptyField(fields[0], vs[0]) && Empty(fields[1..], vs[1..]))
  }

  /** A nil pointer; an elidable default; a plain struct of such fields; or, with
      write_empty, still an empty list of length-prefixed elements. */
  predicate EmptyField(f: Field, v: Val)
    requires FieldHasType(v, f)
    decreases f
  {
    if f.ptr then v.VNil?
    else if f.writeEmpty then Unpacked(f.typ) && NonstructDefault(v)
    else NonstructDefault(v) || (f.typ.TStruct? && EmptyStruct(f.typ, v))
  }

  predicate EmptyStruct(t: Typ, v: Val)
    requires t.TStruct? && HasType(v, t)
    decreases t
  {
    Empty(t.fields, v.fs)
  }

  lemma {:induction false} EmptyIffNoBytes(fields: seq<Field>, vs: seq<Val>, num: nat)
    requires FieldsHaveType(vs, fields) && forall f | f in fields :: Legal(f.typ)
    ensures Empty(fields, vs) <==> EncFields(fields, vs, num) == []
    decreases fields, 1
  {
    if fields != [] {
      assert fields[0] in fields;
      EmptyFieldIff(fields[0], vs[0], num);
      EmptyIffNoBytes(fields[1..], vs[1..], num + 1);
    }
  }

  lemma {:induction false} EmptyFieldIff(f: Field, v: Val, num: nat)
    requires FieldHasType(v, f) && Legal(f.typ)
    ensures EmptyField(f, v) <==> EncField(f, v, num) == []
    decreases f, 0
  {
    if !f.ptr {
      assert HasType(v, f.typ);
      if f.typ.TStruct? {
        EmptyStructIff(f.typ, v);
      } else if !Unpacked(f.typ) && !NonstructDefault(v) {
        NotZeroByte(f.typ, v);
      }
    }
  }

  lemma {:induction false} EmptyStructIff(t: Typ, v: Val)
    requires t.TStruct? && HasType(v, t) && Legal(t)
    ensures EmptyStruct(t, v) <==> Enc(t, v) == [0]
    decreases t, 0
  {
    EmptyIffNoBytes(t.fields, v.fs, 1);
    PrefixByte(EncFields(t.fields, v.fs, 1));
  }

  /** Only defaults and empty structs encode to a zero byte. */
  lemma NotZeroByte(t: Typ, v: Val)
    requires Legal(t) && HasType(v, t) && !t.TStruct? && !Unpacked(t) && !NonstructDefault(v)
    ensures Enc(t, v) != [0]
  {
    match t {
      case TBytes => PrefixByte(v.bs);
      case TString => PrefixByte(v.bs);
      case TList(_, _, _) =>
        PrefixByte(EncElems(t, v.es, 1));
        assert v.es[0] in v.es;
        assert EncElems(t, v.es, 1) == EncPacked(t, v.es[0]) + EncElems(t, v.es[1..], 1);
      case _ =>
    }
  }

  /** No list with nil_elements holds a pointer to an empty struct. */
  predicate Faithful(t: Typ, v: Val)
    requires HasType(v, t)
    decreases t, 1
  {
    match t
    case TStruct(fields) => FaithfulFields(fields, v.fs)
    case TList(_, _, _) => forall e | e in v.es :: FaithfulElem(t, e)
    case _ => true
  }

  predicate FaithfulElem(t: Typ, e: Val)
    requires t.TList? && ElemHasType(e, t)
    decreases t, 0
  {
    if !t.ptr then Faithful(t.elem, e)
    else e.VNil? || (Faithful(t.elem, e.v) && !(t.nilElems && t.elem.TStruct? && EmptyStruct(t.elem, e.v)))
  }

  predicate FaithfulFields(fields: seq<Field>, vs: seq<Val>)
    requires FieldsHaveType(vs, fields)
    decreases fields
  {
    fields == [] || (FaithfulField(fields[0], vs[0]) && FaithfulFields(fields[1..], vs[1..]))
  }

  predicate FaithfulField(f: Field, v: Val)
    requires FieldHasType(v, f)
    decreases f
  {
    if !f.ptr then Faithful(f.typ, v) else v.VNil? || Faithful(f.typ, v.v)
  }

  lemma {:induction false} CollapseIff(t: Typ, v: Val)
    requires Legal(t) && HasType(v, t)
    ensures Collapse(t, v) == v <==> Faithful(t, v)
    decreases t, 1, 0
  {
    match t {
      case TStruct(fields) => CollapseFieldsIff(fields, v.fs);
      case TList(_, _, _) => CollapseElemsIff(t, v.es);
      case _ =>
    }
  }

  lemma {:induction false} CollapseElemsIff(t: Typ, es: seq<Val>)
    requires t.TList? && Legal(t) && forall e | e in es :: ElemHasType(e, t)
    ensures CollapseElems(t, es) == es <==> forall e | e in es :: FaithfulElem(t, e)
    decreases t, 0, |es|
  {
    if es != [] {
      var e := es[0];
      assert e in es;
      CollapseElemsIff(t, es[1..]);
      if t.ptr && e.VPtr? {
        CollapseIff(t.elem, e.v);
        EmptyStructIff(t.elem, e.v);
      } else if !t.ptr {
        CollapseIff(t.elem, e);
      }
      assert es == [e] + es[1..];
      assert CollapseElems(t, es)[0] == CollapseElem(t, e) && CollapseElems(t, es)[1..] == CollapseElems(t, es[1..]);
    }
  }

  lemma {:induction false} CollapseFieldsIff(fields: seq<Field>, vs: seq<Val>)
    requires FieldsHaveType(vs, fields) && forall f | f in fields :: Legal(f.typ)
    ensures CollapseFields(fields, vs) == vs <==> FaithfulFields(fields, vs)
    decreases fields, 1
  {
    if fields != [] {
      assert fields[0] in fields;
      CollapseFieldIff(fields[0], vs[0]);
      CollapseFieldsIff(fields[1..], vs[1..]);
      var c := CollapseFields(fields, vs);
      assert c[0] == CollapseField(fields[0], vs[0]) && c[1..] == CollapseFields(fields[1..], vs[1..]);
      assert vs == [vs[0]] + vs[1..];
    }
  }

  lemma {:induction false} CollapseFieldIff(f: Field, v: Val)
    requires FieldHasType(v, f) && Legal(f.typ)
    ensures CollapseField(f, v) == v <==> FaithfulField(f, v)
    decreases f, 0
  {
    if !f.ptr {
      CollapseIff(f.typ, v);
    } else if v.VPtr? {
      CollapseIff(f.typ, v.v);
    }
  }

  /** A struct survives the round trip exactly when it is faithful. */
  lemma {:induction false} RoundTripIff(t: Typ, v: Val)
    requires t.TStruct? && Legal(t) && HasType(v, t)
    requires Marshal(t, v).Some? && |Marshal(t, v).value| < TWO_63
    ensures Unmarshal(t, Marshal(t, v).value) == Some(v) <==> Faithful(t, v)
  {
    MarshalRoundTrip(t, v);
    CollapseIff(t, v);
  }

  /** So faithful structs of a type with the same encoding are the same, a nil
      pointer field and one to an empty struct in particular. */
  lemma {:induction false} MarshalInjective(t: Typ, v: Val, w: Val)
    requires t.TStruct? && Legal(t) && HasType(v, t) && HasType(w, t) && Faithful(t, v) && Faithful(t, w)
    requires Marshal(t, v).Some? && |Marshal(t, v).value| < TWO_63 && Marshal(t, v) == Marshal(t, w)
    ensures v == w
  {
    RoundTripIff(t, v);
    RoundTripIff(t, w);
  }

  /** Not every struct is faithful: one whose list has a pointer to an empty struct
      comes back with a nil element. */
  lemma NilElementsLosePointers()
    ensures var empty := TStruct([]);
            var t := TStruct([Field(TList(empty, true, true), false, false)]);
            var v := VStruct([VList([VPtr(VStruct([]))])]);
            && Legal(t) && HasType(v, t) && Marshal(t, v).Some?
            && Unmarshal(t, Marshal(t, v).value) == Some(VStruct([VList([VNil])]))
  {
    var empty := TStruct([]);
    var lt := TList(empty, true, true);
    var f := Field(lt, false, false);
    var t := TStruct([f]);
    var es := [VPtr(VStruct([]))];
    var v := VStruct([VList(es)]);
    assert HasType(VStruct([]), empty);
    assert ElemHasType(es[0], lt);
    assert HasType(VList(es), lt);
    assert FieldHasType(VList(es), f);
    assert FieldsHaveType([VList(es)], [f]);
    assert Legal(empty) && Legal(lt) && Legal(t);
    assert EncodableElem(lt, es[0]);
    assert Encodable(lt, VList(es));
    assert EncodableField(f, VList(es));
    assert Encodable(t, v);
    assert Enc(empty, VStruct([])) == [0] by {
      PrefixByte([]);
    }
    assert EncElem(lt, es[0]) == [0];
    assert EncElems(lt, es, 1) == PutKey(1, ByteLength) + [0] + EncElems(lt, es[1..], 1);
    assert |PutKey(1, ByteLength)| == 1;
    assert EncFields([f], [VList(es)], 1) == EncField(f, VList(es), 1) + EncFields([f][1..], [VList(es)][1..], 2);
    assert EncField(f, VList(es), 1) == EncElems(lt, es, 1);
    MarshalRoundTrip(t, v);
    assert CollapseElem(lt, es[0]) == VNil;
    assert CollapseElems(lt, es) == [VNil];
    assert CollapseField(f, VList(es)) == VList([VNil]);
    assert CollapseFields([f], [VList(es)]) == [VList([VNil])];
  }
}
