/** A decoder for a struct type reading what an extension of that type wrote. */
module AminoCompat {
  import opened AminoPrimitives
  import opened AminoTypes
  import opened AminoCodec
  import opened AminoRoundTrip

  // ---------------------------------------------------------------- skipping one value

  /** Skipping by wire type takes exactly the bytes of the value. */
  lemma ConsumesEncoding(t: Typ, v: Val, rest: seq<Byte>)
    requires HasType(v, t) && |Enc(t, v)| < TWO_63
    ensures ConsumeAny(Code(Typ3Of(t)), Enc(t, v) + rest) == Some(|Enc(t, v)|)
  {
    hide Uvarint, PutUvarint, PutFixed;
    match t {
      case TBool =>
        UvarintRoundTrip(if v.b then 1 else 0, rest);
        OneByteVarint();
      case TInt(k) => ConsumesInt(k, v.n, rest);
      case TBytes => BytesRoundTrip(v.bs, rest);
      case TString => BytesRoundTrip(v.bs, rest);
      case TStruct(fields) => BytesRoundTrip(EncFields(fields, v.fs, 1), rest);
      case TList(_, _, _) => BytesRoundTrip(EncElems(t, v.es, 1), rest);
    }
  }

  lemma OneByteVarint()
    ensures PutUvarint(0) == [0] && PutUvarint(1) == [1]
  {
  }

  lemma ConsumesInt(k: Kind, n: int, rest: seq<Byte>)
    requires InKind(k, n)
    ensures ConsumeAny(Code(Typ3Of(TInt(k))), EncInt(k, n) + rest) == Some(|EncInt(k, n)|)
  {
    hide Uvarint, PutUvarint, PutFixed;
    if k.U8? || k.U16? || k.U32? || k.U64? {
      UvarintRoundTrip(n, rest);
    } else if k.I8? || k.I16? || k.I32? || k.I64? {
      VarintRoundTrip(n, rest);
    }
  }

  lemma ConsumesElem(t: Typ, e: Val, rest: seq<Byte>)
    requires t.TList? && Legal(t) && Unpacked(t) && ElemHasType(e, t) && |EncElem(t, e)| < TWO_63
    ensures ConsumeAny(Code(ByteLength), EncElem(t, e) + rest) == Some(|EncElem(t, e)|)
  {
    hide ConsumeAny, Bytes;
    if NonstructDefault(e) {
      ConsumesZero(rest);
    } else if t.ptr {
      ConsumesEncoding(t.elem, e.v, rest);
    } else if Implicit(t.elem) {
      ConsumesBytes(PutKey(1, ByteLength) + Enc(t.elem, e), rest);
    } else {
      ConsumesEncoding(t.elem, e, rest);
    }
  }

  lemma ConsumesBytes(bs: seq<Byte>, rest: seq<Byte>)
    requires |bs| < TWO_63
    ensures ConsumeAny(Code(ByteLength), PutBytes(bs) + rest) == Some(|PutBytes(bs)|)
  {
    BytesRoundTrip(bs, rest);
  }

  lemma ConsumesZero(rest: seq<Byte>)
    ensures ConsumeAny(Code(ByteLength), [0] + rest) == Some(1)
  {
    BytesRoundTrip([], rest);
    PrefixByte([]);
  }

  // ---------------------------------------------------------------- skipping fields

  /** No repeated field holds two elements or more. */
  predicate Skippable(fields: seq<Field>, vs: seq<Val>)
    requires FieldsHaveType(vs, fields)
    decreases fields
  {
    fields == [] || (SkippableField(fields[0], vs[0]) && Skippable(fields[1..], vs[1..]))
  }

  predicate SkippableField(f: Field, v: Val)
    requires FieldHasType(v, f)
  {
    Unpacked(f.typ) && v.VList? ==> |v.es| <= 1
  }

  /** One turn of the skipping loop. */
  lemma SkipStep(num: nat, t: Typ3, e: seq<Byte>, tail: seq<Byte>, last: nat)
    requires num <= MAX_FIELD && ConsumeAny(Code(t), e + tail) == Some(|e|)
    ensures Skip(PutKey(num, t) + e + tail, last) <==> num > last && Skip(tail, num)
  {
    hide ConsumeAny, ReadKey, PutKey;
    var key := PutKey(num, t);
    var bz := key + e + tail;
    KeyFirst(num, t, e, tail);
    CatAssoc(key, e, tail);
    assert bz[|key|..] == e + tail;
    assert bz[|key| + |e|..] == tail;
    KeyNotEmpty(num, t);
  }

  /** The fields an extension wrote are skipped exactly when they are skippable. */
  lemma {:induction false} SkipsFields(fields: seq<Field>, vs: seq<Val>, num: nat, last: nat)
    requires FieldsHaveType(vs, fields) && forall f | f in fields :: Legal(f.typ) && (f.ptr ==> f.typ.TStruct?)
    requires last < num && num + |fields| <= MAX_FIELD + 1 && |EncFields(fields, vs, num)| < TWO_63
    ensures Skip(EncFields(fields, vs, num), last) <==> Skippable(fields, vs)
    decreases fields
  {
    hide *;
    if fields == [] {
      NothingToSkip(fields, vs, num, last);
    } else {
      assert fields[0] in fields;
      SplitTypes(fields, vs);
      FieldsUnfold(fields, vs, num);
      var tail := EncFields(fields[1..], vs[1..], num + 1);
      SkipsFields(fields[1..], vs[1..], num + 1, num);
      StartsNowhere(num + |fields|);
      FieldsStart(fields[1..], vs[1..], num + 1, []);
      assert tail + [] == tail;
      SkipsField(fields[0], vs[0], num, last, tail);
      SkippableUnfold(fields, vs);
    }
  }

  lemma StartsNowhere(num: nat)
    ensures StartsAt([], num)
  {
  }

  lemma NothingToSkip(fields: seq<Field>, vs: seq<Val>, num: nat, last: nat)
    requires fields == [] && FieldsHaveType(vs, fields)
    ensures Skip(EncFields(fields, vs, num), last) && Skippable(fields, vs)
  {
  }

  lemma SplitTypes(fields: seq<Field>, vs: seq<Val>)
    requires FieldsHaveType(vs, fields) && fields != []
    ensures |vs| == |fields|
    ensures FieldHasType(vs[0], fields[0]) && FieldsHaveType(vs[1..], fields[1..])
  {
  }

  lemma SkippableUnfold(fields: seq<Field>, vs: seq<Val>)
    requires FieldsHaveType(vs, fields) && fields != []
    ensures Skippable(fields, vs) <==> SkippableField(fields[0], vs[0]) && Skippable(fields[1..], vs[1..])
  {
  }

  lemma {:induction false} SkipsField(f: Field, v: Val, num: nat, last: nat, tail: seq<Byte>)
    requires FieldHasType(v, f) && Legal(f.typ) && (f.ptr ==> f.typ.TStruct?)
    requires last < num <= MAX_FIELD && |EncField(f, v, num)| < TWO_63 && StartsAt(tail, num + 1)
    ensures Skip(EncField(f, v, num) + tail, last) <==> SkippableField(f, v) && Skip(tail, num)
  {
    hide Skip, ConsumeAny, PutKey, ReadKey;
    var e := EncField(f, v, num);
    if e == [] {
      assert e + tail == tail;
      SkipForgets(tail, last, num, num + 1);
      ElidedIsSkippable(f, v, num);
    } else if Unpacked(f.typ) {
      assert HasType(v, f.typ);
      assert e == EncElems(f.typ, v.es, num);
      SkipsElems(f.typ, v.es, num, last, tail);
    } else {
      var x := if f.ptr then v.v else v;
      ConsumesEncoding(f.typ, x, tail);
      SkipStep(num, Typ3Of(f.typ), Enc(f.typ, x), tail, last);
    }
  }

  lemma ElidedIsSkippable(f: Field, v: Val, num: nat)
    requires FieldHasType(v, f) && (f.ptr ==> f.typ.TStruct?) && EncField(f, v, num) == []
    ensures SkippableField(f, v)
  {
    if Unpacked(f.typ) {
      assert HasType(v, f.typ);
      assert v.es != [] ==> |EncElems(f.typ, v.es, num)| > 0;
    }
  }

  /** A repeated field gets through once; the second element has a number seen before. */
  lemma {:induction false} SkipsElems(t: Typ, es: seq<Val>, num: nat, last: nat, tail: seq<Byte>)
    requires t.TList? && Unpacked(t) && Legal(t) && es != [] && forall e | e in es :: ElemHasType(e, t)
    requires last < num <= MAX_FIELD && |EncElems(t, es, num)| < TWO_63
    ensures Skip(EncElems(t, es, num) + tail, last) <==> |es| == 1 && Skip(tail, num)
  {
    hide Skip, ConsumeAny, PutKey, ReadKey, EncElem;
    assert es[0] in es;
    ElemsUnfold(t, es, num);
    var e, rest := EncElem(t, es[0]), EncElems(t, es[1..], num);
    CatAssoc(PutKey(num, ByteLength) + e, rest, tail);
    ConsumesElem(t, es[0], rest + tail);
    SkipStep(num, ByteLength, e, rest + tail, last);
    if |es| == 1 {
      assert rest + tail == tail;
    } else {
      ElemsUnfold(t, es[1..], num);
      var e1, rest1 := EncElem(t, es[1..][0]), EncElems(t, es[1..][1..], num);
      CatAssoc(PutKey(num, ByteLength) + e1, rest1, tail);
      assert es[1..][0] in es;
      ConsumesElem(t, es[1..][0], rest1 + tail);
      SkipStep(num, ByteLength, e1, rest1 + tail, num);
    }
  }

  // ---------------------------------------------------------------- extended structs

  lemma {:induction false} EncFieldsAppend(fields: seq<Field>, vs: seq<Val>, more: seq<Field>, ws: seq<Val>, num: nat)
    requires FieldsHaveType(vs, fields) && FieldsHaveType(ws, more)
    ensures FieldsHaveType(vs + ws, fields + more)
    ensures EncFields(fields + more, vs + ws, num) == EncFields(fields, vs, num) + EncFields(more, ws, num + |fields|)
    decreases fields
  {
    if fields == [] {
      assert fields + more == more && vs + ws == ws;
    } else {
      EncFieldsAppend(fields[1..], vs[1..], more, ws, num + 1);
      assert (fields + more)[1..] == fields[1..] + more && (vs + ws)[1..] == vs[1..] + ws;
      assert (fields + more)[0] == fields[0] && (vs + ws)[0] == vs[0];
      CatAssoc(EncField(fields[0], vs[0], num), EncFields(fields[1..], vs[1..], num + 1),
               EncFields(more, ws, num + |fields|));
    }
  }

  /** A decoder for a struct type, given what a struct of an extended type wrote,
      yields exactly the common fields when no added repeated field holds two
      elements or more, and fails otherwise. */
  lemma {:induction false} ForwardCompatible(fields: seq<Field>, more: seq<Field>, vs: seq<Val>, ws: seq<Val>)
    requires Legal(TStruct(fields + more)) && FieldsHaveType(vs, fields) && FieldsHaveType(ws, more)
    requires EncodableFields(fields, vs)
    requires FieldsHaveType(vs + ws, fields + more) && |EncFields(fields + more, vs + ws, 1)| < TWO_63
    ensures Unmarshal(TStruct(fields), EncFields(fields + more, vs + ws, 1)) ==
            if Skippable(more, ws) then Some(Collapse(TStruct(fields), VStruct(vs))) else None
  {
    forall f | f in fields
      ensures Legal(f.typ) && (f.ptr ==> f.typ.TStruct?)
    {
      assert f in fields + more;
    }
    forall f | f in more
      ensures Legal(f.typ) && (f.ptr ==> f.typ.TStruct?)
    {
      assert f in fields + more;
    }
    CommonFields(fields, more, vs, ws);
  }

  lemma {:induction false} CommonFields(fields: seq<Field>, more: seq<Field>, vs: seq<Val>, ws: seq<Val>)
    requires forall f | f in fields :: Legal(f.typ) && (f.ptr ==> f.typ.TStruct?)
    requires forall f | f in more :: Legal(f.typ) && (f.ptr ==> f.typ.TStruct?)
    requires |fields| + |more| <= MAX_FIELD && FieldsHaveType(vs, fields) && FieldsHaveType(ws, more)
    requires EncodableFields(fields, vs)
    requires FieldsHaveType(vs + ws, fields + more) && |EncFields(fields + more, vs + ws, 1)| < TWO_63
    ensures DecFields(fields, EncFields(fields + more, vs + ws, 1), 1, 0) ==
            if Skippable(more, ws) then Some(CollapseFields(fields, vs)) else None
  {
    hide *;
    var n := 1 + |fields|;
    EncFieldsAppend(fields, vs, more, ws, 1);
    var tail := EncFields(more, ws, n);
    StartsNowhere(n + |more|);
    FieldsStart(more, ws, n, []);
    assert tail + [] == tail;
    DecodesFields(fields, vs, 1, 0, tail);
    SkipsFields(more, ws, n, n - 1);
  }

  /** A struct to which a list of byte slices was added, with two of them: a decoder for
      the struct without fields fails. With one it succeeds. */
  lemma TwoAddedElementsFail(x: Byte)
    ensures var more := [Field(TList(TBytes, false, false), false, false)];
            var one, two := [VList([VBytes([x])])], [VList([VBytes([x]), VBytes([x])])];
            && FieldsHaveType(one, more) && FieldsHaveType(two, more)
            && Unmarshal(TStruct([]), EncFields(more, one, 1)) == Some(VStruct([]))
            && Unmarshal(TStruct([]), EncFields(more, two, 1)) == None
  {
    var t := TList(TBytes, false, false);
    var f := Field(t, false, false);
    var v, one, two := VBytes([x]), VList([VBytes([x])]), VList([VBytes([x]), VBytes([x])]);
    OneElement(f, one);
    OneElement(f, two);
    SmallElems(t, [v, v]);
    SmallElems(t, [v]);
    AddedOnly(f, one);
    AddedOnly(f, two);
  }

  lemma OneElement(f: Field, v: Val)
    requires FieldHasType(v, f)
    ensures FieldsHaveType([v], [f]) && EncFields([f], [v], 1) == EncField(f, v, 1)
    ensures Skippable([f], [v]) == SkippableField(f, v)
  {
    assert [f][1..] == [] && [v][1..] == [];
    assert FieldsHaveType([], []);
    assert EncFields([], [], 2) == [];
  }

  lemma AddedOnly(f: Field, v: Val)
    requires Legal(f.typ) && (f.ptr ==> f.typ.TStruct?) && FieldHasType(v, f) && |EncField(f, v, 1)| < TWO_63
    ensures FieldsHaveType([v], [f])
    ensures Unmarshal(TStruct([]), EncFields([f], [v], 1)) == if SkippableField(f, v) then Some(VStruct([])) else None
  {
    OneElement(f, v);
    assert [] + [f] == [f] && [] + [v] == [v];
    assert Legal(TStruct([f]));
    ForwardCompatible([], [f], [], [v]);
    assert Collapse(TStruct([]), VStruct([])) == VStruct([]);
  }

  /** Few small elements take few bytes. */
  lemma SmallElems(t: Typ, es: seq<Val>)
    requires t == TList(TBytes, false, false) && |es| <= 2 && forall e | e in es :: e.VBytes? && |e.bs| == 1
    ensures |EncElems(t, es, 1)| <= 3 * |es|
    decreases |es|
  {
    if es != [] {
      assert es[0] in es;
      SmallElems(t, es[1..]);
      SmallKey();
      assert |EncElem(t, es[0])| == 2 by { SmallLength(); }
    }
  }

  lemma SmallKey()
    ensures |PutKey(1, ByteLength)| == 1
  {
  }

  lemma SmallLength()
    ensures |PutUvarint(1)| == 1
  {
  }
}
