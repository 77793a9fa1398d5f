/** A decoder for a type reading what a newer version of the type wrote, in which
    structs at any depth have more fields. */
module AminoEvolution {
  import opened AminoPrimitives
  import opened AminoTypes
  import opened AminoCodec
  import opened AminoRoundTrip
  import opened AminoCompat

  // ---------------------------------------------------------------- versions of a type

  /** `u` is `t`, with fields added at the end of structs in it. */
  predicate Older(t: Typ, u: Typ)
    decreases t
  {
    match t
    case TStruct(fields) => u.TStruct? && OlderFields(fields, u.fields)
    case TList(elem, ptr, nilElems) => u.TList? && u.ptr == ptr && u.nilElems == nilElems && Older(elem, u.elem)
    case _ => t == u
  }

  predicate OlderFields(fields: seq<Field>, gs: seq<Field>)
    decreases fields
  {
    fields == [] || (gs != [] && OlderField(fields[0], gs[0]) && OlderFields(fields[1..], gs[1..]))
  }

  predicate OlderField(f: Field, g: Field)
    decreases f
  {
    f.ptr == g.ptr && f.writeEmpty == g.writeEmpty && Older(f.typ, g.typ)
  }

  /** Where the old decoder finds unknown fields it can skip them. */
  predicate Readable(t: Typ, u: Typ, v: Val)
    requires Older(t, u) && HasType(v, u)
    decreases t, 1, 0
  {
    match t
    case TStruct(fields) => ReadableFields(fields, u.fields, v.fs)
    case TList(_, _, _) => ReadableElems(t, u, v.es)
    case _ => true
  }

  predicate ReadableElems(t: Typ, u: Typ, es: seq<Val>)
    requires t.TList? && Older(t, u) && forall e | e in es :: ElemHasType(e, u)
    decreases t, 0, |es|
  {
    es == [] || (ReadableElem(t, u, es[0]) && ReadableElems(t, u, es[1..]))
  }

  predicate ReadableElem(t: Typ, u: Typ, e: Val)
    requires t.TList? && Older(t, u) && ElemHasType(e, u)
    decreases t, 0, 0
  {
    if t.ptr then e.VNil? || Readable(t.elem, u.elem, e.v) else Readable(t.elem, u.elem, e)
  }

  predicate ReadableFields(fields: seq<Field>, gs: seq<Field>, vs: seq<Val>)
    requires OlderFields(fields, gs) && FieldsHaveType(vs, gs)
    decreases fields
  {
    if fields == [] then Skippable(gs, vs)
    else ReadableField(fields[0], gs[0], vs[0]) && ReadableFields(fields[1..], gs[1..], vs[1..])
  }

  predicate ReadableField(f: Field, g: Field, v: Val)
    requires OlderField(f, g) && FieldHasType(v, g)
    decreases f
  {
    if f.ptr then v.VNil? || Readable(f.typ, g.typ, v.v) else Readable(f.typ, g.typ, v)
  }

  /** The value without the fields the old type does not have (and with nil for
      elements that were written as nothing). */
  function Restrict(t: Typ, u: Typ, v: Val): Val
    requires Older(t, u) && HasType(v, u)
    decreases t, 1, 0
  {
    match t
    case TStruct(fields) => VStruct(RestrictFields(fields, u.fields, v.fs))
    case TList(_, _, _) => VList(RestrictElems(t, u, v.es))
    case _ => v
  }

  function RestrictElems(t: Typ, u: Typ, es: seq<Val>): (r: seq<Val>)
    requires t.TList? && Older(t, u) && forall e | e in es :: ElemHasType(e, u)
    ensures |r| == |es|
    decreases t, 0, |es|
  {
    if es == [] then [] else [RestrictElem(t, u, es[0])] + RestrictElems(t, u, es[1..])
  }

  function RestrictElem(t: Typ, u: Typ, e: Val): Val
    requires t.TList? && Older(t, u) && ElemHasType(e, u)
    decreases t, 0, 0
  {
    if !t.ptr then Restrict(t.elem, u.elem, e)
    else if e.VNil? || (t.nilElems && Enc(u.elem, e.v) == [0]) then VNil
    else VPtr(Restrict(t.elem, u.elem, e.v))
  }

  function RestrictFields(fields: seq<Field>, gs: seq<Field>, vs: seq<Val>): (r: seq<Val>)
    requires OlderFields(fields, gs) && FieldsHaveType(vs, gs)
    ensures |r| == |fields|
    decreases fields
  {
    if fields == [] then [] else [RestrictField(fields[0], gs[0], vs[0])] + RestrictFields(fields[1..], gs[1..], vs[1..])
  }

  function RestrictField(f: Field, g: Field, v: Val): Val
    requires OlderField(f, g) && FieldHasType(v, g)
    decreases f
  {
    if !f.ptr then Restrict(f.typ, g.typ, v) else if v.VNil? then VNil else VPtr(Restrict(f.typ, g.typ, v.v))
  }

  /** Both versions have the same shape on the wire. */
  lemma SameShape(t: Typ, u: Typ)
    requires Older(t, u)
    ensures Typ3Of(t) == Typ3Of(u) && Unpacked(t) == Unpacked(u) && Implicit(t) == Implicit(u)
    ensures t.TStruct? == u.TStruct?
    ensures t.TList? ==> Unpacked(t.elem) == Unpacked(u.elem) && Implicit(t.elem) == Implicit(u.elem) && t.elem.TStruct? == u.elem.TStruct?
  {
    if t.TList? && t.elem.TList? {
      assert Older(t.elem.elem, u.elem.elem);
    }
  }

  // ---------------------------------------------------------------- the old decoder

  function Result<T>(ok: bool, v: T, n: nat): Decoded<T> {
    if ok then Got(v, n) else Bad
  }

  /** Whatever follows it, an encoding of the newer type is read as the value without the
      added fields and consumed to exactly its own length, or refused. */
  lemma {:induction false} DecodesNewer(t: Typ, u: Typ, v: Val, rest: seq<Byte>)
    requires Legal(u) && Older(t, u) && HasType(v, u) && Encodable(u, v) && |Enc(u, v)| < TWO_63
    ensures Dec(t, Enc(u, v) + rest) == Result(Readable(t, u, v), Restrict(t, u, v), |Enc(u, v)|)
    decreases t, 3, 0
  {
    match t {
      case TBool =>
      case TInt(k) => IntRoundTrip(k, v.n, rest);
      case TBytes => BytesRoundTrip(v.bs, rest);
      case TString => BytesRoundTrip(v.bs, rest);
      case TStruct(fields) =>
        var body := EncFields(u.fields, v.fs, 1);
        BytesRoundTrip(body, rest);
        UvarintSizeIsLength(|body|);
        NewerFields(fields, u.fields, v.fs, 1, 0);
      case TList(_, _, _) =>
        var body := EncElems(u, v.es, 1);
        BytesRoundTrip(body, rest);
        UvarintSizeIsLength(|body|);
        NewerElems(t, u, v.es, 1, []);
        assert body + [] == body;
    }
  }

  lemma {:induction false} NewerElems(t: Typ, u: Typ, es: seq<Val>, num: nat, rest: seq<Byte>)
    requires t.TList? && Legal(u) && Older(t, u) && forall e | e in es :: ElemHasType(e, u) && EncodableElem(u, e)
    requires num <= MAX_FIELD && |EncElems(u, es, num)| < TWO_63
    requires if Unpacked(u) then StartsAt(rest, num + 1) else rest == []
    ensures DecElems(t, EncElems(u, es, num) + rest, num) ==
            Result(ReadableElems(t, u, es), RestrictElems(t, u, es), |EncElems(u, es, num)|)
    decreases t, 2, |es|
  {
    SameShape(t, u);
    if es == [] {
      assert EncElems(u, es, num) + rest == rest;
    } else {
      assert es[0] in es;
      var tail := EncElems(u, es[1..], num);
      if Unpacked(u) {
        ElemsUnfold(u, es, num);
        NewerElem(t, u, es[0], tail + rest);
        NewerElems(t, u, es[1..], num, rest);
        NewerUnpacked(t, u, es, num, rest);
      } else {
        NewerElems(t, u, es[1..], num, rest);
        NewerPacked(t, u, es, num);
      }
    }
  }

  lemma {:induction false} NewerPacked(t: Typ, u: Typ, es: seq<Val>, num: nat)
    requires t.TList? && Legal(u) && Older(t, u) && !Unpacked(u) && es != []
    requires forall e | e in es :: ElemHasType(e, u) && EncodableElem(u, e)
    requires |EncElems(u, es, num)| < TWO_63
    requires DecElems(t, EncElems(u, es[1..], num) + [], num) ==
             Result(ReadableElems(t, u, es[1..]), RestrictElems(t, u, es[1..]), |EncElems(u, es[1..], num)|)
    ensures DecElems(t, EncElems(u, es, num) + [], num) ==
            Result(ReadableElems(t, u, es), RestrictElems(t, u, es), |EncElems(u, es, num)|)
    decreases t, 1, 0
  {
    SameShape(t, u);
    assert es[0] in es;
    var e, tail := EncPacked(u, es[0]), EncElems(u, es[1..], num);
    assert !u.ptr;
    DecodesNewer(t.elem, u.elem, es[0], tail);
    assert EncElems(u, es, num) + [] == e + tail;
    assert (e + tail)[|e|..] == tail == tail + [];
  }

  lemma NewerUnpacked(t: Typ, u: Typ, es: seq<Val>, num: nat, rest: seq<Byte>)
    requires t.TList? && Older(t, u) && Unpacked(u) && Unpacked(t) && es != [] && num <= MAX_FIELD
    requires forall e | e in es :: ElemHasType(e, u)
    requires var e, tail := EncElem(u, es[0]), EncElems(u, es[1..], num);
             && DecElem(t, e + (tail + rest)) == Result(ReadableElem(t, u, es[0]), RestrictElem(t, u, es[0]), |e|)
             && DecElems(t, tail + rest, num) ==
                Result(ReadableElems(t, u, es[1..]), RestrictElems(t, u, es[1..]), |tail|)
    ensures DecElems(t, EncElems(u, es, num) + rest, num) ==
            Result(ReadableElems(t, u, es), RestrictElems(t, u, es), |EncElems(u, es, num)|)
  {
    var e, tail := EncElem(u, es[0]), EncElems(u, es[1..], num);
    ElemsUnfold(u, es, num);
    NewerUnfold(t, u, es);
    hide *;
    CatAssoc(PutKey(num, ByteLength) + e, tail, rest);
    if ReadableElem(t, u, es[0]) {
      ResultIs(true, RestrictElem(t, u, es[0]), |e|);
      ElemsStep(t, num, e, RestrictElem(t, u, es[0]), tail + rest);
      ResultIs(ReadableElems(t, u, es[1..]), RestrictElems(t, u, es[1..]), |tail|);
    } else {
      ResultIs(false, RestrictElem(t, u, es[0]), |e|);
      ElemsFail(t, num, e, tail + rest);
    }
    ResultIs(ReadableElems(t, u, es), RestrictElems(t, u, es), |EncElems(u, es, num)|);
  }

  lemma ResultIs<T>(ok: bool, v: T, n: nat)
    ensures Result(ok, v, n) == if ok then Got(v, n) else Bad
  {
  }

  lemma NewerUnfold(t: Typ, u: Typ, es: seq<Val>)
    requires t.TList? && Older(t, u) && es != [] && forall e | e in es :: ElemHasType(e, u)
    ensures ReadableElems(t, u, es) <==> ReadableElem(t, u, es[0]) && ReadableElems(t, u, es[1..])
    ensures RestrictElems(t, u, es) == [RestrictElem(t, u, es[0])] + RestrictElems(t, u, es[1..])
  {
  }

  lemma ElemsFail(t: Typ, num: nat, e: seq<Byte>, rest: seq<Byte>)
    requires t.TList? && Unpacked(t) && num <= MAX_FIELD && DecElem(t, e + rest) == Bad
    ensures DecElems(t, PutKey(num, ByteLength) + e + rest, num) == Bad
  {
    hide DecElem;
    var key := PutKey(num, ByteLength);
    var bz := key + e + rest;
    KeyRoundTrip(num, ByteLength, e + rest);
    assert bz == key + (e + rest);
    assert bz[|key|..] == e + rest;
  }

  lemma {:induction false} NewerElem(t: Typ, u: Typ, e: Val, rest: seq<Byte>)
    requires t.TList? && Legal(u) && Older(t, u) && Unpacked(u) && ElemHasType(e, u) && EncodableElem(u, e)
    requires |EncElem(u, e)| < TWO_63
    ensures DecElem(t, EncElem(u, e) + rest) == Result(ReadableElem(t, u, e), RestrictElem(t, u, e), |EncElem(u, e)|)
    decreases t, 0, 1
  {
    SameShape(t, u);
    var bz := EncElem(u, e) + rest;
    if t.ptr {
      NewerPointer(t, u, e, rest);
    } else if NonstructDefault(e) {
      DefaultRestricts(t.elem, u.elem, e);
    } else if Implicit(u.elem) {
      NewerImplicit(t, u, e, rest);
    } else {
      DecodesNewer(t.elem, u.elem, e, rest);
      NewerZero(t.elem, u.elem, e, rest);
      ElemZeroByte(u.elem, e);
      assert bz[0] == Enc(u.elem, e)[0];
    }
  }

  lemma DefaultRestricts(t: Typ, u: Typ, v: Val)
    requires Older(t, u) && HasType(v, u) && NonstructDefault(v)
    ensures v == Default(t) && Restrict(t, u, v) == v && Readable(t, u, v)
  {
  }

  /** Nothing written is read as the default. */
  lemma NewerZero(t: Typ, u: Typ, v: Val, rest: seq<Byte>)
    requires Older(t, u) && HasType(v, u) && Enc(u, v) == [0] ==> Dec(t, [0] + rest) == Result(Readable(t, u, v), Restrict(t, u, v), 1)
    requires Older(t, u) && HasType(v, u) && Typ3Of(t).ByteLength?
    ensures Enc(u, v) == [0] ==> Readable(t, u, v) && Restrict(t, u, v) == Default(t)
  {
    ZeroIsDefault(t, rest);
    if Enc(u, v) == [0] {
      ZeroDecodes(t, rest);
    }
  }

  lemma ZeroDecodes(t: Typ, rest: seq<Byte>)
    requires Typ3Of(t).ByteLength?
    ensures Dec(t, [0] + rest).Got? && Dec(t, [0] + rest).n == 1
  {
    BytesRoundTrip([], rest);
    assert PutBytes([]) == [0] by { PrefixByte([]); }
    UvarintSizeIsLength(0);
    if t.TStruct? {
      NoBytesIsDefaults(t.fields, 1, 0);
    }
  }

  lemma {:induction false} NewerPointer(t: Typ, u: Typ, e: Val, rest: seq<Byte>)
    requires t.TList? && Legal(u) && Older(t, u) && t.ptr && ElemHasType(e, u) && EncodableElem(u, e)
    requires |EncElem(u, e)| < TWO_63
    ensures DecElem(t, EncElem(u, e) + rest) == Result(ReadableElem(t, u, e), RestrictElem(t, u, e), |EncElem(u, e)|)
    decreases t, 0, 0
  {
    SameShape(t, u);
    var bz := EncElem(u, e) + rest;
    if e.VPtr? {
      var enc := Enc(u.elem, e.v);
      assert u.elem.TStruct? && HasType(e.v, u.elem);
      assert e.v.VStruct? && !NonstructDefault(e);
      assert EncElem(u, e) == enc;
      DecodesNewer(t.elem, u.elem, e.v, rest);
      NewerZero(t.elem, u.elem, e.v, rest);
      ElemZeroByte(u.elem, e.v);
      assert bz[0] == enc[0];
    }
  }

  lemma {:induction false} NewerImplicit(t: Typ, u: Typ, e: Val, rest: seq<Byte>)
    requires t.TList? && Legal(u) && Older(t, u) && !t.ptr && Implicit(u.elem) && ElemHasType(e, u) && EncodableElem(u, e)
    requires !NonstructDefault(e) && |EncElem(u, e)| < TWO_63
    ensures DecElem(t, EncElem(u, e) + rest) == Result(ReadableElem(t, u, e), RestrictElem(t, u, e), |EncElem(u, e)|)
    decreases t, 0, 0
  {
    SameShape(t, u);
    var key, enc := PutKey(1, ByteLength), Enc(u.elem, e);
    var ibz := key + enc;
    DecodesNewer(t.elem, u.elem, e, []);
    assert enc + [] == enc;
    hide Dec, Enc, PutKey, ReadKey, PutBytes, Bytes, Readable, Restrict, Legal, Encodable, HasType;
    BytesRoundTrip(ibz, rest);
    UvarintSizeIsLength(|ibz|);
    PrefixByte(ibz);
    KeyRoundTrip(1, ByteLength, enc);
    assert ibz[|key|..] == enc;
    assert (EncElem(u, e) + rest)[0] == PutBytes(ibz)[0];
  }

  // ---------------------------------------------------------------- fields

  /** The fields of the newer struct: the old ones are read, the added ones skipped or
      refused. */
  lemma {:induction false} NewerFields(fields: seq<Field>, gs: seq<Field>, vs: seq<Val>, num: nat, last: nat)
    requires OlderFields(fields, gs) && FieldsHaveType(vs, gs) && EncodableFields(gs, vs)
    requires forall g | g in gs :: Legal(g.typ) && (g.ptr ==> g.typ.TStruct?)
    requires last < num && num + |gs| <= MAX_FIELD + 1 && |EncFields(gs, vs, num)| < TWO_63
    ensures DecFields(fields, EncFields(gs, vs, num), num, last) ==
            if ReadableFields(fields, gs, vs) then Some(RestrictFields(fields, gs, vs)) else None
    decreases fields, 1
  {
    hide *;
    if fields == [] {
      OnlyAdded(fields, gs, vs, num, last);
    } else {
      OlderSplit(fields, gs);
      assert gs[0] in gs;
      FieldsSplit(gs, vs);
      FieldsUnfold(gs, vs, num);
      RestrictUnfold(fields, gs, vs);
      var tail := EncFields(gs[1..], vs[1..], num + 1);
      StartsNowhere(num + |gs|);
      FieldsStart(gs[1..], vs[1..], num + 1, []);
      assert tail + [] == tail;
      var last2 := NewerHead(fields, gs[0], vs[0], num, last, tail);
      NewerFields(fields[1..], gs[1..], vs[1..], num + 1, last2);
      PrependIs(RestrictField(fields[0], gs[0], vs[0]), DecFields(fields[1..], tail, num + 1, last2));
    }
  }

  lemma OnlyAdded(fields: seq<Field>, gs: seq<Field>, vs: seq<Val>, num: nat, last: nat)
    requires fields == [] && FieldsHaveType(vs, gs) && forall g | g in gs :: Legal(g.typ) && (g.ptr ==> g.typ.TStruct?)
    requires last < num && num + |gs| <= MAX_FIELD + 1 && |EncFields(gs, vs, num)| < TWO_63
    ensures OlderFields(fields, gs)
    ensures DecFields(fields, EncFields(gs, vs, num), num, last) ==
            if ReadableFields(fields, gs, vs) then Some(RestrictFields(fields, gs, vs)) else None
  {
    SkipsFields(gs, vs, num, last);
    hide Skip, Skippable, EncFields;
  }

  lemma OlderSplit(fields: seq<Field>, gs: seq<Field>)
    requires OlderFields(fields, gs) && fields != []
    ensures gs != [] && OlderField(fields[0], gs[0]) && OlderFields(fields[1..], gs[1..])
  {
  }

  lemma RestrictUnfold(fields: seq<Field>, gs: seq<Field>, vs: seq<Val>)
    requires OlderFields(fields, gs) && fields != [] && FieldsHaveType(vs, gs)
    ensures ReadableFields(fields, gs, vs) <==>
            ReadableField(fields[0], gs[0], vs[0]) && ReadableFields(fields[1..], gs[1..], vs[1..])
    ensures RestrictFields(fields, gs, vs) ==
            [RestrictField(fields[0], gs[0], vs[0])] + RestrictFields(fields[1..], gs[1..], vs[1..])
  {
  }

  lemma PrependIs(v: Val, r: Option<seq<Val>>)
    ensures Prepend(v, r) == if r.Some? then Some([v] + r.value) else None
  {
  }

  lemma {:induction false} NewerHead(fields: seq<Field>, g: Field, v: Val, num: nat, last: nat, tail: seq<Byte>) returns (last2: nat)
    requires fields != [] && OlderField(fields[0], g) && FieldHasType(v, g) && EncodableField(g, v)
    requires Legal(g.typ) && (g.ptr ==> g.typ.TStruct?)
    requires last < num <= MAX_FIELD && |EncField(g, v, num)| < TWO_63 && StartsAt(tail, num + 1)
    ensures last2 <= num
    ensures DecFields(fields, EncField(g, v, num) + tail, num, last) ==
            if ReadableField(fields[0], g, v)
            then Prepend(RestrictField(fields[0], g, v), DecFields(fields[1..], tail, num + 1, last2)) else None
    decreases fields, 0, 1
  {
    var e := EncField(g, v, num);
    hide *;
    last2 := last;
    if e == [] {
      ElidedHead(fields, g, v, num, last, tail);
    } else if Unpacked(g.typ) {
      RepeatedCase(fields, g, v, num, last, tail);
    } else {
      PlainCase(fields, g, v, num, last, tail);
      last2 := num;
    }
  }

  lemma {:induction false} ElidedHead(fields: seq<Field>, g: Field, v: Val, num: nat, last: nat, tail: seq<Byte>)
    requires fields != [] && OlderField(fields[0], g) && FieldHasType(v, g) && EncodableField(g, v) && Legal(g.typ)
    requires EncField(g, v, num) == [] && StartsAt(tail, num + 1)
    ensures DecFields(fields, EncField(g, v, num) + tail, num, last) ==
            if ReadableField(fields[0], g, v)
            then Prepend(RestrictField(fields[0], g, v), DecFields(fields[1..], tail, num + 1, last)) else None
    decreases fields, 0, 0
  {
    hide *;
    assert EncField(g, v, num) + tail == tail;
    NewerElided(fields[0], g, v, num);
    StepElided(fields, tail, num, last);
  }

  lemma {:induction false} RepeatedCase(fields: seq<Field>, g: Field, v: Val, num: nat, last: nat, tail: seq<Byte>)
    requires fields != [] && OlderField(fields[0], g) && FieldHasType(v, g) && EncodableField(g, v)
    requires Legal(g.typ) && (g.ptr ==> g.typ.TStruct?) && Unpacked(g.typ) && EncField(g, v, num) != []
    requires num <= MAX_FIELD && |EncField(g, v, num)| < TWO_63 && StartsAt(tail, num + 1)
    ensures DecFields(fields, EncField(g, v, num) + tail, num, last) ==
            if ReadableField(fields[0], g, v)
            then Prepend(RestrictField(fields[0], g, v), DecFields(fields[1..], tail, num + 1, last)) else None
    decreases fields, 0, 0
  {
    var f := fields[0];
    SameShape(f.typ, g.typ);
    NotPointer(g);
    assert !f.ptr;
    hide DecFields, EncField, RestrictField, ReadableField, EncodableField, FieldHasType, Legal, OlderField, DecRepeated;
    FieldStart(g, v, num, tail);
    NewerRepeated(f, g, v, num, tail);
    RepeatedHead(fields, EncField(g, v, num), tail, num, last, ReadableField(f, g, v), RestrictElems(f.typ, g.typ, v.es));
  }

  lemma {:induction false} PlainCase(fields: seq<Field>, g: Field, v: Val, num: nat, last: nat, tail: seq<Byte>)
    requires fields != [] && OlderField(fields[0], g) && FieldHasType(v, g) && EncodableField(g, v)
    requires Legal(g.typ) && (g.ptr ==> g.typ.TStruct?) && !Unpacked(g.typ) && EncField(g, v, num) != []
    requires last < num <= MAX_FIELD && |EncField(g, v, num)| < TWO_63
    ensures DecFields(fields, EncField(g, v, num) + tail, num, last) ==
            if ReadableField(fields[0], g, v)
            then Prepend(RestrictField(fields[0], g, v), DecFields(fields[1..], tail, num + 1, num)) else None
    decreases fields, 0, 0
  {
    hide *;
    var f := fields[0];
    OlderTypes(f, g);
    SameShape(f.typ, g.typ);
    NewerField(f, g, v, num, tail);
    PlainHead(fields, EncField(g, v, num), tail, num, last, |PutKey(num, Typ3Of(f.typ))|, ReadableField(f, g, v), RestrictField(f, g, v));
  }

  lemma OlderTypes(f: Field, g: Field)
    requires OlderField(f, g)
    ensures f.ptr == g.ptr && Older(f.typ, g.typ)
  {
  }

  lemma NotPointer(g: Field)
    requires Unpacked(g.typ) && (g.ptr ==> g.typ.TStruct?)
    ensures !g.ptr
  {
  }

  lemma RepeatedHead(fields: seq<Field>, e: seq<Byte>, tail: seq<Byte>, num: nat, last: nat, ok: bool, es: seq<Val>)
    requires fields != [] && Unpacked(fields[0].typ) && e != []
    requires ReadKey(e + tail).Key? && ReadKey(e + tail).num == num
    requires DecRepeated(fields[0], e + tail, num) == Result(ok, es, |e|)
    ensures DecFields(fields, e + tail, num, last) ==
            if ok then Prepend(VList(es), DecFields(fields[1..], tail, num + 1, last)) else None
  {
    ResultIs(ok, es, |e|);
    hide *;
    if ok {
      StepRepeated(fields, e, tail, num, last, es);
    } else {
      FailRepeated(fields, e, tail, num, last);
    }
  }

  lemma PlainHead(fields: seq<Field>, e: seq<Byte>, tail: seq<Byte>, num: nat, last: nat, k: nat, ok: bool, v: Val)
    requires fields != [] && !Unpacked(fields[0].typ) && e != [] && last < num && k <= |e|
    requires ReadKey(e + tail) == Key(num, Code(Typ3Of(fields[0].typ)), k)
    requires DecField(fields[0], (e + tail)[k..]) == Result(ok, v, |e| - k)
    ensures DecFields(fields, e + tail, num, last) ==
            if ok then Prepend(v, DecFields(fields[1..], tail, num + 1, num)) else None
  {
    ResultIs(ok, v, |e| - k);
    hide *;
    if ok {
      StepPlain(fields, e, tail, num, last, v);
    } else {
      FailPlain(fields, e, tail, num, last);
    }
  }

  lemma FailRepeated(fields: seq<Field>, e: seq<Byte>, tail: seq<Byte>, num: nat, last: nat)
    requires fields != [] && Unpacked(fields[0].typ) && e != []
    requires ReadKey(e + tail).Key? && ReadKey(e + tail).num == num
    requires DecRepeated(fields[0], e + tail, num) == Bad
    ensures DecFields(fields, e + tail, num, last) == None
  {
  }

  lemma FailPlain(fields: seq<Field>, e: seq<Byte>, tail: seq<Byte>, num: nat, last: nat)
    requires fields != [] && !Unpacked(fields[0].typ) && e != [] && last < num
    requires var k := ReadKey(e + tail);
             && k.Key? && k.num == num && k.code == Code(Typ3Of(fields[0].typ)) && k.n <= |e|
             && DecField(fields[0], (e + tail)[k.n..]) == Bad
    ensures DecFields(fields, e + tail, num, last) == None
  {
  }

  /** A field that wrote nothing is read as the default. */
  lemma {:induction false} NewerElided(f: Field, g: Field, v: Val, num: nat)
    requires OlderField(f, g) && Legal(g.typ) && FieldHasType(v, g) && EncodableField(g, v) && EncField(g, v, num) == []
    ensures ReadableField(f, g, v) && RestrictField(f, g, v) == DefaultOf(f)
    decreases f, 0
  {
    SameShape(f.typ, g.typ);
    if !f.ptr {
      assert HasType(v, g.typ);
      if NonstructDefault(v) {
        DefaultRestricts(f.typ, g.typ, v);
      } else if !Unpacked(g.typ) {
        DecodesNewer(f.typ, g.typ, v, []);
        NotDefaultScalar(g.typ, v);
        NewerZero(f.typ, g.typ, v, []);
      }
    }
  }

  lemma NotDefaultScalar(t: Typ, v: Val)
    requires Legal(t) && HasType(v, t) && !NonstructDefault(v) && !Unpacked(t) && Enc(t, v) == [0]
    ensures Typ3Of(t).ByteLength?
  {
    if !t.TStruct? {
      NotZeroByte(t, v);
    }
  }

  lemma {:induction false} NewerRepeated(f: Field, g: Field, v: Val, num: nat, tail: seq<Byte>)
    requires OlderField(f, g) && Legal(g.typ) && Unpacked(g.typ) && Unpacked(f.typ) && !f.ptr && num <= MAX_FIELD
    requires FieldHasType(v, g) && EncodableField(g, v) && EncField(g, v, num) != []
    requires |EncField(g, v, num)| < TWO_63 && StartsAt(tail, num + 1)
    ensures HasType(v, g.typ)
    ensures DecRepeated(f, EncField(g, v, num) + tail, num) ==
            Result(ReadableField(f, g, v), RestrictElems(f.typ, g.typ, v.es), |EncField(g, v, num)|)
    ensures RestrictField(f, g, v) == VList(RestrictElems(f.typ, g.typ, v.es))
    decreases f, 0
  {
    assert HasType(v, g.typ) && Encodable(g.typ, v);
    NewerElems(f.typ, g.typ, v.es, num, tail);
  }

  lemma {:induction false} NewerField(f: Field, g: Field, v: Val, num: nat, tail: seq<Byte>)
    requires OlderField(f, g) && Legal(g.typ) && (g.ptr ==> g.typ.TStruct?) && !Unpacked(g.typ) && num <= MAX_FIELD
    requires FieldHasType(v, g) && EncodableField(g, v) && EncField(g, v, num) != []
    requires |EncField(g, v, num)| < TWO_63
    ensures var bz, k := EncField(g, v, num) + tail, |PutKey(num, Typ3Of(f.typ))|;
            && k <= |EncField(g, v, num)|
            && ReadKey(bz) == Key(num, Code(Typ3Of(f.typ)), k)
            && DecField(f, bz[k..]) == Result(ReadableField(f, g, v), RestrictField(f, g, v), |EncField(g, v, num)| - k)
    decreases f, 1
  {
    SameShape(f.typ, g.typ);
    FieldBytes(g, v, num);
    NewerValue(f, g, v, num, tail);
    var key, enc := PutKey(num, Typ3Of(f.typ)), Enc(g.typ, if g.ptr then v.v else v);
    hide *;
    KeyRoundTrip(num, Typ3Of(f.typ), enc + tail);
    CatAssoc(key, enc, tail);
    DropFront(key, enc + tail);
  }

  lemma DropFront(a: seq<Byte>, b: seq<Byte>)
    ensures (a + b)[|a|..] == b
  {
  }

  /** A plain field that writes something writes its key and its value. */
  lemma FieldBytes(g: Field, v: Val, num: nat)
    requires FieldHasType(v, g) && !Unpacked(g.typ) && EncField(g, v, num) != []
    ensures g.ptr ==> v.VPtr?
    ensures EncField(g, v, num) == PutKey(num, Typ3Of(g.typ)) + Enc(g.typ, if g.ptr then v.v else v)
  {
  }

  lemma {:induction false} NewerValue(f: Field, g: Field, v: Val, num: nat, tail: seq<Byte>)
    requires OlderField(f, g) && Legal(g.typ) && FieldHasType(v, g) && EncodableField(g, v) && (g.ptr ==> v.VPtr?)
    requires |Enc(g.typ, if g.ptr then v.v else v)| < TWO_63
    ensures var enc := Enc(g.typ, if g.ptr then v.v else v);
            DecField(f, enc + tail) == Result(ReadableField(f, g, v), RestrictField(f, g, v), |enc|)
    decreases f, 0
  {
    hide Dec, Enc, Readable, Restrict, Legal;
    DecodesNewer(f.typ, g.typ, if g.ptr then v.v else v, tail);
  }

  // ---------------------------------------------------------------- structs

  /** A decoder for an old struct type, given what a struct of a newer version wrote,
      yields exactly the value without the added fields if all of these can be
      skipped, at every depth, and fails otherwise. */
  lemma {:induction false} OldDecoderReads(t: Typ, u: Typ, v: Val)
    requires t.TStruct? && Legal(u) && Older(t, u) && HasType(v, u)
    requires Marshal(u, v).Some? && |Marshal(u, v).value| < TWO_63
    ensures Unmarshal(t, Marshal(u, v).value) == if Readable(t, u, v) then Some(Restrict(t, u, v)) else None
  {
    NewerFields(t.fields, u.fields, v.fs, 1, 0);
  }

  /** With nothing added everything is readable, and nothing is left out. */
  lemma {:induction false} SameVersion(t: Typ, v: Val)
    requires Legal(t) && HasType(v, t)
    ensures Older(t, t) && Readable(t, t, v) && Restrict(t, t, v) == Collapse(t, v)
    decreases t, 1, 0
  {
    match t {
      case TStruct(fields) => SameVersionFields(fields, v.fs);
      case TList(_, _, _) =>
        SameVersionType(t.elem);
        SameVersionElems(t, v.es);
      case _ =>
    }
  }

  lemma {:induction false} SameVersionType(t: Typ)
    ensures Older(t, t)
    decreases t
  {
    match t {
      case TStruct(fields) => SameVersionTypes(fields);
      case TList(elem, _, _) => SameVersionType(elem);
      case _ =>
    }
  }

  lemma {:induction false} SameVersionTypes(fields: seq<Field>)
    ensures OlderFields(fields, fields)
    decreases fields
  {
    if fields != [] {
      SameFieldType(fields[0]);
      SameVersionTypes(fields[1..]);
    }
  }

  lemma {:induction false} SameFieldType(f: Field)
    ensures OlderField(f, f)
    decreases f
  {
    SameVersionType(f.typ);
  }

  lemma {:induction false} SameVersionElems(t: Typ, es: seq<Val>)
    requires t.TList? && Legal(t) && Older(t, t) && forall e | e in es :: ElemHasType(e, t)
    ensures ReadableElems(t, t, es) && RestrictElems(t, t, es) == CollapseElems(t, es)
    decreases t, 0, |es|
  {
    if es != [] {
      assert es[0] in es;
      if !t.ptr {
        SameVersion(t.elem, es[0]);
      } else if es[0].VPtr? {
        SameVersion(t.elem, es[0].v);
      }
      SameVersionElems(t, es[1..]);
    }
  }

  lemma {:induction false} SameVersionFields(fields: seq<Field>, vs: seq<Val>)
    requires FieldsHaveType(vs, fields) && forall f | f in fields :: Legal(f.typ)
    ensures OlderFields(fields, fields)
    ensures ReadableFields(fields, fields, vs) && RestrictFields(fields, fields, vs) == CollapseFields(fields, vs)
    decreases fields
  {
    SameVersionTypes(fields);
    if fields != [] {
      assert fields[0] in fields;
      SameVersionField(fields[0], vs[0]);
      SameVersionFields(fields[1..], vs[1..]);
    }
  }

  lemma {:induction false} SameVersionField(f: Field, v: Val)
    requires FieldHasType(v, f) && Legal(f.typ)
    ensures OlderField(f, f) && ReadableField(f, f, v) && RestrictField(f, f, v) == CollapseField(f, v)
    decreases f
  {
    SameVersionType(f.typ);
    if !f.ptr {
      SameVersion(f.typ, v);
    } else if v.VPtr? {
      SameVersion(f.typ, v.v);
    }
  }
}
