/** The codec as it runs: loops that append to a buffer, truncating it to roll a
    field back, and loops that slide through the input. Each is proved to write and
    to read what the functions of AminoCodec say. */
module AminoBinary {
  import opened AminoPrimitives
  import opened AminoTypes
  import opened AminoCodec

  /** A byte buffer. */
  class Buffer {
    var data: seq<Byte>

    constructor ()
      ensures data == []
    {
      data := [];
    }

    method Write(bz: seq<Byte>)
      modifies this
      ensures data == old(data) + bz
    {
      data := data + bz;
    }

    method Truncate(n: nat)
      requires n <= |data|
      modifies this
      ensures data == old(data)[..n]
    {
      data := data[..n];
    }
  }

  // ---------------------------------------------------------------- encoding

  /** Writes a body with its length, a zero byte when it is empty, or, bare, as it is. */
  method WriteMaybeBare(w: Buffer, bz: seq<Byte>, bare: bool)
    modifies w
    ensures w.data == old(w.data) + if bare then bz else PutBytes(bz)
  {
    if |bz| == 0 {
      if !bare {
        w.Write([0]);
      } else {
        assert w.data == w.data + bz;
      }
    } else if bare {
      w.Write(bz);
    } else {
      w.Write(PutUvarint(|bz|));
      w.Write(bz);
      assert w.data == old(w.data) + PutBytes(bz);
    }
  }

  /** Encodes a value; false is an error. */
  method EncodeValue(w: Buffer, t: Typ, v: Val) returns (ok: bool)
    requires Legal(t) && HasType(v, t)
    modifies w
    ensures ok == Encodable(t, v)
    ensures ok ==> w.data == old(w.data) + Enc(t, v)
    decreases t, 3
  {
    ok := true;
    match t {
      case TBool => w.Write([if v.b then 1 else 0]);
      case TInt(k) => w.Write(EncInt(k, v.n));
      case TBytes =>
        w.Write(PutUvarint(|v.bs|));
        w.Write(v.bs);
        assert w.data == old(w.data) + PutBytes(v.bs);
      case TString =>
        w.Write(PutUvarint(|v.bs|));
        w.Write(v.bs);
        assert w.data == old(w.data) + PutBytes(v.bs);
      case TStruct(fields) => ok := EncodeStruct(w, t, v, false);
      case TList(_, _, _) => ok := EncodeList(w, t, v.es, 1, false);
    }
  }

  /** Encodes the elements of a list, packed or under a field number. */
  method EncodeList(w: Buffer, t: Typ, es: seq<Val>, num: nat, bare: bool) returns (ok: bool)
    requires t.TList? && Legal(t) && forall e | e in es :: ElemHasType(e, t)
    modifies w
    ensures ok == forall e | e in es :: EncodableElem(t, e)
    ensures ok ==> w.data == old(w.data) + (var body := EncElems(t, es, num); if bare then body else PutBytes(body))
    decreases t, 2
  {
    hide *;
    var buf := new Buffer();
    var i := 0;
    assert es[0..] == es;
    while i < |es|
      invariant 0 <= i <= |es|
      invariant fresh(buf) && w.data == old(w.data)
      invariant buf.data + EncElems(t, es[i..], num) == EncElems(t, es, num)
      invariant forall e | e in es[..i] :: EncodableElem(t, e)
    {
      assert es[i] in es;
      ElemsFrom(t, es, i, num);
      ghost var before, rest := buf.data, EncElems(t, es[i + 1..], num);
      if Unpacked(t) {
        buf.Write(PutKey(num, ByteLength));
        ok := EncodeElem(buf, t, es[i]);
        CatAssoc(before, PutKey(num, ByteLength), EncElem(t, es[i]));
        CatAssoc(before, PutKey(num, ByteLength) + EncElem(t, es[i]), rest);
      } else {
        ok := EncodeValue(buf, t.elem, es[i]);
        CatAssoc(before, Enc(t.elem, es[i]), rest);
      }
      if !ok {
        return;
      }
      assert es[..i + 1] == es[..i] + [es[i]];
      i := i + 1;
    }
    assert es[..i] == es;
    ElemsFrom(t, es, i, num);
    assert buf.data + [] == buf.data;
    WriteMaybeBare(w, buf.data, bare);
    ok := true;
  }

  lemma ElemsFrom(t: Typ, es: seq<Val>, i: nat, num: nat)
    requires t.TList? && Legal(t) && i <= |es| && forall e | e in es :: ElemHasType(e, t)
    ensures i == |es| ==> EncElems(t, es[i..], num) == []
    ensures i < |es| && Unpacked(t) ==>
              EncElems(t, es[i..], num) == PutKey(num, ByteLength) + EncElem(t, es[i]) + EncElems(t, es[i + 1..], num)
    ensures i < |es| && !Unpacked(t) ==>
              && !t.ptr && HasType(es[i], t.elem) && (Encodable(t.elem, es[i]) <==> EncodableElem(t, es[i]))
              && EncElems(t, es[i..], num) == Enc(t.elem, es[i]) + EncElems(t, es[i + 1..], num)
    ensures Legal(t.elem)
  {
    if i < |es| {
      assert es[i..][0] == es[i] && es[i..][1..] == es[i + 1..] && es[i] in es;
      assert ElemHasType(es[i], t);
    }
  }

  /** A pointer to a struct is a default only when it is nil. */
  lemma PointerDefault(t: Typ, e: Val)
    requires t.TList? && Legal(t) && ElemHasType(e, t) && t.ptr
    ensures NonstructDefault(e) <==> e.VNil?
  {
    if e.VPtr? {
      assert HasType(e.v, t.elem) && e.v.VStruct?;
    }
  }

  lemma DefaultElem(t: Typ, e: Val)
    requires t.TList? && Legal(t) && ElemHasType(e, t) && NonstructDefault(e)
    ensures if t.ptr then EncodableElem(t, e) <==> t.nilElems else EncodableElem(t, e)
    ensures EncElem(t, e) == [0]
  {
    if t.ptr {
      PointerDefault(t, e);
    } else {
      assert HasType(e, t.elem);
    }
  }

  /** One element of an unpacked list. */
  method EncodeElem(buf: Buffer, t: Typ, e: Val) returns (ok: bool)
    requires t.TList? && Legal(t) && Unpacked(t) && ElemHasType(e, t)
    modifies buf
    ensures ok == EncodableElem(t, e)
    ensures ok ==> buf.data == old(buf.data) + EncElem(t, e)
    decreases t, 1
  {
    hide Enc, PutBytes, PutKey, Encodable;
    if t.ptr {
      PointerDefault(t, e);
    }
    if NonstructDefault(e) {
      DefaultElem(t, e);
      if t.ptr && !t.nilElems {
        return false;
      }
      buf.Write([0]);
      ok := true;
    } else if t.ptr {
      ok := EncodeValue(buf, t.elem, e.v);
    } else if Implicit(t.elem) {
      var buf2 := new Buffer();
      buf2.Write(PutKey(1, ByteLength));
      ok := EncodeValue(buf2, t.elem, e);
      if ok {
        assert buf2.data == PutKey(1, ByteLength) + Enc(t.elem, e);
        buf.Write(PutBytes(buf2.data));
      }
    } else {
      ok := EncodeValue(buf, t.elem, e);
    }
  }

  /** Encodes the fields of a struct in order. */
  method EncodeStruct(w: Buffer, t: Typ, v: Val, bare: bool) returns (ok: bool)
    requires t.TStruct? && Legal(t) && HasType(v, t)
    modifies w
    ensures ok == Encodable(t, v)
    ensures ok ==> w.data == old(w.data) + (var body := EncFields(t.fields, v.fs, 1); if bare then body else PutBytes(body))
    decreases t, 2
  {
    hide *;
    StructTypes(t, v);
    var fields, vs := t.fields, v.fs;
    var buf := new Buffer();
    var i := 0;
    assert fields[0..] == fields && vs[0..] == vs;
    while i < |fields|
      invariant 0 <= i <= |fields| == |vs|
      invariant fresh(buf) && w.data == old(w.data)
      invariant FieldsHaveType(vs[i..], fields[i..])
      invariant buf.data + EncFields(fields[i..], vs[i..], 1 + i) == EncFields(fields, vs, 1)
      invariant EncodableFields(fields[i..], vs[i..]) == EncodableFields(fields, vs)
    {
      assert fields[i] in fields;
      FieldsFrom(fields, vs, i);
      ghost var before := buf.data;
      ok := EncodeField(buf, fields[i], vs[i], 1 + i);
      if !ok {
        return;
      }
      CatAssoc(before, EncField(fields[i], vs[i], 1 + i), EncFields(fields[i + 1..], vs[i + 1..], 2 + i));
      i := i + 1;
    }
    FieldsEnd(fields, vs);
    assert buf.data + [] == buf.data;
    WriteMaybeBare(w, buf.data, bare);
    ok := true;
  }

  lemma StructTypes(t: Typ, v: Val)
    requires t.TStruct? && Legal(t) && HasType(v, t)
    ensures v.VStruct? && FieldsHaveType(v.fs, t.fields) && |v.fs| == |t.fields|
    ensures Encodable(t, v) == EncodableFields(t.fields, v.fs)
    ensures forall f | f in t.fields :: Legal(f.typ) && (f.ptr ==> f.typ.TStruct?)
  {
  }

  lemma FieldsFrom(fields: seq<Field>, vs: seq<Val>, i: nat)
    requires i < |fields| == |vs| && FieldsHaveType(vs[i..], fields[i..])
    ensures FieldHasType(vs[i], fields[i]) && FieldsHaveType(vs[i + 1..], fields[i + 1..])
    ensures EncFields(fields[i..], vs[i..], 1 + i) ==
            EncField(fields[i], vs[i], 1 + i) + EncFields(fields[i + 1..], vs[i + 1..], 2 + i)
    ensures EncodableFields(fields[i..], vs[i..]) <==>
            EncodableField(fields[i], vs[i]) && EncodableFields(fields[i + 1..], vs[i + 1..])
  {
    assert fields[i..][0] == fields[i] && fields[i..][1..] == fields[i + 1..];
    assert vs[i..][0] == vs[i] && vs[i..][1..] == vs[i + 1..];
  }

  lemma FieldsEnd(fields: seq<Field>, vs: seq<Val>)
    requires |fields| == |vs| && FieldsHaveType(vs[|vs|..], fields[|fields|..])
    ensures EncFields(fields[|fields|..], vs[|vs|..], 1 + |fields|) == []
    ensures EncodableFields(fields[|fields|..], vs[|vs|..])
  {
  }

  /** One field: elided, repeated, or under its key. */
  method EncodeField(buf: Buffer, f: Field, v: Val, num: nat) returns (ok: bool)
    requires Legal(f.typ) && (f.ptr ==> f.typ.TStruct?) && FieldHasType(v, f)
    modifies buf
    ensures ok == EncodableField(f, v)
    ensures ok ==> buf.data == old(buf.data) + EncField(f, v, num)
    decreases f, 1
  {
    if !f.writeEmpty && NonstructDefault(v) {
      ok := true;
      DefaultEncodable(f, v, num);
      assert buf.data == buf.data + [];
    } else if v.VNil? {
      ok := false;
    } else if Unpacked(f.typ) {
      assert HasType(v, f.typ);
      ok := EncodeList(buf, f.typ, v.es, num, true);
    } else {
      ok := WriteFieldIfNotEmpty(buf, num, f, if f.ptr then v.v else v, f.writeEmpty || f.ptr);
    }
  }

  lemma DefaultEncodable(f: Field, v: Val, num: nat)
    requires (f.ptr ==> f.typ.TStruct?) && FieldHasType(v, f) && NonstructDefault(v) && !f.writeEmpty
    ensures EncodableField(f, v) && EncField(f, v, num) == []
  {
    assert !f.ptr ==> HasType(v, f.typ);
  }

  /** Writes key and value, and takes both back if the value is a lone zero byte and
      may be left out. */
  method WriteFieldIfNotEmpty(buf: Buffer, num: nat, f: Field, v: Val, writeEmpty: bool) returns (ok: bool)
    requires Legal(f.typ) && HasType(v, f.typ)
    modifies buf
    ensures ok == Encodable(f.typ, v)
    ensures ok ==>
              buf.data == old(buf.data) + (if !writeEmpty && Enc(f.typ, v) == [0] then []
                                           else PutKey(num, Typ3Of(f.typ)) + Enc(f.typ, v))
    decreases f, 0
  {
    var beforeKey := |buf.data|;
    buf.Write(PutKey(num, Typ3Of(f.typ)));
    var beforeValue := |buf.data|;
    ok := EncodeValue(buf, f.typ, v);
    if !ok {
      return;
    }
    var afterValue := |buf.data|;
    ghost var key, enc := PutKey(num, Typ3Of(f.typ)), Enc(f.typ, v);
    assert buf.data == old(buf.data) + (key + enc);
    assert |enc| == afterValue - beforeValue;
    if !writeEmpty && beforeValue == afterValue - 1 && buf.data[|buf.data| - 1] == 0 {
      assert enc == [0];
      buf.Truncate(beforeKey);
      assert buf.data == old(buf.data) + [];
    }
  }

  /** Marshal: the fields of a struct without a length prefix; None is an error. */
  method MarshalStruct(t: Typ, v: Val) returns (r: Option<seq<Byte>>)
    requires t.TStruct? && Legal(t) && HasType(v, t)
    ensures r == Marshal(t, v)
  {
    var buf := new Buffer();
    var ok := EncodeStruct(buf, t, v, true);
    assert ok ==> buf.data == EncFields(t.fields, v.fs, 1);
    r := if ok then Some(buf.data) else None;
  }

  // ---------------------------------------------------------------- decoding

  /** Decodes a value from the front of the input. */
  method DecodeValue(t: Typ, bz: seq<Byte>) returns (r: Decoded<Val>)
    ensures r == Dec(t, bz)
    decreases t, 3
  {
    hide SliceResult, DecInt, Bytes, DecFields, DecElems;
    match t {
      case TBool =>
        if |bz| < 1 {
          r := Bad;
        } else if bz[0] == 0 {
          r := Got(VBool(false), 1);
        } else if bz[0] == 1 {
          r := Got(VBool(true), 1);
        } else {
          r := Bad;
        }
      case TInt(k) => r := DecInt(k, bz);
      case TBytes =>
        if |bz| == 0 {
          r := Got(VBytes([]), 0);
        } else {
          var bs := Bytes(bz);
          r := if bs.None? then Bad else Got(VBytes(bs.value.0), bs.value.1);
        }
      case TString =>
        var bs := Bytes(bz);
        r := if bs.None? then Bad else Got(VBytes(bs.value.0), bs.value.1);
      case TStruct(_) =>
        r := DecodeStruct(t, bz, false);
      case TList(_, _, _) =>
        var es := DecodeSlice(t, bz, 1, false);
        SliceIsDec(t, bz);
        r := if es.Bad? then Bad else Got(VList(es.v), es.n);
    }
  }

  /** Strips the length prefix, unless bare; `n` counts its shortest form. */
  method DecodeMaybeBare(bz: seq<Byte>, bare: bool) returns (body: Option<seq<Byte>>, n: nat)
    ensures bare ==> body == Some(bz) && n == 0
    ensures !bare && Bytes(bz).None? ==> body.None?
    ensures !bare && Bytes(bz).Some? ==>
              body == Some(Bytes(bz).value.0) && n == UvarintSize(|body.value|) && n + |body.value| <= |bz|
  {
    if bare {
      return Some(bz), 0;
    }
    var buf := Bytes(bz);
    if buf.None? {
      return None, 0;
    }
    PrefixFits(bz);
    body, n := Some(buf.value.0), UvarintSize(|buf.value.0|);
  }

  /** The elements read so far, before the outcome of the rest. */
  ghost function JoinElems(es: seq<Val>, n: nat, r: Decoded<seq<Val>>): Decoded<seq<Val>> {
    match r
    case Bad => Bad
    case Got(rest, m) => Got(es + rest, n + m)
  }

  /** What a slice decoder returns for a stripped or bare body. */
  ghost function SliceResult(t: Typ, bz: seq<Byte>, num: nat, bare: bool): Decoded<seq<Val>>
    requires t.TList?
  {
    if bare then DecElems(t, bz, num)
    else match Bytes(bz)
      case None => Bad
      case Some((body, _)) => JoinElems([], UvarintSize(|body|), DecElems(t, body, num))
  }

  /** Collects elements until the input ends or a higher field number comes. */
  method DecodeSlice(t: Typ, bz: seq<Byte>, num: nat, bare: bool) returns (r: Decoded<seq<Val>>)
    requires t.TList?
    ensures r == SliceResult(t, bz, num, bare)
    decreases t, 2
  {
    hide *;
    SliceUnfold(t, bz, num, bare);
    var body: Option<seq<Byte>>, n: nat := DecodeMaybeBare(bz, bare);
    if body.None? {
      return Bad;
    }
    var rest: seq<Byte> := body.value;
    var es: seq<Val> := [];
    JoinStart(DecElems(t, rest, num), n);
    ghost var want := JoinElems([], n, DecElems(t, rest, num));
    while |rest| > 0
      invariant want == JoinElems(es, n, DecElems(t, rest, num))
      decreases |rest|
    {
      ElemsTurn(t, rest, num, es, n);
      if !Unpacked(t) {
        var e := DecodeValue(t.elem, rest);
        if e.Bad? {
          return Bad;
        }
        es := es + [if t.ptr then VPtr(e.v) else e.v];
        rest, n := rest[e.n..], n + e.n;
      } else {
        var key := ReadKey(rest);
        if key.Key? && key.num > num {
          break;
        }
        if key.BadKey? || key.num < num || key.code != Code(ByteLength) {
          return Bad;
        }
        var e := DecodeElem(t, rest[key.n..]);
        if e.Bad? {
          return Bad;
        }
        es := es + [e.v];
        rest, n := rest[key.n + e.n..], n + key.n + e.n;
      }
    }
    if |rest| == 0 {
      ElemsDone(t, rest, num, es, n);
    }
    r := Got(es, n);
  }

  lemma SliceUnfold(t: Typ, bz: seq<Byte>, num: nat, bare: bool)
    requires t.TList?
    ensures bare ==> SliceResult(t, bz, num, bare) == JoinElems([], 0, DecElems(t, bz, num))
    ensures !bare && Bytes(bz).None? ==> SliceResult(t, bz, num, bare) == Bad
    ensures !bare && Bytes(bz).Some? ==>
              var body := Bytes(bz).value.0;
              SliceResult(t, bz, num, bare) == JoinElems([], UvarintSize(|body|), DecElems(t, body, num))
  {
    var d := DecElems(t, bz, num);
    if d.Got? {
      assert [] + d.v == d.v;
    }
  }

  lemma SliceIsDec(t: Typ, bz: seq<Byte>)
    requires t.TList?
    ensures var r := SliceResult(t, bz, 1, false);
            Dec(t, bz) == if r.Bad? then Bad else Got(VList(r.v), r.n)
  {
    if Bytes(bz).Some? {
      JoinStart(DecElems(t, Bytes(bz).value.0, 1), UvarintSize(|Bytes(bz).value.0|));
    }
  }

  lemma JoinStart(d: Decoded<seq<Val>>, n: nat)
    ensures JoinElems([], n, d) == match d case Bad => Bad case Got(es, m) => Got(es, n + m)
  {
    if d.Got? {
      assert [] + d.v == d.v;
    }
  }

  lemma ElemsDone(t: Typ, rest: seq<Byte>, num: nat, es: seq<Val>, n: nat)
    requires t.TList? && rest == []
    ensures JoinElems(es, n, DecElems(t, rest, num)) == Got(es, n)
  {
    assert es + [] == es;
  }

  /** One turn of the loop over elements. */
  lemma ElemsTurn(t: Typ, rest: seq<Byte>, num: nat, es: seq<Val>, n: nat)
    requires t.TList? && rest != []
    ensures !Unpacked(t) && Dec(t.elem, rest).Bad? ==> JoinElems(es, n, DecElems(t, rest, num)) == Bad
    ensures !Unpacked(t) && Dec(t.elem, rest).Got? ==>
              var d := Dec(t.elem, rest);
              && 1 <= d.n <= |rest|
              && JoinElems(es, n, DecElems(t, rest, num)) ==
                 JoinElems(es + [if t.ptr then VPtr(d.v) else d.v], n + d.n, DecElems(t, rest[d.n..], num))
    ensures Unpacked(t) && ReadKey(rest).BadKey? ==> JoinElems(es, n, DecElems(t, rest, num)) == Bad
    ensures Unpacked(t) && ReadKey(rest).Key? ==>
              var key := ReadKey(rest);
              && 1 <= key.n <= |rest|
              && (key.num > num ==> JoinElems(es, n, DecElems(t, rest, num)) == Got(es, n))
              && (key.num < num || (key.num == num && key.code != Code(ByteLength)) ==>
                    JoinElems(es, n, DecElems(t, rest, num)) == Bad)
    ensures Unpacked(t) && ReadKey(rest).Key? && ReadKey(rest).num == num && ReadKey(rest).code == Code(ByteLength) ==>
              var k := ReadKey(rest).n;
              var d := DecElem(t, rest[k..]);
              && (d.Bad? ==> JoinElems(es, n, DecElems(t, rest, num)) == Bad)
              && (d.Got? ==>
                    && k + d.n <= |rest|
                    && JoinElems(es, n, DecElems(t, rest, num)) ==
                       JoinElems(es + [d.v], n + k + d.n, DecElems(t, rest[k + d.n..], num)))
  {
    hide *;
    LastTurn(t, rest, num, es, n);
    if !Unpacked(t) {
      var d := Dec(t.elem, rest);
      if d.Got? {
        PackedTurn(t, rest, num, d);
        JoinElem(es, n, if t.ptr then VPtr(d.v) else d.v, d.n, DecElems(t, rest[d.n..], num));
      }
    } else if ReadKey(rest).Key? {
      var k := ReadKey(rest).n;
      var d := DecElem(t, rest[k..]);
      if d.Got? && ReadKey(rest).num == num && ReadKey(rest).code == Code(ByteLength) {
        UnpackedTurn(t, rest, num, k, d);
        JoinElem(es, n, d.v, k + d.n, DecElems(t, rest[k + d.n..], num));
      }
    }
  }

  ghost function ConsElem(x: Val, k: nat, r: Decoded<seq<Val>>): Decoded<seq<Val>> {
    match r
    case Bad => Bad
    case Got(rest, m) => Got([x] + rest, k + m)
  }

  lemma JoinElem(es: seq<Val>, n: nat, x: Val, k: nat, r: Decoded<seq<Val>>)
    ensures JoinElems(es, n, ConsElem(x, k, r)) == JoinElems(es + [x], n + k, r)
  {
    if r.Got? {
      assert es + ([x] + r.v) == es + [x] + r.v;
    }
  }

  lemma PackedTurn(t: Typ, rest: seq<Byte>, num: nat, d: Decoded<Val>)
    requires t.TList? && !Unpacked(t) && rest != [] && d == Dec(t.elem, rest) && d.Got?
    ensures 1 <= d.n <= |rest|
    ensures DecElems(t, rest, num) == ConsElem(if t.ptr then VPtr(d.v) else d.v, d.n, DecElems(t, rest[d.n..], num))
  {
  }

  lemma UnpackedTurn(t: Typ, rest: seq<Byte>, num: nat, k: nat, d: Decoded<Val>)
    requires t.TList? && Unpacked(t) && rest != [] && k <= |rest| && ReadKey(rest) == Key(num, Code(ByteLength), k)
    requires d == DecElem(t, rest[k..]) && d.Got?
    ensures k + d.n <= |rest|
    ensures DecElems(t, rest, num) == ConsElem(d.v, k + d.n, DecElems(t, rest[k + d.n..], num))
  {
    hide Dec, DecElem, ReadKey;
  }

  /** The turns that end the loop. */
  lemma LastTurn(t: Typ, rest: seq<Byte>, num: nat, es: seq<Val>, n: nat)
    requires t.TList? && rest != []
    ensures !Unpacked(t) && Dec(t.elem, rest).Bad? ==> JoinElems(es, n, DecElems(t, rest, num)) == Bad
    ensures Unpacked(t) && ReadKey(rest).BadKey? ==> JoinElems(es, n, DecElems(t, rest, num)) == Bad
    ensures Unpacked(t) && ReadKey(rest).Key? ==>
              var key := ReadKey(rest);
              && 1 <= key.n <= |rest|
              && (key.num > num ==> JoinElems(es, n, DecElems(t, rest, num)) == Got(es, n))
              && (key.num < num || (key.num == num && key.code != Code(ByteLength)) ==>
                    JoinElems(es, n, DecElems(t, rest, num)) == Bad)
              && (key.num == num && key.code == Code(ByteLength) && DecElem(t, rest[key.n..]).Bad? ==>
                    JoinElems(es, n, DecElems(t, rest, num)) == Bad)
  {
    hide Dec, DecElem, ReadKey;
    assert es + [] == es;
  }

  /** One element of an unpacked list. */
  method DecodeElem(t: Typ, bz: seq<Byte>) returns (r: Decoded<Val>)
    requires t.TList?
    ensures r == DecElem(t, bz)
    decreases t, 1
  {
    if |bz| > 0 && bz[0] == 0 && (!t.ptr || t.nilElems) {
      return Got(if t.ptr then VNil else Default(t.elem), 1);
    }
    if Implicit(t.elem) {
      var inner := Bytes(bz);
      if inner.None? {
        return Bad;
      }
      var ibz := inner.value.0;
      var n := UvarintSize(|ibz|);
      var key := ReadKey(ibz);
      if key.BadKey? || key.num != 1 {
        return Bad;
      }
      ibz, n := ibz[key.n..], n + key.n;
      var e := DecodeValue(t.elem, ibz);
      if e.Bad? {
        return Bad;
      }
      ibz, n := ibz[e.n..], n + e.n;
      if |ibz| > 0 {
        return Bad;
      }
      r := Got(e.v, n);
    } else {
      var e := DecodeValue(t.elem, bz);
      r := if e.Bad? then Bad else Got(if t.ptr then VPtr(e.v) else e.v, e.n);
    }
  }

  // ---------------------------------------------------------------- decoding structs

  ghost function JoinFields(vs: seq<Val>, r: Option<seq<Val>>): Option<seq<Val>> {
    match r
    case None => None
    case Some(rest) => Some(vs + rest)
  }

  ghost function StructResult(t: Typ, bz: seq<Byte>, bare: bool): Decoded<Val>
    requires t.TStruct?
  {
    if bare then
      match DecFields(t.fields, bz, 1, 0)
      case None => Bad
      case Some(vs) => Got(VStruct(vs), |bz|)
    else Dec(t, bz)
  }

  /** Reads the known fields in order, then skips what follows. */
  method DecodeStruct(t: Typ, bz: seq<Byte>, bare: bool) returns (r: Decoded<Val>)
    requires t.TStruct?
    ensures r == StructResult(t, bz, bare)
    decreases t, 2
  {
    hide *;
    var body, n := DecodeMaybeBare(bz, bare);
    StructUnfold(t, bz, bare);
    if body.None? {
      return Bad;
    }
    var vs, m, ok := DecodeFields(t.fields, body.value);
    if !ok {
      return Bad;
    }
    r := Got(VStruct(vs), n + m);
  }

  lemma StructUnfold(t: Typ, bz: seq<Byte>, bare: bool)
    requires t.TStruct?
    ensures !bare && Bytes(bz).None? ==> StructResult(t, bz, bare) == Bad
    ensures bare || Bytes(bz).Some? ==>
              var body := if bare then bz else Bytes(bz).value.0;
              var n := if bare then 0 else UvarintSize(|body|);
              var d := DecFields(t.fields, body, 1, 0);
              StructResult(t, bz, bare) == if d.None? then Bad else Got(VStruct(d.value), n + |body|)
  {
  }

  method DecodeFields(fields: seq<Field>, bz: seq<Byte>) returns (vs: seq<Val>, n: nat, ok: bool)
    ensures ok == DecFields(fields, bz, 1, 0).Some?
    ensures ok ==> DecFields(fields, bz, 1, 0) == Some(vs) && n == |bz|
    decreases fields
  {
    hide *;
    ghost var want := DecFields(fields, bz, 1, 0);
    var rest: seq<Byte>, last, i := bz, 0, 0;
    vs, n := [], 0;
    FieldsBegin(fields, bz);
    while i < |fields|
      invariant 0 <= i <= |fields| && n + |rest| == |bz|
      invariant want == FieldsLeft(fields, i, rest, last, vs)
    {
      var f := fields[i];
      FieldsTurn(fields, i, rest, last, vs);
      if |rest| == 0 {
        vs := vs + [DefaultOf(f)];
      } else {
        var key := ReadKey(rest);
        if key.BadKey? {
          return vs, n, false;
        }
        if 1 + i < key.num {
          vs := vs + [DefaultOf(f)];
        } else if Unpacked(f.typ) {
          var es := DecodeRepeated(f, rest, 1 + i);
          if es.Bad? {
            return vs, n, false;
          }
          vs := vs + [VList(es.v)];
          rest, n := rest[es.n..], n + es.n;
        } else {
          if key.num <= last || key.num != 1 + i || key.code != Code(Typ3Of(f.typ)) {
            return vs, n, false;
          }
          var v := DecodeField(f, rest[key.n..]);
          if v.Bad? {
            return vs, n, false;
          }
          vs := vs + [v.v];
          rest, n, last := rest[key.n + v.n..], n + key.n + v.n, key.num;
        }
      }
      i := i + 1;
    }
    FieldsFinish(fields, rest, last, vs);
    var m;
    ok, m := SkipFields(rest, last);
    n := n + m;
  }

  lemma FieldsBegin(fields: seq<Field>, bz: seq<Byte>)
    ensures FieldsLeft(fields, 0, bz, 0, []) == DecFields(fields, bz, 1, 0)
  {
    assert fields[0..] == fields;
    var d := DecFields(fields, bz, 1, 0);
    if d.Some? {
      assert [] + d.value == d.value;
    }
  }

  lemma FieldsFinish(fields: seq<Field>, rest: seq<Byte>, last: nat, vs: seq<Val>)
    ensures FieldsLeft(fields, |fields|, rest, last, vs) == if Skip(rest, last) then Some(vs) else None
  {
    assert vs + [] == vs;
  }

  ghost function FieldsLeft(fields: seq<Field>, i: nat, rest: seq<Byte>, last: nat, vs: seq<Val>): Option<seq<Val>>
    requires i <= |fields|
  {
    JoinFields(vs, DecFields(fields[i..], rest, 1 + i, last))
  }

  /** One turn of the loop over fields. */
  lemma FieldsTurn(fields: seq<Field>, i: nat, rest: seq<Byte>, last: nat, vs: seq<Val>)
    requires i < |fields|
    ensures Unpacked(fields[i].typ) ==> fields[i].typ.TList?
    ensures rest == [] || (ReadKey(rest).Key? && 1 + i < ReadKey(rest).num) ==>
              FieldsLeft(fields, i, rest, last, vs) == FieldsLeft(fields, i + 1, rest, last, vs + [DefaultOf(fields[i])])
    ensures rest != [] && ReadKey(rest).BadKey? ==> FieldsLeft(fields, i, rest, last, vs) == None
    ensures rest != [] && ReadKey(rest).Key? ==> ReadKey(rest).n <= |rest|
    ensures rest != [] && ReadKey(rest).Key? && 1 + i >= ReadKey(rest).num && Unpacked(fields[i].typ) ==>
              var d := DecRepeated(fields[i], rest, 1 + i);
              && (d.Bad? ==> FieldsLeft(fields, i, rest, last, vs) == None)
              && (d.Got? ==>
                    d.n <= |rest| &&
                    FieldsLeft(fields, i, rest, last, vs) == FieldsLeft(fields, i + 1, rest[d.n..], last, vs + [VList(d.v)]))
    ensures rest != [] && ReadKey(rest).Key? && 1 + i >= ReadKey(rest).num && !Unpacked(fields[i].typ) ==>
              var key := ReadKey(rest);
              if key.num <= last || key.num != 1 + i || key.code != Code(Typ3Of(fields[i].typ)) then
                FieldsLeft(fields, i, rest, last, vs) == None
              else
                var d := DecField(fields[i], rest[key.n..]);
                && (d.Bad? ==> FieldsLeft(fields, i, rest, last, vs) == None)
                && (d.Got? ==>
                      && key.n + d.n <= |rest|
                      && FieldsLeft(fields, i, rest, last, vs) ==
                         FieldsLeft(fields, i + 1, rest[key.n + d.n..], key.num, vs + [d.v]))
  {
    var f, num := fields[i], 1 + i;
    assert fields[i..][0] == f && fields[i..][1..] == fields[i + 1..];
    JoinPrepend(vs, DefaultOf(f), DecFields(fields[i + 1..], rest, num + 1, last));
    if rest != [] && ReadKey(rest).Key? {
      var key := ReadKey(rest);
      if Unpacked(f.typ) {
        var d := DecRepeated(f, rest, num);
        if d.Got? {
          JoinPrepend(vs, VList(d.v), DecFields(fields[i + 1..], rest[d.n..], num + 1, last));
        }
      } else {
        var d := DecField(f, rest[key.n..]);
        if d.Got? {
          JoinPrepend(vs, d.v, DecFields(fields[i + 1..], rest[key.n + d.n..], num + 1, key.num));
        }
      }
    }
  }

  lemma JoinPrepend(vs: seq<Val>, v: Val, r: Option<seq<Val>>)
    ensures JoinFields(vs, Prepend(v, r)) == JoinFields(vs + [v], r)
  {
    if r.Some? {
      assert vs + ([v] + r.value) == vs + [v] + r.value;
    }
  }

  method DecodeField(f: Field, bz: seq<Byte>) returns (r: Decoded<Val>)
    ensures r == DecField(f, bz)
    decreases f
  {
    r := DecodeValue(f.typ, bz);
    if r.Got? && f.ptr {
      r := Got(VPtr(r.v), r.n);
    }
  }

  method DecodeRepeated(f: Field, bz: seq<Byte>, num: nat) returns (r: Decoded<seq<Val>>)
    requires f.typ.TList?
    ensures r == DecRepeated(f, bz, num)
    decreases f
  {
    r := DecodeSlice(f.typ, bz, num, true);
  }

  /** Skips unknown fields; they must come with rising numbers. */
  method SkipFields(bz: seq<Byte>, after: nat) returns (ok: bool, n: nat)
    ensures ok == Skip(bz, after)
    ensures ok ==> n == |bz|
  {
    var rest: seq<Byte>, last := bz, after;
    n := 0;
    while |rest| > 0
      invariant n + |rest| == |bz|
      invariant Skip(bz, after) == Skip(rest, last)
      decreases |rest|
    {
      var key := ReadKey(rest);
      if key.BadKey? || key.num <= last {
        return false, n;
      }
      var m := ConsumeAny(key.code, rest[key.n..]);
      if m.None? {
        return false, n;
      }
      rest, n, last := rest[key.n + m.value..], n + key.n + m.value, key.num;
    }
    ok := true;
  }

  /** Unmarshal of a struct; it fails unless every byte is read. */
  method UnmarshalStruct(t: Typ, bz: seq<Byte>) returns (r: Option<Val>)
    requires t.TStruct?
    ensures r == Unmarshal(t, bz)
  {
    var d := DecodeStruct(t, bz, true);
    if d.Bad? {
      return None;
    }
    if d.n != |bz| {
      return None;
    }
    r := Some(d.v);
  }
}
