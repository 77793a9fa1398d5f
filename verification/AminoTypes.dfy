/** The types and values the codec is modelled on. */
module AminoTypes {
  import opened AminoPrimitives

  /** Integers of definite width: as varints, or in the fixed forms their field
      option selects. `int` and `uint` are the 64-bit varints. */
  datatype Kind = I8 | I16 | I32 | I64 | U8 | U16 | U32 | U64 | FixedI32 | FixedI64 | FixedU32 | FixedU64

  /** `ptr` says that the list holds pointers (to structs), `nilElems` that its
      field has the nil_elements option. */
  datatype Typ =
    | TBool
    | TInt(kind: Kind)
    | TBytes
    | TString
    | TStruct(fields: seq<Field>)
    | TList(elem: Typ, ptr: bool, nilElems: bool)

  /** A struct field; a pointer field points to a struct. */
  datatype Field = Field(typ: Typ, ptr: bool, writeEmpty: bool)

  /** Values in normal form: an empty list or byte slice is the nil one. */
  datatype Val =
    | VBool(b: bool)
    | VInt(n: int)
    | VBytes(bs: seq<Byte>)
    | VStruct(fs: seq<Val>)
    | VList(es: seq<Val>)
    | VNil
    | VPtr(v: Val)

  predicate InKind(k: Kind, n: int) {
    match k
    case I8 => -0x80 <= n < 0x80
    case I16 => -0x8000 <= n < 0x8000
    case I32 => -TWO_31 <= n < TWO_31
    case I64 => -TWO_63 <= n < TWO_63
    case U8 => 0 <= n < TWO_8
    case U16 => 0 <= n < TWO_16
    case U32 => 0 <= n < TWO_32
    case U64 => 0 <= n < TWO_64
    case FixedI32 => -TWO_31 <= n < TWO_31
    case FixedI64 => -TWO_63 <= n < TWO_63
    case FixedU32 => 0 <= n < TWO_32
    case FixedU64 => 0 <= n < TWO_64
  }

  /** The types a codec accepts: at most 2^29 - 1 fields, pointers to structs only,
      and byte lists only as TBytes. */
  predicate Legal(t: Typ) {
    match t
    case TStruct(fields) =>
      |fields| <= MAX_FIELD && forall f | f in fields :: Legal(f.typ) && (f.ptr ==> f.typ.TStruct?)
    case TList(elem, ptr, _) => Legal(elem) && elem != TInt(U8) && (ptr ==> elem.TStruct?)
    case _ => true
  }

  predicate HasType(v: Val, t: Typ)
    decreases t, 1
  {
    match t
    case TBool => v.VBool?
    case TInt(k) => v.VInt? && InKind(k, v.n)
    case TBytes => v.VBytes?
    case TString => v.VBytes?
    case TStruct(fields) => v.VStruct? && FieldsHaveType(v.fs, fields)
    case TList(_, _, _) => v.VList? && forall e | e in v.es :: ElemHasType(e, t)
  }

  predicate ElemHasType(e: Val, t: Typ)
    requires t.TList?
    decreases t, 0
  {
    if t.ptr then e.VNil? || (e.VPtr? && HasType(e.v, t.elem)) else HasType(e, t.elem)
  }

  predicate FieldsHaveType(vs: seq<Val>, fields: seq<Field>)
    decreases fields
  {
    |vs| == |fields| &&
    (fields == [] || (FieldHasType(vs[0], fields[0]) && FieldsHaveType(vs[1..], fields[1..])))
  }

  predicate FieldHasType(v: Val, f: Field)
    decreases f
  {
    if f.ptr then v.VNil? || (v.VPtr? && HasType(v.v, f.typ)) else HasType(v, f.typ)
  }

  // ---------------------------------------------------------------- wire shape

  function Typ3Of(t: Typ): Typ3 {
    match t
    case TBool => Varint3
    case TInt(k) =>
      (match k
       case FixedI32 => FourByte
       case FixedU32 => FourByte
       case FixedI64 => EightByte
       case FixedU64 => EightByte
       case _ => Varint3)
    case _ => ByteLength
  }

  /** A list whose elements are length-prefixed is written as a repeated field. */
  predicate Unpacked(t: Typ) {
    t.TList? && Typ3Of(t.elem).ByteLength?
  }

  /** Elements that are packed lists are wrapped in an implicit struct. */
  predicate Implicit(elem: Typ) {
    elem.TList? && !Unpacked(elem)
  }

  predicate NonstructDefault(v: Val) {
    match v
    case VBool(b) => !b
    case VInt(n) => n == 0
    case VBytes(bs) => |bs| == 0
    case VList(es) => |es| == 0
    case VNil => true
    case VPtr(x) => NonstructDefault(x)
    case VStruct(_) => false
  }

  /** The default of a type. */
  function Default(t: Typ): Val
    decreases t
  {
    match t
    case TBool => VBool(false)
    case TInt(_) => VInt(0)
    case TBytes => VBytes([])
    case TString => VBytes([])
    case TStruct(fields) => VStruct(Defaults(fields))
    case TList(_, _, _) => VList([])
  }

  function Defaults(fields: seq<Field>): (vs: seq<Val>)
    ensures |vs| == |fields|
    decreases fields
  {
    if fields == [] then [] else [DefaultOf(fields[0])] + Defaults(fields[1..])
  }

  function DefaultOf(f: Field): Val
    decreases f
  {
    if f.ptr then VNil else Default(f.typ)
  }

}
