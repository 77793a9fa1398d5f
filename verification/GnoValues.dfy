/** Runtime values of the Gno virtual machine and the integer and boolean
    operators of its expressions. */
module GnoValues {

  datatype Option<+T> = None | Some(value: T)

  /** The integer types of definite width; `int` and `uint` have 64 bits. */
  datatype IntKind = Int | Int8 | Int16 | Int32 | Int64 | Uint | Uint8 | Uint16 | Uint32 | Uint64

  function Modulus(k: IntKind): nat {
    match k
    case Int8 => 0x100
    case Uint8 => 0x100
    case Int16 => 0x1_0000
    case Uint16 => 0x1_0000
    case Int32 => 0x1_0000_0000
    case Uint32 => 0x1_0000_0000
    case _ => 0x1_0000_0000_0000_0000
  }

  predicate Signed(k: IntKind) {
    k.Int? || k.Int8? || k.Int16? || k.Int32? || k.Int64?
  }

  predicate InRange(k: IntKind, n: int) {
    if Signed(k) then -(Modulus(k) / 2) <= n < Modulus(k) / 2 else 0 <= n < Modulus(k)
  }

  /** Two's complement wrap-around of `n` at the width of `k`. */
  function Wrap(k: IntKind, n: int): int {
    var r := n % Modulus(k);
    if Signed(k) && r >= Modulus(k) / 2 then r - Modulus(k) else r
  }

  /** Wrap is the one in-range representative of its residue class. */
  lemma WrapIsTheRepresentative(k: IntKind, n: int, q: int)
    ensures InRange(k, Wrap(k, n))
    ensures (Wrap(k, n) - n) % Modulus(k) == 0
    ensures InRange(k, q) && (q - n) % Modulus(k) == 0 ==> q == Wrap(k, n)
  {
    var m := Modulus(k);
    assert m / 2 + m / 2 == m;
    ModBounds(n, m);
    var w := Wrap(k, n);
    ModOfMultiple(w, n, if w == n % m then -(n / m) else -(n / m) - 1, m);
    if InRange(k, q) && (q - n) % m == 0 {
      SmallMultiple(q, w, n, m);
    }
  }

  lemma ModBounds(n: int, m: int)
    requires m > 0
    ensures n == (n / m) * m + n % m && 0 <= n % m < m
  {
  }

  lemma ModOfMultiple(w: int, n: int, d: int, m: int)
    requires m > 0 && w - n == d * m
    ensures (w - n) % m == 0
  {
    ModBounds(d * m, m);
    var e := d - (d * m) / m;
    assert e * m == (d * m) % m;
    MultipleApart(e, m);
  }

  lemma MultipleApart(e: int, m: int)
    requires m > 0
    ensures e >= 1 ==> e * m >= m
    ensures e <= -1 ==> e * m <= -m
  {
  }

  lemma SmallMultiple(q: int, w: int, n: int, m: int)
    requires m > 0 && (q - n) % m == 0 && (w - n) % m == 0 && -m < q - w < m
    ensures q == w
  {
    ModBounds(q - n, m);
    ModBounds(w - n, m);
    var e := (q - n) / m - (w - n) / m;
    assert q - w == e * m;
    MultipleApart(e, m);
  }

  function Abs(n: int): nat {
    if n < 0 then -n else n
  }

  /** Integer division truncated toward zero. */
  function Quo(a: int, b: int): int
    requires b != 0
  {
    if (a < 0) == (b < 0) then Abs(a) / Abs(b) else -(Abs(a) / Abs(b))
  }

  function Rem(a: int, b: int): int
    requires b != 0
  {
    a - b * Quo(a, b)
  }

  /** Quotient and remainder are the truncating pair: the remainder is smaller
      than the divisor and has the sign of the dividend. */
  lemma QuoRemTruncate(a: int, b: int)
    requires b != 0
    ensures a == Quo(a, b) * b + Rem(a, b)
    ensures Abs(Rem(a, b)) < Abs(b)
    ensures Rem(a, b) == 0 || (Rem(a, b) < 0) == (a < 0)
  {
    var x, y: int := Abs(a), Abs(b);
    var d: int := x / y;
    ModBounds(x, y);
    SignedProduct(b, d);
    SignedProduct(b, -d);
  }

  lemma SignedProduct(b: int, d: int)
    ensures b * d == if b < 0 then -(d * Abs(b)) else d * Abs(b)
    ensures (-d) * Abs(b) == -(d * Abs(b))
    ensures d * b == b * d
  {
  }

  datatype Value =
    | VUndef
    | VBool(b: bool)
    | VInt(kind: IntKind, n: int)
    | VList(elems: seq<Value>)
    | VFunc(fid: nat, closure: nat, pkg: nat)
    | VType

  datatype UnaryOp = Upos | Uneg | Unot | Uxor

  /** The binary operators other than `&&` and `||`, which have their own ops. */
  datatype BinaryOp = Eql | Neq | Lss | Leq | Gtr | Geq | Add | Sub | Mul | Quotient | Remainder

  /** The value an operator leaves in the operand's slot; None is a Go-level
      panic (operand type not supported). */
  function ApplyUnary(op: UnaryOp, v: Value): (r: Option<Value>)
  {
    match (op, v)
    case (Upos, _) => Some(v)
    case (Uneg, VInt(k, n)) => Some(VInt(k, Wrap(k, -n)))
    case (Unot, VBool(b)) => Some(VBool(!b))
    case (Uxor, VInt(k, n)) => Some(VInt(k, Wrap(k, -n - 1)))
    case _ => None
  }

  function ApplyInt(op: BinaryOp, k: IntKind, a: int, b: int): (r: Option<Value>)
  {
    match op
    case Eql => Some(VBool(a == b))
    case Neq => Some(VBool(a != b))
    case Lss => Some(VBool(a < b))
    case Leq => Some(VBool(a <= b))
    case Gtr => Some(VBool(a > b))
    case Geq => Some(VBool(a >= b))
    case Add => Some(VInt(k, Wrap(k, a + b)))
    case Sub => Some(VInt(k, Wrap(k, a - b)))
    case Mul => Some(VInt(k, Wrap(k, a * b)))
    case Quotient => if b == 0 then None else Some(VInt(k, Wrap(k, Quo(a, b))))
    case Remainder => if b == 0 then None else Some(VInt(k, Wrap(k, Rem(a, b))))
  }

  /** None is a Go-level panic: division by zero, or operands whose types the
      operator does not support or do not match. An undefined value is equal to
      another one, and to nothing else. */
  function ApplyBinary(op: BinaryOp, l: Value, r: Value): (v: Option<Value>)
  {
    if (l.VUndef? || r.VUndef?) && (op.Eql? || op.Neq?) then
      Some(VBool((l.VUndef? && r.VUndef?) == op.Eql?))
    else match (l, r)
    case (VInt(k, a), VInt(k', b)) => if k == k' then ApplyInt(op, k, a, b) else None
    case (VBool(a), VBool(b)) =>
      if op.Eql? then Some(VBool(a == b)) else if op.Neq? then Some(VBool(a != b)) else None
    case _ => None
  }

  predicate ValueInRange(v: Value) {
    match v
    case VInt(k, n) => InRange(k, n)
    case VList(es) => forall e | e in es :: ValueInRange(e)
    case _ => true
  }

  /** No operator leaves the range of its type: sums and products wrap, and the
      one overflowing quotient (the least signed value by -1) wraps too. */
  lemma OperatorsStayInRange(uop: UnaryOp, op: BinaryOp, l: Value, r: Value)
    requires ValueInRange(l) && ValueInRange(r)
    ensures ApplyUnary(uop, l).Some? ==> ValueInRange(ApplyUnary(uop, l).value)
    ensures ApplyBinary(op, l, r).Some? ==> ValueInRange(ApplyBinary(op, l, r).value)
  {
    forall k, n
      ensures InRange(k, Wrap(k, n))
    {
      WrapIsTheRepresentative(k, n, 0);
    }
  }

  /** Exactly when a binary operator is a Go-level panic. */
  lemma OperatorsFailIff(op: BinaryOp, l: Value, r: Value)
    ensures ApplyBinary(op, l, r).None? <==>
            && !(l.VInt? && r.VInt? && l.kind == r.kind && (op.Quotient? || op.Remainder? ==> r.n != 0))
            && !((op.Eql? || op.Neq?) && (l.VUndef? || r.VUndef? || (l.VBool? && r.VBool?)))
  {
  }

  /** Where values can be compared, `==` is identity and `!=` its opposite. */
  lemma EqualityIsIdentity(l: Value, r: Value)
    ensures ApplyBinary(Eql, l, r).Some? ==> ApplyBinary(Eql, l, r) == Some(VBool(l == r))
    ensures ApplyBinary(Neq, l, r) == if ApplyBinary(Eql, l, r).Some? then Some(VBool(l != r)) else None
  {
  }

  lemma WrapFixesTheRange(k: IntKind, n: int)
    ensures Wrap(k, n) == n <==> InRange(k, n)
  {
    WrapIsTheRepresentative(k, n, n);
  }

  /** Remainders never wrap; a quotient wraps exactly when the least value of a
      signed type is divided by -1. */
  lemma QuotientWrapsOnlyAtTheExtreme(k: IntKind, a: int, b: int)
    requires InRange(k, a) && InRange(k, b) && b != 0
    ensures Wrap(k, Rem(a, b)) == Rem(a, b)
    ensures Wrap(k, Quo(a, b)) == Quo(a, b) <==> !(Signed(k) && a == -(Modulus(k) / 2) && b == -1)
  {
    hide Wrap, Quo, Rem;
    QuoRemTruncate(a, b);
    QuoBound(a, b);
    RangeOfQuotient(Signed(k), Modulus(k) / 2, a, b, Quo(a, b), Rem(a, b));
    WrapFixesTheRange(k, Rem(a, b));
    WrapFixesTheRange(k, Quo(a, b));
  }

  predicate Within(signed: bool, h: int, n: int) {
    if signed then -h <= n < h else 0 <= n < 2 * h
  }

  lemma RangeOfQuotient(signed: bool, h: int, a: int, b: int, q: int, r: int)
    requires h >= 1 && Within(signed, h, a) && Within(signed, h, b) && b != 0
    requires Abs(r) < Abs(b) && (r == 0 || (r < 0) == (a < 0))
    requires Abs(b) >= 2 ==> 2 * Abs(q) <= Abs(a)
    requires b == 1 ==> q == a
    requires b == -1 ==> q == -a
    requires a >= 0 && b >= 0 ==> q >= 0
    ensures Within(signed, h, r)
    ensures Within(signed, h, q) <==> !(signed && a == -h && b == -1)
  {
  }

  lemma QuoBound(a: int, b: int)
    requires b != 0
    ensures Abs(b) >= 2 ==> 2 * Abs(Quo(a, b)) <= Abs(a)
    ensures b == 1 ==> Quo(a, b) == a
    ensures b == -1 ==> Quo(a, b) == -a
    ensures a >= 0 && b >= 0 ==> Quo(a, b) >= 0
  {
    DivideBound(Abs(a), Abs(b));
  }

  lemma DivideBound(x: int, y: int)
    requires x >= 0 && y >= 1
    ensures x / y >= 0
    ensures y >= 2 ==> 2 * (x / y) <= x
    ensures y == 1 ==> x / y == x
  {
    var d := x / y;
    ModBounds(x, y);
    if d < 0 {
      MultipleApart(d, y);
    } else if y >= 2 {
      assert d * y == 2 * d + d * (y - 2);
      ProductNonNegative(d, y - 2);
    }
  }

  lemma ProductNonNegative(x: int, y: int)
    requires x >= 0 && y >= 0
    ensures x * y >= 0
  {
  }

  // ---------------------------------------------------------------- laws

  lemma MultiplesAdd(x: int, y: int, m: int)
    requires m > 0 && x % m == 0 && y % m == 0
    ensures (x + y) % m == 0
  {
    ModBounds(x, m);
    ModBounds(y, m);
    var d := x / m + y / m;
    assert x + y == d * m;
    ModOfMultiple(x + y, 0, d, m);
  }

  lemma MultiplesScale(x: int, y: int, m: int)
    requires m > 0 && x % m == 0
    ensures (x * y) % m == 0
  {
    ModBounds(x, m);
    var d := x / m * y;
    assert x * y == d * m by {
      assert x == x / m * m;
      assert x / m * m * y == x / m * y * m;
    }
    ModOfMultiple(x * y, 0, d, m);
  }

  /** Wrapping before an addition or a multiplication does not change the wrapped result. */
  lemma WrapAbsorbs(k: IntKind, x: int, y: int)
    ensures Wrap(k, Wrap(k, x) + y) == Wrap(k, x + y)
    ensures Wrap(k, Wrap(k, x) * y) == Wrap(k, x * y)
  {
    hide *;
    ModulusPositive(k);
    var m, w := Modulus(k), Wrap(k, x);
    WrapIsTheRepresentative(k, x, 0);
    SameWrap(k, w + y, x + y);
    MultiplesScale(w - x, y, m);
    assert (w - x) * y == w * y - x * y;
    SameWrap(k, w * y, x * y);
  }

  lemma ModulusPositive(k: IntKind)
    ensures Modulus(k) > 0
  {
  }

  lemma SameWrap(k: IntKind, a: int, b: int)
    requires (a - b) % Modulus(k) == 0
    ensures Wrap(k, a) == Wrap(k, b)
  {
    hide *;
    ModulusPositive(k);
    var q := Wrap(k, a);
    WrapIsTheRepresentative(k, a, 0);
    assert q - b == (q - a) + (a - b);
    MultiplesAdd(q - a, a - b, Modulus(k));
    WrapIsTheRepresentative(k, b, q);
  }

  function Int2(op: BinaryOp, k: IntKind, a: int, b: int): int
    requires op.Add? || op.Sub? || op.Mul? || (op.Quotient? && b != 0) || (op.Remainder? && b != 0)
  {
    ApplyInt(op, k, a, b).value.n
  }

  /** Subtraction undoes addition, which commutes. */
  lemma AdditionLaws(k: IntKind, a: int, b: int)
    requires InRange(k, a) && InRange(k, b)
    ensures Int2(Sub, k, Int2(Add, k, a, b), b) == a && Int2(Add, k, a, b) == Int2(Add, k, b, a)
  {
    WrapFixesTheRange(k, a);
    WrapAbsorbs(k, a + b, -b);
    hide Wrap, InRange;
    assert a + b == b + a;
  }

  /** Multiplication commutes, and is repeated addition. */
  lemma MultiplicationLaws(k: IntKind, a: int, b: int)
    requires InRange(k, a) && InRange(k, b)
    ensures Int2(Mul, k, a, b) == Int2(Mul, k, b, a) && Int2(Mul, k, 0, b) == 0
    ensures Int2(Mul, k, Int2(Add, k, a, 1), b) == Int2(Add, k, Int2(Mul, k, a, b), b)
  {
    ZeroInRange(k);
    ProductWraps(k, a, b);
    hide Wrap, InRange;
  }

  lemma ZeroInRange(k: IntKind)
    ensures InRange(k, 0) && Wrap(k, 0) == 0
  {
  }

  lemma ProductWraps(k: IntKind, a: int, b: int)
    ensures a * b == b * a && 0 * b == 0
    ensures Wrap(k, Wrap(k, a + 1) * b) == Wrap(k, Wrap(k, a * b) + b)
  {
    hide *;
    WrapAbsorbs(k, a + 1, b);
    WrapAbsorbs(k, a * b, b);
    assert (a + 1) * b == a * b + b;
  }

  /** Quotient and remainder make up the dividend, also where the quotient wraps. */
  lemma DivisionLaw(k: IntKind, a: int, b: int)
    requires InRange(k, a) && InRange(k, b) && b != 0
    ensures Int2(Add, k, Int2(Mul, k, Int2(Quotient, k, a, b), b), Int2(Remainder, k, a, b)) == a
  {
    DividendWraps(k, a, b);
    hide Wrap, InRange, Quo, Rem;
  }

  lemma DividendWraps(k: IntKind, a: int, b: int)
    requires InRange(k, a) && InRange(k, b) && b != 0
    ensures Wrap(k, Wrap(k, Wrap(k, Quo(a, b)) * b) + Wrap(k, Rem(a, b))) == a
  {
    hide *;
    WrapFixesTheRange(k, a);
    QuoRemTruncate(a, b);
    QuotientWrapsOnlyAtTheExtreme(k, a, b);
    WrapAbsorbs(k, Quo(a, b), b);
    WrapAbsorbs(k, Quo(a, b) * b, Rem(a, b));
  }

  /** Negation is subtraction from zero, complement negation less one. */
  lemma NegationLaws(k: IntKind, a: int)
    requires InRange(k, a)
    ensures ApplyUnary(Uneg, VInt(k, a)) == ApplyInt(Sub, k, 0, a)
    ensures ApplyUnary(Uxor, VInt(k, a)) == ApplyInt(Sub, k, Int2(Sub, k, 0, a), 1)
  {
    WrapAbsorbs(k, -a, -1);
    hide Wrap, InRange;
  }

}
