/** Preprocessed syntax trees of a core of the Gno language. */
module GnoSyntax {
  import opened GnoValues

  /** A resolved name: `_`, or a slot in the block `depth - 1` parents up. */
  datatype Path = Blank | Slot(depth: nat, index: nat)

  datatype Expr =
    | Const(v: Value)
    | Name(path: Path)
    | Unary(uop: UnaryOp, x: Expr)
    | Binary(bop: BinaryOp, left: Expr, right: Expr)
    | And(left: Expr, right: Expr)
    | Or(left: Expr, right: Expr)
    | FuncLit(fid: nat)
    | Call(fn: Expr, args: seq<Expr>)

  /** The statements allowed as loop or branch initializers and loop posts. */
  datatype Simple = Assign(path: Path, rhs: Expr) | ExprStmt(x: Expr)

  datatype Stmt =
    | Basic(s: Simple)
    | Block(body: seq<Stmt>)
    | If(init: Option<Simple>, cond: Expr, thn: seq<Stmt>, els: seq<Stmt>)
    | For(lab: string, init: Option<Simple>, cnd: Option<Expr>, post: Option<Simple>, body: seq<Stmt>)
    | Range(lab: string, key: Option<Path>, val: Option<Path>, x: Expr, body: seq<Stmt>)
    | Break(target: string)
    | Continue(target: string)
    | Return(results: seq<Expr>)
    | Panic(ex: Expr)
    | Defer(fn: Expr, args: seq<Expr>)

  /** A function body with the number of parameters and the default values of
      its results, which follow the parameters in the function block. The native
      function is `recover`. */
  datatype Func = Func(numParams: nat, defaults: seq<Value>, body: seq<Stmt>, native: bool)

  /** The functions of a program and the realm, if any, of each package. */
  datatype Program = Program(funcs: seq<Func>, realms: map<nat, nat>) {
    predicate IsFunc(v: Value) {
      v.VFunc? && v.fid < |funcs|
    }

    function FuncOf(v: Value): Func
      requires IsFunc(v)
    {
      funcs[v.fid]
    }

    function RealmOf(pkg: nat): Option<nat> {
      if pkg in realms then Some(realms[pkg]) else None
    }
  }
}
