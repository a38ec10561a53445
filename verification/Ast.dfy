/** The syntax trees the front end hands to the IR builder. The nodes of the grammar that only
    hand on to their one child are left out, and additive and term nodes are one case. */
module Ast {
  import opened Wrappers

  datatype CminusType = TypeInt | TypeFloat | TypeVoid

  datatype RelOp = Le | Lt | Gt | Ge | Eq | Neq

  datatype ArithOp = Plus | Minus | Times | Div

  datatype Expr =
    | Num(ty: CminusType, n: int)   // a float constant is given by its bits
    | Var(id: string, index: Option<Expr>)
    | Assign(id: string, index: Option<Expr>, e: Expr)
    | Rel(l: Expr, rop: RelOp, r: Expr)
    | Arith(l: Expr, aop: ArithOp, r: Expr)
    | Call(id: string, args: seq<Expr>)

  datatype VarDecl = VarDecl(ty: CminusType, id: string, num: Option<nat>)

  datatype Stmt =
    | ExprStmt(e: Option<Expr>)
    | Compound(decls: seq<VarDecl>, body: seq<Stmt>)
    | Selection(cond: Expr, thenS: Stmt, elseS: Option<Stmt>)
    | Iteration(cond: Expr, s: Stmt)
    | Return(e: Option<Expr>)

  datatype Param = Param(ty: CminusType, id: string, isArray: bool)

  datatype FunDecl = FunDecl(ty: CminusType, id: string, params: seq<Param>, decls: seq<VarDecl>, body: seq<Stmt>)

  // ---- Loops whose condition indexes no array ----

  predicate HasIndex(e: Expr)
    decreases e
  {
    match e
    case Num(_, _) => false
    case Var(_, index) => index.Some?
    case Assign(_, index, e1) => index.Some? || HasIndex(e1)
    case Rel(l, _, r) => HasIndex(l) || HasIndex(r)
    case Arith(l, _, r) => HasIndex(l) || HasIndex(r)
    case Call(_, args) => exists i :: 0 <= i < |args| && HasIndex(args[i])
  }

  predicate FlatLoops(node: Stmt)
    decreases node
  {
    match node
    case ExprStmt(_) => true
    case Compound(_, body) => forall i :: 0 <= i < |body| ==> FlatLoops(body[i])
    case Selection(_, thenS, elseS) => FlatLoops(thenS) && (elseS.Some? ==> FlatLoops(elseS.value))
    case Iteration(cond, body) => !HasIndex(cond) && FlatLoops(body)
    case Return(_) => true
  }

  predicate FlatFunction(d: FunDecl) {
    FlatLoops(Compound(d.decls, d.body))
  }
}
