/** Which functions the builder accepts: a typing judgement on the syntax tree, and the proof that
    the assertions of the builder hold exactly if it does. */
module Typing {
  import opened Wrappers
  import opened Cfg
  import opened Ast
  import Ir
  import opened Lowering
  import opened Cminus
  import opened Cells

  // What a name is bound to.
  datatype Kind = Variable(ty: Ty) | ArrayOf(elem: Ty) | Function(params: seq<Ty>, ret: Ty)

  type Kinds = map<string, Kind>

  function KindOf(env: seq<Kinds>, id: string): Option<Kind> {
    if env == [] then None
    else if id in env[|env| - 1] then Some(env[|env| - 1][id])
    else KindOf(env[..|env| - 1], id)
  }

  // ---- Types of expressions ----

  predicate Convertible(from: Ty, to: Ty) {
    from == to || (from.IntT? && to.FloatT?) || (from.FloatT? && to.IntT?) ||
    (from.TruthT? && (to.IntT? || to.FloatT?))
  }

  predicate Fitting(from: Option<Ty>, to: Ty) {
    from.Some? && Convertible(from.value, to)
  }

  // Operations are on ints if both operands are ints, and else on floats.
  function PairTy(l: Option<Ty>, r: Option<Ty>, ity: Ty, fty: Ty): Option<Ty> {
    if l == Some(IntT) && r == Some(IntT) then Some(ity)
    else if Fitting(l, FloatT) && Fitting(r, FloatT) then Some(fty)
    else None
  }

  // An array as a whole is the address of its elements.
  function NameTy(k: Option<Kind>): Option<Ty> {
    match k
    case Some(Variable(ty)) => Some(ty)
    case Some(ArrayOf(elem)) => Some(PtrT(elem))
    case _ => None
  }

  // Elements are those of arrays, and of ints and floats behind an address.
  function ElementTy(k: Option<Kind>): Option<Ty> {
    match k
    case Some(ArrayOf(elem)) => Some(elem)
    case Some(Variable(PtrT(elem))) => if elem.IntT? || elem.FloatT? then Some(elem) else None
    case _ => None
  }

  // Where a name is indexed, the handler of negative indices is a function without parameters.
  predicate Handled(env: seq<Kinds>) {
    var k := KindOf(env, HANDLER);
    k.Some? && k.value.Function? && k.value.params == []
  }

  function TypeOf(env: seq<Kinds>, e: Expr): Option<Ty>
    decreases e
  {
    match e
    case Num(ty, _) => Some(if ty.TypeInt? then IntT else FloatT)
    case Var(id, index) => PlaceTy(env, id, index)
    case Assign(id, index, e1) =>
      var to := PlaceTy(env, id, index);
      if to.Some? && (index.None? ==> KindOf(env, id) == Some(Variable(to.value))) && Fitting(TypeOf(env, e1), to.value)
      then to else None
    case Rel(l, _, r) => PairTy(TypeOf(env, l), TypeOf(env, r), TruthT, TruthT)
    case Arith(l, _, r) => PairTy(TypeOf(env, l), TypeOf(env, r), IntT, FloatT)
    case Call(id, args) =>
      var k := KindOf(env, id);
      if k.Some? && k.value.Function? && |args| == |k.value.params| && ArgsTyped(env, args, k.value.params)
      then Some(k.value.ret) else None
  }

  function PlaceTy(env: seq<Kinds>, id: string, index: Option<Expr>): Option<Ty>
    decreases index
  {
    match index
    case None => NameTy(KindOf(env, id))
    case Some(e) => if Fitting(TypeOf(env, e), IntT) && Handled(env) then ElementTy(KindOf(env, id)) else None
  }

  predicate ArgsTyped(env: seq<Kinds>, args: seq<Expr>, params: seq<Ty>)
    requires |args| == |params|
    decreases args
  {
    args == [] || (Fitting(TypeOf(env, args[0]), params[0]) && ArgsTyped(env, args[1..], params[1..]))
  }

  // ---- Statements and functions ----

  // A name that is already in the innermost scope keeps its meaning.
  function Declared(env: seq<Kinds>, id: string, k: Kind): seq<Kinds> {
    if env == [] || id in env[|env| - 1] then env
    else env[|env| - 1 := env[|env| - 1][id := k]]
  }

  function DeclKind(d: VarDecl): Kind {
    if d.num.Some? then ArrayOf(TyOf(d.ty)) else Variable(TyOf(d.ty))
  }

  function AfterDecls(env: seq<Kinds>, ds: seq<VarDecl>): seq<Kinds>
    decreases ds
  {
    if ds == [] then env else AfterDecls(Declared(env, ds[0].id, DeclKind(ds[0])), ds[1..])
  }

  predicate Typed(env: seq<Kinds>, ret: Ty, node: Stmt)
    decreases node
  {
    match node
    case ExprStmt(e) => e.Some? ==> TypeOf(env, e.value).Some?
    case Compound(decls, body) =>
      forall i :: 0 <= i < |body| ==> Typed(AfterDecls(env + [map[]], decls), ret, body[i])
    case Selection(cond, thenS, elseS) =>
      TypeOf(env, cond).Some? && Typed(env, ret, thenS) && (elseS.Some? ==> Typed(env, ret, elseS.value))
    case Iteration(cond, body) => TypeOf(env, cond).Some? && Typed(env, ret, body)
    case Return(e) => e.Some? ==> Fitting(TypeOf(env, e.value), ret)
  }

  function AfterParams(env: seq<Kinds>, ps: seq<Param>): seq<Kinds>
    decreases ps
  {
    if ps == [] then env else AfterParams(Declared(env, ps[0].id, Variable(ParamTy(ps[0]))), ps[1..])
  }

  // In the type of the function, a parameter that is no int is a float.
  function Outside(ps: seq<Param>): seq<Ty> {
    if ps == [] then []
    else
      var ty := if ps[0].ty.TypeInt? then IntT else FloatT;
      [if ps[0].isArray then PtrT(ty) else ty] + Outside(ps[1..])
  }

  // The function sees itself, unless a global has its name already.
  function Globally(globals: Kinds, d: FunDecl): seq<Kinds> {
    Declared([globals], d.id, Function(Outside(d.params), TyOf(d.ty)))
  }

  predicate WellTyped(globals: Kinds, d: FunDecl) {
    Typed(AfterParams(Globally(globals, d) + [map[]], d.params), TyOf(d.ty), Compound(d.decls, d.body))
  }

  // ---- The bindings of the builder ----

  predicate KindOk(k: Kind, ty: Type) {
    match k
    case Variable(t) => ty == Ptr(Lower(t))
    case ArrayOf(t) => ty.Ptr? && ty.elem.Array? && ty.elem.elem == Lower(t)
    case Function(params, ret) => ty == Func(Lower(ret), Lowers(params))
  }

  ghost predicate Matching(ks: Kinds, b: Bindings) {
    ks.Keys == b.Keys && forall id :: id in b ==> KindOk(ks[id], b[id].ty)
  }

  ghost predicate Stands(env: seq<Kinds>, scope: seq<Bindings>) {
    |env| == |scope| && forall i {:trigger scope[i]} {:trigger env[i]} :: 0 <= i < |scope| ==>
      Matching(env[i], scope[i])
  }

  lemma {:induction false} KindFound(env: seq<Kinds>, scope: seq<Bindings>, id: string)
    requires Stands(env, scope)
    ensures KindOf(env, id).Some? <==> Find(scope, id).Some?
    ensures KindOf(env, id).Some? ==> KindOk(KindOf(env, id).value, Find(scope, id).value.ty)
  {
    hide KindOk;
    if scope != [] {
      var n := |scope| - 1;
      assert Matching(env[n], scope[n]);
      if id !in scope[n] { KindFound(env[..n], scope[..n], id); }
    }
  }

  lemma StandsPush(env: seq<Kinds>, scope: seq<Bindings>, id: string, k: Kind, v: Value)
    requires Stands(env, scope) && KindOk(k, v.ty)
    ensures Stands(Declared(env, id, k), Push(scope, id, v))
  {
    hide KindOk;
    if scope != [] {
      assert Matching(env[|scope| - 1], scope[|scope| - 1]);
      var env1, scope1 := Declared(env, id, k), Push(scope, id, v);
      forall i | 0 <= i < |scope1| ensures Matching(env1[i], scope1[i]) {
        assert Matching(env[i], scope[i]);
      }
    }
  }

  // ---- Conversions and operations ----

  lemma ConvertAccepted(s: Build, from: Option<Ty>, to: Ty)
    requires s.ok ==> from.Some?
    requires from.Some? ==> s.value.ty == Lower(from.value)
    ensures TypeConvert(s, Lower(to)).ok <==> s.ok && Fitting(from, to)
    ensures Fitting(from, to) ==> TypeConvert(s, Lower(to)).value.ty == Lower(to)
  {
    if from.Some? { LowerOnce(from.value, to); }
  }

  // Nothing is converted to an array.
  lemma NoConversion(s: Build, from: Option<Ty>, ty: Type)
    requires s.ok ==> from.Some?
    requires ty.Array? && (from.Some? ==> s.value.ty == Lower(from.value))
    ensures !TypeConvert(s, ty).ok
  {
    if from.Some? { LowerPlain(from.value); }
  }

  lemma BinaryAccepted(s: Build, code: Ir.PureOp, l: Value, r: Value, lty: Option<Ty>, rty: Option<Ty>, ity: Ty,
      fty: Ty)
    requires s.ok ==> lty.Some? && rty.Some?
    requires (lty.Some? ==> l.ty == Lower(lty.value)) && (rty.Some? ==> r.ty == Lower(rty.value))
    ensures var s1, ty := Binary(s, code, l, r, Lower(ity), Lower(fty)), PairTy(lty, rty, ity, fty);
            (s1.ok <==> s.ok && ty.Some?) && (ty.Some? ==> s1.value.ty == Lower(ty.value))
  {
    hide TypeConvert, Floating, EmitValue, Fitting;
    if lty.Some? { LowerOnce(lty.value, IntT); }
    if rty.Some? { LowerOnce(rty.value, IntT); }
    var s1 := TypeConvert(s.(value := l), Float);
    var s2 := TypeConvert(s1.(value := r), Float);
    FittingSome(lty, FloatT); FittingSome(rty, FloatT);
    EmitOk(s, Ir.Pure(code), [l.op, r.op], Lower(ity));
    EmitOk(s2, Ir.Pure(Floating(code)), [s1.value.op, s2.value.op], Lower(fty));
    ConvertAccepted(s.(value := l), lty, FloatT);
    ConvertAccepted(s1.(value := r), rty, FloatT);
  }

  lemma FittingSome(from: Option<Ty>, to: Ty)
    ensures Fitting(from, to) ==> from.Some?
  {
  }

  // ---- Variables ----

  lemma NameAccepted(env: seq<Kinds>, s: Build, id: string)
    requires Stands(env, s.scope)
    ensures var s1, k := VisitVar(s, id, None), KindOf(env, id);
            && (s1.ok <==> s.ok && NameTy(k).Some?)
            && (NameTy(k).Some? ==> s1.value.ty == Lower(NameTy(k).value) && KindOk(k.value, s1.addr.ty))
  {
    hide Find, KindOf, VisitVar;
    KindFound(env, s.scope, id);
    var k := KindOf(env, id);
    var v := if Find(s.scope, id).Some? then Find(s.scope, id).value else Value(Ir.Const(0), Void);
    VarIsLoad(s, id, v);
    if k.Some? && k.value.Variable? { LowerPlain(k.value.ty); }
  }

  lemma ElementAccepted(s: Build, v: Value, idx: Operand, k: Kind)
    requires KindOk(k, v.ty)
    ensures var s1, t := ElementAddress(Demand(s, v.ty.Ptr?), v, idx), ElementTy(Some(k));
            (s1.ok <==> s.ok && t.Some?) && (t.Some? ==> s1.addr.ty == Ptr(Lower(t.value)))
  {
    if k.Variable? {
      LowerPlain(k.ty);
      if k.ty.PtrT? { LowerPlain(k.ty.elem); }
    }
  }

  lemma CheckAccepted(env: seq<Kinds>, s: Build, c: Operand)
    requires Stands(env, s.scope)
    ensures CheckIndex(s, c).ok <==> s.ok && Handled(env)
  {
    hide Find, KindOf;
    KindFound(env, s.scope, HANDLER);
  }

  // An index of type `from` behind the name of kind k.
  lemma IndexAccepted(env: seq<Kinds>, s: Build, v: Value, k: Kind, from: Option<Ty>)
    requires Stands(env, s.scope) && KindOk(k, v.ty) && (s.ok ==> from.Some?)
    requires from.Some? ==> s.value.ty == Lower(from.value)
    ensures var s1, t := IndexAddress(s, v), ElementTy(Some(k));
            && (s1.ok <==> s.ok && Fitting(from, IntT) && Handled(env) && t.Some?)
            && (t.Some? ==> s1.addr.ty == Ptr(Lower(t.value)))
  {
    hide TypeConvert, CheckIndex, ElementAddress, Emit, KindOk, Handled;
    var c := TypeConvert(s, Int32);
    ConvertAccepted(s, from, IntT);
    ConvertScope(s, Int32);
    var l := Emit(c, Ir.Pure(RelCode(Lt)), [c.value.op, Ir.Const(0)]);
    EmitScope(c, Ir.Pure(RelCode(Lt)), [c.value.op, Ir.Const(0)]);
    assert l.ok == c.ok by { EmitOk(c, Ir.Pure(RelCode(Lt)), [c.value.op, Ir.Const(0)], Int1); }
    CheckAccepted(env, l, Ir.Res(c.nextId));
    ElementAccepted(CheckIndex(l, Ir.Res(c.nextId)), v, c.value.op, k);
  }

  lemma IndexKept(s: Build, v: Value)
    ensures IndexAddress(s, v).ok ==> s.ok
  {
    hide TypeConvert, Find;
    ConvertScope(s, Int32);
  }

  lemma LoadAccepted(s: Build, v: Value, t: Ty)
    requires s.addr.ty == Ptr(Lower(t))
    ensures var s1 := LoadVar(s, v); s1.ok == s.ok && s1.value.ty == Lower(t) && s1.addr == s.addr
  {
    LowerPlain(t);
  }

  lemma {:induction false} VarAccepted(env: seq<Kinds>, s: Build, id: string, index: Option<Expr>)
    requires Stands(env, s.scope)
    ensures var s1, t := VisitVar(s, id, index), PlaceTy(env, id, index);
            && (s1.ok <==> s.ok && t.Some?)
            && (t.Some? ==> s1.value.ty == Lower(t.value))
            && (t.Some? ==> if index.Some? then s1.addr.ty == Ptr(Lower(t.value))
                            else KindOk(KindOf(env, id).value, s1.addr.ty))
    decreases index, 1
  {
    hide Find, KindOf, VisitExpr, IndexAddress, LoadVar, TypeOf, KindOk, Handled;
    KindFound(env, s.scope, id);
    match index
    case None => NameAccepted(env, s, id);
    case Some(e) =>
      var k := KindOf(env, id);
      var v := if k.Some? then Find(s.scope, id).value else Value(Ir.Const(0), Void);
      var s0 := Demand(s, k.Some?);
      var s1 := VisitExpr(s0, e);
      var s2 := IndexAddress(s1, v);
      ExprAccepted(env, s0, e);
      ExprScope(s0, e);
      IndexKept(s1, v);
      LoadVarOk(s2, v);
      if k.Some? {
        IndexAccepted(env, s1, v, k.value, TypeOf(env, e));
        if ElementTy(k).Some? { LoadAccepted(s2, v, ElementTy(k).value); }
      }
  }

  // ---- Expressions ----

  lemma {:induction false} ExprAccepted(env: seq<Kinds>, s: Build, e: Expr)
    requires Stands(env, s.scope)
    ensures var s1, t := VisitExpr(s, e), TypeOf(env, e);
            (s1.ok <==> s.ok && t.Some?) && (t.Some? ==> s1.value.ty == Lower(t.value))
    decreases e, 2
  {
    hide Find, KindOf, VisitVar, PlaceTy, Binary, Convertible, KindOk, RelCode, ArithCode;
    match e
    case Num(_, _) =>
    case Var(id, index) => VarAccepted(env, s, id, index);
    case Assign(id, index, e1) => AssignAccepted(env, s, id, index, e1);
    case Rel(l, op, r) =>
      var s1 := VisitExpr(s, l);
      ExprAccepted(env, s, l);
      ExprScope(s, l);
      ExprAccepted(env, s1, r);
      var s2 := VisitExpr(s1, r);
      BinaryAccepted(s2, RelCode(op), s1.value, s2.value, TypeOf(env, l), TypeOf(env, r), TruthT, TruthT);
    case Arith(l, op, r) =>
      var s1 := VisitExpr(s, l);
      ExprAccepted(env, s, l);
      ExprScope(s, l);
      ExprAccepted(env, s1, r);
      var s2 := VisitExpr(s1, r);
      BinaryAccepted(s2, ArithCode(op), s1.value, s2.value, TypeOf(env, l), TypeOf(env, r), IntT, FloatT);
    case Call(id, args) => CallAccepted(env, s, id, args);
  }

  lemma {:induction false} AssignAccepted(env: seq<Kinds>, s: Build, id: string, index: Option<Expr>, e1: Expr)
    requires Stands(env, s.scope)
    ensures var s1, t := VisitExpr(s, Assign(id, index, e1)), TypeOf(env, Assign(id, index, e1));
            (s1.ok <==> s.ok && t.Some?) && (t.Some? ==> s1.value.ty == Lower(t.value))
    decreases Assign(id, index, e1), 1
  {
    hide Find, KindOf, VisitVar, PlaceTy, TypeConvert;
    var s1 := VisitVar(s, id, index);
    var s2 := VisitExpr(s1, e1);
    var d := Demand(s2, s1.addr.ty.Ptr?);
    var ty := if s1.addr.ty.Ptr? then s1.addr.ty.elem else Void;
    VarAccepted(env, s, id, index);
    VarScope(s, id, index);
    ExprAccepted(env, s1, e1);
    ConvertScope(d, ty);
    var to := PlaceTy(env, id, index);
    if to.Some? {
      if index.Some? || KindOf(env, id) == Some(Variable(to.value)) {
        ConvertAccepted(d, TypeOf(env, e1), to.value);
      } else {
        NameKinds(env, id);
        NoConversion(d, TypeOf(env, e1), ty);
      }
    }
  }

  lemma NameKinds(env: seq<Kinds>, id: string)
    requires PlaceTy(env, id, None).Some?
    ensures KindOf(env, id) == Some(Variable(PlaceTy(env, id, None).value)) || KindOf(env, id).value.ArrayOf?
  {
    hide KindOf;
  }

  lemma {:induction false} CallAccepted(env: seq<Kinds>, s: Build, id: string, args: seq<Expr>)
    requires Stands(env, s.scope)
    ensures var s1, t := VisitExpr(s, Call(id, args)), TypeOf(env, Call(id, args));
            (s1.ok <==> s.ok && t.Some?) && (t.Some? ==> s1.value.ty == Lower(t.value))
    decreases Call(id, args), 1
  {
    hide Find, KindOf, VisitArgs, ArgsTyped;
    KindFound(env, s.scope, id);
    var k, f := KindOf(env, id), Find(s.scope, id);
    var fty := if f.Some? && f.value.ty.Func? then f.value.ty else Func(Void, []);
    var s1 := Demand(s, f.Some? && f.value.ty.Func? && |fty.params| == |args|);
    ArgsKept(env, s1, args, fty.params);
    if k.Some? && k.value.Function? {
      LowersLength(k.value.params);
      if |args| == |k.value.params| { ArgsAccepted(env, s1, args, k.value.params); }
    }
  }

  lemma LowersLength(tys: seq<Ty>)
    ensures |Lowers(tys)| == |tys|
  {
  }

  lemma {:induction false} ArgsKept(env: seq<Kinds>, s: Build, args: seq<Expr>, params: seq<Type>)
    requires Stands(env, s.scope)
    ensures VisitArgs(s, args, params).0.ok ==> s.ok
    decreases args
  {
    hide VisitExpr, TypeOf, TypeConvert;
    if args != [] {
      var s1, ty := VisitExpr(s, args[0]), if params == [] then Void else params[0];
      ExprAccepted(env, s, args[0]);
      ExprScope(s, args[0]);
      ConvertScope(s1, ty);
      ArgsKept(env, TypeConvert(s1, ty), args[1..], if params == [] then [] else params[1..]);
    }
  }

  lemma {:induction false} ArgsAccepted(env: seq<Kinds>, s: Build, args: seq<Expr>, params: seq<Ty>)
    requires Stands(env, s.scope) && |args| == |params|
    ensures VisitArgs(s, args, Lowers(params)).0.ok <==> s.ok && ArgsTyped(env, args, params)
    decreases args
  {
    hide VisitExpr, TypeOf, TypeConvert;
    if args != [] {
      var s1 := VisitExpr(s, args[0]);
      assert Lowers(params)[0] == Lower(params[0]) && Lowers(params)[1..] == Lowers(params[1..]);
      ExprAccepted(env, s, args[0]);
      ExprScope(s, args[0]);
      ConvertAccepted(s1, TypeOf(env, args[0]), params[0]);
      ConvertScope(s1, Lower(params[0]));
      ArgsAccepted(env, TypeConvert(s1, Lower(params[0])), args[1..], params[1..]);
    }
  }

  // ---- Declarations and statements ----

  lemma DeclAccepted(env: seq<Kinds>, s: Build, d: VarDecl)
    requires Stands(env, s.scope)
    ensures var s1 := VisitDecl(s, d);
            s1.ok == s.ok && s1.ret == s.ret && Stands(Declared(env, d.id, DeclKind(d)), s1.scope)
  {
    hide Stands;
    var ty := if d.num.Some? then Array(ToType(d.ty), d.num.value) else ToType(d.ty);
    assert KindOk(DeclKind(d), Ptr(ty));
    StandsPush(env, s.scope, d.id, DeclKind(d), Value(Ir.Res(s.nextId), Ptr(ty)));
  }

  lemma {:induction false} DeclsAccepted(env: seq<Kinds>, s: Build, ds: seq<VarDecl>)
    requires Stands(env, s.scope)
    ensures var s1 := VisitDecls(s, ds); s1.ok == s.ok && s1.ret == s.ret && Stands(AfterDecls(env, ds), s1.scope)
    decreases ds
  {
    hide Stands, VisitDecl, Declared;
    if ds != [] {
      DeclAccepted(env, s, ds[0]);
      DeclsAccepted(Declared(env, ds[0].id, DeclKind(ds[0])), VisitDecl(s, ds[0]), ds[1..]);
    }
  }

  lemma {:induction false} StmtAccepted(env: seq<Kinds>, s: Build, ret: Ty, node: Stmt)
    requires Stands(env, s.scope) && s.ret == Lower(ret)
    ensures VisitStmt(s, node).ok <==> s.ok && Typed(env, ret, node)
    decreases node, 1
  {
    hide Stands, VisitExpr, TypeOf, TypeConvert, CompareWith0, VisitDecls, AfterDecls, VisitStmts, VisitBranches,
      VisitBody, NewBlock, Br, Fitting;
    match node
    case ExprStmt(e) => if e.Some? { ExprAccepted(env, s, e.value); }
    case Compound(decls, body) =>
      EnterStands(env, s);
      DeclsAccepted(env + [map[]], Enter(s), decls);
      StmtsAccepted(AfterDecls(env + [map[]], decls), VisitDecls(Enter(s), decls), ret, body);
    case Selection(cond, thenS, elseS) =>
      var s1 := VisitExpr(s, cond);
      var s2 := CompareWith0(s1);
      ExprAccepted(env, s, cond); ExprScope(s, cond);
 CompareScope(s1);
      BranchesAccepted(env, s2.(value := s1.value), ret, s2.value.op, node);
    case Iteration(cond, body) => LoopAccepted(env, s, ret, node);
    case Return(e) =>
      if e.Some? {
        ExprAccepted(env, s, e.value); ExprScope(s, e.value);
        ConvertAccepted(VisitExpr(s, e.value), TypeOf(env, e.value), ret);
        FittingSome(TypeOf(env, e.value), ret);
      }
  }

  lemma {:induction false} LoopAccepted(env: seq<Kinds>, s: Build, ret: Ty, node: Stmt)
    requires node.Iteration? && Stands(env, s.scope) && s.ret == Lower(ret)
    ensures VisitStmt(s, node).ok <==> s.ok && TypeOf(env, node.cond).Some? && Typed(env, ret, node.s)
    decreases node, 0, 1
  {
    hide Stands, VisitExpr, TypeOf, CompareWith0, VisitBody, NewBlock, Br, Typed;
    var w := s.nextBlock;
    var s0 := At(Br(NewBlock(s), w), w);
    var s1 := VisitExpr(s0, node.cond);
    var s2 := CompareWith0(s1);
    BranchScope(s, w, Ir.Const(0), w); BranchScope(NewBlock(s), w, Ir.Const(0), w);
    ExprAccepted(env, s0, node.cond); ExprScope(s0, node.cond);
 CompareScope(s1);
    BodyAccepted(env, s2.(value := s1.value), ret, s2.value.op, w, node);
  }

  lemma EnterStands(env: seq<Kinds>, s: Build)
    requires Stands(env, s.scope)
    ensures Stands(env + [map[]], Enter(s).scope) && Enter(s).ok == s.ok && Enter(s).ret == s.ret
  {
    hide Matching;
    forall i | 0 <= i <= |s.scope| ensures Matching((env + [map[]])[i], (s.scope + [map[]])[i]) {
      if i < |s.scope| { assert Matching(env[i], s.scope[i]); } else { NoneMatching(); }
    }
  }

  lemma NoneMatching()
    ensures Matching(map[], map[])
  {
  }

  lemma {:induction false} BranchesAccepted(env: seq<Kinds>, s: Build, ret: Ty, c: Operand, node: Stmt)
    requires node.Selection? && Stands(env, s.scope) && s.ret == Lower(ret)
    ensures VisitBranches(s, c, node).ok <==>
      s.ok && Typed(env, ret, node.thenS) && (node.elseS.Some? ==> Typed(env, ret, node.elseS.value))
    decreases node, 0
  {
    hide Stands, NewBlock, CondBr, Br, Typed, VisitStmt;
    var t, next := s.nextBlock, s.nextBlock + 1;
    var s1 := NewBlock(NewBlock(s));
    var f := s1.nextBlock;
    var a := if node.elseS.None? then At(CondBr(s1, c, t, next), t) else At(CondBr(NewBlock(s1), c, t, f), t);
    BranchScope(s, t, c, f); BranchScope(NewBlock(s), t, c, f);
    BranchScope(s1, t, c, next); BranchScope(NewBlock(s1), t, c, f);
    StmtAccepted(env, a, ret, node.thenS); StmtScope(a, node.thenS);
    var v := VisitStmt(a, node.thenS);
    BranchScope(v, next, c, f);
    if node.elseS.Some? {
      var a2 := At(Br(v, next), f);
      StmtAccepted(env, a2, ret, node.elseS.value);
      BranchScope(VisitStmt(a2, node.elseS.value), next, c, f);
    }
  }

  lemma {:induction false} BodyAccepted(env: seq<Kinds>, s: Build, ret: Ty, c: Operand, w: Block, node: Stmt)
    requires node.Iteration? && Stands(env, s.scope) && s.ret == Lower(ret)
    ensures VisitBody(s, c, w, node).ok <==> s.ok && Typed(env, ret, node.s)
    decreases node, 0, 0
  {
    hide Stands, NewBlock, CondBr, Br, Typed, VisitStmt;
    var b := s.nextBlock;
    var a := At(NewBlock(s), b);
    var v := VisitStmt(a, node.s);
    var s1 := Br(v, w);
    BranchScope(s, b, c, b);
    StmtAccepted(env, a, ret, node.s);
    BranchScope(v, w, c, w);
    BranchScope(s1, w, c, w);
    BranchScope(At(NewBlock(s1), w), b, c, s1.nextBlock);
  }

  lemma {:induction false} StmtsAccepted(env: seq<Kinds>, s: Build, ret: Ty, nodes: seq<Stmt>)
    requires Stands(env, s.scope) && s.ret == Lower(ret)
    ensures VisitStmts(s, nodes).ok <==> s.ok && forall i :: 0 <= i < |nodes| ==> Typed(env, ret, nodes[i])
    decreases nodes, 0
  {
    hide Stands, VisitStmt, Typed;
    if nodes != [] {
      StmtAccepted(env, s, ret, nodes[0]);
      StmtScope(s, nodes[0]);
      StmtsAccepted(env, VisitStmt(s, nodes[0]), ret, nodes[1..]);
    }
  }

  // ---- Functions ----

  lemma {:induction false} ParamsAccepted(env: seq<Kinds>, s: Build, ps: seq<Param>, i: nat)
    requires Stands(env, s.scope)
    ensures var s1 := VisitParams(s, ps, i); s1.ok == s.ok && s1.ret == s.ret && Stands(AfterParams(env, ps), s1.scope)
    decreases ps
  {
    hide Stands, Declared, Push;
    if ps != [] {
      var p := ps[0];
      var env1 := Declared(env, p.id, Variable(ParamTy(p)));
      var v := Value(Ir.Res(s.nextId), Ptr(ParamCell(p)));
      StandsPush(env, s.scope, p.id, Variable(ParamTy(p)), v);
      var s1 := Alloca(s, ParamCell(p)).(value := s.value, scope := Push(s.scope, p.id, v));
      ParamsAccepted(env1, Lowering.Store(s1, Ir.Arg(i), Ir.Res(s.nextId)), ps[1..], i + 1);
    }
  }

  lemma {:induction false} OutsideIs(ps: seq<Param>)
    ensures |Outside(ps)| == |ps| && Lowers(Outside(ps)) == seq(|ps|, (i: nat) requires i < |ps| => ParamType(ps[i]))
  {
    if ps != [] {
      OutsideIs(ps[1..]);
      assert Lowers(Outside(ps)) == [ParamType(ps[0])] + Lowers(Outside(ps[1..]));
    }
  }

  // The assertions of the builder hold exactly for the functions that are well typed.
  lemma {:induction false} Accepted(kinds: Kinds, globals: Bindings, d: FunDecl, self: Operand)
    requires Matching(kinds, globals)
    ensures VisitFunction(globals, d, self).ok <==> WellTyped(kinds, d)
  {
    hide Typed, Declared, Push, VisitStmt, VisitParams, Matching;
    var s := StartFunction(globals, d, self);
    OutsideIs(d.params);
    var fty := Func(ToType(d.ty), seq(|d.params|, (i: nat) requires i < |d.params| => ParamType(d.params[i])));
    StandsPush([kinds], [globals], d.id, Function(Outside(d.params), TyOf(d.ty)), Value(self, fty));
    var s0 := s.(scope := Push([globals], d.id, Value(self, fty)));
    EnterStands(Globally(kinds, d), s0);
    assert Enter(s0).scope == s.scope;
    var env := Globally(kinds, d) + [map[]];
    ParamsAccepted(env, s, d.params, 0);
    StmtAccepted(AfterParams(env, d.params), VisitParams(s, d.params, 0), TyOf(d.ty), Compound(d.decls, d.body));
  }
}
