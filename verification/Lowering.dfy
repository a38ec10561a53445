/** What the IR builder makes of a syntax tree, as functions on its state: the blocks and
    instructions so far, the insertion point, the scopes, and the last value and address. */
module Lowering {
  import opened Wrappers
  import opened Cfg
  import Ir
  import opened Ast

  type Operand = Ir.Operand
  type Opcode = Ir.Opcode

  datatype Type =
    | Void | Int1 | Int32 | Float
    | Ptr(elem: Type) | Array(elem: Type, n: nat) | Func(ret: Type, params: seq<Type>)

  datatype Value = Value(op: Operand, ty: Type)

  type Bindings = map<string, Value>

  // `ok` is false once an assertion of the builder has failed or a null value has been used.
  datatype Build = Build(g: Graph, code: map<Ir.Id, Ir.Instr>, lists: map<Block, seq<Ir.Id>>, home: map<Ir.Id, Block>,
                         cur: Block, nextBlock: Block, nextId: Ir.Id,
                         scope: seq<Bindings>, value: Value, addr: Value, ret: Type, ok: bool)
  {
    function Func(): Ir.Func {
      Ir.Func(g, code, lists, home)
    }

    function List(b: Block): seq<Ir.Id> {
      if b in lists then lists[b] else []
    }

    function Succ(b: Block): seq<Block> {
      if b in g.succ then g.succ[b] else []
    }

    function Pred(b: Block): seq<Block> {
      if b in g.pred then g.pred[b] else []
    }
  }

  // ---- The opcodes of pure instructions ----

  function ArithCode(op: ArithOp): Ir.PureOp {
    match op case Plus => Ir.Add case Minus => Ir.Sub case Times => Ir.Mul case Div => Ir.SDiv
  }

  function RelCode(op: RelOp): Ir.PureOp {
    match op
    case Le => Ir.ICmp(Ir.LE)
    case Lt => Ir.ICmp(Ir.LT)
    case Gt => Ir.ICmp(Ir.GT)
    case Ge => Ir.ICmp(Ir.GE)
    case Eq => Ir.ICmp(Ir.EQ)
    case Neq => Ir.ICmp(Ir.NE)
  }

  // The floating-point counterpart of an operation on integers.
  function Floating(code: Ir.PureOp): Ir.PureOp {
    match code
    case Add => Ir.FAdd
    case Sub => Ir.FSub
    case Mul => Ir.FMul
    case SDiv => Ir.FDiv
    case ICmp(c) => Ir.FCmp(c)
    case _ => code
  }

  // ---- Scopes ----

  function Find(scope: seq<Bindings>, id: string): Option<Value> {
    if scope == [] then None
    else if id in scope[|scope| - 1] then Some(scope[|scope| - 1][id])
    else Find(scope[..|scope| - 1], id)
  }

  lemma FindTop(scope: seq<Bindings>, id: string)
    requires scope != []
    ensures Find(scope, id) == if id in scope[|scope| - 1] then Some(scope[|scope| - 1][id])
      else Find(scope[..|scope| - 1], id)
  {
  }

  // A name that is already in the innermost scope keeps its binding.
  function Push(scope: seq<Bindings>, id: string, v: Value): seq<Bindings> {
    if scope == [] || id in scope[|scope| - 1] then scope
    else scope[|scope| - 1 := scope[|scope| - 1][id := v]]
  }

  function Enter(s: Build): Build {
    s.(scope := s.scope + [map[]])
  }

  function Exit(s: Build): Build {
    if s.scope == [] then s else s.(scope := s.scope[..|s.scope| - 1])
  }

  // ---- Blocks and instructions ----

  function NewBlock(s: Build): Build {
    var b := s.nextBlock;
    s.(g := Graph(s.g.blocks + [b], s.g.entry, s.g.succ[b := []], s.g.pred[b := []]), lists := s.lists[b := []],
      nextBlock := b + 1)
  }

  function At(s: Build, b: Block): Build {
    s.(cur := b)
  }

  // Every instruction goes to the end of the current block.
  function Emit(s: Build, op: Opcode, args: seq<Operand>): Build {
    s.(code := s.code[s.nextId := Ir.Instr(op, args)], lists := s.lists[s.cur := s.List(s.cur) + [s.nextId]],
       home := s.home[s.nextId := s.cur], nextId := s.nextId + 1)
  }

  function EmitValue(s: Build, op: Opcode, args: seq<Operand>, ty: Type): Build {
    Emit(s, op, args).(value := Value(Ir.Res(s.nextId), ty))
  }

  function Edge(s: Build, b: Block): Build {
    s.(g := s.g.(pred := s.g.pred[b := s.Pred(b) + [s.cur]], succ := s.g.succ[s.cur := s.Succ(s.cur) + [b]]))
  }

  function Br(s: Build, b: Block): Build {
    Emit(Edge(s, b), Ir.Br, [Ir.Label(b)])
  }

  // The successor list gets the false target first.
  function CondBr(s: Build, c: Operand, t: Block, f: Block): Build {
    Emit(Edge(Edge(s, f), t), Ir.CondBr, [c, Ir.Label(t), Ir.Label(f)])
  }

  function Demand(s: Build, ok: bool): Build {
    s.(ok := s.ok && ok)
  }

  // The cell type of an alloca.
  function CellType(ty: Type): Ir.CellType {
    match ty case Int32 => Ir.Number case Int1 => Ir.Number case Float => Ir.Number case Array(_,
      _) => Ir.Aggregate case _ => Ir.Pointer
  }

  function Alloca(s: Build, ty: Type): Build {
    EmitValue(s, Ir.Alloca(CellType(ty)), [], Ptr(ty))
  }

  // The result is left in `value`.
  function Load(s: Build, a: Value): Build {
    EmitValue(Demand(s, a.ty.Ptr?), Ir.Load, [a.op], if a.ty.Ptr? then a.ty.elem else Void)
  }

  function Store(s: Build, v: Operand, a: Operand): Build {
    Emit(s, Ir.Store, [v, a])
  }

  // The type a getelementptr with these indices has.
  function GepType(ty: Type): Type {
    if !ty.Ptr? then Void else if ty.elem.Array? then Ptr(ty.elem.elem) else ty
  }

  function Gep(s: Build, a: Value, idxs: seq<Operand>): Build {
    EmitValue(Demand(s, a.ty.Ptr? && (a.ty.elem.Array? || a.ty.elem.Int32? || a.ty.elem.Float?)), Ir.Gep,
      [a.op] + idxs, GepType(a.ty))
  }

  // ---- Conversions ----

  function TypeConvert(s: Build, target: Type): Build {
    var ty := s.value.ty;
    var s1 :=
      if ty == Int32 && target == Float then EmitValue(s, Ir.Pure(Ir.SiToFp), [s.value.op], Float)
      else if ty == Float && target == Int32 then EmitValue(s, Ir.Pure(Ir.FpToSi), [s.value.op], Int32)
      else if ty == Int1 && target == Int32 then EmitValue(s, Ir.Pure(Ir.Zext), [s.value.op], Int32)
      else if ty == Int1 && target == Float then
        var z := EmitValue(s, Ir.Pure(Ir.Zext), [s.value.op], Int32);
        EmitValue(z, Ir.Pure(Ir.SiToFp), [z.value.op], Float)
      else s;
    Demand(s1, s1.value.ty == target)
  }

  function CompareWith0(s: Build): Build {
    if s.value.ty == Int1 then s
    else if s.value.ty == Int32 then EmitValue(s, Ir.Pure(RelCode(Neq)), [s.value.op, Ir.Const(0)], Int1)
    else EmitValue(s, Ir.Pure(Floating(RelCode(Neq))), [s.value.op, Ir.Const(0)], Int1)
  }

  // An operation on two values: on integers directly, otherwise on both converted to float.
  function Binary(s: Build, code: Ir.PureOp, l: Value, r: Value, ity: Type, fty: Type): Build {
    if l.ty == Int32 && r.ty == Int32 then EmitValue(s, Ir.Pure(code), [l.op, r.op], ity)
    else
      var s1 := TypeConvert(s.(value := l), Float);
      var s2 := TypeConvert(s1.(value := r), Float);
      EmitValue(s2, Ir.Pure(Floating(code)), [s1.value.op, s2.value.op], fty)
  }

  // ---- Expressions ----

  function VisitExpr(s: Build, e: Expr): Build
    decreases e
  {
    match e
    case Num(ty, n) => s.(value := Value(Ir.Const(n), if ty.TypeInt? then Int32 else Float))
    case Var(id, index) => VisitVar(s, id, index)
    case Assign(id, index, e1) =>
      var s1 := VisitVar(s, id, index);
      var s2 := VisitExpr(s1, e1);
      var s3 := TypeConvert(Demand(s2, s1.addr.ty.Ptr?), if s1.addr.ty.Ptr? then s1.addr.ty.elem else Void);
      Store(s3, s3.value.op, s1.addr.op)
    case Rel(l, op, r) =>
      var s1 := VisitExpr(s, l);
      var s2 := VisitExpr(s1, r);
      Binary(s2, RelCode(op), s1.value, s2.value, Int1, Int1)
    case Arith(l, op, r) =>
      var s1 := VisitExpr(s, l);
      var s2 := VisitExpr(s1, r);
      Binary(s2, ArithCode(op), s1.value, s2.value, Int32, Float)
    case Call(id, args) =>
      var f := Find(s.scope, id);
      var fty := if f.Some? && f.value.ty.Func? then f.value.ty else Func(Void, []);
      var (s1, ops) := VisitArgs(Demand(s, f.Some? && f.value.ty.Func? && |fty.params| == |args|), args, fty.params);
      EmitValue(s1, Ir.Effect(0), [if f.Some? then f.value.op else Ir.Const(0)] + ops, fty.ret)
  }

  function VisitArgs(s: Build, args: seq<Expr>, params: seq<Type>): (r: (Build, seq<Operand>))
    decreases args
  {
    if args == [] then (s, [])
    else
      var s1 := VisitExpr(s, args[0]);
      var s2 := TypeConvert(s1, if params == [] then Void else params[0]);
      var (s3, ops) := VisitArgs(s2, args[1..], if params == [] then [] else params[1..]);
      (s3, [s2.value.op] + ops)
  }

  // Leaves the address in `addr` and the value loaded from it in `value`.
  function VisitVar(s: Build, id: string, index: Option<Expr>): Build
    decreases index
  {
    var found := Find(s.scope, id);
    var v := if found.Some? then found.value else Value(Ir.Const(0), Void);
    var s1 := Demand(s, found.Some?);
    var s2 := match index
      case None => s1.(addr := v)
      case Some(e) => IndexAddress(VisitExpr(s1, e), v);
    LoadVar(s2, v)
  }

  function LoadVar(s: Build, v: Value): Build {
    var s1 := Load(s, s.addr);
    if s1.value.ty.Array? then Gep(s1, v, [Ir.Const(0), Ir.Const(0)]) else s1
  }

  // The check of the index in `value`, and the address of the element.
  function IndexAddress(s: Build, v: Value): Build {
    var s1 := TypeConvert(s, Int32);
    var idx := s1.value.op;
    var s2 := CheckIndex(Emit(s1, Ir.Pure(RelCode(Lt)), [idx, Ir.Const(0)]), Ir.Res(s1.nextId));
    ElementAddress(Demand(s2, v.ty.Ptr?), v, idx)
  }

  // Calls the handler when the condition c holds, and goes on in a new block.
  function CheckIndex(s: Build, c: Operand): Build {
    var t, f := s.nextBlock, s.nextBlock + 1;
    var found := Find(s.scope, "neg_idx_except");
    var ok := found.Some? && found.value.ty.Func? && found.value.ty.params == [];
    var callee := if found.Some? then found.value.op else Ir.Const(0);
    var s1 := At(CondBr(NewBlock(NewBlock(s)), c, t, f), t);
    At(Br(Emit(Demand(s1, ok), Ir.Effect(0), [callee]), f), f)
  }

  function ElementAddress(s: Build, v: Value, idx: Operand): Build {
    var s1 := if v.ty.Ptr? && v.ty.elem.Array? then Gep(s, v, [Ir.Const(0), idx])
      else var l := Load(s, v); Gep(l, l.value, [idx]);
    s1.(addr := s1.value, value := s.value)
  }

  // ---- Declarations and statements ----

  function ToType(ty: CminusType): Type {
    match ty case TypeInt => Int32 case TypeFloat => Float case TypeVoid => Void
  }

  function VisitDecl(s: Build, d: VarDecl): Build {
    var ty := if d.num.Some? then Array(ToType(d.ty), d.num.value) else ToType(d.ty);
    var s1 := Alloca(s, ty).(value := s.value);
    s1.(scope := Push(s.scope, d.id, Value(Ir.Res(s.nextId), Ptr(ty))))
  }

  function VisitDecls(s: Build, ds: seq<VarDecl>): Build
    decreases ds
  {
    if ds == [] then s else VisitDecls(VisitDecl(s, ds[0]), ds[1..])
  }

  function VisitStmt(s: Build, node: Stmt): Build
    decreases node, 1
  {
    match node
    case ExprStmt(e) => if e.Some? then VisitExpr(s, e.value) else s
    case Compound(decls, body) => Exit(VisitStmts(VisitDecls(Enter(s), decls), body))
    case Selection(cond, thenS, elseS) =>
      var s1 := VisitExpr(s, cond);
      var s2 := CompareWith0(s1);
      VisitBranches(s2.(value := s1.value), s2.value.op, node)
    case Iteration(cond, body) =>
      var w := s.nextBlock;
      var s1 := VisitExpr(At(Br(NewBlock(s), w), w), cond);
      var s2 := CompareWith0(s1);
      VisitBody(s2.(value := s1.value), s2.value.op, w, node)
    case Return(e) =>
      if e.None? then Emit(s, Ir.Ret, [])
      else
        var s1 := TypeConvert(VisitExpr(s, e.value), s.ret);
        Emit(s1, Ir.Ret, [s1.value.op])
  }

  // The branches of a conditional statement with the condition c.
  function VisitBranches(s: Build, c: Operand, node: Stmt): Build
    requires node.Selection?
    decreases node, 0
  {
    var t, next := s.nextBlock, s.nextBlock + 1;
    var s1 := NewBlock(NewBlock(s));
    match node.elseS
    case None =>
      At(Br(VisitStmt(At(CondBr(s1, c, t, next), t), node.thenS), next), next)
    case Some(els) =>
      var f := s1.nextBlock;
      var s2 := Br(VisitStmt(At(CondBr(NewBlock(s1), c, t, f), t), node.thenS), next);
      At(Br(VisitStmt(At(s2, f), els), next), next)
  }

  // The body of a loop with the head w and the condition c. The branch that ends the loop goes
  // into the head.
  function VisitBody(s: Build, c: Operand, w: Block, node: Stmt): Build
    requires node.Iteration?
    decreases node, 0
  {
    var b := s.nextBlock;
    var s1 := Br(VisitStmt(At(NewBlock(s), b), node.s), w);
    var end := s1.nextBlock;
    At(CondBr(At(NewBlock(s1), w), c, b, end), end)
  }

  function VisitStmts(s: Build, nodes: seq<Stmt>): Build
    decreases nodes, 0
  {
    if nodes == [] then s else VisitStmts(VisitStmt(s, nodes[0]), nodes[1..])
  }

  lemma CompoundParts(s: Build, decls: seq<VarDecl>, body: seq<Stmt>)
    ensures VisitStmt(s, Compound(decls, body)) == Exit(VisitStmts(VisitDecls(Enter(s), decls), body))
  {
  }

  lemma TwoStmts(s: Build, a: Stmt, b: Stmt)
    ensures VisitStmts(s, [a, b]) == VisitStmt(VisitStmt(s, a), b)
  {
    hide VisitStmt;
    var s1 := VisitStmt(s, a);
    assert [a, b][1..] == [b] && [b][1..] == [];
    assert VisitStmts(s1, [b]) == VisitStmts(VisitStmt(s1, b), []);
  }

  // ---- Scopes around a visit ----

  // A visit hands back the scopes and the return type it was given.
  ghost predicate SameScope(s: Build, s1: Build) {
    s1.scope == s.scope && s1.ret == s.ret
  }

  ghost predicate SameBlock(s: Build, s1: Build) {
    s1.cur == s.cur && s1.g == s.g
  }

  lemma EmitScope(s: Build, op: Opcode, args: seq<Operand>)
    ensures SameScope(s, Emit(s, op, args)) && Emit(s, op, args).value == s.value
  {
  }

  lemma ConvertScope(s: Build, ty: Type)
    ensures SameScope(s, TypeConvert(s, ty)) && SameBlock(s, TypeConvert(s, ty)) && (TypeConvert(s, ty).ok ==> s.ok)
  {
  }

  lemma BinaryScope(s: Build, code: Ir.PureOp, l: Value, r: Value, ity: Type, fty: Type)
    ensures SameScope(s, Binary(s, code, l, r, ity, fty)) && SameBlock(s, Binary(s, code, l, r, ity, fty))
  {
    hide TypeConvert;
    if !(l.ty == Int32 && r.ty == Int32) {
      var s1 := TypeConvert(s.(value := l), Float);
      ConvertScope(s.(value := l), Float);
      ConvertScope(s1.(value := r), Float);
    }
  }

  lemma BranchScope(s: Build, b: Block, c: Operand, f: Block)
    ensures SameScope(s, Br(s, b)) && SameScope(s, CondBr(s, c, b, f)) && SameScope(s, NewBlock(s)) &&
      SameScope(s, At(s, b))
    ensures Br(s, b).ok == s.ok && CondBr(s, c, b, f).ok == s.ok && NewBlock(s).ok == s.ok
  {
  }

  lemma IndexScope(s: Build, v: Value)
    ensures SameScope(s, IndexAddress(s, v))
  {
    hide TypeConvert, Emit, CheckIndex, ElementAddress;
    var s1 := TypeConvert(s, Int32);
    ConvertScope(s, Int32);
    var s2 := Emit(s1, Ir.Pure(RelCode(Lt)), [s1.value.op, Ir.Const(0)]);
    EmitScope(s1, Ir.Pure(RelCode(Lt)), [s1.value.op, Ir.Const(0)]);
    CheckScope(s2, Ir.Res(s1.nextId));
    ElementScope(Demand(CheckIndex(s2, Ir.Res(s1.nextId)), v.ty.Ptr?), v, s1.value.op);
  }

  lemma CheckScope(s: Build, c: Operand)
    ensures SameScope(s, CheckIndex(s, c))
  {
    hide Find;
  }

  lemma ElementScope(s: Build, v: Value, idx: Operand)
    ensures SameScope(s, ElementAddress(s, v, idx))
  {
  }

  lemma {:induction false} ExprScope(s: Build, e: Expr)
    ensures SameScope(s, VisitExpr(s, e))
    decreases e
  {
    hide TypeConvert, Binary, VisitVar, VisitArgs, Find, Emit;
    match e
    case Num(ty, n) =>
    case Var(id, index) => VarScope(s, id, index);
    case Assign(id, index, e1) =>
      VarScope(s, id, index);
      var s1 := VisitVar(s, id, index);
      ExprScope(s1, e1);
      var s2 := Demand(VisitExpr(s1, e1), s1.addr.ty.Ptr?);
      var ty := if s1.addr.ty.Ptr? then s1.addr.ty.elem else Void;
      ConvertScope(s2, ty);
      EmitScope(TypeConvert(s2, ty), Ir.Store, [TypeConvert(s2, ty).value.op, s1.addr.op]);
    case Rel(l, op, r) =>
      ExprScope(s, l);
      ExprScope(VisitExpr(s, l), r);
      var s2 := VisitExpr(VisitExpr(s, l), r);
      BinaryScope(s2, RelCode(op), VisitExpr(s, l).value, s2.value, Int1, Int1);
    case Arith(l, op, r) =>
      ExprScope(s, l);
      ExprScope(VisitExpr(s, l), r);
      var s2 := VisitExpr(VisitExpr(s, l), r);
      BinaryScope(s2, ArithCode(op), VisitExpr(s, l).value, s2.value, Int32, Float);
    case Call(id, args) =>
      var f := Find(s.scope, id);
      var fty := if f.Some? && f.value.ty.Func? then f.value.ty else Func(Void, []);
      var s1 := Demand(s, f.Some? && f.value.ty.Func? && |fty.params| == |args|);
      ArgsScope(s1, args, fty.params);
      var (s2, ops) := VisitArgs(s1, args, fty.params);
      EmitScope(s2, Ir.Effect(0), [if f.Some? then f.value.op else Ir.Const(0)] + ops);
  }

  lemma {:induction false} ArgsScope(s: Build, args: seq<Expr>, params: seq<Type>)
    ensures SameScope(s, VisitArgs(s, args, params).0)
    decreases args
  {
    hide TypeConvert, VisitExpr;
    if args != [] {
      ExprScope(s, args[0]);
      var ty := if params == [] then Void else params[0];
      ConvertScope(VisitExpr(s, args[0]), ty);
      ArgsScope(TypeConvert(VisitExpr(s, args[0]), ty), args[1..], if params == [] then [] else params[1..]);
    }
  }

  lemma {:induction false} VarScope(s: Build, id: string, index: Option<Expr>)
    ensures SameScope(s, VisitVar(s, id, index))
    decreases index
  {
    hide VisitExpr, IndexAddress, Find;
    var found := Find(s.scope, id);
    var s1 := Demand(s, found.Some?);
    if index.Some? {
      ExprScope(s1, index.value);
      IndexScope(VisitExpr(s1, index.value), if found.Some? then found.value else Value(Ir.Const(0), Void));
    }
  }

  // A plain variable: its address, and the value loaded from it.
  lemma VarIsLoad(s: Build, id: string, v: Value)
    requires v == if Find(s.scope, id).Some? then Find(s.scope, id).value else Value(Ir.Const(0), Void)
    ensures VisitVar(s, id, None) == LoadVar(Demand(s, Find(s.scope, id).Some?).(addr := v), v)
  {
    hide Find, LoadVar;
  }

  lemma LoadVarOk(s: Build, v: Value)
    ensures LoadVar(s, v).ok ==> s.ok && s.addr.ty.Ptr?
  {
    hide EmitValue;
    var ty := if s.addr.ty.Ptr? then s.addr.ty.elem else Void;
    EmitOk(Demand(s, s.addr.ty.Ptr?), Ir.Load, [s.addr.op], ty);
    var s1 := Load(s, s.addr);
    EmitOk(Demand(s1, v.ty.Ptr? && (v.ty.elem.Array? || v.ty.elem.Int32? || v.ty.elem.Float?)), Ir.Gep,
      [v.op] + [Ir.Const(0), Ir.Const(0)], GepType(v.ty));
  }

  lemma EmitOk(s: Build, op: Opcode, args: seq<Operand>, ty: Type)
    ensures EmitValue(s, op, args, ty).ok == s.ok && EmitValue(s, op, args, ty).value == Value(Ir.Res(s.nextId), ty)
    ensures EmitValue(s, op, args, ty).code == Emit(s, op, args).code
  {
  }

  // A variable that can be visited has been found, and is an address.
  lemma {:induction false} VarFound(s: Build, id: string)
    requires VisitVar(s, id, None).ok
    ensures Find(s.scope, id).Some? && Find(s.scope, id).value.ty.Ptr?
  {
    hide Find, LoadVar, VisitVar;
    var v := if Find(s.scope, id).Some? then Find(s.scope, id).value else Value(Ir.Const(0), Void);
    VarIsLoad(s, id, v);
    LoadVarOk(Demand(s, Find(s.scope, id).Some?).(addr := v), v);
  }

  // A declaration adds to the innermost scope only.
  lemma DeclScope(s: Build, d: VarDecl)
    ensures var s1 := VisitDecl(s, d);
            |s1.scope| == |s.scope| && s1.ret == s.ret &&
              (s.scope != [] ==> s1.scope[..|s.scope| - 1] == s.scope[..|s.scope| - 1])
  {
  }

  lemma {:induction false} DeclsScope(s: Build, ds: seq<VarDecl>)
    ensures var s1 := VisitDecls(s, ds);
            |s1.scope| == |s.scope| && s1.ret == s.ret &&
              (s.scope != [] ==> s1.scope[..|s.scope| - 1] == s.scope[..|s.scope| - 1])
    decreases ds
  {
    hide VisitDecl;
    if ds != [] {
      DeclScope(s, ds[0]);
      DeclsScope(VisitDecl(s, ds[0]), ds[1..]);
    }
  }

  lemma {:induction false} StmtsScope(s: Build, nodes: seq<Stmt>)
    ensures SameScope(s, VisitStmts(s, nodes))
    decreases nodes, 0
  {
    hide VisitStmt;
    if nodes != [] {
      StmtScope(s, nodes[0]);
      StmtsScope(VisitStmt(s, nodes[0]), nodes[1..]);
    }
  }

  lemma {:induction false} StmtScope(s: Build, node: Stmt)
    ensures SameScope(s, VisitStmt(s, node))
    decreases node, 1
  {
    hide VisitExpr, VisitStmts, VisitDecls, TypeConvert, Emit, NewBlock, Br, CondBr, VisitBranches, VisitBody,
      CompareWith0;
    match node
    case ExprStmt(e) => if e.Some? { ExprScope(s, e.value); }
    case Compound(decls, body) =>
      DeclsScope(Enter(s), decls);
      StmtsScope(VisitDecls(Enter(s), decls), body);
      assert (s.scope + [map[]])[..|s.scope|] == s.scope;
    case Selection(cond, thenS, elseS) =>
      ExprScope(s, cond);
      var s1 := VisitExpr(s, cond);
      CompareScope(s1);
      BranchesScope(CompareWith0(s1).(value := s1.value), CompareWith0(s1).value.op, node);
    case Iteration(cond, body) =>
      var w := s.nextBlock;
      BranchScope(s, w, Ir.Const(0), w);
      BranchScope(NewBlock(s), w, Ir.Const(0), w);
      var s0 := At(Br(NewBlock(s), w), w);
      ExprScope(s0, cond);
      var s1 := VisitExpr(s0, cond);
      CompareScope(s1);
      BodyScope(CompareWith0(s1).(value := s1.value), CompareWith0(s1).value.op, w, node);
    case Return(e) =>
      if e.None? {
        EmitScope(s, Ir.Ret, []);
      } else {
        ExprScope(s, e.value);
        var s1 := VisitExpr(s, e.value);
        ConvertScope(s1, s.ret);
        EmitScope(TypeConvert(s1, s.ret), Ir.Ret, [TypeConvert(s1, s.ret).value.op]);
      }
  }

  lemma CompareScope(s: Build)
    ensures SameScope(s, CompareWith0(s)) && CompareWith0(s).ok == s.ok
  {
  }

  lemma {:induction false} BranchesScope(s: Build, c: Operand, node: Stmt)
    requires node.Selection?
    ensures SameScope(s, VisitBranches(s, c, node))
    decreases node, 0
  {
    hide NewBlock, Br, CondBr, VisitStmt;
    var t, next := s.nextBlock, s.nextBlock + 1;
    BranchScope(s, t, c, next);
    var s1 := NewBlock(NewBlock(s));
    BranchScope(NewBlock(s), t, c, next);
    BranchScope(s1, t, c, next);
    if node.elseS.None? {
      var s2 := At(CondBr(s1, c, t, next), t);
      StmtScope(s2, node.thenS);
      BranchScope(VisitStmt(s2, node.thenS), next, c, next);
    } else {
      var f := s1.nextBlock;
      BranchScope(NewBlock(s1), t, c, f);
      var s2 := At(CondBr(NewBlock(s1), c, t, f), t);
      StmtScope(s2, node.thenS);
      BranchScope(VisitStmt(s2, node.thenS), next, c, next);
      var s3 := At(Br(VisitStmt(s2, node.thenS), next), f);
      StmtScope(s3, node.elseS.value);
      BranchScope(VisitStmt(s3, node.elseS.value), next, c, next);
    }
  }

  lemma {:induction false} BodyScope(s: Build, c: Operand, w: Block, node: Stmt)
    requires node.Iteration?
    ensures SameScope(s, VisitBody(s, c, w, node))
    decreases node, 0
  {
    hide NewBlock, Br, CondBr, VisitStmt;
    var b := s.nextBlock;
    BranchScope(s, b, c, b);
    var s1 := VisitStmt(At(NewBlock(s), b), node.s);
    StmtScope(At(NewBlock(s), b), node.s);
    BranchScope(s1, w, c, w);
    var s2 := Br(s1, w);
    BranchScope(s2, w, c, w);
    BranchScope(At(NewBlock(s2), w), b, c, s2.nextBlock);
  }

  // ---- Functions ----

  function ParamType(p: Param): Type {
    if p.isArray then Ptr(if p.ty.TypeInt? then Int32 else Float) else if p.ty.TypeInt? then Int32 else Float
  }

  // The type of the parameter's cell.
  function ParamCell(p: Param): Type {
    if p.isArray then Ptr(ToType(p.ty)) else ToType(p.ty)
  }

  function VisitParams(s: Build, ps: seq<Param>, i: nat): Build
    decreases ps
  {
    if ps == [] then s
    else
      var s1 := Alloca(s, ParamCell(ps[0])).(value := s.value);
      var s2 := s1.(scope := Push(s.scope, ps[0].id, Value(Ir.Res(s.nextId), Ptr(ParamCell(ps[0])))));
      VisitParams(Store(s2, Ir.Arg(i), Ir.Res(s.nextId)), ps[1..], i + 1)
  }

  // The state with the entry block only.
  function StartFunction(globals: Bindings, d: FunDecl, self: Operand): Build {
    var fty := Func(ToType(d.ty), seq(|d.params|, (i: nat) requires i < |d.params| => ParamType(d.params[i])));
    var known := Push([globals], d.id, Value(self, fty));
    Build(Graph([0], 0, map[0 := []], map[0 := []]), map[], map[0 := []], map[], 0, 1, 0,
          known + [map[]], Value(Ir.Const(0), Void), Value(Ir.Const(0), Void), ToType(d.ty), true)
  }

  function VisitFunction(globals: Bindings, d: FunDecl, self: Operand): Build {
    var s1 := VisitParams(StartFunction(globals, d, self), d.params, 0);
    var s2 := Exit(VisitStmt(s1, Compound(d.decls, d.body)));
    if d.ty.TypeVoid? then Emit(s2, Ir.Ret, []) else Emit(s2, Ir.Ret, [Ir.Const(0)])
  }

  // ---- Expressions without an index stay in their block ----

  lemma {:induction false} ExprFlat(s: Build, e: Expr)
    requires !HasIndex(e)
    ensures SameBlock(s, VisitExpr(s, e))
    decreases e
  {
    hide TypeConvert, Binary, Find, VisitArgs;
    match e
    case Num(_, _) =>
    case Var(id, _) =>
    case Assign(id, _, e1) =>
      ExprFlat(VisitVar(s, id, None), e1);
      ConvertScope(Demand(VisitExpr(VisitVar(s, id, None), e1), VisitVar(s, id, None).addr.ty.Ptr?),
                  if VisitVar(s, id, None).addr.ty.Ptr? then VisitVar(s, id, None).addr.ty.elem else Void);
    case Rel(l, op, r) =>
      ExprFlat(s, l);
      ExprFlat(VisitExpr(s, l), r);
      BinaryScope(VisitExpr(VisitExpr(s, l), r), RelCode(op), VisitExpr(s, l).value,
        VisitExpr(VisitExpr(s, l), r).value, Int1, Int1);
    case Arith(l, op, r) =>
      ExprFlat(s, l);
      ExprFlat(VisitExpr(s, l), r);
      BinaryScope(VisitExpr(VisitExpr(s, l), r), ArithCode(op), VisitExpr(s, l).value,
        VisitExpr(VisitExpr(s, l), r).value, Int32, Float);
    case Call(id, args) =>
      var found := Find(s.scope, id);
      var fty := if found.Some? && found.value.ty.Func? then found.value.ty else Func(Void, []);
      ArgsFlat(Demand(s, found.Some? && found.value.ty.Func? && |fty.params| == |args|), args, fty.params);
  }

  lemma {:induction false} ArgsFlat(s: Build, args: seq<Expr>, params: seq<Type>)
    requires forall i :: 0 <= i < |args| ==> !HasIndex(args[i])
    ensures SameBlock(s, VisitArgs(s, args, params).0)
    decreases args
  {
    hide TypeConvert, VisitExpr;
    if args != [] {
      ExprFlat(s, args[0]);
      ConvertScope(VisitExpr(s, args[0]), if params == [] then Void else params[0]);
      ArgsFlat(TypeConvert(VisitExpr(s, args[0]), if params == [] then Void else params[0]), args[1..], if params ==
        [] then [] else params[1..]);
    }
  }
}
