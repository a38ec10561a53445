/** A loop whose condition indexes an array: the branch of the index check comes first in the
    head of the loop, so the branch that ends the loop stands behind it and is never reached. */
module BrokenLoops {
  import opened Wrappers
  import opened Cfg
  import Ir
  import Ssa
  import PhiPlacement
  import opened Ast
  import opened Lowering
  import opened BuilderShape
  import opened Runs
  import opened BuilderMeaning
  import opened StatementMeaning
  import opened FunctionMeaning
  import opened BuilderStrict
  import opened StatementStrict
  import opened FunctionStrict

  // A conditional branch with instructions behind it.
  ghost predicate Broken(f: Ir.Func, b: Block, i: nat) {
    b in f.lists && i + 1 < |f.lists[b]| && f.lists[b][i] in f.code && f.code[f.lists[b][i]].op.CondBr?
  }

  lemma BrokenNoInput(f: Ir.Func, b: Block, i: nat)
    requires Broken(f, b, i)
    ensures !PhiPlacement.Input(f)
  {
    hide Ssa.OperandsAvailable, PhiPlacement.AddressKinds, Graph.WellFormed;
    assert PhiPlacement.Input(f) ==> Ssa.Terminates(f, b, i);
  }

  // ---- An index closes the block it is in ----

  // s1 has left the block of s with a conditional branch at its end.
  ghost predicate Closed(s: Build, s1: Build) {
    && s1.cur != s.cur && s1.List(s.cur) != []
    && var x := s1.List(s.cur)[|s1.List(s.cur)| - 1]; x in s1.code && s1.code[x].op.CondBr?
  }

  lemma ClosedLater(s: Build, s1: Build, s2: Build)
    requires Closed(s, s1) && Grown(s, s1) && Grown(s1, s2)
    ensures Closed(s, s2)
  {
    hide Grown, Sound;
    GrownKept(s, s1);
    GrownKept(s1, s2);
    GrownHome(s1, s2);
    var x := s1.List(s.cur)[|s1.List(s.cur)| - 1];
    CodeAtIn(s1.code, s2.code, x);
  }

  lemma ClosedAfter(s: Build, s1: Build, s2: Build)
    requires Grown(s, s1) && s1.cur == s.cur && Closed(s1, s2)
    ensures Closed(s, s2)
  {
    hide Grown;
  }

  lemma CheckCloses(s: Build, c: Operand)
    requires Sound(s)
    ensures Closed(s, CheckIndex(s, c))
  {
    hide Sound, CondBr, NewBlock, Find;
    var t, e := s.nextBlock, s.nextBlock + 1;
    var end := CheckIndex(s, c);
    var found := Find(s.scope, "neg_idx_except");
    var callee := if found.Some? then found.value.op else Ir.Const(0);
    var a := Demand(At(CondBr(NewBlock(NewBlock(s)), c, t, e), t), end.ok);
    var j := Emit(a, Ir.Effect(0), [callee]);
    CheckFlag(s, c);
    assert end == At(Br(j, e), e);
    CheckFacts(s, c, a, j, end, t, e, callee);
  }

  lemma CheckFlag(s: Build, c: Operand)
    ensures var found := Find(s.scope, "neg_idx_except");
            CheckIndex(s, c).ok == (s.ok && found.Some? && found.value.ty.Func? && found.value.ty.params == [])
  {
    hide Find;
  }

  lemma IndexCloses(s: Build, v: Value)
    requires Sound(s)
    ensures Closed(s, IndexAddress(s, v))
  {
    hide Grown, Sound, TypeConvert, ElementAddress, CheckIndex, Closed, Emit;
    var s1 := TypeConvert(s, Int32);
    TypeConvertGrown(s, Int32); GrownSound(s, s1);
    ConvertScope(s, Int32);
    var s2 := Emit(s1, Ir.Pure(RelCode(Lt)), [s1.value.op, Ir.Const(0)]);
    GrownEmit(s1, Ir.Pure(RelCode(Lt)), [s1.value.op, Ir.Const(0)]); GrownSound(s1, s2);
    EmitCur(s1, Ir.Pure(RelCode(Lt)), [s1.value.op, Ir.Const(0)]);
    var s3 := CheckIndex(s2, Ir.Res(s1.nextId));
    CheckGrown(s2, Ir.Res(s1.nextId)); GrownSound(s2, s3);
    CheckCloses(s2, Ir.Res(s1.nextId));
    var s4 := Demand(s3, v.ty.Ptr?);
    GrownSame(s3, s4); GrownSound(s3, s4);
    ElementGrown(s4, v, s1.value.op);
    GrownTrans(s, s1, s2); GrownTrans(s, s2, s3);
    ClosedAfter(s, s2, s3);
    ClosedLater(s, s3, s4);
    GrownTrans(s, s3, s4);
    ClosedLater(s, s4, IndexAddress(s, v));
  }

  lemma EmitCur(s: Build, op: Opcode, args: seq<Operand>)
    ensures Emit(s, op, args).cur == s.cur
  {
  }

  // After a visit the block is closed, or the visit is still in it.
  lemma {:induction false} ExprCloses(s: Build, e: Expr)
    requires Sound(s) && HasIndex(e)
    ensures Closed(s, VisitExpr(s, e))
    decreases e, 1
  {
    hide Grown, Sound, VisitVar, VisitArgs, TypeConvert, Binary, Closed, Find;
    match e
    case Var(id, index) => VarCloses(s, id, index.value);
    case Assign(id, index, e1) => AssignCloses(s, e);
    case Rel(l, op, r) => PairCloses(s, e, l, r, RelCode(op), Int1, Int1);
    case Arith(l, op, r) => PairCloses(s, e, l, r, ArithCode(op), Int32, Float);
    case Call(id, args) =>
      var f := Find(s.scope, id);
      var fty := if f.Some? && f.value.ty.Func? then f.value.ty else Func(Void, []);
      var s1 := Demand(s, f.Some? && f.value.ty.Func? && |fty.params| == |args|);
      var s2 := VisitArgs(s1, args, fty.params).0;
      GrownSame(s, s1); GrownSound(s, s1);
      ArgsGrown(s1, args, fty.params); GrownSound(s1, s2);
      GrownEmitValue(s2, Ir.Effect(0),
        [if f.Some? then f.value.op else Ir.Const(0)] + VisitArgs(s1, args, fty.params).1, fty.ret);
      ArgsClose(s1, args, fty.params);
      GrownTrans(s, s1, s2);
      ClosedAfter(s, s1, s2);
      ClosedLater(s, s2, VisitExpr(s, e));
  }

  lemma {:induction false} VarCloses(s: Build, id: string, index: Expr)
    requires Sound(s)
    ensures Closed(s, VisitVar(s, id, Some(index)))
    decreases index, 2
  {
    hide Grown, Sound, VisitExpr, IndexAddress, LoadVar, Find, Closed;
    var found := Find(s.scope, id);
    var v := if found.Some? then found.value else Value(Ir.Const(0), Void);
    var s1 := Demand(s, found.Some?);
    var s2 := VisitExpr(s1, index);
    var s3 := IndexAddress(s2, v);
    GrownSame(s, s1); GrownSound(s, s1);
    ExprGrown(s1, index); GrownSound(s1, s2);
    IndexGrown(s2, v); GrownSound(s2, s3);
    LoadVarGrown(s3, v);
    GrownTrans(s, s1, s2); GrownTrans(s, s2, s3);
    if HasIndex(index) {
      ExprCloses(s1, index);
      ClosedAfter(s, s1, s2);
      ClosedLater(s, s2, s3);
    } else {
      ExprFlat(s1, index);
      IndexCloses(s2, v);
      ClosedAfter(s, s2, s3);
    }
    ClosedLater(s, s3, VisitVar(s, id, Some(index)));
  }

  lemma {:induction false} PairCloses(s: Build, e: Expr, l: Expr, r: Expr, code: Ir.PureOp, ity: Type, fty: Type)
    requires (e.Rel? && e.l == l && e.r == r) || (e.Arith? && e.l == l && e.r == r)
    requires Sound(s) && (HasIndex(l) || HasIndex(r))
    ensures var s1 := VisitExpr(s, l); var s2 := VisitExpr(s1, r);
      Closed(s, Binary(s2, code, s1.value, s2.value, ity, fty))
    decreases e, 0
  {
    hide Grown, Sound, VisitExpr, Binary, Closed, HasIndex;
    var s1 := VisitExpr(s, l);
    var s2 := VisitExpr(s1, r);
    ExprGrown(s, l); GrownSound(s, s1);
    ExprGrown(s1, r); GrownSound(s1, s2);
    BinaryGrown(s2, code, s1.value, s2.value, ity, fty);
    GrownTrans(s, s1, s2);
    if HasIndex(l) {
      ExprCloses(s, l);
      ClosedLater(s, s1, s2);
    } else {
      ExprFlat(s, l);
      ExprCloses(s1, r);
      ClosedAfter(s, s1, s2);
    }
    ClosedLater(s, s2, Binary(s2, code, s1.value, s2.value, ity, fty));
  }

  lemma {:induction false} AssignCloses(s: Build, e: Expr)
    requires e.Assign? && Sound(s) && (e.index.Some? || HasIndex(e.e))
    ensures Closed(s, VisitExpr(s, e))
    decreases e, 0
  {
    hide Grown, Sound, VisitVar, TypeConvert, Closed, HasIndex;
    var s1 := VisitVar(s, e.id, e.index);
    var s2 := VisitExpr(s1, e.e);
    var s3 := Demand(s2, s1.addr.ty.Ptr?);
    var ty := if s1.addr.ty.Ptr? then s1.addr.ty.elem else Void;
    var s4 := TypeConvert(s3, ty);
    VarGrown(s, e.id, e.index); GrownSound(s, s1);
    ExprGrown(s1, e.e); GrownSound(s1, s2);
    GrownSame(s2, s3); GrownSound(s2, s3);
    TypeConvertGrown(s3, ty); GrownSound(s3, s4);
    GrownEmit(s4, Ir.Store, [s4.value.op, s1.addr.op]);
    GrownTrans(s, s1, s2); GrownTrans(s, s2, s3); GrownTrans(s, s3, s4);
    if e.index.Some? {
      VarCloses(s, e.id, e.index.value);
      ClosedLater(s, s1, s2);
    } else {
      VarFlat(s, e.id);
      ExprCloses(s1, e.e);
      ClosedAfter(s, s1, s2);
    }
    ClosedLater(s, s2, s3);
    ClosedLater(s, s3, s4);
    ClosedLater(s, s4, VisitExpr(s, e));
  }

  lemma VarFlat(s: Build, id: string)
    ensures VisitVar(s, id, None).cur == s.cur
  {
    hide Find;
  }

  lemma {:induction false} ArgsClose(s: Build, args: seq<Expr>, params: seq<Type>)
    requires Sound(s) && exists i :: 0 <= i < |args| && HasIndex(args[i])
    ensures Closed(s, VisitArgs(s, args, params).0)
    decreases args, 0
  {
    hide Grown, Sound, TypeConvert, VisitExpr, Closed, HasIndex;
    var ty := if params == [] then Void else params[0];
    var rest := if params == [] then [] else params[1..];
    var s1 := VisitExpr(s, args[0]);
    var s2 := TypeConvert(s1, ty);
    var s3 := VisitArgs(s2, args[1..], rest).0;
    ExprGrown(s, args[0]); GrownSound(s, s1);
    TypeConvertGrown(s1, ty); GrownSound(s1, s2);
    ArgsGrown(s2, args[1..], rest);
    GrownTrans(s, s1, s2);
    ConvertScope(s1, ty);
    if HasIndex(args[0]) {
      ExprCloses(s, args[0]);
      ClosedLater(s, s1, s2);
      ClosedLater(s, s2, s3);
    } else {
      ExprFlat(s, args[0]);
      var i :| 0 <= i < |args| && HasIndex(args[i]);
      assert args[1..][i - 1] == args[i];
      ArgsClose(s2, args[1..], rest);
      ClosedAfter(s, s2, s3);
    }
  }

  // ---- Statements with such a loop ----

  lemma {:induction false} StmtBroken(f: Ir.Func, s: Build, node: Stmt)
    requires Sound(s) && Fits(s, VisitStmt(s, node), f.lists) && CodeIn(VisitStmt(s, node).code, f.code) &&
      !FlatLoops(node)
    ensures exists b, i :: Broken(f, b, i)
    decreases node, 3
  {
    hide Sound, Fits, CodeIn, VisitStmt, HasIndex, Broken;
    match node
    case Compound(_, _) => CompoundBroken(f, s, node);
    case Selection(_, _, _) => SelectionBroken(f, s, node);
    case Iteration(_, _) => LoopBroken(f, s, node);
  }

  lemma {:induction false} CompoundBroken(f: Ir.Func, s: Build, node: Stmt)
    requires node.Compound? && Sound(s) && Fits(s, VisitStmt(s, node), f.lists) &&
      CodeIn(VisitStmt(s, node).code, f.code) && !FlatLoops(node)
    ensures exists b, i :: Broken(f, b, i)
    decreases node, 2
  {
    hide Sound, Fits, CodeIn, VisitStmts, VisitDecls, Grown, Broken;
    var s1 := Enter(s);
    var s2 := VisitDecls(s1, node.decls);
    var s3 := VisitStmts(s2, node.body);
    var s4 := VisitStmt(s, node);
    GrownSame(s, s1); GrownSound(s, s1);
    DeclsGrown(s1, node.decls); GrownSound(s1, s2);
    StmtsGrown(s2, node.body); GrownSound(s2, s3);
    GrownSame(s3, s4); GrownFacts(s3, s4);
    GrownTrans(s, s1, s2); GrownTrans(s, s2, s3);
    FitsFirst(s, s3, s4, f.lists); FitsFirst(s, s2, s3, f.lists);
    CodeInTrans(s3.code, s4.code, f.code);
    StmtsBroken(f, s2, node.body);
  }

  lemma {:induction false} StmtsBroken(f: Ir.Func, s: Build, nodes: seq<Stmt>)
    requires Sound(s) && Fits(s, VisitStmts(s, nodes), f.lists) && CodeIn(VisitStmts(s, nodes).code, f.code)
    requires exists i :: 0 <= i < |nodes| && !FlatLoops(nodes[i])
    ensures exists b, i :: Broken(f, b, i)
    decreases nodes, 0
  {
    hide Sound, Fits, CodeIn, VisitStmt, Grown, Broken, FlatLoops;
    var s1 := VisitStmt(s, nodes[0]);
    var s2 := VisitStmts(s1, nodes[1..]);
    StmtGrown(s, nodes[0]); GrownSound(s, s1);
    StmtsGrown(s1, nodes[1..]); GrownFacts(s1, s2);
    FitsFirst(s, s1, s2, f.lists);
    if !FlatLoops(nodes[0]) {
      CodeInTrans(s1.code, s2.code, f.code);
      StmtBroken(f, s, nodes[0]);
    } else {
      var i :| 0 <= i < |nodes| && !FlatLoops(nodes[i]);
      assert nodes[1..][i - 1] == nodes[i];
      StmtsBroken(f, s1, nodes[1..]);
    }
  }

  lemma {:induction false} SelectionBroken(f: Ir.Func, s: Build, node: Stmt)
    requires node.Selection? && Sound(s) && Fits(s, VisitStmt(s, node), f.lists) &&
      CodeIn(VisitStmt(s, node).code, f.code) && !FlatLoops(node)
    ensures exists b, i :: Broken(f, b, i)
    decreases node, 2
  {
    hide Sound, Fits, CodeIn, VisitExpr, CompareWith0, VisitBranches, Grown, Broken;
    var e := VisitExpr(s, node.cond);
    var c := CompareWith0(e);
    var s2 := c.(value := e.value);
    var end := VisitBranches(s2, c.value.op, node);
    ExprGrown(s, node.cond); GrownSound(s, e);
    CompareGrown(e); GrownSound(e, c);
    GrownSame(c, s2); GrownSound(c, s2);
    BranchesGrown(s2, c.value.op, node); GrownSound(s2, end);
    GrownTrans(s, e, c); GrownTrans(s, c, s2);
    FitsFirst(s, s2, end, f.lists);
    if node.elseS.None? { OneArmBroken(f, s2, c.value.op, node); } else { TwoArmsBroken(f, s2, c.value.op, node); }
  }

  lemma {:induction false} OneArmBroken(f: Ir.Func, s: Build, c: Operand, node: Stmt)
    requires node.Selection? && node.elseS.None? && Sound(s) && Fits(s, VisitBranches(s, c, node), f.lists) &&
      CodeIn(VisitBranches(s, c, node).code, f.code)
    requires !FlatLoops(node.thenS)
    ensures exists b, i :: Broken(f, b, i)
    decreases node, 0
  {
    hide *;
    var t, next := s.nextBlock, s.nextBlock + 1;
    var n2 := NewBlock(NewBlock(s));
    var a := At(CondBr(n2, c, t, next), t);
    var b := VisitStmt(a, node.thenS);
    var j := Br(b, next);
    var end := At(j, next);
    AtIs(CondBr(n2, c, t, next), t); AtIs(j, next);
    OneArmShape(s, c, node, n2, a, b, end, t, next);
    OneArmCode(s, c, n2, a, b, j, end, t, next);
    OneArmLists(s, c, n2, a, b, j, end, t, next);
    FitsArm(s, a, b, end, f.lists, {b.cur});
    BrCode(b, next);
    CodeInTrans(b.code, end.code, f.code);
    StmtBroken(f, a, node.thenS);
  }

  lemma {:induction false} TwoArmsBroken(f: Ir.Func, s: Build, c: Operand, node: Stmt)
    requires node.Selection? && node.elseS.Some? && Sound(s) && Fits(s, VisitBranches(s, c, node), f.lists) &&
      CodeIn(VisitBranches(s, c, node).code, f.code)
    requires !FlatLoops(node.thenS) || !FlatLoops(node.elseS.value)
    ensures exists b, i :: Broken(f, b, i)
    decreases node, 0
  {
    hide *;
    var t, next, e := s.nextBlock, s.nextBlock + 1, s.nextBlock + 2;
    var n3 := NewBlock(NewBlock(NewBlock(s)));
    var a := At(CondBr(n3, c, t, e), t);
    var b := VisitStmt(a, node.thenS);
    var a2 := At(Br(b, next), e);
    var b2 := VisitStmt(a2, node.elseS.value);
    var end := At(Br(b2, next), next);
    AtIs(CondBr(n3, c, t, e), t); AtIs(Br(b, next), e); AtIs(Br(b2, next), next);
    TwoArmsShape(s, c, node, n3, a, b, a2, b2, end, t, next, e);
    TwoArmsCodes(a2, b, b2, end, next, e);
    TwoArmsLists(s, c, n3, a, b, a2, b2, end, t, next, e);
    FitsArm(s, a, b, end, f.lists, {b.cur, e, b2.cur});
    FitsArm(s, a2, b2, end, f.lists, {b2.cur});
    CodeInTrans(b.code, end.code, f.code);
    CodeInTrans(b2.code, end.code, f.code);
    if !FlatLoops(node.thenS) { StmtBroken(f, a, node.thenS); } else { StmtBroken(f, a2, node.elseS.value); }
  }

  lemma {:induction false} LoopBroken(f: Ir.Func, s: Build, node: Stmt)
    requires node.Iteration? && Sound(s) && Fits(s, VisitStmt(s, node), f.lists) &&
      CodeIn(VisitStmt(s, node).code, f.code) && !FlatLoops(node)
    ensures exists b, i :: Broken(f, b, i)
    decreases node, 2
  {
    hide *;
    var w, fin, t := s.nextBlock, VisitStmt(s, node), LoopTest(s, node).0;
    var a, v := LoopBody(s, node), LoopBack(s, node);
    LoopShape(s, node);
    LoopLists(s, node);
    LoopCode(s, node);
    FitsAt(s, fin, f.lists, w);
    NotFlat(node);
    if HasIndex(node.cond) {
      TestCloses(s, node);
      CodeInTrans(t.code, fin.code, f.code);
      HeadBroken(f, LoopHead(s), t, w, LoopFork(s, node).nextId);
    } else {
      LoopHomes(s, node);
      BackIs(s, node);
      CodeInTrans(v.code, fin.code, f.code);
      FitsInner(s, a, v, fin, f.lists, {v.cur, w});
      StmtBroken(f, a, node.s);
    }
  }

  lemma NotFlat(node: Stmt)
    requires node.Iteration? && !FlatLoops(node)
    ensures HasIndex(node.cond) || !FlatLoops(node.s)
  {
  }

  lemma TestCloses(s: Build, node: Stmt)
    requires node.Iteration? && Sound(LoopHead(s)) && HasIndex(node.cond)
    ensures Closed(LoopHead(s), LoopTest(s, node).0) && LoopHead(s).cur == s.nextBlock
  {
    hide Sound, VisitExpr, CompareWith0, HasIndex, Closed, Grown, NewBlock, Br;
    var s1 := LoopHead(s);
    var e := VisitExpr(s1, node.cond);
    var c := CompareWith0(e);
    var t := c.(value := e.value);
    ExprGrown(s1, node.cond); GrownSound(s1, e);
    CompareGrown(e); GrownSound(e, c);
    GrownSame(c, t);
    GrownTrans(s1, e, c);
    ExprCloses(s1, node.cond);
    ClosedLater(s1, e, c);
    ClosedLater(s1, c, t);
  }

  lemma HeadBroken(f: Ir.Func, s1: Build, t: Build, w: Block, x: Ir.Id)
    requires Closed(s1, t) && s1.cur == w && w in f.lists && f.lists[w] == t.List(w) + [x] && CodeIn(t.code, f.code)
    ensures exists b, i :: Broken(f, b, i)
  {
    var i: nat := |t.List(w)| - 1;
    assert f.lists[w][i] == t.List(w)[i];
    assert Broken(f, w, i);
  }

  // ---- Exactly when ----

  lemma FunctionBroken(globals: Bindings, d: FunDecl, self: Operand)
    requires !FlatFunction(d)
    ensures !PhiPlacement.Input(VisitFunction(globals, d, self).Func())
  {
    hide Sound, Grown, VisitParams, VisitStmt, StartFunction, FlatLoops, PhiPlacement.Input, Broken, Fits, CodeIn, Kept;
    var fin := VisitFunction(globals, d, self);
    var s0 := StartFunction(globals, d, self);
    var s1 := VisitParams(s0, d.params, 0);
    var s2 := VisitStmt(s1, Compound(d.decls, d.body));
    var s3 := Exit(s2);
    var args := if d.ty.TypeVoid? then [] else [Ir.Const(0)];
    FunctionIs(globals, d, self, s0, s1, s2, s3, args, fin);
    FunctionGrown(globals, d, self, s0, s1, s2, s3);
    EndFacts(s3, fin, args);
    KeptFrom(s2, s3, fin);
    GrownFacts(s2, s3);
    CodeInTrans(s2.code, s3.code, fin.code);
    FitsEnd(s1, s2, fin);
    StmtBroken(fin.Func(), s1, Compound(d.decls, d.body));
    var b, i :| Broken(fin.Func(), b, i);
    BrokenNoInput(fin.Func(), b, i);
  }

  // A function the builder accepts is an input for promotion exactly if no loop condition
  // indexes an array.
  lemma InputExactly(globals: Bindings, d: FunDecl, self: Operand)
    requires VisitFunction(globals, d, self).ok && GlobalsTyped(StartNames(globals, d, self))
    ensures PhiPlacement.Input(VisitFunction(globals, d, self).Func()) <==> FlatFunction(d)
  {
    hide GlobalsTyped, FlatFunction, VisitFunction, PhiPlacement.Input;
    if FlatFunction(d) { FunctionInput(globals, d, self); } else { FunctionBroken(globals, d, self); }
  }

  // ---- A function the builder accepts and breaks ----

  function Handler(): Value {
    Value(Ir.Global(0), Func(Void, []))
  }

  function First(): Expr {
    Var("a", Some(Num(TypeInt, 0)))
  }

  // int spin() { int a[2]; while (a[0]) ; return 0; }
  function Spin(): FunDecl {
    FunDecl(TypeInt, "spin", [], [VarDecl(TypeInt, "a", Some(2))],
      [Iteration(First(), ExprStmt(None)), Return(Some(Num(TypeInt, 0)))])
  }

  function KnownNames(): Bindings {
    map["neg_idx_except" := Handler()]
  }

  ghost predicate Fine(s: Build, v: Value) {
    && s.ok && s.ret == Int32 && Find(s.scope, "a") == Some(v) && v.ty == Ptr(Array(Int32, 2))
    && Find(s.scope, "neg_idx_except") == Some(Handler())
  }

  lemma FineSame(s: Build, s1: Build, v: Value)
    requires Fine(s, v) && SameScope(s, s1) && s1.ok
    ensures Fine(s1, v)
  {
    hide Find;
  }

  lemma OkKept(s: Build, b: Block, c: Operand, f: Block)
    ensures NewBlock(s).ok == s.ok && Br(s, b).ok == s.ok && CondBr(s, c, b, f).ok == s.ok && At(s, b).ok == s.ok &&
      CompareWith0(s).ok == s.ok
  {
  }

  lemma CheckOk(s: Build, c: Operand)
    requires s.ok && Find(s.scope, "neg_idx_except") == Some(Handler())
    ensures CheckIndex(s, c).ok
  {
    hide Find;
  }

  lemma ElementOk(s: Build, v: Value, idx: Operand)
    requires s.ok && v.ty == Ptr(Array(Int32, 2))
    ensures ElementAddress(s, v, idx).ok && ElementAddress(s, v, idx).addr.ty == Ptr(Int32)
  {
  }

  lemma LoadOk(s: Build, v: Value)
    requires s.ok && s.addr.ty == Ptr(Int32)
    ensures LoadVar(s, v).ok
  {
  }

  lemma IndexOk(s: Build, v: Value)
    requires s.ok && s.value.ty == Int32 && Find(s.scope, "neg_idx_except") == Some(Handler()) &&
      v.ty == Ptr(Array(Int32, 2))
    ensures IndexAddress(s, v).ok && IndexAddress(s, v).addr.ty == Ptr(Int32)
  {
    hide Find, CheckIndex, ElementAddress, Emit;
    var s1 := TypeConvert(s, Int32);
    assert s1 == Demand(s, true);
    var s2 := Emit(s1, Ir.Pure(RelCode(Lt)), [s1.value.op, Ir.Const(0)]);
    EmitOk(s1, Ir.Pure(RelCode(Lt)), [s1.value.op, Ir.Const(0)]);
    CheckOk(s2, Ir.Res(s1.nextId));
    ElementOk(Demand(CheckIndex(s2, Ir.Res(s1.nextId)), v.ty.Ptr?), v, s1.value.op);
  }

  lemma EmitOk(s: Build, op: Opcode, args: seq<Operand>)
    ensures Emit(s, op, args).ok == s.ok && SameScope(s, Emit(s, op, args)) && Emit(s, op, args).value == s.value
  {
  }

  lemma FirstOk(s: Build, v: Value)
    requires Fine(s, v)
    ensures VisitExpr(s, First()).ok
  {
    hide Find, IndexAddress, LoadVar;
    var s1 := VisitExpr(Demand(s, true), Num(TypeInt, 0));
    IndexOk(s1, v);
    LoadOk(IndexAddress(s1, v), v);
    assert VisitExpr(s, First()) == VisitVar(s, "a", Some(Num(TypeInt, 0)));
  }

  lemma LoopOk(s: Build, v: Value)
    requires Fine(s, v)
    ensures Fine(VisitStmt(s, Iteration(First(), ExprStmt(None))), v)
  {
    hide Fine, NewBlock, Br, CondBr, CompareWith0, VisitExpr;
    var node := Iteration(First(), ExprStmt(None));
    var w := s.nextBlock;
    var h := At(Br(NewBlock(s), w), w);
    HeadFine(s, h, v);
    FirstOk(h, v);
    var t := VisitExpr(h, First());
    var c := CompareWith0(t);
    OkKept(t, w, Ir.Const(0), w);
    BodyOk(c.(value := t.value), c.value.op, w, node);
    StmtScope(s, node);
    FineSame(s, VisitStmt(s, node), v);
  }

  lemma HeadFine(s: Build, h: Build, v: Value)
    requires Fine(s, v) && h == At(Br(NewBlock(s), s.nextBlock), s.nextBlock)
    ensures Fine(h, v)
  {
    hide Find;
  }

  lemma BodyOk(s: Build, c: Operand, w: Block, node: Stmt)
    requires s.ok && node == Iteration(First(), ExprStmt(None))
    ensures VisitBody(s, c, w, node).ok
  {
    hide NewBlock, Br, CondBr;
    var b := s.nextBlock;
    OkKept(s, b, c, b);
    var a := At(NewBlock(s), b);
    assert VisitStmt(a, node.s) == a;
    OkKept(a, w, c, w);
    var j := Br(a, w);
    OkKept(j, w, c, w);
    OkKept(At(NewBlock(j), w), b, c, j.nextBlock);
  }

  lemma ReturnOk(s: Build)
    requires s.ok && s.ret == Int32
    ensures VisitStmt(s, Return(Some(Num(TypeInt, 0)))).ok
  {
  }

  lemma SpinNames(self: Operand)
    ensures StartNames(KnownNames(), Spin(), self) ==
      map["neg_idx_except" := Handler(), "spin" := Value(self, Func(Int32, []))]
  {
    assert ParamTypes(Spin()) == [];
  }

  lemma SpinDeclared(self: Operand)
    ensures var s := VisitDecls(Enter(StartFunction(KnownNames(), Spin(), self)), Spin().decls);
            Fine(s, Value(Ir.Res(0), Ptr(Array(Int32, 2))))
  {
    hide Emit, StartNames, KnownNames;
    SpinNames(self);
    var known := StartNames(KnownNames(), Spin(), self);
    var s0 := StartFunction(KnownNames(), Spin(), self);
    SpinStart(self);
    var v := Value(Ir.Res(0), Ptr(Array(Int32, 2)));
    EmitOk(Enter(s0), Ir.Alloca(CellType(Array(Int32, 2))), []);
    var s1 := VisitDecl(Enter(s0), VarDecl(TypeInt, "a", Some(2)));
    assert VisitDecls(Enter(s0), Spin().decls) == s1;
    assert s1.scope == [known, map[], map["a" := v]];
    FindTop([known, map[], map["a" := v]], "a");
    FindTop([known, map[], map["a" := v]], "neg_idx_except");
    assert [known, map[], map["a" := v]][..2] == [known, map[]] && [known, map[]][..1] == [known];
    FindTop([known, map[]], "neg_idx_except");
    FindTop([known], "neg_idx_except");
  }

  lemma SpinStart(self: Operand)
    ensures var s := StartFunction(KnownNames(), Spin(), self);
            s.ok && s.ret == Int32 && s.nextId == 0 && s.scope == [StartNames(KnownNames(), Spin(), self), map[]]
  {
    assert StartFunction(KnownNames(), Spin(), self).scope ==
      Push([KnownNames()], "spin", Value(self, Func(Int32, ParamTypes(Spin())))) + [map[]];
  }

  // The builder accepts the function, and makes of it what is no input for promotion.
  lemma SpinBroken(self: Operand)
    requires self.Global?
    ensures VisitFunction(KnownNames(), Spin(), self).ok && GlobalsTyped(StartNames(KnownNames(), Spin(), self))
    ensures !PhiPlacement.Input(VisitFunction(KnownNames(), Spin(), self).Func())
  {
    hide PhiPlacement.Input, StartFunction, VisitDecls, VisitStmt, Find, VisitFunction, StartNames, KnownNames;
    SpinOk(self);
    SpinNames(self);
    assert !FlatFunction(Spin()) by { SpinNotFlat(); }
    InputExactly(KnownNames(), Spin(), self);
  }

  lemma SpinNotFlat()
    ensures !FlatFunction(Spin())
  {
    assert HasIndex(First());
    assert !FlatLoops(Iteration(First(), ExprStmt(None)));
    assert Spin().body[0] == Iteration(First(), ExprStmt(None));
  }

  lemma SpinOk(self: Operand)
    ensures VisitFunction(KnownNames(), Spin(), self).ok
  {
    hide StartFunction, VisitDecls, VisitStmt, Fine, Emit;
    var s0 := StartFunction(KnownNames(), Spin(), self);
    var s1 := VisitDecls(Enter(s0), Spin().decls);
    var v := Value(Ir.Res(0), Ptr(Array(Int32, 2)));
    SpinDeclared(self);
    LoopOk(s1, v);
    var loop := Iteration(First(), ExprStmt(None));
    var s2 := VisitStmt(s1, loop);
    FineOk(s2, v);
    ReturnOk(s2);
    var s3 := VisitStmt(s2, Return(Some(Num(TypeInt, 0))));
    CompoundParts(s0, Spin().decls, [loop, Return(Some(Num(TypeInt, 0)))]);
    TwoStmts(s1, loop, Return(Some(Num(TypeInt, 0))));
    NoParams(s0, 0);
    EmitOk(Exit(Exit(s3)), Ir.Ret, [Ir.Const(0)]);
  }

  lemma FineOk(s: Build, v: Value)
    requires Fine(s, v)
    ensures s.ok && s.ret == Int32
  {
  }
}
