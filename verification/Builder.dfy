/** The visitor that builds the IR: it communicates through fields, moves the insertion point
    and appends to the blocks. Each method is the function of the same name on its state. */
module Builder {
  import opened Wrappers
  import opened Cfg
  import Ir
  import opened Ast
  import opened Lowering
  import BuilderShape
  import Typing

  // The scopes of the names in use, innermost last.
  class Scope {
    var inner: seq<Bindings>

    constructor ()
      ensures inner == []
    {
      inner := [];
    }

    method Enter()
      modifies this
      ensures inner == old(inner) + [map[]]
    {
      inner := inner + [map[]];
    }

    method Exit()
      requires inner != []
      modifies this
      ensures inner == old(inner)[..|old(inner)| - 1]
    {
      inner := inner[..|inner| - 1];
    }

    // Says whether the name was new in the innermost scope; if not, its binding stays.
    method Push(name: string, val: Value) returns (isNew: bool)
      requires inner != []
      modifies this
      ensures isNew <==> name !in old(inner)[|old(inner)| - 1]
      ensures inner == Lowering.Push(old(inner), name, val)
      ensures isNew ==> Lowering.Find(inner, name) == Some(val)
    {
      isNew := name !in inner[|inner| - 1];
      if isNew {
        inner := inner[|inner| - 1 := inner[|inner| - 1][name := val]];
      }
    }

    // The innermost binding of a name.
    method Find(name: string) returns (val: Option<Value>)
      ensures val == Lowering.Find(inner, name)
      ensures val.None? <==> forall i :: 0 <= i < |inner| ==> name !in inner[i]
      ensures val.Some? ==> exists i :: 0 <= i < |inner| && name in inner[i] && inner[i][name] == val.value
                                        && forall j :: i < j < |inner| ==> name !in inner[j]
    {
      var k := |inner|;
      assert inner[..k] == inner;
      while k > 0
        invariant 0 <= k <= |inner| && Lowering.Find(inner, name) == Lowering.Find(inner[..k], name)
        invariant forall j :: k <= j < |inner| ==> name !in inner[j]
      {
        k := k - 1;
        assert inner[..k + 1][..k] == inner[..k];
        if name in inner[k] {
          val := Some(inner[k][name]);
          return;
        }
      }
      val := None;
    }
  }

  class CminusfBuilder {
    const scope: Scope
    // The function under construction: its blocks with their edge lists and instructions.
    var graph: Graph
    var code: map<Ir.Id, Ir.Instr>
    var lists: map<Block, seq<Ir.Id>>
    var home: map<Ir.Id, Block>
    var nextBlock: Block
    var nextId: Ir.Id
    // The insertion point.
    var insertBlock: Block
    // What the visits hand to each other.
    var expressionValue: Value
    var varAddress: Value
    var returnValueType: Type
    // An assertion has failed, or a null value has been used.
    var aborted: bool

    constructor (globals: Bindings)
      ensures fresh(scope) && scope.inner == [globals]
    {
      var s := new Scope();
      graph, code, lists, home := Graph([], 0, map[], map[]), map[], map[], map[];
      nextBlock, nextId, insertBlock := 0, 0, 0;
      expressionValue, varAddress := Value(Ir.Const(0), Void), Value(Ir.Const(0), Void);
      returnValueType, aborted := Void, false;
      scope := s;
      new;
      scope.inner := [globals];
    }

    function State(): Build
      reads this, scope
    {
      Build(graph, code, lists, home, insertBlock, nextBlock, nextId, scope.inner, expressionValue, varAddress,
        returnValueType, !aborted)
    }

    // ---- Blocks and instructions ----

    method CreateBlock() returns (b: Block)
      modifies this
      ensures State() == NewBlock(old(State())) && b == old(nextBlock)
    {
      b := nextBlock;
      graph := Graph(graph.blocks + [b], graph.entry, graph.succ[b := []], graph.pred[b := []]);
      lists := lists[b := []];
      nextBlock := b + 1;
    }

    method SetInsertPoint(b: Block)
      modifies this
      ensures State() == At(old(State()), b)
    {
      insertBlock := b;
    }

    method AddInstruction(op: Opcode, args: seq<Operand>) returns (x: Ir.Id)
      modifies this
      ensures State() == Emit(old(State()), op, args) && x == old(nextId)
    {
      x := nextId;
      code := code[x := Ir.Instr(op, args)];
      lists := lists[insertBlock := (if insertBlock in lists then lists[insertBlock] else []) + [x]];
      home := home[x := insertBlock];
      nextId := x + 1;
    }

    method AddPreBasicBlock(b: Block, pre: Block)
      modifies this
      ensures State() ==
        old(State()).(g := old(State()).g.(pred := old(State()).g.pred[b := old(State()).Pred(b) + [pre]]))
    {
      graph := graph.(pred := graph.pred[b := (if b in graph.pred then graph.pred[b] else []) + [pre]]);
    }

    method AddSuccBasicBlock(b: Block, succ: Block)
      modifies this
      ensures State() ==
        old(State()).(g := old(State()).g.(succ := old(State()).g.succ[b := old(State()).Succ(b) + [succ]]))
    {
      graph := graph.(succ := graph.succ[b := (if b in graph.succ then graph.succ[b] else []) + [succ]]);
    }

    method CreateBr(b: Block)
      modifies this
      ensures State() == Br(old(State()), b)
    {
      AddPreBasicBlock(b, insertBlock);
      AddSuccBasicBlock(insertBlock, b);
      var x := AddInstruction(Ir.Br, [Ir.Label(b)]);
    }

    method CreateCondBr(c: Value, t: Block, f: Block)
      modifies this
      ensures State() == CondBr(old(State()), c.op, t, f)
    {
      AddPreBasicBlock(t, insertBlock);
      AddPreBasicBlock(f, insertBlock);
      AddSuccBasicBlock(insertBlock, f);
      AddSuccBasicBlock(insertBlock, t);
      TwoPreds(old(State()), t, f);
      var x := AddInstruction(Ir.CondBr, [c.op, Ir.Label(t), Ir.Label(f)]);
    }

    method CreateValue(op: Opcode, args: seq<Operand>, ty: Type) returns (v: Value)
      modifies this
      ensures State() == Emit(old(State()), op, args) && v == Value(Ir.Res(old(nextId)), ty)
    {
      var x := AddInstruction(op, args);
      v := Value(Ir.Res(x), ty);
    }

    method Assert(ok: bool)
      modifies this
      ensures State() == Demand(old(State()), ok)
    {
      if !ok { aborted := true; }
    }

    // ---- Conversions ----

    method Convert(input: Value, target: Type) returns (v: Value)
      modifies this
      ensures State().(value := v) == TypeConvert(old(State()).(value := input), target) &&
        expressionValue == old(expressionValue)
    {
      hide Emit;
      v := input;
      ghost var s := State();
      if input.ty == Int32 && target == Float {
        EmitOnly(s, input, Ir.Pure(Ir.SiToFp), [input.op]);
        v := CreateValue(Ir.Pure(Ir.SiToFp), [input.op], Float);
      } else if input.ty == Float && target == Int32 {
        EmitOnly(s, input, Ir.Pure(Ir.FpToSi), [input.op]);
        v := CreateValue(Ir.Pure(Ir.FpToSi), [input.op], Int32);
      } else if input.ty == Int1 && target == Int32 {
        EmitOnly(s, input, Ir.Pure(Ir.Zext), [input.op]);
        v := CreateValue(Ir.Pure(Ir.Zext), [input.op], Int32);
      } else if input.ty == Int1 && target == Float {
        EmitOnly(s, input, Ir.Pure(Ir.Zext), [input.op]);
        var temp := CreateValue(Ir.Pure(Ir.Zext), [input.op], Int32);
        EmitOnly(State(), temp, Ir.Pure(Ir.SiToFp), [temp.op]);
        v := CreateValue(Ir.Pure(Ir.SiToFp), [temp.op], Float);
      }
      Assert(v.ty == target);
    }

    method Compare0(input: Value) returns (cmp: Value)
      modifies this
      ensures State().(value := cmp) == CompareWith0(old(State()).(value := input)) &&
        expressionValue == old(expressionValue)
    {
      if input.ty == Int1 {
        cmp := input;
      } else if input.ty == Int32 {
        cmp := CreateValue(Ir.Pure(RelCode(Neq)), [input.op, Ir.Const(0)], Int1);
      } else {
        cmp := CreateValue(Ir.Pure(Floating(RelCode(Neq))), [input.op, Ir.Const(0)], Int1);
      }
    }

    method CreateLoad(a: Value) returns (v: Value)
      modifies this
      ensures State().(value := v) == Load(old(State()), a) && expressionValue == old(expressionValue)
    {
      Assert(a.ty.Ptr?);
      v := CreateValue(Ir.Load, [a.op], if a.ty.Ptr? then a.ty.elem else Void);
    }

    method CreateGep(a: Value, idxs: seq<Operand>) returns (v: Value)
      modifies this
      ensures State().(value := v) == Gep(old(State()), a, idxs) && expressionValue == old(expressionValue)
    {
      Assert(a.ty.Ptr? && (a.ty.elem.Array? || a.ty.elem.Int32? || a.ty.elem.Float?));
      v := CreateValue(Ir.Gep, [a.op] + idxs, GepType(a.ty));
    }

    method Operate(bin: Ir.PureOp, l: Value, r: Value, ity: Type, fty: Type)
      modifies this
      ensures State() == Binary(old(State()), bin, l, r, ity, fty)
    {
      hide TypeConvert;
      if l.ty == Int32 && r.ty == Int32 {
        expressionValue := CreateValue(Ir.Pure(bin), [l.op, r.op], ity);
      } else {
        ghost var s0 := State();
        var lf := Convert(l, Float);
        ghost var s1 := TypeConvert(s0.(value := l), Float);
        assert State().(value := r) == s1.(value := r);
        var rf := Convert(r, Float);
        expressionValue := CreateValue(Ir.Pure(Floating(bin)), [lf.op, rf.op], fty);
      }
    }

    // ---- Expressions ----

    method VisitExpr(e: Expr)
      modifies this
      ensures State() == Lowering.VisitExpr(old(State()), e)
      decreases e
    {
      hide TypeConvert, Binary, Lowering.VisitVar, VisitArgs, Find, Emit;
      match e
      case Num(ty, n) =>
        expressionValue := Value(Ir.Const(n), if ty.TypeInt? then Int32 else Float);
      case Var(id, index) =>
        VisitVar(id, index);
      case Assign(id, index, e1) =>
        VisitVar(id, index);
        var recordVarAddress := varAddress;
        VisitExpr(e1);
        Assert(recordVarAddress.ty.Ptr?);
        expressionValue :=
          Convert(expressionValue, if recordVarAddress.ty.Ptr? then recordVarAddress.ty.elem else Void);
        var x := AddInstruction(Ir.Store, [expressionValue.op, recordVarAddress.op]);
      case Rel(l, op, r) =>
        VisitExpr(l);
        var lhs := expressionValue;
        VisitExpr(r);
        Operate(RelCode(op), lhs, expressionValue, Int1, Int1);
      case Arith(l, op, r) =>
        VisitExpr(l);
        var left := expressionValue;
        VisitExpr(r);
        Operate(ArithCode(op), left, expressionValue, Int32, Float);
      case Call(id, args) =>
        VisitCall(id, args);
    }

    method VisitCall(id: string, args: seq<Expr>)
      modifies this
      ensures State() == Lowering.VisitExpr(old(State()), Call(id, args))
      decreases args, 1
    {
      hide Lowering.VisitExpr, VisitArgs, TypeConvert, Emit, Find;
      ghost var s := State();
      var callee := scope.Find(id);
      var fty := if callee.Some? && callee.value.ty.Func? then callee.value.ty else Func(Void, []);
      Assert(callee.Some? && callee.value.ty.Func? && |fty.params| == |args|);
      ghost var s1 := State();
      var values := VisitArguments(args, fty.params);
      CallIs(s, id, args, callee, fty, s1, State(), values);
      expressionValue :=
        CreateValue(Ir.Effect(0), [if callee.Some? then callee.value.op else Ir.Const(0)] + values, fty.ret);
    }

    method VisitArguments(args: seq<Expr>, params: seq<Type>) returns (values: seq<Operand>)
      modifies this
      ensures (State(), values) == VisitArgs(old(State()), args, params)
      decreases args, 0
    {
      hide Lowering.VisitExpr, VisitArgs, TypeConvert, ArgsFrom;
      values := [];
      var i := 0;
      ArgsStart(State(), args, params);
      while i < |args|
        invariant 0 <= i <= |args|
        invariant ArgsFrom(old(State()), args, params, i, State(), values)
      {
        ghost var s2, done := State(), values;
        VisitExpr(args[i]);
        expressionValue := Convert(expressionValue, if i < |params| then params[i] else Void);
        values := values + [expressionValue.op];
        ArgsNext(old(State()), args, params, i, s2, done, State(), values);
        i := i + 1;
      }
      ArgsEnd(old(State()), args, params, State(), values);
    }

    method VisitVar(id: string, index: Option<Expr>)
      modifies this
      ensures State() == Lowering.VisitVar(old(State()), id, index)
      decreases index
    {
      hide Lowering.VisitExpr, Find, IndexAddress, Load, Gep;
      var varAlloca := scope.Find(id);
      Assert(varAlloca.Some?);
      var v := if varAlloca.Some? then varAlloca.value else Value(Ir.Const(0), Void);
      if index.None? {
        varAddress := v;
      } else {
        VisitExpr(index.value);
        CheckedElement(v);
      }
      expressionValue := CreateLoad(varAddress);
      if expressionValue.ty.Array? {
        expressionValue := CreateGep(v, [Ir.Const(0), Ir.Const(0)]);
      }
    }

    // The index is in expressionValue; the address of the element goes to varAddress.
    method CheckedElement(v: Value)
      modifies this
      ensures State() == IndexAddress(old(State()), v)
    {
      hide TypeConvert, CheckIndex, Load, Gep, Emit;
      expressionValue := Convert(expressionValue, Int32);
      var idx := expressionValue;
      var cmp := CreateValue(Ir.Pure(RelCode(Lt)), [idx.op, Ir.Const(0)], Int1);
      NegativeCheck(cmp);
      Assert(v.ty.Ptr?);
      Element(v, idx.op);
    }

    method Element(v: Value, idx: Operand)
      modifies this
      ensures State() == ElementAddress(old(State()), v, idx)
    {
      hide Load, Gep;
      if v.ty.Ptr? && v.ty.elem.Array? {
        varAddress := CreateGep(v, [Ir.Const(0), idx]);
      } else {
        ghost var s := State();
        var pointer := CreateLoad(v);
        GepOnly(Load(s, v), s.value, pointer, [idx]);
        varAddress := CreateGep(pointer, [idx]);
      }
    }

    method NegativeCheck(cmp: Value)
      modifies this
      ensures State() == CheckIndex(old(State()), cmp.op)
    {
      hide CondBr, Br, Emit, Find, NewBlock;
      BuilderShape.NextBlocks(State());
      var trueBasicBlock := CreateBlock();
      var followingBasicBlock := CreateBlock();
      CreateCondBr(cmp, trueBasicBlock, followingBasicBlock);
      SetInsertPoint(trueBasicBlock);
      var callee := scope.Find("neg_idx_except");
      Assert(callee.Some? && callee.value.ty.Func? && callee.value.ty.params == []);
      var x := AddInstruction(Ir.Effect(0), [if callee.Some? then callee.value.op else Ir.Const(0)]);
      CreateBr(followingBasicBlock);
      SetInsertPoint(followingBasicBlock);
    }

    // ---- Statements ----

    method VisitVarDeclaration(d: VarDecl)
      requires scope.inner != []
      modifies this, scope
      ensures State() == VisitDecl(old(State()), d)
    {
      hide Lowering.Push, Emit;
      var ty := if d.num.Some? then Array(ToType(d.ty), d.num.value) else ToType(d.ty);
      var varAlloca := CreateValue(Ir.Alloca(CellType(ty)), [], Ptr(ty));
      EmitScope(old(State()), Ir.Alloca(CellType(ty)), []);
      var isNew := scope.Push(d.id, varAlloca);
    }

    method VisitCompoundStmt(decls: seq<VarDecl>, body: seq<Stmt>)
      requires scope.inner != []
      modifies this, scope
      ensures State() == VisitStmt(old(State()), Compound(decls, body))
      decreases body, 0
    {
      hide VisitDecl, VisitStmt;
      scope.Enter();
      ghost var s1 := State();
      var i := 0;
      while i < |decls|
        invariant 0 <= i <= |decls| && scope.inner != []
        invariant VisitDecls(State(), decls[i..]) == VisitDecls(s1, decls)
      {
        assert decls[i..][0] == decls[i] && decls[i..][1..] == decls[i + 1..];
        DeclScope(State(), decls[i]);
        VisitVarDeclaration(decls[i]);
        i := i + 1;
      }
      ghost var s2 := State();
      assert decls[i..] == [];
      i := 0;
      while i < |body|
        invariant 0 <= i <= |body| && scope.inner != []
        invariant VisitStmts(State(), body[i..]) == VisitStmts(s2, body)
        decreases |body| - i
      {
        assert body[i..][0] == body[i] && body[i..][1..] == body[i + 1..];
        StmtScope(State(), body[i]);
        Visit(body[i]);
        i := i + 1;
      }
      assert body[i..] == [];
      CompoundIs(old(State()), decls, body, s1, s2, State());
      scope.Exit();
    }

    method Visit(node: Stmt)
      requires scope.inner != []
      modifies this, scope
      ensures State() == VisitStmt(old(State()), node)
      decreases node, 2
    {
      match node
      case ExprStmt(e) =>
        if e.Some? { VisitExpr(e.value); }
      case Compound(decls, body) =>
        VisitCompoundStmt(decls, body);
      case Selection(_, _, _) =>
        VisitSelectionStmt(node);
      case Iteration(_, _) =>
        VisitIterationStmt(node);
      case Return(e) =>
        VisitReturnStmt(e);
    }

    method VisitReturnStmt(e: Option<Expr>)
      modifies this
      ensures State() == VisitStmt(old(State()), Return(e))
    {
      hide Lowering.VisitExpr, TypeConvert, Emit;
      if e.None? {
        var x := AddInstruction(Ir.Ret, []);
      } else {
        ExprScope(old(State()), e.value);
        VisitExpr(e.value);
        expressionValue := Convert(expressionValue, returnValueType);
        var x := AddInstruction(Ir.Ret, [expressionValue.op]);
      }
    }

    method VisitSelectionStmt(node: Stmt)
      requires node.Selection? && scope.inner != []
      modifies this, scope
      ensures State() == VisitStmt(old(State()), node)
      decreases node, 1
    {
      hide Lowering.VisitExpr, CompareWith0, NewBlock, CondBr, Br, VisitStmt;
      VisitExpr(node.cond);
      var cmp := Compare0(expressionValue);
      SelectionIs(old(State()), node, State(), cmp);
      BuilderShape.NextBlocks(State());
      var trueBasicBlock := CreateBlock();
      var followingBasicBlock := CreateBlock();
      if node.elseS.None? {
        OneArm(node, cmp, trueBasicBlock, followingBasicBlock);
      } else {
        TwoArms(node, cmp, trueBasicBlock, followingBasicBlock);
      }
    }

    method OneArm(node: Stmt, cmp: Value, trueBasicBlock: Block, followingBasicBlock: Block)
      requires node.Selection? && node.elseS.None? && scope.inner != []
      modifies this, scope
      ensures var s := old(State());
              State() ==
                At(Br(VisitStmt(At(CondBr(s, cmp.op, trueBasicBlock, followingBasicBlock), trueBasicBlock),
                  node.thenS), followingBasicBlock), followingBasicBlock)
      decreases node, 0
    {
      hide CondBr, Br, VisitStmt;
      CreateCondBr(cmp, trueBasicBlock, followingBasicBlock);
      SetInsertPoint(trueBasicBlock);
      Visit(node.thenS);
      CreateBr(followingBasicBlock);
      SetInsertPoint(followingBasicBlock);
    }

    method TwoArms(node: Stmt, cmp: Value, trueBasicBlock: Block, followingBasicBlock: Block)
      requires node.Selection? && node.elseS.Some? && scope.inner != []
      modifies this, scope
      ensures var s := old(State());
              var s1 := At(CondBr(NewBlock(s), cmp.op, trueBasicBlock, s.nextBlock), trueBasicBlock);
              var s2 := At(Br(VisitStmt(s1, node.thenS), followingBasicBlock), s.nextBlock);
              State() == At(Br(VisitStmt(s2, node.elseS.value), followingBasicBlock), followingBasicBlock)
      decreases node, 0
    {
      hide CondBr, Br, VisitStmt, NewBlock;
      var falseBasicBlock := CreateBlock();
      CreateCondBr(cmp, trueBasicBlock, falseBasicBlock);
      SetInsertPoint(trueBasicBlock);
      StmtScope(State(), node.thenS);
      Visit(node.thenS);
      CreateBr(followingBasicBlock);
      SetInsertPoint(falseBasicBlock);
      Visit(node.elseS.value);
      CreateBr(followingBasicBlock);
      SetInsertPoint(followingBasicBlock);
    }

    method VisitIterationStmt(node: Stmt)
      requires node.Iteration? && scope.inner != []
      modifies this, scope
      ensures State() == VisitStmt(old(State()), node)
      decreases node, 0
    {
      hide Lowering.VisitExpr, CompareWith0, NewBlock, CondBr, Br, VisitStmt;
      var whileBB := CreateBlock();
      CreateBr(whileBB);
      SetInsertPoint(whileBB);
      VisitExpr(node.cond);
      var cmp := Compare0(expressionValue);
      IterationIs(old(State()), node, State(), cmp);
      var bodyBB := CreateBlock();
      SetInsertPoint(bodyBB);
      Visit(node.s);
      CreateBr(whileBB);
      var endBB := CreateBlock();
      SetInsertPoint(whileBB);
      CreateCondBr(cmp, bodyBB, endBB);
      SetInsertPoint(endBB);
    }

    // ---- Functions ----

    method VisitParam(p: Param) returns (paramAlloca: Value)
      requires scope.inner != []
      modifies this, scope
      ensures var s := old(State());
              && paramAlloca == Value(Ir.Res(s.nextId), Ptr(ParamCell(p)))
              && State() ==
                   Alloca(s, ParamCell(p)).(value := s.value, scope := Lowering.Push(s.scope, p.id, paramAlloca))
    {
      hide Lowering.Push, Emit;
      paramAlloca := CreateValue(Ir.Alloca(CellType(ParamCell(p))), [], Ptr(ParamCell(p)));
      EmitScope(old(State()), Ir.Alloca(CellType(ParamCell(p))), []);
      var isNew := scope.Push(p.id, paramAlloca);
    }

    // Builds the function d; `self` is the function itself as a value.
    method VisitFunDeclaration(d: FunDecl, self: Operand, ghost globals: Bindings)
      requires scope.inner == [globals]
      modifies this, scope
      ensures State() == VisitFunction(globals, d, self)
      ensures graph.WellFormed() && SuccsDistinct(graph)
      ensures forall kinds :: Typing.Matching(kinds, globals) ==> (aborted <==> !Typing.WellTyped(kinds, d))
    {
      hide VisitParams, VisitStmt, StartFunction, Emit, Graph.WellFormed, SuccsDistinct, Typing.WellTyped,
        Typing.Matching;
      StartDeclaration(d, self, globals);
      StartScopes(globals, d, self);
      VisitParameters(d.params);
      StmtScope(State(), Compound(d.decls, d.body));
      VisitCompoundStmt(d.decls, d.body);
      scope.Exit();
      var x := AddInstruction(Ir.Ret, if d.ty.TypeVoid? then [] else [Ir.Const(0)]);
      BuilderShape.FunctionShape(globals, d, self);
      forall kinds | Typing.Matching(kinds, globals) ensures aborted <==> !Typing.WellTyped(kinds, d) {
        Typing.Accepted(kinds, globals, d, self);
      }
    }

    method StartDeclaration(d: FunDecl, self: Operand, ghost globals: Bindings)
      requires scope.inner == [globals]
      modifies this, scope
      ensures State() == StartFunction(globals, d, self)
    {
      hide Lowering.Push;
      var vars := seq(|d.params|, (i: nat) requires i < |d.params| => ParamType(d.params[i]));
      returnValueType := ToType(d.ty);
      PushKeeps([globals], d.id, Value(self, Func(returnValueType, vars)));
      var isNew := scope.Push(d.id, Value(self, Func(returnValueType, vars)));
      scope.Enter();
      StartBody();
    }

    method VisitParameters(params: seq<Param>)
      requires |scope.inner| == 2
      modifies this, scope
      ensures State() == VisitParams(old(State()), params, 0) && |scope.inner| == 2
    {
      hide VisitParams, Lowering.Push, Emit;
      var i := 0;
      assert params[0..] == params;
      while i < |params|
        invariant 0 <= i <= |params| && |scope.inner| == 2
        invariant VisitParams(State(), params[i..], i) == VisitParams(old(State()), params, 0)
      {
        assert params[i..][0] == params[i] && params[i..][1..] == params[i + 1..];
        ParamsIs(State(), params[i..], i);
        PushKeeps(scope.inner, params[i].id, Value(Ir.Res(nextId), Ptr(ParamCell(params[i]))));
        var paramAlloca := VisitParam(params[i]);
        var x := AddInstruction(Ir.Store, [Ir.Arg(i), paramAlloca.op]);
        i := i + 1;
      }
      assert params[i..] == [];
      ParamsEnd(State(), i);
    }

    // A new function with its entry block, where the insertion point is.
    method StartBody()
      modifies this
      ensures var s := old(State());
              State() == Build(Graph([0], 0, map[0 := []], map[0 := []]), map[], map[0 := []], map[], 0, 1, 0,
                               s.scope, Value(Ir.Const(0), Void), Value(Ir.Const(0), Void), s.ret, true)
    {
      hide NewBlock;
      graph, code, lists, home := Graph([], 0, map[], map[]), map[], map[], map[];
      nextBlock, nextId, aborted := 0, 0, false;
      expressionValue, varAddress := Value(Ir.Const(0), Void), Value(Ir.Const(0), Void);
      FirstBlock(State());
      var enterBB := CreateBlock();
      SetInsertPoint(enterBB);
    }
  }

  // The order in which the two targets learn of their predecessor makes no difference.
  lemma TwoPreds(s: Build, t: Block, f: Block)
    ensures var p := s.g.pred[t := s.Pred(t) + [s.cur]];
            Edge(Edge(s, f), t).g.pred == p[f := (if f in p then p[f] else []) + [s.cur]]
  {
  }

  // After i arguments, what remains of the visit is the visit of the rest.
  ghost predicate ArgsFrom(s: Build, args: seq<Expr>, params: seq<Type>, i: nat, now: Build, values: seq<Operand>)
    requires i <= |args|
  {
    var (s1, ops) := VisitArgs(s, args, params);
    var (s2, rest) := VisitArgs(now, args[i..], if i <= |params| then params[i..] else []);
    s1 == s2 && ops == values + rest
  }

  lemma ArgsStart(s: Build, args: seq<Expr>, params: seq<Type>)
    ensures ArgsFrom(s, args, params, 0, s, [])
  {
    hide VisitArgs;
    assert args[0..] == args && params[0..] == params;
  }

  lemma {:induction false} ArgsNext(s: Build, args: seq<Expr>, params: seq<Type>, i: nat, now: Build,
      values: seq<Operand>, next: Build, more: seq<Operand>)
    requires i < |args| && ArgsFrom(s, args, params, i, now, values)
    requires next == TypeConvert(VisitExpr(now, args[i]), if i < |params| then params[i] else Void) &&
      more == values + [next.value.op]
    ensures ArgsFrom(s, args, params, i + 1, next, more)
  {
    hide VisitExpr, TypeConvert;
    assert args[i..][0] == args[i] && args[i..][1..] == args[i + 1..];
    if i < |params| { assert params[i..][0] == params[i] && params[i..][1..] == params[i + 1..]; }
  }

  lemma ArgsEnd(s: Build, args: seq<Expr>, params: seq<Type>, now: Build, values: seq<Operand>)
    requires ArgsFrom(s, args, params, |args|, now, values)
    ensures VisitArgs(s, args, params) == (now, values)
  {
    hide VisitExpr, TypeConvert;
    assert args[|args|..] == [];
    var rest := if |args| <= |params| then params[|args|..] else [];
    assert VisitArgs(now, args[|args|..], rest) == (now, []);
    assert values + [] == values;
  }

  lemma GepOnly(s: Build, value: Value, a: Value, idxs: seq<Operand>)
    ensures Gep(s.(value := value), a, idxs) == Gep(s, a, idxs)
  {
  }

  lemma {:induction false} CallIs(s: Build, id: string, args: seq<Expr>, callee: Option<Value>, fty: Type, s1: Build,
      s2: Build, ops: seq<Operand>)
    requires callee == Find(s.scope, id) && fty ==
      (if callee.Some? && callee.value.ty.Func? then callee.value.ty else Func(Void, []))
    requires s1 == Demand(s, callee.Some? && callee.value.ty.Func? && |fty.params| == |args|)
    requires VisitArgs(s1, args, fty.params) == (s2, ops)
    ensures Lowering.VisitExpr(s, Call(id, args)) ==
      EmitValue(s2, Ir.Effect(0), [if callee.Some? then callee.value.op else Ir.Const(0)] + ops, fty.ret)
  {
    hide VisitArgs, EmitValue, Find;
  }

  lemma CompoundIs(s: Build, decls: seq<VarDecl>, body: seq<Stmt>, s1: Build, s2: Build, s3: Build)
    requires s1 == Lowering.Enter(s) && s2 == VisitDecls(s1, decls) && s3 == VisitStmts(s2, body)
    ensures VisitStmt(s, Compound(decls, body)) == Lowering.Exit(s3) && s3.scope != []
  {
    hide VisitDecls, VisitStmts;
    DeclsScope(s1, decls);
    StmtsScope(s2, body);
  }

  lemma {:induction false} SelectionIs(s: Build, node: Stmt, s2: Build, cmp: Value)
    requires node.Selection?
    requires var s1 := Lowering.VisitExpr(s, node.cond);
             s2.value == s1.value && s2.(value := cmp) == CompareWith0(s1)
    ensures VisitStmt(s, node) == VisitBranches(s2, cmp.op, node)
  {
    hide Lowering.VisitExpr, CompareWith0, VisitBranches;
    assert s2.(value := cmp).(value := s2.value) == s2;
  }

  lemma IterationIs(s: Build, node: Stmt, s2: Build, cmp: Value)
    requires node.Iteration?
    requires var s1 := Lowering.VisitExpr(At(Br(NewBlock(s), s.nextBlock), s.nextBlock), node.cond);
             s2.value == s1.value && s2.(value := cmp) == CompareWith0(s1)
    ensures VisitStmt(s, node) == VisitBody(s2, cmp.op, s.nextBlock, node)
  {
    hide Lowering.VisitExpr, CompareWith0, VisitBody, Br, NewBlock;
    assert s2.(value := cmp).(value := s2.value) == s2;
  }

  lemma PushKeeps(scope: seq<Bindings>, id: string, v: Value)
    ensures |Lowering.Push(scope, id, v)| == |scope|
  {
  }

  lemma ParamsIs(s: Build, ps: seq<Param>, i: nat)
    requires ps != []
    ensures VisitParams(s, ps, i) ==
              var v := Value(Ir.Res(s.nextId), Ptr(ParamCell(ps[0])));
              VisitParams(Store(Alloca(s, ParamCell(ps[0])).(value := s.value,
                scope := Lowering.Push(s.scope, ps[0].id, v)), Ir.Arg(i), v.op), ps[1..], i + 1)
  {
    hide Lowering.Push, Emit, Store;
  }

  lemma ParamsEnd(s: Build, i: nat)
    ensures VisitParams(s, [], i) == s
  {
  }

  // Emitting does not look at the last value.
  lemma EmitOnly(s: Build, v: Value, op: Opcode, args: seq<Operand>)
    ensures Emit(s.(value := v), op, args) == Emit(s, op, args).(value := v) && Emit(s, op, args).value == s.value
  {
  }

  lemma StartScopes(globals: Bindings, d: FunDecl, self: Operand)
    ensures |StartFunction(globals, d, self).scope| == 2
  {
  }

  lemma FirstBlock(s: Build)
    requires s.g == Graph([], 0, map[], map[]) && s.lists == map[] && s.nextBlock == 0
    ensures NewBlock(s) == s.(g := Graph([0], 0, map[0 := []], map[0 := []]), lists := map[0 := []], nextBlock := 1)
  {
  }
}
