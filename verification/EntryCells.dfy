/** Functions whose variables are all set in the entry block: what the builder makes of them is
    promoted in every order of the walk. */
module EntryCells {
  import opened Wrappers
  import opened Cfg
  import Ir
  import PhiPlacement
  import Askers
  import PassOutcome
  import opened Ast
  import opened Lowering
  import opened BuilderShape
  import opened Runs
  import opened BuilderMeaning
  import opened StatementMeaning
  import opened FunctionMeaning
  import opened StatementStrict

  // ---- Visits that make no cells ----

  predicate IsCell(code: map<Ir.Id, Ir.Instr>, x: Ir.Id) {
    x in code && code[x].op.Alloca? && !code[x].op.ty.Aggregate?
  }

  ghost predicate NoNewCell(s: Build, s1: Build) {
    forall x :: IsCell(s1.code, x) ==> IsCell(s.code, x)
  }

  lemma EmitNoCell(s: Build, op: Opcode, args: seq<Operand>)
    requires !op.Alloca?
    ensures NoNewCell(s, Emit(s, op, args))
  {
  }

  lemma ConvertNoCell(s: Build, ty: Type)
    ensures NoNewCell(s, TypeConvert(s, ty))
  {
  }

  lemma BinaryNoCell(s: Build, code: Ir.PureOp, l: Value, r: Value, ity: Type, fty: Type)
    ensures NoNewCell(s, Binary(s, code, l, r, ity, fty))
  {
    hide TypeConvert;
    if !(l.ty == Int32 && r.ty == Int32) {
      var s1 := TypeConvert(s.(value := l), Float);
      ConvertNoCell(s.(value := l), Float);
      ConvertNoCell(s1.(value := r), Float);
    }
  }

  lemma BranchNoCell(s: Build, b: Block, c: Operand, f: Block)
    ensures NoNewCell(s, Br(s, b)) && NoNewCell(s, CondBr(s, c, b, f)) && NoNewCell(s, NewBlock(s)) &&
      NoNewCell(s, At(s, b))
  {
  }

  lemma IndexNoCell(s: Build, v: Value)
    ensures NoNewCell(s, IndexAddress(s, v))
  {
    hide TypeConvert, Emit, CheckIndex, ElementAddress;
    var s1 := TypeConvert(s, Int32);
    ConvertNoCell(s, Int32);
    var s2 := Emit(s1, Ir.Pure(RelCode(Lt)), [s1.value.op, Ir.Const(0)]);
    EmitNoCell(s1, Ir.Pure(RelCode(Lt)), [s1.value.op, Ir.Const(0)]);
    CheckNoCell(s2, Ir.Res(s1.nextId));
    ElementNoCell(Demand(CheckIndex(s2, Ir.Res(s1.nextId)), v.ty.Ptr?), v, s1.value.op);
  }

  lemma CheckNoCell(s: Build, c: Operand)
    ensures NoNewCell(s, CheckIndex(s, c))
  {
    hide Find;
  }

  lemma ElementNoCell(s: Build, v: Value, idx: Operand)
    ensures NoNewCell(s, ElementAddress(s, v, idx))
  {
  }

  lemma {:induction false} ExprNoCell(s: Build, e: Expr)
    ensures NoNewCell(s, VisitExpr(s, e))
    decreases e
  {
    hide TypeConvert, Binary, VisitVar, VisitArgs, Find, Emit;
    match e
    case Num(ty, n) =>
    case Var(id, index) => VarNoCell(s, id, index);
    case Assign(id, index, e1) =>
      VarNoCell(s, id, index);
      var s1 := VisitVar(s, id, index);
      ExprNoCell(s1, e1);
      var s2 := Demand(VisitExpr(s1, e1), s1.addr.ty.Ptr?);
      var ty := if s1.addr.ty.Ptr? then s1.addr.ty.elem else Void;
      ConvertNoCell(s2, ty);
      EmitNoCell(TypeConvert(s2, ty), Ir.Store, [TypeConvert(s2, ty).value.op, s1.addr.op]);
    case Rel(l, op, r) =>
      ExprNoCell(s, l);
      ExprNoCell(VisitExpr(s, l), r);
      var s2 := VisitExpr(VisitExpr(s, l), r);
      BinaryNoCell(s2, RelCode(op), VisitExpr(s, l).value, s2.value, Int1, Int1);
    case Arith(l, op, r) =>
      ExprNoCell(s, l);
      ExprNoCell(VisitExpr(s, l), r);
      var s2 := VisitExpr(VisitExpr(s, l), r);
      BinaryNoCell(s2, ArithCode(op), VisitExpr(s, l).value, s2.value, Int32, Float);
    case Call(id, args) =>
      var f := Find(s.scope, id);
      var fty := if f.Some? && f.value.ty.Func? then f.value.ty else Func(Void, []);
      var s1 := Demand(s, f.Some? && f.value.ty.Func? && |fty.params| == |args|);
      ArgsNoCell(s1, args, fty.params);
      var (s2, ops) := VisitArgs(s1, args, fty.params);
      EmitNoCell(s2, Ir.Effect(0), [if f.Some? then f.value.op else Ir.Const(0)] + ops);
  }

  lemma {:induction false} ArgsNoCell(s: Build, args: seq<Expr>, params: seq<Type>)
    ensures NoNewCell(s, VisitArgs(s, args, params).0)
    decreases args
  {
    hide TypeConvert, VisitExpr;
    if args != [] {
      ExprNoCell(s, args[0]);
      var ty := if params == [] then Void else params[0];
      ConvertNoCell(VisitExpr(s, args[0]), ty);
      ArgsNoCell(TypeConvert(VisitExpr(s, args[0]), ty), args[1..], if params == [] then [] else params[1..]);
    }
  }

  lemma {:induction false} VarNoCell(s: Build, id: string, index: Option<Expr>)
    ensures NoNewCell(s, VisitVar(s, id, index))
    decreases index
  {
    hide VisitExpr, IndexAddress, Find;
    var found := Find(s.scope, id);
    var s1 := Demand(s, found.Some?);
    if index.Some? {
      ExprNoCell(s1, index.value);
      IndexNoCell(VisitExpr(s1, index.value), if found.Some? then found.value else Value(Ir.Const(0), Void));
    }
  }

  // Only arrays are declared.
  predicate ArraysOnly(ds: seq<VarDecl>) {
    forall i :: 0 <= i < |ds| ==> ds[i].num.Some?
  }

  predicate NoVariables(node: Stmt)
    decreases node
  {
    match node
    case ExprStmt(_) => true
    case Compound(decls, body) => ArraysOnly(decls) && forall i :: 0 <= i < |body| ==> NoVariables(body[i])
    case Selection(_, thenS, elseS) => NoVariables(thenS) && (elseS.Some? ==> NoVariables(elseS.value))
    case Iteration(_, body) => NoVariables(body)
    case Return(_) => true
  }

  lemma {:induction false} DeclsNoCell(s: Build, ds: seq<VarDecl>)
    requires ArraysOnly(ds)
    ensures NoNewCell(s, VisitDecls(s, ds))
    decreases ds
  {
    hide Push;
    if ds != [] {
      DeclsNoCell(VisitDecl(s, ds[0]), ds[1..]);
    }
  }

  lemma {:induction false} StmtsNoCell(s: Build, nodes: seq<Stmt>)
    requires forall i :: 0 <= i < |nodes| ==> NoVariables(nodes[i])
    ensures NoNewCell(s, VisitStmts(s, nodes))
    decreases nodes, 0
  {
    hide VisitStmt;
    if nodes != [] {
      StmtNoCell(s, nodes[0]);
      StmtsNoCell(VisitStmt(s, nodes[0]), nodes[1..]);
    }
  }

  lemma {:induction false} StmtNoCell(s: Build, node: Stmt)
    requires NoVariables(node)
    ensures NoNewCell(s, VisitStmt(s, node))
    decreases node, 1
  {
    hide VisitExpr, VisitStmts, VisitDecls, TypeConvert, Emit, NewBlock, Br, CondBr, VisitBranches, VisitBody,
      CompareWith0;
    match node
    case ExprStmt(e) => if e.Some? { ExprNoCell(s, e.value); }
    case Compound(decls, body) =>
      DeclsNoCell(Enter(s), decls);
      StmtsNoCell(VisitDecls(Enter(s), decls), body);
    case Selection(cond, thenS, elseS) =>
      ExprNoCell(s, cond);
      var s1 := VisitExpr(s, cond);
      CompareNoCell(s1);
      BranchesNoCell(CompareWith0(s1).(value := s1.value), CompareWith0(s1).value.op, node);
    case Iteration(cond, body) =>
      var w := s.nextBlock;
      BranchNoCell(s, w, Ir.Const(0), w);
      BranchNoCell(NewBlock(s), w, Ir.Const(0), w);
      var s0 := At(Br(NewBlock(s), w), w);
      ExprNoCell(s0, cond);
      var s1 := VisitExpr(s0, cond);
      CompareNoCell(s1);
      BodyNoCell(CompareWith0(s1).(value := s1.value), CompareWith0(s1).value.op, w, node);
    case Return(e) =>
      if e.None? {
        EmitNoCell(s, Ir.Ret, []);
      } else {
        ExprNoCell(s, e.value);
        var s1 := VisitExpr(s, e.value);
        ConvertNoCell(s1, s.ret);
        EmitNoCell(TypeConvert(s1, s.ret), Ir.Ret, [TypeConvert(s1, s.ret).value.op]);
      }
  }

  lemma CompareNoCell(s: Build)
    ensures NoNewCell(s, CompareWith0(s))
  {
  }

  lemma {:induction false} BranchesNoCell(s: Build, c: Operand, node: Stmt)
    requires node.Selection? && NoVariables(node)
    ensures NoNewCell(s, VisitBranches(s, c, node))
    decreases node, 0
  {
    hide NewBlock, Br, CondBr, VisitStmt;
    var t, next := s.nextBlock, s.nextBlock + 1;
    BranchNoCell(s, t, c, next);
    var s1 := NewBlock(NewBlock(s));
    BranchNoCell(NewBlock(s), t, c, next);
    BranchNoCell(s1, t, c, next);
    if node.elseS.None? {
      var s2 := At(CondBr(s1, c, t, next), t);
      StmtNoCell(s2, node.thenS);
      BranchNoCell(VisitStmt(s2, node.thenS), next, c, next);
    } else {
      var f := s1.nextBlock;
      BranchNoCell(NewBlock(s1), t, c, f);
      var s2 := At(CondBr(NewBlock(s1), c, t, f), t);
      StmtNoCell(s2, node.thenS);
      BranchNoCell(VisitStmt(s2, node.thenS), next, c, next);
      var s3 := At(Br(VisitStmt(s2, node.thenS), next), f);
      StmtNoCell(s3, node.elseS.value);
      BranchNoCell(VisitStmt(s3, node.elseS.value), next, c, next);
    }
  }

  lemma {:induction false} BodyNoCell(s: Build, c: Operand, w: Block, node: Stmt)
    requires node.Iteration? && NoVariables(node)
    ensures NoNewCell(s, VisitBody(s, c, w, node))
    decreases node, 0
  {
    hide NewBlock, Br, CondBr, VisitStmt;
    var b := s.nextBlock;
    BranchNoCell(s, b, c, b);
    var s1 := VisitStmt(At(NewBlock(s), b), node.s);
    StmtNoCell(At(NewBlock(s), b), node.s);
    BranchNoCell(s1, w, c, w);
    var s2 := Br(s1, w);
    BranchNoCell(s2, w, c, w);
    BranchNoCell(At(NewBlock(s2), w), b, c, s2.nextBlock);
  }

  // ---- Cells that are stored to in the entry block ----

  predicate StoresTo(code: map<Ir.Id, Ir.Instr>, y: Ir.Id, x: Ir.Id) {
    y in code && code[y].op.Store? && |code[y].args| == 2 && code[y].args[1] == Ir.Res(x)
  }

  ghost predicate StoredTo(code: map<Ir.Id, Ir.Instr>, l: seq<Ir.Id>, x: Ir.Id) {
    exists j :: 0 <= j < |l| && StoresTo(code, l[j], x)
  }

  predicate BoundTo(scope: seq<Bindings>, id: string, x: Ir.Id) {
    Find(scope, id).Some? && Find(scope, id).value.op == Ir.Res(x)
  }

  // A cell that has not been stored to in the entry block belongs to a name that is still open.
  ghost predicate CellSet(s: Build, open: set<string>, x: Ir.Id) {
    StoredTo(s.code, s.List(0), x) || exists id :: id in open && BoundTo(s.scope, id, x)
  }

  ghost predicate AllSet(s: Build, open: set<string>) {
    forall x {:trigger IsCell(s.code, x)} :: IsCell(s.code, x) ==> CellSet(s, open, x)
  }

  ghost predicate InEntry(s: Build) {
    Sound(s) && s.cur == 0 && 0 in s.g.blocks
  }

  lemma StoredLater(code: map<Ir.Id, Ir.Instr>, code1: map<Ir.Id, Ir.Instr>, l: seq<Ir.Id>, l1: seq<Ir.Id>, x: Ir.Id)
    requires StoredTo(code, l, x) && CodeIn(code, code1) && l <= l1
    ensures StoredTo(code1, l1, x)
  {
    var j :| 0 <= j < |l| && StoresTo(code, l[j], x);
    assert l1[j] == l[j];
  }

  lemma SetLater(s: Build, s1: Build, open: set<string>)
    requires AllSet(s, open) && Grown(s, s1) && NoNewCell(s, s1) && 0 in s.g.blocks &&
      (open == {} || s1.scope == s.scope)
    ensures AllSet(s1, open) && 0 in s1.g.blocks
  {
    hide Grown, Find, StoredTo, IsCell;
    GrownFacts(s, s1);
    GrownKept(s, s1);
    forall x | IsCell(s1.code, x) ensures CellSet(s1, open, x) {
      assert IsCell(s.code, x);
      if StoredTo(s.code, s.List(0), x) { StoredLater(s.code, s1.code, s.List(0), s1.List(0), x); }
    }
  }

  // ---- Parameters ----

  lemma ParamSet(s: Build, p: Param, i: nat)
    requires InEntry(s) && AllSet(s, {})
    ensures InEntry(OneParam(s, p, i)) && AllSet(OneParam(s, p, i), {})
  {
    hide Sound, Push, Find, StoredTo;
    var s1, n := OneParam(s, p, i), s.nextId;
    OneParamGrown(s, p, i);
    GrownFacts(s, s1);
    assert s1.List(0) == s.List(0) + [n, n + 1];
    assert s1.List(0)[|s.List(0)| + 1] == n + 1;
    assert StoredTo(s1.code, s1.List(0), n) by { assert StoresTo(s1.code, s1.List(0)[|s.List(0)| + 1], n);
      StoredAt(s1.code, s1.List(0), |s.List(0)| + 1, n); }
    forall x | IsCell(s1.code, x) ensures CellSet(s1, {}, x) {
      if x != n {
        assert IsCell(s.code, x);
        StoredLater(s.code, s1.code, s.List(0), s1.List(0), x);
      }
    }
  }

  lemma StoredAt(code: map<Ir.Id, Ir.Instr>, l: seq<Ir.Id>, j: nat, x: Ir.Id)
    requires j < |l| && StoresTo(code, l[j], x)
    ensures StoredTo(code, l, x)
  {
  }

  lemma {:induction false} ParamsSet(s: Build, ps: seq<Param>, i: nat)
    requires InEntry(s) && AllSet(s, {})
    ensures InEntry(VisitParams(s, ps, i)) && AllSet(VisitParams(s, ps, i), {})
    decreases ps
  {
    hide InEntry, AllSet, OneParam, VisitParams;
    if ps == [] {
      NoParams(s, i);
    } else {
      ParamsStep(s, ps, i);
      ParamSet(s, ps[0], i);
      ParamsSet(OneParam(s, ps[0], i), ps[1..], i + 1);
    }
  }

  // ---- Declarations ----

  // The names of the variables that are no arrays.
  function Variables(ds: seq<VarDecl>): set<string> {
    if ds == [] then {} else (if ds[0].num.None? then {ds[0].id} else {}) + Variables(ds[1..])
  }

  predicate NamesDiffer(ds: seq<VarDecl>) {
    forall i, j :: 0 <= i < j < |ds| ==> ds[i].id != ds[j].id
  }

  // The innermost scope has none of the names.
  predicate NamesNew(scope: seq<Bindings>, ds: seq<VarDecl>) {
    scope != [] && forall i :: 0 <= i < |ds| ==> ds[i].id !in scope[|scope| - 1]
  }

  lemma PushFinds(scope: seq<Bindings>, id: string, v: Value, other: string)
    requires scope != [] && id !in scope[|scope| - 1]
    ensures Find(Push(scope, id, v), other) == if other == id then Some(v) else Find(scope, other)
  {
    var scope1 := Push(scope, id, v);
    assert scope1[..|scope1| - 1] == scope[..|scope| - 1];
  }

  lemma DeclSet(s: Build, d: VarDecl, open: set<string>, open1: set<string>)
    requires InEntry(s) && AllSet(s, open) && s.scope != [] && d.id !in s.scope[|s.scope| - 1]
    requires d.id !in open && open1 == if d.num.None? then open + {d.id} else open
    ensures InEntry(VisitDecl(s, d)) && AllSet(VisitDecl(s, d), open1)
  {
    hide Sound, Find, Push, StoredTo;
    var s1, n := VisitDecl(s, d), s.nextId;
    DeclGrown(s, d);
    GrownFacts(s, s1);
    var ty := if d.num.Some? then Array(ToType(d.ty), d.num.value) else ToType(d.ty);
    PushFinds(s.scope, d.id, Value(Ir.Res(n), Ptr(ty)), d.id);
    forall x | IsCell(s1.code, x) ensures CellSet(s1, open1, x) {
      if x == n {
        assert d.id in open1 && BoundTo(s1.scope, d.id, x);
      } else {
        assert IsCell(s.code, x);
        if StoredTo(s.code, s.List(0), x) {
          StoredLater(s.code, s1.code, s.List(0), s1.List(0), x);
        } else {
          var id :| id in open && BoundTo(s.scope, id, x);
          PushFinds(s.scope, d.id, Value(Ir.Res(n), Ptr(ty)), id);
          assert id in open1 && BoundTo(s1.scope, id, x);
        }
      }
    }
  }

  lemma NamesNewer(s: Build, ds: seq<VarDecl>)
    requires ds != [] && NamesNew(s.scope, ds) && NamesDiffer(ds)
    ensures NamesNew(VisitDecl(s, ds[0]).scope, ds[1..]) && NamesDiffer(ds[1..])
  {
  }

  lemma {:induction false} DeclsSet(s: Build, ds: seq<VarDecl>, open: set<string>)
    requires InEntry(s) && AllSet(s, open) && NamesNew(s.scope, ds) && NamesDiffer(ds) &&
      forall i :: 0 <= i < |ds| ==> ds[i].id !in open
    ensures InEntry(VisitDecls(s, ds)) && AllSet(VisitDecls(s, ds), open + Variables(ds))
    decreases ds
  {
    hide InEntry, AllSet, VisitDecl;
    if ds == [] {
      assert open + Variables(ds) == open;
    } else {
      var open1 := if ds[0].num.None? then open + {ds[0].id} else open;
      DeclSet(s, ds[0], open, open1);
      NamesNewer(s, ds);
      DeclsSet(VisitDecl(s, ds[0]), ds[1..], open1);
      assert open + Variables(ds) == open1 + Variables(ds[1..]);
    }
  }

  // ---- Assignments ----

  predicate SetsVariable(node: Stmt) {
    node.ExprStmt? && node.e.Some? && node.e.value.Assign? && node.e.value.index.None? && !HasIndex(node.e.value)
  }

  // The statements start with assignments to the open variables, and declare no others.
  predicate SetFirst(body: seq<Stmt>, open: set<string>)
    decreases body
  {
    if open == {} then forall i :: 0 <= i < |body| ==> NoVariables(body[i])
    else body != [] && SetsVariable(body[0]) && SetFirst(body[1..], open - {body[0].e.value.id})
  }

  lemma {:induction false} AssignGives(s: Build, e: Expr)
    requires e.Assign? && e.index.None? && !HasIndex(e) && Sound(s) && s.cur == 0
    ensures var s1 := VisitExpr(s, e);
            && s1.List(0) != [] && s1.cur == 0
            && (Find(s.scope, e.id).Some? && Find(s.scope, e.id).value.op.Res? ==>
                  StoresTo(s1.code, s1.List(0)[|s1.List(0)| - 1], Find(s.scope, e.id).value.op.id))
  {
    hide TypeConvert, Find;
    ExprFlat(s, e);
    AssignStore(s, e);
  }

  // The last instruction is a store to what the name is bound to.
  lemma AssignStore(s: Build, e: Expr)
    requires e.Assign? && e.index.None?
    ensures var s1, found := VisitExpr(s, e), Find(s.scope, e.id);
            && s1.cur in s1.lists && s1.lists[s1.cur] != []
            && var y := s1.lists[s1.cur][|s1.lists[s1.cur]| - 1];
            && y in s1.code && s1.code[y].op.Store? && |s1.code[y].args| == 2
            && (found.Some? ==> s1.code[y].args[1] == found.value.op)
  {
    hide TypeConvert, Find;
    VarAddress(s, e.id);
    var s1 := VisitVar(s, e.id, None);
    var s2 := VisitExpr(s1, e.e);
    var s3 := TypeConvert(Demand(s2, s1.addr.ty.Ptr?), if s1.addr.ty.Ptr? then s1.addr.ty.elem else Void);
    assert VisitExpr(s, e) == Lowering.Store(s3, s3.value.op, s1.addr.op);
  }

  lemma VarAddress(s: Build, id: string)
    ensures Find(s.scope, id).Some? ==> VisitVar(s, id, None).addr == Find(s.scope, id).value
  {
  }

  lemma AssignSet(s: Build, node: Stmt, open: set<string>)
    requires InEntry(s) && AllSet(s, open) && SetsVariable(node)
    ensures InEntry(VisitStmt(s, node)) && AllSet(VisitStmt(s, node), open - {node.e.value.id}) &&
      VisitStmt(s, node).scope == s.scope
  {
    hide Sound, Grown, Find, StoredTo, VisitExpr, IsCell, NoNewCell;
    var e := node.e.value;
    var s1 := VisitExpr(s, e);
    ExprGrown(s, e);
    ExprScope(s, e);
    ExprNoCell(s, e);
    AssignGives(s, e);
    GrownSound(s, s1);
    SetLater(s, s1, open);
    forall x | IsCell(s1.code, x) ensures CellSet(s1, open - {e.id}, x) {
      if !StoredTo(s1.code, s1.List(0), x) {
        var id :| id in open && BoundTo(s1.scope, id, x);
        if id == e.id { StoredAt(s1.code, s1.List(0), |s1.List(0)| - 1, x); }
      }
    }
  }

  lemma {:induction false} BodySet(s: Build, body: seq<Stmt>, open: set<string>)
    requires InEntry(s) && AllSet(s, open) && SetFirst(body, open)
    ensures AllSet(VisitStmts(s, body), {}) && 0 in VisitStmts(s, body).g.blocks
    decreases body
  {
    hide AllSet, VisitStmt, NoVariables, Sound, Grown, NoNewCell;
    if open == {} {
      StmtsNoCell(s, body);
      StmtsGrown(s, body);
      SetLater(s, VisitStmts(s, body), {});
    } else {
      AssignSet(s, body[0], open);
      BodySet(VisitStmt(s, body[0]), body[1..], open - {body[0].e.value.id});
    }
  }

  // ---- Functions ----

  // The variables of the function, other than parameters, are declared at its start under
  // different names, and the body starts with assignments to all of them.
  predicate Initialised(d: FunDecl) {
    NamesDiffer(d.decls) && SetFirst(d.body, Variables(d.decls))
  }

  lemma StartSet(globals: Bindings, d: FunDecl, self: Operand)
    ensures InEntry(StartFunction(globals, d, self)) && AllSet(StartFunction(globals, d, self), {})
  {
    hide Sound, Push;
    StartSound(globals, d, self);
  }

  lemma EnterSet(s: Build, ds: seq<VarDecl>)
    requires InEntry(s) && AllSet(s, {})
    ensures InEntry(Enter(s)) && AllSet(Enter(s), {}) && NamesNew(Enter(s).scope, ds)
  {
    hide Sound, StoredTo, Find;
    SameSound(s, Enter(s));
    forall x | IsCell(Enter(s).code, x) ensures CellSet(Enter(s), {}, x) {
      assert IsCell(s.code, x) && CellSet(s, {}, x);
    }
  }

  lemma LastSet(s: Build, args: seq<Operand>)
    requires AllSet(s, {}) && Sound(s) && 0 in s.g.blocks
    ensures AllSet(Emit(s, Ir.Ret, args), {})
  {
    hide AllSet, NoNewCell, Sound, Grown;
    EmitNoCell(s, Ir.Ret, args);
    GrownEmit(s, Ir.Ret, args);
    SetLater(s, Emit(s, Ir.Ret, args), {});
  }

  lemma ExitSet(s: Build)
    requires AllSet(s, {})
    ensures AllSet(Exit(s), {}) && Exit(s).g == s.g
  {
    hide StoredTo, Find;
    forall x | IsCell(Exit(s).code, x) ensures CellSet(Exit(s), {}, x) {
      assert IsCell(s.code, x) && CellSet(s, {}, x);
    }
  }

  lemma AllSetEntry(s: Build)
    requires AllSet(s, {}) && s.g.entry == 0
    ensures PassOutcome.EntrySet(s.Func())
  {
    hide StoredTo, Find;
    var f := s.Func();
    forall b, i | b in f.lists && 0 <= i < |f.lists[b]| && Ir.StoreCell(f.code, f.lists[b][i]).Some?
      ensures 0 in PhiPlacement.StoreBlocks(f, Ir.StoreCell(f.code, f.lists[b][i]).value)
    {
      var x := Ir.StoreCell(f.code, f.lists[b][i]).value;
      assert IsCell(s.code, x) && CellSet(s, {}, x);
      StoredBlock(s, x);
    }
  }

  lemma StoredBlock(s: Build, x: Ir.Id)
    requires IsCell(s.code, x) && StoredTo(s.code, s.List(0), x)
    ensures 0 in PhiPlacement.StoreBlocks(s.Func(), x)
  {
    var j :| 0 <= j < |s.List(0)| && StoresTo(s.code, s.List(0)[j], x);
    assert Ir.StoreCell(s.code, s.lists[0][j]) == Some(x);
  }

  // What the builder makes of such a function is promoted in every order of the walk.
  lemma InitialisedEntrySet(globals: Bindings, d: FunDecl, self: Operand)
    requires Initialised(d)
    ensures PassOutcome.EntrySet(VisitFunction(globals, d, self).Func())
  {
    hide AllSet, Sound, Grown, VisitParams, VisitStmts, VisitDecls, StartFunction, PassOutcome.EntrySet, SetFirst,
      NamesDiffer, NamesNew;
    var s0 := StartFunction(globals, d, self);
    var s1 := VisitParams(s0, d.params, 0);
    var s2 := VisitStmts(VisitDecls(Enter(s1), d.decls), d.body);
    var s3 := Exit(Exit(s2));
    var args := if d.ty.TypeVoid? then [] else [Ir.Const(0)];
    StartSet(globals, d, self);
    ParamsSet(s0, d.params, 0);
    EnterSet(s1, d.decls);
    DeclsSet(Enter(s1), d.decls, {});
    assert {} + Variables(d.decls) == Variables(d.decls);
    BodySet(VisitDecls(Enter(s1), d.decls), d.body, Variables(d.decls));
    ExitSet(s2); ExitSet(Exit(s2));
    FunctionEnds(globals, d, self, s0, s1, s2, args);
    LastSet(s3, args);
    AllSetEntry(Emit(s3, Ir.Ret, args));
  }

  lemma InitialisedOrderly(globals: Bindings, d: FunDecl, self: Operand)
    requires Initialised(d)
    ensures Askers.Orderly(VisitFunction(globals, d, self).Func())
  {
    hide *;
    InitialisedEntrySet(globals, d, self);
    PassOutcome.EntrySetOrderly(VisitFunction(globals, d, self).Func());
  }

  lemma {:induction false} FunctionEnds(globals: Bindings, d: FunDecl, self: Operand, s0: Build, s1: Build, s2: Build,
      args: seq<Operand>)
    requires s0 == StartFunction(globals, d, self) && s1 == VisitParams(s0, d.params, 0) &&
      s2 == VisitStmts(VisitDecls(Enter(s1), d.decls), d.body)
    requires args == if d.ty.TypeVoid? then [] else [Ir.Const(0)]
    ensures VisitFunction(globals, d, self) == Emit(Exit(Exit(s2)), Ir.Ret, args) && Sound(Exit(Exit(s2)))
    ensures Emit(Exit(Exit(s2)), Ir.Ret, args).g.entry == 0
  {
    hide Sound, Grown, VisitParams, VisitStmts, VisitDecls, StartFunction;
    FunctionGrown(globals, d, self, s0, s1, Exit(s2), Exit(Exit(s2)));
    EntryStays(globals, d, self, s0, s1, Exit(s2), Exit(Exit(s2)), args);
  }
}
