/** A function of one parameter with one variable of its own that a conditional on the parameter
    may set: the code the builder makes of it up to the first branch, and of its parts. */
module Choice {
  import opened Wrappers
  import opened Cfg
  import Ir
  import Ssa
  import Renaming
  import Frontier
  import PhiPlacement
  import Askers
  import opened Ast
  import opened Lowering
  import opened FunctionStrict
  import opened FunctionMeaning

  function SetX(n: int): Stmt {
    ExprStmt(Some(Assign("x", None, Num(TypeInt, n))))
  }

  function DeclX(): seq<VarDecl> {
    [VarDecl(TypeInt, "x", None)]
  }

  function Branch(e: Option<Stmt>): Stmt {
    Selection(Var("c", None), SetX(1), e)
  }

  // int id(int c) { int x; if (c) x = 1; else e return x; }
  function Choose(id: string, e: Option<Stmt>): FunDecl {
    FunDecl(TypeInt, id, [Param(TypeInt, "c", false)], DeclX(),
      [Branch(e), Return(Some(Var("x", None)))])
  }

  // ---- Names ----

  // Name x is bound to cell y.
  ghost predicate Bound(s: Build, y: Ir.Id) {
    Find(s.scope, "x") == Some(Value(Ir.Res(y), Ptr(Int32))) && s.ret == Int32 && s.ok
  }

  function Declared(id: string, e: Option<Stmt>, self: Operand): Build {
    VisitDecls(Enter(VisitParams(StartFunction(map[], Choose(id, e), self), Choose(id, e).params, 0)),
      Choose(id, e).decls)
  }

  lemma ParamDeclared(id: string, e: Option<Stmt>, self: Operand)
    ensures var s0 := StartFunction(map[], Choose(id, e), self);
            VisitParams(s0, Choose(id, e).params, 0) == OneParam(s0, Param(TypeInt, "c", false), 0)
  {
    hide StartFunction, OneParam;
    var s0 := StartFunction(map[], Choose(id, e), self);
    ParamsStep(s0, Choose(id, e).params, 0);
    NoParams(OneParam(s0, Choose(id, e).params[0], 0), 1);
    assert Choose(id, e).params[1..] == [];
  }

  lemma ParamCode(s: Build, p: Param)
    requires p == Param(TypeInt, "c", false) && s.cur == 0 && s.nextId == 0 && s.lists.Keys == {0} &&
      s.lists[0] == [] && s.code == map[]
    ensures var s1 := OneParam(s, p, 0);
            && s1.g == s.g && s1.lists.Keys == {0} && s1.lists[0] == [0, 1] && s1.cur == 0 &&
                 s1.nextBlock == s.nextBlock && s1.nextId == 2
            && s1.code == map[0 := Ir.Instr(Ir.Alloca(Ir.Number), []), 1 := Ir.Instr(Ir.Store, [Ir.Arg(0), Ir.Res(0)])]
            && s1.scope == Push(s.scope, "c", Value(Ir.Res(0), Ptr(Int32))) && s1.ret == s.ret && s1.ok == s.ok
  {
    hide Push;
    var l: seq<Ir.Id> := [];
    assert l + [0] == [0] && [0] + [1] == [0, 1];
  }

  lemma DeclCode(s: Build)
    requires s.cur in s.lists
    ensures var s1 := VisitDecls(s, DeclX());
            && s1.g == s.g && s1.lists == s.lists[s.cur := s.lists[s.cur] + [s.nextId]] && s1.cur == s.cur
            && s1.nextBlock == s.nextBlock && s1.nextId == s.nextId + 1
            && s1.code == s.code[s.nextId := Ir.Instr(Ir.Alloca(Ir.Number), [])]
            && s1.scope == Push(s.scope, "x", Value(Ir.Res(s.nextId), Ptr(Int32))) && s1.ret == s.ret && s1.ok == s.ok
  {
    hide Push;
    assert VisitDecls(s, DeclX()) == VisitDecl(s, VarDecl(TypeInt, "x", None));
  }

  lemma NamesBound(known: Bindings, scope: seq<Bindings>)
    requires scope ==
      Push(Push([known, map[]], "c", Value(Ir.Res(0), Ptr(Int32))) + [map[]], "x", Value(Ir.Res(2), Ptr(Int32)))
    ensures Find(scope, "c") == Some(Value(Ir.Res(0), Ptr(Int32))) &&
      Find(scope, "x") == Some(Value(Ir.Res(2), Ptr(Int32)))
  {
    assert scope == [known, map["c" := Value(Ir.Res(0), Ptr(Int32))], map["x" := Value(Ir.Res(2), Ptr(Int32))]];
    assert scope[..2] == [known, map["c" := Value(Ir.Res(0), Ptr(Int32))]];
    FindTop(scope, "c");
    FindTop(scope[..2], "c");
  }

  lemma StartIs(d: FunDecl, self: Operand)
    requires d.ty.TypeInt?
    ensures var s := StartFunction(map[], d, self);
            && s.g == Graph([0], 0, map[0 := []], map[0 := []]) && s.lists.Keys == {0} && s.lists[0] == [] &&
                 s.code == map[]
            && s.cur == 0 && s.nextBlock == 1 && s.nextId == 0 && s.ret == Int32 && s.ok
            && s.scope == [StartNames(map[], d, self), map[]]
  {
    hide Push;
    var s := StartFunction(map[], d, self);
    var v := Value(self, Func(Int32, ParamTypes(d)));
    assert s.scope == Push([map[]], d.id, v) + [map[]];
    PushOne(map[], d.id, v);
  }

  lemma PushOne(b: Bindings, id: string, v: Value)
    ensures Push([b], id, v) == [Push([b], id, v)[0]] && (id !in b ==> Push([b], id, v)[0] == b[id := v])
  {
  }

  lemma DeclaredIs(id: string, e: Option<Stmt>, self: Operand)
    ensures var s := Declared(id, e, self);
            && s.g == Graph([0], 0, map[0 := []], map[0 := []]) && s.lists.Keys == {0} && s.lists[0] == [0, 1, 2]
            && s.cur == 0 && s.nextBlock == 1 && s.nextId == 3 && Bound(s, 2)
            && Find(s.scope, "c") == Some(Value(Ir.Res(0), Ptr(Int32)))
            && s.code ==
                 map[0 := Ir.Instr(Ir.Alloca(Ir.Number), []),
                   1 := Ir.Instr(Ir.Store, [Ir.Arg(0), Ir.Res(0)])][2 := Ir.Instr(Ir.Alloca(Ir.Number), [])]
  {
    hide StartFunction, OneParam, VisitParams, VisitDecls, Push, Find, StartNames;
    var s0 := StartFunction(map[], Choose(id, e), self);
    StartIs(Choose(id, e), self);
    ParamDeclared(id, e, self);
    ParamCode(s0, Param(TypeInt, "c", false));
    var s1 := OneParam(s0, Param(TypeInt, "c", false), 0);
    DeclCode(Enter(s1));
    assert [0, 1] + [2] == [0, 1, 2];
    NamesBound(StartNames(map[], Choose(id, e), self), Declared(id, e, self).scope);
  }

  // ---- Code ----

  // A plain variable that is an integer: a load.
  lemma VarCode(s: Build, id: string, n: Ir.Id)
    requires Find(s.scope, id) == Some(Value(Ir.Res(n), Ptr(Int32)))
    ensures VisitVar(s, id, None) ==
      Emit(s, Ir.Load, [Ir.Res(n)]).(value := Value(Ir.Res(s.nextId), Int32), addr := Value(Ir.Res(n), Ptr(Int32)))
  {
    hide Find;
  }

  ghost predicate SameNames(s: Build, s1: Build) {
    s1.scope == s.scope && s1.ret == s.ret && s1.ok == s.ok && s1.nextBlock == s.nextBlock
  }

  lemma EmitCode(s: Build, op: Opcode, args: seq<Operand>)
    requires s.cur in s.lists
    ensures var s1 := Emit(s, op, args);
            && s1.g == s.g && s1.cur == s.cur && s1.nextId == s.nextId + 1 && SameNames(s, s1) && s1.value == s.value
            && s1.code == s.code[s.nextId := Ir.Instr(op, args)] &&
                 s1.lists == s.lists[s.cur := s.lists[s.cur] + [s.nextId]]
  {
  }

  // The code of an assignment of a constant to x: a load, and a store.
  lemma SetXCode(s: Build, n: int, y: Ir.Id)
    requires Bound(s, y) && s.cur in s.lists
    ensures var s1 := VisitStmt(s, SetX(n));
            && s1.g == s.g && s1.lists == s.lists[s.cur := s.lists[s.cur] + [s.nextId, s.nextId + 1]] && s1.cur == s.cur
            && s1.nextBlock == s.nextBlock && s1.nextId == s.nextId + 2 && s1.scope == s.scope && Bound(s1, y)
            && s1.code ==
                 s.code[s.nextId := Ir.Instr(Ir.Load, [Ir.Res(y)])][s.nextId + 1 := Ir.Instr(Ir.Store,
                   [Ir.Const(n), Ir.Res(y)])]
  {
    hide VisitVar, Emit, Find;
    VarCode(s, "x", y);
    var s1 := VisitVar(s, "x", None);
    EmitCode(s, Ir.Load, [Ir.Res(y)]);
    var s3 := s1.(value := Value(Ir.Const(n), Int32));
    AssignIs(s, n, y, s1);
    EmitCode(s3, Ir.Store, [Ir.Const(n), Ir.Res(y)]);
    assert s.lists[s.cur] + [s.nextId] + [s.nextId + 1] == s.lists[s.cur] + [s.nextId, s.nextId + 1];
  }

  lemma BoundSame(s: Build, s1: Build)
    requires s1.scope == s.scope && s1.ret == s.ret && s1.ok == s.ok
    ensures forall y :: Bound(s, y) <==> Bound(s1, y)
  {
    hide Find;
  }

  lemma AssignIs(s: Build, n: int, y: Ir.Id, s1: Build)
    requires s1 == VisitVar(s, "x", None) && s1.addr == Value(Ir.Res(y), Ptr(Int32)) && s1.ok
    ensures VisitStmt(s, SetX(n)) == Emit(s1.(value := Value(Ir.Const(n), Int32)), Ir.Store, [Ir.Const(n), Ir.Res(y)])
  {
    hide VisitVar, Emit;
    var num := Num(TypeInt, n);
    var s2 := s1.(value := Value(Ir.Const(n), Int32));
    assert VisitExpr(s1, num) == s2;
    assert TypeConvert(Demand(s2, true), Int32) == s2;
    assert VisitStmt(s, SetX(n)) == VisitExpr(s, Assign("x", None, num));
  }

  // A block more, without instructions and predecessors.
  lemma NewCode(s: Build)
    ensures var s1, b := NewBlock(s), s.nextBlock;
            && s1.lists == s.lists[b := []] && s1.code == s.code && s1.cur == s.cur && s1.nextId == s.nextId
            && s1.nextBlock == b + 1 && s1.scope == s.scope && s1.ret == s.ret && s1.ok == s.ok
            && s1.g.blocks == s.g.blocks + [b] && s1.g.entry == s.g.entry
            && forall x :: s1.Pred(x) == if x == b then [] else s.Pred(x)
  {
  }

  lemma EdgeCode(s: Build, b: Block)
    ensures var s1 := Edge(s, b);
            && s1.lists == s.lists && s1.code == s.code && s1.cur == s.cur && s1.nextId == s.nextId && SameNames(s, s1)
            && s1.g.blocks == s.g.blocks && s1.g.entry == s.g.entry
            && forall x :: s1.Pred(x) == if x == b then s.Pred(x) + [s.cur] else s.Pred(x)
  {
  }

  lemma ForkCode(s: Build, c: Operand, t: Block, e: Block)
    requires s.cur in s.lists && t != e
    ensures var s1 := At(CondBr(s, c, t, e), t);
            && s1.lists == s.lists[s.cur := s.lists[s.cur] + [s.nextId]] && s1.cur == t && s1.nextId == s.nextId + 1
            && s1.code == s.code[s.nextId := Ir.Instr(Ir.CondBr, [c, Ir.Label(t), Ir.Label(e)])] && SameNames(s, s1)
            && s1.g.blocks == s.g.blocks && s1.g.entry == s.g.entry
            && forall x :: s1.Pred(x) == if x == t || x == e then s.Pred(x) + [s.cur] else s.Pred(x)
  {
    hide Edge, Emit;
    EdgeCode(s, e);
    EdgeCode(Edge(s, e), t);
    EmitCode(Edge(Edge(s, e), t), Ir.CondBr, [c, Ir.Label(t), Ir.Label(e)]);
  }

  // The code of an arm: a load, a store and a branch.
  function ArmInstrs(code: map<Ir.Id, Ir.Instr>, m: Ir.Id, n: int): map<Ir.Id, Ir.Instr> {
    code[m := Ir.Instr(Ir.Load, [Ir.Res(2)])][m + 1 := Ir.Instr(Ir.Store, [Ir.Const(n), Ir.Res(2)])][m + 2 :=
      Ir.Instr(Ir.Br, [Ir.Label(2)])]
  }

  function Arm(s: Build, n: int): Build {
    Br(VisitStmt(s, SetX(n)), 2)
  }

  lemma ArmCode(s: Build, n: int)
    requires Bound(s, 2) && s.cur in s.lists
    ensures var s1, m := Arm(s, n), s.nextId;
            && s1.lists == s.lists[s.cur := s.lists[s.cur] + [m, m + 1, m + 2]] && s1.nextId == m + 3 && Bound(s1, 2)
            && s1.code == ArmInstrs(s.code, m, n)
            && s1.g.blocks == s.g.blocks && s1.g.entry == s.g.entry
            && forall x :: s1.Pred(x) == if x == 2 then s.Pred(x) + [s.cur] else s.Pred(x)
  {
    hide VisitStmt, Edge, Emit, Find;
    SetXCode(s, n, 2);
    var s1 := VisitStmt(s, SetX(n));
    EdgeCode(s1, 2);
    EmitCode(Edge(s1, 2), Ir.Br, [Ir.Label(2)]);
    var l := s.lists[s.cur];
    assert l + [s.nextId, s.nextId + 1] + [s.nextId + 2] == l + [s.nextId, s.nextId + 1, s.nextId + 2];
    forall x ensures Arm(s, n).Pred(x) == if x == 2 then s.Pred(x) + [s.cur] else s.Pred(x) {
      assert Arm(s, n).Pred(x) == Edge(s1, 2).Pred(x) && s1.Pred(x) == s.Pred(x);
    }
    BoundSame(s1, Arm(s, n));
  }

  // Behind the branches: return x, and the return that closes the function.
  lemma {:induction false} ReturnCode(s: Build, y: Ir.Id)
    requires Bound(s, y) && s.cur in s.lists
    ensures var s1, n := VisitStmt(s, Return(Some(Var("x", None)))), s.nextId;
            && s1.g == s.g && s1.lists == s.lists[s.cur := s.lists[s.cur] + [n, n + 1]] && s1.cur == s.cur &&
                 s1.nextId == n + 2 && s1.ok
            && s1.code == s.code[n := Ir.Instr(Ir.Load, [Ir.Res(y)])][n + 1 := Ir.Instr(Ir.Ret, [Ir.Res(n)])]
  {
    hide Find, VisitVar, Emit;
    VarCode(s, "x", y);
    EmitCode(s, Ir.Load, [Ir.Res(y)]);
    var s1 := VisitVar(s, "x", None);
    assert VisitExpr(s, Var("x", None)) == s1;
    assert TypeConvert(s1, Int32) == Demand(s1, true);
    EmitCode(Demand(s1, true), Ir.Ret, [Ir.Res(s.nextId)]);
    assert s.lists[s.cur] + [s.nextId] + [s.nextId + 1] == s.lists[s.cur] + [s.nextId, s.nextId + 1];
  }

  lemma AtCode(s: Build, b: Block)
    ensures var s1 := At(s, b);
            && s1.g == s.g && s1.lists == s.lists && s1.code == s.code && s1.cur == b && s1.nextId == s.nextId
            && forall y :: Bound(s, y) <==> Bound(s1, y)
  {
    hide Find;
  }

  // Behind the conditional: the two returns.
  function Finish(s: Build): Build {
    Emit(Exit(Exit(VisitStmt(s, Return(Some(Var("x", None)))))), Ir.Ret, [Ir.Const(0)])
  }

  function EndInstrs(code: map<Ir.Id, Ir.Instr>, n: Ir.Id, y: Ir.Id): map<Ir.Id, Ir.Instr> {
    code[n := Ir.Instr(Ir.Load, [Ir.Res(y)])][n + 1 := Ir.Instr(Ir.Ret, [Ir.Res(n)])][n + 2 :=
      Ir.Instr(Ir.Ret, [Ir.Const(0)])]
  }

  lemma FinishCode(s: Build, y: Ir.Id)
    requires Bound(s, y) && s.cur in s.lists
    ensures var s1, n := Finish(s), s.nextId;
            && s1.g == s.g && s1.lists == s.lists[s.cur := s.lists[s.cur] + [n, n + 1, n + 2]] && s1.ok
            && s1.code == EndInstrs(s.code, n, y)
  {
    hide VisitStmt, Emit, Find;
    var n := s.nextId;
    ReturnCode(s, y);
    var s1 := VisitStmt(s, Return(Some(Var("x", None))));
    EmitCode(Exit(Exit(s1)), Ir.Ret, [Ir.Const(0)]);
    assert s.lists[s.cur] + [n, n + 1] + [n + 2] == s.lists[s.cur] + [n, n + 1, n + 2];
  }

  // ---- Up to the branch ----

  function Asked(id: string, e: Option<Stmt>, self: Operand): Build {
    var s := VisitExpr(Declared(id, e, self), Var("c", None));
    CompareWith0(s).(value := s.value)
  }

  function AskedCode(): map<Ir.Id, Ir.Instr> {
    var code: map<Ir.Id, Ir.Instr> :=
      map[0 := Ir.Instr(Ir.Alloca(Ir.Number), []), 1 := Ir.Instr(Ir.Store, [Ir.Arg(0), Ir.Res(0)])];
    code[2 := Ir.Instr(Ir.Alloca(Ir.Number), [])][3 := Ir.Instr(Ir.Load, [Ir.Res(0)])][4 :=
      Ir.Instr(Ir.Pure(RelCode(Neq)), [Ir.Res(3), Ir.Const(0)])]
  }

  // The code up to the branch to blocks 1 and b.
  function ForkedCode(b: Block): map<Ir.Id, Ir.Instr> {
    AskedCode()[5 := Ir.Instr(Ir.CondBr, [Ir.Res(4), Ir.Label(1), Ir.Label(b)])]
  }

  // What has been made of the function when its branch is due.
  ghost predicate IsAsked(s: Build) {
    && s.g == Graph([0], 0, map[0 := []], map[0 := []]) && s.lists.Keys == {0} && s.lists[0] == [0, 1, 2, 3, 4]
    && s.cur == 0 && s.nextBlock == 1 && s.nextId == 5 && Bound(s, 2)
    && s.code == AskedCode()
  }

  lemma AskedIs(id: string, e: Option<Stmt>, self: Operand)
    ensures IsAsked(Asked(id, e, self))
    ensures CompareWith0(VisitExpr(Declared(id, e, self), Var("c", None))).value.op == Ir.Res(4)
  {
    hide Declared, VisitVar, Find;
    DeclaredIs(id, e, self);
    var s := Declared(id, e, self);
    VarCode(s, "c", 0);
    assert VisitExpr(s, Var("c", None)) == VisitVar(s, "c", None);
    assert [0, 1, 2] + [3] == [0, 1, 2, 3] && [0, 1, 2, 3] + [4] == [0, 1, 2, 3, 4];
  }

  // The finished function, from the state behind its conditional.
  lemma ChoiceIs(id: string, e: Option<Stmt>, self: Operand)
    ensures VisitFunction(map[], Choose(id, e), self) ==
      Finish(VisitBranches(Asked(id, e, self), Ir.Res(4), Branch(e)))
  {
    hide StartFunction, VisitParams, VisitDecls, VisitExpr, VisitBranches, VisitStmts, Emit, Exit, CompareWith0;
    var s := Declared(id, e, self);
    var d := Choose(id, e);
    CompoundParts(VisitParams(StartFunction(map[], d, self), d.params, 0), d.decls, d.body);
    TwoStmts(s, Branch(e), Return(Some(Var("x", None))));
    AskedIs(id, e, self);
    assert VisitStmt(s, Branch(e)) == VisitBranches(Asked(id, e, self), Ir.Res(4), Branch(e));
  }

  // ---- Instructions ----

  // Instruction x, if the second branch stores too or not, as far as it matters.
  predicate InstrIs(both: bool, x: Ir.Id, instr: Ir.Instr) {
    match x
    case 0 => instr == Ir.Instr(Ir.Alloca(Ir.Number), [])
    case 1 => instr == Ir.Instr(Ir.Store, [Ir.Arg(0), Ir.Res(0)])
    case 2 => instr == Ir.Instr(Ir.Alloca(Ir.Number), [])
    case 3 => instr == Ir.Instr(Ir.Load, [Ir.Res(0)])
    case 6 => instr == Ir.Instr(Ir.Load, [Ir.Res(2)])
    case 7 => instr == Ir.Instr(Ir.Store, [Ir.Const(1), Ir.Res(2)])
    case 9 => instr == Ir.Instr(Ir.Load, [Ir.Res(2)])
    case 10 => if both then instr == Ir.Instr(Ir.Store, [Ir.Const(2), Ir.Res(2)]) else instr.op.Ret?
    case _ => !instr.op.Load? && !instr.op.Store?
  }

  ghost predicate CodeIs(both: bool, code: map<Ir.Id, Ir.Instr>) {
    forall x: Ir.Id {:trigger x in code} :: x < 12 ==> x in code && InstrIs(both, x, code[x])
  }

  // The variable each instruction loads and stores.
  lemma Accesses(both: bool, code: map<Ir.Id, Ir.Instr>, x: Ir.Id)
    requires CodeIs(both, code) && x < 12
    ensures Ir.LoadCell(code, x) == if x == 3 then Some(0) else if x == 6 || x == 9 then Some(2) else None
    ensures Ir.StoreCell(code, x) ==
      if x == 1 then Some(0) else if x == 7 || (both && x == 10) then Some(2) else None
  {
    assert x in code && 0 in code && 2 in code;
  }

  // ---- Above and below the branch ----

  // Only the entry dominates a block it branches to, other than the block itself.
  lemma AboveBranch(g: Graph, b: Block, d: Block)
    requires g.Edge(g.entry, b)
    ensures g.StrictlyDominates(d, b) ==> d == g.entry
  {
    var p := [g.entry, b];
    assert g.Step(p, 0);
    assert g.PathTo(p, b);
    assert forall x :: x in p ==> x == g.entry || x == b;
  }

  // A block with fewer than two predecessors gets no phi.
  lemma NoPhi(f: Ir.Func, b: Block, v: Ir.Id)
    requires f.g.WellFormed() && b in f.g.pred && |f.g.pred[b]| < 2
    ensures !PhiPlacement.InIdf(f.g, PhiPlacement.StoreBlocks(f, v), b)
  {
    hide Frontier.InFrontier, PhiPlacement.StoreBlocks, Graph.Reachable;
    assert b in f.g.blocks;
    forall c | |c| > 1 && PhiPlacement.FrontierChain(f.g, PhiPlacement.StoreBlocks(f, v), c) ensures c[|c| - 1] != b {
      assert Frontier.InFrontier(f.g, c[|c| - 2], c[|c| - 2 + 1]);
      Frontier.OnePredecessorNoFrontier(f.g, c[|c| - 2], b);
    }
  }

  // The entry does not set x: it stores to the cell of c only.
  lemma EntryUnset(both: bool, f: Ir.Func)
    requires f.g.WellFormed() && f.g.entry == 0 && CodeIs(both, f.code)
    requires 0 in f.lists && f.lists[0] == [0, 1, 2, 3, 4, 5]
    ensures !Askers.Sets(f, 0, 2)
  {
    hide PhiPlacement.InIdf, CodeIs, Ir.StoreCell, Graph.Reachable;
    NoPhi(f, 0, 2);
    forall i | 0 <= i < |f.lists[0]| ensures Ir.StoreCell(f.code, f.lists[0][i]) != Some(2) {
      assert f.lists[0][i] == i;
      Accesses(both, f.code, i);
    }
  }

  // A branch with no other way in loads x before it sets it, and nothing above it sets it.
  lemma ArmAsks(both: bool, f: Ir.Func, b: Block)
    requires f.g.WellFormed() && f.g.entry == 0 && CodeIs(both, f.code)
    requires 0 in f.lists && f.lists[0] == [0, 1, 2, 3, 4, 5] && b in f.g.pred && f.g.pred[b] == [0] && b in f.lists
    requires f.lists[b] == [6, 7, 8] || (both && f.lists[b] == [9, 10, 11])
    ensures Askers.LoadsUnset(f, b, 0, 2) && Askers.Sets(f, b, 2)
  {
    hide PhiPlacement.InIdf, CodeIs, Ir.LoadCell, Ir.StoreCell, Graph.WellFormed, Askers.SetAbove,
      PhiPlacement.StoreBlocks;
    NoPhi(f, b, 2);
    NoneAbove(both, f, b);
    Accesses(both, f.code, f.lists[b][0]);
    Accesses(both, f.code, f.lists[b][1]);
    Askers.StoreBlocksHas(f, b, 2);
  }

  lemma NoneAbove(both: bool, f: Ir.Func, b: Block)
    requires f.g.WellFormed() && f.g.entry == 0 && CodeIs(both, f.code)
    requires 0 in f.lists && f.lists[0] == [0, 1, 2, 3, 4, 5] && b in f.g.pred && 0 in f.g.pred[b]
    ensures !Askers.SetAbove(f, b, 2)
  {
    hide CodeIs, Askers.Sets, Graph.Reachable;
    EntryUnset(both, f);
    assert f.g.Edge(0, b);
    forall d ensures f.g.StrictlyDominates(d, b) ==> d == 0 { AboveBranch(f.g, b, d); }
  }

  // ---- The pass ----

  lemma NamesTyped(d: FunDecl, self: Operand)
    requires self.Global? && d.ty.TypeInt?
    ensures GlobalsTyped(StartNames(map[], d, self))
  {
    hide Push, ParamTypes;
    PushOne(map[], d.id, Value(self, Func(Int32, ParamTypes(d))));
  }

  lemma Clashing(s: Ssa.Placed, order: seq<Block>)
    requires s.Valid() && Renaming.SomeClash(s, order, 0)
    ensures !Renaming.NoClash(s, order, 0)
  {
    hide Ssa.Placed.Valid, Renaming.Clash;
  }
}
