/** What is left behind in functions whose variables are all set in the entry block: an
    assignment loads its variable first, and to the first of these loads no value comes. */
module EntryLoads {
  import opened Wrappers
  import opened Cfg
  import Ir
  import Frontier
  import PhiPlacement
  import Askers
  import PassOutcome
  import opened Ast
  import opened Lowering
  import opened BuilderShape
  import opened Runs
  import opened BuilderMeaning
  import opened StatementMeaning
  import opened FunctionMeaning
  import opened StatementStrict
  import opened EntryCells

  predicate LoadsFrom(code: map<Ir.Id, Ir.Instr>, y: Ir.Id, x: Ir.Id) {
    y in code && code[y] == Ir.Instr(Ir.Load, [Ir.Res(x)])
  }

  ghost predicate LoadAt(s: Build, i: int, x: Ir.Id) {
    && 0 <= i < |s.List(0)| && LoadsFrom(s.code, s.List(0)[i], x)
    && forall j :: 0 <= j < i ==> !StoresTo(s.code, s.List(0)[j], x)
  }

  // The entry block loads from the cell before it stores to it.
  ghost predicate LoadedFirst(s: Build, x: Ir.Id) {
    exists i :: LoadAt(s, i, x)
  }

  ghost predicate Numbered(s: Build) {
    (forall y :: y in s.code ==> y < s.nextId) && forall j :: 0 <= j < |s.List(0)| ==> s.List(0)[j] in s.code
  }

  // The cell has not been stored to, or has been loaded from before.
  ghost predicate NotSetFirst(s: Build, x: Ir.Id) {
    Numbered(s) && (StoredTo(s.code, s.List(0), x) ==> LoadedFirst(s, x))
  }

  // ---- Single instructions ----

  lemma EmitList(s: Build, op: Opcode, args: seq<Operand>)
    requires Numbered(s)
    ensures var s1 := Emit(s, op, args);
            && Numbered(s1) && CodeIn(s.code, s1.code) && s1.code[s.nextId] == Ir.Instr(op, args)
            && (s1.List(0) == s.List(0) || s1.List(0) == s.List(0) + [s.nextId]) &&
                 (s.cur == 0 ==> s1.List(0) == s.List(0) + [s.nextId])
  {
    var s1 := Emit(s, op, args);
    assert s1.List(0) == if s.cur == 0 then s.List(0) + [s.nextId] else s.List(0);
    forall j | 0 <= j < |s1.List(0)| ensures s1.List(0)[j] in s1.code {
      if j < |s.List(0)| { assert s1.List(0)[j] == s.List(0)[j]; }
    }
  }

  lemma LoadedLater(s: Build, s1: Build, x: Ir.Id)
    requires LoadedFirst(s, x) && Numbered(s) && CodeIn(s.code, s1.code) && s.List(0) <= s1.List(0)
    ensures LoadedFirst(s1, x)
  {
    var i :| LoadAt(s, i, x);
    forall j | 0 <= j <= i ensures s1.List(0)[j] == s.List(0)[j] && s.List(0)[j] in s.code { }
    assert LoadAt(s1, i, x);
  }

  lemma StoredEarlier(s: Build, s1: Build, y: Ir.Id, x: Ir.Id)
    requires Numbered(s) && CodeIn(s.code, s1.code) && (s1.List(0) == s.List(0) || s1.List(0) == s.List(0) + [y])
    requires StoredTo(s1.code, s1.List(0), x) && !StoresTo(s1.code, y, x)
    ensures StoredTo(s.code, s.List(0), x)
  {
    var j :| 0 <= j < |s1.List(0)| && StoresTo(s1.code, s1.List(0)[j], x);
    assert j < |s.List(0)| && s.List(0)[j] == s1.List(0)[j] && s.List(0)[j] in s.code;
    assert StoresTo(s.code, s.List(0)[j], x);
  }

  lemma EmitKeeps(s: Build, op: Opcode, args: seq<Operand>, x: Ir.Id)
    requires NotSetFirst(s, x)
    requires op.Store? && |args| == 2 && args[1] == Ir.Res(x) ==> LoadedFirst(s, x)
    ensures NotSetFirst(Emit(s, op, args), x) && (LoadedFirst(s, x) ==> LoadedFirst(Emit(s, op, args), x))
  {
    hide Emit, LoadedFirst, StoredTo, Numbered;
    var s1 := Emit(s, op, args);
    EmitList(s, op, args);
    if LoadedFirst(s, x) {
      LoadedLater(s, s1, x);
    } else if StoredTo(s1.code, s1.List(0), x) {
      StoredEarlier(s, s1, s.nextId, x);
    }
  }

  // A load in the entry block.
  lemma EmitLoad(s: Build, x: Ir.Id)
    requires NotSetFirst(s, x) && s.cur == 0
    ensures LoadedFirst(Emit(s, Ir.Load, [Ir.Res(x)]), x)
  {
    hide Emit, StoredTo;
    var s1 := Emit(s, Ir.Load, [Ir.Res(x)]);
    EmitList(s, Ir.Load, [Ir.Res(x)]);
    if StoredTo(s.code, s.List(0), x) {
      LoadedLater(s, s1, x);
    } else {
      forall j | 0 <= j < |s.List(0)| ensures !StoresTo(s1.code, s1.List(0)[j], x) {
        assert s1.List(0)[j] == s.List(0)[j];
        if StoresTo(s.code, s.List(0)[j], x) { StoredAt(s.code, s.List(0), j, x); }
      }
      assert LoadAt(s1, |s.List(0)|, x);
    }
  }

  lemma SameKeeps(s: Build, s1: Build, x: Ir.Id)
    requires NotSetFirst(s, x) && s1.code == s.code && s1.lists == s.lists && s1.nextId == s.nextId
    ensures NotSetFirst(s1, x) && (LoadedFirst(s, x) ==> LoadedFirst(s1, x))
  {
    if LoadedFirst(s, x) { LoadedLater(s, s1, x); }
  }

  ghost predicate Keeps(s: Build, s1: Build, x: Ir.Id) {
    NotSetFirst(s, x) ==> NotSetFirst(s1, x) && (LoadedFirst(s, x) ==> LoadedFirst(s1, x))
  }

  lemma PureKeeps(s: Build, code: Ir.PureOp, args: seq<Operand>, ty: Type, x: Ir.Id)
    ensures Keeps(s, EmitValue(s, Ir.Pure(code), args, ty), x)
  {
    hide Emit, NotSetFirst, LoadedFirst;
    if NotSetFirst(s, x) {
      EmitKeeps(s, Ir.Pure(code), args, x);
      SameKeeps(Emit(s, Ir.Pure(code), args), EmitValue(s, Ir.Pure(code), args, ty), x);
    }
  }

  lemma KeepsSame(s: Build, s1: Build, x: Ir.Id)
    requires s1.code == s.code && s1.lists == s.lists && s1.nextId == s.nextId
    ensures Keeps(s, s1, x)
  {
    hide NotSetFirst, LoadedFirst;
    if NotSetFirst(s, x) { SameKeeps(s, s1, x); }
  }

  lemma ConvertKeeps(s: Build, target: Type, x: Ir.Id)
    ensures Keeps(s, TypeConvert(s, target), x)
  {
    hide NotSetFirst, LoadedFirst, EmitValue;
    var ty := s.value.ty;
    if ty == Int32 && target == Float {
      PureKeeps(s, Ir.SiToFp, [s.value.op], Float, x);
      KeepsSame(EmitValue(s, Ir.Pure(Ir.SiToFp), [s.value.op], Float), TypeConvert(s, target), x);
    } else if ty == Float && target == Int32 {
      PureKeeps(s, Ir.FpToSi, [s.value.op], Int32, x);
      KeepsSame(EmitValue(s, Ir.Pure(Ir.FpToSi), [s.value.op], Int32), TypeConvert(s, target), x);
    } else if ty == Int1 && target == Int32 {
      PureKeeps(s, Ir.Zext, [s.value.op], Int32, x);
      KeepsSame(EmitValue(s, Ir.Pure(Ir.Zext), [s.value.op], Int32), TypeConvert(s, target), x);
    } else if ty == Int1 && target == Float {
      var z := EmitValue(s, Ir.Pure(Ir.Zext), [s.value.op], Int32);
      PureKeeps(s, Ir.Zext, [s.value.op], Int32, x);
      PureKeeps(z, Ir.SiToFp, [z.value.op], Float, x);
      KeepsSame(EmitValue(z, Ir.Pure(Ir.SiToFp), [z.value.op], Float), TypeConvert(s, target), x);
    } else {
      KeepsSame(s, TypeConvert(s, target), x);
    }
  }

  lemma {:induction false} BinaryKeeps(s: Build, code: Ir.PureOp, l: Value, r: Value, ity: Type, fty: Type, x: Ir.Id)
    ensures Keeps(s, Binary(s, code, l, r, ity, fty), x)
  {
    hide NotSetFirst, LoadedFirst, EmitValue, TypeConvert;
    if l.ty == Int32 && r.ty == Int32 {
      PureKeeps(s, code, [l.op, r.op], ity, x);
    } else {
      var s1 := TypeConvert(s.(value := l), Float);
      var s2 := TypeConvert(s1.(value := r), Float);
      KeepsSame(s, s.(value := l), x);
      ConvertKeeps(s.(value := l), Float, x);
      KeepsSame(s1, s1.(value := r), x);
      ConvertKeeps(s1.(value := r), Float, x);
      PureKeeps(s2, Floating(code), [s1.value.op, s2.value.op], fty, x);
    }
  }

  // ---- Expressions without an index ----

  // A plain variable is loaded where it stands.
  lemma VarKeeps(s: Build, id: string, x: Ir.Id)
    requires s.cur == 0
    ensures Keeps(s, VisitVar(s, id, None), x)
    ensures NotSetFirst(s, x) && VisitVar(s, id, None).addr.op == Ir.Res(x) ==> LoadedFirst(VisitVar(s, id, None), x)
  {
    hide NotSetFirst, LoadedFirst, Find, Emit, Gep, VisitVar, LoadVar;
    if NotSetFirst(s, x) {
      var found := Find(s.scope, id);
      var v := if found.Some? then found.value else Value(Ir.Const(0), Void);
      var s1 := Demand(Demand(s, found.Some?).(addr := v), v.ty.Ptr?);
      SameKeeps(s, s1, x);
      EmitKeeps(s1, Ir.Load, [v.op], x);
      var s2 := Emit(s1, Ir.Load, [v.op]);
      if v.op == Ir.Res(x) { EmitLoad(s1, x); }
      var s3 := EmitValue(s1, Ir.Load, [v.op], if v.ty.Ptr? then v.ty.elem else Void);
      SameKeeps(s2, s3, x);
      GepKeeps(s3, v, [Ir.Const(0), Ir.Const(0)], x);
      VarIsLoad(s, id, v);
      LoadVarIs(Demand(s, found.Some?).(addr := v), v);
      EmitAddress(s1, Ir.Load, [v.op]);
      GepAddress(s3, v, [Ir.Const(0), Ir.Const(0)]);
    }
  }

  lemma LoadVarIs(s: Build, v: Value)
    requires s.addr == v
    ensures var s1 := EmitValue(Demand(s, v.ty.Ptr?), Ir.Load, [v.op], if v.ty.Ptr? then v.ty.elem else Void);
            LoadVar(s, v) == if s1.value.ty.Array? then Gep(s1, v, [Ir.Const(0), Ir.Const(0)]) else s1
  {
    hide EmitValue, Gep;
  }

  lemma EmitAddress(s: Build, op: Opcode, args: seq<Operand>)
    ensures Emit(s, op, args).addr == s.addr
  {
  }

  lemma GepAddress(s: Build, a: Value, idxs: seq<Operand>)
    ensures Gep(s, a, idxs).addr == s.addr
  {
  }

  lemma GepKeeps(s: Build, a: Value, idxs: seq<Operand>, x: Ir.Id)
    ensures Keeps(s, Gep(s, a, idxs), x)
  {
    hide NotSetFirst, LoadedFirst, Emit;
    if NotSetFirst(s, x) {
      var s1 := Demand(s, a.ty.Ptr? && (a.ty.elem.Array? || a.ty.elem.Int32? || a.ty.elem.Float?));
      SameKeeps(s, s1, x);
      EmitKeeps(s1, Ir.Gep, [a.op] + idxs, x);
      SameKeeps(Emit(s1, Ir.Gep, [a.op] + idxs), Gep(s, a, idxs), x);
    }
  }

  lemma {:induction false} ExprKeeps(s: Build, e: Expr, x: Ir.Id)
    requires s.cur == 0 && !HasIndex(e)
    ensures Keeps(s, VisitExpr(s, e), x)
    decreases e
  {
    hide NotSetFirst, LoadedFirst, TypeConvert, Binary, VisitVar, VisitArgs, Find;
    match e
    case Num(ty, n) => KeepsSame(s, VisitExpr(s, e), x);
    case Var(id, index) => VarKeeps(s, id, x);
    case Assign(id, index, e1) => AssignKeeps(s, e, x);
    case Rel(l, op, r) =>
      ExprKeeps(s, l, x);
      var s1 := VisitExpr(s, l);
      ExprFlat(s, l);
      ExprKeeps(s1, r, x);
      var s2 := VisitExpr(s1, r);
      BinaryKeeps(s2, RelCode(op), s1.value, s2.value, Int1, Int1, x);
    case Arith(l, op, r) =>
      ExprKeeps(s, l, x);
      var s1 := VisitExpr(s, l);
      ExprFlat(s, l);
      ExprKeeps(s1, r, x);
      var s2 := VisitExpr(s1, r);
      BinaryKeeps(s2, ArithCode(op), s1.value, s2.value, Int32, Float, x);
    case Call(id, args) =>
      var f := Find(s.scope, id);
      var fty := if f.Some? && f.value.ty.Func? then f.value.ty else Func(Void, []);
      var s1 := Demand(s, f.Some? && f.value.ty.Func? && |fty.params| == |args|);
      KeepsSame(s, s1, x);
      ArgsKeep(s1, args, fty.params, x);
      var (s2, ops) := VisitArgs(s1, args, fty.params);
      CallKeeps(s2, [if f.Some? then f.value.op else Ir.Const(0)] + ops, fty.ret, x);
  }

  lemma CallKeeps(s: Build, args: seq<Operand>, ty: Type, x: Ir.Id)
    ensures Keeps(s, EmitValue(s, Ir.Effect(0), args, ty), x)
  {
    hide NotSetFirst, LoadedFirst, Emit;
    if NotSetFirst(s, x) {
      EmitKeeps(s, Ir.Effect(0), args, x);
      SameKeeps(Emit(s, Ir.Effect(0), args), EmitValue(s, Ir.Effect(0), args, ty), x);
    }
  }

  lemma {:induction false} AssignKeeps(s: Build, e: Expr, x: Ir.Id)
    requires s.cur == 0 && e.Assign? && !HasIndex(e)
    ensures Keeps(s, VisitExpr(s, e), x)
    decreases e, 0
  {
    hide NotSetFirst, LoadedFirst, TypeConvert, VisitVar, Emit;
    if NotSetFirst(s, x) {
      var s1 := VisitVar(s, e.id, None);
      VarKeeps(s, e.id, x);
      ExprFlat(s, Var(e.id, None));
      ExprKeeps(s1, e.e, x);
      var s2 := VisitExpr(s1, e.e);
      var s3 := Demand(s2, s1.addr.ty.Ptr?);
      SameKeeps(s2, s3, x);
      var ty := if s1.addr.ty.Ptr? then s1.addr.ty.elem else Void;
      ConvertKeeps(s3, ty, x);
      var s4 := TypeConvert(s3, ty);
      EmitKeeps(s4, Ir.Store, [s4.value.op, s1.addr.op], x);
    }
  }

  lemma {:induction false} ArgsKeep(s: Build, args: seq<Expr>, params: seq<Type>, x: Ir.Id)
    requires s.cur == 0 && forall i :: 0 <= i < |args| ==> !HasIndex(args[i])
    ensures Keeps(s, VisitArgs(s, args, params).0, x)
    decreases args
  {
    hide NotSetFirst, LoadedFirst, TypeConvert, VisitExpr;
    if args == [] {
      KeepsSame(s, s, x);
    } else {
      ExprKeeps(s, args[0], x);
      ExprFlat(s, args[0]);
      var s1 := VisitExpr(s, args[0]);
      var ty := if params == [] then Void else params[0];
      ConvertKeeps(s1, ty, x);
      ConvertScope(s1, ty);
      ArgsKeep(TypeConvert(s1, ty), args[1..], if params == [] then [] else params[1..], x);
    }
  }

  // ---- Functions ----

  lemma ParamKeeps(s: Build, p: Param, i: nat, x: Ir.Id)
    requires NotSetFirst(s, x) && x > s.nextId
    ensures NotSetFirst(OneParam(s, p, i), x) && OneParam(s, p, i).nextId == s.nextId + 2
  {
    hide NotSetFirst, LoadedFirst, Push;
    EmitKeeps(s, Ir.Alloca(CellType(ParamCell(p))), [], x);
    var s1 := Alloca(s, ParamCell(p)).(value := s.value);
    var s2 := s1.(scope := Push(s.scope, p.id, Value(Ir.Res(s.nextId), Ptr(ParamCell(p)))));
    SameKeeps(Emit(s, Ir.Alloca(CellType(ParamCell(p))), []), s2, x);
    EmitKeeps(s2, Ir.Store, [Ir.Arg(i), Ir.Res(s.nextId)], x);
  }

  lemma {:induction false} ParamsKeep(s: Build, ps: seq<Param>, i: nat, x: Ir.Id)
    requires NotSetFirst(s, x) && x >= s.nextId + 2 * |ps|
    ensures NotSetFirst(VisitParams(s, ps, i), x) && VisitParams(s, ps, i).nextId == s.nextId + 2 * |ps|
    decreases ps
  {
    hide NotSetFirst, OneParam, VisitParams;
    if ps == [] {
      NoParams(s, i);
    } else {
      ParamsStep(s, ps, i);
      ParamKeeps(s, ps[0], i, x);
      ParamsKeep(OneParam(s, ps[0], i), ps[1..], i + 1, x);
    }
  }

  // The declaration of an int or float variable.
  predicate IsNumber(d: VarDecl) {
    d.num.None? && !d.ty.TypeVoid?
  }

  lemma DeclKeeps(s: Build, d: VarDecl, x: Ir.Id)
    requires NotSetFirst(s, x)
    ensures NotSetFirst(VisitDecl(s, d), x) && VisitDecl(s, d).nextId == s.nextId + 1 &&
      CodeIn(s.code, VisitDecl(s, d).code)
    ensures x == s.nextId && IsNumber(d) ==> PassOutcome.IsNumberCell(VisitDecl(s, d).code, x)
  {
    hide LoadedFirst, Push, StoredTo;
    var ty := if d.num.Some? then Array(ToType(d.ty), d.num.value) else ToType(d.ty);
    EmitKeeps(s, Ir.Alloca(CellType(ty)), [], x);
    SameKeeps(Emit(s, Ir.Alloca(CellType(ty)), []), VisitDecl(s, d), x);
  }

  lemma {:induction false} DeclsKeep(s: Build, ds: seq<VarDecl>, x: Ir.Id)
    requires NotSetFirst(s, x)
    ensures NotSetFirst(VisitDecls(s, ds), x) && CodeIn(s.code, VisitDecls(s, ds).code)
    decreases ds
  {
    hide NotSetFirst, VisitDecl;
    if ds != [] {
      DeclKeeps(s, ds[0], x);
      DeclsKeep(VisitDecl(s, ds[0]), ds[1..], x);
      CodeInTrans(s.code, VisitDecl(s, ds[0]).code, VisitDecls(s, ds).code);
    }
  }

  // The cell of declaration m.
  lemma {:induction false} DeclsCell(s: Build, ds: seq<VarDecl>, m: nat, x: Ir.Id)
    requires NotSetFirst(s, x) && m < |ds| && IsNumber(ds[m]) && x == s.nextId + m
    ensures PassOutcome.IsNumberCell(VisitDecls(s, ds).code, x)
    decreases ds
  {
    hide NotSetFirst, VisitDecl, IsNumber;
    var s1 := VisitDecl(s, ds[0]);
    DeclKeeps(s, ds[0], x);
    if m == 0 {
      DeclsKeep(s1, ds[1..], x);
    } else {
      DeclsCell(s1, ds[1..], m - 1, x);
    }
  }

  // Once the open variables have been set, the cell has been stored to, and loaded from before.
  lemma {:induction false} BodyLoads(s: Build, body: seq<Stmt>, open: set<string>, x: Ir.Id)
    requires InEntry(s) && AllSet(s, open) && SetFirst(body, open) && NotSetFirst(s, x) && IsCell(s.code, x)
    ensures LoadedFirst(VisitStmts(s, body), x)
    decreases body
  {
    hide AllSet, VisitStmt, NoVariables, Sound, Grown, NoNewCell, NotSetFirst, LoadedFirst, IsCell;
    if open == {} {
      CellLoaded(s, x);
      StmtsGrown(s, body);
      GrownLoaded(s, VisitStmts(s, body), x);
    } else {
      AssignSet(s, body[0], open);
      StatementKeeps(s, body[0], x);
      BodyLoads(VisitStmt(s, body[0]), body[1..], open - {body[0].e.value.id}, x);
    }
  }

  lemma CellLoaded(s: Build, x: Ir.Id)
    requires AllSet(s, {}) && NotSetFirst(s, x) && IsCell(s.code, x)
    ensures LoadedFirst(s, x) && Numbered(s)
  {
    hide LoadedFirst, StoredTo;
    assert CellSet(s, {}, x);
  }

  lemma GrownLoaded(s: Build, s1: Build, x: Ir.Id)
    requires Grown(s, s1) && 0 in s.g.blocks && LoadedFirst(s, x) && Numbered(s)
    ensures LoadedFirst(s1, x)
  {
    hide Grown, LoadedFirst;
    GrownFacts(s, s1);
    GrownKept(s, s1);
    LoadedLater(s, s1, x);
  }

  lemma StatementKeeps(s: Build, node: Stmt, x: Ir.Id)
    requires InEntry(s) && SetsVariable(node) && NotSetFirst(s, x) && IsCell(s.code, x)
    ensures NotSetFirst(VisitStmt(s, node), x) && IsCell(VisitStmt(s, node).code, x)
  {
    hide Sound, Grown, NotSetFirst, LoadedFirst, VisitExpr;
    var e := node.e.value;
    ExprKeeps(s, e, x);
    ExprGrown(s, e);
    GrownFacts(s, VisitExpr(s, e));
  }

  lemma StartKeeps(globals: Bindings, d: FunDecl, self: Operand, x: Ir.Id)
    ensures NotSetFirst(StartFunction(globals, d, self), x) && StartFunction(globals, d, self).nextId == 0
  {
    hide Push;
  }

  lemma UnsetAtEntry(fin: Build, x: Ir.Id)
    requires LoadedFirst(fin, x) && PassOutcome.IsNumberCell(fin.code, x) && fin.g.entry == 0 && 0 in fin.g.pred &&
      fin.g.pred[0] == []
    ensures !PassOutcome.LoadsAllSet(fin.Func())
  {
    hide PassOutcome.LoadsAllSet;
    var f := fin.Func();
    var i :| LoadAt(fin, i, x);
    Askers.NoneAbove(f, x);
    NoFrontier(f, x);
    assert Askers.LoadsFirst(f, 0, i, x);
    OneUnset(f, 0, i, x);
  }

  lemma OneUnset(f: Ir.Func, b: Block, i: int, x: Ir.Id)
    requires Askers.LoadsUnset(f, b, i, x) && PassOutcome.IsNumberCell(f.code, x)
    ensures !PassOutcome.LoadsAllSet(f)
  {
    hide Askers.LoadsUnset;
  }

  lemma NoFrontier(f: Ir.Func, x: Ir.Id)
    requires f.g.entry in f.g.pred && f.g.pred[f.g.entry] == []
    ensures !PhiPlacement.InIdf(f.g, PhiPlacement.StoreBlocks(f, x), f.g.entry)
  {
    hide PhiPlacement.StoreBlocks;
    var s := PhiPlacement.StoreBlocks(f, x);
    forall c | |c| > 1 && PhiPlacement.FrontierChain(f.g, s, c) ensures c[|c| - 1] != f.g.entry {
      assert Frontier.InFrontier(f.g, c[|c| - 2], c[|c| - 2 + 1]);
    }
  }

  // A function with a variable of its own, all of them set at the start, keeps a load to which
  // no value comes: what the promotion makes of it is not in strict form.
  lemma InitialisedUnset(globals: Bindings, d: FunDecl, self: Operand, m: nat)
    requires Initialised(d) && m < |d.decls| && IsNumber(d.decls[m])
    ensures !PassOutcome.LoadsAllSet(VisitFunction(globals, d, self).Func())
  {
    hide *;
    var s0 := StartFunction(globals, d, self);
    var s1 := VisitParams(s0, d.params, 0);
    var s2 := VisitDecls(Enter(s1), d.decls);
    var s3 := VisitStmts(s2, d.body);
    var x: Ir.Id := 2 * |d.params| + m;
    StartKeeps(globals, d, self, x);
    ParamsKeep(s0, d.params, 0, x);
    StartSet(globals, d, self);
    ParamsSet(s0, d.params, 0);
    EnterSet(s1, d.decls);
    EnterKeeps(s1, x);
    DeclsKeep(Enter(s1), d.decls, x);
    DeclsCell(Enter(s1), d.decls, m, x);
    NumberIsCell(s2.code, x);
    InitialisedParts(d);
    DeclsSet(Enter(s1), d.decls, {});
    assert {} + Variables(d.decls) == Variables(d.decls);
    BodyLoads(s2, d.body, Variables(d.decls), x);
    FinishedLoads(globals, d, self, s0, s1, s2, s3, x);
  }

  lemma InitialisedParts(d: FunDecl)
    requires Initialised(d)
    ensures NamesDiffer(d.decls) && SetFirst(d.body, Variables(d.decls))
  {
  }

  lemma EnterKeeps(s: Build, x: Ir.Id)
    requires NotSetFirst(s, x)
    ensures NotSetFirst(Enter(s), x) && Enter(s).nextId == s.nextId
  {
    hide NotSetFirst, LoadedFirst;
    SameKeeps(s, Enter(s), x);
  }

  lemma NumberIsCell(code: map<Ir.Id, Ir.Instr>, x: Ir.Id)
    requires PassOutcome.IsNumberCell(code, x)
    ensures IsCell(code, x)
  {
  }

  lemma {:induction false} FinishedLoads(globals: Bindings, d: FunDecl, self: Operand, s0: Build, s1: Build,
      s2: Build, s3: Build, x: Ir.Id)
    requires s0 == StartFunction(globals, d, self) && s1 == VisitParams(s0, d.params, 0) &&
      s2 == VisitDecls(Enter(s1), d.decls)
    requires s3 == VisitStmts(s2, d.body) && LoadedFirst(s3, x) && PassOutcome.IsNumberCell(s2.code, x) && InEntry(s2)
    ensures !PassOutcome.LoadsAllSet(VisitFunction(globals, d, self).Func())
  {
    hide Sound, Grown, VisitParams, VisitStmts, VisitDecls, StartFunction, LoadedFirst, PassOutcome.LoadsAllSet,
      VisitFunction;
    var args := if d.ty.TypeVoid? then [] else [Ir.Const(0)];
    var end := Exit(Exit(s3));
    var fin := Emit(end, Ir.Ret, args);
    FunctionEnds(globals, d, self, s0, s1, s3, args);
    StmtsGrown(s2, d.body);
    GrownFacts(s2, s3);
    FunctionShape(globals, d, self);
    SoundNumbers(end);
    EmitList(end, Ir.Ret, args);
    SameLoaded(s3, end, x);
    LoadedLater(end, fin, x);
    UnsetAtEntry(fin, x);
  }

  lemma SoundNumbers(s: Build)
    requires Sound(s)
    ensures Numbered(s)
  {
    hide Graph.Valid, SuccsDistinct;
  }

  lemma SameLoaded(s: Build, s1: Build, x: Ir.Id)
    requires LoadedFirst(s, x) && s1.code == s.code && s1.lists == s.lists
    ensures LoadedFirst(s1, x)
  {
    var i :| LoadAt(s, i, x);
    assert LoadAt(s1, i, x);
  }

  // ---- Functions without variables of their own ----

  ghost predicate NoLoadYet(s: Build) {
    forall j :: 0 <= j < |s.List(0)| ==> s.List(0)[j] in s.code && !s.code[s.List(0)[j]].op.Load?
  }

  lemma ParamNoLoad(s: Build, p: Param, i: nat)
    requires NoLoadYet(s) && Numbered(s)
    ensures NoLoadYet(OneParam(s, p, i)) && Numbered(OneParam(s, p, i))
  {
    hide Emit, Push, Numbered;
    var s1 := Alloca(s, ParamCell(p)).(value := s.value);
    var s2 := s1.(scope := Push(s.scope, p.id, Value(Ir.Res(s.nextId), Ptr(ParamCell(p)))));
    EmitNoLoad(s, Ir.Alloca(CellType(ParamCell(p))), []);
    SameNoLoad(Emit(s, Ir.Alloca(CellType(ParamCell(p))), []), s2);
    EmitNoLoad(s2, Ir.Store, [Ir.Arg(i), Ir.Res(s.nextId)]);
  }

  lemma SameNoLoad(s: Build, s1: Build)
    requires NoLoadYet(s) && Numbered(s) && s1.code == s.code && s1.lists == s.lists && s1.nextId == s.nextId
    ensures NoLoadYet(s1) && Numbered(s1)
  {
    assert s1.List(0) == s.List(0);
  }

  lemma EmitNoLoad(s: Build, op: Opcode, args: seq<Operand>)
    requires NoLoadYet(s) && Numbered(s) && !op.Load?
    ensures NoLoadYet(Emit(s, op, args)) && Numbered(Emit(s, op, args))
  {
    hide Emit;
    var s1 := Emit(s, op, args);
    EmitList(s, op, args);
    forall j | 0 <= j < |s1.List(0)| ensures s1.List(0)[j] in s1.code && !s1.code[s1.List(0)[j]].op.Load? {
      if j < |s.List(0)| { assert s1.List(0)[j] == s.List(0)[j]; }
    }
  }

  lemma {:induction false} ParamsNoLoad(s: Build, ps: seq<Param>, i: nat)
    requires NoLoadYet(s) && Numbered(s)
    ensures NoLoadYet(VisitParams(s, ps, i)) && Numbered(VisitParams(s, ps, i))
    decreases ps
  {
    hide NoLoadYet, Numbered, OneParam, VisitParams;
    if ps == [] {
      NoParams(s, i);
    } else {
      ParamsStep(s, ps, i);
      ParamNoLoad(s, ps[0], i);
      ParamsNoLoad(OneParam(s, ps[0], i), ps[1..], i + 1);
    }
  }

  lemma ArraysNoVariables(ds: seq<VarDecl>)
    requires ArraysOnly(ds)
    ensures Variables(ds) == {}
  {
  }

  // The cells of the finished function are those of the parameters.
  lemma ParamCellsOnly(globals: Bindings, d: FunDecl, self: Operand, s1: Build)
    requires Initialised(d) && ArraysOnly(d.decls) && s1 == VisitParams(StartFunction(globals, d, self), d.params, 0)
    ensures var fin := VisitFunction(globals, d, self);
            NoNewCell(s1, fin) && CodeIn(s1.code, fin.code) && s1.List(0) <= fin.List(0) && fin.g.entry == 0
  {
    hide Sound, Grown, VisitParams, VisitStmts, VisitDecls, StartFunction, VisitFunction, NoVariables, Emit, CodeIn,
      ArraysOnly;
    var s0 := StartFunction(globals, d, self);
    var s2 := VisitDecls(Enter(s1), d.decls);
    var s3 := VisitStmts(s2, d.body);
    var args := if d.ty.TypeVoid? then [] else [Ir.Const(0)];
    ArraysNoVariables(d.decls);
    StartSet(globals, d, self);
    ParamsSet(s0, d.params, 0);
    EnterSet(s1, d.decls);
    DeclsNoCell(Enter(s1), d.decls);
    DeclsGrown(Enter(s1), d.decls); GrownSound(Enter(s1), s2);
    StmtsNoCell(s2, d.body);
    StmtsGrown(s2, d.body);
    FunctionEnds(globals, d, self, s0, s1, s3, args);
    EmitNoCell(Exit(Exit(s3)), Ir.Ret, args);
    ParamsStay(s1, s2, s3, Emit(Exit(Exit(s3)), Ir.Ret, args), args);
  }

  lemma ParamsStay(s1: Build, s2: Build, s3: Build, fin: Build, args: seq<Operand>)
    requires Sound(Enter(s1)) && 0 in s1.g.blocks && Grown(Enter(s1), s2) && Grown(s2, s3) &&
      fin == Emit(Exit(Exit(s3)), Ir.Ret, args)
    requires Sound(Exit(Exit(s3)))
    ensures CodeIn(s1.code, fin.code) && s1.List(0) <= fin.List(0)
  {
    hide Sound, Grown, Emit, CodeIn;
    GrownFacts(Enter(s1), s2); GrownKept(Enter(s1), s2);
    GrownFacts(s2, s3); GrownKept(s2, s3);
    SoundNumbers(Exit(Exit(s3)));
    EmitList(Exit(Exit(s3)), Ir.Ret, args);
    CodeInTrans(s1.code, s2.code, s3.code);
    CodeInTrans(s1.code, s3.code, fin.code);
  }

  lemma ParamsLoads(s1: Build, fin: Build, b: Block, i: int, x: Ir.Id)
    requires NoLoadYet(s1) && AllSet(s1, {}) && NoNewCell(s1, fin) && CodeIn(s1.code, fin.code) &&
      s1.List(0) <= fin.List(0)
    requires fin.g.entry == 0 && IsCell(fin.code, x)
    ensures !Askers.LoadsUnset(fin.Func(), b, i, x)
  {
    hide StoredTo;
    var f := fin.Func();
    assert IsCell(s1.code, x) && CellSet(s1, {}, x);
    StoredLater(s1.code, fin.code, s1.List(0), fin.List(0), x);
    StoredBlock(fin, x);
    PassOutcome.SetInEntry(f, b, x);
    if b == 0 { StoredBeforeLoads(s1, fin, i, x); }
  }

  lemma StoredBeforeLoads(s1: Build, fin: Build, i: int, x: Ir.Id)
    requires NoLoadYet(s1) && StoredTo(s1.code, s1.List(0), x) && CodeIn(s1.code, fin.code) && s1.List(0) <= fin.List(0)
    requires IsCell(fin.code, x)
    ensures !Askers.LoadsFirst(fin.Func(), 0, i, x)
  {
    var j :| 0 <= j < |s1.List(0)| && StoresTo(s1.code, s1.List(0)[j], x);
    var f := fin.Func();
    var l := fin.List(0);
    assert l[j] == s1.List(0)[j] && Ir.StoreCell(f.code, f.lists[0][j]) == Some(x);
    forall k | 0 <= k < |s1.List(0)| ensures Ir.LoadCell(f.code, l[k]).None? {
      assert l[k] == s1.List(0)[k];
    }
  }

  // What the promotion makes of a function without variables of its own is in strict form.
  lemma ParamsOnlySet(globals: Bindings, d: FunDecl, self: Operand)
    requires Initialised(d) && ArraysOnly(d.decls)
    ensures PassOutcome.LoadsAllSet(VisitFunction(globals, d, self).Func())
  {
    hide *;
    var s0 := StartFunction(globals, d, self);
    var s1 := VisitParams(s0, d.params, 0);
    var fin := VisitFunction(globals, d, self);
    StartKeeps(globals, d, self, 0);
    StartNoLoad(globals, d, self);
    ParamsNoLoad(s0, d.params, 0);
    StartSet(globals, d, self);
    ParamsSet(s0, d.params, 0);
    ParamCellsOnly(globals, d, self, s1);
    forall b, i, x | PassOutcome.IsNumberCell(fin.code, x) ensures !Askers.LoadsUnset(fin.Func(), b, i, x) {
      NumberIsCell(fin.code, x);
      ParamsLoads(s1, fin, b, i, x);
    }
    NoneUnset(fin);
  }

  lemma StartNoLoad(globals: Bindings, d: FunDecl, self: Operand)
    ensures NoLoadYet(StartFunction(globals, d, self)) && Numbered(StartFunction(globals, d, self))
  {
    hide Push;
  }

  lemma NoneUnset(fin: Build)
    requires forall b, i, x :: PassOutcome.IsNumberCell(fin.code, x) ==> !Askers.LoadsUnset(fin.Func(), b, i, x)
    ensures PassOutcome.LoadsAllSet(fin.Func())
  {
    hide Askers.LoadsUnset;
  }
}
