/** Statements: from the point where the builder starts a statement, the blocks it has made run
    to the point where it ends, or return, as the source semantics says. */
module StatementMeaning {
  import opened Wrappers
  import opened Cfg
  import Ir
  import opened Ast
  import opened Lowering
  import opened BuilderShape
  import opened Runs
  import opened Cminus
  import opened Cells
  import opened BuilderMeaning

  // ---- What a statement has to do ----

  // When the source goes on, the run gets from the end of s to the end of s1 with the values the
  // source computes; when it returns, so does the run; when the fuel for the source is used up,
  // the run lasts that long.
  ghost predicate Does(w: Ir.World, known: Known, all: Code, lists: Lists, fuel: nat, s: Build, s1: Build,
      res: Result, r: Ir.State, r1: Ir.State) {
    && Here(s, lists) && Here(s1, lists)
    && match res
       case Normal(st1) => Leads(w, all, lists, Rest(s, lists), r, Rest(s1, lists), r1) && Ready(s1, known, st1, r1)
       case Returned(v, tr) => Ends(w, all, lists, Rest(s, lists), r, v, tr)
       case NoFuel => Lasts(w, all, lists, Rest(s, lists), r, fuel)
       case Wrong => true
  }

  lemma {:induction false} DoesThen(w: Ir.World, known: Known, all: Code, lists: Lists, fuel: nat, s: Build,
      s1: Build, s2: Build, st1: Memory, res: Result, r: Ir.State, q: Ir.State, r1: Ir.State)
    requires Does(w, known, all, lists, fuel, s, s1, Normal(st1), r, q) &&
      Does(w, known, all, lists, fuel, s1, s2, res, q, r1)
    ensures Does(w, known, all, lists, fuel, s, s2, res, r, r1)
  {
    hide Leads, Ends, Ready;
    match res
    case Normal(st2) => LeadsTrans(w, all, lists, Rest(s, lists), r, Rest(s1, lists), q, Rest(s2, lists), r1);
    case Returned(v, tr) => LeadsEnds(w, all, lists, Rest(s, lists), r, Rest(s1, lists), q, v, tr);
    case NoFuel => LeadsLasts(w, all, lists, Rest(s, lists), r, Rest(s1, lists), q, fuel);
    case Wrong =>
  }

  lemma {:induction false} DoesSame(w: Ir.World, known: Known, all: Code, lists: Lists, fuel: nat, s: Build,
      s1: Build, st: Memory, r: Ir.State)
    requires Here(s, lists) && s1.cur == s.cur && s1.lists == s.lists && Ready(s1, known, st, r)
    ensures Does(w, known, all, lists, fuel, s, s1, Normal(st), r, r)
  {
    hide Ir.Exec, Ready, Leads;
    LeadsSame(w, all, lists, Rest(s, lists), r, Rest(s1, lists), r);
  }

  lemma {:induction false} DoesReached(w: Ir.World, known: Known, all: Code, lists: Lists, fuel: nat, s: Build,
      s1: Build, st1: Memory, r: Ir.State, r1: Ir.State)
    requires Reached(w, all, lists, s, s1, r, r1) && Ready(s1, known, st1, r1)
    ensures Does(w, known, all, lists, fuel, s, s1, Normal(st1), r, r1)
  {
    hide Leads, Ready, Keeps, Here;
  }

  // ---- Declarations ----

  // Running the instruction that makes a cell, or an array.
  function Allocated(w: Ir.World, n: Ir.Id, ty: Ir.CellType, r: Ir.State): Ir.State {
    var op := Ir.Alloca(ty);
    if ty.Aggregate? then
      r.(env := r.env[n := Ir.V(w.value(op, [], r.trace))], trace := r.trace + [Ir.Event(op, [])])
    else r.(mem := r.mem[n := Ir.Undef], env := r.env[n := Ir.V(w.value(op, [n], r.trace))])
  }

  lemma AllocaStep(w: Ir.World, all: Code, n: Ir.Id, ty: Ir.CellType, r: Ir.State)
    requires n in all && all[n] == Ir.Instr(Ir.Alloca(ty), [])
    ensures Ir.Step(w, all, n, r) == Ir.Next(Allocated(w, n, ty, r)) && Same(n, r, Allocated(w, n, ty, r))
  {
  }

  // What a declaration puts under its name.
  function DeclSlot(w: Ir.World, d: VarDecl, tr: seq<Ir.Event>): Slot {
    if d.num.Some? then Row(TyOf(d.ty), w.value(Ir.Alloca(Ir.Aggregate), [], tr)) else Cell(TyOf(d.ty), Ir.Undef)
  }

  function DeclType(d: VarDecl): Type {
    if d.num.Some? then Array(ToType(d.ty), d.num.value) else ToType(d.ty)
  }

  lemma DeclaredSlot(w: Ir.World, d: VarDecl, st: Memory, c: Ir.Id, r: Ir.State)
    requires r.trace == st.trace
    ensures var r1 := Allocated(w, c, CellType(DeclType(d)), r);
            && SlotOk(Value(Ir.Res(c), Ptr(DeclType(d))), DeclSlot(w, d, st.trace), r1)
            && DeclareOne(w, st, d) == Memory(Bound(st.scopes, d.id, DeclSlot(w, d, st.trace)), r1.trace)
  {
    assert ToType(d.ty) == Lower(TyOf(d.ty));
    LowerPlain(TyOf(d.ty));
  }

  lemma DeclIs(s: Build, d: VarDecl)
    ensures VisitDecl(s, d) == Emit(s, Ir.Alloca(CellType(DeclType(d))), []).(scope :=
      Push(s.scope, d.id, Value(Ir.Res(s.nextId), Ptr(DeclType(d)))))
  {
    hide Push, CellType;
  }

  lemma {:induction false} DeclMeans(w: Ir.World, known: Known, all: Code, lists: Lists, fuel: nat, s: Build,
      d: VarDecl, st: Memory, r: Ir.State) returns (r1: Ir.State)
    requires Ready(s, known, st, r) && |s.scope| > 1 && CodeIn(VisitDecl(s, d).code, all) &&
      Here(VisitDecl(s, d), lists)
    ensures var s1 := VisitDecl(s, d);
            Does(w, known, all, lists, fuel, s, s1, Normal(DeclareOne(w, st, d)), r, r1) && |s1.scope| > 1
  {
    hide Sound, Static, Values, CodeIn, Emitted, Ir.Step, Leads, Push, Bound, Grown, VisitDecl, SlotOk, DeclType,
      DeclSlot, DeclareOne, CellType, Allocated, Same;
    ReadyParts(s, known, st, r);
    var ty := DeclType(d);
    var op, s0, s1 := Ir.Alloca(CellType(ty)), Emit(s, Ir.Alloca(CellType(ty)), []), VisitDecl(s, d);
    DeclIs(s, d);
    EmitKept(s, op, []);
    CodeAtIn(s1.code, all, s.nextId);
    AllocaStep(w, all, s.nextId, CellType(ty), r);
    r1 := Allocated(w, s.nextId, CellType(ty), r);
    EmittedOne(w, all, s, op, [], Ptr(ty), r, r1);
    StraightLeads(w, all, lists, s, s0, r, r1);
    DeclaredSlot(w, d, st, s.nextId, r);
    BindSlot(s.scope, st.scopes, r, r1, s.code, known, d.id, s.nextId, ty, DeclSlot(w, d, st.trace));
    DeclGrown(s, d);
    GrownFacts(s, s1);
  }

  lemma {:induction false} DeclsMean(w: Ir.World, known: Known, all: Code, lists: Lists, fuel: nat, s: Build,
      ds: seq<VarDecl>, st: Memory, r: Ir.State) returns (r1: Ir.State)
    requires Ready(s, known, st, r) && |s.scope| > 1 && CodeIn(VisitDecls(s, ds).code, all) &&
      Fits(s, VisitDecls(s, ds), lists)
    ensures Does(w, known, all, lists, fuel, s, VisitDecls(s, ds), Normal(Declare(w, st, ds)), r, r1)
    decreases ds
  {
    hide Static, CodeIn, Emitted, DeclareOne, Leads, Grown, VisitDecl, Does, Sound, Fits, Here;
    ReadySound(s, known, st, r);
    DeclsGrown(s, ds);
    FitsHere(s, VisitDecls(s, ds), lists);
    if ds == [] {
      r1 := r;
      DoesSame(w, known, all, lists, fuel, s, s, st, r);
    } else {
      var s1 := VisitDecl(s, ds[0]);
      var s2 := VisitDecls(s1, ds[1..]);
      DeclGrown(s, ds[0]); GrownFacts(s, s1);
      DeclsGrown(s1, ds[1..]); GrownFacts(s1, s2);
      CodeInTrans(s1.code, s2.code, all);
      FitsFirst(s, s1, s2, lists);
      FitsHere(s, s1, lists);
      var q := DeclMeans(w, known, all, lists, fuel, s, ds[0], st, r);
      var st1 := DeclareOne(w, st, ds[0]);
      DoesReady(w, known, all, lists, fuel, s, s1, st1, r, q);
      r1 := DeclsMean(w, known, all, lists, fuel, s1, ds[1..], st1, q);
      DoesThen(w, known, all, lists, fuel, s, s1, s2, st1, Normal(Declare(w, st1, ds[1..])), r, q, r1);
    }
  }

  lemma {:induction false} DoesReady(w: Ir.World, known: Known, all: Code, lists: Lists, fuel: nat, s: Build,
      s1: Build, st1: Memory, r: Ir.State, r1: Ir.State)
    requires Does(w, known, all, lists, fuel, s, s1, Normal(st1), r, r1)
    ensures Ready(s1, known, st1, r1)
  {
    hide Leads, Ready;
  }

  // ---- Conditions ----

  // The comparison of a condition with zero.
  lemma {:induction false} CompareMeans(w: Ir.World, known: Known, all: Code, s: Build, ty: Ty, v: Ir.Val, st: Memory,
      r: Ir.State) returns (r1: Ir.State)
    requires Ir.Arithmetic(w) && Ready(s, known, st, r) && CodeIn(CompareWith0(s).code, all)
    requires Holds(w, s, ty, v, r) && Decides(w.floats, ty, v).Some?
    ensures var s1 := CompareWith0(s);
            && Emitted(w, all, s, s1, r, r1) && Ready(s1, known, st, r1) && Ir.Eval(w, r1.env, s1.value.op).V?
            && (Ir.Eval(w, r1.env, s1.value.op).n != 0 <==> Decides(w.floats, ty, v).value)
  {
    hide Ready, CodeIn, Emitted, Ir.Eval, Ir.Arithmetic, Sound, Older;
    ReadyParts(s, known, st, r);
    if ty == TruthT {
      r1 := r;
      EmittedSame(w, all, s, s, r);
    } else {
      var code := if ty == IntT then RelCode(Neq) else Floating(RelCode(Neq));
      assert CompareWith0(s) == EmitValue(s, Ir.Pure(code), [s.value.op, Ir.Const(0)], Int1);
      ConstIs(w, r.env, 0);
      r1 := TwoMean(w, known, all, s, code, s.value.op, Ir.Const(0), TruthT, v, Ir.V(0), st, r);
      PureWorld(w, code, [v.n, 0], r.trace);
    }
  }

  // A condition up to the comparison with zero; `s2` is the state the builder goes on in.
  lemma {:induction false} CondMeans(w: Ir.World, known: Known, all: Code, lists: Lists, s: Build, cond: Expr,
      st: Memory, r: Ir.State) returns (r1: Ir.State)
    requires Ir.Arithmetic(w) && Ready(s, known, st, r)
    requires var s2 := CompareWith0(VisitExpr(s, cond)).(value := VisitExpr(s, cond).value);
      s2.ok && CodeIn(s2.code, all) && Fits(s, s2, lists)
    requires var ev := EvalExpr(w, known, st, cond); ev.Gives? && Decides(w.floats, ev.ty, ev.v).Some?
    ensures var e := VisitExpr(s, cond); var c := CompareWith0(e); var s2 := c.(value := e.value);
            var ev := EvalExpr(w, known, st, cond);
            && Reached(w, all, lists, s, s2, r, r1) && Ready(s2, known, ev.st, r1) && Ir.Eval(w, r1.env, c.value.op).V?
            && (Ir.Eval(w, r1.env, c.value.op).n != 0 <==> Decides(w.floats, ev.ty, ev.v).value)
  {
    hide Ready, Sound, CodeIn, Emitted, Ir.Eval, VisitExpr, CompareWith0, Grown, Fits, Here, Reached, EvalExpr, Decides,
      Ir.Arithmetic, Holds;
    var e := VisitExpr(s, cond);
    var c := CompareWith0(e);
    var s2 := c.(value := e.value);
    var ev := EvalExpr(w, known, st, cond);
    ReadySound(s, known, st, r);
    CondGrown(s, cond);
    CodeInTrans(e.code, c.code, all);
    FitsFirst(s, e, s2, lists);
    FitsHere(e, s2, lists);
    var q := ExprMeans(w, known, all, lists, s, cond, st, r);
    r1 := CompareMeans(w, known, all, e, ev.ty, ev.v, ev.st, q);
    ReadySame(c, s2, known, ev.st, r1);
    SoundFacts(c);
    EmittedSame(w, all, c, s2, r1);
    EmittedTrans(w, all, e, c, s2, q, r1, r1);
    ReachedEmitted(w, all, lists, e, s2, q, r1);
    ReachedTrans(w, all, lists, s, e, s2, r, q, r1);
  }

  lemma CondGrown(s: Build, cond: Expr)
    requires Sound(s)
    ensures var e := VisitExpr(s, cond); var c := CompareWith0(e); var s2 := c.(value := e.value);
            && Grown(s, e) && Grown(e, s2) && Grown(s, s2) && Sound(e) && Sound(c) && Sound(s2)
            && CodeIn(e.code, c.code) && (c.ok ==> e.ok)
  {
    hide Sound, CodeIn, VisitExpr, CompareWith0, Grown;
    var e := VisitExpr(s, cond);
    var c := CompareWith0(e);
    var s2 := c.(value := e.value);
    ExprGrown(s, cond); GrownFacts(s, e);
    CompareGrown(e); GrownFacts(e, c);
    GrownSame(c, s2); GrownFacts(c, s2);
    GrownTrans(e, c, s2); GrownTrans(s, e, s2);
  }

  // ---- Return ----

  lemma {:induction false} ReturnMeans(w: Ir.World, known: Known, all: Code, lists: Lists, fuel: nat, s: Build,
      e: Expr, st: Memory, r: Ir.State)
    requires Ir.Arithmetic(w) && Ready(s, known, st, r)
    requires var s1 := VisitStmt(s, Return(Some(e))); s1.ok && CodeIn(s1.code, all) && Fits(s, s1, lists)
    requires var ev := EvalExpr(w, known, st, e);
      ev.Gives? && Convert(w.floats, ev.ty, ev.v, known.ret).Some? && Convert(w.floats, ev.ty, ev.v, known.ret).value.V?
    ensures var ev := EvalExpr(w, known, st, e); var v := Convert(w.floats, ev.ty, ev.v, known.ret).value;
            Does(w, known, all, lists, fuel, s, VisitStmt(s, Return(Some(e))), Returned([v.n], ev.st.trace), r, r)
  {
    hide Ready, Sound, CodeIn, Emitted, Ir.Eval, VisitExpr, Grown, Ir.Exec, Ends, Leads, Fits, Here, Reached, EvalExpr,
      Convert, Ir.Arithmetic, TypeConvert, Holds;
    var s1 := VisitExpr(s, e);
    var s2 := TypeConvert(s1, s.ret);
    var s3 := VisitStmt(s, Return(Some(e)));
    var ev := EvalExpr(w, known, st, e);
    var v := Convert(w.floats, ev.ty, ev.v, known.ret).value;
    ReadySound(s, known, st, r);
    ReadyAgrees(s, known, st, r);
    ReturnParts(s, e, all, lists);
    var q := ExprMeans(w, known, all, lists, s, e, st, r);
    var q1 := ConvertMeans(w, known, all, s1, ev.ty, ev.v, known.ret, ev.st, q);
    HoldsParts(w, s2, known.ret, v, q1);
    ReachedEmitted(w, all, lists, s1, s2, q, q1);
    ReachedTrans(w, all, lists, s, s1, s2, r, q, q1);
    ReturnRuns(w, known, all, lists, s2, [v.n], ev.st, q1);
    ReachedEnds(w, all, lists, s, s2, r, q1, [v.n], ev.st.trace);
  }

  lemma {:induction false} ReturnParts(s: Build, e: Expr, all: Code, lists: Lists)
    requires Sound(s)
    requires var s1 := VisitStmt(s, Return(Some(e))); s1.ok && CodeIn(s1.code, all) && Fits(s, s1, lists)
    ensures var s1 := VisitExpr(s, e); var s2 := TypeConvert(s1, s.ret); var s3 := Emit(s2, Ir.Ret, [s2.value.op]);
            && s3 == VisitStmt(s, Return(Some(e))) && s1.ok && Sound(s2) && CodeIn(s1.code, all) && CodeIn(s2.code, all)
            && CodeIn(s3.code, all) && Fits(s, s1, lists) && Here(s, lists) && Here(s1, lists) && Here(s2, lists)
            && Here(s3, lists)
  {
    hide Sound, CodeIn, VisitExpr, Grown, Fits, Here, TypeConvert, Emit;
    var s1 := VisitExpr(s, e);
    var s2 := TypeConvert(s1, s.ret);
    var s3 := Emit(s2, Ir.Ret, [s2.value.op]);
    ExprGrown(s, e); GrownFacts(s, s1);
    TypeConvertGrown(s1, s.ret); GrownFacts(s1, s2);
    GrownEmit(s2, Ir.Ret, [s2.value.op]); GrownFacts(s2, s3);
    CodeInTrans(s2.code, s3.code, all); CodeInTrans(s1.code, s2.code, all);
    GrownTrans(s, s1, s2);
    FitsFirst(s, s2, s3, lists); FitsFirst(s, s1, s2, lists);
    FitsHere(s, s1, lists); FitsHere(s1, s2, lists); FitsHere(s2, s3, lists);
  }

  // The return instruction itself.
  lemma {:induction false} ReturnRuns(w: Ir.World, known: Known, all: Code, lists: Lists, s: Build, vs: seq<int>,
      st: Memory, r: Ir.State)
    requires Ready(s, known, st, r) && |vs| == 1 && Ir.Eval(w, r.env, s.value.op) == Ir.V(vs[0])
    requires var s1 := Emit(s, Ir.Ret, [s.value.op]); CodeIn(s1.code, all) && Here(s1, lists)
    ensures Here(s, lists) && Ends(w, all, lists, Rest(s, lists), r, vs, st.trace)
  {
    hide Ready, CodeIn, Ir.Eval, Ir.Exec, Ends, Leads;
    EmitKept(s, Ir.Ret, [s.value.op]);
    HereEarlier(s, Emit(s, Ir.Ret, [s.value.op]), lists);
    RestOne(s, lists, s.nextId);
    CodeAtIn(Emit(s, Ir.Ret, [s.value.op]).code, all, s.nextId);
    EvalOne(w, r.env, s.value.op);
    assert vs == [vs[0]];
    RetStep(w, all, Rest(s, lists), s.nextId, [s.value.op], vs, r);
    EndsReturn(w, all, lists, Rest(s, lists), r, vs, r.trace);
    ReadySound(s, known, st, r);
  }

  lemma {:induction false} ReachedEnds(w: Ir.World, all: Code, lists: Lists, s: Build, s1: Build, r: Ir.State,
      r1: Ir.State, v: seq<int>, tr: seq<Ir.Event>)
    requires Reached(w, all, lists, s, s1, r, r1) && Ends(w, all, lists, Rest(s1, lists), r1, v, tr)
    ensures Here(s, lists) && Ends(w, all, lists, Rest(s, lists), r, v, tr)
  {
    hide Leads, Ends, Here, Keeps;
    LeadsEnds(w, all, lists, Rest(s, lists), r, Rest(s1, lists), r1, v, tr);
  }

  // ---- Statements ----

  lemma {:induction false} StmtsMean(w: Ir.World, known: Known, all: Code, lists: Lists, s: Build, nodes: seq<Stmt>,
      st: Memory, r: Ir.State, fuel: nat)
    returns (r1: Ir.State)
    requires Ir.Arithmetic(w) && (forall i :: 0 <= i < |nodes| ==> FlatLoops(nodes[i])) && Ready(s, known, st, r)
    requires var s1 := VisitStmts(s, nodes); s1.ok && CodeIn(s1.code, all) && Fits(s, s1, lists)
    ensures Does(w, known, all, lists, fuel, s, VisitStmts(s, nodes), RunAll(w, known, st, nodes, fuel), r, r1)
    decreases fuel, nodes, 0
  {
    hide Static, CodeIn, Leads, Ends, Grown, VisitStmt, Does, Sound, Fits, Here, Ready, Cminus.Run;
    ReadySound(s, known, st, r);
    StmtsGrown(s, nodes);
    FitsHere(s, VisitStmts(s, nodes), lists);
    if nodes == [] {
      r1 := r;
      DoesSame(w, known, all, lists, fuel, s, s, st, r);
    } else {
      var s1 := VisitStmt(s, nodes[0]);
      var s2 := VisitStmts(s1, nodes[1..]);
      StmtGrown(s, nodes[0]); GrownFacts(s, s1);
      StmtsGrown(s1, nodes[1..]); GrownFacts(s1, s2);
      CodeInTrans(s1.code, s2.code, all);
      FitsFirst(s, s1, s2, lists);
      var q := StmtMeans(w, known, all, lists, s, nodes[0], st, r, fuel);
      match Cminus.Run(w, known, st, nodes[0], fuel)
      case Normal(st1) =>
        DoesReady(w, known, all, lists, fuel, s, s1, st1, r, q);
        StmtScope(s, nodes[0]);
        r1 := StmtsMean(w, known, all, lists, s1, nodes[1..], st1, q, fuel);
        DoesThen(w, known, all, lists, fuel, s, s1, s2, st1, RunAll(w, known, st1, nodes[1..], fuel), r, q, r1);
      case other =>
        r1 := q;
        DoesStops(w, known, all, lists, fuel, s, s1, s2, other, r, q);
    }
  }

  // A statement that does not go on decides for what follows.
  lemma {:induction false} DoesStops(w: Ir.World, known: Known, all: Code, lists: Lists, fuel: nat, s: Build,
      s1: Build, s2: Build, res: Result, r: Ir.State, r1: Ir.State)
    requires Does(w, known, all, lists, fuel, s, s1, res, r, r1) && !res.Normal? && Here(s2, lists)
    ensures Does(w, known, all, lists, fuel, s, s2, res, r, r1)
  {
    hide Ends;
  }

  lemma {:induction false} StmtMeans(w: Ir.World, known: Known, all: Code, lists: Lists, s: Build, node: Stmt,
      st: Memory, r: Ir.State, fuel: nat)
    returns (r1: Ir.State)
    requires Ir.Arithmetic(w) && FlatLoops(node) && Ready(s, known, st, r)
    requires var s1 := VisitStmt(s, node); s1.ok && CodeIn(s1.code, all) && Fits(s, s1, lists)
    ensures Does(w, known, all, lists, fuel, s, VisitStmt(s, node), Cminus.Run(w, known, st, node, fuel), r, r1)
    decreases fuel, node, 3
  {
    hide Static, CodeIn, Leads, Ends, Grown, Does, Sound, Fits, Here, Ready, VisitExpr, VisitStmts, VisitBranches,
      VisitBody, EvalExpr;
    ReadySound(s, known, st, r);
    StmtGrown(s, node);
    FitsHere(s, VisitStmt(s, node), lists);
    match node
    case ExprStmt(e) =>
      r1 := ExprStmtMeans(w, known, all, lists, s, e, st, r, fuel);
    case Compound(decls, body) =>
      r1 := CompoundMeans(w, known, all, lists, s, decls, body, st, r, fuel);
    case Selection(cond, thenS, elseS) =>
      r1 := SelectionMeans(w, known, all, lists, s, node, st, r, fuel);
    case Iteration(cond, body) =>
      r1 := IterationMeans(w, known, all, lists, s, node, st, r, fuel);
    case Return(e) =>
      r1 := r;
      if e.None? {
        VoidReturnMeans(w, known, all, lists, fuel, s, st, r);
      } else if Cminus.Run(w, known, st, node, fuel).Returned? {
        ReturnMeans(w, known, all, lists, fuel, s, e.value, st, r);
      } else {
        DoesNothing(w, known, all, lists, fuel, s, VisitStmt(s, node), Wrong, r);
      }
  }

  lemma {:induction false} DoesNothing(w: Ir.World, known: Known, all: Code, lists: Lists, fuel: nat, s: Build,
      s1: Build, res: Result, r: Ir.State)
    requires Here(s, lists) && Here(s1, lists) && res.Wrong?
    ensures Does(w, known, all, lists, fuel, s, s1, res, r, r)
  {
  }

  lemma {:induction false} VoidReturnMeans(w: Ir.World, known: Known, all: Code, lists: Lists, fuel: nat, s: Build,
      st: Memory, r: Ir.State)
    requires Ready(s, known, st, r)
    requires var s1 := Emit(s, Ir.Ret, []); CodeIn(s1.code, all) && Here(s1, lists)
    ensures Does(w, known, all, lists, fuel, s, Emit(s, Ir.Ret, []), Returned([], st.trace), r, r)
  {
    hide Ir.Exec, Ends, Ready, CodeIn;
    EmitKept(s, Ir.Ret, []);
    HereEarlier(s, Emit(s, Ir.Ret, []), lists);
    RestOne(s, lists, s.nextId);
    CodeAtIn(Emit(s, Ir.Ret, []).code, all, s.nextId);
    RetStep(w, all, Rest(s, lists), s.nextId, [], [], r);
    EndsReturn(w, all, lists, Rest(s, lists), r, [], r.trace);
    ReadySound(s, known, st, r);
  }

  lemma {:induction false} ExprStmtMeans(w: Ir.World, known: Known, all: Code, lists: Lists, s: Build,
      e: Option<Expr>, st: Memory, r: Ir.State, fuel: nat)
    returns (r1: Ir.State)
    requires Ir.Arithmetic(w) && Ready(s, known, st, r)
    requires var s1 := VisitStmt(s, ExprStmt(e)); s1.ok && CodeIn(s1.code, all) && Fits(s, s1, lists)
    requires Here(s, lists) && Here(VisitStmt(s, ExprStmt(e)), lists)
    ensures Does(w, known, all, lists, fuel, s, VisitStmt(s, ExprStmt(e)), Cminus.Run(w, known, st, ExprStmt(e), fuel),
      r, r1)
  {
    hide Static, CodeIn, Leads, Ends, Does, Sound, Here, Ready, VisitExpr, EvalExpr, Reached, Fits, Holds,
      Ir.Arithmetic;
    r1 := r;
    if e.None? {
      DoesSame(w, known, all, lists, fuel, s, s, st, r);
    } else if EvalExpr(w, known, st, e.value).Gives? {
      r1 := ExprMeans(w, known, all, lists, s, e.value, st, r);
      DoesReached(w, known, all, lists, fuel, s, VisitExpr(s, e.value), EvalExpr(w, known, st, e.value).st, r, r1);
    } else {
      DoesNothing(w, known, all, lists, fuel, s, VisitExpr(s, e.value), Wrong, r);
    }
  }

  lemma EnterReady(s: Build, known: Known, st: Memory, r: Ir.State)
    requires Ready(s, known, st, r)
    ensures Ready(Enter(s), known, st.(scopes := st.scopes + [map[]]), r) && |Enter(s).scope| > 1
  {
    hide Sound, BindingOk, Grown;
    var scope1, vars1 := s.scope + [map[]], st.scopes + [map[]];
    GrownSame(s, Enter(s)); GrownSound(s, Enter(s));
    forall i | 0 <= i < |scope1| ensures Level(scope1[i], vars1[i], r) {
      if i < |s.scope| { assert Level(s.scope[i], st.scopes[i], r); }
    }
    EnterStatic(s.scope, s.code, known);
  }

  lemma EnterStatic(scope: seq<Bindings>, code: Code, known: Known)
    requires Static(scope, code, known)
    ensures Static(scope + [map[]], code, known)
  {
    hide BindingOk;
    var scope1 := scope + [map[]];
    forall i, id | 0 <= i < |scope1| && id in scope1[i] ensures BindingOk(code, known, id, scope1[i][id]) {
      assert id in scope[i];
    }
    forall i, j, x, y | 0 <= i < |scope1| && 0 <= j < |scope1| && x in scope1[i] && y in scope1[j] &&
      scope1[i][x].op == scope1[j][y].op && scope1[i][x].op.Res?
      ensures i == j && x == y
    {
      assert x in scope[i] && y in scope[j];
    }
  }

  lemma ExitReady(s: Build, known: Known, st: Memory, r: Ir.State)
    requires Ready(s, known, st, r) && |s.scope| > 1
    ensures st.scopes != [] && Ready(Exit(s), known, st.(scopes := st.scopes[..|st.scopes| - 1]), r)
  {
    hide Sound, BindingOk, Grown, Level;
    GrownSame(s, Exit(s)); GrownSound(s, Exit(s));
    var n := |s.scope| - 1;
    forall i | 0 <= i < n ensures Level(s.scope[..n][i], st.scopes[..n][i], r) {
      assert Level(s.scope[i], st.scopes[i], r);
    }
    ExitStatic(s.scope, s.code, known);
  }

  lemma ExitStatic(scope: seq<Bindings>, code: Code, known: Known)
    requires Static(scope, code, known) && scope != []
    ensures Static(scope[..|scope| - 1], code, known)
  {
    hide BindingOk;
    var scope1 := scope[..|scope| - 1];
    forall i, id | 0 <= i < |scope1| && id in scope1[i] ensures BindingOk(code, known, id, scope1[i][id]) {
      assert id in scope[i];
    }
    forall i, j, x, y | 0 <= i < |scope1| && 0 <= j < |scope1| && x in scope1[i] && y in scope1[j] &&
      scope1[i][x].op == scope1[j][y].op && scope1[i][x].op.Res?
      ensures i == j && x == y
    {
      assert x in scope[i] && y in scope[j];
    }
  }

  lemma {:induction false} CompoundMeans(w: Ir.World, known: Known, all: Code, lists: Lists, s: Build,
      decls: seq<VarDecl>, body: seq<Stmt>, st: Memory, r: Ir.State, fuel: nat) returns (r1: Ir.State)
    requires Ir.Arithmetic(w) && FlatLoops(Compound(decls, body)) && Ready(s, known, st, r)
    requires var s1 := VisitStmt(s, Compound(decls, body)); s1.ok && CodeIn(s1.code, all) && Fits(s, s1, lists)
    ensures Does(w, known, all, lists, fuel, s, VisitStmt(s, Compound(decls, body)),
      Cminus.Run(w, known, st, Compound(decls, body), fuel), r, r1)
    decreases fuel, Compound(decls, body), 1
  {
    hide Static, CodeIn, Leads, Ends, Grown, Does, Sound, Fits, Here, Ready, VisitStmts, VisitDecls, Declare, RunAll;
    var s1 := Enter(s);
    var s2 := VisitDecls(s1, decls);
    var s3 := VisitStmts(s2, body);
    var s4 := Exit(s3);
    ReadySound(s, known, st, r);
    CompoundFits(s, decls, body, all, lists);
    var st0 := st.(scopes := st.scopes + [map[]]);
    EnterReady(s, known, st, r);
    DoesSame(w, known, all, lists, fuel, s, s1, st0, r);
    var q := DeclsMean(w, known, all, lists, fuel, s1, decls, st0, r);
    var st1 := Declare(w, st0, decls);
    DoesReady(w, known, all, lists, fuel, s1, s2, st1, r, q);
    DeclsScope(s1, decls);
    r1 := StmtsMean(w, known, all, lists, s2, body, st1, q, fuel);
    var res := RunAll(w, known, st1, body, fuel);
    DoesThen(w, known, all, lists, fuel, s, s1, s2, st0, Normal(st1), r, r, q);
    DoesThen(w, known, all, lists, fuel, s, s2, s3, st1, res, r, q, r1);
    StmtsScope(s2, body);
    LeaveMeans(w, known, all, lists, fuel, s, s3, s4, res, r, r1);
  }

  // The parts of a compound statement in the finished function.
  lemma {:induction false} CompoundFits(s: Build, decls: seq<VarDecl>, body: seq<Stmt>, all: Code, lists: Lists)
    requires Sound(s)
    requires var s1 := VisitStmt(s, Compound(decls, body)); s1.ok && CodeIn(s1.code, all) && Fits(s, s1, lists)
    ensures var s1 := Enter(s); var s2 := VisitDecls(s1, decls); var s3 := VisitStmts(s2, body); var s4 := Exit(s3);
            && Sound(s1) && Sound(s2) && s2.ok && s3.ok && CodeIn(s2.code, all) && CodeIn(s3.code, all)
            && Fits(s1, s2, lists) && Fits(s2, s3, lists) && Here(s, lists) && Here(s1, lists) && Here(s3, lists) &&
                 Here(s4, lists)
  {
    hide CodeIn, Grown, Sound, Fits, Here, VisitStmts, VisitDecls;
    var s1 := Enter(s);
    var s2 := VisitDecls(s1, decls);
    var s3 := VisitStmts(s2, body);
    var s4 := Exit(s3);
    GrownSame(s, s1); GrownFacts(s, s1);
    DeclsGrown(s1, decls); GrownFacts(s1, s2);
    StmtsGrown(s2, body); GrownFacts(s2, s3);
    GrownSame(s3, s4); GrownFacts(s3, s4);
    GrownTrans(s, s1, s2); GrownTrans(s, s2, s3);
    CodeInTrans(s3.code, s4.code, all); CodeInTrans(s2.code, s3.code, all);
    FitsFirst(s, s3, s4, lists); FitsFirst(s, s2, s3, lists); FitsFirst(s, s1, s2, lists);
    FitsHere(s, s1, lists); FitsHere(s3, s4, lists);
  }

  lemma {:induction false} LeaveMeans(w: Ir.World, known: Known, all: Code, lists: Lists, fuel: nat, s: Build,
      s3: Build, s4: Build, res: Result, r: Ir.State, r1: Ir.State)
    requires Does(w, known, all, lists, fuel, s, s3, res, r, r1) && s4 == Exit(s3) && Here(s3, lists) &&
      Here(s4, lists) && |s3.scope| > 1
    ensures Does(w, known, all, lists, fuel, s, s4, Leave(res), r, r1)
  {
    hide Leads, Ends, Does, Here, Ready;
    if res.Normal? {
      DoesReady(w, known, all, lists, fuel, s, s3, res.st, r, r1);
      ExitReady(s3, known, res.st, r1);
      DoesSame(w, known, all, lists, fuel, s3, s4, res.st.(scopes := res.st.scopes[..|res.st.scopes| - 1]), r1);
      DoesThen(w, known, all, lists, fuel, s, s3, s4, res.st, Leave(res), r, r1, r1);
    } else {
      DoesStops(w, known, all, lists, fuel, s, s3, s4, res, r, r1);
    }
  }

  // ---- Conditional statements ----

  // What an arm of a conditional statement does between its block t and the block behind.
  ghost predicate ArmDoes(w: Ir.World, all: Code, lists: Lists, fuel: nat, scope: seq<Bindings>, t: Block,
      next: Block, res: Result, r: Ir.State, r1: Ir.State) {
    && t in lists && next in lists
    && match res
       case Normal(st1) => Leads(w, all, lists, lists[t], r, lists[next], r1) && Agrees(scope, st1, r1)
       case Returned(v, tr) => Ends(w, all, lists, lists[t], r, v, tr)
       case NoFuel => Lasts(w, all, lists, lists[t], r, fuel)
       case Wrong => true
  }

  lemma {:induction false} ArmMeans(w: Ir.World, known: Known, all: Code, lists: Lists, a: Build, arm: Stmt,
      next: Block, st: Memory, r: Ir.State, fuel: nat)
    returns (r1: Ir.State)
    requires Ir.Arithmetic(w) && FlatLoops(arm) && Ready(a, known, st, r) &&
      a.List(a.cur) == []
    requires var b := VisitStmt(a, arm);
             && b.ok && CodeIn(Br(b, next).code, all) && Fits(a, b, lists) && next in lists
             && b.cur in lists && b.List(b.cur) + [b.nextId] <= lists[b.cur]
    ensures ArmDoes(w, all, lists, fuel, a.scope, a.cur, next, Cminus.Run(w, known, st, arm, fuel), r, r1)
    decreases fuel, arm, 4
  {
    hide Static, CodeIn, Leads, Ends, Grown, Sound, Fits, Ready, VisitStmt, Cminus.Run, Br, Agrees;
    var b := VisitStmt(a, arm);
    ReadySound(a, known, st, r);
    StmtGrown(a, arm); GrownFacts(a, b);
    BrCode(b, next);
    CodeInTrans(b.code, Br(b, next).code, all);
    r1 := StmtMeans(w, known, all, lists, a, arm, st, r, fuel);
    var res := Cminus.Run(w, known, st, arm, fuel);
    assert lists[a.cur][0..] == lists[a.cur];
    if res.Normal? {
      JumpFrom(w, all, lists, b, next, r1);
      LeadsTrans(w, all, lists, lists[a.cur], r, Rest(b, lists), r1, lists[next], r1);
      StmtScope(a, arm);
      ReadyAgrees(b, known, res.st, r1);
    }
  }

  lemma ReadyAgrees(s: Build, known: Known, st: Memory, r: Ir.State)
    requires Ready(s, known, st, r)
    ensures Agrees(s.scope, st, r) && Static(s.scope, s.code, known) && s.ret == Lower(known.ret)
  {
  }

  // The branch into an arm, the arm, and the way to the end of the statement.
  lemma {:induction false} BranchDone(w: Ir.World, known: Known, all: Code, lists: Lists, fuel: nat, s: Build,
      end: Build, t: Block, res: Result, r: Ir.State, r1: Ir.State)
    requires Here(s, lists) && Here(end, lists) && t in lists && Leads(w, all, lists, Rest(s, lists), r, lists[t], r)
    requires ArmDoes(w, all, lists, fuel, s.scope, t, end.cur, res, r, r1) && end.List(end.cur) == []
    requires Sound(end) && Static(s.scope, s.code, known) && SameScope(s, end) && CodeIn(s.code, end.code) &&
      s.ret == Lower(known.ret)
    ensures Does(w, known, all, lists, fuel, s, end, res, r, r1)
  {
    hide Leads, Ends, Sound, Static, CodeIn, Agrees;
    assert lists[end.cur][0..] == lists[end.cur];
    match res
    case Normal(st1) =>
      LeadsTrans(w, all, lists, Rest(s, lists), r, lists[t], r, lists[end.cur], r1);
      StaticLater(s.scope, s.code, end.code, known);
    case Returned(v, tr) => LeadsEnds(w, all, lists, Rest(s, lists), r, lists[t], r, v, tr);
    case NoFuel => LeadsLasts(w, all, lists, Rest(s, lists), r, lists[t], r, fuel);
    case Wrong =>
  }

  // Where the blocks of a statement with one arm stand.
  lemma {:induction false} OneArmShape(s: Build, c: Operand, node: Stmt, n2: Build, a: Build, b: Build, end: Build,
      t: Block, next: Block)
    requires Sound(s) && node.Selection? && node.elseS.None? && t == s.nextBlock && next == s.nextBlock + 1
    requires n2 == NewBlock(NewBlock(s)) && a == At(CondBr(n2, c, t, next), t) && b == VisitStmt(a, node.thenS) &&
      end == At(Br(b, next), next)
    ensures end == VisitBranches(s, c, node) && Grown(s, end) && Grown(a, b) && Sound(a) && Sound(b)
    ensures b.cur == t || b.cur !in a.g.blocks
  {
    hide From, Extends, NewFrom, MoreEdges, VisitStmt, FromSome, CondBr, NewBlock, Br, Sound;
    ForkRegion(s, c);
    NextBlocks(s);
    SoundAt(s, CondBr(n2, c, t, next), s.cur, {s.cur}, t);
    StmtGrown(a, node.thenS); GrownFacts(a, b);
    GrownKept(a, b);
    OneArmGrown(s, c, node);
  }

  lemma {:induction false} OneArmCode(s: Build, c: Operand, n2: Build, a: Build, b: Build, j: Build, end: Build,
      t: Block, next: Block)
    requires Sound(s) && t == s.nextBlock && next == s.nextBlock + 1 && Sound(a) && Sound(b) && Grown(a, b)
    requires n2 == NewBlock(NewBlock(s)) && a == At(CondBr(n2, c, t, next), t) && j == Br(b, next) && end == At(j, next)
    ensures CodeIn(s.code, a.code) && CodeIn(CondBr(n2, c, t, next).code, end.code) && CodeIn(j.code, end.code) &&
      end.ok == b.ok
    ensures SameScope(s, a)
  {
    hide CondBr, NewBlock, Br, Sound, Grown, CodeIn;
    ForkLists(s, c, n2, CondBr(n2, c, t, next), t, next);
    GrownFacts(a, b);
    BrCode(b, next);
    CodeInTrans(a.code, b.code, j.code);
    CodeInSelf(j.code);
  }

  lemma {:induction false} OneArmLists(s: Build, c: Operand, n2: Build, a: Build, b: Build, j: Build, end: Build,
      t: Block, next: Block)
    requires Sound(s) && t == s.nextBlock && next == s.nextBlock + 1 && Grown(a, b) &&
      (b.cur == t || b.cur !in a.g.blocks)
    requires n2 == NewBlock(NewBlock(s)) && a == At(CondBr(n2, c, t, next), t) && j == Br(b, next) && end == At(j, next)
    ensures a.List(t) == [] && end.List(next) == [] && n2.cur == s.cur && n2.List(s.cur) == s.List(s.cur) &&
      n2.nextId == s.nextId
    ensures end.List(s.cur) == s.List(s.cur) + [s.nextId] && end.List(b.cur) == b.List(b.cur) + [b.nextId]
    ensures Kept(b, end, {b.cur}) && b.cur in end.g.blocks && t in end.g.blocks && s.cur in end.g.blocks &&
      next in end.g.blocks
    ensures t !in s.g.blocks && next !in s.g.blocks && next in a.g.blocks && s.cur != next &&
      forall x :: x in s.g.blocks ==> x in a.g.blocks
  {
    hide CondBr, NewBlock, Br, Sound, Grown;
    ForkLists(s, c, n2, CondBr(n2, c, t, next), t, next);
    NewNotOld(s, t, next);
    GrownKept(a, b);
    BrKept(b, next);
    assert next in a.g.blocks && s.cur in a.g.blocks && t in a.g.blocks;
  }

  lemma {:induction false} FitsArm(s: Build, a: Build, b: Build, end: Build, lists: Lists, m: set<Block>)
    requires Fits(s, end, lists) && Grown(a, b) && Kept(b, end, m) && a.cur !in s.g.blocks
    requires forall x :: x in s.g.blocks ==> x in a.g.blocks
    requires forall x :: x in m && x in b.g.blocks && (x == a.cur || x !in a.g.blocks) ==> x == b.cur
    requires end.cur in a.g.blocks && end.cur != a.cur
    ensures Fits(a, b, lists)
  {
    hide Grown;
    FitsInner(s, a, b, end, lists, m);
  }

  lemma {:induction false} OneArmMeans(w: Ir.World, known: Known, all: Code, lists: Lists, s: Build, c: Operand,
      node: Stmt, st: Memory, r: Ir.State, fuel: nat)
    returns (r1: Ir.State)
    requires node.Selection? && node.elseS.None? && FlatLoops(node.thenS) && Ir.Arithmetic(w) &&
      Ready(s, known, st, r)
    requires var end := VisitBranches(s, c, node); end.ok && CodeIn(end.code, all) && Fits(s, end, lists)
    requires Ir.Eval(w, r.env, c).V?
    ensures Does(w, known, all, lists, fuel, s, VisitBranches(s, c, node),
                 if Ir.Eval(w, r.env, c).n != 0 then Cminus.Run(w, known, st, node.thenS, fuel) else Normal(st), r, r1)
    decreases fuel, node, 0
  {
    hide *;
    var t, next := s.nextBlock, s.nextBlock + 1;
    var n2 := NewBlock(NewBlock(s));
    var fk := CondBr(n2, c, t, next);
    var a := At(fk, t);
    var b := VisitStmt(a, node.thenS);
    var j := Br(b, next);
    var end := At(j, next);
    AtIs(fk, t);
    AtIs(j, next);
    ReadySound(s, known, st, r);
    OneArmShape(s, c, node, n2, a, b, end, t, next);
    OneArmCode(s, c, n2, a, b, j, end, t, next);
    OneArmLists(s, c, n2, a, b, j, end, t, next);
    FitsArm(s, a, b, end, lists, {b.cur});
    FitsAt(s, end, lists, s.cur); FitsAt(s, end, lists, t); FitsAt(s, end, lists, next); FitsAt(s, end, lists, b.cur);
    CodeInTrans(fk.code, end.code, all); CodeInTrans(j.code, end.code, all);
    ForkFrom(w, all, lists, n2, c, t, next, r);
    RestSame(n2, s, lists);
    ReadyLater(s, a, known, st, r);
    GrownFacts(s, end);
    ReadyAgrees(s, known, st, r);
    BranchesScope(s, c, node);
    SameScopeIs(s, a); SameScopeIs(s, end);
    HereIs(end, lists, []);
    if Ir.Eval(w, r.env, c).n != 0 {
      r1 := ArmMeans(w, known, all, lists, a, node.thenS, next, st, r, fuel);
      BranchDone(w, known, all, lists, fuel, s, end, t, Cminus.Run(w, known, st, node.thenS, fuel), r, r1);
    } else {
      r1 := r;
      SkipArm(w, all, lists, fuel, s.scope, next, st, r);
      BranchDone(w, known, all, lists, fuel, s, end, next, Normal(st), r, r);
    }
  }

  lemma {:induction false} SkipArm(w: Ir.World, all: Code, lists: Lists, fuel: nat, scope: seq<Bindings>, next: Block,
      st: Memory, r: Ir.State)
    requires next in lists && Agrees(scope, st, r)
    ensures ArmDoes(w, all, lists, fuel, scope, next, next, Normal(st), r, r)
  {
    hide Agrees, Ir.Exec;
    LeadsSame(w, all, lists, lists[next], r, lists[next], r);
  }

  // ---- Two arms ----

  lemma {:induction false} FirstArmShape(s: Build, c: Operand, arm: Stmt, n3: Build, fk: Build, a: Build, b: Build,
      j: Build, t: Block, next: Block, f: Block)
    requires Sound(s) && t == s.nextBlock && next == s.nextBlock + 1 && f == s.nextBlock + 2
    requires n3 == NewBlock(NewBlock(NewBlock(s))) && fk == CondBr(n3, c, t, f) && a == At(fk, t) &&
      b == VisitStmt(a, arm) && j == Br(b, next)
    ensures Grown(a, b) && Sound(a) && Sound(b) && Sound(At(j, f))
  {
    hide From, Extends, NewFrom, MoreEdges, VisitStmt, FromSome, CondBr, NewBlock, Br, Sound;
    var x := s.cur;
    ThreeRegion(s, c, n3, fk, t, next, f);
    SoundAt(s, fk, x, {x, next}, t);
    StmtGrown(a, arm); GrownFacts(a, b);
    ArmRegion(s, x, fk, {x, next}, t, arm, next);
    SoundAt(s, j, x, {x, next}, f);
  }

  lemma {:induction false} TwoArmsShape(s: Build, c: Operand, node: Stmt, n3: Build, a: Build, b: Build, a2: Build,
      b2: Build, end: Build, t: Block, next: Block, f: Block)
    requires Sound(s) && node.Selection? && node.elseS.Some? && t == s.nextBlock && next == s.nextBlock + 1 &&
      f == s.nextBlock + 2
    requires n3 == NewBlock(NewBlock(NewBlock(s))) && a == At(CondBr(n3, c, t, f), t) && b == VisitStmt(a, node.thenS)
    requires a2 == At(Br(b, next), f) && b2 == VisitStmt(a2, node.elseS.value) && end == At(Br(b2, next), next)
    ensures end == VisitBranches(s, c, node) && Grown(s, end) && Grown(a, b) && Grown(a2, b2) && Sound(a) &&
      Sound(b) && Sound(a2) && Sound(b2)
  {
    hide Region, VisitStmt, CondBr, NewBlock, Br, Sound, Grown;
    NextBlocks(s);
    FirstArmShape(s, c, node.thenS, n3, CondBr(n3, c, t, f), a, b, Br(b, next), t, next, f);
    StmtGrown(a2, node.elseS.value); GrownFacts(a2, b2);
    TwoArmsGrown(s, c, node);
  }

  lemma {:induction false} ThreeLists(s: Build, c: Operand, n3: Build, s1: Build, t: Block, next: Block, f: Block)
    requires Sound(s) && n3 == NewBlock(NewBlock(NewBlock(s))) && s1 == CondBr(n3, c, t, f)
    requires t == s.nextBlock && next == s.nextBlock + 1 && f == s.nextBlock + 2
    ensures s1.List(t) == [] && s1.List(f) == [] && s1.List(next) == [] &&
      s1.List(s.cur) == s.List(s.cur) + [s.nextId] && CodeIn(s.code, s1.code)
    ensures n3.cur == s.cur && n3.List(s.cur) == s.List(s.cur) && n3.nextId == s.nextId
    ensures s1.g.blocks == s.g.blocks + [t, next, f] && s1.ok == s.ok && SameScope(s, s1)
  {
    hide Sound, CondBr;
    SoundFacts(s);
    NewNotOld(s, t, f);
    NewNotOld(s, t, next);
    CondBrKept(n3, c, t, f);
  }

  lemma {:induction false} TwoArmsCode(s: Build, c: Operand, n3: Build, a: Build, b: Build, a2: Build, b2: Build,
      end: Build, t: Block, next: Block, f: Block)
    requires Sound(s) && t == s.nextBlock && next == s.nextBlock + 1 && f == s.nextBlock + 2
    requires Sound(a) && Sound(b) && Grown(a, b) && Sound(a2) && Sound(b2) && Grown(a2, b2)
    requires n3 == NewBlock(NewBlock(NewBlock(s))) && a == At(CondBr(n3, c, t, f), t) && a2 == At(Br(b, next), f) &&
      end == At(Br(b2, next), next)
    ensures CodeIn(s.code, a.code) && CodeIn(CondBr(n3, c, t, f).code, end.code) &&
      CodeIn(Br(b, next).code, end.code) && CodeIn(Br(b2, next).code, end.code)
    ensures CodeIn(s.code, a2.code) && (end.ok ==> b.ok && b2.ok)
  {
    hide CondBr, NewBlock, Br, Sound, Grown, CodeIn;
    ThreeLists(s, c, n3, CondBr(n3, c, t, f), t, next, f);
    GrownFacts(a, b);
    BrCode(b, next);
    GrownFacts(a2, b2);
    BrCode(b2, next);
    CodeInTrans(a.code, b.code, a2.code);
    CodeInTrans(s.code, a.code, a2.code);
    CodeInTrans(a2.code, b2.code, end.code);
    CodeInTrans(a.code, a2.code, end.code);
    CodeInSelf(end.code);
  }

  lemma {:induction false} TwoArmsLists(s: Build, c: Operand, n3: Build, a: Build, b: Build, a2: Build, b2: Build,
      end: Build, t: Block, next: Block, f: Block)
    requires Sound(s) && t == s.nextBlock && next == s.nextBlock + 1 && f == s.nextBlock + 2 && Grown(a, b) &&
      Grown(a2, b2)
    requires n3 == NewBlock(NewBlock(NewBlock(s))) && a == At(CondBr(n3, c, t, f), t) && a2 == At(Br(b, next), f) &&
      end == At(Br(b2, next), next)
    ensures a.List(t) == [] && a2.List(f) == [] && end.List(next) == [] && n3.cur == s.cur &&
      n3.List(s.cur) == s.List(s.cur) && n3.nextId == s.nextId
    ensures end.List(s.cur) == s.List(s.cur) + [s.nextId]
    ensures end.List(b.cur) == b.List(b.cur) + [b.nextId] && end.List(b2.cur) == b2.List(b2.cur) + [b2.nextId]
    ensures Kept(b, end, {b.cur, f, b2.cur}) && Kept(b2, end, {b2.cur})
    ensures b.cur in end.g.blocks && b2.cur in end.g.blocks && t in end.g.blocks && f in end.g.blocks &&
      s.cur in end.g.blocks && next in end.g.blocks
    ensures t !in s.g.blocks && next !in s.g.blocks && f !in s.g.blocks && next in a.g.blocks &&
      next in a2.g.blocks && f in a.g.blocks && next != t && next != f && f != t
    ensures (b.cur == t || b.cur !in a.g.blocks) && (b2.cur == f || b2.cur !in a2.g.blocks) &&
      forall x :: x in s.g.blocks ==> x in a.g.blocks && x in a2.g.blocks
    ensures forall x :: x in b.g.blocks ==> x in a2.g.blocks
  {
    hide CondBr, NewBlock, Br, Sound, Grown, Kept;
    ThreeLists(s, c, n3, CondBr(n3, c, t, f), t, next, f);
    NewNotOld(s, t, next);
    NewNotOld(s, t, f);
    GrownKept(a, b);
    BrKept(b, next);
    GrownKept(a2, b2);
    BrKept(b2, next);
    assert next in a.g.blocks && s.cur in a.g.blocks && t in a.g.blocks && f in a.g.blocks;
    KeptAt(b, Br(b, next), a2, {b.cur});
    KeptAt(b2, Br(b2, next), end, {b2.cur});
    KeptLists(a, b, {t}); KeptLists(b, a2, {b.cur}); KeptLists(a2, b2, {f}); KeptLists(b2, end, {b2.cur});
    KeptTrans(b, a2, b2, {b.cur}, {f});
    KeptTrans(b, b2, end, {b.cur} + {f}, {b2.cur});
    assert {b.cur} + {f} + {b2.cur} == {b.cur, f, b2.cur};
  }

  lemma KeptAt(s: Build, s1: Build, s2: Build, m: set<Block>)
    requires Kept(s, s1, m) && s2.lists == s1.lists && s2.g == s1.g
    ensures Kept(s, s2, m) && forall x :: s2.List(x) == s1.List(x)
  {
  }

  lemma KeptLists(s: Build, s1: Build, m: set<Block>)
    requires Kept(s, s1, m)
    ensures forall x :: x in s.g.blocks ==> x in s1.g.blocks && (x !in m ==> s1.List(x) == s.List(x))
  {
  }

  lemma {:induction false} TwoArmsMeans(w: Ir.World, known: Known, all: Code, lists: Lists, s: Build, c: Operand,
      node: Stmt, st: Memory, r: Ir.State, fuel: nat)
    returns (r1: Ir.State)
    requires node.Selection? && node.elseS.Some? && FlatLoops(node.thenS) &&
      FlatLoops(node.elseS.value) && Ir.Arithmetic(w)
    requires Ready(s, known, st, r)
    requires var end := VisitBranches(s, c, node); end.ok && CodeIn(end.code, all) && Fits(s, end, lists)
    requires Ir.Eval(w, r.env, c).V?
    ensures Does(w, known, all, lists, fuel, s, VisitBranches(s, c, node),
                 Cminus.Run(w, known, st, if Ir.Eval(w, r.env, c).n != 0 then node.thenS else node.elseS.value, fuel),
                   r, r1)
    decreases fuel, node, 0
  {
    hide *;
    var t, next, f := s.nextBlock, s.nextBlock + 1, s.nextBlock + 2;
    var n3 := NewBlock(NewBlock(NewBlock(s)));
    var fk := CondBr(n3, c, t, f);
    var a := At(fk, t);
    var b := VisitStmt(a, node.thenS);
    var j := Br(b, next);
    var a2 := At(j, f);
    var b2 := VisitStmt(a2, node.elseS.value);
    var j2 := Br(b2, next);
    var end := At(j2, next);
    AtIs(fk, t); AtIs(j, f); AtIs(j2, next);
    ReadySound(s, known, st, r);
    TwoArmsShape(s, c, node, n3, a, b, a2, b2, end, t, next, f);
    TwoArmsCode(s, c, n3, a, b, a2, b2, end, t, next, f);
    TwoArmsLists(s, c, n3, a, b, a2, b2, end, t, next, f);
    FitsArm(s, a, b, end, lists, {b.cur, f, b2.cur});
    FitsArm(s, a2, b2, end, lists, {b2.cur});
    FitsAt(s, end, lists, s.cur); FitsAt(s, end, lists, t); FitsAt(s, end, lists, f); FitsAt(s, end, lists, next);
    CurOutside(s, a, b, t); CurOutside(s, a2, b2, f);
    FitsAt(s, end, lists, b.cur); FitsAt(s, end, lists, b2.cur);
    CodeInTrans(fk.code, end.code, all); CodeInTrans(j.code, end.code, all); CodeInTrans(j2.code, end.code, all);
    ForkFrom(w, all, lists, n3, c, t, f, r);
    RestSame(n3, s, lists);
    ThreeLists(s, c, n3, fk, t, next, f);
    TwoScopes(s, c, node, fk, a, b, j, a2, end, t, next, f);
    ReadyLater(s, a, known, st, r);
    ReadyLater(s, a2, known, st, r);
    GrownFacts(s, end);
    ReadyAgrees(s, known, st, r);
    SameScopeIs(s, a); SameScopeIs(s, end);
    SameScopeIs(s, a2);
    HereIs(end, lists, []);
    if Ir.Eval(w, r.env, c).n != 0 {
      r1 := ArmMeans(w, known, all, lists, a, node.thenS, next, st, r, fuel);
      BranchDone(w, known, all, lists, fuel, s, end, t, Cminus.Run(w, known, st, node.thenS, fuel), r, r1);
    } else {
      r1 := ArmMeans(w, known, all, lists, a2, node.elseS.value, next, st, r, fuel);
      BranchDone(w, known, all, lists, fuel, s, end, f, Cminus.Run(w, known, st, node.elseS.value, fuel), r, r1);
    }
  }

  lemma CurOutside(s: Build, a: Build, b: Build, t: Block)
    requires (b.cur == t || b.cur !in a.g.blocks) && t !in s.g.blocks && forall x :: x in s.g.blocks ==> x in a.g.blocks
    ensures b.cur !in s.g.blocks
  {
  }

  lemma {:induction false} TwoScopes(s: Build, c: Operand, node: Stmt, fk: Build, a: Build, b: Build, j: Build,
      a2: Build, end: Build, t: Block, next: Block, f: Block)
    requires node.Selection? && SameScope(s, fk) && a == At(fk, t) && b == VisitStmt(a, node.thenS) &&
      j == Br(b, next) && a2 == At(j, f)
    requires end == VisitBranches(s, c, node)
    ensures SameScope(s, a) && SameScope(s, a2) && SameScope(s, end)
  {
    hide VisitStmt, VisitBranches;
    BranchesScope(s, c, node);
    StmtScope(a, node.thenS);
  }

  lemma {:induction false} SelectionMeans(w: Ir.World, known: Known, all: Code, lists: Lists, s: Build, node: Stmt,
      st: Memory, r: Ir.State, fuel: nat)
    returns (r1: Ir.State)
    requires node.Selection? && Ir.Arithmetic(w) && FlatLoops(node) && Ready(s, known, st, r)
    requires var s1 := VisitStmt(s, node); s1.ok && CodeIn(s1.code, all) && Fits(s, s1, lists)
    ensures Does(w, known, all, lists, fuel, s, VisitStmt(s, node), Cminus.Run(w, known, st, node, fuel), r, r1)
    decreases fuel, node, 1
  {
    hide Static, CodeIn, Leads, Ends, Grown, Does, Sound, Fits, Here, Ready, VisitExpr, VisitBranches, EvalExpr,
      CompareWith0, Ir.Eval, Reached, Decides, Ir.Arithmetic;
    var e := VisitExpr(s, node.cond);
    var c := CompareWith0(e);
    var s2 := c.(value := e.value);
    var end := VisitBranches(s2, c.value.op, node);
    ReadySound(s, known, st, r);
    CondGrown(s, node.cond);
    BranchesGrown(s2, c.value.op, node); GrownFacts(s2, end);
    GrownTrans(s, s2, end);
    FitsFirst(s, s2, end, lists);
    FitsHere(s, s2, lists); FitsHere(s2, end, lists);
    CodeInTrans(s2.code, end.code, all);
    var ev := EvalExpr(w, known, st, node.cond);
    if ev.Gives? && Decides(w.floats, ev.ty, ev.v).Some? {
      var q := CondMeans(w, known, all, lists, s, node.cond, st, r);
      DoesReached(w, known, all, lists, fuel, s, s2, ev.st, r, q);
      ExprScope(s, node.cond);
      CompareScope(e);
      if node.elseS.None? {
        r1 := OneArmMeans(w, known, all, lists, s2, c.value.op, node, ev.st, q, fuel);
      } else {
        r1 := TwoArmsMeans(w, known, all, lists, s2, c.value.op, node, ev.st, q, fuel);
      }
      DoesThen(w, known, all, lists, fuel, s, s2, end, ev.st, Cminus.Run(w, known, st, node, fuel), r, q, r1);
    } else {
      r1 := r;
      DoesNothing(w, known, all, lists, fuel, s, end, Wrong, r);
    }
  }

  // ---- Loops ----

  function LoopHead(s: Build): Build {
    At(Br(NewBlock(s), s.nextBlock), s.nextBlock)
  }

  // After the condition, which is left in the operand.
  function LoopTest(s: Build, node: Stmt): (Build, Operand)
    requires node.Iteration?
  {
    var e := VisitExpr(LoopHead(s), node.cond);
    var c := CompareWith0(e);
    (c.(value := e.value), c.value.op)
  }

  // Before and after the body.
  function LoopBody(s: Build, node: Stmt): Build
    requires node.Iteration?
  {
    At(NewBlock(LoopTest(s, node).0), LoopTest(s, node).0.nextBlock)
  }

  function LoopBack(s: Build, node: Stmt): Build
    requires node.Iteration?
  {
    VisitStmt(LoopBody(s, node), node.s)
  }

  // Before the branch in the head that ends the loop.
  function LoopFork(s: Build, node: Stmt): Build
    requires node.Iteration?
  {
    At(NewBlock(Br(LoopBack(s, node), s.nextBlock)), s.nextBlock)
  }

  lemma LoopIs(s: Build, node: Stmt)
    requires node.Iteration?
    ensures var t := LoopTest(s, node); var end := Br(LoopBack(s, node), s.nextBlock).nextBlock;
            VisitStmt(s, node) == At(CondBr(LoopFork(s, node), t.1, t.0.nextBlock, end), end)
  {
    hide VisitExpr, CompareWith0, NewBlock, Br, CondBr, Lowering.At;
  }

  lemma LoopShape(s: Build, node: Stmt)
    requires Sound(s) && node.Iteration?
    ensures Sound(LoopHead(s)) && Grown(LoopHead(s), LoopTest(s, node).0) && Sound(LoopTest(s, node).0) &&
      Sound(LoopBody(s, node))
    ensures Grown(LoopBody(s, node), LoopBack(s, node)) && Grown(s, VisitStmt(s, node)) && Sound(LoopBack(s, node))
  {
    hide Region, From, NewBlock, Br, VisitExpr, CompareWith0, Grown, Sound, VisitStmt;
    var s1 := LoopHead(s);
    HeadRegion(s);
    SoundOf(s, s1, s.cur, {s.cur});
    var e := VisitExpr(s1, node.cond);
    var c := CompareWith0(e);
    var s2 := c.(value := e.value);
    ExprGrown(s1, node.cond); GrownSound(s1, e);
    CompareGrown(e); GrownSound(e, c);
    GrownSame(c, s2); GrownSound(c, s2);
    GrownTrans(s1, e, c); GrownTrans(s1, c, s2);
    AtNewSound(s2);
    StmtGrown(LoopBody(s, node), node.s); GrownSound(LoopBody(s, node), LoopBack(s, node));
    StmtGrown(s, node);
  }

  lemma AtNewSound(s: Build)
    requires Sound(s)
    ensures Sound(At(NewBlock(s), s.nextBlock))
  {
    hide MoreEdges, Graph.Valid, SuccsDistinct;
    NewBlockSound(s);
    NewBlockIs(s);
  }

  lemma LoopCode(s: Build, node: Stmt)
    requires Sound(s) && node.Iteration?
    ensures var fin := VisitStmt(s, node);
            && CodeIn(LoopTest(s, node).0.code, LoopBody(s, node).code) && CodeIn(s.code, LoopHead(s).code)
            && CodeIn(Br(NewBlock(s), s.nextBlock).code, fin.code) &&
                 CodeIn(Br(LoopBack(s, node), s.nextBlock).code, fin.code)
            && CodeIn(LoopTest(s, node).0.code, fin.code) && (fin.ok ==> LoopBack(s, node).ok && LoopTest(s, node).0.ok)
            && SameScope(s, LoopHead(s)) && SameScope(s, LoopBody(s, node)) && SameScope(s, fin)
  {
    hide VisitExpr, CompareWith0, Grown, Sound, VisitStmt, NewBlock, Br, CondBr, CodeIn;
    LoopShape(s, node);
    LoopIs(s, node);
    var t := LoopTest(s, node);
    var a, v, h := LoopBody(s, node), LoopBack(s, node), LoopFork(s, node);
    var j := Br(v, s.nextBlock);
    NewBlockCode(s); NewBlockCode(t.0); NewBlockCode(j);
    NewBlockFresh(s);
    BrCodeAt(NewBlock(s), s.nextBlock);
    BrCode(v, s.nextBlock);
    GrownFacts(a, v);
    GrownFacts(LoopHead(s), t.0);
    CondBrCode(v, s.nextBlock, h, t.1, t.0.nextBlock, j.nextBlock);
    CodeInTrans(LoopHead(s).code, t.0.code, a.code);
    CodeInTrans(a.code, v.code, j.code);
    CodeInTrans(j.code, h.code, VisitStmt(s, node).code);
    CodeInTrans(a.code, j.code, VisitStmt(s, node).code);
    CodeInTrans(LoopHead(s).code, a.code, VisitStmt(s, node).code);
    LoopScopes(s, node);
  }

  lemma NewBlockFresh(s: Build)
    requires Sound(s)
    ensures NewBlock(s).nextId !in NewBlock(s).code
  {
    SoundFacts(s);
  }

  lemma LoopScopes(s: Build, node: Stmt)
    requires node.Iteration?
    ensures SameScope(s, LoopHead(s)) && SameScope(s, LoopBody(s, node)) && SameScope(s, VisitStmt(s, node))
  {
    hide VisitExpr, CompareWith0, VisitStmt, NewBlock, Br;
    BranchScope(s, s.nextBlock, Ir.Const(0), s.nextBlock);
    BranchScope(NewBlock(s), s.nextBlock, Ir.Const(0), s.nextBlock);
    ExprScope(LoopHead(s), node.cond);
    CompareScope(VisitExpr(LoopHead(s), node.cond));
    var t := LoopTest(s, node).0;
    BranchScope(t, t.nextBlock, Ir.Const(0), t.nextBlock);
    StmtScope(s, node);
  }

  lemma BrCodeAt(s: Build, b: Block)
    requires s.nextId !in s.code
    ensures CodeIn(s.code, Br(s, b).code) && Br(s, b).ok == s.ok
  {
  }

  // The code of v survives the branch back, the new block and the branch in the head.
  lemma {:induction false} CondBrCode(v: Build, w: Block, h: Build, c: Operand, b: Block, end: Block)
    requires Sound(v) && h == At(NewBlock(Br(v, w)), w)
    ensures CodeIn(h.code, CondBr(h, c, b, end).code) && CondBr(h, c, b, end).ok == h.ok &&
      CodeIn(Br(v, w).code, h.code) && h.ok == v.ok
  {
    hide Sound, CondBr, Kept;
    SoundFacts(v);
    CondBrKept(h, c, b, end);
  }

  // The instruction lists of the blocks of a loop.
  lemma {:induction false} LoopLists(s: Build, node: Stmt)
    requires Sound(s) && node.Iteration?
    ensures var w, t, a, v, h :=
      s.nextBlock, LoopTest(s, node).0, LoopBody(s, node), LoopBack(s, node), LoopFork(s, node);
            var fin := VisitStmt(s, node);
            && w !in s.g.blocks && a.cur !in s.g.blocks && fin.cur !in s.g.blocks && w in fin.g.blocks &&
                 a.cur in fin.g.blocks && fin.cur in fin.g.blocks
            && s.cur in fin.g.blocks && v.cur in fin.g.blocks && v.cur !in s.g.blocks
            && fin.List(s.cur) == s.List(s.cur) + [s.nextId] && fin.List(fin.cur) == [] &&
                 LoopHead(s).List(w) == [] && a.List(a.cur) == []
            && fin.List(v.cur) == v.List(v.cur) + [v.nextId] && Kept(v, fin, {v.cur, w})
            && h.List(w) == t.List(w) && fin.List(w) == t.List(w) + [h.nextId]
            && a.cur == t.nextBlock && fin.cur == Br(v, w).nextBlock && fin.cur !in v.g.blocks && fin.cur != w &&
                 fin.cur != a.cur && v.cur != w
            && fin.cur != s.cur && fin.cur != v.cur && w != a.cur && w in a.g.blocks &&
                 forall x :: x in s.g.blocks ==> x in a.g.blocks
  {
    hide VisitExpr, CompareWith0, Grown, Sound, VisitStmt, NewBlock, Br, CondBr, Kept, LoopTest;
    var w := s.nextBlock;
    var t, a, v, h := LoopTest(s, node).0, LoopBody(s, node), LoopBack(s, node), LoopFork(s, node);
    var fin := VisitStmt(s, node);
    LoopShape(s, node);
    LoopIs(s, node);
    NewBlockLists(s);
    HeadLists(s);
    GrownKept(LoopHead(s), t);
    NewBlockLists(t);
    GrownKept(a, v);
    KeptLists(LoopHead(s), t, {w}); KeptLists(t, NewBlock(t), {}); KeptLists(a, v, {a.cur});
    assert w in LoopHead(s).g.blocks && w in t.g.blocks;
    TailLists(v, w, h, LoopTest(s, node).1, t.nextBlock, fin);
    KeptLists(v, fin, {v.cur, w});
  }

  lemma NewBlockLists(s: Build)
    requires Sound(s)
    ensures Kept(s, NewBlock(s), {}) && NewBlock(s).List(s.nextBlock) == [] && s.nextBlock !in s.g.blocks &&
      s.cur in s.g.blocks
    ensures NewBlock(s).g.blocks == s.g.blocks + [s.nextBlock] && NewBlock(s).cur == s.cur
  {
    hide Graph.Valid, SuccsDistinct, Arranged;
    NewNotOld(s, s.nextBlock, s.nextBlock);
  }

  lemma HeadLists(s: Build)
    requires Sound(s)
    ensures var s1 := LoopHead(s);
            && s1.List(s.cur) == s.List(s.cur) + [s.nextId] && s1.List(s.nextBlock) == [] && s1.cur == s.nextBlock
            && s1.g.blocks == s.g.blocks + [s.nextBlock]
  {
    hide Graph.Valid, SuccsDistinct, Arranged;
    NewNotOld(s, s.nextBlock, s.nextBlock);
  }

  lemma {:induction false} TailLists(v: Build, w: Block, h: Build, c: Operand, b: Block, fin: Build)
    requires Sound(v) && w in v.g.blocks && v.cur != w && h == At(NewBlock(Br(v, w)), w)
    requires var end := Br(v, w).nextBlock; fin == At(CondBr(h, c, b, end), end)
    ensures Kept(v, fin, {v.cur, w}) && fin.List(v.cur) == v.List(v.cur) + [v.nextId] &&
      fin.List(w) == v.List(w) + [h.nextId] && h.List(w) == v.List(w)
    ensures fin.List(fin.cur) == [] && fin.cur !in v.g.blocks && fin.cur in fin.g.blocks && v.cur in v.g.blocks
  {
    hide Sound, CondBr, Br, NewBlock;
    var j := Br(v, w);
    var n := NewBlock(j);
    NewNotOld(v, v.nextBlock, v.nextBlock);
    BrKept(v, w);
    NewBlockCode(j);
    SoundFacts(v);
    CondBrKept(h, c, b, j.nextBlock);
    TailIs(j, n, h, w, CondBr(h, c, b, j.nextBlock), j.nextBlock, fin);
  }

  lemma {:induction false} TailIs(j: Build, n: Build, h: Build, w: Block, cb: Build, end: Block, fin: Build)
    requires n == NewBlock(j) && h == At(n, w) && end == j.nextBlock && fin == At(cb, end) && cb.g.blocks == h.g.blocks
    ensures h.cur == w && h.nextId == j.nextId && fin.cur == end && fin.g.blocks == j.g.blocks + [end] &&
      h.g.blocks == j.g.blocks + [end]
    ensures (forall x :: fin.List(x) == cb.List(x)) && (forall x :: h.List(x) == n.List(x))
  {
  }

  // The rounds of a loop, from its head.
  lemma {:induction false} LoopRounds(w: Ir.World, known: Known, all: Code, lists: Lists, s: Build, node: Stmt,
      st: Memory, r: Ir.State, fuel: nat)
    returns (r1: Ir.State)
    requires node.Iteration? && Ir.Arithmetic(w) && FlatLoops(node) && Sound(s) &&
      Ready(LoopHead(s), known, st, r)
    requires var fin := VisitStmt(s, node); fin.ok && CodeIn(fin.code, all) && Fits(s, fin, lists)
    ensures ArmDoes(w, all, lists, fuel, s.scope, s.nextBlock, VisitStmt(s, node).cur,
      Cminus.Run(w, known, st, node, fuel), r, r1)
    decreases fuel, node, 1
  {
    hide *;
    var head, fin := s.nextBlock, VisitStmt(s, node);
    LoopShape(s, node);
    LoopLists(s, node);
    LoopCode(s, node);
    FitsAt(s, fin, lists, head); FitsAt(s, fin, lists, fin.cur);
    var t := LoopTest(s, node).0;
    CodeInTrans(t.code, fin.code, all);
    var ev := EvalExpr(w, known, st, node.cond);
    HeadRest(s, lists);
    r1 := r;
    if ev.Gives? && Decides(w.floats, ev.ty, ev.v).Some? {
      var q := TestMeans(w, known, all, lists, s, node, st, r);
      if !Decides(w.floats, ev.ty, ev.v).value {
        r1 := q;
        LoopEnds(w, known, all, lists, s, node, st, r, q, fuel);
      } else {
        r1 := LoopGoesOn(w, known, all, lists, s, node, st, r, q, fuel);
      }
    } else {
      LoopWrong(w, known, all, lists, s, node, st, r, fuel);
    }
  }

  lemma HeadRest(s: Build, lists: Lists)
    requires s.nextBlock in lists && LoopHead(s).List(s.nextBlock) == []
    ensures Here(LoopHead(s), lists) && Rest(LoopHead(s), lists) == lists[s.nextBlock]
  {
    assert lists[s.nextBlock][0..] == lists[s.nextBlock];
  }

  lemma {:induction false} LoopWrong(w: Ir.World, known: Known, all: Code, lists: Lists, s: Build, node: Stmt,
      st: Memory, r: Ir.State, fuel: nat)
    requires node.Iteration? && var ev := EvalExpr(w, known, st, node.cond);
      !(ev.Gives? && Decides(w.floats, ev.ty, ev.v).Some?)
    requires s.nextBlock in lists && VisitStmt(s, node).cur in lists
    ensures ArmDoes(w, all, lists, fuel, s.scope, s.nextBlock, VisitStmt(s, node).cur,
      Cminus.Run(w, known, st, node, fuel), r, r)
  {
    hide VisitStmt, EvalExpr, Decides;
  }

  // The condition, and the branch behind it.
  lemma {:induction false} TestMeans(w: Ir.World, known: Known, all: Code, lists: Lists, s: Build, node: Stmt,
      st: Memory, r: Ir.State) returns (q: Ir.State)
    requires node.Iteration? && Ir.Arithmetic(w) && FlatLoops(node) && Sound(s) && Ready(LoopHead(s), known, st, r)
    requires var fin := VisitStmt(s, node); fin.ok && CodeIn(fin.code, all) && Fits(s, fin, lists)
    requires var ev := EvalExpr(w, known, st, node.cond); ev.Gives? && Decides(w.floats, ev.ty, ev.v).Some?
    ensures var t := LoopTest(s, node).0; var ev := EvalExpr(w, known, st, node.cond); var fin := VisitStmt(s, node);
            var goes := Decides(w.floats, ev.ty, ev.v).value;
            && s.nextBlock in lists && t.nextBlock in lists && fin.cur in lists && Ready(t, known, ev.st, q)
            && Leads(w, all, lists, lists[s.nextBlock], r, lists[if goes then t.nextBlock else fin.cur], q)
            && Jumps(w, all, lists, lists[s.nextBlock], r, lists[if goes then t.nextBlock else fin.cur], q)
  {
    hide *;
    var fin, t, h := VisitStmt(s, node), LoopTest(s, node).0, LoopFork(s, node);
    var c := LoopTest(s, node).1;
    LoopShape(s, node);
    LoopLists(s, node);
    LoopCode(s, node);
    LoopIs(s, node);
    FitsAt(s, fin, lists, s.nextBlock); FitsAt(s, fin, lists, fin.cur); FitsAt(s, fin, lists, LoopBody(s, node).cur);
    CodeInTrans(t.code, fin.code, all);
    LoopTestIs(s, node);
    HeadRest(s, lists);
    ForkIs(s, node);
    TestFlat(s, node);
    HereIs(t, lists, [h.nextId]);
    FitsFlat(LoopHead(s), t, lists);
    q := CondMeans(w, known, all, lists, LoopHead(s), node.cond, st, r);
    ReachedLeads(w, all, lists, LoopHead(s), t, r, q);
    RestSame(t, h, lists);
    ForkFrom(w, all, lists, h, c, t.nextBlock, fin.cur, q);
    LeadsTrans(w, all, lists, lists[s.nextBlock], r, Rest(t, lists), q,
      lists[if Ir.Eval(w, q.env, c).n != 0 then t.nextBlock else fin.cur], q);
    JumpsTrans(w, all, lists, lists[s.nextBlock], r, Rest(t, lists), q,
      lists[if Ir.Eval(w, q.env, c).n != 0 then t.nextBlock else fin.cur], q);
  }

  lemma LoopTestIs(s: Build, node: Stmt)
    requires node.Iteration?
    ensures var e := VisitExpr(LoopHead(s), node.cond); var c := CompareWith0(e);
            LoopTest(s, node) == (c.(value := e.value), c.value.op) && LoopTest(s, node).0.code == c.code &&
              LoopTest(s, node).0.ok == c.ok
  {
    hide VisitExpr, CompareWith0, LoopHead;
  }

  // A condition without an index stays in the head.
  lemma TestFlat(s: Build, node: Stmt)
    requires node.Iteration? && FlatLoops(node)
    ensures SameBlock(LoopHead(s), LoopTest(s, node).0) && LoopTest(s, node).0.cur == LoopHead(s).cur &&
      FlatLoops(node.s)
  {
    hide VisitExpr, LoopHead;
    ExprFlat(LoopHead(s), node.cond);
  }

  lemma FitsFlat(s: Build, s1: Build, lists: Lists)
    requires SameBlock(s, s1) && Here(s1, lists)
    ensures Fits(s, s1, lists)
  {
  }

  lemma {:induction false} ForkIs(s: Build, node: Stmt)
    requires node.Iteration?
    ensures LoopHead(s).cur == s.nextBlock && LoopFork(s, node).cur == s.nextBlock
    ensures var t := LoopTest(s, node); var end := Br(LoopBack(s, node), s.nextBlock).nextBlock;
            VisitStmt(s, node).code == CondBr(LoopFork(s, node), t.1, t.0.nextBlock, end).code &&
              VisitStmt(s, node).cur == end
    ensures LoopBody(s, node).cur == LoopTest(s, node).0.nextBlock
  {
    hide CondBr, VisitStmt, LoopTest;
    LoopIs(s, node);
  }

  lemma {:induction false} LoopEnds(w: Ir.World, known: Known, all: Code, lists: Lists, s: Build, node: Stmt,
      st: Memory, r: Ir.State, q: Ir.State, fuel: nat)
    requires node.Iteration? && s.nextBlock in lists && VisitStmt(s, node).cur in lists
    requires var ev := EvalExpr(w, known, st, node.cond);
      ev.Gives? && Decides(w.floats, ev.ty, ev.v) == Some(false) && Ready(LoopTest(s, node).0, known, ev.st, q)
    requires Leads(w, all, lists, lists[s.nextBlock], r, lists[VisitStmt(s, node).cur], q)
    ensures ArmDoes(w, all, lists, fuel, s.scope, s.nextBlock, VisitStmt(s, node).cur,
      Cminus.Run(w, known, st, node, fuel), r, q)
  {
    hide VisitStmt, EvalExpr, Ready, LoopTest, Leads, Agrees, Decides;
    ReadyAgrees(LoopTest(s, node).0, known, EvalExpr(w, known, st, node.cond).st, q);
    TestScope(s, node);
  }

  lemma TestScope(s: Build, node: Stmt)
    requires node.Iteration?
    ensures LoopTest(s, node).0.scope == s.scope && LoopTest(s, node).0.ret == s.ret &&
      LoopBody(s, node).scope == s.scope && LoopBody(s, node).ret == s.ret && LoopHead(s).scope == s.scope
  {
    hide VisitStmt, LoopTest, NewBlock, LoopHead;
    LoopScopes(s, node);
    var t := LoopTest(s, node).0;
    BranchScope(t, t.nextBlock, Ir.Const(0), t.nextBlock);
  }

  // A round with the body, and the rounds after it.
  lemma {:induction false} LoopGoesOn(w: Ir.World, known: Known, all: Code, lists: Lists, s: Build, node: Stmt,
      st: Memory, r: Ir.State, q: Ir.State, fuel: nat)
    returns (r1: Ir.State)
    requires node.Iteration? && Ir.Arithmetic(w) && FlatLoops(node) && Sound(s) &&
      Ready(LoopHead(s), known, st, r)
    requires var fin := VisitStmt(s, node); fin.ok && CodeIn(fin.code, all) && Fits(s, fin, lists)
    requires var ev := EvalExpr(w, known, st, node.cond); var t := LoopTest(s, node).0;
             && ev.Gives? && Decides(w.floats, ev.ty, ev.v) == Some(true) && s.nextBlock in lists &&
                  t.nextBlock in lists &&
                  Ready(t, known, ev.st, q)
             && Leads(w, all, lists, lists[s.nextBlock], r, lists[t.nextBlock], q) &&
                  Jumps(w, all, lists, lists[s.nextBlock], r, lists[t.nextBlock], q)
    ensures ArmDoes(w, all, lists, fuel, s.scope, s.nextBlock, VisitStmt(s, node).cur,
      Cminus.Run(w, known, st, node, fuel), r, r1)
    decreases fuel, node, 0
  {
    hide *;
    var head, fin, t, a, v :=
      s.nextBlock, VisitStmt(s, node), LoopTest(s, node).0, LoopBody(s, node), LoopBack(s, node);
    var ev := EvalExpr(w, known, st, node.cond);
    LoopShape(s, node);
    LoopLists(s, node);
    LoopCode(s, node);
    TestScope(s, node);
    TestFlat(s, node);
    ForkIs(s, node);
    BackIs(s, node);
    FitsAt(s, fin, lists, v.cur); FitsAt(s, fin, lists, fin.cur);
    FitsInner(s, a, v, fin, lists, {v.cur, head});
    CodeInTrans(Br(v, head).code, fin.code, all);
    SameScopeIs(t, a);
    ReadyLater(t, a, known, ev.st, q);
    var q1 := ArmMeans(w, known, all, lists, a, node.s, head, ev.st, q, fuel);
    var res := Cminus.Run(w, known, ev.st, node.s, fuel);
    RunLoop(w, known, st, node, fuel);
    r1 := q1;
    if res.Normal? && fuel > 0 {
      NextRound(w, known, all, lists, fuel, s, node, st, r, res, q, q1);
      r1 := LoopRounds(w, known, all, lists, s, node, res.st, q1, fuel - 1);
      var less: nat := fuel - 1;
      RoundThen(w, all, lists, less, fuel, s.scope, head, fin.cur, Cminus.Run(w, known, res.st, node, fuel - 1), r, q1,
        r1);
    } else {
      RoundStops(w, all, lists, fuel, s.scope, head, t.nextBlock, fin.cur, res, Cminus.Run(w, known, st, node, fuel),
        r, q, q1);
    }
  }

  lemma BackIs(s: Build, node: Stmt)
    requires node.Iteration?
    ensures LoopBack(s, node) == VisitStmt(LoopBody(s, node), node.s)
  {
    hide VisitStmt, LoopBody;
  }

  lemma SameScopeIs(s: Build, s1: Build)
    ensures SameScope(s, s1) <==> s1.scope == s.scope && s1.ret == s.ret
  {
  }

  lemma {:induction false} RunLoop(w: Ir.World, known: Known, st: Memory, node: Stmt, fuel: nat)
    requires node.Iteration?
    requires var ev := EvalExpr(w, known, st, node.cond); ev.Gives? && Decides(w.floats, ev.ty, ev.v) == Some(true)
    ensures var res := Cminus.Run(w, known, EvalExpr(w, known, st, node.cond).st, node.s, fuel);
            Cminus.Run(w, known, st, node, fuel) ==
              match res
              case Normal(st2) => if fuel == 0 then NoFuel else Cminus.Run(w, known, st2, node, fuel - 1)
              case other => other
  {
    hide EvalExpr, Decides;
  }

  // The head is reached again, with the values the body leaves.
  lemma {:induction false} NextRound(w: Ir.World, known: Known, all: Code, lists: Lists, fuel: nat, s: Build,
      node: Stmt, st: Memory, r: Ir.State, res: Result, q: Ir.State, q1: Ir.State)
    requires node.Iteration? && Ready(LoopHead(s), known, st, r) && res.Normal? &&
      LoopBody(s, node).scope == s.scope && LoopHead(s).scope == s.scope
    requires ArmDoes(w, all, lists, fuel, LoopBody(s, node).scope, LoopBody(s, node).cur, s.nextBlock, res, q, q1)
    requires s.nextBlock in lists && LoopBody(s, node).cur in lists
    requires Leads(w, all, lists, lists[s.nextBlock], r, lists[LoopBody(s, node).cur], q) &&
      Jumps(w, all, lists, lists[s.nextBlock], r, lists[LoopBody(s, node).cur], q)
    ensures Ready(LoopHead(s), known, res.st, q1) && Jumps(w, all, lists, lists[s.nextBlock], r, lists[s.nextBlock], q1)
  {
    hide Leads, Jumps, Sound, Static, Agrees, LoopHead, LoopBody;
    JumpsTrans(w, all, lists, lists[s.nextBlock], r, lists[LoopBody(s, node).cur], q, lists[s.nextBlock], q1);
  }

  // A round takes at least one jump, so what lasts `less` from the next round on lasts one more.
  lemma {:induction false} RoundThen(w: Ir.World, all: Code, lists: Lists, less: nat, fuel: nat, scope: seq<Bindings>,
      head: Block, end: Block, res: Result, r: Ir.State, q: Ir.State, r1: Ir.State)
    requires head in lists && Jumps(w, all, lists, lists[head], r, lists[head], q) &&
      ArmDoes(w, all, lists, less, scope, head, end, res, q, r1)
    requires fuel == less + 1
    ensures ArmDoes(w, all, lists, fuel, scope, head, end, res, r, r1)
  {
    hide Leads, Jumps, Ends, Agrees, Lasts;
    JumpsLead(w, all, lists, lists[head], r, lists[head], q);
    match res
    case Normal(st1) => LeadsTrans(w, all, lists, lists[head], r, lists[head], q, lists[end], r1);
    case Returned(v, tr) => LeadsEnds(w, all, lists, lists[head], r, lists[head], q, v, tr);
    case NoFuel => JumpsLast(w, all, lists, lists[head], r, lists[head], q, less, fuel);
    case Wrong =>
  }

  // The body returns, or the fuel is used up.
  lemma {:induction false} RoundStops(w: Ir.World, all: Code, lists: Lists, fuel: nat, scope: seq<Bindings>,
      head: Block, body: Block, end: Block, res: Result, whole: Result, r: Ir.State, q: Ir.State, q1: Ir.State)
    requires head in lists && body in lists && end in lists && Leads(w, all, lists, lists[head], r, lists[body], q)
    requires ArmDoes(w, all, lists, fuel, scope, body, head, res, q, q1) &&
      (res.Normal? ==> whole.NoFuel? && fuel == 0) && (!res.Normal? ==> whole == res)
    ensures ArmDoes(w, all, lists, fuel, scope, head, end, whole, r, q1)
  {
    hide Leads, Ends, Agrees, RunFrom;
    if res.Returned? { LeadsEnds(w, all, lists, lists[head], r, lists[body], q, res.value, res.trace); }
    if res.NoFuel? { LeadsLasts(w, all, lists, lists[head], r, lists[body], q, fuel); }
  }

  lemma {:induction false} IterationMeans(w: Ir.World, known: Known, all: Code, lists: Lists, s: Build, node: Stmt,
      st: Memory, r: Ir.State, fuel: nat)
    returns (r1: Ir.State)
    requires node.Iteration? && Ir.Arithmetic(w) && FlatLoops(node) && Ready(s, known, st, r)
    requires var s1 := VisitStmt(s, node); s1.ok && CodeIn(s1.code, all) && Fits(s, s1, lists)
    ensures Does(w, known, all, lists, fuel, s, VisitStmt(s, node), Cminus.Run(w, known, st, node, fuel), r, r1)
    decreases fuel, node, 2
  {
    hide *;
    var head, fin, n := s.nextBlock, VisitStmt(s, node), NewBlock(s);
    ReadySound(s, known, st, r);
    LoopShape(s, node);
    LoopLists(s, node);
    LoopCode(s, node);
    GrownFacts(s, fin);
    NewBlockLists(s);
    NewBlockCode(s);
    KeptLists(s, n, {});
    FitsAt(s, fin, lists, s.cur); FitsAt(s, fin, lists, head); FitsAt(s, fin, lists, fin.cur);
    CodeInTrans(Br(n, head).code, fin.code, all);
    JumpFrom(w, all, lists, n, head, r);
    RestSame(n, s, lists);
    ReadyLater(s, LoopHead(s), known, st, r);
    ReadyAgrees(s, known, st, r);
    HereIs(fin, lists, []);
    r1 := LoopRounds(w, known, all, lists, s, node, st, r, fuel);
    BranchDone(w, known, all, lists, fuel, s, fin, head, Cminus.Run(w, known, st, node, fuel), r, r1);
  }
}
