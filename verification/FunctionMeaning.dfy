/** Whole functions: the code the builder makes of a function computes what the function means. */
module FunctionMeaning {
  import opened Cfg
  import Ir
  import opened Ast
  import opened Lowering
  import opened BuilderShape
  import opened Cminus
  import opened Runs
  import opened Cells
  import opened BuilderMeaning
  import opened StatementMeaning

  // ---- Parameters ----

  // One parameter: a cell, and the argument stored into it.
  function OneParam(s: Build, p: Param, i: nat): Build {
    var s1 := Alloca(s, ParamCell(p)).(value := s.value);
    var s2 := s1.(scope := Push(s.scope, p.id, Value(Ir.Res(s.nextId), Ptr(ParamCell(p)))));
    Lowering.Store(s2, Ir.Arg(i), Ir.Res(s.nextId))
  }

  lemma OneParamCode(s: Build, p: Param, i: nat)
    requires Sound(s)
    ensures var s1 := OneParam(s, p, i);
            && Grown(s, s1) && s1.cur == s.cur && s1.nextId == s.nextId + 2
            && s1.code ==
                 s.code[s.nextId := Ir.Instr(Ir.Alloca(CellType(ParamCell(p))), [])][s.nextId + 1 := Ir.Instr(Ir.Store,
                   [Ir.Arg(i), Ir.Res(s.nextId)])]
            && s1.List(s.cur) == s.List(s.cur) + [s.nextId, s.nextId + 1] && s1.ret == s.ret
            && s1.scope == Push(s.scope, p.id, Value(Ir.Res(s.nextId), Ptr(ParamCell(p))))
  {
    hide Grown, Sound, Push, CellType, ParamCell;
    var s0 := EmitValue(s, Ir.Alloca(CellType(ParamCell(p))), [], Ptr(ParamCell(p)));
    var s2 := s0.(value := s.value, scope := Push(s.scope, p.id, Value(Ir.Res(s.nextId), Ptr(ParamCell(p)))));
    GrownEmitValue(s, Ir.Alloca(CellType(ParamCell(p))), [], Ptr(ParamCell(p))); GrownSound(s, s0);
    GrownSame(s0, s2); GrownSound(s0, s2);
    GrownEmit(s2, Ir.Store, [Ir.Arg(i), Ir.Res(s.nextId)]);
    GrownTrans(s, s0, s2); GrownTrans(s, s2, OneParam(s, p, i));
  }

  lemma {:induction false} ParamRuns(w: Ir.World, all: Code, n: Ir.Id, ty: Ir.CellType, i: nat, more: seq<Ir.Id>,
      r: Ir.State) returns (r1: Ir.State)
    requires n in all && all[n] == Ir.Instr(Ir.Alloca(ty), []) && !ty.Aggregate?
    requires n + 1 in all && all[n + 1] == Ir.Instr(Ir.Store, [Ir.Arg(i), Ir.Res(n)])
    ensures Ir.Exec(w, all, [n, n + 1] + more, r) == Ir.Exec(w, all, more, r1)
    ensures r1.mem == r.mem[n := Ir.V(w.arg(i))] && r1.trace == r.trace && Same(n, r, r1)
  {
    hide Ir.Step;
    AllocaStep(w, all, n, ty, r);
    var q := Allocated(w, n, ty, r);
    StoreStep(w, all, n + 1, Ir.Arg(i), n, q);
    r1 := q.(mem := q.mem[n := Ir.V(w.arg(i))], env := q.env[n + 1 := Ir.Undef]);
    var ids := [n, n + 1] + more;
    assert ids[0] == n && ids[1..] == [n + 1] + more;
    assert ([n + 1] + more)[1..] == more;
  }

  function ParamSlot(w: Ir.World, p: Param, i: nat): Slot {
    Cell(ParamTy(p), Ir.V(w.arg(i)))
  }

  lemma ParamPlain(p: Param)
    ensures ParamCell(p) == Lower(ParamTy(p)) && !CellType(ParamCell(p)).Aggregate?
  {
    LowerPlain(ParamTy(p));
  }

  lemma SlotAt(w: Ir.World, p: Param, i: nat, n: Ir.Id, r: Ir.State)
    requires n in r.mem && r.mem[n] == Ir.V(w.arg(i))
    ensures SlotOk(Value(Ir.Res(n), Ptr(ParamCell(p))), ParamSlot(w, p, i), r)
  {
    hide Lower;
    ParamPlain(p);
  }

  lemma {:induction false} ParamMeans(w: Ir.World, known: Known, all: Code, lists: Lists, fuel: nat, s: Build,
      p: Param, i: nat, st: Memory, r: Ir.State) returns (r1: Ir.State)
    requires Ready(s, known, st, r) && |s.scope| > 1
    requires CodeIn(OneParam(s, p, i).code, all) && Here(OneParam(s, p, i), lists)
    ensures var s1 := OneParam(s, p, i);
            Does(w, known, all, lists, fuel, s, s1, Normal(st.(scopes := Bound(st.scopes, p.id, ParamSlot(w, p, i)))),
              r,
              r1) && |s1.scope| > 1
  {
    hide Sound, Static, Values, CodeIn, Ir.Exec, Leads, Push, Bound, Grown, OneParam, ParamCell, ParamSlot, SlotOk,
      CellType, Same;
    var s1 := OneParam(s, p, i);
    var n := s.nextId;
    OneParamCode(s, p, i);
    ReadyParts(s, known, st, r);
    ParamPlain(p);
    CodeAtIn(s1.code, all, n); CodeAtIn(s1.code, all, n + 1);
    HereEarlier(s, s1, lists);
    r1 := ParamRuns(w, all, n, CellType(ParamCell(p)), i, Rest(s1, lists), r);
    RestTwo(s, s1, lists, n);
    LeadsSame(w, all, lists, Rest(s, lists), r, Rest(s1, lists), r1);
    SlotAt(w, p, i, n, r1);
    BindSlot(s.scope, st.scopes, r, r1, s.code, known, p.id, n, ParamCell(p), ParamSlot(w, p, i));
    CodeInMore(s.code[n := Ir.Instr(Ir.Alloca(CellType(ParamCell(p))), [])], s1.code, n + 1);
    StaticLater(s1.scope, s.code[n := Ir.Instr(Ir.Alloca(CellType(ParamCell(p))), [])], s1.code, known);
    GrownSound(s, s1);
  }

  lemma CodeInMore(code: Code, code1: Code, n: Ir.Id)
    requires n !in code && n in code1 && code1 == code[n := code1[n]]
    ensures CodeIn(code, code1)
  {
  }

  lemma RestTwo(s: Build, s1: Build, lists: Lists, n: Ir.Id)
    requires Here(s, lists) && Here(s1, lists) && s1.cur == s.cur && s1.List(s.cur) == s.List(s.cur) + [n, n + 1]
    ensures Rest(s, lists) == [n, n + 1] + Rest(s1, lists)
  {
    var l := lists[s.cur];
    assert l == s1.List(s.cur) + Rest(s1, lists);
    assert l == s.List(s.cur) + ([n, n + 1] + Rest(s1, lists));
  }

  lemma {:induction false} ParamsMean(w: Ir.World, known: Known, all: Code, lists: Lists, fuel: nat, s: Build,
      ps: seq<Param>, i: nat, vars: Vars, st: Memory, r: Ir.State)
    returns (r1: Ir.State)
    requires Ready(s, known, st, r) && |s.scope| > 1
    requires st.scopes == [map[], vars] && CodeIn(VisitParams(s, ps, i).code, all) && Here(VisitParams(s, ps, i), lists)
    ensures Does(w, known, all, lists, fuel, s, VisitParams(s, ps, i),
      Normal(st.(scopes := [map[], Bind(w, ps, i, vars)])), r, r1)
    ensures VisitParams(s, ps, i).ret == s.ret
    decreases ps
  {
    hide Sound, Static, CodeIn, Leads, Grown, OneParam, Does, Ready;
    ReadySound(s, known, st, r);
    if ps == [] {
      r1 := r;
      DoesSame(w, known, all, lists, fuel, s, s, st, r);
    } else {
      var s1 := OneParam(s, ps[0], i);
      var s2 := VisitParams(s1, ps[1..], i + 1);
      ParamsStep(s, ps, i);
      OneParamCode(s, ps[0], i); GrownFacts(s, s1);
      ParamsGrown(s1, ps[1..], i + 1); GrownFacts(s1, s2);
      ParamsCur(s1, ps[1..], i + 1);
      GrownList(s1, s2);
      HereEarlier(s1, s2, lists);
      CodeInTrans(s1.code, s2.code, all);
      var q := ParamMeans(w, known, all, lists, fuel, s, ps[0], i, st, r);
      var vars1 := if ps[0].id in vars then vars else vars[ps[0].id := ParamSlot(w, ps[0], i)];
      var st1 := st.(scopes := [map[], vars1]);
      BoundParam(vars, ps[0].id, ParamSlot(w, ps[0], i));
      DoesReady(w, known, all, lists, fuel, s, s1, st1, r, q);
      r1 := ParamsMean(w, known, all, lists, fuel, s1, ps[1..], i + 1, vars1, st1, q);
      DoesThen(w, known, all, lists, fuel, s, s1, s2, st1, Normal(st.(scopes := [map[], Bind(w, ps, i, vars)])), r, q,
        r1);
    }
  }

  lemma BoundParam(vars: Vars, id: string, v: Slot)
    ensures Bound([map[], vars], id, v) == [map[], if id in vars then vars else vars[id := v]]
  {
  }

  lemma ParamsStep(s: Build, ps: seq<Param>, i: nat)
    requires ps != []
    ensures VisitParams(s, ps, i) == VisitParams(OneParam(s, ps[0], i), ps[1..], i + 1)
  {
    hide Push, Emit;
  }

  lemma {:induction false} ParamsCur(s: Build, ps: seq<Param>, i: nat)
    ensures VisitParams(s, ps, i).cur == s.cur
    decreases ps
  {
    hide Push, VisitParams;
    if ps != [] {
      ParamsStep(s, ps, i);
      ParamsCur(OneParam(s, ps[0], i), ps[1..], i + 1);
    } else {
      NoParams(s, i);
    }
  }

  lemma NoParams(s: Build, i: nat)
    ensures VisitParams(s, [], i) == s
  {
  }

  lemma OneParamGrown(s: Build, p: Param, i: nat)
    requires Sound(s)
    ensures Grown(s, OneParam(s, p, i))
  {
    hide Sound, Grown, Push, VisitParams;
    ParamsGrown(s, [p], i);
    ParamsStep(s, [p], i);
    assert [p][1..] == [];
    NoParams(OneParam(s, p, i), i + 1);
  }

  lemma GrownList(s: Build, s1: Build)
    requires Grown(s, s1)
    ensures s.List(s.cur) <= s1.List(s.cur)
  {
    hide NewFrom, From, Sound;
  }

  // ---- The run of the finished function ----

  lemma {:induction false} RunEnds(f: Ir.Func, w: Ir.World, m: nat, p: Block, b: Block, r: Ir.State, n: nat,
      v: seq<int>, tr: seq<Ir.Event>)
    requires Ir.Run(f, w, m) == Ir.At(p, b, r) && b in f.lists && (forall x :: x in f.code ==> !f.code[x].op.Phi?)
    requires RunFrom(w, f.code, f.lists, f.lists[b], r, n) == Finished(v, tr)
    ensures exists k: nat :: Ir.Run(f, w, k) == Ir.Done(v, tr)
    decreases n
  {
    hide Ir.Exec;
    NoPhisToEnter(w, f.code, f.lists[b], p, r.env);
    assert r.(env := r.env) == r;
    assert Ir.Run(f, w, m + 1) == Ir.Enter(f, w, p, b, r);
    match Ir.Exec(w, f.code, f.lists[b], r)
    case Jump(c, r1) => RunEnds(f, w, m + 1, b, c, r1, n - 1, v, tr);
    case Return(_, _) =>
    case _ =>
  }

  // As long as the run from a point has not ended, the run of the function has not.
  lemma {:induction false} RunLasts(f: Ir.Func, w: Ir.World, m: nat, p: Block, b: Block, r: Ir.State, n: nat)
    requires Ir.Run(f, w, m) == Ir.At(p, b, r) && b in f.lists && (forall x :: x in f.code ==> !f.code[x].op.Phi?)
    requires RunFrom(w, f.code, f.lists, f.lists[b], r, n) == Unfinished
    ensures Ir.Run(f, w, m + n + 1).At?
    decreases n
  {
    hide Ir.Exec;
    NoPhisToEnter(w, f.code, f.lists[b], p, r.env);
    assert r.(env := r.env) == r;
    assert Ir.Run(f, w, m + 1) == Ir.Enter(f, w, p, b, r);
    match Ir.Exec(w, f.code, f.lists[b], r)
    case Jump(c, r1) => if n > 0 { RunLasts(f, w, m + 1, b, c, r1, n - 1); }
    case Return(_, _) =>
    case _ =>
  }

  // What has ended stays as it is.
  lemma {:induction false} RunEnded(f: Ir.Func, w: Ir.World, k: nat, n: nat)
    requires k <= n && !Ir.Run(f, w, k).At?
    ensures Ir.Run(f, w, n) == Ir.Run(f, w, k)
    decreases n
  {
    if k < n { RunEnded(f, w, k, n - 1); }
  }

  lemma NoPhisToEnter(w: Ir.World, code: Code, ids: seq<Ir.Id>, p: Block, env: map<Ir.Id, Ir.Val>)
    requires forall x :: x in code ==> !code[x].op.Phi?
    ensures Ir.EnterEnv(w, code, ids, p, env) == env
  {
  }

  // ---- The theorem ----

  // The names a function sees when its body starts: globals, among them the known ones, and itself.
  ghost predicate GlobalsOk(globals: Bindings, known: Known) {
    forall id :: id in globals ==> !globals[id].op.Res? && (id in known.names ==> KnownOk(known.names[id], globals[id]))
  }

  function StartNames(globals: Bindings, d: FunDecl, self: Operand): Bindings {
    Push([globals], d.id, Value(self, Func(ToType(d.ty), ParamTypes(d))))[0]
  }

  lemma StartReady(globals: Bindings, known: Known, d: FunDecl, self: Operand)
    requires GlobalsOk(StartNames(globals, d, self), known) && known.ret == TyOf(d.ty)
    ensures var s := StartFunction(globals, d, self);
            Ready(s, known, Memory([map[], map[]], []), Ir.State(map[], map[], [])) && |s.scope| > 1 &&
              s.cur == 0 && s.List(0) == []
  {
    hide Sound, KnownOk;
    StartSound(globals, d, self);
    var s := StartFunction(globals, d, self);
    assert s.scope == Push([globals], d.id, Value(self, Func(ToType(d.ty), ParamTypes(d)))) + [map[]];
    assert |s.scope| == 2 && s.scope[1] == map[];
  }

  function ParamTypes(d: FunDecl): seq<Type> {
    seq(|d.params|, (i: nat) requires i < |d.params| => ParamType(d.params[i]))
  }

  // The blocks of the finished function, seen from the state before its last return.
  lemma FitsEnd(s: Build, s1: Build, fin: Build)
    requires Grown(s, s1) && Kept(s1, fin, {s1.cur}) && fin.lists.Keys == Elements(fin.g.blocks)
    ensures Fits(s, s1, fin.lists)
  {
    hide Grown;
  }

  lemma EndFacts(s: Build, fin: Build, args: seq<Operand>)
    requires Sound(s) && fin == Emit(s, Ir.Ret, args)
    ensures Kept(s, fin, {s.cur}) && fin.lists.Keys == Elements(fin.g.blocks) && CodeIn(s.code, fin.code) &&
      CodeIn(fin.code, fin.code)
    ensures s.nextId in fin.code && fin.code[s.nextId] == Ir.Instr(Ir.Ret, args) && Sound(fin) && fin.ok == s.ok
    ensures s.cur in fin.lists && s.List(s.cur) + [s.nextId] <= fin.lists[s.cur]
  {
    hide MoreEdges, Graph.Valid, SuccsDistinct, Arranged;
    SoundFacts(s);
    EmitSound(s, Ir.Ret, args);
  }

  ghost predicate Built(known: Known, globals: Bindings, d: FunDecl, self: Operand) {
    && FlatFunction(d) && VisitFunction(globals, d, self).ok && known.ret == TyOf(d.ty)
    && GlobalsOk(StartNames(globals, d, self), known)
  }

  ghost predicate Returns(f: Ir.Func, w: Ir.World, v: seq<int>, tr: seq<Ir.Event>) {
    exists k: nat :: Ir.Run(f, w, k) == Ir.Done(v, tr)
  }

  ghost predicate SourceReturns(w: Ir.World, known: Known, d: FunDecl, v: seq<int>, tr: seq<Ir.Event>) {
    exists fuel: nat :: RunFunction(w, known, d, fuel) == Returned(v, tr)
  }

  // What the run from the first block of the finished function does for each result of the source.
  ghost predicate Answers(w: Ir.World, fin: Build, res: Result, fuel: nat) {
    && 0 in fin.lists
    && (res.Returned? ==> Ends(w, fin.code, fin.lists, fin.lists[0], Ir.State(map[], map[], []), res.value, res.trace))
    && (res.NoFuel? ==> Lasts(w, fin.code, fin.lists, fin.lists[0], Ir.State(map[], map[], []), fuel))
  }

  lemma FunctionAnswers(w: Ir.World, known: Known, globals: Bindings, d: FunDecl, self: Operand, fuel: nat)
    requires Ir.Arithmetic(w) && Built(known, globals, d, self)
    ensures var fin := VisitFunction(globals, d, self);
            Answers(w, fin, RunFunction(w, known, d, fuel), fuel) && Sound(fin) && fin.g.entry == 0
  {
    hide Static, CodeIn, Leads, Ends, Lasts, Grown, Does, Ready, Sound, VisitParams, VisitStmt,
      StartFunction, Fits, Here, Kept, Push, GlobalsOk, Cminus.Run, Bind, FlatLoops, RunFrom, Answers;
    var fin := VisitFunction(globals, d, self);
    var s0 := StartFunction(globals, d, self);
    var s1 := VisitParams(s0, d.params, 0);
    var s2 := VisitStmt(s1, Compound(d.decls, d.body));
    var s3 := Exit(s2);
    var args := if d.ty.TypeVoid? then [] else [Ir.Const(0)];
    FunctionIs(globals, d, self, s0, s1, s2, s3, args, fin);
    var lists, all, r0 := fin.lists, fin.code, Ir.State(map[], map[], []);
    StartReady(globals, known, d, self);
    FunctionGrown(globals, d, self, s0, s1, s2, s3);
    EndFacts(s3, fin, args);
    KeptFrom(s2, s3, fin);
    GrownFacts(s1, s2); GrownFacts(s2, s3);
    CodeInTrans(s2.code, s3.code, all); CodeInTrans(s1.code, s2.code, all);
    FitsEnd(s1, s2, fin);
    FitsHere(s1, s2, lists);
    var st1 := Memory([map[], Bind(w, d.params, 0, map[])], []);
    var q := ParamsMean(w, known, all, lists, fuel, s0, d.params, 0, map[], Memory([map[], map[]], []), r0);
    DoesReady(w, known, all, lists, fuel, s0, s1, st1, r0, q);
    var r1 := StmtMeans(w, known, all, lists, s1, Compound(d.decls, d.body), st1, q, fuel);
    var res := Cminus.Run(w, known, st1, Compound(d.decls, d.body), fuel);
    DoesThen(w, known, all, lists, fuel, s0, s1, s2, st1, res, r0, q, r1);
    EntryStays(globals, d, self, s0, s1, s2, s3, args);
    EndsHere(w, known, fin, fuel, s0, s2, s3, args, res, r0, r1, RunFunction(w, known, d, fuel));
  }

  // For every run of the source function that returns, the run of the built function takes the
  // same calls with the same arguments in the same order, and returns the same.
  lemma FunctionMeans(w: Ir.World, known: Known, globals: Bindings, d: FunDecl, self: Operand, fuel: nat)
    requires Ir.Arithmetic(w) && Built(known, globals, d, self) && RunFunction(w, known, d, fuel).Returned?
    ensures var res := RunFunction(w, known, d, fuel);
            Returns(VisitFunction(globals, d, self).Func(), w, res.value, res.trace)
  {
    hide Built, Sound, VisitFunction, RunFunction, Answers, Ir.Run;
    FunctionAnswers(w, known, globals, d, self, fuel);
    AnswersReturn(w, VisitFunction(globals, d, self), RunFunction(w, known, d, fuel), fuel);
  }

  // While the source function is still in its loops, the built one has not ended either.
  lemma FunctionLasts(w: Ir.World, known: Known, globals: Bindings, d: FunDecl, self: Operand, fuel: nat)
    requires Ir.Arithmetic(w) && Built(known, globals, d, self) && RunFunction(w, known, d, fuel).NoFuel?
    ensures Ir.Run(VisitFunction(globals, d, self).Func(), w, fuel).At?
  {
    hide Built, Sound, VisitFunction, RunFunction, Answers, Ir.Run;
    FunctionAnswers(w, known, globals, d, self, fuel);
    AnswersLast(w, VisitFunction(globals, d, self), RunFunction(w, known, d, fuel), fuel);
  }

  // If the source function never goes wrong, the built one never gets stuck, and it returns
  // exactly if the source does, with the same value after the same calls.
  lemma FunctionMeansExactly(w: Ir.World, known: Known, globals: Bindings, d: FunDecl, self: Operand)
    requires Ir.Arithmetic(w) && Built(known, globals, d, self)
    requires forall fuel :: !RunFunction(w, known, d, fuel).Wrong?
    ensures var f := VisitFunction(globals, d, self).Func();
            && (forall k :: !Ir.Run(f, w, k).Stuck?)
            && (forall v, tr :: Returns(f, w, v, tr) <==> SourceReturns(w, known, d, v, tr))
  {
    hide Built, VisitFunction, RunFunction, Ir.Run;
    var f := VisitFunction(globals, d, self).Func();
    forall k: nat ensures !Ir.Run(f, w, k).Stuck? {
      EndedAsSource(w, known, globals, d, self, k);
    }
    forall v, tr ensures Returns(f, w, v, tr) <==> SourceReturns(w, known, d, v, tr) {
      if Returns(f, w, v, tr) {
        var k: nat :| Ir.Run(f, w, k) == Ir.Done(v, tr);
        EndedAsSource(w, known, globals, d, self, k);
      }
      if SourceReturns(w, known, d, v, tr) {
        var fuel: nat :| RunFunction(w, known, d, fuel) == Returned(v, tr);
        FunctionMeans(w, known, globals, d, self, fuel);
      }
    }
  }

  // A run of the built function that has ended is one of the source.
  lemma EndedAsSource(w: Ir.World, known: Known, globals: Bindings, d: FunDecl, self: Operand, k: nat)
    requires Ir.Arithmetic(w) && Built(known, globals, d, self) && !RunFunction(w, known, d, k).Wrong?
    ensures var f, res := VisitFunction(globals, d, self).Func(), RunFunction(w, known, d, k);
            !Ir.Run(f, w, k).At? ==> res.Returned? && Ir.Run(f, w, k) == Ir.Done(res.value, res.trace)
  {
    hide Built, VisitFunction, Ir.Run, Cminus.Run;
    var f, res := VisitFunction(globals, d, self).Func(), RunFunction(w, known, d, k);
    if res.NoFuel? {
      FunctionLasts(w, known, globals, d, self, k);
    } else if !Ir.Run(f, w, k).At? {
      FunctionMeans(w, known, globals, d, self, k);
      var m: nat :| Ir.Run(f, w, m) == Ir.Done(res.value, res.trace);
      if m <= k { RunEnded(f, w, m, k); } else { RunEnded(f, w, k, m); }
    }
  }

  lemma {:induction false} EntryStays(globals: Bindings, d: FunDecl, self: Operand, s0: Build, s1: Build, s2: Build,
      s3: Build, args: seq<Operand>)
    requires s0 == StartFunction(globals, d, self) && Grown(s0, s1) && Grown(s1, s2) && Grown(s2, s3)
    ensures Emit(s3, Ir.Ret, args).g.entry == 0
  {
    hide NewFrom, From, Sound, Push;
  }

  lemma KeptFrom(s2: Build, s3: Build, fin: Build)
    requires s3 == Exit(s2) && Kept(s3, fin, {s3.cur})
    ensures Kept(s2, fin, {s2.cur}) && s3.cur == s2.cur && s3.lists == s2.lists
  {
  }

  lemma {:induction false} FunctionIs(globals: Bindings, d: FunDecl, self: Operand, s0: Build, s1: Build, s2: Build,
      s3: Build, args: seq<Operand>, fin: Build)
    requires s0 == StartFunction(globals, d, self) && s1 == VisitParams(s0, d.params, 0) &&
      s2 == VisitStmt(s1, Compound(d.decls, d.body)) && s3 == Exit(s2)
    requires args == (if d.ty.TypeVoid? then [] else [Ir.Const(0)]) && fin == VisitFunction(globals, d, self)
    ensures fin == Emit(s3, Ir.Ret, args)
  {
    hide StartFunction, VisitParams, VisitStmt;
  }

  lemma {:induction false} FunctionGrown(globals: Bindings, d: FunDecl, self: Operand, s0: Build, s1: Build,
      s2: Build, s3: Build)
    requires s0 == StartFunction(globals, d, self) && s1 == VisitParams(s0, d.params, 0) &&
      s2 == VisitStmt(s1, Compound(d.decls, d.body)) && s3 == Exit(s2)
    ensures Grown(s0, s1) && Grown(s1, s2) && Grown(s2, s3) && Sound(s0) && Sound(s1) && Sound(s2) && Sound(s3)
  {
    hide StartFunction, VisitParams, VisitStmt, Grown, Sound;
    StartSound(globals, d, self);
    ParamsGrown(s0, d.params, 0); GrownSound(s0, s1);
    StmtGrown(s1, Compound(d.decls, d.body)); GrownSound(s1, s2);
    GrownSame(s2, s3); GrownSound(s2, s3);
  }

  // A body that comes to its end runs into the return that closes the function.
  lemma {:induction false} EndsHere(w: Ir.World, known: Known, fin: Build, fuel: nat, s0: Build, s2: Build, s3: Build,
      args: seq<Operand>, res: Result, r0: Ir.State, r1: Ir.State, whole: Result)
    requires Does(w, known, fin.code, fin.lists, fuel, s0, s2, res, r0, r1) && s3.cur == s2.cur && s3.lists == s2.lists
    requires s3.cur in fin.lists && s3.List(s3.cur) + [s3.nextId] <= fin.lists[s3.cur]
    requires s3.nextId in fin.code && fin.code[s3.nextId] == Ir.Instr(Ir.Ret, args)
    requires args == [] || args == [Ir.Const(0)]
    requires match res case Normal(st) => whole ==
      Returned(if args == [] then [] else [0], st.trace) case other => whole == other
    requires s0.cur == 0 && s0.List(0) == [] && r0 == Ir.State(map[], map[], [])
    ensures Answers(w, fin, whole, fuel)
  {
    hide Leads, Ends, Lasts, Ready, Ir.Exec;
    var all, lists := fin.code, fin.lists;
    assert lists[0][0..] == lists[0];
    if res.Normal? {
      RestOne(s3, lists, s3.nextId);
      RestSame(s3, s2, lists);
      EvalOne(w, r1.env, Ir.Const(0));
      ReadySound(s2, known, res.st, r1);
      RetStep(w, all, Rest(s3, lists), s3.nextId, args, whole.value, r1);
      EndsReturn(w, all, lists, Rest(s3, lists), r1, whole.value, whole.trace);
      LeadsEnds(w, all, lists, Rest(s0, lists), r0, Rest(s2, lists), r1, whole.value, whole.trace);
    }
  }

  lemma AnswersReturn(w: Ir.World, fin: Build, res: Result, fuel: nat)
    requires Sound(fin) && fin.g.entry == 0 && Answers(w, fin, res, fuel) && res.Returned?
    ensures exists k: nat :: Ir.Run(fin.Func(), w, k) == Ir.Done(res.value, res.trace)
  {
    hide Graph.Valid, SuccsDistinct, RunFrom;
    var r0 := Ir.State(map[], map[], []);
    var k: nat :| EndsIn(w, fin.code, fin.lists, fin.lists[0], r0, res.value, res.trace, k);
    assert RunFrom(w, fin.code, fin.lists, fin.lists[0], r0, k) == Finished(res.value, res.trace);
    RunEnds(fin.Func(), w, 0, 0, 0, r0, k, res.value, res.trace);
  }

  lemma AnswersLast(w: Ir.World, fin: Build, res: Result, fuel: nat)
    requires Sound(fin) && fin.g.entry == 0 && Answers(w, fin, res, fuel) && res.NoFuel?
    ensures Ir.Run(fin.Func(), w, fuel).At?
  {
    hide Sound, RunFrom, Ir.Exec;
    var r0 := Ir.State(map[], map[], []);
    if fuel > 0 {
      var n: nat := fuel - 1;
      assert RunFrom(w, fin.code, fin.lists, fin.lists[0], r0, n) == Unfinished;
      SoundNoPhi(fin);
      RunLasts(fin.Func(), w, 0, 0, 0, r0, n);
    }
  }

  lemma SoundNoPhi(s: Build)
    requires Sound(s)
    ensures forall x :: x in s.code ==> !s.code[x].op.Phi?
  {
    hide Graph.Valid, SuccsDistinct, Arranged;
  }
}
