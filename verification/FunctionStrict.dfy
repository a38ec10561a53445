/** Whole functions: what the builder makes of a function is an input the promotion of
    variables is meant for exactly if no loop condition indexes an array; and then the promoted
    function still computes what the source means. */
module FunctionStrict {
  import opened Cfg
  import Ir
  import Ssa
  import PhiPlacement
  import FunctionIr
  import Promotion
  import opened Ast
  import opened Lowering
  import opened BuilderShape
  import opened Cminus
  import opened Runs
  import opened BuilderMeaning
  import opened StatementMeaning
  import opened FunctionMeaning
  import opened BuilderStrict
  import opened StatementStrict

  // Names at the start: functions that return a plain value or nothing, and global variables.
  ghost predicate GlobalsTyped(globals: Bindings) {
    forall id :: id in globals ==> var v := globals[id];
      v.op.Global? && ((v.ty.Func? && BuilderStrict.Plain(v.ty.ret)) || (v.ty.Ptr? && CellTy(v.ty.elem)))
  }

  lemma StartNamesOk(f: Ir.Func, globals: Bindings, d: FunDecl, self: Operand)
    requires GlobalsTyped(StartNames(globals, d, self))
    ensures NamesOk(f, StartFunction(globals, d, self))
  {
    var s := StartFunction(globals, d, self);
    assert s.scope == [StartNames(globals, d, self), map[]];
    forall i, id | 0 <= i < |s.scope| && id in s.scope[i] ensures Named(f, s, s.scope[i][id]) {
      assert i == 0;
    }
  }

  // ---- Parameters ----

  lemma ParamStrict(f: Ir.Func, s: Build, p: Param, i: nat)
    requires Whole(f) && Sound(s) && NamesOk(f, s) && Final(f, s, OneParam(s, p, i))
    ensures var s1 := OneParam(s, p, i); Strict(f, s, s1) && Sound(s1) && NamesOk(f, s1)
  {
    hide Whole, Sound, NamesOk, Final, Strict, Push, Grown, Emit, Avail;
    var ty := ParamCell(p);
    var s1 := Emit(s, Ir.Alloca(CellType(ty)), []);
    var s2 := s1.(scope := Push(s.scope, p.id, Value(Ir.Res(s.nextId), Ptr(ty))));
    var s3 := OneParam(s, p, i);
    ParamIs(s, p, i, s1, s2);
    GrownEmit(s, Ir.Alloca(CellType(ty)), []); GrownSound(s, s1);
    GrownSame(s1, s2); GrownSound(s1, s2);
    GrownEmit(s2, Ir.Store, [Ir.Arg(i), Ir.Res(s.nextId)]); GrownSound(s2, s3);
    GrownTrans(s, s1, s2);
    FinalSplit(f, s, s2, s3); FinalSplit(f, s, s1, s2);
    AllocaStrict(f, s, ty);
    EmitScope(s, Ir.Alloca(CellType(ty)), []);
    ParamCellPlain(p);
    BindStrict(f, s, s1, s2, p.id, ty);
    CellAddress(f, s1, s2, Ir.Res(s.nextId), ty);
    ArgUsable(f, s2, i);
    StoreFits(f, s2, Ir.Arg(i), Ir.Res(s.nextId), ty);
    EmittedGood(f, s2, Ir.Store, [Ir.Arg(i), Ir.Res(s.nextId)]);
    StrictIs(f, s2, s3);
    StrictTrans(f, s, s2, s3);
    EmitScope(s2, Ir.Store, [Ir.Arg(i), Ir.Res(s.nextId)]);
    NamesGrown(f, s2, s3);
  }

  lemma ParamIs(s: Build, p: Param, i: nat, s1: Build, s2: Build)
    requires s1 == Emit(s, Ir.Alloca(CellType(ParamCell(p))), [])
    requires s2 == s1.(scope := Push(s.scope, p.id, Value(Ir.Res(s.nextId), Ptr(ParamCell(p)))))
    ensures OneParam(s, p, i) == Emit(s2, Ir.Store, [Ir.Arg(i), Ir.Res(s.nextId)])
  {
    hide Push;
  }

  lemma ParamCellPlain(p: Param)
    ensures CellTy(ParamCell(p)) && !ParamCell(p).Array?
  {
  }

  lemma CellAddress(f: Ir.Func, s1: Build, s2: Build, a: Operand, ty: Type)
    requires a.Res? && Avail(f, s1, a) && a.id in f.code && f.code[a.id].op == Ir.Alloca(CellType(ty)) &&
      s2.cur == s1.cur && s2.lists == s1.lists
    ensures Address(f, s2, a, ty)
  {
    hide Ssa.Before;
  }

  lemma ArgUsable(f: Ir.Func, s: Build, i: nat)
    ensures Usable(f, s, Ir.Arg(i))
  {
  }

  lemma StrictIs(f: Ir.Func, s: Build, s1: Build)
    requires Grown(s, s1) && NewGood(f, s, s1)
    ensures Strict(f, s, s1)
  {
    hide Grown, NewGood;
  }

  lemma {:induction false} ParamsStrict(f: Ir.Func, s: Build, ps: seq<Param>, i: nat)
    requires Whole(f) && Sound(s) && NamesOk(f, s) && Final(f, s, VisitParams(s, ps, i))
    ensures Strict(f, s, VisitParams(s, ps, i)) && NamesOk(f, VisitParams(s, ps, i))
    decreases ps
  {
    hide Whole, Sound, NamesOk, Final, Strict, Grown, OneParam, VisitParams;
    if ps == [] {
      NoParams(s, i);
      StrictSame(f, s, s);
    } else {
      var s1 := OneParam(s, ps[0], i);
      var s2 := VisitParams(s1, ps[1..], i + 1);
      ParamsStep(s, ps, i);
      OneParamGrown(s, ps[0], i); GrownSound(s, s1);
      ParamsGrown(s1, ps[1..], i + 1);
      FinalSplit(f, s, s1, s2);
      ParamStrict(f, s, ps[0], i);
      ParamsStrict(f, s1, ps[1..], i + 1);
      StrictTrans(f, s, s1, s2);
    }
  }

  // ---- The finished function ----

  lemma FitsSelf(s: Build, fin: Build)
    requires fin.lists.Keys == Elements(fin.g.blocks)
    ensures Fits(s, fin, fin.lists)
  {
    assert forall b :: b in fin.g.blocks ==> b in fin.lists;
  }

  lemma PredsSelf(s: Build, fin: Build)
    requires fin.g.Valid()
    ensures PredsFit(s, fin, fin.g)
  {
    hide SuccsDistinct;
    assert forall b :: b in fin.g.blocks ==> b in Elements(fin.g.blocks);
  }

  lemma FinalAll(s: Build, fin: Build)
    requires Grown(s, fin) && s.g.entry in s.g.blocks && fin.g.Valid() && fin.lists.Keys == Elements(fin.g.blocks)
    ensures Final(fin.Func(), s, fin)
  {
    hide Grown, Fits, PredsFit, Graph.Valid;
    GrownPreds(s, fin);
    FitsSelf(s, fin);
    PredsSelf(s, fin);
  }

  lemma AllGood(f: Ir.Func, s: Build, fin: Build, b: Block, i: nat)
    requires NewGood(f, s, fin) && f == fin.Func() && s.g.blocks == [0] && s.List(0) == [] &&
      fin.lists.Keys == Elements(fin.g.blocks)
    requires b in f.lists && i < |f.lists[b]|
    ensures Good(f, b, i)
  {
    hide Good;
    assert b in fin.g.blocks;
  }

  lemma ArrangedLaid(f: Ir.Func)
    requires Arranged(f.code, f.lists, f.home) && f.lists.Keys == Elements(f.g.blocks)
    ensures Ssa.Laid(f)
  {
    forall b | b in f.lists ensures Distinct(f.lists[b]) {
      forall i, j | 0 <= i < j < |f.lists[b]|
        ensures Apart(f.lists[b], i, j) { assert BuilderShape.Below(f.lists[b], i, j); }
    }
  }

  lemma InputHolds(f: Ir.Func, s: Build, fin: Build)
    requires f == fin.Func() && Sound(fin) && f.g.WellFormed() && NewGood(f, s, fin) && s.g.blocks == [0] &&
      s.List(0) == []
    ensures PhiPlacement.Input(f)
  {
    hide Graph.WellFormed, Good, NewGood, SuccsDistinct, Graph.Valid;
    ArrangedLaid(f);
    forall b, i: nat | b in f.lists && i < |f.lists[b]| ensures Good(f, b, i) { AllGood(f, s, fin, b, i); }
    GoodStrict(f);
    GoodKinds(f);
  }

  lemma GoodStrict(f: Ir.Func)
    requires Ssa.Laid(f) &&
      forall b, i: nat {:trigger Good(f, b, i)} :: b in f.lists && i < |f.lists[b]| ==> Good(f, b, i)
    ensures Ssa.StrictSsa(f)
  {
    hide Ssa.OperandsAvailable, Ssa.Terminates, PhiPlacement.AddressKind, Ssa.Laid;
    forall b, i: nat | b in f.lists && i < |f.lists[b]|
      ensures f.lists[b][i] in f.code && Ssa.OperandsAvailable(f, b, i) && Ssa.Terminates(f, b, i) {
      assert Good(f, b, i);
    }
  }

  lemma GoodKinds(f: Ir.Func)
    requires Arranged(f.code, f.lists, f.home) &&
      forall b, i: nat {:trigger Good(f, b, i)} :: b in f.lists && i < |f.lists[b]| ==> Good(f, b, i)
    ensures PhiPlacement.AddressKinds(f.code)
  {
    hide Ssa.OperandsAvailable, Ssa.Terminates, PhiPlacement.AddressKind;
    forall x | x in f.code ensures PhiPlacement.AddressKind(f.code, x) {
      var i := Ssa.IndexOf(f.lists[f.home[x]], x);
      assert Good(f, f.home[x], i);
    }
  }

  lemma FunctionInput(globals: Bindings, d: FunDecl, self: Operand)
    requires VisitFunction(globals, d, self).ok && GlobalsTyped(StartNames(globals, d, self)) && FlatFunction(d)
    ensures PhiPlacement.Input(VisitFunction(globals, d, self).Func()) &&
      SuccsDistinct(VisitFunction(globals, d, self).g)
  {
    hide Whole, Sound, NamesOk, Final, Strict, Grown, VisitParams, VisitStmt, StartFunction, FlatLoops, GlobalsTyped,
      SuccsDistinct, PhiPlacement.Input, Graph.WellFormed, Usable;
    var fin := VisitFunction(globals, d, self);
    var s0 := StartFunction(globals, d, self);
    var s1 := VisitParams(s0, d.params, 0);
    var s2 := VisitStmt(s1, Compound(d.decls, d.body));
    var s3 := Exit(s2);
    var args := if d.ty.TypeVoid? then [] else [Ir.Const(0)];
    var f := fin.Func();
    FunctionIs(globals, d, self, s0, s1, s2, s3, args, fin);
    FunctionGrown(globals, d, self, s0, s1, s2, s3);
    FunctionShape(globals, d, self);
    StartSound(globals, d, self);
    GrownEmit(s3, Ir.Ret, args); GrownFacts(s3, fin); GrownFacts(s2, s3);
    GrownTrans(s0, s1, s2); GrownTrans(s0, s2, s3); GrownTrans(s0, s3, fin);
    ShapeValid(fin);
    FinalAll(s0, fin);
    FinalSplit(f, s0, s3, fin); FinalSplit(f, s0, s2, s3); FinalSplit(f, s0, s1, s2);
    StartNamesOk(f, globals, d, self);
    ParamsStrict(f, s0, d.params, 0);
    StmtStrict(f, s1, Compound(d.decls, d.body));
    StrictSame(f, s2, s3);
    ExitNames(f, s2, s3);
    ConstUsable(f, s3, 0);
    RetStrict(f, s3, args);
    StrictTrans(f, s0, s1, s2); StrictTrans(f, s0, s2, s3); StrictTrans(f, s0, s3, fin);
    StrictParts(f, s0, fin);
    StartEmpty(globals, d, self);
    InputHolds(f, s0, fin);
  }

  lemma ShapeValid(s: Build)
    requires Sound(s) && s.g.WellFormed()
    ensures Whole(s.Func()) && s.g.Valid() && s.lists.Keys == Elements(s.g.blocks)
  {
    hide Graph.Reachable, SuccsDistinct;
  }

  lemma StartEmpty(globals: Bindings, d: FunDecl, self: Operand)
    ensures StartFunction(globals, d, self).List(0) == []
  {
  }

  lemma ExitNames(f: Ir.Func, s: Build, s1: Build)
    requires NamesOk(f, s) && s1 == Exit(s)
    ensures NamesOk(f, s1)
  {
    hide Ssa.Before;
    forall i, id | 0 <= i < |s1.scope| && id in s1.scope[i] ensures Named(f, s1, s1.scope[i][id]) {
      assert s1.scope[i] == s.scope[i];
      assert id in s.scope[i];
      assert Named(f, s, s.scope[i][id]);
    }
  }
}
