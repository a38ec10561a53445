/** A variable that nothing sets before a conditional, and both branches set: what the builder
    makes of it makes the walk fail in every order. */
module BothBranches {
  import opened Wrappers
  import opened Cfg
  import Ir
  import Ssa
  import PhiPlacement
  import Renaming
  import Askers
  import PassOutcome
  import opened Ast
  import opened Lowering
  import opened Choice
  import opened FunctionStrict
  import opened FunctionMeaning
  import BuilderShape
  import StatementStrict
  import Pipeline

  // int pick(int c) { int x; if (c) x = 1; else x = 2; return x; }
  function Pick(): FunDecl {
    Choose("pick", Some(SetX(2)))
  }

  function Built(self: Operand): Ir.Func {
    VisitFunction(map[], Pick(), self).Func()
  }

  // ---- What the builder makes of it ----

  function Forked(s: Build): Build {
    At(CondBr(NewBlock(NewBlock(NewBlock(s))), Ir.Res(4), 1, 3), 1)
  }

  function Joined(s: Build): Build {
    At(Arm(At(Arm(Forked(s), 1), 3), 2), 2)
  }

  lemma BranchesAre(s: Build)
    requires s.nextBlock == 1 && NewBlock(NewBlock(s)).nextBlock == 3
    ensures VisitBranches(s, Ir.Res(4), Branch(Some(SetX(2)))) == Joined(s)
  {
    hide VisitStmt, CondBr, Br, NewBlock;
  }

  lemma JoinedCode(s: Build)
    requires IsAsked(s)
    ensures VisitBranches(s, Ir.Res(4), Branch(Some(SetX(2)))) == Joined(s)
    ensures var s1 := Joined(s);
            && s1.g.entry == 0 && s1.Pred(0) == [] && s1.Pred(1) == [0] && s1.Pred(3) == [0]
            && s1.lists.Keys == {0, 1, 2, 3} && s1.lists[0] == [0, 1, 2, 3, 4, 5] && s1.lists[1] == [6, 7, 8]
            && s1.lists[3] == [9, 10, 11] && s1.cur == 2 && s1.nextId == 12 && Bound(s1, 2)
            && s1.code == ArmInstrs(ArmInstrs(ForkedCode(3), 6, 1), 9, 2)
  {
    hide NewBlock, Arm, VisitBranches, Bound, ArmInstrs, At, Forked, ForkedCode, AskedCode;
    NewCode(s);
    NewCode(NewBlock(s));
    BranchesAre(s);
    ForkedCodeOf(s);
    var f := Forked(s);
    ArmCode(f, 1);
    var a := Arm(f, 1);
    AtCode(a, 3);
    ArmCode(At(a, 3), 2);
    var c := Arm(At(a, 3), 2);
    AtCode(c, 2);
    assert c.Pred(0) == At(a, 3).Pred(0) == a.Pred(0) == f.Pred(0);
    assert c.Pred(1) == At(a, 3).Pred(1) == a.Pred(1) == f.Pred(1);
    assert c.Pred(3) == At(a, 3).Pred(3) == a.Pred(3) == f.Pred(3);
  }

  lemma ForkedCodeOf(s: Build)
    requires IsAsked(s)
    ensures var f := Forked(s);
            && f.g.entry == 0 && f.Pred(0) == [] && f.Pred(1) == [0] && f.Pred(3) == [0]
            && f.lists.Keys == {0, 1, 2, 3} && f.lists[0] == [0, 1, 2, 3, 4, 5] && f.lists[1] == [] && f.lists[3] == []
            && f.cur == 1 && f.nextId == 6 && Bound(f, 2) && f.code == ForkedCode(3)
  {
    hide NewBlock, CondBr, Bound, AskedCode;
    NewCode(s);
    NewCode(NewBlock(s));
    NewCode(NewBlock(NewBlock(s)));
    var n := NewBlock(NewBlock(NewBlock(s)));
    ForkCode(n, Ir.Res(4), 1, 3);
    var f := Forked(s);
    BoundSame(s, f);
    assert f.Pred(0) == n.Pred(0) == NewBlock(NewBlock(s)).Pred(0) == NewBlock(s).Pred(0) == s.Pred(0);
    assert f.Pred(1) == n.Pred(1) + [0] && n.Pred(1) == NewBlock(NewBlock(s)).Pred(1) == NewBlock(s).Pred(1);
    assert f.Pred(3) == n.Pred(3) + [0];
  }

  // ---- The finished function ----

  ghost predicate IsPick(f: Ir.Func) {
    && f.g.WellFormed() && f.g.entry == 0 && CodeIs(true, f.code)
    && 1 in f.g.pred && f.g.pred[1] == [0] && 3 in f.g.pred && f.g.pred[3] == [0]
    && f.lists.Keys == {0, 1, 2, 3} && f.lists[0] == [0, 1, 2, 3, 4, 5] && f.lists[1] == [6, 7, 8]
    && f.lists[3] == [9, 10, 11]
  }

  lemma PickIs(self: Operand)
    ensures IsPick(Built(self)) && VisitFunction(map[], Pick(), self).ok
  {
    hide Joined, Finish, Bound, VisitFunction, VisitBranches, Asked, IsAsked, Graph.WellFormed, ArmInstrs, EndInstrs,
      ForkedCode, CodeIs, Choose, SetX, Branch, SuccsDistinct, BuilderShape.Sound;
    var s := Asked("pick", Some(SetX(2)), self);
    ChoiceIs("pick", Some(SetX(2)), self);
    AskedIs("pick", Some(SetX(2)), self);
    JoinedCode(s);
    FinishCode(Joined(s), 2);
    BuilderShape.FunctionShape(map[], Pick(), self);
    PickGraph(Joined(s));
    PickCode(Built(self).code);
  }

  lemma PickGraph(s: Build)
    requires s.g.WellFormed() && s.g.entry == 0 && s.Pred(1) == [0] && s.Pred(3) == [0]
    ensures 1 in s.g.pred && s.g.pred[1] == [0] && 3 in s.g.pred && s.g.pred[3] == [0]
  {
    hide Graph.WellFormed;
  }

  lemma PickCode(code: map<Ir.Id, Ir.Instr>)
    requires code == EndInstrs(ArmInstrs(ArmInstrs(ForkedCode(3), 6, 1), 9, 2), 12, 2)
    ensures CodeIs(true, code)
  {
    forall x: Ir.Id | x < 12 ensures x in code && InstrIs(true, x, code[x]) {
    }
  }

  lemma PickAsks(f: Ir.Func)
    requires IsPick(f)
    ensures Askers.Asks(f, 1, 2) && Askers.Sets(f, 1, 2) && Askers.Asks(f, 3, 2) && Askers.Sets(f, 3, 2)
  {
    hide Graph.WellFormed, CodeIs, Askers.LoadsUnset, Askers.LeavesUnset, Askers.Sets;
    ArmAsks(true, f, 1);
    ArmAsks(true, f, 3);
  }

  // ---- What becomes of it ----

  // The builder accepts the function.
  lemma PickReady(self: Operand)
    requires self.Global?
    ensures VisitFunction(map[], Pick(), self).ok && GlobalsTyped(StartNames(map[], Pick(), self))
    ensures FlatFunction(Pick())
    ensures var fin := VisitFunction(map[], Pick(), self); fin.Func() == Built(self) && fin.g == Built(self).g
  {
    hide VisitFunction, GlobalsTyped, StartNames, IsPick;
    PickIs(self);
    NamesTyped(Pick(), self);
    assert FlatLoops(Branch(Some(SetX(2))));
  }

  // Nothing is wrong with the function as an input to the pass.
  lemma PickIsInput(self: Operand)
    requires self.Global?
    ensures PhiPlacement.Input(Built(self)) && SuccsDistinct(Built(self).g)
  {
    hide VisitFunction, PhiPlacement.Input, SuccsDistinct, GlobalsTyped, FlatFunction;
    PickReady(self);
    FunctionInput(map[], Pick(), self);
  }

  // Every order of the walk fails.
  lemma PickClashes(self: Operand, s: Ssa.Placed, order: seq<Block>)
    requires Askers.IdfPlaced(s, Built(self)) && PassOutcome.WholeWalk(Built(self).g, order)
    ensures Renaming.SomeClash(s, order, 0)
  {
    hide *;
    PickIs(self);
    PickAsks(Built(self));
    Askers.IdfParts(s, Built(self));
    PassOutcome.TwoAskersClash(s, Built(self), order, 1, 3, 2);
  }

  // The pass does not get through the function.
  method PromotePick(self: Operand) returns (ok: bool)
    requires self.Global?
    ensures !ok
  {
    hide *;
    PickReady(self);
    var body;
    ghost var s, order;
    ok, body, s, order := Pipeline.PromoteBuilt(map[], Pick(), self);
    if ok {
      PickClashes(self, s, order);
      Clashing(s, order);
    }
  }
}
