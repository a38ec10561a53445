/** A variable that is set in one branch of a conditional only. Whether the pass gets through
    depends on the block it enters first. */
module OneBranch {
  import opened Wrappers
  import opened Cfg
  import Ir
  import opened Ast
  import opened Lowering
  import opened Choice
  import BuilderShape
  import Frontier
  import PhiPlacement
  import TreeWalk
  import Askers
  import PassOutcome
  import Renaming
  import Ssa
  import StatementStrict
  import Pipeline
  import FunctionIr
  import opened FunctionStrict
  import opened FunctionMeaning

  // int half(int c) { int x; if (c) x = 1; return x; }
  function Half(): FunDecl {
    Choose("half", None)
  }

  function Built(self: Operand): Ir.Func {
    VisitFunction(map[], Half(), self).Func()
  }

  // ---- What the builder makes of it ----

  function Joined(s: Build): Build {
    At(Arm(At(CondBr(NewBlock(NewBlock(s)), Ir.Res(4), 1, 2), 1), 1), 2)
  }

  lemma JoinedCode(s: Build)
    requires IsAsked(s)
    ensures VisitBranches(s, Ir.Res(4), Branch(None)) == Joined(s)
    ensures var s1 := Joined(s);
            && s1.g.blocks == [0, 1, 2] && s1.g.entry == 0
            && s1.Pred(0) == [] && s1.Pred(1) == [0] && s1.Pred(2) == [0, 1]
            && s1.lists.Keys == {0, 1, 2} && s1.lists[0] == [0, 1, 2, 3, 4, 5] && s1.lists[1] == [6, 7, 8]
            && s1.lists[2] == [] && s1.cur == 2 && s1.nextId == 9 && Bound(s1, 2)
            && s1.code == ArmInstrs(ForkedCode(2), 6, 1)
  {
    hide NewBlock, CondBr, Br, VisitStmt, Bound;
    NewCode(s);
    NewCode(NewBlock(s));
    var n := NewBlock(NewBlock(s));
    ForkCode(n, Ir.Res(4), 1, 2);
    var f := At(CondBr(n, Ir.Res(4), 1, 2), 1);
    BoundSame(s, f);
    ArmCode(f, 1);
    var a := Arm(f, 1);
    BoundSame(a, At(a, 2));
    JoinedPreds(s);
  }

  lemma JoinedPreds(s: Build)
    requires IsAsked(s)
    ensures Joined(s).Pred(0) == [] && Joined(s).Pred(1) == [0] && Joined(s).Pred(2) == [0, 1]
  {
    hide NewBlock, CondBr, Br, VisitStmt, Bound;
    NewCode(s);
    NewCode(NewBlock(s));
    var n := NewBlock(NewBlock(s));
    ForkCode(n, Ir.Res(4), 1, 2);
    var f := At(CondBr(n, Ir.Res(4), 1, 2), 1);
    BoundSame(s, f);
    ArmCode(f, 1);
    var a := Arm(f, 1);
    assert a.Pred(0) == f.Pred(0) == n.Pred(0) == NewBlock(s).Pred(0) == s.Pred(0);
    assert a.Pred(1) == f.Pred(1) == n.Pred(1) + [0] && n.Pred(1) == NewBlock(s).Pred(1);
    assert a.Pred(2) == f.Pred(2) + [1] == n.Pred(2) + [0] + [1] && [] + [0] + [1] == [0, 1];
  }

  // ---- The finished function ----

  ghost predicate GraphIs(g: Graph) {
    && g.blocks == [0, 1, 2] && g.entry == 0 && g.pred.Keys == {0, 1, 2}
    && g.pred[0] == [] && g.pred[1] == [0] && g.pred[2] == [0, 1]
  }

  ghost predicate ListsAre(lists: map<Block, seq<Ir.Id>>) {
    lists == map[0 := [0, 1, 2, 3, 4, 5], 1 := [6, 7, 8], 2 := [9, 10, 11]]
  }

  ghost predicate IsHalf(f: Ir.Func) {
    f.g.WellFormed() && GraphIs(f.g) && ListsAre(f.lists) && CodeIs(false, f.code)
  }

  lemma HalfIs(self: Operand)
    ensures IsHalf(Built(self)) && VisitFunction(map[], Half(), self).ok
  {
    hide Joined, Finish, Bound, VisitFunction, VisitBranches, Asked, IsAsked, Graph.WellFormed, ArmInstrs, EndInstrs,
      ForkedCode, CodeIs, ListsAre, GraphIs, SuccsDistinct, BuilderShape.Sound, Branch;
    var s := Asked("half", None, self);
    ChoiceIs("half", None, self);
    AskedIs("half", None, self);
    JoinedCode(s);
    FinishCode(Joined(s), 2);
    BuilderShape.FunctionShape(map[], Half(), self);
    HalfGraph(Joined(s));
    HalfLists(Joined(s).lists, Built(self).lists);
    HalfCode(Built(self).code);
  }

  lemma HalfGraph(s: Build)
    requires s.g.WellFormed() && s.g.blocks == [0, 1, 2] && s.g.entry == 0
    requires s.Pred(0) == [] && s.Pred(1) == [0] && s.Pred(2) == [0, 1]
    ensures GraphIs(s.g)
  {
    hide Graph.Reachable;
    assert 0 in s.g.blocks && 1 in s.g.blocks && 2 in s.g.blocks;
  }

  lemma HalfLists(l: map<Block, seq<Ir.Id>>, lists: map<Block, seq<Ir.Id>>)
    requires l.Keys == {0, 1, 2} && l[0] == [0, 1, 2, 3, 4, 5] && l[1] == [6, 7, 8] && l[2] == []
    requires lists == l[2 := l[2] + [9, 10, 11]]
    ensures ListsAre(lists)
  {
    assert l[2] + [9, 10, 11] == [9, 10, 11];
  }

  lemma HalfCode(code: map<Ir.Id, Ir.Instr>)
    requires code == EndInstrs(ArmInstrs(ForkedCode(2), 6, 1), 9, 2)
    ensures CodeIs(false, code)
  {
    forall x: Ir.Id | x < 12 ensures x in code && InstrIs(false, x, code[x]) {
    }
  }

  // ---- Its graph ----

  predicate HalfEdge(a: Block, b: Block) {
    (a == 0 && b == 1) || (a == 0 && b == 2) || (a == 1 && b == 2)
  }

  lemma HalfEdges(g: Graph)
    requires g.WellFormed() && GraphIs(g)
    ensures forall a, b :: g.Edge(a, b) <==> HalfEdge(a, b)
  {
    forall a, b ensures g.Edge(a, b) <==> HalfEdge(a, b) {
      assert g.Edge(a, b) <==> b in g.pred && a in g.pred[b];
    }
  }

  // The entry dominates every block, and no other block dominates another.
  lemma HalfTree(g: Graph)
    requires g.WellFormed() && GraphIs(g)
    ensures forall d, b :: b in {0, 1, 2} && g.Dominates(d, b) ==> d == 0 || d == b
    ensures forall b :: g.Dominates(0, b) && g.Dominates(b, b)
  {
    hide Graph.Reachable;
    HalfEdges(g);
    assert g.PathTo([0], 0) && forall x :: x in [0] ==> x == 0;
    forall d, b | (b == 1 || b == 2) && g.Dominates(d, b) ensures d == 0 || d == b {
      if d != b { AboveBranch(g, b, d); }
    }
    forall b, p | g.PathTo(p, b) ensures 0 in p && b in p {
      assert p[0] == 0 && p[|p| - 1] == b;
    }
  }

  // Either block behind the entry can be entered first.
  lemma HalfWalk(f: Ir.Func, order: seq<Block>)
    requires IsHalf(f) && (order == [0, 1, 2] || order == [0, 2, 1])
    ensures PassOutcome.WholeWalk(f.g, order)
  {
    hide Graph.WellFormed, Graph.Dominates, CodeIs, ListsAre;
    var g := f.g;
    HalfTree(g);
    forall k | 0 <= k < |order|
      ensures order[k] !in order[..k] && (forall d :: g.StrictlyDominates(d, order[k]) ==> d in order[..k])
      ensures TreeWalk.OpenAt(g, order[..k], order[k])
    {
      if k > 0 { assert order[..k][0] == 0; }
      assert order[k] in {0, 1, 2};
    }
    assert Elements(order) == Elements([0, 1, 2]);
  }

  // ---- Who asks ----

  // The one store to x is in block 1, so that block 2 gets a phi.
  lemma HalfPhi(f: Ir.Func)
    requires IsHalf(f)
    ensures PhiPlacement.InIdf(f.g, PhiPlacement.StoreBlocks(f, 2), 2)
  {
    hide Graph.WellFormed, Graph.Dominates, CodeIs, Ir.StoreCell;
    HalfTree(f.g);
    Accesses(false, f.code, 7);
    assert f.lists[1][1] == 7;
    assert 1 in f.g.pred[2];
    assert Frontier.InFrontier(f.g, 1, 2);
    assert PhiPlacement.FrontierChain(f.g, PhiPlacement.StoreBlocks(f, 2), [1, 2]) && [1, 2][1] == 2;
  }

  lemma HalfAsks(f: Ir.Func)
    requires IsHalf(f)
    ensures Askers.LoadsUnset(f, 1, 0, 2) && Askers.Sets(f, 2, 2) && Askers.LeavesUnset(f, 0, 2)
  {
    hide Graph.WellFormed, CodeIs, PhiPlacement.InIdf, PhiPlacement.StoreBlocks, Askers.LoadsUnset, Askers.SetAbove;
    HalfEdges(f.g);
    HalfPhi(f);
    EntryUnset(false, f);
    Askers.NoneAbove(f, 2);
    ArmAsks(false, f, 1);
  }

  // Block 1 sets x only, and block 2, where x has a phi, does not ask for it.
  lemma BlockTwoServed(f: Ir.Func, v: Ir.Id)
    requires IsHalf(f) && Askers.Sets(f, 1, v)
    ensures !Askers.Asks(f, 2, v)
  {
    hide Graph.WellFormed, CodeIs, PhiPlacement.InIdf, Ir.StoreCell, Ir.LoadCell, Askers.SetAbove, Askers.LoadsFirst;
    HalfEdges(f.g);
    HalfPhi(f);
    NoPhi(f, 1, v);
    var i :| 0 <= i < |f.lists[1]| && Ir.StoreCell(f.code, f.lists[1][i]) == Some(v);
    Accesses(false, f.code, f.lists[1][i]);
    assert v == 2;
  }

  // What the entry sets is missed nowhere else.
  lemma EntryServes(f: Ir.Func, b: Block, v: Ir.Id)
    requires IsHalf(f) && Askers.Sets(f, 0, v) && (b == 1 || b == 2)
    ensures !Askers.Asks(f, b, v)
  {
    hide Graph.WellFormed, CodeIs, PhiPlacement.InIdf, Askers.LoadsFirst;
    NoPhi(f, 0, v);
    PassOutcome.SetInEntry(f, b, v);
  }

  // ---- The two orders ----

  lemma NoneMissed(s: Ssa.Placed, f: Ir.Func)
    requires Askers.IdfPlaced(s, f) && s.Valid() && IsHalf(f)
    ensures Renaming.NoClash(s, [0, 1, 2], 0)
  {
    hide IsHalf, Ssa.Placed.Valid, Askers.IdfPlaced, Renaming.Missing, Ssa.Defines;
    var order: seq<Block> := [0, 1, 2];
    assert order[..0] == [] && order[..1] == [0] && order[..2] == [0, 1];
    forall k, v, c | 0 <= k < |order| && order[k] in s.f.lists && Renaming.Missing(s, order[k], v) &&
      c in Elements(order[..k])
      ensures !Ssa.Defines(s, c, v) {
      Askers.MissingIsAsks(s, f, order[k], v);
      Askers.DefinesSets(s, f, c, v);
      if Askers.Sets(f, 0, v) && k > 0 { EntryServes(f, order[k], v); }
      if Askers.Sets(f, 1, v) { BlockTwoServed(f, v); }
    }
  }

  lemma HalfPasses(self: Operand, s: Ssa.Placed)
    requires Askers.IdfPlaced(s, Built(self))
    ensures PassOutcome.WholeWalk(Built(self).g, [0, 1, 2]) && Renaming.NoClash(s, [0, 1, 2], 0)
  {
    hide *;
    var f := Built(self);
    HalfIs(self);
    HalfWalk(f, [0, 1, 2]);
    Askers.IdfParts(s, f);
    NoneMissed(s, f);
  }

  lemma HalfClashes(self: Operand, s: Ssa.Placed)
    requires Askers.IdfPlaced(s, Built(self))
    ensures PassOutcome.WholeWalk(Built(self).g, [0, 2, 1]) && Renaming.SomeClash(s, [0, 2, 1], 0)
  {
    hide *;
    var f := Built(self);
    HalfIs(self);
    HalfWalk(f, [0, 2, 1]);
    HalfAsks(f);
    Askers.IdfParts(s, f);
    assert Askers.Asks(f, 1, 2) by { LoadAsks(f, 1, 0, 2); }
    PassOutcome.AskersListed(f, 1, 2);
    Askers.MissingIsAsks(s, f, 1, 2);
    Askers.DefinesSets(s, f, 2, 2);
    PassOutcome.ClashAt(s, [0, 2, 1], 1, 2, 2);
  }

  lemma LoadAsks(f: Ir.Func, b: Block, i: int, v: Ir.Id)
    requires Askers.LoadsUnset(f, b, i, v)
    ensures Askers.Asks(f, b, v)
  {
    hide Askers.LoadsUnset;
  }

  // There is no third order.
  lemma TwoOrders(f: Ir.Func, order: seq<Block>)
    requires IsHalf(f) && PassOutcome.WholeWalk(f.g, order)
    ensures order == [0, 1, 2] || order == [0, 2, 1]
  {
    hide Graph.WellFormed, Graph.Dominates, CodeIs, ListsAre, TreeWalk.Nested;
    HalfTree(f.g);
    assert 0 in Elements(order) && 1 in Elements(order) && 2 in Elements(order);
    forall k | 0 <= k < |order| ensures order[k] in {0, 1, 2} { assert order[k] in Elements(order); }
    assert order[..0] == [];
    assert order[0] != 0 ==> f.g.StrictlyDominates(0, order[0]);
    forall i, j | 0 <= i < j < |order| ensures order[i] != order[j] { assert order[..j][i] == order[i]; }
    if |order| > 3 { assert order[1] != order[2] && order[1] != order[3] && order[2] != order[3]; }
  }

  // ---- The pass ----

  lemma HalfReady(self: Operand)
    requires self.Global?
    ensures VisitFunction(map[], Half(), self).ok && GlobalsTyped(StartNames(map[], Half(), self))
    ensures FlatFunction(Half())
    ensures var fin := VisitFunction(map[], Half(), self); fin.Func() == Built(self) && fin.g == Built(self).g
  {
    hide VisitFunction, GlobalsTyped, StartNames, IsHalf;
    HalfIs(self);
    NamesTyped(Half(), self);
    assert FlatLoops(Branch(None));
  }

  lemma HalfUnset(self: Operand)
    ensures !PassOutcome.EndsAllSet(Built(self)) && !PassOutcome.LoadsAllSet(Built(self))
  {
    hide Askers.LoadsUnset, Askers.LeavesUnset, Built, Graph.WellFormed;
    HalfIs(self);
    HalfAsks(Built(self));
    assert 2 in Built(self).code;
  }

  // The pass gets through exactly if it enters the branch first. Then the phi behind the conditional
  // has no pair for the entry, and the load in front of the store is left without a value.
  method PromoteHalf(self: Operand) returns (ok: bool, body: FunctionIr.Body, ghost order: seq<Block>)
    requires self.Global?
    ensures ok <==> order == [0, 1, 2]
    ensures ok ==> !PassOutcome.PairedResult(body.Snapshot(Built(self).g))
    ensures ok ==> !PassOutcome.StrictResult(body.Snapshot(Built(self).g))
  {
    hide *;
    HalfReady(self);
    HalfUnset(self);
    HalfIs(self);
    ghost var s;
    ok, body, s, order := Pipeline.PromoteBuilt(map[], Half(), self);
    HalfPasses(self, s);
    HalfClashes(self, s);
    if ok { TwoOrders(Built(self), order); }
    if order == [0, 2, 1] { Clashing(s, order); }
  }
}
