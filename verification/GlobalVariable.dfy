/** A function that assigns to a global variable and hands its value on: what the code made of it
    does in a world in which a variable holds what was last stored to it. */
module GlobalVariable {
  import opened Wrappers
  import opened Cfg
  import Ir
  import opened Ast
  import opened Lowering
  import opened Cminus
  import opened Runs
  import opened Cells
  import opened BuilderMeaning
  import opened FunctionMeaning
  import Typing

  // int a; and the library function output.
  function Names(): Bindings {
    map["a" := Value(Ir.Global(0), Ptr(Int32)), "output" := Value(Ir.Global(1), Func(Void, [Int32]))]
  }

  function Shown(): Known {
    Known(map["a" := Shared(0, IntT), "output" := Fun(1, [IntT], VoidT)], VoidT)
  }

  function SetA(): Expr {
    Assign("a", None, Num(TypeInt, 1234))
  }

  function ShowA(): Expr {
    Call("output", [Var("a", None)])
  }

  // void main(void) { a = 1234; output(a); return; }
  function Show(): FunDecl {
    FunDecl(TypeVoid, "main", [], [], [ExprStmt(Some(SetA())), ExprStmt(Some(ShowA())), Return(None)])
  }

  // A global variable holds what was last stored to it.
  ghost predicate Remembers(w: Ir.World) {
    forall v, a, tr {:trigger tr + [Ir.Event(Ir.Store, [v, a])]} ::
      w.value(Ir.Load, [a], tr + [Ir.Event(Ir.Store, [v, a])]) == v
  }

  function Recall(tr: seq<Ir.Event>, a: int): int {
    if tr == [] then 0
    else
      var e := tr[|tr| - 1];
      if e.op.Store? && |e.args| == 2 && e.args[1] == a then e.args[0] else Recall(tr[..|tr| - 1], a)
  }

  // There are such worlds, whatever floats are and wherever globals are placed.
  function Remembering(arg: nat -> int, global: nat -> int, fl: Ir.Floats): (w: Ir.World)
    ensures Ir.Arithmetic(w) && Remembers(w) && w.arg == arg && w.global == global && w.floats == fl
  {
    Ir.WithArithmetic(Ir.World(arg, global, (op: Opcode, args: seq<int>, tr: seq<Ir.Event>) =>
      if op.Load? && |args| == 1 then Recall(tr, args[0]) else 0, fl))
  }

  function StoreOfA(w: Ir.World): Ir.Event {
    Ir.Event(Ir.Store, [1234, w.global(0)])
  }

  function CallOfOutput(w: Ir.World): Ir.Event {
    Ir.Event(Ir.Effect(0), [w.global(1), 1234])
  }

  // ---- What it means ----

  lemma SetMeans(w: Ir.World, st: Memory)
    requires Cminus.Lookup(st.scopes, "a").None?
    ensures EvalExpr(w, Shown(), st, SetA()) ==
      Gives(IntT, Ir.V(1234), st.(trace := st.trace + [StoreOfA(w)]))
  {
  }

  lemma ShowMeans(w: Ir.World, st: Memory)
    requires Cminus.Lookup(st.scopes, "a").None? && Cminus.Lookup(st.scopes, "output").None?
    requires w.value(Ir.Load, [w.global(0)], st.trace) == 1234
    ensures EvalExpr(w, Shown(), st, ShowA()).Gives? &&
      EvalExpr(w, Shown(), st, ShowA()).st == st.(trace := st.trace + [CallOfOutput(w)])
  {
    var args := [Var("a", None)];
    assert args[1..] == [];
    assert [IntT][1..] == [];
    assert EvalArgs(w, Shown(), st, args, [IntT]) == GivesArgs([1234], st);
    assert [w.global(1)] + [1234] == [w.global(1), 1234];
  }

  lemma NoLocals()
    ensures Cminus.Lookup([map[], map[], map[]], "a").None? && Cminus.Lookup([map[], map[], map[]], "output").None?
  {
    var scopes: seq<Vars> := [map[], map[], map[]];
    assert scopes[..2] == [map[], map[]] && scopes[..2][..1] == [map[]] && scopes[..2][..1][..0] == [];
    assert Cminus.Lookup(scopes[..2][..1], "a").None? && Cminus.Lookup(scopes[..2][..1], "output").None?;
    assert Cminus.Lookup(scopes[..2], "a").None? && Cminus.Lookup(scopes[..2], "output").None?;
  }

  lemma Recalls(w: Ir.World, v: int, a: int, tr: seq<Ir.Event>)
    requires Remembers(w)
    ensures w.value(Ir.Load, [a], tr + [Ir.Event(Ir.Store, [v, a])]) == v
  {
  }

  lemma ShowRuns(w: Ir.World)
    requires Remembers(w)
    ensures RunFunction(w, Shown(), Show(), 0) == Returned([], [StoreOfA(w), CallOfOutput(w)])
  {
    var d := Show();
    var st := Memory([map[], map[], map[]], []);
    var st1 := st.(trace := st.trace + [StoreOfA(w)]);
    var st2 := st1.(trace := st1.trace + [CallOfOutput(w)]);
    NoLocals();
    Recalls(w, 1234, w.global(0), []);
    SetMeans(w, st);
    ShowMeans(w, st1);
    assert st2.trace == [StoreOfA(w), CallOfOutput(w)];
    assert d.body[1..] == [ExprStmt(Some(ShowA())), Return(None)];
    assert d.body[1..][1..] == [Return(None)];
    assert RunAll(w, Shown(), st2, [Return(None)], 0) == Returned([], st2.trace);
    assert RunAll(w, Shown(), st1, d.body[1..], 0) == Returned([], st2.trace);
    assert RunAll(w, Shown(), st, d.body, 0) == Returned([], st2.trace);
    assert st.scopes == [map[], map[]] + [map[]];
    assert Bind(w, d.params, 0, map[]) == map[] && Declare(w, st, d.decls) == st;
    assert Cminus.Run(w, Shown(), Memory([map[], map[]], []), Compound(d.decls, d.body), 0) == Returned([], st2.trace);
  }

  // ---- What is built ----

  function ShownKinds(): Typing.Kinds {
    map["a" := Typing.Variable(IntT), "output" := Typing.Function([IntT], VoidT)]
  }

  lemma KindsSeen()
    ensures var env := Typing.Globally(ShownKinds(), Show()) + [map[]] + [map[]];
            Typing.KindOf(env, "a") == Some(Typing.Variable(IntT)) &&
              Typing.KindOf(env, "output") == Some(Typing.Function([IntT], VoidT))
  {
    var g := Typing.Globally(ShownKinds(), Show());
    var env := g + [map[]] + [map[]];
    assert env[..2] == g + [map[]] && env[..2][..1] == g && |g| == 1;
    assert Typing.KindOf(env[..2], "a") == Typing.KindOf(g, "a");
    assert Typing.KindOf(env[..2], "output") == Typing.KindOf(g, "output");
  }

  lemma ShowTyped()
    ensures Typing.WellTyped(ShownKinds(), Show())
  {
    hide Typing.KindOf, Typing.Globally;
    KindsSeen();
    var d, env := Show(), Typing.Globally(ShownKinds(), Show()) + [map[]] + [map[]];
    var args := [Var("a", None)];
    assert args[1..] == [] && [IntT][1..] == [];
    assert Typing.TypeOf(env, args[0]) == Some(IntT);
    assert Typing.ArgsTyped(env, args, [IntT]);
    assert Typing.TypeOf(env, SetA()) == Some(IntT) && Typing.TypeOf(env, ShowA()) == Some(VoidT);
    forall i | 0 <= i < |d.body| ensures Typing.Typed(env, VoidT, d.body[i]) {
      assert d.body[i] == ExprStmt(Some(SetA())) || d.body[i] == ExprStmt(Some(ShowA())) || d.body[i] == Return(None);
    }
  }

  lemma ShowBuilt(self: Operand)
    requires !self.Res?
    ensures FunctionMeaning.Built(Shown(), Names(), Show(), self)
  {
    hide VisitFunction, Typing.WellTyped;
    assert Lowers([IntT]) == [Int32] by { assert [IntT][1..] == []; }
    Typing.Accepted(ShownKinds(), Names(), Show(), self);
    ShowTyped();
    assert StartNames(Names(), Show(), self) == Push([Names()], "main", Value(self, Func(Void, ParamTypes(Show()))))[0];
  }

  // The built function stores 1234 to the variable, and calls output with it.
  lemma ShowAnswers(w: Ir.World, self: Operand)
    requires Ir.Arithmetic(w) && Remembers(w) && !self.Res?
    ensures Returns(VisitFunction(Names(), Show(), self).Func(), w, [], [StoreOfA(w), CallOfOutput(w)])
  {
    hide FunctionMeaning.Built, VisitFunction, RunFunction, Ir.Arithmetic, Remembers;
    ShowBuilt(self);
    ShowRuns(w);
    FunctionMeans(w, Shown(), Names(), Show(), self, 0);
  }
}
