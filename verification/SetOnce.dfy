/** A function that sets its one variable at once: the builder accepts it, the pass gets through
    it, and what is left is not in strict form. */
module SetOnce {
  import opened Wrappers
  import opened Cfg
  import Ir
  import Renaming
  import Askers
  import PassOutcome
  import FunctionIr
  import EntryCells
  import EntryLoads
  import opened Ast
  import opened Lowering
  import opened FunctionStrict
  import opened FunctionMeaning
  import opened Choice
  import Pipeline

  // int once() { int x; x = 1; return x; }
  function Once(): FunDecl {
    FunDecl(TypeInt, "once", [], DeclX(), [SetX(1), Return(Some(Var("x", None)))])
  }

  lemma OnceInitialised()
    ensures EntryCells.Initialised(Once())
  {
    var d := Once();
    assert EntryCells.Variables(d.decls) == {"x"} by { assert d.decls[1..] == []; }
    assert {"x"} - {"x"} == {};
    assert d.body[1..] == [Return(Some(Var("x", None)))];
    assert EntryCells.SetFirst(d.body[1..], {});
  }

  // The load in front of the first assignment has no value, whatever the names around.
  lemma OnceUnset(globals: Bindings, self: Operand)
    ensures !PassOutcome.LoadsAllSet(VisitFunction(globals, Once(), self).Func())
  {
    hide EntryCells.Initialised, PassOutcome.LoadsAllSet, VisitFunction;
    OnceInitialised();
    EntryLoads.InitialisedUnset(globals, Once(), self, 0);
  }

  lemma OnceIs(self: Operand)
    ensures var s := StartFunction(map[], Once(), self);
            VisitFunction(map[], Once(), self) == Finish(VisitStmt(VisitDecls(Enter(s), DeclX()), SetX(1)))
  {
    hide StartFunction, VisitDecls, VisitStmt, Emit, Exit;
    var s := StartFunction(map[], Once(), self);
    NoParams(s, 0);
    CompoundParts(s, DeclX(), Once().body);
    TwoStmts(VisitDecls(Enter(s), DeclX()), SetX(1), Return(Some(Var("x", None))));
  }

  lemma OnceReady(self: Operand)
    requires self.Global?
    ensures VisitFunction(map[], Once(), self).ok && GlobalsTyped(StartNames(map[], Once(), self))
    ensures FlatFunction(Once()) && Pipeline.HasNumber(Once())
  {
    hide StartFunction, StartNames, GlobalsTyped, VisitDecls, VisitStmt, Finish, VisitFunction;
    OnceIs(self);
    NamesTyped(Once(), self);
    StartIs(Once(), self);
    var s := Enter(StartFunction(map[], Once(), self));
    DeclCode(s);
    var s1 := VisitDecls(s, DeclX());
    SetXCode(s1, 1, 0);
    FinishCode(VisitStmt(s1, SetX(1)), 0);
    assert EntryLoads.IsNumber(Once().decls[0]);
  }

  method PromoteOnce(self: Operand) returns (ok: bool, body: FunctionIr.Body)
    requires self.Global?
    ensures ok && !PassOutcome.StrictResult(body.Snapshot(VisitFunction(map[], Once(), self).g))
  {
    hide *;
    OnceReady(self);
    OnceInitialised();
    ghost var s, order;
    ok, body, s, order := Pipeline.PromoteBuilt(map[], Once(), self);
  }
}
