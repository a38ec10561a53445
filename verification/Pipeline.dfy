/** From the source to promoted code. */
module Pipeline {
  import opened Cfg
  import Ir
  import PhiPlacement
  import FunctionIr
  import PassOutcome
  import Promotion
  import Askers
  import Renaming
  import Ssa
  import opened Ast
  import opened Lowering
  import opened BuilderShape
  import opened Cminus
  import opened Runs
  import opened BuilderMeaning
  import opened FunctionMeaning
  import opened FunctionStrict
  import EntryCells
  import EntryLoads

  // What f does is what the source function means, in every world and with every set of callable
  // functions.
  ghost predicate Computes(f: Ir.Func, globals: Bindings, d: FunDecl, self: Operand) {
    forall w, known :: Ir.Arithmetic(w) && Built(known, globals, d, self) ==> ComputesIn(f, w, known, d)
  }

  // When the source returns, f makes the same calls and returns the same. If the source never goes
  // wrong, then f never gets stuck, and when f returns, so does the source.
  ghost predicate ComputesIn(f: Ir.Func, w: Ir.World, known: Known, d: FunDecl) {
    && (forall v, tr :: SourceReturns(w, known, d, v, tr) ==> Returns(f, w, v, tr))
    && ((forall fuel :: !RunFunction(w, known, d, fuel).Wrong?) ==>
          && (forall k :: !Ir.Run(f, w, k).Stuck?)
          && (forall v, tr :: Returns(f, w, v, tr) ==> SourceReturns(w, known, d, v, tr)))
  }

  lemma BuiltComputes(globals: Bindings, d: FunDecl, self: Operand)
    ensures Computes(VisitFunction(globals, d, self).Func(), globals, d, self)
  {
    hide VisitFunction, RunFunction, Built, Ir.Arithmetic, Ir.Run, Returns;
    forall w, known | Ir.Arithmetic(w) && Built(known, globals, d, self)
      ensures ComputesIn(VisitFunction(globals, d, self).Func(), w, known, d) {
      forall v, tr | SourceReturns(w, known, d, v, tr)
        ensures Returns(VisitFunction(globals, d, self).Func(), w, v, tr) {
        var fuel: nat :| RunFunction(w, known, d, fuel) == Returned(v, tr);
        FunctionMeans(w, known, globals, d, self, fuel);
      }
      if forall fuel :: !RunFunction(w, known, d, fuel).Wrong? {
        FunctionMeansExactly(w, known, globals, d, self);
      }
    }
  }

  lemma RefinedReturns(f: Ir.Func, f3: Ir.Func, w: Ir.World, v: seq<int>, tr: seq<Ir.Event>)
    requires Ir.Refines(f, f3)
    ensures Returns(f, w, v, tr) ==> Returns(f3, w, v, tr)
    ensures (forall k :: !Ir.Run(f, w, k).Stuck?) && Returns(f3, w, v, tr) ==> Returns(f, w, v, tr)
  {
    hide Ir.Run;
    if k: nat :| Ir.Run(f, w, k) == Ir.Done(v, tr) {
      assert Ir.RefinesAt(Ir.Run(f, w, k), Ir.Run(f3, w, k));
    }
    if k: nat :| Ir.Run(f3, w, k) == Ir.Done(v, tr) {
      assert Ir.RefinesAt(Ir.Run(f, w, k), Ir.Run(f3, w, k));
    }
  }

  lemma RefinedComputes(f: Ir.Func, f3: Ir.Func, globals: Bindings, d: FunDecl, self: Operand)
    requires Computes(f, globals, d, self) && Ir.Refines(f, f3)
    ensures Computes(f3, globals, d, self)
  {
    hide RunFunction, Built, Ir.Arithmetic, Ir.Run, Returns, SourceReturns;
    forall w, known | Ir.Arithmetic(w) && Built(known, globals, d, self) ensures ComputesIn(f3, w, known, d) {
      forall v, tr { RefinedReturns(f, f3, w, v, tr); }
      if forall k :: !Ir.Run(f, w, k).Stuck? {
        forall k: nat ensures !Ir.Run(f3, w, k).Stuck? {
          assert Ir.RefinesAt(Ir.Run(f, w, k), Ir.Run(f3, w, k));
        }
      }
    }
  }

  // The function declares a variable of its own that is a number.
  predicate HasNumber(d: FunDecl) {
    exists m :: 0 <= m < |d.decls| && EntryLoads.IsNumber(d.decls[m])
  }

  lemma StrictWhen(globals: Bindings, d: FunDecl, self: Operand)
    requires EntryCells.Initialised(d)
    ensures EntryCells.ArraysOnly(d.decls) ==> PassOutcome.LoadsAllSet(VisitFunction(globals, d, self).Func())
    ensures HasNumber(d) ==> !PassOutcome.LoadsAllSet(VisitFunction(globals, d, self).Func())
  {
    hide EntryCells.Initialised, EntryCells.ArraysOnly, EntryLoads.IsNumber, PassOutcome.LoadsAllSet, VisitFunction;
    if EntryCells.ArraysOnly(d.decls) { EntryLoads.ParamsOnlySet(globals, d, self); }
    if m :| 0 <= m < |d.decls| && EntryLoads.IsNumber(d.decls[m]) { EntryLoads.InitialisedUnset(globals, d, self, m); }
  }

  // Builds d and promotes what the builder has made of it. If the walk gets through, the result
  // still computes what the source means. It does get through if every variable is set at the start.
  // That is not to say that the result is in strict form: it is not if a load is left to which no
  // value comes, and one is if the function has a variable of its own and sets it at the start.
  method PromoteBuilt(globals: Bindings, d: FunDecl, self: Operand)
    returns (ok: bool, body: FunctionIr.Body, ghost s: Ssa.Placed, ghost order: seq<Block>)
    requires VisitFunction(globals, d, self).ok && GlobalsTyped(StartNames(globals, d, self)) && FlatFunction(d)
    ensures EntryCells.Initialised(d) ==> ok
    ensures Askers.IdfPlaced(s, VisitFunction(globals, d, self).Func()) && s.Valid() &&
      (ok <==> Renaming.NoClash(s, order, 0))
    ensures ok ==> PassOutcome.WholeWalk(VisitFunction(globals, d, self).g, order)
    ensures ok ==> Computes(body.Snapshot(VisitFunction(globals, d, self).g), globals, d, self)
    ensures var fin := VisitFunction(globals, d, self);
            ok ==> (PassOutcome.StrictResult(body.Snapshot(fin.g)) <==> PassOutcome.LoadsAllSet(fin.Func()))
    ensures var fin := VisitFunction(globals, d, self);
            ok ==> (PassOutcome.PairedResult(body.Snapshot(fin.g)) <==> PassOutcome.EndsAllSet(fin.Func()))
    ensures EntryCells.Initialised(d) ==> PassOutcome.PairedResult(body.Snapshot(VisitFunction(globals, d, self).g))
    ensures EntryCells.Initialised(d) && EntryCells.ArraysOnly(d.decls) ==>
      PassOutcome.StrictResult(body.Snapshot(VisitFunction(globals, d, self).g))
    ensures EntryCells.Initialised(d) && HasNumber(d) ==>
      !PassOutcome.StrictResult(body.Snapshot(VisitFunction(globals, d, self).g))
  {
    hide *;
    var fin := VisitFunction(globals, d, self);
    FunctionInput(globals, d, self);
    BuiltComputes(globals, d, self);
    if EntryCells.Initialised(d) {
      EntryCells.InitialisedOrderly(globals, d, self);
      EntryCells.InitialisedEntrySet(globals, d, self);
      PassOutcome.EntrySetEnds(fin.Func());
      StrictWhen(globals, d, self);
    }
    Numbers(globals, d, self);
    body := new FunctionIr.Body.Holding(fin.Func(), fin.nextId);
    ok, s, order := Promotion.Run(fin.g, body);
    Promotion.WalkedIdf(s, fin.Func());
    if ok { RefinedComputes(fin.Func(), body.Snapshot(fin.g), globals, d, self); }
  }

  lemma Numbers(globals: Bindings, d: FunDecl, self: Operand)
    ensures var fin := VisitFunction(globals, d, self);
            fin.Func().g == fin.g && fin.Func().code == fin.code && forall x :: x in fin.code ==> x < fin.nextId
  {
    hide VisitFunction, Sound;
    FunctionShape(globals, d, self);
    SoundFacts(VisitFunction(globals, d, self));
  }
}
