/** Mem2Reg::run for one function: dominators, phi placement, renaming and removal in
    sequence, and what the caller gets from it. */
module Promotion {
  import opened Wrappers
  import opened Cfg
  import opened DomTree
  import opened Frontier
  import opened Dominators
  import opened Ir
  import opened Ssa
  import opened Simulation
  import opened FunctionIr
  import opened PhiPlacement
  import opened TreeWalk
  import opened Renaming
  import opened Askers
  import opened Mem2Reg
  import opened PassOutcome

  // ---- The start of the walk ----

  lemma PlacedKinds(f: Func, f1: Func, cells: Cells)
    requires Input(f) && Fronted(f, f1, cells)
    ensures AddressKinds(f1.code)
  {
    hide StrictSsa, Front, Laid;
    forall x | x in f1.code ensures AddressKind(f1.code, x) {
      if x in f.code {
        assert AddressKind(f.code, x);
        PlacedKind(f, f1, cells, x);
      }
    }
  }

  lemma PlacedKind(f: Func, f1: Func, cells: Cells, x: Id)
    requires Fronted(f, f1, cells) && x in f.code && AddressKind(f.code, x)
    ensures x in f1.code && AddressKind(f1.code, x)
  {
    hide Front;
    forall a {:trigger CellOf(f1.code, a)}
      ensures CellOf(f1.code, a) == CellOf(f.code, a) { PlacedCell(f, f1, cells, a); }
  }

  lemma PlacedPhiCells(f: Func, f1: Func, cells: Cells, po: map<Block, nat>, t: Links)
    requires Input(f) && IsDomTree(f.g, po, t) && Fronted(f, f1, cells) && IdfCells(f, cells)
    ensures PhisOfCells(Placed(f1, NPhi(cells), po, t))
  {
    hide StrictSsa, IsDomTree, Front, AddressKinds, InIdf, StoreBlocks, CellOf;
    var s := Placed(f1, NPhi(cells), po, t);
    forall x | Listed(f1, x) && PhiCell(f1.code, x).Some?
      ensures CellOf(f1.code, Res(PhiCell(f1.code, x).value)).Some? {
      PlacedPhiCell(f, f1, cells, x);
    }
  }

  lemma PlacedPhiCell(f: Func, f1: Func, cells: Cells, x: Id)
    requires Input(f) && Fronted(f, f1, cells) && IdfCells(f, cells) && Listed(f1, x) && PhiCell(f1.code, x).Some?
    ensures CellOf(f1.code, Res(PhiCell(f1.code, x).value)).Some?
  {
    hide StrictSsa, AddressKinds, InIdf, Front, CellOf, StoreBlocks;
    var b := f1.home[x];
    var i := IndexOf(f1.lists[b], x);
    PlacedAt(f, f1, cells, b, i);
    var v := cells[b][i];
    assert v in cells[b];
    IdfHasStore(f, v, b);
    PlacedCell(f, f1, cells, Res(v));
  }

  lemma IdfHasStore(f: Func, v: Id, b: Block)
    requires InIdf(f.g, StoreBlocks(f, v), b)
    ensures CellOf(f.code, Res(v)).Some?
  {
    var c :| |c| > 1 && FrontierChain(f.g, StoreBlocks(f, v), c) && c[|c| - 1] == b;
    var i :| 0 <= i < |f.lists[c[0]]| && StoreCell(f.code, f.lists[c[0]][i]) == Some(v);
  }

  lemma PlacedReady(f: Func, f1: Func, cells: Cells, po: map<Block, nat>, t: Links)
    requires Input(f) && IsDomTree(f.g, po, t) && Fronted(f, f1, cells) && IdfCells(f, cells)
    ensures Ready(Placed(f1, NPhi(cells), po, t))
  {
    hide Input, IsDomTree, Fronted, IdfCells, Placed.Valid, AddressKinds, PhisOfCells;
    PlacedValid(f, f1, cells, po, t);
    PlacedKinds(f, f1, cells);
    PlacedPhiCells(f, f1, cells, po, t);
  }

  lemma InstrUntouched(s: Placed, x: Id)
    requires s.Valid() && x in s.f.code && (PhiCell(s.f.code, x).Some? ==> s.f.code[x].args == [])
    ensures InstrAt(s, s.f.code[x], {}, {}, x)
  {
    hide Placed.Valid, Placed.Top, Replaced, Placed.Resolve;
  }

  lemma NothingRenamed(f: Func, s: Placed, cells: Cells)
    requires s.Valid() && Fronted(f, s.f, cells) && forall x :: x in f.code ==> !f.code[x].op.Phi?
    ensures CodeAt(s, s.f.code, {}, {}, {}, f.g.entry, {}) && ListsAt(s, s.f.lists, {})
  {
    hide Placed.Valid, InstrAt, Front;
    forall x | x in s.f.code ensures InstrAt(s, s.f.code[x], {}, FilledBy({}, f.g.entry, {}, x), x) {
      InstrUntouched(s, x);
    }
  }

  lemma NothingEntered(s: Placed)
    requires s.Valid()
    ensures s.f.g.entry in s.f.lists && DoneIs(s, {}, {}, s.f.g.entry, 0) && AboveIn(s, {}, s.f.g.entry)
    ensures BaseOk(s, map[], s.f.g.entry) && KeysAre(s, map[], {}, s.f.g.entry, 0) && Walk(s.f.g, []) &&
      OpenAt(s.f.g, [], s.f.g.entry)
  {
    hide Placed.Valid, Replaced;
    EntryListed(s);
    forall d ensures !s.f.g.StrictlyDominates(d, s.f.g.entry) {
      if s.f.g.StrictlyDominates(d, s.f.g.entry) { DominatesEntry(s.f.g, d); }
    }
    forall v ensures Last(Get(map[], Res(v))) == s.Top(s.f.g.entry, 0, v) {
      EntryTop(s, v);
    }
  }

  lemma EntryTop(s: Placed, v: Id)
    requires s.Valid() && s.f.g.entry in s.f.lists
    ensures s.Top(s.f.g.entry, 0, v).None?
  {
    hide Placed.Valid;
  }

  // ---- The pass ----

  lemma InputParts(f: Func)
    requires Input(f)
    ensures f.g.WellFormed() && forall x :: x in f.code ==> !f.code[x].op.Phi?
  {
  }

  lemma StartWalk(f: Func, f1: Func, cells: Cells, po: map<Block, nat>, t: Links, s: Placed)
    requires Input(f) && IsDomTree(f.g, po, t) && Fronted(f, f1, cells) && IdfCells(f, cells) &&
      s == Placed(f1, NPhi(cells), po, t)
    ensures s.Valid() && Ready(s) && PlacedFrom(s, f) && FrontierClosed(s) && Walked(s, f) && f.g == s.f.g
  {
    hide Input, IsDomTree, Fronted, IdfCells, Placed.Valid, Ready, PlacedFrom, FrontierClosed, HasPhi, InIdf,
      StoreBlocks;
    PlacedValid(f, f1, cells, po, t);
    PlacedReady(f, f1, cells, po, t);
    IdfIsClosed(f, f1, cells, po, t);
    FrontedKeys(f, f1, cells);
    forall b, v | b in f.lists ensures HasPhi(s, b, v) <==> InIdf(f.g, StoreBlocks(f, v), b) {
      PhiWhereCell(f, f1, cells, po, t, b, v);
      IdfCellAt(f, cells, b, v);
    }
  }

  lemma IdfCellAt(f: Func, cells: Cells, b: Block, v: Id)
    requires IdfCells(f, cells) && b in cells
    ensures v in cells[b] <==> InIdf(f.g, StoreBlocks(f, v), b)
  {
  }

  lemma EntryReady(pass: Pass, s: Placed, f: Func, cells: Cells)
    requires s.Valid() && Ready(s) && s.f.g == pass.g == f.g && pass.body.Valid() && pass.body.dead == {} &&
      pass.body.retired == {}
    requires s.f.code == pass.body.code && s.f.lists == pass.body.lists && s.f.home == pass.body.home &&
      pass.varValStack == map[]
    requires Fronted(f, s.f, cells) && forall x :: x in f.code ==> !f.code[x].op.Phi?
    ensures pass.AtEntry(s, pass.g.entry, {}, {}, {}, []) && Walk(pass.g, []) && OpenAt(pass.g, [], pass.g.entry)
  {
    hide *;
    NothingRenamed(f, s, cells);
    NothingEntered(s);
    NoneDead(s);
    pass.InvMake(s, {}, {}, pass.g.entry, {}, {});
    assert Elements([]) == {} by { NoElements(); }
    pass.EntryMake(s, pass.g.entry, {}, {}, {}, []);
  }

  lemma NoElements()
    ensures Elements([]) == {}
  {
  }

  lemma NoneDead(s: Placed)
    requires s.Valid()
    ensures DeadAre(s, {}, {}) && RetiredAre({}, {})
  {
  }

  lemma WholeWalkIs(g: Graph, order: seq<Block>)
    requires Walk(g, order) && Elements(order) == Elements(g.blocks)
    ensures WholeWalk(g, order)
  {
  }

  lemma WalkedIdf(s: Placed, f: Func)
    requires Walked(s, f)
    ensures IdfPlaced(s, f) && s.Valid()
  {
    hide Placed.Valid, IdfPlaced;
  }

  lemma ClashEither(s: Placed, order: seq<Block>)
    requires s.Valid() && SomeClash(s, order, 0)
    ensures !NoClash(s, order, 0)
  {
    hide Placed.Valid, Clash;
  }

  lemma NotSafe(s: Placed, f: Func, order: seq<Block>)
    requires s.Valid() && Walked(s, f) && Walk(s.f.g, order) && !NoClash(s, order, 0)
    ensures !Orderly(f)
  {
    hide Placed.Valid, IdfPlaced, Ready, OrderSafe, NoClash, Orderly, Walk;
    if Orderly(f) {
      OrderlySafe(s, f);
      WalkDown(s.f.g, order);
      OrderSafeSuffices(s, order);
    }
  }

  // Turns the function in `body` into one without promoted cells. `ok` is false when the pass
  // takes the back of an empty stack or runs into its assertion.
  method Run(g: Graph, body: Body) returns (ok: bool, ghost s: Placed, ghost order: seq<Block>)
    requires body.Valid() && body.dead == {} && body.retired == {} && Input(body.Snapshot(g)) && SuccsDistinct(g)
    modifies body
    ensures Walked(s, old(body.Snapshot(g))) && Walk(g, order)
    ensures ok <==> NoClash(s, order, 0)
    ensures Orderly(old(body.Snapshot(g))) ==> ok
    ensures ok ==> WholeWalk(g, order) && body.Valid()
    ensures ok ==> IsPromotion(s, body.Snapshot(g)) && PhisComplete(s, body.Snapshot(g))
    ensures ok ==> Refines(old(body.Snapshot(g)), body.Snapshot(g))
    ensures ok ==> (StrictResult(body.Snapshot(g)) <==> LoadsAllSet(old(body.Snapshot(g))))
    ensures ok ==> (PairedResult(body.Snapshot(g)) <==> EndsAllSet(old(body.Snapshot(g))))
  {
    hide *;
    ghost var f := body.Snapshot(g);
    body.SnapshotIs(g);
    InputParts(f);
    var analysis := new Analysis();
    analysis.Run(g);
    var pass := new Pass(g, body, analysis.frontier, analysis.treeSucc);
    ghost var cells := pass.GeneratePhi(f);
    ghost var f1 := body.Snapshot(g);
    body.SnapshotIs(g);
    s := Placed(f1, NPhi(cells), analysis.postOrderId, analysis.idom);
    StartWalk(f, f1, cells, analysis.postOrderId, analysis.idom, s);
    EntryReady(pass, s, f, cells);
    ghost var done;
    ok, done, order := pass.ReName(s, g.entry, {}, {}, {}, []);
    if !ok {
      ClashEither(s, order);
      NotSafe(s, f, order);
      return;
    }
    ghost var all := Elements(g.blocks);
    pass.ExitParts(s, g.entry, {}, {}, done, [], order, map[]);
    AllBelowEntry(g);
    assert {} + all == all;
    WholeWalkIs(g, order);
    pass.RemoveAlloca(s, done, all);
    PromotionRefines(s, f, body.Snapshot(g));
    WalkedIdf(s, f);
    StrictExactly(s, f, body.Snapshot(g));
    PairedExactly(s, f, body.Snapshot(g));
  }
}
