/** Which block asks for a variable that has no value, said about the function before the pass:
    by the stores to the variable, their iterated frontier and dominance alone. */
module Askers {
  import opened Wrappers
  import opened Cfg
  import opened DomTree
  import opened Frontier
  import opened Ir
  import opened Ssa
  import opened Simulation
  import opened PhiPlacement
  import opened TreeWalk
  import opened Renaming

  // ---- Before the pass ----

  // The block gives the variable a value: by a store, or by the phi it will get.
  ghost predicate Sets(f: Func, b: Block, v: Id) {
    b in StoreBlocks(f, v) || (b in f.lists && InIdf(f.g, StoreBlocks(f, v), b))
  }

  ghost predicate SetAbove(f: Func, b: Block, v: Id) {
    exists d :: f.g.StrictlyDominates(d, b) && Sets(f, d, v)
  }

  ghost predicate LoadsFirst(f: Func, b: Block, i: int, v: Id) {
    && b in f.lists && 0 <= i < |f.lists[b]| && LoadCell(f.code, f.lists[b][i]) == Some(v)
    && forall j :: 0 <= j < i ==> StoreCell(f.code, f.lists[b][j]) != Some(v)
  }

  // A load to which no value comes.
  ghost predicate LoadsUnset(f: Func, b: Block, i: int, v: Id) {
    LoadsFirst(f, b, i, v) && !InIdf(f.g, StoreBlocks(f, v), b) && !SetAbove(f, b, v)
  }

  // The end of the block, where a phi of a successor asks.
  ghost predicate LeavesUnset(f: Func, b: Block, v: Id) {
    && b in f.lists && !Sets(f, b, v) && !SetAbove(f, b, v)
    && exists d :: f.g.Edge(b, d) && d in f.lists && InIdf(f.g, StoreBlocks(f, v), d)
  }

  ghost predicate Asks(f: Func, b: Block, v: Id) {
    (exists i :: LoadsUnset(f, b, i, v)) || LeavesUnset(f, b, v)
  }

  // Whoever asks for a variable without a value stands above every other block that sets it.
  ghost predicate Orderly(f: Func) {
    forall b, c, v {:trigger Asks(f, b, v), Sets(f, c, v)} ::
      Asks(f, b, v) && Sets(f, c, v) ==> c == b || f.g.StrictlyDominates(b, c)
  }

  // ---- The placed function ----

  // s is f with one phi per block of the iterated frontier of each cell's stores.
  ghost predicate IdfPlaced(s: Placed, f: Func) {
    && s.Valid() && PlacedFrom(s, f) && FrontierClosed(s)
    && forall b, v {:trigger HasPhi(s, b, v)} :: b in f.lists ==>
         (HasPhi(s, b, v) <==> InIdf(f.g, StoreBlocks(f, v), b))
  }

  // The placed function the walk is about.
  ghost predicate Walked(s: Placed, f: Func) {
    Ready(s) && IdfPlaced(s, f)
  }

  lemma IdfParts(s: Placed, f: Func)
    requires IdfPlaced(s, f)
    ensures s.Valid() && PlacedFrom(s, f) && FrontierClosed(s) && f.g == s.f.g && f.lists.Keys == s.f.lists.Keys
  {
    hide Placed.Valid, FrontierClosed, HasPhi, InIdf, StoreBlocks;
  }

  lemma IdfPhi(s: Placed, f: Func, b: Block, v: Id)
    requires IdfPlaced(s, f) && b in f.lists
    ensures HasPhi(s, b, v) <==> InIdf(f.g, StoreBlocks(f, v), b)
  {
    hide Placed.Valid, PlacedFrom, FrontierClosed, HasPhi, InIdf, StoreBlocks;
  }

  lemma SameCells(s: Placed, f: Func, x: Id)
    requires PlacedFrom(s, f) && x in f.code
    ensures LoadCell(s.f.code, x) == LoadCell(f.code, x) && StoreCell(s.f.code, x) == StoreCell(f.code, x)
    ensures LoadCell(f.code, x).Some? ==> StoreCell(f.code, x).None?
  {
    hide CellOf;
    forall a {:trigger CellOf(s.f.code, a)} ensures CellOf(s.f.code, a) == CellOf(f.code, a) { SameCell(s, f, a); }
  }

  // Where the instructions of f stand behind the phis.
  lemma Behind(s: Placed, f: Func, b: Block)
    requires s.Valid() && PlacedFrom(s, f) && b in f.lists
    ensures b in s.f.lists && b in s.nphi && |s.List(b)| == s.nphi[b] + |f.lists[b]|
    ensures forall i {:trigger f.lists[b][i]} :: 0 <= i < |f.lists[b]| ==>
      s.List(b)[s.nphi[b] + i] == f.lists[b][i] && f.lists[b][i] in f.code && PhiCell(s.f.code, f.lists[b][i]).None?
    ensures forall i {:trigger s.List(b)[i]} :: 0 <= i < s.nphi[b] ==> PhiCell(s.f.code, s.List(b)[i]).Some?
  {
    hide IsDomTree, StrictSsa;
    assert s.PhisFirst(b);
  }

  // The value of v has been set by the instructions in front of position i.
  ghost predicate SetBefore(s: Placed, b: Block, i: nat, v: Id) {
    exists j ::
      0 <= j < i <= |s.List(b)| &&
        (PhiCell(s.f.code, s.List(b)[j]) == Some(v) || StoreCell(s.f.code, s.List(b)[j]) == Some(v))
  }

  lemma StoreBlocksHas(f: Func, b: Block, v: Id)
    ensures b in StoreBlocks(f, v) <==>
      b in f.lists && exists i :: 0 <= i < |f.lists[b]| && StoreCell(f.code, f.lists[b][i]) == Some(v)
  {
  }

  // Behind the first k instructions of f in b.
  lemma SetBeforeIs(s: Placed, f: Func, b: Block, k: nat, v: Id)
    requires IdfPlaced(s, f) && b in f.lists && k <= |f.lists[b]|
    ensures b in s.nphi && s.nphi[b] + k <= |s.List(b)|
    ensures SetBefore(s, b, s.nphi[b] + k, v) <==>
      InIdf(f.g, StoreBlocks(f, v), b) || exists j :: 0 <= j < k && StoreCell(f.code, f.lists[b][j]) == Some(v)
  {
    hide Placed.Valid, PlacedFrom, IdfPlaced, InIdf, StoreBlocks, LoadCell, StoreCell, PhiCell;
    IdfParts(s, f);
    Behind(s, f, b);
    IdfPhi(s, f, b, v);
    var n := s.nphi[b];
    forall j | 0 <= j < k ensures StoreCell(s.f.code, s.List(b)[n + j]) == StoreCell(f.code, f.lists[b][j]) {
      SameCells(s, f, f.lists[b][j]);
    }
    if SetBefore(s, b, n + k, v) {
      var j :| 0 <= j < n + k &&
        (PhiCell(s.f.code, s.List(b)[j]) == Some(v) || StoreCell(s.f.code, s.List(b)[j]) == Some(v));
      SetAtPhiOrStore(s, f, b, j, v);
      if j >= n { assert f.lists[b][j - n] == s.List(b)[j]; }
    }
    if j :| 0 <= j < k && StoreCell(f.code, f.lists[b][j]) == Some(v) {
      assert StoreCell(s.f.code, s.List(b)[n + j]) == Some(v);
    }
    if HasPhi(s, b, v) {
      var j :| 0 <= j < |s.List(b)| && PhiCell(s.f.code, s.List(b)[j]) == Some(v);
      PhiInFront(s, b, j);
    }
  }

  lemma PhiInFront(s: Placed, b: Block, j: nat)
    requires s.Valid() && b in s.f.lists && j < |s.List(b)| && PhiCell(s.f.code, s.List(b)[j]).Some?
    ensures b in s.nphi && j < s.nphi[b]
  {
    hide StrictSsa, IsDomTree;
    assert s.PhisFirst(b);
  }

  lemma SetAtPhiOrStore(s: Placed, f: Func, b: Block, j: nat, v: Id)
    requires s.Valid() && PlacedFrom(s, f) && b in f.lists && j < |s.List(b)| && b in s.nphi
    requires PhiCell(s.f.code, s.List(b)[j]) == Some(v) || StoreCell(s.f.code, s.List(b)[j]) == Some(v)
    ensures j < s.nphi[b] ==> HasPhi(s, b, v)
    ensures j >= s.nphi[b] ==> StoreCell(s.f.code, s.List(b)[j]) == Some(v)
  {
    hide Placed.Valid, PlacedFrom;
    Behind(s, f, b);
    if j >= s.nphi[b] { assert f.lists[b][j - s.nphi[b]] == s.List(b)[j]; }
  }

  lemma DefinesSets(s: Placed, f: Func, b: Block, v: Id)
    requires IdfPlaced(s, f)
    ensures Defines(s, b, v) <==> Sets(f, b, v)
  {
    hide IdfPlaced, InIdf, StoreBlocks, LoadCell, StoreCell, PhiCell, PlacedFrom, Placed.Valid;
    IdfParts(s, f);
    StoreBlocksHas(f, b, v);
    if b in f.lists {
      Behind(s, f, b);
      SetBeforeIs(s, f, b, |f.lists[b]|, v);
      assert Defines(s, b, v) <==> SetBefore(s, b, |s.List(b)|, v);
    }
  }

  // ---- Tops ----

  lemma AboveStep(s: Placed, f: Func, b: Block, v: Id)
    requires s.Valid() && f.g == s.f.g && b in s.f.lists && b != f.g.entry
    ensures SetAbove(f, b, v) <==> Sets(f, s.Idom(b), v) || SetAbove(f, s.Idom(b), v)
  {
    hide Placed.Valid, Sets;
    var c := s.Idom(b);
    IdomSdom(s, b);
    forall d ensures s.f.g.StrictlyDominates(d, b) <==> d == c || s.f.g.StrictlyDominates(d, c) { SdomStep(s, b, d); }
  }

  lemma SdomStep(s: Placed, b: Block, d: Block)
    requires s.Valid() && b in s.f.lists && b != s.f.g.entry
    ensures s.f.g.StrictlyDominates(d, b) <==> d == s.Idom(b) || s.f.g.StrictlyDominates(d, s.Idom(b))
  {
    hide StrictSsa, Tree, Anc, Placed.PhisFirst;
    IdomHigher(s, b);
    TreeFactsOf(s.f.g, s.po, s.t, b);
    LinkIsImmediateDominator(s.f.g, s.po, s.t, b, s.Idom(b));
    if s.f.g.StrictlyDominates(d, s.Idom(b)) { SdomTrans(s.f.g, s.po, s.t, d, s.Idom(b), b); }
  }

  lemma NoneAbove(f: Func, v: Id)
    ensures !SetAbove(f, f.g.entry, v)
  {
    hide Sets;
    if d :| f.g.StrictlyDominates(d, f.g.entry) { DominatesEntry(f.g, d); }
  }

  // There is a value exactly if something in front in the block or above it sets one.
  lemma {:induction false} TopIs(s: Placed, f: Func, b: Block, i: nat, v: Id)
    requires IdfPlaced(s, f) && s.Valid() && b in s.f.lists && i <= |s.List(b)|
    ensures s.Top(b, i, v).Some? <==> SetBefore(s, b, i, v) || SetAbove(f, b, v)
    decreases s.Height(b), i
  {
    hide IdfPlaced, Placed.Valid, SetAbove, StoreCell, PhiCell;
    IdfParts(s, f);
    if i == 0 {
      if b == s.f.g.entry {
        NoneAbove(f, v);
      } else {
        var c := s.Idom(b);
        IdomHigher(s, b);
        TopIs(s, f, c, |s.List(c)|, v);
        DefinesSets(s, f, c, v);
        AboveStep(s, f, b, v);
      }
    } else {
      TopIs(s, f, b, i - 1, v);
      SetBeforeStep(s, b, i, v);
    }
  }

  lemma SetBeforeStep(s: Placed, b: Block, i: nat, v: Id)
    requires 0 < i <= |s.List(b)|
    ensures SetBefore(s, b, i, v) <==>
      SetBefore(s, b, i - 1, v) || PhiCell(s.f.code, s.List(b)[i - 1]) == Some(v) ||
        StoreCell(s.f.code, s.List(b)[i - 1]) == Some(v)
  {
    hide StoreCell, PhiCell;
    if SetBefore(s, b, i, v) {
      var j :| 0 <= j < i &&
        (PhiCell(s.f.code, s.List(b)[j]) == Some(v) || StoreCell(s.f.code, s.List(b)[j]) == Some(v));
      if j != i - 1 { assert SetBefore(s, b, i - 1, v); }
    }
  }

  // The load at position i of f in block b has no value exactly if nothing has set one.
  lemma {:induction false} LoadTop(s: Placed, f: Func, b: Block, i: nat, v: Id)
    requires IdfPlaced(s, f) && s.Valid() && b in f.lists && i < |f.lists[b]| &&
      LoadCell(f.code, f.lists[b][i]) == Some(v)
    ensures b in s.f.lists && b in s.nphi && s.nphi[b] + i < |s.List(b)| && s.List(b)[s.nphi[b] + i] == f.lists[b][i]
    ensures s.Top(b, s.nphi[b] + i, v).None? <==> LoadsUnset(f, b, i, v)
  {
    hide IdfPlaced, Placed.Valid, InIdf, StoreBlocks, SetAbove, Placed.Top, StoreCell, SetBefore, PlacedFrom;
    IdfParts(s, f);
    Behind(s, f, b);
    SetBeforeIs(s, f, b, i, v);
    TopIs(s, f, b, s.nphi[b] + i, v);
  }

  lemma EndTop(s: Placed, f: Func, b: Block, v: Id)
    requires IdfPlaced(s, f) && s.Valid() && b in s.f.lists
    ensures s.Top(b, |s.List(b)|, v).Some? <==> Sets(f, b, v) || SetAbove(f, b, v)
  {
    hide IdfPlaced, Placed.Valid, Sets, SetAbove, Placed.Top, StoreCell, PhiCell;
    TopIs(s, f, b, |s.List(b)|, v);
    DefinesSets(s, f, b, v);
  }

  // ---- The two ways to say it agree ----

  lemma MissingIsAsks(s: Placed, f: Func, b: Block, v: Id)
    requires IdfPlaced(s, f) && s.Valid() && b in s.f.lists
    ensures Missing(s, b, v) <==> Asks(f, b, v)
  {
    hide IdfPlaced, Placed.Valid, Placed.Top, LoadsUnset, LeavesUnset;
    IdfParts(s, f);
    MissingLoads(s, f, b, v);
    MissingLeaves(s, f, b, v);
  }

  lemma MissingLoads(s: Placed, f: Func, b: Block, v: Id)
    requires IdfPlaced(s, f) && s.Valid() && b in s.f.lists
    ensures (exists i :: 0 <= i < |s.List(b)| && LoadCell(s.f.code, s.List(b)[i]) == Some(v) && s.Top(b, i, v).None?)
            <==> exists i :: LoadsUnset(f, b, i, v)
  {
    hide IdfPlaced, Placed.Valid, Placed.Top, InIdf, StoreBlocks, SetAbove, CellOf, PlacedFrom;
    IdfParts(s, f);
    Behind(s, f, b);
    var n := s.nphi[b];
    if i :| 0 <= i < |s.List(b)| && LoadCell(s.f.code, s.List(b)[i]) == Some(v) && s.Top(b, i, v).None? {
      assert i >= n;
      assert f.lists[b][i - n] == s.List(b)[i];
      SameCells(s, f, f.lists[b][i - n]);
      LoadTop(s, f, b, i - n, v);
    }
    if i :| LoadsUnset(f, b, i, v) {
      SameCells(s, f, f.lists[b][i]);
      LoadTop(s, f, b, i, v);
      assert s.List(b)[n + i] == f.lists[b][i];
    }
  }

  lemma MissingLeaves(s: Placed, f: Func, b: Block, v: Id)
    requires IdfPlaced(s, f) && s.Valid() && b in s.f.lists
    ensures (s.Top(b, |s.List(b)|, v).None? && exists d :: s.f.g.Edge(b, d) && HasPhi(s, d, v)) <==>
      LeavesUnset(f, b, v)
  {
    hide IdfPlaced, Placed.Valid, Placed.Top, InIdf, StoreBlocks, SetAbove, Sets, HasPhi, PlacedFrom;
    IdfParts(s, f);
    EndTop(s, f, b, v);
    forall d | HasPhi(s, d, v) ensures d in f.lists { PhiListed(s, d, v); }
    forall d | d in f.lists ensures HasPhi(s, d, v) <==> InIdf(f.g, StoreBlocks(f, v), d) { IdfPhi(s, f, d, v); }
  }

  lemma PhiListed(s: Placed, d: Block, v: Id)
    requires HasPhi(s, d, v)
    ensures d in s.f.lists
  {
  }
}
