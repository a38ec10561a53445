/** Where the phis go: for each cell the iterated dominance frontier of the blocks that
    store to it, one phi per block and cell, in front of the block. */
module PhiPlacement {
  import opened Wrappers
  import opened Cfg
  import opened DomTree
  import opened Frontier
  import opened Ir
  import opened Ssa
  import opened Simulation

  // ---- The iterated dominance frontier ----

  ghost predicate FrontierChain(g: Graph, s: set<Block>, c: seq<Block>) {
    && |c| > 0 && c[0] in s
    && forall i :: 0 <= i < |c| - 1 ==> InFrontier(g, c[i], c[i + 1])
  }

  // b is reached from s by one or more frontier steps.
  ghost predicate InIdf(g: Graph, s: set<Block>, b: Block) {
    exists c :: |c| > 1 && FrontierChain(g, s, c) && c[|c| - 1] == b
  }

  lemma IdfStep(g: Graph, s: set<Block>, x: Block, y: Block)
    requires (x in s || InIdf(g, s, x)) && InFrontier(g, x, y)
    ensures InIdf(g, s, y)
  {
    if x in s {
      assert FrontierChain(g, s, [x, y]) && [x, y][1] == y;
    } else {
      var c :| |c| > 1 && FrontierChain(g, s, c) && c[|c| - 1] == x;
      var d := c + [y];
      assert FrontierChain(g, s, d) && d[|d| - 1] == y;
    }
  }

  // It is the least set that frontier steps from s do not leave.
  lemma {:induction false} IdfLeast(g: Graph, s: set<Block>, p: set<Block>, c: seq<Block>)
    requires forall x, y :: (x in s || x in p) && InFrontier(g, x, y) ==> y in p
    requires |c| > 1 && FrontierChain(g, s, c)
    ensures c[|c| - 1] in p
  {
    var d := c[..|c| - 1];
    assert InFrontier(g, c[|c| - 2], c[|c| - 2 + 1]);
    if |d| > 1 { IdfLeast(g, s, p, d); }
  }

  // ---- What the input of the pass looks like ----

  // The address test of the pass: neither a global nor an element address.
  predicate Promotable(code: map<Id, Instr>, a: Operand) {
    !a.Global? && !(a.Res? && a.id in code && code[a.id].op.Gep?)
  }

  // Loads and stores go to globals, element addresses or local variables, and local
  // arrays are not stored to as a whole.
  ghost predicate AddressKinds(code: map<Id, Instr>) {
    forall x {:trigger AddressKind(code, x)} :: x in code ==> AddressKind(code, x)
  }

  ghost predicate AddressKind(code: map<Id, Instr>, x: Id)
    requires x in code
  {
    var Instr(op, args) := code[x];
    && (op.Store? ==> |args| == 2 && (Promotable(code, args[1]) ==> CellOf(code, args[1]).Some?))
    && (op.Load? ==> |args| == 1 && (Promotable(code, args[0]) ==>
          args[0].Res? && args[0].id in code && code[args[0].id].op.Alloca?))
  }

  // A function without phis in strict form.
  ghost predicate Input(f: Func) {
    && f.g.WellFormed() && Laid(f) && StrictSsa(f) && AddressKinds(f.code)
    && (forall x :: x in f.code ==> !f.code[x].op.Phi?)
    && f.home.Keys <= f.code.Keys
  }

  ghost function StoreBlocks(f: Func, v: Id): set<Block>
  {
    set b | b in f.lists && exists i :: 0 <= i < |f.lists[b]| && StoreCell(f.code, f.lists[b][i]) == Some(v)
  }

  // ---- The function while phis are being placed ----

  // The cells that have a phi in each block, in the order of the phis.
  type Cells = map<Block, seq<Id>>

  ghost predicate NewPhi(f: Func, f1: Func, v: Id, b: Block, x: Id) {
    && x in f1.code && x !in f.code && x in f1.home && f1.home[x] == b
    && f1.code[x] == Instr(Phi(v), [])
  }

  // Block b holds its phis and behind them what it held in f.
  ghost predicate Front(f: Func, f1: Func, cells: Cells, b: Block)
  {
    && b in f.lists && b in f1.lists && b in cells && Distinct(cells[b])
    && |f1.lists[b]| == |cells[b]| + |f.lists[b]| && f1.lists[b][|cells[b]|..] == f.lists[b]
    && Distinct(f1.lists[b][..|cells[b]|])
    && forall i {:trigger f1.lists[b][i]} :: 0 <= i < |cells[b]| ==> NewPhi(f, f1, cells[b][i], b, f1.lists[b][i])
  }

  ghost predicate Fronted(f: Func, f1: Func, cells: Cells) {
    && f1.g == f.g && f1.lists.Keys == f.lists.Keys == cells.Keys
    && (forall x :: x in f.code ==> x in f1.code && f1.code[x] == f.code[x])
    && (forall x :: x in f.home ==> x in f1.home && f1.home[x] == f.home[x])
    && (forall x :: x in f1.code && x !in f.code ==> f1.code[x].op.Phi? && f1.code[x].args == [])
    && f1.home.Keys <= f1.code.Keys
    && (forall b {:trigger Front(f, f1, cells, b)} :: b in f.lists ==> Front(f, f1, cells, b))
  }

  lemma FrontedStart(f: Func)
    requires Input(f)
    ensures Fronted(f, f, map b | b in f.lists :: [])
  {
    hide StrictSsa, AddressKinds;
    var cells: Cells := map b | b in f.lists :: [];
    forall b | b in f.lists ensures Front(f, f, cells, b) {
      assert f.lists[b][0..] == f.lists[b];
    }
  }

  // f2 is f1 with a new phi x for v in front of b.
  ghost predicate PhiAdded(f1: Func, f2: Func, b: Block, v: Id, x: Id) {
    && b in f1.lists && x !in f1.code
    && f2 == Func(f1.g, f1.code[x := Instr(Phi(v), [])], f1.lists[b := [x] + f1.lists[b]], f1.home[x := b])
  }

  lemma {:induction false} FrontedAdd(f: Func, f1: Func, f2: Func, cells: Cells, b: Block, v: Id, x: Id)
    requires Fronted(f, f1, cells) && b in f.lists && v !in cells[b] && PhiAdded(f1, f2, b, v, x)
    ensures Fronted(f, f2, cells[b := [v] + cells[b]])
  {
    hide Front;
    forall c | c in f.lists ensures Front(f, f2, cells[b := [v] + cells[b]], c) {
      assert Front(f, f1, cells, c);
      if c == b { FrontAddHere(f, f1, f2, cells, b, v, x); } else { FrontAddThere(f, f1, f2, cells, b, v, x, c); }
    }
  }

  lemma {:induction false} FrontAddHere(f: Func, f1: Func, f2: Func, cells: Cells, b: Block, v: Id, x: Id)
    requires Front(f, f1, cells, b) && v !in cells[b] && PhiAdded(f1, f2, b, v, x) && x !in f.code
    ensures Front(f, f2, cells[b := [v] + cells[b]], b)
  {
    var n := |cells[b]|;
    assert f2.lists[b][n + 1..] == f1.lists[b][n..];
    forall i | 0 <= i < n + 1 ensures NewPhi(f, f2, ([v] + cells[b])[i], b, f2.lists[b][i]) {
      if i > 0 { assert f2.lists[b][i] == f1.lists[b][i - 1]; }
    }
    assert f2.lists[b][..n + 1] == [x] + f1.lists[b][..n];
    forall i | 0 <= i < n ensures f1.lists[b][..n][i] != x { assert f1.lists[b][i] in f1.code; }
    DistinctTail(x, f1.lists[b][..n]);
    DistinctTail(v, cells[b]);
  }

  lemma {:induction false} FrontAddThere(f: Func, f1: Func, f2: Func, cells: Cells, b: Block, v: Id, x: Id, c: Block)
    requires Front(f, f1, cells, c) && c != b && PhiAdded(f1, f2, b, v, x) && b in cells
    ensures Front(f, f2, cells[b := [v] + cells[b]], c)
  {
    assert f2.lists[c] == f1.lists[c];
  }

  // ---- The placed function ----

  ghost function NPhi(cells: Cells): map<Block, nat> {
    map b | b in cells :: |cells[b]|
  }

  // Every cell's phis are exactly at the iterated frontier of its stores.
  ghost predicate IdfCells(f: Func, cells: Cells) {
    forall b, v {:trigger v in cells[b]} :: b in cells ==> (v in cells[b] <==> InIdf(f.g, StoreBlocks(f, v), b))
  }

  lemma PlacedBefore(f: Func, f1: Func, cells: Cells, x: Id, b: Block, i: nat)
    requires Fronted(f, f1, cells) && Laid(f) && b in f.lists && i <= |f.lists[b]| && Before(f, x, b, i)
    ensures Before(f1, x, b, i + |cells[b]|)
  {
    var c := f.home[x];
    assert Front(f, f1, cells, c);
    var j, n := IndexOf(f.lists[c], x), |cells[c]|;
    assert f1.lists[c][n + j] == f1.lists[c][n..][j] == x;
    PlacedIndex(f, f1, cells, c, j);
  }

  lemma PlacedDistinct(f: Func, f1: Func, cells: Cells, c: Block)
    requires Front(f, f1, cells, c) && Distinct(f.lists[c]) && forall y :: y in f.lists[c] ==> y in f.code
    ensures Distinct(f1.lists[c])
  {
    var l, n := f1.lists[c], |cells[c]|;
    forall i, j | 0 <= i < j < |l| ensures Apart(l, i, j) {
      if n <= j { assert l[j] == l[n..][j - n]; }
      if n <= i { assert l[i] == l[n..][i - n] && Apart(f.lists[c], i - n, j - n); }
      if j < n { assert l[i] == l[..n][i] && l[j] == l[..n][j] && Apart(l[..n], i, j); }
    }
  }

  lemma PlacedIndex(f: Func, f1: Func, cells: Cells, c: Block, j: nat)
    requires Front(f, f1, cells, c) && Laid(f) && j < |f.lists[c]|
    ensures f.lists[c][j] in f1.lists[c] && IndexOf(f1.lists[c], f.lists[c][j]) == |cells[c]| + j
  {
    var n := |cells[c]|;
    assert f1.lists[c][n + j] == f1.lists[c][n..][j] == f.lists[c][j];
    PlacedDistinct(f, f1, cells, c);
    IndexOfAt(f1.lists[c], n + j);
  }

  lemma PlacedLaid(f: Func, f1: Func, cells: Cells)
    requires Fronted(f, f1, cells) && Laid(f)
    ensures Laid(f1)
  {
    forall b | b in f1.lists ensures Distinct(f1.lists[b]) {
      assert Front(f, f1, cells, b);
      PlacedDistinct(f, f1, cells, b);
    }
    forall b, i | b in f1.lists && 0 <= i < |f1.lists[b]|
      ensures f1.lists[b][i] in f1.code && f1.lists[b][i] in f1.home && f1.home[f1.lists[b][i]] == b
    {
      assert Front(f, f1, cells, b);
      if |cells[b]| <= i { assert f1.lists[b][i] == f.lists[b][i - |cells[b]|]; }
    }
  }

  // Position i of b in the placed function: a phi, or what stood at i less the phis.
  lemma PlacedAt(f: Func, f1: Func, cells: Cells, b: Block, i: nat)
    requires Fronted(f, f1, cells) && Laid(f) && b in f1.lists && i < |f1.lists[b]|
    ensures b in f.lists && b in cells && f1.lists[b][i] in f1.code
    ensures i < |cells[b]| ==> f1.code[f1.lists[b][i]] == Instr(Phi(cells[b][i]), []) && f1.lists[b][i] !in f.code
    ensures |cells[b]| <= i ==> i - |cells[b]| < |f.lists[b]| && f1.lists[b][i] == f.lists[b][i - |cells[b]|]
                                && f1.lists[b][i] in f.code && f1.code[f1.lists[b][i]] == f.code[f1.lists[b][i]]
  {
    assert Front(f, f1, cells, b);
    if |cells[b]| <= i { assert f1.lists[b][|cells[b]|..][i - |cells[b]|] == f.lists[b][i - |cells[b]|]; }
  }

  lemma PlacedCell(f: Func, f1: Func, cells: Cells, a: Operand)
    requires Fronted(f, f1, cells)
    ensures CellOf(f1.code, a) == CellOf(f.code, a)
  {
  }

  lemma PlacedOperand(f: Func, f1: Func, cells: Cells, b: Block, i: nat, k: nat)
    requires Fronted(f, f1, cells) && Laid(f) && StrictSsa(f) && b in f.lists && i < |f.lists[b]|
    requires var x := f.lists[b][i]; x in f.code && x in f1.code && f1.code[x] == f.code[x] && k < |f.code[x].args|
    ensures Available(f1, f.code[f.lists[b][i]].args[k], b, i + |cells[b]|) && Plain(f1, f.lists[b][i], k)
  {
    assert OperandsAvailable(f, b, i);
    var x := f.lists[b][i];
    var a := f.code[x].args[k];
    assert Available(f, a, b, i) && Plain(f, x, k);
    PlacedCell(f, f1, cells, a);
    if a.Res? {
      PlacedBefore(f, f1, cells, a.id, b, i);
      assert f.lists[f.home[a.id]][IndexOf(f.lists[f.home[a.id]], a.id)] in f.code;
    }
  }

  lemma PlacedStrict(f: Func, f1: Func, cells: Cells)
    requires Fronted(f, f1, cells) && Laid(f) && StrictSsa(f) && Laid(f1)
    ensures StrictSsa(f1)
  {
    hide Fronted, Laid;
    PlacedSame(f, f1, cells);
    forall b, i | b in f1.lists && 0 <= i < |f1.lists[b]| ensures OperandsAvailable(f1, b, i) && Terminates(f1, b, i) {
      PlacedStrictAt(f, f1, cells, b, i);
    }
  }

  lemma PlacedSame(f: Func, f1: Func, cells: Cells)
    requires Fronted(f, f1, cells) && Laid(f1)
    ensures f1.g == f.g &&
      forall b, i {:trigger f1.lists[b][i]} :: b in f1.lists && 0 <= i < |f1.lists[b]| ==> f1.lists[b][i] in f1.code
  {
  }

  lemma PlacedStrictAt(f: Func, f1: Func, cells: Cells, b: Block, i: nat)
    requires Fronted(f, f1, cells) && Laid(f) && StrictSsa(f) && b in f1.lists && i < |f1.lists[b]| &&
      f1.lists[b][i] in f1.code
    ensures OperandsAvailable(f1, b, i) && Terminates(f1, b, i)
  {
    hide Fronted, Laid, StrictSsa, Available, Plain;
    PlacedAt(f, f1, cells, b, i);
    if |cells[b]| <= i {
      var j := i - |cells[b]|;
      forall k | 0 <= k < |f1.code[f1.lists[b][i]].args|
        ensures Available(f1, f1.code[f1.lists[b][i]].args[k], b, i) && Plain(f1, f1.lists[b][i], k)
      {
        PlacedOperand(f, f1, cells, b, j, k);
      }
      PlacedTerminates(f, f1, cells, b, i);
    }
  }

  lemma PlacedTerminates(f: Func, f1: Func, cells: Cells, b: Block, i: nat)
    requires Fronted(f, f1, cells) && Laid(f) && StrictSsa(f) && b in f1.lists && b in cells &&
      |cells[b]| <= i < |f1.lists[b]|
    requires f1.lists[b][i] in f1.code
    ensures Terminates(f1, b, i)
  {
    hide OperandsAvailable;
    PlacedAt(f, f1, cells, b, i);
    assert Front(f, f1, cells, b);
    assert Terminates(f, b, i - |cells[b]|);
  }

  lemma PlacedPhisFirst(f: Func, f1: Func, cells: Cells, po: map<Block, nat>, t: Links, b: Block)
    requires Fronted(f, f1, cells) && Laid(f) && b in f1.lists && forall x :: x in f.code ==> !f.code[x].op.Phi?
    ensures Placed(f1, NPhi(cells), po, t).PhisFirst(b)
  {
    hide Fronted, Laid;
    PlacedCount(f, f1, cells, b);
    forall i | 0 <= i < |f1.lists[b]|
      ensures PhiCell(f1.code, f1.lists[b][i]) == if i < |cells[b]| then Some(cells[b][i]) else None
    {
      PlacedAt(f, f1, cells, b, i);
    }
    forall i, j | 0 <= i < j < |cells[b]| ensures cells[b][i] != cells[b][j] { assert Apart(cells[b], i, j); }
  }

  lemma PlacedCount(f: Func, f1: Func, cells: Cells, b: Block)
    requires Fronted(f, f1, cells) && b in f1.lists
    ensures b in cells && b in f.lists && Distinct(cells[b]) && |f1.lists[b]| == |cells[b]| + |f.lists[b]|
    ensures f1.lists[b][|cells[b]|..] == f.lists[b]
  {
    assert Front(f, f1, cells, b);
  }

  // Placing phis turns a function in strict form into a placed function in strict form.
  lemma PlacedValid(f: Func, f1: Func, cells: Cells, po: map<Block, nat>, t: Links)
    requires Input(f) && IsDomTree(f.g, po, t) && Fronted(f, f1, cells)
    ensures Placed(f1, NPhi(cells), po, t).Valid() && PlacedFrom(Placed(f1, NPhi(cells), po, t), f)
  {
    hide Tree, Anc, StrictSsa, AddressKinds, Front, NewPhi, Placed.PhisFirst;
    PlacedLaid(f, f1, cells);
    PlacedStrict(f, f1, cells);
    forall b | b in f1.lists
      ensures Placed(f1, NPhi(cells), po, t).PhisFirst(b) && |cells[b]| <= |f1.lists[b]| &&
        f.lists[b] == f1.lists[b][|cells[b]|..]
    {
      PlacedPhisFirst(f, f1, cells, po, t, b);
      PlacedCount(f, f1, cells, b);
    }
  }

  // ---- Placement is the least fixpoint ----

  lemma {:induction false} PhiWhereCell(f: Func, f1: Func, cells: Cells, po: map<Block, nat>, t: Links, b: Block, v: Id)
    requires Input(f) && Fronted(f, f1, cells) && b in f.lists
    ensures HasPhi(Placed(f1, NPhi(cells), po, t), b, v) <==> v in cells[b]
  {
    hide Fronted, StrictSsa, AddressKinds, Laid;
    var s := Placed(f1, NPhi(cells), po, t);
    InputLaid(f);
    PlacedCounts(f, f1, cells, b);
    if v in cells[b] {
      var i :| 0 <= i < |cells[b]| && cells[b][i] == v;
      PlacedAt(f, f1, cells, b, i);
      assert PhiCell(f1.code, s.List(b)[i]) == Some(v);
    }
    if HasPhi(s, b, v) {
      var i :| 0 <= i < |s.List(b)| && PhiCell(f1.code, s.List(b)[i]) == Some(v);
      PlacedAt(f, f1, cells, b, i);
    }
  }

  lemma InputLaid(f: Func)
    requires Input(f)
    ensures Laid(f)
  {
  }

  lemma PlacedCounts(f: Func, f1: Func, cells: Cells, b: Block)
    requires Fronted(f, f1, cells) && b in f.lists
    ensures b in f1.lists && b in cells && |f1.lists[b]| == |cells[b]| + |f.lists[b]|
  {
    assert Front(f, f1, cells, b);
  }

  lemma {:induction false} DefinitionWhere(f: Func, f1: Func, cells: Cells, po: map<Block, nat>, t: Links, b: Block,
      v: Id)
    requires Input(f) && Fronted(f, f1, cells) && b in f.lists && Defines(Placed(f1, NPhi(cells), po, t), b, v)
    ensures b in StoreBlocks(f, v) || v in cells[b]
  {
    hide Fronted, StrictSsa, AddressKinds, Laid, CellOf;
    var s := Placed(f1, NPhi(cells), po, t);
    InputLaid(f);
    PlacedCounts(f, f1, cells, b);
    var i :| 0 <= i < |s.List(b)| &&
      (PhiCell(f1.code, s.List(b)[i]) == Some(v) || StoreCell(f1.code, s.List(b)[i]) == Some(v));
    PlacedAt(f, f1, cells, b, i);
    if |cells[b]| <= i {
      PlacedStore(f, f1, cells, f1.lists[b][i]);
      assert StoreCell(f.code, f.lists[b][i - |cells[b]|]) == Some(v);
    }
  }

  lemma PlacedStore(f: Func, f1: Func, cells: Cells, x: Id)
    requires Fronted(f, f1, cells) && x in f.code
    ensures StoreCell(f1.code, x) == StoreCell(f.code, x) && LoadCell(f1.code, x) == LoadCell(f.code, x)
  {
    hide CellOf, Front;
    forall k | 0 <= k < |f.code[x].args|
      ensures CellOf(f1.code, f.code[x].args[k]) == CellOf(f.code, f.code[x].args[k]) {
      PlacedCell(f, f1, cells, f.code[x].args[k]);
    }
  }

  lemma IdfIsClosed(f: Func, f1: Func, cells: Cells, po: map<Block, nat>, t: Links)
    requires Input(f) && Fronted(f, f1, cells) && IdfCells(f, cells)
    ensures FrontierClosed(Placed(f1, NPhi(cells), po, t))
  {
    hide Fronted, StrictSsa, AddressKinds, Laid, HasPhi, Defines, InIdf, StoreBlocks;
    var s := Placed(f1, NPhi(cells), po, t);
    FrontedKeys(f, f1, cells);
    forall x, y, v | Defines(s, x, v) && InFrontier(s.f.g, x, y) ensures HasPhi(s, y, v) {
      IdfClosedAt(f, f1, cells, po, t, x, y, v);
    }
    forall v ensures !HasPhi(s, s.f.g.entry, v) {
      NoPhiAtEntry(f, f1, cells, po, t, v);
    }
  }

  lemma FrontedKeys(f: Func, f1: Func, cells: Cells)
    requires Input(f) && Fronted(f, f1, cells)
    ensures f1.g == f.g && f.lists.Keys == cells.Keys == f1.lists.Keys == Elements(f.g.blocks) && f.g.WellFormed()
  {
  }

  lemma {:induction false} IdfClosedAt(f: Func, f1: Func, cells: Cells, po: map<Block, nat>, t: Links, x: Block,
      y: Block, v: Id)
    requires Input(f) && Fronted(f, f1, cells) && IdfCells(f, cells)
    requires Defines(Placed(f1, NPhi(cells), po, t), x, v) && InFrontier(f.g, x, y)
    ensures HasPhi(Placed(f1, NPhi(cells), po, t), y, v)
  {
    hide Fronted, Input, HasPhi, InIdf, StoreBlocks;
    FrontedKeys(f, f1, cells);
    DefinitionWhere(f, f1, cells, po, t, x, v);
    IdfStep(f.g, StoreBlocks(f, v), x, y);
    PhiWhereCell(f, f1, cells, po, t, y, v);
  }

  lemma NoPhiAtEntry(f: Func, f1: Func, cells: Cells, po: map<Block, nat>, t: Links, v: Id)
    requires Input(f) && Fronted(f, f1, cells) && IdfCells(f, cells)
    ensures !HasPhi(Placed(f1, NPhi(cells), po, t), f.g.entry, v)
  {
    hide Fronted, Input, HasPhi, StoreBlocks;
    FrontedKeys(f, f1, cells);
    PhiWhereCell(f, f1, cells, po, t, f.g.entry, v);
    if InIdf(f.g, StoreBlocks(f, v), f.g.entry) { IdfHasPred(f.g, StoreBlocks(f, v), f.g.entry); }
  }

  lemma IdfHasPred(g: Graph, s: set<Block>, b: Block)
    requires InIdf(g, s, b)
    ensures b in g.pred && g.pred[b] != []
  {
    var c :| |c| > 1 && FrontierChain(g, s, c) && c[|c| - 1] == b;
    assert InFrontier(g, c[|c| - 2], c[|c| - 2 + 1]);
  }

  // ---- The worklist for one cell ----

  ghost function Lacking(cells: Cells, v: Id): set<Block> {
    set b | b in cells && v !in cells[b]
  }

  // Work list, its first i entries handled, for cell v stored in `stores`: it holds the stores
  // and the phis, every phi is at the iterated frontier, and the frontiers of the handled
  // entries have their phis.
  ghost predicate Working(g: Graph, stores: set<Block>, cells: Cells, v: Id, work: seq<Block>, i: nat) {
    && i <= |work|
    && (forall b :: b in work ==> b in cells && (b in stores || v in cells[b]))
    && (forall b :: b in stores ==> b in work)
    && (forall b {:trigger v in cells[b]} :: b in cells && v in cells[b] ==> b in work && InIdf(g, stores, b))
    && (forall k, y {:trigger InFrontier(g, work[k], y)} :: 0 <= k < i && InFrontier(g, work[k], y) ==>
         y in cells && v in cells[y])
  }

  // The frontier of work[i], all but `rest` of it, has its phis.
  ghost predicate Handling(g: Graph, cells: Cells, v: Id, bb: Block, rest: set<Block>) {
    && (forall y :: y in rest ==> InFrontier(g, bb, y) && y in cells)
    && (forall y :: InFrontier(g, bb, y) && y !in rest ==> y in cells && v in cells[y])
  }

  lemma WorkingStart(g: Graph, stores: set<Block>, cells: Cells, v: Id, work: seq<Block>)
    requires stores <= cells.Keys && (forall b :: b in cells ==> v !in cells[b])
    requires forall b :: b in work <==> b in stores
    ensures Working(g, stores, cells, v, work, 0)
  {
  }

  lemma {:induction false} WorkingAdd(g: Graph, stores: set<Block>, cells: Cells, v: Id, work: seq<Block>, i: nat,
      d: Block)
    requires Working(g, stores, cells, v, work, i) && i < |work| && d in cells && InFrontier(g, work[i], d)
    ensures Working(g, stores, cells[d := [v] + cells[d]], v, work + [d], i)
  {
    hide InFrontier, InIdf;
    IdfStep(g, stores, work[i], d);
    var cells1 := cells[d := [v] + cells[d]];
    forall b | b in cells1 && v in cells1[b] ensures b in work + [d] && InIdf(g, stores, b) {
      if b != d { assert v in cells[b]; }
    }
    forall k, y | 0 <= k < i && InFrontier(g, (work + [d])[k], y) ensures y in cells1 && v in cells1[y] {
      assert InFrontier(g, work[k], y);
    }
  }

  lemma HandlingAdd(g: Graph, cells: Cells, v: Id, bb: Block, rest: set<Block>, d: Block)
    requires Handling(g, cells, v, bb, rest) && d in cells
    ensures Handling(g, cells[d := [v] + cells[d]], v, bb, rest - {d})
    ensures v in cells[d] ==> Handling(g, cells, v, bb, rest - {d})
  {
    hide InFrontier;
    var cells1 := cells[d := [v] + cells[d]];
    forall y | InFrontier(g, bb, y) && y !in rest - {d} ensures y in cells1 && v in cells1[y] {
    }
  }

  lemma WorkingNext(g: Graph, stores: set<Block>, cells: Cells, v: Id, work: seq<Block>, i: nat)
    requires Working(g, stores, cells, v, work, i) && i < |work| && Handling(g, cells, v, work[i], {})
    ensures Working(g, stores, cells, v, work, i + 1)
  {
    hide InFrontier, InIdf;
  }

  lemma WorkingDone(g: Graph, stores: set<Block>, cells: Cells, v: Id, work: seq<Block>)
    requires Working(g, stores, cells, v, work, |work|)
    ensures forall b {:trigger v in cells[b]} :: b in cells ==> (v in cells[b] <==> InIdf(g, stores, b))
    ensures forall b :: InIdf(g, stores, b) ==> b in cells
  {
    hide InFrontier, InIdf;
    var p := set b | b in cells && v in cells[b];
    forall x, y | (x in stores || x in p) && InFrontier(g, x, y) ensures y in p {
      assert x in work;
      var k :| 0 <= k < |work| && work[k] == x;
      assert InFrontier(g, work[k], y);
    }
    forall b | InIdf(g, stores, b) ensures b in p { IdfInClosed(g, stores, p, b); }
  }

  lemma IdfInClosed(g: Graph, s: set<Block>, p: set<Block>, b: Block)
    requires forall x, y :: (x in s || x in p) && InFrontier(g, x, y) ==> y in p
    requires InIdf(g, s, b)
    ensures b in p
  {
    var c :| |c| > 1 && FrontierChain(g, s, c) && c[|c| - 1] == b;
    IdfLeast(g, s, p, c);
  }

  // ---- Step 1: which cells are stored to, and where ----

  ghost predicate InLive(live: map<Operand, set<Block>>, a: Operand, b: Block) {
    a in live && b in live[a]
  }

  ghost predicate StoresTo(f: Func, b: Block, n: nat, a: Operand) {
    a.Res? && b in f.lists && exists i :: 0 <= i < n <= |f.lists[b]| && StoreCell(f.code, f.lists[b][i]) == Some(a.id)
  }

  // live records the stores in `done` and the first n instructions of b.
  ghost predicate Scanned(f: Func, live: map<Operand, set<Block>>, done: seq<Block>, b: Block, n: nat) {
    && (forall a :: a in live ==> live[a] != {})
    && forall a, c {:trigger InLive(live, a, c)} :: InLive(live, a, c) <==>
         (c in done && c in f.lists && StoresTo(f, c, |f.lists[c]|, a)) || (c == b && StoresTo(f, b, n, a))
  }

  lemma ScanOne(f: Func, live: map<Operand, set<Block>>, done: seq<Block>, b: Block, n: nat,
      live1: map<Operand, set<Block>>)
    requires Scanned(f, live, done, b, n) && b in f.lists && n < |f.lists[b]|
    requires StoreCell(f.code, f.lists[b][n]).None? ==> live1 == live
    requires StoreCell(f.code, f.lists[b][n]).Some? ==>
               var a := Res(StoreCell(f.code, f.lists[b][n]).value);
               live1 == live[a := (if a in live then live[a] else {}) + {b}]
    ensures Scanned(f, live1, done, b, n + 1)
  {
    forall a
      ensures StoresTo(f, b, n + 1, a) <==>
        StoresTo(f, b, n, a) || (a.Res? && StoreCell(f.code, f.lists[b][n]) == Some(a.id)) {
      if StoresTo(f, b, n + 1, a) {
        var i :| 0 <= i < n + 1 <= |f.lists[b]| && StoreCell(f.code, f.lists[b][i]) == Some(a.id);
        assert i == n || StoresTo(f, b, n, a);
      }
    }
    forall a, c ensures InLive(live1, a, c) <==>
      (c in done && c in f.lists && StoresTo(f, c, |f.lists[c]|, a)) || (c == b && StoresTo(f, b, n + 1, a))
    {
      assert InLive(live, a, c) <==>
        (c in done && c in f.lists && StoresTo(f, c, |f.lists[c]|, a)) || (c == b && StoresTo(f, b, n, a));
    }
  }

  lemma ScanBlockDone(f: Func, live: map<Operand, set<Block>>, done: seq<Block>, b: Block, next: Block)
    requires b in f.lists && Scanned(f, live, done, b, |f.lists[b]|)
    ensures Scanned(f, live, done + [b], next, 0)
  {
    forall a, c ensures InLive(live, a, c) <==>
      (c in done + [b] && c in f.lists && StoresTo(f, c, |f.lists[c]|, a)) || (c == next && StoresTo(f, next, 0, a))
    {
      assert c in done + [b] <==> c in done || c == b;
      assert InLive(live, a, c) <==>
        (c in done && c in f.lists && StoresTo(f, c, |f.lists[c]|, a)) || (c == b && StoresTo(f, b, |f.lists[b]|, a));
    }
  }

  // The scan has found the cells with stores and their store blocks.
  ghost predicate LiveCells(f: Func, live: map<Operand, set<Block>>) {
    && (forall a :: a in live ==> a.Res? && live[a] == StoreBlocks(f, a.id))
    && (forall v :: StoreBlocks(f, v) != {} ==> Res(v) in live)
  }

  lemma ScanDone(f: Func, live: map<Operand, set<Block>>, b: Block)
    requires Scanned(f, live, f.g.blocks, b, 0) && f.lists.Keys == Elements(f.g.blocks)
    ensures LiveCells(f, live)
  {
    forall a, c ensures InLive(live, a, c) <==> a.Res? && c in StoreBlocks(f, a.id) {
      assert InLive(live, a, c) <==>
        (c in f.g.blocks && c in f.lists && StoresTo(f, c, |f.lists[c]|, a)) || (c == b && StoresTo(f, b, 0, a));
    }
    forall a | a in live ensures a.Res? && live[a] == StoreBlocks(f, a.id) {
      var c :| c in live[a];
      assert InLive(live, a, c);
      forall d
        ensures d in live[a] <==>
          d in StoreBlocks(f, a.id) { assert InLive(live, a, d) <==> d in StoreBlocks(f, a.id); }
    }
    forall v | StoreBlocks(f, v) != {} ensures Res(v) in live {
      var c :| c in StoreBlocks(f, v);
      assert InLive(live, Res(v), c);
    }
  }

  // The cells handled so far have all their phis, the others none.
  ghost predicate CellsDone(f: Func, cells: Cells, rest: set<Operand>) {
    forall b, v {:trigger v in cells[b]} :: b in cells ==>
      (v in cells[b] <==> Res(v) !in rest && InIdf(f.g, StoreBlocks(f, v), b))
  }

  lemma NoStoresNoIdf(g: Graph, b: Block)
    ensures !InIdf(g, {}, b)
  {
  }

  lemma CellsDoneStart(f: Func, cells: Cells, live: map<Operand, set<Block>>)
    requires LiveCells(f, live) && forall b :: b in cells ==> cells[b] == []
    ensures CellsDone(f, cells, live.Keys)
  {
    hide InIdf, StoreBlocks;
    forall b, v | b in cells ensures !(Res(v) !in live.Keys && InIdf(f.g, StoreBlocks(f, v), b)) {
      if Res(v) !in live.Keys { NoStoresNoIdf(f.g, b); }
    }
  }

  // Only cell v has got new phis.
  ghost predicate OnlyCell(cells: Cells, cells1: Cells, v: Id) {
    cells1.Keys == cells.Keys &&
      forall b, u {:trigger u in cells1[b]} :: b in cells && u != v ==> (u in cells1[b] <==> u in cells[b])
  }

  lemma CellsDoneNext(f: Func, cells: Cells, cells1: Cells, rest: set<Operand>, v: Id)
    requires CellsDone(f, cells, rest) && OnlyCell(cells, cells1, v)
    requires forall b {:trigger v in cells1[b]} :: b in cells1 ==>
      (v in cells1[b] <==> InIdf(f.g, StoreBlocks(f, v), b))
    ensures CellsDone(f, cells1, rest - {Res(v)})
  {
    hide InIdf, StoreBlocks;
    forall b, u | b in cells1
      ensures u in cells1[b] <==> Res(u) !in rest - {Res(v)} && InIdf(f.g, StoreBlocks(f, u), b) {
      if u != v { assert u in cells[b] <==> Res(u) !in rest && InIdf(f.g, StoreBlocks(f, u), b); }
    }
  }

  lemma CellsDoneEnd(f: Func, cells: Cells)
    requires CellsDone(f, cells, {})
    ensures IdfCells(f, cells)
  {
  }
}
