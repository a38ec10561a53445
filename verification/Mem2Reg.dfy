/** The pass itself: phi placement, renaming along the dominator tree with one stack
    per cell, and the removal of the cells. */
module Mem2Reg {
  import opened Wrappers
  import opened Cfg
  import opened DomTree
  import opened Frontier
  import opened Ir
  import opened Ssa
  import opened Simulation
  import opened FunctionIr
  import opened PhiPlacement
  import opened TreeWalk
  import opened Renaming

  class Pass {
    const g: Graph
    const body: Body
    // From the dominator analysis.
    const frontier: map<Block, set<Block>>
    const treeSucc: map<Block, set<Block>>
    // The value stack of each cell.
    var varValStack: map<Operand, seq<Operand>>

    constructor (g: Graph, body: Body, frontier: map<Block, set<Block>>, treeSucc: map<Block, set<Block>>)
      ensures this.g == g && this.body == body && this.frontier == frontier && this.treeSucc == treeSucc
      ensures varValStack == map[]
    {
      this.g, this.body, this.frontier, this.treeSucc := g, body, frontier, treeSucc;
      varValStack := map[];
    }

    // ---- Phi placement ----

    method GeneratePhi(ghost f: Func) returns (ghost cells: Cells)
      requires body.Valid() && body.Snapshot(g) == f && Input(f) && IsFrontier(g, frontier)
      modifies body
      ensures body.Valid() && body.dead == old(body.dead) && body.retired == old(body.retired)
      ensures Fronted(f, body.Snapshot(g), cells) && IdfCells(f, cells)
    {
      hide *;
      body.SnapshotIs(g);
      InputKeys(f);
      var live := FindStores(f);
      var phis: set<(Block, Operand)> := {};
      FrontedStart(f);
      cells := map b | b in f.lists :: [];
      EmptyCells(f, cells, live);
      var rest := live.Keys;
      while rest != {}
        invariant body.Valid() && body.dead == old(body.dead) && body.retired == old(body.retired)
        invariant Fronted(f, body.Snapshot(g), cells) && CellsDone(f, cells, rest) && PhisAre(phis, cells)
        invariant rest <= live.Keys
        decreases rest
      {
        var a :| a in rest;
        LiveCell(f, live, cells, rest, a);
        FrontedKeys(f, body.Snapshot(g), cells);
        FrontierBlocks(g, frontier);
        ghost var before := cells;
        phis, cells := PlacePhis(a, live[a], phis, f, cells);
        CellsDoneNext(f, before, cells, rest, a.id);
        rest := rest - {a};
      }
      CellsDoneEnd(f, cells);
    }

    // Step 1: the cells that are stored to, with the blocks of their stores.
    method FindStores(ghost f: Func) returns (live: map<Operand, set<Block>>)
      requires body.Snapshot(g) == f && Input(f)
      ensures LiveCells(f, live)
    {
      hide *;
      live := map[];
      body.SnapshotIs(g);
      InputKeys(f);
      NothingScanned(f, g.entry);
      var i := 0;
      while i < |g.blocks|
        invariant 0 <= i <= |g.blocks| && Scanned(f, live, g.blocks[..i], g.entry, 0)
      {
        ElementIs(g.blocks, i);
        live := FindStoresIn(f, g.blocks[i], live, g.blocks[..i]);
        assert g.blocks[..i] + [g.blocks[i]] == g.blocks[..i + 1];
        i := i + 1;
      }
      assert g.blocks[..i] == g.blocks;
      ScanDone(f, live, g.entry);
    }

    method FindStoresIn(ghost f: Func, bb: Block, live: map<Operand, set<Block>>, ghost done: seq<Block>)
      returns (more: map<Operand, set<Block>>)
      requires body.Snapshot(g) == f && Input(f) && bb in f.lists && Scanned(f, live, done, g.entry, 0)
      ensures Scanned(f, more, done + [bb], g.entry, 0)
    {
      hide *;
      more := live;
      body.SnapshotIs(g);
      ScanTurn(f, live, done, g.entry, bb);
      var n := 0;
      while n < |body.lists[bb]|
        invariant 0 <= n <= |body.lists[bb]| && Scanned(f, more, done, bb, n)
      {
        var x := body.lists[bb][n];
        ghost var last := more;
        InputStore(f, bb, n);
        if body.code[x].op.Store? {
          var lval := body.code[x].args[1];
          if Promotable(body.code, lval) {
            more := more[lval := (if lval in more then more[lval] else {}) + {bb}];
          }
        }
        ScanOne(f, last, done, bb, n, more);
        n := n + 1;
      }
      ScanBlockDone(f, more, done, bb, g.entry);
    }

    // Step 2 for one cell: the work list of blocks that define it grows while it is walked.
    method PlacePhis(a: Operand, stores: set<Block>, phis: set<(Block, Operand)>, ghost f: Func, ghost cells0: Cells)
      returns (phis1: set<(Block, Operand)>, ghost cells: Cells)
      requires body.Valid() && Fronted(f, body.Snapshot(g), cells0) && PhisAre(phis, cells0)
      requires f.g == g && g.Valid() && IsFrontier(g, frontier) && frontier.Keys == cells0.Keys == f.lists.Keys
      requires a.Res? && stores <= cells0.Keys && forall b :: b in cells0 ==> a.id !in cells0[b]
      modifies body
      ensures body.Valid() && body.dead == old(body.dead) && body.retired == old(body.retired)
      ensures Fronted(f, body.Snapshot(g), cells) && PhisAre(phis1, cells) && OnlyCell(cells0, cells, a.id)
      ensures forall b {:trigger a.id in cells[b]} :: b in cells ==> (a.id in cells[b] <==> InIdf(g, stores, b))
    {
      hide *;
      phis1, cells := phis, cells0;
      var work := Listing(stores);
      WorkingStart(g, stores, cells, a.id, work);
      OnlyCellRefl(cells, a.id);
      var i := 0;
      while i < |work|
        invariant body.Valid() && body.dead == old(body.dead) && body.retired == old(body.retired)
        invariant Fronted(f, body.Snapshot(g), cells) && PhisAre(phis1, cells) && OnlyCell(cells0, cells, a.id)
        invariant 0 <= i <= |work| && Working(g, stores, cells, a.id, work, i)
        decreases Lacking(cells, a.id), |work| - i
      {
        ghost var before, n := cells, |work|;
        work, phis1, cells := PlaceAtFrontier(a, stores, phis1, work, i, f, cells0, cells);
        WorkingNext(g, stores, cells, a.id, work, i);
        i := i + 1;
      }
      WorkingDone(g, stores, cells, a.id, work);
    }

    // One entry of the work list.
    method PlaceAtFrontier(a: Operand, ghost stores: set<Block>, phis: set<(Block, Operand)>, work: seq<Block>,
        i: nat, ghost f: Func, ghost cells0: Cells, ghost cells: Cells)
      returns (work1: seq<Block>, phis1: set<(Block, Operand)>, ghost cells1: Cells)
      requires body.Valid() && Fronted(f, body.Snapshot(g), cells) && PhisAre(phis, cells)
      requires f.g == g && g.Valid() && IsFrontier(g, frontier) && frontier.Keys == cells0.Keys == f.lists.Keys
      requires a.Res? && OnlyCell(cells0, cells, a.id) && i < |work| && Working(g, stores, cells, a.id, work, i)
      modifies body
      ensures body.Valid() && body.dead == old(body.dead) && body.retired == old(body.retired)
      ensures Fronted(f, body.Snapshot(g), cells1) && PhisAre(phis1, cells1) && OnlyCell(cells0, cells1, a.id)
      ensures i < |work1| && Working(g, stores, cells1, a.id, work1, i) && Handling(g, cells1, a.id, work1[i], {})
      ensures Lacking(cells1, a.id) < Lacking(cells, a.id) || (cells1 == cells && work1 == work)
    {
      hide *;
      work1, phis1, cells1 := work, phis, cells;
      var bb := work[i];
      HandlingStart(g, frontier, stores, cells, a.id, work, i, cells0);
      var rest := frontier[bb];
      while rest != {}
        invariant body.Valid() && body.dead == old(body.dead) && body.retired == old(body.retired)
        invariant Fronted(f, body.Snapshot(g), cells1) && PhisAre(phis1, cells1) && OnlyCell(cells0, cells1, a.id)
        invariant i < |work1| && work1[i] == bb && Working(g, stores, cells1, a.id, work1, i)
        invariant Handling(g, cells1, a.id, bb, rest)
        invariant Lacking(cells1, a.id) < Lacking(cells, a.id) || (cells1 == cells && work1 == work)
        decreases rest
      {
        var d :| d in rest;
        HandlingMember(g, cells1, a.id, bb, rest, d);
        HandlingAdd(g, cells1, a.id, bb, rest, d);
        if (d, a) !in phis1 {
          NotYet(phis1, cells1, d, a);
          WorkingAdd(g, stores, cells1, a.id, work1, i, d);
          MissingFalls(cells1, a.id, d);
          ghost var f1 := body.Snapshot(g);
          FrontedIds(f, f1, cells1);
          body.SnapshotIs(g);
          var phi := body.CreatePhi(a.id, d);
          body.AddInstrBegin(d, phi);
          body.SnapshotIs(g);
          PhiAddedIs(f1, body.Snapshot(g), d, a.id, phi);
          FrontedAdd(f, f1, body.Snapshot(g), cells1, d, a.id, phi);
          work1 := work1 + [d];
          PhisAdd(phis1, cells1, d, a);
          OnlyCellAdd(cells0, cells1, a.id, d);
          phis1 := phis1 + {(d, a)};
          cells1 := cells1[d := [a.id] + cells1[d]];
        } else {
          Already(phis1, cells1, d, a);
        }
        rest := rest - {d};
      }
    }

    // The members of a set in some order.
    method Listing(s: set<Block>) returns (l: seq<Block>)
      ensures forall b :: b in l <==> b in s
    {
      l := [];
      var rest := s;
      while rest != {}
        invariant rest <= s && forall b :: b in l <==> b in s && b !in rest
        decreases rest
      {
        var b :| b in rest;
        l := l + [b];
        rest := rest - {b};
      }
    }

    // ---- Renaming ----

    // The state of the body while block b is being renamed.
    ghost predicate Inv(s: Placed, done: set<Id>, filled: set<Block>, b: Block, some: set<Id>, finished: set<Block>)
      reads body
    {
      && Ready(s) && s.f.g == g && body.Valid() && body.home == s.f.home
      && CodeAt(s, body.code, body.dead, done, filled, b, some)
      && ListsAt(s, body.lists, finished)
      && DeadAre(s, body.dead, finished) && RetiredAre(body.retired, done)
    }

    lemma {:induction false} InvParts(s: Placed, done: set<Id>, filled: set<Block>, b: Block, some: set<Id>,
        finished: set<Block>)
      requires Inv(s, done, filled, b, some, finished)
      ensures Ready(s) && s.Valid() && s.f.g == g && body.Valid()
      ensures CodeAt(s, body.code, body.dead, done, filled, b, some) && ListsAt(s, body.lists, finished)
      ensures DeadAre(s, body.dead, finished) && RetiredAre(body.retired, done)
      ensures body.lists.Keys == s.f.lists.Keys && body.code.Keys == s.f.code.Keys && body.home == s.f.home
    {
      hide Placed.Valid;
    }

    lemma {:induction false} InvList(s: Placed, done: set<Id>, filled: set<Block>, b: Block, some: set<Id>,
        finished: set<Block>, c: Block)
      requires Inv(s, done, filled, b, some, finished) && c in s.f.lists && c !in finished
      ensures c in body.lists && body.lists[c] == s.f.lists[c] == s.List(c)
    {
      hide Placed.Valid;
    }

    // Instruction i of an unfinished block.
    lemma {:induction false} InvInstr(s: Placed, done: set<Id>, filled: set<Block>, b: Block, finished: set<Block>,
        i: nat)
      requires Inv(s, done, filled, b, {}, finished) && b in s.f.lists && b !in finished && i < |s.List(b)|
      ensures var x := s.List(b)[i]; x in body.code && x in s.f.code && body.code[x].op == s.f.code[x].op
    {
      hide Placed.Valid, InstrAt;
      PlaceOf(s, b, i);
    }

    // Step 3: phis first.
    method PushPhis(ghost s: Placed, bb: Block, ghost full: set<Block>, ghost done: set<Id>, ghost filled: set<Block>,
        ghost finished: set<Block>)
      requires Inv(s, done, filled, bb, {}, finished) && bb in s.f.lists && bb !in finished && bb in s.nphi &&
        s.nphi[bb] <= |s.List(bb)|
      requires KeysAre(s, varValStack, full, bb, 0)
      modifies this`varValStack
      ensures Inv(s, done, filled, bb, {}, finished)
      ensures StackAt(s, varValStack, old(varValStack), bb, s.nphi[bb]) && KeysAre(s, varValStack, full, bb, s.nphi[bb])
    {
      hide *;
      InvParts(s, done, filled, bb, {}, finished);
      InvList(s, done, filled, bb, {}, finished, bb);
      StackStart(s, varValStack, bb);
      var i := 0;
      ghost var n: nat := 0;
      while i < |body.lists[bb]|
        invariant 0 <= i <= |body.lists[bb]| && n == if i < s.nphi[bb] then i else s.nphi[bb]
        invariant StackAt(s, varValStack, old(varValStack), bb, n) && KeysAre(s, varValStack, full, bb, n)
      {
        var x := body.lists[bb][i];
        ghost var next: nat := n + 1;
        InvInstr(s, done, filled, bb, finished, i);
        PhiFirst(s, bb, i);
        if body.code[x].op.Phi? {
          var lval := Res(body.code[x].op.cell);
          PhiPushes(s, bb, i);
          PushOne(s, varValStack, old(varValStack), full, bb, n, next, lval.id, Res(x),
            varValStack[lval := Get(varValStack, lval) + [Res(x)]]);
          varValStack := varValStack[lval := Get(varValStack, lval) + [Res(x)]];
          n := next;
        }
        i := i + 1;
      }
    }

    // Steps 4 and 5: loads are replaced by the top of their cell's stack, stores push.
    // Fails when a load finds the stack of its cell empty.
    method RenameUses(ghost s: Placed, bb: Block, ghost base: Stacks, ghost full: set<Block>,
        ghost finished: set<Block>, ghost done0: set<Id>)
      returns (ok: bool, wait: seq<Id>, ghost done: set<Id>)
      requires Inv(s, done0, full, bb, {}, finished) && bb in s.f.lists && bb !in finished && bb in s.nphi &&
        s.nphi[bb] <= |s.List(bb)|
      requires DoneIs(s, done0, full, bb, 0) && AboveIn(s, full, bb) && bb !in full && BaseOk(s, base, bb)
      requires StackAt(s, varValStack, base, bb, s.nphi[bb]) && KeysAre(s, varValStack, full, bb, s.nphi[bb])
      modifies body, this`varValStack
      ensures ok ==> Inv(s, done, full, bb, {}, finished) && DoneIs(s, done, full, bb, |s.List(bb)|)
      ensures ok ==> StackAt(s, varValStack, base, bb, |s.List(bb)|) && KeysAre(s, varValStack, full, bb, |s.List(bb)|)
      ensures ok ==> WaitIs(s, bb, |s.List(bb)|, wait) && LoadsQuiet(s, full, bb, |s.List(bb)|)
      ensures !ok ==> s.Valid() && exists v :: MissesLoad(s, bb, v) && DefinedIn(s, full, v)
    {
      hide *;
      InvParts(s, done0, full, bb, {}, finished);
      InvList(s, done0, full, bb, {}, finished, bb);
      var i := 0;
      ghost var n: nat := s.nphi[bb];
      wait, done := [], done0;
      UsesStart(s, full, bb);
      while i < |body.lists[bb]|
        invariant 0 <= i <= |s.List(bb)| && n == if i < s.nphi[bb] then s.nphi[bb] else i
        invariant Inv(s, done, full, bb, {}, finished) && body.lists == old(body.lists)
        invariant DoneIs(s, done, full, bb, i) && WaitIs(s, bb, i, wait) && LoadsQuiet(s, full, bb, i)
        invariant StackAt(s, varValStack, base, bb, n) && KeysAre(s, varValStack, full, bb, n)
        decreases |s.List(bb)| - i
      {
        PhiFirst(s, bb, i);
        ghost var next: nat := i + 1;
        ok, wait, done := RenameOne(s, bb, i, next, n, base, full, finished, done, wait);
        if !ok { return; }
        i := i + 1;
        n := if n < i then i else n;
      }
      ok := true;
    }

    // One instruction of the loop. Phis have been pushed already: for them the stacks stay at n.
    method RenameOne(ghost s: Placed, bb: Block, i: nat, ghost next: nat, ghost n: nat, ghost base: Stacks,
        ghost full: set<Block>, ghost finished: set<Block>, ghost done0: set<Id>, wait0: seq<Id>)
      returns (ok: bool, wait: seq<Id>, ghost done: set<Id>)
      requires Inv(s, done0, full, bb, {}, finished) && bb in s.f.lists && bb !in finished && i < |s.List(bb)| &&
        next == i + 1
      requires n <= |s.List(bb)| && (n == i || PhiCell(s.f.code, s.List(bb)[i]).Some?)
      requires n == i ==> PhiCell(s.f.code, s.List(bb)[i]).None?
      requires DoneIs(s, done0, full, bb, i) && AboveIn(s, full, bb) && bb !in full && BaseOk(s, base, bb)
      requires WaitIs(s, bb, i, wait0) && LoadsQuiet(s, full, bb, i)
      requires StackAt(s, varValStack, base, bb, n) && KeysAre(s, varValStack, full, bb, n)
      modifies body, this`varValStack
      ensures ok ==> Inv(s, done, full, bb, {}, finished) && body.lists == old(body.lists)
      ensures ok ==> DoneIs(s, done, full, bb, next) && WaitIs(s, bb, next, wait) && LoadsQuiet(s, full, bb, next)
      ensures ok && n == i ==> StackAt(s, varValStack, base, bb, next) && KeysAre(s, varValStack, full, bb, next)
      ensures ok && n != i ==> StackAt(s, varValStack, base, bb, n) && KeysAre(s, varValStack, full, bb, n)
      ensures !ok ==> s.Valid() && exists v :: MissesLoad(s, bb, v) && DefinedIn(s, full, v)
    {
      hide *;
      InvParts(s, done0, full, bb, {}, finished);
      InvList(s, done0, full, bb, {}, finished, bb);
      DoneReplaced(s, done0, full, bb, i);
      SeeInstr(s, body.code, body.dead, done0, full, finished, bb, i);
      ok, wait, done := true, wait0, done0;
      var x := body.lists[bb][i];
      var instr := body.code[x];
      SeenOp(s, instr, done0, x);
      PhiOp(s, x);
      if instr.op.Load? {
        ok, wait, done := RenameLoad(s, bb, i, next, base, full, finished, done0, wait0, x);
      } else if instr.op.Store? {
        wait := RenameStore(s, bb, i, next, base, full, finished, done0, wait0, x);
      } else {
        LoadNoStore(s, x);
        OnlyLoadsReplaced(s, x);
        QuietCases(s, full, bb, i);
        StepBooks(s, done0, full, bb, i, next, wait0);
        if n == i { PushNone(s, varValStack, base, full, bb, i, next); }
      }
    }

    method RenameLoad(ghost s: Placed, bb: Block, ghost i: nat, ghost next: nat, ghost base: Stacks,
        ghost full: set<Block>, ghost finished: set<Block>, ghost done0: set<Id>, wait0: seq<Id>, x: Id)
      returns (ok: bool, wait: seq<Id>, ghost done: set<Id>)
      requires Inv(s, done0, full, bb, {}, finished) && bb in s.f.lists && i < |s.List(bb)| && next == i + 1
      requires x == s.List(bb)[i] && x in body.code && x in s.f.code && x !in body.dead &&
        Seen(s, body.code[x], done0, x) && body.code[x].op.Load?
      requires DoneIs(s, done0, full, bb, i) && bb !in full && BaseOk(s, base, bb)
      requires WaitIs(s, bb, i, wait0) && LoadsQuiet(s, full, bb, i)
      requires StackAt(s, varValStack, base, bb, i) && KeysAre(s, varValStack, full, bb, i)
      modifies body
      ensures ok ==> Inv(s, done, full, bb, {}, finished) && body.lists == old(body.lists)
      ensures ok ==> DoneIs(s, done, full, bb, next) && WaitIs(s, bb, next, wait) && LoadsQuiet(s, full, bb, next)
      ensures ok ==> StackAt(s, varValStack, base, bb, next) && KeysAre(s, varValStack, full, bb, next)
      ensures !ok ==> s.Valid() && exists v :: MissesLoad(s, bb, v) && DefinedIn(s, full, v)
    {
      hide *;
      InvParts(s, done0, full, bb, {}, finished);
      DoneReplaced(s, done0, full, bb, i);
      SeenOp(s, body.code[x], done0, x);
      LoadCase(s, body.code[x], done0, varValStack, base, full, bb, i);
      ok, wait, done := true, wait0, done0;
      var lval := body.code[x].args[0];
      PromotableSame(s, body.code, body.dead, done0, full, bb, {}, lval);
      LoadNoStore(s, x);
      OnlyLoadsHere(s, x);
      PushNone(s, varValStack, base, full, bb, i, next);
      if Promotable(body.code, lval) && lval in varValStack {
        if varValStack[lval] == [] {
          MissingLoad(s, full, bb, i, LoadCell(s.f.code, x).value);
          ok := false;
          return;
        }
        var top := varValStack[lval][|varValStack[lval]| - 1];
        LastIs(varValStack[lval]);
        ReplacementDiffers(s, x);
        QuietCases(s, full, bb, i);
        StepBooks(s, done0, full, bb, i, next, wait0);
        ghost var code := body.code;
        RetiredNot(body.retired, done0, x);
        body.ReplaceAllUseWith(Res(x), top);
        CodeReplaced(s, code, body.code, body.dead, done0, full, bb, {}, x, top);
        RetiredMore(old(body.retired), done0, x);
        wait := wait + [x];
        done := done + {x};
        InvMake(s, done, full, bb, {}, finished);
      } else {
        QuietCases(s, full, bb, i);
        StepBooks(s, done0, full, bb, i, next, wait0);
      }
    }

    method RenameStore(ghost s: Placed, bb: Block, ghost i: nat, ghost next: nat, ghost base: Stacks,
        ghost full: set<Block>, ghost finished: set<Block>, ghost done0: set<Id>, wait0: seq<Id>, x: Id)
      returns (wait: seq<Id>)
      requires Inv(s, done0, full, bb, {}, finished) && bb in s.f.lists && i < |s.List(bb)| && next == i + 1
      requires x == s.List(bb)[i] && x in body.code && x in s.f.code && Seen(s, body.code[x], done0, x) &&
        body.code[x].op.Store?
      requires DoneIs(s, done0, full, bb, i) && AboveIn(s, full, bb) && bb !in full
      requires WaitIs(s, bb, i, wait0) && LoadsQuiet(s, full, bb, i)
      requires StackAt(s, varValStack, base, bb, i) && KeysAre(s, varValStack, full, bb, i)
      modifies this`varValStack
      ensures Inv(s, done0, full, bb, {}, finished)
      ensures DoneIs(s, done0, full, bb, next) && WaitIs(s, bb, next, wait) && LoadsQuiet(s, full, bb, next)
      ensures StackAt(s, varValStack, base, bb, next) && KeysAre(s, varValStack, full, bb, next)
    {
      hide *;
      InvParts(s, done0, full, bb, {}, finished);
      SeenOp(s, body.code[x], done0, x);
      StoreCase(s, body.code[x], done0, full, bb, i);
      OnlyLoadsReplaced(s, x);
      QuietCases(s, full, bb, i);
      StepBooks(s, done0, full, bb, i, next, wait0);
      wait := wait0;
      var lval, rval := body.code[x].args[1], body.code[x].args[0];
      PromotableSame(s, body.code, body.dead, done0, full, bb, {}, lval);
      OnlyStoresHere(s, x);
      if Promotable(body.code, lval) {
        PushOne(s, varValStack, base, full, bb, i, next, lval.id, rval,
          varValStack[lval := Get(varValStack, lval) + [rval]]);
        varValStack := varValStack[lval := Get(varValStack, lval) + [rval]];
        wait := wait + [x];
      } else {
        PushNone(s, varValStack, base, full, bb, i, next);
      }
    }

    // Where the walk stands when it enters bb.
    ghost predicate AtEntry(s: Placed, bb: Block, full: set<Block>, finished: set<Block>, done: set<Id>,
        order: seq<Block>)
      reads this, body
    {
      && Inv(s, done, full, bb, {}, finished) && bb in s.f.lists && s.Valid() && s.f.g == g
      && DoneIs(s, done, full, bb, 0) && AboveIn(s, full, bb) && full !! Subtree(g, bb) && finished !! Subtree(g, bb)
      && full == Elements(order)
      && BaseOk(s, varValStack, bb) && KeysAre(s, varValStack, full, bb, 0)
    }

    // And when it leaves bb: the whole subtree is done and the stacks are as before.
    ghost predicate AtExit(s: Placed, bb: Block, full: set<Block>, finished: set<Block>, done: set<Id>,
        order0: seq<Block>, order: seq<Block>, stack0: Stacks)
      reads this, body
    {
      && Inv(s, done, full + Subtree(g, bb), bb, {}, finished + Subtree(g, bb)) && s.Valid()
      && DoneIs(s, done, full + Subtree(g, bb), bb, 0)
      && full + Subtree(g, bb) == Elements(order) && order0 <= order && NoClash(s, order, |order0|)
      && SameStacks(varValStack, stack0) && KeysAre(s, varValStack, full + Subtree(g, bb), bb, 0)
    }

    // Renames bb and everything it dominates. `order` is the order in which blocks are entered;
    // the walk fails exactly when it meets a clash.
    method ReName(ghost s: Placed, bb: Block, ghost full: set<Block>, ghost finished: set<Block>,
        ghost done0: set<Id>, ghost order0: seq<Block>)
      returns (ok: bool, ghost done: set<Id>, ghost order: seq<Block>)
      requires AtEntry(s, bb, full, finished, done0, order0) && IsTreeSucc(g, treeSucc) && SuccsDistinct(g) &&
        Walk(g, order0) && OpenAt(g, order0, bb)
      modifies body, this`varValStack
      ensures s.Valid() && order0 <= order && Walk(g, order) && Below(g, order, |order0|, bb)
      ensures ok ==> AtExit(s, bb, full, finished, done, order0, order, old(varValStack))
      ensures !ok ==> SomeClash(s, order, |order0|)
      decreases NumberOf(s.po, bb), 1
    {
      hide *;
      EntryParts(s, bb, full, finished, done0, order0);
      ghost var base := varValStack;
      done, order := done0, order0 + [bb];
      WalkEnters(s, order0, full, bb, order);
      BelowFirst(s, order0, bb, order);
      PhiCount(s, bb);
      PushPhis(s, bb, full, done0, full, finished);
      var wait;
      ok, wait, done := RenameUses(s, bb, base, full, finished, done0);
      if !ok {
        ClashFound(s, order0, bb, order, full);
        return;
      }
      ok := FillPhis(s, bb, base, full, finished, done);
      if !ok {
        ClashFound(s, order0, bb, order, full);
        return;
      }
      NoClashHere(s, order0, bb, order, full);
      DoneBlock(s, done, full, bb, bb);
      KeysBlock(s, varValStack, full, bb, bb);
      ok, done, order := ReNameChildren(s, bb, full, finished, done, order0, order, base);
      if !ok { return; }
      ghost var all := full + Subtree(g, bb);
      DoneReplaced(s, done, all, bb, 0);
      ghost var stack := varValStack;
      PopAll(s, bb, base, done, all, finished + UnderAny(g, treeSucc[bb]));
      KeysTurn(s, stack, varValStack, all, bb, bb);
      DeleteAll(s, bb, wait, done, all, finished + UnderAny(g, treeSucc[bb]));
      ExitMake(s, bb, full, finished, done, order0, order, base);
    }

    // The loop over the dominator-tree children.
    method ReNameChildren(ghost s: Placed, bb: Block, ghost full: set<Block>, ghost finished: set<Block>,
        ghost done0: set<Id>, ghost order0: seq<Block>, ghost order1: seq<Block>, ghost base: Stacks)
      returns (ok: bool, ghost done: set<Id>, ghost order: seq<Block>)
      requires Inv(s, done0, full + {bb}, bb, {}, finished) && s.Valid() && bb in s.f.lists &&
        IsTreeSucc(g, treeSucc) && SuccsDistinct(g)
      requires DoneIs(s, done0, full + {bb}, bb, 0) && AboveIn(s, full, bb) && full !! Subtree(g, bb) &&
        finished !! Subtree(g, bb)
      requires Elements(order1) == full + {bb} && order0 <= order1 && NoClash(s, order1, |order0|)
      requires OpenAt(g, order0, bb) && Walk(g, order1) && Below(g, order1, |order0|, bb) && order0 + [bb] <= order1
      requires StackAt(s, varValStack, base, bb, |s.List(bb)|) && BaseOk(s, base, bb) &&
        KeysAre(s, varValStack, full + {bb}, bb, 0)
      modifies body, this`varValStack
      ensures order0 <= order && Walk(g, order) && Below(g, order, |order0|, bb)
      ensures ok ==> bb in treeSucc && bb !in finished + UnderAny(g, treeSucc[bb])
      ensures ok ==> Inv(s, done, full + Subtree(g, bb), bb, {}, finished + UnderAny(g, treeSucc[bb]))
      ensures ok ==> DoneIs(s, done, full + Subtree(g, bb), bb, 0)
      ensures ok ==> full + Subtree(g, bb) == Elements(order) && NoClash(s, order, |order0|)
      ensures ok ==>
        StackAt(s, varValStack, base, bb, |s.List(bb)|) && KeysAre(s, varValStack, full + Subtree(g, bb), bb, 0)
      ensures !ok ==> SomeClash(s, order, |order0|)
      decreases NumberOf(s.po, bb), 0
    {
      hide *;
      ghost var stack := varValStack;
      ghost var above: set<Block> := full + {bb};
      ghost var under: set<Block> := {};
      done, order, ok := done0, order1, true;
      InvParts(s, done, above, bb, {}, finished);
      TreeSuccParts(s, treeSucc, bb);
      NothingUnder(g);
      SameRefl(varValStack);
      var rest := treeSucc[bb];
      assert treeSucc[bb] - rest == {} && above + under == above && finished + under == finished;
      while rest != {}
        invariant rest <= treeSucc[bb] && under == UnderAny(g, treeSucc[bb] - rest)
        invariant Inv(s, done, above + under, bb, {}, finished + under) && DoneIs(s, done, above + under, bb, 0)
        invariant Elements(order) == above + under && order0 <= order && NoClash(s, order, |order0|)
        invariant order0 + [bb] <= order && Walk(g, order) && Below(g, order, |order0|, bb)
        invariant SameStacks(varValStack, stack) && KeysAre(s, varValStack, above + under, bb, 0)
        decreases rest
      {
        var c :| c in rest;
        ChildReady(s, bb, c, rest, full, finished, done, order, stack, base);
        ghost var order2, stack2 := order, varValStack;
        ChildFacts(s, treeSucc, bb, c);
        NumberFalls(s, bb, c);
        EntryParts(s, c, above + under, finished + under, done, order);
        ChildEntered(s, bb, c, order0, order, above + under);
        ok, done, order := ReName(s, c, above + under, finished + under, done, order);
        BelowMore(s, bb, c, |order0|, order2, order);
        if !ok {
          SomeClashLater(s, order, |order0|, |order2|);
          return;
        }
        ChildLeft(s, bb, c, rest, above, under, finished, done, order0, order2, order, stack2);
        SameTrans(varValStack, stack2, stack);
        under := under + Subtree(g, c);
        rest := rest - {c};
      }
      ChildrenEntered(s, bb, full, finished, above, under);
      StackKept(s, stack, varValStack, base, bb);
    }

    // Step 7: what the block has pushed is popped again.
    method PopAll(ghost s: Placed, bb: Block, ghost base: Stacks, ghost done: set<Id>, ghost filled: set<Block>,
        ghost finished: set<Block>)
      requires Inv(s, done, filled, bb, {}, finished) && bb in s.f.lists && bb !in finished
      requires StackAt(s, varValStack, base, bb, |s.List(bb)|) && forall d :: d in done ==> Replaced(s, d)
      modifies this`varValStack
      ensures Inv(s, done, filled, bb, {}, finished)
      ensures SameStacks(varValStack, base) && varValStack.Keys == old(varValStack.Keys)
    {
      hide *;
      InvParts(s, done, filled, bb, {}, finished);
      InvList(s, done, filled, bb, {}, finished, bb);
      PopStart(s, varValStack, base, bb);
      var i := 0;
      while i < |body.lists[bb]|
        invariant 0 <= i <= |s.List(bb)| && PoppedAt(s, varValStack, base, bb, i) &&
          varValStack.Keys == old(varValStack.Keys)
        decreases |s.List(bb)| - i
      {
        var x := body.lists[bb][i];
        ghost var next: nat := i + 1;
        SeeInstr(s, body.code, body.dead, done, filled, finished, bb, i);
        var instr := body.code[x];
        SeenOp(s, instr, done, x);
        PopCase(s, instr, done, bb, i);
        if instr.op.Store? {
          var lval := instr.args[1];
          PromotableSame(s, body.code, body.dead, done, filled, bb, {}, lval);
          if Promotable(body.code, lval) {
            PopOne(s, varValStack, base, bb, i, next, lval.id, s.Resolve(s.StoredOperand(x)));
            varValStack := varValStack[lval := varValStack[lval][..|varValStack[lval]| - 1]];
          } else {
            PopNone(s, varValStack, base, bb, i, next);
          }
        } else if instr.op.Phi? {
          var lval := Res(instr.op.cell);
          PopOne(s, varValStack, base, bb, i, next, lval.id, Res(x));
          if lval in varValStack {
            varValStack := varValStack[lval := varValStack[lval][..|varValStack[lval]| - 1]];
          }
        } else {
          PopNone(s, varValStack, base, bb, i, next);
        }
        i := i + 1;
      }
      PopDone(s, varValStack, base, bb);
    }

    method DeleteAll(ghost s: Placed, bb: Block, wait: seq<Id>, ghost done: set<Id>, ghost filled: set<Block>,
        ghost finished: set<Block>)
      requires Inv(s, done, filled, bb, {}, finished) && bb in s.f.lists && bb !in finished
      requires WaitIs(s, bb, |s.List(bb)|, wait)
      modifies body
      ensures Inv(s, done, filled, bb, {}, finished + {bb})
    {
      hide *;
      InvParts(s, done, filled, bb, {}, finished);
      InvList(s, done, filled, bb, {}, finished, bb);
      WaitCode(s, bb, wait);
      ghost var lists, dead, code := body.lists, body.dead, body.code;
      WithoutNone(s.f.lists[bb]);
      NoSet();
      assert wait[..0] == [];
      SameLists(lists, bb);
      var k := 0;
      while k < |wait|
        invariant 0 <= k <= |wait| && body.Valid() && body.code == code && body.retired == old(body.retired) &&
          body.home == s.f.home
        invariant body.dead == dead + SetOf(wait[..k])
        invariant body.lists == lists[bb := Without(s.f.lists[bb], SetOf(wait[..k]))]
      {
        SetOfStep(wait, k);
        WithoutTwice(s.f.lists[bb], SetOf(wait[..k]), wait[k]);
        body.DeleteInstr(bb, wait[k]);
        k := k + 1;
      }
      assert wait[..k] == wait;
      DeletedList(s, lists, finished, bb, Without(s.f.lists[bb], SetOf(wait)), wait);
      DeadMore(s, dead, finished, bb, wait);
      CodeMoreDead(s, code, dead, body.dead, done, filled, bb);
      InvMake(s, done, filled, bb, {}, finished + {bb});
    }

    // Step 6: the current stack tops become operands of the phis of the successors.
    // Fails when the stack of a cell is empty.
    method FillPhis(ghost s: Placed, bb: Block, ghost base: Stacks, ghost full: set<Block>,
        ghost finished: set<Block>, ghost done: set<Id>)
      returns (ok: bool)
      requires Inv(s, done, full, bb, {}, finished) && bb in s.f.lists && bb !in full && BaseOk(s, base, bb) &&
        SuccsDistinct(g)
      requires StackAt(s, varValStack, base, bb, |s.List(bb)|) && KeysAre(s, varValStack, full, bb, |s.List(bb)|)
      requires LoadsQuiet(s, full, bb, |s.List(bb)|)
      modifies body
      ensures ok ==> Inv(s, done, full + {bb}, bb, {}, finished) && body.lists == old(body.lists)
      ensures ok ==> forall v :: Missing(s, bb, v) ==> !DefinedIn(s, full, v)
      ensures !ok ==> s.Valid() && exists v :: MissesFill(s, bb, v) && DefinedIn(s, full, v)
    {
      hide *;
      InvParts(s, done, full, bb, {}, finished);
      SuccFacts(s, bb);
      ghost var some: set<Id> := {};
      var m := 0;
      SomeStart(s, full, bb, bb, []);
      while m < |g.succ[bb]|
        invariant 0 <= m <= |g.succ[bb]|
        invariant Inv(s, done, full, bb, some, finished) && body.lists == old(body.lists)
        invariant SomeIs(s, some, g.succ[bb][..m], bb, [], 0) && FillsQuiet(s, full, bb, some)
      {
        SuccAt(g, bb, m);
        ok, some := FillBlock(s, bb, g.succ[bb][m], g.succ[bb][..m], base, full, finished, done, some);
        if !ok { return; }
        assert g.succ[bb][..m] + [g.succ[bb][m]] == g.succ[bb][..m + 1];
        m := m + 1;
      }
      ok := true;
      assert g.succ[bb][..m] == g.succ[bb];
      SomeDone(s, some, bb, bb, []);
      forall v ensures Missing(s, bb, v) ==> !DefinedIn(s, full, v) { NothingMissing(s, full, bb, some, v); }
      InvParts(s, done, full, bb, some, finished);
      FillDone(s, body.code, body.dead, done, full, bb, some, bb);
      InvMake(s, done, full + {bb}, bb, {}, finished);
    }

    method FillBlock(ghost s: Placed, bb: Block, d: Block, ghost ds: seq<Block>, ghost base: Stacks,
        ghost full: set<Block>, ghost finished: set<Block>, ghost done: set<Id>, ghost some0: set<Id>)
      returns (ok: bool, ghost some: set<Id>)
      requires Inv(s, done, full, bb, some0, finished) && bb in s.f.lists && bb !in full && BaseOk(s, base, bb)
      requires StackAt(s, varValStack, base, bb, |s.List(bb)|) && KeysAre(s, varValStack, full, bb, |s.List(bb)|)
      requires g.Edge(bb, d) && d in s.f.lists && d !in ds && SomeIs(s, some0, ds, bb, [], 0) &&
        FillsQuiet(s, full, bb, some0)
      modifies body
      ensures ok ==> Inv(s, done, full, bb, some, finished) && body.lists == old(body.lists)
      ensures ok ==> SomeIs(s, some, ds + [d], bb, [], 0) && FillsQuiet(s, full, bb, some)
      ensures !ok ==> s.Valid() && exists v :: MissesFill(s, bb, v) && DefinedIn(s, full, v)
    {
      hide *;
      InvParts(s, done, full, bb, some0, finished);
      ListPhis(s, body.lists, finished, d);
      some := some0;
      SomeTurn(s, some, ds, bb, [], d, body.lists[d]);
      var k := 0;
      while k < |body.lists[d]|
        invariant d in body.lists && 0 <= k <= |body.lists[d]| && body.lists == old(body.lists)
        invariant Inv(s, done, full, bb, some, finished)
        invariant SomeIs(s, some, ds, d, body.lists[d], k) && FillsQuiet(s, full, bb, some)
        decreases |body.lists[d]| - k
      {
        var x := body.lists[d][k];
        ghost var next: nat := k + 1;
        InvParts(s, done, full, bb, some, finished);
        SomeStep(s, some, ds, d, body.lists[d], k, next);
        PhiOps(s, body.code, body.dead, done, full, bb, some, x);
        if body.code[x].op.Phi? {
          var lval := Res(body.code[x].op.cell);
          FillCase(s, varValStack, base, full, bb, x);
          PhiAlive(s, body.dead, finished, x);
          ghost var code := body.code;
          if lval in varValStack {
            if varValStack[lval] == [] {
              MissingFill(s, bb, d, x);
              ok := false;
              return;
            }
            LastIs(varValStack[lval]);
            body.AddPhiPairOperand(x, varValStack[lval][|varValStack[lval]| - 1], bb);
          }
          CodeFilled(s, code, body.code, body.dead, done, full, bb, some, x, s.Top(bb, |s.List(bb)|, lval.id));
          QuietMore(s, full, bb, some, x);
          some := some + {x};
          InvMake(s, done, full, bb, some, finished);
        }
        k := k + 1;
      }
      ok := true;
      SomeBlock(s, some, ds, d, body.lists[d], bb, []);
    }

    lemma {:induction false} ChildReady(s: Placed, bb: Block, c: Block, rest: set<Block>, full: set<Block>,
        finished: set<Block>, done: set<Id>, order: seq<Block>, stack: Stacks, base: Stacks)
      requires s.Valid() && s.f.g == g && bb in s.f.lists && IsTreeSucc(g, treeSucc) && bb in treeSucc && c in rest &&
        rest <= treeSucc[bb]
      requires AboveIn(s, full, bb) && full !! Subtree(g, bb) && finished !! Subtree(g, bb)
      requires var under := UnderAny(g, treeSucc[bb] - rest);
               && Inv(s, done, full + {bb} + under, bb, {}, finished + under) &&
                    DoneIs(s, done, full + {bb} + under, bb, 0)
               && Elements(order) == full + {bb} + under && KeysAre(s, varValStack, full + {bb} + under, bb, 0)
      requires SameStacks(varValStack, stack) && StackAt(s, stack, base, bb, |s.List(bb)|) && BaseOk(s, base, bb)
      ensures var under := UnderAny(g, treeSucc[bb] - rest);
              AtEntry(s, c, full + {bb} + under, finished + under, done, order)
    {
      hide *;
      var under := UnderAny(g, treeSucc[bb] - rest);
      var above := full + {bb} + under;
      ChildFacts(s, treeSucc, bb, c);
      InvParts(s, done, above, bb, {}, finished + under);
      FillTurn(s, body.code, body.dead, done, above, bb, c);
      InvMake(s, done, above, c, {}, finished + under);
      DoneTurn(s, done, above, bb, c);
      AboveMore(s, full, above, bb);
      AboveChild(s, above, bb, c);
      ChildFresh(s, treeSucc, bb, c, rest, full, finished);
      StackKept(s, stack, varValStack, base, bb);
      ChildBase(s, varValStack, base, bb, c);
      KeysTurn(s, varValStack, varValStack, above, bb, c);
      EntryMake(s, c, above, finished + under, done, order);
    }

    lemma {:induction false} EntryMake(s: Placed, bb: Block, full: set<Block>, finished: set<Block>, done: set<Id>,
        order: seq<Block>)
      requires Inv(s, done, full, bb, {}, finished) && bb in s.f.lists && s.Valid() && s.f.g == g
      requires DoneIs(s, done, full, bb, 0) && AboveIn(s, full, bb) && full !! Subtree(g, bb) &&
        finished !! Subtree(g, bb)
      requires full == Elements(order)
      requires BaseOk(s, varValStack, bb) && KeysAre(s, varValStack, full, bb, 0)
      ensures AtEntry(s, bb, full, finished, done, order)
    {
    }

    lemma {:induction false} ChildLeft(s: Placed, bb: Block, c: Block, rest: set<Block>, above: set<Block>,
        under: set<Block>, finished: set<Block>, done: set<Id>, order0: seq<Block>, order2: seq<Block>,
          order: seq<Block>, stack2: Stacks)
      requires s.Valid() && bb in treeSucc && c in rest && rest <= treeSucc[bb] &&
        under == UnderAny(g, treeSucc[bb] - rest)
      requires AtExit(s, c, above + under, finished + under, done, order2, order, stack2)
      requires order0 <= order2 && NoClash(s, order2, |order0|)
      ensures under + Subtree(g, c) == UnderAny(g, treeSucc[bb] - (rest - {c}))
      ensures var under1 := under + Subtree(g, c);
              && Inv(s, done, above + under1, bb, {}, finished + under1) && DoneIs(s, done, above + under1, bb, 0)
              && Elements(order) == above + under1 && order0 <= order && NoClash(s, order, |order0|)
              && SameStacks(varValStack, stack2) && KeysAre(s, varValStack, above + under1, bb, 0)
    {
      hide *;
      ExitParts(s, c, above + under, finished + under, done, order2, order, stack2);
      var under1 := under + Subtree(g, c);
      assert above + under + Subtree(g, c) == above + under1 && finished + under + Subtree(g, c) == finished + under1;
      InvParts(s, done, above + under1, c, {}, finished + under1);
      FillTurn(s, body.code, body.dead, done, above + under1, c, bb);
      InvMake(s, done, above + under1, bb, {}, finished + under1);
      DoneTurn(s, done, above + under1, c, bb);
      KeysTurn(s, varValStack, varValStack, above + under1, c, bb);
      NoClashExtend(s, order2, |order0|, order);
      UnderOneMore(g, treeSucc[bb], rest, c);
    }

    lemma {:induction false} ExitParts(s: Placed, bb: Block, full: set<Block>, finished: set<Block>, done: set<Id>,
        order0: seq<Block>, order: seq<Block>, stack0: Stacks)
      requires AtExit(s, bb, full, finished, done, order0, order, stack0)
      ensures Inv(s, done, full + Subtree(g, bb), bb, {}, finished + Subtree(g, bb)) && s.Valid()
      ensures DoneIs(s, done, full + Subtree(g, bb), bb, 0)
      ensures full + Subtree(g, bb) == Elements(order) && order0 <= order && NoClash(s, order, |order0|)
      ensures SameStacks(varValStack, stack0) && KeysAre(s, varValStack, full + Subtree(g, bb), bb, 0)
    {
      hide Inv, DoneIs, NoClash, SameStacks, KeysAre, Placed.Valid, Subtree;
    }

    lemma {:induction false} ChildrenEntered(s: Placed, bb: Block, full: set<Block>, finished: set<Block>,
        above: set<Block>, under: set<Block>)
      requires s.Valid() && s.f.g == g && bb in s.f.lists && IsTreeSucc(g, treeSucc) && bb in treeSucc
      requires above == full + {bb} && under == UnderAny(g, treeSucc[bb] - {}) && finished !! Subtree(g, bb)
      ensures above + under == full + Subtree(g, bb) && finished + under == finished + UnderAny(g, treeSucc[bb])
      ensures bb !in finished + UnderAny(g, treeSucc[bb])
    {
      hide StrictSsa, Tree, Anc, Placed.PhisFirst, IsTreeSucc;
      assert treeSucc[bb] - {} == treeSucc[bb];
      SubtreeSplit(g, s.po, s.t, treeSucc, bb);
      assert bb in Subtree(g, bb);
      forall c | c in treeSucc[bb] ensures !g.Dominates(c, bb) {
        ChildFacts(s, treeSucc, bb, c);
        ParentApart(g, s.po, s.t, bb, c);
      }
    }

    lemma {:induction false} EntryParts(s: Placed, bb: Block, full: set<Block>, finished: set<Block>, done: set<Id>,
        order: seq<Block>)
      requires AtEntry(s, bb, full, finished, done, order)
      ensures Inv(s, done, full, bb, {}, finished) && bb in s.f.lists && s.Valid() && s.f.g == g
      ensures DoneIs(s, done, full, bb, 0) && AboveIn(s, full, bb) && full !! Subtree(g, bb) &&
        finished !! Subtree(g, bb)
      ensures full == Elements(order)
      ensures BaseOk(s, varValStack, bb) && KeysAre(s, varValStack, full, bb, 0)
      ensures bb !in full && bb !in finished
    {
      hide CodeAt, ListsAt, DoneIs, BaseOk, KeysAre, StrictSsa, Tree, Anc, AddressKinds, PhisOfCells,
        Placed.PhisFirst, Body.Valid;
      assert bb in Subtree(g, bb);
    }

    lemma {:induction false} ExitMake(s: Placed, bb: Block, full: set<Block>, finished: set<Block>, done: set<Id>,
        order0: seq<Block>, order: seq<Block>, stack0: Stacks)
      requires s.Valid() && s.f.g == g && bb in s.f.lists && IsTreeSucc(g, treeSucc) && bb in treeSucc
      requires Inv(s, done, full + Subtree(g, bb), bb, {}, finished + UnderAny(g, treeSucc[bb]) + {bb})
      requires DoneIs(s, done, full + Subtree(g, bb), bb, 0)
      requires full + Subtree(g, bb) == Elements(order) && order0 <= order && NoClash(s, order, |order0|)
      requires SameStacks(varValStack, stack0) && KeysAre(s, varValStack, full + Subtree(g, bb), bb, 0)
      ensures AtExit(s, bb, full, finished, done, order0, order, stack0)
    {
      hide Inv, DoneIs, NoClash, SameStacks, KeysAre, StrictSsa, Tree, Anc, Placed.PhisFirst, IsTreeSucc;
      SubtreeSplit(g, s.po, s.t, treeSucc, bb);
      assert finished + UnderAny(g, treeSucc[bb]) + {bb} == finished + Subtree(g, bb);
    }

    lemma {:induction false} InvMake(s: Placed, done: set<Id>, filled: set<Block>, b: Block, some: set<Id>,
        finished: set<Block>)
      requires Ready(s) && s.f.g == g && body.Valid() && body.home == s.f.home
      requires CodeAt(s, body.code, body.dead, done, filled, b, some) && ListsAt(s, body.lists, finished)
      requires DeadAre(s, body.dead, finished) && RetiredAre(body.retired, done)
      ensures Inv(s, done, filled, b, some, finished)
    {
    }

    // ---- Removing the cells ----

    // The number cells among the instructions of bb.
    method NumberCells(ghost s: Placed, bb: Block) returns (wait: seq<Id>)
      requires s.Valid() && bb in s.f.lists && bb in body.lists && body.lists[bb] == Live(s, s.f.lists[bb])
      requires forall x :: x in s.f.code ==> x in body.code && body.code[x].op == s.f.code[x].op
      ensures CellsWait(s, bb, wait)
    {
      hide *;
      LiveCode(s, bb);
      NothingBefore(body.lists[bb]);
      wait := [];
      var i := 0;
      while i < |body.lists[bb]|
        invariant 0 <= i <= |body.lists[bb]|
        invariant forall x :: x in wait <==>
          InPrefix(body.lists[bb], i, x) && x in s.f.code && s.f.code[x].op == Alloca(Number)
      {
        var x := body.lists[bb][i];
        ghost var next: nat := i + 1;
        forall y ensures InPrefix(body.lists[bb], next, y) <==> InPrefix(body.lists[bb], i, y) || y == x {
          PrefixStep(body.lists[bb], i, next, y);
        }
        if body.code[x].op == Alloca(Number) {
          wait := wait + [x];
        }
        i := i + 1;
      }
      CellsFound(s, bb, body.lists[bb], wait);
    }

    method DeleteCells(ghost s: Placed, bb: Block, wait: seq<Id>, ghost code: Code, ghost dead: set<Id>)
      requires s.Valid() && body.Valid() && body.code == code && body.home == s.f.home && code.Keys == s.f.code.Keys
      requires bb in body.lists && bb in s.f.lists && body.lists[bb] == Live(s, s.f.lists[bb]) && CellsWait(s, bb, wait)
      requires StripDead(s, body.dead) && dead <= body.dead
      modifies body
      ensures body.Valid() && body.code == code && body.home == s.f.home && StripDead(s, body.dead) && dead <= body.dead
      ensures body.lists == old(body.lists)[bb := Without(Live(s, s.f.lists[bb]), SetOf(wait))]
    {
      hide *;
      CellsAre(s, bb, wait);
      NoSet();
      WithoutNone(body.lists[bb]);
      assert wait[..0] == [];
      SameLists(body.lists, bb);
      ghost var lists, l := body.lists, body.lists[bb];
      var k := 0;
      while k < |wait|
        invariant 0 <= k <= |wait| && body.Valid() && body.code == code && body.home == s.f.home
        invariant StripDead(s, body.dead) && dead <= body.dead
        invariant body.lists == lists[bb := Without(l, SetOf(wait[..k]))]
      {
        SetOfStep(wait, k);
        WithoutTwice(l, SetOf(wait[..k]), wait[k]);
        DeadCell(s, body.dead, wait[k]);
        body.DeleteInstr(bb, wait[k]);
        k := k + 1;
      }
      assert wait[..k] == wait;
    }

    // Number cells go; what is left is the promoted function.
    method RemoveAlloca(ghost s: Placed, ghost done: set<Id>, ghost all: set<Block>)
      requires Inv(s, done, all, g.entry, {}, all) && all == Elements(g.blocks) && DoneIs(s, done, all, g.entry, 0)
      modifies body
      ensures s.Valid() && s.f.g == g && IsPromotion(s, body.Snapshot(g)) && PhisComplete(s, body.Snapshot(g)) &&
        body.Valid()
    {
      hide *;
      InvParts(s, done, all, g.entry, {}, all);
      PlacedBlocks(s);
      ghost var dead, code := body.dead, body.code;
      CodeOps(s, code, dead, done, all, g.entry, {});
      StripStart(s, body.lists, all, dead);
      var i := 0;
      while i < |g.blocks|
        invariant 0 <= i <= |g.blocks| && body.Valid() && body.code == code && body.home == s.f.home
        invariant Stripped(s, body.lists, g.blocks[..i], all) && StripDead(s, body.dead) && dead <= body.dead
      {
        BlockAt(g, i);
        StripAt(s, body.lists, g.blocks[..i], all, i);
        var wait := NumberCells(s, g.blocks[i]);
        ghost var lists := body.lists;
        DeleteCells(s, g.blocks[i], wait, code, dead);
        StripNext(s, lists, body.lists, g.blocks[..i], all, i, wait);
        assert g.blocks[..i] + [g.blocks[i]] == g.blocks[..i + 1];
        i := i + 1;
      }
      assert g.blocks[..i] == g.blocks;
      CodeMoreDead(s, code, dead, body.dead, done, all, g.entry);
      body.SnapshotIs(g);
      Promoted(s, body.Snapshot(g), body.dead, done, all);
      PhisEnd(s, body.Snapshot(g), body.dead, done, all, g.entry);
    }
  }

  lemma SeenOp(s: Placed, instr: Instr, done: set<Id>, x: Id)
    requires s.Valid() && x in s.f.code && Seen(s, instr, done, x)
    ensures instr.op == s.f.code[x].op && (instr.op.Load? ==> |instr.args| == 1) &&
      (instr.op.Store? ==> |instr.args| == 2)
  {
    hide Placed.Valid;
  }

  lemma PhiOp(s: Placed, x: Id)
    requires x in s.f.code
    ensures PhiCell(s.f.code, x).Some? ==> s.f.code[x].op.Phi?
  {
  }

  lemma SuccFacts(s: Placed, b: Block)
    requires s.Valid() && b in s.f.lists
    ensures b in s.f.g.succ && forall d :: s.f.g.Edge(b, d) ==> d in s.f.lists
    ensures forall m :: 0 <= m < |s.f.g.succ[b]| ==> s.f.g.Edge(b, s.f.g.succ[b][m])
  {
    hide StrictSsa, Tree, Anc;
  }

  lemma {:induction false} PhiOps(s: Placed, code: Code, dead: set<Id>, done: set<Id>, filled: set<Block>, b: Block,
      some: set<Id>, x: Id)
    requires s.Valid() && CodeAt(s, code, dead, done, filled, b, some) && x in s.f.code
    ensures x in code && code[x].op == s.f.code[x].op
    ensures PhiCell(s.f.code, x) == if code[x].op.Phi? then Some(code[x].op.cell) else None
  {
    hide Placed.Valid, InstrAt;
  }

  lemma PhiAlive(s: Placed, dead: set<Id>, finished: set<Block>, x: Id)
    requires s.Valid() && DeadAre(s, dead, finished) && PhiCell(s.f.code, x).Some?
    ensures x !in dead
  {
    hide Placed.Valid, Gone;
    NotBoth(s, x);
  }

  lemma {:induction false} QuietMore(s: Placed, full: set<Block>, b: Block, some: set<Id>, x: Id)
    requires s.Valid() && b in s.f.lists && FillsQuiet(s, full, b, some) && FillQuiet(s, full, b, x)
    ensures FillsQuiet(s, full, b, some + {x})
  {
    hide Placed.Valid, FillQuiet;
  }

  lemma {:induction false} PopCase(s: Placed, instr: Instr, done: set<Id>, b: Block, i: nat)
    requires Ready(s) && b in s.f.lists && i < |s.List(b)| && s.List(b)[i] in s.f.code &&
      Seen(s, instr, done, s.List(b)[i])
    ensures var x := s.List(b)[i]; instr.op.Store? && Promotable(s.f.code, instr.args[1]) ==>
              instr.args[1].Res? && Pushes(s, b, i, instr.args[1].id, s.Resolve(s.StoredOperand(x)))
    ensures var x := s.List(b)[i]; instr.op.Phi? ==> Pushes(s, b, i, instr.op.cell, Res(x))
    ensures var x := s.List(b)[i]; !instr.op.Phi? && !(instr.op.Store? && Promotable(s.f.code, instr.args[1])) ==>
              PhiCell(s.f.code, x).None? && StoreCell(s.f.code, x).None?
  {
    hide Placed.Valid, Placed.Resolve;
    assert AddressKind(s.f.code, s.List(b)[i]);
  }

  lemma WaitCode(s: Placed, b: Block, wait: seq<Id>)
    requires s.Valid() && b in s.f.lists && WaitIs(s, b, |s.List(b)|, wait)
    ensures forall k :: 0 <= k < |wait| ==> wait[k] in s.f.code
  {
    hide Placed.Valid, Gone;
    forall k | 0 <= k < |wait| ensures wait[k] in s.f.code {
      assert wait[k] in wait;
      var i :| 0 <= i < |s.List(b)| && s.List(b)[i] == wait[k];
      PlaceOf(s, b, i);
    }
  }

  lemma NoSet()
    ensures SetOf([]) == {}
  {
  }

  lemma SameLists(lists: map<Block, seq<Id>>, b: Block)
    requires b in lists
    ensures lists[b := lists[b]] == lists
  {
  }

  lemma BelowFirst(s: Placed, order0: seq<Block>, b: Block, order: seq<Block>)
    requires s.Valid() && b in s.f.lists && order == order0 + [b]
    ensures Below(s.f.g, order, |order0|, b)
  {
    hide StrictSsa, IsDomTree, Placed.PhisFirst;
  }

  lemma {:induction false} ChildEntered(s: Placed, b: Block, c: Block, order0: seq<Block>, order: seq<Block>,
      full: set<Block>)
    requires s.Valid() && b in s.f.lists && OpenAt(s.f.g, order0, b) && order0 + [b] <= order &&
      Below(s.f.g, order, |order0|, b)
    requires s.f.g.ImmediateDominator(b, c) && c in s.f.lists && full == Elements(order) && full !! Subtree(s.f.g, c)
    ensures OpenAt(s.f.g, order, c)
  {
    hide StrictSsa, IsDomTree, Placed.PhisFirst, OpenAt, Below;
    assert c in Subtree(s.f.g, c) && c !in full;
    ChildOpen(s.f.g, s.po, s.t, order0, order, b, c);
  }

  lemma {:induction false} BelowMore(s: Placed, b: Block, c: Block, from: nat, order2: seq<Block>, order: seq<Block>)
    requires s.Valid() && order2 <= order && from <= |order2| && Below(s.f.g, order2, from, b) &&
      Below(s.f.g, order, |order2|, c)
    requires c in s.f.lists && s.f.g.ImmediateDominator(b, c)
    ensures Below(s.f.g, order, from, b)
  {
    hide StrictSsa, IsDomTree, Placed.PhisFirst, Below;
    BelowChild(s.f.g, s.po, s.t, b, c, from, order2, order);
  }

  lemma {:induction false} ClashFound(s: Placed, order0: seq<Block>, b: Block, order: seq<Block>, full: set<Block>)
    requires s.Valid() && b in s.f.lists && order == order0 + [b] && full == Elements(order0)
    requires exists v :: (MissesLoad(s, b, v) || MissesFill(s, b, v)) && DefinedIn(s, full, v)
    ensures SomeClash(s, order, |order0|)
  {
    hide Placed.Valid, Clash;
    ClashHere(s, order0, b, order);
    assert Clash(s, order, |order0|);
  }

  lemma {:induction false} NoClashHere(s: Placed, order0: seq<Block>, b: Block, order: seq<Block>, full: set<Block>)
    requires s.Valid() && b in s.f.lists && order == order0 + [b] && full == Elements(order0)
    requires forall v :: Missing(s, b, v) ==> !DefinedIn(s, full, v)
    ensures NoClash(s, order, |order0|) && Elements(order) == full + {b}
  {
    hide Placed.Valid, Clash, Missing, DefinedIn;
    ClashHere(s, order0, b, order);
    assert forall x :: x in order <==> x in order0 || x == b;
  }

  lemma TreeSuccParts(s: Placed, ch: map<Block, set<Block>>, b: Block)
    requires s.Valid() && b in s.f.lists && IsTreeSucc(s.f.g, ch)
    ensures b in ch
  {
    hide StrictSsa, Tree, Anc, Placed.PhisFirst;
  }

  lemma ChildFacts(s: Placed, ch: map<Block, set<Block>>, b: Block, c: Block)
    requires s.Valid() && IsTreeSucc(s.f.g, ch) && b in ch && c in ch[b]
    ensures c in s.f.lists && c in s.f.g.blocks && s.f.g.ImmediateDominator(b, c)
  {
    hide StrictSsa, Tree, Anc, Placed.PhisFirst;
  }

  lemma SameRefl(stack: Stacks)
    ensures SameStacks(stack, stack)
  {
  }

  lemma {:induction false} DoneTurn(s: Placed, done: set<Id>, full: set<Block>, b: Block, c: Block)
    requires s.Valid() && DoneIs(s, done, full, b, 0)
    ensures DoneIs(s, done, full, c, 0)
  {
    hide Placed.Valid, Replaced;
  }

  lemma AboveMore(s: Placed, full: set<Block>, more: set<Block>, b: Block)
    requires AboveIn(s, full, b) && full <= more
    ensures AboveIn(s, more, b)
  {
    forall d | s.f.g.StrictlyDominates(d, b) ensures d in more {
      assert d in full;
    }
  }

  lemma NumberFalls(s: Placed, b: Block, c: Block)
    requires s.Valid() && b in s.f.lists && c in s.f.lists && s.f.g.ImmediateDominator(b, c)
    ensures NumberOf(s.po, c) < NumberOf(s.po, b)
  {
    hide StrictSsa, Placed.PhisFirst;
    InTree(s.f.g, s.po, s.t, c);
    StrictRises(s.f.g, s.po, s.t, b, c);
  }

  // Nothing below the child c has been entered yet.
  lemma {:induction false} ChildFresh(s: Placed, ch: map<Block, set<Block>>, b: Block, c: Block, rest: set<Block>,
      full: set<Block>, finished: set<Block>)
    requires s.Valid() && b in s.f.lists && IsTreeSucc(s.f.g, ch) && b in ch && c in rest && rest <= ch[b]
    requires full !! Subtree(s.f.g, b) && finished !! Subtree(s.f.g, b)
    ensures var under := UnderAny(s.f.g, ch[b] - rest);
            full + {b} + under !! Subtree(s.f.g, c) && finished + under !! Subtree(s.f.g, c)
  {
    hide StrictSsa, IsDomTree, Placed.PhisFirst, IsTreeSucc;
    ChildFacts(s, ch, b, c);
    ChildApart(s.f.g, s.po, s.t, ch, b, c, rest);
  }

  lemma LiveCode(s: Placed, b: Block)
    requires s.Valid() && b in s.f.lists
    ensures forall i :: 0 <= i < |Live(s, s.f.lists[b])| ==> Live(s, s.f.lists[b])[i] in s.f.code
  {
    hide StrictSsa, IsDomTree, Placed.PhisFirst, Gone;
    forall i | 0 <= i < |Live(s, s.f.lists[b])| ensures Live(s, s.f.lists[b])[i] in s.f.code {
      var x := Live(s, s.f.lists[b])[i];
      LiveHas(s, s.f.lists[b], x);
      assert s.f.lists[b][IndexOf(s.f.lists[b], x)] in s.f.code;
    }
  }

  lemma CellsFound(s: Placed, b: Block, l: seq<Id>, wait: seq<Id>)
    requires s.Valid() && b in s.f.lists && l == Live(s, s.f.lists[b])
    requires forall x :: x in wait <==> InPrefix(l, |l|, x) && x in s.f.code && s.f.code[x].op == Alloca(Number)
    ensures CellsWait(s, b, wait)
  {
    hide Placed.Valid, Gone;
    forall x | x in s.f.lists[b] && !Gone(s, x) ensures InPrefix(l, |l|, x) {
      LiveHas(s, s.f.lists[b], x);
      var i :| 0 <= i < |l| && l[i] == x;
    }
  }

  lemma CellsAre(s: Placed, b: Block, wait: seq<Id>)
    requires s.Valid() && b in s.f.lists && CellsWait(s, b, wait)
    ensures forall k :: 0 <= k < |wait| ==> wait[k] in s.f.code && s.f.code[wait[k]].op == Alloca(Number)
  {
    hide Placed.Valid, Gone;
  }

  lemma DeadCell(s: Placed, dead: set<Id>, x: Id)
    requires s.Valid() && StripDead(s, dead) && x in s.f.code && s.f.code[x].op == Alloca(Number)
    ensures StripDead(s, dead + {x})
  {
    hide Placed.Valid, Replaced;
  }

  lemma {:induction false} CodeOps(s: Placed, code: Code, dead: set<Id>, done: set<Id>, filled: set<Block>, b: Block,
      some: set<Id>)
    requires s.Valid() && CodeAt(s, code, dead, done, filled, b, some)
    ensures code.Keys == s.f.code.Keys && forall x :: x in s.f.code ==> code[x].op == s.f.code[x].op
  {
    hide Placed.Valid, InstrAt;
  }

  lemma OnlyLoadsHere(s: Placed, x: Id)
    requires x in s.f.code && s.f.code[x].op.Load?
    ensures PhiCell(s.f.code, x).None?
  {
  }

  lemma OnlyStoresHere(s: Placed, x: Id)
    requires x in s.f.code && s.f.code[x].op.Store?
    ensures PhiCell(s.f.code, x).None?
  {
  }

  lemma LastIs(l: seq<Operand>)
    requires l != []
    ensures Last(l) == Some(l[|l| - 1])
  {
  }

  lemma RetiredNot(retired: set<Operand>, done: set<Id>, x: Id)
    requires RetiredAre(retired, done) && x !in done
    ensures Res(x) !in retired
  {
  }

  lemma RetiredMore(retired: set<Operand>, done: set<Id>, x: Id)
    requires RetiredAre(retired, done)
    ensures RetiredAre(retired + {Res(x)}, done + {x})
  {
  }

  lemma StackStart(s: Placed, stack: Stacks, b: Block)
    requires s.Valid()
    ensures StackAt(s, stack, stack, b, 0)
  {
  }

  lemma PhiFirst(s: Placed, b: Block, i: nat)
    requires s.Valid() && b in s.f.lists && b in s.nphi && i < |s.List(b)|
    ensures PhiCell(s.f.code, s.List(b)[i]).Some? <==> i < s.nphi[b]
    ensures s.List(b)[i] in s.f.code && (PhiCell(s.f.code, s.List(b)[i]).Some? <==> s.f.code[s.List(b)[i]].op.Phi?)
    ensures i < s.nphi[b] ==> PhiCell(s.f.code, s.List(b)[i]).value == s.f.code[s.List(b)[i]].op.cell
  {
    hide IsDomTree, StrictSsa;
    assert s.PhisFirst(b);
  }

  lemma PhiPushes(s: Placed, b: Block, i: nat)
    requires s.Valid() && b in s.f.lists && i < |s.List(b)| && PhiCell(s.f.code, s.List(b)[i]).Some?
    ensures Pushes(s, b, i, PhiCell(s.f.code, s.List(b)[i]).value, Res(s.List(b)[i]))
  {
    hide Placed.Valid;
  }

  // The (block, cell) pairs that have a phi.
  ghost predicate PhisAre(phis: set<(Block, Operand)>, cells: Cells) {
    forall b, a {:trigger (b, a) in phis} :: (b, a) in phis <==> a.Res? && b in cells && a.id in cells[b]
  }

  lemma {:induction false} PhiAddedIs(f1: Func, f2: Func, b: Block, v: Id, x: Id)
    requires b in f1.lists && x !in f1.code
    requires f2 == Func(f1.g, f1.code[x := Instr(Phi(v), [])], f1.lists[b := [x] + f1.lists[b]], f1.home[x := b])
    ensures PhiAdded(f1, f2, b, v, x)
  {
  }

  lemma FrontierBlocks(g: Graph, frontier: map<Block, set<Block>>)
    requires IsFrontier(g, frontier)
    ensures frontier.Keys == Elements(g.blocks)
  {
  }

  lemma ElementIs(s: seq<Block>, i: nat)
    requires i < |s|
    ensures s[i] in Elements(s)
  {
  }

  lemma EmptyCells(f: Func, cells: Cells, live: map<Operand, set<Block>>)
    requires LiveCells(f, live) && cells == map b | b in f.lists :: []
    ensures CellsDone(f, cells, live.Keys) && PhisAre({}, cells)
  {
    CellsDoneStart(f, cells, live);
  }

  lemma {:induction false} LiveCell(f: Func, live: map<Operand, set<Block>>, cells: Cells, rest: set<Operand>,
      a: Operand)
    requires LiveCells(f, live) && CellsDone(f, cells, rest) && a in rest && rest <= live.Keys
    ensures a in live && a.Res? && live[a] == StoreBlocks(f, a.id) && live[a] <= f.lists.Keys
    ensures forall b :: b in cells ==> a.id !in cells[b]
  {
  }

  lemma InputKeys(f: Func)
    requires Input(f)
    ensures f.lists.Keys == Elements(f.g.blocks) && f.g.Valid()
  {
  }

  lemma NothingScanned(f: Func, b: Block)
    ensures Scanned(f, map[], [], b, 0)
  {
  }

  lemma {:induction false} ScanTurn(f: Func, live: map<Operand, set<Block>>, done: seq<Block>, b: Block, c: Block)
    requires Scanned(f, live, done, b, 0)
    ensures Scanned(f, live, done, c, 0)
  {
    forall a, d ensures InLive(live, a, d) <==>
      (d in done && d in f.lists && StoresTo(f, d, |f.lists[d]|, a)) || (d == c && StoresTo(f, c, 0, a))
    {
      assert InLive(live, a, d) <==>
        (d in done && d in f.lists && StoresTo(f, d, |f.lists[d]|, a)) || (d == b && StoresTo(f, b, 0, a));
    }
  }

  lemma InputStore(f: Func, b: Block, n: nat)
    requires Input(f) && b in f.lists && n < |f.lists[b]|
    ensures var x := f.lists[b][n]; x in f.code && (f.code[x].op.Store? ==> |f.code[x].args| == 2)
    ensures var x := f.lists[b][n];
      StoreCell(f.code, x).Some? <==> f.code[x].op.Store? && Promotable(f.code, f.code[x].args[1])
    ensures var x := f.lists[b][n]; StoreCell(f.code, x).Some? ==> f.code[x].args[1] == Res(StoreCell(f.code, x).value)
  {
    hide StrictSsa;
    assert AddressKind(f.code, f.lists[b][n]);
  }

  lemma OnlyCellRefl(cells: Cells, v: Id)
    ensures OnlyCell(cells, cells, v)
  {
  }

  lemma OnlyCellAdd(cells: Cells, cells1: Cells, v: Id, d: Block)
    requires OnlyCell(cells, cells1, v) && d in cells1
    ensures OnlyCell(cells, cells1[d := [v] + cells1[d]], v)
  {
  }

  lemma {:induction false} HandlingStart(g: Graph, frontier: map<Block, set<Block>>, stores: set<Block>, cells: Cells,
      v: Id, work: seq<Block>, i: nat, cells0: Cells)
    requires g.Valid() && IsFrontier(g, frontier) && frontier.Keys == cells0.Keys && OnlyCell(cells0, cells, v)
    requires i < |work| && Working(g, stores, cells, v, work, i)
    ensures work[i] in frontier && Handling(g, cells, v, work[i], frontier[work[i]])
  {
    hide InFrontier, InIdf;
    assert work[i] in cells;
    forall y | InFrontier(g, work[i], y) ensures y in frontier[work[i]] { FrontierInside(g, work[i], y); }
  }

  lemma FrontierInside(g: Graph, x: Block, y: Block)
    requires InFrontier(g, x, y)
    ensures y in g.pred
  {
  }

  lemma {:induction false} HandlingMember(g: Graph, cells: Cells, v: Id, bb: Block, rest: set<Block>, d: Block)
    requires Handling(g, cells, v, bb, rest) && d in rest
    ensures d in cells && InFrontier(g, bb, d)
  {
  }

  lemma NotYet(phis: set<(Block, Operand)>, cells: Cells, d: Block, a: Operand)
    requires PhisAre(phis, cells) && (d, a) !in phis && a.Res? && d in cells
    ensures a.id !in cells[d]
  {
  }

  lemma Already(phis: set<(Block, Operand)>, cells: Cells, d: Block, a: Operand)
    requires PhisAre(phis, cells) && (d, a) in phis && d in cells
    ensures a.Res? && a.id in cells[d]
  {
  }

  lemma PhisAdd(phis: set<(Block, Operand)>, cells: Cells, d: Block, a: Operand)
    requires PhisAre(phis, cells) && a.Res? && d in cells
    ensures PhisAre(phis + {(d, a)}, cells[d := [a.id] + cells[d]])
  {
  }

  lemma MissingFalls(cells: Cells, v: Id, d: Block)
    requires d in cells && v !in cells[d]
    ensures Lacking(cells[d := [v] + cells[d]], v) < Lacking(cells, v)
  {
    assert d in Lacking(cells, v) && d !in Lacking(cells[d := [v] + cells[d]], v);
  }

  lemma FrontedIds(f: Func, f1: Func, cells: Cells)
    requires Fronted(f, f1, cells)
    ensures f1.lists.Keys == f.lists.Keys == cells.Keys && f1.g == f.g
    ensures f1.home.Keys <= f1.code.Keys
  {
  }
}
