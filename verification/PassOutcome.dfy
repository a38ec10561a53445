/** What the pass leaves behind: when it runs to its end, what the promoted function looks
    like, and that the order in which it walks the dominator tree makes no difference. */
module PassOutcome {
  import opened Wrappers
  import opened Cfg
  import opened DomTree
  import opened Frontier
  import opened Ir
  import opened Ssa
  import opened Simulation
  import opened PhiPlacement
  import opened TreeWalk
  import opened Renaming
  import opened Askers

  // ---- When the walk gets through ----

  // Whoever asks for a cell without a value stands above every block that defines the cell.
  ghost predicate OrderSafe(s: Placed)
    requires s.Valid()
  {
    forall b, c, v {:trigger Missing(s, b, v), Defines(s, c, v)} ::
      b in s.f.lists && Missing(s, b, v) && Defines(s, c, v) ==> c == b || s.f.g.StrictlyDominates(b, c)
  }

  lemma OrderSafeSuffices(s: Placed, order: seq<Block>)
    requires s.Valid() && OrderSafe(s) && TopDown(s.f.g, order)
    ensures NoClash(s, order, 0)
  {
    hide Placed.Valid, Missing, Defines;
    forall k, c, v | 0 <= k < |order| && order[k] in s.f.lists && Missing(s, order[k], v) && c in Elements(order[..k])
      ensures !Defines(s, c, v)
    {
      var j :| 0 <= j < k && order[j] == c;
      EarlierNotBelow(s.f.g, order, j, k);
    }
  }

  // Every block once, depth first.
  ghost predicate WholeWalk(g: Graph, order: seq<Block>) {
    Walk(g, order) && Elements(order) == Elements(g.blocks)
  }

  lemma WalkDown(g: Graph, order: seq<Block>)
    requires Walk(g, order)
    ensures TopDown(g, order)
  {
  }

  lemma EarlierNotBelow(g: Graph, order: seq<Block>, j: nat, k: nat)
    requires TopDown(g, order) && j < k < |order|
    ensures order[j] != order[k] && !g.StrictlyDominates(order[k], order[j])
  {
    assert order[..k][j] == order[j] && order[j] !in order[..j];
    assert order[k] !in order[..k] && order[..j] <= order[..k];
  }

  // And if not, some order of the children leads to a clash.
  lemma OrderUnsafeClashes(s: Placed) returns (order: seq<Block>)
    requires s.Valid() && !OrderSafe(s)
    ensures WholeWalk(s.f.g, order) && SomeClash(s, order, 0)
  {
    hide *;
    var b, c, v := Unsafe(s);
    ListedBlocks(s, b, c, v);
    order := DirectWalk(s.f.g, s.po, s.t, c);
    assert WholeWalk(s.f.g, order) by { WalkWhole(s.f.g, order); }
    var i := Entered(s.f.g, order, b);
    var j := Entered(s.f.g, order, c);
    NotDirect(s.f.g, order, b, c, i, j);
    ClashAt(s, order, j, i, v);
  }

  lemma Unsafe(s: Placed) returns (b: Block, c: Block, v: Id)
    requires s.Valid() && !OrderSafe(s)
    ensures b in s.f.lists && Missing(s, b, v) && Defines(s, c, v) && c != b && !s.f.g.StrictlyDominates(b, c)
  {
    hide Placed.Valid, Missing, Defines;
    b, c, v :| b in s.f.lists && Missing(s, b, v) && Defines(s, c, v) && c != b && !s.f.g.StrictlyDominates(b, c);
  }

  lemma WalkWhole(g: Graph, order: seq<Block>)
    requires Walk(g, order) && Elements(order) == Elements(g.blocks)
    ensures WholeWalk(g, order)
  {
  }

  lemma Entered(g: Graph, order: seq<Block>, b: Block) returns (i: nat)
    requires WholeWalk(g, order) && b in g.blocks
    ensures i < |order| && order[i] == b
  {
    hide Walk;
    assert b in Elements(order);
    i :| 0 <= i < |order| && order[i] == b;
  }

  lemma NotDirect(g: Graph, order: seq<Block>, b: Block, c: Block, i: nat, j: nat)
    requires Direct(g, order, c) && i < |order| && j < |order| && order[i] == b && order[j] == c && b != c &&
      !g.StrictlyDominates(b, c)
    ensures j < i
  {
  }

  // What is asked for at entry i has been defined at entry j.
  lemma ClashAt(s: Placed, order: seq<Block>, j: nat, i: nat, v: Id)
    requires s.Valid() && j < i < |order| && order[i] in s.f.lists && Missing(s, order[i], v) && Defines(s, order[j], v)
    ensures SomeClash(s, order, 0)
  {
    hide Placed.Valid, Missing, Defines;
    assert order[..i][j] == order[j];
    assert order[j] in Elements(order[..i]);
    assert Clash(s, order, i);
  }

  lemma ListedBlocks(s: Placed, b: Block, c: Block, v: Id)
    requires s.Valid() && b in s.f.lists && Defines(s, c, v)
    ensures b in s.f.g.blocks && c in s.f.g.blocks && IsDomTree(s.f.g, s.po, s.t)
  {
    hide StrictSsa, IsDomTree, Placed.PhisFirst;
  }

  // The pass gets through in every order of the children exactly if whoever asks for a cell
  // without a value stands above every other block that defines the cell.
  lemma OrderSafeExactly(s: Placed)
    requires s.Valid()
    ensures OrderSafe(s) <==> forall order :: WholeWalk(s.f.g, order) ==> NoClash(s, order, 0)
  {
    hide Placed.Valid, OrderSafe, Clash, Walk;
    if OrderSafe(s) {
      forall order | WholeWalk(s.f.g, order) ensures NoClash(s, order, 0) {
        WalkDown(s.f.g, order);
        OrderSafeSuffices(s, order);
      }
    } else {
      var order := OrderUnsafeClashes(s);
    }
  }

  // ---- The same, said about the function before the pass ----

  lemma OrderlySafe(s: Placed, f: Func)
    requires IdfPlaced(s, f) && s.Valid()
    ensures OrderSafe(s) <==> Orderly(f)
  {
    hide IdfPlaced, Placed.Valid, Missing, Asks, Defines, Sets;
    IdfParts(s, f);
    forall b, v | b in s.f.lists ensures Missing(s, b, v) <==> Asks(f, b, v) { MissingIsAsks(s, f, b, v); }
    forall b, v ensures Defines(s, b, v) <==> Sets(f, b, v) { DefinesSets(s, f, b, v); }
    forall b, v ensures Asks(f, b, v) ==> b in f.lists { AskersListed(f, b, v); }
  }

  lemma AskersListed(f: Func, b: Block, v: Id)
    ensures Asks(f, b, v) ==> b in f.lists
  {
    hide InIdf, StoreBlocks, SetAbove;
  }

  // The pass gets through f in every order of the children exactly if f is orderly.
  lemma OrderlyExactly(s: Placed, f: Func)
    requires IdfPlaced(s, f) && s.Valid()
    ensures Orderly(f) <==> forall order :: WholeWalk(f.g, order) ==> NoClash(s, order, 0)
  {
    hide Placed.Valid, OrderSafe, Orderly, Clash, IdfPlaced, WholeWalk;
    IdfParts(s, f);
    OrderlySafe(s, f);
    OrderSafeExactly(s);
  }

  // Two blocks that both ask for a variable and set it, such as two branches that assign a
  // variable nothing has set before: no order gets through.
  lemma TwoAskersClash(s: Placed, f: Func, order: seq<Block>, b: Block, c: Block, v: Id)
    requires IdfPlaced(s, f) && s.Valid() && WholeWalk(f.g, order) && b != c
    requires Asks(f, b, v) && Sets(f, b, v) && Asks(f, c, v) && Sets(f, c, v)
    ensures SomeClash(s, order, 0)
  {
    hide *;
    IdfParts(s, f);
    AskersListed(f, b, v); MissingIsAsks(s, f, b, v); DefinesSets(s, f, b, v);
    AskersListed(f, c, v); MissingIsAsks(s, f, c, v); DefinesSets(s, f, c, v);
    ListedBlocks(s, b, c, v);
    ListedBlocks(s, c, b, v);
    var i := Entered(s.f.g, order, b);
    var j := Entered(s.f.g, order, c);
    if i < j { ClashAt(s, order, i, j, v); } else { ClashAt(s, order, j, i, v); }
  }

  // The precondition under which the pass is meant to run: a cell that is used at all is
  // stored to in the entry block, before any load of it there.
  ghost predicate StoredFirst(f: Func, v: Id) {
    && f.g.entry in f.lists
    && exists j :: 0 <= j < |f.lists[f.g.entry]| && StoreCell(f.code, f.lists[f.g.entry][j]) == Some(v)
                   && forall i :: 0 <= i < j ==> LoadCell(f.code, f.lists[f.g.entry][i]) != Some(v)
  }

  ghost predicate EntryStored(f: Func) {
    forall b, i {:trigger f.lists[b][i]} :: b in f.lists && 0 <= i < |f.lists[b]| ==>
      (LoadCell(f.code, f.lists[b][i]).Some? ==> StoredFirst(f, LoadCell(f.code, f.lists[b][i]).value))
      && (StoreCell(f.code, f.lists[b][i]).Some? ==> StoredFirst(f, StoreCell(f.code, f.lists[b][i]).value))
  }

  lemma SetInEntry(f: Func, b: Block, v: Id)
    requires f.g.entry in StoreBlocks(f, v)
    ensures Sets(f, f.g.entry, v) && (b != f.g.entry ==> SetAbove(f, b, v))
  {
    hide StoreBlocks, InIdf, Graph.Dominates;
    EntryAbove(f.g, b);
  }

  lemma EntryAbove(g: Graph, c: Block)
    ensures c == g.entry || g.StrictlyDominates(g.entry, c)
  {
    forall p | g.PathTo(p, c) ensures g.entry in p { assert p[0] == g.entry; }
  }

  lemma StoredFirstEntry(f: Func, v: Id)
    requires StoredFirst(f, v)
    ensures f.g.entry in StoreBlocks(f, v) && forall i :: !LoadsFirst(f, f.g.entry, i, v)
  {
    hide CellOf;
    var e := f.lists[f.g.entry];
    var j :| 0 <= j < |e| && StoreCell(f.code, e[j]) == Some(v) &&
      forall i :: 0 <= i < j ==> LoadCell(f.code, e[i]) != Some(v);
  }

  // Under that precondition no block asks for anything.
  lemma EntryStoredAsks(f: Func, b: Block, v: Id)
    requires EntryStored(f)
    ensures !Asks(f, b, v)
  {
    hide InIdf, StoreBlocks, SetAbove, StoredFirst, LoadCell, StoreCell;
    if i :| LoadsUnset(f, b, i, v) {
      assert f.lists[b][i] == f.lists[b][i];
      StoredFirstEntry(f, v);
      SetInEntry(f, b, v);
    }
    if LeavesUnset(f, b, v) {
      var d :| d in f.lists && InIdf(f.g, StoreBlocks(f, v), d);
      EntryStoredPhi(f, d, v);
      StoredFirstEntry(f, v);
      SetInEntry(f, b, v);
    }
  }

  lemma IdfStored(f: Func, d: Block, v: Id)
    requires InIdf(f.g, StoreBlocks(f, v), d)
    ensures exists b, i {:trigger f.lists[b][i]} ::
      b in f.lists && 0 <= i < |f.lists[b]| && StoreCell(f.code, f.lists[b][i]) == Some(v)
  {
    hide InFrontier;
    var c :| |c| > 1 && FrontierChain(f.g, StoreBlocks(f, v), c) && c[|c| - 1] == d;
    var i :| 0 <= i < |f.lists[c[0]]| && StoreCell(f.code, f.lists[c[0]][i]) == Some(v);
    assert f.lists[c[0]][i] == f.lists[c[0]][i];
  }

  lemma EntryStoredPhi(f: Func, d: Block, v: Id)
    requires EntryStored(f) && InIdf(f.g, StoreBlocks(f, v), d)
    ensures StoredFirst(f, v)
  {
    hide StoredFirst, InIdf, StoreBlocks, StoreCell, LoadCell;
    IdfStored(f, d, v);
  }

  lemma EntryStoredMissing(s: Placed, f: Func, b: Block, v: Id)
    requires IdfPlaced(s, f) && s.Valid() && EntryStored(f) && b in s.f.lists
    ensures !Missing(s, b, v)
  {
    hide *;
    EntryStoredAsks(f, b, v);
    MissingIsAsks(s, f, b, v);
  }

  // Less is enough for every order: a cell that is stored to anywhere is stored to in the entry
  // block, be it after a load.
  ghost predicate EntrySet(f: Func) {
    forall b, i {:trigger f.lists[b][i]} ::
      b in f.lists && 0 <= i < |f.lists[b]| && StoreCell(f.code, f.lists[b][i]).Some? ==>
      f.g.entry in StoreBlocks(f, StoreCell(f.code, f.lists[b][i]).value)
  }

  lemma EntrySetSets(f: Func, c: Block, v: Id)
    requires EntrySet(f) && Sets(f, c, v)
    ensures f.g.entry in StoreBlocks(f, v)
  {
    hide InIdf, StoreBlocks, StoreCell;
    StoreBlocksHas(f, c, v);
    if c !in StoreBlocks(f, v) { IdfStored(f, c, v); }
  }

  lemma EntrySetOrderly(f: Func)
    requires EntrySet(f)
    ensures Orderly(f)
  {
    hide InIdf, StoreBlocks, EntrySet, Sets, SetAbove, LoadsFirst;
    forall b, c, v | Asks(f, b, v) && Sets(f, c, v) ensures c == b || f.g.StrictlyDominates(b, c) {
      EntrySetSets(f, c, v);
      SetInEntry(f, b, v);
      EntryAbove(f.g, c);
    }
  }

  // ---- What remains ----

  lemma {:induction false} KeepDistinct(s: Placed, xs: seq<Id>)
    requires s.Valid() && Distinct(xs)
    ensures Distinct(Keep(s, xs))
  {
    hide Placed.Valid, Deleted;
    if xs != [] {
      DistinctRest(xs);
      KeepDistinct(s, xs[1..]);
      KeepHas(s, xs[1..], xs[0]);
      if Deleted(s, xs[0]) { assert Keep(s, xs) == Keep(s, xs[1..]); } else { DistinctTail(xs[0], Keep(s, xs[1..])); }
    }
  }

  lemma {:induction false} KeepOrder(s: Placed, xs: seq<Id>, x: Id, y: Id)
    requires s.Valid() && x in xs && y in xs && IndexOf(xs, x) < IndexOf(xs, y) && !Deleted(s, x) && !Deleted(s, y)
    ensures x in Keep(s, xs) && y in Keep(s, xs) && IndexOf(Keep(s, xs), x) < IndexOf(Keep(s, xs), y)
  {
    hide Placed.Valid, Deleted;
    KeepHas(s, xs, x);
    KeepHas(s, xs, y);
    var rest := Keep(s, xs[1..]);
    assert Keep(s, xs) == if Deleted(s, xs[0]) then rest else [xs[0]] + rest;
    assert ([xs[0]] + rest)[1..] == rest;
    if xs[0] != x { KeepOrder(s, xs[1..], x, y); }
  }

  // ---- Stack tops are no stores ----

  ghost predicate NoStore(s: Placed, a: Operand) {
    a.Res? ==> StoreCell(s.f.code, a.id).None?
  }

  lemma {:induction false} TopNoStore(s: Placed, b: Block, i: nat, v: Id)
    requires s.Valid() && b in s.f.lists && i <= |s.List(b)| && s.Top(b, i, v).Some?
    ensures NoStore(s, s.Top(b, i, v).value)
    decreases s.Height(b), i, 0
  {
    hide Placed.Valid, CellOf;
    if i == 0 {
      IdomHigher(s, b);
      TopNoStore(s, s.Idom(b), |s.List(s.Idom(b))|, v);
    } else {
      var x := s.List(b)[i - 1];
      if PhiCell(s.f.code, x) != Some(v) && StoreCell(s.f.code, x) == Some(v) {
        StoredAvailable(s, b, i - 1);
        StoredNoStore(s, b, i - 1);
        ValueNoStore(s, s.StoredOperand(x), b, i - 1);
      } else if PhiCell(s.f.code, x) != Some(v) {
        TopNoStore(s, b, i - 1, v);
      }
    }
  }

  lemma OperandNoStore(s: Placed, b: Block, i: nat, k: nat)
    requires s.Valid() && b in s.f.lists && i < |s.List(b)| && s.List(b)[i] in s.f.code &&
      k < |s.f.code[s.List(b)[i]].args|
    ensures NoStore(s, s.f.code[s.List(b)[i]].args[k]) && Available(s.f, s.f.code[s.List(b)[i]].args[k], b, i)
    ensures CellOf(s.f.code, s.f.code[s.List(b)[i]].args[k]).Some? ==> IsAddress(s.f.code[s.List(b)[i]], k)
  {
    hide IsDomTree;
    assert OperandsAvailable(s.f, b, i);
    assert Plain(s.f, s.List(b)[i], k);
  }

  lemma StoredNoStore(s: Placed, b: Block, i: nat)
    requires s.Valid() && b in s.f.lists && i < |s.List(b)| && StoreCell(s.f.code, s.List(b)[i]).Some?
    ensures NoStore(s, s.StoredOperand(s.List(b)[i]))
  {
    hide Placed.Valid, CellOf;
    OperandNoStore(s, b, i, 0);
  }

  lemma {:induction false} ValueNoStore(s: Placed, a: Operand, b: Block, i: nat)
    requires s.Valid() && b in s.f.lists && i <= |s.List(b)| && Available(s.f, a, b, i) && NoStore(s, a)
    ensures NoStore(s, s.Value(a, b, i))
    decreases s.Height(b), i, 1
  {
    hide Placed.Valid, NoStore;
    if a.Res? && LoadCell(s.f.code, a.id).Some? {
      BeforeHigher(s, a, b, i);
      if s.Top(s.Home(a.id), s.Place(a.id), LoadCell(s.f.code, a.id).value).Some? {
        TopNoStore(s, s.Home(a.id), s.Place(a.id), LoadCell(s.f.code, a.id).value);
      }
    }
  }

  // ---- The promoted function is in strict SSA form ----

  // A settled operand that is no store survives, and stands before what it stood before.
  lemma SettledRemains(s: Placed, f3: Func, a: Operand, b: Block, i: nat)
    requires s.Valid() && IsPromotion(s, f3) && b in s.f.lists && i <= |s.List(b)|
    requires Settled(s, a, b, i) && NoStore(s, a) && a.Res?
    ensures Before(s.f, a.id, b, i) && !Deleted(s, a.id)
  {
    hide Placed.Valid, Placed.Top, IsPromotion, Placed.Resolve, Replaced;
    SettledNotReplaced(s, a, b, i);
  }

  lemma {:induction false} BeforeRemains(s: Placed, f3: Func, y: Id, b: Block, x: Id)
    requires s.Valid() && IsPromotion(s, f3) && b in s.f.lists && x in s.f.lists[b] && !Deleted(s, x) && !Deleted(s, y)
    requires Before(s.f, y, b, IndexOf(s.f.lists[b], x))
    ensures b in f3.lists && x in f3.lists[b] && Before(f3, y, b, IndexOf(f3.lists[b], x))
  {
    hide Placed.Valid, Deleted, Renamed;
    KeepHas(s, s.f.lists[b], x);
    KeepHas(s, s.f.lists[s.f.home[y]], y);
    if !s.f.g.StrictlyDominates(s.f.home[y], b) { KeepOrder(s, s.f.lists[b], y, x); }
  }

  lemma BeforeEndRemains(s: Placed, f3: Func, y: Id, b: Block)
    requires s.Valid() && IsPromotion(s, f3) && b in s.f.lists && !Deleted(s, y) && Before(s.f, y, b, |s.f.lists[b]|)
    ensures b in f3.lists && Before(f3, y, b, |f3.lists[b]|)
  {
    hide Placed.Valid, Deleted, Renamed;
    KeepHas(s, s.f.lists[s.f.home[y]], y);
  }

  // The address of a load that found no value for its cell: the one kind of operand that may
  // name something deleted.
  ghost predicate Stranded(s: Placed, x: Id, a: Operand)
    requires s.Valid()
  {
    && a.Res? && LoadCell(s.f.code, x) == Some(a.id) && !Replaced(s, x)
    && a.id in s.f.code && s.f.code[a.id].op == Alloca(Number)
  }

  // Operand k of a remaining instruction that is no phi.
  lemma OperandRemains(s: Placed, f3: Func, b: Block, j: nat, k: nat)
    requires s.Valid() && IsPromotion(s, f3) && b in s.f.lists && j < |s.List(b)|
    requires var x := s.List(b)[j];
             x in s.f.code && !Deleted(s, x) && PhiCell(s.f.code, x).None? && k < |s.f.code[x].args|
    ensures var a := s.Resolve(s.f.code[s.List(b)[j]].args[k]);
            !Stranded(s, s.List(b)[j], a) && a.Res? ==> Before(s.f, a.id, b, j) && !Deleted(s, a.id)
  {
    hide Placed.Valid, Placed.Top, IsPromotion, Available, Before, Replaced, Settled;
    var x := s.List(b)[j];
    var a := s.f.code[x].args[k];
    OperandNoStore(s, b, j, k);
    if CellOf(s.f.code, a).None? {
      ValueIsResolve(s, a, b, j);
      ValueSettled(s, a, b, j);
      ValueNoStore(s, a, b, j);
      if s.Resolve(a).Res? { SettledRemains(s, f3, s.Resolve(a), b, j); }
    } else {
      AddressRemains(s, b, j, k);
    }
  }

  lemma AddressRemains(s: Placed, b: Block, j: nat, k: nat)
    requires s.Valid() && b in s.f.lists && j < |s.List(b)|
    requires var x := s.List(b)[j];
             x in s.f.code && !Deleted(s, x) && k < |s.f.code[x].args| && CellOf(s.f.code, s.f.code[x].args[k]).Some?
    requires IsAddress(s.f.code[s.List(b)[j]], k) && Available(s.f, s.f.code[s.List(b)[j]].args[k], b, j)
    ensures var a := s.f.code[s.List(b)[j]].args[k];
            s.Resolve(a) == a && a.Res? && Before(s.f, a.id, b, j) &&
              (!Stranded(s, s.List(b)[j], a) ==> !Deleted(s, a.id))
  {
    hide Placed.Valid, Placed.Top, Before;
  }

  // Every operand of a remaining instruction is defined by a remaining instruction at a point
  // that dominates the use, unless it is the address of a stranded load; that one is gone.
  lemma StrictAfter(s: Placed, f3: Func, b: Block, i: nat, k: nat)
    requires s.Valid() && IsPromotion(s, f3) && b in f3.lists && i < |f3.lists[b]|
    requires var x := f3.lists[b][i]; x in f3.code && !f3.code[x].op.Phi? && k < |f3.code[x].args|
    ensures var x := f3.lists[b][i]; var a := f3.code[x].args[k];
            a.Res? ==> (Before(f3, a.id, b, i) <==> !Stranded(s, x, a))
  {
    hide Placed.Valid, Placed.Top, Placed.Resolve, Before, Replaced, Stranded, Deleted;
    var x := f3.lists[b][i];
    var j := RemainsAt(s, f3, b, i);
    assert Renamed(s, x, f3.code[x]);
    var a := f3.code[x].args[k];
    OperandRemains(s, f3, b, j, k);
    if a.Res? && !Stranded(s, x, a) {
      BeforeRemains(s, f3, a.id, b, x);
    } else if a.Res? {
      StrandedGone(s, f3, x, a, b, i);
    }
  }

  lemma StrandedGone(s: Placed, f3: Func, x: Id, a: Operand, b: Block, i: nat)
    requires s.Valid() && IsPromotion(s, f3) && Stranded(s, x, a)
    ensures !Before(f3, a.id, b, i)
  {
    hide Placed.Valid, Placed.Top, Replaced, Renamed;
    if Listed(f3, a.id) { KeepHas(s, s.f.lists[s.f.home[a.id]], a.id); }
  }

  // The place of a remaining instruction before the pass.
  lemma RemainsAt(s: Placed, f3: Func, b: Block, i: nat) returns (j: nat)
    requires s.Valid() && IsPromotion(s, f3) && b in f3.lists && i < |f3.lists[b]|
    ensures b in s.f.lists && j < |s.List(b)| && s.List(b)[j] == f3.lists[b][i]
    ensures var x := s.List(b)[j];
      x in s.f.code && x in f3.code && Listed(s.f, x) && !Deleted(s, x) && Renamed(s, x, f3.code[x])
    ensures s.List(b)[j] in s.f.lists[b] && IndexOf(s.f.lists[b], s.List(b)[j]) == j
    ensures f3.lists[b][i] in f3.lists[b] && IndexOf(f3.lists[b], f3.lists[b][i]) == i
  {
    hide IsDomTree, StrictSsa, Placed.PhisFirst, Deleted, Renamed;
    var x := f3.lists[b][i];
    KeepHas(s, s.f.lists[b], x);
    j := IndexOf(s.f.lists[b], x);
    KeepDistinct(s, s.f.lists[b]);
    IndexOfAt(f3.lists[b], i);
    assert s.f.lists[b][j] == x;
  }

  // Pair k of a phi: its value is defined at a point that dominates the end of the predecessor.
  ghost predicate PairStands(f3: Func, args: seq<Operand>, k: nat) {
    && 0 < k < |args| && args[k].Label? && args[k].b in f3.lists
    && (args[k - 1].Res? ==> Before(f3, args[k - 1].id, args[k].b, |f3.lists[args[k].b]|))
  }

  lemma StrictPhiAfter(s: Placed, f3: Func, x: Id, k: nat)
    requires s.Valid() && IsPromotion(s, f3) && PhisComplete(s, f3) && Listed(s.f, x) && PhiCell(s.f.code, x).Some?
    requires x in f3.code && k < |f3.code[x].args| && k % 2 == 1
    ensures PairStands(f3, f3.code[x].args, k)
  {
    hide Placed.Valid, Placed.Top, Before, Replaced, Listed, Deleted;
    var args := f3.code[x].args;
    assert PhiComplete(s, x, args);
    var p := args[k].b;
    var v := PhiCell(s.f.code, x).value;
    assert s.Top(p, |s.List(p)|, v) == Some(args[k - 1]);
    TopSettled(s, p, |s.List(p)|, v);
    TopNoStore(s, p, |s.List(p)|, v);
    if args[k - 1].Res? {
      SettledRemains(s, f3, args[k - 1], p, |s.List(p)|);
      BeforeEndRemains(s, f3, args[k - 1].id, p);
    }
  }

  // ---- When the result is in strict form ----

  // Instruction i of block b uses only what is defined at points that dominate the use.
  ghost predicate StrictAt(f3: Func, b: Block, i: int) {
    b in f3.lists && 0 <= i < |f3.lists[b]| ==>
      var x := f3.lists[b][i];
      x in f3.code && forall k {:trigger f3.code[x].args[k]} :: 0 <= k < |f3.code[x].args| ==>
        if f3.code[x].op.Phi? then k % 2 == 1 ==> PairStands(f3, f3.code[x].args, k)
        else f3.code[x].args[k].Res? ==> Before(f3, f3.code[x].args[k].id, b, i)
  }

  ghost predicate StrictResult(f3: Func) {
    forall b, i {:trigger StrictAt(f3, b, i)} :: StrictAt(f3, b, i)
  }

  predicate IsNumberCell(code: map<Id, Instr>, v: Id) {
    v in code && code[v].op == Alloca(Number)
  }

  // A value comes to every load of a number cell.
  ghost predicate LoadsAllSet(f: Func) {
    forall b, i, v {:trigger LoadsUnset(f, b, i, v)} :: IsNumberCell(f.code, v) ==> !LoadsUnset(f, b, i, v)
  }

  // The result is in strict form exactly if a value comes to every load of a number cell.
  lemma StrictExactly(s: Placed, f: Func, f3: Func)
    requires IdfPlaced(s, f) && s.Valid() && IsPromotion(s, f3) && PhisComplete(s, f3)
    ensures StrictResult(f3) <==> LoadsAllSet(f)
  {
    hide *;
    if LoadsAllSet(f) {
      forall b, i ensures StrictAt(f3, b, i) { StrictWhenSet(s, f, f3, b, i); }
      AllStrict(f3);
    }
    if !LoadsAllSet(f) {
      var b, i, v := UnsetLoad(f);
      UnsetIsStranded(s, f, f3, b, i, v);
    }
  }

  lemma AllStrict(f3: Func)
    requires forall b, i :: StrictAt(f3, b, i)
    ensures StrictResult(f3)
  {
    hide StrictAt;
  }

  lemma UnsetLoad(f: Func) returns (b: Block, i: int, v: Id)
    requires !LoadsAllSet(f)
    ensures IsNumberCell(f.code, v) && LoadsUnset(f, b, i, v)
  {
    hide LoadsUnset;
    b, i, v :| IsNumberCell(f.code, v) && LoadsUnset(f, b, i, v);
  }

  lemma StrictWhenSet(s: Placed, f: Func, f3: Func, b: Block, i: int)
    requires IdfPlaced(s, f) && s.Valid() && IsPromotion(s, f3) && PhisComplete(s, f3) && LoadsAllSet(f)
    ensures StrictAt(f3, b, i)
  {
    hide Placed.Valid, Placed.Top, IdfPlaced, IsPromotion, PhisComplete, LoadsAllSet, Before, PairStands, Stranded,
      Deleted, Renamed, Listed;
    if b in f3.lists && 0 <= i < |f3.lists[b]| {
      var j := RemainsAt(s, f3, b, i);
      var x := f3.lists[b][i];
      SameOp(s, f3, x);
      forall k | 0 <= k < |f3.code[x].args|
        ensures if f3.code[x].op.Phi? then k % 2 == 1 ==> PairStands(f3, f3.code[x].args, k)
                else f3.code[x].args[k].Res? ==> Before(f3, f3.code[x].args[k].id, b, i)
      {
        if f3.code[x].op.Phi? {
          if k % 2 == 1 { StrictPhiAfter(s, f3, x, k); }
        } else {
          StrictAfter(s, f3, b, i, k);
          NotStranded(s, f, f3, b, j, f3.code[x].args[k]);
        }
      }
    }
  }

  lemma SameOp(s: Placed, f3: Func, x: Id)
    requires s.Valid() && IsPromotion(s, f3) && x in s.f.code
    ensures x in f3.code && f3.code[x].op == s.f.code[x].op && (f3.code[x].op.Phi? ==> PhiCell(s.f.code, x).Some?)
  {
    hide Placed.Valid, Renamed, Deleted;
  }

  lemma NotStranded(s: Placed, f: Func, f3: Func, b: Block, j: nat, a: Operand)
    requires IdfPlaced(s, f) && s.Valid() && LoadsAllSet(f) && b in s.f.lists && j < |s.List(b)|
    ensures !Stranded(s, s.List(b)[j], a)
  {
    hide Placed.Valid, Placed.Top, IdfPlaced, LoadsUnset, PlacedFrom, CellOf, LoadsAllSet;
    IdfParts(s, f);
    var x := s.List(b)[j];
    if Stranded(s, x, a) {
      Behind(s, f, b);
      assert j >= s.nphi[b];
      var i := j - s.nphi[b];
      assert f.lists[b][i] == x;
      SameCells(s, f, x);
      NumberCellFrom(s, f, a.id);
      LoadTop(s, f, b, i, a.id);
      PlaceOf(s, b, j);
      SetLoads(f, b, i, a.id);
    }
  }

  lemma SetLoads(f: Func, b: Block, i: int, v: Id)
    requires LoadsAllSet(f) && IsNumberCell(f.code, v)
    ensures !LoadsUnset(f, b, i, v)
  {
    hide LoadsUnset;
  }

  lemma NumberCellFrom(s: Placed, f: Func, v: Id)
    requires PlacedFrom(s, f)
    ensures IsNumberCell(s.f.code, v) <==> IsNumberCell(f.code, v)
  {
  }

  lemma UnsetIsStranded(s: Placed, f: Func, f3: Func, b: Block, i: int, v: Id)
    requires IdfPlaced(s, f) && s.Valid() && IsPromotion(s, f3) && IsNumberCell(f.code, v) && LoadsUnset(f, b, i, v)
    ensures !StrictResult(f3)
  {
    hide Placed.Valid, Placed.Top, IdfPlaced, PlacedFrom, CellOf, IsPromotion, InIdf, StoreBlocks, SetAbove, StrictAt,
      Before, Keep;
    IdfParts(s, f);
    LoadTop(s, f, b, i, v);
    var x := f.lists[b][i];
    Behind(s, f, b);
    SameCells(s, f, x);
    NumberCellFrom(s, f, v);
    var j := s.nphi[b] + i;
    PlaceOf(s, b, j);
    assert !Replaced(s, x);
    StrandedLoad(s, f3, b, j, v);
    var i3 := KeptAt(s, f3, b, x);
    StrandedGone(s, f3, x, Res(v), b, i3);
    NotStrictAt(f3, b, i3, v);
  }

  lemma StrandedLoad(s: Placed, f3: Func, b: Block, j: nat, v: Id)
    requires s.Valid() && IsPromotion(s, f3) && b in s.f.lists && j < |s.List(b)|
    requires LoadCell(s.f.code, s.List(b)[j]) == Some(v) && IsNumberCell(s.f.code, v) && !Replaced(s, s.List(b)[j])
    ensures var x := s.List(b)[j];
            Stranded(s, x, Res(v)) && !Deleted(s, x) && x in f3.code && f3.code[x].op.Load? &&
              f3.code[x].args == [Res(v)]
  {
    hide Placed.Valid, Placed.Top, Replaced;
    PlaceOf(s, b, j);
  }

  lemma KeptAt(s: Placed, f3: Func, b: Block, x: Id) returns (i: nat)
    requires s.Valid() && IsPromotion(s, f3) && b in s.f.lists && x in s.f.lists[b] && !Deleted(s, x)
    ensures b in f3.lists && i < |f3.lists[b]| && f3.lists[b][i] == x
  {
    hide Placed.Valid, Deleted, Renamed;
    KeepHas(s, s.f.lists[b], x);
    i :| 0 <= i < |f3.lists[b]| && f3.lists[b][i] == x;
  }

  lemma NotStrictAt(f3: Func, b: Block, i: nat, v: Id)
    requires b in f3.lists && i < |f3.lists[b]| && f3.lists[b][i] in f3.code
    requires f3.code[f3.lists[b][i]].op.Load? && f3.code[f3.lists[b][i]].args == [Res(v)] && !Before(f3, v, b, i)
    ensures !StrictResult(f3)
  {
    hide Before, PairStands;
    assert f3.code[f3.lists[b][i]].args[0] == Res(v);
    assert !StrictAt(f3, b, i);
  }

  // ---- Predecessors of phis ----

  // A phi has a pair for a predecessor exactly if that does not leave the variable unset.
  lemma PairExactly(s: Placed, f: Func, f3: Func, x: Id, p: Block)
    requires IdfPlaced(s, f) && s.Valid() && PhisComplete(s, f3) && Listed(s.f, x) && PhiCell(s.f.code, x).Some?
    requires s.f.g.Edge(p, s.Home(x)) && p in s.f.lists
    ensures x in f3.code && (HasPair(f3.code[x].args, p) <==> !LeavesUnset(f, p, PhiCell(s.f.code, x).value))
  {
    hide Placed.Valid, Placed.Top, Listed, IdfPlaced, Sets, SetAbove, InIdf, StoreBlocks, HasPhi;
    var v := PhiCell(s.f.code, x).value;
    assert PhiComplete(s, x, f3.code[x].args);
    if HasPair(f3.code[x].args, p) {
      var k :| 0 <= k < |f3.code[x].args| && k % 2 == 1 && f3.code[x].args[k] == Label(p);
      assert f3.code[x].args[k].b == p;
    }
    IdfParts(s, f);
    PhiHere(s, x);
    IdfPhi(s, f, s.Home(x), v);
    EndTop(s, f, p, v);
  }

  lemma PhiHere(s: Placed, x: Id)
    requires s.Valid() && Listed(s.f, x) && PhiCell(s.f.code, x).Some?
    ensures s.Home(x) in s.f.lists && HasPhi(s, s.Home(x), PhiCell(s.f.code, x).value)
  {
    hide StrictSsa, IsDomTree, Placed.PhisFirst;
    var l := s.List(s.Home(x));
    assert l[IndexOf(l, x)] == x;
  }

  // The end of no block asks for a variable without a value.
  ghost predicate EndsAllSet(f: Func) {
    forall b, v {:trigger LeavesUnset(f, b, v)} :: !LeavesUnset(f, b, v)
  }

  // If instruction i of block b is a phi, it has a pair for every predecessor.
  ghost predicate PairedAt(f3: Func, b: Block, i: int) {
    b in f3.lists && 0 <= i < |f3.lists[b]| ==>
      var x := f3.lists[b][i];
      x in f3.code && (f3.code[x].op.Phi? ==> forall p :: f3.g.Edge(p, b) ==> HasPair(f3.code[x].args, p))
  }

  ghost predicate PairedResult(f3: Func) {
    forall b, i {:trigger PairedAt(f3, b, i)} :: PairedAt(f3, b, i)
  }

  // Every phi of the result has a pair for every predecessor exactly if no block of the function
  // before the pass leaves a variable unset that a phi behind it asks for.
  lemma PairedExactly(s: Placed, f: Func, f3: Func)
    requires IdfPlaced(s, f) && s.Valid() && IsPromotion(s, f3) && PhisComplete(s, f3)
    ensures PairedResult(f3) <==> EndsAllSet(f)
  {
    hide *;
    if EndsAllSet(f) {
      forall b, i ensures PairedAt(f3, b, i) { PairedWhenSet(s, f, f3, b, i); }
      AllPaired(f3);
    } else {
      var b, v := UnsetEnd(f);
      UnsetIsUnpaired(s, f, f3, b, v);
    }
  }

  lemma AllPaired(f3: Func)
    requires forall b, i :: PairedAt(f3, b, i)
    ensures PairedResult(f3)
  {
    hide PairedAt;
  }

  lemma UnsetEnd(f: Func) returns (b: Block, v: Id)
    requires !EndsAllSet(f)
    ensures LeavesUnset(f, b, v)
  {
    hide LeavesUnset;
    b, v :| LeavesUnset(f, b, v);
  }

  lemma PairedWhenSet(s: Placed, f: Func, f3: Func, b: Block, i: int)
    requires IdfPlaced(s, f) && s.Valid() && IsPromotion(s, f3) && PhisComplete(s, f3) && EndsAllSet(f)
    ensures PairedAt(f3, b, i)
  {
    hide Placed.Valid, IdfPlaced, PhisComplete, LeavesUnset, HasPair, Deleted, Renamed, Keep;
    if b in f3.lists && 0 <= i < |f3.lists[b]| {
      var j := RemainsAt(s, f3, b, i);
      var x := f3.lists[b][i];
      SameOp(s, f3, x);
      PlaceOf(s, b, j);
      if f3.code[x].op.Phi? {
        forall p | f3.g.Edge(p, b) ensures HasPair(f3.code[x].args, p) {
          EdgeListed(s, p, b);
          PairExactly(s, f, f3, x, p);
        }
      }
    }
  }

  lemma EdgeListed(s: Placed, p: Block, b: Block)
    requires s.Valid() && s.f.g.Edge(p, b)
    ensures p in s.f.lists && b in s.f.lists
  {
    hide StrictSsa, Tree, Anc, Placed.PhisFirst;
  }

  lemma UnsetIsUnpaired(s: Placed, f: Func, f3: Func, b: Block, v: Id)
    requires IdfPlaced(s, f) && s.Valid() && IsPromotion(s, f3) && PhisComplete(s, f3) && LeavesUnset(f, b, v)
    ensures !PairedResult(f3)
  {
    hide Placed.Valid, IdfPlaced, PhisComplete, HasPair, Keep, InIdf, StoreBlocks, Sets, SetAbove, Renamed, IsPromotion;
    IdfParts(s, f);
    var d :| f.g.Edge(b, d) && d in f.lists && InIdf(f.g, StoreBlocks(f, v), d);
    IdfPhi(s, f, d, v);
    var j :| 0 <= j < |s.List(d)| && PhiCell(s.f.code, s.List(d)[j]) == Some(v);
    var x := s.List(d)[j];
    PlaceOf(s, d, j);
    PhiStays(s, x);
    EdgeListed(s, b, d);
    PairExactly(s, f, f3, x, b);
    SameOp(s, f3, x);
    var i := KeptAt(s, f3, d, x);
    PromotionGraph(s, f3);
    assert !PairedAt(f3, d, i);
  }

  lemma PhiStays(s: Placed, x: Id)
    requires s.Valid() && PhiCell(s.f.code, x).Some?
    ensures !Deleted(s, x) && s.f.code[x].op.Phi?
  {
    hide Placed.Valid;
  }

  lemma PromotionGraph(s: Placed, f3: Func)
    requires s.Valid() && IsPromotion(s, f3)
    ensures f3.g == s.f.g
  {
    hide Placed.Valid, Renamed, Deleted;
  }

  // If every variable is stored to in the entry block, a phi has a pair for each predecessor.
  lemma EveryPairThere(s: Placed, f: Func, f3: Func)
    requires IdfPlaced(s, f) && s.Valid() && IsPromotion(s, f3) && PhisComplete(s, f3) && EntrySet(f)
    ensures PairedResult(f3)
  {
    hide *;
    EntrySetEnds(f);
    PairedExactly(s, f, f3);
  }

  lemma EntrySetEnds(f: Func)
    requires EntrySet(f)
    ensures EndsAllSet(f)
  {
    hide LeavesUnset, EntrySet;
    forall b, v ensures !LeavesUnset(f, b, v) { EntrySetLeaves(f, b, v); }
  }

  lemma EntrySetLeaves(f: Func, b: Block, v: Id)
    requires EntrySet(f)
    ensures !LeavesUnset(f, b, v)
  {
    hide InIdf, StoreBlocks, EntrySet, SetAbove;
    if LeavesUnset(f, b, v) {
      var d :| d in f.lists && InIdf(f.g, StoreBlocks(f, v), d);
      EntrySetSets(f, d, v);
      SetInEntry(f, b, v);
    }
  }

  // ---- The order of the walk does not show in the result ----

  // Every pair of a phi occurs in the other.
  ghost predicate PairsWithin(args: seq<Operand>, other: seq<Operand>) {
    forall k :: 0 <= k < |args| && k % 2 == 1 ==> HasSamePair(other, args[k - 1], args[k])
  }

  ghost predicate HasSamePair(args: seq<Operand>, a: Operand, l: Operand) {
    exists j :: 0 <= j < |args| && j % 2 == 1 && args[j] == l && args[j - 1] == a
  }

  lemma SamePairs(s: Placed, x: Id, args: seq<Operand>, other: seq<Operand>)
    requires s.Valid() && PhiCell(s.f.code, x).Some? && PhiComplete(s, x, args) && PhiComplete(s, x, other)
    ensures |args| % 2 == 0 && PairsWithin(args, other)
  {
    hide Placed.Valid, Placed.Top;
    forall k | 0 <= k < |args| && k % 2 == 1 ensures HasSamePair(other, args[k - 1], args[k]) {
      var p := args[k].b;
      assert s.f.g.Edge(p, s.Home(x)) && s.Top(p, |s.List(p)|, PhiCell(s.f.code, x).value) == Some(args[k - 1]);
      assert HasPair(other, p);
      var j :| 0 <= j < |other| && j % 2 == 1 && other[j] == Label(p);
      assert s.Top(other[j].b, |s.List(other[j].b)|, PhiCell(s.f.code, x).value) == Some(other[j - 1]);
    }
  }

  // What two walks over the same placed function leave is the same but for the order of the
  // pairs in the phis.
  lemma SameResult(s: Placed, f3: Func, f4: Func)
    requires s.Valid() && IsPromotion(s, f3) && IsPromotion(s, f4) && PhisComplete(s, f3) && PhisComplete(s, f4)
    ensures f3.lists == f4.lists
    ensures forall b, i {:trigger f3.lists[b][i]} :: b in f3.lists && 0 <= i < |f3.lists[b]| ==>
      SameInstr(f3, f4, f3.lists[b][i])
  {
    hide Placed.Valid, Placed.Top, Renamed, Deleted, PhiComplete, SameInstr, Listed;
    forall b, i | b in f3.lists && 0 <= i < |f3.lists[b]| ensures SameInstr(f3, f4, f3.lists[b][i]) {
      var j := RemainsAt(s, f3, b, i);
      SameInstrs(s, f3, f4, f3.lists[b][i]);
    }
  }

  ghost predicate SameInstr(f3: Func, f4: Func, x: Id) {
    && x in f3.code && x in f4.code && f3.code[x].op == f4.code[x].op
    && (!f3.code[x].op.Phi? ==> f3.code[x].args == f4.code[x].args)
    && (f3.code[x].op.Phi? ==>
         PairsWithin(f3.code[x].args, f4.code[x].args) && PairsWithin(f4.code[x].args, f3.code[x].args))
  }

  lemma SameInstrs(s: Placed, f3: Func, f4: Func, x: Id)
    requires s.Valid() && IsPromotion(s, f3) && IsPromotion(s, f4) && PhisComplete(s, f3) && PhisComplete(s, f4)
    requires Listed(s.f, x) && x in s.f.code && !Deleted(s, x)
    ensures SameInstr(f3, f4, x)
  {
    hide Placed.Valid, Placed.Top, Placed.Resolve, Deleted, PhiComplete, PairsWithin, PhiFilled, Listed;
    assert Renamed(s, x, f3.code[x]) && Renamed(s, x, f4.code[x]);
    if PhiCell(s.f.code, x).Some? {
      SamePairs(s, x, f3.code[x].args, f4.code[x].args);
      SamePairs(s, x, f4.code[x].args, f3.code[x].args);
    }
  }
}
