/** The static side of renaming: for a function whose phis are placed, the value on
    top of each cell's rename stack at each program point. */
module Ssa {
  import opened Wrappers
  import opened Cfg
  import opened DomTree
  import opened Frontier
  import opened Ir

  function IndexOf(s: seq<Id>, x: Id): (i: nat)
    requires x in s
    ensures i < |s| && s[i] == x
  {
    if s[0] == x then 0 else 1 + IndexOf(s[1..], x)
  }

  lemma IndexOfAt(s: seq<Id>, i: nat)
    requires Distinct(s) && i < |s|
    ensures IndexOf(s, s[i]) == i
  {
    SameIndex(s, IndexOf(s, s[i]), i);
  }

  // Each listed instruction has code and stands in one place.
  ghost predicate Laid(f: Func) {
    && f.lists.Keys == Elements(f.g.blocks)
    && (forall b :: b in f.lists ==> Distinct(f.lists[b]))
    && (forall b, i {:trigger f.lists[b][i]} :: b in f.lists && 0 <= i < |f.lists[b]| ==>
          f.lists[b][i] in f.code && f.lists[b][i] in f.home && f.home[f.lists[b][i]] == b)
  }

  ghost predicate Listed(f: Func, x: Id) {
    x in f.home && f.home[x] in f.lists && x in f.lists[f.home[x]]
  }

  // x stands at a point that dominates position i of block b.
  ghost predicate Before(f: Func, x: Id, b: Block, i: nat)
  {
    && Listed(f, x)
    && (f.g.StrictlyDominates(f.home[x], b) || (f.home[x] == b && IndexOf(f.lists[b], x) < i))
  }

  ghost predicate Available(f: Func, a: Operand, b: Block, i: nat) {
    a.Res? ==> Before(f, a.id, b, i)
  }

  predicate Valueless(code: map<Id, Instr>, x: Id) {
    x in code && (code[x].op.Phi? || code[x].op.Br? || code[x].op.CondBr? || code[x].op.Store?)
  }

  // The address of a cell is used by direct loads and stores only; branches and
  // stores are no operands and, before renaming, phis are none either.
  ghost predicate Plain(f: Func, x: Id, k: nat)
    requires x in f.code && k < |f.code[x].args|
  {
    var a := f.code[x].args[k];
    && (a.Res? ==> !Valueless(f.code, a.id))
    && (CellOf(f.code, a).Some? ==> IsAddress(f.code[x], k))
  }

  predicate IsAddress(instr: Instr, k: nat) {
    (instr.op.Load? && |instr.args| == 1 && k == 0) || (instr.op.Store? && |instr.args| == 2 && k == 1)
  }

  ghost predicate OperandsAvailable(f: Func, b: Block, i: nat)
    requires b in f.lists && i < |f.lists[b]| && f.lists[b][i] in f.code
  {
    forall k :: 0 <= k < |f.code[f.lists[b][i]].args| ==>
      Available(f, f.code[f.lists[b][i]].args[k], b, i) && Plain(f, f.lists[b][i], k)
  }

  // A branch ends its block and goes along edges of the graph.
  ghost predicate Terminates(f: Func, b: Block, i: nat)
    requires b in f.lists && i < |f.lists[b]| && f.lists[b][i] in f.code
  {
    var instr := f.code[f.lists[b][i]];
    instr.op.Br? || instr.op.CondBr? ==>
      && i == |f.lists[b]| - 1
      && forall k :: 0 <= k < |instr.args| && instr.args[k].Label? ==> f.g.Edge(b, instr.args[k].b)
  }

  // Every operand is defined at a point dominating its use.
  ghost predicate StrictSsa(f: Func)
    requires Laid(f)
  {
    && (forall b, i {:trigger OperandsAvailable(f, b, i)} :: b in f.lists && 0 <= i < |f.lists[b]| ==>
         OperandsAvailable(f, b, i))
    && (forall b, i {:trigger Terminates(f, b, i)} :: b in f.lists && 0 <= i < |f.lists[b]| ==> Terminates(f, b, i))
  }

  // The function f with its phis placed in front, nphi[b] of them in block b, and its
  // dominator tree.
  datatype Placed = Placed(f: Func, nphi: map<Block, nat>, po: map<Block, nat>, t: Links)
  {
    ghost predicate PhisFirst(b: Block)
      requires b in f.lists
    {
      && b in nphi && nphi[b] <= |f.lists[b]|
      && (forall i :: 0 <= i < nphi[b] ==> PhiCell(f.code, f.lists[b][i]).Some?)
      && (forall i :: nphi[b] <= i < |f.lists[b]| ==> PhiCell(f.code, f.lists[b][i]).None?)
      && (forall i, j :: 0 <= i < j < nphi[b] ==> PhiCell(f.code, f.lists[b][i]) != PhiCell(f.code, f.lists[b][j]))
    }

    ghost predicate Valid() {
      && IsDomTree(f.g, po, t)
      && Laid(f) && StrictSsa(f)
      && forall b {:trigger PhisFirst(b)} :: b in f.lists ==> PhisFirst(b)
    }

    function List(b: Block): seq<Id> {
      if b in f.lists then f.lists[b] else []
    }

    function Idom(b: Block): Block {
      if b in t then t[b] else b
    }

    // How far down the dominator order b is.
    function Height(b: Block): nat {
      if b in po && f.g.entry in po && po[b] <= po[f.g.entry] then po[f.g.entry] - po[b] else 0
    }

    function StoredOperand(x: Id): Operand {
      if x in f.code && |f.code[x].args| == 2 then f.code[x].args[0] else Const(0)
    }

    function Home(x: Id): Block {
      if x in f.home then f.home[x] else f.g.entry
    }

    function Place(x: Id): nat {
      if x in List(Home(x)) then IndexOf(List(Home(x)), x) else 0
    }

    // The value on top of the stack of cell v in front of position i of block b.
    ghost function Top(b: Block, i: nat, v: Id): Option<Operand>
      requires Valid() && b in f.lists && i <= |List(b)|
      decreases Height(b), i
    {
      hide *;
      if i == 0 then
        if b == f.g.entry then None
        else
          IdomHigher(this, b);
          Top(Idom(b), |List(Idom(b))|, v)
      else
        var id := List(b)[i - 1];
        if PhiCell(f.code, id) == Some(v) then Some(Res(id))
        else if StoreCell(f.code, id) == Some(v) then
          StoredAvailable(this, b, i - 1);
          Some(Value(StoredOperand(id), b, i - 1))
        else Top(b, i - 1, v)
    }

    // An operand after renaming: a load of a cell is replaced by the stack top in front of it.
    ghost function Value(a: Operand, b: Block, i: nat): Operand
      requires Valid() && b in f.lists && i <= |List(b)| && Available(f, a, b, i)
      decreases Height(b), i
    {
      hide *;
      if a.Res? && LoadCell(f.code, a.id).Some? then
        BeforeHigher(this, a, b, i);
        var top := Top(Home(a.id), Place(a.id), LoadCell(f.code, a.id).value);
        if top.Some? then top.value else a
      else a
    }

    // The same without a point of use.
    ghost function Resolve(a: Operand): Operand
      requires Valid()
    {
      hide *;
      if a.Res? && LoadCell(f.code, a.id).Some? && Listed(f, a.id) then
        ListedPlace(this, a.id);
        var top := Top(Home(a.id), Place(a.id), LoadCell(f.code, a.id).value);
        if top.Some? then top.value else a
      else a
    }
  }

  lemma IdomHigher(s: Placed, b: Block)
    requires s.Valid() && b in s.f.lists && b != s.f.g.entry
    ensures s.Idom(b) in s.f.lists && s.Height(s.Idom(b)) < s.Height(b)
    ensures b in s.t && s.t[b] == s.Idom(b)
  {
    hide Anc, StrictSsa;
    TreeFactsOf(s.f.g, s.po, s.t, b);
  }

  lemma EntryListed(s: Placed)
    requires s.Valid()
    ensures s.f.g.entry in s.f.lists && s.f.g.entry in s.f.g.blocks
  {
    hide StrictSsa, Anc, Placed.PhisFirst;
  }

  lemma ListedPlace(s: Placed, x: Id)
    requires Listed(s.f, x)
    ensures s.Home(x) in s.f.lists && s.Place(x) < |s.List(s.Home(x))| && s.List(s.Home(x))[s.Place(x)] == x
  {
  }

  lemma BeforeHigher(s: Placed, a: Operand, b: Block, i: nat)
    requires s.Valid() && b in s.f.lists && a.Res? && Available(s.f, a, b, i)
    ensures s.Home(a.id) in s.f.lists && s.Place(a.id) < |s.List(s.Home(a.id))|
    ensures s.Height(s.Home(a.id)) < s.Height(b) || (s.Home(a.id) == b && s.Place(a.id) < i)
  {
    hide Anc, StrictSsa;
    ListedPlace(s, a.id);
    if s.f.g.StrictlyDominates(s.f.home[a.id], b) {
      StrictRises(s.f.g, s.po, s.t, s.f.home[a.id], b);
      TreeFactsOf(s.f.g, s.po, s.t, s.f.home[a.id]);
    }
  }

  lemma StoredAvailable(s: Placed, b: Block, i: nat)
    requires s.Valid() && b in s.f.lists && i < |s.List(b)| && StoreCell(s.f.code, s.List(b)[i]).Some?
    ensures Available(s.f, s.StoredOperand(s.List(b)[i]), b, i)
    ensures CellOf(s.f.code, s.StoredOperand(s.List(b)[i])).None?
  {
    hide IsDomTree;
    assert OperandsAvailable(s.f, b, i);
    assert Plain(s.f, s.List(b)[i], 0);
  }

  lemma TreeFactsOf(g: Graph, po: map<Block, nat>, t: Links, b: Block)
    requires IsDomTree(g, po, t) && b in g.blocks
    ensures b in po && b in t && g.entry in po && po[b] <= po[g.entry]
    ensures b != g.entry ==> t[b] in g.blocks && t[b] in po && po[b] < po[t[b]] <= po[g.entry]
  {
    assert b == g.entry || Climbs(g, po, t, b);
  }

  // A strict dominator has a larger post-order number.
  lemma StrictRises(g: Graph, po: map<Block, nat>, t: Links, a: Block, b: Block)
    requires IsDomTree(g, po, t) && b in t && g.StrictlyDominates(a, b)
    ensures a in po && po[b] < po[a] && a in t
  {
    assert a in Anc(g, po, t, b);
    AncShape(g, po, t, b);
  }

  // ---- Points and dominance ----

  lemma SdomTrans(g: Graph, po: map<Block, nat>, t: Links, a: Block, c: Block, b: Block)
    requires IsDomTree(g, po, t) && b in t && g.StrictlyDominates(a, c) && g.StrictlyDominates(c, b)
    ensures g.StrictlyDominates(a, b)
  {
    StrictRises(g, po, t, c, b);
    StrictRises(g, po, t, a, c);
    assert a in Anc(g, po, t, c) && c in Anc(g, po, t, b);
    AncTransitive(g, po, t, c, b);
  }

  lemma LinkSdom(g: Graph, po: map<Block, nat>, t: Links, b: Block)
    requires IsDomTree(g, po, t) && b in t && b != g.entry
    ensures g.StrictlyDominates(t[b], b)
  {
    LinkDominates(g, po, t, b);
  }

  // What stands before (c, j) stands before every point (c, j) dominates.
  lemma BeforeLater(s: Placed, x: Id, c: Block, j: nat, b: Block, i: nat)
    requires s.Valid() && c in s.f.lists && b in s.f.lists && Before(s.f, x, c, j)
    requires s.f.g.StrictlyDominates(c, b) || (c == b && j <= i)
    ensures Before(s.f, x, b, i)
  {
    hide StrictSsa, Anc, Tree;
    TreeFactsOf(s.f.g, s.po, s.t, b);
    if c != b && s.f.home[x] != c {
      SdomTrans(s.f.g, s.po, s.t, s.f.home[x], c, b);
    }
  }

  lemma IdomSdom(s: Placed, b: Block)
    requires s.Valid() && b in s.f.lists && b != s.f.g.entry
    ensures s.f.g.StrictlyDominates(s.Idom(b), b)
  {
    hide StrictSsa, Anc, Tree;
    TreeFactsOf(s.f.g, s.po, s.t, b);
    LinkSdom(s.f.g, s.po, s.t, b);
  }

  lemma PlaceOf(s: Placed, b: Block, i: nat)
    requires s.Valid() && b in s.f.lists && i < |s.List(b)|
    ensures Listed(s.f, s.List(b)[i]) && s.f.home[s.List(b)[i]] == b && s.Home(s.List(b)[i]) == b
    ensures s.Place(s.List(b)[i]) == i && IndexOf(s.f.lists[b], s.List(b)[i]) == i
    ensures s.List(b)[i] in s.f.code
  {
    hide StrictSsa, IsDomTree;
    IndexOfAt(s.f.lists[b], i);
    assert s.f.lists[b][i] == s.List(b)[i];
  }

  // ---- Stack tops are values that need no further renaming ----

  ghost predicate Settled(s: Placed, a: Operand, b: Block, i: nat)
    requires s.Valid()
  {
    && Available(s.f, a, b, i)
    && s.Resolve(a) == a
    && CellOf(s.f.code, a).None?
  }

  lemma SettledLater(s: Placed, a: Operand, c: Block, j: nat, b: Block, i: nat)
    requires s.Valid() && c in s.f.lists && b in s.f.lists && Settled(s, a, c, j)
    requires s.f.g.StrictlyDominates(c, b) || (c == b && j <= i)
    ensures Settled(s, a, b, i)
  {
    hide Placed.Valid, Placed.Resolve, CellOf;
    if a.Res? { BeforeLater(s, a.id, c, j, b, i); }
  }

  lemma ValueIsResolve(s: Placed, a: Operand, b: Block, i: nat)
    requires s.Valid() && b in s.f.lists && i <= |s.List(b)| && Available(s.f, a, b, i)
    ensures s.Value(a, b, i) == s.Resolve(a)
  {
    hide Placed.Valid, Placed.Top, LoadCell;
    if a.Res? { assert Listed(s.f, a.id); }
  }

  lemma {:induction false} TopSettled(s: Placed, b: Block, i: nat, v: Id)
    requires s.Valid() && b in s.f.lists && i <= |s.List(b)| && s.Top(b, i, v).Some?
    ensures Settled(s, s.Top(b, i, v).value, b, i)
    decreases s.Height(b), i, 0
  {
    hide Placed.Valid, Settled;
    if i == 0 {
      IdomHigher(s, b);
      var c := s.Idom(b);
      TopSettled(s, c, |s.List(c)|, v);
      IdomSdom(s, b);
      SettledLater(s, s.Top(c, |s.List(c)|, v).value, c, |s.List(c)|, b, 0);
    } else {
      var x := s.List(b)[i - 1];
      if PhiCell(s.f.code, x) == Some(v) {
        PhiSettled(s, b, i - 1);
      } else if StoreCell(s.f.code, x) == Some(v) {
        StoredAvailable(s, b, i - 1);
        ValueSettled(s, s.StoredOperand(x), b, i - 1);
        SettledLater(s, s.Value(s.StoredOperand(x), b, i - 1), b, i - 1, b, i);
      } else {
        TopSettled(s, b, i - 1, v);
        SettledLater(s, s.Top(b, i, v).value, b, i - 1, b, i);
      }
    }
  }

  lemma PhiSettled(s: Placed, b: Block, i: nat)
    requires s.Valid() && b in s.f.lists && i < |s.List(b)| && PhiCell(s.f.code, s.List(b)[i]).Some?
    ensures Settled(s, Res(s.List(b)[i]), b, i + 1)
  {
    hide Placed.Valid;
    PlaceOf(s, b, i);
  }

  lemma {:induction false} ValueSettled(s: Placed, a: Operand, b: Block, i: nat)
    requires s.Valid() && b in s.f.lists && i <= |s.List(b)| && Available(s.f, a, b, i) && CellOf(s.f.code, a).None?
    ensures Settled(s, s.Value(a, b, i), b, i)
    decreases s.Height(b), i, 1
  {
    hide Placed.Valid;
    ValueIsResolve(s, a, b, i);
    if a.Res? && LoadCell(s.f.code, a.id).Some? {
      BeforeHigher(s, a, b, i);
      var c, j, v := s.Home(a.id), s.Place(a.id), LoadCell(s.f.code, a.id).value;
      if s.Top(c, j, v).Some? {
        TopSettled(s, c, j, v);
        SettledLater(s, s.Top(c, j, v).value, c, j, b, i);
      }
    }
  }

  // ---- The promoted function ----

  // Renaming deletes the loads it replaced and all stores to cells; number cells go last.
  ghost predicate Deleted(s: Placed, x: Id)
    requires s.Valid()
  {
    || StoreCell(s.f.code, x).Some?
    || (x in s.f.code && s.f.code[x].op == Alloca(Number))
    || Replaced(s, x)
  }

  ghost predicate Replaced(s: Placed, x: Id)
    requires s.Valid()
  {
    && LoadCell(s.f.code, x).Some? && Listed(s.f, x)
    && s.Home(x) in s.f.lists && s.Place(x) <= |s.List(s.Home(x))|
    && s.Top(s.Home(x), s.Place(x), LoadCell(s.f.code, x).value).Some?
  }

  ghost function Keep(s: Placed, xs: seq<Id>): seq<Id>
    requires s.Valid()
  {
    if xs == [] then [] else (if Deleted(s, xs[0]) then [] else [xs[0]]) + Keep(s, xs[1..])
  }

  lemma {:induction false} KeepHas(s: Placed, xs: seq<Id>, x: Id)
    requires s.Valid()
    ensures x in Keep(s, xs) <==> x in xs && !Deleted(s, x)
  {
    hide Placed.Valid, Deleted;
    if xs != [] { KeepHas(s, xs[1..], x); }
  }

  // What a remaining instruction has become.
  ghost predicate Renamed(s: Placed, x: Id, instr: Instr)
    requires s.Valid() && x in s.f.code
  {
    && instr.op == s.f.code[x].op
    && (!instr.op.Phi? ==>
          |instr.args| == |s.f.code[x].args| &&
            forall k :: 0 <= k < |instr.args| ==> instr.args[k] == s.Resolve(s.f.code[x].args[k]))
    && (instr.op.Phi? ==> PhiFilled(s, x, instr))
  }

  // A phi holds, for each predecessor, the stack top at its end.
  ghost predicate PhiFilled(s: Placed, x: Id, instr: Instr)
    requires s.Valid() && instr.op.Phi?
  {
    forall p :: s.Home(x) in s.f.g.pred && p in s.f.g.pred[s.Home(x)] && p in s.f.lists ==>
      PhiOperand(instr.args, p) == s.Top(p, |s.List(p)|, instr.op.cell)
  }

  ghost predicate IsPromotion(s: Placed, f3: Func)
    requires s.Valid()
  {
    && f3.g == s.f.g && f3.lists.Keys == s.f.lists.Keys && f3.home == s.f.home
    && (forall b :: b in s.f.lists ==> f3.lists[b] == Keep(s, s.f.lists[b]))
    && (forall x :: x in s.f.code ==> x in f3.code && f3.code[x].op == s.f.code[x].op)
    && (forall x :: Listed(s.f, x) && x in s.f.code && !Deleted(s, x) ==> x in f3.code && Renamed(s, x, f3.code[x]))
  }

  // ---- Phi placement ----

  ghost predicate Defines(s: Placed, b: Block, v: Id) {
    exists i ::
      0 <= i < |s.List(b)| &&
        (PhiCell(s.f.code, s.List(b)[i]) == Some(v) || StoreCell(s.f.code, s.List(b)[i]) == Some(v))
  }

  ghost predicate HasPhi(s: Placed, b: Block, v: Id) {
    exists i :: 0 <= i < |s.List(b)| && PhiCell(s.f.code, s.List(b)[i]) == Some(v)
  }

  // Placement is closed: a block in the frontier of a definition has a phi.
  ghost predicate FrontierClosed(s: Placed) {
    && (forall x, y, v :: Defines(s, x, v) && InFrontier(s.f.g, x, y) ==> HasPhi(s, y, v))
    && (forall v :: !HasPhi(s, s.f.g.entry, v))
  }

  lemma {:induction false} NoDefinition(s: Placed, b: Block, i: nat, v: Id)
    requires s.Valid() && b in s.f.lists && i <= |s.List(b)| && !Defines(s, b, v)
    ensures s.Top(b, i, v) == s.Top(b, 0, v)
    decreases i
  {
    hide Placed.Valid;
    if i > 0 {
      assert PhiCell(s.f.code, s.List(b)[i - 1]) != Some(v) && StoreCell(s.f.code, s.List(b)[i - 1]) != Some(v);
      NoDefinition(s, b, i - 1, v);
    }
  }

  // If y has no phi for v, the stack top of v does not change on the climb from a
  // predecessor of y to y's immediate dominator.
  lemma {:induction false} ClimbKeepsTop(s: Placed, x: Block, p: Block, y: Block, v: Id)
    requires s.Valid() && FrontierClosed(s)
    requires y in s.f.g.pred && p in s.f.g.pred[y] && !HasPhi(s, y, v)
    requires y in s.f.lists && y != s.f.g.entry && x in s.f.lists && p in s.f.lists
    requires s.f.g.Dominates(x, p) && s.f.g.Dominates(s.Idom(y), x)
    ensures s.Idom(y) in s.f.lists
    ensures s.Top(x, |s.List(x)|, v) == s.Top(s.Idom(y), |s.List(s.Idom(y))|, v)
    decreases s.Height(x)
  {
    hide Placed.Valid;
    IdomHigher(s, y);
    if x != s.Idom(y) {
      OnClimb(s, x, p, y);
      NoDefinition(s, x, |s.List(x)|, v);
      ClimbUp(s, x, p, y);
      ClimbKeepsTop(s, s.Idom(x), p, y, v);
    }
  }

  lemma OnClimb(s: Placed, x: Block, p: Block, y: Block)
    requires s.Valid() && y in s.f.g.pred && p in s.f.g.pred[y] && y in s.f.lists && y != s.f.g.entry && x in s.f.lists
    requires s.f.g.Dominates(x, p) && s.f.g.Dominates(s.Idom(y), x) && x != s.Idom(y)
    ensures InFrontier(s.f.g, x, y)
  {
    hide StrictSsa, Anc, Tree;
    TreeFactsOf(s.f.g, s.po, s.t, y);
    if s.f.g.StrictlyDominates(x, y) {
      LinkDominates(s.f.g, s.po, s.t, y);
      AncChainAntisymmetric(s.f.g, s.po, s.t, x, s.t[y]);
    }
  }

  lemma ClimbUp(s: Placed, x: Block, p: Block, y: Block)
    requires s.Valid() && y in s.f.lists && y != s.f.g.entry && x in s.f.lists
    requires s.f.g.Dominates(x, p) && s.f.g.Dominates(s.Idom(y), x) && x != s.Idom(y) && p in s.f.lists
    ensures x != s.f.g.entry && s.Idom(x) in s.f.lists && s.Height(s.Idom(x)) < s.Height(x)
    ensures s.f.g.Dominates(s.Idom(x), p) && s.f.g.Dominates(s.Idom(y), s.Idom(x))
  {
    hide StrictSsa, Anc, Tree;
    if x == s.f.g.entry { DominatesEntry(s.f.g, s.Idom(y)); }
    IdomHigher(s, x);
    TreeFactsOf(s.f.g, s.po, s.t, x);
    LinkDominates(s.f.g, s.po, s.t, x);
    TreeFactsOf(s.f.g, s.po, s.t, p);
    DominatesTrans(s.f.g, s.po, s.t, s.t[x], x, p);
  }

  lemma DominatesTrans(g: Graph, po: map<Block, nat>, t: Links, a: Block, c: Block, b: Block)
    requires IsDomTree(g, po, t) && b in t && c in t && g.Dominates(a, c) && g.Dominates(c, b)
    ensures g.Dominates(a, b)
  {
    assert a in Anc(g, po, t, c) && c in Anc(g, po, t, b);
    AncTransitive(g, po, t, c, b);
  }
}
