/** The dominator tree below a block, and the walks that enter every block of it once, depth
    first, in any order of the children. */
module TreeWalk {
  import opened Cfg
  import opened DomTree
  import opened Frontier
  import opened Ssa

  // ---- The dominator tree below a block ----

  ghost function Subtree(g: Graph, b: Block): set<Block> {
    set x | x in g.blocks && g.Dominates(b, x)
  }

  ghost function UnderAny(g: Graph, cs: set<Block>): set<Block> {
    set x | x in g.blocks && exists c :: c in cs && g.Dominates(c, x)
  }

  lemma {:induction false} ChildAbove(g: Graph, po: map<Block, nat>, t: Links, b: Block, x: Block) returns (c: Block)
    requires IsDomTree(g, po, t) && x in g.blocks && g.StrictlyDominates(b, x)
    ensures g.Dominates(c, x) && g.ImmediateDominator(b, c) && c in g.blocks
    decreases if x in po && g.entry in po && po[x] <= po[g.entry] then po[g.entry] - po[x] else 0
  {
    hide Anc;
    if x == g.entry { DominatesEntry(g, b); }
    TreeFactsOf(g, po, t, x);
    LinkDominates(g, po, t, x);
    if t[x] == b {
      c := x;
    } else {
      c := ChildAbove(g, po, t, b, t[x]);
      DominatesTrans(g, po, t, c, t[x], x);
    }
  }

  lemma UnderSome(g: Graph, po: map<Block, nat>, t: Links, ch: map<Block, set<Block>>, b: Block, x: Block)
    requires IsDomTree(g, po, t) && IsTreeSucc(g, ch) && b in ch && x in g.blocks && g.StrictlyDominates(b, x)
    ensures x in UnderAny(g, ch[b])
  {
    hide IsDomTree;
    var c := ChildAbove(g, po, t, b, x);
    assert c in ch[b];
  }

  lemma UnderParent(g: Graph, po: map<Block, nat>, t: Links, b: Block, c: Block, x: Block)
    requires IsDomTree(g, po, t) && x in g.blocks && c in g.blocks && g.Dominates(b, c) && g.Dominates(c, x)
    ensures g.Dominates(b, x)
  {
    hide Anc, Tree;
    InTree(g, po, t, x);
    InTree(g, po, t, c);
    DominatesTrans(g, po, t, b, c, x);
  }

  lemma SubtreeSplit(g: Graph, po: map<Block, nat>, t: Links, ch: map<Block, set<Block>>, b: Block)
    requires IsDomTree(g, po, t) && IsTreeSucc(g, ch) && b in g.blocks
    ensures b in ch && ch[b] <= Elements(g.blocks)
    ensures Subtree(g, b) == {b} + UnderAny(g, ch[b])
  {
    hide IsDomTree;
    forall x | x in g.blocks && g.Dominates(b, x) && x != b ensures x in UnderAny(g, ch[b]) {
      UnderSome(g, po, t, ch, b, x);
    }
    forall x, c | x in g.blocks && c in ch[b] && g.Dominates(c, x) ensures g.Dominates(b, x) {
      UnderParent(g, po, t, b, c, x);
    }
  }

  lemma InTree(g: Graph, po: map<Block, nat>, t: Links, b: Block)
    requires IsDomTree(g, po, t) && b in g.blocks
    ensures b in t && b in po
  {
  }

  // The subtrees of two children do not meet, and neither holds the parent.
  lemma ChildrenApart(g: Graph, po: map<Block, nat>, t: Links, b: Block, c1: Block, c2: Block)
    requires IsDomTree(g, po, t) && c1 in g.blocks && c2 in g.blocks && c1 != c2
    requires g.ImmediateDominator(b, c1) && g.ImmediateDominator(b, c2)
    ensures Subtree(g, c1) !! Subtree(g, c2)
  {
    hide Tree;
    forall x | x in g.blocks && g.Dominates(c1, x) ensures !g.Dominates(c2, x) {
      if g.Dominates(c2, x) { SameChild(g, po, t, b, c1, c2, x); }
    }
  }

  lemma {:induction false} SameChild(g: Graph, po: map<Block, nat>, t: Links, b: Block, c1: Block, c2: Block, x: Block)
    requires IsDomTree(g, po, t) && c1 in g.blocks && c2 in g.blocks && x in g.blocks
    requires g.ImmediateDominator(b, c1) && g.ImmediateDominator(b, c2) && g.Dominates(c1, x) && g.Dominates(c2, x)
    ensures c1 == c2
  {
    assert c1 in Anc(g, po, t, x) && c2 in Anc(g, po, t, x);
    InTree(g, po, t, c1);
    InTree(g, po, t, c2);
    if po[c1] <= po[c2] {
      AncChain(g, po, t, c1, c2, x);
      ChildOfChild(g, po, t, b, c2, c1);
    } else {
      AncChain(g, po, t, c2, c1, x);
      ChildOfChild(g, po, t, b, c1, c2);
    }
  }

  lemma ChildOfChild(g: Graph, po: map<Block, nat>, t: Links, b: Block, c: Block, d: Block)
    requires IsDomTree(g, po, t) && c in g.blocks
    requires g.ImmediateDominator(b, c) && g.ImmediateDominator(b, d) && g.Dominates(c, d)
    ensures c == d
  {
    hide Tree, Anc;
    InTree(g, po, t, c);
    if g.Dominates(c, b) { AncChainAntisymmetric(g, po, t, b, c); }
  }

  lemma ParentApart(g: Graph, po: map<Block, nat>, t: Links, b: Block, c: Block)
    requires IsDomTree(g, po, t) && c in g.blocks && g.ImmediateDominator(b, c)
    ensures b !in Subtree(g, c)
  {
    hide Tree, Anc;
    InTree(g, po, t, c);
    if g.Dominates(c, b) { AncChainAntisymmetric(g, po, t, b, c); }
  }

  // Below a child, nothing is below the parent alone or below another child.
  lemma {:induction false} ChildApart(g: Graph, po: map<Block, nat>, t: Links, ch: map<Block, set<Block>>, b: Block,
      c: Block, rest: set<Block>)
    requires IsDomTree(g, po, t) && IsTreeSucc(g, ch) && b in g.blocks && b in ch && c in rest && rest <= ch[b]
    ensures {b} + UnderAny(g, ch[b] - rest) !! Subtree(g, c) && Subtree(g, c) <= Subtree(g, b)
  {
    hide IsDomTree;
    SubtreeSplit(g, po, t, ch, b);
    ParentApart(g, po, t, b, c);
    forall x | x in Subtree(g, c) ensures x in Subtree(g, b) && x !in UnderAny(g, ch[b] - rest) {
      assert x in UnderAny(g, ch[b]);
      forall d | d in ch[b] - rest ensures !g.Dominates(d, x) {
        ChildrenApart(g, po, t, b, d, c);
        assert x in g.blocks && (g.Dominates(d, x) ==> x in Subtree(g, d));
      }
    }
  }

  lemma NothingUnder(g: Graph)
    ensures UnderAny(g, {}) == {}
  {
  }

  lemma UnderOneMore(g: Graph, cs: set<Block>, rest: set<Block>, c: Block)
    requires c in rest && rest <= cs
    ensures UnderAny(g, cs - rest) + Subtree(g, c) == UnderAny(g, cs - (rest - {c}))
  {
    forall x | x in g.blocks
      ensures x in UnderAny(g, cs - (rest - {c})) <==> x in UnderAny(g, cs - rest) || g.Dominates(c, x)
    {
      assert cs - (rest - {c}) == (cs - rest) + {c};
    }
  }

  ghost function NumberOf(po: map<Block, nat>, b: Block): nat {
    if b in po then po[b] else 0
  }

  // ---- Walks ----

  // Blocks are entered once, and after everything that dominates them.
  ghost predicate TopDown(g: Graph, order: seq<Block>) {
    forall k {:trigger order[k]} :: 0 <= k < |order| ==>
      order[k] !in order[..k] && forall d :: g.StrictlyDominates(d, order[k]) ==> d in order[..k]
  }

  // What is entered after a block but before something below it is below it, too.
  ghost predicate Nested(g: Graph, order: seq<Block>) {
    forall k {:trigger order[k]} :: 0 <= k < |order| ==> OpenAt(g, order[..k], order[k])
  }

  // Everything entered since a block above b is below that block.
  ghost predicate OpenAt(g: Graph, order: seq<Block>, b: Block) {
    forall i, j {:trigger order[i], order[j]} :: 0 <= i < j < |order| && g.Dominates(order[i], b) ==>
      g.Dominates(order[i], order[j])
  }

  // Depth first.
  ghost predicate Walk(g: Graph, order: seq<Block>) {
    TopDown(g, order) && Nested(g, order)
  }

  ghost predicate Below(g: Graph, order: seq<Block>, from: nat, b: Block) {
    forall j {:trigger order[j]} :: from <= j < |order| ==> order[j] in Subtree(g, b)
  }

  lemma WalkNext(g: Graph, order: seq<Block>, b: Block, longer: seq<Block>)
    requires Walk(g, order) && OpenAt(g, order, b) && (forall d :: g.StrictlyDominates(d, b) ==> d in order)
    requires b !in order && longer == order + [b]
    ensures Walk(g, longer)
  {
    hide OpenAt;
    forall k | 0 <= k < |longer|
      ensures longer[k] !in longer[..k] && OpenAt(g, longer[..k], longer[k])
      ensures forall d :: g.StrictlyDominates(d, longer[k]) ==> d in longer[..k]
    {
      if k < |order| {
        assert longer[..k] == order[..k] && longer[k] == order[k];
      } else {
        assert longer[..k] == order;
      }
    }
  }

  // A child of b can be entered whenever only blocks below b have been entered since b.
  lemma {:induction false} ChildOpen(g: Graph, po: map<Block, nat>, t: Links, order0: seq<Block>, order: seq<Block>,
      b: Block, c: Block)
    requires IsDomTree(g, po, t) && OpenAt(g, order0, b) && order0 + [b] <= order && Below(g, order, |order0|, b)
    requires b in g.blocks && c !in order && g.ImmediateDominator(b, c)
    ensures OpenAt(g, order, c)
  {
    hide IsDomTree;
    forall i, j | 0 <= i < j < |order| && g.Dominates(order[i], c) ensures g.Dominates(order[i], order[j]) {
      assert g.StrictlyDominates(order[i], c);
      if j < |order0| {
        assert order[i] == order0[i] && order[j] == order0[j];
      } else {
        assert order[j] in Subtree(g, b);
        InTree(g, po, t, b); InTree(g, po, t, order[j]);
        DominatesTrans(g, po, t, order[i], b, order[j]);
      }
    }
  }

  lemma {:induction false} BelowChild(g: Graph, po: map<Block, nat>, t: Links, b: Block, c: Block, from: nat,
      order2: seq<Block>, order: seq<Block>)
    requires IsDomTree(g, po, t) && order2 <= order && from <= |order2| && Below(g, order2, from, b) &&
      Below(g, order, |order2|, c)
    requires c in g.blocks && g.Dominates(b, c)
    ensures Below(g, order, from, b)
  {
    hide IsDomTree;
    forall j | from <= j < |order| ensures order[j] in Subtree(g, b) {
      if j < |order2| {
        assert order[j] == order2[j];
      } else {
        assert order[j] in Subtree(g, c);
        UnderParent(g, po, t, b, c, order[j]);
      }
    }
  }

  // ---- The walk that enters a given block as early as it can ----

  // What is entered before x dominates it.
  ghost predicate Direct(g: Graph, order: seq<Block>, x: Block) {
    forall i, j {:trigger order[i], order[j]} :: 0 <= i < j < |order| && order[j] == x ==> g.Dominates(order[i], x)
  }

  ghost predicate AllAbove(g: Graph, order: seq<Block>, x: Block) {
    forall i {:trigger order[i]} :: 0 <= i < |order| ==> g.Dominates(order[i], x)
  }

  // The walk can go on with b and with everything below it.
  ghost predicate CanEnter(g: Graph, order: seq<Block>, b: Block, x: Block) {
    && b in g.blocks && Walk(g, order) && OpenAt(g, order, b) && (forall d :: g.StrictlyDominates(d, b) ==> d in order)
    && Elements(order) !! Subtree(g, b) && Direct(g, order, x) && (x in Subtree(g, b) ==> AllAbove(g, order, x))
  }

  // And has done so.
  ghost predicate HasEntered(g: Graph, order0: seq<Block>, order: seq<Block>, b: Block, x: Block) {
    && order0 <= order && Walk(g, order) && Below(g, order, |order0|, b)
    && Elements(order) == Elements(order0) + Subtree(g, b) && Direct(g, order, x)
  }

  // In the middle: b, and what is below some of its children.
  ghost predicate Entering(g: Graph, ch: map<Block, set<Block>>, order0: seq<Block>, order: seq<Block>, b: Block,
      rest: set<Block>, x: Block) {
    && b in g.blocks && b in ch && rest <= ch[b] && order0 + [b] <= order && Walk(g, order) &&
         Below(g, order, |order0|, b)
    && Elements(order) == Elements(order0) + {b} + UnderAny(g, ch[b] - rest)
    && Direct(g, order, x) && (x in UnderAny(g, rest) ==> AllAbove(g, order, x))
  }

  lemma {:induction false} WalkTowards(g: Graph, po: map<Block, nat>, t: Links, ch: map<Block, set<Block>>,
      order0: seq<Block>, b: Block, x: Block)
    returns (order: seq<Block>)
    requires IsDomTree(g, po, t) && IsTreeSucc(g, ch) && CanEnter(g, order0, b, x)
    ensures HasEntered(g, order0, order, b, x)
    decreases NumberOf(po, b), 1, ch.Keys
  {
    hide *;
    EnterBlock(g, po, t, ch, order0, b, x);
    order := WalkChildren(g, po, t, ch, order0, order0 + [b], b, ch[b], x);
  }

  lemma {:induction false} WalkChildren(g: Graph, po: map<Block, nat>, t: Links, ch: map<Block, set<Block>>,
      order0: seq<Block>, order1: seq<Block>, b: Block, rest: set<Block>, x: Block) returns (order: seq<Block>)
    requires IsDomTree(g, po, t) && IsTreeSucc(g, ch) && CanEnter(g, order0, b, x) &&
      Entering(g, ch, order0, order1, b, rest, x)
    ensures HasEntered(g, order0, order, b, x)
    decreases NumberOf(po, b), 0, rest
  {
    hide *;
    if rest == {} {
      order := order1;
      AllEntered(g, po, t, ch, order0, order1, b, x);
    } else {
      var c := NextChild(g, rest, x);
      ChildNext(g, po, t, ch, order0, order1, b, rest, c, x);
      var order2 := WalkTowards(g, po, t, ch, order1, c, x);
      ChildBehind(g, po, t, ch, order0, order1, order2, b, rest, c, x);
      order := WalkChildren(g, po, t, ch, order0, order2, b, rest - {c}, x);
    }
  }

  lemma {:induction false} EnterBlock(g: Graph, po: map<Block, nat>, t: Links, ch: map<Block, set<Block>>,
      order0: seq<Block>, b: Block, x: Block)
    requires IsDomTree(g, po, t) && IsTreeSucc(g, ch) && CanEnter(g, order0, b, x)
    ensures b in ch && Entering(g, ch, order0, order0 + [b], b, ch[b], x)
  {
    hide IsDomTree, IsTreeSucc, Walk, OpenAt;
    SubtreeSplit(g, po, t, ch, b);
    assert b in Subtree(g, b);
    WalkNext(g, order0, b, order0 + [b]);
    assert ch[b] - ch[b] == {};
    NothingUnder(g);
  }

  lemma {:induction false} AllEntered(g: Graph, po: map<Block, nat>, t: Links, ch: map<Block, set<Block>>,
      order0: seq<Block>, order: seq<Block>, b: Block, x: Block)
    requires IsDomTree(g, po, t) && IsTreeSucc(g, ch) && Entering(g, ch, order0, order, b, {}, x)
    ensures HasEntered(g, order0, order, b, x)
  {
    hide IsDomTree, IsTreeSucc, Walk, Below, Direct, AllAbove, UnderAny;
    SubtreeSplit(g, po, t, ch, b);
    assert ch[b] - {} == ch[b];
  }

  // The child above x, if there is one.
  lemma NextChild(g: Graph, rest: set<Block>, x: Block) returns (c: Block)
    requires rest != {}
    ensures c in rest && (x in UnderAny(g, rest) ==> g.Dominates(c, x))
  {
    if x in UnderAny(g, rest) {
      c :| c in rest && g.Dominates(c, x);
    } else {
      c :| c in rest;
    }
  }

  lemma {:induction false} ChildNext(g: Graph, po: map<Block, nat>, t: Links, ch: map<Block, set<Block>>,
      order0: seq<Block>, order: seq<Block>, b: Block, rest: set<Block>, c: Block, x: Block)
    requires IsDomTree(g, po, t) && IsTreeSucc(g, ch) && CanEnter(g, order0, b, x) &&
      Entering(g, ch, order0, order, b, rest, x) && c in rest
    ensures CanEnter(g, order, c, x) && NumberOf(po, c) < NumberOf(po, b)
  {
    hide IsDomTree, Walk, OpenAt, Below, Direct, AllAbove;
    ChildApart(g, po, t, ch, b, c, rest);
    assert g.ImmediateDominator(b, c) && c in g.blocks && c in Subtree(g, c);
    InTree(g, po, t, c);
    StrictRises(g, po, t, b, c);
    assert c in Subtree(g, b) && c !in Elements(order);
    ChildOpen(g, po, t, order0, order, b, c);
    forall d | g.StrictlyDominates(d, c) ensures d in order {
      assert d == b || g.StrictlyDominates(d, b);
      assert d in Elements(order0) + {b};
    }
  }

  lemma {:induction false} ChildBehind(g: Graph, po: map<Block, nat>, t: Links, ch: map<Block, set<Block>>,
      order0: seq<Block>, order1: seq<Block>, order2: seq<Block>, b: Block, rest: set<Block>, c: Block, x: Block)
    requires IsDomTree(g, po, t) && IsTreeSucc(g, ch) && Entering(g, ch, order0, order1, b, rest, x) && c in rest
    requires (x in UnderAny(g, rest) ==> g.Dominates(c, x)) && HasEntered(g, order1, order2, c, x)
    ensures Entering(g, ch, order0, order2, b, rest - {c}, x)
  {
    hide IsDomTree, Walk, OpenAt, Below, Direct, AllAbove;
    assert g.ImmediateDominator(b, c) && c in g.blocks;
    BelowChild(g, po, t, b, c, |order0|, order1, order2);
    UnderOneMore(g, ch[b], rest, c);
    forall d | d in rest - {c} && x in g.blocks ensures !g.Dominates(d, x) {
      assert d in ch[b] && g.ImmediateDominator(b, d);
      if g.Dominates(d, x) {
        assert x in UnderAny(g, rest);
        SameChild(g, po, t, b, c, d, x);
      }
    }
  }

  // A walk through the whole tree that enters only dominators of x before x.
  lemma DirectWalk(g: Graph, po: map<Block, nat>, t: Links, x: Block) returns (order: seq<Block>)
    requires IsDomTree(g, po, t) && x in g.blocks
    ensures Walk(g, order) && Elements(order) == Elements(g.blocks) && Direct(g, order, x)
  {
    hide IsDomTree;
    var ch := map b | b in Elements(g.blocks) :: set c | c in g.blocks && g.ImmediateDominator(b, c);
    EntryFirst(g, po, t, x);
    order := WalkTowards(g, po, t, ch, [], g.entry, x);
    AllBelowEntry(g);
  }

  lemma EntryFirst(g: Graph, po: map<Block, nat>, t: Links, x: Block)
    requires IsDomTree(g, po, t)
    ensures CanEnter(g, [], g.entry, x)
  {
    hide Tree, Anc;
    forall d ensures !g.StrictlyDominates(d, g.entry) {
      if g.StrictlyDominates(d, g.entry) { DominatesEntry(g, d); }
    }
  }

  lemma AllBelowEntry(g: Graph)
    ensures Subtree(g, g.entry) == Elements(g.blocks)
  {
    forall b, p | g.PathTo(p, b) ensures g.entry in p {
      assert p[0] == g.entry;
    }
  }
}
