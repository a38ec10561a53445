/** The tree that the `idom_` links form at any moment of the iteration, and the
    facts about it that make the iteration correct and terminating. A block with
    no key in the link map is one whose link is still null. */
module DomTree {
  import opened Cfg

  // Post-order numbers: largest at the entry, and every other block has a predecessor
  // with a larger number.
  ghost predicate Numbering(g: Graph, po: map<Block, nat>) {
    && po.Keys == Elements(g.blocks)
    && g.entry in po
    && (forall b :: b in po && b != g.entry ==> po[b] < po[g.entry])
    && forall b {:trigger HasForward(g, po, b)} :: b in po && b != g.entry ==> HasForward(g, po, b)
  }

  ghost predicate HasForward(g: Graph, po: map<Block, nat>, b: Block)
    requires b in po
  {
    exists p :: p in po && Forward(g, po, p, b)
  }

  ghost predicate Forward(g: Graph, po: map<Block, nat>, p: Block, b: Block)
    requires p in po && b in po
  {
    g.Edge(p, b) && po[b] < po[p]
  }

  ghost predicate Injective(po: map<Block, nat>) {
    forall a, b :: a in po && b in po && po[a] == po[b] ==> a == b
  }

  type Links = map<Block, Block>

  // Post-order numbers strictly increase along the links, up to the entry.
  ghost predicate Tree(g: Graph, po: map<Block, nat>, t: Links) {
    && Numbering(g, po)
    && g.entry in t && t[g.entry] == g.entry
    && t.Keys <= po.Keys
    && forall b {:trigger Climbs(g, po, t, b)} :: b in t && b != g.entry ==> Climbs(g, po, t, b)
  }

  // The link of b is a block higher up.
  ghost predicate Climbs(g: Graph, po: map<Block, nat>, t: Links, b: Block)
    requires b in t && b in po
  {
    t[b] in t && t[b] in po && po[b] < po[t[b]]
  }

  // The blocks on the climb from b to the entry, b and the entry included.
  ghost function Anc(g: Graph, po: map<Block, nat>, t: Links, b: Block): (r: set<Block>)
    requires Tree(g, po, t) && b in t
    ensures b in r && (b != g.entry ==> Climbs(g, po, t, b))
    decreases po[g.entry] - po[b]
  {
    if b == g.entry then {b} else assert Climbs(g, po, t, b); {b} + Anc(g, po, t, t[b])
  }

  // ---- Climbing ----

  lemma {:induction false} AncShape(g: Graph, po: map<Block, nat>, t: Links, b: Block)
    requires Tree(g, po, t) && b in t
    ensures b in Anc(g, po, t, b) && g.entry in Anc(g, po, t, b)
    ensures forall a :: a in Anc(g, po, t, b) ==> a in t && (a == b || po[b] < po[a])
    decreases po[g.entry] - po[b]
  {
    assert b == g.entry || Climbs(g, po, t, b);
    if b != g.entry { AncShape(g, po, t, t[b]); }
  }

  lemma {:induction false} AncTransitive(g: Graph, po: map<Block, nat>, t: Links, a: Block, b: Block)
    requires Tree(g, po, t) && b in t && a in Anc(g, po, t, b)
    ensures a in t && Anc(g, po, t, a) <= Anc(g, po, t, b)
    decreases po[g.entry] - po[b]
  {
    if a != b { AncTransitive(g, po, t, a, t[b]); }
  }

  // Two ancestors of one block: the one with the larger number is above the other.
  lemma {:induction false} AncChain(g: Graph, po: map<Block, nat>, t: Links, a: Block, c: Block, b: Block)
    requires Tree(g, po, t) && b in t
    requires a in Anc(g, po, t, b) && c in Anc(g, po, t, b) && c in po && a in po && po[a] <= po[c]
    ensures a in t && c in Anc(g, po, t, a)
    decreases po[g.entry] - po[b]
  {
    AncShape(g, po, t, b);
    if a != b {
      AncShape(g, po, t, t[b]);
      AncChain(g, po, t, a, c, t[b]);
    }
  }

  // Maps that agree above b give b the same climb.
  lemma {:induction false} AncAgree(g: Graph, po: map<Block, nat>, t: Links, u: Links, b: Block)
    requires Tree(g, po, t) && Tree(g, po, u) && b in t
    requires forall a :: a in t && po[b] <= po[a] ==> a in u && u[a] == t[a]
    ensures b in u && Anc(g, po, t, b) == Anc(g, po, u, b)
    decreases po[g.entry] - po[b]
  {
    assert b == g.entry || Climbs(g, po, t, b);
    if b != g.entry { AncAgree(g, po, t, u, t[b]); }
  }

  // ---- The value one visit assigns ----

  // r is the lowest common ancestor of the predecessors of b that have a link.
  ghost predicate Meet(g: Graph, po: map<Block, nat>, t: Links, b: Block, r: Block)
    requires Tree(g, po, t) && b in g.pred
  {
    && r in t
    && forall x {:trigger MeetHas(g, po, t, b, x)} {:trigger x in Anc(g, po, t, r)} ::
      x in Anc(g, po, t, r) <==> x in po && MeetHas(g, po, t, b, x)
  }

  ghost predicate MeetHas(g: Graph, po: map<Block, nat>, t: Links, b: Block, x: Block)
    requires Tree(g, po, t) && b in g.pred
  {
    forall p :: p in g.pred[b] && p in t ==> x in Anc(g, po, t, p)
  }

  // ---- Paths whose numbers fall: they tie the tree to the graph ----

  ghost predicate Falls(g: Graph, po: map<Block, nat>, a: Block, b: Block)
    requires Numbering(g, po) && b in po
    decreases po[g.entry] - po[b]
  {
    a == b ||
      (b != g.entry && exists p {:trigger Falls(g, po, a, p)} :: p in po && Forward(g, po, p, b) && Falls(g, po, a, p))
  }

  lemma {:induction false} FallsTrans(g: Graph, po: map<Block, nat>, a: Block, b: Block, c: Block)
    requires Numbering(g, po) && b in po && c in po && Falls(g, po, a, b) && Falls(g, po, b, c)
    ensures Falls(g, po, a, c)
    decreases po[g.entry] - po[c]
  {
    if b != c {
      var p :| p in po && Forward(g, po, p, c) && Falls(g, po, b, p);
      FallsTrans(g, po, a, b, p);
    }
  }

  // Every link is witnessed by a falling path.
  ghost predicate Witnessed(g: Graph, po: map<Block, nat>, t: Links)
    requires Tree(g, po, t)
  {
    forall b {:trigger t[b]} :: b in t ==> Falls(g, po, t[b], b)
  }

  lemma {:induction false} AncFalls(g: Graph, po: map<Block, nat>, t: Links, a: Block, b: Block)
    requires Tree(g, po, t) && Witnessed(g, po, t) && b in t && a in Anc(g, po, t, b)
    ensures Falls(g, po, a, b)
    decreases po[g.entry] - po[b]
  {
    if a != b {
      AncFalls(g, po, t, a, t[b]);
      FallsTrans(g, po, a, t[b], b);
    }
  }

  // A dominator numbered above a is not on a falling path from a, so it dominates a.
  lemma {:induction false} DominatesAcrossFall(g: Graph, po: map<Block, nat>, d: Block, a: Block, b: Block)
    requires Numbering(g, po) && a in po && b in po && d in po
    requires Falls(g, po, a, b) && g.Dominates(d, b) && po[a] < po[d]
    ensures g.Dominates(d, a)
    decreases po[g.entry] - po[b]
  {
    if a != b {
      var p :| p in po && Forward(g, po, p, b) && Falls(g, po, a, p);
      FallsRises(g, po, a, b);
      DominatesPred(g, d, p, b);
      DominatesAcrossFall(g, po, d, a, p);
    }
  }

  lemma {:induction false} FallsRises(g: Graph, po: map<Block, nat>, a: Block, b: Block)
    requires Numbering(g, po) && a in po && b in po && Falls(g, po, a, b)
    ensures po[b] <= po[a]
    decreases po[g.entry] - po[b]
  {
    if a != b {
      var p :| p in po && Forward(g, po, p, b) && Falls(g, po, a, p);
      FallsRises(g, po, a, p);
    }
  }

  // ---- Completeness: no dominator is ever lost ----

  ghost predicate Complete(g: Graph, po: map<Block, nat>, t: Links)
    requires Tree(g, po, t)
  {
    forall b, d :: b in t && g.Dominates(d, b) ==> d in Anc(g, po, t, b)
  }

  // Every block numbered k and above has a link.
  ghost predicate Linked(po: map<Block, nat>, t: Links, k: nat) {
    forall y :: y in po && k <= po[y] ==> y in t
  }

  // What one visit of b stores: r is above b and is the meet of the linked predecessors.
  ghost predicate Visit(g: Graph, po: map<Block, nat>, t: Links, b: Block, r: Block)
  {
    && g.Valid() && Tree(g, po, t) && b in po && b != g.entry
    && Meet(g, po, t, b, r) && po[b] < po[r]
  }

  // The forward predecessor every block has is linked, so the meet is above b.
  lemma {:induction false} MeetAbove(g: Graph, po: map<Block, nat>, t: Links, b: Block, r: Block)
    requires g.Valid() && Tree(g, po, t) && b in po && b != g.entry
    requires Linked(po, t, po[b] + 1)
    requires Meet(g, po, t, b, r)
    requires Witnessed(g, po, t)
    ensures Visit(g, po, t, b, r)
    ensures Falls(g, po, r, b)
  {
    assert HasForward(g, po, b);
    var p :| p in po && Forward(g, po, p, b);
    AncShape(g, po, t, r);
    AncShape(g, po, t, p);
    assert p in g.pred[b] && p in t;
    assert MeetHas(g, po, t, b, r);
    AncFalls(g, po, t, r, p);
    assert Falls(g, po, p, p);
    FallsTrans(g, po, r, p, b);
  }

  lemma VisitTree(g: Graph, po: map<Block, nat>, t: Links, b: Block, r: Block)
    requires Visit(g, po, t, b, r)
    ensures Tree(g, po, t[b := r])
  {
    var u := t[b := r];
    forall x | x in u && x != g.entry ensures Climbs(g, po, u, x) {
      assert x == b || Climbs(g, po, t, x);
    }
  }

  lemma VisitAnc(g: Graph, po: map<Block, nat>, t: Links, b: Block, r: Block, x: Block)
    requires Visit(g, po, t, b, r) && Tree(g, po, t[b := r])
    requires x in t && po[b] < po[x]
    ensures Anc(g, po, t[b := r], x) == Anc(g, po, t, x)
  {
    AncAgree(g, po, t, t[b := r], x);
  }

  lemma VisitAncSelf(g: Graph, po: map<Block, nat>, t: Links, b: Block, r: Block)
    requires Visit(g, po, t, b, r) && Tree(g, po, t[b := r])
    ensures Anc(g, po, t[b := r], b) == {b} + Anc(g, po, t, r)
  {
    VisitAnc(g, po, t, b, r, r);
  }

  // The dominators of b survive a visit of b ...
  lemma MeetKeepsDominators(g: Graph, po: map<Block, nat>, t: Links, b: Block, r: Block, d: Block)
    requires Visit(g, po, t, b, r) && Complete(g, po, t)
    requires g.Dominates(d, b) && d != b && d in po
    ensures d in Anc(g, po, t, r)
  {
    forall p | p in g.pred[b] && p in t ensures d in Anc(g, po, t, p) {
      DominatesPred(g, d, p, b);
    }
    assert MeetHas(g, po, t, b, d);
  }

  lemma DominatorsAreBlocks(g: Graph, b: Block, d: Block)
    requires g.WellFormed() && b in g.blocks && g.Dominates(d, b)
    ensures d in g.blocks
  {
    var p :| g.PathTo(p, b);
    var i :| 0 <= i < |p| && p[i] == d;
    if i > 0 { PathStep(g, p, i - 1); }
  }

  // ... and so do those of every block below b: a dominator of x is its link or dominates it.
  lemma DominatesLink(g: Graph, po: map<Block, nat>, t: Links, x: Block, d: Block)
    requires g.WellFormed() && Tree(g, po, t) && Complete(g, po, t) && Witnessed(g, po, t)
    requires x in t && x != g.entry && d != x && g.Dominates(d, x)
    ensures d == t[x] || g.Dominates(d, t[x])
  {
    assert d in Anc(g, po, t, x) && Climbs(g, po, t, x);
    AncShape(g, po, t, t[x]);
    if d != t[x] { DominatesAcrossFall(g, po, d, t[x], x); }
  }

  lemma {:induction false} VisitCompleteAt(g: Graph, po: map<Block, nat>, t: Links, b: Block, r: Block, x: Block,
      d: Block)
    requires g.WellFormed() && Visit(g, po, t, b, r) && Complete(g, po, t) && Witnessed(g, po, t)
    requires Tree(g, po, t[b := r])
    requires x in t[b := r] && g.Dominates(d, x)
    ensures d in Anc(g, po, t[b := r], x)
    decreases po[g.entry] - po[x]
  {
    if x == b {
      VisitAncSelf(g, po, t, b, r);
      DominatorsAreBlocks(g, x, d);
      if d != b { MeetKeepsDominators(g, po, t, b, r, d); }
    } else if x == g.entry {
      DominatesEntry(g, d);
    } else if d != x {
      DominatesLink(g, po, t, x, d);
      if d == t[x] {
        AncShape(g, po, t[b := r], t[x]);
      } else {
        VisitCompleteAt(g, po, t, b, r, t[x], d);
      }
    }
  }

  // ---- Soundness: at a fixpoint every ancestor dominates ----

  ghost predicate Fixpoint(g: Graph, po: map<Block, nat>, t: Links)
    requires g.Valid() && Tree(g, po, t)
  {
    && t.Keys == po.Keys
    && forall b :: b in t && b != g.entry ==> Meet(g, po, t, b, t[b])
  }

  lemma PathPred(g: Graph, p: seq<Block>, b: Block) returns (q: Block)
    requires g.WellFormed() && g.PathTo(p, b) && b != g.entry
    ensures |p| > 1 && g.PathTo(p[..|p| - 1], q) && b in g.pred && q in g.pred[b] && q in g.blocks
  {
    q := p[|p| - 2];
    PathStep(g, p, |p| - 2);
    PathCut(g, p, |p| - 1);
  }

  lemma MeetOfPred(g: Graph, po: map<Block, nat>, t: Links, b: Block, d: Block, q: Block)
    requires g.Valid() && Tree(g, po, t) && Fixpoint(g, po, t)
    requires b in t && b != g.entry && d in Anc(g, po, t, b) && d != b && q in g.pred[b] && q in t
    ensures d in Anc(g, po, t, q)
  {
    AncShape(g, po, t, b);
    assert Meet(g, po, t, b, t[b]);
    assert MeetHas(g, po, t, b, d);
  }

  lemma {:induction false} FixpointOnPath(g: Graph, po: map<Block, nat>, t: Links, p: seq<Block>, b: Block, d: Block)
    requires g.WellFormed() && Tree(g, po, t) && Fixpoint(g, po, t)
    requires b in t && g.PathTo(p, b) && d in Anc(g, po, t, b)
    ensures d in p
    decreases |p|
  {
    if b == g.entry {
    } else if d != b {
      var q := PathPred(g, p, b);
      MeetOfPred(g, po, t, b, d, q);
      FixpointOnPath(g, po, t, p[..|p| - 1], q, d);
    }
  }

  // The tree and the dominance relation say the same.
  ghost predicate IsDomTree(g: Graph, po: map<Block, nat>, t: Links) {
    && g.WellFormed() && Tree(g, po, t) && t.Keys == po.Keys
    && forall b, d :: b in t ==> (d in Anc(g, po, t, b) <==> g.Dominates(d, b))
  }

  lemma FixpointIsDomTree(g: Graph, po: map<Block, nat>, t: Links)
    requires g.WellFormed() && Tree(g, po, t) && Fixpoint(g, po, t) && Complete(g, po, t)
    ensures IsDomTree(g, po, t)
  {
    forall b, d | b in t && d in Anc(g, po, t, b) ensures g.Dominates(d, b) {
      forall p | g.PathTo(p, b) ensures d in p {
        FixpointOnPath(g, po, t, p, b, d);
      }
    }
  }

  // In the path sense, the link of every block but the entry is its immediate dominator,
  // and nothing else is.
  lemma LinkIsImmediateDominator(g: Graph, po: map<Block, nat>, t: Links, b: Block, d: Block)
    requires IsDomTree(g, po, t) && b in g.blocks && b != g.entry
    ensures b in t && t[b] in t && (t[b] == d <==> g.ImmediateDominator(d, b))
  {
    assert Climbs(g, po, t, b);
    LinkDominates(g, po, t, b);
    if g.ImmediateDominator(d, b) {
      AncChainAntisymmetric(g, po, t, d, t[b]);
    }
  }

  lemma LinkDominates(g: Graph, po: map<Block, nat>, t: Links, b: Block)
    requires IsDomTree(g, po, t) && b in t && b != g.entry
    ensures g.ImmediateDominator(t[b], b)
  {
    AncShape(g, po, t, b);
    AncShape(g, po, t, t[b]);
    forall e | g.StrictlyDominates(e, b) ensures g.Dominates(e, t[b]) {
      assert e in Anc(g, po, t, b);
    }
  }

  lemma AncChainAntisymmetric(g: Graph, po: map<Block, nat>, t: Links, a: Block, b: Block)
    requires IsDomTree(g, po, t) && b in t
    requires g.Dominates(a, b) && g.Dominates(b, a)
    ensures a == b
  {
    assert a in Anc(g, po, t, b);
    AncShape(g, po, t, b);
    AncShape(g, po, t, a);
    assert b in Anc(g, po, t, a);
  }
}
