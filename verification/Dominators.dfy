/** The dominator analysis of one function: post-order numbering, the iteration
    for immediate dominators, dominance frontiers and the dominator-tree children. */
module Dominators {
  import opened Cfg
  import opened DomTree
  import opened Sweep
  import opened Frontier

  // ---- Numbering ----

  // The list holds the finished blocks in order, `po` their positions, and every
  // finished block is visited.
  ghost predicate Posted(g: Graph, list: seq<Block>, po: map<Block, nat>, visited: set<Block>) {
    && po.Keys == Elements(list)
    && (forall i :: 0 <= i < |list| ==> list[i] in po && po[list[i]] == i)
    && (forall b :: b in po ==> po[b] < |list| && list[po[b]] == b)
    && Elements(list) <= visited <= Elements(g.blocks)
    && (forall i {:trigger Descends(g, list, i)} :: 0 <= i < |list| ==> Descends(g, list, i))
  }

  // An edge out of a finished block leads to one finished before, or closes a cycle.
  ghost predicate Descends(g: Graph, list: seq<Block>, i: int)
    requires 0 <= i < |list|
  {
    forall b :: g.Edge(list[i], b) ==> b in list[..i] || g.Reaches(b, list[i])
  }

  // A block that has been visited and is not finished is on the way to bb.
  ghost predicate OnTheWay(g: Graph, list: seq<Block>, visited: set<Block>, bb: Block) {
    forall x :: x in visited && x !in list ==> g.Reaches(x, bb)
  }

  ghost predicate ParentLater(g: Graph, list: seq<Block>, i: int)
    requires 0 <= i < |list|
  {
    exists j :: i < j < |list| && g.Edge(list[j], list[i])
  }

  // What has grown from `first` on top of `visited` while bb is open: blocks not visited
  // before, closed under successors, each with a predecessor finished later, bb included.
  ghost predicate Open(g: Graph, first: seq<Block>, list: seq<Block>, visited: set<Block>, seen: set<Block>,
      bb: Block) {
    && first <= list
    && seen == visited + {bb} + Elements(list)
    && (forall i :: |first| <= i < |list| ==> list[i] !in visited && list[i] != bb)
    && (forall i {:trigger ParentLater(g, list, i)} :: |first| <= i < |list| ==>
         ParentLater(g, list, i) || g.Edge(bb, list[i]))
    && (forall i, b :: |first| <= i < |list| && g.Edge(list[i], b) ==> b in seen)
  }

  // The same once the visit of bb is over: bb is last.
  ghost predicate Closed(g: Graph, first: seq<Block>, list: seq<Block>, visited: set<Block>, seen: set<Block>,
      bb: Block) {
    && first < list && list[|list| - 1] == bb
    && seen == visited + Elements(list)
    && (forall i :: |first| <= i < |list| ==> list[i] !in visited)
    && (forall i {:trigger ParentLater(g, list, i)} :: |first| <= i < |list| - 1 ==> ParentLater(g, list, i))
    && (forall i, b :: |first| <= i < |list| && g.Edge(list[i], b) ==> b in seen)
  }

  function Reversed(s: seq<Block>): (r: seq<Block>)
    ensures |r| == |s| && forall i :: 0 <= i < |s| ==> r[i] == s[|s| - 1 - i]
  {
    if s == [] then [] else Reversed(s[1..]) + [s[0]]
  }

  // The list in the order the iteration walks it.
  ghost predicate FallingOrder(g: Graph, rpo: seq<Block>, po: map<Block, nat>) {
    && Numbering(g, po) && Injective(po)
    && |rpo| > 0 && rpo[0] == g.entry
    && (forall i :: 0 <= i < |rpo| ==> rpo[i] in po && po[rpo[i]] == |rpo| - 1 - i)
    && (forall b :: b in po ==> po[b] < |rpo| && rpo[|rpo| - 1 - po[b]] == b)
    && PostOrder(g, po)
  }

  // A post-order: an edge that does not lead to a smaller number closes a cycle.
  ghost predicate PostOrder(g: Graph, po: map<Block, nat>) {
    forall a, b :: g.Edge(a, b) && a in po && b in po && po[a] <= po[b] ==> g.Reaches(b, a)
  }

  // The initial value of the two set-valued maps.
  function EmptySets(g: Graph): (m: map<Block, set<Block>>)
    ensures m.Keys == Elements(g.blocks) && forall b :: b in m ==> m[b] == {}
  {
    map b | b in g.blocks :: {}
  }

  class Analysis {
    var reversePostOrder: seq<Block>
    var postOrderId: map<Block, nat>
    var idom: map<Block, Block>
    var frontier: map<Block, set<Block>>
    var treeSucc: map<Block, set<Block>>

    constructor ()
      ensures reversePostOrder == [] && postOrderId == map[] && idom == map[]
      ensures frontier == map[] && treeSucc == map[]
    {
      reversePostOrder, postOrderId, idom, frontier, treeSucc := [], map[], map[], map[], map[];
    }

    method CreateReversePostOrder(g: Graph)
      requires g.WellFormed()
      modifies this`reversePostOrder, this`postOrderId
      ensures FallingOrder(g, reversePostOrder, postOrderId)
    {
      reversePostOrder := [];
      postOrderId := map[];
      var visited := PostOrderVisit(g, g.entry, {});
      ghost var list := reversePostOrder;
      reversePostOrder := Reversed(reversePostOrder);
      NumbersEverything(g, list, postOrderId, visited);
      ReversedFalls(g, list, postOrderId, visited);
    }

    method PostOrderVisit(g: Graph, bb: Block, visited: set<Block>) returns (seen: set<Block>)
      requires g.Valid() && bb in g.blocks && bb !in visited
      requires Posted(g, reversePostOrder, postOrderId, visited) && OnTheWay(g, reversePostOrder, visited, bb)
      modifies this`reversePostOrder, this`postOrderId
      ensures Posted(g, reversePostOrder, postOrderId, seen)
      ensures Closed(g, old(reversePostOrder), reversePostOrder, visited, seen, bb)
      decreases Elements(g.blocks) - visited
    {
      hide Posted, Open, Closed, OnTheWay;
      seen := visited + {bb};
      OpenStart(g, reversePostOrder, postOrderId, visited, bb);
      var i := 0;
      while i < |g.succ[bb]|
        invariant 0 <= i <= |g.succ[bb]| && visited + {bb} <= seen
        invariant Posted(g, reversePostOrder, postOrderId, seen)
        invariant Open(g, old(reversePostOrder), reversePostOrder, visited, seen, bb)
        invariant forall j :: 0 <= j < i ==> g.succ[bb][j] in seen
      {
        var b := g.succ[bb][i];
        assert g.Edge(bb, b);
        if b !in seen {
          ghost var list, before := reversePostOrder, seen;
          ChildOnTheWay(g, old(reversePostOrder), list, visited, seen, bb, b);
          seen := PostOrderVisit(g, b, seen);
          ChildDone(g, old(reversePostOrder), list, reversePostOrder, visited, before, seen, bb, b);
        }
        i := i + 1;
      }
      VisitDone(g, old(reversePostOrder), reversePostOrder, postOrderId, visited, seen, bb);
      postOrderId := postOrderId[bb := |reversePostOrder|];
      reversePostOrder := reversePostOrder + [bb];
    }

    // ---- Immediate dominators ----

    method CreateIdom(g: Graph)
      requires g.WellFormed() && FallingOrder(g, reversePostOrder, postOrderId)
      modifies this`idom
      ensures IsDomTree(g, postOrderId, idom)
    {
      hide *;
      idom := map[g.entry := g.entry];
      OrderBounds(g, reversePostOrder, postOrderId);
      InitialSettled(g, postOrderId);
      SettledTree(g, postOrderId, idom, idom);
      ghost var prev := idom;
      var changed := true;
      while changed
        invariant Tree(g, postOrderId, idom) && Settled(g, postOrderId, idom, prev)
        invariant !changed ==> IsDomTree(g, postOrderId, idom)
        decreases changed, Total(g, postOrderId, idom, g.blocks)
      {
        ghost var before := idom;
        changed := SweepOnce(g, prev);
        prev := before;
      }
    }

    // One pass over the blocks in reverse post-order.
    method SweepOnce(g: Graph, ghost prev: Links) returns (changed: bool)
      requires FallingOrder(g, reversePostOrder, postOrderId)
      requires Tree(g, postOrderId, idom) && Settled(g, postOrderId, idom, prev)
      modifies this`idom
      ensures Tree(g, postOrderId, idom) && Settled(g, postOrderId, idom, old(idom))
      ensures !changed ==> IsDomTree(g, postOrderId, idom)
      ensures changed ==> Total(g, postOrderId, idom, g.blocks) < Total(g, postOrderId, old(idom), g.blocks)
    {
      hide *;
      changed := false;
      OrderBounds(g, reversePostOrder, postOrderId);
      SettledTree(g, postOrderId, idom, prev);
      SweepStart(g, reversePostOrder, postOrderId, idom, prev);
      var i := 0;
      ghost var k: nat := |reversePostOrder|;
      while i < |reversePostOrder|
        invariant 0 <= i <= |reversePostOrder| && k == |reversePostOrder| - i
        invariant Tree(g, postOrderId, idom) && Running(g, postOrderId, idom, old(idom), k)
        invariant Progress(g, postOrderId, old(idom), idom, changed)
      {
        var bb := reversePostOrder[i];
        ghost var below: nat := k - 1;
        OrderAt(g, reversePostOrder, postOrderId, i);
        if bb == g.entry {
          SkipEntry(g, postOrderId, idom, old(idom), k, below);
        } else {
          NewIdomReady(g, postOrderId, idom, old(idom), k);
          var newIdom := NewIdom(g, bb, k);
          VisitOnce(g, postOrderId, idom, old(idom), prev, bb, newIdom, k, below, changed);
          if bb !in idom || idom[bb] != newIdom {
            idom := idom[bb := newIdom];
            changed := true;
          } else {
            SameLinks(idom, bb);
          }
        }
        i := i + 1;
        k := below;
      }
      SweepEnd(g, postOrderId, idom, old(idom), prev, changed);
    }

    // What one visit of bb computes from its predecessors.
    method NewIdom(g: Graph, bb: Block, ghost above: nat) returns (newIdom: Block)
      requires g.Valid() && Tree(g, postOrderId, idom) && Injective(postOrderId) && Witnessed(g, postOrderId, idom)
      requires bb in postOrderId && bb != g.entry && above == postOrderId[bb] + 1 && Linked(postOrderId, idom, above)
      ensures Visit(g, postOrderId, idom, bb, newIdom) && Falls(g, postOrderId, newIdom, bb)
    {
      hide Tree, Witnessed, Visit, Falls, MeetUpTo, Meet;
      SomePredLinked(g, postOrderId, idom, bb);
      var k := 0;
      while g.pred[bb][k] !in idom
        invariant 0 <= k < |g.pred[bb]|
        invariant exists j :: k <= j < |g.pred[bb]| && g.pred[bb][j] in idom
        decreases |g.pred[bb]| - k
      {
        k := k + 1;
      }
      var pred := g.pred[bb][k];
      newIdom := pred;
      var i := 0;
      MeetOfOne(g, postOrderId, idom, bb, pred);
      while i < |g.pred[bb]|
        invariant 0 <= i <= |g.pred[bb]|
        invariant newIdom in idom && MeetUpTo(g, postOrderId, idom, bb, pred, i, newIdom)
      {
        var p := g.pred[bb][i];
        var last := newIdom;
        if p != pred && p in idom {
          newIdom := Intersect(g, p, newIdom);
        }
        MeetOneMore(g, postOrderId, idom, bb, pred, i, last, newIdom);
        i := i + 1;
      }
      MeetDone(g, postOrderId, idom, bb, pred, newIdom);
      MeetAbove(g, postOrderId, idom, bb, newIdom);
    }

    // The closest common ancestor of b1 and b2.
    method Intersect(ghost g: Graph, b1: Block, b2: Block) returns (r: Block)
      requires Tree(g, postOrderId, idom) && Injective(postOrderId)
      requires b1 in idom && b2 in idom
      ensures r in idom
      ensures Anc(g, postOrderId, idom, r) == Anc(g, postOrderId, idom, b1) * Anc(g, postOrderId, idom, b2)
    {
      hide Tree, Anc;
      var x, y := b1, b2;
      TreeKeys(g, postOrderId, idom);
      ghost var common := Anc(g, postOrderId, idom, b1) * Anc(g, postOrderId, idom, b2);
      while x != y
        invariant x in idom && y in idom
        invariant Anc(g, postOrderId, idom, x) * Anc(g, postOrderId, idom, y) == common
        decreases 2 * postOrderId[g.entry] - postOrderId[x] - postOrderId[y]
      {
        ghost var x0, y0 := x, y;
        while postOrderId[x] < postOrderId[y]
          invariant x in idom && (x == x0 || postOrderId[x0] < postOrderId[x])
          invariant Anc(g, postOrderId, idom, x) * Anc(g, postOrderId, idom, y) == common
          decreases postOrderId[g.entry] - postOrderId[x]
        {
          ClimbKeepsCommon(g, postOrderId, idom, x, y);
          x := idom[x];
        }
        while postOrderId[y] < postOrderId[x]
          invariant y in idom && (y == y0 || postOrderId[y0] < postOrderId[y])
          invariant Anc(g, postOrderId, idom, x) * Anc(g, postOrderId, idom, y) == common
          decreases postOrderId[g.entry] - postOrderId[y]
        {
          ClimbKeepsCommon(g, postOrderId, idom, y, x);
          y := idom[y];
        }
      }
      r := x;
    }

    // ---- Dominance frontiers and tree children ----

    method CreateDominanceFrontier(g: Graph)
      requires IsDomTree(g, postOrderId, idom)
      requires frontier == EmptySets(g)
      modifies this`frontier
      ensures IsFrontier(g, frontier)
    {
      hide *;
      DomTreeParts(g, postOrderId, idom);
      RecordStart(g, postOrderId, idom, frontier);
      var i := 0;
      while i < |g.blocks|
        invariant 0 <= i <= |g.blocks|
        invariant Recorded(g, postOrderId, idom, frontier, g.blocks[..i], g.entry, 0)
      {
        RecordNext(g, postOrderId, idom, frontier, g.blocks[..i], g.blocks[i]);
        if |g.pred[g.blocks[i]]| >= 2 {
          FrontierOf(g, g.blocks[i], g.blocks[..i]);
        } else {
          RecordSkip(g, postOrderId, idom, frontier, g.blocks[..i], g.blocks[i]);
        }
        i := i + 1;
        assert g.blocks[..i - 1] + [g.blocks[i - 1]] == g.blocks[..i];
      }
      assert g.blocks[..|g.blocks|] == g.blocks;
      RecordDone(g, postOrderId, idom, frontier);
    }

    // The predecessors of one block with at least two of them.
    method FrontierOf(g: Graph, bb: Block, ghost done: seq<Block>)
      requires IsDomTree(g, postOrderId, idom) && Tree(g, postOrderId, idom) && bb in g.blocks && bb in g.pred
      requires Recorded(g, postOrderId, idom, frontier, done, bb, 0)
      modifies this`frontier
      ensures Recorded(g, postOrderId, idom, frontier, done + [bb], g.entry, 0)
    {
      hide *;
      var k := 0;
      while k < |g.pred[bb]|
        invariant 0 <= k <= |g.pred[bb]|
        invariant Recorded(g, postOrderId, idom, frontier, done, bb, k)
      {
        ghost var df := frontier;
        FrontierKeys(g, postOrderId, idom, frontier, done, bb, k);
        ClimbFrom(g, g.pred[bb][k], bb);
        RecordPred(g, postOrderId, idom, df, frontier, done, bb, k);
        k := k + 1;
      }
      RecordBlock(g, postOrderId, idom, frontier, done, bb);
    }

    // The runner loop: from the predecessor p of bb up to bb's immediate dominator.
    method ClimbFrom(g: Graph, p: Block, bb: Block)
      requires IsDomTree(g, postOrderId, idom) && bb in g.pred && p in g.pred[bb]
      requires frontier.Keys == Elements(g.blocks)
      modifies this`frontier
      ensures Tree(g, postOrderId, idom)
      ensures Added(old(frontier), frontier, Climb(g, postOrderId, idom, p, bb), bb)
    {
      hide Tree, Runner, Added, Climb;
      var runner := p;
      RunnerStart(g, postOrderId, idom, frontier, p, bb);
      RunnerParts(g, postOrderId, idom, frontier, frontier, p, bb, runner);
      while runner != idom[bb]
        invariant bb in idom && runner in idom && runner in frontier && runner in postOrderId
        invariant g.entry in postOrderId && postOrderId[runner] <= postOrderId[g.entry]
        invariant Runner(g, postOrderId, idom, old(frontier), frontier, p, bb, runner)
        decreases postOrderId[g.entry] - postOrderId[runner]
      {
        RunnerStep(g, postOrderId, idom, old(frontier), frontier, p, bb, runner);
        frontier := frontier[runner := frontier[runner] + {bb}];
        runner := idom[runner];
        RunnerParts(g, postOrderId, idom, old(frontier), frontier, p, bb, runner);
      }
      RunnerDone(g, postOrderId, idom, old(frontier), frontier, p, bb);
    }

    method CreateDomTreeSucc(g: Graph)
      requires IsDomTree(g, postOrderId, idom)
      requires treeSucc == EmptySets(g)
      modifies this`treeSucc
      ensures IsTreeSucc(g, treeSucc)
    {
      hide IsDomTree, IsTreeSucc;
      var i := 0;
      while i < |g.blocks|
        invariant 0 <= i <= |g.blocks|
        invariant ChildrenOf(g, idom, treeSucc, g.blocks[..i])
      {
        var bb := g.blocks[i];
        LinkFacts(g, postOrderId, idom, bb);
        ChildStep(g, idom, treeSucc, g.blocks[..i], bb);
        assert g.blocks[..i] + [bb] == g.blocks[..i + 1];
        if idom[bb] != bb {
          treeSucc := treeSucc[idom[bb] := treeSucc[idom[bb]] + {bb}];
        }
        i := i + 1;
      }
      assert g.blocks[..|g.blocks|] == g.blocks;
      ChildrenDone(g, postOrderId, idom, treeSucc);
    }

    // The whole analysis of one function.
    method Run(g: Graph)
      requires g.WellFormed()
      modifies this
      ensures FallingOrder(g, reversePostOrder, postOrderId)
      ensures IsDomTree(g, postOrderId, idom)
      ensures IsFrontier(g, frontier)
      ensures IsTreeSucc(g, treeSucc)
    {
      hide *;
      frontier := EmptySets(g);
      treeSucc := EmptySets(g);
      CreateReversePostOrder(g);
      CreateIdom(g);
      CreateDominanceFrontier(g);
      CreateDomTreeSucc(g);
    }
  }

  lemma DomTreeParts(g: Graph, po: map<Block, nat>, t: Links)
    requires IsDomTree(g, po, t)
    ensures g.Valid() && Tree(g, po, t) && g.succ.Keys == g.pred.Keys == Elements(g.blocks)
    ensures forall b :: b in g.blocks ==> b in g.pred
  {
  }

  lemma {:induction false} RunnerParts(g: Graph, po: map<Block, nat>, t: Links, df: map<Block, set<Block>>,
      now: map<Block, set<Block>>, p: Block, y: Block, runner: Block)
    requires IsDomTree(g, po, t) && Runner(g, po, t, df, now, p, y, runner) && df.Keys == Elements(g.blocks)
    ensures y in t && runner in t && runner in po && g.entry in po && runner in now
    ensures po[runner] <= po[g.entry]
  {
  }

  lemma OrderBounds(g: Graph, rpo: seq<Block>, po: map<Block, nat>)
    requires FallingOrder(g, rpo, po)
    ensures Numbering(g, po) && Injective(po) && forall b :: b in po ==> po[b] < |rpo|
  {
  }

  lemma OrderAt(g: Graph, rpo: seq<Block>, po: map<Block, nat>, i: nat)
    requires FallingOrder(g, rpo, po) && i < |rpo|
    ensures rpo[i] in po && po[rpo[i]] == |rpo| - 1 - i
  {
  }

  lemma SameLinks(t: Links, b: Block)
    requires b in t
    ensures t[b := t[b]] == t
  {
  }

  lemma TreeKeys(g: Graph, po: map<Block, nat>, t: Links)
    requires Tree(g, po, t)
    ensures t.Keys <= po.Keys && g.entry in po && forall b :: b in po ==> po[b] <= po[g.entry]
  {
  }

  lemma ClimbKeepsCommon(g: Graph, po: map<Block, nat>, t: Links, x: Block, y: Block)
    requires Tree(g, po, t) && x in t && y in t && po[x] < po[y]
    ensures t[x] in t && po[x] < po[t[x]]
    ensures Anc(g, po, t, t[x]) * Anc(g, po, t, y) == Anc(g, po, t, x) * Anc(g, po, t, y)
    ensures Anc(g, po, t, y) * Anc(g, po, t, t[x]) == Anc(g, po, t, y) * Anc(g, po, t, x)
  {
    assert Climbs(g, po, t, x);
    AncShape(g, po, t, y);
  }

  // newIdom is the meet of pred and of the first k linked predecessors of b.
  ghost predicate MeetUpTo(g: Graph, po: map<Block, nat>, t: Links, b: Block, pred: Block, k: nat, r: Block)
    requires Tree(g, po, t) && b in g.pred && k <= |g.pred[b]| && r in t && pred in t
  {
    forall x {:trigger x in Anc(g, po, t, r)} {:trigger x in Anc(g, po, t, pred)} :: x in Anc(g, po, t, r) <==>
      x in Anc(g, po, t, pred) && forall j :: 0 <= j < k && g.pred[b][j] in t ==> x in Anc(g, po, t, g.pred[b][j])
  }

  lemma SomePredLinked(g: Graph, po: map<Block, nat>, t: Links, b: Block)
    requires g.Valid() && Tree(g, po, t) && b in po && b != g.entry && Linked(po, t, po[b] + 1)
    ensures b in g.pred && exists j :: 0 <= j < |g.pred[b]| && g.pred[b][j] in t
  {
    assert HasForward(g, po, b);
    var p :| p in po && Forward(g, po, p, b);
    assert p in g.pred[b] && p in t;
  }

  lemma MeetOfOne(g: Graph, po: map<Block, nat>, t: Links, b: Block, pred: Block)
    requires Tree(g, po, t) && b in g.pred && pred in t
    ensures MeetUpTo(g, po, t, b, pred, 0, pred)
  {
  }

  lemma {:induction false} MeetOneMore(g: Graph, po: map<Block, nat>, t: Links, b: Block, pred: Block, k: nat,
      last: Block, r: Block)
    requires Tree(g, po, t) && b in g.pred && k < |g.pred[b]| && last in t && r in t && pred in t
    requires MeetUpTo(g, po, t, b, pred, k, last)
    requires var p := g.pred[b][k];
             if p != pred && p in t then Anc(g, po, t, r) == Anc(g, po, t, p) * Anc(g, po, t, last) else r == last
    ensures MeetUpTo(g, po, t, b, pred, k + 1, r)
  {
  }

  lemma MeetDone(g: Graph, po: map<Block, nat>, t: Links, b: Block, pred: Block, r: Block)
    requires Tree(g, po, t) && b in g.pred && r in t && pred in t && pred in g.pred[b]
    requires MeetUpTo(g, po, t, b, pred, |g.pred[b]|, r)
    ensures Meet(g, po, t, b, r)
  {
    AncShape(g, po, t, r);
    forall x | x in po ensures x in Anc(g, po, t, r) <==> MeetHas(g, po, t, b, x) {
      if x in Anc(g, po, t, r) {
        forall p | p in g.pred[b] && p in t ensures x in Anc(g, po, t, p) {
          var j :| 0 <= j < |g.pred[b]| && g.pred[b][j] == p;
        }
      }
    }
  }

  lemma ElementsOfPrefix(list: seq<Block>, longer: seq<Block>)
    requires list <= longer
    ensures Elements(list) <= Elements(longer)
  {
    forall x | x in list ensures x in longer {
      var i :| 0 <= i < |list| && list[i] == x;
      assert longer[i] == x;
    }
  }

  lemma ParentStays(g: Graph, list: seq<Block>, longer: seq<Block>, i: int)
    requires 0 <= i < |list| && list <= longer && ParentLater(g, list, i)
    ensures ParentLater(g, longer, i)
  {
    var j :| i < j < |list| && g.Edge(list[j], list[i]);
    assert longer[j] == list[j] && longer[i] == list[i];
  }

  lemma OpenStart(g: Graph, list: seq<Block>, po: map<Block, nat>, visited: set<Block>, bb: Block)
    requires Posted(g, list, po, visited) && bb in g.blocks
    ensures Posted(g, list, po, visited + {bb}) && Open(g, list, list, visited, visited + {bb}, bb)
    ensures Elements(list) <= visited <= Elements(g.blocks)
  {
  }

  // Visiting the unvisited successor b of the open block bb leaves bb open.
  lemma {:induction false} ChildDone(g: Graph, first: seq<Block>, list: seq<Block>, longer: seq<Block>,
      visited: set<Block>, before: set<Block>, seen: set<Block>, bb: Block, b: Block)
    requires Open(g, first, list, visited, before, bb) && Closed(g, list, longer, before, seen, b) && g.Edge(bb, b)
    ensures Open(g, first, longer, visited, seen, bb) && before + {b} <= seen
  {
    ElementsOfPrefix(list, longer);
    forall i | |first| <= i < |longer| ensures ParentLater(g, longer, i) || g.Edge(bb, longer[i]) {
      if i < |list| {
        assert longer[i] == list[i];
        if ParentLater(g, list, i) { ParentStays(g, list, longer, i); }
      }
    }
    forall i | |first| <= i < |list| ensures longer[i] == list[i] {
    }
  }

  lemma {:induction false} VisitDone(g: Graph, first: seq<Block>, list: seq<Block>, po: map<Block, nat>,
      visited: set<Block>, seen: set<Block>, bb: Block)
    requires Open(g, first, list, visited, seen, bb) && Elements(first) <= visited && bb !in visited
    requires Posted(g, list, po, seen)
    requires (forall b :: g.Edge(bb, b) ==> b in seen) && OnTheWay(g, first, visited, bb)
    ensures Closed(g, first, list + [bb], visited, seen, bb)
    ensures Posted(g, list + [bb], po[bb := |list|], seen)
  {
    var longer := list + [bb];
    PostsOne(g, first, list, visited, seen, bb);
    StillOpen(g, first, list, visited, seen, bb);
    assert forall x :: x in longer <==> x in list || x == bb;
    forall i | |first| <= i < |list| ensures ParentLater(g, longer, i) {
      if ParentLater(g, list, i) {
        ParentStays(g, list, longer, i);
      } else {
        assert g.Edge(longer[|list|], longer[i]);
      }
    }
  }

  lemma PostsOne(g: Graph, first: seq<Block>, list: seq<Block>, visited: set<Block>, seen: set<Block>, bb: Block)
    requires Open(g, first, list, visited, seen, bb) && OnTheWay(g, first, visited, bb)
    requires forall b :: g.Edge(bb, b) ==> b in seen
    requires forall i {:trigger Descends(g, list, i)} :: 0 <= i < |list| ==> Descends(g, list, i)
    ensures forall i {:trigger Descends(g, list + [bb], i)} :: 0 <= i < |list| + 1 ==> Descends(g, list + [bb], i)
  {
    hide Graph.Reaches, Graph.Edge, ParentLater;
    var longer := list + [bb];
    ReachesItself(g, bb);
    ElementsOfPrefix(first, list);
    assert longer[..|list|] == list;
    forall i | 0 <= i < |longer| ensures Descends(g, longer, i) {
      if i < |list| { assert Descends(g, list, i) && longer[..i] == list[..i]; }
    }
  }

  lemma {:induction false} ChildOnTheWay(g: Graph, first: seq<Block>, list: seq<Block>, visited: set<Block>,
      seen: set<Block>, bb: Block, b: Block)
    requires Open(g, first, list, visited, seen, bb) && OnTheWay(g, first, visited, bb) && g.Edge(bb, b)
    ensures OnTheWay(g, list, seen, b)
  {
    hide Graph.Reaches, Graph.Edge, ParentLater;
    ReachesItself(g, bb);
    ElementsOfPrefix(first, list);
    forall x | x in seen && x !in list ensures g.Reaches(x, b) {
      assert x !in first by { assert x in first ==> x in Elements(first); }
      ReachesFurther(g, x, bb, b);
    }
  }

  lemma StillOpen(g: Graph, first: seq<Block>, list: seq<Block>, visited: set<Block>, seen: set<Block>, bb: Block)
    requires Open(g, first, list, visited, seen, bb) && Elements(first) <= visited && bb !in visited
    ensures bb !in list
  {
    forall i | 0 <= i < |list| ensures list[i] != bb {
      if i < |first| { assert list[i] == first[i]; }
    }
  }

  // The visit of the entry numbers every block, the entry highest.
  lemma NumbersAll(g: Graph, list: seq<Block>, po: map<Block, nat>, seen: set<Block>)
    requires g.WellFormed() && Posted(g, list, po, seen) && Closed(g, [], list, {}, seen, g.entry)
    ensures po.Keys == Elements(g.blocks)
  {
    forall a, b | a in seen && g.Edge(a, b) ensures b in seen {
      assert list[po[a]] == a;
    }
    forall b | b in g.blocks ensures b in po {
      assert g.Reachable(b);
      var p :| g.PathTo(p, b);
      ClosedHoldsPath(g, seen, p);
    }
  }

  lemma NumbersParent(g: Graph, list: seq<Block>, po: map<Block, nat>, seen: set<Block>, b: Block)
    requires Posted(g, list, po, seen) && Closed(g, [], list, {}, seen, g.entry)
    requires b in po && b != g.entry
    ensures g.entry in po && po[b] < po[g.entry] && HasForward(g, po, b)
  {
    assert list[po[b]] == b;
    assert ParentLater(g, list, po[b]);
    var j :| po[b] < j < |list| && g.Edge(list[j], list[po[b]]);
    assert Forward(g, po, list[j], b);
  }

  lemma NumbersEverything(g: Graph, list: seq<Block>, po: map<Block, nat>, seen: set<Block>)
    requires g.WellFormed() && Posted(g, list, po, seen) && Closed(g, [], list, {}, seen, g.entry)
    ensures Numbering(g, po) && Injective(po)
  {
    NumbersAll(g, list, po, seen);
    forall b | b in po && b != g.entry ensures HasForward(g, po, b) && po[b] < po[g.entry] {
      NumbersParent(g, list, po, seen, b);
    }
  }

  lemma ReversedFalls(g: Graph, list: seq<Block>, po: map<Block, nat>, seen: set<Block>)
    requires Posted(g, list, po, seen) && Numbering(g, po) && Injective(po)
    requires |list| > 0 && list[|list| - 1] == g.entry
    ensures FallingOrder(g, Reversed(list), po)
  {
    hide Graph.Reaches, Graph.Edge, Numbering;
    forall a, b | g.Edge(a, b) && a in po && b in po && po[a] <= po[b] ensures g.Reaches(b, a) {
      assert Descends(g, list, po[a]);
      if j :| 0 <= j < po[a] && list[j] == b { assert po[list[j]] == j; }
    }
  }

  // Without cycles every block comes behind all its predecessors.
  lemma PredecessorsFirst(g: Graph, rpo: seq<Block>, po: map<Block, nat>, i: nat, j: nat)
    requires FallingOrder(g, rpo, po) && i < |rpo| && j < |rpo| && g.Edge(rpo[i], rpo[j])
    requires forall a, b :: g.Edge(a, b) ==> !g.Reaches(b, a)
    ensures i < j
  {
    hide Graph.Reaches, Graph.Edge, Numbering;
    assert po[rpo[i]] == |rpo| - 1 - i && po[rpo[j]] == |rpo| - 1 - j;
  }
}
