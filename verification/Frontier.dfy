/** Dominance frontiers and dominator-tree children over a finished dominator tree. */
module Frontier {
  import opened Cfg
  import opened DomTree

  // y is in the dominance frontier of x: x dominates a predecessor of y but does not
  // strictly dominate y.
  ghost predicate InFrontier(g: Graph, x: Block, y: Block) {
    && y in g.pred
    && !g.StrictlyDominates(x, y)
    && exists p :: p in g.pred[y] && g.Dominates(x, p)
  }

  // The blocks a climb from a predecessor p of y passes before it meets y's link.
  ghost function Climb(g: Graph, po: map<Block, nat>, t: Links, p: Block, y: Block): set<Block>
    requires Tree(g, po, t)
  {
    if p in t && y in t && t[y] in t then Anc(g, po, t, p) - Anc(g, po, t, t[y]) else {}
  }

  // x is on the climb from one of the first k predecessors of y.
  ghost predicate Climbed(g: Graph, po: map<Block, nat>, t: Links, x: Block, y: Block, k: nat)
    requires Tree(g, po, t)
  {
    y in g.pred && exists j :: 0 <= j < k <= |g.pred[y]| && x in Climb(g, po, t, g.pred[y][j], y)
  }

  // The link of y is on every climb from a predecessor, so the climb ends there.
  lemma LinkAbovePred(g: Graph, po: map<Block, nat>, t: Links, p: Block, y: Block)
    requires IsDomTree(g, po, t) && y in g.pred && p in g.pred[y]
    ensures y in t && p in t && y != g.entry && t[y] in t && t[y] in Anc(g, po, t, p)
  {
    assert Climbs(g, po, t, y);
    LinkDominates(g, po, t, y);
    DominatesPred(g, t[y], p, y);
  }

  lemma StrictIsAboveLink(g: Graph, po: map<Block, nat>, t: Links, x: Block, y: Block)
    requires IsDomTree(g, po, t) && y in t && y != g.entry && t[y] in t
    ensures x in Anc(g, po, t, t[y]) <==> g.StrictlyDominates(x, y)
  {
    AncShape(g, po, t, t[y]);
    AncShape(g, po, t, y);
  }

  lemma ClimbedIsFrontier(g: Graph, po: map<Block, nat>, t: Links, x: Block, y: Block)
    requires IsDomTree(g, po, t) && y in g.pred
    ensures Climbed(g, po, t, x, y, |g.pred[y]|) <==> InFrontier(g, x, y)
  {
    hide Tree, Anc;
    if Climbed(g, po, t, x, y, |g.pred[y]|) {
      var j :| 0 <= j < |g.pred[y]| && x in Climb(g, po, t, g.pred[y][j], y);
      ClimbMeaning(g, po, t, x, g.pred[y][j], y);
    }
    if InFrontier(g, x, y) {
      var p :| p in g.pred[y] && g.Dominates(x, p);
      ClimbMeaning(g, po, t, x, p, y);
      var j :| 0 <= j < |g.pred[y]| && g.pred[y][j] == p;
    }
  }

  lemma ClimbMeaning(g: Graph, po: map<Block, nat>, t: Links, x: Block, p: Block, y: Block)
    requires IsDomTree(g, po, t) && y in g.pred && p in g.pred[y]
    ensures x in Climb(g, po, t, p, y) <==> g.Dominates(x, p) && !g.StrictlyDominates(x, y)
  {
    LinkAbovePred(g, po, t, p, y);
    StrictIsAboveLink(g, po, t, x, y);
  }

  // A block with one predecessor is in no frontier, so passing it over loses nothing.
  lemma OnePredecessorNoFrontier(g: Graph, x: Block, y: Block)
    requires g.WellFormed() && y in g.blocks && |g.pred[y]| < 2
    ensures !InFrontier(g, x, y)
  {
    if InFrontier(g, x, y) {
      var p :| p in g.pred[y] && g.Dominates(x, p);
      forall q | g.PathTo(q, y) ensures x in q[..|q| - 1] {
        var p' := PathPred(g, q, y);
        assert g.PathTo(q[..|q| - 1], p');
      }
      forall q | g.PathTo(q, y) ensures x in q {
        assert x in q[..|q| - 1];
      }
      if x == y { NotOnShorterPath(g, x); }
    }
  }

  // Some path to a reachable block meets it only at the end.
  lemma NotOnShorterPath(g: Graph, y: Block)
    requires g.Reachable(y)
    ensures exists q :: g.PathTo(q, y) && y !in q[..|q| - 1]
  {
    var q :| g.PathTo(q, y);
    FirstVisit(g, q, y);
  }

  lemma {:induction false} FirstVisit(g: Graph, q: seq<Block>, y: Block)
    requires g.PathTo(q, y)
    ensures exists r :: g.PathTo(r, y) && y !in r[..|r| - 1]
    decreases |q|
  {
    if y in q[..|q| - 1] {
      var i :| 0 <= i < |q| - 1 && q[i] == y;
      PathCut(g, q, i + 1);
      FirstVisit(g, q[..i + 1], y);
    }
  }

  // ---- What the frontier loop has recorded ----

  // The blocks of `done` are finished, and y has had its first k predecessors climbed from.
  ghost predicate Recorded(g: Graph, po: map<Block, nat>, t: Links, df: map<Block, set<Block>>, done: seq<Block>,
      y: Block, k: nat)
    requires Tree(g, po, t)
  {
    && df.Keys == Elements(g.blocks)
    && forall x, z {:trigger z in df[x]} :: x in df ==>
         (z in df[x] <==> (z in done && InFrontier(g, x, z)) || (z == y && Climbed(g, po, t, x, y, k)))
  }

  ghost predicate IsFrontier(g: Graph, df: map<Block, set<Block>>) {
    && df.Keys == Elements(g.blocks)
    && forall x, z {:trigger z in df[x]} :: x in df ==> (z in df[x] <==> z in g.blocks && InFrontier(g, x, z))
  }

  // `added` is what one climb from p contributes to the frontiers.
  ghost predicate Added(df: map<Block, set<Block>>, more: map<Block, set<Block>>, on: set<Block>, y: Block) {
    && more.Keys == df.Keys
    && forall x {:trigger more[x]} :: x in df ==> more[x] == (if x in on then df[x] + {y} else df[x])
  }

  lemma ClimbedOneMore(g: Graph, po: map<Block, nat>, t: Links, x: Block, y: Block, k: nat)
    requires Tree(g, po, t) && y in g.pred && k < |g.pred[y]|
    ensures Climbed(g, po, t, x, y, k + 1) <==>
              Climbed(g, po, t, x, y, k) || x in Climb(g, po, t, g.pred[y][k], y)
  {
    if Climbed(g, po, t, x, y, k + 1) {
      var j :| 0 <= j < k + 1 <= |g.pred[y]| && x in Climb(g, po, t, g.pred[y][j], y);
      assert j == k || Climbed(g, po, t, x, y, k);
    }
  }

  lemma {:induction false} RecordPred(g: Graph, po: map<Block, nat>, t: Links, df: map<Block, set<Block>>,
      more: map<Block, set<Block>>, done: seq<Block>, y: Block, k: nat)
    requires Tree(g, po, t) && y in g.pred && k < |g.pred[y]|
    requires Recorded(g, po, t, df, done, y, k)
    requires Added(df, more, Climb(g, po, t, g.pred[y][k], y), y)
    ensures Recorded(g, po, t, more, done, y, k + 1)
  {
    hide Tree, Climb, Climbed;
    forall x, z | x in more
      ensures z in more[x] <==> (z in done && InFrontier(g, x, z)) || (z == y && Climbed(g, po, t, x, y, k + 1))
    {
      ClimbedOneMore(g, po, t, x, y, k);
      assert z in df[x] <==> (z in done && InFrontier(g, x, z)) || (z == y && Climbed(g, po, t, x, y, k));
    }
  }

  lemma RecordBlock(g: Graph, po: map<Block, nat>, t: Links, df: map<Block, set<Block>>, done: seq<Block>, y: Block)
    requires IsDomTree(g, po, t) && y in g.blocks && y in g.pred
    requires Recorded(g, po, t, df, done, y, |g.pred[y]|)
    ensures Recorded(g, po, t, df, done + [y], g.entry, 0)
  {
    hide Tree, Climb, Anc;
    forall x, z | x in df
      ensures z in df[x] <==>
        (z in done + [y] && InFrontier(g, x, z)) || (z == g.entry && Climbed(g, po, t, x, g.entry, 0))
    {
      if z == y { ClimbedIsFrontier(g, po, t, x, y); }
      assert z in df[x] <==> (z in done && InFrontier(g, x, z)) || (z == y && Climbed(g, po, t, x, y, |g.pred[y]|));
      assert z in done + [y] <==> z in done || z == y;
    }
  }

  lemma RecordSkip(g: Graph, po: map<Block, nat>, t: Links, df: map<Block, set<Block>>, done: seq<Block>, y: Block)
    requires IsDomTree(g, po, t) && y in g.blocks && y in g.pred && |g.pred[y]| < 2
    requires Recorded(g, po, t, df, done, y, 0)
    ensures Recorded(g, po, t, df, done + [y], g.entry, 0)
  {
    hide Tree, Climb, Anc;
    forall x, z | x in df
      ensures z in df[x] <==>
        (z in done + [y] && InFrontier(g, x, z)) || (z == g.entry && Climbed(g, po, t, x, g.entry, 0))
    {
      OnePredecessorNoFrontier(g, x, y);
      assert z in df[x] <==> (z in done && InFrontier(g, x, z)) || (z == y && Climbed(g, po, t, x, y, 0));
      assert z in done + [y] <==> z in done || z == y;
    }
  }

  lemma RecordNext(g: Graph, po: map<Block, nat>, t: Links, df: map<Block, set<Block>>, done: seq<Block>, y: Block)
    requires Tree(g, po, t) && Recorded(g, po, t, df, done, g.entry, 0)
    ensures Recorded(g, po, t, df, done, y, 0)
  {
    hide Tree, Climb;
    forall x, z | x in df
      ensures z in df[x] <==> (z in done && InFrontier(g, x, z)) || (z == y && Climbed(g, po, t, x, y, 0))
    {
      assert z in df[x] <==> (z in done && InFrontier(g, x, z)) || (z == g.entry && Climbed(g, po, t, x, g.entry, 0));
    }
  }

  // ---- The climb ----

  // The runner has recorded y at the blocks of the climb below it.
  ghost predicate Runner(g: Graph, po: map<Block, nat>, t: Links, df: map<Block, set<Block>>,
      now: map<Block, set<Block>>, p: Block, y: Block, runner: Block)
  {
    && Tree(g, po, t) && p in t && y in t && runner in t && t[y] in t
    && t[y] in Anc(g, po, t, runner) && runner in Anc(g, po, t, p)
    && Added(df, now, Anc(g, po, t, p) - Anc(g, po, t, runner), y)
  }

  lemma RunnerStart(g: Graph, po: map<Block, nat>, t: Links, df: map<Block, set<Block>>, p: Block, y: Block)
    requires IsDomTree(g, po, t) && y in g.pred && p in g.pred[y]
    ensures Runner(g, po, t, df, df, p, y, p)
  {
    LinkAbovePred(g, po, t, p, y);
    AncShape(g, po, t, p);
  }

  lemma {:induction false} RunnerStep(g: Graph, po: map<Block, nat>, t: Links, df: map<Block, set<Block>>,
      now: map<Block, set<Block>>, p: Block, y: Block, runner: Block)
    requires Runner(g, po, t, df, now, p, y, runner) && runner != t[y] && runner in now
    ensures Runner(g, po, t, df, now[runner := now[runner] + {y}], p, y, t[runner])
    ensures po[runner] < po[t[runner]] <= po[g.entry]
  {
    AncShape(g, po, t, runner);
    AncShape(g, po, t, t[runner]);
    AncTransitive(g, po, t, runner, p);
    var more := now[runner := now[runner] + {y}];
    var on, on' := Anc(g, po, t, p) - Anc(g, po, t, runner), Anc(g, po, t, p) - Anc(g, po, t, t[runner]);
    assert on' == on + {runner};
  }

  lemma {:induction false} RunnerDone(g: Graph, po: map<Block, nat>, t: Links, df: map<Block, set<Block>>,
      now: map<Block, set<Block>>, p: Block, y: Block)
    requires Tree(g, po, t) && y in t
    requires Runner(g, po, t, df, now, p, y, t[y])
    ensures Added(df, now, Climb(g, po, t, p, y), y)
  {
  }

  lemma RecordStart(g: Graph, po: map<Block, nat>, t: Links, df: map<Block, set<Block>>)
    requires Tree(g, po, t) && df.Keys == Elements(g.blocks) && forall x :: x in df ==> df[x] == {}
    ensures Recorded(g, po, t, df, [], g.entry, 0)
  {
  }

  lemma RecordDone(g: Graph, po: map<Block, nat>, t: Links, df: map<Block, set<Block>>)
    requires Tree(g, po, t) && Recorded(g, po, t, df, g.blocks, g.entry, 0)
    ensures IsFrontier(g, df)
  {
    forall x, z | x in df ensures z in df[x] <==> z in g.blocks && InFrontier(g, x, z) {
      assert !Climbed(g, po, t, x, g.entry, 0);
    }
  }

  lemma {:induction false} FrontierKeys(g: Graph, po: map<Block, nat>, t: Links, df: map<Block, set<Block>>,
      done: seq<Block>, y: Block, k: nat)
    requires IsDomTree(g, po, t) && Recorded(g, po, t, df, done, y, k)
    ensures Tree(g, po, t) && g.WellFormed() && t.Keys == df.Keys == Elements(g.blocks)
  {
  }

  // ---- Dominator-tree children ----

  ghost predicate IsTreeSucc(g: Graph, ch: map<Block, set<Block>>) {
    && ch.Keys == Elements(g.blocks)
    && forall x, b {:trigger b in ch[x]} :: x in ch ==> (b in ch[x] <==> b in g.blocks && g.ImmediateDominator(x, b))
  }

  ghost predicate ChildrenOf(g: Graph, t: Links, ch: map<Block, set<Block>>, done: seq<Block>) {
    && ch.Keys == Elements(g.blocks)
    && forall x, b {:trigger b in ch[x]} :: x in ch ==>
         (b in ch[x] <==> b in done && b in t && b != g.entry && t[b] == x)
  }

  lemma ChildrenDone(g: Graph, po: map<Block, nat>, t: Links, ch: map<Block, set<Block>>)
    requires IsDomTree(g, po, t) && ChildrenOf(g, t, ch, g.blocks)
    ensures IsTreeSucc(g, ch)
  {
    forall x, b | x in ch ensures b in ch[x] <==> b in g.blocks && g.ImmediateDominator(x, b) {
      if b == g.entry {
        NoDominatorOfEntry(g, x);
      } else if b in g.blocks {
        LinkIsImmediateDominator(g, po, t, b, x);
      }
    }
  }

  lemma NoDominatorOfEntry(g: Graph, d: Block)
    ensures !g.StrictlyDominates(d, g.entry)
  {
    if g.Dominates(d, g.entry) { DominatesEntry(g, d); }
  }

  lemma LinkFacts(g: Graph, po: map<Block, nat>, t: Links, b: Block)
    requires IsDomTree(g, po, t) && b in g.blocks
    ensures b in t && (t[b] == b <==> b == g.entry) && t[b] in g.blocks
  {
    assert b == g.entry || Climbs(g, po, t, b);
  }

  lemma ChildStep(g: Graph, t: Links, ch: map<Block, set<Block>>, done: seq<Block>, b: Block)
    requires ChildrenOf(g, t, ch, done) && b in t && t[b] in ch
    ensures b == g.entry ==> ChildrenOf(g, t, ch, done + [b])
    ensures b != g.entry ==> ChildrenOf(g, t, ch[t[b] := ch[t[b]] + {b}], done + [b])
  {
    assert forall c :: c in done + [b] <==> c in done || c == b;
  }
}
