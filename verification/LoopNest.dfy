/** The loops of a control-flow graph as the loop search peels them off: each one a component
    of what is left when the bases of the loops around it have been taken out. */
module LoopNest {
  import opened Wrappers
  import opened Cfg
  import opened Ir
  import opened Components

  // A loop, and the bases that had been taken out when it was found.
  datatype Loop = Loop(base: Block, body: set<Block>, gone: set<Block>)

  // ---- What is left of the graph ----

  ghost function Left(g: Graph, gone: set<Block>): set<Block> {
    Elements(g.blocks) - gone
  }

  ghost function Rest(g: Graph, gone: set<Block>): Edges {
    map n | n in Left(g, gone) :: set w | w in Left(g, gone) && g.Edge(n, w)
  }

  lemma RestClosed(g: Graph, gone: set<Block>)
    ensures Closed(Rest(g, gone), Left(g, gone))
  {
  }

  // The node fields when the bases in `gone` have been taken out.
  ghost predicate LeftOver(g: Graph, nodes: set<Block>, gone: set<Block>, succs: Edges, prevs: Edges) {
    && nodes == Left(g, gone) && gone <= Elements(g.blocks)
    && succs.Keys == Elements(g.blocks) && prevs.Keys == Elements(g.blocks)
    && (forall n :: n in nodes ==> succs[n] == Rest(g, gone)[n])
    && (forall n, w :: n in nodes ==> (w in prevs[n] <==> w in nodes && g.Edge(w, n)))
    && (forall r, w :: r in gone && w in nodes && g.Edge(r, w) ==> w in succs[r])
    && (forall r, w :: r in gone && w in succs[r] ==> g.Edge(r, w))
  }

  lemma LeftOverClosed(g: Graph, nodes: set<Block>, gone: set<Block>, succs: Edges, prevs: Edges)
    requires LeftOver(g, nodes, gone, succs, prevs)
    ensures Closed(succs, nodes) && nodes <= Elements(g.blocks)
  {
  }

  lemma {:induction false} SameWalk(e: Edges, e1: Edges, nodes: set<Block>, p: seq<Block>)
    requires Closed(e, nodes) && nodes <= e1.Keys && forall n :: n in nodes ==> e1[n] == e[n]
    requires Walk(e, p) && p[0] in nodes
    ensures Walk(e1, p) && p[|p| - 1] in nodes
  {
    if |p| > 1 {
      var q := p[..|p| - 1];
      WalkPart(e, p, 0, |p| - 1);
      assert p[0..|p| - 1] == q;
      SameWalk(e, e1, nodes, q);
      WalkStep(e, p, |p| - 2);
      forall i | 0 <= i < |p| - 1 ensures Leg(e1, p, i) {
        if i < |p| - 2 { WalkStep(e1, q, i); }
      }
    }
  }

  lemma SameReaches(e: Edges, e1: Edges, nodes: set<Block>, a: Block, b: Block)
    requires Closed(e, nodes) && nodes <= e1.Keys && (forall n :: n in nodes ==> e1[n] == e[n]) && a in nodes
    ensures Reaches(e, a, b) ==> Reaches(e1, a, b)
  {
    if Reaches(e, a, b) {
      var p :| Walk(e, p) && p[0] == a && p[|p| - 1] == b;
      SameWalk(e, e1, nodes, p);
    }
  }

  lemma SameComponents(e: Edges, e1: Edges, nodes: set<Block>, c: set<Block>)
    requires Closed(e, nodes) && Closed(e1, nodes) && forall n :: n in nodes ==> e1[n] == e[n]
    ensures IsComponent(e, nodes, c) <==> IsComponent(e1, nodes, c)
  {
    hide Reaches;
    forall a, b | a in nodes && b in nodes ensures Mutual(e, a, b) <==> Mutual(e1, a, b) {
      SameReaches(e, e1, nodes, a, b);
      SameReaches(e1, e, nodes, a, b);
      SameReaches(e, e1, nodes, b, a);
      SameReaches(e1, e, nodes, b, a);
    }
  }

  lemma LeftOverComponents(g: Graph, nodes: set<Block>, gone: set<Block>, succs: Edges, prevs: Edges, c: set<Block>)
    requires LeftOver(g, nodes, gone, succs, prevs)
    ensures IsComponent(succs, nodes, c) <==> IsComponent(Rest(g, gone), nodes, c)
  {
    hide IsComponent;
    RestClosed(g, gone);
    SameComponents(succs, Rest(g, gone), nodes, c);
  }

  // With more taken out, less is reached.
  lemma {:induction false} LessWalk(g: Graph, gone: set<Block>, more: set<Block>, p: seq<Block>)
    requires gone <= more && Walk(Rest(g, more), p)
    ensures Walk(Rest(g, gone), p)
  {
    forall i | 0 <= i < |p| - 1 ensures Leg(Rest(g, gone), p, i) { WalkStep(Rest(g, more), p, i); }
  }

  lemma LessReaches(g: Graph, gone: set<Block>, more: set<Block>, a: Block, b: Block)
    requires gone <= more && Reaches(Rest(g, more), a, b)
    ensures Reaches(Rest(g, gone), a, b)
  {
    var p :| Walk(Rest(g, more), p) && p[0] == a && p[|p| - 1] == b;
    LessWalk(g, gone, more, p);
  }

  // ---- Loops and the components found later ----

  // A component of what is left later lies inside an earlier component or beside it.
  lemma LaterComponent(g: Graph, gone: set<Block>, body: set<Block>, more: set<Block>, c: set<Block>)
    requires gone <= more && IsComponent(Rest(g, gone), Left(g, gone), body) &&
      IsComponent(Rest(g, more), Left(g, more), c)
    ensures c <= body || c !! body
  {
    hide Rest, Reaches;
    if x :| x in c && x in body {
      forall y | y in c ensures y in body {
        assert Mutual(Rest(g, more), x, y);
        LessReaches(g, gone, more, x, y);
        LessReaches(g, gone, more, y, x);
        assert Mutual(Rest(g, gone), x, y);
      }
    }
  }

  ghost predicate Enters(g: Graph, body: set<Block>, p: Block, n: Block) {
    n in body && p !in body && g.Edge(p, n)
  }

  ghost predicate LoopOk(g: Graph, l: Loop) {
    && l.base in l.body && |l.body| > 1
    && IsComponent(Rest(g, l.gone), Left(g, l.gone), l.body)
    && exists p :: Enters(g, l.body, p, l.base)
  }

  // An earlier and a later loop: the later one leaves out the base of the earlier one, and
  // lies inside it or beside it.
  ghost predicate Nested(outer: Loop, inner: Loop) {
    outer.base !in inner.body && (inner.body <= outer.body || inner.body !! outer.body)
  }

  ghost function Bases(loops: seq<Loop>): set<Block> {
    set i | 0 <= i < |loops| :: loops[i].base
  }

  ghost predicate LoopsOk(g: Graph, loops: seq<Loop>) {
    && (forall i :: 0 <= i < |loops| ==> LoopOk(g, loops[i]) && loops[i].gone <= Bases(loops[..i]))
    && (forall i, j :: 0 <= i < j < |loops| ==> Nested(loops[i], loops[j]))
  }

  // ---- An entry into every component ----

  lemma {:induction false} WalkInto(g: Graph, gone: set<Block>, p: seq<Block>)
    requires Walk(Rest(g, gone), p) && |p| > 1
    ensures g.Edge(p[|p| - 2], p[|p| - 1])
  {
    WalkStep(Rest(g, gone), p, |p| - 2);
  }

  lemma EntryOutside(g: Graph, gone: set<Block>, c: set<Block>)
    requires g.WellFormed() && IsComponent(Rest(g, gone), Left(g, gone), c) && |c| > 1
    ensures g.entry !in c
  {
    hide Rest;
    if g.entry in c {
      var a := Another(c, g.entry);
      assert Mutual(Rest(g, gone), g.entry, a);
      var p :| Walk(Rest(g, gone), p) && p[0] == a && p[|p| - 1] == g.entry;
      WalkInto(g, gone, p);
    }
  }

  lemma Another(c: set<Block>, x: Block) returns (a: Block)
    requires x in c && |c| > 1
    ensures a in c && a != x
  {
    assert c != {x};
    a :| a in c && a != x;
  }

  lemma ComponentEntered(g: Graph, gone: set<Block>, c: set<Block>) returns (p: Block, n: Block)
    requires g.WellFormed() && IsComponent(Rest(g, gone), Left(g, gone), c) && |c| > 1
    ensures Enters(g, c, p, n) && p in g.blocks
  {
    hide IsComponent, Rest;
    EntryOutside(g, gone, c);
    var x := SomeMember(g, gone, c);
    var q :| g.PathTo(q, x);
    p, n := CrossingEdge(g, c, q);
    EdgeInside(g, p, n);
  }

  lemma {:induction false} CrossingEdge(g: Graph, c: set<Block>, q: seq<Block>) returns (p: Block, n: Block)
    requires g.Path(q) && g.entry !in c && q[|q| - 1] in c
    ensures Enters(g, c, p, n)
  {
    PathStep(g, q, |q| - 2);
    PathCut(g, q, |q| - 1);
    if q[|q| - 2] in c {
      p, n := CrossingEdge(g, c, q[..|q| - 1]);
    } else {
      p, n := q[|q| - 2], q[|q| - 1];
    }
  }

  lemma SomeMember(g: Graph, gone: set<Block>, c: set<Block>) returns (x: Block)
    requires IsComponent(Rest(g, gone), Left(g, gone), c)
    ensures x in c && x in g.blocks
  {
    x :| x in c;
  }

  lemma EdgeInside(g: Graph, p: Block, n: Block)
    requires g.Valid() && g.Edge(p, n)
    ensures p in g.blocks && n in g.blocks
  {
  }

  // When control enters a loop at its base only, the base dominates the loop.
  lemma BaseDominates(g: Graph, l: Loop, x: Block)
    requires g.WellFormed() && LoopOk(g, l) && x in l.body
    requires forall p, n :: Enters(g, l.body, p, n) ==> n == l.base
    ensures g.Dominates(l.base, x)
  {
    hide IsComponent, Rest;
    EntryOutside(g, l.gone, l.body);
    forall q | g.PathTo(q, x) ensures l.base in q { PathMeetsBase(g, l, q); }
  }

  lemma {:induction false} PathMeetsBase(g: Graph, l: Loop, q: seq<Block>)
    requires g.entry !in l.body && g.Path(q) && q[|q| - 1] in l.body
    requires forall p, n :: Enters(g, l.body, p, n) ==> n == l.base
    ensures l.base in q
  {
    var q1 := q[..|q| - 1];
    var last := q[|q| - 2];
    PathStep(g, q, |q| - 2);
    PathCut(g, q, |q| - 1);
    if last in l.body {
      PathMeetsBase(g, l, q1);
    } else {
      assert Enters(g, l.body, last, q[|q| - 1]);
    }
  }

  // ---- Every cycle is found ----

  // A walk along edges that comes back to where it started and meets a second block.
  ghost predicate Cycle(g: Graph, p: seq<Block>) {
    && |p| > 2 && p[0] == p[|p| - 1] && p[1] != p[0]
    && forall i :: 0 <= i < |p| - 1 ==> g.Edge(p[i], p[i + 1])
  }

  ghost predicate InLoop(l: Loop, p: seq<Block>) {
    l.base in p && forall x :: x in p ==> x in l.body
  }

  ghost predicate Covered(loops: seq<Loop>, p: seq<Block>) {
    exists i :: 0 <= i < |loops| && InLoop(loops[i], p)
  }

  // Every cycle is in a loop whose base is on it, or has not been touched.
  ghost predicate CyclesCovered(g: Graph, loops: seq<Loop>, gone: set<Block>) {
    forall p {:trigger Cycle(g, p)} :: Cycle(g, p) ==> Covered(loops, p) || forall x :: x in p ==> x !in gone
  }

  lemma CycleWalk(g: Graph, gone: set<Block>, p: seq<Block>, i: nat, j: nat)
    requires g.Valid() && Cycle(g, p) && (forall x :: x in p ==> x !in gone) && i <= j < |p|
    ensures Reaches(Rest(g, gone), p[i], p[j])
  {
    var q := p[i..j + 1];
    forall k | 0 <= k < |q| - 1 ensures q[k] in Rest(g, gone) && q[k + 1] in Rest(g, gone)[q[k]] {
      assert g.Edge(p[i + k], p[i + k + 1]);
    }
    assert Walk(Rest(g, gone), q) && q[0] == p[i] && q[|q| - 1] == p[j];
  }

  lemma CycleMutual(g: Graph, gone: set<Block>, p: seq<Block>, i: nat, j: nat)
    requires g.Valid() && Cycle(g, p) && (forall x :: x in p ==> x !in gone) && i < |p| && j < |p|
    ensures Mutual(Rest(g, gone), p[i], p[j]) && p[i] in Left(g, gone)
  {
    hide Reaches, Rest;
    CycleWalk(g, gone, p, 0, i);
    CycleWalk(g, gone, p, 0, j);
    CycleWalk(g, gone, p, i, |p| - 1);
    CycleWalk(g, gone, p, j, |p| - 1);
    ReachesTrans(Rest(g, gone), p[i], p[0], p[j]);
    ReachesTrans(Rest(g, gone), p[j], p[0], p[i]);
    assert i < |p| - 1 ==> g.Edge(p[i], p[i + 1]);
    assert g.Edge(p[0], p[0 + 1]);
  }

  // Recording a component with its base.
  lemma CoverMore(g: Graph, loops: seq<Loop>, gone0: set<Block>, gone: set<Block>, l: Loop)
    requires g.Valid() && CyclesCovered(g, loops, gone) && gone0 <= gone && l.gone == gone0
    requires IsComponent(Rest(g, gone0), Left(g, gone0), l.body) && l.base in l.body
    ensures CyclesCovered(g, loops + [l], gone + {l.base})
  {
    hide Rest, Reaches, Cycle, InLoop;
    forall p | Cycle(g, p) ensures Covered(loops + [l], p) || forall x :: x in p ==> x !in gone + {l.base} {
      if Covered(loops, p) {
        var i :| 0 <= i < |loops| && InLoop(loops[i], p);
        assert (loops + [l])[i] == loops[i];
      } else if l.base in p {
        CycleInComponent(g, gone0, p, l);
        assert (loops + [l])[|loops|] == l;
      }
    }
  }

  lemma CycleInComponent(g: Graph, gone: set<Block>, p: seq<Block>, l: Loop)
    requires g.Valid() && Cycle(g, p) && (forall x :: x in p ==> x !in gone) && l.base in p
    requires IsComponent(Rest(g, gone), Left(g, gone), l.body) && l.base in l.body
    ensures InLoop(l, p)
  {
    hide Rest, Reaches, Cycle, Mutual;
    var i :| 0 <= i < |p| && p[i] == l.base;
    forall x | x in p ensures x in l.body {
      var j :| 0 <= j < |p| && p[j] == x;
      CycleMutual(g, gone, p, i, j);
      CycleMutual(g, gone, p, j, i);
      assert Mutual(Rest(g, gone), p[i], p[j]);
    }
  }

  // When no component is left, every cycle has been covered.
  lemma CoverEnd(g: Graph, loops: seq<Loop>, gone: set<Block>)
    requires g.Valid() && CyclesCovered(g, loops, gone)
    requires forall c :: IsComponent(Rest(g, gone), Left(g, gone), c) ==> |c| <= 1
    ensures forall p :: Cycle(g, p) ==> Covered(loops, p)
  {
    hide Rest, Reaches, Cycle, InLoop, IsComponent;
    forall p | Cycle(g, p) ensures Covered(loops, p) {
      if forall x :: x in p ==> x !in gone { CycleComponent(g, gone, p); }
    }
  }

  lemma CycleComponent(g: Graph, gone: set<Block>, p: seq<Block>)
    requires g.Valid() && Cycle(g, p) && forall x :: x in p ==> x !in gone
    ensures exists c :: IsComponent(Rest(g, gone), Left(g, gone), c) && |c| > 1
  {
    hide Rest, Reaches;
    var e := Rest(g, gone);
    var c := set b | b in Left(g, gone) && Mutual(e, p[0], b);
    CycleMutual(g, gone, p, 0, 0);
    CycleMutual(g, gone, p, 0, 1);
    CycleMutual(g, gone, p, 1, 0);
    MutualClass(e, Left(g, gone), p[0], c);
    assert {p[0], p[1]} <= c;
    SubsetSize({p[0], p[1]}, c);
  }

  lemma MutualClass(e: Edges, nodes: set<Block>, a: Block, c: set<Block>)
    requires a in nodes && c == set b | b in nodes && Mutual(e, a, b)
    ensures IsComponent(e, nodes, c)
  {
    hide Reaches;
    ReachesSelf(e, a);
    assert a in c;
    forall x, y | x in c && y in nodes ensures y in c <==> Mutual(e, x, y) {
      if y in c {
        ReachesTrans(e, x, a, y);
        ReachesTrans(e, y, a, x);
      } else if Mutual(e, x, y) {
        ReachesTrans(e, a, x, y);
        ReachesTrans(e, y, x, a);
      }
    }
  }

  lemma {:induction false} SubsetSize(a: set<Block>, b: set<Block>)
    requires a <= b
    ensures |a| <= |b|
  {
    assert b == a + (b - a);
  }

  // ---- Recording loops ----

  ghost predicate GoneBy(loops: seq<Loop>, gone: set<Block>) {
    forall i :: 0 <= i < |loops| ==> loops[i].gone <= gone
  }

  lemma AddLoop(g: Graph, loops: seq<Loop>, gone: set<Block>, l: Loop)
    requires LoopsOk(g, loops) && GoneBy(loops, gone) && gone <= Bases(loops)
    requires LoopOk(g, l) && l.gone == gone && l.body !! Bases(loops)
    ensures LoopsOk(g, loops + [l]) && GoneBy(loops + [l], gone) && Bases(loops + [l]) == Bases(loops) + {l.base}
  {
    hide Rest, IsComponent;
    var all := loops + [l];
    forall i | 0 <= i < |all| ensures LoopOk(g, all[i]) && all[i].gone <= Bases(all[..i]) {
      if i < |loops| { assert all[..i] == loops[..i]; } else { assert all[..i] == loops; }
    }
    forall i, j | 0 <= i < j < |all| ensures Nested(all[i], all[j]) {
      if j == |loops| { NestedLater(g, loops, i, l); }
    }
    BasesMore(loops, l);
  }

  lemma NestedLater(g: Graph, loops: seq<Loop>, i: nat, l: Loop)
    requires i < |loops| && LoopOk(g, loops[i]) && loops[i].gone <= l.gone && LoopOk(g, l) && l.body !! Bases(loops)
    ensures Nested(loops[i], l)
  {
    hide Rest, IsComponent;
    LaterComponent(g, loops[i].gone, loops[i].body, l.gone, l.body);
    assert loops[i].base in Bases(loops);
  }

  lemma BasesMore(loops: seq<Loop>, l: Loop)
    ensures Bases(loops + [l]) == Bases(loops) + {l.base}
  {
    var all := loops + [l];
    forall b | b in Bases(loops) + {l.base} ensures b in Bases(all) {
      if b in Bases(loops) {
        var i :| 0 <= i < |loops| && loops[i].base == b;
        assert all[i] == loops[i];
      } else {
        assert all[|loops|] == l;
      }
    }
  }

  // The components of the round that have not been handled.
  ghost predicate Waiting(g: Graph, gone0: set<Block>, gone: set<Block>, rest: set<set<Block>>) {
    forall c :: c in rest ==> IsComponent(Rest(g, gone0), Left(g, gone0), c) && |c| > 1 && c !! gone
  }

  lemma WaitingNext(g: Graph, gone0: set<Block>, gone: set<Block>, rest: set<set<Block>>, c: set<Block>, b: Block)
    requires Waiting(g, gone0, gone, rest) && c in rest && b in c
    ensures Waiting(g, gone0, gone + {b}, rest - {c})
  {
    hide Rest, IsComponent;
    forall d | d in rest - {c} ensures d !! gone + {b} { ComponentsApart(Rest(g, gone0), Left(g, gone0), c, d); }
  }

  lemma WaitingStart(g: Graph, gone: set<Block>, rest: set<set<Block>>)
    requires forall c :: c in rest ==> IsComponent(Rest(g, gone), Left(g, gone), c) && |c| > 1
    ensures Waiting(g, gone, gone, rest)
  {
    hide Rest, Mutual;
  }

  // ---- The maps ----

  // The base of the last loop recorded that holds x.
  ghost function BaseOf(loops: seq<Loop>, x: Block): Option<Block> {
    if loops == [] then None
    else if x in loops[|loops| - 1].body then Some(loops[|loops| - 1].base)
    else BaseOf(loops[..|loops| - 1], x)
  }

  ghost function BodiesOf(loops: seq<Loop>): set<set<Block>> {
    set i | 0 <= i < |loops| :: loops[i].body
  }

  ghost predicate LoopMaps(loops: seq<Loop>, loopSet: set<set<Block>>, base2loop: map<Block, set<Block>>,
      loop2base: map<set<Block>, Block>) {
    && loopSet == BodiesOf(loops) && loop2base.Keys == BodiesOf(loops) && base2loop.Keys == Bases(loops)
    && forall i {:trigger loops[i]} :: 0 <= i < |loops| ==>
         base2loop[loops[i].base] == loops[i].body && loop2base[loops[i].body] == loops[i].base
  }

  ghost predicate BlockMap(loops: seq<Loop>, bb2base: map<Block, Block>) {
    forall x :: BaseOf(loops, x) == if x in bb2base then Some(bb2base[x]) else None
  }

  // The two maps between bases and loops undo each other.
  lemma MapsInverse(loops: seq<Loop>, loopSet: set<set<Block>>, base2loop: map<Block, set<Block>>,
      loop2base: map<set<Block>, Block>)
    requires LoopMaps(loops, loopSet, base2loop, loop2base)
    ensures forall b :: b in base2loop ==> base2loop[b] in loop2base && loop2base[base2loop[b]] == b
    ensures forall c :: c in loop2base ==> loop2base[c] in base2loop && base2loop[loop2base[c]] == c
  {
    forall b | b in base2loop ensures base2loop[b] in loop2base && loop2base[base2loop[b]] == b {
      var i :| 0 <= i < |loops| && loops[i].base == b;
    }
    forall c | c in loop2base ensures loop2base[c] in base2loop && base2loop[loop2base[c]] == c {
      var i :| 0 <= i < |loops| && loops[i].body == c;
    }
  }

  lemma BodiesMore(loops: seq<Loop>, l: Loop)
    ensures BodiesOf(loops + [l]) == BodiesOf(loops) + {l.body}
  {
    var all := loops + [l];
    forall c | c in BodiesOf(loops) + {l.body} ensures c in BodiesOf(all) {
      if c in BodiesOf(loops) {
        var i :| 0 <= i < |loops| && loops[i].body == c;
        assert all[i] == loops[i];
      } else {
        assert all[|loops|] == l;
      }
    }
  }

  // A new loop leaves out the bases of the others, so neither it nor its base is known yet.
  lemma NewLoop(g: Graph, loops: seq<Loop>, l: Loop)
    requires LoopsOk(g, loops) && l.base in l.body && l.body !! Bases(loops)
    ensures l.base !in Bases(loops) && l.body !in BodiesOf(loops)
  {
    hide Rest, IsComponent;
    forall i | 0 <= i < |loops| ensures loops[i].body != l.body {
      assert LoopOk(g, loops[i]);
      assert loops[i].base in Bases(loops);
    }
  }

  lemma MapsMore(loops: seq<Loop>, loopSet: set<set<Block>>, base2loop: map<Block, set<Block>>,
      loop2base: map<set<Block>, Block>, l: Loop)
    requires LoopMaps(loops, loopSet, base2loop, loop2base) && l.base !in Bases(loops) && l.body !in BodiesOf(loops)
    ensures LoopMaps(loops + [l], loopSet + {l.body}, base2loop[l.base := l.body], loop2base[l.body := l.base])
  {
    BasesMore(loops, l);
    BodiesMore(loops, l);
    forall i | 0 <= i < |loops| ensures loops[i].base in Bases(loops) && loops[i].body in BodiesOf(loops) {
    }
  }

  // ---- The innermost loop ----

  lemma {:induction false} BaseOfLoop(g: Graph, loops: seq<Loop>, x: Block)
    requires LoopsOk(g, loops)
    ensures BaseOf(loops, x).None? <==> forall i :: 0 <= i < |loops| ==> x !in loops[i].body
    ensures BaseOf(loops, x).Some? ==>
              exists i ::
                0 <= i < |loops| && loops[i].base == BaseOf(loops, x).value && Innermost(loops, x, loops[i].body)
  {
    hide Rest, IsComponent, LoopOk;
    if |loops| > 0 {
      var m := |loops| - 1;
      if x in loops[m].body {
        forall i | 0 <= i < |loops| && x in loops[i].body ensures loops[m].body <= loops[i].body {
          assert i < m ==> Nested(loops[i], loops[m]);
        }
        assert Innermost(loops, x, loops[m].body);
      } else {
        FewerLoops(g, loops);
        BaseOfLoop(g, loops[..m], x);
        if BaseOf(loops[..m], x).Some? {
          var i :| 0 <= i < m && loops[..m][i].base == BaseOf(loops[..m], x).value &&
            Innermost(loops[..m], x, loops[..m][i].body);
          InnermostMore(loops, x, loops[i].body);
        }
      }
    }
  }

  lemma FewerLoops(g: Graph, loops: seq<Loop>)
    requires LoopsOk(g, loops) && |loops| > 0
    ensures LoopsOk(g, loops[..|loops| - 1])
  {
    hide LoopOk, Nested;
    var fewer := loops[..|loops| - 1];
    forall i | 0 <= i < |fewer| ensures LoopOk(g, fewer[i]) && fewer[i].gone <= Bases(fewer[..i]) {
      assert fewer[..i] == loops[..i];
    }
  }

  lemma InnermostMore(loops: seq<Loop>, x: Block, c: set<Block>)
    requires |loops| > 0 && x !in loops[|loops| - 1].body && Innermost(loops[..|loops| - 1], x, c)
    ensures Innermost(loops, x, c)
  {
    var fewer := loops[..|loops| - 1];
    forall i | 0 <= i < |loops| && x in loops[i].body ensures c <= loops[i].body {
      assert fewer[i] == loops[i];
    }
  }

  // c holds x and lies inside every loop that does.
  ghost predicate Innermost(loops: seq<Loop>, x: Block, c: set<Block>) {
    x in c && forall i :: 0 <= i < |loops| && x in loops[i].body ==> c <= loops[i].body
  }

  lemma BlockMapMore(loops: seq<Loop>, bb2base: map<Block, Block>, l: Loop, bb2base1: map<Block, Block>)
    requires BlockMap(loops, bb2base) && bb2base1 == bb2base + map x | x in l.body :: l.base
    ensures BlockMap(loops + [l], bb2base1)
  {
    var all := loops + [l];
    assert all[..|all| - 1] == loops && all[|all| - 1] == l;
  }

  // ---- Taking out a base ----

  ghost function Cut(e: Edges, ns: set<Block>, base: Block): Edges {
    map n | n in e :: if n in ns then e[n] - {base} else e[n]
  }

  lemma {:induction false} BaseTaken(g: Graph, nodes: set<Block>, gone: set<Block>, succs: Edges, prevs: Edges,
      base: Block, prevs1: Edges)
    requires LeftOver(g, nodes, gone, succs, prevs) && base in nodes && prevs1 == Cut(prevs, succs[base], base)
    ensures LeftOver(g, nodes - {base}, gone + {base}, Cut(succs, prevs1[base], base), prevs1)
  {
    hide Rest, Cut;
    var nodes1, gone1 := nodes - {base}, gone + {base};
    CutIs(prevs, succs[base], base, prevs1);
    var succs1 := Cut(succs, prevs1[base], base);
    CutIs(succs, prevs1[base], base, succs1);
    assert nodes1 == Left(g, gone1);
    RestAt(g, gone);
    RestAt(g, gone1);
    forall n | n in nodes1 ensures succs1[n] == Rest(g, gone1)[n] {
      forall w
        ensures w in succs1[n] <==>
          w in nodes1 && g.Edge(n, w) { TakenAt(g, nodes, gone, succs, prevs, base, prevs1, n, w); }
    }
  }

  lemma {:induction false} TakenAt(g: Graph, nodes: set<Block>, gone: set<Block>, succs: Edges, prevs: Edges,
      base: Block, prevs1: Edges, n: Block, w: Block)
    requires LeftOver(g, nodes, gone, succs, prevs) && base in nodes && prevs1 == Cut(prevs, succs[base], base) &&
      n in nodes && n != base
    ensures n in Cut(succs, prevs1[base], base) &&
      (w in Cut(succs, prevs1[base], base)[n] <==> w in nodes && w != base && g.Edge(n, w))
  {
    hide Rest;
    SuccTaken(g, nodes, gone, succs, prevs, base, n, w);
    assert n in prevs1[base] <==> n in prevs[base];
  }

  // An edge of what was left, and the lists that know of it.
  lemma {:induction false} SuccTaken(g: Graph, nodes: set<Block>, gone: set<Block>, succs: Edges, prevs: Edges,
      base: Block, n: Block, w: Block)
    requires LeftOver(g, nodes, gone, succs, prevs) && base in nodes && n in nodes
    ensures w in succs[n] <==> w in nodes && g.Edge(n, w)
    ensures n in prevs[base] <==> g.Edge(n, base)
    ensures n in succs[base] <==> g.Edge(base, n)
  {
  }

  lemma RestAt(g: Graph, gone: set<Block>)
    ensures Rest(g, gone).Keys == Left(g, gone)
    ensures forall n, w :: n in Left(g, gone) ==> (w in Rest(g, gone)[n] <==> w in Left(g, gone) && g.Edge(n, w))
  {
  }

  lemma CutIs(e: Edges, ns: set<Block>, base: Block, e1: Edges)
    requires e1 == Cut(e, ns, base)
    ensures e1.Keys == e.Keys && forall n, w :: n in e ==> (w in e1[n] <==> w in e[n] && !(n in ns && w == base))
  {
  }
}
