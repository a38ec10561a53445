/** The control-flow graph of one function: the block list and the successor and
    predecessor lists that branch creation maintains, with paths and dominance
    defined over it. */
module Cfg {

  // A basic block is named by a number; the numbers carry no order.
  type Block = nat

  datatype Graph = Graph(blocks: seq<Block>, entry: Block, succ: map<Block, seq<Block>>, pred: map<Block, seq<Block>>)
  {
    ghost predicate Edge(a: Block, b: Block) {
      a in succ && b in succ[a]
    }

    // The block list has no duplicates, starts with the entry, and the edge lists
    // stay inside it and mirror each other.
    ghost predicate Valid() {
      && |blocks| > 0 && blocks[0] == entry
      && Distinct(blocks)
      && succ.Keys == Elements(blocks) && pred.Keys == Elements(blocks)
      && (forall a, b :: Edge(a, b) ==> b in blocks)
      && (forall a, b :: b in pred && a in pred[b] ==> Edge(a, b))
      && (forall a, b :: Edge(a, b) ==> b in pred && a in pred[b])
    }

    ghost predicate Path(p: seq<Block>) {
      && |p| > 0 && p[0] == entry
      && forall i {:trigger Step(p, i)} :: 0 <= i < |p| - 1 ==> Step(p, i)
    }

    ghost predicate Step(p: seq<Block>, i: int)
      requires 0 <= i < |p| - 1
    {
      Edge(p[i], p[i + 1])
    }

    // Some sequence of edges leads from a to b.
    ghost predicate Reaches(a: Block, b: Block) {
      exists p :: Chain(p) && p[0] == a && p[|p| - 1] == b
    }

    ghost predicate Chain(p: seq<Block>) {
      |p| > 0 && forall i {:trigger Step(p, i)} :: 0 <= i < |p| - 1 ==> Step(p, i)
    }

    ghost predicate PathTo(p: seq<Block>, b: Block) {
      Path(p) && p[|p| - 1] == b
    }

    ghost predicate Reachable(b: Block) {
      exists p :: PathTo(p, b)
    }

    // What the dominator analysis needs: everything reachable, no edge into the entry.
    ghost predicate WellFormed() {
      && Valid()
      && pred[entry] == []
      && forall b :: b in blocks ==> Reachable(b)
    }

    // The specification of dominance: every path from the entry to b contains d.
    ghost predicate Dominates(d: Block, b: Block) {
      forall p :: PathTo(p, b) ==> d in p
    }

    ghost predicate StrictlyDominates(d: Block, b: Block) {
      d != b && Dominates(d, b)
    }

    // d is the immediate dominator of b: a strict dominator that every other
    // strict dominator of b dominates.
    ghost predicate ImmediateDominator(d: Block, b: Block) {
      && StrictlyDominates(d, b)
      && forall e :: StrictlyDominates(e, b) ==> Dominates(e, d)
    }
  }

  ghost predicate Distinct(s: seq<nat>) {
    forall i, j {:trigger Apart(s, i, j)} :: 0 <= i < j < |s| ==> Apart(s, i, j)
  }

  ghost predicate Apart(s: seq<nat>, i: int, j: int)
    requires 0 <= i < j < |s|
  {
    s[i] != s[j]
  }

  function Elements(s: seq<Block>): set<Block> {
    set x | x in s
  }

  lemma DistinctAt(s: seq<nat>, i: nat)
    requires Distinct(s) && i < |s|
    ensures s[i] !in s[..i]
  {
    forall j | 0 <= j < i ensures s[j] != s[i] { assert Apart(s, j, i); }
  }

  lemma SameIndex(s: seq<nat>, i: nat, j: nat)
    requires Distinct(s) && i < |s| && j < |s| && s[i] == s[j]
    ensures i == j
  {
    assert i < j ==> Apart(s, i, j);
    assert j < i ==> Apart(s, j, i);
  }

  lemma DistinctTail(x: nat, s: seq<nat>)
    requires Distinct(s) && x !in s
    ensures Distinct([x] + s)
  {
    forall i, j | 0 <= i < j < |s| + 1 ensures Apart([x] + s, i, j) { assert i > 0 ==> Apart(s, i - 1, j - 1); }
  }

  lemma DistinctRest(s: seq<nat>)
    requires Distinct(s) && s != []
    ensures Distinct(s[1..]) && s[0] !in s[1..]
  {
    forall i, j | 0 <= i < j < |s| - 1 ensures Apart(s[1..], i, j) { assert Apart(s, i + 1, j + 1); }
    forall i | 0 <= i < |s| - 1 ensures s[1..][i] != s[0] { assert Apart(s, 0, i + 1); }
  }

  // A successor occurs once in the list of its predecessor.
  ghost predicate SuccsDistinct(g: Graph) {
    forall b :: b in g.succ ==> Distinct(g.succ[b])
  }

  lemma SuccAt(g: Graph, b: Block, m: nat)
    requires SuccsDistinct(g) && b in g.succ && m < |g.succ[b]|
    ensures g.succ[b][m] !in g.succ[b][..m]
  {
    DistinctAt(g.succ[b], m);
  }

  lemma PathExtend(g: Graph, p: seq<Block>, a: Block, b: Block)
    requires g.PathTo(p, a) && g.Edge(a, b)
    ensures g.PathTo(p + [b], b)
  {
    var q := p + [b];
    forall i | 0 <= i < |q| - 1 ensures g.Step(q, i) {
      if i < |p| - 1 { PathStep(g, p, i); }
    }
  }

  lemma ReachesItself(g: Graph, a: Block)
    ensures g.Reaches(a, a)
  {
    assert g.Chain([a]) && [a][0] == a;
  }

  lemma ReachesFurther(g: Graph, a: Block, b: Block, c: Block)
    requires g.Reaches(a, b) && g.Edge(b, c)
    ensures g.Reaches(a, c)
  {
    var p :| g.Chain(p) && p[0] == a && p[|p| - 1] == b;
    var q := p + [c];
    forall i | 0 <= i < |q| - 1 ensures g.Step(q, i) {
      if i < |p| - 1 { assert g.Step(p, i); }
    }
    assert g.Chain(q) && q[0] == a && q[|q| - 1] == c;
  }

  lemma PathStep(g: Graph, p: seq<Block>, i: nat)
    requires g.Path(p) && i + 1 < |p|
    ensures g.Edge(p[i], p[i + 1])
  {
    assert g.Step(p, i);
  }

  lemma PathCut(g: Graph, p: seq<Block>, k: nat)
    requires g.Path(p) && 0 < k <= |p|
    ensures g.Path(p[..k])
  {
    forall i | 0 <= i < k - 1 ensures g.Step(p[..k], i) { PathStep(g, p, i); }
  }

  // A dominator of b other than b dominates every predecessor of b.
  lemma DominatesPred(g: Graph, d: Block, p: Block, b: Block)
    requires g.Edge(p, b) && d != b && g.Dominates(d, b)
    ensures g.Dominates(d, p)
  {
    forall q | g.PathTo(q, p) ensures d in q {
      PathExtend(g, q, p, b);
      assert d in q + [b];
    }
  }

  lemma DominatesEntry(g: Graph, d: Block)
    requires g.Dominates(d, g.entry)
    ensures d == g.entry
  {
    assert g.PathTo([g.entry], g.entry);
  }

  // A set that holds the entry and is closed under successors holds every reachable block.
  lemma {:induction false} ClosedHoldsPath(g: Graph, s: set<Block>, p: seq<Block>)
    requires g.entry in s
    requires forall a, b :: a in s && g.Edge(a, b) ==> b in s
    requires g.Path(p)
    ensures p[|p| - 1] in s
  {
    if |p| > 1 {
      PathCut(g, p, |p| - 1);
      ClosedHoldsPath(g, s, p[..|p| - 1]);
      PathStep(g, p, |p| - 2);
    }
  }
}
