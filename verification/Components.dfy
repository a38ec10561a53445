/** Strongly connected components of a directed graph and what Tarjan's search keeps while
    it looks for them. */
module Components {
  import opened Cfg

  type Edges = map<Block, set<Block>>

  // ---- Reachability ----

  ghost predicate Walk(e: Edges, p: seq<Block>) {
    && |p| > 0
    && forall i {:trigger Leg(e, p, i)} :: 0 <= i < |p| - 1 ==> Leg(e, p, i)
  }

  ghost predicate Leg(e: Edges, p: seq<Block>, i: int)
    requires 0 <= i < |p| - 1
  {
    p[i] in e && p[i + 1] in e[p[i]]
  }

  lemma WalkStep(e: Edges, p: seq<Block>, i: nat)
    requires Walk(e, p) && i + 1 < |p|
    ensures p[i] in e && p[i + 1] in e[p[i]]
  {
    assert Leg(e, p, i);
  }

  lemma WalkPart(e: Edges, p: seq<Block>, i: nat, j: nat)
    requires Walk(e, p) && i < j <= |p|
    ensures Walk(e, p[i..j])
  {
    forall k | 0 <= k < j - i - 1 ensures Leg(e, p[i..j], k) { WalkStep(e, p, i + k); }
  }

  ghost predicate Reaches(e: Edges, a: Block, b: Block) {
    exists p :: Walk(e, p) && p[0] == a && p[|p| - 1] == b
  }

  ghost predicate Mutual(e: Edges, a: Block, b: Block) {
    Reaches(e, a, b) && Reaches(e, b, a)
  }

  lemma ReachesSelf(e: Edges, a: Block)
    ensures Reaches(e, a, a)
  {
    assert Walk(e, [a]) && [a][0] == a;
  }

  lemma ReachesEdge(e: Edges, a: Block, b: Block)
    requires a in e && b in e[a]
    ensures Reaches(e, a, b)
  {
    assert Walk(e, [a, b]) && [a, b][0] == a && [a, b][1] == b;
  }

  lemma ReachesTrans(e: Edges, a: Block, b: Block, c: Block)
    requires Reaches(e, a, b) && Reaches(e, b, c)
    ensures Reaches(e, a, c)
  {
    var p :| Walk(e, p) && p[0] == a && p[|p| - 1] == b;
    var q :| Walk(e, q) && q[0] == b && q[|q| - 1] == c;
    var r := p + q[1..];
    forall i | 0 <= i < |r| - 1 ensures Leg(e, r, i) {
      if i < |p| - 1 { WalkStep(e, p, i); } else { WalkStep(e, q, i + 1 - |p|); }
    }
    assert Walk(e, r) && r[0] == a && r[|r| - 1] == c;
  }

  // No walk leaves a set that no edge leaves.
  ghost predicate Sealed(e: Edges, s: set<Block>) {
    forall a, b :: a in s && a in e && b in e[a] ==> b in s
  }

  lemma {:induction false} WalkStays(e: Edges, s: set<Block>, p: seq<Block>)
    requires Sealed(e, s) && Walk(e, p) && p[0] in s
    ensures p[|p| - 1] in s
  {
    if |p| > 1 {
      WalkStep(e, p, 0);
      WalkPart(e, p, 1, |p|);
      assert p[1..|p|] == p[1..];
      WalkStays(e, s, p[1..]);
    }
  }

  lemma ReachesStays(e: Edges, s: set<Block>, a: Block, b: Block)
    requires Sealed(e, s) && a in s && Reaches(e, a, b)
    ensures b in s
  {
    var p :| Walk(e, p) && p[0] == a && p[|p| - 1] == b;
    WalkStays(e, s, p);
  }

  // ---- Strongly connected components ----

  ghost predicate IsComponent(e: Edges, nodes: set<Block>, c: set<Block>) {
    && c != {} && c <= nodes
    && forall a, b {:trigger Mutual(e, a, b)} :: a in c && b in nodes ==> (b in c <==> Mutual(e, a, b))
  }

  // Two components that meet are the same.
  lemma ComponentsApart(e: Edges, nodes: set<Block>, c: set<Block>, d: set<Block>)
    requires IsComponent(e, nodes, c) && IsComponent(e, nodes, d) && c != d
    ensures c !! d
  {
    hide Mutual;
    forall x, y | x in c && x in d && y in nodes ensures y in c <==> y in d {
      assert y in c <==> Mutual(e, x, y);
    }
  }

  // The nodes are those the edges stay in.
  ghost predicate Closed(e: Edges, nodes: set<Block>) {
    nodes <= e.Keys && forall n :: n in nodes ==> e[n] <= nodes
  }

  // ---- The state of the search ----

  // The number of an unvisited node is -1.
  type Numbers = map<Block, int>

  predicate Seen(index: Numbers, b: Block) {
    b in index && index[b] != -1
  }

  // The numbers grow along the stack, and none is as large as the next one to be given.
  ghost predicate Rising(index: Numbers, stack: seq<Block>, count: int) {
    && (forall i :: 0 <= i < |stack| ==> stack[i] in index && 0 <= index[stack[i]] < count)
    && forall i, j :: 0 <= i < j < |stack| ==> index[stack[i]] < index[stack[j]]
  }

  // Each node of the stack reaches the next.
  ghost predicate Chained(e: Edges, stack: seq<Block>) {
    forall i {:trigger stack[i]} :: 0 < i < |stack| ==> Reaches(e, stack[i - 1], stack[i])
  }

  // stack[i] reaches an open node at or below it.
  ghost predicate Anchored(e: Edges, stack: seq<Block>, open: set<Block>, i: nat)
  {
    i < |stack| && exists j :: 0 <= j <= i && stack[j] in open && Reaches(e, stack[i], stack[j])
  }

  // Visited and off the stack.
  ghost predicate Left(index: Numbers, stack: seq<Block>, b: Block) {
    Seen(index, b) && b !in stack
  }

  ghost function LeftNodes(nodes: set<Block>, index: Numbers, stack: seq<Block>): set<Block> {
    set b | b in nodes && Left(index, stack, b)
  }

  // Edges from visited nodes whose call has returned go to visited nodes, and those from nodes
  // off the stack to nodes off the stack.
  ghost predicate EdgesSeen(e: Edges, nodes: set<Block>, index: Numbers, stack: seq<Block>, open: set<Block>) {
    forall a, b {:trigger Seen(index, a), Seen(index, b)} ::
      a in nodes && Seen(index, a) && a !in open && a in e && b in e[a] ==> Seen(index, b)
  }

  ghost predicate EdgesLeft(e: Edges, nodes: set<Block>, index: Numbers, stack: seq<Block>) {
    forall a, b {:trigger Left(index, stack, a), Left(index, stack, b)} ::
      a in nodes && Left(index, stack, a) && a in e && b in e[a] ==> Left(index, stack, b)
  }

  // The components found are those off the stack that have two nodes or more.
  ghost predicate FoundAre(e: Edges, nodes: set<Block>, index: Numbers, stack: seq<Block>, found: set<set<Block>>) {
    forall c {:trigger c in found} :: c in found <==>
      IsComponent(e, nodes, c) && |c| > 1 && forall b :: b in c ==> Left(index, stack, b)
  }

  // `open` are the nodes whose call has not returned.
  ghost predicate Searching(e: Edges, nodes: set<Block>, index: Numbers, stack: seq<Block>, count: int,
      found: set<set<Block>>, open: set<Block>) {
    && Closed(e, nodes) && nodes <= index.Keys && count >= 0
    && (forall b :: b in nodes ==> -1 <= index[b] < count)
    && (forall b :: b in stack ==> b in nodes)
    && (forall b :: b in open ==> b in stack)
    && Rising(index, stack, count) && Chained(e, stack)
    && (forall i: nat {:trigger Anchored(e, stack, open, i)} :: i < |stack| ==> Anchored(e, stack, open, i))
    && EdgesSeen(e, nodes, index, stack, open) && EdgesLeft(e, nodes, index, stack)
    && FoundAre(e, nodes, index, stack, found)
  }

  // What the search has done stays done: numbers are not changed, the stack keeps its lower part.
  ghost predicate Continues(index: Numbers, stack: seq<Block>, count: int, found: set<set<Block>>, index1: Numbers,
      stack1: seq<Block>, count1: int, found1: set<set<Block>>) {
    && stack <= stack1 && count <= count1 && found <= found1 && index1.Keys == index.Keys
    && (forall b :: Seen(index, b) ==> index1[b] == index[b])
    && (forall b :: Seen(index1, b) && !Seen(index, b) ==> index1[b] >= count)
  }

  // low is the number of a node of the stack that n reaches.
  ghost predicate LowReached(e: Edges, index: Numbers, stack: seq<Block>, n: Block, low: int) {
    exists j :: 0 <= j < |stack| && stack[j] in index && index[stack[j]] == low && Reaches(e, n, stack[j])
  }

  // No node of the stack from position k on has an edge to a node below position m with a number under low.
  ghost predicate LowBounds(e: Edges, index: Numbers, stack: seq<Block>, m: nat, k: nat, low: int) {
    forall i, j {:trigger stack[i], stack[j]} ::
      k <= i < |stack| && 0 <= j < m <= |stack| && stack[i] in e && stack[j] in e[stack[i]] && stack[j] in index ==>
      low <= index[stack[j]]
  }

  // What the call for n leaves: n's number low, the stack from m on being what it has added.
  ghost predicate LowIs(e: Edges, index: Numbers, stack: seq<Block>, m: nat, n: Block, low: int) {
    && n in index && m <= |stack| && LowBounds(e, index, stack, m, m, low)
    && (n in stack ==> low <= index[n] && LowReached(e, index, stack, n, low))
    && (n !in stack ==> |stack| == m && low == index[n])
  }

  // ---- Entering a node ----

  lemma {:induction false} ChainReaches(e: Edges, stack: seq<Block>, i: nat, j: nat)
    requires Chained(e, stack) && i <= j < |stack|
    ensures Reaches(e, stack[i], stack[j])
    decreases j
  {
    if i == j {
      ReachesSelf(e, stack[i]);
    } else {
      ChainReaches(e, stack, i, j - 1);
      ReachesTrans(e, stack[i], stack[j - 1], stack[j]);
    }
  }

  // Every open node reaches the node about to be entered.
  ghost predicate OpenReach(e: Edges, open: set<Block>, n: Block) {
    forall b :: b in open ==> Reaches(e, b, n)
  }

  lemma {:induction false} EnterNode(e: Edges, nodes: set<Block>, index: Numbers, stack: seq<Block>, count: int,
      found: set<set<Block>>, open: set<Block>, n: Block)
    requires Searching(e, nodes, index, stack, count, found, open) && n in nodes && !Seen(index, n) &&
      OpenReach(e, open, n)
    ensures Searching(e, nodes, index[n := count], stack + [n], count + 1, found, open + {n})
    ensures Continues(index, stack, count, found, index[n := count], stack + [n], count + 1, found)
    ensures OpenReach(e, open + {n}, n)
  {
    hide Closed, Rising, Chained, Anchored, EdgesSeen, EdgesLeft, FoundAre, Reaches;
    var index1, stack1 := index[n := count], stack + [n];
    NotOnStack(index, stack, count, n);
    RisingMore(index, stack, count, n);
    ChainedMore(e, stack, open, n);
    forall i: nat | i < |stack1| ensures Anchored(e, stack1, open + {n}, i) { AnchoredMore(e, stack, open, n, i); }
    LeftSame(index, stack, count, n);
    SeenMore(e, nodes, index, stack, open, n, count);
    LeftEdgesSame(e, nodes, index, stack, index1, stack1);
    FoundSame(e, nodes, index, stack, index1, stack1, found);
    ReachesSelf(e, n);
  }

  lemma NotOnStack(index: Numbers, stack: seq<Block>, count: int, n: Block)
    requires Rising(index, stack, count) && !Seen(index, n)
    ensures n !in stack
  {
  }

  lemma RisingMore(index: Numbers, stack: seq<Block>, count: int, n: Block)
    requires Rising(index, stack, count) && n !in stack && count >= 0
    ensures Rising(index[n := count], stack + [n], count + 1)
  {
  }

  lemma ChainedMore(e: Edges, stack: seq<Block>, open: set<Block>, n: Block)
    requires Chained(e, stack) && OpenReach(e, open, n) &&
      forall i: nat {:trigger Anchored(e, stack, open, i)} :: i < |stack| ==> Anchored(e, stack, open, i)
    ensures Chained(e, stack + [n])
  {
    hide Reaches;
    if |stack| > 0 {
      var i: nat := |stack| - 1;
      assert Anchored(e, stack, open, i);
      var j :| 0 <= j <= i && stack[j] in open && Reaches(e, stack[i], stack[j]);
      ReachesTrans(e, stack[i], stack[j], n);
    }
  }

  lemma AnchoredMore(e: Edges, stack: seq<Block>, open: set<Block>, n: Block, i: nat)
    requires i <= |stack| && (i < |stack| ==> Anchored(e, stack, open, i))
    ensures Anchored(e, stack + [n], open + {n}, i)
  {
    hide Reaches;
    if i == |stack| {
      ReachesSelf(e, n);
      assert (stack + [n])[i] == n;
    } else {
      var j :| 0 <= j <= i && stack[j] in open && Reaches(e, stack[i], stack[j]);
      assert (stack + [n])[j] == stack[j] && (stack + [n])[i] == stack[i];
    }
  }

  lemma LeftSame(index: Numbers, stack: seq<Block>, count: int, n: Block)
    requires !Seen(index, n) && count >= 0
    ensures forall b :: Left(index[n := count], stack + [n], b) <==> Left(index, stack, b)
  {
  }

  lemma {:induction false} SeenMore(e: Edges, nodes: set<Block>, index: Numbers, stack: seq<Block>, open: set<Block>,
      n: Block, count: int)
    requires EdgesSeen(e, nodes, index, stack, open) && count >= 0
    ensures EdgesSeen(e, nodes, index[n := count], stack + [n], open + {n})
  {
    forall a, b | a in nodes && Seen(index[n := count], a) && a !in open + {n} && a in e && b in e[a]
      ensures Seen(index[n := count], b) {
      assert Seen(index, a) && Seen(index, b);
    }
  }

  lemma LeftEdgesSame(e: Edges, nodes: set<Block>, index: Numbers, stack: seq<Block>, index1: Numbers,
      stack1: seq<Block>)
    requires EdgesLeft(e, nodes, index, stack) && forall b :: Left(index1, stack1, b) <==> Left(index, stack, b)
    ensures EdgesLeft(e, nodes, index1, stack1)
  {
    hide Left;
  }

  lemma {:induction false} FoundSame(e: Edges, nodes: set<Block>, index: Numbers, stack: seq<Block>, index1: Numbers,
      stack1: seq<Block>, found: set<set<Block>>)
    requires FoundAre(e, nodes, index, stack, found) && forall b :: Left(index1, stack1, b) <==> Left(index, stack, b)
    ensures FoundAre(e, nodes, index1, stack1, found)
  {
    hide Left, IsComponent;
  }

  // ---- Leaving a node that is not the lowest of its component ----

  lemma {:induction false} StayOpen(e: Edges, nodes: set<Block>, index: Numbers, stack: seq<Block>, count: int,
      found: set<set<Block>>, open: set<Block>, m: nat, n: Block, low: int)
    requires Searching(e, nodes, index, stack, count, found, open + {n}) && n !in open
    requires m < |stack| && stack[m] == n && LowReached(e, index, stack, n, low) && low < index[n]
    requires forall b :: n in e && b in e[n] ==> Seen(index, b)
    ensures Searching(e, nodes, index, stack, count, found, open)
  {
    hide Closed, Chained, Anchored, EdgesSeen, EdgesLeft, FoundAre, Reaches;
    forall i: nat | i < |stack| ensures Anchored(e, stack, open, i) {
      AnchorBelow(e, index, stack, count, open, m, n, low, i);
    }
    SeenClosed(e, nodes, index, stack, open, n);
  }

  lemma {:induction false} AnchorBelow(e: Edges, index: Numbers, stack: seq<Block>, count: int, open: set<Block>,
      m: nat, n: Block, low: int, i: nat)
    requires Rising(index, stack, count) && m < |stack| && stack[m] == n && LowReached(e, index, stack, n, low) &&
      low < index[n]
    requires i < |stack| &&
      forall k: nat {:trigger Anchored(e, stack, open + {n}, k)} :: k < |stack| ==> Anchored(e, stack, open + {n}, k)
    ensures Anchored(e, stack, open, i)
  {
    hide Reaches;
    assert Anchored(e, stack, open + {n}, i);
    var j :| 0 <= j <= i && stack[j] in open + {n} && Reaches(e, stack[i], stack[j]);
    if stack[j] == n {
      var k :| 0 <= k < |stack| && index[stack[k]] == low && Reaches(e, n, stack[k]);
      assert k < m == j;
      assert Anchored(e, stack, open + {n}, k);
      var l :| 0 <= l <= k && stack[l] in open + {n} && Reaches(e, stack[k], stack[l]);
      ReachesTrans(e, stack[i], n, stack[k]);
      ReachesTrans(e, stack[i], stack[k], stack[l]);
    }
  }

  lemma SeenClosed(e: Edges, nodes: set<Block>, index: Numbers, stack: seq<Block>, open: set<Block>, n: Block)
    requires EdgesSeen(e, nodes, index, stack, open + {n}) && forall b :: n in e && b in e[n] ==> Seen(index, b)
    ensures EdgesSeen(e, nodes, index, stack, open)
  {
  }

  // ---- Leaving the lowest node of a component ----

  // The nodes from n on the stack upwards.
  function From(stack: seq<Block>, m: nat): set<Block>
    requires m <= |stack|
  {
    set x | x in stack[m..]
  }

  lemma {:induction false} SegmentSealed(e: Edges, nodes: set<Block>, index: Numbers, stack: seq<Block>, count: int,
      found: set<set<Block>>, open: set<Block>, m: nat, n: Block, low: int)
    requires Searching(e, nodes, index, stack, count, found, open + {n}) && n !in open
    requires m < |stack| && stack[m] == n && LowBounds(e, index, stack, m, m, low) && low == index[n]
    requires forall b :: n in e && b in e[n] ==> Seen(index, b)
    requires forall b :: b in open ==> b in stack[..m]
    ensures Sealed(e, From(stack, m) + LeftNodes(nodes, index, stack))
  {
    hide Chained, Anchored, FoundAre, Reaches;
    var left := LeftNodes(nodes, index, stack);
    forall a, b | a in From(stack, m) + left && a in e && b in e[a] ensures b in From(stack, m) + left {
      if a in left {
        assert Left(index, stack, a);
        assert Left(index, stack, b);
      } else {
        SegmentEdge(e, nodes, index, stack, count, found, open, m, n, low, a, b);
      }
    }
  }

  lemma {:induction false} SegmentEdge(e: Edges, nodes: set<Block>, index: Numbers, stack: seq<Block>, count: int,
      found: set<set<Block>>, open: set<Block>, m: nat, n: Block, low: int, a: Block, b: Block)
    requires Searching(e, nodes, index, stack, count, found, open + {n}) && n !in open
    requires m < |stack| && stack[m] == n && LowBounds(e, index, stack, m, m, low) && low == index[n]
    requires forall b :: n in e && b in e[n] ==> Seen(index, b)
    requires forall b :: b in open ==> b in stack[..m]
    requires a in From(stack, m) && a in e && b in e[a]
    ensures b in nodes && (b in From(stack, m) || Left(index, stack, b))
  {
    hide Chained, Anchored, FoundAre, Reaches, EdgesLeft;
    var i :| m <= i < |stack| && stack[i] == a;
    assert a !in open by { NotBelow(index, stack, count, m, i); }
    assert Seen(index, a) && Seen(index, b);
    if b in stack {
      var j :| 0 <= j < |stack| && stack[j] == b;
      EdgeAbove(e, index, stack, count, m, low, i, j);
      assert stack[m..][j - m] == b;
    }
  }

  lemma {:induction false} EdgeAbove(e: Edges, index: Numbers, stack: seq<Block>, count: int, m: nat, low: int,
      i: nat, j: nat)
    requires Rising(index, stack, count) && LowBounds(e, index, stack, m, m, low) && m <= i < |stack| &&
      low == index[stack[m]]
    requires j < |stack| && stack[i] in e && stack[j] in e[stack[i]]
    ensures j >= m
  {
  }

  lemma NotBelow(index: Numbers, stack: seq<Block>, count: int, m: nat, i: nat)
    requires Rising(index, stack, count) && m <= i < |stack|
    ensures stack[i] !in stack[..m]
  {
  }

  // n and what is above it on the stack are one component.
  lemma {:induction false} SegmentIsComponent(e: Edges, nodes: set<Block>, index: Numbers, stack: seq<Block>,
      count: int, found: set<set<Block>>, open: set<Block>, m: nat, n: Block, low: int)
    requires Searching(e, nodes, index, stack, count, found, open + {n}) && n !in open
    requires m < |stack| && stack[m] == n && LowBounds(e, index, stack, m, m, low) && low == index[n]
    requires forall b :: n in e && b in e[n] ==> Seen(index, b)
    requires forall b :: b in open ==> b in stack[..m]
    ensures IsComponent(e, nodes, From(stack, m))
  {
    hide Chained, Anchored, FoundAre, Reaches, EdgesLeft, EdgesSeen, LowBounds, Sealed, Left;
    var c := From(stack, m);
    SegmentSealed(e, nodes, index, stack, count, found, open, m, n, low);
    LeftOffStack(nodes, index, stack);
    assert stack[m..][0] == n;
    forall a | a in c ensures Mutual(e, a, n) && a in nodes {
      SegmentMutual(e, index, stack, count, open, m, n, a, From(stack, m) + LeftNodes(nodes, index, stack));
    }
    forall a, b | a in c && b in nodes ensures b in c <==> Mutual(e, a, b) {
      if b in c {
        ReachesTrans(e, a, n, b);
        ReachesTrans(e, b, n, a);
      } else if Mutual(e, a, b) {
        SegmentWhole(e, nodes, index, stack, count, found, open, m, n, a, b);
      }
    }
  }

  lemma {:induction false} SegmentMutual(e: Edges, index: Numbers, stack: seq<Block>, count: int, open: set<Block>,
      m: nat, n: Block, a: Block, inside: set<Block>)
    requires Rising(index, stack, count) && Chained(e, stack) && m < |stack| && stack[m] == n
    requires forall i: nat {:trigger Anchored(e, stack, open + {n}, i)} :: i < |stack| ==>
      Anchored(e, stack, open + {n}, i)
    requires Sealed(e, inside) && forall b :: b in inside && b in stack ==> b in From(stack, m)
    requires forall b :: b in open ==> b in stack[..m]
    requires a in From(stack, m) && a in inside
    ensures Mutual(e, a, n)
  {
    hide Reaches, Sealed, Rising, Chained, From;
    var i := SegmentPlace(stack, m, a);
    ChainReaches(e, stack, m, i);
    assert Anchored(e, stack, open + {n}, i);
    var j :| 0 <= j <= i && stack[j] in open + {n} && Reaches(e, stack[i], stack[j]);
    ReachesStays(e, inside, a, stack[j]);
    if stack[j] != n { NotInFrom(index, stack, count, m, stack[j]); }
  }

  lemma LeftOffStack(nodes: set<Block>, index: Numbers, stack: seq<Block>)
    ensures forall b :: b in LeftNodes(nodes, index, stack) ==> b !in stack
  {
  }

  lemma SegmentPlace(stack: seq<Block>, m: nat, a: Block) returns (i: nat)
    requires m <= |stack| && a in From(stack, m)
    ensures m <= i < |stack| && stack[i] == a
  {
    i :| m <= i < |stack| && stack[i] == a;
  }

  lemma NotInFrom(index: Numbers, stack: seq<Block>, count: int, m: nat, b: Block)
    requires Rising(index, stack, count) && m <= |stack| && b in stack[..m]
    ensures b !in From(stack, m)
  {
  }

  lemma {:induction false} SegmentWhole(e: Edges, nodes: set<Block>, index: Numbers, stack: seq<Block>, count: int,
      found: set<set<Block>>, open: set<Block>, m: nat, n: Block, a: Block, b: Block)
    requires Searching(e, nodes, index, stack, count, found, open + {n}) && m < |stack|
    requires Sealed(e, From(stack, m) + LeftNodes(nodes, index, stack))
    requires a in From(stack, m) && b in nodes && Mutual(e, a, b)
    ensures b in From(stack, m)
  {
    hide Closed, FoundAre, Reaches, EdgesSeen, Sealed, Rising, Chained, Anchored;
    var left := LeftNodes(nodes, index, stack);
    ReachesStays(e, From(stack, m) + left, a, b);
    LeftSealed(e, nodes, index, stack);
    if b in left { ReachesStays(e, left, b, a); }
    assert a in stack[m..];
  }

  lemma LeftSealed(e: Edges, nodes: set<Block>, index: Numbers, stack: seq<Block>)
    requires EdgesLeft(e, nodes, index, stack) && Closed(e, nodes)
    ensures Sealed(e, LeftNodes(nodes, index, stack))
  {
    var left := LeftNodes(nodes, index, stack);
    forall a, b | a in left && a in e && b in e[a] ensures b in left {
      assert Left(index, stack, a);
      assert Left(index, stack, b);
    }
  }

  // Popping the component.
  lemma {:induction false} PopComponent(e: Edges, nodes: set<Block>, index: Numbers, stack: seq<Block>, count: int,
      found: set<set<Block>>, open: set<Block>, m: nat, n: Block, low: int, found1: set<set<Block>>)
    requires Searching(e, nodes, index, stack, count, found, open + {n}) && n !in open
    requires m < |stack| && stack[m] == n && LowBounds(e, index, stack, m, m, low) && low == index[n]
    requires forall b :: n in e && b in e[n] ==> Seen(index, b)
    requires forall b :: b in open ==> b in stack[..m]
    requires found1 == if |From(stack, m)| == 1 then found else found + {From(stack, m)}
    ensures Searching(e, nodes, index, stack[..m], count, found1, open)
  {
    hide Closed, Chained, Anchored, EdgesSeen, EdgesLeft, FoundAre, Reaches, LowBounds, Sealed, Rising, IsComponent,
      Left;
    SegmentIsComponent(e, nodes, index, stack, count, found, open, m, n, low);
    SegmentSealed(e, nodes, index, stack, count, found, open, m, n, low);
    forall i: nat | i < m
      ensures Anchored(e, stack[..m], open, i) { AnchoredPrefix(e, index, stack, count, open, m, n, i); }
    SeenClosed(e, nodes, index, stack, open, n);
    LeftMore(index, stack, count, m);
    EdgesLeftMore(e, nodes, index, stack, count, m);
    FoundMore(e, nodes, index, stack, count, found, m, found1);
    ChainedPrefix(e, stack, m);
    RisingPrefix(index, stack, count, m);
    SeenPrefix(e, nodes, index, stack, open, m);
  }

  lemma {:induction false} AnchoredPrefix(e: Edges, index: Numbers, stack: seq<Block>, count: int, open: set<Block>,
      m: nat, n: Block, i: nat)
    requires Rising(index, stack, count) && i < m < |stack| && stack[m] == n
    requires forall k: nat {:trigger Anchored(e, stack, open + {n}, k)} :: k < |stack| ==>
      Anchored(e, stack, open + {n}, k)
    ensures Anchored(e, stack[..m], open, i)
  {
    hide Reaches;
    assert Anchored(e, stack, open + {n}, i);
    var j :| 0 <= j <= i && stack[j] in open + {n} && Reaches(e, stack[i], stack[j]);
    assert stack[..m][j] == stack[j] && stack[..m][i] == stack[i];
  }

  lemma LeftMore(index: Numbers, stack: seq<Block>, count: int, m: nat)
    requires Rising(index, stack, count) && m <= |stack|
    ensures forall b :: Left(index, stack[..m], b) <==> Left(index, stack, b) || b in From(stack, m)
  {
    forall b ensures Left(index, stack[..m], b) <==> Left(index, stack, b) || b in From(stack, m) {
      if b in stack {
        var i :| 0 <= i < |stack| && stack[i] == b;
        assert i >= m ==> stack[m..][i - m] == b;
        assert i < m ==> stack[..m][i] == b;
      }
      if b in From(stack, m) { assert b !in stack[..m]; }
    }
  }

  lemma EdgesLeftMore(e: Edges, nodes: set<Block>, index: Numbers, stack: seq<Block>, count: int, m: nat)
    requires m <= |stack| && Sealed(e, From(stack, m) + LeftNodes(nodes, index, stack))
    requires forall b :: Left(index, stack[..m], b) <==> Left(index, stack, b) || b in From(stack, m)
    requires forall b :: b in stack ==> b in nodes
    ensures EdgesLeft(e, nodes, index, stack[..m])
  {
    hide Left, From;
    var left := LeftNodes(nodes, index, stack);
    forall a, b | a in nodes && Left(index, stack[..m], a) && a in e && b in e[a] ensures Left(index, stack[..m], b) {
      assert a in From(stack, m) + left;
      assert b in From(stack, m) + left;
    }
  }

  lemma {:induction false} FoundMore(e: Edges, nodes: set<Block>, index: Numbers, stack: seq<Block>, count: int,
      found: set<set<Block>>, m: nat, found1: set<set<Block>>)
    requires FoundAre(e, nodes, index, stack, found) && m < |stack| && IsComponent(e, nodes, From(stack, m))
    requires forall b :: Left(index, stack[..m], b) <==> Left(index, stack, b) || b in From(stack, m)
    requires found1 == if |From(stack, m)| == 1 then found else found + {From(stack, m)}
    ensures FoundAre(e, nodes, index, stack[..m], found1)
  {
    hide Left, IsComponent, From;
    var d := From(stack, m);
    NotEmpty(stack, m);
    forall c
      ensures c in found1 <==>
        IsComponent(e, nodes, c) && |c| > 1 && forall b :: b in c ==> Left(index, stack[..m], b) {
      assert c in found <==> IsComponent(e, nodes, c) && |c| > 1 && forall b :: b in c ==> Left(index, stack, b);
      if IsComponent(e, nodes, c) && c != d { ComponentsApart(e, nodes, c, d); }
    }
  }

  lemma NotEmpty(stack: seq<Block>, m: nat)
    requires m < |stack|
    ensures From(stack, m) != {} && |From(stack, m)| >= 1
  {
    assert stack[m..][0] in From(stack, m);
  }

  lemma ChainedPrefix(e: Edges, stack: seq<Block>, m: nat)
    requires Chained(e, stack) && m <= |stack|
    ensures Chained(e, stack[..m])
  {
    hide Reaches;
  }

  lemma RisingPrefix(index: Numbers, stack: seq<Block>, count: int, m: nat)
    requires Rising(index, stack, count) && m <= |stack|
    ensures Rising(index, stack[..m], count)
  {
  }

  lemma SeenPrefix(e: Edges, nodes: set<Block>, index: Numbers, stack: seq<Block>, open: set<Block>, m: nat)
    requires EdgesSeen(e, nodes, index, stack, open) && m <= |stack|
    ensures EdgesSeen(e, nodes, index, stack[..m], open)
  {
  }

  // ---- Walking through the successors of a node ----

  lemma {:induction false} ContinuesTrans(index: Numbers, stack: seq<Block>, count: int, found: set<set<Block>>,
      index1: Numbers, stack1: seq<Block>, count1: int, found1: set<set<Block>>, index2: Numbers, stack2: seq<Block>,
        count2: int, found2: set<set<Block>>)
    requires Continues(index, stack, count, found, index1, stack1, count1, found1)
    requires Continues(index1, stack1, count1, found1, index2, stack2, count2, found2) && count >= 0
    ensures Continues(index, stack, count, found, index2, stack2, count2, found2)
  {
  }

  lemma {:induction false} ContinuesBack(index: Numbers, stack: seq<Block>, count: int, found: set<set<Block>>,
      index1: Numbers, stack1: seq<Block>, count1: int, found1: set<set<Block>>, found2: set<set<Block>>)
    requires Continues(index, stack, count, found, index1, stack1, count1, found1) && found1 <= found2
    ensures Continues(index, stack, count, found, index1, stack1[..|stack|], count1, found2)
    ensures stack1[..|stack|] == stack
  {
  }

  // The call for n stands at stack[m]; its successors but `rest` have been looked at, and low
  // is n's low link.
  ghost predicate Visiting(e: Edges, index: Numbers, stack: seq<Block>, m: nat, n: Block, low: int, rest: set<Block>) {
    && m < |stack| && stack[m] == n && n in index && n in e && low <= index[n] && rest <= e[n]
    && LowReached(e, index, stack, n, low)
    && LowBounds(e, index, stack, m, m + 1, low)
    && (forall b :: b in e[n] && b !in rest ==> Seen(index, b))
    && (forall j {:trigger stack[j]} :: 0 <= j < m && stack[j] in e[n] && stack[j] !in rest && stack[j] in index ==>
         low <= index[stack[j]])
  }

  lemma VisitStart(e: Edges, index: Numbers, stack: seq<Block>, n: Block, count: int)
    requires n in e
    ensures Visiting(e, index[n := count], stack + [n], |stack|, n, count, e[n])
  {
    hide Reaches;
    ReachesSelf(e, n);
    assert (stack + [n])[|stack|] == n;
  }

  lemma VisitEnd(e: Edges, index: Numbers, stack: seq<Block>, m: nat, n: Block, low: int)
    requires Visiting(e, index, stack, m, n, low, {})
    ensures m < |stack| && stack[m] == n && n in index && low <= index[n] && LowReached(e, index, stack, n, low)
    ensures LowBounds(e, index, stack, m, m, low) && forall b :: n in e && b in e[n] ==> Seen(index, b)
  {
    hide Reaches;
    forall i, j | m <= i < |stack| && 0 <= j < m && stack[i] in e && stack[j] in e[stack[i]] && stack[j] in index
      ensures low <= index[stack[j]]
    {
      if i == m { assert stack[j] in e[n]; }
    }
  }

  // A successor seen for the first time: its call has returned with low link sub.
  lemma {:induction false} VisitChild(e: Edges, index: Numbers, stack: seq<Block>, count: int, found: set<set<Block>>,
      index1: Numbers, stack1: seq<Block>, count1: int, found1: set<set<Block>>, m: nat, n: Block, low: int,
        rest: set<Block>, su: Block, sub: int)
    requires Visiting(e, index, stack, m, n, low, rest) && su in rest && !Seen(index, su) && Rising(index, stack, count)
    requires Continues(index, stack, count, found, index1, stack1, count1, found1)
    requires Seen(index1, su) && LowIs(e, index1, stack1, |stack|, su, sub)
    ensures Visiting(e, index1, stack1, m, n, if low < sub then low else sub, rest - {su})
  {
    hide Reaches, Continues, LowIs, LowBounds, LowReached;
    KeptStack(index, stack, count, found, index1, stack1, count1, found1);
    VisitChildLow(e, index, stack, count, found, index1, stack1, count1, found1, n, low, su, sub);
    VisitChildBounds(e, index, stack, index1, stack1, m, low, su, sub);
  }

  lemma {:induction false} KeptStack(index: Numbers, stack: seq<Block>, count: int, found: set<set<Block>>,
      index1: Numbers, stack1: seq<Block>, count1: int, found1: set<set<Block>>)
    requires Rising(index, stack, count) && Continues(index, stack, count, found, index1, stack1, count1, found1)
    ensures |stack| <= |stack1| &&
      forall i :: 0 <= i < |stack| ==>
        stack1[i] == stack[i] && stack[i] in index && stack[i] in index1 && index1[stack[i]] == index[stack[i]]
    ensures forall b :: Seen(index, b) ==> Seen(index1, b) && index1[b] == index[b]
    ensures index1.Keys == index.Keys
  {
  }

  lemma {:induction false} VisitChildLow(e: Edges, index: Numbers, stack: seq<Block>, count: int,
      found: set<set<Block>>, index1: Numbers, stack1: seq<Block>, count1: int, found1: set<set<Block>>, n: Block,
        low: int, su: Block, sub: int)
    requires Rising(index, stack, count) && Continues(index, stack, count, found, index1, stack1, count1, found1)
    requires n in e && su in e[n] && LowReached(e, index, stack, n, low) && LowIs(e, index1, stack1, |stack|, su, sub)
    requires !Seen(index, su) && Seen(index1, su)
    ensures LowReached(e, index1, stack1, n, if low < sub then low else sub)
  {
    hide Reaches, LowBounds;
    if low < sub || su !in stack1 {
      var j :| 0 <= j < |stack| && stack[j] in index && index[stack[j]] == low && Reaches(e, n, stack[j]);
      assert stack1[j] == stack[j] && index1[stack1[j]] == low;
      assert su !in stack1 ==> sub >= count > low;
    } else {
      var j :| 0 <= j < |stack1| && stack1[j] in index1 && index1[stack1[j]] == sub && Reaches(e, su, stack1[j]);
      ReachesEdge(e, n, su);
      ReachesTrans(e, n, su, stack1[j]);
    }
  }

  lemma {:induction false} VisitChildBounds(e: Edges, index: Numbers, stack: seq<Block>, index1: Numbers,
      stack1: seq<Block>, m: nat, low: int, su: Block, sub: int)
    requires m < |stack| <= |stack1| && LowBounds(e, index, stack, m, m + 1, low) &&
      LowIs(e, index1, stack1, |stack|, su, sub)
    requires index1.Keys == index.Keys &&
      forall i :: 0 <= i < |stack| ==> stack1[i] == stack[i] && stack[i] in index && index1[stack[i]] == index[stack[i]]
    ensures LowBounds(e, index1, stack1, m, m + 1, if low < sub then low else sub)
  {
    hide LowReached;
    forall i, j | m + 1 <= i < |stack1| && 0 <= j < m && stack1[i] in e && stack1[j] in e[stack1[i]] &&
      stack1[j] in index1
      ensures (if low < sub then low else sub) <= index1[stack1[j]]
    {
      if i < |stack| { assert stack[i] == stack1[i] && stack[j] == stack1[j]; }
    }
  }

  // A successor that is on the stack.
  lemma {:induction false} VisitBack(e: Edges, index: Numbers, stack: seq<Block>, m: nat, n: Block, low: int,
      rest: set<Block>, su: Block)
    requires Visiting(e, index, stack, m, n, low, rest) && su in rest && Seen(index, su) && su in stack
    ensures Visiting(e, index, stack, m, n, if low < index[su] then low else index[su], rest - {su})
  {
    hide Reaches;
    ReachesEdge(e, n, su);
    var k :| 0 <= k < |stack| && stack[k] == su;
  }

  // A successor whose component is complete.
  lemma {:induction false} VisitCross(e: Edges, index: Numbers, stack: seq<Block>, m: nat, n: Block, low: int,
      rest: set<Block>, su: Block)
    requires Visiting(e, index, stack, m, n, low, rest) && su in rest && Seen(index, su) && su !in stack
    ensures Visiting(e, index, stack, m, n, low, rest - {su})
  {
    hide Reaches, LowReached, LowBounds;
  }

  // ---- The measure and the end of the search ----

  ghost function Unseen(nodes: set<Block>, index: Numbers): set<Block> {
    set b | b in nodes && !Seen(index, b)
  }

  lemma {:induction false} UnseenFalls(nodes: set<Block>, index: Numbers, stack: seq<Block>, count: int,
      found: set<set<Block>>, index1: Numbers, stack1: seq<Block>, count1: int, found1: set<set<Block>>, n: Block)
    requires Continues(index, stack, count, found, index1, stack1, count1, found1)
    requires n in nodes && !Seen(index, n) && Seen(index1, n)
    ensures Unseen(nodes, index1) < Unseen(nodes, index)
  {
    assert n in Unseen(nodes, index) && n !in Unseen(nodes, index1);
  }

  lemma SearchStart(e: Edges, nodes: set<Block>, index: Numbers)
    requires Closed(e, nodes) && nodes <= index.Keys && forall b :: b in nodes ==> index[b] == -1
    ensures Searching(e, nodes, index, [], 0, {}, {})
  {
    forall c | IsComponent(e, nodes, c) ensures !(forall b :: b in c ==> Left(index, [], b)) {
      var b :| b in c;
      assert !Left(index, [], b);
    }
  }

  // When every node has been visited and no call is open, all components have been found.
  lemma SearchEnd(e: Edges, nodes: set<Block>, index: Numbers, stack: seq<Block>, count: int, found: set<set<Block>>)
    requires Searching(e, nodes, index, stack, count, found, {}) && forall b :: b in nodes ==> Seen(index, b)
    ensures stack == [] && forall c {:trigger c in found} :: c in found <==> IsComponent(e, nodes, c) && |c| > 1
  {
    hide Reaches, Closed, Rising, Chained, EdgesSeen, EdgesLeft;
    assert |stack| > 0 ==> Anchored(e, stack, {}, 0);
  }
}
