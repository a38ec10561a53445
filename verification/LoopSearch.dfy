/** The loop search: Tarjan's algorithm, run again and again on what is left of the control
    flow graph when the base of every loop found has been taken out. */
module LoopSearch {
  import opened Wrappers
  import opened Cfg
  import opened Ir
  import opened Components
  import opened LoopNest

  class LoopSearch {
    // The fields of the graph nodes; a node is named by its block.
    var succs: Edges
    var prevs: Edges
    var index: Numbers
    var lowlink: Numbers
    var onStack: map<Block, bool>
    // The search.
    var indexCount: int
    var stack: seq<Block>
    // The loops found; bb2base maps a block to the base of the innermost loop it is in.
    var loopSet: set<set<Block>>
    var base2loop: map<Block, set<Block>>
    var loop2base: map<set<Block>, Block>
    var bb2base: map<Block, Block>
    ghost var loops: seq<Loop>   // in the order in which they are found

    constructor ()
      ensures Maps() && loops == []
    {
      succs, prevs, index, lowlink, onStack, indexCount, stack := map[], map[], map[], map[], map[], 0, [];
      loopSet, base2loop, loop2base, bb2base, loops := {}, map[], map[], map[], [];
    }

    // The maps describe the loops found.
    ghost predicate Maps()
      reads this`loops, this`loopSet, this`base2loop, this`loop2base, this`bb2base
    {
      LoopMaps(loops, loopSet, base2loop, loop2base) && BlockMap(loops, bb2base)
    }

    // ---- The search for one function ----

    method Run(g: Graph)
      requires g.WellFormed() && Maps() && loops == []
      modifies this
      ensures LoopsOk(g, loops) && Maps()
      ensures forall p :: Cycle(g, p) ==> Covered(loops, p)
    {
      hide *;
      GraphValid(g);
      var nodes := BuildCfg(g);
      var reserved := {};
      NoLoops(g, loops);
      LeftOverClosed(g, nodes, reserved, succs, prevs);
      var sccs := StronglyConnectedComponents(nodes);
      RoundStart(g, nodes, reserved, succs, prevs, sccs);
      while sccs != {}
        invariant LeftOver(g, nodes, reserved, succs, prevs) && nodes <= index.Keys &&
          Fields(nodes, lowlink, onStack, [])
        invariant LoopsOk(g, loops) && Maps() && reserved == Bases(loops) && GoneBy(loops, reserved) &&
          CyclesCovered(g, loops, reserved)
        invariant RoundOf(g, reserved, sccs)
        decreases nodes
      {
        ghost var nodes0 := nodes;
        nodes, reserved := PeelLoops(g, nodes, reserved, sccs);
        FieldsFewer(nodes0, nodes, lowlink, onStack);
        ResetNodes(nodes);
        LeftOverClosed(g, nodes, reserved, succs, prevs);
        sccs := StronglyConnectedComponents(nodes);
        RoundStart(g, nodes, reserved, succs, prevs, sccs);
      }
      RoundOver(g, reserved, sccs);
      CoverEnd(g, loops, reserved);
    }

    // One node for each block, none visited.
    method BuildCfg(g: Graph) returns (nodes: set<Block>)
      requires g.Valid()
      modifies this`succs, this`prevs, this`index, this`lowlink, this`onStack
      ensures LeftOver(g, nodes, {}, succs, prevs) && nodes <= index.Keys && Fields(nodes, lowlink, onStack, [])
      ensures forall b :: b in nodes ==> index[b] == -1
    {
      hide *;
      CfgKeys(g);
      nodes := Elements(g.blocks);
      index := map b | b in nodes :: -1;
      lowlink := map b | b in nodes :: -1;
      onStack := map b | b in nodes :: false;
      succs := map b | b in g.succ :: Elements(g.succ[b]);
      prevs := map b | b in g.pred :: Elements(g.pred[b]);
      NodesFresh(nodes, lowlink, onStack);
      CfgNodes(g, nodes, succs, prevs);
    }

    method ResetNodes(nodes: set<Block>)
      requires nodes <= index.Keys && Fields(nodes, lowlink, onStack, [])
      modifies this`index, this`lowlink, this`onStack
      ensures nodes <= index.Keys && Fields(nodes, lowlink, onStack, []) && forall b :: b in nodes ==> index[b] == -1
    {
      var rest := nodes;
      while rest != {}
        invariant rest <= nodes <= index.Keys && Fields(nodes, lowlink, onStack, [])
        invariant forall b :: b in nodes && b !in rest ==> index[b] == -1
        decreases rest
      {
        var n :| n in rest;
        index := index[n := -1];
        lowlink := lowlink[n := -1];
        onStack := onStack[n := false];
        rest := rest - {n};
      }
    }

    // Records the loops of one round and takes out their bases.
    method PeelLoops(g: Graph, nodes0: set<Block>, reserved0: set<Block>,
        sccs: set<set<Block>>) returns (nodes: set<Block>, reserved: set<Block>)
      requires g.WellFormed() && LeftOver(g, nodes0, reserved0, succs, prevs)
      requires LoopsOk(g, loops) && Maps() && reserved0 == Bases(loops) && GoneBy(loops, reserved0) &&
        CyclesCovered(g, loops, reserved0)
      requires RoundOf(g, reserved0, sccs) && sccs != {}
      modifies this`succs, this`prevs, this`loopSet, this`base2loop, this`loop2base, this`bb2base, this`loops
      ensures LeftOver(g, nodes, reserved, succs, prevs) && nodes < nodes0
      ensures LoopsOk(g, loops) && Maps() && reserved == Bases(loops) && GoneBy(loops, reserved) &&
        CyclesCovered(g, loops, reserved)
    {
      hide *;
      GraphValid(g);
      nodes, reserved := nodes0, reserved0;
      RoundWaits(g, reserved, sccs);
      var rest := sccs;
      while rest != {}
        invariant rest <= sccs && LeftOver(g, nodes, reserved, succs, prevs) && Waiting(g, reserved0, reserved, rest)
        invariant LoopsOk(g, loops) && Maps() && reserved == Bases(loops) && reserved0 <= reserved
        invariant GoneBy(loops, reserved0) && CyclesCovered(g, loops, reserved)
        invariant nodes <= nodes0 && (rest != sccs ==> nodes < nodes0)
        decreases rest
      {
        var scc :| scc in rest;
        WaitingFacts(g, reserved0, reserved, rest, scc, nodes, succs, prevs);
        var base := FindLoopBase(g, scc, reserved0, reserved, nodes);
        ghost var loop := Loop(base.value, scc, reserved0);
        LoopFound(g, loops, reserved0, reserved, loop, nodes, succs, prevs);
        Record(g, base.value, scc, loop);
        WaitingNext(g, reserved0, reserved, rest, scc, base.value);
        reserved := reserved + {base.value};
        RemoveBase(g, nodes, base.value, reserved - {base.value});
        nodes := nodes - {base.value};
        rest := rest - {scc};
      }
      GoneLater(loops, reserved0, reserved);
    }

    // A member with a predecessor outside the component, among the nodes or among the bases
    // taken out; there is one.
    method FindLoopBase(ghost g: Graph, scc: set<Block>, ghost reserved0: set<Block>, reserved: set<Block>,
        ghost nodes: set<Block>)
      returns (base: Option<Block>)
      requires g.WellFormed() && LeftOver(g, nodes, reserved, succs, prevs) && scc <= nodes
      requires IsComponent(Rest(g, reserved0), LoopNest.Left(g, reserved0), scc) && |scc| > 1
      ensures base.Some? && exists p :: Enters(g, scc, p, base.value)
    {
      hide *;
      ghost var p, n := ComponentEntered(g, reserved0, scc);
      EntrySeen(g, scc, nodes, reserved, succs, prevs, p, n);
      PrevsAre(g, nodes, reserved, succs, prevs);
      base := None;
      var rest := scc;
      while rest != {}
        invariant rest <= scc && BaseIs(g, scc, base) && (p in nodes && n !in rest ==> base.Some?)
        decreases rest
      {
        var m :| m in rest;
        var ps := prevs[m];
        while ps != {}
          invariant ps <= prevs[m] && BaseIs(g, scc, base) && (p in nodes && n !in rest ==> base.Some?)
          invariant p in nodes && n == m && p !in ps ==> base.Some?
          decreases ps
        {
          var prev :| prev in ps;
          if prev !in scc {
            PrevEnters(g, nodes, reserved, succs, prevs, scc, prev, m);
            base := Some(m);
          }
          ps := ps - {prev};
        }
        rest := rest - {m};
      }
      BaseEnters(g, scc, base);
      if base.Some? { return; }
      var bases := reserved;
      while bases != {}
        invariant bases <= reserved && BaseIs(g, scc, base) && (p in reserved && p !in bases ==> base.Some?)
        decreases bases
      {
        var r :| r in bases;
        var ss := succs[r];
        while ss != {}
          invariant ss <= succs[r] && BaseIs(g, scc, base) && (p in reserved && p !in bases ==> base.Some?)
          invariant p == r && n !in ss ==> base.Some?
          decreases ss
        {
          var succ :| succ in ss;
          if succ in scc {
            SuccEnters(g, nodes, reserved, succs, prevs, scc, r, succ);
            base := Some(succ);
          }
          ss := ss - {succ};
        }
        bases := bases - {r};
      }
      BaseEnters(g, scc, base);
    }

    method Record(ghost g: Graph, base: Block, scc: set<Block>, ghost loop: Loop)
      requires Maps() && loop.base == base && loop.body == scc && base !in Bases(loops) && scc !in BodiesOf(loops)
      modifies this`loopSet, this`base2loop, this`loop2base, this`bb2base, this`loops
      ensures Maps() && loops == old(loops) + [loop]
    {
      hide *;
      MapsParts(loops, loopSet, base2loop, loop2base, bb2base);
      MapsMore(loops, loopSet, base2loop, loop2base, loop);
      loopSet := loopSet + {scc};
      if base !in base2loop { base2loop := base2loop[base := scc]; }
      if scc !in loop2base { loop2base := loop2base[scc := base]; }
      ghost var were := bb2base;
      MapBlocks(scc, base);
      BlockMapMore(loops, were, loop, bb2base);
      loops := loops + [loop];
      MapsMake(loops, loopSet, base2loop, loop2base, bb2base);
    }

    method MapBlocks(scc: set<Block>, base: Block)
      modifies this`bb2base
      ensures bb2base == old(bb2base) + map x | x in scc :: base
    {
      var rest := scc;
      while rest != {}
        invariant rest <= scc && bb2base == old(bb2base) + map x | x in scc - rest :: base
        decreases rest
      {
        var bb :| bb in rest;
        bb2base := bb2base[bb := base];
        rest := rest - {bb};
      }
      assert scc - rest == scc;
    }

    lemma MapsParts(loops: seq<Loop>, loopSet: set<set<Block>>, base2loop: map<Block, set<Block>>,
        loop2base: map<set<Block>, Block>, bb2base: map<Block, Block>)
      requires Maps() && loops == this.loops && loopSet == this.loopSet && base2loop == this.base2loop &&
        loop2base == this.loop2base && bb2base == this.bb2base
      ensures LoopMaps(loops, loopSet, base2loop, loop2base) && BlockMap(loops, bb2base)
      ensures base2loop.Keys == Bases(loops) && loop2base.Keys == BodiesOf(loops)
    {
    }

    lemma MapsMake(loops: seq<Loop>, loopSet: set<set<Block>>, base2loop: map<Block, set<Block>>,
        loop2base: map<set<Block>, Block>, bb2base: map<Block, Block>)
      requires loops == this.loops && loopSet == this.loopSet && base2loop == this.base2loop &&
        loop2base == this.loop2base && bb2base == this.bb2base
      requires LoopMaps(loops, loopSet, base2loop, loop2base) && BlockMap(loops, bb2base)
      ensures Maps()
    {
    }

    method RemoveBase(ghost g: Graph, ghost nodes: set<Block>, base: Block, ghost reserved: set<Block>)
      requires LeftOver(g, nodes, reserved, succs, prevs) && base in nodes
      modifies this`succs, this`prevs
      ensures LeftOver(g, nodes - {base}, reserved + {base}, succs, prevs)
    {
      hide *;
      ghost var prevs0 := prevs;
      LeftOverKeys(g, nodes, reserved, succs, prevs);
      DropFromPrevs(base);
      BaseTaken(g, nodes, reserved, succs, prevs0, base, prevs);
      CutKeys(prevs0, succs[base], base);
      DropFromSuccs(base);
    }

    method DropFromPrevs(base: Block)
      requires base in succs && succs[base] <= prevs.Keys
      modifies this`prevs
      ensures prevs == Cut(old(prevs), succs[base], base)
    {
      hide *;
      CutNone(prevs, base);
      var rest := succs[base];
      assert succs[base] - rest == {};
      while rest != {}
        invariant rest <= succs[base] && prevs == Cut(old(prevs), succs[base] - rest, base)
        decreases rest
      {
        var su :| su in rest;
        CutOne(old(prevs), succs[base] - rest, base, su);
        prevs := prevs[su := prevs[su] - {base}];
        assert succs[base] - (rest - {su}) == succs[base] - rest + {su};
        rest := rest - {su};
      }
      assert succs[base] - rest == succs[base];
    }

    method DropFromSuccs(base: Block)
      requires base in prevs && prevs[base] <= succs.Keys
      modifies this`succs
      ensures succs == Cut(old(succs), prevs[base], base)
    {
      hide *;
      CutNone(succs, base);
      var rest := prevs[base];
      assert prevs[base] - rest == {};
      while rest != {}
        invariant rest <= prevs[base] && succs == Cut(old(succs), prevs[base] - rest, base)
        decreases rest
      {
        var prev :| prev in rest;
        CutOne(old(succs), prevs[base] - rest, base, prev);
        succs := succs[prev := succs[prev] - {base}];
        assert prevs[base] - (rest - {prev}) == prevs[base] - rest + {prev};
        rest := rest - {prev};
      }
      assert prevs[base] - rest == prevs[base];
    }

    // ---- Queries ----

    method GetLoopBase(loop: set<Block>) returns (base: Block)
      requires Maps() && loop in loopSet
      ensures base in base2loop && base2loop[base] == loop
    {
      MapsInverse(loops, loopSet, base2loop, loop2base);
      base := loop2base[loop];
    }

    // The innermost loop that holds bb, if any.
    method GetInnerLoop(ghost g: Graph, bb: Block) returns (loop: Option<set<Block>>)
      requires LoopsOk(g, loops) && Maps()
      ensures loop.None? <==> forall c :: c in loopSet ==> bb !in c
      ensures loop.Some? ==> loop.value in loopSet && bb in loop.value && forall c :: c in loopSet && bb in c ==>
        loop.value <= c
    {
      hide *;
      MapsParts(loops, loopSet, base2loop, loop2base, bb2base);
      InnerLoop(g, loops, loopSet, base2loop, loop2base, bb2base, bb);
      if bb !in bb2base {
        loop := None;
      } else {
        loop := Some(base2loop[bb2base[bb]]);
      }
    }

    // ---- Tarjan's algorithm ----

    // Adds the strongly connected components with two nodes or more.
    method StronglyConnectedComponents(nodes: set<Block>) returns (result: set<set<Block>>)
      requires Closed(succs, nodes) && nodes <= index.Keys && Fields(nodes, lowlink, onStack, [])
      requires forall b :: b in nodes ==> index[b] == -1
      modifies this`index, this`lowlink, this`onStack, this`indexCount, this`stack
      ensures forall c {:trigger c in result} :: c in result <==> IsComponent(succs, nodes, c) && |c| > 1
      ensures index.Keys == old(index.Keys) && Fields(nodes, lowlink, onStack, []) && stack == []
    {
      hide *;
      indexCount := 0;
      stack := [];
      result := {};
      SearchStart(succs, nodes, index);
      var rest := nodes;
      while rest != {}
        invariant rest <= nodes && Searching(succs, nodes, index, stack, indexCount, result, {})
        invariant Fields(nodes, lowlink, onStack, stack) && index.Keys == old(index.Keys)
        invariant forall b :: b in nodes && b !in rest ==> Seen(index, b)
        decreases rest
      {
        var n :| n in rest;
        SearchNodes(succs, nodes, index, stack, indexCount, result, {});
        NothingOpen(succs, n);
        SeenIs(index, n);
        ghost var index0, stack0, count0, result0 := index, stack, indexCount, result;
        if index[n] == -1 {
          result := Traverse(nodes, n, result, {});
          StillSeen(index0, stack0, count0, result0, index, stack, indexCount, result);
        }
        rest := rest - {n};
      }
      SearchEnd(succs, nodes, index, stack, indexCount, result);
    }

    // Visits n and what it reaches; `open` are the nodes whose call has not returned.
    method Traverse(ghost nodes: set<Block>, n: Block, result0: set<set<Block>>,
        ghost open: set<Block>) returns (result: set<set<Block>>)
      requires Searching(succs, nodes, index, stack, indexCount, result0, open) &&
        Fields(nodes, lowlink, onStack, stack)
      requires n in nodes && !Seen(index, n) && OpenReach(succs, open, n)
      modifies this`index, this`lowlink, this`onStack, this`indexCount, this`stack
      ensures Searching(succs, nodes, index, stack, indexCount, result, open) && Fields(nodes, lowlink, onStack, stack)
      ensures Continues(old(index), old(stack), old(indexCount), result0, index, stack, indexCount, result)
      ensures Seen(index, n) && n in lowlink && LowIs(succs, index, stack, |old(stack)|, n, lowlink[n])
      ensures LowsKept(old(index), old(lowlink), lowlink)
      decreases Unseen(nodes, index)
    {
      hide *;
      SearchNodes(succs, nodes, index, stack, indexCount, result0, open);
      EnterNode(succs, nodes, index, stack, indexCount, result0, open, n);
      NotOnStack(index, stack, indexCount, n);
      FieldsPush(nodes, index, lowlink, onStack, stack, n, indexCount);
      VisitStart(succs, index, stack, n, indexCount);
      index := index[n := indexCount];
      SeenIs(index, n);
      indexCount := indexCount + 1;
      lowlink := lowlink[n := index[n]];
      stack := stack + [n];
      onStack := onStack[n := true];
      result := result0;
      ghost var m := |old(stack)|;
      var rest := succs[n];
      while rest != {}
        invariant rest <= succs[n] && Seen(index, n) && Fields(nodes, lowlink, onStack, stack)
        invariant Searching(succs, nodes, index, stack, indexCount, result, open + {n})
        invariant Continues(old(index), old(stack), old(indexCount), result0, index, stack, indexCount, result)
        invariant n in lowlink && Visiting(succs, index, stack, m, n, lowlink[n], rest)
        invariant LowsKept(old(index), old(lowlink), lowlink)
        decreases rest
      {
        var su :| su in rest;
        SearchNodes(succs, nodes, index, stack, indexCount, result, open + {n});
        SeenIs(index, su);
        FieldsAt(nodes, lowlink, onStack, stack, su);
        ghost var index1, stack1, count1, result1, low1 := index, stack, indexCount, result, lowlink;
        if index[su] == -1 {
          OpenEdge(succs, open + {n}, n, su);
          UnseenFalls(nodes, old(index), old(stack), old(indexCount), result0, index, stack, indexCount, result, n);
          result := Traverse(nodes, su, result, open + {n});
          VisitChild(succs, index1, stack1, count1, result1, index, stack, indexCount, result, m, n, low1[n], rest,
            su, lowlink[su]);
          ContinuesTrans(old(index), old(stack), old(indexCount), result0, index1, stack1, count1, result1, index,
            stack, indexCount, result);
          LowsTrans(old(index), old(stack), old(indexCount), result0, index1, stack1, count1, result1, old(lowlink),
            low1, lowlink);
          LowAt(index1, low1, lowlink, n);
          StillSeen(index1, stack1, count1, result1, index, stack, indexCount, result);
          LowsUpdate(old(index), old(lowlink), lowlink, n, if lowlink[n] < lowlink[su] then lowlink[n]
            else lowlink[su]);
          FieldsLow(nodes, lowlink, onStack, stack, n, if lowlink[n] < lowlink[su] then lowlink[n] else lowlink[su]);
          lowlink := lowlink[n := if lowlink[n] < lowlink[su] then lowlink[n] else lowlink[su]];
        } else if onStack[su] {
          VisitBack(succs, index, stack, m, n, lowlink[n], rest, su);
          LowsUpdate(old(index), old(lowlink), lowlink, n, if lowlink[n] < index[su] then lowlink[n] else index[su]);
          FieldsLow(nodes, lowlink, onStack, stack, n, if lowlink[n] < index[su] then lowlink[n] else index[su]);
          lowlink := lowlink[n := if lowlink[n] < index[su] then lowlink[n] else index[su]];
        } else {
          VisitCross(succs, index, stack, m, n, lowlink[n], rest, su);
        }
        rest := rest - {su};
      }
      VisitEnd(succs, index, stack, m, n, lowlink[n]);
      SearchNodes(succs, nodes, index, stack, indexCount, result, open + {n});
      if index[n] == lowlink[n] {
        ghost var stack1, result1 := stack, result;
        OpenBelow(old(index), old(stack), old(indexCount), result0, index, stack, indexCount, result, open);
        var component := PopUntil(nodes, n, m);
        if |component| != 1 {
          result := result + {component};
        }
        PopComponent(succs, nodes, index, stack1, indexCount, result1, open, m, n, lowlink[n], result);
        ContinuesBack(old(index), old(stack), old(indexCount), result0, index, stack1, indexCount, result1, result);
        LowIsPopped(succs, index, stack1, indexCount, m, n, lowlink[n]);
      } else {
        StayOpen(succs, nodes, index, stack, indexCount, result, open, m, n, lowlink[n]);
        LowIsKept(succs, index, stack, m, n, lowlink[n]);
      }
    }

    // Takes n and everything above it off the stack.
    method PopUntil(ghost nodes: set<Block>, n: Block, ghost m: nat) returns (component: set<Block>)
      requires Fields(nodes, lowlink, onStack, stack) && Rising(index, stack, indexCount) && m < |stack| &&
        stack[m] == n
      modifies this`stack, this`onStack
      ensures stack == old(stack)[..m] && component == From(old(stack), m) && Fields(nodes, lowlink, onStack, stack)
    {
      hide *;
      component := {};
      var going := true;
      ghost var k := |stack|;
      FromTop(stack);
      assert stack[..k] == stack;
      while going
        invariant m <= k <= |old(stack)| && stack == old(stack)[..k] && component == From(old(stack), k)
        invariant going <==> m < k
        invariant Fields(nodes, lowlink, onStack, stack)
        decreases k
      {
        var tmp := stack[|stack| - 1];
        ghost var below: nat := k - 1;
        FieldsPop(nodes, index, lowlink, onStack, old(stack), indexCount, below, k);
        FromDown(index, old(stack), indexCount, m, below, k);
        onStack := onStack[tmp := false];
        component := component + {tmp};
        stack := stack[..|stack| - 1];
        assert stack == old(stack)[..below];
        k := below;
        going := tmp != n;
      }
    }
  }

  // The other fields of the nodes.
  ghost predicate Fields(nodes: set<Block>, lowlink: Numbers, onStack: map<Block, bool>, stack: seq<Block>) {
    && nodes <= lowlink.Keys && nodes <= onStack.Keys
    && forall b :: b in nodes ==> (onStack[b] <==> b in stack)
  }

  // The low links of visited nodes stay as they are.
  ghost predicate LowsKept(index: Numbers, lowlink: Numbers, lowlink1: Numbers) {
    forall b :: Seen(index, b) && b in lowlink ==> b in lowlink1 && lowlink1[b] == lowlink[b]
  }

  lemma {:induction false} SearchNodes(e: Edges, nodes: set<Block>, index: Numbers, stack: seq<Block>, count: int,
      found: set<set<Block>>, open: set<Block>)
    requires Searching(e, nodes, index, stack, count, found, open)
    ensures nodes <= e.Keys && nodes <= index.Keys && count >= 0 && Rising(index, stack, count)
    ensures forall b :: b in nodes ==> e[b] <= nodes
    ensures forall b :: b in open ==> b in stack
    ensures forall b :: b in stack ==> b in nodes
  {
    hide Chained, Anchored, EdgesSeen, EdgesLeft, FoundAre;
  }

  lemma NothingOpen(e: Edges, n: Block)
    ensures OpenReach(e, {}, n)
  {
  }

  lemma SeenIs(index: Numbers, n: Block)
    requires n in index
    ensures Seen(index, n) <==> index[n] != -1
  {
  }

  lemma {:induction false} StillSeen(index: Numbers, stack: seq<Block>, count: int, found: set<set<Block>>,
      index1: Numbers, stack1: seq<Block>, count1: int, found1: set<set<Block>>)
    requires Continues(index, stack, count, found, index1, stack1, count1, found1)
    ensures (forall b :: Seen(index, b) ==> Seen(index1, b)) && index1.Keys == index.Keys
  {
  }

  lemma {:induction false} FieldsPush(nodes: set<Block>, index: Numbers, lowlink: Numbers, onStack: map<Block, bool>,
      stack: seq<Block>, n: Block, low: int)
    requires Fields(nodes, lowlink, onStack, stack) && !Seen(index, n)
    ensures Fields(nodes, lowlink[n := low], onStack[n := true], stack + [n])
    ensures LowsKept(index, lowlink, lowlink[n := low])
  {
  }

  lemma FieldsAt(nodes: set<Block>, lowlink: Numbers, onStack: map<Block, bool>, stack: seq<Block>, b: Block)
    requires Fields(nodes, lowlink, onStack, stack) && b in nodes
    ensures b in lowlink && b in onStack && (onStack[b] <==> b in stack)
  {
  }

  lemma FieldsLow(nodes: set<Block>, lowlink: Numbers, onStack: map<Block, bool>, stack: seq<Block>, n: Block, low: int)
    requires Fields(nodes, lowlink, onStack, stack)
    ensures Fields(nodes, lowlink[n := low], onStack, stack)
  {
  }

  lemma {:induction false} FieldsPop(nodes: set<Block>, index: Numbers, lowlink: Numbers, onStack: map<Block, bool>,
      stack: seq<Block>, count: int, below: nat, k: nat)
    requires Rising(index, stack, count) && k == below + 1 && k <= |stack| &&
      Fields(nodes, lowlink, onStack, stack[..k])
    ensures Fields(nodes, lowlink, onStack[stack[below] := false], stack[..below])
  {
    forall b | b in nodes && b != stack[below] ensures b in stack[..k] <==> b in stack[..below] {
      assert stack[..k] == stack[..below] + [stack[below]];
    }
    assert stack[below] !in stack[..below];
  }

  lemma FromTop(stack: seq<Block>)
    ensures From(stack, |stack|) == {}
  {
  }

  lemma FromDown(index: Numbers, stack: seq<Block>, count: int, m: nat, below: nat, k: nat)
    requires Rising(index, stack, count) && m <= below < |stack| && k == below + 1
    ensures From(stack, below) == From(stack, k) + {stack[below]}
    ensures stack[below] == stack[m] <==> below == m
  {
    assert stack[below..] == [stack[below]] + stack[k..];
  }

  lemma OpenEdge(e: Edges, open: set<Block>, n: Block, su: Block)
    requires OpenReach(e, open, n) && n in e && su in e[n]
    ensures OpenReach(e, open, su)
  {
    hide Reaches;
    ReachesEdge(e, n, su);
    forall b | b in open ensures Reaches(e, b, su) { ReachesTrans(e, b, n, su); }
  }

  lemma {:induction false} LowsTrans(index: Numbers, stack: seq<Block>, count: int, found: set<set<Block>>,
      index1: Numbers, stack1: seq<Block>, count1: int, found1: set<set<Block>>, low: Numbers, low1: Numbers,
        low2: Numbers)
    requires Continues(index, stack, count, found, index1, stack1, count1, found1) && count >= 0
    requires LowsKept(index, low, low1) && LowsKept(index1, low1, low2)
    ensures LowsKept(index, low, low2)
  {
  }

  lemma LowAt(index: Numbers, low: Numbers, low1: Numbers, n: Block)
    requires LowsKept(index, low, low1) && Seen(index, n) && n in low
    ensures n in low1 && low1[n] == low[n]
  {
  }

  lemma LowsUpdate(index: Numbers, low: Numbers, low1: Numbers, n: Block, l: int)
    requires LowsKept(index, low, low1) && !Seen(index, n)
    ensures LowsKept(index, low, low1[n := l])
  {
  }

  lemma {:induction false} OpenBelow(index: Numbers, stack: seq<Block>, count: int, found: set<set<Block>>,
      index1: Numbers, stack1: seq<Block>, count1: int, found1: set<set<Block>>, open: set<Block>)
    requires Continues(index, stack, count, found, index1, stack1, count1, found1) &&
      forall b :: b in open ==> b in stack
    ensures |stack| <= |stack1| && forall b :: b in open ==> b in stack1[..|stack|]
  {
    assert stack1[..|stack|] == stack;
  }

  lemma {:induction false} LowIsPopped(e: Edges, index: Numbers, stack: seq<Block>, count: int, m: nat, n: Block,
      low: int)
    requires Rising(index, stack, count) && m < |stack| && stack[m] == n && n in index && low == index[n]
    ensures LowIs(e, index, stack[..m], m, n, low)
  {
  }

  lemma LowIsKept(e: Edges, index: Numbers, stack: seq<Block>, m: nat, n: Block, low: int)
    requires m < |stack| && stack[m] == n && n in index && low <= index[n] && LowReached(e, index, stack, n, low) &&
      LowBounds(e, index, stack, m, m, low)
    ensures LowIs(e, index, stack, m, n, low)
  {
  }

  // ---- Steps of the search ----

  lemma GraphValid(g: Graph)
    requires g.WellFormed()
    ensures g.Valid()
  {
  }

  lemma FieldsFewer(nodes: set<Block>, fewer: set<Block>, lowlink: Numbers, onStack: map<Block, bool>)
    requires Fields(nodes, lowlink, onStack, []) && fewer <= nodes
    ensures Fields(fewer, lowlink, onStack, [])
  {
  }

  lemma CfgNodes(g: Graph, nodes: set<Block>, succs: Edges, prevs: Edges)
    requires g.Valid() && nodes == Elements(g.blocks) && succs.Keys == g.succ.Keys && prevs.Keys == g.pred.Keys
    requires forall b :: b in g.succ ==> succs[b] == Elements(g.succ[b])
    requires forall b :: b in g.pred ==> prevs[b] == Elements(g.pred[b])
    ensures LeftOver(g, nodes, {}, succs, prevs)
  {
    assert nodes == LoopNest.Left(g, {});
    forall n | n in nodes ensures succs[n] == Rest(g, {})[n] {
      forall w ensures w in succs[n] <==> w in nodes && g.Edge(n, w) {
        assert w in g.succ[n] <==> g.Edge(n, w);
      }
    }
  }

  lemma CfgKeys(g: Graph)
    requires g.Valid()
    ensures g.succ.Keys == Elements(g.blocks) && g.pred.Keys == Elements(g.blocks)
  {
  }

  lemma NodesFresh(nodes: set<Block>, lowlink: Numbers, onStack: map<Block, bool>)
    requires nodes <= lowlink.Keys && nodes <= onStack.Keys && forall b :: b in nodes ==> !onStack[b]
    ensures Fields(nodes, lowlink, onStack, [])
  {
  }

  lemma NoLoops(g: Graph, loops: seq<Loop>)
    requires loops == []
    ensures LoopsOk(g, loops) && Bases(loops) == {} && GoneBy(loops, {}) && CyclesCovered(g, loops, {})
  {
  }

  // The components of what is left, those with two blocks or more.
  ghost predicate RoundOf(g: Graph, gone: set<Block>, sccs: set<set<Block>>) {
    forall c {:trigger c in sccs} :: c in sccs <==> IsComponent(Rest(g, gone), LoopNest.Left(g, gone), c) && |c| > 1
  }

  lemma RoundStart(g: Graph, nodes: set<Block>, gone: set<Block>, succs: Edges, prevs: Edges, sccs: set<set<Block>>)
    requires LeftOver(g, nodes, gone, succs, prevs)
    requires forall c {:trigger c in sccs} :: c in sccs <==> IsComponent(succs, nodes, c) && |c| > 1
    ensures RoundOf(g, gone, sccs)
  {
    hide IsComponent, Rest;
    forall c ensures IsComponent(succs, nodes, c) <==> IsComponent(Rest(g, gone), LoopNest.Left(g, gone), c) {
      LeftOverComponents(g, nodes, gone, succs, prevs, c);
    }
  }

  lemma RoundOver(g: Graph, gone: set<Block>, sccs: set<set<Block>>)
    requires RoundOf(g, gone, sccs) && sccs == {}
    ensures forall c :: IsComponent(Rest(g, gone), LoopNest.Left(g, gone), c) ==> |c| <= 1
  {
    hide IsComponent, Rest;
    forall c | IsComponent(Rest(g, gone), LoopNest.Left(g, gone), c) ensures |c| <= 1 {
      assert c !in sccs;
    }
  }

  lemma RoundWaits(g: Graph, gone: set<Block>, sccs: set<set<Block>>)
    requires RoundOf(g, gone, sccs)
    ensures Waiting(g, gone, gone, sccs)
  {
    hide IsComponent, Rest;
    WaitingStart(g, gone, sccs);
  }

  lemma {:induction false} WaitingFacts(g: Graph, gone0: set<Block>, gone: set<Block>, rest: set<set<Block>>,
      scc: set<Block>, nodes: set<Block>, succs: Edges, prevs: Edges)
    requires Waiting(g, gone0, gone, rest) && scc in rest && LeftOver(g, nodes, gone, succs, prevs)
    ensures IsComponent(Rest(g, gone0), LoopNest.Left(g, gone0), scc) && |scc| > 1 && scc !! gone && scc <= nodes
  {
    hide Rest, Mutual;
  }

  lemma {:induction false} LoopFound(g: Graph, loops: seq<Loop>, gone0: set<Block>, gone: set<Block>, l: Loop,
      nodes: set<Block>, succs: Edges, prevs: Edges)
    requires g.Valid() && LoopsOk(g, loops) && gone == Bases(loops) && gone0 <= gone && GoneBy(loops, gone0) &&
      CyclesCovered(g, loops, gone)
    requires IsComponent(Rest(g, gone0), LoopNest.Left(g, gone0), l.body) && |l.body| > 1 && l.body !! gone &&
      l.gone == gone0
    requires exists p :: Enters(g, l.body, p, l.base)
    requires LeftOver(g, nodes, gone, succs, prevs) && l.body <= nodes
    ensures LoopsOk(g, loops + [l]) && GoneBy(loops + [l], gone0) && Bases(loops + [l]) == gone + {l.base}
    ensures CyclesCovered(g, loops + [l], gone + {l.base})
    ensures l.base !in Bases(loops) && l.body !in BodiesOf(loops) && l.base in nodes && l.base in l.body
  {
    hide IsComponent, Rest, LeftOver, LoopsOk, GoneBy, CyclesCovered;
    assert LoopOk(g, l);
    AddLoop(g, loops, gone0, l);
    NewLoop(g, loops, l);
    CoverMore(g, loops, gone0, gone, l);
  }

  lemma GoneLater(loops: seq<Loop>, gone0: set<Block>, gone: set<Block>)
    requires GoneBy(loops, gone0) && gone0 <= gone
    ensures GoneBy(loops, gone)
  {
  }

  ghost predicate BaseIs(g: Graph, scc: set<Block>, base: Option<Block>) {
    base.Some? ==> exists p :: Enters(g, scc, p, base.value)
  }

  lemma BaseEnters(g: Graph, scc: set<Block>, base: Option<Block>)
    requires BaseIs(g, scc, base)
    ensures base.Some? ==> exists p :: Enters(g, scc, p, base.value)
  {
  }

  lemma PrevsAre(g: Graph, nodes: set<Block>, gone: set<Block>, succs: Edges, prevs: Edges)
    requires LeftOver(g, nodes, gone, succs, prevs)
    ensures nodes <= prevs.Keys && gone <= succs.Keys
  {
  }

  lemma {:induction false} EntrySeen(g: Graph, scc: set<Block>, nodes: set<Block>, gone: set<Block>, succs: Edges,
      prevs: Edges, p: Block, n: Block)
    requires LeftOver(g, nodes, gone, succs, prevs) && scc <= nodes && Enters(g, scc, p, n) && p in g.blocks
    ensures n in scc && p !in scc && (p in nodes || p in gone) && BaseIs(g, scc, None)
    ensures p in nodes ==> n in prevs && p in prevs[n]
    ensures p in gone ==> p in succs && n in succs[p]
  {
  }

  lemma {:induction false} PrevEnters(g: Graph, nodes: set<Block>, gone: set<Block>, succs: Edges, prevs: Edges,
      scc: set<Block>, prev: Block, n: Block)
    requires LeftOver(g, nodes, gone, succs, prevs) && scc <= nodes && n in scc && prev !in scc && prev in prevs[n]
    ensures BaseIs(g, scc, Some(n))
  {
    assert Enters(g, scc, prev, n);
  }

  lemma {:induction false} SuccEnters(g: Graph, nodes: set<Block>, gone: set<Block>, succs: Edges, prevs: Edges,
      scc: set<Block>, r: Block, n: Block)
    requires LeftOver(g, nodes, gone, succs, prevs) && scc <= nodes && r in gone && n in succs[r] && n in scc
    ensures BaseIs(g, scc, Some(n))
  {
    assert Enters(g, scc, r, n);
  }

  lemma LeftOverKeys(g: Graph, nodes: set<Block>, gone: set<Block>, succs: Edges, prevs: Edges)
    requires LeftOver(g, nodes, gone, succs, prevs)
    ensures nodes <= succs.Keys && nodes <= prevs.Keys &&
      forall n :: n in nodes ==> succs[n] <= prevs.Keys && prevs[n] <= succs.Keys
  {
  }

  lemma CutNone(e: Edges, base: Block)
    ensures Cut(e, {}, base) == e
  {
  }

  lemma CutKeys(e: Edges, ns: set<Block>, base: Block)
    ensures Cut(e, ns, base).Keys == e.Keys && forall n :: n in e ==> Cut(e, ns, base)[n] <= e[n]
  {
  }

  lemma CutOne(e: Edges, ns: set<Block>, base: Block, n: Block)
    requires n in e
    ensures n in Cut(e, ns, base) && Cut(e, ns, base)[n := Cut(e, ns, base)[n] - {base}] == Cut(e, ns + {n}, base)
  {
    var more := Cut(e, ns, base)[n := Cut(e, ns, base)[n] - {base}];
    assert more.Keys == e.Keys;
    assert forall m :: m in e ==> more[m] == Cut(e, ns + {n}, base)[m];
  }

  lemma {:induction false} InnerLoop(g: Graph, loops: seq<Loop>, loopSet: set<set<Block>>,
      base2loop: map<Block, set<Block>>, loop2base: map<set<Block>, Block>, bb2base: map<Block, Block>, bb: Block)
    requires LoopsOk(g, loops) && LoopMaps(loops, loopSet, base2loop, loop2base) && BlockMap(loops, bb2base)
    ensures bb !in bb2base <==> forall c :: c in loopSet ==> bb !in c
    ensures bb in bb2base ==>
              bb2base[bb] in base2loop && base2loop[bb2base[bb]] in loopSet && bb in base2loop[bb2base[bb]]
              && forall c :: c in loopSet && bb in c ==> base2loop[bb2base[bb]] <= c
  {
    hide LoopsOk;
    BaseOfLoop(g, loops, bb);
    assert BaseOf(loops, bb) == if bb in bb2base then Some(bb2base[bb]) else None;
  }
}
