/** The control-flow graph the builder makes: whatever the syntax tree, its edge lists mirror
    each other, every block is reached from the entry, and nothing leads back to the entry. */
module BuilderShape {
  import opened Wrappers
  import opened Cfg
  import Ir
  import opened Components
  import opened Ast
  import opened Lowering

  ghost function SuccSets(g: Graph): Edges {
    map b | b in g.succ :: Elements(g.succ[b])
  }

  ghost predicate Sound(s: Build) {
    && s.g.Valid() && SuccsDistinct(s.g) && s.lists.Keys == Elements(s.g.blocks)
    && s.cur in s.g.blocks && (forall b :: b in s.g.blocks ==> b < s.nextBlock)
    && (forall y :: y in s.code ==> y < s.nextId && !s.code[y].op.Phi?)
    && Arranged(s.code, s.lists, s.home)
  }

  // Every instruction of a list has code and its block as home, and lists are in the order of
  // creation.
  ghost predicate Arranged(code: map<Ir.Id, Ir.Instr>, lists: map<Block, seq<Ir.Id>>, home: map<Ir.Id, Block>) {
    && home.Keys <= code.Keys
    && (forall b, i {:trigger lists[b][i]} :: b in lists && 0 <= i < |lists[b]| ==>
         lists[b][i] in home && home[lists[b][i]] == b)
    && (forall b {:trigger lists[b]} :: b in lists ==> Ascending(lists[b]))
    && (forall x {:trigger x in code} :: x in code ==> x in home && home[x] in lists && x in lists[home[x]])
  }

  ghost predicate Ascending(l: seq<Ir.Id>) {
    forall i, j {:trigger Below(l, i, j)} :: 0 <= i < j < |l| ==> Below(l, i, j)
  }

  ghost predicate Below(l: seq<Ir.Id>, i: int, j: int)
    requires 0 <= i < j < |l|
  {
    l[i] < l[j]
  }

  // What s1 adds to s: only block x of s gets new successors and instructions, no block of s
  // new predecessors, and what there was stays as it was.
  ghost predicate Extends(s: Build, s1: Build, x: Block) {
    && s.g.blocks <= s1.g.blocks && s1.g.entry == s.g.entry && s.nextBlock <= s1.nextBlock && s.nextId <= s1.nextId
    && (forall b {:trigger s1.Pred(b)} :: b in s.g.blocks ==> s1.Pred(b) == s.Pred(b))
    && (forall b {:trigger s1.Succ(b)} {:trigger s1.List(b)} :: b in s.g.blocks && b != x ==>
         s1.Succ(b) == s.Succ(b) && s1.List(b) == s.List(b))
    && s.Succ(x) <= s1.Succ(x) && s.List(x) <= s1.List(x)
    && (forall b :: b in s1.g.blocks && b !in s.g.blocks ==> b >= s.nextBlock)
    && (forall y :: y in s.code ==> y in s1.code && s1.code[y] == s.code[y]) && (s1.ok ==> s.ok)
    && (forall y :: y in s.home ==> y in s1.home && s1.home[y] == s.home[y])
  }

  // Every block s1 adds is reached from a root.
  ghost predicate NewFrom(s: Build, s1: Build, roots: set<Block>) {
    forall b {:trigger b in s1.g.blocks} :: b in s1.g.blocks && b !in s.g.blocks ==> FromSome(s1, roots, b)
  }

  ghost predicate FromSome(s: Build, roots: set<Block>, b: Block) {
    exists r :: r in roots && From(s, r, b)
  }

  ghost predicate From(s: Build, a: Block, b: Block) {
    Reaches(SuccSets(s.g), a, b)
  }

  // The region that grows out of the current block x of s.
  ghost predicate Region(s: Build, x: Block, s1: Build, roots: set<Block>) {
    Sound(s1) && Extends(s, s1, x) && NewFrom(s, s1, roots) && x in s.g.blocks && x in roots
  }

  ghost predicate InRegion(s: Build, x: Block, b: Block) {
    b == x || b !in s.g.blocks
  }

  // What every visit does.
  ghost predicate Grown(s: Build, s1: Build) {
    Region(s, s.cur, s1, {s.cur}) && InRegion(s, s.cur, s1.cur) && From(s1, s.cur, s1.cur)
  }

  // ---- Edges only come ----

  ghost predicate MoreEdges(s: Build, s1: Build) {
    forall a, b :: a in s.g.succ && b in s.g.succ[a] ==> a in s1.g.succ && b in s1.g.succ[a]
  }

  lemma {:induction false} WalkLater(s: Build, s1: Build, p: seq<Block>)
    requires MoreEdges(s, s1) && Walk(SuccSets(s.g), p)
    ensures Walk(SuccSets(s1.g), p)
  {
    forall i | 0 <= i < |p| - 1 ensures Leg(SuccSets(s1.g), p, i) { WalkStep(SuccSets(s.g), p, i); }
  }

  lemma FromLater(s: Build, s1: Build, a: Block, b: Block)
    requires MoreEdges(s, s1) && From(s, a, b)
    ensures From(s1, a, b)
  {
    var p :| Walk(SuccSets(s.g), p) && p[0] == a && p[|p| - 1] == b;
    WalkLater(s, s1, p);
  }

  lemma NewFromLater(s: Build, s1: Build, s2: Build, roots: set<Block>)
    requires MoreEdges(s1, s2) && NewFrom(s, s1, roots)
    ensures forall b :: b in s1.g.blocks && b !in s.g.blocks ==> FromSome(s2, roots, b)
  {
    hide From;
    forall b | b in s1.g.blocks && b !in s.g.blocks ensures FromSome(s2, roots, b) {
      assert FromSome(s1, roots, b);
      var r :| r in roots && From(s1, r, b);
      FromLater(s1, s2, r, b);
    }
  }

  lemma ExtendsEdges(s: Build, s1: Build, x: Block)
    requires Extends(s, s1, x) && s.g.Valid() && s1.g.Valid()
    ensures MoreEdges(s, s1)
  {
    forall a, b | a in s.g.succ && b in s.g.succ[a] ensures a in s1.g.succ && b in s1.g.succ[a] {
      assert a in s.g.blocks && a in s1.g.blocks;
      assert b in s.Succ(a);
      assert b in s1.Succ(a);
    }
  }

  // ---- Steps ----

  lemma RegionStart(s: Build)
    requires Sound(s)
    ensures Region(s, s.cur, s, {s.cur}) && Grown(s, s)
  {
    ReachesSelf(SuccSets(s.g), s.cur);
  }

  lemma RegionNewBlock(s: Build, x: Block, s1: Build, roots: set<Block>)
    requires Region(s, x, s1, roots)
    ensures Region(s, x, NewBlock(s1), roots + {s1.nextBlock}) && MoreEdges(s1, NewBlock(s1))
    ensures s1.nextBlock !in s1.g.blocks && NewBlock(s1).Pred(s1.nextBlock) == []
    ensures forall b :: b in s1.g.blocks ==> NewBlock(s1).Pred(b) == s1.Pred(b)
  {
    hide From, Sound, Extends, MoreEdges;
    NewBlockSound(s1);
    NewBlockExtends(s, x, s1);
    NewBlockFrom(s, s1, roots);
  }

  lemma NewBlockFrom(s: Build, s1: Build, roots: set<Block>)
    requires NewFrom(s, s1, roots) && MoreEdges(s1, NewBlock(s1))
    ensures NewFrom(s, NewBlock(s1), roots + {s1.nextBlock})
  {
    hide From, MoreEdges;
    var s2, n := NewBlock(s1), s1.nextBlock;
    NewFromLater(s, s1, s2, roots);
    FromSelf(s2, n);
    forall b | b in s2.g.blocks && b !in s.g.blocks ensures FromSome(s2, roots + {n}, b) {
      if b != n {
        assert FromSome(s2, roots, b);
        var r :| r in roots && From(s2, r, b);
      }
    }
  }

  lemma FromSelf(s: Build, b: Block)
    ensures From(s, b, b)
  {
    ReachesSelf(SuccSets(s.g), b);
  }

  ghost function WithBlock(g: Graph, n: Block): Graph {
    Graph(g.blocks + [n], g.entry, g.succ[n := []], g.pred[n := []])
  }

  lemma WithBlockValid(g: Graph, n: Block)
    requires g.Valid() && SuccsDistinct(g) && n !in g.blocks
    ensures WithBlock(g, n).Valid() && SuccsDistinct(WithBlock(g, n))
  {
    var h := WithBlock(g, n);
    WithBlockEdges(g, n);
    assert Elements(h.blocks) == Elements(g.blocks) + {n};
    forall i, j | 0 <= i < j < |h.blocks| ensures Apart(h.blocks, i, j) {
      if j < |g.blocks| { assert Apart(g.blocks, i, j); }
    }
  }

  lemma WithBlockEdges(g: Graph, n: Block)
    requires g.Valid() && n !in g.blocks
    ensures forall a, b :: WithBlock(g, n).Edge(a, b) <==> g.Edge(a, b)
    ensures forall a, b :: b in WithBlock(g, n).pred && a in WithBlock(g, n).pred[b] <==> b in g.pred && a in g.pred[b]
  {
  }

  lemma NewBlockSound(s: Build)
    requires Sound(s)
    ensures Sound(NewBlock(s)) && MoreEdges(s, NewBlock(s))
    ensures s.nextBlock !in s.g.blocks && NewBlock(s).Pred(s.nextBlock) == []
    ensures forall b :: b in s.g.blocks ==> NewBlock(s).Pred(b) == s.Pred(b)
  {
    hide Graph.Valid, SuccsDistinct, Arranged, WithBlock, MoreEdges;
    BlockKeys(s.g);
    NewBlockIs(s);
    WithBlockValid(s.g, s.nextBlock);
    ArrangedBlock(s.code, s.lists, s.home, s.nextBlock);
    NewBlockMore(s);
  }

  lemma NewBlockIs(s: Build)
    ensures NewBlock(s).g == WithBlock(s.g, s.nextBlock) && NewBlock(s).g.blocks == s.g.blocks + [s.nextBlock]
    ensures Elements(NewBlock(s).g.blocks) == Elements(s.g.blocks) + {s.nextBlock}
  {
  }

  lemma NewBlockMore(s: Build)
    requires s.g.succ.Keys == s.g.pred.Keys == Elements(s.g.blocks) && s.nextBlock !in s.g.blocks
    ensures MoreEdges(s, NewBlock(s)) && NewBlock(s).Pred(s.nextBlock) == []
    ensures forall b :: b in s.g.blocks ==> NewBlock(s).Pred(b) == s.Pred(b)
  {
  }

  lemma ArrangedBlock(code: map<Ir.Id, Ir.Instr>, lists: map<Block, seq<Ir.Id>>, home: map<Ir.Id, Block>, n: Block)
    requires Arranged(code, lists, home) && n !in lists
    ensures Arranged(code, lists[n := []], home)
  {
    var lists1 := lists[n := []];
    assert forall b :: b in lists1 ==> lists1[b] == [] || (b in lists && lists1[b] == lists[b]);
  }

  lemma ArrangedEmit(code: map<Ir.Id, Ir.Instr>, lists: map<Block, seq<Ir.Id>>, home: map<Ir.Id, Block>, b: Block,
      x: Ir.Id, instr: Ir.Instr)
    requires Arranged(code, lists, home) && b in lists && forall y :: y in code ==> y < x
    ensures Arranged(code[x := instr], lists[b := lists[b] + [x]], home[x := b]) && x !in home
  {
    var lists1, home1 := lists[b := lists[b] + [x]], home[x := b];
    forall c, i | c in lists1 && 0 <= i < |lists1[c]| ensures lists1[c][i] in home1 && home1[lists1[c][i]] == c {
      if !(c == b && i == |lists[b]|) { assert lists1[c][i] == lists[c][i]; }
    }
    forall i, j | 0 <= i < j < |lists1[b]| ensures Below(lists1[b], i, j) {
      assert lists[b][i] in home;
      if j < |lists[b]| { assert Below(lists[b], i, j); }
    }
  }

  lemma BlockKeys(g: Graph)
    requires g.Valid()
    ensures g.succ.Keys == g.pred.Keys == Elements(g.blocks)
  {
  }

  lemma NewBlockExtends(s: Build, x: Block, s1: Build)
    requires Extends(s, s1, x) && s1.nextBlock !in s1.g.blocks && x in s.g.blocks
    ensures Extends(s, NewBlock(s1), x)
  {
    assert forall b :: b in s.g.blocks ==> b in s1.g.blocks;
    var s2 := NewBlock(s1);
    forall b | b in s.g.blocks
      ensures s2.Pred(b) == s.Pred(b) && (b != x ==> s2.Succ(b) == s.Succ(b) && s2.List(b) == s.List(b)) {
      assert s1.Pred(b) == s.Pred(b) && (b != x ==> s1.List(b) == s.List(b));
    }
  }

  // ---- An edge and a branch ----

  ghost function WithEdge(g: Graph, a: Block, b: Block): Graph
    requires a in g.succ && b in g.pred
  {
    g.(pred := g.pred[b := g.pred[b] + [a]], succ := g.succ[a := g.succ[a] + [b]])
  }

  lemma WithEdgeValid(g: Graph, a: Block, b: Block)
    requires g.Valid() && SuccsDistinct(g) && a in g.blocks && b in g.blocks && a !in g.pred[b]
    ensures WithEdge(g, a, b).Valid() && SuccsDistinct(WithEdge(g, a, b))
  {
    var h := WithEdge(g, a, b);
    forall c, d ensures h.Edge(c, d) <==> g.Edge(c, d) || (c == a && d == b) {
    }
    forall c, d ensures d in h.pred && c in h.pred[d] <==> (d in g.pred && c in g.pred[d]) || (c == a && d == b) {
    }
    assert !g.Edge(a, b);
    forall i, j | 0 <= i < j < |h.succ[a]| ensures Apart(h.succ[a], i, j) {
      if j < |g.succ[a]| { assert Apart(g.succ[a], i, j); }
    }
  }

  lemma EdgeSound(s: Build, b: Block)
    requires Sound(s) && b in s.g.blocks && s.cur !in s.Pred(b)
    ensures Sound(Edge(s, b)) && MoreEdges(s, Edge(s, b)) && From(Edge(s, b), s.cur, b)
    ensures Edge(s, b).Pred(b) == s.Pred(b) + [s.cur] && forall c :: c != b ==> Edge(s, b).Pred(c) == s.Pred(c)
  {
    hide Graph.Valid, SuccsDistinct, Reaches, Arranged, WithEdge, Edge, MoreEdges;
    BlockKeys(s.g);
    EdgeIs(s, b);
    WithEdgeValid(s.g, s.cur, b);
    WithEdgeMore(s, b);
  }

  lemma EdgeIs(s: Build, b: Block)
    requires s.cur in s.g.succ && b in s.g.pred
    ensures Edge(s, b) == s.(g := WithEdge(s.g, s.cur, b)) && Edge(s, b).g.blocks == s.g.blocks
    ensures Edge(s, b).Pred(b) == s.Pred(b) + [s.cur] && forall c :: c != b ==> Edge(s, b).Pred(c) == s.Pred(c)
  {
  }

  lemma WithEdgeMore(s: Build, b: Block)
    requires s.cur in s.g.succ && b in s.g.pred
    ensures MoreEdges(s, Edge(s, b)) && From(Edge(s, b), s.cur, b)
  {
    hide Reaches;
    ReachesEdge(SuccSets(Edge(s, b).g), s.cur, b);
  }

  lemma EdgeExtends(s: Build, x: Block, s1: Build, b: Block)
    requires Extends(s, s1, x) && InRegion(s, x, s1.cur) && b !in s.g.blocks
    ensures Extends(s, Edge(s1, b), x)
  {
    var s2 := Edge(s1, b);
    forall c | c in s.g.blocks
      ensures s2.Pred(c) == s.Pred(c) && (c != x ==> s2.Succ(c) == s.Succ(c) && s2.List(c) == s.List(c)) {
      assert s1.Pred(c) == s.Pred(c) && (c != x ==> s1.List(c) == s.List(c));
    }
  }

  // An edge from the region to a block outside s.
  lemma RegionEdge(s: Build, x: Block, s1: Build, roots: set<Block>, b: Block)
    requires Region(s, x, s1, roots) && InRegion(s, x, s1.cur) && b in s1.g.blocks && b !in s.g.blocks &&
      s1.cur !in s1.Pred(b)
    ensures Region(s, x, Edge(s1, b), roots) && MoreEdges(s1, Edge(s1, b)) && From(Edge(s1, b), s1.cur, b)
    ensures Edge(s1, b).Pred(b) == s1.Pred(b) + [s1.cur] && forall c :: c != b ==> Edge(s1, b).Pred(c) == s1.Pred(c)
  {
    hide From, Sound, Extends, MoreEdges, FromSome;
    EdgeSound(s1, b);
    EdgeExtends(s, x, s1, b);
    NewFromLater(s, s1, Edge(s1, b), roots);
  }

  lemma EmitSound(s: Build, op: Opcode, args: seq<Operand>)
    requires !op.Phi?
    requires Sound(s)
    ensures Sound(Emit(s, op, args)) && MoreEdges(s, Emit(s, op, args)) && s.nextId !in s.code && s.nextId !in s.home
  {
    hide Graph.Valid, SuccsDistinct, Arranged;
    ArrangedEmit(s.code, s.lists, s.home, s.cur, s.nextId, Ir.Instr(op, args));
  }

  lemma EmitExtends(s: Build, x: Block, s1: Build, op: Opcode, args: seq<Operand>)
    requires Extends(s, s1, x) && InRegion(s, x, s1.cur) && s1.nextId !in s1.code && s1.nextId !in s1.home
    ensures Extends(s, Emit(s1, op, args), x)
  {
    var s2 := Emit(s1, op, args);
    forall b | b in s.g.blocks
      ensures s2.Pred(b) == s.Pred(b) && (b != x ==> s2.Succ(b) == s.Succ(b) && s2.List(b) == s.List(b)) {
      assert s1.Pred(b) == s.Pred(b) && (b != x ==> s1.List(b) == s.List(b));
    }
  }

  lemma RegionEmit(s: Build, x: Block, s1: Build, roots: set<Block>, op: Opcode, args: seq<Operand>)
    requires !op.Phi?
    requires Region(s, x, s1, roots) && InRegion(s, x, s1.cur)
    ensures Region(s, x, Emit(s1, op, args), roots) && MoreEdges(s1, Emit(s1, op, args))
  {
    hide From, Sound, Extends, MoreEdges, FromSome;
    EmitSound(s1, op, args);
    EmitExtends(s, x, s1, op, args);
    NewFromLater(s, s1, Emit(s1, op, args), roots);
  }

  // ---- The other fields do not matter ----

  // s2 is s1 but for scopes, values and the insertion point.
  ghost predicate SameBlocks(s1: Build, s2: Build) {
    s2.g == s1.g && s2.lists == s1.lists && s2.code == s1.code && s2.home == s1.home &&
      s2.nextBlock == s1.nextBlock && s2.nextId == s1.nextId
    && (s2.ok ==> s1.ok)
  }

  lemma RegionSame(s: Build, x: Block, s1: Build, roots: set<Block>, s2: Build)
    requires Region(s, x, s1, roots) && SameBlocks(s1, s2) && s2.cur in s1.g.blocks
    ensures Region(s, x, s2, roots) && MoreEdges(s1, s2)
  {
    hide From, Sound, Extends, FromSome;
    SameSound(s1, s2);
    SameExtends(s, x, s1, s2);
    NewFromLater(s, s1, s2, roots);
  }

  lemma SameSound(s1: Build, s2: Build)
    requires Sound(s1) && SameBlocks(s1, s2) && s2.cur in s1.g.blocks
    ensures Sound(s2) && MoreEdges(s1, s2)
  {
    hide Graph.Valid, SuccsDistinct, Arranged;
  }

  lemma SameExtends(s: Build, x: Block, s1: Build, s2: Build)
    requires Extends(s, s1, x) && SameBlocks(s1, s2)
    ensures Extends(s, s2, x)
  {
    forall b | b in s.g.blocks
      ensures s2.Pred(b) == s.Pred(b) && (b != x ==> s2.Succ(b) == s.Succ(b) && s2.List(b) == s.List(b)) {
      assert s1.Pred(b) == s.Pred(b) && (b != x ==> s1.List(b) == s.List(b));
    }
  }

  // A root that is reached from x is needed no longer.
  lemma DropRoot(s: Build, x: Block, s1: Build, roots: set<Block>, r: Block)
    requires Region(s, x, s1, roots) && From(s1, x, r)
    ensures Region(s, x, s1, roots - {r} + {x})
  {
    hide From, Sound, Extends;
    forall b | b in s1.g.blocks && b !in s.g.blocks ensures FromSome(s1, roots - {r} + {x}, b) {
      assert FromSome(s1, roots, b);
      var q :| q in roots && From(s1, q, b);
      if q == r { FromTrans(s1, x, r, b); }
    }
  }

  lemma FromTrans(s: Build, a: Block, b: Block, c: Block)
    requires From(s, a, b) && From(s, b, c)
    ensures From(s, a, c)
  {
    ReachesTrans(SuccSets(s.g), a, b, c);
  }

  // A visit inside the region.
  lemma RegionVisit(s: Build, x: Block, s1: Build, roots: set<Block>, s2: Build)
    requires Region(s, x, s1, roots) && InRegion(s, x, s1.cur) && Grown(s1, s2)
    ensures Region(s, x, s2, roots) && InRegion(s, x, s2.cur) && MoreEdges(s1, s2)
    ensures forall b :: b in s1.g.blocks ==> s2.Pred(b) == s1.Pred(b) && b in s2.g.blocks
    ensures s2.cur == s1.cur || s2.cur !in s1.g.blocks
  {
    hide From, Sound, FromSome;
    SoundValid(s1);
    SoundValid(s2);
    ExtendsEdges(s1, s2, s1.cur);
    ExtendsTrans(s, x, s1, s2);
    NewFromLater(s, s1, s2, roots);
    forall b | b in s2.g.blocks && b !in s.g.blocks ensures FromSome(s2, roots, b) {
      if b !in s1.g.blocks { VisitedFrom(s, x, s1, roots, s2, b); }
    }
  }

  lemma SoundValid(s: Build)
    requires Sound(s)
    ensures s.g.Valid() && s.cur in s.g.blocks
  {
  }

  lemma ExtendsTrans(s: Build, x: Block, s1: Build, s2: Build)
    requires Extends(s, s1, x) && Extends(s1, s2, s1.cur) && InRegion(s, x, s1.cur) && x in s.g.blocks
    ensures Extends(s, s2, x)
  {
    assert forall b :: b in s.g.blocks ==> b in s1.g.blocks;
  }

  lemma VisitedFrom(s: Build, x: Block, s1: Build, roots: set<Block>, s2: Build, b: Block)
    requires NewFrom(s1, s2, {s1.cur}) && b in s2.g.blocks && b !in s1.g.blocks && InRegion(s, x, s1.cur) && x in roots
    requires (forall c :: c in s1.g.blocks && c !in s.g.blocks ==> FromSome(s2, roots, c)) && s1.cur in s1.g.blocks
    ensures FromSome(s2, roots, b)
  {
    hide From;
    assert FromSome(s2, {s1.cur}, b);
    if s1.cur != x {
      assert FromSome(s2, roots, s1.cur);
      var r :| r in roots && From(s2, r, s1.cur);
      FromTrans(s2, r, s1.cur, b);
    }
  }

  // ---- Visits ----

  lemma GrownEmit(s: Build, op: Opcode, args: seq<Operand>)
    requires !op.Phi?
    requires Sound(s)
    ensures Grown(s, Emit(s, op, args))
  {
    hide From, Sound, Extends, MoreEdges, NewFrom;
    RegionStart(s);
    RegionEmit(s, s.cur, s, {s.cur}, op, args);
    FromSelf(Emit(s, op, args), s.cur);
  }

  lemma GrownSame(s: Build, s1: Build)
    requires Sound(s) && SameBlocks(s, s1) && s1.cur == s.cur
    ensures Grown(s, s1)
  {
    hide From, Extends, MoreEdges, NewFrom;
    RegionStart(s);
    RegionSame(s, s.cur, s, {s.cur}, s1);
    FromSelf(s1, s.cur);
  }

  lemma GrownSound(s: Build, s1: Build)
    requires Grown(s, s1)
    ensures Sound(s1) && s1.cur in s1.g.blocks
  {
  }

  lemma GrownTrans(s: Build, s1: Build, s2: Build)
    requires Grown(s, s1) && Grown(s1, s2)
    ensures Grown(s, s2)
  {
    hide From, Sound, Extends, NewFrom, MoreEdges;
    RegionVisit(s, s.cur, s1, {s.cur}, s2);
    FromLater(s1, s2, s.cur, s1.cur);
    FromTrans(s2, s.cur, s1.cur, s2.cur);
  }

  lemma GrownEmitValue(s: Build, op: Opcode, args: seq<Operand>, ty: Type)
    requires !op.Phi?
    requires Sound(s)
    ensures Grown(s, EmitValue(s, op, args, ty))
  {
    hide Grown, Sound;
    GrownEmit(s, op, args);
    GrownSound(s, Emit(s, op, args));
    GrownSame(Emit(s, op, args), EmitValue(s, op, args, ty));
    GrownTrans(s, Emit(s, op, args), EmitValue(s, op, args, ty));
  }

  lemma TypeConvertGrown(s: Build, target: Type)
    requires Sound(s)
    ensures Grown(s, TypeConvert(s, target))
  {
    hide Grown, Sound;
    var ty := s.value.ty;
    if ty == Int1 && target == Float {
      var z := EmitValue(s, Ir.Pure(Ir.Zext), [s.value.op], Int32);
      GrownEmitValue(s, Ir.Pure(Ir.Zext), [s.value.op], Int32);
      GrownSound(s, z);
      EmitDemandGrown(z, Ir.Pure(Ir.SiToFp), [z.value.op], Float, TypeConvert(s, target).ok);
      GrownTrans(s, z, TypeConvert(s, target));
    } else if ty == Int32 && target == Float {
      EmitDemandGrown(s, Ir.Pure(Ir.SiToFp), [s.value.op], Float, TypeConvert(s, target).ok);
    } else if ty == Float && target == Int32 {
      EmitDemandGrown(s, Ir.Pure(Ir.FpToSi), [s.value.op], Int32, TypeConvert(s, target).ok);
    } else if ty == Int1 && target == Int32 {
      EmitDemandGrown(s, Ir.Pure(Ir.Zext), [s.value.op], Int32, TypeConvert(s, target).ok);
    } else {
      GrownSame(s, TypeConvert(s, target));
    }
  }

  lemma EmitDemandGrown(s: Build, op: Opcode, args: seq<Operand>, ty: Type, ok: bool)
    requires !op.Phi?
    requires Sound(s) && (ok ==> s.ok)
    ensures Grown(s, EmitValue(s, op, args, ty).(ok := ok))
  {
    hide Grown, Sound;
    var s1 := EmitValue(s, op, args, ty);
    GrownEmitValue(s, op, args, ty);
    GrownSound(s, s1);
    GrownSame(s1, s1.(ok := ok));
    GrownTrans(s, s1, s1.(ok := ok));
  }

  lemma CompareGrown(s: Build)
    requires Sound(s)
    ensures Grown(s, CompareWith0(s))
  {
    hide Grown, Sound;
    if s.value.ty == Int1 {
      GrownSame(s, s);
    } else if s.value.ty == Int32 {
      GrownEmitValue(s, Ir.Pure(RelCode(Neq)), [s.value.op, Ir.Const(0)], Int1);
    } else {
      GrownEmitValue(s, Ir.Pure(Floating(RelCode(Neq))), [s.value.op, Ir.Const(0)], Int1);
    }
  }

  lemma BinaryGrown(s: Build, code: Ir.PureOp, l: Value, r: Value, ity: Type, fty: Type)
    requires Sound(s)
    ensures Grown(s, Binary(s, code, l, r, ity, fty))
  {
    hide Grown, Sound, TypeConvert;
    if l.ty == Int32 && r.ty == Int32 {
      GrownEmitValue(s, Ir.Pure(code), [l.op, r.op], ity);
    } else {
      var s0 := s.(value := l);
      var s1 := TypeConvert(s0, Float);
      var s2 := s1.(value := r);
      var s3 := TypeConvert(s2, Float);
      var s4 := Binary(s, code, l, r, ity, fty);
      GrownSame(s, s0); GrownSound(s, s0);
      TypeConvertGrown(s0, Float); GrownSound(s0, s1);
      GrownSame(s1, s2); GrownSound(s1, s2);
      TypeConvertGrown(s2, Float); GrownSound(s2, s3);
      GrownEmitValue(s3, Ir.Pure(Floating(code)), [s1.value.op, s3.value.op], fty);
      GrownTrans(s, s0, s1); GrownTrans(s, s1, s2); GrownTrans(s, s2, s3); GrownTrans(s, s3, s4);
    }
  }

  lemma LoadGrown(s: Build, a: Value)
    requires Sound(s)
    ensures Grown(s, Load(s, a))
  {
    hide Grown, Sound;
    var s1 := Demand(s, a.ty.Ptr?);
    GrownSame(s, s1); GrownSound(s, s1);
    GrownEmitValue(s1, Ir.Load, [a.op], if a.ty.Ptr? then a.ty.elem else Void);
    GrownTrans(s, s1, Load(s, a));
  }

  lemma GepGrown(s: Build, a: Value, idxs: seq<Operand>)
    requires Sound(s)
    ensures Grown(s, Gep(s, a, idxs))
  {
    hide Grown, Sound;
    var s1 := Demand(s, a.ty.Ptr? && (a.ty.elem.Array? || a.ty.elem.Int32? || a.ty.elem.Float?));
    GrownSame(s, s1); GrownSound(s, s1);
    GrownEmitValue(s1, Ir.Gep, [a.op] + idxs, GepType(a.ty));
    GrownTrans(s, s1, Gep(s, a, idxs));
  }

  lemma LoadVarGrown(s: Build, v: Value)
    requires Sound(s)
    ensures Grown(s, LoadVar(s, v))
  {
    hide Grown, Sound, Load, Gep;
    var s1 := Load(s, s.addr);
    LoadGrown(s, s.addr); GrownSound(s, s1);
    if s1.value.ty.Array? {
      GepGrown(s1, v, [Ir.Const(0), Ir.Const(0)]);
      GrownTrans(s, s1, LoadVar(s, v));
    }
  }

  lemma ElementGrown(s: Build, v: Value, idx: Operand)
    requires Sound(s)
    ensures Grown(s, ElementAddress(s, v, idx))
  {
    hide Grown, Sound, Load, Gep;
    var s3 := ElementAddress(s, v, idx);
    if v.ty.Ptr? && v.ty.elem.Array? {
      var s1 := Gep(s, v, [Ir.Const(0), idx]);
      GepGrown(s, v, [Ir.Const(0), idx]); GrownSound(s, s1);
      GrownSame(s1, s3); GrownTrans(s, s1, s3);
    } else {
      var s1 := Load(s, v);
      var s2 := Gep(s1, s1.value, [idx]);
      LoadGrown(s, v); GrownSound(s, s1);
      GepGrown(s1, s1.value, [idx]); GrownSound(s1, s2);
      GrownSame(s2, s3);
      GrownTrans(s, s1, s2); GrownTrans(s, s2, s3);
    }
  }

  // A conditional branch to two new blocks.
  lemma {:induction false} SplitRegion(s: Build, x: Block, s1: Build, roots: set<Block>, c: Operand, t: Block, f: Block)
    requires Region(s, x, s1, roots) && InRegion(s, x, s1.cur) && From(s1, x, s1.cur)
    requires t in s1.g.blocks && f in s1.g.blocks && t !in s.g.blocks && f !in s.g.blocks && t != f
    requires s1.cur !in s1.Pred(t) && s1.cur !in s1.Pred(f)
    ensures var s2 := CondBr(s1, c, t, f);
            && Region(s, x, s2, roots - {f} - {t} + {x}) && MoreEdges(s1, s2) && From(s2, x, t) && From(s2, x, f)
            && s2.Pred(t) == s1.Pred(t) + [s1.cur] && s2.Pred(f) == s1.Pred(f) + [s1.cur]
    ensures forall b :: b != t && b != f ==> CondBr(s1, c, t, f).Pred(b) == s1.Pred(b)
  {
    hide From, Sound, Extends, NewFrom, MoreEdges;
    var e1 := Edge(s1, f);
    var e2 := Edge(e1, t);
    var s2 := CondBr(s1, c, t, f);
    RegionEdge(s, x, s1, roots, f);
    SameBlocksAfter(s1, f, Ir.Const(0), f);
    RegionEdge(s, x, e1, roots, t);
    RegionEmit(s, x, e2, roots, Ir.CondBr, [c, Ir.Label(t), Ir.Label(f)]);
    MoreTrans(s1, e1, e2);
    MoreTrans(s1, e2, s2);
    MoreTrans(e1, e2, s2);
    FromLater(s1, s2, x, s1.cur);
    FromLater(e1, s2, s1.cur, f);
    FromLater(e2, s2, s1.cur, t);
    FromTrans(s2, x, s1.cur, f);
    FromTrans(s2, x, s1.cur, t);
    DropRoot(s, x, s2, roots, f);
    DropRoot(s, x, s2, roots - {f} + {x}, t);
    assert roots - {f} + {x} - {t} + {x} == roots - {f} - {t} + {x};
  }

  lemma MoreTrans(s: Build, s1: Build, s2: Build)
    requires MoreEdges(s, s1) && MoreEdges(s1, s2)
    ensures MoreEdges(s, s2)
  {
  }

  // A branch to a block of the region, which is then reached.
  lemma JoinRegion(s: Build, x: Block, s1: Build, roots: set<Block>, b: Block)
    requires Region(s, x, s1, roots) && InRegion(s, x, s1.cur) && b in s1.g.blocks && b !in s.g.blocks &&
      s1.cur !in s1.Pred(b)
    ensures var s2 := Br(s1, b);
      Region(s, x, s2, roots) && MoreEdges(s1, s2) && From(s2, s1.cur, b) && s2.Pred(b) == s1.Pred(b) + [s1.cur]
    ensures forall c :: c != b ==> Br(s1, b).Pred(c) == s1.Pred(c)
  {
    hide From, Sound, Extends, NewFrom, MoreEdges;
    var e := Edge(s1, b);
    RegionEdge(s, x, s1, roots, b);
    RegionEmit(s, x, e, roots, Ir.Br, [Ir.Label(b)]);
    MoreTrans(s1, e, Br(s1, b));
    FromLater(e, Br(s1, b), s1.cur, b);
  }

  // Two new blocks and the branch to them.
  lemma ForkRegion(s: Build, c: Operand)
    requires Sound(s)
    ensures var t, f := s.nextBlock, s.nextBlock + 1;
            var s1 := CondBr(NewBlock(NewBlock(s)), c, t, f);
            && Region(s, s.cur, s1, {s.cur}) && From(s1, s.cur, t) && From(s1, s.cur, f)
            && t !in s.g.blocks && f !in s.g.blocks && t in s1.g.blocks && f in s1.g.blocks
            && s1.Pred(t) == [s.cur] && s1.Pred(f) == [s.cur]
  {
    hide From, Sound, Extends, NewFrom, MoreEdges;
    var x, t, f := s.cur, s.nextBlock, s.nextBlock + 1;
    var n1 := NewBlock(s);
    var n2 := NewBlock(n1);
    RegionStart(s);
    RegionNewBlock(s, x, s, {x});
    RegionNewBlock(s, x, n1, {x} + {t});
    assert n2.g.blocks == s.g.blocks + [t] + [f];
    NewNotOld(s, t, f);
    FromSelf(n2, x);
    SplitRegion(s, x, n2, {x} + {t} + {f}, c, t, f);
    assert {x} + {t} + {f} - {f} - {t} + {x} == {x};
  }

  lemma NewNotOld(s: Build, t: Block, f: Block)
    requires Sound(s) && t >= s.nextBlock && f >= s.nextBlock
    ensures t !in s.g.blocks && f !in s.g.blocks && s.cur != t && s.cur != f && s.cur in s.g.blocks
  {
    hide Graph.Valid, SuccsDistinct, Arranged;
  }

  lemma GrownDone(s: Build, s1: Build)
    requires Region(s, s.cur, s1, {s.cur}) && InRegion(s, s.cur, s1.cur) && From(s1, s.cur, s1.cur)
    ensures Grown(s, s1) && Sound(s1)
  {
  }

  lemma CheckGrown(s: Build, c: Operand)
    requires Sound(s)
    ensures Grown(s, CheckIndex(s, c))
  {
    hide From, Sound, Extends, NewFrom, MoreEdges, FromSome, CondBr, NewBlock, Br, Find;
    var found := Find(s.scope, "neg_idx_except");
    var ok := found.Some? && found.value.ty.Func? && found.value.ty.params == [];
    var callee := if found.Some? then found.value.op else Ir.Const(0);
    var x, t, f := s.cur, s.nextBlock, s.nextBlock + 1;
    var s1 := CondBr(NewBlock(NewBlock(s)), c, t, f);
    ForkRegion(s, c);
    NewNotOld(s, t, f);
    var s2 := Demand(At(s1, t), ok);
    RegionSame(s, x, s1, {x}, s2);
    CheckArm(s, x, s2, t, f, callee);
    var s4 := Br(Emit(s2, Ir.Effect(0), [callee]), f);
    SameBlocksAfter(Emit(s2, Ir.Effect(0), [callee]), f, c, f);
    RegionSame(s, x, s4, {x}, At(s4, f));
    MoreTrans(s1, s2, s4);
    MoreTrans(s1, s4, At(s4, f));
    FromLater(s1, At(s4, f), x, f);
    GrownDone(s, At(s4, f));
  }

  lemma CheckArm(s: Build, x: Block, s2: Build, t: Block, f: Block, callee: Operand)
    requires Region(s, x, s2, {x}) && s2.cur == t && t !in s.g.blocks && f !in s.g.blocks && f in s2.g.blocks &&
      s2.Pred(f) == [x] && t != x
    ensures var s4 := Br(Emit(s2, Ir.Effect(0), [callee]), f); Region(s, x, s4, {x}) && MoreEdges(s2, s4)
  {
    hide From, Sound, Extends, NewFrom, MoreEdges, FromSome, Br;
    var s3 := Emit(s2, Ir.Effect(0), [callee]);
    RegionEmit(s, x, s2, {x}, Ir.Effect(0), [callee]);
    JoinRegion(s, x, s3, {x}, f);
    MoreTrans(s2, s3, Br(s3, f));
  }

  lemma IndexGrown(s: Build, v: Value)
    requires Sound(s)
    ensures Grown(s, IndexAddress(s, v))
  {
    hide Grown, Sound, TypeConvert, ElementAddress, CheckIndex, Find;
    var s1 := TypeConvert(s, Int32);
    TypeConvertGrown(s, Int32); GrownSound(s, s1);
    var s2 := Emit(s1, Ir.Pure(RelCode(Lt)), [s1.value.op, Ir.Const(0)]);
    GrownEmit(s1, Ir.Pure(RelCode(Lt)), [s1.value.op, Ir.Const(0)]); GrownSound(s1, s2);
    var s3 := CheckIndex(s2, Ir.Res(s1.nextId));
    CheckGrown(s2, Ir.Res(s1.nextId)); GrownSound(s2, s3);
    var s4 := Demand(s3, v.ty.Ptr?);
    GrownSame(s3, s4); GrownSound(s3, s4);
    ElementGrown(s4, v, s1.value.op);
    assert IndexAddress(s, v) == ElementAddress(s4, v, s1.value.op);
    GrownTrans(s, s1, s2); GrownTrans(s, s2, s3); GrownTrans(s, s3, s4); GrownTrans(s, s4, IndexAddress(s, v));
  }

  lemma {:induction false} ExprGrown(s: Build, e: Expr)
    requires Sound(s)
    ensures Grown(s, VisitExpr(s, e))
    decreases e
  {
    hide Grown, Sound, TypeConvert, Binary, VisitVar, VisitArgs, Find;
    match e
    case Num(ty, n) => GrownSame(s, VisitExpr(s, e));
    case Var(id, index) => VarGrown(s, id, index);
    case Assign(id, index, e1) =>
      var s1 := VisitVar(s, id, index);
      VarGrown(s, id, index); GrownSound(s, s1);
      var s2 := VisitExpr(s1, e1);
      ExprGrown(s1, e1); GrownSound(s1, s2);
      var s3 := Demand(s2, s1.addr.ty.Ptr?);
      GrownSame(s2, s3); GrownSound(s2, s3);
      var ty := if s1.addr.ty.Ptr? then s1.addr.ty.elem else Void;
      var s4 := TypeConvert(s3, ty);
      TypeConvertGrown(s3, ty); GrownSound(s3, s4);
      GrownEmit(s4, Ir.Store, [s4.value.op, s1.addr.op]);
      GrownTrans(s, s1, s2); GrownTrans(s, s2, s3); GrownTrans(s, s3, s4); GrownTrans(s, s4, VisitExpr(s, e));
    case Rel(l, op, r) =>
      var s1 := VisitExpr(s, l);
      ExprGrown(s, l); GrownSound(s, s1);
      var s2 := VisitExpr(s1, r);
      ExprGrown(s1, r); GrownSound(s1, s2);
      BinaryGrown(s2, RelCode(op), s1.value, s2.value, Int1, Int1);
      GrownTrans(s, s1, s2); GrownTrans(s, s2, VisitExpr(s, e));
    case Arith(l, op, r) =>
      var s1 := VisitExpr(s, l);
      ExprGrown(s, l); GrownSound(s, s1);
      var s2 := VisitExpr(s1, r);
      ExprGrown(s1, r); GrownSound(s1, s2);
      BinaryGrown(s2, ArithCode(op), s1.value, s2.value, Int32, Float);
      GrownTrans(s, s1, s2); GrownTrans(s, s2, VisitExpr(s, e));
    case Call(id, args) =>
      var f := Find(s.scope, id);
      var fty := if f.Some? && f.value.ty.Func? then f.value.ty else Func(Void, []);
      var s1 := Demand(s, f.Some? && f.value.ty.Func? && |fty.params| == |args|);
      GrownSame(s, s1); GrownSound(s, s1);
      var s2 := VisitArgs(s1, args, fty.params).0;
      ArgsGrown(s1, args, fty.params); GrownSound(s1, s2);
      GrownEmitValue(s2, Ir.Effect(0),
        [if f.Some? then f.value.op else Ir.Const(0)] + VisitArgs(s1, args, fty.params).1, fty.ret);
      GrownTrans(s, s1, s2); GrownTrans(s, s2, VisitExpr(s, e));
  }

  lemma {:induction false} ArgsGrown(s: Build, args: seq<Expr>, params: seq<Type>)
    requires Sound(s)
    ensures Grown(s, VisitArgs(s, args, params).0)
    decreases args
  {
    hide Grown, Sound, TypeConvert, VisitExpr;
    if args == [] {
      GrownSame(s, s);
    } else {
      var ty := if params == [] then Void else params[0];
      var rest := if params == [] then [] else params[1..];
      var s1 := VisitExpr(s, args[0]);
      var s2 := TypeConvert(s1, ty);
      ExprGrown(s, args[0]); GrownSound(s, s1);
      TypeConvertGrown(s1, ty); GrownSound(s1, s2);
      ArgsGrown(s2, args[1..], rest);
      GrownTrans(s, s1, s2); GrownTrans(s, s2, VisitArgs(s, args, params).0);
    }
  }

  lemma {:induction false} VarGrown(s: Build, id: string, index: Option<Expr>)
    requires Sound(s)
    ensures Grown(s, VisitVar(s, id, index))
    decreases index
  {
    hide Grown, Sound, VisitExpr, IndexAddress, LoadVar, Find;
    var found := Find(s.scope, id);
    var v := if found.Some? then found.value else Value(Ir.Const(0), Void);
    var s1 := Demand(s, found.Some?);
    GrownSame(s, s1); GrownSound(s, s1);
    if index.None? {
      var s2 := s1.(addr := v);
      GrownSame(s1, s2); GrownSound(s1, s2);
      LoadVarGrown(s2, v);
      GrownTrans(s, s1, s2); GrownTrans(s, s2, VisitVar(s, id, index));
    } else {
      var s2 := VisitExpr(s1, index.value);
      ExprGrown(s1, index.value); GrownSound(s1, s2);
      var s3 := IndexAddress(s2, v);
      IndexGrown(s2, v); GrownSound(s2, s3);
      LoadVarGrown(s3, v);
      GrownTrans(s, s1, s2); GrownTrans(s, s2, s3); GrownTrans(s, s3, VisitVar(s, id, index));
    }
  }

  // ---- Statements ----

  lemma DeclGrown(s: Build, d: VarDecl)
    requires Sound(s)
    ensures Grown(s, VisitDecl(s, d))
  {
    hide Grown, Sound, Push;
    var ty := if d.num.Some? then Array(ToType(d.ty), d.num.value) else ToType(d.ty);
    var s1 := Alloca(s, ty);
    GrownEmitValue(s, Ir.Alloca(CellType(ty)), [], Ptr(ty)); GrownSound(s, s1);
    GrownSame(s1, VisitDecl(s, d));
    GrownTrans(s, s1, VisitDecl(s, d));
  }

  lemma {:induction false} DeclsGrown(s: Build, ds: seq<VarDecl>)
    requires Sound(s)
    ensures Grown(s, VisitDecls(s, ds))
    decreases ds
  {
    hide Grown, Sound, VisitDecl;
    if ds == [] {
      GrownSame(s, s);
    } else {
      DeclGrown(s, ds[0]); GrownSound(s, VisitDecl(s, ds[0]));
      DeclsGrown(VisitDecl(s, ds[0]), ds[1..]);
      GrownTrans(s, VisitDecl(s, ds[0]), VisitDecls(s, ds));
    }
  }

  lemma {:induction false} StmtsGrown(s: Build, nodes: seq<Stmt>)
    requires Sound(s)
    ensures Grown(s, VisitStmts(s, nodes))
    decreases nodes, 0
  {
    hide Grown, Sound, VisitStmt;
    if nodes == [] {
      GrownSame(s, s);
    } else {
      StmtGrown(s, nodes[0]); GrownSound(s, VisitStmt(s, nodes[0]));
      StmtsGrown(VisitStmt(s, nodes[0]), nodes[1..]);
      GrownTrans(s, VisitStmt(s, nodes[0]), VisitStmts(s, nodes));
    }
  }

  lemma {:induction false} StmtGrown(s: Build, node: Stmt)
    requires Sound(s)
    ensures Grown(s, VisitStmt(s, node))
    decreases node, 2
  {
    hide Grown, Sound, VisitExpr, VisitStmts, VisitDecls, TypeConvert, CompareWith0, NewBlock, Br, CondBr,
      VisitBranches, VisitBody;
    match node
    case ExprStmt(e) =>
      if e.Some? { ExprGrown(s, e.value); } else { GrownSame(s, s); }
    case Compound(decls, body) =>
      var s1 := Enter(s);
      GrownSame(s, s1); GrownSound(s, s1);
      var s2 := VisitDecls(s1, decls);
      DeclsGrown(s1, decls); GrownSound(s1, s2);
      var s3 := VisitStmts(s2, body);
      StmtsGrown(s2, body); GrownSound(s2, s3);
      GrownSame(s3, Exit(s3));
      GrownTrans(s, s1, s2); GrownTrans(s, s2, s3); GrownTrans(s, s3, Exit(s3));
    case Selection(cond, thenS, elseS) =>
      var s0 := VisitExpr(s, cond);
      var s1 := CompareWith0(s0);
      ExprGrown(s, cond); GrownSound(s, s0);
      CompareGrown(s0); GrownSound(s0, s1);
      var s2 := s1.(value := s0.value);
      GrownSame(s1, s2); GrownSound(s1, s2);
      BranchesGrown(s2, s1.value.op, node);
      GrownTrans(s, s0, s1); GrownTrans(s, s1, s2); GrownTrans(s, s2, VisitStmt(s, node));
    case Iteration(cond, body) => LoopGrown(s, node);
    case Return(e) =>
      if e.None? {
        GrownEmit(s, Ir.Ret, []);
      } else {
        var s1 := VisitExpr(s, e.value);
        var s2 := TypeConvert(s1, s.ret);
        ExprGrown(s, e.value); GrownSound(s, s1);
        TypeConvertGrown(s1, s.ret); GrownSound(s1, s2);
        GrownEmit(s2, Ir.Ret, [s2.value.op]);
        GrownTrans(s, s1, s2); GrownTrans(s, s2, VisitStmt(s, node));
      }
  }

  // One arm of a conditional statement: from its block t to the block behind the statement.
  lemma {:induction false} ArmRegion(s: Build, x: Block, s1: Build, roots: set<Block>, t: Block, arm: Stmt, next: Block)
    requires Region(s, x, s1, roots) && t in s1.g.blocks && t !in s.g.blocks && From(s1, x, t)
    requires next in s1.g.blocks && next !in s.g.blocks && next != t
    requires forall p :: p in s1.Pred(next) ==> p in s1.g.blocks && p != t
    requires Grown(At(s1, t), VisitStmt(At(s1, t), arm))
    ensures var s2 := VisitStmt(At(s1, t), arm);
            var s3 := Br(s2, next);
            && Region(s, x, s3, roots) && MoreEdges(s1, s3) && From(s3, x, next) &&
                 s3.Pred(next) == s1.Pred(next) + [s2.cur]
            && InRegion(s, x, s2.cur) && (s2.cur == t || s2.cur !in s1.g.blocks) && s2.cur in s3.g.blocks
            && forall b :: b in s1.g.blocks ==> b in s3.g.blocks && (b != next ==> s3.Pred(b) == s1.Pred(b))
  {
    hide From, Sound, Extends, NewFrom, MoreEdges, VisitStmt, FromSome;
    var a := At(s1, t);
    var s2 := VisitStmt(a, arm);
    var s3 := Br(s2, next);
    RegionSame(s, x, s1, roots, a);
    RegionVisit(s, x, a, roots, s2);
    JoinRegion(s, x, s2, roots, next);
    MoreTrans(s1, a, s2);
    MoreTrans(s1, s2, s3);
    FromLater(s1, s3, x, t);
    FromLater(s2, s3, t, s2.cur);
    FromTrans(s3, x, t, s2.cur);
    FromTrans(s3, x, s2.cur, next);
    SameBlocksAfter(s2, next, Ir.Const(0), next);
    GrownSound(a, s2);
  }

  lemma SameBlocksAfter(s: Build, b: Block, c: Operand, f: Block)
    ensures Edge(s, b).g.blocks == s.g.blocks && Edge(s, b).cur == s.cur
    ensures Br(s, b).g.blocks == s.g.blocks && Br(s, b).cur == s.cur && CondBr(s, c, b, f).g.blocks == s.g.blocks
  {
  }

  lemma {:induction false} BranchesGrown(s: Build, c: Operand, node: Stmt)
    requires Sound(s) && node.Selection?
    ensures Grown(s, VisitBranches(s, c, node))
    decreases node, 1
  {
    if node.elseS.None? { OneArmGrown(s, c, node); } else { TwoArmsGrown(s, c, node); }
  }

  lemma {:induction false} OneArmGrown(s: Build, c: Operand, node: Stmt)
    requires Sound(s) && node.Selection? && node.elseS.None?
    ensures Grown(s, VisitBranches(s, c, node))
    decreases node, 0
  {
    hide From, Sound, Extends, NewFrom, MoreEdges, VisitStmt, FromSome, CondBr, NewBlock, Br;
    var x, t, next := s.cur, s.nextBlock, s.nextBlock + 1;
    var s1 := CondBr(NewBlock(NewBlock(s)), c, t, next);
    ForkRegion(s, c);
    NextBlocks(s);
    SoundAt(s, s1, x, {x}, t);
    StmtGrown(At(s1, t), node.thenS);
    ArmRegion(s, x, s1, {x}, t, node.thenS, next);
    var s3 := Br(VisitStmt(At(s1, t), node.thenS), next);
    RegionSame(s, x, s3, {x}, At(s3, next));
    FromLater(s3, At(s3, next), x, next);
    GrownDone(s, At(s3, next));
  }

  lemma NextBlocks(s: Build)
    ensures NewBlock(s).nextBlock == s.nextBlock + 1 && NewBlock(NewBlock(s)).nextBlock == s.nextBlock + 2
    ensures NewBlock(s).cur == s.cur && NewBlock(NewBlock(s)).cur == s.cur &&
      NewBlock(NewBlock(NewBlock(s))).cur == s.cur
    ensures NewBlock(NewBlock(NewBlock(s))).g.blocks == s.g.blocks + [s.nextBlock, s.nextBlock + 1, s.nextBlock + 2]
  {
  }

  lemma SoundAt(s: Build, s1: Build, x: Block, roots: set<Block>, t: Block)
    requires Region(s, x, s1, roots) && t in s1.g.blocks
    ensures Sound(At(s1, t)) && x in s1.g.blocks
  {
    hide Graph.Valid, SuccsDistinct, NewFrom;
  }

  lemma {:induction false} TwoArmsGrown(s: Build, c: Operand, node: Stmt)
    requires Sound(s) && node.Selection? && node.elseS.Some?
    ensures Grown(s, VisitBranches(s, c, node))
    decreases node, 0
  {
    hide From, Sound, Extends, NewFrom, MoreEdges, VisitStmt, FromSome, CondBr, NewBlock, Br;
    var x, t, next, f := s.cur, s.nextBlock, s.nextBlock + 1, s.nextBlock + 2;
    NextBlocks(s);
    var s1 := CondBr(NewBlock(NewBlock(NewBlock(s))), c, t, f);
    ThreeRegion(s, c, NewBlock(NewBlock(NewBlock(s))), s1, t, next, f);
    SoundAt(s, s1, x, {x, next}, t);
    StmtGrown(At(s1, t), node.thenS);
    ArmRegion(s, x, s1, {x, next}, t, node.thenS, next);
    var s3 := Br(VisitStmt(At(s1, t), node.thenS), next);
    DropRoot(s, x, s3, {x, next}, next);
    assert {x, next} - {next} + {x} == {x};
    FromLater(s1, s3, x, f);
    SoundAt(s, s3, x, {x}, f);
    StmtGrown(At(s3, f), node.elseS.value);
    ArmRegion(s, x, s3, {x}, f, node.elseS.value, next);
    var s5 := Br(VisitStmt(At(s3, f), node.elseS.value), next);
    RegionSame(s, x, s5, {x}, At(s5, next));
    FromLater(s5, At(s5, next), x, next);
    GrownDone(s, At(s5, next));
  }

  // Three new blocks, and a branch to the first and the third.
  lemma {:induction false} ThreeRegion(s: Build, c: Operand, n3: Build, s1: Build, t: Block, next: Block, f: Block)
    requires Sound(s) && n3 == NewBlock(NewBlock(NewBlock(s))) && s1 == CondBr(n3, c, t, f)
    requires t == s.nextBlock && next == s.nextBlock + 1 && f == s.nextBlock + 2
    ensures Region(s, s.cur, s1, {s.cur, next}) && From(s1, s.cur, t) && From(s1, s.cur, f)
    ensures t !in s.g.blocks && f !in s.g.blocks && next !in s.g.blocks && t in s1.g.blocks && f in s1.g.blocks &&
      next in s1.g.blocks
    ensures s1.Pred(next) == []
  {
    hide Region, From, CondBr, NewBlock, Sound;
    var x := s.cur;
    ThreeBlocks(s, n3);
    FromSelf(n3, x);
    SplitRegion(s, x, n3, {x, t, next, f}, c, t, f);
    assert {x, t, next, f} - {f} - {t} + {x} == {x, next};
    SameBlocksAfter(n3, t, c, f);
  }

  lemma ThreeBlocks(s: Build, n3: Build)
    requires Sound(s) && n3 == NewBlock(NewBlock(NewBlock(s)))
    ensures var x, t, next, f := s.cur, s.nextBlock, s.nextBlock + 1, s.nextBlock + 2;
            && Region(s, x, n3, {x, t, next, f}) && n3.cur == x && n3.g.blocks == s.g.blocks + [t, next, f]
            && t !in s.g.blocks && f !in s.g.blocks && next !in s.g.blocks && x in s.g.blocks
            && n3.Pred(t) == [] && n3.Pred(next) == [] && n3.Pred(f) == []
  {
    hide Region, Sound, NewBlock;
    var x, t, next, f := s.cur, s.nextBlock, s.nextBlock + 1, s.nextBlock + 2;
    var n1 := NewBlock(s);
    var n2 := NewBlock(n1);
    NextBlocks(s);
    RegionStart(s);
    RegionNewBlock(s, x, s, {x});
    NewBlockIs(s);
    RegionNewBlock(s, x, n1, {x} + {t});
    NewBlockIs(n1);
    RegionNewBlock(s, x, n2, {x} + {t} + {next});
    NewNotOld(s, t, f);
    NewNotOld(s, t, next);
    assert {x} + {t} + {next} + {f} == {x, t, next, f};
  }

  lemma {:induction false} LoopGrown(s: Build, node: Stmt)
    requires Sound(s) && node.Iteration?
    ensures Grown(s, VisitStmt(s, node))
    decreases node, 1
  {
    hide From, Sound, Extends, NewFrom, MoreEdges, FromSome, NewBlock, Br, VisitExpr, CompareWith0, VisitBody;
    var x, w := s.cur, s.nextBlock;
    var s1 := At(Br(NewBlock(s), w), w);
    HeadRegion(s);
    SoundOf(s, s1, x, {x});
    var s2 := VisitExpr(s1, node.cond);
    ExprGrown(s1, node.cond);
    GrownSound(s1, s2);
    RegionVisit(s, x, s1, {x}, s2);
    var s3 := CompareWith0(s2);
    CompareGrown(s2);
    GrownSound(s2, s3);
    RegionVisit(s, x, s2, {x}, s3);
    MoreTrans(s1, s2, s3);
    FromLater(s1, s3, x, w);
    var s4 := s3.(value := s2.value);
    RegionSame(s, x, s3, {x}, s4);
    FromLater(s3, s4, x, w);
    BodyRegion(s, x, s4, s3.value.op, w, node);
    GrownDone(s, VisitBody(s4, s3.value.op, w, node));
  }

  lemma SoundOf(s: Build, s1: Build, x: Block, roots: set<Block>)
    requires Region(s, x, s1, roots)
    ensures Sound(s1)
  {
  }

  // The head of a loop.
  lemma HeadRegion(s: Build)
    requires Sound(s)
    ensures var x, w := s.cur, s.nextBlock; var s1 := At(Br(NewBlock(s), w), w);
            && Region(s, x, s1, {x}) && InRegion(s, x, s1.cur) && From(s1, x, w) && w !in s.g.blocks &&
                 w in s1.g.blocks && s1.Pred(w) == [x]
  {
    hide From, Sound, Extends, NewFrom, MoreEdges, FromSome;
    var x, w := s.cur, s.nextBlock;
    var n := NewBlock(s);
    RegionStart(s);
    RegionNewBlock(s, x, s, {x});
    NewNotOld(s, w, w);
    JoinRegion(s, x, n, {x} + {w}, w);
    var s1 := Br(n, w);
    DropRoot(s, x, s1, {x} + {w}, w);
    assert {x} + {w} - {w} + {x} == {x};
    RegionSame(s, x, s1, {x}, At(s1, w));
    FromLater(s1, At(s1, w), x, w);
  }

  lemma {:induction false} BodyRegion(s: Build, x: Block, s1: Build, c: Operand, w: Block, node: Stmt)
    requires node.Iteration? && Region(s, x, s1, {x}) && w in s1.g.blocks && w !in s.g.blocks && From(s1, x, w) &&
      s1.Pred(w) == [x]
    ensures var s2 := VisitBody(s1, c, w, node); Region(s, x, s2, {x}) && InRegion(s, x, s2.cur) && From(s2, x, s2.cur)
    decreases node, 0
  {
    hide From, Sound, Extends, NewFrom, MoreEdges, FromSome, NewBlock, Br, CondBr, VisitStmt;
    var b := s1.nextBlock;
    var n := NewBlock(s1);
    RegionNewBlock(s, x, s1, {x});
    NewBlockIs(s1);
    Outside(s, x, s1, b);
    SoundAt(s, n, x, {x} + {b}, b);
    var v := VisitStmt(At(n, b), node.s);
    StmtGrown(At(n, b), node.s);
    RegionSame(s, x, n, {x} + {b}, At(n, b));
    RegionVisit(s, x, At(n, b), {x} + {b}, v);
    MoreTrans(n, At(n, b), v);
    MoreTrans(s1, n, v);
    var j := Br(v, w);
    JoinRegion(s, x, v, {x} + {b}, w);
    MoreTrans(s1, v, j);
    SameBlocksAfter(v, w, Ir.Const(0), w);
    EndRegion(s, x, s1, j, w, c, b);
  }

  lemma Outside(s: Build, x: Block, s1: Build, b: Block)
    requires Region(s, x, s1, {x}) && b !in s1.g.blocks
    ensures b !in s.g.blocks && b != x && x in s1.g.blocks
  {
    hide NewFrom, Sound;
  }

  // The branch in the head that ends the loop.
  lemma {:induction false} EndRegion(s: Build, x: Block, s1: Build, j: Build, w: Block, c: Operand, b: Block)
    requires Region(s, x, j, {x} + {b}) && MoreEdges(s1, j) && From(s1, x, w) && w in j.g.blocks && w !in s.g.blocks
    requires b in j.g.blocks && b !in s.g.blocks && j.Pred(b) == [] && w != b
    ensures var end := j.nextBlock; var s2 := At(CondBr(At(NewBlock(j), w), c, b, end), end);
            Region(s, x, s2, {x}) && InRegion(s, x, s2.cur) && From(s2, x, s2.cur)
  {
    hide From, Sound, Extends, NewFrom, MoreEdges, FromSome, NewBlock, CondBr;
    var end := j.nextBlock;
    var n := NewBlock(j);
    RegionNewBlock(s, x, j, {x} + {b});
    NewBlockIs(j);
    NewIsOutside(s, x, j, {x} + {b}, end);
    var a := At(n, w);
    RegionSame(s, x, n, {x} + {b} + {end}, a);
    MoreTrans(s1, j, n);
    MoreTrans(s1, n, a);
    FromLater(s1, a, x, w);
    SplitRegion(s, x, a, {x} + {b} + {end}, c, b, end);
    assert {x} + {b} + {end} - {end} - {b} + {x} == {x};
    var s2 := CondBr(a, c, b, end);
    SameBlocksAfter(a, b, c, end);
    RegionSame(s, x, s2, {x}, At(s2, end));
    FromLater(s2, At(s2, end), x, end);
  }

  lemma NewIsOutside(s: Build, x: Block, j: Build, roots: set<Block>, end: Block)
    requires Region(s, x, j, roots) && end !in j.g.blocks
    ensures end !in s.g.blocks
  {
    hide NewFrom, Sound;
  }

  // ---- Functions ----

  lemma StartSound(globals: Bindings, d: FunDecl, self: Operand)
    ensures var s := StartFunction(globals, d, self);
      Sound(s) && s.g.blocks == [0] && s.cur == 0 && s.g.entry == 0 && s.g.pred[0] == []
  {
  }

  lemma {:induction false} ParamsGrown(s: Build, ps: seq<Param>, i: nat)
    requires Sound(s)
    ensures Grown(s, VisitParams(s, ps, i))
    decreases ps
  {
    hide Grown, Sound, Push;
    if ps == [] {
      GrownSame(s, s);
    } else {
      var s1 := Alloca(s, ParamCell(ps[0]));
      GrownEmitValue(s, Ir.Alloca(CellType(ParamCell(ps[0]))), [], Ptr(ParamCell(ps[0]))); GrownSound(s, s1);
      var s2 := s1.(value := s.value, scope := Push(s.scope, ps[0].id, Value(Ir.Res(s.nextId), Ptr(ParamCell(ps[0])))));
      GrownSame(s1, s2); GrownSound(s1, s2);
      var s3 := Store(s2, Ir.Arg(i), Ir.Res(s.nextId));
      GrownEmit(s2, Ir.Store, [Ir.Arg(i), Ir.Res(s.nextId)]); GrownSound(s2, s3);
      ParamsGrown(s3, ps[1..], i + 1);
      GrownTrans(s, s1, s2); GrownTrans(s, s2, s3); GrownTrans(s, s3, VisitParams(s, ps, i));
    }
  }

  // The graph of a whole function is what the dominator analysis asks for.
  lemma FunctionShape(globals: Bindings, d: FunDecl, self: Operand)
    ensures var s := VisitFunction(globals, d, self);
            s.g.WellFormed() && SuccsDistinct(s.g) && s.lists.Keys == Elements(s.g.blocks) && Sound(s)
  {
    hide Grown, Sound, VisitParams, VisitStmt, StartFunction;
    var s0 := StartFunction(globals, d, self);
    StartSound(globals, d, self);
    var s1 := VisitParams(s0, d.params, 0);
    ParamsGrown(s0, d.params, 0); GrownSound(s0, s1);
    var s2 := VisitStmt(s1, Compound(d.decls, d.body));
    StmtGrown(s1, Compound(d.decls, d.body)); GrownSound(s1, s2);
    GrownSame(s2, Exit(s2)); GrownSound(s2, Exit(s2));
    GrownTrans(s0, s1, s2); GrownTrans(s0, s2, Exit(s2));
    GrownEmit(Exit(s2), Ir.Ret, if d.ty.TypeVoid? then [] else [Ir.Const(0)]);
    GrownTrans(s0, Exit(s2), VisitFunction(globals, d, self));
    GrownSound(s0, VisitFunction(globals, d, self));
    GrownShape(s0, VisitFunction(globals, d, self));
  }

  lemma GrownShape(s: Build, s1: Build)
    requires Grown(s, s1) && s.g.blocks == [s.cur] && s.g.entry == s.cur && s.Pred(s.cur) == []
    ensures s1.g.WellFormed() && SuccsDistinct(s1.g) && s1.lists.Keys == Elements(s1.g.blocks)
  {
    hide FromSome, From, SuccsDistinct, Graph.Reachable;
    assert s1.Pred(s.cur) == s.Pred(s.cur);
    forall b | b in s1.g.blocks ensures s1.g.Reachable(b) {
      if b == s.cur {
        FromSelf(s1, b);
      } else {
        assert FromSome(s1, {s.cur}, b);
        FromOne(s1, s.cur, b);
      }
      FromIsPath(s1, b);
    }
    assert s.cur in s.g.blocks;
  }

  lemma FromOne(s: Build, r: Block, b: Block)
    requires FromSome(s, {r}, b)
    ensures From(s, r, b)
  {
    hide From;
  }

  lemma FromIsPath(s: Build, b: Block)
    requires From(s, s.g.entry, b)
    ensures s.g.Reachable(b)
  {
    var p :| Walk(SuccSets(s.g), p) && p[0] == s.g.entry && p[|p| - 1] == b;
    forall i | 0 <= i < |p| - 1 ensures s.g.Step(p, i) { WalkStep(SuccSets(s.g), p, i); }
    assert s.g.PathTo(p, b);
  }
}
