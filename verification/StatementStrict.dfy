/** Statements and whole functions: unless the condition of a loop indexes an array, the code
    the builder makes is in the form the promotion of variables asks for. */
module StatementStrict {
  import opened Wrappers
  import opened Cfg
  import Ir
  import Ssa
  import PhiPlacement
  import opened Ast
  import opened Lowering
  import opened BuilderShape
  import opened Runs
  import opened BuilderMeaning
  import opened StatementMeaning
  import opened BuilderStrict

  // ---- Declarations ----

  lemma AllocaStrict(f: Ir.Func, s: Build, ty: Type)
    requires Whole(f) && Sound(s) && NamesOk(f, s) && Final(f, s, Emit(s, Ir.Alloca(CellType(ty)), []))
    ensures var s1 := Emit(s, Ir.Alloca(CellType(ty)), []);
            Strict(f, s, s1) && Sound(s1) && NamesOk(f, s1) && Avail(f, s1, Ir.Res(s.nextId)) && s.nextId in f.code &&
              f.code[s.nextId].op == Ir.Alloca(CellType(ty))
  {
    hide Whole, Sound, Final, Grown, NewGood, NamesOk, Avail;
    var s1 := Emit(s, Ir.Alloca(CellType(ty)), []);
    GrownEmit(s, Ir.Alloca(CellType(ty)), []); GrownSound(s, s1);
    EmittedGood(f, s, Ir.Alloca(CellType(ty)), []);
    AvailEmitted(f, s, Ir.Alloca(CellType(ty)), []);
    EmitScope(s, Ir.Alloca(CellType(ty)), []);
    NamesGrown(f, s, s1);
  }

  // Binding a fresh cell.
  lemma BindStrict(f: Ir.Func, s: Build, s1: Build, s2: Build, id: string, ty: Type)
    requires Strict(f, s, s1) && Sound(s1) && NamesOk(f, s1) && Avail(f, s1, Ir.Res(s.nextId)) &&
      s.nextId in f.code && f.code[s.nextId].op == Ir.Alloca(CellType(ty))
    requires CellTy(ty) && SameBlocks(s1, s2) && s2.cur == s1.cur &&
      s2.scope == Push(s1.scope, id, Value(Ir.Res(s.nextId), Ptr(ty)))
    ensures Strict(f, s, s2) && Sound(s2) && NamesOk(f, s2)
  {
    hide Sound, Strict, Grown, Ssa.Before;
    StrictSame(f, s1, s2);
    StrictTrans(f, s, s1, s2);
    GrownSame(s1, s2); GrownSound(s1, s2);
    var v := Value(Ir.Res(s.nextId), Ptr(ty));
    assert Named(f, s2, v);
    forall i, x | 0 <= i < |s2.scope| && x in s2.scope[i] ensures Named(f, s2, s2.scope[i][x]) {
      if x in s1.scope[i] && s2.scope[i][x] == s1.scope[i][x] { assert Named(f, s1, s1.scope[i][x]); }
    }
  }

  lemma DeclStrict(f: Ir.Func, s: Build, d: VarDecl)
    requires Whole(f) && Sound(s) && NamesOk(f, s) && Final(f, s, VisitDecl(s, d))
    ensures Strict(f, s, VisitDecl(s, d)) && Sound(VisitDecl(s, d)) && NamesOk(f, VisitDecl(s, d))
  {
    hide Whole, Sound, Final, Strict, NamesOk, Avail, Push;
    var ty := if d.num.Some? then Array(ToType(d.ty), d.num.value) else ToType(d.ty);
    var s1 := Emit(s, Ir.Alloca(CellType(ty)), []);
    EmitScope(s, Ir.Alloca(CellType(ty)), []);
    FinalSame(f, s, VisitDecl(s, d), s1);
    AllocaStrict(f, s, ty);
    BindStrict(f, s, s1, VisitDecl(s, d), d.id, ty);
  }

  lemma {:induction false} DeclsStrict(f: Ir.Func, s: Build, ds: seq<VarDecl>)
    requires Whole(f) && Sound(s) && NamesOk(f, s) && Final(f, s, VisitDecls(s, ds))
    ensures Strict(f, s, VisitDecls(s, ds)) && NamesOk(f, VisitDecls(s, ds))
    decreases ds
  {
    hide Whole, Sound, Final, Strict, NamesOk, Grown, VisitDecl;
    if ds == [] {
      StrictSame(f, s, s);
    } else {
      var s1 := VisitDecl(s, ds[0]);
      DeclGrown(s, ds[0]); GrownSound(s, s1);
      DeclsGrown(s1, ds[1..]);
      FinalSplit(f, s, s1, VisitDecls(s1, ds[1..]));
      DeclStrict(f, s, ds[0]);
      DeclsStrict(f, s1, ds[1..]);
      StrictTrans(f, s, s1, VisitDecls(s, ds));
    }
  }

  // ---- Arms ----

  // From a to b only the blocks in m have got new predecessors.
  ghost predicate PredsKept(a: Build, b: Build, m: set<Block>) {
    forall x {:trigger x in a.g.blocks} :: x in a.g.blocks ==> x in b.g.blocks && (x !in m ==> b.Pred(x) == a.Pred(x))
  }

  lemma GrownPreds(s: Build, s1: Build)
    requires Grown(s, s1)
    ensures PredsKept(s, s1, {}) && s1.g.entry == s.g.entry
  {
    hide NewFrom, From, Sound;
  }

  lemma BrPreds(s: Build, b: Block)
    ensures PredsKept(s, Br(s, b), {b}) && Br(s, b).Pred(b) == s.Pred(b) + [s.cur] && Br(s, b).g.entry == s.g.entry
    ensures HomeIn(s.home, Br(s, b).home) || s.nextId in s.home
  {
  }

  // A visit inside a statement is final when the statement is.
  lemma {:induction false} ArmFinal(f: Ir.Func, s: Build, a: Build, b: Build, end: Build, m: set<Block>,
      preds: set<Block>)
    requires Final(f, s, end) && Grown(a, b) && Kept(b, end, m) && a.cur !in s.g.blocks
    requires forall x :: x in s.g.blocks ==> x in a.g.blocks
    requires forall x :: x in m && x in b.g.blocks && (x == a.cur || x !in a.g.blocks) ==> x == b.cur
    requires end.cur != a.cur && (end.cur in a.g.blocks || end.cur !in b.g.blocks)
    requires PredsKept(b, end, preds) &&
      (forall x :: x in preds ==> x in a.g.blocks || x !in b.g.blocks) && b.g.entry == end.g.entry
    requires CodeIn(b.code, end.code) && HomeIn(b.home, end.home)
    ensures Final(f, a, b)
  {
    hide Grown, Fits, CodeIn, HomeIn, Kept;
    FitsInner(s, a, b, end, f.lists, m);
    CodeInTrans(b.code, end.code, f.code);
    HomeInTrans(b.home, end.home, f.home);
  }

  // What was usable at s is usable at a block below.
  lemma NamesBelow(f: Ir.Func, s: Build, a: Build)
    requires NamesOk(f, s) && a.scope == s.scope && f.g.StrictlyDominates(s.cur, a.cur) && f.g.Reachable(a.cur)
    ensures NamesOk(f, a)
  {
    hide Avail, Graph.StrictlyDominates, Graph.Reachable;
    forall x: Operand ensures Avail(f, s, x) ==> Avail(f, a, x) {
      if Avail(f, s, x) { AvailBelow(f, s, a, x); }
    }
    forall i, id | 0 <= i < |a.scope| && id in a.scope[i] ensures Named(f, a, a.scope[i][id]) {
      assert Named(f, s, s.scope[i][id]);
    }
  }

  // The branch that ends an arm.
  lemma ArmEnds(f: Ir.Func, s: Build, end: Build, b: Build, next: Block)
    requires Whole(f) && Final(f, s, end) && b.cur in end.g.blocks && (b.cur == s.cur || b.cur !in s.g.blocks) &&
      b.cur != end.cur
    requires next in end.g.blocks && next !in s.g.blocks
    requires end.List(b.cur) == b.List(b.cur) + [b.nextId] && b.cur in end.Pred(next) &&
      CodeIn(Br(b, next).code, end.code)
    ensures Good(f, b.cur, |b.List(b.cur)|)
  {
    hide Whole, PredsFit, HomeIn, Br, CodeIn, Good;
    FitsAt(s, end, f.lists, b.cur);
    BrKept(b, next);
    CodeInTrans(Br(b, next).code, end.code, f.code);
    CodeAtIn(Br(b, next).code, f.code, b.nextId);
    FinalEdge(f, s, end, b.cur, next);
    BrGood(f, b, next);
  }

  // The branch into the arms.
  lemma {:induction false} ForkEnds(f: Ir.Func, s: Build, end: Build, n: Build, c: Operand, t: Block, e: Block)
    requires Whole(f) && Final(f, s, end) && n.cur in end.g.blocks && (n.cur == s.cur || n.cur !in s.g.blocks) &&
      n.cur != end.cur
    requires t in end.g.blocks && t !in s.g.blocks && e in end.g.blocks && e !in s.g.blocks
    requires end.List(n.cur) == n.List(n.cur) + [n.nextId] && n.cur in end.Pred(t) && n.cur in end.Pred(e) &&
      CodeIn(CondBr(n, c, t, e).code, end.code)
    requires Usable(f, n, c)
    ensures Good(f, n.cur, |n.List(n.cur)|)
  {
    hide Whole, PredsFit, HomeIn, CondBr, CodeIn, Good, Usable;
    FitsAt(s, end, f.lists, n.cur);
    CondBrKept(n, c, t, e);
    CodeInTrans(CondBr(n, c, t, e).code, end.code, f.code);
    CodeAtIn(CondBr(n, c, t, e).code, f.code, n.nextId);
    FinalEdge(f, s, end, n.cur, t);
    FinalEdge(f, s, end, n.cur, e);
    CondBrGood(f, n, c, t, e);
  }

  lemma BrHome(s: Build, b: Block)
    requires Sound(s)
    ensures HomeIn(s.home, Br(s, b).home)
  {
    hide Graph.Valid, SuccsDistinct;
  }

  lemma ArmNames(f: Ir.Func, s: Build, end: Build, a: Build)
    requires Whole(f) && Sound(s) && Grown(s, end) && Final(f, s, end) && NamesOk(f, s) && SameScope(s, a) &&
      a.cur in end.g.blocks && a.cur !in s.g.blocks
    ensures NamesOk(f, a)
  {
    hide Whole, Sound, Grown, Final, NamesOk;
    RegionDominated(f, s, end, a.cur);
    FinalBlock(f, s, end, a.cur);
    NamesBelow(f, s, a);
  }

  lemma StrictNames(f: Ir.Func, s: Build, s1: Build)
    requires Whole(f) && Sound(s) && Grown(s, s1) && Final(f, s, s1) && NamesOk(f, s) && NewGood(f, s, s1) &&
      SameScope(s, s1)
    ensures Strict(f, s, s1) && NamesOk(f, s1)
  {
    hide Whole, Sound, Grown, Final, NamesOk, NewGood;
    NamesGrown(f, s, s1);
  }

  // The instructions of a statement with one arm.
  lemma {:induction false} OneArmGood(f: Ir.Func, s: Build, a: Build, b: Build, end: Build, t: Block, next: Block)
    requires Grown(s, end) && Kept(b, end, {b.cur}) && end.g.blocks == b.g.blocks &&
      a.g.blocks == s.g.blocks + [t, next]
    requires a.List(t) == [] && end.List(next) == [] && NewGood(f, a, b)
    requires |end.List(s.cur)| == |s.List(s.cur)| + 1 && Good(f, s.cur, |s.List(s.cur)|)
    requires |end.List(b.cur)| == |b.List(b.cur)| + 1 && Good(f, b.cur, |b.List(b.cur)|)
    ensures NewGood(f, s, end)
  {
    hide Grown, Good;
    GrownKept(s, end);
    forall x, i: nat | x in end.g.blocks && i < |end.List(x)| && (x !in s.g.blocks || i >= |s.List(x)|)
      ensures Good(f, x, i) {
      if x !in s.g.blocks && !(x == b.cur && i == |b.List(x)|) { assert x in b.g.blocks; }
    }
  }

  lemma {:induction false} OneArmPreds(s: Build, c: Operand, n2: Build, a: Build, b: Build, j: Build, end: Build,
      t: Block, next: Block)
    requires Sound(s) && Grown(a, b) && t == s.nextBlock && next == s.nextBlock + 1
    requires n2 == NewBlock(NewBlock(s)) && a == At(CondBr(n2, c, t, next), t) && j == Br(b, next) && end == At(j, next)
    ensures s.cur in end.Pred(t) && s.cur in end.Pred(next) && b.cur in end.Pred(next) && PredsKept(b, end, {next})
    ensures a.g.blocks == s.g.blocks + [t, next] && end.g.blocks == b.g.blocks && b.g.entry == end.g.entry &&
      next in a.g.blocks
  {
    hide Sound, Grown, CondBr, NewBlock, Br;
    ForkLists(s, c, n2, CondBr(n2, c, t, next), t, next);
    BranchPreds(n2, c, t, next);
    GrownPreds(a, b);
    BrPreds(b, next);
    JumpPreds(b, next);
    BrKept(b, next);
    AtPreds(CondBr(n2, c, t, next), t);
    AtPreds(j, next);
    assert t in a.g.blocks && next in a.g.blocks;
  }

  lemma AtPreds(s: Build, b: Block)
    ensures forall x :: At(s, b).Pred(x) == s.Pred(x)
  {
  }

  lemma {:induction false} OneArmStrict(f: Ir.Func, s: Build, c: Operand, node: Stmt)
    requires Whole(f) && Sound(s) && NamesOk(f, s) && Usable(f, s, c) && node.Selection? && node.elseS.None? &&
      FlatLoops(node.thenS)
    requires Final(f, s, VisitBranches(s, c, node)) && VisitBranches(s, c, node).ok
    ensures Strict(f, s, VisitBranches(s, c, node)) && NamesOk(f, VisitBranches(s, c, node))
    decreases node, 0
  {
    hide *;
    var t, next := s.nextBlock, s.nextBlock + 1;
    var n2 := NewBlock(NewBlock(s));
    var a := At(CondBr(n2, c, t, next), t);
    var b := VisitStmt(a, node.thenS);
    var j := Br(b, next);
    var end := At(j, next);
    AtIs(CondBr(n2, c, t, next), t); AtIs(j, next);
    OneArmShape(s, c, node, n2, a, b, end, t, next);
    OneArmCode(s, c, n2, a, b, j, end, t, next);
    OneArmLists(s, c, n2, a, b, j, end, t, next);
    OneArmPreds(s, c, n2, a, b, j, end, t, next);
    BrHome(b, next);
    AtHome(j, next);
    GrownFacts(a, b);
    BrCode(b, next);
    CodeInTrans(b.code, j.code, end.code);
    ArmFinal(f, s, a, b, end, {b.cur}, {next});
    ArmNames(f, s, end, a);
    StmtStrict(f, a, node.thenS);
    StrictParts(f, a, b);
    UsableSame(f, s, n2, c);
    ForkEnds(f, s, end, n2, c, t, next);
    CurOutside(s, a, b, t);
    ArmEnds(f, s, end, b, next);
    OneArmGood(f, s, a, b, end, t, next);
    BranchesScope(s, c, node);
    StrictNames(f, s, end);
  }

  lemma StrictParts(f: Ir.Func, s: Build, s1: Build)
    requires Strict(f, s, s1)
    ensures NewGood(f, s, s1) && Grown(s, s1)
  {
    hide NewGood, Grown;
  }

  lemma AtHome(s: Build, b: Block)
    ensures At(s, b).home == s.home
  {
  }

  lemma UsableSame(f: Ir.Func, s: Build, n: Build, a: Operand)
    requires Usable(f, s, a) && n.cur == s.cur && n.List(s.cur) == s.List(s.cur)
    ensures Usable(f, n, a)
  {
    hide Ssa.Before;
  }

  lemma {:induction false} StmtStrict(f: Ir.Func, s: Build, node: Stmt)
    requires Whole(f) && Sound(s) && NamesOk(f, s) && FlatLoops(node) && Final(f, s, VisitStmt(s, node)) &&
      VisitStmt(s, node).ok
    ensures Strict(f, s, VisitStmt(s, node)) && NamesOk(f, VisitStmt(s, node))
    decreases node, 3
  {
    hide Whole, Sound, NamesOk, Final, Strict, VisitExpr, VisitStmts, VisitDecls, VisitBranches, VisitBody, Fit, Grown;
    match node
    case ExprStmt(e) =>
      if e.Some? { ExprStrict(f, s, e.value); FitParts(f, s, VisitExpr(s, e.value)); } else { StrictSame(f, s, s); }
    case Compound(decls, body) => CompoundStrict(f, s, node);
    case Selection(_, _, _) => SelectionStrict(f, s, node);
    case Iteration(_, _) => LoopStrict(f, s, node);
    case Return(e) => ReturnStrict(f, s, e);
  }

  lemma ReturnStrict(f: Ir.Func, s: Build, e: Option<Expr>)
    requires Whole(f) && Sound(s) && NamesOk(f, s) && Final(f, s, VisitStmt(s, Return(e))) && VisitStmt(s, Return(e)).ok
    ensures Strict(f, s, VisitStmt(s, Return(e))) && NamesOk(f, VisitStmt(s, Return(e)))
  {
    hide Whole, Sound, NamesOk, Final, Strict, VisitExpr, TypeConvert, Grown, ValueFit;
    var end := VisitStmt(s, Return(e));
    if e.None? {
      RetStrict(f, s, []);
    } else {
      var s1 := VisitExpr(s, e.value);
      var s2 := TypeConvert(s1, s.ret);
      ExprGrown(s, e.value); GrownFacts(s, s1);
      TypeConvertGrown(s1, s.ret); GrownFacts(s1, s2);
      GrownEmit(s2, Ir.Ret, [s2.value.op]); GrownFacts(s2, end);
      GrownTrans(s, s1, s2);
      FinalSplit(f, s, s2, end); FinalSplit(f, s, s1, s2);
      ExprStrict(f, s, e.value);
      ConvertStrict(f, s1, s.ret);
      ValueUsable(f, s2, s2.value);
      RetStrict(f, s2, [s2.value.op]);
      StrictTrans(f, s, s1, s2); StrictTrans(f, s, s2, end);
    }
  }

  lemma ValueUsable(f: Ir.Func, s: Build, v: Value)
    requires ValueFit(f, s, v)
    ensures Usable(f, s, v.op)
  {
  }

  lemma RetStrict(f: Ir.Func, s: Build, args: seq<Operand>)
    requires Whole(f) && Sound(s) && NamesOk(f, s) && Final(f, s, Emit(s, Ir.Ret, args)) &&
      forall k :: 0 <= k < |args| ==> Usable(f, s, args[k])
    ensures Strict(f, s, Emit(s, Ir.Ret, args)) && NamesOk(f, Emit(s, Ir.Ret, args))
  {
    hide Whole, Sound, NamesOk, Final, Usable, Grown, NewGood;
    GrownEmit(s, Ir.Ret, args); GrownSound(s, Emit(s, Ir.Ret, args));
    EmittedGood(f, s, Ir.Ret, args);
    EmitScope(s, Ir.Ret, args);
    NamesGrown(f, s, Emit(s, Ir.Ret, args));
  }

  lemma EnterNames(f: Ir.Func, s: Build)
    requires NamesOk(f, s)
    ensures NamesOk(f, Enter(s))
  {
    hide Ssa.Before;
    var s1 := Enter(s);
    forall i, id | 0 <= i < |s1.scope| && id in s1.scope[i] ensures Named(f, s1, s1.scope[i][id]) {
      assert id in s.scope[i];
      assert Named(f, s, s.scope[i][id]);
    }
  }

  lemma {:induction false} CompoundStrict(f: Ir.Func, s: Build, node: Stmt)
    requires node.Compound? && Whole(f) && Sound(s) && NamesOk(f, s) && FlatLoops(node) &&
      Final(f, s, VisitStmt(s, node)) && VisitStmt(s, node).ok
    ensures Strict(f, s, VisitStmt(s, node)) && NamesOk(f, VisitStmt(s, node))
    decreases node, 2
  {
    hide Whole, Sound, NamesOk, Final, Strict, VisitStmts, VisitDecls, Grown;
    var s1 := Enter(s);
    var s2 := VisitDecls(s1, node.decls);
    var s3 := VisitStmts(s2, node.body);
    var s4 := VisitStmt(s, node);
    GrownSame(s, s1); GrownFacts(s, s1);
    DeclsGrown(s1, node.decls); GrownFacts(s1, s2);
    StmtsGrown(s2, node.body); GrownFacts(s2, s3);
    GrownSame(s3, s4); GrownFacts(s3, s4);
    GrownTrans(s, s1, s2); GrownTrans(s, s2, s3); GrownTrans(s, s3, s4);
    FinalSplit(f, s, s3, s4); FinalSplit(f, s, s2, s3); FinalSplit(f, s, s1, s2);
    StrictSame(f, s, s1);
    EnterNames(f, s);
    DeclsStrict(f, s1, node.decls);
    StmtsStrict(f, s2, node.body);
    StrictSame(f, s3, s4);
    StrictTrans(f, s, s1, s2); StrictTrans(f, s, s2, s3); StrictTrans(f, s, s3, s4);
    StmtScope(s, node);
    ScopeIs(s, s4);
    NamesGrown(f, s, s4);
  }

  lemma ScopeIs(s: Build, s1: Build)
    requires SameScope(s, s1)
    ensures s1.scope == s.scope
  {
  }

  lemma {:induction false} StmtsStrict(f: Ir.Func, s: Build, nodes: seq<Stmt>)
    requires Whole(f) && Sound(s) && NamesOk(f, s) &&
      (forall i :: 0 <= i < |nodes| ==> FlatLoops(nodes[i])) && Final(f, s, VisitStmts(s, nodes)) &&
        VisitStmts(s, nodes).ok
    ensures Strict(f, s, VisitStmts(s, nodes))
    decreases nodes, 0
  {
    hide Whole, Sound, NamesOk, Final, Strict, VisitStmt, Grown;
    if nodes == [] {
      StrictSame(f, s, s);
    } else {
      var s1 := VisitStmt(s, nodes[0]);
      var s2 := VisitStmts(s1, nodes[1..]);
      StmtGrown(s, nodes[0]); GrownFacts(s, s1);
      StmtsGrown(s1, nodes[1..]); GrownFacts(s1, s2);
      FinalSplit(f, s, s1, s2);
      StmtStrict(f, s, nodes[0]);
      StmtsStrict(f, s1, nodes[1..]);
      StrictTrans(f, s, s1, s2);
    }
  }

  lemma {:induction false} SelectionStrict(f: Ir.Func, s: Build, node: Stmt)
    requires node.Selection? && Whole(f) && Sound(s) && NamesOk(f, s) && FlatLoops(node) &&
      Final(f, s, VisitStmt(s, node)) && VisitStmt(s, node).ok
    ensures Strict(f, s, VisitStmt(s, node)) && NamesOk(f, VisitStmt(s, node))
    decreases node, 2
  {
    hide Whole, Sound, NamesOk, Final, Strict, VisitExpr, CompareWith0, VisitBranches, Grown, Usable;
    var e := VisitExpr(s, node.cond);
    var c := CompareWith0(e);
    var s2 := c.(value := e.value);
    var end := VisitBranches(s2, c.value.op, node);
    ExprGrown(s, node.cond); GrownFacts(s, e);
    CompareGrown(e); GrownFacts(e, c);
    GrownSame(c, s2); GrownFacts(c, s2);
    BranchesGrown(s2, c.value.op, node); GrownFacts(s2, end);
    GrownTrans(s, e, c); GrownTrans(s, c, s2);
    FinalSplit(f, s, s2, end); FinalSplit(f, s, c, s2); FinalSplit(f, s, e, c);
    ExprStrict(f, s, node.cond);
    CompareStrict(f, e);
    StrictMore(f, e, c, s2);
    if node.elseS.None? { OneArmStrict(f, s2, c.value.op, node); } else { TwoArmsStrict(f, s2, c.value.op, node); }
    StrictTrans(f, s, e, s2); StrictTrans(f, s, s2, end);
  }

  // ---- Two arms ----

  lemma {:induction false} ForkPreds(s: Build, c: Operand, n3: Build, a: Build, t: Block, next: Block, e: Block)
    requires Sound(s) && t == s.nextBlock && next == s.nextBlock + 1 && e == s.nextBlock + 2
    requires n3 == NewBlock(NewBlock(NewBlock(s))) && a == At(CondBr(n3, c, t, e), t)
    ensures s.cur in a.Pred(t) && s.cur in a.Pred(e) && a.g.blocks == s.g.blocks + [t, next, e]
    ensures t in a.g.blocks && next in a.g.blocks && e in a.g.blocks
  {
    hide Sound, CondBr, NewBlock;
    ThreeLists(s, c, n3, CondBr(n3, c, t, e), t, next, e);
    BranchPreds(n3, c, t, e);
    AtPreds(CondBr(n3, c, t, e), t);
    assert t in a.g.blocks && next in a.g.blocks && e in a.g.blocks;
  }

  lemma {:induction false} TwoArmsPreds(s: Build, c: Operand, n3: Build, a: Build, b: Build, a2: Build, b2: Build,
      end: Build, t: Block, next: Block, e: Block)
    requires Sound(s) && t == s.nextBlock && next == s.nextBlock + 1 && e == s.nextBlock + 2 && Grown(a, b) &&
      Grown(a2, b2)
    requires n3 == NewBlock(NewBlock(NewBlock(s))) && a == At(CondBr(n3, c, t, e), t) && a2 == At(Br(b, next), e) &&
      end == At(Br(b2, next), next)
    ensures s.cur in end.Pred(t) && s.cur in end.Pred(e) && b.cur in end.Pred(next) && b2.cur in end.Pred(next)
    ensures PredsKept(b, end, {next}) && PredsKept(b2, end, {next}) && b.g.entry == end.g.entry &&
      b2.g.entry == end.g.entry
    ensures a.g.blocks == s.g.blocks + [t, next, e] && a2.g.blocks == b.g.blocks && end.g.blocks == b2.g.blocks
  {
    hide Sound, Grown, CondBr, NewBlock, Br;
    ForkPreds(s, c, n3, a, t, next, e);
    GrownPreds(a, b);
    BrPreds(b, next); JumpPreds(b, next); BrKept(b, next);
    GrownPreds(a2, b2);
    BrPreds(b2, next); JumpPreds(b2, next); BrKept(b2, next);
    AtPreds(Br(b, next), e); AtPreds(Br(b2, next), next);
  }

  lemma {:induction false} TwoArmsGood(f: Ir.Func, s: Build, a: Build, b: Build, a2: Build, b2: Build, end: Build,
      t: Block, next: Block, e: Block)
    requires Grown(s, end) && Kept(b, end, {b.cur, e, b2.cur}) && Kept(b2, end, {b2.cur}) &&
      end.g.blocks == b2.g.blocks && a2.g.blocks == b.g.blocks
    requires a.g.blocks == s.g.blocks + [t, next, e] && a.List(t) == [] && a2.List(e) == [] && end.List(next) == []
    requires NewGood(f, a, b) && NewGood(f, a2, b2) && (b2.cur == e || b2.cur !in a2.g.blocks)
    requires |end.List(s.cur)| == |s.List(s.cur)| + 1 && Good(f, s.cur, |s.List(s.cur)|)
    requires |end.List(b.cur)| == |b.List(b.cur)| + 1 && Good(f, b.cur, |b.List(b.cur)|)
    requires |end.List(b2.cur)| == |b2.List(b2.cur)| + 1 && Good(f, b2.cur, |b2.List(b2.cur)|)
    ensures NewGood(f, s, end)
  {
    hide Grown, Good;
    GrownKept(s, end);
    forall x, i: nat | x in end.g.blocks && i < |end.List(x)| && (x !in s.g.blocks || i >= |s.List(x)|)
      ensures Good(f, x, i) {
      if x in s.g.blocks {
        assert x == s.cur && i == |s.List(x)|;
      } else if (x == b2.cur && i == |b2.List(x)|) || (x == b.cur && i == |b.List(x)|) {
      } else if x !in a2.g.blocks || x == e {
        assert x in b2.g.blocks && i < |b2.List(x)|;
      } else {
        assert x in b.g.blocks && i < |b.List(x)|;
      }
    }
  }

  lemma TwoArmsHome(a2: Build, b: Build, b2: Build, end: Build, next: Block, e: Block)
    requires Sound(b) && Sound(b2) && Grown(a2, b2) && a2 == At(Br(b, next), e) && end == At(Br(b2, next), next)
    ensures HomeIn(b.home, end.home) && HomeIn(b2.home, end.home)
  {
    hide Sound, Grown, HomeIn, Br;
    BrHome(b, next); BrHome(b2, next);
    AtHome(Br(b, next), e); AtHome(Br(b2, next), next);
    GrownHome(a2, b2);
    HomeInTrans(b.home, a2.home, b2.home);
    HomeInTrans(b.home, b2.home, end.home);
  }

  lemma TwoArmsCodes(a2: Build, b: Build, b2: Build, end: Build, next: Block, e: Block)
    requires Sound(b) && Sound(b2) && Grown(a2, b2) && a2 == At(Br(b, next), e) && end == At(Br(b2, next), next)
    ensures CodeIn(b.code, end.code) && CodeIn(b2.code, end.code)
  {
    hide Sound, Grown, CodeIn, Br;
    BrCode(b, next); BrCode(b2, next);
    AtIs(Br(b, next), e); AtIs(Br(b2, next), next);
    GrownHome(a2, b2);
    CodeInTrans(b.code, a2.code, b2.code);
    CodeInTrans(b.code, b2.code, end.code);
  }

  lemma {:induction false} TwoArmsStrict(f: Ir.Func, s: Build, c: Operand, node: Stmt)
    requires Whole(f) && Sound(s) && NamesOk(f, s) && Usable(f, s, c) && node.Selection? && node.elseS.Some? &&
      FlatLoops(node.thenS) && FlatLoops(node.elseS.value)
    requires Final(f, s, VisitBranches(s, c, node)) && VisitBranches(s, c, node).ok
    ensures Strict(f, s, VisitBranches(s, c, node)) && NamesOk(f, VisitBranches(s, c, node))
    decreases node, 0
  {
    hide *;
    var t, next, e := s.nextBlock, s.nextBlock + 1, s.nextBlock + 2;
    var n3 := NewBlock(NewBlock(NewBlock(s)));
    var fk := CondBr(n3, c, t, e);
    var a := At(fk, t);
    var b := VisitStmt(a, node.thenS);
    var a2 := At(Br(b, next), e);
    var b2 := VisitStmt(a2, node.elseS.value);
    var end := At(Br(b2, next), next);
    AtIs(fk, t); AtIs(Br(b, next), e); AtIs(Br(b2, next), next);
    TwoArmsShape(s, c, node, n3, a, b, a2, b2, end, t, next, e);
    TwoArmsCode(s, c, n3, a, b, a2, b2, end, t, next, e);
    TwoArmsLists(s, c, n3, a, b, a2, b2, end, t, next, e);
    TwoArmsPreds(s, c, n3, a, b, a2, b2, end, t, next, e);
    TwoArmsHome(a2, b, b2, end, next, e);
    TwoArmsCodes(a2, b, b2, end, next, e);
    ArmFinal(f, s, a, b, end, {b.cur, e, b2.cur}, {next});
    ArmFinal(f, s, a2, b2, end, {b2.cur}, {next});
    ThreeLists(s, c, n3, fk, t, next, e);
    TwoScopes(s, c, node, fk, a, b, Br(b, next), a2, end, t, next, e);
    ArmNames(f, s, end, a);
    ArmNames(f, s, end, a2);
    StmtStrict(f, a, node.thenS);
    StmtStrict(f, a2, node.elseS.value);
    StrictParts(f, a, b); StrictParts(f, a2, b2);
    UsableSame(f, s, n3, c);
    ForkEnds(f, s, end, n3, c, t, e);
    CurOutside(s, a, b, t); CurOutside(s, a2, b2, e);
    ArmEnds(f, s, end, b, next);
    ArmEnds(f, s, end, b2, next);
    TwoArmsGood(f, s, a, b, a2, b2, end, t, next, e);
    StrictNames(f, s, end);
  }

  // ---- Loops ----

  // A block with one predecessor is dominated by it.
  lemma SinglePred(g: Graph, w: Block, b: Block)
    requires g.Valid() && b in g.pred && g.pred[b] == [w] && w != b && b != g.entry
    ensures g.StrictlyDominates(w, b)
  {
    forall p | g.PathTo(p, b) ensures w in p {
      PathStep(g, p, |p| - 2);
    }
  }

  lemma LoopPreds(s: Build, node: Stmt)
    requires Sound(s) && node.Iteration? && LoopTest(s, node).0.cur == s.nextBlock
    ensures var w, t, a, v, fin :=
      s.nextBlock, LoopTest(s, node).0, LoopBody(s, node), LoopBack(s, node), VisitStmt(s, node);
            && fin.Pred(a.cur) == [w] && w in fin.Pred(fin.cur) && v.cur in fin.Pred(w) && s.cur in fin.Pred(w)
            && PredsKept(t, fin, {w}) && PredsKept(v, fin, {w, a.cur, fin.cur})
            && LoopHead(s).g.blocks == s.g.blocks + [w] && a.g.blocks == t.g.blocks + [a.cur] &&
                 fin.g.blocks == v.g.blocks + [fin.cur]
            && t.g.entry == fin.g.entry && v.g.entry == fin.g.entry
  {
    hide VisitExpr, CompareWith0, Grown, Sound, VisitStmt, NewBlock, Br, CondBr, LoopTest;
    var w := s.nextBlock;
    var t, a, v, h := LoopTest(s, node).0, LoopBody(s, node), LoopBack(s, node), LoopFork(s, node);
    var j, fin := Br(v, w), VisitStmt(s, node);
    LoopShape(s, node);
    LoopIs(s, node);
    LoopLists(s, node);
    HeadPreds(s);
    GrownPreds(LoopHead(s), t);
    NewPreds(t); NewBlockLists(t);
    GrownPreds(a, v);
    AtPreds(NewBlock(t), t.nextBlock);
    assert w in LoopHead(s).g.blocks && w in t.g.blocks && w in a.g.blocks && a.cur in a.g.blocks;
    TailPreds(v, w, h, LoopTest(s, node).1, a.cur, fin);
    KeptThrough(t, a, v, fin, w, a.cur, fin.cur);
  }

  lemma {:induction false} KeptThrough(t: Build, a: Build, v: Build, fin: Build, w: Block, b: Block, end: Block)
    requires (forall x :: x in t.g.blocks ==> x in a.g.blocks && a.Pred(x) == t.Pred(x)) && PredsKept(a, v, {}) &&
      PredsKept(v, fin, {w, b, end})
    requires b !in t.g.blocks && end !in v.g.blocks
    ensures PredsKept(t, fin, {w})
  {
  }

  lemma HeadPreds(s: Build)
    requires Sound(s)
    ensures LoopHead(s).Pred(s.nextBlock) == [s.cur] && LoopHead(s).g.blocks == s.g.blocks + [s.nextBlock] &&
      LoopHead(s).cur == s.nextBlock
  {
    hide Graph.Valid, SuccsDistinct, Arranged;
  }

  lemma NewPreds(s: Build)
    requires Sound(s)
    ensures NewBlock(s).Pred(s.nextBlock) == [] &&
      (forall x :: x in s.g.blocks ==> NewBlock(s).Pred(x) == s.Pred(x)) && NewBlock(s).g.entry == s.g.entry
  {
    hide Graph.Valid, SuccsDistinct, Arranged, MoreEdges;
    NewBlockSound(s);
  }

  lemma TailPreds(v: Build, w: Block, h: Build, c: Operand, b: Block, fin: Build)
    requires Sound(v) && w in v.g.blocks && b in v.g.blocks && w != b && h == At(NewBlock(Br(v, w)), w)
    requires var end := Br(v, w).nextBlock; fin == At(CondBr(h, c, b, end), end)
    ensures fin.Pred(b) == v.Pred(b) + [w] && fin.Pred(fin.cur) == [w] && fin.Pred(w) == v.Pred(w) + [v.cur] &&
      PredsKept(v, fin, {w, b, fin.cur})
    ensures fin.g.blocks == v.g.blocks + [fin.cur] && fin.g.entry == v.g.entry
  {
    hide Graph.Valid, SuccsDistinct, Arranged;
    NewNotOld(v, v.nextBlock, v.nextBlock);
  }

  lemma {:induction false} LoopGood(f: Ir.Func, s: Build, node: Stmt)
    requires Sound(s) && node.Iteration? && LoopTest(s, node).0.cur == s.nextBlock
    requires var w, t, a, v, fin :=
      s.nextBlock, LoopTest(s, node).0, LoopBody(s, node), LoopBack(s, node), VisitStmt(s, node);
             && NewGood(f, LoopHead(s), t) && NewGood(f, a, v)
             && Good(f, s.cur, |s.List(s.cur)|) && Good(f, w, |t.List(w)|) && Good(f, v.cur, |v.List(v.cur)|)
    ensures NewGood(f, s, VisitStmt(s, node))
  {
    hide *;
    var w, t, a, v, fin := s.nextBlock, LoopTest(s, node).0, LoopBody(s, node), LoopBack(s, node), VisitStmt(s, node);
    LoopShape(s, node);
    LoopLists(s, node);
    LoopPreds(s, node);
    LoopKept(s, node);
    GrownKept(s, fin);
    LoopParts(f, s, LoopHead(s), t, a, v, fin, w);
  }

  lemma LoopKept(s: Build, node: Stmt)
    requires Sound(s) && node.Iteration? && LoopTest(s, node).0.cur == s.nextBlock
    ensures Kept(LoopTest(s, node).0, VisitStmt(s, node), {s.nextBlock})
    ensures LoopBack(s, node).cur == LoopBody(s, node).cur || LoopBack(s, node).cur !in LoopBody(s, node).g.blocks
    ensures VisitStmt(s, node).cur !in LoopTest(s, node).0.g.blocks
  {
    hide VisitExpr, CompareWith0, Grown, Sound, VisitStmt, NewBlock, Br, CondBr, Kept, LoopTest;
    var w := s.nextBlock;
    var t, a, v := LoopTest(s, node).0, LoopBody(s, node), LoopBack(s, node);
    LoopShape(s, node);
    LoopLists(s, node);
    NewBlockLists(t);
    KeptAt(t, NewBlock(t), a, {});
    GrownKept(a, v);
    KeptTrans(t, a, v, {}, {a.cur});
    KeptTrans(t, v, VisitStmt(s, node), {} + {a.cur}, {v.cur, w});
    KeptBlocks(t, NewBlock(t), {}); KeptBlocks(a, v, {a.cur});
    KeptLess(t, VisitStmt(s, node), {} + {a.cur} + {v.cur, w}, {w}, a, v);
  }

  lemma KeptBlocks(s: Build, s1: Build, m: set<Block>)
    requires Kept(s, s1, m)
    ensures forall x :: x in s.g.blocks ==> x in s1.g.blocks
  {
  }

  lemma KeptLess(t: Build, fin: Build, m: set<Block>, m1: set<Block>, a: Build, v: Build)
    requires Kept(t, fin, m) && forall x :: x in m && x in t.g.blocks ==> x in m1
    ensures Kept(t, fin, m1)
  {
  }

  lemma {:induction false} LoopParts(f: Ir.Func, s: Build, head: Build, t: Build, a: Build, v: Build, fin: Build,
      w: Block)
    requires Kept(s, fin, {s.cur}) && Kept(t, fin, {w}) && Kept(v, fin, {v.cur, w})
    requires head.g.blocks == s.g.blocks + [w] && a.g.blocks == t.g.blocks + [a.cur] &&
      fin.g.blocks == v.g.blocks + [fin.cur] && w !in s.g.blocks
    requires head.List(w) == [] && a.List(a.cur) == [] && fin.List(fin.cur) == [] &&
      (v.cur == a.cur || v.cur !in a.g.blocks)
    requires |fin.List(s.cur)| == |s.List(s.cur)| + 1 && |fin.List(w)| == |t.List(w)| + 1 &&
      |fin.List(v.cur)| == |v.List(v.cur)| + 1 && w in t.g.blocks
    requires NewGood(f, head, t) && NewGood(f, a, v) && Good(f, s.cur, |s.List(s.cur)|) && Good(f, w, |t.List(w)|) &&
      Good(f, v.cur, |v.List(v.cur)|)
    ensures NewGood(f, s, fin)
  {
    hide Good;
    forall x, i: nat | x in fin.g.blocks && i < |fin.List(x)| && (x !in s.g.blocks || i >= |s.List(x)|)
      ensures Good(f, x, i) {
      if x !in s.g.blocks && !(x == w && i == |t.List(w)|) && !(x == v.cur && i == |v.List(v.cur)|) {
        if x in t.g.blocks {
          assert x !in head.g.blocks || x == w;
        } else {
          assert x in v.g.blocks;
        }
      }
    }
  }

  lemma {:induction false} LoopStrict(f: Ir.Func, s: Build, node: Stmt)
    requires node.Iteration? && Whole(f) && Sound(s) && NamesOk(f, s) && FlatLoops(node) &&
      Final(f, s, VisitStmt(s, node)) && VisitStmt(s, node).ok
    ensures Strict(f, s, VisitStmt(s, node)) && NamesOk(f, VisitStmt(s, node))
    decreases node, 2
  {
    hide *;
    var w, fin, t, c := s.nextBlock, VisitStmt(s, node), LoopTest(s, node).0, LoopTest(s, node).1;
    var a, v, h := LoopBody(s, node), LoopBack(s, node), LoopFork(s, node);
    LoopShape(s, node);
    LoopLists(s, node);
    LoopCode(s, node);
    LoopFlat(s, node);
    LoopPreds(s, node);
    LoopKept(s, node);
    LoopHomes(s, node);
    LoopIs(s, node);
    ForkIs(s, node);
    BackIs(s, node);
    FlatParts(node);
    HeadPreds(s);
    TestScope(s, node);
    ArmFinal(f, s, LoopHead(s), t, fin, {w}, {w});
    ArmNames(f, s, fin, LoopHead(s));
    TestStrict(f, s, node);
    BodyNames(f, s, node);
    ArmFinal(f, s, a, v, fin, {v.cur, w}, {w, a.cur, fin.cur});
    StmtStrict(f, a, node.s);
    StrictParts(f, a, v); StrictParts(f, LoopHead(s), t);
    UsableSame(f, t, h, c);
    CodeInSelf(fin.code);
    ForkEnds(f, s, fin, h, c, a.cur, fin.cur);
    ArmEnds(f, s, fin, v, w);
    NewBlockLists(s);
    KeptLists(s, NewBlock(s), {});
    NewBlockCode(s);
    ArmEnds(f, s, fin, NewBlock(s), w);
    LoopGood(f, s, node);
    StrictNames(f, s, fin);
  }

  lemma FlatParts(node: Stmt)
    requires node.Iteration? && FlatLoops(node)
    ensures !HasIndex(node.cond) && FlatLoops(node.s)
  {
  }

  lemma LoopFlat(s: Build, node: Stmt)
    requires node.Iteration? && FlatLoops(node)
    ensures LoopTest(s, node).0.cur == s.nextBlock
  {
    hide VisitExpr, Br, NewBlock;
    ExprFlat(LoopHead(s), node.cond);
  }

  lemma LoopHomes(s: Build, node: Stmt)
    requires Sound(s) && node.Iteration?
    ensures HomeIn(LoopTest(s, node).0.home, VisitStmt(s, node).home) &&
      HomeIn(LoopBack(s, node).home, VisitStmt(s, node).home)
    ensures CodeIn(LoopBack(s, node).code, VisitStmt(s, node).code)
  {
    hide VisitExpr, CompareWith0, Grown, Sound, VisitStmt, NewBlock, Br, CondBr, HomeIn, CodeIn, LoopTest;
    var w := s.nextBlock;
    var t, a, v, h := LoopTest(s, node).0, LoopBody(s, node), LoopBack(s, node), LoopFork(s, node);
    LoopShape(s, node);
    LoopIs(s, node);
    NewBlockHome(t);
    GrownHome(a, v);
    TailHome(v, w, h, LoopTest(s, node).1, t.nextBlock, VisitStmt(s, node));
    HomeInTrans(t.home, v.home, VisitStmt(s, node).home);
  }

  lemma NewBlockHome(s: Build)
    ensures NewBlock(s).home == s.home && HomeIn(s.home, s.home)
  {
  }

  lemma EmittedHome(s: Build, s1: Build)
    requires s1.home == s.home[s.nextId := s.cur] && s.nextId !in s.home && s.nextId in s1.code
    requires s.nextId !in s.code && s1.code == s.code[s.nextId := s1.code[s.nextId]]
    ensures HomeIn(s.home, s1.home) && CodeIn(s.code, s1.code)
  {
  }

  lemma BranchHome(s: Build, b: Block, c: Operand, e: Block)
    ensures Br(s, b).home == s.home[s.nextId := s.cur] && s.nextId in Br(s, b).code && Br(s, b).nextId == s.nextId + 1
    ensures Br(s, b).code == s.code[s.nextId := Br(s, b).code[s.nextId]]
    ensures CondBr(s, c, b, e).home == s.home[s.nextId := s.cur] && s.nextId in CondBr(s, c, b, e).code
    ensures CondBr(s, c, b, e).code == s.code[s.nextId := CondBr(s, c, b, e).code[s.nextId]]
    ensures NewBlock(s).home == s.home && NewBlock(s).code == s.code && NewBlock(s).nextId == s.nextId
  {
  }

  lemma TailHome(v: Build, w: Block, h: Build, c: Operand, b: Block, fin: Build)
    requires Sound(v) && h == At(NewBlock(Br(v, w)), w)
    requires var end := Br(v, w).nextBlock; fin == At(CondBr(h, c, b, end), end)
    ensures HomeIn(v.home, fin.home) && CodeIn(v.code, fin.code)
  {
    hide Sound, Br, CondBr, NewBlock, HomeIn;
    SoundFacts(v);
    BranchHome(v, w, c, w);
    EmittedHome(v, Br(v, w));
    BranchHome(Br(v, w), w, c, w);
    BranchHome(h, b, c, Br(v, w).nextBlock);
    EmittedHome(h, fin);
    HomeInTrans(v.home, Br(v, w).home, fin.home);
  }

  // The condition of a loop.
  lemma {:induction false} TestStrict(f: Ir.Func, s: Build, node: Stmt)
    requires node.Iteration? && Whole(f) && Sound(LoopHead(s)) && NamesOk(f, LoopHead(s)) &&
      Final(f, LoopHead(s), LoopTest(s, node).0) && LoopTest(s, node).0.ok
    ensures var (t, c) := LoopTest(s, node); Strict(f, LoopHead(s), t) && NamesOk(f, t) && Usable(f, t, c)
    decreases node, 0
  {
    hide Whole, Sound, NamesOk, Final, Strict, VisitExpr, CompareWith0, LoopHead, Grown, Usable, Fit;
    var s1 := LoopHead(s);
    var e := VisitExpr(s1, node.cond);
    var c := CompareWith0(e);
    var t := c.(value := e.value);
    ExprGrown(s1, node.cond); GrownFacts(s1, e);
    CompareGrown(e); GrownFacts(e, c);
    GrownSame(c, t); GrownFacts(c, t);
    GrownTrans(s1, e, c);
    FinalSplit(f, s1, c, t); FinalSplit(f, s1, e, c);
    ExprStrict(f, s1, node.cond);
    FitParts(f, s1, e);
    CompareStrict(f, e);
    StrictMore(f, e, c, t);
    StrictTrans(f, s1, e, t);
  }

  lemma {:induction false} BodyNames(f: Ir.Func, s: Build, node: Stmt)
    requires node.Iteration? && Whole(f) && Sound(s) && Final(f, s, VisitStmt(s, node)) &&
      NamesOk(f, LoopTest(s, node).0) && LoopTest(s, node).0.cur == s.nextBlock
    ensures NamesOk(f, LoopBody(s, node))
  {
    hide Whole, Sound, NamesOk, VisitStmt, LoopTest, Kept, Graph.StrictlyDominates, Graph.Reachable, PredsKept,
      LoopBack, Fits;
    var t, a, fin := LoopTest(s, node).0, LoopBody(s, node), VisitStmt(s, node);
    BodyEndsNew(s, node);
    LoopPreds(s, node);
    FinalBlock(f, s, fin, a.cur);
    WholeValid(f);
    SinglePred(f.g, s.nextBlock, a.cur);
    TestScope(s, node);
    NamesBelow(f, t, a);
  }

  lemma WholeValid(f: Ir.Func)
    requires Whole(f)
    ensures f.g.Valid()
  {
    hide Arranged, Graph.Reachable;
  }

  lemma BodyEndsNew(s: Build, node: Stmt)
    requires Sound(s) && node.Iteration?
    ensures var fin := VisitStmt(s, node);
      LoopBody(s, node).cur in fin.g.blocks && LoopBody(s, node).cur !in s.g.blocks &&
        s.nextBlock != LoopBody(s, node).cur
  {
    hide *;
    LoopLists(s, node);
  }
}
