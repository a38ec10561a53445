/** What the builder makes is fit for promotion: every operand is defined at a point that
    dominates its use, cells are used as addresses only, branches end their blocks. */
module BuilderStrict {
  import opened Wrappers
  import opened Cfg
  import Ir
  import Ssa
  import PhiPlacement
  import opened Ast
  import opened Lowering
  import opened BuilderShape
  import opened Runs
  import Cells
  import opened BuilderMeaning
  import opened StatementMeaning

  // ---- Dominance by paths ----

  // Two different reachable blocks do not dominate each other.
  lemma {:induction false} NotBothWays(g: Graph, p: seq<Block>, a: Block, c: Block)
    requires g.PathTo(p, a) && g.Dominates(a, c) && g.Dominates(c, a)
    ensures a == c
    decreases |p|
  {
    assert c in p;
    var i :| 0 <= i < |p| && p[i] == c;
    var q := p[..i + 1];
    PathCut(g, p, i + 1);
    assert g.PathTo(q, c);
    var j :| 0 <= j < |q| && q[j] == a;
    if a != c {
      var q1 := q[..j + 1];
      PathCut(g, q, j + 1);
      NotBothWays(g, q1, a, c);
    }
  }

  lemma SdomTrans(g: Graph, a: Block, c: Block, b: Block)
    requires g.StrictlyDominates(a, c) && g.StrictlyDominates(c, b) && g.Reachable(b)
    ensures g.StrictlyDominates(a, b)
  {
    forall p | g.PathTo(p, b) ensures a in p {
      var i :| 0 <= i < |p| && p[i] == c;
      PathCut(g, p, i + 1);
      assert a in p[..i + 1];
    }
    var p :| g.PathTo(p, b);
    if a == b { NotBothWays(g, p, b, c); }
  }

  // What control enters from x only is strictly dominated by x.
  lemma {:induction false} EnteredFrom(g: Graph, region: set<Block>, x: Block, p: seq<Block>)
    requires g.Valid() && g.entry !in region && g.Path(p) && p[|p| - 1] in region
    requires forall b, q :: b in region && b in g.pred && q in g.pred[b] ==> q in region || q == x
    ensures x in p
    decreases |p|
  {
    var q := p[|p| - 2];
    PathStep(g, p, |p| - 2);
    PathCut(g, p, |p| - 1);
    if q != x { EnteredFrom(g, region, x, p[..|p| - 1]); }
  }

  // ---- The finished function around a visit ----

  // The predecessors of the blocks added from s to s1 are final.
  ghost predicate PredsFit(s: Build, s1: Build, g: Graph) {
    forall b {:trigger b in s1.g.blocks} :: b in s1.g.blocks && b !in s.g.blocks ==>
      b in g.pred && g.pred[b] == s1.Pred(b)
  }

  ghost predicate HomeIn(home: map<Ir.Id, Block>, all: map<Ir.Id, Block>) {
    forall x {:trigger x in home} :: x in home ==> x in all && all[x] == home[x]
  }

  // The finished function.
  ghost predicate Whole(f: Ir.Func) {
    f.g.WellFormed() && Arranged(f.code, f.lists, f.home)
  }

  // What the visit from s to s1 has made stands in the finished function.
  ghost predicate Final(f: Ir.Func, s: Build, s1: Build) {
    && Fits(s, s1, f.lists) && PredsFit(s, s1, f.g) && CodeIn(s1.code, f.code) && HomeIn(s1.home, f.home)
    && s1.g.entry == f.g.entry && f.g.entry in s.g.blocks
  }

  lemma GrownHome(s: Build, s1: Build)
    requires Grown(s, s1)
    ensures HomeIn(s.home, s1.home) && s1.g.entry == s.g.entry && CodeIn(s.code, s1.code)
    ensures (forall b :: b in s.g.blocks ==> b in s1.g.blocks && s1.Pred(b) == s.Pred(b))
  {
    hide NewFrom, From, Sound;
  }

  lemma HomeInTrans(a: map<Ir.Id, Block>, b: map<Ir.Id, Block>, c: map<Ir.Id, Block>)
    requires HomeIn(a, b) && HomeIn(b, c)
    ensures HomeIn(a, c)
  {
  }

  lemma FinalSplit(f: Ir.Func, s: Build, s1: Build, s2: Build)
    requires Grown(s, s1) && Grown(s1, s2) && Final(f, s, s2)
    ensures Final(f, s, s1) && Final(f, s1, s2)
  {
    hide Grown, Fits, CodeIn, HomeIn;
    FitsFirst(s, s1, s2, f.lists);
    GrownHome(s, s1);
    GrownHome(s1, s2);
    CodeInTrans(s1.code, s2.code, f.code);
    HomeInTrans(s1.home, s2.home, f.home);
  }

  // ---- The current block dominates what grows out of it ----

  lemma RegionDominated(f: Ir.Func, s: Build, s1: Build, b: Block)
    requires Whole(f) && Grown(s, s1) && Final(f, s, s1) && Sound(s) && b in s1.g.blocks && b !in s.g.blocks
    ensures f.g.StrictlyDominates(s.cur, b)
  {
    hide From, NewFrom, Arranged, Graph.Reachable, CodeIn, HomeIn, Fits;
    var region := set c | c in s1.g.blocks && c !in s.g.blocks;
    forall c, q | c in region && c in f.g.pred && q in f.g.pred[c] ensures q in region || q == s.cur {
      RegionPred(s, s1, c, q);
    }
    forall p | f.g.PathTo(p, b) ensures s.cur in p { EnteredFrom(f.g, region, s.cur, p); }
  }

  // A predecessor of a new block is new or the block the visit started in.
  lemma RegionPred(s: Build, s1: Build, c: Block, q: Block)
    requires Sound(s) && Sound(s1) && Extends(s, s1, s.cur) && c in s1.g.blocks && c !in s.g.blocks && q in s1.Pred(c)
    ensures q in s1.g.blocks && (q !in s.g.blocks || q == s.cur)
  {
    hide Arranged, SuccsDistinct;
    assert s1.g.Edge(q, c) && c in s1.Succ(q);
    SuccInside(s, q);
  }

  lemma SuccInside(s: Build, q: Block)
    requires Sound(s)
    ensures forall c :: c in s.Succ(q) ==> c in s.g.blocks
  {
    hide Arranged, SuccsDistinct;
    forall c | c in s.Succ(q) ensures c in s.g.blocks { assert s.g.Edge(q, c); }
  }

  // ---- Availability ----

  // The value is defined at a point that dominates the end of the current block of s.
  ghost predicate Avail(f: Ir.Func, s: Build, a: Operand) {
    a.Res? ==> Ssa.Before(f, a.id, s.cur, |s.List(s.cur)|)
  }

  lemma AvailGrown(f: Ir.Func, s: Build, s1: Build, a: Operand)
    requires Whole(f) && Sound(s) && Grown(s, s1) && Final(f, s, s1) && Avail(f, s, a)
    ensures Avail(f, s1, a)
  {
    hide Sound, Final, Grown, Graph.StrictlyDominates;
    GrownKept(s, s1);
    if s1.cur != s.cur {
      RegionDominated(f, s, s1, s1.cur);
      FinalBlock(f, s, s1, s1.cur);
      AvailBelow(f, s, s1, a);
    }
  }

  lemma FinalBlock(f: Ir.Func, s: Build, s1: Build, b: Block)
    requires Whole(f) && Final(f, s, s1) && b in s1.g.blocks && b !in s.g.blocks
    ensures b in f.g.blocks && f.g.Reachable(b)
  {
    hide Arranged, Fits, CodeIn, HomeIn, Graph.Reachable;
    assert b in f.g.pred;
  }

  lemma AvailBelow(f: Ir.Func, s: Build, s1: Build, a: Operand)
    requires Avail(f, s, a) && f.g.StrictlyDominates(s.cur, s1.cur) && f.g.Reachable(s1.cur)
    ensures Avail(f, s1, a)
  {
    hide Graph.StrictlyDominates, Graph.Reachable;
    if a.Res? && f.g.StrictlyDominates(f.home[a.id], s.cur) { SdomTrans(f.g, f.home[a.id], s.cur, s1.cur); }
  }

  // ---- What may be used where ----

  predicate Plain(ty: Type) {
    ty.Int32? || ty.Float? || ty.Void?
  }

  // The types of variables.
  predicate CellTy(ty: Type) {
    Plain(ty) || (ty.Ptr? && Plain(ty.elem)) || (ty.Array? && Plain(ty.elem))
  }

  // An operand that is no address: a constant, an argument, a global, or a computed value.
  ghost predicate Usable(f: Ir.Func, s: Build, a: Operand) {
    && !a.Label? && Avail(f, s, a)
    && (a.Res? ==>
         a.id in f.code &&
           (var op := f.code[a.id].op; op.Load? || op.Gep? || op.Pure? || op.Effect? || op == Ir.Alloca(Ir.Aggregate)))
  }

  // An address to load from, of a variable of type ty or of an element.
  ghost predicate Address(f: Ir.Func, s: Build, a: Operand, ty: Type) {
    || a.Global?
    || (a.Res? && Avail(f, s, a) && a.id in f.code &&
         (f.code[a.id].op.Gep? || f.code[a.id].op == Ir.Alloca(CellType(ty))))
  }

  ghost predicate Named(f: Ir.Func, s: Build, v: Value) {
    || (v.ty.Func? && v.op.Global? && Plain(v.ty.ret))
    || (v.ty.Ptr? && CellTy(v.ty.elem) && Address(f, s, v.op, v.ty.elem) && (v.op.Res? ==> f.code[v.op.id].op.Alloca?))
  }

  ghost predicate NamesOk(f: Ir.Func, s: Build) {
    forall i, id {:trigger id in s.scope[i]} :: 0 <= i < |s.scope| && id in s.scope[i] ==> Named(f, s, s.scope[i][id])
  }

  // The last value.
  ghost predicate ValueFit(f: Ir.Func, s: Build, v: Value) {
    Usable(f, s, v.op) && (v.ty.Int1? || Plain(v.ty) || (v.ty.Ptr? && Plain(v.ty.elem)))
  }

  // ---- Instructions ----

  ghost predicate Good(f: Ir.Func, b: Block, i: nat) {
    && b in f.lists && i < |f.lists[b]| && f.lists[b][i] in f.code
    && Ssa.OperandsAvailable(f, b, i) && Ssa.Terminates(f, b, i) && PhiPlacement.AddressKind(f.code, f.lists[b][i])
  }

  // The instructions added from s to s1.
  ghost predicate NewGood(f: Ir.Func, s: Build, s1: Build) {
    forall b, i: nat {:trigger Good(f, b, i)} ::
      b in s1.g.blocks && i < |s1.List(b)| && (b !in s.g.blocks || i >= |s.List(b)|) ==> Good(f, b, i)
  }

  lemma NewGoodTrans(f: Ir.Func, s: Build, s1: Build, s2: Build)
    requires Grown(s, s1) && Grown(s1, s2) && NewGood(f, s, s1) && NewGood(f, s1, s2)
    ensures NewGood(f, s, s2)
  {
    hide Grown, Good;
    GrownKept(s, s1);
    GrownKept(s1, s2);
    forall b, i: nat | b in s2.g.blocks && i < |s2.List(b)| && (b !in s.g.blocks || i >= |s.List(b)|)
      ensures Good(f, b, i) {
      assert b in s.g.blocks ==> b in s1.g.blocks;
    }
  }

  lemma NewGoodSame(f: Ir.Func, s: Build, s1: Build)
    requires SameBlocks(s, s1)
    ensures NewGood(f, s, s1)
  {
  }

  // How an operand may stand at position k of an instruction.
  ghost predicate OperandFit(f: Ir.Func, s: Build, instr: Ir.Instr, k: nat)
    requires k < |instr.args|
  {
    || Usable(f, s, instr.args[k])
    || (instr.op.Load? && |instr.args| == 1 && k == 0 && exists ty: Type :: Address(f, s, instr.args[k], ty))
    || (instr.op.Store? && |instr.args| == 2 && k == 1 &&
         exists ty: Type :: !ty.Array? && Address(f, s, instr.args[k], ty))
  }

  lemma OperandStands(f: Ir.Func, s: Build, x: Ir.Id, k: nat)
    requires x in f.code && k < |f.code[x].args| && OperandFit(f, s, f.code[x], k)
    ensures Ssa.Available(f, f.code[x].args[k], s.cur, |s.List(s.cur)|) && Ssa.Plain(f, x, k)
  {
    hide Ssa.Before;
  }

  // Loads and stores have addresses where addresses belong.
  ghost predicate AddressesFit(f: Ir.Func, s: Build, instr: Ir.Instr) {
    && (instr.op.Load? ==> |instr.args| == 1 && exists ty: Type :: Address(f, s, instr.args[0], ty))
    && (instr.op.Store? ==> |instr.args| == 2 && exists ty: Type :: !ty.Array? && Address(f, s, instr.args[1], ty))
  }

  lemma AddressKindHolds(f: Ir.Func, s: Build, x: Ir.Id)
    requires x in f.code && AddressesFit(f, s, f.code[x])
    ensures PhiPlacement.AddressKind(f.code, x)
  {
    hide Ssa.Before;
  }

  // An instruction at the end of the current block.
  lemma EmittedGood(f: Ir.Func, s: Build, op: Opcode, args: seq<Operand>)
    requires Sound(s) && Sound(Emit(s, op, args)) && Final(f, s, Emit(s, op, args)) && !op.Br? && !op.CondBr?
    requires AddressesFit(f, s, Ir.Instr(op, args)) &&
      forall k :: 0 <= k < |args| ==> OperandFit(f, s, Ir.Instr(op, args), k)
    ensures NewGood(f, s, Emit(s, op, args))
  {
    hide Sound, Ssa.Available, Ssa.Plain, OperandFit, AddressesFit, Good, Arranged;
    var s1, n := Emit(s, op, args), |s.List(s.cur)|;
    EmitKept(s, op, args);
    EmitPlace(f, s, s1, n);
    CodeAtIn(s1.code, f.code, s.nextId);
    forall k | 0 <= k < |args| ensures Ssa.Available(f, args[k], s.cur, n) && Ssa.Plain(f, s.nextId, k) {
      OperandStands(f, s, s.nextId, k);
    }
    AddressKindHolds(f, s, s.nextId);
    GoodOne(f, s.cur, n, s.nextId);
    forall b, i: nat | b in s1.g.blocks && i < |s1.List(b)| && (b !in s.g.blocks || i >= |s.List(b)|)
      ensures Good(f, b, i) {
    }
  }

  lemma EmitPlace(f: Ir.Func, s: Build, s1: Build, n: nat)
    requires Sound(s) && Sound(s1) && Fits(s, s1, f.lists) && s1.cur == s.cur && n == |s.List(s.cur)| &&
      s1.List(s.cur) == s.List(s.cur) + [s.nextId]
    ensures s.cur in f.lists && n < |f.lists[s.cur]| && f.lists[s.cur][n] == s.nextId
  {
    hide Arranged, Graph.Valid, SuccsDistinct;
    assert s.cur in s1.g.blocks;
  }

  lemma GoodOne(f: Ir.Func, b: Block, i: nat, x: Ir.Id)
    requires b in f.lists && i < |f.lists[b]| && f.lists[b][i] == x && x in f.code && !f.code[x].op.Br? &&
      !f.code[x].op.CondBr?
    requires forall k :: 0 <= k < |f.code[x].args| ==> Ssa.Available(f, f.code[x].args[k], b, i) && Ssa.Plain(f, x, k)
    requires PhiPlacement.AddressKind(f.code, x)
    ensures Good(f, b, i)
  {
    hide Ssa.Available, Ssa.Plain, PhiPlacement.AddressKind;
  }

  // ---- Chains of visits ----

  // A visit whose instructions are good.
  ghost predicate Strict(f: Ir.Func, s: Build, s1: Build) {
    Grown(s, s1) && NewGood(f, s, s1)
  }

  lemma StrictTrans(f: Ir.Func, s: Build, s1: Build, s2: Build)
    requires Strict(f, s, s1) && Strict(f, s1, s2)
    ensures Strict(f, s, s2)
  {
    hide Grown, NewGood;
    GrownTrans(s, s1, s2);
    NewGoodTrans(f, s, s1, s2);
  }

  lemma StrictSame(f: Ir.Func, s: Build, s1: Build)
    requires Sound(s) && SameBlocks(s, s1) && s1.cur == s.cur
    ensures Strict(f, s, s1)
  {
    hide Grown, NewGood, Sound;
    GrownSame(s, s1);
    NewGoodSame(f, s, s1);
  }

  // What can be used stays usable, and names keep their addresses.
  lemma UsableGrown(f: Ir.Func, s: Build, s1: Build, a: Operand)
    requires Whole(f) && Sound(s) && Grown(s, s1) && Final(f, s, s1) && Usable(f, s, a)
    ensures Usable(f, s1, a)
  {
    hide Whole, Sound, Grown, Final, Avail;
    AvailGrown(f, s, s1, a);
  }

  lemma NamedGrown(f: Ir.Func, s: Build, s1: Build, v: Value)
    requires Whole(f) && Sound(s) && Grown(s, s1) && Final(f, s, s1) && Named(f, s, v)
    ensures Named(f, s1, v)
  {
    hide Whole, Sound, Grown, Final, Avail;
    if v.op.Res? && v.ty.Ptr? { AvailGrown(f, s, s1, v.op); }
  }

  lemma NamesGrown(f: Ir.Func, s: Build, s1: Build)
    requires Whole(f) && Sound(s) && Grown(s, s1) && Final(f, s, s1) && NamesOk(f, s) && s1.scope == s.scope
    ensures NamesOk(f, s1)
  {
    hide Whole, Sound, Grown, Final, Named;
    forall i, id | 0 <= i < |s1.scope| && id in s1.scope[i] ensures Named(f, s1, s1.scope[i][id]) {
      NamedGrown(f, s, s1, s.scope[i][id]);
    }
  }

  lemma NameFound(f: Ir.Func, s: Build, id: string)
    requires NamesOk(f, s) && Find(s.scope, id).Some?
    ensures Named(f, s, Find(s.scope, id).value)
  {
    hide Named;
    Cells.FindIn(s.scope, id);
  }

  // A final instruction of the current block is available behind itself.
  lemma AvailEmitted(f: Ir.Func, s: Build, op: Opcode, args: seq<Operand>)
    requires Whole(f) && Sound(s) && Sound(Emit(s, op, args)) && Final(f, s, Emit(s, op, args))
    ensures Avail(f, Emit(s, op, args), Ir.Res(s.nextId)) && s.nextId in f.code &&
      f.code[s.nextId] == Ir.Instr(op, args)
  {
    hide Graph.WellFormed, Sound, PredsFit;
    var s1, n := Emit(s, op, args), |s.List(s.cur)|;
    EmitKept(s, op, args);
    EmitPlace(f, s, s1, n);
    CodeAtIn(s1.code, f.code, s.nextId);
    assert f.home[s.nextId] == s.cur by { assert s.nextId in s1.home; }
    AscendingIndex(f.lists[s.cur], n);
  }

  lemma AscendingIndex(l: seq<Ir.Id>, i: nat)
    requires Ascending(l) && i < |l|
    ensures l[i] in l && Ssa.IndexOf(l, l[i]) == i
  {
    forall i, j | 0 <= i < j < |l| ensures Apart(l, i, j) { assert BuilderShape.Below(l, i, j); }
    Ssa.IndexOfAt(l, i);
  }

  // One value computed by an instruction.
  lemma ValueStrict(f: Ir.Func, s: Build, op: Opcode, args: seq<Operand>, ty: Type)
    requires Whole(f) && Sound(s) && NamesOk(f, s) && Final(f, s, EmitValue(s, op, args, ty))
    requires (op.Load? || op.Gep? || op.Pure? || op.Effect?)
    requires AddressesFit(f, s, Ir.Instr(op, args)) &&
      forall k :: 0 <= k < |args| ==> OperandFit(f, s, Ir.Instr(op, args), k)
    ensures var s1 := EmitValue(s, op, args, ty);
            Strict(f, s, s1) && Sound(s1) && NamesOk(f, s1) && Usable(f, s1, s1.value.op) &&
              s1.value == Value(Ir.Res(s.nextId), ty)
    ensures f.code[s.nextId].op == op
  {
    hide Whole, Sound, Grown, NewGood, AddressesFit, OperandFit, Avail, NamesOk, Final;
    var e, s1 := Emit(s, op, args), EmitValue(s, op, args, ty);
    GrownEmit(s, op, args); GrownSound(s, e);
    GrownEmitValue(s, op, args, ty); GrownSound(s, s1);
    FinalSame(f, s, s1, e);
    EmittedGood(f, s, op, args);
    SameGood(f, s, e, s1);
    EmitScope(s, op, args);
    NamesGrown(f, s, s1);
    AvailEmitted(f, s, op, args);
    AvailSame(f, e, s1, Ir.Res(s.nextId));
  }

  lemma FinalSame(f: Ir.Func, s: Build, s1: Build, s2: Build)
    requires Final(f, s, s1) && s2.cur == s1.cur && s2.g == s1.g && s2.lists == s1.lists && s2.code == s1.code &&
      s2.home == s1.home
    ensures Final(f, s, s2)
  {
  }

  lemma SameGood(f: Ir.Func, s: Build, s1: Build, s2: Build)
    requires NewGood(f, s, s1) && s2.g == s1.g && s2.lists == s1.lists
    ensures NewGood(f, s, s2)
  {
    hide Good;
  }

  lemma AvailSame(f: Ir.Func, s1: Build, s2: Build, a: Operand)
    requires s2.cur == s1.cur && s2.lists == s1.lists
    ensures Avail(f, s1, a) <==> Avail(f, s2, a)
  {
  }

  lemma NamesSame(f: Ir.Func, s1: Build, s2: Build)
    requires NamesOk(f, s1) && s2.cur == s1.cur && s2.lists == s1.lists && s2.scope == s1.scope
    ensures NamesOk(f, s2) && forall a {:trigger Usable(f, s2, a)} :: Usable(f, s1, a) ==> Usable(f, s2, a)
  {
    hide Ssa.Before;
    forall i, id | 0 <= i < |s2.scope| && id in s2.scope[i] ensures Named(f, s2, s2.scope[i][id]) {
      assert Named(f, s1, s1.scope[i][id]);
    }
  }

  // A pure operation on usable operands.
  lemma PureStrict(f: Ir.Func, s: Build, code: Ir.PureOp, args: seq<Operand>, ty: Type)
    requires Whole(f) && Sound(s) && NamesOk(f, s) && Final(f, s, EmitValue(s, Ir.Pure(code), args, ty))
    requires forall k :: 0 <= k < |args| ==> Usable(f, s, args[k])
    ensures var s1 := EmitValue(s, Ir.Pure(code), args, ty);
            Strict(f, s, s1) && Sound(s1) && NamesOk(f, s1) && Usable(f, s1, s1.value.op) &&
              s1.value == Value(Ir.Res(s.nextId), ty)
  {
    hide Whole, Sound, Strict, Usable, NamesOk, Final;
    ValueStrict(f, s, Ir.Pure(code), args, ty);
  }

  lemma ConstUsable(f: Ir.Func, s: Build, n: int)
    ensures Usable(f, s, Ir.Const(n))
  {
  }

  lemma ConvertStrict(f: Ir.Func, s: Build, target: Type)
    requires Whole(f) && Sound(s) && NamesOk(f, s) && Final(f, s, TypeConvert(s, target)) && ValueFit(f, s, s.value)
    ensures var s1 := TypeConvert(s, target);
            && Strict(f, s, s1) && Sound(s1) && NamesOk(f, s1) && ValueFit(f, s1, s1.value) &&
                 (s1.ok ==> s1.value.ty == target)
  {
    hide Whole, Sound, Strict, Usable, NamesOk, Final, EmitValue, Grown;
    var ty, s1 := s.value.ty, TypeConvert(s, target);
    TypeConvertGrown(s, target); GrownFacts(s, s1);
    if ty == Int1 && target == Float {
      var z := EmitValue(s, Ir.Pure(Ir.Zext), [s.value.op], Int32);
      var y := EmitValue(z, Ir.Pure(Ir.SiToFp), [z.value.op], Float);
      GrownEmitValue(s, Ir.Pure(Ir.Zext), [s.value.op], Int32); GrownSound(s, z);
      GrownEmitValue(z, Ir.Pure(Ir.SiToFp), [z.value.op], Float); GrownSound(z, y);
      FinalSame(f, s, s1, y);
      FinalSplit(f, s, z, y);
      PureStrict(f, s, Ir.Zext, [s.value.op], Int32);
      PureStrict(f, z, Ir.SiToFp, [z.value.op], Float);
      StrictTrans(f, s, z, y);
      StrictMore(f, s, y, s1);
    } else if ty == Int32 && target == Float {
      OneConversion(f, s, Ir.SiToFp, Float, s1);
    } else if ty == Float && target == Int32 {
      OneConversion(f, s, Ir.FpToSi, Int32, s1);
    } else if ty == Int1 && target == Int32 {
      OneConversion(f, s, Ir.Zext, Int32, s1);
    } else {
      StrictSame(f, s, s1);
      NamesSame(f, s, s1);
    }
  }

  lemma OneConversion(f: Ir.Func, s: Build, code: Ir.PureOp, ty: Type, s1: Build)
    requires Whole(f) && Sound(s) && NamesOk(f, s) && Final(f, s, s1) && Usable(f, s, s.value.op) && Plain(ty)
    requires var y := EmitValue(s, Ir.Pure(code), [s.value.op], ty); s1 == y.(ok := s1.ok) && (s1.ok ==> s.ok)
    ensures Strict(f, s, s1) && NamesOk(f, s1) && ValueFit(f, s1, s1.value) && s1.value.ty == ty
  {
    hide Whole, Sound, Strict, Usable, NamesOk, Final, Grown;
    var y := EmitValue(s, Ir.Pure(code), [s.value.op], ty);
    FinalSame(f, s, s1, y);
    PureStrict(f, s, code, [s.value.op], ty);
    StrictMore(f, s, y, s1);
  }

  // Only flags and values differ.
  lemma StrictMore(f: Ir.Func, s: Build, s1: Build, s2: Build)
    requires Strict(f, s, s1) && NamesOk(f, s1) && Sound(s1) && SameBlocks(s1, s2) && s2.cur == s1.cur &&
      s2.scope == s1.scope
    ensures Strict(f, s, s2) && NamesOk(f, s2) && Sound(s2)
    ensures forall a {:trigger Usable(f, s2, a)} :: Usable(f, s1, a) ==> Usable(f, s2, a)
  {
    hide Sound, Strict, NamesOk, Usable, Grown;
    StrictSame(f, s1, s2);
    StrictTrans(f, s, s1, s2);
    NamesSame(f, s1, s2);
    GrownSame(s1, s2); GrownSound(s1, s2);
  }

  lemma CompareStrict(f: Ir.Func, s: Build)
    requires Whole(f) && Sound(s) && NamesOk(f, s) && Final(f, s, CompareWith0(s)) && ValueFit(f, s, s.value)
    ensures var s1 := CompareWith0(s); Strict(f, s, s1) && Sound(s1) && NamesOk(f, s1) && Usable(f, s1, s1.value.op)
  {
    hide Whole, Sound, Strict, Usable, NamesOk, Final, EmitValue;
    ConstUsable(f, s, 0);
    if s.value.ty == Int1 {
      StrictSame(f, s, s);
    } else if s.value.ty == Int32 {
      PureStrict(f, s, RelCode(Neq), [s.value.op, Ir.Const(0)], Int1);
    } else {
      PureStrict(f, s, Floating(RelCode(Neq)), [s.value.op, Ir.Const(0)], Int1);
    }
  }

  lemma {:induction false} BinaryStrict(f: Ir.Func, s: Build, code: Ir.PureOp, l: Value, r: Value, ity: Type, fty: Type)
    requires Whole(f) && Sound(s) && NamesOk(f, s) && Final(f, s, Binary(s, code, l, r, ity, fty))
    requires ValueFit(f, s, l) && ValueFit(f, s, r) && (ity.Int1? || Plain(ity)) && (fty.Int1? || Plain(fty))
    ensures var s1 := Binary(s, code, l, r, ity, fty);
      Strict(f, s, s1) && Sound(s1) && NamesOk(f, s1) && ValueFit(f, s1, s1.value)
  {
    hide Whole, Sound, Strict, Usable, NamesOk, Final, EmitValue, TypeConvert, Grown;
    if l.ty == Int32 && r.ty == Int32 {
      PureStrict(f, s, code, [l.op, r.op], ity);
    } else {
      FloatStrict(f, s, code, l, r, ity, fty);
    }
  }

  lemma {:induction false} FloatStrict(f: Ir.Func, s: Build, code: Ir.PureOp, l: Value, r: Value, ity: Type, fty: Type)
    requires Whole(f) && Sound(s) && NamesOk(f, s) && Final(f, s, Binary(s, code, l, r, ity, fty)) &&
      !(l.ty == Int32 && r.ty == Int32)
    requires ValueFit(f, s, l) && ValueFit(f, s, r) && (fty.Int1? || Plain(fty))
    ensures var s1 := Binary(s, code, l, r, ity, fty);
      Strict(f, s, s1) && Sound(s1) && NamesOk(f, s1) && ValueFit(f, s1, s1.value)
  {
    hide Whole, Sound, Strict, Usable, NamesOk, Final, EmitValue, TypeConvert, Grown;
    var s0 := s.(value := l);
    var s1 := TypeConvert(s0, Float);
    var s2 := s1.(value := r);
    var s3 := TypeConvert(s2, Float);
    var s4 := Binary(s, code, l, r, ity, fty);
    GrownSame(s, s0); GrownSound(s, s0);
    TypeConvertGrown(s0, Float); GrownSound(s0, s1);
    GrownSame(s1, s2); GrownSound(s1, s2);
    TypeConvertGrown(s2, Float); GrownSound(s2, s3);
    GrownEmitValue(s3, Ir.Pure(Floating(code)), [s1.value.op, s3.value.op], fty);
    GrownTrans(s, s0, s1); GrownTrans(s, s1, s2); GrownTrans(s, s2, s3);
    FinalSplit(f, s, s3, s4); FinalSplit(f, s, s2, s3); FinalSplit(f, s, s1, s2); FinalSplit(f, s, s0, s1);
    StrictSame(f, s, s0); NamesSame(f, s, s0);
    ConvertStrict(f, s0, Float);
    UsableGrown(f, s0, s1, r.op);
    StrictMore(f, s0, s1, s2);
    ConvertStrict(f, s2, Float);
    UsableGrown(f, s2, s3, s1.value.op);
    PureStrict(f, s3, Floating(code), [s1.value.op, s3.value.op], fty);
    StrictTrans(f, s, s0, s2); StrictTrans(f, s, s2, s3); StrictTrans(f, s, s3, s4);
  }

  // ---- Variables ----

  lemma LoadStrict(f: Ir.Func, s: Build, a: Value)
    requires Whole(f) && Sound(s) && NamesOk(f, s) && Final(f, s, Load(s, a)) && a.ty.Ptr? &&
      Address(f, s, a.op, a.ty.elem)
    ensures var s1 := Load(s, a);
            Strict(f, s, s1) && Sound(s1) && NamesOk(f, s1) && Usable(f, s1, s1.value.op) &&
              s1.value == Value(Ir.Res(s.nextId), a.ty.elem)
            && s1.addr == s.addr
  {
    hide Whole, Sound, Strict, Usable, NamesOk, Final, Address, Grown;
    var s0 := Demand(s, a.ty.Ptr?);
    assert s0 == s;
    LoadFits(f, s, a.op, a.ty.elem);
    ValueStrict(f, s, Ir.Load, [a.op], a.ty.elem);
  }

  lemma LoadFits(f: Ir.Func, s: Build, a: Operand, ty: Type)
    requires Address(f, s, a, ty)
    ensures AddressesFit(f, s, Ir.Instr(Ir.Load, [a])) && OperandFit(f, s, Ir.Instr(Ir.Load, [a]), 0)
  {
    hide Address, Usable;
    assert Address(f, s, Ir.Instr(Ir.Load, [a]).args[0], ty);
  }

  lemma GepStrict(f: Ir.Func, s: Build, a: Value, idxs: seq<Operand>)
    requires Whole(f) && Sound(s) && NamesOk(f, s) && Final(f, s, Gep(s, a, idxs)) && Usable(f, s, a.op) &&
      (forall k :: 0 <= k < |idxs| ==> Usable(f, s, idxs[k]))
    requires Gep(s, a, idxs).ok
    ensures var s1 := Gep(s, a, idxs);
            && Strict(f, s, s1) && Sound(s1) && NamesOk(f, s1) && Usable(f, s1, s1.value.op) &&
                 s1.value == Value(Ir.Res(s.nextId), GepType(a.ty))
            && s.nextId in f.code && f.code[s.nextId].op.Gep?
  {
    hide Whole, Sound, Strict, Usable, NamesOk, Final, Grown;
    ValueStrict(f, s, Ir.Gep, [a.op] + idxs, GepType(a.ty));
    var s1 := Gep(s, a, idxs);
    assert s1 == EmitValue(s, Ir.Gep, [a.op] + idxs, GepType(a.ty));
    UsableCode(f, s1, Ir.Res(s.nextId));
  }

  lemma UsableCode(f: Ir.Func, s: Build, a: Operand)
    requires Usable(f, s, a)
    ensures a.Res? ==> a.id in f.code
  {
  }

  // The name of an array is an address its elements are reached from.
  lemma ArrayName(f: Ir.Func, s: Build, v: Value)
    requires Named(f, s, v) && v.ty.Ptr? && v.ty.elem.Array?
    ensures Usable(f, s, v.op)
  {
  }

  lemma LoadVarStrict(f: Ir.Func, s: Build, v: Value)
    requires Whole(f) && Sound(s) && NamesOk(f, s) && Final(f, s, LoadVar(s, v)) && LoadVar(s, v).ok
    requires s.addr.ty.Ptr? && CellTy(s.addr.ty.elem) && Address(f, s, s.addr.op, s.addr.ty.elem)
    requires s.addr.ty.elem.Array? ==> v == s.addr && Named(f, s, v)
    ensures var s1 := LoadVar(s, v);
      Strict(f, s, s1) && Sound(s1) && NamesOk(f, s1) && ValueFit(f, s1, s1.value) && s1.addr == s.addr
  {
    hide Whole, Sound, Strict, Usable, NamesOk, Final, Address, Named, Grown, Load, Gep;
    var s1 := Load(s, s.addr);
    LoadGrown(s, s.addr); GrownFacts(s, s1);
    LoadIs(s, s.addr);
    if s1.value.ty.Array? {
      var s2 := Gep(s1, v, [Ir.Const(0), Ir.Const(0)]);
      GepGrown(s1, v, [Ir.Const(0), Ir.Const(0)]);
      FinalSplit(f, s, s1, s2);
      LoadStrict(f, s, s.addr);
      ArrayName(f, s, v);
      UsableGrown(f, s, s1, v.op);
      ConstUsable(f, s1, 0);
      GepStrict(f, s1, v, [Ir.Const(0), Ir.Const(0)]);
      StrictTrans(f, s, s1, s2);
      GepIs(s1, v, [Ir.Const(0), Ir.Const(0)]);
    } else {
      LoadStrict(f, s, s.addr);
    }
  }

  lemma LoadIs(s: Build, a: Value)
    requires a.ty.Ptr?
    ensures Load(s, a).value.ty == a.ty.elem && Load(s, a).addr == s.addr
  {
  }

  lemma GepIs(s: Build, a: Value, idxs: seq<Operand>)
    ensures Gep(s, a, idxs).value.ty == GepType(a.ty) && Gep(s, a, idxs).addr == s.addr
    ensures Gep(s, a, idxs).ok ==> s.ok && a.ty.Ptr? && (a.ty.elem.Array? || a.ty.elem.Int32? || a.ty.elem.Float?)
  {
  }

  lemma ElementStrict(f: Ir.Func, s: Build, v: Value, idx: Operand)
    requires Whole(f) && Sound(s) && NamesOk(f, s) && Final(f, s, ElementAddress(s, v, idx)) &&
      ElementAddress(s, v, idx).ok
    requires Named(f, s, v) && v.ty.Ptr? && Usable(f, s, idx)
    ensures var s1 := ElementAddress(s, v, idx);
            && Strict(f, s, s1) && Sound(s1) && NamesOk(f, s1) && s1.addr.ty.Ptr? && Plain(s1.addr.ty.elem) &&
                 Address(f, s1, s1.addr.op, s1.addr.ty.elem)
  {
    hide Whole, Sound, Strict, Usable, NamesOk, Final, Grown, Load, Gep;
    var s3 := ElementAddress(s, v, idx);
    ConstUsable(f, s, 0);
    if v.ty.elem.Array? {
      var s1 := Gep(s, v, [Ir.Const(0), idx]);
      GepGrown(s, v, [Ir.Const(0), idx]); GrownSound(s, s1);
      GepIs(s, v, [Ir.Const(0), idx]);
      FinalSame(f, s, s3, s1);
      ArrayName(f, s, v);
      GepStrict(f, s, v, [Ir.Const(0), idx]);
      ElementDone(f, s, s1, s3);
    } else {
      var s1 := Load(s, v);
      var s2 := Gep(s1, s1.value, [idx]);
      LoadGrown(s, v); GrownSound(s, s1);
      LoadIs(s, v);
      GepGrown(s1, s1.value, [idx]); GrownSound(s1, s2);
      GepIs(s1, s1.value, [idx]);
      FinalSame(f, s, s3, s2);
      FinalSplit(f, s, s1, s2);
      LoadStrict(f, s, v);
      UsableGrown(f, s, s1, idx);
      GepStrict(f, s1, s1.value, [idx]);
      StrictTrans(f, s, s1, s2);
      ElementDone(f, s, s2, s3);
    }
  }

  // A computed element address.
  lemma ElementDone(f: Ir.Func, s: Build, s1: Build, s3: Build)
    requires Strict(f, s, s1) && Sound(s1) && NamesOk(f, s1) && Usable(f, s1, s1.value.op) && s1.value.op.Res?
    requires s1.value.op.id in f.code && f.code[s1.value.op.id].op.Gep?
    requires s3 == s1.(addr := s1.value, value := s.value)
    ensures Strict(f, s, s3) && Sound(s3) && NamesOk(f, s3) && s3.addr == s1.value &&
      forall ty :: Address(f, s3, s3.addr.op, ty)
  {
    hide Sound, Strict, NamesOk, Grown, Ssa.Before;
    StrictMore(f, s, s1, s3);
  }

  // ---- Branches ----

  lemma BrGood(f: Ir.Func, s: Build, b: Block)
    requires s.cur in f.lists && f.lists[s.cur] == s.List(s.cur) + [s.nextId] && s.nextId in f.code &&
      f.code[s.nextId] == Ir.Instr(Ir.Br, [Ir.Label(b)])
    requires f.g.Edge(s.cur, b)
    ensures Good(f, s.cur, |s.List(s.cur)|)
  {
  }

  lemma CondBrGood(f: Ir.Func, s: Build, c: Operand, t: Block, e: Block)
    requires s.cur in f.lists && f.lists[s.cur] == s.List(s.cur) + [s.nextId] && s.nextId in f.code
    requires f.code[s.nextId] == Ir.Instr(Ir.CondBr, [c, Ir.Label(t), Ir.Label(e)])
    requires f.g.Edge(s.cur, t) && f.g.Edge(s.cur, e) && Usable(f, s, c)
    ensures Good(f, s.cur, |s.List(s.cur)|)
  {
    hide Ssa.Before;
  }

  // An edge into the region is an edge of the finished graph.
  lemma FinalEdge(f: Ir.Func, s: Build, s1: Build, p: Block, b: Block)
    requires Whole(f) && PredsFit(s, s1, f.g) && b in s1.g.blocks && b !in s.g.blocks && p in s1.Pred(b)
    ensures f.g.Edge(p, b)
  {
    hide Arranged, Graph.Reachable;
  }

  lemma BranchPreds(s: Build, c: Operand, t: Block, e: Block)
    requires t != e
    ensures var s1 := CondBr(s, c, t, e); s1.Pred(t) == s.Pred(t) + [s.cur] && s1.Pred(e) == s.Pred(e) + [s.cur]
    ensures forall b :: b != t && b != e ==> CondBr(s, c, t, e).Pred(b) == s.Pred(b)
  {
  }

  lemma JumpPreds(s: Build, b: Block)
    ensures Br(s, b).Pred(b) == s.Pred(b) + [s.cur] && forall c :: c != b ==> Br(s, b).Pred(c) == s.Pred(c)
  {
  }

  // The blocks of an index check.
  lemma CheckFork(s: Build, c: Operand, a: Build, t: Block, e: Block, ok: bool)
    requires Sound(s) && t == s.nextBlock && e == s.nextBlock + 1 &&
      a == Demand(At(CondBr(NewBlock(NewBlock(s)), c, t, e), t), ok)
    ensures a.g.blocks == s.g.blocks + [t, e] && t !in s.g.blocks && e !in s.g.blocks && s.cur in s.g.blocks &&
      a.cur == t
    ensures a.List(s.cur) == s.List(s.cur) + [s.nextId] && a.List(t) == [] && a.List(e) == [] &&
      a.nextId == s.nextId + 1
    ensures forall b :: b in s.g.blocks && b != s.cur ==> a.List(b) == s.List(b)
    ensures s.nextId in a.code && a.code[s.nextId] == Ir.Instr(Ir.CondBr, [c, Ir.Label(t), Ir.Label(e)])
    ensures a.Pred(t) == [s.cur] && a.Pred(e) == [s.cur]
  {
    hide Graph.Valid, SuccsDistinct, Arranged, CondBr;
    var n2 := NewBlock(NewBlock(s));
    NewNotOld(s, t, e);
    CondBrKept(n2, c, t, e);
    BranchPreds(n2, c, t, e);
    CondBrLists(n2, c, t, e);
    assert a.lists == CondBr(n2, c, t, e).lists && n2.cur == s.cur;
    assert forall b :: a.List(b) == CondBr(n2, c, t, e).List(b);
  }

  lemma CondBrLists(s: Build, c: Operand, t: Block, e: Block)
    ensures CondBr(s, c, t, e).nextId == s.nextId + 1 &&
      forall b :: b != s.cur ==> CondBr(s, c, t, e).List(b) == s.List(b)
  {
  }

  lemma {:induction false} CheckFacts(s: Build, c: Operand, a: Build, j: Build, end: Build, t: Block, e: Block,
      callee: Operand)
    requires Sound(s) && t == s.nextBlock && e == s.nextBlock + 1
    requires a == Demand(At(CondBr(NewBlock(NewBlock(s)), c, t, e), t), end.ok) &&
      j == Emit(a, Ir.Effect(0), [callee]) && end == At(Br(j, e), e)
    ensures end.g.blocks == s.g.blocks + [t, e] && t !in s.g.blocks && e !in s.g.blocks
    ensures end.List(s.cur) == s.List(s.cur) + [s.nextId] && end.List(t) == [a.nextId, j.nextId] && end.List(e) == []
    ensures forall b :: b in s.g.blocks && b != s.cur ==> end.List(b) == s.List(b)
    ensures s.nextId in end.code && end.code[s.nextId] == Ir.Instr(Ir.CondBr, [c, Ir.Label(t), Ir.Label(e)])
    ensures a.nextId in end.code && end.code[a.nextId] == Ir.Instr(Ir.Effect(0), [callee]) && j.nextId in end.code &&
      end.code[j.nextId] == Ir.Instr(Ir.Br, [Ir.Label(e)])
    ensures end.Pred(t) == [s.cur] && end.Pred(e) == [s.cur, t] && s.cur != t && s.cur != e && j.cur == t &&
      j.List(t) == [a.nextId] && s.cur in s.g.blocks
  {
    hide Sound, CondBr, NewBlock;
    CheckFork(s, c, a, t, e, end.ok);
    CheckTail(a, j, end, t, e, callee);
    assert [s.cur] + [t] == [s.cur, t];
  }

  lemma CheckTail(a: Build, j: Build, end: Build, t: Block, e: Block, callee: Operand)
    requires a.cur == t && a.List(t) == [] && t != e && j == Emit(a, Ir.Effect(0), [callee]) && end == At(Br(j, e), e)
    ensures end.g.blocks == a.g.blocks && end.List(t) == [a.nextId, j.nextId] && j.cur == t &&
      j.List(t) == [a.nextId] && j.nextId == a.nextId + 1
    ensures forall b :: b != t ==> end.List(b) == a.List(b)
    ensures a.nextId in end.code && end.code[a.nextId] == Ir.Instr(Ir.Effect(0), [callee]) && j.nextId in end.code &&
      end.code[j.nextId] == Ir.Instr(Ir.Br, [Ir.Label(e)])
    ensures forall x :: x in a.code && x < a.nextId ==> x in end.code && end.code[x] == a.code[x]
    ensures end.Pred(e) == a.Pred(e) + [t] && forall b :: b != e ==> end.Pred(b) == a.Pred(b)
  {
  }

  lemma GlobalCall(f: Ir.Func, b: Block, i: nat, x: Ir.Id, callee: Operand)
    requires b in f.lists && i < |f.lists[b]| && f.lists[b][i] == x && x in f.code &&
      f.code[x] == Ir.Instr(Ir.Effect(0), [callee]) && !callee.Res?
    ensures Good(f, b, i)
  {
  }

  lemma CheckStrict(f: Ir.Func, s: Build, c: Operand)
    requires Whole(f) && Sound(s) && NamesOk(f, s) && Final(f, s, CheckIndex(s, c)) && CheckIndex(s, c).ok &&
      Usable(f, s, c)
    ensures var s1 := CheckIndex(s, c); Strict(f, s, s1) && Sound(s1) && NamesOk(f, s1)
  {
    hide Whole, Sound, Strict, Usable, NamesOk, Final, Grown, Find, CondBr, NewBlock, Br, Emit, Good;
    var end := CheckIndex(s, c);
    var t, e := s.nextBlock, s.nextBlock + 1;
    var found := Find(s.scope, "neg_idx_except");
    CheckGrown(s, c); GrownSound(s, end);
    CheckOk(s, c);
    NameFound(f, s, "neg_idx_except");
    var callee := found.value.op;
    CheckNames(f, s, found.value);
    var a := Demand(At(CondBr(NewBlock(NewBlock(s)), c, t, e), t), end.ok);
    var j := Emit(a, Ir.Effect(0), [callee]);
    CheckIs(s, c, a, j, t, e, callee);
    CheckFacts(s, c, a, j, end, t, e, callee);
    CheckGood(f, s, c, a, j, end, t, e, callee);
    CheckScope(s, c);
    NamesGrown(f, s, end);
  }

  lemma CheckNames(f: Ir.Func, s: Build, v: Value)
    requires Named(f, s, v) && v.ty.Func?
    ensures v.op.Global?
  {
  }

  lemma CheckOk(s: Build, c: Operand)
    requires CheckIndex(s, c).ok
    ensures var found := Find(s.scope, "neg_idx_except"); found.Some? && found.value.ty.Func? && s.ok
  {
    hide Find;
  }

  lemma {:induction false} CheckIs(s: Build, c: Operand, a: Build, j: Build, t: Block, e: Block, callee: Operand)
    requires CheckIndex(s, c).ok && t == s.nextBlock && e == s.nextBlock + 1 &&
      Find(s.scope, "neg_idx_except").Some? && callee == Find(s.scope, "neg_idx_except").value.op
    requires a == Demand(At(CondBr(NewBlock(NewBlock(s)), c, t, e), t), CheckIndex(s, c).ok) &&
      j == Emit(a, Ir.Effect(0), [callee])
    ensures CheckIndex(s, c) == At(Br(j, e), e)
  {
    hide Find;
  }

  lemma {:induction false} CheckGood(f: Ir.Func, s: Build, c: Operand, a: Build, j: Build, end: Build, t: Block,
      e: Block, callee: Operand)
    requires Whole(f) && Final(f, s, end) && Usable(f, s, c) && callee.Global? && Grown(s, end)
    requires end.g.blocks == s.g.blocks + [t, e] && t !in s.g.blocks && e !in s.g.blocks && end.cur == e &&
      j.cur == t && s.cur in s.g.blocks
    requires end.List(s.cur) == s.List(s.cur) + [s.nextId] && end.List(t) == [a.nextId, j.nextId] &&
      end.List(e) == [] && j.List(t) == [a.nextId]
    requires forall b :: b in s.g.blocks && b != s.cur ==> end.List(b) == s.List(b)
    requires s.nextId in end.code && end.code[s.nextId] == Ir.Instr(Ir.CondBr, [c, Ir.Label(t), Ir.Label(e)])
    requires a.nextId in end.code && end.code[a.nextId] == Ir.Instr(Ir.Effect(0), [callee]) && j.nextId in end.code &&
      end.code[j.nextId] == Ir.Instr(Ir.Br, [Ir.Label(e)])
    requires end.Pred(t) == [s.cur] && end.Pred(e) == [s.cur, t] && s.cur != t && s.cur != e && t != e
    ensures Strict(f, s, end)
  {
    hide Whole, Grown, Usable, Good, PredsFit, HomeIn;
    FitsAt(s, end, f.lists, s.cur); FitsAt(s, end, f.lists, t);
    CodeAtIn(end.code, f.code, s.nextId); CodeAtIn(end.code, f.code, a.nextId); CodeAtIn(end.code, f.code, j.nextId);
    FinalEdge(f, s, end, s.cur, t); FinalEdge(f, s, end, s.cur, e); FinalEdge(f, s, end, t, e);
    CondBrGood(f, s, c, t, e);
    GlobalCall(f, t, 0, a.nextId, callee);
    BrGood(f, j, e);
    forall b, i: nat | b in end.g.blocks && i < |end.List(b)| && (b !in s.g.blocks || i >= |s.List(b)|)
      ensures Good(f, b, i) {
    }
  }

  lemma IndexStrict(f: Ir.Func, s: Build, v: Value)
    requires Whole(f) && Sound(s) && NamesOk(f, s) && Final(f, s, IndexAddress(s, v)) && IndexAddress(s, v).ok
    requires ValueFit(f, s, s.value) && Named(f, s, v)
    ensures var s1 := IndexAddress(s, v);
            && Strict(f, s, s1) && Sound(s1) && NamesOk(f, s1) && s1.addr.ty.Ptr? && Plain(s1.addr.ty.elem) &&
                 Address(f, s1, s1.addr.op, s1.addr.ty.elem)
  {
    hide Whole, Sound, Strict, Usable, NamesOk, Final, Grown, TypeConvert, CheckIndex, ElementAddress, Named, Address,
      Emit;
    var s1 := TypeConvert(s, Int32);
    var idx := s1.value.op;
    var s2 := EmitValue(s1, Ir.Pure(RelCode(Lt)), [idx, Ir.Const(0)], Int1);
    var s2a := Emit(s1, Ir.Pure(RelCode(Lt)), [idx, Ir.Const(0)]);
    var s3 := CheckIndex(s2a, Ir.Res(s1.nextId));
    var s4 := Demand(s3, v.ty.Ptr?);
    var s5 := IndexAddress(s, v);
    assert s5 == ElementAddress(s4, v, idx);
    TypeConvertGrown(s, Int32); GrownFacts(s, s1);
    GrownEmit(s1, Ir.Pure(RelCode(Lt)), [idx, Ir.Const(0)]); GrownFacts(s1, s2a);
    CheckGrown(s2a, Ir.Res(s1.nextId)); GrownFacts(s2a, s3);
    GrownSame(s3, s4); GrownFacts(s3, s4);
    ElementGrown(s4, v, idx); GrownFacts(s4, s5);
    GrownTrans(s, s1, s2a); GrownTrans(s, s2a, s3); GrownTrans(s, s3, s4);
    FinalSplit(f, s, s4, s5); FinalSplit(f, s, s3, s4); FinalSplit(f, s, s2a, s3); FinalSplit(f, s, s1, s2a);
    ConvertStrict(f, s, Int32);
    FinalSame(f, s1, s2a, s2);
    ConstUsable(f, s1, 0);
    PureStrict(f, s1, RelCode(Lt), [idx, Ir.Const(0)], Int1);
    StrictBack(f, s1, s2, s2a);
    CheckStrict(f, s2a, Ir.Res(s1.nextId));
    StrictMore(f, s2a, s3, s4);
    GrownTrans(s1, s2a, s3); GrownTrans(s1, s3, s4);
    FinalChain(f, s, s1, s4);
    UsableGrown(f, s1, s4, idx);
    NamedGrown(f, s, s4, v);
    ElementStrict(f, s4, v, idx);
    StrictTrans(f, s, s1, s2a); StrictTrans(f, s, s2a, s4); StrictTrans(f, s, s4, s5);
  }

  lemma StrictBack(f: Ir.Func, s: Build, s1: Build, s2: Build)
    requires Strict(f, s, s1) && NamesOk(f, s1) && Sound(s1) && s1 == s2.(value := s1.value) && Sound(s2) &&
      Usable(f, s1, s1.value.op)
    ensures Strict(f, s, s2) && NamesOk(f, s2) && Usable(f, s2, s1.value.op)
  {
    hide Sound, Strict, NamesOk, Usable, Grown;
    StrictMore(f, s, s1, s2);
  }

  // What is final from s to s2 is final from a state in between.
  lemma FinalChain(f: Ir.Func, s: Build, s1: Build, s2: Build)
    requires Grown(s, s1) && Grown(s1, s2) && Final(f, s, s2)
    ensures Final(f, s1, s2) && Final(f, s, s1)
  {
    hide Grown, Final;
    FinalSplit(f, s, s1, s2);
  }

  // ---- Expressions ----

  // What the visit of an expression leaves.
  ghost predicate Fit(f: Ir.Func, s: Build, s1: Build) {
    Strict(f, s, s1) && Sound(s1) && NamesOk(f, s1) && ValueFit(f, s1, s1.value)
  }

  lemma ValueGrown(f: Ir.Func, s: Build, s1: Build, v: Value)
    requires Whole(f) && Sound(s) && Grown(s, s1) && Final(f, s, s1) && ValueFit(f, s, v)
    ensures ValueFit(f, s1, v)
  {
    hide Whole, Sound, Grown, Final, Usable;
    UsableGrown(f, s, s1, v.op);
  }

  lemma AddressGrown(f: Ir.Func, s: Build, s1: Build, a: Operand, ty: Type)
    requires Whole(f) && Sound(s) && Grown(s, s1) && Final(f, s, s1) && Address(f, s, a, ty)
    ensures Address(f, s1, a, ty)
  {
    hide Whole, Sound, Grown, Final, Avail;
    if a.Res? { AvailGrown(f, s, s1, a); }
  }

  lemma FitParts(f: Ir.Func, s: Build, s1: Build)
    requires Fit(f, s, s1)
    ensures Strict(f, s, s1) && Grown(s, s1) && Sound(s1) && NamesOk(f, s1) && ValueFit(f, s1, s1.value)
  {
    hide Grown, NewGood, Sound, NamesOk, ValueFit;
  }

  lemma {:induction false} VarStrict(f: Ir.Func, s: Build, id: string, index: Option<Expr>)
    requires Whole(f) && Sound(s) && NamesOk(f, s) && Final(f, s, VisitVar(s, id, index)) && VisitVar(s, id, index).ok
    ensures var s1 := VisitVar(s, id, index);
            Fit(f, s, s1) && s1.addr.ty.Ptr? && CellTy(s1.addr.ty.elem) && Address(f, s1, s1.addr.op, s1.addr.ty.elem)
    decreases index
  {
    hide Whole, Sound, Strict, NamesOk, Final, Grown, VisitExpr, IndexAddress, LoadVar, Find, Named, Address, ValueFit;
    var found := Find(s.scope, id);
    var v := if found.Some? then found.value else Value(Ir.Const(0), Void);
    var s1 := Demand(s, found.Some?);
    var s4 := VisitVar(s, id, index);
    GrownSame(s, s1); GrownFacts(s, s1);
    StrictSame(f, s, s1);
    if index.None? {
      var s2 := s1.(addr := v);
      GrownSame(s, s2); GrownFacts(s, s2);
      LoadVarGrown(s2, v); GrownFacts(s2, s4);
      FinalSplit(f, s, s2, s4);
      NameFound(f, s, id);
      LoadedPointer(s2, v);
      StrictSame(f, s, s2); NamesSame(f, s, s2);
      NamedAddress(f, s, s2, v);
      LoadVarStrict(f, s2, v);
      AddressGrown(f, s2, s4, v.op, v.ty.elem);
      StrictTrans(f, s, s2, s4);
    } else {
      var s2 := VisitExpr(s1, index.value);
      var s3 := IndexAddress(s2, v);
      ExprGrown(s1, index.value); GrownFacts(s1, s2);
      IndexGrown(s2, v); GrownFacts(s2, s3);
      LoadVarGrown(s3, v); GrownFacts(s3, s4);
      GrownTrans(s, s1, s2); GrownTrans(s, s2, s3);
      FinalSplit(f, s, s3, s4); FinalSplit(f, s, s2, s3); FinalSplit(f, s, s1, s2);
      NamesSame(f, s, s1);
      ExprStrict(f, s1, index.value);
      FitParts(f, s1, s2);
      NameFound(f, s, id);
      NamedGrown(f, s, s2, v);
      IndexStrict(f, s2, v);
      LoadVarStrict(f, s3, v);
      PlainElem(s3.addr.ty.elem);
      AddressGrown(f, s3, s4, s3.addr.op, s3.addr.ty.elem);
      StrictTrans(f, s, s1, s2); StrictTrans(f, s, s2, s3); StrictTrans(f, s, s3, s4);
    }
  }

  lemma PlainElem(ty: Type)
    requires Plain(ty)
    ensures CellTy(ty) && !ty.Array?
  {
  }

  lemma LoadedPointer(s: Build, v: Value)
    requires LoadVar(s, v).ok
    ensures s.addr.ty.Ptr?
  {
  }

  lemma NamedAddress(f: Ir.Func, s: Build, s2: Build, v: Value)
    requires Named(f, s, v) && v.ty.Ptr? && s2.cur == s.cur && s2.lists == s.lists
    ensures CellTy(v.ty.elem) && Address(f, s2, v.op, v.ty.elem) && Named(f, s2, v)
  {
    hide Ssa.Before;
  }

  lemma {:induction false} ExprStrict(f: Ir.Func, s: Build, e: Expr)
    requires Whole(f) && Sound(s) && NamesOk(f, s) && Final(f, s, VisitExpr(s, e)) && VisitExpr(s, e).ok
    ensures Fit(f, s, VisitExpr(s, e))
    decreases e, 1
  {
    hide Whole, Sound, Strict, NamesOk, Final, Grown, VisitVar, VisitArgs, Find, Fit, Binary, TypeConvert;
    match e
    case Num(ty, n) => NumStrict(f, s, ty, n);
    case Var(id, index) => VarStrict(f, s, id, index);
    case Assign(id, index, e1) => AssignStrict(f, s, e);
    case Rel(l, op, r) => PairStrict(f, s, e, l, r, RelCode(op), Int1, Int1);
    case Arith(l, op, r) => PairStrict(f, s, e, l, r, ArithCode(op), Int32, Float);
    case Call(id, args) => CallStrict(f, s, e);
  }

  lemma {:induction false} NumStrict(f: Ir.Func, s: Build, ty: CminusType, n: int)
    requires Sound(s) && NamesOk(f, s)
    ensures Fit(f, s, VisitExpr(s, Num(ty, n)))
  {
    hide Sound, Strict, NamesOk;
    var s1 := VisitExpr(s, Num(ty, n));
    StrictSame(f, s, s1);
    NamesSame(f, s, s1);
    ConstUsable(f, s1, n);
    GrownSame(s, s1);
  }

  lemma {:induction false} PairStrict(f: Ir.Func, s: Build, e: Expr, l: Expr, r: Expr, code: Ir.PureOp, ity: Type,
      fty: Type)
    requires (e.Rel? && e.l == l && e.r == r) || (e.Arith? && e.l == l && e.r == r)
    requires Whole(f) && Sound(s) && NamesOk(f, s) && (ity.Int1? || Plain(ity)) && (fty.Int1? || Plain(fty))
    requires var s1 := VisitExpr(s, l); var s2 := VisitExpr(s1, r);
      var s3 := Binary(s2, code, s1.value, s2.value, ity, fty); Final(f, s, s3) && s3.ok
    ensures var s1 := VisitExpr(s, l); var s2 := VisitExpr(s1, r);
      Fit(f, s, Binary(s2, code, s1.value, s2.value, ity, fty))
    decreases e, 0
  {
    hide Whole, Sound, Strict, NamesOk, Final, Grown, VisitExpr, Binary, ValueFit, Plain;
    var s1 := VisitExpr(s, l);
    var s2 := VisitExpr(s1, r);
    var s3 := Binary(s2, code, s1.value, s2.value, ity, fty);
    ExprGrown(s, l); GrownFacts(s, s1);
    ExprGrown(s1, r); GrownFacts(s1, s2);
    BinaryGrown(s2, code, s1.value, s2.value, ity, fty); GrownFacts(s2, s3);
    GrownTrans(s, s1, s2);
    FinalSplit(f, s, s2, s3); FinalSplit(f, s, s1, s2);
    ExprStrict(f, s, l);
    ExprStrict(f, s1, r);
    ValueGrown(f, s1, s2, s1.value);
    BinaryStrict(f, s2, code, s1.value, s2.value, ity, fty);
    StrictTrans(f, s, s1, s2); StrictTrans(f, s, s2, s3);
  }

  lemma {:induction false} AssignStrict(f: Ir.Func, s: Build, e: Expr)
    requires e.Assign? && Whole(f) && Sound(s) && NamesOk(f, s) && Final(f, s, VisitExpr(s, e)) && VisitExpr(s, e).ok
    ensures Fit(f, s, VisitExpr(s, e))
    decreases e, 0
  {
    hide Whole, Sound, Strict, NamesOk, Final, Grown, VisitVar, TypeConvert, ValueFit, Address;
    var s1 := VisitVar(s, e.id, e.index);
    var s2 := VisitExpr(s1, e.e);
    var ty := if s1.addr.ty.Ptr? then s1.addr.ty.elem else Void;
    var s3 := Demand(s2, s1.addr.ty.Ptr?);
    var s4 := TypeConvert(s3, ty);
    var s5 := VisitExpr(s, e);
    assert s5 == Store(s4, s4.value.op, s1.addr.op);
    VarGrown(s, e.id, e.index); GrownFacts(s, s1);
    ExprGrown(s1, e.e); GrownFacts(s1, s2);
    GrownSame(s2, s3); GrownFacts(s2, s3);
    TypeConvertGrown(s3, ty); GrownFacts(s3, s4);
    GrownEmit(s4, Ir.Store, [s4.value.op, s1.addr.op]); GrownFacts(s4, s5);
    GrownTrans(s, s1, s2); GrownTrans(s, s2, s3); GrownTrans(s, s3, s4);
    FinalSplit(f, s, s4, s5); FinalSplit(f, s, s3, s4); FinalSplit(f, s, s2, s3); FinalSplit(f, s, s1, s2);
    VarStrict(f, s, e.id, e.index);
    ExprStrict(f, s1, e.e);
    FitParts(f, s1, s2);
    StrictMore(f, s1, s2, s3);
    ValueSame(f, s2, s3, s2.value);
    ConvertStrict(f, s3, ty);
    GrownTrans(s1, s2, s3); GrownTrans(s1, s3, s4);
    FinalChain(f, s, s1, s4);
    AddressGrown(f, s1, s4, s1.addr.op, ty);
    NotArray(f, s4);
    StoreStrict(f, s4, s1.addr.op, ty);
    StrictTrans(f, s, s1, s3); StrictTrans(f, s, s3, s4); StrictTrans(f, s, s4, s5);
    ValueGrown(f, s4, s5, s4.value);
    EmitScope(s4, Ir.Store, [s4.value.op, s1.addr.op]);
    NamesGrown(f, s4, s5);
  }

  lemma ValueSame(f: Ir.Func, s: Build, s1: Build, v: Value)
    requires ValueFit(f, s, v) && s1.cur == s.cur && s1.lists == s.lists
    ensures ValueFit(f, s1, v)
  {
    hide Ssa.Before;
  }

  lemma NotArray(f: Ir.Func, s: Build)
    requires ValueFit(f, s, s.value)
    ensures !s.value.ty.Array?
  {
    hide Usable;
  }

  lemma StoreStrict(f: Ir.Func, s: Build, a: Operand, ty: Type)
    requires Whole(f) && Sound(s) && Final(f, s, Store(s, s.value.op, a)) && ValueFit(f, s, s.value) &&
      Address(f, s, a, ty) && !ty.Array?
    ensures Strict(f, s, Store(s, s.value.op, a))
  {
    hide Whole, Sound, Final, Grown, NewGood, Address;
    var instr := Ir.Instr(Ir.Store, [s.value.op, a]);
    GrownEmit(s, Ir.Store, [s.value.op, a]); GrownSound(s, Store(s, s.value.op, a));
    StoreFits(f, s, s.value.op, a, ty);
    EmittedGood(f, s, Ir.Store, [s.value.op, a]);
  }

  lemma StoreFits(f: Ir.Func, s: Build, v: Operand, a: Operand, ty: Type)
    requires Usable(f, s, v) && Address(f, s, a, ty) && !ty.Array?
    ensures var instr := Ir.Instr(Ir.Store, [v, a]);
      AddressesFit(f, s, instr) && OperandFit(f, s, instr, 0) && OperandFit(f, s, instr, 1)
  {
    hide Address, Usable;
    assert Address(f, s, Ir.Instr(Ir.Store, [v, a]).args[1], ty);
  }

  lemma {:induction false} CallStrict(f: Ir.Func, s: Build, e: Expr)
    requires e.Call? && Whole(f) && Sound(s) && NamesOk(f, s) && Final(f, s, VisitExpr(s, e)) && VisitExpr(s, e).ok
    ensures Fit(f, s, VisitExpr(s, e))
    decreases e, 0
  {
    hide Whole, Sound, Strict, NamesOk, Final, Grown, VisitArgs, Find, Usable, Named;
    var found := Find(s.scope, e.id);
    var fty := if found.Some? && found.value.ty.Func? then found.value.ty else Func(Void, []);
    var s1 := Demand(s, found.Some? && found.value.ty.Func? && |fty.params| == |e.args|);
    var (s2, ops) := VisitArgs(s1, e.args, fty.params);
    var callee := if found.Some? then found.value.op else Ir.Const(0);
    var s3 := VisitExpr(s, e);
    GrownSame(s, s1); GrownFacts(s, s1);
    ArgsGrown(s1, e.args, fty.params); GrownFacts(s1, s2);
    GrownEmitValue(s2, Ir.Effect(0), [callee] + ops, fty.ret); GrownFacts(s2, s3);
    GrownTrans(s, s1, s2);
    FinalSplit(f, s, s2, s3); FinalSplit(f, s, s1, s2);
    StrictSame(f, s, s1); NamesSame(f, s, s1);
    ArgsStrict(f, s1, e.args, fty.params);
    NameFound(f, s, e.id);
    FunctionName(f, s, found.value);
    GlobalUsable(f, s2, callee);
    ValueStrict(f, s2, Ir.Effect(0), [callee] + ops, fty.ret);
    StrictTrans(f, s, s1, s2); StrictTrans(f, s, s2, s3);
  }

  lemma FunctionName(f: Ir.Func, s: Build, v: Value)
    requires Named(f, s, v) && v.ty.Func?
    ensures v.op.Global? && Plain(v.ty.ret)
  {
  }

  lemma GlobalUsable(f: Ir.Func, s: Build, a: Operand)
    requires a.Global?
    ensures Usable(f, s, a)
  {
  }

  lemma {:induction false} ArgsStrict(f: Ir.Func, s: Build, args: seq<Expr>, params: seq<Type>)
    requires Whole(f) && Sound(s) && NamesOk(f, s) && Final(f, s, VisitArgs(s, args, params).0) &&
      VisitArgs(s, args, params).0.ok
    ensures var (s1, ops) := VisitArgs(s, args, params);
            Strict(f, s, s1) && Sound(s1) && NamesOk(f, s1) && forall k :: 0 <= k < |ops| ==> Usable(f, s1, ops[k])
    decreases args, 0
  {
    hide Whole, Sound, Strict, NamesOk, Final, Grown, TypeConvert, VisitExpr, Usable;
    if args == [] {
      StrictSame(f, s, s);
    } else {
      var ty := if params == [] then Void else params[0];
      var rest := if params == [] then [] else params[1..];
      var s1 := VisitExpr(s, args[0]);
      var s2 := TypeConvert(s1, ty);
      var (s3, ops) := VisitArgs(s2, args[1..], rest);
      ExprGrown(s, args[0]); GrownFacts(s, s1);
      TypeConvertGrown(s1, ty); GrownFacts(s1, s2);
      ArgsGrown(s2, args[1..], rest); GrownFacts(s2, s3);
      GrownTrans(s, s1, s2);
      FinalSplit(f, s, s2, s3); FinalSplit(f, s, s1, s2);
      ExprStrict(f, s, args[0]);
      ConvertStrict(f, s1, ty);
      ArgsStrict(f, s2, args[1..], rest);
      UsableGrown(f, s2, s3, s2.value.op);
      StrictTrans(f, s, s1, s2); StrictTrans(f, s, s2, s3);
    }
  }
}
