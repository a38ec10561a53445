/** How names, cells and values of the program stand for those of the source. */
module Cells {
  import opened Wrappers
  import opened Cfg
  import Ir
  import opened Lowering
  import opened BuilderShape
  import opened Runs
  import opened Cminus

  // ---- Types ----

  function Lower(ty: Ty): Type {
    match ty case TruthT => Int1 case IntT => Int32 case FloatT => Float case VoidT => Void
      case PtrT(elem) => Ptr(Lower(elem))
  }

  function Lowers(tys: seq<Ty>): seq<Type> {
    if tys == [] then [] else [Lower(tys[0])] + Lowers(tys[1..])
  }

  predicate IsArray(ty: Type, elem: Ty) {
    ty.Ptr? && ty.elem.Array? && ty.elem.elem == Lower(elem)
  }

  lemma LowerPlain(ty: Ty)
    ensures !Lower(ty).Array? && !Lower(ty).Func? && !CellType(Lower(ty)).Aggregate?
  {
  }

  lemma LowerOnce(a: Ty, b: Ty)
    ensures Lower(a) == Lower(b) ==> a == b
  {
    if a.PtrT? && b.PtrT? { LowerOnce(a.elem, b.elem); }
  }

  // ---- Names ----

  // A local name is bound to the instruction that makes its cell; a global one to what it stands
  // for, if it is known.
  ghost predicate BindingOk(code: Code, known: Known, id: string, b: Value) {
    if b.op.Res? then
      b.ty.Ptr? && b.op.id in code && code[b.op.id] == Ir.Instr(Ir.Alloca(CellType(b.ty.elem)), [])
    else id in known.names ==> KnownOk(known.names[id], b)
  }

  ghost predicate KnownOk(g: Cminus.Global, b: Value) {
    match g
    case Fun(number, params, ret) => b == Value(Ir.Global(number), Func(Lower(ret), Lowers(params)))
    case Shared(number, ty) => b == Value(Ir.Global(number), Ptr(Lower(ty)))
    case SharedArray(number, ty) => b.op == Ir.Global(number) && IsArray(b.ty, ty)
  }

  ghost predicate Static(scope: seq<Bindings>, code: Code, known: Known) {
    && (forall i, id {:trigger id in scope[i]} :: 0 <= i < |scope| && id in scope[i] ==>
         BindingOk(code, known, id, scope[i][id]))
    && (forall i, j, id, id2 {:trigger id in scope[i], id2 in scope[j]} ::
          0 <= i < |scope| && 0 <= j < |scope| && id in scope[i] && id2 in scope[j] &&
          scope[i][id].op == scope[j][id2].op && scope[i][id].op.Res? ==>
            i == j && id == id2)
  }

  lemma StaticLater(scope: seq<Bindings>, code: Code, code1: Code, known: Known)
    requires Static(scope, code, known) && CodeIn(code, code1)
    ensures Static(scope, code1, known)
  {
    hide KnownOk;
    forall i, id | 0 <= i < |scope| && id in scope[i] ensures BindingOk(code1, known, id, scope[i][id]) {
      assert BindingOk(code, known, id, scope[i][id]);
    }
  }

  lemma {:induction false} FindIn(scope: seq<Bindings>, id: string)
    requires Find(scope, id).Some?
    ensures exists i :: 0 <= i < |scope| && id in scope[i] && scope[i][id] == Find(scope, id).value
                        && forall j :: i < j < |scope| ==> id !in scope[j]
  {
    var n := |scope| - 1;
    if id !in scope[n] {
      FindIn(scope[..n], id);
      var i :| 0 <= i < n && id in scope[..n][i] && scope[..n][i][id] == Find(scope[..n], id).value &&
        forall j :: i < j < n ==> id !in scope[..n][j];
      assert scope[i] == scope[..n][i];
      forall j | i < j < |scope| ensures id !in scope[j] {
        if j < n { assert scope[..n][j] == scope[j]; }
      }
    }
  }

  lemma FindOk(scope: seq<Bindings>, code: Code, known: Known, id: string)
    requires Static(scope, code, known) && Find(scope, id).Some?
    ensures BindingOk(code, known, id, Find(scope, id).value)
  {
    hide BindingOk;
    FindIn(scope, id);
  }

  // ---- Values ----

  // A cell holds the value of the variable; the place of an array is a value.
  ghost predicate SlotOk(b: Value, slot: Slot, r: Ir.State) {
    b.op.Res? && match slot
      case Cell(ty, v) => b.ty == Ptr(Lower(ty)) && v == Ir.Lookup(r.mem, b.op.id)
      case Row(ty, base) => IsArray(b.ty, ty) && Ir.Lookup(r.env, b.op.id) == Ir.V(base)
  }

  ghost predicate Level(b: Bindings, vars: Vars, r: Ir.State) {
    && (forall id :: id in vars ==> id in b && SlotOk(b[id], vars[id], r))
    && (forall id :: id in b && b[id].op.Res? ==> id in vars)
  }

  ghost predicate LocalNames(b: Bindings) {
    forall id :: id in b ==> b[id].op.Res?
  }

  // Only the outermost scope has global names.
  ghost predicate Values(scope: seq<Bindings>, vars: seq<Vars>, r: Ir.State) {
    && |scope| == |vars|
    && (forall i {:trigger scope[i]} {:trigger vars[i]} :: 0 <= i < |scope| ==> Level(scope[i], vars[i], r))
    && (forall i {:trigger scope[i]} :: 0 < i < |scope| ==> LocalNames(scope[i]))
  }

  ghost predicate Agrees(scope: seq<Bindings>, st: Memory, r: Ir.State) {
    scope != [] && Values(scope, st.scopes, r) && r.trace == st.trace
  }

  lemma {:induction false} FindLookup(scope: seq<Bindings>, vars: seq<Vars>, r: Ir.State, id: string)
    requires Values(scope, vars, r)
    ensures Lookup(vars, id).Some? <==> Find(scope, id).Some? && Find(scope, id).value.op.Res?
    ensures Lookup(vars, id).Some? ==> SlotOk(Find(scope, id).value, Lookup(vars, id).value, r)
  {
    hide Ir.Lookup, IsArray;
    if scope != [] {
      var n := |scope| - 1;
      assert Level(scope[n], vars[n], r);
      if id !in scope[n] { FindLookup(scope[..n], vars[..n], r, id); }
    }
  }

  // What has a number below n is as it was.
  ghost predicate Same(n: Ir.Id, r: Ir.State, r1: Ir.State) {
    && (forall x: Ir.Id {:trigger Ir.Lookup(r1.env, x)} :: x < n ==> Ir.Lookup(r1.env, x) == Ir.Lookup(r.env, x))
    && (forall x: Ir.Id {:trigger Ir.Lookup(r1.mem, x)} :: x < n ==> Ir.Lookup(r1.mem, x) == Ir.Lookup(r.mem, x))
  }

  lemma ValuesSame(scope: seq<Bindings>, vars: seq<Vars>, r: Ir.State, r1: Ir.State, code: Code, known: Known, n: Ir.Id)
    requires Values(scope, vars, r) && Static(scope, code, known) && Same(n, r, r1) && forall x :: x in code ==> x < n
    ensures Values(scope, vars, r1)
  {
    hide Ir.Lookup, KnownOk;
    forall i | 0 <= i < |scope| ensures Level(scope[i], vars[i], r1) {
      assert Level(scope[i], vars[i], r);
      forall id | id in vars[i] ensures SlotOk(scope[i][id], vars[i][id], r1) {
        assert BindingOk(code, known, id, scope[i][id]);
      }
    }
  }

  // Assigning to a variable.
  lemma {:induction false} UpdateAt(scope: seq<Bindings>, vars: seq<Vars>, id: string, slot: Slot, i: nat)
    requires |vars| == |scope| && i < |scope| && id in scope[i] && id in vars[i] &&
      forall j :: i < j < |scope| ==> id !in vars[j]
    ensures Update(vars, id, slot) == vars[i := vars[i][id := slot]]
    ensures Lookup(vars, id) == Some(vars[i][id])
    decreases |scope|
  {
    var n := |vars| - 1;
    if i < n { UpdateAt(scope[..n], vars[..n], id, slot, i); }
  }

  lemma {:induction false} ValuesUpdate(scope: seq<Bindings>, vars: seq<Vars>, r: Ir.State, r1: Ir.State, code: Code,
      known: Known, id: string, ty: Ty, v: Ir.Val)
    requires Values(scope, vars, r) && Static(scope, code, known) && Find(scope, id).Some? &&
      Find(scope, id).value.op.Res?
    requires Lookup(vars, id).Some? && Lookup(vars, id).value.Cell? && Lookup(vars, id).value.ty == ty
    requires r1.mem == r.mem[Find(scope, id).value.op.id := v] && forall x :: x in code ==>
      Ir.Lookup(r1.env, x) == Ir.Lookup(r.env, x)
    ensures Values(scope, Update(vars, id, Cell(ty, v)), r1)
  {
    hide Static, SlotOk;
    FindIn(scope, id);
    var i :| 0 <= i < |scope| && id in scope[i] && scope[i][id] == Find(scope, id).value &&
      forall j :: i < j < |scope| ==> id !in scope[j];
    assert Level(scope[i], vars[i], r);
    forall j | i < j < |scope| ensures id !in vars[j] { assert Level(scope[j], vars[j], r); }
    UpdateAt(scope, vars, id, Cell(ty, v), i);
    var vars1 := vars[i := vars[i][id := Cell(ty, v)]];
    forall k | 0 <= k < |scope| ensures Level(scope[k], vars1[k], r1) {
      assert Level(scope[k], vars[k], r);
      LevelUpdate(scope, code, known, vars, r, r1, i, id, ty, v, k);
    }
  }

  lemma {:induction false} LevelUpdate(scope: seq<Bindings>, code: Code, known: Known, vars: seq<Vars>, r: Ir.State,
      r1: Ir.State, i: nat, id: string, ty: Ty, v: Ir.Val, k: nat)
    requires Static(scope, code, known) && |vars| == |scope| && i < |scope| && k < |scope| &&
      Level(scope[k], vars[k], r)
    requires id in scope[i] && id in vars[i] && SlotOk(scope[i][id], vars[i][id], r) && vars[i][id].Cell? &&
      vars[i][id].ty == ty
    requires r1.mem == r.mem[scope[i][id].op.id := v] && forall x :: x in code ==>
      Ir.Lookup(r1.env, x) == Ir.Lookup(r.env, x)
    ensures Level(scope[k], vars[i := vars[i][id := Cell(ty, v)]][k], r1)
  {
    hide KnownOk, IsArray, CellType;
    var c := scope[i][id].op.id;
    forall x | x in vars[k] && !(k == i && x == id) ensures SlotOk(scope[k][x], vars[k][x], r1) {
      assert x in scope[k] && id in scope[i];
      assert BindingOk(code, known, x, scope[k][x]);
      assert scope[k][x].op.id != c;
    }
  }

  // ---- A new variable ----

  lemma {:induction false} BindSlot(scope: seq<Bindings>, vars: seq<Vars>, r: Ir.State, r1: Ir.State, code: Code,
      known: Known, id: string, c: Ir.Id, ty: Type, slot: Slot)
    requires Values(scope, vars, r) && Static(scope, code, known) && |scope| > 1
    requires (forall x :: x in code ==> x < c) && Same(c, r, r1) && SlotOk(Value(Ir.Res(c), Ptr(ty)), slot, r1)
    ensures Static(Push(scope, id, Value(Ir.Res(c), Ptr(ty))), code[c := Ir.Instr(Ir.Alloca(CellType(ty)), [])], known)
    ensures Values(Push(scope, id, Value(Ir.Res(c), Ptr(ty))), Bound(vars, id, slot), r1)
    ensures |Push(scope, id, Value(Ir.Res(c), Ptr(ty)))| == |scope|
  {
    hide SlotOk, BindingOk, Same, CellType;
    var code1 := code[c := Ir.Instr(Ir.Alloca(CellType(ty)), [])];
    StaticLater(scope, code, code1, known);
    ValuesSame(scope, vars, r, r1, code, known, c);
    assert Level(scope[|scope| - 1], vars[|scope| - 1], r1);
    if id !in scope[|scope| - 1] {
      BindStatic(scope, code, code1, known, id, c, ty);
      BindValues(scope, vars, r1, id, c, ty, slot);
    }
  }

  lemma {:induction false} BindStatic(scope: seq<Bindings>, code: Code, code1: Code, known: Known, id: string,
      c: Ir.Id, ty: Type)
    requires Static(scope, code, known) && Static(scope, code1, known) && c !in code && scope != [] &&
      id !in scope[|scope| - 1]
    requires code1 == code[c := Ir.Instr(Ir.Alloca(CellType(ty)), [])]
    ensures Static(Push(scope, id, Value(Ir.Res(c), Ptr(ty))), code1, known)
  {
    hide KnownOk, CellType;
    var scope1 := Push(scope, id, Value(Ir.Res(c), Ptr(ty)));
    forall i, x | 0 <= i < |scope1| && x in scope1[i] ensures BindingOk(code1, known, x, scope1[i][x]) {
      if x in scope[i] { assert BindingOk(code1, known, x, scope[i][x]); }
    }
    forall i, x | 0 <= i < |scope| && x in scope[i] ensures scope[i][x].op != Ir.Res(c) {
      assert BindingOk(code, known, x, scope[i][x]);
    }
    forall i, j, x, y | 0 <= i < |scope1| && 0 <= j < |scope1| && x in scope1[i] && y in scope1[j] &&
      scope1[i][x].op == scope1[j][y].op && scope1[i][x].op.Res?
      ensures i == j && x == y
    {
      if x in scope[i] && y in scope[j] { assert scope1[i][x] == scope[i][x] && scope1[j][y] == scope[j][y]; }
    }
  }

  lemma {:induction false} BindValues(scope: seq<Bindings>, vars: seq<Vars>, r: Ir.State, id: string, c: Ir.Id,
      ty: Type, slot: Slot)
    requires Values(scope, vars, r) && scope != [] && id !in scope[|scope| - 1]
    requires SlotOk(Value(Ir.Res(c), Ptr(ty)), slot, r)
    ensures Values(Push(scope, id, Value(Ir.Res(c), Ptr(ty))), Bound(vars, id, slot), r)
  {
    hide SlotOk;
    var scope1, vars1 := Push(scope, id, Value(Ir.Res(c), Ptr(ty))), Bound(vars, id, slot);
    assert Value(Ir.Res(c), Ptr(ty)).op.Res?;
    assert Level(scope[|scope| - 1], vars[|scope| - 1], r);
    forall i | 0 <= i < |scope1| ensures Level(scope1[i], vars1[i], r) {
      assert Level(scope[i], vars[i], r);
    }
  }

  // ---- The state of the builder, of the program and of the run ----

  // What holds at every point between two visits: the builder is in state s, the program in state
  // st, and the code that is run in state r.
  ghost predicate Ready(s: Build, known: Known, st: Memory, r: Ir.State) {
    Sound(s) && Static(s.scope, s.code, known) && Agrees(s.scope, st, r) && s.ret == Lower(known.ret)
  }

  lemma ReadyParts(s: Build, known: Known, st: Memory, r: Ir.State)
    requires Ready(s, known, st, r)
    ensures Sound(s) && Static(s.scope, s.code, known) && Agrees(s.scope, st, r) && r.trace == st.trace
    ensures s.cur in s.lists && s.nextId !in s.code && (forall x :: x in s.code ==> x < s.nextId) && s.scope != []
  {
    hide Sound, Static, Values;
    SoundFacts(s);
  }

  // Code that leaves the variables alone.
  lemma ReadyStep(s: Build, s1: Build, known: Known, st: Memory, r: Ir.State, r1: Ir.State)
    requires Ready(s, known, st, r) && Sound(s1) && SameScope(s, s1) && CodeIn(s.code, s1.code)
    requires Same(s.nextId, r, r1)
    ensures Ready(s1, known, st.(trace := r1.trace), r1)
  {
    hide Sound, Static, Values, Same;
    ReadyParts(s, known, st, r);
    StaticLater(s.scope, s.code, s1.code, known);
    ValuesSame(s.scope, st.scopes, r, r1, s.code, known, s.nextId);
  }

  lemma ReadyLater(s: Build, s1: Build, known: Known, st: Memory, r: Ir.State)
    requires Ready(s, known, st, r) && Sound(s1) && SameScope(s, s1) && CodeIn(s.code, s1.code)
    ensures Ready(s1, known, st, r)
  {
    hide Sound, Static, Values;
    StaticLater(s.scope, s.code, s1.code, known);
  }

  lemma ReadySame(s: Build, s1: Build, known: Known, st: Memory, r: Ir.State)
    requires Ready(s, known, st, r) && SameBlocks(s, s1) && s1.cur == s.cur && SameScope(s, s1)
    ensures Ready(s1, known, st, r)
  {
    hide Static, Values, Grown;
    GrownSame(s, s1);
    GrownSound(s, s1);
  }
}
