/** The code the builder emits for an expression does what the source says. */
module BuilderMeaning {
  import opened Wrappers
  import opened Cfg
  import Ir
  import opened Ast
  import opened Lowering
  import opened BuilderShape
  import opened Runs
  import opened Cminus
  import opened Cells

  // ---- One instruction ----

  lemma LoadStep(w: Ir.World, all: Code, n: Ir.Id, c: Ir.Id, r: Ir.State)
    requires n in all && all[n] == Ir.Instr(Ir.Load, [Ir.Res(c)]) && Ir.CellOf(all, Ir.Res(c)) == Some(c)
    ensures Ir.Step(w, all, n, r) == Ir.Next(r.(env := r.env[n := Ir.Lookup(r.mem, c)]))
  {
  }

  lemma StoreStep(w: Ir.World, all: Code, n: Ir.Id, v: Operand, c: Ir.Id, r: Ir.State)
    requires n in all && all[n] == Ir.Instr(Ir.Store, [v, Ir.Res(c)]) && Ir.CellOf(all, Ir.Res(c)) == Some(c)
    ensures Ir.Step(w, all, n, r) == Ir.Next(r.(mem := r.mem[c := Ir.Eval(w, r.env, v)], env := r.env[n := Ir.Undef]))
  {
  }

  // Instructions that are not observed and no loads of cells.
  ghost predicate Quiet(all: Code, op: Opcode, args: seq<Operand>) {
    op.Pure? || op.Gep? || (op.Load? && |args| == 1 && Ir.CellOf(all, args[0]).None?)
  }

  function ValueOf(w: Ir.World, op: Opcode, vs: Option<seq<int>>, tr: seq<Ir.Event>): Ir.Val {
    if vs.None? then Ir.Undef else Ir.V(w.value(op, vs.value, tr))
  }

  lemma QuietStep(w: Ir.World, all: Code, n: Ir.Id, op: Opcode, args: seq<Operand>, r: Ir.State)
    requires n in all && all[n] == Ir.Instr(op, args) && Quiet(all, op, args)
    ensures Ir.Step(w, all, n, r) ==
              Ir.Next(r.(env := r.env[n := ValueOf(w, op, Ir.EvalAll(w, r.env, args), r.trace)]))
  {
    hide Ir.EvalAll, Ir.CellOf;
  }

  // Such an instruction that the builder appends.
  lemma {:induction false} QuietMeans(w: Ir.World, known: Known, all: Code, s: Build, op: Opcode, args: seq<Operand>,
      ty: Type, st: Memory, r: Ir.State)
    returns (r1: Ir.State)
    requires Ready(s, known, st, r) && CodeIn(Emit(s, op, args).code, all) && Quiet(all, op, args)
    ensures r1 == r.(env := r.env[s.nextId := ValueOf(w, op, Ir.EvalAll(w, r.env, args), r.trace)])
    ensures Emitted(w, all, s, Emit(s, op, args), r, r1) && Ready(Emit(s, op, args), known, st, r1)
    ensures Emitted(w, all, s, EmitValue(s, op, args, ty), r, r1) && Ready(EmitValue(s, op, args, ty), known, st, r1)
    ensures Ir.Eval(w, r1.env, Ir.Res(s.nextId)) == ValueOf(w, op, Ir.EvalAll(w, r.env, args), r.trace)
  {
    hide Ready, CodeIn, Emitted, Ir.Step, Ir.EvalAll, Ir.CellOf, ValueOf, Sound;
    ReadyParts(s, known, st, r);
    var s1, s2 := Emit(s, op, args), EmitValue(s, op, args, ty);
    EmitKept(s, op, args);
    CodeAtIn(s1.code, all, s.nextId);
    QuietStep(w, all, s.nextId, op, args, r);
    r1 := r.(env := r.env[s.nextId := ValueOf(w, op, Ir.EvalAll(w, r.env, args), r.trace)]);
    EmittedOne(w, all, s, op, args, ty, r, r1);
    GrownEmit(s, op, args); GrownFacts(s, s1);
    EmitScope(s, op, args);
    ReadyStep(s, s1, known, st, r, r1);
    ReadySame(s1, s2, known, st, r1);
  }

  // ---- What a name stands for ----

  lemma NameIs(s: Build, known: Known, st: Memory, r: Ir.State, all: Code, id: string)
    requires Ready(s, known, st, r) && Find(s.scope, id).Some? && CodeIn(s.code, all)
    ensures var b := Find(s.scope, id).value;
            && BindingOk(all, known, id, b) && Older(b.op, s.nextId)
            && (Lookup(st.scopes, id).Some? <==> b.op.Res?)
            && (b.op.Res? ==> SlotOk(b, Lookup(st.scopes, id).value, r))
  {
    hide Sound, Static, Values, Lookup, SlotOk, KnownOk;
    ReadyParts(s, known, st, r);
    FindOk(s.scope, s.code, known, id);
    FindLookup(s.scope, st.scopes, r, id);
    var b := Find(s.scope, id).value;
    if b.op.Res? { CodeAtIn(s.code, all, b.op.id); }
  }

  // A cell, or something global.
  lemma CellIs(code: Code, known: Known, id: string, b: Value, slot: Slot, r: Ir.State)
    requires BindingOk(code, known, id, b) && SlotOk(b, slot, r)
    ensures slot.Cell? ==> b.ty == Ptr(Lower(slot.ty)) && Ir.CellOf(code, b.op) == Some(b.op.id)
    ensures slot.Row? ==> IsArray(b.ty, slot.ty) && Ir.CellOf(code, b.op) == None
  {
    LowerPlain(slot.ty);
  }

  // ---- Plain variables ----

  lemma ScalarIs(s: Build, id: string, v: Value, ty: Ty)
    requires Find(s.scope, id) == Some(v) && v.ty == Ptr(Lower(ty))
    ensures VisitVar(s, id, None) == EmitValue(s.(addr := v), Ir.Load, [v.op], Lower(ty))
  {
    hide Find;
    LowerPlain(ty);
  }

  lemma ArrayIs(s: Build, id: string, v: Value, ty: Ty)
    requires Find(s.scope, id) == Some(v) && IsArray(v.ty, ty)
    ensures var s1 := EmitValue(s.(addr := v), Ir.Load, [v.op], v.ty.elem);
            VisitVar(s, id, None) == EmitValue(s1, Ir.Gep, [v.op, Ir.Const(0), Ir.Const(0)], Lower(PtrT(ty)))
  {
    hide Find;
    assert [v.op] + [Ir.Const(0), Ir.Const(0)] == [v.op, Ir.Const(0), Ir.Const(0)];
  }

  ghost predicate ValueIs(w: Ir.World, x: Value, n: Ir.Id, ty: Ty, v: Ir.Val, r: Ir.State) {
    x.ty == Lower(ty) && Older(x.op, n) && Ir.Eval(w, r.env, x.op) == v
  }

  // The value a visit leaves behind.
  ghost predicate Holds(w: Ir.World, s: Build, ty: Ty, v: Ir.Val, r: Ir.State) {
    ValueIs(w, s.value, s.nextId, ty, v, r)
  }

  lemma ReadySound(s: Build, known: Known, st: Memory, r: Ir.State)
    requires Ready(s, known, st, r)
    ensures Sound(s) && r.trace == st.trace
  {
  }

  lemma SlotValue(b: Value, slot: Slot, r: Ir.State)
    requires SlotOk(b, slot, r)
    ensures b.op.Res? && Ir.Lookup(if slot.Cell? then r.mem else r.env, b.op.id) ==
      if slot.Cell? then slot.v else Ir.V(slot.base)
  {
  }

  lemma GlobalIs(known: Known, code: Code, id: string, b: Value)
    requires BindingOk(code, known, id, b) && !b.op.Res? && id in known.names
    ensures KnownOk(known.names[id], b) && Ir.CellOf(code, b.op) == None && b.op == Ir.Global(known.names[id].number)
  {
  }

  // A load from a cell.
  lemma {:induction false} CellMeans(w: Ir.World, known: Known, all: Code, s: Build, c: Ir.Id, ty: Type, st: Memory,
      r: Ir.State) returns (r1: Ir.State)
    requires Ready(s, known, st, r) && CodeIn(Emit(s, Ir.Load, [Ir.Res(c)]).code, all)
    requires Ir.CellOf(all, Ir.Res(c)) == Some(c)
    ensures var s1 := EmitValue(s, Ir.Load, [Ir.Res(c)], ty);
            Emitted(w, all, s, s1, r, r1) && Ready(s1, known, st, r1) &&
              Ir.Eval(w, r1.env, s1.value.op) == Ir.Lookup(r.mem, c)
  {
    hide Ready, CodeIn, Emitted, Ir.Step, Sound, Ir.CellOf;
    ReadyParts(s, known, st, r);
    var s1, s2 := Emit(s, Ir.Load, [Ir.Res(c)]), EmitValue(s, Ir.Load, [Ir.Res(c)], ty);
    EmitKept(s, Ir.Load, [Ir.Res(c)]);
    CodeAtIn(s1.code, all, s.nextId);
    LoadStep(w, all, s.nextId, c, r);
    r1 := r.(env := r.env[s.nextId := Ir.Lookup(r.mem, c)]);
    EmittedOne(w, all, s, Ir.Load, [Ir.Res(c)], ty, r, r1);
    GrownEmit(s, Ir.Load, [Ir.Res(c)]); GrownFacts(s, s1);
    EmitScope(s, Ir.Load, [Ir.Res(c)]);
    ReadyStep(s, s1, known, st, r, r1);
    ReadySame(s1, s2, known, st, r1);
  }

  // A whole array stands for the address of its first element.
  lemma {:induction false} ArrayMeans(w: Ir.World, known: Known, all: Code, s: Build, v: Value, base: int, ty: Ty,
      st: Memory, r: Ir.State) returns (r1: Ir.State)
    requires Ready(s, known, st, r) && IsArray(v.ty, ty) && Ir.CellOf(all, v.op).None? && Older(v.op, s.nextId)
    requires Ir.Eval(w, r.env, v.op) == Ir.V(base)
    requires var s1 := EmitValue(s, Ir.Load, [v.op], v.ty.elem);
      CodeIn(EmitValue(s1, Ir.Gep, [v.op, Ir.Const(0), Ir.Const(0)], Lower(PtrT(ty))).code, all)
    ensures var s1 := EmitValue(s, Ir.Load, [v.op], v.ty.elem);
            var s2 := EmitValue(s1, Ir.Gep, [v.op, Ir.Const(0), Ir.Const(0)], Lower(PtrT(ty)));
            && Emitted(w, all, s, s2, r, r1) && Ready(s2, known, st, r1)
            && Holds(w, s2, PtrT(ty), Place(w, st, [base, 0, 0]), r1)
  {
    hide Ready, CodeIn, Emitted, Ir.EvalAll, Ir.CellOf, Sound;
    var s1 := EmitValue(s, Ir.Load, [v.op], v.ty.elem);
    var idxs := [v.op, Ir.Const(0), Ir.Const(0)];
    var s2 := EmitValue(s1, Ir.Gep, idxs, Lower(PtrT(ty)));
    ReadySound(s, known, st, r);
    GrownEmitValue(s, Ir.Load, [v.op], v.ty.elem); GrownSound(s, s1);
    GrownEmitValue(s1, Ir.Gep, idxs, Lower(PtrT(ty))); GrownFacts(s1, s2);
    CodeInTrans(s1.code, s2.code, all);
    var q := QuietMeans(w, known, all, s, Ir.Load, [v.op], v.ty.elem, st, r);
    r1 := QuietMeans(w, known, all, s1, Ir.Gep, idxs, Lower(PtrT(ty)), st, q);
    EmittedTrans(w, all, s, s1, s2, r, q, r1);
    EmittedBefore(w, all, s, s1, v.op, r, q);
    EvalThree(w, q.env, v.op, Ir.Const(0), Ir.Const(0));
    ReadySound(s1, known, st, q);
    OlderNext(s1.nextId);
  }

  lemma {:induction false} EmittedBefore(w: Ir.World, all: Code, s: Build, s1: Build, a: Operand, r: Ir.State,
      r1: Ir.State)
    requires Emitted(w, all, s, s1, r, r1) && Older(a, s.nextId)
    ensures Ir.Eval(w, r1.env, a) == Ir.Eval(w, r.env, a) && Older(a, s1.nextId)
  {
    hide ExecIds;
  }

  lemma EvalThree(w: Ir.World, env: map<Ir.Id, Ir.Val>, a: Operand, b: Operand, c: Operand)
    ensures Ir.EvalAll(w, env, [a, b, c]) ==
      if Ir.Eval(w, env, a).V? && Ir.Eval(w, env, b).V? && Ir.Eval(w, env, c).V?
      then Some([Ir.Eval(w, env, a).n, Ir.Eval(w, env, b).n, Ir.Eval(w, env, c).n]) else None
  {
    hide Ir.Eval;
    assert [a, b, c][1..] == [b, c];
    EvalTwo(w, env, b, c);
    if Ir.Eval(w, env, a).V? && Ir.Eval(w, env, b).V? && Ir.Eval(w, env, c).V? {
      var x, y, z := Ir.Eval(w, env, a).n, Ir.Eval(w, env, b).n, Ir.Eval(w, env, c).n;
      assert [x] + [y, z] == [x, y, z];
    }
  }

  lemma {:induction false} LocalMeans(w: Ir.World, known: Known, all: Code, s: Build, id: string, v: Value,
      slot: Slot, st: Memory, r: Ir.State) returns (r1: Ir.State)
    requires Ready(s, known, st, r) && Find(s.scope, id) == Some(v) && CodeIn(VisitVar(s, id, None).code, all)
    requires BindingOk(all, known, id, v) && Older(v.op, s.nextId) && SlotOk(v, slot, r) && s.addr == v
    requires Lookup(st.scopes, id) == Some(slot)
    ensures var s1, x := VisitVar(s, id, None), Read(w, known, st, id);
            x.Computed? && Emitted(w, all, s, s1, r, r1) && Ready(s1, known, st, r1) && Holds(w, s1, x.ty, x.v, r1)
  {
    hide Ready, CodeIn, Emitted, Ir.EvalAll, VisitVar, Find, Lookup, BindingOk, SlotOk, Ir.CellOf;
    CellIs(all, known, id, v, slot, r);
    SlotValue(v, slot, r);
    assert s.(addr := v) == s;
    if slot.Cell? {
      ScalarIs(s, id, v, slot.ty);
      r1 := CellMeans(w, known, all, s, v.op.id, Lower(slot.ty), st, r);
      OlderNext(s.nextId);
    } else {
      ArrayIs(s, id, v, slot.ty);
      r1 := ArrayMeans(w, known, all, s, v, slot.base, slot.ty, st, r);
    }
  }

  lemma {:induction false} GlobalMeans(w: Ir.World, known: Known, all: Code, s: Build, id: string, v: Value,
      st: Memory, r: Ir.State) returns (r1: Ir.State)
    requires Ready(s, known, st, r) && Find(s.scope, id) == Some(v) && CodeIn(VisitVar(s, id, None).code, all)
    requires BindingOk(all, known, id, v) && !v.op.Res? && s.addr == v
    requires Lookup(st.scopes, id).None? && Read(w, known, st, id).Computed?
    ensures var s1, x := VisitVar(s, id, None), Read(w, known, st, id);
            Emitted(w, all, s, s1, r, r1) && Ready(s1, known, st, r1) && Holds(w, s1, x.ty, x.v, r1)
  {
    hide Ready, CodeIn, Emitted, Ir.EvalAll, VisitVar, Find, Lookup, BindingOk, Ir.CellOf;
    GlobalIs(known, all, id, v);
    assert s.(addr := v) == s;
    match known.names[id]
    case Shared(number, ty) =>
      ScalarIs(s, id, v, ty);
      EvalOne(w, r.env, v.op);
      r1 := QuietMeans(w, known, all, s, Ir.Load, [v.op], Lower(ty), st, r);
      ReadySound(s, known, st, r);
      OlderNext(s.nextId);
    case SharedArray(number, ty) =>
      ArrayIs(s, id, v, ty);
      r1 := ArrayMeans(w, known, all, s, v, w.global(number), ty, st, r);
    case Fun(_, _, _) =>
  }

  lemma {:induction false} VarMeans(w: Ir.World, known: Known, all: Code, s: Build, id: string, st: Memory,
      r: Ir.State) returns (r1: Ir.State)
    requires Ready(s, known, st, r) && VisitVar(s, id, None).ok && CodeIn(VisitVar(s, id, None).code, all)
    requires Read(w, known, st, id).Computed?
    ensures var s1, x := VisitVar(s, id, None), Read(w, known, st, id);
            && Emitted(w, all, s, s1, r, r1) && Ready(s1, known, st, r1) && Holds(w, s1, x.ty, x.v, r1)
            && Find(s.scope, id) == Some(s1.addr)
  {
    hide Ready, CodeIn, Emitted, VisitVar, Find, Lookup, BindingOk, SlotOk, Holds, Read, Sound, Grown;
    VarFound(s, id);
    var v := Find(s.scope, id).value;
    var s1, s0 := VisitVar(s, id, None), s.(addr := v);
    AddressFirst(s, id, v);
    ReadySound(s, known, st, r);
    VarGrown(s, id, None); GrownFacts(s, s1);
    CodeInTrans(s.code, s1.code, all);
    NameIs(s, known, st, r, all, id);
    SoundFacts(s);
    ReadySame(s, s0, known, st, r);
    if v.op.Res? {
      r1 := LocalMeans(w, known, all, s0, id, v, Lookup(st.scopes, id).value, st, r);
    } else {
      r1 := GlobalMeans(w, known, all, s0, id, v, st, r);
    }
    EmittedSame(w, all, s, s0, r);
    EmittedTrans(w, all, s, s0, s1, r, r, r1);
  }

  lemma {:induction false} AddressFirst(s: Build, id: string, v: Value)
    requires Find(s.scope, id) == Some(v)
    ensures VisitVar(s.(addr := v), id, None) == VisitVar(s, id, None)
    ensures VisitVar(s, id, None).ok ==> VisitVar(s, id, None).addr == v
  {
    hide Find;
  }

  // ---- Conversions ----

  lemma PureWorld(w: Ir.World, op: Ir.PureOp, args: seq<int>, tr: seq<Ir.Event>)
    requires Ir.Arithmetic(w) && Ir.PureResult(w.floats, op, args).Some?
    ensures w.value(Ir.Pure(op), args, tr) == Ir.PureResult(w.floats, op, args).value
  {
  }

  lemma {:induction false} UnaryMeans(w: Ir.World, known: Known, all: Code, s: Build, op: Ir.PureOp, ty: Ty,
      v: Ir.Val, f: int -> int, st: Memory, r: Ir.State) returns (r1: Ir.State)
    requires Ir.Arithmetic(w) && Ready(s, known, st, r) && Ir.Eval(w, r.env, s.value.op) == v
    requires forall n :: Ir.PureResult(w.floats, op, [n]) == Some(f(n))
    requires CodeIn(Emit(s, Ir.Pure(op), [s.value.op]).code, all)
    ensures var s1 := EmitValue(s, Ir.Pure(op), [s.value.op], Lower(ty));
            Emitted(w, all, s, s1, r, r1) && Ready(s1, known, st, r1) && Holds(w, s1, ty, OnValue(f, v), r1)
  {
    hide Ready, CodeIn, Emitted, Ir.EvalAll, Ir.Arithmetic, Ir.Eval, Ir.PureResult;
    r1 := QuietMeans(w, known, all, s, Ir.Pure(op), [s.value.op], Lower(ty), st, r);
    EvalOne(w, r.env, s.value.op);
    if v.V? { PureWorld(w, op, [v.n], r.trace); }
    OlderNext(s.nextId);
  }

  // The value as it is, under another type or with less demanded.
  lemma {:induction false} ConvertedSame(w: Ir.World, known: Known, all: Code, s: Build, s1: Build, ty: Ty, v: Ir.Val,
      st: Memory, r: Ir.State)
    requires Ready(s, known, st, r) && Holds(w, s, ty, v, r) && SameBlocks(s, s1) && s1.cur == s.cur &&
      SameScope(s, s1) && s1.value == s.value
    ensures Emitted(w, all, s, s1, r, r) && Ready(s1, known, st, r) && Holds(w, s1, ty, v, r)
  {
    hide Ready, Emitted, Ir.Eval, Sound;
    ReadyParts(s, known, st, r);
    EmittedSame(w, all, s, s1, r);
    ReadySame(s, s1, known, st, r);
  }

  // The conversions there are.
  lemma ConvertIs(s: Build, ty: Ty, to: Ty)
    requires s.value.ty == Lower(ty)
    ensures var s1 := TypeConvert(s, Lower(to));
            && (ty == to ==> s1 == s)
            && (ty == IntT && to == FloatT ==> s1 == EmitValue(s, Ir.Pure(Ir.SiToFp), [s.value.op], Float))
            && (ty == FloatT && to == IntT ==> s1 == EmitValue(s, Ir.Pure(Ir.FpToSi), [s.value.op], Int32))
            && (ty == TruthT && to == IntT ==> s1 == EmitValue(s, Ir.Pure(Ir.Zext), [s.value.op], Int32))
            && (ty == TruthT && to == FloatT ==>
                 var z := EmitValue(s, Ir.Pure(Ir.Zext), [s.value.op], Int32);
                 s1 == EmitValue(z, Ir.Pure(Ir.SiToFp), [z.value.op], Float))
  {
  }

  lemma {:induction false} ConvertMeans(w: Ir.World, known: Known, all: Code, s: Build, ty: Ty, v: Ir.Val, to: Ty,
      st: Memory, r: Ir.State) returns (r1: Ir.State)
    requires Ir.Arithmetic(w) && Ready(s, known, st, r) && CodeIn(TypeConvert(s, Lower(to)).code, all)
    requires Holds(w, s, ty, v, r) && Convert(w.floats, ty, v, to).Some?
    ensures var s1 := TypeConvert(s, Lower(to));
            && Emitted(w, all, s, s1, r, r1) && Ready(s1, known, st, r1) && s1.ok == s.ok
            && Holds(w, s1, to, Convert(w.floats, ty, v, to).value, r1)
  {
    hide Ready, CodeIn, Emitted, Ir.EvalAll, Ir.Arithmetic, Ir.Eval, TypeConvert, Sound, Grown;
    ConvertIs(s, ty, to);
    if ty == to {
      r1 := r;
      ConvertedSame(w, known, all, s, s, ty, v, st, r);
    } else if ty == IntT {
      r1 := UnaryMeans(w, known, all, s, Ir.SiToFp, FloatT, v, w.floats.ofInt, st, r);
    } else if ty == FloatT {
      r1 := UnaryMeans(w, known, all, s, Ir.FpToSi, IntT, v, w.floats.toInt, st, r);
    } else {
      r1 := WidenMeans(w, known, all, s, v, to, st, r);
    }
  }

  // The outcome of a comparison as a number.
  lemma {:induction false} WidenMeans(w: Ir.World, known: Known, all: Code, s: Build, v: Ir.Val, to: Ty, st: Memory,
      r: Ir.State) returns (r1: Ir.State)
    requires Ir.Arithmetic(w) && Ready(s, known, st, r) && CodeIn(TypeConvert(s, Lower(to)).code, all)
    requires Holds(w, s, TruthT, v, r) && (to == IntT || to == FloatT)
    ensures var s1 := TypeConvert(s, Lower(to));
            && Emitted(w, all, s, s1, r, r1) && Ready(s1, known, st, r1) && s1.ok == s.ok
            && Holds(w, s1, to, Convert(w.floats, TruthT, v, to).value, r1)
  {
    hide Ready, CodeIn, Emitted, Ir.Arithmetic, Holds, TypeConvert, Sound, EmitValue, Emit;
    var z, end := EmitValue(s, Ir.Pure(Ir.Zext), [s.value.op], Int32), TypeConvert(s, Lower(to));
    ReadySound(s, known, st, r);
    HoldsParts(w, s, TruthT, v, r);
    WidenCode(s, to, all);
    r1 := UnaryMeans(w, known, all, s, Ir.Zext, IntT, v, n => n, st, r);
    assert OnValue(n => n, v) == v;
    if to == FloatT {
      var q := r1;
      HoldsParts(w, z, IntT, v, q);
      r1 := UnaryMeans(w, known, all, z, Ir.SiToFp, FloatT, v, w.floats.ofInt, st, q);
      EmittedTrans(w, all, s, z, end, r, q, r1);
    }
  }

  lemma WidenCode(s: Build, to: Ty, all: Code)
    requires Sound(s) && s.value.ty == Int1 && (to == IntT || to == FloatT) &&
      CodeIn(TypeConvert(s, Lower(to)).code, all)
    ensures var z, end := EmitValue(s, Ir.Pure(Ir.Zext), [s.value.op], Int32), TypeConvert(s, Lower(to));
            && end == (if to == IntT then z else EmitValue(z, Ir.Pure(Ir.SiToFp), [z.value.op], Float))
            && end.ok == s.ok && CodeIn(Emit(s, Ir.Pure(Ir.Zext), [s.value.op]).code, all)
            && (to == FloatT ==> CodeIn(Emit(z, Ir.Pure(Ir.SiToFp), [z.value.op]).code, all))
  {
    hide CodeIn, TypeConvert, Sound, Grown, EmitValue;
    ConvertIs(s, TruthT, to);
    var z, end := EmitValue(s, Ir.Pure(Ir.Zext), [s.value.op], Int32), TypeConvert(s, Lower(to));
    EmitOk(s, Ir.Pure(Ir.Zext), [s.value.op], Int32);
    EmitOk(z, Ir.Pure(Ir.SiToFp), [z.value.op], Float);
    GrownEmitValue(s, Ir.Pure(Ir.Zext), [s.value.op], Int32); GrownSound(s, z);
    if to == FloatT {
      GrownEmitValue(z, Ir.Pure(Ir.SiToFp), [z.value.op], Float); GrownFacts(z, end);
      CodeInTrans(z.code, end.code, all);
      EmitOk(z, Ir.Pure(Ir.SiToFp), [z.value.op], Float);
    }
  }

  // ---- Operations on two values ----

  // What an instruction on both values gives, converted to floats unless both are ints.
  ghost function PairValue(w: Ir.World, code: Ir.PureOp, lty: Ty, a: Ir.Val, rty: Ty, b: Ir.Val, tr: seq<Ir.Event>):
      Option<Ir.Val>
  {
    if lty == IntT && rty == IntT then Some(OfTwo(w, code, a, b, tr))
    else
      var x, y := Convert(w.floats, lty, a, FloatT), Convert(w.floats, rty, b, FloatT);
      if x.None? || y.None? then None else Some(OfTwo(w, Floating(code), x.value, y.value, tr))
  }

  ghost function OfTwo(w: Ir.World, code: Ir.PureOp, a: Ir.Val, b: Ir.Val, tr: seq<Ir.Event>): Ir.Val {
    if a.V? && b.V? then Ir.V(w.value(Ir.Pure(code), [a.n, b.n], tr)) else Ir.Undef
  }

  lemma OfTwoIs(w: Ir.World, code: Ir.PureOp, a: Ir.Val, b: Ir.Val, tr: seq<Ir.Event>)
    requires Ir.Arithmetic(w) && (a.V? && b.V? ==> Ir.PureResult(w.floats, code, [a.n, b.n]).Some?)
    ensures OfTwo(w, code, a, b, tr) ==
      if a.V? && b.V? then Ir.V(Ir.PureResult(w.floats, code, [a.n, b.n]).value) else Ir.Undef
  {
    hide Ir.Arithmetic, Ir.PureResult;
    if a.V? && b.V? { PureWorld(w, code, [a.n, b.n], tr); }
  }

  lemma CalculateIs(w: Ir.World, op: ArithOp, lty: Ty, a: Ir.Val, rty: Ty, b: Ir.Val, tr: seq<Ir.Event>)
    requires Ir.Arithmetic(w) && Calculate(w.floats, op, lty, a, rty, b).Computed?
    ensures var o := Calculate(w.floats, op, lty, a, rty, b);
            o.ty == (if lty == IntT && rty == IntT then IntT else FloatT) &&
              PairValue(w, ArithCode(op), lty, a, rty, b, tr) == Some(o.v)
  {
    hide Ir.Arithmetic, OfTwo;
    if lty == IntT && rty == IntT {
      OfTwoIs(w, ArithCode(op), a, b, tr);
    } else {
      var x, y := Convert(w.floats, lty, a, FloatT).value, Convert(w.floats, rty, b, FloatT).value;
      OfTwoIs(w, Floating(ArithCode(op)), x, y, tr);
    }
  }

  lemma RelateIs(w: Ir.World, op: RelOp, lty: Ty, a: Ir.Val, rty: Ty, b: Ir.Val, tr: seq<Ir.Event>)
    requires Ir.Arithmetic(w) && Relate(w.floats, op, lty, a, rty, b).Computed?
    ensures var o := Relate(w.floats, op, lty, a, rty, b);
            o.ty == TruthT && PairValue(w, RelCode(op), lty, a, rty, b, tr) == Some(o.v)
  {
    hide Ir.Arithmetic, OfTwo;
    if lty == IntT && rty == IntT {
      OfTwoIs(w, RelCode(op), a, b, tr);
    } else {
      var x, y := Convert(w.floats, lty, a, FloatT).value, Convert(w.floats, rty, b, FloatT).value;
      OfTwoIs(w, Floating(RelCode(op)), x, y, tr);
    }
  }

  // One instruction on two values.
  lemma {:induction false} TwoMean(w: Ir.World, known: Known, all: Code, s: Build, code: Ir.PureOp, x: Operand,
      y: Operand, ty: Ty, a: Ir.Val, b: Ir.Val, st: Memory, r: Ir.State) returns (r1: Ir.State)
    requires Ready(s, known, st, r) && CodeIn(Emit(s, Ir.Pure(code), [x, y]).code, all)
    requires Ir.Eval(w, r.env, x) == a && Ir.Eval(w, r.env, y) == b
    ensures var s1 := EmitValue(s, Ir.Pure(code), [x, y], Lower(ty));
            Emitted(w, all, s, s1, r, r1) && Ready(s1, known, st, r1) &&
              Holds(w, s1, ty, OfTwo(w, code, a, b, r.trace), r1)
    ensures r1.trace == r.trace
  {
    hide Ready, CodeIn, Emitted, Ir.EvalAll, Ir.Eval;
    r1 := QuietMeans(w, known, all, s, Ir.Pure(code), [x, y], Lower(ty), st, r);
    EvalTwo(w, r.env, x, y);
    OlderNext(s.nextId);
  }

  lemma {:induction false} BinaryMeans(w: Ir.World, known: Known, all: Code, s: Build, code: Ir.PureOp, l: Value,
      rv: Value, ity: Ty, fty: Ty, lty: Ty, a: Ir.Val, rty: Ty, b: Ir.Val, st: Memory, r: Ir.State)
    returns (r1: Ir.State)
    requires Ir.Arithmetic(w) && Ready(s, known, st, r) && PairValue(w, code, lty, a, rty, b, r.trace).Some?
    requires ValueIs(w, l, s.nextId, lty, a, r) && ValueIs(w, rv, s.nextId, rty, b, r)
    requires CodeIn(Binary(s, code, l, rv, Lower(ity), Lower(fty)).code, all)
    ensures var s1 := Binary(s, code, l, rv, Lower(ity), Lower(fty));
            && Emitted(w, all, s, s1, r, r1) && Ready(s1, known, st, r1)
            && Holds(w, s1, if lty == IntT && rty == IntT then ity else fty,
                     PairValue(w, code, lty, a, rty, b, r.trace).value, r1)
  {
    hide Ready, CodeIn, Emitted, Ir.EvalAll, Ir.Eval, Ir.Arithmetic, TypeConvert, OfTwo, Floating;
    LowerOnce(lty, IntT); LowerOnce(rty, IntT);
    if lty == IntT && rty == IntT {
      r1 := TwoMean(w, known, all, s, code, l.op, rv.op, ity, a, b, st, r);
    } else {
      r1 := FloatMeans(w, known, all, s, code, l, rv, fty, lty, a, rty, b, st, r);
    }
  }

  lemma {:induction false} FloatMeans(w: Ir.World, known: Known, all: Code, s: Build, code: Ir.PureOp, l: Value,
      rv: Value, fty: Ty, lty: Ty, a: Ir.Val, rty: Ty, b: Ir.Val, st: Memory, r: Ir.State)
    returns (r1: Ir.State)
    requires Ir.Arithmetic(w) && Ready(s, known, st, r)
    requires Convert(w.floats, lty, a, FloatT).Some? && Convert(w.floats, rty, b, FloatT).Some?
    requires ValueIs(w, l, s.nextId, lty, a, r) && ValueIs(w, rv, s.nextId, rty, b, r)
    requires var s1 := TypeConvert(s.(value := l), Float); var s2 := TypeConvert(s1.(value := rv), Float);
      CodeIn(EmitValue(s2, Ir.Pure(Floating(code)), [s1.value.op, s2.value.op], Lower(fty)).code, all)
    ensures var s1 := TypeConvert(s.(value := l), Float); var s2 := TypeConvert(s1.(value := rv), Float);
            var s3 := EmitValue(s2, Ir.Pure(Floating(code)), [s1.value.op, s2.value.op], Lower(fty));
            && Emitted(w, all, s, s3, r, r1) && Ready(s3, known, st, r1)
            && Holds(w, s3, fty, OfTwo(w, Floating(code), Convert(w.floats, lty, a, FloatT).value,
                                       Convert(w.floats, rty, b, FloatT).value, r.trace), r1)
  {
    hide Ready, CodeIn, Emitted, Ir.EvalAll, Ir.Eval, Ir.Arithmetic, TypeConvert, OfTwo, Floating, Convert, Sound,
      Grown,
      Older;
    var x, y := Convert(w.floats, lty, a, FloatT).value, Convert(w.floats, rty, b, FloatT).value;
    var s0 := s.(value := l);
    var s1 := TypeConvert(s0, Float);
    var s1a := s1.(value := rv);
    var s2 := TypeConvert(s1a, Float);
    var s3 := EmitValue(s2, Ir.Pure(Floating(code)), [s1.value.op, s2.value.op], Lower(fty));
    ReadySound(s, known, st, r);
    GrownSame(s, s0); GrownSound(s, s0);
    TypeConvertGrown(s0, Float); GrownFacts(s0, s1);
    GrownSame(s1, s1a); GrownSound(s1, s1a);
    TypeConvertGrown(s1a, Float); GrownFacts(s1a, s2);
    GrownEmitValue(s2, Ir.Pure(Floating(code)), [s1.value.op, s2.value.op], Lower(fty)); GrownFacts(s2, s3);
    CodeInTrans(s2.code, s3.code, all); CodeInTrans(s1.code, s2.code, all);
    SoundFacts(s); SoundFacts(s1);
    EmittedSame(w, all, s, s0, r);
    ReadySame(s, s0, known, st, r);
    var q1 := ConvertMeans(w, known, all, s0, lty, a, FloatT, st, r);
    EmittedBefore(w, all, s0, s1, rv.op, r, q1);
    EmittedSame(w, all, s1, s1a, q1);
    ReadySame(s1, s1a, known, st, q1);
    var q2 := ConvertMeans(w, known, all, s1a, rty, b, FloatT, st, q1);
    EmittedBefore(w, all, s1a, s2, s1.value.op, q1, q2);
    r1 := TwoMean(w, known, all, s2, Floating(code), s1.value.op, s2.value.op, fty, x, y, st, q2);
    ReadySound(s2, known, st, q2);
    EmittedTrans(w, all, s, s0, s1, r, r, q1); EmittedTrans(w, all, s, s1, s1a, r, q1, q1);
    EmittedTrans(w, all, s, s1a, s2, r, q1, q2); EmittedTrans(w, all, s, s2, s3, r, q2, r1);
  }

  // ---- The check of an index ----

  lemma CheckLists(s: Build, c: Operand)
    requires Sound(s)
    ensures var end, t, f := CheckIndex(s, c), s.nextBlock, s.nextBlock + 1;
            && end.cur == f && end.List(f) == [] && end.List(t) == [s.nextId + 1, s.nextId + 2]
            && end.List(s.cur) == s.List(s.cur) + [s.nextId] && end.nextId == s.nextId + 3
            && t !in s.g.blocks && f !in s.g.blocks && s.cur in s.g.blocks && t != s.cur && f != s.cur
            && t in end.g.blocks && f in end.g.blocks && s.cur in end.g.blocks
  {
    hide Sound, CondBr, NewBlock, Find;
    var t, f := s.nextBlock, s.nextBlock + 1;
    var n2 := NewBlock(NewBlock(s));
    ForkLists(s, c, n2, CondBr(n2, c, t, f), t, f);
    CondBrKept(n2, c, t, f);
    NewNotOld(s, t, f);
    assert t in s.g.blocks + [t, f] && f in s.g.blocks + [t, f];
  }

  // Instructions are numbered upwards.
  ghost predicate Numbered(s: Build) {
    forall x :: x in s.code ==> x < s.nextId
  }

  lemma EmitNumbered(s: Build, op: Opcode, args: seq<Operand>)
    requires Numbered(s)
    ensures var s1 := Emit(s, op, args);
            && Numbered(s1) && CodeIn(s.code, s1.code) && s.nextId in s1.code && s1.code[s.nextId] == Ir.Instr(op, args)
            && s1.nextId == s.nextId + 1 && s1.ok == s.ok
  {
  }

  lemma EdgeCode(s: Build, c: Operand, t: Block, f: Block)
    ensures CondBr(NewBlock(NewBlock(s)), c, t, f).code ==
      Emit(s, Ir.CondBr, [c, Ir.Label(t), Ir.Label(f)]).code
    ensures Br(s, f).code == Emit(s, Ir.Br, [Ir.Label(f)]).code
  {
  }

  lemma CheckCode(s: Build, c: Operand)
    requires Sound(s)
    ensures var end, t, f := CheckIndex(s, c), s.nextBlock, s.nextBlock + 1;
            var callee := if Find(s.scope, HANDLER).Some? then Find(s.scope, HANDLER).value.op else Ir.Const(0);
            && CodeIn(CondBr(NewBlock(NewBlock(s)), c, t, f).code, end.code)
            && s.nextId + 1 in end.code && end.code[s.nextId + 1] == Ir.Instr(Ir.Effect(0), [callee])
            && s.nextId + 2 in end.code && end.code[s.nextId + 2] == Ir.Instr(Ir.Br, [Ir.Label(f)])
    ensures CheckIndex(s, c).ok ==> Find(s.scope, HANDLER).Some?
  {
    hide Sound, Find, CondBr, NewBlock, Br, Emit, CodeIn;
    SoundFacts(s);
    var t, f := s.nextBlock, s.nextBlock + 1;
    var found := Find(s.scope, HANDLER);
    var callee := if found.Some? then found.value.op else Ir.Const(0);
    var s1 := CondBr(NewBlock(NewBlock(s)), c, t, f);
    var s2 := Demand(At(s1, t), found.Some? && found.value.ty.Func? && found.value.ty.params == []);
    var s3 := Emit(s2, Ir.Effect(0), [callee]);
    EmitNumbered(s, Ir.CondBr, [c, Ir.Label(t), Ir.Label(f)]);
    EdgeCode(s, c, t, f);
    CondBrKept(NewBlock(NewBlock(s)), c, t, f);
    NewBlockCode(s); NewBlockCode(NewBlock(s));
    EmitNumbered(s2, Ir.Effect(0), [callee]);
    EmitNumbered(s3, Ir.Br, [Ir.Label(f)]);
    EdgeCode(s3, c, t, f);
    BrKept(s3, f);
    CodeInTrans(s1.code, s3.code, Br(s3, f).code);
    CodeAtIn(s3.code, Br(s3, f).code, s2.nextId);
    assert CheckIndex(s, c) == At(Br(s3, f), f);
  }

  lemma CallStep(w: Ir.World, all: Code, n: Ir.Id, args: seq<Operand>, vs: seq<int>, r: Ir.State)
    requires n in all && all[n] == Ir.Instr(Ir.Effect(0), args) && Ir.EvalAll(w, r.env, args) == Some(vs)
    ensures Ir.Step(w, all, n, r) ==
              Ir.Next(r.(env := r.env[n := Ir.V(w.value(Ir.Effect(0), vs, r.trace))],
                trace := r.trace + [Ir.Event(Ir.Effect(0), vs)]))
  {
    hide Ir.EvalAll;
  }

  // The block that reports: one call, and back.
  lemma HandlerRuns(w: Ir.World, all: Code, n: Ir.Id, g: nat, f: Block, r: Ir.State) returns (r1: Ir.State)
    requires n in all && all[n] == Ir.Instr(Ir.Effect(0), [Ir.Global(g)])
    requires n + 1 in all && all[n + 1] == Ir.Instr(Ir.Br, [Ir.Label(f)])
    ensures Ir.Exec(w, all, [n, n + 1], r) == Ir.Jump(f, r1)
    ensures r1.trace == r.trace + [Ir.Event(Ir.Effect(0), [w.global(g)])] && r1.mem == r.mem && Same(n, r, r1)
  {
    hide Ir.Step, Ir.EvalAll;
    EvalOne(w, r.env, Ir.Global(g));
    CallStep(w, all, n, [Ir.Global(g)], [w.global(g)], r);
    r1 := r.(env := r.env[n := Ir.V(w.value(Ir.Effect(0), [w.global(g)], r.trace))],
      trace := r.trace + [Ir.Event(Ir.Effect(0), [w.global(g)])]);
    assert [n, n + 1][1..] == [n + 1];
    BrStep(w, all, [n + 1], n + 1, f, r1);
  }

  // A negative index is reported by one call, another by none; the run goes on behind the check.
  lemma {:induction false} CheckMeans(w: Ir.World, known: Known, all: Code, lists: Lists, s: Build, c: Operand,
      n: int, st: Memory, r: Ir.State) returns (r1: Ir.State)
    requires Ready(s, known, st, r) && Ir.Eval(w, r.env, c) == Ir.V(Ir.OneIf(n < 0))
    requires CheckIndex(s, c).ok && CodeIn(CheckIndex(s, c).code, all) && Fits(s, CheckIndex(s, c), lists)
    requires Checked(w, known, st, n).Some?
    ensures Reached(w, all, lists, s, CheckIndex(s, c), r, r1)
    ensures Ready(CheckIndex(s, c), known, Checked(w, known, st, n).value, r1)
  {
    hide Ready, Sound, CheckIndex, CondBr, NewBlock, Leads, Fits, CodeIn, Ir.Exec, Ir.Eval, Find, Lookup, Grown, Here,
      Reached, Lowering.At;
    var end, t, f := CheckIndex(s, c), s.nextBlock, s.nextBlock + 1;
    var n2 := NewBlock(NewBlock(s));
    ReadyParts(s, known, st, r);
    CheckLists(s, c);
    CheckCode(s, c);
    CheckGrown(s, c); GrownFacts(s, end);
    CheckScope(s, c);
    FitsAt(s, end, lists, s.cur); FitsAt(s, end, lists, t); FitsAt(s, end, lists, f);
    CodeInTrans(CondBr(n2, c, t, f).code, end.code, all);
    ForkLists(s, c, n2, CondBr(n2, c, t, f), t, f);
    ForkFrom(w, all, lists, n2, c, t, f, r);
    RestSame(n2, s, lists);
    r1 := r;
    if n < 0 {
      CodeAtIn(end.code, all, s.nextId + 1); CodeAtIn(end.code, all, s.nextId + 2);
      CodeInTrans(s.code, end.code, all);
      HandlerIs(w, known, s, st, r, all, n);
      r1 := HandlerRuns(w, all, s.nextId + 1, known.names[HANDLER].number, f, r);
      LeadsJump(w, all, lists, lists[t], r, f, r1);
      LeadsTrans(w, all, lists, Rest(s, lists), r, lists[t], r, lists[f], r1);
    }
    ReadyStep(s, end, known, st, r, r1);
    assert Checked(w, known, st, n).value == st.(trace := r1.trace);
    ReachedAt(w, all, lists, s, end, r, r1);
  }

  lemma HandlerIs(w: Ir.World, known: Known, s: Build, st: Memory, r: Ir.State, all: Code, n: int)
    requires Ready(s, known, st, r) && Find(s.scope, HANDLER).Some? && CodeIn(s.code, all) && n < 0
    requires Checked(w, known, st, n).Some?
    ensures HANDLER in known.names && Find(s.scope, HANDLER).value.op == Ir.Global(known.names[HANDLER].number)
  {
    hide Ready, Find, BindingOk, SlotOk, Lookup, CodeIn;
    NameIs(s, known, st, r, all, HANDLER);
    GlobalIs(known, all, HANDLER, Find(s.scope, HANDLER).value);
  }

  // Behind the check nothing has been appended yet.
  lemma {:induction false} ReachedAt(w: Ir.World, all: Code, lists: Lists, s: Build, end: Build, r: Ir.State,
      r1: Ir.State)
    requires Here(s, lists) && end.cur in lists && end.List(end.cur) == [] && s.nextId <= end.nextId
    requires Same(s.nextId, r, r1) && Leads(w, all, lists, Rest(s, lists), r, lists[end.cur], r1)
    ensures Reached(w, all, lists, s, end, r, r1)
  {
    hide Leads;
    assert lists[end.cur][0..] == lists[end.cur];
  }

  // ---- Elements ----

  // x is the address of something of type ty that is no cell.
  ghost predicate AddressIs(w: Ir.World, all: Code, x: Value, n: Ir.Id, ty: Ty, a: Ir.Val, r: Ir.State) {
    x.ty == Ptr(Lower(ty)) && Older(x.op, n) && Ir.CellOf(all, x.op).None? && Ir.Eval(w, r.env, x.op) == a
  }

  // The address an instruction computes; the value is what it was.
  function AddressTaken(s: Build, args: seq<Operand>, ty: Type): Build {
    var s1 := EmitValue(s, Ir.Gep, args, ty);
    s1.(addr := s1.value, value := s.value)
  }

  lemma {:induction false} TakenMeans(w: Ir.World, known: Known, all: Code, s: Build, args: seq<Operand>, ty: Ty,
      st: Memory, r: Ir.State) returns (r1: Ir.State)
    requires Ready(s, known, st, r) && CodeIn(AddressTaken(s, args, Ptr(Lower(ty))).code, all)
    ensures var s1 := AddressTaken(s, args, Ptr(Lower(ty)));
            && Emitted(w, all, s, s1, r, r1) && Ready(s1, known, st, r1)
            && AddressIs(w, all, s1.addr, s1.nextId, ty, ValueOf(w, Ir.Gep, Ir.EvalAll(w, r.env, args), st.trace), r1)
  {
    hide Ready, CodeIn, Emitted, Ir.EvalAll, Ir.Eval, Sound, Grown;
    var s0, s1 := EmitValue(s, Ir.Gep, args, Ptr(Lower(ty))), AddressTaken(s, args, Ptr(Lower(ty)));
    ReadySound(s, known, st, r);
    GrownEmitValue(s, Ir.Gep, args, Ptr(Lower(ty))); GrownFacts(s, s0);
    r1 := QuietMeans(w, known, all, s, Ir.Gep, args, Ptr(Lower(ty)), st, r);
    EmitKept(s, Ir.Gep, args);
    CodeAtIn(s1.code, all, s.nextId);
    EmittedSame(w, all, s0, s1, r1);
    ReadySame(s0, s1, known, st, r1);
    EmittedTrans(w, all, s, s0, s1, r, r1, r1);
    OlderNext(s.nextId);
  }

  lemma RowElementIs(s: Build, v: Value, idx: Operand, ty: Ty)
    requires IsArray(v.ty, ty)
    ensures ElementAddress(s, v, idx) == AddressTaken(s, [v.op, Ir.Const(0), idx], Ptr(Lower(ty)))
  {
    assert [v.op] + [Ir.Const(0), idx] == [v.op, Ir.Const(0), idx];
  }

  lemma PointerElementIs(s: Build, v: Value, idx: Operand, ty: Ty)
    requires v.ty == Ptr(Ptr(Lower(ty))) && ElementAddress(s, v, idx).ok
    ensures var l := EmitValue(s, Ir.Load, [v.op], Ptr(Lower(ty)));
            ElementAddress(s, v, idx) == AddressTaken(l, [l.value.op, idx], Ptr(Lower(ty))).(value := s.value)
  {
    LowerPlain(ty);
    var l := EmitValue(s, Ir.Load, [v.op], Ptr(Lower(ty)));
    assert [l.value.op] + [idx] == [l.value.op, idx];
  }

  // From an array at a known place.
  lemma {:induction false} RowElement(w: Ir.World, known: Known, all: Code, s: Build, v: Value, base: int, ty: Ty,
      idx: Operand, n: int, st: Memory, r: Ir.State) returns (r1: Ir.State)
    requires Ready(s, known, st, r) && IsArray(v.ty, ty) && Ir.Eval(w, r.env, v.op) == Ir.V(base)
    requires Ir.Eval(w, r.env, idx) == Ir.V(n) && CodeIn(ElementAddress(s, v, idx).code, all)
    ensures var s1 := ElementAddress(s, v, idx);
            && Emitted(w, all, s, s1, r, r1) && Ready(s1, known, st, r1)
            && AddressIs(w, all, s1.addr, s1.nextId, ty, Place(w, st, [base, 0, n]), r1)
  {
    hide Ready, CodeIn, Emitted, Ir.EvalAll, Ir.Eval, ElementAddress, AddressIs, AddressTaken;
    RowElementIs(s, v, idx, ty);
    r1 := TakenMeans(w, known, all, s, [v.op, Ir.Const(0), idx], ty, st, r);
    EvalThree(w, r.env, v.op, Ir.Const(0), idx);
    ConstIs(w, r.env, 0);
  }

  lemma ConstIs(w: Ir.World, env: map<Ir.Id, Ir.Val>, n: int)
    ensures Ir.Eval(w, env, Ir.Const(n)) == Ir.V(n)
  {
  }

  // From an address that has been loaded.
  lemma {:induction false} LoadedElement(w: Ir.World, known: Known, all: Code, s: Build, v: Value, p: Ir.Val, ty: Ty,
      idx: Operand, n: int, st: Memory, r: Ir.State, q: Ir.State) returns (r1: Ir.State)
    requires Ready(s, known, st, r) && v.ty == Ptr(Ptr(Lower(ty))) && ElementAddress(s, v, idx).ok
    requires var l := EmitValue(s, Ir.Load, [v.op], Ptr(Lower(ty)));
      Emitted(w, all, s, l, r, q) && Ready(l, known, st, q) && Ir.Eval(w, q.env, l.value.op) == p
    requires Ir.Eval(w, r.env, idx) == Ir.V(n) && Older(idx, s.nextId) && CodeIn(ElementAddress(s, v, idx).code, all)
    ensures var s1 := ElementAddress(s, v, idx);
            && Emitted(w, all, s, s1, r, r1) && Ready(s1, known, st, r1)
            && AddressIs(w, all, s1.addr, s1.nextId, ty, Behind(w, st, p, n), r1)
  {
    hide Ready, CodeIn, Emitted, Ir.EvalAll, Ir.Eval, ElementAddress, AddressIs, AddressTaken, Older, Sound, Grown;
    var l, s1 := EmitValue(s, Ir.Load, [v.op], Ptr(Lower(ty))), ElementAddress(s, v, idx);
    PointerElementIs(s, v, idx, ty);
    var t := AddressTaken(l, [l.value.op, idx], Ptr(Lower(ty)));
    TakenSame(l, [l.value.op, idx], Ptr(Lower(ty)), s.value);
    r1 := TakenMeans(w, known, all, l, [l.value.op, idx], ty, st, q);
    EmittedBefore(w, all, s, l, idx, r, q);
    EvalTwo(w, q.env, l.value.op, idx);
    ReadySound(t, known, st, r1);
    SoundFacts(t);
    EmittedSame(w, all, t, s1, r1);
    ReadySame(t, s1, known, st, r1);
    EmittedTrans(w, all, s, l, t, r, q, r1); EmittedTrans(w, all, s, t, s1, r, r1, r1);
  }

  lemma TakenSame(s: Build, args: seq<Operand>, ty: Type, x: Value)
    ensures var t := AddressTaken(s, args, ty); var t1 := t.(value := x);
            SameBlocks(t, t1) && t1.cur == t.cur && SameScope(t, t1) && t1.addr == t.addr && t1.nextId == t.nextId &&
              t1.code == t.code
  {
  }

  lemma {:induction false} ElementMeans(w: Ir.World, known: Known, all: Code, s: Build, id: string, v: Value,
      idx: Operand, n: int, st: Memory, r: Ir.State) returns (r1: Ir.State)
    requires Ready(s, known, st, r) && Find(s.scope, id) == Some(v) && CodeIn(s.code, all)
    requires Ir.Eval(w, r.env, idx) == Ir.V(n) && Older(idx, s.nextId) && Element(w, known, st, id, n).Computed?
    requires ElementAddress(s, v, idx).ok && CodeIn(ElementAddress(s, v, idx).code, all)
    ensures var s1, x := ElementAddress(s, v, idx), Element(w, known, st, id, n);
            && Emitted(w, all, s, s1, r, r1) && Ready(s1, known, st, r1)
            && AddressIs(w, all, s1.addr, s1.nextId, x.ty, x.v, r1)
  {
    hide Ready, CodeIn, Emitted, Ir.EvalAll, ElementAddress, AddressIs, Find, Lookup, BindingOk, SlotOk, Ir.CellOf,
      Older, Place, Behind;
    NameIs(s, known, st, r, all, id);
    ReadyParts(s, known, st, r);
    ElementCode(s, v, idx);
    if v.op.Res? {
      var slot := Lookup(st.scopes, id).value;
      CellIs(all, known, id, v, slot, r);
      SlotValue(v, slot, r);
      if slot.Row? {
        r1 := RowElement(w, known, all, s, v, slot.base, slot.ty, idx, n, st, r);
      } else {
        CodeInTrans(EmitValue(s, Ir.Load, [v.op], Ptr(Lower(slot.ty.elem))).code, ElementAddress(s, v, idx).code, all);
        var q := CellMeans(w, known, all, s, v.op.id, Ptr(Lower(slot.ty.elem)), st, r);
        r1 := LoadedElement(w, known, all, s, v, slot.v, slot.ty.elem, idx, n, st, r, q);
      }
    } else {
      GlobalIs(known, all, id, v);
      match known.names[id]
      case SharedArray(number, ty) =>
        r1 := RowElement(w, known, all, s, v, w.global(number), ty, idx, n, st, r);
      case Shared(number, PtrT(ty)) =>
        CodeInTrans(EmitValue(s, Ir.Load, [v.op], Ptr(Lower(ty))).code, ElementAddress(s, v, idx).code, all);
        var q := QuietMeans(w, known, all, s, Ir.Load, [v.op], Ptr(Lower(ty)), st, r);
        EvalOne(w, r.env, v.op);
        r1 := LoadedElement(w, known, all, s, v, Held(w, st, Ir.V(w.global(number))), ty, idx, n, st, r, q);
      case _ =>
    }
  }

  lemma ElementCode(s: Build, v: Value, idx: Operand)
    requires Sound(s)
    ensures v.ty.Ptr? && v.ty.elem.Ptr? ==>
      CodeIn(EmitValue(s, Ir.Load, [v.op], v.ty.elem).code, ElementAddress(s, v, idx).code)
  {
    hide Sound;
    SoundFacts(s);
  }

  // ---- Indexed variables ----

  lemma {:induction false} IndexedIs(s: Build, id: string, e: Expr)
    ensures var v := if Find(s.scope, id).Some? then Find(s.scope, id).value else Value(Ir.Const(0), Void);
            var s1 := VisitExpr(Demand(s, Find(s.scope, id).Some?), e);
            VisitVar(s, id, Some(e)) == LoadVar(IndexAddress(s1, v), v)
  {
    hide Find, VisitExpr, IndexAddress;
  }

  // The parts of the address of an element in the finished function.
  lemma {:induction false} AddressParts(s: Build, v: Value, all: Code, lists: Lists)
    requires Sound(s) && IndexAddress(s, v).ok && CodeIn(IndexAddress(s, v).code, all) &&
      Fits(s, IndexAddress(s, v), lists)
    ensures var c := TypeConvert(s, Int32); var l := Emit(c, Ir.Pure(RelCode(Lt)), [c.value.op, Ir.Const(0)]);
            var k := CheckIndex(l, Ir.Res(c.nextId)); var d := Demand(k, v.ty.Ptr?); var end := IndexAddress(s, v);
            && end == ElementAddress(d, v, c.value.op) && k.ok && d.ok && Sound(c) && Sound(l) && Sound(k) && Sound(d)
            && CodeIn(c.code, all) && CodeIn(l.code, all) && CodeIn(k.code, all) && CodeIn(d.code, all)
            && CodeIn(s.code, all) && Here(s, lists) && Here(l, lists) && Fits(l, k, lists) && Here(k, lists)
            && Here(d, lists) && Here(end, lists)
  {
    hide Sound, CodeIn, Fits, Here, Grown, TypeConvert, CheckIndex, ElementAddress, RelCode, Emit;
    var c := TypeConvert(s, Int32);
    var l := Emit(c, Ir.Pure(RelCode(Lt)), [c.value.op, Ir.Const(0)]);
    var k := CheckIndex(l, Ir.Res(c.nextId));
    var d := Demand(k, v.ty.Ptr?);
    var end := ElementAddress(d, v, c.value.op);
    TypeConvertGrown(s, Int32); GrownFacts(s, c);
    GrownEmit(c, Ir.Pure(RelCode(Lt)), [c.value.op, Ir.Const(0)]); GrownFacts(c, l);
    CheckGrown(l, Ir.Res(c.nextId)); GrownFacts(l, k);
    GrownSame(k, d); GrownFacts(k, d);
    ElementGrown(d, v, c.value.op); GrownFacts(d, end);
    assert end == IndexAddress(s, v);
    CodeInTrans(d.code, end.code, all); CodeInTrans(k.code, d.code, all); CodeInTrans(l.code, k.code, all);
    CodeInTrans(c.code, l.code, all); CodeInTrans(s.code, c.code, all);
    GrownTrans(s, c, l); GrownTrans(s, l, k); GrownTrans(s, k, d);
    FitsFirst(s, d, end, lists); FitsFirst(s, k, d, lists); FitsFirst(s, l, k, lists);
    FitsHere(s, l, lists); FitsHere(l, k, lists); FitsHere(k, d, lists); FitsHere(d, end, lists);
  }

  // From an index to the address of the element.
  lemma {:induction false} AddressMeans(w: Ir.World, known: Known, all: Code, lists: Lists, s: Build, id: string,
      v: Value, ty: Ty, x: Ir.Val, st: Memory, r: Ir.State) returns (r1: Ir.State)
    requires Ir.Arithmetic(w) && Ready(s, known, st, r) && Holds(w, s, ty, x, r) && Find(s.scope, id) == Some(v)
    requires IndexAddress(s, v).ok && CodeIn(IndexAddress(s, v).code, all) && Fits(s, IndexAddress(s, v), lists)
    requires AtIndex(w, known, st, id, ty, x).There?
    ensures var s1, a := IndexAddress(s, v), AtIndex(w, known, st, id, ty, x);
            && Reached(w, all, lists, s, s1, r, r1) && Ready(s1, known, a.st, r1)
            && AddressIs(w, all, s1.addr, s1.nextId, a.ty, a.address, r1)
  {
    hide Ready, Sound, CodeIn, Fits, Here, Grown, TypeConvert, CheckIndex, ElementAddress, RelCode, Ir.Eval, Find,
      Ir.Arithmetic, Reached, Emitted, IndexAddress, AddressIs, Checked, Element, Convert, Holds, Older, Emit;
    var c := TypeConvert(s, Int32);
    var l := Emit(c, Ir.Pure(RelCode(Lt)), [c.value.op, Ir.Const(0)]);
    var k := CheckIndex(l, Ir.Res(c.nextId));
    var d, end := Demand(k, v.ty.Ptr?), IndexAddress(s, v);
    ReadySound(s, known, st, r);
    AddressParts(s, v, all, lists);
    var n := Convert(w.floats, ty, x, IntT).value;
    var st1 := Checked(w, known, st, n.n).value;
    var q1 := ConvertMeans(w, known, all, s, ty, x, IntT, st, r);
    HoldsParts(w, c, IntT, n, q1);
    var q2 := NegativeMeans(w, known, all, c, n.n, st, q1);
    EmittedBefore(w, all, c, l, c.value.op, q1, q2);
    var q3 := CheckMeans(w, known, all, lists, l, Ir.Res(c.nextId), n.n, st, q2);
    ReachedBefore(w, all, lists, l, k, c.value.op, q2, q3);
    DemandSame(k, v.ty.Ptr?);
    ReadySame(k, d, known, st1, q3);
    ScopesKept(s, c, l, k, d);
    r1 := ElementMeans(w, known, all, d, id, v, c.value.op, n.n, st1, q3);
    EmittedTrans(w, all, s, c, l, r, q1, q2);
    ReachedEmitted(w, all, lists, s, l, r, q2);
    ReachedTrans(w, all, lists, s, l, k, r, q2, q3);
    SoundFacts(k);
    EmittedSame(w, all, k, d, q3);
    EmittedTrans(w, all, k, d, end, q3, q3, r1);
    ReachedEmitted(w, all, lists, k, end, q3, r1);
    ReachedTrans(w, all, lists, s, k, end, r, q3, r1);
  }

  lemma HoldsParts(w: Ir.World, s: Build, ty: Ty, v: Ir.Val, r: Ir.State)
    requires Holds(w, s, ty, v, r)
    ensures s.value.ty == Lower(ty) && Older(s.value.op, s.nextId) && Ir.Eval(w, r.env, s.value.op) == v
  {
  }

  // The comparison of an index with zero.
  lemma {:induction false} NegativeMeans(w: Ir.World, known: Known, all: Code, s: Build, n: int, st: Memory,
      r: Ir.State) returns (r1: Ir.State)
    requires Ir.Arithmetic(w) && Ready(s, known, st, r) && Ir.Eval(w, r.env, s.value.op) == Ir.V(n)
    requires CodeIn(Emit(s, Ir.Pure(RelCode(Lt)), [s.value.op, Ir.Const(0)]).code, all)
    ensures var s1 := Emit(s, Ir.Pure(RelCode(Lt)), [s.value.op, Ir.Const(0)]);
            Emitted(w, all, s, s1, r, r1) && Ready(s1, known, st, r1) &&
              Ir.Eval(w, r1.env, Ir.Res(s.nextId)) == Ir.V(Ir.OneIf(n < 0))
  {
    hide Ready, CodeIn, Emitted, Ir.EvalAll, Ir.Eval, Ir.Arithmetic;
    r1 := QuietMeans(w, known, all, s, Ir.Pure(RelCode(Lt)), [s.value.op, Ir.Const(0)], Int1, st, r);
    EvalTwo(w, r.env, s.value.op, Ir.Const(0));
    ConstIs(w, r.env, 0);
    PureWorld(w, RelCode(Lt), [n, 0], r.trace);
  }

  lemma {:induction false} ReachedBefore(w: Ir.World, all: Code, lists: Lists, s: Build, s1: Build, a: Operand,
      r: Ir.State, r1: Ir.State)
    requires Reached(w, all, lists, s, s1, r, r1) && Older(a, s.nextId)
    ensures Ir.Eval(w, r1.env, a) == Ir.Eval(w, r.env, a) && Older(a, s1.nextId)
  {
    hide Leads;
  }

  lemma DemandSame(s: Build, ok: bool)
    ensures var s1 := Demand(s, ok); SameBlocks(s, s1) && s1.cur == s.cur && SameScope(s, s1) && s1.nextId == s.nextId
  {
  }

  lemma {:induction false} ScopesKept(s: Build, c: Build, l: Build, k: Build, d: Build)
    requires c == TypeConvert(s, Int32) && l == Emit(c, Ir.Pure(RelCode(Lt)), [c.value.op, Ir.Const(0)])
    requires k == CheckIndex(l, Ir.Res(c.nextId)) && SameScope(k, d)
    ensures d.scope == s.scope && l.nextId == c.nextId + 1
  {
    hide TypeConvert, CheckIndex;
    ConvertScope(s, Int32);
    CheckScope(l, Ir.Res(c.nextId));
  }

  lemma {:induction false} LoadedMeans(w: Ir.World, known: Known, all: Code, s: Build, v: Value, ty: Ty, a: Ir.Val,
      st: Memory, r: Ir.State) returns (r1: Ir.State)
    requires Ready(s, known, st, r) && AddressIs(w, all, s.addr, s.nextId, ty, a, r) && CodeIn(LoadVar(s, v).code, all)
    ensures var s1 := LoadVar(s, v);
            && Emitted(w, all, s, s1, r, r1) && Ready(s1, known, st, r1) && Holds(w, s1, ty, Held(w, st, a), r1)
            && AddressIs(w, all, s1.addr, s1.nextId, ty, a, r1) && s1.addr == s.addr
  {
    hide Ready, CodeIn, Emitted, Ir.EvalAll, Ir.Eval, Ir.CellOf;
    LowerPlain(ty);
    assert LoadVar(s, v) == EmitValue(s, Ir.Load, [s.addr.op], Lower(ty));
    r1 := QuietMeans(w, known, all, s, Ir.Load, [s.addr.op], Lower(ty), st, r);
    EmittedBefore(w, all, s, LoadVar(s, v), s.addr.op, r, r1);
    EvalOne(w, r.env, s.addr.op);
    ReadySound(s, known, st, r);
    OlderNext(s.nextId);
  }

  // ---- Stores ----

  lemma StoreOut(w: Ir.World, all: Code, n: Ir.Id, v: Operand, a: Operand, r: Ir.State)
    requires n in all && all[n] == Ir.Instr(Ir.Store, [v, a]) && Ir.CellOf(all, a).None?
    requires Ir.Eval(w, r.env, v).V? && Ir.Eval(w, r.env, a).V?
    ensures var vs := [Ir.Eval(w, r.env, v).n, Ir.Eval(w, r.env, a).n];
            Ir.Step(w, all, n, r) == Ir.Next(r.(env := r.env[n := Ir.V(w.value(Ir.Store, vs, r.trace))],
              trace := r.trace + [Ir.Event(Ir.Store, vs)]))
  {
    hide Ir.EvalAll, Ir.CellOf;
    EvalTwo(w, r.env, v, a);
  }

  // A store that is observed.
  lemma {:induction false} StoreOutMeans(w: Ir.World, known: Known, all: Code, s: Build, a: Operand, address: Ir.Val,
      ty: Ty, v: Ir.Val, st: Memory, r: Ir.State) returns (r1: Ir.State)
    requires Ready(s, known, st, r) && CodeIn(Store(s, s.value.op, a).code, all) && Holds(w, s, ty, v, r)
    requires Ir.CellOf(all, a).None? && Ir.Eval(w, r.env, a) == address && Stored(st, address, v).Some?
    ensures var s1 := Store(s, s.value.op, a);
            && Emitted(w, all, s, s1, r, r1) && Ready(s1, known, Stored(st, address, v).value, r1)
            && Holds(w, s1, ty, v, r1)
  {
    hide Ready, CodeIn, Emitted, Ir.Step, Ir.Eval, Ir.CellOf, Sound, Lower;
    var s1 := Store(s, s.value.op, a);
    ReadyParts(s, known, st, r);
    GrownEmit(s, Ir.Store, [s.value.op, a]); GrownFacts(s, s1);
    EmitKept(s, Ir.Store, [s.value.op, a]);
    CodeAtIn(s1.code, all, s.nextId);
    EmitScope(s, Ir.Store, [s.value.op, a]);
    StoreOut(w, all, s.nextId, s.value.op, a, r);
    var vs := [v.n, address.n];
    r1 := r.(env := r.env[s.nextId := Ir.V(w.value(Ir.Store, vs, r.trace))],
      trace := r.trace + [Ir.Event(Ir.Store, vs)]);
    ReadyStep(s, s1, known, st, r, r1);
    EmittedOne(w, all, s, Ir.Store, [s.value.op, a], Int32, r, r1);
    EmittedBefore(w, all, s, s1, s.value.op, r, r1);
  }

  // A store to a local variable.
  lemma {:induction false} StoreCellMeans(w: Ir.World, known: Known, all: Code, s: Build, a: Value, id: string,
      ty: Ty, v: Ir.Val, st: Memory, r: Ir.State) returns (r1: Ir.State)
    requires Ready(s, known, st, r) && CodeIn(Store(s, s.value.op, a.op).code, all) && Holds(w, s, ty, v, r)
    requires Find(s.scope, id) == Some(a) && a.op.Res? && Ir.CellOf(all, a.op) == Some(a.op.id)
    requires Lookup(st.scopes, id).Some? && Lookup(st.scopes, id).value.Cell? && Lookup(st.scopes, id).value.ty == ty
    ensures var s1 := Store(s, s.value.op, a.op);
            && Emitted(w, all, s, s1, r, r1)
            && Ready(s1, known, st.(scopes := Update(st.scopes, id, Cell(ty, v))), r1)
            && Holds(w, s1, ty, v, r1)
  {
    hide Sound, Static, Values, CodeIn, Emitted, Ir.Step, Ir.Eval, Ir.CellOf, Find, Lookup, Update, Lower;
    var s1 := Store(s, s.value.op, a.op);
    ReadyParts(s, known, st, r);
    GrownEmit(s, Ir.Store, [s.value.op, a.op]); GrownFacts(s, s1);
    EmitKept(s, Ir.Store, [s.value.op, a.op]);
    CodeAtIn(s1.code, all, s.nextId);
    EmitScope(s, Ir.Store, [s.value.op, a.op]);
    StoreStep(w, all, s.nextId, s.value.op, a.op.id, r);
    r1 := r.(mem := r.mem[a.op.id := v], env := r.env[s.nextId := Ir.Undef]);
    ValuesUpdate(s.scope, st.scopes, r, r1, s.code, known, id, ty, v);
    StaticLater(s.scope, s.code, s1.code, known);
    EmittedOne(w, all, s, Ir.Store, [s.value.op, a.op], Int32, r, r1);
    EmittedBefore(w, all, s, s1, s.value.op, r, r1);
  }

  // The assignment to a name.
  lemma {:induction false} StoreMeans(w: Ir.World, known: Known, all: Code, s: Build, a: Value, id: string, ty: Ty,
      v: Ir.Val, st: Memory, r: Ir.State) returns (r1: Ir.State)
    requires Ready(s, known, st, r) && CodeIn(Store(s, s.value.op, a.op).code, all) && CodeIn(s.code, all)
    requires Holds(w, s, ty, v, r) && Find(s.scope, id) == Some(a) && a.ty == Ptr(Lower(ty))
    requires Write(w, known, st, id, v).Some?
    ensures var s1 := Store(s, s.value.op, a.op);
            && Emitted(w, all, s, s1, r, r1) && Ready(s1, known, Write(w, known, st, id, v).value, r1)
            && Holds(w, s1, ty, v, r1)
  {
    hide Ready, CodeIn, Emitted, Ir.Eval, Ir.CellOf, Find, Lookup, Update, Holds, BindingOk, SlotOk, Stored;
    NameIs(s, known, st, r, all, id);
    if a.op.Res? {
      var slot := Lookup(st.scopes, id).value;
      CellIs(all, known, id, a, slot, r);
      LowerOnce(slot.ty, ty);
      r1 := StoreCellMeans(w, known, all, s, a, id, ty, v, st, r);
    } else {
      GlobalIs(known, all, id, a);
      GlobalEval(w, r, known.names[id].number);
      r1 := StoreOutMeans(w, known, all, s, a.op, Ir.V(w.global(known.names[id].number)), ty, v, st, r);
    }
  }

  lemma GlobalEval(w: Ir.World, r: Ir.State, g: nat)
    ensures Ir.Eval(w, r.env, Ir.Global(g)) == Ir.V(w.global(g))
  {
  }

  // ---- Assignments ----

  // The value is converted to the type of the variable and stored to it.
  function ConvertStore(s: Build, a: Value, ty: Type): Build {
    var s1 := TypeConvert(Demand(s, a.ty.Ptr?), ty);
    Store(s1, s1.value.op, a.op)
  }

  lemma {:induction false} ConvertStoreGrown(s: Build, a: Value, ty: Type, all: Code)
    requires Sound(s) && CodeIn(ConvertStore(s, a, ty).code, all)
    ensures var s0 := Demand(s, a.ty.Ptr?); var s1 := TypeConvert(s0, ty); var s2 := ConvertStore(s, a, ty);
            && CodeIn(s.code, all) && CodeIn(s0.code, all) && CodeIn(s1.code, all) && (s2.ok ==> s.ok)
            && Grown(s, s2) && s1.scope == s.scope
  {
    hide Sound, CodeIn, TypeConvert, Grown, Emit;
    var s0 := Demand(s, a.ty.Ptr?);
    var s1 := TypeConvert(s0, ty);
    var s2 := ConvertStore(s, a, ty);
    GrownSame(s, s0); GrownFacts(s, s0);
    TypeConvertGrown(s0, ty); GrownFacts(s0, s1);
    GrownEmit(s1, Ir.Store, [s1.value.op, a.op]); GrownFacts(s1, s2);
    CodeInTrans(s1.code, s2.code, all); CodeInTrans(s0.code, s1.code, all);
    GrownTrans(s, s0, s1); GrownTrans(s, s1, s2);
    ConvertScope(s0, ty);
  }

  // Up to the store.
  lemma {:induction false} ConvertedMeans(w: Ir.World, known: Known, all: Code, s: Build, from: Ty, x: Ir.Val, to: Ty,
      ok: bool, st: Memory, r: Ir.State) returns (r1: Ir.State)
    requires Ir.Arithmetic(w) && Ready(s, known, st, r) && Holds(w, s, from, x, r)
    requires Convert(w.floats, from, x, to).Some? && CodeIn(TypeConvert(Demand(s, ok), Lower(to)).code, all)
    ensures var s1 := TypeConvert(Demand(s, ok), Lower(to));
            && Emitted(w, all, s, s1, r, r1) && Ready(s1, known, st, r1)
            && Holds(w, s1, to, Convert(w.floats, from, x, to).value, r1)
  {
    hide Ready, CodeIn, Emitted, Holds, TypeConvert, Convert, Ir.Arithmetic;
    var s0 := Demand(s, ok);
    DemandSame(s, ok);
    ConvertedSame(w, known, all, s, s0, from, x, st, r);
    r1 := ConvertMeans(w, known, all, s0, from, x, to, st, r);
    EmittedTrans(w, all, s, s0, TypeConvert(s0, Lower(to)), r, r, r1);
  }

  // The parts of an assignment in the finished function.
  lemma {:induction false} AssignIs(s: Build, id: string, index: Option<Expr>, e1: Expr)
    ensures var s1 := VisitVar(s, id, index);
            VisitExpr(s, Assign(id, index, e1)) ==
              ConvertStore(VisitExpr(s1, e1), s1.addr, if s1.addr.ty.Ptr? then s1.addr.ty.elem else Void)
  {
    hide VisitVar, TypeConvert, Find, Store;
  }

  lemma {:induction false} AssignParts(s: Build, id: string, index: Option<Expr>, e1: Expr, all: Code, lists: Lists)
    requires Sound(s)
    requires var end := VisitExpr(s, Assign(id, index, e1)); end.ok && CodeIn(end.code, all) && Fits(s, end, lists)
    ensures var s1 := VisitVar(s, id, index); var s2 := VisitExpr(s1, e1);
            var ty := if s1.addr.ty.Ptr? then s1.addr.ty.elem else Void; var end := ConvertStore(s2, s1.addr, ty);
            && VisitExpr(s, Assign(id, index, e1)) == end && Sound(s1) && Sound(s2) && s1.ok && s2.ok
            && CodeIn(s1.code, all) && CodeIn(s2.code, all)
            && CodeIn(TypeConvert(Demand(s2, s1.addr.ty.Ptr?), ty).code, all)
            && Fits(s, s1, lists) && Fits(s1, s2, lists) && Here(s, lists) && Here(s1, lists) && Here(s2, lists)
            && Here(end, lists) && s1.scope == s.scope && s2.scope == s.scope
            && TypeConvert(Demand(s2, s1.addr.ty.Ptr?), ty).scope == s.scope
  {
    hide Sound, CodeIn, Fits, Here, Grown, TypeConvert, ConvertStore, VisitVar, VisitExpr;
    var s1 := VisitVar(s, id, index);
    var s2 := VisitExpr(s1, e1);
    var ty := if s1.addr.ty.Ptr? then s1.addr.ty.elem else Void;
    var end := ConvertStore(s2, s1.addr, ty);
    AssignIs(s, id, index, e1);
    VarGrown(s, id, index); GrownFacts(s, s1);
    ExprGrown(s1, e1); GrownFacts(s1, s2);
    ConvertStoreGrown(s2, s1.addr, ty, all); GrownFacts(s2, end);
    CodeInTrans(s1.code, s2.code, all);
    GrownTrans(s, s1, s2);
    FitsFirst(s, s2, end, lists); FitsFirst(s, s1, s2, lists);
    FitsHere(s, s1, lists); FitsHere(s1, s2, lists); FitsHere(s2, end, lists);
    VarScope(s, id, index); ExprScope(s1, e1);
  }

  lemma TargetIs(w: Ir.World, s: Build, known: Known, st: Memory, r: Ir.State, all: Code, id: string)
    requires Ready(s, known, st, r) && Find(s.scope, id).Some? && CodeIn(s.code, all) && Target(known, st, id).Some?
    ensures Find(s.scope, id).value.ty == Ptr(Lower(Target(known, st, id).value)) && Read(w, known, st, id).Computed?
  {
    hide Ready, CodeIn, Find, Lookup, BindingOk, SlotOk, Ir.CellOf, Lower;
    NameIs(s, known, st, r, all, id);
    var b := Find(s.scope, id).value;
    if b.op.Res? {
      CellIs(all, known, id, b, Lookup(st.scopes, id).value, r);
    } else {
      GlobalIs(known, all, id, b);
    }
  }

  // ---- Calls ----

  // The arguments so far are values of the run in state r.
  ghost predicate ArgsMean(w: Ir.World, n: Ir.Id, r: Ir.State, ops: seq<Operand>, vs: seq<int>) {
    (forall k :: 0 <= k < |ops| ==> Older(ops[k], n)) && Ir.EvalAll(w, r.env, ops) == Some(vs)
  }

  lemma {:induction false} ArgsMore(w: Ir.World, all: Code, lists: Lists, s: Build, s1: Build, r: Ir.State,
      r1: Ir.State, a: Operand, v: int, ops: seq<Operand>, vs: seq<int>)
    requires Reached(w, all, lists, s, s1, r, r1) && Older(a, s.nextId) && Ir.Eval(w, r.env, a) == Ir.V(v) &&
      ArgsMean(w, s1.nextId, r1, ops, vs)
    ensures ArgsMean(w, s1.nextId, r1, [a] + ops, [v] + vs)
  {
    hide Reached, Ir.Eval, Older;
    ReachedBefore(w, all, lists, s, s1, a, r, r1);
    assert ([a] + ops)[1..] == ops;
  }

  lemma EvalCall(w: Ir.World, r: Ir.State, g: nat, n: Ir.Id, ops: seq<Operand>, vs: seq<int>)
    requires ArgsMean(w, n, r, ops, vs)
    ensures Ir.EvalAll(w, r.env, [Ir.Global(g)] + ops) == Some([w.global(g)] + vs)
  {
    assert ([Ir.Global(g)] + ops)[1..] == ops;
  }

  // The call instruction itself.
  lemma {:induction false} CallMeans(w: Ir.World, known: Known, all: Code, s: Build, g: nat, ops: seq<Operand>,
      vs: seq<int>, ty: Ty, st: Memory, r: Ir.State)
    returns (r1: Ir.State)
    requires Ready(s, known, st, r) && ArgsMean(w, s.nextId, r, ops, vs)
    requires CodeIn(EmitValue(s, Ir.Effect(0), [Ir.Global(g)] + ops, Lower(ty)).code, all)
    ensures var s1 := EmitValue(s, Ir.Effect(0), [Ir.Global(g)] + ops, Lower(ty));
            var vs1 := [w.global(g)] + vs;
            && Emitted(w, all, s, s1, r, r1) && Ready(s1, known, Note(st, Ir.Effect(0), vs1), r1)
            && Holds(w, s1, ty, Ir.V(w.value(Ir.Effect(0), vs1, st.trace)), r1)
  {
    hide Ready, CodeIn, Emitted, Ir.Step, Ir.EvalAll, ArgsMean, Sound, Lower;
    var args, vs1 := [Ir.Global(g)] + ops, [w.global(g)] + vs;
    var s0, s1 := Emit(s, Ir.Effect(0), args), EmitValue(s, Ir.Effect(0), args, Lower(ty));
    ReadyParts(s, known, st, r);
    EvalCall(w, r, g, s.nextId, ops, vs);
    EmitKept(s, Ir.Effect(0), args);
    CodeAtIn(s1.code, all, s.nextId);
    CallStep(w, all, s.nextId, args, vs1, r);
    r1 := r.(env := r.env[s.nextId := Ir.V(w.value(Ir.Effect(0), vs1, r.trace))],
      trace := r.trace + [Ir.Event(Ir.Effect(0), vs1)]);
    EmittedOne(w, all, s, Ir.Effect(0), args, Lower(ty), r, r1);
    GrownEmit(s, Ir.Effect(0), args); GrownFacts(s, s0);
    EmitScope(s, Ir.Effect(0), args);
    ReadyStep(s, s0, known, st, r, r1);
    ReadySame(s0, s1, known, Note(st, Ir.Effect(0), vs1), r1);
    OlderNext(s.nextId);
  }

  // ---- Expressions ----

  // What the visit of an expression has to leave behind.
  ghost predicate Means(w: Ir.World, known: Known, all: Code, lists: Lists, s: Build, s1: Build, r: Ir.State,
      r1: Ir.State, ev: Evaluated) {
    && ev.Gives? && Reached(w, all, lists, s, s1, r, r1) && Ready(s1, known, ev.st, r1)
    && Holds(w, s1, ev.ty, ev.v, r1)
  }

  lemma {:induction false} ExprMeans(w: Ir.World, known: Known, all: Code, lists: Lists, s: Build, e: Expr,
      st: Memory, r: Ir.State) returns (r1: Ir.State)
    requires Ir.Arithmetic(w) && Ready(s, known, st, r) && EvalExpr(w, known, st, e).Gives?
    requires var s1 := VisitExpr(s, e); s1.ok && CodeIn(s1.code, all) && Fits(s, s1, lists)
    ensures Means(w, known, all, lists, s, VisitExpr(s, e), r, r1, EvalExpr(w, known, st, e))
    decreases e, 2
  {
    hide Ir.Arithmetic, Ready, CodeIn, Fits, Here, Reached, Emitted, Holds, Grown, Sound, Read, Locate, Held, VisitVar;
    ReadySound(s, known, st, r);
    ExprGrown(s, e);
    FitsHere(s, VisitExpr(s, e), lists);
    match e
    case Num(ty, n) =>
      r1 := r;
      NumMeans(w, known, all, s, if ty.TypeInt? then IntT else FloatT, n, st, r);
      ReachedEmitted(w, all, lists, s, VisitExpr(s, e), r, r1);
    case Var(id, index) =>
      if index.None? {
        r1 := VarMeans(w, known, all, s, id, st, r);
        ReachedEmitted(w, all, lists, s, VisitExpr(s, e), r, r1);
      } else {
        r1 := VarIndexMeans(w, known, all, lists, s, id, index.value, st, r);
      }
    case Assign(id, index, e1) =>
      if index.None? {
        r1 := AssignNameMeans(w, known, all, lists, s, id, e1, st, r);
      } else {
        r1 := AssignElementMeans(w, known, all, lists, s, id, index.value, e1, st, r);
      }
    case Rel(l, op, r0) =>
      r1 := RelMeans(w, known, all, lists, s, l, op, r0, st, r);
    case Arith(l, op, r0) =>
      r1 := ArithMeans(w, known, all, lists, s, l, op, r0, st, r);
    case Call(id, args) =>
      r1 := CallExprMeans(w, known, all, lists, s, id, args, st, r);
  }

  lemma {:induction false} NumMeans(w: Ir.World, known: Known, all: Code, s: Build, ty: Ty, n: int, st: Memory,
      r: Ir.State)
    requires Ready(s, known, st, r)
    ensures var s1 := s.(value := Value(Ir.Const(n), Lower(ty)));
            Emitted(w, all, s, s1, r, r) && Ready(s1, known, st, r) && Holds(w, s1, ty, Ir.V(n), r)
  {
    hide Ready, Emitted, Sound;
    var s1 := s.(value := Value(Ir.Const(n), Lower(ty)));
    ReadyParts(s, known, st, r);
    EmittedSame(w, all, s, s1, r);
    ReadySame(s, s1, known, st, r);
  }

  // The parts of an indexed variable in the finished function.
  lemma {:induction false} IndexedParts(s: Build, id: string, e: Expr, all: Code, lists: Lists)
    requires Sound(s)
    requires var end := VisitVar(s, id, Some(e)); end.ok && CodeIn(end.code, all) && Fits(s, end, lists)
    ensures Find(s.scope, id).Some?
    ensures var s0, v := Demand(s, true), Find(s.scope, id).value; var s1 := VisitExpr(s0, e);
            var s2 := IndexAddress(s1, v); var end := VisitVar(s, id, Some(e));
            && end == LoadVar(s2, v) && s1.ok && s2.ok && Sound(s1) && CodeIn(s1.code, all) && CodeIn(s2.code, all)
            && Fits(s0, s1, lists) && Fits(s1, s2, lists) && Here(s, lists) && Here(s0, lists) && Here(end, lists)
            && s1.scope == s.scope
  {
    hide Sound, CodeIn, Fits, Here, Grown, VisitVar, VisitExpr, IndexAddress, LoadVar, Find;
    var found := Find(s.scope, id).Some?;
    var v := if found then Find(s.scope, id).value else Value(Ir.Const(0), Void);
    var s0 := Demand(s, found);
    var s1 := VisitExpr(s0, e);
    var s2 := IndexAddress(s1, v);
    var end := LoadVar(s2, v);
    IndexedIs(s, id, e);
    GrownSame(s, s0); GrownFacts(s, s0);
    ExprGrown(s0, e); GrownFacts(s0, s1);
    IndexGrown(s1, v); GrownFacts(s1, s2);
    LoadVarGrown(s2, v); GrownFacts(s2, end);
    CodeInTrans(s2.code, end.code, all); CodeInTrans(s1.code, s2.code, all);
    GrownTrans(s, s0, s1); GrownTrans(s, s1, s2);
    FitsFirst(s, s2, end, lists); FitsFirst(s, s1, s2, lists); FitsFirst(s, s0, s1, lists);
    FitsHere(s, s0, lists); FitsHere(s2, end, lists);
    ExprScope(s0, e);
  }

  // An indexed variable: the check, and the element at the place the source means.
  lemma {:induction false} VarIndexMeans(w: Ir.World, known: Known, all: Code, lists: Lists, s: Build, id: string,
      e: Expr, st: Memory, r: Ir.State) returns (r1: Ir.State)
    requires Ir.Arithmetic(w) && Ready(s, known, st, r) && Locate(w, known, st, id, e).There?
    requires var s1 := VisitVar(s, id, Some(e)); s1.ok && CodeIn(s1.code, all) && Fits(s, s1, lists)
    ensures var s1, x := VisitVar(s, id, Some(e)), Locate(w, known, st, id, e);
            && Reached(w, all, lists, s, s1, r, r1) && Ready(s1, known, x.st, r1)
            && Holds(w, s1, x.ty, Held(w, x.st, x.address), r1)
            && AddressIs(w, all, s1.addr, s1.nextId, x.ty, x.address, r1)
    decreases e, 3
  {
    hide Ir.Arithmetic, Ready, CodeIn, Fits, Here, Reached, Emitted, Holds, Grown, Sound, Held, VisitVar, VisitExpr,
      IndexAddress, LoadVar, AddressIs, AtIndex, EvalExpr, Find;
    ReadySound(s, known, st, r);
    IndexedParts(s, id, e, all, lists);
    var s0, v := Demand(s, true), Find(s.scope, id).value;
    var s1 := VisitExpr(s0, e);
    var s2 := IndexAddress(s1, v);
    var end := VisitVar(s, id, Some(e));
    DemandSame(s, true);
    ReadySame(s, s0, known, st, r);
    var ev := EvalExpr(w, known, st, e);
    var q1 := ExprMeans(w, known, all, lists, s0, e, st, r);
    var q2 := AddressMeans(w, known, all, lists, s1, id, v, ev.ty, ev.v, ev.st, q1);
    var x := Locate(w, known, st, id, e);
    r1 := LoadedMeans(w, known, all, s2, v, x.ty, x.address, x.st, q2);
    SoundFacts(s);
    EmittedSame(w, all, s, s0, r);
    ReachedEmitted(w, all, lists, s, s0, r, r);
    ReachedTrans(w, all, lists, s, s0, s1, r, r, q1);
    ReachedTrans(w, all, lists, s, s1, s2, r, q1, q2);
    ReachedEmitted(w, all, lists, s2, end, q2, r1);
    ReachedTrans(w, all, lists, s, s2, end, r, q2, r1);
  }

  // What that comes to when the index is the int n: a negative one is reported by one call, and the
  // address is the n-th from the array, or from the address that is passed for it.
  lemma {:induction false} IndexRuns(w: Ir.World, known: Known, all: Code, lists: Lists, s: Build, id: string,
      e: Expr, n: int, st: Memory, r: Ir.State) returns (r1: Ir.State)
    requires Ir.Arithmetic(w) && Ready(s, known, st, r) && Locate(w, known, st, id, e).There?
    requires EvalExpr(w, known, st, e) == Gives(IntT, Ir.V(n), st)
    requires var s1 := VisitVar(s, id, Some(e)); s1.ok && CodeIn(s1.code, all) && Fits(s, s1, lists)
    ensures Here(s, lists) && Here(VisitVar(s, id, Some(e)), lists)
    ensures Leads(w, all, lists, Rest(s, lists), r, Rest(VisitVar(s, id, Some(e)), lists), r1)
    ensures n >= 0 ==> r1.trace == r.trace
    ensures n < 0 ==> HANDLER in known.names && known.names[HANDLER].Fun?
    ensures n < 0 ==> r1.trace == r.trace + [Ir.Event(Ir.Effect(0), [w.global(known.names[HANDLER].number)])]
    ensures var a := Ir.Eval(w, r1.env, VisitVar(s, id, Some(e)).addr.op);
            match Lookup(st.scopes, id)
            case Some(Row(_, base)) => a == Ir.V(w.value(Ir.Gep, [base, 0, n], r1.trace))
            case Some(Cell(_, p)) => a == if p.V? then Ir.V(w.value(Ir.Gep, [p.n, n], r1.trace)) else Ir.Undef
            case None => true
  {
    hide *;
    var end, x := VisitVar(s, id, Some(e)), Locate(w, known, st, id, e);
    r1 := VarIndexMeans(w, known, all, lists, s, id, e, st, r);
    ReachedLeads(w, all, lists, s, end, r, r1);
    IndexGives(w, known, id, e, n, st);
    AddressValue(w, all, end.addr, end.nextId, x.ty, x.address, r1);
    ReadySound(s, known, st, r);
    ReadySound(end, known, x.st, r1);
  }

  lemma AddressValue(w: Ir.World, all: Code, x: Value, n: Ir.Id, ty: Ty, a: Ir.Val, r: Ir.State)
    requires AddressIs(w, all, x, n, ty, a, r)
    ensures Ir.Eval(w, r.env, x.op) == a
  {
  }

  lemma IndexGives(w: Ir.World, known: Known, id: string, e: Expr, n: int, st: Memory)
    requires Locate(w, known, st, id, e).There? && EvalExpr(w, known, st, e) == Gives(IntT, Ir.V(n), st)
    ensures var x := Locate(w, known, st, id, e);
            && (n >= 0 ==> x.st.trace == st.trace)
            && (n < 0 ==> HANDLER in known.names && known.names[HANDLER].Fun?)
            && (n < 0 ==>
                 x.st.trace == st.trace + [Ir.Event(Ir.Effect(0), [w.global(known.names[HANDLER].number)])])
            && match Lookup(st.scopes, id)
               case Some(Row(_, base)) => x.address == Ir.V(w.value(Ir.Gep, [base, 0, n], x.st.trace))
               case Some(Cell(_, p)) =>
                 x.address == if p.V? then Ir.V(w.value(Ir.Gep, [p.n, n], x.st.trace)) else Ir.Undef
               case None => true
  {
    hide EvalExpr, Lookup;
  }

  lemma {:induction false} AssignNameMeans(w: Ir.World, known: Known, all: Code, lists: Lists, s: Build, id: string,
      e1: Expr, st: Memory, r: Ir.State) returns (r1: Ir.State)
    requires Ir.Arithmetic(w) && Ready(s, known, st, r) && EvalExpr(w, known, st, Assign(id, None, e1)).Gives?
    requires var s1 := VisitExpr(s, Assign(id, None, e1)); s1.ok && CodeIn(s1.code, all) && Fits(s, s1, lists)
    ensures Means(w, known, all, lists, s, VisitExpr(s, Assign(id, None, e1)), r, r1,
      EvalExpr(w, known, st, Assign(id, None, e1)))
    decreases Assign(id, None, e1), 1
  {
    hide Ir.Arithmetic, Ready, CodeIn, Fits, Here, Reached, Emitted, Holds, Grown, Sound, VisitVar, VisitExpr, EvalExpr,
      Find, TypeConvert, Convert, Write, Read, Target, Demand, Store;
    ReadySound(s, known, st, r);
    AssignParts(s, id, None, e1, all, lists);
    AssignNameGives(w, known, id, e1, st);
    var s1 := VisitVar(s, id, None);
    var s2 := VisitExpr(s1, e1);
    var end := VisitExpr(s, Assign(id, None, e1));
    var to := Target(known, st, id).value;
    var ev := EvalExpr(w, known, st, e1);
    VarFound(s, id);
    CodeInEarlier(s, id, None, all);
    TargetIs(w, s, known, st, r, all, id);
    var q1 := VarMeans(w, known, all, s, id, st, r);
    var q2 := ExprMeans(w, known, all, lists, s1, e1, st, q1);
    ReachedEmitted(w, all, lists, s, s1, r, q1);
    ReachedTrans(w, all, lists, s, s1, s2, r, q1, q2);
    var c := TypeConvert(Demand(s2, true), Lower(to));
    var q3 := ConvertedMeans(w, known, all, s2, ev.ty, ev.v, to, true, ev.st, q2);
    r1 := StoreMeans(w, known, all, c, s1.addr, id, to, Convert(w.floats, ev.ty, ev.v, to).value, ev.st, q3);
    EmittedTrans(w, all, s2, c, end, q2, q3, r1);
    ReachedEmitted(w, all, lists, s2, end, q2, r1);
    ReachedTrans(w, all, lists, s, s2, end, r, q2, r1);
  }

  lemma AssignNameGives(w: Ir.World, known: Known, id: string, e1: Expr, st: Memory)
    requires EvalExpr(w, known, st, Assign(id, None, e1)).Gives?
    ensures var ev, to := EvalExpr(w, known, st, e1), Target(known, st, id);
            && ev.Gives? && to.Some? && Convert(w.floats, ev.ty, ev.v, to.value).Some?
            && var v := Convert(w.floats, ev.ty, ev.v, to.value).value;
               Write(w, known, ev.st, id, v).Some? &&
                 EvalExpr(w, known, st, Assign(id, None, e1)) == Gives(to.value, v, Write(w, known, ev.st, id, v).value)
  {
    hide Target, Convert, Write;
  }

  lemma CodeInEarlier(s: Build, id: string, index: Option<Expr>, all: Code)
    requires Sound(s) && CodeIn(VisitVar(s, id, index).code, all)
    ensures CodeIn(s.code, all)
  {
    hide Sound, CodeIn, VisitVar, Grown;
    VarGrown(s, id, index); GrownFacts(s, VisitVar(s, id, index));
    CodeInTrans(s.code, VisitVar(s, id, index).code, all);
  }

  lemma {:induction false} AssignElementMeans(w: Ir.World, known: Known, all: Code, lists: Lists, s: Build,
      id: string, e: Expr, e1: Expr, st: Memory, r: Ir.State) returns (r1: Ir.State)
    requires Ir.Arithmetic(w) && Ready(s, known, st, r) && EvalExpr(w, known, st, Assign(id, Some(e), e1)).Gives?
    requires var s1 := VisitExpr(s, Assign(id, Some(e), e1)); s1.ok && CodeIn(s1.code, all) && Fits(s, s1, lists)
    ensures Means(w, known, all, lists, s, VisitExpr(s, Assign(id, Some(e), e1)), r, r1,
      EvalExpr(w, known, st, Assign(id, Some(e), e1)))
    decreases Assign(id, Some(e), e1), 1
  {
    hide Ir.Arithmetic, Ready, CodeIn, Fits, Here, Reached, Emitted, Holds, Grown, Sound, VisitVar, VisitExpr, EvalExpr,
      Find, TypeConvert, Convert, Stored, Locate, Demand, Store, Held;
    ReadySound(s, known, st, r);
    AssignParts(s, id, Some(e), e1, all, lists);
    AssignElementGives(w, known, id, e, e1, st);
    var s1 := VisitVar(s, id, Some(e));
    var s2 := VisitExpr(s1, e1);
    var end := VisitExpr(s, Assign(id, Some(e), e1));
    var x := Locate(w, known, st, id, e);
    var ev := EvalExpr(w, known, x.st, e1);
    var q1 := VarIndexMeans(w, known, all, lists, s, id, e, st, r);
    var q2 := ExprMeans(w, known, all, lists, s1, e1, x.st, q1);
    ReachedTrans(w, all, lists, s, s1, s2, r, q1, q2);
    var c := TypeConvert(Demand(s2, true), Lower(x.ty));
    var q3 := ConvertedMeans(w, known, all, s2, ev.ty, ev.v, x.ty, true, ev.st, q2);
    ReachedBefore(w, all, lists, s1, s2, s1.addr.op, q1, q2);
    EmittedBefore(w, all, s2, c, s1.addr.op, q2, q3);
    r1 := StoreOutMeans(w, known, all, c, s1.addr.op, x.address, x.ty, Convert(w.floats, ev.ty, ev.v, x.ty).value,
      ev.st,
      q3);
    EmittedTrans(w, all, s2, c, end, q2, q3, r1);
    ReachedEmitted(w, all, lists, s2, end, q2, r1);
    ReachedTrans(w, all, lists, s, s2, end, r, q2, r1);
  }

  lemma AssignElementGives(w: Ir.World, known: Known, id: string, e: Expr, e1: Expr, st: Memory)
    requires EvalExpr(w, known, st, Assign(id, Some(e), e1)).Gives?
    ensures var x := Locate(w, known, st, id, e);
            x.There? && var ev := EvalExpr(w, known, x.st, e1);
            && ev.Gives? && Convert(w.floats, ev.ty, ev.v, x.ty).Some?
            && var v := Convert(w.floats, ev.ty, ev.v, x.ty).value;
               Stored(ev.st, x.address, v).Some? &&
                 EvalExpr(w, known, st, Assign(id, Some(e), e1)) == Gives(x.ty, v, Stored(ev.st, x.address, v).value)
  {
    hide Locate, Convert, Stored;
  }

  // Two operands, evaluated one after the other.
  lemma {:induction false} BothMean(w: Ir.World, known: Known, all: Code, lists: Lists, s: Build, e: Expr, l: Expr,
      r0: Expr, st: Memory, r: Ir.State)
    returns (q: Ir.State)
    requires (e.Rel? && e.l == l && e.r == r0) || (e.Arith? && e.l == l && e.r == r0)
    requires Ir.Arithmetic(w) && Ready(s, known, st, r)
    requires EvalExpr(w, known, st, l).Gives? && EvalExpr(w, known, EvalExpr(w, known, st, l).st, r0).Gives?
    requires var s2 := VisitExpr(VisitExpr(s, l), r0); s2.ok && CodeIn(s2.code, all) && Fits(s, s2, lists)
    ensures var s1 := VisitExpr(s, l); var s2 := VisitExpr(s1, r0);
            var a := EvalExpr(w, known, st, l); var b := EvalExpr(w, known, a.st, r0);
            && Reached(w, all, lists, s, s2, r, q) && Ready(s2, known, b.st, q)
            && ValueIs(w, s1.value, s2.nextId, a.ty, a.v, q) && ValueIs(w, s2.value, s2.nextId, b.ty, b.v, q)
    decreases e, 0
  {
    hide Ir.Arithmetic, Ready, CodeIn, Fits, Here, Reached, Emitted, Grown, Sound, VisitExpr, EvalExpr, Older, Ir.Eval;
    var s1 := VisitExpr(s, l);
    var s2 := VisitExpr(s1, r0);
    ReadySound(s, known, st, r);
    ExprGrown(s, l); GrownFacts(s, s1);
    ExprGrown(s1, r0); GrownFacts(s1, s2);
    CodeInTrans(s1.code, s2.code, all);
    FitsFirst(s, s1, s2, lists);
    var q1 := ExprMeans(w, known, all, lists, s, l, st, r);
    q := ExprMeans(w, known, all, lists, s1, r0, EvalExpr(w, known, st, l).st, q1);
    ReachedBefore(w, all, lists, s1, s2, s1.value.op, q1, q);
    ReachedTrans(w, all, lists, s, s1, s2, r, q1, q);
  }

  // The parts of an operation in the finished function.
  lemma {:induction false} PairParts(s: Build, l: Expr, r0: Expr, code: Ir.PureOp, ity: Type, fty: Type, all: Code,
      lists: Lists)
    requires Sound(s)
    requires var s1 := VisitExpr(s, l); var s2 := VisitExpr(s1, r0);
             var end := Binary(s2, code, s1.value, s2.value, ity, fty);
             end.ok && CodeIn(end.code, all) && Fits(s, end, lists)
    ensures var s1 := VisitExpr(s, l); var s2 := VisitExpr(s1, r0);
            var end := Binary(s2, code, s1.value, s2.value, ity, fty);
            s2.ok && CodeIn(s2.code, all) && Fits(s, s2, lists) && Here(end, lists)
  {
    hide CodeIn, Fits, Here, Grown, Sound, VisitExpr, Binary;
    var s1 := VisitExpr(s, l);
    var s2 := VisitExpr(s1, r0);
    var end := Binary(s2, code, s1.value, s2.value, ity, fty);
    ExprGrown(s, l); GrownFacts(s, s1);
    ExprGrown(s1, r0); GrownFacts(s1, s2);
    BinaryGrown(s2, code, s1.value, s2.value, ity, fty); GrownFacts(s2, end);
    CodeInTrans(s2.code, end.code, all);
    GrownTrans(s, s1, s2);
    FitsFirst(s, s2, end, lists);
    FitsHere(s2, end, lists);
  }

  lemma {:induction false} PairIs(s: Build, l: Expr, rop: RelOp, aop: ArithOp, r0: Expr)
    ensures var s1 := VisitExpr(s, l); var s2 := VisitExpr(s1, r0);
            && VisitExpr(s, Rel(l, rop, r0)) == Binary(s2, RelCode(rop), s1.value, s2.value, Int1, Int1)
            && VisitExpr(s, Arith(l, aop, r0)) == Binary(s2, ArithCode(aop), s1.value, s2.value, Int32, Float)
  {
    hide Binary, RelCode, ArithCode, VisitVar, VisitArgs, TypeConvert, Find, Lowering.Store, EmitValue;
  }

  lemma RelGives(w: Ir.World, known: Known, l: Expr, op: RelOp, r0: Expr, st: Memory)
    requires EvalExpr(w, known, st, Rel(l, op, r0)).Gives?
    ensures var a := EvalExpr(w, known, st, l);
            a.Gives? && (var b := EvalExpr(w, known, a.st, r0);
                         b.Gives? && Relate(w.floats, op, a.ty, a.v, b.ty, b.v).Computed? &&
                           EvalExpr(w, known, st, Rel(l, op, r0)) ==
                           Resulting(Relate(w.floats, op, a.ty, a.v, b.ty, b.v), b.st))
  {
    hide Relate;
  }

  lemma ArithGives(w: Ir.World, known: Known, l: Expr, op: ArithOp, r0: Expr, st: Memory)
    requires EvalExpr(w, known, st, Arith(l, op, r0)).Gives?
    ensures var a := EvalExpr(w, known, st, l);
            a.Gives? && (var b := EvalExpr(w, known, a.st, r0);
                         b.Gives? && Calculate(w.floats, op, a.ty, a.v, b.ty, b.v).Computed? &&
                           EvalExpr(w, known, st, Arith(l, op, r0)) ==
                           Resulting(Calculate(w.floats, op, a.ty, a.v, b.ty, b.v), b.st))
  {
    hide Calculate;
  }

  lemma {:induction false} RelMeans(w: Ir.World, known: Known, all: Code, lists: Lists, s: Build, l: Expr, op: RelOp,
      r0: Expr, st: Memory, r: Ir.State) returns (r1: Ir.State)
    requires Ir.Arithmetic(w) && Ready(s, known, st, r) && EvalExpr(w, known, st, Rel(l, op, r0)).Gives?
    requires var s1 := VisitExpr(s, Rel(l, op, r0)); s1.ok && CodeIn(s1.code, all) && Fits(s, s1, lists)
    ensures Means(w, known, all, lists, s, VisitExpr(s, Rel(l, op, r0)), r, r1,
      EvalExpr(w, known, st, Rel(l, op, r0)))
    decreases Rel(l, op, r0), 1
  {
    hide Ir.Arithmetic, Ready, CodeIn, Fits, Here, Reached, Emitted, Holds, ValueIs, Grown, Sound, VisitExpr, EvalExpr,
      Binary, Relate, PairValue, RelCode;
    PairIs(s, l, op, Plus, r0);
    RelGives(w, known, l, op, r0, st);
    var s1 := VisitExpr(s, l);
    var s2 := VisitExpr(s1, r0);
    var end := VisitExpr(s, Rel(l, op, r0));
    ReadySound(s, known, st, r);
    PairParts(s, l, r0, RelCode(op), Int1, Int1, all, lists);
    var a := EvalExpr(w, known, st, l);
    var b := EvalExpr(w, known, a.st, r0);
    var q := BothMean(w, known, all, lists, s, Rel(l, op, r0), l, r0, st, r);
    RelateIs(w, op, a.ty, a.v, b.ty, b.v, q.trace);
    r1 := BinaryMeans(w, known, all, s2, RelCode(op), s1.value, s2.value, TruthT, TruthT, a.ty, a.v, b.ty, b.v, b.st,
      q);
    ReachedEmitted(w, all, lists, s2, end, q, r1);
    ReachedTrans(w, all, lists, s, s2, end, r, q, r1);
  }

  lemma {:induction false} ArithMeans(w: Ir.World, known: Known, all: Code, lists: Lists, s: Build, l: Expr,
      op: ArithOp, r0: Expr, st: Memory, r: Ir.State) returns (r1: Ir.State)
    requires Ir.Arithmetic(w) && Ready(s, known, st, r) && EvalExpr(w, known, st, Arith(l, op, r0)).Gives?
    requires var s1 := VisitExpr(s, Arith(l, op, r0)); s1.ok && CodeIn(s1.code, all) && Fits(s, s1, lists)
    ensures Means(w, known, all, lists, s, VisitExpr(s, Arith(l, op, r0)), r, r1,
      EvalExpr(w, known, st, Arith(l, op, r0)))
    decreases Arith(l, op, r0), 1
  {
    hide Ir.Arithmetic, Ready, CodeIn, Fits, Here, Reached, Emitted, Holds, ValueIs, Grown, Sound, VisitExpr, EvalExpr,
      Binary, Calculate, PairValue, ArithCode;
    PairIs(s, l, Le, op, r0);
    ArithGives(w, known, l, op, r0, st);
    var s1 := VisitExpr(s, l);
    var s2 := VisitExpr(s1, r0);
    var end := VisitExpr(s, Arith(l, op, r0));
    ReadySound(s, known, st, r);
    PairParts(s, l, r0, ArithCode(op), Int32, Float, all, lists);
    var a := EvalExpr(w, known, st, l);
    var b := EvalExpr(w, known, a.st, r0);
    var q := BothMean(w, known, all, lists, s, Arith(l, op, r0), l, r0, st, r);
    CalculateIs(w, op, a.ty, a.v, b.ty, b.v, q.trace);
    r1 := BinaryMeans(w, known, all, s2, ArithCode(op), s1.value, s2.value, IntT, FloatT, a.ty, a.v, b.ty, b.v, b.st,
      q);
    ReachedEmitted(w, all, lists, s2, end, q, r1);
    ReachedTrans(w, all, lists, s, s2, end, r, q, r1);
  }

  lemma {:induction false} CallParts(s: Build, id: string, args: seq<Expr>, f: Value, all: Code, lists: Lists)
    requires Sound(s) && Find(s.scope, id) == Some(f) && f.ty.Func? && |f.ty.params| == |args|
    requires var end := VisitExpr(s, Call(id, args)); end.ok && CodeIn(end.code, all) && Fits(s, end, lists)
    ensures var s1 := Demand(s, true); var (s2, ops) := VisitArgs(s1, args, f.ty.params);
            var end := VisitExpr(s, Call(id, args));
            && end == EmitValue(s2, Ir.Effect(0), [f.op] + ops, f.ty.ret) && s2.ok && CodeIn(s2.code, all)
            && Fits(s1, s2, lists) && Here(s, lists) && Here(s1, lists) && Here(end, lists)
  {
    hide Sound, CodeIn, Fits, Here, Grown, VisitArgs, Find;
    var s1 := Demand(s, true);
    var (s2, ops) := VisitArgs(s1, args, f.ty.params);
    var end := EmitValue(s2, Ir.Effect(0), [f.op] + ops, f.ty.ret);
    GrownSame(s, s1); GrownFacts(s, s1);
    ArgsGrown(s1, args, f.ty.params); GrownFacts(s1, s2);
    GrownEmitValue(s2, Ir.Effect(0), [f.op] + ops, f.ty.ret); GrownFacts(s2, end);
    CodeInTrans(s2.code, end.code, all);
    GrownTrans(s, s1, s2);
    FitsFirst(s, s2, end, lists); FitsFirst(s, s1, s2, lists);
    FitsHere(s, s1, lists); FitsHere(s2, end, lists);
  }

  lemma {:induction false} CallExprMeans(w: Ir.World, known: Known, all: Code, lists: Lists, s: Build, id: string,
      args: seq<Expr>, st: Memory, r: Ir.State) returns (r1: Ir.State)
    requires Ir.Arithmetic(w) && Ready(s, known, st, r) && EvalExpr(w, known, st, Call(id, args)).Gives?
    requires var s1 := VisitExpr(s, Call(id, args)); s1.ok && CodeIn(s1.code, all) && Fits(s, s1, lists)
    ensures Means(w, known, all, lists, s, VisitExpr(s, Call(id, args)), r, r1,
      EvalExpr(w, known, st, Call(id, args)))
    decreases Call(id, args), 1
  {
    hide Ir.Arithmetic, Ready, CodeIn, Fits, Here, Reached, Emitted, Holds, Grown, Sound, VisitArgs, VisitExpr,
      EvalArgs,
      ArgsMean, Find, Lookup;
    ReadySound(s, known, st, r);
    ExprGrown(s, Call(id, args)); GrownFacts(s, VisitExpr(s, Call(id, args)));
    CodeInTrans(s.code, VisitExpr(s, Call(id, args)).code, all);
    CallFound(s, id, args);
    var f := Find(s.scope, id).value;
    NameIs(s, known, st, r, all, id);
    GlobalIs(known, all, id, f);
    var g := known.names[id];
    CallParts(s, id, args, f, all, lists);
    var s1 := Demand(s, true);
    var (s2, ops) := VisitArgs(s1, args, f.ty.params);
    var end := VisitExpr(s, Call(id, args));
    DemandSame(s, true);
    ReadySame(s, s1, known, st, r);
    var q := ArgsDo(w, known, all, lists, s1, args, g.params, st, r);
    var vs := EvalArgs(w, known, st, args, g.params);
    r1 := CallMeans(w, known, all, s2, g.number, ops, vs.vs, g.ret, vs.st, q);
    SoundFacts(s);
    EmittedSame(w, all, s, s1, r);
    ReachedEmitted(w, all, lists, s, s1, r, r);
    ReachedTrans(w, all, lists, s, s1, s2, r, r, q);
    ReachedEmitted(w, all, lists, s2, end, q, r1);
    ReachedTrans(w, all, lists, s, s2, end, r, q, r1);
  }

  // A call that is accepted is one of a function with as many parameters.
  lemma CallFound(s: Build, id: string, args: seq<Expr>)
    requires Sound(s) && VisitExpr(s, Call(id, args)).ok
    ensures Find(s.scope, id).Some? && Find(s.scope, id).value.ty.Func? &&
      |Find(s.scope, id).value.ty.params| == |args|
  {
    hide Sound, Grown, VisitArgs, Find;
    var f := Find(s.scope, id);
    var fty := if f.Some? && f.value.ty.Func? then f.value.ty else Func(Void, []);
    var s1 := Demand(s, f.Some? && f.value.ty.Func? && |fty.params| == |args|);
    GrownSame(s, s1); GrownFacts(s, s1);
    ArgsGrown(s1, args, fty.params); GrownFacts(s1, VisitArgs(s1, args, fty.params).0);
  }

  lemma {:induction false} ArgsDo(w: Ir.World, known: Known, all: Code, lists: Lists, s: Build, args: seq<Expr>,
      params: seq<Ty>, st: Memory, r: Ir.State) returns (r1: Ir.State)
    requires Ir.Arithmetic(w) && Ready(s, known, st, r) && EvalArgs(w, known, st, args, params).GivesArgs?
    requires var s1 := VisitArgs(s, args, Lowers(params)).0; s1.ok && CodeIn(s1.code, all) && Fits(s, s1, lists)
    ensures var (s1, ops) := VisitArgs(s, args, Lowers(params)); var ev := EvalArgs(w, known, st, args, params);
            Reached(w, all, lists, s, s1, r, r1) && Ready(s1, known, ev.st, r1) &&
              ArgsMean(w, s1.nextId, r1, ops, ev.vs)
    decreases args, 0
  {
    hide Ir.Arithmetic, Ready, CodeIn, Fits, Here, Reached, Emitted, Holds, Grown, Sound, VisitExpr, EvalExpr,
      TypeConvert, Convert, Older, Ir.Eval;
    ReadyParts(s, known, st, r);
    ArgsGrown(s, args, Lowers(params));
    FitsHere(s, VisitArgs(s, args, Lowers(params)).0, lists);
    if args == [] {
      r1 := r;
      EmittedSame(w, all, s, s, r);
      ReachedEmitted(w, all, lists, s, s, r, r);
    } else {
      var ty := Lower(params[0]);
      assert Lowers(params)[0] == ty && Lowers(params)[1..] == Lowers(params[1..]);
      var s1 := VisitExpr(s, args[0]);
      var s2 := TypeConvert(s1, ty);
      var (s3, ops) := VisitArgs(s2, args[1..], Lowers(params[1..]));
      ExprGrown(s, args[0]); GrownFacts(s, s1);
      TypeConvertGrown(s1, ty); GrownFacts(s1, s2);
      ArgsGrown(s2, args[1..], Lowers(params[1..])); GrownFacts(s2, s3);
      CodeInTrans(s2.code, s3.code, all); CodeInTrans(s1.code, s2.code, all);
      GrownTrans(s, s1, s2);
      FitsFirst(s, s2, s3, lists); FitsFirst(s, s1, s2, lists); FitsHere(s1, s2, lists);
      var ev := EvalExpr(w, known, st, args[0]);
      var v := Convert(w.floats, ev.ty, ev.v, params[0]).value;
      var q1 := ExprMeans(w, known, all, lists, s, args[0], st, r);
      var q2 := ConvertMeans(w, known, all, s1, ev.ty, ev.v, params[0], ev.st, q1);
      r1 := ArgsDo(w, known, all, lists, s2, args[1..], params[1..], ev.st, q2);
      ReachedEmitted(w, all, lists, s1, s2, q1, q2);
      ReachedTrans(w, all, lists, s, s1, s2, r, q1, q2);
      ReachedTrans(w, all, lists, s, s2, s3, r, q2, r1);
      HoldsParts(w, s2, params[0], v, q2);
      ArgsMore(w, all, lists, s2, s3, q2, r1, s2.value.op, v.n, ops,
        EvalArgs(w, known, ev.st, args[1..], params[1..]).vs);
    }
  }
}
