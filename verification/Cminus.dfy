/** What a source program means: big-step semantics. A local variable that has not been assigned is
    undefined. Calls, assignments to global variables and to elements of arrays, and the places of
    arrays are observed; what a global variable or an element holds is up to the world. */
module Cminus {
  import opened Wrappers
  import opened Ast
  import Ir
  import opened Int32

  // The type of a value: the outcome of a comparison, an int, a float, nothing, or the address of
  // elements.
  datatype Ty = TruthT | IntT | FloatT | VoidT | PtrT(elem: Ty)

  // A local variable: a cell with its value, or an array with the address it is at.
  datatype Slot = Cell(ty: Ty, v: Ir.Val) | Row(ty: Ty, base: int)

  type Vars = map<string, Slot>

  // A global name, with its number among the globals: a function, a variable or an array.
  datatype Global =
    | Fun(number: nat, params: seq<Ty>, ret: Ty)
    | Shared(number: nat, ty: Ty)
    | SharedArray(number: nat, ty: Ty)

  // The global names the program may use, and the type the function returns.
  datatype Known = Known(names: map<string, Global>, ret: Ty)

  datatype Memory = Memory(scopes: seq<Vars>, trace: seq<Ir.Event>)

  function TyOf(ty: CminusType): Ty {
    match ty case TypeInt => IntT case TypeFloat => FloatT case TypeVoid => VoidT
  }

  // ---- Operations ----

  // None where the operation has no defined result.
  function Apply(op: ArithOp, a: int, b: int): Option<int> {
    match op
    case Plus => Some(Wrap(a + b))
    case Minus => Some(Wrap(a - b))
    case Times => Some(Wrap(a * b))
    case Div => if b == 0 || (a == -HALF_RANGE && b == -1) then None else Some(Quotient(a, b))
  }

  function FloatApply(fl: Ir.Floats, op: ArithOp, a: int, b: int): int {
    match op
    case Plus => fl.add(a, b)
    case Minus => fl.sub(a, b)
    case Times => fl.mul(a, b)
    case Div => fl.div(a, b)
  }

  predicate Compare(op: RelOp, a: int, b: int) {
    match op
    case Le => a <= b
    case Lt => a < b
    case Gt => a > b
    case Ge => a >= b
    case Eq => a == b
    case Neq => a != b
  }

  predicate FloatCompare(fl: Ir.Floats, op: RelOp, a: int, b: int) {
    match op
    case Le => fl.le(a, b)
    case Lt => fl.lt(a, b)
    case Gt => fl.lt(b, a)
    case Ge => fl.le(b, a)
    case Eq => fl.eq(a, b)
    case Neq => !fl.eq(a, b)
  }

  function OnValue(f: int -> int, v: Ir.Val): Ir.Val {
    if v.V? then Ir.V(f(v.n)) else Ir.Undef
  }

  // None where there is no conversion.
  function Convert(fl: Ir.Floats, ty: Ty, v: Ir.Val, to: Ty): Option<Ir.Val> {
    if ty == to then Some(v)
    else if (ty.IntT? || ty.TruthT?) && to.FloatT? then Some(OnValue(fl.ofInt, v))
    else if ty.FloatT? && to.IntT? then Some(OnValue(fl.toInt, v))
    else if ty.TruthT? && to.IntT? then Some(v)
    else None
  }

  datatype Outcome = NoResult | Computed(ty: Ty, v: Ir.Val)

  // An operation on ints if both operands are ints, on floats otherwise.
  function Calculate(fl: Ir.Floats, op: ArithOp, lty: Ty, l: Ir.Val, rty: Ty, r: Ir.Val): Outcome {
    if lty.IntT? && rty.IntT? then
      if l.Undef? || r.Undef? then Computed(IntT, Ir.Undef)
      else if Apply(op, l.n, r.n).None? then NoResult
      else Computed(IntT, Ir.V(Apply(op, l.n, r.n).value))
    else
      var a, b := Convert(fl, lty, l, FloatT), Convert(fl, rty, r, FloatT);
      if a.None? || b.None? then NoResult
      else if a.value.Undef? || b.value.Undef? then Computed(FloatT, Ir.Undef)
      else Computed(FloatT, Ir.V(FloatApply(fl, op, a.value.n, b.value.n)))
  }

  function Relate(fl: Ir.Floats, op: RelOp, lty: Ty, l: Ir.Val, rty: Ty, r: Ir.Val): Outcome {
    if lty.IntT? && rty.IntT? then
      Computed(TruthT, if l.Undef? || r.Undef? then Ir.Undef else Ir.V(if Compare(op, l.n, r.n) then 1 else 0))
    else
      var a, b := Convert(fl, lty, l, FloatT), Convert(fl, rty, r, FloatT);
      if a.None? || b.None? then NoResult
      else Computed(TruthT, if a.value.Undef? || b.value.Undef? then Ir.Undef
        else Ir.V(if FloatCompare(fl, op, a.value.n, b.value.n) then 1 else 0))
  }

  // Which way a condition decides; None if it is undefined or no number.
  function Decides(fl: Ir.Floats, ty: Ty, v: Ir.Val): Option<bool> {
    if v.Undef? then None
    else match ty
      case TruthT => Some(v.n != 0)
      case IntT => Some(v.n != 0)
      case FloatT => Some(!fl.eq(v.n, 0))
      case _ => None
  }

  // ---- Variables ----

  function Lookup(scopes: seq<Vars>, id: string): Option<Slot> {
    if scopes == [] then None
    else if id in scopes[|scopes| - 1] then Some(scopes[|scopes| - 1][id])
    else Lookup(scopes[..|scopes| - 1], id)
  }

  // Assigns to the innermost variable of that name.
  function Update(scopes: seq<Vars>, id: string, slot: Slot): seq<Vars> {
    if scopes == [] then []
    else if id in scopes[|scopes| - 1] then scopes[|scopes| - 1 := scopes[|scopes| - 1][id := slot]]
    else Update(scopes[..|scopes| - 1], id, slot) + [scopes[|scopes| - 1]]
  }

  predicate Knows(known: Known, st: Memory, id: string) {
    Lookup(st.scopes, id).None? && id in known.names
  }

  function Note(st: Memory, op: Ir.Opcode, args: seq<int>): Memory {
    st.(trace := st.trace + [Ir.Event(op, args)])
  }

  // What is at an address. Nothing defined is at an undefined one.
  function Held(w: Ir.World, st: Memory, address: Ir.Val): Ir.Val {
    OnValue((a: int) => w.value(Ir.Load, [a], st.trace), address)
  }

  function Place(w: Ir.World, st: Memory, indices: seq<int>): Ir.Val {
    Ir.V(w.value(Ir.Gep, indices, st.trace))
  }

  // The value of a name. An array stands for the address of its first element.
  function Read(w: Ir.World, known: Known, st: Memory, id: string): Outcome {
    match Lookup(st.scopes, id)
    case Some(Cell(ty, v)) => Computed(ty, v)
    case Some(Row(ty, base)) => Computed(PtrT(ty), Place(w, st, [base, 0, 0]))
    case None =>
      if id !in known.names then NoResult
      else match known.names[id]
        case Shared(number, ty) => Computed(ty, Held(w, st, Ir.V(w.global(number))))
        case SharedArray(number, ty) => Computed(PtrT(ty), Place(w, st, [w.global(number), 0, 0]))
        case Fun(_, _, _) => NoResult
  }

  // The type of the variable of that name; arrays cannot be assigned.
  function Target(known: Known, st: Memory, id: string): Option<Ty> {
    match Lookup(st.scopes, id)
    case Some(Cell(ty, _)) => Some(ty)
    case Some(Row(_, _)) => None
    case None => if id in known.names && known.names[id].Shared? then Some(known.names[id].ty) else None
  }

  // What is stored to an address is observed and has to be defined.
  function Stored(st: Memory, address: Ir.Val, v: Ir.Val): Option<Memory> {
    if v.V? && address.V? then Some(Note(st, Ir.Store, [v.n, address.n])) else None
  }

  function Write(w: Ir.World, known: Known, st: Memory, id: string, v: Ir.Val): Option<Memory> {
    match Lookup(st.scopes, id)
    case Some(Cell(ty, _)) => Some(st.(scopes := Update(st.scopes, id, Cell(ty, v))))
    case Some(Row(_, _)) => None
    case None =>
      if id in known.names && known.names[id].Shared? then Stored(st, Ir.V(w.global(known.names[id].number)), v)
        else None
  }

  // ---- Elements of arrays ----

  const HANDLER: string := "neg_idx_except"

  // A negative index is reported.
  function Checked(w: Ir.World, known: Known, st: Memory, n: int): Option<Memory> {
    if n >= 0 then Some(st)
    else if Knows(known, st, HANDLER) && known.names[HANDLER].Fun? then
      Some(Note(st, Ir.Effect(0), [w.global(known.names[HANDLER].number)]))
    else None
  }

  // The address of element n: of an array, or behind an address.
  function Element(w: Ir.World, known: Known, st: Memory, id: string, n: int): Outcome {
    match Lookup(st.scopes, id)
    case Some(Row(ty, base)) => Computed(ty, Place(w, st, [base, 0, n]))
    case Some(Cell(PtrT(ty), p)) => Computed(ty, Behind(w, st, p, n))
    case Some(_) => NoResult
    case None =>
      if id !in known.names then NoResult
      else match known.names[id]
        case SharedArray(number, ty) => Computed(ty, Place(w, st, [w.global(number), 0, n]))
        case Shared(number, PtrT(ty)) => Computed(ty, Behind(w, st, Held(w, st, Ir.V(w.global(number))), n))
        case _ => NoResult
  }

  function Behind(w: Ir.World, st: Memory, p: Ir.Val, n: int): Ir.Val {
    if p.V? then Place(w, st, [p.n, n]) else Ir.Undef
  }

  datatype Located = NotThere | There(ty: Ty, address: Ir.Val, st: Memory)

  // An element: its index has to be defined, and is checked.
  function AtIndex(w: Ir.World, known: Known, st: Memory, id: string, ty: Ty, v: Ir.Val): Located {
    var n := Convert(w.floats, ty, v, IntT);
    if n.None? || n.value.Undef? then NotThere
    else
      var st1 := Checked(w, known, st, n.value.n);
      if st1.None? then NotThere
      else
        match Element(w, known, st1.value, id, n.value.n)
        case Computed(elem, a) => There(elem, a, st1.value)
        case NoResult => NotThere
  }

  // ---- Expressions ----

  datatype Evaluated = Fails | Gives(ty: Ty, v: Ir.Val, st: Memory)

  datatype EvaluatedArgs = ArgsFail | GivesArgs(vs: seq<int>, st: Memory)

  function EvalExpr(w: Ir.World, known: Known, st: Memory, e: Expr): Evaluated
    decreases e, 0
  {
    match e
    case Num(ty, n) => Gives(if ty.TypeInt? then IntT else FloatT, Ir.V(n), st)
    case Var(id, index) =>
      if index.None? then
        match Read(w, known, st, id)
        case Computed(ty, v) => Gives(ty, v, st)
        case NoResult => Fails
      else
        (match Locate(w, known, st, id, index.value)
         case There(ty, a, st1) => Gives(ty, Held(w, st1, a), st1)
         case NotThere => Fails)
    case Assign(id, index, e1) =>
      if index.None? then
        var to := Target(known, st, id);
        if to.None? then Fails
        else
          match EvalExpr(w, known, st, e1)
          case Gives(ty, v, st1) =>
            var v1 := Convert(w.floats, ty, v, to.value);
            if v1.None? then Fails else Assigned(to.value, v1.value, Write(w, known, st1, id, v1.value))
          case Fails => Fails
      else
        (match Locate(w, known, st, id, index.value)
         case There(to, a, st0) =>
           (match EvalExpr(w, known, st0, e1)
            case Gives(ty, v, st1) =>
              var v1 := Convert(w.floats, ty, v, to);
              if v1.None? then Fails else Assigned(to, v1.value, Stored(st1, a, v1.value))
            case Fails => Fails)
         case NotThere => Fails)
    case Rel(l, op, r) =>
      (match EvalExpr(w, known, st, l)
       case Gives(lty, a, st1) =>
         (match EvalExpr(w, known, st1, r)
          case Gives(rty, b, st2) => Resulting(Relate(w.floats, op, lty, a, rty, b), st2)
          case Fails => Fails)
       case Fails => Fails)
    case Arith(l, op, r) =>
      (match EvalExpr(w, known, st, l)
       case Gives(lty, a, st1) =>
         (match EvalExpr(w, known, st1, r)
          case Gives(rty, b, st2) => Resulting(Calculate(w.floats, op, lty, a, rty, b), st2)
          case Fails => Fails)
       case Fails => Fails)
    case Call(id, args) =>
      if !Knows(known, st, id) || !known.names[id].Fun? then Fails
      else
        var f := known.names[id];
        match EvalArgs(w, known, st, args, f.params)
        case GivesArgs(vs, st1) =>
          var operands := [w.global(f.number)] + vs;
          Gives(f.ret, Ir.V(w.value(Ir.Effect(0), operands, st1.trace)), Note(st1, Ir.Effect(0), operands))
        case ArgsFail => Fails
  }

  function Resulting(o: Outcome, st: Memory): Evaluated {
    match o case Computed(ty, v) => Gives(ty, v, st) case NoResult => Fails
  }

  function Assigned(ty: Ty, v: Ir.Val, st: Option<Memory>): Evaluated {
    if st.None? then Fails else Gives(ty, v, st.value)
  }

  function Locate(w: Ir.World, known: Known, st: Memory, id: string, e: Expr): Located
    decreases e, 1
  {
    match EvalExpr(w, known, st, e)
    case Gives(ty, v, st1) => AtIndex(w, known, st1, id, ty, v)
    case Fails => NotThere
  }

  // An undefined argument is an error.
  function EvalArgs(w: Ir.World, known: Known, st: Memory, args: seq<Expr>, params: seq<Ty>): EvaluatedArgs
    decreases args
  {
    if args == [] || params == [] then if |args| == |params| then GivesArgs([], st) else ArgsFail
    else
      match EvalExpr(w, known, st, args[0])
      case Gives(ty, v, st1) =>
        var v1 := Convert(w.floats, ty, v, params[0]);
        (match EvalArgs(w, known, st1, args[1..], params[1..])
         case GivesArgs(vs, st2) => if v1.Some? && v1.value.V? then GivesArgs([v1.value.n] + vs, st2) else ArgsFail
         case ArgsFail => ArgsFail)
      case Fails => ArgsFail
  }

  // ---- Statements ----

  datatype Result =
    | Normal(st: Memory)
    | Returned(value: seq<int>, trace: seq<Ir.Event>)
    | Wrong     // an undefined value decides or is given away, or an operation has no result
    | NoFuel

  // A new variable under a name that is new in the innermost scope, or under no name.
  function Bound(scopes: seq<Vars>, id: string, slot: Slot): seq<Vars> {
    if scopes == [] || id in scopes[|scopes| - 1] then scopes
    else scopes[|scopes| - 1 := scopes[|scopes| - 1][id := slot]]
  }

  // The place of an array is observed.
  function DeclareOne(w: Ir.World, st: Memory, d: VarDecl): Memory {
    if d.num.Some? then
      var op := Ir.Alloca(Ir.Aggregate);
      Note(st.(scopes := Bound(st.scopes, d.id, Row(TyOf(d.ty), w.value(op, [], st.trace)))), op, [])
    else st.(scopes := Bound(st.scopes, d.id, Cell(TyOf(d.ty), Ir.Undef)))
  }

  function Declare(w: Ir.World, st: Memory, ds: seq<VarDecl>): Memory
    decreases ds
  {
    if ds == [] then st else Declare(w, DeclareOne(w, st, ds[0]), ds[1..])
  }

  function Leave(r: Result): Result {
    match r
    case Normal(st) => if st.scopes == [] then Wrong else Normal(st.(scopes := st.scopes[..|st.scopes| - 1]))
    case other => other
  }

  // Fuel counts the rounds of loops.
  function Run(w: Ir.World, known: Known, st: Memory, node: Stmt, fuel: nat): Result
    decreases fuel, node, 1
  {
    match node
    case ExprStmt(e) =>
      if e.None? then Normal(st)
      else (match EvalExpr(w, known, st, e.value) case Gives(_, _, st1) => Normal(st1) case Fails => Wrong)
    case Compound(decls, body) =>
      Leave(RunAll(w, known, Declare(w, st.(scopes := st.scopes + [map[]]), decls), body, fuel))
    case Selection(cond, thenS, elseS) =>
      (match EvalExpr(w, known, st, cond)
       case Gives(ty, v, st1) =>
         var b := Decides(w.floats, ty, v);
         if b.None? then Wrong
         else if b.value then Run(w, known, st1, thenS, fuel)
         else if elseS.Some? then Run(w, known, st1, elseS.value, fuel)
         else Normal(st1)
       case Fails => Wrong)
    case Iteration(cond, body) =>
      (match EvalExpr(w, known, st, cond)
       case Gives(ty, v, st1) =>
         var b := Decides(w.floats, ty, v);
         if b.None? then Wrong
         else if !b.value then Normal(st1)
         else
           (match Run(w, known, st1, body, fuel)
            case Normal(st2) => if fuel == 0 then NoFuel else Run(w, known, st2, node, fuel - 1)
            case other => other)
       case Fails => Wrong)
    case Return(e) =>
      if e.None? then Returned([], st.trace)
      else
        (match EvalExpr(w, known, st, e.value)
         case Gives(ty, v, st1) =>
           var v1 := Convert(w.floats, ty, v, known.ret);
           if v1.None? || v1.value.Undef? then Wrong else Returned([v1.value.n], st1.trace)
         case Fails => Wrong)
  }

  function RunAll(w: Ir.World, known: Known, st: Memory, nodes: seq<Stmt>, fuel: nat): Result
    decreases fuel, nodes, 0
  {
    if nodes == [] then Normal(st)
    else
      match Run(w, known, st, nodes[0], fuel)
      case Normal(st1) => RunAll(w, known, st1, nodes[1..], fuel)
      case other => other
  }

  // ---- Functions ----

  // An array parameter is the address of its elements.
  function ParamTy(p: Param): Ty {
    if p.isArray then PtrT(TyOf(p.ty)) else TyOf(p.ty)
  }

  function Bind(w: Ir.World, ps: seq<Param>, i: nat, vars: Vars): Vars
    decreases ps
  {
    if ps == [] then vars
    else Bind(w, ps[1..], i + 1, if ps[0].id in vars then vars
      else vars[ps[0].id := Cell(ParamTy(ps[0]), Ir.V(w.arg(i)))])
  }

  // Falling off the end returns 0, or nothing.
  function RunFunction(w: Ir.World, known: Known, d: FunDecl, fuel: nat): Result {
    var st := Memory([map[], Bind(w, d.params, 0, map[])], []);
    match Run(w, known, st, Compound(d.decls, d.body), fuel)
    case Normal(st1) => Returned(if d.ty.TypeVoid? then [] else [0], st1.trace)
    case other => other
  }
}
