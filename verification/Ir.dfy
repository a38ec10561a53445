/** The instructions of one function and what running it does. A value that has not
    been initialised is Undef; whatever is not arithmetic on local cells is an
    opaque operation of the world, which may depend on everything observed so far. */
module Ir {
  import opened Wrappers
  import opened Cfg
  import opened Int32

  type Id = nat

  // Operands are the pointers to Value the instructions hold.
  datatype Operand = Const(n: int) | Arg(i: nat) | Global(i: nat) | Res(id: Id) | Label(b: Block)

  // How two numbers are compared.
  datatype Cond = EQ | NE | GT | GE | LT | LE

  // Instructions whose value is a function of their operands: on integers, on floats, and conversions.
  datatype PureOp =
    | Add | Sub | Mul | SDiv | ICmp(cond: Cond)
    | FAdd | FSub | FMul | FDiv | FCmp(cond: Cond)
    | SiToFp | FpToSi | Zext

  datatype CellType = Number | Pointer | Aggregate

  datatype Opcode =
    | Alloca(ty: CellType)
    | Load
    | Store
    | Gep
    | Pure(pure: PureOp)
    | Effect(n: nat)   // calls
    | Br
    | CondBr
    | Ret
    | Phi(cell: Id)

  datatype Instr = Instr(op: Opcode, args: seq<Operand>)

  // `home` is the parent block of each instruction.
  datatype Func = Func(g: Graph, code: map<Id, Instr>, lists: map<Block, seq<Id>>, home: map<Id, Block>)

  // ---- Cells ----

  // The local cell an address operand names directly.
  function CellOf(code: map<Id, Instr>, a: Operand): Option<Id> {
    if a.Res? && a.id in code && code[a.id].op.Alloca? && !code[a.id].op.ty.Aggregate?
    then Some(a.id) else None
  }

  function LoadCell(code: map<Id, Instr>, id: Id): Option<Id> {
    if id in code && code[id].op.Load? && |code[id].args| == 1 then CellOf(code, code[id].args[0]) else None
  }

  function StoreCell(code: map<Id, Instr>, id: Id): Option<Id> {
    if id in code && code[id].op.Store? && |code[id].args| == 2 then CellOf(code, code[id].args[1]) else None
  }

  function PhiCell(code: map<Id, Instr>, id: Id): Option<Id> {
    if id in code && code[id].op.Phi? then Some(code[id].op.cell) else None
  }

  // ---- Values and the world ----

  datatype Val = Undef | V(n: int)

  datatype Event = Event(op: Opcode, args: seq<int>)

  // What floats are: numbers stand for their bits.
  datatype Floats = Floats(add: (int, int) -> int, sub: (int, int) -> int, mul: (int, int) -> int,
                           div: (int, int) -> int, le: (int, int) -> bool, lt: (int, int) -> bool,
                           eq: (int, int) -> bool, ofInt: int -> int, toInt: int -> int)

  datatype World = World(arg: nat -> int, global: nat -> int, value: (Opcode, seq<int>, seq<Event>) -> int,
                         floats: Floats)

  datatype State = State(env: map<Id, Val>, mem: map<Id, Val>, trace: seq<Event>)

  // ---- Pure instructions ----

  predicate Holds(c: Cond, a: int, b: int) {
    match c
    case EQ => a == b
    case NE => a != b
    case GT => a > b
    case GE => a >= b
    case LT => a < b
    case LE => a <= b
  }

  // Nothing is known of floats that are not ordered but that they are not equal.
  predicate FloatHolds(fl: Floats, c: Cond, a: int, b: int) {
    match c
    case EQ => fl.eq(a, b)
    case NE => !fl.eq(a, b)
    case GT => fl.lt(b, a)
    case GE => fl.le(b, a)
    case LT => fl.lt(a, b)
    case LE => fl.le(a, b)
  }

  function OneIf(b: bool): int {
    if b then 1 else 0
  }

  // None where the instruction has no defined value.
  function PureResult(fl: Floats, op: PureOp, args: seq<int>): Option<int> {
    if |args| == 1 then
      match op
      case SiToFp => Some(fl.ofInt(args[0]))
      case FpToSi => Some(fl.toInt(args[0]))
      case Zext => Some(args[0])
      case _ => None
    else if |args| == 2 then
      var a, b := args[0], args[1];
      match op
      case Add => Some(Wrap(a + b))
      case Sub => Some(Wrap(a - b))
      case Mul => Some(Wrap(a * b))
      case SDiv => if b == 0 || (a == -HALF_RANGE && b == -1) then None else Some(Quotient(a, b))
      case ICmp(c) => Some(OneIf(Holds(c, a, b)))
      case FAdd => Some(fl.add(a, b))
      case FSub => Some(fl.sub(a, b))
      case FMul => Some(fl.mul(a, b))
      case FDiv => Some(fl.div(a, b))
      case FCmp(c) => Some(OneIf(FloatHolds(fl, c, a, b)))
      case _ => None
    else None
  }

  // The world computes pure instructions as they are meant.
  ghost predicate Arithmetic(w: World) {
    forall op, args, tr {:trigger w.value(Pure(op), args, tr)} ::
      PureResult(w.floats, op, args).Some? ==> w.value(Pure(op), args, tr) == PureResult(w.floats, op, args).value
  }

  // The same world with arithmetic as it is meant.
  function WithArithmetic(w: World): (r: World)
    ensures Arithmetic(r) && r.floats == w.floats
  {
    w.(value := (op: Opcode, args: seq<int>, tr: seq<Event>) =>
      if op.Pure? && PureResult(w.floats, op.pure, args).Some? then PureResult(w.floats, op.pure, args).value
      else w.value(op, args, tr))
  }

  function Lookup(m: map<Id, Val>, x: Id): Val {
    if x in m then m[x] else Undef
  }

  function Eval(w: World, env: map<Id, Val>, a: Operand): Val {
    match a
    case Const(n) => V(n)
    case Arg(i) => V(w.arg(i))
    case Global(i) => V(w.global(i))
    case Res(id) => Lookup(env, id)
    case Label(b) => V(b)
  }

  // The values of the operands, or None when one of them is undefined.
  function EvalAll(w: World, env: map<Id, Val>, args: seq<Operand>): (r: Option<seq<int>>)
    ensures r.Some? ==> |r.value| == |args|
  {
    if args == [] then Some([])
    else
      match (Eval(w, env, args[0]), EvalAll(w, env, args[1..]))
      case (V(n), Some(rest)) => Some([n] + rest)
      case _ => None
  }

  // ---- Running ----

  datatype Outcome =
    | Next(st: State)
    | Jump(target: Block, st: State)
    | Return(value: seq<int>, trace: seq<Event>)
    | Bad   // an undefined value was observed, or the block has no terminator

  function Step(w: World, code: map<Id, Instr>, id: Id, st: State): Outcome
  {
    if id !in code then Bad
    else if LoadCell(code, id).Some? then
      Next(st.(env := st.env[id := Lookup(st.mem, LoadCell(code, id).value)]))
    else if StoreCell(code, id).Some? then
      Next(st.(mem := st.mem[StoreCell(code, id).value := Eval(w, st.env, code[id].args[0])],
        env := st.env[id := Undef]))
    else StepOther(w, id, code[id], st)
  }

  function StepOther(w: World, id: Id, instr: Instr, st: State): Outcome
  {
    var Instr(op, args) := instr;
    match op {
      case Alloca(ty) =>
        if ty.Aggregate? then StepOpaque(w, id, op, Some([]), st)
        else Next(st.(mem := st.mem[id := Undef], env := st.env[id := V(w.value(op, [id], st.trace))]))
      case Phi(_) => Next(st)
      case Br =>
        if |args| == 1 && args[0].Label? then Jump(args[0].b, st) else Bad
      case CondBr =>
        if |args| == 3 && args[1].Label? && args[2].Label? && Eval(w, st.env, args[0]).V?
        then Jump(if Eval(w, st.env, args[0]).n != 0 then args[1].b else args[2].b, st)
        else Bad
      case Ret =>
        var vs := EvalAll(w, st.env, args);
        if vs.Some? then Return(vs.value, st.trace) else Bad
      case _ => StepOpaque(w, id, op, EvalAll(w, st.env, args), st)
    }
  }

  // Calls, stores to globals or array elements and the places of arrays are observed.
  predicate Observed(op: Opcode) {
    op.Effect? || op.Store? || op == Alloca(Aggregate)
  }

  function StepOpaque(w: World, id: Id, op: Opcode, vs: Option<seq<int>>, st: State): Outcome
  {
    if vs.None? then
      if Observed(op) then Bad else Next(st.(env := st.env[id := Undef]))
    else
      var env := st.env[id := V(w.value(op, vs.value, st.trace))];
      Next(st.(env := env, trace := if Observed(op) then st.trace + [Event(op, vs.value)] else st.trace))
  }

  // The instructions from a point of a block to its first terminator.
  function Exec(w: World, code: map<Id, Instr>, ids: seq<Id>, st: State): (r: Outcome)
    ensures !r.Next?
  {
    if ids == [] then Bad else
    match Step(w, code, ids[0], st)
    case Next(st') => Exec(w, code, ids[1..], st')
    case other => other
  }

  // The operand a phi holds for predecessor p: operands come in (value, block) pairs.
  function PhiOperand(args: seq<Operand>, p: Block): Option<Operand> {
    if |args| < 2 then None
    else if args[1] == Label(p) then Some(args[0])
    else PhiOperand(args[2..], p)
  }

  function EvalOption(w: World, env: map<Id, Val>, a: Option<Operand>): Val {
    if a.Some? then Eval(w, env, a.value) else Undef
  }

  // Entering a block from p sets all its phis at once.
  function EnterEnv(w: World, code: map<Id, Instr>, ids: seq<Id>, p: Block, env: map<Id, Val>): map<Id, Val> {
    env + map x | x in ids && x in code && code[x].op.Phi? :: EvalOption(w, env, PhiOperand(code[x].args, p))
  }

  datatype Config =
    | At(from: Block, block: Block, st: State)
    | Done(value: seq<int>, trace: seq<Event>)
    | Stuck

  // The state in front of each block entered, and how the run ended.
  function Run(f: Func, w: World, n: nat): Config {
    if n == 0 then At(f.g.entry, f.g.entry, State(map[], map[], []))
    else
      match Run(f, w, n - 1)
      case At(p, b, st) => Enter(f, w, p, b, st)
      case other => other
  }

  function Enter(f: Func, w: World, p: Block, b: Block, st: State): Config {
    if b !in f.lists then Stuck else
    match Exec(w, f.code, f.lists[b], st.(env := EnterEnv(w, f.code, f.lists[b], p, st.env)))
    case Jump(c, st') => At(b, c, st')
    case Return(v, tr) => Done(v, tr)
    case _ => Stuck
  }

  // f2 does what f1 does, as long as f1 observes no undefined value: the same blocks in the
  // same order, the same operations with the same operands, the same result.
  ghost predicate Refines(f1: Func, f2: Func) {
    forall w, n :: RefinesAt(Run(f1, w, n), Run(f2, w, n))
  }

  ghost predicate RefinesAt(c1: Config, c2: Config) {
    match c1
    case Stuck => true
    case Done(_, _) => c2 == c1
    case At(p, b, st) => c2.At? && c2.from == p && c2.block == b && c2.st.trace == st.trace
  }
}
