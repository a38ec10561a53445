/** What renaming keeps while it walks the dominator tree: the code with the loads
    replaced so far, the phis filled so far, and the value stacks. */
module Renaming {
  import opened Wrappers
  import opened Cfg
  import opened DomTree
  import opened Frontier
  import opened Ir
  import opened Ssa
  import opened Simulation
  import opened FunctionIr
  import opened PhiPlacement
  import opened TreeWalk

  // Renaming takes out the loads it replaces and the stores to cells.
  ghost predicate Gone(s: Placed, x: Id)
    requires s.Valid()
  {
    StoreCell(s.f.code, x).Some? || Replaced(s, x)
  }

  // ---- Operands ----

  // An operand when the loads in `done` have been replaced.
  ghost function Sub(s: Placed, done: set<Id>, a: Operand): Operand
    requires s.Valid()
  {
    if a.Res? && a.id in done then s.Resolve(a) else a
  }

  // A stack top names no load that renaming replaces.
  lemma SettledNotReplaced(s: Placed, a: Operand, b: Block, i: nat)
    requires s.Valid() && b in s.f.lists && i <= |s.List(b)| && Settled(s, a, b, i) && a.Res?
    ensures !Replaced(s, a.id)
  {
    hide Placed.Valid, Placed.Top;
    if Replaced(s, a.id) {
      ListedPlace(s, a.id);
      var c, j := s.Home(a.id), s.Place(a.id);
      TopSettled(s, c, j, LoadCell(s.f.code, a.id).value);
      NotBeforeItself(s, c, j, a.id);
    }
  }

  // ---- Phi operands ----

  ghost predicate Pairs(args: seq<Operand>) {
    && |args| % 2 == 0
    && (forall k :: 0 <= k < |args| && k % 2 == 1 ==> args[k].Label?)
    && forall j, k :: 0 <= j < k < |args| && j % 2 == 1 && k % 2 == 1 ==> args[j] != args[k]
  }

  lemma {:induction false} PhiOperandAppend(args: seq<Operand>, a: Operand, q: Block, p: Block)
    requires |args| % 2 == 0
    ensures PhiOperand(args + [a, Label(q)], p) ==
              if PhiOperand(args, p).Some? then PhiOperand(args, p) else if q == p then Some(a) else None
  {
    if |args| >= 2 {
      PhiOperandAppend(args[2..], a, q, p);
      assert (args + [a, Label(q)])[2..] == args[2..] + [a, Label(q)];
    } else {
      assert args + [a, Label(q)] == [a, Label(q)];
      assert [a, Label(q)][2..] == [];
    }
  }

  lemma {:induction false} PhiOperandFound(args: seq<Operand>, p: Block)
    requires |args| % 2 == 0
    ensures PhiOperand(args, p).None? <==> forall k :: 0 <= k < |args| && k % 2 == 1 ==> args[k] != Label(p)
  {
    if |args| >= 2 {
      PhiOperandFound(args[2..], p);
      forall k | 0 <= k < |args| - 2 ensures args[2..][k] == args[k + 2] {
      }
      if forall k :: 0 <= k < |args| - 2 && k % 2 == 1 ==> args[2..][k] != Label(p) {
        forall k | 2 <= k < |args| && k % 2 == 1 ensures args[k] != Label(p) {
          assert args[2..][k - 2] == args[k];
        }
      } else {
        var k :| 0 <= k < |args| - 2 && k % 2 == 1 && args[2..][k] == Label(p);
        assert args[k + 2] == Label(p);
      }
    }
  }

  // The operands of phi x when the blocks in `filled` have filled in theirs.
  ghost predicate PhiAt(s: Placed, x: Id, args: seq<Operand>, filled: set<Block>)
    requires s.Valid() && PhiCell(s.f.code, x).Some?
  {
    && Pairs(args)
    && (forall k :: 0 <= k < |args| && args[k].Res? ==> !Replaced(s, args[k].id))
    && (forall k :: 0 <= k < |args| && k % 2 == 1 ==>
         args[k].Label? && args[k].b in filled && s.f.g.Edge(args[k].b, s.Home(x)))
    && (forall p :: s.Home(x) in s.f.g.pred && p in s.f.g.pred[s.Home(x)] && p in s.f.lists ==>
          PhiOperand(args, p) == if p in filled then s.Top(p, |s.List(p)|, PhiCell(s.f.code, x).value) else None)
  }

  // ---- The code ----

  ghost predicate InstrAt(s: Placed, instr: Instr, done: set<Id>, filled: set<Block>, x: Id)
    requires s.Valid() && x in s.f.code
  {
    && instr.op == s.f.code[x].op
    && (PhiCell(s.f.code, x).None? ==>
          |instr.args| == |s.f.code[x].args| &&
            forall k :: 0 <= k < |instr.args| ==> instr.args[k] == Sub(s, done, s.f.code[x].args[k]))
    && (PhiCell(s.f.code, x).Some? && Listed(s.f, x) ==> PhiAt(s, x, instr.args, filled))
    && (forall k :: PhiCell(s.f.code, x).Some? && 0 <= k < |instr.args| && instr.args[k].Res? ==>
         !Replaced(s, instr.args[k].id))
  }

  // The code when the loads in `done` have been replaced, the blocks in `filled` have filled
  // in their phi operands, and block b has done so for the phis in `some`.
  ghost predicate CodeAt(s: Placed, code: Code, dead: set<Id>, done: set<Id>, filled: set<Block>, b: Block,
      some: set<Id>)
    requires s.Valid()
  {
    && code.Keys == s.f.code.Keys
    && (forall x :: x in code ==> code[x].op == s.f.code[x].op)
    && forall x {:trigger FilledBy(filled, b, some, x)} :: x in code && x !in dead ==>
         InstrAt(s, code[x], done, FilledBy(filled, b, some, x), x)
  }

  ghost function FilledBy(filled: set<Block>, b: Block, some: set<Id>, x: Id): set<Block> {
    if x in some then filled + {b} else filled
  }

  lemma {:induction false} ReplaceInstr(s: Placed, instr: Instr, done: set<Id>, filled: set<Block>, x: Id, l: Id)
    requires s.Valid() && x in s.f.code && InstrAt(s, instr, done, filled, x) && Replaced(s, l)
    requires forall d :: d in done ==> Replaced(s, d)
    ensures InstrAt(s, Instr(instr.op, Replace(instr.args, Res(l), s.Resolve(Res(l)))), done + {l}, filled, x)
  {
    hide Placed.Valid, Replaced, Placed.Resolve, PhiOperand, PhiAt;
    var args := Replace(instr.args, Res(l), s.Resolve(Res(l)));
    if PhiCell(s.f.code, x).Some? {
      assert args == instr.args;
    } else {
      forall k | 0 <= k < |args| ensures args[k] == Sub(s, done + {l}, s.f.code[x].args[k]) {
        ReplaceOperand(s, done, s.f.code[x].args[k], l);
      }
    }
  }

  lemma ReplaceOperand(s: Placed, done: set<Id>, a: Operand, l: Id)
    requires s.Valid() && Replaced(s, l) && forall d :: d in done ==> Replaced(s, d)
    ensures (if Sub(s, done, a) == Res(l) then s.Resolve(Res(l)) else Sub(s, done, a)) == Sub(s, done + {l}, a)
  {
    hide Placed.Valid, Placed.Top;
    if a.Res? && a.id in done && s.Resolve(a) == Res(l) {
      ListedPlace(s, a.id);
      TopSettled(s, s.Home(a.id), s.Place(a.id), LoadCell(s.f.code, a.id).value);
      SettledNotReplaced(s, Res(l), s.Home(a.id), s.Place(a.id));
    }
  }

  lemma {:induction false} CodeReplaced(s: Placed, code: Code, code1: Code, dead: set<Id>, done: set<Id>,
      filled: set<Block>, b: Block, some: set<Id>, l: Id, now: Operand)
    requires s.Valid() && CodeAt(s, code, dead, done, filled, b, some) && Replaced(s, l) && now == s.Resolve(Res(l))
    requires forall d :: d in done ==> Replaced(s, d)
    requires code1.Keys == code.Keys
    requires forall x :: x in code && x in dead ==> code1[x] == code[x]
    requires forall x :: x in code && x !in dead ==> code1[x] == Instr(code[x].op, Replace(code[x].args, Res(l), now))
    ensures CodeAt(s, code1, dead, done + {l}, filled, b, some)
  {
    hide Placed.Valid, Replaced, Placed.Resolve, InstrAt, Replace;
    forall x | x in code1 && x !in dead ensures InstrAt(s, code1[x], done + {l}, FilledBy(filled, b, some, x), x) {
      assert InstrAt(s, code[x], done, FilledBy(filled, b, some, x), x);
      ReplaceInstr(s, code[x], done, FilledBy(filled, b, some, x), x, l);
    }
  }

  // ---- Filling phi operands ----

  // Phi x of a successor d of b gets b's operand, if b has one.
  lemma {:induction false} PhiFill(s: Placed, x: Id, args: seq<Operand>, filled: set<Block>, b: Block,
      top: Option<Operand>)
    requires s.Valid() && PhiCell(s.f.code, x).Some? && PhiAt(s, x, args, filled) && b !in filled && b in s.f.lists
    requires s.f.g.Edge(b, s.Home(x))
    requires top == s.Top(b, |s.List(b)|, PhiCell(s.f.code, x).value)
    ensures PhiAt(s, x, if top.Some? then args + [top.value, Label(b)] else args, filled + {b})
  {
    hide Placed.Valid, Placed.Top, Replaced;
    PhiOperandFound(args, b);
    if top.Some? {
      TopSettled(s, b, |s.List(b)|, PhiCell(s.f.code, x).value);
      if top.value.Res? { SettledNotReplaced(s, top.value, b, |s.List(b)|); }
      PhiFillPairs(args, top.value, b);
      var more := args + [top.value, Label(b)];
      forall p | s.Home(x) in s.f.g.pred && p in s.f.g.pred[s.Home(x)] && p in s.f.lists
        ensures PhiOperand(more, p) == if p in filled + {b} then s.Top(p, |s.List(p)|, PhiCell(s.f.code, x).value)
          else None
      {
        PhiOperandAppend(args, top.value, b, p);
      }
    }
  }

  lemma PhiFillPairs(args: seq<Operand>, a: Operand, b: Block)
    requires Pairs(args) && forall k :: 0 <= k < |args| && k % 2 == 1 ==> args[k] != Label(b)
    ensures Pairs(args + [a, Label(b)])
  {
  }

  lemma {:induction false} CodeFilled(s: Placed, code: Code, code1: Code, dead: set<Id>, done: set<Id>,
      filled: set<Block>, b: Block, some: set<Id>, x: Id, top: Option<Operand>)
    requires s.Valid() && CodeAt(s, code, dead, done, filled, b, some) && b !in filled && b in s.f.lists
    requires x in code && PhiCell(s.f.code, x).Some? && Listed(s.f, x) && x !in some && x !in dead &&
      s.f.g.Edge(b, s.Home(x))
    requires top == s.Top(b, |s.List(b)|, PhiCell(s.f.code, x).value)
    requires code1 == if top.Some? then code[x := Instr(code[x].op, code[x].args + [top.value, Label(b)])] else code
    ensures CodeAt(s, code1, dead, done, filled, b, some + {x})
  {
    hide Placed.Valid, Placed.Top, PhiAt, Replaced;
    forall y | y in code1 && y !in dead ensures InstrAt(s, code1[y], done, FilledBy(filled, b, some + {x}, y), y) {
      assert InstrAt(s, code[y], done, FilledBy(filled, b, some, y), y);
      if y == x {
        PhiFill(s, x, code[x].args, filled, b, top);
        PhiFillValue(s, b, PhiCell(s.f.code, x).value);
      }
    }
  }

  lemma PhiFillValue(s: Placed, b: Block, v: Id)
    requires s.Valid() && b in s.f.lists
    ensures var top := s.Top(b, |s.List(b)|, v); top.Some? && top.value.Res? ==> !Replaced(s, top.value.id)
  {
    hide Placed.Valid, Placed.Top, Replaced;
    if s.Top(b, |s.List(b)|, v).Some? && s.Top(b, |s.List(b)|, v).value.Res? {
      TopSettled(s, b, |s.List(b)|, v);
      SettledNotReplaced(s, s.Top(b, |s.List(b)|, v).value, b, |s.List(b)|);
    }
  }

  // Once b has filled in its operand in all phis of its successors, it counts as filled.
  lemma {:induction false} FillDone(s: Placed, code: Code, dead: set<Id>, done: set<Id>, filled: set<Block>, b: Block,
      some: set<Id>, c: Block)
    requires s.Valid() && CodeAt(s, code, dead, done, filled, b, some)
    requires forall x :: Listed(s.f, x) && PhiCell(s.f.code, x).Some? && s.f.g.Edge(b, s.Home(x)) ==> x in some
    ensures CodeAt(s, code, dead, done, filled + {b}, c, {})
  {
    hide Placed.Valid, Placed.Top, Replaced, PhiOperand;
    forall x | x in code && x !in dead ensures InstrAt(s, code[x], done, FilledBy(filled + {b}, c, {}, x), x) {
      assert InstrAt(s, code[x], done, FilledBy(filled, b, some, x), x);
      if x !in some { NoPredHere(s, x, b); }
    }
  }

  lemma NoPredHere(s: Placed, x: Id, b: Block)
    requires s.Valid()
    ensures s.Home(x) in s.f.g.pred && !s.f.g.Edge(b, s.Home(x)) ==> b !in s.f.g.pred[s.Home(x)]
  {
    hide Tree, Anc, StrictSsa;
  }

  lemma {:induction false} FillTurn(s: Placed, code: Code, dead: set<Id>, done: set<Id>, filled: set<Block>, b: Block,
      c: Block)
    requires s.Valid() && CodeAt(s, code, dead, done, filled, b, {})
    ensures CodeAt(s, code, dead, done, filled, c, {})
  {
    hide Placed.Valid, InstrAt;
    forall x | x in code && x !in dead ensures InstrAt(s, code[x], done, FilledBy(filled, c, {}, x), x) {
      assert InstrAt(s, code[x], done, FilledBy(filled, b, {}, x), x);
    }
  }

  // ---- Stacks ----

  type Stacks = map<Operand, seq<Operand>>

  function Get(stack: Stacks, a: Operand): seq<Operand> {
    if a in stack then stack[a] else []
  }

  function Last(l: seq<Operand>): Option<Operand> {
    if l == [] then None else Some(l[|l| - 1])
  }

  // What the first i instructions of b push for cell v.
  ghost function Pushed(s: Placed, b: Block, i: nat, v: Id): seq<Operand>
    requires s.Valid() && i <= |s.List(b)|
  {
    if i == 0 then []
    else
      var x := s.List(b)[i - 1];
      Pushed(s, b, i - 1, v) +
      if PhiCell(s.f.code, x) == Some(v) then [Res(x)]
      else if StoreCell(s.f.code, x) == Some(v) then [s.Resolve(s.StoredOperand(x))]
      else []
  }

  lemma {:induction false} PushedTop(s: Placed, b: Block, i: nat, v: Id)
    requires s.Valid() && b in s.f.lists && i <= |s.List(b)|
    ensures s.Top(b, i, v) == if Pushed(s, b, i, v) == [] then s.Top(b, 0, v) else Last(Pushed(s, b, i, v))
  {
    hide Placed.Valid, CellOf, Placed.Resolve;
    if i > 0 {
      PushedTop(s, b, i - 1, v);
      var x := s.List(b)[i - 1];
      if StoreCell(s.f.code, x) == Some(v) && PhiCell(s.f.code, x) != Some(v) {
        StoredAvailable(s, b, i - 1);
        ValueIsResolve(s, s.StoredOperand(x), b, i - 1);
      }
    }
  }

  lemma {:induction false} PushedDefines(s: Placed, b: Block, i: nat, v: Id)
    requires s.Valid() && i <= |s.List(b)|
    ensures Pushed(s, b, i, v) != [] <==>
              exists j ::
                0 <= j < i &&
                  (PhiCell(s.f.code, s.List(b)[j]) == Some(v) || StoreCell(s.f.code, s.List(b)[j]) == Some(v))
  {
    hide Placed.Valid, CellOf, Placed.Resolve;
    if i > 0 { PushedDefines(s, b, i - 1, v); }
  }

  // On top of `base`, the stacks hold what the first i instructions of b push.
  ghost predicate StackAt(s: Placed, stack: Stacks, base: Stacks, b: Block, i: nat)
    requires s.Valid() && i <= |s.List(b)|
  {
    forall v {:trigger Get(stack, Res(v))} :: Get(stack, Res(v)) == Get(base, Res(v)) + Pushed(s, b, i, v)
  }

  ghost predicate BaseOk(s: Placed, base: Stacks, b: Block)
    requires s.Valid() && b in s.f.lists
  {
    forall v {:trigger Get(base, Res(v))} :: Last(Get(base, Res(v))) == s.Top(b, 0, v)
  }

  // The stack of v ends with the static top.
  lemma {:induction false} StackTop(s: Placed, stack: Stacks, base: Stacks, b: Block, i: nat, v: Id)
    requires s.Valid() && b in s.f.lists && i <= |s.List(b)| && StackAt(s, stack, base, b, i) && BaseOk(s, base, b)
    ensures Last(Get(stack, Res(v))) == s.Top(b, i, v)
  {
    hide Placed.Valid, Placed.Top, Pushed;
    PushedTop(s, b, i, v);
    var l, p := Get(base, Res(v)), Pushed(s, b, i, v);
    if p == [] { assert l + p == l; } else { assert (l + p)[|l + p| - 1] == p[|p| - 1]; }
  }

  ghost predicate DefinedIn(s: Placed, full: set<Block>, v: Id) {
    exists c :: c in full && Defines(s, c, v)
  }

  // The cells with a stack are those a block in `full`, or the first i instructions of b, defines.
  ghost predicate KeysAre(s: Placed, stack: Stacks, full: set<Block>, b: Block, i: nat)
    requires s.Valid() && i <= |s.List(b)|
  {
    && (forall a :: a in stack ==> a.Res?)
    && forall v {:trigger Res(v) in stack} :: Res(v) in stack <==> DefinedIn(s, full, v) || Pushed(s, b, i, v) != []
  }

  // Instruction i defines v with value a.
  ghost predicate Pushes(s: Placed, b: Block, i: nat, v: Id, a: Operand)
    requires s.Valid() && i < |s.List(b)|
  {
    var x := s.List(b)[i];
    if PhiCell(s.f.code, x).Some? then PhiCell(s.f.code, x) == Some(v) && a == Res(x)
    else StoreCell(s.f.code, x) == Some(v) && a == s.Resolve(s.StoredOperand(x))
  }

  lemma {:induction false} PushedNext(s: Placed, b: Block, i: nat, next: nat, v: Id, a: Operand, u: Id)
    requires s.Valid() && i < |s.List(b)| && next == i + 1 && Pushes(s, b, i, v, a)
    ensures Pushed(s, b, next, u) == Pushed(s, b, i, u) + if u == v then [a] else []
  {
    hide Placed.Valid, CellOf, Placed.Resolve;
  }

  // Pushing what instruction i defines.
  lemma {:induction false} PushOne(s: Placed, stack: Stacks, base: Stacks, full: set<Block>, b: Block, i: nat,
      next: nat, v: Id, a: Operand, stack1: Stacks)
    requires s.Valid() && i < |s.List(b)| && next == i + 1
    requires StackAt(s, stack, base, b, i) && KeysAre(s, stack, full, b, i)
    requires Pushes(s, b, i, v, a) && stack1 == stack[Res(v) := Get(stack, Res(v)) + [a]]
    ensures StackAt(s, stack1, base, b, next) && KeysAre(s, stack1, full, b, next)
  {
    hide Placed.Valid, Pushes, Pushed, DefinedIn;
    forall u ensures Get(stack1, Res(u)) == Get(base, Res(u)) + Pushed(s, b, next, u) {
      PushedNext(s, b, i, next, v, a, u);
      assert Get(stack, Res(u)) == Get(base, Res(u)) + Pushed(s, b, i, u);
    }
    forall u ensures Res(u) in stack1 <==> DefinedIn(s, full, u) || Pushed(s, b, next, u) != [] {
      PushedNext(s, b, i, next, v, a, u);
      assert Res(u) in stack <==> DefinedIn(s, full, u) || Pushed(s, b, i, u) != [];
    }
  }

  // An instruction that defines no cell.
  lemma {:induction false} PushNone(s: Placed, stack: Stacks, base: Stacks, full: set<Block>, b: Block, i: nat,
      next: nat)
    requires s.Valid() && i < |s.List(b)| && next == i + 1
    requires StackAt(s, stack, base, b, i) && KeysAre(s, stack, full, b, i)
    requires PhiCell(s.f.code, s.List(b)[i]).None? && StoreCell(s.f.code, s.List(b)[i]).None?
    ensures StackAt(s, stack, base, b, next) && KeysAre(s, stack, full, b, next)
  {
    hide Placed.Valid, CellOf, Placed.Resolve, DefinedIn;
    forall u ensures Pushed(s, b, next, u) == Pushed(s, b, i, u) {
    }
  }

  // ---- Popping ----

  lemma {:induction false} PushedGrows(s: Placed, b: Block, i: nat, j: nat, v: Id)
    requires s.Valid() && i <= j <= |s.List(b)|
    ensures |Pushed(s, b, i, v)| <= |Pushed(s, b, j, v)|
    decreases j
  {
    hide Placed.Valid, PhiCell, StoreCell, Placed.Resolve;
    if i < j { PushedGrows(s, b, i, j - 1, v); }
  }

  // When the pushes of the first j instructions have been popped from the top.
  ghost predicate PoppedAt(s: Placed, stack: Stacks, base: Stacks, b: Block, j: nat)
    requires s.Valid() && j <= |s.List(b)|
  {
    forall v {:trigger Get(stack, Res(v))} :: PoppedCell(s, Get(stack, Res(v)), Get(base, Res(v)), b, j, v)
  }

  ghost predicate PoppedCell(s: Placed, l: seq<Operand>, base: seq<Operand>, b: Block, j: nat, v: Id)
    requires s.Valid() && j <= |s.List(b)|
  {
    var all := base + Pushed(s, b, |s.List(b)|, v);
    |Pushed(s, b, j, v)| <= |Pushed(s, b, |s.List(b)|, v)| && l == all[..|all| - |Pushed(s, b, j, v)|]
  }

  lemma PopStart(s: Placed, stack: Stacks, base: Stacks, b: Block)
    requires s.Valid() && StackAt(s, stack, base, b, |s.List(b)|)
    ensures PoppedAt(s, stack, base, b, 0)
  {
    hide Placed.Valid;
    forall v ensures PoppedCell(s, Get(stack, Res(v)), Get(base, Res(v)), b, 0, v) {
      var all := Get(base, Res(v)) + Pushed(s, b, |s.List(b)|, v);
      assert all[..|all|] == all;
    }
  }

  lemma {:induction false} PopCell(s: Placed, l: seq<Operand>, base: seq<Operand>, b: Block, j: nat, next: nat, u: Id,
      v: Id, a: Operand)
    requires s.Valid() && j < |s.List(b)| && next == j + 1 && Pushes(s, b, j, v, a) && PoppedCell(s, l, base, b, j, u)
    ensures u == v ==> l != []
    ensures PoppedCell(s, if u == v then l[..|l| - 1] else l, base, b, next, u)
  {
    hide Placed.Valid, Pushes;
    PushedNext(s, b, j, next, v, a, u);
    PushedGrows(s, b, next, |s.List(b)|, u);
  }

  lemma {:induction false} PopOne(s: Placed, stack: Stacks, base: Stacks, b: Block, j: nat, next: nat, v: Id,
      a: Operand)
    requires s.Valid() && j < |s.List(b)| && next == j + 1 && Pushes(s, b, j, v, a) && PoppedAt(s, stack, base, b, j)
    ensures Res(v) in stack && stack[Res(v)] != []
    ensures PoppedAt(s, stack[Res(v) := stack[Res(v)][..|stack[Res(v)]| - 1]], base, b, next)
  {
    hide Placed.Valid, Pushes, PoppedCell;
    assert PoppedCell(s, Get(stack, Res(v)), Get(base, Res(v)), b, j, v);
    PopCell(s, Get(stack, Res(v)), Get(base, Res(v)), b, j, next, v, v, a);
    var stack1 := stack[Res(v) := stack[Res(v)][..|stack[Res(v)]| - 1]];
    forall u ensures PoppedCell(s, Get(stack1, Res(u)), Get(base, Res(u)), b, next, u) {
      assert PoppedCell(s, Get(stack, Res(u)), Get(base, Res(u)), b, j, u);
      PopCell(s, Get(stack, Res(u)), Get(base, Res(u)), b, j, next, u, v, a);
    }
  }

  lemma {:induction false} PopNone(s: Placed, stack: Stacks, base: Stacks, b: Block, j: nat, next: nat)
    requires s.Valid() && j < |s.List(b)| && next == j + 1 && PoppedAt(s, stack, base, b, j)
    requires PhiCell(s.f.code, s.List(b)[j]).None? && StoreCell(s.f.code, s.List(b)[j]).None?
    ensures PoppedAt(s, stack, base, b, next)
  {
    hide Placed.Valid, CellOf;
    forall u ensures PoppedCell(s, Get(stack, Res(u)), Get(base, Res(u)), b, next, u) {
      assert PoppedCell(s, Get(stack, Res(u)), Get(base, Res(u)), b, j, u);
      assert Pushed(s, b, next, u) == Pushed(s, b, j, u);
    }
  }

  ghost predicate SameStacks(stack: Stacks, base: Stacks) {
    forall v {:trigger Get(stack, Res(v))} :: Get(stack, Res(v)) == Get(base, Res(v))
  }

  lemma PopDone(s: Placed, stack: Stacks, base: Stacks, b: Block)
    requires s.Valid() && PoppedAt(s, stack, base, b, |s.List(b)|)
    ensures SameStacks(stack, base)
  {
    hide Placed.Valid, Pushed;
    forall v ensures Get(stack, Res(v)) == Get(base, Res(v)) {
      assert PoppedCell(s, Get(stack, Res(v)), Get(base, Res(v)), b, |s.List(b)|, v);
      var all := Get(base, Res(v)) + Pushed(s, b, |s.List(b)|, v);
      assert all[..|Get(base, Res(v))|] == Get(base, Res(v));
    }
  }

  // ---- Which loads have been replaced ----

  ghost predicate DoneIs(s: Placed, done: set<Id>, full: set<Block>, b: Block, i: nat)
    requires s.Valid()
  {
    forall l {:trigger l in done} :: l in done <==>
      Replaced(s, l) && (s.Home(l) in full || (s.Home(l) == b && s.Place(l) < i))
  }

  lemma {:induction false} DoneStep(s: Placed, done: set<Id>, full: set<Block>, b: Block, i: nat, next: nat)
    requires s.Valid() && b in s.f.lists && i < |s.List(b)| && next == i + 1 && b !in full &&
      DoneIs(s, done, full, b, i)
    ensures s.List(b)[i] !in done
    ensures DoneIs(s, if Replaced(s, s.List(b)[i]) then done + {s.List(b)[i]} else done, full, b, next)
  {
    hide Placed.Valid, Placed.Top;
    PlaceOf(s, b, i);
    var x := s.List(b)[i];
    forall l | Replaced(s, l) && s.Home(l) == b ensures s.Place(l) == i <==> l == x {
      ListedPlace(s, l);
    }
  }

  lemma {:induction false} DoneBlock(s: Placed, done: set<Id>, full: set<Block>, b: Block, c: Block)
    requires s.Valid() && b in s.f.lists && DoneIs(s, done, full, b, |s.List(b)|)
    ensures DoneIs(s, done, full + {b}, c, 0)
  {
    hide Placed.Valid, Placed.Top;
    forall l | Replaced(s, l) && s.Home(l) == b ensures s.Place(l) < |s.List(b)| {
      ListedPlace(s, l);
    }
  }

  // Everything above b has been entered.
  ghost predicate AboveIn(s: Placed, full: set<Block>, b: Block) {
    forall d {:trigger d in full} :: s.f.g.StrictlyDominates(d, b) ==> d in full
  }

  // What renaming sees as the operand of a store is the operand after renaming.
  lemma {:induction false} SubIsResolve(s: Placed, done: set<Id>, full: set<Block>, b: Block, i: nat, a: Operand)
    requires s.Valid() && b in s.f.lists && i <= |s.List(b)| && Available(s.f, a, b, i)
    requires DoneIs(s, done, full, b, i) && AboveIn(s, full, b)
    ensures Sub(s, done, a) == s.Resolve(a)
  {
    hide Placed.Valid, Placed.Top;
    if a.Res? {
      ListedPlace(s, a.id);
      if Replaced(s, a.id) { assert a.id in done; }
    }
  }

  // ---- The instruction lists ----

  // What renaming leaves of a list.
  ghost function Live(s: Placed, xs: seq<Id>): seq<Id>
    requires s.Valid()
  {
    if xs == [] then [] else (if Gone(s, xs[0]) then [] else [xs[0]]) + Live(s, xs[1..])
  }

  ghost predicate ListsAt(s: Placed, lists: map<Block, seq<Id>>, finished: set<Block>)
    requires s.Valid()
  {
    && lists.Keys == s.f.lists.Keys
    && forall c :: c in lists ==> lists[c] == if c in finished then Live(s, s.f.lists[c]) else s.f.lists[c]
  }

  lemma {:induction false} WithoutIsLive(s: Placed, xs: seq<Id>, gone: set<Id>)
    requires s.Valid() && forall x :: x in xs ==> (x in gone <==> Gone(s, x))
    ensures Without(xs, gone) == Live(s, xs)
  {
    hide Placed.Valid, Gone;
    if xs != [] { WithoutIsLive(s, xs[1..], gone); }
  }

  lemma {:induction false} WithoutTwice(xs: seq<Id>, gone: set<Id>, x: Id)
    ensures Without(Without(xs, gone), {x}) == Without(xs, gone + {x})
  {
    if xs != [] {
      WithoutTwice(xs[1..], gone, x);
      if xs[0] !in gone {
        assert Without(xs, gone) == [xs[0]] + Without(xs[1..], gone);
        assert ([xs[0]] + Without(xs[1..], gone))[1..] == Without(xs[1..], gone);
      } else {
        assert Without(xs, gone) == Without(xs[1..], gone);
      }
    }
  }

  lemma {:induction false} WithoutNone(xs: seq<Id>)
    ensures Without(xs, {}) == xs
  {
    if xs != [] { WithoutNone(xs[1..]); }
  }

  lemma {:induction false} LiveHas(s: Placed, xs: seq<Id>, x: Id)
    requires s.Valid()
    ensures x in Live(s, xs) <==> x in xs && !Gone(s, x)
  {
    hide Placed.Valid, Gone;
    if xs != [] { LiveHas(s, xs[1..], x); }
  }

  // Deleting what is left of the promoted loads and stores, the number cells, from Live.
  lemma {:induction false} LiveWithoutCells(s: Placed, xs: seq<Id>, cells: set<Id>)
    requires s.Valid() &&
      forall x :: x in xs && !Gone(s, x) ==> (x in cells <==> x in s.f.code && s.f.code[x].op == Alloca(Number))
    ensures Without(Live(s, xs), cells) == Keep(s, xs)
  {
    hide Placed.Valid, Replaced, StoreCell;
    if xs != [] {
      LiveWithoutCells(s, xs[1..], cells);
      if !Gone(s, xs[0]) {
        assert Live(s, xs) == [xs[0]] + Live(s, xs[1..]);
        assert ([xs[0]] + Live(s, xs[1..]))[1..] == Live(s, xs[1..]);
      } else {
        assert Live(s, xs) == Live(s, xs[1..]);
      }
    }
  }

  // ---- The order of the walk and what can stop it ----

  // Block b asks for the value of v at a point where v's stack is empty.
  ghost predicate Missing(s: Placed, b: Block, v: Id)
    requires s.Valid() && b in s.f.lists
  {
    MissesLoad(s, b, v) || MissesFill(s, b, v)
  }

  // A load of v for which there is no value.
  ghost predicate MissesLoad(s: Placed, b: Block, v: Id)
    requires s.Valid() && b in s.f.lists
  {
    exists i :: 0 <= i < |s.List(b)| && LoadCell(s.f.code, s.List(b)[i]) == Some(v) && s.Top(b, i, v).None?
  }

  // No value at the end, where a phi of a successor needs one.
  ghost predicate MissesFill(s: Placed, b: Block, v: Id)
    requires s.Valid() && b in s.f.lists
  {
    s.Top(b, |s.List(b)|, v).None? && exists d :: s.f.g.Edge(b, d) && HasPhi(s, d, v)
  }

  // Entry k of the walk asks for a cell that an earlier entry has defined but whose stack
  // is empty again: the back() of an empty vector, or the failing assertion.
  ghost predicate Clash(s: Placed, order: seq<Block>, k: nat)
    requires s.Valid() && k < |order|
  {
    order[k] in s.f.lists && exists v :: Missing(s, order[k], v) && DefinedIn(s, Elements(order[..k]), v)
  }

  // Below a child, everything above has been entered once b has.
  lemma AboveChild(s: Placed, full: set<Block>, b: Block, c: Block)
    requires s.Valid() && AboveIn(s, full, b) && b in full && c in s.f.lists && s.f.g.ImmediateDominator(b, c)
    ensures AboveIn(s, full, c)
  {
    hide Tree, Anc, StrictSsa;
    forall d | s.f.g.StrictlyDominates(d, c) ensures d in full {
      assert s.f.g.Dominates(d, b);
    }
  }

  // ---- What the pass reads from an instruction of the block it is in ----

  ghost predicate PhisOfCells(s: Placed) {
    forall x {:trigger PhiCell(s.f.code, x)} :: Listed(s.f, x) && PhiCell(s.f.code, x).Some? ==>
      CellOf(s.f.code, Res(PhiCell(s.f.code, x).value)).Some?
  }

  ghost predicate Ready(s: Placed) {
    && s.Valid() && AddressKinds(s.f.code) && PhisOfCells(s)
  }

  // Deleted instructions belong to finished blocks.
  ghost predicate DeadAre(s: Placed, dead: set<Id>, finished: set<Block>)
    requires s.Valid()
  {
    forall x :: x in dead ==> Gone(s, x) && s.Home(x) in finished
  }

  ghost predicate RetiredAre(retired: set<Operand>, done: set<Id>) {
    forall a {:trigger a in retired} :: a in retired <==> a.Res? && a.id in done
  }

  lemma {:induction false} DoneReplaced(s: Placed, done: set<Id>, full: set<Block>, b: Block, i: nat)
    requires s.Valid() && DoneIs(s, done, full, b, i)
    ensures forall d :: d in done ==> Replaced(s, d)
  {
  }

  // An address operand is never a load, so renaming leaves it alone.
  lemma AddressKept(s: Placed, done: set<Id>, x: Id, k: nat)
    requires Ready(s) && x in s.f.code && k < |s.f.code[x].args|
    requires (s.f.code[x].op.Load? && k == 0) || (s.f.code[x].op.Store? && k == 1)
    requires forall d :: d in done ==> Replaced(s, d)
    ensures Sub(s, done, s.f.code[x].args[k]) == s.f.code[x].args[k]
  {
    hide Placed.Valid, Placed.Top, Placed.Resolve, Replaced;
    assert AddressKind(s.f.code, x);
    var a := s.f.code[x].args[k];
    if a.Res? && a.id in done { ReplacedIsLoad(s, a.id); }
  }

  lemma ReplacedIsLoad(s: Placed, x: Id)
    requires s.Valid() && Replaced(s, x)
    ensures x in s.f.code && s.f.code[x].op.Load?
  {
    hide Placed.Valid, Placed.Top;
  }

  lemma {:induction false} PromotableSame(s: Placed, code: Code, dead: set<Id>, done: set<Id>, filled: set<Block>,
      b: Block, some: set<Id>, a: Operand)
    requires s.Valid() && CodeAt(s, code, dead, done, filled, b, some)
    ensures Promotable(code, a) == Promotable(s.f.code, a)
  {
    hide Placed.Valid, InstrAt;
  }

  // Instruction x of the current block as the pass sees it.
  ghost predicate Seen(s: Placed, instr: Instr, done: set<Id>, x: Id)
    requires s.Valid() && x in s.f.code
  {
    hide Placed.Valid;
    && instr.op == s.f.code[x].op
    && (instr.op.Load? ==> |instr.args| == 1 && |s.f.code[x].args| == 1 && instr.args[0] == s.f.code[x].args[0])
    && (instr.op.Store? ==> |instr.args| == 2 && |s.f.code[x].args| == 2 && instr.args[1] == s.f.code[x].args[1]
                            && instr.args[0] == Sub(s, done, s.f.code[x].args[0]))
  }

  lemma {:induction false} SeeInstr(s: Placed, code: Code, dead: set<Id>, done: set<Id>, filled: set<Block>,
      finished: set<Block>, b: Block, i: nat)
    requires Ready(s) && CodeAt(s, code, dead, done, filled, b, {}) && DeadAre(s, dead, finished)
    requires b in s.f.lists && i < |s.List(b)| && b !in finished && forall d :: d in done ==> Replaced(s, d)
    ensures var x := s.List(b)[i]; x in code && x in s.f.code && x !in dead && Seen(s, code[x], done, x)
  {
    hide Placed.Valid, Replaced, Placed.Resolve, PhiAt, Gone;
    PlaceOf(s, b, i);
    var x := s.List(b)[i];
    assert InstrAt(s, code[x], done, FilledBy(filled, b, {}, x), x);
    assert AddressKind(s.f.code, x);
    if code[x].op.Load? { AddressKept(s, done, x, 0); }
    if code[x].op.Store? { AddressKept(s, done, x, 1); }
  }

  lemma PhiOfCell(s: Placed, b: Block, i: nat)
    requires Ready(s) && i < |s.List(b)| && PhiCell(s.f.code, s.List(b)[i]).Some?
    ensures CellOf(s.f.code, Res(PhiCell(s.f.code, s.List(b)[i]).value)).Some?
  {
    hide Placed.Valid;
    PlaceOf(s, b, i);
  }

  lemma {:induction false} PushedIsCell(s: Placed, b: Block, i: nat, v: Id)
    requires Ready(s) && i <= |s.List(b)| && Pushed(s, b, i, v) != []
    ensures CellOf(s.f.code, Res(v)).Some?
  {
    hide Placed.Valid, Placed.Resolve, PhisOfCells;
    if i > 0 && Pushed(s, b, i - 1, v) != [] {
      PushedIsCell(s, b, i - 1, v);
    } else if i > 0 && PhiCell(s.f.code, s.List(b)[i - 1]).Some? {
      PhiOfCell(s, b, i - 1);
    }
  }

  // Only cells have stacks.
  lemma {:induction false} KeyIsCell(s: Placed, stack: Stacks, full: set<Block>, b: Block, i: nat, v: Id)
    requires Ready(s) && i <= |s.List(b)| && KeysAre(s, stack, full, b, i) && Res(v) in stack
    ensures CellOf(s.f.code, Res(v)).Some?
  {
    hide Placed.Valid;
    if Pushed(s, b, i, v) != [] {
      PushedIsCell(s, b, i, v);
    } else {
      var c :| c in full && Defines(s, c, v);
      var i :| 0 <= i < |s.List(c)| &&
        (PhiCell(s.f.code, s.List(c)[i]) == Some(v) || StoreCell(s.f.code, s.List(c)[i]) == Some(v));
      if PhiCell(s.f.code, s.List(c)[i]).Some? { PhiOfCell(s, c, i); }
    }
  }

  // The load case of the loop: what the three tests of the source decide.
  lemma {:induction false} LoadCase(s: Placed, instr: Instr, done: set<Id>, stack: Stacks, base: Stacks,
      full: set<Block>, b: Block, i: nat)
    requires Ready(s) && b in s.f.lists && i < |s.List(b)| && s.List(b)[i] in s.f.code &&
      Seen(s, instr, done, s.List(b)[i])
    requires StackAt(s, stack, base, b, i) && BaseOk(s, base, b) && KeysAre(s, stack, full, b, i)
    ensures var x := s.List(b)[i]; instr.op.Load? ==>
              (Promotable(s.f.code, instr.args[0]) && instr.args[0] in stack ==>
                 LoadCell(s.f.code, x).Some? && instr.args[0] == Res(LoadCell(s.f.code, x).value)
                 && (stack[instr.args[0]] != [] ==>
                      Replaced(s, x) && Last(stack[instr.args[0]]) == Some(s.Resolve(Res(x))))
                 && (stack[instr.args[0]] == [] ==> s.Top(b, i, LoadCell(s.f.code, x).value).None?
                                                    && DefinedIn(s, full, LoadCell(s.f.code, x).value)))
    ensures var x := s.List(b)[i]; instr.op.Load? ==>
              (!(Promotable(s.f.code, instr.args[0]) && instr.args[0] in stack) ==>
                 !Replaced(s, x) && (LoadCell(s.f.code, x).Some? ==> !DefinedIn(s, full, LoadCell(s.f.code, x).value)))
  {
    hide Placed.Valid, Placed.Top, Placed.Resolve, DefinedIn, Pushed, CellOf;
    PlaceOf(s, b, i);
    var x := s.List(b)[i];
    assert AddressKind(s.f.code, x);
    if instr.op.Load? && Promotable(s.f.code, instr.args[0]) {
      var v := instr.args[0].id;
      assert instr.args[0] == Res(v);
      LoadCellIs(s, x);
      if instr.args[0] in stack { KeyIsCell(s, stack, full, b, i, v); }
      StackTop(s, stack, base, b, i, v);
      PushedTop(s, b, i, v);
      LoadResolve(s, x);
      assert Res(v) in stack <==> DefinedIn(s, full, v) || Pushed(s, b, i, v) != [];
      assert Get(stack, Res(v)) == Get(base, Res(v)) + Pushed(s, b, i, v);
    } else if instr.op.Load? {
      LoadCellPromotable(s, x);
    }
  }

  lemma LoadCellIs(s: Placed, x: Id)
    requires x in s.f.code && s.f.code[x].op.Load? && |s.f.code[x].args| == 1
    ensures LoadCell(s.f.code, x) == CellOf(s.f.code, s.f.code[x].args[0])
    ensures s.f.code[x].args[0].Res? && CellOf(s.f.code, s.f.code[x].args[0]).Some? ==>
              LoadCell(s.f.code, x) == Some(s.f.code[x].args[0].id)
  {
  }

  lemma LoadCellPromotable(s: Placed, x: Id)
    requires x in s.f.code && s.f.code[x].op.Load? && |s.f.code[x].args| == 1 &&
      !Promotable(s.f.code, s.f.code[x].args[0])
    ensures LoadCell(s.f.code, x).None?
  {
  }

  lemma LoadResolve(s: Placed, x: Id)
    requires s.Valid() && Listed(s.f, x)
    ensures LoadCell(s.f.code, x).Some? ==>
              s.Home(x) in s.f.lists && s.Place(x) <= |s.List(s.Home(x))|
              && (Replaced(s, x) <==> s.Top(s.Home(x), s.Place(x), LoadCell(s.f.code, x).value).Some?)
              && (Replaced(s, x) ==>
                   s.Top(s.Home(x), s.Place(x), LoadCell(s.f.code, x).value) == Some(s.Resolve(Res(x))))
  {
    hide Placed.Valid, Placed.Top;
    ListedPlace(s, x);
  }

  lemma {:induction false} StoreCase(s: Placed, instr: Instr, done: set<Id>, full: set<Block>, b: Block, i: nat)
    requires Ready(s) && b in s.f.lists && i < |s.List(b)| && s.List(b)[i] in s.f.code &&
      Seen(s, instr, done, s.List(b)[i])
    requires DoneIs(s, done, full, b, i) && AboveIn(s, full, b)
    ensures var x := s.List(b)[i];
      StoreCell(s.f.code, x).Some? <==> instr.op.Store? && Promotable(s.f.code, instr.args[1])
    ensures var x := s.List(b)[i]; StoreCell(s.f.code, x).Some? ==>
              instr.args[1] == Res(StoreCell(s.f.code, x).value) && PhiCell(s.f.code, x).None?
              && Pushes(s, b, i, StoreCell(s.f.code, x).value, instr.args[0])
  {
    hide Placed.Valid, Placed.Top, Placed.Resolve, Available;
    var x := s.List(b)[i];
    assert AddressKind(s.f.code, x);
    if StoreCell(s.f.code, x).Some? {
      StoredAvailable(s, b, i);
      SubIsResolve(s, done, full, b, i, s.StoredOperand(x));
    }
  }

  // ---- Progress through one block ----

  // The loads before i that found no stack had no earlier definition anywhere.
  ghost predicate LoadsQuiet(s: Placed, full: set<Block>, b: Block, i: nat)
    requires s.Valid() && b in s.f.lists && i <= |s.List(b)|
  {
    forall j {:trigger LoadQuiet(s, full, b, j)} :: 0 <= j < i ==> LoadQuiet(s, full, b, j)
  }

  ghost predicate LoadQuiet(s: Placed, full: set<Block>, b: Block, j: nat)
    requires s.Valid() && b in s.f.lists && j < |s.List(b)|
  {
    var v := LoadCell(s.f.code, s.List(b)[j]);
    v.Some? && s.Top(b, j, v.value).None? ==> !DefinedIn(s, full, v.value)
  }

  ghost predicate InPrefix(l: seq<Id>, i: nat, x: Id) {
    exists j :: 0 <= j < i <= |l| && l[j] == x
  }

  lemma NothingBefore(l: seq<Id>)
    ensures forall x :: !InPrefix(l, 0, x)
  {
  }

  lemma PrefixStep(l: seq<Id>, i: nat, next: nat, x: Id)
    requires i < |l| && next == i + 1
    ensures InPrefix(l, next, x) <==> InPrefix(l, i, x) || x == l[i]
  {
    if InPrefix(l, next, x) && x != l[i] {
      var j :| 0 <= j < next && l[j] == x;
    }
  }

  // The instructions waiting to be deleted.
  ghost predicate WaitIs(s: Placed, b: Block, i: nat, wait: seq<Id>)
    requires s.Valid() && i <= |s.List(b)|
  {
    forall x :: x in wait <==> Gone(s, x) && InPrefix(s.List(b), i, x)
  }

  lemma {:induction false} WaitStep(s: Placed, b: Block, i: nat, next: nat, wait: seq<Id>)
    requires s.Valid() && i < |s.List(b)| && next == i + 1 && WaitIs(s, b, i, wait)
    ensures Gone(s, s.List(b)[i]) ==> WaitIs(s, b, next, wait + [s.List(b)[i]])
    ensures !Gone(s, s.List(b)[i]) ==> WaitIs(s, b, next, wait)
  {
    hide Placed.Valid, Gone, InPrefix;
    forall y ensures InPrefix(s.List(b), next, y) <==> InPrefix(s.List(b), i, y) || y == s.List(b)[i] {
      PrefixStep(s.List(b), i, next, y);
    }
  }

  lemma NotBoth(s: Placed, x: Id)
    requires s.Valid()
    ensures Replaced(s, x) ==> StoreCell(s.f.code, x).None?
    ensures PhiCell(s.f.code, x).Some? ==> !Gone(s, x) && LoadCell(s.f.code, x).None? && StoreCell(s.f.code, x).None?
  {
    hide Placed.Valid, Placed.Top, CellOf;
  }

  lemma {:induction false} MissingLoad(s: Placed, full: set<Block>, b: Block, i: nat, v: Id)
    requires s.Valid() && b in s.f.lists && i < |s.List(b)| && LoadCell(s.f.code, s.List(b)[i]) == Some(v)
    requires s.Top(b, i, v).None?
    ensures MissesLoad(s, b, v)
  {
    hide Placed.Valid, Placed.Top;
  }

  lemma ReplacementDiffers(s: Placed, x: Id)
    requires s.Valid() && Replaced(s, x)
    ensures s.Resolve(Res(x)) != Res(x)
  {
    hide Placed.Valid, Placed.Top;
    var c, j := s.Home(x), s.Place(x);
    ListedPlace(s, x);
    TopSettled(s, c, j, LoadCell(s.f.code, x).value);
    if s.Resolve(Res(x)) == Res(x) { SettledNotReplaced(s, Res(x), c, j); }
  }

  lemma UsesStart(s: Placed, full: set<Block>, b: Block)
    requires s.Valid() && b in s.f.lists
    ensures WaitIs(s, b, 0, []) && LoadsQuiet(s, full, b, 0)
  {
  }

  lemma {:induction false} QuietStep(s: Placed, full: set<Block>, b: Block, i: nat, next: nat)
    requires s.Valid() && b in s.f.lists && i < |s.List(b)| && next == i + 1 && LoadsQuiet(s, full, b, i) &&
      LoadQuiet(s, full, b, i)
    ensures LoadsQuiet(s, full, b, next)
  {
    hide Placed.Valid, LoadQuiet;
    forall j | 0 <= j < next ensures LoadQuiet(s, full, b, j) {
    }
  }

  // The bookkeeping of one step: position i of b is passed, and its instruction is among the
  // replaced loads, or a store, or neither.
  lemma {:induction false} StepBooks(s: Placed, done: set<Id>, full: set<Block>, b: Block, i: nat, next: nat,
      wait: seq<Id>)
    requires s.Valid() && b in s.f.lists && i < |s.List(b)| && next == i + 1 && b !in full
    requires DoneIs(s, done, full, b, i) && WaitIs(s, b, i, wait) && LoadsQuiet(s, full, b, i) &&
      LoadQuiet(s, full, b, i)
    ensures s.List(b)[i] !in done && LoadsQuiet(s, full, b, next)
    ensures Replaced(s, s.List(b)[i]) ==>
      DoneIs(s, done + {s.List(b)[i]}, full, b, next) && WaitIs(s, b, next, wait + [s.List(b)[i]])
    ensures !Replaced(s, s.List(b)[i]) ==> DoneIs(s, done, full, b, next)
    ensures StoreCell(s.f.code, s.List(b)[i]).Some? ==> WaitIs(s, b, next, wait + [s.List(b)[i]])
    ensures !Replaced(s, s.List(b)[i]) && StoreCell(s.f.code, s.List(b)[i]).None? ==> WaitIs(s, b, next, wait)
  {
    hide Placed.Valid, Replaced, StoreCell, DoneIs, WaitIs, LoadsQuiet, LoadQuiet;
    DoneStep(s, done, full, b, i, next);
    WaitStep(s, b, i, next, wait);
    QuietStep(s, full, b, i, next);
  }

  // A load that finds its cell's stack, one that finds none, and everything else are quiet.
  lemma QuietCases(s: Placed, full: set<Block>, b: Block, i: nat)
    requires s.Valid() && b in s.f.lists && i < |s.List(b)|
    requires Replaced(s, s.List(b)[i]) || LoadCell(s.f.code, s.List(b)[i]).None? ||
      !DefinedIn(s, full, LoadCell(s.f.code, s.List(b)[i]).value)
    ensures LoadQuiet(s, full, b, i)
  {
    hide Placed.Valid, Placed.Top, LoadCell;
    PlaceOf(s, b, i);
  }

  lemma LoadNoStore(s: Placed, x: Id)
    requires x in s.f.code && !s.f.code[x].op.Store?
    ensures StoreCell(s.f.code, x).None?
  {
  }

  lemma OnlyLoadsReplaced(s: Placed, x: Id)
    requires s.Valid() && x in s.f.code && !s.f.code[x].op.Load?
    ensures !Replaced(s, x) && LoadCell(s.f.code, x).None?
  {
    hide Placed.Valid, Placed.Top;
  }

  // ---- Filling, block by block ----

  // The phis of the successors in `ds`, and those among the first k instructions of l, the
  // list of d, have been handled.
  ghost predicate SomeIs(s: Placed, some: set<Id>, ds: seq<Block>, d: Block, l: seq<Id>, k: nat)
  {
    forall x {:trigger x in some} :: x in some <==>
      Listed(s.f, x) && PhiCell(s.f.code, x).Some? && (s.Home(x) in ds || (s.Home(x) == d && InPrefix(l, k, x)))
  }

  // The handled phis for which b has no value are for cells no block in `full` defines.
  ghost predicate FillsQuiet(s: Placed, full: set<Block>, b: Block, some: set<Id>)
    requires s.Valid() && b in s.f.lists
  {
    forall x :: x in some ==> FillQuiet(s, full, b, x)
  }

  ghost predicate FillQuiet(s: Placed, full: set<Block>, b: Block, x: Id)
    requires s.Valid() && b in s.f.lists
  {
    PhiCell(s.f.code, x).Some? && s.Top(b, |s.List(b)|, PhiCell(s.f.code, x).value).None? ==>
      !DefinedIn(s, full, PhiCell(s.f.code, x).value)
  }

  lemma {:induction false} SomeStart(s: Placed, full: set<Block>, b: Block, d: Block, l: seq<Id>)
    requires s.Valid() && b in s.f.lists
    ensures SomeIs(s, {}, [], d, l, 0) && FillsQuiet(s, full, b, {})
  {
  }

  lemma {:induction false} SomeStep(s: Placed, some: set<Id>, ds: seq<Block>, d: Block, l: seq<Id>, k: nat, next: nat)
    requires SomeIs(s, some, ds, d, l, k) && k < |l| && next == k + 1 && Distinct(l) && d !in ds
    requires Listed(s.f, l[k]) && s.Home(l[k]) == d
    ensures l[k] !in some
    ensures PhiCell(s.f.code, l[k]).Some? ==> SomeIs(s, some + {l[k]}, ds, d, l, next)
    ensures PhiCell(s.f.code, l[k]).None? ==> SomeIs(s, some, ds, d, l, next)
  {
    hide Listed, PhiCell, InPrefix;
    NotInPrefix(l, k);
    forall x ensures InPrefix(l, next, x) <==> InPrefix(l, k, x) || x == l[k] { PrefixStep(l, k, next, x); }
  }

  lemma NotInPrefix(l: seq<Id>, k: nat)
    requires k < |l| && Distinct(l)
    ensures !InPrefix(l, k, l[k])
  {
    forall i | 0 <= i < k ensures l[i] != l[k] { assert Apart(l, i, k); }
  }

  lemma {:induction false} SomeBlock(s: Placed, some: set<Id>, ds: seq<Block>, d: Block, l: seq<Id>, e: Block,
      l1: seq<Id>)
    requires SomeIs(s, some, ds, d, l, |l|)
    requires forall x :: Listed(s.f, x) && PhiCell(s.f.code, x).Some? && s.Home(x) == d ==> x in l
    ensures SomeIs(s, some, ds + [d], e, l1, 0)
  {
    hide Listed, PhiCell;
    forall x | x in l ensures InPrefix(l, |l|, x) {
    }
    assert forall y :: y in ds + [d] <==> y in ds || y == d;
  }

  lemma {:induction false} SomeTurn(s: Placed, some: set<Id>, ds: seq<Block>, d: Block, l: seq<Id>, e: Block,
      l1: seq<Id>)
    requires SomeIs(s, some, ds, d, l, 0)
    ensures SomeIs(s, some, ds, e, l1, 0)
  {
    hide Listed, PhiCell;
  }

  lemma {:induction false} SomeDone(s: Placed, some: set<Id>, b: Block, d: Block, l: seq<Id>)
    requires s.Valid() && b in s.f.g.succ && SomeIs(s, some, s.f.g.succ[b], d, l, 0)
    ensures forall x :: Listed(s.f, x) && PhiCell(s.f.code, x).Some? && s.f.g.Edge(b, s.Home(x)) ==> x in some
  {
    hide Placed.Valid, Listed, PhiCell;
  }

  lemma {:induction false} LiveDistinct(s: Placed, xs: seq<Id>)
    requires s.Valid() && Distinct(xs)
    ensures Distinct(Live(s, xs))
  {
    hide Placed.Valid, Gone;
    if xs != [] {
      DistinctRest(xs);
      LiveDistinct(s, xs[1..]);
      LiveHas(s, xs[1..], xs[0]);
      if Gone(s, xs[0]) { assert Live(s, xs) == Live(s, xs[1..]); } else { DistinctTail(xs[0], Live(s, xs[1..])); }
    }
  }

  // The list of a block holds all its phis, finished or not, once each.
  lemma ListPhis(s: Placed, lists: map<Block, seq<Id>>, finished: set<Block>, d: Block)
    requires s.Valid() && ListsAt(s, lists, finished) && d in s.f.lists
    ensures d in lists && Distinct(lists[d])
    ensures forall x :: x in lists[d] ==> Listed(s.f, x) && s.Home(x) == d && x in s.f.code
    ensures forall x :: Listed(s.f, x) && PhiCell(s.f.code, x).Some? && s.Home(x) == d ==> x in lists[d]
  {
    hide StrictSsa, IsDomTree, Placed.PhisFirst, Gone, PhiCell;
    LiveDistinct(s, s.f.lists[d]);
    forall x ensures x in Live(s, s.f.lists[d]) <==> x in s.f.lists[d] && !Gone(s, x) { LiveHas(s, s.f.lists[d], x); }
    forall x | x in s.f.lists[d] ensures Listed(s.f, x) && s.Home(x) == d && x in s.f.code {
      assert s.f.lists[d][IndexOf(s.f.lists[d], x)] == x;
    }
    forall x | PhiCell(s.f.code, x).Some? ensures !Gone(s, x) { NotBoth(s, x); }
  }

  // What the two tests of the source decide for phi x of a successor.
  lemma {:induction false} FillCase(s: Placed, stack: Stacks, base: Stacks, full: set<Block>, b: Block, x: Id)
    requires s.Valid() && b in s.f.lists && PhiCell(s.f.code, x).Some?
    requires StackAt(s, stack, base, b, |s.List(b)|) && BaseOk(s, base, b) && KeysAre(s, stack, full, b, |s.List(b)|)
    ensures var v := PhiCell(s.f.code, x).value; var top := s.Top(b, |s.List(b)|, v);
            && (Res(v) !in stack ==> top.None? && FillQuiet(s, full, b, x))
            && (Res(v) in stack && stack[Res(v)] == [] ==> top.None? && DefinedIn(s, full, v))
            && (Res(v) in stack && stack[Res(v)] != [] ==>
                 top == Last(stack[Res(v)]) && top.Some? && FillQuiet(s, full, b, x))
  {
    hide Placed.Valid, Placed.Top, DefinedIn, Pushed, PhiCell;
    var v := PhiCell(s.f.code, x).value;
    StackTop(s, stack, base, b, |s.List(b)|, v);
    PushedTop(s, b, |s.List(b)|, v);
    assert Res(v) in stack <==> DefinedIn(s, full, v) || Pushed(s, b, |s.List(b)|, v) != [];
    assert Get(stack, Res(v)) == Get(base, Res(v)) + Pushed(s, b, |s.List(b)|, v);
  }

  lemma {:induction false} MissingFill(s: Placed, b: Block, d: Block, x: Id)
    requires s.Valid() && b in s.f.lists && s.f.g.Edge(b, d) && Listed(s.f, x) && s.Home(x) == d && d in s.f.lists
    requires PhiCell(s.f.code, x).Some? && s.Top(b, |s.List(b)|, PhiCell(s.f.code, x).value).None?
    ensures MissesFill(s, b, PhiCell(s.f.code, x).value)
  {
    hide Placed.Valid, Placed.Top, PhiCell;
    ListedPlace(s, x);
    assert HasPhi(s, d, PhiCell(s.f.code, x).value);
  }

  // Nothing b asks for clashes with what the blocks entered before it define.
  lemma {:induction false} NothingMissing(s: Placed, full: set<Block>, b: Block, some: set<Id>, v: Id)
    requires s.Valid() && b in s.f.lists && LoadsQuiet(s, full, b, |s.List(b)|) && FillsQuiet(s, full, b, some)
    requires forall x :: Listed(s.f, x) && PhiCell(s.f.code, x).Some? && s.f.g.Edge(b, s.Home(x)) ==> x in some
    ensures Missing(s, b, v) ==> !DefinedIn(s, full, v)
  {
    hide Placed.Valid, Placed.Top, DefinedIn, Listed;
    if Missing(s, b, v) {
      if i :| 0 <= i < |s.List(b)| && LoadCell(s.f.code, s.List(b)[i]) == Some(v) && s.Top(b, i, v).None? {
        assert LoadQuiet(s, full, b, i);
      } else {
        var d :| s.f.g.Edge(b, d) && HasPhi(s, d, v);
        var x := PhiOf(s, d, v);
        assert FillQuiet(s, full, b, x);
      }
    }
  }

  lemma PhiOf(s: Placed, d: Block, v: Id) returns (x: Id)
    requires s.Valid() && HasPhi(s, d, v)
    ensures Listed(s.f, x) && s.Home(x) == d && PhiCell(s.f.code, x) == Some(v)
  {
    hide Placed.Valid, PhiCell;
    var i :| 0 <= i < |s.List(d)| && PhiCell(s.f.code, s.List(d)[i]) == Some(v);
    x := s.List(d)[i];
    PlaceOf(s, d, i);
  }

  // ---- Between the parts of a block ----

  // After b, its definitions count as those of an entered block.
  lemma {:induction false} KeysBlock(s: Placed, stack: Stacks, full: set<Block>, b: Block, c: Block)
    requires s.Valid() && KeysAre(s, stack, full, b, |s.List(b)|)
    ensures KeysAre(s, stack, full + {b}, c, 0)
  {
    hide Placed.Valid, PhiCell, StoreCell;
    forall v ensures Res(v) in stack <==> DefinedIn(s, full + {b}, v) || Pushed(s, c, 0, v) != [] {
      assert Res(v) in stack <==> DefinedIn(s, full, v) || Pushed(s, b, |s.List(b)|, v) != [];
      PushedDefines(s, b, |s.List(b)|, v);
      DefinedMore(s, full, b, v);
    }
  }

  lemma DefinedMore(s: Placed, full: set<Block>, b: Block, v: Id)
    ensures DefinedIn(s, full + {b}, v) <==> DefinedIn(s, full, v) || Defines(s, b, v)
  {
    hide Defines;
    if DefinedIn(s, full + {b}, v) {
      var c :| c in full + {b} && Defines(s, c, v);
    }
  }

  lemma {:induction false} KeysTurn(s: Placed, stack: Stacks, stack1: Stacks, full: set<Block>, b: Block, c: Block)
    requires s.Valid() && KeysAre(s, stack, full, b, 0) && stack1.Keys == stack.Keys
    ensures KeysAre(s, stack1, full, c, 0)
  {
    hide Placed.Valid, DefinedIn;
    forall v ensures Res(v) in stack1 <==> DefinedIn(s, full, v) || Pushed(s, c, 0, v) != [] {
      assert Res(v) in stack <==> DefinedIn(s, full, v) || Pushed(s, b, 0, v) != [];
    }
  }

  lemma {:induction false} StackKept(s: Placed, stack: Stacks, stack1: Stacks, base: Stacks, b: Block)
    requires s.Valid() && StackAt(s, stack, base, b, |s.List(b)|) && SameStacks(stack1, stack)
    ensures StackAt(s, stack1, base, b, |s.List(b)|)
  {
    hide Placed.Valid, Pushed;
  }

  lemma SameTrans(a: Stacks, b: Stacks, c: Stacks)
    requires SameStacks(a, b) && SameStacks(b, c)
    ensures SameStacks(a, c)
  {
  }

  // A child starts on the stacks its parent leaves.
  lemma {:induction false} ChildBase(s: Placed, stack: Stacks, base: Stacks, b: Block, c: Block)
    requires s.Valid() && b in s.f.lists && c in s.f.lists && s.f.g.ImmediateDominator(b, c)
    requires StackAt(s, stack, base, b, |s.List(b)|) && BaseOk(s, base, b)
    ensures BaseOk(s, stack, c)
  {
    hide Placed.Valid;
    ChildIdom(s, b, c);
    forall v ensures Last(Get(stack, Res(v))) == s.Top(c, 0, v) {
      StackTop(s, stack, base, b, |s.List(b)|, v);
    }
  }

  lemma ChildIdom(s: Placed, b: Block, c: Block)
    requires s.Valid() && b in s.f.lists && c in s.f.lists && s.f.g.ImmediateDominator(b, c)
    ensures c != s.f.g.entry && s.Idom(c) == b
  {
    hide Tree, Anc, StrictSsa;
    NoDominatorOfEntry(s.f.g, b);
    IdomHigher(s, c);
    LinkIsImmediateDominator(s.f.g, s.po, s.t, c, b);
  }

  // ---- Deleting what waits ----

  lemma {:induction false} DeletedList(s: Placed, lists: map<Block, seq<Id>>, finished: set<Block>, b: Block,
      l: seq<Id>, wait: seq<Id>)
    requires s.Valid() && ListsAt(s, lists, finished) && b in lists
    requires b in s.f.lists && WaitIs(s, b, |s.List(b)|, wait) && l == Without(s.f.lists[b], SetOf(wait))
    ensures ListsAt(s, lists[b := l], finished + {b})
  {
    hide Placed.Valid, Gone;
    forall x | x in s.f.lists[b] ensures x in SetOf(wait) <==> Gone(s, x) {
      var i :| 0 <= i < |s.f.lists[b]| && s.f.lists[b][i] == x;
      assert InPrefix(s.List(b), |s.List(b)|, x);
    }
    WithoutIsLive(s, s.f.lists[b], SetOf(wait));
  }

  function SetOf(l: seq<Id>): set<Id> {
    set x | x in l
  }

  lemma SetOfStep(l: seq<Id>, k: nat)
    requires k < |l|
    ensures SetOf(l[..k + 1]) == SetOf(l[..k]) + {l[k]}
  {
    assert l[..k + 1] == l[..k] + [l[k]];
  }

  lemma {:induction false} DeadMore(s: Placed, dead: set<Id>, finished: set<Block>, b: Block, wait: seq<Id>)
    requires s.Valid() && b in s.f.lists && DeadAre(s, dead, finished) && WaitIs(s, b, |s.List(b)|, wait)
    ensures DeadAre(s, dead + SetOf(wait), finished + {b})
  {
    hide Placed.Valid, Gone;
    forall x | x in wait ensures s.Home(x) == b {
      var i :| 0 <= i < |s.List(b)| && s.List(b)[i] == x;
      PlaceOf(s, b, i);
    }
  }

  lemma {:induction false} CodeMoreDead(s: Placed, code: Code, dead: set<Id>, dead1: set<Id>, done: set<Id>,
      filled: set<Block>, b: Block)
    requires s.Valid() && CodeAt(s, code, dead, done, filled, b, {}) && dead <= dead1
    ensures CodeAt(s, code, dead1, done, filled, b, {})
  {
    hide Placed.Valid, InstrAt;
  }

  // ---- The walk ----

  ghost predicate NoClash(s: Placed, order: seq<Block>, from: nat)
    requires s.Valid()
  {
    forall k {:trigger Clash(s, order, k)} :: from <= k < |order| ==> !Clash(s, order, k)
  }

  ghost predicate SomeClash(s: Placed, order: seq<Block>, from: nat)
    requires s.Valid()
  {
    exists k :: from <= k < |order| && Clash(s, order, k)
  }

  lemma ClashPrefix(s: Placed, order: seq<Block>, longer: seq<Block>, k: nat)
    requires s.Valid() && order <= longer && k < |order|
    ensures Clash(s, longer, k) <==> Clash(s, order, k)
  {
    hide Placed.Valid, Missing, DefinedIn;
    assert longer[..k] == order[..k];
  }

  // Entering b: the clash, if any, is at its entry.
  lemma ClashHere(s: Placed, order: seq<Block>, b: Block, longer: seq<Block>)
    requires s.Valid() && b in s.f.lists && longer == order + [b]
    ensures Clash(s, longer, |order|) <==> exists v :: Missing(s, b, v) && DefinedIn(s, Elements(order), v)
  {
    hide Placed.Valid, Missing, DefinedIn;
    assert longer[..|order|] == order && longer[|order|] == b;
  }

  lemma NoClashExtend(s: Placed, order: seq<Block>, from: nat, longer: seq<Block>)
    requires s.Valid() && from <= |order| && order <= longer && NoClash(s, order, from) && NoClash(s, longer, |order|)
    ensures NoClash(s, longer, from)
  {
    hide Placed.Valid, Clash;
    forall k | from <= k < |longer| ensures !Clash(s, longer, k) {
      if k < |order| { ClashPrefix(s, order, longer, k); }
    }
  }

  lemma SomeClashLater(s: Placed, order: seq<Block>, from: nat, later: nat)
    requires s.Valid() && from <= later && SomeClash(s, order, later)
    ensures SomeClash(s, order, from)
  {
    hide Placed.Valid, Clash;
  }

  lemma {:induction false} WalkEnters(s: Placed, order: seq<Block>, full: set<Block>, b: Block, longer: seq<Block>)
    requires Walk(s.f.g, order) && OpenAt(s.f.g, order, b) && full == Elements(order) && AboveIn(s, full, b) &&
      b !in full && longer == order + [b]
    ensures Walk(s.f.g, longer)
  {
    hide OpenAt, Walk;
    forall d | s.f.g.StrictlyDominates(d, b) ensures d in order { assert d in full; }
    WalkNext(s.f.g, order, b, longer);
  }

  // ---- The last step ----

  // Number cells are gone from the blocks in `bs`.
  ghost predicate Stripped(s: Placed, lists: map<Block, seq<Id>>, bs: seq<Block>, all: set<Block>)
    requires s.Valid()
  {
    && lists.Keys == s.f.lists.Keys == all
    && forall c :: c in lists ==> lists[c] == if c in bs then Keep(s, s.f.lists[c]) else Live(s, s.f.lists[c])
  }

  ghost predicate StripDead(s: Placed, dead: set<Id>)
    requires s.Valid()
  {
    forall x :: x in dead ==> Deleted(s, x)
  }

  lemma StripStart(s: Placed, lists: map<Block, seq<Id>>, all: set<Block>, dead: set<Id>)
    requires s.Valid() && ListsAt(s, lists, all) && all == Elements(s.f.g.blocks) && DeadAre(s, dead, all)
    ensures Stripped(s, lists, [], all) && StripDead(s, dead)
  {
    hide StrictSsa, IsDomTree, Placed.PhisFirst;
  }

  lemma PlacedBlocks(s: Placed)
    requires s.Valid()
    ensures s.f.lists.Keys == Elements(s.f.g.blocks)
  {
    hide StrictSsa, IsDomTree, Placed.PhisFirst;
  }

  lemma BlockAt(g: Graph, i: nat)
    requires i < |g.blocks|
    ensures g.blocks[i] in Elements(g.blocks)
  {
  }

  lemma {:induction false} StripAt(s: Placed, lists: map<Block, seq<Id>>, bs: seq<Block>, all: set<Block>, i: nat)
    requires s.Valid() && Stripped(s, lists, bs, all) && i < |s.f.g.blocks| && bs == s.f.g.blocks[..i] &&
      s.f.g.blocks[i] in all
    ensures s.f.g.blocks[i] in lists && s.f.g.blocks[i] in s.f.lists &&
      lists[s.f.g.blocks[i]] == Live(s, s.f.lists[s.f.g.blocks[i]])
  {
    hide StrictSsa, Tree, Anc, Placed.PhisFirst, Laid;
    DistinctAt(s.f.g.blocks, i);
  }

  lemma {:induction false} StripNext(s: Placed, lists: map<Block, seq<Id>>, lists1: map<Block, seq<Id>>,
      bs: seq<Block>, all: set<Block>, i: nat, wait: seq<Id>)
    requires s.Valid() && Stripped(s, lists, bs, all) && i < |s.f.g.blocks|
    requires s.f.g.blocks[i] in lists && s.f.g.blocks[i] in s.f.lists && CellsWait(s, s.f.g.blocks[i], wait)
    requires var b := s.f.g.blocks[i]; lists1 == lists[b := Without(Live(s, s.f.lists[b]), SetOf(wait))]
    ensures Stripped(s, lists1, bs + [s.f.g.blocks[i]], all)
  {
    hide Placed.Valid, Gone, Deleted, Keep, Live, Without;
    var b := s.f.g.blocks[i];
    LiveWithoutCells(s, s.f.lists[b], SetOf(wait));
    assert forall y :: y in bs + [b] <==> y in bs || y == b;
  }

  // The number cells left in b.
  ghost predicate CellsWait(s: Placed, b: Block, wait: seq<Id>)
    requires s.Valid() && b in s.f.lists
  {
    && (forall x :: x in s.f.lists[b] && !Gone(s, x) ==>
         (x in wait <==> x in s.f.code && s.f.code[x].op == Alloca(Number)))
    && forall x :: x in wait ==> x in s.f.code && s.f.code[x].op == Alloca(Number)
  }

  lemma {:induction false} ResolveAll(s: Placed, done: set<Id>, all: set<Block>, b: Block, a: Operand)
    requires s.Valid() && DoneIs(s, done, all, b, 0) && all == Elements(s.f.g.blocks)
    ensures Sub(s, done, a) == s.Resolve(a)
  {
    hide StrictSsa, IsDomTree, Placed.PhisFirst, Placed.Top;
    if a.Res? && LoadCell(s.f.code, a.id).Some? && Listed(s.f, a.id) {
      ListedPlace(s, a.id);
      assert a.id in done <==> Replaced(s, a.id);
    }
  }

  lemma {:induction false} RenamedAt(s: Placed, instr: Instr, done: set<Id>, all: set<Block>, b: Block, x: Id)
    requires s.Valid() && x in s.f.code && Listed(s.f, x) && InstrAt(s, instr, done, all, x)
    requires DoneIs(s, done, all, b, 0) && all == Elements(s.f.g.blocks)
    ensures Renamed(s, x, instr)
  {
    hide Placed.Valid, Placed.Top, Placed.Resolve, Sub, DoneIs, PhiOperand, Replaced;
    PlacedBlocks(s);
    if !instr.op.Phi? {
      forall k | 0 <= k < |instr.args| ensures instr.args[k] == s.Resolve(s.f.code[x].args[k]) {
        ResolveAll(s, done, all, b, s.f.code[x].args[k]);
      }
    }
  }

  lemma {:induction false} Promoted(s: Placed, f3: Func, dead: set<Id>, done: set<Id>, all: set<Block>)
    requires s.Valid() && f3.g == s.f.g && f3.home == s.f.home && Stripped(s, f3.lists, s.f.g.blocks, all) &&
      StripDead(s, dead)
    requires CodeAt(s, f3.code, dead, done, all, s.f.g.entry, {}) && DoneIs(s, done, all, s.f.g.entry, 0)
    requires all == Elements(s.f.g.blocks)
    ensures IsPromotion(s, f3)
  {
    hide Placed.Valid, Placed.Top, Renamed, InstrAt, Deleted, DoneIs;
    forall x | Listed(s.f, x) && x in s.f.code && !Deleted(s, x) ensures Renamed(s, x, f3.code[x]) {
      assert InstrAt(s, f3.code[x], done, FilledBy(all, s.f.g.entry, {}, x), x);
      RenamedAt(s, f3.code[x], done, all, s.f.g.entry, x);
    }
  }

  // ---- Phis after the walk ----

  // One (value, block) pair for each predecessor that has a value for the cell, and no other.
  ghost predicate PhiComplete(s: Placed, x: Id, args: seq<Operand>)
    requires s.Valid() && PhiCell(s.f.code, x).Some?
  {
    hide Placed.Valid;
    var v := PhiCell(s.f.code, x).value;
    && Pairs(args)
    && (forall k {:trigger args[k]} :: 0 <= k < |args| && k % 2 == 1 ==>
          s.f.g.Edge(args[k].b, s.Home(x)) && args[k].b in s.f.lists &&
            s.Top(args[k].b, |s.List(args[k].b)|, v) == Some(args[k - 1]))
    && (forall p :: s.f.g.Edge(p, s.Home(x)) && p in s.f.lists && s.Top(p, |s.List(p)|, v).Some? ==> HasPair(args, p))
  }

  predicate HasPair(args: seq<Operand>, p: Block) {
    exists k :: 0 <= k < |args| && k % 2 == 1 && args[k] == Label(p)
  }

  ghost predicate PhisComplete(s: Placed, f3: Func)
    requires s.Valid()
  {
    forall x {:trigger PhiCell(s.f.code, x)} :: Listed(s.f, x) && PhiCell(s.f.code, x).Some? ==>
      x in f3.code && PhiComplete(s, x, f3.code[x].args)
  }

  lemma {:induction false} PhiOperandAt(args: seq<Operand>, k: nat)
    requires Pairs(args) && k < |args| && k % 2 == 1
    ensures PhiOperand(args, args[k].b) == Some(args[k - 1])
  {
    if k > 1 {
      assert args[1] != args[k];
      assert Pairs(args[2..]) by {
        forall j, i | 0 <= j < i < |args[2..]| && j % 2 == 1 && i % 2 == 1 ensures args[2..][j] != args[2..][i] {
          assert args[2..][j] == args[j + 2] && args[2..][i] == args[i + 2];
        }
      }
      PhiOperandAt(args[2..], k - 2);
    }
  }

  lemma PhiEnds(s: Placed, x: Id, args: seq<Operand>, all: set<Block>)
    requires s.Valid() && Listed(s.f, x) && PhiCell(s.f.code, x).Some? && PhiAt(s, x, args, all) &&
      all == s.f.lists.Keys
    ensures PhiComplete(s, x, args)
  {
    hide Placed.Valid, Placed.Top, Replaced, PhiOperand, Pairs, Listed;
    EdgesMirror(s);
    assert |args| % 2 == 0 by { PairsEven(args); }
    forall k | 0 <= k < |args| && k % 2 == 1
      ensures s.f.g.Edge(args[k].b, s.Home(x)) && args[k].b in s.f.lists
      ensures s.Top(args[k].b, |s.List(args[k].b)|, PhiCell(s.f.code, x).value) == Some(args[k - 1])
    {
      PhiOperandAt(args, k);
      assert args[k].Label? && args[k].b in all && s.f.g.Edge(args[k].b, s.Home(x));
    }
    forall p | s.f.g.Edge(p, s.Home(x)) && p in s.f.lists && s.Top(p, |s.List(p)|, PhiCell(s.f.code, x).value).Some?
      ensures HasPair(args, p)
    {
      PhiOperandFound(args, p);
    }
  }

  lemma PairsEven(args: seq<Operand>)
    requires Pairs(args)
    ensures |args| % 2 == 0
  {
  }

  lemma EdgesMirror(s: Placed)
    requires s.Valid()
    ensures forall p, b :: s.f.g.Edge(p, b) ==> b in s.f.g.pred && p in s.f.g.pred[b]
    ensures forall p, b :: b in s.f.g.pred && p in s.f.g.pred[b] ==> s.f.g.Edge(p, b)
  {
    hide StrictSsa, Tree, Anc, Placed.PhisFirst;
  }

  lemma {:induction false} PhisEnd(s: Placed, f3: Func, dead: set<Id>, done: set<Id>, all: set<Block>, b: Block)
    requires s.Valid() && CodeAt(s, f3.code, dead, done, all, b, {}) && StripDead(s, dead) &&
      all == Elements(s.f.g.blocks)
    ensures PhisComplete(s, f3)
  {
    hide Placed.Valid, Placed.Top, PhiAt, PhiComplete, Deleted, Listed;
    PlacedBlocks(s);
    forall x | Listed(s.f, x) && PhiCell(s.f.code, x).Some? ensures x in f3.code && PhiComplete(s, x, f3.code[x].args) {
      PhiNotDeleted(s, x);
      assert InstrAt(s, f3.code[x], done, FilledBy(all, b, {}, x), x);
      PhiEnds(s, x, f3.code[x].args, all);
    }
  }

  lemma PhiNotDeleted(s: Placed, x: Id)
    requires s.Valid() && PhiCell(s.f.code, x).Some?
    ensures !Deleted(s, x)
  {
    hide Placed.Valid, Placed.Top, CellOf;
  }
}
