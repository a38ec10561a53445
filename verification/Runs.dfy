/** Running the blocks the builder makes: straight-line code, and the way from one point of the
    finished function to another. */
module Runs {
  import opened Wrappers
  import opened Cfg
  import Ir
  import opened Lowering
  import opened BuilderShape

  type Code = map<Ir.Id, Ir.Instr>
  type Lists = map<Block, seq<Ir.Id>>

  // ---- Straight-line code ----

  function Range(a: nat, b: nat): (r: seq<Ir.Id>)
    decreases b - a
  {
    if a >= b then [] else [a] + Range(a + 1, b)
  }

  lemma {:induction false} RangeJoin(a: nat, b: nat, c: nat)
    requires a <= b <= c
    ensures Range(a, b) + Range(b, c) == Range(a, c)
    decreases b - a
  {
    if a < b { RangeJoin(a + 1, b, c); }
  }

  function ExecIds(w: Ir.World, code: Code, ids: seq<Ir.Id>, st: Ir.State): Ir.Outcome {
    if ids == [] then Ir.Next(st) else
    match Ir.Step(w, code, ids[0], st)
    case Next(st1) => ExecIds(w, code, ids[1..], st1)
    case other => other
  }

  lemma {:induction false} ExecIdsJoin(w: Ir.World, code: Code, ids: seq<Ir.Id>, more: seq<Ir.Id>, st: Ir.State,
      st1: Ir.State)
    requires ExecIds(w, code, ids, st) == Ir.Next(st1)
    ensures ExecIds(w, code, ids + more, st) == ExecIds(w, code, more, st1)
  {
    hide Ir.Step;
    if ids == [] {
      assert ids + more == more;
    } else {
      assert (ids + more)[1..] == ids[1..] + more;
      match Ir.Step(w, code, ids[0], st)
      case Next(st2) => ExecIdsJoin(w, code, ids[1..], more, st2, st1);
      case _ =>
    }
  }

  lemma {:induction false} ExecThen(w: Ir.World, code: Code, ids: seq<Ir.Id>, more: seq<Ir.Id>, st: Ir.State,
      st1: Ir.State)
    requires ExecIds(w, code, ids, st) == Ir.Next(st1)
    ensures Ir.Exec(w, code, ids + more, st) == Ir.Exec(w, code, more, st1)
  {
    hide Ir.Step;
    if ids == [] {
      assert ids + more == more;
    } else {
      assert (ids + more)[1..] == ids[1..] + more;
      match Ir.Step(w, code, ids[0], st)
      case Next(st2) => ExecThen(w, code, ids[1..], more, st2, st1);
      case _ =>
    }
  }

  // From r to r1 the instructions numbered s.nextId to s1.nextId are executed; older values stay.
  ghost predicate Ran(w: Ir.World, code: Code, n: Ir.Id, n1: Ir.Id, r: Ir.State, r1: Ir.State) {
    && n <= n1 && ExecIds(w, code, Range(n, n1), r) == Ir.Next(r1)
    && forall x: Ir.Id :: x < n ==> Ir.Lookup(r1.env, x) == Ir.Lookup(r.env, x)
  }

  lemma RanNone(w: Ir.World, code: Code, n: Ir.Id, r: Ir.State)
    ensures Ran(w, code, n, n, r, r)
  {
  }

  lemma {:induction false} RanJoin(w: Ir.World, code: Code, n: Ir.Id, n1: Ir.Id, n2: Ir.Id, r: Ir.State, r1: Ir.State,
      r2: Ir.State)
    requires Ran(w, code, n, n1, r, r1) && Ran(w, code, n1, n2, r1, r2)
    ensures Ran(w, code, n, n2, r, r2)
  {
    hide Ir.Lookup, ExecIds;
    RangeJoin(n, n1, n2);
    ExecIdsJoin(w, code, Range(n, n1), Range(n1, n2), r, r1);
  }

  lemma RanStep(w: Ir.World, code: Code, n: Ir.Id, r: Ir.State, r1: Ir.State)
    requires Ir.Step(w, code, n, r) == Ir.Next(r1) &&
      forall x: Ir.Id :: x < n ==> Ir.Lookup(r1.env, x) == Ir.Lookup(r.env, x)
    ensures Ran(w, code, n, n + 1, r, r1)
  {
    hide Ir.Step, Ir.Lookup;
    assert Range(n, n + 1) == [n] + Range(n + 1, n + 1) == [n];
    assert [n][1..] == [];
    assert ExecIds(w, code, [n], r) == ExecIds(w, code, [], r1);
  }

  // ---- What the builder appends ----

  // s1 has appended the instructions s.nextId to s1.nextId to the current block of s.
  ghost predicate Straight(s: Build, s1: Build) {
    && s1.g == s.g && s1.cur == s.cur && s1.nextBlock == s.nextBlock && SameScope(s, s1)
    && s.nextId <= s1.nextId && s.cur in s.lists
    && s1.lists == s.lists[s.cur := s.List(s.cur) + Range(s.nextId, s1.nextId)]
  }

  lemma StraightSame(s: Build, s1: Build)
    requires s.cur in s.lists && SameBlocks(s, s1) && s1.cur == s.cur && SameScope(s, s1)
    ensures Straight(s, s1)
  {
    assert s.List(s.cur) + [] == s.List(s.cur);
  }

  lemma StraightEmit(s: Build, op: Opcode, args: seq<Operand>)
    requires s.cur in s.lists
    ensures Straight(s, Emit(s, op, args))
  {
    assert Range(s.nextId, s.nextId + 1) == [s.nextId] + Range(s.nextId + 1, s.nextId + 1) == [s.nextId];
  }

  lemma StraightTrans(s: Build, s1: Build, s2: Build)
    requires Straight(s, s1) && Straight(s1, s2)
    ensures Straight(s, s2)
  {
    hide Range;
    RangeJoin(s.nextId, s1.nextId, s2.nextId);
    var l, a, b := s.List(s.cur), Range(s.nextId, s1.nextId), Range(s1.nextId, s2.nextId);
    assert s1.List(s.cur) == l + a;
    assert (l + a) + b == l + (a + b);
    assert s2.lists == s.lists[s.cur := l + a][s.cur := l + (a + b)];
  }

  lemma StraightIds(s: Build, s1: Build)
    requires Straight(s, s1)
    ensures s.nextId <= s1.nextId && SameScope(s, s1)
  {
  }

  lemma StraightValue(s: Build, op: Opcode, args: seq<Operand>, ty: Type)
    requires Straight(s, Emit(s, op, args))
    ensures Straight(s, EmitValue(s, op, args, ty)) &&
      EmitValue(s, op, args, ty).nextId == Emit(s, op, args).nextId == s.nextId + 1
  {
  }

  ghost predicate CodeIn(code: Code, all: Code) {
    forall x {:trigger x in code} :: x in code ==> x in all && all[x] == code[x]
  }

  lemma CodeInTrans(a: Code, b: Code, c: Code)
    requires CodeIn(a, b) && CodeIn(b, c)
    ensures CodeIn(a, c)
  {
  }

  lemma CodeAtIn(code: Code, all: Code, x: Ir.Id)
    requires CodeIn(code, all) && x in code
    ensures x in all && all[x] == code[x]
  {
  }

  lemma GrownFacts(s: Build, s1: Build)
    requires Grown(s, s1)
    ensures Sound(s1) && CodeIn(s.code, s1.code) && (s1.ok ==> s.ok) && s1.cur in s1.lists && s.nextId <= s1.nextId
  {
  }

  lemma SoundFacts(s: Build)
    requires Sound(s)
    ensures s.cur in s.lists && s.nextId !in s.code && (forall x :: x in s.code ==> x < s.nextId) &&
      forall x :: x in s.home ==> x < s.nextId
  {
  }

  predicate Older(a: Operand, n: Ir.Id) {
    a.Res? ==> a.id < n
  }

  // s1 is reached from s by code that takes the run from r to r1.
  ghost predicate Emitted(w: Ir.World, all: Code, s: Build, s1: Build, r: Ir.State, r1: Ir.State) {
    Straight(s, s1) && Ran(w, all, s.nextId, s1.nextId, r, r1)
  }

  lemma {:induction false} EmittedTrans(w: Ir.World, all: Code, s: Build, s1: Build, s2: Build, r: Ir.State,
      r1: Ir.State, r2: Ir.State)
    requires Emitted(w, all, s, s1, r, r1) && Emitted(w, all, s1, s2, r1, r2)
    ensures Emitted(w, all, s, s2, r, r2)
  {
    hide Straight, Ran;
    StraightIds(s, s1);
    StraightTrans(s, s1, s2);
    RanJoin(w, all, s.nextId, s1.nextId, s2.nextId, r, r1, r2);
  }

  // A state that differs from s in values only.
  lemma EmittedSame(w: Ir.World, all: Code, s: Build, s1: Build, r: Ir.State)
    requires s.cur in s.lists && SameBlocks(s, s1) && s1.cur == s.cur && SameScope(s, s1)
    ensures Emitted(w, all, s, s1, r, r)
  {
    hide Straight, Ran;
    StraightSame(s, s1);
    RanNone(w, all, s.nextId, r);
  }

  // One instruction that sets its own value and leaves the cells alone.
  lemma {:induction false} EmittedOne(w: Ir.World, all: Code, s: Build, op: Opcode, args: seq<Operand>, ty: Type,
      r: Ir.State, r1: Ir.State)
    requires s.cur in s.lists && s.nextId in all && Ir.Step(w, all, s.nextId, r) == Ir.Next(r1)
    requires forall x: Ir.Id :: x < s.nextId ==> Ir.Lookup(r1.env, x) == Ir.Lookup(r.env, x)
    ensures Emitted(w, all, s, Emit(s, op, args), r, r1) && Emitted(w, all, s, EmitValue(s, op, args, ty), r, r1)
  {
    hide Straight, Ran, Ir.Step;
    StraightEmit(s, op, args);
    RanStep(w, all, s.nextId, r, r1);
    StraightValue(s, op, args, ty);
  }

  // ---- Running from the middle of a block ----

  datatype Ending = Finished(value: seq<int>, trace: seq<Ir.Event>) | Unfinished | Stuck

  // The rest of a block, and what it jumps to, for at most n jumps.
  function RunFrom(w: Ir.World, all: Code, lists: Lists, ids: seq<Ir.Id>, r: Ir.State, n: nat): Ending
    decreases n
  {
    match Ir.Exec(w, all, ids, r)
    case Jump(c, r1) => if n == 0 then Unfinished else if c !in lists then Stuck
      else RunFrom(w, all, lists, lists[c], r1, n - 1)
    case Return(v, tr) => Finished(v, tr)
    case _ => Stuck
  }

  ghost predicate LeadsIn(w: Ir.World, all: Code, lists: Lists, ids: seq<Ir.Id>, r: Ir.State, ids1: seq<Ir.Id>,
      r1: Ir.State, k: nat) {
    && (forall n: nat {:trigger RunFrom(w, all, lists, ids1, r1, n)} ::
         RunFrom(w, all, lists, ids, r, n + k) == RunFrom(w, all, lists, ids1, r1, n))
    && Lasts(w, all, lists, ids, r, k)
  }

  // The run makes at least m jumps.
  ghost predicate Lasts(w: Ir.World, all: Code, lists: Lists, ids: seq<Ir.Id>, r: Ir.State, m: nat) {
    forall n: nat :: n < m ==> RunFrom(w, all, lists, ids, r, n) == Unfinished
  }

  // The run gets from one point to another.
  ghost predicate Leads(w: Ir.World, all: Code, lists: Lists, ids: seq<Ir.Id>, r: Ir.State, ids1: seq<Ir.Id>,
      r1: Ir.State) {
    exists k: nat :: LeadsIn(w, all, lists, ids, r, ids1, r1, k)
  }

  ghost predicate EndsIn(w: Ir.World, all: Code, lists: Lists, ids: seq<Ir.Id>, r: Ir.State, v: seq<int>,
      tr: seq<Ir.Event>, k: nat) {
    forall n: nat :: n >= k ==> RunFrom(w, all, lists, ids, r, n) == Finished(v, tr)
  }

  // The run returns.
  ghost predicate Ends(w: Ir.World, all: Code, lists: Lists, ids: seq<Ir.Id>, r: Ir.State, v: seq<int>,
      tr: seq<Ir.Event>) {
    exists k: nat :: EndsIn(w, all, lists, ids, r, v, tr, k)
  }

  lemma {:induction false} LeadsInTrans(w: Ir.World, all: Code, lists: Lists, ids: seq<Ir.Id>, r: Ir.State,
      ids1: seq<Ir.Id>, r1: Ir.State, ids2: seq<Ir.Id>, r2: Ir.State, k: nat, k1: nat)
    requires LeadsIn(w, all, lists, ids, r, ids1, r1, k) && LeadsIn(w, all, lists, ids1, r1, ids2, r2, k1)
    ensures LeadsIn(w, all, lists, ids, r, ids2, r2, k1 + k)
  {
    hide RunFrom;
    var k2: nat := k1 + k;
    forall n: nat ensures RunFrom(w, all, lists, ids, r, n + k2) == RunFrom(w, all, lists, ids2, r2, n) {
      var m: nat := n + k1;
      assert RunFrom(w, all, lists, ids1, r1, m) == RunFrom(w, all, lists, ids2, r2, n);
      assert RunFrom(w, all, lists, ids, r, m + k) == RunFrom(w, all, lists, ids1, r1, m);
    }
    LastsAfter(w, all, lists, ids, r, ids1, r1, k, k1);
  }

  lemma {:induction false} LeadsTrans(w: Ir.World, all: Code, lists: Lists, ids: seq<Ir.Id>, r: Ir.State,
      ids1: seq<Ir.Id>, r1: Ir.State, ids2: seq<Ir.Id>, r2: Ir.State)
    requires Leads(w, all, lists, ids, r, ids1, r1) && Leads(w, all, lists, ids1, r1, ids2, r2)
    ensures Leads(w, all, lists, ids, r, ids2, r2)
  {
    hide LeadsIn;
    var k: nat :| LeadsIn(w, all, lists, ids, r, ids1, r1, k);
    var k1: nat :| LeadsIn(w, all, lists, ids1, r1, ids2, r2, k1);
    LeadsInTrans(w, all, lists, ids, r, ids1, r1, ids2, r2, k, k1);
  }

  lemma {:induction false} LastsAfter(w: Ir.World, all: Code, lists: Lists, ids: seq<Ir.Id>, r: Ir.State,
      ids1: seq<Ir.Id>, r1: Ir.State, k: nat, m: nat)
    requires LeadsIn(w, all, lists, ids, r, ids1, r1, k) && Lasts(w, all, lists, ids1, r1, m)
    ensures Lasts(w, all, lists, ids, r, m + k)
  {
    hide RunFrom;
    forall n: nat | n < m + k ensures RunFrom(w, all, lists, ids, r, n) == Unfinished {
      if n >= k {
        var n1: nat := n - k;
        assert RunFrom(w, all, lists, ids, r, n1 + k) == RunFrom(w, all, lists, ids1, r1, n1);
      }
    }
  }

  lemma {:induction false} LeadsLasts(w: Ir.World, all: Code, lists: Lists, ids: seq<Ir.Id>, r: Ir.State,
      ids1: seq<Ir.Id>, r1: Ir.State, m: nat)
    requires Leads(w, all, lists, ids, r, ids1, r1) && Lasts(w, all, lists, ids1, r1, m)
    ensures Lasts(w, all, lists, ids, r, m)
  {
    hide RunFrom;
    var k: nat :| LeadsIn(w, all, lists, ids, r, ids1, r1, k);
    LastsAfter(w, all, lists, ids, r, ids1, r1, k, m);
  }

  lemma {:induction false} LeadsEnds(w: Ir.World, all: Code, lists: Lists, ids: seq<Ir.Id>, r: Ir.State,
      ids1: seq<Ir.Id>, r1: Ir.State, v: seq<int>, tr: seq<Ir.Event>)
    requires Leads(w, all, lists, ids, r, ids1, r1) && Ends(w, all, lists, ids1, r1, v, tr)
    ensures Ends(w, all, lists, ids, r, v, tr)
  {
    hide RunFrom;
    var k: nat :| LeadsIn(w, all, lists, ids, r, ids1, r1, k);
    var k1: nat :| EndsIn(w, all, lists, ids1, r1, v, tr, k1);
    var k2: nat := k1 + k;
    forall n: nat | n >= k2 ensures RunFrom(w, all, lists, ids, r, n) == Finished(v, tr) {
      var m: nat := n - k;
      assert RunFrom(w, all, lists, ids, r, m + k) == RunFrom(w, all, lists, ids1, r1, m);
    }
    assert EndsIn(w, all, lists, ids, r, v, tr, k2);
  }

  // Two points from which the same is executed.
  lemma {:induction false} LeadsSame(w: Ir.World, all: Code, lists: Lists, ids: seq<Ir.Id>, r: Ir.State,
      ids1: seq<Ir.Id>, r1: Ir.State)
    requires Ir.Exec(w, all, ids, r) == Ir.Exec(w, all, ids1, r1)
    ensures Leads(w, all, lists, ids, r, ids1, r1)
  {
    hide Ir.Exec;
    assert LeadsIn(w, all, lists, ids, r, ids1, r1, 0);
  }

  // The same with at least one jump on the way.
  ghost predicate Jumps(w: Ir.World, all: Code, lists: Lists, ids: seq<Ir.Id>, r: Ir.State, ids1: seq<Ir.Id>,
      r1: Ir.State) {
    exists k: nat :: k > 0 && LeadsIn(w, all, lists, ids, r, ids1, r1, k)
  }

  lemma {:induction false} JumpsLead(w: Ir.World, all: Code, lists: Lists, ids: seq<Ir.Id>, r: Ir.State,
      ids1: seq<Ir.Id>, r1: Ir.State)
    requires Jumps(w, all, lists, ids, r, ids1, r1)
    ensures Leads(w, all, lists, ids, r, ids1, r1)
  {
    hide LeadsIn;
  }

  lemma {:induction false} JumpsLast(w: Ir.World, all: Code, lists: Lists, ids: seq<Ir.Id>, r: Ir.State,
      ids1: seq<Ir.Id>, r1: Ir.State, m: nat, more: nat)
    requires Jumps(w, all, lists, ids, r, ids1, r1) && Lasts(w, all, lists, ids1, r1, m) && more == m + 1
    ensures Lasts(w, all, lists, ids, r, more)
  {
    hide RunFrom;
    var k: nat :| k > 0 && LeadsIn(w, all, lists, ids, r, ids1, r1, k);
    LastsAfter(w, all, lists, ids, r, ids1, r1, k, m);
  }

  lemma {:induction false} JumpsTrans(w: Ir.World, all: Code, lists: Lists, ids: seq<Ir.Id>, r: Ir.State,
      ids1: seq<Ir.Id>, r1: Ir.State, ids2: seq<Ir.Id>, r2: Ir.State)
    requires Leads(w, all, lists, ids, r, ids1, r1) && Leads(w, all, lists, ids1, r1, ids2, r2)
    requires Jumps(w, all, lists, ids, r, ids1, r1) || Jumps(w, all, lists, ids1, r1, ids2, r2)
    ensures Jumps(w, all, lists, ids, r, ids2, r2)
  {
    hide LeadsIn;
    if Jumps(w, all, lists, ids, r, ids1, r1) {
      var k: nat :| k > 0 && LeadsIn(w, all, lists, ids, r, ids1, r1, k);
      var k1: nat :| LeadsIn(w, all, lists, ids1, r1, ids2, r2, k1);
      LeadsInTrans(w, all, lists, ids, r, ids1, r1, ids2, r2, k, k1);
    } else {
      var k: nat :| LeadsIn(w, all, lists, ids, r, ids1, r1, k);
      var k1: nat :| k1 > 0 && LeadsIn(w, all, lists, ids1, r1, ids2, r2, k1);
      LeadsInTrans(w, all, lists, ids, r, ids1, r1, ids2, r2, k, k1);
    }
  }

  lemma {:induction false} LeadsJump(w: Ir.World, all: Code, lists: Lists, ids: seq<Ir.Id>, r: Ir.State, c: Block,
      r1: Ir.State)
    requires Ir.Exec(w, all, ids, r) == Ir.Jump(c, r1) && c in lists
    ensures Leads(w, all, lists, ids, r, lists[c], r1) && Jumps(w, all, lists, ids, r, lists[c], r1)
  {
    hide Ir.Exec;
    assert LeadsIn(w, all, lists, ids, r, lists[c], r1, 1);
  }

  lemma {:induction false} EndsReturn(w: Ir.World, all: Code, lists: Lists, ids: seq<Ir.Id>, r: Ir.State, v: seq<int>,
      tr: seq<Ir.Event>)
    requires Ir.Exec(w, all, ids, r) == Ir.Return(v, tr)
    ensures Ends(w, all, lists, ids, r, v, tr)
  {
    hide Ir.Exec;
    assert EndsIn(w, all, lists, ids, r, v, tr, 0);
  }

  // ---- Points of the finished function ----

  // The finished lists continue the list of the current block.
  ghost predicate Here(s: Build, lists: Lists) {
    s.cur in lists && s.List(s.cur) <= lists[s.cur]
  }

  function Rest(s: Build, lists: Lists): seq<Ir.Id>
    requires Here(s, lists)
  {
    lists[s.cur][|s.List(s.cur)|..]
  }

  // The blocks of the region from s to s1 are in the finished lists as they are in s1, but for
  // the current one, to which more may have been appended.
  ghost predicate Fits(s: Build, s1: Build, lists: Lists) {
    forall b {:trigger b in s1.g.blocks} :: b in s1.g.blocks && (b == s.cur || b !in s.g.blocks) ==>
      b in lists && s1.List(b) <= lists[b] && (b != s1.cur ==> lists[b] == s1.List(b))
  }

  // From a to b, only the blocks in m have got more instructions.
  ghost predicate Kept(a: Build, b: Build, m: set<Block>) {
    forall x {:trigger x in a.g.blocks} :: x in a.g.blocks ==>
      x in b.g.blocks && a.List(x) <= b.List(x) && (x !in m ==> b.List(x) == a.List(x))
  }

  lemma {:induction false} KeptTrans(a: Build, b: Build, c: Build, m: set<Block>, m1: set<Block>)
    requires Kept(a, b, m) && Kept(b, c, m1)
    ensures Kept(a, c, m + m1)
  {
  }

  lemma GrownKept(s: Build, s1: Build)
    requires Grown(s, s1)
    ensures Kept(s, s1, {s.cur}) && (s1.cur == s.cur || s1.cur !in s.g.blocks) && s1.cur in s1.g.blocks &&
      s.cur in s.g.blocks
  {
    hide NewFrom, From, Graph.Valid, SuccsDistinct, Arranged;
  }

  lemma EmitKept(s: Build, op: Opcode, args: seq<Operand>)
    ensures Kept(s, Emit(s, op, args), {s.cur}) && Emit(s, op, args).List(s.cur) == s.List(s.cur) + [s.nextId]
    ensures s.nextId in Emit(s, op, args).code && Emit(s, op, args).code[s.nextId] == Ir.Instr(op, args)
  {
  }

  lemma BrKept(s: Build, b: Block)
    ensures Kept(s, Br(s, b), {s.cur}) && Br(s, b).List(s.cur) == s.List(s.cur) + [s.nextId] && Br(s, b).cur == s.cur
    ensures s.nextId in Br(s, b).code && Br(s, b).code[s.nextId] == Ir.Instr(Ir.Br, [Ir.Label(b)])
    ensures Br(s, b).g.blocks == s.g.blocks && Br(s, b).nextBlock == s.nextBlock && Br(s, b).ok == s.ok
    ensures forall x :: x != s.cur ==> Br(s, b).List(x) == s.List(x)
  {
  }

  lemma CondBrKept(s: Build, c: Operand, t: Block, f: Block)
    ensures var s1 := CondBr(s, c, t, f);
            && Kept(s, s1, {s.cur}) && s1.List(s.cur) == s.List(s.cur) + [s.nextId] && s1.cur == s.cur
            && s.nextId in s1.code && s1.code[s.nextId] == Ir.Instr(Ir.CondBr, [c, Ir.Label(t), Ir.Label(f)])
            && s1.g.blocks == s.g.blocks && s1.ok == s.ok && SameScope(s, s1) && s1.nextId == s.nextId + 1
            && s1.nextBlock == s.nextBlock && (s.nextId !in s.code ==> CodeIn(s.code, s1.code))
    ensures forall b :: b != s.cur ==> CondBr(s, c, t, f).List(b) == s.List(b)
  {
  }

  lemma FitsFirst(s: Build, s1: Build, s2: Build, lists: Lists)
    requires Grown(s, s1) && Grown(s1, s2) && Fits(s, s2, lists)
    ensures Fits(s, s1, lists) && Fits(s1, s2, lists)
  {
    hide Grown;
    GrownKept(s, s1);
    GrownKept(s1, s2);
    forall b | b in s1.g.blocks && (b == s.cur || b !in s.g.blocks)
      ensures b in lists && s1.List(b) <= lists[b] && (b != s1.cur ==> lists[b] == s1.List(b))
    {
      assert b in s2.g.blocks;
    }
    forall b | b in s2.g.blocks && (b == s1.cur || b !in s1.g.blocks)
      ensures b in lists && s2.List(b) <= lists[b] && (b != s2.cur ==> lists[b] == s2.List(b))
    {
      assert b !in s.g.blocks || b == s.cur by { if b in s.g.blocks { assert b in s1.g.blocks; } }
    }
  }

  lemma FitsHere(s: Build, s1: Build, lists: Lists)
    requires Grown(s, s1) && Fits(s, s1, lists)
    ensures Here(s, lists) && Here(s1, lists) && (s1.cur != s.cur ==> lists[s.cur] == s1.List(s.cur))
  {
    hide Grown;
    GrownKept(s, s1);
    assert s.cur in s1.g.blocks;
  }

  // A visit from a to b inside the region from s to end.
  lemma {:induction false} FitsInner(s: Build, a: Build, b: Build, end: Build, lists: Lists, m: set<Block>)
    requires Fits(s, end, lists) && Grown(a, b) && Kept(b, end, m)
    requires a.cur == s.cur || a.cur !in s.g.blocks
    requires forall x :: x in s.g.blocks ==> x in a.g.blocks
    requires forall x :: x in m && x in b.g.blocks && (x == a.cur || x !in a.g.blocks) ==> x == b.cur
    requires end.cur != a.cur && (end.cur in a.g.blocks || end.cur !in b.g.blocks)
    ensures Fits(a, b, lists)
  {
    hide Grown;
    forall x | x in b.g.blocks && (x == a.cur || x !in a.g.blocks)
      ensures x in lists && b.List(x) <= lists[x] && (x != b.cur ==> lists[x] == b.List(x))
    {
      assert x in end.g.blocks;
    }
  }

  // ---- Straight-line code in a block ----

  lemma {:induction false} StraightLeads(w: Ir.World, all: Code, lists: Lists, s: Build, s1: Build, r: Ir.State,
      r1: Ir.State)
    requires Emitted(w, all, s, s1, r, r1) && Here(s1, lists)
    ensures Here(s, lists) && Leads(w, all, lists, Rest(s, lists), r, Rest(s1, lists), r1)
  {
    hide SameScope, Leads;
    var ids, l := Range(s.nextId, s1.nextId), lists[s.cur];
    assert s1.List(s.cur) == s.List(s.cur) + ids;
    assert l == s1.List(s.cur) + Rest(s1, lists);
    assert l == s.List(s.cur) + (ids + Rest(s1, lists));
    assert Rest(s, lists) == ids + Rest(s1, lists);
    ExecThen(w, all, ids, Rest(s1, lists), r, r1);
    LeadsSame(w, all, lists, Rest(s, lists), r, Rest(s1, lists), r1);
  }

  lemma RestOne(s: Build, lists: Lists, x: Ir.Id)
    requires s.cur in lists && s.List(s.cur) + [x] <= lists[s.cur]
    ensures Here(s, lists) && Rest(s, lists) == [x] + Rest(s, lists)[1..] && Rest(s, lists)[0] == x
  {
    var l, p := lists[s.cur], s.List(s.cur);
    assert l[..|p| + 1] == p + [x];
    assert l[|p|] == x;
  }

  // ---- Terminators ----

  lemma {:induction false} BrStep(w: Ir.World, all: Code, ids: seq<Ir.Id>, x: Ir.Id, b: Block, r: Ir.State)
    requires ids != [] && ids[0] == x && x in all && all[x] == Ir.Instr(Ir.Br, [Ir.Label(b)])
    ensures Ir.Exec(w, all, ids, r) == Ir.Jump(b, r)
  {
  }

  lemma {:induction false} CondBrStep(w: Ir.World, all: Code, ids: seq<Ir.Id>, x: Ir.Id, c: Operand, t: Block,
      f: Block, r: Ir.State)
    requires ids != [] && ids[0] == x && x in all && all[x] == Ir.Instr(Ir.CondBr, [c, Ir.Label(t), Ir.Label(f)]) &&
      Ir.Eval(w, r.env, c).V?
    ensures Ir.Exec(w, all, ids, r) == Ir.Jump(if Ir.Eval(w, r.env, c).n != 0 then t else f, r)
  {
  }

  lemma {:induction false} RetStep(w: Ir.World, all: Code, ids: seq<Ir.Id>, x: Ir.Id, args: seq<Operand>,
      vs: seq<int>, r: Ir.State)
    requires ids != [] && ids[0] == x && x in all && all[x] == Ir.Instr(Ir.Ret, args) &&
      Ir.EvalAll(w, r.env, args) == Some(vs)
    ensures Ir.Exec(w, all, ids, r) == Ir.Return(vs, r.trace)
  {
  }

  // The branch at the end of the current block, when nothing follows it.
  lemma {:induction false} JumpFrom(w: Ir.World, all: Code, lists: Lists, s: Build, b: Block, r: Ir.State)
    requires s.cur in lists && b in lists && s.List(s.cur) + [s.nextId] <= lists[s.cur] && CodeIn(Br(s, b).code, all)
    ensures Here(s, lists) && Leads(w, all, lists, Rest(s, lists), r, lists[b], r)
  {
    hide Leads, Ir.Exec;
    RestOne(s, lists, s.nextId);
    BrKept(s, b);
    CodeAtIn(Br(s, b).code, all, s.nextId);
    BrStep(w, all, Rest(s, lists), s.nextId, b, r);
    LeadsJump(w, all, lists, Rest(s, lists), r, b, r);
  }

  lemma {:induction false} ForkFrom(w: Ir.World, all: Code, lists: Lists, s: Build, c: Operand, t: Block, f: Block,
      r: Ir.State)
    requires s.cur in lists && t in lists && f in lists && s.List(s.cur) + [s.nextId] <= lists[s.cur] &&
      CodeIn(CondBr(s, c, t, f).code, all)
    requires Ir.Eval(w, r.env, c).V?
    ensures Here(s, lists) &&
      Leads(w, all, lists, Rest(s, lists), r, lists[if Ir.Eval(w, r.env, c).n != 0 then t else f], r)
    ensures Jumps(w, all, lists, Rest(s, lists), r, lists[if Ir.Eval(w, r.env, c).n != 0 then t else f], r)
  {
    hide Leads, Jumps, Ir.Exec, Ir.Eval;
    RestOne(s, lists, s.nextId);
    CondBrKept(s, c, t, f);
    CodeAtIn(CondBr(s, c, t, f).code, all, s.nextId);
    CondBrStep(w, all, Rest(s, lists), s.nextId, c, t, f, r);
    LeadsJump(w, all, lists, Rest(s, lists), r, if Ir.Eval(w, r.env, c).n != 0 then t else f, r);
  }

  lemma HereEarlier(s: Build, s1: Build, lists: Lists)
    requires Here(s1, lists) && s1.cur == s.cur && s.List(s.cur) <= s1.List(s1.cur)
    ensures Here(s, lists)
  {
  }

  lemma BrCode(s: Build, b: Block)
    requires Sound(s)
    ensures CodeIn(s.code, Br(s, b).code) && Br(s, b).ok == s.ok
  {
    SoundFacts(s);
  }

  lemma NewBlockCode(s: Build)
    ensures NewBlock(s).code == s.code && NewBlock(s).ok == s.ok && NewBlock(s).nextId == s.nextId &&
      CodeIn(s.code, s.code) && SameScope(s, NewBlock(s))
    ensures NewBlock(s).List(s.nextBlock) == [] && forall x :: x != s.nextBlock ==> NewBlock(s).List(x) == s.List(x)
  {
  }

  lemma CodeInSelf(code: Code)
    ensures CodeIn(code, code)
  {
  }

  lemma AtIs(s: Build, b: Block)
    ensures At(s, b).cur == b && At(s, b).g == s.g && At(s, b).lists == s.lists && At(s, b).code == s.code &&
      At(s, b).ok == s.ok
    ensures forall x :: At(s, b).List(x) == s.List(x)
  {
  }

  lemma HereIs(s: Build, lists: Lists, l: seq<Ir.Id>)
    requires s.cur in lists && s.List(s.cur) + l <= lists[s.cur]
    ensures Here(s, lists)
  {
  }

  lemma RestSame(s: Build, s1: Build, lists: Lists)
    requires Here(s, lists) && s1.cur == s.cur && s1.List(s.cur) == s.List(s.cur)
    ensures Here(s1, lists) && Rest(s1, lists) == Rest(s, lists)
  {
  }

  lemma FitsAt(s: Build, end: Build, lists: Lists, b: Block)
    requires Fits(s, end, lists) && b in end.g.blocks && (b == s.cur || b !in s.g.blocks)
    ensures b in lists && end.List(b) <= lists[b] && (b != end.cur ==> lists[b] == end.List(b))
  {
  }

  lemma {:induction false} ForkLists(s: Build, c: Operand, n2: Build, s1: Build, t: Block, f: Block)
    requires Sound(s) && n2 == NewBlock(NewBlock(s)) && s1 == CondBr(n2, c, t, f) && t == s.nextBlock &&
      f == s.nextBlock + 1
    ensures s1.List(t) == [] && s1.List(f) == [] && s1.List(s.cur) == s.List(s.cur) + [s.nextId] &&
      CodeIn(s.code, s1.code)
    ensures n2.cur == s.cur && n2.List(s.cur) == s.List(s.cur) && n2.nextId == s.nextId
    ensures s1.g.blocks == s.g.blocks + [t, f] && s1.ok == s.ok && SameScope(s, s1)
  {
    hide Graph.Valid, SuccsDistinct, Arranged;
    SoundFacts(s);
    NewNotOld(s, t, f);
  }

  // ---- From one state of the builder to another ----

  // Values with a number below n are as they were.
  ghost predicate Keeps(n: Ir.Id, r: Ir.State, r1: Ir.State) {
    forall x: Ir.Id :: x < n ==> Ir.Lookup(r1.env, x) == Ir.Lookup(r.env, x)
  }

  // The run gets from the end of s to the end of s1, and older values stay.
  ghost predicate Reached(w: Ir.World, all: Code, lists: Lists, s: Build, s1: Build, r: Ir.State, r1: Ir.State) {
    && Here(s, lists) && Here(s1, lists) && s.nextId <= s1.nextId && Keeps(s.nextId, r, r1)
    && Leads(w, all, lists, Rest(s, lists), r, Rest(s1, lists), r1)
  }

  lemma {:induction false} ReachedTrans(w: Ir.World, all: Code, lists: Lists, s: Build, s1: Build, s2: Build,
      r: Ir.State, r1: Ir.State, r2: Ir.State)
    requires Reached(w, all, lists, s, s1, r, r1) && Reached(w, all, lists, s1, s2, r1, r2)
    ensures Reached(w, all, lists, s, s2, r, r2)
  {
    hide Leads;
    LeadsTrans(w, all, lists, Rest(s, lists), r, Rest(s1, lists), r1, Rest(s2, lists), r2);
  }

  lemma {:induction false} ReachedEmitted(w: Ir.World, all: Code, lists: Lists, s: Build, s1: Build, r: Ir.State,
      r1: Ir.State)
    requires Emitted(w, all, s, s1, r, r1) && Here(s1, lists)
    ensures Reached(w, all, lists, s, s1, r, r1)
  {
    hide Leads, Here, ExecIds;
    StraightLeads(w, all, lists, s, s1, r, r1);
  }

  lemma {:induction false} ReachedLeads(w: Ir.World, all: Code, lists: Lists, s: Build, s1: Build, r: Ir.State,
      r1: Ir.State)
    requires Reached(w, all, lists, s, s1, r, r1)
    ensures Here(s, lists) && Here(s1, lists) && Leads(w, all, lists, Rest(s, lists), r, Rest(s1, lists), r1)
  {
    hide Leads, Here, Keeps;
  }

  lemma EvalOne(w: Ir.World, env: map<Ir.Id, Ir.Val>, a: Operand)
    ensures Ir.EvalAll(w, env, [a]) == (match Ir.Eval(w, env, a) case V(n) => Some([n]) case Undef => None)
  {
    assert [a][1..] == [];
    assert Ir.EvalAll(w, env, []) == Some([]);
    if Ir.Eval(w, env, a).V? { assert [Ir.Eval(w, env, a).n] + [] == [Ir.Eval(w, env, a).n]; }
  }

  lemma EvalTwo(w: Ir.World, env: map<Ir.Id, Ir.Val>, a: Operand, b: Operand)
    ensures Ir.EvalAll(w, env, [a, b]) ==
              if Ir.Eval(w, env, a).V? &&
                Ir.Eval(w, env, b).V? then Some([Ir.Eval(w, env, a).n, Ir.Eval(w, env, b).n]) else None
  {
    assert [a, b][1..] == [b];
    EvalOne(w, env, b);
    if Ir.Eval(w, env, a).V? && Ir.Eval(w, env, b).V? {
      assert [Ir.Eval(w, env, a).n] + [Ir.Eval(w, env, b).n] == [Ir.Eval(w, env, a).n, Ir.Eval(w, env, b).n];
    }
  }

  lemma OlderNext(n: Ir.Id)
    ensures Older(Ir.Res(n), n + 1)
  {
  }
}
