/** The instructions of a function as the passes edit them in place: operand vectors,
    the use list of every value, and the instruction list of every block. */
module FunctionIr {
  import opened Cfg
  import opened Ir

  datatype Use = Use(user: Id, arg: nat)

  function RemoveUser(l: seq<Use>, user: Id): (r: seq<Use>)
    ensures forall u :: u in r <==> u in l && u.user != user
  {
    if l == [] then [] else (if l[0].user == user then [] else [l[0]]) + RemoveUser(l[1..], user)
  }

  // The list without the members of a set.
  function Without(xs: seq<Id>, gone: set<Id>): (r: seq<Id>)
    ensures forall x :: x in r <==> x in xs && x !in gone
  {
    if xs == [] then [] else (if xs[0] in gone then [] else [xs[0]]) + Without(xs[1..], gone)
  }

  // An instruction with every operand `was` replaced.
  function Replace(args: seq<Operand>, was: Operand, now: Operand): (r: seq<Operand>)
    ensures |r| == |args|
    ensures forall k :: 0 <= k < |args| ==> r[k] == if args[k] == was then now else args[k]
  {
    if args == [] then [] else [if args[0] == was then now else args[0]] + Replace(args[1..], was, now)
  }

  type Code = map<Id, Instr>
  type UseMap = map<Operand, seq<Use>>

  function UsesOf(uses: UseMap, v: Operand): seq<Use> {
    if v in uses then uses[v] else []
  }

  predicate IsOperand(code: Code, x: Id, k: nat, v: Operand) {
    x in code && k < |code[x].args| && code[x].args[k] == v
  }

  // The use lists miss no operand of a live instruction, and the list of a value that has
  // not been replaced names operands of live instructions only.
  ghost predicate UsesComplete(code: Code, uses: UseMap, dead: set<Id>) {
    forall x, k, v {:trigger IsOperand(code, x, k, v)} :: x !in dead && IsOperand(code, x, k, v) ==>
      Use(x, k) in UsesOf(uses, v)
  }

  ghost predicate UsesAccurate(code: Code, uses: UseMap, dead: set<Id>, retired: set<Operand>) {
    forall v, u {:trigger u in UsesOf(uses, v)} :: v !in retired && u in UsesOf(uses, v) ==>
      u.user !in dead && IsOperand(code, u.user, u.arg, v)
  }

  // One more use, of v by operand k of x.
  ghost predicate UseAdded(uses: UseMap, more: UseMap, v: Operand, u: Use) {
    forall w :: UsesOf(more, w) == UsesOf(uses, w) + if w == v then [u] else []
  }

  // The uses by `user` are gone from the lists of these operands.
  ghost predicate UsesDropped(first: UseMap, uses: UseMap, user: Id, ops: seq<Operand>) {
    forall w, u {:trigger u in UsesOf(uses, w)} :: u in UsesOf(uses, w) <==>
      u in UsesOf(first, w) && !(u.user == user && w in ops)
  }

  ghost predicate UserRemoved(uses: UseMap, uses1: UseMap, v: Operand, user: Id) {
    forall w :: UsesOf(uses1, w) == if w == v then RemoveUser(UsesOf(uses, w), user) else UsesOf(uses, w)
  }

  class Body {
    var code: Code
    var lists: map<Block, seq<Id>>
    var home: map<Id, Block>
    var uses: UseMap
    var nextId: Id                    // above every instruction created so far
    ghost var dead: set<Id>           // deleted instructions
    ghost var retired: set<Operand>   // values whose uses have been moved to another value

    ghost predicate Valid()
      reads this
    {
      && UsesComplete(code, uses, dead) && UsesAccurate(code, uses, dead, retired)
      && dead <= code.Keys && forall x :: x in code ==> x < nextId
    }

    ghost function Snapshot(g: Graph): Func
      reads this
    {
      Func(g, code, lists, home)
    }

    lemma SnapshotIs(g: Graph)
      ensures Snapshot(g) == Func(g, code, lists, home)
    {
    }

    constructor (blocks: seq<Block>)
      ensures Valid() && code == map[] && home == map[] && dead == {} && retired == {}
      ensures lists.Keys == Elements(blocks) && forall b :: b in lists ==> lists[b] == []
    {
      code, home, uses, dead, retired, nextId := map[], map[], map[], {}, {}, 0;
      lists := map b | b in blocks :: [];
    }

    // The body that holds f, whose instructions are numbered below n.
    constructor Holding(f: Func, n: Id)
      requires forall x :: x in f.code ==> x < n
      ensures Valid() && dead == {} && retired == {} && Snapshot(f.g) == f
    {
      code, lists, home, uses, dead, retired, nextId := map[], f.lists, f.home, map[], {}, {}, n;
      new;
      hide UsesComplete, UsesAccurate;
      NoCode(retired);
      var x := 0;
      while x < n
        invariant 0 <= x <= n && code == CodeBelow(f.code, x)
        invariant UsesComplete(code, uses, dead) && UsesAccurate(code, uses, dead, retired)
        invariant dead == {} && retired == {} && lists == f.lists && home == f.home && nextId == n
      {
        if x in f.code {
          CreateInstr(x, f.code[x].op, f.code[x].args);
        }
        x := x + 1;
      }
    }

    // ---- Value and User ----

    // A new instruction: a vector with room for its operands, each of which is then set.
    method CreateInstr(x: Id, op: Opcode, args: seq<Operand>)
      requires UsesComplete(code, uses, dead) && UsesAccurate(code, uses, dead, retired)
      requires x !in code && dead <= code.Keys
      modifies this`code, this`uses
      ensures UsesComplete(code, uses, dead) && UsesAccurate(code, uses, dead, retired)
      ensures code == old(code)[x := Instr(op, args)]
    {
      hide UsesComplete, UsesAccurate, UseAdded, UsesSet;
      code := code[x := Instr(op, seq(|args|, i => Const(0)))];
      var i := 0;
      NoneSet(uses, x, args);
      while i < |args|
        invariant 0 <= i <= |args| && x in code && code == old(code)[x := Instr(op, code[x].args)]
        invariant |code[x].args| == |args| && code[x].args[..i] == args[..i]
        invariant UsesSet(old(uses), uses, x, args, i)
      {
        ghost var before := uses;
        SetOperand(x, i, args[i]);
        OneSet(old(uses), before, uses, x, args, i, i + 1);
        i := i + 1;
      }
      assert code[x].args == args;
      InstrCreated(old(code), code, old(uses), uses, dead, retired, x, op, args);
    }

    method AddUse(v: Operand, user: Id, arg: nat)
      modifies this`uses
      ensures UseAdded(old(uses), uses, v, Use(user, arg))
    {
      uses := uses[v := UsesOf(uses, v) + [Use(user, arg)]];
    }

    method SetOperand(user: Id, i: nat, v: Operand)
      requires user in code && i < |code[user].args|
      modifies this`uses, this`code
      ensures code == old(code)[user := old(code)[user].(args := old(code)[user].args[i := v])]
      ensures UseAdded(old(uses), uses, v, Use(user, i))
    {
      code := code[user := code[user].(args := code[user].args[i := v])];
      AddUse(v, user, i);
    }

    method AddOperand(user: Id, v: Operand)
      requires Valid() && user in code && user !in dead
      modifies this`uses, this`code
      ensures Valid()
      ensures code == old(code)[user := old(code)[user].(args := old(code)[user].args + [v])]
    {
      hide UsesComplete, UsesAccurate;
      var n := |code[user].args|;
      code := code[user := code[user].(args := code[user].args + [v])];
      AddUse(v, user, n);
      OperandAdded(old(code), code, old(uses), uses, dead, retired, user, v);
    }

    method RemoveUse(v: Operand, user: Id)
      modifies this`uses
      ensures UserRemoved(old(uses), uses, v, user)
    {
      uses := uses[v := RemoveUser(UsesOf(uses, v), user)];
    }

    // Every user of `was` now uses `now`. The list of `was` itself is left as it is.
    method ReplaceAllUseWith(was: Operand, now: Operand)
      requires Valid() && was != now && was !in retired
      modifies this`uses, this`code, this`retired
      ensures Valid() && retired == old(retired) + {was}
      ensures code.Keys == old(code).Keys
      ensures forall x :: x in code && x in dead ==> code[x] == old(code)[x]
      ensures forall x :: x in code && x !in dead ==>
        code[x] == Instr(old(code)[x].op, Replace(old(code)[x].args, was, now))
    {
      hide UsesComplete, UsesAccurate, Moved, UsesGrown, UseAdded, Replace;
      var l := UsesOf(uses, was);
      var j := 0;
      NothingMoved(code, uses, was, now);
      UsersExist(code, uses, dead, retired, was);
      while j < |l|
        invariant 0 <= j <= |l|
        invariant Moved(old(code), code, was, now, l[..j]) && code.Keys == old(code).Keys
        invariant UsesGrown(old(uses), uses, now, l[..j]) && retired == old(retired)
      {
        var use := l[j];
        UserStands(old(code), code, was, now, l[..j], use);
        ghost var code0, uses0 := code, uses;
        SetOperand(use.user, use.arg, now);
        OneMoved(old(code), code0, code, was, now, l[..j], use);
        OneGrown(old(uses), uses0, uses, now, l[..j], use);
        assert l[..j + 1] == l[..j] + [use];
        j := j + 1;
      }
      retired := retired + {was};
      assert l[..j] == l;
      AllMoved(old(code), code, old(uses), uses, dead, old(retired), was, now);
    }

    method RemoveUseOfOps(user: Id)
      requires user in code
      modifies this`uses
      ensures UsesDropped(old(uses), uses, user, code[user].args)
    {
      hide UsesDropped;
      var k := 0;
      var ops := code[user].args;
      NothingDropped(uses, user);
      while k < |ops|
        invariant 0 <= k <= |ops|
        invariant UsesDropped(old(uses), uses, user, ops[..k])
      {
        ghost var before := uses;
        RemoveUse(ops[k], user);
        OneDropped(old(uses), before, uses, user, ops[..k], ops[k]);
        assert ops[..k + 1] == ops[..k] + [ops[k]];
        k := k + 1;
      }
      assert ops[..k] == ops;
    }

    // ---- BasicBlock and PhiInst ----

    method DeleteInstr(b: Block, x: Id)
      requires Valid() && b in lists && x in code
      modifies this`uses, this`lists, this`dead
      ensures Valid() && dead == old(dead) + {x}
      ensures lists == old(lists)[b := Without(old(lists)[b], {x})]
    {
      hide UsesComplete, UsesAccurate, Without;
      lists := lists[b := Without(lists[b], {x})];
      RemoveUseOfOps(x);
      dead := dead + {x};
      Deletes(code, old(uses), uses, old(dead), retired, x);
    }

    method AddInstrBegin(b: Block, x: Id)
      requires Valid() && b in lists
      modifies this`lists
      ensures Valid() && lists == old(lists)[b := [x] + old(lists)[b]]
    {
      lists := lists[b := [x] + lists[b]];
    }

    method AddPhiPairOperand(x: Id, v: Operand, b: Block)
      requires Valid() && x in code && x !in dead
      modifies this`uses, this`code
      ensures Valid()
      ensures code == old(code)[x := Instr(old(code)[x].op, old(code)[x].args + [v, Label(b)])]
    {
      hide *;
      ghost var args := code[x].args;
      AddOperand(x, v);
      AddOperand(x, Label(b));
      assert (args + [v]) + [Label(b)] == args + [v, Label(b)];
    }

    // A new phi for a cell, without operands and in no list yet.
    method CreatePhi(cell: Id, b: Block) returns (x: Id)
      requires Valid()
      modifies this`code, this`home, this`uses, this`nextId
      ensures Valid() && x !in old(code)
      ensures code == old(code)[x := Instr(Phi(cell), [])] && home == old(home)[x := b]
    {
      hide UsesComplete, UsesAccurate;
      x := nextId;
      CreateInstr(x, Phi(cell), []);
      home := home[x := b];
      nextId := nextId + 1;
    }
  }

  ghost function CodeBelow(code: Code, n: Id): Code {
    map x | x in code && x < n :: code[x]
  }

  lemma NoCode(retired: set<Operand>)
    ensures UsesComplete(map[], map[], {}) && UsesAccurate(map[], map[], {}, retired)
  {
  }

  // The first i operands of x have been added to the lists.
  ghost predicate UsesSet(first: UseMap, uses: UseMap, x: Id, args: seq<Operand>, i: nat) {
    forall w, u {:trigger u in UsesOf(uses, w)} :: u in UsesOf(uses, w) <==>
      u in UsesOf(first, w) || (u.user == x && u.arg < i && u.arg < |args| && args[u.arg] == w)
  }

  lemma NoneSet(uses: UseMap, x: Id, args: seq<Operand>)
    ensures UsesSet(uses, uses, x, args, 0)
  {
  }

  lemma {:induction false} OneSet(first: UseMap, uses: UseMap, more: UseMap, x: Id, args: seq<Operand>, i: nat,
      next: nat)
    requires UsesSet(first, uses, x, args, i) && i < |args| && UseAdded(uses, more, args[i], Use(x, i)) && next == i + 1
    ensures UsesSet(first, more, x, args, next)
  {
    hide UsesOf;
    forall w, u ensures u in UsesOf(more, w) <==>
        u in UsesOf(first, w) || (u.user == x && u.arg < next && args[u.arg] == w) {
      assert UsesOf(more, w) == UsesOf(uses, w) + if w == args[i] then [Use(x, i)] else [];
      assert u in UsesOf(more, w) <==> u in UsesOf(uses, w) || (w == args[i] && u == Use(x, i));
      assert u in UsesOf(uses, w) <==> u in UsesOf(first, w) || (u.user == x && u.arg < i && args[u.arg] == w);
    }
  }

  lemma {:induction false} InstrCreated(code: Code, code1: Code, uses: UseMap, uses1: UseMap, dead: set<Id>,
      retired: set<Operand>, x: Id, op: Opcode, args: seq<Operand>)
    requires UsesComplete(code, uses, dead) && UsesAccurate(code, uses, dead, retired) && x !in code
    requires dead <= code.Keys && code1 == code[x := Instr(op, args)] && UsesSet(uses, uses1, x, args, |args|)
    ensures UsesComplete(code1, uses1, dead) && UsesAccurate(code1, uses1, dead, retired)
  {
    forall y, k: nat, w | y !in dead && IsOperand(code1, y, k, w) ensures Use(y, k) in UsesOf(uses1, w) {
      if y != x { assert IsOperand(code, y, k, w); }
    }
    forall w, u | w !in retired && u in UsesOf(uses1, w) ensures u.user !in dead && IsOperand(code1, u.user, u.arg, w) {
      if u in UsesOf(uses, w) { assert IsOperand(code, u.user, u.arg, w); }
    }
  }

  lemma {:induction false} OperandAdded(code: Code, code1: Code, uses: UseMap, uses1: UseMap, dead: set<Id>,
      retired: set<Operand>, x: Id, v: Operand)
    requires UsesComplete(code, uses, dead) && UsesAccurate(code, uses, dead, retired) && x in code && x !in dead
    requires code1 == code[x := code[x].(args := code[x].args + [v])]
    requires UseAdded(uses, uses1, v, Use(x, |code[x].args|))
    ensures UsesComplete(code1, uses1, dead) && UsesAccurate(code1, uses1, dead, retired)
  {
    forall y, k, w | y !in dead && IsOperand(code1, y, k, w) ensures Use(y, k) in UsesOf(uses1, w) {
      if !(y == x && k == |code[x].args|) { assert IsOperand(code, y, k, w); }
    }
    forall w, u | w !in retired && u in UsesOf(uses1, w) ensures u.user !in dead && IsOperand(code1, u.user, u.arg, w) {
      if u in UsesOf(uses, w) { assert IsOperand(code, u.user, u.arg, w); }
    }
  }

  lemma NothingDropped(uses: UseMap, user: Id)
    ensures UsesDropped(uses, uses, user, [])
  {
  }

  lemma OneDropped(first: UseMap, uses: UseMap, uses1: UseMap, user: Id, ops: seq<Operand>, v: Operand)
    requires UsesDropped(first, uses, user, ops) && UserRemoved(uses, uses1, v, user)
    ensures UsesDropped(first, uses1, user, ops + [v])
  {
    forall w, u ensures u in UsesOf(uses1, w) <==> u in UsesOf(first, w) && !(u.user == user && w in ops + [v]) {
      assert u in UsesOf(uses, w) <==> u in UsesOf(first, w) && !(u.user == user && w in ops);
      assert w in ops + [v] <==> w in ops || w == v;
    }
  }

  // ---- Replacing all uses ----

  // The uses in l have been moved from `was` to `now`.
  ghost predicate Moved(first: Code, code: Code, was: Operand, now: Operand, l: seq<Use>) {
    forall x {:trigger MovedAt(first, code, was, now, l, x)} :: x in first ==> MovedAt(first, code, was, now, l, x)
  }

  ghost predicate MovedAt(first: Code, code: Code, was: Operand, now: Operand, l: seq<Use>, x: Id)
    requires x in first
  {
    && x in code && code[x].op == first[x].op && |code[x].args| == |first[x].args|
    && forall k :: 0 <= k < |code[x].args| ==> code[x].args[k] == if Use(x, k) in l then now else first[x].args[k]
  }

  ghost predicate UsesGrown(first: UseMap, uses: UseMap, now: Operand, l: seq<Use>) {
    forall v :: UsesOf(uses, v) == UsesOf(first, v) + if v == now then l else []
  }

  lemma NothingMoved(code: Code, uses: UseMap, was: Operand, now: Operand)
    ensures Moved(code, code, was, now, []) && UsesGrown(uses, uses, now, [])
  {
  }

  lemma UsersExist(code: Code, uses: UseMap, dead: set<Id>, retired: set<Operand>, was: Operand)
    requires UsesAccurate(code, uses, dead, retired) && was !in retired
    ensures forall u :: u in UsesOf(uses, was) ==> IsOperand(code, u.user, u.arg, was)
  {
  }

  lemma UserStands(first: Code, code: Code, was: Operand, now: Operand, l: seq<Use>, u: Use)
    requires Moved(first, code, was, now, l) && IsOperand(first, u.user, u.arg, was)
    ensures u.user in code && u.arg < |code[u.user].args|
  {
    assert MovedAt(first, code, was, now, l, u.user);
  }

  lemma {:induction false} OneMoved(first: Code, code: Code, code1: Code, was: Operand, now: Operand, l: seq<Use>,
      u: Use)
    requires Moved(first, code, was, now, l) && u.user in code && u.arg < |code[u.user].args| && u.user in first
    requires code1 == code[u.user := code[u.user].(args := code[u.user].args[u.arg := now])]
    ensures Moved(first, code1, was, now, l + [u])
  {
    forall x | x in first ensures MovedAt(first, code1, was, now, l + [u], x) {
      assert MovedAt(first, code, was, now, l, x);
    }
  }

  lemma OneGrown(first: UseMap, uses: UseMap, uses1: UseMap, now: Operand, l: seq<Use>, u: Use)
    requires UsesGrown(first, uses, now, l) && UseAdded(uses, uses1, now, u)
    ensures UsesGrown(first, uses1, now, l + [u])
  {
  }

  lemma {:induction false} AllMoved(code: Code, code1: Code, uses: UseMap, uses1: UseMap, dead: set<Id>,
      retired: set<Operand>, was: Operand, now: Operand)
    requires UsesComplete(code, uses, dead) && UsesAccurate(code, uses, dead, retired) && was != now && was !in retired
    requires Moved(code, code1, was, now, UsesOf(uses, was)) && code1.Keys == code.Keys
    requires UsesGrown(uses, uses1, now, UsesOf(uses, was))
    ensures UsesComplete(code1, uses1, dead) && UsesAccurate(code1, uses1, dead, retired + {was})
    ensures forall x :: x in code && x in dead ==> code1[x] == code[x]
    ensures forall x :: x in code && x !in dead ==> code1[x] == Instr(code[x].op, Replace(code[x].args, was, now))
  {
    var l := UsesOf(uses, was);
    forall x | x in code
      ensures x in code1 && code1[x] == if x in dead then code[x]
        else Instr(code[x].op, Replace(code[x].args, was, now))
    {
      assert MovedAt(code, code1, was, now, l, x);
      MovedArgs(code, code1, uses, dead, retired, was, now, x);
    }
    MovedComplete(code, code1, uses, uses1, dead, was, now);
    MovedAccurate(code, code1, uses, uses1, dead, retired, was, now);
  }

  lemma {:induction false} MovedComplete(code: Code, code1: Code, uses: UseMap, uses1: UseMap, dead: set<Id>,
      was: Operand, now: Operand)
    requires UsesComplete(code, uses, dead) && UsesGrown(uses, uses1, now, UsesOf(uses, was)) && code1.Keys == code.Keys
    requires forall x :: x in code && x !in dead ==> code1[x] == Instr(code[x].op, Replace(code[x].args, was, now))
    ensures UsesComplete(code1, uses1, dead)
  {
    forall y, k: nat, v | y !in dead && IsOperand(code1, y, k, v) ensures Use(y, k) in UsesOf(uses1, v) {
      assert IsOperand(code, y, k, code[y].args[k]);
    }
  }

  lemma {:induction false} MovedAccurate(code: Code, code1: Code, uses: UseMap, uses1: UseMap, dead: set<Id>,
      retired: set<Operand>, was: Operand, now: Operand)
    requires UsesAccurate(code, uses, dead, retired) && was !in retired
    requires UsesGrown(uses, uses1, now, UsesOf(uses, was)) && code1.Keys == code.Keys
    requires forall x :: x in code && x !in dead ==> code1[x] == Instr(code[x].op, Replace(code[x].args, was, now))
    ensures UsesAccurate(code1, uses1, dead, retired + {was})
  {
    forall v, u | v !in retired + {was} && u in UsesOf(uses1, v)
      ensures u.user !in dead && IsOperand(code1, u.user, u.arg, v) {
      if u in UsesOf(uses, v) { assert IsOperand(code, u.user, u.arg, v); }
        else { assert IsOperand(code, u.user, u.arg, was); }
    }
  }

  lemma {:induction false} MovedArgs(code: Code, code1: Code, uses: UseMap, dead: set<Id>, retired: set<Operand>,
      was: Operand, now: Operand, x: Id)
    requires UsesComplete(code, uses, dead) && UsesAccurate(code, uses, dead, retired) && was !in retired
    requires x in code && MovedAt(code, code1, was, now, UsesOf(uses, was), x)
    ensures x in code1 && code1[x] == if x in dead then code[x] else Instr(code[x].op, Replace(code[x].args, was, now))
  {
    forall k | 0 <= k < |code[x].args|
      ensures Use(x, k) in UsesOf(uses, was) <==> x !in dead && code[x].args[k] == was
    {
      assert IsOperand(code, x, k, code[x].args[k]);
    }
    if x in dead {
      assert code1[x].args == code[x].args;
    } else {
      assert code1[x].args == Replace(code[x].args, was, now);
    }
  }

  lemma Deletes(code: Code, uses: UseMap, uses1: UseMap, dead: set<Id>, retired: set<Operand>, x: Id)
    requires UsesComplete(code, uses, dead) && UsesAccurate(code, uses, dead, retired) && x in code
    requires UsesDropped(uses, uses1, x, code[x].args)
    ensures UsesComplete(code, uses1, dead + {x}) && UsesAccurate(code, uses1, dead + {x}, retired)
  {
    forall v, u | v !in retired && u in UsesOf(uses1, v)
      ensures u.user !in dead + {x} && IsOperand(code, u.user, u.arg, v) {
      assert u in UsesOf(uses, v);
    }
    forall y, k: nat, v | y !in dead + {x} && IsOperand(code, y, k, v) ensures Use(y, k) in UsesOf(uses1, v) {
      assert Use(y, k) in UsesOf(uses, v);
    }
  }
}
