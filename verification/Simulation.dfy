/** The promoted function does what the original does. At every point, the memory
    cell v of the original agrees with the value on top of v's stack in the promoted
    function, and every value computed so far agrees with what has replaced it. */
module Simulation {
  import opened Wrappers
  import opened Cfg
  import opened DomTree
  import opened Frontier
  import opened Ir
  import opened Ssa

  // b may stand for a: the same value, or any value for an undefined one.
  ghost predicate Ref(a: Val, b: Val) {
    a == Undef || a == b
  }

  ghost predicate CellOk(s: Placed, w: World, b: Block, i: nat, v: Id, st: State, st': State)
    requires s.Valid() && b in s.f.lists && i <= |s.List(b)|
  {
    Ref(Lookup(st.mem, v), EvalOption(w, st'.env, s.Top(b, i, v)))
  }

  ghost predicate ValueOk(s: Placed, w: World, b: Block, i: nat, x: Id, st: State, st': State)
    requires s.Valid()
  {
    Before(s.f, x, b, i) && !Valueless(s.f.code, x) && CellOf(s.f.code, Res(x)).None? ==>
      Ref(Lookup(st.env, x), Eval(w, st'.env, s.Resolve(Res(x))))
  }

  ghost predicate Sim(s: Placed, w: World, b: Block, i: nat, st: State, st': State)
    requires s.Valid() && b in s.f.lists && i <= |s.List(b)|
  {
    && st'.trace == st.trace
    && (forall v {:trigger CellOk(s, w, b, i, v, st, st')} :: CellOk(s, w, b, i, v, st, st'))
    && (forall x {:trigger ValueOk(s, w, b, i, x, st, st')} :: ValueOk(s, w, b, i, x, st, st'))
    && (forall v :: Lookup(st'.mem, v) == Undef)
  }

  // ---- Writing one result leaves earlier values alone ----

  lemma {:induction false} EvalSettled(s: Placed, w: World, b: Block, i: nat, a: Operand, env: map<Id, Val>,
      env': map<Id, Val>)
    requires s.Valid() && Settled(s, a, b, i)
    requires forall y :: Before(s.f, y, b, i) ==> Lookup(env', y) == Lookup(env, y)
    ensures Eval(w, env', a) == Eval(w, env, a)
  {
    hide Placed.Valid, Placed.Resolve;
  }

  lemma {:induction false} EvalTop(s: Placed, w: World, b: Block, i: nat, v: Id, env: map<Id, Val>, env': map<Id, Val>)
    requires s.Valid() && b in s.f.lists && i <= |s.List(b)|
    requires forall y :: Before(s.f, y, b, i) ==> Lookup(env', y) == Lookup(env, y)
    ensures EvalOption(w, env', s.Top(b, i, v)) == EvalOption(w, env, s.Top(b, i, v))
  {
    hide Placed.Valid, Placed.Top, Settled, Eval, Before;
    if s.Top(b, i, v).Some? {
      TopSettled(s, b, i, v);
      EvalSettled(s, w, b, i, s.Top(b, i, v).value, env, env');
    }
  }

  lemma ResolveSettled(s: Placed, x: Id, b: Block, i: nat)
    requires s.Valid() && b in s.f.lists && i <= |s.List(b)| && Before(s.f, x, b, i) && CellOf(s.f.code, Res(x)).None?
    ensures Settled(s, s.Resolve(Res(x)), b, i)
  {
    hide Placed.Valid;
    ValueIsResolve(s, Res(x), b, i);
    ValueSettled(s, Res(x), b, i);
  }

  lemma NotBeforeItself(s: Placed, b: Block, i: nat, y: Id)
    requires s.Valid() && b in s.f.lists && i < |s.List(b)| && Before(s.f, y, b, i)
    ensures y != s.List(b)[i]
  {
    hide IsDomTree, StrictSsa;
    PlaceOf(s, b, i);
  }

  lemma BeforeNext(s: Placed, b: Block, i: nat, y: Id)
    requires s.Valid() && b in s.f.lists && i < |s.List(b)|
    ensures Before(s.f, y, b, i + 1) <==> Before(s.f, y, b, i) || y == s.List(b)[i]
  {
    hide IsDomTree, StrictSsa;
    PlaceOf(s, b, i);
  }

  // ---- One instruction ----

  lemma TopNext(s: Placed, b: Block, i: nat, v: Id)
    requires s.Valid() && b in s.f.lists && i < |s.List(b)| && PhiCell(s.f.code, s.List(b)[i]).None?
    ensures StoreCell(s.f.code, s.List(b)[i]) != Some(v) ==> s.Top(b, i + 1, v) == s.Top(b, i, v)
    ensures StoreCell(s.f.code, s.List(b)[i]) == Some(v) ==>
              s.Top(b, i + 1, v) == Some(s.Resolve(s.StoredOperand(s.List(b)[i])))
  {
    hide Placed.Valid;
    if StoreCell(s.f.code, s.List(b)[i]) == Some(v) {
      StoredAvailable(s, b, i);
      ValueIsResolve(s, s.StoredOperand(s.List(b)[i]), b, i);
    }
  }

  lemma TopNextSettled(s: Placed, b: Block, i: nat, v: Id)
    requires s.Valid() && b in s.f.lists && i < |s.List(b)| && PhiCell(s.f.code, s.List(b)[i]).None?
    requires s.Top(b, i + 1, v).Some?
    ensures Settled(s, s.Top(b, i + 1, v).value, b, i)
  {
    hide Placed.Valid, Placed.Top;
    TopNext(s, b, i, v);
    if StoreCell(s.f.code, s.List(b)[i]) == Some(v) {
      StoredAvailable(s, b, i);
      ValueIsResolve(s, s.StoredOperand(s.List(b)[i]), b, i);
      ValueSettled(s, s.StoredOperand(s.List(b)[i]), b, i);
    } else {
      TopSettled(s, b, i, v);
    }
  }

  // From (b, i) to (b, i + 1), where x stands: at most x is written in either environment.
  ghost predicate OnlyWrites(x: Id, env: map<Id, Val>, env1: map<Id, Val>) {
    forall y :: y != x ==> Lookup(env1, y) == Lookup(env, y)
  }

  ghost predicate CellNext(s: Placed, w: World, b: Block, i: nat, v: Id, st1: State, st': State)
    requires s.Valid() && b in s.f.lists && i < |s.List(b)|
  {
    Ref(Lookup(st1.mem, v), EvalOption(w, st'.env, s.Top(b, i + 1, v)))
  }

  lemma {:induction false} Advance(s: Placed, w: World, b: Block, i: nat, next: nat, x: Id, st: State, st': State,
      st1: State, st1': State)
    requires s.Valid() && b in s.f.lists && i < |s.List(b)| && x == s.List(b)[i] && PhiCell(s.f.code, x).None?
    requires next == i + 1 && Sim(s, w, b, i, st, st') && st1'.trace == st1.trace
    requires OnlyWrites(x, st.env, st1.env) && OnlyWrites(x, st'.env, st1'.env)
    requires forall v :: Lookup(st1'.mem, v) == Undef
    requires forall v {:trigger CellNext(s, w, b, i, v, st1, st')} :: CellNext(s, w, b, i, v, st1, st')
    requires CellOf(s.f.code, Res(x)).None? && !Valueless(s.f.code, x) ==>
      Ref(Lookup(st1.env, x), Eval(w, st1'.env, s.Resolve(Res(x))))
    ensures Sim(s, w, b, next, st1, st1')
  {
    hide Placed.Valid, Placed.Top, Placed.Resolve, Eval, Lookup, CellOf, PhiCell, Before, Ref, Valueless;
    forall v ensures CellOk(s, w, b, next, v, st1, st1') {
      AdvanceCell(s, w, b, i, x, v, st1, st', st1');
    }
    forall y ensures ValueOk(s, w, b, next, y, st1, st1') {
      BeforeNext(s, b, i, y);
      if y != x {
        assert ValueOk(s, w, b, i, y, st, st');
        AdvanceValue(s, w, b, i, x, y, st', st1');
      }
    }
  }

  lemma {:induction false} AdvanceCell(s: Placed, w: World, b: Block, i: nat, x: Id, v: Id, st1: State, st': State,
      st1': State)
    requires s.Valid() && b in s.f.lists && i < |s.List(b)| && x == s.List(b)[i] && PhiCell(s.f.code, x).None?
    requires OnlyWrites(x, st'.env, st1'.env) && CellNext(s, w, b, i, v, st1, st')
    ensures CellOk(s, w, b, i + 1, v, st1, st1')
  {
    hide Placed.Valid, Placed.Top, Before;
    if s.Top(b, i + 1, v).Some? {
      TopNextSettled(s, b, i, v);
      forall y | Before(s.f, y, b, i) ensures Lookup(st1'.env, y) == Lookup(st'.env, y) { NotBeforeItself(s, b, i, y); }
      EvalSettled(s, w, b, i, s.Top(b, i + 1, v).value, st'.env, st1'.env);
    }
  }

  lemma {:induction false} AdvanceValue(s: Placed, w: World, b: Block, i: nat, x: Id, y: Id, st': State, st1': State)
    requires s.Valid() && b in s.f.lists && i < |s.List(b)| && x == s.List(b)[i]
    requires OnlyWrites(x, st'.env, st1'.env)
    ensures Before(s.f, y, b, i) && CellOf(s.f.code, Res(y)).None? ==>
              Eval(w, st1'.env, s.Resolve(Res(y))) == Eval(w, st'.env, s.Resolve(Res(y)))
  {
    hide Placed.Valid, Placed.Resolve, Before, CellOf;
    if Before(s.f, y, b, i) && CellOf(s.f.code, Res(y)).None? {
      ResolveSettled(s, y, b, i);
      forall z | Before(s.f, z, b, i) ensures Lookup(st1'.env, z) == Lookup(st'.env, z) { NotBeforeItself(s, b, i, z); }
      EvalSettled(s, w, b, i, s.Resolve(Res(y)), st'.env, st1'.env);
    }
  }

  // Operands that are values agree.
  lemma {:induction false} OperandOk(s: Placed, w: World, b: Block, i: nat, a: Operand, st: State, st': State)
    requires s.Valid() && b in s.f.lists && i <= |s.List(b)| && Sim(s, w, b, i, st, st')
    requires Available(s.f, a, b, i) && CellOf(s.f.code, a).None? && (a.Res? ==> !Valueless(s.f.code, a.id))
    ensures Ref(Eval(w, st.env, a), Eval(w, st'.env, s.Resolve(a)))
  {
    hide Placed.Valid, Placed.Top, CellOf, Before;
    if a.Res? { assert ValueOk(s, w, b, i, a.id, st, st'); }
  }

  lemma {:induction false} CellsKept(s: Placed, w: World, b: Block, i: nat, st: State, st': State, st1: State)
    requires s.Valid() && b in s.f.lists && i < |s.List(b)| && Sim(s, w, b, i, st, st')
    requires PhiCell(s.f.code, s.List(b)[i]).None? && StoreCell(s.f.code, s.List(b)[i]).None?
    requires forall v :: Lookup(st1.mem, v) == Lookup(st.mem, v) || Lookup(st1.mem, v) == Undef
    ensures forall v {:trigger CellNext(s, w, b, i, v, st1, st')} :: CellNext(s, w, b, i, v, st1, st')
  {
    hide Placed.Valid, Placed.Top;
    forall v ensures CellNext(s, w, b, i, v, st1, st') {
      TopNext(s, b, i, v);
      assert CellOk(s, w, b, i, v, st, st');
    }
  }

  // A load that renaming replaces runs in the original only.
  lemma {:induction false} StepReplacedLoad(s: Placed, w: World, b: Block, i: nat, x: Id, st: State, st': State,
      st1: State)
    requires s.Valid() && b in s.f.lists && i < |s.List(b)| && x == s.List(b)[i] && Sim(s, w, b, i, st, st')
    requires Replaced(s, x) && Step(w, s.f.code, x, st) == Next(st1)
    ensures Sim(s, w, b, i + 1, st1, st')
  {
    hide Placed.Valid, Sim, Placed.Top;
    PlaceOf(s, b, i);
    var v := LoadCell(s.f.code, x).value;
    SimParts(s, w, b, i, v, st, st');
    CellsKept(s, w, b, i, st, st', st1);
    Advance(s, w, b, i, i + 1, x, st, st', st1, st');
  }

  lemma {:induction false} SimParts(s: Placed, w: World, b: Block, i: nat, v: Id, st: State, st': State)
    requires s.Valid() && b in s.f.lists && i <= |s.List(b)| && Sim(s, w, b, i, st, st')
    ensures st'.trace == st.trace && CellOk(s, w, b, i, v, st, st') && forall u :: Lookup(st'.mem, u) == Undef
  {
    hide Placed.Valid, Placed.Top, CellOk, ValueOk;
    assert CellOk(s, w, b, i, v, st, st');
  }

  lemma OperandPlain(s: Placed, b: Block, i: nat, k: nat)
    requires s.Valid() && b in s.f.lists && i < |s.List(b)| && s.List(b)[i] in s.f.code
    requires k < |s.f.code[s.List(b)[i]].args|
    ensures Available(s.f, s.f.code[s.List(b)[i]].args[k], b, i) && Plain(s.f, s.List(b)[i], k)
  {
    hide IsDomTree;
    assert OperandsAvailable(s.f, b, i);
  }

  lemma {:induction false} StepCellStore(s: Placed, w: World, b: Block, i: nat, x: Id, st: State, st': State,
      st1: State)
    requires s.Valid() && b in s.f.lists && i < |s.List(b)| && x == s.List(b)[i] && Sim(s, w, b, i, st, st')
    requires StoreCell(s.f.code, x).Some? && Step(w, s.f.code, x, st) == Next(st1)
    ensures Sim(s, w, b, i + 1, st1, st')
  {
    hide Placed.Valid, Sim, Placed.Top, Placed.Resolve;
    PlaceOf(s, b, i);
    var v, a := StoreCell(s.f.code, x).value, s.StoredOperand(x);
    SimParts(s, w, b, i, v, st, st');
    StoredAvailable(s, b, i);
    OperandPlain(s, b, i, 0);
    OperandOk(s, w, b, i, a, st, st');
    forall u ensures CellNext(s, w, b, i, u, st1, st') {
      TopNext(s, b, i, u);
      SimParts(s, w, b, i, u, st, st');
    }
    Advance(s, w, b, i, i + 1, x, st, st', st1, st');
  }

  // What the promoted function does for one outcome of the original.
  ghost predicate Matches(s: Placed, w: World, b: Block, next: nat, o: Outcome, o': Outcome)
    requires s.Valid() && b in s.f.lists && next <= |s.List(b)|
  {
    match o
    case Bad => true
    case Return(_, _) => o' == o
    case Jump(c, st) => o'.Jump? && o'.target == c && s.f.g.Edge(b, c) && next == |s.List(b)| &&
      Sim(s, w, b, next, st, o'.st)
    case Next(st) => o'.Next? && Sim(s, w, b, next, st, o'.st)
  }

  lemma {:induction false} StepNumberCell(s: Placed, w: World, b: Block, i: nat, x: Id, st: State, st': State,
      st1: State)
    requires s.Valid() && b in s.f.lists && i < |s.List(b)| && x == s.List(b)[i] && Sim(s, w, b, i, st, st')
    requires x in s.f.code && s.f.code[x].op == Alloca(Number) && Step(w, s.f.code, x, st) == Next(st1)
    ensures Sim(s, w, b, i + 1, st1, st')
  {
    hide Placed.Valid, Sim, Placed.Top, Placed.Resolve;
    SimParts(s, w, b, i, x, st, st');
    CellsKept(s, w, b, i, st, st', st1);
    Advance(s, w, b, i, i + 1, x, st, st', st1, st');
  }

  // Renaming an operand changes neither whether it is a cell nor which.
  lemma CellAgrees(s: Placed, f3: Func, b: Block, i: nat, a: Operand)
    requires s.Valid() && IsPromotion(s, f3) && b in s.f.lists && i <= |s.List(b)| && Available(s.f, a, b, i)
    ensures CellOf(f3.code, s.Resolve(a)) == CellOf(s.f.code, a)
  {
    hide IsDomTree, StrictSsa, Placed.Top;
    if CellOf(s.f.code, a).Some? {
      assert s.Resolve(a) == a;
    } else {
      ValueIsResolve(s, a, b, i);
      ValueSettled(s, a, b, i);
      SettledCode(s, s.Resolve(a), b, i);
    }
  }

  lemma SettledCode(s: Placed, a: Operand, b: Block, i: nat)
    requires s.Valid() && Settled(s, a, b, i)
    ensures a.Res? ==> a.id in s.f.code
  {
    hide IsDomTree, StrictSsa, Placed.Resolve;
    if a.Res? {
      var l := s.f.lists[s.f.home[a.id]];
      assert l[IndexOf(l, a.id)] in s.f.code;
    }
  }

  // A remaining instruction other than a phi, in both functions.
  ghost predicate Remains(s: Placed, f3: Func, b: Block, i: nat, x: Id)
    requires s.Valid()
  {
    && b in s.f.lists && i < |s.List(b)| && x == s.List(b)[i]
    && IsPromotion(s, f3) && x in s.f.code && x in f3.code
    && PhiCell(s.f.code, x).None? && StoreCell(s.f.code, x).None?
    && Renamed(s, x, f3.code[x])
  }

  lemma ArgAgrees(s: Placed, f3: Func, b: Block, i: nat, x: Id, k: nat)
    requires s.Valid() && Remains(s, f3, b, i, x) && k < |s.f.code[x].args|
    ensures k < |f3.code[x].args| && f3.code[x].args[k] == s.Resolve(s.f.code[x].args[k])
    ensures CellOf(f3.code, f3.code[x].args[k]) == CellOf(s.f.code, s.f.code[x].args[k])
    ensures s.f.code[x].args[k].Label? ==> f3.code[x].args[k] == s.f.code[x].args[k]
  {
    hide Placed.Valid, Placed.Top, CellOf, IsPromotion;
    OperandPlain(s, b, i, k);
    CellAgrees(s, f3, b, i, s.f.code[x].args[k]);
  }

  lemma CellsAgree(s: Placed, f3: Func, b: Block, i: nat, x: Id)
    requires s.Valid() && Remains(s, f3, b, i, x)
    ensures LoadCell(f3.code, x) == LoadCell(s.f.code, x) && StoreCell(f3.code, x).None?
    ensures f3.code[x].op == s.f.code[x].op && |f3.code[x].args| == |s.f.code[x].args|
  {
    hide Placed.Valid, Placed.Top, CellOf, IsPromotion, Placed.Resolve;
    forall k | 0 <= k < |s.f.code[x].args|
      ensures CellOf(f3.code, f3.code[x].args[k]) == CellOf(s.f.code, s.f.code[x].args[k]) {
      ArgAgrees(s, f3, b, i, x, k);
    }
  }

  lemma {:induction false} StepKeptLoad(s: Placed, f3: Func, w: World, b: Block, i: nat, x: Id, st: State, st': State)
    requires s.Valid() && Remains(s, f3, b, i, x) && Sim(s, w, b, i, st, st')
    requires LoadCell(s.f.code, x).Some? && !Replaced(s, x)
    ensures Matches(s, w, b, i + 1, Step(w, s.f.code, x, st), Step(w, f3.code, x, st'))
  {
    hide Placed.Valid, Sim, Placed.Top, Placed.Resolve, IsPromotion, Renamed, CellOf;
    PlaceOf(s, b, i);
    CellsAgree(s, f3, b, i, x);
    var v := LoadCell(s.f.code, x).value;
    SimParts(s, w, b, i, v, st, st');
    var st1, st1' := Step(w, s.f.code, x, st).st, Step(w, f3.code, x, st').st;
    CellsKept(s, w, b, i, st, st', st1);
    Advance(s, w, b, i, i + 1, x, st, st', st1, st1');
  }

  lemma {:induction false} EvalAllAgrees(w: World, env: map<Id, Val>, env': map<Id, Val>, args: seq<Operand>,
      args': seq<Operand>)
    requires |args| == |args'|
    requires forall k :: 0 <= k < |args| ==> Ref(Eval(w, env, args[k]), Eval(w, env', args'[k]))
    ensures EvalAll(w, env, args).Some? ==> EvalAll(w, env', args') == EvalAll(w, env, args)
  {
    if args != [] {
      assert Ref(Eval(w, env, args[0]), Eval(w, env', args'[0]));
      EvalAllAgrees(w, env, env', args[1..], args'[1..]);
    }
  }

  // The operands of a remaining instruction other than a load or store of a cell agree.
  lemma {:induction false} OperandsAgree(s: Placed, f3: Func, w: World, b: Block, i: nat, x: Id, st: State, st': State)
    requires s.Valid() && Remains(s, f3, b, i, x) && Sim(s, w, b, i, st, st') && LoadCell(s.f.code, x).None?
    ensures |f3.code[x].args| == |s.f.code[x].args|
    ensures forall k :: 0 <= k < |s.f.code[x].args| ==>
              Ref(Eval(w, st.env, s.f.code[x].args[k]), Eval(w, st'.env, f3.code[x].args[k]))
  {
    hide Placed.Valid, Placed.Top, Placed.Resolve, Sim, IsPromotion, Ref, Eval, CellOf;
    CellsAgree(s, f3, b, i, x);
    forall k | 0 <= k < |s.f.code[x].args|
      ensures Ref(Eval(w, st.env, s.f.code[x].args[k]), Eval(w, st'.env, f3.code[x].args[k]))
    {
      OperandPlain(s, b, i, k);
      ArgAgrees(s, f3, b, i, x, k);
      OperandOk(s, w, b, i, s.f.code[x].args[k], st, st');
    }
  }

  lemma {:induction false} StepKeptAlloca(s: Placed, f3: Func, w: World, b: Block, i: nat, x: Id, st: State, st': State)
    requires s.Valid() && Remains(s, f3, b, i, x) && Sim(s, w, b, i, st, st') && s.f.code[x].op.Alloca?
    ensures Matches(s, w, b, i + 1, Step(w, s.f.code, x, st), Step(w, f3.code, x, st'))
  {
    hide Placed.Valid, Sim, Placed.Top, IsPromotion, Renamed;
    CellsAgree(s, f3, b, i, x);
    SimParts(s, w, b, i, x, st, st');
    var st1, st1' := Step(w, s.f.code, x, st).st, Step(w, f3.code, x, st').st;
    forall v ensures Lookup(st1'.mem, v) == Undef { assert Lookup(st'.mem, v) == Undef; }
    CellsKept(s, w, b, i, st, st', st1);
    Advance(s, w, b, i, i + 1, x, st, st', st1, st1');
  }

  lemma {:induction false} StepOpaqueAgrees(s: Placed, f3: Func, w: World, b: Block, i: nat, x: Id, st: State,
      st': State)
    requires s.Valid() && Remains(s, f3, b, i, x) && Sim(s, w, b, i, st, st') && LoadCell(s.f.code, x).None?
    requires var op := s.f.code[x].op; op.Load? || op.Store? || op.Gep? || op.Pure? || op.Effect?
    ensures Matches(s, w, b, i + 1, Step(w, s.f.code, x, st), Step(w, f3.code, x, st'))
  {
    hide Placed.Valid, Sim, Placed.Top, IsPromotion, Renamed, EvalAll, CellOf;
    CellsAgree(s, f3, b, i, x);
    SimParts(s, w, b, i, x, st, st');
    OperandsAgree(s, f3, w, b, i, x, st, st');
    EvalAllAgrees(w, st.env, st'.env, s.f.code[x].args, f3.code[x].args);
    var o, o' := Step(w, s.f.code, x, st), Step(w, f3.code, x, st');
    if o.Next? {
      CellsKept(s, w, b, i, st, st', o.st);
      Advance(s, w, b, i, i + 1, x, st, st', o.st, o'.st);
    }
  }

  // A terminator leaves the state alone; a branch is last in its block.
  lemma {:induction false} StepTerminator(s: Placed, f3: Func, w: World, b: Block, i: nat, x: Id, st: State, st': State)
    requires s.Valid() && Remains(s, f3, b, i, x) && Sim(s, w, b, i, st, st') && LoadCell(s.f.code, x).None?
    requires var op := s.f.code[x].op; op.Br? || op.CondBr? || op.Ret?
    ensures Matches(s, w, b, i + 1, Step(w, s.f.code, x, st), Step(w, f3.code, x, st'))
  {
    hide Placed.Valid, Sim, Placed.Top, IsPromotion, Renamed, EvalAll, CellOf;
    CellsAgree(s, f3, b, i, x);
    SimParts(s, w, b, i, x, st, st');
    OperandsAgree(s, f3, w, b, i, x, st, st');
    EvalAllAgrees(w, st.env, st'.env, s.f.code[x].args, f3.code[x].args);
    var o := Step(w, s.f.code, x, st);
    if o.Jump? {
      BranchFacts(s, b, i);
      assert forall k :: 0 <= k < |s.f.code[x].args| && s.f.code[x].args[k].Label? ==>
        f3.code[x].args[k] == s.f.code[x].args[k] by {
        forall k | 0 <= k < |s.f.code[x].args|
          ensures s.f.code[x].args[k].Label? ==> f3.code[x].args[k] == s.f.code[x].args[k] {
          ArgAgrees(s, f3, b, i, x, k);
        }
      }
      PassThrough(s, w, b, i, x, st, st');
    }
  }

  lemma BranchFacts(s: Placed, b: Block, i: nat)
    requires s.Valid() && b in s.f.lists && i < |s.List(b)| && s.List(b)[i] in s.f.code
    ensures var instr := s.f.code[s.List(b)[i]]; instr.op.Br? || instr.op.CondBr? ==>
              i + 1 == |s.List(b)| &&
                forall k :: 0 <= k < |instr.args| && instr.args[k].Label? ==> s.f.g.Edge(b, instr.args[k].b)
  {
    hide IsDomTree;
    assert Terminates(s.f, b, i);
  }

  // An instruction that writes nothing.
  lemma {:induction false} PassThrough(s: Placed, w: World, b: Block, i: nat, x: Id, st: State, st': State)
    requires s.Valid() && b in s.f.lists && i < |s.List(b)| && x == s.List(b)[i] && x in s.f.code
    requires s.f.code[x].op.Br? || s.f.code[x].op.CondBr?
    requires Sim(s, w, b, i, st, st')
    ensures Sim(s, w, b, i + 1, st, st')
  {
    hide Placed.Valid, Sim, Placed.Top, CellOf;
    SimParts(s, w, b, i, x, st, st');
    CellsKept(s, w, b, i, st, st', st);
    Advance(s, w, b, i, i + 1, x, st, st', st, st');
  }

  // ---- One block ----

  lemma {:induction false} StepKept(s: Placed, f3: Func, w: World, b: Block, i: nat, x: Id, st: State, st': State)
    requires s.Valid() && Remains(s, f3, b, i, x) && !Deleted(s, x) && Sim(s, w, b, i, st, st')
    ensures Matches(s, w, b, i + 1, Step(w, s.f.code, x, st), Step(w, f3.code, x, st'))
  {
    hide Placed.Valid, Sim, Placed.Top, IsPromotion, Renamed, Matches, Step;
    var op := s.f.code[x].op;
    if LoadCell(s.f.code, x).Some? {
      StepKeptLoad(s, f3, w, b, i, x, st, st');
    } else if op.Alloca? {
      StepKeptAlloca(s, f3, w, b, i, x, st, st');
    } else if op.Br? || op.CondBr? || op.Ret? {
      StepTerminator(s, f3, w, b, i, x, st, st');
    } else {
      StepOpaqueAgrees(s, f3, w, b, i, x, st, st');
    }
  }

  lemma {:induction false} StepDeleted(s: Placed, w: World, b: Block, i: nat, x: Id, st: State, st': State)
    requires s.Valid() && b in s.f.lists && i < |s.List(b)| && x == s.List(b)[i] && Sim(s, w, b, i, st, st')
    requires Deleted(s, x)
    ensures Step(w, s.f.code, x, st).Next? && Sim(s, w, b, i + 1, Step(w, s.f.code, x, st).st, st')
  {
    hide Placed.Valid, Sim, Placed.Top, CellOf;
    PlaceOf(s, b, i);
    var st1 := Step(w, s.f.code, x, st).st;
    if StoreCell(s.f.code, x).Some? {
      StepCellStore(s, w, b, i, x, st, st', st1);
    } else if s.f.code[x].op == Alloca(Number) {
      StepNumberCell(s, w, b, i, x, st, st', st1);
    } else {
      StepReplacedLoad(s, w, b, i, x, st, st', st1);
    }
  }

  lemma {:induction false} ExecAgrees(s: Placed, f3: Func, w: World, b: Block, i: nat, st: State, st': State)
    requires s.Valid() && IsPromotion(s, f3) && b in s.f.lists && b in s.nphi && s.nphi[b] <= i <= |s.List(b)|
    requires Sim(s, w, b, i, st, st')
    ensures Matches(s, w, b, |s.List(b)|, Exec(w, s.f.code, s.List(b)[i..], st),
      Exec(w, f3.code, Keep(s, s.List(b)[i..]), st'))
    decreases |s.List(b)| - i
  {
    hide Placed.Valid, Sim, Placed.Top, Deleted, Step, IsPromotion;
    var ids := s.List(b)[i..];
    if i < |s.List(b)| {
      var x := s.List(b)[i];
      assert ids[0] == x && ids[1..] == s.List(b)[i + 1..];
      NotPhiAfter(s, b, i);
      if Deleted(s, x) {
        StepDeleted(s, w, b, i, x, st, st');
        ExecAgrees(s, f3, w, b, i + 1, Step(w, s.f.code, x, st).st, st');
        assert Keep(s, ids) == Keep(s, ids[1..]);
      } else {
        RemainsHere(s, f3, b, i);
        StepKept(s, f3, w, b, i, x, st, st');
        var rest := Keep(s, ids[1..]);
        assert Keep(s, ids) == [x] + rest && ([x] + rest)[1..] == rest;
        var o, o' := Step(w, s.f.code, x, st), Step(w, f3.code, x, st');
        if o.Next? { ExecAgrees(s, f3, w, b, i + 1, o.st, o'.st); }
      }
    }
  }

  lemma NotPhiAfter(s: Placed, b: Block, i: nat)
    requires s.Valid() && b in s.f.lists && b in s.nphi && s.nphi[b] <= i < |s.List(b)|
    ensures PhiCell(s.f.code, s.List(b)[i]).None? && s.List(b)[i] in s.f.code
  {
    hide IsDomTree, StrictSsa;
    assert s.PhisFirst(b);
  }

  lemma RemainsHere(s: Placed, f3: Func, b: Block, i: nat)
    requires s.Valid() && IsPromotion(s, f3) && b in s.f.lists && i < |s.List(b)|
    requires PhiCell(s.f.code, s.List(b)[i]).None? && !Deleted(s, s.List(b)[i])
    ensures Remains(s, f3, b, i, s.List(b)[i])
  {
    hide Placed.Valid, Renamed, CellOf, LoadCell;
    PlaceOf(s, b, i);
  }

  // ---- One edge ----

  // The top just behind the phis of b is b's phi for v, or else what b inherits.
  lemma {:induction false} TopBehindPhis(s: Placed, b: Block, i: nat, v: Id)
    requires s.Valid() && b in s.f.lists && b in s.nphi && i <= s.nphi[b] <= |s.List(b)|
    ensures (forall k :: 0 <= k < i ==> PhiCell(s.f.code, s.List(b)[k]) != Some(v)) ==> s.Top(b, i, v) == s.Top(b, 0, v)
    ensures forall k :: 0 <= k < i && PhiCell(s.f.code, s.List(b)[k]) == Some(v) ==>
      s.Top(b, i, v) == Some(Res(s.List(b)[k]))
    decreases i
  {
    hide Placed.Valid, CellOf;
    if i > 0 {
      TopBehindPhis(s, b, i - 1, v);
      PhiFacts(s, b, i - 1);
      forall k | 0 <= k < i && PhiCell(s.f.code, s.List(b)[k]) == Some(v)
        ensures s.Top(b, i, v) == Some(Res(s.List(b)[k]))
      {
      }
    }
  }

  lemma PhiFacts(s: Placed, b: Block, i: nat)
    requires s.Valid() && b in s.f.lists && b in s.nphi && i < s.nphi[b] <= |s.List(b)|
    ensures PhiCell(s.f.code, s.List(b)[i]).Some? && StoreCell(s.f.code, s.List(b)[i]).None?
    ensures forall k :: 0 <= k < i ==> PhiCell(s.f.code, s.List(b)[k]) != PhiCell(s.f.code, s.List(b)[i])
  {
    hide IsDomTree, StrictSsa;
    assert s.PhisFirst(b);
  }

  // Entering b from p in the promoted function.
  ghost function Entered(s: Placed, f3: Func, w: World, p: Block, b: Block, st': State): State
    requires s.Valid()
  {
    if b in f3.lists then st'.(env := EnterEnv(w, f3.code, f3.lists[b], p, st'.env)) else st'
  }

  // Phis get the stack top of their predecessor, everything else keeps its value.
  lemma {:induction false} EnteredPhi(s: Placed, f3: Func, w: World, p: Block, b: Block, st': State, x: Id)
    requires s.Valid() && IsPromotion(s, f3) && b in s.f.lists && p in s.f.lists && s.f.g.Edge(p, b)
    requires x in s.f.lists[b] && PhiCell(s.f.code, x).Some?
    ensures Lookup(Entered(s, f3, w, p, b, st').env, x) ==
      EvalOption(w, st'.env, s.Top(p, |s.List(p)|, PhiCell(s.f.code, x).value))
  {
    hide Placed.Top, IsDomTree, StrictSsa, EvalOption, PhiOperand;
    KeepHas(s, s.f.lists[b], x);
    PlaceOf(s, b, IndexOf(s.f.lists[b], x));
    EdgePred(s, p, b);
    assert Renamed(s, x, f3.code[x]);
  }

  lemma EdgePred(s: Placed, p: Block, b: Block)
    requires s.Valid() && s.f.g.Edge(p, b)
    ensures b in s.f.g.pred && p in s.f.g.pred[b] && b in s.f.lists && p in s.f.lists && b != s.f.g.entry
  {
    hide Tree, Anc, StrictSsa;
  }

  lemma BeforeElsewhere(s: Placed, b: Block, y: Id)
    requires s.Valid() && b in s.f.lists && Before(s.f, y, b, 0)
    ensures y !in s.f.lists[b]
  {
    hide IsDomTree, StrictSsa;
    if y in s.f.lists[b] { PlaceOf(s, b, IndexOf(s.f.lists[b], y)); }
  }

  lemma {:induction false} EnteredOther(s: Placed, f3: Func, w: World, p: Block, b: Block, st': State, y: Id)
    requires s.Valid() && IsPromotion(s, f3) && b in s.f.lists
    requires Before(s.f, y, b, 0)
    ensures Lookup(Entered(s, f3, w, p, b, st').env, y) == Lookup(st'.env, y)
  {
    hide Placed.Valid, EvalOption, PhiOperand, Renamed, Deleted, Before;
    BeforeElsewhere(s, b, y);
    KeepHas(s, s.f.lists[b], y);
  }

  lemma {:induction false} EdgeCell(s: Placed, f3: Func, w: World, p: Block, b: Block, v: Id, st: State, st': State)
    requires s.Valid() && FrontierClosed(s) && IsPromotion(s, f3) && s.f.g.Edge(p, b)
    requires p in s.f.lists && b in s.f.lists && b in s.nphi && s.nphi[b] <= |s.List(b)|
    requires Sim(s, w, p, |s.List(p)|, st, st')
    ensures CellOk(s, w, b, s.nphi[b], v, st, Entered(s, f3, w, p, b, st'))
  {
    hide Placed.Valid, Placed.Top, Sim, IsPromotion, Entered, Ref, PhiCell, FrontierClosed, InFrontier;
    SimParts(s, w, p, |s.List(p)|, v, st, st');
    TopBehindPhis(s, b, s.nphi[b], v);
    EdgePred(s, p, b);
    if HasPhi(s, b, v) {
      var k :| 0 <= k < |s.List(b)| && PhiCell(s.f.code, s.List(b)[k]) == Some(v);
      if s.nphi[b] <= k { NotPhiAfter(s, b, k); }
      EnteredPhi(s, f3, w, p, b, st', s.List(b)[k]);
    } else {
      InheritedTop(s, p, b, v);
      EdgeTopKept(s, f3, w, p, b, v, st');
    }
  }

  // Without a phi, b inherits what its predecessor leaves.
  lemma InheritedTop(s: Placed, p: Block, b: Block, v: Id)
    requires s.Valid() && FrontierClosed(s) && s.f.g.Edge(p, b) && p in s.f.lists && b in s.f.lists
    requires !HasPhi(s, b, v)
    ensures s.Top(b, 0, v) == s.Top(p, |s.List(p)|, v)
  {
    hide Placed.Valid, FrontierClosed, HasPhi;
    EdgePred(s, p, b);
    IdomSdom(s, b);
    DominatesPred(s.f.g, s.Idom(b), p, b);
    ClimbKeepsTop(s, p, p, b, v);
  }

  lemma {:induction false} EdgeTopKept(s: Placed, f3: Func, w: World, p: Block, b: Block, v: Id, st': State)
    requires s.Valid() && IsPromotion(s, f3) && b in s.f.lists
    ensures EvalOption(w, Entered(s, f3, w, p, b, st').env, s.Top(b, 0, v)) == EvalOption(w, st'.env, s.Top(b, 0, v))
  {
    hide Placed.Valid, Placed.Top, IsPromotion, Entered, Before;
    var env' := Entered(s, f3, w, p, b, st').env;
    forall y | Before(s.f, y, b, 0) ensures Lookup(env', y) == Lookup(st'.env, y) {
      EnteredOther(s, f3, w, p, b, st', y);
    }
    EvalTop(s, w, b, 0, v, st'.env, env');
  }

  lemma {:induction false} EdgeValue(s: Placed, f3: Func, w: World, p: Block, b: Block, x: Id, st: State, st': State)
    requires s.Valid() && IsPromotion(s, f3) && s.f.g.Edge(p, b)
    requires p in s.f.lists && b in s.f.lists && b in s.nphi && s.nphi[b] <= |s.List(b)|
    requires Sim(s, w, p, |s.List(p)|, st, st')
    ensures ValueOk(s, w, b, s.nphi[b], x, st, Entered(s, f3, w, p, b, st'))
  {
    hide Placed.Valid, Placed.Top, Placed.Resolve, IsPromotion, Entered, Before, CellOf, CellOk;
    if Before(s.f, x, b, s.nphi[b]) && !Valueless(s.f.code, x) && CellOf(s.f.code, Res(x)).None? {
      BeforeAcross(s, p, b, x);
      assert ValueOk(s, w, p, |s.List(p)|, x, st, st');
      ResolveSettled(s, x, b, 0);
      var env' := Entered(s, f3, w, p, b, st').env;
      forall y | Before(s.f, y, b, 0) ensures Lookup(env', y) == Lookup(st'.env, y) {
        EnteredOther(s, f3, w, p, b, st', y);
      }
      EvalSettled(s, w, b, 0, s.Resolve(Res(x)), st'.env, env');
    }
  }

  // A value defined before b, other than b's phis, is defined before the end of each predecessor.
  lemma BeforeAcross(s: Placed, p: Block, b: Block, x: Id)
    requires s.Valid() && s.f.g.Edge(p, b) && p in s.f.lists && b in s.f.lists && b in s.nphi &&
      s.nphi[b] <= |s.List(b)|
    requires Before(s.f, x, b, s.nphi[b]) && !Valueless(s.f.code, x)
    ensures Before(s.f, x, b, 0) && Before(s.f, x, p, |s.List(p)|)
  {
    hide IsDomTree, StrictSsa;
    if s.f.home[x] == b { PhisAreValueless(s, b, x); }
    DominatesPred(s.f.g, s.f.home[x], p, b);
  }

  lemma PhisAreValueless(s: Placed, b: Block, x: Id)
    requires s.Valid() && b in s.f.lists && b in s.nphi && s.nphi[b] <= |s.List(b)| && Listed(s.f, x)
    requires s.f.home[x] == b && IndexOf(s.f.lists[b], x) < s.nphi[b]
    ensures Valueless(s.f.code, x)
  {
    hide IsDomTree, StrictSsa;
    assert s.PhisFirst(b);
    assert s.f.lists[b][IndexOf(s.f.lists[b], x)] == x;
  }

  lemma {:induction false} EdgeSim(s: Placed, f3: Func, w: World, p: Block, b: Block, st: State, st': State)
    requires s.Valid() && FrontierClosed(s) && IsPromotion(s, f3) && s.f.g.Edge(p, b)
    requires p in s.f.lists && b in s.f.lists && b in s.nphi && s.nphi[b] <= |s.List(b)|
    requires Sim(s, w, p, |s.List(p)|, st, st')
    ensures Sim(s, w, b, s.nphi[b], st, Entered(s, f3, w, p, b, st'))
  {
    hide Placed.Valid, Placed.Top, IsPromotion, FrontierClosed, CellOk, ValueOk, EnterEnv;
    var k, st1' := s.nphi[b], Entered(s, f3, w, p, b, st');
    forall v ensures CellOk(s, w, b, k, v, st, st1') { EdgeCell(s, f3, w, p, b, v, st, st'); }
    forall x ensures ValueOk(s, w, b, k, x, st, st1') { EdgeValue(s, f3, w, p, b, x, st, st'); }
  }

  // ---- Whole runs ----

  // f is the function before its phis were placed.
  ghost predicate PlacedFrom(s: Placed, f: Func)
  {
    && f.g == s.f.g && f.lists.Keys == s.f.lists.Keys
    && (forall b :: b in f.lists ==>
         b in s.nphi && s.nphi[b] <= |s.f.lists[b]| && f.lists[b] == s.f.lists[b][s.nphi[b]..])
    && (forall x :: x in f.code ==> x in s.f.code && s.f.code[x] == f.code[x])
    && (forall x :: x in s.f.code && x !in f.code ==> s.f.code[x].op.Phi?)
    && (forall b, x :: b in f.lists && x in f.lists[b] ==> x in f.code && !f.code[x].op.Phi?)
  }

  lemma SameCell(s: Placed, f: Func, a: Operand)
    requires PlacedFrom(s, f)
    ensures CellOf(f.code, a) == CellOf(s.f.code, a)
  {
  }

  lemma {:induction false} SameExec(s: Placed, f: Func, w: World, ids: seq<Id>, st: State)
    requires PlacedFrom(s, f) && forall x :: x in ids ==> x in f.code
    ensures Exec(w, f.code, ids, st) == Exec(w, s.f.code, ids, st)
  {
    hide PlacedFrom, CellOf;
    if ids != [] {
      SameStep(s, f, w, ids[0], st);
      var o := Step(w, f.code, ids[0], st);
      if o.Next? { SameExec(s, f, w, ids[1..], o.st); }
    }
  }

  lemma SameStep(s: Placed, f: Func, w: World, x: Id, st: State)
    requires PlacedFrom(s, f) && x in f.code
    ensures Step(w, f.code, x, st) == Step(w, s.f.code, x, st)
  {
    hide CellOf, StepOther;
    forall k | 0 <= k < |f.code[x].args|
      ensures CellOf(f.code, f.code[x].args[k]) == CellOf(s.f.code, f.code[x].args[k]) {
      SameCell(s, f, f.code[x].args[k]);
    }
  }

  // The relation between the two runs in front of a block.
  ghost predicate Related(s: Placed, w: World, c1: Config, c2: Config)
    requires s.Valid()
  {
    match c1
    case Stuck => true
    case Done(_, _) => c2 == c1
    case At(p, b, st) =>
      && c2.At? && c2.from == p && c2.block == b && c2.st.trace == st.trace && b in s.f.lists && p in s.f.lists
      && (if b == s.f.g.entry then Sim(s, w, b, 0, st, c2.st)
           else s.f.g.Edge(p, b) && Sim(s, w, p, |s.List(p)|, st, c2.st))
  }

  lemma EntryHasNoPhi(s: Placed)
    requires s.Valid() && FrontierClosed(s)
    ensures s.f.g.entry in s.f.lists && s.f.g.entry in s.nphi && s.nphi[s.f.g.entry] == 0 <= |s.List(s.f.g.entry)|
  {
    hide IsDomTree, StrictSsa, InFrontier;
    var e := s.f.g.entry;
    EntryListed(s);
    assert s.PhisFirst(e);
    if s.nphi[e] > 0 { FirstPhi(s, e); }
  }

  lemma FirstPhi(s: Placed, b: Block)
    requires b in s.f.lists && s.PhisFirst(b) && s.nphi[b] > 0
    ensures exists v :: HasPhi(s, b, v)
  {
    assert HasPhi(s, b, PhiCell(s.f.code, s.List(b)[0]).value);
  }

  lemma EntryUnchanged(s: Placed, f3: Func, w: World, p: Block, st': State)
    requires s.Valid() && FrontierClosed(s) && IsPromotion(s, f3)
    ensures Entered(s, f3, w, p, s.f.g.entry, st') == st'
  {
    hide Placed.Valid, Placed.Top, FrontierClosed, Renamed;
    var e := s.f.g.entry;
    EntryHasNoPhi(s);
    forall x | x in f3.lists[e] && x in f3.code ensures !f3.code[x].op.Phi? {
      KeepHas(s, s.f.lists[e], x);
      NotPhiAfter(s, e, IndexOf(s.f.lists[e], x));
    }
  }

  lemma PhiStays(s: Placed, f3: Func, w: World, b: Block, i: nat, st: State)
    requires s.Valid() && IsPromotion(s, f3) && b in s.f.lists && b in s.nphi && i < s.nphi[b] <= |s.List(b)|
    ensures !Deleted(s, s.List(b)[i]) && Step(w, f3.code, s.List(b)[i], st) == Next(st)
  {
    hide Placed.Valid, Placed.Top, Renamed, CellOf;
    PhiFacts(s, b, i);
  }

  lemma {:induction false} ExecSkipsPhis(s: Placed, f3: Func, w: World, b: Block, i: nat, st: State)
    requires s.Valid() && IsPromotion(s, f3) && b in s.f.lists && b in s.nphi && i <= s.nphi[b] <= |s.List(b)|
    ensures Exec(w, f3.code, Keep(s, s.List(b)[i..]), st) == Exec(w, f3.code, Keep(s, s.List(b)[s.nphi[b]..]), st)
    decreases s.nphi[b] - i
  {
    hide Placed.Valid, IsPromotion, Step, Deleted;
    if i < s.nphi[b] {
      var x, ids := s.List(b)[i], s.List(b)[i..];
      assert ids[0] == x && ids[1..] == s.List(b)[i + 1..];
      PhiStays(s, f3, w, b, i, st);
      ExecSkipsPhis(s, f3, w, b, i + 1, st);
      var rest := Keep(s, ids[1..]);
      assert Keep(s, ids) == [x] + rest && ([x] + rest)[1..] == rest;
    }
  }

  // The state in which the promoted function starts on the instructions behind the phis of b.
  lemma {:induction false} EnterSim(s: Placed, f3: Func, w: World, p: Block, b: Block, st: State, st': State)
    requires s.Valid() && FrontierClosed(s) && IsPromotion(s, f3)
    requires Related(s, w, At(p, b, st), At(p, b, st'))
    ensures b in s.nphi && s.nphi[b] <= |s.List(b)| && Sim(s, w, b, s.nphi[b], st, Entered(s, f3, w, p, b, st'))
  {
    hide Placed.Valid, Placed.Top, FrontierClosed, IsPromotion, Sim, Entered;
    if b == s.f.g.entry {
      EntryHasNoPhi(s);
      EntryUnchanged(s, f3, w, p, st');
    } else {
      PhiCount(s, b);
      EdgeSim(s, f3, w, p, b, st, st');
    }
  }

  lemma PhiCount(s: Placed, b: Block)
    requires s.Valid() && b in s.f.lists
    ensures b in s.nphi && s.nphi[b] <= |s.List(b)|
  {
    hide IsDomTree, StrictSsa, Laid;
    assert s.PhisFirst(b);
  }

  lemma OriginalEnter(s: Placed, f: Func, w: World, p: Block, b: Block, st: State)
    requires PlacedFrom(s, f) && b in s.f.lists && b in s.nphi && s.nphi[b] <= |s.List(b)|
    ensures b in f.lists && EnterEnv(w, f.code, f.lists[b], p, st.env) == st.env
    ensures Exec(w, f.code, f.lists[b], st) == Exec(w, s.f.code, s.List(b)[s.nphi[b]..], st)
  {
    SameExec(s, f, w, f.lists[b], st);
  }

  lemma {:induction false} EnterAgrees(s: Placed, f: Func, f3: Func, w: World, p: Block, b: Block, st: State,
      st': State)
    requires s.Valid() && FrontierClosed(s) && IsPromotion(s, f3) && PlacedFrom(s, f)
    requires Related(s, w, At(p, b, st), At(p, b, st'))
    ensures Related(s, w, Enter(f, w, p, b, st), Enter(f3, w, p, b, st'))
  {
    hide Placed.Valid, Placed.Top, FrontierClosed, Sim, PlacedFrom, Renamed, Exec, EnterEnv;
    EnterSim(s, f3, w, p, b, st, st');
    var st1' := Entered(s, f3, w, p, b, st');
    ExecAgrees(s, f3, w, b, s.nphi[b], st, st1');
    ExecSkipsPhis(s, f3, w, b, 0, st1');
    assert s.List(b)[0..] == s.f.lists[b];
    OriginalEnter(s, f, w, p, b, st);
    var o := Exec(w, f.code, f.lists[b], st);
    if o.Jump? { JumpRelated(s, w, b, o.target, o.st, Exec(w, f3.code, f3.lists[b], st1').st); }
  }

  lemma JumpRelated(s: Placed, w: World, b: Block, c: Block, st: State, st': State)
    requires s.Valid() && b in s.f.lists && s.f.g.Edge(b, c) && Sim(s, w, b, |s.List(b)|, st, st')
    ensures Related(s, w, At(b, c, st), At(b, c, st'))
  {
    hide Placed.Valid, Placed.Top, CellOk, ValueOk;
    EdgePred(s, b, c);
  }

  lemma StartSim(s: Placed, w: World)
    requires s.Valid()
    ensures s.f.g.entry in s.f.lists && Sim(s, w, s.f.g.entry, 0, State(map[], map[], []), State(map[], map[], []))
  {
    hide Placed.Valid;
    EntryListed(s);
    var e, st := s.f.g.entry, State(map[], map[], []);
    forall x ensures ValueOk(s, w, e, 0, x, st, st) {
    }
  }

  lemma {:induction false} RunAgrees(s: Placed, f: Func, f3: Func, w: World, n: nat)
    requires s.Valid() && FrontierClosed(s) && IsPromotion(s, f3) && PlacedFrom(s, f)
    ensures Related(s, w, Run(f, w, n), Run(f3, w, n))
  {
    hide Placed.Valid, Placed.Top, FrontierClosed, Sim, IsPromotion, PlacedFrom, Enter;
    if n == 0 {
      SameGraph(s, f, f3);
      StartSim(s, w);
    } else {
      RunAgrees(s, f, f3, w, n - 1);
      match Run(f, w, n - 1) {
        case At(p, b, st) => EnterAgrees(s, f, f3, w, p, b, st, Run(f3, w, n - 1).st);
        case _ =>
      }
    }
  }

  lemma SameGraph(s: Placed, f: Func, f3: Func)
    requires s.Valid() && IsPromotion(s, f3) && PlacedFrom(s, f)
    ensures f.g == s.f.g && f3.g == s.f.g
  {
  }

  // Promotion preserves meaning: on every world and for every number of steps.
  lemma PromotionRefines(s: Placed, f: Func, f3: Func)
    requires s.Valid() && FrontierClosed(s) && IsPromotion(s, f3) && PlacedFrom(s, f)
    ensures Refines(f, f3)
  {
    hide Placed.Valid, Placed.Top, FrontierClosed, Sim, IsPromotion, PlacedFrom, Run;
    forall w, n ensures RefinesAt(Run(f, w, n), Run(f3, w, n)) {
      RunAgrees(s, f, f3, w, n);
    }
  }
}
