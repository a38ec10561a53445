/** Successive sweeps of the immediate-dominator iteration. A sweep visits the
    blocks by falling post-order number; this module relates the links of one
    sweep to those of the sweep before and shows that links only ever rise. */
module Sweep {
  import opened Cfg
  import opened DomTree

  // The links in the middle of a sweep: `now` for the blocks numbered k and above,
  // which this sweep has visited, and `prev` for the rest.
  ghost function Mix(po: map<Block, nat>, now: Links, prev: Links, k: nat): Links {
    map y | y in po && y in (if k <= po[y] then now else prev) :: if k <= po[y] then now[y] else prev[y]
  }

  ghost predicate UpClosed(po: map<Block, nat>, t: Links) {
    forall a {:trigger LinkedAbove(po, t, a)} :: a in t && a in po ==> LinkedAbove(po, t, a)
  }

  ghost predicate LinkedAbove(po: map<Block, nat>, t: Links, a: Block)
    requires a in po
  {
    forall b :: b in po && po[a] < po[b] ==> b in t
  }

  // Each link of `now` was the meet found in the links of that moment.
  ghost predicate Swept(g: Graph, po: map<Block, nat>, now: Links, prev: Links, k: nat)
    requires g.Valid()
  {
    forall b {:trigger MetAt(g, po, now, prev, b)} :: b in now && b in po && b != g.entry && k <= po[b] ==>
      MetAt(g, po, now, prev, b)
  }

  ghost predicate MetAt(g: Graph, po: map<Block, nat>, now: Links, prev: Links, b: Block)
    requires g.Valid() && b in now && b in po
  {
    var m := Mix(po, now, prev, po[b] + 1);
    b in g.pred && Tree(g, po, m) && Meet(g, po, m, b, now[b])
  }

  // Ancestor sets of blocks numbered k and above have only shrunk.
  ghost predicate Shrunk(g: Graph, po: map<Block, nat>, now: Links, prev: Links, k: nat)
    requires Tree(g, po, now) && Tree(g, po, prev)
  {
    && prev.Keys <= now.Keys
    && forall y :: y in prev && k <= po[y] ==> Anc(g, po, now, y) <= Anc(g, po, prev, y)
  }

  // What two consecutive sweeps leave behind.
  ghost predicate Settled(g: Graph, po: map<Block, nat>, t1: Links, t2: Links) {
    && g.WellFormed() && Tree(g, po, t1) && Tree(g, po, t2)
    && UpClosed(po, t1) && UpClosed(po, t2)
    && Witnessed(g, po, t1) && Witnessed(g, po, t2)
    && Complete(g, po, t1)
    && Swept(g, po, t1, t2, 0) && Shrunk(g, po, t1, t2, 0)
  }

  // Below k the sweep has not been.
  ghost predicate Untouched(po: map<Block, nat>, t: Links, t1: Links, k: nat) {
    && (forall y :: y in po && po[y] < k ==> (y in t <==> y in t1))
    && (forall y :: y in po && po[y] < k && y in t && y in t1 ==> t[y] == t1[y])
  }

  // A sweep in progress over t1: blocks numbered k and above are visited.
  ghost predicate Running(g: Graph, po: map<Block, nat>, t: Links, t1: Links, k: nat)
    requires g.Valid() && Tree(g, po, t1)
  {
    && Tree(g, po, t) && UpClosed(po, t) && Witnessed(g, po, t) && Complete(g, po, t)
    && Untouched(po, t, t1, k) && Linked(po, t, k)
    && Swept(g, po, t, t1, k) && Shrunk(g, po, t, t1, k)
  }

  ghost predicate Sweeping(g: Graph, po: map<Block, nat>, t: Links, t1: Links, t2: Links, k: nat) {
    Settled(g, po, t1, t2) && Running(g, po, t, t1, k)
  }

  // ---- Falling paths carry ancestor sets within one sweep ----

  lemma MixTree(g: Graph, po: map<Block, nat>, t1: Links, t2: Links, k: nat)
    requires Tree(g, po, t1) && Tree(g, po, t2) && t2.Keys <= t1.Keys
    ensures Tree(g, po, Mix(po, t1, t2, k))
  {
    var m := Mix(po, t1, t2, k);
    forall b | b in m && b != g.entry ensures Climbs(g, po, m, b) {
      assert Climbs(g, po, t1, b) && (b in t2 ==> Climbs(g, po, t2, b));
    }
  }

  lemma MixAbove(g: Graph, po: map<Block, nat>, t1: Links, t2: Links, k: nat, y: Block)
    requires Tree(g, po, t1) && Tree(g, po, Mix(po, t1, t2, k))
    requires y in t1 && k <= po[y]
    ensures y in Mix(po, t1, t2, k) && Anc(g, po, Mix(po, t1, t2, k), y) == Anc(g, po, t1, y)
  {
    AncAgree(g, po, t1, Mix(po, t1, t2, k), y);
  }

  lemma {:induction false} MeetPred(g: Graph, po: map<Block, nat>, t: Links, b: Block, r: Block, p: Block, w: Block)
    requires Tree(g, po, t) && b in g.pred && Meet(g, po, t, b, r)
    requires p in g.pred[b] && p in t && w in Anc(g, po, t, r)
    ensures w in Anc(g, po, t, p)
  {
    assert MeetHas(g, po, t, b, w);
  }

  // m agrees with t above q, where t's link of q was found.
  lemma {:induction false} MeetKeeps(g: Graph, po: map<Block, nat>, t: Links, m: Links, p: Block, q: Block, w: Block)
    requires g.Valid() && Tree(g, po, t) && Tree(g, po, m)
    requires p in t && q in t && Forward(g, po, p, q) && q in g.pred && Meet(g, po, m, q, t[q])
    requires forall y :: y in t && po[q] < po[y] ==> y in m && m[y] == t[y]
    requires q != g.entry && w in Anc(g, po, t, q) && w != q
    ensures w in Anc(g, po, t, p)
  {
    AncAgree(g, po, t, m, p);
    AncAgree(g, po, t, m, t[q]);
    MeetPred(g, po, m, q, t[q], p, w);
  }

  lemma {:induction false} ForwardKeeps(g: Graph, po: map<Block, nat>, t1: Links, t2: Links, p: Block, q: Block,
      w: Block)
    requires g.Valid() && Tree(g, po, t1)
    requires p in t1 && q in t1 && Forward(g, po, p, q) && MetAt(g, po, t1, t2, q)
    requires q != g.entry && w in Anc(g, po, t1, q) && w != q
    ensures w in Anc(g, po, t1, p)
  {
    MeetKeeps(g, po, t1, Mix(po, t1, t2, po[q] + 1), p, q, w);
  }

  lemma {:induction false} FallsKeeps(g: Graph, po: map<Block, nat>, t1: Links, t2: Links, z: Block, y: Block, w: Block)
    requires g.Valid() && Tree(g, po, t1) && Swept(g, po, t1, t2, 0) && UpClosed(po, t1)
    requires z in po && y in t1 && Falls(g, po, z, y) && w in po && w in Anc(g, po, t1, y) && po[z] <= po[w]
    ensures z in t1 && w in Anc(g, po, t1, z)
    decreases po[g.entry] - po[y]
  {
    if z != y {
      var p :| p in po && Forward(g, po, p, y) && Falls(g, po, z, p);
      FallsRises(g, po, z, p);
      assert LinkedAbove(po, t1, y);
      assert MetAt(g, po, t1, t2, y);
      ForwardKeeps(g, po, t1, t2, p, y, w);
      FallsKeeps(g, po, t1, t2, z, p, w);
    }
  }

  // ---- In the middle of a sweep every ancestor set is inside that of one sweep earlier ----

  // m follows t1 from k up and t2 below.
  lemma {:induction false} MixHolds(g: Graph, po: map<Block, nat>, t1: Links, t2: Links, m: Links, k: nat, c: Block,
      y: Block, w: Block)
    requires g.Valid() && Tree(g, po, t1) && Tree(g, po, t2) && Tree(g, po, m) && m == Mix(po, t1, t2, k)
    requires t2.Keys <= t1.Keys && UpClosed(po, t1) && Swept(g, po, t1, t2, 0) && Witnessed(g, po, t2)
    requires c in t2 && po[c] < k && y in t2 && Falls(g, po, c, y)
    requires w in Anc(g, po, t2, c) && w in Anc(g, po, t1, y)
    ensures c in m && w in Anc(g, po, m, c)
    decreases po[g.entry] - po[c]
  {
    hide *;
    LinkKeys(g, po, t2);
    MixAt(g, po, t1, t2, m, k, c);
    if w != c {
      var d := t2[c];
      WitnessAt(g, po, t2, c);
      FallsTrans(g, po, d, c, y);
      if po[d] < k {
        MixHolds(g, po, t1, t2, m, k, d, y, w);
      } else {
        MixHoldsAbove(g, po, t1, t2, k, d, y, w);
      }
    }
  }

  // Below k the mixed links are the old ones.
  lemma {:induction false} MixAt(g: Graph, po: map<Block, nat>, t1: Links, t2: Links, m: Links, k: nat, c: Block)
    requires Tree(g, po, t2) && Tree(g, po, m) && m == Mix(po, t1, t2, k) && c in t2 && c in po && po[c] < k
    ensures Numbering(g, po) && g.entry in po && t2.Keys <= po.Keys && c in m && c in Anc(g, po, m, c)
    ensures c == g.entry ==> Anc(g, po, t2, c) == {c}
    ensures c != g.entry ==>
      t2[c] in t2 && t2[c] in m && po[c] < po[t2[c]] <= po[g.entry] && Anc(g, po, t2, c) == {c} + Anc(g, po, t2, t2[c])
    ensures c != g.entry ==> Anc(g, po, m, t2[c]) <= Anc(g, po, m, c)
  {
    assert m[c] == t2[c];
    assert c == g.entry || (Climbs(g, po, t2, c) && Climbs(g, po, m, c));
    AncShape(g, po, m, c);
    if c != g.entry { AncTransitive(g, po, m, t2[c], c); }
  }

  lemma WitnessAt(g: Graph, po: map<Block, nat>, t: Links, c: Block)
    requires Tree(g, po, t) && Witnessed(g, po, t) && c in t && c != g.entry
    ensures Falls(g, po, t[c], c)
  {
  }

  lemma {:induction false} MixHoldsAbove(g: Graph, po: map<Block, nat>, t1: Links, t2: Links, k: nat, d: Block,
      y: Block, w: Block)
    requires g.Valid() && Tree(g, po, t1) && Tree(g, po, t2) && Tree(g, po, Mix(po, t1, t2, k))
    requires UpClosed(po, t1) && Swept(g, po, t1, t2, 0)
    requires d in t2 && k <= po[d] && y in t1 && Falls(g, po, d, y)
    requires w in Anc(g, po, t2, d) && w in Anc(g, po, t1, y)
    ensures d in Mix(po, t1, t2, k) && w in Anc(g, po, Mix(po, t1, t2, k), d)
  {
    AncShape(g, po, t2, d);
    FallsKeeps(g, po, t1, t2, d, y, w);
    MixAbove(g, po, t1, t2, k, d);
  }

  lemma {:induction false} MixShrinks(g: Graph, po: map<Block, nat>, t: Links, t1: Links, t2: Links, k: nat, y: Block)
    requires Sweeping(g, po, t, t1, t2, k) && Tree(g, po, Mix(po, t1, t2, k))
    requires y in Mix(po, t1, t2, k)
    ensures y in t && Anc(g, po, t, y) <= Anc(g, po, Mix(po, t1, t2, k), y)
    decreases po[g.entry] - po[y]
  {
    var m := Mix(po, t1, t2, k);
    if k <= po[y] {
      MixAbove(g, po, t1, t2, k, y);
    } else if y != g.entry {
      var w := t1[y];
      assert t[y] == w;
      AncShape(g, po, t1, w);
      assert w in Anc(g, po, t1, y) && Anc(g, po, t1, y) <= Anc(g, po, t2, y);
      AncShape(g, po, t2, y);
      MixHolds(g, po, t1, t2, m, k, y, y, w);
      AncTransitive(g, po, m, w, y);
      MixShrinks(g, po, t, t1, t2, k, w);
    }
  }

  // ---- One visit ----

  // Over links whose ancestor sets are smaller, the meet is smaller.
  lemma {:induction false} MeetMonotone(g: Graph, po: map<Block, nat>, t: Links, m: Links, b: Block, r: Block, s: Block)
    requires Tree(g, po, t) && Tree(g, po, m) && b in g.pred && Meet(g, po, t, b, r) && Meet(g, po, m, b, s)
    requires forall p :: p in m ==> p in t && Anc(g, po, t, p) <= Anc(g, po, m, p)
    ensures r in t && Anc(g, po, t, r) <= Anc(g, po, m, s)
  {
    forall x | x in Anc(g, po, t, r) ensures x in Anc(g, po, m, s) {
      AncShape(g, po, t, r);
      assert MeetHas(g, po, t, b, x);
      assert MeetHas(g, po, m, b, x);
    }
  }

  lemma SweepingParts(g: Graph, po: map<Block, nat>, t: Links, t1: Links, t2: Links, b: Block)
    requires b in po && Sweeping(g, po, t, t1, t2, po[b] + 1)
    ensures Tree(g, po, t) && Tree(g, po, t1) && Tree(g, po, t2) && t2.Keys <= t1.Keys
    ensures b in t1 && b != g.entry ==>
      Climbs(g, po, t1, b) && b in g.pred && Tree(g, po, Mix(po, t1, t2, po[b] + 1)) &&
      Meet(g, po, Mix(po, t1, t2, po[b] + 1), b, t1[b])
  {
    hide Falls, Meet, Anc, Complete;
    assert b in t1 && b != g.entry ==> MetAt(g, po, t1, t2, b) && Climbs(g, po, t1, b);
  }

  // The value a visit finds is an ancestor, in the last sweep, of the link it replaces, and stands
  // higher if it is another block.
  lemma {:induction false} VisitRises(g: Graph, po: map<Block, nat>, t: Links, t1: Links, t2: Links, b: Block, r: Block)
    requires Visit(g, po, t, b, r) && Sweeping(g, po, t, t1, t2, po[b] + 1)
    requires b in t1
    ensures t1[b] in t1 && Anc(g, po, t, r) <= Anc(g, po, t1, t1[b])
    ensures r in po && t1[b] in po && po[t1[b]] <= po[r] && (r != t1[b] ==> po[t1[b]] < po[r])
  {
    hide Falls, Meet, Anc, Sweeping, Swept, MetAt;
    var k := po[b] + 1;
    SweepingParts(g, po, t, t1, t2, b);
    MixTree(g, po, t1, t2, k);
    var m := Mix(po, t1, t2, k);
    MixAbove(g, po, t1, t2, k, t1[b]);
    forall p | p in m ensures p in t && Anc(g, po, t, p) <= Anc(g, po, m, p) {
      MixShrinks(g, po, t, t1, t2, k, p);
    }
    MeetMonotone(g, po, t, m, b, r, t1[b]);
    LinkHigher(g, po, t, t1, r, t1[b]);
  }

  lemma {:induction false} LinkHigher(g: Graph, po: map<Block, nat>, t: Links, t1: Links, r: Block, l: Block)
    requires Tree(g, po, t) && Tree(g, po, t1) && r in t && l in t1 && Anc(g, po, t, r) <= Anc(g, po, t1, l)
    ensures r in po && l in po && po[l] <= po[r] && (r != l ==> po[l] < po[r])
  {
    AncShape(g, po, t, r);
    AncShape(g, po, t1, l);
  }

  lemma VisitKeepsUpClosed(g: Graph, po: map<Block, nat>, t: Links, b: Block, r: Block)
    requires Visit(g, po, t, b, r) && UpClosed(po, t) && Linked(po, t, po[b] + 1)
    ensures UpClosed(po, t[b := r])
  {
    var u := t[b := r];
    forall a | a in u && a in po ensures LinkedAbove(po, u, a) {
      if a != b { assert LinkedAbove(po, t, a); }
    }
  }

  lemma VisitKeepsWitnesses(g: Graph, po: map<Block, nat>, t: Links, b: Block, r: Block)
    requires Visit(g, po, t, b, r) && Witnessed(g, po, t) && Falls(g, po, r, b) && Tree(g, po, t[b := r])
    ensures Witnessed(g, po, t[b := r])
  {
    var u := t[b := r];
    forall x | x in u ensures Falls(g, po, u[x], x) {
      assert x == b || u[x] == t[x];
    }
  }

  lemma MixOfUpdate(po: map<Block, nat>, t: Links, t1: Links, b: Block, r: Block, k: nat)
    requires b in po && po[b] < k
    ensures Mix(po, t, t1, k) == Mix(po, t[b := r], t1, k)
  {
    forall y | y in po && k <= po[y] && y in t ensures t[b := r][y] == t[y] {
    }
  }

  lemma MixIsNow(po: map<Block, nat>, t: Links, t1: Links, k: nat)
    requires t.Keys <= po.Keys
    requires Untouched(po, t, t1, k)
    ensures Mix(po, t, t1, k) == t
  {
  }

  lemma {:induction false} MetIs(g: Graph, po: map<Block, nat>, t: Links, t1: Links, b: Block, m: Links, r: Block)
    requires g.Valid() && b in t && t[b] == r && b in po && b in g.pred && Mix(po, t, t1, po[b] + 1) == m
    requires Tree(g, po, m) && Meet(g, po, m, b, r)
    ensures MetAt(g, po, t, t1, b)
  {
  }

  lemma MetCarries(g: Graph, po: map<Block, nat>, t: Links, u: Links, t1: Links, x: Block)
    requires g.Valid() && x in t && x in u && t[x] == u[x] && x in po && MetAt(g, po, t, t1, x)
    requires Mix(po, t, t1, po[x] + 1) == Mix(po, u, t1, po[x] + 1)
    ensures MetAt(g, po, u, t1, x)
  {
    MetIs(g, po, u, t1, x, Mix(po, t, t1, po[x] + 1), t[x]);
  }

  lemma MixBack(po: map<Block, nat>, t: Links, t1: Links, b: Block, r: Block)
    requires b in po && t.Keys <= po.Keys && Untouched(po, t, t1, po[b] + 1)
    ensures Mix(po, t[b := r], t1, po[b] + 1) == t
  {
    var k := po[b] + 1;
    MixOfUpdate(po, t, t1, b, r, k);
    MixIsNow(po, t, t1, k);
  }

  lemma MetHere(g: Graph, po: map<Block, nat>, t: Links, t1: Links, b: Block, r: Block)
    requires Visit(g, po, t, b, r) && Mix(po, t[b := r], t1, po[b] + 1) == t
    ensures MetAt(g, po, t[b := r], t1, b)
  {
    MetIs(g, po, t[b := r], t1, b, t, r);
  }

  lemma {:induction false} MetThere(g: Graph, po: map<Block, nat>, t: Links, t1: Links, b: Block, r: Block, x: Block,
      k: nat)
    requires g.Valid() && b in po && b != x && x in t && x in po && po[b] < po[x] && k == po[x] + 1
    requires MetAt(g, po, t, t1, x)
    ensures MetAt(g, po, t[b := r], t1, x)
  {
    MixOfUpdate(po, t, t1, b, r, k);
    MetCarries(g, po, t, t[b := r], t1, x);
  }

  lemma VisitKeepsSwept(g: Graph, po: map<Block, nat>, t: Links, t1: Links, b: Block, r: Block)
    requires g.Valid() && b in po && Injective(po)
    requires Swept(g, po, t, t1, po[b] + 1) && MetAt(g, po, t[b := r], t1, b)
    ensures Swept(g, po, t[b := r], t1, po[b])
  {
    forall x | x in t && x in po && x != g.entry && po[b] < po[x] ensures MetAt(g, po, t[b := r], t1, x) {
      assert MetAt(g, po, t, t1, x);
      MetThere(g, po, t, t1, b, r, x, po[x] + 1);
    }
  }

  lemma VisitKeepsShrunk(g: Graph, po: map<Block, nat>, t: Links, t1: Links, b: Block, r: Block)
    requires Visit(g, po, t, b, r) && Tree(g, po, t1) && Tree(g, po, t[b := r]) && Injective(po)
    requires Shrunk(g, po, t, t1, po[b] + 1)
    requires b in t1 ==> t1[b] in t1 && Anc(g, po, t, r) <= Anc(g, po, t1, t1[b])
    ensures Shrunk(g, po, t[b := r], t1, po[b])
  {
    hide Meet, Anc, Visit, Tree, Injective;
    LinkKeys(g, po, t1);
    LinkKeys(g, po, t[b := r]);
    forall y | y in t1 && y in po && po[b] <= po[y] ensures Anc(g, po, t[b := r], y) <= Anc(g, po, t1, y) {
      if y == b { ShrunkHere(g, po, t, t1, b, r); } else { ShrunkAbove(g, po, t, t1, b, r, y); }
    }
  }

  lemma LinkKeys(g: Graph, po: map<Block, nat>, t: Links)
    requires Tree(g, po, t)
    ensures t.Keys <= po.Keys
  {
  }

  lemma ShrunkHere(g: Graph, po: map<Block, nat>, t: Links, t1: Links, b: Block, r: Block)
    requires Visit(g, po, t, b, r) && Tree(g, po, t1) && Tree(g, po, t[b := r]) && b in t1
    requires t1[b] in t1 && Anc(g, po, t, r) <= Anc(g, po, t1, t1[b])
    ensures Anc(g, po, t[b := r], b) <= Anc(g, po, t1, b)
  {
    hide Meet;
    VisitAncSelf(g, po, t, b, r);
  }

  lemma {:induction false} ShrunkAbove(g: Graph, po: map<Block, nat>, t: Links, t1: Links, b: Block, r: Block, y: Block)
    requires Visit(g, po, t, b, r) && Tree(g, po, t1) && Tree(g, po, t[b := r]) && Injective(po)
    requires Shrunk(g, po, t, t1, po[b] + 1) && y in t1 && y in po && po[b] <= po[y] && y != b
    ensures y in t[b := r] && Anc(g, po, t[b := r], y) <= Anc(g, po, t1, y)
  {
    hide Meet, Anc;
    VisitAnc(g, po, t, b, r, y);
  }

  lemma VisitKeepsComplete(g: Graph, po: map<Block, nat>, t: Links, b: Block, r: Block)
    requires g.WellFormed() && Visit(g, po, t, b, r) && Complete(g, po, t) && Witnessed(g, po, t)
    requires Tree(g, po, t[b := r])
    ensures Complete(g, po, t[b := r])
  {
    forall x, d | x in t[b := r] && g.Dominates(d, x) ensures d in Anc(g, po, t[b := r], x) {
      VisitCompleteAt(g, po, t, b, r, x, d);
    }
  }

  lemma {:induction false} VisitDistance(g: Graph, po: map<Block, nat>, t: Links, t1: Links, t2: Links, b: Block,
      r: Block)
    requires Visit(g, po, t, b, r) && Sweeping(g, po, t, t1, t2, po[b] + 1) && b in t1
    ensures t1[b] in t1 && Anc(g, po, t, r) <= Anc(g, po, t1, t1[b]) && po[t1[b]] <= po[r]
  {
    VisitRises(g, po, t, t1, t2, b, r);
    AncShape(g, po, t, r);
    AncShape(g, po, t1, t1[b]);
  }

  lemma VisitKeepsPlace(po: map<Block, nat>, t: Links, t1: Links, b: Block, r: Block)
    requires b in po && Injective(po) && Untouched(po, t, t1, po[b] + 1) && Linked(po, t, po[b] + 1)
    ensures Untouched(po, t[b := r], t1, po[b]) && Linked(po, t[b := r], po[b])
  {
  }

  // One visit of b takes the sweep one number down.
  lemma {:induction false} VisitStep(g: Graph, po: map<Block, nat>, t: Links, t1: Links, t2: Links, b: Block, r: Block)
    requires Visit(g, po, t, b, r) && Falls(g, po, r, b) && Injective(po)
    requires Sweeping(g, po, t, t1, t2, po[b] + 1)
    ensures Running(g, po, t[b := r], t1, po[b])
  {
    VisitTree(g, po, t, b, r);
    VisitKeepsPlace(po, t, t1, b, r);
    VisitKeepsUpClosed(g, po, t, b, r);
    VisitKeepsWitnesses(g, po, t, b, r);
    VisitKeepsComplete(g, po, t, b, r);
    MixBack(po, t, t1, b, r);
    MetHere(g, po, t, t1, b, r);
    VisitKeepsSwept(g, po, t, t1, b, r);
    if b in t1 { VisitDistance(g, po, t, t1, t2, b, r); }
    VisitKeepsShrunk(g, po, t, t1, b, r);
  }

  // ---- The first and the last state ----

  lemma InitialSettled(g: Graph, po: map<Block, nat>)
    requires g.WellFormed() && Numbering(g, po)
    ensures Settled(g, po, map[g.entry := g.entry], map[g.entry := g.entry])
  {
    var t := map[g.entry := g.entry];
    assert Tree(g, po, t);
    assert LinkedAbove(po, t, g.entry);
    forall b, d | b in t && g.Dominates(d, b) ensures d in Anc(g, po, t, b) {
      DominatesEntry(g, d);
    }
  }

  lemma QuietMeet(g: Graph, po: map<Block, nat>, t: Links, b: Block)
    requires g.Valid() && Tree(g, po, t) && b in t && MetAt(g, po, t, t, b)
    ensures b in g.pred && Meet(g, po, t, b, t[b])
  {
    var m := Mix(po, t, t, po[b] + 1);
    MixIsNow(po, t, t, po[b] + 1);
    assert m == t;
    assert Meet(g, po, m, b, t[b]);
  }

  // A sweep that changed nothing has reached the dominator tree.
  lemma QuietSweep(g: Graph, po: map<Block, nat>, t: Links, t2: Links)
    requires Sweeping(g, po, t, t, t2, 0)
    ensures IsDomTree(g, po, t)
  {
    hide *;
    QuietParts(g, po, t, t2);
    QuietFixpoint(g, po, t);
    FixpointIsDomTree(g, po, t);
  }

  lemma QuietParts(g: Graph, po: map<Block, nat>, t: Links, t2: Links)
    requires Sweeping(g, po, t, t, t2, 0)
    ensures g.WellFormed() && g.Valid() && Tree(g, po, t) && Complete(g, po, t) && Swept(g, po, t, t, 0) &&
      Linked(po, t, 0)
  {
    hide Tree, UpClosed, Witnessed, Complete, Swept, Shrunk, Linked, Untouched;
  }

  lemma QuietFixpoint(g: Graph, po: map<Block, nat>, t: Links)
    requires g.Valid() && Tree(g, po, t) && Swept(g, po, t, t, 0) && Linked(po, t, 0)
    ensures Fixpoint(g, po, t)
  {
    hide Meet, MetAt;
    forall b | b in t && b != g.entry ensures Meet(g, po, t, b, t[b]) {
      assert MetAt(g, po, t, t, b);
      QuietMeet(g, po, t, b);
    }
  }

  // ---- The measure: how far each link still is from the entry ----

  ghost function Distance(g: Graph, po: map<Block, nat>, t: Links, b: Block): nat
    requires Tree(g, po, t)
  {
    if b in t && t[b] in po && po[t[b]] <= po[g.entry] then po[g.entry] - po[t[b]] else po[g.entry] + 1
  }

  ghost function Total(g: Graph, po: map<Block, nat>, t: Links, bs: seq<Block>): nat
    requires Tree(g, po, t)
  {
    if bs == [] then 0 else Distance(g, po, t, bs[0]) + Total(g, po, t, bs[1..])
  }

  lemma {:induction false} TotalFalls(g: Graph, po: map<Block, nat>, t: Links, u: Links, bs: seq<Block>)
    requires Tree(g, po, t) && Tree(g, po, u)
    requires forall b :: b in bs ==> Distance(g, po, u, b) <= Distance(g, po, t, b)
    ensures Total(g, po, u, bs) <= Total(g, po, t, bs)
    ensures (exists b :: b in bs && Distance(g, po, u, b) < Distance(g, po, t, b)) ==>
              Total(g, po, u, bs) < Total(g, po, t, bs)
  {
    if bs != [] {
      assert forall b :: b in bs ==> b == bs[0] || b in bs[1..];
      TotalFalls(g, po, t, u, bs[1..]);
    }
  }

  // ---- The glue for the iteration ----

  // Since `before` no link has fallen, and the flag says whether one has moved.
  ghost predicate Progress(g: Graph, po: map<Block, nat>, before: Links, now: Links, changed: bool)
    requires Tree(g, po, before) && Tree(g, po, now)
  {
    && (forall b :: b in po ==> Distance(g, po, now, b) <= Distance(g, po, before, b))
    && (changed ==> exists b :: b in po && Distance(g, po, now, b) < Distance(g, po, before, b))
    && (!changed ==> now == before)
  }

  lemma SettledTree(g: Graph, po: map<Block, nat>, t1: Links, t2: Links)
    requires Settled(g, po, t1, t2)
    ensures Tree(g, po, t1) && g.Valid()
  {
  }

  lemma SweepStart(g: Graph, rpo: seq<Block>, po: map<Block, nat>, t: Links, t2: Links)
    requires Settled(g, po, t, t2) && Tree(g, po, t)
    requires forall b :: b in po ==> po[b] < |rpo|
    ensures Running(g, po, t, t, |rpo|) && Progress(g, po, t, t, false)
  {
  }

  // The entry is never visited; passing it changes nothing.
  lemma SkipEntry(g: Graph, po: map<Block, nat>, t: Links, t1: Links, above: nat, k: nat)
    requires g.Valid() && Tree(g, po, t1) && Injective(po) && po[g.entry] == k && above == k + 1
    requires Running(g, po, t, t1, above)
    ensures Running(g, po, t, t1, k)
  {
  }

  lemma NewIdomReady(g: Graph, po: map<Block, nat>, t: Links, t1: Links, k: nat)
    requires g.Valid() && Tree(g, po, t1) && Running(g, po, t, t1, k)
    ensures Tree(g, po, t) && Witnessed(g, po, t) && Linked(po, t, k)
  {
  }

  lemma DistanceElsewhere(g: Graph, po: map<Block, nat>, t: Links, b: Block, r: Block, x: Block)
    requires Tree(g, po, t) && Tree(g, po, t[b := r]) && x != b
    ensures Distance(g, po, t[b := r], x) == Distance(g, po, t, x)
  {
  }

  lemma DistanceHere(g: Graph, po: map<Block, nat>, t: Links, t1: Links, b: Block, r: Block)
    requires Tree(g, po, t1) && Tree(g, po, t[b := r]) && r in po && Injective(po) && Rises(po, t1, b, r)
    ensures Distance(g, po, t[b := r], b) <= Distance(g, po, t1, b)
    ensures b !in t1 || t1[b] != r ==> Distance(g, po, t[b := r], b) < Distance(g, po, t1, b)
  {
  }

  // r is no lower than the link of b.
  ghost predicate Rises(po: map<Block, nat>, t1: Links, b: Block, r: Block) {
    b in t1 && t1[b] in po && r in po ==> po[t1[b]] <= po[r]
  }

  lemma {:induction false} VisitProgress(g: Graph, po: map<Block, nat>, t: Links, t1: Links, b: Block, r: Block,
      changed: bool)
    requires Tree(g, po, t) && Tree(g, po, t1) && Tree(g, po, t[b := r]) && b in po && r in po && Injective(po)
    requires Untouched(po, t, t1, po[b] + 1) && Progress(g, po, t1, t, changed) && Rises(po, t1, b, r)
    ensures Progress(g, po, t1, t[b := r], changed || b !in t || t[b] != r)
  {
    hide Tree, Distance, Injective;
    DistanceHere(g, po, t, t1, b, r);
    forall x | x in po && x != b ensures Distance(g, po, t[b := r], x) == Distance(g, po, t, x) {
      DistanceElsewhere(g, po, t, b, r, x);
    }
    if b in t && t[b] == r { assert t[b := r] == t; }
  }

  lemma {:induction false} VisitOnce(g: Graph, po: map<Block, nat>, t: Links, t1: Links, t2: Links, b: Block,
      r: Block, above: nat, k: nat, changed: bool)
    requires Visit(g, po, t, b, r) && Falls(g, po, r, b) && Injective(po) && po[b] == k && above == k + 1
    requires Tree(g, po, t) && Tree(g, po, t1) && Settled(g, po, t1, t2) && Running(g, po, t, t1, above)
    requires Progress(g, po, t1, t, changed)
    ensures Tree(g, po, t[b := r]) && Running(g, po, t[b := r], t1, k)
    ensures Progress(g, po, t1, t[b := r], changed || b !in t || t[b] != r)
  {
    hide *;
    VisitFacts(g, po, t, t1, b, r, above);
    SweepingIs(g, po, t, t1, t2, above);
    VisitTree(g, po, t, b, r);
    VisitStep(g, po, t, t1, t2, b, r);
    if b in t1 { VisitDistance(g, po, t, t1, t2, b, r); }
    RisesIs(po, t1, b, r);
    VisitProgress(g, po, t, t1, b, r, changed);
  }

  lemma RisesIs(po: map<Block, nat>, t1: Links, b: Block, r: Block)
    requires b in t1 && t1[b] in po && r in po ==> po[t1[b]] <= po[r]
    ensures Rises(po, t1, b, r)
  {
  }

  lemma {:induction false} VisitFacts(g: Graph, po: map<Block, nat>, t: Links, t1: Links, b: Block, r: Block,
      above: nat)
    requires Visit(g, po, t, b, r) && Tree(g, po, t1) && Running(g, po, t, t1, above)
    ensures b in po && r in po && Untouched(po, t, t1, above)
  {
  }

  lemma SweepingIs(g: Graph, po: map<Block, nat>, t: Links, t1: Links, t2: Links, k: nat)
    requires Settled(g, po, t1, t2) && Running(g, po, t, t1, k)
    ensures Sweeping(g, po, t, t1, t2, k)
  {
    hide UpClosed, Witnessed, Complete, Swept, Shrunk, Linked, Untouched;
  }

  lemma SweepEnd(g: Graph, po: map<Block, nat>, t: Links, t1: Links, t2: Links, changed: bool)
    requires Tree(g, po, t) && Tree(g, po, t1) && Settled(g, po, t1, t2) && Running(g, po, t, t1, 0)
    requires Progress(g, po, t1, t, changed)
    ensures Settled(g, po, t, t1)
    ensures !changed ==> IsDomTree(g, po, t)
    ensures changed ==> Total(g, po, t, g.blocks) < Total(g, po, t1, g.blocks)
  {
    if changed {
      TotalFalls(g, po, t1, t, g.blocks);
    } else {
      QuietSweep(g, po, t, t2);
    }
  }
}
