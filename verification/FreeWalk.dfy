/**
  freewalk of kernel/vm.c: a page table without mappings is taken apart, page by page.
 */
module FreeWalk {
  import opened PageTable
  import opened VmCode

  // The table page whose entry points to table page p, or 0 for a root.
  function Par(use: seq<Use>, p: nat): nat {
    if p < |use| && use[p].Table? && use[p].level < 2 then use[p].parent else 0
  }

  // Table page p is t or hangs below it.
  predicate Under(use: seq<Use>, t: nat, p: nat)
    requires p < |use|
  {
    use[p].Table? && (p == t || Par(use, p) == t || Par(use, Par(use, p)) == t)
  }

  // The index of the entry of t through which p, below t, is reached.
  function Via(use: seq<Use>, t: nat, p: nat): nat
    requires p < |use| && use[p].Table?
  {
    if Par(use, p) == t then ParentEntry(use[p]).1
    else if Par(use, p) < |use| && use[Par(use, p)].Table? then ParentEntry(use[Par(use, p)]).1
    else 0
  }

  // No last-level table of r maps anything.
  predicate NoLeaves(mem: seq<Page>, use: seq<Use>, r: nat) {
    |mem| == |use| &&
    forall t :: 0 <= t < |use| && use[t].Table? && use[t].root == r && use[t].level == 0 ==> mem[t] == ZeroPage()
  }

  // What may be detached or dangle while t is taken apart: t itself and the tables above it.
  predicate Dismantling(use: seq<Use>, D: set<nat>, H: set<(nat, nat)>, t: nat) {
    && t in D && 0 < t < |use| && use[t].Table?
    && (forall d :: d in D ==> d < |use| && use[d].Table? && (use[d].level == 2 || ParentEntry(use[d]) in H))
    && (forall h :: h in H ==> h.0 < |use| && use[h.0].Table? && use[h.0].level > use[t].level)
  }

  // The pages below t reached through entries before n are free; nothing else has changed hands.
  predicate FreedBelow(use: seq<Use>, use': seq<Use>, t: nat, n: nat) {
    && |use'| == |use|
    && forall p :: 0 <= p < |use| ==>
         use'[p] == if Under(use, t, p) && p != t && Via(use, t, p) < n then Free else use[p]
  }

  predicate FreedUnder(use: seq<Use>, use': seq<Use>, t: nat) {
    && |use'| == |use|
    && forall p :: 0 <= p < |use| ==> use'[p] == if Under(use, t, p) then Free else use[p]
  }

  // Pages that kept their use kept their contents.
  predicate Untouched(mem: seq<Page>, use: seq<Use>, mem': seq<Page>, use': seq<Use>, t: nat) {
    && |mem'| == |mem| == |use| == |use'|
    && forall p :: 0 <= p < |use| && p != t && use[p] != Free && use'[p] == use[p] ==> mem'[p] == mem[p]
  }

  // No detached page claims t, or a table below t, as its parent.
  lemma HangsBelow(mem: seq<Page>, use: seq<Use>, D: set<nat>, H: set<(nat, nat)>, t: nat, p: nat)
    requires Inv(mem, use, D, H) && Dismantling(use, D, H, t) && p < |use| && use[p].Table? && p != t
    ensures Par(use, p) == t ==> p !in D && HangsAt(mem, use, p, t, ParentEntry(use[p]).1) && use[p].level < use[t].level
    ensures Par(use, Par(use, p)) == t && Par(use, p) != t ==>
      var m := Par(use, p);
      && m < |use| && use[m].Table? && m !in D && p !in D && use[m].level < use[t].level
      && HangsAt(mem, use, m, t, ParentEntry(use[m]).1) && HangsAt(mem, use, p, m, ParentEntry(use[p]).1)
  {
    assert PageOk(mem, use, D, p);
    var m := Par(use, p);
    if Par(use, m) == t && m != t {
      assert PageOk(mem, use, D, m);
    }
  }

  // Nothing hangs two levels below a table that hangs below t.
  lemma NothingTwoBelow(mem: seq<Page>, use: seq<Use>, D: set<nat>, H: set<(nat, nat)>, t: nat, c: nat, p: nat)
    requires Inv(mem, use, D, H) && Dismantling(use, D, H, t) && p < |use| && use[p].Table?
    requires 0 < c < |use| && use[c].Table? && use[c].level < use[t].level
    ensures Par(use, Par(use, p)) != c
    ensures Par(use, p) == c ==> p !in D && use[p].level < use[c].level
  {
    assert PageOk(mem, use, D, t) && PageOk(mem, use, D, p);
    var q := Par(use, p);
    if q < |use| && use[q].Table? {
      assert PageOk(mem, use, D, q);
    }
  }

  // Below the child at entry i of t are exactly the pages reached through entry i.
  lemma BelowChild(mem: seq<Page>, use: seq<Use>, D: set<nat>, H: set<(nat, nat)>, t: nat, i: nat, c: nat, p: nat)
    requires Inv(mem, use, D, H) && Dismantling(use, D, H, t) && p < |use|
    requires i < PTES && 0 < c < |use| && use[c].Table? && use[c] == ChildUse(use[t], t, i) && PointsTo(mem, t, i, c)
    ensures Under(use, c, p) <==> Under(use, t, p) && p != t && Via(use, t, p) == i
  {
    assert PageOk(mem, use, D, t) && PageOk(mem, use, D, c);
    if use[p].Table? {
      NothingTwoBelow(mem, use, D, H, t, c, p);
      if p != t {
        HangsBelow(mem, use, D, H, t, p);
      }
    }
  }

  // The pages below t reached through entry i are free; nothing else has changed hands.
  predicate FreedVia(use: seq<Use>, use': seq<Use>, t: nat, i: nat) {
    && |use'| == |use|
    && forall p :: 0 <= p < |use| ==>
         use'[p] == if Under(use, t, p) && p != t && Via(use, t, p) == i then Free else use[p]
  }

  lemma ChildFreed(mem: seq<Page>, use: seq<Use>, D: set<nat>, H: set<(nat, nat)>, use': seq<Use>, t: nat, i: nat, c: nat)
    requires Inv(mem, use, D, H) && Dismantling(use, D, H, t)
    requires i < PTES && 0 < c < |use| && use[c].Table? && use[c] == ChildUse(use[t], t, i) && PointsTo(mem, t, i, c)
    requires FreedUnder(use, use', c)
    ensures FreedVia(use, use', t, i) && use'[t] == use[t] && use'[c] == Free
    ensures forall p :: 0 <= p < |use'| && use'[p] == ChildUse(use[t], t, i) ==> p in D
  {
    forall p | 0 <= p < |use|
      ensures use'[p] == if Under(use, t, p) && p != t && Via(use, t, p) == i then Free else use[p]
    {
      BelowChild(mem, use, D, H, t, i, c, p);
    }
    forall p | 0 <= p < |use'| && use'[p] == ChildUse(use[t], t, i)
      ensures p in D
    {
      assert PageOk(mem, use, D, p);
      assert PageOk(mem, use, D, c);
    }
  }

  lemma StillDismantling(mem: seq<Page>, use: seq<Use>, D: set<nat>, H: set<(nat, nat)>, use': seq<Use>, t: nat, i: nat)
    requires Inv(mem, use, D, H) && Dismantling(use, D, H, t) && FreedBelow(use, use', t, i)
    ensures Dismantling(use', D, H, t)
  {
    forall p | 0 <= p < |use| && use[p].Table?
      ensures use'[p] == use[p] || (p !in D && use[p].level < use[t].level)
    {
      if p != t {
        HangsBelow(mem, use, D, H, t, p);
      }
    }
  }

  lemma UnderKept(use: seq<Use>, use1: seq<Use>, t: nat, i: nat, p: nat)
    requires 0 < t < |use| && use[t].Table? && FreedBelow(use, use1, t, i) && p < |use| && use1[p] == use[p] && use[p].Table? && p != t
    ensures Under(use1, t, p) <==> Under(use, t, p)
    ensures Under(use, t, p) ==> Via(use1, t, p) == Via(use, t, p)
  {
    var m := Par(use, p);
    if m < |use| {
      assert use1[m] == if Under(use, t, m) && m != t && Via(use, t, m) < i then Free else use[m];
    }
  }

  lemma FreedThen(use: seq<Use>, use1: seq<Use>, use2: seq<Use>, t: nat, i: nat)
    requires 0 < t < |use| && use[t].Table? && FreedBelow(use, use1, t, i) && FreedVia(use1, use2, t, i)
    ensures FreedBelow(use, use2, t, i + 1)
  {
    forall p | 0 <= p < |use|
      ensures use2[p] == if Under(use, t, p) && p != t && Via(use, t, p) < i + 1 then Free else use[p]
    {
      if use1[p] == use[p] && use[p].Table? && p != t {
        UnderKept(use, use1, t, i, p);
      }
    }
  }

  lemma NothingVia(mem: seq<Page>, use: seq<Use>, D: set<nat>, H: set<(nat, nat)>, t: nat, i: nat)
    requires Inv(mem, use, D, H) && Dismantling(use, D, H, t) && i < PTES && !V(mem[t][i])
    ensures forall p :: 0 <= p < |use| && Under(use, t, p) && p != t ==> Via(use, t, p) != i
  {
    forall p | 0 <= p < |use| && Under(use, t, p) && p != t
      ensures Via(use, t, p) != i
    {
      HangsBelow(mem, use, D, H, t, p);
    }
  }

  lemma AllFreed(mem: seq<Page>, use: seq<Use>, D: set<nat>, H: set<(nat, nat)>, use1: seq<Use>, t: nat)
    requires Inv(mem, use, D, H) && Dismantling(use, D, H, t) && FreedBelow(use, use1, t, PTES)
    ensures FreedUnder(use, use1[t := Loose][t := Free], t)
  {
    forall p | 0 <= p < |use| && Under(use, t, p) && p != t
      ensures Via(use, t, p) < PTES
    {
      HangsBelow(mem, use, D, H, t, p);
    }
  }

  lemma LeavesGone(mem: seq<Page>, use: seq<Use>, mem': seq<Page>, use': seq<Use>, t: nat, r: nat)
    requires NoLeaves(mem, use, r) && Untouched(mem, use, mem', use', t)
    requires t < |use| && use[t].Table? && (use[t].level > 0 || mem'[t] == mem[t])
    requires forall p :: 0 <= p < |use| ==> use'[p] == use[p] || use'[p] == Free
    ensures NoLeaves(mem', use', r)
  {
  }

  // freewalk((pagetable_t)child); pagetable[i] = 0
  method FreeChild(vm: Vm, t: nat, i: nat) returns (ok: bool)
    requires vm.Valid() && Dismantling(vm.use, vm.detached, vm.holes, t) && i < PTES
    requires vm.use[t].level > 0 && V(vm.mem[t][i]) && NoLeaves(vm.mem, vm.use, vm.use[t].root)
    modifies vm
    ensures ok && vm.Valid() && vm.detached == old(vm.detached) && vm.holes == old(vm.holes)
    ensures FreedVia(old(vm.use), vm.use, t, i) && vm.use[t] == old(vm.use)[t]
    ensures Untouched(old(vm.mem), old(vm.use), vm.mem, vm.use, t) && vm.mem[t] == old(vm.mem)[t][i := 0]
    decreases vm.use[t].level, 0
  {
    ghost var mem0, use0, D, H := vm.mem, vm.use, vm.detached, vm.holes;
    assert EntryOk(vm.use, t, i, vm.mem[t][i]);
    var c := Ppn(vm.mem[t][i]);
    assert PageOk(mem0, use0, D, t);
    HangsBelow(mem0, use0, D, H, t, c);
    Detach(mem0, use0, D, H, t, i, c);
    vm.detached, vm.holes := D + {c}, H + {(t, i)};
    ok := Freewalk(vm, c);
    ChildFreed(mem0, use0, D, H, vm.use, t, i, c);
    assert vm.detached == D;
    ClearEntry(vm.mem, vm.use, D, vm.holes, t, i);
    FreeFrame(vm.mem, vm.use, vm.freelist, vm.free, SetEntry(vm.mem, t, i, 0), vm.use);
    vm.mem := SetEntry(vm.mem, t, i, 0);
    vm.holes := vm.holes - {(t, i)};
    assert vm.holes == H;
  }

  // Free table page t and every table below it; the panic on a leaf cannot happen.
  method Freewalk(vm: Vm, t: nat) returns (ok: bool)
    requires vm.Valid() && Dismantling(vm.use, vm.detached, vm.holes, t)
    requires NoLeaves(vm.mem, vm.use, vm.use[t].root)
    modifies vm
    ensures ok && vm.Valid() && vm.detached == old(vm.detached) - {t} && vm.holes == old(vm.holes)
    ensures FreedUnder(old(vm.use), vm.use, t) && Untouched(old(vm.mem), old(vm.use), vm.mem, vm.use, t)
    decreases vm.use[t].level, 1
  {
    ghost var mem0, use0, D, H := vm.mem, vm.use, vm.detached, vm.holes;
    assert PageOk(mem0, use0, D, t);
    var i := 0;
    while i < PTES
      invariant 0 <= i <= PTES
      invariant vm.Valid() && vm.detached == D && vm.holes == H
      invariant vm.use[t] == use0[t] && FreedBelow(use0, vm.use, t, i)
      invariant Untouched(mem0, use0, vm.mem, vm.use, t)
      invariant forall j :: 0 <= j < i ==> vm.mem[t][j] == 0
      invariant forall j :: i <= j < PTES ==> vm.mem[t][j] == mem0[t][j]
    {
      var pte := vm.mem[t][i];
      assert EntryOk(vm.use, t, i, pte);
      if V(pte) && !Leafy(pte) {
        StillDismantling(mem0, use0, D, H, vm.use, t, i);
        LeavesGone(mem0, use0, vm.mem, vm.use, t, use0[t].root);
        ghost var use1 := vm.use;
        ok := FreeChild(vm, t, i);
        FreedThen(use0, use1, vm.use, t, i);
      } else if V(pte) {
        assert false;
        return false;
      } else {
        NothingVia(mem0, use0, D, H, t, i);
      }
      i := i + 1;
    }
    AllFreed(mem0, use0, D, H, vm.use, t);
    FreeEmptyTable(vm, t);
    ok := true;
  }

  // kfree((void*)pagetable), for a table page whose entries are all zero.
  method FreeEmptyTable(vm: Vm, t: nat)
    requires vm.Valid() && t in vm.detached && (forall j :: 0 <= j < PTES ==> vm.mem[t][j] == 0)
    requires vm.use[t].level < 2 ==> ParentEntry(vm.use[t]) in vm.holes
    modifies vm
    ensures vm.Valid() && vm.detached == old(vm.detached) - {t} && vm.holes == old(vm.holes)
    ensures vm.use == old(vm.use)[t := Loose][t := Free] && |vm.mem| == |old(vm.mem)|
    ensures forall q :: 0 <= q < vm.hi && q != t ==> vm.mem[q] == old(vm.mem)[q]
  {
    DropTable(vm.mem, vm.use, vm.detached, vm.holes, t);
    FreeFrame(vm.mem, vm.use, vm.freelist, vm.free, vm.mem, vm.use[t := Loose]);
    vm.use, vm.detached := vm.use[t := Loose], vm.detached - {t};
    var panicked := vm.Kfree(t);
  }
}
