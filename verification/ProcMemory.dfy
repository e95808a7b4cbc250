/**
  Whole page tables: uvmcreate and uvmfree of kernel/vm.c, proc_pagetable and
  proc_freepagetable of kernel/proc.c.
 */
module ProcMemory {
  import opened PageTable
  import opened VmCode
  import opened UserMemory
  import opened FreeWalk

  // Page p belongs to the address space of r.
  predicate Belongs(u: Use, r: nat) {
    (u.Table? || u.User?) && u.root == r
  }

  // Every page of r is free, and nothing else has changed hands.
  predicate AllReturned(use: seq<Use>, use': seq<Use>, r: nat) {
    && |use'| == |use|
    && forall p :: 0 <= p < |use| ==> use'[p] == if Belongs(use[p], r) then Free else use[p]
  }

  // The page tables other than r translate as before.
  ghost predicate OthersKept(mem: seq<Page>, use: seq<Use>, mem': seq<Page>, r: nat) {
    forall q, y {:trigger Lookup(mem', q, y)} ::
      IsRoot(use, q) && q != r && GoodVa(y) ==> Lookup(mem', q, y) == Lookup(mem, q, y)
  }

  ghost predicate Empty(mem: seq<Page>, r: nat) {
    forall x {:trigger Lookup(mem, r, x)} :: GoodVa(x) ==> Lookup(mem, r, x) == 0
  }

  lemma EmptyNoLeaves(mem: seq<Page>, use: seq<Use>, r: nat)
    requires Whole(mem, use) && IsRoot(use, r) && Empty(mem, r)
    ensures NoLeaves(mem, use, r)
  {
    forall t | 0 <= t < |use| && use[t].Table? && use[t].root == r && use[t].level == 0
      ensures mem[t] == ZeroPage()
    {
      assert PageOk(mem, use, Roots(use), t);
      forall i | 0 <= i < PTES
        ensures mem[t][i] == 0
      {
        LastIs(mem, use, t, i);
        assert Lookup(mem, r, Va(use[t].a, use[t].b, i)) == 0;
      }
    }
  }

  // The tables below root r are exactly the tables of r.
  lemma UnderRoot(mem: seq<Page>, use: seq<Use>, r: nat, p: nat)
    requires Whole(mem, use) && IsRoot(use, r) && p < |use|
    ensures Under(use, r, p) <==> use[p].Table? && use[p].root == r
  {
    var D := Roots(use);
    assert PageOk(mem, use, D, p) && PageOk(mem, use, D, r);
    var m := Par(use, p);
    if m < |use| {
      assert PageOk(mem, use, D, m);
    }
    if use[p].Table? && use[p].level < 2 {
      assert PageOk(mem, use, D, use[p].parent);
      if use[use[p].parent].level < 2 {
        assert PageOk(mem, use, D, use[use[p].parent].parent);
      }
    }
  }

  lemma UserIsMapped(mem: seq<Page>, use: seq<Use>, p: nat)
    requires Whole(mem, use) && p < |use| && use[p].User?
    ensures GoodVa(use[p].va) && IsRoot(use, use[p].root) && V(Lookup(mem, use[p].root, use[p].va))
  {
    assert PageOk(mem, use, Roots(use), p);
    assert PageOk(mem, use, Roots(use), use[p].table);
    LastIs(mem, use, use[p].table, use[p].va.c);
  }

  // With no mapping left there is no user page left.
  lemma EmptyNoUsers(mem: seq<Page>, use: seq<Use>, r: nat, p: nat)
    requires Whole(mem, use) && IsRoot(use, r) && Empty(mem, r) && p < |use|
    ensures !(use[p].User? && use[p].root == r)
  {
    if use[p].User? {
      UserIsMapped(mem, use, p);
    }
  }

  // An empty user page table, or 0 if out of memory.
  method Uvmcreate(vm: Vm) returns (r: int)
    requires vm.Stable()
    modifies vm
    ensures vm.Stable() && SameMaps(old(vm.mem), old(vm.use), vm.mem) && KeepsData(old(vm.mem), old(vm.use), vm.mem)
    ensures r == 0 ==> vm.use == old(vm.use)
    ensures r != 0 ==> 0 < r < vm.hi && old(vm.use)[r] == Free && vm.use == old(vm.use)[r := Table(r, 2, 0, 0, 0)]
    ensures r != 0 ==> IsRoot(vm.use, r) && Empty(vm.mem, r)
  {
    r := vm.FreshPage(ZeroPage());
    if r == 0 {
      return;
    }
    NewRoot(vm.mem, vm.use, vm.detached, vm.holes, r);
    FreeFrame(vm.mem, vm.use, vm.freelist, vm.free, vm.mem, vm.use[r := Table(r, 2, 0, 0, 0)]);
    vm.detached := vm.detached + {r};
    vm.use := vm.use[r := Table(r, 2, 0, 0, 0)];
    assert Roots(vm.use) == Roots(old(vm.use)) + {r};
    assert Roots(old(vm.use)) == Roots(old(vm.use)[r := Loose]);
  }

  lemma RootsAfter(use: seq<Use>, use': seq<Use>, r: nat)
    requires IsRoot(use, r) && |use'| == |use|
    requires forall p :: 0 <= p < |use| ==> use'[p] == if use[p].Table? && use[p].root == r then Free else use[p]
    requires forall p :: 0 <= p < |use| && use[p].Table? && use[p].level == 2 ==> use[p].root == p
    ensures Roots(use') == Roots(use) - {r}
  {
  }

  // freewalk on a whole page table that maps nothing.
  method FreeTables(vm: Vm, r: nat)
    requires vm.Stable() && IsRoot(vm.use, r) && Empty(vm.mem, r)
    modifies vm
    ensures vm.Stable() && AllReturned(old(vm.use), vm.use, r)
    ensures OthersKept(old(vm.mem), old(vm.use), vm.mem, r) && DataKept(old(vm.mem), old(vm.use), vm.mem, vm.use)
  {
    ghost var mem0, use0 := vm.mem, vm.use;
    EmptyNoLeaves(vm.mem, vm.use, r);
    var ok := Freewalk(vm, r);
    forall p | 0 <= p < |use0|
      ensures vm.use[p] == if use0[p].Table? && use0[p].root == r then Free else use0[p]
      ensures vm.use[p] == if Belongs(use0[p], r) then Free else use0[p]
      ensures use0[p].Table? && use0[p].level == 2 ==> use0[p].root == p
    {
      UnderRoot(mem0, use0, r, p);
      EmptyNoUsers(mem0, use0, r, p);
      assert PageOk(mem0, use0, Roots(use0), p);
    }
    RootsAfter(use0, vm.use, r);
    forall q, y | IsRoot(use0, q) && q != r && GoodVa(y)
      ensures Lookup(vm.mem, q, y) == Lookup(mem0, q, y)
    {
      LookupFrame(mem0, vm.mem, use0, q, y);
    }
  }

  // Free the user pages and then the page table.
  method Uvmfree(vm: Vm, r: nat, sz: nat)
    requires vm.Stable() && IsRoot(vm.use, r) && UserMem(vm.mem, r, Pages(sz))
    requires !Present(vm.mem, r, TRAMPOLINE) && !Present(vm.mem, r, TRAPFRAME)
    modifies vm
    ensures vm.Stable() && AllReturned(old(vm.use), vm.use, r)
    ensures OthersKept(old(vm.mem), old(vm.use), vm.mem, r) && DataKept(old(vm.mem), old(vm.use), vm.mem, vm.use)
  {
    ghost var mem0, use0 := vm.mem, vm.use;
    UnmappedNone(mem0, use0, r, 0);
    if sz > 0 {
      UserMemPresent(vm.mem, r, Pages(sz), 0);
      var ok := vm.Uvmunmap(r, 0, Pages(sz), true);
    }
    ghost var mem1, use1 := vm.mem, vm.use;
    UnmappedEmpty(mem0, use0, mem1, r, Pages(sz));
    FreeTables(vm, r);
    ReturnedThen(mem0, use0, mem1, use1, vm.mem, vm.use, r, Pages(sz));
  }

  lemma UnmappedEmpty(mem: seq<Page>, use: seq<Use>, mem': seq<Page>, r: nat, n: nat)
    requires Whole(mem, use) && IsRoot(use, r) && UserMem(mem, r, n) && Cleared(mem, use, mem', r, 0, n)
    requires !Present(mem, r, TRAMPOLINE) && !Present(mem, r, TRAPFRAME)
    ensures Empty(mem', r)
  {
    forall x | GoodVa(x)
      ensures Lookup(mem', r, x) == 0
    {
      if !InRange(x, 0, n) {
        EntrySplit(mem, r, x);
        var v := Join(x);
        assert v < TRAPFRAME ==> (V(Entry(mem, r, v)) <==> v < n);
        AbsentIsZero(mem, use, r, x);
      }
    }
  }

  lemma ReturnedThen(mem: seq<Page>, use: seq<Use>, mem1: seq<Page>, use1: seq<Use>, mem2: seq<Page>, use2: seq<Use>, r: nat, n: nat)
    requires Whole(mem, use) && IsRoot(use, r) && UserMem(mem, r, n)
    requires Unmapped(mem, use, mem1, use1, r, 0, n, true) && AllReturned(use1, use2, r)
    requires OthersKept(mem1, use1, mem2, r) && DataKept(mem1, use1, mem2, use2)
    ensures AllReturned(use, use2, r) && OthersKept(mem, use, mem2, r) && DataKept(mem, use, mem2, use2)
  {
    forall q, y | IsRoot(use, q) && q != r && GoodVa(y)
      ensures Lookup(mem2, q, y) == Lookup(mem, q, y)
    {
      assert IsRoot(use1, q);
      assert Lookup(mem1, q, y) == Lookup(mem, q, y);
    }
    forall p | 0 <= p < |use|
      ensures use2[p] == if Belongs(use[p], r) then Free else use[p]
    {
      UsersBelow(mem, use, r, n, p);
    }
  }

  // ------------------------------------------------------------------
  // Process page tables
  // ------------------------------------------------------------------

  // A process page table: n user pages, the trampoline and the trapframe, and nothing else.
  ghost predicate Space(mem: seq<Page>, use: seq<Use>, r: nat, n: nat, trampoline: nat, trapframe: nat) {
    && IsRoot(use, r)
    && UserMem(mem, r, n)
    && Entry(mem, r, TRAMPOLINE) == Pte(trampoline, 11)
    && Entry(mem, r, TRAPFRAME) == Pte(trapframe, 7)
  }

  // A new address space has been built in free pages; nothing else has changed hands.
  predicate NewSpace(use: seq<Use>, use': seq<Use>, r: nat) {
    && |use'| == |use|
    && forall p :: 0 <= p < |use| ==> use'[p] == use[p] || (use[p] == Free && use'[p].Table? && use'[p].root == r)
  }

  lemma MapChangesOne(mem: seq<Page>, use: seq<Use>, mem': seq<Page>, r: nat, v: nat, e: int)
    requires IsRoot(use, r) && v < MAXVPN && NewMap(mem, use, mem', r, Split(v), e)
    ensures forall w :: 0 <= w < MAXVPN ==> Entry(mem', r, w) == if w == v then e else Entry(mem, r, w)
    ensures OthersKept(mem, use, mem', r)
  {
    forall w | 0 <= w < MAXVPN
      ensures Entry(mem', r, w) == if w == v then e else Entry(mem, r, w)
    {
      assert Lookup(mem', r, Split(w)) == if Split(w) == Split(v) then e else Lookup(mem, r, Split(w));
    }
  }

  lemma SameEntries(mem: seq<Page>, use: seq<Use>, mem': seq<Page>, r: nat)
    requires IsRoot(use, r) && SameMaps(mem, use, mem')
    ensures forall w :: 0 <= w < MAXVPN ==> Entry(mem', r, w) == Entry(mem, r, w)
    ensures OthersKept(mem, use, mem', r)
  {
    forall w | 0 <= w < MAXVPN
      ensures Entry(mem', r, w) == Entry(mem, r, w)
    {
      assert Lookup(mem', r, Split(w)) == Lookup(mem, r, Split(w));
    }
  }

  lemma EmptyEntries(mem: seq<Page>, r: nat)
    requires Empty(mem, r)
    ensures UserMem(mem, r, 0) && forall w :: 0 <= w < MAXVPN ==> Entry(mem, r, w) == 0
  {
    forall w | 0 <= w < MAXVPN
      ensures Entry(mem, r, w) == 0
    {
      assert Lookup(mem, r, Split(w)) == 0;
    }
  }

  // Only a root has pages.
  lemma NoneBelongs(mem: seq<Page>, use: seq<Use>, r: nat, p: nat)
    requires Whole(mem, use) && p < |use| && !IsRoot(use, r)
    ensures !Belongs(use[p], r)
  {
    var D := Roots(use);
    assert PageOk(mem, use, D, p);
    if use[p].User? {
      UserIsMapped(mem, use, p);
    } else if use[p].Table? && use[p].level < 2 {
      var m := use[p].parent;
      assert PageOk(mem, use, D, m);
      if use[m].level < 2 {
        assert PageOk(mem, use, D, use[m].parent);
      }
    }
  }

  // What building r has done so far.
  ghost predicate Building(mem0: seq<Page>, use0: seq<Use>, mem: seq<Page>, use: seq<Use>, r: nat) {
    && Whole(mem0, use0) && !IsRoot(use0, r) && IsRoot(use, r)
    && NewSpace(use0, use, r) && OthersKept(mem0, use0, mem, r) && KeepsData(mem0, use0, mem)
    && UserMem(mem, r, 0)
  }

  // uvmfree(pagetable, 0) on the error paths of proc_pagetable: everything is given back.
  method Discard(vm: Vm, r: nat, ghost mem0: seq<Page>, ghost use0: seq<Use>)
    requires vm.Stable() && Building(mem0, use0, vm.mem, vm.use, r)
    requires !Present(vm.mem, r, TRAMPOLINE) && !Present(vm.mem, r, TRAPFRAME)
    modifies vm
    ensures vm.Stable() && vm.use == use0 && SameMaps(mem0, use0, vm.mem) && KeepsData(mem0, use0, vm.mem)
  {
    ghost var mem1, use1 := vm.mem, vm.use;
    Uvmfree(vm, r, 0);
    forall p | 0 <= p < |use0|
      ensures vm.use[p] == use0[p]
    {
      NoneBelongs(mem0, use0, r, p);
    }
    assert vm.use == use0;
    forall q, y | IsRoot(use0, q) && GoodVa(y)
      ensures Lookup(vm.mem, q, y) == Lookup(mem0, q, y)
    {
      assert IsRoot(use1, q);
      assert Lookup(mem1, q, y) == Lookup(mem0, q, y);
    }
  }

  // Map one of the special pages into a page table that is being built.
  method MapSpecialPage(vm: Vm, r: nat, v: nat, p: nat, perm: nat, ghost mem0: seq<Page>, ghost use0: seq<Use>) returns (ok: bool)
    requires vm.Stable() && Building(mem0, use0, vm.mem, vm.use, r) && (v == TRAMPOLINE || v == TRAPFRAME)
    requires Entry(vm.mem, r, v) == 0 && 0 < p < vm.hi && perm < 1024 && Leafy(perm)
    modifies vm
    ensures vm.Stable() && Building(mem0, use0, vm.mem, vm.use, r)
    ensures forall w :: 0 <= w < MAXVPN ==>
      Entry(vm.mem, r, w) == if ok && w == v then Pte(p, WithV(perm)) else Entry(old(vm.mem), r, w)
  {
    ghost var mem1, use1 := vm.mem, vm.use;
    SpecialIs(v);
    var res := vm.MapPage(r, v, p, perm);
    ok := res == Mapped;
    if ok {
      MapChangesOne(mem1, use1, vm.mem, r, v, Pte(p, WithV(perm)));
    } else {
      SameEntries(mem1, use1, vm.mem, r);
    }
    BuildingThen(mem0, use0, mem1, use1, vm.mem, vm.use, r);
  }

  lemma BuildingThen(mem0: seq<Page>, use0: seq<Use>, mem1: seq<Page>, use1: seq<Use>, mem2: seq<Page>, use2: seq<Use>, r: nat)
    requires Building(mem0, use0, mem1, use1, r) && OnlyNewTables(use1, use2, r) && OthersKept(mem1, use1, mem2, r)
    requires KeepsData(mem1, use1, mem2) && IsRoot(use2, r)
    requires forall w :: 0 <= w < TRAPFRAME ==> Entry(mem2, r, w) == Entry(mem1, r, w)
    ensures Building(mem0, use0, mem2, use2, r)
  {
    forall q, y | IsRoot(use0, q) && q != r && GoodVa(y)
      ensures Lookup(mem2, q, y) == Lookup(mem0, q, y)
    {
      assert IsRoot(use1, q);
      assert Lookup(mem1, q, y) == Lookup(mem0, q, y);
    }
    forall w | 0 <= w < TRAPFRAME
      ensures V(Entry(mem2, r, w)) <==> w < 0
    {
      assert V(Entry(mem1, r, w)) <==> w < 0;
    }
  }

  // A page table with no user memory, or 0 with every page given back.
  method ProcPagetable(vm: Vm, trampoline: nat, trapframe: nat) returns (r: int)
    requires vm.Stable() && 0 < trampoline < vm.hi && 0 < trapframe < vm.hi
    modifies vm
    ensures vm.Stable() && KeepsData(old(vm.mem), old(vm.use), vm.mem)
    ensures r == 0 ==> vm.use == old(vm.use) && SameMaps(old(vm.mem), old(vm.use), vm.mem)
    ensures r != 0 ==> 0 < r < vm.hi && old(vm.use)[r] == Free && NewSpace(old(vm.use), vm.use, r)
    ensures r != 0 ==> Space(vm.mem, vm.use, r, 0, trampoline, trapframe)
    ensures r != 0 ==> OthersKept(old(vm.mem), old(vm.use), vm.mem, r)
  {
    ghost var mem0, use0 := vm.mem, vm.use;
    r := Uvmcreate(vm);
    if r == 0 {
      return;
    }
    EmptyEntries(vm.mem, r);
    SpecialIs(TRAMPOLINE);
    var ok := MapSpecialPage(vm, r, TRAMPOLINE, trampoline, 10, mem0, use0);
    if !ok {
      Discard(vm, r, mem0, use0);
      return 0;
    }
    ok := MapSpecialPage(vm, r, TRAPFRAME, trapframe, 6, mem0, use0);
    if !ok {
      UnmapTrampoline(vm, r, trampoline, mem0, use0);
      Discard(vm, r, mem0, use0);
      return 0;
    }
  }

  // uvmunmap(pagetable, TRAMPOLINE, 1, 0) on the second error path of proc_pagetable.
  method UnmapTrampoline(vm: Vm, r: nat, trampoline: nat, ghost mem0: seq<Page>, ghost use0: seq<Use>)
    requires vm.Stable() && Building(mem0, use0, vm.mem, vm.use, r)
    requires Entry(vm.mem, r, TRAMPOLINE) == Pte(trampoline, 11) && Entry(vm.mem, r, TRAPFRAME) == 0
    modifies vm
    ensures vm.Stable() && Building(mem0, use0, vm.mem, vm.use, r)
    ensures !Present(vm.mem, r, TRAMPOLINE) && !Present(vm.mem, r, TRAPFRAME)
  {
    ghost var mem1, use1 := vm.mem, vm.use;
    PteParts(trampoline, 10);
    assert AllPresent(vm.mem, r, TRAMPOLINE, 1);
    var ok := vm.Uvmunmap(r, TRAMPOLINE, 1, false);
    ClearedEntries(mem1, use1, vm.mem, r, TRAMPOLINE, 1);
    assert vm.use == use1;
    BuildingThen(mem0, use0, mem1, use1, vm.mem, vm.use, r);
  }

  lemma ClearedEntries(mem: seq<Page>, use: seq<Use>, mem': seq<Page>, r: nat, v: nat, n: nat)
    requires IsRoot(use, r) && Cleared(mem, use, mem', r, v, n)
    ensures forall w :: 0 <= w < MAXVPN ==> Entry(mem', r, w) == if v <= w < v + n then 0 else Entry(mem, r, w)
    ensures OthersKept(mem, use, mem', r)
  {
    forall w | 0 <= w < MAXVPN
      ensures Entry(mem', r, w) == if v <= w < v + n then 0 else Entry(mem, r, w)
    {
      assert Lookup(mem', r, Split(w)) == if InRange(Split(w), v, n) then 0 else Lookup(mem, r, Split(w));
    }
  }

  // Free a process page table and the user memory it maps; its panics cannot happen.
  method ProcFreepagetable(vm: Vm, r: nat, sz: nat, ghost trampoline: nat, ghost trapframe: nat)
    requires vm.Stable() && Space(vm.mem, vm.use, r, Pages(sz), trampoline, trapframe)
    modifies vm
    ensures vm.Stable() && AllReturned(old(vm.use), vm.use, r)
    ensures OthersKept(old(vm.mem), old(vm.use), vm.mem, r) && DataKept(old(vm.mem), old(vm.use), vm.mem, vm.use)
  {
    ghost var mem0, use0 := vm.mem, vm.use;
    PteParts(trampoline, 10);
    PteParts(trapframe, 6);
    assert AllPresent(vm.mem, r, TRAMPOLINE, 1);
    var ok := vm.Uvmunmap(r, TRAMPOLINE, 1, false);
    ClearedEntries(mem0, use0, vm.mem, r, TRAMPOLINE, 1);
    ghost var mem1, use1 := vm.mem, vm.use;
    assert use1 == use0;
    assert AllPresent(vm.mem, r, TRAPFRAME, 1);
    ok := vm.Uvmunmap(r, TRAPFRAME, 1, false);
    ClearedEntries(mem1, use1, vm.mem, r, TRAPFRAME, 1);
    ghost var mem2, use2 := vm.mem, vm.use;
    assert use2 == use0;
    UserMemEntries(mem0, mem2, r, Pages(sz));
    Uvmfree(vm, r, sz);
    OthersKeptTrans(mem0, use0, mem1, mem2, r);
    OthersKeptTrans(mem0, use0, mem2, vm.mem, r);
  }

  lemma OthersKeptTrans(mem: seq<Page>, use: seq<Use>, mem1: seq<Page>, mem2: seq<Page>, r: nat)
    requires OthersKept(mem, use, mem1, r) && OthersKept(mem1, use, mem2, r)
    ensures OthersKept(mem, use, mem2, r)
  {
    forall q, y | IsRoot(use, q) && q != r && GoodVa(y)
      ensures Lookup(mem2, q, y) == Lookup(mem, q, y)
    {
      assert Lookup(mem1, q, y) == Lookup(mem, q, y);
    }
  }

  lemma UserMemEntries(mem: seq<Page>, mem': seq<Page>, r: nat, n: nat)
    requires UserMem(mem, r, n) && forall w :: 0 <= w < TRAPFRAME ==> Entry(mem', r, w) == Entry(mem, r, w)
    ensures UserMem(mem', r, n)
  {
    forall v | 0 <= v < TRAPFRAME
      ensures V(Entry(mem', r, v)) <==> v < n
    {
      assert V(Entry(mem, r, v)) <==> v < n;
    }
  }

  // A page table whose translations have not changed is as it was.
  lemma SpaceKept(mem: seq<Page>, use: seq<Use>, mem': seq<Page>, use': seq<Use>, q: nat, n: nat, trampoline: nat, trapframe: nat)
    requires Space(mem, use, q, n, trampoline, trapframe) && IsRoot(use', q)
    requires forall y {:trigger Lookup(mem', q, y)} :: GoodVa(y) ==> Lookup(mem', q, y) == Lookup(mem, q, y)
    ensures Space(mem', use', q, n, trampoline, trapframe)
  {
    forall w | 0 <= w < MAXVPN
      ensures Entry(mem', q, w) == Entry(mem, q, w)
    {
      assert Lookup(mem', q, Split(w)) == Lookup(mem, q, Split(w));
    }
    UserMemEntries(mem, mem', q, n);
  }
}
