/**
  The address spaces of all processes: the memory side of allocproc, freeproc, fork and
  growproc of kernel/proc.c.

  Each method keeps the invariant, so it holds after any run of them: every managed page is
  on the free list, or a page-table page or user page of exactly one process at exactly one
  place, or the trapframe of exactly one process, or one of the pages the kernel itself asked
  for, and each process maps exactly its size.
 */
module AddressSpaces {
  import opened PageTable
  import opened VmCode
  import opened UserMemory
  import opened ProcMemory

  datatype Proc = Proc(sz: nat, trapframe: nat)

  const WORD64: int := 0x1_0000_0000_0000_0000

  ghost predicate GoodProc(mem: seq<Page>, use: seq<Use>, r: nat, pr: Proc, trampoline: nat) {
    && Space(mem, use, r, Pages(pr.sz), trampoline, pr.trapframe)
    && 0 < pr.trapframe < |use| && use[pr.trapframe] == Loose
  }

  // Page table q translates as before.
  ghost predicate SameSpace(mem: seq<Page>, mem': seq<Page>, q: nat) {
    forall y {:trigger Lookup(mem', q, y)} :: GoodVa(y) ==> Lookup(mem', q, y) == Lookup(mem, q, y)
  }

  ghost predicate AllGood(mem: seq<Page>, use: seq<Use>, procs: map<nat, Proc>, trampoline: nat) {
    && (forall r :: r in procs ==>
          IsRoot(use, r) && 0 < procs[r].trapframe < |use| && use[procs[r].trapframe] == Loose)
    && (forall r {:trigger GoodProc(mem, use, r, procs[r], trampoline)} :: r in procs ==> GoodProc(mem, use, r, procs[r], trampoline))
    && (forall r, q :: r in procs && q in procs && procs[r].trapframe == procs[q].trapframe ==> r == q)
    && (forall r :: IsRoot(use, r) ==> r in procs)
  }

  function LooseOnes(use: seq<Use>): set<nat> {
    set p | 0 <= p < |use| && use[p] == Loose
  }

  function Frames(procs: map<nat, Proc>): set<nat> {
    set r | r in procs :: procs[r].trapframe
  }

  // A page handed out by kalloc and mapped nowhere in user space is one the kernel holds for
  // itself or the trapframe of a process, and not both.
  ghost predicate Held(use: seq<Use>, procs: map<nat, Proc>, kernel: set<nat>) {
    LooseOnes(use) == kernel + Frames(procs) && kernel !! Frames(procs)
  }

  // The trapframe of r stays what it was.
  lemma HeldSame(use: seq<Use>, use': seq<Use>, procs: map<nat, Proc>, kernel: set<nat>, r: nat, sz: nat)
    requires Held(use, procs, kernel) && r in procs && OnlyWithin(use, use', r)
    ensures Held(use', procs[r := Proc(sz, procs[r].trapframe)], kernel)
  {
    var procs' := procs[r := Proc(sz, procs[r].trapframe)];
    assert LooseOnes(use') == LooseOnes(use);
    forall f ensures f in Frames(procs') <==> f in Frames(procs) {
      if f in Frames(procs) {
        var q :| q in procs && procs[q].trapframe == f;
        assert procs'[q].trapframe == f;
      }
    }
  }

  lemma HeldMore(use: seq<Use>, use': seq<Use>, procs: map<nat, Proc>, kernel: set<nat>, r: nat, tf: nat)
    requires Held(use, procs, kernel) && r !in procs && BuiltFrom(use, use', r, tf)
    requires tf < |use| && use[tf] == Free && use'[tf] == Loose
    ensures Held(use', procs[r := Proc(0, tf)], kernel)
  {
    var procs' := procs[r := Proc(0, tf)];
    assert LooseOnes(use') == LooseOnes(use) + {tf};
    forall f ensures f in Frames(procs') <==> f in Frames(procs) + {tf} {
      if f in Frames(procs) {
        var q :| q in procs && procs[q].trapframe == f;
        assert procs'[q].trapframe == f;
      }
      if f == tf {
        assert procs'[r].trapframe == f;
      }
    }
    assert tf !in LooseOnes(use);
  }

  lemma HeldLess(use: seq<Use>, use': seq<Use>, procs: map<nat, Proc>, kernel: set<nat>, r: nat)
    requires Held(use, procs, kernel) && r in procs && Emptied(use, use', r, procs[r].trapframe)
    requires forall p, q :: p in procs && q in procs && procs[p].trapframe == procs[q].trapframe ==> p == q
    ensures Held(use', procs - {r}, kernel)
  {
    var tf, procs' := procs[r].trapframe, procs - {r};
    assert tf in Frames(procs);
    assert LooseOnes(use') == LooseOnes(use) - {tf};
    forall f ensures f in Frames(procs') <==> f in Frames(procs) - {tf} {
      if f in Frames(procs) && f != tf {
        var q :| q in procs && procs[q].trapframe == f;
        assert procs'[q].trapframe == f;
      }
    }
  }

  // What a change of the size from a to b pages does: when it grows, the new pages are zero and
  // writable, and free pages have become them and their tables; when it shrinks, exactly the user
  // pages from b on are unmapped and free.  No other translation of any process changes, and no
  // page that stays in use has other contents.
  ghost predicate Resized(mem: seq<Page>, use: seq<Use>, mem': seq<Page>, use': seq<Use>, r: nat, a: nat, b: nat) {
    if a <= b then Grown(mem, use, mem', use', r, a, b) && ZeroPages(mem', r, a, b, 23)
    else Unmapped(mem, use, mem', use', r, b, a - b, true)
  }

  lemma NotResized(mem: seq<Page>, use: seq<Use>, mem': seq<Page>, use': seq<Use>, r: nat, a: nat)
    requires |mem| == |use| && Unmapped(mem, use, mem', use', r, a, 0, true)
    ensures Resized(mem, use, mem', use', r, a, a)
  {
  }

  lemma SameSize(mem: seq<Page>, use: seq<Use>, r: nat, a: nat)
    requires |mem| == |use|
    ensures Resized(mem, use, mem, use, r, a, a)
  {
  }

  // Nothing has happened but that free pages have become empty tables of r.
  ghost predicate NothingButTables(mem: seq<Page>, use: seq<Use>, mem': seq<Page>, use': seq<Use>, r: nat) {
    SameMaps(mem, use, mem') && KeepsData(mem, use, mem') && OnlyNewTables(use, use', r)
  }

  // What a fork does to the pages: free pages become the trapframe, the tables and the first n
  // user pages of the child c.
  predicate Forked(use: seq<Use>, use': seq<Use>, c: nat, tf: nat, n: nat) {
    && |use'| == |use|
    && tf < |use| && use[tf] == Free && use'[tf] == Loose
    && forall p :: 0 <= p < |use| && p != tf ==>
         || use'[p] == use[p]
         || (use[p] == Free && use'[p].Table? && use'[p].root == c)
         || (use[p] == Free && use'[p].User? && use'[p].root == c && InRange(use'[p].va, 0, n))
  }

  lemma OneGood(mem: seq<Page>, use: seq<Use>, mem': seq<Page>, use': seq<Use>, q: nat, pr: Proc, trampoline: nat, r: nat)
    requires GoodProc(mem, use, q, pr, trampoline) && q != r && OthersKept(mem, use, mem', r)
    requires |use'| == |use| && use'[pr.trapframe] == Loose && use'[q] == use[q]
    ensures GoodProc(mem', use', q, pr, trampoline)
  {
    SpaceKept(mem, use, mem', use', q, Pages(pr.sz), trampoline, pr.trapframe);
  }

  // Only the process with page table r has changed.
  lemma OthersGood(mem: seq<Page>, use: seq<Use>, mem': seq<Page>, use': seq<Use>, procs: map<nat, Proc>, procs': map<nat, Proc>,
                   trampoline: nat, r: nat)
    requires AllGood(mem, use, procs, trampoline) && OthersKept(mem, use, mem', r) && |use'| == |use|
    requires forall q :: q in procs' && q != r ==> q in procs && procs'[q] == procs[q]
    requires forall q :: q in procs && q != r ==> q in procs' && use'[q] == use[q] && use'[procs[q].trapframe] == Loose
    requires r in procs' ==> GoodProc(mem', use', r, procs'[r], trampoline)
    requires r in procs' ==> forall q :: q in procs && q != r ==> procs[q].trapframe != procs'[r].trapframe
    requires forall q :: IsRoot(use', q) ==> IsRoot(use, q) || q == r
    requires IsRoot(use', r) ==> r in procs'
    ensures AllGood(mem', use', procs', trampoline)
  {
    forall q | q in procs'
      ensures GoodProc(mem', use', q, procs'[q], trampoline)
    {
      if q != r {
        assert GoodProc(mem, use, q, procs[q], trampoline);
        OneGood(mem, use, mem', use', q, procs[q], trampoline, r);
      }
    }
  }

  // The process with page table r has another size, and only its pages have changed hands.
  lemma StillValid(mem: seq<Page>, use: seq<Use>, mem': seq<Page>, use': seq<Use>, procs: map<nat, Proc>, kernel: set<nat>,
                   trampoline: nat, r: nat, sz: nat)
    requires AllGood(mem, use, procs, trampoline) && Held(use, procs, kernel) && r in procs
    requires OthersKept(mem, use, mem', r) && OnlyWithin(use, use', r)
    requires GoodProc(mem', use', r, Proc(sz, procs[r].trapframe), trampoline)
    ensures AllGood(mem', use', procs[r := Proc(sz, procs[r].trapframe)], trampoline)
    ensures Held(use', procs[r := Proc(sz, procs[r].trapframe)], kernel)
  {
    OthersGood(mem, use, mem', use', procs, procs[r := Proc(sz, procs[r].trapframe)], trampoline, r);
    HeldSame(use, use', procs, kernel, r, sz);
  }

  // Free pages have become the trapframe tf and the page table r; nothing else has changed hands.
  predicate BuiltFrom(use: seq<Use>, use': seq<Use>, r: nat, tf: nat) {
    && |use'| == |use|
    && forall p :: 0 <= p < |use| ==>
         use'[p] == use[p] || (use[p] == Free && (p == tf || (use'[p].Table? && use'[p].root == r)))
  }

  // A trapframe page and a page table, or everything as it was.
  method NewAddressSpace(vm: Vm, trampoline: nat) returns (r: int, tf: int)
    requires vm.Stable() && 0 < trampoline < vm.hi
    modifies vm
    ensures vm.Stable() && KeepsData(old(vm.mem), old(vm.use), vm.mem)
    ensures r == 0 ==> vm.use == old(vm.use) && SameMaps(old(vm.mem), old(vm.use), vm.mem)
    ensures r != 0 ==> 0 < r < vm.hi && old(vm.use)[r] == Free && 0 < tf < vm.hi && old(vm.use)[tf] == Free
    ensures r != 0 ==> vm.use[tf] == Loose && Space(vm.mem, vm.use, r, 0, trampoline, tf)
    ensures r != 0 ==> OthersKept(old(vm.mem), old(vm.use), vm.mem, r) && BuiltFrom(old(vm.use), vm.use, r, tf)
  {
    ghost var mem0, use0 := vm.mem, vm.use;
    tf := vm.FreshPage(ZeroPage());
    if tf == 0 {
      return 0, 0;
    }
    ghost var mem1, use1 := vm.mem, vm.use;
    r := ProcPagetable(vm, trampoline, tf);
    if r == 0 {
      ghost var mem2, use2 := vm.mem, vm.use;
      SameMapsTrans(mem0, use0, mem1, use1, mem2);
      vm.ReturnPage(tf);
      SameMapsTrans(mem0, use0, mem2, use2, vm.mem);
      assert vm.use == use0;
    } else {
      OthersAfter(mem0, use0, mem1, use1, vm.mem, r);
    }
  }

  lemma OthersAfter(mem: seq<Page>, use: seq<Use>, mem1: seq<Page>, use1: seq<Use>, mem2: seq<Page>, r: nat)
    requires SameMaps(mem, use, mem1) && OthersKept(mem1, use1, mem2, r)
    requires forall q :: IsRoot(use, q) ==> IsRoot(use1, q)
    ensures OthersKept(mem, use, mem2, r)
  {
    forall q, y | IsRoot(use, q) && q != r && GoodVa(y)
      ensures Lookup(mem2, q, y) == Lookup(mem, q, y)
    {
      assert Lookup(mem1, q, y) == Lookup(mem, q, y);
    }
  }

  // The trapframe and every page of r are free; nothing else has changed hands.
  predicate Emptied(use: seq<Use>, use': seq<Use>, r: nat, tf: nat) {
    && |use'| == |use|
    && forall p :: 0 <= p < |use| ==> use'[p] == if p == tf || Belongs(use[p], r) then Free else use[p]
  }

  method FreeAddressSpace(vm: Vm, r: nat, pr: Proc, ghost trampoline: nat)
    requires vm.Stable() && GoodProc(vm.mem, vm.use, r, pr, trampoline)
    modifies vm
    ensures vm.Stable() && Emptied(old(vm.use), vm.use, r, pr.trapframe)
    ensures OthersKept(old(vm.mem), old(vm.use), vm.mem, r) && DataKept(old(vm.mem), old(vm.use), vm.mem, vm.use)
  {
    ghost var mem0, use0 := vm.mem, vm.use;
    vm.ReturnPage(pr.trapframe);
    ghost var mem1, use1 := vm.mem, vm.use;
    SpaceKept(mem0, use0, mem1, use1, r, Pages(pr.sz), trampoline, pr.trapframe);
    ProcFreepagetable(vm, r, pr.sz, trampoline, pr.trapframe);
    OthersAfter(mem0, use0, mem1, use1, vm.mem, r);
  }

  // Arithmetic on uint64.
  function Wrap64(x: int): nat {
    x % WORD64
  }

  // The size after a successful growproc(n).
  function NewSize(sz: nat, n: int): nat {
    var t := Wrap64(sz + n);
    if n > 0 then (if t < sz then sz else t) else if n < 0 then (if t < sz then t else sz) else sz
  }

  lemma SpaceGrown(mem: seq<Page>, use: seq<Use>, mem': seq<Page>, use': seq<Use>, r: nat, a: nat, b: nat, trampoline: nat, tf: nat)
    requires Space(mem, use, r, a, trampoline, tf) && a <= b && Grown(mem, use, mem', use', r, a, b) && UserMem(mem', r, b)
    ensures Space(mem', use', r, b, trampoline, tf) && OthersKept(mem, use, mem', r)
  {
    GrownRoots(mem, use, mem', use', r, a, b);
    assert Lookup(mem', r, Split(TRAMPOLINE)) == Lookup(mem, r, Split(TRAMPOLINE));
    assert Lookup(mem', r, Split(TRAPFRAME)) == Lookup(mem, r, Split(TRAPFRAME));
  }

  lemma SpaceShrunk(mem: seq<Page>, use: seq<Use>, mem': seq<Page>, use': seq<Use>, r: nat, a: nat, b: nat, trampoline: nat, tf: nat)
    requires Space(mem, use, r, a, trampoline, tf) && b <= a && Unmapped(mem, use, mem', use', r, b, a - b, true)
    requires UserMem(mem', r, b)
    ensures Space(mem', use', r, b, trampoline, tf) && OthersKept(mem, use, mem', r)
  {
    assert Lookup(mem', r, Split(TRAMPOLINE)) == Lookup(mem, r, Split(TRAMPOLINE));
    assert Lookup(mem', r, Split(TRAPFRAME)) == Lookup(mem, r, Split(TRAPFRAME));
  }

  // Pages of r may have been added, taken away or both; pages of others have kept their use.
  predicate OnlyWithin(use: seq<Use>, use': seq<Use>, r: nat) {
    && |use'| == |use|
    && forall p :: 0 <= p < |use| ==>
         || use'[p] == use[p]
         || (use[p] == Free && Belongs(use'[p], r) && !IsRoot(use', p))
         || (use'[p] == Free && Belongs(use[p], r) && !IsRoot(use, p))
  }

  method CopySpace(vm: Vm, r: nat, c: nat, pr: Proc, pc: Proc, ghost trampoline: nat) returns (ok: bool)
    requires vm.Stable() && vm.hi <= TRAPFRAME && r != c && pc.sz == 0
    requires GoodProc(vm.mem, vm.use, r, pr, trampoline) && GoodProc(vm.mem, vm.use, c, pc, trampoline)
    modifies vm
    ensures vm.Stable() && OthersKept(old(vm.mem), old(vm.use), vm.mem, c) && OnlyWithin(old(vm.use), vm.use, c)
    ensures KeepsData(old(vm.mem), old(vm.use), vm.mem)
    ensures GoodProc(vm.mem, vm.use, c, Proc(if ok then pr.sz else 0, pc.trapframe), trampoline)
    ensures ok ==> Copied(vm.mem, r, c, Pages(pr.sz)) && UsesGrown(old(vm.use), vm.use, c, 0, Pages(pr.sz))
    ensures !ok ==> OnlyNewTables(old(vm.use), vm.use, c)
  {
    ghost var mem0, use0 := vm.mem, vm.use;
    ok := Uvmcopy(vm, r, c, pr.sz);
    if ok {
      SpaceGrown(mem0, use0, vm.mem, vm.use, c, 0, Pages(pr.sz), trampoline, pc.trapframe);
    } else {
      SpaceKept(mem0, use0, vm.mem, vm.use, c, 0, trampoline, pc.trapframe);
    }
  }

  // growproc, for the address space alone.
  method ResizeSpace(vm: Vm, r: nat, pr: Proc, n: int, ghost trampoline: nat) returns (ok: bool, sz: nat)
    requires vm.Stable() && vm.hi <= TRAPFRAME && GoodProc(vm.mem, vm.use, r, pr, trampoline)
    modifies vm
    ensures vm.Stable() && OthersKept(old(vm.mem), old(vm.use), vm.mem, r) && OnlyWithin(old(vm.use), vm.use, r)
    ensures GoodProc(vm.mem, vm.use, r, Proc(sz, pr.trapframe), trampoline)
    ensures ok ==> sz == NewSize(pr.sz, n) && Resized(old(vm.mem), old(vm.use), vm.mem, vm.use, r, Pages(pr.sz), Pages(sz))
    ensures !ok ==> n > 0 && sz == pr.sz && NothingButTables(old(vm.mem), old(vm.use), vm.mem, vm.use, r)
  {
    ok, sz := true, pr.sz;
    if n > 0 {
      ok, sz := GrowSpace(vm, r, pr, Wrap64(pr.sz + n), trampoline);
    } else if n < 0 {
      sz := ShrinkSpace(vm, r, pr, Wrap64(pr.sz + n), trampoline);
    } else {
      SameSize(vm.mem, vm.use, r, Pages(sz));
    }
  }

  method GrowSpace(vm: Vm, r: nat, pr: Proc, newsz: nat, ghost trampoline: nat) returns (ok: bool, sz: nat)
    requires vm.Stable() && vm.hi <= TRAPFRAME && GoodProc(vm.mem, vm.use, r, pr, trampoline)
    modifies vm
    ensures vm.Stable() && OthersKept(old(vm.mem), old(vm.use), vm.mem, r) && OnlyWithin(old(vm.use), vm.use, r)
    ensures GoodProc(vm.mem, vm.use, r, Proc(sz, pr.trapframe), trampoline)
    ensures ok ==> sz == if newsz < pr.sz then pr.sz else newsz
    ensures ok ==> Resized(old(vm.mem), old(vm.use), vm.mem, vm.use, r, Pages(pr.sz), Pages(sz))
    ensures !ok ==> sz == pr.sz && NothingButTables(old(vm.mem), old(vm.use), vm.mem, vm.use, r)
  {
    ghost var mem0, use0 := vm.mem, vm.use;
    ok, sz := Uvmalloc(vm, r, pr.sz, newsz, 4);
    if ok {
      SpaceGrown(mem0, use0, vm.mem, vm.use, r, Pages(pr.sz), Pages(sz), trampoline, pr.trapframe);
    } else {
      sz := pr.sz;
      SpaceKept(mem0, use0, vm.mem, vm.use, r, Pages(pr.sz), trampoline, pr.trapframe);
    }
  }

  method ShrinkSpace(vm: Vm, r: nat, pr: Proc, newsz: nat, ghost trampoline: nat) returns (sz: nat)
    requires vm.Stable() && vm.hi <= TRAPFRAME && GoodProc(vm.mem, vm.use, r, pr, trampoline)
    modifies vm
    ensures vm.Stable() && OthersKept(old(vm.mem), old(vm.use), vm.mem, r) && OnlyWithin(old(vm.use), vm.use, r)
    ensures GoodProc(vm.mem, vm.use, r, Proc(sz, pr.trapframe), trampoline)
    ensures sz == if newsz < pr.sz then newsz else pr.sz
    ensures Resized(old(vm.mem), old(vm.use), vm.mem, vm.use, r, Pages(pr.sz), Pages(sz))
  {
    ghost var mem0, use0 := vm.mem, vm.use;
    sz := Uvmdealloc(vm, r, pr.sz, newsz);
    SpaceShrunk(mem0, use0, vm.mem, vm.use, r, Pages(pr.sz), Pages(sz), trampoline, pr.trapframe);
    if Pages(sz) == Pages(pr.sz) {
      NotResized(mem0, use0, vm.mem, vm.use, r, Pages(sz));
    }
  }

  lemma AddRemove(m: map<nat, Proc>, c: nat, v: Proc, w: Proc)
    requires c !in m
    ensures m[c := v] - {c} == m && m[c := v][c := w] == m[c := w]
  {
  }

  lemma SameMap(m: map<nat, Proc>, c: nat)
    requires c in m
    ensures m[c := m[c]] == m
  {
  }

  // Built, extended by tables and emptied again: every page is what it was.
  lemma BackAgain(mem: seq<Page>, use: seq<Use>, use1: seq<Use>, use2: seq<Use>, use3: seq<Use>, c: nat, tf: nat)
    requires Whole(mem, use) && !IsRoot(use, c) && tf < |use| && use[tf] == Free
    requires BuiltFrom(use, use1, c, tf) && OnlyNewTables(use1, use2, c) && Emptied(use2, use3, c, tf)
    ensures use3 == use
  {
    forall p | 0 <= p < |use|
      ensures use3[p] == use[p]
    {
      NoneBelongs(mem, use, c, p);
    }
  }

  lemma BuiltAndGrown(use: seq<Use>, use1: seq<Use>, use2: seq<Use>, c: nat, tf: nat, n: nat)
    requires tf < |use| && use[tf] == Free && BuiltFrom(use, use1, c, tf) && UsesGrown(use1, use2, c, 0, n) && use1[tf] == Loose
    ensures Forked(use, use2, c, tf, n)
  {
  }

  // Building and filling a new address space leaves every other translation and every page that was
  // in use as they were,
  lemma KeptTwice(mem: seq<Page>, use: seq<Use>, mem1: seq<Page>, use1: seq<Use>, mem2: seq<Page>, c: nat, tf: nat)
    requires !IsRoot(use, c) && BuiltFrom(use, use1, c, tf) && KeepsData(mem, use, mem1) && KeepsData(mem1, use1, mem2)
    requires OthersKept(mem, use, mem1, c) && OthersKept(mem1, use1, mem2, c)
    ensures SameMaps(mem, use, mem2) && KeepsData(mem, use, mem2)
  {
    forall q, y | IsRoot(use, q) && GoodVa(y) ensures Lookup(mem2, q, y) == Lookup(mem, q, y) {
      assert IsRoot(use1, q);
      assert Lookup(mem1, q, y) == Lookup(mem, q, y);
    }
  }

  // and so does freeing it again.
  lemma KeptThrice(mem: seq<Page>, use: seq<Use>, use1: seq<Use>, mem2: seq<Page>, use2: seq<Use>, mem3: seq<Page>, use3: seq<Use>, c: nat, tf: nat)
    requires !IsRoot(use, c) && BuiltFrom(use, use1, c, tf) && OnlyNewTables(use1, use2, c) && use3 == use
    requires SameMaps(mem, use, mem2) && KeepsData(mem, use, mem2)
    requires OthersKept(mem2, use2, mem3, c) && DataKept(mem2, use2, mem3, use3)
    ensures SameMaps(mem, use, mem3) && KeepsData(mem, use, mem3)
  {
    forall q, y | IsRoot(use, q) && GoodVa(y) ensures Lookup(mem3, q, y) == Lookup(mem, q, y) {
      assert IsRoot(use2, q);
      assert Lookup(mem2, q, y) == Lookup(mem, q, y);
    }
  }

  // A page-table page is met by a walk from its root.
  lemma TableAt(mem: seq<Page>, use: seq<Use>, p: nat)
    requires Whole(mem, use) && p < |use| && use[p].Table?
    ensures use[p].level <= 2 && GoodVa(Va(use[p].a, use[p].b, 0))
    ensures var u := use[p];
            p == if u.level == 2 then u.root else if u.level == 1 then Child(mem, u.root, u.a) else Last(mem, u.root, Va(u.a, u.b, 0))
  {
    assert PageOk(mem, use, Roots(use), p);
    if use[p].level == 0 {
      LastIs(mem, use, p, 0);
    } else if use[p].level == 1 {
      assert PageOk(mem, use, Roots(use), use[p].parent);
    }
  }

  class Spaces {
    const vm: Vm
    const trampoline: nat
    var procs: map<nat, Proc>    // by root of the page table
    ghost var kernel: set<nat>   // pages the kernel has from kalloc for its own use

    ghost predicate Valid()
      reads this, vm
    {
      && vm.Stable()
      && 0 < trampoline < vm.lo && vm.hi <= TRAPFRAME
      && AllGood(vm.mem, vm.use, procs, trampoline)
      && Held(vm.use, procs, kernel)
    }

    constructor (vm: Vm, trampoline: nat)
      requires vm.Stable() && 0 < trampoline < vm.lo && vm.hi <= TRAPFRAME && Roots(vm.use) == {}
      ensures Valid() && this.vm == vm && procs == map[] && kernel == LooseOnes(vm.use)
    {
      this.vm, this.trampoline := vm, trampoline;
      this.procs, this.kernel := map[], LooseOnes(vm.use);
      assert forall r :: IsRoot(vm.use, r) ==> r in Roots(vm.use);
    }

    // Page conservation: every managed page is free, held by the kernel, the trapframe of one
    // process, or a page of a live process, reached from its page table at the place its use
    // records.
    lemma Accounted(p: nat)
      requires Valid() && p < vm.hi
      ensures match vm.use[p] {
                case Reserved => p < vm.lo
                case Free => vm.lo <= p && p in vm.free
                case Loose =>
                  && vm.lo <= p
                  && (p in kernel <==> forall r :: r in procs ==> procs[r].trapframe != p)
                  && (forall r, q :: r in procs && q in procs && procs[r].trapframe == p == procs[q].trapframe ==> r == q)
                case Table(r, l, a, b, _) =>
                  && vm.lo <= p && r in procs && l <= 2 && GoodVa(Va(a, b, 0))
                  && p == (if l == 2 then r else if l == 1 then Child(vm.mem, r, a) else Last(vm.mem, r, Va(a, b, 0)))
                case User(r, x, _) =>
                  && vm.lo <= p && r in procs && GoodVa(x) && Join(x) < Pages(procs[r].sz)
                  && Lookup(vm.mem, r, x) / 1024 == p }
    {
      if vm.use[p] == Loose {
        assert p in LooseOnes(vm.use);
      } else if vm.use[p].Table? || vm.use[p].User? {
        var r := vm.use[p].root;
        if !IsRoot(vm.use, r) {
          NoneBelongs(vm.mem, vm.use, r, p);
        }
        assert GoodProc(vm.mem, vm.use, r, procs[r], trampoline);
        if vm.use[p].Table? {
          TableAt(vm.mem, vm.use, p);
        } else {
          UserIsMapped(vm.mem, vm.use, p);
          UsersBelow(vm.mem, vm.use, r, Pages(procs[r].sz), p);
          EntrySplit(vm.mem, r, vm.use[p].va);
          JoinInj(vm.use[p].va, Split(Join(vm.use[p].va)));
          UserAt(vm.mem, vm.use, r, Join(vm.use[p].va));
        }
      } else if vm.use[p] == Free {
        assert p in vm.free;
      }
    }

    // The memory of allocproc: a trapframe page and a page table.  0 leaves everything as it was.
    method AllocProc() returns (r: int)
      requires Valid()
      modifies this, vm
      ensures Valid() && kernel == old(kernel) && KeepsData(old(vm.mem), old(vm.use), vm.mem)
      ensures r == 0 ==> procs == old(procs) && vm.use == old(vm.use) && SameMaps(old(vm.mem), old(vm.use), vm.mem)
      ensures r != 0 ==> 0 < r < vm.hi && old(vm.use)[r] == Free && r !in old(procs)
      ensures r != 0 ==> r in procs && procs == old(procs)[r := procs[r]] && procs[r].sz == 0
      ensures r != 0 ==> 0 < procs[r].trapframe < vm.hi && old(vm.use)[procs[r].trapframe] == Free
      ensures r != 0 ==> BuiltFrom(old(vm.use), vm.use, r, procs[r].trapframe) && OthersKept(old(vm.mem), old(vm.use), vm.mem, r)
    {
      ghost var mem0, use0 := vm.mem, vm.use;
      var tf;
      r, tf := NewAddressSpace(vm, trampoline);
      if r == 0 {
        OthersGood(mem0, use0, vm.mem, vm.use, procs, procs, trampoline, 0);
        return;
      }
      assert r !in procs;
      HeldMore(use0, vm.use, procs, kernel, r, tf);
      OthersGood(mem0, use0, vm.mem, vm.use, procs, procs[r := Proc(0, tf)], trampoline, r);
      procs := procs[r := Proc(0, tf)];
    }

    // The memory of freeproc: exactly the pages of this process are free again.
    method FreeProc(r: nat)
      requires Valid() && r in procs
      modifies this, vm
      ensures Valid() && kernel == old(kernel) && procs == old(procs) - {r}
      ensures Emptied(old(vm.use), vm.use, r, old(procs)[r].trapframe)
      ensures OthersKept(old(vm.mem), old(vm.use), vm.mem, r) && DataKept(old(vm.mem), old(vm.use), vm.mem, vm.use)
    {
      ghost var mem0, use0 := vm.mem, vm.use;
      assert GoodProc(mem0, use0, r, procs[r], trampoline);
      FreeAddressSpace(vm, r, procs[r], trampoline);
      HeldLess(use0, vm.use, procs, kernel, r);
      OthersGood(mem0, use0, vm.mem, vm.use, procs, procs - {r}, trampoline, r);
      procs := procs - {r};
    }

    // The memory of fork.  The child has a copy of the parent's memory, or, with 0, every page
    // taken on the way has been given back.
    method Fork(r: nat) returns (c: int)
      requires Valid() && r in procs
      modifies this, vm
      ensures Valid() && kernel == old(kernel)
      ensures SameMaps(old(vm.mem), old(vm.use), vm.mem) && KeepsData(old(vm.mem), old(vm.use), vm.mem)
      ensures c == 0 ==> procs == old(procs) && vm.use == old(vm.use)
      ensures c != 0 ==> c in procs && c !in old(procs) && procs == old(procs)[c := procs[c]] && procs[c].sz == old(procs)[r].sz
      ensures c != 0 ==> Copied(vm.mem, r, c, Pages(procs[c].sz))
      ensures c != 0 ==> Forked(old(vm.use), vm.use, c, procs[c].trapframe, Pages(procs[c].sz))
    {
      ghost var mem0, use0 := vm.mem, vm.use;
      ghost var procs0 := procs;
      c := AllocProc();
      if c == 0 {
        return;
      }
      ghost var mem1, use1 := vm.mem, vm.use;
      ghost var pc := procs[c];
      AddRemove(procs0, c, pc, Proc(procs0[r].sz, pc.trapframe));
      var ok := CopyInto(r, c);
      KeptTwice(mem0, use0, mem1, use1, vm.mem, c, pc.trapframe);
      if !ok {
        ghost var mem2, use2 := vm.mem, vm.use;
        FreeProc(c);
        BackAgain(mem0, use0, use1, use2, vm.use, c, pc.trapframe);
        KeptThrice(mem0, use0, use1, mem2, use2, vm.mem, vm.use, c, pc.trapframe);
        c := 0;
      } else {
        BuiltAndGrown(use0, use1, vm.use, c, pc.trapframe, Pages(procs0[r].sz));
      }
    }

    // uvmcopy into a new process, and np->sz = p->sz.
    method CopyInto(r: nat, c: nat) returns (ok: bool)
      requires Valid() && r in procs && c in procs && r != c && procs[c].sz == 0
      modifies this, vm
      ensures Valid() && kernel == old(kernel)
      ensures procs == if ok then old(procs)[c := Proc(old(procs)[r].sz, old(procs)[c].trapframe)] else old(procs)
      ensures OthersKept(old(vm.mem), old(vm.use), vm.mem, c) && KeepsData(old(vm.mem), old(vm.use), vm.mem)
      ensures ok ==> Copied(vm.mem, r, c, Pages(procs[r].sz)) && UsesGrown(old(vm.use), vm.use, c, 0, Pages(procs[r].sz))
      ensures !ok ==> OnlyNewTables(old(vm.use), vm.use, c)
    {
      ghost var mem0, use0 := vm.mem, vm.use;
      assert GoodProc(mem0, use0, r, procs[r], trampoline);
      assert GoodProc(mem0, use0, c, procs[c], trampoline);
      SameMap(procs, c);
      ok := CopySpace(vm, r, c, procs[r], procs[c], trampoline);
      var pr := if ok then Proc(procs[r].sz, procs[c].trapframe) else procs[c];
      StillValid(mem0, use0, vm.mem, vm.use, procs, kernel, trampoline, c, pr.sz);
      procs := procs[c := pr];
    }

    // Grow or shrink by n bytes.  The new size is taken modulo 2^64; a shrink below zero and a
    // growth past 2^64 leave the size alone.
    method Growproc(r: nat, n: int) returns (ok: bool)
      requires Valid() && r in procs
      modifies this, vm
      ensures Valid() && kernel == old(kernel)
      ensures !ok ==> n > 0 && procs == old(procs) && NothingButTables(old(vm.mem), old(vm.use), vm.mem, vm.use, r)
      ensures ok ==> procs == old(procs)[r := Proc(NewSize(old(procs)[r].sz, n), old(procs)[r].trapframe)]
      ensures ok ==> Resized(old(vm.mem), old(vm.use), vm.mem, vm.use, r, Pages(old(procs)[r].sz), Pages(procs[r].sz))
    {
      ghost var mem0, use0 := vm.mem, vm.use;
      var pr := procs[r];
      assert GoodProc(mem0, use0, r, pr, trampoline);
      SameMap(procs, r);
      var sz;
      ok, sz := ResizeSpace(vm, r, pr, n, trampoline);
      StillValid(mem0, use0, vm.mem, vm.use, procs, kernel, trampoline, r, sz);
      procs := procs[r := Proc(sz, pr.trapframe)];
    }

    // kalloc by another part of the kernel, such as a pipe.
    method KernelTake(page: Page) returns (p: int)
      requires Valid() && IsPage(page)
      modifies this, vm
      ensures Valid() && procs == old(procs)
      ensures p == 0 ==> kernel == old(kernel) && vm.use == old(vm.use)
      ensures SameMaps(old(vm.mem), old(vm.use), vm.mem) && KeepsData(old(vm.mem), old(vm.use), vm.mem)
      ensures p != 0 ==> 0 < p < vm.hi && vm.mem[p] == page && p !in old(kernel) && kernel == old(kernel) + {p} && vm.use == old(vm.use)[p := Loose]
    {
      ghost var mem0, use0 := vm.mem, vm.use;
      p := vm.FreshPage(page);
      OthersGood(mem0, use0, vm.mem, vm.use, procs, procs, trampoline, 0);
      if p != 0 {
        assert p !in LooseOnes(use0);
        assert LooseOnes(vm.use) == LooseOnes(use0) + {p};
        kernel := kernel + {p};
      }
    }

    // kfree of such a page.
    method KernelGive(p: nat)
      requires Valid() && p in kernel
      modifies this, vm
      ensures Valid() && procs == old(procs) && kernel == old(kernel) - {p} && vm.use == old(vm.use)[p := Free]
      ensures SameMaps(old(vm.mem), old(vm.use), vm.mem) && DataKept(old(vm.mem), old(vm.use), vm.mem, vm.use)
    {
      ghost var mem0, use0 := vm.mem, vm.use;
      assert p in LooseOnes(use0);
      forall q | q in procs ensures procs[q].trapframe != p {
        assert procs[q].trapframe in Frames(procs);
      }
      vm.ReturnPage(p);
      OthersGood(mem0, use0, vm.mem, vm.use, procs, procs, trampoline, 0);
      assert LooseOnes(vm.use) == LooseOnes(use0) - {p};
      kernel := kernel - {p};
    }
  }
}
