/**
  The memory of a user page table: uvmalloc, uvmdealloc and uvmcopy of kernel/vm.c.

  The user pages of a page table are exactly the first n virtual pages, and every path,
  including those that run out of memory, accounts for every physical page.
 */
module UserMemory {
  import opened PageTable
  import opened VmCode

  const PGSIZE: nat := 4096

  // PGROUNDUP(sz) / PGSIZE
  function Pages(sz: nat): nat {
    (sz + PGSIZE - 1) / PGSIZE
  }

  // The mapped pages of r below the trapframe are exactly the first n.
  ghost predicate UserMem(mem: seq<Page>, r: nat, n: nat) {
    n <= TRAPFRAME && forall v :: 0 <= v < TRAPFRAME ==> (V(Entry(mem, r, v)) <==> v < n)
  }

  // Free pages have become tables below r or the user pages a to b-1 of r; nothing else has
  // changed hands.
  predicate UsesGrown(use: seq<Use>, use': seq<Use>, r: nat, a: nat, b: nat)
    requires a <= b
  {
    && |use'| == |use|
    && forall p :: 0 <= p < |use| ==>
         || use'[p] == use[p]
         || (use[p] == Free && use'[p].Table? && use'[p].root == r && use'[p].level < 2)
         || (use[p] == Free && use'[p].User? && use'[p].root == r && InRange(use'[p].va, a, b - a))
  }

  // Pages a to b-1 have been added to r; tables may have been added to r; nothing else.
  ghost predicate Grown(mem: seq<Page>, use: seq<Use>, mem': seq<Page>, use': seq<Use>, r: nat, a: nat, b: nat)
    requires a <= b
  {
    && (forall q, y {:trigger Lookup(mem', q, y)} ::
          IsRoot(use, q) && GoodVa(y) && !(q == r && InRange(y, a, b - a)) ==> Lookup(mem', q, y) == Lookup(mem, q, y))
    && UsesGrown(use, use', r, a, b)
    && KeepsData(mem, use, mem')
  }

  lemma GrownRoots(mem: seq<Page>, use: seq<Use>, mem': seq<Page>, use': seq<Use>, r: nat, a: nat, b: nat)
    requires a <= b && Grown(mem, use, mem', use', r, a, b)
    ensures forall q :: IsRoot(use, q) ==> IsRoot(use', q)
  {
  }

  lemma GrownThen(mem: seq<Page>, use: seq<Use>, mem1: seq<Page>, use1: seq<Use>, mem2: seq<Page>, use2: seq<Use>,
                  r: nat, a: nat, b: nat, p: nat, e: int)
    requires a <= b < MAXVPN && Grown(mem, use, mem1, use1, r, a, b) && KeepsData(mem1, use1, mem2)
    requires NewMap(mem1, use1, mem2, r, Split(b), e)
    requires p < |use1| == |use2| && use1[p] == Free && use2[p].User? && use2[p].root == r && use2[p].va == Split(b)
    requires OnlyNewTables(use1, use2[p := Free], r)
    ensures Grown(mem, use, mem2, use2, r, a, b + 1)
  {
    GrownRoots(mem, use, mem1, use1, r, a, b);
    forall q, y | IsRoot(use, q) && GoodVa(y) && !(q == r && InRange(y, a, b + 1 - a))
      ensures Lookup(mem2, q, y) == Lookup(mem, q, y)
    {
      assert Lookup(mem1, q, y) == Lookup(mem, q, y);
    }
    forall s | 0 <= s < |use|
      ensures
        || use2[s] == use[s]
        || (use[s] == Free && use2[s].Table? && use2[s].root == r && use2[s].level < 2)
        || (use[s] == Free && use2[s].User? && use2[s].root == r && InRange(use2[s].va, a, b + 1 - a))
    {
      if s != p {
        assert use2[p := Free][s] == use2[s];
      }
    }
  }

  lemma GrownSame(mem: seq<Page>, use: seq<Use>, mem1: seq<Page>, use1: seq<Use>, mem2: seq<Page>, use2: seq<Use>,
                  r: nat, a: nat, b: nat)
    requires a <= b && Grown(mem, use, mem1, use1, r, a, b) && KeepsData(mem1, use1, mem2)
    requires SameMaps(mem1, use1, mem2) && OnlyNewTables(use1, use2, r)
    ensures Grown(mem, use, mem2, use2, r, a, b)
  {
    GrownRoots(mem, use, mem1, use1, r, a, b);
    forall q, y | IsRoot(use, q) && GoodVa(y) && !(q == r && InRange(y, a, b - a))
      ensures Lookup(mem2, q, y) == Lookup(mem, q, y)
    {
      assert Lookup(mem1, q, y) == Lookup(mem, q, y);
    }
  }

  // An entry that is not valid is zero.
  lemma AbsentIsZero(mem: seq<Page>, use: seq<Use>, r: nat, x: Va)
    requires Whole(mem, use) && IsRoot(use, r) && GoodVa(x) && !V(Lookup(mem, r, x))
    ensures Lookup(mem, r, x) == 0
  {
    WalkUse(mem, use, r, x);
    var t := Last(mem, r, x);
    if t != 0 {
      assert EntryOk(use, t, x.c, mem[t][x.c]);
    }
  }

  lemma EntrySplit(mem: seq<Page>, r: nat, x: Va)
    requires GoodVa(x)
    ensures Join(x) < MAXVPN && Entry(mem, r, Join(x)) == Lookup(mem, r, x)
  {
    JoinInj(x, Split(Join(x)));
  }

  lemma UserMemThen(mem: seq<Page>, use: seq<Use>, mem': seq<Page>, r: nat, n: nat, e: int)
    requires IsRoot(use, r) && n < TRAPFRAME && UserMem(mem, r, n) && NewMap(mem, use, mem', r, Split(n), e) && V(e)
    ensures UserMem(mem', r, n + 1)
  {
    forall v | 0 <= v < TRAPFRAME
      ensures V(Entry(mem', r, v)) <==> v < n + 1
    {
      assert V(Entry(mem, r, v)) <==> v < n;
      assert Lookup(mem', r, Split(v)) == if Split(v) == Split(n) then e else Lookup(mem, r, Split(v));
    }
  }

  lemma UserMemSame(mem: seq<Page>, use: seq<Use>, mem': seq<Page>, r: nat, n: nat)
    requires IsRoot(use, r) && UserMem(mem, r, n) && SameMaps(mem, use, mem')
    ensures UserMem(mem', r, n)
  {
    forall v | 0 <= v < TRAPFRAME
      ensures V(Entry(mem', r, v)) <==> v < n
    {
      assert V(Entry(mem, r, v)) <==> v < n;
      assert Lookup(mem', r, Split(v)) == Lookup(mem, r, Split(v));
    }
  }

  lemma UserMemPresent(mem: seq<Page>, r: nat, n: nat, a: nat)
    requires UserMem(mem, r, n) && a <= n
    ensures AllPresent(mem, r, a, n - a)
  {
  }

  // Every user page of r is one of the first n.
  lemma UsersBelow(mem: seq<Page>, use: seq<Use>, r: nat, n: nat, p: nat)
    requires Whole(mem, use) && IsRoot(use, r) && UserMem(mem, r, n) && p < |use|
    ensures use[p].User? && use[p].root == r ==> Join(use[p].va) < n
  {
    if use[p].User? && use[p].root == r {
      assert PageOk(mem, use, Roots(use), p);
      EntrySplit(mem, r, use[p].va);
      var v := Join(use[p].va);
      SpecialIs(v);
      JoinInj(use[p].va, Split(v));
      UserAt(mem, use, r, v);
      assert V(Entry(mem, r, v)) <==> v < n;
    }
  }

  // Taking off again what was added: only tables remain.
  lemma Undone(mem: seq<Page>, use: seq<Use>, mem1: seq<Page>, use1: seq<Use>, mem2: seq<Page>, use2: seq<Use>,
               r: nat, a: nat, b: nat)
    requires Whole(mem, use) && IsRoot(use, r) && UserMem(mem, r, a) && a <= b <= TRAPFRAME
    requires Grown(mem, use, mem1, use1, r, a, b) && Unmapped(mem1, use1, mem2, use2, r, a, b - a, true)
    ensures SameMaps(mem, use, mem2) && OnlyNewTables(use, use2, r) && KeepsData(mem, use, mem2)
  {
    GrownRoots(mem, use, mem1, use1, r, a, b);
    forall q, y | IsRoot(use, q) && GoodVa(y)
      ensures Lookup(mem2, q, y) == Lookup(mem, q, y)
    {
      if q == r && InRange(y, a, b - a) {
        EntrySplit(mem, r, y);
        assert V(Entry(mem, r, Join(y))) <==> Join(y) < a;
        AbsentIsZero(mem, use, r, y);
      } else {
        assert Lookup(mem1, q, y) == Lookup(mem, q, y);
      }
    }
    forall p | 0 <= p < |use|
      ensures use2[p] == use[p] || (use[p] == Free && use2[p].Table? && use2[p].root == r && use2[p].level < 2)
    {
      UsersBelow(mem, use, r, a, p);
    }
  }

  // ------------------------------------------------------------------
  // There are no more user pages than physical pages
  // ------------------------------------------------------------------

  lemma {:induction false} SetBound(S: set<nat>, n: nat)
    requires forall p :: p in S ==> p < n
    ensures |S| <= n
  {
    if n > 0 {
      var T := S - {n - 1};
      SetBound(T, n - 1);
    } else {
      assert S == {};
    }
  }

  // The physical page under the user page v.
  ghost function PageAt(mem: seq<Page>, r: nat, v: nat): int {
    Ppn(Entry(mem, r, v))
  }

  lemma UserPage(mem: seq<Page>, use: seq<Use>, r: nat, v: nat)
    requires Whole(mem, use) && IsRoot(use, r) && v < TRAPFRAME && V(Entry(mem, r, v))
    ensures
      var p := PageAt(mem, r, v);
      0 < p < |use| && use[p].User? && use[p].root == r && use[p].va == Split(v) && Leafy(Entry(mem, r, v))
  {
    var x := Split(v);
    WalkUse(mem, use, r, x);
    SpecialIs(v);
    var t := Last(mem, r, x);
    assert EntryOk(use, t, x.c, mem[t][x.c]);
  }

  lemma {:induction false} UserSet(mem: seq<Page>, use: seq<Use>, r: nat, n: nat) returns (S: set<nat>)
    requires Whole(mem, use) && IsRoot(use, r) && n <= TRAPFRAME && AllPresent(mem, r, 0, n)
    ensures |S| == n
    ensures forall p :: p in S ==> p < |use| && use[p].User? && Join(use[p].va) < n
    decreases n
  {
    if n == 0 {
      S := {};
    } else {
      var T := UserSet(mem, use, r, n - 1);
      assert V(Entry(mem, r, n - 1));
      UserPage(mem, use, r, n - 1);
      var p: nat := PageAt(mem, r, n - 1);
      assert Join(use[p].va) == n - 1;
      assert p !in T;
      S := T + {p};
    }
  }

  lemma FewerThanPages(mem: seq<Page>, use: seq<Use>, r: nat, n: nat)
    requires Whole(mem, use) && IsRoot(use, r) && UserMem(mem, r, n)
    ensures n < |use|
  {
    UserMemPresent(mem, r, n, 0);
    var S := UserSet(mem, use, r, n);
    assert r !in S;
    SetBound(S + {r}, |use|);
  }

  // ------------------------------------------------------------------
  // Growing and shrinking
  // ------------------------------------------------------------------

  // Shrink from oldsz to newsz bytes; the panics of uvmunmap cannot happen.
  method Uvmdealloc(vm: Vm, r: nat, oldsz: nat, newsz: nat) returns (sz: nat)
    requires vm.Stable() && IsRoot(vm.use, r)
    requires UserMem(vm.mem, r, Pages(oldsz))
    modifies vm
    ensures vm.Stable() && IsRoot(vm.use, r)
    ensures sz == if newsz < oldsz then newsz else oldsz
    ensures UserMem(vm.mem, r, Pages(sz))
    ensures Pages(sz) <= Pages(oldsz)
    ensures Unmapped(old(vm.mem), old(vm.use), vm.mem, vm.use, r, Pages(sz), Pages(oldsz) - Pages(sz), true)
  {
    if newsz >= oldsz {
      UnmappedNone(vm.mem, vm.use, r, Pages(oldsz));
      return oldsz;
    }
    if Pages(newsz) < Pages(oldsz) {
      UserMemPresent(vm.mem, r, Pages(oldsz), Pages(newsz));
      var ok := vm.Uvmunmap(r, Pages(newsz), Pages(oldsz) - Pages(newsz), true);
      UserMemCut(old(vm.mem), old(vm.use), vm.mem, r, Pages(oldsz), Pages(newsz));
    } else {
      UnmappedNone(vm.mem, vm.use, r, Pages(oldsz));
    }
    sz := newsz;
  }

  lemma UnmappedNone(mem: seq<Page>, use: seq<Use>, r: nat, v: nat)
    requires |mem| == |use|
    ensures Unmapped(mem, use, mem, use, r, v, 0, true)
  {
  }

  lemma UserMemCut(mem: seq<Page>, use: seq<Use>, mem': seq<Page>, r: nat, n: nat, m: nat)
    requires IsRoot(use, r) && m <= n && UserMem(mem, r, n) && Cleared(mem, use, mem', r, m, n - m)
    ensures UserMem(mem', r, m)
  {
    forall v | 0 <= v < TRAPFRAME
      ensures V(Entry(mem', r, v)) <==> v < m
    {
      assert V(Entry(mem, r, v)) <==> v < n;
      assert Lookup(mem', r, Split(v)) == if InRange(Split(v), m, n - m) then 0 else Lookup(mem, r, Split(v));
    }
  }

  // The pages a to b-1 of r are mapped with perm and hold zeroes.
  ghost predicate ZeroPages(mem: seq<Page>, r: nat, a: nat, b: nat, perm: nat) {
    forall v :: a <= v < b ==> Flags(Entry(mem, r, v)) == perm && InMem(mem, PageAt(mem, r, v)) && mem[PageAt(mem, r, v)] == ZeroPage()
  }

  lemma ZeroPagesThen(mem: seq<Page>, use: seq<Use>, mem': seq<Page>, r: nat, a: nat, b: nat, p: nat, perm: nat)
    requires Whole(mem, use) && IsRoot(use, r) && UserMem(mem, r, b) && a <= b < TRAPFRAME && perm < 1024
    requires ZeroPages(mem, r, a, b, perm) && NewMap(mem, use, mem', r, Split(b), Pte(p, perm)) && KeepsData(mem, use, mem')
    requires 0 < p < |mem'| && mem'[p] == ZeroPage()
    ensures ZeroPages(mem', r, a, b + 1, perm)
  {
    forall v | a <= v < b + 1
      ensures Flags(Entry(mem', r, v)) == perm && InMem(mem', PageAt(mem', r, v)) && mem'[PageAt(mem', r, v)] == ZeroPage()
    {
      assert Lookup(mem', r, Split(v)) == if Split(v) == Split(b) then Pte(p, perm) else Lookup(mem, r, Split(v));
      if v < b {
        assert Entry(mem', r, v) == Entry(mem, r, v);
        assert V(Entry(mem, r, v)) <==> v < b;
        UserPage(mem, use, r, v);
      }
    }
  }

  // Grow from oldsz to newsz bytes.  Either all the new pages are there, zeroed, or none is.
  method Uvmalloc(vm: Vm, r: nat, oldsz: nat, newsz: nat, xperm: nat) returns (ok: bool, sz: nat)
    requires vm.Stable() && IsRoot(vm.use, r) && vm.hi <= TRAPFRAME
    requires UserMem(vm.mem, r, Pages(oldsz))
    requires xperm == 0 || xperm == 4 || xperm == 8 || xperm == 12
    modifies vm
    ensures vm.Stable() && IsRoot(vm.use, r)
    ensures newsz < oldsz ==> ok && sz == oldsz
    ensures newsz >= oldsz ==> sz == if ok then newsz else 0
    ensures ok ==> UserMem(vm.mem, r, Pages(sz)) && Pages(oldsz) <= Pages(sz)
    ensures ok ==> Grown(old(vm.mem), old(vm.use), vm.mem, vm.use, r, Pages(oldsz), Pages(sz))
    ensures ok ==> ZeroPages(vm.mem, r, Pages(oldsz), Pages(sz), 19 + xperm)
    ensures !ok ==> SameMaps(old(vm.mem), old(vm.use), vm.mem) && OnlyNewTables(old(vm.use), vm.use, r)
    ensures !ok ==> KeepsData(old(vm.mem), old(vm.use), vm.mem)
  {
    ghost var mem0, use0 := vm.mem, vm.use;
    var a := Pages(oldsz);
    if newsz < oldsz {
      return true, oldsz;
    }
    var v := a;
    while v * PGSIZE < newsz
      invariant a <= v <= TRAPFRAME && (v == a || (v - 1) * PGSIZE < newsz)
      invariant vm.Stable() && IsRoot(vm.use, r)
      invariant UserMem(vm.mem, r, v)
      invariant Grown(mem0, use0, vm.mem, vm.use, r, a, v)
      invariant ZeroPages(vm.mem, r, a, v, 19 + xperm)
      decreases TRAPFRAME - v
    {
      ghost var mem1, use1 := vm.mem, vm.use;
      var more := GrowPage(vm, r, v, xperm, a);
      GrownStep(mem0, use0, mem1, use1, vm.mem, vm.use, r, a, v, more);
      if !more {
        Rollback(vm, r, mem0, use0, a, v);
        return false, 0;
      }
      v := v + 1;
    }
    ok, sz := true, newsz;
  }

  // One iteration of uvmalloc.
  method GrowPage(vm: Vm, r: nat, v: nat, xperm: nat, ghost a: nat) returns (ok: bool)
    requires vm.Stable() && IsRoot(vm.use, r) && vm.hi <= TRAPFRAME
    requires UserMem(vm.mem, r, v) && a <= v && ZeroPages(vm.mem, r, a, v, 19 + xperm)
    requires xperm == 0 || xperm == 4 || xperm == 8 || xperm == 12
    modifies vm
    ensures vm.Stable() && IsRoot(vm.use, r) && v < TRAPFRAME
    ensures UserMem(vm.mem, r, if ok then v + 1 else v)
    ensures ok ==> ZeroPages(vm.mem, r, a, v + 1, 19 + xperm)
    ensures Grown(old(vm.mem), old(vm.use), vm.mem, vm.use, r, v, if ok then v + 1 else v)
  {
    ghost var mem0, use0 := vm.mem, vm.use;
    NextIsFree(mem0, use0, r, v);
    var p := vm.AllocAndMap(r, v, 18 + xperm, ZeroPage());
    ok := p != 0;
    if ok {
      GrowDone(mem0, use0, vm.mem, vm.use, r, a, v, p, 18 + xperm);
    } else {
      GrowFailed(mem0, use0, vm.mem, vm.use, r, v);
    }
  }

  // The page after the last one is below the trapframe and not mapped.
  lemma NextIsFree(mem: seq<Page>, use: seq<Use>, r: nat, v: nat)
    requires Whole(mem, use) && IsRoot(use, r) && UserMem(mem, r, v) && |use| <= TRAPFRAME
    ensures v < TRAPFRAME && !V(Entry(mem, r, v))
  {
    FewerThanPages(mem, use, r, v);
    assert V(Entry(mem, r, v)) <==> v < v;
  }

  lemma GrowFailed(mem: seq<Page>, use: seq<Use>, mem': seq<Page>, use': seq<Use>, r: nat, v: nat)
    requires IsRoot(use, r) && UserMem(mem, r, v) && |mem| == |use|
    requires SameMaps(mem, use, mem') && OnlyNewTables(use, use', r) && KeepsData(mem, use, mem')
    ensures UserMem(mem', r, v) && Grown(mem, use, mem', use', r, v, v)
  {
    assert Grown(mem, use, mem, use, r, v, v);
    GrownSame(mem, use, mem, use, mem', use', r, v, v);
    UserMemSame(mem, use, mem', r, v);
  }

  lemma GrowDone(mem: seq<Page>, use: seq<Use>, mem': seq<Page>, use': seq<Use>, r: nat, a: nat, v: nat, p: nat, perm: nat)
    requires Whole(mem, use) && IsRoot(use, r) && UserMem(mem, r, v) && a <= v < TRAPFRAME
    requires perm % 2 == 0 && perm < 1023 && ZeroPages(mem, r, a, v, perm + 1)
    requires 0 < p < |use'| == |use| && use[p] == Free && use'[p].User? && use'[p].root == r && use'[p].va == Split(v)
    requires OnlyNewTables(use, use'[p := Free], r) && KeepsData(mem, use, mem') && mem'[p] == ZeroPage()
    requires NewMap(mem, use, mem', r, Split(v), Pte(p, WithV(perm)))
    ensures UserMem(mem', r, v + 1) && ZeroPages(mem', r, a, v + 1, perm + 1) && Grown(mem, use, mem', use', r, v, v + 1)
  {
    PteParts(p, perm);
    assert Grown(mem, use, mem, use, r, v, v);
    GrownThen(mem, use, mem, use, mem', use', r, v, v, p, Pte(p, WithV(perm)));
    UserMemThen(mem, use, mem', r, v, Pte(p, WithV(perm)));
    ZeroPagesThen(mem, use, mem', r, a, v, p, perm + 1);
  }

  // uvmdealloc(pagetable, a, oldsz) on the error paths.
  method Rollback(vm: Vm, r: nat, ghost mem0: seq<Page>, ghost use0: seq<Use>, a: nat, v: nat)
    requires vm.Stable() && IsRoot(vm.use, r) && Whole(mem0, use0) && IsRoot(use0, r)
    requires a <= v && UserMem(mem0, r, a) && UserMem(vm.mem, r, v) && Grown(mem0, use0, vm.mem, vm.use, r, a, v)
    modifies vm
    ensures vm.Stable() && IsRoot(vm.use, r)
    ensures SameMaps(mem0, use0, vm.mem) && OnlyNewTables(use0, vm.use, r) && KeepsData(mem0, use0, vm.mem)
  {
    ghost var mem1, use1 := vm.mem, vm.use;
    UserMemPresent(vm.mem, r, v, a);
    var ok := vm.Uvmunmap(r, a, v - a, true);
    Undone(mem0, use0, mem1, use1, vm.mem, vm.use, r, a, v);
  }

  // ------------------------------------------------------------------
  // Copying
  // ------------------------------------------------------------------

  // The first n pages of c have the permissions and the contents of those of r.
  ghost predicate Copied(mem: seq<Page>, r: nat, c: nat, n: nat) {
    forall v :: 0 <= v < n ==>
      && Flags(Entry(mem, c, v)) == Flags(Entry(mem, r, v))
      && InMem(mem, PageAt(mem, c, v)) && InMem(mem, PageAt(mem, r, v))
      && mem[PageAt(mem, c, v)] == mem[PageAt(mem, r, v)]
  }

  lemma CopiedThen(mem: seq<Page>, use: seq<Use>, mem': seq<Page>, r: nat, c: nat, n: nat, p: nat, flags: nat)
    requires Whole(mem, use) && IsRoot(use, r) && IsRoot(use, c) && r != c && n < TRAPFRAME && flags < 1024
    requires UserMem(mem, c, n) && AllPresent(mem, r, 0, n + 1) && Copied(mem, r, c, n)
    requires NewMap(mem, use, mem', c, Split(n), Pte(p, flags)) && KeepsData(mem, use, mem')
    requires 0 < p < |mem'| && IsPage(mem'[p]) && flags == Flags(Entry(mem, r, n))
    requires InMem(mem, PageAt(mem, r, n)) && mem'[p] == mem[PageAt(mem, r, n)]
    ensures Copied(mem', r, c, n + 1)
  {
    forall v | 0 <= v < n + 1
      ensures Flags(Entry(mem', c, v)) == Flags(Entry(mem', r, v))
      ensures InMem(mem', PageAt(mem', c, v)) && InMem(mem', PageAt(mem', r, v))
      ensures mem'[PageAt(mem', c, v)] == mem'[PageAt(mem', r, v)]
    {
      assert V(Entry(mem, r, v));
      UserPage(mem, use, r, v);
      assert Lookup(mem', r, Split(v)) == Lookup(mem, r, Split(v));
      assert Lookup(mem', c, Split(v)) == if Split(v) == Split(n) then Pte(p, flags) else Lookup(mem, c, Split(v));
      if v < n {
        assert V(Entry(mem, c, v)) <==> v < n;
        UserPage(mem, use, c, v);
      }
    }
  }

  lemma FlagsOf(e: int)
    requires V(e) && Leafy(e)
    ensures 0 <= Flags(e) < 1024 && Leafy(Flags(e)) && WithV(Flags(e)) == Flags(e)
  {
    var q, f := e / 1024, e % 1024;
    var h := f / 2;
    LowBits(q, h, f - 2 * h);
  }

  lemma LowBits(q: int, h: int, b: int)
    requires 0 <= b < 2
    ensures (1024 * q + 2 * h + b) % 2 == b && (1024 * q + 2 * h + b) / 2 == 512 * q + h && (512 * q + h) % 8 == h % 8
  {
    var n := 64 * q;
    assert (8 * n + h) % 8 == h % 8;
  }

  // fork's copy of the parent's memory.  Either the child has all of it, or it has none.
  method Uvmcopy(vm: Vm, r: nat, c: nat, sz: nat) returns (ok: bool)
    requires vm.Stable() && IsRoot(vm.use, r) && IsRoot(vm.use, c) && r != c && vm.hi <= TRAPFRAME
    requires UserMem(vm.mem, r, Pages(sz)) && UserMem(vm.mem, c, 0)
    modifies vm
    ensures vm.Stable() && IsRoot(vm.use, r) && IsRoot(vm.use, c)
    ensures UserMem(vm.mem, r, Pages(sz))
    ensures ok ==> UserMem(vm.mem, c, Pages(sz)) && Copied(vm.mem, r, c, Pages(sz))
    ensures ok ==> Grown(old(vm.mem), old(vm.use), vm.mem, vm.use, c, 0, Pages(sz))
    ensures !ok ==> SameMaps(old(vm.mem), old(vm.use), vm.mem) && OnlyNewTables(old(vm.use), vm.use, c)
    ensures !ok ==> KeepsData(old(vm.mem), old(vm.use), vm.mem)
  {
    ghost var mem0, use0 := vm.mem, vm.use;
    ghost var n := Pages(sz);
    var v := 0;
    while v * PGSIZE < sz
      invariant 0 <= v <= n
      invariant vm.Stable() && IsRoot(vm.use, r) && IsRoot(vm.use, c)
      invariant UserMem(vm.mem, r, n) && UserMem(vm.mem, c, v)
      invariant Grown(mem0, use0, vm.mem, vm.use, c, 0, v)
      invariant Copied(vm.mem, r, c, v)
      decreases n - v
    {
      ghost var mem1, use1 := vm.mem, vm.use;
      var ok1 := CopyPage(vm, r, c, v, n);
      GrownStep(mem0, use0, mem1, use1, vm.mem, vm.use, c, 0, v, ok1);
      if !ok1 {
        Rollback(vm, c, mem0, use0, 0, v);
        UserMemSame(mem0, use0, vm.mem, r, n);
        return false;
      }
      v := v + 1;
    }
    ok := true;
  }

  lemma GrownStep(mem: seq<Page>, use: seq<Use>, mem1: seq<Page>, use1: seq<Use>, mem2: seq<Page>, use2: seq<Use>,
                  c: nat, a: nat, v: nat, ok: bool)
    requires a <= v && Grown(mem, use, mem1, use1, c, a, v)
    requires Grown(mem1, use1, mem2, use2, c, v, if ok then v + 1 else v)
    ensures Grown(mem, use, mem2, use2, c, a, if ok then v + 1 else v)
  {
    GrownRoots(mem, use, mem1, use1, c, a, v);
    var w := if ok then v + 1 else v;
    forall q, y | IsRoot(use, q) && GoodVa(y) && !(q == c && InRange(y, a, w - a))
      ensures Lookup(mem2, q, y) == Lookup(mem, q, y)
    {
      assert Lookup(mem1, q, y) == Lookup(mem, q, y);
    }
  }

  // One iteration of uvmcopy; the panics on a missing page cannot happen.
  method CopyPage(vm: Vm, r: nat, c: nat, v: nat, ghost n: nat) returns (ok: bool)
    requires vm.Stable() && IsRoot(vm.use, r) && IsRoot(vm.use, c) && r != c
    requires v < n && UserMem(vm.mem, r, n) && UserMem(vm.mem, c, v) && Copied(vm.mem, r, c, v)
    modifies vm
    ensures vm.Stable() && IsRoot(vm.use, r) && IsRoot(vm.use, c)
    ensures UserMem(vm.mem, r, n) && UserMem(vm.mem, c, if ok then v + 1 else v)
    ensures ok ==> Copied(vm.mem, r, c, v + 1)
    ensures Grown(old(vm.mem), old(vm.use), vm.mem, vm.use, c, v, if ok then v + 1 else v)
  {
    ghost var mem0, use0 := vm.mem, vm.use;
    assert V(Entry(vm.mem, r, v)) <==> v < n;
    assert V(Entry(vm.mem, c, v)) <==> v < v;
    UserPage(vm.mem, vm.use, r, v);
    WalkUse(vm.mem, vm.use, r, Split(v));
    var panicked, t := vm.Walk(r, v, false);
    var pte := vm.mem[t][Px(0, v)];
    assert pte == Entry(vm.mem, r, v);
    FlagsOf(pte);
    var pa := Ppn(pte);
    assert Grown(mem0, use0, mem0, use0, c, v, v);
    var p := vm.AllocAndMap(c, v, Flags(pte), vm.mem[pa]);
    if p == 0 {
      GrownSame(mem0, use0, mem0, use0, vm.mem, vm.use, c, v, v);
      UserMemSame(mem0, use0, vm.mem, r, n);
      UserMemSame(mem0, use0, vm.mem, c, v);
      return false;
    }
    PteParts(p, Flags(pte));
    GrownThen(mem0, use0, mem0, use0, vm.mem, vm.use, c, v, v, p, Pte(p, Flags(pte)));
    UserMemThen(mem0, use0, vm.mem, c, v, Pte(p, Flags(pte)));
    UserMemOther(mem0, use0, vm.mem, r, n, c, Split(v), Pte(p, Flags(pte)));
    UserMemPresent(mem0, r, n, 0);
    CopiedThen(mem0, use0, vm.mem, r, c, v, p, Flags(pte));
    ok := true;
  }

  lemma UserMemOther(mem: seq<Page>, use: seq<Use>, mem': seq<Page>, r: nat, n: nat, c: nat, x: Va, e: int)
    requires IsRoot(use, r) && r != c && UserMem(mem, r, n) && NewMap(mem, use, mem', c, x, e)
    ensures UserMem(mem', r, n)
  {
    forall v | 0 <= v < TRAPFRAME
      ensures V(Entry(mem', r, v)) <==> v < n
    {
      assert V(Entry(mem, r, v)) <==> v < n;
      assert Lookup(mem', r, Split(v)) == Lookup(mem, r, Split(v));
    }
  }
}
