/**
  The code of kernel/kalloc.c and kernel/vm.c over the memory of PageTable.

  Addresses are page numbers and 0 is the null pointer.  Panics are results, so that the
  contracts can say when they cannot happen.
 */
module VmCode {
  import opened PageTable

  // The words kfree and kalloc fill a page with.
  function Junk(b: int): (p: Page)
    ensures IsPage(p)
  {
    seq(PTES, _ => b)
  }

  // No page table that existed before translates anything differently.
  ghost predicate SameMaps(mem: seq<Page>, use: seq<Use>, mem': seq<Page>) {
    forall r, x {:trigger Lookup(mem', r, x)} ::
      IsRoot(use, r) && GoodVa(x) ==> Lookup(mem', r, x) == Lookup(mem, r, x)
  }

  // Some free pages have become tables of root r; nothing else has changed hands.
  predicate OnlyNewTables(use: seq<Use>, use': seq<Use>, r: nat) {
    && |use'| == |use|
    && forall p :: 0 <= p < |use| ==>
         use'[p] == use[p] || (use[p] == Free && use'[p].Table? && use'[p].root == r && use'[p].level < 2)
  }

  // Pages handed out before keep their contents.
  predicate KeepsData(mem: seq<Page>, use: seq<Use>, mem': seq<Page>) {
    && |mem'| == |mem| == |use|
    && forall p :: 0 <= p < |use| && !use[p].Table? && use[p] != Free ==> mem'[p] == mem[p]
  }

  function NextFree(free: seq<nat>, i: nat): nat {
    if i + 1 < |free| then free[i + 1] else 0
  }

  // The free list threads through the first words of its pages.
  predicate FreeList(mem: seq<Page>, use: seq<Use>, head: int, free: seq<nat>) {
    && |mem| == |use|
    && head == (if free == [] then 0 else free[0])
    && (forall i :: 0 <= i < |free| ==> 0 < free[i] < |use| && use[free[i]] == Free)
    && (forall i, j :: 0 <= i < j < |free| ==> free[i] != free[j])
    && (forall p {:trigger p in free} :: 0 <= p < |use| && use[p] == Free ==> p in free)
    && (forall i :: 0 <= i < |free| ==> IsPage(mem[free[i]]))
    && (forall i {:trigger NextFree(free, i)} :: 0 <= i < |free| ==> mem[free[i]][0] == NextFree(free, i))
  }

  lemma FreePush(mem: seq<Page>, use: seq<Use>, head: int, free: seq<nat>, p: nat, page: Page)
    requires FreeList(mem, use, head, free) && 0 < p < |use| && use[p] == Loose && IsPage(page) && page[0] == head
    ensures FreeList(mem[p := page], use[p := Free], p, [p] + free)
  {
    var f := [p] + free;
    assert forall i :: 1 <= i < |f| ==> f[i] == free[i - 1];
    forall i | 0 <= i < |f|
      ensures mem[p := page][f[i]][0] == NextFree(f, i)
    {
      if i > 0 {
        assert mem[free[i - 1]][0] == NextFree(free, i - 1);
      }
    }
    forall q | 0 <= q < |use| && use[p := Free][q] == Free
      ensures q in f
    {
      assert q == p || q in free;
    }
  }

  lemma FreePop(mem: seq<Page>, use: seq<Use>, head: int, free: seq<nat>, page: Page)
    requires FreeList(mem, use, head, free) && free != [] && IsPage(page)
    ensures FreeList(mem[head := page], use[head := Loose], mem[head][0], free[1..])
  {
    var f := free[1..];
    assert forall i :: 0 <= i < |f| ==> f[i] == free[i + 1];
    assert mem[free[0]][0] == NextFree(free, 0);
    forall i | 0 <= i < |f|
      ensures mem[head := page][f[i]][0] == NextFree(f, i)
    {
      assert mem[free[i + 1]][0] == NextFree(free, i + 1);
    }
    forall q | 0 <= q < |use| && use[q] == Free && q != head
      ensures q in f
    {
      assert q in free;
      var i :| 0 <= i < |free| && free[i] == q;
      assert f[i - 1] == q;
    }
  }

  lemma SameRoots(use: seq<Use>, p: nat, u: Use)
    requires p < |use| && !(use[p].Table? && use[p].level == 2) && !(u.Table? && u.level == 2)
    ensures Roots(use[p := u]) == Roots(use)
    ensures forall r :: IsRoot(use[p := u], r) <==> IsRoot(use, r)
  {
  }

  lemma FrameMaps(mem: seq<Page>, use: seq<Use>, mem': seq<Page>)
    requires Whole(mem, use) && |mem'| == |mem|
    requires forall p :: 0 <= p < |use| && use[p].Table? ==> mem'[p] == mem[p]
    ensures SameMaps(mem, use, mem')
  {
    forall r, x | IsRoot(use, r) && GoodVa(x)
      ensures Lookup(mem', r, x) == Lookup(mem, r, x)
    {
      LookupFrame(mem, mem', use, r, x);
    }
  }

  lemma SameMapsTrans(mem: seq<Page>, use: seq<Use>, mem1: seq<Page>, use1: seq<Use>, mem2: seq<Page>)
    requires SameMaps(mem, use, mem1) && SameMaps(mem1, use1, mem2)
    requires forall r :: IsRoot(use, r) ==> IsRoot(use1, r)
    ensures SameMaps(mem, use, mem2)
  {
  }

  // Writes outside the free list leave it alone.
  lemma FreeFrame(mem: seq<Page>, use: seq<Use>, head: int, free: seq<nat>, mem': seq<Page>, use': seq<Use>)
    requires FreeList(mem, use, head, free) && |mem'| == |use'| == |mem|
    requires forall p :: 0 <= p < |use| ==> (use'[p] == Free <==> use[p] == Free)
    requires forall p :: 0 <= p < |use| && use[p] == Free ==> mem'[p] == mem[p]
    ensures FreeList(mem', use', head, free)
  {
    forall i | 0 <= i < |free|
      ensures mem'[free[i]][0] == NextFree(free, i)
    {
      assert mem[free[i]][0] == NextFree(free, i);
    }
  }

  // A zeroed page hung into a table: still whole, same translations, same free list.
  lemma AddTable(mem: seq<Page>, use: seq<Use>, head: int, free: seq<nat>, t: nat, i: nat, c: nat)
    requires Whole(mem, use) && FreeList(mem, use, head, free)
    requires t < |use| && i < PTES && use[t].Table? && use[t].level > 0 && mem[t][i] == 0
    requires use[t].level == 2 ==> i < 256
    requires 0 < c < |use| && use[c] == Loose
    ensures
      var mem' := SetEntry(mem[c := ZeroPage()], t, i, Pte(c, 1));
      var use' := use[c := ChildUse(use[t], t, i)];
      Whole(mem', use') && SameMaps(mem, use, mem') && FreeList(mem', use', head, free)
  {
    var mem1 := mem[c := ZeroPage()];
    PlainUpdate(mem, use, Roots(use), {}, c, ZeroPage(), Loose);
    assert use[c := Loose] == use;
    FrameMaps(mem, use, mem1);
    PteParts(c, 1);
    Hang(mem1, use, Roots(use), {}, t, i, c, Pte(c, 1));
    var mem' := SetEntry(mem1, t, i, Pte(c, 1));
    var use' := use[c := ChildUse(use[t], t, i)];
    SameRoots(use, c, ChildUse(use[t], t, i));
    forall r, x | IsRoot(use, r) && GoodVa(x)
      ensures Lookup(mem', r, x) == Lookup(mem, r, x)
    {
      AddTableLookup(mem1, use, t, i, c, r, x);
      assert Lookup(mem1, r, x) == Lookup(mem, r, x);
    }
    FreeFrame(mem, use, head, free, mem', use');
  }

  // PX(level, va)
  function Px(level: nat, v: nat): (i: nat)
    requires level <= 2
    ensures i < PTES
  {
    if level == 2 then (v / 0x4_0000) % 512 else if level == 1 then (v / 512) % 512 else v % 512
  }

  // The last-level table for x under r.
  predicate IsLast(u: Use, r: nat, x: Va) {
    u.Table? && u.root == r && u.level == 0 && u.a == x.a && u.b == x.b
  }

  datatype MapResult = Mapped | NoMemory | MapPanic

  // The translation of one page of one table has become e, and no other has changed.
  ghost predicate NewMap(mem: seq<Page>, use: seq<Use>, mem': seq<Page>, r: nat, x: Va, e: int) {
    forall q, y {:trigger Lookup(mem', q, y)} ::
      IsRoot(use, q) && GoodVa(y) ==> Lookup(mem', q, y) == if q == r && y == x then e else Lookup(mem, q, y)
  }

  lemma ComposeMap(mem: seq<Page>, use: seq<Use>, mem1: seq<Page>, use1: seq<Use>, mem2: seq<Page>, r: nat, x: Va, e: int)
    requires SameMaps(mem, use, mem1) && NewMap(mem1, use1, mem2, r, x, e)
    requires forall q :: IsRoot(use, q) ==> IsRoot(use1, q)
    ensures NewMap(mem, use, mem2, r, x, e)
  {
  }

  lemma LookupNone(mem: seq<Page>, use: seq<Use>, r: nat, x: Va)
    requires Whole(mem, use) && IsRoot(use, r) && GoodVa(x)
    ensures Last(mem, r, x) == 0 ==> Lookup(mem, r, x) == 0
  {
  }

  // A page is mapped at an empty entry of a last-level table.
  lemma MapOne(mem: seq<Page>, use: seq<Use>, head: int, free: seq<nat>, t: nat, i: nat, p: nat, perm: nat)
    requires Whole(mem, use) && FreeList(mem, use, head, free) && perm < 1024 && Leafy(perm)
    requires t < |use| && i < PTES && use[t].Table? && use[t].level == 0 && mem[t][i] == 0 && 0 < p < |use|
    requires !Special(Va(use[t].a, use[t].b, i)) ==> use[p] == Loose
    ensures
      var x := Va(use[t].a, use[t].b, i);
      var e := Pte(p, WithV(perm));
      var mem' := SetEntry(mem, t, i, e);
      var use' := if Special(x) then use else use[p := User(use[t].root, x, t)];
      Whole(mem', use') && NewMap(mem, use, mem', use[t].root, x, e) && FreeList(mem', use', head, free)
  {
    var x := Va(use[t].a, use[t].b, i);
    var e := Pte(p, WithV(perm));
    var mem' := SetEntry(mem, t, i, e);
    var use' := if Special(x) then use else use[p := User(use[t].root, x, t)];
    PteParts(p, perm);
    if Special(x) {
      MapSpecial(mem, use, Roots(use), {}, t, i, e);
    } else {
      Hang(mem, use, Roots(use), {}, t, i, p, e);
      SameRoots(use, p, User(use[t].root, x, t));
    }
    forall q, y | IsRoot(use, q) && GoodVa(y)
      ensures Lookup(mem', q, y) == if q == use[t].root && y == x then e else Lookup(mem, q, y)
    {
      SetLastEntry(mem, use, t, i, e, q, y);
    }
    FreeFrame(mem, use, head, free, mem', use');
  }

  // A user page that hangs at entry i of table t is the one the entry points to.
  lemma OnlyPageThere(mem: seq<Page>, use: seq<Use>, t: nat, i: nat)
    requires Whole(mem, use) && t < |use| && i < PTES && use[t].Table? && use[t].level == 0
    ensures forall q :: 0 <= q < |use| && use[q] == ChildUse(use[t], t, i) ==>
      PointsTo(mem, t, i, q) && !Special(Va(use[t].a, use[t].b, i))
  {
    forall q | 0 <= q < |use| && use[q] == ChildUse(use[t], t, i)
      ensures PointsTo(mem, t, i, q) && !Special(Va(use[t].a, use[t].b, i))
    {
      assert PageOk(mem, use, Roots(use), q);
    }
  }

  // Clearing the entry of a user page, whatever has become of the page itself.
  lemma UnmapMaps(mem: seq<Page>, use: seq<Use>, t: nat, i: nat, p: nat, mem': seq<Page>)
    requires Whole(mem, use) && |mem'| == |mem| && t < |use| && i < PTES && use[t].Table? && use[t].level == 0
    requires p < |use| && use[p] == ChildUse(use[t], t, i)
    requires Whole(mem', use[p := Free])
    requires mem'[t] == mem[t][i := 0]
    requires forall q :: 0 <= q < |use| && use[q].Table? && q != t ==> mem'[q] == mem[q]
    ensures NewMap(mem, use, mem', use[t].root, Va(use[t].a, use[t].b, i), 0)
  {
    var mem1 := SetEntry(mem, t, i, 0);
    var use1 := use[p := Free];
    forall q, y | IsRoot(use, q) && GoodVa(y)
      ensures Lookup(mem', q, y) == if q == use[t].root && y == Va(use[t].a, use[t].b, i) then 0 else Lookup(mem, q, y)
    {
      SetLastEntry(mem, use, t, i, 0, q, y);
      assert IsRoot(use1, q);
      LookupFrame(mem', mem1, use1, q, y);
    }
  }

  // The entry of virtual page v under r; 0 when there is none.
  function Entry(mem: seq<Page>, r: nat, v: nat): int {
    if v < MAXVPN then Lookup(mem, r, Split(v)) else 0
  }

  // Virtual page v has a valid entry under r.
  predicate Present(mem: seq<Page>, r: nat, v: nat) {
    V(Entry(mem, r, v))
  }

  predicate InRange(x: Va, v: nat, n: nat) {
    v <= Join(x) < v + n
  }

  // The n pages from v have lost their entries under r, and no other translation has changed.
  ghost predicate Cleared(mem: seq<Page>, use: seq<Use>, mem': seq<Page>, r: nat, v: nat, n: nat) {
    forall q, y {:trigger Lookup(mem', q, y)} :: IsRoot(use, q) && GoodVa(y) ==>
      Lookup(mem', q, y) == if q == r && InRange(y, v, n) then 0 else Lookup(mem, q, y)
  }

  // The user pages among them are free, and no other page has changed hands.
  predicate UsesCleared(use: seq<Use>, use': seq<Use>, r: nat, v: nat, n: nat) {
    && |use'| == |use|
    && forall p {:trigger use'[p]} :: 0 <= p < |use| ==>
         use'[p] == if use[p].User? && use[p].root == r && InRange(use[p].va, v, n) then Free else use[p]
  }

  // Pages that are user pages, or loose, before and after keep their contents.
  predicate DataKept(mem: seq<Page>, use: seq<Use>, mem': seq<Page>, use': seq<Use>) {
    && |mem'| == |mem| == |use| == |use'|
    && forall p {:trigger mem'[p]} :: 0 <= p < |use| && !use[p].Table? && use[p] != Free && use'[p] == use[p] ==> mem'[p] == mem[p]
  }

  // Two virtual pages with the same number are the same.
  lemma JoinInj(x: Va, y: Va)
    requires GoodVa(x) && GoodVa(y) && Join(x) == Join(y)
    ensures x == y
  {
  }

  // The user page at v is the only page used for v.
  lemma UserAt(mem: seq<Page>, use: seq<Use>, r: nat, v: nat)
    requires Whole(mem, use) && IsRoot(use, r) && v < MAXVPN
    ensures forall p :: 0 <= p < |use| && use[p].User? && use[p].root == r && Join(use[p].va) == v ==>
      Present(mem, r, v) && p == Ppn(Lookup(mem, r, Split(v)))
  {
    forall p | 0 <= p < |use| && use[p].User? && use[p].root == r && Join(use[p].va) == v
      ensures Present(mem, r, v) && p == Ppn(Lookup(mem, r, Split(v)))
    {
      assert PageOk(mem, use, Roots(use), p);
      assert PageOk(mem, use, Roots(use), use[p].table);
      JoinInj(use[p].va, Split(v));
      LastIs(mem, use, use[p].table, use[p].va.c);
    }
  }

  lemma ClearedOne(mem: seq<Page>, use: seq<Use>, mem': seq<Page>, r: nat, v: nat)
    requires v < MAXVPN && NewMap(mem, use, mem', r, Split(v), 0)
    ensures Cleared(mem, use, mem', r, v, 1)
  {
    forall q, y | IsRoot(use, q) && GoodVa(y)
      ensures Lookup(mem', q, y) == if q == r && InRange(y, v, 1) then 0 else Lookup(mem, q, y)
    {
      if Join(y) == v {
        JoinInj(y, Split(v));
      }
    }
  }

  lemma UsesClearedOne(mem: seq<Page>, use: seq<Use>, r: nat, v: nat, p: nat)
    requires Whole(mem, use) && IsRoot(use, r) && v < MAXVPN && p < |use|
    requires use[p].User? && use[p].root == r && use[p].va == Split(v) && p == Ppn(Lookup(mem, r, Split(v)))
    ensures UsesCleared(use, use[p := Free], r, v, 1)
  {
    UserAt(mem, use, r, v);
  }

  lemma SpecialIs(v: nat)
    requires v < MAXVPN
    ensures Special(Split(v)) <==> v == TRAMPOLINE || v == TRAPFRAME
  {
  }

  lemma ClearedPresent(mem: seq<Page>, use: seq<Use>, mem': seq<Page>, r: nat, v: nat, k: nat, a: nat)
    requires Cleared(mem, use, mem', r, v, k) && IsRoot(use, r) && a >= v + k
    ensures Present(mem', r, a) == Present(mem, r, a)
  {
    if a < MAXVPN {
      assert Lookup(mem', r, Split(a)) == Lookup(mem, r, Split(a));
    }
  }

  // Everything uvmunmap does.
  ghost predicate Unmapped(mem: seq<Page>, use: seq<Use>, mem': seq<Page>, use': seq<Use>, r: nat, v: nat, n: nat, doFree: bool) {
    && Cleared(mem, use, mem', r, v, n)
    && UsesCleared(use, use', r, v, if doFree then n else 0)
    && DataKept(mem, use, mem', use')
  }

  ghost predicate AllPresent(mem: seq<Page>, r: nat, v: nat, n: nat) {
    forall a {:trigger Entry(mem, r, a)} :: v <= a < v + n ==> V(Entry(mem, r, a))
  }

  lemma PresentThen(mem: seq<Page>, use: seq<Use>, mem': seq<Page>, r: nat, v: nat, k: nat)
    requires AllPresent(mem, r, v, k) && Cleared(mem, use, mem', r, v, k) && IsRoot(use, r)
    ensures Present(mem', r, v + k) <==> Present(mem, r, v + k)
    ensures Present(mem', r, v + k) <==> AllPresent(mem, r, v, k + 1)
  {
    ClearedPresent(mem, use, mem', r, v, k, v + k);
    if AllPresent(mem, r, v, k + 1) {
      assert V(Entry(mem, r, v + k));
    }
  }

  lemma UnmappedThen(mem: seq<Page>, use: seq<Use>, mem1: seq<Page>, use1: seq<Use>, mem2: seq<Page>, use2: seq<Use>,
                     r: nat, v: nat, k: nat, doFree: bool)
    requires Unmapped(mem, use, mem1, use1, r, v, k, doFree)
    requires Unmapped(mem1, use1, mem2, use2, r, v + k, 1, doFree)
    ensures Unmapped(mem, use, mem2, use2, r, v, k + 1, doFree)
  {
  }

  class Vm {
    var mem: seq<Page>
    var freelist: int          // kmem.freelist
    const lo: nat              // first page after the kernel
    const hi: nat              // PHYSTOP / PGSIZE
    ghost var use: seq<Use>
    ghost var free: seq<nat>
    ghost var detached: set<nat>
    ghost var holes: set<(nat, nat)>

    ghost predicate Valid()
      reads this
    {
      && 1 <= lo <= hi == |mem| == |use|
      && Inv(mem, use, detached, holes)
      && FreeList(mem, use, freelist, free)
      && (forall p :: 0 <= p < hi ==> (use[p] == Reserved <==> p < lo))
    }

    // Nothing is being taken apart.
    ghost predicate Stable()
      reads this
    {
      Valid() && detached == Roots(use) && holes == {}
    }

    // kinit: every page from lo to hi is put on the free list.
    constructor (lo: nat, hi: nat)
      requires 1 <= lo <= hi
      ensures Stable() && this.lo == lo && this.hi == hi
      ensures |free| == hi - lo && forall p :: lo <= p < hi ==> use[p] == Free
    {
      this.lo, this.hi := lo, hi;
      mem := seq(hi, _ => ZeroPage());
      freelist := 0;
      use := seq(hi, i => if i < lo then Reserved else Loose);
      free := [];
      detached := {};
      holes := {};
      new;
      // freerange
      var p := lo;
      while p < hi
        invariant lo <= p <= hi && this.lo == lo && this.hi == hi
        invariant Valid() && detached == {} && holes == {} && |free| == p - lo
        invariant forall q :: lo <= q < p ==> use[q] == Free
        invariant forall q :: p <= q < hi ==> use[q] == Loose
      {
        var panicked := Kfree(p);
        p := p + 1;
      }
      assert Roots(use) == {};
    }

    method Kfree(p: int) returns (panicked: bool)
      requires Valid() && (lo <= p < hi ==> use[p] == Loose)
      modifies this
      ensures Valid() && detached == old(detached) && holes == old(holes)
      ensures panicked == !(lo <= p < hi)
      ensures if panicked then mem == old(mem) && use == old(use) && free == old(free)
              else use == old(use)[p := Free] && free == [p] + old(free) && |mem| == |old(mem)|
                   && forall q :: 0 <= q < hi && q != p ==> mem[q] == old(mem)[q]
    {
      if p < lo || p >= hi {
        return true;
      }
      PlainUpdate(mem, use, detached, holes, p, Junk(1)[0 := freelist], Free);
      FreePush(mem, use, freelist, free, p, Junk(1)[0 := freelist]);
      mem := mem[p := Junk(1)];
      mem := mem[p := mem[p][0 := freelist]];
      freelist := p;
      use := use[p := Free];
      free := [p] + free;
      panicked := false;
      assert mem == old(mem)[p := Junk(1)[0 := old(freelist)]];
    }

    method Kalloc() returns (p: int)
      requires Valid()
      modifies this
      ensures Valid() && detached == old(detached) && holes == old(holes)
      ensures p == 0 <==> old(free) == []
      ensures p == 0 ==> mem == old(mem) && use == old(use) && free == old(free)
      ensures p != 0 ==> lo <= p < hi && old(use)[p] == Free && use == old(use)[p := Loose] && free == old(free)[1..]
      ensures p != 0 ==> |mem| == |old(mem)| && forall q :: 0 <= q < hi && q != p ==> mem[q] == old(mem)[q]
    {
      p := freelist;
      if p != 0 {
        PlainUpdate(mem, use, detached, holes, p, Junk(5), Loose);
        FreePop(mem, use, freelist, free, Junk(5));
        freelist := mem[p][0];
        mem := mem[p := Junk(5)];
        use := use[p := Loose];
        free := free[1..];
      }
    }

    // walk, for an invalid entry i of table t: allocate a zeroed page and point the entry to it.
    // 0 means out of memory.
    method GrowTable(t: nat, i: nat) returns (c: int)
      requires Stable() && t < hi && i < PTES && use[t].Table? && use[t].level > 0 && mem[t][i] == 0
      requires use[t].level == 2 ==> i < 256
      modifies this
      ensures Stable()
      ensures c == 0 <==> old(free) == []
      ensures c == 0 ==> mem == old(mem) && use == old(use) && free == old(free)
      ensures c != 0 ==> 0 < c < hi && use == old(use)[c := ChildUse(old(use)[t], t, i)] && old(use)[c] == Free
      ensures c != 0 ==> free == old(free)[1..]
      ensures SameMaps(old(mem), old(use), mem) && KeepsData(old(mem), old(use), mem)
    {
      c := Kalloc();
      if c == 0 {
        return;
      }
      SameRoots(old(use), c, Loose);
      FrameMaps(old(mem), old(use), mem);
      AddTable(mem, use, freelist, free, t, i, c);
      SameRoots(use, c, ChildUse(use[t], t, i));
      SameMapsTrans(old(mem), old(use), mem, use, SetEntry(mem[c := ZeroPage()], t, i, Pte(c, 1)));
      mem := mem[c := ZeroPage()];
      mem := SetEntry(mem, t, i, Pte(c, 1));
      use := use[c := ChildUse(use[t], t, i)];
    }

    // One level of walk: the table entry i of t points to, added if alloc says so.
    method Descend(t: nat, i: nat, alloc: bool) returns (c: int)
      requires Stable() && t < hi && i < PTES && use[t].Table? && use[t].level > 0
      requires use[t].level == 2 ==> i < 256
      modifies this
      ensures Stable() && use[t] == old(use)[t]
      ensures SameMaps(old(mem), old(use), mem) && OnlyNewTables(old(use), use, use[t].root)
      ensures KeepsData(old(mem), old(use), mem)
      ensures !alloc ==> mem == old(mem) && use == old(use) && free == old(free) && c == Child(mem, t, i)
      ensures c == 0 ==> mem == old(mem) && Child(mem, t, i) == 0 && (alloc ==> free == [])
      ensures c != 0 ==> 0 < c < hi && use[c] == ChildUse(use[t], t, i)
    {
      var pte := mem[t][i];
      assert EntryOk(use, t, i, pte);
      assert PageOk(mem, use, detached, t);
      if V(pte) {
        c := Ppn(pte);
      } else if !alloc {
        c := 0;
      } else {
        c := GrowTable(t, i);
      }
    }

    // The last-level table for virtual page v, or 0; the entry is at index PX(0, va) of it.
    // With alloc, missing tables are added, and 0 means out of memory.
    method Walk(r: nat, v: nat, alloc: bool) returns (panicked: bool, t: int)
      requires Stable() && IsRoot(use, r)
      modifies this
      ensures Stable() && IsRoot(use, r)
      ensures panicked == (v >= MAXVPN)
      ensures SameMaps(old(mem), old(use), mem) && OnlyNewTables(old(use), use, r)
      ensures KeepsData(old(mem), old(use), mem)
      ensures panicked || !alloc ==> mem == old(mem) && use == old(use) && free == old(free)
      ensures !panicked ==> t == Last(mem, r, Split(v))
      ensures !panicked && alloc && t == 0 ==> free == []
      ensures !panicked && t != 0 ==> 0 < t < hi && IsLast(use[t], r, Split(v))
    {
      if v >= MAXVPN {
        return true, 0;
      }
      ghost var x := Split(v);
      panicked, t := false, r;
      var level := 2;
      while level > 0
        invariant 0 <= level <= 2
        invariant Stable() && IsRoot(use, r) && 0 < t < hi && use[t].Table? && use[t].root == r && use[t].level == level
        invariant SameMaps(old(mem), old(use), mem) && OnlyNewTables(old(use), use, r)
        invariant KeepsData(old(mem), old(use), mem)
        invariant !alloc ==> mem == old(mem) && use == old(use) && free == old(free)
        invariant level == 2 ==> t == r
        invariant level == 1 ==> use[t] == Table(r, 1, x.a, 0, r)
        invariant level == 0 ==> IsLast(use[t], r, x)
      {
        ghost var mem1, use1 := mem, use;
        assert PageOk(mem, use, detached, t);
        t := Descend(t, Px(level, v), alloc);
        SameMapsTrans(old(mem), old(use), mem1, use1, mem);
        if t == 0 {
          return;
        }
        level := level - 1;
      }
      LastIs(mem, use, t, x.c);
    }

    // The physical page of user page v, or 0 if it is not mapped for the user.
    method Walkaddr(r: nat, v: nat) returns (pa: int)
      requires Stable() && IsRoot(use, r)
      modifies this
      ensures Stable() && mem == old(mem) && use == old(use) && free == old(free)
      ensures v >= MAXVPN ==> pa == 0
      ensures v < MAXVPN ==>
        var e := Lookup(mem, r, Split(v));
        pa == if V(e) && U(e) then Ppn(e) else 0
    {
      if v >= MAXVPN {
        return 0;
      }
      var panicked, t := Walk(r, v, false);
      WalkUse(mem, use, r, Split(v));
      if t == 0 {
        return 0;
      }
      var pte := mem[t][Px(0, v)];
      if !V(pte) || !U(pte) {
        return 0;
      }
      pa := Ppn(pte);
    }

    // *pte = PA2PTE(pa) | perm | PTE_V, for an entry that is not valid.
    method SetPte(t: nat, i: nat, p: nat, perm: nat)
      requires Stable() && perm < 1024 && Leafy(perm) && 0 < p < hi
      requires t < hi && i < PTES && use[t].Table? && use[t].level == 0 && !V(mem[t][i])
      requires !Special(Va(use[t].a, use[t].b, i)) ==> use[p] == Loose
      modifies this`mem, this`use
      ensures Stable()
      ensures KeepsData(old(mem), old(use), mem)
      ensures
        var x := Va(old(use)[t].a, old(use)[t].b, i);
        && NewMap(old(mem), old(use), mem, old(use)[t].root, x, Pte(p, WithV(perm)))
        && use == if Special(x) then old(use) else old(use)[p := User(old(use)[t].root, x, t)]
    {
      assert EntryOk(use, t, i, mem[t][i]);
      ghost var x := Va(use[t].a, use[t].b, i);
      MapOne(mem, use, freelist, free, t, i, p, perm);
      mem := SetEntry(mem, t, i, Pte(p, WithV(perm)));
      if !Special(x) {
        SameRoots(use, p, User(use[t].root, x, t));
        use := use[p := User(use[t].root, x, t)];
      }
    }

    // mappages for one page.
    method MapPage(r: nat, v: nat, p: nat, perm: nat) returns (res: MapResult)
      requires Stable() && IsRoot(use, r) && perm < 1024 && Leafy(perm) && 0 < p < hi
      requires v < MAXVPN && !Special(Split(v)) ==> use[p] == Loose
      modifies this
      ensures Stable() && IsRoot(use, r)
      ensures res == MapPanic <==> v >= MAXVPN || (V(Lookup(old(mem), r, Split(v))))
      ensures res == MapPanic || res == NoMemory ==>
        SameMaps(old(mem), old(use), mem) && OnlyNewTables(old(use), use, r)
      ensures res == NoMemory ==> free == []
      ensures KeepsData(old(mem), old(use), mem)
      ensures res == Mapped ==> NewMap(old(mem), old(use), mem, r, Split(v), Pte(p, WithV(perm)))
      ensures res == Mapped && !Special(Split(v)) ==>
        use[p].User? && use[p].root == r && use[p].va == Split(v) && OnlyNewTables(old(use), use[p := Loose], r)
      ensures res == Mapped && Special(Split(v)) ==> OnlyNewTables(old(use), use, r)
    {
      var panicked, t := Walk(r, v, true);
      if panicked {
        return MapPanic;
      }
      ghost var x := Split(v);
      assert Lookup(mem, r, x) == Lookup(old(mem), r, x);
      if t == 0 {
        LookupNone(mem, use, r, x);
        return NoMemory;
      }
      var i := Px(0, v);
      assert i == x.c;
      if V(mem[t][i]) {
        return MapPanic;
      }
      ghost var mem1, use1 := mem, use;
      SetPte(t, i, p, perm);
      ComposeMap(old(mem), old(use), mem1, use1, mem, r, x, Pte(p, WithV(perm)));
      assert use[p := Loose] == use1 || Special(x);
      res := Mapped;
    }

    // kfree(pa); *pte = 0, for a mapped user page.
    method FreeUser(t: nat, i: nat)
      requires Stable() && t < hi && i < PTES && use[t].Table? && use[t].level == 0 && V(mem[t][i])
      requires !Special(Va(use[t].a, use[t].b, i))
      modifies this
      ensures Stable()
      ensures
        var x := Va(old(use)[t].a, old(use)[t].b, i);
        var p := Ppn(old(mem)[t][i]);
        && NewMap(old(mem), old(use), mem, old(use)[t].root, x, 0)
        && 0 < p < hi && old(use)[p] == User(old(use)[t].root, x, t)
        && use == old(use)[p := Free] && free == [p] + old(free)
        && (forall q :: 0 <= q < hi && !old(use)[q].Table? && q != p ==> mem[q] == old(mem)[q])
    {
      assert EntryOk(use, t, i, mem[t][i]);
      var p := Ppn(mem[t][i]);
      OnlyPageThere(mem, use, t, i);
      LoosenUser(mem, use, detached, holes, p);
      FreeFrame(mem, use, freelist, free, mem, use[p := Loose]);
      use, holes := use[p := Loose], holes + {(t, i)};
      var panicked := Kfree(p);
      ghost var mem1, use1 := mem, use;
      ClearEntry(mem, use, detached, holes, t, i);
      FreeFrame(mem, use, freelist, free, SetEntry(mem, t, i, 0), use);
      mem := SetEntry(mem, t, i, 0);
      holes := holes - {(t, i)};
      SameRoots(old(use), p, Free);
      assert use == old(use)[p := Free];
      UnmapMaps(old(mem), old(use), t, i, p, mem);
    }

    // *pte = 0, for the trampoline or the trapframe page.
    method ClearSpecial(t: nat, i: nat)
      requires Stable() && t < hi && i < PTES && use[t].Table? && use[t].level == 0
      requires Special(Va(use[t].a, use[t].b, i))
      modifies this`mem
      ensures Stable() && NewMap(old(mem), use, mem, use[t].root, Va(use[t].a, use[t].b, i), 0)
      ensures forall q :: 0 <= q < hi && !use[q].Table? ==> mem[q] == old(mem)[q]
    {
      ghost var x := Va(use[t].a, use[t].b, i);
      OnlyPageThere(mem, use, t, i);
      ClearEntry(mem, use, detached, holes, t, i);
      FreeFrame(mem, use, freelist, free, SetEntry(mem, t, i, 0), use);
      forall q, y | IsRoot(use, q) && GoodVa(y)
        ensures Lookup(SetEntry(mem, t, i, 0), q, y) == if q == use[t].root && y == x then 0 else Lookup(mem, q, y)
      {
        SetLastEntry(mem, use, t, i, 0, q, y);
      }
      mem := SetEntry(mem, t, i, 0);
    }

    // One iteration of uvmunmap.
    method UnmapOne(r: nat, v: nat, doFree: bool) returns (ok: bool)
      requires Stable() && IsRoot(use, r)
      requires v < MAXVPN ==> (doFree <==> !Special(Split(v)))
      modifies this
      ensures ok == Present(old(mem), r, v)
      ensures !ok ==> mem == old(mem) && use == old(use) && free == old(free)
      ensures Stable() && IsRoot(use, r)
      ensures ok ==> Unmapped(old(mem), old(use), mem, use, r, v, 1, doFree)
    {
      var panicked, t := Walk(r, v, false);
      if panicked {
        return false;
      }
      ghost var x := Split(v);
      WalkUse(mem, use, r, x);
      if t == 0 {
        return false;
      }
      var i := Px(0, v);
      assert i == x.c;
      var pte := mem[t][i];
      if !V(pte) {
        return false;
      }
      assert EntryOk(use, t, i, pte);
      if Flags(pte) == 1 {
        assert false;
        return false;
      }
      ok := true;
      if doFree {
        FreeUser(t, i);
        UsesClearedOne(old(mem), old(use), r, v, Ppn(pte));
      } else {
        ClearSpecial(t, i);
      }
      ClearedOne(old(mem), old(use), mem, r, v);
    }

    // One more page of uvmunmap's range, after the first k.
    method UnmapNext(r: nat, v: nat, k: nat, doFree: bool, ghost mem0: seq<Page>, ghost use0: seq<Use>) returns (ok: bool)
      requires Stable() && IsRoot(use, r) && IsRoot(use0, r)
      requires if doFree then v + k < TRAPFRAME else k == 0 && (v == TRAMPOLINE || v == TRAPFRAME)
      requires AllPresent(mem0, r, v, k) && Unmapped(mem0, use0, mem, use, r, v, k, doFree)
      modifies this
      ensures Stable() && IsRoot(use, r)
      ensures ok == Present(mem0, r, v + k)
      ensures ok == AllPresent(mem0, r, v, k + 1)
      ensures ok ==> Unmapped(mem0, use0, mem, use, r, v, k + 1, doFree)
    {
      ghost var mem1, use1 := mem, use;
      SpecialIs(v + k);
      PresentThen(mem0, use0, mem, r, v, k);
      ok := UnmapOne(r, v + k, doFree);
      if ok {
        UnmappedThen(mem0, use0, mem1, use1, mem, use, r, v, k, doFree);
      }
    }

    // Remove the mappings of n pages from v, freeing the memory if doFree says so.
    method Uvmunmap(r: nat, v: nat, n: nat, doFree: bool) returns (ok: bool)
      requires Stable() && IsRoot(use, r)
      requires if doFree then v + n <= TRAPFRAME else n == 1 && (v == TRAMPOLINE || v == TRAPFRAME)
      modifies this
      ensures Stable() && IsRoot(use, r)
      ensures ok <==> AllPresent(old(mem), r, v, n)
      ensures ok ==> Unmapped(old(mem), old(use), mem, use, r, v, n, doFree)
    {
      ghost var mem0, use0 := mem, use;
      var k := 0;
      while k < n
        invariant 0 <= k <= n
        invariant Stable() && IsRoot(use, r)
        invariant AllPresent(mem0, r, v, k) && Unmapped(mem0, use0, mem, use, r, v, k, doFree)
      {
        ok := UnmapNext(r, v, k, doFree, mem0, use0);
        if !ok {
          return;
        }
        k := k + 1;
      }
      ok := true;
    }

    // kalloc a page and fill it.
    method FreshPage(page: Page) returns (p: int)
      requires Stable() && IsPage(page)
      modifies this
      ensures Stable() && SameMaps(old(mem), old(use), mem) && KeepsData(old(mem), old(use), mem)
      ensures p == 0 ==> use == old(use)
      ensures p != 0 ==> 0 < p < hi && old(use)[p] == Free && use == old(use)[p := Loose] && mem[p] == page
    {
      p := Kalloc();
      if p == 0 {
        return;
      }
      SameRoots(old(use), p, Loose);
      PlainUpdate(mem, use, detached, holes, p, page, Loose);
      assert use[p := Loose] == use;
      FreeFrame(mem, use, freelist, free, mem[p := page], use);
      FrameMaps(old(mem), old(use), mem[p := page]);
      mem := mem[p := page];
    }

    // Give back a page that is in no page table.
    method ReturnPage(p: nat)
      requires Stable() && p < hi && use[p] == Loose
      modifies this
      ensures Stable() && SameMaps(old(mem), old(use), mem)
      ensures use == old(use)[p := Free] && |mem| == |old(mem)|
      ensures forall q :: 0 <= q < hi && q != p ==> mem[q] == old(mem)[q]
    {
      var panicked := Kfree(p);
      SameRoots(old(use), p, Free);
      FrameMaps(old(mem), old(use), mem);
    }

    // kalloc a page, fill it and map it at v; on failure nothing is left allocated but tables.
    method AllocAndMap(r: nat, v: nat, perm: nat, page: Page) returns (p: int)
      requires Stable() && IsRoot(use, r) && perm < 1024 && Leafy(perm) && IsPage(page)
      requires v < TRAPFRAME && !Present(mem, r, v)
      modifies this
      ensures Stable() && IsRoot(use, r) && KeepsData(old(mem), old(use), mem)
      ensures p == 0 ==> SameMaps(old(mem), old(use), mem) && OnlyNewTables(old(use), use, r)
      ensures p != 0 ==> 0 < p < hi && old(use)[p] == Free && mem[p] == page
      ensures p != 0 ==> NewMap(old(mem), old(use), mem, r, Split(v), Pte(p, WithV(perm)))
      ensures p != 0 ==> use[p].User? && use[p].root == r && use[p].va == Split(v) && OnlyNewTables(old(use), use[p := Free], r)
    {
      p := FreshPage(page);
      if p == 0 {
        return;
      }
      ghost var mem1, use1 := mem, use;
      SpecialIs(v);
      var res := MapPage(r, v, p, perm);
      if res != Mapped {
        SameMapsTrans(old(mem), old(use), mem1, use1, mem);
        ghost var mem2, use2 := mem, use;
        ReturnPage(p);
        SameMapsTrans(old(mem), old(use), mem2, use2, mem);
        p := 0;
      } else {
        ComposeMap(old(mem), old(use), mem1, use1, mem, r, Split(v), Pte(p, WithV(perm)));
        assert use[p := Loose][p := Free] == use[p := Free];
      }
    }
  }
}
