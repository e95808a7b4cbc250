/**
  Sv39 page tables in physical memory, as kernel/vm.c builds them (section 4.4 of the RISC-V
  Privileged Architecture, version 20211203).

  Memory is a sequence of pages of 512 words, and addresses are kept as page numbers.  The
  use map says what every physical page is for; the invariant ties it to the words in memory
  in both directions, so a page has exactly one use and every page in use can be found again.
 */
module PageTable {

  type Page = seq<int>

  // A virtual page by its three table indices.
  datatype Va = Va(a: nat, b: nat, c: nat)

  // A page of a page table knows its root, its level (2 for the root, 0 for the last), the
  // indices that select it, and the page whose entry points to it.
  datatype Use =
    | Reserved                                               // not managed by kalloc
    | Free                                                   // on the free list
    | Loose                                                  // handed out by kalloc, in no page table
    | Table(root: nat, level: nat, a: nat, b: nat, parent: nat)
    | User(root: nat, va: Va, table: nat)

  const PTES: nat := 512
  const MAXVPN: nat := 0x400_0000        // MAXVA / PGSIZE
  const TRAMPOLINE: nat := MAXVPN - 1    // TRAMPOLINE / PGSIZE
  const TRAPFRAME: nat := MAXVPN - 2     // TRAPFRAME / PGSIZE

  predicate IsPage(p: Page) {
    |p| == PTES
  }

  function ZeroPage(): (p: Page)
    ensures IsPage(p) && forall i :: 0 <= i < PTES ==> p[i] == 0
  {
    seq(PTES, _ => 0)
  }

  // ------------------------------------------------------------------
  // Page-table entries
  // ------------------------------------------------------------------

  function Pte(ppn: nat, flags: nat): int {
    ppn * 1024 + flags
  }

  function Ppn(pte: int): int {
    pte / 1024
  }

  function Flags(pte: int): int {
    pte % 1024
  }

  predicate V(pte: int) {
    pte % 2 == 1
  }

  // Any of R, W and X.
  predicate Leafy(pte: int) {
    (pte / 2) % 8 != 0
  }

  predicate U(pte: int) {
    (pte / 16) % 2 == 1
  }

  // perm | PTE_V
  function WithV(perm: nat): nat {
    if perm % 2 == 1 then perm else perm + 1
  }

  lemma PteParts(ppn: nat, perm: nat)
    requires perm < 1024
    ensures
      var e := Pte(ppn, WithV(perm));
      V(e) && Ppn(e) == ppn && Flags(e) == WithV(perm) && (Leafy(e) <==> Leafy(perm)) && 0 < e
  {
  }

  // ------------------------------------------------------------------
  // Walking
  // ------------------------------------------------------------------

  predicate GoodVa(x: Va) {
    x.a < 256 && x.b < PTES && x.c < PTES
  }

  // PX(2, va), PX(1, va) and PX(0, va) of virtual page v.
  function Split(v: nat): (x: Va)
    requires v < MAXVPN
    ensures GoodVa(x) && Join(x) == v
  {
    Va(v / 0x4_0000, (v / 512) % 512, v % 512)
  }

  function Join(x: Va): nat {
    x.a * 0x4_0000 + x.b * 512 + x.c
  }

  predicate InMem(mem: seq<Page>, p: int) {
    0 < p < |mem| && IsPage(mem[p])
  }

  // The page entry i of table t points to, or 0.
  function Child(mem: seq<Page>, t: int, i: nat): int
    requires i < PTES
  {
    if InMem(mem, t) && V(mem[t][i]) then Ppn(mem[t][i]) else 0
  }

  // The last-level table for x under root r, or 0.
  function Last(mem: seq<Page>, r: nat, x: Va): int
    requires GoodVa(x)
  {
    Child(mem, Child(mem, r, x.a), x.b)
  }

  // The entry that maps virtual page x under root r; 0 when there is none.
  function Lookup(mem: seq<Page>, r: nat, x: Va): int
    requires GoodVa(x)
  {
    if InMem(mem, Last(mem, r, x)) then mem[Last(mem, r, x)][x.c] else 0
  }

  // ------------------------------------------------------------------
  // The invariant
  // ------------------------------------------------------------------

  // The trampoline and the trapframe page are mapped in every user page table.
  predicate Special(x: Va) {
    x == Va(255, 511, 511) || x == Va(255, 511, 510)
  }

  // What entry i of the table with use u, at page t, may point to.
  function ChildUse(u: Use, t: nat, i: nat): Use
    requires u.Table?
  {
    if u.level == 2 then Table(u.root, 1, i, 0, t)
    else if u.level == 1 then Table(u.root, 0, u.a, i, t)
    else User(u.root, Va(u.a, u.b, i), t)
  }

  // Entry i of table t is empty, or points one level down, or maps a page.
  predicate EntryOk(use: seq<Use>, t: nat, i: nat, e: int)
    requires t < |use| && use[t].Table?
  {
    e == 0 ||
    (&& V(e)
     && 0 < Ppn(e) < |use|
     && (Leafy(e) <==> use[t].level == 0)
     && (use[t].level > 0 ==> Flags(e) == 1)
     && (use[Ppn(e)] == ChildUse(use[t], t, i)
         || (use[t].level == 0 && Special(Va(use[t].a, use[t].b, i)))))
  }

  predicate PointsTo(mem: seq<Page>, t: nat, i: nat, p: nat) {
    t < |mem| && i < |mem[t]| && V(mem[t][i]) && Ppn(mem[t][i]) == p
  }

  // Page p is where entry i of table t points, and its use says so.
  predicate HangsAt(mem: seq<Page>, use: seq<Use>, p: nat, t: nat, i: nat)
    requires p < |use|
  {
    t < |use| && i < PTES && use[t].Table? && use[p] == ChildUse(use[t], t, i) && PointsTo(mem, t, i, p)
  }

  // A table or user page is where its use says.  The pages in detached are roots, or tables
  // that freewalk is taking apart.
  predicate PageOk(mem: seq<Page>, use: seq<Use>, detached: set<nat>, p: nat)
    requires p < |use|
  {
    match use[p]
    case Table(r, l, a, b, t) =>
      && 0 < p && l <= 2 && a < 256 && b < PTES
      && (l == 2 ==> p == r && p in detached)
      && (p !in detached ==> HangsAt(mem, use, p, t, if l == 1 then a else b))
    case User(r, x, t) =>
      0 < p && GoodVa(x) && !Special(x) && HangsAt(mem, use, p, t, x.c)
    case _ => true
  }

  predicate Inv(mem: seq<Page>, use: seq<Use>, detached: set<nat>, holes: set<(nat, nat)>) {
    && |mem| == |use|
    && (forall p :: 0 <= p < |mem| ==> IsPage(mem[p]))
    && (forall t, i {:trigger EntryOk(use, t, i, mem[t][i])} :: 0 <= t < |mem| && 0 <= i < PTES && use[t].Table? && (t, i) !in holes ==>
          EntryOk(use, t, i, mem[t][i]))
    && (forall p {:trigger PageOk(mem, use, detached, p)} :: 0 <= p < |use| ==> PageOk(mem, use, detached, p))
    && (forall p :: p in detached ==> p < |use| && use[p].Table?)
  }

  predicate IsRoot(use: seq<Use>, r: nat) {
    0 < r < |use| && use[r].Table? && use[r].root == r && use[r].level == 2
  }

  function Roots(use: seq<Use>): set<nat> {
    set p | 0 <= p < |use| && use[p].Table? && use[p].level == 2
  }

  // Nothing is being taken apart.
  predicate Whole(mem: seq<Page>, use: seq<Use>) {
    Inv(mem, use, Roots(use), {})
  }

  // ------------------------------------------------------------------
  // Walks meet the tables their indices name
  // ------------------------------------------------------------------

  lemma WalkUse(mem: seq<Page>, use: seq<Use>, r: nat, x: Va)
    requires Whole(mem, use) && IsRoot(use, r) && GoodVa(x)
    ensures
      var m := Child(mem, r, x.a);
      m == 0 || (InMem(mem, m) && use[m] == Table(r, 1, x.a, 0, r))
    ensures
      var t := Last(mem, r, x);
      t == 0 || (InMem(mem, t) && use[t] == Table(r, 0, x.a, x.b, Child(mem, r, x.a)))
  {
    assert PageOk(mem, use, Roots(use), r);
    assert EntryOk(use, r, x.a, mem[r][x.a]);
    var m := Child(mem, r, x.a);
    if m != 0 {
      assert EntryOk(use, m, x.b, mem[m][x.b]);
    }
  }

  // Every last-level table is met by walking from its root.
  lemma LastIs(mem: seq<Page>, use: seq<Use>, t: nat, i: nat)
    requires Whole(mem, use) && t < |use| && use[t].Table? && use[t].level == 0 && i < PTES
    ensures
      var x := Va(use[t].a, use[t].b, i);
      GoodVa(x) && IsRoot(use, use[t].root) && Last(mem, use[t].root, x) == t
  {
    var D := Roots(use);
    assert PageOk(mem, use, D, t);
    var m := use[t].parent;
    assert PageOk(mem, use, D, m);
    assert PageOk(mem, use, D, use[m].parent);
  }

  // Two table pages with the same place in the same page table are the same page.
  lemma {:induction false} TableUnique(mem: seq<Page>, use: seq<Use>, p: nat, q: nat)
    requires Whole(mem, use) && p < |use| && q < |use| && use[p].Table? && use[q].Table?
    requires use[p].root == use[q].root && use[p].level == use[q].level && use[p].a == use[q].a && use[p].b == use[q].b
    ensures p == q
    decreases 2 - use[p].level
  {
    var D := Roots(use);
    assert PageOk(mem, use, D, p) && PageOk(mem, use, D, q);
    if use[p].level < 2 {
      var m, n := use[p].parent, use[q].parent;
      assert PageOk(mem, use, D, m) && PageOk(mem, use, D, n);
      TableUnique(mem, use, m, n);
    }
  }

  // ------------------------------------------------------------------
  // What changes a translation
  // ------------------------------------------------------------------

  // Memory outside a page table does not matter to it.
  lemma LookupFrame(mem: seq<Page>, mem': seq<Page>, use: seq<Use>, r: nat, x: Va)
    requires Whole(mem, use) && IsRoot(use, r) && |mem'| == |mem| && GoodVa(x)
    requires forall p :: 0 <= p < |use| && use[p].Table? && use[p].root == r ==> mem'[p] == mem[p]
    ensures Lookup(mem', r, x) == Lookup(mem, r, x) && Last(mem', r, x) == Last(mem, r, x)
  {
    WalkUse(mem, use, r, x);
  }

  function SetEntry(mem: seq<Page>, t: nat, i: nat, e: int): (mem': seq<Page>)
    requires t < |mem| && i < |mem[t]|
    ensures |mem'| == |mem|
  {
    mem[t := mem[t][i := e]]
  }

  lemma ChildAfterSet(mem: seq<Page>, t: nat, i: nat, e: int, p: int, j: nat)
    requires InMem(mem, t) && i < PTES && j < PTES
    ensures
      var mem' := SetEntry(mem, t, i, e);
      InMem(mem', p) == InMem(mem, p) &&
      Child(mem', p, j) == if p == t && j == i then (if V(e) then Ppn(e) else 0) else Child(mem, p, j)
  {
  }

  // Writing one entry of a last-level table changes the translation of one page of one table.
  lemma SetLastEntry(mem: seq<Page>, use: seq<Use>, t: nat, i: nat, e: int, r: nat, x: Va)
    requires Whole(mem, use) && IsRoot(use, r) && GoodVa(x)
    requires t < |use| && use[t].Table? && use[t].level == 0 && i < PTES
    ensures
      var mem' := SetEntry(mem, t, i, e);
      && Last(mem', r, x) == Last(mem, r, x)
      && Lookup(mem', r, x) == if r == use[t].root && x == Va(use[t].a, use[t].b, i) then e else Lookup(mem, r, x)
  {
    LastIs(mem, use, t, i);
    WalkUse(mem, use, r, x);
    var mem' := SetEntry(mem, t, i, e);
    assert PageOk(mem, use, Roots(use), t);
    ChildAfterSet(mem, t, i, e, r, x.a);
    ChildAfterSet(mem, t, i, e, Child(mem, r, x.a), x.b);
    ChildAfterSet(mem, t, i, e, Last(mem, r, x), 0);
  }

  // Hanging a zeroed page into an empty entry of an upper table changes no translation.
  lemma AddTableLookup(mem: seq<Page>, use: seq<Use>, t: nat, i: nat, c: nat, r: nat, x: Va)
    requires Whole(mem, use) && IsRoot(use, r) && GoodVa(x)
    requires t < |use| && use[t].Table? && use[t].level > 0 && i < PTES && mem[t][i] == 0
    requires 0 < c < |use| && !use[c].Table? && mem[c] == ZeroPage()
    ensures Lookup(SetEntry(mem, t, i, Pte(c, 1)), r, x) == Lookup(mem, r, x)
  {
    var mem' := SetEntry(mem, t, i, Pte(c, 1));
    WalkUse(mem, use, r, x);
    PteParts(c, 1);
    assert PageOk(mem, use, Roots(use), t);
    var m := Child(mem, r, x.a);
    ChildAfterSet(mem, t, i, Pte(c, 1), r, x.a);
    ChildAfterSet(mem, t, i, Pte(c, 1), m, x.b);
    ChildAfterSet(mem, t, i, Pte(c, 1), c, x.b);
    assert mem'[c] == mem[c];
  }

  // ------------------------------------------------------------------
  // Updates that keep the invariant
  // ------------------------------------------------------------------

  predicate Plain(u: Use) {
    u == Free || u == Loose
  }

  // kalloc and kfree: a page in no page table changes hands.
  lemma PlainUpdate(mem: seq<Page>, use: seq<Use>, D: set<nat>, H: set<(nat, nat)>, p: nat, page: Page, u: Use)
    requires Inv(mem, use, D, H) && p < |use| && Plain(use[p]) && Plain(u) && IsPage(page)
    ensures Inv(mem[p := page], use[p := u], D, H)
  {
    var mem', use' := mem[p := page], use[p := u];
    forall t, i | 0 <= t < |mem'| && 0 <= i < PTES && use'[t].Table? && (t, i) !in H
      ensures EntryOk(use', t, i, mem'[t][i])
    {
      assert EntryOk(use, t, i, mem[t][i]);
    }
    forall q | 0 <= q < |use'|
      ensures PageOk(mem', use', D, q)
    {
      assert PageOk(mem, use, D, q);
    }
  }

  // A page comes to hang at an empty entry of table t.
  lemma Hang(mem: seq<Page>, use: seq<Use>, D: set<nat>, H: set<(nat, nat)>, t: nat, i: nat, p: nat, e: int)
    requires Inv(mem, use, D, H) && t < |use| && i < PTES && use[t].Table? && mem[t][i] == 0
    requires 0 < p < |use| && use[p] == Loose && V(e) && Ppn(e) == p && e > 0
    requires Leafy(e) <==> use[t].level == 0
    requires use[t].level > 0 ==> Flags(e) == 1 && mem[p] == ZeroPage()
    requires use[t].level == 2 ==> i < 256
    requires use[t].level == 0 ==> !Special(Va(use[t].a, use[t].b, i))
    ensures Inv(SetEntry(mem, t, i, e), use[p := ChildUse(use[t], t, i)], D, H)
  {
    var mem', use' := SetEntry(mem, t, i, e), use[p := ChildUse(use[t], t, i)];
    assert PageOk(mem, use, D, t);
    assert forall q :: 0 <= q < |mem| && q != t ==> mem'[q] == mem[q];
    forall s, j | 0 <= s < |mem'| && 0 <= j < PTES && use'[s].Table? && (s, j) !in H
      ensures EntryOk(use', s, j, mem'[s][j])
    {
      if s == p {
        assert mem'[p] == mem[p];
      } else if s != t || j != i {
        assert mem'[s][j] == mem[s][j];
        assert EntryOk(use, s, j, mem[s][j]);
      }
    }
    forall q | 0 <= q < |use'|
      ensures PageOk(mem', use', D, q)
    {
      assert PageOk(mem, use, D, q);
      assert p !in D;
    }
  }

  // The trampoline or the trapframe page is mapped.
  lemma MapSpecial(mem: seq<Page>, use: seq<Use>, D: set<nat>, H: set<(nat, nat)>, t: nat, i: nat, e: int)
    requires Inv(mem, use, D, H) && t < |use| && i < PTES && use[t].Table? && mem[t][i] == 0
    requires use[t].level == 0 && Special(Va(use[t].a, use[t].b, i))
    requires V(e) && Leafy(e) && 0 < Ppn(e) < |use|
    ensures Inv(SetEntry(mem, t, i, e), use, D, H)
  {
    var mem' := SetEntry(mem, t, i, e);
    assert forall q :: 0 <= q < |mem| && q != t ==> mem'[q] == mem[q];
    forall s, j | 0 <= s < |mem'| && 0 <= j < PTES && use[s].Table? && (s, j) !in H
      ensures EntryOk(use, s, j, mem'[s][j])
    {
      if s != t || j != i {
        assert mem'[s][j] == mem[s][j];
        assert EntryOk(use, s, j, mem[s][j]);
      }
    }
    forall q | 0 <= q < |use|
      ensures PageOk(mem', use, D, q)
    {
      assert PageOk(mem, use, D, q);
    }
  }

  // A user page is taken off its entry, which still points to it until it is cleared.
  lemma LoosenUser(mem: seq<Page>, use: seq<Use>, D: set<nat>, H: set<(nat, nat)>, p: nat)
    requires Inv(mem, use, D, H) && p < |use| && use[p].User?
    ensures Inv(mem, use[p := Loose], D, H + {(use[p].table, use[p].va.c)})
  {
    var use' := use[p := Loose];
    assert PageOk(mem, use, D, p);
    forall s, j | 0 <= s < |mem| && 0 <= j < PTES && use'[s].Table? && (s, j) !in H + {(use[p].table, use[p].va.c)}
      ensures EntryOk(use', s, j, mem[s][j])
    {
      assert EntryOk(use, s, j, mem[s][j]);
    }
    forall q | 0 <= q < |use'|
      ensures PageOk(mem, use', D, q)
    {
      assert PageOk(mem, use, D, q);
    }
  }

  // An entry at which no page hangs is cleared.
  lemma ClearEntry(mem: seq<Page>, use: seq<Use>, D: set<nat>, H: set<(nat, nat)>, t: nat, i: nat)
    requires Inv(mem, use, D, H) && t < |use| && i < PTES && use[t].Table?
    requires forall p :: 0 <= p < |use| && use[p] == ChildUse(use[t], t, i) ==> use[p].Table? && p in D
    ensures Inv(SetEntry(mem, t, i, 0), use, D, H - {(t, i)})
  {
    var mem' := SetEntry(mem, t, i, 0);
    assert forall q :: 0 <= q < |mem| && q != t ==> mem'[q] == mem[q];
    forall s, j | 0 <= s < |mem'| && 0 <= j < PTES && use[s].Table? && (s, j) !in H - {(t, i)}
      ensures EntryOk(use, s, j, mem'[s][j])
    {
      if s != t || j != i {
        assert mem'[s][j] == mem[s][j];
        assert EntryOk(use, s, j, mem[s][j]);
      }
    }
    forall q | 0 <= q < |use|
      ensures PageOk(mem', use, D, q)
    {
      assert PageOk(mem, use, D, q);
    }
  }

  // freewalk goes down into child p of table t: the entry will dangle for a while.
  lemma Detach(mem: seq<Page>, use: seq<Use>, D: set<nat>, H: set<(nat, nat)>, t: nat, i: nat, p: nat)
    requires Inv(mem, use, D, H) && p < |use| && use[p].Table? && use[p].level < 2
    ensures Inv(mem, use, D + {p}, H + {(t, i)})
  {
    forall q | 0 <= q < |use|
      ensures PageOk(mem, use, D + {p}, q)
    {
      assert PageOk(mem, use, D, q);
    }
  }

  // The entry of its parent that points to table page p.
  function ParentEntry(u: Use): (nat, nat)
    requires u.Table?
  {
    (u.parent, if u.level == 1 then u.a else u.b)
  }

  // An empty detached table stops being one.
  lemma DropTable(mem: seq<Page>, use: seq<Use>, D: set<nat>, H: set<(nat, nat)>, p: nat)
    requires Inv(mem, use, D, H) && p in D && forall i :: 0 <= i < PTES ==> mem[p][i] == 0
    requires use[p].level < 2 ==> ParentEntry(use[p]) in H
    ensures Inv(mem, use[p := Loose], D - {p}, H)
  {
    var use' := use[p := Loose];
    assert PageOk(mem, use, D, p);
    forall s, j | 0 <= s < |mem| && 0 <= j < PTES && use'[s].Table? && (s, j) !in H
      ensures EntryOk(use', s, j, mem[s][j])
    {
      assert EntryOk(use, s, j, mem[s][j]);
    }
    forall q | 0 <= q < |use'|
      ensures PageOk(mem, use', D - {p}, q)
    {
      assert PageOk(mem, use, D, q);
    }
  }

  // uvmcreate: a zeroed page becomes an empty page table.
  lemma NewRoot(mem: seq<Page>, use: seq<Use>, D: set<nat>, H: set<(nat, nat)>, p: nat)
    requires Inv(mem, use, D, H) && 0 < p < |use| && use[p] == Loose && mem[p] == ZeroPage()
    ensures Inv(mem, use[p := Table(p, 2, 0, 0, 0)], D + {p}, H)
  {
    var use' := use[p := Table(p, 2, 0, 0, 0)];
    forall s, j | 0 <= s < |mem| && 0 <= j < PTES && use'[s].Table? && (s, j) !in H
      ensures EntryOk(use', s, j, mem[s][j])
    {
      if s != p {
        assert EntryOk(use, s, j, mem[s][j]);
      }
    }
    forall q | 0 <= q < |use'|
      ensures PageOk(mem, use', D + {p}, q)
    {
      assert PageOk(mem, use, D, q);
    }
  }
}
