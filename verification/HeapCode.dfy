/**
  malloc and free of user/umalloc.c over the header fields of the user's memory.  Addresses are
  in units of one header; address 0 is the null pointer.
 */
module HeapCode {
  import opened HeapList
  import opened HeapBlocks

  const UNIT: nat := 16            // sizeof(Header)
  const MINUNITS: nat := 4096

  function AtLeast(nunits: nat): nat {
    if nunits < MINUNITS then MINUNITS else nunits
  }

  // sbrk takes an int: the byte count is cut to 32 bits and read as signed.
  function SbrkArg(nu: nat): int {
    var low := nu * UNIT % 0x1_0000_0000;
    if low < 0x8000_0000 then low else low - 0x1_0000_0000
  }

  class Heap {
    const base: int
    var ptr: map<int, int>          // s.ptr of the header at an address
    var size: map<int, int>         // s.size of the header at an address
    var freep: int
    var brk: int                    // end of the process's memory
    ghost var free: seq<Chunk>      // the free list, base first
    ghost var live: seq<Chunk>      // blocks handed out and not freed
    ghost var arena: set<int>       // units obtained from sbrk
    ghost var mark: nat             // where freep stands in the list

    ghost predicate Valid()
      reads this
    {
      && 0 < base < brk
      && (freep == 0 ==> free == [] && live == [] && arena == {})
      && (freep != 0 ==> mark < |free| && free[mark].at == freep && HeapOk(base, brk, free, live, arena, ptr, size))
    }

    constructor (base: int, brk: int)
      requires 0 < base < brk
      ensures Valid() && live == [] && arena == {}
    {
      this.base, this.brk := base, brk;
      ptr, size, freep := map[], map[], 0;
      free, live, arena, mark := [], [], {}, 0;
    }

    // free's search: the one place in the circle where bp belongs, from wherever freep stands.
    method FindPlace(bp: int) returns (p: int, ghost k: nat)
      requires Valid() && freep != 0 && base < bp
      requires forall i {:trigger free[i]} :: 0 <= i < |free| ==> free[i].at != bp
      ensures Gap(free, k, bp) && free[k].at == p
    {
      ghost var goal := FindGap(base, free, bp);
      ghost var cur: nat := mark;
      p := freep;
      assert LinkOk(free, ptr, size, cur);
      SearchStep(base, free, cur, goal, bp);
      while !(bp > p && bp < ptr[p])
        invariant cur < |free| && free[cur].at == p && LinkOk(free, ptr, size, cur)
        invariant cur == goal <==> (bp > p && bp < ptr[p]) || (p >= ptr[p] && (bp > p || bp < ptr[p]))
        decreases if cur <= goal then goal - cur else goal + |free| - cur
      {
        if p >= ptr[p] && (bp > p || bp < ptr[p]) {
          break;
        }
        p := ptr[p];
        cur := Next(free, cur);
        assert LinkOk(free, ptr, size, cur);
        SearchStep(base, free, cur, goal, bp);
      }
      k := cur;
    }

    // free's two joins, at the place found; the headers of c and of block k change.
    method Splice(bp: int, p: int, ghost k: nat, ghost c: Chunk)
      requires freep != 0 && Listed(base, free) && Linked(free, ptr, size)
      requires Gap(free, k, bp) && free[k].at == p && c.at == bp && c.len > 0 && bp in size && size[bp] == c.len
      requires End(free[k]) <= bp && (k + 1 < |free| ==> End(c) <= free[k + 1].at)
      modifies this`ptr, this`size, this`freep
      ensures freep == p && Spliced(free, k, c, old(ptr), old(size), ptr, size)
    {
      assert LinkOk(free, ptr, size, k) && LinkOk(free, ptr, size, Next(free, k));
      if k > 0 {
        Ordered(base, free, 0, k);
      }
      var next := ptr[p];
      if bp + size[bp] == next {
        size := size[bp := size[bp] + size[next]];
        ptr := ptr[bp := ptr[next]];
      } else {
        ptr := ptr[bp := next];
      }
      if p + size[p] == bp {
        size := size[p := size[p] + size[bp]];
        ptr := ptr[p := ptr[bp]];
      } else {
        ptr := ptr[p := bp];
      }
      freep := p;
    }

    // free of the live block j.
    method Free(ap: int, ghost j: nat) returns (ghost k: nat)
      requires Valid() && j < |live| && live[j].at == ap - 1
      modifies this
      ensures Valid() && freep != 0 && brk == old(brk) && arena == old(arena)
      ensures live == Drop(old(live), j)
      ensures Gap(old(free), k, ap - 1) && free == Insert(old(free), k, old(live)[j])
      ensures k < |free| && freep == free[k].at
    {
      var bp := ap - 1;
      NotListed(base, brk, free, live, arena, size, j);
      var p;
      p, k := FindPlace(bp);
      ghost var free0, ptr0, size0, c := free, ptr, size, live[j];
      FitsGap(base, brk, free, live, arena, size, k, j);
      assert p != 0 by {
        if k > 0 {
          Ordered(base, free, 0, k);
        }
      }
      Splice(bp, p, k, c);
      FreeAll(base, brk, free, live, arena, ptr0, size0, ptr, size, k, j);
      free := Insert(free, k, c);
      live := Drop(live, j);
      mark := k;
    }

    // malloc's header updates: unlink the block, or shorten it and head its tail.
    method Unlink(prevp: int, p: int, nunits: int, ghost k: nat) returns (q: int)
      requires Listed(base, free) && Linked(free, ptr, size)
      requires 1 <= k < |free| && free[k].at == p && free[k - 1].at == prevp && 0 < nunits <= free[k].len
      modifies this`ptr, this`size
      ensures Carved(free, old(ptr), old(size), ptr, size, k, nunits) && q == End(free[k]) - nunits
    {
      assert LinkOk(free, ptr, size, k) && LinkOk(free, ptr, size, k - 1);
      q := p;
      if size[p] == nunits {
        ptr := ptr[prevp := ptr[p]];
      } else {
        size := size[p := size[p] - nunits];
        q := q + size[q];
        size := size[q := nunits];
      }
    }

    // Take nunits from the tail of block k, whose predecessor in the list is prevp.
    method Carve(prevp: int, p: int, nunits: int, ghost k: nat) returns (ap: int)
      requires Valid() && freep != 0 && 1 <= k < |free| && free[k].at == p && free[k - 1].at == prevp
      requires 0 < nunits <= free[k].len
      modifies this
      ensures Valid() && freep == prevp && brk == old(brk) && arena == old(arena)
      ensures free == Take(old(free), k, nunits)
      ensures live == old(live) + [Chunk(ap - 1, nunits)] && ap - 1 == End(old(free)[k]) - nunits && ap > 0
    {
      ghost var ptr0, size0 := ptr, size;
      var q := Unlink(prevp, p, nunits, k);
      assert prevp != 0 && free[k].at > 0 by {
        if k > 1 {
          Ordered(base, free, 0, k - 1);
        }
        Ordered(base, free, 0, k);
      }
      freep := prevp;
      TakeAll(base, brk, free, live, arena, ptr0, size0, ptr, size, k, nunits);
      free := Take(free, k, nunits);
      live := live + [Chunk(q, nunits)];
      mark := k - 1;
      ap := q + 1;
    }

    // sbrk as morecore sees it: it fails (core is -1), or the process grows by the bytes asked
    // for, from core on; growth by others may leave a gap below core.
    method Sbrk(bytes: int, core: int) returns (p: int)
      requires bytes > 0 && bytes % UNIT == 0 && (core == -1 || core >= brk)
      modifies this`brk
      ensures p == core && brk == if core == -1 then old(brk) else core + bytes / UNIT
    {
      p := core;
      if core != -1 {
        brk := core + bytes / UNIT;
      }
    }

    // morecore's tail: the memory obtained is headed and put on the list by free, so it may join
    // its neighbour there.
    method Enlist(hp: int, nu: nat, ghost brk0: int) returns (ghost t: nat)
      requires 0 < base < brk0 <= hp && brk == hp + nu && nu > 0 && freep != 0
      requires HeapOk(base, brk0, free, live, arena, ptr, size) && mark < |free| && free[mark].at == freep
      modifies this
      ensures Valid() && freep != 0 && live == old(live) && brk == old(brk)
      ensures arena == old(arena) + Units(hp, nu)
      ensures t < |free| && free[t].len >= nu
    {
      ghost var live0, free0, c := live, free, Chunk(hp, nu);
      GrowAll(base, brk0, free, live, arena, ptr, size, size[hp := nu], c, arena + Units(hp, nu));
      size := size[hp := nu];
      arena := arena + Units(hp, nu);
      live := live + [c];
      ghost var k := Free(hp + 1, |live0|);
      DropLast(live0, c);
      t := InsertHas(base, free0, k, c);
    }

    // morecore.
    method Morecore(nunits: nat, core: int) returns (p: int, ghost t: nat)
      requires Valid() && freep != 0 && 0 < nunits && (core == -1 || core >= brk)
      requires SbrkArg(AtLeast(nunits)) == AtLeast(nunits) * UNIT
      modifies this
      ensures Valid() && freep != 0 && live == old(live)
      ensures core == -1 ==> p == 0 && free == old(free) && arena == old(arena) && brk == old(brk) && freep == old(freep)
      ensures core != -1 ==> p == freep && arena == old(arena) + Units(core, AtLeast(nunits)) && brk == core + AtLeast(nunits)
      ensures core != -1 ==> t < |free| && free[t].len >= nunits
    {
      ghost var brk0 := brk;
      t := 0;
      var nu := AtLeast(nunits);
      var hp := Sbrk(SbrkArg(nu), core);
      if hp == -1 {
        return 0, 0;
      }
      t := Enlist(hp, nu, brk0);
      p := freep;
    }

    // malloc's first call sets up the empty list.
    method Start()
      requires Valid() && freep == 0
      modifies this
      ensures Valid() && freep == base && live == old(live) && arena == old(arena) && brk == old(brk)
      ensures free == [Chunk(base, 0)]
    {
      ptr := ptr[base := base];
      freep := base;
      size := size[base := 0];
      free, mark := [Chunk(base, 0)], 0;
      SumOne(Chunk(base, 0));
      assert LinkOk(free, ptr, size, 0);
    }

    // malloc's loop: first fit from the block after freep, with at most one call of morecore.
    method Search(nunits: nat, core: int) returns (ap: int, calls: nat)
      requires Valid() && freep != 0 && nunits > 0 && (core == -1 || core >= brk)
      requires SbrkArg(AtLeast(nunits)) == AtLeast(nunits) * UNIT
      modifies this
      ensures Valid() && calls <= 1
      ensures ap == 0 <==> calls == 1 && core == -1
      ensures live == old(live) + if ap == 0 then [] else [Chunk(ap - 1, nunits)]
      ensures calls == 0 ==> arena == old(arena) && brk == old(brk)
      ensures calls == 1 ==> AllShort(old(free), nunits)
      ensures calls == 1 && core != -1 ==> arena == old(arena) + Units(core, AtLeast(nunits)) && brk == core + AtLeast(nunits)
    {
      calls := 0;
      var prevp := freep;
      assert LinkOk(free, ptr, size, mark);
      var p := ptr[prevp];
      ghost var prev: nat, cur: nat := mark, Next(free, mark);
      ghost var t: nat := 0;
      while true
        invariant Valid() && freep != 0 && calls <= 1 && live == old(live)
        invariant prev < |free| && free[prev].at == prevp && cur == Next(free, prev) && free[cur].at == p
        invariant TooShort(free, mark, cur, nunits)
        invariant calls == 0 ==> arena == old(arena) && brk == old(brk) && free == old(free)
        invariant calls == 1 ==> t < |free| && free[t].len >= nunits && core != -1 && AllShort(old(free), nunits)
        invariant calls == 1 ==> arena == old(arena) + Units(core, AtLeast(nunits)) && brk == core + AtLeast(nunits)
        decreases 1 - calls, ToGo(|free|, mark, cur)
      {
        assert LinkOk(free, ptr, size, cur);
        if size[p] >= nunits {
          ap := Carve(prevp, p, nunits, cur);
          return;
        }
        if p == freep {
          SameHeader(base, free, cur, mark);
          WentRound(free, mark, nunits);
          var q;
          q, t := Morecore(nunits, core);
          calls := calls + 1;
          if q == 0 {
            return 0, calls;
          }
          p := q;
          cur := mark;
          assert LinkOk(free, ptr, size, cur);
        } else {
          WalkOn(free, mark, cur, nunits);
        }
        prevp, prev := p, cur;
        p, cur := ptr[p], Next(free, cur);
      }
    }

    // malloc.  core is what sbrk will answer if it is called.
    method Malloc(nbytes: nat, core: int) returns (ap: int, calls: nat)
      requires Valid() && nbytes < 0x1_0000_0000 && (core == -1 || core >= brk)
      requires SbrkArg(AtLeast(UnitsFor(nbytes))) == AtLeast(UnitsFor(nbytes)) * UNIT
      modifies this
      ensures Valid() && calls <= 1
      ensures ap == 0 <==> calls == 1 && core == -1
      ensures live == old(live) + if ap == 0 then [] else [Chunk(ap - 1, UnitsFor(nbytes))]
      ensures calls == 0 ==> arena == old(arena) && brk == old(brk)
      ensures calls == 1 ==> AllShort(old(free), UnitsFor(nbytes))
      ensures calls == 1 && core != -1 ==>
                arena == old(arena) + Units(core, AtLeast(UnitsFor(nbytes))) && brk == core + AtLeast(UnitsFor(nbytes))
    {
      var nunits := (nbytes + UNIT - 1) / UNIT + 1;
      if freep == 0 {
        Start();
      }
      ap, calls := Search(nunits, core);
    }
  }

  // nunits for a request: the bytes rounded up to units, and one for the header.
  function UnitsFor(nbytes: nat): nat {
    (nbytes + UNIT - 1) / UNIT + 1
  }

  // malloc's walk starts after mark; what it has seen when it stands at cur was too short.
  ghost predicate TooShort(l: seq<Chunk>, mark: nat, cur: nat, n: int) {
    forall i {:trigger l[i]} :: 0 <= i < |l| && (if mark < cur then mark < i < cur else i > mark || i < cur) ==> l[i].len < n
  }

  ghost predicate AllShort(l: seq<Chunk>, n: int) {
    forall i {:trigger l[i]} :: 0 <= i < |l| ==> l[i].len < n
  }

  ghost function ToGo(len: nat, mark: nat, cur: nat): int {
    if cur <= mark then mark - cur else mark + len - cur
  }

  lemma WalkOn(l: seq<Chunk>, mark: nat, cur: nat, n: int)
    requires mark < |l| && cur < |l| && cur != mark && TooShort(l, mark, cur, n) && l[cur].len < n
    ensures TooShort(l, mark, Next(l, cur), n) && 0 <= ToGo(|l|, mark, Next(l, cur)) < ToGo(|l|, mark, cur)
  {
  }

  lemma WentRound(l: seq<Chunk>, mark: nat, n: int)
    requires mark < |l| && TooShort(l, mark, mark, n) && l[mark].len < n
    ensures AllShort(l, n)
  {
  }

  // The int argument of sbrk holds a request exactly up to 2 GB less two headers.
  lemma SafeRequest(nbytes: nat)
    requires nbytes < 0x1_0000_0000
    ensures SbrkArg(AtLeast(UnitsFor(nbytes))) == AtLeast(UnitsFor(nbytes)) * UNIT <==> nbytes <= 0x7FFF_FFE0
  {
    var nu := AtLeast(UnitsFor(nbytes));
    assert nu <= 0x1000_0001;
    if nu < 0x800_0000 {
      assert nu * UNIT < 0x8000_0000;
    }
  }

  // Past it the request can shrink to nothing: sbrk(0) succeeds and brings no memory.
  lemma HugeRequest()
    ensures UnitsFor(0xFFFF_FFF0) == 0x1000_0000 && SbrkArg(AtLeast(UnitsFor(0xFFFF_FFF0))) == 0
  {
  }

  lemma SameHeader(base: int, l: seq<Chunk>, i: nat, j: nat)
    requires Listed(base, l) && i < |l| && j < |l| && l[i].at == l[j].at
    ensures i == j
  {
    if i < j {
      Ordered(base, l, i, j);
    } else if j < i {
      Ordered(base, l, j, i);
    }
  }

  lemma DropLast(l: seq<Chunk>, c: Chunk)
    ensures Drop(l + [c], |l|) == l
  {
  }
}
