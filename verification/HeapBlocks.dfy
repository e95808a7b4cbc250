/**
  The heap of user/umalloc.c as values: the free list, the live blocks, and the header fields
  that represent them.
 */
module HeapBlocks {
  import opened HeapList

  // ------------------------------------------------------------------
  // Headers
  // ------------------------------------------------------------------

  // The headers of the free list link it into a circle.
  ghost predicate Linked(l: seq<Chunk>, ptr: map<int, int>, size: map<int, int>) {
    forall i: nat {:trigger LinkOk(l, ptr, size, i)} :: i < |l| ==> LinkOk(l, ptr, size, i)
  }

  ghost predicate LinkOk(l: seq<Chunk>, ptr: map<int, int>, size: map<int, int>, i: nat)
    requires i < |l|
  {
    && l[i].at in ptr && ptr[l[i].at] == l[Next(l, i)].at
    && l[i].at in size && size[l[i].at] == l[i].len
  }

  // What free's pointer surgery leaves in the headers, with the block c put after position k.
  ghost predicate Spliced(l: seq<Chunk>, k: nat, c: Chunk, ptr: map<int, int>, size: map<int, int>,
                          ptr': map<int, int>, size': map<int, int>)
    requires k < |l|
  {
    var up := k + 1 < |l| && End(c) == l[k + 1].at;
    var next := if up then l[Next(l, k + 1)].at else l[Next(l, k)].at;
    var len := if up then c.len + l[k + 1].len else c.len;
    && Elsewhere(ptr, ptr', c.at, l[k].at)
    && Elsewhere(size, size', c.at, l[k].at)
    && l[k].at in ptr' && l[k].at in size'
    && if End(l[k]) == c.at then
         ptr'[l[k].at] == next && size'[l[k].at] == l[k].len + len
       else
         && c.at in ptr' && c.at in size' && ptr'[c.at] == next && size'[c.at] == len
         && ptr'[l[k].at] == c.at && size'[l[k].at] == l[k].len
  }

  ghost predicate Elsewhere(m: map<int, int>, m': map<int, int>, x: int, y: int) {
    forall a {:trigger m'[a]} {:trigger a in m'} {:trigger m[a]} :: a in m && a != x && a != y ==> a in m' && m'[a] == m[a]
  }

  lemma {:induction false} LinkedInsert(base: int, l: seq<Chunk>, k: nat, c: Chunk, ptr: map<int, int>, size: map<int, int>,
                     ptr': map<int, int>, size': map<int, int>)
    requires Listed(base, l) && Gap(l, k, c.at) && c.len > 0 && Linked(l, ptr, size)
    requires End(l[k]) <= c.at && (k + 1 < |l| ==> End(c) <= l[k + 1].at)
    requires Spliced(l, k, c, ptr, size, ptr', size')
    ensures Linked(Insert(l, k, c), ptr', size')
  {
    var r := Insert(l, k, c);
    forall i: nat | i < |r| ensures LinkOk(r, ptr', size', i) {
      if i < k {
        LinkedBelow(l, k, c, ptr, size, ptr', size', i);
      } else if i > k + 1 || (i == k + 1 && End(l[k]) == c.at) {
        LinkedAbove(l, k, c, ptr, size, ptr', size', i);
      } else {
        InsertAt(l, k, c, i);
        InsertAt(l, k, c, Next(r, i));
      }
    }
  }

  lemma {:induction false} LinkedBelow(l: seq<Chunk>, k: nat, c: Chunk, ptr: map<int, int>, size: map<int, int>,
                    ptr': map<int, int>, size': map<int, int>, i: nat)
    requires Coalesced(l) && Gap(l, k, c.at) && Linked(l, ptr, size) && Spliced(l, k, c, ptr, size, ptr', size')
    requires forall i {:trigger l[i]} :: 0 <= i < |l| ==> l[i].len >= 0
    requires i < k && k < |Insert(l, k, c)|
    ensures LinkOk(Insert(l, k, c), ptr', size', i)
  {
    assert LinkOk(l, ptr, size, i);
    assert Before(l, i, k);
    InsertAt(l, k, c, i);
    InsertAt(l, k, c, i + 1);
  }

  lemma {:induction false} LinkedAbove(l: seq<Chunk>, k: nat, c: Chunk, ptr: map<int, int>, size: map<int, int>,
                    ptr': map<int, int>, size': map<int, int>, i: nat)
    requires Coalesced(l) && Gap(l, k, c.at) && Linked(l, ptr, size) && Spliced(l, k, c, ptr, size, ptr', size')
    requires forall i {:trigger l[i]} :: 0 <= i < |l| ==> l[i].len >= 0
    requires i < |Insert(l, k, c)| && (i > k + 1 || (i == k + 1 && End(l[k]) == c.at))
    ensures LinkOk(Insert(l, k, c), ptr', size', i)
  {
    var r := Insert(l, k, c);
    InsertAt(l, k, c, i);
    InsertAt(l, k, c, Next(r, i));
    InsertAt(l, k, c, 0);
    var h := i + |l| - |r|;
    assert LinkOk(l, ptr, size, h);
    assert Before(l, k, h);
    if k + 1 < h {
      assert Before(l, k + 1, h);
    }
    assert l[h].at > l[k].at && l[h].at > c.at;
  }

  // ------------------------------------------------------------------
  // Blocks
  // ------------------------------------------------------------------

  ghost predicate Covers(arena: set<int>, c: Chunk) {
    forall u {:trigger u in arena} :: c.at <= u < End(c) ==> u in arena
  }

  ghost predicate Inside(c: Chunk, lo: int, hi: int, arena: set<int>) {
    lo < c.at && c.len > 0 && End(c) <= hi && Covers(arena, c)
  }

  ghost predicate In(l: seq<Chunk>, j: nat, lo: int, hi: int, arena: set<int>)
    requires j < |l|
  {
    Inside(l[j], lo, hi, arena)
  }

  // From position "from" on, the blocks lie between lo and hi and inside the arena.
  ghost predicate Within(l: seq<Chunk>, from: nat, lo: int, hi: int, arena: set<int>) {
    forall j: nat {:trigger In(l, j, lo, hi, arena)} :: from <= j < |l| ==> In(l, j, lo, hi, arena)
  }

  ghost predicate Clear(l: seq<Chunk>, i: nat, m: seq<Chunk>, j: nat)
    requires i < |l| && j < |m|
  {
    Apart(l[i], m[j])
  }

  // No two blocks, free or live, share a unit.
  ghost predicate Disjoint(free: seq<Chunk>, live: seq<Chunk>) {
    && (forall i: nat, j: nat {:trigger Clear(free, i, live, j)} :: 1 <= i < |free| && j < |live| ==> Clear(free, i, live, j))
    && (forall i: nat, j: nat {:trigger Clear(live, i, live, j)} :: i < |live| && j < |live| && i != j ==> Clear(live, i, live, j))
  }

  ghost predicate Tagged(live: seq<Chunk>, size: map<int, int>, j: nat)
    requires j < |live|
  {
    live[j].at in size && size[live[j].at] == live[j].len
  }

  // A live block's header still tells its length.
  ghost predicate Sizes(live: seq<Chunk>, size: map<int, int>) {
    forall j: nat {:trigger Tagged(live, size, j)} :: j < |live| ==> Tagged(live, size, j)
  }

  // Free and live blocks fill the arena, the units obtained from sbrk, between them.
  ghost predicate BlocksOk(base: int, brk: int, free: seq<Chunk>, live: seq<Chunk>, arena: set<int>, size: map<int, int>) {
    && Within(free, 1, base, brk, arena)
    && Within(live, 0, base, brk, arena)
    && Disjoint(free, live)
    && Sizes(live, size)
    && Sum(free) + Sum(live) == |arena|
    && forall u {:trigger u in arena} :: u in arena ==> u < brk
  }

  ghost predicate HeapOk(base: int, brk: int, free: seq<Chunk>, live: seq<Chunk>, arena: set<int>,
                         ptr: map<int, int>, size: map<int, int>)
  {
    && Listed(base, free)
    && Linked(free, ptr, size)
    && BlocksOk(base, brk, free, live, arena, size)
  }

  // Every unit of a block, free or live, came from sbrk, and no unit is in two blocks.
  lemma OneBlockPerUnit(base: int, brk: int, free: seq<Chunk>, live: seq<Chunk>, arena: set<int>, size: map<int, int>, u: int, i: nat, j: nat)
    requires Listed(base, free) && BlocksOk(base, brk, free, live, arena, size)
    requires 1 <= i < |free| && j < |live|
    ensures free[i].at <= u < End(free[i]) ==> u in arena && !(live[j].at <= u < End(live[j]))
    ensures live[j].at <= u < End(live[j]) ==> u in arena
    ensures forall m: nat :: m < |live| && m != j && live[j].at <= u < End(live[j]) ==> !(live[m].at <= u < End(live[m]))
    ensures forall m: nat :: m < |free| && m != i && free[i].at <= u < End(free[i]) ==> !(free[m].at <= u < End(free[m]))
  {
    assert Clear(free, i, live, j) && In(free, i, base, brk, arena) && In(live, j, base, brk, arena);
    forall m: nat | m < |live| && m != j ensures Apart(live[m], live[j]) {
      assert Clear(live, m, live, j);
    }
    forall m: nat | m < |free| && m != i ensures Apart(free[m], free[i]) {
      if m < i {
        assert Before(free, m, i);
      } else {
        assert Before(free, i, m);
      }
    }
  }

  // ------------------------------------------------------------------
  // free
  // ------------------------------------------------------------------

  function Drop(l: seq<Chunk>, j: nat): seq<Chunk>
    requires j < |l|
  {
    l[..j] + l[j + 1..]
  }

  // A freed block is not on the list and fits into the gap found for it.
  lemma FitsGap(base: int, brk: int, free: seq<Chunk>, live: seq<Chunk>, arena: set<int>, size: map<int, int>, k: nat, j: nat)
    requires Listed(base, free) && BlocksOk(base, brk, free, live, arena, size)
    requires j < |live| && Gap(free, k, live[j].at)
    ensures live[j].len > 0 && End(free[k]) <= live[j].at && (k + 1 < |free| ==> End(live[j]) <= free[k + 1].at)
  {
    assert In(live, j, base, brk, arena);
    if k > 0 {
      assert Clear(free, k, live, j);
    }
    if k + 1 < |free| {
      assert Clear(free, k + 1, live, j);
    }
  }

  lemma NotListed(base: int, brk: int, free: seq<Chunk>, live: seq<Chunk>, arena: set<int>, size: map<int, int>, j: nat)
    requires Listed(base, free) && BlocksOk(base, brk, free, live, arena, size) && j < |live|
    ensures forall i {:trigger free[i]} :: 0 <= i < |free| ==> free[i].at != live[j].at
    ensures base < live[j].at && Tagged(live, size, j)
  {
    assert In(live, j, base, brk, arena);
    forall i | 0 <= i < |free| ensures free[i].at != live[j].at {
      if i > 0 {
        assert Clear(free, i, live, j);
      }
    }
  }

  lemma {:induction false} FreeSum(free: seq<Chunk>, live: seq<Chunk>, k: nat, j: nat)
    requires k < |free| && j < |live|
    ensures Sum(Insert(free, k, live[j])) + Sum(Drop(live, j)) == Sum(free) + Sum(live)
  {
    InsertSum(free, k, live[j]);
    SumSplit(live, j);
    SumConcat(live[..j], live[j + 1..]);
  }

  lemma InsertWithin(base: int, brk: int, free: seq<Chunk>, k: nat, c: Chunk, arena: set<int>, i: nat)
    requires Listed(base, free) && Gap(free, k, c.at) && Inside(c, base, brk, arena)
    requires End(free[k]) <= c.at && (k + 1 < |free| ==> End(c) <= free[k + 1].at)
    requires Within(free, 1, base, brk, arena)
    requires 1 <= i < |Insert(free, k, c)|
    ensures In(Insert(free, k, c), i, base, brk, arena)
  {
    InsertAt(free, k, c, i);
    var h := i + |free| - |Insert(free, k, c)|;
    if i <= k {
      assert In(free, i, base, brk, arena);
    }
    if k + 1 < |free| {
      assert In(free, k + 1, base, brk, arena);
    }
    if 1 <= h < |free| {
      assert In(free, h, base, brk, arena);
    }
  }

  // What remains live keeps clear of the list with the freed block in it.
  lemma FreeClear(base: int, brk: int, free: seq<Chunk>, live: seq<Chunk>, arena: set<int>, size: map<int, int>,
                  k: nat, j: nat, i: nat, m: nat)
    requires Listed(base, free) && BlocksOk(base, brk, free, live, arena, size)
    requires j < |live| && Gap(free, k, live[j].at) && m < |live| && m != j && 1 <= i < |Insert(free, k, live[j])|
    ensures Apart(Insert(free, k, live[j])[i], live[m])
  {
    FitsGap(base, brk, free, live, arena, size, k, j);
    assert Clear(live, j, live, m) && In(live, m, base, brk, arena);
    forall h | 1 <= h < |free| ensures Apart(free[h], live[m]) {
      assert Clear(free, h, live, m);
    }
    InsertApart(base, free, k, live[j], live[m]);
  }

  lemma FreeDisjoint(base: int, brk: int, free: seq<Chunk>, live: seq<Chunk>, arena: set<int>, size: map<int, int>, k: nat, j: nat)
    requires Listed(base, free) && BlocksOk(base, brk, free, live, arena, size)
    requires j < |live| && Gap(free, k, live[j].at)
    ensures Disjoint(Insert(free, k, live[j]), Drop(live, j))
  {
    var r, live' := Insert(free, k, live[j]), Drop(live, j);
    forall i: nat, m: nat | 1 <= i < |r| && m < |live'| ensures Clear(r, i, live', m) {
      FreeClear(base, brk, free, live, arena, size, k, j, i, if m < j then m else m + 1);
    }
    forall i: nat, m: nat | i < |live'| && m < |live'| && i != m ensures Clear(live', i, live', m) {
      assert Clear(live, if i < j then i else i + 1, live, if m < j then m else m + 1);
    }
  }

  lemma FreeRest(base: int, brk: int, free: seq<Chunk>, live: seq<Chunk>, arena: set<int>, size: map<int, int>,
                 size': map<int, int>, k: nat, j: nat)
    requires Listed(base, free) && BlocksOk(base, brk, free, live, arena, size)
    requires j < |live| && Gap(free, k, live[j].at) && Elsewhere(size, size', live[j].at, free[k].at)
    ensures Within(Insert(free, k, live[j]), 1, base, brk, arena)
    ensures Within(Drop(live, j), 0, base, brk, arena) && Sizes(Drop(live, j), size')
  {
    var r, live' := Insert(free, k, live[j]), Drop(live, j);
    FitsGap(base, brk, free, live, arena, size, k, j);
    assert In(live, j, base, brk, arena);
    forall i: nat | 1 <= i < |r| ensures In(r, i, base, brk, arena) {
      InsertWithin(base, brk, free, k, live[j], arena, i);
    }
    forall m: nat | m < |live'| ensures In(live', m, base, brk, arena) && Tagged(live', size', m) {
      var h := if m < j then m else m + 1;
      assert In(live, h, base, brk, arena) && Tagged(live, size, h);
      NotListed(base, brk, free, live, arena, size, h);
      assert Clear(live, h, live, j);
    }
  }

  // free keeps the heap: whatever the search found, the list stays sorted, coalesced and
  // circular, and no unit is lost or shared.
  lemma {:induction false} FreeAll(base: int, brk: int, free: seq<Chunk>, live: seq<Chunk>, arena: set<int>,
                                   ptr: map<int, int>, size: map<int, int>, ptr': map<int, int>, size': map<int, int>,
                                   k: nat, j: nat)
    requires HeapOk(base, brk, free, live, arena, ptr, size)
    requires j < |live| && Gap(free, k, live[j].at) && Spliced(free, k, live[j], ptr, size, ptr', size')
    ensures HeapOk(base, brk, Insert(free, k, live[j]), Drop(live, j), arena, ptr', size')
    ensures k < |Insert(free, k, live[j])| && Insert(free, k, live[j])[k].at == free[k].at
  {
    FitsGap(base, brk, free, live, arena, size, k, j);
    LinkedInsert(base, free, k, live[j], ptr, size, ptr', size');
    InsertListed(base, free, k, live[j]);
    FreeSum(free, live, k, j);
    FreeDisjoint(base, brk, free, live, arena, size, k, j);
    FreeRest(base, brk, free, live, arena, size, size', k, j);
  }

  // ------------------------------------------------------------------
  // malloc
  // ------------------------------------------------------------------

  // One more live block, clear of everything else.
  lemma AddLive(base: int, brk: int, free: seq<Chunk>, live: seq<Chunk>, arena: set<int>, size: map<int, int>, c: Chunk)
    requires Within(live, 0, base, brk, arena) && Inside(c, base, brk, arena) && Disjoint(free, live) && Sizes(live, size)
    requires forall i {:trigger free[i]} :: 1 <= i < |free| ==> Apart(free[i], c)
    requires forall i {:trigger live[i]} :: 0 <= i < |live| ==> Apart(live[i], c)
    requires c.at in size && size[c.at] == c.len
    ensures Within(live + [c], 0, base, brk, arena) && Disjoint(free, live + [c]) && Sizes(live + [c], size)
  {
    var l := live + [c];
    forall m: nat | m < |l| ensures In(l, m, base, brk, arena) && Tagged(l, size, m) {
      if m < |live| {
        assert In(live, m, base, brk, arena) && Tagged(live, size, m);
      }
    }
    forall i: nat, m: nat | 1 <= i < |free| && m < |l| ensures Clear(free, i, l, m) {
      if m < |live| {
        assert Clear(free, i, live, m);
      }
    }
    forall i: nat, m: nat | i < |l| && m < |l| && i != m ensures Clear(l, i, l, m) {
      if m < |live| && i < |live| {
        assert Clear(live, i, live, m);
      }
    }
  }

  lemma {:induction false} AddSum(live: seq<Chunk>, c: Chunk)
    ensures Sum(live + [c]) == Sum(live) + c.len
  {
    SumConcat(live, [c]);
    SumOne(c);
  }

  // What malloc leaves in the headers when it takes n units of block k.
  ghost predicate Carved(l: seq<Chunk>, ptr: map<int, int>, size: map<int, int>, ptr': map<int, int>, size': map<int, int>, k: nat, n: int)
    requires 1 <= k < |l| && Linked(l, ptr, size)
  {
    assert LinkOk(l, ptr, size, k) && LinkOk(l, ptr, size, k - 1);
    if l[k].len == n then
      size' == size && ptr' == ptr[l[k - 1].at := ptr[l[k].at]]
    else
      ptr' == ptr && size' == size[l[k].at := l[k].len - n][End(l[k]) - n := n]
  }

  lemma {:induction false} LinkedTake(base: int, l: seq<Chunk>, ptr: map<int, int>, size: map<int, int>,
                                      ptr': map<int, int>, size': map<int, int>, k: nat, n: int)
    requires Listed(base, l) && Linked(l, ptr, size) && 1 <= k < |l| && 0 < n <= l[k].len
    requires Carved(l, ptr, size, ptr', size', k, n)
    ensures Linked(Take(l, k, n), ptr', size')
  {
    var r := Take(l, k, n);
    assert LinkOk(l, ptr, size, k);
    forall i: nat | i < |r| ensures LinkOk(r, ptr', size', i) {
      if l[k].len == n {
        var h := if i < k then i else i + 1;
        assert LinkOk(l, ptr, size, h);
        if h < k - 1 {
          Ordered(base, l, h, k - 1);
        } else if h > k - 1 {
          Ordered(base, l, k - 1, h);
        }
      } else {
        assert LinkOk(l, ptr, size, i);
        if i < k {
          Ordered(base, l, i, k);
        } else if i > k {
          Ordered(base, l, k, i);
        }
      }
    }
  }

  // The block handed out keeps clear of what stays free and of the live blocks.
  lemma TakeClear(base: int, brk: int, free: seq<Chunk>, live: seq<Chunk>, arena: set<int>,
                  ptr: map<int, int>, size: map<int, int>, ptr': map<int, int>, size': map<int, int>, k: nat, n: int)
    requires HeapOk(base, brk, free, live, arena, ptr, size)
    requires 1 <= k < |free| && 0 < n <= free[k].len && Carved(free, ptr, size, ptr', size', k, n)
    ensures Disjoint(Take(free, k, n), live) && Sizes(live, size')
    ensures forall i {:trigger live[i]} :: 0 <= i < |live| ==> Apart(live[i], Chunk(End(free[k]) - n, n))
  {
    var r := Take(free, k, n);
    assert LinkOk(free, ptr, size, k);
    forall m: nat | m < |live| ensures Tagged(live, size', m) && Apart(live[m], Chunk(End(free[k]) - n, n)) {
      assert Clear(free, k, live, m) && Tagged(live, size, m) && In(live, m, base, brk, arena);
    }
    forall i: nat, m: nat | 1 <= i < |r| && m < |live| ensures Clear(r, i, live, m) {
      assert Clear(free, if free[k].len == n && i >= k then i + 1 else i, live, m);
    }
    forall i: nat, m: nat | i < |live| && m < |live| && i != m ensures Clear(live, i, live, m) {
    }
  }

  lemma TakeWithin(base: int, brk: int, l: seq<Chunk>, arena: set<int>, k: nat, n: int)
    requires 1 <= k < |l| && 0 < n <= l[k].len && Within(l, 1, base, brk, arena)
    ensures Within(Take(l, k, n), 1, base, brk, arena) && Inside(Chunk(End(l[k]) - n, n), base, brk, arena)
  {
    var r := Take(l, k, n);
    assert In(l, k, base, brk, arena);
    forall i: nat | 1 <= i < |r| ensures In(r, i, base, brk, arena) {
      assert In(l, if l[k].len == n && i >= k then i + 1 else i, base, brk, arena);
    }
  }

  lemma {:induction false} TakeAll(base: int, brk: int, free: seq<Chunk>, live: seq<Chunk>, arena: set<int>,
                                   ptr: map<int, int>, size: map<int, int>, ptr': map<int, int>, size': map<int, int>,
                                   k: nat, n: int)
    requires HeapOk(base, brk, free, live, arena, ptr, size)
    requires 1 <= k < |free| && 0 < n <= free[k].len && Carved(free, ptr, size, ptr', size', k, n)
    ensures HeapOk(base, brk, Take(free, k, n), live + [Chunk(End(free[k]) - n, n)], arena, ptr', size')
    ensures k - 1 < |Take(free, k, n)| && Take(free, k, n)[k - 1].at == free[k - 1].at
  {
    var c := Chunk(End(free[k]) - n, n);
    LinkedTake(base, free, ptr, size, ptr', size', k, n);
    TakeListed(base, free, k, n);
    TakeSum(free, k, n);
    AddSum(live, c);
    TakeWithin(base, brk, free, arena, k, n);
    TakeClear(base, brk, free, live, arena, ptr, size, ptr', size', k, n);
    assert c.at in size' && size'[c.at] == n by {
      assert LinkOk(free, ptr, size, k);
    }
    AddLive(base, brk, Take(free, k, n), live, arena, size', c);
  }

  // ------------------------------------------------------------------
  // morecore
  // ------------------------------------------------------------------

  function Units(at: int, n: nat): (s: set<int>)
    ensures forall u {:trigger u in s} :: u in s <==> at <= u < at + n
    ensures |s| == n
  {
    if n == 0 then {} else Units(at, n - 1) + {at + n - 1}
  }

  // The list free builds has a block at least as long as the one freed.
  lemma InsertHas(base: int, l: seq<Chunk>, k: nat, c: Chunk) returns (t: nat)
    requires Listed(base, l) && k < |l| && c.len > 0
    ensures t < |Insert(l, k, c)| && Insert(l, k, c)[t].len >= c.len
  {
    t := if End(l[k]) == c.at then k else k + 1;
    InsertAt(l, k, c, t);
  }

  lemma WiderWithin(l: seq<Chunk>, from: nat, base: int, brk: int, arena: set<int>, brk': int, arena': set<int>)
    requires Within(l, from, base, brk, arena) && brk <= brk' && arena <= arena'
    ensures Within(l, from, base, brk', arena')
  {
    forall i: nat | from <= i < |l| ensures In(l, i, base, brk', arena') {
      assert In(l, i, base, brk, arena);
    }
  }

  // A block above everything keeps clear of everything.
  lemma AboveAll(l: seq<Chunk>, from: nat, base: int, brk: int, arena: set<int>, c: Chunk)
    requires Within(l, from, base, brk, arena) && brk <= c.at
    ensures forall i {:trigger l[i]} :: from <= i < |l| ==> Apart(l[i], c) && l[i].at != c.at
  {
    forall i: nat | from <= i < |l| ensures Apart(l[i], c) && l[i].at != c.at {
      assert In(l, i, base, brk, arena);
    }
  }

  // Memory from sbrk counts as live until it is freed.
  lemma {:induction false} GrowAll(base: int, brk: int, free: seq<Chunk>, live: seq<Chunk>, arena: set<int>,
                                   ptr: map<int, int>, size: map<int, int>, size': map<int, int>, c: Chunk, arena': set<int>)
    requires HeapOk(base, brk, free, live, arena, ptr, size)
    requires c.len > 0 && base < brk <= c.at
    requires size' == size[c.at := c.len] && arena' == arena + Units(c.at, c.len)
    ensures HeapOk(base, End(c), free, live + [c], arena', ptr, size')
  {
    AboveAll(free, 1, base, brk, arena, c);
    AboveAll(live, 0, base, brk, arena, c);
    WiderWithin(free, 1, base, brk, arena, End(c), arena');
    WiderWithin(live, 0, base, brk, arena, End(c), arena');
    forall i: nat | i < |free| ensures LinkOk(free, ptr, size', i) {
      assert LinkOk(free, ptr, size, i);
    }
    forall m: nat | m < |live| ensures Tagged(live, size', m) {
      assert Tagged(live, size, m);
    }
    AddLive(base, End(c), free, live, arena', size', c);
    AddSum(live, c);
    assert arena !! Units(c.at, c.len);
  }
}
