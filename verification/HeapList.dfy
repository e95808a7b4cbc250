/**
  The free list of user/umalloc.c as a value: blocks in address order, starting at the static
  header "base".  Addresses and lengths are counted in units of one header (16 bytes).
 */
module HeapList {

  datatype Chunk = Chunk(at: int, len: int)

  function End(c: Chunk): int {
    c.at + c.len
  }

  predicate Apart(c: Chunk, d: Chunk) {
    End(c) <= d.at || End(d) <= c.at
  }

  function Sum(l: seq<Chunk>): int {
    if |l| == 0 then 0 else Sum(l[..|l| - 1]) + l[|l| - 1].len
  }

  lemma {:induction false} SumConcat(a: seq<Chunk>, b: seq<Chunk>)
    ensures Sum(a + b) == Sum(a) + Sum(b)
    decreases |b|
  {
    if |b| == 0 {
      assert a + b == a;
    } else {
      assert (a + b)[..|a + b| - 1] == a + b[..|b| - 1];
      SumConcat(a, b[..|b| - 1]);
    }
  }

  lemma {:induction false} SumOne(c: Chunk)
    ensures Sum([c]) == c.len
  {
    assert [c][..0] == [];
  }

  // In address order, and with a gap after every block: nothing is left to coalesce.
  ghost predicate Coalesced(l: seq<Chunk>) {
    forall i: nat, j: nat {:trigger Before(l, i, j)} :: i < j < |l| ==> Before(l, i, j)
  }

  ghost predicate Before(l: seq<Chunk>, i: nat, j: nat)
    requires i < |l| && j < |l|
  {
    End(l[i]) < l[j].at
  }

  // The list as malloc first builds it and free and malloc keep it: base comes first and is empty.
  ghost predicate Listed(base: int, l: seq<Chunk>) {
    && |l| > 0 && l[0] == Chunk(base, 0)
    && Coalesced(l)
    && forall i {:trigger l[i]} :: 1 <= i < |l| ==> l[i].len > 0
  }

  // The links close into a circle.
  function Next(l: seq<Chunk>, k: nat): nat
    requires k < |l|
  {
    if k + 1 < |l| then k + 1 else 0
  }

  // k is where a block at address "at" belongs.
  ghost predicate Gap(l: seq<Chunk>, k: nat, at: int) {
    k < |l| && l[k].at < at && (k + 1 < |l| ==> at < l[k + 1].at)
  }

  ghost function {:induction false} FindGap(base: int, l: seq<Chunk>, at: int): (k: nat)
    requires Listed(base, l) && base < at && forall i {:trigger l[i]} :: 0 <= i < |l| ==> l[i].at != at
    ensures Gap(l, k, at)
  {
    GapExists(base, l, at, |l| - 1);
    var k: nat :| Gap(l, k, at);
    k
  }

  lemma {:induction false} GapExists(base: int, l: seq<Chunk>, at: int, m: nat)
    requires Listed(base, l) && base < at && forall i {:trigger l[i]} :: 0 <= i < |l| ==> l[i].at != at
    requires m < |l| && (m + 1 < |l| ==> at < l[m + 1].at)
    ensures exists k: nat :: Gap(l, k, at)
  {
    if l[m].at < at {
      assert Gap(l, m, at);
    } else {
      GapExists(base, l, at, m - 1);
    }
  }

  // free, on the list: the block goes after position k and merges with either neighbour it touches.
  function Insert(l: seq<Chunk>, k: nat, c: Chunk): seq<Chunk>
    requires k < |l|
  {
    var up := k + 1 < |l| && End(c) == l[k + 1].at;
    var c' := if up then Chunk(c.at, c.len + l[k + 1].len) else c;
    var rest := if up then l[k + 2..] else l[k + 1..];
    if End(l[k]) == c.at then
      l[..k] + [Chunk(l[k].at, l[k].len + c'.len)] + rest
    else
      l[..k + 1] + [c'] + rest
  }

  lemma {:induction false} SumAround(a: seq<Chunk>, c: Chunk, b: seq<Chunk>)
    ensures Sum(a + [c] + b) == Sum(a) + c.len + Sum(b)
  {
    SumConcat(a + [c], b);
    SumConcat(a, [c]);
    SumOne(c);
  }

  lemma {:induction false} SumSplit(l: seq<Chunk>, k: nat)
    requires k < |l|
    ensures Sum(l) == Sum(l[..k]) + l[k].len + Sum(l[k + 1..])
  {
    assert l == l[..k] + [l[k]] + l[k + 1..];
    SumAround(l[..k], l[k], l[k + 1..]);
  }

  lemma {:induction false} SumFirst(l: seq<Chunk>)
    requires |l| > 0
    ensures Sum(l) == l[0].len + Sum(l[1..])
  {
    SumSplit(l, 0);
    assert l[..0] == [];
  }

  lemma {:induction false} RestSum(l: seq<Chunk>, k: nat)
    requires k + 1 < |l|
    ensures Sum(l[k + 1..]) == l[k + 1].len + Sum(l[k + 2..])
  {
    SumFirst(l[k + 1..]);
    assert l[k + 1..][1..] == l[k + 2..];
  }

  lemma {:induction false} JoinSum(l: seq<Chunk>, k: nat, c: Chunk, c': Chunk, rest: seq<Chunk>)
    requires k < |l| && Sum(l[k + 1..]) + c.len == c'.len + Sum(rest)
    ensures Sum(l[..k] + [Chunk(l[k].at, l[k].len + c'.len)] + rest) == Sum(l) + c.len
    ensures Sum(l[..k + 1] + [c'] + rest) == Sum(l) + c.len
  {
    SumSplit(l, k);
    SumAround(l[..k], Chunk(l[k].at, l[k].len + c'.len), rest);
    SumAround(l[..k + 1], c', rest);
    SumSplit(l[..k + 1], k);
    assert l[..k + 1][..k] == l[..k] && l[..k + 1][k + 1..] == [];
  }

  lemma {:induction false} InsertSum(l: seq<Chunk>, k: nat, c: Chunk)
    requires k < |l|
    ensures Sum(Insert(l, k, c)) == Sum(l) + c.len
  {
    if k + 1 < |l| && End(c) == l[k + 1].at {
      RestSum(l, k);
      JoinSum(l, k, c, Chunk(c.at, c.len + l[k + 1].len), l[k + 2..]);
    } else {
      JoinSum(l, k, c, c, l[k + 1..]);
    }
  }

  lemma {:induction false} InsertBefore(l: seq<Chunk>, k: nat, c: Chunk, i: nat, j: nat)
    requires Coalesced(l) && Gap(l, k, c.at) && c.len > 0
    requires forall i {:trigger l[i]} :: 0 <= i < |l| ==> l[i].len >= 0
    requires End(l[k]) <= c.at && (k + 1 < |l| ==> End(c) <= l[k + 1].at)
    requires i < j < |Insert(l, k, c)|
    ensures Before(Insert(l, k, c), i, j)
  {
    InsertAt(l, k, c, i);
    InsertAt(l, k, c, j);
    var shift := |l| - |Insert(l, k, c)|;
    var h := if j <= k then j else if j + shift > k then j + shift else k;
    if i < h {
      assert Before(l, i, h);
    }
    if i < k {
      assert Before(l, i, k);
    }
    if k < h {
      assert Before(l, k, h);
    }
    if k + 1 < h {
      assert Before(l, k + 1, h);
    }
    if 0 <= i + shift < h {
      assert Before(l, i + shift, h);
    }
  }

  lemma {:induction false} InsertListed(base: int, l: seq<Chunk>, k: nat, c: Chunk)
    requires Listed(base, l) && Gap(l, k, c.at) && c.len > 0
    requires End(l[k]) <= c.at && (k + 1 < |l| ==> End(c) <= l[k + 1].at)
    ensures Listed(base, Insert(l, k, c))
    ensures k < |Insert(l, k, c)| && Insert(l, k, c)[k].at == l[k].at
  {
    var r := Insert(l, k, c);
    forall i: nat, j: nat | i < j < |r| ensures Before(r, i, j) {
      InsertBefore(l, k, c, i, j);
    }
    InsertAt(l, k, c, 0);
    assert r[0] == l[0];
    forall i | 1 <= i < |r| ensures r[i].len > 0 {
      InsertAt(l, k, c, i);
    }
  }

  // Where each block of the new list comes from.
  lemma {:induction false} InsertAt(l: seq<Chunk>, k: nat, c: Chunk, i: nat)
    requires k < |l| && i < |Insert(l, k, c)|
    ensures var up := k + 1 < |l| && End(c) == l[k + 1].at;
            var down := End(l[k]) == c.at;
            var len := c.len + if up then l[k + 1].len else 0;
            var shift := (if up then 1 else 0) - (if down then 0 else 1);
            && |Insert(l, k, c)| == |l| - shift
            && Insert(l, k, c)[i] ==
                 if i < k then l[i]
                 else if down && i == k then Chunk(l[k].at, l[k].len + len)
                 else if !down && i == k then l[k]
                 else if !down && i == k + 1 then Chunk(c.at, len)
                 else l[i + shift]
  {
  }

  // Nothing that was apart from the list and the block touches the new list.
  lemma {:induction false} InsertApart(base: int, l: seq<Chunk>, k: nat, c: Chunk, d: Chunk)
    requires Listed(base, l) && Gap(l, k, c.at) && c.len > 0 && d.len > 0
    requires End(l[k]) <= c.at && (k + 1 < |l| ==> End(c) <= l[k + 1].at)
    requires Apart(c, d) && forall i {:trigger l[i]} :: 1 <= i < |l| ==> Apart(l[i], d)
    requires base < d.at
    ensures forall i :: 1 <= i < |Insert(l, k, c)| ==> Apart(Insert(l, k, c)[i], d)
  {
  }

  // Taking len units from the tail of block k, or all of it.
  function Take(l: seq<Chunk>, k: nat, len: int): seq<Chunk>
    requires k < |l|
  {
    if l[k].len == len then l[..k] + l[k + 1..] else l[k := Chunk(l[k].at, l[k].len - len)]
  }

  lemma {:induction false} TakeSum(l: seq<Chunk>, k: nat, len: int)
    requires k < |l|
    ensures Sum(Take(l, k, len)) == Sum(l) - len
  {
    SumSplit(l, k);
    if l[k].len == len {
      SumConcat(l[..k], l[k + 1..]);
    } else {
      var r := Take(l, k, len);
      SumSplit(r, k);
      assert r[..k] == l[..k] && r[k + 1..] == l[k + 1..];
    }
  }

  lemma {:induction false} TakeListed(base: int, l: seq<Chunk>, k: nat, len: int)
    requires Listed(base, l) && 1 <= k < |l| && 0 < len <= l[k].len
    ensures Listed(base, Take(l, k, len))
    ensures forall i {:trigger Take(l, k, len)[i]} :: 1 <= i < |Take(l, k, len)| ==>
              Apart(Take(l, k, len)[i], Chunk(End(l[k]) - len, len))
  {
    var r := Take(l, k, len);
    var cut := l[k].len == len;
    forall i: nat, j: nat | i < j < |r| ensures Before(r, i, j) {
      assert Before(l, if cut && i >= k then i + 1 else i, if cut && j >= k then j + 1 else j);
    }
    forall i | 1 <= i < |r| ensures Apart(r[i], Chunk(End(l[k]) - len, len)) {
      var h := if cut && i >= k then i + 1 else i;
      if h < k {
        assert Before(l, h, k);
      } else if h > k {
        assert Before(l, k, h);
      }
    }
  }

  lemma Ordered(base: int, l: seq<Chunk>, i: nat, j: nat)
    requires Listed(base, l) && i < j < |l|
    ensures End(l[i]) < l[j].at && l[i].at < l[j].at
  {
    assert Before(l, i, j);
  }

  // One look of free's search: it stops at the gap where the block belongs and nowhere else.
  lemma SearchStep(base: int, l: seq<Chunk>, cur: nat, goal: nat, bp: int)
    requires Listed(base, l) && Gap(l, goal, bp) && base < bp && cur < |l|
    ensures var p, next := l[cur].at, l[Next(l, cur)].at;
            cur == goal <==> (bp > p && bp < next) || (p >= next && (bp > p || bp < next))
  {
    if cur < goal {
      Ordered(base, l, cur, cur + 1);
      if cur + 1 < goal {
        Ordered(base, l, cur + 1, goal);
      }
    } else if goal < cur {
      if goal + 1 < cur {
        Ordered(base, l, goal + 1, cur);
      }
      if cur + 1 < |l| {
        Ordered(base, l, cur, cur + 1);
      }
    }
    if 0 < cur {
      Ordered(base, l, 0, cur);
    }
  }
}
