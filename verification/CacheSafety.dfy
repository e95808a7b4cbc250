/**
  Every run of the buffer cache: bread returns the latest data, keys are unique, logged blocks
  stay cached, and the victim of bget is the buffer that has been out of use longest.
 */
module CacheSafety {
  import opened CacheMachine

  predicate Cached(bufs: seq<Buf>, k: Key) {
    exists b :: 0 <= b < |bufs| && bufs[b].key == k
  }

  predicate UniqueKeys(bufs: seq<Buf>) {
    forall a, b :: 0 <= a < b < |bufs| && bufs[a].key == bufs[b].key ==> bufs[a].key.dev == 0
  }

  // The disk is behind the cache only for valid buffers that are dirty or pinned.
  predicate BufInv(s: State, c: Buf) {
    && c.refcnt == c.refs + (if c.key in s.pinned then 1 else 0)
    && (c.locked ==> 1 <= c.refs)
    && (1 <= c.refs ==> c.key.dev != 0)
    && (c.dirty ==> c.locked && c.valid)
    && (c.valid ==> c.key.dev != 0 && c.data == At(s.latest, c.key))
    && (!c.valid ==> c.key !in s.pinned)
    && (c.key.dev != 0 && !c.dirty && c.key !in s.pinned ==> At(s.disk, c.key) == At(s.latest, c.key))
    && c.idle == c.moved <= s.clock
  }

  ghost predicate Uncached(s: State) {
    forall k: Key :: k.dev != 0 && !Cached(s.bufs, k) ==> k !in s.pinned && At(s.disk, k) == At(s.latest, k)
  }

  // The list is in order of release, the latest first.
  predicate Sorted(s: State)
    requires Shape(s)
  {
    forall i, j :: 0 <= i < j < NBUF ==> s.bufs[s.order[i]].moved > s.bufs[s.order[j]].moved
  }

  ghost predicate Inv(s: State) {
    && Shape(s)
    && (forall b :: 0 <= b < NBUF ==> BufInv(s, s.bufs[b]))
    && UniqueKeys(s.bufs)
    && (forall k :: k in s.pinned ==> k.dev != 0)
    && Uncached(s)
    && Sorted(s)
  }

  lemma InitInv(s: State)
    requires Init(s)
    ensures Inv(s)
  {
    forall b | 0 <= b < NBUF
      ensures BufInv(s, s.bufs[b])
    {
      assert s.bufs[b].(data := []).key == Key(0, 0);
    }
  }

  // Replacing one buffer by one with the same key.
  lemma SameKeyUpdate(s: State, t: State, b: nat, c: Buf)
    requires Inv(s) && b < NBUF && c.key == s.bufs[b].key && t.bufs == s.bufs[b := c]
    ensures UniqueKeys(t.bufs)
    ensures forall k :: Cached(t.bufs, k) == Cached(s.bufs, k)
  {
    forall k
      ensures Cached(t.bufs, k) == Cached(s.bufs, k)
    {
      if Cached(s.bufs, k) {
        var a :| 0 <= a < |s.bufs| && s.bufs[a].key == k;
        assert t.bufs[a].key == k;
      }
      if Cached(t.bufs, k) {
        var a :| 0 <= a < |t.bufs| && t.bufs[a].key == k;
        assert s.bufs[a].key == k;
      }
    }
  }

  lemma FindComplete(s: State, k: Key)
    requires Shape(s) && Find(s.bufs, s.order, k) == NBUF
    ensures !Cached(s.bufs, k)
  {
    forall b | 0 <= b < NBUF
      ensures s.bufs[b].key != k
    {
      assert b in s.order;
    }
  }

  lemma CachedUnlessReplaced(bufs: seq<Buf>, v: nat, c: Buf, k: Key)
    requires v < |bufs| && Cached(bufs, k)
    ensures Cached(bufs[v := c], k) || k == bufs[v].key
  {
    var b :| 0 <= b < |bufs| && bufs[b].key == k;
    if b != v {
      assert bufs[v := c][b].key == k;
    }
  }

  // Recycling: the victim is neither pinned nor dirty, so the disk has its latest data.
  lemma MissInv(s: State, key: Key)
    requires Inv(s) && Enabled(s, Get(key)) && Find(s.bufs, s.order, key) == NBUF
    ensures Inv(Do(s, Get(key)))
  {
    var v := Victim(s.bufs, s.order);
    var t := Do(s, Get(key));
    FindComplete(s, key);
    assert BufInv(s, s.bufs[v]);
    assert t.bufs[v].key == key;
    forall k: Key | k.dev != 0 && !Cached(t.bufs, k)
      ensures k !in t.pinned && At(t.disk, k) == At(t.latest, k)
    {
      if Cached(s.bufs, k) {
        CachedUnlessReplaced(s.bufs, v, t.bufs[v], k);
      }
    }
    forall a | 0 <= a < NBUF && a != v
      ensures t.bufs[a].key != key
    {
      assert s.bufs[a].key != key;
    }
  }

  lemma {:induction false} VictimIsLast(bufs: seq<Buf>, order: seq<nat>, i: nat)
    requires forall k :: 0 <= k < |order| ==> order[k] < |bufs|
    requires i < |order| && bufs[order[i]].refcnt == 0
    ensures Victim(bufs, order) < |bufs|
    ensures exists j :: i <= j < |order| && order[j] == Victim(bufs, order)
  {
    var n := |order| - 1;
    if bufs[order[n]].refcnt != 0 {
      VictimIsLast(bufs, order[..n], i);
      var j :| i <= j < n && order[..n][j] == Victim(bufs, order[..n]);
      assert order[j] == Victim(bufs, order);
    }
  }

  lemma ToFrontIsOrder(order: seq<nat>, b: nat)
    requires IsOrder(order, NBUF) && b < NBUF
    ensures IsOrder(ToFront(order, b), NBUF)
  {
    var i := PlaceOf(order, b);
    var o := ToFront(order, b);
    forall a | 0 <= a < NBUF
      ensures a in o
    {
      var j := PlaceOf(order, a);
      assert o[if j < i then j + 1 else if j == i then 0 else j] == a;
    }
  }

  // Changing only buffer b, and the disk and latest contents only of its block.
  lemma OthersKept(s: State, t: State, b: nat)
    requires Inv(s) && b < NBUF == |t.bufs| && t.bufs == s.bufs[b := t.bufs[b]] && t.bufs[b].key == s.bufs[b].key
    requires s.bufs[b].key.dev != 0 && s.clock <= t.clock
    requires forall k :: k != s.bufs[b].key ==>
      At(t.disk, k) == At(s.disk, k) && At(t.latest, k) == At(s.latest, k) && (k in t.pinned <==> k in s.pinned)
    requires BufInv(t, t.bufs[b])
    ensures forall a :: 0 <= a < NBUF ==> BufInv(t, t.bufs[a])
    ensures UniqueKeys(t.bufs) && Uncached(t)
    ensures forall k :: k in t.pinned ==> k.dev != 0
  {
    SameKeyUpdate(s, t, b, t.bufs[b]);
    assert Cached(s.bufs, s.bufs[b].key);
    forall a | 0 <= a < NBUF
      ensures BufInv(t, t.bufs[a])
    {
      assert BufInv(s, s.bufs[a]);
    }
  }

  lemma HitInv(s: State, key: Key)
    requires Inv(s) && Enabled(s, Get(key)) && Find(s.bufs, s.order, key) < NBUF
    ensures Inv(Do(s, Get(key)))
  {
    var h := Find(s.bufs, s.order, key);
    var t := Do(s, Get(key));
    assert BufInv(s, s.bufs[h]);
    OthersKept(s, t, h);
  }

  // Steps that keep the list.
  lemma LocalInv(s: State, step: Step)
    requires Inv(s) && Enabled(s, step)
    requires step.Lock? || step.Fill? || step.Change? || step.LogWrite? || step.Write? || step.Unpin? || step.Unlock?
    ensures Inv(Do(s, step))
  {
    var t := Do(s, step);
    var b := step.b;
    assert BufInv(s, s.bufs[b]);
    OthersKept(s, t, b);
  }

  lemma FrontSorted(s: State, t: State, b: nat)
    requires Inv(s) && b < NBUF && Shape(t) && t.bufs == s.bufs[b := t.bufs[b]] && t.order == ToFront(s.order, b)
    requires t.bufs[b].moved == s.clock + 1
    ensures Sorted(t)
  {
    var p := PlaceOf(s.order, b);
    forall i, j | 0 <= i < j < NBUF
      ensures t.bufs[t.order[i]].moved > t.bufs[t.order[j]].moved
    {
      var j' := if j <= p then j - 1 else j;
      assert t.order[j] == s.order[j'];
      assert BufInv(s, s.bufs[s.order[j']]);
    }
  }

  lemma DropInv(s: State, b: nat)
    requires Inv(s) && Enabled(s, Drop(b))
    ensures Inv(Do(s, Drop(b)))
  {
    var t := Do(s, Drop(b));
    assert BufInv(s, s.bufs[b]);
    OthersKept(s, t, b);
    if t.bufs[b].refcnt == 0 {
      ToFrontIsOrder(s.order, b);
      FrontSorted(s, t, b);
    }
  }

  lemma NextInv(s: State, t: State)
    requires Inv(s) && Next(s, t)
    ensures Inv(t)
  {
    var step :| Enabled(s, step) && t == Do(s, step);
    if step.Get? {
      if Find(s.bufs, s.order, step.key) < NBUF { HitInv(s, step.key); } else { MissInv(s, step.key); }
    } else if step.Drop? {
      DropInv(s, step.b);
    } else {
      LocalInv(s, step);
    }
  }

  lemma {:induction false} RunInv(run: seq<State>, n: nat)
    requires IsRun(run) && n < |run|
    ensures Inv(run[n])
  {
    if n == 0 {
      InitInv(run[0]);
    } else {
      RunInv(run, n - 1);
      NextInv(run[n - 1], run[n]);
    }
  }

  // ------------------------------------------------------------------
  // Main results
  // ------------------------------------------------------------------

  // Cache refines disk.  In every run, the buffer that bread hands out, locked and filled,
  // holds the latest data of the block asked for, however hits, misses and evictions fell.
  lemma BreadReturnsLatest(run: seq<State>, n: nat, b: nat)
    requires IsRun(run) && n < |run| && Enabled(run[n], Fill(b))
    ensures
      var t := Do(run[n], Fill(b));
      && t.bufs[b].valid && t.bufs[b].key == run[n].bufs[b].key
      && t.bufs[b].data == At(t.latest, t.bufs[b].key)
      && t.latest == run[n].latest
  {
    RunInv(run, n);
    assert BufInv(run[n], run[n].bufs[b]);
  }

  // bget hands out a buffer with the key asked for, and while it is referred to no step gives
  // it another key.
  lemma KeyStaysWhileReferenced(run: seq<State>, n: nat, step: Step, b: nat)
    requires IsRun(run) && n < |run| && Enabled(run[n], step)
    requires b < NBUF && (1 <= run[n].bufs[b].refs || run[n].bufs[b].key in run[n].pinned)
    ensures Do(run[n], step).bufs[b].key == run[n].bufs[b].key
  {
    RunInv(run, n);
    assert BufInv(run[n], run[n].bufs[b]);
  }

  // No two buffers cache the same block, and a block logged and not yet installed is cached
  // by a valid buffer that bget will not recycle.
  lemma PinnedStaysCached(run: seq<State>, n: nat, k: Key)
    requires IsRun(run) && n < |run| && k in run[n].pinned
    ensures |run[n].bufs| == NBUF
    ensures exists b :: 0 <= b < NBUF && run[n].bufs[b].key == k && run[n].bufs[b].valid
                        && 1 <= run[n].bufs[b].refcnt && run[n].bufs[b].data == At(run[n].latest, k)
  {
    RunInv(run, n);
    assert Cached(run[n].bufs, k);
    var b :| 0 <= b < NBUF && run[n].bufs[b].key == k;
    assert BufInv(run[n], run[n].bufs[b]);
  }

  lemma KeysUnique(run: seq<State>, n: nat, a: nat, b: nat)
    requires IsRun(run) && n < |run| && a < |run[n].bufs| && b < |run[n].bufs|
    requires run[n].bufs[a].key == run[n].bufs[b].key && run[n].bufs[a].key.dev != 0
    ensures a == b
  {
    RunInv(run, n);
  }

  // The victim of bget is the unreferenced buffer that fell out of use earliest; the only
  // caller of bunpin holds the buffer, so a count never falls to zero there.
  lemma VictimIsOldest(run: seq<State>, n: nat, b: nat)
    requires IsRun(run) && n < |run| && b < |run[n].bufs| && run[n].bufs[b].refcnt == 0
    ensures Shape(run[n])
    ensures
      var v := Victim(run[n].bufs, run[n].order);
      v < NBUF && run[n].bufs[v].refcnt == 0 && (v != b ==> run[n].bufs[v].idle < run[n].bufs[b].idle)
  {
    var s := run[n];
    RunInv(run, n);
    var i := PlaceOf(s.order, b);
    VictimIsLast(s.bufs, s.order, i);
    var j :| i <= j < NBUF && s.order[j] == Victim(s.bufs, s.order);
    assert BufInv(s, s.bufs[b]) && BufInv(s, s.bufs[s.order[j]]);
  }

  // bunpin never drops a count to zero.
  lemma UnpinKeepsCount(run: seq<State>, n: nat, b: nat)
    requires IsRun(run) && n < |run| && Enabled(run[n], Unpin(b))
    ensures 2 <= run[n].bufs[b].refcnt
  {
    RunInv(run, n);
    assert BufInv(run[n], run[n].bufs[b]);
  }
}
