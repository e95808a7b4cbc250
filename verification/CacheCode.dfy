/**
  The code of kernel/bio.c: an array of buffers on a circular doubly linked list through
  prev and next, with the list head as an extra node.

  Each method is one or more critical sections; a ghost run of CacheMachine follows them.
 */
module CacheCode {
  import opened CacheMachine
  import CacheSafety

  const HEAD: nat := NBUF

  // The nodes met from the head back to the head.
  function Circle(o: seq<nat>): seq<nat> {
    [HEAD] + o + [HEAD]
  }

  // next leads round the circle and prev is its inverse.
  predicate Ring(p: seq<nat>, n: seq<nat>, o: seq<nat>) {
    && |p| == |n| == NBUF + 1
    && (forall i :: 0 <= i < |o| ==> o[i] < NBUF)
    && (forall i, j :: 0 <= i < j < |o| ==> o[i] != o[j])
    && (forall i, j :: 0 <= i && j == i + 1 < |Circle(o)| ==>
         n[Circle(o)[i]] == Circle(o)[j] && p[Circle(o)[j]] == Circle(o)[i])
  }

  // Unlinking a node: its neighbours are joined.
  lemma RingRemove(p: seq<nat>, n: seq<nat>, o: seq<nat>, k: nat)
    requires Ring(p, n, o) && k < |o|
    ensures
      var b := o[k];
      && p[b] <= NBUF && n[b] <= NBUF
      && Ring(p[n[b] := p[b]], n[p[b] := n[b]], o[..k] + o[k + 1..])
  {
    var b := o[k];
    var c := Circle(o);
    var o' := o[..k] + o[k + 1..];
    var c' := Circle(o');
    assert c[k + 1] == b;
    assert n[b] == c[k + 2] && p[b] == c[k];
    forall i | 0 <= i < |c'|
      ensures c'[i] == if i <= k then c[i] else c[i + 1]
    {
    }
    var p', n' := p[n[b] := p[b]], n[p[b] := n[b]];
    forall i, j | 0 <= i && j == i + 1 < |c'|
      ensures n'[c'[i]] == c'[j] && p'[c'[j]] == c'[i]
    {
      if i < k {
        assert n[c[i]] == c[i + 1] && p[c[i + 1]] == c[i];
      } else if i > k {
        assert n[c[i + 1]] == c[i + 2] && p[c[i + 2]] == c[i + 1];
      }
    }
  }

  // Linking a node in behind the head.
  lemma RingInsert(p: seq<nat>, n: seq<nat>, o: seq<nat>, b: nat)
    requires Ring(p, n, o) && b < NBUF && b !in o
    ensures
      var n1 := n[b := n[HEAD]];
      var p1 := p[b := HEAD];
      && n1[HEAD] <= NBUF
      && Ring(p1[n1[HEAD] := b], n1[HEAD := b], [b] + o)
  {
    var c := Circle(o);
    var c' := Circle([b] + o);
    assert c[0] == HEAD && n[c[0]] == c[1];
    var n1 := n[b := n[HEAD]];
    var p1 := p[b := HEAD];
    var p', n' := p1[n1[HEAD] := b], n1[HEAD := b];
    forall i, j | 0 <= i && j == i + 1 < |c'|
      ensures n'[c'[i]] == c'[j] && p'[c'[j]] == c'[i]
    {
      if i >= 1 {
        assert c'[i] == c[i - 1] || i == 1;
        assert n[c[i - 1]] == c[i] && p[c[i]] == c[i - 1];
      }
    }
  }

  // struct buf, without its links.
  datatype CBuf = CBuf(dev: nat, blockno: nat, refcnt: nat, valid: bool, locked: bool, data: Data)

  predicate Matches(c: CBuf, m: Buf) {
    m.key == Key(c.dev, c.blockno) && m.refcnt == c.refcnt && m.valid == c.valid && m.locked == c.locked && m.data == c.data
  }

  lemma ExtendRun(run: seq<State>, step: Step)
    requires IsRun(run) && Enabled(run[|run| - 1], step)
    ensures IsRun(run + [Do(run[|run| - 1], step)])
  {
    var r := run + [Do(run[|run| - 1], step)];
    forall i, j | 0 <= i && j == i + 1 < |r|
      ensures Next(r[i], r[j])
    {
      if j < |run| {
        assert Next(run[i], run[j]);
      }
    }
  }

  class BCache {
    const bufs: array<CBuf>
    const prev: array<nat>
    const next: array<nat>
    var disk: map<Key, Data>
    ghost var run: seq<State>

    ghost function Now(): State
      requires run != []
      reads this
    {
      run[|run| - 1]
    }

    ghost predicate Alloc() {
      bufs.Length == NBUF && prev.Length == next.Length == NBUF + 1 && prev != next
    }

    ghost predicate Valid()
      reads this, bufs, prev, next
    {
      && Alloc()
      && IsRun(run)
      && Shape(Now())
      && Now().disk == disk
      && Ring(prev[..], next[..], Now().order)
      && (forall b :: 0 <= b < NBUF ==> Matches(bufs[b], Now().bufs[b]))
    }

    // binit: every buffer is linked in behind the head in turn.
    constructor (disk: map<Key, Data>)
      ensures Valid() && fresh(bufs) && fresh(prev) && fresh(next)
      ensures this.disk == disk && |run| == 1 && Now().disk == disk
    {
      var fresh0 := new CBuf[NBUF](_ => CBuf(0, 0, 0, false, false, []));
      var p := new nat[NBUF + 1];
      var n := new nat[NBUF + 1];
      bufs, prev, next := fresh0, p, n;
      this.disk := disk;
      new;
      p[HEAD] := HEAD;
      n[HEAD] := HEAD;
      var b := 0;
      ghost var o: seq<nat> := [];
      while b < NBUF
        invariant 0 <= b <= NBUF
        invariant |o| == b && forall i :: 0 <= i < b ==> o[i] == b - 1 - i
        invariant Ring(p[..], n[..], o)
        modifies p, n
      {
        RingInsert(p[..], n[..], o, b);
        n[b] := n[HEAD];
        p[b] := HEAD;
        p[n[HEAD]] := b;
        n[HEAD] := b;
        o := [b] + o;
        b := b + 1;
      }
      ghost var bs := seq(NBUF, i requires 0 <= i < NBUF => Buf(Key(0, 0), 0, false, false, [], 0, false, i, i));
      run := [State(bs, o, disk, disk, {}, NBUF)];
      forall c | 0 <= c < NBUF
        ensures c in o
      {
        assert o[NBUF - 1 - c] == c;
      }
    }

    ghost method Record(step: Step)
      requires IsRun(run) && Enabled(Now(), step)
      modifies this`run
      ensures IsRun(run) && run == old(run) + [Do(old(Now()), step)]
    {
      ExtendRun(run, step);
      run := run + [Do(Now(), step)];
    }

    // The forward scan: is the block already cached?
    method Lookup(dev: nat, blockno: nat) returns (b: nat)
      requires Valid()
      ensures b == Find(Now().bufs, Now().order, Key(dev, blockno))
    {
      ghost var o := Now().order;
      ghost var i := 0;
      b := next[HEAD];
      assert Circle(o)[1] == b by { assert Circle(o)[0] == HEAD; }
      assert o[0..] == o;
      while b != HEAD
        invariant 0 <= i <= NBUF && b == Circle(o)[i + 1]
        invariant Find(Now().bufs, o, Key(dev, blockno)) == Find(Now().bufs, o[i..], Key(dev, blockno))
        decreases NBUF - i
      {
        assert b == o[i];
        if bufs[b].dev == dev && bufs[b].blockno == blockno {
          return;
        }
        assert Circle(o)[i + 2] == next[b];
        assert o[i..][1..] == o[i + 1..];
        b := next[b];
        i := i + 1;
      }
    }

    // The backward scan: the least recently used buffer that nobody refers to.
    method FindVictim() returns (b: nat)
      requires Valid()
      ensures b == Victim(Now().bufs, Now().order)
    {
      ghost var o := Now().order;
      ghost var i := NBUF;
      assert Circle(o)[NBUF + 1] == HEAD;
      b := prev[HEAD];
      assert Circle(o)[NBUF] == b;
      assert o[..NBUF] == o;
      while b != HEAD
        invariant 0 <= i <= NBUF && b == Circle(o)[i]
        invariant Victim(Now().bufs, o) == Victim(Now().bufs, o[..i])
        decreases i
      {
        assert b == o[i - 1];
        if bufs[b].refcnt == 0 {
          return;
        }
        assert Circle(o)[i - 1] == prev[b];
        assert o[..i][..i - 1] == o[..i - 1];
        b := prev[b];
        i := i - 1;
      }
    }

    // bget, up to acquiresleep; the result NBUF is the panic for want of buffers.
    method Bget(dev: nat, blockno: nat) returns (b: nat)
      requires Valid() && dev != 0
      modifies bufs, this`run
      ensures Valid()
      ensures b == NBUF <==> old(!Enabled(Now(), Get(Key(dev, blockno))))
      ensures b == NBUF ==> run == old(run)
      ensures b < NBUF ==> run == old(run) + [Do(old(Now()), Get(Key(dev, blockno)))]
      ensures b < NBUF ==> bufs[b].dev == dev && bufs[b].blockno == blockno && 1 <= bufs[b].refcnt
      ensures b <= NBUF
    {
      b := Lookup(dev, blockno);
      if b != NBUF {
        TakeCached(b, dev, blockno);
        return;
      }
      b := FindVictim();
      if b != NBUF {
        Recycle(b, dev, blockno);
      }
    }

    method TakeCached(b: nat, dev: nat, blockno: nat)
      requires Valid() && dev != 0 && b < NBUF && b == Find(Now().bufs, Now().order, Key(dev, blockno))
      modifies bufs, this`run
      ensures Valid() && old(Enabled(Now(), Get(Key(dev, blockno))))
      ensures run == old(run) + [Do(old(Now()), Get(Key(dev, blockno)))]
      ensures bufs[b].dev == dev && bufs[b].blockno == blockno && 1 <= bufs[b].refcnt
    {
      Record(Get(Key(dev, blockno)));
      bufs[b] := bufs[b].(refcnt := bufs[b].refcnt + 1);
    }

    method Recycle(b: nat, dev: nat, blockno: nat)
      requires Valid() && dev != 0 && b < NBUF && b == Victim(Now().bufs, Now().order)
      requires Find(Now().bufs, Now().order, Key(dev, blockno)) == NBUF
      modifies bufs, this`run
      ensures Valid() && old(Enabled(Now(), Get(Key(dev, blockno))))
      ensures run == old(run) + [Do(old(Now()), Get(Key(dev, blockno)))]
      ensures bufs[b].dev == dev && bufs[b].blockno == blockno && 1 <= bufs[b].refcnt
    {
      Record(Get(Key(dev, blockno)));
      bufs[b] := bufs[b].(dev := dev, blockno := blockno, valid := false, refcnt := 1);
    }

    // acquiresleep(&b->lock), when the lock is free.
    method LockBuf(b: nat)
      requires Valid() && Enabled(Now(), Lock(b))
      modifies bufs, this`run
      ensures Valid() && run == old(run) + [Do(old(Now()), Lock(b))]
    {
      Record(Lock(b));
      bufs[b] := bufs[b].(locked := true);
    }

    // The rest of bread: the buffer handed out holds the latest data of its block.
    method FillBuf(b: nat)
      requires Valid() && Enabled(Now(), Fill(b))
      modifies bufs, this`run
      ensures Valid() && run == old(run) + [Do(old(Now()), Fill(b))]
      ensures bufs[b].valid && bufs[b].data == At(Now().latest, Key(bufs[b].dev, bufs[b].blockno))
    {
      CacheSafety.BreadReturnsLatest(run, |run| - 1, b);
      Record(Fill(b));
      if !bufs[b].valid {
        var k := Key(bufs[b].dev, bufs[b].blockno);
        bufs[b] := bufs[b].(data := if k in disk then disk[k] else [], valid := true);
      }
    }

    // The holder changes the contents.
    method ChangeBuf(b: nat, data: Data)
      requires Valid() && Enabled(Now(), Change(b, data))
      modifies bufs, this`run
      ensures Valid() && run == old(run) + [Do(old(Now()), Change(b, data))]
    {
      Record(Change(b, data));
      bufs[b] := bufs[b].(data := data);
    }

    method Bwrite(b: nat) returns (panicked: bool)
      requires Valid() && b < NBUF && (bufs[b].locked ==> bufs[b].valid)
      modifies this`disk, this`run
      ensures Valid() && panicked == !old(bufs[b].locked)
      ensures run == if panicked then old(run) else old(run) + [Do(old(Now()), Write(b))]
    {
      panicked := !bufs[b].locked;
      if !panicked {
        Record(Write(b));
        disk := disk[Key(bufs[b].dev, bufs[b].blockno) := bufs[b].data];
      }
    }

    // bpin, called by log_write for a block new to the log.
    method Bpin(b: nat)
      requires Valid() && Enabled(Now(), LogWrite(b)) && Now().bufs[b].key !in Now().pinned
      modifies bufs, this`run
      ensures Valid() && run == old(run) + [Do(old(Now()), LogWrite(b))]
      ensures bufs[..] == old(bufs[..])[b := old(bufs[b]).(refcnt := old(bufs[b]).refcnt + 1)]
    {
      Record(LogWrite(b));
      bufs[b] := bufs[b].(refcnt := bufs[b].refcnt + 1);
    }

    // log_write on the cache's side: a block that the log already lists stays pinned as it is.
    method LogBuf(b: nat, listed: bool)
      requires Valid() && Enabled(Now(), LogWrite(b)) && (listed <==> Now().bufs[b].key in Now().pinned)
      modifies bufs, this`run
      ensures Valid() && run == old(run) + [Do(old(Now()), LogWrite(b))]
      ensures bufs[..] == old(bufs[..])[b := old(bufs[b]).(refcnt := old(bufs[b]).refcnt + if listed then 0 else 1)]
    {
      if listed {
        Record(LogWrite(b));
      } else {
        Bpin(b);
      }
    }

    method Bunpin(b: nat)
      requires Valid() && Enabled(Now(), Unpin(b))
      modifies bufs, this`run
      ensures Valid() && run == old(run) + [Do(old(Now()), Unpin(b))]
      ensures 1 <= bufs[b].refcnt
    {
      CacheSafety.UnpinKeepsCount(run, |run| - 1, b);
      Record(Unpin(b));
      bufs[b] := bufs[b].(refcnt := bufs[b].refcnt - 1);
    }

    // Move b to the head of the list.
    method MoveToFront(b: nat, ghost o: seq<nat>)
      requires Alloc() && b < NBUF && IsOrder(o, NBUF) && Ring(prev[..], next[..], o)
      modifies prev, next
      ensures Ring(prev[..], next[..], ToFront(o, b))
    {
      ghost var k := PlaceOf(o, b);
      RingRemove(prev[..], next[..], o, k);
      prev[next[b]] := prev[b];
      next[prev[b]] := next[b];
      RingInsert(prev[..], next[..], o[..k] + o[k + 1..], b);
      next[b] := next[HEAD];
      prev[b] := HEAD;
      prev[next[HEAD]] := b;
      next[HEAD] := b;
      assert ToFront(o, b) == [b] + (o[..k] + o[k + 1..]);
    }

    // brelse, first part: give up the sleep lock.
    method ReleaseBuf(b: nat) returns (panicked: bool)
      requires Valid() && b < NBUF && !Now().bufs[b].dirty
      modifies bufs, this`run
      ensures Valid() && panicked == !old(bufs[b].locked)
      ensures run == if panicked then old(run) else old(run) + [Do(old(Now()), Unlock(b))]
    {
      panicked := !bufs[b].locked;
      if !panicked {
        Record(Unlock(b));
        bufs[b] := bufs[b].(locked := false);
      }
    }

    // brelse, second part: drop the reference; the last one moves the buffer to the front.
    method DropBuf(b: nat)
      requires Valid() && Enabled(Now(), Drop(b))
      modifies bufs, prev, next, this`run
      ensures Valid() && run == old(run) + [Do(old(Now()), Drop(b))]
    {
      ghost var o := Now().order;
      CacheSafety.ToFrontIsOrder(o, b);
      Record(Drop(b));
      bufs[b] := bufs[b].(refcnt := bufs[b].refcnt - 1);
      if bufs[b].refcnt == 0 {
        MoveToFront(b, o);
      }
    }
  }
}
