/**
  kernel/virtio_disk.c over the arrays it shares with the device.  Each method is what happens
  while vdisk_lock is held; the device's two methods may be called between any of them.  Every
  method records the steps it takes, so a disk that methods have worked on is the end of a run.
 */
module VirtioCode {
  import opened VirtioModel
  import opened VirtioSafety

  // Three descriptors were taken from the free ones.
  ghost predicate Taken(free: seq<bool>, free': seq<bool>, h: int, m: int, t: int) {
    && |free| == |free'| == NUM
    && 0 <= h < NUM && 0 <= m < NUM && 0 <= t < NUM && h != m && m != t && h != t
    && free[h] && free[m] && free[t]
    && free' == free[h := false][m := false][t := false]
  }

  // h starts a chain of three different descriptors.
  ghost predicate Links(desc: seq<Desc>, h: nat) {
    && |desc| == NUM && h < NUM
    && var m := desc[h].next;
       && m < NUM
       && var t := desc[m].next;
          && t < NUM && h != m && m != t && h != t
          && HasNext(desc[h].flags) && HasNext(desc[m].flags) && !HasNext(desc[t].flags)
  }

  class Disk {
    const free: array<bool>
    const desc: array<Desc>
    const info: array<Info>
    const avail: array<int>       // available ring
    var availIdx: nat
    const used: array<int>        // used ring, written by the device
    var usedRingIdx: nat          // its index, written by the device
    var usedIdx: nat              // how far the driver has looked
    var deviceIdx: nat            // how far the device has looked in the available ring
    var busy: set<int>            // buffers with b->disk == 1
    ghost var na: nat
    ghost var ns: nat
    ghost var nu: nat
    ghost var nd: nat
    ghost var own: seq<int>
    ghost var stage: seq<Stage>
    ghost var run: seq<Queue>

    ghost predicate Shape()
      reads this
    {
      && free.Length == desc.Length == info.Length == avail.Length == used.Length == NUM
      && avail != used
    }

    ghost function Q(): Queue
      reads this, free, desc, info, avail, used
    {
      Queue(free[..], desc[..], info[..], avail[..], used[..], busy, na, ns, nu, nd, own, stage)
    }

    ghost predicate Valid()
      reads this, free, desc, info, avail, used
    {
      && Shape()
      && IsRun(run) && run[|run| - 1] == Q() && Inv(Q())
      && availIdx == na % WRAP && deviceIdx == ns % WRAP
      && usedRingIdx == nu % WRAP && usedIdx == nd % WRAP
    }

    // virtio_disk_init: every descriptor free, both rings empty.
    constructor ()
      ensures Valid() && fresh(free) && fresh(desc) && fresh(info) && fresh(avail) && fresh(used)
      ensures busy == {} && |run| == 1
    {
      free, desc, info := new bool[NUM](_ => true), new Desc[NUM](_ => CLEAR), new Info[NUM](_ => Info(NONE, 0));
      avail, used := new int[NUM](_ => 0), new int[NUM](_ => 0);
      availIdx, usedRingIdx, usedIdx, deviceIdx, busy := 0, 0, 0, 0, {};
      na, ns, nu, nd := 0, 0, 0, 0;
      own, stage := seq(NUM, _ => NONE), seq(NUM, _ => Idle);
      new;
      run := [Q()];
      InitInv(Q());
    }

    // One step of the machine, already carried out on the fields.
    ghost method Record(step: Step)
      requires IsRun(run) && Enabled(run[|run| - 1], step) && Do(run[|run| - 1], step) == Q()
      modifies this`run
      ensures IsRun(run) && run == old(run) + [Q()]
    {
      var r := run + [Q()];
      forall k: nat | k + 1 < |r| ensures StepAt(r, k) {
        if k + 1 < |run| {
          assert StepAt(run, k);
        }
      }
      run := r;
    }

    // alloc_desc: the lowest free descriptor.
    method AllocDesc() returns (i: int)
      requires Shape()
      modifies free
      ensures i == NONE ==> free[..] == old(free[..]) && forall d :: 0 <= d < NUM ==> !free[d]
      ensures i != NONE ==> 0 <= i < NUM && old(free[i]) && free[..] == old(free[..])[i := false]
      ensures i != NONE ==> forall d :: 0 <= d < i ==> !old(free[d])
    {
      i := 0;
      while i < NUM
        invariant 0 <= i <= NUM && free[..] == old(free[..])
        invariant forall d :: 0 <= d < i ==> !free[d]
      {
        if free[i] {
          free[i] := false;
          return;
        }
        i := i + 1;
      }
      i := NONE;
    }

    // free_desc; it panics past the table and on a descriptor that is free.
    method FreeDesc(i: nat) returns (panicked: bool)
      requires Shape()
      modifies free, desc
      ensures panicked <==> i >= NUM || old(free[..])[i]
      ensures panicked ==> free[..] == old(free[..]) && desc[..] == old(desc[..])
      ensures !panicked ==> free[..] == old(free[..])[i := true] && desc[..] == old(desc[..])[i := CLEAR]
    {
      if i >= NUM || free[i] {
        return true;
      }
      panicked := false;
      desc[i] := CLEAR;
      free[i] := true;
    }

    // alloc3_desc: three descriptors, or none; what was taken before the shortage goes back.
    method Alloc3() returns (idx: seq<int>)
      requires Shape()
      modifies free, desc
      ensures |idx| == 3 || idx == []
      ensures |idx| == 3 ==> Taken(old(free[..]), free[..], idx[0], idx[1], idx[2]) && desc[..] == old(desc[..])
      ensures idx == [] ==> free[..] == old(free[..]) && OnlyFree(free[..], old(desc[..]), desc[..])
      ensures idx == [] ==> |FreeOnes(free[..])| < 3
    {
      ghost var f0, d0 := free[..], desc[..];
      idx := [];
      while |idx| < 3
        invariant |idx| <= 3 && Picked(f0, idx) && desc[..] == d0
        invariant forall d :: 0 <= d < NUM ==> free[d] == (f0[d] && d !in idx)
        decreases 3 - |idx|
      {
        var i := AllocDesc();
        if i == NONE {
          Shortage(f0, idx);
          PutBack(idx, f0);
          return [];
        }
        idx := idx + [i];
      }
    }

    // alloc3_desc's clean-up loop.
    method PutBack(idx: seq<int>, ghost f0: seq<bool>)
      requires Shape() && |f0| == NUM && Picked(f0, idx)
      requires forall d :: 0 <= d < NUM ==> free[d] == (f0[d] && d !in idx)
      modifies free, desc
      ensures free[..] == f0 && OnlyFree(f0, old(desc[..]), desc[..])
    {
      var j := 0;
      while j < |idx|
        invariant 0 <= j <= |idx|
        invariant forall d :: 0 <= d < NUM ==> free[d] == (f0[d] && d !in idx[j..])
        invariant OnlyFree(f0, old(desc[..]), desc[..])
      {
        assert idx[j] in idx[j..];
        var panicked := FreeDesc(idx[j]);
        assert !panicked;
        assert idx[j..] == [idx[j]] + idx[j + 1..];
        assert idx[j] !in idx[j + 1..];
        j := j + 1;
      }
    }

    // virtio_disk_rw's formatting of the three descriptors.
    method FormatChain(h: nat, m: nat, t: nat, b: int, write: bool)
      requires Shape() && h < NUM && m < NUM && t < NUM && h != m && m != t && h != t
      modifies desc
      ensures desc[..] == Format(old(desc[..]), h, m, t, b, write)
    {
      desc[h] := Desc(Op(h), 16, F_NEXT, m);
      desc[m] := Desc(Data(b), 1024, if write then 0 else F_WRITE, desc[m].next);
      desc[m] := desc[m].(flags := desc[m].flags + F_NEXT, next := t);
      desc[t] := Desc(Status(h), 1, F_WRITE, 0);
    }

    // virtio_disk_rw until it waits for the device: the head of its chain, or NONE when it must
    // sleep for descriptors.  The caller has the buffer locked, so no other request is for b.
    method StartRw(b: int, write: bool) returns (h: int)
      requires Valid()
      requires forall i {:trigger info[i]} :: 0 <= i < NUM && own[i] == i ==> info[i].b != b
      modifies this, free, desc, info, avail
      ensures Valid()
      ensures run == old(run) + [Q()]
      ensures h == NONE ==> |FreeOnes(free[..])| < 3 && OnlyFree(free[..], old(desc[..]), desc[..]) && Q() == old(Q()).(desc := desc[..])
      ensures h != NONE ==> 0 <= h < NUM && desc[h].next < NUM && desc[desc[h].next].next < NUM
      ensures h != NONE ==> Taken(old(free[..]), free[..], h, desc[h].next, desc[desc[h].next].next)
      ensures h != NONE ==> Q() == Publish(old(Q()), h, desc[h].next, desc[desc[h].next].next, b, write)
    {
      ghost var q0 := Q();
      var idx := Alloc3();
      if idx == [] {
        OnlyFreeInv(q0, desc[..]);
        Record(Scrub(desc[..]));
        return NONE;
      }
      h := idx[0];
      PublishInv(q0, h, idx[1], idx[2], b, write);
      List(h, idx[1], idx[2], b, write, q0);
      Record(Start(h, idx[1], idx[2], b, write));
    }

    // The request is written down and published.
    method List(h: nat, m: nat, t: nat, b: int, write: bool, ghost q0: Queue)
      requires Shape() && |q0.free| == NUM && Taken(q0.free, free[..], h, m, t) && Q() == q0.(free := free[..])
      requires |own| == |stage| == NUM && availIdx == na % WRAP
      modifies this, desc, info, avail
      ensures Q() == Publish(q0, h, m, t, b, write) && availIdx == na % WRAP
      ensures deviceIdx == old(deviceIdx) && usedIdx == old(usedIdx) && usedRingIdx == old(usedRingIdx) && run == old(run)
    {
      Wrapped(na);
      FormatChain(h, m, t, b, write);
      info[h] := info[h].(status := 0xff);
      busy := busy + {b};
      info[h] := info[h].(b := b);
      avail[availIdx % NUM] := h;
      availIdx := (availIdx + 1) % WRAP;
      own, stage := own[h := h][m := h][t := h], stage[h := Listed(na)];
      na := na + 1;
    }

    // The device takes the next published request.
    method DeviceFetch() returns (h: int)
      requires Valid()
      modifies this
      ensures Valid()
      ensures h == NONE <==> forall i :: 0 <= i < NUM ==> !old(stage)[i].Listed?
      ensures h == NONE ==> Q() == old(Q()) && run == old(run)
      ensures h != NONE ==> 0 <= h < NUM && old(stage)[h] == Listed(old(ns)) && h == avail[old(ns) % NUM]
      ensures h != NONE ==> Q() == Fetch(old(Q())) && run == old(run) + [Q()]
    {
      ghost var q0 := Q();
      SameIndex(ns, na);
      Wrapped(ns);
      if deviceIdx == availIdx {
        NoneListed(q0);
        return NONE;
      }
      assert AvailOk(q0, ns);
      h := avail[deviceIdx % NUM];
      FetchInv(q0);
      deviceIdx := (deviceIdx + 1) % WRAP;
      ns, stage := ns + 1, stage[h := AtDevice];
      Record(Take);
    }

    // The device completes any request it has taken.
    method DeviceComplete(h: nat)
      requires Valid() && h < NUM && stage[h] == AtDevice
      modifies this, info, used
      ensures Valid() && Q() == Complete(old(Q()), h) && run == old(run) + [Q()]
    {
      ghost var q0 := Q();
      CompleteInv(q0, h);
      Wrapped(nu);
      info[h] := info[h].(status := 0);
      used[usedRingIdx % NUM] := h;
      usedRingIdx := (usedRingIdx + 1) % WRAP;
      nu, stage := nu + 1, stage[h := Used(nu)];
      Record(Serve(h));
    }

    // One turn of virtio_disk_intr's loop: the status is good, and the buffer released is the one
    // whose request the device has completed longest ago.
    method IntrOne() returns (b: int, ghost h: nat)
      requires Valid() && usedIdx != usedRingIdx
      modifies this
      ensures Valid()
      ensures h < NUM && h == used[old(nd) % NUM] && old(stage)[h] == Used(old(nd)) && old(nd) < old(nu)
      ensures info[h] == Info(b, 0) && b in old(busy)
      ensures Q() == See(old(Q())) && run == old(run) + [Q()]
    {
      ghost var q0 := Q();
      SameIndex(nd, nu);
      Wrapped(nd);
      SeeInv(q0);
      var id := used[usedIdx % NUM];
      b, h := info[id].b, id;
      busy := busy - {b};
      usedIdx := (usedIdx + 1) % WRAP;
      nd, stage := nd + 1, stage[id := Finished];
      Record(Interrupt);
    }

    // virtio_disk_intr: everything completed so far is seen, and exactly the buffers of these
    // requests stop waiting.
    method Intr()
      requires Valid()
      modifies this
      ensures Valid() && usedIdx == usedRingIdx && old(run) <= run
      ensures forall i :: 0 <= i < NUM ==> stage[i] == if old(stage)[i].Used? then Finished else old(stage)[i]
      ensures busy == old(busy) - UsedBuffers(old(Q()))
      ensures Q() == old(Q()).(busy := busy, stage := stage, nd := nu)
    {
      ghost var q0 := Q();
      ghost var gone: set<int> := {};
      SeenNone(q0);
      while usedIdx != usedRingIdx
        invariant Valid() && nd <= nu && Seen(q0, Q(), gone) && old(run) <= run
        decreases nu - nd
      {
        ghost var q1 := Q();
        var b, h := IntrOne();
        SeenMore(q0, q1, h, gone, b);
        gone := gone + {b};
      }
      SameIndex(nd, nu);
      NoneUsed(Q());
      SeenAll(q0, Q(), gone);
    }

    // free_chain on a finished request: it follows the links over exactly its three descriptors.
    method FreeChain(h: nat)
      requires Shape() && h < NUM && Links(desc[..], h)
      requires !free[h] && !free[desc[h].next] && !free[desc[desc[h].next].next]
      modifies free, desc
      ensures var m := old(desc[h].next); var t := old(desc[desc[h].next].next);
              && free[..] == old(free[..])[h := true][m := true][t := true]
              && desc[..] == old(desc[..])[h := CLEAR][m := CLEAR][t := CLEAR]
    {
      ghost var f0, d0 := free[..], desc[..];
      ghost var m, t := d0[h].next, d0[d0[h].next].next;
      var i := h;
      ghost var done: nat := 0;
      while true
        invariant done < 3 && i == [h, m, t][done]
        invariant free[..] == [f0, f0[h := true], f0[h := true][m := true]][done]
        invariant desc[..] == [d0, d0[h := CLEAR], d0[h := CLEAR][m := CLEAR]][done]
        decreases 3 - done
      {
        var flag := desc[i].flags;
        var nxt := desc[i].next;
        var panicked := FreeDesc(i);
        assert !panicked;
        if HasNext(flag) {
          i := nxt;
          done := done + 1;
        } else {
          break;
        }
      }
    }

    // The end of virtio_disk_rw, once b->disk is clear.
    method FinishRw(h: nat)
      requires Valid() && h < NUM && own[h] == h && info[h].b !in busy
      modifies this, free, desc, info
      ensures Valid() && old(desc[h]).next < NUM && old(desc[desc[h].next]).next < NUM
      ensures Q() == Release(old(Q()), h) && run == old(run) + [Q()]
    {
      ghost var q0 := Q();
      assert HeadOk(q0, h);
      ReleaseInv(q0, h);
      ghost var m, t := desc[h].next, desc[desc[h].next].next;
      assert DescOk(q0, h) && DescOk(q0, m) && DescOk(q0, t);
      info[h] := info[h].(b := NONE);
      FreeChain(h);
      own, stage := own[h := NONE][m := NONE][t := NONE], stage[h := Idle];
      Record(Finish(h));
    }
  }

  // The buffers of the requests that the device has completed and no handler has seen.
  ghost function UsedBuffers(q: Queue): set<int>
    requires Sized(q)
  {
    set i | 0 <= i < NUM && q.stage[i].Used? :: q.info[i].b
  }

  // Some of the requests completed in q have been seen, those of the buffers gone.
  ghost predicate Seen(q: Queue, r: Queue, gone: set<int>)
    requires Sized(q)
  {
    && Sized(r) && r == q.(busy := q.busy - gone, stage := r.stage, nd := r.nd)
    && (forall i {:trigger SeenAt(q, r, gone, i)} :: 0 <= i < NUM ==> SeenAt(q, r, gone, i))
    && gone <= UsedBuffers(q)
  }

  ghost predicate SeenAt(q: Queue, r: Queue, gone: set<int>, i: int)
    requires Sized(q) && Sized(r) && 0 <= i < NUM
  {
    r.stage[i] == q.stage[i] || (q.stage[i].Used? && r.stage[i] == Finished && q.info[i].b in gone)
  }

  lemma SeenNone(q: Queue)
    requires Sized(q)
    ensures Seen(q, q, {})
  {
    assert q.busy - {} == q.busy;
  }

  lemma SeenAll(q: Queue, r: Queue, gone: set<int>)
    requires Sized(q) && Seen(q, r, gone) && forall i {:trigger r.stage[i]} :: 0 <= i < NUM ==> !r.stage[i].Used?
    ensures gone == UsedBuffers(q)
    ensures forall i {:trigger r.stage[i]} :: 0 <= i < NUM ==> r.stage[i] == if q.stage[i].Used? then Finished else q.stage[i]
  {
    forall i | 0 <= i < NUM ensures SeenAt(q, r, gone, i) && !r.stage[i].Used? {
    }
    forall b | b in UsedBuffers(q) ensures b in gone {
      var i :| 0 <= i < NUM && q.stage[i].Used? && q.info[i].b == b;
      assert SeenAt(q, r, gone, i);
    }
  }

  lemma SeenMore(q: Queue, r: Queue, h: nat, gone: set<int>, b: int)
    requires Sized(q) && Seen(q, r, gone) && h < NUM && r.stage[h].Used? && b == r.info[h].b && h == r.used[r.nd % NUM]
    requires r.nd < r.nu
    ensures Seen(q, See(r), gone + {b})
  {
    assert SeenAt(q, r, gone, h);
    assert b in UsedBuffers(q);
    assert q.busy - gone - {b} == q.busy - (gone + {b});
    forall i | 0 <= i < NUM ensures SeenAt(q, See(r), gone + {b}, i) {
      assert SeenAt(q, r, gone, i);
    }
  }

  // A 16-bit index names the same slot as the count it abbreviates, and counts on with it.
  lemma Wrapped(n: nat)
    ensures n % WRAP % NUM == n % NUM && (n % WRAP + 1) % WRAP == (n + 1) % WRAP
  {
    var k := n / WRAP;
    assert n == k * WRAP + n % WRAP;
    assert n % WRAP == n - k * 8192 * NUM;
  }

  // Counts no further apart than the ring is long are equal when their indices are.
  lemma SameIndex(a: nat, b: nat)
    requires a <= b <= a + NUM
    ensures a % WRAP == b % WRAP <==> a == b
  {
  }

  // Equal 16-bit indices mean that every entry has been taken.
  lemma NoneListed(q: Queue)
    requires Inv(q) && q.ns == q.na
    ensures forall i :: 0 <= i < NUM ==> !q.stage[i].Listed?
  {
    forall i: nat | i < NUM ensures !q.stage[i].Listed? {
      assert HeadOk(q, i);
    }
  }

  lemma NoneUsed(q: Queue)
    requires Inv(q) && q.nd == q.nu
    ensures forall i :: 0 <= i < NUM ==> !q.stage[i].Used?
  {
    forall i: nat | i < NUM ensures !q.stage[i].Used? {
      assert HeadOk(q, i);
    }
  }

  ghost predicate Picked(free: seq<bool>, idx: seq<int>) {
    && |free| == NUM
    && (forall k {:trigger idx[k]} :: 0 <= k < |idx| ==> 0 <= idx[k] < NUM && free[idx[k]])
    && (forall k, l {:trigger idx[k], idx[l]} :: 0 <= k < l < |idx| ==> idx[k] != idx[l])
  }

  ghost function FreeOnes(free: seq<bool>): set<int> {
    set d | 0 <= d < |free| && free[d]
  }

  lemma Shortage(free: seq<bool>, idx: seq<int>)
    requires |free| == NUM && |idx| < 3 && forall d {:trigger free[d]} :: 0 <= d < NUM && free[d] ==> d in idx
    ensures |FreeOnes(free)| < 3
  {
    var s := set d | d in idx;
    assert FreeOnes(free) <= s;
    if |idx| == 0 {
      assert s == {};
    } else if |idx| == 1 {
      assert s == {idx[0]};
    } else {
      assert s == {idx[0]} + {idx[1]};
    }
    SubsetSize(FreeOnes(free), s);
  }
}
