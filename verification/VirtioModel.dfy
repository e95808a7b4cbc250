/**
  The virtio block queue of kernel/virtio_disk.c: descriptors, the available and used rings, and
  the device on the other side.

  The rings count in 16 bits.  The counts here (na, ns, nu, nd) are what the 16-bit indices
  abbreviate: entries published, fetched by the device, completed by it, and seen by the driver.
 */
module VirtioModel {

  const NUM: nat := 8
  const WRAP: nat := 0x1_0000
  const NONE: int := -1

  datatype Addr = Null | Op(i: nat) | Data(b: int) | Status(i: nat)

  datatype Desc = Desc(addr: Addr, len: nat, flags: nat, next: nat)

  const F_NEXT: nat := 1
  const F_WRITE: nat := 2

  const CLEAR := Desc(Null, 0, 0, 0)

  // info[h] for the chain that starts at h.
  datatype Info = Info(b: int, status: int)

  // How far the request at a head descriptor has come.
  datatype Stage =
    | Idle               // no request starts here
    | Listed(k: nat)     // entry k of the available ring
    | AtDevice
    | Used(k: nat)       // entry k of the used ring
    | Finished           // seen by the driver; its process has yet to free the chain

  // own[d] is the head of the chain descriptor d is in.
  datatype Queue = Queue(
    free: seq<bool>, desc: seq<Desc>, info: seq<Info>, avail: seq<int>, used: seq<int>, busy: set<int>,
    na: nat, ns: nat, nu: nat, nd: nat, own: seq<int>, stage: seq<Stage>)

  predicate HasNext(flags: nat) {
    flags % 2 == 1
  }

  ghost predicate Sized(q: Queue) {
    && |q.free| == |q.desc| == |q.info| == |q.avail| == |q.used| == |q.own| == |q.stage| == NUM
    && q.ns <= q.na <= q.ns + NUM
    && q.nd <= q.nu <= q.nd + NUM
  }

  // Descriptor h starts a chain of three, whose last has no successor.
  ghost predicate Chain(q: Queue, h: nat)
    requires Sized(q) && h < NUM
  {
    var m := q.desc[h].next;
    && m < NUM
    && var t := q.desc[m].next;
       && t < NUM && h != m && m != t && h != t
       && q.own[h] == q.own[m] == q.own[t] == h
       && HasNext(q.desc[h].flags) && HasNext(q.desc[m].flags) && !HasNext(q.desc[t].flags)
       && q.desc[h].addr == Op(h) && q.desc[m].addr == Data(q.info[h].b) && q.desc[t].addr == Status(h)
  }

  ghost predicate HeadOk(q: Queue, h: nat)
    requires Sized(q) && h < NUM
  {
    && (q.own[h] == h <==> q.stage[h] != Idle)
    && (q.own[h] == h ==> Chain(q, h))
    && (q.own[h] == h && q.stage[h] != Finished ==> q.info[h].b in q.busy)
    && (q.stage[h] == Finished ==> q.info[h].b !in q.busy)
    && (q.stage[h].Used? ==> q.info[h].status == 0)
    && (q.stage[h].Listed? ==> q.ns <= q.stage[h].k < q.na && q.avail[q.stage[h].k % NUM] == h)
    && (q.stage[h].Used? ==> q.nd <= q.stage[h].k < q.nu && q.used[q.stage[h].k % NUM] == h)
  }

  // A descriptor is free, or in one chain and no other.
  ghost predicate DescOk(q: Queue, d: nat)
    requires Sized(q) && d < NUM
  {
    && (q.free[d] <==> q.own[d] == NONE)
    && (q.own[d] != NONE ==>
          && 0 <= q.own[d] < NUM && q.own[q.own[d]] == q.own[d] && q.desc[q.own[d]].next < NUM
          && d in [q.own[d], q.desc[q.own[d]].next, q.desc[q.desc[q.own[d]].next].next])
  }

  ghost predicate Distinct(q: Queue, h: nat, i: nat)
    requires Sized(q) && h < NUM && i < NUM
  {
    q.own[h] == h && q.own[i] == i && h != i ==> q.info[h].b != q.info[i].b
  }

  ghost predicate AvailOk(q: Queue, k: nat)
    requires Sized(q)
  {
    0 <= q.avail[k % NUM] < NUM && q.stage[q.avail[k % NUM]] == Listed(k)
  }

  ghost predicate UsedOk(q: Queue, k: nat)
    requires Sized(q)
  {
    0 <= q.used[k % NUM] < NUM && q.stage[q.used[k % NUM]] == Used(k)
  }

  ghost predicate Inv(q: Queue) {
    && Sized(q)
    && (forall h: nat {:trigger HeadOk(q, h)} :: h < NUM ==> HeadOk(q, h))
    && (forall d: nat {:trigger DescOk(q, d)} :: d < NUM ==> DescOk(q, d))
    && (forall h: nat, i: nat {:trigger Distinct(q, h, i)} :: h < NUM && i < NUM ==> Distinct(q, h, i))
    && (forall k: nat {:trigger AvailOk(q, k)} :: q.ns <= k < q.na ==> AvailOk(q, k))
    && (forall k: nat {:trigger UsedOk(q, k)} :: q.nd <= k < q.nu ==> UsedOk(q, k))
  }

  // ------------------------------------------------------------------
  // No ring overruns
  // ------------------------------------------------------------------

  function Indices(n: nat): (s: set<int>)
    ensures forall i {:trigger i in s} :: i in s <==> 0 <= i < n
    ensures |s| == n
  {
    if n == 0 then {} else Indices(n - 1) + {n - 1}
  }

  lemma {:induction false} SubsetSize(a: set<int>, b: set<int>)
    requires a <= b
    ensures |a| <= |b|
  {
    assert b == a + (b - a);
  }

  // The heads listed in the available ring from entry k on are as many as the entries.
  lemma {:induction false} ListedHeads(q: Queue, k: nat) returns (s: set<int>)
    requires Inv(q) && q.ns <= k <= q.na
    ensures |s| == q.na - k
    ensures forall h {:trigger h in s} :: h in s ==> 0 <= h < NUM && q.stage[h].Listed? && q.stage[h].k >= k
    decreases q.na - k
  {
    if k == q.na {
      s := {};
    } else {
      s := ListedHeads(q, k + 1);
      assert AvailOk(q, k);
      s := s + {q.avail[k % NUM]};
    }
  }

  lemma {:induction false} UsedHeads(q: Queue, k: nat) returns (s: set<int>)
    requires Inv(q) && q.nd <= k <= q.nu
    ensures |s| == q.nu - k
    ensures forall h {:trigger h in s} :: h in s ==> 0 <= h < NUM && q.stage[h].Used? && q.stage[h].k >= k
    decreases q.nu - k
  {
    if k == q.nu {
      s := {};
    } else {
      s := UsedHeads(q, k + 1);
      assert UsedOk(q, k);
      s := s + {q.used[k % NUM]};
    }
  }

  lemma RoomInAvail(q: Queue, h: nat)
    requires Inv(q) && h < NUM && !q.stage[h].Listed?
    ensures q.na < q.ns + NUM
  {
    var s := ListedHeads(q, q.ns);
    SubsetSize(s, Indices(NUM) - {h});
  }

  lemma RoomInUsed(q: Queue, h: nat)
    requires Inv(q) && h < NUM && !q.stage[h].Used?
    ensures q.nu < q.nd + NUM
  {
    var s := UsedHeads(q, q.nd);
    SubsetSize(s, Indices(NUM) - {h});
  }

  // While some head is not listed, the available ring has room; likewise the used ring.
  lemma RoomInRings(q: Queue, h: nat)
    requires Inv(q) && h < NUM
    ensures !q.stage[h].Listed? ==> q.na < q.ns + NUM
    ensures !q.stage[h].Used? ==> q.nu < q.nd + NUM
  {
    if !q.stage[h].Listed? {
      RoomInAvail(q, h);
    }
    if !q.stage[h].Used? {
      RoomInUsed(q, h);
    }
  }

  // ------------------------------------------------------------------
  // Steps
  // ------------------------------------------------------------------

  // The three descriptors of a request for buffer b.
  function Format(desc: seq<Desc>, h: nat, m: nat, t: nat, b: int, write: bool): seq<Desc>
    requires |desc| == NUM && h < NUM && m < NUM && t < NUM
  {
    desc[h := Desc(Op(h), 16, F_NEXT, m)]
        [m := Desc(Data(b), 1024, (if write then 0 else F_WRITE) + F_NEXT, t)]
        [t := Desc(Status(h), 1, F_WRITE, 0)]
  }

  // virtio_disk_rw up to the notification.
  function Publish(q: Queue, h: nat, m: nat, t: nat, b: int, write: bool): Queue
    requires |q.free| == |q.desc| == |q.info| == |q.avail| == |q.own| == |q.stage| == NUM && h < NUM && m < NUM && t < NUM
  {
    q.(free := q.free[h := false][m := false][t := false],
       desc := Format(q.desc, h, m, t, b, write),
       info := q.info[h := Info(b, 0xff)],
       avail := q.avail[q.na % NUM := h],
       busy := q.busy + {b},
       na := q.na + 1,
       own := q.own[h := h][m := h][t := h],
       stage := q.stage[h := Listed(q.na)])
  }

  // The device takes the next entry of the available ring.
  function Fetch(q: Queue): Queue
    requires Sized(q) && 0 <= q.avail[q.ns % NUM] < NUM
  {
    q.(ns := q.ns + 1, stage := q.stage[q.avail[q.ns % NUM] := AtDevice])
  }

  // The device completes a request it has taken, in any order: status, then the used ring.
  function Complete(q: Queue, h: nat): Queue
    requires Sized(q) && h < NUM
  {
    q.(info := q.info[h := q.info[h].(status := 0)], used := q.used[q.nu % NUM := h], nu := q.nu + 1,
       stage := q.stage[h := Used(q.nu)])
  }

  // The interrupt handler sees one entry of the used ring.
  function See(q: Queue): Queue
    requires Sized(q) && 0 <= q.used[q.nd % NUM] < NUM
  {
    var h := q.used[q.nd % NUM];
    q.(busy := q.busy - {q.info[h].b}, nd := q.nd + 1, stage := q.stage[h := Finished])
  }

  // The end of virtio_disk_rw: the chain is freed.
  function Release(q: Queue, h: nat): (r: Queue)
    requires Sized(q) && h < NUM && q.desc[h].next < NUM && q.desc[q.desc[h].next].next < NUM
    ensures Sized(r)
  {
    var m := q.desc[h].next;
    var t := q.desc[m].next;
    q.(free := q.free[h := true][m := true][t := true],
       desc := q.desc[h := CLEAR][m := CLEAR][t := CLEAR],
       info := q.info[h := q.info[h].(b := NONE)],
       own := q.own[h := NONE][m := NONE][t := NONE],
       stage := q.stage[h := Idle])
  }

  // A free descriptor belongs to no chain.
  lemma Unowned(q: Queue, d: nat, h: nat)
    requires Inv(q) && d < NUM && h < NUM && q.free[d]
    ensures q.own[d] == NONE && q.stage[d] == Idle
    ensures q.own[h] == h ==> h != d && q.desc[h].next < NUM && q.desc[h].next != d && q.desc[q.desc[h].next].next != d
  {
    assert DescOk(q, d) && HeadOk(q, h) && HeadOk(q, d);
  }

  lemma PublishInv(q: Queue, h: nat, m: nat, t: nat, b: int, write: bool)
    requires Inv(q) && h < NUM && m < NUM && t < NUM && h != m && m != t && h != t
    requires q.free[h] && q.free[m] && q.free[t]
    requires forall i {:trigger q.info[i]} :: 0 <= i < NUM && q.own[i] == i ==> q.info[i].b != b
    ensures Inv(Publish(q, h, m, t, b, write))
  {
    var r := Publish(q, h, m, t, b, write);
    RoomInRings(q, h);
    Unowned(q, h, h);
    RoomInRings(q, h);
    forall i: nat | i < NUM ensures HeadOk(r, i) && DescOk(r, i) {
      PublishHead(q, h, m, t, b, write, i);
      PublishDesc(q, h, m, t, b, write, i);
    }
    forall i: nat, j: nat | i < NUM && j < NUM ensures Distinct(r, i, j) {
      Unowned(q, h, i);
      Unowned(q, m, i);
      Unowned(q, t, i);
      assert Distinct(q, i, j);
    }
    forall k: nat | r.ns <= k < r.na ensures AvailOk(r, k) {
      if k < q.na {
        assert AvailOk(q, k);
      }
    }
    forall k: nat | r.nd <= k < r.nu ensures UsedOk(r, k) {
      assert UsedOk(q, k);
    }
  }

  lemma PublishHead(q: Queue, h: nat, m: nat, t: nat, b: int, write: bool, i: nat)
    requires Inv(q) && h < NUM && m < NUM && t < NUM && h != m && m != t && h != t && i < NUM
    requires q.free[h] && q.free[m] && q.free[t] && q.na < q.ns + NUM
    requires forall i {:trigger q.info[i]} :: 0 <= i < NUM && q.own[i] == i ==> q.info[i].b != b
    ensures HeadOk(Publish(q, h, m, t, b, write), i)
  {
    assert HeadOk(q, i) && DescOk(q, i);
    Unowned(q, h, i);
    Unowned(q, m, i);
    Unowned(q, t, i);
  }

  lemma PublishDesc(q: Queue, h: nat, m: nat, t: nat, b: int, write: bool, i: nat)
    requires Inv(q) && h < NUM && m < NUM && t < NUM && h != m && m != t && h != t && i < NUM
    requires q.free[h] && q.free[m] && q.free[t] && q.na < q.ns + NUM
    requires forall i {:trigger q.info[i]} :: 0 <= i < NUM && q.own[i] == i ==> q.info[i].b != b
    ensures DescOk(Publish(q, h, m, t, b, write), i)
  {
    assert HeadOk(q, i) && DescOk(q, i);
    if q.own[i] != NONE {
      Unowned(q, h, q.own[i]);
      Unowned(q, m, q.own[i]);
      Unowned(q, t, q.own[i]);
    }
  }

  lemma FetchInv(q: Queue)
    requires Inv(q) && q.ns < q.na
    ensures 0 <= q.avail[q.ns % NUM] < NUM && q.stage[q.avail[q.ns % NUM]] == Listed(q.ns)
    ensures Inv(Fetch(q))
  {
    assert AvailOk(q, q.ns);
    var r := Fetch(q);
    forall i: nat | i < NUM ensures HeadOk(r, i) && DescOk(r, i) {
      assert HeadOk(q, i) && DescOk(q, i);
    }
    forall i: nat, j: nat | i < NUM && j < NUM ensures Distinct(r, i, j) {
      assert Distinct(q, i, j);
    }
    forall k: nat | r.ns <= k < r.na ensures AvailOk(r, k) {
      assert AvailOk(q, k);
    }
    forall k: nat | r.nd <= k < r.nu ensures UsedOk(r, k) {
      assert UsedOk(q, k);
    }
  }

  lemma CompleteInv(q: Queue, h: nat)
    requires Inv(q) && h < NUM && q.stage[h] == AtDevice
    ensures Inv(Complete(q, h))
  {
    RoomInRings(q, h);
    var r := Complete(q, h);
    forall i: nat | i < NUM ensures HeadOk(r, i) && DescOk(r, i) {
      assert HeadOk(q, i) && DescOk(q, i);
    }
    forall i: nat, j: nat | i < NUM && j < NUM ensures Distinct(r, i, j) {
      assert Distinct(q, i, j);
    }
    forall k: nat | r.ns <= k < r.na ensures AvailOk(r, k) {
      assert AvailOk(q, k);
    }
    forall k: nat | r.nd <= k < r.nu ensures UsedOk(r, k) {
      if k < q.nu {
        assert UsedOk(q, k);
      }
    }
  }

  lemma SeeInv(q: Queue)
    requires Inv(q) && q.nd < q.nu
    ensures 0 <= q.used[q.nd % NUM] < NUM && q.stage[q.used[q.nd % NUM]] == Used(q.nd)
    ensures Inv(See(q))
    ensures q.info[q.used[q.nd % NUM]].b in q.busy && q.info[q.used[q.nd % NUM]].status == 0
  {
    assert UsedOk(q, q.nd);
    var r := See(q);
    var h := q.used[q.nd % NUM];
    assert HeadOk(q, h);
    forall i: nat | i < NUM ensures HeadOk(r, i) && DescOk(r, i) {
      assert HeadOk(q, i) && DescOk(q, i) && Distinct(q, h, i);
    }
    forall i: nat, j: nat | i < NUM && j < NUM ensures Distinct(r, i, j) {
      assert Distinct(q, i, j);
    }
    forall k: nat | r.ns <= k < r.na ensures AvailOk(r, k) {
      assert AvailOk(q, k);
    }
    forall k: nat | r.nd <= k < r.nu ensures UsedOk(r, k) {
      assert UsedOk(q, k);
    }
  }

  // Chains share no descriptor.
  lemma ChainsApart(q: Queue, h: nat, i: nat)
    requires Inv(q) && h < NUM && i < NUM && h != i && q.own[h] == h && q.own[i] == i
    ensures q.desc[h].next < NUM && q.desc[i].next < NUM
    ensures {h, q.desc[h].next, q.desc[q.desc[h].next].next} !! {i, q.desc[i].next, q.desc[q.desc[i].next].next}
  {
    assert HeadOk(q, h) && HeadOk(q, i);
  }

  lemma ReleaseAt(q: Queue, h: nat, i: nat)
    requires Inv(q) && h < NUM && i < NUM && q.stage[h] == Finished && q.own[h] == h
    ensures q.desc[h].next < NUM && q.desc[q.desc[h].next].next < NUM
    ensures HeadOk(Release(q, h), i) && DescOk(Release(q, h), i)
  {
    assert HeadOk(q, h) && HeadOk(q, i) && DescOk(q, i);
    if q.own[i] == i && i != h {
      ChainsApart(q, h, i);
    }
    if q.own[i] != NONE && q.own[i] != h {
      ChainsApart(q, h, q.own[i]);
    }
  }

  lemma ReleaseInv(q: Queue, h: nat)
    requires Inv(q) && h < NUM && q.stage[h] == Finished
    ensures q.own[h] == h && q.desc[h].next < NUM && q.desc[q.desc[h].next].next < NUM
    ensures Inv(Release(q, h))
  {
    assert HeadOk(q, h);
    var r := Release(q, h);
    forall i: nat | i < NUM ensures HeadOk(r, i) && DescOk(r, i) {
      ReleaseAt(q, h, i);
    }
    forall i: nat, j: nat | i < NUM && j < NUM ensures Distinct(r, i, j) {
      assert Distinct(q, i, j);
    }
    forall k: nat | r.ns <= k < r.na ensures AvailOk(r, k) {
      assert AvailOk(q, k);
    }
    forall k: nat | r.nd <= k < r.nu ensures UsedOk(r, k) {
      assert UsedOk(q, k);
    }
  }

  // Only descriptors that are free may have changed.
  ghost predicate OnlyFree(free: seq<bool>, desc: seq<Desc>, desc': seq<Desc>) {
    && |free| == |desc| == |desc'| == NUM
    && forall d {:trigger desc'[d]} :: 0 <= d < NUM && !free[d] ==> desc'[d] == desc[d]
  }

  // What a free descriptor holds does not matter.
  lemma OnlyFreeInv(q: Queue, desc: seq<Desc>)
    requires Inv(q) && OnlyFree(q.free, q.desc, desc)
    ensures Inv(q.(desc := desc))
  {
    var r := q.(desc := desc);
    forall i: nat | i < NUM ensures HeadOk(r, i) && DescOk(r, i) {
      assert HeadOk(q, i) && DescOk(q, i);
      OwnedKept(q, desc, i);
    }
    forall i: nat, j: nat | i < NUM && j < NUM ensures Distinct(r, i, j) {
      assert Distinct(q, i, j);
    }
    forall k: nat | r.ns <= k < r.na ensures AvailOk(r, k) {
      assert AvailOk(q, k);
    }
    forall k: nat | r.nd <= k < r.nu ensures UsedOk(r, k) {
      assert UsedOk(q, k);
    }
  }

  lemma OwnedKept(q: Queue, desc: seq<Desc>, i: nat)
    requires Inv(q) && OnlyFree(q.free, q.desc, desc) && i < NUM
    ensures q.own[i] != NONE ==>
              var h := q.own[i];
              0 <= h < NUM && desc[h] == q.desc[h] && q.desc[h].next < NUM && desc[q.desc[h].next] == q.desc[q.desc[h].next]
              && q.desc[q.desc[h].next].next < NUM && desc[q.desc[q.desc[h].next].next] == q.desc[q.desc[q.desc[h].next].next]
  {
    assert DescOk(q, i);
    if q.own[i] != NONE {
      var h := q.own[i];
      assert HeadOk(q, h);
      assert DescOk(q, h) && DescOk(q, q.desc[h].next) && DescOk(q, q.desc[q.desc[h].next].next);
    }
  }
}
