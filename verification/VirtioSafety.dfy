/**
  Runs of the virtio queue: the driver's critical sections under vdisk_lock and the device's steps,
  in any order.  A request is followed from its start to the interrupt that ends it.
 */
module VirtioSafety {
  import opened VirtioModel

  datatype Step =
    | Start(h: nat, m: nat, t: nat, b: int, write: bool)   // virtio_disk_rw publishes a request
    | Scrub(desc: seq<Desc>)                               // alloc3_desc fails and puts back what it took
    | Take                                                 // the device takes a published request
    | Serve(h: nat)                                        // the device completes one it has taken
    | Interrupt                                            // one turn of virtio_disk_intr's loop
    | Finish(h: nat)                                       // virtio_disk_rw frees the chain

  // The caller of virtio_disk_rw has its buffer locked, so no other open request is for it.
  ghost predicate Enabled(q: Queue, step: Step) {
    && Sized(q)
    && match step
       case Start(h, m, t, b, write) =>
         && h < NUM && m < NUM && t < NUM && h != m && m != t && h != t && q.free[h] && q.free[m] && q.free[t]
         && forall i {:trigger q.info[i]} :: 0 <= i < NUM && q.own[i] == i ==> q.info[i].b != b
       case Scrub(desc) => OnlyFree(q.free, q.desc, desc)
       case Take => q.ns < q.na && 0 <= q.avail[q.ns % NUM] < NUM
       case Serve(h) => h < NUM && q.stage[h] == AtDevice
       case Interrupt => q.nd < q.nu && 0 <= q.used[q.nd % NUM] < NUM
       case Finish(h) =>
         h < NUM && q.own[h] == h && q.info[h].b !in q.busy && q.desc[h].next < NUM && q.desc[q.desc[h].next].next < NUM
  }

  ghost function Do(q: Queue, step: Step): Queue
    requires Enabled(q, step)
  {
    match step
    case Start(h, m, t, b, write) => Publish(q, h, m, t, b, write)
    case Scrub(desc) => q.(desc := desc)
    case Take => Fetch(q)
    case Serve(h) => Complete(q, h)
    case Interrupt => See(q)
    case Finish(h) => Release(q, h)
  }

  ghost predicate Next(q: Queue, r: Queue) {
    exists step :: Enabled(q, step) && r == Do(q, step)
  }

  // virtio_disk_init: every descriptor free, both rings empty.
  ghost predicate Init(q: Queue) {
    && Sized(q)
    && q.na == q.ns == q.nu == q.nd == 0 && q.busy == {}
    && forall i {:trigger q.stage[i]} :: 0 <= i < NUM ==> q.free[i] && q.own[i] == NONE && q.stage[i] == Idle
  }

  ghost predicate IsRun(run: seq<Queue>) {
    && |run| > 0
    && Init(run[0])
    && forall k: nat {:trigger StepAt(run, k)} :: k + 1 < |run| ==> StepAt(run, k)
  }

  ghost predicate StepAt(run: seq<Queue>, k: nat)
    requires k + 1 < |run|
  {
    Next(run[k], run[k + 1])
  }

  // Buffer b waits in all states from i up to j.
  ghost predicate Waits(run: seq<Queue>, i: nat, j: nat, b: int)
    requires j <= |run|
  {
    forall k: nat {:trigger WaitsAt(run, k, b)} :: i <= k < j ==> WaitsAt(run, k, b)
  }

  ghost predicate WaitsAt(run: seq<Queue>, k: nat, b: int)
    requires k < |run|
  {
    b in run[k].busy
  }

  lemma InitInv(q: Queue)
    requires Init(q)
    ensures Inv(q)
  {
    forall i: nat | i < NUM ensures HeadOk(q, i) && DescOk(q, i) {
      assert q.stage[i] == Idle;
    }
    forall i: nat, j: nat | i < NUM && j < NUM ensures Distinct(q, i, j) {
      assert q.stage[i] == Idle;
    }
  }

  lemma StepInv(q: Queue, step: Step)
    requires Inv(q) && Enabled(q, step)
    ensures Inv(Do(q, step))
  {
    match step
    case Start(h, m, t, b, write) => PublishInv(q, h, m, t, b, write);
    case Scrub(desc) => OnlyFreeInv(q, desc);
    case Take => FetchInv(q);
    case Serve(h) => CompleteInv(q, h);
    case Interrupt => SeeInv(q);
    case Finish(h) =>
      assert HeadOk(q, h);
      ReleaseInv(q, h);
  }

  // The queue's invariant in every state of every run.
  lemma {:induction false} RunInv(run: seq<Queue>, k: nat)
    requires IsRun(run) && k < |run|
    ensures Inv(run[k])
  {
    if k == 0 {
      InitInv(run[0]);
    } else {
      RunInv(run, k - 1);
      assert StepAt(run, k - 1);
      var step :| Enabled(run[k - 1], step) && run[k] == Do(run[k - 1], step);
      StepInv(run[k - 1], step);
    }
  }

  // The request at head h is for buffer b, and its chain leads the device there.
  ghost predicate Request(q: Queue, h: nat, b: int)
    requires Sized(q) && h < NUM
  {
    q.stage[h] != Idle && q.info[h].b == b && Chain(q, h)
  }

  // The stages of a request, in order.
  function Rank(s: Stage): nat {
    match s
    case Idle => 0
    case Listed(_) => 1
    case AtDevice => 2
    case Used(_) => 3
    case Finished => 4
  }

  // No step but its own end takes a request away, turns it to another buffer or another chain, or
  // moves it backwards.
  lemma RequestStep(q: Queue, step: Step, h: nat, b: int)
    requires Inv(q) && Enabled(q, step) && h < NUM && Request(q, h, b) && step != Finish(h)
    ensures Sized(Do(q, step)) && Request(Do(q, step), h, b) && Rank(q.stage[h]) <= Rank(Do(q, step).stage[h])
    ensures var r, m := Do(q, step), q.desc[h].next;
            m < NUM && r.desc[h] == q.desc[h] && r.desc[m] == q.desc[m]
  {
    StepInv(q, step);
    var r := Do(q, step);
    assert HeadOk(q, h) && HeadOk(r, h);
    if step.Start? {
      Unowned(q, step.h, h);
      Unowned(q, step.m, h);
      Unowned(q, step.t, h);
    } else if step.Scrub? {
      OwnedKept(q, step.desc, h);
    } else if step.Take? {
      FetchInv(q);
    } else if step.Interrupt? {
      SeeInv(q);
    } else if step.Finish? {
      assert HeadOk(q, step.h);
      ChainsApart(q, step.h, h);
    }
  }

  lemma RequestNext(q: Queue, r: Queue, h: nat, b: int)
    requires Inv(q) && Next(q, r) && h < NUM && Request(q, h, b) && b in q.busy
    ensures Sized(r) && Request(r, h, b) && Rank(q.stage[h]) <= Rank(r.stage[h])
  {
    var step :| Enabled(q, step) && r == Do(q, step);
    RequestStep(q, step, h, b);
  }

  // While its buffer waits, a request stays: only a buffer that no longer waits has its chain freed.
  lemma {:induction false} RequestStays(run: seq<Queue>, i: nat, j: nat, h: nat, b: int)
    requires IsRun(run) && i <= j < |run| && h < NUM && Sized(run[i]) && Request(run[i], h, b)
    requires Waits(run, i, j, b)
    ensures Sized(run[j]) && Request(run[j], h, b) && Rank(run[i].stage[h]) <= Rank(run[j].stage[h])
    decreases j
  {
    if i < j {
      RequestStays(run, i, j - 1, h, b);
      RunInv(run, j - 1);
      assert StepAt(run, j - 1) && WaitsAt(run, j - 1, b);
      RequestNext(run[j - 1], run[j], h, b);
    }
  }

  // A buffer stops waiting only in a turn of the interrupt handler, for a request of its own that
  // the device has completed, with good status, before any other that is still unseen.
  lemma ClearedStep(q: Queue, step: Step, b: int) returns (h: nat)
    requires Inv(q) && Enabled(q, step) && b in q.busy && b !in Do(q, step).busy
    ensures step == Interrupt && h < NUM && q.stage[h] == Used(q.nd) && q.info[h] == Info(b, 0)
    ensures Do(q, step).stage == q.stage[h := Finished] && Do(q, step).info == q.info && Do(q, step).busy == q.busy - {b}
  {
    SeeInv(q);
    h := q.used[q.nd % NUM];
  }

  lemma LastStep(q: Queue, r: Queue, h: nat, b: int)
    requires Inv(q) && Next(q, r) && h < NUM && Request(q, h, b) && b in q.busy && b !in r.busy
    ensures q.stage[h] == Used(q.nd) && q.info[h] == Info(b, 0) && r.stage == q.stage[h := Finished]
  {
    var step :| Enabled(q, step) && r == Do(q, step);
    var g := ClearedStep(q, step, b);
    assert HeadOk(q, g) && HeadOk(q, h) && Distinct(q, g, h);
  }

  // From virtio_disk_rw to the interrupt: whatever other requests start, are served and end in
  // between, a buffer waits until its own request is completed and the handler has come to it.
  lemma WaitsForItsOwn(run: seq<Queue>, i: nat, j: nat, h: nat, b: int)
    requires IsRun(run) && i < j < |run| && h < NUM && Sized(run[i]) && Request(run[i], h, b)
    requires Waits(run, i, j, b)
    requires b !in run[j].busy
    ensures Sized(run[j - 1]) && Request(run[j - 1], h, b) && run[j - 1].stage[h] == Used(run[j - 1].nd)
    ensures run[j - 1].info[h] == Info(b, 0) && run[j].stage == run[j - 1].stage[h := Finished]
  {
    RequestStays(run, i, j - 1, h, b);
    RunInv(run, j - 1);
    assert StepAt(run, j - 1) && WaitsAt(run, j - 1, b);
    LastStep(run[j - 1], run[j], h, b);
  }

  // An open request for b that no interrupt handler has come to.
  ghost predicate Pending(q: Queue, h: nat, b: int)
    requires Sized(q)
  {
    h < NUM && Request(q, h, b) && q.stage[h] != Finished
  }

  lemma PendingStep(q: Queue, step: Step, b: int, h: nat) returns (g: nat)
    requires Inv(q) && Enabled(q, step) && b in Do(q, step).busy && (b in q.busy ==> Pending(q, h, b))
    ensures Inv(Do(q, step)) && Pending(Do(q, step), g, b)
  {
    StepInv(q, step);
    g := if b in q.busy then h else step.h;
    assert HeadOk(q, g);
    if b in q.busy {
      RequestStep(q, step, h, b);
    }
    assert HeadOk(Do(q, step), g);
  }

  // A buffer that waits has a request that will end its wait.
  lemma {:induction false} WaiterHasRequest(run: seq<Queue>, k: nat, b: int) returns (h: nat)
    requires IsRun(run) && k < |run| && b in run[k].busy
    ensures Sized(run[k]) && Pending(run[k], h, b)
  {
    if k > 0 {
      RunInv(run, k - 1);
      assert StepAt(run, k - 1);
      var step :| Enabled(run[k - 1], step) && run[k] == Do(run[k - 1], step);
      h := 0;
      if b in run[k - 1].busy {
        h := WaiterHasRequest(run, k - 1, b);
      }
      h := PendingStep(run[k - 1], step, b, h);
    }
  }
}
