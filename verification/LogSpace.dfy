/**
  Log space: what begin_op's reservation test guarantees on its own, and exactly when the
  size test of log_write can fire.
 */
module LogSpace {
  import opened LogMachine

  // No call adds more than cap blocks to the log.
  ghost predicate Capped(run: seq<State>, cap: nat) {
    forall i, k :: 0 <= i < |run| && 0 <= k < |run[i].ops| ==> run[i].ops[k].added <= cap
  }

  // What the calls in progress may still add.
  function Remaining(ops: seq<Op>, cap: nat): int {
    if ops == [] then 0 else cap - ops[|ops| - 1].added + Remaining(ops[..|ops| - 1], cap)
  }

  lemma {:induction false} RemainingUpdate(ops: seq<Op>, i: nat, cap: nat, o: Op)
    requires i < |ops|
    ensures Remaining(ops[i := o], cap) == Remaining(ops, cap) + ops[i].added - o.added
  {
    var n := |ops| - 1;
    if i == n {
      assert ops[i := o][..n] == ops[..n];
    } else {
      RemainingUpdate(ops[..n], i, cap, o);
      assert ops[i := o][..n] == ops[..n][i := o];
    }
  }

  lemma {:induction false} RemainingWithout(ops: seq<Op>, i: nat, cap: nat)
    requires i < |ops|
    ensures Remaining(Without(ops, i), cap) == Remaining(ops, cap) - (cap - ops[i].added)
  {
    var n := |ops| - 1;
    if i == n {
      assert Without(ops, i) == ops[..n];
    } else {
      RemainingWithout(ops[..n], i, cap);
      var w := Without(ops, i);
      assert w[..|w| - 1] == Without(ops[..n], i);
    }
  }

  lemma {:induction false} RemainingBounds(ops: seq<Op>, cap: nat)
    requires forall k :: 0 <= k < |ops| ==> ops[k].added <= cap
    ensures 0 <= Remaining(ops, cap) <= |ops| * cap
  {
    if ops != [] {
      RemainingBounds(ops[..|ops| - 1], cap);
      assert |ops| * cap == (|ops| - 1) * cap + cap;
    }
  }

  // With full-sized calls the reservation allows LOGSIZE blocks, with smaller ones two fewer.
  function Bound(cap: nat): nat {
    if cap < MAXOPBLOCKS then LOGSIZE - 2 else LOGSIZE
  }

  predicate HomeList(L: Layout, lh: seq<int>) {
    |lh| <= LOGSIZE && Distinct(lh) && forall i :: 0 <= i < |lh| ==> IsHome(L, lh[i])
  }

  predicate SpaceInv(L: Layout, s: State, cap: nat) {
    && Wf(L)
    && |s.disk| == L.total
    && IsHeader(s.disk[L.start])
    && HomeList(L, Entries(s.disk[L.start]))
    && HomeList(L, s.lh)
    && s.outstanding == |s.ops|
    && (forall k :: 0 <= k < |s.ops| ==> s.ops[k].added <= cap)
    && (s.phase == Idle ==> |s.lh| + Remaining(s.ops, cap) <= Bound(cap))
    && (s.phase == Idle && s.ops == [] ==> s.lh == [])
    && (s.phase == Cleared ==> s.lh == [])
    && (s.phase != Idle ==> s.ops == [])
  }

  lemma BeginSpace(L: Layout, s: State, id: nat, cap: nat)
    requires SpaceInv(L, s, cap) && cap <= MAXOPBLOCKS && Enabled(L, s, BeginOp(id), false)
    ensures SpaceInv(L, Do(L, s, BeginOp(id)), cap)
  {
    var ops := s.ops + [Op(id, 0)];
    assert ops[..|ops| - 1] == s.ops;
    RemainingBounds(s.ops, cap);
    if |s.ops| == 1 {
      assert Remaining(s.ops, cap) <= cap;
    } else if |s.ops| == 2 {
      assert Remaining(s.ops, cap) <= 2 * cap;
    }
  }

  // A call that adds a block uses up one block of its own reservation.
  lemma WriteSpace(L: Layout, s: State, step: Step, cap: nat)
    requires SpaceInv(L, s, cap) && cap <= MAXOPBLOCKS && step.LogWrite? && Enabled(L, s, step, false)
    requires forall k :: 0 <= k < |Do(L, s, step).ops| ==> Do(L, s, step).ops[k].added <= cap
    ensures SpaceInv(L, Do(L, s, step), cap)
  {
    var t := Do(L, s, step);
    var i := OpAt(s.ops, step.id);
    RemainingUpdate(s.ops, i, cap, Op(step.id, s.ops[i].added + 1));
    RemainingBounds(t.ops, cap);
  }

  lemma EndSpace(L: Layout, s: State, step: Step, cap: nat)
    requires SpaceInv(L, s, cap) && cap <= MAXOPBLOCKS && step.EndOp? && Enabled(L, s, step, false)
    ensures SpaceInv(L, Do(L, s, step), cap)
  {
    RemainingWithout(s.ops, OpAt(s.ops, step.id), cap);
  }

  lemma DiskSpace(L: Layout, s: State, step: Step, cap: nat)
    requires SpaceInv(L, s, cap) && Enabled(L, s, step, false)
    requires !step.BeginOp? && !step.LogWrite? && !step.EndOp?
    ensures SpaceInv(L, Do(L, s, step), cap)
  {
    var t := Do(L, s, step);
    assert InLog(L, L.start);
    if step.CopyBlock? || step.InstallBlock? || step.RecoverBlock? {
      assert IsHome(L, s.lh[s.phase.k]);
      assert t.disk[L.start] == s.disk[L.start];
    }
  }

  lemma NextSpace(L: Layout, s: State, t: State, cap: nat)
    requires SpaceInv(L, s, cap) && cap <= MAXOPBLOCKS && Next(L, s, t, false)
    requires forall k :: 0 <= k < |t.ops| ==> t.ops[k].added <= cap
    ensures SpaceInv(L, t, cap)
  {
    var step :| Enabled(L, s, step, false) && t == Do(L, s, step);
    if step.BeginOp? {
      BeginSpace(L, s, step.id, cap);
    } else if step.LogWrite? {
      WriteSpace(L, s, step, cap);
    } else if step.EndOp? {
      EndSpace(L, s, step, cap);
    } else {
      DiskSpace(L, s, step, cap);
    }
  }

  lemma {:induction false} RunSpace(L: Layout, run: seq<State>, cap: nat, n: nat)
    requires IsRun(L, run, false) && Capped(run, cap) && cap <= MAXOPBLOCKS && n < |run|
    ensures SpaceInv(L, run[n], cap)
  {
    if n != 0 {
      RunSpace(L, run, cap, n - 1);
      NextSpace(L, run[n - 1], run[n], cap);
    }
  }

  // The reservation test alone keeps the log within LOGSIZE blocks, each listed once, when no
  // call adds more than MAXOPBLOCKS: log_write makes no size test in these runs.
  lemma ReservationSuffices(L: Layout, run: seq<State>, n: nat)
    requires IsRun(L, run, false) && Capped(run, MAXOPBLOCKS) && n < |run|
    ensures |run[n].lh| <= LOGSIZE && Distinct(run[n].lh)
  {
    RunSpace(L, run, MAXOPBLOCKS, n);
  }

  // With sb.nlog == LOGSIZE, as mkfs makes it, the size test never fires if every call adds at
  // most MAXOPBLOCKS - 1 blocks.
  lemma NoPanicBelowMax(L: Layout, run: seq<State>, n: nat)
    requires IsRun(L, run, false) && Capped(run, MAXOPBLOCKS - 1) && n < |run|
    requires LOGSIZE <= L.size && run[n].phase == Idle
    ensures !TooBig(L, run[n])
  {
    RunSpace(L, run, MAXOPBLOCKS - 1, n);
    RemainingBounds(run[n].ops, MAXOPBLOCKS - 1);
  }

  lemma Extend(L: Layout, run: seq<State>, step: Step)
    requires IsRun(L, run, true) && Enabled(L, run[|run| - 1], step, true)
    ensures IsRun(L, run + [Do(L, run[|run| - 1], step)], true)
  {
    var t := Do(L, run[|run| - 1], step);
    var r := run + [t];
    forall i, j | 0 <= i && j == i + 1 < |r|
      ensures Next(L, r[i], r[j], true)
    {
      if j < |run| {
        assert Next(L, run[i], run[j], true);
      }
    }
  }

  // Call k of three has added its share of the first n blocks.
  predicate Shares(ops: seq<Op>, n: nat) {
    && |ops| == 3
    && forall k :: 0 <= k < 3 ==>
         ops[k] == Op(k, if n < 10 * k then 0 else if n < 10 * k + 10 then n - 10 * k else 10)
  }

  predicate Below(lh: seq<int>, m: int) {
    forall i :: 0 <= i < |lh| ==> lh[i] < m
  }

  // A disk whose log is empty.
  function BlankDisk(L: Layout): (d: Disk)
    ensures |d| == L.total
  {
    seq(L.total, _ => Zero())
  }

  // The machine has recovered from an empty log and begun n calls.
  predicate Begun(L: Layout, s: State, n: nat) {
    && |s.disk| == L.total && s.phase == Idle && s.lh == [] && s.outstanding == |s.ops| == n && !s.committing
    && (forall k :: 0 <= k < n ==> s.ops[k] == Op(k, 0))
    && |s.history| == n
    && forall k :: 0 <= k < n ==> s.history[k] == Begin(k)
  }

  lemma Recovered(L: Layout) returns (run: seq<State>)
    requires Wf(L)
    ensures IsRun(L, run, true) && Capped(run, MAXOPBLOCKS) && Begun(L, run[|run| - 1], 0)
  {
    var d := BlankDisk(L);
    assert Entries(d[L.start]) == [];
    var s := State(d, [], 0, false, map[], Recovering(0), [], Durable(L, d), [], 0);
    run := [s];
    Extend(L, run, RecoverClear);
    run := run + [Do(L, s, RecoverClear)];
  }

  lemma OneMore(L: Layout, run: seq<State>, n: nat) returns (r: seq<State>)
    requires Wf(L) && IsRun(L, run, true) && Capped(run, MAXOPBLOCKS) && Begun(L, run[|run| - 1], n) && n < 3
    ensures IsRun(L, r, true) && Capped(r, MAXOPBLOCKS) && Begun(L, r[|r| - 1], n + 1)
  {
    Extend(L, run, BeginOp(n));
    r := run + [Do(L, run[|run| - 1], BeginOp(n))];
  }

  lemma ThreeCalls(L: Layout) returns (run: seq<State>)
    requires Wf(L)
    ensures IsRun(L, run, true) && Capped(run, MAXOPBLOCKS) && Begun(L, run[|run| - 1], 3)
  {
    run := Recovered(L);
    run := OneMore(L, run, 0);
    run := OneMore(L, run, 1);
    run := OneMore(L, run, 2);
  }

  lemma OpOf(ops: seq<Op>, n: nat, k: nat)
    requires Shares(ops, n) && k < 3
    ensures HasOp(ops, k) && OpAt(ops, k) == k
  {
    assert ops[k].id == k;
  }

  // The call id is still within its reservation and its next log_write panics.
  predicate Stuck(L: Layout, s: State, id: nat) {
    s.phase == Idle && TooBig(L, s) && HasOp(s.ops, id) && s.ops[OpAt(s.ops, id)].added < MAXOPBLOCKS
  }

  // Three calls that use their full reservation fill a log of at most LOGSIZE blocks.
  lemma FillLog(L: Layout) returns (run: seq<State>)
    requires Wf(L) && L.size <= LOGSIZE && L.start + L.size + LOGSIZE <= L.total
    ensures IsRun(L, run, true) && Capped(run, MAXOPBLOCKS) && Stuck(L, run[|run| - 1], 2)
  {
    run := ThreeCalls(L);
    var n := 0;
    while n < L.size - 1
      invariant n <= L.size - 1
      invariant IsRun(L, run, true) && Capped(run, MAXOPBLOCKS) && Filled(L, run[|run| - 1], n)
    {
      run := OneBlock(L, run, n);
      n := n + 1;
    }
    OpOf(run[|run| - 1].ops, n, 2);
  }

  // The first n blocks behind the log are in it.
  predicate Filled(L: Layout, s: State, n: nat) {
    |s.disk| == L.total && s.phase == Idle && |s.lh| == n && Shares(s.ops, n) && Below(s.lh, L.start + L.size + n)
  }

  lemma OneBlock(L: Layout, run: seq<State>, n: nat) returns (r: seq<State>)
    requires Wf(L) && L.size <= LOGSIZE && L.start + L.size + LOGSIZE <= L.total && n < L.size - 1
    requires IsRun(L, run, true) && Capped(run, MAXOPBLOCKS) && Filled(L, run[|run| - 1], n)
    ensures IsRun(L, r, true) && Capped(r, MAXOPBLOCKS) && Filled(L, r[|r| - 1], n + 1)
  {
    var s := run[|run| - 1];
    var step := LogWrite(n / 10, L.start + L.size + n, Zero());
    OpOf(s.ops, n, n / 10);
    Extend(L, run, step);
    r := run + [Do(L, s, step)];
  }

  // A run with the size test is a run without it.
  lemma Unguarded(L: Layout, run: seq<State>)
    requires IsRun(L, run, true)
    ensures IsRun(L, run, false)
  {
    forall i, j | 0 <= i && j == i + 1 < |run| ensures Next(L, run[i], run[j], false) {
      assert Next(L, run[i], run[j], true);
      var step :| Enabled(L, run[i], step, true) && run[j] == Do(L, run[i], step);
      assert Enabled(L, run[i], step, false);
    }
  }

  // A call that may still add a block has it in reserve.
  lemma {:induction false} RemainingSome(ops: seq<Op>, i: nat, cap: nat)
    requires i < |ops| && ops[i].added < cap && forall k :: 0 <= k < |ops| ==> ops[k].added <= cap
    ensures Remaining(ops, cap) > 0
  {
    var n := |ops| - 1;
    RemainingBounds(ops[..n], cap);
    if i < n {
      RemainingSome(ops[..n], i, cap);
    }
  }

  lemma NoPanicAbove(L: Layout, run: seq<State>, n: nat, id: nat)
    requires IsRun(L, run, true) && Capped(run, MAXOPBLOCKS) && n < |run| && LOGSIZE < L.size
    ensures !Stuck(L, run[n], id)
  {
    Unguarded(L, run);
    RunSpace(L, run, MAXOPBLOCKS, n);
    if Stuck(L, run[n], id) {
      RemainingSome(run[n].ops, OpAt(run[n].ops, id), MAXOPBLOCKS);
    }
  }

  // A run in which no call goes beyond its reservation and yet call id cannot go on.
  ghost predicate Panics(L: Layout, run: seq<State>, id: nat) {
    IsRun(L, run, true) && Capped(run, MAXOPBLOCKS) && Stuck(L, run[|run| - 1], id)
  }

  // When calls use their full reservation, the size test can fire on one of them exactly when the
  // log has at most LOGSIZE blocks, its header among them, as mkfs makes it.
  lemma PanicExactly(L: Layout)
    requires Wf(L) && L.start + L.size + LOGSIZE <= L.total
    ensures (exists run, id :: Panics(L, run, id)) <==> L.size <= LOGSIZE
  {
    if L.size <= LOGSIZE {
      var run := FillLog(L);
      assert Panics(L, run, 2);
    } else if run, id :| Panics(L, run, id) {
      NoPanicAbove(L, run, |run| - 1, id);
    }
  }
}
