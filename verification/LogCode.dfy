/**
  The code of kernel/log.c: the log struct, updated in place, with its loops.

  Every method keeps a ghost run of LogMachine that ends in the current state, and extends it
  by one machine step for every critical section and for every block written to the disk.  So
  each prefix of the writes a method makes is a point at which LogSafety.CrashAtomicity speaks.
 */
module LogCode {
  import opened LogMachine
  import LogSafety
  import LogSpace

  datatype Outcome = Logged | TooBigTransaction | OutsideTransaction

  class Log {
    const L: Layout
    var disk: Disk            // the device
    var mem: map<int, Block>  // the buffers log_write has pinned
    var n: nat                // log.lh.n
    const block: array<int>   // log.lh.block
    var outstanding: nat
    var committing: bool
    ghost var run: seq<State>

    ghost function Now(): State
      requires run != []
      reads this
    {
      run[|run| - 1]
    }

    ghost predicate Valid()
      reads this, block
    {
      && IsRun(L, run, true)
      && Wf(L)
      && |disk| == L.total
      && block.Length == LOGSIZE
      && n <= LOGSIZE
      && Now().disk == disk
      && Now().mem == mem
      && Now().lh == block[..n]
      && Now().outstanding == outstanding
      && Now().committing == committing
    }

    // Booting: the in-memory log is read from the disk header.
    constructor (L: Layout, disk: Disk)
      requires DiskOk(L, disk)
      ensures Valid() && fresh(block) && this.L == L && this.disk == disk
      ensures Now().phase == Recovering(0) && Now().init == Durable(L, disk) && |run| == 1 && Now().history == [] && Now().ops == []
    {
      this.L, this.disk := L, disk;
      this.mem := map[];
      this.outstanding, this.committing := 0, false;
      this.block := new int[LOGSIZE];
      this.n := 0;
      new;
      ReadHead();
      run := [State(disk, Entries(disk[L.start]), 0, false, map[], Recovering(0), [], Durable(L, disk), [], 0)];
    }

    // The calls and their writes are as in state s.
    ghost predicate SameCalls(s: State)
      requires run != []
      reads this
    {
      Now().history == s.history && Now().init == s.init && Now().ops == s.ops
    }

    // The run has gone on from r without a call beginning, writing or ending.
    ghost predicate Steady(r: seq<State>)
      requires run != []
      reads this
    {
      && r <= run
      && forall k {:trigger run[k]} :: |r| <= k < |run| ==> run[k].history == Now().history && run[k].init == Now().init
    }

    // Record one machine step.
    ghost method Record(step: Step)
      requires IsRun(L, run, true) && Enabled(L, Now(), step, true)
      modifies this`run
      ensures IsRun(L, run, true) && run == old(run) + [Do(L, old(Now()), step)]
    {
      LogSpace.Extend(L, run, step);
      run := run + [Do(L, Now(), step)];
    }

    method ReadHead()
      requires Wf(L) && |disk| == L.total && IsHeader(disk[L.start]) && block.Length == LOGSIZE
      modifies this`n, block
      ensures n <= LOGSIZE && block[..n] == Entries(disk[L.start])
    {
      var lh := disk[L.start].words;
      n := lh[0];
      var i := 0;
      while i < n
        invariant 0 <= i <= n == lh[0]
        invariant block[..i] == lh[1..1 + i]
      {
        block[i] := lh[i + 1];
        i := i + 1;
      }
    }

    method WriteHead()
      requires Wf(L) && |disk| == L.total && IsHeader(disk[L.start]) && block.Length == LOGSIZE && n <= LOGSIZE
      modifies this`disk
      ensures disk == old(disk)[L.start := PutHeader(old(disk[L.start]), block[..n])]
    {
      var hb := disk[L.start].words;
      ghost var before := hb;
      hb := hb[0 := n];
      var i := 0;
      while i < n
        invariant 0 <= i <= n
        invariant hb == [n] + block[..i] + before[i + 1..]
      {
        hb := hb[i + 1 := block[i]];
        i := i + 1;
      }
      disk := disk[L.start := Block(hb)];
    }

    // The test of begin_op; a caller that gets false sleeps and tries again.
    method BeginOp(ghost id: nat) returns (ok: bool)
      requires Valid() && (committing || Now().phase == Idle)
      requires MayFollow(Now().history, Begin(id))
      modifies this`outstanding, this`run
      ensures Valid()
      ensures ok == MayBegin(old(Now()))
      ensures run == if ok then old(run) + [Do(L, old(Now()), LogMachine.BeginOp(id))] else old(run)
    {
      if committing {
        ok := false;
      } else if n + (outstanding + 1) * MAXOPBLOCKS > LOGSIZE {
        ok := false;
      } else {
        LogSafety.RunInv(L, run, |run| - 1);
        Record(LogMachine.BeginOp(id));
        outstanding := outstanding + 1;
        ok := true;
      }
    }

    // The absorption scan of log_write.
    method Find(b: int) returns (i: nat)
      requires n <= block.Length
      ensures i <= n && b !in block[..i]
      ensures i < n ==> block[i] == b
    {
      i := 0;
      while i < n
        invariant 0 <= i <= n
        invariant b !in block[..i]
      {
        if block[i] == b {
          break;
        }
        i := i + 1;
      }
    }

    // data is the buffer's contents when the holder of block b calls log_write.
    method LogWrite(ghost id: nat, b: int, data: Block) returns (r: Outcome)
      requires Valid() && IsHome(L, b)
      requires 1 <= outstanding ==> Now().phase == Idle && HasOp(Now().ops, id)
      modifies this`n, this`mem, this`run, block
      ensures Valid()
      ensures r == TooBigTransaction <==> old(TooBig(L, Now()))
      ensures r == Logged <==> old(!TooBig(L, Now()) && 1 <= outstanding)
      ensures run == if r == Logged then old(run) + [Do(L, old(Now()), LogMachine.LogWrite(id, b, data))] else old(run)
    {
      if n >= LOGSIZE || n >= L.size - 1 {
        return TooBigTransaction;
      }
      if outstanding < 1 {
        return OutsideTransaction;
      }
      var i := Find(b);
      Record(LogMachine.LogWrite(id, b, data));
      mem := mem[b := data];
      Absorb(i, b);
      r := Logged;
    }

    // log_write's update of the header in memory: a block already there is absorbed.
    method Absorb(i: nat, b: int)
      requires i <= n < block.Length && b !in block[..i] && (i < n ==> block[i] == b)
      modifies this`n, block
      ensures n <= block.Length && block[..n] == if b in old(block[..n]) then old(block[..n]) else old(block[..n]) + [b]
    {
      ghost var lh := block[..n];
      block[i] := b;
      if i == n {
        n := n + 1;
        assert block[..n] == lh + [b];
      } else {
        assert lh[i] == b;
        assert block[..n] == lh;
      }
    }

    // bread, for a block of the log's device.
    method Bread(b: int) returns (data: Block)
      requires 0 <= b < |disk|
      ensures data == if b in mem then mem[b] else disk[b]
    {
      data := if b in mem then mem[b] else disk[b];
    }

    // Copy the logged blocks from the cache to the log area.
    method WriteLog()
      requires Valid() && Now().phase == Copying(0)
      modifies this`disk, this`run
      ensures Valid() && Steady(old(run)) && SameCalls(old(Now()))
      ensures Now().phase == Copying(n)
    {
      var tail := 0;
      while tail < n
        invariant 0 <= tail <= n
        invariant Valid() && Steady(old(run)) && SameCalls(old(Now()))
        invariant Now().phase == Copying(tail)
      {
        LogSafety.CopyLoopsEnabled(L, run, |run| - 1);
        assert block[..n][tail] == block[tail];
        var from := Bread(block[tail]);
        Record(CopyBlock);
        disk := disk[L.start + tail + 1 := from];
        tail := tail + 1;
      }
    }

    // One iteration of install_trans: the log block goes home and, on a commit, the buffer is unpinned.
    method InstallOne(recovering: bool, tail: nat)
      requires Valid() && tail < n
      requires Now().phase == if recovering then Recovering(tail) else Installing(tail)
      modifies this`disk, this`mem, this`run
      ensures Valid() && Steady(old(run)) && SameCalls(old(Now()))
      ensures Now().phase == if recovering then Recovering(tail + 1) else Installing(tail + 1)
    {
      LogSafety.CopyLoopsEnabled(L, run, |run| - 1);
      var home := block[tail];
      assert block[..n][tail] == home;
      var lbuf := disk[L.start + tail + 1];
      disk := disk[home := lbuf];
      if recovering {
        Record(RecoverBlock);
      } else {
        Record(InstallBlock);
        mem := mem - {home};
      }
    }

    // Copy the logged blocks from the log area to their home locations.
    method InstallTrans(recovering: bool)
      requires Valid() && Now().phase == if recovering then Recovering(0) else Installing(0)
      modifies this`disk, this`mem, this`run
      ensures Valid() && Steady(old(run)) && SameCalls(old(Now()))
      ensures Now().phase == if recovering then Recovering(n) else Installing(n)
    {
      var tail := 0;
      while tail < n
        invariant 0 <= tail <= n
        invariant Valid() && Steady(old(run)) && SameCalls(old(Now()))
        invariant Now().phase == if recovering then Recovering(tail) else Installing(tail)
      {
        InstallOne(recovering, tail);
        tail := tail + 1;
      }
    }

    // Erase the log: n is zeroed in memory and then in the header block.
    method ClearLog(recovering: bool)
      requires Valid() && Now().phase == if recovering then Recovering(n) else Installing(n)
      modifies this`disk, this`n, this`run
      ensures Valid() && Steady(old(run)) && SameCalls(old(Now()))
      ensures n == 0 && Now().phase == if recovering then Idle else Cleared
    {
      LogSafety.RunInv(L, run, |run| - 1);
      Record(if recovering then RecoverClear else ClearHead);
      n := 0;
      WriteHead();
    }

    method Commit()
      requires Valid() && Now().phase == if n > 0 then Copying(0) else Cleared
      modifies this`disk, this`n, this`mem, this`run
      ensures Valid() && Steady(old(run)) && SameCalls(old(Now()))
      ensures n == 0 && Now().phase == Cleared
    {
      if n > 0 {
        WriteLog();
        LogSafety.RunInv(L, run, |run| - 1);
        Record(LogMachine.WriteHead);
        WriteHead();
        InstallTrans(false);
        ClearLog(false);
      }
    }

    // The part of end_op that runs without the lock.
    method CommitGroup()
      requires Valid() && Now().phase == (if n > 0 then Copying(0) else Cleared) && outstanding == 0
      modifies this`disk, this`n, this`mem, this`committing, this`run
      ensures Valid() && Steady(old(run)) && SameCalls(old(Now()))
      ensures Now().phase == Idle && n == 0
      ensures Overlay(L, disk, map[]) == Apply(Now().init, Now().history)
    {
      Commit();
      Record(FinishCommit);
      committing := false;
      LogSafety.RunInv(L, run, |run| - 1);
    }

    // What the critical section of end_op makes of the machine state.
    lemma EndOpState(s: State, id: nat)
      requires LogSafety.Inv(L, s) && HasOp(s.ops, id)
      ensures !s.committing && 1 <= s.outstanding && Enabled(L, s, LogMachine.EndOp(id), true)
      ensures
        var t := Do(L, s, LogMachine.EndOp(id));
        && t.disk == s.disk && t.mem == s.mem && t.lh == s.lh && t.init == s.init
        && t.outstanding == s.outstanding - 1 && t.history == s.history + [End(id)]
        && t.committing == (t.outstanding == 0)
        && t.phase == if t.outstanding > 0 then Idle else if |t.lh| > 0 then Copying(0) else Cleared
    {
    }

    // The call that ends last commits the group before it returns.
    method EndOp(ghost id: nat) returns (panicked: bool)
      requires Valid() && HasOp(Now().ops, id)
      modifies this`disk, this`n, this`mem, this`outstanding, this`committing, this`run
      ensures Valid() && Steady(old(run))
      ensures !panicked && outstanding == old(outstanding) - 1
      ensures Now().history == old(Now().history) + [End(id)] && Now().init == old(Now().init)
      ensures Now().phase == Idle
      ensures outstanding == 0 ==> n == 0 && Overlay(L, disk, map[]) == Apply(Now().init, Now().history)
    {
      LogSafety.RunInv(L, run, |run| - 1);
      EndOpState(Now(), id);
      Record(LogMachine.EndOp(id));
      outstanding := outstanding - 1;
      panicked := committing;
      if outstanding == 0 {
        committing := true;
        CommitGroup();
      }
    }

    // Power fails and the machine boots again: memory is lost, the header is read from the disk.
    method Reboot()
      requires Valid()
      modifies this`n, this`mem, this`outstanding, this`committing, this`run, block
      ensures Valid() && |run| == |old(run)| + 1 && old(run) <= run && disk == old(disk)
      ensures Now().phase == Recovering(0) && Now().init == old(Now().init)
      ensures old(Now().captured <= |Now().history|)
      ensures Now().history == old(Now().history[..Now().captured])
    {
      LogSafety.RunInv(L, run, |run| - 1);
      Record(Crash);
      mem := map[];
      outstanding, committing := 0, false;
      ReadHead();
    }

    // Run at boot, and after every crash, before any call begins.
    method RecoverFromLog()
      requires Valid() && Now().phase == Recovering(0)
      modifies this`disk, this`n, this`mem, this`run
      ensures Valid() && Steady(old(run)) && SameCalls(old(Now()))
      ensures Now().phase == Idle && n == 0
      ensures Overlay(L, disk, map[]) == Apply(Now().init, Now().history)
    {
      InstallTrans(true);
      ClearLog(true);
      LogSafety.RunInv(L, run, |run| - 1);
    }
  }
}
