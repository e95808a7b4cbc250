/**
  What holds in every reachable state of the scheduler, and why no wakeup is lost.
 */
module SchedSafety {
  import opened SchedMachine
  import opened SchedInvariant

  // ------------------------------------------------------------------
  // Every run
  // ------------------------------------------------------------------

  lemma ProcInv(s: State, c: nat, act: Act)
    requires Inv(s) && Runs(s, c) && ProcEnabled(s, c, act)
    ensures Inv(DoProc(s, c, act))
  {
    if IsSelf(act) {
      SelfSlots(s, c, act);
      SelfChans(s, c, act);
    } else if IsSpin(act) {
      SpinSlots(s, c, act);
      SpinChans(s, c, act);
    } else if IsWake(act) {
      WakeSlots(s, c, act);
      WakeChans(s, c, act);
    } else {
      PlainSlots(s, c, act);
      PlainChans(s, c, act);
    }
  }

  lemma NextInv(s: State, t: State)
    requires Inv(s) && SchedMachine.Next(s, t)
    ensures Inv(t)
  {
    var step :| Enabled(s, step) && t == Do(s, step);
    if !step.OnCpu? {
      EnvSlots(s, step);
      EnvChans(s, step);
    } else if IsSched(step.act) {
      SchedSlots(s, step.c, step.act);
      SchedChans(s, step.c, step.act);
    } else if IsInt(step.act) {
      IntSlots(s, step.c, step.act);
      IntChans(s, step.c, step.act);
    } else {
      ProcInv(s, step.c, step.act);
    }
  }

  lemma {:induction false} RunInv(run: seq<State>, k: nat)
    requires IsRun(run) && k < |run|
    ensures Inv(run[k])
  {
    if k == 0 {
      InitInv(run[0]);
    } else {
      RunInv(run, k - 1);
      NextInv(run[k - 1], run[k]);
    }
  }

  // Whenever p->lock is free, p is RUNNING exactly when one and only one CPU has proc = p.
  lemma RunningOnOneCpu(run: seq<State>, k: nat, i: nat)
    requires IsRun(run) && k < |run| && i < |run[k].p| && run[k].p[i].lock == NONE
    ensures run[k].p[i].state == Running <==> exists c :: 0 <= c < |run[k].c| && run[k].c[c].proc == i
    ensures forall c, d :: 0 <= c < d < |run[k].c| ==> run[k].c[c].proc != i || run[k].c[d].proc != i
  {
    var s := run[k];
    RunInv(run, k);
    FreeIsOff(s, i);
    if s.p[i].on != NONE {
      assert CpuOk(s, s.p[i].on);
    }
    forall c: nat | c < |s.c| && s.c[c].proc == i ensures s.p[i].on == c {
      assert CpuOk(s, c);
    }
  }

  // A wakeup on any channel, issued by a process under the channel's lock, loses nobody: when its
  // scan is done, no process is asleep on the channel or past the point where it could still look
  // at its condition.
  lemma NoLostWakeup(run: seq<State>, k: nat, w: nat, i: nat)
    requires IsRun(run) && k < |run| && w < |run[k].p| && i < |run[k].p|
    requires var at := run[k].p[w].at;
             at.Scan? && at.j == |run[k].p| && LkIn(run[k].chans, at.next) == ChanLock(run[k].chans, at.ch)
    ensures !Dozing(run[k].p[i], run[k].p[w].at.ch)
  {
    RunInv(run, k);
    assert ScanOk(run[k], w, i);
  }

  // The same for a wakeup by an interrupt handler, on whatever CPU it runs.
  lemma NoLostInterrupt(run: seq<State>, k: nat, c: nat, i: nat)
    requires IsRun(run) && k < |run| && c < |run[k].c| && i < |run[k].p|
    requires var at := run[k].c[c].at; at.IntScan? && at.j == |run[k].p| && at.k == ChanLock(run[k].chans, at.ch)
    ensures !Dozing(run[k].p[i], run[k].c[c].at.ch)
  {
    RunInv(run, k);
    assert IntScanOk(run[k], c, i);
  }

  // Part way, whoever the scan has passed is not asleep.
  lemma ScannedAreAwake(run: seq<State>, k: nat, w: nat, i: nat)
    requires IsRun(run) && k < |run| && w < |run[k].p| && i < |run[k].p|
    requires var at := run[k].p[w].at;
             Scanning(at) && i < at.j && LkIn(run[k].chans, at.next) == ChanLock(run[k].chans, at.ch)
    ensures !Dozing(run[k].p[i], run[k].p[w].at.ch)
  {
    RunInv(run, k);
    assert ScanOk(run[k], w, i);
  }

  // Why this is enough for a sleeper's condition: between testing it under the channel's lock and
  // being one whom a wakeup finds asleep, nobody else holds that lock.
  lemma TestedUnderLock(run: seq<State>, k: nat, i: nat)
    requires IsRun(run) && k < |run| && i < |run[k].p| && run[k].p[i].at.SleepLocked?
    ensures var ch := run[k].p[i].at.ch;
            ch < |run[k].chans| && run[k].chans[ch].lock < |run[k].l| && run[k].l[run[k].chans[ch].lock] == ByProc(i)
    ensures run[k].p[i].lock != NONE
  {
    var s := run[k];
    RunInv(run, k);
    assert KeyOk(s, i) && PathOk(s, i) && ProcOk(s, i);
    assert s.p[i].on != NONE ==> CpuOk(s, s.p[i].on) && HoldOk(s, s.p[i].on);
  }

  // A sleeplock that nobody holds has nobody asleep on it once its inner lock is free.
  lemma FreeLockHasNoSleeper(run: seq<State>, k: nat, ch: nat, i: nat)
    requires IsRun(run) && k < |run| && ch < |run[k].chans| && i < |run[k].p|
    requires Shape(run[k]) && run[k].chans[ch].sleeplock && run[k].l[run[k].chans[ch].lock] == Nobody && !run[k].sl[ch].locked
    ensures !Dozing(run[k].p[i], ch)
  {
    RunInv(run, k);
    assert DozeOk(run[k], ch, i);
  }

  // Sleeplocks exclude: two processes never have the same one, and a held one is locked.
  lemma MutualExclusion(run: seq<State>, k: nat, i: nat, j: nat, ch: nat)
    requires IsRun(run) && k < |run| && i < |run[k].p| && j < |run[k].p|
    requires ch in run[k].p[i].held
    ensures ch < |run[k].sl| && run[k].sl[ch].locked && run[k].sl[ch].owner == i
    ensures ch in run[k].p[j].held ==> i == j
  {
    RunInv(run, k);
    assert HeldOk(run[k], i, ch) && HeldOk(run[k], j, ch);
    assert OwnOk(run[k], ch);
  }

  // sched's checks hold: the caller has exactly its own lock, so that interrupts are off, and has
  // left RUNNING.
  lemma SchedChecks(run: seq<State>, k: nat, c: nat)
    requires IsRun(run) && k < |run| && Runs(run[k], c) && CurAt(run[k], c).Switching?
    ensures var s := run[k]; var i := Cur(s, c);
            && s.p[i].lock == c && s.p[i].state != Running
            && (forall j :: 0 <= j < |s.p| && j != i ==> s.p[j].lock != c)
            && (forall m :: 0 <= m < |s.l| ==> s.l[m] != ByProc(i) && s.l[m] != ByCpu(c))
            && (forall m: nat :: !IntEnabled(s, c, IntStart(m)))
  {
    var s := run[k];
    RunInv(run, k);
    var i := Cur(s, c);
    assert CpuOk(s, c) && HoldOk(s, c) && ProcOk(s, i);
    forall j: nat | j < |s.p| && j != i ensures s.p[j].lock != c {
      assert LockOk(s, j);
    }
    forall m: nat | m < |s.l| ensures s.l[m] != ByProc(i) && s.l[m] != ByCpu(c) {
      assert LkOk(s, m);
    }
  }

  // The run counter is accounted for by the ways of leaving the CPU, per slot of the table.
  lemma RunsAddUp(run: seq<State>, k: nat, i: nat)
    requires IsRun(run) && k < |run| && i < |run[k].p|
    ensures var n := run[k].p[i].n;
            n.run == n.preempt + n.sleep + n.exits + (if run[k].p[i].state == Running then 1 else 0)
  {
    RunInv(run, k);
    assert ProcOk(run[k], i);
  }

  // ------------------------------------------------------------------
  // Trap counters
  // ------------------------------------------------------------------

  // A trap is counted once more as a system call or a timer interrupt or as neither, and a
  // timer interrupt yields.
  predicate TrapsOk(q: Proc) {
    && q.n.syscall + q.n.interrupt + (if q.at.Timer? then 1 else 0) <= q.n.trap
    && q.n.interrupt <= q.n.preempt + (if q.at.YieldWant? || q.at.Yielding? then 1 else 0)
  }

  ghost predicate AllTraps(s: State) {
    forall i {:trigger s.p[i]} :: 0 <= i < |s.p| ==> TrapsOk(s.p[i])
  }

  lemma ProcTraps(s: State, c: nat, act: Act)
    requires AllTraps(s) && Runs(s, c) && ProcEnabled(s, c, act) && PathOk(s, Cur(s, c))
    ensures AllTraps(DoProc(s, c, act))
  {
    assert TrapsOk(s.p[Cur(s, c)]);
  }

  lemma EnvTraps(s: State, step: Step)
    requires Inv(s) && AllTraps(s) && Enabled(s, step) && !step.OnCpu?
    ensures AllTraps(Do(s, step))
  {
    FreeIsOff(s, step.i);
    assert ProcOk(s, step.i);
  }

  lemma NextTraps(s: State, t: State)
    requires Inv(s) && AllTraps(s) && SchedMachine.Next(s, t)
    ensures AllTraps(t)
  {
    var step :| Enabled(s, step) && t == Do(s, step);
    if !step.OnCpu? {
      EnvTraps(s, step);
    } else if !IsSched(step.act) && !IsInt(step.act) {
      assert PathOk(s, Cur(s, step.c));
      ProcTraps(s, step.c, step.act);
    }
  }

  lemma {:induction false} RunTraps(run: seq<State>, k: nat)
    requires IsRun(run) && k < |run|
    ensures AllTraps(run[k])
  {
    if k > 0 {
      RunInv(run, k - 1);
      RunTraps(run, k - 1);
      NextTraps(run[k - 1], run[k]);
    }
  }

  // In user mode every timer interrupt has cost a preemption, and every trap was counted.
  lemma UserCounts(run: seq<State>, k: nat, i: nat)
    requires IsRun(run) && k < |run| && i < |run[k].p| && run[k].p[i].at == User
    ensures run[k].p[i].n.interrupt <= run[k].p[i].n.preempt
    ensures run[k].p[i].n.syscall + run[k].p[i].n.interrupt <= run[k].p[i].n.trap
  {
    RunTraps(run, k);
  }
}
