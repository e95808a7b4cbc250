/**
  The invariant of the scheduler: who is where, who holds which lock, and who can be asleep.

  It is a conjunction of facts about single CPUs, processes, locks and channels.  For each group of
  steps there is one lemma per kind of fact, which asks only for the facts of the slots involved.
 */
module SchedInvariant {
  import opened SchedMachine

  // ------------------------------------------------------------------
  // The invariant
  // ------------------------------------------------------------------

  // Where code runs that holds a lock and may sleep.
  predicate Sleepy(at: Place) {
    at.Locked? || at.AcqTest?
  }

  // Every call goes back to where it was made.
  predicate WellPlaced(chans: seq<Chan>, at: Place) {
    match at
    case YieldWant(next) => Open(next) && WellPlaced(chans, next)
    case Yielding(next) => Open(next) && WellPlaced(chans, next)
    case Yielded(next) => Open(next) && WellPlaced(chans, next)
    case LockWant(next) => Sleepy(next) || next.RelTest?
    case SleepLocked(ch, next) => ch < |chans| && Sleepy(next) && LkIn(chans, next) == chans[ch].lock
    case SleepOnly(ch, next) => ch < |chans| && Sleepy(next)
    case Woken(ch, next) => ch < |chans| && Sleepy(next)
    case Scan(ch, _, next) => ch < |chans| && (next.Locked? || next == RelDone(ch))
    case ScanGot(ch, _, next) => ch < |chans| && (next.Locked? || next == RelDone(ch))
    case Switching(back) => Resting(back) && WellPlaced(chans, back)
    case _ => true
  }

  // The sleeplock the process is about to release, perhaps after a preemption.
  function RelOf(at: Place): int {
    match at
    case RelTest(ch) => ch
    case LockWant(next) => if next.RelTest? then next.ch else NONE
    case YieldWant(next) => RelOf(next)
    case Yielding(next) => RelOf(next)
    case Yielded(next) => RelOf(next)
    case Switching(back) => RelOf(back)
    case _ => NONE
  }

  // A process that is on no CPU stands where its state says.
  predicate Fits(q: Proc, at: Place) {
    match q.state
    case Unused => Resting(at)
    case Used => at.Born?
    case Sleeping => at.Woken? && q.chan == at.ch
    case Runnable => at.Born? || at.Yielded? || at.Woken?
    case Zombie => at.Dead?
    case Running => false
  }

  // A process that is on a CPU, likewise.
  predicate Acting(q: Proc) {
    if q.at.Switching? then Fits(q, q.at.back)
    else if q.at.ExitDone? then q.state == Zombie
    else q.state == Running && !q.at.Dead?
  }

  ghost predicate CpuOk(s: State, c: nat)
    requires c < |s.c|
  {
    var at, i := s.c[c].at, ProcOn(s.c[c].at);
    && s.c[c].proc == i
    && (i != NONE ==> 0 <= i < |s.p| && s.p[i].on == c)
    && (i != NONE && !at.In? && !at.Back? ==> Open(s.p[i].at) || s.p[i].at.User?)
    && (at.Look? || at.Got? ==> at.j < |s.p|)
    && (at.IntScan? || at.IntScanGot? ==> at.ch < |s.chans|)
    && (at.IntLocked? || at.IntScan? || at.IntScanGot? ==> at.ret.ToLook? ==> at.ret.j < |s.p|)
    && (LkOfCpu(at) != NONE ==> LkOfCpu(at) < |s.l| && s.l[LkOfCpu(at)] == ByCpu(c))
  }

  ghost predicate ProcOk(s: State, i: nat)
    requires i < |s.p|
  {
    var q := s.p[i];
    && (q.on == NONE ==> Fits(q, q.at))
    && (q.on != NONE ==> 0 <= q.on < |s.c| && ProcOn(s.c[q.on].at) == i && if s.c[q.on].at.Back? then Fits(q, q.at) else Acting(q))
    && q.n.run == q.n.preempt + q.n.sleep + q.n.exits + (if q.state == Running then 1 else 0)
  }

  // A process lock and the CPU said to hold it agree.
  ghost predicate LockOk(s: State, i: nat)
    requires i < |s.p|
  {
    s.p[i].lock != NONE ==> 0 <= s.p[i].lock < |s.c| && LockOf(s.p, s.c[s.p[i].lock]) == i
  }

  ghost predicate HoldOk(s: State, c: nat)
    requires c < |s.c|
  {
    var i := LockOf(s.p, s.c[c]);
    i != NONE ==> 0 <= i < |s.p| && s.p[i].lock == c
  }

  // The same for the other locks.
  ghost predicate LkOk(s: State, k: nat)
    requires k < |s.l|
  {
    match s.l[k]
    case Nobody => true
    case ByProc(i) => i < |s.p| && LkOf(s.chans, s.p[i].at) == k
    case ByCpu(c) => c < |s.c| && LkOfCpu(s.c[c].at) == k
  }

  ghost predicate KeyOk(s: State, i: nat)
    requires i < |s.p|
  {
    var k := LkOf(s.chans, s.p[i].at);
    k != NONE ==> 0 <= k < |s.l| && s.l[k] == ByProc(i)
  }

  ghost predicate PathOk(s: State, i: nat)
    requires i < |s.p|
  {
    && WellPlaced(s.chans, s.p[i].at)
    && (RelOf(s.p[i].at) != NONE ==> RelOf(s.p[i].at) in s.p[i].held)
  }

  // Sleeplocks and their holders.
  ghost predicate OwnOk(s: State, ch: nat)
    requires ch < |s.sl|
  {
    && (s.sl[ch].locked <==> s.sl[ch].owner != NONE)
    && (s.sl[ch].owner != NONE ==> 0 <= s.sl[ch].owner < |s.p| && ch in s.p[s.sl[ch].owner].held)
  }

  ghost predicate HeldOk(s: State, i: nat, ch: nat)
    requires i < |s.p|
  {
    ch in s.p[i].held ==> ch < |s.sl| && s.sl[ch].owner == i
  }

  // Asleep on ch, or past the point of no return: p->lock held and the channel's lock released.
  predicate Dozing(q: Proc, ch: nat) {
    (q.state == Sleeping && q.chan == ch) || (q.at.SleepOnly? && q.at.ch == ch)
  }

  predicate Scanning(at: Place) {
    at.Scan? || at.ScanGot?
  }

  // A wakeup issued under the channel's lock: whoever it has passed is not asleep there.
  ghost predicate ScanOk(s: State, w: nat, i: nat)
    requires w < |s.p| && i < |s.p|
  {
    var at := s.p[w].at;
    Scanning(at) && LkIn(s.chans, at.next) == ChanLock(s.chans, at.ch) && i < at.j ==> !Dozing(s.p[i], at.ch)
  }

  ghost predicate IntScanOk(s: State, c: nat, i: nat)
    requires c < |s.c| && i < |s.p|
  {
    var at := s.c[c].at;
    (at.IntScan? || at.IntScanGot?) && at.k == ChanLock(s.chans, at.ch) && i < at.j ==> !Dozing(s.p[i], at.ch)
  }

  // The holder of the sleeplock's lock is in releasesleep's wakeup and has yet to come to i.
  ghost predicate WakeupComing(s: State, ch: nat, i: nat)
    requires ch < |s.chans| && s.chans[ch].lock < |s.l|
  {
    var h := s.l[s.chans[ch].lock];
    && h.ByProc? && h.i < |s.p|
    && Scanning(s.p[h.i].at) && s.p[h.i].at.next == RelDone(ch) && s.p[h.i].at.j <= i
  }

  // Whoever sleeps on a sleeplock found it locked, and it still is or a wakeup is coming.
  ghost predicate DozeOk(s: State, ch: nat, i: nat)
    requires ch < |s.chans| == |s.sl| && s.chans[ch].lock < |s.l| && i < |s.p|
  {
    && (s.chans[ch].sleeplock && Dozing(s.p[i], ch) ==> s.sl[ch].locked || WakeupComing(s, ch, i))
    && (s.chans[ch].sleeplock && s.p[i].at.SleepLocked? && s.p[i].at.ch == ch ==> s.sl[ch].locked)
  }

  ghost predicate Shape(s: State) {
    && |s.p| > 0
    && |s.sl| == |s.chans|
    && (forall ch {:trigger s.chans[ch]} :: 0 <= ch < |s.chans| ==> s.chans[ch].lock < |s.l|)
  }

  // The invariant of CPUs, processes and locks, ...
  ghost predicate SlotInv(s: State) {
    && Shape(s)
    && (forall c: nat {:trigger CpuOk(s, c)} :: c < |s.c| ==> CpuOk(s, c))
    && (forall i: nat {:trigger ProcOk(s, i)} :: i < |s.p| ==> ProcOk(s, i))
    && (forall i: nat {:trigger LockOk(s, i)} :: i < |s.p| ==> LockOk(s, i))
    && (forall c: nat {:trigger HoldOk(s, c)} :: c < |s.c| ==> HoldOk(s, c))
    && (forall k: nat {:trigger LkOk(s, k)} :: k < |s.l| ==> LkOk(s, k))
    && (forall i: nat {:trigger KeyOk(s, i)} :: i < |s.p| ==> KeyOk(s, i))
    && (forall i: nat {:trigger PathOk(s, i)} :: i < |s.p| ==> PathOk(s, i))
  }

  // ... and of channels.
  ghost predicate ChanInv(s: State)
    requires Shape(s)
  {
    && (forall ch: nat {:trigger OwnOk(s, ch)} :: ch < |s.sl| ==> OwnOk(s, ch))
    && (forall i: nat, ch: nat {:trigger HeldOk(s, i, ch)} :: i < |s.p| ==> HeldOk(s, i, ch))
    && (forall w: nat, i: nat {:trigger ScanOk(s, w, i)} :: w < |s.p| && i < |s.p| ==> ScanOk(s, w, i))
    && (forall c: nat, i: nat {:trigger IntScanOk(s, c, i)} :: c < |s.c| && i < |s.p| ==> IntScanOk(s, c, i))
    && (forall ch: nat, i: nat {:trigger DozeOk(s, ch, i)} :: ch < |s.chans| && i < |s.p| ==> DozeOk(s, ch, i))
  }

  ghost predicate Inv(s: State) {
    SlotInv(s) && ChanInv(s)
  }

  lemma InitInv(s: State)
    requires Init(s)
    ensures Inv(s)
  {
    forall i: nat | i < |s.p| ensures ProcOk(s, i) && LockOk(s, i) && KeyOk(s, i) && PathOk(s, i) {
    }
    forall w: nat, i: nat | w < |s.p| && i < |s.p| ensures ScanOk(s, w, i) {
    }
    forall ch: nat, i: nat | ch < |s.chans| && i < |s.p| ensures DozeOk(s, ch, i) {
    }
  }

  // With its lock free, a process that is not running is on no CPU.
  lemma FreeIsOff(s: State, i: nat)
    requires Inv(s) && i < |s.p| && s.p[i].lock == NONE
    ensures s.p[i].state == Running <==> s.p[i].on != NONE
    ensures s.p[i].on != NONE ==> 0 <= s.p[i].on < |s.c| && ProcOn(s.c[s.p[i].on].at) == i && !OwnLock(s.p[i].at)
  {
    assert ProcOk(s, i);
    assert s.p[i].on != NONE ==> HoldOk(s, s.p[i].on) && CpuOk(s, s.p[i].on);
  }

  // A process that is ready and whose lock a scheduler has just taken is on no CPU.
  lemma ReadyIsOff(s: State, c: nat)
    requires Inv(s) && c < |s.c| && s.c[c].at.Got? && s.c[c].at.j < |s.p| && s.p[s.c[c].at.j].state == Runnable
    ensures s.p[s.c[c].at.j].on == NONE && OwnLock(s.p[s.c[c].at.j].at)
  {
    var j := s.c[c].at.j;
    assert ProcOk(s, j) && HoldOk(s, c);
    assert s.p[j].on != NONE ==> HoldOk(s, s.p[j].on) && CpuOk(s, s.p[j].on);
  }

  // What a step relies on: its lock is free and it knows where the process is, ...
  ghost predicate EnvActor(s: State, step: Step)
    requires Enabled(s, step)
  {
    && !step.OnCpu?
    && ProcOk(s, step.i) && KeyOk(s, step.i) && PathOk(s, step.i)
    && (s.p[step.i].state == Running <==> s.p[step.i].on != NONE)
  }

  // ... or the CPU is where it seems to be, ...
  ghost predicate CpuActor(s: State, c: nat)
    requires c < |s.c|
  {
    && CpuOk(s, c) && HoldOk(s, c)
    && (s.c[c].at.Got? && s.p[s.c[c].at.j].state == Runnable ==> s.p[s.c[c].at.j].on == NONE && OwnLock(s.p[s.c[c].at.j].at))
  }

  // ... and so is its process.
  ghost predicate ProcActor(s: State, c: nat)
    requires Runs(s, c)
  {
    CpuOk(s, c) && HoldOk(s, c) && ProcOk(s, Cur(s, c)) && KeyOk(s, Cur(s, c)) && PathOk(s, Cur(s, c))
  }

  // ------------------------------------------------------------------
  // Single critical sections of p->lock
  // ------------------------------------------------------------------

  lemma EnvProc(s: State, step: Step, i: nat)
    requires Enabled(s, step) && !step.OnCpu? && EnvActor(s, step) && Shape(s)
    requires i < |s.p| && ProcOk(s, i)
    ensures ProcOk(Do(s, step), i)
  {
  }

  lemma EnvKey(s: State, step: Step, i: nat)
    requires Enabled(s, step) && !step.OnCpu? && EnvActor(s, step) && Shape(s)
    requires i < |s.p| && KeyOk(s, i)
    ensures KeyOk(Do(s, step), i)
  {
  }

  lemma EnvPath(s: State, step: Step, i: nat)
    requires Enabled(s, step) && !step.OnCpu? && EnvActor(s, step) && Shape(s)
    requires i < |s.p| && PathOk(s, i)
    ensures PathOk(Do(s, step), i)
  {
  }

  lemma EnvLock(s: State, step: Step, i: nat)
    requires Enabled(s, step) && !step.OnCpu? && EnvActor(s, step) && Shape(s)
    requires i < |s.p| && LockOk(s, i) && (s.p[i].lock != NONE ==> CpuOk(s, s.p[i].lock))
    ensures LockOk(Do(s, step), i)
  {
  }

  lemma EnvCpu(s: State, step: Step, d: nat)
    requires Enabled(s, step) && !step.OnCpu? && EnvActor(s, step) && Shape(s)
    requires d < |s.c| && CpuOk(s, d)
    ensures CpuOk(Do(s, step), d)
  {
  }

  lemma EnvHold(s: State, step: Step, d: nat)
    requires Enabled(s, step) && !step.OnCpu? && EnvActor(s, step) && Shape(s)
    requires d < |s.c| && CpuOk(s, d) && HoldOk(s, d)
    ensures HoldOk(Do(s, step), d)
  {
  }

  lemma EnvLk(s: State, step: Step, k: nat)
    requires Enabled(s, step) && !step.OnCpu? && EnvActor(s, step) && Shape(s)
    requires k < |s.l| && LkOk(s, k)
    ensures LkOk(Do(s, step), k)
  {
  }

  lemma EnvScan(s: State, step: Step, w: nat, i: nat)
    requires Enabled(s, step) && !step.OnCpu? && EnvActor(s, step) && Shape(s)
    requires w < |s.p| && i < |s.p| && ScanOk(s, w, i) && KeyOk(s, w) && PathOk(s, w)
    requires ProcOk(s, i) && (s.p[i].on != NONE ==> CpuOk(s, s.p[i].on) && HoldOk(s, s.p[i].on))
    ensures ScanOk(Do(s, step), w, i)
  {
  }

  lemma EnvIntScan(s: State, step: Step, d: nat, i: nat)
    requires Enabled(s, step) && !step.OnCpu? && EnvActor(s, step) && Shape(s)
    requires d < |s.c| && i < |s.p| && IntScanOk(s, d, i) && CpuOk(s, d)
    requires ProcOk(s, i) && (s.p[i].on != NONE ==> CpuOk(s, s.p[i].on) && HoldOk(s, s.p[i].on))
    ensures IntScanOk(Do(s, step), d, i)
  {
  }

  lemma EnvHeld(s: State, step: Step, i: nat, ch: nat)
    requires Enabled(s, step) && !step.OnCpu? && EnvActor(s, step) && Shape(s)
    requires i < |s.p| && HeldOk(s, i, ch) && (ch < |s.sl| ==> OwnOk(s, ch))
    ensures HeldOk(Do(s, step), i, ch) && (ch < |s.sl| ==> OwnOk(Do(s, step), ch))
  {
  }

  lemma EnvDoze(s: State, step: Step, i: nat, ch: nat)
    requires Enabled(s, step) && !step.OnCpu? && EnvActor(s, step) && Shape(s)
    requires i < |s.p| && ch < |s.chans| && DozeOk(s, ch, i) && LkOk(s, s.chans[ch].lock) && KeyOk(s, i) && PathOk(s, i)
    requires ProcOk(s, i) && (s.p[i].on != NONE ==> CpuOk(s, s.p[i].on) && HoldOk(s, s.p[i].on))
    ensures DozeOk(Do(s, step), ch, i)
  {
  }

  lemma EnvSlots(s: State, step: Step)
    requires Enabled(s, step) && !step.OnCpu? && Inv(s)
    ensures SlotInv(Do(s, step))
  {
    var t := Do(s, step);
    FreeIsOff(s, step.i);
    assert ProcOk(s, step.i) && KeyOk(s, step.i) && PathOk(s, step.i);
    forall d: nat | d < |t.c| ensures CpuOk(t, d) {
      assert CpuOk(s, d);
      EnvCpu(s, step, d);
    }
    forall d: nat | d < |t.c| ensures HoldOk(t, d) {
      assert CpuOk(s, d) && HoldOk(s, d);
      EnvHold(s, step, d);
    }
    forall i: nat | i < |t.p| ensures ProcOk(t, i) {
      assert ProcOk(s, i);
      EnvProc(s, step, i);
    }
    forall i: nat | i < |t.p| ensures KeyOk(t, i) {
      assert KeyOk(s, i);
      EnvKey(s, step, i);
    }
    forall i: nat | i < |t.p| ensures PathOk(t, i) {
      assert PathOk(s, i);
      EnvPath(s, step, i);
    }
    forall i: nat | i < |t.p| ensures LockOk(t, i) {
      assert LockOk(s, i) && (s.p[i].lock != NONE ==> CpuOk(s, s.p[i].lock));
      EnvLock(s, step, i);
    }
    forall k: nat | k < |t.l| ensures LkOk(t, k) {
      assert LkOk(s, k);
      EnvLk(s, step, k);
    }
  }

  lemma EnvChans(s: State, step: Step)
    requires Enabled(s, step) && !step.OnCpu? && Inv(s)
    ensures Shape(Do(s, step)) && ChanInv(Do(s, step))
  {
    var t := Do(s, step);
    FreeIsOff(s, step.i);
    assert ProcOk(s, step.i) && KeyOk(s, step.i) && PathOk(s, step.i);
    forall w: nat, i: nat | w < |t.p| && i < |t.p| ensures ScanOk(t, w, i) {
      assert ScanOk(s, w, i) && KeyOk(s, w) && PathOk(s, w) && ProcOk(s, i) && (s.p[i].on != NONE ==> CpuOk(s, s.p[i].on) && HoldOk(s, s.p[i].on));
      EnvScan(s, step, w, i);
    }
    forall d: nat, i: nat | d < |t.c| && i < |t.p| ensures IntScanOk(t, d, i) {
      assert IntScanOk(s, d, i) && CpuOk(s, d) && ProcOk(s, i) && (s.p[i].on != NONE ==> CpuOk(s, s.p[i].on) && HoldOk(s, s.p[i].on));
      EnvIntScan(s, step, d, i);
    }
    forall i: nat, ch: nat | i < |t.p| ensures HeldOk(t, i, ch) {
      assert HeldOk(s, i, ch) && (ch < |s.sl| ==> OwnOk(s, ch));
      EnvHeld(s, step, i, ch);
    }
    forall ch: nat | ch < |t.sl| ensures OwnOk(t, ch) {
      assert HeldOk(s, 0, ch) && OwnOk(s, ch);
      EnvHeld(s, step, 0, ch);
    }
    forall ch: nat, i: nat | ch < |t.chans| && i < |t.p| ensures DozeOk(t, ch, i) {
      assert DozeOk(s, ch, i) && LkOk(s, s.chans[ch].lock) && KeyOk(s, i) && PathOk(s, i);
      assert ProcOk(s, i) && (s.p[i].on != NONE ==> CpuOk(s, s.p[i].on) && HoldOk(s, s.p[i].on));
      EnvDoze(s, step, i, ch);
    }
  }

  // ------------------------------------------------------------------
  // Steps of the scheduler
  // ------------------------------------------------------------------

  lemma SchedProc(s: State, c: nat, act: Act, i: nat)
    requires c < |s.c| && SchedEnabled(s, c, act) && CpuActor(s, c) && Shape(s)
    requires i < |s.p| && ProcOk(s, i)
    ensures ProcOk(DoSched(s, c, act), i)
  {
  }

  lemma SchedKey(s: State, c: nat, act: Act, i: nat)
    requires c < |s.c| && SchedEnabled(s, c, act) && CpuActor(s, c) && Shape(s)
    requires i < |s.p| && KeyOk(s, i)
    ensures KeyOk(DoSched(s, c, act), i)
  {
  }

  lemma SchedPath(s: State, c: nat, act: Act, i: nat)
    requires c < |s.c| && SchedEnabled(s, c, act) && CpuActor(s, c) && Shape(s)
    requires i < |s.p| && PathOk(s, i)
    ensures PathOk(DoSched(s, c, act), i)
  {
  }

  lemma SchedLock(s: State, c: nat, act: Act, i: nat)
    requires c < |s.c| && SchedEnabled(s, c, act) && CpuActor(s, c) && Shape(s)
    requires i < |s.p| && LockOk(s, i) && (s.p[i].lock != NONE ==> CpuOk(s, s.p[i].lock))
    ensures LockOk(DoSched(s, c, act), i)
  {
  }

  lemma SchedCpu(s: State, c: nat, act: Act, d: nat)
    requires c < |s.c| && SchedEnabled(s, c, act) && CpuActor(s, c) && Shape(s)
    requires d < |s.c| && CpuOk(s, d)
    ensures CpuOk(DoSched(s, c, act), d)
  {
  }

  lemma SchedHold(s: State, c: nat, act: Act, d: nat)
    requires c < |s.c| && SchedEnabled(s, c, act) && CpuActor(s, c) && Shape(s)
    requires d < |s.c| && CpuOk(s, d) && HoldOk(s, d)
    ensures HoldOk(DoSched(s, c, act), d)
  {
  }

  lemma SchedLk(s: State, c: nat, act: Act, k: nat)
    requires c < |s.c| && SchedEnabled(s, c, act) && CpuActor(s, c) && Shape(s)
    requires k < |s.l| && LkOk(s, k)
    ensures LkOk(DoSched(s, c, act), k)
  {
  }

  lemma SchedScan(s: State, c: nat, act: Act, w: nat, i: nat)
    requires c < |s.c| && SchedEnabled(s, c, act) && CpuActor(s, c) && Shape(s)
    requires w < |s.p| && i < |s.p| && ScanOk(s, w, i) && KeyOk(s, w) && PathOk(s, w)
    requires ProcOk(s, i) && (s.p[i].on != NONE ==> CpuOk(s, s.p[i].on) && HoldOk(s, s.p[i].on))
    ensures ScanOk(DoSched(s, c, act), w, i)
  {
  }

  lemma SchedIntScan(s: State, c: nat, act: Act, d: nat, i: nat)
    requires c < |s.c| && SchedEnabled(s, c, act) && CpuActor(s, c) && Shape(s)
    requires d < |s.c| && i < |s.p| && IntScanOk(s, d, i) && CpuOk(s, d)
    requires ProcOk(s, i) && (s.p[i].on != NONE ==> CpuOk(s, s.p[i].on) && HoldOk(s, s.p[i].on))
    ensures IntScanOk(DoSched(s, c, act), d, i)
  {
  }

  lemma SchedHeld(s: State, c: nat, act: Act, i: nat, ch: nat)
    requires c < |s.c| && SchedEnabled(s, c, act) && CpuActor(s, c) && Shape(s)
    requires i < |s.p| && HeldOk(s, i, ch) && (ch < |s.sl| ==> OwnOk(s, ch))
    ensures HeldOk(DoSched(s, c, act), i, ch) && (ch < |s.sl| ==> OwnOk(DoSched(s, c, act), ch))
  {
  }

  lemma SchedDoze(s: State, c: nat, act: Act, i: nat, ch: nat)
    requires c < |s.c| && SchedEnabled(s, c, act) && CpuActor(s, c) && Shape(s)
    requires i < |s.p| && ch < |s.chans| && DozeOk(s, ch, i) && LkOk(s, s.chans[ch].lock) && KeyOk(s, i) && PathOk(s, i)
    requires ProcOk(s, i) && (s.p[i].on != NONE ==> CpuOk(s, s.p[i].on) && HoldOk(s, s.p[i].on))
    ensures DozeOk(DoSched(s, c, act), ch, i)
  {
  }

  lemma SchedSlots(s: State, c: nat, act: Act)
    requires c < |s.c| && SchedEnabled(s, c, act) && Inv(s)
    ensures SlotInv(DoSched(s, c, act))
  {
    var t := DoSched(s, c, act);
    assert CpuOk(s, c) && HoldOk(s, c);
    if s.c[c].at.Got? && s.p[s.c[c].at.j].state == Runnable {
      ReadyIsOff(s, c);
    }
    forall d: nat | d < |t.c| ensures CpuOk(t, d) {
      assert CpuOk(s, d);
      SchedCpu(s, c, act, d);
    }
    forall d: nat | d < |t.c| ensures HoldOk(t, d) {
      assert CpuOk(s, d) && HoldOk(s, d);
      SchedHold(s, c, act, d);
    }
    forall i: nat | i < |t.p| ensures ProcOk(t, i) {
      assert ProcOk(s, i);
      SchedProc(s, c, act, i);
    }
    forall i: nat | i < |t.p| ensures KeyOk(t, i) {
      assert KeyOk(s, i);
      SchedKey(s, c, act, i);
    }
    forall i: nat | i < |t.p| ensures PathOk(t, i) {
      assert PathOk(s, i);
      SchedPath(s, c, act, i);
    }
    forall i: nat | i < |t.p| ensures LockOk(t, i) {
      assert LockOk(s, i) && (s.p[i].lock != NONE ==> CpuOk(s, s.p[i].lock));
      SchedLock(s, c, act, i);
    }
    forall k: nat | k < |t.l| ensures LkOk(t, k) {
      assert LkOk(s, k);
      SchedLk(s, c, act, k);
    }
  }

  lemma SchedChans(s: State, c: nat, act: Act)
    requires c < |s.c| && SchedEnabled(s, c, act) && Inv(s)
    ensures Shape(DoSched(s, c, act)) && ChanInv(DoSched(s, c, act))
  {
    var t := DoSched(s, c, act);
    assert CpuOk(s, c) && HoldOk(s, c);
    if s.c[c].at.Got? && s.p[s.c[c].at.j].state == Runnable {
      ReadyIsOff(s, c);
    }
    forall w: nat, i: nat | w < |t.p| && i < |t.p| ensures ScanOk(t, w, i) {
      assert ScanOk(s, w, i) && KeyOk(s, w) && PathOk(s, w) && ProcOk(s, i) && (s.p[i].on != NONE ==> CpuOk(s, s.p[i].on) && HoldOk(s, s.p[i].on));
      SchedScan(s, c, act, w, i);
    }
    forall d: nat, i: nat | d < |t.c| && i < |t.p| ensures IntScanOk(t, d, i) {
      assert IntScanOk(s, d, i) && CpuOk(s, d) && ProcOk(s, i) && (s.p[i].on != NONE ==> CpuOk(s, s.p[i].on) && HoldOk(s, s.p[i].on));
      SchedIntScan(s, c, act, d, i);
    }
    forall i: nat, ch: nat | i < |t.p| ensures HeldOk(t, i, ch) {
      assert HeldOk(s, i, ch) && (ch < |s.sl| ==> OwnOk(s, ch));
      SchedHeld(s, c, act, i, ch);
    }
    forall ch: nat | ch < |t.sl| ensures OwnOk(t, ch) {
      assert HeldOk(s, 0, ch) && OwnOk(s, ch);
      SchedHeld(s, c, act, 0, ch);
    }
    forall ch: nat, i: nat | ch < |t.chans| && i < |t.p| ensures DozeOk(t, ch, i) {
      assert DozeOk(s, ch, i) && LkOk(s, s.chans[ch].lock) && KeyOk(s, i) && PathOk(s, i);
      assert ProcOk(s, i) && (s.p[i].on != NONE ==> CpuOk(s, s.p[i].on) && HoldOk(s, s.p[i].on));
      SchedDoze(s, c, act, i, ch);
    }
  }

  // ------------------------------------------------------------------
  // Steps of an interrupt handler
  // ------------------------------------------------------------------

  lemma IntProc(s: State, c: nat, act: Act, i: nat)
    requires c < |s.c| && IntEnabled(s, c, act) && CpuOk(s, c) && Shape(s)
    requires i < |s.p| && ProcOk(s, i)
    ensures ProcOk(DoInt(s, c, act), i)
  {
  }

  lemma IntKey(s: State, c: nat, act: Act, i: nat)
    requires c < |s.c| && IntEnabled(s, c, act) && CpuOk(s, c) && Shape(s)
    requires i < |s.p| && KeyOk(s, i)
    ensures KeyOk(DoInt(s, c, act), i)
  {
  }

  lemma IntPath(s: State, c: nat, act: Act, i: nat)
    requires c < |s.c| && IntEnabled(s, c, act) && CpuOk(s, c) && Shape(s)
    requires i < |s.p| && PathOk(s, i)
    ensures PathOk(DoInt(s, c, act), i)
  {
  }

  lemma IntLock(s: State, c: nat, act: Act, i: nat)
    requires c < |s.c| && IntEnabled(s, c, act) && CpuOk(s, c) && HoldOk(s, c) && Shape(s)
    requires i < |s.p| && LockOk(s, i) && (s.p[i].lock != NONE ==> CpuOk(s, s.p[i].lock))
    ensures LockOk(DoInt(s, c, act), i)
  {
  }

  lemma IntCpu(s: State, c: nat, act: Act, d: nat)
    requires c < |s.c| && IntEnabled(s, c, act) && CpuOk(s, c) && Shape(s)
    requires d < |s.c| && CpuOk(s, d)
    ensures CpuOk(DoInt(s, c, act), d)
  {
  }

  lemma IntHold(s: State, c: nat, act: Act, d: nat)
    requires c < |s.c| && IntEnabled(s, c, act) && CpuOk(s, c) && HoldOk(s, c) && Shape(s)
    requires d < |s.c| && CpuOk(s, d) && HoldOk(s, d)
    ensures HoldOk(DoInt(s, c, act), d)
  {
  }

  lemma IntLk(s: State, c: nat, act: Act, k: nat)
    requires c < |s.c| && IntEnabled(s, c, act) && CpuOk(s, c) && Shape(s)
    requires k < |s.l| && LkOk(s, k)
    ensures LkOk(DoInt(s, c, act), k)
  {
  }

  lemma IntScan(s: State, c: nat, act: Act, w: nat, i: nat)
    requires c < |s.c| && IntEnabled(s, c, act) && CpuOk(s, c) && HoldOk(s, c) && Shape(s)
    requires w < |s.p| && i < |s.p| && ScanOk(s, w, i) && KeyOk(s, w) && PathOk(s, w)
    requires ProcOk(s, i) && (s.p[i].on != NONE ==> CpuOk(s, s.p[i].on) && HoldOk(s, s.p[i].on))
    ensures ScanOk(DoInt(s, c, act), w, i)
  {
  }

  lemma IntIntScan(s: State, c: nat, act: Act, d: nat, i: nat)
    requires c < |s.c| && IntEnabled(s, c, act) && CpuOk(s, c) && HoldOk(s, c) && Shape(s)
    requires d < |s.c| && i < |s.p| && IntScanOk(s, d, i) && CpuOk(s, d)
    requires ProcOk(s, i) && (s.p[i].on != NONE ==> CpuOk(s, s.p[i].on) && HoldOk(s, s.p[i].on))
    ensures IntScanOk(DoInt(s, c, act), d, i)
  {
  }

  lemma IntHeld(s: State, c: nat, act: Act, i: nat, ch: nat)
    requires c < |s.c| && IntEnabled(s, c, act) && CpuOk(s, c) && Shape(s)
    requires i < |s.p| && HeldOk(s, i, ch) && (ch < |s.sl| ==> OwnOk(s, ch))
    ensures HeldOk(DoInt(s, c, act), i, ch) && (ch < |s.sl| ==> OwnOk(DoInt(s, c, act), ch))
  {
  }

  lemma IntDoze(s: State, c: nat, act: Act, i: nat, ch: nat)
    requires c < |s.c| && IntEnabled(s, c, act) && CpuOk(s, c) && HoldOk(s, c) && Shape(s)
    requires i < |s.p| && ch < |s.chans| && DozeOk(s, ch, i) && LkOk(s, s.chans[ch].lock) && KeyOk(s, i) && PathOk(s, i)
    requires ProcOk(s, i) && (s.p[i].on != NONE ==> CpuOk(s, s.p[i].on) && HoldOk(s, s.p[i].on))
    ensures DozeOk(DoInt(s, c, act), ch, i)
  {
  }

  lemma IntSlots(s: State, c: nat, act: Act)
    requires c < |s.c| && IntEnabled(s, c, act) && Inv(s)
    ensures SlotInv(DoInt(s, c, act))
  {
    var t := DoInt(s, c, act);
    assert CpuOk(s, c) && HoldOk(s, c);
    forall d: nat | d < |t.c| ensures CpuOk(t, d) {
      assert CpuOk(s, d);
      IntCpu(s, c, act, d);
    }
    forall d: nat | d < |t.c| ensures HoldOk(t, d) {
      assert CpuOk(s, d) && HoldOk(s, d);
      IntHold(s, c, act, d);
    }
    forall i: nat | i < |t.p| ensures ProcOk(t, i) {
      assert ProcOk(s, i);
      IntProc(s, c, act, i);
    }
    forall i: nat | i < |t.p| ensures KeyOk(t, i) {
      assert KeyOk(s, i);
      IntKey(s, c, act, i);
    }
    forall i: nat | i < |t.p| ensures PathOk(t, i) {
      assert PathOk(s, i);
      IntPath(s, c, act, i);
    }
    forall i: nat | i < |t.p| ensures LockOk(t, i) {
      assert LockOk(s, i) && (s.p[i].lock != NONE ==> CpuOk(s, s.p[i].lock));
      IntLock(s, c, act, i);
    }
    forall k: nat | k < |t.l| ensures LkOk(t, k) {
      assert LkOk(s, k);
      IntLk(s, c, act, k);
    }
  }

  lemma IntChans(s: State, c: nat, act: Act)
    requires c < |s.c| && IntEnabled(s, c, act) && Inv(s)
    ensures Shape(DoInt(s, c, act)) && ChanInv(DoInt(s, c, act))
  {
    var t := DoInt(s, c, act);
    assert CpuOk(s, c) && HoldOk(s, c);
    forall w: nat, i: nat | w < |t.p| && i < |t.p| ensures ScanOk(t, w, i) {
      assert ScanOk(s, w, i) && KeyOk(s, w) && PathOk(s, w) && ProcOk(s, i) && (s.p[i].on != NONE ==> CpuOk(s, s.p[i].on) && HoldOk(s, s.p[i].on));
      IntScan(s, c, act, w, i);
    }
    forall d: nat, i: nat | d < |t.c| && i < |t.p| ensures IntScanOk(t, d, i) {
      assert IntScanOk(s, d, i) && CpuOk(s, d) && ProcOk(s, i) && (s.p[i].on != NONE ==> CpuOk(s, s.p[i].on) && HoldOk(s, s.p[i].on));
      IntIntScan(s, c, act, d, i);
    }
    forall i: nat, ch: nat | i < |t.p| ensures HeldOk(t, i, ch) {
      assert HeldOk(s, i, ch) && (ch < |s.sl| ==> OwnOk(s, ch));
      IntHeld(s, c, act, i, ch);
    }
    forall ch: nat | ch < |t.sl| ensures OwnOk(t, ch) {
      assert HeldOk(s, 0, ch) && OwnOk(s, ch);
      IntHeld(s, c, act, 0, ch);
    }
    forall ch: nat, i: nat | ch < |t.chans| && i < |t.p| ensures DozeOk(t, ch, i) {
      assert DozeOk(s, ch, i) && LkOk(s, s.chans[ch].lock) && KeyOk(s, i) && PathOk(s, i);
      assert ProcOk(s, i) && (s.p[i].on != NONE ==> CpuOk(s, s.p[i].on) && HoldOk(s, s.p[i].on));
      IntDoze(s, c, act, i, ch);
    }
  }

  // ------------------------------------------------------------------
  // Steps of a process under its own lock
  // ------------------------------------------------------------------

  lemma SelfProc(s: State, c: nat, act: Act, i: nat)
    requires Runs(s, c) && SelfEnabled(s, c, act) && CpuOk(s, c) && ProcOk(s, Cur(s, c)) && PathOk(s, Cur(s, c)) && HoldOk(s, c) && Shape(s)
    requires i < |s.p| && ProcOk(s, i)
    ensures ProcOk(DoSelf(s, c, act), i)
  {
  }

  lemma SelfKey(s: State, c: nat, act: Act, i: nat)
    requires Runs(s, c) && SelfEnabled(s, c, act) && KeyOk(s, Cur(s, c)) && PathOk(s, Cur(s, c)) && Shape(s)
    requires i < |s.p| && KeyOk(s, i)
    ensures KeyOk(DoSelf(s, c, act), i)
  {
  }

  lemma SelfPath(s: State, c: nat, act: Act, i: nat)
    requires Runs(s, c) && SelfEnabled(s, c, act) && PathOk(s, Cur(s, c)) && Shape(s)
    requires i < |s.p| && PathOk(s, i)
    ensures PathOk(DoSelf(s, c, act), i)
  {
  }

  lemma SelfLock(s: State, c: nat, act: Act, i: nat)
    requires Runs(s, c) && SelfEnabled(s, c, act) && CpuOk(s, c) && HoldOk(s, c) && PathOk(s, Cur(s, c)) && Shape(s)
    requires i < |s.p| && LockOk(s, i) && (s.p[i].lock != NONE ==> CpuOk(s, s.p[i].lock))
    ensures LockOk(DoSelf(s, c, act), i)
  {
  }

  lemma SelfCpu(s: State, c: nat, act: Act, d: nat)
    requires Runs(s, c) && SelfEnabled(s, c, act) && CpuOk(s, c) && KeyOk(s, Cur(s, c)) && PathOk(s, Cur(s, c)) && Shape(s)
    requires d < |s.c| && CpuOk(s, d)
    ensures CpuOk(DoSelf(s, c, act), d)
  {
  }

  lemma SelfHold(s: State, c: nat, act: Act, d: nat)
    requires Runs(s, c) && SelfEnabled(s, c, act) && CpuOk(s, c) && HoldOk(s, c) && PathOk(s, Cur(s, c)) && Shape(s)
    requires d < |s.c| && CpuOk(s, d) && HoldOk(s, d)
    ensures HoldOk(DoSelf(s, c, act), d)
  {
    assert d != c ==> ProcOn(s.c[d].at) != Cur(s, c);
  }

  lemma SelfLk(s: State, c: nat, act: Act, k: nat)
    requires Runs(s, c) && SelfEnabled(s, c, act) && KeyOk(s, Cur(s, c)) && PathOk(s, Cur(s, c)) && Shape(s)
    requires k < |s.l| && LkOk(s, k)
    ensures LkOk(DoSelf(s, c, act), k)
  {
  }

  lemma SelfScan(s: State, c: nat, act: Act, w: nat, i: nat)
    requires Runs(s, c) && SelfEnabled(s, c, act) && ProcActor(s, c) && Shape(s)
    requires w < |s.p| && i < |s.p| && ScanOk(s, w, i) && KeyOk(s, w) && PathOk(s, w)
    requires ProcOk(s, i) && (s.p[i].on != NONE ==> CpuOk(s, s.p[i].on) && HoldOk(s, s.p[i].on))
    ensures ScanOk(DoSelf(s, c, act), w, i)
  {
  }

  lemma SelfIntScan(s: State, c: nat, act: Act, d: nat, i: nat)
    requires Runs(s, c) && SelfEnabled(s, c, act) && ProcActor(s, c) && Shape(s)
    requires d < |s.c| && i < |s.p| && IntScanOk(s, d, i) && CpuOk(s, d)
    requires ProcOk(s, i) && (s.p[i].on != NONE ==> CpuOk(s, s.p[i].on) && HoldOk(s, s.p[i].on))
    ensures IntScanOk(DoSelf(s, c, act), d, i)
  {
  }

  lemma SelfHeld(s: State, c: nat, act: Act, i: nat, ch: nat)
    requires Runs(s, c) && SelfEnabled(s, c, act) && PathOk(s, Cur(s, c)) && Shape(s)
    requires i < |s.p| && HeldOk(s, i, ch) && (ch < |s.sl| ==> OwnOk(s, ch)) && HeldOk(s, Cur(s, c), ch)
    ensures HeldOk(DoSelf(s, c, act), i, ch) && (ch < |s.sl| ==> OwnOk(DoSelf(s, c, act), ch))
  {
  }

  lemma SelfDoze(s: State, c: nat, act: Act, i: nat, ch: nat)
    requires Runs(s, c) && SelfEnabled(s, c, act) && ProcActor(s, c) && Shape(s)
    requires i < |s.p| && ch < |s.chans| && DozeOk(s, ch, i) && LkOk(s, s.chans[ch].lock) && KeyOk(s, i) && PathOk(s, i)
    requires ProcOk(s, i) && (s.p[i].on != NONE ==> CpuOk(s, s.p[i].on) && HoldOk(s, s.p[i].on))
    ensures DozeOk(DoSelf(s, c, act), ch, i)
  {
    if i == Cur(s, c) {
      SelfDozeHere(s, c, act, ch);
    } else {
      SelfDozeElse(s, c, act, i, ch);
    }
  }

  lemma SelfDozeHere(s: State, c: nat, act: Act, ch: nat)
    requires Runs(s, c) && SelfEnabled(s, c, act) && ProcActor(s, c) && Shape(s)
    requires ch < |s.chans| && DozeOk(s, ch, Cur(s, c)) && LkOk(s, s.chans[ch].lock)
    ensures DozeOk(DoSelf(s, c, act), ch, Cur(s, c))
  {
  }

  lemma SelfDozeElse(s: State, c: nat, act: Act, i: nat, ch: nat)
    requires Runs(s, c) && SelfEnabled(s, c, act) && ProcActor(s, c) && Shape(s)
    requires i < |s.p| && ch < |s.chans| && DozeOk(s, ch, i) && LkOk(s, s.chans[ch].lock) && KeyOk(s, i) && PathOk(s, i)
    requires ProcOk(s, i) && (s.p[i].on != NONE ==> CpuOk(s, s.p[i].on) && HoldOk(s, s.p[i].on)) && i != Cur(s, c)
    ensures DozeOk(DoSelf(s, c, act), ch, i)
  {
  }

  lemma SelfSlots(s: State, c: nat, act: Act)
    requires Runs(s, c) && SelfEnabled(s, c, act) && Inv(s)
    ensures SlotInv(DoSelf(s, c, act))
  {
    var t := DoSelf(s, c, act);
    assert CpuOk(s, c) && HoldOk(s, c) && ProcOk(s, Cur(s, c)) && KeyOk(s, Cur(s, c)) && PathOk(s, Cur(s, c));
    forall d: nat | d < |t.c| ensures CpuOk(t, d) {
      assert CpuOk(s, d);
      SelfCpu(s, c, act, d);
    }
    forall d: nat | d < |t.c| ensures HoldOk(t, d) {
      assert CpuOk(s, d) && HoldOk(s, d);
      SelfHold(s, c, act, d);
    }
    forall i: nat | i < |t.p| ensures ProcOk(t, i) {
      assert ProcOk(s, i);
      SelfProc(s, c, act, i);
    }
    forall i: nat | i < |t.p| ensures KeyOk(t, i) {
      assert KeyOk(s, i);
      SelfKey(s, c, act, i);
    }
    forall i: nat | i < |t.p| ensures PathOk(t, i) {
      assert PathOk(s, i);
      SelfPath(s, c, act, i);
    }
    forall i: nat | i < |t.p| ensures LockOk(t, i) {
      assert LockOk(s, i) && (s.p[i].lock != NONE ==> CpuOk(s, s.p[i].lock));
      SelfLock(s, c, act, i);
    }
    forall k: nat | k < |t.l| ensures LkOk(t, k) {
      assert LkOk(s, k);
      SelfLk(s, c, act, k);
    }
  }

  lemma SelfChans(s: State, c: nat, act: Act)
    requires Runs(s, c) && SelfEnabled(s, c, act) && Inv(s)
    ensures Shape(DoSelf(s, c, act)) && ChanInv(DoSelf(s, c, act))
  {
    var t := DoSelf(s, c, act);
    assert CpuOk(s, c) && HoldOk(s, c) && ProcOk(s, Cur(s, c)) && KeyOk(s, Cur(s, c)) && PathOk(s, Cur(s, c));
    forall w: nat, i: nat | w < |t.p| && i < |t.p| ensures ScanOk(t, w, i) {
      assert ScanOk(s, w, i) && KeyOk(s, w) && PathOk(s, w) && ProcOk(s, i) && (s.p[i].on != NONE ==> CpuOk(s, s.p[i].on) && HoldOk(s, s.p[i].on));
      SelfScan(s, c, act, w, i);
    }
    forall d: nat, i: nat | d < |t.c| && i < |t.p| ensures IntScanOk(t, d, i) {
      assert IntScanOk(s, d, i) && CpuOk(s, d) && ProcOk(s, i) && (s.p[i].on != NONE ==> CpuOk(s, s.p[i].on) && HoldOk(s, s.p[i].on));
      SelfIntScan(s, c, act, d, i);
    }
    forall i: nat, ch: nat | i < |t.p| ensures HeldOk(t, i, ch) {
      assert HeldOk(s, i, ch) && (ch < |s.sl| ==> OwnOk(s, ch)) && HeldOk(s, Cur(s, c), ch);
      SelfHeld(s, c, act, i, ch);
    }
    forall ch: nat | ch < |t.sl| ensures OwnOk(t, ch) {
      assert HeldOk(s, 0, ch) && OwnOk(s, ch) && HeldOk(s, Cur(s, c), ch);
      SelfHeld(s, c, act, 0, ch);
    }
    forall ch: nat, i: nat | ch < |t.chans| && i < |t.p| ensures DozeOk(t, ch, i) {
      assert DozeOk(s, ch, i) && LkOk(s, s.chans[ch].lock) && KeyOk(s, i) && PathOk(s, i);
      assert ProcOk(s, i) && (s.p[i].on != NONE ==> CpuOk(s, s.p[i].on) && HoldOk(s, s.p[i].on));
      SelfDoze(s, c, act, i, ch);
    }
  }

  // ------------------------------------------------------------------
  // Steps of a process that take or release another lock
  // ------------------------------------------------------------------

  lemma SpinProc(s: State, c: nat, act: Act, i: nat)
    requires Runs(s, c) && SpinEnabled(s, c, act) && CpuOk(s, c) && ProcOk(s, Cur(s, c)) && PathOk(s, Cur(s, c)) && HoldOk(s, c) && Shape(s)
    requires i < |s.p| && ProcOk(s, i)
    ensures ProcOk(DoSpin(s, c, act), i)
  {
  }

  lemma SpinKey(s: State, c: nat, act: Act, i: nat)
    requires Runs(s, c) && SpinEnabled(s, c, act) && KeyOk(s, Cur(s, c)) && PathOk(s, Cur(s, c)) && Shape(s)
    requires i < |s.p| && KeyOk(s, i)
    ensures KeyOk(DoSpin(s, c, act), i)
  {
  }

  lemma SpinPath(s: State, c: nat, act: Act, i: nat)
    requires Runs(s, c) && SpinEnabled(s, c, act) && PathOk(s, Cur(s, c)) && Shape(s)
    requires i < |s.p| && PathOk(s, i)
    ensures PathOk(DoSpin(s, c, act), i)
  {
  }

  lemma SpinLock(s: State, c: nat, act: Act, i: nat)
    requires Runs(s, c) && SpinEnabled(s, c, act) && CpuOk(s, c) && HoldOk(s, c) && PathOk(s, Cur(s, c)) && Shape(s)
    requires i < |s.p| && LockOk(s, i) && (s.p[i].lock != NONE ==> CpuOk(s, s.p[i].lock))
    ensures LockOk(DoSpin(s, c, act), i)
  {
  }

  lemma SpinCpu(s: State, c: nat, act: Act, d: nat)
    requires Runs(s, c) && SpinEnabled(s, c, act) && CpuOk(s, c) && KeyOk(s, Cur(s, c)) && PathOk(s, Cur(s, c)) && Shape(s)
    requires d < |s.c| && CpuOk(s, d)
    ensures CpuOk(DoSpin(s, c, act), d)
  {
  }

  lemma SpinHold(s: State, c: nat, act: Act, d: nat)
    requires Runs(s, c) && SpinEnabled(s, c, act) && CpuOk(s, c) && HoldOk(s, c) && PathOk(s, Cur(s, c)) && Shape(s)
    requires d < |s.c| && CpuOk(s, d) && HoldOk(s, d)
    ensures HoldOk(DoSpin(s, c, act), d)
  {
    if d == c {
      SpinHoldHere(s, c, act);
    } else {
      SpinHoldElse(s, c, act, d);
    }
  }

  lemma SpinHoldHere(s: State, c: nat, act: Act)
    requires Runs(s, c) && SpinEnabled(s, c, act) && CpuOk(s, c) && HoldOk(s, c) && PathOk(s, Cur(s, c)) && Shape(s)
    ensures HoldOk(DoSpin(s, c, act), c)
  {
  }

  lemma SpinHoldElse(s: State, c: nat, act: Act, d: nat)
    requires Runs(s, c) && SpinEnabled(s, c, act) && CpuOk(s, c) && HoldOk(s, c) && PathOk(s, Cur(s, c)) && Shape(s)
    requires d < |s.c| && d != c && CpuOk(s, d) && HoldOk(s, d)
    ensures HoldOk(DoSpin(s, c, act), d)
  {
    assert ProcOn(s.c[d].at) != Cur(s, c);
  }

  lemma SpinLk(s: State, c: nat, act: Act, k: nat)
    requires Runs(s, c) && SpinEnabled(s, c, act) && KeyOk(s, Cur(s, c)) && PathOk(s, Cur(s, c)) && Shape(s)
    requires k < |s.l| && LkOk(s, k)
    ensures LkOk(DoSpin(s, c, act), k)
  {
  }

  lemma SpinScan(s: State, c: nat, act: Act, w: nat, i: nat)
    requires Runs(s, c) && SpinEnabled(s, c, act) && ProcActor(s, c) && Shape(s)
    requires w < |s.p| && i < |s.p| && ScanOk(s, w, i) && KeyOk(s, w) && PathOk(s, w)
    requires ProcOk(s, i) && (s.p[i].on != NONE ==> CpuOk(s, s.p[i].on) && HoldOk(s, s.p[i].on))
    ensures ScanOk(DoSpin(s, c, act), w, i)
  {
  }

  lemma SpinIntScan(s: State, c: nat, act: Act, d: nat, i: nat)
    requires Runs(s, c) && SpinEnabled(s, c, act) && ProcActor(s, c) && Shape(s)
    requires d < |s.c| && i < |s.p| && IntScanOk(s, d, i) && CpuOk(s, d)
    requires ProcOk(s, i) && (s.p[i].on != NONE ==> CpuOk(s, s.p[i].on) && HoldOk(s, s.p[i].on))
    ensures IntScanOk(DoSpin(s, c, act), d, i)
  {
  }

  lemma SpinHeld(s: State, c: nat, act: Act, i: nat, ch: nat)
    requires Runs(s, c) && SpinEnabled(s, c, act) && PathOk(s, Cur(s, c)) && Shape(s)
    requires i < |s.p| && HeldOk(s, i, ch) && (ch < |s.sl| ==> OwnOk(s, ch)) && HeldOk(s, Cur(s, c), ch)
    ensures HeldOk(DoSpin(s, c, act), i, ch) && (ch < |s.sl| ==> OwnOk(DoSpin(s, c, act), ch))
  {
  }

  lemma SpinDoze(s: State, c: nat, act: Act, i: nat, ch: nat)
    requires Runs(s, c) && SpinEnabled(s, c, act) && ProcActor(s, c) && Shape(s)
    requires i < |s.p| && ch < |s.chans| && DozeOk(s, ch, i) && LkOk(s, s.chans[ch].lock) && KeyOk(s, i) && PathOk(s, i)
    requires ProcOk(s, i) && (s.p[i].on != NONE ==> CpuOk(s, s.p[i].on) && HoldOk(s, s.p[i].on))
    ensures DozeOk(DoSpin(s, c, act), ch, i)
  {
    if i == Cur(s, c) {
      SpinDozeHere(s, c, act, ch);
    } else {
      SpinDozeElse(s, c, act, i, ch);
    }
  }

  lemma SpinDozeHere(s: State, c: nat, act: Act, ch: nat)
    requires Runs(s, c) && SpinEnabled(s, c, act) && ProcActor(s, c) && Shape(s)
    requires ch < |s.chans| && DozeOk(s, ch, Cur(s, c)) && LkOk(s, s.chans[ch].lock)
    ensures DozeOk(DoSpin(s, c, act), ch, Cur(s, c))
  {
  }

  lemma SpinDozeElse(s: State, c: nat, act: Act, i: nat, ch: nat)
    requires Runs(s, c) && SpinEnabled(s, c, act) && ProcActor(s, c) && Shape(s)
    requires i < |s.p| && ch < |s.chans| && DozeOk(s, ch, i) && LkOk(s, s.chans[ch].lock) && KeyOk(s, i) && PathOk(s, i)
    requires ProcOk(s, i) && (s.p[i].on != NONE ==> CpuOk(s, s.p[i].on) && HoldOk(s, s.p[i].on)) && i != Cur(s, c)
    ensures DozeOk(DoSpin(s, c, act), ch, i)
  {
  }

  lemma SpinSlots(s: State, c: nat, act: Act)
    requires Runs(s, c) && SpinEnabled(s, c, act) && Inv(s)
    ensures SlotInv(DoSpin(s, c, act))
  {
    var t := DoSpin(s, c, act);
    assert CpuOk(s, c) && HoldOk(s, c) && ProcOk(s, Cur(s, c)) && KeyOk(s, Cur(s, c)) && PathOk(s, Cur(s, c));
    forall d: nat | d < |t.c| ensures CpuOk(t, d) {
      assert CpuOk(s, d);
      SpinCpu(s, c, act, d);
    }
    forall d: nat | d < |t.c| ensures HoldOk(t, d) {
      assert CpuOk(s, d) && HoldOk(s, d);
      SpinHold(s, c, act, d);
    }
    forall i: nat | i < |t.p| ensures ProcOk(t, i) {
      assert ProcOk(s, i);
      SpinProc(s, c, act, i);
    }
    forall i: nat | i < |t.p| ensures KeyOk(t, i) {
      assert KeyOk(s, i);
      SpinKey(s, c, act, i);
    }
    forall i: nat | i < |t.p| ensures PathOk(t, i) {
      assert PathOk(s, i);
      SpinPath(s, c, act, i);
    }
    forall i: nat | i < |t.p| ensures LockOk(t, i) {
      assert LockOk(s, i) && (s.p[i].lock != NONE ==> CpuOk(s, s.p[i].lock));
      SpinLock(s, c, act, i);
    }
    forall k: nat | k < |t.l| ensures LkOk(t, k) {
      assert LkOk(s, k);
      SpinLk(s, c, act, k);
    }
  }

  lemma SpinChans(s: State, c: nat, act: Act)
    requires Runs(s, c) && SpinEnabled(s, c, act) && Inv(s)
    ensures Shape(DoSpin(s, c, act)) && ChanInv(DoSpin(s, c, act))
  {
    var t := DoSpin(s, c, act);
    assert CpuOk(s, c) && HoldOk(s, c) && ProcOk(s, Cur(s, c)) && KeyOk(s, Cur(s, c)) && PathOk(s, Cur(s, c));
    forall w: nat, i: nat | w < |t.p| && i < |t.p| ensures ScanOk(t, w, i) {
      assert ScanOk(s, w, i) && KeyOk(s, w) && PathOk(s, w) && ProcOk(s, i) && (s.p[i].on != NONE ==> CpuOk(s, s.p[i].on) && HoldOk(s, s.p[i].on));
      SpinScan(s, c, act, w, i);
    }
    forall d: nat, i: nat | d < |t.c| && i < |t.p| ensures IntScanOk(t, d, i) {
      assert IntScanOk(s, d, i) && CpuOk(s, d) && ProcOk(s, i) && (s.p[i].on != NONE ==> CpuOk(s, s.p[i].on) && HoldOk(s, s.p[i].on));
      SpinIntScan(s, c, act, d, i);
    }
    forall i: nat, ch: nat | i < |t.p| ensures HeldOk(t, i, ch) {
      assert HeldOk(s, i, ch) && (ch < |s.sl| ==> OwnOk(s, ch)) && HeldOk(s, Cur(s, c), ch);
      SpinHeld(s, c, act, i, ch);
    }
    forall ch: nat | ch < |t.sl| ensures OwnOk(t, ch) {
      assert HeldOk(s, 0, ch) && OwnOk(s, ch) && HeldOk(s, Cur(s, c), ch);
      SpinHeld(s, c, act, 0, ch);
    }
    forall ch: nat, i: nat | ch < |t.chans| && i < |t.p| ensures DozeOk(t, ch, i) {
      assert DozeOk(s, ch, i) && LkOk(s, s.chans[ch].lock) && KeyOk(s, i) && PathOk(s, i);
      assert ProcOk(s, i) && (s.p[i].on != NONE ==> CpuOk(s, s.p[i].on) && HoldOk(s, s.p[i].on));
      SpinDoze(s, c, act, i, ch);
    }
  }

  // ------------------------------------------------------------------
  // Steps of a process in wakeup
  // ------------------------------------------------------------------

  lemma WakeProc(s: State, c: nat, act: Act, i: nat)
    requires Runs(s, c) && WakeEnabled(s, c, act) && CpuOk(s, c) && ProcOk(s, Cur(s, c)) && PathOk(s, Cur(s, c)) && HoldOk(s, c) && Shape(s)
    requires i < |s.p| && ProcOk(s, i)
    ensures ProcOk(DoWake(s, c, act), i)
  {
  }

  lemma WakeKey(s: State, c: nat, act: Act, i: nat)
    requires Runs(s, c) && WakeEnabled(s, c, act) && KeyOk(s, Cur(s, c)) && PathOk(s, Cur(s, c)) && Shape(s)
    requires i < |s.p| && KeyOk(s, i)
    ensures KeyOk(DoWake(s, c, act), i)
  {
  }

  lemma WakePath(s: State, c: nat, act: Act, i: nat)
    requires Runs(s, c) && WakeEnabled(s, c, act) && PathOk(s, Cur(s, c)) && Shape(s)
    requires i < |s.p| && PathOk(s, i)
    ensures PathOk(DoWake(s, c, act), i)
  {
  }

  lemma WakeLock(s: State, c: nat, act: Act, i: nat)
    requires Runs(s, c) && WakeEnabled(s, c, act) && CpuOk(s, c) && HoldOk(s, c) && PathOk(s, Cur(s, c)) && Shape(s)
    requires i < |s.p| && LockOk(s, i) && (s.p[i].lock != NONE ==> CpuOk(s, s.p[i].lock))
    ensures LockOk(DoWake(s, c, act), i)
  {
  }

  lemma WakeCpu(s: State, c: nat, act: Act, d: nat)
    requires Runs(s, c) && WakeEnabled(s, c, act) && CpuOk(s, c) && KeyOk(s, Cur(s, c)) && PathOk(s, Cur(s, c)) && Shape(s)
    requires d < |s.c| && CpuOk(s, d)
    ensures CpuOk(DoWake(s, c, act), d)
  {
  }

  lemma WakeHold(s: State, c: nat, act: Act, d: nat)
    requires Runs(s, c) && WakeEnabled(s, c, act) && CpuOk(s, c) && HoldOk(s, c) && PathOk(s, Cur(s, c)) && Shape(s)
    requires d < |s.c| && CpuOk(s, d) && HoldOk(s, d)
    ensures HoldOk(DoWake(s, c, act), d)
  {
    if d == c {
      WakeHoldHere(s, c, act);
    } else {
      WakeHoldElse(s, c, act, d);
    }
  }

  lemma WakeHoldHere(s: State, c: nat, act: Act)
    requires Runs(s, c) && WakeEnabled(s, c, act) && CpuOk(s, c) && HoldOk(s, c) && PathOk(s, Cur(s, c)) && Shape(s)
    ensures HoldOk(DoWake(s, c, act), c)
  {
  }

  lemma WakeHoldElse(s: State, c: nat, act: Act, d: nat)
    requires Runs(s, c) && WakeEnabled(s, c, act) && CpuOk(s, c) && HoldOk(s, c) && PathOk(s, Cur(s, c)) && Shape(s)
    requires d < |s.c| && d != c && CpuOk(s, d) && HoldOk(s, d)
    ensures HoldOk(DoWake(s, c, act), d)
  {
    assert ProcOn(s.c[d].at) != Cur(s, c);
  }

  lemma WakeLk(s: State, c: nat, act: Act, k: nat)
    requires Runs(s, c) && WakeEnabled(s, c, act) && KeyOk(s, Cur(s, c)) && PathOk(s, Cur(s, c)) && Shape(s)
    requires k < |s.l| && LkOk(s, k)
    ensures LkOk(DoWake(s, c, act), k)
  {
  }

  lemma WakeScan(s: State, c: nat, act: Act, w: nat, i: nat)
    requires Runs(s, c) && WakeEnabled(s, c, act) && ProcActor(s, c) && Shape(s)
    requires w < |s.p| && i < |s.p| && ScanOk(s, w, i) && KeyOk(s, w) && PathOk(s, w)
    requires ProcOk(s, i) && (s.p[i].on != NONE ==> CpuOk(s, s.p[i].on) && HoldOk(s, s.p[i].on))
    ensures ScanOk(DoWake(s, c, act), w, i)
  {
  }

  lemma WakeIntScan(s: State, c: nat, act: Act, d: nat, i: nat)
    requires Runs(s, c) && WakeEnabled(s, c, act) && ProcActor(s, c) && Shape(s)
    requires d < |s.c| && i < |s.p| && IntScanOk(s, d, i) && CpuOk(s, d)
    requires ProcOk(s, i) && (s.p[i].on != NONE ==> CpuOk(s, s.p[i].on) && HoldOk(s, s.p[i].on))
    ensures IntScanOk(DoWake(s, c, act), d, i)
  {
  }

  lemma WakeHeld(s: State, c: nat, act: Act, i: nat, ch: nat)
    requires Runs(s, c) && WakeEnabled(s, c, act) && PathOk(s, Cur(s, c)) && Shape(s)
    requires i < |s.p| && HeldOk(s, i, ch) && (ch < |s.sl| ==> OwnOk(s, ch)) && HeldOk(s, Cur(s, c), ch)
    ensures HeldOk(DoWake(s, c, act), i, ch) && (ch < |s.sl| ==> OwnOk(DoWake(s, c, act), ch))
  {
  }

  lemma WakeDoze(s: State, c: nat, act: Act, i: nat, ch: nat)
    requires Runs(s, c) && WakeEnabled(s, c, act) && ProcActor(s, c) && Shape(s)
    requires i < |s.p| && ch < |s.chans| && DozeOk(s, ch, i) && LkOk(s, s.chans[ch].lock) && KeyOk(s, i) && PathOk(s, i)
    requires ProcOk(s, i) && (s.p[i].on != NONE ==> CpuOk(s, s.p[i].on) && HoldOk(s, s.p[i].on))
    ensures DozeOk(DoWake(s, c, act), ch, i)
  {
    if i == Cur(s, c) {
      WakeDozeHere(s, c, act, ch);
    } else {
      WakeDozeElse(s, c, act, i, ch);
    }
  }

  lemma WakeDozeHere(s: State, c: nat, act: Act, ch: nat)
    requires Runs(s, c) && WakeEnabled(s, c, act) && ProcActor(s, c) && Shape(s)
    requires ch < |s.chans| && DozeOk(s, ch, Cur(s, c)) && LkOk(s, s.chans[ch].lock)
    ensures DozeOk(DoWake(s, c, act), ch, Cur(s, c))
  {
  }

  lemma WakeDozeElse(s: State, c: nat, act: Act, i: nat, ch: nat)
    requires Runs(s, c) && WakeEnabled(s, c, act) && ProcActor(s, c) && Shape(s)
    requires i < |s.p| && ch < |s.chans| && DozeOk(s, ch, i) && LkOk(s, s.chans[ch].lock) && KeyOk(s, i) && PathOk(s, i)
    requires ProcOk(s, i) && (s.p[i].on != NONE ==> CpuOk(s, s.p[i].on) && HoldOk(s, s.p[i].on)) && i != Cur(s, c)
    ensures DozeOk(DoWake(s, c, act), ch, i)
  {
  }

  lemma WakeSlots(s: State, c: nat, act: Act)
    requires Runs(s, c) && WakeEnabled(s, c, act) && Inv(s)
    ensures SlotInv(DoWake(s, c, act))
  {
    var t := DoWake(s, c, act);
    assert CpuOk(s, c) && HoldOk(s, c) && ProcOk(s, Cur(s, c)) && KeyOk(s, Cur(s, c)) && PathOk(s, Cur(s, c));
    forall d: nat | d < |t.c| ensures CpuOk(t, d) {
      assert CpuOk(s, d);
      WakeCpu(s, c, act, d);
    }
    forall d: nat | d < |t.c| ensures HoldOk(t, d) {
      assert CpuOk(s, d) && HoldOk(s, d);
      WakeHold(s, c, act, d);
    }
    forall i: nat | i < |t.p| ensures ProcOk(t, i) {
      assert ProcOk(s, i);
      WakeProc(s, c, act, i);
    }
    forall i: nat | i < |t.p| ensures KeyOk(t, i) {
      assert KeyOk(s, i);
      WakeKey(s, c, act, i);
    }
    forall i: nat | i < |t.p| ensures PathOk(t, i) {
      assert PathOk(s, i);
      WakePath(s, c, act, i);
    }
    forall i: nat | i < |t.p| ensures LockOk(t, i) {
      assert LockOk(s, i) && (s.p[i].lock != NONE ==> CpuOk(s, s.p[i].lock));
      WakeLock(s, c, act, i);
    }
    forall k: nat | k < |t.l| ensures LkOk(t, k) {
      assert LkOk(s, k);
      WakeLk(s, c, act, k);
    }
  }

  lemma WakeChans(s: State, c: nat, act: Act)
    requires Runs(s, c) && WakeEnabled(s, c, act) && Inv(s)
    ensures Shape(DoWake(s, c, act)) && ChanInv(DoWake(s, c, act))
  {
    var t := DoWake(s, c, act);
    assert CpuOk(s, c) && HoldOk(s, c) && ProcOk(s, Cur(s, c)) && KeyOk(s, Cur(s, c)) && PathOk(s, Cur(s, c));
    forall w: nat, i: nat | w < |t.p| && i < |t.p| ensures ScanOk(t, w, i) {
      assert ScanOk(s, w, i) && KeyOk(s, w) && PathOk(s, w) && ProcOk(s, i) && (s.p[i].on != NONE ==> CpuOk(s, s.p[i].on) && HoldOk(s, s.p[i].on));
      WakeScan(s, c, act, w, i);
    }
    forall d: nat, i: nat | d < |t.c| && i < |t.p| ensures IntScanOk(t, d, i) {
      assert IntScanOk(s, d, i) && CpuOk(s, d) && ProcOk(s, i) && (s.p[i].on != NONE ==> CpuOk(s, s.p[i].on) && HoldOk(s, s.p[i].on));
      WakeIntScan(s, c, act, d, i);
    }
    forall i: nat, ch: nat | i < |t.p| ensures HeldOk(t, i, ch) {
      assert HeldOk(s, i, ch) && (ch < |s.sl| ==> OwnOk(s, ch)) && HeldOk(s, Cur(s, c), ch);
      WakeHeld(s, c, act, i, ch);
    }
    forall ch: nat | ch < |t.sl| ensures OwnOk(t, ch) {
      assert HeldOk(s, 0, ch) && OwnOk(s, ch) && HeldOk(s, Cur(s, c), ch);
      WakeHeld(s, c, act, 0, ch);
    }
    forall ch: nat, i: nat | ch < |t.chans| && i < |t.p| ensures DozeOk(t, ch, i) {
      assert DozeOk(s, ch, i) && LkOk(s, s.chans[ch].lock) && KeyOk(s, i) && PathOk(s, i);
      assert ProcOk(s, i) && (s.p[i].on != NONE ==> CpuOk(s, s.p[i].on) && HoldOk(s, s.p[i].on));
      WakeDoze(s, c, act, i, ch);
    }
  }

  // ------------------------------------------------------------------
  // Other steps of a process
  // ------------------------------------------------------------------

  lemma PlainProc(s: State, c: nat, act: Act, i: nat)
    requires Runs(s, c) && PlainEnabled(s, c, act) && CpuOk(s, c) && ProcOk(s, Cur(s, c)) && PathOk(s, Cur(s, c)) && HoldOk(s, c) && Shape(s)
    requires i < |s.p| && ProcOk(s, i)
    ensures ProcOk(DoPlain(s, c, act), i)
  {
  }

  lemma PlainKey(s: State, c: nat, act: Act, i: nat)
    requires Runs(s, c) && PlainEnabled(s, c, act) && KeyOk(s, Cur(s, c)) && PathOk(s, Cur(s, c)) && Shape(s)
    requires i < |s.p| && KeyOk(s, i)
    ensures KeyOk(DoPlain(s, c, act), i)
  {
  }

  lemma PlainPath(s: State, c: nat, act: Act, i: nat)
    requires Runs(s, c) && PlainEnabled(s, c, act) && PathOk(s, Cur(s, c)) && Shape(s)
    requires i < |s.p| && PathOk(s, i)
    ensures PathOk(DoPlain(s, c, act), i)
  {
  }

  lemma PlainLock(s: State, c: nat, act: Act, i: nat)
    requires Runs(s, c) && PlainEnabled(s, c, act) && CpuOk(s, c) && HoldOk(s, c) && PathOk(s, Cur(s, c)) && Shape(s)
    requires i < |s.p| && LockOk(s, i) && (s.p[i].lock != NONE ==> CpuOk(s, s.p[i].lock))
    ensures LockOk(DoPlain(s, c, act), i)
  {
  }

  lemma PlainCpu(s: State, c: nat, act: Act, d: nat)
    requires Runs(s, c) && PlainEnabled(s, c, act) && CpuOk(s, c) && KeyOk(s, Cur(s, c)) && PathOk(s, Cur(s, c)) && Shape(s)
    requires d < |s.c| && CpuOk(s, d)
    ensures CpuOk(DoPlain(s, c, act), d)
  {
  }

  lemma PlainHold(s: State, c: nat, act: Act, d: nat)
    requires Runs(s, c) && PlainEnabled(s, c, act) && CpuOk(s, c) && HoldOk(s, c) && PathOk(s, Cur(s, c)) && Shape(s)
    requires d < |s.c| && CpuOk(s, d) && HoldOk(s, d)
    ensures HoldOk(DoPlain(s, c, act), d)
  {
    if d == c {
      PlainHoldHere(s, c, act);
    } else {
      PlainHoldElse(s, c, act, d);
    }
  }

  lemma PlainHoldHere(s: State, c: nat, act: Act)
    requires Runs(s, c) && PlainEnabled(s, c, act) && CpuOk(s, c) && HoldOk(s, c) && PathOk(s, Cur(s, c)) && Shape(s)
    ensures HoldOk(DoPlain(s, c, act), c)
  {
  }

  lemma PlainHoldElse(s: State, c: nat, act: Act, d: nat)
    requires Runs(s, c) && PlainEnabled(s, c, act) && CpuOk(s, c) && HoldOk(s, c) && PathOk(s, Cur(s, c)) && Shape(s)
    requires d < |s.c| && d != c && CpuOk(s, d) && HoldOk(s, d)
    ensures HoldOk(DoPlain(s, c, act), d)
  {
    assert ProcOn(s.c[d].at) != Cur(s, c);
  }

  lemma PlainLk(s: State, c: nat, act: Act, k: nat)
    requires Runs(s, c) && PlainEnabled(s, c, act) && KeyOk(s, Cur(s, c)) && PathOk(s, Cur(s, c)) && Shape(s)
    requires k < |s.l| && LkOk(s, k)
    ensures LkOk(DoPlain(s, c, act), k)
  {
  }

  lemma PlainScan(s: State, c: nat, act: Act, w: nat, i: nat)
    requires Runs(s, c) && PlainEnabled(s, c, act) && ProcActor(s, c) && Shape(s)
    requires w < |s.p| && i < |s.p| && ScanOk(s, w, i) && KeyOk(s, w) && PathOk(s, w)
    requires ProcOk(s, i) && (s.p[i].on != NONE ==> CpuOk(s, s.p[i].on) && HoldOk(s, s.p[i].on))
    ensures ScanOk(DoPlain(s, c, act), w, i)
  {
  }

  lemma PlainIntScan(s: State, c: nat, act: Act, d: nat, i: nat)
    requires Runs(s, c) && PlainEnabled(s, c, act) && ProcActor(s, c) && Shape(s)
    requires d < |s.c| && i < |s.p| && IntScanOk(s, d, i) && CpuOk(s, d)
    requires ProcOk(s, i) && (s.p[i].on != NONE ==> CpuOk(s, s.p[i].on) && HoldOk(s, s.p[i].on))
    ensures IntScanOk(DoPlain(s, c, act), d, i)
  {
  }

  lemma PlainHeld(s: State, c: nat, act: Act, i: nat, ch: nat)
    requires Runs(s, c) && PlainEnabled(s, c, act) && PathOk(s, Cur(s, c)) && Shape(s)
    requires i < |s.p| && HeldOk(s, i, ch) && (ch < |s.sl| ==> OwnOk(s, ch)) && HeldOk(s, Cur(s, c), ch)
    ensures HeldOk(DoPlain(s, c, act), i, ch) && (ch < |s.sl| ==> OwnOk(DoPlain(s, c, act), ch))
  {
  }

  lemma PlainDoze(s: State, c: nat, act: Act, i: nat, ch: nat)
    requires Runs(s, c) && PlainEnabled(s, c, act) && ProcActor(s, c) && Shape(s)
    requires i < |s.p| && ch < |s.chans| && DozeOk(s, ch, i) && LkOk(s, s.chans[ch].lock) && KeyOk(s, i) && PathOk(s, i)
    requires ProcOk(s, i) && (s.p[i].on != NONE ==> CpuOk(s, s.p[i].on) && HoldOk(s, s.p[i].on))
    ensures DozeOk(DoPlain(s, c, act), ch, i)
  {
  }

  lemma PlainSlots(s: State, c: nat, act: Act)
    requires Runs(s, c) && PlainEnabled(s, c, act) && Inv(s)
    ensures SlotInv(DoPlain(s, c, act))
  {
    var t := DoPlain(s, c, act);
    assert CpuOk(s, c) && HoldOk(s, c) && ProcOk(s, Cur(s, c)) && KeyOk(s, Cur(s, c)) && PathOk(s, Cur(s, c));
    forall d: nat | d < |t.c| ensures CpuOk(t, d) {
      assert CpuOk(s, d);
      PlainCpu(s, c, act, d);
    }
    forall d: nat | d < |t.c| ensures HoldOk(t, d) {
      assert CpuOk(s, d) && HoldOk(s, d);
      PlainHold(s, c, act, d);
    }
    forall i: nat | i < |t.p| ensures ProcOk(t, i) {
      assert ProcOk(s, i);
      PlainProc(s, c, act, i);
    }
    forall i: nat | i < |t.p| ensures KeyOk(t, i) {
      assert KeyOk(s, i);
      PlainKey(s, c, act, i);
    }
    forall i: nat | i < |t.p| ensures PathOk(t, i) {
      assert PathOk(s, i);
      PlainPath(s, c, act, i);
    }
    forall i: nat | i < |t.p| ensures LockOk(t, i) {
      assert LockOk(s, i) && (s.p[i].lock != NONE ==> CpuOk(s, s.p[i].lock));
      PlainLock(s, c, act, i);
    }
    forall k: nat | k < |t.l| ensures LkOk(t, k) {
      assert LkOk(s, k);
      PlainLk(s, c, act, k);
    }
  }

  lemma PlainChans(s: State, c: nat, act: Act)
    requires Runs(s, c) && PlainEnabled(s, c, act) && Inv(s)
    ensures Shape(DoPlain(s, c, act)) && ChanInv(DoPlain(s, c, act))
  {
    var t := DoPlain(s, c, act);
    assert CpuOk(s, c) && HoldOk(s, c) && ProcOk(s, Cur(s, c)) && KeyOk(s, Cur(s, c)) && PathOk(s, Cur(s, c));
    forall w: nat, i: nat | w < |t.p| && i < |t.p| ensures ScanOk(t, w, i) {
      assert ScanOk(s, w, i) && KeyOk(s, w) && PathOk(s, w) && ProcOk(s, i) && (s.p[i].on != NONE ==> CpuOk(s, s.p[i].on) && HoldOk(s, s.p[i].on));
      PlainScan(s, c, act, w, i);
    }
    forall d: nat, i: nat | d < |t.c| && i < |t.p| ensures IntScanOk(t, d, i) {
      assert IntScanOk(s, d, i) && CpuOk(s, d) && ProcOk(s, i) && (s.p[i].on != NONE ==> CpuOk(s, s.p[i].on) && HoldOk(s, s.p[i].on));
      PlainIntScan(s, c, act, d, i);
    }
    forall i: nat, ch: nat | i < |t.p| ensures HeldOk(t, i, ch) {
      assert HeldOk(s, i, ch) && (ch < |s.sl| ==> OwnOk(s, ch)) && HeldOk(s, Cur(s, c), ch);
      PlainHeld(s, c, act, i, ch);
    }
    forall ch: nat | ch < |t.sl| ensures OwnOk(t, ch) {
      assert HeldOk(s, 0, ch) && OwnOk(s, ch) && HeldOk(s, Cur(s, c), ch);
      PlainHeld(s, c, act, 0, ch);
    }
    forall ch: nat, i: nat | ch < |t.chans| && i < |t.p| ensures DozeOk(t, ch, i) {
      assert DozeOk(s, ch, i) && LkOk(s, s.chans[ch].lock) && KeyOk(s, i) && PathOk(s, i);
      assert ProcOk(s, i) && (s.p[i].on != NONE ==> CpuOk(s, s.p[i].on) && HoldOk(s, s.p[i].on));
      PlainDoze(s, c, act, i, ch);
    }
  }
}
