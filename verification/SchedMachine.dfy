/**
  Scheduling, sleep/wakeup and sleeplocks: kernel/proc.c, kernel/sleeplock.c and the counters of
  kernel/trap.c, as steps of CPUs over a shared process table.

  A step is what a CPU does between two points where another CPU could notice: taking a
  spinlock, one critical section, handing the CPU over.  Besides the locks of the processes
  there are any number of other spinlocks, and any number of sleep channels, each guarded by one
  of them; several channels may share a lock.  A channel may be a sleeplock, which is then a
  client of sleep and wakeup.  Wakeups come from processes and from interrupt handlers, and the
  handlers run on a CPU whatever it was doing with interrupts on.
 */
module SchedMachine {

  datatype PState = Unused | Used | Sleeping | Runnable | Running | Zombie

  // Where a process's kernel thread stands.
  datatype Place =
    | User                                    // in user mode
    | Kernel                                  // in the kernel, holding no spinlock
    | Timer                                   // in usertrap after a timer interrupt
    | YieldWant(next: Place)                  // yield, called at next: about to take p->lock
    | Yielding(next: Place)                   //   p->lock held
    | LockWant(next: Place)                   // acquire: about to take the lock held at next
    | Locked(k: nat)                          // some code that holds lock k
    | SleepLocked(ch: nat, next: Place)       // sleep, called at next: the channel's lock and p->lock held
    | SleepOnly(ch: nat, next: Place)         //   p->lock held, the channel's lock released
    | Scan(ch: nat, j: nat, next: Place)      // wakeup, called at next: about to take the lock of process j
    | ScanGot(ch: nat, j: nat, next: Place)   //   that lock held
    | AcqTest(ch: nat)                        // acquiresleep, lock held, about to look at locked
    | RelTest(ch: nat)                        // releasesleep, lock held, about to clear locked
    | RelDone(ch: nat)                        //   and after its wakeup
    | ExitLocked(k: nat)                      // exit: lock k (wait_lock) and p->lock held
    | ExitDone(k: nat)                        //   and the process a zombie
    | Switching(back: Place)                  // sched: about to swtch away, to go on at back later
    | Born                                    // at the start of forkret, p->lock held by the CPU
    | Yielded(next: Place)                    // after sched in yield
    | Woken(ch: nat, next: Place)             // after sched in sleep
    | Dead                                    // never to run again

  datatype Counts = Counts(run: nat, preempt: nat, sleep: nat, exits: nat, trap: nat, syscall: nat, interrupt: nat)

  // on is the CPU the thread is on, held the sleeplocks it has; both are bookkeeping.
  datatype Proc = Proc(state: PState, chan: int, lock: int, at: Place, on: int, held: set<nat>, n: Counts)

  // What an interrupt handler goes back to: the scheduler's loop, or the process it interrupted.
  datatype Ret = ToLook(j: nat) | ToProc(i: nat)

  datatype CpuAt =
    | Look(j: nat)        // scheduler: about to take the lock of process j
    | Got(j: nat)         //   that lock held
    | In(i: nat)          // in process i
    | Back(i: nat)        // scheduler, swtched back from process i, whose lock is held
    | IntLocked(k: nat, ret: Ret)                     // an interrupt handler that holds lock k
    | IntScan(ch: nat, j: nat, k: nat, ret: Ret)      //   in wakeup: about to take the lock of process j
    | IntScanGot(ch: nat, j: nat, k: nat, ret: Ret)   //   that lock held

  datatype Cpu = Cpu(at: CpuAt, proc: int)

  datatype Holder = Nobody | ByProc(i: nat) | ByCpu(c: nat)

  // A channel, the lock its sleepers and wakers hold, and whether it is a sleeplock.
  datatype Chan = Chan(lock: nat, sleeplock: bool)

  datatype SleepLock = SleepLock(locked: bool, owner: int)

  // l: the spinlocks other than p->lock; sl: the sleeplock of each channel that is one.
  datatype State = State(p: seq<Proc>, c: seq<Cpu>, l: seq<Holder>, chans: seq<Chan>, sl: seq<SleepLock>)

  const NONE: int := -1

  datatype TrapKind = Syscall | TimerTrap | OtherTrap

  datatype Act =
    // the scheduler of a CPU
    | SchedAcquire | SchedRun | SchedSkip | SchedBack
    // an interrupt handler on a CPU
    | IntStart(l: nat) | IntWake(ch: nat) | IntSkip | IntAcquire | IntTest | IntDone | IntUnlock
    // the process on a CPU
    | Resume | Trap(kind: TrapKind) | ReturnUser
    | TimerYield | TimerKilled | KernelYield | YieldAcquire | YieldSet | Swtch
    | LockStart(l: nat) | AcqStart(ch: nat) | RelStart(ch: nat) | LockTake | Unlock
    | SleepAcquire(ch: nat) | SleepRelease | SleepSet
    | WakeStart(ch: nat) | ScanSkip | ScanAcquire | ScanTest | ScanDone
    | AcqTake | RelClear | RelFinish
    | ExitAcquire | ExitSet | ExitRelease

  datatype Step =
    | OnCpu(c: nat, act: Act)
    // one critical section of p->lock, in some other process or an interrupt handler
    | Alloc(i: nat) | Ready(i: nat) | Free(i: nat) | Kick(i: nat)

  predicate Resting(at: Place) {
    at.Born? || at.Yielded? || at.Woken? || at.Dead?
  }

  // Where interrupts are on and a timer interrupt may preempt the kernel.
  predicate Open(at: Place) {
    at.Kernel? || at.LockWant?
  }

  // The process holds its own lock.
  predicate OwnLock(at: Place) {
    at.Yielding? || at.SleepLocked? || at.SleepOnly? || at.ExitLocked? || at.ExitDone? || at.Switching? || Resting(at)
  }

  // The lock of a channel.
  function ChanLock(chans: seq<Chan>, ch: nat): int {
    if ch < |chans| then chans[ch].lock else NONE
  }

  // The lock held at one of the places sleep and wakeup are called from.
  function LkIn(chans: seq<Chan>, at: Place): int {
    match at
    case Locked(k) => k
    case AcqTest(ch) => ChanLock(chans, ch)
    case RelTest(ch) => ChanLock(chans, ch)
    case RelDone(ch) => ChanLock(chans, ch)
    case _ => NONE
  }

  // The lock, other than those of processes, that a process holds.
  function LkOf(chans: seq<Chan>, at: Place): int {
    match at
    case SleepLocked(ch, _) => ChanLock(chans, ch)
    case Scan(_, _, next) => LkIn(chans, next)
    case ScanGot(_, _, next) => LkIn(chans, next)
    case ExitLocked(k) => k
    case ExitDone(k) => k
    case _ => LkIn(chans, at)
  }

  function LkOfCpu(at: CpuAt): int {
    match at
    case IntLocked(k, _) => k
    case IntScan(_, _, k, _) => k
    case IntScanGot(_, _, k, _) => k
    case _ => NONE
  }

  // The process lock a CPU holds: never more than one.
  function LockOf(p: seq<Proc>, c: Cpu): int {
    match c.at
    case Got(j) => j
    case Back(i) => i
    case In(i) =>
      if i >= |p| then NONE
      else if OwnLock(p[i].at) then i
      else if p[i].at.ScanGot? then p[i].at.j
      else NONE
    case IntScanGot(_, j, _, _) => j
    case _ => NONE
  }

  function RetProc(ret: Ret): int {
    if ret.ToProc? then ret.i else NONE
  }

  // The process a CPU is in: myproc().
  function ProcOn(at: CpuAt): int {
    match at
    case In(i) => i
    case Back(i) => i
    case IntLocked(_, ret) => RetProc(ret)
    case IntScan(_, _, _, ret) => RetProc(ret)
    case IntScanGot(_, _, _, ret) => RetProc(ret)
    case _ => NONE
  }

  // The scheduler's for loop goes round the table.
  function Around(s: State, j: nat): nat {
    if j + 1 < |s.p| then j + 1 else 0
  }

  // CPU c executes its process.
  predicate Runs(s: State, c: nat) {
    c < |s.c| && s.c[c].at.In? && s.c[c].at.i < |s.p|
  }

  function Cur(s: State, c: nat): nat
    requires Runs(s, c)
  {
    s.c[c].at.i
  }

  function CurAt(s: State, c: nat): Place
    requires Runs(s, c)
  {
    s.p[Cur(s, c)].at
  }

  predicate IsFree(s: State, k: int) {
    0 <= k < |s.l| && s.l[k] == Nobody
  }

  predicate IsSched(act: Act) {
    act.SchedAcquire? || act.SchedRun? || act.SchedSkip? || act.SchedBack?
  }

  predicate IsInt(act: Act) {
    act.IntStart? || act.IntWake? || act.IntSkip? || act.IntAcquire? || act.IntTest? || act.IntDone? || act.IntUnlock?
  }

  // Steps of a process under its own lock, or taking or releasing it.
  predicate IsSelf(act: Act) {
    || act.Resume? || act.YieldAcquire? || act.YieldSet? || act.Swtch?
    || act.SleepAcquire? || act.SleepSet? || act.ExitAcquire? || act.ExitSet?
  }

  // Steps that take or release another lock, or work on a sleeplock under it.
  predicate IsSpin(act: Act) {
    || act.LockTake? || act.Unlock? || act.SleepRelease? || act.ExitRelease?
    || act.AcqTake? || act.RelClear? || act.RelFinish?
  }

  // Steps of wakeup.
  predicate IsWake(act: Act) {
    act.WakeStart? || act.ScanSkip? || act.ScanAcquire? || act.ScanTest? || act.ScanDone?
  }

  predicate Enabled(s: State, step: Step) {
    match step
    case OnCpu(c, act) =>
      && c < |s.c|
      && if IsSched(act) then SchedEnabled(s, c, act)
         else if IsInt(act) then IntEnabled(s, c, act)
         else Runs(s, c) && ProcEnabled(s, c, act)
    case Alloc(i) => i < |s.p| && s.p[i].lock == NONE && s.p[i].state == Unused
    case Ready(i) => i < |s.p| && s.p[i].lock == NONE && s.p[i].state == Used
    case Free(i) => i < |s.p| && s.p[i].lock == NONE && (s.p[i].state == Zombie || s.p[i].state == Used)
    case Kick(i) => i < |s.p| && s.p[i].lock == NONE && s.p[i].state == Sleeping
  }

  predicate SchedEnabled(s: State, c: nat, act: Act)
    requires c < |s.c|
  {
    var at := s.c[c].at;
    match act
    case SchedAcquire => at.Look? && at.j < |s.p| && s.p[at.j].lock == NONE
    case SchedRun => at.Got? && at.j < |s.p| && s.p[at.j].state == Runnable
    case SchedSkip => at.Got? && at.j < |s.p| && s.p[at.j].state != Runnable
    case SchedBack => at.Back? && at.i < |s.p|
    case _ => false
  }

  // A handler starts where no spinlock is held: in the scheduler's loop, in user mode, or in
  // kernel code with interrupts on.
  predicate IntEnabled(s: State, c: nat, act: Act)
    requires c < |s.c|
  {
    var at := s.c[c].at;
    match act
    case IntStart(k) => IsFree(s, k) && (at.Look? || (Runs(s, c) && (Open(CurAt(s, c)) || CurAt(s, c).User?)))
    case IntWake(ch) => at.IntLocked? && ch < |s.chans|
    case IntSkip => at.IntScan? && at.j == RetProc(at.ret)
    case IntAcquire => at.IntScan? && at.j != RetProc(at.ret) && at.j < |s.p| && s.p[at.j].lock == NONE
    case IntTest => at.IntScanGot? && at.j < |s.p|
    case IntDone => at.IntScan? && at.j == |s.p|
    case IntUnlock => at.IntLocked? && at.k < |s.l|
    case _ => false
  }

  predicate ProcEnabled(s: State, c: nat, act: Act)
    requires Runs(s, c)
  {
    if IsSelf(act) then SelfEnabled(s, c, act)
    else if IsSpin(act) then SpinEnabled(s, c, act)
    else if IsWake(act) then WakeEnabled(s, c, act)
    else PlainEnabled(s, c, act)
  }

  predicate SelfEnabled(s: State, c: nat, act: Act)
    requires Runs(s, c)
  {
    var i, at := Cur(s, c), CurAt(s, c);
    match act
    case Resume => at.Born? || at.Yielded? || at.Woken?
    case YieldAcquire => at.YieldWant? && s.p[i].lock == NONE
    case YieldSet => at.Yielding?
    case Swtch => at.Switching?
    case SleepAcquire(ch) =>
      && ch < |s.chans| && |s.sl| == |s.chans| && s.p[i].lock == NONE
      && if s.chans[ch].sleeplock then at == AcqTest(ch) && s.sl[ch].locked else at == Locked(s.chans[ch].lock)
    case SleepSet => at.SleepOnly?
    case ExitAcquire => at.Locked? && s.p[i].lock == NONE && s.p[i].held == {}
    case ExitSet => at.ExitLocked?
    case _ => false
  }

  predicate SpinEnabled(s: State, c: nat, act: Act)
    requires Runs(s, c)
  {
    var at := CurAt(s, c);
    match act
    case LockTake => at.LockWant? && IsFree(s, LkIn(s.chans, at.next))
    case Unlock => at.Locked? && at.k < |s.l|
    case SleepRelease => at.SleepLocked? && 0 <= ChanLock(s.chans, at.ch) < |s.l|
    case ExitRelease => at.ExitDone? && at.k < |s.l|
    case AcqTake => at.AcqTest? && at.ch < |s.chans| == |s.sl| && s.chans[at.ch].lock < |s.l| && !s.sl[at.ch].locked
    case RelClear => at.RelTest? && at.ch < |s.sl|
    case RelFinish => at.RelDone? && 0 <= ChanLock(s.chans, at.ch) < |s.l|
    case _ => false
  }

  predicate WakeEnabled(s: State, c: nat, act: Act)
    requires Runs(s, c)
  {
    var i, at := Cur(s, c), CurAt(s, c);
    match act
    case WakeStart(ch) => at.Locked? && ch < |s.chans|
    case ScanSkip => at.Scan? && at.j == i
    case ScanAcquire => at.Scan? && at.j != i && at.j < |s.p| && s.p[at.j].lock == NONE
    case ScanTest => at.ScanGot? && at.j < |s.p|
    case ScanDone => at.Scan? && at.j == |s.p|
    case _ => false
  }

  predicate PlainEnabled(s: State, c: nat, act: Act)
    requires Runs(s, c)
  {
    var i, at := Cur(s, c), CurAt(s, c);
    match act
    case Trap(_) => at.User?
    case ReturnUser => at.Kernel? && s.p[i].held == {}
    case TimerYield => at.Timer?
    case TimerKilled => at.Timer?
    case KernelYield => Open(at)
    case LockStart(k) => at.Kernel? && k < |s.l|
    case AcqStart(ch) => at.Kernel? && ch < |s.chans| && s.chans[ch].sleeplock
    case RelStart(ch) => at.Kernel? && ch in s.p[i].held
    case _ => false
  }

  function Do(s: State, step: Step): State
    requires Enabled(s, step)
  {
    match step
    case OnCpu(c, act) =>
      if IsSched(act) then DoSched(s, c, act) else if IsInt(act) then DoInt(s, c, act) else DoProc(s, c, act)
    case Alloc(i) => s.(p := s.p[i := s.p[i].(state := Used, at := Born)])
    case Ready(i) => s.(p := s.p[i := s.p[i].(state := Runnable)])
    case Free(i) => s.(p := s.p[i := s.p[i].(state := Unused, chan := NONE)])
    case Kick(i) => s.(p := s.p[i := s.p[i].(state := Runnable)])
  }

  function DoSched(s: State, c: nat, act: Act): State
    requires c < |s.c| && SchedEnabled(s, c, act)
  {
    var at := s.c[c].at;
    match act
    case SchedAcquire =>
      s.(p := s.p[at.j := s.p[at.j].(lock := c)], c := s.c[c := s.c[c].(at := Got(at.j))])
    case SchedRun =>
      var q := s.p[at.j];
      s.(p := s.p[at.j := q.(state := Running, on := c, n := q.n.(run := q.n.run + 1))],
         c := s.c[c := Cpu(In(at.j), at.j)])
    case SchedSkip =>
      s.(p := s.p[at.j := s.p[at.j].(lock := NONE)], c := s.c[c := s.c[c].(at := Look(Around(s, at.j)))])
    case SchedBack =>
      s.(p := s.p[at.i := s.p[at.i].(lock := NONE, on := NONE)], c := s.c[c := Cpu(Look(Around(s, at.i)), NONE)])
  }

  // wakeup's critical section on one process.
  function Rouse(q: Proc, ch: nat): Proc {
    q.(lock := NONE, state := if q.state == Sleeping && q.chan == ch then Runnable else q.state)
  }

  function DoInt(s: State, c: nat, act: Act): State
    requires c < |s.c| && IntEnabled(s, c, act)
  {
    var at := s.c[c].at;
    var cpu := s.c[c];
    match act
    case IntStart(k) =>
      s.(c := s.c[c := cpu.(at := IntLocked(k, if at.Look? then ToLook(at.j) else ToProc(at.i)))], l := s.l[k := ByCpu(c)])
    case IntWake(ch) => s.(c := s.c[c := cpu.(at := IntScan(ch, 0, at.k, at.ret))])
    case IntSkip => s.(c := s.c[c := cpu.(at := IntScan(at.ch, at.j + 1, at.k, at.ret))])
    case IntAcquire =>
      s.(p := s.p[at.j := s.p[at.j].(lock := c)], c := s.c[c := cpu.(at := IntScanGot(at.ch, at.j, at.k, at.ret))])
    case IntTest =>
      s.(p := s.p[at.j := Rouse(s.p[at.j], at.ch)], c := s.c[c := cpu.(at := IntScan(at.ch, at.j + 1, at.k, at.ret))])
    case IntDone => s.(c := s.c[c := cpu.(at := IntLocked(at.k, at.ret))])
    case IntUnlock =>
      s.(c := s.c[c := cpu.(at := if at.ret.ToLook? then Look(at.ret.j) else In(at.ret.i))], l := s.l[at.k := Nobody])
  }

  // Process i moves to another place.
  function Move(s: State, i: nat, at: Place): State
    requires i < |s.p|
  {
    s.(p := s.p[i := s.p[i].(at := at)])
  }

  function DoProc(s: State, c: nat, act: Act): State
    requires Runs(s, c) && ProcEnabled(s, c, act)
  {
    if IsSelf(act) then DoSelf(s, c, act)
    else if IsSpin(act) then DoSpin(s, c, act)
    else if IsWake(act) then DoWake(s, c, act)
    else DoPlain(s, c, act)
  }

  function DoSelf(s: State, c: nat, act: Act): State
    requires Runs(s, c) && SelfEnabled(s, c, act)
  {
    var i, at := Cur(s, c), CurAt(s, c);
    var q := s.p[i];
    var n := q.n;
    match act
    case Resume =>
      s.(p := s.p[i := if at.Woken? then q.(chan := NONE, lock := NONE, at := LockWant(at.next))
                       else q.(lock := NONE, at := if at.Yielded? then at.next else Kernel)])
    case YieldAcquire => s.(p := s.p[i := q.(lock := c, at := Yielding(at.next))])
    case YieldSet =>
      s.(p := s.p[i := q.(state := Runnable, at := Switching(Yielded(at.next)), n := n.(preempt := n.preempt + 1))])
    case Swtch => s.(p := s.p[i := q.(at := at.back)], c := s.c[c := s.c[c].(at := Back(i))])
    case SleepAcquire(ch) => s.(p := s.p[i := q.(lock := c, at := SleepLocked(ch, at))])
    case SleepSet =>
      s.(p := s.p[i := q.(state := Sleeping, chan := at.ch, at := Switching(Woken(at.ch, at.next)),
                          n := n.(sleep := n.sleep + 1))])
    case ExitAcquire => s.(p := s.p[i := q.(lock := c, at := ExitLocked(at.k))])
    case ExitSet => s.(p := s.p[i := q.(state := Zombie, at := ExitDone(at.k), n := n.(exits := n.exits + 1))])
  }

  function DoSpin(s: State, c: nat, act: Act): State
    requires Runs(s, c) && SpinEnabled(s, c, act)
  {
    var i, at := Cur(s, c), CurAt(s, c);
    var q := s.p[i];
    match act
    case LockTake => Move(s, i, at.next).(l := s.l[LkIn(s.chans, at.next) := ByProc(i)])
    case Unlock => Move(s, i, Kernel).(l := s.l[at.k := Nobody])
    case SleepRelease => Move(s, i, SleepOnly(at.ch, at.next)).(l := s.l[ChanLock(s.chans, at.ch) := Nobody])
    case ExitRelease => Move(s, i, Switching(Dead)).(l := s.l[at.k := Nobody])
    case AcqTake =>
      s.(p := s.p[i := q.(at := Kernel, held := q.held + {at.ch})],
         l := s.l[s.chans[at.ch].lock := Nobody], sl := s.sl[at.ch := SleepLock(true, i)])
    case RelClear =>
      s.(p := s.p[i := q.(at := Scan(at.ch, 0, RelDone(at.ch)), held := q.held - {at.ch})],
         sl := s.sl[at.ch := SleepLock(false, NONE)])
    case RelFinish => Move(s, i, Kernel).(l := s.l[ChanLock(s.chans, at.ch) := Nobody])
  }

  function DoWake(s: State, c: nat, act: Act): State
    requires Runs(s, c) && WakeEnabled(s, c, act)
  {
    var i, at := Cur(s, c), CurAt(s, c);
    match act
    case WakeStart(ch) => Move(s, i, Scan(ch, 0, at))
    case ScanSkip => Move(s, i, Scan(at.ch, at.j + 1, at.next))
    case ScanAcquire =>
      s.(p := s.p[i := s.p[i].(at := ScanGot(at.ch, at.j, at.next))][at.j := s.p[at.j].(lock := c)])
    case ScanTest =>
      var p' := s.p[at.j := Rouse(s.p[at.j], at.ch)];
      s.(p := p'[i := p'[i].(at := Scan(at.ch, at.j + 1, at.next))])
    case ScanDone => Move(s, i, at.next)
  }

  function DoPlain(s: State, c: nat, act: Act): State
    requires Runs(s, c) && PlainEnabled(s, c, act)
  {
    var i, at := Cur(s, c), CurAt(s, c);
    var q := s.p[i];
    var n := q.n;
    match act
    case Trap(kind) =>
      s.(p := s.p[i := q.(at := if kind.TimerTrap? then Timer else Kernel,
                          n := n.(trap := n.trap + 1, syscall := n.syscall + if kind.Syscall? then 1 else 0))])
    case ReturnUser => Move(s, i, User)
    case TimerYield => s.(p := s.p[i := q.(at := YieldWant(Kernel), n := n.(interrupt := n.interrupt + 1))])
    case TimerKilled => Move(s, i, Kernel)
    case KernelYield => Move(s, i, YieldWant(at))
    case LockStart(k) => Move(s, i, LockWant(Locked(k)))
    case AcqStart(ch) => Move(s, i, LockWant(AcqTest(ch)))
    case RelStart(ch) => Move(s, i, LockWant(RelTest(ch)))
  }

  ghost predicate Next(s: State, t: State) {
    exists step :: Enabled(s, step) && t == Do(s, step)
  }

  // procinit: an empty table, every CPU at the top of its scheduler, every lock free.
  ghost predicate Init(s: State) {
    && |s.p| > 0
    && (forall i {:trigger s.p[i]} :: 0 <= i < |s.p| ==>
          s.p[i] == Proc(Unused, NONE, NONE, Dead, NONE, {}, Counts(0, 0, 0, 0, 0, 0, 0)))
    && (forall c {:trigger s.c[c]} :: 0 <= c < |s.c| ==> s.c[c] == Cpu(Look(0), NONE))
    && (forall k {:trigger s.l[k]} :: 0 <= k < |s.l| ==> s.l[k] == Nobody)
    && |s.sl| == |s.chans|
    && (forall ch {:trigger s.chans[ch]} :: 0 <= ch < |s.chans| ==> s.chans[ch].lock < |s.l|)
    && (forall ch {:trigger s.sl[ch]} :: 0 <= ch < |s.sl| ==> s.sl[ch] == SleepLock(false, NONE))
  }

  ghost predicate IsRun(run: seq<State>) {
    && |run| > 0
    && Init(run[0])
    && forall i, j :: 0 <= i && j == i + 1 < |run| ==> Next(run[i], run[j])
  }
}
