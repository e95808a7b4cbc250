/**
  fork, exit and wait of kernel/proc.c as steps over the process table.

  wait_lock guards the parent fields.  RUNNABLE, RUNNING and every sleep but the one in wait are
  one state here (Active): what matters is who may still run, who is a zombie, and who is asleep
  in wait on its own channel.
 */
module FamilyMachine {

  datatype PState = Unused | Used | Active | Zombie

  // Where a process stands in fork, exit and wait.
  datatype Place =
    | Normal
    | Forked(np: nat)               // fork: the child's slot is taken
    | Parented(np: nat)             //   its parent is set
    | Reparenting(j: nat)           // exit, wait_lock held: children below j are passed to init
    | Woke                          //   and the parent is woken
    | Gone                          //   and it is over
    | Looking(j: nat, kid: int)     // wait, wait_lock held: slots below j seen; kid is a child seen, if any
    | Asleep(kid: int)              //   sleeping on its own channel, or woken and about to look again

  // waiting: SLEEPING in wait.  maker, exits and reaps are bookkeeping.
  datatype Proc = Proc(state: PState, parent: int, at: Place, waiting: bool, maker: int, exits: nat, reaps: nat)

  datatype State = State(p: seq<Proc>, waitLock: int)

  const NONE: int := -1
  const INIT: nat := 0

  datatype Step =
    | Fork(i: nat, np: nat) | ForkFail(i: nat) | ForkParent(i: nat) | ForkReady(i: nat)
    | ExitLock(i: nat) | ReparentStep(i: nat) | ExitWake(i: nat) | ExitZombie(i: nat)
    | WaitLock(i: nat) | LookStep(i: nat) | Reap(i: nat) | ReapFail(i: nat) | WaitNone(i: nat) | WaitSleep(i: nat)
    | Kick(i: nat)

  // Slot j is a zombie child of i.
  predicate Dead(s: State, i: nat, j: nat) {
    j < |s.p| && s.p[j].parent == i && s.p[j].state == Zombie
  }

  predicate Enabled(s: State, step: Step) {
    var i := step.i;
    && i < |s.p|
    && var q := s.p[i];
       match step
       case Fork(_, np) => q.state == Active && q.at == Normal && np < |s.p| && np != i && s.p[np].state == Unused
       case ForkFail(_) => q.at.Forked? && q.at.np < |s.p| && q.at.np != i
       case ForkParent(_) => q.at.Forked? && q.at.np < |s.p| && q.at.np != i && s.waitLock == NONE
       case ForkReady(_) => q.at.Parented? && q.at.np < |s.p| && q.at.np != i
       case ExitLock(_) => q.state == Active && q.at == Normal && i != INIT && s.waitLock == NONE
       case ReparentStep(_) => q.at.Reparenting? && q.at.j < |s.p|
       case ExitWake(_) => q.at == Reparenting(|s.p|)
       case ExitZombie(_) => q.at.Woke?
       case WaitLock(_) => q.state == Active && (q.at == Normal || (q.at.Asleep? && !q.waiting)) && s.waitLock == NONE
       case LookStep(_) => q.at.Looking? && q.at.j < |s.p| && !Dead(s, i, q.at.j)
       case Reap(_) => q.at.Looking? && Dead(s, i, q.at.j) && q.at.j != i
       case ReapFail(_) => q.at.Looking? && Dead(s, i, q.at.j)
       case WaitNone(_) => q.at.Looking? && q.at.j == |s.p|
       case WaitSleep(_) => q.at.Looking? && q.at.j == |s.p| && q.at.kid != NONE
       case Kick(_) => q.waiting
  }

  function Set(s: State, i: nat, q: Proc): State
    requires i < |s.p|
  {
    s.(p := s.p[i := q])
  }

  // wakeup(q): the one process that sleeps on this channel is q itself.
  function Wake(p: seq<Proc>, q: int): (r: seq<Proc>)
    ensures |r| == |p|
  {
    if 0 <= q < |p| then p[q := p[q].(waiting := false)] else p
  }

  function Do(s: State, step: Step): (t: State)
    requires Enabled(s, step)
    ensures |t.p| == |s.p|
  {
    var i := step.i;
    var q := s.p[i];
    match step
    case Fork(_, np) =>
      Set(Set(s, i, q.(at := Forked(np))), np, s.p[np].(state := Used, parent := NONE, at := Normal, maker := i))
    case ForkFail(_) =>
      Set(Set(s, i, q.(at := Normal)), q.at.np, s.p[q.at.np].(state := Unused, parent := NONE, maker := NONE))
    case ForkParent(_) =>
      Set(Set(s, i, q.(at := Parented(q.at.np))), q.at.np, s.p[q.at.np].(parent := i))
    case ForkReady(_) =>
      Set(Set(s, i, q.(at := Normal)), q.at.np, s.p[q.at.np].(state := Active, maker := NONE))
    case ExitLock(_) => Set(s, i, q.(at := Reparenting(0))).(waitLock := i)
    case ReparentStep(_) =>
      var t := Set(s, i, q.(at := Reparenting(q.at.j + 1)));
      if s.p[q.at.j].parent == i then
        State(Wake(t.p[q.at.j := t.p[q.at.j].(parent := INIT)], INIT), s.waitLock)
      else t
    case ExitWake(_) => State(Wake(Set(s, i, q.(at := Woke)).p, q.parent), s.waitLock)
    case ExitZombie(_) => State(s.p[i := q.(state := Zombie, at := Gone, exits := q.exits + 1)], NONE)
    case WaitLock(_) => State(s.p[i := q.(at := Looking(0, NONE))], i)
    case LookStep(_) =>
      Set(s, i, q.(at := Looking(q.at.j + 1, if s.p[q.at.j].parent == i then q.at.j else q.at.kid)))
    case Reap(_) =>
      var r := s.p[q.at.j];
      State(s.p[i := q.(at := Normal)][q.at.j := r.(state := Unused, parent := NONE, at := Normal, reaps := r.reaps + 1)], NONE)
    case ReapFail(_) => State(s.p[i := q.(at := Normal)], NONE)
    case WaitNone(_) => State(s.p[i := q.(at := Normal)], NONE)
    case WaitSleep(_) => State(s.p[i := q.(at := Asleep(q.at.kid), waiting := true)], NONE)
    case Kick(_) => Set(s, i, q.(waiting := false))
  }

  ghost predicate Next(s: State, t: State) {
    exists step :: Enabled(s, step) && t == Do(s, step)
  }

  const EMPTY := Proc(Unused, NONE, Normal, false, NONE, 0, 0)

  // After userinit: init is the one process.
  ghost predicate Init(s: State) {
    && |s.p| > 0
    && s.p[INIT] == EMPTY.(state := Active)
    && (forall j {:trigger s.p[j]} :: 0 < j < |s.p| ==> s.p[j] == EMPTY)
    && s.waitLock == NONE
  }

  ghost predicate IsRun(run: seq<State>) {
    && |run| > 0
    && Init(run[0])
    && forall i, j :: 0 <= i && j == i + 1 < |run| ==> Next(run[i], run[j])
  }
}
