/**
  What holds in every reachable state of fork, exit and wait.
 */
module FamilySafety {
  import opened FamilyMachine

  predicate HasLock(at: Place) {
    at.Reparenting? || at.Woke? || at.Looking?
  }

  ghost predicate PlaceOk(s: State, i: nat)
    requires i < |s.p|
  {
    var q := s.p[i];
    && (q.at != Normal && q.at != Gone ==> q.state == Active)
    && (q.state == Zombie <==> q.at == Gone)
    && (q.waiting ==> q.at.Asleep?)
    && (HasLock(q.at) <==> s.waitLock == i)
    && (q.state == Zombie || q.at.Reparenting? || q.at.Woke? ==> i != INIT)
    && (q.state == Unused ==> q.parent == NONE)
    && ((q.state == Active || q.state == Zombie) && i != INIT ==> q.parent != NONE)
    && (i == INIT ==> q.state == Active && q.parent == NONE)
    && q.exits == q.reaps + (if q.state == Zombie then 1 else 0)
    && (q.at.Woke? && 0 <= q.parent < |s.p| ==> !s.p[q.parent].waiting)
  }

  // A child being made belongs to the fork that makes it.
  ghost predicate ForkOk(s: State, i: nat)
    requires i < |s.p|
  {
    var q := s.p[i];
    && (q.at.Forked? ==> q.at.np < |s.p| && s.p[q.at.np].maker == i && s.p[q.at.np].parent == NONE)
    && (q.at.Parented? ==> q.at.np < |s.p| && s.p[q.at.np].maker == i && s.p[q.at.np].parent == i)
    && (q.maker != NONE <==> q.state == Used)
  }

  // A child's parent can still run; it is not asleep when the child is a zombie, and an exit has
  // passed on every child its loop has come to.
  ghost predicate ChildOk(s: State, j: nat)
    requires j < |s.p|
  {
    var q := s.p[j].parent;
    q != NONE ==>
      && 0 <= q < |s.p| && q != j
      && s.p[q].state == Active
      && (s.p[j].state == Zombie ==> !s.p[q].waiting)
      && (s.p[q].at.Reparenting? ==> s.p[q].at.j <= j)
      && !s.p[q].at.Woke?
  }

  // wait's scan: of the slots seen, those of children are no zombies, and one of them is kid.
  ghost predicate SeenOk(s: State, i: nat, j: nat)
    requires i < |s.p| && j < |s.p|
  {
    var at := s.p[i].at;
    && (at.Looking? && j < at.j && s.p[j].parent == i ==> s.p[j].state != Zombie && at.kid != NONE)
    && (at.Looking? || at.Asleep? ==>
          (at.kid == j ==> s.p[j].parent == i) && (at.kid != NONE ==> 0 <= at.kid < |s.p|))
    && (at.Asleep? ==> at.kid != NONE)
  }

  ghost predicate Inv(s: State) {
    && |s.p| > 0
    && (s.waitLock != NONE ==> 0 <= s.waitLock < |s.p|)
    && (forall i: nat {:trigger PlaceOk(s, i)} :: i < |s.p| ==> PlaceOk(s, i))
    && (forall i: nat {:trigger ForkOk(s, i)} :: i < |s.p| ==> ForkOk(s, i))
    && (forall j: nat {:trigger ChildOk(s, j)} :: j < |s.p| ==> ChildOk(s, j))
    && (forall i: nat, j: nat {:trigger SeenOk(s, i, j)} :: i < |s.p| && j < |s.p| ==> SeenOk(s, i, j))
  }

  lemma InitInv(s: State)
    requires Init(s)
    ensures Inv(s)
  {
    forall i: nat | i < |s.p| ensures PlaceOk(s, i) && ForkOk(s, i) && ChildOk(s, i) {
    }
    forall i: nat, j: nat | i < |s.p| && j < |s.p| ensures SeenOk(s, i, j) {
    }
  }

  predicate InFork(step: Step) {
    step.Fork? || step.ForkFail? || step.ForkParent? || step.ForkReady?
  }

  predicate InExit(step: Step) {
    step.ExitLock? || step.ReparentStep? || step.ExitWake? || step.ExitZombie?
  }

  predicate InWait(step: Step) {
    !InFork(step) && !InExit(step)
  }

  // The slot a step touches besides that of the process itself.
  function Other(s: State, step: Step): int
    requires Enabled(s, step)
  {
    var at := s.p[step.i].at;
    if step.Fork? then step.np
    else if InFork(step) then (if at.Forked? || at.Parented? then at.np else NONE)
    else if step.ReparentStep? || step.Reap? then (if at.Reparenting? || at.Looking? then at.j else NONE)
    else NONE
  }

  // What the invariant says of the slots a step touches.
  lemma Touched(s: State, step: Step)
    requires Inv(s) && Enabled(s, step)
    ensures PlaceOk(s, step.i) && ForkOk(s, step.i) && ChildOk(s, step.i) && PlaceOk(s, INIT)
    ensures var o := Other(s, step); 0 <= o < |s.p| ==> PlaceOk(s, o) && ForkOk(s, o) && ChildOk(s, o)
  {
  }

  lemma ForkPlace(s: State, step: Step, i: nat)
    requires Inv(s) && Enabled(s, step) && InFork(step) && i < |s.p|
    ensures PlaceOk(Do(s, step), i)
  {
    Touched(s, step);
    assert PlaceOk(s, i) && ChildOk(s, i);
  }

  lemma ForkFork(s: State, step: Step, i: nat)
    requires Inv(s) && Enabled(s, step) && InFork(step) && i < |s.p|
    ensures ForkOk(Do(s, step), i)
  {
    Touched(s, step);
    assert PlaceOk(s, i) && ForkOk(s, i);
  }

  lemma ForkChild(s: State, step: Step, j: nat)
    requires Inv(s) && Enabled(s, step) && InFork(step) && j < |s.p|
    ensures ChildOk(Do(s, step), j)
  {
    Touched(s, step);
    assert PlaceOk(s, j) && ChildOk(s, j) && SeenOk(s, step.i, j);
    if s.p[j].parent != NONE {
      assert PlaceOk(s, s.p[j].parent) && ForkOk(s, s.p[j].parent);
    }
  }

  lemma ExitPlace(s: State, step: Step, i: nat)
    requires Inv(s) && Enabled(s, step) && InExit(step) && i < |s.p|
    ensures PlaceOk(Do(s, step), i)
  {
    Touched(s, step);
    assert PlaceOk(s, i) && ChildOk(s, i);
  }

  lemma ExitFork(s: State, step: Step, i: nat)
    requires Inv(s) && Enabled(s, step) && InExit(step) && i < |s.p|
    ensures ForkOk(Do(s, step), i)
  {
    Touched(s, step);
    assert PlaceOk(s, i) && ForkOk(s, i);
  }

  lemma ExitChild(s: State, step: Step, j: nat)
    requires Inv(s) && Enabled(s, step) && InExit(step) && j < |s.p|
    ensures ChildOk(Do(s, step), j)
  {
    Touched(s, step);
    assert PlaceOk(s, j) && ChildOk(s, j) && SeenOk(s, step.i, j);
    if s.p[j].parent != NONE {
      assert PlaceOk(s, s.p[j].parent) && ForkOk(s, s.p[j].parent);
    }
  }

  lemma WaitPlace(s: State, step: Step, i: nat)
    requires Inv(s) && Enabled(s, step) && InWait(step) && i < |s.p|
    ensures PlaceOk(Do(s, step), i)
  {
    Touched(s, step);
    assert PlaceOk(s, i) && ChildOk(s, i);
  }

  lemma WaitFork(s: State, step: Step, i: nat)
    requires Inv(s) && Enabled(s, step) && InWait(step) && i < |s.p|
    ensures ForkOk(Do(s, step), i)
  {
    Touched(s, step);
    assert PlaceOk(s, i) && ForkOk(s, i);
  }

  lemma WaitChild(s: State, step: Step, j: nat)
    requires Inv(s) && Enabled(s, step) && InWait(step) && j < |s.p|
    ensures ChildOk(Do(s, step), j)
  {
    Touched(s, step);
    assert PlaceOk(s, j) && ChildOk(s, j) && SeenOk(s, step.i, j);
    if s.p[j].parent != NONE {
      assert PlaceOk(s, s.p[j].parent) && ForkOk(s, s.p[j].parent);
    }
  }

  lemma ForkSeen(s: State, step: Step, i: nat, j: nat)
    requires Inv(s) && Enabled(s, step) && InFork(step) && i < |s.p| && j < |s.p|
    ensures SeenOk(Do(s, step), i, j)
  {
    Touched(s, step);
    assert PlaceOk(s, i) && PlaceOk(s, j) && SeenOk(s, i, j);
  }

  lemma ExitSeen(s: State, step: Step, i: nat, j: nat)
    requires Inv(s) && Enabled(s, step) && InExit(step) && i < |s.p| && j < |s.p|
    ensures SeenOk(Do(s, step), i, j)
  {
    Touched(s, step);
    assert PlaceOk(s, i) && PlaceOk(s, j) && SeenOk(s, i, j);
  }

  lemma WaitSeen(s: State, step: Step, i: nat, j: nat)
    requires Inv(s) && Enabled(s, step) && InWait(step) && i < |s.p| && j < |s.p|
    ensures SeenOk(Do(s, step), i, j)
  {
    Touched(s, step);
    assert PlaceOk(s, i) && PlaceOk(s, j) && SeenOk(s, i, j);
  }

  lemma StepAt(s: State, step: Step, i: nat)
    requires Inv(s) && Enabled(s, step) && i < |s.p|
    ensures PlaceOk(Do(s, step), i) && ForkOk(Do(s, step), i) && ChildOk(Do(s, step), i)
  {
    if InFork(step) {
      ForkPlace(s, step, i);
      ForkFork(s, step, i);
      ForkChild(s, step, i);
    } else if InExit(step) {
      ExitPlace(s, step, i);
      ExitFork(s, step, i);
      ExitChild(s, step, i);
    } else {
      WaitPlace(s, step, i);
      WaitFork(s, step, i);
      WaitChild(s, step, i);
    }
  }

  lemma NextInv(s: State, t: State)
    requires Inv(s) && FamilyMachine.Next(s, t)
    ensures Inv(t)
  {
    var step :| Enabled(s, step) && t == Do(s, step);
    forall i: nat | i < |t.p| ensures PlaceOk(t, i) && ForkOk(t, i) && ChildOk(t, i) {
      StepAt(s, step, i);
    }
    forall i: nat, j: nat | i < |t.p| && j < |t.p| ensures SeenOk(t, i, j) {
      if InFork(step) {
        ForkSeen(s, step, i, j);
      } else if InExit(step) {
        ExitSeen(s, step, i, j);
      } else {
        WaitSeen(s, step, i, j);
      }
    }
    assert PlaceOk(s, step.i);
  }

  lemma {:induction false} RunInv(run: seq<State>, k: nat)
    requires IsRun(run) && k < |run|
    ensures Inv(run[k])
  {
    if k == 0 {
      InitInv(run[0]);
    } else {
      RunInv(run, k - 1);
      NextInv(run[k - 1], run[k]);
    }
  }

  // ------------------------------------------------------------------
  // Every run
  // ------------------------------------------------------------------

  // A parent is neither UNUSED nor ZOMBIE, and everybody but init has one.
  lemma ParentsAlive(run: seq<State>, k: nat, j: nat)
    requires IsRun(run) && k < |run| && j < |run[k].p|
    ensures var q := run[k].p[j].parent; q != NONE ==> 0 <= q < |run[k].p| && q != j && run[k].p[q].state == Active
    ensures run[k].p[j].parent == NONE && j != INIT ==> run[k].p[j].state == Unused || run[k].p[j].state == Used
  {
    RunInv(run, k);
    assert PlaceOk(run[k], j) && ChildOk(run[k], j);
  }

  // A zombie's parent can run and is not asleep in wait, so the zombie can be reaped.
  lemma ZombieReapable(run: seq<State>, k: nat, j: nat)
    requires IsRun(run) && k < |run| && j < |run[k].p| && run[k].p[j].state == Zombie
    ensures var q := run[k].p[j].parent;
            0 <= q < |run[k].p| && run[k].p[q].state == Active && !run[k].p[q].waiting
  {
    RunInv(run, k);
    assert PlaceOk(run[k], j) && ChildOk(run[k], j);
  }

  // Whoever sleeps in wait has a child, and none of its children is a zombie.
  lemma SleeperHasLiveChild(run: seq<State>, k: nat, q: nat)
    requires IsRun(run) && k < |run| && q < |run[k].p| && run[k].p[q].waiting
    ensures exists j :: 0 <= j < |run[k].p| && run[k].p[j].parent == q
    ensures forall j :: 0 <= j < |run[k].p| && run[k].p[j].parent == q ==> run[k].p[j].state != Zombie
  {
    var s := run[k];
    RunInv(run, k);
    assert PlaceOk(s, q) && SeenOk(s, q, 0);
    var kid := s.p[q].at.kid;
    assert SeenOk(s, q, kid);
    forall j: nat | j < |s.p| && s.p[j].parent == q ensures s.p[j].state != Zombie {
      assert ChildOk(s, j);
    }
  }

  // Each exit from a slot is followed by at most one freeing of it.
  lemma FreedOnce(run: seq<State>, k: nat, j: nat)
    requires IsRun(run) && k < |run| && j < |run[k].p|
    ensures run[k].p[j].exits == run[k].p[j].reaps + (if run[k].p[j].state == Zombie then 1 else 0)
  {
    RunInv(run, k);
    assert PlaceOk(run[k], j);
  }

  // Only the current parent frees a zombie, and it does so under wait_lock.
  lemma OnlyParentFrees(run: seq<State>, k: nat, step: Step, j: nat)
    requires IsRun(run) && k < |run| && Enabled(run[k], step) && j < |run[k].p|
    requires run[k].p[j].state == Zombie && Do(run[k], step).p[j].state != Zombie
    ensures step == Reap(step.i) && run[k].p[j].parent == step.i && run[k].waitLock == step.i
    ensures Do(run[k], step).p[j].state == Unused
  {
    RunInv(run, k);
    Touched(run[k], step);
    assert PlaceOk(run[k], j) && ForkOk(run[k], j);
  }

  // When wait has gone through the table and saw no child, there is none; when it is about to
  // sleep, there is one and no zombie among them.
  lemma ScanIsRight(run: seq<State>, k: nat, q: nat)
    requires IsRun(run) && k < |run| && q < |run[k].p| && run[k].p[q].at.Looking? && run[k].p[q].at.j == |run[k].p|
    ensures run[k].p[q].at.kid == NONE <==> forall j :: 0 <= j < |run[k].p| ==> run[k].p[j].parent != q
    ensures forall j :: 0 <= j < |run[k].p| && run[k].p[j].parent == q ==> run[k].p[j].state != Zombie
  {
    var s := run[k];
    RunInv(run, k);
    forall j: nat | j < |s.p| && s.p[j].parent == q ensures s.p[j].state != Zombie && s.p[q].at.kid != NONE {
      assert SeenOk(s, q, j);
    }
    assert SeenOk(s, q, 0);
    if s.p[q].at.kid != NONE {
      assert SeenOk(s, q, s.p[q].at.kid);
    }
  }
}
