/**
  The table scans of fork, exit and wait (kernel/proc.c) over the process array.  Every method
  records the steps it takes, so a table that methods have worked on is the end of a run.
 */
module FamilyCode {
  import opened FamilyMachine
  import opened FamilySafety

  // How a call of wait ends.
  datatype Outcome = Reaped(j: nat) | CopyFailed(j: nat) | NoKids | Killed | Slept

  // One of the slots below upto is a child of process me.
  ghost predicate HasKid(p: seq<Proc>, me: nat, upto: nat)
    requires upto <= |p|
  {
    exists m: nat :: m < upto && p[m].parent == me
  }

  // What reparent's loop has done at slot upto: the children passed to init, and init woken if
  // there were any.
  ghost predicate Passed(p: seq<Proc>, r: seq<Proc>, me: nat, upto: nat)
    requires upto <= |p|
  {
    && |r| == |p|
    && forall j {:trigger r[j]} :: 0 <= j < |p| && j != me ==>
         r[j] == p[j].(parent := if j < upto && p[j].parent == me then INIT else p[j].parent,
                       waiting := p[j].waiting && !(j == INIT && HasKid(p, me, upto)))
  }

  class Table {
    const proc: array<Proc>
    var waitLock: int
    ghost var run: seq<State>

    ghost predicate Valid()
      reads this, proc
    {
      && IsRun(run)
      && Now() == State(proc[..], waitLock)
    }

    ghost function Now(): State
      reads this
      requires |run| > 0
    {
      run[|run| - 1]
    }

    // procinit and userinit.
    constructor (n: nat)
      requires n > 0
      ensures Valid() && waitLock == NONE && proc.Length == n && fresh(proc)
    {
      proc := new Proc[n](_ => EMPTY);
      waitLock := NONE;
      new;
      proc[INIT] := EMPTY.(state := Active);
      run := [State(proc[..], NONE)];
    }

    // One step of the machine, already carried out on the fields.
    ghost method Record(step: Step)
      requires IsRun(run) && Enabled(Now(), step) && Do(Now(), step) == State(proc[..], waitLock)
      modifies this`run
      ensures Valid() && run == old(run) + [Do(old(Now()), step)]
    {
      var s, t := Now(), Do(Now(), step);
      assert Next(s, t);
      run := run + [t];
    }

    // wakeup: in wait a process sleeps on its own entry of the table.
    method Wakeup(chan: int, me: nat)
      requires me < proc.Length && chan != me
      modifies proc
      ensures proc[..] == Wake(old(proc[..]), chan)
    {
      var j := 0;
      while j < proc.Length
        invariant 0 <= j <= proc.Length
        invariant forall m :: 0 <= m < proc.Length ==>
                    proc[m] == if m < j && m == chan then old(proc[m]).(waiting := false) else old(proc[m])
      {
        if j != me {
          if proc[j].waiting && j == chan {
            proc[j] := proc[j].(waiting := false);
          }
        }
        j := j + 1;
      }
    }

    // One turn of reparent's loop.
    method PassOn(me: nat, j: nat)
      requires Valid() && me < proc.Length && j < proc.Length && proc[me].at == Reparenting(j) && waitLock == me
      modifies proc, this`run
      ensures Valid() && proc[..] == Do(State(old(proc[..]), me), ReparentStep(me)).p
    {
      ghost var p0 := proc[..];
      NotOwnChild(me);
      if proc[j].parent == me {
        proc[j] := proc[j].(parent := INIT);
        Wakeup(INIT, me);
      }
      proc[me] := proc[me].(at := Reparenting(j + 1));
      ReparentDone(p0, proc[..], me, j);
      Record(ReparentStep(me));
    }

    lemma NotOwnChild(me: nat)
      requires Valid() && me < proc.Length
      ensures proc[me].parent != me
      ensures proc[me].at.Reparenting? || proc[me].at.Woke? ==>
                me != INIT && 0 <= proc[me].parent < proc.Length && proc[proc[me].parent].state == Active
    {
      RunInv(run, |run| - 1);
      assert PlaceOk(Now(), me) && ChildOk(Now(), me);
    }

    // reparent.
    method Reparent(me: nat)
      requires Valid() && me < proc.Length && proc[me].at == Reparenting(0) && waitLock == me
      modifies proc, this`run
      ensures Valid()
      ensures proc[me] == old(proc[me]).(at := Reparenting(proc.Length))
      ensures Passed(old(proc[..]), proc[..], me, proc.Length)
    {
      ghost var p0 := proc[..];
      var j := 0;
      while j < proc.Length
        invariant 0 <= j <= proc.Length
        invariant Valid()
        invariant proc[me] == p0[me].(at := Reparenting(j))
        invariant Passed(p0, proc[..], me, j)
      {
        ghost var p1 := proc[..];
        NotOwnChild(me);
        PassOn(me, j);
        PassedMore(p0, p1, proc[..], me, j);
        j := j + 1;
      }
    }

    // exit's tail: wake the parent, become a zombie, release wait_lock.
    method Finish(me: nat)
      requires Valid() && me < proc.Length && proc[me].at == Reparenting(proc.Length) && waitLock == me
      modifies proc, this
      ensures Valid() && waitLock == NONE
      ensures proc[..] == WithZombie(old(proc[..]), me)
    {
      ghost var p0 := proc[..];
      NotOwnChild(me);
      Wakeup(proc[me].parent, me);
      proc[me] := proc[me].(at := Woke);
      Record(ExitWake(me));
      proc[me] := proc[me].(state := Zombie, at := Gone, exits := proc[me].exits + 1);
      waitLock := NONE;
      Record(ExitZombie(me));
    }

    // exit, from taking wait_lock on.
    method Exit(me: nat)
      requires Valid() && me < proc.Length && me != INIT && waitLock == NONE
      requires proc[me].state == Active && proc[me].at == Normal
      modifies proc, this
      ensures Valid() && waitLock == NONE
      ensures proc[me] == old(proc[me]).(state := Zombie, at := Gone, exits := old(proc[me].exits) + 1)
      ensures 0 <= proc[me].parent < proc.Length && proc[me].parent != me
      ensures Exited(old(proc[..]), proc[..], me)
    {
      waitLock := me;
      proc[me] := proc[me].(at := Reparenting(0));
      Record(ExitLock(me));
      ghost var p0 := proc[..];
      Reparent(me);
      ghost var p1 := proc[..];
      NotOwnChild(me);
      Finish(me);
      ExitDone(p0, p1, proc[..], me);
      SameKid(old(proc[..]), p0, me);
    }

    // fork: the lowest unused slot becomes a child; nothing changes when there is none or when
    // copying memory fails.
    method Fork(me: nat, copyFails: bool) returns (np: int)
      requires Valid() && me < proc.Length && proc[me].state == Active && proc[me].at == Normal && waitLock == NONE
      modifies proc, this`run
      ensures Valid()
      ensures np == NONE <==> copyFails || forall j :: 0 <= j < proc.Length ==> old(proc[j].state) != Unused
      ensures np != NONE ==> 0 <= np < proc.Length && old(proc[np].state) == Unused && proc[np].state == Active && proc[np].parent == me
      ensures np != NONE ==> forall j :: 0 <= j < np ==> old(proc[j].state) != Unused
      ensures forall j :: 0 <= j < proc.Length && j != np ==> proc[j] == old(proc[j])
    {
      var j := 0;
      while j < proc.Length && proc[j].state != Unused
        invariant 0 <= j <= proc.Length
        invariant forall m :: 0 <= m < j ==> proc[m].state != Unused
      {
        j := j + 1;
      }
      if j == proc.Length {
        return NONE;
      }
      np := MakeChild(me, j, copyFails);
    }

    // fork once a slot is found.
    method MakeChild(me: nat, j: nat, copyFails: bool) returns (np: int)
      requires Valid() && me < proc.Length && proc[me].state == Active && proc[me].at == Normal && waitLock == NONE
      requires j < proc.Length && proc[j].state == Unused
      modifies proc, this`run
      ensures Valid() && np == if copyFails then NONE else j
      ensures !copyFails ==> proc[j].state == Active && proc[j].parent == me
      ensures forall m :: 0 <= m < proc.Length && m != np ==> proc[m] == old(proc[m])
    {
      RunInv(run, |run| - 1);
      assert PlaceOk(Now(), j) && ForkOk(Now(), j);
      proc[me] := proc[me].(at := Forked(j));
      proc[j] := proc[j].(state := Used, parent := NONE, at := Normal, maker := me);
      Record(FamilyMachine.Fork(me, j));
      if copyFails {
        proc[me] := proc[me].(at := Normal);
        proc[j] := proc[j].(state := Unused, parent := NONE, maker := NONE);
        Record(ForkFail(me));
        return NONE;
      }
      Launch(me, j);
      np := j;
    }

    // fork's end: the parent is set under wait_lock, then the child may run.
    method Launch(me: nat, j: nat)
      requires Valid() && me < proc.Length && j < proc.Length && j != me && proc[me].at == Forked(j) && waitLock == NONE
      modifies proc, this`run
      ensures Valid() && proc[j].state == Active && proc[j].parent == me && proc[me] == old(proc[me]).(at := Normal)
      ensures forall m :: 0 <= m < proc.Length && m != j && m != me ==> proc[m] == old(proc[m])
    {
      proc[me] := proc[me].(at := Parented(j));
      proc[j] := proc[j].(parent := me);
      Record(ForkParent(me));
      proc[me] := proc[me].(at := Normal);
      proc[j] := proc[j].(state := Active, maker := NONE);
      Record(ForkReady(me));
    }

    // One turn of wait's scan over a slot that is not a zombie child.
    method LookAt(me: nat, j: nat, kid: int)
      requires Valid() && me < proc.Length && j < proc.Length && proc[me].at == Looking(j, kid) && waitLock == me
      requires !(proc[j].parent == me && proc[j].state == Zombie)
      modifies proc, this`run
      ensures Valid() && |run| == |old(run)| + 1
      ensures proc[..] == old(proc[..])[me := old(proc[me]).(at := Looking(j + 1, if old(proc[j]).parent == me then j else kid))]
    {
      proc[me] := proc[me].(at := Looking(j + 1, if proc[j].parent == me then j else kid));
      Record(LookStep(me));
    }

    // freeproc of a zombie child.
    method FreeChild(me: nat, j: nat)
      requires Valid() && me < proc.Length && j < proc.Length && proc[me].at.Looking? && proc[me].at.j == j && waitLock == me
      requires proc[j].parent == me && proc[j].state == Zombie && j != me
      modifies proc, this
      ensures Valid() && waitLock == NONE
      ensures proc[..] == old(proc[..])[me := old(proc[me]).(at := Normal)]
                                       [j := old(proc[j]).(state := Unused, parent := NONE, at := Normal, reaps := old(proc[j]).reaps + 1)]
    {
      proc[j] := proc[j].(state := Unused, parent := NONE, at := Normal, reaps := proc[j].reaps + 1);
      proc[me] := proc[me].(at := Normal);
      waitLock := NONE;
      Record(Reap(me));
    }

    // wait's scan: it stops at the first zombie child.
    method ScanKids(me: nat) returns (j: nat, kid: int)
      requires Valid() && me < proc.Length && proc[me].at == Looking(0, NONE) && waitLock == me
      modifies proc, this`run
      ensures Valid() && j <= proc.Length
      ensures proc[..] == old(proc[..])[me := old(proc[me]).(at := Looking(j, kid))]
      ensures FirstZombie(old(proc[..]), me, j)
      ensures j == proc.Length ==> (kid == NONE <==> NoChild(old(proc[..]), me))
    {
      ghost var p0 := proc[..];
      j, kid := 0, NONE;
      while j < proc.Length && !(proc[j].parent == me && proc[j].state == Zombie)
        invariant j <= proc.Length && Valid()
        invariant proc[..] == p0[me := p0[me].(at := Looking(j, kid))]
        invariant kid == NONE <==> forall m :: 0 <= m < j ==> p0[m].parent != me
        invariant forall m: nat :: m < j ==> !ZombieKid(p0, me, m)
      {
        LookAt(me, j, kid);
        if proc[j].parent == me {
          kid := j;
        }
        j := j + 1;
      }
    }

    // wait, from taking wait_lock to returning or going to sleep.
    method Wait(me: nat, killed: bool, copyFails: bool) returns (r: Outcome)
      requires Valid() && me < proc.Length && waitLock == NONE
      requires proc[me].state == Active && (proc[me].at == Normal || (proc[me].at.Asleep? && !proc[me].waiting))
      modifies proc, this
      ensures Valid() && waitLock == NONE
      ensures if r.Reaped? || r.CopyFailed? then r.j < proc.Length && r.j != me && FirstZombie(old(proc[..]), me, r.j)
              else FirstZombie(old(proc[..]), me, proc.Length)
      ensures r.CopyFailed? ==> copyFails
      ensures r.Reaped? ==> !copyFails && proc[r.j].state == Unused && proc[r.j].parent == NONE
      ensures forall j :: 0 <= j < proc.Length && j != me && r != Reaped(j) ==> proc[j] == old(proc[j])
      ensures r == NoKids <==> NoChild(old(proc[..]), me)
      ensures r == Killed ==> killed
      ensures if r == Slept then !killed && proc[me].waiting else proc[me].at == Normal
    {
      ghost var p0 := proc[..];
      waitLock := me;
      proc[me] := proc[me].(at := Looking(0, NONE));
      Record(WaitLock(me));
      NotOwnChild(me);
      SameKids(p0, proc[..], me);
      var j, kid := ScanKids(me);
      if j < proc.Length {
        r := TakeChild(me, j, copyFails);
      } else {
        r := Leave(me, kid, killed);
      }
    }

    // No zombie child: return -1, or sleep until a child exits.
    method Leave(me: nat, kid: int, killed: bool) returns (r: Outcome)
      requires Valid() && me < proc.Length && proc[me].at == Looking(proc.Length, kid) && waitLock == me
      modifies proc, this
      ensures Valid() && waitLock == NONE && r == (if kid == NONE then NoKids else if killed then Killed else Slept)
      ensures forall j :: 0 <= j < proc.Length && j != me ==> proc[j] == old(proc[j])
      ensures if r == Slept then proc[me].waiting else proc[me].at == Normal
    {
      if kid == NONE || killed {
        proc[me] := proc[me].(at := Normal);
        waitLock := NONE;
        Record(WaitNone(me));
        r := if kid == NONE then NoKids else Killed;
      } else {
        proc[me] := proc[me].(at := Asleep(kid), waiting := true);
        waitLock := NONE;
        Record(WaitSleep(me));
        r := Slept;
      }
    }

    // A zombie child was found: its status is copied out and it is freed.
    method TakeChild(me: nat, j: nat, copyFails: bool) returns (r: Outcome)
      requires Valid() && me < proc.Length && j < proc.Length && proc[me].at.Looking? && proc[me].at.j == j && waitLock == me
      requires proc[j].parent == me && proc[j].state == Zombie && j != me
      modifies proc, this
      ensures Valid() && waitLock == NONE && r == (if copyFails then CopyFailed(j) else Reaped(j))
      ensures proc[me].at == Normal && forall m :: 0 <= m < proc.Length && m != me && r != Reaped(m) ==> proc[m] == old(proc[m])
      ensures !copyFails ==> proc[j].state == Unused && proc[j].parent == NONE
    {
      if copyFails {
        proc[me] := proc[me].(at := Normal);
        waitLock := NONE;
        Record(ReapFail(me));
        r := CopyFailed(j);
      } else {
        FreeChild(me, j);
        r := Reaped(j);
      }
    }
  }

  // Who is whose zombie child does not depend on where the processes stand.
  lemma SameKids(p: seq<Proc>, r: seq<Proc>, me: nat)
    requires me < |p| == |r| && r == p[me := p[me].(at := r[me].at)]
    ensures forall j: nat {:trigger FirstZombie(r, me, j)} :: FirstZombie(r, me, j) ==> FirstZombie(p, me, j)
    ensures NoChild(r, me) <==> NoChild(p, me)
  {
    forall j: nat | FirstZombie(r, me, j) ensures FirstZombie(p, me, j) {
      forall m: nat | m < j ensures !ZombieKid(p, me, m) {
        assert !ZombieKid(r, me, m);
      }
    }
    forall m | 0 <= m < |p| ensures p[m].parent == r[m].parent {
    }
  }

  predicate ZombieKid(p: seq<Proc>, me: nat, j: nat)
    requires j < |p|
  {
    p[j].parent == me && p[j].state == Zombie
  }

  // j is the lowest slot of a zombie child, or past the table if there is none.
  ghost predicate FirstZombie(p: seq<Proc>, me: nat, j: nat) {
    && j <= |p|
    && (j < |p| ==> ZombieKid(p, me, j))
    && forall m: nat {:trigger ZombieKid(p, me, m)} :: m < j ==> !ZombieKid(p, me, m)
  }

  ghost predicate NoChild(p: seq<Proc>, me: nat) {
    forall m {:trigger p[m]} :: 0 <= m < |p| ==> p[m].parent != me
  }

  // The parent awake and the process a zombie.
  function WithZombie(p: seq<Proc>, me: nat): seq<Proc>
    requires me < |p|
  {
    Wake(p, p[me].parent)[me := p[me].(state := Zombie, at := Gone, exits := p[me].exits + 1)]
  }

  // What the exit of me does to the others: its children are init's, its parent is awake, and so
  // is init if it has got any of them.
  ghost predicate Exited(p: seq<Proc>, r: seq<Proc>, me: nat)
    requires me < |p|
  {
    && |r| == |p|
    && forall j {:trigger r[j]} :: 0 <= j < |p| && j != me ==>
         r[j] == p[j].(parent := if p[j].parent == me then INIT else p[j].parent,
                       waiting := p[j].waiting && j != p[me].parent && !(j == INIT && HasKid(p, me, |p|)))
  }

  lemma SameKid(p: seq<Proc>, r: seq<Proc>, me: nat)
    requires |p| == |r| && forall m {:trigger p[m]} {:trigger r[m]} :: 0 <= m < |p| ==> p[m].parent == r[m].parent
    ensures HasKid(p, me, |p|) <==> HasKid(r, me, |r|)
  {
    if m: nat :| m < |p| && p[m].parent == me {
      assert r[m].parent == me;
    }
  }

  lemma ExitDone(p0: seq<Proc>, p1: seq<Proc>, p2: seq<Proc>, me: nat)
    requires me < |p0| && me != INIT && Passed(p0, p1, me, |p0|) && p1[me] == p0[me].(at := p1[me].at)
    requires 0 <= p1[me].parent < |p0| && p1[me].parent != me && p2 == WithZombie(p1, me)
    ensures p2[me] == p0[me].(state := Zombie, at := Gone, exits := p0[me].exits + 1) && Exited(p0, p2, me)
  {
  }

  lemma PassedMore(p0: seq<Proc>, p1: seq<Proc>, p2: seq<Proc>, me: nat, j: nat)
    requires me < |p0| && j < |p0| && Passed(p0, p1, me, j) && p1[me].at == Reparenting(j) && p1[me].parent == p0[me].parent != me && me != INIT
    requires p2 == Do(State(p1, me), ReparentStep(me)).p
    ensures Passed(p0, p2, me, j + 1) && p2[me] == p1[me].(at := Reparenting(j + 1))
  {
    assert HasKid(p0, me, j + 1) <==> HasKid(p0, me, j) || p0[j].parent == me;
    assert j != me ==> p1[j].parent == p0[j].parent;
  }

  lemma ReparentDone(p: seq<Proc>, r: seq<Proc>, me: nat, j: nat)
    requires me < |p| && j < |p| && |r| == |p| && p[me].at == Reparenting(j) && p[me].parent != me && me != INIT
    requires r == (if p[j].parent == me then Wake(p[j := p[j].(parent := INIT)], INIT) else p)[me := p[me].(at := Reparenting(j + 1))]
    ensures r == Do(State(p, me), ReparentStep(me)).p
  {
  }
}
