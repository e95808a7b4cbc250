/**
  The file system on the log: every call's changes go through log_write, inside a begin_op and
  end_op of its own, while other calls are open too.

  A snapshot is the file system as the log has it at a moment when no call is open.  Whatever the
  machine was doing when it crashed, between any two block writes of a commit or of an earlier
  recovery, the disk recovers to a snapshot: inodes, bitmap and indirect blocks fit together, and
  the files are those after a whole number of calls.
 */
module Journal {
  import opened FsModel
  import opened FsCode
  import opened FileData
  import opened FsImage
  import M = LogMachine
  import S = LogSafety
  import C = LogCode

  // at is how long the run was when the last call ended.
  datatype Snap = Snap(disk: seq<Blk>, ino: seq<Inode>, own: seq<Owner>, at: nat)

  // A file system of n inodes, in order, whose metadata blocks are meta.
  ghost predicate SnapOk(sb: Super, n: nat, meta: set<int>, s: Snap) {
    && Inv(sb, s.disk, s.ino, s.own, {}) && Settled(s.own) && FilesOk(s.disk, s.ino) && |s.ino| == n
    && forall b {:trigger s.own[b]} :: 0 <= b < |s.own| ==> (s.own[b] == Meta <==> b in meta)
  }

  ghost predicate SnapIs(L: M.Layout, sb: Super, d: M.Disk, s: Snap) {
    InodesOk(s.ino) && d == Image(L, sb, s.disk, s.ino)
  }

  // The writes of the history h lead to a snapshot that was there at state n of the run.
  ghost predicate Point(L: M.Layout, sb: Super, init: M.Disk, h: seq<M.Event>, snaps: seq<Snap>, n: nat) {
    exists k :: 0 <= k < |snaps| && SnapIs(L, sb, M.Apply(init, h), snaps[k]) && snaps[k].at <= n
  }

  // So does every part of a state's history that ends with no call open.
  ghost predicate Recorded(L: M.Layout, sb: Super, s: M.State, snaps: seq<Snap>, n: nat) {
    forall k: nat {:trigger s.history[..k]} ::
      k <= |s.history| && M.Open(s.history[..k]) == {} ==> Point(L, sb, s.init, s.history[..k], snaps, n)
  }

  ghost predicate AllRecorded(L: M.Layout, sb: Super, run: seq<M.State>, snaps: seq<Snap>) {
    forall n: nat {:trigger Recorded(L, sb, run[n], snaps, n)} :: n < |run| ==> Recorded(L, sb, run[n], snaps, n)
  }

  lemma PointMore(L: M.Layout, sb: Super, init: M.Disk, h: seq<M.Event>, snaps: seq<Snap>, more: seq<Snap>, n: nat, m: nat)
    requires Point(L, sb, init, h, snaps, n) && n <= m
    ensures Point(L, sb, init, h, snaps + more, m)
  {
    var k :| 0 <= k < |snaps| && SnapIs(L, sb, M.Apply(init, h), snaps[k]) && snaps[k].at <= n;
    assert SnapIs(L, sb, M.Apply(init, h), (snaps + more)[k]) && (snaps + more)[k].at <= m;
  }

  lemma RecordedMore(L: M.Layout, sb: Super, s: M.State, snaps: seq<Snap>, more: seq<Snap>, n: nat, m: nat)
    requires Recorded(L, sb, s, snaps, n) && n <= m
    ensures Recorded(L, sb, s, snaps + more, m)
  {
    forall k: nat | k <= |s.history| && M.Open(s.history[..k]) == {}
      ensures Point(L, sb, s.init, s.history[..k], snaps + more, m)
    {
      PointMore(L, sb, s.init, s.history[..k], snaps, more, n, m);
    }
  }

  // One more event, after which some call is open or the history leads to a snapshot.
  lemma RecordedEvent(L: M.Layout, sb: Super, s: M.State, t: M.State, e: M.Event, snaps: seq<Snap>, n: nat)
    requires Recorded(L, sb, s, snaps, n) && t.history == s.history + [e] && t.init == s.init
    requires M.Open(t.history) != {} || Point(L, sb, t.init, t.history, snaps, n)
    ensures Recorded(L, sb, t, snaps, n)
  {
    forall k: nat | k <= |t.history| && M.Open(t.history[..k]) == {}
      ensures Point(L, sb, t.init, t.history[..k], snaps, n)
    {
      if k == |t.history| {
        assert t.history[..k] == t.history;
      } else {
        assert t.history[..k] == s.history[..k];
      }
    }
  }

  lemma RecordedCut(L: M.Layout, sb: Super, s: M.State, t: M.State, c: nat, snaps: seq<Snap>, n: nat)
    requires Recorded(L, sb, s, snaps, n) && c <= |s.history| && t.history == s.history[..c] && t.init == s.init
    ensures Recorded(L, sb, t, snaps, n)
  {
    forall k: nat | k <= |t.history| && M.Open(t.history[..k]) == {}
      ensures Point(L, sb, t.init, t.history[..k], snaps, n)
    {
      assert t.history[..k] == s.history[..k];
    }
  }

  // The run has gone on through states like t.
  lemma AllMore(L: M.Layout, sb: Super, run: seq<M.State>, run': seq<M.State>, t: M.State, snaps: seq<Snap>, more: seq<Snap>)
    requires AllRecorded(L, sb, run, snaps) && run <= run' && Recorded(L, sb, t, snaps + more, |run|)
    requires forall n {:trigger run'[n]} :: |run| <= n < |run'| ==> run'[n].history == t.history && run'[n].init == t.init
    ensures AllRecorded(L, sb, run', snaps + more)
  {
    forall n: nat | n < |run'| ensures Recorded(L, sb, run'[n], snaps + more, n) {
      if n < |run| {
        assert run'[n] == run[n];
        RecordedMore(L, sb, run[n], snaps, more, n, n);
      } else {
        assert t.history == t.history[..|t.history|];
        RecordedCut(L, sb, t, run'[n], |t.history|, snaps + more, |run|);
        assert snaps + more + [] == snaps + more;
        RecordedMore(L, sb, run'[n], snaps + more, [], |run|, n);
      }
    }
  }

  lemma LastRecorded(L: M.Layout, sb: Super, run: seq<M.State>, snaps: seq<Snap>)
    requires AllRecorded(L, sb, run, snaps) && |run| > 0
    ensures Recorded(L, sb, run[|run| - 1], snaps, |run|)
  {
    assert Recorded(L, sb, run[|run| - 1], snaps, |run| - 1);
    assert snaps + [] == snaps;
    RecordedMore(L, sb, run[|run| - 1], snaps, [], |run| - 1, |run|);
  }

  lemma AllOn(L: M.Layout, sb: Super, run: seq<M.State>, run': seq<M.State>, t: M.State, snaps: seq<Snap>)
    requires AllRecorded(L, sb, run, snaps) && run <= run' && Recorded(L, sb, t, snaps, |run|)
    requires forall n {:trigger run'[n]} :: |run| <= n < |run'| ==> run'[n].history == t.history && run'[n].init == t.init
    ensures AllRecorded(L, sb, run', snaps)
  {
    assert snaps + [] == snaps;
    AllMore(L, sb, run, run', t, snaps, []);
  }

  // Before the first call.
  lemma FirstPoint(L: M.Layout, sb: Super, run: seq<M.State>, d: M.Disk, s: Snap)
    requires forall n {:trigger run[n]} :: 0 <= n < |run| ==> run[n].history == [] && run[n].init == d
    requires SnapIs(L, sb, d, s) && s.at == 0
    ensures AllRecorded(L, sb, run, [s])
  {
    forall n: nat | n < |run| ensures Recorded(L, sb, run[n], [s], n) {
      assert SnapIs(L, sb, M.Apply(d, []), [s][0]);
    }
  }

  // A log_write by an open call.
  lemma WriteRecorded(L: M.Layout, sb: Super, run: seq<M.State>, run': seq<M.State>, id: nat, b: nat, data: M.Block, snaps: seq<Snap>)
    requires AllRecorded(L, sb, run, snaps) && |run| > 0 && |run'| == |run| + 1 && run <= run'
    requires var s, t := run[|run| - 1], run'[|run|];
             t.init == s.init && t.history == s.history + [M.Write(id, b, data)] && id in M.Open(s.history) && b < |s.init|
    ensures AllRecorded(L, sb, run', snaps)
    ensures var s, t := run[|run| - 1], run'[|run|];
            id in M.Open(t.history) && M.Apply(t.init, t.history) == M.Apply(s.init, s.history)[b := data]
  {
    var s, t, e := run[|run| - 1], run'[|run|], M.Write(id, b, data);
    ApplyEvent(s.init, s.history, e);
    LastRecorded(L, sb, run, snaps);
    RecordedEvent(L, sb, s, t, e, snaps, |run|);
    AllOn(L, sb, run, run', t, snaps);
  }

  // An end_op, with the commit that may follow.
  lemma EndRecorded(L: M.Layout, sb: Super, run: seq<M.State>, run': seq<M.State>, id: nat, snaps: seq<Snap>, snap: Snap)
    requires AllRecorded(L, sb, run, snaps) && |run| > 0 && |run'| > |run| && run <= run'
    requires var s, t := run[|run| - 1], run'[|run'| - 1];
             t.init == s.init && t.history == s.history + [M.End(id)] && SnapIs(L, sb, M.Apply(s.init, s.history), snap) && snap.at == |run|
    requires var t := run'[|run'| - 1];
             forall n {:trigger run'[n]} :: |run| <= n < |run'| ==> run'[n].history == t.history && run'[n].init == t.init
    ensures var s, t := run[|run| - 1], run'[|run'| - 1];
            && M.Apply(t.init, t.history) == M.Apply(s.init, s.history)
            && AllRecorded(L, sb, run', snaps + if M.Open(t.history) == {} then [snap] else [])
  {
    var s, t := run[|run| - 1], run'[|run'| - 1];
    var more := if M.Open(t.history) == {} then [snap] else [];
    ApplyEvent(s.init, s.history, M.End(id));
    if M.Open(t.history) == {} {
      assert SnapIs(L, sb, M.Apply(t.init, t.history), (snaps + more)[|snaps|]) && (snaps + more)[|snaps|].at <= |run|;
    }
    LastRecorded(L, sb, run, snaps);
    RecordedMore(L, sb, s, snaps, more, |run|, |run|);
    RecordedEvent(L, sb, s, t, M.End(id), snaps + more, |run|);
    AllMore(L, sb, run, run', t, snaps, more);
  }

  // An open call may write.
  lemma MayWrite(L: M.Layout, run: seq<M.State>, id: nat)
    requires M.IsRun(L, run, true) && id in M.Open(run[|run| - 1].history)
    ensures M.HasOp(run[|run| - 1].ops, id) && run[|run| - 1].outstanding > 0 && |run[|run| - 1].init| == L.total
  {
    S.RunInv(L, run, |run| - 1);
  }

  // While the machine recovers, no call is open.
  lemma NoneOpen(L: M.Layout, run: seq<M.State>)
    requires M.IsRun(L, run, true) && run[|run| - 1].phase.Recovering?
    ensures M.Open(run[|run| - 1].history) == {}
  {
    var s := run[|run| - 1];
    S.RunInv(L, run, |run| - 1);
    assert forall id :: id in M.Open(s.history) ==> M.HasOp(s.ops, id);
  }

  // A crash, and then the recovery.
  lemma CrashRecorded(L: M.Layout, sb: Super, run: seq<M.State>, run1: seq<M.State>, run2: seq<M.State>, c: nat, snaps: seq<Snap>)
    requires AllRecorded(L, sb, run, snaps) && |run| > 0 && |run1| == |run| + 1 && run <= run1 && run1 <= run2
    requires var s, t := run[|run| - 1], run1[|run|]; t.init == s.init && c <= |s.history| && t.history == s.history[..c]
    requires var t := run1[|run|];
             forall n {:trigger run2[n]} :: |run1| <= n < |run2| ==> run2[n].history == t.history && run2[n].init == t.init
    ensures AllRecorded(L, sb, run2, snaps)
  {
    var s, t := run[|run| - 1], run1[|run|];
    LastRecorded(L, sb, run, snaps);
    RecordedCut(L, sb, s, t, c, snaps, |run|);
    AllOn(L, sb, run, run1, t, snaps);
    AllOn(L, sb, run1, run2, t, snaps);
  }

  lemma ApplyEvent(init: M.Disk, h: seq<M.Event>, e: M.Event)
    ensures M.Open(h + [e]) == M.OpenAfter(M.Open(h), e)
    ensures M.Apply(init, h + [e]) == if e.Write? && 0 <= e.block < |init| then M.Apply(init, h)[e.block := e.data] else M.Apply(init, h)
  {
    assert (h + [e])[..|h|] == h;
  }

  // ------------------------------------------------------------------
  // From the file system's blocks to the log's
  // ------------------------------------------------------------------

  // The file system as the log has it, once the log has got everything.
  lemma BaseOk(L: M.Layout, sb: Super, base: seq<Blk>, disk: seq<Blk>, ino: seq<Inode>, own: seq<Owner>, meta: set<int>, torn: set<int>)
    requires Inv(sb, disk, ino, own, {}) && Settled(own) && FilesOk(disk, ino) && Laid(L, sb, |ino|, meta)
    requires Tracked(base, disk, own, meta, {}, torn)
    ensures forall at :: SnapOk(sb, |ino|, meta, Snap(base, ino, own, at))
  {
    forall b: nat | b < |disk| && (IsMapBlock(sb, b) || (own[b].Owned? && own[b].ref.Indirect?)) ensures base[b] == disk[b] {
      assert BlockTracked(base, disk, own, meta, {}, torn, b);
    }
    forall b: nat | b < |base| ensures |base[b]| == BSIZE {
      assert BlockTracked(base, disk, own, meta, {}, torn, b);
    }
    MetaInv(sb, disk, base, ino, own);
    MetaFiles(sb, disk, base, ino, own);
    forall b | 0 <= b < |own| ensures own[b] == Meta <==> b in meta {
      assert BlockTracked(base, disk, own, meta, {}, torn, b);
    }
  }

  // d has the new contents of the blocks in done, and the old ones of the others.
  ghost predicate Half(d: M.Disk, before: M.Disk, target: M.Disk, done: set<int>) {
    && |d| == |before| == |target|
    && forall b: nat {:trigger d[b]} :: b < |d| ==> d[b] == if b in done then target[b] else before[b]
  }

  lemma HalfMore(d: M.Disk, before: M.Disk, target: M.Disk, done: set<int>, b: nat)
    requires Half(d, before, target, done) && b < |d|
    ensures Half(d[b := target[b]], before, target, done + {b})
  {
  }

  // Once the logged blocks have their new contents, the log has the whole file system.
  lemma HalfDone(L: M.Layout, sb: Super, base: seq<Blk>, disk: seq<Blk>, dbase: seq<Inode>, dino: seq<Inode>, logged: set<int>, d: M.Disk)
    requires InodesOk(dbase) && InodesOk(dino) && |base| == |disk| && InodesTracked(sb, dbase, dino, logged)
    requires Half(d, Image(L, sb, base, dbase), Image(L, sb, disk, dino), logged)
    ensures d == Image(L, sb, Merged(base, disk, logged), dino)
  {
    var e := Image(L, sb, Merged(base, disk, logged), dino);
    forall b: nat | b < |d| ensures d[b] == e[b] {
      var old', new' := Image(L, sb, base, dbase), Image(L, sb, disk, dino);
      assert d[b] == if b in logged then new'[b] else old'[b];
      assert e[b] == ImageAt(L, sb, Merged(base, disk, logged), dino, b);
      assert new'[b] == ImageAt(L, sb, disk, dino, b) && old'[b] == ImageAt(L, sb, base, dbase, b);
      if b !in logged && IsInodeBlock(sb, |dino|, b) {
        SameInodes(sb, dbase, dino, logged, b);
      }
    }
    assert d == e;
  }

  // An inode block that was not logged has the same inodes.
  lemma SameInodes(sb: Super, dbase: seq<Inode>, dino: seq<Inode>, logged: set<int>, b: nat)
    requires InodesOk(dbase) && InodesOk(dino) && InodesTracked(sb, dbase, dino, logged) && b !in logged && sb.inodestart <= b
    ensures InodeBlk(dino, b - sb.inodestart) == InodeBlk(dbase, b - sb.inodestart)
  {
    var m := b - sb.inodestart;
    forall j: nat | j < NINDIRECT ensures BlockWord(dino, m, j) == BlockWord(dbase, m, j) {
      var i := m * IPB + j / DWORDS;
      assert i / IPB == m;
      if i < |dino| {
        assert dino[i] == dbase[i];
      }
    }
    forall p | 0 <= p < BSIZE ensures InodeBlk(dino, m)[p] == InodeBlk(dbase, m)[p] {
      assert BlockWord(dino, m, p / 4) == BlockWord(dbase, m, p / 4);
    }
    assert InodeBlk(dino, m) == InodeBlk(dbase, m);
  }

  lemma SomeOne(s: set<int>)
    requires s != {}
    ensures exists b :: b in s
  {
    assert (forall b :: b !in s) ==> s == {};
  }

  lemma NothingPending(sb: Super, dbase: seq<Inode>, dino: seq<Inode>)
    requires InodesTracked(sb, dbase, dino, {})
    ensures dbase == dino
  {
  }

  lemma EvictOk(sb: Super, base: seq<Blk>, disk: seq<Blk>, ino: seq<Inode>, own: seq<Owner>, meta: set<int>, torn: set<int>, b: nat)
    requires Inv(sb, disk, ino, own, {}) && FilesOk(disk, ino) && Tracked(base, disk, own, meta, {}, torn) && b in torn && b < |disk|
    ensures Inv(sb, disk[b := base[b]], ino, own, {}) && FilesOk(disk[b := base[b]], ino)
    ensures Tracked(base, disk[b := base[b]], own, meta, {}, torn - {b})
  {
    assert BlockTracked(base, disk, own, meta, {}, torn, b);
    var d, rest := disk[b := base[b]], torn - {b};
    MapsAreMeta(sb, disk, ino, own);
    MetaInv(sb, disk, d, ino, own);
    MetaFiles(sb, disk, d, ino, own);
    forall c: nat | c < |disk| ensures BlockTracked(base, d, own, meta, {}, rest, c) {
      assert BlockTracked(base, disk, own, meta, {}, torn, c);
    }
  }

  lemma MapsAreMeta(sb: Super, disk: seq<Blk>, ino: seq<Inode>, own: seq<Owner>)
    requires Inv(sb, disk, ino, own, {})
    ensures forall b: nat {:trigger own[b]} :: b < |disk| && IsMapBlock(sb, b) ==> own[b] == Meta
  {
    forall b: nat | b < |disk| && IsMapBlock(sb, b) ensures own[b] == Meta {
      var c := (b - sb.bmapstart) * BPB;
      assert MapBlock(sb, c) == b;
    }
  }

  // A block that goes to the log is not in the log area.
  lemma Homely(L: M.Layout, sb: Super, n: nat, meta: set<int>, b: int)
    requires Laid(L, sb, n, meta) && Loggable(sb, n, meta, b)
    ensures M.IsHome(L, b) && 0 <= b < sb.size
  {
    if b !in meta {
      assert !M.InLog(L, b);
    }
  }

  // ------------------------------------------------------------------
  // A recovered disk
  // ------------------------------------------------------------------

  // What is read from a disk whose home blocks are those of a snapshot.
  lemma ReadBack(L: M.Layout, sb: Super, n: nat, meta: set<int>, d: M.Disk, s: Snap)
    requires Laid(L, sb, n, meta) && SnapOk(sb, n, meta, s) && |d| == sb.size
    requires M.Overlay(L, d, map[]) == Image(L, sb, s.disk, s.ino)
    ensures Inodes(sb, n, d) == s.ino
    ensures Inv(sb, Blocks(d), s.ino, s.own, {}) && FilesOk(Blocks(d), s.ino)
    ensures Image(L, sb, Blocks(d), s.ino) == Image(L, sb, s.disk, s.ino)
    ensures forall b: nat {:trigger Blocks(d)[b]} :: b < |d| && s.own[b] != Meta ==> Blocks(d)[b] == s.disk[b]
  {
    var img, home := Image(L, sb, s.disk, s.ino), M.Overlay(L, d, map[]);
    InBounds(sb, s.disk, s.ino, s.own);
    forall b: nat | b < |d| && !M.InLog(L, b) ensures d[b] == ImageAt(L, sb, s.disk, s.ino, b) {
      assert home[b] == M.OverlayAt(L, d, map[], b) && img[b] == ImageAt(L, sb, s.disk, s.ino, b);
    }
    InodesBack(L, sb, s.disk, s.ino, meta);
    InodesSame(L, sb, n, meta, d, img);
    forall b: nat | b < |d| && (s.own[b] != Meta || IsMapBlock(sb, b)) ensures Blocks(d)[b] == s.disk[b] {
      assert !M.InLog(L, b) && !IsInodeBlock(sb, n, b);
    }
    MetaInv(sb, s.disk, Blocks(d), s.ino, s.own);
    MetaFiles(sb, s.disk, Blocks(d), s.ino, s.own);
    var e := Image(L, sb, Blocks(d), s.ino);
    forall b: nat | b < |d| ensures e[b] == img[b] {
      assert e[b] == ImageAt(L, sb, Blocks(d), s.ino, b) && img[b] == ImageAt(L, sb, s.disk, s.ino, b);
    }
    assert e == img;
  }

  lemma InodesSame(L: M.Layout, sb: Super, n: nat, meta: set<int>, d: M.Disk, e: M.Disk)
    requires Laid(L, sb, n, meta) && |d| == |e| == sb.size
    requires forall b: nat {:trigger d[b]} :: b < |d| && !M.InLog(L, b) ==> d[b] == e[b]
    ensures Inodes(sb, n, d) == Inodes(sb, n, e)
  {
    forall i: nat | i < n ensures Inodes(sb, n, d)[i] == Inodes(sb, n, e)[i] {
      InodeInside(sb, n, i);
      assert !M.InLog(L, InodeAt(sb, i));
      assert d[InodeAt(sb, i)] == e[InodeAt(sb, i)];
    }
    assert Inodes(sb, n, d) == Inodes(sb, n, e);
  }

  class Jfs {
    const log: C.Log
    const fs: FileSys
    ghost var snaps: seq<Snap>

    // Wherever the run stops, recovery leads to a snapshot.
    ghost predicate Safe()
      reads this, log, log.block, fs
    {
      && log.Valid()
      && Laid(log.L, fs.sb, |fs.dino|, fs.meta)
      && (forall k {:trigger snaps[k]} :: 0 <= k < |snaps| ==> SnapOk(fs.sb, |fs.dino|, fs.meta, snaps[k]))
      && AllRecorded(log.L, fs.sb, log.run, snaps)
    }

    // Between the parts of calls: what the log will have is the file system as it is.
    ghost predicate Valid()
      reads this, log, log.block, fs
    {
      && Safe()
      && FileData.Valid(fs) && fs.logged == {}
      && log.Now().phase == M.Idle
      && M.Apply(log.Now().init, log.Now().history) == Image(log.L, fs.sb, fs.base, fs.dino)
    }

    // The main result: at every point of the run so far, a crash and a recovery would give a disk
    // that reads as a snapshot.
    lemma CrashAnywhere(n: nat) returns (k: nat)
      requires Safe() && n < |log.run|
      ensures M.DiskOk(log.L, log.run[n].disk) && k < |snaps| && SnapOk(fs.sb, |fs.dino|, fs.meta, snaps[k]) && snaps[k].at <= n
      ensures var d := M.Durable(log.L, log.run[n].disk);
              && d == Image(log.L, fs.sb, snaps[k].disk, snaps[k].ino)
              && Inodes(fs.sb, |fs.dino|, d) == snaps[k].ino
              && Inv(fs.sb, Blocks(d), snaps[k].ino, snaps[k].own, {}) && FilesOk(Blocks(d), snaps[k].ino)
              && forall b: nat {:trigger Blocks(d)[b]} :: b < |d| && snaps[k].own[b] != Meta ==> Blocks(d)[b] == snaps[k].disk[b]
    {
      var s := log.run[n];
      S.RunInv(log.L, log.run, n);
      assert Recorded(log.L, fs.sb, log.run[n], snaps, n);
      assert M.Open(s.history[..s.captured]) == {};
      var j :| 0 <= j < |snaps| && SnapIs(log.L, fs.sb, M.Apply(s.init, s.history[..s.captured]), snaps[j]) && snaps[j].at <= n;
      k := j;
      var d := M.Durable(log.L, s.disk);
      assert M.Overlay(log.L, d, map[]) == d;
      ReadBack(log.L, fs.sb, |fs.dino|, fs.meta, d, snaps[k]);
    }

    // mkfs has made a disk with an empty log, and the file system has been read from it.
    constructor (L: M.Layout, fs: FileSys, disk: M.Disk)
      requires FileData.Valid(fs) && fs.logged == {} && Laid(L, fs.sb, |fs.dino|, fs.meta)
      requires M.DiskOk(L, disk) && M.Entries(disk[L.start]) == [] && M.Overlay(L, disk, map[]) == Image(L, fs.sb, fs.base, fs.dino)
      ensures Valid() && this.fs == fs && fresh(log) && fresh(log.block) && log.L == L
      ensures snaps == [Snap(fs.base, fs.ino, fs.own, 0)] && log.Now().history == []
    {
      var lg := new C.Log(L, disk);
      lg.RecoverFromLog();
      this.log, this.fs := lg, fs;
      snaps := [Snap(fs.base, fs.ino, fs.own, 0)];
      new;
      BaseOk(L, fs.sb, fs.base, fs.disk, fs.ino, fs.own, fs.meta, fs.torn);
      S.EmptyHeader(L, disk);
      FirstPoint(L, fs.sb, log.run, M.Durable(L, disk), Snap(fs.base, fs.ino, fs.own, 0));
    }

    // begin_op.
    method Begin(ghost id: nat) returns (ok: bool)
      requires Valid() && M.MayFollow(log.Now().history, M.Begin(id))
      modifies log
      ensures Valid() && ok == M.MayBegin(old(log.Now()))
      ensures log.Now().history == old(log.Now()).history + if ok then [M.Begin(id)] else []
    {
      ghost var s := log.Now();
      ok := log.BeginOp(id);
      if ok {
        ghost var t := log.Now();
        ApplyEvent(s.init, s.history, M.Begin(id));
        assert id in M.Open(t.history);
        LastRecorded(log.L, fs.sb, old(log.run), snaps);
        RecordedEvent(log.L, fs.sb, s, t, M.Begin(id), snaps, |old(log.run)|);
        AllOn(log.L, fs.sb, old(log.run), log.run, t, snaps);
      } else {
        assert log.Now().history + [] == log.Now().history;
      }
    }

    // log_write of every block the call has changed.
    method LogAll(ghost id: nat) returns (panicked: bool)
      requires Safe() && FileData.Valid(fs) && log.Now().phase == M.Idle && id in M.Open(log.Now().history)
      requires InodesOk(fs.dbase) && M.Apply(log.Now().init, log.Now().history) == Image(log.L, fs.sb, fs.base, fs.dbase)
      modifies log, log.block, fs`base, fs`dbase, fs`torn, fs`logged
      ensures Safe() && id in M.Open(log.Now().history) && FileData.Valid(fs)
      ensures !panicked ==> Valid() && fs.torn == old(fs.torn) - old(fs.logged)
    {
      var todo := fs.logged;
      ghost var before, target := Image(log.L, fs.sb, fs.base, fs.dbase), Image(log.L, fs.sb, fs.disk, fs.dino);
      while todo != {}
        modifies log, log.block
        invariant todo <= fs.logged && Safe() && log.Now().phase == M.Idle && id in M.Open(log.Now().history)
        invariant Half(M.Apply(log.Now().init, log.Now().history), before, target, fs.logged - todo)
        decreases |todo|
      {
        SomeOne(todo);
        var b :| b in todo;
        assert Loggable(fs.sb, |fs.dino|, fs.meta, b);
        panicked := LogOne(id, b, before, target, fs.logged - todo);
        if panicked {
          return;
        }
        assert fs.logged - todo + {b} == fs.logged - (todo - {b});
        todo := todo - {b};
      }
      assert fs.logged - {} == fs.logged;
      HalfDone(log.L, fs.sb, fs.base, fs.disk, fs.dbase, fs.dino, fs.logged, M.Apply(log.Now().init, log.Now().history));
      fs.Flush();
      panicked := false;
    }

    method LogOne(ghost id: nat, b: int, ghost before: M.Disk, ghost target: M.Disk, ghost done: set<int>) returns (panicked: bool)
      requires Safe() && FileData.Valid(fs) && log.Now().phase == M.Idle && id in M.Open(log.Now().history)
      requires Loggable(fs.sb, |fs.dino|, fs.meta, b) && target == Image(log.L, fs.sb, fs.disk, fs.dino)
      requires Half(M.Apply(log.Now().init, log.Now().history), before, target, done)
      modifies log, log.block
      ensures Safe() && log.Now().phase == M.Idle && id in M.Open(log.Now().history)
      ensures !panicked ==> Half(M.Apply(log.Now().init, log.Now().history), before, target, done + {b})
    {
      MayWrite(log.L, log.run, id);
      Homely(log.L, fs.sb, |fs.dino|, fs.meta, b);
      ghost var run0 := log.run;
      var data := ImageAt(log.L, fs.sb, fs.disk, fs.dino, b);
      var r := log.LogWrite(id, b, data);
      panicked := r != C.Logged;
      if !panicked {
        WriteRecorded(log.L, fs.sb, run0, log.run, id, b, data, snaps);
        assert target[b] == data;
        HalfMore(M.Apply(run0[|run0| - 1].init, run0[|run0| - 1].history), before, target, done, b);
      }
    }

    // writei within a call, with its log_writes.
    method Write(ghost id: nat, i: nat, off: nat, n: nat, src: seq<int>, part: nat) returns (panicked: bool, r: int, ghost laid: seq<int>)
      requires Valid() && id in M.Open(log.Now().history) && i < |fs.ino| && off < U32 && n < U32
      modifies log, log.block, fs
      ensures Safe() && id in M.Open(log.Now().history) && FileData.Valid(fs)
      ensures WriteDone(old(fs.disk), old(fs.ino), old(fs.own), fs.disk, fs.ino, fs.own, i, off, n, |src|, part, r, laid)
      ensures |laid| <= |src| && laid == src[..|laid|]
      ensures !panicked ==> Valid() && (n <= |src| ==> fs.torn <= old(fs.torn))
    {
      NothingPending(fs.sb, fs.dbase, fs.dino);
      r, laid := Writei(fs, i, off, n, src, part);
      panicked := LogAll(id);
    }

    // itrunc likewise.
    method Truncate(ghost id: nat, i: nat) returns (panicked: bool)
      requires Valid() && id in M.Open(log.Now().history) && i < |fs.ino|
      modifies log, log.block, fs
      ensures Safe() && id in M.Open(log.Now().history) && FileData.Valid(fs)
      ensures OneEmptied(old(fs.disk), old(fs.ino), fs.disk, fs.ino, i)
      ensures !panicked ==> Valid() && fs.torn <= old(fs.torn)
    {
      NothingPending(fs.sb, fs.dbase, fs.dino);
      FileData.Truncate(fs, i);
      panicked := LogAll(id);
    }

    // end_op.  When the last call ends, a crash from now on keeps the file system as it is.
    method End(ghost id: nat)
      requires Valid() && id in M.Open(log.Now().history)
      modifies log, this`snaps
      ensures Valid() && log.Now().history == old(log.Now()).history + [M.End(id)]
      ensures snaps == old(snaps) + if M.Open(log.Now().history) == {} then [Snap(fs.base, fs.ino, fs.own, |old(log.run)|)] else []
      ensures M.Open(log.Now().history) == {} ==>
                M.DiskOk(log.L, log.disk) && M.Durable(log.L, log.disk) == Image(log.L, fs.sb, fs.base, fs.ino)
    {
      ghost var run0 := log.run;
      MayWrite(log.L, log.run, id);
      var panicked := log.EndOp(id);
      BaseOk(log.L, fs.sb, fs.base, fs.disk, fs.ino, fs.own, fs.meta, fs.torn);
      EndRecorded(log.L, fs.sb, run0, log.run, id, snaps, Snap(fs.base, fs.ino, fs.own, |run0|));
      if M.Open(log.Now().history) == {} {
        Durably();
      }
      snaps := snaps + if M.Open(log.Now().history) == {} then [Snap(fs.base, fs.ino, fs.own, |run0|)] else [];
    }

    lemma Durably()
      requires log.Valid() && log.Now().phase == M.Idle && M.Open(log.Now().history) == {}
      ensures M.DiskOk(log.L, log.disk) && M.Durable(log.L, log.disk) == M.Apply(log.Now().init, log.Now().history)
    {
      var s := log.Now();
      S.CrashAtomicity(log.L, log.run, |log.run| - 1);
      S.RunInv(log.L, log.run, |log.run| - 1);
      assert s.history[..|s.history|] == s.history;
      if s.ops != [] {
        assert s.ops[0].id in M.Open(s.history);
      }
    }

    // Without failed copies, the log has the file system as it is read.
    lemma NothingTorn()
      requires Valid() && fs.torn == {}
      ensures fs.base == fs.disk
    {
      forall b: nat | b < |fs.disk| ensures fs.base[b] == fs.disk[b] {
        assert BlockTracked(fs.base, fs.disk, fs.own, fs.meta, fs.logged, fs.torn, b);
      }
    }

    // The cache recycles the buffer of a block that a failed copy has changed and that is not pinned:
    // the next bread finds what the log has.
    method Evict(b: nat)
      requires Valid() && b in fs.torn && b < |fs.disk| && b !in log.mem
      modifies fs`disk, fs`torn
      ensures Valid() && b < |fs.base| && fs.disk == old(fs.disk)[b := fs.base[b]] && fs.torn == old(fs.torn) - {b}
    {
      assert BlockTracked(fs.base, fs.disk, fs.own, fs.meta, fs.logged, fs.torn, b);
      S.ReadsSeeWrites(log.L, log.run, |log.run| - 1);
      assert M.Overlay(log.L, log.disk, log.mem)[b] == M.OverlayAt(log.L, log.disk, log.mem, b);
      assert Image(log.L, fs.sb, fs.base, fs.dino)[b] == ImageAt(log.L, fs.sb, fs.base, fs.dino, b);
      assert b !in fs.meta;
      EvictOk(fs.sb, fs.base, fs.disk, fs.ino, fs.own, fs.meta, fs.torn, b);
      fs.disk := fs.disk[b := BlkOf(log.disk[b])];
      fs.torn := fs.torn - {b};
    }

    // Power fails at any point, and the machine boots: recovery, and then the file system is read
    // from the disk.  It is one of the snapshots.
    method Crash() returns (ghost k: nat)
      requires Safe()
      modifies log, log.block, fs
      ensures Valid() && snaps == old(snaps) && k < |snaps| && fs.ino == snaps[k].ino && fs.own == snaps[k].own
      ensures fs.torn == {} && |fs.disk| == |snaps[k].disk|
      ensures forall b: nat {:trigger fs.disk[b]} :: b < |fs.disk| && fs.own[b] != Meta ==> fs.disk[b] == snaps[k].disk[b]
    {
      Restart();
      k := Recovered();
      Reload(k);
    }

    // The log's part of it.
    method Restart()
      requires Safe()
      modifies log, log.block
      ensures Safe() && log.Now().phase == M.Idle && M.Open(log.Now().history) == {}
      ensures M.Overlay(log.L, log.disk, map[]) == M.Apply(log.Now().init, log.Now().history)
    {
      ghost var run0 := log.run;
      log.Reboot();
      ghost var run1 := log.run;
      NoneOpen(log.L, run1);
      log.RecoverFromLog();
      CrashRecorded(log.L, fs.sb, run0, run1, log.run, run0[|run0| - 1].captured, snaps);
    }

    // With no call open, the history leads to a snapshot.
    lemma Recovered() returns (k: nat)
      requires Safe() && M.Open(log.Now().history) == {}
      ensures k < |snaps| && SnapIs(log.L, fs.sb, M.Apply(log.Now().init, log.Now().history), snaps[k])
    {
      var s := log.Now();
      LastRecorded(log.L, fs.sb, log.run, snaps);
      assert s.history[..|s.history|] == s.history;
      var j :| 0 <= j < |snaps| && SnapIs(log.L, fs.sb, M.Apply(s.init, s.history), snaps[j]);
      k := j;
    }

    // Reading the file system from the disk.
    method Reload(ghost k: nat)
      requires Safe() && k < |snaps| && log.Now().phase == M.Idle
      requires SnapIs(log.L, fs.sb, M.Apply(log.Now().init, log.Now().history), snaps[k])
      requires M.Overlay(log.L, log.disk, map[]) == M.Apply(log.Now().init, log.Now().history)
      modifies fs
      ensures Valid() && fs.ino == snaps[k].ino && fs.own == snaps[k].own && fs.torn == {} && |fs.disk| == |snaps[k].disk|
      ensures forall b: nat {:trigger fs.disk[b]} :: b < |fs.disk| && fs.own[b] != Meta ==> fs.disk[b] == snaps[k].disk[b]
    {
      ghost var snap := snaps[k];
      ReadBack(log.L, fs.sb, |fs.dino|, fs.meta, log.disk, snap);
      var n := |fs.dino|;
      fs.disk, fs.ino := Blocks(log.disk), Inodes(fs.sb, n, log.disk);
      fs.dino, fs.logged := fs.ino, {};
      fs.own, fs.base, fs.dbase, fs.torn := snap.own, fs.disk, fs.ino, {};
      forall b: nat | b < |fs.disk| ensures BlockTracked(fs.base, fs.disk, fs.own, fs.meta, {}, {}, b) {
      }
    }
  }

  // A disk as mkfs leaves it, with n empty inodes and an empty log: the first nmeta blocks are marked
  // in the bitmap and hold the log, the inodes and the bitmap, in places of their own.
  method Mount(L: M.Layout, sb: Super, disk: seq<Blk>, n: nat, nmeta: nat) returns (j: Jfs)
    requires DiskOk(sb, disk) && sb.bmapstart + (sb.size - 1) / BPB < nmeta <= sb.size
    requires forall b: nat :: b < sb.size ==> (Marked(sb, disk, b) <==> b < nmeta)
    requires M.Wf(L) && L.total == sb.size && L.start + L.size <= sb.inodestart
    requires sb.inodestart + (n + IPB - 1) / IPB <= sb.bmapstart
    ensures j.Valid() && fresh(j) && fresh(j.fs) && fresh(j.log) && fresh(j.log.block) && j.log.L == L && j.fs.sb == sb
    ensures |j.fs.ino| == n && forall i: nat {:trigger j.fs.ino[i]} :: i < n ==> j.fs.ino[i].size == 0
  {
    var fs := new FileSys(sb, disk, n, nmeta);
    assert Laid(L, sb, n, fs.meta) by {
      forall b | M.InLog(L, b) || IsInodeBlock(sb, n, b) || IsMapBlock(sb, b) ensures b in fs.meta {
        assert fs.own[b] == Meta;
      }
    }
    var d := Image(L, sb, disk, fs.dino);
    assert M.Overlay(L, d, map[]) == d;
    assert M.Entries(d[L.start]) == [];
    j := new Jfs(L, fs, d);
  }
}
