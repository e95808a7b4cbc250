/**
  filewrite of kernel/file.c: a large write in transactions small enough for the log.
 */
module FileWrite {
  import opened FsModel
  import opened FsCode
  import opened FileSpace
  import opened FileData

  const MAXOPBLOCKS: nat := 10

  class File {
    const ip: nat
    const writable: bool
    var off: nat

    constructor (ip: nat, writable: bool)
      ensures this.ip == ip && this.writable == writable && off == 0
    {
      this.ip, this.writable, off := ip, writable, 0;
    }
  }

  const CHUNK: nat := (MAXOPBLOCKS - 1 - 1 - 2) / 2 * BSIZE

  // A chunk spans at most four blocks, and at most three of them are new.
  lemma ChunkFits(off: nat, n: nat)
    requires n <= CHUNK
    ensures Spans(off, n) + NewSpans(off, n) + 3 <= MAXOPBLOCKS
  {
    if n > 0 {
      var k := off / BSIZE;
      assert off == k * BSIZE + off % BSIZE;
      if off % BSIZE == 0 {
        assert (off + n - 1) / BSIZE <= k + 2;
      } else {
        assert (off + n - 1) / BSIZE <= k + 3;
      }
    }
  }

  // One transaction of filewrite.
  method WriteOp(f: File, fs: FileSys, n: nat, src: seq<int>, part: nat) returns (r: int, ghost laid: seq<int>)
    requires Valid(fs) && f.ip < |fs.ino| && f.off < U32 && n <= CHUNK
    modifies fs, f
    ensures Valid(fs) && f.off < U32 && |fs.logged| <= MAXOPBLOCKS
    ensures WriteDone(old(fs.disk), old(fs.ino), old(fs.own), fs.disk, fs.ino, fs.own, f.ip, old(f.off), n, |src|, part, r, laid)
    ensures |laid| <= |src| && laid == src[..|laid|] && f.off == old(f.off) + (if r == -1 then 0 else r)
  {
    fs.Flush();
    ChunkFits(f.off, n);
    r, laid := Writei(fs, f.ip, f.off, n, src, part);
    if r > 0 {
      f.off := f.off + r;
    }
  }

  lemma OverlayTwice(s: seq<int>, off: nat, x: seq<int>, y: seq<int>)
    requires off <= |s|
    ensures Overlay(Overlay(s, off, x), off + |x|, y) == Overlay(s, off, x + y)
  {
  }

  lemma TwoWrites(disk0: seq<Blk>, ino0: seq<Inode>, disk1: seq<Blk>, ino1: seq<Inode>, disk2: seq<Blk>, ino2: seq<Inode>,
                  i: nat, off: nat, x: seq<int>, y: seq<int>, size: nat)
    requires InodesOk(ino0) && InodesOk(ino1) && InodesOk(ino2)
    requires Sized(disk0) && Sized(disk1) && Sized(disk2)
    requires FilesOk(disk0, ino0) && FilesOk(disk1, ino1) && FilesOk(disk2, ino2)
    requires i < |ino0| == |ino1| && ino1[i].size == Max(ino0[i].size, off + |x|)
    requires FilesAfter(disk0, ino0, disk1, ino1, i, off, x, ino1[i].size)
    requires FilesAfter(disk1, ino1, disk2, ino2, i, off + |x|, y, size)
    ensures FilesAfter(disk0, ino0, disk2, ino2, i, off, x + y, size)
  {
    var s := Content(disk0, ino0, i);
    assert Content(disk1, ino1, i) == Overlay(s, off, x);
    OverlayTwice(s, off, x, y);
    forall j: nat | j < |ino2| && j != i ensures Content(disk2, ino2, j) == Content(disk0, ino0, j) {
      assert Content(disk1, ino1, j) == Content(disk0, ino0, j);
    }
  }

  // A write of nothing.
  lemma NoWrite(disk: seq<Blk>, ino: seq<Inode>, i: nat, off: nat)
    requires InodesOk(ino) && Sized(disk) && FilesOk(disk, ino) && i < |ino| && off <= ino[i].size
    ensures FilesAfter(disk, ino, disk, ino, i, off, [], ino[i].size)
  {
    var s := Content(disk, ino, i);
    assert Overlay(s, off, []) == s;
    assert s[..|s|] == s;
  }

  // What filewrite has done to the files when "done" bytes are written: x lies over the file at
  // off, or nothing has happened because off is past its end.
  ghost predicate Progress(disk0: seq<Blk>, ino0: seq<Inode>, disk: seq<Blk>, ino: seq<Inode>, i: nat, off: nat, x: seq<int>, done: nat)
    requires InodesOk(ino0) && InodesOk(ino)
    requires Sized(disk0) && Sized(disk)
    requires FilesOk(disk0, ino0) && FilesOk(disk, ino)
  {
    && i < |ino| == |ino0|
    && if off > ino0[i].size then
         done == 0 && x == [] && disk == disk0 && ino == ino0
       else
         && ino[i].size == Max(ino0[i].size, off + done)
         && FilesAfter(disk0, ino0, disk, ino, i, off, x, ino[i].size)
  }

  // ------------------------------------------------------------------
  // How the whole write ends
  // ------------------------------------------------------------------

  // Where the transaction starts that has byte k.
  function OpStart(k: nat): nat {
    k / CHUNK * CHUNK
  }

  // Told from the state before: the write is complete exactly when the memory delivers, the file
  // stays within bounds and the disk has room; a copy fails exactly when the memory ends early, the
  // transaction where it ends stays within bounds, and there is room up to the block where it ends.
  ghost predicate FileOutcome(disk0: seq<Blk>, ino0: seq<Inode>, own0: seq<Owner>, i: nat, off: nat, n: nat, avail: nat, part: nat,
                              done: nat, torn: nat)
    requires InodesOk(ino0) && Sized(disk0) && i < |ino0|
  {
    var a, q := off / BSIZE, OpStart(avail);
    && (done == n <==> n <= avail && off + n <= MAXBYTES && (n == 0 || Fits(disk0, ino0, own0, i, a, a + Spans(off, n))))
    && if avail < n && off + Min(n, q + CHUNK) <= MAXBYTES && Fits(disk0, ino0, own0, i, a, (off + avail) / BSIZE + 1)
       then done == q + ChunkStart(off + q, avail - q) <= avail && torn == Min(part, avail - done)
       else torn == 0
  }

  // Room for what is still to come, after tot bytes.
  ghost predicate Ledger(disk0: seq<Blk>, ino0: seq<Inode>, own0: seq<Owner>, disk: seq<Blk>, ino: seq<Inode>, own: seq<Owner>,
                         i: nat, off: nat, tot: nat)
    requires InodesOk(ino0) && Sized(disk0) && InodesOk(ino) && Sized(disk) && i < |ino0| == |ino|
  {
    && Track(disk0, ino0, own0, disk, ino, own, i, off / BSIZE, off / BSIZE + Spans(off, tot))
    && (tot > 0 ==> off + tot <= MAXBYTES && Fits(disk0, ino0, own0, i, off / BSIZE, off / BSIZE + Spans(off, tot)))
  }

  // Two writes in a row touch the blocks of one.
  lemma SpansJoin(off: nat, i: nat, n: nat, at: nat)
    requires n > 0 && at == off + i
    ensures var a, f, c := off / BSIZE, at / BSIZE, off / BSIZE + Spans(off, i);
            && a <= f && (f == c || (f + 1 == c && f * BSIZE < at))
            && f + Spans(at, n) == a + Spans(off, i + n) && Spans(at, n) > 0
  {
    if i > 0 {
      var k := (at - 1) / BSIZE;
      assert k * BSIZE <= at - 1 < (k + 1) * BSIZE;
    }
  }

  // What fits after i bytes is what fitted at the start.
  lemma SameFits(disk0: seq<Blk>, ino0: seq<Inode>, own0: seq<Owner>, disk: seq<Blk>, ino: seq<Inode>, own: seq<Owner>,
                 i: nat, off: nat, tot: nat, at: nat, b: nat)
    requires InodesOk(ino0) && Sized(disk0) && InodesOk(ino) && Sized(disk) && i < |ino0| == |ino|
    requires Ledger(disk0, ino0, own0, disk, ino, own, i, off, tot) && Backed(disk, ino, i, at)
    requires at == off + tot && at / BSIZE < b
    ensures Fits(disk, ino, own, i, at / BSIZE, b) <==> Fits(disk0, ino0, own0, i, off / BSIZE, b)
  {
    if b <= MAXFILE {
      SpansJoin(off, tot, 1, at);
      TrackFrom(disk0, ino0, own0, disk, ino, own, i, off / BSIZE, off / BSIZE + Spans(off, tot), at / BSIZE, b);
    }
  }

  // A transaction that wrote all it should.
  lemma LedgerThen(disk0: seq<Blk>, ino0: seq<Inode>, own0: seq<Owner>, disk1: seq<Blk>, ino1: seq<Inode>, own1: seq<Owner>,
                   disk2: seq<Blk>, ino2: seq<Inode>, own2: seq<Owner>, i: nat, off: nat, tot: nat, at: nat, n: nat, avail: nat, part: nat, torn: nat)
    requires InodesOk(ino0) && Sized(disk0) && InodesOk(ino1) && Sized(disk1) && InodesOk(ino2) && Sized(disk2)
    requires i < |ino0| == |ino1| == |ino2| && n > 0 && at == off + tot && at + n <= MAXBYTES
    requires Ledger(disk0, ino0, own0, disk1, ino1, own1, i, off, tot) && Backed(disk1, ino1, i, at)
    requires Outcome(disk1, ino1, own1, i, at, n, avail, part, n, torn)
    requires Track(disk1, ino1, own1, disk2, ino2, own2, i, at / BSIZE, at / BSIZE + Spans(at, n))
    ensures Ledger(disk0, ino0, own0, disk2, ino2, own2, i, off, tot + n)
  {
    SpansJoin(off, tot, n, at);
    var a, f, c1, c2 := off / BSIZE, at / BSIZE, off / BSIZE + Spans(off, tot), off / BSIZE + Spans(off, tot + n);
    TrackThen(disk0, ino0, own0, disk1, ino1, own1, disk2, ino2, own2, i, a, c1, f, c2);
    SameFits(disk0, ino0, own0, disk1, ino1, own1, i, off, tot, at, c2);
  }

  // A transaction that did not.
  ghost predicate Stopped(disk0: seq<Blk>, ino0: seq<Inode>, own0: seq<Owner>, disk1: seq<Blk>, ino1: seq<Inode>, own1: seq<Owner>,
                          i: nat, off: nat, n: nat, k: nat, tot: nat, n1: nat, avail: nat, part: nat, at: nat, left: nat, r: int, torn: nat)
    requires InodesOk(ino0) && Sized(disk0) && InodesOk(ino1) && Sized(disk1) && i < |ino0| == |ino1|
  {
    && tot == k * CHUNK && tot < n && tot <= avail && n1 == Min(n - tot, CHUNK) && at == off + tot && left == avail - tot
    && Ledger(disk0, ino0, own0, disk1, ino1, own1, i, off, tot) && Backed(disk1, ino1, i, at)
    && if r == -1 then at + n1 > MAXBYTES && torn == 0
       else 0 <= r < n1 && at + n1 <= MAXBYTES && Outcome(disk1, ino1, own1, i, at, n1, left, part, r, torn)
  }

  lemma OpStops(disk0: seq<Blk>, ino0: seq<Inode>, own0: seq<Owner>, disk1: seq<Blk>, ino1: seq<Inode>, own1: seq<Owner>,
                i: nat, off: nat, n: nat, k: nat, tot: nat, n1: nat, avail: nat, part: nat, at: nat, left: nat, r: int, torn: nat)
    requires InodesOk(ino0) && Sized(disk0) && InodesOk(ino1) && Sized(disk1) && i < |ino0| == |ino1|
    requires Stopped(disk0, ino0, own0, disk1, ino1, own1, i, off, n, k, tot, n1, avail, part, at, left, r, torn)
    ensures FileOutcome(disk0, ino0, own0, i, off, n, avail, part, tot + (if r == -1 then 0 else r), torn)
  {
    StopsShort(disk0, ino0, own0, disk1, ino1, own1, i, off, n, k, tot, n1, avail, part, at, left, r, torn);
    StopsTorn(disk0, ino0, own0, disk1, ino1, own1, i, off, n, k, tot, n1, avail, part, at, left, r, torn);
  }

  // There was something missing for the whole write.
  lemma StopsShort(disk0: seq<Blk>, ino0: seq<Inode>, own0: seq<Owner>, disk1: seq<Blk>, ino1: seq<Inode>, own1: seq<Owner>,
                   i: nat, off: nat, n: nat, k: nat, tot: nat, n1: nat, avail: nat, part: nat, at: nat, left: nat, r: int, torn: nat)
    requires InodesOk(ino0) && Sized(disk0) && InodesOk(ino1) && Sized(disk1) && i < |ino0| == |ino1|
    requires Stopped(disk0, ino0, own0, disk1, ino1, own1, i, off, n, k, tot, n1, avail, part, at, left, r, torn)
    ensures avail < n || off + n > MAXBYTES || !Fits(disk0, ino0, own0, i, off / BSIZE, off / BSIZE + Spans(off, n))
  {
    var a, e1, e := off / BSIZE, off / BSIZE + Spans(off, tot + n1), off / BSIZE + Spans(off, n);
    if avail >= n && r != -1 && Fits(disk0, ino0, own0, i, a, e) {
      SpansMono(off, tot + n1, n);
      FitsMono(disk0, ino0, own0, i, a, e1, e);
      SpansJoin(off, tot, n1, at);
      SameFits(disk0, ino0, own0, disk1, ino1, own1, i, off, tot, at, e1);
      assert false;
    }
  }

  // The memory ends in this transaction.
  lemma TornHere(disk0: seq<Blk>, ino0: seq<Inode>, own0: seq<Owner>, disk1: seq<Blk>, ino1: seq<Inode>, own1: seq<Owner>,
                 i: nat, off: nat, n: nat, k: nat, tot: nat, n1: nat, avail: nat, part: nat, at: nat, left: nat, r: int, torn: nat)
    requires InodesOk(ino0) && Sized(disk0) && InodesOk(ino1) && Sized(disk1) && i < |ino0| == |ino1|
    requires Stopped(disk0, ino0, own0, disk1, ino1, own1, i, off, n, k, tot, n1, avail, part, at, left, r, torn) && avail < tot + n1
    ensures var done := tot + (if r == -1 then 0 else r);
            if off + tot + n1 <= MAXBYTES && Fits(disk0, ino0, own0, i, off / BSIZE, (off + avail) / BSIZE + 1)
            then done == tot + ChunkStart(off + tot, avail - tot) <= avail && torn == Min(part, avail - done)
            else torn == 0
  {
    if r != -1 {
      SameFits(disk0, ino0, own0, disk1, ino1, own1, i, off, tot, at, (off + avail) / BSIZE + 1);
    }
  }

  // What the failed copy has done.
  lemma StopsTorn(disk0: seq<Blk>, ino0: seq<Inode>, own0: seq<Owner>, disk1: seq<Blk>, ino1: seq<Inode>, own1: seq<Owner>,
                  i: nat, off: nat, n: nat, k: nat, tot: nat, n1: nat, avail: nat, part: nat, at: nat, left: nat, r: int, torn: nat)
    requires InodesOk(ino0) && Sized(disk0) && InodesOk(ino1) && Sized(disk1) && i < |ino0| == |ino1|
    requires Stopped(disk0, ino0, own0, disk1, ino1, own1, i, off, n, k, tot, n1, avail, part, at, left, r, torn)
    ensures var q, done := OpStart(avail), tot + (if r == -1 then 0 else r);
            if avail < n && off + Min(n, q + CHUNK) <= MAXBYTES && Fits(disk0, ino0, own0, i, off / BSIZE, (off + avail) / BSIZE + 1)
            then done == q + ChunkStart(off + q, avail - q) <= avail && torn == Min(part, avail - done)
            else torn == 0
  {
    InOp(k, tot, n, n1, avail);
    if avail < tot + n1 {
      TornHere(disk0, ino0, own0, disk1, ino1, own1, i, off, n, k, tot, n1, avail, part, at, left, r, torn);
    } else {
      TornLater(disk0, ino0, own0, disk1, ino1, own1, i, off, n, k, tot, n1, avail, part, at, left, r, torn);
    }
  }

  // The memory reaches further, so a block was missing.
  lemma TornLater(disk0: seq<Blk>, ino0: seq<Inode>, own0: seq<Owner>, disk1: seq<Blk>, ino1: seq<Inode>, own1: seq<Owner>,
                  i: nat, off: nat, n: nat, k: nat, tot: nat, n1: nat, avail: nat, part: nat, at: nat, left: nat, r: int, torn: nat)
    requires InodesOk(ino0) && Sized(disk0) && InodesOk(ino1) && Sized(disk1) && i < |ino0| == |ino1|
    requires Stopped(disk0, ino0, own0, disk1, ino1, own1, i, off, n, k, tot, n1, avail, part, at, left, r, torn) && avail >= tot + n1
    ensures torn == 0
    ensures off + tot + n1 > MAXBYTES || !Fits(disk0, ino0, own0, i, off / BSIZE, (off + avail) / BSIZE + 1)
  {
    var a, last, e1 := off / BSIZE, (off + avail) / BSIZE, off / BSIZE + Spans(off, tot + n1);
    if r != -1 && Fits(disk0, ino0, own0, i, a, last + 1) {
      SpansReach(off, tot + n1, avail);
      FitsMono(disk0, ino0, own0, i, a, e1, last + 1);
      SpansJoin(off, tot, n1, at);
      SameFits(disk0, ino0, own0, disk1, ino1, own1, i, off, tot, at, e1);
      assert false;
    }
  }

  lemma Quotient(a: nat, k: nat)
    requires k * 3072 <= a
    ensures k <= a / 3072 && k * 3072 <= a / 3072 * 3072
    ensures a < (k + 1) * 3072 ==> a / 3072 == k
  {
  }

  // Transaction k is the one where the memory ends, or it ends later.
  lemma InOp(k: nat, tot: nat, n: nat, n1: nat, avail: nat)
    requires tot == k * CHUNK && tot < n && tot <= avail && n1 == Min(n - tot, CHUNK)
    ensures avail < tot + n1 ==> OpStart(avail) == tot && Min(n, OpStart(avail) + CHUNK) == tot + n1
    ensures avail >= tot + n1 ==> Min(n, OpStart(avail) + CHUNK) >= tot + n1
    ensures OpStart(avail) <= avail
  {
    assert CHUNK == 3072;
    Quotient(avail, k);
  }

  lemma SpansMono(off: nat, m: nat, n: nat)
    requires m <= n
    ensures Spans(off, m) <= Spans(off, n)
  {
  }

  lemma SpansReach(off: nat, m: nat, k: nat)
    requires 0 < m <= k
    ensures off / BSIZE + Spans(off, m) <= (off + k) / BSIZE + 1
  {
  }

  // Between two transactions: x is in place, and there is room as before for the rest.
  ghost predicate Between(disk0: seq<Blk>, ino0: seq<Inode>, own0: seq<Owner>, disk: seq<Blk>, ino: seq<Inode>, own: seq<Owner>,
                          i: nat, off: nat, x: seq<int>)
    requires InodesOk(ino0) && Sized(disk0) && FilesOk(disk0, ino0) && InodesOk(ino) && Sized(disk) && FilesOk(disk, ino)
  {
    && Progress(disk0, ino0, disk, ino, i, off, x, |x|)
    && (off <= ino0[i].size ==> Ledger(disk0, ino0, own0, disk, ino, own, i, off, |x|))
  }

  // After the transaction that was to write n more of the total, and wrote r of them.
  ghost predicate After(disk0: seq<Blk>, ino0: seq<Inode>, own0: seq<Owner>, disk: seq<Blk>, ino: seq<Inode>, own: seq<Owner>,
                        i: nat, off: nat, total: nat, n: nat, k: nat, avail: nat, part: nat, r: int, done: nat, laid: seq<int>)
    requires InodesOk(ino0) && Sized(disk0) && FilesOk(disk0, ino0) && InodesOk(ino) && Sized(disk) && FilesOk(disk, ino)
  {
    && (r == -1 || 0 <= r <= n)
    && done <= |laid|
    && Progress(disk0, ino0, disk, ino, i, off, laid, done)
    && if r == n then
         && |laid| == done && (done < total ==> done == (k + 1) * CHUNK)
         && Between(disk0, ino0, own0, disk, ino, own, i, off, laid)
       else
         off <= ino0[i].size ==> FileOutcome(disk0, ino0, own0, i, off, total, avail, part, done, |laid| - done)
  }

  // The next transaction of filewrite, after the first i bytes of src.
  method WriteNext(f: File, fs: FileSys, total: nat, n: nat, i: nat, src: seq<int>, part: nat, ghost k: nat,
                   ghost disk0: seq<Blk>, ghost ino0: seq<Inode>, ghost own0: seq<Owner>, ghost off0: nat, ghost x: seq<int>)
    returns (r: int, ghost done: nat, ghost laid: seq<int>)
    requires Valid(fs) && f.ip < |fs.ino| && f.off < U32 && i < total && n == Min(total - i, CHUNK) && i == k * CHUNK
    requires i <= |src| && f.off == off0 + i && x == src[..i]
    requires InodesOk(ino0) && Sized(disk0) && FilesOk(disk0, ino0)
    requires Between(disk0, ino0, own0, fs.disk, fs.ino, fs.own, f.ip, off0, x)
    modifies fs, f
    ensures Valid(fs) && f.off < U32 && f.off == off0 + done && |fs.logged| <= MAXOPBLOCKS
    ensures done == i + (if r == -1 then 0 else r) && |laid| <= |src| && laid == src[..|laid|]
    ensures After(disk0, ino0, own0, fs.disk, fs.ino, fs.own, f.ip, off0, total, n, k, |src|, part, r, done, laid)
  {
    ghost var disk1, ino1, own1, at := fs.disk, fs.ino, fs.own, f.off;
    var rest := src[i..];
    assert |rest| == |src| - i;
    ghost var y;
    r, y := WriteOp(f, fs, n, rest, part);
    done, laid := i + (if r == -1 then 0 else r), x + y;
    Prefix(src, i, y);
    NextDone(disk0, ino0, own0, disk1, ino1, own1, fs.disk, fs.ino, fs.own, f.ip, off0, total, n, k,
             |src|, part, at, |rest|, x, y, r, done, laid);
  }

  lemma Prefix(src: seq<int>, i: nat, y: seq<int>)
    requires i <= |src| && |y| <= |src| - i && y == src[i..][..|y|]
    ensures src[..i] + y == src[..i + |y|]
  {
  }

  lemma NextDone(disk0: seq<Blk>, ino0: seq<Inode>, own0: seq<Owner>, disk1: seq<Blk>, ino1: seq<Inode>, own1: seq<Owner>,
                 disk2: seq<Blk>, ino2: seq<Inode>, own2: seq<Owner>, p: nat, off: nat, total: nat, n: nat, k: nat,
                 avail: nat, part: nat, at: nat, left: nat, x: seq<int>, y: seq<int>, r: int, done: nat, laid: seq<int>)
    requires InodesOk(ino0) && Sized(disk0) && InodesOk(ino1) && Sized(disk1) && InodesOk(ino2) && Sized(disk2)
    requires FilesOk(disk0, ino0) && FilesOk(disk1, ino1) && FilesOk(disk2, ino2)
    requires |x| == k * CHUNK && |x| < total && |x| <= avail && n == Min(total - |x|, CHUNK)
    requires Between(disk0, ino0, own0, disk1, ino1, own1, p, off, x) && at == off + |x| && left == avail - |x|
    requires WriteDone(disk1, ino1, own1, disk2, ino2, own2, p, at, n, left, part, r, y)
    requires done == |x| + (if r == -1 then 0 else r) && laid == x + y
    ensures After(disk0, ino0, own0, disk2, ino2, own2, p, off, total, n, k, avail, part, r, done, laid)
  {
    NextWritten(disk0, ino0, own0, disk1, ino1, own1, disk2, ino2, own2, p, off, n, part, at, left, x, y, r, done, laid);
    if r == n {
      NextStart(k);
      NextGoes(disk0, ino0, own0, disk1, ino1, own1, disk2, ino2, own2, p, off, n, part, at, left, x, y, laid);
    } else if off <= ino0[p].size {
      HasStopped(disk0, ino0, own0, disk1, ino1, own1, disk2, ino2, own2, p, off, total, n, k, avail, part, at, left, x, y, r, |laid| - done);
      OpStops(disk0, ino0, own0, disk1, ino1, own1, p, off, total, k, |x|, n, avail, part, at, left, r, |laid| - done);
    }
  }

  lemma HasStopped(disk0: seq<Blk>, ino0: seq<Inode>, own0: seq<Owner>, disk1: seq<Blk>, ino1: seq<Inode>, own1: seq<Owner>,
                   disk2: seq<Blk>, ino2: seq<Inode>, own2: seq<Owner>, p: nat, off: nat, total: nat, n: nat, k: nat,
                   avail: nat, part: nat, at: nat, left: nat, x: seq<int>, y: seq<int>, r: int, torn: nat)
    requires InodesOk(ino0) && Sized(disk0) && InodesOk(ino1) && Sized(disk1) && InodesOk(ino2) && Sized(disk2)
    requires FilesOk(disk0, ino0) && FilesOk(disk1, ino1) && FilesOk(disk2, ino2)
    requires |x| == k * CHUNK && |x| < total && |x| <= avail && n == Min(total - |x|, CHUNK)
    requires Between(disk0, ino0, own0, disk1, ino1, own1, p, off, x) && off <= ino0[p].size && r != n
    requires at == off + |x| && left == avail - |x| && torn == if r == -1 then 0 else |y| - r
    requires WriteDone(disk1, ino1, own1, disk2, ino2, own2, p, at, n, left, part, r, y)
    ensures Stopped(disk0, ino0, own0, disk1, ino1, own1, p, off, total, k, |x|, n, avail, part, at, left, r, torn)
  {
    BackedTo(disk1, ino1, p, at);
  }

  lemma NextGoes(disk0: seq<Blk>, ino0: seq<Inode>, own0: seq<Owner>, disk1: seq<Blk>, ino1: seq<Inode>, own1: seq<Owner>,
                 disk2: seq<Blk>, ino2: seq<Inode>, own2: seq<Owner>, p: nat, off: nat, n: nat,
                 part: nat, at: nat, left: nat, x: seq<int>, y: seq<int>, laid: seq<int>)
    requires InodesOk(ino0) && Sized(disk0) && InodesOk(ino1) && Sized(disk1) && InodesOk(ino2) && Sized(disk2)
    requires FilesOk(disk0, ino0) && FilesOk(disk1, ino1) && FilesOk(disk2, ino2)
    requires 0 < n && Between(disk0, ino0, own0, disk1, ino1, own1, p, off, x) && at == off + |x|
    requires WriteDone(disk1, ino1, own1, disk2, ino2, own2, p, at, n, left, part, n, y) && |laid| == |x| + n
    requires Progress(disk0, ino0, disk2, ino2, p, off, laid, |laid|)
    ensures Between(disk0, ino0, own0, disk2, ino2, own2, p, off, laid)
  {
    if off <= ino0[p].size {
      BackedTo(disk1, ino1, p, at);
      LedgerThen(disk0, ino0, own0, disk1, ino1, own1, disk2, ino2, own2, p, off, |x|, at, n, left, part, |y| - n);
    }
  }

  lemma NextStart(k: nat)
    ensures (k + 1) * CHUNK == k * CHUNK + CHUNK
  {
  }

  lemma NextWritten(disk0: seq<Blk>, ino0: seq<Inode>, own0: seq<Owner>, disk1: seq<Blk>, ino1: seq<Inode>, own1: seq<Owner>,
                    disk2: seq<Blk>, ino2: seq<Inode>, own2: seq<Owner>, p: nat, off: nat, n: nat,
                    part: nat, at: nat, left: nat, x: seq<int>, y: seq<int>, r: int, done: nat, laid: seq<int>)
    requires InodesOk(ino0) && Sized(disk0) && InodesOk(ino1) && Sized(disk1) && InodesOk(ino2) && Sized(disk2)
    requires FilesOk(disk0, ino0) && FilesOk(disk1, ino1) && FilesOk(disk2, ino2)
    requires Progress(disk0, ino0, disk1, ino1, p, off, x, |x|) && at == off + |x|
    requires WriteDone(disk1, ino1, own1, disk2, ino2, own2, p, at, n, left, part, r, y)
    requires done == |x| + (if r == -1 then 0 else r) && laid == x + y
    ensures (r == -1 || 0 <= r <= n) && done <= |laid| && Progress(disk0, ino0, disk2, ino2, p, off, laid, done)
    ensures r == n ==> |laid| == done
  {
    if r == -1 {
      assert x + y == x;
    } else {
      TwoWrites(disk0, ino0, disk1, ino1, disk2, ino2, p, off, x, y, ino2[p].size);
    }
  }

  lemma BackedTo(disk: seq<Blk>, ino: seq<Inode>, i: nat, upto: nat)
    requires InodesOk(ino) && Sized(disk) && FilesOk(disk, ino) && i < |ino| && upto <= ino[i].size
    ensures Backed(disk, ino, i, upto)
  {
    assert Backed(disk, ino, i, ino[i].size);
  }

  // filewrite on an inode.  "done" bytes of src have reached the file and moved the offset; the
  // bytes "laid" over the file are these and those of a copy that failed inside a block.  "ops"
  // lists the blocks each transaction logged.
  method Filewrite(f: File, fs: FileSys, n: int, src: seq<int>, part: nat)
    returns (r: int, ghost done: nat, ghost laid: seq<int>, ghost ops: seq<set<int>>)
    requires Valid(fs) && f.ip < |fs.ino| && f.off < U32
    modifies fs, f
    ensures Valid(fs)
    ensures forall t :: t in ops ==> |t| <= MAXOPBLOCKS
    ensures !f.writable || n < 0 ==> r == -1 && done == 0 && laid == []
    ensures f.writable && n >= 0 ==> done <= n && r == if done == n then n else -1
    ensures f.off == old(f.off) + done && done <= |laid| <= |src| && laid == src[..|laid|]
    ensures Progress(old(fs.disk), old(fs.ino), fs.disk, fs.ino, f.ip, old(f.off), laid, done)
    ensures f.writable && n >= 0 && old(f.off) <= old(fs.ino)[f.ip].size ==>
              FileOutcome(old(fs.disk), old(fs.ino), old(fs.own), f.ip, old(f.off), n, |src|, part, done, |laid| - done)
  {
    done, laid, ops := 0, [], [];
    ghost var disk0, ino0, own0, off0 := fs.disk, fs.ino, fs.own, f.off;
    NoProgress(disk0, ino0, f.ip, off0);
    if !f.writable {
      return -1, 0, [], [];
    }
    var i := 0;
    while i < n
      invariant 0 <= i == done == |laid| <= |src| && laid == src[..i] && (if n < 0 then i == 0 else i <= n)
      invariant i == n || i == |ops| * CHUNK
      invariant Valid(fs) && f.off == off0 + i && f.off < U32
      invariant forall t :: t in ops ==> |t| <= MAXOPBLOCKS
      invariant Between(disk0, ino0, own0, fs.disk, fs.ino, fs.own, f.ip, off0, laid)
      decreases n - i
    {
      var n1 := Min(n - i, CHUNK);
      r, done, laid := WriteNext(f, fs, n, n1, i, src, part, |ops|, disk0, ino0, own0, off0, laid);
      ops := ops + [fs.logged];
      if r != n1 {
        return -1, done, laid, ops;
      }
      i := i + r;
    }
    r := if i == n then n else -1;
    if i == n && off0 <= ino0[f.ip].size {
      AllWritten(disk0, ino0, own0, fs.disk, fs.ino, fs.own, f.ip, off0, n, |src|, part);
    }
  }

  lemma AllWritten(disk0: seq<Blk>, ino0: seq<Inode>, own0: seq<Owner>, disk: seq<Blk>, ino: seq<Inode>, own: seq<Owner>,
                   i: nat, off: nat, n: nat, avail: nat, part: nat)
    requires InodesOk(ino0) && Sized(disk0) && InodesOk(ino) && Sized(disk) && i < |ino0| == |ino| && n <= avail
    requires FilesOk(disk0, ino0) && off <= ino0[i].size && Ledger(disk0, ino0, own0, disk, ino, own, i, off, n)
    ensures FileOutcome(disk0, ino0, own0, i, off, n, avail, part, n, 0)
  {
    assert ino0[i].size <= MAXBYTES;
  }

  lemma NoProgress(disk: seq<Blk>, ino: seq<Inode>, i: nat, off: nat)
    requires InodesOk(ino) && Sized(disk) && FilesOk(disk, ino) && i < |ino|
    ensures Progress(disk, ino, disk, ino, i, off, [], 0)
  {
    if off <= ino[i].size {
      NoWrite(disk, ino, i, off);
    }
  }

  // There is always room where a byte of the file is, and for the first block when a block is free.
  lemma OneFits(disk: seq<Blk>, ino: seq<Inode>, own: seq<Owner>, i: nat, a: nat)
    requires InodesOk(ino) && Sized(disk) && FilesOk(disk, ino) && i < |ino| && a < MAXFILE
    requires a * BSIZE < ino[i].size || (a == 0 && Avail(own) > 0)
    ensures Fits(disk, ino, own, i, a, a + 1)
  {
    assert Missing(disk, ino, i, a + 1, a + 1) == 0;
    if a * BSIZE < ino[i].size {
      assert Backed(disk, ino, i, ino[i].size);
      assert Ptr(disk, ino, RefOf(i, a)) != 0;
    }
  }

  // A write that fails can change the file: two bytes are written, and then overwritten from a
  // place where only one can be read.
  method TornOverwrite(fs: FileSys, ip: nat, x: int, y: int, z: int) returns (r: int, f: File)
    requires Valid(fs) && ip < |fs.ino| && fs.ino[ip].size == 0 && Avail(fs.own) > 0
    modifies fs
    ensures Valid(fs) && ip < |fs.ino| && fs.ino[ip].size == 2
    ensures r == -1 && f.off == 0 && Content(fs.disk, fs.ino, ip) == [z, y]
  {
    f := new File(ip, true);
    OneFits(fs.disk, fs.ino, fs.own, ip, 0);
    ghost var done, laid, ops;
    r, done, laid, ops := Filewrite(f, fs, 2, [x, y], 0);
    f := new File(ip, true);
    OneFits(fs.disk, fs.ino, fs.own, ip, 0);
    r, done, laid, ops := Filewrite(f, fs, 2, [z], 1);
  }
}
