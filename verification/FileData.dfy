/**
  Byte-range reads and writes: readi and writei of kernel/fs.c.

  A file is a function from byte positions to bytes (Byte); a position whose block is missing
  reads as zero.  writei overwrites one range of one such function, however its range falls on
  blocks and on the direct/indirect boundary.
 */
module FileData {
  import opened FsModel
  import opened FsCode
  import opened FileSpace

  const MAXBYTES: nat := MAXFILE * BSIZE

  ghost function Byte(disk: seq<Blk>, ino: seq<Inode>, i: nat, p: nat): int
    requires InodesOk(ino) && i < |ino| && p < MAXBYTES
    requires Sized(disk)
  {
    var a := Ptr(disk, ino, RefOf(i, p / BSIZE));
    if 0 < a < |disk| then disk[a][p % BSIZE] else 0
  }

  // All files together change in the range [off, off + |x|) of file i only, to the bytes x.
  ghost predicate Overwrites(disk: seq<Blk>, ino: seq<Inode>, d: seq<Blk>, ino': seq<Inode>, i: nat, off: nat, x: seq<int>)
    requires InodesOk(ino) && InodesOk(ino') && |ino| == |ino'|
    requires Sized(disk) && Sized(d)
  {
    forall j: nat, p: nat {:trigger Byte(d, ino', j, p)} :: j < |ino| && p < MAXBYTES ==>
      Byte(d, ino', j, p) == if j == i && off <= p < off + |x| then x[p - off] else Byte(disk, ino, j, p)
  }

  // Blocks that are there stay there.
  ghost predicate Grows(disk: seq<Blk>, ino: seq<Inode>, d: seq<Blk>, ino': seq<Inode>)
    requires InodesOk(ino) && InodesOk(ino') && |ino| == |ino'|
    requires Sized(disk) && Sized(d)
  {
    forall r {:trigger Ptr(d, ino', r)} :: ValidRef(|ino|, r) && Ptr(disk, ino, r) != 0 ==> Ptr(d, ino', r) == Ptr(disk, ino, r)
  }

  lemma Located(sb: Super, disk: seq<Blk>, ino: seq<Inode>, own: seq<Owner>, i: nat, p: nat)
    requires Inv(sb, disk, ino, own, {}) && i < |ino| && p < MAXBYTES
    ensures var a := Ptr(disk, ino, RefOf(i, p / BSIZE));
            a == 0 || (0 < a < |disk| && own[a] == Owned(RefOf(i, p / BSIZE)))
  {
    assert PtrOk(disk, ino, own, RefOf(i, p / BSIZE));
  }

  // bmap changes no byte of any file.
  lemma MappedBytes(sb: Super, disk: seq<Blk>, ino: seq<Inode>, own: seq<Owner>,
                    d: seq<Blk>, ino': seq<Inode>, own': seq<Owner>, i: nat, bn: nat, addr: nat)
    requires Inv(sb, disk, ino, own, {}) && Inv(sb, d, ino', own', {})
    requires i < |ino| && bn < MAXFILE && Mapped(disk, ino, own, d, ino', own', i, bn, addr)
    ensures Overwrites(disk, ino, d, ino', i, 0, [])
    ensures Grows(disk, ino, d, ino')
  {
    forall j: nat, p: nat | j < |ino| && p < MAXBYTES
      ensures Byte(d, ino', j, p) == Byte(disk, ino, j, p)
    {
      Located(sb, disk, ino, own, j, p);
      Located(sb, d, ino', own', j, p);
      var r := RefOf(j, p / BSIZE);
      if r != RefOf(i, bn) {
        assert Ptr(d, ino', r) == Ptr(disk, ino, r);
      }
    }
  }

  // Changing bytes of a mapped block changes just these bytes of its file.
  lemma BlockBytes(sb: Super, disk: seq<Blk>, ino: seq<Inode>, own: seq<Owner>, i: nat, off: nat, addr: nat, x: seq<int>, blk: Blk)
    requires Inv(sb, disk, ino, own, {}) && i < |ino| && off + |x| <= MAXBYTES && off < MAXBYTES
    requires off % BSIZE + |x| <= BSIZE
    requires 0 < addr < |disk| && Ptr(disk, ino, RefOf(i, off / BSIZE)) == addr && own[addr] == Owned(RefOf(i, off / BSIZE))
    requires blk == disk[addr][..off % BSIZE] + x + disk[addr][off % BSIZE + |x|..]
    ensures Inv(sb, disk[addr := blk], ino, own, {})
    ensures Overwrites(disk, ino, disk[addr := blk], ino, i, off, x)
    ensures Grows(disk, ino, disk[addr := blk], ino) && PtrsKept(disk, ino, disk[addr := blk], ino, {})
  {
    var d := disk[addr := blk];
    DataInv(sb, disk, ino, own, addr, blk);
    forall j: nat, p: nat | j < |ino| && p < MAXBYTES
      ensures Byte(d, ino, j, p) == if j == i && off <= p < off + |x| then x[p - off] else Byte(disk, ino, j, p)
    {
      Located(sb, disk, ino, own, j, p);
      var a := Ptr(disk, ino, RefOf(j, p / BSIZE));
      assert Ptr(d, ino, RefOf(j, p / BSIZE)) == a;
      assert off <= p < off + |x| ==> p / BSIZE == off / BSIZE;
      if a == addr {
        assert RefOf(j, p / BSIZE) == RefOf(i, off / BSIZE);
        assert j == i && p / BSIZE == off / BSIZE;
        assert p - off == p % BSIZE - off % BSIZE;
      } else {
        assert j != i || p / BSIZE != off / BSIZE;
      }
    }
  }

  // Every byte below upto has a block.
  ghost predicate Backed(disk: seq<Blk>, ino: seq<Inode>, i: nat, upto: nat)
    requires InodesOk(ino) && i < |ino|
    requires Sized(disk)
  {
    forall bn: nat {:trigger RefOf(i, bn)} :: bn < MAXFILE && bn * BSIZE < upto ==> Ptr(disk, ino, RefOf(i, bn)) != 0
  }

  ghost predicate FilesOk(disk: seq<Blk>, ino: seq<Inode>)
    requires InodesOk(ino)
    requires Sized(disk)
  {
    forall i: nat {:trigger ino[i]} :: i < |ino| ==> ino[i].size <= MAXBYTES && Backed(disk, ino, i, ino[i].size)
  }

  // Between operations: every block in use has its one owner, the inodes on disk are those in
  // memory, and no file has a hole.
  ghost predicate Valid(fs: FileSys)
    reads fs
  {
    && fs.Ok()
    && Settled(fs.own)
    && FilesOk(fs.disk, fs.ino)
    && fs.dino == fs.ino
  }

  ghost function Content(disk: seq<Blk>, ino: seq<Inode>, i: nat): (s: seq<int>)
    requires InodesOk(ino) && i < |ino| && ino[i].size <= MAXBYTES
    requires Sized(disk)
    ensures |s| == ino[i].size
  {
    seq(ino[i].size, p requires 0 <= p < ino[i].size => Byte(disk, ino, i, p))
  }

  function Max(a: nat, b: nat): nat {
    if a >= b then a else b
  }

  function Min(a: nat, b: nat): nat {
    if a <= b then a else b
  }

  // Blocks of a byte range, and how many of them can be new when the range starts in the file.
  function Spans(off: nat, n: nat): nat {
    if n == 0 then 0 else (off + n - 1) / BSIZE - off / BSIZE + 1
  }

  function NewSpans(off: nat, n: nat): int {
    Spans(off, n) - (if off % BSIZE != 0 && n > 0 then 1 else 0)
  }

  // Find block bn of the file and copy x into it at k.  A copy that failed part way ("torn") has
  // changed bytes in the buffer, but the block is not logged for it.
  method WriteChunk(fs: FileSys, i: nat, bn: nat, k: nat, x: seq<int>, torn: bool)
    returns (addr: nat, ghost maps: set<int>, ghost put: seq<int>)
    requires fs.Ok() && i < |fs.ino| && bn < MAXFILE && k < BSIZE && k + |x| <= BSIZE
    modifies fs`disk, fs`ino, fs`own, fs`logged, fs`torn
    ensures !torn || addr == 0 ==> fs.torn == old(fs.torn)
    ensures fs.Ok() && put == if addr == 0 then [] else x
    ensures ChunkDone(old(fs.disk), old(fs.ino), old(fs.own), old(fs.logged), fs.disk, fs.ino, fs.own, fs.logged, i, bn, k, addr, maps, put)
    ensures addr == 0 ==> forall c: nat :: c < fs.sb.size ==> Marked(fs.sb, fs.disk, c)
  {
    ghost var disk0, ino0, own0, logged0 := fs.disk, fs.ino, fs.own, fs.logged;
    var panicked;
    panicked, addr, maps := fs.Bmap(i, bn);
    ghost var disk1, logged1 := fs.disk, fs.logged;
    ChunkMapped(fs.sb, disk0, ino0, own0, logged0, disk1, fs.ino, fs.own, logged1, i, bn, k, addr, maps);
    put := [];
    if addr == 0 {
      return;
    }
    put := x;
    PutBytes(fs, i, bn, k, x, addr, torn);
    ChunkPut(disk0, ino0, own0, logged0, disk1, logged1, fs.disk, fs.ino, fs.own, fs.logged, i, bn, k, addr, maps, x);
  }

  // What writei does with one block, at address addr or with none: put is in place from byte k on.
  ghost predicate ChunkDone(disk0: seq<Blk>, ino0: seq<Inode>, own0: seq<Owner>, logged0: set<int>,
                            disk: seq<Blk>, ino: seq<Inode>, own: seq<Owner>, logged: set<int>,
                            i: nat, bn: nat, k: nat, addr: nat, maps: set<int>, put: seq<int>)
    requires InodesOk(ino0) && Sized(disk0) && InodesOk(ino) && Sized(disk) && i < |ino0| && bn < MAXFILE
  {
    && SizesKept(ino0, ino, i) && (Settled(own0) ==> Settled(own))
    && Grows(disk0, ino0, disk, ino)
    && Overwrites(disk0, ino0, disk, ino, i, bn * BSIZE + k, put)
    && addr == Ptr(disk, ino, RefOf(i, bn))
    && LogsMore(disk0, ino0, logged0, ino, logged, i, bn, addr, maps)
    && PtrsKept(disk0, ino0, disk, ino, {RefOf(i, bn), Indirect(i)})
    && Spends(disk0, ino0, own0, own, i, bn, addr)
  }

  lemma ChunkMapped(sb: Super, disk0: seq<Blk>, ino0: seq<Inode>, own0: seq<Owner>, logged0: set<int>,
                    disk: seq<Blk>, ino: seq<Inode>, own: seq<Owner>, logged: set<int>,
                    i: nat, bn: nat, k: nat, addr: nat, maps: set<int>)
    requires Inv(sb, disk0, ino0, own0, {}) && Inv(sb, disk, ino, own, {}) && i < |ino0| && bn < MAXFILE
    requires Mapped(disk0, ino0, own0, disk, ino, own, i, bn, addr)
    requires LogsFor(disk0, ino0, logged0, ino, logged, i, bn, addr, maps) && Spends(disk0, ino0, own0, own, i, bn, addr)
    ensures ChunkDone(disk0, ino0, own0, logged0, disk, ino, own, logged, i, bn, k, addr, maps, [])
  {
    MappedBytes(sb, disk0, ino0, own0, disk, ino, own, i, bn, addr);
    Nowhere(disk0, ino0, disk, ino, i, 0, bn * BSIZE + k);
  }

  lemma ChunkPut(disk0: seq<Blk>, ino0: seq<Inode>, own0: seq<Owner>, logged0: set<int>, disk1: seq<Blk>, logged1: set<int>,
                 disk: seq<Blk>, ino: seq<Inode>, own: seq<Owner>, logged: set<int>,
                 i: nat, bn: nat, k: nat, addr: nat, maps: set<int>, x: seq<int>)
    requires InodesOk(ino0) && Sized(disk0) && Sized(disk1) && InodesOk(ino) && Sized(disk) && i < |ino0| && bn < MAXFILE
    requires ChunkDone(disk0, ino0, own0, logged0, disk1, ino, own, logged1, i, bn, k, addr, maps, [])
    requires Overwrites(disk1, ino, disk, ino, i, bn * BSIZE + k, x) && Grows(disk1, ino, disk, ino)
    requires PtrsKept(disk1, ino, disk, ino, {}) && addr != 0 && (logged == logged1 || logged == logged1 + {addr})
    ensures ChunkDone(disk0, ino0, own0, logged0, disk, ino, own, logged, i, bn, k, addr, maps, x)
  {
    Nowhere(disk0, ino0, disk1, ino, i, bn * BSIZE + k, 0);
    Composed(disk0, ino0, disk1, ino, disk, i, bn * BSIZE + k, x);
    PtrsTrans(disk0, ino0, disk1, ino, disk, {RefOf(i, bn), Indirect(i)});
    assert Ptr(disk, ino, RefOf(i, bn)) == Ptr(disk1, ino, RefOf(i, bn));
  }

  // The copy into the buffer of a file's block.
  method PutBytes(fs: FileSys, i: nat, bn: nat, k: nat, x: seq<int>, addr: nat, torn: bool)
    requires fs.Ok() && i < |fs.ino| && bn < MAXFILE && k < BSIZE && k + |x| <= BSIZE
    requires addr == Ptr(fs.disk, fs.ino, RefOf(i, bn)) != 0
    modifies fs`disk, fs`logged, fs`torn
    ensures fs.logged == old(fs.logged) + (if torn then {} else {addr}) && fs.torn == old(fs.torn) + (if torn then {addr} else {})
    ensures fs.Ok() && Grows(old(fs.disk), fs.ino, fs.disk, fs.ino) && PtrsKept(old(fs.disk), fs.ino, fs.disk, fs.ino, {})
    ensures Overwrites(old(fs.disk), fs.ino, fs.disk, fs.ino, i, bn * BSIZE + k, x)
  {
    assert PtrOk(fs.disk, fs.ino, fs.own, RefOf(i, bn));
    var blk := fs.disk[addr][..k] + x + fs.disk[addr][k + |x|..];
    ghost var off := bn * BSIZE + k;
    assert off / BSIZE == bn && off % BSIZE == k;
    BlockBytes(fs.sb, fs.disk, fs.ino, fs.own, i, off, addr, x, blk);
    if torn {
      TrackTorn(fs.base, fs.disk, fs.own, fs.meta, fs.logged, fs.torn, addr, blk);
      fs.torn := fs.torn + {addr};
    } else {
      LogBlock(fs.sb, fs.base, fs.disk, fs.own, |fs.dino|, fs.meta, fs.logged, fs.torn, addr);
      TrackWrite(fs.base, fs.disk, fs.own, fs.meta, fs.logged, fs.torn, addr, blk);
      fs.logged := fs.logged + {addr};
    }
    fs.disk := fs.disk[addr := blk];
  }

  // Where nothing is overwritten does not matter.
  lemma Nowhere(disk: seq<Blk>, ino: seq<Inode>, d: seq<Blk>, ino': seq<Inode>, i: nat, off: nat, off': nat)
    requires InodesOk(ino) && InodesOk(ino') && |ino| == |ino'|
    requires Sized(disk) && Sized(d) && Overwrites(disk, ino, d, ino', i, off, [])
    ensures Overwrites(disk, ino, d, ino', i, off', [])
  {
  }

  lemma PtrsTrans(disk0: seq<Blk>, ino0: seq<Inode>, disk1: seq<Blk>, ino: seq<Inode>, disk: seq<Blk>, except: set<Ref>)
    requires InodesOk(ino0) && InodesOk(ino) && |ino0| == |ino|
    requires Sized(disk0) && Sized(disk1) && Sized(disk)
    requires PtrsKept(disk0, ino0, disk1, ino, except) && PtrsKept(disk1, ino, disk, ino, {})
    ensures PtrsKept(disk0, ino0, disk, ino, except)
  {
    forall r | ValidRef(|ino|, r) && r !in except ensures Ptr(disk, ino, r) == Ptr(disk0, ino0, r) {
      assert Ptr(disk1, ino, r) == Ptr(disk0, ino0, r);
    }
  }

  lemma Composed(disk0: seq<Blk>, ino0: seq<Inode>, disk1: seq<Blk>, ino: seq<Inode>, disk: seq<Blk>, i: nat, off: nat, x: seq<int>)
    requires InodesOk(ino0) && InodesOk(ino) && |ino0| == |ino|
    requires Sized(disk0) && Sized(disk1) && Sized(disk)
    requires Overwrites(disk0, ino0, disk1, ino, i, 0, []) && Grows(disk0, ino0, disk1, ino)
    requires Overwrites(disk1, ino, disk, ino, i, off, x) && Grows(disk1, ino, disk, ino)
    ensures Overwrites(disk0, ino0, disk, ino, i, off, x) && Grows(disk0, ino0, disk, ino)
  {
    forall j: nat, p: nat | j < |ino| && p < MAXBYTES
      ensures Byte(disk, ino, j, p) == if j == i && off <= p < off + |x| then x[p - off] else Byte(disk0, ino0, j, p)
    {
      assert Byte(disk1, ino, j, p) == Byte(disk0, ino0, j, p);
    }
    forall r | ValidRef(|ino|, r) && Ptr(disk0, ino0, r) != 0 ensures Ptr(disk, ino, r) == Ptr(disk0, ino0, r) {
      assert Ptr(disk1, ino, r) == Ptr(disk0, ino0, r);
    }
  }

  // LogsFor, with the data block itself logged as well.
  ghost predicate LogsMore(disk: seq<Blk>, ino: seq<Inode>, logged: set<int>, ino': seq<Inode>, logged': set<int>,
                           i: nat, bn: nat, addr: nat, maps: set<int>)
    requires InodesOk(ino) && InodesOk(ino') && i < |ino| == |ino'| && bn < MAXFILE
    requires Sized(disk)
  {
    && logged <= logged' <= logged + maps + {addr, ino'[i].addrs[NDIRECT]}
    && 0 !in logged' - logged
    && (ino[i].addrs[NDIRECT] != 0 || bn < NDIRECT ==> ino'[i].addrs[NDIRECT] == ino[i].addrs[NDIRECT])
    && (ino'[i].addrs[NDIRECT] == 0 ==> ino[i].addrs[NDIRECT] == 0)
    && |maps| <= (if Ptr(disk, ino, RefOf(i, bn)) != 0 then 0 else 1)
                 + (if ino[i].addrs[NDIRECT] == 0 && bn >= NDIRECT then 1 else 0)
  }

  // What writei's loop has achieved when the bytes x are in place.
  ghost predicate Written(disk0: seq<Blk>, ino0: seq<Inode>, disk: seq<Blk>, ino: seq<Inode>, i: nat, off: nat, x: seq<int>)
    requires InodesOk(ino0) && InodesOk(ino) && i < |ino0| == |ino|
    requires Sized(disk0) && Sized(disk)
  {
    && SizesKept(ino0, ino, i)
    && Grows(disk0, ino0, disk, ino)
    && Overwrites(disk0, ino0, disk, ino, i, off, x)
    && Backed(disk, ino, i, off + |x|)
  }

  lemma WrittenMore(disk0: seq<Blk>, ino0: seq<Inode>, disk1: seq<Blk>, ino1: seq<Inode>, disk2: seq<Blk>, ino2: seq<Inode>,
                    i: nat, off: nat, x: seq<int>, y: seq<int>)
    requires InodesOk(ino0) && InodesOk(ino1) && InodesOk(ino2) && i < |ino0| == |ino1| == |ino2|
    requires Sized(disk0) && Sized(disk1) && Sized(disk2)
    requires Written(disk0, ino0, disk1, ino1, i, off, x)
    requires SizesKept(ino1, ino2, i) && Grows(disk1, ino1, disk2, ino2)
    requires Overwrites(disk1, ino1, disk2, ino2, i, off + |x|, y)
    requires y == [] || ((off + |x|) % BSIZE + |y| <= BSIZE && off + |x| < MAXBYTES && Ptr(disk2, ino2, RefOf(i, (off + |x|) / BSIZE)) != 0)
    ensures Written(disk0, ino0, disk2, ino2, i, off, x + y)
  {
    forall j: nat, p: nat | j < |ino0| && p < MAXBYTES
      ensures Byte(disk2, ino2, j, p) == if j == i && off <= p < off + |x + y| then (x + y)[p - off] else Byte(disk0, ino0, j, p)
    {
      assert Byte(disk1, ino1, j, p) == if j == i && off <= p < off + |x| then x[p - off] else Byte(disk0, ino0, j, p);
    }
    forall r | ValidRef(|ino0|, r) && Ptr(disk0, ino0, r) != 0 ensures Ptr(disk2, ino2, r) == Ptr(disk0, ino0, r) {
      assert Ptr(disk1, ino1, r) == Ptr(disk0, ino0, r);
    }
    forall bn: nat | bn < MAXFILE && bn * BSIZE < off + |x + y| ensures Ptr(disk2, ino2, RefOf(i, bn)) != 0 {
      if bn * BSIZE < off + |x| {
        assert Ptr(disk1, ino1, RefOf(i, bn)) != 0;
      } else {
        assert bn == (off + |x|) / BSIZE;
      }
    }
  }

  // The blocks logged so far: data blocks, bitmap blocks and the indirect block.
  ghost predicate Tally(logged0: set<int>, logged: set<int>, data: set<int>, maps: set<int>, ind: int) {
    logged0 <= logged <= logged0 + data + maps + {ind} && 0 !in logged - logged0
  }

  lemma TallyMore(logged0: set<int>, logged1: set<int>, logged2: set<int>, data: set<int>, maps: set<int>, more: set<int>,
                  addr: int, ind1: int, ind2: int)
    requires Tally(logged0, logged1, data, maps, ind1)
    requires logged1 <= logged2 <= logged1 + more + {addr, ind2} && 0 !in logged2 - logged1
    requires ind1 != 0 ==> ind2 == ind1
    ensures Tally(logged0, logged2, data + {addr}, maps + more, ind2)
    ensures |data + {addr}| <= |data| + 1
    ensures |maps + more| <= |maps| + |more|
  {
    Union(data, {addr});
    Union(maps, more);
  }

  lemma Union(a: set<int>, b: set<int>)
    ensures |a + b| <= |a| + |b|
  {
    assert a + b == a + (b - a);
    assert |a + (b - a)| == |a| + |b - a|;
    assert b == (b - a) + (b * a);
    assert |b| == |b - a| + |b * a|;
  }

  lemma Subset(a: set<int>, b: set<int>)
    requires a <= b
    ensures |a| <= |b|
  {
    assert b == a + (b - a);
  }

  lemma TallyBound(logged0: set<int>, logged: set<int>, data: set<int>, maps: set<int>, ind: int, inode: int)
    requires Tally(logged0, logged, data, maps, ind)
    ensures |logged + {inode}| <= |logged0| + |data| + |maps| + 2
  {
    Subset(logged + {inode}, ((logged0 + data) + maps) + {ind, inode});
    Union((logged0 + data) + maps, {ind, inode});
    Union(logged0 + data, maps);
    Union(logged0, data);
  }

  // Where the chunk starts that holds byte k of a write at off.
  function ChunkStart(off: nat, k: nat): nat {
    if (off + k) / BSIZE == off / BSIZE then 0 else (off + k) / BSIZE * BSIZE - off
  }

  // How a write of n bytes at off ends, told from the state before it: it is complete exactly when
  // the caller's memory delivers and the disk has room for all blocks; a copy fails exactly when
  // the memory ends early and there is room up to the block where it ends, and then the count is
  // up to that block and "part" of what could be copied into it has been.
  ghost predicate Outcome(disk0: seq<Blk>, ino0: seq<Inode>, own0: seq<Owner>, i: nat, off: nat, n: nat, avail: nat, part: nat,
                          tot: nat, torn: nat)
    requires InodesOk(ino0) && Sized(disk0) && i < |ino0|
  {
    var a := off / BSIZE;
    && (tot == n <==> n <= avail && (n == 0 || Fits(disk0, ino0, own0, i, a, a + Spans(off, n))))
    && if avail < n && Fits(disk0, ino0, own0, i, a, (off + avail) / BSIZE + 1)
       then tot == ChunkStart(off, avail) <= avail && torn == Min(part, avail - tot)
       else torn == 0
  }

  // What a failed copy has laid lies within the block that follows the counted bytes.
  lemma TornInBlock(disk0: seq<Blk>, ino0: seq<Inode>, own0: seq<Owner>, i: nat, off: nat, n: nat, avail: nat, part: nat,
                    tot: nat, torn: nat)
    requires InodesOk(ino0) && Sized(disk0) && i < |ino0|
    requires Outcome(disk0, ino0, own0, i, off, n, avail, part, tot, torn) && torn > 0
    ensures torn <= part && tot + torn <= avail < n && torn < BSIZE - (off + tot) % BSIZE
  {
    ChunkBounds(off, avail);
  }

  lemma ChunkBounds(off: nat, k: nat)
    ensures var c := ChunkStart(off, k); c <= k && k - c < BSIZE - (off + c) % BSIZE
  {
    var b := (off + k) / BSIZE;
    assert b * BSIZE <= off + k < (b + 1) * BSIZE;
    if b != off / BSIZE {
      assert (b * BSIZE) % BSIZE == 0;
    }
  }

  // Block c is the next one to write when tot of the n bytes from off, in block a, are in place.
  predicate At(off: nat, a: nat, c: nat, tot: nat, n: nat) {
    && a * BSIZE <= off < (a + 1) * BSIZE
    && tot <= n
    && if tot == 0 then c == a
       else a < c && (c - 1) * BSIZE < off + tot <= c * BSIZE && (tot < n ==> off + tot == c * BSIZE)
  }

  // How many blocks have been logged on the way from block a to block c; ind0 and ind are the
  // indirect block before the write and now.
  ghost predicate Counted(off: nat, a: nat, c: nat, data: set<int>, maps: set<int>, ind0: int, ind: int) {
    && a <= c
    && |data| <= c - a
    && |maps| <= c - a - (if off > a * BSIZE && c > a then 1 else 0) + (if ind0 == 0 && ind != 0 then 1 else 0)
    && (ind0 != 0 ==> ind == ind0)
  }

  // What writei's loop has done when it has come to block c.
  ghost predicate Going(disk0: seq<Blk>, ino0: seq<Inode>, own0: seq<Owner>, logged0: set<int>,
                        disk: seq<Blk>, ino: seq<Inode>, own: seq<Owner>, logged: set<int>,
                        i: nat, off: nat, a: nat, c: nat, x: seq<int>, data: set<int>, maps: set<int>)
    requires InodesOk(ino0) && Sized(disk0) && InodesOk(ino) && Sized(disk) && i < |ino0|
  {
    && Settled(own)
    && |ino| == |ino0|
    && Written(disk0, ino0, disk, ino, i, off, x)
    && Tally(logged0, logged, data, maps, ino[i].addrs[NDIRECT])
    && Counted(off, a, c, data, maps, ino0[i].addrs[NDIRECT], ino[i].addrs[NDIRECT])
    && Track(disk0, ino0, own0, disk, ino, own, i, a, c)
  }

  // What it has done when it stops short at block c.
  ghost predicate Halted(disk0: seq<Blk>, ino0: seq<Inode>, logged0: set<int>,
                         disk: seq<Blk>, ino: seq<Inode>, own: seq<Owner>, logged: set<int>,
                         i: nat, off: nat, a: nat, c: nat, x: seq<int>, data: set<int>, maps: set<int>)
    requires InodesOk(ino0) && Sized(disk0) && InodesOk(ino) && Sized(disk) && i < |ino0|
  {
    && Settled(own)
    && |ino| == |ino0|
    && Written(disk0, ino0, disk, ino, i, off, x)
    && Tally(logged0, logged, data, maps, ino[i].addrs[NDIRECT])
    && a <= c
    && |data| <= c + 1 - a
    && |maps| <= c + 1 - a - (if off > a * BSIZE then 1 else 0) + 1
  }

  // Nothing from block c on could be reached.
  ghost predicate Full(disk0: seq<Blk>, ino0: seq<Inode>, own0: seq<Owner>, i: nat, a: nat, c: nat)
    requires InodesOk(ino0) && Sized(disk0) && i < |ino0|
  {
    forall b: nat {:trigger Fits(disk0, ino0, own0, i, a, b)} :: c < b <= MAXFILE ==> !Fits(disk0, ino0, own0, i, a, b)
  }

  // How a turn of the loop ends.
  datatype Turn = Copied | NoBlock | BadCopy

  // writei's loop.  src holds the bytes the caller's memory can deliver; a copy that runs past
  // its end fails after "part" of the chunk's bytes.  The bytes "laid" over the file are the tot
  // written ones and those of the failed copy.
  method WriteLoop(fs: FileSys, i: nat, off: nat, n: nat, src: seq<int>, part: nat)
    returns (tot: nat, ghost laid: seq<int>, ghost data: set<int>, ghost maps: set<int>)
    requires fs.Ok() && Settled(fs.own) && i < |fs.ino|
    requires off <= fs.ino[i].size && off + n <= MAXBYTES
    requires Backed(fs.disk, fs.ino, i, fs.ino[i].size)
    modifies fs`disk, fs`ino, fs`own, fs`logged, fs`torn
    ensures n <= |src| ==> fs.torn == old(fs.torn)
    ensures fs.Ok() && |laid| <= |src| && laid == src[..|laid|]
    ensures LoopDone(old(fs.disk), old(fs.ino), old(fs.own), old(fs.logged), fs.disk, fs.ino, fs.own, fs.logged,
                     i, off, n, |src|, part, tot, laid, data, maps)
    ensures tot < n ==> |src| < n || forall c: nat :: c < fs.sb.size ==> Marked(fs.sb, fs.disk, c)
  {
    ghost var disk0, ino0, own0, logged0 := fs.disk, fs.ino, fs.own, fs.logged;
    ghost var a: nat := off / BSIZE;
    ghost var c: nat := a;
    tot, laid, data, maps := 0, [], {}, {};
    NotBegun(disk0, ino0, own0, logged0, i, off, a);
    while tot < n
      invariant fs.Ok() && tot == |laid| <= |src| && laid == src[..tot] && At(off, a, c, tot, n)
      invariant Going(disk0, ino0, own0, logged0, fs.disk, fs.ino, fs.own, fs.logged, i, off, a, c, laid, data, maps)
      invariant fs.torn == old(fs.torn)
      invariant tot > 0 ==> Fits(disk0, ino0, own0, i, a, c)
      decreases n - tot
    {
      var turn, m;
      turn, m, laid, data, maps := WriteStep(fs, i, off, n, src, part, tot, disk0, ino0, own0, logged0, a, c, laid, data, maps);
      if turn != Copied {
        LoopStopped(disk0, ino0, own0, logged0, fs.disk, fs.ino, fs.own, fs.logged, i, off, n, |src|, part, tot, a, c, turn, laid, data, maps);
        return;
      }
      tot, c := tot + m, c + 1;
    }
    LoopComplete(disk0, ino0, own0, logged0, fs.disk, fs.ino, fs.own, fs.logged, i, off, n, |src|, part, a, c, laid, data, maps);
  }

  // What the loop has done when it ends: laid is over the file, tot bytes of it count.
  ghost predicate LoopDone(disk0: seq<Blk>, ino0: seq<Inode>, own0: seq<Owner>, logged0: set<int>,
                           disk: seq<Blk>, ino: seq<Inode>, own: seq<Owner>, logged: set<int>,
                           i: nat, off: nat, n: nat, avail: nat, part: nat, tot: nat, laid: seq<int>, data: set<int>, maps: set<int>)
    requires InodesOk(ino0) && Sized(disk0) && InodesOk(ino) && Sized(disk) && i < |ino0|
  {
    && Settled(own) && |ino| == |ino0|
    && tot <= n && tot <= |laid|
    && Written(disk0, ino0, disk, ino, i, off, laid)
    && Outcome(disk0, ino0, own0, i, off, n, avail, part, tot, |laid| - tot)
    && (tot == n ==> Track(disk0, ino0, own0, disk, ino, own, i, off / BSIZE, off / BSIZE + Spans(off, n)))
    && Tally(logged0, logged, data, maps, ino[i].addrs[NDIRECT])
    && |data| <= Spans(off, n) && |maps| <= NewSpans(off, n) + 1
  }

  lemma LoopStopped(disk0: seq<Blk>, ino0: seq<Inode>, own0: seq<Owner>, logged0: set<int>,
                    disk: seq<Blk>, ino: seq<Inode>, own: seq<Owner>, logged: set<int>,
                    i: nat, off: nat, n: nat, avail: nat, part: nat, tot: nat, a: nat, c: nat, turn: Turn,
                    laid: seq<int>, data: set<int>, maps: set<int>)
    requires InodesOk(ino0) && Sized(disk0) && InodesOk(ino) && Sized(disk) && i < |ino0| && turn != Copied && tot < n && tot <= avail
    requires Turned(disk0, ino0, own0, logged0, disk, ino, own, logged, i, off, a, c, turn, laid, data, maps)
    requires |laid| == tot + (if turn == NoBlock then 0 else Min(part, avail - tot))
    requires off + n <= MAXBYTES && At(off, a, c, tot, n) && c < MAXFILE
    requires turn == BadCopy ==> avail < tot + Min(n - tot, (c + 1) * BSIZE - (off + tot))
    ensures LoopDone(disk0, ino0, own0, logged0, disk, ino, own, logged, i, off, n, avail, part, tot, laid, data, maps)
  {
    Stops(disk0, ino0, own0, i, off, n, avail, part, tot, a, c, turn);
  }

  lemma LoopComplete(disk0: seq<Blk>, ino0: seq<Inode>, own0: seq<Owner>, logged0: set<int>,
                     disk: seq<Blk>, ino: seq<Inode>, own: seq<Owner>, logged: set<int>,
                     i: nat, off: nat, n: nat, avail: nat, part: nat, a: nat, c: nat, laid: seq<int>, data: set<int>, maps: set<int>)
    requires InodesOk(ino0) && Sized(disk0) && InodesOk(ino) && Sized(disk) && i < |ino0| && |laid| == n <= avail
    requires Going(disk0, ino0, own0, logged0, disk, ino, own, logged, i, off, a, c, laid, data, maps)
    requires off + n <= MAXBYTES && At(off, a, c, n, n) && (n > 0 ==> Fits(disk0, ino0, own0, i, a, c))
    ensures LoopDone(disk0, ino0, own0, logged0, disk, ino, own, logged, i, off, n, avail, part, n, laid, data, maps)
  {
    Completes(disk0, ino0, own0, i, off, n, avail, part, a, c);
  }

  lemma NotBegun(disk: seq<Blk>, ino: seq<Inode>, own: seq<Owner>, logged: set<int>, i: nat, off: nat, a: nat)
    requires InodesOk(ino) && Sized(disk) && i < |ino| && Settled(own) && off <= ino[i].size && Backed(disk, ino, i, ino[i].size)
    ensures Going(disk, ino, own, logged, disk, ino, own, logged, i, off, a, a, [], {}, {})
  {
  }

  // What a turn has done that was to put m bytes into block c after the first tot.
  ghost predicate Turned(disk0: seq<Blk>, ino0: seq<Inode>, own0: seq<Owner>, logged0: set<int>,
                         disk: seq<Blk>, ino: seq<Inode>, own: seq<Owner>, logged: set<int>,
                         i: nat, off: nat, a: nat, c: nat, turn: Turn, laid: seq<int>, data: set<int>, maps: set<int>)
    requires InodesOk(ino0) && Sized(disk0) && InodesOk(ino) && Sized(disk) && i < |ino0|
  {
    && (if turn == NoBlock then Full(disk0, ino0, own0, i, a, c) else Fits(disk0, ino0, own0, i, a, c + 1))
    && if turn == Copied then Going(disk0, ino0, own0, logged0, disk, ino, own, logged, i, off, a, c + 1, laid, data, maps)
       else Halted(disk0, ino0, logged0, disk, ino, own, logged, i, off, a, c, laid, data, maps)
  }

  // The body of the loop: copy into the block of the next byte, which succeeds, finds no block, or
  // fails in the copy.
  method WriteStep(fs: FileSys, i: nat, off: nat, n: nat, src: seq<int>, part: nat, tot: nat,
                   ghost disk0: seq<Blk>, ghost ino0: seq<Inode>, ghost own0: seq<Owner>, ghost logged0: set<int>,
                   ghost a: nat, ghost c: nat, ghost done: seq<int>, ghost data: set<int>, ghost maps: set<int>)
    returns (turn: Turn, m: nat, ghost laid: seq<int>, ghost data': set<int>, ghost maps': set<int>)
    requires fs.Ok() && InodesOk(ino0) && Sized(disk0) && i < |ino0| && off + n <= MAXBYTES
    requires off <= ino0[i].size && Backed(disk0, ino0, i, ino0[i].size)
    requires tot < n && tot <= |src| && done == src[..tot] && At(off, a, c, tot, n)
    requires Going(disk0, ino0, own0, logged0, fs.disk, fs.ino, fs.own, fs.logged, i, off, a, c, done, data, maps)
    modifies fs`disk, fs`ino, fs`own, fs`logged, fs`torn
    ensures turn != BadCopy ==> fs.torn == old(fs.torn)
    ensures fs.Ok() && 0 < m && At(off, a, c + 1, tot + m, n) && c < MAXFILE && m == Min(n - tot, (c + 1) * BSIZE - (off + tot))
    ensures |laid| <= |src| && laid == src[..|laid|]
    ensures |laid| == tot + (if turn == Copied then m else if turn == NoBlock then 0 else Min(part, |src| - tot))
    ensures turn == BadCopy ==> |src| < tot + m
    ensures turn == NoBlock ==> forall b: nat :: b < fs.sb.size ==> Marked(fs.sb, fs.disk, b)
    ensures Turned(disk0, ino0, own0, logged0, fs.disk, fs.ino, fs.own, fs.logged, i, off, a, c, turn, laid, data', maps')
  {
    ghost var disk1, ino1, own1, logged1 := fs.disk, fs.ino, fs.own, fs.logged;
    var bn, k, fails, x;
    bn, k, m, fails, x := NextChunk(off, n, src, part, tot, a, c);
    var addr;
    ghost var added, put;
    addr, added, put := WriteChunk(fs, i, bn, k, x, fails);
    turn := if addr == 0 then NoBlock else if fails then BadCopy else Copied;
    data', maps', laid := data + {addr}, maps + added, done + put;
    LaidPrefix(src, tot, done, x, put, laid);
    StepDone(disk0, ino0, own0, logged0, disk1, ino1, own1, logged1, fs.disk, fs.ino, fs.own, fs.logged,
             i, off, a, bn, k, done, put, addr, data, maps, added, turn);
  }

  lemma LaidPrefix(src: seq<int>, tot: nat, done: seq<int>, x: seq<int>, put: seq<int>, laid: seq<int>)
    requires tot + |x| <= |src| && src[..tot] + x == src[..tot + |x|] && (put == [] || put == x)
    requires done == src[..tot] && laid == done + put
    ensures |laid| == tot + |put| <= |src| && laid == src[..|laid|]
  {
  }

  // What a turn has done, from what WriteChunk did.
  lemma StepDone(disk0: seq<Blk>, ino0: seq<Inode>, own0: seq<Owner>, logged0: set<int>,
                 disk1: seq<Blk>, ino1: seq<Inode>, own1: seq<Owner>, logged1: set<int>,
                 disk2: seq<Blk>, ino2: seq<Inode>, own2: seq<Owner>, logged2: set<int>,
                 i: nat, off: nat, a: nat, c: nat, k: nat, done: seq<int>, put: seq<int>, addr: nat,
                 data: set<int>, maps: set<int>, added: set<int>, turn: Turn)
    requires InodesOk(ino0) && Sized(disk0) && InodesOk(ino1) && Sized(disk1) && InodesOk(ino2) && Sized(disk2) && i < |ino0|
    requires off <= ino0[i].size && Backed(disk0, ino0, i, ino0[i].size) && a * BSIZE <= off < (a + 1) * BSIZE
    requires Going(disk0, ino0, own0, logged0, disk1, ino1, own1, logged1, i, off, a, c, done, data, maps)
    requires c < MAXFILE && off + |done| == c * BSIZE + k && k < BSIZE && k + |put| <= BSIZE
    requires ChunkDone(disk1, ino1, own1, logged1, disk2, ino2, own2, logged2, i, c, k, addr, added, put)
    requires (addr == 0 ==> put == []) && (addr == 0 <==> turn == NoBlock)
    ensures Turned(disk0, ino0, own0, logged0, disk2, ino2, own2, logged2, i, off, a, c, turn, done + put,
                   data + {addr}, maps + added)
  {
    TrackStep(disk0, ino0, own0, disk1, ino1, own1, disk2, ino2, own2, i, a, c, addr);
    StepWritten(disk0, ino0, disk1, ino1, disk2, ino2, i, off, done, put, c, k);
    StepLogged(disk0, ino0, logged0, disk1, ino1, logged1, disk2, ino2, logged2, i, off, a, c, addr, data, maps, added);
  }

  // The next byte's block and place in it, and what can be copied there.
  method NextChunk(off: nat, n: nat, src: seq<int>, part: nat, tot: nat, ghost a: nat, ghost c: nat)
    returns (bn: nat, k: nat, m: nat, fails: bool, x: seq<int>)
    requires At(off, a, c, tot, n) && tot < n && off + n <= MAXBYTES && tot <= |src|
    ensures bn == c < MAXFILE && off + tot == c * BSIZE + k && k < BSIZE && k + m <= BSIZE
    ensures 0 < m && At(off, a, c + 1, tot + m, n) && a <= c
    ensures m == Min(n - tot, (c + 1) * BSIZE - (off + tot))
    ensures fails == (|src| < tot + m)
    ensures |x| == (if fails then Min(part, |src| - tot) else m) <= m
    ensures tot + |x| <= |src| && src[..tot] + x == src[..tot + |x|]
  {
    bn, k := (off + tot) / BSIZE, (off + tot) % BSIZE;
    m := Min(n - tot, BSIZE - k);
    fails := |src| < tot + m;
    x := if fails then src[tot..tot + Min(part, |src| - tot)] else src[tot..tot + m];
  }

  // The bytes of a turn.
  lemma StepWritten(disk0: seq<Blk>, ino0: seq<Inode>, disk1: seq<Blk>, ino1: seq<Inode>, disk2: seq<Blk>, ino2: seq<Inode>,
                    i: nat, off: nat, done: seq<int>, put: seq<int>, c: nat, k: nat)
    requires InodesOk(ino0) && Sized(disk0) && InodesOk(ino1) && Sized(disk1) && InodesOk(ino2) && Sized(disk2)
    requires i < |ino0| == |ino1| == |ino2|
    requires c < MAXFILE && off + |done| == c * BSIZE + k && k < BSIZE && k + |put| <= BSIZE
    requires Written(disk0, ino0, disk1, ino1, i, off, done)
    requires SizesKept(ino1, ino2, i) && Grows(disk1, ino1, disk2, ino2)
    requires Overwrites(disk1, ino1, disk2, ino2, i, c * BSIZE + k, put)
    requires put == [] || Ptr(disk2, ino2, RefOf(i, c)) != 0
    ensures Written(disk0, ino0, disk2, ino2, i, off, done + put)
  {
    assert (off + |done|) / BSIZE == c && (off + |done|) % BSIZE == k;
    WrittenMore(disk0, ino0, disk1, ino1, disk2, ino2, i, off, done, put);
  }

  // The logged blocks of a turn: one more block of data, and one more bitmap block unless the block
  // was there; the bitmap block of the first indirect block comes once.
  lemma StepLogged(disk0: seq<Blk>, ino0: seq<Inode>, logged0: set<int>, disk1: seq<Blk>, ino1: seq<Inode>, logged1: set<int>,
                   disk2: seq<Blk>, ino2: seq<Inode>, logged2: set<int>, i: nat, off: nat, a: nat, c: nat, addr: nat,
                   data: set<int>, maps: set<int>, added: set<int>)
    requires InodesOk(ino0) && Sized(disk0) && InodesOk(ino1) && Sized(disk1) && InodesOk(ino2) && Sized(disk2)
    requires i < |ino0| == |ino1| == |ino2| && a <= c < MAXFILE && a * BSIZE <= off < (a + 1) * BSIZE
    requires off <= ino0[i].size && Backed(disk0, ino0, i, ino0[i].size) && Grows(disk0, ino0, disk1, ino1)
    requires Tally(logged0, logged1, data, maps, ino1[i].addrs[NDIRECT])
    requires Counted(off, a, c, data, maps, ino0[i].addrs[NDIRECT], ino1[i].addrs[NDIRECT])
    requires addr == Ptr(disk2, ino2, RefOf(i, c))
    requires LogsMore(disk1, ino1, logged1, ino2, logged2, i, c, addr, added)
    ensures Tally(logged0, logged2, data + {addr}, maps + added, ino2[i].addrs[NDIRECT])
    ensures |data + {addr}| <= c + 1 - a
    ensures |maps + added| <= c + 1 - a - (if off > a * BSIZE then 1 else 0) + 1
    ensures addr != 0 ==> Counted(off, a, c + 1, data + {addr}, maps + added, ino0[i].addrs[NDIRECT], ino2[i].addrs[NDIRECT])
  {
    var ind0, ind1, ind2 := ino0[i].addrs[NDIRECT], ino1[i].addrs[NDIRECT], ino2[i].addrs[NDIRECT];
    TallyMore(logged0, logged1, logged2, data, maps, added, addr, ind1, ind2);
    assert c == a && off > a * BSIZE ==> Ptr(disk1, ino1, RefOf(i, c)) != 0 by {
      FirstBlock(disk0, ino0, disk1, ino1, i, off, a);
    }
    assert addr != 0 && c >= NDIRECT ==> ind2 != 0;
  }

  // Where the loop stops short decides how the write ends.
  lemma Stops(disk0: seq<Blk>, ino0: seq<Inode>, own0: seq<Owner>, i: nat, off: nat, n: nat, avail: nat, part: nat, tot: nat,
              a: nat, c: nat, turn: Turn)
    requires InodesOk(ino0) && Sized(disk0) && i < |ino0| && off + n <= MAXBYTES
    requires tot < n && tot <= avail && At(off, a, c, tot, n) && c < MAXFILE
    requires turn == NoBlock ==> Full(disk0, ino0, own0, i, a, c)
    requires turn == BadCopy ==> avail < n && At(off, a, c, tot, n) && avail < tot + Min(n - tot, (c + 1) * BSIZE - (off + tot))
                                 && Fits(disk0, ino0, own0, i, a, c + 1)
    requires turn != Copied
    ensures off / BSIZE == a && c + 1 - a <= Spans(off, n) && NewSpans(off, n) == Spans(off, n) - (if off > a * BSIZE then 1 else 0)
    ensures Outcome(disk0, ino0, own0, i, off, n, avail, part, tot, if turn == NoBlock then 0 else Min(part, avail - tot))
  {
    StopsAt(off, n, avail, tot, a, c);
  }

  lemma StopsAt(off: nat, n: nat, avail: nat, tot: nat, a: nat, c: nat)
    requires off + n <= MAXBYTES && tot < n && tot <= avail && At(off, a, c, tot, n) && c < MAXFILE
    ensures off / BSIZE == a && off % BSIZE == off - a * BSIZE && c + 1 <= a + Spans(off, n) <= MAXFILE
    ensures avail < n ==> c <= (off + avail) / BSIZE < MAXFILE
    ensures avail < tot + Min(n - tot, (c + 1) * BSIZE - (off + tot)) ==> avail < n && (off + avail) / BSIZE == c && ChunkStart(off, avail) == tot
  {
    assert (off + n - 1) / BSIZE >= c;
  }

  lemma Completes(disk0: seq<Blk>, ino0: seq<Inode>, own0: seq<Owner>, i: nat, off: nat, n: nat, avail: nat, part: nat, a: nat, c: nat)
    requires InodesOk(ino0) && Sized(disk0) && i < |ino0| && off + n <= MAXBYTES && n <= avail && At(off, a, c, n, n)
    requires n > 0 ==> c <= MAXFILE && Fits(disk0, ino0, own0, i, a, c)
    ensures off / BSIZE == a && c - a == Spans(off, n) && NewSpans(off, n) == c - a - (if off > a * BSIZE && c > a then 1 else 0)
    ensures Outcome(disk0, ino0, own0, i, off, n, avail, part, n, 0)
  {
    assert off / BSIZE == a;
    if n > 0 {
      assert (off + n - 1) / BSIZE == c - 1;
    }
  }

  // A write that starts inside a block of the file finds this block.
  lemma FirstBlock(disk0: seq<Blk>, ino0: seq<Inode>, disk: seq<Blk>, ino: seq<Inode>, i: nat, off: nat, a: nat)
    requires InodesOk(ino0) && InodesOk(ino) && i < |ino0| == |ino|
    requires Sized(disk0) && Sized(disk)
    requires a < MAXFILE && off <= ino0[i].size && Backed(disk0, ino0, i, ino0[i].size) && Grows(disk0, ino0, disk, ino)
    ensures off > a * BSIZE ==> Ptr(disk, ino, RefOf(i, a)) != 0
  {
    if off > a * BSIZE {
      assert Ptr(disk0, ino0, RefOf(i, a)) != 0;
    }
  }

  // The byte sequence with x laid over it at off, which is at most its length.
  function Overlay(s: seq<int>, off: nat, x: seq<int>): (t: seq<int>)
    requires off <= |s|
    ensures |t| == if off + |x| <= |s| then |s| else off + |x|
  {
    s[..off] + x + (if off + |x| <= |s| then s[off + |x|..] else [])
  }

  // The files after a write of x at off of file i, whose size has become size.
  ghost predicate FilesAfter(disk0: seq<Blk>, ino0: seq<Inode>, disk: seq<Blk>, ino: seq<Inode>, i: nat, off: nat, x: seq<int>, size: nat)
    requires InodesOk(ino0) && InodesOk(ino)
    requires Sized(disk0) && Sized(disk)
    requires FilesOk(disk0, ino0) && FilesOk(disk, ino)
  {
    && |ino| == |ino0| && i < |ino|
    && off <= ino0[i].size
    && size <= |Overlay(Content(disk0, ino0, i), off, x)|
    && Content(disk, ino, i) == Overlay(Content(disk0, ino0, i), off, x)[..size]
    && forall j: nat {:trigger ino[j]} :: j < |ino| && j != i ==> Content(disk, ino, j) == Content(disk0, ino0, j)
  }

  // Setting the size once the bytes are in place.
  lemma WrittenFiles(sb: Super, disk0: seq<Blk>, ino0: seq<Inode>, disk: seq<Blk>, ino: seq<Inode>, own: seq<Owner>,
                     i: nat, off: nat, x: seq<int>, size: nat)
    requires Inv(sb, disk, ino, own, {}) && InodesOk(ino0) && i < |ino0| == |ino|
    requires Sized(disk0)
    requires FilesOk(disk0, ino0) && off <= ino0[i].size <= size <= MAXBYTES
    requires size <= off + |x| || size == ino0[i].size
    requires Written(disk0, ino0, disk, ino, i, off, x)
    ensures Inv(sb, disk, ino[i := ino[i].(size := size)], own, {})
    ensures FilesOk(disk, ino[i := ino[i].(size := size)])
    ensures FilesAfter(disk0, ino0, disk, ino[i := ino[i].(size := size)], i, off, x, size)
  {
    ResizeInv(sb, disk, ino, own, i, size);
    var ino' := ino[i := ino[i].(size := size)];
    forall j: nat, p: nat | j < |ino| && p < MAXBYTES ensures Byte(disk, ino', j, p) == Byte(disk, ino, j, p) {
      assert Ptr(disk, ino', RefOf(j, p / BSIZE)) == Ptr(disk, ino, RefOf(j, p / BSIZE));
    }
    forall j: nat | j < |ino'| ensures ino'[j].size <= MAXBYTES && Backed(disk, ino', j, ino'[j].size) {
      StillBacked(disk0, ino0, disk, ino, ino', i, off + |x|, j);
    }
    forall j: nat | j < |ino'| && j != i ensures Content(disk, ino', j) == Content(disk0, ino0, j) {
      assert ino'[j].size == ino[j].size == ino0[j].size;
    }
    var t := Overlay(Content(disk0, ino0, i), off, x);
    forall p: nat | p < size ensures Byte(disk, ino', i, p) == t[p] {
    }
    assert Content(disk, ino', i) == t[..size];
  }

  lemma StillBacked(disk0: seq<Blk>, ino0: seq<Inode>, disk: seq<Blk>, ino: seq<Inode>, ino': seq<Inode>, i: nat, upto: nat, j: nat)
    requires InodesOk(ino0) && InodesOk(ino) && InodesOk(ino') && |ino0| == |ino| == |ino'|
    requires Sized(disk0) && Sized(disk)
    requires FilesOk(disk0, ino0) && Grows(disk0, ino0, disk, ino) && i < |ino| && j < |ino|
    requires forall r {:trigger Ptr(disk, ino', r)} :: ValidRef(|ino|, r) ==> Ptr(disk, ino', r) == Ptr(disk, ino, r)
    requires Backed(disk, ino, i, upto)
    requires ino'[j].size == ino0[j].size || (j == i && ino'[j].size <= upto)
    ensures Backed(disk, ino', j, ino'[j].size)
  {
    forall bn: nat | bn < MAXFILE && bn * BSIZE < ino'[j].size ensures Ptr(disk, ino', RefOf(j, bn)) != 0 {
      assert Ptr(disk, ino', RefOf(j, bn)) == Ptr(disk, ino, RefOf(j, bn));
      if ino'[j].size == ino0[j].size {
        assert Ptr(disk0, ino0, RefOf(j, bn)) != 0;
      }
    }
  }

  // The end of writei: the size is set and the inode written.
  method FinishWrite(fs: FileSys, i: nat, off: nat, tot: nat, ghost disk0: seq<Blk>, ghost ino0: seq<Inode>, ghost laid: seq<int>)
    requires fs.Ok() && Settled(fs.own) && InodesOk(ino0) && Sized(disk0) && i < |ino0| == |fs.ino|
    requires fs.dino == ino0 && FilesOk(disk0, ino0) && off <= ino0[i].size && off + tot <= MAXBYTES && tot <= |laid|
    requires Written(disk0, ino0, fs.disk, fs.ino, i, off, laid)
    modifies fs`ino, fs`dino, fs`logged
    ensures Valid(fs) && |fs.ino| == |ino0| && fs.ino[i].size == Max(ino0[i].size, off + tot)
    ensures FilesAfter(disk0, ino0, fs.disk, fs.ino, i, off, laid, fs.ino[i].size)
    ensures PtrsKept(fs.disk, old(fs.ino), fs.disk, fs.ino, {}) && fs.ino[i].addrs == old(fs.ino)[i].addrs
    ensures fs.logged == old(fs.logged) + {InodeAt(fs.sb, i)}
  {
    assert ino0[i].size <= MAXBYTES && fs.ino[i].size == ino0[i].size;
    var size := if off + tot > fs.ino[i].size then off + tot else fs.ino[i].size;
    WrittenFiles(fs.sb, disk0, ino0, fs.disk, fs.ino, fs.own, i, off, laid, size);
    ResizeInv(fs.sb, fs.disk, fs.ino, fs.own, i, size);
    fs.ino := fs.ino[i := fs.ino[i].(size := size)];
    fs.Iupdate(i);
    assert fs.dino == fs.ino;
  }

  // What writei has done with n bytes at off, of which the caller's memory delivers avail.  It
  // returns -1, with nothing done, for a start past the end of the file or an end past the largest
  // file; otherwise x lies over the file, r bytes of it count, and Outcome says, from the state
  // before, which.
  ghost predicate WriteDone(disk0: seq<Blk>, ino0: seq<Inode>, own0: seq<Owner>, disk: seq<Blk>, ino: seq<Inode>, own: seq<Owner>,
                            i: nat, off: nat, n: nat, avail: nat, part: nat, r: int, x: seq<int>)
    requires InodesOk(ino0) && Sized(disk0) && FilesOk(disk0, ino0) && InodesOk(ino) && Sized(disk) && FilesOk(disk, ino)
  {
    && i < |ino| == |ino0|
    && (r == -1 <==> off > ino0[i].size || off + n > MAXBYTES)
    && if r == -1 then
         disk == disk0 && ino == ino0 && own == own0 && x == []
       else
         && 0 <= r <= n && r <= |x|
         && ino[i].size == Max(ino0[i].size, off + r)
         && FilesAfter(disk0, ino0, disk, ino, i, off, x, ino[i].size)
         && Outcome(disk0, ino0, own0, i, off, n, avail, part, r, |x| - r)
         && (r == n ==> Track(disk0, ino0, own0, disk, ino, own, i, off / BSIZE, off / BSIZE + Spans(off, n)))
  }

  // writei.
  method Writei(fs: FileSys, i: nat, off: nat, n: nat, src: seq<int>, part: nat) returns (r: int, ghost laid: seq<int>)
    requires Valid(fs) && i < |fs.ino| && off < U32 && n < U32
    modifies fs`disk, fs`ino, fs`dino, fs`own, fs`logged, fs`torn
    ensures n <= |src| ==> fs.torn == old(fs.torn)
    ensures Valid(fs)
    ensures WriteDone(old(fs.disk), old(fs.ino), old(fs.own), fs.disk, fs.ino, fs.own, i, off, n, |src|, part, r, laid)
    ensures |laid| <= |src| && laid == src[..|laid|]
    ensures 0 <= r < n ==> |src| < n || forall c: nat :: c < fs.sb.size ==> Marked(fs.sb, fs.disk, c)
    ensures if r == -1 then fs.logged == old(fs.logged)
            else |fs.logged| <= |old(fs.logged)| + Spans(off, n) + NewSpans(off, n) + 3
  {
    laid := [];
    if off > fs.ino[i].size || (off + n) % U32 < off {
      return -1, [];
    }
    if (off + n) % U32 > MAXBYTES {
      return -1, [];
    }
    ghost var disk0, ino0, own0, logged0 := fs.disk, fs.ino, fs.own, fs.logged;
    assert ino0[i].size <= MAXBYTES && Backed(disk0, ino0, i, ino0[i].size);
    var tot;
    ghost var data, maps;
    tot, laid, data, maps := WriteLoop(fs, i, off, n, src, part);
    ghost var ino1 := fs.ino;
    TallyBound(logged0, fs.logged, data, maps, fs.ino[i].addrs[NDIRECT], InodeAt(fs.sb, i));
    FinishWrite(fs, i, off, tot, disk0, ino0, laid);
    r := tot;
    IsDone(disk0, ino0, own0, ino1, fs.disk, fs.ino, fs.own, i, off, n, |src|, part, r, laid);
  }

  lemma IsDone(disk0: seq<Blk>, ino0: seq<Inode>, own0: seq<Owner>, ino1: seq<Inode>, disk: seq<Blk>, ino: seq<Inode>, own: seq<Owner>,
               i: nat, off: nat, n: nat, avail: nat, part: nat, r: nat, x: seq<int>)
    requires InodesOk(ino0) && Sized(disk0) && FilesOk(disk0, ino0) && InodesOk(ino1) && InodesOk(ino) && Sized(disk) && FilesOk(disk, ino)
    requires i < |ino| == |ino1| == |ino0| && off <= ino0[i].size && off + n <= MAXBYTES && r <= n && r <= |x|
    requires ino[i].size == Max(ino0[i].size, off + r) && FilesAfter(disk0, ino0, disk, ino, i, off, x, ino[i].size)
    requires Outcome(disk0, ino0, own0, i, off, n, avail, part, r, |x| - r)
    requires PtrsKept(disk, ino1, disk, ino, {}) && ino[i].addrs == ino1[i].addrs
    requires r == n ==> Track(disk0, ino0, own0, disk, ino1, own, i, off / BSIZE, off / BSIZE + Spans(off, n))
    ensures WriteDone(disk0, ino0, own0, disk, ino, own, i, off, n, avail, part, r, x)
  {
    if r == n {
      TrackSize(disk0, ino0, own0, disk, ino1, own, ino, i, off / BSIZE, off / BSIZE + Spans(off, n));
    }
  }

  // One block's worth of readi: with no holes bmap finds the block and changes nothing.
  method ReadChunk(fs: FileSys, i: nat, off: nat, m: nat) returns (x: seq<int>)
    requires Valid(fs) && i < |fs.ino| && off % BSIZE + m <= BSIZE && off + m <= fs.ino[i].size && 0 < m
    modifies fs`disk, fs`ino, fs`own, fs`logged
    ensures fs.disk == old(fs.disk) && fs.ino == old(fs.ino) && fs.own == old(fs.own) && fs.logged == old(fs.logged)
    ensures fs.ino[i].size <= MAXBYTES && x == Content(fs.disk, fs.ino, i)[off..off + m]
  {
    assert fs.ino[i].size <= MAXBYTES && Backed(fs.disk, fs.ino, i, fs.ino[i].size);
    assert off / BSIZE * BSIZE <= off;
    assert Ptr(fs.disk, fs.ino, RefOf(i, off / BSIZE)) != 0;
    Located(fs.sb, fs.disk, fs.ino, fs.own, i, off);
    var panicked, addr, maps := fs.Bmap(i, off / BSIZE);
    x := fs.disk[addr][off % BSIZE..off % BSIZE + m];
    forall k | 0 <= k < m ensures x[k] == Content(fs.disk, fs.ino, i)[off + k] {
      assert (off + k) / BSIZE == off / BSIZE && (off + k) % BSIZE == off % BSIZE + k;
      assert Byte(fs.disk, fs.ino, i, off + k) == x[k];
    }
  }

  // readi.  room is how much of the destination can be written; the answer is the part of the
  // request that lies in the file, or -1 when it does not fit.
  method Readi(fs: FileSys, i: nat, off: nat, n: nat, room: nat) returns (r: int, out: seq<int>)
    requires Valid(fs) && i < |fs.ino| && off < U32 && n < U32
    modifies fs`disk, fs`ino, fs`own, fs`logged
    ensures fs.disk == old(fs.disk) && fs.ino == old(fs.ino) && fs.own == old(fs.own) && fs.logged == old(fs.logged)
    ensures fs.ino[i].size <= MAXBYTES
    ensures off > fs.ino[i].size || off + n >= U32 ==> r == 0 && out == []
    ensures off <= fs.ino[i].size && off + n < U32 ==>
              var k := Min(n, fs.ino[i].size - off);
              r == (if k <= room then k else -1)
              && (k <= room ==> out == Content(fs.disk, fs.ino, i)[off..off + k])
  {
    out := [];
    assert fs.ino[i].size <= MAXBYTES;
    if off > fs.ino[i].size || (off + n) % U32 < off {
      return 0, [];
    }
    var size := fs.ino[i].size;
    var k := if (off + n) % U32 > size then size - off else n;
    assert k == Min(n, size - off);
    r, out := ReadLoop(fs, i, off, k, room);
  }

  // readi's loop, for a request that lies in the file.
  method ReadLoop(fs: FileSys, i: nat, off: nat, k: nat, room: nat) returns (r: int, out: seq<int>)
    requires Valid(fs) && i < |fs.ino| && off + k <= fs.ino[i].size <= MAXBYTES
    modifies fs`disk, fs`ino, fs`own, fs`logged
    ensures fs.disk == old(fs.disk) && fs.ino == old(fs.ino) && fs.own == old(fs.own) && fs.logged == old(fs.logged)
    ensures r == if k <= room then k else -1
    ensures k <= room ==> out == Content(fs.disk, fs.ino, i)[off..off + k]
  {
    ghost var bytes := Content(fs.disk, fs.ino, i);
    out := [];
    var tot := 0;
    while tot < k
      invariant tot <= k && tot <= room
      invariant fs.disk == old(fs.disk) && fs.ino == old(fs.ino) && fs.own == old(fs.own) && fs.logged == old(fs.logged)
      invariant out == bytes[off..off + tot]
      decreases k - tot
    {
      var m := Min(k - tot, BSIZE - (off + tot) % BSIZE);
      var x := ReadChunk(fs, i, off + tot, m);
      if tot + m > room {
        return -1, out;
      }
      Slices(bytes, off, tot, m);
      out := out + x;
      tot := tot + m;
    }
    r := tot;
  }

  lemma Slices(s: seq<int>, off: nat, tot: nat, m: nat)
    requires off + tot + m <= |s|
    ensures s[off..off + tot] + s[off + tot..off + tot + m] == s[off..off + tot + m]
  {
  }

  // A read of what was just written gives it back.
  lemma ReadsBack(s: seq<int>, off: nat, x: seq<int>, size: nat)
    requires off <= |s| && off + |x| <= size <= |Overlay(s, off, x)|
    ensures Overlay(s, off, x)[..size][off..off + |x|] == x
  {
  }

  // Where only metadata blocks change, a file whose inode stays keeps its pointers and bytes.
  lemma OtherFile(sb: Super, disk0: seq<Blk>, ino0: seq<Inode>, own0: seq<Owner>, disk: seq<Blk>, ino: seq<Inode>, j: nat)
    requires Inv(sb, disk0, ino0, own0, {}) && FilesOk(disk0, ino0) && OnlyMeta(disk0, disk, own0)
    requires Sized(disk) && InodesOk(ino) && j < |ino| == |ino0| && ino[j] == ino0[j]
    ensures ino[j].size <= MAXBYTES && Backed(disk, ino, j, ino[j].size)
    ensures Content(disk, ino, j) == Content(disk0, ino0, j)
  {
    assert ino0[j].size <= MAXBYTES && Backed(disk0, ino0, j, ino0[j].size);
    forall bn: nat | bn < MAXFILE
      ensures Ptr(disk, ino, RefOf(j, bn)) == Ptr(disk0, ino0, RefOf(j, bn))
    {
      assert PtrOk(disk0, ino0, own0, Indirect(j));
    }
    forall p: nat | p < ino[j].size ensures Byte(disk, ino, j, p) == Byte(disk0, ino0, j, p) {
      Located(sb, disk0, ino0, own0, j, p);
      assert Ptr(disk, ino, RefOf(j, p / BSIZE)) == Ptr(disk0, ino0, RefOf(j, p / BSIZE));
    }
    forall bn: nat | bn < MAXFILE && bn * BSIZE < ino[j].size ensures Ptr(disk, ino, RefOf(j, bn)) != 0 {
      assert Ptr(disk0, ino0, RefOf(j, bn)) != 0;
    }
  }

  // File i is empty and the others are as they were.
  ghost predicate OneEmptied(disk0: seq<Blk>, ino0: seq<Inode>, disk: seq<Blk>, ino: seq<Inode>, i: nat)
    requires InodesOk(ino0) && Sized(disk0) && FilesOk(disk0, ino0) && InodesOk(ino) && Sized(disk) && FilesOk(disk, ino)
  {
    && i < |ino| == |ino0|
    && Content(disk, ino, i) == []
    && forall j: nat {:trigger ino[j]} :: j < |ino| && j != i ==> Content(disk, ino, j) == Content(disk0, ino0, j)
  }

  // itrunc empties one file and leaves the others as they are.
  method Truncate(fs: FileSys, i: nat)
    requires Valid(fs) && i < |fs.ino|
    modifies fs`disk, fs`ino, fs`dino, fs`own, fs`logged
    ensures Valid(fs) && OneEmptied(old(fs.disk), old(fs.ino), fs.disk, fs.ino, i)
  {
    ghost var disk0, ino0, own0 := fs.disk, fs.ino, fs.own;
    fs.Itrunc(i);
    forall j: nat | j < |fs.ino| && j != i
      ensures fs.ino[j].size <= MAXBYTES && Backed(fs.disk, fs.ino, j, fs.ino[j].size)
      ensures Content(fs.disk, fs.ino, j) == Content(disk0, ino0, j)
    {
      OtherFile(fs.sb, disk0, ino0, own0, fs.disk, fs.ino, j);
    }
  }
}
