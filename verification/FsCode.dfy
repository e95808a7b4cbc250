/**
  kernel/fs.c over a logical disk: block allocation, block maps and truncation.  "disk" is what
  the buffer cache and the log present, so every change to it here is a change to a locked
  buffer; "logged" collects the blocks passed to log_write since the transaction began.
 */
module FsCode {
  import opened FsModel

  // The place that holds the number of block bn of a file.
  function RefOf(i: nat, bn: nat): Ref {
    if bn < NDIRECT then Direct(i, bn) else Entry(i, bn - NDIRECT)
  }

  // Blocks of file data are untouched, and so is who owns them.
  ghost predicate DataKept(disk: seq<Blk>, d: seq<Blk>, own: seq<Owner>, own': seq<Owner>)
    requires |disk| == |d| == |own| == |own'|
  {
    forall b {:trigger own[b]} {:trigger d[b]} :: 0 <= b < |disk| && DataRef(own[b]) ==>
      d[b] == disk[b] && own'[b] == own[b]
  }

  // Only the named places may hold another block number.
  ghost predicate PtrsKept(disk: seq<Blk>, ino: seq<Inode>, d: seq<Blk>, ino': seq<Inode>, except: set<Ref>)
    requires InodesOk(ino) && InodesOk(ino') && |ino| == |ino'|
    requires Sized(disk) && Sized(d)
  {
    forall r {:trigger Ptr(d, ino', r)} :: ValidRef(|ino|, r) && r !in except ==> Ptr(d, ino', r) == Ptr(disk, ino, r)
  }

  // Nothing allocated is left hanging in the air.
  ghost predicate Settled(own: seq<Owner>) {
    forall b {:trigger own[b]} :: 0 <= b < |own| ==> own[b] != Fresh
  }

  // No inode but i changes, and the sizes stay.
  ghost predicate SizesKept(ino: seq<Inode>, ino': seq<Inode>, i: nat) {
    && |ino'| == |ino|
    && forall j {:trigger ino'[j]} :: 0 <= j < |ino| ==> ino'[j].size == ino[j].size && (j != i ==> ino'[j] == ino[j])
  }

  ghost predicate Shapes(disk: seq<Blk>, ino: seq<Inode>, own: seq<Owner>) {
    && InodesOk(ino)
    && |own| == |disk|
    && Sized(disk)
  }

  // What bmap does: the block of the file is looked up, or a fresh zeroed block is hung in its
  // place; no other pointer but the one to a first indirect block changes, and no file's data.
  ghost predicate Mapped(disk: seq<Blk>, ino: seq<Inode>, own: seq<Owner>,
                         d: seq<Blk>, ino': seq<Inode>, own': seq<Owner>, i: nat, bn: nat, addr: nat)
    requires Shapes(disk, ino, own) && Shapes(d, ino', own') && |d| == |disk|
    requires i < |ino| && bn < MAXFILE
  {
    && SizesKept(ino, ino', i)
    && DataKept(disk, d, own, own')
    && (Settled(own) ==> Settled(own'))
    && PtrsKept(disk, ino, d, ino', {RefOf(i, bn), Indirect(i)})
    && (ino[i].addrs[NDIRECT] != 0 || bn < NDIRECT ==> ino'[i].addrs[NDIRECT] == ino[i].addrs[NDIRECT])
    && addr == Ptr(d, ino', RefOf(i, bn))
    && (addr != 0 ==> addr < |d| && own'[addr] == Owned(RefOf(i, bn)))
    && (Ptr(disk, ino, RefOf(i, bn)) != 0 ==> d == disk && ino' == ino && own' == own)
    && (Ptr(disk, ino, RefOf(i, bn)) == 0 && addr != 0 ==> own[addr] == Nobody && d[addr] == ZeroBlk())
  }

  // What bmap logs: at most one bitmap block per allocation ("maps"), the new block, and the
  // indirect block.
  ghost predicate LogsFor(disk: seq<Blk>, ino: seq<Inode>, logged: set<int>, ino': seq<Inode>, logged': set<int>,
                          i: nat, bn: nat, addr: nat, maps: set<int>)
    requires InodesOk(ino) && InodesOk(ino') && i < |ino| == |ino'| && bn < MAXFILE
    requires Sized(disk)
  {
    var had := Ptr(disk, ino, RefOf(i, bn)) != 0;
    && logged <= logged' <= logged + maps + {addr, ino'[i].addrs[NDIRECT]}
    && (had ==> logged' == logged)
    && (bn < NDIRECT ==> logged' <= logged + maps + {addr})
    && 0 !in logged' - logged
    && |maps| <= (if had then 0 else 1) + (if ino[i].addrs[NDIRECT] == 0 && bn >= NDIRECT then 1 else 0)
  }

  // ------------------------------------------------------------------
  // Free space
  // ------------------------------------------------------------------

  function FreeOnes(own: seq<Owner>): set<nat> {
    set b: nat | b < |own| && own[b] == Nobody
  }

  function Avail(own: seq<Owner>): nat {
    |FreeOnes(own)|
  }

  // The blocks that are clear in the bitmap.
  ghost function Unmarked(sb: Super, disk: seq<Blk>): set<nat>
    requires DiskOk(sb, disk)
  {
    set b: nat | b < sb.size && !Marked(sb, disk, b)
  }

  lemma AvailIsUnmarked(sb: Super, disk: seq<Blk>, ino: seq<Inode>, own: seq<Owner>)
    requires Inv(sb, disk, ino, own, {})
    ensures FreeOnes(own) == Unmarked(sb, disk)
  {
    forall b: nat ensures b in FreeOnes(own) <==> b in Unmarked(sb, disk) {
      if b < |own| {
        assert OwnerOk(sb, disk, ino, own, b);
      }
    }
  }

  lemma AllTaken(sb: Super, disk: seq<Blk>, ino: seq<Inode>, own: seq<Owner>)
    requires Inv(sb, disk, ino, own, {})
    ensures Avail(own) == 0 <==> forall c: nat :: c < sb.size ==> Marked(sb, disk, c)
  {
    AvailIsUnmarked(sb, disk, ino, own);
    if Avail(own) == 0 {
      forall c: nat | c < sb.size ensures Marked(sb, disk, c) {
        assert c !in FreeOnes(own);
      }
    } else {
      var c :| c in FreeOnes(own);
      assert c in Unmarked(sb, disk);
    }
  }

  lemma TakeOne(own: seq<Owner>, b: nat, o: Owner)
    requires b < |own| && own[b] == Nobody && o != Nobody
    ensures Avail(own[b := o]) == Avail(own) - 1
  {
    assert FreeOnes(own[b := o]) == FreeOnes(own) - {b};
  }

  // How many blocks bmap must allocate for block bn of file i.
  ghost function Wanted(disk: seq<Blk>, ino: seq<Inode>, i: nat, bn: nat): nat
    requires InodesOk(ino) && Sized(disk) && i < |ino| && bn < MAXFILE
  {
    (if Ptr(disk, ino, RefOf(i, bn)) == 0 then 1 else 0) + (if bn >= NDIRECT && ino[i].addrs[NDIRECT] == 0 then 1 else 0)
  }

  // bmap succeeds exactly when they are there, and takes no more.
  ghost predicate Spends(disk: seq<Blk>, ino: seq<Inode>, own: seq<Owner>, own': seq<Owner>, i: nat, bn: nat, addr: nat)
    requires InodesOk(ino) && Sized(disk) && i < |ino| && bn < MAXFILE
  {
    var w := Wanted(disk, ino, i, bn);
    (addr != 0 <==> w <= Avail(own)) && (addr != 0 ==> Avail(own') == Avail(own) - w)
  }

  lemma MoreLogged(logged0: set<int>, logged1: set<int>, logged2: set<int>, maps: set<int>, m: int, addr: int, ind: int)
    requires logged0 <= logged1 <= logged0 + maps + {ind}
    requires logged2 == logged1 + {m, addr, ind}
    ensures logged0 <= logged2 <= logged0 + (maps + {m}) + {addr, ind}
    ensures |maps + {m}| <= |maps| + 1
  {
    if m in maps {
      assert maps + {m} == maps;
    }
  }

  // At most the blocks of inode i have become free; nobody else's owner changed.
  ghost predicate OthersKept(own: seq<Owner>, own': seq<Owner>, i: nat) {
    && |own'| == |own|
    && forall b {:trigger own'[b]} :: 0 <= b < |own| ==>
         own'[b] == own[b] || (own'[b] == Nobody && own[b].Owned? && own[b].ref.inum == i)
  }

  // Only metadata blocks (here: the bitmap) have changed.
  ghost predicate OnlyMeta(disk: seq<Blk>, d: seq<Blk>, own: seq<Owner>) {
    && |d| == |disk| == |own|
    && forall b {:trigger d[b]} :: 0 <= b < |disk| && own[b] != Meta ==> d[b] == disk[b]
  }

  // What it takes to have the indirect block of file i: it is there, at ind, or allocated, or there
  // is none.
  ghost predicate IndirectThere(disk: seq<Blk>, ino: seq<Inode>, own: seq<Owner>, logged: set<int>,
                                d: seq<Blk>, ino': seq<Inode>, own': seq<Owner>, logged': set<int>, i: nat, ind: nat, maps: set<int>)
    requires Shapes(disk, ino, own) && Shapes(d, ino', own') && |d| == |disk| && i < |ino|
  {
    && SizesKept(ino, ino', i) && DataKept(disk, d, own, own') && (Settled(own) ==> Settled(own'))
    && PtrsKept(disk, ino, d, ino', {Indirect(i)})
    && ino'[i].addrs[NDIRECT] == ind
    && (ino[i].addrs[NDIRECT] != 0 ==> d == disk && ino' == ino && own' == own && logged' == logged && maps == {})
    && (forall b {:trigger own'[b]} :: 0 <= b < |own| && own'[b] == Nobody ==> own[b] == Nobody)
    && (ind == 0 <==> ino[i].addrs[NDIRECT] == 0 && Avail(own) == 0)
    && (ind != 0 ==> Avail(own') == Avail(own) - (if ino[i].addrs[NDIRECT] == 0 then 1 else 0))
    && logged <= logged' <= logged + maps + {ind} && 0 !in logged' - logged && |maps| <= 1
  }

  // And an entry of it.
  ghost predicate EntryThere(sb: Super, disk: seq<Blk>, ino: seq<Inode>, own: seq<Owner>, logged: set<int>,
                             d: seq<Blk>, own': seq<Owner>, logged': set<int>, i: nat, j: nat, addr: nat)
    requires Shapes(disk, ino, own) && Shapes(d, ino, own') && |d| == |disk| && i < |ino| && j < NINDIRECT
  {
    var had := Ptr(disk, ino, Entry(i, j)) != 0;
    && DataKept(disk, d, own, own') && (Settled(own) ==> Settled(own'))
    && PtrsKept(disk, ino, d, ino, {Entry(i, j)})
    && Ptr(d, ino, Entry(i, j)) == addr
    && (had || addr == 0 ==> d == disk && own' == own && logged' == logged)
    && (!had && addr != 0 ==>
          && addr < |d| && own[addr] == Nobody && d[addr] == ZeroBlk() && Avail(own') == Avail(own) - 1
          && logged' == logged + {MapBlock(sb, addr), addr, ino[i].addrs[NDIRECT]})
    && (addr == 0 <==> !had && Avail(own) == 0)
  }

  lemma NoIndirect(sb: Super, disk: seq<Blk>, ino: seq<Inode>, own: seq<Owner>, logged: set<int>,
                   d: seq<Blk>, ino': seq<Inode>, own': seq<Owner>, logged': set<int>, i: nat, bn: nat, maps: set<int>)
    requires Inv(sb, disk, ino, own, {}) && Inv(sb, d, ino', own', {}) && i < |ino| && NDIRECT <= bn < MAXFILE
    requires IndirectThere(disk, ino, own, logged, d, ino', own', logged', i, 0, maps)
    ensures Mapped(disk, ino, own, d, ino', own', i, bn, 0) && LogsFor(disk, ino, logged, ino', logged', i, bn, 0, maps)
    ensures Spends(disk, ino, own, own', i, bn, 0)
  {
    assert Ptr(d, ino', RefOf(i, bn)) == Ptr(disk, ino, RefOf(i, bn));
  }

  // The two allocations put together.
  lemma BothThere(sb: Super, disk0: seq<Blk>, ino0: seq<Inode>, own0: seq<Owner>, logged0: set<int>,
                  disk1: seq<Blk>, own1: seq<Owner>, logged1: set<int>, disk: seq<Blk>, ino: seq<Inode>, own: seq<Owner>, logged: set<int>,
                  i: nat, bn: nat, addr: nat, maps: set<int>)
    requires Inv(sb, disk0, ino0, own0, {}) && Inv(sb, disk1, ino, own1, {}) && Inv(sb, disk, ino, own, {})
    requires i < |ino0| == |ino| && NDIRECT <= bn < MAXFILE && ino[i].addrs[NDIRECT] > 0
    requires IndirectThere(disk0, ino0, own0, logged0, disk1, ino, own1, logged1, i, ino[i].addrs[NDIRECT], maps)
    requires EntryThere(sb, disk1, ino, own1, logged1, disk, own, logged, i, bn - NDIRECT, addr)
    ensures Mapped(disk0, ino0, own0, disk, ino, own, i, bn, addr)
  {
    var ref := Entry(i, bn - NDIRECT);
    assert Ptr(disk1, ino, ref) == Ptr(disk0, ino0, ref);
    assert PtrOk(disk, ino, own, ref);
    forall r | ValidRef(|ino|, r) && r !in {ref, Indirect(i)} ensures Ptr(disk, ino, r) == Ptr(disk0, ino0, r) {
      assert Ptr(disk1, ino, r) == Ptr(disk0, ino0, r);
    }
  }

  lemma BothLogged(sb: Super, disk0: seq<Blk>, ino0: seq<Inode>, own0: seq<Owner>, logged0: set<int>,
                   disk1: seq<Blk>, own1: seq<Owner>, logged1: set<int>, disk: seq<Blk>, ino: seq<Inode>, own: seq<Owner>, logged: set<int>,
                   i: nat, bn: nat, addr: nat, maps: set<int>)
    requires Inv(sb, disk0, ino0, own0, {}) && Inv(sb, disk1, ino, own1, {}) && Inv(sb, disk, ino, own, {})
    requires i < |ino0| == |ino| && NDIRECT <= bn < MAXFILE && ino[i].addrs[NDIRECT] > 0
    requires IndirectThere(disk0, ino0, own0, logged0, disk1, ino, own1, logged1, i, ino[i].addrs[NDIRECT], maps)
    requires EntryThere(sb, disk1, ino, own1, logged1, disk, own, logged, i, bn - NDIRECT, addr)
    ensures Spends(disk0, ino0, own0, own, i, bn, addr)
    ensures var more := if Ptr(disk1, ino, RefOf(i, bn)) == 0 && addr != 0 then {MapBlock(sb, addr)} else {};
            LogsFor(disk0, ino0, logged0, ino, logged, i, bn, addr, maps + more)
  {
    var ref := Entry(i, bn - NDIRECT);
    assert Ptr(disk1, ino, ref) == Ptr(disk0, ino0, ref);
    assert PtrOk(disk0, ino0, own0, Indirect(i));
    if Ptr(disk1, ino, ref) == 0 && addr != 0 {
      MoreLogged(logged0, logged1, logged, maps, MapBlock(sb, addr), addr, ino[i].addrs[NDIRECT]);
    } else {
      assert maps + {} == maps;
    }
  }

  // ------------------------------------------------------------------
  // What the log has
  // ------------------------------------------------------------------

  // Block b is as the log last got it, or passed to log_write since, or a failed copy has changed
  // it; a block of the latter kind holds no pointers.  Metadata blocks stay metadata blocks.
  ghost predicate BlockTracked(base: seq<Blk>, disk: seq<Blk>, own: seq<Owner>, meta: set<int>, logged: set<int>, torn: set<int>, b: nat)
    requires b < |base| == |disk| == |own|
  {
    && |base[b]| == BSIZE
    && (disk[b] == base[b] || b in logged || b in torn)
    && (b in torn ==> b in logged || !HoldsPointers(own[b]))
    && (own[b] == Meta <==> b in meta)
  }

  predicate HoldsPointers(o: Owner) {
    o == Meta || (o.Owned? && o.ref.Indirect?)
  }

  ghost predicate Tracked(base: seq<Blk>, disk: seq<Blk>, own: seq<Owner>, meta: set<int>, logged: set<int>, torn: set<int>) {
    && |base| == |disk| == |own|
    && forall b: nat {:trigger BlockTracked(base, disk, own, meta, logged, torn, b)} ::
         b < |disk| ==> BlockTracked(base, disk, own, meta, logged, torn, b)
  }

  function InodeAt(sb: Super, i: nat): nat {
    sb.inodestart + i / IPB
  }

  // The blocks of the bitmap and those of n inodes.
  predicate IsMapBlock(sb: Super, b: int)
    requires sb.size > 0
  {
    sb.bmapstart <= b <= sb.bmapstart + (sb.size - 1) / BPB
  }

  predicate IsInodeBlock(sb: Super, n: nat, b: int) {
    sb.inodestart <= b < sb.inodestart + (n + IPB - 1) / IPB
  }

  // What goes to the log: blocks of files, bitmap blocks and inode blocks.
  ghost predicate Loggable(sb: Super, n: nat, meta: set<int>, b: int)
    requires sb.size > 0
  {
    (0 <= b < sb.size && b !in meta) || IsMapBlock(sb, b) || IsInodeBlock(sb, n, b)
  }

  ghost predicate AllLoggable(sb: Super, n: nat, meta: set<int>, logged: set<int>)
    requires sb.size > 0
  {
    forall b {:trigger Loggable(sb, n, meta, b)} :: b in logged ==> Loggable(sb, n, meta, b)
  }

  lemma LogOne(sb: Super, n: nat, meta: set<int>, logged: set<int>, b: int)
    requires sb.size > 0 && AllLoggable(sb, n, meta, logged) && Loggable(sb, n, meta, b)
    ensures AllLoggable(sb, n, meta, logged + {b})
  {
    forall c | c in logged + {b} ensures Loggable(sb, n, meta, c) {
    }
  }

  // A block with an owner, or free, is none of the metadata.
  lemma LogBlock(sb: Super, base: seq<Blk>, disk: seq<Blk>, own: seq<Owner>, n: nat, meta: set<int>, logged: set<int>, torn: set<int>, b: nat)
    requires sb.size == |disk| && sb.size > 0 && b < |disk| && Tracked(base, disk, own, meta, logged, torn) && own[b] != Meta
    requires AllLoggable(sb, n, meta, logged)
    ensures AllLoggable(sb, n, meta, logged + {b})
  {
    assert BlockTracked(base, disk, own, meta, logged, torn, b);
    LogOne(sb, n, meta, logged, b);
  }

  lemma LogMap(sb: Super, n: nat, meta: set<int>, logged: set<int>, b: nat)
    requires b < sb.size && AllLoggable(sb, n, meta, logged)
    ensures AllLoggable(sb, n, meta, logged + {MapBlock(sb, b)})
  {
    assert b / BPB <= (sb.size - 1) / BPB;
    LogOne(sb, n, meta, logged, MapBlock(sb, b));
  }

  lemma LogInode(sb: Super, n: nat, meta: set<int>, logged: set<int>, i: nat)
    requires i < n && sb.size > 0 && AllLoggable(sb, n, meta, logged)
    ensures AllLoggable(sb, n, meta, logged + {InodeAt(sb, i)})
  {
    assert i / IPB < (n + IPB - 1) / IPB;
    LogOne(sb, n, meta, logged, InodeAt(sb, i));
  }

  // The same for inodes, which iupdate writes and logs at once.
  ghost predicate InodesTracked(sb: Super, dbase: seq<Inode>, dino: seq<Inode>, logged: set<int>) {
    && |dbase| == |dino|
    && forall i: nat {:trigger dino[i]} :: i < |dino| ==> dino[i] == dbase[i] || InodeAt(sb, i) in logged
  }

  // log_write of a block that has got new contents.
  lemma TrackWrite(base: seq<Blk>, disk: seq<Blk>, own: seq<Owner>, meta: set<int>, logged: set<int>, torn: set<int>, b: nat, blk: Blk)
    requires Tracked(base, disk, own, meta, logged, torn) && b < |disk|
    ensures Tracked(base, disk[b := blk], own, meta, logged + {b}, torn)
  {
    var d, more := disk[b := blk], logged + {b};
    forall c: nat | c < |disk| ensures BlockTracked(base, d, own, meta, more, torn, c) {
      assert BlockTracked(base, disk, own, meta, logged, torn, c);
    }
  }

  // A block has got another owner.
  lemma TrackOwner(base: seq<Blk>, disk: seq<Blk>, own: seq<Owner>, meta: set<int>, logged: set<int>, torn: set<int>, b: nat, o: Owner)
    requires Tracked(base, disk, own, meta, logged, torn) && b < |disk| && own[b] != Meta && o != Meta
    requires b in logged || !HoldsPointers(o)
    ensures Tracked(base, disk, own[b := o], meta, logged, torn)
  {
    var own' := own[b := o];
    forall c: nat | c < |disk| ensures BlockTracked(base, disk, own', meta, logged, torn, c) {
      assert BlockTracked(base, disk, own, meta, logged, torn, c);
    }
  }

  lemma TrackMore(base: seq<Blk>, disk: seq<Blk>, own: seq<Owner>, meta: set<int>, logged: set<int>, logged': set<int>, torn: set<int>)
    requires Tracked(base, disk, own, meta, logged, torn) && logged <= logged'
    ensures Tracked(base, disk, own, meta, logged', torn)
  {
    forall c: nat | c < |disk| ensures BlockTracked(base, disk, own, meta, logged', torn, c) {
      assert BlockTracked(base, disk, own, meta, logged, torn, c);
    }
  }

  // A copy into a block of data has failed part of the way.
  lemma TrackTorn(base: seq<Blk>, disk: seq<Blk>, own: seq<Owner>, meta: set<int>, logged: set<int>, torn: set<int>, b: nat, blk: Blk)
    requires Tracked(base, disk, own, meta, logged, torn) && b < |disk| && !HoldsPointers(own[b])
    ensures Tracked(base, disk[b := blk], own, meta, logged, torn + {b})
  {
    var d, more := disk[b := blk], torn + {b};
    forall c: nat | c < |disk| ensures BlockTracked(base, d, own, meta, logged, more, c) {
      assert BlockTracked(base, disk, own, meta, logged, torn, c);
    }
  }

  // The blocks as the log has them once it has got the logged ones.
  ghost function Merged(base: seq<Blk>, disk: seq<Blk>, logged: set<int>): (d: seq<Blk>)
    requires |base| == |disk|
    ensures |d| == |base| && forall b {:trigger d[b]} :: 0 <= b < |base| ==> d[b] == if b in logged then disk[b] else base[b]
  {
    seq(|base|, b requires 0 <= b < |base| => if b in logged then disk[b] else base[b])
  }

  lemma TrackMerged(base: seq<Blk>, disk: seq<Blk>, own: seq<Owner>, meta: set<int>, logged: set<int>, torn: set<int>)
    requires Tracked(base, disk, own, meta, logged, torn) && Sized(disk)
    ensures Tracked(Merged(base, disk, logged), disk, own, meta, {}, torn - logged)
  {
    var d, rest := Merged(base, disk, logged), torn - logged;
    forall c: nat | c < |disk| ensures BlockTracked(d, disk, own, meta, {}, rest, c) {
      assert BlockTracked(base, disk, own, meta, logged, torn, c);
    }
  }

  function MetaOnes(own: seq<Owner>): set<int> {
    set b | 0 <= b < |own| && own[b] == Meta
  }

  class FileSys {
    const sb: Super
    var disk: seq<Blk>
    var ino: seq<Inode>         // in-memory inodes
    var dino: seq<Inode>        // what iupdate has written
    var logged: set<int>        // the buffers passed to log_write and not yet in the log
    ghost var own: seq<Owner>
    ghost var base: seq<Blk>    // the blocks as the log last got them
    ghost var dbase: seq<Inode> // and the inodes
    ghost var torn: set<int>    // the blocks that a failed copy has changed since
    ghost const meta: set<int>  // the blocks that belong to no file

    ghost predicate Ok()
      reads this
    {
      Inv(sb, disk, ino, own, {}) && Logs()
    }

    // Every change to a block or inode has been passed to log_write, but for failed copies.
    ghost predicate Logs()
      reads this
    {
      && Tracked(base, disk, own, meta, logged, torn)
      && InodesTracked(sb, dbase, dino, logged)
      && sb.size > 0 && AllLoggable(sb, |dino|, meta, logged)
    }

    // The log has got all logged blocks.
    method Flush()
      requires Ok()
      modifies this`base, this`dbase, this`torn, this`logged
      ensures Ok() && logged == {} && torn == old(torn) - old(logged) && dbase == dino
      ensures |disk| == |old(base)| && base == Merged(old(base), disk, old(logged))
    {
      TrackMerged(base, disk, own, meta, logged, torn);
      base, dbase, torn, logged := Merged(base, disk, logged), dino, torn - logged, {};
    }

    // A formatted disk with no files: exactly the first nmeta blocks are in use.
    constructor (sb: Super, disk: seq<Blk>, ninodes: nat, nmeta: nat)
      requires DiskOk(sb, disk) && sb.bmapstart + (sb.size - 1) / BPB < nmeta <= sb.size
      requires forall b: nat :: b < sb.size ==> (Marked(sb, disk, b) <==> b < nmeta)
      ensures Ok() && Settled(own) && dino == ino && this.sb == sb && this.disk == disk
      ensures |ino| == ninodes && forall i :: 0 <= i < ninodes ==> ino[i].size == 0
      ensures base == disk && dbase == ino && logged == torn == {} && meta == MetaOnes(own)
      ensures |own| == sb.size && forall b {:trigger own[b]} :: 0 <= b < sb.size ==> own[b] == if b < nmeta then Meta else Nobody
    {
      this.sb, this.disk, logged, torn := sb, disk, {}, {};
      base := disk;
      var none := Inode(seq(NDIRECT + 1, _ => 0), 0);
      ino, dino, dbase := seq(ninodes, _ => none), seq(ninodes, _ => none), seq(ninodes, _ => none);
      own := seq(sb.size, b => if b < nmeta then Meta else Nobody);
      meta := MetaOnes(seq(sb.size, b => if b < nmeta then Meta else Nobody));
      new;
      forall r | ValidRef(|ino|, r) ensures PtrOk(disk, ino, own, r) {
      }
      forall b: nat | b < |disk| ensures OwnerOk(sb, disk, ino, own, b) {
      }
    }

    // The tail of balloc: mark the free block b in its bitmap block, then zero it.
    method TakeBlock(b: nat)
      requires Ok() && b < sb.size && !Marked(sb, disk, b)
      modifies this`disk, this`own, this`logged
      ensures Ok() && b != 0
      ensures old(own)[b] == Nobody && own == old(own)[b := Fresh] && disk[b] == ZeroBlk()
      ensures logged == old(logged) + {MapBlock(sb, b), b}
      ensures DataKept(old(disk), disk, old(own), own) && SameIndirect(old(disk), disk, old(own))
      ensures PtrsKept(old(disk), ino, disk, ino, {})
    {
      AllocInv(sb, disk, ino, own, b);
      ghost var disk0, own0 := disk, own;
      assert own[MapBlock(sb, b)] == Meta;
      var bp, bi := MapBlock(sb, b), b % BPB;
      var bits := disk[bp][bi / 8 := disk[bp][bi / 8] + Mask(bi % 8)];
      TrackWrite(base, disk, own, meta, logged, torn, bp, bits);
      LogMap(sb, |dino|, meta, logged, b);
      disk := disk[bp := bits];
      logged := logged + {bp};
      LogBlock(sb, base, disk, own, |dino|, meta, logged, torn, b);
      TrackWrite(base, disk, own, meta, logged, torn, b, ZeroBlk());
      disk := disk[b := ZeroBlk()];
      logged := logged + {b};
      TrackOwner(base, disk, own, meta, logged, torn, b, Fresh);
      own := own[b := Fresh];
      Kept(disk0, own0);
    }

    // balloc.  Zero means every block is in use; otherwise the lowest free block, zeroed.
    method Balloc() returns (b: nat)
      requires Ok()
      modifies this`disk, this`own, this`logged
      ensures Ok()
      ensures b == 0 ==> disk == old(disk) && own == old(own) && logged == old(logged)
      ensures b == 0 <==> Avail(old(own)) == 0
      ensures b == 0 ==> forall c: nat :: c < sb.size ==> Marked(sb, disk, c)
      ensures b != 0 ==> b < sb.size && !Marked(sb, old(disk), b) && old(own)[b] == Nobody
      ensures b != 0 ==> forall c: nat :: c < b ==> Marked(sb, old(disk), c)
      ensures b != 0 ==> own == old(own)[b := Fresh] && disk[b] == ZeroBlk()
      ensures b != 0 ==> logged == old(logged) + {MapBlock(sb, b), b}
      ensures DataKept(old(disk), disk, old(own), own) && SameIndirect(old(disk), disk, old(own))
      ensures PtrsKept(old(disk), ino, disk, ino, {})
    {
      var base: nat := 0;
      while base < sb.size
        invariant base % BPB == 0
        invariant forall c: nat :: c < base && c < sb.size ==> Marked(sb, disk, c)
        decreases sb.size - base
      {
        var bp := sb.bmapstart + base / BPB;
        var bi: nat := 0;
        while bi < BPB && base + bi < sb.size
          invariant bi <= BPB
          invariant forall c: nat :: c < base + bi && c < sb.size ==> Marked(sb, disk, c)
          decreases BPB - bi
        {
          assert (base + bi) / BPB == base / BPB && (base + bi) % BPB == bi;
          assert MapBlock(sb, base + bi) == bp;
          if !Bit(disk[bp][bi / 8], bi % 8) {
            b := base + bi;
            AllTaken(sb, disk, ino, own);
            TakeBlock(b);
            return;
          }
          bi := bi + 1;
        }
        base := base + BPB;
      }
      AllTaken(sb, disk, ino, own);
      b := 0;
    }

    // Marking and zeroing touch neither file data nor indirect blocks.
    lemma Kept(disk0: seq<Blk>, own0: seq<Owner>)
      requires Inv(sb, disk0, ino, own0, {}) && Ok() && |disk0| == |disk|
      requires SameIndirect(disk0, disk, own0)
      ensures PtrsKept(disk0, ino, disk, ino, {})
    {
      forall r | ValidRef(|ino|, r) ensures Ptr(disk, ino, r) == Ptr(disk0, ino, r) {
        SamePtr(sb, disk0, disk, ino, own0, {}, r);
      }
    }

    // bfree of a block of a file; it panics exactly on a free block.
    method Bfree(b: nat, ghost stale: set<Ref>) returns (panicked: bool)
      requires Inv(sb, disk, ino, own, stale) && Logs() && forall i :: Indirect(i) !in stale
      requires b < sb.size && (own[b].Owned? || own[b] == Nobody)
      modifies this`disk, this`own, this`logged
      ensures Logs()
      ensures panicked <==> old(own)[b] == Nobody
      ensures panicked ==> disk == old(disk) && own == old(own) && logged == old(logged)
      ensures !panicked ==> Inv(sb, disk, ino, own, stale + {old(own)[b].ref})
      ensures !panicked ==> disk == ClearMark(sb, old(disk), b)
      ensures own == old(own)[b := Nobody]
      ensures !panicked ==> logged == old(logged) + {MapBlock(sb, b)}
      ensures PtrsKept(old(disk), ino, disk, ino, {})
      ensures DataKept(old(disk), disk, old(own)[b := Nobody], own) && SameIndirect(old(disk), disk, old(own))
    {
      var bp := sb.bmapstart + b / BPB;
      var bi := b % BPB;
      assert OwnerOk(sb, disk, ino, own, b);
      if !Bit(disk[bp][bi / 8], bi % 8) {
        return true;
      }
      panicked := false;
      FreeInv(sb, disk, ino, own, stale, b);
      assert own[MapBlock(sb, b)] == Meta;
      var bits := disk[bp][bi / 8 := disk[bp][bi / 8] - Mask(bi % 8)];
      TrackWrite(base, disk, own, meta, logged, torn, bp, bits);
      LogMap(sb, |dino|, meta, logged, b);
      disk := disk[bp := bits];
      logged := logged + {bp};
      TrackOwner(base, disk, own, meta, logged, torn, b, Nobody);
      own := own[b := Nobody];
    }

    // Fill an empty slot of the inode's own array with a new block.
    method FillSlot(i: nat, k: nat) returns (addr: nat)
      requires Ok() && i < |ino| && k <= NDIRECT && ino[i].addrs[k] == 0
      modifies this`disk, this`ino, this`own, this`logged
      ensures Ok() && SizesKept(old(ino), ino, i) && DataKept(old(disk), disk, old(own), own)
      ensures Settled(old(own)) ==> Settled(own)
      ensures PtrsKept(old(disk), old(ino), disk, ino, {if k == NDIRECT then Indirect(i) else Direct(i, k)})
      ensures ino[i].addrs[k] == addr && (k != NDIRECT ==> ino[i].addrs[NDIRECT] == old(ino)[i].addrs[NDIRECT])
      ensures addr != 0 ==> addr < sb.size && old(own)[addr] == Nobody && disk[addr] == ZeroBlk()
      ensures addr != 0 ==> own == old(own)[addr := Owned(if k == NDIRECT then Indirect(i) else Direct(i, k))]
      ensures addr != 0 ==> logged == old(logged) + {MapBlock(sb, addr), addr}
      ensures addr == 0 ==> disk == old(disk) && ino == old(ino) && own == old(own) && logged == old(logged)
      ensures addr == 0 <==> Avail(old(own)) == 0
      ensures addr != 0 ==> Avail(own) == Avail(old(own)) - 1
      ensures addr == 0 ==> forall c: nat :: c < sb.size ==> Marked(sb, disk, c)
    {
      addr := Balloc();
      if addr == 0 {
        return;
      }
      PlaceInode(sb, disk, ino, own, i, k, addr);
      TakeOne(old(own), addr, Owned(if k == NDIRECT then Indirect(i) else Direct(i, k)));
      TrackOwner(base, disk, own, meta, logged, torn, addr, Owned(if k == NDIRECT then Indirect(i) else Direct(i, k)));
      ino := ino[i := ino[i].(addrs := ino[i].addrs[k := addr])];
      own := own[addr := Owned(if k == NDIRECT then Indirect(i) else Direct(i, k))];
    }

    // Look up entry j of the indirect block, filling it when it is empty.
    method FillEntry(i: nat, j: nat) returns (addr: nat)
      requires Ok() && i < |ino| && j < NINDIRECT && ino[i].addrs[NDIRECT] != 0
      modifies this`disk, this`own, this`logged
      ensures Ok() && EntryThere(sb, old(disk), ino, old(own), old(logged), disk, own, logged, i, j, addr)
      ensures addr == 0 ==> forall c: nat :: c < sb.size ==> Marked(sb, disk, c)
    {
      assert PtrOk(disk, ino, own, Indirect(i));
      assert PtrOk(disk, ino, own, Entry(i, j));
      var bp := ino[i].addrs[NDIRECT];
      addr := Word(disk[bp], j);
      if addr == 0 {
        addr := Balloc();
        if addr != 0 {
          assert PtrOk(disk, ino, own, Indirect(i));
          PlaceEntry(sb, disk, ino, own, i, j, addr);
          LogBlock(sb, base, disk, own, |dino|, meta, logged, torn, bp);
          TrackWrite(base, disk, own, meta, logged, torn, bp, PutWord(disk[bp], j, addr));
          disk := disk[bp := PutWord(disk[bp], j, addr)];
          logged := logged + {bp};
          TrackOwner(base, disk, own, meta, logged, torn, addr, Owned(Entry(i, j)));
          own := own[addr := Owned(Entry(i, j))];
          assert own == old(own)[addr := Owned(Entry(i, j))];
          TakeOne(old(own), addr, Owned(Entry(i, j)));
        }
      }
    }

    // bmap for a direct block.
    method MapDirect(i: nat, bn: nat) returns (addr: nat, ghost maps: set<int>)
      requires Ok() && i < |ino| && bn < NDIRECT
      modifies this`disk, this`ino, this`own, this`logged
      ensures Ok() && Mapped(old(disk), old(ino), old(own), disk, ino, own, i, bn, addr)
      ensures LogsFor(old(disk), old(ino), old(logged), ino, logged, i, bn, addr, maps)
      ensures Spends(old(disk), old(ino), old(own), own, i, bn, addr)
      ensures addr == 0 ==> forall c: nat :: c < sb.size ==> Marked(sb, disk, c)
    {
      maps := {};
      assert PtrOk(disk, ino, own, Direct(i, bn));
      addr := ino[i].addrs[bn];
      if addr == 0 {
        addr := FillSlot(i, bn);
        if addr != 0 {
          maps := {MapBlock(sb, addr)};
          assert PtrOk(disk, ino, own, Direct(i, bn));
        }
      }
    }

    // The indirect block of the file, allocated on first use.
    method NeedIndirect(i: nat) returns (ind: nat, ghost maps: set<int>)
      requires Ok() && i < |ino|
      modifies this`disk, this`ino, this`own, this`logged
      ensures Ok() && IndirectThere(old(disk), old(ino), old(own), old(logged), disk, ino, own, logged, i, ind, maps)
      ensures ind == 0 ==> forall c: nat :: c < sb.size ==> Marked(sb, disk, c)
    {
      assert PtrOk(disk, ino, own, Indirect(i));
      ind := ino[i].addrs[NDIRECT];
      maps := {};
      if ind == 0 {
        ind := FillSlot(i, NDIRECT);
        if ind != 0 {
          maps := {MapBlock(sb, ind)};
        }
      }
    }

    // bmap for a block past the direct ones.
    method MapIndirect(i: nat, bn: nat) returns (addr: nat, ghost maps: set<int>)
      requires Ok() && i < |ino| && NDIRECT <= bn < MAXFILE
      modifies this`disk, this`ino, this`own, this`logged
      ensures Ok() && Mapped(old(disk), old(ino), old(own), disk, ino, own, i, bn, addr)
      ensures LogsFor(old(disk), old(ino), old(logged), ino, logged, i, bn, addr, maps)
      ensures Spends(old(disk), old(ino), old(own), own, i, bn, addr)
      ensures addr == 0 ==> forall c: nat :: c < sb.size ==> Marked(sb, disk, c)
    {
      ghost var disk0, ino0, own0, logged0 := disk, ino, own, logged;
      addr, maps := NeedIndirect(i);
      if addr == 0 {
        NoIndirect(sb, disk0, ino0, own0, logged0, disk, ino, own, logged, i, bn, maps);
        return;
      }
      ghost var disk1, own1, logged1 := disk, own, logged;
      addr := FillEntry(i, bn - NDIRECT);
      BothThere(sb, disk0, ino0, own0, logged0, disk1, own1, logged1, disk, ino, own, logged, i, bn, addr, maps);
      BothLogged(sb, disk0, ino0, own0, logged0, disk1, own1, logged1, disk, ino, own, logged, i, bn, addr, maps);
      maps := maps + if Ptr(disk1, ino, RefOf(i, bn)) == 0 && addr != 0 then {MapBlock(sb, addr)} else {};
    }

    // bmap; it panics on a block number that no file can have.
    method Bmap(i: nat, bn: nat) returns (panicked: bool, addr: nat, ghost maps: set<int>)
      requires Ok() && i < |ino|
      modifies this`disk, this`ino, this`own, this`logged
      ensures panicked <==> bn >= MAXFILE
      ensures Ok() && (panicked ==> disk == old(disk) && ino == old(ino) && own == old(own) && logged == old(logged))
      ensures !panicked ==> Mapped(old(disk), old(ino), old(own), disk, ino, own, i, bn, addr)
      ensures !panicked ==> LogsFor(old(disk), old(ino), old(logged), ino, logged, i, bn, addr, maps)
      ensures !panicked ==> Spends(old(disk), old(ino), old(own), own, i, bn, addr)
      ensures !panicked && addr == 0 ==> forall c: nat :: c < sb.size ==> Marked(sb, disk, c)
    {
      if bn < NDIRECT {
        panicked := false;
        addr, maps := MapDirect(i, bn);
        return;
      }
      if bn - NDIRECT < NINDIRECT {
        panicked := false;
        addr, maps := MapIndirect(i, bn);
        return;
      }
      return true, 0, {};
    }

    // itrunc's first loop: free the direct blocks.
    method FreeDirect(i: nat)
      requires Ok() && i < |ino|
      modifies this`disk, this`ino, this`own, this`logged
      ensures Ok() && OthersKept(old(own), own, i) && OnlyMeta(old(disk), disk, old(own))
      ensures |ino| == |old(ino)| && forall k :: 0 <= k < NDIRECT ==> ino[i].addrs[k] == 0
      ensures ino[i].addrs[NDIRECT] == old(ino)[i].addrs[NDIRECT]
      ensures ino == old(ino)[i := ino[i]] && ino[i].size == old(ino)[i].size
    {
      var k := 0;
      while k < NDIRECT
        invariant 0 <= k <= NDIRECT
        invariant Ok() && OthersKept(old(own), own, i) && OnlyMeta(old(disk), disk, old(own))
        invariant |ino| == |old(ino)| && forall c :: 0 <= c < k ==> ino[i].addrs[c] == 0
        invariant ino[i].addrs[NDIRECT] == old(ino)[i].addrs[NDIRECT]
        invariant ino == old(ino)[i := ino[i]] && ino[i].size == old(ino)[i].size
      {
        if ino[i].addrs[k] != 0 {
          assert PtrOk(disk, ino, own, Direct(i, k));
          var panicked := Bfree(ino[i].addrs[k], {});
          DetachInv(sb, disk, ino, own, {Direct(i, k)}, i, k, {Direct(i, k)});
          ino := ino[i := ino[i].(addrs := ino[i].addrs[k := 0])];
          assert {Direct(i, k)} - {Direct(i, k)} == {};
        }
        k := k + 1;
      }
    }

    // itrunc's second loop: the entries of the indirect block are freed where they stand, so
    // their places are stale until the indirect block itself goes.
    method FreeEntries(i: nat) returns (ghost stale: set<Ref>)
      requires Ok() && i < |ino| && ino[i].addrs[NDIRECT] != 0
      modifies this`disk, this`own, this`logged
      ensures forall r :: r in stale ==> r.Entry? && r.inum == i
      ensures Inv(sb, disk, ino, own, stale) && Logs()
      ensures OthersKept(old(own), own, i) && OnlyMeta(old(disk), disk, old(own))
      ensures forall j: nat {:trigger Entry(i, j)} :: j < NINDIRECT && Ptr(disk, ino, Entry(i, j)) != 0 ==> Entry(i, j) in stale
    {
      assert PtrOk(disk, ino, own, Indirect(i));
      var bp := ino[i].addrs[NDIRECT];
      var a := disk[bp];
      stale := {};
      var j: nat := 0;
      while j < NINDIRECT
        invariant j <= NINDIRECT
        invariant forall r :: r in stale ==> r.Entry? && r.inum == i && r.j < j
        invariant Inv(sb, disk, ino, own, stale) && Logs()
        invariant OthersKept(old(own), own, i) && OnlyMeta(old(disk), disk, old(own))
        invariant disk[bp] == a
        invariant forall c: nat {:trigger Entry(i, c)} :: c < j && Word(a, c) != 0 ==> Entry(i, c) in stale
      {
        if Word(a, j) != 0 {
          assert PtrOk(disk, ino, own, Entry(i, j));
          var panicked := Bfree(Word(a, j), stale);
          stale := stale + {Entry(i, j)};
        }
        j := j + 1;
      }
    }

    // itrunc's tail: the indirect block with everything below it.
    method FreeIndirect(i: nat)
      requires Ok() && i < |ino| && ino[i].addrs[NDIRECT] != 0
      modifies this`disk, this`ino, this`own, this`logged
      ensures Ok() && OthersKept(old(own), own, i) && OnlyMeta(old(disk), disk, old(own))
      ensures ino == old(ino)[i := old(ino)[i].(addrs := old(ino)[i].addrs[NDIRECT := 0])]
    {
      var stale := FreeEntries(i);
      assert PtrOk(disk, ino, own, Indirect(i));
      ghost var disk1, own1 := disk, own;
      var panicked := Bfree(ino[i].addrs[NDIRECT], stale);
      ghost var gone := stale + {Indirect(i)};
      forall j: nat | j < NINDIRECT && Ptr(disk, ino, Entry(i, j)) != 0 ensures Entry(i, j) in gone {
        assert Ptr(disk, ino, Entry(i, j)) == Ptr(disk1, ino, Entry(i, j));
      }
      DetachInv(sb, disk, ino, own, gone, i, NDIRECT, gone);
      assert gone - gone == {};
      ino := ino[i := ino[i].(addrs := ino[i].addrs[NDIRECT := 0])];
    }

    method Iupdate(i: nat)
      requires i < |ino| == |dino| && Logs()
      modifies this`dino, this`logged
      ensures dino == old(dino)[i := ino[i]] && Logs()
      ensures logged == old(logged) + {InodeAt(sb, i)}
    {
      TrackMore(base, disk, own, meta, logged, logged + {InodeAt(sb, i)}, torn);
      LogInode(sb, |dino|, meta, logged, i);
      dino := dino[i := ino[i]];
      logged := logged + {InodeAt(sb, i)};
    }

    // itrunc frees exactly the blocks of inode i.
    method Itrunc(i: nat)
      requires Ok() && i < |ino| == |dino|
      modifies this`disk, this`ino, this`dino, this`own, this`logged
      ensures Ok() && OnlyMeta(old(disk), disk, old(own))
      ensures |own| == |old(own)| && forall b :: 0 <= b < |own| ==>
                own[b] == if old(own)[b].Owned? && old(own)[b].ref.inum == i then Nobody else old(own)[b]
      ensures ino == old(ino)[i := Inode(seq(NDIRECT + 1, _ => 0), 0)] && dino == old(dino)[i := ino[i]]
    {
      FreeDirect(i);
      if ino[i].addrs[NDIRECT] != 0 {
        ghost var own1 := own;
        FreeIndirect(i);
      }
      NoneLeft(i);
      Emptied(ino[i].addrs);
      assert Inv(sb, disk, ino, own, {});
      ResizeInv(sb, disk, ino, own, i, 0);
      ino := ino[i := ino[i].(size := 0)];
      Iupdate(i);
    }

    // With every pointer of inode i zero, no block is owned by it.
    lemma NoneLeft(i: nat)
      requires Ok() && i < |ino| && forall k :: 0 <= k <= NDIRECT ==> ino[i].addrs[k] == 0
      ensures forall b :: 0 <= b < |own| && own[b].Owned? ==> own[b].ref.inum != i
    {
      forall b | 0 <= b < |own| && own[b].Owned? ensures own[b].ref.inum != i {
        assert OwnerOk(sb, disk, ino, own, b);
      }
    }
  }

  lemma Emptied(a: seq<int>)
    requires |a| == NDIRECT + 1 && forall k :: 0 <= k <= NDIRECT ==> a[k] == 0
    ensures a == seq(NDIRECT + 1, _ => 0)
  {
  }
}
