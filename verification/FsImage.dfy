/**
  The file system as blocks on the disk: inodes in the bytes of their blocks (struct dinode of
  kernel/fs.h), everything else as it is.  The log does not look into a block that it only moves;
  here the entries of such a block are its bytes.
 */
module FsImage {
  import opened FsModel
  import opened FsCode
  import opened FileData
  import Log = LogMachine

  // ------------------------------------------------------------------
  // Inodes in bytes
  // ------------------------------------------------------------------

  const DWORDS: nat := 16      // words in a dinode: type and numbers, links, size, addresses

  // Type, device numbers and links are left zero.
  function InodeWord(q: Inode, f: nat): int
    requires |q.addrs| == NDIRECT + 1
  {
    if f == 2 then q.size else if 3 <= f < 4 + NDIRECT then q.addrs[f - 3] else 0
  }

  // Word j of inode block m.
  function BlockWord(ino: seq<Inode>, m: nat, j: nat): int
    requires InodesOk(ino)
  {
    var i := m * IPB + j / DWORDS;
    if i < |ino| then InodeWord(ino[i], j % DWORDS) else 0
  }

  function ByteOf(v: int, k: nat): int {
    if k == 0 then v % 256 else if k == 1 then v / 256 % 256 else if k == 2 then v / 65536 % 256 else v / 16777216
  }

  function InodeBlk(ino: seq<Inode>, m: nat): (b: Blk)
    requires InodesOk(ino)
    ensures |b| == BSIZE
  {
    seq(BSIZE, p requires 0 <= p < BSIZE => ByteOf(BlockWord(ino, m, p / 4), p % 4))
  }

  // The inode whose words start at w.
  function ReadAt(b: Blk, w: nat): (q: Inode)
    requires |b| == BSIZE && w + DWORDS <= NINDIRECT
    ensures |q.addrs| == NDIRECT + 1
  {
    var size := Word(b, w + 2);
    Inode(seq(NDIRECT + 1, k requires 0 <= k <= NDIRECT => Word(b, w + (3 + k))), if size < 0 then 0 else size)
  }

  // What inode i is, read from its block.
  function ReadInode(b: Blk, i: nat): Inode
    requires |b| == BSIZE
  {
    WordPlace(i, 0);
    ReadAt(b, i % IPB * DWORDS)
  }

  ghost predicate Bounded(ino: seq<Inode>)
    requires InodesOk(ino)
  {
    forall i, f: nat {:trigger InodeWord(ino[i], f)} :: 0 <= i < |ino| ==> 0 <= InodeWord(ino[i], f) < U32
  }

  lemma WordBack(ino: seq<Inode>, m: nat, j: nat)
    requires InodesOk(ino) && Bounded(ino) && j < NINDIRECT
    ensures Word(InodeBlk(ino, m), j) == BlockWord(ino, m, j)
  {
    var b, v := InodeBlk(ino, m), BlockWord(ino, m, j);
    assert 4 * j / 4 == j && (4 * j + 1) / 4 == j && (4 * j + 2) / 4 == j && (4 * j + 3) / 4 == j;
    assert 4 * j % 4 == 0 && (4 * j + 1) % 4 == 1 && (4 * j + 2) % 4 == 2 && (4 * j + 3) % 4 == 3;
    BytesOfWord(v);
  }

  lemma WordPlace(i: nat, f: nat)
    requires f < DWORDS
    ensures i % IPB * DWORDS + f < NINDIRECT && (i % IPB * DWORDS + f) / DWORDS == i % IPB && (i % IPB * DWORDS + f) % DWORDS == f
    ensures i / IPB * IPB + i % IPB == i && i % IPB * DWORDS + DWORDS <= NINDIRECT
  {
  }

  lemma FieldBack(ino: seq<Inode>, i: nat, f: nat)
    requires InodesOk(ino) && Bounded(ino) && i < |ino| && f < DWORDS
    ensures i % IPB * DWORDS + f < NINDIRECT
    ensures Word(InodeBlk(ino, i / IPB), i % IPB * DWORDS + f) == InodeWord(ino[i], f)
  {
    WordPlace(i, f);
    WordBack(ino, i / IPB, i % IPB * DWORDS + f);
  }

  predicate FieldIs(b: Blk, w: nat, q: Inode, f: nat)
    requires |b| == BSIZE && w + f < NINDIRECT && |q.addrs| == NDIRECT + 1
  {
    Word(b, w + f) == InodeWord(q, f)
  }

  lemma ReadsAs(b: Blk, w: nat, q: Inode)
    requires |b| == BSIZE && w + DWORDS <= NINDIRECT && |q.addrs| == NDIRECT + 1
    requires forall f: nat {:trigger FieldIs(b, w, q, f)} :: f < DWORDS ==> FieldIs(b, w, q, f)
    ensures ReadAt(b, w) == q
  {
    assert FieldIs(b, w, q, 2);
    var r := ReadAt(b, w);
    forall k | 0 <= k <= NDIRECT ensures r.addrs[k] == q.addrs[k] {
      assert FieldIs(b, w, q, 3 + k);
    }
    assert r.addrs == q.addrs;
  }

  // An inode reads back as it was written.
  lemma InodeBack(ino: seq<Inode>, i: nat)
    requires InodesOk(ino) && Bounded(ino) && i < |ino|
    ensures ReadInode(InodeBlk(ino, i / IPB), i) == ino[i]
  {
    var b, w := InodeBlk(ino, i / IPB), i % IPB * DWORDS;
    WordPlace(i, 0);
    forall f: nat | f < DWORDS ensures FieldIs(b, w, ino[i], f) {
      FieldBack(ino, i, f);
    }
    ReadsAs(b, w, ino[i]);
  }

  // ------------------------------------------------------------------
  // The whole disk
  // ------------------------------------------------------------------

  // Log, inodes and bitmap have places of their own, which no file gets.
  ghost predicate Laid(L: Log.Layout, sb: Super, n: nat, meta: set<int>) {
    && Log.Wf(L) && 0 < L.total == sb.size
    && sb.inodestart + (n + IPB - 1) / IPB <= sb.size && sb.bmapstart + (sb.size - 1) / BPB < sb.size
    && (forall b {:trigger b in meta} :: Log.InLog(L, b) || IsInodeBlock(sb, n, b) || IsMapBlock(sb, b) ==> b in meta)
    && (forall b {:trigger Log.InLog(L, b)} {:trigger IsInodeBlock(sb, n, b)} {:trigger IsMapBlock(sb, b)} ::
          && !(Log.InLog(L, b) && IsInodeBlock(sb, n, b))
          && !(Log.InLog(L, b) && IsMapBlock(sb, b))
          && !(IsInodeBlock(sb, n, b) && IsMapBlock(sb, b)))
  }

  function ImageAt(L: Log.Layout, sb: Super, disk: seq<Blk>, ino: seq<Inode>, b: nat): Log.Block
    requires InodesOk(ino) && b < |disk|
  {
    if Log.InLog(L, b) then Log.Zero()
    else if IsInodeBlock(sb, |ino|, b) then Log.Block(InodeBlk(ino, b - sb.inodestart))
    else Log.Block(disk[b])
  }

  // The home blocks that hold a file system, with the log area left out.
  function Image(L: Log.Layout, sb: Super, disk: seq<Blk>, ino: seq<Inode>): (d: Log.Disk)
    requires InodesOk(ino)
    ensures |d| == |disk| && forall b: nat {:trigger d[b]} :: b < |disk| ==> d[b] == ImageAt(L, sb, disk, ino, b)
  {
    seq(|disk|, b requires 0 <= b < |disk| => ImageAt(L, sb, disk, ino, b))
  }

  // What bread finds on such a disk.
  function BlkOf(b: Log.Block): (blk: Blk)
    ensures |blk| == BSIZE
  {
    if |b.words| == BSIZE then b.words else ZeroBlk()
  }

  function Blocks(d: Log.Disk): (disk: seq<Blk>)
    ensures |disk| == |d| && forall b {:trigger disk[b]} :: 0 <= b < |d| ==> disk[b] == BlkOf(d[b])
  {
    seq(|d|, b requires 0 <= b < |d| => BlkOf(d[b]))
  }

  function Inodes(sb: Super, n: nat, d: Log.Disk): (ino: seq<Inode>)
    requires sb.inodestart + (n + IPB - 1) / IPB <= |d|
    ensures |ino| == n && forall i: nat {:trigger ino[i]} :: i < n ==> InodeAt(sb, i) < |d| && ino[i] == ReadInode(BlkOf(d[InodeAt(sb, i)]), i)
  {
    forall i: nat | i < n ensures InodeAt(sb, i) < |d| {
      InodeInside(sb, n, i);
    }
    seq(n, i requires 0 <= i < n => InodeInside(sb, n, i); ReadInode(BlkOf(d[InodeAt(sb, i)]), i))
  }

  lemma InodeInside(sb: Super, n: nat, i: nat)
    requires i < n
    ensures IsInodeBlock(sb, n, InodeAt(sb, i))
  {
    assert i / IPB < (n + IPB - 1) / IPB;
  }

  lemma InodeImage(L: Log.Layout, sb: Super, disk: seq<Blk>, ino: seq<Inode>, meta: set<int>, i: nat)
    requires InodesOk(ino) && |disk| == sb.size && Laid(L, sb, |ino|, meta) && i < |ino|
    ensures InodeAt(sb, i) < |disk| && BlkOf(Image(L, sb, disk, ino)[InodeAt(sb, i)]) == InodeBlk(ino, i / IPB)
  {
    var b := InodeAt(sb, i);
    InodeInside(sb, |ino|, i);
    assert !Log.InLog(L, b);
    assert Image(L, sb, disk, ino)[b] == ImageAt(L, sb, disk, ino, b);
  }

  // Reading the inodes of an image gives them back.
  lemma InodesBack(L: Log.Layout, sb: Super, disk: seq<Blk>, ino: seq<Inode>, meta: set<int>)
    requires InodesOk(ino) && Bounded(ino) && |disk| == sb.size && Laid(L, sb, |ino|, meta)
    ensures Inodes(sb, |ino|, Image(L, sb, disk, ino)) == ino
  {
    var d := Image(L, sb, disk, ino);
    var back := Inodes(sb, |ino|, d);
    forall i: nat | i < |ino| ensures back[i] == ino[i] {
      InodeImage(L, sb, disk, ino, meta, i);
      InodeBack(ino, i);
    }
    assert back == ino;
  }

  // The blocks of an image are those of the file system, except where the log and the inodes are.
  lemma BlocksBack(L: Log.Layout, sb: Super, disk: seq<Blk>, ino: seq<Inode>, b: nat)
    requires InodesOk(ino) && b < |disk| && Sized(disk) && !Log.InLog(L, b) && !IsInodeBlock(sb, |ino|, b)
    ensures Blocks(Image(L, sb, disk, ino))[b] == disk[b]
  {
    assert Image(L, sb, disk, ino)[b] == ImageAt(L, sb, disk, ino, b);
  }

  // Reading an image and writing it again changes nothing.
  lemma ImageBack(L: Log.Layout, sb: Super, disk: seq<Blk>, ino: seq<Inode>, meta: set<int>)
    requires InodesOk(ino) && Bounded(ino) && |disk| == sb.size && Sized(disk) && Laid(L, sb, |ino|, meta)
    ensures Image(L, sb, Blocks(Image(L, sb, disk, ino)), ino) == Image(L, sb, disk, ino)
  {
    var d := Image(L, sb, disk, ino);
    var e := Image(L, sb, Blocks(d), ino);
    forall b: nat | b < |disk| ensures e[b] == d[b] {
      assert e[b] == ImageAt(L, sb, Blocks(d), ino, b) && d[b] == ImageAt(L, sb, disk, ino, b);
      if !Log.InLog(L, b) && !IsInodeBlock(sb, |ino|, b) {
        BlocksBack(L, sb, disk, ino, b);
      }
    }
    assert e == d;
  }

  // ------------------------------------------------------------------
  // The invariant looks at the bitmap and at indirect blocks only
  // ------------------------------------------------------------------

  ghost predicate SameMeta(sb: Super, disk: seq<Blk>, d: seq<Blk>, own: seq<Owner>)
    requires sb.size > 0
  {
    && |d| == |disk| == |own| && Sized(d)
    && forall b: nat {:trigger disk[b]} {:trigger d[b]} ::
         b < |disk| && (IsMapBlock(sb, b) || (own[b].Owned? && own[b].ref.Indirect?)) ==> d[b] == disk[b]
  }

  lemma MarkedSame(sb: Super, disk: seq<Blk>, d: seq<Blk>, own: seq<Owner>, b: nat)
    requires DiskOk(sb, disk) && |d| == |disk| && SameMeta(sb, disk, d, own) && b < sb.size
    ensures Marked(sb, d, b) <==> Marked(sb, disk, b)
  {
    assert b / BPB <= (sb.size - 1) / BPB;
    assert IsMapBlock(sb, MapBlock(sb, b));
    assert disk[MapBlock(sb, b)] == d[MapBlock(sb, b)];
  }

  lemma MetaInv(sb: Super, disk: seq<Blk>, d: seq<Blk>, ino: seq<Inode>, own: seq<Owner>)
    requires Inv(sb, disk, ino, own, {}) && SameMeta(sb, disk, d, own)
    ensures Inv(sb, d, ino, own, {})
    ensures forall r {:trigger Ptr(d, ino, r)} :: ValidRef(|ino|, r) ==> Ptr(d, ino, r) == Ptr(disk, ino, r)
  {
    forall r | ValidRef(|ino|, r) ensures Ptr(d, ino, r) == Ptr(disk, ino, r) && PtrOk(d, ino, own, r) {
      SamePtr(sb, disk, d, ino, own, {}, r);
      assert PtrOk(disk, ino, own, r);
    }
    forall b: nat | b < |d| ensures OwnerOk(sb, d, ino, own, b) {
      assert OwnerOk(sb, disk, ino, own, b);
      MarkedSame(sb, disk, d, own, b);
    }
  }

  lemma MetaFiles(sb: Super, disk: seq<Blk>, d: seq<Blk>, ino: seq<Inode>, own: seq<Owner>)
    requires Inv(sb, disk, ino, own, {}) && SameMeta(sb, disk, d, own) && FilesOk(disk, ino)
    ensures FilesOk(d, ino)
  {
    MetaInv(sb, disk, d, ino, own);
    forall j: nat | j < |ino| ensures ino[j].size <= MAXBYTES && Backed(d, ino, j, ino[j].size) {
      assert Backed(disk, ino, j, ino[j].size);
      forall bn: nat | bn < MAXFILE && bn * BSIZE < ino[j].size ensures Ptr(d, ino, RefOf(j, bn)) != 0 {
        assert Ptr(d, ino, RefOf(j, bn)) == Ptr(disk, ino, RefOf(j, bn));
      }
    }
  }

  // Sizes and block numbers fit their words.
  lemma InBounds(sb: Super, disk: seq<Blk>, ino: seq<Inode>, own: seq<Owner>)
    requires Inv(sb, disk, ino, own, {}) && FilesOk(disk, ino)
    ensures Bounded(ino)
  {
    forall i, f: nat | 0 <= i < |ino| ensures 0 <= InodeWord(ino[i], f) < U32 {
      assert ino[i].size <= MAXBYTES;
      if 3 <= f < 4 + NDIRECT {
        var r := if f - 3 == NDIRECT then Indirect(i) else Direct(i, f - 3);
        assert PtrOk(disk, ino, own, r);
      }
    }
  }
}
