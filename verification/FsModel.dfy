/**
  Blocks, block pointers and the free bitmap of kernel/fs.c.

  A block is its 1024 bytes: the bitmap is read bit by bit and an indirect block word by word
  from the same bytes.  The owner map says who points to each block; the invariant ties it to
  the pointers in both directions and to the bitmap, so a block has at most one owner and no
  block in use is lost.
 */
module FsModel {

  const BSIZE: nat := 1024
  const BPB: nat := 8192           // bitmap bits per block
  const NDIRECT: nat := 12
  const NINDIRECT: nat := 256
  const MAXFILE: nat := 268
  const IPB: nat := 16             // inodes per block
  const U32: nat := 0x1_0000_0000

  type Blk = seq<int>

  datatype Super = Super(size: nat, bmapstart: nat, inodestart: nat)

  datatype Inode = Inode(addrs: seq<int>, size: nat)

  // A place that holds a block number.
  datatype Ref = Direct(inum: nat, k: nat) | Indirect(inum: nat) | Entry(inum: nat, j: nat)

  datatype Owner =
    | Nobody          // free in the bitmap
    | Meta            // boot, super, log, inode and bitmap blocks
    | Fresh           // just allocated, not yet pointed to
    | Owned(ref: Ref)

  function ZeroBlk(): (b: Blk)
    ensures |b| == BSIZE && forall i :: 0 <= i < BSIZE ==> b[i] == 0
  {
    seq(BSIZE, _ => 0)
  }

  // ------------------------------------------------------------------
  // Words of an indirect block
  // ------------------------------------------------------------------

  function Word(b: Blk, j: nat): int
    requires |b| == BSIZE && j < NINDIRECT
  {
    b[4 * j] + 256 * b[4 * j + 1] + 65536 * b[4 * j + 2] + 16777216 * b[4 * j + 3]
  }

  function PutWord(b: Blk, j: nat, v: nat): (b': Blk)
    requires |b| == BSIZE && j < NINDIRECT && v < U32
    ensures |b'| == BSIZE
  {
    b[4 * j := v % 256][4 * j + 1 := (v / 256) % 256][4 * j + 2 := (v / 65536) % 256][4 * j + 3 := v / 16777216]
  }

  lemma BytesOfWord(v: nat)
    ensures v % 256 + 256 * ((v / 256) % 256) + 65536 * ((v / 65536) % 256) + 16777216 * (v / 16777216) == v
  {
    var q := v / 256;
    assert v == 256 * q + v % 256;
    assert v / 65536 == q / 256;
    var r := q / 256;
    assert q == 256 * r + q % 256;
    assert v / 16777216 == r / 256;
    assert r == 256 * (r / 256) + r % 256;
  }

  lemma PutGetWord(b: Blk, j: nat, v: nat, k: nat)
    requires |b| == BSIZE && j < NINDIRECT && k < NINDIRECT && v < U32
    ensures Word(PutWord(b, j, v), k) == if k == j then v else Word(b, k)
  {
    BytesOfWord(v);
  }

  // ------------------------------------------------------------------
  // Bits of the free map
  // ------------------------------------------------------------------

  // 1 << k
  function Mask(k: nat): nat
  {
    if k == 0 then 1 else 2 * Mask(k - 1)
  }

  // (x & (1 << k)) != 0
  predicate Bit(x: int, k: nat)
    decreases k
  {
    if k == 0 then x % 2 == 1 else Bit(x / 2, k - 1)
  }

  // Setting a clear bit and clearing a set one leave the others alone.
  lemma {:induction false} FlipBit(x: int, k: nat, j: nat)
    ensures !Bit(x, k) ==> (Bit(x + Mask(k), j) <==> j == k || Bit(x, j))
    ensures Bit(x, k) ==> (Bit(x - Mask(k), j) <==> j != k && Bit(x, j))
    decreases k
  {
    if k > 0 && j > 0 {
      FlipBit(x / 2, k - 1, j - 1);
      assert (x + Mask(k)) / 2 == x / 2 + Mask(k - 1);
      assert (x - Mask(k)) / 2 == x / 2 - Mask(k - 1);
    }
  }

  // ------------------------------------------------------------------
  // The disk
  // ------------------------------------------------------------------

  ghost predicate Sized(disk: seq<Blk>) {
    forall b {:trigger disk[b]} :: 0 <= b < |disk| ==> |disk[b]| == BSIZE
  }

  ghost predicate DiskOk(sb: Super, disk: seq<Blk>) {
    && |disk| == sb.size
    && 0 < sb.size < U32 && sb.bmapstart > 0
    && sb.bmapstart + (sb.size - 1) / BPB < sb.size
    && Sized(disk)
  }

  // BBLOCK
  function MapBlock(sb: Super, b: nat): nat {
    sb.bmapstart + b / BPB
  }

  predicate Marked(sb: Super, disk: seq<Blk>, b: nat)
    requires DiskOk(sb, disk) && b < sb.size
  {
    Bit(disk[MapBlock(sb, b)][b % BPB / 8], b % BPB % 8)
  }

  function SetMark(sb: Super, disk: seq<Blk>, b: nat): (d: seq<Blk>)
    requires DiskOk(sb, disk) && b < sb.size
    ensures DiskOk(sb, d)
  {
    var m := MapBlock(sb, b);
    disk[m := disk[m][b % BPB / 8 := disk[m][b % BPB / 8] + Mask(b % BPB % 8)]]
  }

  function ClearMark(sb: Super, disk: seq<Blk>, b: nat): (d: seq<Blk>)
    requires DiskOk(sb, disk) && b < sb.size
    ensures DiskOk(sb, d)
  {
    var m := MapBlock(sb, b);
    disk[m := disk[m][b % BPB / 8 := disk[m][b % BPB / 8] - Mask(b % BPB % 8)]]
  }

  lemma SamePlace(b: nat, c: nat)
    requires b / BPB == c / BPB && b % BPB / 8 == c % BPB / 8 && b % BPB % 8 == c % BPB % 8
    ensures b == c
  {
  }

  lemma SetMarked(sb: Super, disk: seq<Blk>, b: nat, c: nat)
    requires DiskOk(sb, disk) && b < sb.size && c < sb.size
    requires !Marked(sb, disk, b)
    ensures Marked(sb, SetMark(sb, disk, b), c) <==> c == b || Marked(sb, disk, c)
  {
    var x := disk[MapBlock(sb, b)][b % BPB / 8];
    FlipBit(x, b % BPB % 8, c % BPB % 8);
    if MapBlock(sb, c) == MapBlock(sb, b) && c % BPB / 8 == b % BPB / 8 && c % BPB % 8 == b % BPB % 8 {
      SamePlace(b, c);
    }
  }

  lemma ClearMarked(sb: Super, disk: seq<Blk>, b: nat, c: nat)
    requires DiskOk(sb, disk) && b < sb.size && c < sb.size
    requires Marked(sb, disk, b)
    ensures Marked(sb, ClearMark(sb, disk, b), c) <==> c != b && Marked(sb, disk, c)
  {
    var x := disk[MapBlock(sb, b)][b % BPB / 8];
    FlipBit(x, b % BPB % 8, c % BPB % 8);
    if MapBlock(sb, c) == MapBlock(sb, b) && c % BPB / 8 == b % BPB / 8 && c % BPB % 8 == b % BPB % 8 {
      SamePlace(b, c);
    }
  }

  // ------------------------------------------------------------------
  // Who owns which block
  // ------------------------------------------------------------------

  ghost predicate InodesOk(ino: seq<Inode>) {
    forall i {:trigger ino[i]} :: 0 <= i < |ino| ==> |ino[i].addrs| == NDIRECT + 1
  }

  predicate ValidRef(n: nat, r: Ref) {
    r.inum < n && (r.Direct? ==> r.k < NDIRECT) && (r.Entry? ==> r.j < NINDIRECT)
  }

  // The block number stored at a place; an entry of a missing indirect block reads as zero.
  function Ptr(disk: seq<Blk>, ino: seq<Inode>, r: Ref): int
    requires InodesOk(ino) && ValidRef(|ino|, r)
    requires Sized(disk)
  {
    match r
    case Direct(i, k) => ino[i].addrs[k]
    case Indirect(i) => ino[i].addrs[NDIRECT]
    case Entry(i, j) =>
      var a := ino[i].addrs[NDIRECT];
      if 0 < a < |disk| then Word(disk[a], j) else 0
  }

  // A non-zero pointer leads to a block that knows its owner.
  ghost predicate PtrOk(disk: seq<Blk>, ino: seq<Inode>, own: seq<Owner>, r: Ref)
    requires InodesOk(ino) && ValidRef(|ino|, r) && |own| == |disk|
    requires Sized(disk)
  {
    var p := Ptr(disk, ino, r);
    p != 0 ==> 0 < p < |disk| && own[p] == Owned(r)
  }

  ghost predicate OwnerOk(sb: Super, disk: seq<Blk>, ino: seq<Inode>, own: seq<Owner>, b: nat)
    requires DiskOk(sb, disk) && InodesOk(ino) && |own| == |disk| && b < |disk|
  {
    && (Marked(sb, disk, b) <==> own[b] != Nobody)
    && (own[b].Owned? ==> ValidRef(|ino|, own[b].ref) && Ptr(disk, ino, own[b].ref) == b)
  }

  // The places in "stale" still hold the number of a block that has just been freed.
  ghost predicate Inv(sb: Super, disk: seq<Blk>, ino: seq<Inode>, own: seq<Owner>, stale: set<Ref>) {
    && DiskOk(sb, disk)
    && InodesOk(ino)
    && |own| == |disk|
    && own[0] == Meta
    && (forall b: nat {:trigger MapBlock(sb, b)} :: b < sb.size ==> own[MapBlock(sb, b)] == Meta)
    && (forall r {:trigger PtrOk(disk, ino, own, r)} :: ValidRef(|ino|, r) && r !in stale ==> PtrOk(disk, ino, own, r))
    && (forall b: nat {:trigger OwnerOk(sb, disk, ino, own, b)} :: b < |disk| ==> OwnerOk(sb, disk, ino, own, b))
    && (forall b {:trigger own[b]} :: 0 <= b < |own| && own[b].Owned? ==> own[b].ref !in stale)
  }

  // Two disks that agree on every indirect block hold the same pointers.
  ghost predicate SameIndirect(disk: seq<Blk>, d: seq<Blk>, own: seq<Owner>)
    requires |disk| == |d| == |own|
  {
    forall b {:trigger d[b]} :: 0 <= b < |disk| && own[b].Owned? && own[b].ref.Indirect? ==> d[b] == disk[b]
  }

  lemma SamePtr(sb: Super, disk: seq<Blk>, d: seq<Blk>, ino: seq<Inode>, own: seq<Owner>, stale: set<Ref>, r: Ref)
    requires Inv(sb, disk, ino, own, stale) && DiskOk(sb, d) && SameIndirect(disk, d, own)
    requires forall i :: Indirect(i) !in stale
    requires ValidRef(|ino|, r)
    ensures Ptr(d, ino, r) == Ptr(disk, ino, r)
  {
    if r.Entry? {
      assert PtrOk(disk, ino, own, Indirect(r.inum));
    }
  }

  // balloc: the first unmarked block is marked, zeroed and handed out.
  lemma AllocInv(sb: Super, disk: seq<Blk>, ino: seq<Inode>, own: seq<Owner>, b: nat)
    requires Inv(sb, disk, ino, own, {}) && b < sb.size && !Marked(sb, disk, b)
    ensures own[b] == Nobody && b != 0
    ensures Inv(sb, SetMark(sb, disk, b)[b := ZeroBlk()], ino, own[b := Fresh], {})
    ensures SameIndirect(disk, SetMark(sb, disk, b)[b := ZeroBlk()], own)
    ensures MapBlock(sb, b) != b
  {
    assert OwnerOk(sb, disk, ino, own, b);
    assert OwnerOk(sb, disk, ino, own, 0);
    assert own[MapBlock(sb, b)] == Meta;
    var d1 := SetMark(sb, disk, b);
    var d, own' := d1[b := ZeroBlk()], own[b := Fresh];
    forall r | ValidRef(|ino|, r) ensures PtrOk(d, ino, own', r) && Ptr(d, ino, r) == Ptr(disk, ino, r) {
      SamePtr(sb, disk, d, ino, own, {}, r);
      assert PtrOk(disk, ino, own, r);
    }
    forall c: nat | c < |d| ensures OwnerOk(sb, d, ino, own', c) {
      assert OwnerOk(sb, disk, ino, own, c);
      SetMarked(sb, disk, b, c);
      assert own[MapBlock(sb, c)] == Meta;
    }
  }

  // A fresh block is hung at an empty place of an inode.
  lemma PlaceInode(sb: Super, disk: seq<Blk>, ino: seq<Inode>, own: seq<Owner>, i: nat, k: nat, b: nat)
    requires Inv(sb, disk, ino, own, {}) && b < sb.size && own[b] == Fresh
    requires i < |ino| && k <= NDIRECT && ino[i].addrs[k] == 0
    requires k == NDIRECT ==> disk[b] == ZeroBlk()
    ensures var ino' := ino[i := ino[i].(addrs := ino[i].addrs[k := b])];
            var r := if k == NDIRECT then Indirect(i) else Direct(i, k);
            && Inv(sb, disk, ino', own[b := Owned(r)], {})
            && Ptr(disk, ino', r) == b
            && forall q {:trigger Ptr(disk, ino', q)} :: ValidRef(|ino|, q) && q != r ==> Ptr(disk, ino', q) == Ptr(disk, ino, q)
  {
    var ino' := ino[i := ino[i].(addrs := ino[i].addrs[k := b])];
    var r := if k == NDIRECT then Indirect(i) else Direct(i, k);
    var own' := own[b := Owned(r)];
    assert b != 0;
    forall q | ValidRef(|ino|, q) && q != r
      ensures Ptr(disk, ino', q) == Ptr(disk, ino, q) && PtrOk(disk, ino', own', q)
    {
      assert PtrOk(disk, ino, own, q);
    }
    assert PtrOk(disk, ino', own', r);
    forall c: nat | c < |disk| ensures OwnerOk(sb, disk, ino', own', c) {
      assert OwnerOk(sb, disk, ino, own, c);
      assert PtrOk(disk, ino, own, r);
    }
  }

  lemma PlaceEntry(sb: Super, disk: seq<Blk>, ino: seq<Inode>, own: seq<Owner>, i: nat, j: nat, b: nat)
    requires Inv(sb, disk, ino, own, {}) && b < sb.size && own[b] == Fresh
    requires i < |ino| && j < NINDIRECT && ino[i].addrs[NDIRECT] != 0 && Ptr(disk, ino, Entry(i, j)) == 0
    ensures 0 < ino[i].addrs[NDIRECT] < |disk| && own[ino[i].addrs[NDIRECT]] == Owned(Indirect(i))
    ensures var a := ino[i].addrs[NDIRECT];
            var d := disk[a := PutWord(disk[a], j, b)];
            && Inv(sb, d, ino, own[b := Owned(Entry(i, j))], {})
            && Ptr(d, ino, Entry(i, j)) == b
            && forall q {:trigger Ptr(d, ino, q)} :: ValidRef(|ino|, q) && q != Entry(i, j) ==> Ptr(d, ino, q) == Ptr(disk, ino, q)
  {
    assert PtrOk(disk, ino, own, Indirect(i));
    var a := ino[i].addrs[NDIRECT];
    var d, own' := disk[a := PutWord(disk[a], j, b)], own[b := Owned(Entry(i, j))];
    assert b != 0;
    forall q | ValidRef(|ino|, q) && q != Entry(i, j)
      ensures Ptr(d, ino, q) == Ptr(disk, ino, q) && PtrOk(d, ino, own', q)
    {
      assert PtrOk(disk, ino, own, q);
      assert PtrOk(disk, ino, own, Indirect(q.inum));
      if q.Entry? {
        PutGetWord(disk[a], j, b, q.j);
      }
    }
    PutGetWord(disk[a], j, b, j);
    assert PtrOk(d, ino, own', Entry(i, j));
    forall c: nat | c < |disk| ensures OwnerOk(sb, d, ino, own', c) {
      assert OwnerOk(sb, disk, ino, own, c);
      assert own[MapBlock(sb, c)] == Meta;
    }
  }

  // bfree of an owned block: its place becomes stale.
  lemma FreeInv(sb: Super, disk: seq<Blk>, ino: seq<Inode>, own: seq<Owner>, stale: set<Ref>, b: nat)
    requires Inv(sb, disk, ino, own, stale) && b < sb.size && own[b].Owned?
    requires forall i :: Indirect(i) !in stale
    ensures Marked(sb, disk, b)
    ensures Inv(sb, ClearMark(sb, disk, b), ino, own[b := Nobody], stale + {own[b].ref})
    ensures forall r {:trigger Ptr(ClearMark(sb, disk, b), ino, r)} :: ValidRef(|ino|, r) ==>
              Ptr(ClearMark(sb, disk, b), ino, r) == Ptr(disk, ino, r)
  {
    assert OwnerOk(sb, disk, ino, own, b);
    var d, own' := ClearMark(sb, disk, b), own[b := Nobody];
    assert own[MapBlock(sb, b)] == Meta;
    var stale' := stale + {own[b].ref};
    forall r | ValidRef(|ino|, r)
      ensures Ptr(d, ino, r) == Ptr(disk, ino, r)
      ensures r !in stale' ==> PtrOk(d, ino, own', r)
    {
      SamePtr(sb, disk, d, ino, own, stale, r);
      if r !in stale' {
        assert PtrOk(disk, ino, own, r);
      }
    }
    forall c: nat | c < |d| ensures OwnerOk(sb, d, ino, own', c) {
      assert OwnerOk(sb, disk, ino, own, c);
      ClearMarked(sb, disk, b, c);
    }
    forall c | 0 <= c < |own'| && own'[c].Owned? ensures own'[c].ref !in stale' {
      assert OwnerOk(sb, disk, ino, own, c);
    }
  }

  // A stale place of an inode is cleared; with the indirect block go all its entries.
  lemma DetachInv(sb: Super, disk: seq<Blk>, ino: seq<Inode>, own: seq<Owner>, stale: set<Ref>, i: nat, k: nat, gone: set<Ref>)
    requires Inv(sb, disk, ino, own, stale)
    requires i < |ino| && k <= NDIRECT
    requires gone <= stale
    requires k < NDIRECT ==> gone == {Direct(i, k)}
    requires k == NDIRECT ==> Indirect(i) in gone && forall r :: r in gone ==> r == Indirect(i) || (r.Entry? && r.inum == i)
    requires k == NDIRECT ==> forall j: nat {:trigger Entry(i, j)} :: j < NINDIRECT && Ptr(disk, ino, Entry(i, j)) != 0 ==> Entry(i, j) in stale
    ensures Inv(sb, disk, ino[i := ino[i].(addrs := ino[i].addrs[k := 0])], own, stale - gone)
  {
    var ino' := ino[i := ino[i].(addrs := ino[i].addrs[k := 0])];
    forall r | ValidRef(|ino|, r) && r !in stale - gone ensures PtrOk(disk, ino', own, r) {
      if r in gone {
        assert Ptr(disk, ino', r) == 0;
      } else {
        assert PtrOk(disk, ino, own, r);
      }
    }
    forall c: nat | c < |disk| ensures OwnerOk(sb, disk, ino', own, c) {
      assert OwnerOk(sb, disk, ino, own, c);
      if own[c].Owned? {
        var r := own[c].ref;
        assert r !in stale;
        assert Ptr(disk, ino, r) == c;
        assert own[0] == Meta;
      }
    }
  }

  predicate DataRef(o: Owner) {
    o.Owned? && !o.ref.Indirect?
  }

  // Bytes of a file block change: no pointer and no mark does.
  lemma DataInv(sb: Super, disk: seq<Blk>, ino: seq<Inode>, own: seq<Owner>, b: nat, blk: Blk)
    requires Inv(sb, disk, ino, own, {}) && b < sb.size && DataRef(own[b]) && |blk| == BSIZE
    ensures Inv(sb, disk[b := blk], ino, own, {})
    ensures forall r {:trigger Ptr(disk[b := blk], ino, r)} :: ValidRef(|ino|, r) ==>
              Ptr(disk[b := blk], ino, r) == Ptr(disk, ino, r)
  {
    var d := disk[b := blk];
    forall r | ValidRef(|ino|, r) ensures Ptr(d, ino, r) == Ptr(disk, ino, r) && PtrOk(d, ino, own, r) {
      SamePtr(sb, disk, d, ino, own, {}, r);
      assert PtrOk(disk, ino, own, r);
    }
    forall c: nat | c < |d| ensures OwnerOk(sb, d, ino, own, c) {
      assert OwnerOk(sb, disk, ino, own, c);
      assert own[MapBlock(sb, c)] == Meta;
    }
  }

  // The size of a file is no pointer.
  lemma ResizeInv(sb: Super, disk: seq<Blk>, ino: seq<Inode>, own: seq<Owner>, i: nat, size: nat)
    requires Inv(sb, disk, ino, own, {}) && i < |ino|
    ensures Inv(sb, disk, ino[i := ino[i].(size := size)], own, {})
    ensures forall r {:trigger Ptr(disk, ino[i := ino[i].(size := size)], r)} :: ValidRef(|ino|, r) ==>
              Ptr(disk, ino[i := ino[i].(size := size)], r) == Ptr(disk, ino, r)
  {
    var ino' := ino[i := ino[i].(size := size)];
    forall r | ValidRef(|ino|, r) ensures PtrOk(disk, ino', own, r) && Ptr(disk, ino', r) == Ptr(disk, ino, r) {
      assert PtrOk(disk, ino, own, r);
    }
    forall c: nat | c < |disk| ensures OwnerOk(sb, disk, ino', own, c) {
      assert OwnerOk(sb, disk, ino, own, c);
    }
  }

  // Every block in use is reached from one place only, and is marked.
  lemma OwnedOnce(sb: Super, disk: seq<Blk>, ino: seq<Inode>, own: seq<Owner>, r: Ref, q: Ref)
    requires Inv(sb, disk, ino, own, {})
    requires ValidRef(|ino|, r) && ValidRef(|ino|, q) && Ptr(disk, ino, r) != 0
    ensures 0 < Ptr(disk, ino, r) < sb.size && Marked(sb, disk, Ptr(disk, ino, r))
    ensures Ptr(disk, ino, r) == Ptr(disk, ino, q) ==> r == q
    ensures own[Ptr(disk, ino, r)] != Meta
  {
    assert PtrOk(disk, ino, own, r);
    assert PtrOk(disk, ino, own, q);
    assert OwnerOk(sb, disk, ino, own, Ptr(disk, ino, r));
  }

  // A marked block that is not metadata is reachable from an inode: no block leaks.
  lemma NoLeak(sb: Super, disk: seq<Blk>, ino: seq<Inode>, own: seq<Owner>, b: nat)
    requires Inv(sb, disk, ino, own, {})
    requires b < sb.size && Marked(sb, disk, b) && own[b] != Meta && own[b] != Fresh
    ensures exists r :: ValidRef(|ino|, r) && Ptr(disk, ino, r) == b
  {
    assert OwnerOk(sb, disk, ino, own, b);
  }
}
