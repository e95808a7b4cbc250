/**
  How much free space a write needs: a file's block map can be extended up to some block exactly
  when the disk has as many free blocks as the map lacks.
 */
module FileSpace {
  import opened FsModel
  import opened FsCode

  // How many of the blocks a to b-1 of file i are not there.
  ghost function Missing(disk: seq<Blk>, ino: seq<Inode>, i: nat, a: nat, b: nat): nat
    requires InodesOk(ino) && Sized(disk) && i < |ino| && b <= MAXFILE
    decreases b - a
  {
    if a >= b then 0
    else (if Ptr(disk, ino, RefOf(i, a)) == 0 then 1 else 0) + Missing(disk, ino, i, a + 1, b)
  }

  // The blocks that must be allocated to have them all: these, and perhaps the indirect block.
  ghost function Lacks(disk: seq<Blk>, ino: seq<Inode>, i: nat, a: nat, b: nat): nat
    requires InodesOk(ino) && Sized(disk) && i < |ino| && b <= MAXFILE
  {
    Missing(disk, ino, i, a, b) + (if b > NDIRECT && ino[i].addrs[NDIRECT] == 0 then 1 else 0)
  }

  // A file can have them, and there are as many free blocks.
  ghost predicate Fits(disk: seq<Blk>, ino: seq<Inode>, own: seq<Owner>, i: nat, a: nat, b: nat)
    requires InodesOk(ino) && Sized(disk) && i < |ino|
  {
    b <= MAXFILE && Lacks(disk, ino, i, a, b) <= Avail(own)
  }

  // Blocks from a on were lacking as much, compared with the free space, as blocks from c on now.
  ghost predicate Track(disk0: seq<Blk>, ino0: seq<Inode>, own0: seq<Owner>, disk: seq<Blk>, ino: seq<Inode>, own: seq<Owner>,
                        i: nat, a: nat, c: nat)
    requires InodesOk(ino0) && Sized(disk0) && InodesOk(ino) && Sized(disk) && i < |ino0| == |ino|
  {
    forall b: nat {:trigger Lacks(disk, ino, i, c, b)} :: a < b && c <= b <= MAXFILE ==>
      Lacks(disk, ino, i, c, b) - Avail(own) == Lacks(disk0, ino0, i, a, b) - Avail(own0)
  }

  lemma {:induction false} MissingKept(disk: seq<Blk>, ino: seq<Inode>, d: seq<Blk>, ino': seq<Inode>, i: nat, c: nat, a: nat, b: nat)
    requires InodesOk(ino) && Sized(disk) && InodesOk(ino') && Sized(d) && i < |ino| == |ino'|
    requires c < a && b <= MAXFILE && PtrsKept(disk, ino, d, ino', {RefOf(i, c), Indirect(i)})
    ensures Missing(d, ino', i, a, b) == Missing(disk, ino, i, a, b)
    decreases b - a
  {
    if a < b {
      assert RefOf(i, a) != RefOf(i, c);
      assert Ptr(d, ino', RefOf(i, a)) == Ptr(disk, ino, RefOf(i, a));
      MissingKept(disk, ino, d, ino', i, c, a + 1, b);
    }
  }

  // Finding or allocating block c leaves the balance of what is still to come.
  lemma MapStep(disk: seq<Blk>, ino: seq<Inode>, own: seq<Owner>, d: seq<Blk>, ino': seq<Inode>, own': seq<Owner>,
                i: nat, c: nat, addr: nat, b: nat)
    requires InodesOk(ino) && Sized(disk) && InodesOk(ino') && Sized(d) && i < |ino| == |ino'| && c < b <= MAXFILE
    requires PtrsKept(disk, ino, d, ino', {RefOf(i, c), Indirect(i)}) && Spends(disk, ino, own, own', i, c, addr)
    requires ino[i].addrs[NDIRECT] != 0 || c < NDIRECT ==> ino'[i].addrs[NDIRECT] == ino[i].addrs[NDIRECT]
    requires addr == Ptr(d, ino', RefOf(i, c))
    ensures addr != 0 ==> Lacks(d, ino', i, c + 1, b) - Avail(own') == Lacks(disk, ino, i, c, b) - Avail(own)
    ensures addr == 0 ==> !Fits(disk, ino, own, i, c, b)
  {
    MissingKept(disk, ino, d, ino', i, c, c + 1, b);
  }

  lemma TrackStep(disk0: seq<Blk>, ino0: seq<Inode>, own0: seq<Owner>, disk: seq<Blk>, ino: seq<Inode>, own: seq<Owner>,
                  d: seq<Blk>, ino': seq<Inode>, own': seq<Owner>, i: nat, a: nat, c: nat, addr: nat)
    requires InodesOk(ino0) && Sized(disk0) && InodesOk(ino) && Sized(disk) && InodesOk(ino') && Sized(d)
    requires i < |ino0| == |ino| == |ino'| && a <= c < MAXFILE
    requires Track(disk0, ino0, own0, disk, ino, own, i, a, c)
    requires PtrsKept(disk, ino, d, ino', {RefOf(i, c), Indirect(i)}) && Spends(disk, ino, own, own', i, c, addr)
    requires ino[i].addrs[NDIRECT] != 0 || c < NDIRECT ==> ino'[i].addrs[NDIRECT] == ino[i].addrs[NDIRECT]
    requires addr == Ptr(d, ino', RefOf(i, c))
    ensures addr != 0 ==> Track(disk0, ino0, own0, d, ino', own', i, a, c + 1) && Fits(disk0, ino0, own0, i, a, c + 1)
    ensures addr == 0 ==> forall b: nat {:trigger Fits(disk0, ino0, own0, i, a, b)} :: c < b <= MAXFILE ==> !Fits(disk0, ino0, own0, i, a, b)
  {
    forall b: nat | c < b <= MAXFILE
      ensures addr != 0 ==> Lacks(d, ino', i, c + 1, b) - Avail(own') == Lacks(disk0, ino0, i, a, b) - Avail(own0)
      ensures addr == 0 ==> !Fits(disk0, ino0, own0, i, a, b)
    {
      assert Lacks(disk, ino, i, c, b) - Avail(own) == Lacks(disk0, ino0, i, a, b) - Avail(own0);
      MapStep(disk, ino, own, d, ino', own', i, c, addr, b);
    }
    if addr != 0 {
      assert Lacks(d, ino', i, c + 1, c + 1) == 0;
    }
  }

  // A block that is there costs nothing.
  lemma SkipMapped(disk: seq<Blk>, ino: seq<Inode>, i: nat, c: nat, b: nat)
    requires InodesOk(ino) && Sized(disk) && i < |ino| && c < b <= MAXFILE && Ptr(disk, ino, RefOf(i, c)) != 0
    ensures Lacks(disk, ino, i, c, b) == Lacks(disk, ino, i, c + 1, b)
  {
  }

  lemma {:induction false} MissingMono(disk: seq<Blk>, ino: seq<Inode>, i: nat, a: nat, b: nat, b': nat)
    requires InodesOk(ino) && Sized(disk) && i < |ino| && b <= b' <= MAXFILE
    ensures Missing(disk, ino, i, a, b) <= Missing(disk, ino, i, a, b')
    decreases b - a
  {
    if a < b {
      MissingMono(disk, ino, i, a + 1, b, b');
    }
  }

  // Room up to a block is room up to every earlier one.
  lemma FitsMono(disk: seq<Blk>, ino: seq<Inode>, own: seq<Owner>, i: nat, a: nat, b: nat, b': nat)
    requires InodesOk(ino) && Sized(disk) && i < |ino| && b <= b' && Fits(disk, ino, own, i, a, b')
    ensures Fits(disk, ino, own, i, a, b)
  {
    MissingMono(disk, ino, i, a, b, b');
  }

  // A size is not a block.
  lemma {:induction false} MissingSize(disk: seq<Blk>, ino: seq<Inode>, ino': seq<Inode>, i: nat, a: nat, b: nat)
    requires InodesOk(ino) && InodesOk(ino') && Sized(disk) && i < |ino| == |ino'| && b <= MAXFILE
    requires PtrsKept(disk, ino, disk, ino', {})
    ensures Missing(disk, ino', i, a, b) == Missing(disk, ino, i, a, b)
    decreases b - a
  {
    if a < b {
      assert Ptr(disk, ino', RefOf(i, a)) == Ptr(disk, ino, RefOf(i, a));
      MissingSize(disk, ino, ino', i, a + 1, b);
    }
  }

  lemma TrackSize(disk0: seq<Blk>, ino0: seq<Inode>, own0: seq<Owner>, disk: seq<Blk>, ino: seq<Inode>, own: seq<Owner>, ino': seq<Inode>,
                  i: nat, a: nat, c: nat)
    requires InodesOk(ino0) && Sized(disk0) && InodesOk(ino) && Sized(disk) && InodesOk(ino') && i < |ino0| == |ino| == |ino'|
    requires PtrsKept(disk, ino, disk, ino', {}) && ino'[i].addrs == ino[i].addrs
    requires Track(disk0, ino0, own0, disk, ino, own, i, a, c)
    ensures Track(disk0, ino0, own0, disk, ino', own, i, a, c)
  {
    forall b: nat | a < b && c <= b <= MAXFILE
      ensures Lacks(disk, ino', i, c, b) - Avail(own) == Lacks(disk0, ino0, i, a, b) - Avail(own0)
    {
      MissingSize(disk, ino, ino', i, c, b);
      assert Lacks(disk, ino, i, c, b) - Avail(own) == Lacks(disk0, ino0, i, a, b) - Avail(own0);
    }
  }

  // The next write starts at block f, the first one not written or the last one written.
  lemma TrackFrom(disk0: seq<Blk>, ino0: seq<Inode>, own0: seq<Owner>, disk: seq<Blk>, ino: seq<Inode>, own: seq<Owner>,
                  i: nat, a: nat, c: nat, f: nat, b: nat)
    requires InodesOk(ino0) && Sized(disk0) && InodesOk(ino) && Sized(disk) && i < |ino0| == |ino|
    requires Track(disk0, ino0, own0, disk, ino, own, i, a, c) && a <= f < b <= MAXFILE
    requires f == c || (f + 1 == c && Ptr(disk, ino, RefOf(i, f)) != 0)
    ensures Lacks(disk, ino, i, f, b) - Avail(own) == Lacks(disk0, ino0, i, a, b) - Avail(own0)
  {
    if f != c {
      SkipMapped(disk, ino, i, f, b);
    }
    assert Lacks(disk, ino, i, c, b) - Avail(own) == Lacks(disk0, ino0, i, a, b) - Avail(own0);
  }

  lemma TrackThen(disk0: seq<Blk>, ino0: seq<Inode>, own0: seq<Owner>, disk1: seq<Blk>, ino1: seq<Inode>, own1: seq<Owner>,
                  disk2: seq<Blk>, ino2: seq<Inode>, own2: seq<Owner>, i: nat, a: nat, c1: nat, f: nat, c2: nat)
    requires InodesOk(ino0) && Sized(disk0) && InodesOk(ino1) && Sized(disk1) && InodesOk(ino2) && Sized(disk2)
    requires i < |ino0| == |ino1| == |ino2| && a <= f < c2
    requires Track(disk0, ino0, own0, disk1, ino1, own1, i, a, c1) && Track(disk1, ino1, own1, disk2, ino2, own2, i, f, c2)
    requires f == c1 || (f + 1 == c1 && (f < MAXFILE ==> Ptr(disk1, ino1, RefOf(i, f)) != 0))
    ensures Track(disk0, ino0, own0, disk2, ino2, own2, i, a, c2)
  {
    forall b: nat | a < b && c2 <= b <= MAXFILE
      ensures Lacks(disk2, ino2, i, c2, b) - Avail(own2) == Lacks(disk0, ino0, i, a, b) - Avail(own0)
    {
      TrackFrom(disk0, ino0, own0, disk1, ino1, own1, i, a, c1, f, b);
      assert Lacks(disk2, ino2, i, c2, b) - Avail(own2) == Lacks(disk1, ino1, i, f, b) - Avail(own1);
    }
  }
}
