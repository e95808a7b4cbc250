/**
  kernel/pipe.c: a ring of 512 bytes between writers and readers.

  A method is what a process does with the pipe's lock held, from taking it to returning or to
  going to sleep; a process that slept is woken and calls again.  "written" and "consumed" are
  all bytes that ever went in and out.
 */
module PipeCode {

  const PIPESIZE: nat := 512
  const U32: nat := 0x1_0000_0000

  // How a stretch of pipewrite or piperead ends: it returns a value, or it is asleep after i bytes.
  datatype Outcome = Return(value: int) | Sleep(i: int)

  // 32-bit counters still tell the slot and the distance.
  lemma Counters(a: nat, b: nat)
    requires a <= b <= a + PIPESIZE
    ensures a % U32 % PIPESIZE == a % PIPESIZE && b % U32 % PIPESIZE == b % PIPESIZE
    ensures a % U32 == b % U32 <==> a == b
    ensures (a % U32 + PIPESIZE) % U32 == b % U32 <==> b == a + PIPESIZE
  {
    Slot(a);
    Slot(b);
    var k := a / U32;
    assert a == k * U32 + a % U32;
    var m := b / U32;
    assert b == m * U32 + b % U32;
    assert m == k || m == k + 1;
  }

  lemma Slot(a: nat)
    ensures a % U32 % PIPESIZE == a % PIPESIZE
    ensures (a % U32 + 1) % U32 == (a + 1) % U32
  {
    var k := a / U32;
    assert a == k * U32 + a % U32;
    assert k * U32 == k * 8388608 * PIPESIZE;
    assert a % U32 == a - k * 8388608 * PIPESIZE;
  }

  // The bytes not yet consumed sit in the ring.
  ghost predicate InRing(data: seq<int>, written: seq<int>, consumed: nat) {
    && |data| == PIPESIZE
    && consumed <= |written| <= consumed + PIPESIZE
    && forall k {:trigger written[k]} :: consumed <= k < |written| ==> data[k % PIPESIZE] == written[k]
  }

  lemma PutByte(data: seq<int>, written: seq<int>, consumed: nat, ch: int)
    requires InRing(data, written, consumed) && |written| < consumed + PIPESIZE
    ensures InRing(data[|written| % PIPESIZE := ch], written + [ch], consumed)
  {
    var w := written + [ch];
    var d := data[|written| % PIPESIZE := ch];
    forall k | consumed <= k < |w| ensures d[k % PIPESIZE] == w[k] {
      if k < |written| {
        assert w[k] == written[k];
        assert k % PIPESIZE != |written| % PIPESIZE;
      }
    }
  }

  class Pipe {
    const data: array<int>
    var nread: nat
    var nwrite: nat
    var readopen: bool
    var writeopen: bool
    var readers: set<nat>             // processes asleep on &nread
    var writers: set<nat>             // processes asleep on &nwrite
    ghost var written: seq<int>
    ghost var consumed: nat           // how many of them were read

    // The ring and its counters.
    ghost predicate Ring()
      reads this, data
    {
      && data.Length == PIPESIZE
      && InRing(data[..], written, consumed)
      && nread == consumed % U32 && nwrite == |written| % U32
    }

    // With the lock free: readers sleep only while both ends are open, writers only at a full pipe.
    ghost predicate Valid()
      reads this, data
    {
      && Ring()
      && (readers != {} ==> readopen && writeopen)
      && (writers != {} ==> |written| == consumed + PIPESIZE)
    }

    // A reader is asleep although there is data for it.
    ghost predicate Stranded()
      reads this
    {
      readers != {} && consumed < |written|
    }

    // pipealloc.
    constructor ()
      ensures Valid() && fresh(data) && written == [] && consumed == 0 && readopen && writeopen && !Stranded()
      ensures readers == {} && writers == {}
    {
      data := new int[PIPESIZE](_ => 0);
      nread, nwrite, readopen, writeopen := 0, 0, true, true;
      readers, writers := {}, {};
      written, consumed := [], 0;
    }

    // pipeclose; a sleeping reader has the read end open.  With both ends closed the page goes.
    method Close(writable: bool) returns (freed: bool)
      requires Valid() && (!writable ==> readers == {})
      modifies this
      ensures freed <==> !readopen && !writeopen
      ensures Valid() && written == old(written) && consumed == old(consumed)
      ensures writeopen == (old(writeopen) && !writable) && readopen == (old(readopen) && writable)
      ensures if writable then readers == {} else writers == {}
      ensures Stranded() <==> old(Stranded()) && !writable
    {
      if writable {
        writeopen := false;
        readers := {};
      } else {
        readopen := false;
        writers := {};
      }
      freed := !readopen && !writeopen;
    }

    // One byte into the ring.
    method Put(ch: int)
      requires Ring() && |written| < consumed + PIPESIZE
      modifies this`nwrite, this`written, data
      ensures Ring() && written == old(written) + [ch]
    {
      Slot(|written|);
      PutByte(data[..], written, consumed, ch);
      data[nwrite % PIPESIZE] := ch;
      nwrite := (nwrite + 1) % U32;
      written := written + [ch];
    }

    // One byte out of the ring.
    method Get() returns (ch: int)
      requires Ring() && consumed < |written|
      modifies this`nread, this`consumed
      ensures Ring() && consumed == old(consumed) + 1 && ch == written[old(consumed)]
    {
      Slot(consumed);
      ch := data[nread % PIPESIZE];
      nread := (nread + 1) % U32;
      consumed := consumed + 1;
    }

    // pipewrite from byte i0 on.  src is what the caller's memory can deliver of the n bytes; the
    // process is found killed once it has written up to killAt.
    method Write(me: nat, src: seq<int>, n: int, i0: nat, killAt: nat) returns (r: Outcome, ghost i1: nat)
      requires Valid() && i0 <= |src|
      modifies this, data
      ensures Valid() && consumed == old(consumed) && readopen == old(readopen) && writeopen == old(writeopen)
      ensures i0 <= i1 <= |src| && (i1 <= n || i1 == i0) && written == old(written) + src[i0..i1]
      ensures i0 <= killAt ==> i1 <= killAt
      ensures r == Return(-1) ==> i1 < n && (!readopen || i1 >= killAt) && readers == old(readers) && writers == old(writers)
      ensures r.Return? && r.value != -1 ==> r.value == i1 && readers == {} && (i1 >= n || (i1 == |src| && i1 < killAt && readopen))
      ensures r.Sleep? ==> r.i == i1 < n && i1 < killAt && readers == {} && me in writers && |written| == consumed + PIPESIZE
      // Exactly when a reader is left asleep beside data: one slept, and the writer is found killed
      // before it has written all or the pipe is full, with data in the pipe.
      ensures var k := if killAt < i0 then i0 else killAt;
              Stranded() <==>
                && old(readers) != {} && k < n && k <= |src| && |old(written)| + (k - i0) <= consumed + PIPESIZE
                && (consumed < |old(written)| || k > i0)
    {
      var i: nat := i0;
      while i < n
        invariant i0 <= i <= |src| && (i <= n || i == i0) && (i0 <= killAt ==> i <= killAt)
        invariant Ring() && written == old(written) + src[i0..i]
        invariant readers == old(readers) && writers == old(writers) && |written| == |old(written)| + (i - i0)
        invariant killAt < i0 ==> i == i0
        invariant consumed == old(consumed) && readopen == old(readopen) && writeopen == old(writeopen)
        invariant writers != {} || !readopen ==> i == i0
      {
        if !readopen || i >= killAt {
          return Return(-1), i;
        }
        Counters(consumed, |written|);
        if nwrite == (nread + PIPESIZE) % U32 {
          readers := {};
          writers := writers + {me};
          return Sleep(i), i;
        }
        if i >= |src| {
          break;
        }
        Put(src[i]);
        assert src[i0..i] + [src[i]] == src[i0..i + 1];
        i := i + 1;
      }
      readers := {};
      return Return(i), i;
    }

    // piperead.  room is how much of the destination can be written.
    method Read(me: nat, n: int, killed: bool, room: nat) returns (r: Outcome, out: seq<int>)
      requires Valid() && readopen
      modifies this
      ensures Valid() && written == old(written) && readopen && writeopen == old(writeopen)
      ensures old(consumed) + |out| <= consumed <= |written|
      ensures out == written[old(consumed)..old(consumed) + |out|]
      // a byte whose copy fails is lost
      ensures consumed == old(consumed) + |out| || (consumed == old(consumed) + |out| + 1 && |out| == room < n)
      ensures r.Sleep? ==> r.i == 0 && me in readers && consumed == |written| && writeopen && out == []
      ensures r == Return(-1) ==> killed && out == [] && consumed == old(consumed) == |written| && writeopen
      ensures r.Return? && r.value != -1 ==> r.value == |out| && writers == {}
      ensures r == Return(0) && n > 0 && room > 0 ==> consumed == |written| && !writeopen
      ensures r.Return? && 0 <= r.value < n && r.value < room ==> consumed == |written|
      ensures Stranded() ==> old(Stranded())
    {
      out := [];
      Counters(consumed, |written|);
      if nread == nwrite && writeopen {
        if killed {
          return Return(-1), [];
        }
        readers := readers + {me};
        return Sleep(0), [];
      }
      var i := 0;
      while i < n
        invariant 0 <= i == |out| && Ring() && i <= room
        invariant consumed == old(consumed) + i && out == written[old(consumed)..consumed]
        invariant n > 0 ==> i <= n
        invariant written == old(written) && readopen && writeopen == old(writeopen)
        invariant readers == old(readers)
        invariant i > 0 || consumed < |written| || !writeopen
      {
        Counters(consumed, |written|);
        if nread == nwrite {
          break;
        }
        var ch := Get();
        if i >= room {
          break;
        }
        assert written[old(consumed)..consumed] == written[old(consumed)..consumed - 1] + [ch];
        out := out + [ch];
        i := i + 1;
      }
      writers := {};
      return Return(i), out;
    }

    // kill: the process is woken wherever it sleeps.
    method Kill(p: nat)
      requires Valid()
      modifies this`readers, this`writers
      ensures Valid() && p !in readers && p !in writers && readers <= old(readers) && writers <= old(writers)
      ensures Stranded() ==> old(Stranded())
    {
      readers, writers := readers - {p}, writers - {p};
    }
  }

  // A reader asleep at an empty pipe, and a writer killed after its first byte: the byte is there
  // and the reader still asleep.
  method KilledWriter() returns (p: Pipe)
    ensures fresh(p) && p.Valid() && p.Stranded()
  {
    p := new Pipe();
    var r, out := p.Read(1, 10, false, 10);
    var w, i1 := p.Write(2, [7, 8], 2, 0, 1);
  }
}
