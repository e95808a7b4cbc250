/**
  The buffer cache of kernel/bio.c as a state machine over the critical sections of
  bcache.lock and of the buffers' sleep locks.

  The auxiliary fields record what the protocol is about: the latest contents given to each
  block, the blocks logged and not yet installed, which buffers were changed and not yet
  passed to log_write or bwrite, and when each buffer last fell out of use.
 */
module CacheMachine {

  const NBUF: nat := 30

  type Data = seq<int>

  datatype Key = Key(dev: nat, blockno: nat)

  datatype Buf = Buf(
    key: Key,
    refcnt: nat,
    valid: bool,
    locked: bool,
    data: Data,
    refs: nat,        // processes between bget and the end of brelse
    dirty: bool,      // changed since the last log_write or bwrite
    moved: nat,       // when brelse last moved it to the front
    idle: nat)        // when its refcnt last fell to zero

  datatype State = State(
    bufs: seq<Buf>,
    order: seq<nat>,        // the LRU list, most recent first
    disk: map<Key, Data>,
    latest: map<Key, Data>, // what the last holder to change each block left in it
    pinned: set<Key>,       // blocks logged and not yet installed
    clock: nat)

  function At(m: map<Key, Data>, k: Key): Data {
    if k in m then m[k] else []
  }

  // ------------------------------------------------------------------
  // The two scans of bget
  // ------------------------------------------------------------------

  // The first buffer of the list that caches k, or NBUF.
  function Find(bufs: seq<Buf>, order: seq<nat>, k: Key): (b: nat)
    requires forall i :: 0 <= i < |order| ==> order[i] < |bufs|
    ensures b == |bufs| || (b in order && b < |bufs| && bufs[b].key == k)
    ensures b == |bufs| ==> forall i :: 0 <= i < |order| ==> bufs[order[i]].key != k
  {
    if order == [] then |bufs|
    else if bufs[order[0]].key == k then order[0]
    else Find(bufs, order[1..], k)
  }

  // The last buffer of the list that nobody refers to, or NBUF.
  function Victim(bufs: seq<Buf>, order: seq<nat>): (b: nat)
    requires forall i :: 0 <= i < |order| ==> order[i] < |bufs|
    ensures b == |bufs| || (b in order && b < |bufs| && bufs[b].refcnt == 0)
    ensures b == |bufs| ==> forall i :: 0 <= i < |order| ==> bufs[order[i]].refcnt > 0
  {
    if order == [] then |bufs|
    else if bufs[order[|order| - 1]].refcnt == 0 then order[|order| - 1]
    else Victim(bufs, order[..|order| - 1])
  }

  // Every buffer is on the list exactly once.
  predicate IsOrder(order: seq<nat>, n: nat) {
    && |order| == n
    && (forall i :: 0 <= i < n ==> order[i] < n)
    && (forall i, j :: 0 <= i < j < n ==> order[i] != order[j])
    && (forall b :: 0 <= b < n ==> b in order)
  }

  ghost function PlaceOf(order: seq<nat>, b: nat): (i: nat)
    requires b in order
    ensures i < |order| && order[i] == b
  {
    var i :| 0 <= i < |order| && order[i] == b;
    i
  }

  // Take b out of the list and put it at the front.
  ghost function ToFront(order: seq<nat>, b: nat): (o: seq<nat>)
    requires b in order
  {
    var i := PlaceOf(order, b);
    [b] + order[..i] + order[i + 1..]
  }

  // ------------------------------------------------------------------
  // Steps
  // ------------------------------------------------------------------

  datatype Step =
    | Get(key: Key)             // bget, up to taking the buffer's sleep lock
    | Lock(b: nat)              // acquiresleep succeeds
    | Fill(b: nat)              // bread reads the block if the buffer is not valid
    | Change(b: nat, data: Data)
    | LogWrite(b: nat)          // log_write, pinning the buffer when the block is new to the log
    | Write(b: nat)             // bwrite
    | Unpin(b: nat)             // bunpin
    | Unlock(b: nat)            // releasesleep in brelse
    | Drop(b: nat)              // the rest of brelse

  predicate Shape(s: State) {
    |s.bufs| == NBUF && IsOrder(s.order, NBUF)
  }

  // What a caller must respect.  Blocks of device 0 are not used: binit leaves every buffer
  // with device 0 and block 0.
  predicate Enabled(s: State, step: Step) {
    && Shape(s)
    && match step
       case Get(key) =>
         && key.dev != 0
         && (Find(s.bufs, s.order, key) < NBUF || Victim(s.bufs, s.order) < NBUF)
       case Lock(b) => b < NBUF && !s.bufs[b].locked && 1 <= s.bufs[b].refs
       case Fill(b) => b < NBUF && s.bufs[b].locked
       case Change(b, data) => b < NBUF && s.bufs[b].locked && s.bufs[b].valid
       case LogWrite(b) => b < NBUF && s.bufs[b].locked && s.bufs[b].valid
       case Write(b) => b < NBUF && s.bufs[b].locked && s.bufs[b].valid
       case Unpin(b) =>
         // install_trans has just written the buffer home
         && b < NBUF && s.bufs[b].locked && s.bufs[b].key in s.pinned && 1 <= s.bufs[b].refcnt
         && s.bufs[b].valid && !s.bufs[b].dirty && At(s.disk, s.bufs[b].key) == s.bufs[b].data
       case Unlock(b) => b < NBUF && s.bufs[b].locked && !s.bufs[b].dirty
       case Drop(b) =>
         b < NBUF && (if s.bufs[b].locked then 2 else 1) <= s.bufs[b].refs && 1 <= s.bufs[b].refcnt
  }

  ghost function Do(s: State, step: Step): State
    requires Enabled(s, step)
  {
    match step
    case Get(key) =>
      var h := Find(s.bufs, s.order, key);
      if h < NBUF then
        s.(bufs := s.bufs[h := s.bufs[h].(refcnt := s.bufs[h].refcnt + 1, refs := s.bufs[h].refs + 1)])
      else
        var v := Victim(s.bufs, s.order);
        s.(bufs := s.bufs[v := s.bufs[v].(key := key, valid := false, refcnt := 1, refs := 1)])
    case Lock(b) => s.(bufs := s.bufs[b := s.bufs[b].(locked := true)])
    case Fill(b) =>
      if s.bufs[b].valid then s
      else s.(bufs := s.bufs[b := s.bufs[b].(valid := true, data := At(s.disk, s.bufs[b].key))])
    case Change(b, data) =>
      s.(bufs := s.bufs[b := s.bufs[b].(data := data, dirty := true)],
      latest := s.latest[s.bufs[b].key := data])
    case LogWrite(b) =>
      var c := s.bufs[b];
      if c.key in s.pinned then s.(bufs := s.bufs[b := c.(dirty := false)])
      else s.(bufs := s.bufs[b := c.(dirty := false, refcnt := c.refcnt + 1)], pinned := s.pinned + {c.key})
    case Write(b) =>
      s.(disk := s.disk[s.bufs[b].key := s.bufs[b].data], bufs := s.bufs[b := s.bufs[b].(dirty := false)])
    case Unpin(b) =>
      var c := s.bufs[b];
      s.(bufs := s.bufs[b := c.(refcnt := c.refcnt - 1, idle := if c.refcnt == 1 then s.clock + 1 else c.idle)],
      pinned := s.pinned - {c.key}, clock := s.clock + 1)
    case Unlock(b) => s.(bufs := s.bufs[b := s.bufs[b].(locked := false)])
    case Drop(b) =>
      var c := s.bufs[b].(refcnt := s.bufs[b].refcnt - 1, refs := s.bufs[b].refs - 1);
      if c.refcnt == 0 then
        s.(bufs := s.bufs[b := c.(moved := s.clock + 1, idle := s.clock + 1)],
        order := ToFront(s.order, b), clock := s.clock + 1)
      else s.(bufs := s.bufs[b := c])
  }

  // After binit: all buffers have device 0 and block 0, the last one linked is at the front.
  predicate Init(s: State) {
    && Shape(s)
    && s.latest == s.disk && s.pinned == {} && s.clock == NBUF
    && (forall i :: 0 <= i < NBUF ==> s.order[i] == NBUF - 1 - i)
    && (forall b :: 0 <= b < NBUF ==>
         s.bufs[b].(data := []) == Buf(Key(0, 0), 0, false, false, [], 0, false, b, b))
  }

  ghost predicate Next(s: State, t: State) {
    exists step :: Enabled(s, step) && t == Do(s, step)
  }

  ghost predicate IsRun(run: seq<State>) {
    && 1 <= |run|
    && Init(run[0])
    && forall i, j :: 0 <= i && j == i + 1 < |run| ==> Next(run[i], run[j])
  }
}
