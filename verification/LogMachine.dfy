/**
  The write-ahead log of kernel/log.c as a state machine.

  One step is one critical section of log.lock, or one block write to the disk, or a
  crash.  A crash may therefore fall between any two disk writes, during a commit and
  during recovery.  The history of begin_op / log_write / end_op events says what the
  file system calls asked for; the invariant relates the disk to a prefix of it.
 */
module LogMachine {

  const MAXOPBLOCKS: nat := 10
  const LOGSIZE: nat := MAXOPBLOCKS * 3
  const WORDS: nat := 256

  // A disk block as its machine words.
  datatype Block = Block(words: seq<int>)

  type Disk = seq<Block>

  // log.start, log.size (sb.nlog) and the number of blocks on the disk.
  datatype Layout = Layout(start: nat, size: nat, total: nat)

  predicate Wf(L: Layout) {
    1 <= L.size && L.start + L.size <= L.total
  }

  predicate InLog(L: Layout, b: int) {
    L.start <= b < L.start + L.size
  }

  predicate IsHome(L: Layout, b: int) {
    0 <= b < L.total && !InLog(L, b)
  }

  function Zero(): Block {
    Block(seq(WORDS, _ => 0))
  }

  predicate Distinct(s: seq<int>) {
    forall i, j :: 0 <= i < j < |s| ==> s[i] != s[j]
  }

  // ------------------------------------------------------------------
  // The header block: word 0 is n, words 1..n are the home block numbers.
  // ------------------------------------------------------------------

  predicate IsHeader(b: Block) {
    |b.words| == WORDS && 0 <= b.words[0] <= LOGSIZE
  }

  // write_head overwrites only the first n+1 words of the old header block.
  function PutHeader(prev: Block, lh: seq<int>): (b: Block)
    requires IsHeader(prev) && |lh| <= LOGSIZE
    ensures IsHeader(b) && Entries(b) == lh
  {
    Block([|lh|] + lh + prev.words[|lh| + 1..])
  }

  // read_head.
  function Entries(b: Block): (lh: seq<int>)
    requires IsHeader(b)
  {
    b.words[1..1 + b.words[0]]
  }

  // A list of home blocks the log area has room for.
  predicate LogList(L: Layout, lh: seq<int>) {
    && |lh| <= LOGSIZE
    && |lh| < L.size
    && Distinct(lh)
    && forall i :: 0 <= i < |lh| ==> IsHome(L, lh[i])
  }

  predicate DiskOk(L: Layout, d: Disk) {
    && Wf(L)
    && |d| == L.total
    && IsHeader(d[L.start])
    && LogList(L, Entries(d[L.start]))
  }

  ghost function IndexOf(s: seq<int>, x: int): (i: nat)
    requires x in s
    ensures i < |s| && s[i] == x
  {
    var i :| 0 <= i < |s| && s[i] == x;
    i
  }

  // What a completed recovery of disk d leaves in block b; the log area reads as zero.
  ghost function DurableAt(L: Layout, d: Disk, b: int): Block
    requires DiskOk(L, d) && 0 <= b < L.total
  {
    if InLog(L, b) then Zero()
    else if b in Entries(d[L.start]) then d[L.start + 1 + IndexOf(Entries(d[L.start]), b)]
    else d[b]
  }

  ghost function Durable(L: Layout, d: Disk): (h: Disk)
    requires DiskOk(L, d)
    ensures |h| == L.total
    ensures forall b {:trigger h[b]} :: 0 <= b < L.total ==> h[b] == DurableAt(L, d, b)
  {
    seq(L.total, b requires 0 <= b < L.total => DurableAt(L, d, b))
  }

  // Block b as bread returns it: a pinned buffer hides the disk.
  function OverlayAt(L: Layout, d: Disk, mem: map<int, Block>, b: int): Block
    requires |d| == L.total && 0 <= b < L.total
  {
    if InLog(L, b) then Zero() else if b in mem then mem[b] else d[b]
  }

  function Overlay(L: Layout, d: Disk, mem: map<int, Block>): (h: Disk)
    requires |d| == L.total
    ensures |h| == L.total
    ensures forall b {:trigger h[b]} :: 0 <= b < L.total ==> h[b] == OverlayAt(L, d, mem, b)
  {
    seq(L.total, b requires 0 <= b < L.total => OverlayAt(L, d, mem, b))
  }

  // ------------------------------------------------------------------
  // Histories of file system calls
  // ------------------------------------------------------------------

  datatype Event = Begin(op: nat) | Write(op: nat, block: int, data: Block) | End(op: nat)

  // The home blocks after the writes of a history.
  function Apply(init: Disk, h: seq<Event>): (d: Disk)
    ensures |d| == |init|
  {
    if h == [] then init
    else
      var d := Apply(init, h[..|h| - 1]);
      match h[|h| - 1]
      case Write(_, b, data) => if 0 <= b < |d| then d[b := data] else d
      case _ => d
  }

  function OpenAfter(o: set<nat>, e: Event): set<nat> {
    match e
    case Begin(op) => o + {op}
    case Write(_, _, _) => o
    case End(op) => o - {op}
  }

  // The calls that have begun and not ended.
  function Open(h: seq<Event>): set<nat> {
    if h == [] then {} else OpenAfter(Open(h[..|h| - 1]), h[|h| - 1])
  }

  // A call begins once, and writes and ends only while it is open.
  predicate MayFollow(h: seq<Event>, e: Event) {
    if e.Begin? then forall i :: 0 <= i < |h| ==> h[i].op != e.op
    else e.op in Open(h)
  }

  predicate GoodHistory(h: seq<Event>) {
    h == [] || (GoodHistory(h[..|h| - 1]) && MayFollow(h[..|h| - 1], h[|h| - 1]))
  }

  // No call is cut in two: every event of h lies between the begin and the end of its call,
  // and both are in h.
  ghost predicate WholeOps(h: seq<Event>) {
    forall k :: 0 <= k < |h| ==> BegunBy(h, k) && EndedAfter(h, k)
  }

  ghost predicate BegunBy(h: seq<Event>, k: nat)
    requires k < |h|
  {
    exists i :: 0 <= i <= k && h[i] == Begin(h[k].op)
  }

  ghost predicate EndedAfter(h: seq<Event>, k: nat)
    requires k < |h|
  {
    exists j :: k <= j < |h| && h[j] == End(h[k].op)
  }

  // ------------------------------------------------------------------
  // The machine
  // ------------------------------------------------------------------

  datatype Phase =
    | Idle
    | Copying(k: nat)      // write_log: blocks before k are in the log
    | Installing(k: nat)   // install_trans(0): blocks before k are home
    | Cleared              // the log is empty again, log.committing still set
    | Recovering(k: nat)   // install_trans(1)

  datatype Op = Op(id: nat, added: nat)

  datatype State = State(
    disk: Disk,
    lh: seq<int>,             // log.lh
    outstanding: nat,         // log.outstanding
    committing: bool,         // log.committing
    mem: map<int, Block>,     // pinned buffers: logged and not yet home
    phase: Phase,
    ops: seq<Op>,             // the calls in progress and the blocks each added to the log
    init: Disk,               // home blocks at the start of the run
    history: seq<Event>,
    captured: nat)            // how much of the history a crash now would keep

  datatype Step =
    | BeginOp(id: nat)
    | LogWrite(id: nat, b: int, data: Block)
    | EndOp(id: nat)
    | CopyBlock
    | WriteHead
    | InstallBlock
    | ClearHead
    | FinishCommit
    | Crash
    | RecoverBlock
    | RecoverClear

  // The test that lets begin_op proceed.
  predicate MayBegin(s: State) {
    && !s.committing
    && |s.lh| + (s.outstanding + 1) * MAXOPBLOCKS <= LOGSIZE
  }

  // The first panic test of log_write, made before absorption.
  predicate TooBig(L: Layout, s: State) {
    |s.lh| >= LOGSIZE || |s.lh| >= L.size - 1
  }

  predicate HasOp(ops: seq<Op>, id: nat) {
    exists i :: 0 <= i < |ops| && ops[i].id == id
  }

  function OpAt(ops: seq<Op>, id: nat): (i: nat)
    requires HasOp(ops, id)
    ensures i < |ops| && ops[i].id == id
  {
    if ops[0].id == id then 0 else
      assert HasOp(ops[1..], id) by {
        var k :| 0 <= k < |ops| && ops[k].id == id;
        assert ops[1..][k - 1].id == id;
      }
      1 + OpAt(ops[1..], id)
  }

  function Without(ops: seq<Op>, i: nat): seq<Op>
    requires i < |ops|
  {
    ops[..i] + ops[i + 1..]
  }

  // guarded says whether log_write makes its size test.
  predicate Enabled(L: Layout, s: State, step: Step, guarded: bool) {
    && Wf(L)
    && |s.disk| == L.total
    && match step
       case BeginOp(id) =>
         s.phase == Idle && MayBegin(s) && MayFollow(s.history, Begin(id))
       case LogWrite(id, b, data) =>
         s.phase == Idle && HasOp(s.ops, id) && IsHome(L, b) && (guarded ==> !TooBig(L, s))
       case EndOp(id) => s.phase == Idle && HasOp(s.ops, id) && 1 <= s.outstanding
       case CopyBlock =>
         s.phase.Copying? && s.phase.k < |s.lh| && L.start + 1 + s.phase.k < L.total && 0 <= s.lh[s.phase.k] < L.total
       case WriteHead => s.phase == Copying(|s.lh|) && |s.lh| <= LOGSIZE && IsHeader(s.disk[L.start])
       case InstallBlock =>
         s.phase.Installing? && s.phase.k < |s.lh| && L.start + 1 + s.phase.k < L.total && 0 <= s.lh[s.phase.k] < L.total
       case ClearHead => s.phase == Installing(|s.lh|) && IsHeader(s.disk[L.start])
       case FinishCommit => s.phase == Cleared
       case Crash => IsHeader(s.disk[L.start]) && s.captured <= |s.history|
       case RecoverBlock =>
         s.phase.Recovering? && s.phase.k < |s.lh| && L.start + 1 + s.phase.k < L.total && 0 <= s.lh[s.phase.k] < L.total
       case RecoverClear => s.phase == Recovering(|s.lh|) && IsHeader(s.disk[L.start])
  }

  function Cached(s: State, b: int): Block
    requires 0 <= b < |s.disk|
  {
    if b in s.mem then s.mem[b] else s.disk[b]
  }

  function Do(L: Layout, s: State, step: Step): State
    requires Enabled(L, s, step, false)
  {
    match step
    case BeginOp(id) =>
      s.(outstanding := s.outstanding + 1, ops := s.ops + [Op(id, 0)], history := s.history + [Begin(id)])
    case LogWrite(id, b, data) =>
      var i := OpAt(s.ops, id);
      s.(lh := if b in s.lh then s.lh else s.lh + [b],
      mem := s.mem[b := data],
      ops := if b in s.lh then s.ops else s.ops[i := Op(id, s.ops[i].added + 1)],
      history := s.history + [Write(id, b, data)])
    case EndOp(id) =>
      var t := s.(outstanding := s.outstanding - 1, ops := Without(s.ops, OpAt(s.ops, id)),
      history := s.history + [End(id)]);
      if t.outstanding != 0 then t
      else if |s.lh| > 0 then t.(committing := true, phase := Copying(0))
      else t.(committing := true, phase := Cleared, captured := |t.history|)
    case CopyBlock =>
      s.(disk := s.disk[L.start + 1 + s.phase.k := Cached(s, s.lh[s.phase.k])], phase := Copying(s.phase.k + 1))
    case WriteHead =>
      s.(disk := s.disk[L.start := PutHeader(s.disk[L.start], s.lh)], phase := Installing(0), captured := |s.history|)
    case InstallBlock =>
      s.(disk := s.disk[s.lh[s.phase.k] := s.disk[L.start + 1 + s.phase.k]],
      mem := s.mem - {s.lh[s.phase.k]}, phase := Installing(s.phase.k + 1))
    case ClearHead =>
      s.(disk := s.disk[L.start := PutHeader(s.disk[L.start], [])], lh := [], phase := Cleared)
    case FinishCommit =>
      s.(committing := false, phase := Idle)
    case Crash =>
      s.(lh := Entries(s.disk[L.start]), outstanding := 0, committing := false, mem := map[],
      phase := Recovering(0), ops := [], history := s.history[..s.captured])
    case RecoverBlock =>
      s.(disk := s.disk[s.lh[s.phase.k] := s.disk[L.start + 1 + s.phase.k]], phase := Recovering(s.phase.k + 1))
    case RecoverClear =>
      s.(disk := s.disk[L.start := PutHeader(s.disk[L.start], [])], lh := [], phase := Idle)
  }

  ghost predicate Next(L: Layout, s: State, t: State, guarded: bool) {
    exists step :: Enabled(L, s, step, guarded) && t == Do(L, s, step)
  }

  // A machine that has just booted from a well formed disk and read its header.
  ghost predicate Init(L: Layout, s: State) {
    && DiskOk(L, s.disk)
    && s == State(s.disk, Entries(s.disk[L.start]), 0, false, map[], Recovering(0), [],
    Durable(L, s.disk), [], 0)
  }

  ghost predicate IsRun(L: Layout, run: seq<State>, guarded: bool) {
    && 1 <= |run|
    && Init(L, run[0])
    && forall i, j :: 0 <= i && j == i + 1 < |run| ==> Next(L, run[i], run[j], guarded)
  }
}
