/**
  Crash atomicity and group commit for every run of LogMachine.
 */
module LogSafety {
  import opened LogMachine

  predicate SameKeys(mem: map<int, Block>, lh: seq<int>) {
    && (forall b :: b in mem ==> b in lh)
    && (forall i :: 0 <= i < |lh| ==> lh[i] in mem)
  }

  // Log block i holds what the cache holds for the i-th logged block, for i < k.
  predicate InLogArea(L: Layout, d: Disk, mem: map<int, Block>, lh: seq<int>, k: nat)
    requires Wf(L) && |d| == L.total && LogList(L, lh) && k <= |lh|
  {
    forall i :: 0 <= i < k ==> lh[i] in mem && d[L.start + 1 + i] == mem[lh[i]]
  }

  // The first k logged blocks are home.
  predicate Installed(L: Layout, d: Disk, lh: seq<int>, k: nat)
    requires Wf(L) && |d| == L.total && LogList(L, lh) && k <= |lh|
  {
    forall i :: 0 <= i < k ==> d[lh[i]] == d[L.start + 1 + i]
  }

  predicate OpsMatch(s: State) {
    && s.outstanding == |s.ops|
    && (forall i, j :: 0 <= i < j < |s.ops| ==> s.ops[i].id != s.ops[j].id)
    && (forall i :: 0 <= i < |s.ops| ==> s.ops[i].id in Open(s.history))
    && (forall id :: id in Open(s.history) ==> HasOp(s.ops, id))
  }

  // What the history says of the calls in progress, and that no call straddles the captured part.
  predicate HistoryInv(s: State) {
    && s.captured <= |s.history|
    && GoodHistory(s.history)
    && OpsMatch(s)
    && Open(s.history[..s.captured]) == {}
  }

  ghost predicate Common(L: Layout, s: State) {
    && HistoryInv(s)
    && DiskOk(L, s.disk)
    && LogList(L, s.lh)
    && |s.init| == L.total
    && (forall b :: 0 <= b < L.total && InLog(L, b) ==> s.init[b] == Zero())
    && Durable(L, s.disk) == Apply(s.init, s.history[..s.captured])
  }

  ghost predicate PhaseInv(L: Layout, s: State)
    requires Common(L, s)
  {
    var es := Entries(s.disk[L.start]);
    match s.phase
    case Idle =>
      && !s.committing
      && es == []
      && SameKeys(s.mem, s.lh)
      && Overlay(L, s.disk, s.mem) == Apply(s.init, s.history)
      && (s.outstanding == 0 ==> s.lh == [] && s.captured == |s.history|)
    case Copying(k) =>
      && s.committing
      && s.ops == []
      && es == []
      && 0 < |s.lh|
      && k <= |s.lh|
      && SameKeys(s.mem, s.lh)
      && Overlay(L, s.disk, s.mem) == Apply(s.init, s.history)
      && InLogArea(L, s.disk, s.mem, s.lh, k)
    case Installing(k) =>
      && s.committing
      && s.ops == []
      && es == s.lh
      && k <= |s.lh|
      && s.captured == |s.history|
      && SameKeys(s.mem, s.lh[k..])
      && Installed(L, s.disk, s.lh, k)
    case Cleared =>
      && s.committing
      && s.ops == []
      && es == []
      && s.lh == []
      && s.captured == |s.history|
      && s.mem == map[]
    case Recovering(k) =>
      && !s.committing
      && s.ops == []
      && es == s.lh
      && k <= |s.lh|
      && s.captured == |s.history|
      && s.mem == map[]
      && Installed(L, s.disk, s.lh, k)
  }

  ghost predicate Inv(L: Layout, s: State) {
    Common(L, s) && PhaseInv(L, s)
  }

  // ------------------------------------------------------------------
  // Facts about the pieces
  // ------------------------------------------------------------------

  // A disk with an empty header recovers to its own home blocks.
  lemma EmptyHeader(L: Layout, d: Disk)
    requires DiskOk(L, d) && Entries(d[L.start]) == []
    ensures Durable(L, d) == Overlay(L, d, map[])
  {
  }

  // Writing the log area below the header changes nothing while the header is empty.
  lemma CopyKeepsDurable(L: Layout, d: Disk, k: nat, v: Block)
    requires DiskOk(L, d) && Entries(d[L.start]) == [] && k + 1 < L.size
    ensures
      var d' := d[L.start + 1 + k := v];
      DiskOk(L, d') && d'[L.start] == d[L.start] && Durable(L, d') == Durable(L, d)
  {
  }

  lemma CopyAdvances(L: Layout, d: Disk, mem: map<int, Block>, lh: seq<int>, k: nat)
    requires Wf(L) && |d| == L.total && LogList(L, lh) && k < |lh| && SameKeys(mem, lh) && InLogArea(L, d, mem, lh, k)
    ensures
      var d' := d[L.start + 1 + k := mem[lh[k]]];
      InLogArea(L, d', mem, lh, k + 1) && Overlay(L, d', mem) == Overlay(L, d, mem)
  {
  }

  // Installing a logged block changes what is home, not what recovery would give.
  lemma InstallKeepsDurable(L: Layout, d: Disk, es: seq<int>, k: nat)
    requires DiskOk(L, d) && es == Entries(d[L.start]) && k < |es|
    ensures
      var d' := d[es[k] := d[L.start + 1 + k]];
      DiskOk(L, d') && d'[L.start] == d[L.start] && Durable(L, d') == Durable(L, d)
  {
    var d' := d[es[k] := d[L.start + 1 + k]];
    assert IsHome(L, es[k]);
    assert d'[L.start] == d[L.start];
    forall b | 0 <= b < L.total
      ensures Durable(L, d')[b] == Durable(L, d)[b]
    {
      if !InLog(L, b) && b in es {
        assert InLog(L, L.start + 1 + IndexOf(es, b));
      }
    }
  }

  lemma InstallAdvances(L: Layout, d: Disk, lh: seq<int>, k: nat)
    requires Wf(L) && |d| == L.total && LogList(L, lh) && k < |lh| && Installed(L, d, lh, k)
    ensures Installed(L, d[lh[k] := d[L.start + 1 + k]], lh, k + 1)
  {
    var d' := d[lh[k] := d[L.start + 1 + k]];
    assert IsHome(L, lh[k]);
    forall i | 0 <= i < k + 1
      ensures d'[lh[i]] == d'[L.start + 1 + i]
    {
      assert InLog(L, L.start + 1 + i);
    }
  }

  // Once every logged block is home, erasing the header changes nothing.
  lemma ClearKeepsDurable(L: Layout, d: Disk)
    requires DiskOk(L, d)
    requires Installed(L, d, Entries(d[L.start]), |Entries(d[L.start])|)
    ensures
      var d' := d[L.start := PutHeader(d[L.start], [])];
      DiskOk(L, d') && Entries(d'[L.start]) == [] && Durable(L, d') == Durable(L, d)
  {
    var es := Entries(d[L.start]);
    var d' := d[L.start := PutHeader(d[L.start], [])];
    assert InLog(L, L.start);
    forall b | 0 <= b < L.total
      ensures Durable(L, d')[b] == Durable(L, d)[b]
    {
      if !InLog(L, b) && b in es {
        assert d[es[IndexOf(es, b)]] == d[L.start + 1 + IndexOf(es, b)];
      }
    }
  }

  // The header write turns the cached blocks into the durable ones: this is the commit point.
  lemma HeadCommits(L: Layout, d: Disk, mem: map<int, Block>, lh: seq<int>)
    requires DiskOk(L, d) && LogList(L, lh) && SameKeys(mem, lh) && InLogArea(L, d, mem, lh, |lh|)
    ensures
      var d' := d[L.start := PutHeader(d[L.start], lh)];
      DiskOk(L, d') && Entries(d'[L.start]) == lh && Durable(L, d') == Overlay(L, d, mem)
  {
    var d' := d[L.start := PutHeader(d[L.start], lh)];
    assert InLog(L, L.start);
    forall b | 0 <= b < L.total
      ensures Durable(L, d')[b] == Overlay(L, d, mem)[b]
    {
      HeadCommitsAt(L, d, mem, lh, d', b);
    }
  }

  lemma HeadCommitsAt(L: Layout, d: Disk, mem: map<int, Block>, lh: seq<int>, d': Disk, b: int)
    requires DiskOk(L, d) && LogList(L, lh) && SameKeys(mem, lh) && InLogArea(L, d, mem, lh, |lh|) && 0 <= b < L.total
    requires DiskOk(L, d') && d' == d[L.start := d'[L.start]] && Entries(d'[L.start]) == lh
    ensures Durable(L, d')[b] == Overlay(L, d, mem)[b]
  {
    assert InLog(L, L.start);
    if !InLog(L, b) && b in lh {
      var i := IndexOf(lh, b);
      assert d'[L.start + 1 + i] == mem[lh[i]];
    }
  }

  lemma DropFirst(mem: map<int, Block>, lh: seq<int>, k: nat)
    requires Distinct(lh) && k < |lh| && SameKeys(mem, lh[k..])
    ensures SameKeys(mem - {lh[k]}, lh[k + 1..])
  {
    var rest := lh[k + 1..];
    assert lh[k..] == [lh[k]] + rest;
    forall i | 0 <= i < |rest|
      ensures rest[i] in mem - {lh[k]}
    {
      assert rest[i] == lh[k..][i + 1] == lh[k + 1 + i];
    }
  }

  lemma NoKeys(mem: map<int, Block>)
    requires SameKeys(mem, [])
    ensures mem == map[]
  {
    assert forall b :: b !in mem;
  }

  lemma AppendEvent(init: Disk, h: seq<Event>, e: Event)
    ensures Apply(init, h + [e]) ==
            if e.Write? && 0 <= e.block < |init| then Apply(init, h)[e.block := e.data] else Apply(init, h)
    ensures Open(h + [e]) == OpenAfter(Open(h), e)
  {
    assert (h + [e])[..|h + [e]| - 1] == h;
  }

  lemma GoodAppend(h: seq<Event>, e: Event)
    requires GoodHistory(h)
    requires MayFollow(h, e)
    ensures GoodHistory(h + [e])
  {
    assert (h + [e])[..|h + [e]| - 1] == h;
  }

  lemma {:induction false} GoodPrefix(h: seq<Event>, n: nat)
    requires GoodHistory(h) && n <= |h|
    ensures GoodHistory(h[..n])
  {
    if n < |h| {
      GoodPrefix(h[..|h| - 1], n);
      assert h[..|h| - 1][..n] == h[..n];
    } else {
      assert h[..n] == h;
    }
  }

  lemma {:induction false} OpenHasBegun(h: seq<Event>, op: nat)
    requires op in Open(h)
    ensures exists i :: 0 <= i < |h| && h[i] == Begin(op)
  {
    var g := h[..|h| - 1];
    if h[|h| - 1] != Begin(op) {
      OpenHasBegun(g, op);
      var i :| 0 <= i < |g| && g[i] == Begin(op);
      assert h[i] == Begin(op);
    }
  }

  // ------------------------------------------------------------------
  // Every step keeps the invariant
  // ------------------------------------------------------------------

  lemma InitInv(L: Layout, s: State)
    requires Init(L, s)
    ensures Inv(L, s)
  {
  }

  lemma BeginInv(L: Layout, s: State, id: nat)
    requires Inv(L, s) && Enabled(L, s, BeginOp(id), true)
    ensures Inv(L, Do(L, s, BeginOp(id)))
  {
    var t := Do(L, s, BeginOp(id));
    AppendEvent(s.init, s.history, Begin(id));
    GoodAppend(s.history, Begin(id));
    assert t.history[..t.captured] == s.history[..s.captured];
    if id in Open(s.history) { OpenHasBegun(s.history, id); }
    forall x | x in Open(t.history)
      ensures HasOp(t.ops, x)
    {
      if x == id {
        assert t.ops[|s.ops|].id == id;
      } else {
        var i := OpAt(s.ops, x);
        assert t.ops[i].id == x;
      }
    }
  }

  lemma LogWriteHistory(s: State, id: nat, b: int, data: Block, ops: seq<Op>)
    requires HistoryInv(s) && HasOp(s.ops, id)
    requires |ops| == |s.ops| && forall i :: 0 <= i < |ops| ==> ops[i].id == s.ops[i].id
    ensures
      var h := s.history + [Write(id, b, data)];
      HistoryInv(s.(history := h, ops := ops)) && h[..s.captured] == s.history[..s.captured]
  {
    var t := s.(history := s.history + [Write(id, b, data)], ops := ops);
    AppendEvent([], s.history, Write(id, b, data));
    GoodAppend(s.history, Write(id, b, data));
    assert t.history[..t.captured] == s.history[..s.captured];
    forall x | x in Open(t.history)
      ensures HasOp(t.ops, x)
    {
      assert t.ops[OpAt(s.ops, x)].id == x;
    }
  }

  lemma LogWriteCache(L: Layout, d: Disk, lh: seq<int>, mem: map<int, Block>, b: int, data: Block)
    requires Wf(L) && |d| == L.total && LogList(L, lh) && SameKeys(mem, lh)
    requires IsHome(L, b) && |lh| < LOGSIZE && |lh| < L.size - 1
    ensures
      var lh' := if b in lh then lh else lh + [b];
      && LogList(L, lh')
      && SameKeys(mem[b := data], lh')
      && Overlay(L, d, mem[b := data]) == Overlay(L, d, mem)[b := data]
  {
  }

  lemma LogWriteInv(L: Layout, s: State, id: nat, b: int, data: Block)
    requires Inv(L, s) && Enabled(L, s, LogWrite(id, b, data), true)
    ensures Inv(L, Do(L, s, LogWrite(id, b, data)))
  {
    var t := Do(L, s, LogWrite(id, b, data));
    LogWriteHistory(s, id, b, data, t.ops);
    LogWriteCache(L, s.disk, s.lh, s.mem, b, data);
    AppendEvent(s.init, s.history, Write(id, b, data));
  }

  lemma EndHistory(s: State, id: nat, k: nat)
    requires HistoryInv(s) && k < |s.ops| && s.ops[k].id == id
    ensures
      var t := s.(outstanding := s.outstanding - 1, ops := Without(s.ops, k), history := s.history + [End(id)]);
      && HistoryInv(t)
      && t.history[..s.captured] == s.history[..s.captured]
      && (t.outstanding == 0 ==> Open(t.history) == {})
  {
    var t := s.(outstanding := s.outstanding - 1, ops := Without(s.ops, k), history := s.history + [End(id)]);
    AppendEvent([], s.history, End(id));
    GoodAppend(s.history, End(id));
    assert t.history[..t.captured] == s.history[..s.captured];
    forall x | x in Open(t.history)
      ensures HasOp(t.ops, x)
    {
      var i := OpAt(s.ops, x);
      assert t.ops[if i < k then i else i - 1].id == x;
    }
  }

  lemma EndInv(L: Layout, s: State, id: nat)
    requires Inv(L, s) && Enabled(L, s, EndOp(id), true)
    ensures Inv(L, Do(L, s, EndOp(id)))
  {
    var t := Do(L, s, EndOp(id));
    EndHistory(s, id, OpAt(s.ops, id));
    AppendEvent(s.init, s.history, End(id));
    if t.outstanding == 0 && s.lh == [] {
      assert t.history[..t.captured] == t.history;
      EmptyHeader(L, s.disk);
      NoKeys(s.mem);
    }
  }

  lemma CopyInv(L: Layout, s: State)
    requires Inv(L, s) && Enabled(L, s, CopyBlock, true)
    ensures Inv(L, Do(L, s, CopyBlock))
  {
    CopyKeepsDurable(L, s.disk, s.phase.k, Cached(s, s.lh[s.phase.k]));
    CopyAdvances(L, s.disk, s.mem, s.lh, s.phase.k);
  }

  lemma WriteHeadInv(L: Layout, s: State)
    requires Inv(L, s) && Enabled(L, s, WriteHead, true)
    ensures Inv(L, Do(L, s, WriteHead))
  {
    var t := Do(L, s, WriteHead);
    HeadCommits(L, s.disk, s.mem, s.lh);
    assert t.history[..t.captured] == t.history;
    assert Open(t.history) == {} by {
      assert forall x :: x in Open(t.history) ==> HasOp(t.ops, x);
    }
    assert t.lh[0..] == t.lh;
  }

  lemma InstallInv(L: Layout, s: State)
    requires Inv(L, s) && Enabled(L, s, InstallBlock, true)
    ensures Inv(L, Do(L, s, InstallBlock))
  {
    InstallCommon(L, s);
    InstallAdvances(L, s.disk, s.lh, s.phase.k);
    DropFirst(s.mem, s.lh, s.phase.k);
  }

  lemma InstallCommon(L: Layout, s: State)
    requires Inv(L, s) && Enabled(L, s, InstallBlock, true)
    ensures Common(L, Do(L, s, InstallBlock))
    ensures Do(L, s, InstallBlock).disk[L.start] == s.disk[L.start]
  {
    InstallKeepsDurable(L, s.disk, s.lh, s.phase.k);
    SameCommon(L, s, Do(L, s, InstallBlock));
  }

  // A step that moves blocks on the disk and nothing of what recovery would give.
  lemma SameCommon(L: Layout, s: State, t: State)
    requires Common(L, s) && DiskOk(L, t.disk) && Durable(L, t.disk) == Durable(L, s.disk)
    requires t.history == s.history && t.captured == s.captured && t.init == s.init
    requires t.ops == s.ops && t.outstanding == s.outstanding && t.lh == s.lh
    ensures Common(L, t)
  {
  }

  lemma RecoverInv(L: Layout, s: State)
    requires Inv(L, s) && Enabled(L, s, RecoverBlock, true)
    ensures Inv(L, Do(L, s, RecoverBlock))
  {
    var t := Do(L, s, RecoverBlock);
    InstallKeepsDurable(L, s.disk, s.lh, s.phase.k);
    SameCommon(L, s, t);
    InstallAdvances(L, s.disk, s.lh, s.phase.k);
  }

  lemma ClearHeadInv(L: Layout, s: State)
    requires Inv(L, s) && Enabled(L, s, ClearHead, true)
    ensures Inv(L, Do(L, s, ClearHead))
  {
    ClearKeepsDurable(L, s.disk);
    assert s.lh[|s.lh|..] == [];
    NoKeys(s.mem);
  }

  lemma FinishInv(L: Layout, s: State)
    requires Inv(L, s) && Enabled(L, s, FinishCommit, true)
    ensures Inv(L, Do(L, s, FinishCommit))
  {
    assert s.history[..s.captured] == s.history;
    EmptyHeader(L, s.disk);
  }

  lemma RecoverClearInv(L: Layout, s: State)
    requires Inv(L, s) && Enabled(L, s, RecoverClear, true)
    ensures Inv(L, Do(L, s, RecoverClear))
  {
    var t := Do(L, s, RecoverClear);
    assert s.history[..s.captured] == s.history;
    ClearKeepsDurable(L, s.disk);
    EmptyHeader(L, t.disk);
  }

  lemma CrashInv(L: Layout, s: State)
    requires Inv(L, s) && Enabled(L, s, Crash, true)
    ensures Inv(L, Do(L, s, Crash))
  {
    var t := Do(L, s, Crash);
    GoodPrefix(s.history, s.captured);
    assert t.history[..t.captured] == t.history == s.history[..s.captured];
  }

  lemma StepInv(L: Layout, s: State, step: Step)
    requires Inv(L, s) && Enabled(L, s, step, true)
    ensures Inv(L, Do(L, s, step))
  {
    match step
    case BeginOp(id) => BeginInv(L, s, id);
    case LogWrite(id, b, data) => LogWriteInv(L, s, id, b, data);
    case EndOp(id) => EndInv(L, s, id);
    case CopyBlock => CopyInv(L, s);
    case WriteHead => WriteHeadInv(L, s);
    case InstallBlock => InstallInv(L, s);
    case RecoverBlock => RecoverInv(L, s);
    case ClearHead => ClearHeadInv(L, s);
    case RecoverClear => RecoverClearInv(L, s);
    case FinishCommit => FinishInv(L, s);
    case Crash => CrashInv(L, s);
  }

  lemma NextInv(L: Layout, s: State, t: State)
    requires Inv(L, s) && Next(L, s, t, true)
    ensures Inv(L, t)
  {
    var step :| Enabled(L, s, step, true) && t == Do(L, s, step);
    StepInv(L, s, step);
  }

  lemma {:induction false} RunInv(L: Layout, run: seq<State>, n: nat)
    requires IsRun(L, run, true) && n < |run|
    ensures Inv(L, run[n])
  {
    if n == 0 {
      InitInv(L, run[0]);
    } else {
      RunInv(L, run, n - 1);
      NextInv(L, run[n - 1], run[n]);
    }
  }

  // ------------------------------------------------------------------
  // Main results
  // ------------------------------------------------------------------

  lemma {:induction false} OpenUntilEnd(h: seq<Event>, m: nat, op: nat)
    requires m <= |h| && op in Open(h[..m]) && op !in Open(h)
    ensures exists j :: m <= j < |h| && h[j] == End(op)
  {
    var n := |h| - 1;
    assert h[..|h|] == h;
    if m < |h| && h[n] != End(op) {
      assert h[..n][..m] == h[..m];
      OpenUntilEnd(h[..n], m, op);
      var j :| m <= j < n && h[..n][j] == End(op);
      assert h[j] == End(op);
    }
  }

  lemma BegunBefore(h: seq<Event>, k: nat)
    requires GoodHistory(h) && k < |h|
    ensures BegunBy(h, k)
    ensures !h[k].End? ==> h[k].op in Open(h[..k + 1])
  {
    GoodPrefix(h, k + 1);
    var g := h[..k + 1];
    assert g[..|g| - 1] == h[..k];
    if !h[k].Begin? {
      OpenHasBegun(h[..k], h[k].op);
      var i :| 0 <= i < k && h[..k][i] == Begin(h[k].op);
      assert h[i] == Begin(h[k].op);
    }
  }

  // A good history with nothing open is made of whole calls.
  lemma ClosedIsWhole(h: seq<Event>)
    requires GoodHistory(h) && Open(h) == {}
    ensures WholeOps(h)
  {
    forall k | 0 <= k < |h|
      ensures BegunBy(h, k) && EndedAfter(h, k)
    {
      BegunBefore(h, k);
      if !h[k].End? {
        OpenUntilEnd(h, k + 1, h[k].op);
      }
    }
  }

  // Crash atomicity.  At every point of every run, recovering the disk would give the home
  // blocks after a prefix of the history that consists of whole calls; when no call is in
  // progress and no commit is under way, that prefix is the whole history.
  lemma CrashAtomicity(L: Layout, run: seq<State>, n: nat)
    requires IsRun(L, run, true) && n < |run|
    ensures
      var s := run[n];
      && DiskOk(L, s.disk)
      && s.captured <= |s.history|
      && WholeOps(s.history[..s.captured])
      && Durable(L, s.disk) == Apply(s.init, s.history[..s.captured])
      && (s.phase == Idle && s.ops == [] ==> s.captured == |s.history|)
  {
    RunInv(L, run, n);
    GoodPrefix(run[n].history, run[n].captured);
    ClosedIsWhole(run[n].history[..run[n].captured]);
  }

  // The commit point: writing a non-empty header, or ending a group that logged nothing.
  predicate Commits(L: Layout, s: State, step: Step)
    requires Enabled(L, s, step, true)
  {
    step.WriteHead? || (step.EndOp? && Do(L, s, step).phase == Cleared)
  }

  lemma CapturedKept(L: Layout, s: State, step: Step)
    requires Inv(L, s) && Enabled(L, s, step, true) && !Commits(L, s, step)
    ensures
      var t := Do(L, s, step);
      0 <= s.captured == t.captured <= |s.history| && t.captured <= |t.history| && t.history[..t.captured] == s.history[..s.captured]
  {
  }

  // A step leaves what a crash would keep as it was, unless it commits, and then a crash keeps
  // everything.
  lemma CommitPoint(L: Layout, s: State, step: Step)
    requires Inv(L, s) && Enabled(L, s, step, true)
    ensures var t := Do(L, s, step); DiskOk(L, t.disk) && t.captured <= |t.history|
    ensures
      var t := Do(L, s, step);
      if Commits(L, s, step)
      then t.captured == |t.history| && Durable(L, t.disk) == Apply(t.init, t.history)
      else t.captured == s.captured && t.history[..t.captured] == s.history[..s.captured]
           && Durable(L, t.disk) == Durable(L, s.disk)
  {
    var t := Do(L, s, step);
    StepInv(L, s, step);
    if Commits(L, s, step) {
      assert t.history[..t.captured] == t.history;
    } else {
      CapturedKept(L, s, step);
    }
  }

  // The part of the history that a crash would keep.
  ghost function Kept(s: State): seq<Event> {
    if s.captured <= |s.history| then s.history[..s.captured] else []
  }

  ghost predicate Grows(ks: seq<seq<Event>>, k: nat)
    requires k + 1 < |ks|
  {
    ks[k] <= ks[k + 1]
  }

  lemma {:induction false} Growing(ks: seq<seq<Event>>, m: nat, n: nat)
    requires m <= n < |ks| && forall k: nat {:trigger Grows(ks, k)} :: k + 1 < |ks| ==> Grows(ks, k)
    ensures ks[m] <= ks[n]
  {
    if m < n {
      Growing(ks, m, n - 1);
      assert Grows(ks, n - 1);
    }
  }

  // What a crash would keep at one time it keeps for ever, through further crashes too.
  lemma CapturedStays(L: Layout, run: seq<State>, m: nat, n: nat)
    requires IsRun(L, run, true) && m <= n < |run|
    ensures Kept(run[m]) <= Kept(run[n])
  {
    var ks := seq(|run|, k requires 0 <= k < |run| => Kept(run[k]));
    forall k: nat | k + 1 < |ks| ensures Grows(ks, k) {
      CapturedNext(L, run, k + 1);
    }
    Growing(ks, m, n);
  }

  lemma CapturedNext(L: Layout, run: seq<State>, n: nat)
    requires IsRun(L, run, true) && 0 < n < |run|
    ensures Kept(run[n - 1]) <= Kept(run[n])
  {
    RunInv(L, run, n - 1);
    assert Next(L, run[n - 1], run[n], true);
    var step :| Enabled(L, run[n - 1], step, true) && run[n] == Do(L, run[n - 1], step);
    CapturedStep(L, run[n - 1], step);
  }

  lemma CapturedStep(L: Layout, s: State, step: Step)
    requires Inv(L, s) && Enabled(L, s, step, true)
    ensures Kept(s) <= Kept(Do(L, s, step))
  {
    CommitPoint(L, s, step);
    if Commits(L, s, step) {
      var t := Do(L, s, step);
      assert t.history[..t.captured] == t.history;
    }
  }

  // A recovery that completes, after any number of crashes on the way, leaves exactly the
  // captured history in the home blocks themselves, with an empty log.
  lemma RecoveryCompletes(L: Layout, run: seq<State>, n: nat)
    requires IsRun(L, run, true) && n < |run|
    requires Enabled(L, run[n], RecoverClear, true)
    ensures
      var t := Do(L, run[n], RecoverClear);
      && Entries(t.disk[L.start]) == []
      && Overlay(L, t.disk, map[]) == Apply(t.init, t.history)
      && WholeOps(t.history)
  {
    RunInv(L, run, n);
    var t := Do(L, run[n], RecoverClear);
    RecoverClearInv(L, run[n]);
    assert t.history[..t.captured] == t.history;
    ClosedIsWhole(t.history);
    EmptyHeader(L, t.disk);
  }

  // A property of the disk that holds whenever no call is in progress survives every crash: the
  // recovered disk has it.
  lemma QuiescentSurvives(L: Layout, run: seq<State>, n: nat, P: Disk -> bool)
    requires IsRun(L, run, true) && n < |run|
    requires forall k: nat {:trigger run[n].history[..k]} ::
               k <= |run[n].history| && Open(run[n].history[..k]) == {} ==> P(Apply(run[n].init, run[n].history[..k]))
    ensures DiskOk(L, run[n].disk) && P(Durable(L, run[n].disk))
  {
    RunInv(L, run, n);
    assert Open(run[n].history[..run[n].captured]) == {};
  }

  // While no commit is under way, bread sees every write of the history so far.
  lemma ReadsSeeWrites(L: Layout, run: seq<State>, n: nat)
    requires IsRun(L, run, true) && n < |run| && run[n].phase == Idle
    ensures |run[n].disk| == L.total
    ensures Overlay(L, run[n].disk, run[n].mem) == Apply(run[n].init, run[n].history)
  {
    RunInv(L, run, n);
  }

  // The copy loops stay within the disk.
  lemma CopyLoopsEnabled(L: Layout, run: seq<State>, n: nat)
    requires IsRun(L, run, true) && n < |run| && !run[n].phase.Idle? && !run[n].phase.Cleared? && run[n].phase.k < |run[n].lh|
    ensures match run[n].phase {
              case Copying(_) => Enabled(L, run[n], CopyBlock, true)
              case Installing(_) => Enabled(L, run[n], InstallBlock, true)
              case _ => Enabled(L, run[n], RecoverBlock, true) }
  {
    RunInv(L, run, n);
  }

  // Group commit: no call is in progress while a commit is, so the panic in end_op cannot be
  // reached; the log lists each block once, all of them home blocks, and fits its area.
  lemma GroupCommit(L: Layout, run: seq<State>, n: nat)
    requires IsRun(L, run, true) && n < |run|
    ensures run[n].committing ==> run[n].outstanding == 0 && run[n].ops == []
    ensures forall id :: HasOp(run[n].ops, id) ==> !run[n].committing && 1 <= run[n].outstanding
    ensures LogList(L, run[n].lh)
  {
    RunInv(L, run, n);
  }
}
