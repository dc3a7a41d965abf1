/** Operations on the memory of processes, what a machine with plain memory answers to them, and what it means for a
    history of the paging machine to explain given answers. */
module FlatRuns {
  import opened VmTypes
  import opened PageTables
  import opened Ownership
  import opened FlatMemory
  import opened PagingSpec
  import opened PagingTheorems
  import Replacement

  datatype Op =
    | Create(pid: int)
    | Destroy(pid: int)
    | Switch(pid: int)
    | Read(addr: nat, len: nat)
    | Write(addr: nat, src: seq<bv8>)
    | SetPolicy(kind: Replacement.Kind)
    | Grow(first: nat, n: nat)

  datatype Out = Done | Failed | Bytes(bytes: seq<bv8>)

  function Next(runner: int, op: Op): int {
    if op.Switch? then op.pid else runner
  }

  /** The process that the next access belongs to. */
  function Runner(ops: seq<Op>): int {
    if ops == [] then -1 else Next(Runner(ops[..|ops| - 1]), ops[|ops| - 1])
  }

  // ----- plain memory -----

  /** How many of n bytes from addr on lie in writable segments, before the first that does not. */
  ghost function Writable(addr: nat, n: nat): (k: nat)
    ensures k <= n && (forall x :: addr <= x < addr + k ==> WritableAt(x)) && (k < n ==> !WritableAt(addr + k))
  {
    if n == 0 then 0
    else
      var k := Writable(addr, n - 1);
      if k == n - 1 && WritableAt(addr + k) then n else k
  }

  ghost predicate Valid(m: Flat, runner: int, addr: nat, len: nat) {
    runner in m && addr + len <= SPACE
  }

  /** One operation on plain memory. A write stores up to the first byte that is not writable. */
  ghost function FlatNext(m: Flat, runner: int, op: Op): (r: (Flat, Out))
    requires FlatOk(m)
    ensures FlatOk(r.0)
  {
    match op
    case Create(pid) =>
      if pid in m || pid == runner then (m, Failed) else (m[pid := ZeroSpace()], Done)
    case Destroy(pid) => (m - {pid}, Done)
    case Read(addr, len) =>
      if Valid(m, runner, addr, len) then (m, Bytes(ReadAll(m, runner, addr, len))) else (m, Failed)
    case Write(addr, src) =>
      if !Valid(m, runner, addr, |src|) then (m, Failed)
      else
        var k := Writable(addr, |src|);
        (WriteAll(m, runner, addr, src[..k]), if k == |src| then Done else Failed)
    case Grow(first, n) => (m, if runner in m && InHeap(first, n) then Done else Failed)
    case _ => (m, Done)
  }

  ghost function FlatAfter(ops: seq<Op>): (m: Flat)
    ensures FlatOk(m)
  {
    if ops == [] then map[]
    else
      var k := |ops| - 1;
      FlatNext(FlatAfter(ops[..k]), Runner(ops[..k]), ops[k]).0
  }

  /** The answers of plain memory. */
  ghost function FlatOuts(ops: seq<Op>): (outs: seq<Out>)
    ensures |outs| == |ops|
  {
    if ops == [] then []
    else
      var k := |ops| - 1;
      FlatOuts(ops[..k]) + [FlatNext(FlatAfter(ops[..k]), Runner(ops[..k]), ops[k]).1]
  }

  /** Whether an operation fails depends on who exists, not on what memory holds. */
  lemma FailsAlike(m: Flat, n: Flat, runner: int, op: Op)
    requires FlatOk(m) && FlatOk(n) && m.Keys == n.Keys
    ensures FlatNext(m, runner, op).1.Failed? <==> FlatNext(n, runner, op).1.Failed?
    ensures FlatNext(m, runner, op).0.Keys == FlatNext(n, runner, op).0.Keys
  {
    hide FlatOk, ReadAll, WriteAll;
  }

  // ----- pages -----

  ghost function OpPages(runner: int, op: Op): set<PageId> {
    match op
    case Read(addr, len) => if addr + len <= SPACE then Pages(runner, addr, len) else {}
    case Write(addr, src) => if addr + |src| <= SPACE then Pages(runner, addr, |src|) else {}
    case _ => {}
  }

  /** The pages that the operations read or write. */
  ghost function TouchedBy(ops: seq<Op>): set<PageId> {
    if ops == [] then {} else TouchedBy(ops[..|ops| - 1]) + OpPages(Runner(ops[..|ops| - 1]), ops[|ops| - 1])
  }

  ghost function Pages(pid: int, addr: nat, n: nat): (s: set<PageId>)
    ensures forall x :: addr <= x < addr + n && x < SPACE ==> PageAt(pid, x) in s
  {
    set v | 0 <= v < NUM_PAGES && addr < (v + 1) * PAGE_SIZE && v * PAGE_SIZE < addr + n :: PageId(pid, v)
  }

  lemma {:induction false} TouchedMore(ops: seq<Op>, i: nat)
    requires i <= |ops|
    ensures TouchedBy(ops[..i]) <= TouchedBy(ops)
    ensures i < |ops| ==> TouchedBy(ops[..i + 1]) == TouchedBy(ops[..i]) + OpPages(Runner(ops[..i]), ops[i])
  {
    if i < |ops| {
      assert ops[..i + 1][..i] == ops[..i];
      var k := |ops| - 1;
      if i < k {
        TouchedMore(ops[..k], i);
        assert ops[..k][..i] == ops[..i];
      }
    } else {
      assert ops[..i] == ops;
    }
  }

  // ----- explanations -----

  /** The answer to an operation, and the events it consists of. */
  ghost predicate Explains(s: Machine, op: Op, out: Out, es: seq<Event>) {
    match op
    case Create(pid) =>
      if pid in s.paged.mem || pid == s.runner then out == Failed && es == [] else out == Done && es == [Creates(pid)]
    case Destroy(pid) => out == Done && es == if pid in s.paged.mem then [Destroys(pid)] else []
    case Switch(pid) => out == Done && es == [Switches(pid)]
    case Read(addr, len) =>
      !out.Done? && Reading(s, s.runner, addr, len, if out.Bytes? then Some(out.bytes) else None, es)
    case Write(addr, src) => !out.Bytes? && Writing(s, s.runner, addr, src, out.Done?, es)
    case SetPolicy(_) => out == Done && es == [Relists]
    case Grow(first, n) =>
      es == [] && out == if s.runner in s.paged.mem && InHeap(first, n) then Done else Failed
  }

  /** hist is a possible history in which operation i has the answer outs[i] and the events from cuts[i] on. */
  ghost predicate History(s: Machine, ops: seq<Op>, outs: seq<Out>, hist: seq<Event>, cuts: seq<nat>) {
    && |outs| == |ops| && |cuts| == |ops| + 1 && cuts[0] == 0 && cuts[|ops|] == |hist|
    && (forall i :: 0 <= i < |ops| ==> cuts[i] <= cuts[i + 1])
    && (forall i :: 0 <= i <= |ops| ==> cuts[i] <= |hist|)
    && Possible(s, hist)
    && forall i :: 0 <= i < |ops| ==> Part(s, ops[i], outs[i], hist, cuts[i], cuts[i + 1])
  }

  ghost predicate Part(s: Machine, op: Op, out: Out, hist: seq<Event>, lo: nat, hi: nat) {
    lo <= hi <= |hist| && Explains(After(s, hist[..lo]), op, out, hist[lo..hi])
  }

  lemma HistoryGrows(s: Machine, ops: seq<Op>, i: nat, outs: seq<Out>, hist: seq<Event>, cuts: seq<nat>, out: Out, es: seq<Event>)
    requires i < |ops| && History(s, ops[..i], outs, hist, cuts)
    requires Possible(After(s, hist), es) && Explains(After(s, hist), ops[i], out, es)
    ensures History(s, ops[..i + 1], outs + [out], hist + es, cuts + [|hist| + |es|])
    ensures After(s, hist + es) == After(After(s, hist), es)
  {
    hide Explains, Possible;
    GoOn(s, hist, es);
    var ops', outs', hist', cuts' := ops[..i + 1], outs + [out], hist + es, cuts + [|hist| + |es|];
    forall k | 0 <= k < |ops'|
      ensures Part(s, ops'[k], outs'[k], hist', cuts'[k], cuts'[k + 1])
    {
      if k < i {
        assert Part(s, ops[..i][k], outs[k], hist, cuts[k], cuts[k + 1]);
        assert hist'[..cuts[k]] == hist[..cuts[k]] && hist'[cuts[k]..cuts[k + 1]] == hist[cuts[k]..cuts[k + 1]];
      } else {
        assert hist'[..|hist|] == hist && hist'[|hist|..] == es;
        assert hist'[|hist|..|hist| + |es|] == es;
      }
    }
  }

  // ----- what histories imply for the answers -----

  /** Who runs, after each operation. */
  lemma {:induction false} ExplainedRunner(s: Machine, es: seq<Event>)
    requires forall i :: 0 <= i < |es| ==> !es[i].Switches?
    ensures After(s, es).runner == s.runner
  {
    if es != [] {
      ExplainedRunner(s, es[..|es| - 1]);
    }
  }

  lemma NextRunner(s: Machine, op: Op, out: Out, es: seq<Event>)
    requires Explains(s, op, out, es)
    ensures After(s, es).runner == Next(s.runner, op)
  {
    if op.Switch? {
      JustOne(s, Switches(op.pid));
    } else {
      hide After;
      if op.Read? && es != [] && out.Failed? {
        assert es == es[..|es| - 1] + [es[|es| - 1]];
      }
      if op.Write? && es != [] && out.Failed? {
        assert es == es[..|es| - 1] + [es[|es| - 1]];
      }
      ExplainedRunner(s, es);
    }
  }

  lemma UsesPages(s: Machine, op: Op, out: Out, es: seq<Event>, k: nat)
    requires Explains(s, op, out, es) && k < |es|
    ensures Uses(es[k], OpPages(s.runner, op))
  {
    hide Pages;
    if (op.Read? || op.Write?) && out.Failed? && k < |es| - 1 {
      assert es[k] == es[..|es| - 1][k];
    }
  }

  lemma {:induction false} EventsWithin(s: Machine, es: seq<Event>, T: set<PageId>)
    requires Within(s, T) && Possible(s, es) && forall k :: 0 <= k < |es| ==> Uses(es[k], T)
    ensures Within(After(s, es), T)
  {
    hide Within, Enabled, Uses, Apply;
    if es != [] {
      var n := |es| - 1;
      forall k | 0 <= k < n
        ensures Uses(es[..n][k], T)
      {
        assert es[..n][k] == es[k];
      }
      EventsWithin(s, es[..n], T);
      StaysWithin(After(s, es[..n]), es[n], T);
    }
  }

  lemma {:induction false} RunnerAt(frames: nat, slots: nat, ops: seq<Op>, outs: seq<Out>, hist: seq<Event>, cuts: seq<nat>, i: nat)
    requires History(Start(frames, slots), ops, outs, hist, cuts) && i <= |ops|
    ensures cuts[i] <= |hist| && After(Start(frames, slots), hist[..cuts[i]]).runner == Runner(ops[..i])
  {
    hide Explains, Possible, After;
    var s := Start(frames, slots);
    if i == 0 {
      assert hist[..0] == [];
      Nothing(s);
    } else {
      var k := i - 1;
      RunnerAt(frames, slots, ops, outs, hist, cuts, k);
      assert Part(s, ops[k], outs[k], hist, cuts[k], cuts[i]);
      PartPossible(s, hist, cuts[k], cuts[i]);
      NextRunner(After(s, hist[..cuts[k]]), ops[k], outs[k], hist[cuts[k]..cuts[i]]);
      assert ops[..i][..k] == ops[..k];
    }
  }

  /** Every byte read is the one last stored there by that process, or 0 once its page was forgotten. */
  ghost predicate AnswerIsLast(s: Machine, op: Op, out: Out, hist: seq<Event>, lo: nat, pid: int) {
    op.Read? && out.Bytes? ==>
      && |out.bytes| == op.len && lo + op.len <= |hist|
      && forall j :: 0 <= j < op.len ==> out.bytes[j] == Last(s, hist[..lo + j], pid, op.addr + j)
  }

  lemma AnswersAreLast(frames: nat, slots: nat, ops: seq<Op>, outs: seq<Out>, hist: seq<Event>, cuts: seq<nat>, i: nat)
    requires History(Start(frames, slots), ops, outs, hist, cuts) && i < |ops|
    ensures AnswerIsLast(Start(frames, slots), ops[i], outs[i], hist, cuts[i], Runner(ops[..i]))
  {
    hide Possible, After, Last, Runner;
    var s := Start(frames, slots);
    RunnerAt(frames, slots, ops, outs, hist, cuts, i);
    assert Part(s, ops[i], outs[i], hist, cuts[i], cuts[i + 1]);
    if ops[i].Read? && outs[i].Bytes? {
      var es := hist[cuts[i]..cuts[i + 1]];
      forall j | 0 <= j < ops[i].len
        ensures outs[i].bytes[j] == Last(s, hist[..cuts[i] + j], Runner(ops[..i]), ops[i].addr + j)
      {
        assert es[j] == hist[cuts[i] + j];
        LoadsReturnLast(frames, slots, hist, cuts[i] + j);
      }
    }
  }

  /** Every byte read is the one last stored there by that process. */
  ghost predicate AnswerIsStored(op: Op, out: Out, hist: seq<Event>, lo: nat, pid: int) {
    op.Read? && out.Bytes? ==>
      && |out.bytes| == op.len && lo + op.len <= |hist|
      && forall j :: 0 <= j < op.len ==> out.bytes[j] == LastStored(hist[..lo + j], pid, op.addr + j)
  }

  lemma AnswerIsPlain(s: Machine, op: Op, out: Out, hist: seq<Event>, lo: nat, pid: int)
    requires AnswerIsLast(s, op, out, hist, lo, pid) && NothingForgotten(s, hist)
    ensures AnswerIsStored(op, out, hist, lo, pid)
  {
    hide Last, LastStored, Forgets;
    if op.Read? && out.Bytes? {
      forall j | 0 <= j < op.len
        ensures out.bytes[j] == LastStored(hist[..lo + j], pid, op.addr + j)
      {
        var es := hist[..lo + j];
        forall k, g | 0 <= k < |es|
          ensures !Forgets(After(s, es[..k]), es[k], g)
        {
          assert es[..k] == hist[..k] && es[k] == hist[k];
          assert !Forgets(After(s, hist[..k]), hist[k], g);
        }
        NothingLost(s, es, pid, op.addr + j);
      }
    }
  }

  // ----- enough memory -----

  /** All pages of T fit into RAM, or leave some room in RAM and swap together. */
  ghost predicate Roomy(s: Machine, T: set<PageId>) {
    |T| <= s.paged.frames || |T| < s.paged.frames + s.paged.slots
  }

  ghost predicate Calm(s: Machine, T: set<PageId>) {
    Within(s, T) && FlatOk(s.paged.mem) && s.listed && Roomy(s, T)
  }

  lemma ReadRoom(s: Machine, addr: nat, len: nat, out: Out, es: seq<Event>, T: set<PageId>)
    requires Calm(s, T) && Possible(s, es) && Valid(s.paged.mem, s.runner, addr, len) && InPages(s.runner, addr, len, T)
    requires Explains(s, Read(addr, len), out, es)
    ensures Calm(After(s, es), T) && out.Bytes? && After(s, es).paged.mem.Keys == s.paged.mem.Keys
    ensures |T| <= s.paged.frames ==>
              After(s, es).paged.mem == s.paged.mem && out == Bytes(ReadAll(s.paged.mem, s.runner, addr, len))
  {
    hide FlatOk, Within, Peek, Possible, Apply, Enabled;
    if out.Failed? {
      var n := |es| - 1;
      Prefix(s, es, n);
      LoadsSteady(s, s.runner, addr, es[..n], T);
      RefusedFor(After(s, es[..n]), es[n], T);
    } else {
      LoadsSteady(s, s.runner, addr, es, T);
      if |T| <= s.paged.frames {
        forall i | 0 <= i < len
          ensures out.bytes[i] == ReadAll(s.paged.mem, s.runner, addr, len)[i]
        {
          assert ReadsOf(s.paged.mem, es[i]);
        }
      }
    }
  }

  lemma WriteRoom(s: Machine, addr: nat, src: seq<bv8>, out: Out, es: seq<Event>, T: set<PageId>)
    requires Calm(s, T) && Possible(s, es) && Valid(s.paged.mem, s.runner, addr, |src|) && InPages(s.runner, addr, |src|, T)
    requires Explains(s, Write(addr, src), out, es)
    ensures Calm(After(s, es), T) && After(s, es).paged.mem.Keys == s.paged.mem.Keys
    ensures out == if Writable(addr, |src|) == |src| then Done else Failed
    ensures |T| <= s.paged.frames ==>
              After(s, es).paged.mem == WriteAll(s.paged.mem, s.runner, addr, src[..Writable(addr, |src|)])
  {
    hide FlatOk, Within, Peek, Possible, Apply, Enabled, WriteAll, WritableAt;
    if out.Failed? {
      var n := |es| - 1;
      Prefix(s, es, n);
      assert es == es[..n] + [es[n]];
      OneMore(s, es[..n], es[n]);
      StoresSteady(s, s.runner, addr, src[..n], es[..n], T);
      RefusedFor(After(s, es[..n]), es[n], T);
      assert Writable(addr, |src|) == n;
    } else {
      StoresSteady(s, s.runner, addr, src, es, T);
      assert src[..|src|] == src;
    }
  }

  lemma OpRoom(s: Machine, op: Op, out: Out, es: seq<Event>, T: set<PageId>)
    requires Calm(s, T) && Possible(s, es) && Explains(s, op, out, es) && OpPages(s.runner, op) <= T
    ensures Calm(After(s, es), T)
    ensures var r := FlatNext(s.paged.mem, s.runner, op);
            && After(s, es).paged.mem.Keys == r.0.Keys && (out.Failed? <==> r.1.Failed?)
            && (|T| <= s.paged.frames ==> (After(s, es).paged.mem, out) == r)
  {
    hide FlatOk, Within, Peek, ReadAll, WriteAll, WritableAt, Pages;
    Nothing(s);
    if op.Read? {
      if Valid(s.paged.mem, s.runner, op.addr, op.len) {
        ReadRoom(s, op.addr, op.len, out, es, T);
      }
    } else if op.Write? {
      if Valid(s.paged.mem, s.runner, op.addr, |op.src|) {
        WriteRoom(s, op.addr, op.src, out, es, T);
      }
    } else if es != [] {
      JustOne(s, es[0]);
      ProcessStep(s, es[0], T);
    } else if op.Destroy? {
      assert s.paged.mem - {op.pid} == s.paged.mem;
    }
  }

  lemma ProcessStep(s: Machine, e: Event, T: set<PageId>)
    requires Calm(s, T) && Enabled(s, e) && (e.Creates? || e.Destroys? || e.Switches? || e.Relists?)
    ensures Calm(Apply(s, e), T)
  {
    hide Within, FlatOk;
    StaysWithin(s, e, T);
    PeekApply(s, e, 0, 0);
  }

  /** The machine has run as plain memory has; byte by byte if all pages fit into RAM. */
  ghost predicate RanAs(t: Machine, ops: seq<Op>, T: set<PageId>) {
    && Calm(t, T) && t.runner == Runner(ops) && t.paged.mem.Keys == FlatAfter(ops).Keys
    && (|T| <= t.paged.frames ==> t.paged.mem == FlatAfter(ops))
  }

  ghost function LastOut(ops: seq<Op>, op: Op): Out {
    FlatNext(FlatAfter(ops), Runner(ops), op).1
  }

  lemma RanOn(t: Machine, ops: seq<Op>, op: Op, out: Out, es: seq<Event>, T: set<PageId>)
    requires RanAs(t, ops, T) && Possible(t, es) && Explains(t, op, out, es) && OpPages(Runner(ops), op) <= T
    ensures RanAs(After(t, es), ops + [op], T)
    ensures (out.Failed? <==> LastOut(ops, op).Failed?) && (|T| <= t.paged.frames ==> out == LastOut(ops, op))
    ensures FlatOuts(ops + [op]) == FlatOuts(ops) + [LastOut(ops, op)]
  {
    hide Calm, FlatNext, Explains, Possible, OpPages, After;
    assert (ops + [op])[..|ops|] == ops;
    CalmOk(t, T);
    OpRoom(t, op, out, es, T);
    NextRunner(t, op, out, es);
    FailsAlike(t.paged.mem, FlatAfter(ops), t.runner, op);
  }

  lemma CalmOk(t: Machine, T: set<PageId>)
    requires Calm(t, T)
    ensures FlatOk(t.paged.mem)
  {
  }

  /** After i operations on a machine with room for all pages touched. */
  lemma {:induction false} RoomUpTo(frames: nat, slots: nat, ops: seq<Op>, outs: seq<Out>, hist: seq<Event>, cuts: seq<nat>, i: nat)
    requires History(Start(frames, slots), ops, outs, hist, cuts) && i <= |ops|
    requires |TouchedBy(ops)| <= frames || |TouchedBy(ops)| < frames + slots
    ensures cuts[i] <= |hist| && RanAs(After(Start(frames, slots), hist[..cuts[i]]), ops[..i], TouchedBy(ops))
    ensures forall j :: 0 <= j < i ==> (outs[j].Failed? <==> FlatOuts(ops[..i])[j].Failed?)
    ensures |TouchedBy(ops)| <= frames ==> outs[..i] == FlatOuts(ops[..i])
  {
    hide RanAs, FlatOuts, Explains, Possible, OpPages, After;
    var s := Start(frames, slots);
    var T := TouchedBy(ops);
    if i == 0 {
      BeginsCalm(frames, slots, T);
      assert hist[..0] == [] && ops[..0] == [];
      Nothing(s);
    } else {
      var k := i - 1;
      RoomUpTo(frames, slots, ops, outs, hist, cuts, k);
      var t, es := After(s, hist[..cuts[k]]), hist[cuts[k]..cuts[i]];
      assert Part(s, ops[k], outs[k], hist, cuts[k], cuts[i]);
      PartPossible(s, hist, cuts[k], cuts[i]);
      TouchedMore(ops, k);
      TouchedMore(ops, i);
      RanOn(t, ops[..k], ops[k], outs[k], es, T);
      assert ops[..i] == ops[..k] + [ops[k]];
      assert outs[..i] == outs[..k] + [outs[k]];
    }
  }

  lemma BeginsCalm(frames: nat, slots: nat, T: set<PageId>)
    requires |T| <= frames || |T| < frames + slots
    ensures RanAs(Start(frames, slots), [], T) && FlatOuts([]) == []
  {
    EmptyOk();
  }

  lemma PartPossible(s: Machine, hist: seq<Event>, lo: nat, hi: nat)
    requires Possible(s, hist) && lo <= hi <= |hist|
    ensures Possible(After(s, hist[..lo]), hist[lo..hi])
    ensures After(s, hist[..hi]) == After(After(s, hist[..lo]), hist[lo..hi])
  {
    hide Possible, After;
    assert hist == hist[..hi] + hist[hi..] && hist[..hi] == hist[..lo] + hist[lo..hi];
    GoOn(s, hist[..hi], hist[hi..]);
    GoOn(s, hist[..lo], hist[lo..hi]);
  }

  /** With a frame for every page that is touched, the machine answers exactly as plain memory does. */
  lemma AmpleRam(frames: nat, slots: nat, ops: seq<Op>, outs: seq<Out>, hist: seq<Event>, cuts: seq<nat>)
    requires History(Start(frames, slots), ops, outs, hist, cuts) && |TouchedBy(ops)| <= frames
    ensures outs == FlatOuts(ops)
  {
    RoomUpTo(frames, slots, ops, outs, hist, cuts, |ops|);
    assert ops[..|ops|] == ops && outs[..|ops|] == outs;
  }

  /** With more frames and slots than pages that are touched, nothing fails for want of memory. */
  lemma AmpleSwap(frames: nat, slots: nat, ops: seq<Op>, outs: seq<Out>, hist: seq<Event>, cuts: seq<nat>)
    requires History(Start(frames, slots), ops, outs, hist, cuts) && |TouchedBy(ops)| < frames + slots
    ensures forall i :: 0 <= i < |ops| ==> (outs[i].Failed? <==> FlatOuts(ops)[i].Failed?)
  {
    RoomUpTo(frames, slots, ops, outs, hist, cuts, |ops|);
    assert ops[..|ops|] == ops;
  }
}
