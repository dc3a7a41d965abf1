/** Whole runs of the pager: every answer is explained by a history of the specification's machine. */
module PagedRuns {
  import opened VmTypes
  import opened PageTables
  import opened Ownership
  import opened PagedMemory
  import opened FlatMemory
  import opened PagingSpec
  import opened PagingTheorems
  import opened FlatRuns
  import opened Abstraction
  import opened PagerFacts
  import F = FifoOrder
  import L = LruOrder
  import V = PolicyView
  import Tlb
  import Pager
  import Replacement

  /** The pages that growing adds to the heap of the running process are neither in RAM nor in swap. */
  ghost predicate GrowsFresh(s: Machine, op: Op) {
    op.Grow? ==> forall v :: op.first <= v < op.first + op.n ==> PageId(s.runner, v) !in s.paged.resident + s.paged.swapped
  }

  lemma FreshIsUntouched(m: Mem, pid: int, first: nat, n: nat)
    requires Ok(m) && pid in m.tables && InHeap(first, n)
    requires forall v :: first <= v < first + n ==> PageId(pid, v) !in Abstract(m).resident + Abstract(m).swapped
    ensures Untouched(m.tables[pid], first, n)
  {
    forall v | 0 <= v < |m.tables[pid]| && first <= v < first + n
      ensures !m.tables[pid][v].present && !m.tables[pid][v].inSwap
    {
      assert PteOf(m.tables, PageId(pid, v)) == m.tables[pid][v];
    }
  }

  /** The policy is the same, and if it is FIFO pages have come and gone in turn. */
  ghost predicate InTurns(p: Pager.Pager, s: Machine, es: seq<Event>, v: V.View)
    reads p, p.frames, p.tlb, p.policy
  {
    && V.ViewOk(v) && V.ViewOk(p.Snap()) && p.policy.kind == v.kind
    && F.Turns(v.kind == Replacement.Fifo, s, es, V.Line(v), V.Line(p.Snap()))
  }

  /** The machine is where the track leads, and under LRU every victim was used longest ago. */
  ghost predicate Fairly(p: Pager.Pager, t: L.Track, s: Machine, es: seq<Event>, ns: seq<L.Note>, tick: nat)
    reads p, p.frames, p.tlb, p.policy
  {
    |ns| == |es| && L.AllFair(t, s, es, ns) && L.Fits(p.Snap(), L.TrackAfter(t, s, es, ns)) && L.Timed(ns, tick)
  }

  lemma NoEvent(v: V.View, t: L.Track, s: Machine, tick: nat)
    requires L.Fits(v, t)
    ensures L.AllFair(t, s, [], []) && L.TrackAfter(t, s, [], []) == t && L.Timed([], tick)
    ensures V.ViewOk(v) && F.Turns(v.kind == Replacement.Fifo, s, [], V.Line(v), V.Line(v))
  {
    F.TurnsNone(v.kind == Replacement.Fifo, s, V.Line(v));
  }

  lemma OneEvent(v: V.View, t: L.Track, s: Machine, e: Event, n: L.Note, tick: nat)
    requires L.Fits(v, L.Followed(t, s, e, n)) && L.Fair(t, s, e, n) && !n.Walk?
    ensures L.AllFair(t, s, [e], [n]) && L.Fits(v, L.TrackAfter(t, s, [e], [n])) && L.Timed([n], tick)
  {
    hide L.Fits, L.Followed, L.Fair, After;
    L.TrackMore(t, s, [], [], e, n);
    Nothing(s);
    assert [] + [e] == [e] && [] + [n] == [n];
  }

  lemma NoneCached(es: seq<Tlb.Entry>)
    requires forall i :: 0 <= i < |es| ==> !es[i].valid
    ensures Tlb.Cached(es) == {}
  {
  }

  /** The pages in RAM are the owners of the frames. */
  lemma OwnersResident(m: Mem, g: PageId)
    requires Ok(m)
    ensures g in Abstract(m).resident <==> exists f :: 0 <= f < |m.frameOwner| && m.frameOwner[f] == Some(g)
  {
    if g in Abstract(m).resident {
      assert m.frameOwner[PteOf(m.tables, g).frame] == Some(g);
    }
  }

  /** Creating or destroying a process, as one event at most. */
  method ChangeProcess(p: Pager.Pager, op: Op, tick: nat, ghost s: Machine, ghost t: L.Track)
    returns (out: Out, ghost es: seq<Event>, ghost ns: seq<L.Note>)
    requires p.Shows(s) && L.Fits(p.Snap(), t) && (op.Create? || op.Destroy?)
    modifies p, p.frames, p.swap, p.tlb, p.policy
    ensures Possible(s, es) && p.Shows(After(s, es)) && Explains(s, op, out, es)
    ensures Fairly(p, t, s, es, ns, tick)
    ensures op.Create? ==> InTurns(p, s, es, old(p.Snap()))
  {
    hide Ok, Abstract, FlatOk, TlbOk, Lists, After, Possible, Destroyed, Created, F.Turns, V.ViewOk, L.Fits, L.Followed,
      L.Fair, L.AllFair, L.TrackAfter, Tlb.Cached, V.Line;
    es, ns, out := [], [], Done;
    ghost var v := p.Snap();
    Nothing(s);
    NoEvent(v, t, s, tick);
    Showing(p.State(), PageId(0, 0));
    if op.Create? {
      if op.pid in p.tables || op.pid == p.running {
        out := Failed;
      } else {
        p.CreateProcess(op.pid);
        es, ns := [Creates(op.pid)], [L.Quiet];
        JustOne(s, es[0]);
        p.SnapOk();
        L.StillFits(v, p.Snap(), t, s, es[0]);
        OneEvent(p.Snap(), t, s, es[0], L.Quiet, tick);
        F.TurnsStill(v.kind == Replacement.Fifo, s, es[0], V.Line(v));
        SameLine(v, p.Snap());
      }
    } else if op.pid in p.tables {
      p.DestroyProcess(op.pid);
      es, ns := [Destroys(op.pid)], [L.Quiet];
      JustOne(s, es[0]);
      p.SnapOk();
      L.DestroyFits(v, p.Snap(), t, s, op.pid);
      OneEvent(p.Snap(), t, s, es[0], L.Quiet, tick);
    }
  }

  lemma SameLine(v: V.View, v': V.View)
    requires V.ViewOk(v) && V.ViewOk(v') && v'.pages == v.pages && v'.owner == v.owner
    ensures V.Line(v') == V.Line(v)
  {
  }

  /** Another policy. */
  method ChangePolicy(p: Pager.Pager, kind: Replacement.Kind, tick: nat, ghost s: Machine, ghost t: L.Track)
    returns (ghost es: seq<Event>, ghost ns: seq<L.Note>)
    requires p.Shows(s) && L.Fits(p.Snap(), t)
    modifies p.policy
    ensures es == [Relists] && ns == [L.Policy(kind == Replacement.Lru)]
    ensures Possible(s, es) && p.Shows(After(s, es)) && Fairly(p, t, s, es, ns, tick)
  {
    hide Ok, Abstract, FlatOk, TlbOk, After, Possible, V.ViewOk, L.Fits, L.Followed, L.Fair, L.AllFair, L.TrackAfter, Tlb.Cached;
    ghost var v := p.Snap();
    p.SetPolicy(kind);
    es, ns := [Relists], [L.Policy(kind == Replacement.Lru)];
    JustOne(s, es[0]);
    p.SnapOk();
    forall g
      ensures g in s.paged.resident <==> exists f :: 0 <= f < |v.owner| && v.owner[f] == Some(g)
    {
      OwnersResident(p.State(), g);
    }
    L.PolicyFits(v, p.Snap(), t, s);
    OneEvent(p.Snap(), t, s, es[0], ns[0], tick);
  }

  /** A change of the runner or the heap. */
  method ChangeSetting(p: Pager.Pager, op: Op, tick: nat, ghost s: Machine, ghost t: L.Track)
    returns (out: Out, ghost es: seq<Event>, ghost ns: seq<L.Note>)
    requires p.Shows(s) && L.Fits(p.Snap(), t) && (op.Switch? || op.Grow?) && GrowsFresh(s, op)
    modifies p, p.frames, p.swap, p.tlb, p.policy
    ensures Possible(s, es) && p.Shows(After(s, es)) && Explains(s, op, out, es)
    ensures Fairly(p, t, s, es, ns, tick) && InTurns(p, s, es, old(p.Snap()))
  {
    hide Ok, Abstract, FlatOk, TlbOk, Lists, After, Possible, Untouched, Grown, F.Turns, V.ViewOk, L.Fits, L.Followed,
      L.Fair, L.AllFair, L.TrackAfter, Tlb.Cached, V.Line;
    es, ns, out := [], [], Done;
    ghost var v := p.Snap();
    Nothing(s);
    NoEvent(v, t, s, tick);
    Showing(p.State(), PageId(0, 0));
    match op {
      case Switch(pid) =>
        p.Switch(pid);
        es, ns := [Switches(pid)], [L.Quiet];
        JustOne(s, es[0]);
        p.SnapOk();
        NoneCached(p.tlb.entries);
        L.StillFits(v, p.Snap(), t, s, es[0]);
        OneEvent(p.Snap(), t, s, es[0], L.Quiet, tick);
        F.TurnsStill(v.kind == Replacement.Fifo, s, es[0], V.Line(v));
        SameLine(v, p.Snap());
      case Grow(first, n) =>
        if p.running in p.tables && InHeap(first, n) {
          FreshIsUntouched(p.State(), p.running, first, n);
          p.GrowHeap(p.running, first, n);
          assert p.State() == old(p.State()) && p.Snap() == v;
        } else {
          out := Failed;
        }
    }
  }

  lemma GoesFairly(t: L.Track, s: Machine, es: seq<Event>, ns: seq<L.Note>, v: V.View, v': V.View, tick: nat)
    requires L.Goes(t, s, es, ns, v, v', tick)
    ensures |ns| == |es| && L.AllFair(t, s, es, ns) && L.Fits(v', L.TrackAfter(t, s, es, ns)) && L.Timed(ns, tick)
    ensures V.ViewOk(v) && V.ViewOk(v') && v'.kind == v.kind && F.Turns(v.kind == Replacement.Fifo, s, es, V.Line(v), V.Line(v'))
  {
  }

  /** One operation on the machine, as a history of the specification's. */
  method Step(p: Pager.Pager, op: Op, tick: nat, ghost s: Machine, ghost t: L.Track)
    returns (out: Out, ghost es: seq<Event>, ghost ns: seq<L.Note>)
    requires p.Shows(s) && L.Fits(p.Snap(), t) && GrowsFresh(s, op)
    modifies p, p.frames, p.swap, p.tlb, p.policy
    ensures Possible(s, es) && p.Shows(After(s, es)) && Explains(s, op, out, es)
    ensures Fairly(p, t, s, es, ns, tick) && (op.SetPolicy? ==> ns == [L.Policy(op.kind == Replacement.Lru)])
    ensures !op.Destroy? && !op.SetPolicy? ==> InTurns(p, s, es, old(p.Snap()))
  {
    hide Ok, Abstract, FlatOk, TlbOk, Lists, After, Possible, Reading, Writing, F.Turns, V.ViewOk, L.Fits, L.AllFair, L.TrackAfter,
      L.Goes, V.Line, Tlb.Cached;
    match op {
      case Read(addr, len) =>
        var dest;
        dest, es, ns := p.Read(p.running, addr, len, tick, s, t);
        out := if dest.None? then Failed else Bytes(dest.value);
        GoesFairly(t, s, es, ns, old(p.Snap()), p.Snap(), tick);
      case Write(addr, src) =>
        var ok;
        ok, es, ns := p.Write(p.running, addr, src, tick, s, t);
        out := if ok then Done else Failed;
        GoesFairly(t, s, es, ns, old(p.Snap()), p.Snap(), tick);
      case Create(_) =>
        out, es, ns := ChangeProcess(p, op, tick, s, t);
      case Destroy(_) =>
        out, es, ns := ChangeProcess(p, op, tick, s, t);
      case SetPolicy(kind) =>
        es, ns := ChangePolicy(p, kind, tick, s, t);
        out := Done;
      case _ =>
        out, es, ns := ChangeSetting(p, op, tick, s, t);
    }
  }

  /** Heaps grow into pages that were not touched before. */
  ghost predicate GrowsAhead(ops: seq<Op>) {
    forall i :: 0 <= i < |ops| && ops[i].Grow? ==>
                  forall v :: ops[i].first <= v < ops[i].first + ops[i].n ==> PageId(Runner(ops[..i]), v) !in TouchedBy(ops[..i])
  }

  lemma AheadIsFresh(s: Machine, ops: seq<Op>, i: nat)
    requires GrowsAhead(ops) && i < |ops| && Within(s, TouchedBy(ops[..i])) && s.runner == Runner(ops[..i])
    ensures GrowsFresh(s, ops[i])
  {
  }

  lemma PagesInUse(s: Machine, ops: seq<Op>, i: nat, out: Out, es: seq<Event>)
    requires i < |ops| && Within(s, TouchedBy(ops[..i])) && s.runner == Runner(ops[..i])
    requires Possible(s, es) && Explains(s, ops[i], out, es)
    ensures Within(After(s, es), TouchedBy(ops[..i + 1])) && After(s, es).runner == Runner(ops[..i + 1])
  {
    hide Explains, Possible, After, OpPages;
    TouchedMore(ops, i);
    NextRunner(s, ops[i], out, es);
    assert ops[..i + 1][..i] == ops[..i];
    forall k | 0 <= k < |es|
      ensures Uses(es[k], TouchedBy(ops[..i + 1]))
    {
      UsesPages(s, ops[i], out, es, k);
    }
    EventsWithin(s, es, TouchedBy(ops[..i + 1]));
  }

  /** No process is destroyed, and the policy stays FIFO. */
  predicate Lasting(ops: seq<Op>) {
    forall op :: op in ops ==> !op.Destroy? && !op.SetPolicy?
  }

  /** Any sequence of operations on a machine of any size. The answers have a history: each byte read is the one last
      stored there, unless its page was brought back from swap by a read and evicted before being written again. With a
      frame for every page touched the answers are those of plain memory; with more frames and slots than pages touched
      nothing fails for want of memory. As long as no process is destroyed and the policy stays FIFO, pages are given up in
      the order in which they came in; under LRU no page is given up while another one in RAM was last walked to before it. */
  method Run(ops: seq<Op>, ticks: seq<nat>, numFrames: nat, numSlots: nat, tlbSize: nat)
    returns (outs: seq<Out>, ghost hist: seq<Event>, ghost cuts: seq<nat>, ghost ns: seq<L.Note>)
    requires 0 < numFrames <= 256 && 0 < tlbSize && |ticks| == |ops| && GrowsAhead(ops)
    ensures History(Start(numFrames, numSlots), ops, outs, hist, cuts)
    ensures forall i :: 0 <= i < |ops| ==>
                          AnswerIsLast(Start(numFrames, numSlots), ops[i], outs[i], hist, cuts[i], Runner(ops[..i]))
    ensures NothingForgotten(Start(numFrames, numSlots), hist) ==>
              forall i :: 0 <= i < |ops| ==> AnswerIsStored(ops[i], outs[i], hist, cuts[i], Runner(ops[..i]))
    ensures |TouchedBy(ops)| <= numFrames ==> outs == FlatOuts(ops)
    ensures |TouchedBy(ops)| < numFrames + numSlots ==>
              forall i :: 0 <= i < |ops| ==> (outs[i].Failed? <==> FlatOuts(ops)[i].Failed?)
    ensures Lasting(ops) ==> F.Victims(hist) <= F.Arrivals(Start(numFrames, numSlots), hist)
    ensures |ns| == |hist| && NotesFit(ops, ticks, hist, cuts, ns) && L.AllFair(L.NoTrack(), Start(numFrames, numSlots), hist, ns)
    ensures L.VictimsFair(Start(numFrames, numSlots), hist, ns)
  {
    hide L.AllFair, L.VictimsFair, NotesFit, Possible, History, Lasting, F.Victims, F.Arrivals, F.FirstOut, AnswerIsLast,
      AnswerIsStored, NothingForgotten, FlatOuts, TouchedBy, Runner, GrowsAhead;
    var p;
    p, outs, hist, cuts, ns := RunOn(ops, ticks, numFrames, numSlots, tlbSize);
    Sizes(Start(numFrames, numSlots), ops, outs, hist, cuts);
    L.LeastRecentlyUsed(Start(numFrames, numSlots), hist, ns);
    if Lasting(ops) {
      F.OutAsIn(Start(numFrames, numSlots), hist);
    }
    forall i | 0 <= i < |ops|
      ensures AnswerIsLast(Start(numFrames, numSlots), ops[i], outs[i], hist, cuts[i], Runner(ops[..i]))
    {
      AnswersAreLast(numFrames, numSlots, ops, outs, hist, cuts, i);
    }
    if NothingForgotten(Start(numFrames, numSlots), hist) {
      forall i | 0 <= i < |ops|
        ensures AnswerIsStored(ops[i], outs[i], hist, cuts[i], Runner(ops[..i]))
      {
        AnswerIsPlain(Start(numFrames, numSlots), ops[i], outs[i], hist, cuts[i], Runner(ops[..i]));
      }
    }
    if |TouchedBy(ops)| <= numFrames {
      AmpleRam(numFrames, numSlots, ops, outs, hist, cuts);
    }
    if |TouchedBy(ops)| < numFrames + numSlots {
      AmpleSwap(numFrames, numSlots, ops, outs, hist, cuts);
    }
  }

  lemma Sizes(s: Machine, ops: seq<Op>, outs: seq<Out>, hist: seq<Event>, cuts: seq<nat>)
    requires History(s, ops, outs, hist, cuts)
    ensures |outs| == |ops| && |cuts| == |ops| + 1 && Possible(s, hist)
  {
  }

  /** The run itself; the machine ends in the state that the history ends in. */
  method RunOn(ops: seq<Op>, ticks: seq<nat>, numFrames: nat, numSlots: nat, tlbSize: nat)
    returns (p: Pager.Pager, outs: seq<Out>, ghost hist: seq<Event>, ghost cuts: seq<nat>, ghost ns: seq<L.Note>)
    requires 0 < numFrames <= 256 && 0 < tlbSize && |ticks| == |ops| && GrowsAhead(ops)
    ensures History(Start(numFrames, numSlots), ops, outs, hist, cuts)
    ensures fresh(p) && fresh(p.frames) && fresh(p.swap) && fresh(p.tlb) && fresh(p.policy)
    ensures p.Shows(After(Start(numFrames, numSlots), hist))
    ensures Lasting(ops) ==> F.FirstOut(Start(numFrames, numSlots), hist, [])
    ensures |ns| == |hist| && NotesFit(ops, ticks, hist, cuts, ns) && L.AllFair(L.NoTrack(), Start(numFrames, numSlots), hist, ns)
  {
    hide Ok, Abstract, FlatOk, TlbOk, Lists, After, Possible, Explains, GrowsAhead, TouchedBy, Runner, F.Turns, V.ViewOk, V.Line,
      L.Fits, L.AllFair, L.TrackAfter, Tlb.Cached, NotesFit;
    ghost var s := Start(numFrames, numSlots);
    p := new Pager.Pager(numFrames, numSlots, tlbSize);
    outs, hist, cuts, ns := [], [], [0], [];
    Begins(s, ops);
    p.SnapOk();
    NoneCached(p.tlb.entries);
    NoNotes(p.Snap(), s, ops, ticks);
    var i := 0;
    while i < |ops|
      invariant 0 <= i <= |ops| && History(s, ops[..i], outs, hist, cuts)
      invariant p.Shows(After(s, hist)) && fresh(p) && fresh(p.frames) && fresh(p.swap) && fresh(p.tlb) && fresh(p.policy)
      invariant Within(After(s, hist), TouchedBy(ops[..i])) && After(s, hist).runner == Runner(ops[..i])
      invariant V.ViewOk(p.Snap()) && (Lasting(ops[..i]) ==> p.policy.kind.Fifo? && F.Turns(true, s, hist, [], V.Line(p.Snap())))
      invariant |ns| == |hist| && NotesFit(ops[..i], ticks, hist, cuts, ns) && L.AllFair(L.NoTrack(), s, hist, ns)
      invariant L.Fits(p.Snap(), L.TrackAfter(L.NoTrack(), s, hist, ns))
    {
      assert ops[..i + 1] == ops[..i] + [ops[i]];
      ghost var v, t := p.Snap(), L.TrackAfter(L.NoTrack(), s, hist, ns);
      AheadIsFresh(After(s, hist), ops, i);
      var out;
      ghost var es, ms;
      out, es, ms := Step(p, ops[i], ticks[i], After(s, hist), t);
      PagesInUse(After(s, hist), ops, i, out, es);
      HistoryGrows(s, ops, i, outs, hist, cuts, out, es);
      p.SnapOk();
      if Lasting(ops[..i + 1]) {
        F.TurnsOn(true, s, hist, es, [], V.Line(v), V.Line(p.Snap()));
      }
      L.TrackOn(L.NoTrack(), s, hist, ns, es, ms);
      NotesGrow(ops, i, ticks, hist, cuts, ns, es, ms);
      outs, cuts, hist, ns := outs + [out], cuts + [|hist| + |es|], hist + es, ns + ms;
      i := i + 1;
    }
    assert ops[..i] == ops;
    if Lasting(ops) {
      LastOut(s, hist, V.Line(p.Snap()));
    }
  }

  /** The notes beside the events of each operation: walks at its tick, or the policy it chose. */
  ghost predicate NotesFit(ops: seq<Op>, ticks: seq<nat>, hist: seq<Event>, cuts: seq<nat>, ns: seq<L.Note>) {
    && |ns| == |hist| && |ops| <= |ticks| && |cuts| == |ops| + 1
    && forall i :: 0 <= i < |ops| ==> NotesOf(ops[i], ticks[i], ns, cuts[i], cuts[i + 1])
  }

  ghost predicate NotesOf(op: Op, tick: nat, ns: seq<L.Note>, lo: nat, hi: nat) {
    && lo <= hi <= |ns| && L.Timed(ns[lo..hi], tick)
    && (op.SetPolicy? ==> ns[lo..hi] == [L.Policy(op.kind == Replacement.Lru)])
  }

  lemma NoNotes(v: V.View, s: Machine, ops: seq<Op>, ticks: seq<nat>)
    requires V.ViewOk(v) && v.pages == [] && v.cached == {} && v.kind == Replacement.Fifo
    ensures NotesFit(ops[..0], ticks, [], [0], []) && L.AllFair(L.NoTrack(), s, [], [])
    ensures L.Fits(v, L.TrackAfter(L.NoTrack(), s, [], [])) && V.Line(v) == [] && F.Turns(true, s, [], [], V.Line(v))
  {
    F.TurnsNone(true, s, []);
  }

  lemma NotesGrow(ops: seq<Op>, i: nat, ticks: seq<nat>, hist: seq<Event>, cuts: seq<nat>, ns: seq<L.Note>, es: seq<Event>,
                  ms: seq<L.Note>)
    requires i < |ops| <= |ticks| && NotesFit(ops[..i], ticks, hist, cuts, ns) && |ms| == |es| && cuts[i] == |hist|
    requires L.Timed(ms, ticks[i]) && (ops[i].SetPolicy? ==> ms == [L.Policy(ops[i].kind == Replacement.Lru)])
    ensures NotesFit(ops[..i + 1], ticks, hist + es, cuts + [|hist| + |es|], ns + ms)
  {
    var ops', cuts', ns' := ops[..i + 1], cuts + [|hist| + |es|], ns + ms;
    forall k | 0 <= k < |ops'|
      ensures NotesOf(ops'[k], ticks[k], ns', cuts'[k], cuts'[k + 1])
    {
      if k < i {
        assert NotesOf(ops[..i][k], ticks[k], ns, cuts[k], cuts[k + 1]);
        assert ns'[cuts[k]..cuts[k + 1]] == ns[cuts[k]..cuts[k + 1]];
      } else {
        assert ns'[|ns|..|ns'|] == ms;
      }
    }
  }

  lemma LastOut(s: Machine, es: seq<Event>, line: F.Line)
    requires F.Turns(true, s, es, [], line)
    ensures F.FirstOut(s, es, [])
  {
  }

  lemma Begins(s: Machine, ops: seq<Op>)
    requires exists f, n :: s == Start(f, n)
    ensures History(s, ops[..0], [], [], [0]) && After(s, []) == s
    ensures Within(s, TouchedBy(ops[..0])) && s.runner == Runner(ops[..0])
  {
    assert ops[..0] == [];
  }
}
