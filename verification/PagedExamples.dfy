/** Runs in which the pager falls short of plain memory. */
module PagedExamples {
  import opened VmTypes
  import opened PageTables
  import opened Ownership
  import opened PagedMemory
  import opened FlatMemory
  import opened PagingSpec
  import opened PagingTheorems
  import opened FlatRuns
  import opened Abstraction
  import opened PagerFacts
  import opened PagedRuns
  import V = PolicyView
  import Pager

  /** Two addresses in different pages of the data segment. */
  const A: nat := 32 * PAGE_SIZE
  const B: nat := 33 * PAGE_SIZE

  /** A byte is written, its page swapped out, read back, evicted again and read once more. */
  function LosingOps(): seq<Op> {
    [Create(1), Switch(1), Write(A, [7]), Read(B, 1), Read(A, 1), Read(B, 1), Read(A, 1)]
  }

  /** With one frame, g the page in it and room in swap, reading one byte of another page replaces g. */
  lemma ReadReplaces(s: Machine, addr: nat, out: Out, es: seq<Event>, g: PageId)
    requires Explains(s, Read(addr, 1), out, es) && Possible(s, es) && FlatOk(s.paged.mem)
    requires s.runner in s.paged.mem && addr < SPACE && s.listed
    requires s.paged.frames == 1 && s.paged.resident == {g} && PageAt(s.runner, addr) != g
    requires g in s.paged.dirty ==> |s.paged.swapped| < s.paged.slots
    ensures out == Bytes([Peek(s.paged.mem, s.runner, addr)])
    ensures After(s, es) == s.(paged := Accessed(s.paged, PageAt(s.runner, addr), false, Some(g)))
  {
    hide FlatOk, Peek, Accessed;
    assert es != [];
    var e := es[0];
    assert es == [e] by {
      assert |es| == 1;
    }
    JustOne(s, e);
  }

  lemma WriteFirst(s: Machine, addr: nat, val: bv8, out: Out, es: seq<Event>)
    requires Explains(s, Write(addr, [val]), out, es) && Possible(s, es) && FlatOk(s.paged.mem)
    requires s.runner in s.paged.mem && addr < SPACE && WritableAt(addr) && s.paged.resident == {} && 0 < s.paged.frames
    ensures out == Done
    ensures After(s, es) == s.(paged := Stored(Accessed(s.paged, PageAt(s.runner, addr), true, None), s.runner, addr, val))
  {
    hide FlatOk, Peek, Accessed, Stored;
    assert es != [];
    var e := es[0];
    assert es == [e] by {
      assert |es| == 1;
    }
    JustOne(s, e);
  }

  /** The states that the losing run goes through, with one frame and one slot. */
  ghost function Stage(mem: Flat, resident: PageId, dirty: set<PageId>, swapped: set<PageId>, reloaded: set<PageId>): Machine {
    Machine(Paged(mem, {resident}, dirty, swapped, reloaded, 1, 1), true, 1)
  }

  ghost function Written(): Flat {
    EmptyOk();
    PeekZero(map[], 1, 1, A);
    Poke(map[1 := ZeroSpace()], 1, A, 7)
  }

  /** A page that was swapped out comes back and the clean page in RAM gives way to it. */
  lemma ComesBack(mem: Flat, g: PageId, h: PageId)
    requires g != h
    ensures Accessed(Stage(mem, h, {}, {g}, {}).paged, g, false, Some(h)) == Stage(mem, g, {}, {}, {g}).paged
    ensures Accessed(Stage(mem, g, {g}, {}, {}).paged, h, false, Some(g)) == Stage(mem, h, {}, {g}, {}).paged
    ensures Accessed(Stage(mem, g, {}, {}, {g}).paged, h, false, Some(g)) == Stage(Drop(mem, Some(g)), h, {}, {}, {}).paged
    ensures Accessed(Stage(mem, h, {}, {}, {}).paged, g, false, Some(h)) == Stage(mem, g, {}, {}, {}).paged
  {
    hide Drop;
    assert ({h} - {h}) + {g} == {g} && ({g} - {g}) + {h} == {h};
    assert {g} - {g} == {} && {} + {g} == {g} && {} - {h} == {} && {} - {g} == {};
  }

  lemma Replaced(s: Machine, hist: seq<Event>, lo: nat, hi: nat, addr: nat, out: Out, g: PageId)
    requires lo <= hi <= |hist| && Possible(s, hist) && Part(s, Read(addr, 1), out, hist, lo, hi)
    requires var t := After(s, hist[..lo]);
             && FlatOk(t.paged.mem) && t.runner in t.paged.mem && addr < SPACE && t.listed
             && t.paged.frames == 1 && t.paged.resident == {g} && PageAt(t.runner, addr) != g
             && (g in t.paged.dirty ==> |t.paged.swapped| < t.paged.slots)
    ensures var t := After(s, hist[..lo]);
            && out == Bytes([Peek(t.paged.mem, t.runner, addr)])
            && After(s, hist[..hi]) == t.(paged := Accessed(t.paged, PageAt(t.runner, addr), false, Some(g)))
  {
    hide Explains, Possible, FlatOk, Peek, Accessed, After;
    PartPossible(s, hist, lo, hi);
    ReadReplaces(After(s, hist[..lo]), addr, out, hist[lo..hi], g);
  }

  lemma WrittenFacts()
    ensures FlatOk(Written()) && Written().Keys == {1} && Peek(Written(), 1, A) == 7
    ensures var d := Drop(Written(), Some(PageAt(1, A)));
            FlatOk(d) && d.Keys == {1} && Peek(d, 1, A) == 0
    ensures PageAt(1, A) != PageAt(1, B) && WritableAt(A) && A < SPACE && B < SPACE
  {
    EmptyOk();
    PeekZero(map[], 1, 1, A);
    var z: Flat := map[1 := ZeroSpace()];
    PeekPoke(z, 1, A, 7, 1, A);
    PeekDrop(Written(), PageAt(1, A), 1, A);
  }

  /** The state after the first three operations. */
  lemma FirstStages(outs: seq<Out>, hist: seq<Event>, cuts: seq<nat>)
    requires History(Start(1, 1), LosingOps(), outs, hist, cuts)
    ensures After(Start(1, 1), hist[..cuts[3]]) == Stage(Written(), PageAt(1, A), {PageAt(1, A)}, {}, {})
  {
    hide Explains, Possible, After, FlatOk, Peek, Poke;
    var s, ops := Start(1, 1), LosingOps();
    assert Part(s, ops[0], outs[0], hist, cuts[0], cuts[1]) && Part(s, ops[1], outs[1], hist, cuts[1], cuts[2])
           && Part(s, ops[2], outs[2], hist, cuts[2], cuts[3]);
    PartPossible(s, hist, cuts[0], cuts[1]);
    PartPossible(s, hist, cuts[1], cuts[2]);
    PartPossible(s, hist, cuts[2], cuts[3]);
    assert hist[..0] == [];
    Nothing(s);
    FirstTwo(s, outs[0], hist[cuts[0]..cuts[1]], outs[1], hist[cuts[1]..cuts[2]]);
    EmptyOk();
    PeekZero(map[], 1, 1, A);
    WrittenFacts();
    WriteFirst(After(s, hist[..cuts[2]]), A, 7, outs[2], hist[cuts[2]..cuts[3]]);
    FirstWrite();
  }

  lemma FirstWrite()
    ensures var a := Paged(map[1 := ZeroSpace()], {}, {}, {}, {}, 1, 1);
            Stored(Accessed(a, PageAt(1, A), true, None), 1, A, 7) == Stage(Written(), PageAt(1, A), {PageAt(1, A)}, {}, {}).paged
  {
    EmptyOk();
    PeekZero(map[], 1, 1, A);
    assert {} - {PageAt(1, A)} == {};
  }

  lemma FirstTwo(s: Machine, out: Out, es: seq<Event>, out': Out, es': seq<Event>)
    requires s == Start(1, 1) && Explains(s, Create(1), out, es) && Explains(After(s, es), Switch(1), out', es')
    ensures After(After(s, es), es') == Machine(Paged(map[1 := ZeroSpace()], {}, {}, {}, {}, 1, 1), true, 1)
  {
    hide After;
    JustOne(s, Creates(1));
    JustOne(After(s, es), Switches(1));
  }

  /** In every history of the losing operations the byte reads 7 at first and 0 later. */
  lemma Loses(outs: seq<Out>, hist: seq<Event>, cuts: seq<nat>)
    requires History(Start(1, 1), LosingOps(), outs, hist, cuts)
    ensures outs[4] == Bytes([7]) && outs[6] == Bytes([0])
  {
    hide Explains, Possible, After, FlatOk, Peek, Written, Drop, Accessed;
    var s, ops := Start(1, 1), LosingOps();
    var a, b := PageAt(1, A), PageAt(1, B);
    FirstStages(outs, hist, cuts);
    WrittenFacts();
    ComesBack(Written(), a, b);
    ComesBack(Drop(Written(), Some(a)), a, b);
    assert Part(s, ops[3], outs[3], hist, cuts[3], cuts[4]);
    Replaced(s, hist, cuts[3], cuts[4], B, outs[3], a);
    assert Part(s, ops[4], outs[4], hist, cuts[4], cuts[5]);
    Replaced(s, hist, cuts[4], cuts[5], A, outs[4], b);
    assert Part(s, ops[5], outs[5], hist, cuts[5], cuts[6]);
    Replaced(s, hist, cuts[5], cuts[6], B, outs[5], a);
    assert Part(s, ops[6], outs[6], hist, cuts[6], cuts[7]);
    Replaced(s, hist, cuts[6], cuts[7], A, outs[6], b);
  }

  /** "A read returns the last write" fails on a machine with one frame: the byte written as 7 is read as 7, and, with
      nothing written in between, as 0. */
  method LostWrite() returns (p: Pager.Pager, outs: seq<Out>, ghost hist: seq<Event>, ghost cuts: seq<nat>)
    ensures History(Start(1, 1), LosingOps(), outs, hist, cuts) && p.Shows(After(Start(1, 1), hist))
    ensures outs[4] == Bytes([7]) && outs[6] == Bytes([0])
  {
    ghost var ns;
    p, outs, hist, cuts, ns := RunOn(LosingOps(), [1, 2, 3, 4, 5, 6, 7], 1, 1, 16);
    Loses(outs, hist, cuts);
  }

  /** Process 1 on a machine with one frame, its page at addr in it and dirty. */
  method OneDirtyPage(addr: nat, numSlots: nat) returns (p: Pager.Pager)
    requires addr < SPACE && WritableAt(addr)
    ensures fresh(p) && fresh(p.frames) && fresh(p.swap) && fresh(p.tlb) && fresh(p.policy)
    ensures p.Valid() && p.Tracked() && p.running == 1 && 1 in p.tables
    ensures p.Shown().resident == p.Shown().dirty == {PageAt(1, addr)} && p.Shown().frames == 1 && p.Shown().slots == numSlots
  {
    hide Ok, Abstract, FlatOk, TlbOk, Lists, Stored, V.Moves;
    p := new Pager.Pager(1, numSlots, 16);
    p.CreateProcess(1);
    p.Switch(1);
    ghost var s := Machine(p.Shown(), true, 1);
    var ok;
    ghost var e, n;
    ok, e, n := p.WriteByte(1, addr, 7, 1, s);
    SameSets(Accessed(s.paged, PageAt(1, addr), true, None), 1, addr, 7);
  }

  lemma SameSets(a: Paged, pid: int, addr: nat, val: bv8)
    ensures Stored(a, pid, addr, val) == a.(mem := Stored(a, pid, addr, val).mem)
  {
  }

  /** Out of memory: with one frame and no swap the second page cannot come in, and the first one's frame is no longer
      listed with the policy. */
  method Unlisted() returns (p: Pager.Pager, res: Pager.Access)
    ensures p.Valid() && res == Pager.ErrorOom && !p.Tracked()
  {
    hide Ok, Abstract, FlatOk, TlbOk, Lists;
    p := OneDirtyPage(A, 0);
    var pfn;
    ghost var victim;
    res, pfn, victim := p.AccessPage(1, 33, false, 2);
  }

  /** Growing the heap over a page in use leaves a frame owned by a page that is not resident. */
  method GrowthBreaks() returns (p: Pager.Pager)
    ensures !p.Valid() && !FramesMatch(p.frames.owner, p.tables)
  {
    hide TlbOk, Lists, View;
    p := OneDirtyPage(HEAP_FIRST_PAGE * PAGE_SIZE, 1);
    ghost var m := p.State();
    ghost var g := PageAt(1, HEAP_FIRST_PAGE * PAGE_SIZE);
    assert g in Abstract(m).resident;
    assert m.frameOwner[PteOf(m.tables, g).frame] == Some(g);
    p.GrowHeap(1, HEAP_FIRST_PAGE, 1);
    assert !PteOf(p.tables, g).present;
  }
}
