/** What the steps of the pager's methods mean, as lemmas about values. */
module PagerFacts {
  import opened VmTypes
  import opened Frames
  import opened PageTables
  import opened Ownership
  import opened PagedMemory
  import opened FlatMemory
  import opened PagingSpec
  import opened Abstraction
  import opened Replacement
  import opened Sequences
  import Tlb

  /** The TLB tells the truth about the pages of the running process. */
  ghost predicate TlbOk(es: seq<Tlb.Entry>, tables: Tables, pid: int) {
    pid in tables ==> Tlb.Coherent(es, tables[pid])
  }

  /** The owner of an allocated frame is resident in it, and not in swap as well: the branch that would
      reuse the victim's slot is never taken. */
  lemma VictimFacts(m: Mem, g: PageId, pfn: nat)
    requires Ok(m) && pfn < |m.frameOwner| && m.frameOwner[pfn] == Some(g)
    ensures IsPresent(m, g) && PteOf(m.tables, g).frame == pfn && !PteOf(m.tables, g).inSwap
    ensures (pfn + 1) * PAGE_SIZE <= |m.ram|
    ensures g in Abstract(m).resident && (g in Abstract(m).dirty <==> PteOf(m.tables, g).dirty)
    ensures Full(m.slotOwner) <==> Abstract(m).slots <= |Abstract(m).swapped|
  {
    Room(m);
  }

  lemma FlushVictim(es: seq<Tlb.Entry>, es': seq<Tlb.Entry>, tables: Tables, g: PageId, e: Pte, pid: int)
    requires TlbOk(es, tables, pid) && Tlb.Flushed(es, g.vpn, es') && HasPage(tables, g)
    ensures TlbOk(es', SetPte(tables, g, e), pid)
  {
    if pid in tables {
      SetPteAt(tables, g, e);
      Tlb.FlushCoherent(es, g.vpn, es', tables[pid], SetPte(tables, g, e)[pid]);
    }
  }

  /** Clock's sweep over the faulting table changes neither contents nor translations. */
  lemma SweepFacts(m: Mem, es: seq<Tlb.Entry>, pid: int, pt: PageTable)
    requires Ok(m) && pid in m.tables && |pt| == |m.tables[pid]| && TlbOk(es, m.tables, pid)
    requires forall v :: 0 <= v < |pt| ==>
                           pt[v] == m.tables[pid][v] || pt[v] == m.tables[pid][v].(referenced := false)
    ensures var n := m.(tables := m.tables[pid := pt]);
            Ok(n) && Abstract(n) == Abstract(m) && TlbOk(es, n.tables, pid)
  {
    SweepShows(m, pid, pt);
  }

  /** Evicting a page leaves every logical byte as it was exactly when the page is dirty, hence saved to
      swap, or holds nothing but zeros. */
  lemma EvictionHarmless(m: Mem, g: PageId)
    requires Ok(m) && IsPresent(m, g)
    ensures Evicted(Abstract(m), g).mem == View(m) <==>
            PteOf(m.tables, g).dirty || PageOf(View(m), g) == ZeroPage()
    ensures forall h :: HasFlat(View(m), h) && h != g ==>
                          var k := Evicted(Abstract(m), g).mem;
                          HasFlat(k, h) && PageOf(k, h) == PageOf(View(m), h)
  {
    Unbacked(m, g);
    DropHarmless(View(m), g);
    assert PageOf(View(m), g) == Bytes(m.ram, m.pages, PteOf(m.tables, g));
  }

  ghost predicate BitsOnly(e: Pte, e': Pte) {
    e' == e || e' == e.(referenced := false)
  }

  /** What the faulting process pid sees of another state n: its absent pages changed in their reference
      bits at most. */
  ghost predicate AbsentKept(tables: Tables, tables': Tables, pid: int) {
    && tables'.Keys == tables.Keys
    && pid in tables && |tables'[pid]| == |tables[pid]|
    && forall v :: 0 <= v < |tables[pid]| && !tables[pid][v].present ==> BitsOnly(tables[pid][v], tables'[pid][v])
  }

  lemma EvictKeepsAbsent(tables: Tables, pid: int, pt: PageTable, g: PageId, e: Pte)
    requires pid in tables && |pt| == |tables[pid]| && HasPage(tables, g) && PteOf(tables, g).present
    requires forall v :: 0 <= v < |pt| ==> BitsOnly(tables[pid][v], pt[v])
    ensures AbsentKept(tables, tables[pid := pt], pid)
    ensures HasPage(tables[pid := pt], g) && AbsentKept(tables, SetPte(tables[pid := pt], g, e), pid)
  {
  }

  lemma ListsAfterInsert(pages: seq<nat>, owner: Owners, f: nat, g: PageId)
    requires f < |owner| && Lists(pages, owner)
    ensures Lists(if f in pages then pages else pages + [f], owner[f := Some(g)])
  {
  }

  /** After a page of pid is loaded, an entry for it in the TLB is the truth, and nothing else changed. */
  lemma InsertLoaded(es: seq<Tlb.Entry>, es': seq<Tlb.Entry>, k: nat, entry: Tlb.Entry, tables: Tables, g: PageId, e: Pte)
    requires TlbOk(es, tables, g.pid) && Tlb.Flushed(es, g.vpn, es') && HasPage(tables, g)
    requires Tlb.InsertSlot(es', g.vpn, k) && e.present
    requires entry.valid && entry.vpn == g.vpn && entry.pfn == e.frame && entry.dirty == e.dirty && entry.perm == e.perm
    ensures TlbOk(es'[k := entry], SetPte(tables, g, e), g.pid)
  {
    SetPteAt(tables, g, e);
    var pt, pt' := tables[g.pid], SetPte(tables, g, e)[g.pid];
    Tlb.FlushCoherent(es, g.vpn, es', pt, pt');
    Tlb.InsertCoherent(es', k, entry, pt', pt');
  }

  /** Rewriting the entry of a resident page of pid, and its TLB entry with it. */
  lemma InsertTouched(es: seq<Tlb.Entry>, k: nat, entry: Tlb.Entry, tables: Tables, g: PageId, e: Pte)
    requires TlbOk(es, tables, g.pid) && HasPage(tables, g)
    requires Tlb.InsertSlot(es, g.vpn, k) && e.present
    requires entry.valid && entry.vpn == g.vpn && entry.pfn == e.frame && entry.dirty == e.dirty && entry.perm == e.perm
    ensures TlbOk(es[k := entry], SetPte(tables, g, e), g.pid)
  {
    SetPteAt(tables, g, e);
    Tlb.InsertCoherent(es, k, entry, tables[g.pid], SetPte(tables, g, e)[g.pid]);
  }

  /** Frame f, zeroed and marked as g's but not mapped yet. */
  ghost function Claimed(m: Mem, g: PageId, f: nat): Mem
    requires Shape(m) && f < |m.frameOwner|
  {
    m.(ram := WriteBlock(m.ram, f, ZeroPage()), frameOwner := m.frameOwner[f := Some(g)])
  }

  ghost predicate Loadable(m: Mem, g: PageId, f: nat, write: bool) {
    && Ok(m) && HasPage(m.tables, g) && !PteOf(m.tables, g).present
    && f < |m.frameOwner| && m.frameOwner[f].None?
    && Allows(PteOf(m.tables, g).perm, write)
  }

  lemma LoadFacts(m: Mem, g: PageId, f: nat, write: bool, tick: nat)
    requires Loadable(m, g, f, write)
    ensures Ok(m) && HasPage(m.tables, g) && f < |m.frameOwner| && m.frameOwner[f].None?
    ensures Ok(Load(m, g, f, write, tick)) && Abstract(Load(m, g, f, write, tick)) == Brought(Abstract(m), g, write)
    ensures PteOf(m.tables, g).inSwap ==> PteOf(m.tables, g).slot < |m.pages| && |m.pages[PteOf(m.tables, g).slot]| == PAGE_SIZE
    ensures var src := if PteOf(m.tables, g).inSwap then m.pages[PteOf(m.tables, g).slot] else ZeroPage();
            WriteBlock(Claimed(m, g, f).ram, f, src) == WriteBlock(m.ram, f, src)
  {
    LoadShows(m, g, f, write, tick);
    var src := if PteOf(m.tables, g).inSwap then m.pages[PteOf(m.tables, g).slot] else ZeroPage();
    WriteBlockTwice(m.ram, f, ZeroPage(), src);
  }

  ghost predicate Lists(pages: seq<nat>, owner: Owners) {
    forall f :: 0 <= f < |owner| && owner[f].Some? ==> f in pages
  }

  lemma ListsAfterEvict(pages: seq<nat>, owner: Owners, i: nat)
    requires i < |pages| && pages[i] < |owner| && Lists(pages, owner)
    ensures Lists(Without(pages, i), owner[pages[i] := None])
  {
    var owner' := owner[pages[i] := None];
    forall f | 0 <= f < |owner'| && owner'[f].Some?
      ensures f in Without(pages, i)
    {
      assert f in pages;
      var k :| 0 <= k < |pages| && pages[k] == f;
      assert Without(pages, i)[if k < i then k else k - 1] == f;
    }
  }

  /** The frame taken off the list is still in use: it is not listed any more. */
  lemma ListsNoMore(pages: seq<nat>, owner: Owners, i: nat)
    requires i < |pages| && NoDuplicates(pages) && pages[i] < |owner| && owner[pages[i]].Some?
    ensures !Lists(Without(pages, i), owner)
  {
    WithoutMembers(pages, i);
  }

  /** With every frame allocated and listed, the list is not empty. */
  lemma FullIsListed(pages: seq<nat>, owner: Owners)
    requires Full(owner) && Lists(pages, owner) && 0 < |owner|
    ensures pages != []
  {
    assert owner[0].Some?;
  }

  lemma TableSize(m: Mem, pid: int)
    requires Ok(m) && pid in m.tables
    ensures |m.tables[pid]| == NUM_PAGES
  {
  }

  /** A state in which g is absent and some frame f is free can take g into f. */
  lemma CanLoad(m: Mem, m': Mem, g: PageId, f: nat, write: bool)
    requires Ok(m) && HasPage(m.tables, g) && !PteOf(m.tables, g).present && Allows(DefaultPerm(g.vpn), write)
    requires Ok(m') && AbsentKept(m.tables, m'.tables, g.pid) && f < |m'.frameOwner| && m'.frameOwner[f].None?
    ensures Loadable(m', g, f, write) && Shape(m')
    ensures PteOf(m'.tables, g).inSwap == PteOf(m.tables, g).inSwap
  {
  }

  lemma TouchFacts(m: Mem, g: PageId, e: Pte, write: bool)
    requires Ok(m) && IsPresent(m, g) && FlagsOnly(PteOf(m.tables, g), e)
    requires e.dirty == (PteOf(m.tables, g).dirty || write) && (write ==> DefaultPerm(g.vpn).write)
    ensures Ok(Touch(m, g, e)) && Abstract(Touch(m, g, e)) == Touched(Abstract(m), g, write) && IsPresent(Touch(m, g, e), g)
    ensures PteOf(Touch(m, g, e).tables, g) == e && Touch(m, g, e).tables.Keys == m.tables.Keys
    ensures e.dirty && !write ==> g !in m.reloaded
  {
    TouchShows(m, g, e, write);
    Unbacked(m, g);
  }

  /** What the specification's state says about one page of a paged memory. */
  lemma Showing(m: Mem, g: PageId)
    requires Ok(m)
    ensures g in Abstract(m).resident <==> IsPresent(m, g)
    ensures g in Abstract(m).swapped <==> HasPage(m.tables, g) && PteOf(m.tables, g).inSwap
    ensures Abstract(m).mem == View(m) && View(m).Keys == m.tables.Keys && FlatOk(View(m))
    ensures Full(m.frameOwner) <==> Abstract(m).frames <= |Abstract(m).resident|
  {
    Room(m);
    ViewFlat(m);
  }

  lemma HitIsTouch(a: Paged, g: PageId, write: bool)
    requires g in a.resident
    ensures MayAccess(a, g, None) && Accessed(a, g, write, None) == Touched(a, g, write)
  {
  }

  /** An access moves pages about but leaves the page accessed as it was. */
  lemma Undisturbed(a: Paged, g: PageId, victim: Option<PageId>, write: bool)
    requires MayAccess(a, g, victim) && HasFlat(a.mem, g)
    ensures var b := Accessed(a, g, write, victim);
            b.mem.Keys == a.mem.Keys && HasFlat(b.mem, g) && PageOf(b.mem, g) == PageOf(a.mem, g)
  {
  }

  lemma FullIs(owner: Owners)
    ensures Full(owner) <==> forall i :: 0 <= i < |owner| ==> owner[i].Some?
  {
  }

  /** Where a resident page is, and what its permissions are. */
  lemma ResidentFacts(m: Mem, g: PageId)
    requires Ok(m) && IsPresent(m, g)
    ensures PteOf(m.tables, g).frame < |m.frameOwner| && m.frameOwner[PteOf(m.tables, g).frame] == Some(g)
    ensures PteOf(m.tables, g).perm == DefaultPerm(g.vpn)
    ensures (PteOf(m.tables, g).frame + 1) * PAGE_SIZE <= |m.ram|
    ensures HasFlat(View(m), g) && PageOf(View(m), g) == Block(m.ram, PteOf(m.tables, g).frame)
  {
    assert PageOf(View(m), g) == Bytes(m.ram, m.pages, PteOf(m.tables, g));
  }

  lemma PermFacts(m: Mem, g: PageId)
    requires Ok(m) && HasPage(m.tables, g)
    ensures PteOf(m.tables, g).perm == DefaultPerm(g.vpn)
  {
  }

  lemma ListsMore(pages: seq<nat>, pages': seq<nat>, owner: Owners)
    requires pages <= pages'
    ensures Lists(pages, owner) ==> Lists(pages', owner)
  {
  }

  /** A valid TLB entry is about a resident page and carries its frame, permissions and dirty bit. */
  lemma EntryFacts(m: Mem, es: seq<Tlb.Entry>, i: nat, g: PageId)
    requires Ok(m) && g.pid in m.tables && TlbOk(es, m.tables, g.pid)
    requires i < |es| && es[i].valid && es[i].vpn == g.vpn
    ensures IsPresent(m, g) && PteOf(m.tables, g).frame == es[i].pfn && PteOf(m.tables, g).dirty == es[i].dirty
    ensures PteOf(m.tables, g).perm == es[i].perm == DefaultPerm(g.vpn)
  {
    assert Tlb.Agrees(es[i], m.tables[g.pid]);
  }

  lemma SameEntries(es: seq<Tlb.Entry>, tables: Tables, g: PageId, e: Pte)
    requires TlbOk(es, tables, g.pid) && HasPage(tables, g) && Tlb.SameTranslation(PteOf(tables, g), e)
    ensures TlbOk(es, SetPte(tables, g, e), g.pid)
  {
    SetPteAt(tables, g, e);
  }

  lemma Stamped(es: seq<Tlb.Entry>, i: nat, tick: nat, tables: Tables, pid: int)
    requires TlbOk(es, tables, pid) && i < |es|
    ensures TlbOk(es[i := es[i].(lastUsed := tick)], tables, pid)
  {
  }

  lemma SetSame(tables: Tables, g: PageId)
    requires HasPage(tables, g)
    ensures SetPte(tables, g, PteOf(tables, g)) == tables
  {
    assert tables[g.pid][g.vpn := tables[g.pid][g.vpn]] == tables[g.pid];
  }

  /** The machine before anything happened. */
  lemma Empty(m: Mem)
    requires Shape(m) && m.tables == map[] && m.reloaded == {}
    requires (forall f :: 0 <= f < |m.frameOwner| ==> m.frameOwner[f].None?) && (forall s :: 0 <= s < |m.slotOwner| ==> m.slotOwner[s].None?)
    ensures Ok(m) && Abstract(m) == Paged(map[], {}, {}, {}, {}, |m.frameOwner|, |m.slotOwner|)
  {
    assert View(m) == map[] && Resident(m.tables) == {} && Dirty(m.tables) == {} && Swapped(m.tables) == {};
  }

  lemma ListsNone(pages: seq<nat>, owner: Owners)
    requires forall f :: 0 <= f < |owner| ==> owner[f].None?
    ensures Lists(pages, owner)
  {
  }

  lemma NoTables(es: seq<Tlb.Entry>, pid: int)
    ensures TlbOk(es, map[], pid)
  {
  }

  ghost predicate OwnedBy(o: Option<PageId>, pid: int) {
    o.Some? && o.value.pid == pid
  }

  /** owner' is owner with the entries of pid's pages below vpn released. */
  ghost predicate Released(owner: Owners, owner': Owners, pid: int, vpn: nat) {
    && |owner'| == |owner|
    && forall i :: 0 <= i < |owner| ==>
                     owner'[i] == if OwnedBy(owner[i], pid) && owner[i].value.vpn < vpn then None else owner[i]
  }

  /** The one frame, or slot, that belongs to page vpn of pid is the one its page-table entry names. */
  lemma ReleaseFacts(m: Mem, pid: int, vpn: nat)
    requires Ok(m) && pid in m.tables && vpn < |m.tables[pid]|
    ensures var e := m.tables[pid][vpn];
            && (e.present ==> e.frame < |m.frameOwner|)
            && (e.inSwap ==> e.slot < |m.slotOwner|)
            && (forall f :: 0 <= f < |m.frameOwner| ==>
                              (m.frameOwner[f] == Some(PageId(pid, vpn)) <==> e.present && e.frame == f))
            && (forall s :: 0 <= s < |m.slotOwner| ==>
                              (m.slotOwner[s] == Some(PageId(pid, vpn)) <==> e.inSwap && e.slot == s))
  {
    assert PteOf(m.tables, PageId(pid, vpn)) == m.tables[pid][vpn];
  }

  lemma DestroyOk(m: Mem, n: Mem, pid: int)
    requires Ok(m) && n.ram == m.ram && n.pages == m.pages && n.tables == m.tables - {pid}
    requires n.reloaded == set g | g in m.reloaded && g.pid != pid
    requires Released(m.frameOwner, n.frameOwner, pid, NUM_PAGES) && Released(m.slotOwner, n.slotOwner, pid, NUM_PAGES)
    ensures Ok(n) && Abstract(n) == Destroyed(Abstract(m), pid)
    ensures forall f :: 0 <= f < |m.frameOwner| ==>
                          n.frameOwner[f] == if OwnedBy(m.frameOwner[f], pid) then None else m.frameOwner[f]
    ensures forall s :: 0 <= s < |m.slotOwner| ==>
                          n.slotOwner[s] == if OwnedBy(m.slotOwner[s], pid) then None else m.slotOwner[s]
  {
    assert forall g :: HasPage(n.tables, g) <==> HasPage(m.tables, g) && g.pid != pid;
    FlatExtensional(View(n), View(m) - {pid});
    GoneTable(m.tables, pid);
    assert n.reloaded == NotOf(m.reloaded, pid);
  }

  lemma GoneTable(tables: Tables, pid: int)
    ensures var t := tables - {pid};
            && Resident(t) == NotOf(Resident(tables), pid) && Dirty(t) == NotOf(Dirty(tables), pid)
            && Swapped(t) == NotOf(Swapped(tables), pid)
  {
    var t := tables - {pid};
    assert forall g :: HasPage(t, g) <==> HasPage(tables, g) && g.pid != pid;
    assert Resident(t) == NotOf(Resident(tables), pid);
    assert Dirty(t) == NotOf(Dirty(tables), pid);
    assert Swapped(t) == NotOf(Swapped(tables), pid);
  }

  /** Adding a fresh table adds pages that are neither resident nor swapped, and changes no other page. */
  lemma AddTable(tables: Tables, pid: int, g: PageId)
    requires pid !in tables
    ensures var t := tables[pid := NewTable()];
            && (HasPage(t, g) <==> HasPage(tables, g) || (g.pid == pid && g.vpn < NUM_PAGES))
            && (HasPage(tables, g) ==> g.pid != pid && PteOf(t, g) == PteOf(tables, g))
            && (HasPage(t, g) && g.pid == pid ==>
                  && !PteOf(t, g).present && !PteOf(t, g).inSwap && !PteOf(t, g).dirty
                  && PteOf(t, g).perm == DefaultPerm(g.vpn))
  {
  }

  lemma CreateOk(m: Mem, pid: int)
    requires Ok(m) && pid !in m.tables
    ensures Ok(m.(tables := m.tables[pid := NewTable()]))
  {
    hide NewTable, DefaultPerm;
    forall g {
      AddTable(m.tables, pid, g);
    }
  }

  lemma CreateView(m: Mem, pid: int)
    requires Ok(m) && pid !in m.tables
    ensures View(m.(tables := m.tables[pid := NewTable()])) == View(m)[pid := ZeroSpace()]
  {
    hide NewTable, DefaultPerm, Ok;
    var n := m.(tables := m.tables[pid := NewTable()]);
    var want := View(m)[pid := ZeroSpace()];
    forall g | HasFlat(View(n), g)
      ensures HasFlat(want, g) && PageOf(View(n), g) == PageOf(want, g)
    {
      assert HasPage(n.tables, g);
      AddTable(m.tables, pid, g);
    }
    FlatExtensional(View(n), want);
  }

  lemma CreateShows(m: Mem, pid: int)
    requires Ok(m) && pid !in m.tables
    ensures Abstract(m.(tables := m.tables[pid := NewTable()])) == Created(Abstract(m), pid)
  {
    hide NewTable, DefaultPerm, Ok, View;
    CreateView(m, pid);
    var t := m.tables[pid := NewTable()];
    forall g {
      AddTable(m.tables, pid, g);
    }
    assert Resident(t) == Resident(m.tables) && Dirty(t) == Dirty(m.tables) && Swapped(t) == Swapped(m.tables);
  }

  lemma TlbShrink(es: seq<Tlb.Entry>, tables: Tables, pid: int, gone: int)
    requires TlbOk(es, tables, pid)
    ensures TlbOk(es, tables - {gone}, pid)
  {
  }

  /** Releasing the entry of page vpn, if it has one, is one more step of releasing pid's entries. */
  lemma ReleaseStep(owner: Owners, owner': Owners, pid: int, vpn: nat, i: int)
    requires Released(owner, owner', pid, vpn) && i < |owner|
    requires forall j :: 0 <= j < |owner| ==> (owner[j] == Some(PageId(pid, vpn)) <==> j == i)
    ensures Released(owner, if 0 <= i then owner'[i := None] else owner', pid, vpn + 1)
  {
    forall j | 0 <= j < |owner| && OwnedBy(owner[j], pid) && owner[j].value.vpn == vpn
      ensures j == i
    {
      assert owner[j] == Some(PageId(pid, vpn));
    }
  }

  lemma ReleasedNone(owner: Owners, pid: int)
    ensures Released(owner, owner, pid, 0)
  {
  }

  lemma ListsFewer(pages: seq<nat>, owner: Owners, owner': Owners)
    requires |owner'| == |owner| && forall f :: 0 <= f < |owner| ==> owner'[f] == owner[f] || owner'[f] == None
    ensures Lists(pages, owner) ==> Lists(pages, owner')
  {
  }

  // ----- heap growth -----

  /** heap_grow's page-table loop: pages first .. first+n become absent, readable and writable. */
  ghost function Grown(pt: PageTable, first: nat, n: nat): (r: PageTable)
    ensures |r| == |pt|
    ensures forall v :: 0 <= v < |pt| ==>
                          r[v] == if first <= v < first + n
                                  then pt[v].(perm := Perm(true, true, false), present := false, inSwap := false) else pt[v]
  {
    seq(|pt|, v requires 0 <= v < |pt| =>
          if first <= v < first + n
          then pt[v].(perm := Perm(true, true, false), present := false, inSwap := false) else pt[v])
  }

  ghost predicate Untouched(pt: PageTable, first: nat, n: nat) {
    forall v :: 0 <= v < |pt| && first <= v < first + n ==> !pt[v].present && !pt[v].inSwap
  }

  /** Growing forgets where the pages above the break are without freeing their frames and slots. So the
      one-to-one ownership of frames and slots survives growth exactly when no page being added is in RAM or swap. */
  lemma GrowKeepsOwnership(m: Mem, pid: int, first: nat, n: nat)
    requires Ok(m) && pid in m.tables && InHeap(first, n)
    ensures var t := m.tables[pid := Grown(m.tables[pid], first, n)];
            FramesMatch(m.frameOwner, t) && SlotsMatch(m.slotOwner, t) <==> Untouched(m.tables[pid], first, n)
  {
    var pt := m.tables[pid];
    var t := m.tables[pid := Grown(pt, first, n)];
    assert forall g :: HasPage(t, g) <==> HasPage(m.tables, g);
    if Untouched(pt, first, n) {
      assert forall g :: HasPage(m.tables, g) ==>
                           && PteOf(t, g).present == PteOf(m.tables, g).present
                           && PteOf(t, g).inSwap == PteOf(m.tables, g).inSwap
                           && PteOf(t, g).frame == PteOf(m.tables, g).frame
                           && PteOf(t, g).slot == PteOf(m.tables, g).slot;
    } else {
      var v :| 0 <= v < |pt| && first <= v < first + n && (pt[v].present || pt[v].inSwap);
      var g := PageId(pid, v);
      assert PteOf(m.tables, g) == pt[v];
      assert !PteOf(t, g).present && !PteOf(t, g).inSwap;
      if pt[v].present {
        assert m.frameOwner[pt[v].frame] == Some(g);
      } else {
        assert m.slotOwner[pt[v].slot] == Some(g);
      }
    }
  }

  /** Over untouched pages growth changes nothing at all: they already are absent, readable and writable. */
  lemma GrowSame(m: Mem, pid: int, first: nat, n: nat)
    requires Ok(m) && pid in m.tables && InHeap(first, n) && Untouched(m.tables[pid], first, n)
    ensures Grown(m.tables[pid], first, n) == m.tables[pid]
  {
    var pt := m.tables[pid];
    forall v | 0 <= v < |pt|
      ensures Grown(pt, first, n)[v] == pt[v]
    {
      if first <= v < first + n {
        assert PteOf(m.tables, PageId(pid, v)).perm == DefaultPerm(v);
      }
    }
  }
}
