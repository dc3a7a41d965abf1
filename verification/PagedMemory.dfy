/** The memory state behind the pager as one value, the elementary changes the pager makes to it, and what
    each change does to the logical contents of every page. */
module PagedMemory {
  import opened VmTypes
  import opened Frames
  import opened PageTables
  import opened Ownership

  datatype Mem = Mem(
    ram: seq<bv8>, frameOwner: Owners, pages: seq<seq<bv8>>, slotOwner: Owners, tables: Tables,
    /** Resident clean pages that a read brought back from swap: nothing backs them any more. */
    reloaded: set<PageId>)

  ghost function View(m: Mem): Flat {
    ViewOf(m.ram, m.pages, m.tables)
  }

  ghost predicate Shape(m: Mem) {
    && |m.ram| == |m.frameOwner| * PAGE_SIZE
    && |m.pages| == |m.slotOwner|
    && forall s :: 0 <= s < |m.pages| ==> |m.pages[s]| == PAGE_SIZE
  }

  /** A resident clean page holds zeros unless it is one of the reloaded ones. */
  ghost predicate CleanOk(m: Mem) {
    && (forall g :: IsPresent(m, g) && !PteOf(m.tables, g).dirty && g !in m.reloaded ==>
                      Bytes(m.ram, m.pages, PteOf(m.tables, g)) == ZeroPage())
    && (forall g :: g in m.reloaded ==>
                      HasPage(m.tables, g) && PteOf(m.tables, g).present && !PteOf(m.tables, g).dirty)
  }

  /** Pages of read-only segments are never modified, so never reach swap. */
  ghost predicate ReadOnlyOk(m: Mem) {
    forall g :: HasPage(m.tables, g) && !DefaultPerm(g.vpn).write ==>
                  !PteOf(m.tables, g).dirty && !PteOf(m.tables, g).inSwap && g !in m.reloaded
  }

  ghost predicate Ok(m: Mem) {
    && Shape(m)
    && FramesMatch(m.frameOwner, m.tables)
    && SlotsMatch(m.slotOwner, m.tables)
    && TablesOk(m.tables)
    && CleanOk(m)
    && ReadOnlyOk(m)
  }

  ghost predicate IsPresent(m: Mem, g: PageId) {
    HasPage(m.tables, g) && PteOf(m.tables, g).present
  }

  /** In every state, the pages of TEXT and RODATA read as zeros in every process. */
  lemma ReadOnlySegmentsAreZero(m: Mem, g: PageId)
    requires Ok(m) && HasPage(m.tables, g) && !DefaultPerm(g.vpn).write
    ensures PageOf(View(m), g) == ZeroPage()
  {
    assert PageOf(View(m), g) == Bytes(m.ram, m.pages, PteOf(m.tables, g));
  }

  // ----- eviction -----

  /** A dirty page is copied to the free slot s and leaves its frame. */
  ghost function SwapOut(m: Mem, g: PageId, s: nat): Mem
    requires Ok(m) && IsPresent(m, g) && s < |m.pages|
  {
    var e := PteOf(m.tables, g);
    m.(pages := m.pages[s := Block(m.ram, e.frame)],
       slotOwner := m.slotOwner[s := Some(g)],
       frameOwner := m.frameOwner[e.frame := None],
       tables := SetPte(m.tables, g, e.(slot := s, inSwap := true, present := false, dirty := false)),
       reloaded := m.reloaded - {g})
  }

  lemma SwapOutOwners(m: Mem, g: PageId, s: nat)
    requires Ok(m) && IsPresent(m, g) && s < |m.pages| && m.slotOwner[s].None?
    ensures var n := SwapOut(m, g, s);
            Shape(n) && FramesMatch(n.frameOwner, n.tables) && SlotsMatch(n.slotOwner, n.tables) && TablesOk(n.tables)
  {
    var e' := PteOf(m.tables, g).(slot := s, inSwap := true, present := false, dirty := false);
    SetPteAt(m.tables, g, e');
    UnmapFrame(m.frameOwner, m.tables, g, e');
    FillSlot(m.slotOwner, m.tables, g, e');
  }

  lemma SwapOutBytes(m: Mem, g: PageId, s: nat, h: PageId)
    requires Ok(m) && IsPresent(m, g) && s < |m.pages| && m.slotOwner[s].None? && HasPage(m.tables, h)
    ensures var n := SwapOut(m, g, s);
            HasPage(n.tables, h) &&
            Bytes(n.ram, n.pages, PteOf(n.tables, h)) == Bytes(m.ram, m.pages, PteOf(m.tables, h))
  {
  }

  lemma SwapOutOk(m: Mem, g: PageId, s: nat)
    requires Ok(m) && IsPresent(m, g) && PteOf(m.tables, g).dirty && s < |m.pages| && m.slotOwner[s].None?
    ensures Ok(SwapOut(m, g, s)) && View(SwapOut(m, g, s)) == View(m)
  {
    hide FramesMatch, SlotsMatch, Block;
    var n := SwapOut(m, g, s);
    SetPteAt(m.tables, g, PteOf(n.tables, g));
    SwapOutOwners(m, g, s);
    forall h | HasPage(m.tables, h)
      ensures Bytes(n.ram, n.pages, PteOf(n.tables, h)) == Bytes(m.ram, m.pages, PteOf(m.tables, h))
    {
      SwapOutBytes(m, g, s, h);
    }
    FlatExtensional(View(n), View(m));
  }

  /** A clean page just leaves its frame. */
  ghost function Discard(m: Mem, g: PageId): Mem
    requires Ok(m) && IsPresent(m, g)
  {
    var e := PteOf(m.tables, g);
    m.(frameOwner := m.frameOwner[e.frame := None],
       tables := SetPte(m.tables, g, e.(present := false, dirty := false)),
       reloaded := m.reloaded - {g})
  }

  lemma DiscardOwners(m: Mem, g: PageId)
    requires Ok(m) && IsPresent(m, g)
    ensures var n := Discard(m, g);
            Shape(n) && FramesMatch(n.frameOwner, n.tables) && SlotsMatch(n.slotOwner, n.tables) && TablesOk(n.tables)
  {
    var e' := PteOf(m.tables, g).(present := false, dirty := false);
    SetPteAt(m.tables, g, e');
    UnmapFrame(m.frameOwner, m.tables, g, e');
    KeepSlot(m.slotOwner, m.tables, g, e');
  }

  lemma DiscardBytes(m: Mem, g: PageId, h: PageId)
    requires Ok(m) && IsPresent(m, g) && HasPage(m.tables, h)
    ensures var n := Discard(m, g);
            && HasPage(n.tables, h) && HasFlat(View(n), h) && HasFlat(Drop(View(m), Some(g)), h)
            && PageOf(View(n), h) == PageOf(Drop(View(m), Some(g)), h)
            && (h != g ==> Bytes(n.ram, n.pages, PteOf(n.tables, h)) == Bytes(m.ram, m.pages, PteOf(m.tables, h)))
  {
    var n := Discard(m, g);
    assert PageOf(View(m), h) == Bytes(m.ram, m.pages, PteOf(m.tables, h));
    assert PageOf(View(n), h) == Bytes(n.ram, n.pages, PteOf(n.tables, h));
  }

  lemma DiscardView(m: Mem, g: PageId)
    requires Ok(m) && IsPresent(m, g)
    ensures View(Discard(m, g)) == Drop(View(m), Some(g))
  {
    hide Ok;
    var n := Discard(m, g);
    SetPteAt(m.tables, g, PteOf(n.tables, g));
    forall h | HasPage(m.tables, h)
      ensures HasFlat(Drop(View(m), Some(g)), h) && PageOf(View(n), h) == PageOf(Drop(View(m), Some(g)), h)
    {
      DiscardBytes(m, g, h);
    }
    FlatExtensional(View(n), Drop(View(m), Some(g)));
  }

  lemma DiscardClean(m: Mem, g: PageId)
    requires Ok(m) && IsPresent(m, g)
    ensures CleanOk(Discard(m, g)) && ReadOnlyOk(Discard(m, g))
  {
    hide FramesMatch, SlotsMatch, Block;
    var n := Discard(m, g);
    SetPteAt(m.tables, g, PteOf(n.tables, g));
  }

  /** Discarding forgets the page's bytes, and only a reloaded page can lose anything by it. */
  lemma DiscardOk(m: Mem, g: PageId)
    requires Ok(m) && IsPresent(m, g) && !PteOf(m.tables, g).dirty
    ensures Ok(Discard(m, g)) && View(Discard(m, g)) == Drop(View(m), Some(g))
    ensures g !in m.reloaded ==> View(Discard(m, g)) == View(m)
  {
    hide FramesMatch, SlotsMatch, Block, TablesOk, ReadOnlyOk;
    DiscardOwners(m, g);
    DiscardClean(m, g);
    DiscardView(m, g);
    assert PageOf(View(m), g) == Bytes(m.ram, m.pages, PteOf(m.tables, g));
    DropHarmless(View(m), g);
  }

  // ----- fault -----

  /** The absent page g is put in the free frame f: from its swap slot, which is then freed, or zero-filled. */
  ghost function Load(m: Mem, g: PageId, f: nat, write: bool, tick: nat): Mem
    requires Ok(m) && HasPage(m.tables, g) && f < |m.frameOwner|
  {
    var e := PteOf(m.tables, g);
    var src := if e.inSwap then m.pages[e.slot] else ZeroPage();
    m.(ram := WriteBlock(m.ram, f, src),
       frameOwner := m.frameOwner[f := Some(g)],
       slotOwner := if e.inSwap then m.slotOwner[e.slot := None] else m.slotOwner,
       tables := SetPte(m.tables, g,
                        e.(frame := f, present := true, dirty := write, accessed := true, referenced := true,
                        lastAccessed := tick, inSwap := false, slot := if e.inSwap then 0 else e.slot)),
       reloaded := if e.inSwap && !write then m.reloaded + {g} else m.reloaded)
  }

  ghost predicate CanTake(m: Mem, g: PageId, f: nat) {
    && Ok(m) && HasPage(m.tables, g) && !PteOf(m.tables, g).present
    && f < |m.frameOwner| && m.frameOwner[f].None?
  }

  lemma LoadBytes(m: Mem, g: PageId, f: nat, write: bool, tick: nat, h: PageId)
    requires CanTake(m, g, f) && HasPage(m.tables, h)
    ensures var n := Load(m, g, f, write, tick);
            HasPage(n.tables, h) &&
            Bytes(n.ram, n.pages, PteOf(n.tables, h)) == Bytes(m.ram, m.pages, PteOf(m.tables, h))
  {
    var e := PteOf(m.tables, g);
    var src := if e.inSwap then m.pages[e.slot] else ZeroPage();
    if h == g {
      WriteBlockBytes(m.ram, f, src, f);
    } else if PteOf(m.tables, h).present {
      WriteBlockBytes(m.ram, f, src, PteOf(m.tables, h).frame);
    }
  }

  lemma LoadOwners(m: Mem, g: PageId, f: nat, write: bool, tick: nat)
    requires CanTake(m, g, f)
    ensures var n := Load(m, g, f, write, tick);
            Shape(n) && FramesMatch(n.frameOwner, n.tables) && SlotsMatch(n.slotOwner, n.tables) && TablesOk(n.tables)
  {
    var e := PteOf(m.tables, g);
    var e' := PteOf(Load(m, g, f, write, tick).tables, g);
    SetPteAt(m.tables, g, e');
    MapFrame(m.frameOwner, m.tables, g, e');
    if e.inSwap {
      EmptySlot(m.slotOwner, m.tables, g, e');
    } else {
      KeepSlot(m.slotOwner, m.tables, g, e');
    }
  }

  /** Loading keeps every logical byte of every page, the loaded one included. */
  lemma LoadOk(m: Mem, g: PageId, f: nat, write: bool, tick: nat)
    requires CanTake(m, g, f) && Allows(PteOf(m.tables, g).perm, write)
    ensures Ok(Load(m, g, f, write, tick)) && View(Load(m, g, f, write, tick)) == View(m)
  {
    hide FramesMatch, SlotsMatch, WriteBlock;
    var n := Load(m, g, f, write, tick);
    SetPteAt(m.tables, g, PteOf(n.tables, g));
    LoadOwners(m, g, f, write, tick);
    forall h | HasPage(m.tables, h)
      ensures Bytes(n.ram, n.pages, PteOf(n.tables, h)) == Bytes(m.ram, m.pages, PteOf(m.tables, h))
    {
      LoadBytes(m, g, f, write, tick, h);
    }
    FlatExtensional(View(n), View(m));
  }

  // ----- accesses -----

  /** Flags of a resident page change; a write makes it dirty. */
  ghost function Touch(m: Mem, g: PageId, e: Pte): Mem
    requires HasPage(m.tables, g)
  {
    m.(tables := SetPte(m.tables, g, e),
       reloaded := if e.dirty then m.reloaded - {g} else m.reloaded)
  }

  ghost predicate FlagsOnly(e: Pte, e': Pte) {
    && e'.present == e.present && e'.frame == e.frame && e'.perm == e.perm
    && e'.inSwap == e.inSwap && e'.slot == e.slot
  }

  lemma TouchOk(m: Mem, g: PageId, e: Pte)
    requires Ok(m) && IsPresent(m, g) && FlagsOnly(PteOf(m.tables, g), e)
    requires e.dirty == PteOf(m.tables, g).dirty || (e.dirty && e.perm.write)
    ensures Ok(Touch(m, g, e)) && View(Touch(m, g, e)) == View(m)
  {
    var n := Touch(m, g, e);
    SetPteAt(m.tables, g, e);
    KeepFrame(m.frameOwner, m.tables, g, e);
    KeepSlot(m.slotOwner, m.tables, g, e);
    FlatExtensional(View(n), View(m));
  }

  /** One byte is stored in the frame of a resident dirty page. */
  ghost function Store(m: Mem, g: PageId, offset: nat, val: bv8): Mem
    requires Ok(m) && IsPresent(m, g) && offset < PAGE_SIZE
  {
    m.(ram := m.ram[PteOf(m.tables, g).frame * PAGE_SIZE + offset := val])
  }

  lemma StoreOk(m: Mem, g: PageId, offset: nat, val: bv8)
    requires Ok(m) && IsPresent(m, g) && PteOf(m.tables, g).dirty && offset < PAGE_SIZE
    ensures PageOf(View(m), g) == Block(m.ram, PteOf(m.tables, g).frame)
    ensures Ok(Store(m, g, offset, val))
    ensures View(Store(m, g, offset, val)) == SetPage(View(m), g, PageOf(View(m), g)[offset := val])
  {
    var n := Store(m, g, offset, val);
    var f := PteOf(m.tables, g).frame;
    forall h | HasPage(m.tables, h) && PteOf(m.tables, h).present
      ensures Block(n.ram, PteOf(m.tables, h).frame) ==
              if h == g then Block(m.ram, f)[offset := val] else Block(m.ram, PteOf(m.tables, h).frame)
    {
      WriteByteBytes(m.ram, f, offset, val, PteOf(m.tables, h).frame);
      assert h != g ==> PteOf(m.tables, h).frame != f;
    }
    var want := SetPage(View(m), g, PageOf(View(m), g)[offset := val]);
    forall h | HasPage(m.tables, h)
      ensures PageOf(View(n), h) == PageOf(want, h)
    {
      assert PageOf(View(m), h) == Bytes(m.ram, m.pages, PteOf(m.tables, h));
      assert PageOf(View(n), h) == Bytes(n.ram, n.pages, PteOf(m.tables, h));
    }
    FlatExtensional(View(n), want);
  }

  /** Reference bits of one table change (Clock's sweep). */
  lemma SweepOk(m: Mem, pid: int, pt: PageTable)
    requires Ok(m) && pid in m.tables && |pt| == |m.tables[pid]|
    requires forall v :: 0 <= v < |pt| ==>
                           pt[v] == m.tables[pid][v] || pt[v] == m.tables[pid][v].(referenced := false)
    ensures Ok(m.(tables := m.tables[pid := pt])) && View(m.(tables := m.tables[pid := pt])) == View(m)
  {
    SweepFlags(m.tables, pid, pt);
    SameOwners(m, m.tables[pid := pt]);
    SameBytes(m, m.tables[pid := pt]);
  }

  /** Nothing but reference bits differs. */
  ghost predicate Alike(tables: Tables, tables': Tables) {
    && tables'.Keys == tables.Keys && (forall p :: p in tables ==> |tables'[p]| == |tables[p]|)
    && (forall g :: HasPage(tables', g) <==> HasPage(tables, g))
    && (forall g :: HasPage(tables, g) ==>
                      PteOf(tables', g) == PteOf(tables, g).(referenced := PteOf(tables', g).referenced))
  }

  lemma SweepFlags(tables: Tables, pid: int, pt: PageTable)
    requires pid in tables && |pt| == |tables[pid]|
    requires forall v :: 0 <= v < |pt| ==> pt[v] == tables[pid][v] || pt[v] == tables[pid][v].(referenced := false)
    ensures Alike(tables, tables[pid := pt])
  {
  }

  lemma SameOwners(m: Mem, tables: Tables)
    requires Ok(m) && Alike(m.tables, tables)
    ensures FramesMatch(m.frameOwner, tables) && SlotsMatch(m.slotOwner, tables) && TablesOk(tables)
  {
  }

  lemma SameBytes(m: Mem, tables: Tables)
    requires Ok(m) && Alike(m.tables, tables)
    ensures var n := m.(tables := tables);
            View(n) == View(m) && CleanOk(n) && ReadOnlyOk(n)
  {
    hide FramesMatch, SlotsMatch, Block;
    var n := m.(tables := tables);
    FlatExtensional(View(n), View(m));
  }
}
