/** The machine of the specification that a paged memory stands for, and how the pager's elementary changes show there. */
module Abstraction {
  import opened VmTypes
  import opened PageTables
  import opened Ownership
  import opened PagedMemory
  import opened FlatMemory
  import opened PagingSpec

  ghost function Resident(tables: Tables): (s: set<PageId>)
    ensures forall g :: g in s <==> HasPage(tables, g) && PteOf(tables, g).present
  {
    set p, v | p in tables && 0 <= v < |tables[p]| && PteOf(tables, PageId(p, v)).present :: PageId(p, v)
  }

  ghost function Dirty(tables: Tables): (s: set<PageId>)
    ensures forall g :: g in s <==> HasPage(tables, g) && PteOf(tables, g).present && PteOf(tables, g).dirty
  {
    set g | g in Resident(tables) && PteOf(tables, g).dirty
  }

  ghost function Swapped(tables: Tables): (s: set<PageId>)
    ensures forall g :: g in s <==> HasPage(tables, g) && PteOf(tables, g).inSwap
  {
    set p, v | p in tables && 0 <= v < |tables[p]| && PteOf(tables, PageId(p, v)).inSwap :: PageId(p, v)
  }

  ghost function Abstract(m: Mem): Paged {
    Paged(View(m), Resident(m.tables), Dirty(m.tables), Swapped(m.tables), m.reloaded, |m.frameOwner|, |m.slotOwner|)
  }

  ghost predicate SameExcept(tables: Tables, tables': Tables, g: PageId) {
    && tables'.Keys == tables.Keys
    && (forall h :: HasPage(tables', h) <==> HasPage(tables, h))
    && (forall h :: HasPage(tables, h) && h != g ==> PteOf(tables', h) == PteOf(tables, h))
  }

  lemma SetIsSame(tables: Tables, g: PageId, e: Pte)
    requires HasPage(tables, g)
    ensures SameExcept(tables, SetPte(tables, g, e), g) && HasPage(SetPte(tables, g, e), g) && PteOf(SetPte(tables, g, e), g) == e
  {
    SetPteAt(tables, g, e);
  }

  lemma SwapOutShows(m: Mem, g: PageId, s: nat)
    requires Ok(m) && IsPresent(m, g) && PteOf(m.tables, g).dirty && s < |m.pages| && m.slotOwner[s].None?
    ensures Ok(SwapOut(m, g, s)) && Abstract(SwapOut(m, g, s)) == Evicted(Abstract(m), g)
  {
    hide Ok, View, SameExcept;
    SwapOutOk(m, g, s);
    Unbacked(m, g);
    var n := SwapOut(m, g, s);
    var e := PteOf(m.tables, g);
    SetIsSame(m.tables, g, e.(slot := s, inSwap := true, present := false, dirty := false));
    EntryShows(m, n, g);
  }

  lemma DiscardShows(m: Mem, g: PageId)
    requires Ok(m) && IsPresent(m, g) && !PteOf(m.tables, g).dirty
    ensures Ok(Discard(m, g)) && Abstract(Discard(m, g)) == Evicted(Abstract(m), g)
  {
    hide Ok, View, SameExcept;
    DiscardOk(m, g);
    Unbacked(m, g);
    var n := Discard(m, g);
    SetIsSame(m.tables, g, PteOf(m.tables, g).(present := false, dirty := false));
    EntryShows(m, n, g);
  }

  lemma LoadShows(m: Mem, g: PageId, f: nat, write: bool, tick: nat)
    requires CanTake(m, g, f) && Allows(PteOf(m.tables, g).perm, write)
    ensures Ok(Load(m, g, f, write, tick)) && Abstract(Load(m, g, f, write, tick)) == Brought(Abstract(m), g, write)
  {
    hide Ok, View, SameExcept;
    LoadOk(m, g, f, write, tick);
    Unbacked(m, g);
    var n := Load(m, g, f, write, tick);
    SetIsSame(m.tables, g, PteOf(n.tables, g));
    EntryShows(m, n, g);
  }

  lemma TouchShows(m: Mem, g: PageId, e: Pte, write: bool)
    requires Ok(m) && IsPresent(m, g) && FlagsOnly(PteOf(m.tables, g), e)
    requires e.dirty == (PteOf(m.tables, g).dirty || write) && (write ==> DefaultPerm(g.vpn).write)
    ensures Ok(Touch(m, g, e)) && Abstract(Touch(m, g, e)) == Touched(Abstract(m), g, write)
  {
    hide Ok, View, SameExcept;
    Unbacked(m, g);
    TouchOk(m, g, e);
    var n := Touch(m, g, e);
    SetIsSame(m.tables, g, e);
    EntryShows(m, n, g);
  }

  lemma StoreShows(m: Mem, g: PageId, addr: nat, val: bv8)
    requires Ok(m) && IsPresent(m, g) && PteOf(m.tables, g).dirty && g.vpn == addr / PAGE_SIZE && addr < SPACE
    ensures Ok(Store(m, g, addr % PAGE_SIZE, val)) && Abstract(Store(m, g, addr % PAGE_SIZE, val)) == Stored(Abstract(m), g.pid, addr, val)
  {
    StoreOk(m, g, addr % PAGE_SIZE, val);
    ViewFlat(m);
  }

  lemma SweepShows(m: Mem, pid: int, pt: PageTable)
    requires Ok(m) && pid in m.tables && |pt| == |m.tables[pid]|
    requires forall v :: 0 <= v < |pt| ==>
                           pt[v] == m.tables[pid][v] || pt[v] == m.tables[pid][v].(referenced := false)
    ensures Ok(m.(tables := m.tables[pid := pt])) && Abstract(m.(tables := m.tables[pid := pt])) == Abstract(m)
  {
    hide Ok, View;
    SweepOk(m, pid, pt);
    SweptTables(m.tables, pid, pt);
  }

  lemma SweptTables(tables: Tables, pid: int, pt: PageTable)
    requires pid in tables && |pt| == |tables[pid]|
    requires forall v :: 0 <= v < |pt| ==> pt[v] == tables[pid][v] || pt[v] == tables[pid][v].(referenced := false)
    ensures var t := tables[pid := pt];
            Resident(t) == Resident(tables) && Dirty(t) == Dirty(tables) && Swapped(t) == Swapped(tables)
  {
    var t := tables[pid := pt];
    assert forall g :: HasPage(t, g) <==> HasPage(tables, g);
    forall g | HasPage(t, g)
      ensures PteOf(t, g) == PteOf(tables, g) || PteOf(t, g) == PteOf(tables, g).(referenced := false)
    {
    }
    assert Resident(t) == Resident(tables);
    assert Dirty(t) == Dirty(tables);
    assert Swapped(t) == Swapped(tables);
  }

  /** Of any page: its places are in range; in RAM it is not in swap, and dirty or backed by nothing but not both. */
  lemma Unbacked(m: Mem, g: PageId)
    requires Ok(m) && HasPage(m.tables, g)
    ensures var e := PteOf(m.tables, g);
            && (g in m.reloaded ==> e.present && !e.dirty) && (e.present ==> !e.inSwap) && e.perm == DefaultPerm(g.vpn)
            && (e.present ==> e.frame < |m.frameOwner|) && (e.inSwap ==> e.slot < |m.slotOwner|)
    ensures |m.pages| == |m.slotOwner|
  {
  }

  /** How the page sets follow the change of one entry. */
  lemma EntryShows(m: Mem, n: Mem, g: PageId)
    requires HasPage(m.tables, g) && HasPage(n.tables, g) && SameExcept(m.tables, n.tables, g)
    ensures var a, b, e := Abstract(m), Abstract(n), PteOf(n.tables, g);
            && b.resident == (if e.present then a.resident + {g} else a.resident - {g})
            && b.dirty == (if e.present && e.dirty then a.dirty + {g} else a.dirty - {g})
            && b.swapped == (if e.inSwap then a.swapped + {g} else a.swapped - {g})
    ensures InAbstract(m, g)
  {
    hide View, SameExcept;
    ResidentChange(m.tables, n.tables, g);
    DirtyChange(m.tables, n.tables, g);
    SwappedChange(m.tables, n.tables, g);
  }

  ghost predicate InAbstract(m: Mem, g: PageId)
    requires HasPage(m.tables, g)
  {
    var a, e := Abstract(m), PteOf(m.tables, g);
    (g in a.resident <==> e.present) && (g in a.dirty <==> e.present && e.dirty) && (g in a.swapped <==> e.inSwap)
  }

  lemma ResidentChange(tables: Tables, tables': Tables, g: PageId)
    requires HasPage(tables, g) && HasPage(tables', g) && SameExcept(tables, tables', g)
    ensures Resident(tables') == if PteOf(tables', g).present then Resident(tables) + {g} else Resident(tables) - {g}
  {
    assert forall h :: h in Resident(tables') ==> h == g || h in Resident(tables);
  }

  lemma DirtyChange(tables: Tables, tables': Tables, g: PageId)
    requires HasPage(tables, g) && HasPage(tables', g) && SameExcept(tables, tables', g)
    ensures Dirty(tables') ==
            if PteOf(tables', g).present && PteOf(tables', g).dirty then Dirty(tables) + {g} else Dirty(tables) - {g}
  {
    assert forall h :: h in Dirty(tables') ==> h == g || h in Dirty(tables);
  }

  lemma SwappedChange(tables: Tables, tables': Tables, g: PageId)
    requires HasPage(tables, g) && HasPage(tables', g) && SameExcept(tables, tables', g)
    ensures Swapped(tables') == if PteOf(tables', g).inSwap then Swapped(tables) + {g} else Swapped(tables) - {g}
  {
    assert forall h :: h in Swapped(tables') ==> h == g || h in Swapped(tables);
  }

  lemma ViewFlat(m: Mem)
    requires Ok(m)
    ensures FlatOk(View(m)) && View(m).Keys == m.tables.Keys
  {
    forall p, v | p in m.tables && 0 <= v < NUM_PAGES
      ensures |View(m)[p][v]| == PAGE_SIZE
    {
      assert HasPage(m.tables, PageId(p, v));
    }
  }

  // ----- room -----

  /** Frames, or slots, in use are as many as the pages that own them. */
  lemma {:induction false} OwnersCount(owner: Owners, s: set<PageId>)
    requires forall i :: 0 <= i < |owner| && owner[i].Some? ==> owner[i].value in s
    requires forall g :: g in s ==> Some(g) in owner
    requires forall i, j :: 0 <= i < j < |owner| && owner[i].Some? ==> owner[i] != owner[j]
    ensures |s| == Count(owner)
  {
    if owner == [] {
      assert s == {};
    } else {
      var k := |owner| - 1;
      var rest := owner[..k];
      var s' := if owner[k].Some? then s - {owner[k].value} else s;
      forall g | g in s'
        ensures Some(g) in rest
      {
        var i :| 0 <= i < |owner| && owner[i] == Some(g);
        assert rest[i] == Some(g);
      }
      OwnersCount(rest, s');
    }
  }

  ghost predicate Full(owner: Owners) {
    forall i :: 0 <= i < |owner| ==> owner[i].Some?
  }

  /** RAM is full when as many pages are resident as there are frames, swap likewise. */
  lemma Room(m: Mem)
    requires Ok(m)
    ensures var a := Abstract(m);
            && (Full(m.frameOwner) <==> a.frames <= |a.resident|) && |a.resident| <= a.frames
            && (Full(m.slotOwner) <==> a.slots <= |a.swapped|) && |a.swapped| <= a.slots
  {
    var a := Abstract(m);
    hide View;
    FramesCount(m);
    SlotsCount(m);
  }

  lemma FramesCount(m: Mem)
    requires Ok(m)
    ensures |Abstract(m).resident| == Count(m.frameOwner)
  {
    forall g | g in Abstract(m).resident
      ensures Some(g) in m.frameOwner
    {
      assert m.frameOwner[PteOf(m.tables, g).frame] == Some(g);
    }
    OwnersCount(m.frameOwner, Abstract(m).resident);
  }

  lemma SlotsCount(m: Mem)
    requires Ok(m)
    ensures |Abstract(m).swapped| == Count(m.slotOwner)
  {
    forall g | g in Abstract(m).swapped
      ensures Some(g) in m.slotOwner
    {
      assert m.slotOwner[PteOf(m.tables, g).slot] == Some(g);
    }
    OwnersCount(m.slotOwner, Abstract(m).swapped);
  }
}
