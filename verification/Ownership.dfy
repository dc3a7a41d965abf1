/** Which page owns which frame and slot, what bytes a page logically holds, and how single updates of the
    tables move both. Everything here is about values; the pager's methods use it step by step. */
module Ownership {
  import opened VmTypes
  import opened Frames
  import opened PageTables

  ghost predicate HasPage(tables: Tables, g: PageId) {
    g.pid in tables && g.vpn < |tables[g.pid]|
  }

  function PteOf(tables: Tables, g: PageId): Pte
    requires HasPage(tables, g)
  {
    tables[g.pid][g.vpn]
  }

  function SetPte(tables: Tables, g: PageId, e: Pte): (r: Tables)
    requires HasPage(tables, g)
  {
    tables[g.pid := tables[g.pid][g.vpn := e]]
  }

  /** Allocated frames and present pages correspond one to one. */
  ghost predicate FramesMatch(owner: Owners, tables: Tables) {
    && (forall f :: 0 <= f < |owner| && owner[f].Some? ==>
                      && HasPage(tables, owner[f].value)
                      && PteOf(tables, owner[f].value).present
                      && PteOf(tables, owner[f].value).frame == f)
    && (forall g :: HasPage(tables, g) && PteOf(tables, g).present ==>
                      PteOf(tables, g).frame < |owner| && owner[PteOf(tables, g).frame] == Some(g))
  }

  /** Allocated swap slots and swapped-out pages correspond one to one. */
  ghost predicate SlotsMatch(owner: Owners, tables: Tables) {
    && (forall s :: 0 <= s < |owner| && owner[s].Some? ==>
                      && HasPage(tables, owner[s].value)
                      && PteOf(tables, owner[s].value).inSwap
                      && PteOf(tables, owner[s].value).slot == s)
    && (forall g :: HasPage(tables, g) && PteOf(tables, g).inSwap ==>
                      PteOf(tables, g).slot < |owner| && owner[PteOf(tables, g).slot] == Some(g))
  }

  /** Every table covers the address space with its segment permissions, and no page is in RAM and swap at once. */
  ghost predicate TablesOk(tables: Tables) {
    && (forall p :: p in tables ==> |tables[p]| == NUM_PAGES)
    && (forall g :: HasPage(tables, g) ==>
                      PteOf(tables, g).perm == DefaultPerm(g.vpn)
                      && !(PteOf(tables, g).present && PteOf(tables, g).inSwap))
  }

  /** The bytes a page logically holds: its frame, else its swap slot, else zeros. */
  ghost function Bytes(ram: seq<bv8>, pages: seq<seq<bv8>>, e: Pte): (b: seq<bv8>) {
    if e.present && (e.frame + 1) * PAGE_SIZE <= |ram| then Block(ram, e.frame)
    else if !e.present && e.inSwap && e.slot < |pages| then pages[e.slot]
    else ZeroPage()
  }

  /** A flat memory: for every process, the bytes of each page. */
  type Flat = map<int, seq<seq<bv8>>>

  ghost function ViewOf(ram: seq<bv8>, pages: seq<seq<bv8>>, tables: Tables): (m: Flat)
    ensures m.Keys == tables.Keys
    ensures forall p :: p in tables ==> |m[p]| == |tables[p]|
    ensures forall g :: HasPage(tables, g) ==> m[g.pid][g.vpn] == Bytes(ram, pages, PteOf(tables, g))
  {
    map p | p in tables ::
      seq(|tables[p]|, v requires 0 <= v < |tables[p]| => Bytes(ram, pages, tables[p][v]))
  }

  ghost function PageOf(m: Flat, g: PageId): seq<bv8>
    requires g.pid in m && g.vpn < |m[g.pid]|
  {
    m[g.pid][g.vpn]
  }

  ghost predicate HasFlat(m: Flat, g: PageId) {
    g.pid in m && g.vpn < |m[g.pid]|
  }

  ghost function SetPage(m: Flat, g: PageId, b: seq<bv8>): (r: Flat)
    requires HasFlat(m, g)
  {
    m[g.pid := m[g.pid][g.vpn := b]]
  }

  /** Forgetting a page: its bytes become zeros. */
  ghost function Drop(m: Flat, d: Option<PageId>): (r: Flat) {
    if d.Some? && HasFlat(m, d.value) then SetPage(m, d.value, ZeroPage()) else m
  }

  /** Forgetting a page leaves the memory as it was exactly when the page held zeros. */
  lemma DropHarmless(m: Flat, g: PageId)
    requires HasFlat(m, g)
    ensures Drop(m, Some(g)) == m <==> PageOf(m, g) == ZeroPage()
  {
    var r := Drop(m, Some(g));
    assert PageOf(r, g) == ZeroPage();
    if PageOf(m, g) == ZeroPage() {
      assert m[g.pid][g.vpn := ZeroPage()] == m[g.pid];
      assert r == m;
    }
  }

  /** Two flat memories over the same tables are equal when all pages agree. */
  lemma FlatExtensional(m: Flat, n: Flat)
    requires m.Keys == n.Keys && forall p :: p in m ==> |m[p]| == |n[p]|
    requires forall g :: HasFlat(m, g) ==> PageOf(m, g) == PageOf(n, g)
    ensures m == n
  {
    forall p | p in m
      ensures m[p] == n[p]
    {
      forall v | 0 <= v < |m[p]|
        ensures m[p][v] == n[p][v]
      {
        assert HasFlat(m, PageId(p, v));
        assert PageOf(m, PageId(p, v)) == PageOf(n, PageId(p, v));
      }
    }
  }

  /** Replacing one entry of the tables replaces that entry and no other. */
  lemma SetPteAt(tables: Tables, g: PageId, e: Pte)
    requires HasPage(tables, g)
    ensures var r := SetPte(tables, g, e);
            && r.Keys == tables.Keys
            && (forall p :: p in tables ==> |r[p]| == |tables[p]|)
            && (forall h :: HasPage(r, h) <==> HasPage(tables, h))
            && (forall h :: HasPage(tables, h) ==> PteOf(r, h) == if h == g then e else PteOf(tables, h))
  {
  }

  // ----- ownership -----

  /** A free frame given to an absent page. */
  lemma MapFrame(owner: Owners, tables: Tables, g: PageId, e: Pte)
    requires FramesMatch(owner, tables) && HasPage(tables, g) && !PteOf(tables, g).present
    requires e.present && e.frame < |owner| && owner[e.frame].None?
    ensures FramesMatch(owner[e.frame := Some(g)], SetPte(tables, g, e))
  {
    SetPteAt(tables, g, e);
  }

  /** A present page taken out of its frame. */
  lemma UnmapFrame(owner: Owners, tables: Tables, g: PageId, e: Pte)
    requires FramesMatch(owner, tables) && HasPage(tables, g) && PteOf(tables, g).present && !e.present
    ensures FramesMatch(owner[PteOf(tables, g).frame := None], SetPte(tables, g, e))
  {
    SetPteAt(tables, g, e);
  }

  /** An update that moves no page in or out of RAM. */
  lemma KeepFrame(owner: Owners, tables: Tables, g: PageId, e: Pte)
    requires FramesMatch(owner, tables) && HasPage(tables, g)
    requires e.present == PteOf(tables, g).present && (e.present ==> e.frame == PteOf(tables, g).frame)
    ensures FramesMatch(owner, SetPte(tables, g, e))
  {
    SetPteAt(tables, g, e);
  }

  lemma FillSlot(owner: Owners, tables: Tables, g: PageId, e: Pte)
    requires SlotsMatch(owner, tables) && HasPage(tables, g) && !PteOf(tables, g).inSwap
    requires e.inSwap && e.slot < |owner| && owner[e.slot].None?
    ensures SlotsMatch(owner[e.slot := Some(g)], SetPte(tables, g, e))
  {
    SetPteAt(tables, g, e);
  }

  lemma EmptySlot(owner: Owners, tables: Tables, g: PageId, e: Pte)
    requires SlotsMatch(owner, tables) && HasPage(tables, g) && PteOf(tables, g).inSwap && !e.inSwap
    ensures SlotsMatch(owner[PteOf(tables, g).slot := None], SetPte(tables, g, e))
  {
    SetPteAt(tables, g, e);
  }

  lemma KeepSlot(owner: Owners, tables: Tables, g: PageId, e: Pte)
    requires SlotsMatch(owner, tables) && HasPage(tables, g)
    requires e.inSwap == PteOf(tables, g).inSwap && (e.inSwap ==> e.slot == PteOf(tables, g).slot)
    ensures SlotsMatch(owner, SetPte(tables, g, e))
  {
    SetPteAt(tables, g, e);
  }
}
