/** The pager and the byte-wise memory accesses above it (pager.c, vm.c). */
module Pager {
  import opened VmTypes
  import opened Frames
  import opened PageTables
  import opened Ownership
  import opened PagedMemory
  import opened FlatMemory
  import opened PagingSpec
  import opened Abstraction
  import opened Replacement
  import opened Sequences
  import opened PagerFacts
  import F = FifoOrder
  import L = LruOrder
  import V = PolicyView
  import Swap
  import Tlb

  datatype Access = Hit | MinorFault | MajorFault | ErrorPerm | ErrorOom | ErrorAddr

  predicate Granted(r: Access) {
    r in {Hit, MinorFault, MajorFault}
  }

  /** Entry i leaves the list; if its frame is freed all frames stay listed, else this one is not listed any more. */
  lemma Delisted(pages: seq<nat>, owner: Owners, i: nat, owner': Owners, freed: bool)
    requires F.Within(pages, |owner|) && i < |pages| && owner[pages[i]].Some?
    requires owner' == if freed then owner[pages[i] := None] else owner
    ensures !freed ==> !Lists(Without(pages, i), owner')
    ensures freed && Lists(pages, owner) ==> Lists(Without(pages, i), owner')
  {
    if !freed {
      ListsNoMore(pages, owner, i);
    } else if Lists(pages, owner) {
      ListsAfterEvict(pages, owner, i);
    }
  }

  /** What the policy goes by in a state in order. */
  lemma ViewFrom(m: Mem, v: V.View)
    requires Ok(m) && v.owner == m.frameOwner && v.tables == m.tables && |v.owner| <= NUM_PAGES && F.Within(v.pages, |v.owner|)
    requires v.kind == Lru ==> |v.ticks| == |v.pages|
    requires v.kind == Clock ==> if v.pages == [] then v.hand == 0 else v.hand < |v.pages|
    ensures V.ViewOk(v)
  {
  }

  /** An entry of the tables is rewritten without its reference bit. */
  lemma EntrySameBits(tables: Tables, g: PageId, e: Pte)
    requires HasPage(tables, g) && e.referenced == PteOf(tables, g).referenced
    ensures V.SameBits(tables, SetPte(tables, g, e))
  {
  }

  lemma SweptBits(tables: Tables, tables': Tables, g: PageId, ok: bool)
    requires HasPage(tables, g)
    requires if ok then exists e: Pte :: e.referenced == PteOf(tables, g).referenced && tables' == SetPte(tables, g, e)
             else tables' == tables
    ensures V.SameBits(tables, tables')
  {
    if ok {
      var e: Pte :| e.referenced == PteOf(tables, g).referenced && tables' == SetPte(tables, g, e);
      EntrySameBits(tables, g, e);
    }
  }

  lemma LoadSetsBit(m: Mem, g: PageId, f: nat, write: bool, tick: nat)
    requires Ok(m) && f < |m.frameOwner| && HasPage(m.tables, g)
    ensures exists e: Pte :: e.referenced && Load(m, g, f, write, tick).tables == SetPte(m.tables, g, e)
  {
    var tables := Load(m, g, f, write, tick).tables;
    assert PteOf(tables, g).referenced && tables == SetPte(m.tables, g, PteOf(tables, g));
  }

  class Pager {
    const frames: FrameTable
    const swap: Swap.SwapSpace
    const tlb: Tlb.Cache
    const policy: Tracker
    var tables: Tables
    /** The process dispatched last: the TLB holds translations of its pages only. */
    var running: int
    var minor: nat
    var major: nat
    var evictions: nat
    ghost var reloaded: set<PageId>

    ghost function State(): Mem
      reads this, frames, swap
    {
      Mem(frames.ram, frames.owner, swap.pages, swap.owner, tables, reloaded)
    }

    /** The state of the specification's machine that this one stands for. */
    ghost function Shown(): Paged
      reads this, frames, swap
    {
      Abstract(State())
    }

    ghost predicate Valid()
      reads this, frames, swap, tlb, policy
    {
      && frames.Valid() && swap.Valid() && policy.Valid()
      && 0 < policy.frames == |frames.owner|
      && 0 < |tlb.entries|
      && Ok(State())
      && TlbOk(tlb.entries, tables, running)
    }

    /** Every allocated frame is listed by the replacement policy. */
    ghost predicate Tracked()
      reads frames, policy
    {
      Lists(policy.pages, frames.owner)
    }

    /** The page the policy would give up if pid faulted now. */
    ghost predicate Chosen(g: PageId)
      requires Valid() && running in tables
      reads this, frames, swap, tlb, policy
    {
      var pid := running;
      exists i: nat :: policy.IsVictim(i, tables[pid]) && frames.owner[policy.pages[i]] == Some(g)
    }

    /** What the policy goes by. */
    ghost function Snap(): V.View
      reads this, frames, tlb, policy
    {
      V.View(policy.kind, policy.pages, policy.ticks, policy.hand, frames.owner, tables, running, Tlb.Cached(tlb.entries))
    }

    lemma SnapOk()
      requires Valid()
      ensures V.ViewOk(Snap())
    {
      hide Ok, TlbOk, Tlb.Cached;
      ViewFrom(State(), Snap());
    }

    /** This machine is in the given state of the specification's. */
    ghost predicate Shows(s: Machine)
      reads this, frames, swap, tlb, policy
    {
      Valid() && Shown() == s.paged && (s.listed ==> Tracked()) && running == s.runner
    }

    constructor (numFrames: nat, numSlots: nat, tlbSize: nat)
      requires 0 < numFrames <= 256 && 0 < tlbSize
      ensures Valid() && Tracked() && tables == map[] && running == -1
      ensures |frames.owner| == numFrames && |swap.owner| == numSlots && policy.kind == Fifo
      ensures forall f :: 0 <= f < numFrames ==> frames.owner[f] == None
      ensures forall s :: 0 <= s < numSlots ==> swap.owner[s] == None
      ensures Shown() == Paged(map[], {}, {}, {}, {}, numFrames, numSlots) && minor == major == evictions == 0
      ensures fresh(frames) && fresh(swap) && fresh(tlb) && fresh(policy) && policy.pages == []
      ensures forall i :: 0 <= i < |tlb.entries| ==> !tlb.entries[i].valid
    {
      hide Ok, Abstract, TlbOk, Count, NoDuplicates, Lists;
      frames := new FrameTable(numFrames);
      swap := new Swap.SwapSpace(numSlots);
      tlb := new Tlb.Cache(tlbSize);
      policy := new Tracker(Fifo, numFrames);
      tables := map[];
      running := -1;
      minor, major, evictions := 0, 0, 0;
      reloaded := {};
      new;
      Empty(State());
      ListsNone(policy.pages, frames.owner);
      NoTables(tlb.entries, running);
    }

    /** The victim page g leaves frame pfn: written to swap first if dirty, then unmapped, the frame freed.
        Fails, changing nothing, exactly when g is dirty and swap is full. */
    method Expel(g: PageId, pfn: nat) returns (ok: bool)
      requires Valid() && running in tables && pfn < |frames.owner| && frames.owner[pfn] == Some(g)
      modifies `tables, `reloaded, frames`owner, frames`used, swap, tlb`entries
      ensures Valid()
      ensures ok <==> (g in old(Shown()).dirty ==> |old(Shown()).swapped| < old(Shown()).slots)
      ensures !ok ==> State() == old(State())
      ensures ok ==> Shown() == Evicted(old(Shown()), g)
      ensures ok ==> frames.owner == old(frames.owner)[pfn := None]
      ensures ok ==> exists e: Pte :: e.referenced == PteOf(old(tables), g).referenced && tables == SetPte(old(tables), g, e)
      ensures Tlb.Cached(tlb.entries) == Tlb.Cached(old(tlb.entries)) - (if ok then {g.vpn} else {})
    {
      hide Ok, Abstract, Evicted, Tlb.Coherent, NoDuplicates, Count, TlbOk, Tlb.Flushed, Tlb.Cached, Full;
      ghost var m := State();
      VictimFacts(m, g, pfn);
      ghost var n;
      var e := PteOf(tables, g);
      if e.dirty {
        var slot := swap.Alloc(g.pid, g.vpn);
        FullIs(old(swap.owner));
        if slot < 0 {
          return false;
        }
        n := SwapOut(m, g, slot);
        SwapOutShows(m, g, slot);
        swap.Out(Block(frames.ram, pfn), slot);
        tables := SetPte(tables, g, e.(slot := slot, inSwap := true, present := false, dirty := false));
      } else {
        n := Discard(m, g);
        DiscardShows(m, g);
        tables := SetPte(tables, g, e.(present := false, dirty := false));
      }
      tlb.FlushEntry(g.vpn);
      frames.Free(pfn);
      reloaded := reloaded - {g};
      assert State() == n;
      FlushVictim(old(tlb.entries), tlb.entries, m.tables, g, PteOf(tables, g), running);
      Tlb.CachedFlush(old(tlb.entries), g.vpn, tlb.entries);
      ok := true;
    }

    /** The policy has just given up entry i of its list, frame pfn, and left pt of the table it was shown; v is what it went by.
        The page in that frame is expelled, if it can be. */
    method GiveUp(pid: int, pfn: nat, pt: PageTable, ghost i: nat, ghost v: V.View) returns (ok: bool, ghost g: PageId)
      requires Valid() && running == pid && pid in tables && pfn < |frames.owner| && frames.owner[pfn].Some?
      requires v == Snap().(pages := v.pages, ticks := v.ticks, hand := v.hand) && V.ViewOk(v) && V.GivenUp(v, i, pt)
      requires i < |v.pages| && pfn == v.pages[i] && policy.pages == Without(v.pages, i)
      requires policy.kind == Lru ==> policy.ticks == Without(v.ticks, i)
      requires policy.kind == Clock ==> policy.hand == HandAfter(|v.pages|, i)
      requires |pt| == |tables[pid]| && forall x :: 0 <= x < |pt| ==> BitsOnly(tables[pid][x], pt[x])
      modifies `tables, `reloaded, frames`owner, frames`used, swap, tlb`entries
      ensures Valid() && old(frames.owner)[pfn] == Some(g) && g in old(Shown()).resident
      ensures ok <==> (g in old(Shown()).dirty ==> |old(Shown()).swapped| < old(Shown()).slots)
      ensures AbsentKept(old(tables), tables, pid) && tables.Keys == old(tables.Keys)
      ensures Shown() == if ok then Evicted(old(Shown()), g) else old(Shown())
      ensures frames.owner == if ok then old(frames.owner)[pfn := None] else old(frames.owner)
      ensures V.Moves(v, Snap(), Some(g), None, None, 0)
    {
      hide Ok, Abstract, Evicted, Tlb.Coherent, Count, TlbOk, NoDuplicates, V.GivenUp, V.Moves, V.ViewOk, V.SameBits, Tlb.Cached;
      ghost var m := State();
      TableSize(m, pid);
      var page := frames.owner[pfn].value;
      g := page;
      VictimFacts(m, g, pfn);
      SweepFacts(m, tlb.entries, pid, pt);
      tables := tables[pid := pt];
      assert State() == m.(tables := m.tables[pid := pt]);
      ok := Expel(page, pfn);
      EvictKeepsAbsent(m.tables, pid, pt, g, PteOf(tables, g));
      SnapOk();
      SweptBits(m.tables[pid := pt], tables, g, ok);
      V.VictimMoves(v, Snap(), i, pt, g);
    }

    /** RAM is full: the policy chooses a victim and the victim is expelled. The victim leaves the policy's list in
        any case, so when it cannot be expelled its frame stays in use but is not listed any more. */
    method Evict(pid: int) returns (ok: bool, ghost victim: Option<PageId>)
      requires Valid() && running == pid && pid in tables && Full(frames.owner)
      modifies `tables, `reloaded, frames`owner, frames`used, swap, tlb`entries, policy
      ensures Valid()
      ensures victim.None? <==> old(policy.pages) == []
      ensures victim.Some? ==> old(Chosen(victim.value)) && victim.value in old(Shown()).resident
      ensures ok <==> victim.Some? && (victim.value in old(Shown()).dirty ==> |old(Shown()).swapped| < old(Shown()).slots)
      ensures AbsentKept(old(tables), tables, pid) && tables.Keys == old(tables.Keys)
      ensures Shown() == if ok then Evicted(old(Shown()), victim.value) else old(Shown())
      ensures ok ==> exists f :: 0 <= f < |frames.owner| && frames.owner[f].None?
      ensures |frames.owner| == |old(frames.owner)|
      ensures !ok ==> frames.owner == old(frames.owner)
      ensures !ok && victim.Some? ==> !Tracked()
      ensures old(Tracked()) ==> (Tracked() <==> ok)
      ensures V.Moves(old(Snap()), Snap(), victim, None, None, 0)
    {
      hide Ok, Abstract, Evicted, Tlb.Coherent, Count, TlbOk, NoDuplicates, Lists, VictimAt, Leaves, V.Moves, V.ViewOk, V.SameBits,
        Tlb.Cached;
      ghost var m, v := State(), Snap();
      SnapOk();
      TableSize(m, pid);
      var pfn, pt, i := policy.Evict(tables[pid]);
      if pfn < 0 {
        if old(Tracked()) {
          FullIsListed(old(policy.pages), m.frameOwner);
        }
        V.Still(v, 0);
        return false, None;
      }
      ghost var g;
      ok, g := GiveUp(pid, pfn, pt, i, v);
      victim := Some(g);
      assert ok ==> frames.owner[pfn].None?;
      Delisted(old(policy.pages), m.frameOwner, i, frames.owner, ok);
    }

    /** Frame pfn, claimed for the page, gets its bytes from swap or zeros, and the page is mapped. */
    method FillAndMap(pid: int, vpn: nat, pfn: nat, write: bool, tick: nat, ghost m: Mem)
      requires frames.Valid() && swap.Valid()
      requires pfn < |frames.owner| && Shape(m) && pfn < |m.frameOwner| && State() == Claimed(m, PageId(pid, vpn), pfn)
      requires Loadable(m, PageId(pid, vpn), pfn, write)
      modifies `tables, `reloaded, `minor, `major, frames`ram, swap
      ensures frames.Valid() && swap.Valid()
      ensures State() == Load(m, PageId(pid, vpn), pfn, write, tick)
      ensures var inSwap := PteOf(m.tables, PageId(pid, vpn)).inSwap;
              (minor, major) == (if inSwap then (old(minor), old(major) + 1) else (old(minor) + 1, old(major)))
    {
      hide Ok, Abstract, Count, Loadable;
      var g := PageId(pid, vpn);
      LoadFacts(m, g, pfn, write, tick);
      var e := PteOf(tables, g);
      if e.inSwap {
        var bytes := swap.In(e.slot);
        frames.Fill(pfn, bytes);
        swap.Free(e.slot);
        major := major + 1;
      } else {
        frames.Fill(pfn, ZeroPage());
        minor := minor + 1;
      }
      tables := SetPte(tables, g,
                       e.(frame := pfn, present := true, dirty := write, accessed := true, referenced := true,
                       lastAccessed := tick, inSwap := false, slot := if e.inSwap then 0 else e.slot));
      reloaded := if e.inSwap && !write then reloaded + {g} else reloaded;
    }

    /** The frame of a page just mapped is listed with the policy. */
    method ListFrame(pfn: nat, tick: nat, ghost g: PageId, ghost owner: Owners)
      requires policy.Valid() && policy.frames == |frames.owner| && pfn < |owner| && frames.owner == owner[pfn := Some(g)]
      modifies policy`pages, policy`ticks
      ensures policy.Valid()
      ensures Lists(old(policy.pages), owner) ==> Tracked()
      ensures policy.pages == if pfn in old(policy.pages) then old(policy.pages) else old(policy.pages) + [pfn]
      ensures policy.kind == Lru ==>
                forall i :: 0 <= i < |policy.pages| ==>
                              policy.ticks[i] == if policy.pages[i] == pfn then tick else old(policy.ticks)[i]
    {
      hide NoDuplicates, Lists;
      policy.Insert(pfn, tick);
      if Lists(old(policy.pages), owner) {
        ListsAfterInsert(old(policy.pages), owner, pfn, g);
      }
    }

    /** The rest of a fault, once frame pfn is claimed for the page: fill it, map the page, list the frame
        with the policy, refresh the TLB. */
    method Install(pid: int, vpn: nat, pfn: nat, write: bool, tick: nat, ghost m: Mem)
      requires frames.Valid() && swap.Valid() && policy.Valid() && 0 < policy.frames == |frames.owner| && 0 < |tlb.entries|
      requires pfn < |frames.owner| && Shape(m) && pfn < |m.frameOwner| && State() == Claimed(m, PageId(pid, vpn), pfn)
      requires Loadable(m, PageId(pid, vpn), pfn, write)
      requires running == pid && TlbOk(tlb.entries, tables, pid) && V.ViewOk(Snap().(owner := m.frameOwner))
      modifies `tables, `reloaded, `minor, `major, frames`ram, swap, tlb`entries, policy`pages, policy`ticks
      ensures Valid() && Shown() == Brought(Abstract(m), PageId(pid, vpn), write) && tables.Keys == m.tables.Keys
      ensures var inSwap := PteOf(m.tables, PageId(pid, vpn)).inSwap;
              (minor, major) == (if inSwap then (old(minor), old(major) + 1) else (old(minor) + 1, old(major)))
      ensures IsPresent(State(), PageId(pid, vpn)) && PteOf(tables, PageId(pid, vpn)).frame == pfn
      ensures PteOf(tables, PageId(pid, vpn)).dirty == write
      ensures Lists(old(policy.pages), m.frameOwner) ==> Tracked()
      ensures V.Moves(old(Snap()).(owner := m.frameOwner), Snap(), None, Some(PageId(pid, vpn)), Some(PageId(pid, vpn)), tick)
    {
      hide Ok, Abstract, Brought, Tlb.Coherent, Count, TlbOk, NoDuplicates, Lists, Tlb.Flushed, Loadable, Tlb.InsertSlot,
        V.Moves, V.ViewOk, Tlb.Cached;
      var g := PageId(pid, vpn);
      LoadFacts(m, g, pfn, write, tick);
      FillAndMap(pid, vpn, pfn, write, tick, m);
      var e := PteOf(tables, g);
      ListFrame(pfn, tick, g, m.frameOwner);
      tlb.FlushEntry(vpn);
      ghost var flushed := tlb.entries;
      ghost var k := tlb.Insert(vpn, pfn, e.dirty, e.perm, tick);
      InsertLoaded(old(tlb.entries), flushed, k, tlb.entries[k], m.tables, g, e);
      Tlb.CachedFlush(old(tlb.entries), vpn, flushed);
      Tlb.CachedInsert(flushed, k, tlb.entries[k]);
      LoadSetsBit(m, g, pfn, write, tick);
      SnapOk();
      V.ArrivalMoves(old(Snap()).(owner := m.frameOwner), Snap(), pfn, g, tick);
    }

    /** Claims a frame for the page, evicting if none is free; m is the state before the frame is marked. */
    method Claim(pid: int, vpn: nat) returns (pfn: int, ghost victim: Option<PageId>, ghost m: Mem)
      requires Valid() && running == pid && HasPage(tables, PageId(pid, vpn))
      requires !PteOf(tables, PageId(pid, vpn)).present
      modifies `tables, `reloaded, `evictions, frames, swap, tlb`entries, policy
      ensures frames.Valid() && swap.Valid() && policy.Valid() && 0 < policy.frames == |frames.owner| && 0 < |tlb.entries|
      ensures TlbOk(tlb.entries, tables, pid) && tables.Keys == m.tables.Keys == old(tables.Keys)
      ensures victim.Some? ==> Full(old(frames.owner)) && old(Chosen(victim.value)) && victim.value in old(Shown()).resident
      ensures 0 <= pfn <==> !Full(old(frames.owner))
                            || (victim.Some? && (victim.value in old(Shown()).dirty ==> |old(Shown()).swapped| < old(Shown()).slots))
      ensures Ok(m) && AbsentKept(old(tables), m.tables, pid)
      ensures Abstract(m) == if 0 <= pfn && victim.Some? then Evicted(old(Shown()), victim.value) else old(Shown())
      ensures evictions == if 0 <= pfn && victim.Some? then old(evictions) + 1 else old(evictions)
      ensures pfn < 0 ==> State() == m && (old(Tracked()) ==> victim.Some? && !Tracked())
      ensures 0 <= pfn ==> && pfn < |m.frameOwner| && m.frameOwner[pfn].None? && Shape(m)
                           && State() == Claimed(m, PageId(pid, vpn), pfn)
                           && (old(Tracked()) ==> Lists(policy.pages, m.frameOwner))
      ensures V.Moves(old(Snap()), Snap().(owner := m.frameOwner), victim, None, None, 0)
    {
      hide Ok, Abstract, Evicted, Tlb.Coherent, Count, NoDuplicates, Lists, VictimAt, V.Moves, V.ViewOk, Tlb.Cached;
      m := State();
      SnapOk();
      V.Still(Snap(), 0);
      victim := None;
      pfn := frames.Alloc(pid, vpn);
      if pfn < 0 {
        assert State() == m;
        var ok;
        if old(Tracked()) {
          FullIsListed(policy.pages, frames.owner);
        }
        ok, victim := Evict(pid);
        m := State();
        if ok {
          evictions := evictions + 1;
          pfn := frames.Alloc(pid, vpn);
        }
      }
    }

    /** A page that is not resident: claim a frame and install the page. */
    method Fault(pid: int, vpn: nat, write: bool, tick: nat) returns (pfn: int, ghost victim: Option<PageId>)
      requires Valid() && running == pid && HasPage(tables, PageId(pid, vpn))
      requires !PteOf(tables, PageId(pid, vpn)).present && Allows(DefaultPerm(vpn), write)
      modifies this, frames, swap, tlb`entries, policy
      ensures Valid() && running == old(running) && tables.Keys == old(tables.Keys)
      ensures victim.Some? ==> old(Chosen(victim.value))
      ensures var a, g := old(Shown()), PageId(pid, vpn);
              if 0 <= pfn then MayAccess(a, g, victim) && Shown() == Accessed(a, g, write, victim)
              else MayRefuse(a, g, victim) && Shown() == a
      ensures 0 <= pfn ==> && IsPresent(State(), PageId(pid, vpn))
                           && PteOf(tables, PageId(pid, vpn)).frame == pfn
                           && PteOf(tables, PageId(pid, vpn)).dirty == write
      ensures old(Tracked()) ==> (Tracked() <==> 0 <= pfn) && (pfn < 0 ==> victim.Some?)
      ensures evictions == if 0 <= pfn && victim.Some? then old(evictions) + 1 else old(evictions)
      ensures var inSwap := PteOf(old(tables), PageId(pid, vpn)).inSwap;
              (minor, major) == (if pfn < 0 then (old(minor), old(major))
                                 else if inSwap then (old(minor), old(major) + 1) else (old(minor) + 1, old(major)))
      ensures var come := if 0 <= pfn then Some(PageId(pid, vpn)) else None;
              V.Moves(old(Snap()), Snap(), victim, come, come, tick)
    {
      hide Ok, Abstract, Evicted, Brought, Tlb.Coherent, Count, TlbOk, NoDuplicates, Lists, Loadable, AbsentKept, VictimAt,
        Full, V.Moves, V.ViewOk, Tlb.Cached;
      var g := PageId(pid, vpn);
      ghost var m := State();
      Showing(m, g);
      ghost var m';
      pfn, victim, m' := Claim(pid, vpn);
      if 0 <= pfn {
        CanLoad(m, m', g, pfn, write);
        ghost var mid := Snap().(owner := m'.frameOwner);
        V.MovesInTurn(old(Snap()), mid, victim, None, None, 0);
        Install(pid, vpn, pfn, write, tick, m');
        V.MovesBoth(old(Snap()), mid, Snap(), victim, g, tick);
      } else {
        V.AnyTick(old(Snap()), Snap(), victim, None, 0, tick);
      }
    }

    /** New flags for a resident page; the TLB is still to follow. */
    method Mark(pid: int, vpn: nat, e: Pte, write: bool)
      requires Valid() && IsPresent(State(), PageId(pid, vpn)) && FlagsOnly(PteOf(tables, PageId(pid, vpn)), e)
      requires e.dirty == (PteOf(tables, PageId(pid, vpn)).dirty || write) && Allows(DefaultPerm(vpn), write)
      modifies `tables, `reloaded
      ensures Ok(State()) && Shown() == Touched(old(Shown()), PageId(pid, vpn), write)
      ensures tables == SetPte(old(tables), PageId(pid, vpn), e) && tables.Keys == old(tables.Keys)
      ensures IsPresent(State(), PageId(pid, vpn)) && PteOf(tables, PageId(pid, vpn)) == e
    {
      hide Ok, Abstract, Touched, TlbOk, NoDuplicates, Count;
      var g := PageId(pid, vpn);
      ghost var m := State();
      TouchFacts(m, g, e, write);
      tables := SetPte(tables, g, e);
      reloaded := if write then reloaded - {g} else reloaded;
      assert State() == Touch(m, g, e);
    }

    /** A resident page found by the page-table walk: update its flags, tell the policy, fill the TLB. */
    method HitPage(pid: int, vpn: nat, write: bool, tick: nat) returns (pfn: nat)
      requires Valid() && running == pid && IsPresent(State(), PageId(pid, vpn)) && Allows(DefaultPerm(vpn), write)
      modifies `tables, `reloaded, tlb`entries, policy`pages, policy`ticks
      ensures Valid() && Shown() == Touched(old(Shown()), PageId(pid, vpn), write) && tables.Keys == old(tables.Keys)
      ensures IsPresent(State(), PageId(pid, vpn))
      ensures pfn == PteOf(tables, PageId(pid, vpn)).frame == PteOf(old(tables), PageId(pid, vpn)).frame
      ensures PteOf(tables, PageId(pid, vpn)).dirty == (write || PteOf(old(tables), PageId(pid, vpn)).dirty)
      ensures old(Tracked()) ==> Tracked()
      ensures V.Moves(old(Snap()), Snap(), None, None, Some(PageId(pid, vpn)), tick)
    {
      hide Ok, Abstract, Touched, Tlb.Coherent, Count, TlbOk, NoDuplicates, Lists, Tlb.InsertSlot, V.Moves, V.ViewOk, Tlb.Cached;
      SnapOk();
      var g := PageId(pid, vpn);
      ghost var m := State();
      ResidentFacts(m, g);
      var e := PteOf(tables, g);
      var e' := e.(accessed := true, referenced := true, lastAccessed := tick, dirty := e.dirty || write);
      Mark(pid, vpn, e', write);
      policy.Update(e.frame, tick);
      ListsMore(old(policy.pages), policy.pages, frames.owner);
      ghost var k := tlb.Insert(vpn, e.frame, e'.dirty, e.perm, tick);
      InsertTouched(old(tlb.entries), k, tlb.entries[k], m.tables, g, e');
      Tlb.CachedInsert(old(tlb.entries), k, tlb.entries[k]);
      SnapOk();
      V.WalkMoves(old(Snap()), Snap(), e.frame, g, tick);
      pfn := e.frame;
    }

    /** Brings a page of the running process within reach (pager_access_page). On success the page is resident
        in frame pfn, and exactly what the specification says has happened to it and to the victim. */
    method AccessPage(pid: int, vpn: nat, write: bool, tick: nat) returns (res: Access, pfn: int, ghost victim: Option<PageId>)
      requires Valid() && vpn < NUM_PAGES && (pid in tables ==> running == pid)
      modifies this, frames, swap, tlb`entries, policy
      ensures Valid() && running == old(running) && tables.Keys == old(tables.Keys)
      ensures res == ErrorAddr <==> pid !in old(tables)
      ensures res == ErrorPerm <==> pid in old(tables) && !Allows(DefaultPerm(vpn), write)
      ensures res == Hit <==> old(IsPresent(State(), PageId(pid, vpn))) && Allows(DefaultPerm(vpn), write)
      ensures res == MajorFault ==> PageId(pid, vpn) in old(Shown()).swapped
      ensures res == MinorFault ==> PageId(pid, vpn) !in old(Shown()).swapped
      ensures victim.Some? ==> pid in old(tables) && old(Chosen(victim.value))
      ensures var a, g := old(Shown()), PageId(pid, vpn);
              && (Granted(res) ==> MayAccess(a, g, victim) && Shown() == Accessed(a, g, write, victim))
              && (!Granted(res) ==> Shown() == a)
              && (res == ErrorOom ==> MayRefuse(a, g, victim))
              && (res in {ErrorPerm, ErrorAddr} ==> victim.None?)
      ensures Granted(res) ==> && IsPresent(State(), PageId(pid, vpn))
                               && PteOf(tables, PageId(pid, vpn)).frame == pfn
                               && (write ==> PteOf(tables, PageId(pid, vpn)).dirty)
      ensures old(Tracked()) ==> (Tracked() <==> res != ErrorOom) && (res == ErrorOom ==> victim.Some?)
      ensures evictions == if Granted(res) && victim.Some? then old(evictions) + 1 else old(evictions)
      ensures minor == (if res == MinorFault then old(minor) + 1 else old(minor))
              && major == (if res == MajorFault then old(major) + 1 else old(major))
      ensures var g := Some(PageId(pid, vpn));
              V.Moves(old(Snap()), Snap(), victim, if Granted(res) && res != Hit then g else None,
                      if Granted(res) then g else None, tick)
    {
      hide Ok, Abstract, Accessed, Touched, MayAccess, MayRefuse, Tlb.Coherent, Count, TlbOk, NoDuplicates, Lists,
        VictimAt, Full, DefaultPerm, Allows, V.Moves, V.ViewOk, Tlb.Cached;
      pfn, victim := -1, None;
      SnapOk();
      V.Still(Snap(), tick);
      if pid !in tables {
        return ErrorAddr, pfn, victim;
      }
      TableSize(State(), pid);
      var g := PageId(pid, vpn);
      var e := PteOf(tables, g);
      PermFacts(State(), g);
      Showing(State(), g);
      if !Allows(e.perm, write) {
        return ErrorPerm, pfn, victim;
      }
      if e.present {
        HitIsTouch(Shown(), g, write);
        pfn := HitPage(pid, vpn, write, tick);
        return Hit, pfn, victim;
      }
      pfn, victim := Fault(pid, vpn, write, tick);
      res := if pfn < 0 then ErrorOom else if e.inSwap then MajorFault else MinorFault;
    }

    /** The TLB knows the page: the walk would find the same frame and permissions (vm.c's hit branch). */
    method TlbHit(pid: int, vpn: nat, write: bool, tick: nat, index: nat) returns (pfn: int)
      requires Valid() && pid in tables && running == pid
      requires index < |tlb.entries| && tlb.entries[index].valid && tlb.entries[index].vpn == vpn
      modifies `tables, `reloaded, tlb`entries
      ensures Valid() && tables.Keys == old(tables.Keys)
      ensures 0 <= pfn <==> Allows(DefaultPerm(vpn), write)
      ensures PageId(pid, vpn) in old(Shown()).resident
      ensures Shown() == if 0 <= pfn then Touched(old(Shown()), PageId(pid, vpn), write) else old(Shown())
      ensures 0 <= pfn ==> && IsPresent(State(), PageId(pid, vpn)) && old(IsPresent(State(), PageId(pid, vpn)))
                           && pfn == PteOf(tables, PageId(pid, vpn)).frame == PteOf(old(tables), PageId(pid, vpn)).frame
      ensures 0 <= pfn && write ==> PteOf(tables, PageId(pid, vpn)).dirty
      ensures V.Moves(old(Snap()), Snap(), None, None, None, tick)
    {
      hide Ok, Abstract, Touched, Count, NoDuplicates, Tlb.Coherent, TlbOk, Tlb.InsertSlot, V.Moves, V.ViewOk, V.SameBits,
        Tlb.Cached;
      SnapOk();
      V.Still(Snap(), tick);
      var g := PageId(pid, vpn);
      ghost var m := State();
      var entry := tlb.entries[index];
      EntryFacts(m, tlb.entries, index, g);
      Showing(m, g);
      if !Allows(entry.perm, write) {
        return -1;
      }
      var e := PteOf(tables, g);
      var e' := e.(accessed := true, dirty := e.dirty || write);
      Mark(pid, vpn, e', write);
      if write && !entry.dirty {
        ghost var k := tlb.Insert(vpn, entry.pfn, true, entry.perm, tick);
        InsertTouched(old(tlb.entries), k, tlb.entries[k], m.tables, g, e');
        Tlb.CachedInsert(old(tlb.entries), k, tlb.entries[k]);
      } else {
        SameEntries(tlb.entries, m.tables, g, e');
      }
      EntrySameBits(m.tables, g, e');
      SnapOk();
      V.Unnoticed(old(Snap()), Snap(), tick);
      pfn := entry.pfn;
    }

    /** Finds the frame of a page of the running process: through the TLB, or through the pager on a miss.
        Negative when access is refused or memory has run out. */
    method Translate(pid: int, vpn: nat, write: bool, tick: nat) returns (pfn: int, ghost victim: Option<PageId>)
      requires Valid() && pid in tables && running == pid && vpn < NUM_PAGES
      modifies this, frames, swap, tlb, policy
      ensures Valid() && running == old(running) && tables.Keys == old(tables.Keys)
      ensures var a, g := old(Shown()), PageId(pid, vpn);
              if 0 <= pfn then
                && Allows(DefaultPerm(vpn), write) && MayAccess(a, g, victim) && Shown() == Accessed(a, g, write, victim)
              else
                && Shown() == a
                && if Allows(DefaultPerm(vpn), write) then MayRefuse(a, g, victim) else victim.None?
      ensures 0 <= pfn ==> IsPresent(State(), PageId(pid, vpn)) && PteOf(tables, PageId(pid, vpn)).frame == pfn
      ensures 0 <= pfn && write ==> PteOf(tables, PageId(pid, vpn)).dirty
      ensures victim.Some? ==> old(Chosen(victim.value))
      ensures old(Tracked()) ==>
                && (Tracked() <==> 0 <= pfn || !Allows(DefaultPerm(vpn), write))
                && (pfn < 0 && Allows(DefaultPerm(vpn), write) ==> victim.Some?)
      ensures vpn in Tlb.Cached(old(tlb.entries)) ==> PageId(pid, vpn) in old(Shown()).resident
      ensures var g := PageId(pid, vpn);
              V.Moves(old(Snap()), Snap(), victim, if 0 <= pfn && g !in old(Shown()).resident then Some(g) else None,
                      if 0 <= pfn && vpn !in Tlb.Cached(old(tlb.entries)) then Some(g) else None, tick)
    {
      hide Ok, Abstract, Evicted, Brought, Touched, Tlb.Coherent, Count, TlbOk, NoDuplicates, Lists, Tlb.InsertSlot,
        VictimAt, MayRefuse, V.Moves, V.ViewOk, Tlb.Cached;
      var g := PageId(pid, vpn);
      victim := None;
      TableSize(State(), pid);
      Showing(State(), g);
      var index := tlb.Lookup(vpn, tick);
      if 0 <= index {
        Stamped(old(tlb.entries), index, tick, tables, pid);
        Tlb.CachedStamp(old(tlb.entries), index, tick);
        pfn := TlbHit(pid, vpn, write, tick, index);
      } else {
        var res;
        res, pfn, victim := AccessPage(pid, vpn, write, tick);
        if !Granted(res) {
          return -1, victim;
        }
        var e := PteOf(tables, g);
        ghost var es, v := tlb.entries, Snap();
        ghost var k := tlb.Insert(vpn, pfn, e.dirty, e.perm, tick);
        SetSame(tables, g);
        InsertTouched(es, k, tlb.entries[k], tables, g, e);
        Tlb.CachedInsert(es, k, tlb.entries[k]);
        V.KnownAgain(old(Snap()), v, Snap(), victim, if res != Hit then Some(g) else None, g, tick);
      }
    }

    /** One byte of the running process, as one event of the specification's machine. */
    method ReadByte(pid: int, addr: nat, tick: nat, ghost s: Machine) returns (val: Option<bv8>, ghost e: Event, ghost n: L.Note)
      requires Shows(s) && pid in tables && running == pid && addr < SPACE
      modifies this, frames, swap, tlb, policy
      ensures Enabled(s, e) && Shows(Apply(s, e)) && tables.Keys == old(tables.Keys) && running == old(running)
      ensures if val.Some? then e.Loads? && e == Loads(pid, addr, val.value, e.victim)
              else e.Refuses? && e == Refuses(pid, addr, false, e.victim)
      ensures e.victim.Some? ==> old(Chosen(e.victim.value))
      ensures n == if !e.Refuses? && addr / PAGE_SIZE !in Tlb.Cached(old(tlb.entries)) then L.Walk(tick) else L.Quiet
      ensures addr / PAGE_SIZE in Tlb.Cached(old(tlb.entries)) ==> PageAt(pid, addr) in s.paged.resident
      ensures V.Moves(old(Snap()), Snap(), F.GoneBy(e), F.ComeBy(s, e), L.UsedBy(e, n), tick)
    {
      hide Ok, Abstract, Accessed, MayAccess, MayRefuse, Tlb.Coherent, Count, TlbOk, NoDuplicates, FlatOk, Lists,
        VictimAt, V.Moves, V.ViewOk, Tlb.Cached;
      var g := PageId(pid, addr / PAGE_SIZE);
      n := L.Quiet;
      ghost var a := Shown();
      Showing(State(), g);
      var pfn;
      ghost var victim;
      pfn, victim := Translate(pid, g.vpn, false, tick);
      if pfn < 0 {
        return None, Refuses(pid, addr, false, victim), n;
      }
      ResidentFacts(State(), g);
      Showing(State(), g);
      Undisturbed(a, g, victim, false);
      val := Some(frames.ram[pfn * PAGE_SIZE + addr % PAGE_SIZE]);
      assert Block(frames.ram, pfn)[addr % PAGE_SIZE] == frames.ram[pfn * PAGE_SIZE + addr % PAGE_SIZE];
      e := Loads(pid, addr, val.value, victim);
      n := if g.vpn in Tlb.Cached(old(tlb.entries)) then L.Quiet else L.Walk(tick);
    }

    /** A byte stored in the frame of a dirty page. */
    method StoreByte(pid: int, addr: nat, val: bv8, pfn: nat)
      requires Valid() && addr < SPACE && IsPresent(State(), PageAt(pid, addr))
      requires PteOf(tables, PageAt(pid, addr)).frame == pfn && PteOf(tables, PageAt(pid, addr)).dirty
      modifies frames`ram
      ensures Valid() && Shown() == Stored(old(Shown()), pid, addr, val)
    {
      hide Ok, Abstract, Tlb.Coherent, Count, TlbOk, NoDuplicates, Stored;
      ghost var m, g := State(), PageAt(pid, addr);
      ResidentFacts(m, g);
      StoreShows(m, g, addr, val);
      frames.ram := frames.ram[pfn * PAGE_SIZE + addr % PAGE_SIZE := val];
      assert State() == Store(m, g, addr % PAGE_SIZE, val);
    }

    method WriteByte(pid: int, addr: nat, val: bv8, tick: nat, ghost s: Machine) returns (ok: bool, ghost e: Event, ghost n: L.Note)
      requires Shows(s) && pid in tables && running == pid && addr < SPACE
      modifies this, frames, swap, tlb, policy
      ensures Enabled(s, e) && Shows(Apply(s, e)) && tables.Keys == old(tables.Keys) && running == old(running)
      ensures if ok then e.Stores? && e == Stores(pid, addr, val, e.victim)
              else e.Refuses? && e == Refuses(pid, addr, true, e.victim)
      ensures e.victim.Some? ==> old(Chosen(e.victim.value))
      ensures n == if !e.Refuses? && addr / PAGE_SIZE !in Tlb.Cached(old(tlb.entries)) then L.Walk(tick) else L.Quiet
      ensures addr / PAGE_SIZE in Tlb.Cached(old(tlb.entries)) ==> PageAt(pid, addr) in s.paged.resident
      ensures V.Moves(old(Snap()), Snap(), F.GoneBy(e), F.ComeBy(s, e), L.UsedBy(e, n), tick)
    {
      hide Ok, Abstract, Accessed, MayAccess, MayRefuse, Tlb.Coherent, Count, TlbOk, NoDuplicates, FlatOk, Lists,
        Stored, VictimAt, V.Moves, V.ViewOk, Tlb.Cached;
      var g := PageId(pid, addr / PAGE_SIZE);
      n := L.Quiet;
      Showing(State(), g);
      var pfn;
      ghost var victim;
      pfn, victim := Translate(pid, g.vpn, true, tick);
      ok := 0 <= pfn;
      if !ok {
        return false, Refuses(pid, addr, true, victim), n;
      }
      StoreByte(pid, addr, val, pfn);
      e := Stores(pid, addr, val, victim);
      n := if g.vpn in Tlb.Cached(old(tlb.entries)) then L.Quiet else L.Walk(tick);
    }

    /** vm_read_mem: len bytes from addr, or nothing, as the events it consists of. */
    method Read(pid: int, addr: nat, len: nat, tick: nat, ghost s: Machine, ghost t: L.Track)
      returns (dest: Option<seq<bv8>>, ghost es: seq<Event>, ghost ns: seq<L.Note>)
      requires Shows(s) && L.Fits(Snap(), t) && (pid in tables ==> running == pid)
      modifies this, frames, swap, tlb, policy
      ensures Possible(s, es) && Shows(After(s, es)) && Reading(s, pid, addr, len, dest, es)
      ensures L.Goes(t, s, es, ns, old(Snap()), Snap(), tick)
    {
      hide Ok, Abstract, Tlb.Coherent, Count, TlbOk, NoDuplicates, FlatOk, Lists, Enabled, Apply, After, Possible, L.Goes,
        L.Fits, V.Moves, Tlb.Cached, F.ComeBy, F.GoneBy, LoadsOf, Reading;
      es, ns := [], [];
      Nothing(s);
      L.GoesNone(t, s, Snap(), tick);
      Showing(State(), PageId(pid, 0));
      if pid !in tables || SPACE < addr + len {
        NothingRead(s, pid, addr, len);
        return None, es, ns;
      }
      var bytes := [];
      LoadsNone(pid, addr);
      while |bytes| < len
        invariant Possible(s, es) && Shows(After(s, es)) && running == pid && pid in tables && |bytes| <= len
        invariant LoadsOf(pid, addr, bytes, es)
        invariant L.Goes(t, s, es, ns, old(Snap()), Snap(), tick)
      {
        var val;
        ghost var e;
        ghost var mid := Snap();
        ghost var n;
        val, e, n := ReadByte(pid, addr + |bytes|, tick, After(s, es));
        OneMore(s, es, e);
        LoadsMore(s, pid, addr, len, bytes, es, e);
        L.GoesMore(t, s, es, ns, old(Snap()), mid, Snap(), e, n, tick);
        es, ns := es + [e], ns + [n];
        if val.None? {
          return None, es, ns;
        }
        bytes := bytes + [val.value];
      }
      LoadsDone(s, pid, addr, len, bytes, es);
      dest := Some(bytes);
    }

    /** vm_write_mem: stores src from addr on. When it fails part-way, the first bytes are stored. */
    method Write(pid: int, addr: nat, src: seq<bv8>, tick: nat, ghost s: Machine, ghost t: L.Track)
      returns (ok: bool, ghost es: seq<Event>, ghost ns: seq<L.Note>)
      requires Shows(s) && L.Fits(Snap(), t) && (pid in tables ==> running == pid)
      modifies this, frames, swap, tlb, policy
      ensures Possible(s, es) && Shows(After(s, es)) && Writing(s, pid, addr, src, ok, es)
      ensures L.Goes(t, s, es, ns, old(Snap()), Snap(), tick)
    {
      hide Ok, Abstract, Tlb.Coherent, Count, TlbOk, NoDuplicates, FlatOk, Lists, Enabled, Apply, After, Possible, L.Goes,
        L.Fits, V.Moves, Tlb.Cached, F.ComeBy, F.GoneBy, StoresOf, Writing;
      es, ns := [], [];
      Nothing(s);
      L.GoesNone(t, s, Snap(), tick);
      Showing(State(), PageId(pid, 0));
      if pid !in tables || SPACE < addr + |src| {
        NothingWritten(s, pid, addr, src);
        return false, es, ns;
      }
      var i := 0;
      LoadsNone(pid, addr);
      assert src[..0] == [];
      while i < |src|
        invariant Possible(s, es) && Shows(After(s, es)) && running == pid && pid in tables && i <= |src|
        invariant StoresOf(pid, addr, src[..i], es)
        invariant L.Goes(t, s, es, ns, old(Snap()), Snap(), tick)
      {
        var stored;
        ghost var e;
        ghost var mid := Snap();
        ghost var n;
        stored, e, n := WriteByte(pid, addr + i, src[i], tick, After(s, es));
        OneMore(s, es, e);
        StoresMore(s, pid, addr, src, i, es, e);
        L.GoesMore(t, s, es, ns, old(Snap()), mid, Snap(), e, n, tick);
        es, ns := es + [e], ns + [n];
        if !stored {
          return false, es, ns;
        }
        i := i + 1;
      }
      StoresDone(s, pid, addr, src, i, es);
      ok := true;
    }

    /** dispatch: another process runs, so the TLB is emptied. */
    method Switch(pid: int)
      requires Valid()
      modifies `running, tlb`entries
      ensures Valid() && running == pid && forall i :: 0 <= i < |tlb.entries| ==> !tlb.entries[i].valid
    {
      hide Ok, Count, NoDuplicates;
      tlb.Flush();
      running := pid;
    }

    /** A new process starts with an address space of zeros. */
    method CreateProcess(pid: int)
      requires Valid() && pid !in tables && pid != running
      modifies `tables
      ensures Valid() && tables == old(tables)[pid := NewTable()]
      ensures Shown() == Created(old(Shown()), pid)
    {
      hide Ok, Abstract, Count, NoDuplicates, Tlb.Coherent;
      CreateOk(State(), pid);
      CreateShows(State(), pid);
      tables := tables[pid := NewTable()];
    }

    /** pager_set_policy: the new policy lists every allocated frame, whatever the old one had lost. */
    method SetPolicy(kind: Kind)
      requires Valid()
      modifies policy
      ensures Valid() && Tracked() && policy.kind == kind
      ensures kind == Lru ==> forall i :: 0 <= i < |policy.pages| ==> policy.ticks[i] == 0
    {
      hide Ok, Count, NoDuplicates, TlbOk;
      policy.Reset(kind);
      var pfn := 0;
      while pfn < |frames.owner|
        invariant pfn <= |frames.owner| && policy.Valid() && policy.kind == kind
        invariant forall f :: 0 <= f < pfn && frames.owner[f].Some? ==> f in policy.pages
        invariant kind == Lru ==> forall i :: 0 <= i < |policy.pages| ==> policy.ticks[i] == 0
      {
        if frames.owner[pfn].Some? {
          policy.Insert(pfn, 0);
        }
        pfn := pfn + 1;
      }
    }

    /** vm_proc_destroy: frees the process's frames and slots, and exactly those. */
    method DestroyProcess(pid: int)
      requires Valid() && pid in tables
      modifies `tables, `reloaded, frames`owner, frames`used, swap`owner, swap`used, swap`free
      ensures Valid() && tables == old(tables) - {pid}
      ensures |frames.owner| == |old(frames.owner)| && |swap.owner| == |old(swap.owner)|
      ensures forall f :: 0 <= f < |frames.owner| ==>
                            frames.owner[f] == if OwnedBy(old(frames.owner)[f], pid) then None else old(frames.owner)[f]
      ensures forall s :: 0 <= s < |swap.owner| ==>
                            swap.owner[s] == if OwnedBy(old(swap.owner)[s], pid) then None else old(swap.owner)[s]
      ensures Shown() == Destroyed(old(Shown()), pid)
      ensures old(Tracked()) ==> Tracked()
    {
      hide Ok, Abstract, Count, NoDuplicates, TlbOk, Released, Lists;
      ghost var m := State();
      TableSize(m, pid);
      var pt := tables[pid];
      var vpn := 0;
      ReleasedNone(m.frameOwner, pid);
      ReleasedNone(m.slotOwner, pid);
      while vpn < NUM_PAGES
        invariant vpn <= NUM_PAGES && tables == old(tables) && reloaded == old(reloaded)
        invariant frames.Valid() && swap.Valid()
        invariant |frames.owner| == |m.frameOwner| && |swap.owner| == |m.slotOwner|
        invariant Released(m.frameOwner, frames.owner, pid, vpn) && Released(m.slotOwner, swap.owner, pid, vpn)
      {
        var e := pt[vpn];
        ReleaseFacts(m, pid, vpn);
        ReleaseStep(m.frameOwner, frames.owner, pid, vpn, if e.present then e.frame else -1);
        ReleaseStep(m.slotOwner, swap.owner, pid, vpn, if e.inSwap then e.slot else -1);
        if e.present {
          frames.Free(e.frame);
        }
        if e.inSwap {
          swap.Free(e.slot);
        }
        vpn := vpn + 1;
      }
      reloaded := set g | g in reloaded && g.pid != pid;
      tables := tables - {pid};
      DestroyOk(m, State(), pid);
      TlbShrink(tlb.entries, m.tables, running, pid);
      ListsFewer(policy.pages, m.frameOwner, frames.owner);
    }

    /** heap_grow's effect on the page table of pid, from page first on. */
    method GrowHeap(pid: int, first: nat, n: nat)
      requires Valid() && pid in tables && InHeap(first, n)
      modifies `tables
      ensures tables == old(tables)[pid := Grown(old(tables)[pid], first, n)]
      ensures Untouched(old(tables)[pid], first, n) ==>
                Valid() && State() == old(State())
    {
      hide Ok, Abstract, Count, NoDuplicates, TlbOk, Untouched;
      TableSize(State(), pid);
      var pt := tables[pid];
      if Untouched(pt, first, n) {
        GrowSame(State(), pid, first, n);
      }
      var i := 0;
      while i < n
        invariant i <= n && |pt| == NUM_PAGES && pt == Grown(old(tables)[pid], first, i)
      {
        pt := pt[first + i := pt[first + i].(perm := Perm(true, true, false), present := false, inSwap := false)];
        i := i + 1;
      }
      tables := tables[pid := pt];
      assert pt == old(tables)[pid] ==> tables == old(tables);
    }
  }
}
