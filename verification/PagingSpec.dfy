/** What the pager is meant to be, without tables, frames or slots: flat memories, and which pages are in RAM, modified,
    in swap, or in RAM with nothing to back them. Only the choice of victims is left open. */
module PagingSpec {
  import opened VmTypes
  import opened PageTables
  import opened Ownership
  import opened FlatMemory

  datatype Paged = Paged(
    mem: Flat, resident: set<PageId>, dirty: set<PageId>, swapped: set<PageId>,
    /** Resident clean pages that a read brought back from swap. */
    reloaded: set<PageId>,
    frames: nat, slots: nat)

  /** v leaves RAM: to swap if it is dirty. A reloaded page is clean and has no copy, so it is forgotten. */
  ghost function Evicted(a: Paged, v: PageId): Paged {
    a.(mem := if v in a.reloaded then Drop(a.mem, Some(v)) else a.mem,
       resident := a.resident - {v}, dirty := a.dirty - {v}, reloaded := a.reloaded - {v},
       swapped := if v in a.dirty then a.swapped + {v} else a.swapped)
  }

  /** g comes into RAM and leaves swap. */
  ghost function Brought(a: Paged, g: PageId, write: bool): Paged {
    a.(resident := a.resident + {g}, swapped := a.swapped - {g},
       dirty := if write then a.dirty + {g} else a.dirty,
       reloaded := if g in a.swapped && !write then a.reloaded + {g} else a.reloaded)
  }

  ghost function Touched(a: Paged, g: PageId, write: bool): Paged {
    if write then a.(dirty := a.dirty + {g}, reloaded := a.reloaded - {g}) else a
  }

  /** An access to g that evicts the given victim, if any. */
  ghost function Accessed(a: Paged, g: PageId, write: bool, victim: Option<PageId>): Paged {
    if g in a.resident then Touched(a, g, write)
    else Brought(if victim.Some? then Evicted(a, victim.value) else a, g, write)
  }

  /** A victim is given up exactly when an absent page meets full RAM; a dirty one needs room in swap. */
  ghost predicate MayAccess(a: Paged, g: PageId, victim: Option<PageId>) {
    if g in a.resident || |a.resident| < a.frames then victim.None?
    else victim.Some? && victim.value in a.resident && (victim.value in a.dirty ==> |a.swapped| < a.slots)
  }

  /** Memory has run out: g is absent, RAM is full, and the victim, if there is one, is dirty with swap full. */
  ghost predicate MayRefuse(a: Paged, g: PageId, victim: Option<PageId>) {
    && g !in a.resident && a.frames <= |a.resident|
    && (victim.Some? ==> victim.value in a.resident && victim.value in a.dirty && a.slots <= |a.swapped|)
  }

  ghost function Created(a: Paged, pid: int): Paged {
    a.(mem := a.mem[pid := ZeroSpace()])
  }

  ghost function NotOf(s: set<PageId>, pid: int): (r: set<PageId>)
    ensures forall g :: g in r <==> g in s && g.pid != pid
  {
    set g | g in s && g.pid != pid
  }

  ghost function Destroyed(a: Paged, pid: int): Paged {
    a.(mem := a.mem - {pid}, resident := NotOf(a.resident, pid), dirty := NotOf(a.dirty, pid),
       swapped := NotOf(a.swapped, pid), reloaded := NotOf(a.reloaded, pid))
  }

  // ----- histories -----

  /** The paged memory, whether every frame in use is listed with the replacement policy, and who runs. */
  datatype Machine = Machine(paged: Paged, listed: bool, runner: int)

  /** What happens to single bytes, and to processes. */
  datatype Event =
    | Loads(pid: int, addr: nat, val: bv8, victim: Option<PageId>)
    | Stores(pid: int, addr: nat, val: bv8, victim: Option<PageId>)
    | Refuses(pid: int, addr: nat, write: bool, victim: Option<PageId>)
    | Creates(pid: int)
    | Destroys(pid: int)
    | Switches(pid: int)
    | Relists

  /** Whether the event can happen in this state. While all frames are listed, memory runs out over a dirty victim
      only. */
  ghost predicate Enabled(s: Machine, e: Event) {
    match e
    case Loads(pid, addr, val, victim) =>
      && InSpace(s.paged.mem, pid, addr) && MayAccess(s.paged, PageAt(pid, addr), victim)
      && val == Peek(s.paged.mem, pid, addr)
    case Stores(pid, addr, val, victim) =>
      InSpace(s.paged.mem, pid, addr) && WritableAt(addr) && MayAccess(s.paged, PageAt(pid, addr), victim)
    case Refuses(pid, addr, write, victim) =>
      && InSpace(s.paged.mem, pid, addr)
      && if write && !WritableAt(addr) then victim.None?
         else MayRefuse(s.paged, PageAt(pid, addr), victim) && (s.listed ==> victim.Some?)
    case Creates(pid) => pid !in s.paged.mem && pid != s.runner
    case Destroys(pid) => pid in s.paged.mem
    case Switches(_) => true
    case Relists => true
  }

  ghost function Stored(a: Paged, pid: int, addr: nat, val: bv8): Paged {
    a.(mem := if InSpace(a.mem, pid, addr) then Poke(a.mem, pid, addr, val) else a.mem)
  }

  ghost function Apply(s: Machine, e: Event): (r: Machine)
    ensures r.paged.frames == s.paged.frames && r.paged.slots == s.paged.slots
  {
    match e
    case Loads(pid, addr, _, victim) => s.(paged := Accessed(s.paged, PageAt(pid, addr), false, victim))
    case Stores(pid, addr, val, victim) =>
      s.(paged := Stored(Accessed(s.paged, PageAt(pid, addr), true, victim), pid, addr, val))
    case Refuses(_, addr, write, _) => s.(listed := s.listed && write && !WritableAt(addr))
    case Creates(pid) => s.(paged := Created(s.paged, pid))
    case Destroys(pid) => s.(paged := Destroyed(s.paged, pid))
    case Switches(pid) => s.(runner := pid)
    case Relists => s.(listed := true)
  }

  ghost function After(s: Machine, es: seq<Event>): (r: Machine)
    ensures r.paged.frames == s.paged.frames && r.paged.slots == s.paged.slots
  {
    if es == [] then s else Apply(After(s, es[..|es| - 1]), es[|es| - 1])
  }

  ghost predicate Possible(s: Machine, es: seq<Event>) {
    es == [] || (Possible(s, es[..|es| - 1]) && Enabled(After(s, es[..|es| - 1]), es[|es| - 1]))
  }

  lemma OneMore(s: Machine, es: seq<Event>, e: Event)
    ensures After(s, es + [e]) == Apply(After(s, es), e)
    ensures Possible(s, es + [e]) <==> Possible(s, es) && Enabled(After(s, es), e)
  {
    assert (es + [e])[..|es|] == es;
  }

  lemma JustOne(s: Machine, e: Event)
    ensures After(s, [e]) == Apply(s, e) && (Possible(s, [e]) <==> Enabled(s, e))
  {
    assert [] + [e] == [e];
    OneMore(s, [], e);
  }

  /** A history goes on from where another one ended. */
  lemma {:induction false} GoOn(s: Machine, es: seq<Event>, fs: seq<Event>)
    ensures After(s, es + fs) == After(After(s, es), fs)
    ensures Possible(s, es + fs) <==> Possible(s, es) && Possible(After(s, es), fs)
  {
    if fs == [] {
      assert es + fs == es;
    } else {
      var k := |fs| - 1;
      GoOn(s, es, fs[..k]);
      assert (es + fs)[..|es + fs| - 1] == es + fs[..k];
    }
  }

  lemma Nothing(s: Machine)
    ensures After(s, []) == s && Possible(s, [])
  {
  }

  // ----- byte loops as histories -----

  ghost predicate LoadsFrom(pid: int, addr: nat, es: seq<Event>) {
    forall i :: 0 <= i < |es| ==> es[i].Loads? && es[i].pid == pid && es[i].addr == addr + i
  }

  ghost predicate LoadsOf(pid: int, addr: nat, bytes: seq<bv8>, es: seq<Event>) {
    LoadsFrom(pid, addr, es) && |es| == |bytes| && forall i :: 0 <= i < |es| ==> es[i].val == bytes[i]
  }

  ghost predicate StoresOf(pid: int, addr: nat, src: seq<bv8>, es: seq<Event>) {
    && |es| == |src|
    && forall i :: 0 <= i < |es| ==>
                     es[i].Stores? && es[i].pid == pid && es[i].addr == addr + i && es[i].val == src[i]
  }

  ghost predicate RefusedAt(pid: int, addr: nat, write: bool, e: Event) {
    e.Refuses? && e.pid == pid && e.addr == addr && e.write == write
  }

  /** A read outside the address space, or by nobody, is refused outright; any other one loads byte by byte and gives
      up only where a byte is refused. */
  ghost predicate Reading(s: Machine, pid: int, addr: nat, len: nat, dest: Option<seq<bv8>>, es: seq<Event>) {
    if pid !in s.paged.mem || SPACE < addr + len then dest.None? && es == []
    else if dest.Some? then |dest.value| == len && LoadsOf(pid, addr, dest.value, es)
    else
      && 0 < |es| <= len && RefusedAt(pid, addr + |es| - 1, false, es[|es| - 1])
      && LoadsFrom(pid, addr, es[..|es| - 1])
  }

  ghost predicate Writing(s: Machine, pid: int, addr: nat, src: seq<bv8>, ok: bool, es: seq<Event>) {
    if pid !in s.paged.mem || SPACE < addr + |src| then !ok && es == []
    else if ok then StoresOf(pid, addr, src, es)
    else
      && 0 < |es| <= |src| && RefusedAt(pid, addr + |es| - 1, true, es[|es| - 1])
      && StoresOf(pid, addr, src[..|es| - 1], es[..|es| - 1])
  }

  lemma LoadsNone(pid: int, addr: nat)
    ensures LoadsOf(pid, addr, [], []) && StoresOf(pid, addr, [], [])
  {
  }

  lemma NothingRead(s: Machine, pid: int, addr: nat, len: nat)
    requires pid !in s.paged.mem || SPACE < addr + len
    ensures Reading(s, pid, addr, len, None, [])
  {
  }

  lemma NothingWritten(s: Machine, pid: int, addr: nat, src: seq<bv8>)
    requires pid !in s.paged.mem || SPACE < addr + |src|
    ensures Writing(s, pid, addr, src, false, [])
  {
  }

  /** One byte more, or the byte at which the read gives up. */
  lemma LoadsMore(s: Machine, pid: int, addr: nat, len: nat, bytes: seq<bv8>, es: seq<Event>, e: Event)
    requires LoadsOf(pid, addr, bytes, es) && |bytes| < len && pid in s.paged.mem && addr + len <= SPACE
    ensures e.Loads? && e.pid == pid && e.addr == addr + |bytes| ==> LoadsOf(pid, addr, bytes + [e.val], es + [e])
    ensures RefusedAt(pid, addr + |bytes|, false, e) ==> Reading(s, pid, addr, len, None, es + [e])
  {
    assert (es + [e])[..|es|] == es;
  }

  lemma LoadsDone(s: Machine, pid: int, addr: nat, len: nat, bytes: seq<bv8>, es: seq<Event>)
    requires LoadsOf(pid, addr, bytes, es) && |bytes| == len && pid in s.paged.mem && addr + len <= SPACE
    ensures Reading(s, pid, addr, len, Some(bytes), es)
  {
  }

  lemma StoresMore(s: Machine, pid: int, addr: nat, src: seq<bv8>, i: nat, es: seq<Event>, e: Event)
    requires i < |src| && StoresOf(pid, addr, src[..i], es) && pid in s.paged.mem && addr + |src| <= SPACE
    ensures e.Stores? && e.pid == pid && e.addr == addr + i && e.val == src[i] ==> StoresOf(pid, addr, src[..i + 1], es + [e])
    ensures RefusedAt(pid, addr + i, true, e) ==> Writing(s, pid, addr, src, false, es + [e])
  {
    assert (es + [e])[..|es|] == es;
  }

  lemma StoresDone(s: Machine, pid: int, addr: nat, src: seq<bv8>, i: nat, es: seq<Event>)
    requires i == |src| && StoresOf(pid, addr, src[..i], es) && pid in s.paged.mem && addr + |src| <= SPACE
    ensures Writing(s, pid, addr, src, true, es)
  {
    assert src[..i] == src;
  }
}
