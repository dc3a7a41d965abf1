/** What follows for every history of the specification's machine: what a load returns, and when memory suffices. */
module PagingTheorems {
  import opened VmTypes
  import opened PageTables
  import opened Ownership
  import opened FlatMemory
  import opened PagingSpec
  import opened Sequences

  ghost function Start(frames: nat, slots: nat): Machine {
    Machine(Paged(map[], {}, {}, {}, {}, frames, slots), true, -1)
  }

  // ----- loads return the last store -----

  /** The event evicts page g, which a read had brought back from swap and nothing has written since. */
  ghost predicate Forgets(s: Machine, e: Event, g: PageId) {
    && (e.Loads? || e.Stores?) && e.victim == Some(g) && g in s.paged.reloaded
    && PageAt(e.pid, e.addr) !in s.paged.resident
  }

  /** The byte last stored at addr by pid, 0 if there is none since the process began or since its page was forgotten. */
  ghost function Last(s: Machine, es: seq<Event>, pid: int, addr: nat): bv8 {
    if es == [] then 0
    else
      var rest, e := es[..|es| - 1], es[|es| - 1];
      if e.Stores? && e.pid == pid && e.addr == addr then e.val
      else if e.Creates? && e.pid == pid then 0
      else if Forgets(After(s, rest), e, PageAt(pid, addr)) then 0
      else Last(s, rest, pid, addr)
  }

  /** The same without forgetting: the plain meaning of a memory. */
  ghost function LastStored(es: seq<Event>, pid: int, addr: nat): bv8 {
    if es == [] then 0
    else
      var rest, e := es[..|es| - 1], es[|es| - 1];
      if e.Stores? && e.pid == pid && e.addr == addr then e.val
      else if e.Creates? && e.pid == pid then 0
      else LastStored(rest, pid, addr)
  }

  lemma PeekDrop(m: Flat, g: PageId, pid: int, addr: nat)
    requires FlatOk(m)
    ensures FlatOk(Drop(m, Some(g))) && Drop(m, Some(g)).Keys == m.Keys
    ensures InSpace(m, pid, addr) ==>
              Peek(Drop(m, Some(g)), pid, addr) == if g == PageAt(pid, addr) then 0 else Peek(m, pid, addr)
  {
  }

  lemma PeekZero(m: Flat, p: int, pid: int, addr: nat)
    requires FlatOk(m)
    ensures FlatOk(m[p := ZeroSpace()])
    ensures InSpace(m[p := ZeroSpace()], pid, addr) ==>
              if pid == p then Peek(m[p := ZeroSpace()], pid, addr) == 0
              else InSpace(m, pid, addr) && Peek(m[p := ZeroSpace()], pid, addr) == Peek(m, pid, addr)
  {
  }

  /** What an access does to one byte. */
  lemma PeekAccessed(a: Paged, g: PageId, write: bool, victim: Option<PageId>, pid: int, addr: nat)
    requires FlatOk(a.mem)
    ensures var b := Accessed(a, g, write, victim);
            && FlatOk(b.mem) && b.mem.Keys == a.mem.Keys
            && (InSpace(a.mem, pid, addr) ==>
                  Peek(b.mem, pid, addr) ==
                  if g !in a.resident && victim == Some(PageAt(pid, addr)) && PageAt(pid, addr) in a.reloaded then 0
                  else Peek(a.mem, pid, addr))
  {
    hide FlatOk, Peek, Drop;
    if victim.Some? {
      PeekDrop(a.mem, victim.value, pid, addr);
    }
  }

  /** One event, seen from one byte. */
  lemma PeekApply(s: Machine, e: Event, pid: int, addr: nat)
    requires FlatOk(s.paged.mem) && Enabled(s, e)
    ensures var m, n := s.paged.mem, Apply(s, e).paged.mem;
            && FlatOk(n)
            && (InSpace(n, pid, addr) ==>
                  if e.Stores? && e.pid == pid && e.addr == addr then Peek(n, pid, addr) == e.val
                  else if e.Creates? && e.pid == pid then Peek(n, pid, addr) == 0
                  else InSpace(m, pid, addr) &&
                       Peek(n, pid, addr) == if Forgets(s, e, PageAt(pid, addr)) then 0 else Peek(m, pid, addr))
  {
    hide Peek, Poke, Accessed, MayAccess, MayRefuse;
    var m := s.paged.mem;
    match e
    case Loads(p, ad, _, victim) =>
      PeekAccessed(s.paged, PageAt(p, ad), false, victim, pid, addr);
    case Stores(p, ad, val, victim) =>
      PeekAccessed(s.paged, PageAt(p, ad), true, victim, pid, addr);
      var b := Accessed(s.paged, PageAt(p, ad), true, victim).mem;
      if InSpace(b, pid, addr) {
        PeekPoke(b, p, ad, val, pid, addr);
      }
    case Creates(p) => PeekZero(m, p, pid, addr);
    case Destroys(p) => PeekGone(m, p, pid, addr);
    case _ =>
  }

  lemma PeekGone(m: Flat, p: int, pid: int, addr: nat)
    requires FlatOk(m)
    ensures FlatOk(m - {p})
    ensures InSpace(m - {p}, pid, addr) ==> InSpace(m, pid, addr) && Peek(m - {p}, pid, addr) == Peek(m, pid, addr)
  {
  }

  /** In every history each byte holds what was last stored there, or 0 once its page was forgotten. */
  lemma {:induction false} MemoryIsLast(frames: nat, slots: nat, es: seq<Event>, pid: int, addr: nat)
    requires Possible(Start(frames, slots), es)
    ensures FlatOk(After(Start(frames, slots), es).paged.mem)
    ensures InSpace(After(Start(frames, slots), es).paged.mem, pid, addr) ==>
              Peek(After(Start(frames, slots), es).paged.mem, pid, addr) == Last(Start(frames, slots), es, pid, addr)
  {
    hide Peek, Enabled, Apply, FlatOk;
    var s := Start(frames, slots);
    if es == [] {
      assert FlatOk(map[]) by {
        EmptyOk();
      }
    } else {
      var rest, e := es[..|es| - 1], es[|es| - 1];
      MemoryIsLast(frames, slots, rest, pid, addr);
      PeekApply(After(s, rest), e, pid, addr);
    }
  }

  lemma EmptyOk()
    ensures FlatOk(map[])
  {
  }

  /** Every load of a history returns the byte last stored there, unless its page was forgotten since. */
  lemma LoadsReturnLast(frames: nat, slots: nat, es: seq<Event>, k: nat)
    requires Possible(Start(frames, slots), es) && k < |es| && es[k].Loads?
    ensures es[k].val == Last(Start(frames, slots), es[..k], es[k].pid, es[k].addr)
  {
    Prefix(Start(frames, slots), es, k);
    MemoryIsLast(frames, slots, es[..k], es[k].pid, es[k].addr);
  }

  lemma {:induction false} Prefix(s: Machine, es: seq<Event>, k: nat)
    requires Possible(s, es) && k < |es|
    ensures Possible(s, es[..k]) && Enabled(After(s, es[..k]), es[k])
  {
    var n := |es| - 1;
    if k < n {
      Prefix(s, es[..n], k);
      assert es[..n][..k] == es[..k];
    }
  }

  /** No page that a read brought back from swap is evicted before it is written again. */
  ghost predicate NothingForgotten(s: Machine, es: seq<Event>) {
    forall k, g :: 0 <= k < |es| ==> !Forgets(After(s, es[..k]), es[k], g)
  }

  /** Then the memory is a plain one. */
  lemma {:induction false} NothingLost(s: Machine, es: seq<Event>, pid: int, addr: nat)
    requires NothingForgotten(s, es)
    ensures Last(s, es, pid, addr) == LastStored(es, pid, addr)
  {
    hide Forgets;
    if es != [] {
      var n := |es| - 1;
      assert es[..n] == es[..n][..];
      assert !Forgets(After(s, es[..n]), es[n], PageAt(pid, addr));
      forall k, g | 0 <= k < n
        ensures !Forgets(After(s, es[..n][..k]), es[..n][k], g)
      {
        assert es[..n][..k] == es[..k];
        assert !Forgets(After(s, es[..k]), es[k], g);
      }
      NothingLost(s, es[..n], pid, addr);
    }
  }

  // ----- enough memory -----

  /** Only pages of T are in RAM or swap, none in both. */
  ghost predicate Within(s: Machine, T: set<PageId>) {
    s.paged.resident + s.paged.swapped <= T && s.paged.resident !! s.paged.swapped
  }

  ghost predicate Uses(e: Event, T: set<PageId>) {
    e.Loads? || e.Stores? ==> PageAt(e.pid, e.addr) in T
  }

  lemma StaysWithin(s: Machine, e: Event, T: set<PageId>)
    requires Within(s, T) && Enabled(s, e) && Uses(e, T)
    ensures Within(Apply(s, e), T)
  {
    hide FlatOk, Poke, Drop, Peek, WritableAt;
  }

  /** With a frame for each page of T an absent page finds a free one: there is no victim. */
  lemma RoomLeft(s: Machine, g: PageId, T: set<PageId>)
    requires Within(s, T) && g in T && |T| <= s.paged.frames
    ensures g in s.paged.resident || |s.paged.resident| < s.paged.frames
  {
    if g !in s.paged.resident {
      SubsetSize(s.paged.resident + {g}, T);
    }
  }

  /** Memory runs out over a dirty victim only if T fills all frames and slots. */
  lemma NoRoom(s: Machine, g: PageId, victim: PageId, T: set<PageId>)
    requires Within(s, T) && MayRefuse(s.paged, g, Some(victim))
    ensures s.paged.frames + s.paged.slots <= |T|
  {
    SubsetSize(s.paged.resident + s.paged.swapped, T);
    assert |s.paged.resident + s.paged.swapped| == |s.paged.resident| + |s.paged.swapped|;
  }

  ghost predicate InPages(pid: int, addr: nat, n: nat, T: set<PageId>) {
    forall x :: addr <= x < addr + n ==> PageAt(pid, x) in T
  }

  /** What byte accesses of one process leave as it was. */
  ghost predicate Steady(s: Machine, t: Machine, T: set<PageId>) {
    && Within(t, T) && FlatOk(t.paged.mem) && t.paged.mem.Keys == s.paged.mem.Keys
    && t.listed == s.listed && t.runner == s.runner
  }

  lemma OneAccess(s: Machine, e: Event, T: set<PageId>)
    requires Within(s, T) && FlatOk(s.paged.mem) && Enabled(s, e) && (e.Loads? || e.Stores?) && PageAt(e.pid, e.addr) in T
    ensures Steady(s, Apply(s, e), T)
    ensures |T| <= s.paged.frames ==>
              InSpace(s.paged.mem, e.pid, e.addr) &&
              Apply(s, e).paged.mem == if e.Loads? then s.paged.mem else Poke(s.paged.mem, e.pid, e.addr, e.val)
  {
    hide FlatOk, Poke, Drop, Peek, WritableAt, Within;
    StaysWithin(s, e, T);
    PeekAccessed(s.paged, PageAt(e.pid, e.addr), e.Stores?, e.victim, e.pid, e.addr);
    PeekApply(s, e, e.pid, e.addr);
    if |T| <= s.paged.frames {
      RoomLeft(s, PageAt(e.pid, e.addr), T);
    }
  }

  /** The event reads what m holds. */
  ghost predicate ReadsOf(m: Flat, e: Event) {
    e.Loads? && InSpace(m, e.pid, e.addr) && e.val == Peek(m, e.pid, e.addr)
  }

  lemma {:induction false} LoadsSteady(s: Machine, pid: int, addr: nat, es: seq<Event>, T: set<PageId>)
    requires Within(s, T) && FlatOk(s.paged.mem) && Possible(s, es)
    requires LoadsFrom(pid, addr, es) && InPages(pid, addr, |es|, T)
    ensures Steady(s, After(s, es), T)
    ensures |T| <= s.paged.frames ==>
              After(s, es).paged.mem == s.paged.mem && forall i :: 0 <= i < |es| ==> ReadsOf(s.paged.mem, es[i])
  {
    hide FlatOk, Peek, Within, Apply;
    if es != [] {
      var n := |es| - 1;
      LoadsSteady(s, pid, addr, es[..n], T);
      OneAccess(After(s, es[..n]), es[n], T);
      if |T| <= s.paged.frames {
        forall i | 0 <= i < |es|
          ensures ReadsOf(s.paged.mem, es[i])
        {
          if i < n {
            assert es[..n][i] == es[i];
          }
        }
      }
    }
  }

  lemma {:induction false} StoresSteady(s: Machine, pid: int, addr: nat, src: seq<bv8>, es: seq<Event>, T: set<PageId>)
    requires Within(s, T) && FlatOk(s.paged.mem) && Possible(s, es) && pid in s.paged.mem && addr + |src| <= SPACE
    requires StoresOf(pid, addr, src, es) && InPages(pid, addr, |es|, T)
    ensures Steady(s, After(s, es), T)
    ensures forall x :: addr <= x < addr + |es| ==> WritableAt(x)
    ensures |T| <= s.paged.frames ==> After(s, es).paged.mem == WriteAll(s.paged.mem, pid, addr, src)
  {
    hide FlatOk, Peek, Poke, Within, Apply, WritableAt;
    if es != [] {
      var n := |es| - 1;
      StoresSteady(s, pid, addr, src[..n], es[..n], T);
      OneAccess(After(s, es[..n]), es[n], T);
    }
  }

  /** A byte is refused for want of memory only when the pages in use fill RAM and swap. */
  lemma RefusedFor(s: Machine, e: Event, T: set<PageId>)
    requires Within(s, T) && Enabled(s, e) && e.Refuses? && s.listed && PageAt(e.pid, e.addr) in T
    ensures |T| < s.paged.frames + s.paged.slots || |T| <= s.paged.frames ==> e.write && !WritableAt(e.addr) && Apply(s, e) == s
  {
    hide FlatOk, Peek, WritableAt, Within;
    if !(e.write && !WritableAt(e.addr)) {
      NoRoom(s, PageAt(e.pid, e.addr), e.victim.value, T);
      if |T| <= s.paged.frames {
        RoomLeft(s, PageAt(e.pid, e.addr), T);
      }
    }
  }

  // ----- running out of memory -----

  ghost predicate OutOfMemory(e: Event) {
    e.Refuses? && !(e.write && !WritableAt(e.addr))
  }

  lemma {:induction false} ListedUntil(frames: nat, slots: nat, es: seq<Event>)
    requires forall k :: 0 <= k < |es| ==> !OutOfMemory(es[k])
    ensures After(Start(frames, slots), es).listed
  {
    hide WritableAt;
    if es != [] {
      var n := |es| - 1;
      forall k | 0 <= k < n
        ensures !OutOfMemory(es[..n][k])
      {
        assert es[..n][k] == es[k];
      }
      ListedUntil(frames, slots, es[..n]);
      assert !OutOfMemory(es[n]);
    }
  }

  /** The first time memory runs out, RAM is full, the policy has a victim, and it is dirty with swap full. */
  lemma FirstOutOfMemory(frames: nat, slots: nat, es: seq<Event>, k: nat)
    requires Possible(Start(frames, slots), es) && k < |es| && OutOfMemory(es[k])
    requires forall i :: 0 <= i < k ==> !OutOfMemory(es[i])
    ensures var a := After(Start(frames, slots), es[..k]).paged;
            && PageAt(es[k].pid, es[k].addr) !in a.resident && frames <= |a.resident| && slots <= |a.swapped|
            && es[k].victim.Some? && es[k].victim.value in a.resident && es[k].victim.value in a.dirty
  {
    hide Possible;
    Prefix(Start(frames, slots), es, k);
    assert forall i :: 0 <= i < k ==> es[..k][i] == es[i];
    ListedUntil(frames, slots, es[..k]);
  }
}
