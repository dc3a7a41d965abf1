/** Page replacement (replacement_fifo.c, replacement_lru.c, replacement_clock.c): which frame to give up. */
module Replacement {
  import opened VmTypes
  import opened Sequences

  datatype Kind = Fifo | Lru | Clock

  // ----- Clock: second chance on its own list -----

  /** The list entry k places after the hand, going round. */
  function At(pages: seq<nat>, hand: nat, k: nat): nat
    requires hand < |pages| && k <= |pages|
  {
    pages[Wrap(|pages|, hand + k)]
  }

  /** The first k entries from the hand are all referenced. */
  ghost predicate ReferencedRun(pages: seq<nat>, hand: nat, k: nat, pt: PageTable)
    requires hand < |pages| && k <= |pages| && forall i :: 0 <= i < |pages| ==> pages[i] < |pt|
  {
    forall j :: 0 <= j < k ==> pt[At(pages, hand, j)].referenced
  }

  /** Second chance stops k places after the hand: the first unreferenced entry, or, when a whole turn
      finds none, the hand's own entry (k == |pages|). */
  ghost predicate StopsAfter(pages: seq<nat>, hand: nat, k: nat, pt: PageTable)
    requires hand < |pages| && forall i :: 0 <= i < |pages| ==> pages[i] < |pt|
  {
    && k <= |pages|
    && ReferencedRun(pages, hand, k, pt)
    && (k < |pages| ==> !pt[At(pages, hand, k)].referenced)
  }

  /** The stopping place is unique. */
  lemma StopsAfterUnique(pages: seq<nat>, hand: nat, k: nat, k': nat, pt: PageTable)
    requires hand < |pages| && forall i :: 0 <= i < |pages| ==> pages[i] < |pt|
    requires StopsAfter(pages, hand, k, pt) && StopsAfter(pages, hand, k', pt)
    ensures k == k'
  {
  }

  ghost predicate Passed(pages: seq<nat>, hand: nat, k: nat, v: nat)
    requires hand < |pages| && k <= |pages|
  {
    exists j :: 0 <= j < k && At(pages, hand, j) == v
  }

  /** pt' is pt with the reference bit of exactly the first k entries from the hand cleared. */
  ghost predicate ClearedRun(pages: seq<nat>, hand: nat, k: nat, pt: PageTable, pt': PageTable)
    requires hand < |pages| && k <= |pages|
  {
    && |pt'| == |pt|
    && forall v :: 0 <= v < |pt| ==>
                     pt'[v] == if Passed(pages, hand, k, v) then pt[v].(referenced := false) else pt[v]
  }

  /** Entries at different places within one turn are different. */
  lemma AtDistinct(pages: seq<nat>, hand: nat, j: nat, k: nat)
    requires hand < |pages| && NoDuplicates(pages) && j < k < |pages|
    ensures At(pages, hand, j) != At(pages, hand, k)
  {
  }

  /** Where the hand ends up after the entry under it is removed. */
  function HandAfter(count: nat, hand: nat): (h: nat)
    requires hand < count
    ensures if count == 1 then h == 0 else h < count - 1
  {
    if count == 1 then 0 else Wrap(count - 1, Wrap(count, hand + 1))
  }

  /** The hand is meant to move on to the victim's successor. It does so exactly when the victim was the
      last entry of the array or there were only two entries; otherwise the successor is skipped. */
  lemma HandReachesSuccessor(pages: seq<nat>, hand: nat)
    requires 1 < |pages| && hand < |pages| && NoDuplicates(pages)
    ensures Without(pages, hand)[HandAfter(|pages|, hand)] == At(pages, hand, 1)
            <==> hand == |pages| - 1 || |pages| == 2
  {
    var n := |pages|;
    var rest := Without(pages, hand);
    if hand == n - 1 {
      assert rest[0] == pages[0];
    } else {
      assert rest[hand] == pages[hand + 1] == At(pages, hand, 1);
      var h := HandAfter(n, hand);
      assert h == if hand + 1 == n - 1 then 0 else hand + 1;
      assert h == hand <==> n == 2;
      assert NoDuplicates(rest);
    }
  }

  /** Entry i is the one that the policy gives up when it is shown pt: FIFO's is the head, LRU's the first with the least
      stamp, Clock's the one at which the hand stops. */
  ghost predicate VictimAt(kind: Kind, pages: seq<nat>, ticks: seq<nat>, hand: nat, i: nat, pt: PageTable) {
    && i < |pages| && (forall j :: 0 <= j < |pages| ==> pages[j] < |pt|)
    && match kind
       case Fifo => i == 0
       case Lru =>
         && |ticks| == |pages|
         && forall j :: 0 <= j < |pages| ==> ticks[i] <= ticks[j] && (j < i ==> ticks[i] < ticks[j])
       case Clock => hand < |pages| && exists k :: StopsAfter(pages, hand, k, pt) && i == Wrap(|pages|, hand + k)
  }

  /** What it leaves of pt: Clock has cleared the bits of the entries it passed. */
  ghost predicate Leaves(kind: Kind, pages: seq<nat>, hand: nat, pt: PageTable, pt': PageTable) {
    if kind == Clock then
      && hand < |pages| && (forall j :: 0 <= j < |pages| ==> pages[j] < |pt|)
      && exists k :: StopsAfter(pages, hand, k, pt) && ClearedRun(pages, hand, k, pt, pt')
    else pt' == pt
  }

  lemma HandStops(pages: seq<nat>, ticks: seq<nat>, hand: nat, k: nat, pt: PageTable, pt': PageTable)
    requires hand < |pages| && (forall i :: 0 <= i < |pages| ==> pages[i] < |pt|)
    requires StopsAfter(pages, hand, k, pt) && ClearedRun(pages, hand, k, pt, pt')
    ensures VictimAt(Clock, pages, ticks, hand, Wrap(|pages|, hand + k), pt) && Leaves(Clock, pages, hand, pt, pt')
  {
  }

  class Tracker {
    var kind: Kind
    var pages: seq<nat>
    /** LRU only: last access tick of each listed frame. */
    var ticks: seq<nat>
    /** Clock only. */
    var hand: nat
    /** Number of frames; every listed number is below it. */
    const frames: nat

    ghost predicate Valid()
      reads this
    {
      && frames <= 256
      && NoDuplicates(pages)
      && (forall i :: 0 <= i < |pages| ==> pages[i] < frames)
      && (kind == Lru ==> |ticks| == |pages|)
      && (kind == Clock ==> if pages == [] then hand == 0 else hand < |pages|)
    }

    constructor (kind: Kind, frames: nat)
      requires frames <= 256
      ensures Valid() && pages == [] && this.kind == kind && this.frames == frames
    {
      this.kind := kind;
      this.frames := frames;
      pages, ticks, hand := [], [], 0;
    }

    /** The old policy's list is thrown away and an empty one of another kind set up. */
    method Reset(kind: Kind)
      requires Valid()
      modifies `kind, `pages, `ticks, `hand
      ensures Valid() && pages == [] && this.kind == kind
    {
      this.kind := kind;
      pages, ticks, hand := [], [], 0;
    }

    /** Room in the policy's array: 256 entries for FIFO and LRU, one per frame for Clock. */
    function Capacity(): nat
      reads `kind
    {
      if kind == Clock then frames else 256
    }

    /** Lists a frame that was just mapped; a frame already listed keeps its place. */
    method Insert(pfn: nat, tick: nat)
      requires Valid() && pfn < frames
      modifies `pages, `ticks
      ensures Valid()
      ensures pages == if pfn in old(pages) then old(pages) else old(pages) + [pfn]
      ensures kind == Lru ==>
                forall i :: 0 <= i < |pages| ==>
                              ticks[i] == if pages[i] == pfn then tick else old(ticks)[i]
    {
      var i := 0;
      while i < |pages|
        invariant 0 <= i <= |pages| && pages == old(pages) && ticks == old(ticks)
        invariant pfn !in pages[..i]
      {
        if pages[i] == pfn {
          if kind == Lru {
            ticks := ticks[i := tick];
          }
          return;
        }
        i := i + 1;
      }
      assert pages[..i] == pages;
      Pigeonhole(pages + [pfn], frames);
      if |pages| < Capacity() {
        pages := pages + [pfn];
        if kind == Lru {
          ticks := ticks + [tick];
        }
      }
    }

    /** An access to a resident page: only LRU records it, listing the frame if it was not listed. */
    method Update(pfn: nat, tick: nat)
      requires Valid() && pfn < frames
      modifies `pages, `ticks
      ensures Valid()
      ensures pages == if kind == Lru && pfn !in old(pages) then old(pages) + [pfn] else old(pages)
      ensures kind == Lru ==>
                forall i :: 0 <= i < |pages| ==>
                              ticks[i] == if pages[i] == pfn then tick else old(ticks)[i]
    {
      if kind == Lru {
        Insert(pfn, tick);
      }
    }

    /** i is the list position the policy gives up, given the page table the pager passes in. */
    ghost predicate IsVictim(i: nat, pt: PageTable)
      requires Valid() && frames <= |pt|
      reads this
    {
      VictimAt(kind, pages, ticks, hand, i, pt)
    }

    /** Removes and returns the victim, or a negative number when nothing is listed. */
    method Evict(pt: PageTable) returns (victim: int, pt': PageTable, ghost i: nat)
      requires Valid() && frames <= |pt|
      modifies `pages, `ticks, `hand
      ensures Valid()
      ensures victim < 0 <==> old(pages) == []
      ensures victim < 0 ==> pages == old(pages) && ticks == old(ticks) && hand == old(hand) && pt' == pt
      ensures 0 <= victim ==>
                && old(IsVictim(i, pt)) && i < |old(pages)| && victim == old(pages)[i] && pages == Without(old(pages), i)
                && Leaves(kind, old(pages), old(hand), pt, pt')
      ensures kind == Clock && 0 <= victim ==> hand == HandAfter(|old(pages)|, i)
      ensures kind == Lru && 0 <= victim ==> ticks == Without(old(ticks), i)
      ensures kind != Clock ==> pt' == pt
      ensures |pt'| == |pt| && forall v :: 0 <= v < |pt| ==> pt'[v] == pt[v] || pt'[v] == pt[v].(referenced := false)
    {
      pt' := pt;
      i := 0;
      if pages == [] {
        return -1, pt, 0;
      }
      match kind {
        case Fifo =>
          victim := pages[0];
          pages := Without(pages, 0);
        case Lru =>
          var lru, j := 0, 1;
          while j < |pages|
            invariant 1 <= j <= |pages| && lru < j
            invariant forall m :: 0 <= m < j ==> ticks[lru] <= ticks[m] && (m < lru ==> ticks[lru] < ticks[m])
          {
            if ticks[j] < ticks[lru] {
              lru := j;
            }
            j := j + 1;
          }
          i := lru;
          victim := pages[lru];
          pages := Without(pages, lru);
          ticks := Without(ticks, lru);
        case Clock =>
          victim, pt', i := EvictClock(pt);
      }
    }

    static lemma StillValid(pages: seq<nat>, i: nat)
      requires i < |pages| && NoDuplicates(pages)
      ensures NoDuplicates(Without(pages, i)) && forall j :: 0 <= j < |pages| - 1 ==> Without(pages, i)[j] in pages
    {
    }

    /** Second chance. Within one turn and one more probe an unreferenced entry turns up, so the loop's
        own bound of two turns is never reached. */
    method EvictClock(pt: PageTable) returns (victim: nat, pt': PageTable, ghost i: nat)
      requires Valid() && frames <= |pt| && kind == Clock && pages != []
      modifies `pages, `hand
      ensures Valid()
      ensures old(IsVictim(i, pt)) && victim == old(pages)[i] && pages == Without(old(pages), i)
      ensures Leaves(kind, old(pages), old(hand), pt, pt')
      ensures hand == HandAfter(|old(pages)|, i)
    {
      hide VictimAt, Leaves, HandAfter, Without;
      pt' := pt;
      var attempts := 0;
      var count := |pages|;
      while attempts < 2 * count
        invariant 0 <= attempts <= count
        invariant pages == old(pages) && hand == Wrap(count, old(hand) + attempts)
        invariant ReferencedRun(pages, old(hand), attempts, pt)
        invariant ClearedRun(pages, old(hand), attempts, pt, pt')
      {
        var vpn := pages[hand];
        assert vpn == At(pages, old(hand), attempts);
        ProbeSees(pages, old(hand), attempts, pt, pt');
        if pt'[vpn].referenced {
          var next := pt'[vpn := pt'[vpn].(referenced := false)];
          ClearOne(pages, old(hand), attempts, pt, pt', next);
          pt' := next;
          hand := Wrap(count, hand + 1);
        } else {
          assert StopsAfter(pages, old(hand), attempts, pt);
          HandStops(pages, ticks, old(hand), attempts, pt, pt');
          StillValid(pages, hand);
          i := hand;
          pages := Without(pages, hand);
          hand := HandAfter(count, hand);
          return vpn, pt', i;
        }
        attempts := attempts + 1;
      }
      assert false;
    }

    /** What the probe after k passes sees: the original bit within the first turn, a cleared bit after it. */
    static lemma ProbeSees(pages: seq<nat>, hand: nat, k: nat, pt: PageTable, pt': PageTable)
      requires hand < |pages| && NoDuplicates(pages) && k <= |pages|
      requires forall i :: 0 <= i < |pages| ==> pages[i] < |pt|
      requires ClearedRun(pages, hand, k, pt, pt')
      ensures pt'[At(pages, hand, k)].referenced <==> k < |pages| && pt[At(pages, hand, k)].referenced
    {
      var v := At(pages, hand, k);
      if k < |pages| {
        forall j | 0 <= j < k
          ensures At(pages, hand, j) != v
        {
          AtDistinct(pages, hand, j, k);
        }
        assert !Passed(pages, hand, k, v);
      } else {
        assert At(pages, hand, 0) == v;
        assert Passed(pages, hand, k, v);
      }
    }

    static lemma ClearOne(pages: seq<nat>, hand: nat, k: nat, pt: PageTable, pt': PageTable, next: PageTable)
      requires hand < |pages| && k < |pages| && forall i :: 0 <= i < |pages| ==> pages[i] < |pt|
      requires ClearedRun(pages, hand, k, pt, pt')
      requires next == pt'[At(pages, hand, k) := pt'[At(pages, hand, k)].(referenced := false)]
      ensures ClearedRun(pages, hand, k + 1, pt, next)
    {
      forall v | 0 <= v < |pt|
        ensures next[v] == if Passed(pages, hand, k + 1, v) then pt[v].(referenced := false) else pt[v]
      {
        assert Passed(pages, hand, k + 1, v) <==> Passed(pages, hand, k, v) || v == At(pages, hand, k) by {
          if Passed(pages, hand, k, v) {
            var j :| 0 <= j < k && At(pages, hand, j) == v;
            assert 0 <= j < k + 1 && At(pages, hand, j) == v;
          }
          if v == At(pages, hand, k) {
            assert 0 <= k < k + 1 && At(pages, hand, k) == v;
          }
        }
      }
    }
  }
}
