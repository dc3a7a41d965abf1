/** Translation look-aside buffer (tlb.c): a small fully associative cache with LRU replacement. */
module Tlb {
  import opened VmTypes

  datatype Entry = Entry(valid: bool, vpn: nat, pfn: nat, dirty: bool, perm: Perm, lastUsed: nat)

  /** No two valid entries translate the same page. */
  ghost predicate Distinct(es: seq<Entry>) {
    forall i, j :: 0 <= i < j < |es| && es[i].valid && es[j].valid ==> es[i].vpn != es[j].vpn
  }

  /** Entry e says exactly what the page table says about its page. */
  ghost predicate Agrees(e: Entry, pt: PageTable) {
    e.valid ==>
      && e.vpn < |pt|
      && pt[e.vpn].present
      && pt[e.vpn].frame == e.pfn
      && pt[e.vpn].perm == e.perm
      && pt[e.vpn].dirty == e.dirty
  }

  ghost predicate Coherent(es: seq<Entry>, pt: PageTable) {
    Distinct(es) && forall i :: 0 <= i < |es| ==> Agrees(es[i], pt)
  }

  ghost predicate Absent(es: seq<Entry>, vpn: nat) {
    forall i :: 0 <= i < |es| ==> !(es[i].valid && es[i].vpn == vpn)
  }

  /** Slot k may hold a new entry for vpn without making a second one. */
  ghost predicate InsertSlot(es: seq<Entry>, vpn: nat, k: nat) {
    && k < |es|
    && ((es[k].valid && es[k].vpn == vpn)
        || (Absent(es, vpn) && (!es[k].valid
                                || ((forall i :: 0 <= i < |es| ==> es[i].valid)
                                    && forall i :: 0 <= i < |es| ==> es[k].lastUsed <= es[i].lastUsed))))
  }

  /** Storing what the page table says about vpn, in a legal slot, keeps coherence; only vpn's page-table
      entry may have changed. */
  lemma InsertCoherent(es: seq<Entry>, k: nat, e: Entry, pt: PageTable, pt': PageTable)
    requires Coherent(es, pt) && InsertSlot(es, e.vpn, k) && e.valid && Agrees(e, pt')
    requires |pt'| == |pt| && forall v :: 0 <= v < |pt| && v != e.vpn ==> SameTranslation(pt[v], pt'[v])
    ensures Coherent(es[k := e], pt')
  {
  }

  /** es' is es with the entry of vpn, if any, invalidated. */
  ghost predicate Flushed(es: seq<Entry>, vpn: nat, es': seq<Entry>) {
    && |es'| == |es|
    && forall i :: 0 <= i < |es| ==>
                     es'[i] == if es[i].valid && es[i].vpn == vpn then es[i].(valid := false) else es[i]
  }

  /** Once vpn is flushed, its page-table entry may change freely. */
  lemma FlushCoherent(es: seq<Entry>, vpn: nat, es': seq<Entry>, pt: PageTable, pt': PageTable)
    requires Coherent(es, pt) && Flushed(es, vpn, es')
    requires |pt'| == |pt| && forall v :: 0 <= v < |pt| && v != vpn ==> SameTranslation(pt[v], pt'[v])
    ensures Coherent(es', pt') && Absent(es', vpn)
  {
  }

  ghost predicate SameTranslation(a: Pte, b: Pte) {
    a.present == b.present && a.frame == b.frame && a.perm == b.perm && a.dirty == b.dirty
  }

  /** The pages of which the TLB knows the translation. */
  ghost function Cached(es: seq<Entry>): (c: set<nat>)
    ensures forall vpn :: vpn in c <==> !Absent(es, vpn)
  {
    var c := set i | 0 <= i < |es| && es[i].valid :: es[i].vpn;
    assert forall vpn :: vpn in c <==> exists i :: 0 <= i < |es| && es[i].valid && es[i].vpn == vpn;
    c
  }

  /** Putting a page in makes it known, and no other; one known already costs no other its place. */
  lemma CachedInsert(es: seq<Entry>, k: nat, e: Entry)
    requires InsertSlot(es, e.vpn, k) && e.valid
    ensures e.vpn in Cached(es[k := e]) && Cached(es[k := e]) <= Cached(es) + {e.vpn}
    ensures e.vpn in Cached(es) ==> Cached(es[k := e]) == Cached(es)
  {
    var es' := es[k := e];
    assert es'[k] == e;
    forall vpn | vpn in Cached(es')
      ensures vpn in Cached(es) + {e.vpn}
    {
      var i :| 0 <= i < |es'| && es'[i].valid && es'[i].vpn == vpn;
      if i != k {
        assert es[i].valid && es[i].vpn == vpn;
      }
    }
    if e.vpn in Cached(es) {
      forall vpn | vpn in Cached(es)
        ensures vpn in Cached(es')
      {
        var i :| 0 <= i < |es| && es[i].valid && es[i].vpn == vpn;
        assert es'[i].valid && es'[i].vpn == vpn;
      }
    }
  }

  lemma CachedFlush(es: seq<Entry>, vpn: nat, es': seq<Entry>)
    requires Flushed(es, vpn, es')
    ensures Cached(es') == Cached(es) - {vpn}
  {
    forall x | x in Cached(es) - {vpn}
      ensures x in Cached(es')
    {
      var i :| 0 <= i < |es| && es[i].valid && es[i].vpn == x;
      assert es'[i].valid && es'[i].vpn == x;
    }
    forall x | x in Cached(es')
      ensures x in Cached(es) - {vpn}
    {
      var i :| 0 <= i < |es'| && es'[i].valid && es'[i].vpn == x;
      assert es[i].valid && es[i].vpn == x;
    }
  }

  /** Stamping an entry changes no translation. */
  lemma CachedStamp(es: seq<Entry>, i: nat, tick: nat)
    requires i < |es|
    ensures Cached(es[i := es[i].(lastUsed := tick)]) == Cached(es)
  {
    var es' := es[i := es[i].(lastUsed := tick)];
    assert forall j :: 0 <= j < |es| ==> es'[j].valid == es[j].valid && es'[j].vpn == es[j].vpn;
    assert forall x :: Absent(es', x) <==> Absent(es, x);
  }

  class Cache {
    var entries: seq<Entry>
    var hits: nat
    var misses: nat

    constructor (size: nat)
      requires 0 < size
      ensures |entries| == size && forall i :: 0 <= i < size ==> !entries[i].valid
      ensures hits == misses == 0
    {
      entries := seq(size, i => Entry(false, 0, 0, false, Perm(false, false, false), 0));
      hits, misses := 0, 0;
    }

    /** Finds vpn and stamps the entry found; index is negative on a miss. */
    method Lookup(vpn: nat, tick: nat) returns (index: int)
      modifies this
      ensures index < 0 <==> Absent(old(entries), vpn)
      ensures index < 0 ==> entries == old(entries) && hits == old(hits) && misses == old(misses) + 1
      ensures 0 <= index ==>
                && index < old(|entries|) && old(entries)[index].valid && old(entries)[index].vpn == vpn
                && entries == old(entries)[index := old(entries)[index].(lastUsed := tick)]
                && hits == old(hits) + 1 && misses == old(misses)
    {
      var i := 0;
      while i < |entries|
        invariant 0 <= i <= |entries| && entries == old(entries) && hits == old(hits) && misses == old(misses)
        invariant Absent(entries[..i], vpn)
      {
        if entries[i].valid && entries[i].vpn == vpn {
          entries := entries[i := entries[i].(lastUsed := tick)];
          hits := hits + 1;
          return i;
        }
        i := i + 1;
      }
      assert entries[..i] == entries;
      misses := misses + 1;
      index := -1;
    }

    /** Puts a translation in: over the entry of the same page, else in a free entry, else over the
        least recently used one. */
    method Insert(vpn: nat, pfn: nat, dirty: bool, perm: Perm, tick: nat) returns (ghost k: nat)
      requires 0 < |entries|
      modifies `entries
      ensures InsertSlot(old(entries), vpn, k)
      ensures entries == old(entries)[k := Entry(true, vpn, pfn, dirty, perm, tick)]
    {
      var e := Entry(true, vpn, pfn, dirty, perm, tick);
      var i := 0;
      while i < |entries|
        invariant 0 <= i <= |entries| && entries == old(entries)
        invariant Absent(entries[..i], vpn)
      {
        if entries[i].valid && entries[i].vpn == vpn {
          entries := entries[i := e];
          return i;
        }
        i := i + 1;
      }
      assert entries[..i] == entries;
      i := 0;
      while i < |entries|
        invariant 0 <= i <= |entries| && entries == old(entries)
        invariant forall j :: 0 <= j < i ==> entries[j].valid
      {
        if !entries[i].valid {
          entries := entries[i := e];
          return i;
        }
        i := i + 1;
      }
      var lru := 0;
      i := 1;
      while i < |entries|
        invariant 1 <= i <= |entries| && lru < i
        invariant forall j :: 0 <= j < i ==> entries[lru].lastUsed <= entries[j].lastUsed
      {
        if entries[i].lastUsed < entries[lru].lastUsed {
          lru := i;
        }
        i := i + 1;
      }
      entries := entries[lru := e];
      k := lru;
    }

    method Flush()
      modifies `entries
      ensures |entries| == old(|entries|) && forall i :: 0 <= i < |entries| ==> !entries[i].valid
    {
      var i := 0;
      while i < |entries|
        invariant 0 <= i <= |entries| == old(|entries|)
        invariant forall j :: 0 <= j < i ==> !entries[j].valid
      {
        entries := entries[i := Entry(false, 0, 0, false, Perm(false, false, false), 0)];
        i := i + 1;
      }
    }

    /** Invalidates the entry of vpn; every other entry is untouched. */
    method FlushEntry(vpn: nat)
      modifies `entries
      ensures Flushed(old(entries), vpn, entries)
    {
      var i := 0;
      while i < |entries|
        invariant 0 <= i <= |entries| == old(|entries|)
        invariant forall j :: 0 <= j < |entries| ==>
                                entries[j] == if j < i && old(entries)[j].valid && old(entries)[j].vpn == vpn
                                              then old(entries)[j].(valid := false) else old(entries)[j]
      {
        if entries[i].valid && entries[i].vpn == vpn {
          entries := entries[i := entries[i].(valid := false)];
        }
        i := i + 1;
      }
    }
  }
}
