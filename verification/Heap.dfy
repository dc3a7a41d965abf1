/** The heap allocator (vm_alloc.c): block headers linked inside the process's own memory. */
module Heap {
  import opened HeapBlocks

  datatype Hdr = Hdr(size: nat, free: bool, next: nat, prev: nat)

  type Memory = map<nat, Hdr>

  /** Storing a header at a: headers that overlap these HDR bytes are gone. */
  function Put(mem: Memory, a: nat, h: Hdr): (r: Memory)
    ensures a in r && r[a] == h
    ensures forall x :: x in mem && (x + HDR <= a || a + HDR <= x) ==> x in r && r[x] == mem[x]
  {
    (map x | x in mem && (x + HDR <= a || a + HDR <= x) :: mem[x])[a := h]
  }

  /** The header that block i should have: its links mirror its neighbours. */
  ghost function HdrOf(bs: seq<Block>, i: nat): Hdr
    requires i < |bs|
  {
    Hdr(bs[i].size, bs[i].free, if i + 1 < |bs| then bs[i + 1].addr else 0, if 0 < i then bs[i - 1].addr else 0)
  }

  ghost predicate Linked(mem: Memory, bs: seq<Block>) {
    forall i :: 0 <= i < |bs| ==> bs[i].addr in mem && mem[bs[i].addr] == HdrOf(bs, i)
  }

  /** Every block but those in `stale` has its header in place. */
  ghost predicate LinkedBut(mem: Memory, bs: seq<Block>, stale: set<int>) {
    forall i :: 0 <= i < |bs| && i !in stale ==> bs[i].addr in mem && mem[bs[i].addr] == HdrOf(bs, i)
  }

  /** Writing the header of block i puts it in place and disturbs no other block's header. */
  lemma PutBlock(mem: Memory, bs: seq<Block>, lo: nat, hi: nat, stale: set<int>, i: nat)
    requires Tiles(bs, lo, hi) && i < |bs| && LinkedBut(mem, bs, stale)
    ensures LinkedBut(Put(mem, bs[i].addr, HdrOf(bs, i)), bs, stale - {i})
  {
    forall k | 0 <= k < |bs| && k !in stale - {i}
      ensures bs[k].addr in Put(mem, bs[i].addr, HdrOf(bs, i))
              && Put(mem, bs[i].addr, HdrOf(bs, i))[bs[k].addr] == HdrOf(bs, k)
    {
      if k < i {
        Ordered(bs, lo, hi, k, i);
      } else if i < k {
        Ordered(bs, lo, hi, i, k);
      }
    }
  }

  /** Splitting block i: all headers but those of the two halves and of the block after them are still right. */
  lemma SplitStale(mem: Memory, bs: seq<Block>, i: nat, size: nat)
    requires Linked(mem, bs) && i < |bs| && Splits(bs[i], size)
    ensures LinkedBut(mem, AllocAt(bs, i, size), {i, i + 1, i + 2})
  {
    var r := AllocAt(bs, i, size);
    forall k | 0 <= k < |r| && k !in {i, i + 1, i + 2}
      ensures r[k].addr in mem && mem[r[k].addr] == HdrOf(r, k)
    {
      if k < i {
        assert r[k] == bs[k] && HdrOf(r, k) == HdrOf(bs, k);
      } else {
        assert r[k] == bs[k - 1] && HdrOf(r, k) == HdrOf(bs, k - 1);
      }
    }
  }

  lemma WholeStale(mem: Memory, bs: seq<Block>, i: nat, size: nat)
    requires Linked(mem, bs) && i < |bs| && !Splits(bs[i], size)
    ensures LinkedBut(mem, AllocAt(bs, i, size), {i}) && HdrOf(AllocAt(bs, i, size), i) == HdrOf(bs, i).(free := false)
  {
    var r := AllocAt(bs, i, size);
    forall k | 0 <= k < |r| && k != i
      ensures r[k] == bs[k] && HdrOf(r, k) == HdrOf(bs, k)
    {
    }
  }

  /** A header elsewhere survives a write. */
  lemma PutFar(mem: Memory, bs: seq<Block>, lo: nat, hi: nat, i: nat, h: Hdr, k: nat)
    requires Tiles(bs, lo, hi) && i < |bs| && k < |bs| && k != i && bs[k].addr in mem
    ensures bs[k].addr in Put(mem, bs[i].addr, h) && Put(mem, bs[i].addr, h)[bs[k].addr] == mem[bs[k].addr]
  {
    if k < i {
      Ordered(bs, lo, hi, k, i);
    } else {
      Ordered(bs, lo, hi, i, k);
    }
  }

  /** Links are zero at the two ends of the list only. */
  lemma EndLinks(bs: seq<Block>, brk: nat, i: nat)
    requires Tiles(bs, START, brk) && i < |bs|
    ensures HdrOf(bs, i).next != 0 <==> i + 1 < |bs|
    ensures HdrOf(bs, i).prev != 0 <==> 0 < i
  {
    if i + 1 < |bs| {
      Inside(bs, START, brk, i + 1);
    }
    if 0 < i {
      Inside(bs, START, brk, i - 1);
    }
  }

  /** The two header writes of a split leave one stale link: the back link of the block after the halves. */
  lemma SplitLinks(mem: Memory, bs: seq<Block>, brk: nat, i: nat, size: nat)
    requires Linked(mem, bs) && Shaped(bs, brk) && i < |bs| && Splits(bs[i], size)
    requires Fits(bs[i], size) && 4 <= size && size % 4 == 0
    ensures var r := AllocAt(bs, i, size);
            var mem1 := Put(mem, r[i + 1].addr, HdrOf(r, i + 1));
            var mem2 := Put(mem1, r[i].addr, HdrOf(r, i));
            && Shaped(r, brk) && LinkedBut(mem2, r, {i + 2})
            && (i + 2 < |r| ==> r[i + 2].addr in mem2
                                && mem2[r[i + 2].addr].(prev := r[i + 1].addr) == HdrOf(r, i + 2))
  {
    hide Shaped, Tiles, Put;
    AllocShaped(bs, brk, i, size);
    ShapedTiles(AllocAt(bs, i, size), brk);
    var r := AllocAt(bs, i, size);
    SplitStale(mem, bs, i, size);
    var mem1 := Put(mem, r[i + 1].addr, HdrOf(r, i + 1));
    var mem2 := Put(mem1, r[i].addr, HdrOf(r, i));
    PutBlock(mem, r, START, brk, {i, i + 1, i + 2}, i + 1);
    assert {i, i + 1, i + 2} - {i + 1} == {i, i + 2};
    PutBlock(mem1, r, START, brk, {i, i + 2}, i);
    assert {i, i + 2} - {i} == {i + 2};
    if i + 2 < |r| {
      assert r[i + 2] == bs[i + 1];
      PutFar(mem, r, START, brk, i + 1, HdrOf(r, i + 1), i + 2);
      PutFar(mem1, r, START, brk, i, HdrOf(r, i), i + 2);
    }
  }

  lemma ShapedTiles(bs: seq<Block>, brk: nat)
    requires Shaped(bs, brk)
    ensures Tiles(bs, START, brk)
  {
  }

  lemma LinkedAll(mem: Memory, bs: seq<Block>, stale: set<int>)
    requires LinkedBut(mem, bs, stale) && forall i :: i in stale ==> i < 0 || |bs| <= i
    ensures Linked(mem, bs)
  {
  }

  lemma GrowStale(mem: Memory, bs: seq<Block>, brk: nat, pages: nat)
    requires Linked(mem, bs) && 0 < pages && bs != []
    ensures var r := GrowBy(bs, brk, pages);
            && LinkedBut(mem, r, {|bs| - 1, |bs|})
            && HdrOf(r, |bs|) == Hdr(pages * PAGE - HDR, true, 0, bs[|bs| - 1].addr)
            && HdrOf(r, |bs| - 1) == HdrOf(bs, |bs| - 1).(next := brk)
  {
    var r := GrowBy(bs, brk, pages);
    forall k | 0 <= k < |r| && k !in {|bs| - 1, |bs|}
      ensures r[k] == bs[k] && HdrOf(r, k) == HdrOf(bs, k)
    {
      GrownHdr(bs, brk, pages, k);
    }
    hide HdrOf;
    assert forall k :: 0 <= k < |bs| - 1 ==> bs[k].addr in mem && mem[bs[k].addr] == HdrOf(bs, k);
  }

  lemma GrownHdr(bs: seq<Block>, brk: nat, pages: nat, k: nat)
    requires 0 < pages && k < |bs| - 1
    ensures GrowBy(bs, brk, pages)[k] == bs[k] && HdrOf(GrowBy(bs, brk, pages), k) == HdrOf(bs, k)
  {
  }

  /** Sizes malloc accepts: not zero, and within 16 bits once rounded up to a multiple of four. */
  predicate Usable(request: nat) {
    request != 0 && AlignUp(request, 4) <= 0xFFFF
  }

  lemma NotEmpty(bs: seq<Block>, brk: nat)
    requires Shaped(bs, brk)
    ensures bs == [] <==> brk == START
  {
    if bs != [] {
      Inside(bs, START, brk, 0);
    }
  }

  lemma StartedLive(bs: seq<Block>)
    ensures Live(Started(bs)) == Live(bs)
  {
    LiveOne(Block(START, 2 * PAGE - HDR, true));
  }

  /** Joining k and k+1 leaves all headers right but two. */
  lemma JoinStale(mem: Memory, bs: seq<Block>, k: nat)
    requires Linked(mem, bs) && k + 1 < |bs|
    ensures LinkedBut(mem, Join(bs, k), {k, k + 1})
  {
    var r := Join(bs, k);
    forall j | 0 <= j < |r| && j !in {k, k + 1}
      ensures r[j].addr in mem && mem[r[j].addr] == HdrOf(r, j)
    {
      if j < k {
        assert r[j] == bs[j] && HdrOf(r, j) == HdrOf(bs, j);
      } else {
        assert r[j] == bs[j + 1] && HdrOf(r, j) == HdrOf(bs, j + 1);
      }
    }
  }

  /** The block behind the joined one needs a new back link only. */
  lemma JoinNext(mem: Memory, bs: seq<Block>, k: nat)
    requires Linked(mem, bs) && k + 2 < |bs|
    ensures var r := Join(bs, k);
            |r| == |bs| - 1 && r[k + 1].addr in mem && mem[r[k + 1].addr].(prev := r[k].addr) == HdrOf(r, k + 1)
  {
    assert Join(bs, k)[k + 1] == bs[k + 2];
  }

  /** Joining k and k+1: the header of the joined block written, one back link is left to mend. */
  lemma JoinLinks(mem: Memory, bs: seq<Block>, brk: nat, k: nat)
    requires Linked(mem, bs) && Shaped(bs, brk) && k + 1 < |bs|
    ensures var r := Join(bs, k);
            var mem1 := Put(mem, r[k].addr, HdrOf(r, k));
            && LinkedBut(mem1, r, {k + 1})
            && (k + 1 < |r| ==> r[k + 1].addr in mem1 && mem1[r[k + 1].addr].(prev := r[k].addr) == HdrOf(r, k + 1))
  {
    hide Shaped, Tiles, Put, Linked, LinkedBut, HdrOf;
    var r := Join(bs, k);
    JoinShaped(bs, brk, k);
    ShapedTiles(r, brk);
    JoinStale(mem, bs, k);
    PutBlock(mem, r, START, brk, {k, k + 1}, k);
    assert {k, k + 1} - {k} == {k + 1};
    if k + 1 < |r| {
      JoinNext(mem, bs, k);
      PutFar(mem, r, START, brk, k, HdrOf(r, k), k + 1);
    }
  }

  lemma MarkShaped(bs: seq<Block>, brk: nat, i: nat)
    requires Shaped(bs, brk) && i < |bs|
    ensures Shaped(Mark(bs, i), brk) && Tiles(Mark(bs, i), START, brk)
  {
    var r := Mark(bs, i);
    assert forall j :: 0 <= j < |bs| ==> End(r[j]) == End(bs[j]) && r[j].addr == bs[j].addr && r[j].size == bs[j].size;
  }

  lemma MarkLinks(mem: Memory, bs: seq<Block>, brk: nat, i: nat)
    requires Linked(mem, bs) && Shaped(bs, brk) && i < |bs|
    ensures var r := Mark(bs, i);
            && Linked(Put(mem, bs[i].addr, HdrOf(bs, i).(free := true)), r)
            && HdrOf(r, i) == HdrOf(bs, i).(free := true)
  {
    hide Put, Shaped, Tiles;
    var r := Mark(bs, i);
    MarkShaped(bs, brk, i);
    forall j | 0 <= j < |r| && j != i
      ensures r[j] == bs[j] && HdrOf(r, j) == HdrOf(bs, j)
    {
    }
    PutBlock(mem, r, START, brk, {i}, i);
    LinkedAll(Put(mem, r[i].addr, HdrOf(r, i)), r, {i} - {i});
  }

  lemma FirstAddr(bs: seq<Block>, brk: nat)
    requires Shaped(bs, brk) && bs != []
    ensures bs[0].addr == START
  {
  }

  lemma LinkAt(mem: Memory, bs: seq<Block>, i: nat)
    requires Linked(mem, bs) && i < |bs|
    ensures bs[i].addr in mem && mem[bs[i].addr] == HdrOf(bs, i)
  {
  }

  lemma FindIs(bs: seq<Block>, brk: nat, i: nat)
    requires Shaped(bs, brk) && i < |bs|
    ensures Find(bs, bs[i].addr) == if bs[i].free then |bs| else i
  {
    var f := Find(bs, bs[i].addr);
    if f < i {
      Ordered(bs, START, brk, f, i);
    } else if i < f < |bs| {
      Ordered(bs, START, brk, i, f);
    }
  }

  class Heap {
    var mem: Memory
    /** Top of the heap. */
    var brk: nat
    ghost var blocks: seq<Block>

    /** The list tiles the heap and the headers in memory link it up. */
    ghost predicate Intact()
      reads this
    {
      && START <= brk <= LIMIT && (brk - START) % PAGE == 0
      && Shaped(blocks, brk)
      && Linked(mem, blocks)
    }

    /** Between calls, moreover, no two neighbours are free. */
    ghost predicate Valid()
      reads this
    {
      Intact() && NoFreePair(blocks)
    }

    constructor ()
      ensures Valid() && blocks == [] && brk == START
    {
      mem, brk, blocks := map[], START, [];
    }

    method WriteHdr(a: nat, h: Hdr)
      modifies `mem
      ensures mem == Put(old(mem), a, h)
    {
      mem := Put(mem, a, h);
    }

    /** The rest of block i, whose header hdr is at curr, is cut off as a free block of its own. */
    method Split(curr: nat, hdr: Hdr, size: nat, ghost i: nat)
      requires Intact() && i < |blocks| && blocks[i].addr == curr && hdr == HdrOf(blocks, i)
      requires Fits(blocks[i], size) && 4 <= size && size % 4 == 0 && Splits(blocks[i], size)
      modifies `mem, `blocks
      ensures Intact() && blocks == AllocAt(old(blocks), i, size)
    {
      hide Shaped, Tiles, Put, Linked, LinkedBut;
      ghost var bs := AllocAt(blocks, i, size);
      SplitLinks(mem, blocks, brk, i, size);
      ShapedTiles(bs, brk);
      var nextAddr := curr + HDR + size;
      var nextHdr := Hdr(hdr.size - size - HDR, true, hdr.next, curr);
      assert nextHdr == HdrOf(bs, i + 1) && nextAddr == bs[i + 1].addr;
      WriteHdr(nextAddr, nextHdr);
      var currHdr := Hdr(size, false, nextAddr, hdr.prev);
      assert currHdr == HdrOf(bs, i);
      WriteHdr(curr, currHdr);
      EndLinks(bs, brk, i + 1);
      if nextHdr.next != 0 {
        PutBlock(mem, bs, START, brk, {i + 2}, i + 2);
        WriteHdr(nextHdr.next, mem[nextHdr.next].(prev := nextAddr));
        LinkedAll(mem, bs, {i + 2} - {i + 2});
      } else {
        LinkedAll(mem, bs, {i + 2});
      }
      blocks := bs;
    }

    /** Takes block i for size bytes (vm_alloc.c:80-119). */
    method Take(curr: nat, hdr: Hdr, size: nat, ghost i: nat) returns (addr: nat)
      requires Intact() && i < |blocks| && blocks[i].addr == curr && hdr == HdrOf(blocks, i)
      requires Fits(blocks[i], size) && 4 <= size && size % 4 == 0
      modifies `mem, `blocks
      ensures Intact() && blocks == AllocAt(old(blocks), i, size) && addr == curr + HDR
    {
      if size + HDR + 4 <= hdr.size {
        Split(curr, hdr, size, i);
      } else {
        ghost var bs := AllocAt(blocks, i, size);
        AllocShaped(blocks, brk, i, size);
        WholeStale(mem, blocks, i, size);
        PutBlock(mem, bs, START, brk, {i}, i);
        WriteHdr(curr, hdr.(free := false));
        blocks := bs;
      }
      addr := curr + HDR;
    }

    /** heap_grow: moves the break up by whole pages, unless that would pass the heap's limit. */
    method GrowBreak(pages: nat) returns (ok: bool)
      requires START <= brk <= LIMIT && (brk - START) % PAGE == 0
      modifies `brk
      ensures ok <==> pages != 0 && (old(brk) - START) / PAGE + pages <= MAX_PAGES
      ensures brk == if ok then old(brk) + pages * PAGE else old(brk)
      ensures ok ==> brk <= LIMIT && (brk - START) % PAGE == 0
    {
      if pages == 0 || MAX_PAGES < (brk - START) / PAGE + pages {
        return false;
      }
      var i := 0;
      while i < pages
        invariant i <= pages && brk == old(brk) + i * PAGE
      {
        brk := brk + PAGE;
        i := i + 1;
      }
      PagesUp(old(brk), pages);
      ok := true;
    }

    static lemma PagesUp(b: nat, pages: nat)
      requires START <= b && (b - START) % PAGE == 0 && (b - START) / PAGE + pages <= MAX_PAGES
      ensures b + pages * PAGE <= LIMIT && (b + pages * PAGE - START) % PAGE == 0
    {
    }

    /** The first call gives the heap two pages and makes them one free block. */
    method Start()
      requires Intact() && brk == START
      modifies this
      ensures Intact() && blocks == Started(old(blocks)) && brk == StartedBrk(old(brk)) && NoFreePair(blocks)
    {
      assert blocks == [] by {
        if blocks != [] {
          Inside(blocks, START, brk, 0);
        }
      }
      var ok := GrowBreak(2);
      WriteHdr(START, Hdr(brk - START - HDR, true, 0, 0));
      blocks := [Block(START, 2 * PAGE - HDR, true)];
    }

    /** Grows the heap and links a new free block after the last one, whose header hdr is at curr; false,
        changing nothing, when the limit is reached. */
    method Extend(curr: nat, hdr: Hdr, pages: nat) returns (ok: bool)
      requires Intact() && blocks != [] && 0 < pages
      requires blocks[|blocks| - 1].addr == curr && hdr == HdrOf(blocks, |blocks| - 1)
      modifies this
      ensures Intact()
      ensures ok <==> (old(brk) - START) / PAGE + pages <= MAX_PAGES
      ensures !ok ==> blocks == old(blocks) && brk == old(brk)
      ensures ok ==> blocks == GrowBy(old(blocks), old(brk), pages) && brk == old(brk) + pages * PAGE
    {
      hide Shaped, Tiles, Put, Linked, LinkedBut;
      var oldBrk := brk;
      ok := GrowBreak(pages);
      if !ok {
        return;
      }
      ghost var n := |blocks|;
      ghost var bs := GrowBy(blocks, oldBrk, pages);
      GrowOk(blocks, oldBrk, pages);
      ShapedTiles(bs, brk);
      GrowStale(mem, blocks, oldBrk, pages);
      assert bs[n - 1] == blocks[n - 1];
      PutBlock(mem, bs, START, brk, {n - 1, n}, n);
      assert {n - 1, n} - {n} == {n - 1};
      WriteHdr(oldBrk, Hdr(pages * PAGE - HDR, true, 0, curr));
      PutBlock(mem, bs, START, brk, {n - 1}, n - 1);
      WriteHdr(curr, hdr.(next := oldBrk));
      LinkedAll(mem, bs, {n - 1} - {n - 1});
      blocks := bs;
    }

    /** vm_alloc_malloc: first fit; failing that, grow and try once more. Refuses exactly an unusable size, or
        a request for which no block fits and the heap cannot grow enough. */
    method Malloc(request: nat) returns (addr: nat, ghost grew: bool)
      requires Intact()
      modifies this
      decreases LIMIT - brk
      ensures Intact() && (old(Valid()) ==> Valid())
      ensures !Usable(request) ==> addr == 0 && blocks == old(blocks) && brk == old(brk) && !grew
      ensures Usable(request) ==>
                var size, bs, b := AlignUp(request, 4), Started(old(blocks)), StartedBrk(old(brk));
                var i := FirstFit(bs, size);
                if i < |bs| then
                  addr == bs[i].addr + HDR && blocks == AllocAt(bs, i, size) && brk == b && !grew
                else if (b - START) / PAGE + PagesFor(size) <= MAX_PAGES then
                  && addr == b + HDR && brk == b + PagesFor(size) * PAGE && grew
                  && blocks == AllocAt(GrowBy(bs, b, PagesFor(size)), |bs|, size)
                else addr == 0 && blocks == bs && brk == b && !grew
      ensures if addr == 0 then Live(blocks) == Live(old(blocks))
              else && HDR <= addr && addr - HDR !in Live(old(blocks))
                   && exists s: nat :: Slack(AlignUp(request, 4), s) && Live(blocks) == Live(old(blocks))[addr - HDR := s]
    {
      hide Shaped, Linked, NoFreePair, AllocAt, FirstFit, AlignUp, Live, Slack;
      StartedLive(blocks);
      grew := false;
      AlignFacts(request);
      if request == 0 || 0xFFFF < request {
        return 0, grew;
      }
      var size := AlignUp(request, 4);
      AlignFacts(size);
      if size == 0 || 0xFFFF < size {
        return 0, grew;
      }
      if brk == START {
        Start();
      }
      NotEmpty(blocks, brk);
      ghost var bs := blocks;
      var curr, hdr;
      addr, curr, hdr := Search(size);
      if addr != 0 {
        AllocLive(bs, brk, FirstFit(bs, size), size);
        return addr, grew;
      }
      var pages := PagesFor(size);
      ghost var b := brk;
      var ok := Extend(curr, hdr, pages);
      if !ok {
        return 0, grew;
      }
      FitAfterGrow(bs, b, size, PagesFor(size));
      GrowOk(bs, b, pages);
      if old(Valid()) {
        GrowAllocOk(bs, b, size);
      }
      ghost var again;
      addr, again := Malloc(size);
      assert !again;
      grew := true;
    }

    /** Walks the list from its start and takes the first block that fits; otherwise returns 0 and the last
        block's address and header. */
    method Search(size: nat) returns (addr: nat, curr: nat, hdr: Hdr)
      requires Intact() && blocks != [] && 4 <= size && size % 4 == 0
      modifies `mem, `blocks
      ensures Intact() && (old(NoFreePair(blocks)) ==> NoFreePair(blocks))
      ensures var bs := old(blocks);
              var i := FirstFit(bs, size);
              if i < |bs| then addr != 0 && addr == bs[i].addr + HDR && blocks == AllocAt(bs, i, size)
              else addr == 0 && blocks == bs && curr == bs[|bs| - 1].addr && hdr == HdrOf(bs, |bs| - 1)
    {
      ghost var i := 0;
      curr := START;
      hdr := mem[curr];
      while curr < brk
        invariant Intact() && blocks == old(blocks) && i < |blocks| && curr == blocks[i].addr && hdr == HdrOf(blocks, i)
        invariant forall j :: 0 <= j < i ==> !Fits(blocks[j], size)
        decreases |blocks| - i
      {
        EndLinks(blocks, brk, i);
        if hdr.free && size <= hdr.size {
          FirstFitIs(blocks, size, i);
          if NoFreePair(blocks) {
            AllocOk(blocks, brk, i, size);
          }
          addr := Take(curr, hdr, size, i);
          return;
        }
        if hdr.next == 0 {
          break;
        }
        curr := hdr.next;
        i := i + 1;
        hdr := mem[curr];
      }
      Inside(blocks, START, brk, i);
      EndLinks(blocks, brk, i);
      FirstFitIs(blocks, size, |blocks|);
      addr := 0;
    }

    /** Block k swallows block k+1: hdr and other are their headers, at is where block k is. */
    method Swallow(at: nat, hdr: Hdr, other: Hdr, ghost k: nat) returns (hdr': Hdr)
      requires Intact() && k + 1 < |blocks| && blocks[k].free
      requires at == blocks[k].addr && hdr == HdrOf(blocks, k) && other == HdrOf(blocks, k + 1)
      modifies `mem, `blocks
      ensures Intact() && blocks == Join(old(blocks), k) && hdr' == HdrOf(blocks, k)
    {
      hide Shaped, Tiles, Put, Linked, LinkedBut;
      ghost var bs := Join(blocks, k);
      JoinLinks(mem, blocks, brk, k);
      JoinShaped(blocks, brk, k);
      ShapedTiles(bs, brk);
      hdr' := hdr.(size := hdr.size + HDR + other.size, next := other.next);
      assert hdr' == HdrOf(bs, k);
      WriteHdr(at, hdr');
      EndLinks(bs, brk, k);
      if hdr'.next != 0 {
        PutBlock(mem, bs, START, brk, {k + 1}, k + 1);
        WriteHdr(hdr'.next, mem[hdr'.next].(prev := at));
        LinkedAll(mem, bs, {k + 1} - {k + 1});
      } else {
        LinkedAll(mem, bs, {k + 1});
      }
      blocks := bs;
    }

    /** vm_alloc_free: releases the block whose payload is at addr and merges it with its free neighbours. An
        address outside the heap or of a free block is ignored. Addresses inside the heap must be payloads. */
    method Free(addr: nat)
      requires Valid()
      requires START + HDR <= addr < brk ==> exists i :: 0 <= i < |blocks| && blocks[i].addr + HDR == addr
      modifies `mem, `blocks
      ensures Valid()
      ensures var bs := old(blocks);
              var i := if HDR <= addr then Find(bs, addr - HDR) else |bs|;
              if START + HDR <= addr < brk && i < |bs|
              then blocks == FreeAt(bs, i) && Live(blocks) == Live(bs) - {addr - HDR}
              else blocks == bs
    {
      hide Shaped, Linked, NoFreePair, FreeAt, Live, Join, JoinedNext;
      if addr < START + HDR || brk <= addr {
        return;
      }
      ghost var i :| 0 <= i < |blocks| && blocks[i].addr + HDR == addr;
      ghost var bs := blocks;
      FindIs(bs, brk, i);
      var curr := addr - HDR;
      LinkAt(mem, blocks, i);
      var hdr := mem[curr];
      if hdr.free {
        return;
      }
      FreeOk(bs, brk, i);
      FreeLive(bs, brk, i);
      FreeBySteps(bs, i);
      ReleaseSteps(curr, hdr, i);
    }

    method ReleaseSteps(curr: nat, hdr0: Hdr, ghost i: nat)
      requires Intact() && IsLive(blocks, i) && blocks[i].addr == curr && hdr0 == HdrOf(blocks, i)
      modifies `mem, `blocks
      ensures Intact()
      ensures i < |JoinedNext(old(blocks), i)|
      ensures blocks == if 0 < i && old(blocks)[i - 1].free then Join(JoinedNext(old(blocks), i), i - 1)
                        else JoinedNext(old(blocks), i)
    {
      hide Shaped, Tiles, Put, Linked, LinkedBut;
      ghost var bs := blocks;
      MarkLinks(mem, bs, brk, i);
      MarkShaped(bs, brk, i);
      var hdr := hdr0.(free := true);
      WriteHdr(curr, hdr);
      blocks := Mark(bs, i);
      EndLinks(blocks, brk, i);
      if hdr.next != 0 {
        LinkAt(mem, blocks, i + 1);
        var next := mem[hdr.next];
        if next.free {
          hdr := Swallow(curr, hdr, next, i);
        }
      }
      assert blocks == JoinedNext(bs, i);
      ShapedTiles(blocks, brk);
      EndLinks(blocks, brk, i);
      if hdr.prev != 0 {
        LinkAt(mem, blocks, i - 1);
        var prev := mem[hdr.prev];
        if prev.free {
          var merged := Swallow(hdr.prev, prev, hdr, i - 1);
        }
      }
    }

    /** vm_alloc_get_stats: counts what the list walk sees. */
    method Stats() returns (total: nat, freeBlocks: nat, liveBlocks: nat, freeBytes: nat)
      requires Valid()
      ensures total == |blocks| == freeBlocks + liveBlocks
      ensures freeBytes == FreeBytes(blocks)
      ensures freeBytes + LiveBytes(blocks) + HDR * total == brk - START
    {
      hide Shaped, Linked, NoFreePair, Tiles;
      total, freeBlocks, liveBlocks, freeBytes := 0, 0, 0, 0;
      ShapedTiles(blocks, brk);
      BytesAddUp(blocks, START, brk);
      NotEmpty(blocks, brk);
      if brk == START {
        return;
      }
      var curr := START;
      FirstAddr(blocks, brk);
      while curr < brk
        invariant total < |blocks| && curr == blocks[total].addr && total == freeBlocks + liveBlocks
        invariant freeBytes == FreeBytes(blocks[..total])
        decreases |blocks| - total
      {
        LinkAt(mem, blocks, total);
        var hdr := mem[curr];
        EndLinks(blocks, brk, total);
        assert blocks[..total + 1][..total] == blocks[..total];
        total := total + 1;
        if hdr.free {
          freeBlocks := freeBlocks + 1;
          freeBytes := freeBytes + hdr.size;
        } else {
          liveBlocks := liveBlocks + 1;
        }
        if hdr.next == 0 {
          assert blocks[..total] == blocks;
          return;
        }
        curr := hdr.next;
      }
      Inside(blocks, START, brk, total);
    }
  }

  /** Freeing what malloc just returned, if the heap did not have to grow, restores the block list exactly. */
  method MallocThenFree(h: Heap, request: nat)
    requires h.Valid() && Usable(request)
    requires FirstFit(Started(h.blocks), AlignUp(request, 4)) < |Started(h.blocks)|
    modifies h
    ensures h.Valid() && h.blocks == Started(old(h.blocks)) && h.brk == StartedBrk(old(h.brk))
  {
    hide Shaped, Linked, NoFreePair, Live, Slack, AlignUp, FreeAt, AllocAt;
    FreeRestores(h.blocks, h.brk, request);
    var addr;
    ghost var grew;
    addr, grew := h.Malloc(request);
    h.Free(addr);
  }

  lemma FreeRestores(bs0: seq<Block>, brk: nat, request: nat)
    requires WellFormed(bs0, brk) && Usable(request) && FirstFit(Started(bs0), AlignUp(request, 4)) < |Started(bs0)|
    ensures var bs, size := Started(bs0), AlignUp(request, 4);
            var i := FirstFit(bs, size);
            var r := AllocAt(bs, i, size);
            && i < |r| && r[i].addr == bs[i].addr && Find(r, bs[i].addr) == i && FreeAt(r, i) == bs
            && START <= r[i].addr && r[i].addr + HDR < StartedBrk(brk)
  {
    hide Shaped, NoFreePair, FreeAt, AllocAt, AlignUp;
    var bs, size := Started(bs0), AlignUp(request, 4);
    var i := FirstFit(bs, size);
    StartedOk(bs0, brk);
    TakenFound(bs, StartedBrk(brk), i, size, request);
    FreeUndoesAlloc(bs, StartedBrk(brk), i, size);
  }

  lemma StartedOk(bs: seq<Block>, brk: nat)
    requires WellFormed(bs, brk)
    ensures WellFormed(Started(bs), StartedBrk(brk))
  {
    NotEmpty(bs, brk);
  }

  /** Where the block just taken is found again. */
  lemma TakenFound(bs: seq<Block>, brk: nat, i: nat, size: nat, request: nat)
    requires WellFormed(bs, brk) && i < |bs| && Fits(bs[i], size) && size == AlignUp(request, 4) && request != 0
    ensures var r := AllocAt(bs, i, size);
            r[i].addr == bs[i].addr && IsLive(r, i) && Find(r, bs[i].addr) == i && START <= r[i].addr && r[i].addr + HDR < brk
  {
    AlignFacts(request);
    AllocOk(bs, brk, i, size);
    FindIs(AllocAt(bs, i, size), brk, i);
    Inside(AllocAt(bs, i, size), START, brk, i);
  }

  /** A live address is the payload's block, inside the heap. */
  lemma LiveInside(bs: seq<Block>, brk: nat, a: nat)
    requires WellFormed(bs, brk) && a in Live(bs)
    ensures var i := Find(bs, a); i < |bs| && bs[i].addr == a && START <= a && a + HDR < brk
  {
    LiveIff(bs, START, brk, a);
    Inside(bs, START, brk, Find(bs, a));
  }

  lemma NextToFree(bs: seq<Block>, order: seq<nat>)
    requires order != [] && Permutes(order, Live(bs).Keys)
    ensures order[0] in Live(bs) && Permutes(order[1..], Live(bs).Keys - {order[0]})
  {
    assert order[0] in order;
    forall x
      ensures x in Live(bs).Keys - {order[0]} <==> x in order[1..]
    {
      assert x in order <==> x == order[0] || x in order[1..];
    }
  }

  /** All live blocks of a heap released, in any order: one free block over the whole heap is left. */
  method FreeEach(h: Heap, order: seq<nat>)
    requires h.Valid() && h.blocks != [] && Permutes(order, Live(h.blocks).Keys)
    modifies h`mem, h`blocks
    ensures h.Valid() && |h.blocks| == 1 && h.blocks[0].free && h.blocks[0].addr == START && End(h.blocks[0]) == h.brk
  {
    hide Shaped, Linked, NoFreePair, FreeAt, Live, Permutes;
    FreeEverything(h.blocks, h.brk, order);
    ghost var r := FreeAll(h.blocks, order);
    var i := 0;
    assert order[0..] == order;
    while i < |order|
      invariant 0 <= i <= |order| && h.Valid() && h.brk == old(h.brk)
      invariant Permutes(order[i..], Live(h.blocks).Keys) && FreeAll(h.blocks, order[i..]) == r
    {
      NextToFree(h.blocks, order[i..]);
      LiveInside(h.blocks, h.brk, order[i]);
      h.Free(order[i] + HDR);
      assert order[i..][1..] == order[i + 1..];
      i := i + 1;
    }
    assert order[i..] == [];
  }
}
