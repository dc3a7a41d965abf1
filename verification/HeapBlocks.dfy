/** The heap of one process as a list of blocks that tile it: first fit, split, coalesce, growth
    (what vm_alloc.c does to the list, without the pointers). */
module HeapBlocks {
  const HDR: nat := 8
  const PAGE: nat := 256
  const START: nat := 0x4000
  const MAX_PAGES: nat := 128
  const LIMIT: nat := START + MAX_PAGES * PAGE

  /** addr is the address of the header; the payload follows it. */
  datatype Block = Block(addr: nat, size: nat, free: bool)

  function End(b: Block): nat {
    b.addr + HDR + b.size
  }

  /** The blocks lie end to end from lo to hi. */
  ghost predicate Tiles(bs: seq<Block>, lo: nat, hi: nat) {
    if bs == [] then lo == hi
    else
      && bs[0].addr == lo
      && End(bs[|bs| - 1]) == hi
      && forall i :: 0 <= i < |bs| - 1 ==> bs[i + 1].addr == End(bs[i])
  }

  ghost predicate Sized(bs: seq<Block>) {
    forall i :: 0 <= i < |bs| ==> 4 <= bs[i].size && bs[i].size % 4 == 0
  }

  ghost predicate NoFreePair(bs: seq<Block>) {
    forall i :: 0 <= i < |bs| - 1 ==> !(bs[i].free && bs[i + 1].free)
  }

  ghost predicate Shaped(bs: seq<Block>, brk: nat) {
    Tiles(bs, START, brk) && Sized(bs)
  }

  ghost predicate WellFormed(bs: seq<Block>, brk: nat) {
    Shaped(bs, brk) && NoFreePair(bs)
  }

  /** Later blocks lie entirely after earlier ones: payloads overlap neither each other nor any header. */
  lemma {:induction false} Ordered(bs: seq<Block>, lo: nat, hi: nat, i: nat, j: nat)
    requires Tiles(bs, lo, hi) && i < j < |bs|
    ensures End(bs[i]) <= bs[j].addr
  {
    if i + 1 < j {
      Ordered(bs, lo, hi, i, j - 1);
    }
  }

  lemma {:induction false} Inside(bs: seq<Block>, lo: nat, hi: nat, i: nat)
    requires Tiles(bs, lo, hi) && i < |bs|
    ensures lo <= bs[i].addr && End(bs[i]) <= hi
  {
    if 0 < i {
      Ordered(bs, lo, hi, 0, i);
    }
    if i < |bs| - 1 {
      Ordered(bs, lo, hi, i, |bs| - 1);
    }
  }

  /** Every address and size of the heap fits in 16 bits. */
  lemma FieldsFit(bs: seq<Block>, brk: nat, i: nat)
    requires Shaped(bs, brk) && brk <= LIMIT && i < |bs|
    ensures bs[i].addr <= 0xFFFF && bs[i].size <= 0xFFFF && End(bs[i]) <= 0xFFFF && 0 < bs[i].addr
  {
    Inside(bs, START, brk, i);
  }

  /** Blocks i .. j replaced by others over the same stretch of memory. */
  lemma Splice(bs: seq<Block>, brk: nat, i: nat, j: nat, mid: seq<Block>)
    requires Shaped(bs, brk) && i < j <= |bs| && mid != []
    requires Tiles(mid, bs[i].addr, End(bs[j - 1])) && Sized(mid)
    ensures Shaped(bs[..i] + mid + bs[j..], brk)
  {
    var r := bs[..i] + mid + bs[j..];
    forall k | 0 <= k < |r| - 1
      ensures r[k + 1].addr == End(r[k])
    {
      if k + 1 < i {
        assert r[k] == bs[k] && r[k + 1] == bs[k + 1];
      } else if k + 1 == i {
        assert r[k] == bs[k] && r[k + 1] == mid[0];
        assert bs[k + 1].addr == End(bs[k]);
      } else if k - i + 1 < |mid| {
        assert r[k] == mid[k - i] && r[k + 1] == mid[k - i + 1];
      } else if k - i + 1 == |mid| {
        assert r[k] == mid[|mid| - 1] && r[k + 1] == bs[j];
        assert bs[j - 1 + 1].addr == End(bs[j - 1]);
      } else {
        var k' := k - i - |mid| + j;
        assert r[k] == bs[k'] && r[k + 1] == bs[k' + 1];
      }
    }
    assert j == |bs| ==> r[|r| - 1] == mid[|mid| - 1];
    assert j < |bs| ==> r[|r| - 1] == bs[|bs| - 1];
  }

  lemma SpliceNoPair(bs: seq<Block>, i: nat, j: nat, mid: seq<Block>)
    requires i < j <= |bs| && mid != [] && NoFreePair(bs[..i]) && NoFreePair(mid) && NoFreePair(bs[j..])
    requires 0 < i ==> !(bs[i - 1].free && mid[0].free)
    requires j < |bs| ==> !(mid[|mid| - 1].free && bs[j].free)
    ensures NoFreePair(bs[..i] + mid + bs[j..])
  {
    var l, t := bs[..i], bs[j..];
    var r := l + mid + t;
    forall k | 0 <= k < |r| - 1
      ensures !(r[k].free && r[k + 1].free)
    {
      if k + 1 < i {
        assert r[k] == l[k] && r[k + 1] == l[k + 1];
      } else if i <= k && k - i + 1 < |mid| {
        assert r[k] == mid[k - i] && r[k + 1] == mid[k - i + 1];
      } else if i + |mid| <= k {
        var k' := k - i - |mid|;
        assert r[k] == t[k'] && r[k + 1] == t[k' + 1];
      }
    }
  }

  // ----- live payloads -----

  /** The allocated blocks: header address to payload size. */
  ghost function Live(bs: seq<Block>): (m: map<nat, nat>) {
    if bs == [] then map[]
    else
      var m := Live(bs[..|bs| - 1]);
      var b := bs[|bs| - 1];
      if b.free then m else m[b.addr := b.size]
  }

  ghost predicate IsLive(bs: seq<Block>, i: int) {
    0 <= i < |bs| && !bs[i].free
  }

  lemma {:induction false} LiveIff(bs: seq<Block>, lo: nat, hi: nat, a: nat)
    requires Tiles(bs, lo, hi)
    ensures a in Live(bs) <==> exists i :: IsLive(bs, i) && bs[i].addr == a
    ensures forall i :: IsLive(bs, i) ==> bs[i].addr in Live(bs) && Live(bs)[bs[i].addr] == bs[i].size
  {
    if bs != [] {
      var k := |bs| - 1;
      var pre := bs[..k];
      assert Tiles(pre, lo, bs[k].addr);
      LiveIff(pre, lo, bs[k].addr, a);
      forall i | IsLive(pre, i)
        ensures pre[i].addr < bs[k].addr
      {
        Ordered(bs, lo, hi, i, k);
      }
      if a in Live(bs) && !(!bs[k].free && a == bs[k].addr) {
        var i :| IsLive(pre, i) && pre[i].addr == a;
        assert IsLive(bs, i) && bs[i].addr == a;
      }
      forall i | IsLive(bs, i)
        ensures bs[i].addr in Live(bs) && Live(bs)[bs[i].addr] == bs[i].size
      {
        if i < k {
          assert IsLive(pre, i);
        }
      }
    }
  }

  /** Live of a concatenation. */
  lemma {:induction false} LiveConcat(a: seq<Block>, b: seq<Block>)
    ensures Live(a + b) == Live(a) + Live(b)
  {
    if b == [] {
      assert a + b == a;
    } else {
      var k := |b| - 1;
      assert (a + b)[..|a| + k] == a + b[..k];
      LiveConcat(a, b[..k]);
    }
  }

  // ----- allocation -----

  function AlignUp(size: nat, alignment: nat): nat
    requires 0 < alignment
  {
    (size + alignment - 1) / alignment * alignment
  }

  lemma AlignFacts(size: nat)
    ensures AlignUp(size, 4) % 4 == 0 && size <= AlignUp(size, 4) < size + 4
    ensures size % 4 == 0 ==> AlignUp(size, 4) == size
  {
  }

  /** The list a call works on: the first call sets up one free block of two pages. */
  ghost function Started(bs: seq<Block>): seq<Block> {
    if bs == [] then [Block(START, 2 * PAGE - HDR, true)] else bs
  }

  ghost function StartedBrk(brk: nat): nat {
    if brk == START then START + 2 * PAGE else brk
  }

  ghost predicate Fits(b: Block, size: nat) {
    b.free && size <= b.size
  }

  /** Index of the first block that can take size bytes; |bs| when there is none. */
  ghost function FirstFit(bs: seq<Block>, size: nat): (i: nat)
    ensures i <= |bs|
    ensures forall j :: 0 <= j < i ==> !Fits(bs[j], size)
    ensures i < |bs| ==> Fits(bs[i], size)
  {
    if bs == [] then 0
    else if Fits(bs[0], size) then 0
    else
      var r := FirstFit(bs[1..], size);
      assert forall j :: 1 <= j < r + 1 ==> bs[j] == bs[1..][j - 1];
      r + 1
  }

  lemma FirstFitIs(bs: seq<Block>, size: nat, i: nat)
    requires i <= |bs| && (forall j :: 0 <= j < i ==> !Fits(bs[j], size)) && (i < |bs| ==> Fits(bs[i], size))
    ensures FirstFit(bs, size) == i
  {
  }

  ghost function Splits(b: Block, size: nat): bool {
    size + HDR + 4 <= b.size
  }

  /** What becomes of a block taken for size bytes: what is left over becomes a free block if it can hold one. */
  ghost function Taken(b: Block, size: nat): (r: seq<Block>) {
    if Splits(b, size)
    then [Block(b.addr, size, false), Block(b.addr + HDR + size, b.size - size - HDR, true)]
    else [b.(free := false)]
  }

  ghost function AllocAt(bs: seq<Block>, i: nat, size: nat): (r: seq<Block>)
    requires i < |bs|
  {
    bs[..i] + Taken(bs[i], size) + bs[i + 1..]
  }

  lemma TakenShape(b: Block, size: nat)
    requires size <= b.size && 4 <= size && size % 4 == 0 && b.size % 4 == 0
    ensures Taken(b, size) != [] && Tiles(Taken(b, size), b.addr, End(b)) && Sized(Taken(b, size))
  {
    var rest := b.size - size - HDR;
    assert rest % 4 == 0;
  }

  /** Allocation keeps the tiling. */
  lemma AllocShaped(bs: seq<Block>, brk: nat, i: nat, size: nat)
    requires Shaped(bs, brk) && i < |bs| && Fits(bs[i], size) && 4 <= size && size % 4 == 0
    ensures Shaped(AllocAt(bs, i, size), brk)
  {
    TakenShape(bs[i], size);
    hide Taken;
    Splice(bs, brk, i, i + 1, Taken(bs[i], size));
  }

  /** Allocation makes no pair of free neighbours: the leftover's successor was the free block's successor. */
  lemma AllocNoPair(bs: seq<Block>, i: nat, size: nat)
    requires i < |bs| && bs[i].free && NoFreePair(bs[..i]) && NoFreePair(bs[i..])
    ensures NoFreePair(AllocAt(bs, i, size))
  {
    var t := bs[i..];
    var u := bs[i + 1..];
    forall k | 0 <= k < |u| - 1
      ensures !(u[k].free && u[k + 1].free)
    {
      assert u[k] == t[k + 1] && u[k + 1] == t[k + 1 + 1];
    }
    assert i + 1 < |bs| ==> t[0 + 1] == bs[i + 1];
    SpliceNoPair(bs, i, i + 1, Taken(bs[i], size));
  }

  lemma AllocOk(bs: seq<Block>, brk: nat, i: nat, size: nat)
    requires WellFormed(bs, brk) && i < |bs| && Fits(bs[i], size) && 4 <= size && size % 4 == 0
    ensures WellFormed(AllocAt(bs, i, size), brk)
  {
    AllocShaped(bs, brk, i, size);
    var l, t := bs[..i], bs[i..];
    assert NoFreePair(l);
    forall k | 0 <= k < |t| - 1
      ensures !(t[k].free && t[k + 1].free)
    {
      assert t[k] == bs[i + k] && t[k + 1] == bs[i + k + 1];
    }
    AllocNoPair(bs, i, size);
  }

  ghost predicate Slack(size: nat, s: nat) {
    size <= s < size + HDR + 4
  }

  lemma LiveOne(b: Block)
    ensures Live([b]) == if b.free then map[] else map[b.addr := b.size]
  {
    assert [b][..0] == [];
  }

  lemma LiveTaken(b: Block, size: nat)
    requires Fits(b, size) && size % 4 == 0 && b.size % 4 == 0
    ensures exists s: nat :: Slack(size, s) && Live(Taken(b, size)) == map[b.addr := s]
  {
    if Splits(b, size) {
      var x, y := Taken(b, size)[0], Taken(b, size)[1];
      LiveOne(x);
      LiveOne(y);
      LiveConcat([x], [y]);
      assert Taken(b, size) == [x] + [y];
      assert Slack(size, size) && Live(Taken(b, size)) == map[b.addr := size];
    } else {
      LiveOne(b.(free := false));
      assert Slack(size, b.size);
    }
  }

  /** Live blocks of a list around the stretch i .. j. */
  lemma LiveAround(bs: seq<Block>, i: nat, j: nat, mid: seq<Block>)
    requires i <= j <= |bs|
    ensures Live(bs) == Live(bs[..i]) + Live(bs[i..j]) + Live(bs[j..])
    ensures Live(bs[..i] + mid + bs[j..]) == Live(bs[..i]) + Live(mid) + Live(bs[j..])
  {
    assert bs == bs[..i] + bs[i..j] + bs[j..];
    LiveConcat(bs[..i] + bs[i..j], bs[j..]);
    LiveConcat(bs[..i], bs[i..j]);
    LiveConcat(bs[..i] + mid, bs[j..]);
    LiveConcat(bs[..i], mid);
  }

  /** The address of block i is not the address of a live block before f or from t on. */
  lemma NotLiveOutside(bs: seq<Block>, brk: nat, i: nat, f: nat, t: nat)
    requires Tiles(bs, START, brk) && f <= i < t <= |bs|
    ensures bs[i].addr !in Live(bs[..f]) && bs[i].addr !in Live(bs[t..])
  {
    var l, r := bs[..f], bs[t..];
    assert Tiles(l, START, bs[f].addr) by {
      assert 0 < f ==> bs[f - 1 + 1].addr == End(bs[f - 1]);
    }
    var m := End(bs[t - 1]);
    assert Tiles(r, m, brk) by {
      assert t < |bs| ==> bs[t - 1 + 1].addr == m;
    }
    LiveIff(l, START, bs[f].addr, bs[i].addr);
    LiveIff(r, m, brk, bs[i].addr);
    forall k | IsLive(l, k)
      ensures l[k].addr < bs[i].addr
    {
      Ordered(bs, START, brk, k, i);
    }
    forall k | IsLive(r, k)
      ensures bs[i].addr < r[k].addr
    {
      Ordered(bs, START, brk, i, t + k);
    }
  }

  lemma OneMoreKey(l: map<nat, nat>, r: map<nat, nat>, a: nat, s: nat)
    requires a !in l && a !in r
    ensures l + map[a := s] + r == (l + map[] + r)[a := s]
    ensures (l + map[a := s] + r) - {a} == l + map[] + r
  {
  }

  /** Allocation adds exactly one live block, at an address that was not live, big enough and less than one
      header and a word too big; every other live block stays as it was. */
  lemma AllocLive(bs: seq<Block>, brk: nat, i: nat, size: nat)
    requires Shaped(bs, brk) && i < |bs| && Fits(bs[i], size) && 4 <= size && size % 4 == 0
    ensures bs[i].addr !in Live(bs)
    ensures exists s: nat :: Slack(size, s) && Live(AllocAt(bs, i, size)) == Live(bs)[bs[i].addr := s]
  {
    assert bs[i].size % 4 == 0;
    hide NoFreePair, Live, Taken;
    LiveTaken(bs[i], size);
    var s: nat :| Slack(size, s) && Live(Taken(bs[i], size)) == map[bs[i].addr := s];
    LiveAround(bs, i, i + 1, Taken(bs[i], size));
    assert bs[i..i + 1] == [bs[i]];
    LiveOne(bs[i]);
    NotLiveOutside(bs, brk, i, i, i + 1);
    OneMoreKey(Live(bs[..i]), Live(bs[i + 1..]), bs[i].addr, s);
  }

  // ----- growth -----

  ghost function GrowBy(bs: seq<Block>, brk: nat, pages: nat): seq<Block>
    requires 0 < pages
  {
    bs + [Block(brk, pages * PAGE - HDR, true)]
  }

  lemma GrowOk(bs: seq<Block>, brk: nat, pages: nat)
    requires Shaped(bs, brk) && 0 < pages
    ensures Shaped(GrowBy(bs, brk, pages), brk + pages * PAGE)
    ensures Live(GrowBy(bs, brk, pages)) == Live(bs)
  {
    var r := GrowBy(bs, brk, pages);
    assert r[..|bs|] == bs;
    assert forall i :: 0 <= i < |bs| ==> r[i] == bs[i];
  }

  /** The pages asked for hold the request and its header, and no more than needed. */
  function PagesFor(size: nat): (n: nat)
    ensures 0 < n && size + HDR <= n * PAGE < size + HDR + PAGE
  {
    AlignUp(HDR + size, PAGE) / PAGE
  }

  /** After growing, the request goes into the new block: the free block before it, if any, stays alone. */
  lemma GrowAllocOk(bs: seq<Block>, brk: nat, size: nat)
    requires WellFormed(bs, brk) && 4 <= size && size % 4 == 0 && FirstFit(bs, size) == |bs|
    ensures var g := GrowBy(bs, brk, PagesFor(size));
            && FirstFit(g, size) == |bs|
            && WellFormed(AllocAt(g, |bs|, size), brk + PagesFor(size) * PAGE)
  {
    GrowInto(bs, brk, size, PagesFor(size));
  }

  lemma GrowInto(bs: seq<Block>, brk: nat, size: nat, pages: nat)
    requires WellFormed(bs, brk) && 4 <= size && size % 4 == 0 && FirstFit(bs, size) == |bs|
    requires 0 < pages && size + HDR <= pages * PAGE < size + HDR + PAGE
    ensures var g := GrowBy(bs, brk, pages);
            FirstFit(g, size) == |bs| && WellFormed(AllocAt(g, |bs|, size), brk + pages * PAGE)
  {
    hide FirstFit, AllocAt, Tiles, NoFreePair, Sized;
    GrowOk(bs, brk, pages);
    FitAfterGrow(bs, brk, size, pages);
    AllocShaped(GrowBy(bs, brk, pages), brk + pages * PAGE, |bs|, size);
    GrownNoPair(bs, brk, size, pages);
  }

  lemma GrownNoPair(bs: seq<Block>, brk: nat, size: nat, pages: nat)
    requires NoFreePair(bs) && 0 < pages
    ensures NoFreePair(AllocAt(GrowBy(bs, brk, pages), |bs|, size))
  {
    var g := GrowBy(bs, brk, pages);
    assert g[..|bs|] == bs && g[|bs|..] == [g[|bs|]];
    AllocNoPair(g, |bs|, size);
  }

  /** After growth the new block, and no earlier one, takes the request. */
  lemma FitAfterGrow(bs: seq<Block>, brk: nat, size: nat, pages: nat)
    requires 0 < pages && size + HDR <= pages * PAGE && FirstFit(bs, size) == |bs|
    ensures FirstFit(GrowBy(bs, brk, pages), size) == |bs|
  {
    var g := GrowBy(bs, brk, pages);
    assert g[..|bs|] == bs;
    assert forall i :: 0 <= i < |bs| ==> g[i] == bs[i];
    FirstFitIs(g, size, |bs|);
  }

  // ----- release -----

  /** Where the stretch that merges with block i begins and ends. */
  function From(bs: seq<Block>, i: nat): nat
    requires i < |bs|
  {
    if 0 < i && bs[i - 1].free then i - 1 else i
  }

  function To(bs: seq<Block>, i: nat): nat
    requires i < |bs|
  {
    if i + 1 < |bs| && bs[i + 1].free then i + 2 else i + 1
  }

  /** Block i is released together with its free neighbours, as one block. */
  ghost function FreeAt(bs: seq<Block>, i: nat): (r: seq<Block>)
    requires i < |bs|
  {
    bs[..From(bs, i)] + [Merged(bs, i)] + bs[To(bs, i)..]
  }

  function Merged(bs: seq<Block>, i: nat): Block
    requires i < |bs|
  {
    var b := bs[i].(free := true);
    var c := if i + 1 < |bs| && bs[i + 1].free then b.(size := b.size + HDR + bs[i + 1].size) else b;
    if 0 < i && bs[i - 1].free then Block(bs[i - 1].addr, bs[i - 1].size + HDR + c.size, true) else c
  }

  lemma MergedSize(bs: seq<Block>, i: nat)
    requires Sized(bs) && i < |bs|
    ensures 4 <= Merged(bs, i).size && Merged(bs, i).size % 4 == 0
  {
  }

  /** Release keeps the heap well formed; in particular no two neighbours are free afterwards. */
  lemma FreeOk(bs: seq<Block>, brk: nat, i: nat)
    requires WellFormed(bs, brk) && IsLive(bs, i)
    ensures WellFormed(FreeAt(bs, i), brk)
  {
    assert 0 < i ==> bs[i - 1 + 1].addr == End(bs[i - 1]);
    MergedSize(bs, i);
    Splice(bs, brk, From(bs, i), To(bs, i), [Merged(bs, i)]);
    SpliceNoPair(bs, From(bs, i), To(bs, i), [Merged(bs, i)]);
  }

  /** Release removes exactly that block from the live ones. */
  lemma FreeLive(bs: seq<Block>, brk: nat, i: nat)
    requires WellFormed(bs, brk) && IsLive(bs, i)
    ensures Live(FreeAt(bs, i)) == Live(bs) - {bs[i].addr}
  {
    hide Sized, NoFreePair, Live, Tiles;
    var f, t := From(bs, i), To(bs, i);
    LiveAround(bs, f, t, [Merged(bs, i)]);
    LiveOne(Merged(bs, i));
    LiveRun(bs, f, t, i);
    NotLiveOutside(bs, brk, i, f, t);
    OneMoreKey(Live(bs[..f]), Live(bs[t..]), bs[i].addr, bs[i].size);
  }

  /** Of the stretch that merges, only block i itself was live. */
  lemma LiveRun(bs: seq<Block>, f: nat, t: nat, i: nat)
    requires IsLive(bs, i) && f == From(bs, i) && t == To(bs, i)
    ensures Live(bs[f..t]) == map[bs[i].addr := bs[i].size]
  {
    LiveOne(bs[i]);
    var x := bs[f..i + 1];
    if f < i {
      LiveOne(bs[f]);
      LiveConcat([bs[f]], [bs[i]]);
      assert x == [bs[f]] + [bs[i]];
    } else {
      assert x == [bs[i]];
    }
    if i + 1 < t {
      LiveOne(bs[i + 1]);
      LiveConcat(x, [bs[i + 1]]);
      assert bs[f..t] == x + [bs[i + 1]];
    } else {
      assert bs[f..t] == x;
    }
  }

  /** Blocks k and k+1 made into one free block. */
  ghost function Join(bs: seq<Block>, k: nat): (r: seq<Block>)
    requires k + 1 < |bs|
  {
    bs[..k] + [Block(bs[k].addr, bs[k].size + HDR + bs[k + 1].size, true)] + bs[k + 2..]
  }

  lemma JoinShaped(bs: seq<Block>, brk: nat, k: nat)
    requires Shaped(bs, brk) && k + 1 < |bs|
    ensures Shaped(Join(bs, k), brk)
  {
    assert bs[k + 1].addr == End(bs[k]);
    Splice(bs, brk, k, k + 2, [Block(bs[k].addr, bs[k].size + HDR + bs[k + 1].size, true)]);
  }

  ghost function Mark(bs: seq<Block>, i: nat): seq<Block>
    requires i < |bs|
  {
    bs[i := bs[i].(free := true)]
  }

  /** Release the way the code does it: mark, join with the next block, join with the previous one. */
  ghost function JoinedNext(bs: seq<Block>, i: nat): seq<Block>
    requires i < |bs|
  {
    var m := Mark(bs, i);
    if i + 1 < |bs| && bs[i + 1].free then Join(m, i) else m
  }

  lemma FreeBySteps(bs: seq<Block>, i: nat)
    requires i < |bs|
    ensures i < |JoinedNext(bs, i)|
    ensures FreeAt(bs, i) == if 0 < i && bs[i - 1].free then Join(JoinedNext(bs, i), i - 1) else JoinedNext(bs, i)
  {
  }

  // ----- bytes -----

  ghost function FreeBytes(bs: seq<Block>): nat {
    if bs == [] then 0
    else FreeBytes(bs[..|bs| - 1]) + if bs[|bs| - 1].free then bs[|bs| - 1].size else 0
  }

  ghost function LiveBytes(bs: seq<Block>): nat {
    if bs == [] then 0
    else LiveBytes(bs[..|bs| - 1]) + if bs[|bs| - 1].free then 0 else bs[|bs| - 1].size
  }

  /** Free payload, live payload and headers add up to the heap. */
  lemma {:induction false} BytesAddUp(bs: seq<Block>, lo: nat, hi: nat)
    requires Tiles(bs, lo, hi)
    ensures FreeBytes(bs) + LiveBytes(bs) + HDR * |bs| == hi - lo
  {
    if bs != [] {
      var k := |bs| - 1;
      assert Tiles(bs[..k], lo, bs[k].addr);
      BytesAddUp(bs[..k], lo, bs[k].addr);
    }
  }

  /** Releasing what was just allocated restores the very same list, split or not. */
  lemma FreeUndoesAlloc(bs: seq<Block>, brk: nat, i: nat, size: nat)
    requires WellFormed(bs, brk) && i < |bs| && Fits(bs[i], size)
    ensures FreeAt(AllocAt(bs, i, size), i) == bs
  {
  }

  /** A heap without live blocks is one free block. */
  lemma AllFree(bs: seq<Block>, brk: nat)
    requires WellFormed(bs, brk) && bs != [] && Live(bs) == map[]
    ensures |bs| == 1 && bs[0].free && bs[0].addr == START && End(bs[0]) == brk
  {
    forall i | 0 <= i < |bs|
      ensures bs[i].free
    {
      if IsLive(bs, i) {
        LiveIff(bs, START, brk, bs[i].addr);
      }
    }
  }

  /** Index of the live block at header address a; |bs| when there is none. */
  ghost function Find(bs: seq<Block>, a: nat): (i: nat)
    ensures i <= |bs|
    ensures i < |bs| ==> IsLive(bs, i) && bs[i].addr == a
    ensures i == |bs| ==> forall j :: IsLive(bs, j) ==> bs[j].addr != a
  {
    if exists i :: IsLive(bs, i) && bs[i].addr == a then
      var i :| IsLive(bs, i) && bs[i].addr == a;
      i
    else |bs|
  }

  /** Releases the blocks at the addresses of order, one after the other. */
  ghost function FreeAll(bs: seq<Block>, order: seq<nat>): seq<Block>
    decreases |order|
  {
    if order == [] then bs
    else
      var i := Find(bs, order[0]);
      FreeAll(if i < |bs| then FreeAt(bs, i) else bs, order[1..])
  }

  ghost predicate Permutes(order: seq<nat>, live: set<nat>) {
    && (forall i, j :: 0 <= i < j < |order| ==> order[i] != order[j])
    && (forall a :: a in live <==> a in order)
  }

  /** Releasing every live block, in any order, leaves one free block that spans the whole heap. */
  lemma {:induction false} FreeEverything(bs: seq<Block>, brk: nat, order: seq<nat>)
    requires WellFormed(bs, brk) && bs != [] && Permutes(order, Live(bs).Keys)
    ensures var r := FreeAll(bs, order);
            |r| == 1 && r[0].free && r[0].addr == START && End(r[0]) == brk
    decreases |order|
  {
    if order == [] {
      assert Live(bs).Keys == {};
      AllFree(bs, brk);
    } else {
      var a := order[0];
      assert a in order;
      LiveIff(bs, START, brk, a);
      var i := Find(bs, a);
      FreeOk(bs, brk, i);
      FreeLive(bs, brk, i);
      var rest := order[1..];
      forall x
        ensures x in Live(bs).Keys - {a} <==> x in rest
      {
        assert x in order <==> x == a || x in rest;
      }
      FreeEverything(FreeAt(bs, i), brk, rest);
    }
  }
}
