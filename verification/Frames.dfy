/** Physical memory (frame.c): one flat byte array cut into frames, and who owns each frame. */
module Frames {
  import opened VmTypes

  /** The bytes of frame pfn inside the flat RAM. */
  function Block(ram: seq<bv8>, pfn: nat): (b: seq<bv8>)
    requires (pfn + 1) * PAGE_SIZE <= |ram|
    ensures |b| == PAGE_SIZE
  {
    ram[pfn * PAGE_SIZE..(pfn + 1) * PAGE_SIZE]
  }

  function WriteBlock(ram: seq<bv8>, pfn: nat, src: seq<bv8>): (r: seq<bv8>)
    requires (pfn + 1) * PAGE_SIZE <= |ram| && |src| == PAGE_SIZE
    ensures |r| == |ram|
  {
    ram[..pfn * PAGE_SIZE] + src + ram[(pfn + 1) * PAGE_SIZE..]
  }

  /** Writing one frame changes that frame and no other. */
  lemma WriteBlockBytes(ram: seq<bv8>, pfn: nat, src: seq<bv8>, other: nat)
    requires (pfn + 1) * PAGE_SIZE <= |ram| && |src| == PAGE_SIZE && (other + 1) * PAGE_SIZE <= |ram|
    ensures Block(WriteBlock(ram, pfn, src), other) == if other == pfn then src else Block(ram, other)
  {
    var r := WriteBlock(ram, pfn, src);
    forall k | 0 <= k < PAGE_SIZE
      ensures Block(r, other)[k] == (if other == pfn then src else Block(ram, other))[k]
    {
      assert Block(r, other)[k] == r[other * PAGE_SIZE + k];
      if other < pfn {
        assert other * PAGE_SIZE + k < pfn * PAGE_SIZE;
      }
    }
  }

  /** Of two writes to a frame the last one stays. */
  lemma WriteBlockTwice(ram: seq<bv8>, pfn: nat, src: seq<bv8>, src': seq<bv8>)
    requires (pfn + 1) * PAGE_SIZE <= |ram| && |src| == |src'| == PAGE_SIZE
    ensures WriteBlock(WriteBlock(ram, pfn, src), pfn, src') == WriteBlock(ram, pfn, src')
  {
  }

  /** Writing one byte changes that byte of its frame and no other frame. */
  lemma WriteByteBytes(ram: seq<bv8>, pfn: nat, offset: nat, val: bv8, other: nat)
    requires (pfn + 1) * PAGE_SIZE <= |ram| && offset < PAGE_SIZE && (other + 1) * PAGE_SIZE <= |ram|
    ensures Block(ram[pfn * PAGE_SIZE + offset := val], other) ==
            if other == pfn then Block(ram, pfn)[offset := val] else Block(ram, other)
  {
    var r := ram[pfn * PAGE_SIZE + offset := val];
    var want := if other == pfn then Block(ram, pfn)[offset := val] else Block(ram, other);
    forall k | 0 <= k < PAGE_SIZE
      ensures Block(r, other)[k] == want[k]
    {
      assert Block(r, other)[k] == r[other * PAGE_SIZE + k];
    }
  }

  class FrameTable {
    var ram: seq<bv8>
    var owner: Owners
    var used: nat

    ghost predicate Valid()
      reads this
    {
      |ram| == |owner| * PAGE_SIZE && used == Count(owner)
    }

    constructor (frames: nat)
      ensures Valid() && |owner| == frames && forall f :: 0 <= f < frames ==> owner[f] == None
    {
      var free: Owners := seq(frames, i => None);
      ram := seq(frames * PAGE_SIZE, i => 0);
      owner := free;
      used := 0;
      new;
      NoneCounts(free);
    }

    static lemma NoneCounts(free: Owners)
      requires forall i :: 0 <= i < |free| ==> free[i] == None
      ensures Count(free) == 0
    {
      if free != [] {
        NoneCounts(free[..|free| - 1]);
      }
    }

    /** Takes the lowest free frame, zeroes it and records its owner; negative when RAM is full. */
    method Alloc(pid: int, vpn: nat) returns (pfn: int)
      requires Valid()
      modifies this
      ensures Valid() && |owner| == old(|owner|)
      ensures pfn < 0 <==> forall f :: 0 <= f < |owner| ==> old(owner)[f].Some?
      ensures pfn < 0 ==> owner == old(owner) && ram == old(ram)
      ensures 0 <= pfn ==>
                && pfn < |owner| && old(owner)[pfn] == None
                && (forall f :: 0 <= f < pfn ==> old(owner)[f].Some?)
                && owner == old(owner)[pfn := Some(PageId(pid, vpn))]
                && ram == WriteBlock(old(ram), pfn, ZeroPage())
    {
      var i := 0;
      while i < |owner|
        invariant 0 <= i <= |owner| && owner == old(owner) && ram == old(ram) && Valid()
        invariant forall f :: 0 <= f < i ==> owner[f].Some?
      {
        if owner[i].None? {
          CountUpdate(owner, i, Some(PageId(pid, vpn)));
          owner := owner[i := Some(PageId(pid, vpn))];
          used := used + 1;
          ram := WriteBlock(ram, i, ZeroPage());
          return i;
        }
        i := i + 1;
      }
      pfn := -1;
    }

    method Fill(pfn: nat, src: seq<bv8>)
      requires Valid() && |src| == PAGE_SIZE
      modifies `ram
      ensures Valid()
      ensures ram == if pfn < |owner| then WriteBlock(old(ram), pfn, src) else old(ram)
    {
      if pfn < |owner| {
        ram := WriteBlock(ram, pfn, src);
      }
    }

    method Free(pfn: nat)
      requires Valid()
      modifies `owner, `used
      ensures Valid()
      ensures owner == if pfn < old(|owner|) then old(owner)[pfn := None] else old(owner)
    {
      if pfn < |owner| {
        CountUpdate(owner, pfn, None);
        if owner[pfn].Some? {
          assert 1 <= used;
          owner := owner[pfn := None];
          used := used - 1;
        }
      }
    }
  }
}
