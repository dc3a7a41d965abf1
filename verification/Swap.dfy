/** Swap space (swap.c): a slot allocator with one page of bytes per slot. */
module Swap {
  import opened VmTypes

  class SwapSpace {
    var pages: seq<seq<bv8>>
    var owner: Owners
    var used: nat
    var free: nat
    var ins: nat
    var outs: nat

    ghost predicate Valid()
      reads this
    {
      && |pages| == |owner|
      && (forall s :: 0 <= s < |pages| ==> |pages[s]| == PAGE_SIZE)
      && used == Count(owner)
      && used + free == |owner|
    }

    constructor (slots: nat)
      ensures Valid() && |owner| == slots && forall s :: 0 <= s < slots ==> owner[s] == None
    {
      pages := seq(slots, i => ZeroPage());
      owner := [];
      used := 0;
      free := 0;
      ins := 0;
      outs := 0;
      new;
      while |owner| < slots
        invariant |owner| <= slots && used == Count(owner) == 0 && free == |owner|
        invariant forall s :: 0 <= s < |owner| ==> owner[s] == None
        invariant pages == seq(slots, i => ZeroPage())
      {
        assert (owner + [None])[..|owner|] == owner;
        owner := owner + [None];
        free := free + 1;
      }
    }

    /** Takes the lowest free slot; negative when swap is full. */
    method Alloc(pid: int, vpn: nat) returns (slot: int)
      requires Valid()
      modifies `owner, `used, `free
      ensures Valid() && |owner| == old(|owner|)
      ensures slot < 0 <==> forall s :: 0 <= s < |owner| ==> old(owner)[s].Some?
      ensures slot < 0 ==> owner == old(owner)
      ensures 0 <= slot ==>
                && slot < |owner| && old(owner)[slot] == None && (forall s :: 0 <= s < slot ==> old(owner)[s].Some?)
                && owner == old(owner)[slot := Some(PageId(pid, vpn))]
    {
      var i := 0;
      while i < |owner|
        invariant 0 <= i <= |owner| && owner == old(owner) && Valid()
        invariant forall s :: 0 <= s < i ==> owner[s].Some?
      {
        if owner[i].None? {
          CountUpdate(owner, i, Some(PageId(pid, vpn)));
          owner := owner[i := Some(PageId(pid, vpn))];
          used := used + 1;
          free := free - 1;
          return i;
        }
        i := i + 1;
      }
      slot := -1;
    }

    method Free(slot: nat)
      requires Valid()
      modifies `owner, `used, `free
      ensures Valid()
      ensures owner == if slot < old(|owner|) then old(owner)[slot := None] else old(owner)
    {
      if slot < |owner| {
        CountUpdate(owner, slot, None);
        if owner[slot].Some? {
          owner := owner[slot := None];
          used := used - 1;
          free := free + 1;
        }
      }
    }

    /** Copies a frame's bytes into a slot. */
    method Out(bytes: seq<bv8>, slot: nat)
      requires Valid() && |bytes| == PAGE_SIZE
      modifies `pages, `outs
      ensures Valid()
      ensures pages == if slot < old(|pages|) then old(pages)[slot := bytes] else old(pages)
    {
      if slot < |pages| {
        pages := pages[slot := bytes];
        outs := outs + 1;
      }
    }

    /** The bytes of a slot, read back for a frame. */
    method In(slot: nat) returns (bytes: seq<bv8>)
      requires Valid() && slot < |pages|
      modifies `ins
      ensures bytes == pages[slot]
    {
      ins := ins + 1;
      bytes := pages[slot];
    }
  }
}
