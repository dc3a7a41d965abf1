/** The specification: every process has a plain byte array, and a read returns the last write. */
module FlatMemory {
  import opened VmTypes
  import opened Ownership

  const SPACE: nat := NUM_PAGES * PAGE_SIZE

  ghost predicate FlatOk(m: Flat) {
    forall p :: p in m ==> |m[p]| == NUM_PAGES && forall v :: 0 <= v < NUM_PAGES ==> |m[p][v]| == PAGE_SIZE
  }

  ghost predicate InSpace(m: Flat, pid: int, addr: nat) {
    FlatOk(m) && pid in m && addr < SPACE
  }

  ghost function Peek(m: Flat, pid: int, addr: nat): bv8
    requires InSpace(m, pid, addr)
  {
    m[pid][addr / PAGE_SIZE][addr % PAGE_SIZE]
  }

  ghost function Poke(m: Flat, pid: int, addr: nat, val: bv8): (r: Flat)
    requires InSpace(m, pid, addr)
    ensures FlatOk(r) && r.Keys == m.Keys
  {
    SetPage(m, PageId(pid, addr / PAGE_SIZE), m[pid][addr / PAGE_SIZE][addr % PAGE_SIZE := val])
  }

  /** A byte reads back what was last stored there, whichever bytes were stored since. */
  lemma PeekPoke(m: Flat, pid: int, addr: nat, val: bv8, pid': int, addr': nat)
    requires InSpace(m, pid, addr) && InSpace(m, pid', addr')
    ensures Peek(Poke(m, pid, addr, val), pid', addr') ==
            if pid' == pid && addr' == addr then val else Peek(m, pid', addr')
  {
    if addr' / PAGE_SIZE == addr / PAGE_SIZE && addr' % PAGE_SIZE == addr % PAGE_SIZE {
      assert addr' == addr / PAGE_SIZE * PAGE_SIZE + addr % PAGE_SIZE;
    }
  }

  /** The bytes src stored from addr on. */
  ghost function WriteAll(m: Flat, pid: int, addr: nat, src: seq<bv8>): (r: Flat)
    requires FlatOk(m) && pid in m && addr + |src| <= SPACE
    ensures FlatOk(r) && r.Keys == m.Keys
  {
    if src == [] then m
    else
      var k := |src| - 1;
      Poke(WriteAll(m, pid, addr, src[..k]), pid, addr + k, src[k])
  }

  ghost function ReadAll(m: Flat, pid: int, addr: nat, len: nat): (bytes: seq<bv8>)
    requires FlatOk(m) && pid in m && addr + len <= SPACE
    ensures |bytes| == len
  {
    seq(len, i requires 0 <= i < len => Peek(m, pid, addr + i))
  }

  /** Every byte of the stored range holds its new value and every other byte its old one. */
  lemma {:induction false} PeekWriteAll(m: Flat, pid: int, addr: nat, src: seq<bv8>, pid': int, addr': nat)
    requires FlatOk(m) && pid in m && addr + |src| <= SPACE && InSpace(m, pid', addr')
    ensures Peek(WriteAll(m, pid, addr, src), pid', addr') ==
            if pid' == pid && addr <= addr' < addr + |src| then src[addr' - addr] else Peek(m, pid', addr')
  {
    hide Peek, Poke, FlatOk;
    if src != [] {
      var k := |src| - 1;
      PeekWriteAll(m, pid, addr, src[..k], pid', addr');
      PeekPoke(WriteAll(m, pid, addr, src[..k]), pid, addr + k, src[k], pid', addr');
    }
  }

  /** Reading a range right after writing it gives what was written. */
  lemma ReadAfterWrite(m: Flat, pid: int, addr: nat, src: seq<bv8>)
    requires FlatOk(m) && pid in m && addr + |src| <= SPACE
    ensures ReadAll(WriteAll(m, pid, addr, src), pid, addr, |src|) == src
  {
    forall i | 0 <= i < |src|
      ensures ReadAll(WriteAll(m, pid, addr, src), pid, addr, |src|)[i] == src[i]
    {
      PeekWriteAll(m, pid, addr, src, pid, addr + i);
    }
  }

  ghost function PageAt(pid: int, addr: nat): PageId {
    PageId(pid, addr / PAGE_SIZE)
  }

  ghost function ZeroSpace(): seq<seq<bv8>> {
    seq(NUM_PAGES, v => ZeroPage())
  }
}
