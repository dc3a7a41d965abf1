/** Sizes, page-table entries and logical page contents shared by the virtual-memory modules. */
module VmTypes {
  const PAGE_SIZE: nat := 256
  const NUM_PAGES: nat := 256

  datatype Option<+T> = None | Some(value: T)

  /** One virtual page of one process. */
  datatype PageId = PageId(pid: int, vpn: nat)

  datatype Perm = Perm(read: bool, write: bool, exec: bool)

  datatype Pte = Pte(
    frame: nat, perm: Perm, present: bool, dirty: bool, accessed: bool, referenced: bool,
    lastAccessed: nat, inSwap: bool, slot: nat)

  type PageTable = seq<Pte>
  type Tables = map<int, PageTable>

  /** Who owns each frame (or swap slot); None when it is free. */
  type Owners = seq<Option<PageId>>

  function ZeroPage(): (z: seq<bv8>)
    ensures |z| == PAGE_SIZE && forall i :: 0 <= i < |z| ==> z[i] == 0
  {
    seq(PAGE_SIZE, i => 0)
  }

  function Count(owner: Owners): (n: nat)
    ensures n <= |owner|
    ensures n == |owner| <==> forall i :: 0 <= i < |owner| ==> owner[i].Some?
  {
    if owner == [] then 0
    else
      var rest := Count(owner[..|owner| - 1]);
      assert forall i :: 0 <= i < |owner| - 1 ==> owner[..|owner| - 1][i] == owner[i];
      if owner[|owner| - 1].Some? then rest + 1 else rest
  }

  /** Setting one entry moves the count by exactly the change at that entry. */
  lemma {:induction false} CountUpdate(owner: Owners, i: nat, x: Option<PageId>)
    requires i < |owner|
    ensures Count(owner[i := x]) ==
            Count(owner) - (if owner[i].Some? then 1 else 0) + (if x.Some? then 1 else 0)
  {
    var last := |owner| - 1;
    if i == last {
      assert owner[i := x][..last] == owner[..last];
    } else {
      assert owner[i := x][..last] == owner[..last][i := x];
      CountUpdate(owner[..last], i, x);
    }
  }
}
