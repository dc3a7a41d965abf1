/** Segment layout and default permissions (page_table.c). */
module PageTables {
  import opened VmTypes

  const TEXT_PAGES: nat := 16
  const RODATA_PAGES: nat := 16
  const DATA_PAGES: nat := 16
  const BSS_PAGES: nat := 16
  const HEAP_MAX_PAGES: nat := 128
  const STACK_MAX_PAGES: nat := 64
  const HEAP_FIRST_PAGE: nat := TEXT_PAGES + RODATA_PAGES + DATA_PAGES + BSS_PAGES

  datatype Segment = Text | Rodata | Data | Bss | Heap | Stack | Unknown

  function SegmentOf(vpn: nat): (s: Segment)
    ensures vpn < NUM_PAGES ==> s != Unknown
  {
    if vpn < TEXT_PAGES then Text
    else if vpn < TEXT_PAGES + RODATA_PAGES then Rodata
    else if vpn < TEXT_PAGES + RODATA_PAGES + DATA_PAGES then Data
    else if vpn < HEAP_FIRST_PAGE then Bss
    else if vpn < HEAP_FIRST_PAGE + HEAP_MAX_PAGES then Heap
    else if NUM_PAGES - STACK_MAX_PAGES <= vpn < NUM_PAGES then Stack
    else Unknown
  }

  function DefaultPerm(vpn: nat): (p: Perm)
    ensures vpn < NUM_PAGES ==> p.read
    ensures vpn < NUM_PAGES ==> (p.write <==> TEXT_PAGES + RODATA_PAGES <= vpn)
  {
    match SegmentOf(vpn)
    case Text => Perm(true, false, true)
    case Rodata => Perm(true, false, false)
    case Unknown => Perm(false, false, false)
    case _ => Perm(true, true, false)
  }

  predicate WritableAt(addr: nat) {
    DefaultPerm(addr / PAGE_SIZE).write
  }

  predicate InHeap(first: nat, n: nat) {
    HEAP_FIRST_PAGE <= first && first + n <= HEAP_FIRST_PAGE + HEAP_MAX_PAGES
  }

  function Allows(p: Perm, write: bool): bool {
    if write then p.write else p.read
  }

  function NewTable(): (pt: PageTable)
    ensures |pt| == NUM_PAGES
    ensures forall v :: 0 <= v < NUM_PAGES ==>
                          !pt[v].present && !pt[v].inSwap && !pt[v].dirty && pt[v].perm == DefaultPerm(v)
  {
    seq(NUM_PAGES, v requires 0 <= v => Pte(0, DefaultPerm(v), false, false, false, false, 0, false, 0))
  }
}
