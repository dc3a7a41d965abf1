/** What the replacement policy goes by: its list and stamps, who owns the frames listed, the reference bits, and which pages
    the TLB knows. How each step of an access moves all of it. */
module PolicyView {
  import opened VmTypes
  import opened PageTables
  import opened Ownership
  import opened Replacement
  import opened Sequences
  import F = FifoOrder

  /** cached are the pages of process pid, which runs, that the TLB knows. */
  datatype View = View(
    kind: Kind, pages: seq<nat>, ticks: seq<nat>, hand: nat, owner: Owners, tables: Tables, pid: int, cached: set<nat>)

  /** No page has two frames. */
  ghost predicate Unshared(owner: Owners) {
    forall f, h :: 0 <= f < |owner| && 0 <= h < |owner| && owner[f].Some? && owner[f] == owner[h] ==> f == h
  }

  ghost predicate ViewOk(v: View) {
    && F.Within(v.pages, |v.owner|) && |v.owner| <= NUM_PAGES && Unshared(v.owner)
    && (v.kind == Lru ==> |v.ticks| == |v.pages|)
    && (v.kind == Clock ==> if v.pages == [] then v.hand == 0 else v.hand < |v.pages|)
    && forall p :: p in v.tables ==> |v.tables[p]| == NUM_PAGES
  }

  ghost function Line(v: View): F.Line
    requires ViewOk(v)
  {
    F.LineOf(v.pages, v.owner)
  }

  ghost function AsLine(p: Option<PageId>): F.Line {
    if p.Some? then [p] else []
  }

  // ----- LRU: when the pages were used -----

  type Stamps = map<PageId, nat>

  /** The stamps of the pages whose frames are listed. */
  ghost function StampsOf(pages: seq<nat>, ticks: seq<nat>, owner: Owners): Stamps
    requires |ticks| == |pages| && F.Within(pages, |owner|)
  {
    if pages == [] then map[]
    else
      var k := |pages| - 1;
      var rest := StampsOf(pages[..k], ticks[..k], owner);
      if owner[pages[k]].Some? then rest[owner[pages[k]].value := ticks[k]] else rest
  }

  /** The page in the i-th frame listed. */
  ghost predicate PageIn(pages: seq<nat>, owner: Owners, i: nat, g: PageId)
    requires F.Within(pages, |owner|)
  {
    i < |pages| && owner[pages[i]] == Some(g)
  }

  lemma {:induction false} StampAt(pages: seq<nat>, ticks: seq<nat>, owner: Owners, i: nat)
    requires |ticks| == |pages| && F.Within(pages, |owner|) && Unshared(owner) && i < |pages| && owner[pages[i]].Some?
    ensures var u, g := StampsOf(pages, ticks, owner), owner[pages[i]].value; g in u && u[g] == ticks[i]
  {
    var k := |pages| - 1;
    if i < k {
      StampAt(pages[..k], ticks[..k], owner, i);
      assert owner[pages[k]] != owner[pages[i]];
    }
  }

  lemma {:induction false} StampFrom(pages: seq<nat>, ticks: seq<nat>, owner: Owners, g: PageId) returns (i: nat)
    requires |ticks| == |pages| && F.Within(pages, |owner|) && g in StampsOf(pages, ticks, owner)
    ensures PageIn(pages, owner, i, g)
  {
    var k := |pages| - 1;
    if owner[pages[k]] == Some(g) {
      i := k;
    } else {
      i := StampFrom(pages[..k], ticks[..k], owner, g);
    }
  }

  /** u are the stamps exactly if each page listed has its own and nobody else has one. */
  lemma StampsAre(pages: seq<nat>, ticks: seq<nat>, owner: Owners, u: Stamps)
    requires |ticks| == |pages| && F.Within(pages, |owner|) && Unshared(owner)
    requires forall i :: 0 <= i < |pages| && owner[pages[i]].Some? ==>
                           owner[pages[i]].value in u && u[owner[pages[i]].value] == ticks[i]
    requires forall g :: g in u ==> exists i :: PageIn(pages, owner, i, g)
    ensures StampsOf(pages, ticks, owner) == u
  {
    var w := StampsOf(pages, ticks, owner);
    forall g | g in u
      ensures g in w && w[g] == u[g]
    {
      var i :| PageIn(pages, owner, i, g);
      StampAt(pages, ticks, owner, i);
    }
    forall g | g in w
      ensures g in u
    {
      var i := StampFrom(pages, ticks, owner, g);
    }
  }

  /** No page was used longer ago. */
  ghost predicate Least(u: Stamps, g: PageId) {
    g in u && forall x :: x in u ==> u[g] <= u[x]
  }

  /** The stamps after a page, if any, was given up and another one used. */
  ghost function Restamped(u: Stamps, gone: Option<PageId>, used: Option<PageId>, tick: nat): Stamps {
    var left := if gone.Some? then u - {gone.value} else u;
    if used.Some? then left[used.value := tick] else left
  }

  ghost predicate Ages(v: View, v': View, gone: Option<PageId>, used: Option<PageId>, tick: nat)
    requires ViewOk(v) && ViewOk(v') && v'.kind == v.kind
  {
    v.kind == Lru ==>
      var u := StampsOf(v.pages, v.ticks, v.owner);
      && (gone.Some? ==> Least(u, gone.value))
      && StampsOf(v'.pages, v'.ticks, v'.owner) == Restamped(u, gone, used, tick)
  }

  lemma OldestIsLeast(pages: seq<nat>, ticks: seq<nat>, owner: Owners, i: nat)
    requires |ticks| == |pages| && F.Within(pages, |owner|) && Unshared(owner) && i < |pages| && owner[pages[i]].Some?
    requires forall j :: 0 <= j < |pages| ==> ticks[i] <= ticks[j]
    ensures Least(StampsOf(pages, ticks, owner), owner[pages[i]].value)
  {
    var u := StampsOf(pages, ticks, owner);
    StampAt(pages, ticks, owner, i);
    forall x | x in u
      ensures ticks[i] <= u[x]
    {
      var j := StampFrom(pages, ticks, owner, x);
      StampAt(pages, ticks, owner, j);
    }
  }

  /** What is at place j once place i is gone. */
  function Beyond(i: nat, j: nat): nat {
    if j < i then j else j + 1
  }

  lemma WithoutAt<T>(s: seq<T>, i: nat)
    requires i < |s|
    ensures forall j :: 0 <= j < |s| - 1 ==> Without(s, i)[j] == s[Beyond(i, j)]
  {
  }

  /** Entry i leaves the list, and its frame may be freed. */
  lemma StampGone(pages: seq<nat>, ticks: seq<nat>, owner: Owners, i: nat, owner': Owners, pages': seq<nat>, ticks': seq<nat>)
    requires |ticks| == |pages| && F.Within(pages, |owner|) && Unshared(owner) && i < |pages| && owner[pages[i]].Some?
    requires (owner' == owner || owner' == owner[pages[i] := None]) && F.Within(pages', |owner'|)
    requires |pages'| == |ticks'| == |pages| - 1
    requires forall j :: 0 <= j < |pages'| ==> pages'[j] == pages[Beyond(i, j)] && ticks'[j] == ticks[Beyond(i, j)]
    ensures StampsOf(pages', ticks', owner') == StampsOf(pages, ticks, owner) - {owner[pages[i]].value}
  {
    hide StampsOf;
    var u, g := StampsOf(pages, ticks, owner), owner[pages[i]].value;
    forall j | 0 <= j < |pages'| && owner'[pages'[j]].Some?
      ensures var x := owner'[pages'[j]].value; x in u - {g} && (u - {g})[x] == ticks'[j]
    {
      var k := Beyond(i, j);
      assert pages[k] != pages[i] && owner'[pages'[j]] == owner[pages[k]];
      StampAt(pages, ticks, owner, k);
    }
    forall x | x in u - {g}
      ensures exists j :: PageIn(pages', owner', j, x)
    {
      var k := StampFrom(pages, ticks, owner, x);
      var j: nat := if k < i then k else k - 1;
      assert Beyond(i, j) == k && pages[k] != pages[i];
      assert PageIn(pages', owner', j, x);
    }
    StampsAre(pages', ticks', owner', u - {g});
  }

  /** Frame f, in use by g now, is stamped, and listed if it was not. */
  lemma StampSet(pages: seq<nat>, ticks: seq<nat>, owner: Owners, f: nat, g: PageId, tick: nat, pages': seq<nat>, ticks': seq<nat>,
                 owner': Owners)
    requires |ticks| == |pages| && F.Within(pages, |owner|) && Unshared(owner) && f < |owner|
    requires owner' == owner[f := Some(g)] && Unshared(owner') && (owner[f].None? || owner[f] == Some(g))
    requires pages' == (if f in pages then pages else pages + [f]) && F.Within(pages', |owner'|) && |ticks'| == |pages'|
    requires forall i :: 0 <= i < |pages'| ==> ticks'[i] == if pages'[i] == f then tick else if i < |ticks| then ticks[i] else 0
    ensures StampsOf(pages', ticks', owner') == StampsOf(pages, ticks, owner)[g := tick]
  {
    var u := StampsOf(pages, ticks, owner);
    var u' := u[g := tick];
    forall j | 0 <= j < |pages'| && owner'[pages'[j]].Some?
      ensures var x := owner'[pages'[j]].value; x in u' && u'[x] == ticks'[j]
    {
      if pages'[j] != f {
        assert j < |pages| && pages'[j] == pages[j];
        StampAt(pages, ticks, owner, j);
        assert owner'[f] != owner'[pages'[j]];
      }
    }
    forall x | x in u'
      ensures exists j :: PageIn(pages', owner', j, x)
    {
      if x == g {
        var j :| 0 <= j < |pages'| && pages'[j] == f;
        assert PageIn(pages', owner', j, x);
      } else {
        var j := StampFrom(pages, ticks, owner, x);
        assert PageIn(pages', owner', j, x);
      }
    }
    StampsAre(pages', ticks', owner', u');
  }

  // ----- Clock: reference bits -----

  ghost predicate Covers(pages: seq<nat>, pt: PageTable) {
    forall i :: 0 <= i < |pages| ==> pages[i] < |pt|
  }

  /** How many entries from the hand on, counted from the k-th, are passed over. */
  ghost function SweepFrom(pages: seq<nat>, hand: nat, pt: PageTable, k: nat): (n: nat)
    requires hand < |pages| && Covers(pages, pt) && k <= |pages|
    ensures k <= n <= |pages|
    decreases |pages| - k
  {
    if k == |pages| || !pt[At(pages, hand, k)].referenced then k else SweepFrom(pages, hand, pt, k + 1)
  }

  lemma {:induction false} SweepStops(pages: seq<nat>, hand: nat, pt: PageTable, k: nat)
    requires hand < |pages| && Covers(pages, pt) && k <= |pages| && ReferencedRun(pages, hand, k, pt)
    ensures StopsAfter(pages, hand, SweepFrom(pages, hand, pt, k), pt)
    decreases |pages| - k
  {
    if k < |pages| && pt[At(pages, hand, k)].referenced {
      SweepStops(pages, hand, pt, k + 1);
    }
  }

  ghost predicate Sweeps(v: View) {
    v.kind == Clock && v.pages != [] && v.pid in v.tables
  }

  /** How many entries the hand passes over before it finds one whose bit is clear. */
  ghost function SweepLength(v: View): (n: nat)
    requires ViewOk(v) && Sweeps(v)
    ensures n <= |v.pages|
  {
    SweepFrom(v.pages, v.hand, v.tables[v.pid], 0)
  }

  /** The entry at which the hand stops. */
  ghost function Stop(v: View): (i: nat)
    requires ViewOk(v) && Sweeps(v)
    ensures i < |v.pages|
  {
    Wrap(|v.pages|, v.hand + SweepLength(v))
  }

  /** The numbers whose bits, in the table of the running process, the sweep clears. */
  ghost predicate Clears(v: View, x: nat)
    requires ViewOk(v)
  {
    Sweeps(v) && Passed(v.pages, v.hand, SweepLength(v), x)
  }

  /** Under Clock the victim is the page at which the hand stops, and the others keep their places. */
  ghost predicate Spins(v: View, v': View, gone: Option<PageId>, come: Option<PageId>)
    requires ViewOk(v) && ViewOk(v')
  {
    v.kind == Clock && F.AllUsed(Line(v)) ==>
      if gone.Some? then
        && Sweeps(v) && Line(v)[Stop(v)] == gone && v'.hand == HandAfter(|v.pages|, Stop(v))
        && Line(v') == Without(Line(v), Stop(v)) + AsLine(come)
      else Line(v') == Line(v) + AsLine(come) && v'.hand == v.hand
  }

  /** The page used has its reference bit set; the sweep for a victim clears those it passes; all others stay. */
  ghost predicate Marks(v: View, v': View, gone: Option<PageId>, used: Option<PageId>)
    requires ViewOk(v)
  {
    forall g :: HasPage(v.tables, g) ==>
                  && HasPage(v'.tables, g)
                  && (PteOf(v'.tables, g).referenced <==>
                      used == Some(g)
                      || (PteOf(v.tables, g).referenced && !(gone.Some? && g.pid == v.pid && Clears(v, g.vpn))))
  }

  // ----- what the TLB knows -----

  /** The page walked to is known afterwards, and no other page comes in; without a walk at most the victim's number goes. */
  ghost predicate Learns(v: View, v': View, gone: Option<PageId>, used: Option<PageId>) {
    if used.Some? then used.value.vpn in v'.cached && v'.cached <= v.cached + {used.value.vpn}
    else v'.cached <= v.cached && v.cached - (if gone.Some? then {gone.value.vpn} else {}) <= v'.cached
  }

  // ----- a step -----

  /** From v to v' a page, if any, is given up, another comes in, and a page of the running process is walked to at this tick. */
  ghost predicate Moves(v: View, v': View, gone: Option<PageId>, come: Option<PageId>, used: Option<PageId>, tick: nat) {
    && ViewOk(v) && ViewOk(v') && v'.kind == v.kind && v'.pid == v.pid
    && F.InTurn(v.kind == Fifo, Line(v), Line(v'), gone, come)
    && Ages(v, v', gone, used, tick)
    && Spins(v, v', gone, come)
    && Marks(v, v', gone, used)
    && Learns(v, v', gone, used)
  }

  /** Tables with the same pages and the same reference bits. */
  ghost predicate SameBits(tables: Tables, tables': Tables) {
    forall g :: HasPage(tables, g) ==> HasPage(tables', g) && PteOf(tables', g).referenced == PteOf(tables, g).referenced
  }

  lemma Still(v: View, tick: nat)
    requires ViewOk(v)
    ensures Moves(v, v, None, None, None, tick)
  {
    F.NothingMoved(v.kind == Fifo, Line(v));
    assert Line(v) + [] == Line(v);
  }

  lemma AnyTick(v: View, v': View, gone: Option<PageId>, come: Option<PageId>, tick: nat, tick': nat)
    requires Moves(v, v', gone, come, None, tick)
    ensures Moves(v, v', gone, come, None, tick')
  {
    hide F.InTurn, Spins, Marks, StampsOf;
  }

  /** A TLB hit: neither the policy nor the reference bits notice. */
  lemma Unnoticed(v: View, v': View, tick: nat)
    requires ViewOk(v) && ViewOk(v') && v' == v.(tables := v'.tables) && SameBits(v.tables, v'.tables)
    ensures Moves(v, v', None, None, None, tick)
  {
    Still(v, tick);
  }

  /** The policy has given up entry i for the running process, and left pt of its table. */
  ghost predicate GivenUp(v: View, i: nat, pt: PageTable) {
    && v.pid in v.tables
    && VictimAt(v.kind, v.pages, v.ticks, v.hand, i, v.tables[v.pid]) && Leaves(v.kind, v.pages, v.hand, v.tables[v.pid], pt)
  }

  lemma SweepIs(v: View, k: nat)
    requires ViewOk(v) && Sweeps(v) && StopsAfter(v.pages, v.hand, k, v.tables[v.pid])
    ensures SweepLength(v) == k
  {
    SweepStops(v.pages, v.hand, v.tables[v.pid], 0);
    StopsAfterUnique(v.pages, v.hand, k, SweepLength(v), v.tables[v.pid]);
  }

  lemma VictimMarks(v: View, v': View, i: nat, pt: PageTable, g: PageId)
    requires ViewOk(v) && GivenUp(v, i, pt) && |pt| == NUM_PAGES && SameBits(v.tables[v.pid := pt], v'.tables)
    ensures Marks(v, v', Some(g), None)
  {
    if v.kind == Clock {
      var k :| StopsAfter(v.pages, v.hand, k, v.tables[v.pid]) && ClearedRun(v.pages, v.hand, k, v.tables[v.pid], pt);
      SweepIs(v, k);
    }
    forall h | HasPage(v.tables, h)
      ensures && HasPage(v'.tables, h)
              && (PteOf(v'.tables, h).referenced <==> PteOf(v.tables, h).referenced && !(h.pid == v.pid && Clears(v, h.vpn)))
    {
      assert HasPage(v.tables[v.pid := pt], h);
    }
  }

  lemma VictimLine(v: View, v': View, i: nat, pt: PageTable, g: PageId)
    requires ViewOk(v) && GivenUp(v, i, pt) && i < |v.pages| && v.owner[v.pages[i]] == Some(g) && ViewOk(v')
    requires v'.pages == Without(v.pages, i) && (v.kind == Clock ==> v'.hand == HandAfter(|v.pages|, i))
    requires v'.owner == v.owner || v'.owner == v.owner[v.pages[i] := None]
    ensures F.InTurn(v.kind == Fifo, Line(v), Line(v'), Some(g), None) && Spins(v, v', Some(g), None)
  {
    hide GivenUp, Stop, Sweeps, Without, F.InTurn, F.LineOf, Unshared;
    EntryGivenUp(v, i, pt);
    F.VictimGone(v.kind == Fifo, v.pages, v.owner, i, v'.owner, g);
    LineWithout(v.pages, v.owner, i, v'.owner);
    LineAt(v, i);
  }

  lemma EntryGivenUp(v: View, i: nat, pt: PageTable)
    requires ViewOk(v) && GivenUp(v, i, pt)
    ensures i < |v.pages| && (v.kind == Fifo ==> i == 0) && (v.kind == Clock ==> Sweeps(v) && Stop(v) == i)
  {
    if v.kind == Clock {
      var k :| StopsAfter(v.pages, v.hand, k, v.tables[v.pid]) && i == Wrap(|v.pages|, v.hand + k);
      SweepIs(v, k);
    }
  }

  lemma LineAt(v: View, i: nat)
    requires ViewOk(v) && i < |v.pages|
    ensures |Line(v)| == |v.pages| && Line(v)[i] == v.owner[v.pages[i]]
  {
  }

  lemma LineWithout(pages: seq<nat>, owner: Owners, i: nat, owner': Owners)
    requires F.Within(pages, |owner|) && i < |pages| && F.Within(Without(pages, i), |owner'|)
    requires owner' == owner || owner' == owner[pages[i] := None]
    ensures F.LineOf(Without(pages, i), owner') == Without(F.LineOf(pages, owner), i) + []
  {
    var line, line' := F.LineOf(pages, owner), F.LineOf(Without(pages, i), owner');
    WithoutAt(pages, i);
    WithoutAt(line, i);
    hide Without;
    forall j | 0 <= j < |line'|
      ensures line'[j] == Without(line, i)[j]
    {
      assert pages[Beyond(i, j)] != pages[i];
    }
  }

  /** The policy gives up entry i, and its frame is freed, or stays in use without being listed. */
  lemma VictimMoves(v: View, v': View, i: nat, pt: PageTable, g: PageId)
    requires ViewOk(v) && GivenUp(v, i, pt) && |pt| == NUM_PAGES && v.owner[v.pages[i]] == Some(g)
    requires ViewOk(v') && v'.kind == v.kind && v'.pid == v.pid
    requires v'.pages == Without(v.pages, i) && (v.kind == Lru ==> v'.ticks == Without(v.ticks, i))
    requires v.kind == Clock ==> v'.hand == HandAfter(|v.pages|, i)
    requires v'.owner == v.owner || v'.owner == v.owner[v.pages[i] := None]
    requires SameBits(v.tables[v.pid := pt], v'.tables)
    requires v.cached - {g.vpn} <= v'.cached <= v.cached
    ensures Moves(v, v', Some(g), None, None, 0)
  {
    hide Marks, Spins, F.InTurn, GivenUp, Line, Ages;
    EntryGivenUp(v, i, pt);
    VictimMarks(v, v', i, pt, g);
    VictimLine(v, v', i, pt, g);
    VictimAges(v, v', i, pt, g);
  }

  lemma VictimAges(v: View, v': View, i: nat, pt: PageTable, g: PageId)
    requires ViewOk(v) && GivenUp(v, i, pt) && v.owner[v.pages[i]] == Some(g) && ViewOk(v') && v'.kind == v.kind
    requires v'.pages == Without(v.pages, i) && (v.kind == Lru ==> v'.ticks == Without(v.ticks, i))
    requires v'.owner == v.owner || v'.owner == v.owner[v.pages[i] := None]
    ensures Ages(v, v', Some(g), None, 0)
  {
    if v.kind == Lru {
      OldestIsLeast(v.pages, v.ticks, v.owner, i);
      WithoutAt(v.pages, i);
      WithoutAt(v.ticks, i);
      StampGone(v.pages, v.ticks, v.owner, i, v'.owner, v'.pages, v'.ticks);
    }
  }

  /** Frame f, free so far, holds g now, is listed and stamped. */
  lemma ArrivalMoves(v: View, v': View, f: nat, g: PageId, tick: nat)
    requires ViewOk(v) && ViewOk(v') && f < |v.owner| && v.owner[f].None? && g.pid == v.pid && HasPage(v.tables, g)
    requires v' == v.(pages := v'.pages, ticks := v'.ticks, owner := v.owner[f := Some(g)], tables := v'.tables,
                      cached := v'.cached)
    requires v'.pages == if f in v.pages then v.pages else v.pages + [f]
    requires v.kind == Lru ==> forall i :: 0 <= i < |v'.pages| ==> v'.ticks[i] == if v'.pages[i] == f then tick else v.ticks[i]
    requires exists e: Pte :: e.referenced && v'.tables == SetPte(v.tables, g, e)
    requires g.vpn in v'.cached && v'.cached <= v.cached + {g.vpn}
    ensures Moves(v, v', None, Some(g), Some(g), tick)
  {
    hide F.InTurn, F.Within;
    ArrivalLine(v, v', f, g);
    if v.kind == Lru {
      StampSet(v.pages, v.ticks, v.owner, f, g, tick, v'.pages, v'.ticks, v'.owner);
    }
  }

  lemma ArrivalLine(v: View, v': View, f: nat, g: PageId)
    requires ViewOk(v) && ViewOk(v') && f < |v.owner| && v.owner[f].None? && v'.owner == v.owner[f := Some(g)]
    requires v'.pages == (if f in v.pages then v.pages else v.pages + [f]) && v'.kind == v.kind && v'.hand == v.hand
    ensures F.InTurn(v.kind == Fifo, Line(v), Line(v'), None, Some(g)) && Spins(v, v', None, Some(g))
  {
    if F.AllUsed(Line(v)) {
      F.FrameTaken(true, v.pages, v.owner, f, g);
      F.FrameListed(true, v.pages, v'.owner, f, g);
      assert Line(v') == Line(v) + [Some(g)] by {
        assert F.LineOf(v.pages, v'.owner) == Line(v);
      }
    }
  }

  /** A resident page is walked to: LRU stamps its frame. */
  lemma WalkMoves(v: View, v': View, f: nat, g: PageId, tick: nat)
    requires ViewOk(v) && ViewOk(v') && f < |v.owner| && v.owner[f] == Some(g) && g.pid == v.pid && HasPage(v.tables, g)
    requires v' == v.(pages := v'.pages, ticks := v'.ticks, tables := v'.tables, cached := v'.cached)
    requires v'.pages == if v.kind == Lru && f !in v.pages then v.pages + [f] else v.pages
    requires v.kind == Lru ==> forall i :: 0 <= i < |v'.pages| ==> v'.ticks[i] == if v'.pages[i] == f then tick else v.ticks[i]
    requires exists e: Pte :: e.referenced && v'.tables == SetPte(v.tables, g, e)
    requires g.vpn in v'.cached && v'.cached <= v.cached + {g.vpn}
    ensures Moves(v, v', None, None, Some(g), tick)
  {
    hide F.InTurn, F.Within;
    if v.kind == Lru {
      assert v.owner[f := Some(g)] == v.owner;
      StampSet(v.pages, v.ticks, v.owner, f, g, tick, v'.pages, v'.ticks, v'.owner);
    } else {
      assert Line(v) + [] == Line(v);
    }
    F.NotFifo(v.kind == Fifo, Line(v), Line(v'));
  }

  /** A page is given up, then another one comes. */
  lemma MovesBoth(v: View, mid: View, v': View, gone: Option<PageId>, g: PageId, tick: nat)
    requires Moves(v, mid, gone, None, None, 0) && Moves(mid, v', None, Some(g), Some(g), tick)
    ensures Moves(v, v', gone, Some(g), Some(g), tick)
  {
    hide F.InTurn, StampsOf, Line, Clears, Stop, Sweeps;
    F.TurnBoth(v.kind == Fifo, Line(v), Line(mid), Line(v'), gone, Some(g));
    SpinsBoth(v, mid, v', gone, g);
  }

  lemma SpinsBoth(v: View, mid: View, v': View, gone: Option<PageId>, g: PageId)
    requires ViewOk(v) && ViewOk(mid) && ViewOk(v') && v.kind == mid.kind
    requires Spins(v, mid, gone, None) && Spins(mid, v', None, Some(g))
    ensures Spins(v, v', gone, Some(g))
  {
    hide SweepLength, Sweeps;
    if v.kind == Clock && F.AllUsed(Line(v)) {
      assert gone.None? ==> Line(mid) == Line(v);
      assert gone.Some? ==> Line(mid) == Without(Line(v), Stop(v));
      assert F.AllUsed(Line(mid));
    }
  }

  /** The page walked to is put into the TLB once more. */
  lemma KnownAgain(v: View, v': View, v'': View, gone: Option<PageId>, come: Option<PageId>, g: PageId, tick: nat)
    requires Moves(v, v', gone, come, Some(g), tick) && v'' == v'.(cached := v''.cached)
    requires g.vpn in v''.cached && v''.cached <= v'.cached + {g.vpn}
    ensures Moves(v, v'', gone, come, Some(g), tick)
  {
    hide F.InTurn, Ages, Spins, Marks;
    SameAges(v, v', v'', gone, come, Some(g), tick);
  }

  lemma SameAges(v: View, v': View, v'': View, gone: Option<PageId>, come: Option<PageId>, used: Option<PageId>, tick: nat)
    requires ViewOk(v) && ViewOk(v') && v'.kind == v.kind && v'' == v'.(cached := v''.cached)
    requires Ages(v, v', gone, used, tick) && Spins(v, v', gone, come) && Marks(v, v', gone, used)
    ensures Ages(v, v'', gone, used, tick) && Spins(v, v'', gone, come) && Marks(v, v'', gone, used)
  {
  }

  lemma MovesInTurn(v: View, v': View, gone: Option<PageId>, come: Option<PageId>, used: Option<PageId>, tick: nat)
    requires Moves(v, v', gone, come, used, tick)
    ensures ViewOk(v) && ViewOk(v') && v'.kind == v.kind && v'.pid == v.pid
    ensures F.InTurn(v.kind == Fifo, Line(v), Line(v'), gone, come)
    ensures Ages(v, v', gone, used, tick) && Learns(v, v', gone, used)
  {
  }
}
