/** Least recently used: when the pages of a history were last walked to, and what that means for its victims. */
module LruOrder {
  import opened VmTypes
  import opened PageTables
  import opened Ownership
  import opened FlatMemory
  import opened PagingSpec
  import opened Replacement
  import opened PolicyView
  import F = FifoOrder

  /** Beside each event: whether the page table was walked, and at which tick; or which policy was chosen. */
  datatype Note = Walk(tick: nat) | Quiet | Policy(lru: bool)

  /** The stamps under LRU; pages that the TLB must know, and pages that it may know. */
  datatype Track = Track(stamps: Option<Stamps>, sure: set<PageId>, seen: set<PageId>)

  ghost predicate IsAccess(e: Event) {
    e.Loads? || e.Stores?
  }

  ghost function UsedBy(e: Event, n: Note): Option<PageId> {
    if n.Walk? && IsAccess(e) then Some(PageAt(e.pid, e.addr)) else None
  }

  ghost function TickOf(n: Note): nat {
    if n.Walk? then n.tick else 0
  }

  /** Every page in RAM, used at no time yet. */
  ghost function Unused(resident: set<PageId>): (u: Stamps)
    ensures u.Keys == resident && forall g :: g in u ==> u[g] == 0
  {
    map g | g in resident :: 0
  }

  ghost function StampsOn(u: Option<Stamps>, s: Machine, e: Event, n: Note): Option<Stamps> {
    if e.Relists? then if n == Policy(true) then Some(Unused(s.paged.resident)) else None
    else if u.None? then None
    else if e.Destroys? then Some(map g | g in u.value && g.pid != e.pid :: u.value[g])
    else Some(Restamped(u.value, F.GoneBy(e), UsedBy(e, n), TickOf(n)))
  }

  /** A set of pages without those of the given number. */
  ghost function Forgetting(pages: set<PageId>, gone: Option<PageId>): set<PageId> {
    if gone.Some? then set g | g in pages && g.vpn != gone.value.vpn else pages
  }

  ghost function Followed(t: Track, s: Machine, e: Event, n: Note): Track {
    var u := StampsOn(t.stamps, s, e, n);
    if e.Switches? then Track(u, {}, {})
    else if UsedBy(e, n).Some? then Track(u, {UsedBy(e, n).value}, t.seen + {UsedBy(e, n).value})
    else if IsAccess(e) then Track(u, t.sure + {PageAt(e.pid, e.addr)}, t.seen)
    else Track(u, Forgetting(t.sure, F.GoneBy(e)), t.seen)
  }

  /** The page table is walked to reach a page that the TLB cannot know, because it is not in RAM or was not used since the
      last dispatch, and not for one that it must know. Under LRU a victim is a page used longest ago. */
  ghost predicate Fair(t: Track, s: Machine, e: Event, n: Note) {
    && (n.Policy? <==> e.Relists?)
    && (n.Walk? ==> IsAccess(e))
    && (IsAccess(e) ==>
          var g := PageAt(e.pid, e.addr);
          && (g !in s.paged.resident || g !in t.seen ==> n.Walk?)
          && (g in t.sure ==> n == Quiet))
    && (F.GoneBy(e).Some? && t.stamps.Some? ==> Least(t.stamps.value, F.GoneBy(e).value))
  }

  ghost function TrackAfter(t: Track, s: Machine, es: seq<Event>, ns: seq<Note>): Track
    requires |ns| == |es|
  {
    if es == [] then t
    else
      var k := |es| - 1;
      Followed(TrackAfter(t, s, es[..k], ns[..k]), After(s, es[..k]), es[k], ns[k])
  }

  ghost predicate AllFair(t: Track, s: Machine, es: seq<Event>, ns: seq<Note>)
    requires |ns| == |es|
  {
    es == [] ||
    var k := |es| - 1;
    && AllFair(t, s, es[..k], ns[..k])
    && Fair(TrackAfter(t, s, es[..k], ns[..k]), After(s, es[..k]), es[k], ns[k])
  }

  lemma TrackMore(t: Track, s: Machine, es: seq<Event>, ns: seq<Note>, e: Event, n: Note)
    requires |ns| == |es|
    ensures TrackAfter(t, s, es + [e], ns + [n]) == Followed(TrackAfter(t, s, es, ns), After(s, es), e, n)
    ensures AllFair(t, s, es + [e], ns + [n]) <==> AllFair(t, s, es, ns) && Fair(TrackAfter(t, s, es, ns), After(s, es), e, n)
  {
    assert (es + [e])[..|es|] == es && (ns + [n])[..|ns|] == ns;
  }

  lemma {:induction false} TrackOn(t: Track, s: Machine, es: seq<Event>, ns: seq<Note>, fs: seq<Event>, ms: seq<Note>)
    requires |ns| == |es| && |ms| == |fs|
    ensures TrackAfter(t, s, es + fs, ns + ms) == TrackAfter(TrackAfter(t, s, es, ns), After(s, es), fs, ms)
    ensures AllFair(t, s, es + fs, ns + ms) <==>
            AllFair(t, s, es, ns) && AllFair(TrackAfter(t, s, es, ns), After(s, es), fs, ms)
  {
    hide Apply, Followed, Fair;
    if fs == [] {
      assert es + fs == es && ns + ms == ns;
    } else {
      var k := |fs| - 1;
      TrackOn(t, s, es, ns, fs[..k], ms[..k]);
      GoOn(s, es, fs[..k]);
      assert (es + fs)[..|es + fs| - 1] == es + fs[..k] && (ns + ms)[..|ns + ms| - 1] == ns + ms[..k];
    }
  }

  // ----- the machine is where the track says -----

  ghost predicate Fits(v: View, t: Track) {
    && ViewOk(v)
    && t.stamps == (if v.kind == Lru then Some(StampsOf(v.pages, v.ticks, v.owner)) else None)
    && (forall g :: g in t.sure ==> g.pid == v.pid && g.vpn in v.cached)
    && (forall x :: x in v.cached ==> PageId(v.pid, x) in t.seen)
  }

  /** One byte read, written or refused. */
  lemma AccessFits(v: View, v': View, t: Track, s: Machine, e: Event, n: Note)
    requires Fits(v, t) && Enabled(s, e) && (IsAccess(e) || e.Refuses?) && e.pid == v.pid && !n.Policy?
    requires Moves(v, v', F.GoneBy(e), F.ComeBy(s, e), UsedBy(e, n), TickOf(n))
    requires IsAccess(e) ==> (n.Walk? <==> PageAt(e.pid, e.addr).vpn !in v.cached)
    requires IsAccess(e) && n == Quiet ==> PageAt(e.pid, e.addr) in s.paged.resident
    requires e.Refuses? ==> n == Quiet
    ensures Fits(v', Followed(t, s, e, n)) && Fair(t, s, e, n)
  {
    MovesInTurn(v, v', F.GoneBy(e), F.ComeBy(s, e), UsedBy(e, n), TickOf(n));
    hide Moves, F.InTurn, StampsOf, ViewOk, Peek, MayRefuse;
  }

  /** Nothing that the policy goes by has changed, except perhaps by a dispatch. */
  lemma StillFits(v: View, v': View, t: Track, s: Machine, e: Event)
    requires Fits(v, t) && ViewOk(v') && v'.kind == v.kind && v'.pages == v.pages && v'.ticks == v.ticks && v'.owner == v.owner
    requires e.Creates? || e.Switches?
    requires if e.Switches? then v'.cached == {} else v'.cached == v.cached && v'.pid == v.pid
    ensures Fits(v', Followed(t, s, e, Quiet)) && Fair(t, s, e, Quiet)
  {
    hide StampsOf;
  }

  /** A process is destroyed: its pages have no frames any more. */
  lemma DestroyFits(v: View, v': View, t: Track, s: Machine, pid: int)
    requires Fits(v, t) && ViewOk(v') && v' == v.(owner := v'.owner, tables := v'.tables) && |v'.owner| == |v.owner|
    requires forall f :: 0 <= f < |v.owner| ==>
                           v'.owner[f] == if v.owner[f].Some? && v.owner[f].value.pid == pid then None else v.owner[f]
    ensures Fits(v', Followed(t, s, Destroys(pid), Quiet)) && Fair(t, s, Destroys(pid), Quiet)
  {
    if v.kind == Lru {
      StampsLeft(v.pages, v.ticks, v.owner, v'.owner, pid);
    }
    hide StampsOf;
  }

  lemma StampsLeft(pages: seq<nat>, ticks: seq<nat>, owner: Owners, owner': Owners, pid: int)
    requires |ticks| == |pages| && F.Within(pages, |owner|) && Unshared(owner) && |owner'| == |owner|
    requires forall f :: 0 <= f < |owner| ==>
                           owner'[f] == if owner[f].Some? && owner[f].value.pid == pid then None else owner[f]
    ensures var u := StampsOf(pages, ticks, owner);
            StampsOf(pages, ticks, owner') == map g | g in u && g.pid != pid :: u[g]
  {
    hide StampsOf;
    var u := StampsOf(pages, ticks, owner);
    var u' := map g | g in u && g.pid != pid :: u[g];
    forall i | 0 <= i < |pages| && owner'[pages[i]].Some?
      ensures var x := owner'[pages[i]].value; x in u' && u'[x] == ticks[i]
    {
      StampAt(pages, ticks, owner, i);
    }
    forall x | x in u'
      ensures exists j :: PageIn(pages, owner', j, x)
    {
      var j := StampFrom(pages, ticks, owner, x);
      assert PageIn(pages, owner', j, x);
    }
    StampsAre(pages, ticks, owner', u');
  }

  /** Another policy: under LRU all pages in RAM are listed, used at no time. */
  lemma PolicyFits(v: View, v': View, t: Track, s: Machine)
    requires Fits(v, t) && ViewOk(v') && v'.owner == v.owner && v'.pid == v.pid && v'.cached == v.cached
    requires forall g :: g in s.paged.resident <==> exists f :: 0 <= f < |v.owner| && v.owner[f] == Some(g)
    requires forall f :: 0 <= f < |v.owner| && v.owner[f].Some? ==> f in v'.pages
    requires v'.kind == Lru ==> forall i :: 0 <= i < |v'.pages| ==> v'.ticks[i] == 0
    ensures Fits(v', Followed(t, s, Relists, Policy(v'.kind == Lru))) && Fair(t, s, Relists, Policy(v'.kind == Lru))
  {
    hide StampsOf;
    if v'.kind == Lru {
      var u := Unused(s.paged.resident);
      forall g | g in u
        ensures exists i :: PageIn(v'.pages, v'.owner, i, g)
      {
        var f :| 0 <= f < |v.owner| && v.owner[f] == Some(g);
        var i :| 0 <= i < |v'.pages| && v'.pages[i] == f;
        assert PageIn(v'.pages, v'.owner, i, g);
      }
      StampsAre(v'.pages, v'.ticks, v'.owner, u);
    }
  }

  // ----- stretches of a history -----

  /** Every walk is made at the given tick. */
  ghost predicate Timed(ns: seq<Note>, tick: nat) {
    forall k :: 0 <= k < |ns| && ns[k].Walk? ==> ns[k].tick == tick
  }

  /** The events lead from v to v', fairly under every policy, and in turn under FIFO. */
  ghost predicate Goes(t: Track, s: Machine, es: seq<Event>, ns: seq<Note>, v: View, v': View, tick: nat) {
    && |ns| == |es| && ViewOk(v) && ViewOk(v') && v'.kind == v.kind && v'.pid == v.pid
    && F.Turns(v.kind == Fifo, s, es, Line(v), Line(v'))
    && AllFair(t, s, es, ns) && Fits(v', TrackAfter(t, s, es, ns)) && Timed(ns, tick)
  }

  lemma GoesNone(t: Track, s: Machine, v: View, tick: nat)
    requires Fits(v, t)
    ensures Goes(t, s, [], [], v, v, tick)
  {
    F.TurnsNone(v.kind == Fifo, s, Line(v));
  }

  lemma GoesMore(t: Track, s: Machine, es: seq<Event>, ns: seq<Note>, v: View, mid: View, v': View, e: Event, n: Note, tick: nat)
    requires Goes(t, s, es, ns, v, mid, tick) && Enabled(After(s, es), e) && (IsAccess(e) || e.Refuses?) && e.pid == v.pid
    requires n == if IsAccess(e) && e.addr / PAGE_SIZE !in mid.cached then Walk(tick) else Quiet
    requires e.addr / PAGE_SIZE in mid.cached ==> PageAt(e.pid, e.addr) in After(s, es).paged.resident
    requires Moves(mid, v', F.GoneBy(e), F.ComeBy(After(s, es), e), UsedBy(e, n), tick)
    ensures Goes(t, s, es + [e], ns + [n], v, v', tick)
  {
    hide Moves, Fits, Followed, Fair, Enabled, After, F.Turns, F.InTurn, Line, F.GoneBy, F.ComeBy, ViewOk;
    MovesInTurn(mid, v', F.GoneBy(e), F.ComeBy(After(s, es), e), UsedBy(e, n), tick);
    F.TurnsMore(v.kind == Fifo, s, es, Line(v), Line(mid), e, Line(v'));
    if n == Quiet {
      AnyTick(mid, v', F.GoneBy(e), F.ComeBy(After(s, es), e), tick, 0);
    }
    AccessFits(mid, v', TrackAfter(t, s, es, ns), After(s, es), e, n);
    TrackMore(t, s, es, ns, e, n);
  }

  // ----- the last use of a page -----

  /** The tick at which the page table was last walked to g since the policy was chosen; 0 if it was not. */
  ghost function LastUse(es: seq<Event>, ns: seq<Note>, g: PageId): nat
    requires |ns| == |es|
  {
    if es == [] then 0
    else
      var k := |es| - 1;
      if ns[k].Policy? then 0
      else if UsedBy(es[k], ns[k]) == Some(g) then ns[k].tick
      else LastUse(es[..k], ns[..k], g)
  }

  /** The policy chosen last is LRU. */
  ghost predicate UnderLru(ns: seq<Note>) {
    ns != [] && if ns[|ns| - 1].Policy? then ns[|ns| - 1].lru else UnderLru(ns[..|ns| - 1])
  }

  ghost function NoTrack(): Track {
    Track(None, {}, {})
  }

  /** A page's stamp is the time of its last use. */
  lemma {:induction false} StampIsUse(s: Machine, es: seq<Event>, ns: seq<Note>)
    requires |ns| == |es| && AllFair(NoTrack(), s, es, ns)
    ensures var u := TrackAfter(NoTrack(), s, es, ns).stamps;
            (u.Some? <==> UnderLru(ns)) && (u.Some? ==> forall g :: g in u.value ==> u.value[g] == LastUse(es, ns, g))
  {
    hide After;
    if es != [] {
      var k := |es| - 1;
      StampIsUse(s, es[..k], ns[..k]);
    }
  }

  lemma StampsKept(t: Track, s: Machine, e: Event, n: Note)
    requires Enabled(s, e) && Fair(t, s, e, n)
    requires s.listed && t.stamps.Some? ==> t.stamps.value.Keys == s.paged.resident
    ensures var r, u := Apply(s, e), StampsOn(t.stamps, s, e, n);
            r.listed && u.Some? ==> u.value.Keys == r.paged.resident
  {
    hide Peek, Drop, Poke;
  }

  /** As long as all frames in use are listed, every page in RAM has a stamp. */
  lemma {:induction false} AllStamped(s: Machine, es: seq<Event>, ns: seq<Note>)
    requires |ns| == |es| && Possible(s, es) && AllFair(NoTrack(), s, es, ns)
    ensures var u, r := TrackAfter(NoTrack(), s, es, ns).stamps, After(s, es);
            r.listed && u.Some? ==> u.value.Keys == r.paged.resident
  {
    hide Apply, Enabled, Fair, StampsOn;
    if es != [] {
      var k := |es| - 1;
      AllStamped(s, es[..k], ns[..k]);
      StampsKept(TrackAfter(NoTrack(), s, es[..k], ns[..k]), After(s, es[..k]), es[k], ns[k]);
    }
  }

  lemma {:induction false} FairAt(t: Track, s: Machine, es: seq<Event>, ns: seq<Note>, k: nat)
    requires |ns| == |es| && AllFair(t, s, es, ns) && Possible(s, es) && k < |es|
    ensures AllFair(t, s, es[..k], ns[..k]) && Possible(s, es[..k])
    ensures Fair(TrackAfter(t, s, es[..k], ns[..k]), After(s, es[..k]), es[k], ns[k])
  {
    hide Apply, Enabled, Fair, Followed;
    var n := |es| - 1;
    if k < n {
      FairAt(t, s, es[..n], ns[..n], k);
      assert es[..n][..k] == es[..k] && ns[..n][..k] == ns[..k];
    }
  }

  /** Under LRU, as long as all frames in use are listed, the page given up, if any, is in RAM, and no page in RAM was last
      used before it. */
  ghost predicate VictimFair(s: Machine, es: seq<Event>, ns: seq<Note>, k: nat)
    requires |ns| == |es| && k < |es|
  {
    var r := After(s, es[..k]);
    UnderLru(ns[..k]) && F.GoneBy(es[k]).Some? && r.listed ==>
      var v := F.GoneBy(es[k]).value;
      && v in r.paged.resident
      && forall g :: g in r.paged.resident ==> LastUse(es[..k], ns[..k], v) <= LastUse(es[..k], ns[..k], g)
  }

  ghost predicate VictimsFair(s: Machine, es: seq<Event>, ns: seq<Note>)
    requires |ns| == |es|
  {
    forall k :: 0 <= k < |es| ==> VictimFair(s, es, ns, k)
  }

  /** Of every history, if walks and policies are as noted. */
  lemma LeastRecentlyUsed(s: Machine, es: seq<Event>, ns: seq<Note>)
    requires |ns| == |es| && AllFair(NoTrack(), s, es, ns) && Possible(s, es)
    ensures VictimsFair(s, es, ns)
  {
    hide Apply, Enabled, AllFair, TrackAfter, After, Possible, LastUse, UnderLru;
    forall k | 0 <= k < |es|
      ensures VictimFair(s, es, ns, k)
    {
      FairAt(NoTrack(), s, es, ns, k);
      StampIsUse(s, es[..k], ns[..k]);
      AllStamped(s, es[..k], ns[..k]);
    }
  }
}
