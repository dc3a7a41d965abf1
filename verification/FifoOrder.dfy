/** First in, first out: which pages the FIFO policy lists, in which order, and what that means for the victims of a history. */
module FifoOrder {
  import opened VmTypes
  import opened PageTables
  import opened Ownership
  import opened FlatMemory
  import opened PagingSpec
  import opened Sequences

  type Line = seq<Option<PageId>>

  /** Each frame is listed once. */
  ghost predicate Within(pages: seq<nat>, n: nat) {
    NoDuplicates(pages) && forall i :: 0 <= i < |pages| ==> pages[i] < n
  }

  /** Whose pages are in the frames that the policy lists, in the order of the list. */
  ghost function LineOf(pages: seq<nat>, owner: seq<Option<PageId>>): Line
    requires Within(pages, |owner|)
  {
    seq(|pages|, i requires 0 <= i < |pages| => owner[pages[i]])
  }

  /** Every frame listed is in use. */
  ghost predicate AllUsed(line: Line) {
    forall i :: 0 <= i < |line| ==> line[i].Some?
  }

  /** The line after the given page, if any, left it at the head and another, if any, joined it at the end. */
  ghost function Moved(line: Line, gone: Option<PageId>, come: Option<PageId>): Line {
    (if gone.Some? && line != [] then line[1..] else line) + if come.Some? then [come] else []
  }

  /** Under FIFO who leaves was at the head, and who comes goes to the end. */
  ghost predicate InTurn(fifo: bool, line: Line, line': Line, gone: Option<PageId>, come: Option<PageId>) {
    fifo && AllUsed(line) ==> (gone.Some? ==> line != [] && line[0] == gone) && line' == Moved(line, gone, come)
  }

  lemma MovedUsed(line: Line, gone: Option<PageId>, come: Option<PageId>)
    requires AllUsed(line)
    ensures AllUsed(Moved(line, gone, come))
  {
  }

  /** First somebody leaves, then somebody comes. */
  lemma TurnBoth(fifo: bool, line: Line, mid: Line, line': Line, gone: Option<PageId>, come: Option<PageId>)
    requires InTurn(fifo, line, mid, gone, None) && InTurn(fifo, mid, line', None, come)
    ensures InTurn(fifo, line, line', gone, come)
  {
    if fifo && AllUsed(line) {
      MovedUsed(line, gone, None);
    }
  }

  // ----- the list of frames -----

  /** Entry i of the list is given up, under FIFO the head; its frame may be freed. */
  lemma VictimGone(fifo: bool, pages: seq<nat>, owner: seq<Option<PageId>>, i: nat, owner': seq<Option<PageId>>, g: PageId)
    requires Within(pages, |owner|) && i < |pages| && (fifo ==> i == 0) && owner[pages[i]] == Some(g)
    requires |owner'| == |owner| && forall f :: 0 <= f < |owner| && f != pages[i] ==> owner'[f] == owner[f]
    ensures Within(Without(pages, i), |owner'|)
    ensures InTurn(fifo, LineOf(pages, owner), LineOf(Without(pages, i), owner'), Some(g), None)
  {
    if fifo {
      assert LineOf(Without(pages, i), owner') == LineOf(pages, owner)[1..];
    }
  }

  /** A free frame is not listed, so taking it into use changes nothing. */
  lemma FrameTaken(fifo: bool, pages: seq<nat>, owner: seq<Option<PageId>>, f: nat, g: PageId)
    requires Within(pages, |owner|) && f < |owner| && owner[f].None?
    ensures InTurn(fifo, LineOf(pages, owner), LineOf(pages, owner[f := Some(g)]), None, None)
    ensures AllUsed(LineOf(pages, owner)) ==> f !in pages
  {
    if AllUsed(LineOf(pages, owner)) {
      assert forall i :: 0 <= i < |pages| ==> LineOf(pages, owner)[i] == owner[pages[i]];
      assert LineOf(pages, owner[f := Some(g)]) == LineOf(pages, owner);
    }
  }

  /** A frame not listed yet goes to the end of the list. */
  lemma FrameListed(fifo: bool, pages: seq<nat>, owner: seq<Option<PageId>>, f: nat, g: PageId)
    requires Within(pages, |owner|) && f < |owner| && owner[f] == Some(g) && f !in pages && Within(pages + [f], |owner|)
    ensures InTurn(fifo, LineOf(pages, owner), LineOf(pages + [f], owner), None, Some(g))
  {
    assert LineOf(pages + [f], owner) == LineOf(pages, owner) + [Some(g)];
  }

  lemma NotFifo(fifo: bool, line: Line, line': Line)
    requires fifo ==> line' == line
    ensures InTurn(fifo, line, line', None, None)
  {
    assert line + [] == line;
  }

  lemma NothingMoved(fifo: bool, line: Line)
    ensures InTurn(fifo, line, line, None, None)
  {
    assert line + [] == line;
  }

  // ----- histories -----

  ghost function GoneBy(e: Event): Option<PageId> {
    match e
    case Loads(_, _, _, victim) => victim
    case Stores(_, _, _, victim) => victim
    case Refuses(_, _, _, victim) => victim
    case _ => None
  }

  /** The page that an event brings into RAM. */
  ghost function ComeBy(s: Machine, e: Event): Option<PageId> {
    if (e.Loads? || e.Stores?) && PageAt(e.pid, e.addr) !in s.paged.resident then Some(PageAt(e.pid, e.addr)) else None
  }

  /** Every victim was at the head of the line: the page that came in first of those there. */
  ghost predicate FirstOut(s: Machine, es: seq<Event>, line: Line) {
    es == [] ||
    var k := |es| - 1;
    && FirstOut(s, es[..k], line)
    && (GoneBy(es[k]).Some? ==> LineAfter(s, es[..k], line) != [] && LineAfter(s, es[..k], line)[0] == GoneBy(es[k]))
  }

  ghost function LineAfter(s: Machine, es: seq<Event>, line: Line): Line {
    if es == [] then line
    else
      var k := |es| - 1;
      Moved(LineAfter(s, es[..k], line), GoneBy(es[k]), ComeBy(After(s, es[..k]), es[k]))
  }

  lemma {:induction false} LineUsed(s: Machine, es: seq<Event>, line: Line)
    requires AllUsed(line)
    ensures AllUsed(LineAfter(s, es, line))
  {
    hide After, AllUsed, Moved;
    if es != [] {
      var k := |es| - 1;
      LineUsed(s, es[..k], line);
      MovedUsed(LineAfter(s, es[..k], line), GoneBy(es[k]), ComeBy(After(s, es[..k]), es[k]));
    }
  }

  /** Under FIFO the events lead from one line to the other, each in turn. */
  ghost predicate Turns(fifo: bool, s: Machine, es: seq<Event>, line: Line, line': Line) {
    fifo && AllUsed(line) ==> FirstOut(s, es, line) && line' == LineAfter(s, es, line)
  }

  lemma TurnsNone(fifo: bool, s: Machine, line: Line)
    ensures Turns(fifo, s, [], line, line)
  {
  }

  lemma TurnsMore(fifo: bool, s: Machine, es: seq<Event>, line: Line, mid: Line, e: Event, line': Line)
    requires Turns(fifo, s, es, line, mid) && InTurn(fifo, mid, line', GoneBy(e), ComeBy(After(s, es), e))
    ensures Turns(fifo, s, es + [e], line, line')
  {
    hide After, AllUsed;
    assert (es + [e])[..|es|] == es;
    if fifo && AllUsed(line) {
      LineUsed(s, es, line);
    }
  }

  /** An event that neither brings in a page nor gives one up. */
  lemma TurnsStill(fifo: bool, s: Machine, e: Event, line: Line)
    requires e.Creates? || e.Switches?
    ensures Turns(fifo, s, [e], line, line)
  {
    TurnsNone(fifo, s, line);
    NothingMoved(fifo, line);
    TurnsMore(fifo, s, [], line, line, e, line);
    assert [] + [e] == [e];
  }

  lemma TurnsOn(fifo: bool, s: Machine, es: seq<Event>, fs: seq<Event>, line: Line, mid: Line, line': Line)
    requires Turns(fifo, s, es, line, mid) && Turns(fifo, After(s, es), fs, mid, line')
    ensures Turns(fifo, s, es + fs, line, line')
  {
    hide After, AllUsed, FirstOut, LineAfter;
    if fifo && AllUsed(line) {
      LineUsed(s, es, line);
      LineGoesOn(s, es, fs, line);
    }
  }

  lemma {:induction false} LineGoesOn(s: Machine, es: seq<Event>, fs: seq<Event>, line: Line)
    ensures LineAfter(s, es + fs, line) == LineAfter(After(s, es), fs, LineAfter(s, es, line))
    ensures FirstOut(s, es + fs, line) <==> FirstOut(s, es, line) && FirstOut(After(s, es), fs, LineAfter(s, es, line))
  {
    hide Apply;
    if fs == [] {
      assert es + fs == es;
    } else {
      var k := |fs| - 1;
      LineGoesOn(s, es, fs[..k], line);
      GoOn(s, es, fs[..k]);
      assert (es + fs)[..|es + fs| - 1] == es + fs[..k];
    }
  }

  // ----- in the order of arrival -----

  /** The victims of a history, in order. */
  ghost function Victims(es: seq<Event>): Line {
    if es == [] then []
    else
      var k := |es| - 1;
      Victims(es[..k]) + if GoneBy(es[k]).Some? then [GoneBy(es[k])] else []
  }

  /** The pages that it brings into RAM, in order. */
  ghost function Arrivals(s: Machine, es: seq<Event>): Line {
    if es == [] then []
    else
      var k := |es| - 1;
      var come := ComeBy(After(s, es[..k]), es[k]);
      Arrivals(s, es[..k]) + if come.Some? then [come] else []
  }

  /** Pages are given up in the order in which they came in: those in line and those that came in since, in that order, are
      those given up followed by those still in line. */
  lemma {:induction false} FirstInFirstOut(s: Machine, es: seq<Event>, line: Line)
    requires FirstOut(s, es, line)
    ensures Victims(es) + LineAfter(s, es, line) == line + Arrivals(s, es)
  {
    hide After;
    if es != [] {
      var k := |es| - 1;
      FirstInFirstOut(s, es[..k], line);
      var l, v, gone := LineAfter(s, es[..k], line), Victims(es[..k]), GoneBy(es[k]);
      var rest := if gone.Some? then l[1..] else l;
      var come := if ComeBy(After(s, es[..k]), es[k]).Some? then [ComeBy(After(s, es[..k]), es[k])] else [];
      assert Victims(es) + rest == v + l by {
        if gone.Some? {
          assert [gone] + l[1..] == l;
          assert (v + [gone]) + l[1..] == v + ([gone] + l[1..]);
        } else {
          assert v + [] == v;
        }
      }
      assert Victims(es) + (rest + come) == (Victims(es) + rest) + come;
      assert (line + Arrivals(s, es[..k])) + come == line + (Arrivals(s, es[..k]) + come);
    }
  }

  lemma OutAsIn(s: Machine, es: seq<Event>)
    requires FirstOut(s, es, [])
    ensures Victims(es) <= Arrivals(s, es)
  {
    hide FirstOut, LineAfter, Victims, Arrivals;
    FirstInFirstOut(s, es, []);
    assert [] + Arrivals(s, es) == Arrivals(s, es);
  }
}
