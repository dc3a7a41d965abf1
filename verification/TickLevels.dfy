/** MLFQ: before tick 50 the levels decide; from then on everybody is at the top on every pass, and slots decide. */
module TickLevels {
  import opened Proc
  import opened Sched
  import opened Accounting
  import opened TickSpec
  import opened TickFacts
  import opened TickWork
  import opened TickOrder
  import opened TickKills

  /** Everybody READY is at the top level. */
  lemma {:induction false} AllAtTop(ps: seq<Pcb>, n: nat)
    requires n <= |ps| && forall p :: 0 <= p < |ps| && ps[p].state == Ready ==> ps[p].level == 0
    ensures LinedUpTo(Mlfq, ps, n).levels == [ReadyUpTo(ps, n), [], [], []]
  {
    if 0 < n {
      AllAtTop(ps, n - 1);
      var a := ReadyUpTo(ps, n - 1);
      assert [a, [], [], []][0 := a + [n - 1]] == [a + [n - 1], [], [], []];
      assert a + [] == a;
    }
  }

  /** The first of them is the one in the lowest slot. */
  lemma LowestFirst(ps: seq<Pcb>, pid: int)
    requires forall p :: 0 <= p < |ps| && ps[p].state == Ready ==> ps[p].level == 0
    requires 0 <= pid < |ps| && ps[pid].state == Ready
    ensures AtHead(Mlfq, LinedUpTo(Mlfq, ps, |ps|), pid) <==> forall x :: 0 <= x < |ps| && ps[x].state == Ready ==> pid <= x
  {
    AllAtTop(ps, |ps|);
    SlotOrder(ps, |ps|);
    var line := ReadyUpTo(ps, |ps|);
    assert pid in line;
    assert line[0] in line;
    var levels := LinedUpTo(Mlfq, ps, |ps|).levels;
    assert levels[0] == line;
    assert FirstLevel(levels) == 0;
    if line[0] == pid {
      forall x | 0 <= x < |ps| && ps[x].state == Ready
        ensures pid <= x
      {
        assert x in line;
      }
    }
  }

  /** From tick 50 on the process to run is the READY one in the lowest slot, whatever its level was and however long the
      others have waited. */
  lemma SlotsDecide(w: World, pick: int)
    requires Good(w) && w.algo == Mlfq && BOOST_INTERVAL <= w.tick
    ensures var v := Prepared(w);
            MayRun(v, pick) <==>
            && 0 <= pick < |v.ps| && v.ps[pick].state == Ready
            && forall x :: 0 <= x < |v.ps| && v.ps[x].state == Ready ==> pick <= x
  {
    WokenBlocks(w, |w.ps|);
    hide WokenUpTo, Sound, LinedUpTo, AtHead;
    var v := Prepared(w);
    if 0 <= pick < |v.ps| && v.ps[pick].state == Ready {
      LowestFirst(v.ps, pick);
    }
  }

  // ----- starvation -----

  /** A slot in the middle of a burst, or at the beginning of one, with more than m ticks to go. */
  ghost predicate Crunching(s: Slot, m: nat) {
    Next(s).Burst? && m < Begun(s).remaining
  }

  lemma CrunchTick(s: Slot, m: nat)
    requires Crunching(s, m + 1)
    ensures Crunching(TickedSlot(Begun(s)), m)
  {
  }

  /** The process h has CPU work for more than m ticks, nobody below it is alive, and nobody but it runs. */
  ghost predicate Hogs(w: World, h: int, m: nat) {
    && Good(w) && w.algo == Mlfq && BOOST_INTERVAL <= w.tick
    && 0 <= h < |w.ps| == |w.ss| && (forall x :: 0 <= x < h ==> w.ps[x].state == Exited)
    && (w.current == h || (w.current < 0 && w.ps[h].state == Ready))
    && Crunching(w.ss[h], m)
  }

  lemma BurstHogs(w: World, timer: bool, m: nat)
    requires Good(w) && Executing(w) && w.algo == Mlfq && BOOST_INTERVAL <= w.tick && Crunching(w.ss[w.current], m + 1)
    requires forall x :: 0 <= x < w.current ==> w.ps[x].state == Exited
    ensures var r := Preempted(Ticked(w), timer); Good(r) ==> Hogs(r, w.current, m) && r.tick == w.tick + 1
  {
    hide Good, Appended, GivesWay;
    CrunchTick(w.ss[w.current], m);
  }

  lemma HogDispatched(w: World, pick: int, a: Answer, h: int, m: nat)
    requires Hogs(w, h, m) && Enabled(w, Pass(pick, a))
    ensures !Nobody(Prepared(w)) && Prepared(w).current == w.current && (w.current < 0 ==> pick == h)
    ensures var d := Dispatched(w, pick);
            && Good(d) && d.current == h && d.algo == Mlfq && d.ss == w.ss && d.tick == w.tick && |d.ps| == |w.ps|
            && forall x :: 0 <= x < h ==> d.ps[x].state == Exited
  {
    hide Sound, Prepared, AtHead, Crunching;
    var v := Prepared(w);
    PreparedBlocks(w);
    forall x | 0 <= x <= h
      ensures v.ps[x].state == w.ps[x].state
    {
      assert Alike(WokeBlock(w.ps[x], w.tick), v.ps[x]);
    }
    assert w.current < 0 ==> h in ReadySet(v.ps);
    SlotsDecide(w, pick);
    GoodDispatched(w, pick);
  }

  /** A pass of a process in a burst. */
  lemma BurstPassed(w: World, pick: int, a: Answer)
    requires !Nobody(Prepared(w)) && var d := Dispatched(w, pick); Executing(d) && Next(d.ss[d.current]).Burst?
    ensures var d := Dispatched(w, pick);
            && Passed(w, pick, a) == Preempted(Ticked(d.(calls := d.calls + 1)), a.timer)
            && Starts(w, Pass(pick, a)) == if Prepared(w).current < 0 then [pick] else []
  {
    hide Prepared, Nobody, Dispatched, Preempted, Ticked;
  }

  /** Then a pass runs h for a tick, and dispatches nobody else. */
  lemma HogsOn(w: World, pick: int, a: Answer, h: int, m: nat)
    requires Hogs(w, h, m + 1) && Enabled(w, Pass(pick, a))
    ensures Hogs(Passed(w, pick, a), h, m) && Passed(w, pick, a).tick == w.tick + 1
    ensures Starts(w, Pass(pick, a)) == if w.current < 0 then [h] else []
  {
    hide Good, Prepared, Dispatched, Nobody, Enabled, Preempted, Ticked, Passed, Starts, Crunching;
    GoodPassed(w, pick, a);
    HogDispatched(w, pick, a, h, m + 1);
    CrunchBurst(w.ss[h], m + 1);
    var d := Dispatched(w, pick);
    CountedGood(d);
    BurstPassed(w, pick, a);
    BurstHogs(d.(calls := d.calls + 1), a.timer, m);
  }

  lemma CrunchBurst(s: Slot, m: nat)
    requires Crunching(s, m)
    ensures Next(s).Burst?
  {
  }

  /** Passes only. */
  ghost predicate OnlyPasses(es: seq<Event>) {
    forall k :: 0 <= k < |es| ==> es[k].Pass?
  }

  /** Demotion and boost notwithstanding: from tick 50 on nobody but the process in the lowest live slot is dispatched as
      long as that one has CPU work, whatever the environment answers. */
  lemma {:induction false} NobodyElse(w: World, es: seq<Event>, h: int)
    requires Hogs(w, h, |es|) && Possible(w, es) && OnlyPasses(es)
    ensures Hogs(After(w, es), h, 0) && After(w, es).tick == w.tick + |es|
    ensures forall x :: x in StartLog(w, es) ==> x == h
  {
    HogsFor(w, es, h, |es|);
  }

  lemma {:induction false} HogsFor(w: World, es: seq<Event>, h: int, m: nat)
    requires |es| <= m && Hogs(w, h, m) && Possible(w, es) && OnlyPasses(es)
    ensures Hogs(After(w, es), h, m - |es|) && After(w, es).tick == w.tick + |es|
    ensures forall x :: x in StartLog(w, es) ==> x == h
  {
    hide Hogs, Passed, Enabled, Starts;
    if es != [] {
      var k := |es| - 1;
      HogsFor(w, es[..k], h, m);
      HogsOn(After(w, es[..k]), es[k].pick, es[k].answer, h, m - |es|);
    }
  }
}
