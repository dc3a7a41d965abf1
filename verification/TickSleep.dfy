/** How long IO and a page fault take. */
module TickSleep {
  import opened Proc
  import opened Sched
  import opened Accounting
  import opened TickSpec
  import opened TickFacts
  import opened TickWork
  import opened TickOrder
  import opened TickRobin
  import opened TickTurns
  import opened TickPrograms

  /** BLOCKED until the given tick. */
  ghost predicate SleepsUntil(w: World, p: int, until: nat) {
    0 <= p < |w.ps| && w.ps[p].state == Blocked && w.ps[p].wakeup == until
  }

  lemma ExecutedSleeps(d: World, a: Answer, p: int, until: nat)
    requires Executing(d) && d.ps[d.current].state == Running && Legal(a.outcome, d.ps) && SleepsUntil(d, p, until) && 0 < until
    ensures SleepsUntil(Executed(d, a), p, until)
  {
    hide Appended, GivesWay;
  }

  lemma DispatchSleeps(w: World, pick: int, p: int, until: nat)
    requires Good(w) && !Nobody(Prepared(w)) && (Prepared(w).current < 0 ==> MayRun(Prepared(w), pick))
    requires SleepsUntil(w, p, until) && w.tick < until
    ensures SleepsUntil(Dispatched(w, pick), p, until)
  {
    PreparedBlocks(w);
    hide Good, Prepared, AtHead, Foremost, Nobody;
    assert Alike(WokeBlock(w.ps[p], w.tick), Prepared(w).ps[p]);
  }

  lemma PassSleeps(w: World, pick: int, a: Answer, p: int, until: nat)
    requires Good(w) && Enabled(w, Pass(pick, a)) && SleepsUntil(w, p, until) && w.tick < until
    ensures SleepsUntil(Passed(w, pick, a), p, until)
  {
    hide Good, Prepared, Nobody, Dispatched, Executed, Enabled, MayRun;
    PreparedBlocks(w);
    GoodSizes(Prepared(w));
    if Nobody(Prepared(w)) {
      assert Alike(WokeBlock(w.ps[p], w.tick), Prepared(w).ps[p]);
    } else {
      PassRuns(w, pick, a);
      EnabledPicks(w, pick, a);
      DispatchSleeps(w, pick, p, until);
      var d := Dispatched(w, pick);
      ExecutedSleeps(d.(calls := d.calls + 1), a, p, until);
    }
  }

  lemma RequestSleeps(w: World, e: Event, p: int, until: nat)
    requires !e.Pass? && e != Kill(p) && SleepsUntil(w, p, until)
    ensures SleepsUntil(Apply(w, e), p, until)
  {
    hide LinedUpTo, Appended;
  }

  /** Every pass of the history begins before the given tick. */
  ghost predicate Before(w: World, es: seq<Event>, until: nat) {
    forall k :: 0 <= k < |es| && es[k].Pass? ==> After(w, es[..k]).tick < until
  }

  lemma {:induction false} SleepsOn(w: World, es: seq<Event>, p: int, until: nat)
    requires Good(w) && Possible(w, es) && Kill(p) !in es && SleepsUntil(w, p, until) && Before(w, es, until)
    ensures SleepsUntil(After(w, es), p, until)
  {
    hide Good, Passed, Enabled, SleepsUntil;
    if es != [] {
      var k := |es| - 1;
      forall i | 0 <= i < k && es[..k][i].Pass?
        ensures After(w, es[..k][..i]).tick < until
      {
        assert es[..k][..i] == es[..i];
      }
      SleepsOn(w, es[..k], p, until);
      GoodAfter(w, es[..k]);
      var v, e := After(w, es[..k]), es[k];
      if e.Pass? {
        PassSleeps(v, e.pick, e.answer, p, until);
      } else {
        RequestSleeps(v, e, p, until);
      }
    }
  }

  lemma {:induction false} TimePasses(w: World, es: seq<Event>, k: nat)
    requires Good(w) && Possible(w, es) && k <= |es|
    ensures After(w, es[..k]).tick <= After(w, es).tick
  {
    hide Good, Apply, Enabled;
    if k < |es| {
      var n := |es| - 1;
      TimePasses(w, es[..n], k);
      assert es[..n][..k] == es[..k];
      GoodAfter(w, es[..n]);
      ClockGoesOn(After(w, es[..n]), es[n]);
    } else {
      assert es[..k] == es;
    }
  }

  /** Whoever sleeps until a tick does so in every state before that tick; and the first pass that begins at it or later finds it
      BLOCKED still and makes it READY, as of that pass. */
  lemma SleepTakes(w: World, es: seq<Event>, p: int, until: nat)
    requires Good(w) && Possible(w, es) && Kill(p) !in es && SleepsUntil(w, p, until) && 0 < until
    ensures After(w, es).tick < until ==> p < |After(w, es).ps| && After(w, es).ps[p].state == Blocked
    ensures Before(w, es, until) && until <= After(w, es).tick ==> WokenNow(After(w, es), p)
  {
    hide Good, Possible, After;
    var r := After(w, es);
    if r.tick < until {
      forall k | 0 <= k < |es| && es[k].Pass?
        ensures After(w, es[..k]).tick < until
      {
        TimePasses(w, es, k);
      }
      SleepsOn(w, es, p, until);
    } else if Before(w, es, until) {
      SleepsOn(w, es, p, until);
      GoodAfter(w, es);
      DueWakes(r, p);
    }
  }

  /** BLOCKED, and READY as of this tick once the next pass has begun. */
  ghost predicate WokenNow(w: World, p: int) {
    && 0 <= p < |w.ps| && w.ps[p].state == Blocked
    && Prepared(w).ps[p].state == Ready && Prepared(w).ps[p].lastReady == w.tick
  }

  lemma DueWakes(w: World, p: int)
    requires Good(w) && 0 <= p < |w.ps| && w.ps[p].state == Blocked && 0 < w.ps[p].wakeup <= w.tick
    ensures WokenNow(w, p)
  {
    PreparedBlocks(w);
    hide Good, Prepared;
    assert Alike(WokeBlock(w.ps[p], w.tick), Prepared(w).ps[p]);
  }

  /** It is dispatched in that pass, or READY since that pass when it is over. */
  lemma BackInPass(w: World, pick: int, a: Answer, p: int)
    requires Good(w) && WokenNow(w, p) && Enabled(w, Pass(pick, a))
    ensures var r := Passed(w, pick, a);
            Starts(w, Pass(pick, a)) == [p] || (p < |r.ps| && r.ps[p].state == Ready && r.ps[p].lastReady == w.tick)
  {
    hide Good, Prepared, Nobody, Executed, AtHead, Foremost;
    GoodPrepared(w);
    PreparedBlocks(w);
    var v := Prepared(w);
    GoodSizes(v);
    if !Nobody(v) && Starts(w, Pass(pick, a)) != [p] {
      PassRuns(w, pick, a);
      var d := Dispatched(w, pick);
      var d' := d.(calls := d.calls + 1);
      assert d.ps[p] == v.ps[p];
      ExecutedWaits(d', a, p);
    }
  }

  // ----- IO -----

  /** The pass executes instruction i of process p. */
  ghost predicate Executes(w: World, pick: int, p: int, i: Insn) {
    && !Nobody(Prepared(w)) && Dispatched(w, pick).current == p && 0 <= p < |w.ss|
    && w.ss[p].pc < |w.ss[p].insns| && w.ss[p].insns[w.ss[p].pc] == i
  }

  lemma IoSleeps(d: World, a: Answer, n: nat)
    requires Executing(d) && Next(d.ss[d.current]) == Sleep(n)
    ensures SleepsUntil(Executed(d, a), d.current, d.tick + n)
  {
  }

  lemma FaultSleeps(d: World, a: Answer)
    requires Executing(d) && Next(d.ss[d.current]) == Calls && a.outcome == Sleeps
    ensures SleepsUntil(Executed(d, a), d.current, d.tick + 5)
  {
  }

  /** A process that executes IO n at tick t, and is not killed, is BLOCKED in every state before tick t + n; in the first pass
      from then on it becomes READY, and it is past the instruction. */
  lemma IoTakes(w: World, pick: int, a: Answer, p: int, n: nat, es: seq<Event>)
    requires Good(w) && Enabled(w, Pass(pick, a)) && Executes(w, pick, p, Io(n)) && 0 < w.tick + n
    requires Possible(Passed(w, pick, a), es) && Kill(p) !in es
    ensures var r := After(Passed(w, pick, a), es);
            && (r.tick < w.tick + n ==> p < |r.ps| && r.ps[p].state == Blocked)
            && (Before(Passed(w, pick, a), es, w.tick + n) && w.tick + n <= r.tick ==> WokenNow(r, p))
            && p < |r.ss| && w.ss[p].pc < r.ss[p].pc
  {
    hide Good, Prepared, Nobody, Dispatched, Executed, Enabled, SleepsUntil, Possible, After, Before, WokenNow;
    PassRuns(w, pick, a);
    var d := Dispatched(w, pick);
    IoSleeps(d.(calls := d.calls + 1), a, n);
    GoodPassed(w, pick, a);
    SleepTakes(Passed(w, pick, a), es, p, w.tick + n);
    PassObeys(w, pick, a);
    ProgramGoesOn(Passed(w, pick, a), es, p);
  }

  /** A process whose call meets a page fault at tick t is BLOCKED in every state before tick t + 5, and becomes READY in the
      first pass from then on, to make its call again. */
  lemma FaultTakes(w: World, pick: int, a: Answer, p: int, es: seq<Event>)
    requires Good(w) && Enabled(w, Pass(pick, a)) && Executes(w, pick, p, Call) && a.outcome == Sleeps
    requires Possible(Passed(w, pick, a), es) && Kill(p) !in es
    ensures var r := After(Passed(w, pick, a), es);
            && (r.tick < w.tick + 5 ==> p < |r.ps| && r.ps[p].state == Blocked)
            && (Before(Passed(w, pick, a), es, w.tick + 5) && w.tick + 5 <= r.tick ==> WokenNow(r, p))
            && p < |Passed(w, pick, a).ss| && Passed(w, pick, a).ss[p] == w.ss[p]
  {
    hide Good, Prepared, Nobody, Dispatched, Executed, Enabled, SleepsUntil, Possible, After, Before, WokenNow;
    PassRuns(w, pick, a);
    var d := Dispatched(w, pick);
    FaultSleeps(d.(calls := d.calls + 1), a);
    GoodPassed(w, pick, a);
    SleepTakes(Passed(w, pick, a), es, p, w.tick + 5);
    PassObeys(w, pick, a);
  }
}
