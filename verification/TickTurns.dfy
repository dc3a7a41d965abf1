/** When a turn on the CPU begins and when it ends, on the fields of the processes and over histories. */
module TickTurns {
  import opened Proc
  import opened Sched
  import opened Accounting
  import opened TickSpec
  import opened TickFacts
  import opened TickWork
  import opened TickOrder
  import PrioHeap

  // ----- the process that runs -----

  /** A pass in which somebody can run executes one instruction of whoever runs after dispatch. */
  lemma PassRuns(w: World, pick: int, a: Answer)
    requires Good(w) && Enabled(w, Pass(pick, a)) && !Nobody(Prepared(w))
    ensures var d := Dispatched(w, pick);
            var d' := d.(calls := d.calls + 1);
            && Good(d') && Executing(d') && d'.ps[d'.current].state == Running && Legal(a.outcome, d'.ps)
            && Passed(w, pick, a) == Executed(d', a)
            && d == w.(ps := d.ps, lines := d.lines, current := d.current, known := d.known, consumed := d.consumed)
            && |d.ps| == |w.ps|
  {
    hide Good, Prepared, Nobody, MayRun, Executed;
    PreparedBlocks(w);
    GoodDispatched(w, pick);
    var d := Dispatched(w, pick);
    CountedGood(d);
    GoodExecuting(d.(calls := d.calls + 1));
  }

  /** Whoever ran already still does; else the process dispatched does, with a quantum to itself. */
  lemma WhoRuns(w: World, pick: int)
    requires Good(w) && !Nobody(Prepared(w)) && (Prepared(w).current < 0 ==> MayRun(Prepared(w), pick))
    ensures var d := Dispatched(w, pick);
            if 0 <= w.current then d.current == w.current && d.known == w.known && d.consumed == w.consumed
            else d.current == pick && d.known == pick && d.consumed == 0
  {
    hide Good, Prepared, AtHead, Foremost, Nobody;
    PreparedBlocks(w);
  }

  /** What dispatch leaves of everybody: running time, and the level as boosting has set it. */
  lemma DispatchKeeps(w: World, pick: int, p: int)
    requires Good(w) && !Nobody(Prepared(w)) && (Prepared(w).current < 0 ==> MayRun(Prepared(w), pick)) && 0 <= p < |w.ps|
    ensures var d := Dispatched(w, pick); |d.ps| == |w.ps| && d.ps[p].cpu == w.ps[p].cpu
    ensures Dispatched(w, pick).ps[p].level == Prepared(w).ps[p].level
  {
    PreparedBlocks(w);
    hide Good, Prepared, AtHead, Foremost, Nobody;
    assert Alike(WokeBlock(w.ps[p], w.tick), Prepared(w).ps[p]);
  }

  // ----- the priority policy dispatches the best -----

  /** Of two processes c comes before x: a lower number is a better priority, and of equals whoever has been READY longer. */
  ghost predicate Beats(c: Pcb, x: Pcb) {
    c.priority < x.priority || (c.priority == x.priority && c.lastReady < x.lastReady)
  }

  /** Under the priority policy no READY process has a better priority than the one dispatched, and none of the same priority
      has been READY longer. */
  lemma BestGoesFirst(w: World, pick: int, a: Answer, x: int)
    requires Good(w) && w.algo == Prio && Enabled(w, Pass(pick, a)) && Starts(w, Pass(pick, a)) != []
    requires 0 <= x < |w.ps| && Prepared(w).ps[x].state == Ready
    ensures var v := Prepared(w);
            && 0 <= pick < |v.ps| && v.ps[pick].state == Ready
            && (v.ps[pick].priority < v.ps[x].priority
                || (v.ps[pick].priority == v.ps[x].priority && v.ps[pick].lastReady <= v.ps[x].lastReady))
  {
    PreparedBlocks(w);
    hide Good, Prepared, Nobody, AtHead;
    assert !PrioHeap.Less(Prepared(w).ps, x, pick);
  }

  // ----- when a turn ends -----

  /** One tick of a burst, seen from the state before execution: the process keeps the CPU if and only if nobody asked for
      it, the timer is silent and, except under FCFS, it has some of its quantum left and, under the priority policy, no
      READY process is better. Else it is READY, one level further down under MLFQ, last in line, and the request is met. */
  ghost predicate EndsTurn(d: World, timer: bool, r: World) {
    && 0 <= d.current < |d.ps| == |r.ps|
    && var p, charged := d.current, if d.known == d.current then d.consumed + 1 else d.consumed;
       var goesOn :=
         && !d.needResched && !timer
         && (d.algo == Fcfs || charged < d.quantum)
         && (d.algo == Prio ==> forall x :: 0 <= x < |d.ps| && d.ps[x].state == Ready ==> !Beats(d.ps[x], d.ps[p]));
       && r.tick == d.tick + 1 && r.busy == d.busy + 1 && r.ps[p].cpu == d.ps[p].cpu + 1
       && if goesOn then
            && r.current == p && r.ps[p].state == Running && !r.needResched
            && r.known == d.known && r.consumed == charged && r.ps[p].level == d.ps[p].level
          else
            && r.current == -1 && r.ps[p].state == Ready && r.ps[p].lastReady == r.tick && !r.needResched
            && r.ps[p].level == (if d.algo == Mlfq && d.ps[p].level < 3 then d.ps[p].level + 1 else d.ps[p].level)
            && (OneLine(d.algo) ==> r.lines.line != [] && r.lines.line[|r.lines.line| - 1] == p)
  }

  lemma TickedFields(d: World)
    requires Executing(d) && Next(d.ss[d.current]).Burst? && d.ps[d.current].state == Running
    ensures var t := Ticked(d);
            && t.ps[d.current] == d.ps[d.current].(cpu := d.ps[d.current].cpu + 1)
            && forall x :: 0 <= x < |d.ps| && x != d.current ==>
                             && t.ps[x].state == d.ps[x].state && t.ps[x].priority == d.ps[x].priority
                             && t.ps[x].lastReady == d.ps[x].lastReady
  {
  }

  /** Whether somebody READY comes before the running process, on the fields. */
  lemma BetterIff(d: World)
    requires Executing(d) && Next(d.ss[d.current]).Burst? && d.ps[d.current].state == Running
    ensures var t := Ticked(d);
            (exists x :: 0 <= x < |t.ps| && t.ps[x].state == Ready && PrioHeap.Less(t.ps, x, d.current)) <==>
            !(forall x :: 0 <= x < |d.ps| && d.ps[x].state == Ready ==> !Beats(d.ps[x], d.ps[d.current]))
  {
    TickedFields(d);
    hide Ticked;
    var t := Ticked(d);
    forall x | 0 <= x < |d.ps| && x != d.current
      ensures PrioHeap.Less(t.ps, x, d.current) <==> Beats(d.ps[x], d.ps[d.current])
    {
    }
    if !(forall x :: 0 <= x < |d.ps| && d.ps[x].state == Ready ==> !Beats(d.ps[x], d.ps[d.current])) {
      var x :| 0 <= x < |d.ps| && d.ps[x].state == Ready && Beats(d.ps[x], d.ps[d.current]);
      assert t.ps[x].state == Ready && PrioHeap.Less(t.ps, x, d.current);
    }
  }

  lemma BurstEndsTurn(d: World, a: Answer)
    requires Executing(d) && Next(d.ss[d.current]).Burst? && d.ps[d.current].state == Running
    ensures EndsTurn(d, a.timer, Executed(d, a))
  {
    BetterIff(d);
    TickedFields(d);
  }

  /** A pass that consumes a busy tick ends the turn of whoever ran exactly if it must. */
  lemma TurnEndsIff(w: World, pick: int, a: Answer)
    requires Good(w) && Enabled(w, Pass(pick, a)) && w.busy < Passed(w, pick, a).busy
    ensures !Nobody(Prepared(w)) && EndsTurn(Dispatched(w, pick), a.timer, Passed(w, pick, a))
  {
    hide Good, Prepared, Nobody, Dispatched, Executed, Enabled, EndsTurn;
    BusyRuns(w, pick, a);
    PassRuns(w, pick, a);
    var d := Dispatched(w, pick);
    var d' := d.(calls := d.calls + 1);
    BurstEndsTurn(d', a);
    SameTurn(d, a.timer, Executed(d', a));
  }

  lemma SameTurn(d: World, timer: bool, r: World)
    requires EndsTurn(d.(calls := d.calls + 1), timer, r)
    ensures EndsTurn(d, timer, r)
  {
  }

  lemma BusyRuns(w: World, pick: int, a: Answer)
    requires Good(w) && Enabled(w, Pass(pick, a)) && w.busy < Passed(w, pick, a).busy
    ensures !Nobody(Prepared(w))
    ensures var d := Dispatched(w, pick); Executing(d) && Next(d.ss[d.current]).Burst?
  {
    hide Good, Prepared, Nobody, Dispatched, Executed, Enabled;
    PreparedBlocks(w);
    if !Nobody(Prepared(w)) {
      PassRuns(w, pick, a);
      var d := Dispatched(w, pick);
      ExecutedBusy(d.(calls := d.calls + 1), a);
    }
  }

  lemma ExecutedBusy(w: World, a: Answer)
    requires Executing(w)
    ensures Executed(w, a).busy == if Next(w.ss[w.current]).Burst? then w.busy + 1 else w.busy
    ensures !Next(w.ss[w.current]).Burst? ==> Executed(w, a).needResched == w.needResched
  {
    hide Appended, GivesWay;
  }

  // ----- levels -----

  lemma PreparedLevel(w: World, p: int)
    requires w.algo == Mlfq && 0 <= p < |w.ps| && w.ps[p].state != Exited
    ensures Prepared(w).ps[p].level == if 50 <= w.tick then 0 else w.ps[p].level
  {
    WokenBlocks(w, |w.ps|);
    hide WokenUpTo, LinedUpTo;
  }

  lemma BurstLevel(d: World, timer: bool, p: int)
    requires Executing(d) && Next(d.ss[d.current]).Burst? && 0 <= p < |d.ps| && p != d.current
    ensures var r := Preempted(Ticked(d), timer); r.ps[p].level == d.ps[p].level && r.ps[p].cpu == d.ps[p].cpu
  {
    hide Appended, GivesWay;
  }

  lemma RespondedLevel(d: World, o: Outcome, p: int)
    requires Executing(d) && 0 <= p < |d.ps|
    ensures var r := Responded(d, o); r.ps[p].level == d.ps[p].level && r.ps[p].cpu == d.ps[p].cpu
  {
    hide Appended;
  }

  lemma OthersLevel(d: World, a: Answer, p: int)
    requires Executing(d) && 0 <= p < |d.ps| && (p != d.current || !Next(d.ss[d.current]).Burst?)
    ensures var r := Executed(d, a); r.ps[p].level == d.ps[p].level && r.ps[p].cpu == d.ps[p].cpu
  {
    hide Preempted, Ticked, Responded;
    match Next(d.ss[d.current])
    case Burst => BurstLevel(d, a.timer, p);
    case Calls => RespondedLevel(d, a.outcome, p);
    case _ =>
  }

  /** Under MLFQ a process goes down one of the four levels exactly when its turn ends with a tick of its burst; every pass from
      tick 50 on first puts it back to the top. */
  lemma LevelMoves(w: World, pick: int, a: Answer, p: int)
    requires Good(w) && Enabled(w, Pass(pick, a)) && w.algo == Mlfq && 0 <= p < |w.ps| && w.ps[p].state != Exited
    ensures var r, l := Passed(w, pick, a), if 50 <= w.tick then 0 else w.ps[p].level;
            && p < |r.ps|
            && r.ps[p].level == if w.ps[p].cpu < r.ps[p].cpu && r.ps[p].state == Ready && l < 3 then l + 1 else l
  {
    hide Good, Prepared, Nobody, Dispatched, Executed, Enabled, MayRun;
    PreparedLevel(w, p);
    PreparedBlocks(w);
    GoodSizes(Prepared(w));
    if Nobody(Prepared(w)) {
      assert Alike(WokeBlock(w.ps[p], w.tick), Prepared(w).ps[p]);
    } else {
      PassRuns(w, pick, a);
      EnabledPicks(w, pick, a);
      DispatchKeeps(w, pick, p);
      var d := Dispatched(w, pick);
      var d' := d.(calls := d.calls + 1);
      if p == d.current && Next(d'.ss[p]).Burst? {
        BurstEndsTurn(d', a);
      } else {
        OthersLevel(d', a, p);
      }
    }
  }

  // ----- a request to reschedule -----

  /** Running time is never lost, and as long as none is consumed a request stays. */
  lemma RequestStays(w: World, e: Event)
    requires Good(w) && Enabled(w, e)
    ensures w.busy <= Apply(w, e).busy
    ensures w.needResched && Apply(w, e).busy == w.busy ==> Apply(w, e).needResched
  {
    if e.Pass? {
      hide Good, Passed, Enabled;
      PassAsked(w, e.pick, e.answer);
    } else {
      hide Good, Passed, LinedUpTo, Appended;
    }
  }

  lemma PassAsked(w: World, pick: int, a: Answer)
    requires Good(w) && Enabled(w, Pass(pick, a))
    ensures var r := Passed(w, pick, a);
            w.busy <= r.busy && (w.needResched && r.busy == w.busy ==> r.needResched)
  {
    hide Good, Prepared, Nobody, Dispatched, Executed, Enabled;
    PreparedBlocks(w);
    GoodSizes(Prepared(w));
    if !Nobody(Prepared(w)) {
      PassRuns(w, pick, a);
      var d := Dispatched(w, pick);
      ExecutedBusy(d.(calls := d.calls + 1), a);
    }
  }

  lemma {:induction false} RequestWaits(w: World, es: seq<Event>)
    requires Good(w) && Possible(w, es)
    ensures w.busy <= After(w, es).busy
    ensures w.needResched && After(w, es).busy == w.busy ==> After(w, es).needResched
  {
    hide Good, Apply, Enabled;
    if es != [] {
      var k := |es| - 1;
      RequestWaits(w, es[..k]);
      GoodAfter(w, es[..k]);
      RequestStays(After(w, es[..k]), es[k]);
    }
  }

  /** A request to reschedule takes effect with the first busy tick, whatever happens before: then nobody runs, whoever ran is
      READY, under FCFS and round robin at the end of the line, and the request is met. */
  lemma YieldTakesEffect(w: World, es: seq<Event>, pick: int, a: Answer) returns (p: int)
    requires Good(w) && w.needResched && Possible(w, es) && After(w, es).busy == w.busy
    requires Enabled(After(w, es), Pass(pick, a)) && w.busy < Passed(After(w, es), pick, a).busy
    ensures var v, r := After(w, es), Passed(After(w, es), pick, a);
            && 0 <= p < |v.ps| == |r.ps| && r.ps[p].cpu == v.ps[p].cpu + 1
            && r.current == -1 && r.ps[p].state == Ready && !r.needResched
            && (OneLine(v.algo) ==> r.lines.line != [] && r.lines.line[|r.lines.line| - 1] == p)
  {
    hide Good, Prepared, Nobody, Dispatched, Passed, MayRun, Possible;
    GoodAfter(w, es);
    RequestWaits(w, es);
    var v := After(w, es);
    TurnEndsIff(v, pick, a);
    PassRuns(v, pick, a);
    p := Dispatched(v, pick).current;
    DispatchKeeps(v, pick, p);
  }

  // ----- a turn goes on -----

  /** What is left of the burst that a process is in or about to begin. */
  ghost function BurstLeft(s: Slot): nat {
    if !Next(s).Burst? then 0 else if s.remaining == 0 then s.insns[s.pc].ticks else s.remaining
  }

  /** Passes in which the timer is silent. */
  ghost predicate Silent(es: seq<Event>) {
    forall k :: 0 <= k < |es| ==> es[k].Pass? && !es[k].answer.timer
  }

  /** p is n ticks into its turn, counted from w, with nothing asked of it. */
  ghost predicate InTurn(w: World, r: World, p: int, n: nat) {
    && 0 <= p == w.current == r.current && p < |w.ps| == |w.ss| == |r.ps| == |r.ss|
    && !r.needResched && r.algo == w.algo && r.quantum == w.quantum && r.known == w.known
    && r.tick == w.tick + n && r.ps[p].cpu == w.ps[p].cpu + n
    && r.consumed == (if w.known == p then w.consumed + n else w.consumed)
    && (n < BurstLeft(w.ss[p]) ==> BurstLeft(r.ss[p]) == BurstLeft(w.ss[p]) - n)
  }

  /** The policy lets p run for n more ticks. */
  ghost predicate MayGoOn(w: World, p: int, n: nat) {
    w.algo == Fcfs || (w.algo != Prio && w.known == p && w.consumed + n < w.quantum)
  }

  lemma BurstShrinks(d: World, a: Answer)
    requires Executing(d) && 0 < BurstLeft(d.ss[d.current])
    ensures Next(d.ss[d.current]).Burst?
    ensures var s, s' := d.ss[d.current], TickedSlot(Begun(d.ss[d.current]));
            && |Executed(d, a).ss| == |d.ss| && Executed(d, a).ss[d.current] == s'
            && (1 < BurstLeft(s) ==> BurstLeft(s') == BurstLeft(s) - 1)
  {
    hide Appended, GivesWay;
  }

  lemma TurnGoesOn(w: World, p: int, n: nat, v: World, e: Event)
    requires Good(v) && InTurn(w, v, p, n) && n < BurstLeft(w.ss[p])
    requires e.Pass? && !e.answer.timer && Enabled(v, e)
    ensures var r := Apply(v, e);
            && |r.ps| == |v.ps| && r.ps[p].cpu == v.ps[p].cpu + 1 && r.tick == v.tick + 1
            && (MayGoOn(w, p, n + 1) ==> InTurn(w, r, p, n + 1))
            && (w.algo == RoundRobin && w.known == p && w.consumed + n + 1 == w.quantum ==>
                  && r.current == -1 && r.ps[p].state == Ready
                  && r.lines.line != [] && r.lines.line[|r.lines.line| - 1] == p)
  {
    hide Good, Prepared, Nobody, Dispatched, Executed, Enabled, MayRun, BurstLeft, Next;
    PreparedBlocks(v);
    RunnerIsSomebody(v);
    PassRuns(v, e.pick, e.answer);
    EnabledPicks(v, e.pick, e.answer);
    WhoRuns(v, e.pick);
    DispatchKeeps(v, e.pick, p);
    var d := Dispatched(v, e.pick);
    var d' := d.(calls := d.calls + 1);
    BurstShrinks(d', e.answer);
    BurstEndsTurn(d', e.answer);
    ExecutedAlgo(d', e.answer);
  }

  /** With nobody asking for the CPU, a process in a burst keeps it: under FCFS to the end of the burst, under round robin and
      MLFQ until its quantum is used up. */
  lemma {:induction false} KeepsTurn(w: World, es: seq<Event>, p: int)
    requires Good(w) && 0 <= p == w.current < |w.ps| == |w.ss| && !w.needResched && Possible(w, es) && Silent(es)
    requires |es| <= BurstLeft(w.ss[p]) && MayGoOn(w, p, |es|)
    ensures InTurn(w, After(w, es), p, |es|)
  {
    hide Good, Apply, Enabled, BurstLeft;
    if es != [] {
      var k := |es| - 1;
      KeepsTurn(w, es[..k], p);
      GoodAfter(w, es[..k]);
      TurnGoesOn(w, p, k, After(w, es[..k]), es[k]);
    }
  }

  /** And under round robin it gives way with the last tick of its quantum. */
  lemma TurnUsedUp(w: World, es: seq<Event>, p: int)
    requires Good(w) && w.algo == RoundRobin && 0 <= p == w.current == w.known && p < |w.ps| == |w.ss| && !w.needResched
    requires Possible(w, es) && Silent(es) && 0 < |es| <= BurstLeft(w.ss[p]) && w.consumed + |es| == w.quantum
    ensures var r := After(w, es);
            && |r.ps| == |w.ps| && r.tick == w.tick + |es| && r.ps[p].cpu == w.ps[p].cpu + |es|
            && r.current == -1 && r.ps[p].state == Ready
            && r.lines.line != [] && r.lines.line[|r.lines.line| - 1] == p
  {
    hide Good, Apply, Enabled, BurstLeft;
    var k := |es| - 1;
    KeepsTurn(w, es[..k], p);
    GoodAfter(w, es[..k]);
    TurnGoesOn(w, p, k, After(w, es[..k]), es[k]);
  }

  lemma EnabledPicks(w: World, pick: int, a: Answer)
    requires Enabled(w, Pass(pick, a)) && !Nobody(Prepared(w))
    ensures Prepared(w).current < 0 ==> MayRun(Prepared(w), pick)
  {
  }

  lemma RunnerIsSomebody(w: World)
    requires 0 <= w.current && Good(w)
    ensures !Nobody(Prepared(w))
  {
    PreparedBlocks(w);
  }
}
