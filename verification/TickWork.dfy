/** How far a pass gets: who it can run, when it idles, and the measure that goes down when it consumes no tick. */
module TickWork {
  import opened Proc
  import opened Sched
  import opened Accounting
  import opened TickSpec
  import opened TickFacts

  ghost function WokeBlock(c: Pcb, tick: nat): Pcb {
    if Due(c, tick) then Moved(c.(wakeup := 0), Ready, tick) else c
  }

  /** Waking changes the blocks of those whose time has come, and the lines. */
  lemma {:induction false} WokenBlocks(w: World, n: nat)
    requires n <= |w.ps|
    ensures WokenUpTo(w, n) == w.(ps := WokenUpTo(w, n).ps, lines := WokenUpTo(w, n).lines)
    ensures forall p :: 0 <= p < |w.ps| ==> WokenUpTo(w, n).ps[p] == if p < n then WokeBlock(w.ps[p], w.tick) else w.ps[p]
  {
    hide Appended;
    if 0 < n {
      WokenBlocks(w, n - 1);
    }
  }

  /** What comes before dispatch leaves everything but blocks and lines, and of the blocks it wakes those due and changes
      priority and level. */
  lemma PreparedBlocks(w: World)
    requires Good(w)
    ensures Good(Prepared(w)) && Prepared(w) == w.(ps := Prepared(w).ps, lines := Prepared(w).lines)
    ensures forall p :: 0 <= p < |w.ps| ==> Alike(WokeBlock(w.ps[p], w.tick), Prepared(w).ps[p])
  {
    hide Good, Alike, WokeBlock, Refreshed;
    WokenBlocks(w, |w.ps|);
    GoodWokenUpTo(w, |w.ps|);
    GoodRefreshed(Woken(w));
    GoodPrepared(w);
  }

  /** Somebody can run exactly if somebody is READY or due to wake. */
  lemma NobodyIff(w: World)
    requires Good(w)
    ensures Nobody(Prepared(w)) <==> w.current < 0 && forall p :: 0 <= p < |w.ps| ==> !Runnable(w.ps[p], w.tick)
  {
    PreparedBlocks(w);
    hide Good, Prepared;
    var v := Prepared(w);
    forall p | 0 <= p < |w.ps|
      ensures p in ReadySet(v.ps) <==> Runnable(w.ps[p], w.tick)
    {
      assert Alike(WokeBlock(w.ps[p], w.tick), v.ps[p]);
    }
    if forall p :: 0 <= p < |w.ps| ==> !Runnable(w.ps[p], w.tick) {
      assert forall p :: p !in ReadySet(v.ps);
    }
  }

  // ----- the measure -----

  ghost function WorkOf(w: World): nat
    requires |w.ps| == |w.ss|
  {
    Work(w.ps, w.ss, w.tick)
  }

  ghost function BoundOf(w: World): nat
    requires |w.ps| == |w.ss|
  {
    Bound(w.ps, w.ss)
  }

  /** A pass leads from w to r: a tick is consumed, or the measure goes down; its bound never grows. */
  ghost predicate Progress(w: World, r: World) {
    && |r.ps| == |r.ss| == |w.ps| == |w.ss|
    && BoundOf(r) <= BoundOf(w)
    && (r.tick == w.tick + 1 || (r.tick == w.tick && WorkOf(r) < WorkOf(w)))
  }

  /** Neither measure nor bound change for the worse. */
  ghost predicate NoWorse(w: World, r: World) {
    |r.ps| == |r.ss| == |w.ps| == |w.ss| && BoundOf(r) <= BoundOf(w) && r.tick == w.tick && WorkOf(r) <= WorkOf(w)
  }

  lemma PreparedWork(w: World)
    requires Good(w)
    ensures NoWorse(w, Prepared(w))
  {
    PreparedBlocks(w);
    hide Good, Prepared;
    var v := Prepared(w);
    assert |w.ps| == |w.ss| by {
      GoodSizes(w);
    }
    forall p | 0 <= p < |w.ps|
      ensures Weight(w.ps[p], w.ss[p], w.tick) == Weight(v.ps[p], w.ss[p], w.tick)
      ensures Later(w.ps[p], w.ss[p], v.ps[p], w.ss[p])
    {
      assert Alike(WokeBlock(w.ps[p], w.tick), v.ps[p]);
    }
    WorkSame(w.ps, v.ps, w.ss, w.tick);
    BoundShrinks(w.ps, w.ss, v.ps, w.ss);
  }

  lemma GoodSizes(w: World)
    requires Good(w)
    ensures |w.ps| == |w.ss| == |w.blocked|
  {
  }

  lemma ChosenWork(w: World, pid: int)
    requires |w.ps| == |w.ss| && 0 <= pid < |w.ps| && w.ps[pid].state == Ready
    ensures NoWorse(w, Chosen(w, pid))
  {
    var ps' := Chosen(w, pid).ps;
    WorkSame(w.ps, ps', w.ss, w.tick);
    BoundShrinks(w.ps, w.ss, ps', w.ss);
  }

  lemma IdledWork(w: World)
    requires |w.ps| == |w.ss| == |w.blocked|
    ensures Progress(w, Idled(w))
  {
    BoundShrinks(w.ps, w.ss, AllWaited(w.ps), w.ss);
  }

  /** The running process leaves: the measure loses at least one, unless it is due again at once. */
  lemma StoppedWork(w: World, c: Pcb)
    requires Executing(w) && w.ps[w.current].state == Running && c.state in {Blocked, Exited}
    ensures var r := w.(ps := w.ps[w.current := c]);
            NoWorse(w, r) && (!Due(c, w.tick) ==> WorkOf(r) < WorkOf(w))
  {
    WorkUpdate(w.ps, w.ss, w.tick, w.current, c, w.ss[w.current]);
    assert w.ss[w.current := w.ss[w.current]] == w.ss;
    BoundShrinks(w.ps, w.ss, w.ps[w.current := c], w.ss);
  }

  lemma CompletedWork(w: World)
    requires Executing(w) && w.ps[w.current].state == Running && w.ss[w.current].pc < |w.ss[w.current].insns|
    ensures NoWorse(w, Completed(w)) && WorkOf(Completed(w)) == WorkOf(w) - 2
  {
    var s := Advanced(w.ss[w.current]);
    WorkUpdate(w.ps, w.ss, w.tick, w.current, w.ps[w.current], s);
    assert w.ps[w.current := w.ps[w.current]] == w.ps;
    BoundShrinks(w.ps, w.ss, w.ps, w.ss[w.current := s]);
  }

  lemma CalledWork(w: World, pid: int)
    requires |w.ps| == |w.ss|
    ensures var r := Called(w, pid);
            |r.ps| == |r.ss| == |w.ps| && BoundOf(r) <= BoundOf(w) && r.tick == w.tick && WorkOf(r) <= WorkOf(w) + 1
  {
    hide Appended;
    if 0 <= pid < |w.ps| && w.ps[pid].state == Blocked {
      WorkUpdate(w.ps, w.ss, w.tick, pid, Moved(w.ps[pid], Ready, w.tick), w.ss[pid]);
      assert w.ss[pid := w.ss[pid]] == w.ss;
    }
    BoundShrinks(w.ps, w.ss, Called(w, pid).ps, w.ss);
  }

  /** A burst ends no process and adds no instruction. */
  lemma BurstWork(w: World, timer: bool)
    requires Executing(w) && w.ps[w.current].state == Running && Next(w.ss[w.current]).Burst?
    ensures Progress(w, Preempted(Ticked(w), timer))
  {
    hide Appended, GivesWay;
    var r := Preempted(Ticked(w), timer);
    forall p | 0 <= p < |w.ps|
      ensures Later(w.ps[p], w.ss[p], r.ps[p], r.ss[p])
    {
      assert p != w.current ==> r.ps[p] == Waited(w.ps[p]);
    }
    BoundShrinks(w.ps, w.ss, r.ps, r.ss);
  }

  lemma RespondedWork(w: World, o: Outcome)
    requires Executing(w) && w.ps[w.current].state == Running && w.ss[w.current].pc < |w.ss[w.current].insns|
    ensures Progress(w, Responded(w, o))
  {
    hide Called, Work, Bound;
    match o
    case Fails(code) => StoppedWork(w, Dead(w.ps[w.current], code, w.tick));
    case Blocks => StoppedWork(w, Moved(w.ps[w.current].(wakeup := 0), Blocked, w.tick));
    case Sleeps => StoppedWork(w, Moved(w.ps[w.current].(wakeup := w.tick + FAULT_LATENCY), Blocked, w.tick));
    case Done(wake) =>
      CalledWork(w, wake);
      CalledRuns(w, wake);
      CompletedWork(Called(w, wake));
  }

  lemma CalledRuns(w: World, pid: int)
    requires Executing(w) && w.ps[w.current].state == Running
    ensures Executing(Called(w, pid)) && Called(w, pid) == w.(ps := Called(w, pid).ps, lines := Called(w, pid).lines)
    ensures Called(w, pid).ps[w.current] == w.ps[w.current]
  {
    hide Appended;
  }

  lemma ExecutedWork(w: World, a: Answer)
    requires Good(w) && 0 <= w.current
    ensures Executing(w) && Progress(w, Executed(w, a))
  {
    hide Good, Work, Bound, Responded, Preempted, Ticked;
    GoodExecuting(w);
    match Next(w.ss[w.current])
    case Ends(code) => StoppedWork(w, Dead(w.ps[w.current], code, w.tick));
    case Burst => BurstWork(w, a.timer);
    case Sleep(n) =>
      CompletedWork(w);
      StoppedWork(Completed(w), Moved(w.ps[w.current].(wakeup := w.tick + n), Blocked, w.tick));
    case Calls => RespondedWork(w, a.outcome);
  }

  /** Every pass consumes a tick or lowers the measure. */
  lemma PassedWork(w: World, pick: int, a: Answer)
    requires Good(w) && Enabled(w, Pass(pick, a))
    ensures Progress(w, Passed(w, pick, a))
  {
    hide Good, Prepared, Work, Bound, Nobody, Executed, MayRun, Chosen;
    PreparedWork(w);
    GoodPrepared(w);
    var v := Prepared(w);
    GoodSizes(v);
    if Nobody(v) {
      IdledWork(v);
    } else {
      GoodDispatched(w, pick);
      var d := Dispatched(w, pick);
      if v.current < 0 {
        MayRunReady(v, pick);
        ChosenWork(v, pick);
      }
      CountedGood(d);
      ExecutedWork(d.(calls := d.calls + 1), a);
    }
  }

  lemma MayRunReady(w: World, pid: int)
    requires MayRun(w, pid)
    ensures 0 <= pid < |w.ps| && w.ps[pid].state == Ready
  {
  }

  lemma WorkBounded(w: World)
    requires |w.ps| == |w.ss|
    ensures WorkOf(w) <= BoundOf(w)
  {
    WorkBound(w.ps, w.ss, w.tick);
  }

  // ----- idling -----

  lemma ExecutedIdle(w: World, a: Answer)
    requires Executing(w)
    ensures Executed(w, a).idle == w.idle && Executed(w, a).calls == w.calls
    ensures Executed(w, a).tick == if Next(w.ss[w.current]).Burst? then w.tick + 1 else w.tick
  {
    hide Appended, GivesWay;
  }

  /** A pass idles exactly when nobody runs, is READY or is due to wake; otherwise the environment is asked once. */
  lemma IdlesIff(w: World, pick: int, a: Answer)
    requires Good(w) && Enabled(w, Pass(pick, a))
    ensures var r, nobody := Passed(w, pick, a), w.current < 0 && forall p :: 0 <= p < |w.ps| ==> !Runnable(w.ps[p], w.tick);
            && r.idle == (if nobody then w.idle + 1 else w.idle)
            && r.calls == (if nobody then w.calls else w.calls + 1)
            && (nobody ==> r.tick == w.tick + 1)
  {
    hide Good, Prepared, Nobody, Executed, MayRun, Runnable;
    NobodyIff(w);
    PreparedBlocks(w);
    GoodPrepared(w);
    var v := Prepared(w);
    GoodSizes(v);
    if !Nobody(v) {
      GoodDispatched(w, pick);
      var d := Dispatched(w, pick);
      CountedGood(d);
      ExecutedIdle(d.(calls := d.calls + 1), a);
    }
  }
}
