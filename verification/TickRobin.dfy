/** How long a process waits under round robin. */
module TickRobin {
  import opened Sequences
  import opened Proc
  import opened Sched
  import opened Accounting
  import opened TickSpec
  import opened TickFacts
  import opened TickWork
  import opened TickOrder

  // ----- who waits through a pass -----

  /** Whoever is READY and not dispatched stays READY since the same tick; whoever else is READY after the pass became so
      during it. */
  ghost predicate Waits(w: World, r: World, started: seq<int>, v: World, p: int) {
    && 0 <= p < |w.ps| == |r.ps| == |v.ps|
    && (w.ps[p].state == Ready && p !in started ==>
          r.ps[p].state == Ready && r.ps[p].lastReady == w.ps[p].lastReady && r.ps[p].priority == v.ps[p].priority)
    && (r.ps[p].state == Ready && !(w.ps[p].state == Ready && p !in started) ==> w.tick <= r.ps[p].lastReady)
  }

  lemma PreparedWaits(w: World, p: int)
    requires Good(w) && 0 <= p < |w.ps|
    ensures Waits(w, Prepared(w), [], Prepared(w), p) && Prepared(w).tick == w.tick && Prepared(w).current == w.current
  {
    PreparedBlocks(w);
    hide Good, Prepared;
    assert Alike(WokeBlock(w.ps[p], w.tick), Prepared(w).ps[p]);
  }

  lemma BurstWaits(w: World, timer: bool, p: int)
    requires Executing(w) && w.ps[w.current].state == Running && Next(w.ss[w.current]).Burst? && 0 <= p < |w.ps|
    ensures Waits(w, Preempted(Ticked(w), timer), [], w, p)
  {
    hide Appended, GivesWay;
  }

  lemma StoppedWaits(w: World, code: int, wakeup: nat, p: int)
    requires Executing(w) && w.ps[w.current].state == Running && 0 <= p < |w.ps|
    ensures Waits(w, Ended(w, code), [], w, p) && Waits(w, Asleep(Completed(w), wakeup), [], w, p)
  {
  }

  lemma RespondedWaits(w: World, o: Outcome, p: int)
    requires Executing(w) && w.ps[w.current].state == Running && 0 <= p < |w.ps|
    ensures Waits(w, Responded(w, o), [], w, p)
  {
    hide Appended;
  }

  lemma ExecutedWaits(w: World, a: Answer, p: int)
    requires Good(w) && 0 <= w.current && 0 <= p < |w.ps|
    ensures Executing(w) && Waits(w, Executed(w, a), [], w, p)
  {
    GoodExecuting(w);
    hide Good, Preempted, Ticked, Responded, Ended, Asleep, Completed, Waits;
    match Next(w.ss[w.current])
    case Burst => BurstWaits(w, a.timer, p);
    case Calls => RespondedWaits(w, a.outcome, p);
    case Ends(code) => StoppedWaits(w, code, 0, p);
    case Sleep(n) => StoppedWaits(w, 0, w.tick + n, p);
  }

  lemma PassWaits(w: World, pick: int, a: Answer, p: int)
    requires Good(w) && Enabled(w, Pass(pick, a)) && 0 <= p < |w.ps|
    ensures Waits(w, Passed(w, pick, a), Starts(w, Pass(pick, a)), Prepared(w), p)
  {
    hide Good, Prepared, Nobody, Executed, Foremost, AtHead;
    GoodPrepared(w);
    PreparedWaits(w, p);
    var v := Prepared(w);
    GoodSizes(v);
    if !Nobody(v) {
      GoodDispatched(w, pick);
      var d := Dispatched(w, pick);
      var d' := d.(calls := d.calls + 1);
      CountedGood(d);
      ExecutedWaits(d', a, p);
    }
  }

  // ----- the quantum -----

  /** What the running process has left of its quantum. */
  ghost function Slack(w: World): nat {
    if 0 <= w.current && w.consumed <= w.quantum then w.quantum - w.consumed else 0
  }

  /** The scheduler knows who is running and has charged less than a quantum. */
  ghost predicate Charged(w: World) {
    0 <= w.current ==> w.known == w.current && w.consumed < w.quantum
  }

  /** Time passes at the expense of the running process's quantum. */
  ghost predicate Spends(w: World, r: World) {
    && r.quantum == w.quantum && w.tick <= r.tick <= w.tick + 1 && Charged(r)
    && r.tick + Slack(r) <= w.tick + Slack(w)
    && (r.tick - w.tick) + Slack(r) <= w.quantum
  }

  lemma BurstSpends(w: World, timer: bool)
    requires Executing(w) && Next(w.ss[w.current]).Burst? && Charged(w) && w.algo != Fcfs && 0 < w.quantum
    ensures Spends(w, Preempted(Ticked(w), timer))
  {
    hide Appended;
  }

  lemma ExecutedSpends(w: World, a: Answer)
    requires Executing(w) && Charged(w) && w.algo != Fcfs && 0 < w.quantum
    ensures Spends(w, Executed(w, a))
  {
    hide Appended, Preempted, Ticked;
    match Next(w.ss[w.current])
    case Burst => BurstSpends(w, a.timer);
    case _ =>
  }

  /** A pass that does not idle: a dispatch buys a quantum, and every tick is paid for. */
  lemma PassSpends(w: World, pick: int, a: Answer)
    requires Good(w) && Enabled(w, Pass(pick, a)) && Charged(w) && w.algo != Fcfs
    ensures var r, started := Passed(w, pick, a), Starts(w, Pass(pick, a));
            && Charged(r) && r.quantum == w.quantum && w.tick <= r.tick <= w.tick + 1
            && (!Nobody(Prepared(w)) ==>
                  && (r.tick - w.tick) + Slack(r) <= w.quantum
                  && r.tick + Slack(r) <= w.tick + Slack(w) + if started == [] then 0 else w.quantum)
  {
    hide Good, Prepared, Nobody, Executed, MayRun;
    GoodPrepared(w);
    PreparedBlocks(w);
    var v := Prepared(w);
    GoodSizes(v);
    QuantumOk(w);
    if Nobody(v) {
      NobodyRuns(v);
    } else {
      GoodDispatched(w, pick);
      var d := Dispatched(w, pick);
      CountedGood(d);
      ExecutedSpends(d.(calls := d.calls + 1), a);
    }
  }

  lemma QuantumOk(w: World)
    requires Good(w)
    ensures 0 < w.quantum
  {
  }

  // ----- nobody waits longer than everybody's quantum -----

  lemma LineFits(w: World)
    requires Good(w) && OneLine(w.algo)
    ensures |w.lines.line| + (if 0 <= w.current then 1 else 0) <= |w.ps|
  {
    LineIs(w);
    var line, S := w.lines.line, Below(|w.ps|) - {w.current};
    forall i | 0 <= i < |line|
      ensures line[i] in S
    {
      assert line[i] in line;
    }
    DistinctBound(line, S);
    SubsetSize(S, Below(|w.ps|));
  }

  /** The process at place j can still be dispatched in time. */
  ghost predicate InTime(w: World, j: nat)
    requires j < |w.lines.line|
  {
    var p := w.lines.line[j];
    0 <= p < |w.ps| && w.tick + j * w.quantum + Slack(w) <= w.ps[p].lastReady + |w.ps| * w.quantum
  }

  ghost predicate Prompt(w: World) {
    w.algo == RoundRobin ==> Charged(w) && forall j :: 0 <= j < |w.lines.line| ==> InTime(w, j)
  }

  /** What it is for: no READY process has been READY for more than a quantum for every process. */
  lemma PromptMeans(w: World, p: int)
    requires Good(w) && Prompt(w) && w.algo == RoundRobin && 0 <= p < |w.ps| && w.ps[p].state == Ready
    ensures w.tick <= w.ps[p].lastReady + |w.ps| * w.quantum
  {
    LineIs(w);
    assert p in w.lines.line;
    var j :| 0 <= j < |w.lines.line| && w.lines.line[j] == p;
    assert InTime(w, j);
  }

  lemma Times(j: nat, n: nat, q: nat)
    requires j < n
    ensures j * q + q <= n * q
  {
    assert (j + 1) * q == j * q + q;
    TimesLe(j + 1, n, q);
  }

  lemma TimesLe(m: nat, n: nat, q: nat)
    requires m <= n
    ensures m * q <= n * q
  {
    assert (n - m) * q == n * q - m * q;
  }

  /** Whoever became READY during the pass has time for everybody. */
  lemma JustJoined(w: World, now: nat, j: nat)
    requires Good(w) && w.algo == RoundRobin && j < |w.lines.line| && now <= w.tick && (w.tick - now) + Slack(w) <= w.quantum
    requires 0 <= w.lines.line[j] < |w.ps| && now <= w.ps[w.lines.line[j]].lastReady
    ensures InTime(w, j)
  {
    LineFits(w);
    Times(j, |w.lines.line|, w.quantum);
    TimesLe(|w.lines.line|, |w.ps|, w.quantum);
  }

  lemma PassPrompt(w: World, pick: int, a: Answer)
    requires Good(w) && Enabled(w, Pass(pick, a)) && Prompt(w) && w.algo == RoundRobin
    ensures Prompt(Passed(w, pick, a))
  {
    hide Good, Passed, Enabled, Starts, Joins, Prepared, Nobody, InTime;
    PassOrder(w, pick, a);
    PassSpends(w, pick, a);
    GoodPassed(w, pick, a);
    var r := Passed(w, pick, a);
    if Nobody(Prepared(w)) {
      IdleLine(w, pick, a);
    } else {
      forall j | 0 <= j < |r.lines.line|
        ensures InTime(r, j)
      {
        PlacePrompt(w, pick, a, j);
      }
    }
  }

  lemma IdleLine(w: World, pick: int, a: Answer)
    requires Good(w) && Enabled(w, Pass(pick, a)) && OneLine(w.algo) && Nobody(Prepared(w))
    ensures Passed(w, pick, a).lines.line == [] && w.lines.line == []
  {
    hide Good, Prepared, DueUpTo;
    GoodPrepared(w);
    PreparedLine(w);
    var v := Prepared(w);
    GoodSizes(v);
    assert v.lines.line == [] by {
      hide *;
      EmptyLine(v);
    }
  }

  lemma EmptyLine(w: World)
    requires Good(w) && OneLine(w.algo) && Nobody(w)
    ensures w.lines.line == []
  {
    assert |w.lines.line| == |multiset(w.lines.line)|;
  }

  lemma MovedUp(w: World, r: World, j: nat, s: nat)
    requires s <= 1 && j + s < |w.lines.line| && j < |r.lines.line| && InTime(w, j + s)
    requires r.lines.line[j] == w.lines.line[j + s] && r.quantum == w.quantum && |r.ps| == |w.ps|
    requires r.ps[r.lines.line[j]].lastReady == w.ps[r.lines.line[j]].lastReady
    requires r.tick + Slack(r) <= w.tick + Slack(w) + if s == 0 then 0 else w.quantum
    ensures InTime(r, j)
  {
    hide Slack;
    assert (j + 1) * w.quantum == j * w.quantum + w.quantum;
  }

  lemma PlacePrompt(w: World, pick: int, a: Answer, j: nat)
    requires Good(w) && Enabled(w, Pass(pick, a)) && Prompt(w) && w.algo == RoundRobin && !Nobody(Prepared(w))
    requires j < |Passed(w, pick, a).lines.line|
    ensures InTime(Passed(w, pick, a), j)
  {
    hide Good, Passed, Enabled, Starts, Joins, Prepared, Nobody, Slack, InTime, Charged;
    var r, started := Passed(w, pick, a), Starts(w, Pass(pick, a));
    PassOrder(w, pick, a);
    PassSpends(w, pick, a);
    GoodPassed(w, pick, a);
    GoodLine(r);
    var p := r.lines.line[j];
    assert p in r.lines.line;
    PassWho(w, pick, a, p);
    if w.ps[p].state == Ready && p !in started {
      PlaceBefore(w, pick, a, j);
      assert InTime(w, j + |started|);
      MovedUp(w, r, j, |started|);
    } else {
      JustJoined(r, w.tick, j);
    }
  }

  lemma PassWho(w: World, pick: int, a: Answer, p: int)
    requires Good(w) && Enabled(w, Pass(pick, a))
    requires 0 <= p < |Passed(w, pick, a).ps|
    ensures |Passed(w, pick, a).ps| == |w.ps| && Waits(w, Passed(w, pick, a), Starts(w, Pass(pick, a)), Prepared(w), p)
  {
    hide Good, Passed, Enabled, Starts, Prepared;
    PassedWork(w, pick, a);
    PassWaits(w, pick, a, p);
  }

  /** Who was waiting and was not dispatched has moved up by as many places as there were dispatches. */
  lemma PlaceBefore(w: World, pick: int, a: Answer, j: nat)
    requires Good(w) && Enabled(w, Pass(pick, a)) && OneLine(w.algo)
    requires j < |Passed(w, pick, a).lines.line|
    requires var p := Passed(w, pick, a).lines.line[j];
             0 <= p < |w.ps| && w.ps[p].state == Ready && p !in Starts(w, Pass(pick, a))
    ensures var i := j + |Starts(w, Pass(pick, a))|;
            i < |w.lines.line| && w.lines.line[i] == Passed(w, pick, a).lines.line[j] && |Starts(w, Pass(pick, a))| <= 1
  {
    hide Good, Passed, Enabled, Joins, Prepared, Nobody;
    var r, started := Passed(w, pick, a), Starts(w, Pass(pick, a));
    var p := r.lines.line[j];
    PassOrder(w, pick, a);
    GoodPassed(w, pick, a);
    GoodLine(w);
    GoodLine(r);
    assert p in w.lines.line;
    var i :| 0 <= i < |w.lines.line| && w.lines.line[i] == p;
    var all := started + r.lines.line;
    assert all == w.lines.line + Joins(w, Pass(pick, a));
    assert all[i] == p;
    assert |started| <= i;
    assert r.lines.line[i - |started|] == p;
  }

  // ----- histories -----

  /** Passes, launches and requests to reschedule. */
  ghost predicate Calm(es: seq<Event>) {
    forall k :: 0 <= k < |es| ==> es[k].Pass? || es[k].Launch? || es[k].Resched?
  }

  lemma FreshIs(priority: int, tick: nat)
    ensures Fresh(priority, tick).lastReady == tick
  {
  }

  lemma MoreRoom(w: World, r: World, j: nat)
    requires j < |w.lines.line| && InTime(w, j) && w.ps <= r.ps && r.tick == w.tick && r.quantum == w.quantum
    requires j < |r.lines.line| && r.lines.line[j] == w.lines.line[j] && Slack(r) == Slack(w)
    ensures InTime(r, j)
  {
    hide Slack;
    TimesLe(|w.ps|, |r.ps|, w.quantum);
  }

  lemma LaunchPrompt(w: World, insns: seq<Insn>, priority: int)
    requires Good(w) && Prompt(w) && w.algo == RoundRobin
    ensures Prompt(Launched(w, insns, priority))
  {
    hide Good, InTime, Fresh;
    var r := Launched(w, insns, priority);
    if |w.ps| < MAX_PROCS {
      GoodLaunched(w, insns, priority);
      QuantumOk(w);
      forall j | 0 <= j < |r.lines.line|
        ensures InTime(r, j)
      {
        if j < |w.lines.line| {
          assert InTime(w, j);
          MoreRoom(w, r, j);
        } else {
          FreshIs(priority, w.tick);
          JustJoined(r, w.tick, j);
        }
      }
    }
  }

  /** Whatever the processes do, as long as there are only passes, launches and requests to reschedule, everybody is
      dispatched in time. */
  lemma {:induction false} StaysPrompt(w: World, es: seq<Event>)
    requires Good(w) && Prompt(w) && w.algo == RoundRobin && Possible(w, es) && Calm(es)
    ensures Prompt(After(w, es)) && After(w, es).algo == RoundRobin && After(w, es).quantum == w.quantum
  {
    hide Good, Prompt, Passed, Launched, Enabled;
    if es != [] {
      var k := |es| - 1;
      var v, e := After(w, es[..k]), es[k];
      StaysPrompt(w, es[..k]);
      GoodAfter(w, es[..k]);
      match e
      case Pass(pick, a) =>
        PassPrompt(v, pick, a);
        PassSteady(v, pick, a);
      case Launch(insns, priority) =>
        LaunchPrompt(v, insns, priority);
        LaunchedAlgo(v, insns, priority);
      case Resched => SamePrompt(v, After(w, es));
    }
  }

  lemma PassSteady(w: World, pick: int, a: Answer)
    requires Good(w) && Enabled(w, Pass(pick, a))
    ensures Passed(w, pick, a).algo == w.algo && Passed(w, pick, a).quantum == w.quantum
  {
    hide Good, Prepared, Nobody, Executed, MayRun;
    GoodPrepared(w);
    PreparedBlocks(w);
    GoodSizes(Prepared(w));
    if !Nobody(Prepared(w)) {
      GoodDispatched(w, pick);
      var d := Dispatched(w, pick);
      CountedGood(d);
      ExecutedAlgo(d.(calls := d.calls + 1), a);
    }
  }

  lemma SamePrompt(w: World, r: World)
    requires Prompt(w) && r == w.(needResched := r.needResched)
    ensures Prompt(r)
  {
    forall j | r.algo == RoundRobin && 0 <= j < |r.lines.line|
      ensures InTime(r, j)
    {
      assert InTime(w, j);
    }
  }

  /** Until as many have been dispatched as stand before place i, time is paid for by their quanta. */
  lemma {:induction false} TurnNear(w: World, es: seq<Event>, i: nat)
    requires Good(w) && w.algo == RoundRobin && Charged(w) && Possible(w, es) && Calm(es)
    requires i < |w.lines.line| && |StartLog(w, es)| <= i
    ensures var r, n := After(w, es), |StartLog(w, es)|;
            && Charged(r) && r.algo == RoundRobin && r.quantum == w.quantum
            && r.tick + Slack(r) <= w.tick + Slack(w) + n * w.quantum
  {
    hide Good, Apply, Enabled, Starts, Slack, Charged;
    if es != [] {
      var k := |es| - 1;
      var v, e := After(w, es[..k]), es[k];
      TurnNear(w, es[..k], i);
      PlaceAfter(w, es[..k], i);
      var n := |StartLog(w, es[..k])|;
      GoodAfter(w, es[..k]);
      EventSpends(v, e);
      AnotherTurn(n, |Starts(v, e)|, w.quantum);
      assert |StartLog(w, es)| == n + |Starts(v, e)|;
    }
  }

  lemma AnotherTurn(n: nat, s: nat, q: nat)
    requires s <= 1
    ensures (n + s) * q == n * q + if s == 0 then 0 else q
  {
  }

  lemma EventSpends(w: World, e: Event)
    requires Good(w) && Enabled(w, e) && w.algo == RoundRobin && Charged(w) && w.lines.line != []
    requires e.Pass? || e.Launch? || e.Resched?
    ensures var r := Apply(w, e);
            && Charged(r) && r.algo == RoundRobin && r.quantum == w.quantum && |Starts(w, e)| <= 1
            && r.tick + Slack(r) <= w.tick + Slack(w) + if Starts(w, e) == [] then 0 else w.quantum
  {
    if e.Pass? {
      hide Good, Passed, Enabled, Prepared, Nobody;
      PassSpends(w, e.pick, e.answer);
      PassSteady(w, e.pick, e.answer);
      if Nobody(Prepared(w)) {
        IdleLine(w, e.pick, e.answer);
      }
    } else {
      hide Good, Prepared, Enabled;
    }
  }

  /** A process with i others before it is dispatched, after exactly these, before the quanta of those others and what is
      left of the running process's quantum have passed. */
  lemma TurnComes(w: World, es: seq<Event>, i: nat)
    requires Good(w) && w.algo == RoundRobin && Charged(w) && Possible(w, es) && Calm(es) && i < |w.lines.line|
    requires w.tick + i * w.quantum + Slack(w) < After(w, es).tick
    ensures i < |StartLog(w, es)| && StartLog(w, es)[..i + 1] == w.lines.line[..i + 1]
  {
    hide Good, Possible, Slack, Charged;
    if |StartLog(w, es)| <= i {
      TurnNear(w, es, i);
      TimesLe(|StartLog(w, es)|, i, w.quantum);
    }
    forall j | 0 <= j <= i
      ensures StartLog(w, es)[j] == w.lines.line[j]
    {
      PlaceAfter(w, es, j);
    }
  }
}
