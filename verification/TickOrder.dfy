/** FCFS and round robin serve the READY processes in the order in which they became READY, over whole histories. */
module TickOrder {
  import opened Sequences
  import opened Proc
  import opened Sched
  import opened Accounting
  import opened TickSpec
  import opened TickFacts
  import opened TickWork

  /** The policies with one line. */
  ghost predicate OneLine(algo: Algo) {
    algo == Fcfs || algo == RoundRobin
  }

  /** The line holds the READY processes, each once. */
  lemma LineIs(w: World)
    requires Sound(w) && OneLine(w.algo)
    ensures NoDuplicates(w.lines.line) && forall x :: x in w.lines.line <==> 0 <= x < |w.ps| && w.ps[x].state == Ready
  {
    SetList(w.lines.line, ReadySet(w.ps));
  }

  lemma GoodLine(w: World)
    requires Good(w) && OneLine(w.algo)
    ensures NoDuplicates(w.lines.line) && forall x :: x in w.lines.line <==> 0 <= x < |w.ps| && w.ps[x].state == Ready
  {
    LineIs(w);
  }

  // ----- who becomes READY, who is dispatched -----

  /** Those of the first n processes whose time has come, in slot order. */
  ghost function DueUpTo(ps: seq<Pcb>, tick: nat, n: nat): seq<int>
    requires n <= |ps|
  {
    if n == 0 then [] else DueUpTo(ps, tick, n - 1) + if Due(ps[n - 1], tick) then [n - 1] else []
  }

  /** Those of the first n processes that are READY in ps' and were not in ps. */
  ghost function BackUpTo(ps: seq<Pcb>, ps': seq<Pcb>, n: nat): seq<int>
    requires n <= |ps| == |ps'|
  {
    if n == 0 then []
    else BackUpTo(ps, ps', n - 1) + if ps'[n - 1].state == Ready && ps[n - 1].state != Ready then [n - 1] else []
  }

  /** The processes that an event makes READY, in order: first those whose time has come, then whoever the instruction of
      the running process wakes or sends back; or the process launched. */
  ghost function Joins(w: World, e: Event): seq<int> {
    match e
    case Pass(pick, a) =>
      var d, r := Dispatched(w, pick), Passed(w, pick, a);
      DueUpTo(w.ps, w.tick, |w.ps|) + if Nobody(Prepared(w)) || |r.ps| != |d.ps| then [] else BackUpTo(d.ps, r.ps, |d.ps|)
    case Launch(_, _) => if MAX_PROCS <= |w.ps| then [] else [|w.ps|]
    case _ => []
  }

  /** The process that an event dispatches. */
  ghost function Starts(w: World, e: Event): seq<int> {
    if e.Pass? && Prepared(w).current < 0 && !Nobody(Prepared(w)) then [e.pick] else []
  }

  // ----- one pass -----

  lemma {:induction false} WokenLine(w: World, n: nat)
    requires OneLine(w.algo) && n <= |w.ps|
    ensures WokenUpTo(w, n).lines == w.lines.(line := w.lines.line + DueUpTo(w.ps, w.tick, n))
  {
    if 0 < n {
      WokenLine(w, n - 1);
      WokenBlocks(w, n - 1);
      hide WokenUpTo;
      assert WokenUpTo(w, n) == WokenOne(WokenUpTo(w, n - 1), n - 1) by {
        WokenNext(w, n);
      }
    }
  }

  lemma WokenNext(w: World, n: nat)
    requires 0 < n <= |w.ps|
    ensures WokenUpTo(w, n) == WokenOne(WokenUpTo(w, n - 1), n - 1)
  {
  }

  lemma PreparedLine(w: World)
    requires OneLine(w.algo)
    ensures Prepared(w).algo == w.algo && Prepared(w).lines.line == w.lines.line + DueUpTo(w.ps, w.tick, |w.ps|)
  {
    WokenLine(w, |w.ps|);
    WokenBlocks(w, |w.ps|);
  }

  lemma {:induction false} NoneBack(ps: seq<Pcb>, ps': seq<Pcb>, n: nat)
    requires n <= |ps| == |ps'| && forall p :: 0 <= p < n && ps'[p].state == Ready ==> ps[p].state == Ready
    ensures BackUpTo(ps, ps', n) == []
  {
    if 0 < n {
      NoneBack(ps, ps', n - 1);
    }
  }

  lemma {:induction false} OneBack(ps: seq<Pcb>, ps': seq<Pcb>, n: nat, pid: int)
    requires 0 <= pid < n <= |ps| == |ps'| && ps'[pid].state == Ready && ps[pid].state != Ready
    requires forall p :: 0 <= p < n && p != pid && ps'[p].state == Ready ==> ps[p].state == Ready
    ensures BackUpTo(ps, ps', n) == [pid]
  {
    if pid < n - 1 {
      OneBack(ps, ps', n - 1, pid);
    } else {
      NoneBack(ps, ps', n - 1);
    }
  }

  /** r follows w, with whoever became READY in between at the end of the line. */
  ghost predicate Lengthened(w: World, r: World) {
    |r.ps| == |w.ps| && r.algo == w.algo && r.lines.line == w.lines.line + BackUpTo(w.ps, r.ps, |w.ps|)
  }

  lemma BurstLine(w: World, timer: bool)
    requires Executing(w) && w.ps[w.current].state == Running && Next(w.ss[w.current]).Burst? && OneLine(w.algo)
    ensures Lengthened(w, Preempted(Ticked(w), timer))
  {
    hide GivesWay;
    var t := Ticked(w);
    NoneBack(w.ps, t.ps, |w.ps|);
    OneBack(w.ps, Gave(t).ps, |w.ps|, w.current);
  }

  lemma RespondedLine(w: World, o: Outcome)
    requires Executing(w) && w.ps[w.current].state == Running && OneLine(w.algo)
    ensures Lengthened(w, Responded(w, o))
  {
    var r := Responded(w, o);
    if o.Done? && 0 <= o.wake < |w.ps| && w.ps[o.wake].state == Blocked {
      OneBack(w.ps, r.ps, |w.ps|, o.wake);
    } else {
      NoneBack(w.ps, r.ps, |w.ps|);
    }
  }

  lemma EndedLine(w: World, code: int)
    requires Executing(w)
    ensures Lengthened(w, Ended(w, code))
  {
    NoneBack(w.ps, Ended(w, code).ps, |w.ps|);
  }

  lemma AsleepLine(w: World, wakeup: nat)
    requires Executing(w)
    ensures Lengthened(w, Asleep(Completed(w), wakeup))
  {
    NoneBack(w.ps, Asleep(Completed(w), wakeup).ps, |w.ps|);
  }

  /** Executing an instruction appends whom it makes READY, and nobody else. */
  lemma ExecutedLine(w: World, a: Answer)
    requires Good(w) && 0 <= w.current && OneLine(w.algo)
    ensures Executing(w) && Lengthened(w, Executed(w, a))
  {
    GoodExecuting(w);
    hide Good, Preempted, Ticked, Responded, Lengthened, Ended, Asleep, Completed;
    match Next(w.ss[w.current])
    case Burst => BurstLine(w, a.timer);
    case Calls => RespondedLine(w, a.outcome);
    case Ends(code) => EndedLine(w, code);
    case Sleep(n) => AsleepLine(w, w.tick + n);
  }

  lemma Regrouped(a: seq<int>, l: seq<int>, b: seq<int>, v: seq<int>, w: seq<int>, due: seq<int>)
    requires a + l == v == w + due
    ensures a + (l + b) == w + (due + b)
  {
    assert a + (l + b) == (a + l) + b;
    assert w + (due + b) == (w + due) + b;
  }

  /** One pass: the line, with those who join it, is the one dispatched followed by the new line. */
  lemma PassOrder(w: World, pick: int, a: Answer)
    requires Good(w) && Enabled(w, Pass(pick, a)) && OneLine(w.algo)
    ensures Starts(w, Pass(pick, a)) + Passed(w, pick, a).lines.line == w.lines.line + Joins(w, Pass(pick, a))
    ensures Passed(w, pick, a).algo == w.algo
  {
    hide Good, Prepared, Nobody, Executed, DueUpTo, BackUpTo, Foremost;
    GoodPrepared(w);
    PreparedLine(w);
    var v := Prepared(w);
    GoodSizes(v);
    if Nobody(v) {
    } else {
      GoodDispatched(w, pick);
      var d := Dispatched(w, pick);
      CountedGood(d);
      ExecutedLine(d.(calls := d.calls + 1), a);
      Regrouped(Starts(w, Pass(pick, a)), d.lines.line, BackUpTo(d.ps, Passed(w, pick, a).ps, |d.ps|), v.lines.line,
                w.lines.line, DueUpTo(w.ps, w.tick, |w.ps|));
    }
  }

  // ----- histories -----

  /** No event rebuilds the queues. */
  ghost predicate Undisturbed(es: seq<Event>) {
    forall k :: 0 <= k < |es| ==> !es[k].Kill? && !es[k].Choose?
  }

  /** All that an undisturbed history makes READY, in order. */
  ghost function JoinLog(w: World, es: seq<Event>): seq<int> {
    if es == [] then []
    else JoinLog(w, es[..|es| - 1]) + Joins(After(w, es[..|es| - 1]), es[|es| - 1])
  }

  ghost function StartLog(w: World, es: seq<Event>): seq<int> {
    if es == [] then []
    else StartLog(w, es[..|es| - 1]) + Starts(After(w, es[..|es| - 1]), es[|es| - 1])
  }

  lemma EventOrder(w: World, e: Event)
    requires Good(w) && Enabled(w, e) && OneLine(w.algo) && !e.Kill? && !e.Choose?
    ensures Starts(w, e) + Apply(w, e).lines.line == w.lines.line + Joins(w, e)
    ensures Apply(w, e).algo == w.algo
  {
    if e.Pass? {
      hide Good, Passed, Joins, Starts, Enabled;
      PassOrder(w, e.pick, e.answer);
    } else {
      hide Prepared, Nobody;
    }
  }

  /** First come, first served, whatever happens in between: those waiting at the start and those who became READY since,
      in that order, are those dispatched so far followed by those still waiting. */
  lemma {:induction false} ServedInOrder(w: World, es: seq<Event>)
    requires Good(w) && Possible(w, es) && OneLine(w.algo) && Undisturbed(es)
    ensures After(w, es).algo == w.algo
    ensures StartLog(w, es) + After(w, es).lines.line == w.lines.line + JoinLog(w, es)
  {
    hide Good, Apply, Enabled, Joins, Starts;
    if es != [] {
      var k := |es| - 1;
      var v, e := After(w, es[..k]), es[k];
      ServedInOrder(w, es[..k]);
      GoodAfter(w, es[..k]);
      EventOrder(v, e);
      var a, b, c, d := StartLog(w, es[..k]), Starts(v, e), w.lines.line + JoinLog(w, es[..k]), Joins(v, e);
      assert (a + b) + After(w, es).lines.line == a + (b + After(w, es).lines.line);
      assert a + (v.lines.line + d) == (a + v.lines.line) + d;
      assert c + d == w.lines.line + JoinLog(w, es);
    }
  }

  /** Who stands at place i stands, after n dispatches, at place i - n, or is the i-th to have been dispatched. */
  lemma PlaceAfter(w: World, es: seq<Event>, i: nat)
    requires Good(w) && Possible(w, es) && OneLine(w.algo) && Undisturbed(es) && i < |w.lines.line|
    ensures var n, line := |StartLog(w, es)|, After(w, es).lines.line;
            if i < n then StartLog(w, es)[i] == w.lines.line[i] else i - n < |line| && line[i - n] == w.lines.line[i]
  {
    hide Good, Possible, After, StartLog, JoinLog;
    ServedInOrder(w, es);
    assert (w.lines.line + JoinLog(w, es))[i] == w.lines.line[i];
  }

  // ----- and in the order of the times -----

  /** Who is further back in the line became READY no earlier. */
  ghost predicate ByTime(line: seq<int>, ps: seq<Pcb>) {
    && (forall i :: 0 <= i < |line| ==> 0 <= line[i] < |ps|)
    && forall i, j :: 0 <= i < j < |line| ==> ps[line[i]].lastReady <= ps[line[j]].lastReady
  }

  /** The lines that the policy uses. */
  ghost function InUse(algo: Algo, n: Lines): seq<seq<int>> {
    match algo
    case Prio => []
    case Mlfq => n.levels
    case _ => [n.line]
  }

  ghost predicate InOrder(w: World) {
    forall l :: 0 <= l < |InUse(w.algo, w.lines)| ==> ByTime(InUse(w.algo, w.lines)[l], w.ps)
  }

  lemma LineByTime(w: World)
    requires OneLine(w.algo)
    ensures InOrder(w) <==> ByTime(w.lines.line, w.ps)
  {
    assert InUse(w.algo, w.lines)[0] == w.lines.line;
  }

  lemma InUseReady(w: World, l: nat)
    requires Sound(w) && l < |InUse(w.algo, w.lines)|
    ensures var line := InUse(w.algo, w.lines)[l];
            && (forall i :: 0 <= i < |line| ==> 0 <= line[i] < |w.ps| && w.ps[line[i]].state == Ready && w.ps[line[i]].lastReady <= w.tick)
            && (w.algo == Mlfq ==> forall x :: x in line <==> 0 <= x < |w.ps| && w.ps[x].state == Ready && w.ps[x].level == l)
  {
    var line := InUse(w.algo, w.lines)[l];
    if w.algo == Mlfq {
      SetList(line, AtLevel(w.ps, ReadySet(w.ps), l));
    } else {
      LineIs(w);
    }
    forall i | 0 <= i < |line|
      ensures 0 <= line[i] < |w.ps| && w.ps[line[i]].state == Ready && w.ps[line[i]].lastReady <= w.tick
    {
      assert line[i] in line;
      BlockAt(w, line[i]);
    }
  }

  /** A line, with somebody at its end who became READY no earlier than now. */
  lemma Extended(line: seq<int>, ps: seq<Pcb>, ps': seq<Pcb>, pid: int, now: nat)
    requires ByTime(line, ps) && |ps| <= |ps'| && 0 <= pid < |ps'| && now <= ps'[pid].lastReady
    requires forall i :: 0 <= i < |line| ==> ps'[line[i]].lastReady == ps[line[i]].lastReady <= now
    ensures ByTime(line, ps') && ByTime(line + [pid], ps')
  {
  }

  /** Whoever becomes READY now goes behind everybody else. */
  lemma ReadyInOrder(w: World, pid: int)
    requires Sound(w) && InOrder(w) && 0 <= pid < |w.ps| && w.ps[pid].state != Ready
    ensures InOrder(MadeReady(w, pid))
  {
    var r := MadeReady(w, pid);
    var lines, lines' := InUse(w.algo, w.lines), InUse(r.algo, r.lines);
    forall l | 0 <= l < |lines'|
      ensures ByTime(lines'[l], r.ps)
    {
      InUseReady(w, l);
      hide Sound, ByTime;
      Extended(lines[l], w.ps, r.ps, pid, w.tick);
      assert lines'[l] == lines[l] || lines'[l] == lines[l] + [pid];
    }
  }

  /** Whoever is not READY may change, and so may anything but the times of the others. */
  lemma SameOrder(w: World, r: World)
    requires Sound(w) && InOrder(w) && r.algo == w.algo && r.lines == w.lines && |r.ps| == |w.ps|
    requires forall p :: 0 <= p < |w.ps| && w.ps[p].state == Ready ==> r.ps[p].lastReady == w.ps[p].lastReady
    ensures InOrder(r)
  {
    var lines := InUse(w.algo, w.lines);
    forall l | 0 <= l < |lines|
      ensures ByTime(lines[l], r.ps)
    {
      InUseReady(w, l);
    }
  }

  lemma {:induction false} WokenInOrder(w: World, n: nat)
    requires Good(w) && InOrder(w) && n <= |w.ps|
    ensures InOrder(WokenUpTo(w, n))
  {
    hide Sound, CurrentOk, InOrder;
    if 0 < n {
      WokenInOrder(w, n - 1);
      GoodWokenUpTo(w, n - 1);
      var v := WokenUpTo(w, n - 1);
      if Due(v.ps[n - 1], v.tick) {
        var c := v.(ps := v.ps[n - 1 := v.ps[n - 1].(wakeup := 0)]);
        ClearedOk(v, n - 1);
        SameOrder(v, c);
        ReadyInOrder(c, n - 1);
      }
    }
  }

  /** p goes before x: at a lower level, or at the same and READY no later. Without levels only the time counts. */
  ghost predicate GoesFirst(algo: Algo, p: Pcb, x: Pcb) {
    if algo == Mlfq && p.level != x.level then p.level < x.level else p.lastReady <= x.lastReady
  }

  lemma HeadGoesFirst(w: World, pid: int, x: int)
    requires Good(w) && InOrder(w) && MayRun(w, pid) && w.algo != Prio && 0 <= x < |w.ps| && w.ps[x].state == Ready
    ensures GoesFirst(w.algo, w.ps[pid], w.ps[x])
  {
    var lines := InUse(w.algo, w.lines);
    if w.algo == Mlfq {
      BlockAt(w, x);
      var l, k := FirstLevel(lines), w.ps[x].level;
      InUseReady(w, l);
      InUseReady(w, k);
      hide Sound;
      assert pid in lines[l] && x in lines[k];
    } else {
      LineIs(w);
      hide Sound;
      assert x in lines[0];
    }
  }

  lemma ChosenInOrder(w: World, pid: int)
    requires Good(w) && InOrder(w) && MayRun(w, pid)
    ensures InOrder(Chosen(w, pid))
  {
    var r := Chosen(w, pid);
    var lines, lines' := InUse(w.algo, w.lines), InUse(r.algo, r.lines);
    forall l | 0 <= l < |lines'|
      ensures ByTime(lines'[l], r.ps)
    {
      InUseReady(w, l);
      hide Sound, CurrentOk, Foremost;
      assert lines'[l] == lines[l] || (lines[l] != [] && lines'[l] == lines[l][1..]);
    }
  }

  lemma BurstInOrder(w: World, timer: bool)
    requires Good(w) && InOrder(w) && Executing(w) && Next(w.ss[w.current]).Burst?
    ensures InOrder(Preempted(Ticked(w), timer))
  {
    GoodExecuting(w);
    GoodTicked(w);
    hide Sound, CurrentOk, InOrder, GivesWay;
    var t := Ticked(w);
    SameOrder(w, t);
    var v := t.(ps := t.ps[t.current := Demoted(t.ps[t.current], t.algo)], needResched := false);
    SoundDemoted(t);
    SameOrder(t, v);
    ReadyInOrder(v, t.current);
    SameLines(MadeReady(v, t.current), Gave(t));
  }

  lemma SameLines(w: World, r: World)
    requires InOrder(w) && r.algo == w.algo && r.lines == w.lines && r.ps == w.ps
    ensures InOrder(r)
  {
  }

  lemma CalledInOrder(w: World, o: Outcome)
    requires Good(w) && InOrder(w) && Executing(w)
    ensures InOrder(Responded(w, o))
  {
    GoodExecuting(w);
    hide Sound, CurrentOk, InOrder;
    if o.Done? {
      if 0 <= o.wake < |w.ps| && w.ps[o.wake].state == Blocked {
        ReadyInOrder(w, o.wake);
      }
      SameLines(Called(w, o.wake), Responded(w, o));
    } else {
      SameOrder(w, Responded(w, o));
    }
  }

  lemma ExecutedInOrder(w: World, a: Answer)
    requires Good(w) && InOrder(w) && 0 <= w.current
    ensures Executing(w) && InOrder(Executed(w, a))
  {
    GoodExecuting(w);
    hide Sound, CurrentOk, InOrder, Responded, Preempted, Ticked;
    match Next(w.ss[w.current])
    case Burst => BurstInOrder(w, a.timer);
    case Calls => CalledInOrder(w, a.outcome);
    case Ends(code) => SameOrder(w, Ended(w, code));
    case Sleep(n) => SameOrder(w, Asleep(Completed(w), w.tick + n));
  }

  lemma PreparedInOrder(w: World)
    requires Good(w) && InOrder(w) && (w.algo == Mlfq ==> w.tick < BOOST_INTERVAL)
    ensures InOrder(Prepared(w)) && Prepared(w).algo == w.algo
  {
    WokenBlocks(w, |w.ps|);
    if w.algo != Prio {
      hide Sound, CurrentOk, InOrder, WokenUpTo;
      WokenInOrder(w, |w.ps|);
    }
  }

  /** A pass keeps the order, under MLFQ as long as there is no boost, and whom it dispatches goes before everybody else. */
  lemma PassInOrder(w: World, pick: int, a: Answer)
    requires Good(w) && InOrder(w) && Enabled(w, Pass(pick, a)) && (w.algo == Mlfq ==> w.tick < BOOST_INTERVAL)
    ensures InOrder(Passed(w, pick, a)) && Passed(w, pick, a).algo == w.algo
    ensures var v := Prepared(w);
            w.algo != Prio && v.current < 0 && !Nobody(v) ==>
              && 0 <= pick < |v.ps| && v.ps[pick].state == Ready
              && forall x :: 0 <= x < |v.ps| && v.ps[x].state == Ready ==> GoesFirst(w.algo, v.ps[pick], v.ps[x])
  {
    hide Good, InOrder, Prepared, Nobody, Executed, Foremost, AtHead, GoesFirst;
    GoodPrepared(w);
    PreparedInOrder(w);
    var v := Prepared(w);
    GoodSizes(v);
    if Nobody(v) {
      IdleInOrder(v);
    } else {
      if v.current < 0 {
        ChosenInOrder(v, pick);
        forall x | w.algo != Prio && 0 <= x < |v.ps| && v.ps[x].state == Ready
          ensures GoesFirst(w.algo, v.ps[pick], v.ps[x])
        {
          HeadGoesFirst(v, pick, x);
        }
      }
      GoodDispatched(w, pick);
      var d := Dispatched(w, pick);
      var d' := d.(calls := d.calls + 1);
      CountedGood(d);
      SameLines(d, d');
      ExecutedInOrder(d', a);
      ExecutedAlgo(d', a);
    }
  }

  lemma IdleInOrder(w: World)
    requires Good(w) && InOrder(w)
    ensures InOrder(Idled(w))
  {
    SameOrder(w, Idled(w));
  }

  lemma ExecutedAlgo(w: World, a: Answer)
    requires Executing(w)
    ensures Executed(w, a).algo == w.algo && Executed(w, a).quantum == w.quantum
  {
    hide Appended, GivesWay;
  }

  lemma LaunchInOrder(w: World, insns: seq<Insn>, priority: int)
    requires Good(w) && InOrder(w)
    ensures InOrder(Launched(w, insns, priority))
  {
    var r := Launched(w, insns, priority);
    if |w.ps| < MAX_PROCS {
      var lines, lines' := InUse(w.algo, w.lines), InUse(r.algo, r.lines);
      forall l | 0 <= l < |lines'|
        ensures ByTime(lines'[l], r.ps)
      {
        InUseReady(w, l);
        hide Sound, CurrentOk, ByTime;
        Extended(lines[l], w.ps, r.ps, |w.ps|, w.tick);
        assert lines'[l] == lines[l] || lines'[l] == lines[l] + [|w.ps|];
      }
    }
  }

  /** An event never turns back the clock. */
  lemma ClockGoesOn(w: World, e: Event)
    requires Good(w) && Enabled(w, e)
    ensures w.tick <= Apply(w, e).tick
  {
    if e.Pass? {
      hide Good, Enabled, Passed, Work, Bound;
      PassedWork(w, e.pick, e.answer);
    } else {
      hide LinedUpTo, Appended;
    }
  }

  /** Over every undisturbed history the lines stay in the order of the times; under MLFQ until the first boost. */
  lemma {:induction false} StaysInOrder(w: World, es: seq<Event>)
    requires Good(w) && InOrder(w) && Possible(w, es) && Undisturbed(es)
    requires w.algo == Mlfq ==> After(w, es).tick < BOOST_INTERVAL
    ensures InOrder(After(w, es)) && After(w, es).algo == w.algo
  {
    hide Good, InOrder, Passed, Launched, Enabled;
    if es != [] {
      var k := |es| - 1;
      var v, e := After(w, es[..k]), es[k];
      GoodAfter(w, es[..k]);
      ClockGoesOn(v, e);
      StaysInOrder(w, es[..k]);
      match e
      case Pass(pick, a) => PassInOrder(v, pick, a);
      case Launch(insns, priority) =>
        LaunchInOrder(v, insns, priority);
        LaunchedAlgo(v, insns, priority);
      case _ => SameLines(v, After(w, es));
    }
  }

  lemma LaunchedAlgo(w: World, insns: seq<Insn>, priority: int)
    ensures Launched(w, insns, priority).algo == w.algo && Launched(w, insns, priority).quantum == w.quantum
  {
  }
}
