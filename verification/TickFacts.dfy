/** What every event of the runtime keeps: the queues hold exactly the READY processes, at most one process runs, and the
    ticks of every process are accounted for. */
module TickFacts {
  import opened Proc
  import opened Sched
  import opened Accounting
  import opened TickSpec

  /** At most one process runs, and it is the current one. */
  ghost predicate CurrentOk(ps: seq<Pcb>, current: int) {
    && (current == -1 || 0 <= current < |ps|)
    && forall p :: 0 <= p < |ps| ==> (ps[p].state == Running <==> p == current)
  }

  ghost predicate BlockOk(c: Pcb) {
    && MIN_PRIO <= c.priority <= MAX_PRIO && c.level < LEVELS
    && (c.state == Ready || c.state == Running ==> c.wakeup == 0)
  }

  /** Blocks are in range, and every live process has a slot. */
  ghost predicate BlocksOk(ps: seq<Pcb>, ss: seq<Slot>) {
    && |ps| == |ss| <= MAX_PROCS
    && forall p :: 0 <= p < |ps| ==> BlockOk(ps[p]) && (ps[p].state != Exited ==> ss[p].used)
  }

  ghost predicate LinesOk(algo: Algo, n: Lines, ps: seq<Pcb>, S: set<int>) {
    |n.levels| == LEVELS && (algo != Prio ==> HoldsSet(Queues(algo, n.line, [], n.levels), ps, S))
  }

  /** Everything but the agreement about which process is running. */
  ghost predicate Sound(w: World) {
    && 0 < w.quantum && |w.blocked| == |w.ps|
    && BlocksOk(w.ps, w.ss) && TimesOk(w.ps, w.blocked, w.tick, w.busy, w.idle)
    && LinesOk(w.algo, w.lines, w.ps, ReadySet(w.ps))
  }

  ghost predicate Good(w: World) {
    Sound(w) && CurrentOk(w.ps, w.current)
  }

  lemma BeginGood()
    ensures Good(Begin())
  {
    assert ReadySet([]) == {};
  }

  lemma BlockAt(w: World, p: int)
    requires Sound(w) && 0 <= p < |w.ps|
    ensures BlockOk(w.ps[p]) && TimeOk(w.ps[p], w.blocked[p], w.tick) && |w.ps| == |w.ss| == |w.blocked| <= MAX_PROCS
    ensures w.ps[p].state != Exited ==> w.ss[p].used
  {
  }

  lemma SizeOk(w: World)
    requires Sound(w)
    ensures |w.ps| == |w.ss| == |w.blocked| <= MAX_PROCS && |w.lines.levels| == LEVELS && 0 < w.quantum
  {
  }

  // ----- lines -----

  lemma AppendedOk(algo: Algo, n: Lines, ps: seq<Pcb>, S: set<int>, pid: int)
    requires LinesOk(algo, n, ps, S) && 0 <= pid < |ps| && pid !in S && ps[pid].level < LEVELS
    ensures LinesOk(algo, Appended(algo, n, ps[pid].level, pid), ps, S + {pid})
  {
    if algo != Prio {
      var n' := Appended(algo, n, ps[pid].level, pid);
      AddedHolds(Queues(algo, n.line, [], n.levels), ps, S, pid, Queues(algo, n'.line, [], n'.levels));
    }
  }

  lemma PoppedOk(algo: Algo, n: Lines, ps: seq<Pcb>, S: set<int>, pid: int)
    requires LinesOk(algo, n, ps, S) && AtHead(algo, n, pid) && 0 <= pid < |ps| && ps[pid].state == Ready
    ensures LinesOk(algo, Popped(algo, n), ps, S - {pid})
  {
    if algo != Prio {
      var n' := Popped(algo, n);
      if algo == Mlfq {
        assert PickedAt(n.levels, FirstLevel(n.levels), pid, n'.levels);
      }
      PickedHolds(Queues(algo, n.line, [], n.levels), ps, S, pid, Queues(algo, n'.line, [], n'.levels));
    }
  }

  /** Blocks may change as long as the processes of S keep their level. */
  lemma LinesSame(algo: Algo, n: Lines, ps: seq<Pcb>, ps': seq<Pcb>, S: set<int>)
    requires LinesOk(algo, n, ps, S) && |ps| <= |ps'| && forall p :: p in S ==> 0 <= p < |ps| && ps'[p].level == ps[p].level
    ensures LinesOk(algo, n, ps', S)
  {
    if algo != Prio {
      HoldsOther(Queues(algo, n.line, [], n.levels), ps, ps', S);
    }
  }

  /** The READY processes among the first n slots. */
  ghost function FirstReady(ps: seq<Pcb>, n: nat): (S: set<int>)
    ensures forall p :: p in S <==> 0 <= p < |ps| && p < n && ps[p].state == Ready
  {
    set p | 0 <= p < |ps| && p < n && ps[p].state == Ready
  }

  lemma FirstReadyNext(ps: seq<Pcb>, n: nat)
    requires n < |ps|
    ensures n !in FirstReady(ps, n)
    ensures FirstReady(ps, n + 1) == if ps[n].state == Ready then FirstReady(ps, n) + {n} else FirstReady(ps, n)
  {
  }

  lemma FirstReadyAll(ps: seq<Pcb>)
    ensures FirstReady(ps, |ps|) == ReadySet(ps)
  {
  }

  lemma NothingLined(algo: Algo, ps: seq<Pcb>)
    ensures LinesOk(algo, NoLines(), ps, {}) && FirstReady(ps, 0) == {}
  {
    assert forall l: nat :: AtLevel(ps, {}, l) == {};
  }

  lemma {:induction false} LinedOk(algo: Algo, ps: seq<Pcb>, ss: seq<Slot>, n: nat)
    requires BlocksOk(ps, ss) && n <= |ps|
    ensures LinesOk(algo, LinedUpTo(algo, ps, n), ps, FirstReady(ps, n))
  {
    hide LinesOk;
    if n == 0 {
      NothingLined(algo, ps);
    } else {
      LinedOk(algo, ps, ss, n - 1);
      FirstReadyNext(ps, n - 1);
      assert BlockOk(ps[n - 1]);
      if ps[n - 1].state == Ready {
        AppendedOk(algo, LinedUpTo(algo, ps, n - 1), ps, FirstReady(ps, n - 1), n - 1);
      }
    }
  }

  lemma RelinedOk(w: World)
    requires BlocksOk(w.ps, w.ss)
    ensures LinesOk(w.algo, Relined(w).lines, w.ps, ReadySet(w.ps))
  {
    LinedOk(w.algo, w.ps, w.ss, |w.ps|);
    FirstReadyAll(w.ps);
  }

  // ----- becoming READY -----

  lemma SoundReady(w: World, pid: int)
    requires Sound(w) && 0 <= pid < |w.ps| && w.ps[pid].state in {Running, Blocked} && w.ps[pid].wakeup == 0
    ensures Sound(MadeReady(w, pid))
  {
    var ps, ps' := w.ps, MadeReady(w, pid).ps;
    MoveTime(ps[pid], w.blocked[pid], w.tick, Ready);
    TimesUpdate(ps, w.blocked, w.tick, w.busy, w.idle, pid, ps'[pid]);
    LinesSame(w.algo, w.lines, ps, ps', ReadySet(ps));
    AppendedOk(w.algo, w.lines, ps', ReadySet(ps), pid);
    assert ReadySet(ps') == ReadySet(ps) + {pid};
  }

  lemma GoodCalled(w: World, pid: int)
    requires Good(w) && Legal(Done(pid), w.ps)
    ensures Good(Called(w, pid))
  {
    hide Sound;
    if 0 <= pid < |w.ps| && w.ps[pid].state == Blocked {
      SoundReady(w, pid);
    }
  }

  /** Clearing the wake-up time of a BLOCKED process. */
  lemma ClearedOk(w: World, pid: int)
    requires Sound(w) && 0 <= pid < |w.ps| && w.ps[pid].state == Blocked
    ensures Sound(w.(ps := w.ps[pid := w.ps[pid].(wakeup := 0)]))
  {
    var ps' := w.ps[pid := w.ps[pid].(wakeup := 0)];
    TimesUpdate(w.ps, w.blocked, w.tick, w.busy, w.idle, pid, ps'[pid]);
    assert ReadySet(ps') == ReadySet(w.ps);
    LinesSame(w.algo, w.lines, w.ps, ps', ReadySet(w.ps));
  }

  lemma GoodWokenOne(w: World, pid: int)
    requires Good(w) && 0 <= pid < |w.ps|
    ensures Good(WokenOne(w, pid))
  {
    hide Sound;
    if Due(w.ps[pid], w.tick) {
      ClearedOk(w, pid);
      SoundReady(w.(ps := w.ps[pid := w.ps[pid].(wakeup := 0)]), pid);
    }
  }

  lemma {:induction false} GoodWokenUpTo(w: World, n: nat)
    requires Good(w) && n <= |w.ps|
    ensures Good(WokenUpTo(w, n))
  {
    hide Good, WokenOne;
    if 0 < n {
      GoodWokenUpTo(w, n - 1);
      GoodWokenOne(WokenUpTo(w, n - 1), n - 1);
    }
  }

  // ----- before dispatch -----

  /** Nothing but priority and level may differ. */
  ghost predicate Alike(c: Pcb, c': Pcb) {
    c' == c.(priority := c'.priority, level := c'.level) && MIN_PRIO <= c'.priority <= c.priority && c'.level <= c.level
  }

  lemma GoodAlike(w: World, ps': seq<Pcb>)
    requires Good(w) && |ps'| == |w.ps| && forall p :: 0 <= p < |ps'| ==> Alike(w.ps[p], ps'[p])
    ensures Good(Relined(w.(ps := ps')))
  {
    hide LinesOk;
    SumCpuSame(w.ps, ps');
    RelinedOk(w.(ps := ps'));
  }

  lemma GoodRefreshed(w: World)
    requires Good(w)
    ensures Good(Refreshed(w))
    ensures forall p :: 0 <= p < |w.ps| ==> Alike(w.ps[p], Refreshed(w).ps[p])
    ensures Refreshed(w) == w.(ps := Refreshed(w).ps, lines := Refreshed(w).lines)
  {
    hide Relined;
    forall p | 0 <= p < |w.ps|
      ensures Alike(w.ps[p], w.ps[p]) && Alike(w.ps[p], AgedOne(w.ps[p], w.tick, AGING_INTERVAL)) && Alike(w.ps[p], Boosted(w.ps[p]))
    {
      assert BlockOk(w.ps[p]);
    }
    match w.algo
    case Prio => GoodAlike(w, AllAged(w.ps, w.tick)); RelinedIs(w.(ps := AllAged(w.ps, w.tick)));
    case Mlfq => GoodAlike(w, AllBoosted(w.ps)); RelinedIs(w.(ps := AllBoosted(w.ps)));
    case _ =>
  }

  lemma RelinedIs(w: World)
    ensures Relined(w) == w.(lines := Relined(w).lines)
  {
  }

  lemma GoodPrepared(w: World)
    requires Good(w)
    ensures Good(Prepared(w))
  {
    hide Good, Woken, Refreshed;
    assert Good(Woken(w)) by {
      GoodWokenUpTo(w, |w.ps|);
      WokenIs(w);
    }
    GoodRefreshed(Woken(w));
  }

  lemma WokenIs(w: World)
    ensures Woken(w) == WokenUpTo(w, |w.ps|)
  {
  }

  // ----- dispatch, idling -----

  lemma GoodChosen(w: World, pid: int)
    requires Good(w) && w.current == -1 && MayRun(w, pid)
    ensures Good(Chosen(w, pid))
  {
    var ps, ps' := w.ps, Chosen(w, pid).ps;
    MoveTime(ps[pid], w.blocked[pid], w.tick, Running);
    TimesUpdate(ps, w.blocked, w.tick, w.busy, w.idle, pid, ps'[pid]);
    PoppedOk(w.algo, w.lines, ps, ReadySet(ps), pid);
    assert ReadySet(ps') == ReadySet(ps) - {pid};
    LinesSame(w.algo, Popped(w.algo, w.lines), ps, ps', ReadySet(ps'));
  }

  lemma SameReady(ps: seq<Pcb>)
    ensures ReadySet(AllWaited(ps)) == ReadySet(ps)
  {
  }

  lemma GoodIdled(w: World)
    requires Good(w) && w.current == -1
    ensures Good(Idled(w))
  {
    var ps' := AllWaited(w.ps);
    IdleTick(w.ps, w.blocked, w.tick, w.busy, w.idle);
    SameReady(w.ps);
    LinesSame(w.algo, w.lines, w.ps, ps', ReadySet(w.ps));
  }

  // ----- execution -----

  lemma GoodExecuting(w: World)
    requires Good(w) && 0 <= w.current
    ensures Executing(w) && w.ps[w.current].state == Running && w.ps[w.current].wakeup == 0 && w.ss[w.current].used
  {
    BlockAt(w, w.current);
  }

  /** The running process stops running, without becoming READY. */
  lemma GoodStopped(w: World, c: Pcb)
    requires Good(w) && 0 <= w.current
    requires c.state in {Blocked, Exited} && (c.state == Exited ==> c.finish == w.tick)
    requires c == w.ps[w.current].(state := c.state, finish := c.finish, wakeup := c.wakeup, exitCode := c.exitCode)
    ensures Good(w.(ps := w.ps[w.current := c], current := -1))
  {
    var ps' := w.ps[w.current := c];
    TimesUpdate(w.ps, w.blocked, w.tick, w.busy, w.idle, w.current, c);
    assert ReadySet(ps') == ReadySet(w.ps);
    LinesSame(w.algo, w.lines, w.ps, ps', ReadySet(w.ps));
  }

  lemma GoodEnded(w: World, code: int)
    requires Good(w) && 0 <= w.current
    ensures Executing(w) && Good(Ended(w, code))
  {
    GoodExecuting(w);
    hide LinesOk, BlocksOk, TimesOk;
    GoodStopped(w, Dead(w.ps[w.current], code, w.tick));
  }

  lemma GoodAsleep(w: World, wakeup: nat)
    requires Good(w) && 0 <= w.current
    ensures Executing(w) && Good(Asleep(w, wakeup))
  {
    GoodExecuting(w);
    hide LinesOk, BlocksOk, TimesOk;
    GoodStopped(w, Moved(w.ps[w.current].(wakeup := wakeup), Blocked, w.tick));
  }

  lemma GoodCompleted(w: World)
    requires Good(w) && 0 <= w.current
    ensures Executing(w) && Good(Completed(w))
  {
    GoodExecuting(w);
    hide LinesOk, TimesOk;
  }

  lemma GoodTicked(w: World)
    requires Good(w) && Executing(w) && Next(w.ss[w.current]).Burst?
    ensures Good(Ticked(w))
  {
    hide LinesOk, BlocksOk, TimesOk;
    BusyTick(w.ps, w.blocked, w.tick, w.busy, w.idle, w.current);
    TickedBlocks(w);
    TickedLines(w);
  }

  lemma TickedLines(w: World)
    requires Good(w) && Executing(w)
    ensures LinesOk(w.algo, w.lines, Ran(w.ps, w.current), ReadySet(Ran(w.ps, w.current)))
  {
    hide BlocksOk, TimesOk, LinesOk;
    var ps, ps' := w.ps, Ran(w.ps, w.current);
    assert ps[w.current].state == Running;
    forall p | 0 <= p < |ps|
      ensures ps'[p].state == ps[p].state && ps'[p].level == ps[p].level
    {
    }
    assert ReadySet(ps') == ReadySet(ps);
    LinesSame(w.algo, w.lines, ps, ps', ReadySet(ps));
  }

  lemma TickedBlocks(w: World)
    requires Good(w) && Executing(w) && Next(w.ss[w.current]).Burst?
    ensures BlocksOk(Ticked(w).ps, Ticked(w).ss) && CurrentOk(Ticked(w).ps, w.current)
  {
    hide LinesOk, TimesOk;
    assert w.ps[w.current].state == Running;
    forall p | 0 <= p < |w.ps|
      ensures Ran(w.ps, w.current)[p].state == w.ps[p].state && BlockOk(Ran(w.ps, w.current)[p])
    {
      assert BlockOk(w.ps[p]);
    }
  }

  lemma SoundDemoted(w: World)
    requires Good(w) && 0 <= w.current
    ensures Sound(w.(ps := w.ps[w.current := Demoted(w.ps[w.current], w.algo)], needResched := false))
  {
    var c := Demoted(w.ps[w.current], w.algo);
    var ps' := w.ps[w.current := c];
    TimesUpdate(w.ps, w.blocked, w.tick, w.busy, w.idle, w.current, c);
    assert ReadySet(ps') == ReadySet(w.ps);
    LinesSame(w.algo, w.lines, w.ps, ps', ReadySet(w.ps));
  }

  lemma GoodGave(w: World)
    requires Good(w) && 0 <= w.current
    ensures Good(Gave(w))
  {
    GoodExecuting(w);
    hide LinesOk, BlocksOk, TimesOk;
    var v := w.(ps := w.ps[w.current := Demoted(w.ps[w.current], w.algo)], needResched := false);
    SoundDemoted(w);
    SoundReady(v, w.current);
  }

  lemma GoodResponded(w: World, o: Outcome)
    requires Good(w) && 0 <= w.current && Legal(o, w.ps)
    ensures Executing(w) && Good(Responded(w, o))
  {
    hide Sound;
    GoodExecuting(w);
    match o
    case Fails(code) => GoodEnded(w, code);
    case Blocks => GoodAsleep(w, 0);
    case Sleeps => GoodAsleep(w, w.tick + FAULT_LATENCY);
    case Done(wake) =>
      GoodCalled(w, wake);
      GoodCompleted(Called(w, wake));
  }

  lemma GoodExecuted(w: World, a: Answer)
    requires Good(w) && 0 <= w.current && Legal(a.outcome, w.ps)
    ensures Executing(w) && Good(Executed(w, a))
  {
    hide Good, Ended, Asleep, Completed, Responded, GivesWay;
    GoodExecuting(w);
    match Next(w.ss[w.current])
    case Ends(code) => GoodEnded(w, code);
    case Burst =>
      GoodTicked(w);
      GoodGave(Ticked(w));
    case Sleep(n) =>
      GoodCompleted(w);
      assert Completed(w).current == w.current by {
        CompletedSame(w);
      }
      GoodAsleep(Completed(w), w.tick + n);
    case Calls => GoodResponded(w, a.outcome);
  }

  lemma CompletedSame(w: World)
    requires Executing(w)
    ensures Completed(w) == w.(ss := Completed(w).ss) && |Completed(w).ss| == |w.ss|
  {
  }

  // ----- passes and requests -----

  /** Who runs in a pass. */
  lemma GoodDispatched(w: World, pick: int)
    requires Good(w) && !Nobody(Prepared(w)) && (Prepared(w).current < 0 ==> MayRun(Prepared(w), pick))
    ensures Good(Dispatched(w, pick)) && 0 <= Dispatched(w, pick).current
  {
    hide Prepared, Sound, AtHead, Foremost;
    GoodPrepared(w);
    var v := Prepared(w);
    if v.current < 0 {
      GoodChosen(v, pick);
    }
  }

  lemma GoodPassed(w: World, pick: int, a: Answer)
    requires Good(w) && Enabled(w, Pass(pick, a))
    ensures Good(Passed(w, pick, a))
  {
    hide Good, Prepared, Dispatched, Executed, Nobody, MayRun;
    GoodPrepared(w);
    var v := Prepared(w);
    if Nobody(v) {
      NobodyRuns(v);
      GoodIdled(v);
    } else {
      GoodDispatched(w, pick);
      var d := Dispatched(w, pick);
      var d' := d.(calls := d.calls + 1);
      CountedGood(d);
      GoodExecuted(d', a);
    }
  }

  lemma CountedGood(w: World)
    requires Good(w)
    ensures Good(w.(calls := w.calls + 1))
    ensures 0 <= w.current ==> Executing(w)
  {
  }

  lemma NobodyRuns(w: World)
    requires Good(w) && Nobody(w)
    ensures w.current == -1 && |w.blocked| == |w.ps|
  {
  }

  lemma GoodLaunched(w: World, insns: seq<Insn>, priority: int)
    requires Good(w)
    ensures Good(Launched(w, insns, priority))
  {
    hide LinesOk, BlocksOk, TimesOk, CurrentOk;
    SizeOk(w);
    if |w.ps| < MAX_PROCS {
      LaunchedBlocks(w, insns, priority);
      LaunchedTimes(w, priority);
      LaunchedLines(w, priority);
    }
  }

  lemma LaunchedBlocks(w: World, insns: seq<Insn>, priority: int)
    requires Good(w) && |w.ps| < MAX_PROCS
    ensures var ps' := w.ps + [Fresh(priority, w.tick)];
            BlocksOk(ps', w.ss + [Slot(true, insns, 0, 0)]) && CurrentOk(ps', w.current)
  {
    hide LinesOk, TimesOk;
  }

  lemma LaunchedTimes(w: World, priority: int)
    requires Good(w)
    ensures TimesOk(w.ps + [Fresh(priority, w.tick)], w.blocked + [0], w.tick, w.busy, w.idle)
  {
    hide LinesOk, BlocksOk;
    assert (w.ps + [Fresh(priority, w.tick)])[..|w.ps|] == w.ps;
  }

  lemma LaunchedLines(w: World, priority: int)
    requires Good(w)
    ensures var ps' := w.ps + [Fresh(priority, w.tick)];
            LinesOk(w.algo, Appended(w.algo, w.lines, 0, |w.ps|), ps', ReadySet(ps'))
  {
    hide LinesOk, BlocksOk, TimesOk, Appended;
    var ps' := w.ps + [Fresh(priority, w.tick)];
    LinesSame(w.algo, w.lines, w.ps, ps', ReadySet(w.ps));
    AppendedOk(w.algo, w.lines, ps', ReadySet(w.ps), |w.ps|);
    assert ReadySet(ps') == ReadySet(w.ps) + {|w.ps|};
  }

  lemma GoodKilled(w: World, pid: int)
    requires Good(w)
    ensures Good(Killed(w, pid))
  {
    if Live(w, pid) {
      var c := Dead(w.ps[pid], 130, w.tick);
      TimesUpdate(w.ps, w.blocked, w.tick, w.busy, w.idle, pid, c);
      RelinedOk(w.(ps := w.ps[pid := c], ss := w.ss[pid := Slot(false, [], 0, 0)],
                current := if w.current == pid then -1 else w.current));
    }
  }

  lemma GoodWithPolicy(w: World, algo: Algo)
    requires Good(w)
    ensures Good(WithPolicy(w, algo))
  {
    RelinedOk(w.(algo := algo, known := -1, consumed := 0));
  }

  /** Every event keeps the invariant. */
  lemma GoodApply(w: World, e: Event)
    requires Good(w) && Enabled(w, e)
    ensures Good(Apply(w, e))
  {
    hide Passed, Launched, Killed, WithPolicy, LinesOk, BlocksOk, TimesOk, CurrentOk, Enabled;
    match e
    case Pass(pick, a) => GoodPassed(w, pick, a);
    case Launch(insns, priority) => GoodLaunched(w, insns, priority);
    case Kill(pid) => GoodKilled(w, pid);
    case Choose(algo) => GoodWithPolicy(w, algo);
    case _ =>
  }

  lemma {:induction false} GoodAfter(w: World, es: seq<Event>)
    requires Good(w) && Possible(w, es)
    ensures Good(After(w, es))
  {
    hide Good, Apply, Enabled;
    if es != [] {
      GoodAfter(w, es[..|es| - 1]);
      GoodApply(After(w, es[..|es| - 1]), es[|es| - 1]);
    }
  }
}
