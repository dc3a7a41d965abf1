/** The tick engine (runtime.c): wake-ups, dispatch, execution of one instruction, preemption, kills and policy changes. Every
    method is proved to be the step of the specification that it stands for. */
module Runtime {
  import opened Rings
  import opened Proc
  import opened Sched
  import opened Accounting
  import opened TickSpec
  import opened TickFacts
  import opened TickWork
  import PrioHeap

  // ----- the concrete queues beside the lines -----

  /** The heap, if it is in use, holds the READY processes. */
  ghost predicate HeapOk(algo: Algo, heap: seq<int>, S: set<int>) {
    algo == Prio ==> multiset(heap) == multiset(S)
  }

  lemma HoldsBoth(q: Queues, ps: seq<Pcb>, S: set<int>)
    requires LinesOk(q.algo, Lines(q.rr, q.levels), ps, S) && HeapOk(q.algo, q.heap, S) && forall p :: p in S ==> 0 <= p < |ps|
    ensures HoldsSet(q, ps, S) && (q.algo == Prio ==> PrioHeap.AllSlots(q.heap, ps))
  {
    HeapSlots(q, ps, S);
  }

  lemma HoldsHeap(q: Queues, ps: seq<Pcb>, S: set<int>)
    requires HoldsSet(q, ps, S)
    ensures HeapOk(q.algo, q.heap, S)
  {
  }

  lemma ReadyMore(ps: seq<Pcb>, pid: int, c: Pcb)
    requires 0 <= pid < |ps| && ps[pid].state != Ready && c.state == Ready
    ensures ReadySet(ps[pid := c]) == ReadySet(ps) + {pid} && pid !in ReadySet(ps)
  {
  }

  lemma ReadySame(ps: seq<Pcb>, ps': seq<Pcb>)
    requires |ps'| == |ps| && forall p :: 0 <= p < |ps| ==> (ps'[p].state == Ready <==> ps[p].state == Ready)
    ensures ReadySet(ps') == ReadySet(ps)
  {
  }

  lemma ReadyLess(ps: seq<Pcb>, pid: int, c: Pcb)
    requires 0 <= pid < |ps| && ps[pid].state == Ready && c.state != Ready
    ensures ReadySet(ps[pid := c]) == ReadySet(ps) - {pid}
  {
  }

  lemma RanReady(ps: seq<Pcb>, pid: int)
    requires 0 <= pid < |ps| && ps[pid].state == Running
    ensures ReadySet(Ran(ps, pid)) == ReadySet(ps)
  {
  }

  lemma EmptyHolds(algo: Algo, ps: seq<Pcb>)
    ensures HoldsSet(NoQueues(algo), ps, {})
  {
    assert forall l: nat :: AtLevel(ps, {}, l) == {};
  }

  /** The lines and blocks of a process that is about to take its place. */
  lemma BeforeAppend(w: World, heap: seq<int>, pid: int)
    requires Sound(w) && HeapOk(w.algo, heap, ReadySet(w.ps)) && 0 <= pid < |w.ps| && w.ps[pid].state != Ready
    ensures var ps', q := MadeReady(w, pid).ps, Queues(w.algo, w.lines.line, heap, w.lines.levels);
            && HoldsSet(q, ps', ReadySet(w.ps)) && (w.algo == Prio ==> PrioHeap.AllSlots(heap, ps'))
            && ps'[pid].level < LEVELS && |ps'| <= MAX_PROCS
  {
    var ps' := MadeReady(w, pid).ps;
    BlockAt(w, pid);
    LinesSame(w.algo, w.lines, w.ps, ps', ReadySet(w.ps));
    HoldsBoth(Queues(w.algo, w.lines.line, heap, w.lines.levels), ps', ReadySet(w.ps));
  }

  lemma BeforeLaunch(w: World, heap: seq<int>, priority: int)
    requires Good(w) && HeapOk(w.algo, heap, ReadySet(w.ps)) && |w.ps| < MAX_PROCS
    ensures var ps', q := w.ps + [Fresh(priority, w.tick)], Queues(w.algo, w.lines.line, heap, w.lines.levels);
            && HoldsSet(q, ps', ReadySet(w.ps)) && (w.algo == Prio ==> PrioHeap.AllSlots(heap, ps'))
            && ReadySet(ps') == ReadySet(w.ps) + {|w.ps|} && |w.ps| !in ReadySet(w.ps)
  {
    var ps' := w.ps + [Fresh(priority, w.tick)];
    LinesSame(w.algo, w.lines, w.ps, ps', ReadySet(w.ps));
    HoldsBoth(Queues(w.algo, w.lines.line, heap, w.lines.levels), ps', ReadySet(w.ps));
    assert ReadySet(ps') == ReadySet(w.ps) + {|w.ps|};
  }

  /** A pass consumes one tick or none. */
  lemma PassTicks(w: World)
    requires Good(w)
    ensures forall e: Event :: e.Pass? && Enabled(w, e) ==> w.tick <= Apply(w, e).tick <= w.tick + 1
  {
    hide Good, Enabled, Passed;
    forall e: Event | e.Pass? && Enabled(w, e)
      ensures w.tick <= Apply(w, e).tick <= w.tick + 1
    {
      PassedWork(w, e.pick, e.answer);
    }
  }

  /** No READY process has a better priority than pid, and none of the same has been READY longer. */
  ghost predicate BestOf(ps: seq<Pcb>, pid: int)
    requires 0 <= pid < |ps|
  {
    forall x :: 0 <= x < |ps| && ps[x].state == Ready ==>
                  ps[pid].priority < ps[x].priority || (ps[pid].priority == ps[x].priority && ps[pid].lastReady <= ps[x].lastReady)
  }

  lemma ForemostIsBest(ps: seq<Pcb>, pid: int)
    requires 0 <= pid < |ps| && Foremost(ps, pid)
    ensures BestOf(ps, pid)
  {
    forall x | 0 <= x < |ps| && ps[x].state == Ready
      ensures ps[pid].priority < ps[x].priority || (ps[pid].priority == ps[x].priority && ps[pid].lastReady <= ps[x].lastReady)
    {
      assert !PrioHeap.Less(ps, x, pid);
    }
  }

  lemma HeapForemost(heap: seq<int>, ps: seq<Pcb>, pid: int)
    requires multiset(heap) == multiset(ReadySet(ps)) && PrioHeap.AllSlots(heap, ps) && PrioHeap.Ordered(heap, ps)
    requires heap != [] && heap[0] == pid
    ensures Foremost(ps, pid) && BestOf(ps, pid)
  {
    SetList(heap, ReadySet(ps));
    forall x | 0 <= x < |ps| && ps[x].state == Ready
      ensures !PrioHeap.Less(ps, x, pid)
    {
      assert x in heap;
      var i :| 0 <= i < |heap| && heap[i] == x;
      PrioHeap.RootIsLeast(heap, ps, i);
    }
  }

  /** Scanning the heap for a better process is asking whether a READY one comes first. */
  lemma HeapIsReady(heap: seq<int>, ps: seq<Pcb>, pid: int)
    requires multiset(heap) == multiset(ReadySet(ps)) && 0 <= pid < |ps|
    ensures PrioHeap.AllSlots(heap, ps)
    ensures (exists i :: 0 <= i < |heap| && PrioHeap.Less(ps, heap[i], pid))
            <==> exists x :: 0 <= x < |ps| && ps[x].state == Ready && PrioHeap.Less(ps, x, pid)
  {
    SetList(heap, ReadySet(ps));
    forall i | 0 <= i < |heap|
      ensures 0 <= heap[i] < |ps|
    {
      var x := heap[i];
      assert x in heap;
    }
    if i :| 0 <= i < |heap| && PrioHeap.Less(ps, heap[i], pid) {
      var x := heap[i];
      assert x in heap;
      assert ps[x].state == Ready;
    }
    if x :| 0 <= x < |ps| && ps[x].state == Ready && PrioHeap.Less(ps, x, pid) {
      assert x in heap;
    }
  }

  lemma PickedHeap(q: Queues, ps: seq<Pcb>, pid: int, q': Queues)
    requires HoldsSet(q, ps, ReadySet(ps)) && Picked(q, ps, pid, q')
    requires q.algo == Prio ==> PrioHeap.AllSlots(q.heap, ps) && PrioHeap.Ordered(q.heap, ps)
    ensures 0 <= pid < |ps| && ps[pid].state == Ready && (q.algo == Prio ==> Foremost(ps, pid))
    ensures HeapOk(q.algo, q'.heap, ReadySet(ps) - {pid})
  {
    PickedHolds(q, ps, ReadySet(ps), pid, q');
    if q.algo == Prio {
      HeapForemost(q.heap, ps, pid);
    }
  }

  class Runtime {
    const sched: Scheduler
    const table: ProcTable
    var tick: nat
    var needResched: bool
    var current: int
    var busy: nat
    var idle: nat
    var completed: nat
    var slots: seq<Slot>
    /** Number of answers taken from the environment so far. */
    var calls: nat
    /** Ticks each process has spent BLOCKED. */
    ghost var blocked: seq<nat>

    /** The state of the specification that this one is. */
    ghost function Shown(): World
      requires sched.Valid()
      reads this, sched, table
    {
      World(table.procs, slots, blocked, sched.algo, sched.quantum, sched.consumed, sched.current, sched.InLine(),
            current, tick, busy, idle, completed, needResched, calls)
    }

    /** Everything but the agreement about which process is running. */
    ghost predicate Core()
      reads this, sched, table
    {
      && sched.Valid() && sched.lastBoost == 0
      && HeapOk(sched.algo, sched.heap, ReadySet(table.procs))
      && Sound(Shown())
    }

    ghost predicate Valid()
      reads this, sched, table
    {
      Core() && CurrentOk(table.procs, current)
    }

    constructor ()
      ensures Valid() && Shown() == Begin()
      ensures fresh(sched) && fresh(table)
    {
      hide Sound, CurrentOk, ReadySet;
      sched := new Scheduler(RoundRobin, 10);
      table := new ProcTable();
      tick, busy, idle, completed, calls := 0, 0, 0, 0, 0;
      needResched := false;
      current := -1;
      slots, blocked := [], [];
      new;
      BeginGood();
    }

    /** enqueue_ready: a process that ran or was blocked becomes READY and joins the queue. */
    method EnqueueReady(pid: int)
      requires Core() && 0 <= pid < |table.procs| && table.procs[pid].state in {Running, Blocked}
      requires table.procs[pid].wakeup == 0
      modifies table, sched`rr, sched`heap, sched`mlfq
      ensures Core() && Shown() == MadeReady(old(Shown()), pid)
    {
      hide Sound, HoldsSet, Added, ReadySet, ProcRing, Appended, Contents, AllContents;
      ghost var w := Shown();
      BeforeAppend(w, sched.heap, pid);
      SoundReady(w, pid);
      ReadyMore(w.ps, pid, Moved(w.ps[pid], Ready, tick));
      var ok := table.SetState(pid, Ready, tick);
      sched.Enqueue(table.procs, pid, ReadySet(w.ps));
      HoldsHeap(sched.Lists(), table.procs, ReadySet(table.procs));
    }

    /** wake_pid: only a BLOCKED process is woken. */
    method WakePid(pid: int)
      requires Core() && Legal(Done(pid), table.procs)
      modifies table, sched`rr, sched`heap, sched`mlfq
      ensures Core() && Shown() == Called(old(Shown()), pid)
    {
      hide Sound, ReadySet, ProcRing, MadeReady, HeapOk;
      if 0 <= pid < |table.procs| && table.procs[pid].state == Blocked {
        EnqueueReady(pid);
      }
    }

    /** wake_blocked_by_time for one process. */
    method WakeOne(pid: int)
      requires Core() && 0 <= pid < |table.procs|
      modifies table, sched`rr, sched`heap, sched`mlfq
      ensures Core() && Shown() == WokenOne(old(Shown()), pid)
    {
      hide Sound, ReadySet, ProcRing, MadeReady;
      var c := table.procs[pid];
      if c.state == Blocked && 0 < c.wakeup && c.wakeup <= tick {
        ClearedOk(Shown(), pid);
        ReadySame(table.procs, table.procs[pid := c.(wakeup := 0)]);
        table.procs := table.procs[pid := c.(wakeup := 0)];
        WakePid(pid);
      }
    }

    /** Wakes every process whose time has come. */
    method WakeDue()
      requires Valid()
      modifies table, sched`rr, sched`heap, sched`mlfq
      ensures Valid() && Shown() == Woken(old(Shown()))
    {
      hide Sound, ReadySet, ProcRing, WokenOne, HeapOk, CurrentOk;
      ghost var w := Shown();
      var p := 0;
      while p < |table.procs|
        invariant 0 <= p <= |table.procs| == |w.ps|
        invariant Core() && Shown() == WokenUpTo(w, p)
      {
        WakeOne(p);
        p := p + 1;
      }
      GoodWokenUpTo(w, |w.ps|);
    }

    /** sched_age_ready under the priority policy. */
    method Age()
      modifies table
      ensures table.procs == AllAged(old(table.procs), tick)
    {
      hide AgedOne;
      var p := 0;
      while p < |table.procs|
        invariant 0 <= p <= |table.procs| == |old(table.procs)|
        invariant forall i :: 0 <= i < |table.procs| ==>
                                table.procs[i] == if i < p then AgedOne(old(table.procs)[i], tick, AGING_INTERVAL) else old(table.procs)[i]
      {
        table.procs := table.procs[p := AgedOne(table.procs[p], tick, AGING_INTERVAL)];
        p := p + 1;
      }
    }

    /** sched_priority_boost: every live process goes to the top level. */
    method Boost()
      modifies table
      ensures table.procs == AllBoosted(old(table.procs))
    {
      var p := 0;
      while p < |table.procs|
        invariant 0 <= p <= |table.procs| == |old(table.procs)|
        invariant forall i :: 0 <= i < |table.procs| ==>
                                table.procs[i] == if i < p then Boosted(old(table.procs)[i]) else old(table.procs)[i]
      {
        table.procs := table.procs[p := Boosted(table.procs[p])];
        p := p + 1;
      }
    }

    /** The queues hold the READY ones of the first p processes, in slot order. */
    ghost predicate RebuiltUpTo(p: nat)
      reads table, sched
    {
      && sched.Valid() && sched.lastBoost == 0 && p <= |table.procs|
      && HoldsSet(sched.Lists(), table.procs, FirstReady(table.procs, p))
      && sched.InLine() == LinedUpTo(sched.algo, table.procs, p)
      && (sched.algo == Prio ==> PrioHeap.AllSlots(sched.heap, table.procs) && PrioHeap.Ordered(sched.heap, table.procs))
    }

    /** rebuild_one_ready: process p joins the queues if it is READY. */
    method RebuildOne(p: nat)
      requires BlocksOk(table.procs, slots) && p < |table.procs| && RebuiltUpTo(p)
      modifies sched
      ensures RebuiltUpTo(p + 1) && sched.algo == old(sched.algo) && sched.quantum == old(sched.quantum)
    {
      hide HoldsSet, Added, AtLevel, RingOk, Appended, Contents, AllContents;
      FirstReadyNext(table.procs, p);
      assert BlockOk(table.procs[p]);
      if table.procs[p].state == Ready {
        sched.Enqueue(table.procs, p, FirstReady(table.procs, p));
      }
    }

    /** rebuild_ready_queues: empties the queues and enqueues the READY processes again, in slot order. The boost
        clock goes back to 0 with the rest of the scheduler. */
    method Rebuild()
      requires sched.Valid() && BlocksOk(table.procs, slots)
      modifies sched
      ensures sched.Valid() && sched.lastBoost == 0 && HeapOk(sched.algo, sched.heap, ReadySet(table.procs))
      ensures sched.algo == old(sched.algo) && sched.quantum == old(sched.quantum)
      ensures sched.current == old(sched.current) && sched.consumed == old(sched.consumed)
      ensures sched.InLine() == LinedUpTo(sched.algo, table.procs, |table.procs|)
      ensures sched.algo == Prio ==> PrioHeap.AllSlots(sched.heap, table.procs) && PrioHeap.Ordered(sched.heap, table.procs)
    {
      hide HoldsSet, ReadySet, AtLevel, RingOk, Contents, AllContents, LinesOk;
      var current, consumed := sched.current, sched.consumed;
      sched.Reset(sched.algo);
      NothingLined(sched.algo, table.procs);
      EmptyHolds(sched.algo, table.procs);
      var p := 0;
      while p < |table.procs|
        invariant 0 <= p <= |table.procs| && RebuiltUpTo(p)
        invariant sched.algo == old(sched.algo) && sched.quantum == old(sched.quantum)
      {
        RebuildOne(p);
        p := p + 1;
      }
      FirstReadyAll(table.procs);
      HoldsHeap(sched.Lists(), table.procs, FirstReady(table.procs, p));
      sched.current, sched.consumed := current, consumed;
    }

    /** The part of a pass before dispatch that looks after priorities and levels. */
    method Refresh()
      requires Valid()
      modifies table, sched
      ensures Valid() && Shown() == Refreshed(old(Shown()))
      ensures sched.algo == Prio ==> PrioHeap.AllSlots(sched.heap, table.procs) && PrioHeap.Ordered(sched.heap, table.procs)
    {
      hide LinesOk, TimesOk, ReadySet, ProcRing, AgedOne, Boosted, LinedUpTo, BlocksOk, CurrentOk;
      ghost var w := Shown();
      GoodRefreshed(w);
      if sched.algo == Prio {
        Age();
        assert BlocksOk(table.procs, slots);
        Rebuild();
      }
      if sched.algo == Mlfq && BOOST_INTERVAL <= tick - sched.lastBoost {
        Boost();
        assert BlocksOk(table.procs, slots);
        sched.lastBoost := tick;
        Rebuild();
      }
    }

    /** The part of dispatch for when nobody runs: the policy's choice does, if anybody is READY. */
    method RunNext() returns (pid: int)
      requires Valid() && current == -1
      requires sched.algo == Prio ==> PrioHeap.AllSlots(sched.heap, table.procs) && PrioHeap.Ordered(sched.heap, table.procs)
      modifies `current, table, sched`rr, sched`heap, sched`mlfq, sched`current, sched`consumed
      ensures Valid()
      ensures pid < 0 <==> ReadySet(old(table.procs)) == {}
      ensures pid < 0 ==> Shown() == old(Shown()).(known := -1, consumed := 0)
      ensures 0 <= pid ==> MayRun(old(Shown()), pid) && Shown() == Chosen(old(Shown()), pid) && current == pid
      ensures 0 <= pid && sched.algo == Prio ==> pid < |old(table.procs)| && BestOf(old(table.procs), pid)
    {
      hide LinesOk, TimesOk, BlocksOk, HoldsSet, ProcRing, AtHead, Popped, Contents, AllContents, Foremost, Picked;
      ghost var w, q := Shown(), sched.Lists();
      HoldsBoth(q, w.ps, ReadySet(w.ps));
      pid := sched.PickNext(table.procs);
      if pid < 0 {
        HoldsHeap(sched.Lists(), w.ps, ReadySet(w.ps));
      } else {
        PickedHeap(q, w.ps, pid, sched.Lists());
        if sched.algo == Prio {
          ForemostIsBest(w.ps, pid);
        }
        GoodChosen(w, pid);
        ReadyLess(w.ps, pid, Moved(w.ps[pid], Running, tick));
        var ok := table.SetState(pid, Running, tick);
        current := pid;
      }
    }

    method ExitCurrent(code: int)
      requires Valid() && 0 <= current
      modifies `current, `completed, table
      ensures Executing(old(Shown())) && Valid() && Shown() == Ended(old(Shown()), code)
    {
      hide LinesOk, TimesOk, BlocksOk, ReadySet, ProcRing;
      ghost var w := Shown();
      GoodEnded(w, code);
      GoodExecuting(w);
      var pid := current;
      var ok := table.MarkExited(pid, code, tick);
      ReadySame(w.ps, table.procs);
      if ok {
        completed := completed + 1;
      }
      current := -1;
    }

    /** block_current, after setting the time to wake up at; 0 means that another process does the waking. */
    method BlockCurrent(wakeup: nat)
      requires Valid() && 0 <= current
      modifies `current, table
      ensures Executing(old(Shown())) && Valid() && Shown() == Asleep(old(Shown()), wakeup)
    {
      hide LinesOk, TimesOk, BlocksOk, ReadySet, ProcRing;
      ghost var w := Shown();
      GoodAsleep(w, wakeup);
      GoodExecuting(w);
      var pid := current;
      table.procs := table.procs[pid := table.procs[pid].(wakeup := wakeup)];
      var ok := table.SetState(pid, Blocked, tick);
      assert table.procs == Asleep(w, wakeup).ps;
      ReadySame(w.ps, table.procs);
      current := -1;
    }

    /** The running process goes back to the queue, under MLFQ one level down. */
    method GiveWay()
      requires Valid() && 0 <= current
      modifies `current, `needResched, table, sched`rr, sched`heap, sched`mlfq
      ensures Valid() && Shown() == Gave(old(Shown()))
    {
      hide LinesOk, TimesOk, BlocksOk, ReadySet, ProcRing, Appended;
      ghost var w := Shown();
      GoodGave(w);
      GoodExecuting(w);
      SoundDemoted(w);
      var pid := current;
      if sched.algo == Mlfq && table.procs[pid].level + 1 < LEVELS {
        table.procs := table.procs[pid := table.procs[pid].(level := table.procs[pid].level + 1)];
      }
      assert table.procs == w.ps[pid := Demoted(w.ps[pid], w.algo)];
      ReadySame(w.ps, table.procs);
      needResched := false;
      EnqueueReady(pid);
      current := -1;
    }

    /** maybe_preempt: the running process gives way exactly if asked to, if the timer rang, or if its policy says so. */
    method MaybePreempt(timer: bool)
      requires Valid() && 0 <= current
      modifies `current, `needResched, table, sched`rr, sched`heap, sched`mlfq
      ensures 0 <= old(current) < |old(table.procs)| && Valid() && Shown() == Preempted(old(Shown()), timer)
    {
      hide Sound, ProcRing, Gave;
      ghost var w := Shown();
      if sched.algo == Prio {
        HeapIsReady(sched.heap, table.procs, current);
      }
      var must := sched.ShouldPreempt(table.procs, current);
      assert must <==> GivesWay(w);
      if needResched || timer || must {
        GiveWay();
      }
    }

    /** account_ready_wait over all processes. */
    method AccountReadyWait()
      modifies table
      ensures table.procs == AllWaited(old(table.procs))
    {
      var p := 0;
      while p < |table.procs|
        invariant 0 <= p <= |table.procs| == |old(table.procs)|
        invariant forall i :: 0 <= i < |table.procs| ==>
                                table.procs[i] == if i < p then Waited(old(table.procs)[i]) else old(table.procs)[i]
      {
        if table.procs[p].state == Ready {
          table.procs := table.procs[p := table.procs[p].(wait := table.procs[p].wait + 1)];
        }
        p := p + 1;
      }
    }

    /** A tick in which nothing could be dispatched. */
    method IdleOneTick()
      requires Valid() && current == -1 && sched.current == -1 && sched.consumed == 0
      modifies `tick, `idle, `blocked, table
      ensures |old(blocked)| == |old(table.procs)| && Valid() && Shown() == Idled(old(Shown()))
    {
      hide LinesOk, TimesOk, BlocksOk, ReadySet, ProcRing;
      ghost var w := Shown();
      GoodIdled(w);
      SameReady(w.ps);
      AccountReadyWait();
      blocked := MoreBlocked(w.ps, blocked);
      idle := idle + 1;
      tick := tick + 1;
    }

    /** The running process's burst begins, if it has not, and gets one tick shorter. */
    method ShortenBurst()
      requires 0 <= current < |slots| && Next(slots[current]).Burst?
      modifies `slots
      ensures slots == old(slots)[current := TickedSlot(Begun(old(slots)[current]))]
    {
      var s := slots[current];
      if s.remaining == 0 {
        s := s.(remaining := s.insns[s.pc].ticks);
      }
      s := s.(remaining := s.remaining - 1);
      if s.remaining == 0 {
        s := s.(pc := s.pc + 1);
      }
      slots := slots[current := s];
    }

    /** The WORKLOAD_CPU case up to preemption: the running process uses one tick. */
    method UseTick()
      requires Valid() && 0 <= current < |slots| && Next(slots[current]).Burst?
      modifies `tick, `busy, `blocked, `slots, table, sched`consumed
      ensures Executing(old(Shown())) && Valid() && Shown() == Ticked(old(Shown()))
    {
      hide LinesOk, TimesOk, BlocksOk, ReadySet, ProcRing, TickedSlot, Begun, Next;
      ghost var w := Shown();
      GoodExecuting(w);
      GoodTicked(w);
      RanReady(w.ps, current);
      var pid := current;
      AccountReadyWait();
      assert table.procs[pid] == w.ps[pid];
      table.procs := table.procs[pid := table.procs[pid].(cpu := table.procs[pid].cpu + 1)];
      busy := busy + 1;
      ShortenBurst();
      blocked := MoreBlocked(w.ps, blocked);
      tick := tick + 1;
      sched.OnTick(pid);
      assert Shown() == Ticked(w);
    }

    /** complete_immediate: the running process moves on to its next instruction. */
    method Complete()
      requires Valid() && 0 <= current
      modifies `slots
      ensures Executing(old(Shown())) && Valid() && Shown() == Completed(old(Shown()))
    {
      hide LinesOk, TimesOk, BlocksOk, ReadySet, ProcRing;
      ghost var w := Shown();
      GoodCompleted(w);
      GoodExecuting(w);
      var s := slots[current];
      slots := slots[current := s.(pc := s.pc + 1, remaining := 0)];
    }

    /** An instruction whose outcome the environment decides. */
    method ExecuteCall(o: Outcome)
      requires Valid() && 0 <= current && Legal(o, table.procs)
      modifies `current, `completed, `slots, table, sched`rr, sched`heap, sched`mlfq
      ensures Executing(old(Shown())) && Valid() && Shown() == Responded(old(Shown()), o)
    {
      hide Sound, HeapOk, ProcRing, Ended, Asleep, Completed, Called;
      ghost var w := Shown();
      GoodExecuting(w);
      match o {
        case Fails(code) =>
          ExitCurrent(code);
        case Blocks =>
          BlockCurrent(0);
        case Sleeps =>
          BlockCurrent(tick + FAULT_LATENCY);
        case Done(wake) =>
          GoodCalled(w, wake);
          CalledRuns(w, wake);
          WakePid(wake);
          Complete();
      }
    }

    /** execute_instruction for the running process. A live process always has its slot. */
    method Execute(a: Answer)
      requires Valid() && 0 <= current && Legal(a.outcome, table.procs)
      modifies `tick, `busy, `blocked, `slots, `current, `completed, `needResched
      modifies table, sched`consumed, sched`rr, sched`heap, sched`mlfq
      ensures Executing(old(Shown())) && Valid() && Shown() == Executed(old(Shown()), a)
    {
      hide Sound, HeapOk, ProcRing, Ended, Asleep, Responded, Preempted, Ticked;
      ghost var w := Shown();
      GoodExecuting(w);
      var s := slots[current];
      if |s.insns| <= s.pc {
        ExitCurrent(0);
        return;
      }
      match s.insns[s.pc] {
        case Cpu(n) =>
          if s.remaining == 0 && n == 0 {
            ExitCurrent(1);
            return;
          }
          UseTick();
          MaybePreempt(a.timer);
        case Io(n) =>
          CompletedSame(w);
          Complete();
          BlockCurrent(tick + n);
        case Call =>
          ExecuteCall(a.outcome);
        case Exit =>
          ExitCurrent(0);
      }
    }

    /** Everything in a pass up to and including dispatch; pick is the process chosen if nobody ran. */
    method Select() returns (ok: bool, ghost pick: int)
      requires Valid()
      modifies `current, table, sched
      ensures Valid()
      ensures ok <==> !Nobody(Prepared(old(Shown())))
      ensures ok ==> 0 <= current && Shown() == Dispatched(old(Shown()), pick)
      ensures ok && Prepared(old(Shown())).current < 0 ==> MayRun(Prepared(old(Shown())), pick)
      ensures !ok ==> current == -1 && Shown() == Prepared(old(Shown())).(known := -1, consumed := 0)
    {
      hide Sound, HeapOk, ProcRing, Woken, Refreshed, ReadySet, MayRun, Chosen;
      pick := -1;
      WakeDue();
      Refresh();
      if 0 <= current {
        return true, pick;
      }
      var pid := RunNext();
      ok := 0 <= pid;
      pick := pid;
      if ok {
        MayRunReady(Prepared(old(Shown())), pid);
      }
    }

    /** One pass of the loop in runtime_step, as an event of the specification. */
    method Pass(env: (nat, seq<Pcb>) -> Answer) returns (used: bool, ghost e: Event)
      requires Valid() && forall k, ps :: Legal(env(k, ps).outcome, ps)
      modifies this, table, sched
      ensures Valid() && e.Pass? && Enabled(old(Shown()), e) && Shown() == Apply(old(Shown()), e)
      ensures used <==> tick == old(tick) + 1
      ensures AnsweredBy(env, old(Shown()), e)
    {
      hide Sound, HeapOk, ProcRing, Prepared, Executed, MayRun, Nobody;
      ghost var w := Shown();
      ghost var pick;
      var ok;
      ok, pick := Select();
      SizeOk(Shown());
      var before := tick;
      if ok {
        var a := env(calls, table.procs);
        CountedGood(Shown());
        calls := calls + 1;
        e := Event.Pass(pick, a);
        Execute(a);
      } else {
        e := Event.Pass(-1, Answer(Blocks, false));
        IdleOneTick();
      }
      used := tick != before;
      PassedWork(w, e.pick, e.answer);
    }

    /** The inner loop of runtime_step: passes until one consumes a tick, but at most 1024. */
    method StepOne(env: (nat, seq<Pcb>) -> Answer) returns (consumed: bool, ghost es: seq<Event>)
      requires Valid() && forall k, ps :: Legal(env(k, ps).outcome, ps)
      modifies this, table, sched
      ensures Valid() && Possible(old(Shown()), es) && Shown() == After(old(Shown()), es)
      ensures Round(env, old(Shown()), es)
      ensures consumed <==> tick == old(tick) + 1
    {
      hide Sound, CurrentOk, HeapOk, ProcRing, Apply, Enabled, AnsweredBy, After, Possible;
      ghost var w := Shown();
      es, consumed := [], false;
      Nothing(w);
      var guard := 0;
      while !consumed && guard < MAX_GUARD
        invariant 0 <= guard <= MAX_GUARD && |es| == guard && (consumed ==> 0 < guard)
        invariant Valid() && Possible(w, es) && Shown() == After(w, es)
        invariant tick == if consumed then w.tick + 1 else w.tick
        invariant forall k :: 0 <= k < |es| ==> es[k].Pass? && AnsweredBy(env, After(w, es[..k]), es[k])
        invariant forall k :: 0 <= k < |es| ==> After(w, es[..k]).tick == w.tick
        decreases !consumed, MAX_GUARD - guard
      {
        guard := guard + 1;
        ghost var e;
        PassTicks(Shown());
        consumed, e := Pass(env);
        OneMore(w, es, e);
        assert forall k :: 0 <= k < |es| ==> (es + [e])[..k] == es[..k];
        assert (es + [e])[..|es|] == es;
        es := es + [e];
      }
    }

    /** runtime_step: n rounds of passes. */
    method Step(n: nat, env: (nat, seq<Pcb>) -> Answer) returns (ghost es: seq<Event>)
      requires Valid() && forall k, ps :: Legal(env(k, ps).outcome, ps)
      modifies this, table, sched
      ensures Valid() && Possible(old(Shown()), es) && Shown() == After(old(Shown()), es)
      ensures Rounds(env, old(Shown()), n, es)
    {
      hide Sound, CurrentOk, HeapOk, ProcRing, Apply, Enabled, AnsweredBy, After, Possible, Round;
      ghost var w := Shown();
      es := [];
      Nothing(w);
      var i := 0;
      while i < n
        invariant 0 <= i <= n
        invariant Valid() && Possible(w, es) && Shown() == After(w, es) && Rounds(env, w, i, es)
      {
        ghost var fs;
        var consumed;
        consumed, fs := StepOne(env);
        RoundsGrow(env, w, i, es, fs);
        GoOn(w, es, fs);
        es := es + fs;
        i := i + 1;
      }
    }

    /** runtime_run_workload, after the workload is read: a process with the next free slot, READY at once. */
    method RunWorkload(insns: seq<Insn>, priority: int) returns (pid: int)
      requires Valid()
      modifies `blocked, `slots, table, sched`rr, sched`heap, sched`mlfq
      ensures Valid() && Shown() == Launched(old(Shown()), insns, priority)
      ensures pid == if MAX_PROCS <= |old(table.procs)| then -1 else |old(table.procs)|
    {
      hide LinesOk, TimesOk, BlocksOk, CurrentOk, HoldsSet, Added, ReadySet, ProcRing, Appended, Contents, AllContents;
      ghost var w := Shown();
      GoodLaunched(w, insns, priority);
      pid := table.Create(priority, tick);
      if pid < 0 {
        return;
      }
      BeforeLaunch(w, sched.heap, priority);
      slots, blocked := slots + [Slot(true, insns, 0, 0)], blocked + [0];
      var ok := table.SetState(pid, Ready, tick);
      assert table.procs == w.ps + [Fresh(priority, tick)];
      sched.Enqueue(table.procs, pid, ReadySet(w.ps));
      HoldsHeap(sched.Lists(), table.procs, ReadySet(table.procs));
    }

    /** runtime_kill. */
    method Kill(pid: int) returns (ok: bool)
      requires Valid()
      modifies `current, `slots, table, sched
      ensures Valid() && Shown() == Killed(old(Shown()), pid) && (ok <==> Live(old(Shown()), pid))
    {
      hide LinesOk, TimesOk, ReadySet, ProcRing, LinedUpTo, Contents, AllContents;
      ghost var w := Shown();
      GoodKilled(w, pid);
      if pid < 0 || |table.procs| <= pid {
        return false;
      }
      if current == pid {
        current := -1;
      }
      ok := table.MarkExited(pid, 130, tick);
      if !ok {
        return;
      }
      slots := slots[pid := Slot(false, [], 0, 0)];
      assert BlocksOk(table.procs, slots);
      Rebuild();
    }

    /** runtime_set_scheduler. */
    method SetScheduler(algo: Algo)
      requires Valid()
      modifies sched
      ensures Valid() && Shown() == WithPolicy(old(Shown()), algo)
    {
      hide LinesOk, TimesOk, BlocksOk, CurrentOk, ReadySet, ProcRing, LinedUpTo, Contents, AllContents;
      GoodWithPolicy(Shown(), algo);
      sched.Reset(algo);
      Rebuild();
    }

    /** runtime_set_quantum. */
    method SetQuantum(ticks: nat)
      requires Valid()
      modifies sched`quantum
      ensures Valid() && Shown() == old(Shown()).(quantum := AtLeastOne(ticks)) && sched.quantum == if ticks == 0 then 1 else ticks
    {
      sched.quantum := if ticks == 0 then 1 else ticks;
    }

    /** runtime_yield. */
    method Yield()
      requires Valid()
      modifies `needResched
      ensures Valid() && Shown() == old(Shown()).(needResched := true)
    {
      needResched := true;
    }
  }
}
