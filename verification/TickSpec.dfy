/** What the runtime is meant to be: the whole state as one value, and every pass of the loop and every request as a function
    of it. Open are only the answers of the environment and, under the priority policy, the choice between equals. */
module TickSpec {
  import opened Proc
  import opened Sched
  import opened Accounting
  import PrioHeap

  const BOOST_INTERVAL: nat := 50
  const MAX_GUARD: nat := 1024
  const FAULT_LATENCY: nat := 5

  /** What an instruction other than CPU, IO and EXIT came to: done, waking a process if wake is one; blocked until
      another process wakes this one; asleep for a page fault; or failed. */
  datatype Outcome = Done(wake: int) | Blocks | Sleeps | Fails(code: int)

  /** The environment's part in a pass: the outcome of a call, and whether the timer asked for a reschedule. */
  datatype Answer = Answer(outcome: Outcome, timer: bool)

  /** A call wakes only a process that waits for such a call, never one asleep until a set time. */
  ghost predicate Legal(o: Outcome, ps: seq<Pcb>) {
    o.Done? && 0 <= o.wake < |ps| && ps[o.wake].state == Blocked ==> ps[o.wake].wakeup == 0
  }

  datatype World = World(
    ps: seq<Pcb>, ss: seq<Slot>,
    /** Ticks each process has spent BLOCKED. */
    blocked: seq<nat>,
    algo: Algo, quantum: nat,
    /** Ticks charged to the process that the scheduler knows as running. */
    consumed: nat, known: int,
    lines: Lines,
    current: int, tick: nat, busy: nat, idle: nat, completed: nat, needResched: bool,
    /** Number of answers taken from the environment. */
    calls: nat)

  ghost function Begin(): World {
    World([], [], [], RoundRobin, 10, 0, -1, NoLines(), -1, 0, 0, 0, 0, false, 0)
  }

  // ----- becoming READY -----

  /** pid becomes READY at this tick and takes its place. */
  ghost function MadeReady(w: World, pid: int): (r: World)
    requires 0 <= pid < |w.ps|
    ensures |r.ps| == |w.ps|
  {
    var ps := w.ps[pid := Moved(w.ps[pid], Ready, w.tick)];
    w.(ps := ps, lines := Appended(w.algo, w.lines, ps[pid].level, pid))
  }

  ghost function WokenOne(w: World, pid: int): (r: World)
    requires 0 <= pid < |w.ps|
    ensures |r.ps| == |w.ps|
  {
    if Due(w.ps[pid], w.tick) then MadeReady(w.(ps := w.ps[pid := w.ps[pid].(wakeup := 0)]), pid) else w
  }

  /** Those of the first n processes whose time has come wake, in slot order. */
  ghost function WokenUpTo(w: World, n: nat): (r: World)
    requires n <= |w.ps|
    ensures |r.ps| == |w.ps|
  {
    if n == 0 then w else WokenOne(WokenUpTo(w, n - 1), n - 1)
  }

  ghost function Woken(w: World): (r: World)
    ensures |r.ps| == |w.ps|
  {
    WokenUpTo(w, |w.ps|)
  }

  /** A call's wake-up: only a BLOCKED process is woken. */
  ghost function Called(w: World, pid: int): (r: World)
    ensures |r.ps| == |w.ps|
  {
    if 0 <= pid < |w.ps| && w.ps[pid].state == Blocked then MadeReady(w, pid) else w
  }

  // ----- queues rebuilt -----

  /** The READY ones of the first n processes, lined up in slot order. */
  ghost function LinedUpTo(algo: Algo, ps: seq<Pcb>, n: nat): Lines
    requires n <= |ps|
  {
    if n == 0 then NoLines()
    else if ps[n - 1].state == Ready then Appended(algo, LinedUpTo(algo, ps, n - 1), ps[n - 1].level, n - 1)
    else LinedUpTo(algo, ps, n - 1)
  }

  /** The queues emptied, and the READY processes put back in slot order. */
  ghost function Relined(w: World): World {
    w.(lines := LinedUpTo(w.algo, w.ps, |w.ps|))
  }

  function Boosted(c: Pcb): Pcb {
    if c.state != Exited then c.(level := 0) else c
  }

  ghost function AllAged(ps: seq<Pcb>, tick: nat): (r: seq<Pcb>)
    ensures |r| == |ps| && forall p :: 0 <= p < |ps| ==> r[p] == AgedOne(ps[p], tick, AGING_INTERVAL)
  {
    seq(|ps|, p requires 0 <= p < |ps| => AgedOne(ps[p], tick, AGING_INTERVAL))
  }

  ghost function AllBoosted(ps: seq<Pcb>): (r: seq<Pcb>)
    ensures |r| == |ps| && forall p :: 0 <= p < |ps| ==> r[p] == Boosted(ps[p])
  {
    seq(|ps|, p requires 0 <= p < |ps| => Boosted(ps[p]))
  }

  /** Before dispatch: under the priority policy everybody READY ages and the heap is built anew; under MLFQ everybody
      goes to the top level on every pass from tick 50 on, because rebuilding sets the boost clock back to 0. */
  ghost function Refreshed(w: World): (r: World)
    ensures |r.ps| == |w.ps|
  {
    match w.algo
    case Prio => Relined(w.(ps := AllAged(w.ps, w.tick)))
    case Mlfq => if BOOST_INTERVAL <= w.tick then Relined(w.(ps := AllBoosted(w.ps))) else w
    case _ => w
  }

  // ----- dispatch -----

  /** Of the READY processes none comes before pid, in priority, then in time of becoming READY. */
  ghost predicate Foremost(ps: seq<Pcb>, pid: int)
    requires 0 <= pid < |ps|
  {
    forall x :: 0 <= x < |ps| && ps[x].state == Ready ==> !PrioHeap.Less(ps, x, pid)
  }

  /** pid is the one to run: first in line, or foremost under the priority policy. */
  ghost predicate MayRun(w: World, pid: int) {
    && 0 <= pid < |w.ps| && w.ps[pid].state == Ready
    && AtHead(w.algo, w.lines, pid)
    && (w.algo == Prio ==> Foremost(w.ps, pid))
  }

  ghost function Chosen(w: World, pid: int): (r: World)
    requires 0 <= pid < |w.ps|
    ensures |r.ps| == |w.ps|
  {
    w.(ps := w.ps[pid := Moved(w.ps[pid], Running, w.tick)], lines := Popped(w.algo, w.lines),
       current := pid, known := pid, consumed := 0)
  }

  /** A tick in which nobody could run. */
  ghost function Idled(w: World): World
    requires |w.blocked| == |w.ps|
  {
    w.(ps := AllWaited(w.ps), blocked := MoreBlocked(w.ps, w.blocked), tick := w.tick + 1, idle := w.idle + 1,
       known := -1, consumed := 0)
  }

  // ----- execution -----

  /** What the running process's next instruction asks for. */
  datatype Action = Ends(code: int) | Burst | Sleep(ticks: nat) | Calls

  function Next(s: Slot): Action {
    if |s.insns| <= s.pc then Ends(0)
    else
      match s.insns[s.pc]
      case Cpu(n) => if s.remaining == 0 && n == 0 then Ends(1) else Burst
      case Io(n) => Sleep(n)
      case Call => Calls
      case Exit => Ends(0)
  }

  ghost function Advanced(s: Slot): Slot {
    s.(pc := s.pc + 1, remaining := 0)
  }

  /** The slot with its burst begun, if it was not. */
  ghost function Begun(s: Slot): (r: Slot)
    requires Next(s).Burst?
    ensures 0 < r.remaining
  {
    if s.remaining == 0 then s.(remaining := s.insns[s.pc].ticks) else s
  }

  /** A slot after one tick of its burst. */
  ghost function TickedSlot(s: Slot): Slot
    requires 0 < s.remaining
  {
    if s.remaining == 1 then s.(remaining := 0, pc := s.pc + 1) else s.(remaining := s.remaining - 1)
  }

  /** Somebody runs and has a slot. */
  ghost predicate Executing(w: World) {
    0 <= w.current < |w.ps| == |w.ss| == |w.blocked|
  }

  ghost function Ended(w: World, code: int): (r: World)
    requires Executing(w)
    ensures |r.ps| == |w.ps|
  {
    w.(ps := w.ps[w.current := Dead(w.ps[w.current], code, w.tick)], current := -1, completed := w.completed + 1)
  }

  /** The running process is BLOCKED until the given tick, or, if that is 0, until another process wakes it. */
  ghost function Asleep(w: World, wakeup: nat): (r: World)
    requires Executing(w)
    ensures |r.ps| == |w.ps|
  {
    w.(ps := w.ps[w.current := Moved(w.ps[w.current].(wakeup := wakeup), Blocked, w.tick)], current := -1)
  }

  /** The running process goes on to its next instruction. */
  ghost function Completed(w: World): World
    requires Executing(w)
  {
    w.(ss := w.ss[w.current := Advanced(w.ss[w.current])])
  }

  ghost function Ran(ps: seq<Pcb>, pid: int): (r: seq<Pcb>)
    requires 0 <= pid < |ps|
    ensures |r| == |ps|
  {
    AllWaited(ps)[pid := ps[pid].(cpu := ps[pid].cpu + 1)]
  }

  /** One tick of the running process's burst. */
  ghost function Ticked(w: World): (r: World)
    requires Executing(w) && Next(w.ss[w.current]).Burst?
    ensures |r.ps| == |w.ps|
  {
    w.(ps := Ran(w.ps, w.current), blocked := MoreBlocked(w.ps, w.blocked), tick := w.tick + 1, busy := w.busy + 1,
       ss := w.ss[w.current := TickedSlot(Begun(w.ss[w.current]))],
       consumed := if w.known == w.current then w.consumed + 1 else w.consumed)
  }

  /** When the running process must give way of its policy's own accord: never under FCFS, else at the end of its
      quantum, and under the priority policy as soon as a READY process comes before it. */
  ghost predicate GivesWay(w: World)
    requires 0 <= w.current < |w.ps|
  {
    && w.algo != Fcfs
    && (w.quantum <= w.consumed
        || (w.algo == Prio && exists x :: 0 <= x < |w.ps| && w.ps[x].state == Ready && PrioHeap.Less(w.ps, x, w.current)))
  }

  ghost function Demoted(c: Pcb, algo: Algo): Pcb {
    if algo == Mlfq && c.level + 1 < LEVELS then c.(level := c.level + 1) else c
  }

  /** The running process goes back to the queue, under MLFQ one level further down. */
  ghost function Gave(w: World): (r: World)
    requires 0 <= w.current < |w.ps|
    ensures |r.ps| == |w.ps|
  {
    var v := w.(ps := w.ps[w.current := Demoted(w.ps[w.current], w.algo)], needResched := false);
    MadeReady(v, w.current).(current := -1)
  }

  /** After a tick: the running process gives way if asked to, if the timer rang, or if its policy says so. */
  ghost function Preempted(w: World, timer: bool): (r: World)
    requires 0 <= w.current < |w.ps|
    ensures |r.ps| == |w.ps|
  {
    if w.needResched || timer || GivesWay(w) then Gave(w) else w
  }

  /** A call's outcome. Blocking and page-faulting calls are tried again when the process next runs. */
  ghost function Responded(w: World, o: Outcome): (r: World)
    requires Executing(w)
    ensures |r.ps| == |w.ps|
  {
    match o
    case Fails(code) => Ended(w, code)
    case Blocks => Asleep(w, 0)
    case Sleeps => Asleep(w, w.tick + FAULT_LATENCY)
    case Done(wake) => Completed(Called(w, wake))
  }

  /** One instruction of the running process. */
  ghost function Executed(w: World, a: Answer): (r: World)
    requires Executing(w)
    ensures |r.ps| == |w.ps|
  {
    match Next(w.ss[w.current])
    case Ends(code) => Ended(w, code)
    case Burst => Preempted(Ticked(w), a.timer)
    case Sleep(n) => Asleep(Completed(w), w.tick + n)
    case Calls => Responded(w, a.outcome)
  }

  // ----- a pass -----

  ghost function Prepared(w: World): (r: World)
    ensures |r.ps| == |w.ps|
  {
    Refreshed(Woken(w))
  }

  ghost predicate Nobody(w: World) {
    w.current < 0 && ReadySet(w.ps) == {}
  }

  /** The world just before execution, given who is chosen if nobody runs. */
  ghost function Dispatched(w: World, pick: int): World {
    var v := Prepared(w);
    if v.current < 0 && 0 <= pick < |v.ps| then Chosen(v, pick) else v
  }

  ghost function Passed(w: World, pick: int, a: Answer): World {
    var v := Prepared(w);
    if Nobody(v) then if |v.blocked| == |v.ps| then Idled(v) else v
    else
      var d := Dispatched(w, pick);
      if Executing(d) then Executed(d.(calls := d.calls + 1), a) else d
  }

  /** A process that the next pass can run: READY, or due to wake. */
  ghost predicate Runnable(c: Pcb, tick: nat) {
    c.state == Ready || Due(c, tick)
  }

  // ----- requests -----

  ghost function Fresh(priority: int, tick: nat): Pcb {
    Moved(NewPcb(priority, tick), Ready, tick)
  }

  ghost function Launched(w: World, insns: seq<Insn>, priority: int): World {
    if MAX_PROCS <= |w.ps| then w
    else
      w.(ps := w.ps + [Fresh(priority, w.tick)], ss := w.ss + [Slot(true, insns, 0, 0)], blocked := w.blocked + [0],
         lines := Appended(w.algo, w.lines, 0, |w.ps|))
  }

  ghost predicate Live(w: World, pid: int) {
    0 <= pid < |w.ps| && w.ps[pid].state != Exited
  }

  /** The process ends, its slot is cleared, and the queues are rebuilt in slot order. */
  ghost function Killed(w: World, pid: int): World {
    if Live(w, pid) && pid < |w.ss| then
      Relined(w.(ps := w.ps[pid := Dead(w.ps[pid], 130, w.tick)], ss := w.ss[pid := Slot(false, [], 0, 0)],
                 current := if w.current == pid then -1 else w.current))
    else w
  }

  /** Another policy. The scheduler forgets who is running. */
  ghost function WithPolicy(w: World, algo: Algo): World {
    Relined(w.(algo := algo, known := -1, consumed := 0))
  }

  function AtLeastOne(n: nat): (r: nat)
    ensures 0 < r
  {
    if n == 0 then 1 else n
  }

  // ----- histories -----

  datatype Event =
    | Pass(pick: int, answer: Answer)
    | Launch(insns: seq<Insn>, priority: int)
    | Kill(pid: int)
    | Choose(algo: Algo)
    | Slice(ticks: nat)
    | Resched

  ghost predicate Enabled(w: World, e: Event) {
    e.Pass? ==>
      var v := Prepared(w);
      && (v.current < 0 && !Nobody(v) ==> MayRun(v, e.pick))
      && (!Nobody(v) ==> Legal(e.answer.outcome, Dispatched(w, e.pick).ps))
  }

  /** The answer of a pass is the environment's next one. */
  ghost predicate AnsweredBy(env: (nat, seq<Pcb>) -> Answer, w: World, e: Event)
    requires e.Pass?
  {
    !Nobody(Prepared(w)) ==> var d := Dispatched(w, e.pick); e.answer == env(d.calls, d.ps)
  }

  ghost function Apply(w: World, e: Event): World {
    match e
    case Pass(pick, a) => Passed(w, pick, a)
    case Launch(insns, priority) => Launched(w, insns, priority)
    case Kill(pid) => Killed(w, pid)
    case Choose(algo) => WithPolicy(w, algo)
    case Slice(n) => w.(quantum := AtLeastOne(n))
    case Resched => w.(needResched := true)
  }

  ghost function After(w: World, es: seq<Event>): World {
    if es == [] then w else Apply(After(w, es[..|es| - 1]), es[|es| - 1])
  }

  ghost predicate Possible(w: World, es: seq<Event>) {
    es == [] || (Possible(w, es[..|es| - 1]) && Enabled(After(w, es[..|es| - 1]), es[|es| - 1]))
  }

  lemma Nothing(w: World)
    ensures After(w, []) == w && Possible(w, [])
  {
  }

  lemma OneMore(w: World, es: seq<Event>, e: Event)
    ensures After(w, es + [e]) == Apply(After(w, es), e)
    ensures Possible(w, es + [e]) <==> Possible(w, es) && Enabled(After(w, es), e)
  {
    assert (es + [e])[..|es|] == es;
  }

  lemma JustOne(w: World, e: Event)
    ensures After(w, [e]) == Apply(w, e) && (Possible(w, [e]) <==> Enabled(w, e))
  {
    assert [] + [e] == [e];
    OneMore(w, [], e);
  }

  lemma {:induction false} GoOn(w: World, es: seq<Event>, fs: seq<Event>)
    ensures After(w, es + fs) == After(After(w, es), fs)
    ensures Possible(w, es + fs) <==> Possible(w, es) && Possible(After(w, es), fs)
  {
    hide Apply, Enabled;
    if fs == [] {
      assert es + fs == es;
    } else {
      var k := |fs| - 1;
      GoOn(w, es, fs[..k]);
      assert (es + fs)[..|es + fs| - 1] == es + fs[..k];
    }
  }

  lemma {:induction false} Prefix(w: World, es: seq<Event>, k: nat)
    requires Possible(w, es) && k < |es|
    ensures Possible(w, es[..k]) && Enabled(After(w, es[..k]), es[k])
  {
    hide Apply, Enabled;
    var n := |es| - 1;
    if k < n {
      Prefix(w, es[..n], k);
      assert es[..n][..k] == es[..k];
    }
  }

  // ----- runtime_step -----

  /** Passes for one tick: none but the last consumes one, and the last does unless there have been 1024. */
  ghost predicate Round(env: (nat, seq<Pcb>) -> Answer, w: World, es: seq<Event>) {
    && 0 < |es| <= MAX_GUARD && Possible(w, es)
    && (forall k :: 0 <= k < |es| ==> es[k].Pass? && AnsweredBy(env, After(w, es[..k]), es[k]))
    && (forall k :: 0 <= k < |es| ==> After(w, es[..k]).tick == w.tick)
    && (After(w, es).tick == w.tick + 1 || (After(w, es).tick == w.tick && |es| == MAX_GUARD))
  }

  /** The events of n rounds, one after the other. */
  ghost predicate Rounds(env: (nat, seq<Pcb>) -> Answer, w: World, n: nat, es: seq<Event>) {
    if n == 0 then es == []
    else exists k :: 0 <= k <= |es| && Rounds(env, w, n - 1, es[..k]) && Round(env, After(w, es[..k]), es[k..])
  }

  lemma RoundsGrow(env: (nat, seq<Pcb>) -> Answer, w: World, n: nat, es: seq<Event>, fs: seq<Event>)
    requires Rounds(env, w, n, es) && Round(env, After(w, es), fs)
    ensures Rounds(env, w, n + 1, es + fs)
  {
    hide Round, After;
    var es' := es + fs;
    assert es'[..|es|] == es && es'[|es|..] == fs;
  }
}
