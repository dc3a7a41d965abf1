/** A run in which a kill loses a message: it is held for a process that has been ended, while another waits for it. */
module WakeupExamples {
  import opened Proc
  import opened Sched
  import opened Accounting
  import opened TickSpec
  import opened TickFacts
  import opened TickWork
  import opened TickOrder
  import opened TickKills
  import opened TickExamples
  import opened Pairing
  import opened Cooperation
  import opened Wakeups
  import Q = Ipc

  const THE_QUEUE: int := 5

  /** Slots 0 and 1 receive from the queue, and slot 2 sends to it. */
  function Program(p: int, pc: nat): Op {
    if p == 2 then Send(THE_QUEUE, 7) else Recv(THE_QUEUE)
  }

  // ----- the runtime's side -----

  /** Three processes under round robin, those alive with a single call for a program, of which the given number is made. */
  ghost predicate Stage(w: World, line: seq<int>, current: int, states: seq<State>, pcs: seq<nat>) {
    && Good(w) && w.algo == RoundRobin && Awake(w.ps) && !w.needResched && w.lines.line == line && w.current == current
    && |w.ps| == |w.ss| == |states| == |pcs| == 3
    && (forall p :: 0 <= p < 3 ==> w.ps[p].state == states[p])
    && forall p :: 0 <= p < 3 && states[p] != Exited ==> w.ss[p].insns == [Call] && w.ss[p].pc == pcs[p]
  }

  lemma StageHead(w: World, line: seq<int>, states: seq<State>, pcs: seq<nat>)
    requires Stage(w, line, -1, states, pcs) && line != []
    ensures var p := line[0]; 0 <= p < 3 && states[p] == Ready && Good(Chosen(w, p))
  {
    GoodLine(w);
    assert line[0] in w.lines.line;
    HeadMayRun(w);
    GoodChosen(w, line[0]);
  }

  /** The process at the head of the line makes its call. */
  lemma StageCalls(w: World, line: seq<int>, states: seq<State>, pcs: seq<nat>, o: Outcome)
    requires Stage(w, line, -1, states, pcs) && line != [] && 0 <= line[0] < 3 && pcs[line[0]] == 0 && Legal(o, w.ps)
    ensures var p := line[0];
            var d, e := Chosen(w, p), Pass(p, Answer(o, false));
            && Enabled(w, e) && MakesCall(w, e) && Dispatched(w, p) == d && Executing(d) && Good(d) && states[p] == Ready
            && Apply(w, e) == Responded(d.(calls := d.calls + 1), o) && Good(Apply(w, e))
  {
    hide Good, Awake, Executed, Responded, Prepared, Enabled, Nobody, Foremost, Starts;
    var p, a := line[0], Answer(o, false);
    StageHead(w, line, states, pcs);
    QuietPass(w, p, a);
    GoodPassed(w, p, a);
    CallExecutes(Chosen(w, p).(calls := Chosen(w, p).calls + 1), a);
  }

  lemma StageBlocks(w: World, line: seq<int>, states: seq<State>, pcs: seq<nat>)
    requires Stage(w, line, -1, states, pcs) && line != [] && 0 <= line[0] < 3 && pcs[line[0]] == 0
    ensures Stage(Apply(w, Pass(line[0], Answer(Blocks, false))), line[1..], -1, states[line[0] := Blocked], pcs)
  {
    hide Good, Apply, Enabled, Prepared, MakesCall;
    StageCalls(w, line, states, pcs, Blocks);
  }

  lemma StageDone(w: World, line: seq<int>, states: seq<State>, pcs: seq<nat>, wake: int)
    requires Stage(w, line, -1, states, pcs) && line != [] && 0 <= line[0] < 3 && pcs[line[0]] == 0
    requires 0 <= wake < 3 && states[wake] == Exited && wake != line[0]
    ensures Stage(Apply(w, Pass(line[0], Answer(Done(wake), false))), line[1..], line[0], states[line[0] := Running], pcs[line[0] := 1])
  {
    hide Good, Apply, Enabled, Prepared, MakesCall;
    StageCalls(w, line, states, pcs, Done(wake));
  }

  /** The running process has made its call and ends. */
  lemma StageEnds(w: World, line: seq<int>, p: int, states: seq<State>, pcs: seq<nat>)
    requires Stage(w, line, p, states, pcs) && 0 <= p < 3 && pcs[p] == 1
    ensures var e := Pass(p, Quiet());
            Enabled(w, e) && !MakesCall(w, e) && Stage(Apply(w, e), line, -1, states[p := Exited], pcs)
  {
    QuietPass(w, p, Quiet());
    GoodPassed(w, p, Quiet());
    GoodExecuting(w);
    hide Sound;
  }

  lemma StageKill(w: World, line: seq<int>, states: seq<State>, pcs: seq<nat>, p: int)
    requires Stage(w, line, -1, states, pcs) && 0 <= p < 3 && states[p] == Blocked && line == [2]
    ensures Stage(Apply(w, Kill(p)), line, -1, states[p := Exited], pcs)
  {
    hide LinedUpTo, Sound, Except;
    GoodLine(w);
    assert 2 in w.lines.line;
    GoodKilled(w, p);
    KilledLine(w, p);
    ExceptIs(line, p);
    OnlyOrder(Killed(w, p).lines.line, line);
  }

  lemma StageLaunched()
    ensures var w := Launched(Launched(Launched(Begin(), [Call], 0), [Call], 0), [Call], 0);
            Stage(w, [0, 1, 2], -1, [Ready, Ready, Ready], [0, 0, 0])
  {
    hide Good, Fresh;
    FreshReady();
    BeginGood();
    var w1 := Launched(Begin(), [Call], 0);
    var w2 := Launched(w1, [Call], 0);
    var w3 := Launched(w2, [Call], 0);
    GoodLaunched(Begin(), [Call], 0);
    GoodLaunched(w1, [Call], 0);
    GoodLaunched(w2, [Call], 0);
    assert w3.ps == [Fresh(0, 0), Fresh(0, 0), Fresh(0, 0)];
    assert w3.lines.line == [0, 1, 2];
  }

  // ----- both sides -----

  /** A request. */
  lemma RequestMove(j: Joint, e: Event, op: Op)
    requires !e.Pass? && (e.Launch? ==> |j.world.ps| < Q.WAITQ_CAPACITY)
    ensures MoveOk(j, Move(e, op), Program) && JointApply(j, Move(e, op)) == Joint(Apply(j.world, e), j.kernel)
  {
    hide Prepared, Nobody, Performed, Apply;
  }

  /** A call of the process at the head of the line. */
  lemma CallMove(j: Joint, line: seq<int>, states: seq<State>, pcs: seq<nat>, k': Kernel, o: Outcome)
    requires Stage(j.world, line, -1, states, pcs) && line != [] && 0 <= line[0] < 3 && pcs[line[0]] == 0 && Legal(o, j.world.ps)
    requires Performed(j.kernel, line[0], Program(line[0], 0)) == (k', o)
    ensures var e := Pass(line[0], Answer(o, false));
            var m := Move(e, Program(line[0], 0));
            MoveOk(j, m, Program) && JointApply(j, m) == Joint(Apply(j.world, e), k')
  {
    hide Good, Prepared, Nobody, Performed, Apply, Dispatched, MayRun, Awake;
    StageCalls(j.world, line, states, pcs, o);
  }

  /** The running process ends. */
  lemma EndMove(j: Joint, line: seq<int>, p: int, states: seq<State>, pcs: seq<nat>, op: Op)
    requires Stage(j.world, line, p, states, pcs) && 0 <= p < 3 && pcs[p] == 1
    ensures var m := Move(Pass(p, Quiet()), op);
            MoveOk(j, m, Program) && JointApply(j, m) == Joint(Apply(j.world, m.event), j.kernel)
  {
    hide Good, Prepared, Nobody, Performed, Apply, MayRun, MakesCall, Awake;
    StageEnds(j.world, line, p, states, pcs);
  }

  /** The queue with the given receivers waiting and the given messages held. */
  ghost function Holding(receivers: seq<int>, grants: seq<Q.Grant>): Kernel {
    Kernel(map[THE_QUEUE := Q.View([], grants, [], receivers)], map[])
  }

  /** A receiver that finds nothing joins those who wait. */
  lemma ReceiverWaits(k: Kernel, receivers: seq<int>, pid: int)
    requires k == Holding(receivers, []) || (k == Kernel(map[], map[]) && receivers == [])
    requires pid !in receivers && |receivers| < Q.WAITQ_CAPACITY
    ensures Performed(k, pid, Recv(THE_QUEUE)) == (Holding(receivers + [pid], []), Blocks)
  {
    var v := Q.View([], [], [], receivers);
    var m: map<int, Q.View> := map[];
    assert |m| == 0;
    assert QueueAt(k, THE_QUEUE) == v;
    assert Q.RecvFrom(v, pid).0 == v && Q.RecvFrom(v, pid).1 == Q.WouldBlock;
    assert Q.Join(receivers, pid) == receivers + [pid];
    assert k.queues[THE_QUEUE := v.(recvWaiters := receivers + [pid])] == Holding(receivers + [pid], []).queues;
  }

  /** A message goes to the first of them. */
  lemma SenderWakes(receivers: seq<int>, pid: int, value: int)
    requires receivers != []
    ensures Performed(Holding(receivers, []), pid, Send(THE_QUEUE, value))
            == (Holding(receivers[1..], [Q.Grant(receivers[0], Q.Message(pid, value))]), Done(receivers[0]))
  {
    var k := Holding(receivers, []);
    var g := Q.Grant(receivers[0], Q.Message(pid, value));
    assert QueueAt(k, THE_QUEUE) == Q.View([], [], [], receivers);
    assert [] + [g] == [g];
    assert k.queues[THE_QUEUE := Q.View([], [g], [], receivers[1..])] == Holding(receivers[1..], [g]).queues;
  }

  lemma KernelSteps()
    ensures Performed(Kernel(map[], map[]), 0, Recv(THE_QUEUE)) == (Holding([0], []), Blocks)
    ensures Performed(Holding([0], []), 1, Recv(THE_QUEUE)) == (Holding([0, 1], []), Blocks)
    ensures Performed(Holding([0, 1], []), 2, Send(THE_QUEUE, 7)) == (Holding([1], [Q.Grant(0, Q.Message(2, 7))]), Done(0))
  {
    hide Performed, Holding;
    ReceiverWaits(Kernel(map[], map[]), [], 0);
    ReceiverWaits(Holding([0], []), [0], 1);
    SenderWakes([0, 1], 2, 7);
    assert [] + [0] == [0] && [0] + [1] == [0, 1] && [0, 1][1..] == [1];
  }

  ghost function Empty(): Joint {
    Joint(Begin(), Kernel(map[], map[]))
  }

  /** Slots 0 and 1 wait for a message, and slot 0 is ended. */
  lemma OneWaiterEnded() returns (ms: seq<Move>)
    ensures RunOk(Empty(), ms, Program)
    ensures var j := JointAfter(Empty(), ms);
            j.kernel == Holding([0, 1], []) && Stage(j.world, [2], -1, [Exited, Blocked, Ready], [0, 0, 0])
  {
    hide Stage, Apply, MoveOk, JointApply, JointAfter, RunOk, Performed, Holding;
    KernelSteps();
    StageLaunched();
    var j0 := Empty();
    RunNothing(j0, Program);
    var l, op := Launch([Call], 0), Recv(THE_QUEUE);
    LaunchesThree(j0, l, op);
    var ms3 := [Move(l, op), Move(l, op), Move(l, op)];
    var j3 := JointAfter(j0, ms3);
    var rrr, zzz := [Ready, Ready, Ready], [0, 0, 0];
    CallMove(j3, [0, 1, 2], rrr, zzz, Holding([0], []), Blocks);
    StageBlocks(j3.world, [0, 1, 2], rrr, zzz);
    var m4 := Move(Pass(0, Answer(Blocks, false)), op);
    RunMore(j0, ms3, m4, Program);
    var j4 := JointAfter(j0, ms3 + [m4]);
    var brr := [Blocked, Ready, Ready];
    assert rrr[0 := Blocked] == brr && [0, 1, 2][1..] == [1, 2];
    CallMove(j4, [1, 2], brr, zzz, Holding([0, 1], []), Blocks);
    StageBlocks(j4.world, [1, 2], brr, zzz);
    var m5 := Move(Pass(1, Answer(Blocks, false)), op);
    RunMore(j0, ms3 + [m4], m5, Program);
    var j5 := JointAfter(j0, ms3 + [m4] + [m5]);
    var bbr := [Blocked, Blocked, Ready];
    assert brr[1 := Blocked] == bbr && [1, 2][1..] == [2];
    RequestMove(j5, Kill(0), op);
    StageKill(j5.world, [2], bbr, zzz, 0);
    assert bbr[0 := Exited] == [Exited, Blocked, Ready];
    RunMore(j0, ms3 + [m4] + [m5], Move(Kill(0), op), Program);
    ms := ms3 + [m4] + [m5] + [Move(Kill(0), op)];
  }

  lemma LaunchesThree(j: Joint, l: Event, op: Op)
    requires j == Empty() && l == Launch([Call], 0)
    ensures var ms, m := [Move(l, op), Move(l, op), Move(l, op)], Move(l, op);
            RunOk(j, ms, Program)
            && JointAfter(j, ms) ==
               Joint(Launched(Launched(Launched(Begin(), [Call], 0), [Call], 0), [Call], 0), Kernel(map[], map[]))
  {
    hide MoveOk, JointApply, JointAfter, RunOk;
    var m := Move(l, op);
    RunNothing(j, Program);
    RequestMove(j, l, op);
    RunMore(j, [], m, Program);
    var j1 := JointAfter(j, [] + [m]);
    RequestMove(j1, l, op);
    RunMore(j, [] + [m], m, Program);
    var j2 := JointAfter(j, [] + [m] + [m]);
    RequestMove(j2, l, op);
    RunMore(j, [] + [m] + [m], m, Program);
    assert [] + [m] + [m] + [m] == [m, m, m];
  }

  /** It happens: slots 0 and 1 wait for a message, slot 0 is ended, and the message that slot 2 then sends is held for slot 0.
      Nobody is READY or running any more, and slot 1 still waits. */
  lemma MessageLost() returns (ms: seq<Move>)
    ensures RunOk(Empty(), ms, Program)
    ensures var j := JointAfter(Empty(), ms);
            && On(j.kernel, Receiving(THE_QUEUE), 1) && QueueAt(j.kernel, THE_QUEUE).grants == [Q.Grant(0, Q.Message(2, 7))]
            && |j.world.ps| == 3 && j.world.ps[0].state == j.world.ps[2].state == Exited && j.world.ps[1].state == Blocked
  {
    hide Apply, MoveOk, JointApply, JointAfter, RunOk, Performed, Good, Awake;
    KernelSteps();
    var j0 := Empty();
    var ms6 := OneWaiterEnded();
    var j6 := JointAfter(j0, ms6);
    var xbr, zzz := [Exited, Blocked, Ready], [0, 0, 0];
    var g := Q.Grant(0, Q.Message(2, 7));
    CallMove(j6, [2], xbr, zzz, Holding([1], [g]), Done(0));
    StageDone(j6.world, [2], xbr, zzz, 0);
    var m7 := Move(Pass(2, Answer(Done(0), false)), Send(THE_QUEUE, 7));
    RunMore(j0, ms6, m7, Program);
    var j7 := JointAfter(j0, ms6 + [m7]);
    EndMove(j7, [2][1..], 2, xbr[2 := Running], zzz[2 := 1], Send(THE_QUEUE, 7));
    StageEnds(j7.world, [2][1..], 2, xbr[2 := Running], zzz[2 := 1]);
    var m8 := Move(Pass(2, Quiet()), Send(THE_QUEUE, 7));
    RunMore(j0, ms6 + [m7], m8, Program);
    ms := ms6 + [m7] + [m8];
  }
}
